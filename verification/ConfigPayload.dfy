/** The text that runtimeConfigChecksum hashes: sorted, decimal-length-prefixed key/value frames.
    The decoder below accepts exactly the texts the encoder produces. */
module ConfigPayload {
  import opened Wrappers
  import opened Ordering

  /******* Decimal lengths (strconv.Itoa) *******/

  function Digit(d: nat): char
    requires d < 10
  {
    ('0' as int + d) as char
  }

  function Itoa(n: nat): string {
    if n < 10 then [Digit(n)] else Itoa(n / 10) + [Digit(n % 10)]
  }

  predicate IsDigit(c: char) {
    '0' <= c <= '9'
  }

  /** Decimal text without superfluous leading zeros. */
  predicate IsDecimal(s: string) {
    s != "" && (|s| > 1 ==> s[0] != '0') && forall i :: 0 <= i < |s| ==> IsDigit(s[i])
  }

  function Atoi(s: string): nat
    requires s != "" && forall i :: 0 <= i < |s| ==> IsDigit(s[i])
  {
    assert IsDigit(s[|s| - 1]);
    var last := s[|s| - 1] as int - '0' as int;
    if |s| == 1 then last else Atoi(s[..|s| - 1]) * 10 + last
  }

  lemma {:induction false} AtoiUndoesItoa(n: nat)
    ensures IsDecimal(Itoa(n)) && Atoi(Itoa(n)) == n
    ensures n > 0 ==> Itoa(n)[0] != '0'
  {
    if n >= 10 {
      AtoiUndoesItoa(n / 10);
      assert Itoa(n)[..|Itoa(n)| - 1] == Itoa(n / 10);
    }
  }

  lemma {:induction false} ItoaUndoesAtoi(s: string)
    requires IsDecimal(s)
    ensures Itoa(Atoi(s)) == s
    ensures s != "0" ==> Atoi(s) > 0
  {
    if |s| > 1 {
      var front := s[..|s| - 1];
      assert IsDecimal(front) && front != "0" by { assert front[0] == s[0]; }
      ItoaUndoesAtoi(front);
      assert s == front + [s[|s| - 1]];
    } else {
      assert s == [s[0]];
    }
  }

  /******* Encoder *******/

  function Field(text: string, end: char): string {
    Itoa(|text|) + ":" + text + [end]
  }

  function Frame(entry: (string, string)): string {
    Field(entry.0, ':') + Field(entry.1, ';')
  }

  function Encode(entries: seq<(string, string)>): string {
    if entries == [] then "" else Frame(entries[0]) + Encode(entries[1..])
  }

  function EntriesOf(keys: seq<string>, data: map<string, string>): seq<(string, string)>
    requires forall k :: k in keys ==> k in data
  {
    seq(|keys|, i requires 0 <= i < |keys| => assert keys[i] in keys; (keys[i], data[keys[i]]))
  }

  function Payload(data: map<string, string>): string {
    Encode(EntriesOf(SortedSeq(data.Keys), data))
  }

  lemma {:induction false} EncodeAppend(entries: seq<(string, string)>, entry: (string, string))
    ensures Encode(entries + [entry]) == Encode(entries) + Frame(entry)
  {
    if entries == [] {
      assert Encode([entry]) == Frame(entry) + Encode([]);
    } else {
      assert (entries + [entry])[1..] == entries[1..] + [entry];
      EncodeAppend(entries[1..], entry);
      assert Encode(entries + [entry]) == Frame(entries[0]) + (Encode(entries[1..]) + Frame(entry));
    }
  }

  /** The eight writes to the strings.Builder for one entry. */
  method WriteFrame(builder: string, key: string, value: string) returns (written: string)
    ensures written == builder + Frame((key, value))
  {
    written := builder + Itoa(|key|);
    written := written + ":";
    written := written + key;
    written := written + ":";
    assert written == builder + Field(key, ':');
    ghost var half := written;
    written := written + Itoa(|value|);
    written := written + ":";
    written := written + value;
    written := written + ";";
    assert written == half + Field(value, ';');
  }

  method WriteFrames(keys: seq<string>, data: map<string, string>) returns (payload: string)
    requires forall k :: k in keys ==> k in data
    ensures payload == Encode(EntriesOf(keys, data))
  {
    payload := "";
    ghost var entries := EntriesOf(keys, data);
    for n := 0 to |keys|
      invariant payload == Encode(entries[..n])
    {
      assert keys[n] in keys;
      payload := WriteFrame(payload, keys[n], data[keys[n]]);
      EncodeAppend(entries[..n], entries[n]);
      assert entries[..n + 1] == entries[..n] + [entries[n]];
    }
    assert entries[..|keys|] == entries;
  }

  /** runtimeConfigChecksum up to the hash: the keys are collected in whatever order the map
      yields them, sorted, and written frame by frame into a builder. */
  method RuntimeConfigPayload(data: map<string, string>) returns (payload: string)
    ensures payload == Payload(data)
  {
    var keys := RangeOver(data.Keys);
    keys := SortStrings(keys);
    payload := WriteFrames(keys, data);
  }

  /******* Decoder *******/

  function Colon(s: string): (i: nat)
    ensures i <= |s| && ':' !in s[..i]
    ensures i < |s| ==> s[i] == ':'
  {
    if s == "" || s[0] == ':' then 0 else 1 + Colon(s[1..])
  }

  /** Splits one length-prefixed field, closed by `end`, off the front of `s`. */
  function ReadField(s: string, end: char): (r: Option<(string, string)>)
    ensures r.Some? ==> |r.value.1| < |s|
  {
    var i := Colon(s);
    if i == |s| || !IsDecimal(s[..i]) then None
    else
      var n, rest := Atoi(s[..i]), s[i + 1..];
      if n < |rest| && rest[n] == end then Some((rest[..n], rest[n + 1..])) else None
  }

  function DecodeEntries(s: string): Option<seq<(string, string)>>
    decreases |s|
  {
    if s == "" then Some([])
    else
      var key := ReadField(s, ':');
      if key.None? then None
      else
        var value := ReadField(key.value.1, ';');
        if value.None? then None
        else
          var rest := DecodeEntries(value.value.1);
          if rest.None? then None else Some([(key.value.0, value.value.0)] + rest.value)
  }

  function KeysOf(entries: seq<(string, string)>): seq<string> {
    seq(|entries|, i requires 0 <= i < |entries| => entries[i].0)
  }

  function ToMap(entries: seq<(string, string)>): map<string, string> {
    if entries == [] then map[] else ToMap(entries[1..])[entries[0].0 := entries[0].1]
  }

  function Decode(s: string): Option<map<string, string>> {
    var entries := DecodeEntries(s);
    if entries.Some? && StrictlySorted(KeysOf(entries.value)) then Some(ToMap(entries.value)) else None
  }

  lemma {:induction false} ColonAfter(head: string, rest: string)
    requires ':' !in head
    ensures Colon(head + ":" + rest) == |head|
  {
    var s := head + ":" + rest;
    if head == "" {
    } else {
      assert s[0] == head[0] && head[0] in head;
      assert s[1..] == head[1..] + ":" + rest;
      ColonAfter(head[1..], rest);
    }
  }

  lemma Regroup(a: string, b: string, c: string, d: string, e: string)
    ensures a + b + c + d + e == a + b + (c + d + e)
  {
  }

  lemma FieldSplits(text: string, end: char, tail: string)
    ensures Field(text, end) + tail == Itoa(|text|) + ":" + (text + [end] + tail)
  {
    hide Itoa;
    Regroup(Itoa(|text|), ":", text, [end], tail);
  }

  lemma FieldIsRead(text: string, end: char, tail: string)
    ensures ReadField(Field(text, end) + tail, end) == Some((text, tail))
  {
    var s, digits, rest := Field(text, end) + tail, Itoa(|text|), text + [end] + tail;
    AtoiUndoesItoa(|text|);
    FieldSplits(text, end, tail);
    ColonAfter(digits, rest);
    assert s[..|digits|] == digits;
    assert s[|digits| + 1..] == rest;
    assert rest[..|text|] == text;
    assert rest[|text| + 1..] == tail;
  }

  lemma ReadIsField(s: string, end: char)
    requires ReadField(s, end).Some?
    ensures var (text, tail) := ReadField(s, end).value; s == Field(text, end) + tail
  {
    hide Itoa, Atoi, Field, Colon;
    var i := Colon(s);
    var (text, tail) := ReadField(s, end).value;
    var digits, rest := s[..i], s[i + 1..];
    ItoaUndoesAtoi(digits);
    FieldSplits(text, end, tail);
    assert |text| == Atoi(digits);
    assert rest == text + [end] + tail;
    assert s == digits + ":" + rest;
  }

  /** Reading a field succeeds exactly on what Field writes, whatever the text contains. */
  lemma ReadFieldIff(s: string, end: char, text: string, tail: string)
    ensures ReadField(s, end) == Some((text, tail)) <==> s == Field(text, end) + tail
  {
    FieldIsRead(text, end, tail);
    if ReadField(s, end).Some? { ReadIsField(s, end); }
  }

  lemma EncodeCons(key: string, value: string, entries: seq<(string, string)>)
    ensures Encode([(key, value)] + entries) == Field(key, ':') + (Field(value, ';') + Encode(entries))
  {
    hide Field;
    var all := [(key, value)] + entries;
    assert all[1..] == entries;
    Associate(Field(key, ':'), Field(value, ';'), Encode(entries));
  }

  lemma Associate(a: string, b: string, c: string)
    ensures (a + b) + c == a + (b + c)
  {
  }

  lemma {:induction false} EncodedIsDecoded(entries: seq<(string, string)>)
    ensures DecodeEntries(Encode(entries)) == Some(entries)
  {
    if entries == [] {
    } else {
      var (key, value) := entries[0];
      assert entries == [(key, value)] + entries[1..];
      EncodeCons(key, value, entries[1..]);
      var tail := Encode(entries[1..]);
      var rest := Field(value, ';') + tail;
      ReadFieldIff(Field(key, ':') + rest, ':', key, rest);
      ReadFieldIff(rest, ';', value, tail);
      EncodedIsDecoded(entries[1..]);
      assert Field(key, ':') != "";
    }
    hide Field, ReadField;
  }

  lemma EncodeNothing()
    ensures Encode([]) == ""
  {
  }

  lemma {:induction false} DecodedIsEncoded(s: string)
    requires DecodeEntries(s).Some?
    ensures Encode(DecodeEntries(s).value) == s
    decreases |s|
  {
    hide Field, ReadField, Encode;
    if s == "" {
      EncodeNothing();
    } else {
      var (key, rest) := ReadField(s, ':').value;
      var (value, tail) := ReadField(rest, ';').value;
      ReadFieldIff(s, ':', key, rest);
      ReadFieldIff(rest, ';', value, tail);
      DecodedIsEncoded(tail);
      EncodeCons(key, value, DecodeEntries(tail).value);
    }
  }

  lemma {:induction false} ToMapAt(entries: seq<(string, string)>)
    requires StrictlySorted(KeysOf(entries))
    ensures forall k :: k in ToMap(entries) <==> k in KeysOf(entries)
    ensures forall i :: 0 <= i < |entries| ==> entries[i].0 in ToMap(entries) && ToMap(entries)[entries[i].0] == entries[i].1
  {
    if entries == [] {
    } else {
      var keys, rest := KeysOf(entries), entries[1..];
      assert KeysOf(rest) == keys[1..];
      ToMapAt(rest);
      forall i | 0 <= i < |entries|
        ensures entries[i].0 in ToMap(entries) && ToMap(entries)[entries[i].0] == entries[i].1
      {
        if i > 0 {
          assert entries[i] == rest[i - 1];
          LessTotal(keys[0], keys[i]);
        }
      }
      assert keys == [keys[0]] + keys[1..];
    }
  }

  /** The checksum payload is a lossless canonical encoding: a text decodes to `data` exactly when
      it is the payload of `data`. */
  lemma PayloadIsCanonical(s: string, data: map<string, string>)
    ensures Decode(s) == Some(data) <==> s == Payload(data)
  {
    var keys := SortedSeq(data.Keys);
    var entries := EntriesOf(keys, data);
    assert KeysOf(entries) == keys;
    ToMapAt(entries);
    assert ToMap(entries) == data by {
      forall k | k in data ensures k in ToMap(entries) && ToMap(entries)[k] == data[k] {
        var i :| 0 <= i < |keys| && keys[i] == k;
        assert entries[i].0 == k;
      }
    }
    if s == Payload(data) {
      EncodedIsDecoded(entries);
    }
    if Decode(s) == Some(data) {
      var found := DecodeEntries(s).value;
      DecodedIsEncoded(s);
      ToMapAt(found);
      SortedSeqUnique(KeysOf(found), data.Keys);
      forall i | 0 <= i < |found| ensures found[i] == entries[i] {
        assert KeysOf(found)[i] == keys[i];
      }
      assert found == entries;
    }
  }

  /** Different configuration maps never share a payload. */
  lemma PayloadInjective(a: map<string, string>, b: map<string, string>)
    ensures Payload(a) == Payload(b) ==> a == b
  {
    PayloadIsCanonical(Payload(a), a);
    PayloadIsCanonical(Payload(a), b);
  }
}
