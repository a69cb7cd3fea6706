/** Byte-wise string order and the ordered listing of a finite set of strings, which is what
    ranging over a Go map and then calling slices.Sort produces. */
module Ordering {

  /** Go's `<` on strings. One `char` stands for one byte. */
  predicate Less(a: string, b: string) {
    if b == "" then false
    else if a == "" then true
    else a[0] < b[0] || (a[0] == b[0] && Less(a[1..], b[1..]))
  }

  lemma {:induction false} LessTransitive(a: string, b: string, c: string)
    requires Less(a, b) && Less(b, c)
    ensures Less(a, c)
  {
    if a != "" && a[0] == b[0] == c[0] {
      LessTransitive(a[1..], b[1..], c[1..]);
    }
  }

  lemma {:induction false} LessTotal(a: string, b: string)
    ensures a == b || Less(a, b) || Less(b, a)
    ensures Less(a, b) ==> a != b && !Less(b, a)
  {
    if a != "" && b != "" && a[0] == b[0] {
      LessTotal(a[1..], b[1..]);
      assert a == [a[0]] + a[1..] && b == [b[0]] + b[1..];
    }
  }

  predicate Least(m: string, s: set<string>) {
    m in s && forall x :: x in s ==> x == m || Less(m, x)
  }

  lemma {:induction false} LeastExists(s: set<string>) returns (m: string)
    requires s != {}
    ensures Least(m, s)
  {
    var x :| x in s;
    if s == {x} {
      m := x;
    } else {
      var m' := LeastExists(s - {x});
      LessTotal(x, m');
      m := if Less(x, m') then x else m';
      forall y | y in s ensures y == m || Less(m, y) {
        if Less(x, m') && y != x && y != m' {
          LessTransitive(x, m', y);
        }
      }
    }
  }

  lemma LeastUnique(s: set<string>, a: string, b: string)
    requires Least(a, s) && Least(b, s)
    ensures a == b
  {
    LessTotal(a, b);
  }

  predicate StrictlySorted(s: seq<string>) {
    forall i, j :: 0 <= i < j < |s| ==> Less(s[i], s[j])
  }

  /** The elements of `s`, each once, in increasing order. */
  function SortedSeq(s: set<string>): (r: seq<string>)
    ensures StrictlySorted(r)
    ensures forall x :: x in r <==> x in s
  {
    if s == {} then []
    else
      assert exists m :: Least(m, s) by { var m := LeastExists(s); }
      assert forall a, b :: Least(a, s) && Least(b, s) ==> a == b by {
        forall a, b | Least(a, s) && Least(b, s) ensures a == b { LeastUnique(s, a, b); }
      }
      var m :| m in s && Least(m, s);
      [m] + SortedSeq(s - {m})
  }

  /** A strictly increasing listing is determined by its elements. */
  lemma {:induction false} SortedSeqUnique(r: seq<string>, s: set<string>)
    requires StrictlySorted(r)
    requires forall x :: x in r <==> x in s
    ensures r == SortedSeq(s)
  {
    assert r != [] ==> r[0] in r;
    if s == {} {
      assert SortedSeq(s) == [];
    } else {
      var t := SortedSeq(s);
      assert t[0] in t;
      assert Least(t[0], s);
      assert r != [];
      assert Least(r[0], s) by {
        assert r[0] in r;
        forall x | x in s ensures x == r[0] || Less(r[0], x) {
          var i :| 0 <= i < |r| && r[i] == x;
        }
      }
      LeastUnique(s, r[0], t[0]);
      var rest := r[1..];
      forall x ensures x in rest <==> x in s - {r[0]} {
        if x in rest {
          var i :| 0 <= i < |rest| && rest[i] == x;
          assert r[i + 1] == x;
          LessTotal(r[0], x);
        }
        if x in s - {r[0]} {
          var i :| 0 <= i < |r| && r[i] == x;
          assert rest[i - 1] == x;
        }
      }
      SortedSeqUnique(rest, s - {r[0]});
      assert r == [r[0]] + rest;
      var m :| m in s && Least(m, s) && t == [m] + SortedSeq(s - {m});
    }
  }

  /** slices.Sort, written out as an insertion sort, on a listing without repetitions. */
  method SortStrings(names: seq<string>) returns (sorted: seq<string>)
    requires forall i, j :: 0 <= i < j < |names| ==> names[i] != names[j]
    ensures sorted == SortedSeq(set x | x in names)
  {
    sorted := [];
    for n := 0 to |names|
      invariant StrictlySorted(sorted)
      invariant forall x :: x in sorted <==> x in names[..n]
    {
      var name := names[n];
      var at := 0;
      while at < |sorted| && Less(sorted[at], name)
        invariant 0 <= at <= |sorted|
        invariant forall i :: 0 <= i < at ==> Less(sorted[i], name)
      {
        at := at + 1;
      }
      assert name !in names[..n];
      ghost var before := sorted;
      forall i | at <= i < |before| ensures Less(name, before[i]) {
        LessTotal(before[at], name);
        assert before[at] in before;
        if i > at { LessTransitive(name, before[at], before[i]); }
      }
      sorted := sorted[..at] + [name] + sorted[at..];
      assert names[..n + 1] == names[..n] + [name];
      assert before == before[..at] + before[at..];
    }
    assert names[..|names|] == names;
    SortedSeqUnique(sorted, set x | x in names);
  }

  /** Ranging over a Go map, or listing objects: each element once, in some order. */
  method RangeOver<T(==)>(s: set<T>) returns (names: seq<T>)
    ensures (set x | x in names) == s
    ensures forall i, j :: 0 <= i < j < |names| ==> names[i] != names[j]
  {
    names := [];
    var unseen := s;
    while unseen != {}
      invariant unseen <= s
      invariant forall x :: x in names <==> x in s - unseen
      invariant forall i, j :: 0 <= i < j < |names| ==> names[i] != names[j]
      decreases unseen
    {
      var name :| name in unseen;
      assert name !in names;
      ghost var before := names;
      names := names + [name];
      unseen := unseen - {name};
      assert forall x :: x in names <==> x in before || x == name;
    }
  }
}
