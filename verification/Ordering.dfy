/** The stable sort the parsers rely on, given by its three properties: sorted, the same
    rows, and equal keys left in their original order. */
module Ordering {
  import opened Basics

  ghost predicate TotalPreorder<T(!new)>(leq: (T, T) -> bool) {
    && (forall x, y :: leq(x, y) || leq(y, x))
    && (forall x, y, z :: leq(x, y) && leq(y, z) ==> leq(x, z))
  }

  ghost predicate SortedBy<T>(s: seq<T>, leq: (T, T) -> bool) {
    forall i, j :: 0 <= i < j < |s| ==> leq(s[i], s[j])
  }

  function InsertBy<T>(x: T, s: seq<T>, leq: (T, T) -> bool): seq<T> {
    if s == [] then [x]
    else if leq(x, s[0]) then [x] + s
    else [s[0]] + InsertBy(x, s[1..], leq)
  }

  function SortBy<T>(s: seq<T>, leq: (T, T) -> bool): seq<T> {
    if s == [] then [] else InsertBy(s[0], SortBy(s[1..], leq), leq)
  }

  lemma {:induction false} InsertByMultiset<T>(x: T, s: seq<T>, leq: (T, T) -> bool)
    ensures multiset(InsertBy(x, s, leq)) == multiset(s) + multiset{x}
  {
    if s != [] && !leq(x, s[0]) {
      InsertByMultiset(x, s[1..], leq);
      assert s == [s[0]] + s[1..];
    }
  }

  lemma {:induction false} InsertBySorted<T(!new)>(x: T, s: seq<T>, leq: (T, T) -> bool)
    requires TotalPreorder(leq) && SortedBy(s, leq)
    ensures SortedBy(InsertBy(x, s, leq), leq)
  {
    if s != [] && !leq(x, s[0]) {
      InsertBySorted(x, s[1..], leq);
      InsertByMultiset(x, s[1..], leq);
      var rest := InsertBy(x, s[1..], leq);
      forall j | 0 <= j < |rest|
        ensures leq(s[0], rest[j])
      {
        assert rest[j] in multiset(rest);
      }
    }
  }

  lemma {:induction false} FilterCons<T>(x: T, s: seq<T>, p: T -> bool)
    ensures Filter([x] + s, p) == (if p(x) then [x] else []) + Filter(s, p)
  {
    FilterAppend([x], s, p);
    assert [x][..0] == [];
  }

  lemma {:induction false} InsertByStable<T>(x: T, s: seq<T>, leq: (T, T) -> bool, p: T -> bool)
    requires forall a, b :: a in [x] + s && b in [x] + s && p(a) && p(b) ==> leq(a, b)
    ensures Filter(InsertBy(x, s, leq), p) == Filter([x] + s, p)
  {
    if s != [] && !leq(x, s[0]) {
      assert x in [x] + s && s[0] in [x] + s;
      assert s == [s[0]] + s[1..];
      InsertByStable(x, s[1..], leq, p);
      FilterCons(s[0], InsertBy(x, s[1..], leq), p);
      FilterCons(s[0], s[1..], p);
      FilterCons(x, s[1..], p);
      FilterCons(x, s, p);
    }
  }

  lemma {:induction false} SortByMultiset<T>(s: seq<T>, leq: (T, T) -> bool)
    ensures multiset(SortBy(s, leq)) == multiset(s)
    ensures |SortBy(s, leq)| == |s|
  {
    if s != [] {
      SortByMultiset(s[1..], leq);
      InsertByMultiset(s[0], SortBy(s[1..], leq), leq);
      assert s == [s[0]] + s[1..];
    }
    assert |multiset(SortBy(s, leq))| == |SortBy(s, leq)|;
  }

  lemma {:induction false} SortBySorted<T(!new)>(s: seq<T>, leq: (T, T) -> bool)
    requires TotalPreorder(leq)
    ensures SortedBy(SortBy(s, leq), leq)
  {
    if s != [] {
      SortBySorted(s[1..], leq);
      InsertBySorted(s[0], SortBy(s[1..], leq), leq);
    }
  }

  /** Rows that compare equal keep the order they came in. */
  lemma {:induction false} SortByStable<T>(s: seq<T>, leq: (T, T) -> bool, p: T -> bool)
    requires forall a, b :: a in s && b in s && p(a) && p(b) ==> leq(a, b)
    ensures Filter(SortBy(s, leq), p) == Filter(s, p)
  {
    if s != [] {
      var rest := SortBy(s[1..], leq);
      SortByStable(s[1..], leq, p);
      SortByMultiset(s[1..], leq);
      forall x | x in [s[0]] + rest
        ensures x in s
      {
        assert x in rest ==> x in multiset(rest);
      }
      InsertByStable(s[0], rest, leq, p);
      FilterAppend([s[0]], rest, p);
      FilterAppend([s[0]], s[1..], p);
      assert s == [s[0]] + s[1..];
    }
  }

  /** What is in order already stays as it is. */
  lemma {:induction false} SortByIdle<T>(s: seq<T>, leq: (T, T) -> bool)
    requires SortedBy(s, leq)
    ensures SortBy(s, leq) == s
  {
    if s != [] {
      SortByIdle(s[1..], leq);
      assert s == [s[0]] + s[1..];
    }
  }

  lemma {:induction false} SortByMembers<T>(s: seq<T>, leq: (T, T) -> bool, x: T)
    ensures x in SortBy(s, leq) <==> x in s
  {
    SortByMultiset(s, leq);
    assert x in SortBy(s, leq) <==> x in multiset(SortBy(s, leq));
  }
}
