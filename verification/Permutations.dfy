/** Orderings by position, in the order itertools.permutations lists them. */
module Permutations {
  import opened Basics
  import opened Sums

  function Without<T>(s: seq<T>, i: nat): seq<T>
    requires i < |s|
  {
    s[..i] + s[i + 1..]
  }

  function Prefixed<T>(x: T, ps: seq<seq<T>>): seq<seq<T>> {
    seq(|ps|, k requires 0 <= k < |ps| => [x] + ps[k])
  }

  /** All orderings of s by position, lexicographically. */
  function Perms<T>(s: seq<T>): seq<seq<T>>
    decreases |s|, |s| + 1
  {
    if s == [] then [[]] else PermsFrom(s, 0)
  }

  /** Those that start with the element at position i or later. */
  function PermsFrom<T>(s: seq<T>, i: nat): seq<seq<T>>
    requires i <= |s|
    decreases |s|, |s| - i
  {
    if i == |s| then [] else Prefixed(s[i], Perms(Without(s, i))) + PermsFrom(s, i + 1)
  }

  /** p lists the elements of s, each once. */
  ghost predicate Reorders(p: seq<nat>, s: seq<nat>) {
    Distinct(p) && forall x :: x in p <==> x in s
  }

  function Range(n: nat): seq<nat> {
    seq(n, i => i)
  }

  /** p is a rearrangement of the positions 0..n. */
  ghost predicate IsIndexPerm(p: seq<nat>, n: nat) {
    Distinct(p) && forall x: nat :: x in p <==> x < n
  }

  lemma {:induction false} PrefixedMember<T>(x: T, ps: seq<seq<T>>, p: seq<T>)
    ensures p in Prefixed(x, ps) <==> p != [] && p[0] == x && p[1..] in ps
  {
    if p in Prefixed(x, ps) {
      var k :| 0 <= k < |ps| && Prefixed(x, ps)[k] == p;
      assert p[1..] == ps[k];
    }
    if p != [] && p[0] == x && p[1..] in ps {
      var k :| 0 <= k < |ps| && ps[k] == p[1..];
      assert Prefixed(x, ps)[k] == p;
    }
  }

  lemma {:induction false} WithoutReorders(s: seq<nat>, i: nat)
    requires Distinct(s) && i < |s|
    ensures Distinct(Without(s, i))
    ensures forall x :: x in Without(s, i) <==> x in s && x != s[i]
  {
    forall x | x in s && x != s[i]
      ensures x in Without(s, i)
    {
      var k :| 0 <= k < |s| && s[k] == x;
      if k < i {
        assert Without(s, i)[k] == x;
      } else {
        assert Without(s, i)[k - 1] == x;
      }
    }
  }

  /** The enumeration lists exactly the rearrangements. */
  lemma {:induction false} PermsAreReorderings(s: seq<nat>, p: seq<nat>)
    requires Distinct(s)
    ensures p in Perms(s) <==> Reorders(p, s)
    decreases |s|, |s| + 1
  {
    if s == [] {
      assert p != [] ==> p[0] in p;
    } else {
      PermsFromAreReorderings(s, 0, p);
      if Reorders(p, s) {
        assert s[0] in p;
        assert p[0] in p;
        var k :| 0 <= k < |s| && s[k] == p[0];
      }
    }
  }

  lemma {:induction false} PermsFromAreReorderings(s: seq<nat>, i: nat, p: seq<nat>)
    requires Distinct(s) && i <= |s|
    ensures p in PermsFrom(s, i) <==> Reorders(p, s) && p != [] && exists k :: i <= k < |s| && s[k] == p[0]
    decreases |s|, |s| - i
  {
    if i < |s| {
      PermsFromAreReorderings(s, i + 1, p);
      PrefixedMember(s[i], Perms(Without(s, i)), p);
      if p != [] && p[0] == s[i] {
        PermsAreReorderings(Without(s, i), p[1..]);
        WithoutReorders(s, i);
        TailReorders(s, i, p);
      }
    }
  }

  lemma {:induction false} TailReorders(s: seq<nat>, i: nat, p: seq<nat>)
    requires Distinct(s) && i < |s| && p != [] && p[0] == s[i]
    ensures Reorders(p[1..], Without(s, i)) <==> Reorders(p, s)
  {
    WithoutReorders(s, i);
    assert p == [p[0]] + p[1..];
    if Reorders(p, s) {
      assert forall x :: x in p[1..] ==> x in p && x != p[0];
      assert forall x :: x in p && x != p[0] ==> x in p[1..];
    }
    if Reorders(p[1..], Without(s, i)) {
      assert p[0] !in p[1..];
      assert forall j :: 0 < j < |p| ==> p[j] == p[1..][j - 1];
    }
  }

  /** ... each of them once ... */
  lemma {:induction false} PermsDistinct(s: seq<nat>)
    requires Distinct(s)
    ensures Distinct(Perms(s))
    decreases |s|, |s| + 1
  {
    if s != [] {
      PermsFromDistinct(s, 0);
    }
  }

  lemma {:induction false} PermsFromDistinct(s: seq<nat>, i: nat)
    requires Distinct(s) && i <= |s|
    ensures Distinct(PermsFrom(s, i))
    decreases |s|, |s| - i
  {
    if i < |s| {
      WithoutReorders(s, i);
      PermsDistinct(Without(s, i));
      PermsFromDistinct(s, i + 1);
      var head, tail := Prefixed(s[i], Perms(Without(s, i))), PermsFrom(s, i + 1);
      forall a, b | 0 <= a < |head| && 0 <= b < |tail|
        ensures head[a] != tail[b]
      {
        assert tail[b] in tail;
        PermsFromAreReorderings(s, i + 1, tail[b]);
        assert head[a][0] == s[i];
      }
      forall a, b | 0 <= a < b < |head|
        ensures head[a] != head[b]
      {
        assert head[a][1..] == Perms(Without(s, i))[a];
        assert head[b][1..] == Perms(Without(s, i))[b];
      }
    }
  }

  /** ... and all of the same length. */
  lemma {:induction false} PermsLength(s: seq<nat>, p: seq<nat>)
    requires p in Perms(s)
    ensures |p| == |s|
    decreases |s|, |s| + 1
  {
    if s != [] {
      PermsFromLength(s, 0, p);
    }
  }

  lemma {:induction false} PermsFromLength(s: seq<nat>, i: nat, p: seq<nat>)
    requires i <= |s| && p in PermsFrom(s, i)
    ensures |p| == |s|
    decreases |s|, |s| - i
  {
    PrefixedMember(s[i], Perms(Without(s, i)), p);
    if p in Prefixed(s[i], Perms(Without(s, i))) {
      PermsLength(Without(s, i), p[1..]);
    } else {
      PermsFromLength(s, i + 1, p);
    }
  }

  /** itertools.permutations over positions enumerates the index permutations. */
  lemma {:induction false} IndexPermsEnumerated(n: nat, p: seq<nat>)
    ensures p in Perms(Range(n)) <==> IsIndexPerm(p, n)
    ensures IsIndexPerm(p, n) ==> |p| == n
  {
    forall x: nat
      ensures x in Range(n) <==> x < n
    {
      if x in Range(n) {
        var k :| 0 <= k < n && Range(n)[k] == x;
      }
      if x < n {
        assert Range(n)[x] == x;
      }
    }
    PermsAreReorderings(Range(n), p);
    if p in Perms(Range(n)) {
      PermsLength(Range(n), p);
    }
  }

  // ---- using an index permutation ----

  ghost predicate Fits(p: seq<nat>, n: nat) {
    forall x :: x in p ==> x < n
  }

  function Apply<T>(p: seq<nat>, c: seq<T>): seq<T>
    requires Fits(p, |c|)
  {
    seq(|p|, i requires 0 <= i < |p| => assert p[i] in p; c[p[i]])
  }

  lemma {:induction false} MultisetWithout<T>(a: seq<T>, k: nat)
    requires k < |a|
    ensures multiset(a) == multiset(Without(a, k)) + multiset{a[k]}
  {
    assert a == a[..k] + [a[k]] + a[k + 1..];
  }

  /** Taking the last position out of p leaves an index permutation of the rest. */
  lemma {:induction false} DropLastPosition<T>(p: seq<nat>, c: seq<T>, k: nat)
    requires c != [] && IsIndexPerm(p, |c|)
    requires k < |p| && p[k] == |c| - 1
    ensures IsIndexPerm(Without(p, k), |c| - 1)
    ensures Apply(Without(p, k), c[..|c| - 1]) == Without(Apply(p, c), k)
  {
    var n := |c| - 1;
    var q := Without(p, k);
    WithoutReorders(p, k);
    forall i | 0 <= i < |q|
      ensures Apply(q, c[..n])[i] == Without(Apply(p, c), k)[i]
    {
      assert q[i] in q;
      assert q[i] == if i < k then p[i] else p[i + 1];
    }
  }

  /** Rearranging keeps exactly the rows it was given. */
  lemma {:induction false} ApplyMultiset<T>(p: seq<nat>, c: seq<T>)
    requires IsIndexPerm(p, |c|)
    ensures multiset(Apply(p, c)) == multiset(c)
  {
    if c == [] {
      IndexPermsEnumerated(0, p);
    } else {
      var n := |c| - 1;
      assert n in p;
      var k :| 0 <= k < |p| && p[k] == n;
      DropLastPosition(p, c, k);
      ApplyMultiset(Without(p, k), c[..n]);
      MultisetWithout(Apply(p, c), k);
      assert c == c[..n] + [c[n]];
    }
  }

  function Compose(s: seq<nat>, p: seq<nat>): seq<nat>
    requires Fits(p, |s|)
  {
    Apply(p, s)
  }

  lemma {:induction false} ComposeIsIndexPerm(s: seq<nat>, p: seq<nat>, n: nat)
    requires IsIndexPerm(s, n) && IsIndexPerm(p, n)
    ensures |s| == n && Fits(p, |s|) && IsIndexPerm(Compose(s, p), n)
  {
    IndexPermsEnumerated(n, s);
    IndexPermsEnumerated(n, p);
    var c := Compose(s, p);
    forall i, j | 0 <= i < j < |c|
      ensures c[i] != c[j]
    {
      assert p[i] in p && p[j] in p && p[i] != p[j];
    }
    forall x: nat
      ensures x in c <==> x < n
    {
      if x in c {
        var i :| 0 <= i < |c| && c[i] == x;
        assert p[i] in p && s[p[i]] in s;
      }
      if x < n {
        assert x in s;
        var j :| 0 <= j < |s| && s[j] == x;
        assert j in p;
        var i :| 0 <= i < |p| && p[i] == j;
        assert c[i] == x;
      }
    }
  }

  lemma {:induction false} ApplyCompose<T>(s: seq<nat>, p: seq<nat>, c: seq<T>)
    requires IsIndexPerm(s, |c|) && IsIndexPerm(p, |c|)
    ensures |s| == |c| && Fits(p, |s|) && Fits(s, |c|) && |Apply(s, c)| == |c| && Fits(Compose(s, p), |c|)
    ensures Apply(p, Apply(s, c)) == Apply(Compose(s, p), c)
  {
    IndexPermsEnumerated(|c|, s);
    ComposeIsIndexPerm(s, p, |c|);
    forall i | 0 <= i < |p|
      ensures Apply(p, Apply(s, c))[i] == Apply(Compose(s, p), c)[i]
    {
      assert p[i] in p;
    }
  }

  ghost function IndexOf(s: seq<nat>, x: nat): nat
    requires x in s
    ensures IndexOf(s, x) < |s| && s[IndexOf(s, x)] == x
  {
    var i :| 0 <= i < |s| && s[i] == x;
    i
  }

  /** Every index permutation q is s followed by some p. */
  lemma {:induction false} Divide(s: seq<nat>, q: seq<nat>, n: nat) returns (p: seq<nat>)
    requires IsIndexPerm(s, n) && IsIndexPerm(q, n)
    ensures IsIndexPerm(p, n) && Fits(p, |s|) && Compose(s, p) == q
  {
    IndexPermsEnumerated(n, s);
    assert forall i :: 0 <= i < |q| ==> q[i] in q;
    p := seq(|q|, i requires 0 <= i < |q| => IndexOf(s, q[i]));
    forall i, j | 0 <= i < j < |p|
      ensures p[i] != p[j]
    {
      assert s[p[i]] == q[i] && s[p[j]] == q[j];
    }
    forall x: nat
      ensures x in p <==> x < n
    {
      if x < n {
        assert s[x] in s && s[x] in q;
        var i :| 0 <= i < |q| && q[i] == s[x];
        assert s[p[i]] == s[x];
        assert p[i] == x;
      }
    }
  }

  /** Positions of a list from which k was taken out, as positions of the whole list. */
  function Around(q: seq<nat>, k: nat): seq<nat> {
    seq(|q|, i requires 0 <= i < |q| => if q[i] < k then q[i] else q[i] + 1)
  }

  lemma {:induction false} AroundIsTheRest(q: seq<nat>, k: nat, n: nat)
    requires IsIndexPerm(q, n) && k <= n
    ensures IsIndexPerm(Around(q, k) + [k], n + 1)
  {
    var p := Around(q, k) + [k];
    forall x: nat
      ensures x in p <==> x < n + 1
    {
      if x in p && x != k {
        var i :| 0 <= i < |q| && Around(q, k)[i] == x;
        assert q[i] in q;
      }
      if x < n + 1 && x != k {
        var y := if x < k then x else x - 1;
        assert y in q;
        var i :| 0 <= i < |q| && q[i] == y;
        assert p[i] == x;
      }
      assert p[|q|] == k;
    }
  }

  lemma {:induction false} AroundApplies<T>(q: seq<nat>, k: nat, t: seq<T>)
    requires k < |t| && IsIndexPerm(q, |t| - 1)
    ensures IsIndexPerm(Around(q, k) + [k], |t|)
    ensures Apply(Around(q, k) + [k], t) == Apply(q, Without(t, k)) + [t[k]]
  {
    AroundIsTheRest(q, k, |t| - 1);
    forall i | 0 <= i < |q|
      ensures Apply(Around(q, k) + [k], t)[i] == Apply(q, Without(t, k))[i]
    {
      assert q[i] in q;
    }
  }

  /** Two lists of the same rows are each other's rearrangement. */
  lemma {:induction false} SameRowsRearranged<T>(s: seq<T>, t: seq<T>) returns (p: seq<nat>)
    requires multiset(s) == multiset(t)
    ensures IsIndexPerm(p, |t|) && Apply(p, t) == s
  {
    if s == [] {
      assert |multiset(t)| == 0;
      p := [];
    } else {
      var n := |s| - 1;
      assert s == s[..n] + [s[n]];
      assert s[n] in multiset(t);
      var k :| 0 <= k < |t| && t[k] == s[n];
      MultisetCancel(s[..n], t, s[n], k);
      var q := SameRowsRearranged(s[..n], Without(t, k));
      AroundApplies(q, k, t);
      p := Around(q, k) + [k];
    }
  }

  /** Positions that only go up are where they were. */
  lemma {:induction false} RisingIsIdentity(p: seq<nat>, n: nat, k: nat)
    requires IsIndexPerm(p, n) && k < |p|
    requires forall i, j :: 0 <= i < j < |p| ==> p[i] < p[j]
    ensures |p| == n && p[k] == k
  {
    IndexPermsEnumerated(n, p);
    assert k in p;
    var i :| 0 <= i < n && p[i] == k;
    AtLeast(p, i);
    AtMost(p, n, i);
  }

  lemma {:induction false} AtLeast(p: seq<nat>, k: nat)
    requires k < |p| && forall i, j :: 0 <= i < j < |p| ==> p[i] < p[j]
    ensures p[k] >= k
  {
    if k > 0 {
      AtLeast(p, k - 1);
    }
  }

  lemma {:induction false} AtMost(p: seq<nat>, n: nat, k: nat)
    requires k < |p| == n && Fits(p, n) && forall i, j :: 0 <= i < j < |p| ==> p[i] < p[j]
    ensures p[k] <= k
    decreases n - k
  {
    assert p[k] in p;
    if k + 1 < n {
      AtMost(p, n, k + 1);
    }
  }
}
