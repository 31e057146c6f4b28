/** Vocabulary shared by every component: money is an integer number of cents and a
    date an integer day number, so rounding to two decimals is the identity. */
module Basics {

  type Cents = int
  type Date = int
  type Id = nat

  datatype Option<+T> = None | Some(value: T)

  datatype Direction = In | Out

  /** The movement a row makes: credits add, debits subtract. */
  function Signed(dir: Direction, amount: Cents): Cents {
    if dir.In? then amount else -amount
  }

  function Abs(x: int): nat {
    if x < 0 then -x else x
  }

  ghost predicate Distinct<T>(s: seq<T>) {
    forall i, j :: 0 <= i < j < |s| ==> s[i] != s[j]
  }

  function Elements<T(==)>(s: seq<T>): set<T> {
    set x | x in s
  }

  /** Parts joined by single spaces. */
  function Join(parts: seq<string>): string {
    if parts == [] then ""
    else if |parts| == 1 then parts[0]
    else Join(parts[..|parts| - 1]) + " " + parts[|parts| - 1]
  }

  lemma {:induction false} JoinMore(parts: seq<string>, part: string)
    ensures Join(parts + [part]) == if parts == [] then part else Join(parts) + " " + part
  {
    assert (parts + [part])[..|parts|] == parts;
  }

  lemma {:induction false} Regrouped(x: string, y: string, z: string)
    ensures (x + " " + y) + " " + z == x + " " + (y + " " + z)
  {
  }

  /** Joining is putting one space between whatever stands side by side; a single part is
      left as it is. */
  lemma {:induction false} JoinAppend(a: seq<string>, b: seq<string>)
    requires a != [] && b != []
    ensures Join(a + b) == Join(a) + " " + Join(b)
    ensures |a| == 1 ==> Join(a) == a[0]
  {
    var front, last := b[..|b| - 1], b[|b| - 1];
    JoinMore(a + front, last);
    JoinMore(front, last);
    assert a + b == (a + front) + [last] && b == front + [last];
    if front == [] {
      assert a + front == a;
    } else {
      JoinAppend(a, front);
      Regrouped(Join(a), Join(front), last);
    }
  }

  /** All elements of s that satisfy p, in order. */
  function Filter<T>(s: seq<T>, p: T -> bool): seq<T> {
    if s == [] then []
    else
      var front := Filter(s[..|s| - 1], p);
      if p(s[|s| - 1]) then front + [s[|s| - 1]] else front
  }

  lemma {:induction false} FilterMembers<T>(s: seq<T>, p: T -> bool, x: T)
    ensures x in Filter(s, p) <==> x in s && p(x)
  {
    if s != [] {
      FilterMembers(s[..|s| - 1], p, x);
      assert s == s[..|s| - 1] + [s[|s| - 1]];
    }
  }

  lemma {:induction false} FilterAppend<T>(s: seq<T>, t: seq<T>, p: T -> bool)
    ensures Filter(s + t, p) == Filter(s, p) + Filter(t, p)
  {
    if t == [] {
      assert s + t == s;
    } else {
      var m := |t| - 1;
      FilterAppend(s, t[..m], p);
      assert (s + t)[..|s + t| - 1] == s + t[..m];
    }
  }

  /** What f makes of each element, end to end. */
  function Flatten<T, U>(s: seq<T>, f: T -> seq<U>): seq<U> {
    if s == [] then [] else Flatten(s[..|s| - 1], f) + f(s[|s| - 1])
  }

  lemma {:induction false} FlattenAppend<T, U>(s: seq<T>, t: seq<T>, f: T -> seq<U>)
    ensures Flatten(s + t, f) == Flatten(s, f) + Flatten(t, f)
  {
    if t == [] {
      assert s + t == s;
    } else {
      var m := |t| - 1;
      FlattenAppend(s, t[..m], f);
      assert (s + t)[..|s + t| - 1] == s + t[..m];
    }
  }

  lemma {:induction false} FlattenOne<T, U>(x: T, f: T -> seq<U>)
    ensures Flatten([x], f) == f(x)
  {
    assert [x][..0] == [];
  }

  /** s holds what stands at the places where anything does, all of it and in order. */
  ghost predicate Lists<T(!new)>(s: seq<T>, at: nat -> Option<T>, places: seq<nat>) {
    && |places| == |s|
    && (forall k :: 0 <= k < |places| ==> at(places[k]) == Some(s[k]))
    && (forall j, k :: 0 <= j < k < |places| ==> places[j] < places[k])
    && forall i: nat :: at(i).Some? ==> i in places
  }

  /** One place more, after all that were filled. */
  lemma {:induction false} ListsMore<T(!new)>(s: seq<T>, before: nat -> Option<T>, after: nat -> Option<T>,
                                              places: seq<nat>, n: nat)
    requires Lists(s, before, places)
    requires forall i: nat :: i >= n ==> before(i).None?
    requires forall i: nat :: i != n ==> after(i) == before(i)
    ensures match after(n)
            case None => Lists(s, after, places)
            case Some(x) => Lists(s + [x], after, places + [n])
  {
    assert forall k :: 0 <= k < |places| ==> places[k] < n;
  }
}

/** Sums over sequences and finite sets, with the few laws the ledgers rest on. */
module Sums {
  import opened Basics

  /** The sum of f over the elements of s. */
  function SumOf<T>(s: seq<T>, f: T -> int): int {
    if s == [] then 0 else SumOf(s[..|s| - 1], f) + f(s[|s| - 1])
  }

  lemma {:induction false} SumOfAppend<T>(s: seq<T>, t: seq<T>, f: T -> int)
    ensures SumOf(s + t, f) == SumOf(s, f) + SumOf(t, f)
  {
    if t == [] {
      assert s + t == s;
    } else {
      var m := |t| - 1;
      SumOfAppend(s, t[..m], f);
      assert (s + t)[..|s + t| - 1] == s + t[..m];
    }
  }

  lemma {:induction false} SumOfStep<T>(s: seq<T>, i: nat, f: T -> int)
    requires i < |s|
    ensures SumOf(s[..i + 1], f) == SumOf(s[..i], f) + f(s[i])
  {
    assert s[..i + 1][..i] == s[..i];
  }

  lemma {:induction false} SumOfSplit<T>(s: seq<T>, k: nat, f: T -> int)
    requires k <= |s|
    ensures SumOf(s, f) == SumOf(s[..k], f) + SumOf(s[k..], f)
  {
    SumOfAppend(s[..k], s[k..], f);
    assert s == s[..k] + s[k..];
  }

  lemma {:induction false} SumOfMore<T>(s: seq<T>, x: T, f: T -> int)
    ensures SumOf(s + [x], f) == SumOf(s, f) + f(x)
  {
    assert (s + [x])[..|s|] == s;
  }

  lemma {:induction false} SumOfOne<T>(x: T, f: T -> int)
    ensures SumOf([x], f) == f(x)
  {
    assert [x][..0] == [];
  }

  /** Changing the weight of one place changes the sum by exactly that much. */
  lemma {:induction false} SumOfBump<T>(s: seq<T>, f: T -> int, g: T -> int, i: nat)
    requires i < |s| && forall j :: 0 <= j < |s| && j != i ==> f(s[j]) == g(s[j])
    ensures SumOf(s, g) == SumOf(s, f) + g(s[i]) - f(s[i])
  {
    var n := |s| - 1;
    if i < n {
      SumOfBump(s[..n], f, g, i);
    } else {
      SumOfZip(s[..n], s[..n], f, g);
    }
  }

  /** Two lists that weigh the same place by place. */
  lemma {:induction false} SumOfZip<T, U>(s: seq<T>, t: seq<U>, f: T -> int, g: U -> int)
    requires |s| == |t| && forall i :: 0 <= i < |s| ==> f(s[i]) == g(t[i])
    ensures SumOf(s, f) == SumOf(t, g)
  {
    if s != [] {
      SumOfZip(s[..|s| - 1], t[..|t| - 1], f, g);
    }
  }

  lemma {:induction false} SumOfCongruent<T>(s: seq<T>, f: T -> int, g: T -> int)
    requires forall x :: x in s ==> f(x) == g(x)
    ensures SumOf(s, f) == SumOf(s, g)
  {
    if s != [] {
      SumOfCongruent(s[..|s| - 1], f, g);
    }
  }

  lemma {:induction false} MultisetCancel<T>(s: seq<T>, t: seq<T>, x: T, k: nat)
    requires k < |t| && t[k] == x && multiset(s + [x]) == multiset(t)
    ensures multiset(s) == multiset(t[..k] + t[k + 1..])
  {
    assert t == t[..k] + [x] + t[k + 1..];
    var a, b := multiset(s), multiset(t[..k] + t[k + 1..]);
    assert a + multiset{x} == b + multiset{x};
    assert a == (a + multiset{x}) - multiset{x};
    assert b == (b + multiset{x}) - multiset{x};
  }

  lemma {:induction false} SumOfTakeOut<T>(t: seq<T>, k: nat, f: T -> int)
    requires k < |t|
    ensures SumOf(t, f) == SumOf(t[..k] + t[k + 1..], f) + f(t[k])
  {
    SumOfAppend(t[..k], t[k + 1..], f);
    SumOfAppend(t[..k] + [t[k]], t[k + 1..], f);
    assert (t[..k] + [t[k]])[..k] == t[..k];
    assert t == t[..k] + [t[k]] + t[k + 1..];
  }

  /** Order does not matter to a sum. */
  lemma {:induction false} SumOfMultiset<T>(s: seq<T>, t: seq<T>, f: T -> int)
    requires multiset(s) == multiset(t)
    ensures SumOf(s, f) == SumOf(t, f)
  {
    if s == [] {
      assert |multiset(t)| == 0;
    } else {
      var front, x := s[..|s| - 1], s[|s| - 1];
      assert s == front + [x];
      assert x in multiset(t);
      var k :| 0 <= k < |t| && t[k] == x;
      MultisetCancel(front, t, x, k);
      SumOfMultiset(front, t[..k] + t[k + 1..], f);
      SumOfTakeOut(t, k, f);
    }
  }

  /** The sum of f over the elements of a finite set. */
  ghost function SumSet<T>(s: set<T>, f: T -> int): int {
    if s == {} then 0 else
      var x :| x in s;
      f(x) + SumSet(s - {x}, f)
  }

  /** Any element may be taken out first. */
  lemma {:induction false} SumSetPick<T>(s: set<T>, f: T -> int, x: T)
    requires x in s
    ensures SumSet(s, f) == f(x) + SumSet(s - {x}, f)
    decreases s
  {
    var y :| y in s && SumSet(s, f) == f(y) + SumSet(s - {y}, f);
    if x != y {
      SumSetPick(s - {y}, f, x);
      SumSetPick(s - {x}, f, y);
      assert s - {y} - {x} == s - {x} - {y};
    }
  }

  lemma {:induction false} SumSetAdd<T>(s: set<T>, f: T -> int, x: T)
    requires x !in s
    ensures SumSet(s + {x}, f) == SumSet(s, f) + f(x)
  {
    SumSetPick(s + {x}, f, x);
    assert s + {x} - {x} == s;
  }

  lemma {:induction false} SumSetCongruent<T>(s: set<T>, f: T -> int, g: T -> int)
    requires forall x :: x in s ==> f(x) == g(x)
    ensures SumSet(s, f) == SumSet(s, g)
    decreases s
  {
    if s != {} {
      var x :| x in s;
      SumSetPick(s, f, x);
      SumSetPick(s, g, x);
      SumSetCongruent(s - {x}, f, g);
    }
  }

  lemma {:induction false} SumSetPlus<T>(s: set<T>, f: T -> int, g: T -> int, h: T -> int)
    requires forall x :: x in s ==> h(x) == f(x) + g(x)
    ensures SumSet(s, h) == SumSet(s, f) + SumSet(s, g)
    decreases s
  {
    if s != {} {
      var x :| x in s;
      SumSetPick(s, f, x);
      SumSetPick(s, g, x);
      SumSetPick(s, h, x);
      SumSetPlus(s - {x}, f, g, h);
    }
  }

  lemma {:induction false} SumSetZero<T>(s: set<T>, f: T -> int)
    requires forall x :: x in s ==> f(x) == 0
    ensures SumSet(s, f) == 0
    decreases s
  {
    if s != {} {
      var x :| x in s;
      SumSetPick(s, f, x);
      SumSetZero(s - {x}, f);
    }
  }

  /** Changing f at one element changes the sum by exactly that much. */
  lemma {:induction false} SumSetBump<T>(s: set<T>, f: T -> int, g: T -> int, x: T)
    requires x in s
    requires forall y :: y in s && y != x ==> f(y) == g(y)
    ensures SumSet(s, g) == SumSet(s, f) + g(x) - f(x)
  {
    SumSetPick(s, f, x);
    SumSetPick(s, g, x);
    SumSetCongruent(s - {x}, f, g);
  }

  /** Listing a set without repetition gives the same sum, in any order. */
  lemma {:induction false} SumOfIsSumSet<T>(s: seq<T>, f: T -> int)
    requires Distinct(s)
    ensures SumOf(s, f) == SumSet(Elements(s), f)
  {
    if s == [] {
      assert Elements(s) == {};
    } else {
      var front, last := s[..|s| - 1], s[|s| - 1];
      SumOfIsSumSet(front, f);
      assert s == front + [last];
      assert last !in front;
      assert Elements(s) == Elements(front) + {last};
      SumSetAdd(Elements(front), f, last);
    }
  }

  lemma {:induction false} SumOfPlus<T>(s: seq<T>, f: T -> int, g: T -> int, h: T -> int)
    requires forall x :: x in s ==> h(x) == f(x) + g(x)
    ensures SumOf(s, h) == SumOf(s, f) + SumOf(s, g)
  {
    if s != [] {
      SumOfPlus(s[..|s| - 1], f, g, h);
    }
  }

  lemma {:induction false} SumOfZero<T>(s: seq<T>, f: T -> int)
    requires forall x :: x in s ==> f(x) == 0
    ensures SumOf(s, f) == 0
  {
    if s != [] {
      SumOfZero(s[..|s| - 1], f);
    }
  }

  /** Summing what a filter keeps is summing everything with the rest weighing nothing. */
  lemma {:induction false} SumOfFilter<T>(s: seq<T>, p: T -> bool, f: T -> int, g: T -> int)
    requires forall x :: x in s ==> g(x) == if p(x) then f(x) else 0
    ensures SumOf(Filter(s, p), f) == SumOf(s, g)
  {
    if s != [] {
      SumOfFilter(s[..|s| - 1], p, f, g);
      assert s[|s| - 1] in s;
      var front := Filter(s[..|s| - 1], p);
      assert (front + [s[|s| - 1]])[..|front|] == front;
    }
  }

  lemma {:induction false} SumSetUnion<T>(a: set<T>, b: set<T>, f: T -> int)
    requires a !! b
    ensures SumSet(a + b, f) == SumSet(a, f) + SumSet(b, f)
    decreases b
  {
    if b == {} {
      assert a + b == a;
    } else {
      var x :| x in b;
      SumSetUnion(a, b - {x}, f);
      SumSetPick(b, f, x);
      SumSetPick(a + b, f, x);
      assert a + b - {x} == a + (b - {x});
    }
  }

  ghost function Image<T, U>(s: set<T>, f: T -> U): set<U> {
    set x | x in s :: f(x)
  }

  /** Renaming the elements one to one keeps the sum. */
  lemma {:induction false} SumSetImage<T, U>(s: set<T>, name: T -> U, f: U -> int, g: T -> int)
    requires forall x, y :: x in s && y in s && name(x) == name(y) ==> x == y
    requires forall x :: x in s ==> g(x) == f(name(x))
    ensures SumSet(Image(s, name), f) == SumSet(s, g)
    decreases s
  {
    if s == {} {
      assert Image(s, name) == {};
    } else {
      var x :| x in s;
      var rest := s - {x};
      SumSetImage(rest, name, f, g);
      SumSetPick(s, g, x);
      assert Image(s, name) == Image(rest, name) + {name(x)};
      assert name(x) !in Image(rest, name);
      SumSetAdd(Image(rest, name), f, name(x));
    }
  }

  /** The values of a finite map, added up. */
  ghost function SumMap<K>(m: map<K, int>): int {
    SumSet(m.Keys, (k: K) => Get(m, k))
  }

  function Get<K>(m: map<K, int>, k: K): int {
    if k in m then m[k] else 0
  }

  /** Adding v to one entry, present or not, adds v to the sum. */
  lemma {:induction false} SumMapAdd<K>(m: map<K, int>, k: K, v: int)
    ensures SumMap(m[k := Get(m, k) + v]) == SumMap(m) + v
  {
    var n := m[k := Get(m, k) + v];
    var f, g := ((x: K) => Get(m, x)), ((x: K) => Get(n, x));
    if k in m {
      assert n.Keys == m.Keys;
      SumSetBump(m.Keys, f, g, k);
    } else {
      assert n.Keys == m.Keys + {k};
      SumSetAdd(m.Keys, g, k);
      SumSetCongruent(m.Keys, f, g);
    }
  }
}
