/** app/parsers/mpesa.py: sort by completion time, then settle the order of the rows that
    share the very first timestamp, when their balances single one order out. */
module Mpesa {
  import opened Basics
  import opened Ordering
  import opened ParserBase
  import opened Permutations

  /** An order chains from the opening its own first row implies. */
  ghost predicate SelfConsistent(rows: seq<Parsed>) {
    rows != [] && DeriveOpeningBalance(rows).Some?
    && Accepts(rows, DeriveOpeningBalance(rows).value.0)
  }

  ghost predicate KnownBalances(cluster: seq<Parsed>) {
    forall t :: t in cluster ==> t.balanceAfter.Some?
  }

  /** Position order p makes the cluster chain. */
  ghost predicate ChainsAs(cluster: seq<Parsed>, p: seq<nat>) {
    Fits(p, |cluster|) && SelfConsistent(Apply(p, cluster))
  }

  /** p is the one and only order that chains. */
  ghost predicate OnlyOrder(cluster: seq<Parsed>, p: seq<nat>) {
    && IsIndexPerm(p, |cluster|)
    && ChainsAs(cluster, p)
    && forall q :: IsIndexPerm(q, |cluster|) && ChainsAs(cluster, q) ==> q == p
  }

  datatype Resolution = Order(rows: seq<Parsed>) | Ambiguous | Failed

  /** What the search is for. A blank balance anywhere in the cluster fails the whole parse:
      some candidate puts that row first, and the implied opening is computed before the
      test for a missing balance. */
  ghost function Resolve(cluster: seq<Parsed>): Resolution {
    if cluster == [] || !KnownBalances(cluster) then Failed
    else if exists p :: OnlyOrder(cluster, p) then
      var p :| OnlyOrder(cluster, p);
      Order(Apply(p, cluster))
    else Ambiguous
  }

  method IsConsistent(candidate: seq<Parsed>) returns (consistent: bool)
    requires candidate != [] && candidate[0].balanceAfter.Some?
    ensures consistent <==> SelfConsistent(candidate)
  {
    var first := candidate[0];
    ghost var implied := DeriveOpeningBalance(candidate).value.0;
    var current := if first.dir.In? then first.balanceAfter.value - first.amount
                   else first.balanceAfter.value + first.amount;
    for i := 0 to |candidate|
      invariant forall j :: 0 <= j < i ==> RowReconciles(candidate, implied, j)
      invariant i == 0 ==> current == implied
      invariant i > 0 ==> candidate[i - 1].balanceAfter == Some(current)
    {
      var t := candidate[i];
      var expected := if t.dir.In? then current + t.amount else current - t.amount;
      if t.balanceAfter.None? || Abs(expected - t.balanceAfter.value) > 1 {
        assert !RowReconciles(candidate, implied, i);
        return false;
      }
      current := t.balanceAfter.value;
    }
    return true;
  }

  ghost predicate StartsBlank(cluster: seq<Parsed>, p: seq<nat>) {
    p != [] && p[0] < |cluster| && cluster[p[0]].balanceAfter.None?
  }

  /** Exhaustive search over all position orders. */
  method SelfConsistentOrder(cluster: seq<Parsed>) returns (r: Resolution)
    ensures r == Resolve(cluster)
  {
    if cluster == [] {
      return Failed;
    }
    var n := |cluster|;
    var candidates := Perms(Range(n));
    var validOrders: seq<seq<Parsed>> := [];
    ghost var valid: seq<nat> := [];  // positions, among the candidates, of the orders kept
    for k := 0 to |candidates|
      invariant forall c :: 0 <= c < k ==> !StartsBlank(cluster, candidates[c])
      invariant |valid| == |validOrders| && Distinct(valid)
      invariant forall c: nat :: c in valid <==> c < k && ChainsAs(cluster, candidates[c])
      invariant forall v :: 0 <= v < |valid| ==>
        valid[v] in valid && validOrders[v] == Apply(candidates[valid[v]], cluster)
    {
      var p := candidates[k];
      IndexPermsEnumerated(n, p);
      assert p[0] in p;
      var candidate := Apply(p, cluster);
      if candidate[0].balanceAfter.None? {
        assert cluster[p[0]] in cluster;
        return Failed;
      }
      var consistent := IsConsistent(candidate);
      if consistent {
        validOrders := validOrders + [candidate];
        valid := valid + [k];
      }
    }
    NoBlankFirstMeansKnown(cluster);
    OneValidMeansOnly(cluster, valid);
    return if |validOrders| == 1 then Order(validOrders[0]) else Ambiguous;
  }

  lemma {:induction false} NoBlankFirstMeansKnown(cluster: seq<Parsed>)
    requires forall c :: 0 <= c < |Perms(Range(|cluster|))| ==> !StartsBlank(cluster, Perms(Range(|cluster|))[c])
    ensures KnownBalances(cluster)
  {
    var n := |cluster|;
    forall t | t in cluster
      ensures t.balanceAfter.Some?
    {
      var i :| 0 <= i < n && cluster[i] == t;
      var p := [i] + Without(Range(n), i);
      WithoutReorders(Range(n), i);
      assert IsIndexPerm(p, n) by {
        assert Range(n)[i] == i;
        forall x: nat
          ensures x in p <==> x < n
        {
          if x < n {
            assert Range(n)[x] == x;
          }
        }
      }
      IndexPermsEnumerated(n, p);
      var c :| 0 <= c < |Perms(Range(n))| && Perms(Range(n))[c] == p;
      assert !StartsBlank(cluster, p);
    }
  }

  lemma {:induction false} OneValidMeansOnly(cluster: seq<Parsed>, valid: seq<nat>)
    requires Distinct(valid)
    requires forall c: nat :: c in valid <==>
      c < |Perms(Range(|cluster|))| && ChainsAs(cluster, Perms(Range(|cluster|))[c])
    ensures |valid| == 1 ==> valid[0] in valid && OnlyOrder(cluster, Perms(Range(|cluster|))[valid[0]])
    ensures |valid| != 1 ==> forall p :: !OnlyOrder(cluster, p)
  {
    var n := |cluster|;
    var perms := Perms(Range(n));
    PermsDistinct(Range(n));
    if |valid| == 1 {
      assert valid[0] in valid;
      var p := perms[valid[0]];
      IndexPermsEnumerated(n, p);
      forall q | IsIndexPerm(q, n) && ChainsAs(cluster, q)
        ensures q == p
      {
        IndexPermsEnumerated(n, q);
        var c :| 0 <= c < |perms| && perms[c] == q;
        assert c in valid;
      }
    } else {
      forall p
        ensures !OnlyOrder(cluster, p)
      {
        if OnlyOrder(cluster, p) {
          IndexPermsEnumerated(n, p);
          var c :| 0 <= c < |perms| && perms[c] == p;
          assert c in valid;
          assert |valid| >= 2;
          assert valid[0] in valid && valid[1] in valid && valid[0] != valid[1];
          var d := if valid[0] == c then valid[1] else valid[0];
          IndexPermsEnumerated(n, perms[d]);
        }
      }
    }
  }

  // ---- what the answer does and does not depend on ----

  /** The resolved rows are the cluster's rows, rearranged. */
  lemma {:induction false} ResolvedIsRearranged(cluster: seq<Parsed>)
    requires Resolve(cluster).Order?
    ensures multiset(Resolve(cluster).rows) == multiset(cluster)
    ensures |Resolve(cluster).rows| == |cluster|
    ensures SelfConsistent(Resolve(cluster).rows)
  {
    var p :| OnlyOrder(cluster, p) && Resolve(cluster).rows == Apply(p, cluster);
    ApplyMultiset(p, cluster);
    IndexPermsEnumerated(|cluster|, p);
  }

  /** Exchange of positions i and j. */
  function Exchange(p: seq<nat>, i: nat, j: nat): seq<nat> {
    seq(|p|, k requires 0 <= k < |p| => if p[k] == i then j else if p[k] == j then i else p[k])
  }

  lemma {:induction false} ExchangeIsIndexPerm(p: seq<nat>, i: nat, j: nat, n: nat)
    requires IsIndexPerm(p, n) && i < j < n
    ensures IsIndexPerm(Exchange(p, i, j), n) && Exchange(p, i, j) != p
  {
    var q := Exchange(p, i, j);
    forall x: nat
      ensures x in q <==> x < n
    {
      if x in q {
        var k :| 0 <= k < |q| && q[k] == x;
        assert p[k] in p;
      }
      if x < n {
        var y := if x == i then j else if x == j then i else x;
        assert y in p;
        var k :| 0 <= k < |p| && p[k] == y;
        assert q[k] == x;
      }
    }
    assert i in p;
    var k :| 0 <= k < |p| && p[k] == i;
    assert q[k] != p[k];
  }

  lemma {:induction false} ExchangeShowsTheSameRows(cluster: seq<Parsed>, p: seq<nat>, i: nat, j: nat)
    requires i < j < |cluster| && cluster[i] == cluster[j] && Fits(p, |cluster|)
    ensures ChainsAs(cluster, p) ==> ChainsAs(cluster, Exchange(p, i, j))
  {
    var q := Exchange(p, i, j);
    assert forall k :: 0 <= k < |p| ==> p[k] in p;
    assert Apply(q, cluster) == Apply(p, cluster);
  }

  /** Two equal rows can always trade places, so no order is ever the only one. */
  lemma {:induction false} EqualRowsNeverResolve(cluster: seq<Parsed>, i: nat, j: nat)
    requires i < j < |cluster| && cluster[i] == cluster[j]
    ensures !Resolve(cluster).Order?
  {
    if Resolve(cluster).Order? {
      var p :| OnlyOrder(cluster, p);
      ExchangeShowsTheSameRows(cluster, p, i, j);
      ExchangeIsIndexPerm(p, i, j, |cluster|);
    }
  }

  lemma {:induction false} OnlyOrderCarriesOver(cluster: seq<Parsed>, s: seq<nat>, p: seq<nat>)
    requires IsIndexPerm(s, |cluster|) && IsIndexPerm(p, |cluster|)
    requires |s| == |cluster| && Fits(p, |s|) && OnlyOrder(cluster, Compose(s, p))
    ensures |Apply(s, cluster)| == |cluster| && OnlyOrder(Apply(s, cluster), p)
  {
    var n := |cluster|;
    var shuffled := Apply(s, cluster);
    ApplyCompose(s, p, cluster);
    forall q | IsIndexPerm(q, n) && ChainsAs(shuffled, q)
      ensures q == p
    {
      ApplyCompose(s, q, cluster);
      ComposeIsIndexPerm(s, q, n);
      assert ChainsAs(cluster, Compose(s, q));
      assert Compose(s, q) == Compose(s, p);
      IndexPermsEnumerated(n, q);
      IndexPermsEnumerated(n, p);
      forall k | 0 <= k < n
        ensures q[k] == p[k]
      {
        assert q[k] in q && p[k] in p;
        assert Compose(s, q)[k] == s[q[k]] && Compose(s, p)[k] == s[p[k]];
      }
    }
  }

  /** The order the file listed the tied rows in makes no difference to the answer. */
  lemma {:induction false} FileOrderIsIrrelevant(cluster: seq<Parsed>, s: seq<nat>)
    requires IsIndexPerm(s, |cluster|)
    ensures Resolve(Apply(s, cluster)) == Resolve(cluster)
  {
    var n := |cluster|;
    var shuffled := Apply(s, cluster);
    ApplyMultiset(s, cluster);
    IndexPermsEnumerated(n, s);
    assert forall t :: t in shuffled <==> t in multiset(shuffled);
    assert forall t :: t in cluster <==> t in multiset(cluster);
    assert |multiset(shuffled)| == |multiset(cluster)|;
    if p :| OnlyOrder(cluster, p) {
      var q := Divide(s, p, n);
      OnlyOrderCarriesOver(cluster, s, q);
      ApplyCompose(s, q, cluster);
    } else if q :| OnlyOrder(shuffled, q) {
      // Read the other way round: the cluster is itself a rearrangement of the shuffled rows.
      ComposeIsIndexPerm(s, q, n);
      ApplyCompose(s, q, cluster);
      var c := Compose(s, q);
      forall p | IsIndexPerm(p, n) && ChainsAs(cluster, p)
        ensures p == c
      {
        var r := Divide(s, p, n);
        ApplyCompose(s, r, cluster);
        assert ChainsAs(shuffled, r);
        assert r == q;
      }
      assert OnlyOrder(cluster, c);
    }
  }

  // ---- the whole statement ----

  type Seconds = int

  datatype Timed = Timed(time: Seconds, txn: Parsed)

  /** One table row: the status cell, the two amount cells and the balance cell, blank or
      filled. A status that is neither blank nor "completed" drops the row. */
  datatype Status = BlankStatus | Completed | OtherStatus
  datatype RawRow = RawRow(receipt: string, time: Seconds, details: string, status: Status,
                           paidIn: Option<Cents>, withdrawn: Option<Cents>, balance: Option<Cents>)

  type ReceiptFingerprint = (string, string, Cents) -> string

  const SECONDS_A_DAY := 86400

  function AmountAndDirection(paidIn: Option<Cents>, withdrawn: Option<Cents>): (Cents, Direction) {
    match paidIn
    case Some(p) => (p, In)
    case None => (Abs(if withdrawn.Some? then withdrawn.value else 0), Out)
  }

  function Read(raw: RawRow, fp: ReceiptFingerprint): Timed {
    var (amount, direction) := AmountAndDirection(raw.paidIn, raw.withdrawn);
    Timed(raw.time, Parsed(raw.time / SECONDS_A_DAY, amount, "KES", direction, raw.details, raw.balance,
                           fp(raw.receipt, raw.details, amount)))
  }

  function ReadAll(raw: seq<RawRow>, fp: ReceiptFingerprint): seq<Timed> {
    if raw == [] then []
    else
      var front, last := ReadAll(raw[..|raw| - 1], fp), raw[|raw| - 1];
      if last.status.OtherStatus? then front else front + [Read(last, fp)]
  }

  // ---- what the table says ----

  /** The status cell lets the row in: it is blank or says completed. */
  predicate Taken(raw: RawRow) {
    raw.status in {BlankStatus, Completed}
  }

  /** What the amount cells say moved: money in where Paid In is filled, otherwise the
      withdrawn figure out, whichever sign it is printed with. */
  ghost predicate Moves(t: Parsed, raw: RawRow) {
    match (raw.paidIn, raw.withdrawn)
    case (Some(p), _) => t.dir == In && t.amount == p && Delta(t) == p
    case (None, Some(w)) => t.dir == Out && (t.amount == w || t.amount == -w) && Delta(t) <= 0 <= t.amount
    case (None, None) => t.dir == Out && t.amount == 0
  }

  /** The transaction says what the table row says, on the day the row was completed. */
  ghost predicate Books(t: Parsed, raw: RawRow, fp: ReceiptFingerprint) {
    && t.date * (24 * 60 * 60) <= raw.time < (t.date + 1) * (24 * 60 * 60)
    && Moves(t, raw)
    && t.currency == "KES"
    && t.description == raw.details
    && t.balanceAfter == raw.balance
    && t.key == fp(raw.receipt, raw.details, t.amount)
  }

  lemma {:induction false} ReadBooks(raw: RawRow, fp: ReceiptFingerprint)
    ensures Books(Read(raw, fp).txn, raw, fp) && Read(raw, fp).time == raw.time
  {
  }

  /** The places, in file order, of the rows that are taken. */
  ghost predicate TakenPlaces(raw: seq<RawRow>, places: seq<nat>) {
    && (forall k :: 0 <= k < |places| ==> places[k] < |raw| && Taken(raw[places[k]]))
    && (forall j, k :: 0 <= j < k < |places| ==> places[j] < places[k])
    && forall i: nat :: i < |raw| && Taken(raw[i]) ==> i in places
  }

  /** rows are what the taken rows of the table say, one for one and in file order. */
  ghost predicate ReadFrom(rows: seq<Timed>, raw: seq<RawRow>, fp: ReceiptFingerprint, places: seq<nat>) {
    && TakenPlaces(raw, places) && |rows| == |places|
    && forall k :: 0 <= k < |places| ==>
         rows[k].time == raw[places[k]].time && Books(rows[k].txn, raw[places[k]], fp)
  }

  lemma {:induction false} OneRowMore(rows: seq<Timed>, raw: seq<RawRow>, last: RawRow, fp: ReceiptFingerprint,
                                      places: seq<nat>)
    requires ReadFrom(rows, raw, fp, places)
    ensures Taken(last) ==> ReadFrom(rows + [Read(last, fp)], raw + [last], fp, places + [|raw|])
    ensures !Taken(last) ==> ReadFrom(rows, raw + [last], fp, places)
  {
    ReadBooks(last, fp);
    assert forall i :: 0 <= i < |raw| ==> (raw + [last])[i] == raw[i];
  }

  /** Reading takes exactly the taken rows. */
  lemma {:induction false} ReadingIsTheTable(raw: seq<RawRow>, fp: ReceiptFingerprint) returns (places: seq<nat>)
    ensures ReadFrom(ReadAll(raw, fp), raw, fp, places)
  {
    places := [];
    if raw != [] {
      var n := |raw| - 1;
      places := ReadingIsTheTable(raw[..n], fp);
      OneRowMore(ReadAll(raw[..n], fp), raw[..n], raw[n], fp, places);
      assert raw == raw[..n] + [raw[n]];
      if Taken(raw[n]) {
        places := places + [n];
      }
    }
  }

  /** The transactions are the taken rows of the table: each transaction books a row of its
      own, every taken row is booked, and they come by completion time. */
  ghost predicate BooksTheTable(txns: seq<Parsed>, raw: seq<RawRow>, fp: ReceiptFingerprint) {
    exists from: seq<nat> :: BookedFrom(txns, raw, fp, from)
  }

  ghost predicate BookedFrom(txns: seq<Parsed>, raw: seq<RawRow>, fp: ReceiptFingerprint, from: seq<nat>) {
    && |from| == |txns| && Distinct(from)
    && (forall k :: 0 <= k < |from| ==> from[k] < |raw| && Taken(raw[from[k]]) && Books(txns[k], raw[from[k]], fp))
    && (forall i: nat :: i < |raw| && Taken(raw[i]) ==> i in from)
    && (forall j, k :: 0 <= j < k < |from| ==> raw[from[j]].time <= raw[from[k]].time)
  }

  lemma {:induction false} ComposedPlaces(places: seq<nat>, p: seq<nat>)
    requires IsIndexPerm(p, |places|)
    requires forall j, k :: 0 <= j < k < |places| ==> places[j] < places[k]
    ensures Fits(p, |places|) && |Apply(p, places)| == |places| && Distinct(Apply(p, places))
    ensures forall i :: i in places <==> i in Apply(p, places)
  {
    IndexPermsEnumerated(|places|, p);
    var from := Apply(p, places);
    forall j, k | 0 <= j < k < |from|
      ensures from[j] != from[k]
    {
      assert p[j] in p && p[k] in p && p[j] != p[k];
      assert p[j] < p[k] || p[k] < p[j];
    }
    ApplyMultiset(p, places);
    assert forall i :: i in from <==> i in multiset(from);
    assert forall i :: i in places <==> i in multiset(places);
  }

  /** A rearrangement of what was read, by time, books the table. */
  lemma {:induction false} RearrangedBooks(raw: seq<RawRow>, fp: ReceiptFingerprint, rows: seq<Timed>)
    returns (from: seq<nat>)
    requires multiset(rows) == multiset(ReadAll(raw, fp)) && SortedBy(rows, BY_TIME)
    ensures BookedFrom(Txns(rows), raw, fp, from)
    ensures forall k :: 0 <= k < |rows| ==> rows[k].time == raw[from[k]].time
  {
    var places := ReadingIsTheTable(raw, fp);
    var p := SameRowsRearranged(rows, ReadAll(raw, fp));
    IndexPermsEnumerated(|places|, p);
    ComposedPlaces(places, p);
    from := Apply(p, places);
    forall k | 0 <= k < |from|
      ensures from[k] < |raw| && Taken(raw[from[k]]) && rows[k].time == raw[from[k]].time
      ensures Books(rows[k].txn, raw[from[k]], fp)
    {
      assert p[k] in p;
      assert rows[k] == ReadAll(raw, fp)[p[k]];
    }
    forall j, k | 0 <= j < k < |from|
      ensures raw[from[j]].time <= raw[from[k]].time
    {
      assert BY_TIME(rows[j], rows[k]);
    }
  }

  /** Two taken rows share the statement's first second, and a row of that second shows no
      balance. */
  ghost predicate BlankLeadingTie(raw: seq<RawRow>) {
    exists i: nat, j: nat ::
      && i != j && i < |raw| && j < |raw| && Taken(raw[i]) && Taken(raw[j])
      && raw[i].time == raw[j].time && raw[i].balance.None?
      && forall k :: 0 <= k < |raw| && Taken(raw[k]) ==> raw[i].time <= raw[k].time
  }

  const BY_TIME: (Timed, Timed) -> bool := (a: Timed, b: Timed) => a.time <= b.time

  function Txns(parsed: seq<Timed>): seq<Parsed> {
    seq(|parsed|, i requires 0 <= i < |parsed| => parsed[i].txn)
  }

  function At(time: Seconds, rows: seq<Parsed>): seq<Timed> {
    seq(|rows|, i requires 0 <= i < |rows| => Timed(time, rows[i]))
  }

  /** Length of the run of rows that share the first row's timestamp. */
  ghost predicate IsLeadingTie(parsed: seq<Timed>, k: nat) {
    && 0 < k <= |parsed|
    && (forall i :: 0 <= i < k ==> parsed[i].time == parsed[0].time)
    && (k < |parsed| ==> parsed[k].time != parsed[0].time)
  }

  /** Result of settling the leading tie of an already sorted statement. */
  ghost predicate Settles(parsed: seq<Timed>, r: Outcome<seq<Timed>>) {
    if |parsed| < 2 then r == Ok(parsed)
    else exists k: nat :: IsLeadingTie(parsed, k) && SettlesTie(parsed, k, r)
  }

  ghost predicate SettlesTie(parsed: seq<Timed>, k: nat, r: Outcome<seq<Timed>>)
    requires 0 < k <= |parsed|
  {
    if k < 2 then r == Ok(parsed)
    else match Resolve(Txns(parsed[..k]))
      case Failed => r == Crashed
      case Ambiguous => r == Ok(parsed)
      case Order(rows) => r == Ok(At(parsed[0].time, rows) + parsed[k..])
  }

  method ResolveLeadingTie(parsed: seq<Timed>) returns (r: Outcome<seq<Timed>>)
    ensures Settles(parsed, r)
  {
    if |parsed| < 2 {
      return Ok(parsed);
    }
    var firstTime := parsed[0].time;
    var clusterEnd := 1;
    while clusterEnd < |parsed| && parsed[clusterEnd].time == firstTime
      invariant 1 <= clusterEnd <= |parsed|
      invariant forall i :: 0 <= i < clusterEnd ==> parsed[i].time == firstTime
    {
      clusterEnd := clusterEnd + 1;
    }
    assert IsLeadingTie(parsed, clusterEnd);
    if clusterEnd < 2 {
      r := Ok(parsed);
      assert SettlesTie(parsed, clusterEnd, r);
      return;
    }
    var resolved := SelfConsistentOrder(Txns(parsed[..clusterEnd]));
    match resolved {
      case Failed => r := Crashed;
      case Ambiguous => r := Ok(parsed);
      case Order(rows) => r := Ok(At(firstTime, rows) + parsed[clusterEnd..]);
    }
    assert SettlesTie(parsed, clusterEnd, r);
  }

  /** The rows without their times of day. */
  function Unstamped(settled: Outcome<seq<Timed>>): Outcome<seq<Parsed>> {
    if settled.Ok? then Ok(Txns(settled.value)) else Crashed
  }

  method ParseStatement(raw: seq<RawRow>, fp: ReceiptFingerprint) returns (r: Outcome<seq<Parsed>>)
    ensures r.Ok? ==> BooksTheTable(r.value, raw, fp)
    ensures !r.Ok? <==> r == Crashed
    ensures r == Crashed <==> BlankLeadingTie(raw)
    ensures exists settled :: Settles(SortBy(ReadAll(raw, fp), BY_TIME), settled) && r == Unstamped(settled)
  {
    var parsed: seq<Timed> := [];
    for i := 0 to |raw|
      invariant parsed == ReadAll(raw[..i], fp)
    {
      assert raw[..i + 1][..i] == raw[..i];
      if raw[i].status.OtherStatus? {
        continue;
      }
      var (amount, direction) := AmountAndDirection(raw[i].paidIn, raw[i].withdrawn);
      var txn := Parsed(raw[i].time / SECONDS_A_DAY, amount, "KES", direction, raw[i].details, raw[i].balance,
                        fp(raw[i].receipt, raw[i].details, amount));
      parsed := parsed + [Timed(raw[i].time, txn)];
    }
    assert raw[..|raw|] == raw;
    parsed := SortBy(parsed, BY_TIME);
    var settled := ResolveLeadingTie(parsed);
    SettledBooks(raw, fp, settled);
    match settled {
      case Ok(rows) => r := Ok(Txns(rows));
      case Refused(_) => r := Crashed;
      case Crashed => r := Crashed;
    }
  }

  lemma {:induction false} AtMultiset(parsed: seq<Timed>, rows: seq<Parsed>, time: Seconds)
    requires forall t :: t in parsed ==> t.time == time
    requires multiset(rows) == multiset(Txns(parsed))
    ensures multiset(At(time, rows)) == multiset(parsed)
    decreases |parsed|
  {
    assert At(time, Txns(parsed)) == parsed by {
      assert forall i :: 0 <= i < |parsed| ==> parsed[i] in parsed;
    }
    AtRespectsMultiset(rows, Txns(parsed), time);
  }

  lemma {:induction false} AtCounts(rows: seq<Parsed>, time: Seconds, t: Timed)
    ensures multiset(At(time, rows))[t] == if t.time == time then multiset(rows)[t.txn] else 0
  {
    if rows != [] {
      var front, last := rows[..|rows| - 1], rows[|rows| - 1];
      AtCounts(front, time, t);
      assert rows == front + [last];
      assert At(time, rows) == At(time, front) + [Timed(time, last)];
    }
  }

  lemma {:induction false} AtRespectsMultiset(a: seq<Parsed>, b: seq<Parsed>, time: Seconds)
    requires multiset(a) == multiset(b)
    ensures multiset(At(time, a)) == multiset(At(time, b))
  {
    forall t
      ensures multiset(At(time, a))[t] == multiset(At(time, b))[t]
    {
      AtCounts(a, time, t);
      AtCounts(b, time, t);
    }
  }

  lemma {:induction false} BeyondTheTie(parsed: seq<Timed>, k: nat)
    requires SortedBy(parsed, BY_TIME) && IsLeadingTie(parsed, k)
    ensures forall i :: k <= i < |parsed| ==> parsed[i].time != parsed[0].time
  {
    forall i | k <= i < |parsed|
      ensures parsed[i].time != parsed[0].time
    {
      assert BY_TIME(parsed[0], parsed[k]);
      assert i > k ==> BY_TIME(parsed[k], parsed[i]);
    }
  }

  lemma {:induction false} RearrangedTie(parsed: seq<Timed>, k: nat, rows: seq<Parsed>)
    requires SortedBy(parsed, BY_TIME) && IsLeadingTie(parsed, k)
    requires |rows| == k && multiset(rows) == multiset(Txns(parsed[..k]))
    ensures var settled := At(parsed[0].time, rows) + parsed[k..];
      && |settled| == |parsed|
      && multiset(settled) == multiset(parsed)
      && SortedBy(settled, BY_TIME)
      && (forall i :: 0 <= i < |parsed| ==> settled[i].time == parsed[i].time)
      && (forall i :: k <= i < |parsed| ==> settled[i] == parsed[i])
  {
    var settled := At(parsed[0].time, rows) + parsed[k..];
    AtMultiset(parsed[..k], rows, parsed[0].time);
    assert parsed == parsed[..k] + parsed[k..];
    assert forall i :: 0 <= i < |parsed| ==> settled[i].time == parsed[i].time;
    forall i, j | 0 <= i < j < |settled|
      ensures BY_TIME(settled[i], settled[j])
    {
      assert BY_TIME(parsed[i], parsed[j]);
    }
  }

  /** Settling the tie keeps a sorted statement a sorted statement with the same rows, and
      touches nothing after the leading tie. */
  lemma {:induction false} SettlingKeepsTheStatement(parsed: seq<Timed>, r: Outcome<seq<Timed>>)
    requires SortedBy(parsed, BY_TIME) && Settles(parsed, r) && r.Ok?
    ensures multiset(r.value) == multiset(parsed) && |r.value| == |parsed|
    ensures SortedBy(r.value, BY_TIME)
    ensures forall i :: 0 <= i < |parsed| && parsed[i].time != parsed[0].time ==> r.value[i] == parsed[i]
    ensures forall i :: 0 <= i < |parsed| ==> r.value[i].time == parsed[i].time
  {
    if |parsed| >= 2 {
      var k: nat :| IsLeadingTie(parsed, k) && SettlesTie(parsed, k, r);
      var cluster := Txns(parsed[..k]);
      if k >= 2 && Resolve(cluster).Order? {
        ResolvedIsRearranged(cluster);
        RearrangedTie(parsed, k, Resolve(cluster).rows);
      }
    }
  }

  /** A sorted statement fails exactly when two or more rows share its first timestamp and
      one of them shows no balance; a blank balance anywhere else is harmless. */
  lemma {:induction false} WhenParsingFails(parsed: seq<Timed>, r: Outcome<seq<Timed>>)
    requires SortedBy(parsed, BY_TIME) && Settles(parsed, r)
    ensures r == Crashed <==>
      && |parsed| >= 2 && parsed[1].time == parsed[0].time
      && exists t :: t in parsed && t.time == parsed[0].time && t.txn.balanceAfter.None?
  {
    if |parsed| >= 2 {
      var k: nat :| IsLeadingTie(parsed, k) && SettlesTie(parsed, k, r);
      BeyondTheTie(parsed, k);
      var cluster := Txns(parsed[..k]);
      if t :| t in parsed && t.time == parsed[0].time && t.txn.balanceAfter.None? {
        var i :| 0 <= i < |parsed| && parsed[i] == t;
        assert cluster[i] == t.txn && cluster[i] in cluster;
      }
      if !KnownBalances(cluster) {
        var u :| u in cluster && u.balanceAfter.None?;
        var i :| 0 <= i < |cluster| && cluster[i] == u;
        assert parsed[i] in parsed;
      }
    }
  }

  /** Whatever way the leading tie is settled, the rows book the table. */
  lemma {:induction false} SettledBooks(raw: seq<RawRow>, fp: ReceiptFingerprint, r: Outcome<seq<Timed>>)
    requires Settles(SortBy(ReadAll(raw, fp), BY_TIME), r)
    ensures r.Ok? ==> BooksTheTable(Txns(r.value), raw, fp)
    ensures !r.Ok? <==> r == Crashed
    ensures r == Crashed <==> BlankLeadingTie(raw)
  {
    var rows := ReadAll(raw, fp);
    var parsed := SortBy(rows, BY_TIME);
    SortByMultiset(rows, BY_TIME);
    SortBySorted(rows, BY_TIME);
    if r.Ok? {
      SettlingKeepsTheStatement(parsed, r);
      var from := RearrangedBooks(raw, fp, r.value);
    }
    WhenParsingFails(parsed, r);
    TieInTheTable(raw, fp, parsed);
  }

  /** A blank row at place b of the leading tie, in terms of the sorted rows. */
  ghost predicate BlankAtFirst(parsed: seq<Timed>, b: nat) {
    b < |parsed| && parsed[b].time == parsed[0].time && parsed[b].txn.balanceAfter.None?
  }

  lemma {:induction false} TieInTheTable(raw: seq<RawRow>, fp: ReceiptFingerprint, parsed: seq<Timed>)
    requires multiset(parsed) == multiset(ReadAll(raw, fp)) && SortedBy(parsed, BY_TIME)
    ensures BlankLeadingTie(raw) <==>
      && |parsed| >= 2 && parsed[1].time == parsed[0].time
      && exists t :: t in parsed && t.time == parsed[0].time && t.txn.balanceAfter.None?
  {
    var from := RearrangedBooks(raw, fp, parsed);
    if |parsed| >= 2 && parsed[1].time == parsed[0].time {
      if t :| t in parsed && t.time == parsed[0].time && t.txn.balanceAfter.None? {
        var b: nat :| b < |parsed| && parsed[b] == t;
        SortedTieIsInTable(raw, fp, parsed, from, b);
      }
    }
    if BlankLeadingTie(raw) {
      var b := TableTieIsSorted(raw, fp, parsed, from);
      assert parsed[b] in parsed;
    }
  }

  ghost predicate Aligned(raw: seq<RawRow>, fp: ReceiptFingerprint, parsed: seq<Timed>, from: seq<nat>) {
    && SortedBy(parsed, BY_TIME) && BookedFrom(Txns(parsed), raw, fp, from)
    && forall k :: 0 <= k < |parsed| ==> parsed[k].time == raw[from[k]].time
  }

  lemma {:induction false} SortedTieIsInTable(raw: seq<RawRow>, fp: ReceiptFingerprint, parsed: seq<Timed>,
                                              from: seq<nat>, b: nat)
    requires Aligned(raw, fp, parsed, from) && BlankAtFirst(parsed, b)
    requires |parsed| >= 2 && parsed[1].time == parsed[0].time
    ensures BlankLeadingTie(raw)
  {
    var other := if b == 0 then 1 else 0;
    assert Books(Txns(parsed)[b], raw[from[b]], fp);
    forall k | 0 <= k < |raw| && Taken(raw[k])
      ensures raw[from[b]].time <= raw[k].time
    {
      var n :| 0 <= n < |from| && from[n] == k;
      assert n > 0 ==> BY_TIME(parsed[0], parsed[n]);
    }
    assert from[b] != from[other];
  }

  lemma {:induction false} TableTieIsSorted(raw: seq<RawRow>, fp: ReceiptFingerprint, parsed: seq<Timed>,
                                            from: seq<nat>) returns (b: nat)
    requires Aligned(raw, fp, parsed, from) && BlankLeadingTie(raw)
    ensures BlankAtFirst(parsed, b) && |parsed| >= 2 && parsed[1].time == parsed[0].time
  {
    var i: nat, j: nat :| && i != j && i < |raw| && j < |raw| && Taken(raw[i]) && Taken(raw[j])
      && raw[i].time == raw[j].time && raw[i].balance.None?
      && forall k :: 0 <= k < |raw| && Taken(raw[k]) ==> raw[i].time <= raw[k].time;
    b :| 0 <= b < |from| && from[b] == i;
    var c :| 0 <= c < |from| && from[c] == j;
    assert Books(Txns(parsed)[b], raw[i], fp);
    var last := if b < c then c else b;
    assert Taken(raw[from[0]]);
    assert last > 1 ==> BY_TIME(parsed[1], parsed[last]);
    assert BY_TIME(parsed[0], parsed[1]);
  }

  /** Two rows at the same first second, one without a balance: no way of settling the tie
      gives anything but a failure. */
  lemma {:induction false} BlankTieFails(a: RawRow, b: RawRow, fp: ReceiptFingerprint, r: Outcome<seq<Timed>>)
    requires a.time == b.time && a.status.Completed? && b.status.Completed? && b.balance.None?
    requires Settles(SortBy(ReadAll([a, b], fp), BY_TIME), r)
    ensures r == Crashed
  {
    assert [a, b][..1] == [a] && [a][..0] == [];
    assert ReadAll([a], fp) == [Read(a, fp)];
    var rows := ReadAll([a, b], fp);
    assert rows == [Read(a, fp), Read(b, fp)];
    var parsed := SortBy(rows, BY_TIME);
    SortByMultiset(rows, BY_TIME);
    SortBySorted(rows, BY_TIME);
    SortByMembers(rows, BY_TIME, Read(b, fp));
    forall i | 0 <= i < |parsed|
      ensures parsed[i].time == a.time
    {
      SortByMembers(rows, BY_TIME, parsed[i]);
    }
    WhenParsingFails(parsed, r);
  }

  /** The rows stamped with one time, in order. */
  ghost function StampedAt(rows: seq<Timed>, time: Seconds): seq<Timed> {
    Filter(rows, (t: Timed) => t.time == time)
  }

  /** The whole parse: the rows that were read, sorted by time, ties other than the leading
      one left in file order. */
  lemma {:induction false} ParseOutputShape(raw: seq<RawRow>, fp: ReceiptFingerprint, r: Outcome<seq<Timed>>)
    requires Settles(SortBy(ReadAll(raw, fp), BY_TIME), r) && r.Ok?
    ensures multiset(r.value) == multiset(ReadAll(raw, fp))
    ensures SortedBy(r.value, BY_TIME)
    ensures forall time :: (r.value != [] && time != r.value[0].time ==>
              StampedAt(r.value, time) == StampedAt(ReadAll(raw, fp), time))
  {
    var rows := ReadAll(raw, fp);
    var parsed := SortBy(rows, BY_TIME);
    SortByMultiset(rows, BY_TIME);
    SortBySorted(rows, BY_TIME);
    SettlingKeepsTheStatement(parsed, r);
    if r.value != [] {
      forall time | time != r.value[0].time
        ensures StampedAt(r.value, time) == StampedAt(rows, time)
      {
        LaterTiesKeepFileOrder(rows, r.value, time);
      }
    }
  }

  lemma {:induction false} LaterTiesKeepFileOrder(rows: seq<Timed>, settled: seq<Timed>, time: Seconds)
    requires var parsed := SortBy(rows, BY_TIME);
      && |settled| == |parsed| > 0
      && (forall i :: 0 <= i < |parsed| ==> settled[i].time == parsed[i].time)
      && (forall i :: 0 <= i < |parsed| && parsed[i].time != parsed[0].time ==> settled[i] == parsed[i])
    requires time != settled[0].time
    ensures StampedAt(settled, time) == StampedAt(rows, time)
  {
    var here := (t: Timed) => t.time == time;
    var parsed := SortBy(rows, BY_TIME);
    SortByStable(rows, BY_TIME, here);
    LeadingTieDoesNotShow(parsed, settled, here, |parsed|);
    assert parsed[..|parsed|] == parsed && settled[..|parsed|] == settled;
  }

  lemma {:induction false} LeadingTieDoesNotShow(parsed: seq<Timed>, settled: seq<Timed>, p: Timed -> bool, n: nat)
    requires n <= |parsed| == |settled|
    requires forall i :: 0 <= i < |parsed| ==> settled[i] == parsed[i] || (!p(settled[i]) && !p(parsed[i]))
    ensures Filter(settled[..n], p) == Filter(parsed[..n], p)
  {
    if n > 0 {
      LeadingTieDoesNotShow(parsed, settled, p, n - 1);
      assert settled[..n][..n - 1] == settled[..n - 1];
      assert parsed[..n][..n - 1] == parsed[..n - 1];
    }
  }

  // ---- reading undoes printing ----

  /** What really happened: one movement of the wallet and the balance after it, if any is
      shown. */
  datatype Movement = Movement(time: Seconds, receipt: string, details: string, dir: Direction, amount: Cents,
                               balance: Option<Cents>)

  /** Its row in the statement's table; withdrawals are printed negative. */
  function Row(m: Movement): RawRow {
    RawRow(m.receipt, m.time, m.details, Completed,
           if m.dir.In? then Some(m.amount) else None, if m.dir.Out? then Some(-m.amount) else None, m.balance)
  }

  function Rows(moves: seq<Movement>): seq<RawRow> {
    seq(|moves|, i requires 0 <= i < |moves| => Row(moves[i]))
  }

  ghost predicate Tells(t: Parsed, m: Movement, fp: ReceiptFingerprint) {
    && t.date == m.time / SECONDS_A_DAY && t.currency == "KES"
    && t.dir == m.dir && t.amount == m.amount
    && t.description == m.details && t.balanceAfter == m.balance
    && t.key == fp(m.receipt, m.details, m.amount)
  }

  ghost predicate InTurn(moves: seq<Movement>) {
    forall i, j :: 0 <= i < j < |moves| ==> moves[i].time < moves[j].time
  }

  lemma {:induction false} BookedRowTells(t: Parsed, m: Movement, fp: ReceiptFingerprint)
    requires Books(t, Row(m), fp)
    ensures Tells(t, m, fp) <==> m.dir.In? || m.amount >= 0
  {
  }

  /** Every row of such a table is taken, so the booked places are all of them. */
  lemma {:induction false} AllAreBooked(raw: seq<RawRow>, fp: ReceiptFingerprint, txns: seq<Parsed>, from: seq<nat>)
    requires BookedFrom(txns, raw, fp, from) && forall i :: 0 <= i < |raw| ==> Taken(raw[i])
    ensures IsIndexPerm(from, |raw|)
  {
    forall x: nat
      ensures x in from <==> x < |raw|
    {
      if x < |raw| {
        assert Taken(raw[x]);
      }
    }
  }

  lemma {:induction false} PlacesRise(moves: seq<Movement>, places: seq<nat>)
    requires InTurn(moves) && IsIndexPerm(places, |moves|)
    requires forall i, j :: 0 <= i < j < |places| ==>
      places[i] in places && places[j] in places && moves[places[i]].time <= moves[places[j]].time
    ensures |places| == |moves| && forall k :: 0 <= k < |places| ==> places[k] == k
  {
    IndexPermsEnumerated(|moves|, places);
    forall i, j | 0 <= i < j < |places|
      ensures places[i] < places[j]
    {
      assert places[i] != places[j];
    }
    forall k | 0 <= k < |places|
      ensures places[k] == k
    {
      RisingIsIdentity(places, |moves|, k);
    }
  }

  lemma {:induction false} ComposedRise(moves: seq<Movement>, raw: seq<RawRow>, p: seq<nat>, from: seq<nat>, k: nat)
    requires InTurn(moves) && |raw| == |moves| && k < |moves|
    requires IsIndexPerm(p, |moves|) && Apply(p, Rows(moves)) == raw
    requires IsIndexPerm(from, |raw|)
    requires forall i, j :: 0 <= i < j < |from| ==>
      from[i] in from && from[j] in from && raw[from[i]].time <= raw[from[j]].time
    ensures |from| == |moves| && from[k] < |raw| && raw[from[k]] == Row(moves[k])
  {
    var n := |moves|;
    IndexPermsEnumerated(n, p);
    IndexPermsEnumerated(n, from);
    ComposeIsIndexPerm(p, from, n);
    ApplyCompose(p, from, Rows(moves));
    var places := Compose(p, from);
    var sorted := Apply(from, raw);
    assert sorted == Apply(places, Rows(moves));
    forall i, j | 0 <= i < j < n
      ensures places[i] in places && places[j] in places && moves[places[i]].time <= moves[places[j]].time
    {
      assert sorted[i].time <= sorted[j].time;
    }
    PlacesRise(moves, places);
    assert from[k] in from;
    assert sorted[k] == Rows(moves)[k];
  }

  /** In whatever order the file lists the rows, they are booked in the order of the movements. */
  lemma {:induction false} BookedInTurn(moves: seq<Movement>, raw: seq<RawRow>, fp: ReceiptFingerprint,
                                        txns: seq<Parsed>)
    requires InTurn(moves) && multiset(raw) == multiset(Rows(moves)) && BooksTheTable(txns, raw, fp)
    ensures |txns| == |moves| && forall k :: 0 <= k < |txns| ==> Books(txns[k], Row(moves[k]), fp)
  {
    var p := SameRowsRearranged(raw, Rows(moves));
    IndexPermsEnumerated(|moves|, p);
    var from :| BookedFrom(txns, raw, fp, from);
    AllTaken(moves, raw, p);
    AllAreBooked(raw, fp, txns, from);
    IndexPermsEnumerated(|raw|, from);
    forall k | 0 <= k < |txns|
      ensures Books(txns[k], Row(moves[k]), fp)
    {
      ComposedRise(moves, raw, p, from, k);
      assert Books(txns[k], raw[from[k]], fp);
    }
  }

  lemma {:induction false} AllTaken(moves: seq<Movement>, raw: seq<RawRow>, p: seq<nat>)
    requires IsIndexPerm(p, |moves|) && Apply(p, Rows(moves)) == raw
    ensures forall i :: 0 <= i < |raw| ==> Taken(raw[i])
  {
    assert forall i :: 0 <= i < |raw| ==> p[i] in p;
  }

  lemma {:induction false} NoTieInTurn(moves: seq<Movement>, raw: seq<RawRow>)
    requires InTurn(moves) && multiset(raw) == multiset(Rows(moves))
    ensures !BlankLeadingTie(raw)
  {
    var p := SameRowsRearranged(raw, Rows(moves));
    forall i, j | 0 <= i < j < |raw|
      ensures raw[i].time != raw[j].time
    {
      assert p[i] in p && p[j] in p && p[i] != p[j];
      assert p[i] < p[j] || p[j] < p[i];
    }
  }

  /** A table of the rows of true movements, no two of one second, in any order: it parses,
      and the movements come back in the order they happened if and only if no outgoing one
      is negative. */
  lemma {:induction false} ParsingInvertsPrinting(moves: seq<Movement>, raw: seq<RawRow>, fp: ReceiptFingerprint,
                                                  txns: seq<Parsed>)
    requires InTurn(moves) && multiset(raw) == multiset(Rows(moves))
    ensures !BlankLeadingTie(raw)
    ensures BooksTheTable(txns, raw, fp) ==>
      && |txns| == |moves|
      && ((forall k :: 0 <= k < |moves| ==> Tells(txns[k], moves[k], fp))
          <==> (forall k :: 0 <= k < |moves| && moves[k].dir.Out? ==> moves[k].amount >= 0))
  {
    NoTieInTurn(moves, raw);
    if BooksTheTable(txns, raw, fp) {
      BookedInTurn(moves, raw, fp, txns);
      forall k | 0 <= k < |moves|
        ensures Tells(txns[k], moves[k], fp) <==> moves[k].dir.In? || moves[k].amount >= 0
      {
        BookedRowTells(txns[k], moves[k], fp);
      }
    }
  }
}
