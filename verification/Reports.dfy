/** app/repositories/reports.py, build_report: the joined rows grouped back by transaction
    and added up. */
module Reports {
  import opened Basics
  import opened Sums
  import opened AllocationLedger

  /** One (transaction, allocation) pair; a transaction without allocations appears once,
      with the allocation side empty. An allocation's id is its position in the table. */
  datatype Row = Row(
    txn: Id,
    txnAmount: Cents,
    dir: Direction,
    alloc: Option<nat>,
    category: Option<Id>,
    reason: Option<Id>,
    allocAmount: Cents)

  datatype Report = Report(
    totalIn: Cents,
    totalOut: Cents,
    byCategory: map<Id, Cents>,
    reconciledNoCategory: Cents,
    unreconciled: Cents)

  // ---- what each kind of row weighs ----

  const BOOKED: Row -> int := (r: Row) => if r.alloc.Some? then r.allocAmount else 0

  const TRANSFERRED: Row -> int := (r: Row) => if r.alloc.Some? && r.reason.Some? then r.allocAmount else 0

  const UNCATEGORISED: Row -> int :=
    (r: Row) => if r.alloc.Some? && r.reason.None? && r.category.None? then r.allocAmount else 0

  const CATEGORISED: Row -> int :=
    (r: Row) => if r.alloc.Some? && r.reason.None? && r.category.Some? then r.allocAmount else 0

  function Under(c: Id): Row -> int {
    (r: Row) => if r.alloc.Some? && r.reason.None? && r.category == Some(c) then r.allocAmount else 0
  }

  // ---- grouping ----

  function TxnsOf(rows: seq<Row>): seq<Id> {
    if rows == [] then []
    else
      var front, last := TxnsOf(rows[..|rows| - 1]), rows[|rows| - 1];
      if last.txn in front then front else front + [last.txn]
  }

  function RowsOf(rows: seq<Row>, id: Id): seq<Row> {
    Filter(rows, (r: Row) => r.txn == id)
  }

  method GroupByTransaction(rows: seq<Row>) returns (order: seq<Id>, groups: map<Id, seq<Row>>)
    ensures order == TxnsOf(rows)
    ensures forall id :: id in groups <==> id in order
    ensures forall id :: id in groups ==> groups[id] == RowsOf(rows, id)
  {
    order, groups := [], map[];
    for i := 0 to |rows|
      invariant order == TxnsOf(rows[..i])
      invariant forall id :: id in groups <==> id in order
      invariant forall id :: id in groups ==> groups[id] == RowsOf(rows[..i], id)
      invariant forall id :: id !in groups ==> RowsOf(rows[..i], id) == []
    {
      var r := rows[i];
      assert rows[..i + 1][..i] == rows[..i];
      if r.txn !in groups {
        order := order + [r.txn];
        groups := groups[r.txn := []];
      }
      groups := groups[r.txn := groups[r.txn] + [r]];
    }
    assert rows[..|rows|] == rows;
  }

  predicate HasTransfer(group: seq<Row>) {
    exists i :: 0 <= i < |group| && group[i].reason.Some?
  }

  /** What a transaction adds to the total of its direction: nothing if it is a transfer. */
  function GroupFlow(g: seq<Row>, dir: Direction): Cents {
    if g == [] || HasTransfer(g) || g[0].dir != dir then 0 else g[0].txnAmount
  }

  /** What its allocations leave of it, if anything. */
  function GroupRemainder(g: seq<Row>): Cents {
    if g == [] || g[0].txnAmount - SumOf(g, BOOKED) <= 0 then 0 else g[0].txnAmount - SumOf(g, BOOKED)
  }

  function Flow(rows: seq<Row>, dir: Direction): Id -> int {
    (id: Id) => GroupFlow(RowsOf(rows, id), dir)
  }

  function Remainder(rows: seq<Row>): Id -> int {
    (id: Id) => GroupRemainder(RowsOf(rows, id))
  }

  function GroupSums(rows: seq<Row>, ids: seq<Id>, weight: Row -> int): int {
    SumOf(ids, (id: Id) => SumOf(RowsOf(rows, id), weight))
  }

  lemma {:induction false} TxnsOfAreTheTxns(rows: seq<Row>)
    ensures Distinct(TxnsOf(rows))
    ensures forall id :: id in TxnsOf(rows) <==> exists i :: 0 <= i < |rows| && rows[i].txn == id
  {
    if rows != [] {
      var front, last := rows[..|rows| - 1], rows[|rows| - 1];
      TxnsOfAreTheTxns(front);
      assert forall i :: 0 <= i < |front| ==> front[i] == rows[i];
      assert rows[|rows| - 1].txn == last.txn;
    }
  }

  function Within(ids: seq<Id>, weight: Row -> int): Row -> int {
    (r: Row) => if r.txn in ids then weight(r) else 0
  }

  /** Summing group by group is summing row by row, whatever order the rows came in. */
  lemma {:induction false} GroupSumsAreRowSums(rows: seq<Row>, ids: seq<Id>, weight: Row -> int)
    requires Distinct(ids)
    ensures GroupSums(rows, ids, weight) == SumOf(rows, Within(ids, weight))
  {
    if ids == [] {
      SumOfZero(rows, Within([], weight));
    } else {
      var n := |ids| - 1;
      var front, last := ids[..n], ids[n];
      assert ids == front + [last] && last !in front;
      GroupSumsAreRowSums(rows, front, weight);
      var mine := (r: Row) => if r.txn == last then weight(r) else 0;
      SumOfFilter(rows, (r: Row) => r.txn == last, weight, mine);
      SumOfPlus(rows, Within(front, weight), mine, Within(ids, weight));
    }
  }

  lemma {:induction false} AllGroupSums(rows: seq<Row>, weight: Row -> int)
    ensures GroupSums(rows, TxnsOf(rows), weight) == SumOf(rows, weight)
  {
    TxnsOfAreTheTxns(rows);
    GroupSumsAreRowSums(rows, TxnsOf(rows), weight);
    SumOfCongruent(rows, Within(TxnsOf(rows), weight), weight);
  }

  // ---- the report ----

  /** Bucket totals of one group's rows: the inner loop. */
  method AddToBuckets(group: seq<Row>, byCategory0: map<Id, Cents>, noCategory0: Cents)
    returns (byCategory: map<Id, Cents>, noCategory: Cents)
    ensures noCategory == noCategory0 + SumOf(group, UNCATEGORISED)
    ensures forall c :: Get(byCategory, c) == Get(byCategory0, c) + SumOf(group, Under(c))
    ensures SumMap(byCategory) == SumMap(byCategory0) + SumOf(group, CATEGORISED)
  {
    byCategory, noCategory := byCategory0, noCategory0;
    for i := 0 to |group|
      invariant noCategory == noCategory0 + SumOf(group[..i], UNCATEGORISED)
      invariant forall c :: Get(byCategory, c) == Get(byCategory0, c) + SumOf(group[..i], Under(c))
      invariant SumMap(byCategory) == SumMap(byCategory0) + SumOf(group[..i], CATEGORISED)
    {
      var r := group[i];
      assert group[..i + 1][..i] == group[..i];
      if r.alloc.None? || r.reason.Some? {
        continue;
      }
      if r.category.None? {
        noCategory := noCategory + r.allocAmount;
        continue;
      }
      SumMapAdd(byCategory, r.category.value, r.allocAmount);
      byCategory := byCategory[r.category.value := Get(byCategory, r.category.value) + r.allocAmount];
    }
    assert group[..|group|] == group;
  }

  /** One transaction's contribution to every figure. */
  method AddGroup(group: seq<Row>, r0: Report) returns (r: Report)
    requires group != []
    ensures r.totalIn == r0.totalIn + GroupFlow(group, In)
    ensures r.totalOut == r0.totalOut + GroupFlow(group, Out)
    ensures r.unreconciled == r0.unreconciled + GroupRemainder(group)
    ensures r.reconciledNoCategory == r0.reconciledNoCategory + SumOf(group, UNCATEGORISED)
    ensures forall c :: Get(r.byCategory, c) == Get(r0.byCategory, c) + SumOf(group, Under(c))
    ensures SumMap(r.byCategory) == SumMap(r0.byCategory) + SumOf(group, CATEGORISED)
  {
    r := r0;
    var first := group[0];
    if !HasTransfer(group) {
      if first.dir.In? {
        r := r.(totalIn := r.totalIn + first.txnAmount);
      } else {
        r := r.(totalOut := r.totalOut + first.txnAmount);
      }
    }
    var remainder := first.txnAmount - SumOf(group, BOOKED);
    if remainder > 0 {
      r := r.(unreconciled := r.unreconciled + remainder);
    }
    var byCategory, noCategory := AddToBuckets(group, r.byCategory, r.reconciledNoCategory);
    r := r.(byCategory := byCategory, reconciledNoCategory := noCategory);
  }

  /** The figures after the first groups, as sums over those groups. */
  ghost predicate Covers(r: Report, rows: seq<Row>, ids: seq<Id>) {
    && r.totalIn == SumOf(ids, Flow(rows, In))
    && r.totalOut == SumOf(ids, Flow(rows, Out))
    && r.unreconciled == SumOf(ids, Remainder(rows))
    && r.reconciledNoCategory == GroupSums(rows, ids, UNCATEGORISED)
    && (forall c :: Get(r.byCategory, c) == GroupSums(rows, ids, Under(c)))
    && SumMap(r.byCategory) == GroupSums(rows, ids, CATEGORISED)
  }

  lemma {:induction false} CoversStep(r: Report, r': Report, rows: seq<Row>, ids: seq<Id>, i: nat)
    requires i < |ids| && Covers(r, rows, ids[..i])
    requires var g := RowsOf(rows, ids[i]);
      && r'.totalIn == r.totalIn + GroupFlow(g, In)
      && r'.totalOut == r.totalOut + GroupFlow(g, Out)
      && r'.unreconciled == r.unreconciled + GroupRemainder(g)
      && r'.reconciledNoCategory == r.reconciledNoCategory + SumOf(g, UNCATEGORISED)
      && (forall c :: Get(r'.byCategory, c) == Get(r.byCategory, c) + SumOf(g, Under(c)))
      && SumMap(r'.byCategory) == SumMap(r.byCategory) + SumOf(g, CATEGORISED)
    ensures Covers(r', rows, ids[..i + 1])
  {
    SumOfStep(ids, i, Flow(rows, In));
    SumOfStep(ids, i, Flow(rows, Out));
    SumOfStep(ids, i, Remainder(rows));
    GroupSumsStep(rows, ids, i, UNCATEGORISED);
    GroupSumsStep(rows, ids, i, CATEGORISED);
    forall c
      ensures Get(r'.byCategory, c) == GroupSums(rows, ids[..i + 1], Under(c))
    {
      GroupSumsStep(rows, ids, i, Under(c));
    }
  }

  lemma {:induction false} GroupSumsStep(rows: seq<Row>, ids: seq<Id>, i: nat, weight: Row -> int)
    requires i < |ids|
    ensures GroupSums(rows, ids[..i + 1], weight)
      == GroupSums(rows, ids[..i], weight) + SumOf(RowsOf(rows, ids[i]), weight)
  {
    SumOfStep(ids, i, (id: Id) => SumOf(RowsOf(rows, id), weight));
  }

  /** Every figure as a sum over rows, or over transactions. */
  ghost predicate IsReport(r: Report, rows: seq<Row>) {
    && r.totalIn == SumOf(TxnsOf(rows), Flow(rows, In))
    && r.totalOut == SumOf(TxnsOf(rows), Flow(rows, Out))
    && r.unreconciled == SumOf(TxnsOf(rows), Remainder(rows))
    && r.reconciledNoCategory == SumOf(rows, UNCATEGORISED)
    && (forall c :: Get(r.byCategory, c) == SumOf(rows, Under(c)))
    && SumMap(r.byCategory) == SumOf(rows, CATEGORISED)
  }

  /** Grouping leaves no trace in the figures. */
  method BuildReport(rows: seq<Row>) returns (r: Report)
    ensures IsReport(r, rows)
  {
    var order, groups := GroupByTransaction(rows);
    r := Report(0, 0, map[], 0, 0);
    for i := 0 to |order|
      invariant Covers(r, rows, order[..i])
    {
      GroupIsNotEmpty(rows, order[i]);
      ghost var before := r;
      r := AddGroup(groups[order[i]], r);
      CoversStep(before, r, rows, order, i);
    }
    assert order[..|order|] == order;
    AllGroupSums(rows, UNCATEGORISED);
    AllGroupSums(rows, CATEGORISED);
    forall c
      ensures Get(r.byCategory, c) == SumOf(rows, Under(c))
    {
      AllGroupSums(rows, Under(c));
    }
  }

  lemma {:induction false} GroupIsNotEmpty(rows: seq<Row>, id: Id)
    requires id in TxnsOf(rows)
    ensures RowsOf(rows, id) != [] && forall r :: r in RowsOf(rows, id) ==> r in rows && r.txn == id
  {
    TxnsOfAreTheTxns(rows);
    var i :| 0 <= i < |rows| && rows[i].txn == id;
    var p := (r: Row) => r.txn == id;
    FilterMembers(rows, p, rows[i]);
    forall r | r in RowsOf(rows, id)
      ensures r in rows && r.txn == id
    {
      FilterMembers(rows, p, r);
    }
  }

  // ---- the rows the query returns ----

  datatype Query = Query(currency: string, account: Option<Id>, fromDate: Option<Date>, toDate: Option<Date>,
                         dir: Option<Direction>)

  predicate Matches(t: Txn, q: Query) {
    && t.currency == q.currency
    && (q.account.Some? ==> t.account == q.account.value)
    && (q.fromDate.Some? ==> t.date >= q.fromDate.value)
    && (q.toDate.Some? ==> t.date <= q.toDate.value)
    && (q.dir.Some? ==> t.dir == q.dir.value)
  }

  function Matched(l: Ledger, q: Query): set<Id> {
    set id | id in l.txns && Matches(l.txns[id], q)
  }

  function AllocRow(l: Ledger, j: nat): Row
    requires j < |l.allocs| && l.allocs[j].txn in l.txns
  {
    var a := l.allocs[j];
    var t := l.txns[a.txn];
    Row(a.txn, t.amount, t.dir, Some(j), a.category, a.reason, a.amount)
  }

  predicate IsJoinRow(r: Row, l: Ledger, q: Query) {
    && r.txn in l.txns && Matches(l.txns[r.txn], q)
    && match r.alloc
       case Some(j) => j < |l.allocs| && l.allocs[j].txn == r.txn && r == AllocRow(l, j)
       case None =>
         && r == Row(r.txn, l.txns[r.txn].amount, l.txns[r.txn].dir, None, None, None, 0)
         && forall j :: 0 <= j < |l.allocs| ==> l.allocs[j].txn != r.txn
  }

  /** rows is the result of the left join: each of its rows once, in any order at all. */
  ghost predicate IsLeftJoin(rows: seq<Row>, l: Ledger, q: Query) {
    Distinct(rows) && forall r :: r in rows <==> IsJoinRow(r, l, q)
  }

  /** Weight of the first n allocations of matching transactions. */
  function AllocSum(l: Ledger, q: Query, n: nat, weight: Row -> int): int
    requires n <= |l.allocs|
  {
    if n == 0 then 0
    else
      var id := l.allocs[n - 1].txn;
      AllocSum(l, q, n - 1, weight)
        + if id in l.txns && Matches(l.txns[id], q) then weight(AllocRow(l, n - 1)) else 0
  }

  ghost function AllocRows(l: Ledger, q: Query, n: nat): set<Row>
    requires n <= |l.allocs|
  {
    set j | 0 <= j < n && l.allocs[j].txn in l.txns && Matches(l.txns[l.allocs[j].txn], q) :: AllocRow(l, j)
  }

  lemma {:induction false} AllocRowsSum(l: Ledger, q: Query, n: nat, weight: Row -> int)
    requires n <= |l.allocs|
    ensures SumSet(AllocRows(l, q, n), weight) == AllocSum(l, q, n, weight)
  {
    if n == 0 {
      assert AllocRows(l, q, 0) == {};
    } else {
      AllocRowsSum(l, q, n - 1, weight);
      var id := l.allocs[n - 1].txn;
      if id in l.txns && Matches(l.txns[id], q) {
        var r := AllocRow(l, n - 1);
        assert AllocRows(l, q, n) == AllocRows(l, q, n - 1) + {r};
        assert r !in AllocRows(l, q, n - 1);
        SumSetAdd(AllocRows(l, q, n - 1), weight, r);
      } else {
        assert AllocRows(l, q, n) == AllocRows(l, q, n - 1);
      }
    }
  }

  /** Summing the joined rows, in whatever order, is summing the allocations table. */
  lemma {:induction false} JoinSum(rows: seq<Row>, l: Ledger, q: Query, weight: Row -> int)
    requires IsLeftJoin(rows, l, q)
    requires forall r: Row :: r.alloc.None? ==> weight(r) == 0
    ensures SumOf(rows, weight) == AllocSum(l, q, |l.allocs|, weight)
  {
    var booked := AllocRows(l, q, |l.allocs|);
    var empty := Elements(rows) - booked;
    SumOfIsSumSet(rows, weight);
    AllocRowsSum(l, q, |l.allocs|, weight);
    forall r | r in booked
      ensures r in rows
    {
      assert IsJoinRow(r, l, q);
    }
    forall r | r in empty
      ensures weight(r) == 0
    {
      assert IsJoinRow(r, l, q);
    }
    SumSetZero(empty, weight);
    SumSetUnion(booked, empty, weight);
    assert Elements(rows) == booked + empty;
  }

  function InCategory(l: Ledger, q: Query, c: Id, n: nat): Cents
    requires n <= |l.allocs|
  {
    if n == 0 then 0
    else
      var a := l.allocs[n - 1];
      InCategory(l, q, c, n - 1)
        + if a.category == Some(c) && a.reason.None? && a.txn in l.txns && Matches(l.txns[a.txn], q)
          then a.amount else 0
  }

  lemma {:induction false} AllocSumUnder(l: Ledger, q: Query, c: Id, n: nat)
    requires n <= |l.allocs|
    ensures AllocSum(l, q, n, Under(c)) == InCategory(l, q, c, n)
  {
    if n > 0 {
      AllocSumUnder(l, q, c, n - 1);
    }
  }

  /** A category's total is what its matching, non-transfer allocations add up to. */
  lemma {:induction false} CategoryTotals(rows: seq<Row>, l: Ledger, q: Query, c: Id)
    requires IsLeftJoin(rows, l, q)
    ensures SumOf(rows, Under(c)) == InCategory(l, q, c, |l.allocs|)
  {
    JoinSum(rows, l, q, Under(c));
    AllocSumUnder(l, q, c, |l.allocs|);
  }

  /** Over a plan's window and currency the report's category total is the very figure the
      budget alerts compare with the limit. */
  lemma {:induction false} CategoryTotalIsConsumption(l: Ledger, b: Budget, n: nat)
    requires AllSound(l) && n <= |l.allocs|
    ensures InCategory(l, Query(b.currency, None, Some(b.starts), Some(b.ends), None), b.category, n)
      == Consumed(l.allocs[..n], l.txns, b)
  {
    if n > 0 {
      CategoryTotalIsConsumption(l, b, n - 1);
      assert l.allocs[..n][..n - 1] == l.allocs[..n - 1];
      assert l.allocs[n - 1] in l.allocs;
    } else {
      assert l.allocs[..0] == [];
    }
  }

  // ---- one transaction's group ----

  function BookedFor(id: Id): Row -> int {
    (r: Row) => if r.txn == id then BOOKED(r) else 0
  }

  lemma {:induction false} AllocSumBooked(l: Ledger, q: Query, id: Id, n: nat)
    requires AllSound(l) && id in Matched(l, q) && n <= |l.allocs|
    ensures AllocSum(l, q, n, BookedFor(id)) == AllocatedTo(l.allocs[..n], id)
  {
    if n > 0 {
      AllocSumBooked(l, q, id, n - 1);
      assert l.allocs[..n][..n - 1] == l.allocs[..n - 1];
      assert l.allocs[n - 1] in l.allocs;
    } else {
      assert l.allocs[..0] == [];
    }
  }

  ghost predicate IsTransfer(l: Ledger, id: Id) {
    exists a :: a in l.allocs && a.txn == id && a.reason.Some?
  }

  lemma {:induction false} MatchedAreTheTxns(rows: seq<Row>, l: Ledger, q: Query)
    requires IsLeftJoin(rows, l, q)
    ensures Elements(TxnsOf(rows)) == Matched(l, q)
  {
    TxnsOfAreTheTxns(rows);
    forall id | id in Matched(l, q)
      ensures id in TxnsOf(rows)
    {
      var r: Row;
      if j :| 0 <= j < |l.allocs| && l.allocs[j].txn == id {
        r := AllocRow(l, j);
      } else {
        r := Row(id, l.txns[id].amount, l.txns[id].dir, None, None, None, 0);
      }
      assert IsJoinRow(r, l, q);
      assert r in rows;
      var i :| 0 <= i < |rows| && rows[i] == r;
    }
    forall id | id in TxnsOf(rows)
      ensures id in Matched(l, q)
    {
      var i :| 0 <= i < |rows| && rows[i].txn == id;
      assert rows[i] in rows;
    }
  }

  /** A group tells its transaction's amount, direction, allocated sum and transfers truly. */
  lemma {:induction false} GroupIsTrue(rows: seq<Row>, l: Ledger, q: Query, id: Id)
    requires IsLeftJoin(rows, l, q) && AllSound(l) && id in Matched(l, q)
    ensures var g := RowsOf(rows, id);
      && g != []
      && g[0].txnAmount == l.txns[id].amount && g[0].dir == l.txns[id].dir
      && SumOf(g, BOOKED) == AllocatedTo(l.allocs, id)
      && (HasTransfer(g) <==> IsTransfer(l, id))
  {
    MatchedAreTheTxns(rows, l, q);
    assert id in TxnsOf(rows);
    GroupIsNotEmpty(rows, id);
    var g := RowsOf(rows, id);
    assert g[0] in g && IsJoinRow(g[0], l, q);
    SumOfFilter(rows, (r: Row) => r.txn == id, BOOKED, BookedFor(id));
    JoinSum(rows, l, q, BookedFor(id));
    AllocSumBooked(l, q, id, |l.allocs|);
    assert l.allocs[..|l.allocs|] == l.allocs;
    if HasTransfer(g) {
      var i :| 0 <= i < |g| && g[i].reason.Some?;
      assert g[i] in g && IsJoinRow(g[i], l, q);
      assert l.allocs[g[i].alloc.value] in l.allocs;
    }
    if IsTransfer(l, id) {
      var a :| a in l.allocs && a.txn == id && a.reason.Some?;
      var j :| 0 <= j < |l.allocs| && l.allocs[j] == a;
      var r := AllocRow(l, j);
      assert IsJoinRow(r, l, q);
      FilterMembers(rows, (r: Row) => r.txn == id, r);
      var i :| 0 <= i < |g| && g[i] == r;
    }
  }

  // ---- the report against the ledger ----

  ghost function FlowOf(l: Ledger, dir: Direction): Id -> int {
    (id: Id) => if id in l.txns && l.txns[id].dir == dir && !IsTransfer(l, id) then l.txns[id].amount else 0
  }

  function AmountOf(l: Ledger): Id -> int {
    (id: Id) => if id in l.txns then l.txns[id].amount else 0
  }

  function LeftOf(l: Ledger): Id -> int {
    (id: Id) => if id in l.txns then l.txns[id].amount - AllocatedTo(l.allocs, id) else 0
  }

  /** Money in and out: the matching transactions of that direction that no allocation marks
      as a transfer, at their full amounts. */
  lemma {:induction false} FlowTotals(rows: seq<Row>, l: Ledger, q: Query, dir: Direction)
    requires IsLeftJoin(rows, l, q) && AllSound(l)
    ensures SumOf(TxnsOf(rows), Flow(rows, dir)) == SumSet(Matched(l, q), FlowOf(l, dir))
  {
    TxnsOfAreTheTxns(rows);
    MatchedAreTheTxns(rows, l, q);
    SumOfIsSumSet(TxnsOf(rows), Flow(rows, dir));
    forall id | id in Matched(l, q)
      ensures Flow(rows, dir)(id) == FlowOf(l, dir)(id)
    {
      GroupIsTrue(rows, l, q, id);
    }
    SumSetCongruent(Matched(l, q), Flow(rows, dir), FlowOf(l, dir));
  }

  /** The unreconciled total is exactly what is left of the matching transactions: the floor
      at zero never bites on a sound ledger. */
  lemma {:induction false} UnreconciledTotal(rows: seq<Row>, l: Ledger, q: Query)
    requires IsLeftJoin(rows, l, q) && Inv(l)
    ensures SumOf(TxnsOf(rows), Remainder(rows)) == SumSet(Matched(l, q), LeftOf(l))
  {
    TxnsOfAreTheTxns(rows);
    MatchedAreTheTxns(rows, l, q);
    SumOfIsSumSet(TxnsOf(rows), Remainder(rows));
    forall id | id in Matched(l, q)
      ensures Remainder(rows)(id) == LeftOf(l)(id)
    {
      GroupIsTrue(rows, l, q, id);
    }
    SumSetCongruent(Matched(l, q), Remainder(rows), LeftOf(l));
  }

  ghost function AllocatedOf(l: Ledger): Id -> int {
    (id: Id) => AllocatedTo(l.allocs, id)
  }

  lemma {:induction false} BookedIsAllocated(rows: seq<Row>, l: Ledger, q: Query)
    requires IsLeftJoin(rows, l, q) && AllSound(l)
    ensures SumOf(rows, BOOKED) == SumSet(Matched(l, q), AllocatedOf(l))
  {
    var perTxn := (id: Id) => SumOf(RowsOf(rows, id), BOOKED);
    TxnsOfAreTheTxns(rows);
    MatchedAreTheTxns(rows, l, q);
    AllGroupSums(rows, BOOKED);
    SumOfIsSumSet(TxnsOf(rows), perTxn);
    forall id | id in Matched(l, q)
      ensures perTxn(id) == AllocatedOf(l)(id)
    {
      GroupIsTrue(rows, l, q, id);
    }
    SumSetCongruent(Matched(l, q), perTxn, AllocatedOf(l));
  }

  lemma {:induction false} BookedSplits(rows: seq<Row>)
    ensures SumOf(rows, BOOKED) == SumOf(rows, CATEGORISED) + SumOf(rows, UNCATEGORISED) + SumOf(rows, TRANSFERRED)
  {
    var plain := (r: Row) => CATEGORISED(r) + UNCATEGORISED(r);
    SumOfPlus(rows, CATEGORISED, UNCATEGORISED, plain);
    SumOfPlus(rows, plain, TRANSFERRED, BOOKED);
  }

  /** Conservation: on a sound ledger, for any filters and any order of the joined rows, the
      money of the matching transactions is all accounted for: under a category, reconciled
      without one, moved as a transfer, or still unreconciled. */
  lemma {:induction false} MoneyIsConserved(rows: seq<Row>, l: Ledger, q: Query)
    requires IsLeftJoin(rows, l, q) && Inv(l)
    ensures SumSet(Matched(l, q), AmountOf(l))
      == SumOf(rows, CATEGORISED) + SumOf(rows, UNCATEGORISED) + SumOf(rows, TRANSFERRED)
         + SumOf(TxnsOf(rows), Remainder(rows))
  {
    BookedSplits(rows);
    BookedIsAllocated(rows, l, q);
    UnreconciledTotal(rows, l, q);
    SumSetPlus(Matched(l, q), AllocatedOf(l), LeftOf(l), AmountOf(l));
  }

  /** ... in particular on every ledger any run of requests can reach. */
  lemma {:induction false} MoneyIsConservedOnRuns(rows: seq<Row>, l: Ledger, requests: seq<Request>, q: Query)
    requires Inv(l) && IsLeftJoin(rows, Run(l, requests), q)
    ensures SumSet(Matched(Run(l, requests), q), AmountOf(Run(l, requests)))
      == SumOf(rows, CATEGORISED) + SumOf(rows, UNCATEGORISED) + SumOf(rows, TRANSFERRED)
         + SumOf(TxnsOf(rows), Remainder(rows))
  {
    RunsKeepInv(l, requests);
    MoneyIsConserved(rows, Run(l, requests), q);
  }

  // ---- what the filters leave out ----

  /** Two filters between them let in what a third does, and nothing twice. */
  ghost predicate Splits(l: Ledger, whole: Query, part: Query, rest: Query) {
    Matched(l, part) !! Matched(l, rest) && Matched(l, whole) == Matched(l, part) + Matched(l, rest)
  }

  /** A report over everything is the report on money in and the one on money out, or the one
      up to a day and the one from the next day on; and neither of the first two has anything
      of the other's direction in it. */
  lemma {:induction false} FiltersSplit(l: Ledger, q: Query, day: Date)
    ensures Splits(l, q.(dir := None), q.(dir := Some(In)), q.(dir := Some(Out)))
    ensures Splits(l, q.(fromDate := None, toDate := None), q.(fromDate := None, toDate := Some(day)),
                   q.(fromDate := Some(day + 1), toDate := None))
    ensures SumSet(Matched(l, q.(dir := Some(In))), FlowOf(l, Out)) == 0
    ensures SumSet(Matched(l, q.(dir := Some(Out))), FlowOf(l, In)) == 0
  {
    SumSetZero(Matched(l, q.(dir := Some(In))), FlowOf(l, Out));
    SumSetZero(Matched(l, q.(dir := Some(Out))), FlowOf(l, In));
  }

  /** Every matching transaction is in the report on its own account and in no other's. */
  lemma {:induction false} AccountsSplit(l: Ledger, q: Query, id: Id)
    requires id in Matched(l, q.(account := None))
    ensures forall account :: id in Matched(l, q.(account := Some(account))) <==> account == l.txns[id].account
  {
  }

  /** Figures summed per transaction add up the same way, money in and out among them. */
  lemma {:induction false} SplitReportsAddUp(l: Ledger, whole: Query, part: Query, rest: Query, f: Id -> int)
    requires Splits(l, whole, part, rest)
    ensures SumSet(Matched(l, whole), f) == SumSet(Matched(l, part), f) + SumSet(Matched(l, rest), f)
  {
    SumSetUnion(Matched(l, part), Matched(l, rest), f);
  }

  /** What has moved as a transfer: the matching allocations that carry a reason. */
  function TransferredSum(l: Ledger, q: Query, n: nat): Cents
    requires n <= |l.allocs|
  {
    if n == 0 then 0
    else
      var a := l.allocs[n - 1];
      TransferredSum(l, q, n - 1)
        + if a.reason.Some? && a.txn in l.txns && Matches(l.txns[a.txn], q) then a.amount else 0
  }

  lemma {:induction false} AllocSumTransferred(l: Ledger, q: Query, n: nat)
    requires n <= |l.allocs|
    ensures AllocSum(l, q, n, TRANSFERRED) == TransferredSum(l, q, n)
  {
    if n > 0 {
      AllocSumTransferred(l, q, n - 1);
    }
  }

  /** The report itself: on every ledger a run can reach, for any filters, the figures it
      shows and the transfers together are the money of the matching transactions. */
  lemma {:induction false} ReportConserves(r: Report, rows: seq<Row>, l: Ledger, requests: seq<Request>, q: Query)
    requires Inv(l) && IsLeftJoin(rows, Run(l, requests), q) && IsReport(r, rows)
    ensures var after := Run(l, requests);
      SumSet(Matched(after, q), AmountOf(after))
      == SumMap(r.byCategory) + r.reconciledNoCategory + r.unreconciled + TransferredSum(after, q, |after.allocs|)
  {
    MoneyIsConservedOnRuns(rows, l, requests, q);
    JoinSum(rows, Run(l, requests), q, TRANSFERRED);
    AllocSumTransferred(Run(l, requests), q, |Run(l, requests).allocs|);
  }
}
