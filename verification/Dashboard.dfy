/** app/repositories/dashboard.py, build_dashboard, and its agreement with the report. */
module Dashboard {
  import opened Basics
  import opened Sums
  import opened AllocationLedger
  import R = Reports

  /** One (account, transaction) pair; an account without transactions appears once. */
  datatype Row = Row(account: Id, txn: Option<Id>, amount: Cents, dir: Direction, transfer: bool)

  function Flow(dir: Direction): Row -> int {
    (r: Row) => if r.txn.Some? && !r.transfer && r.dir == dir then r.amount else 0
  }

  function FlowIn(account: Id, dir: Direction): Row -> int {
    (r: Row) => if r.account == account then Flow(dir)(r) else 0
  }

  ghost predicate Mentions(rows: seq<Row>, account: Id) {
    exists i :: 0 <= i < |rows| && rows[i].account == account
  }

  /** One direction's buckets hold each account's movements, and together the total. */
  ghost predicate Tallies(buckets: map<Id, Cents>, rows: seq<Row>, dir: Direction) {
    && SumMap(buckets) == SumOf(rows, Flow(dir))
    && (forall a :: a in buckets <==> Mentions(rows, a))
    && (forall a :: Get(buckets, a) == SumOf(rows, FlowIn(a, dir)))
  }

  lemma {:induction false} MentionsStep(rows: seq<Row>, r: Row, a: Id)
    ensures Mentions(rows + [r], a) <==> Mentions(rows, a) || a == r.account
  {
    var all := rows + [r];
    assert all[|rows|].account == r.account;
    if i :| 0 <= i < |rows| && rows[i].account == a {
      assert all[i].account == a;
    }
  }

  lemma {:induction false} SharesStep(buckets: map<Id, Cents>, rows: seq<Row>, r: Row, dir: Direction, a: Id)
    requires Get(buckets, a) == SumOf(rows, FlowIn(a, dir))
    ensures Get(buckets[r.account := Get(buckets, r.account) + Flow(dir)(r)], a) == SumOf(rows + [r], FlowIn(a, dir))
  {
    assert (rows + [r])[..|rows|] == rows;
  }

  lemma {:induction false} TalliesStep(buckets: map<Id, Cents>, rows: seq<Row>, r: Row, dir: Direction)
    requires Tallies(buckets, rows, dir)
    ensures Tallies(buckets[r.account := Get(buckets, r.account) + Flow(dir)(r)], rows + [r], dir)
  {
    var after := buckets[r.account := Get(buckets, r.account) + Flow(dir)(r)];
    SumMapAdd(buckets, r.account, Flow(dir)(r));
    assert SumMap(after) == SumOf(rows + [r], Flow(dir)) by {
      assert (rows + [r])[..|rows|] == rows;
    }
    forall a
      ensures a in after <==> Mentions(rows + [r], a)
    {
      MentionsStep(rows, r, a);
    }
    forall a
      ensures Get(after, a) == SumOf(rows + [r], FlowIn(a, dir))
    {
      SharesStep(buckets, rows, r, dir, a);
    }
  }

  /** A row opens its account's bucket, and fills it if it is a counted movement that way. */
  method AddRow(buckets0: map<Id, Cents>, total0: Cents, r: Row, dir: Direction, ghost seen: seq<Row>)
    returns (buckets: map<Id, Cents>, total: Cents)
    requires Tallies(buckets0, seen, dir) && total0 == SumOf(seen, Flow(dir))
    ensures Tallies(buckets, seen + [r], dir) && total == SumOf(seen + [r], Flow(dir))
  {
    assert (seen + [r])[..|seen|] == seen;
    buckets, total := buckets0, total0;
    if r.account !in buckets {
      buckets := buckets[r.account := 0];
    }
    if r.txn.Some? && !r.transfer && r.dir == dir {
      buckets := buckets[r.account := buckets[r.account] + r.amount];
      total := total + r.amount;
    }
    TalliesStep(buckets0, seen, r, dir);
    assert buckets == buckets0[r.account := Get(buckets0, r.account) + Flow(dir)(r)];
  }

  /** Overall totals and each account's share of them, from one pass over the same rows. */
  method BuildDashboard(rows: seq<Row>)
    returns (totalIn: Cents, totalOut: Cents, moneyIn: map<Id, Cents>, moneyOut: map<Id, Cents>)
    ensures totalIn == SumOf(rows, Flow(In)) && totalOut == SumOf(rows, Flow(Out))
    ensures SumMap(moneyIn) == totalIn && SumMap(moneyOut) == totalOut
    ensures Tallies(moneyIn, rows, In) && Tallies(moneyOut, rows, Out)
  {
    totalIn, totalOut, moneyIn, moneyOut := 0, 0, map[], map[];
    for i := 0 to |rows|
      invariant totalIn == SumOf(rows[..i], Flow(In)) && totalOut == SumOf(rows[..i], Flow(Out))
      invariant Tallies(moneyIn, rows[..i], In) && Tallies(moneyOut, rows[..i], Out)
    {
      assert rows[..i + 1] == rows[..i] + [rows[i]];
      moneyIn, totalIn := AddRow(moneyIn, totalIn, rows[i], In, rows[..i]);
      moneyOut, totalOut := AddRow(moneyOut, totalOut, rows[i], Out, rows[..i]);
    }
    assert rows[..|rows|] == rows;
  }

  // ---- the rows the query returns ----

  predicate Shown(l: Ledger, currencyOf: map<Id, string>, currency: string, lo: Date, hi: Date, id: Id) {
    && id in l.txns
    && l.txns[id].account in currencyOf && currencyOf[l.txns[id].account] == currency
    && lo <= l.txns[id].date <= hi
  }

  ghost function TxnRow(l: Ledger, id: Id): Row
    requires id in l.txns
  {
    var t := l.txns[id];
    Row(t.account, Some(id), t.amount, t.dir, R.IsTransfer(l, id))
  }

  /** Accounts by their own currency; transactions by their account. */
  ghost predicate IsDashboardRow(r: Row, l: Ledger, currencyOf: map<Id, string>, currency: string, lo: Date, hi: Date) {
    match r.txn
    case Some(id) => Shown(l, currencyOf, currency, lo, hi, id) && r == TxnRow(l, id)
    case None =>
      && r == Row(r.account, None, 0, In, false)
      && r.account in currencyOf && currencyOf[r.account] == currency
      && forall id :: Shown(l, currencyOf, currency, lo, hi, id) ==> l.txns[id].account != r.account
  }

  ghost predicate IsDashboardJoin(rows: seq<Row>, l: Ledger, currencyOf: map<Id, string>, currency: string, lo: Date,
                                  hi: Date) {
    Distinct(rows) && forall r :: r in rows <==> IsDashboardRow(r, l, currencyOf, currency, lo, hi)
  }

  ghost predicate CurrenciesAgree(l: Ledger, currencyOf: map<Id, string>) {
    forall id :: id in l.txns ==>
      l.txns[id].account in currencyOf && currencyOf[l.txns[id].account] == l.txns[id].currency
  }

  function Window(currency: string, lo: Date, hi: Date): R.Query {
    R.Query(currency, None, Some(lo), Some(hi), None)
  }

  ghost function RowFor(l: Ledger): Id -> Row {
    (id: Id) => if id in l.txns then TxnRow(l, id) else Row(0, None, 0, In, false)
  }

  ghost function Moved(l: Ledger, ids: set<Id>): set<Row> {
    Image(ids, RowFor(l))
  }

  /** Transactions the dashboard counts: those on accounts of the currency. */
  function ShownIds(l: Ledger, currencyOf: map<Id, string>, currency: string, lo: Date, hi: Date): set<Id> {
    set id | id in l.txns && Shown(l, currencyOf, currency, lo, hi, id)
  }

  lemma {:induction false} MovedRows(rows: seq<Row>, l: Ledger, currencyOf: map<Id, string>, currency: string,
                                     lo: Date, hi: Date)
    requires IsDashboardJoin(rows, l, currencyOf, currency, lo, hi)
    ensures var moved := Moved(l, ShownIds(l, currencyOf, currency, lo, hi));
      && moved <= Elements(rows)
      && forall r :: r in Elements(rows) - moved ==> r.txn.None?
  {
    var ids := ShownIds(l, currencyOf, currency, lo, hi);
    forall r | r in Moved(l, ids)
      ensures r in rows
    {
      assert IsDashboardRow(r, l, currencyOf, currency, lo, hi);
    }
    forall r | r in Elements(rows) && r.txn.Some?
      ensures r in Moved(l, ids)
    {
      assert IsDashboardRow(r, l, currencyOf, currency, lo, hi);
      assert r.txn.value in ids && r == RowFor(l)(r.txn.value);
    }
  }

  /** The dashboard's money in or out: every counted transaction without a transfer. */
  lemma {:induction false} DashboardSum(rows: seq<Row>, l: Ledger, currencyOf: map<Id, string>, currency: string,
                                        lo: Date, hi: Date, dir: Direction)
    requires IsDashboardJoin(rows, l, currencyOf, currency, lo, hi)
    ensures SumOf(rows, Flow(dir)) == SumSet(ShownIds(l, currencyOf, currency, lo, hi), R.FlowOf(l, dir))
  {
    var ids := ShownIds(l, currencyOf, currency, lo, hi);
    var moved := Moved(l, ids);
    var idle := Elements(rows) - moved;
    MovedRows(rows, l, currencyOf, currency, lo, hi);
    SumOfIsSumSet(rows, Flow(dir));
    SumSetZero(idle, Flow(dir));
    SumSetUnion(moved, idle, Flow(dir));
    assert Elements(rows) == moved + idle;
    MovedSum(l, ids, dir);
  }

  lemma {:induction false} MovedSum(l: Ledger, ids: set<Id>, dir: Direction)
    requires ids <= l.txns.Keys
    ensures SumSet(Moved(l, ids), Flow(dir)) == SumSet(ids, R.FlowOf(l, dir))
  {
    SumSetImage(ids, RowFor(l), Flow(dir), R.FlowOf(l, dir));
  }

  lemma {:induction false} SumSetDifference<T>(a: set<T>, b: set<T>, f: T -> int)
    ensures SumSet(a, f) - SumSet(b, f) == SumSet(a - b, f) - SumSet(b - a, f)
  {
    SumSetUnion(a * b, a - b, f);
    SumSetUnion(a * b, b - a, f);
    assert a * b + (a - b) == a && a * b + (b - a) == b;
  }

  /** Same ledger, currency and window: the dashboard's money less the report's is what flowed
      in other currencies on accounts of this one, less what flowed in this currency on
      accounts of others. One filters by the account's currency, the other by the
      transaction's, and they agree exactly when those two sums are equal. */
  lemma {:induction false} DashboardAgainstReport(rows: seq<Row>, reportRows: seq<R.Row>, l: Ledger,
                                                  currencyOf: map<Id, string>, currency: string, lo: Date, hi: Date,
                                                  dir: Direction)
    requires IsDashboardJoin(rows, l, currencyOf, currency, lo, hi)
    requires R.IsLeftJoin(reportRows, l, Window(currency, lo, hi)) && AllSound(l)
    ensures var byAccount := ShownIds(l, currencyOf, currency, lo, hi);
      var byTxn := R.Matched(l, Window(currency, lo, hi));
      SumOf(rows, Flow(dir)) - SumOf(R.TxnsOf(reportRows), R.Flow(reportRows, dir))
      == SumSet(byAccount - byTxn, R.FlowOf(l, dir)) - SumSet(byTxn - byAccount, R.FlowOf(l, dir))
  {
    DashboardSum(rows, l, currencyOf, currency, lo, hi, dir);
    R.FlowTotals(reportRows, l, Window(currency, lo, hi), dir);
    SumSetDifference(ShownIds(l, currencyOf, currency, lo, hi), R.Matched(l, Window(currency, lo, hi)),
                     R.FlowOf(l, dir));
  }

  /** So where every transaction has its account's currency they are the same. */
  lemma {:induction false} DashboardMatchesReport(rows: seq<Row>, reportRows: seq<R.Row>, l: Ledger,
                                                  currencyOf: map<Id, string>, currency: string, lo: Date, hi: Date,
                                                  dir: Direction)
    requires IsDashboardJoin(rows, l, currencyOf, currency, lo, hi)
    requires R.IsLeftJoin(reportRows, l, Window(currency, lo, hi))
    requires AllSound(l) && CurrenciesAgree(l, currencyOf)
    ensures SumOf(rows, Flow(dir)) == SumOf(R.TxnsOf(reportRows), R.Flow(reportRows, dir))
  {
    DashboardAgainstReport(rows, reportRows, l, currencyOf, currency, lo, hi, dir);
    assert ShownIds(l, currencyOf, currency, lo, hi) == R.Matched(l, Window(currency, lo, hi));
  }
}
