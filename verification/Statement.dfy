/** app/repositories/reports.py, build_transaction_statement: a running balance rebuilt from
    the earliest known balance, then filtered and paged. */
module Statement {
  import opened Basics
  import opened Sums

  /** One transaction of the account, oldest first, with the figures the query joins on. */
  datatype Row = Row(
    id: Id,
    date: Date,
    amount: Cents,
    dir: Direction,
    balanceAfter: Option<Cents>,
    allocatedTotal: Cents,
    categoryIds: set<Id>)

  datatype Status = Reconciled | Unreconciled

  datatype Filters = Filters(
    fromDate: Option<Date>,
    toDate: Option<Date>,
    status: Option<Status>,
    category: Option<Id>)

  datatype Line = Line(row: Row, balance: Option<Cents>, status: Status)

  datatype Page = Page(number: nat, size: nat)

  datatype Report = Report(
    opening: Option<Cents>,
    lines: seq<Line>,
    total: nat,
    credit: Cents,
    debit: Cents,
    closing: Option<Cents>)

  function Delta(r: Row): int {
    Signed(r.dir, r.amount)
  }

  function Net(rows: seq<Row>): int {
    SumOf(rows, Delta)
  }

  // ---- the anchor and the balances ----

  /** k is the earliest row whose balance is known. */
  ghost predicate IsAnchor(rows: seq<Row>, k: nat) {
    k < |rows| && rows[k].balanceAfter.Some? && forall i :: 0 <= i < k ==> rows[i].balanceAfter.None?
  }

  function AnchorFrom(rows: seq<Row>, i: nat): Option<nat>
    requires i <= |rows|
    decreases |rows| - i
  {
    if i == |rows| then None
    else if rows[i].balanceAfter.Some? then Some(i)
    else AnchorFrom(rows, i + 1)
  }

  lemma {:induction false} AnchorFromIsFirst(rows: seq<Row>, i: nat)
    requires i <= |rows| && forall j :: 0 <= j < i ==> rows[j].balanceAfter.None?
    ensures match AnchorFrom(rows, i)
            case Some(k) => IsAnchor(rows, k)
            case None => forall j :: 0 <= j < |rows| ==> rows[j].balanceAfter.None?
    decreases |rows| - i
  {
    if i < |rows| && rows[i].balanceAfter.None? {
      AnchorFromIsFirst(rows, i + 1);
    }
  }

  /** Balance before the account's very first row. */
  function Starting(rows: seq<Row>): Option<Cents> {
    AnchorFromIsFirst(rows, 0);
    match AnchorFrom(rows, 0)
    case None => None
    case Some(k) => Some(rows[k].balanceAfter.value - Delta(rows[k]) - Net(rows[..k]))
  }

  /** Balance once the first n rows have been applied. */
  function BalanceAfter(rows: seq<Row>, n: nat): Option<Cents>
    requires n <= |rows|
  {
    if Starting(rows).None? then None else Some(Starting(rows).value + Net(rows[..n]))
  }

  lemma {:induction false} StartingFromAnchor(rows: seq<Row>, k: nat)
    requires IsAnchor(rows, k)
    ensures Starting(rows) == Some(rows[k].balanceAfter.value - Net(rows[..k + 1]))
  {
    AnchorFromIsFirst(rows, 0);
    SumOfStep(rows, k, Delta);
  }

  /** The forward pass arrives at the anchor's own stated balance. */
  lemma {:induction false} AnchorIsHit(rows: seq<Row>, k: nat)
    requires IsAnchor(rows, k)
    ensures BalanceAfter(rows, k + 1) == rows[k].balanceAfter
  {
    StartingFromAnchor(rows, k);
  }

  /** Any other known balance is reproduced exactly when it differs from the anchor's by the
      movements in between; so on a consistent history any known row could be the anchor. */
  lemma {:induction false} KnownBalanceIsHit(rows: seq<Row>, k: nat, j: nat)
    requires IsAnchor(rows, k) && k <= j < |rows| && rows[j].balanceAfter.Some?
    ensures BalanceAfter(rows, j + 1) == rows[j].balanceAfter
      <==> rows[j].balanceAfter.value - rows[k].balanceAfter.value == Net(rows[k + 1..j + 1])
  {
    StartingFromAnchor(rows, k);
    SumOfSplit(rows[..j + 1], k + 1, Delta);
    assert rows[..j + 1][..k + 1] == rows[..k + 1];
    assert rows[..j + 1][k + 1..] == rows[k + 1..j + 1];
  }

  // ---- inserting a manual row ----

  function Insert(rows: seq<Row>, at: nat, m: Row): seq<Row>
    requires at <= |rows|
  {
    rows[..at] + [m] + rows[at..]
  }

  function Moved(balance: Option<Cents>, shift: int): Option<Cents> {
    if balance.None? then None else Some(balance.value + shift)
  }

  lemma {:induction false} NetInsert(rows: seq<Row>, at: nat, m: Row, n: nat)
    requires at <= |rows| && n <= |rows| + 1
    ensures Net(Insert(rows, at, m)[..n])
      == if n <= at then Net(rows[..n]) else Net(rows[..n - 1]) + Delta(m)
  {
    if n <= at {
      assert Insert(rows, at, m)[..n] == rows[..n];
    } else {
      var tail := rows[at..n - 1];
      assert Insert(rows, at, m)[..n] == (rows[..at] + [m]) + tail;
      SumOfAppend(rows[..at] + [m], tail, Delta);
      SumOfStep(rows[..at] + [m], at, Delta);
      assert (rows[..at] + [m])[..at] == rows[..at];
      assert (rows[..at] + [m])[..at + 1] == rows[..at] + [m];
      SumOfAppend(rows[..at], tail, Delta);
      assert rows[..n - 1] == rows[..at] + tail;
    }
  }

  lemma {:induction false} StartingOfInsert(rows: seq<Row>, k: nat, at: nat, m: Row)
    requires IsAnchor(rows, k) && at <= |rows| && (at <= k ==> m.balanceAfter.None?)
    ensures Starting(rows).Some?
    ensures Starting(Insert(rows, at, m)) == Moved(Starting(rows), if at <= k then -Delta(m) else 0)
  {
    var more := Insert(rows, at, m);
    var k' := if at <= k then k + 1 else k;
    assert IsAnchor(more, k');
    StartingFromAnchor(rows, k);
    StartingFromAnchor(more, k');
    NetInsert(rows, at, m, k' + 1);
  }

  /** A manual row placed before the anchor changes history, not the present: balances from
      its own row on stay as they were, earlier ones move by minus its amount. */
  lemma {:induction false} InsertBeforeAnchor(rows: seq<Row>, k: nat, at: nat, m: Row, n: nat)
    requires IsAnchor(rows, k) && at <= k && m.balanceAfter.None? && n <= |rows|
    ensures |Insert(rows, at, m)| == |rows| + 1
    ensures n >= at ==> BalanceAfter(Insert(rows, at, m), n + 1) == BalanceAfter(rows, n)
    ensures n <= at ==> BalanceAfter(Insert(rows, at, m), n) == Moved(BalanceAfter(rows, n), -Delta(m))
  {
    StartingOfInsert(rows, k, at, m);
    if n >= at {
      NetInsert(rows, at, m, n + 1);
    }
    if n <= at {
      NetInsert(rows, at, m, n);
    }
  }

  /** One placed after the anchor moves only the balances that follow it. */
  lemma {:induction false} InsertAfterAnchor(rows: seq<Row>, k: nat, at: nat, m: Row, n: nat)
    requires IsAnchor(rows, k) && k < at <= |rows| && n <= |rows|
    ensures |Insert(rows, at, m)| == |rows| + 1
    ensures n <= at ==> BalanceAfter(Insert(rows, at, m), n) == BalanceAfter(rows, n)
    ensures n >= at ==> BalanceAfter(Insert(rows, at, m), n + 1) == Moved(BalanceAfter(rows, n), Delta(m))
  {
    StartingOfInsert(rows, k, at, m);
    if n >= at {
      NetInsert(rows, at, m, n + 1);
    }
    if n <= at {
      NetInsert(rows, at, m, n);
    }
  }

  // ---- filtering ----

  function StatusOf(r: Row): Status {
    if r.allocatedTotal >= r.amount then Reconciled else Unreconciled
  }

  predicate Matches(r: Row, f: Filters) {
    && (f.fromDate.Some? ==> r.date >= f.fromDate.value)
    && (f.toDate.Some? ==> r.date <= f.toDate.value)
    && (f.status.Some? ==> StatusOf(r) == f.status.value)
    && (f.category.Some? ==> f.category.value in r.categoryIds)
  }

  /** Positions of the displayed rows, in order. */
  function Displayed(rows: seq<Row>, f: Filters): seq<nat> {
    if rows == [] then []
    else
      var n := |rows| - 1;
      var front := Displayed(rows[..n], f);
      if Matches(rows[n], f) then front + [n] else front
  }

  lemma {:induction false} DisplayedExactly(rows: seq<Row>, f: Filters)
    ensures forall i: nat :: i in Displayed(rows, f) <==> i < |rows| && Matches(rows[i], f)
    ensures forall a, b :: 0 <= a < b < |Displayed(rows, f)| ==> Displayed(rows, f)[a] < Displayed(rows, f)[b]
  {
    if rows != [] {
      DisplayedExactly(rows[..|rows| - 1], f);
      var d := Displayed(rows[..|rows| - 1], f);
      assert forall a :: 0 <= a < |d| ==> d[a] in d;
    }
  }

  function LineAt(rows: seq<Row>, i: nat): Line
    requires i < |rows|
  {
    Line(rows[i], BalanceAfter(rows, i + 1), StatusOf(rows[i]))
  }

  /** Total amount, in one direction, of the rows at positions d. */
  function Total(rows: seq<Row>, d: seq<nat>, dir: Direction): Cents {
    if d == [] then 0
    else
      var i := d[|d| - 1];
      Total(rows, d[..|d| - 1], dir) + if i < |rows| && rows[i].dir == dir then rows[i].amount else 0
  }

  function Credits(rows: seq<Row>, f: Filters): Cents {
    Total(rows, Displayed(rows, f), In)
  }

  function Debits(rows: seq<Row>, f: Filters): Cents {
    Total(rows, Displayed(rows, f), Out)
  }

  /** What a row adds to the total of its direction when it is displayed. */
  function ShownAmount(f: Filters, dir: Direction): Row -> int {
    (r: Row) => if Matches(r, f) && r.dir == dir then r.amount else 0
  }

  lemma {:induction false} TotalOfFront(rows: seq<Row>, d: seq<nat>, dir: Direction)
    requires rows != [] && forall a :: 0 <= a < |d| ==> d[a] < |rows| - 1
    ensures Total(rows, d, dir) == Total(rows[..|rows| - 1], d, dir)
  {
    if d != [] {
      TotalOfFront(rows, d[..|d| - 1], dir);
    }
  }

  /** The two totals are each the sum of the displayed rows of their direction. */
  lemma {:induction false} TotalsAreSums(rows: seq<Row>, f: Filters, dir: Direction)
    ensures Total(rows, Displayed(rows, f), dir) == SumOf(rows, ShownAmount(f, dir))
  {
    if rows != [] {
      var n := |rows| - 1;
      var front := Displayed(rows[..n], f);
      TotalsAreSums(rows[..n], f, dir);
      DisplayedExactly(rows[..n], f);
      assert forall a :: 0 <= a < |front| ==> front[a] in front;
      TotalOfFront(rows, front, dir);
      assert (front + [n])[..|front|] == front;
    }
  }

  /** Signed sum of the rows in lo..hi that the filter hides. */
  function Hidden(rows: seq<Row>, f: Filters, lo: nat, hi: nat): int
    requires lo <= hi <= |rows|
  {
    if lo == hi then 0
    else Hidden(rows, f, lo, hi - 1) + if Matches(rows[hi - 1], f) then 0 else Delta(rows[hi - 1])
  }

  function Opening(rows: seq<Row>, f: Filters): Option<Cents> {
    DisplayedExactly(rows, f);
    var d := Displayed(rows, f);
    if d == [] then Starting(rows) else
      assert d[0] in d;
      BalanceAfter(rows, d[0])
  }

  function Closing(rows: seq<Row>, f: Filters): Option<Cents> {
    DisplayedExactly(rows, f);
    var d := Displayed(rows, f);
    if d == [] then Starting(rows) else
      assert d[|d| - 1] in d;
      BalanceAfter(rows, d[|d| - 1] + 1)
  }

  /** Python's slice [start : start + size] of a list. */
  function Slice<T>(s: seq<T>, start: nat, size: nat): seq<T> {
    if start >= |s| then [] else if start + size >= |s| then s[start..] else s[start..start + size]
  }

  function Lines(rows: seq<Row>, f: Filters): seq<Line> {
    DisplayedExactly(rows, f);
    var d := Displayed(rows, f);
    seq(|d|, a requires 0 <= a < |d| => assert d[a] in d; LineAt(rows, d[a]))
  }

  ghost predicate DistinctIds(rows: seq<Row>) {
    forall i, j :: 0 <= i < j < |rows| ==> rows[i].id != rows[j].id
  }

  /** The forward pass: every row gets its own balance and status. */
  method ComputeLines(rows: seq<Row>) returns (computed: seq<Line>)
    ensures |computed| == |rows|
    ensures forall j :: 0 <= j < |rows| ==> computed[j] == LineAt(rows, j)
  {
    computed := [];
    var running := Starting(rows);
    assert rows[..0] == [];
    for i := 0 to |rows|
      invariant |computed| == i
      invariant running == BalanceAfter(rows, i)
      invariant forall j :: 0 <= j < i ==> computed[j] == LineAt(rows, j)
    {
      if running.Some? {
        running := Some(running.value + Delta(rows[i]));
      }
      SumOfStep(rows, i, Delta);
      computed := computed + [Line(rows[i], running, StatusOf(rows[i]))];
    }
  }

  /** Position of the row with the given id. */
  method IndexOfId(computed: seq<Line>, id: Id) returns (i: nat)
    requires exists j :: 0 <= j < |computed| && computed[j].row.id == id
    ensures i < |computed| && computed[i].row.id == id
  {
    i := 0;
    while computed[i].row.id != id
      invariant i < |computed| && forall j :: 0 <= j < i ==> computed[j].row.id != id
      decreases |computed| - i
    {
      i := i + 1;
    }
  }

  /** The displayed lines. */
  method Select(rows: seq<Row>, computed: seq<Line>, f: Filters) returns (displayed: seq<Line>)
    requires |computed| == |rows| && forall j :: 0 <= j < |rows| ==> computed[j] == LineAt(rows, j)
    ensures displayed == Lines(rows, f)
  {
    DisplayedExactly(rows, f);
    var d := Displayed(rows, f);
    assert forall a :: 0 <= a < |d| ==> d[a] in d;
    displayed := seq(|d|, a requires 0 <= a < |d| => computed[d[a]]);
  }

  /** The balance just before the first displayed line, found by that line's id. */
  method BalanceBefore(rows: seq<Row>, computed: seq<Line>, f: Filters, first: Line) returns (balance: Option<Cents>)
    requires DistinctIds(rows) && |computed| == |rows|
    requires forall j :: 0 <= j < |rows| ==> computed[j] == LineAt(rows, j)
    requires Lines(rows, f) != [] && first == Lines(rows, f)[0]
    ensures balance == Opening(rows, f)
  {
    DisplayedExactly(rows, f);
    var d := Displayed(rows, f);
    assert d[0] in d;
    assert computed[d[0]] == first;
    var firstIndex := IndexOfId(computed, first.row.id);
    assert firstIndex == d[0];
    balance := Starting(rows);
    if firstIndex > 0 {
      balance := computed[firstIndex - 1].balance;
    } else {
      assert rows[..0] == [];
    }
  }

  /** The report: opening and closing are the true balances just before the first and just
      after the last displayed row, over the unfiltered history; the totals ignore paging.
      Transaction ids are a primary key, which is what locates the first displayed row. */
  method BuildTransactionStatement(rows: seq<Row>, f: Filters, page: Option<Page>) returns (r: Report)
    requires DistinctIds(rows)
    requires page.Some? ==> page.value.number >= 1 && page.value.size >= 1
    ensures r.opening == Opening(rows, f)
    ensures r.closing == Closing(rows, f)
    ensures r.credit == Credits(rows, f)
    ensures r.debit == Debits(rows, f)
    ensures r.total == |Displayed(rows, f)|
    ensures r.lines == match page
                       case None => Lines(rows, f)
                       case Some(p) => Slice(Lines(rows, f), (p.number - 1) * p.size, p.size)
  {
    var startingBalance := Starting(rows);
    var computed := ComputeLines(rows);
    var displayed := Select(rows, computed, f);
    var openingBalance := startingBalance;
    if displayed != [] {
      openingBalance := BalanceBefore(rows, computed, f, displayed[0]);
    }
    var closingBalance := if displayed != [] then displayed[|displayed| - 1].balance else openingBalance;
    var paged := displayed;
    if page.Some? {
      var start := (page.value.number - 1) * page.value.size;
      paged := Slice(displayed, start, page.value.size);
    }
    r := Report(openingBalance, paged, |displayed|, Credits(rows, f), Debits(rows, f), closingBalance);
  }

  // ---- flow identities ----

  lemma {:induction false} DisplayedStep(rows: seq<Row>, f: Filters, n: nat)
    requires n < |rows|
    ensures Displayed(rows[..n + 1], f)
      == if Matches(rows[n], f) then Displayed(rows[..n], f) + [n] else Displayed(rows[..n], f)
  {
    assert rows[..n + 1][..n] == rows[..n];
  }

  lemma {:induction false} TotalStep(rows: seq<Row>, d: seq<nat>, n: nat, dir: Direction)
    requires n < |rows|
    ensures Total(rows, d + [n], dir) == Total(rows, d, dir) + if rows[n].dir == dir then rows[n].amount else 0
  {
    assert (d + [n])[..|d|] == d;
  }

  /** Net movement of the first n rows, as far as shown. */
  function ShownNet(rows: seq<Row>, d: seq<nat>): int {
    Total(rows, d, In) - Total(rows, d, Out)
  }

  lemma {:induction false} ShownPlusHidden(rows: seq<Row>, f: Filters, n: nat)
    requires n <= |rows|
    ensures Net(rows[..n]) == ShownNet(rows, Displayed(rows[..n], f)) + Hidden(rows, f, 0, n)
  {
    if n == 0 {
      assert rows[..0] == [];
    } else {
      ShownPlusHidden(rows, f, n - 1);
      SumOfStep(rows, n - 1, Delta);
      DisplayedStep(rows, f, n - 1);
      TotalStep(rows, Displayed(rows[..n - 1], f), n - 1, In);
      TotalStep(rows, Displayed(rows[..n - 1], f), n - 1, Out);
    }
  }

  lemma {:induction false} HiddenSplit(rows: seq<Row>, f: Filters, lo: nat, mid: nat, hi: nat)
    requires lo <= mid <= hi <= |rows|
    ensures Hidden(rows, f, lo, hi) == Hidden(rows, f, lo, mid) + Hidden(rows, f, mid, hi)
  {
    if mid < hi {
      HiddenSplit(rows, f, lo, mid, hi - 1);
    }
  }

  lemma {:induction false} AllHiddenBelow(rows: seq<Row>, f: Filters, n: nat)
    requires n <= |rows| && forall i :: 0 <= i < n ==> !Matches(rows[i], f)
    ensures Hidden(rows, f, 0, n) == Net(rows[..n]) && Displayed(rows[..n], f) == []
  {
    if n == 0 {
      assert rows[..0] == [];
    } else {
      AllHiddenBelow(rows, f, n - 1);
      SumOfStep(rows, n - 1, Delta);
      assert rows[..n][..n - 1] == rows[..n - 1];
    }
  }

  lemma {:induction false} NothingShownAbove(rows: seq<Row>, f: Filters, n: nat, m: nat)
    requires n <= m <= |rows| && forall i :: n <= i < m ==> !Matches(rows[i], f)
    ensures Displayed(rows[..m], f) == Displayed(rows[..n], f)
  {
    if n < m {
      NothingShownAbove(rows, f, n, m - 1);
      assert rows[..m][..m - 1] == rows[..m - 1];
    }
  }

  /** first and end bracket the displayed rows tightly. */
  lemma {:induction false} DisplayedRange(rows: seq<Row>, f: Filters) returns (first: nat, end: nat)
    requires Displayed(rows, f) != []
    ensures first < end <= |rows|
    ensures first == Displayed(rows, f)[0] && end == Displayed(rows, f)[|Displayed(rows, f)| - 1] + 1
    ensures Matches(rows[first], f) && Matches(rows[end - 1], f)
    ensures forall i :: 0 <= i < |rows| && (i < first || end <= i) ==> !Matches(rows[i], f)
  {
    DisplayedExactly(rows, f);
    var d := Displayed(rows, f);
    first, end := d[0], d[|d| - 1] + 1;
    assert d[0] in d && d[|d| - 1] in d;
    forall i | 0 <= i < |rows| && (i < first || end <= i)
      ensures !Matches(rows[i], f)
    {
      assert Matches(rows[i], f) <==> i in d;
    }
  }

  /** Whatever the date, status and category filters, closing minus opening is credits minus
      debits plus the movements hidden between the first and the last displayed row. */
  lemma {:induction false} FlowIdentity(rows: seq<Row>, f: Filters)
    requires Starting(rows).Some? && Displayed(rows, f) != []
    ensures var d := Displayed(rows, f);
      && d[0] <= d[|d| - 1] < |rows|
      && Opening(rows, f).Some? && Closing(rows, f).Some?
      && Closing(rows, f).value - Opening(rows, f).value
         == Credits(rows, f) - Debits(rows, f) + Hidden(rows, f, d[0], d[|d| - 1] + 1)
  {
    var first, end := DisplayedRange(rows, f);
    AllHiddenBelow(rows, f, first);
    ShownPlusHidden(rows, f, end);
    HiddenSplit(rows, f, 0, first, end);
    NothingShownAbove(rows, f, end, |rows|);
    assert rows[..|rows|] == rows;
  }

  ghost predicate DateSorted(rows: seq<Row>) {
    forall i, j :: 0 <= i < j < |rows| ==> rows[i].date <= rows[j].date
  }

  predicate DatesOnly(f: Filters) {
    f.status.None? && f.category.None?
  }

  lemma {:induction false} NoneHidden(rows: seq<Row>, f: Filters, lo: nat, hi: nat)
    requires lo <= hi <= |rows| && forall i :: lo <= i < hi ==> Matches(rows[i], f)
    ensures Hidden(rows, f, lo, hi) == 0
  {
    if lo < hi {
      NoneHidden(rows, f, lo, hi - 1);
    }
  }

  lemma {:induction false} AllShownBetween(rows: seq<Row>, f: Filters, first: nat, end: nat)
    requires DateSorted(rows) && DatesOnly(f) && first < end <= |rows|
    requires Matches(rows[first], f) && Matches(rows[end - 1], f)
    ensures Hidden(rows, f, first, end) == 0
  {
    forall i | first <= i < end
      ensures Matches(rows[i], f)
    {
      assert first < i ==> rows[first].date <= rows[i].date;
      assert i < end - 1 ==> rows[i].date <= rows[end - 1].date;
    }
    NoneHidden(rows, f, first, end);
  }

  /** With only dates filtered nothing is hidden in between: the report balances by itself. */
  lemma {:induction false} DateWindowBalances(rows: seq<Row>, f: Filters)
    requires DateSorted(rows) && DatesOnly(f)
    requires Starting(rows).Some? && Displayed(rows, f) != []
    ensures Opening(rows, f).Some? && Closing(rows, f).Some?
    ensures Closing(rows, f).value - Opening(rows, f).value
      == Credits(rows, f) - Debits(rows, f)
  {
    var first, end := DisplayedRange(rows, f);
    AllShownBetween(rows, f, first, end);
    FlowIdentity(rows, f);
  }

  function Window(fromDate: Option<Date>, toDate: Option<Date>): Filters {
    Filters(fromDate, toDate, None, None)
  }

  /** Adjacent non-empty windows meet: the balance carried out of one is the balance brought
      into the next. */
  lemma {:induction false} AdjacentWindowsMeet(rows: seq<Row>, lo: Option<Date>, cut: Date, hi: Option<Date>)
    requires DateSorted(rows)
    requires Displayed(rows, Window(lo, Some(cut))) != []
    requires Displayed(rows, Window(Some(cut + 1), hi)) != []
    ensures Closing(rows, Window(lo, Some(cut))) == Opening(rows, Window(Some(cut + 1), hi))
  {
    var f, g := Window(lo, Some(cut)), Window(Some(cut + 1), hi);
    var first, end := DisplayedRange(rows, f);
    var next, last := DisplayedRange(rows, g);
    forall i | 0 <= i < |rows|
      ensures (i < end <==> rows[i].date <= cut) && (i < next <==> rows[i].date <= cut)
    {
      assert i >= end ==> rows[i].date >= rows[end - 1].date;
      assert i < end ==> rows[i].date <= rows[end - 1].date;
      assert i >= next ==> rows[i].date >= rows[next].date;
      assert i < next ==> rows[i].date <= rows[next].date;
    }
    var k := if end < next then end else next;
    assert k < |rows| ==> (rows[k].date <= cut <==> k < end);
  }

  /** Number of rows dated before d: where day d starts in a sorted list. */
  function DayStart(rows: seq<Row>, d: Date): nat
    ensures DayStart(rows, d) <= |rows|
  {
    if rows == [] then 0
    else if rows[|rows| - 1].date < d then |rows|
    else DayStart(rows[..|rows| - 1], d)
  }

  lemma {:induction false} DayStartSplits(rows: seq<Row>, d: Date)
    requires DateSorted(rows)
    ensures forall i :: 0 <= i < |rows| ==> (rows[i].date < d <==> i < DayStart(rows, d))
  {
    if rows != [] && rows[|rows| - 1].date >= d {
      DayStartSplits(rows[..|rows| - 1], d);
    }
  }

  lemma {:induction false} DayStartMonotone(rows: seq<Row>, d: Date, e: Date)
    requires d <= e
    ensures DayStart(rows, d) <= DayStart(rows, e)
  {
    if rows != [] {
      DayStartMonotone(rows[..|rows| - 1], d, e);
    }
  }

  /** The balance at the start of a day; without a day, before the very first row. */
  function BalanceInto(rows: seq<Row>, day: Option<Date>): Option<Cents> {
    BalanceAfter(rows, if day.None? then 0 else DayStart(rows, day.value))
  }

  /** An empty window opens and closes at the balance before the account's first row, wherever
      it lies. That is the balance at the start of the window exactly when everything booked
      before the window cancels out. */
  lemma {:induction false} EmptyWindowShowsTheStart(rows: seq<Row>, lo: Date, hi: Option<Date>)
    requires DateSorted(rows) && Starting(rows).Some?
    requires Displayed(rows, Window(Some(lo), hi)) == []
    ensures Opening(rows, Window(Some(lo), hi)) == Closing(rows, Window(Some(lo), hi)) == BalanceAfter(rows, 0)
    ensures Opening(rows, Window(Some(lo), hi)) == BalanceInto(rows, Some(lo)) <==> Net(rows[..DayStart(rows, lo)]) == 0
  {
    assert rows[..0] == [];
  }

  /** A non-empty window and an empty one right after it meet exactly when everything booked
      up to the cut cancels out. */
  lemma {:induction false} EmptyWindowMeets(rows: seq<Row>, lo: Option<Date>, cut: Date, hi: Option<Date>)
    requires DateSorted(rows) && Starting(rows).Some?
    requires Displayed(rows, Window(lo, Some(cut))) != []
    requires Displayed(rows, Window(Some(cut + 1), hi)) == []
    ensures Closing(rows, Window(lo, Some(cut))) == Opening(rows, Window(Some(cut + 1), hi))
      <==> Net(rows[..DayStart(rows, cut + 1)]) == 0
  {
    ClosingUpTo(rows, lo, cut);
    EmptyWindowShowsTheStart(rows, cut + 1, hi);
  }

  /** A window that ends on day d and shows anything closes at the balance at the end of d. */
  lemma {:induction false} ClosingUpTo(rows: seq<Row>, lo: Option<Date>, d: Date)
    requires DateSorted(rows) && Displayed(rows, Window(lo, Some(d))) != []
    ensures Closing(rows, Window(lo, Some(d))) == BalanceInto(rows, Some(d + 1))
  {
    var first, end := DisplayedRange(rows, Window(lo, Some(d)));
    DayStartSplits(rows, d + 1);
    var n := DayStart(rows, d + 1);
    assert first < n && (first < n - 1 ==> rows[first].date <= rows[n - 1].date);
    assert Matches(rows[n - 1], Window(lo, Some(d)));
  }

  /** One credit of 1.00, known balance included, and a window after it: the report opens and
      closes at zero although the account holds 1.00. */
  lemma {:induction false} EmptyWindowIsOff()
    ensures var rows := [Row(0, 1, 100, In, Some(100), 0, {})];
      && Displayed(rows, Window(Some(2), None)) == []
      && Opening(rows, Window(Some(2), None)) == Closing(rows, Window(Some(2), None)) == Some(0)
      && BalanceInto(rows, Some(2)) == Some(100)
  {
    var r := Row(0, 1, 100, In, Some(100), 0, {});
    var rows := [r];
    assert rows[..0] == [] && rows[..1] == rows;
    SumOfOne(r, Delta);
    assert IsAnchor(rows, 0);
    StartingFromAnchor(rows, 0);
  }

  // ---- paging ----

  function FirstPages<T>(s: seq<T>, size: nat, n: nat): seq<T> {
    if n == 0 then [] else FirstPages(s, size, n - 1) + Slice(s, (n - 1) * size, size)
  }

  /** The first n pages, one after the other, are the first n * size displayed lines. */
  lemma {:induction false} PagesConcatenate<T>(s: seq<T>, size: nat, n: nat)
    requires size >= 1
    ensures FirstPages(s, size, n) == if n * size >= |s| then s else s[..n * size]
  {
    if n > 0 {
      PagesConcatenate(s, size, n - 1);
      assert n * size == (n - 1) * size + size;
    }
  }
}
