/** The two balance engines side by side: the book balance of accounts.py and the closing
    balance of reports.py, over the same transactions table. */
module Agreement {
  import opened Basics
  import opened Sums
  import opened Tables
  import B = BookBalance
  import S = Statement

  function RowOf(t: Stored, id: Id): S.Row {
    S.Row(id, t.date, t.amount, t.dir, t.balanceAfter, 0, {})
  }

  /** The account's rows in order of creation. Allocations play no part in balances. */
  function AccountRows(table: seq<Stored>, account: Id): seq<S.Row> {
    if table == [] then []
    else
      var n := |table| - 1;
      var front := AccountRows(table[..n], account);
      if table[n].account == account then front + [RowOf(table[n], n)] else front
  }

  /** rows is what the statement query may return: every row of the account once, by date;
      rows of one day in whatever order their creation times leave them. */
  ghost predicate IsFetched(rows: seq<S.Row>, table: seq<Stored>, account: Id) {
    S.DateSorted(rows) && multiset(rows) == multiset(AccountRows(table, account))
  }

  function InWindow(r: S.Row, since: Option<Date>, until: Date): int {
    if B.OnOrAfter(r.date, since) && r.date <= until then S.Delta(r) else 0
  }

  function WindowNet(rows: seq<S.Row>, since: Option<Date>, until: Date): int {
    SumOf(rows, (r: S.Row) => InWindow(r, since, until))
  }

  /** The account's rows of the window that are filed under a sub-ledger. */
  function FiledIn(account: Id, since: Option<Date>, until: Date): Stored -> int {
    (t: Stored) =>
      if t.account == account && t.subLedger.Some? && B.OnOrAfter(t.date, since) && t.date <= until
      then Tables.Delta(t) else 0
  }

  function FiledMovements(table: seq<Stored>, account: Id, since: Option<Date>, until: Date): int {
    SumOf(table, FiledIn(account, since, until))
  }

  lemma {:induction false} MovementsAreWindowNet(table: seq<Stored>, account: Id, since: Option<Date>, until: Date)
    ensures B.Movements(table, B.Direct(account), since, until) + FiledMovements(table, account, since, until)
      == WindowNet(AccountRows(table, account), since, until)
  {
    if table != [] {
      var n := |table| - 1;
      MovementsAreWindowNet(table[..n], account, since, until);
      SumOfMore(AccountRows(table[..n], account), RowOf(table[n], n), (r: S.Row) => InWindow(r, since, until));
    }
  }

  lemma {:induction false} FetchedMovements(rows: seq<S.Row>, table: seq<Stored>, account: Id, since: Option<Date>,
                                            until: Date)
    requires IsFetched(rows, table, account)
    ensures B.Movements(table, B.Direct(account), since, until) + FiledMovements(table, account, since, until)
      == WindowNet(rows, since, until)
  {
    MovementsAreWindowNet(table, account, since, until);
    SumOfMultiset(rows, AccountRows(table, account), (r: S.Row) => InWindow(r, since, until));
  }

  lemma {:induction false} WindowNetIsSlice(rows: seq<S.Row>, since: Option<Date>, until: Date, lo: nat, hi: nat)
    requires lo <= hi <= |rows|
    requires forall i :: 0 <= i < |rows| ==>
      (B.OnOrAfter(rows[i].date, since) && rows[i].date <= until <==> lo <= i < hi)
    ensures WindowNet(rows, since, until) == S.Net(rows[..hi]) - S.Net(rows[..lo])
  {
    if rows == [] {
    } else {
      var n := |rows| - 1;
      var front := rows[..n];
      assert rows[..|rows|] == rows;
      if hi == |rows| && lo < hi {
        WindowNetIsSlice(front, since, until, lo, n);
        SumOfStep(rows, n, S.Delta);
        assert front[..lo] == rows[..lo] && front[..n] == rows[..n];
      } else if hi < |rows| {
        WindowNetIsSlice(front, since, until, lo, hi);
        assert front[..lo] == rows[..lo] && front[..hi] == rows[..hi];
      } else {
        WindowNetIsSlice(front, since, until, n, n);
      }
    }
  }

  /** Filtering only by an end date closes at the balance at the end of that day. */
  lemma {:induction false} ClosingUpTo(rows: seq<S.Row>, d: Date)
    requires S.DateSorted(rows)
    ensures S.Closing(rows, S.Window(None, Some(d))) == S.BalanceInto(rows, Some(d + 1))
  {
    S.DayStartSplits(rows, d + 1);
    S.DisplayedExactly(rows, S.Window(None, Some(d)));
    if S.Displayed(rows, S.Window(None, Some(d))) != [] {
      S.ClosingUpTo(rows, None, d);
    } else {
      assert S.DayStart(rows, d + 1) > 0 ==> S.Matches(rows[0], S.Window(None, Some(d)));
      assert rows[..0] == [];
    }
  }

  /** Neither engine needs the other's anchor: on every day they are apart by what the newest
      opening balance misses of the statement's balance at the start of that opening's day,
      and by the rows filed under sub-ledgers, which only the statement counts. */
  lemma {:induction false} DirectGap(table: seq<Stored>, account: Id, rows: seq<S.Row>, anchors: seq<Anchor>,
                                     asOf: Date)
    requires IsFetched(rows, table, account) && S.Starting(rows).Some?
    ensures var since := B.Since(B.Newest(anchors, asOf));
      var closing := S.Closing(rows, S.Window(None, Some(asOf)));
      && closing.Some? && S.BalanceInto(rows, since).Some?
      && B.ScopeBalance(table, B.Direct(account), anchors, asOf) - closing.value
         == B.BroughtForward(B.Newest(anchors, asOf)) - S.BalanceInto(rows, since).value
            - FiledMovements(table, account, since, asOf)
  {
    var a := B.Newest(anchors, asOf);
    B.NewestApplies(anchors, asOf);
    FetchedMovements(rows, table, account, B.Since(a), asOf);
    var lo, hi := if a.None? then 0 else S.DayStart(rows, a.value.date), S.DayStart(rows, asOf + 1);
    S.DayStartSplits(rows, asOf + 1);
    if a.Some? {
      S.DayStartSplits(rows, a.value.date);
      S.DayStartMonotone(rows, a.value.date, asOf + 1);
    }
    WindowNetIsSlice(rows, B.Since(a), asOf, lo, hi);
    ClosingUpTo(rows, asOf);
  }

  /** The account has no sub-ledgers, and none of its rows is filed under one. */
  ghost predicate Unsplit(table: seq<Stored>, subs: seq<SubLedger>, account: Id) {
    && (forall s :: s in subs ==> s.account != account)
    && (forall i :: 0 <= i < |table| && table[i].account == account ==> table[i].subLedger.None?)
  }

  lemma {:induction false} UnsplitFilesNothing(table: seq<Stored>, subs: seq<SubLedger>, account: Id,
                                               since: Option<Date>, until: Date)
    requires Unsplit(table, subs, account)
    ensures FiledMovements(table, account, since, until) == 0
  {
    forall t | t in table
      ensures FiledIn(account, since, until)(t) == 0
    {
      var i :| 0 <= i < |table| && table[i] == t;
    }
    SumOfZero(table, FiledIn(account, since, until));
  }

  /** Without sub-ledgers: how far apart the book balance and the statement are, for every
      history, every anchor and every day; so they agree exactly when the newest opening
      balance is the statement's own balance at the start of its day. */
  lemma {:induction false} Discrepancy(table: seq<Stored>, subs: seq<SubLedger>, account: Id, rows: seq<S.Row>,
                                       anchors: seq<Anchor>, subAnchors: Id -> seq<Anchor>, asOf: Date)
    requires IsFetched(rows, table, account) && S.Starting(rows).Some? && Unsplit(table, subs, account)
    ensures var a := B.Newest(anchors, asOf);
      var closing := S.Closing(rows, S.Window(None, Some(asOf)));
      var book := B.Balance(table, subs, account, anchors, subAnchors, asOf);
      && closing.Some? && S.BalanceInto(rows, B.Since(a)).Some?
      && book - closing.value == B.BroughtForward(a) - S.BalanceInto(rows, B.Since(a)).value
      && (closing == Some(book) <==> S.BalanceInto(rows, B.Since(a)) == Some(B.BroughtForward(a)))
  {
    DirectGap(table, account, rows, anchors, asOf);
    UnsplitFilesNothing(table, subs, account, B.Since(B.Newest(anchors, asOf)), asOf);
    B.NoSubLedgers(table, subs, account, anchors, subAnchors, asOf);
  }

  /** From the start of any day the statement moves as the account does. */
  lemma {:induction false} ClosingFromDay(table: seq<Stored>, subs: seq<SubLedger>, account: Id, rows: seq<S.Row>,
                                          d: Date, asOf: Date)
    requires IsFetched(rows, table, account) && Unsplit(table, subs, account)
    requires S.BalanceInto(rows, Some(d)).Some? && d <= asOf + 1
    ensures S.Closing(rows, S.Window(None, Some(asOf)))
      == Some(S.BalanceInto(rows, Some(d)).value + B.Movements(table, B.Direct(account), Some(d), asOf))
  {
    UnsplitFilesNothing(table, subs, account, Some(d), asOf);
    FetchedMovements(rows, table, account, Some(d), asOf);
    S.DayStartSplits(rows, d);
    S.DayStartSplits(rows, asOf + 1);
    S.DayStartMonotone(rows, d, asOf + 1);
    WindowNetIsSlice(rows, Some(d), asOf, S.DayStart(rows, d), S.DayStart(rows, asOf + 1));
    ClosingUpTo(rows, asOf);
  }

  // ---- accounts with sub-ledgers ----

  /** The weight w(sub) of an account's sub-ledgers, added or subtracted as marked. */
  function Marked(account: Id, w: Id -> int): SubLedger -> int {
    (s: SubLedger) => if s.account != account then 0 else if s.treatment.Addition? then w(s.id) else -w(s.id)
  }

  function BaseOf(table: seq<Stored>, subAnchors: Id -> seq<Anchor>, asOf: Date): Id -> int {
    (sub: Id) => B.Base(table, B.Sub(sub), subAnchors(sub), asOf)
  }

  function MovedOn(table: seq<Stored>, asOf: Date): Id -> int {
    (sub: Id) => B.Movements(table, B.Sub(sub), None, asOf)
  }

  /** All that moved on the account's sub-ledgers, whatever their mark; and on those subtracted. */
  function Plain(account: Id, w: Id -> int): SubLedger -> int {
    (s: SubLedger) => if s.account != account then 0 else w(s.id)
  }

  function Subtracted(account: Id, w: Id -> int): SubLedger -> int {
    (s: SubLedger) => if s.account != account || s.treatment.Addition? then 0 else w(s.id)
  }

  /** Every filed row of the account is under one of its sub-ledgers, and the other way round. */
  ghost predicate WellFiled(table: seq<Stored>, subs: seq<SubLedger>, account: Id) {
    && (forall i, j :: 0 <= i < j < |subs| ==> subs[i].id != subs[j].id)
    && (forall r :: 0 <= r < |table| && table[r].subLedger.Some? ==>
         (table[r].account == account
          <==> exists s :: s in subs && s.account == account && s.id == table[r].subLedger.value))
  }

  lemma {:induction false} MovedOnMore(table: seq<Stored>, t: Stored, asOf: Date, sub: Id)
    ensures MovedOn(table + [t], asOf)(sub)
      == MovedOn(table, asOf)(sub) + if t.subLedger == Some(sub) && t.date <= asOf then Tables.Delta(t) else 0
  {
    assert (table + [t])[..|table|] == table;
  }

  lemma {:induction false} FiledIsOnSubLedgers(table: seq<Stored>, subs: seq<SubLedger>, account: Id, asOf: Date)
    requires WellFiled(table, subs, account)
    ensures FiledMovements(table, account, None, asOf) == SumOf(subs, Plain(account, MovedOn(table, asOf)))
  {
    if table == [] {
      SumOfZero(subs, Plain(account, MovedOn(table, asOf)));
    } else {
      var n := |table| - 1;
      var front, t := table[..n], table[n];
      assert front + [t] == table;
      FiledIsOnSubLedgers(front, subs, account, asOf);
      var f, g := Plain(account, MovedOn(front, asOf)), Plain(account, MovedOn(table, asOf));
      forall s | s in subs
        ensures g(s) == f(s)
          + if s.account == account && t.subLedger == Some(s.id) && t.date <= asOf then Tables.Delta(t) else 0
      {
        MovedOnMore(front, t, asOf, s.id);
      }
      if t.subLedger.Some? && t.account == account {
        var s :| s in subs && s.account == account && s.id == t.subLedger.value;
        var i :| 0 <= i < |subs| && subs[i] == s;
        SumOfBump(subs, f, g, i);
      } else {
        SumOfCongruent(subs, f, g);
      }
    }
  }

  lemma {:induction false} SharesFromBases(table: seq<Stored>, subs: seq<SubLedger>, account: Id,
                                           subAnchors: Id -> seq<Anchor>, asOf: Date)
    ensures SumOf(subs, B.Share(table, account, subAnchors, asOf))
      == SumOf(subs, Marked(account, BaseOf(table, subAnchors, asOf)))
         + SumOf(subs, Plain(account, MovedOn(table, asOf)))
         - 2 * SumOf(subs, Subtracted(account, MovedOn(table, asOf)))
  {
    if subs != [] {
      var last := subs[|subs| - 1];
      SharesFromBases(table, subs[..|subs| - 1], account, subAnchors, asOf);
      B.BalanceFromBase(table, B.Sub(last.id), subAnchors(last.id), asOf);
    }
  }

  /** With any sub-ledger the book balance is the sub-ledgers' alone, and the statement lists
      the account's rows whatever they are filed under. The two agree exactly when what the
      sub-ledgers' openings say was there before anything stored, signed as marked, is what
      the statement starts from, plus all that moved on the account directly, plus twice all
      that moved on sub-ledgers that are subtracted. */
  lemma {:induction false} SubLedgersDecide(table: seq<Stored>, subs: seq<SubLedger>, account: Id, rows: seq<S.Row>,
                                            anchors: seq<Anchor>, subAnchors: Id -> seq<Anchor>, asOf: Date)
    requires IsFetched(rows, table, account) && S.Starting(rows).Some? && WellFiled(table, subs, account)
    requires exists s :: s in subs && s.account == account
    ensures var closing := S.Closing(rows, S.Window(None, Some(asOf)));
      var book := B.Balance(table, subs, account, anchors, subAnchors, asOf);
      && closing.Some?
      && book - closing.value
         == SumOf(subs, Marked(account, BaseOf(table, subAnchors, asOf)))
            - S.Starting(rows).value - B.Movements(table, B.Direct(account), None, asOf)
            - 2 * SumOf(subs, Subtracted(account, MovedOn(table, asOf)))
  {
    DirectGap(table, account, rows, [], asOf);
    assert rows[..0] == [];
    FiledIsOnSubLedgers(table, subs, account, asOf);
    SharesFromBases(table, subs, account, subAnchors, asOf);
    B.SubLedgersAddUp(table, subs, account, anchors, subAnchors, asOf);
  }

  // ---- where the anchor is an import's first row ----

  /** The anchor's import began with row j: it states that row's balance less its movement. */
  ghost predicate TakenFrom(a: Anchor, rows: seq<S.Row>, j: nat) {
    && j < |rows|
    && rows[j].date == a.date
    && rows[j].balanceAfter.Some?
    && a.opening == rows[j].balanceAfter.value - S.Delta(rows[j])
  }

  /** Movements of row j's own day that the statement lists before row j. */
  function EarlierThatDay(rows: seq<S.Row>, j: nat): int
    requires j < |rows|
  {
    S.Net(rows[..j]) - S.Net(rows[..S.DayStart(rows, rows[j].date)])
  }

  lemma {:induction false} GapAtRow(rows: seq<S.Row>, a: Anchor, j: nat)
    requires S.DateSorted(rows) && S.Starting(rows).Some? && TakenFrom(a, rows, j)
    ensures S.BalanceAfter(rows, j + 1).Some? && S.BalanceInto(rows, Some(a.date)).Some?
    ensures a.opening - S.BalanceInto(rows, Some(a.date)).value
      == rows[j].balanceAfter.value - S.BalanceAfter(rows, j + 1).value + EarlierThatDay(rows, j)
    ensures (forall i :: 0 <= i < j ==> rows[i].date < rows[j].date) ==> EarlierThatDay(rows, j) == 0
  {
    SumOfStep(rows, j, S.Delta);
    S.DayStartSplits(rows, rows[j].date);
    if forall i :: 0 <= i < j ==> rows[i].date < rows[j].date {
      assert S.DayStart(rows, rows[j].date) == j;
    }
  }

  /** Where the earliest known balance is the import's own first row, as with the first
      statement ever imported, manual rows may lie anywhere: the engines agree exactly when
      the rows listed before it on its own day cancel out, in particular when there are none. */
  lemma {:induction false} FirstImportAgrees(table: seq<Stored>, subs: seq<SubLedger>, account: Id, rows: seq<S.Row>,
                                             anchors: seq<Anchor>, subAnchors: Id -> seq<Anchor>, asOf: Date, j: nat)
    requires IsFetched(rows, table, account) && Unsplit(table, subs, account)
    requires var a := B.Newest(anchors, asOf); a.Some? && TakenFrom(a.value, rows, j)
    requires S.IsAnchor(rows, j)
    ensures S.Closing(rows, S.Window(None, Some(asOf)))
            == Some(B.Balance(table, subs, account, anchors, subAnchors, asOf))
            <==> EarlierThatDay(rows, j) == 0
    ensures (forall i :: 0 <= i < j ==> rows[i].date < rows[j].date) ==> EarlierThatDay(rows, j) == 0
  {
    S.AnchorIsHit(rows, j);
    GapAtRow(rows, B.Newest(anchors, asOf).value, j);
    Discrepancy(table, subs, account, rows, anchors, subAnchors, asOf);
  }

  /** With several imports: the engines agree exactly when the newest import's first balance
      continues the oldest known one, but for the rows listed before it on its day. */
  lemma {:induction false} LaterImportAgrees(table: seq<Stored>, subs: seq<SubLedger>, account: Id, rows: seq<S.Row>,
                                             anchors: seq<Anchor>, subAnchors: Id -> seq<Anchor>, asOf: Date, k: nat,
                                             j: nat)
    requires IsFetched(rows, table, account) && Unsplit(table, subs, account)
    requires var a := B.Newest(anchors, asOf); a.Some? && TakenFrom(a.value, rows, j)
    requires S.IsAnchor(rows, k) && k <= j
    ensures S.Closing(rows, S.Window(None, Some(asOf)))
      == Some(B.Balance(table, subs, account, anchors, subAnchors, asOf))
      <==> rows[j].balanceAfter.value - rows[k].balanceAfter.value
           == S.Net(rows[k + 1..j + 1]) - EarlierThatDay(rows, j)
  {
    S.AnchorIsHit(rows, k);
    SumOfSplit(rows[..j + 1], k + 1, S.Delta);
    assert rows[..j + 1][..k + 1] == rows[..k + 1];
    assert rows[..j + 1][k + 1..] == rows[k + 1..j + 1];
    GapAtRow(rows, B.Newest(anchors, asOf).value, j);
    Discrepancy(table, subs, account, rows, anchors, subAnchors, asOf);
  }

  lemma {:induction false} TwoRowsFetched(first: Stored, second: Stored)
    requires first.account == second.account && first.date == second.date
    ensures IsFetched([RowOf(first, 0), RowOf(second, 1)], [first, second], first.account)
  {
    assert [first, second][..1] == [first] && [first][..0] == [];
    assert AccountRows([first], first.account) == [RowOf(first, 0)];
    assert AccountRows([first, second], first.account) == [RowOf(first, 0), RowOf(second, 1)];
  }

  /** A manual row entered for the import's first day, before the import: the book balance
      counts it and the statement's closing balance does not. */
  lemma {:induction false} SameDayManualRowSplitsThem(manual: Stored, imported: Stored, subAnchors: Id -> seq<Anchor>,
                                                      asOf: Date)
    requires manual.account == imported.account && manual.subLedger == imported.subLedger == None
    requires manual.date == imported.date <= asOf
    requires manual.balanceAfter.None? && imported.balanceAfter.Some?
    ensures var rows := [RowOf(manual, 0), RowOf(imported, 1)];
      var anchor := Anchor(imported.balanceAfter.value - Tables.Delta(imported), imported.date);
      var closing := S.Closing(rows, S.Window(None, Some(asOf)));
      && IsFetched(rows, [manual, imported], manual.account)
      && closing.Some?
      && B.Balance([manual, imported], [], manual.account, [anchor], subAnchors, asOf)
         == closing.value + Tables.Delta(manual)
  {
    var rows := [RowOf(manual, 0), RowOf(imported, 1)];
    var anchor := Anchor(imported.balanceAfter.value - Tables.Delta(imported), imported.date);
    TwoRowsFetched(manual, imported);
    assert [anchor][..0] == [];
    assert B.Newest([anchor], asOf) == Some(anchor);
    assert S.IsAnchor(rows, 1);
    S.AnchorIsHit(rows, 1);
    OneEarlierRow(rows);
    GapAtRow(rows, anchor, 1);
    Discrepancy([manual, imported], [], manual.account, rows, [anchor], subAnchors, asOf);
  }

  lemma {:induction false} OneEarlierRow(rows: seq<S.Row>)
    requires |rows| == 2 && rows[0].date == rows[1].date
    ensures EarlierThatDay(rows, 1) == S.Delta(rows[0])
  {
    S.DayStartSplits(rows, rows[1].date);
    SumOfStep(rows, 0, S.Delta);
    assert rows[..0] == [];
  }
}
