/** From the printed statement to the two balances on screen: parser, import worker, book
    balance and statement report together. */
module EndToEnd {
  import opened Basics
  import opened Sums
  import opened Tables
  import P = ParserBase
  import D = BalanceDeltas
  import B = BookBalance
  import S = Statement
  import A = Agreement
  import opened ImportWorker
  import opened ImportRuns

  /** A bank statement that prints only balances, whatever they are, imported into a fresh
      account. On any later day the account shows the last balance printed if and only if: it
      has no sub-ledgers, and the rows dated before the first or after that day and the rows
      skipped for sharing a key cancel out; or it has some, and they happened to come to that
      figure before. */
  lemma {:induction false} LastPrintedBalanceIsShown(s: Store, subs: seq<SubLedger>, id: Id, rows: seq<D.BalanceRow>,
                                                     opening: Cents, fp: D.Fingerprint, asOf: Date)
    requires FreshAccount(s, id) && rows != [] && rows[0].date <= asOf
    ensures var account := s.imports[id].account;
      var txns := D.FromBalances(rows, opening, "KES", fp);
      Shown(Process(s, subs, id, Flat(P.Ok(txns))), subs, account, asOf) == rows[|rows| - 1].balance
      <==> if Undivided(subs, account)
           then Outside(txns, rows[0].date, asOf)
                + SumOf(Skipped(s.table, account, txns), Within(Some(rows[0].date), asOf)) == 0
           else Shown(s, subs, account, asOf) == rows[|rows| - 1].balance
  {
    var txns := D.FromBalances(rows, opening, "KES", fp);
    if Undivided(subs, s.imports[id].account) {
      D.RebuiltChainsExactly(rows, opening, "KES", fp);
      D.RebuiltRows(rows, opening, "KES", fp);
      FreshChainShowsClosing(s, subs, id, txns, asOf);
    } else {
      SubLedgersHideFlatImports(s, subs, id, txns, asOf);
    }
  }

  /** NCBA's dedupe key is made of the description and the amount alone. */
  function ByTextAndAmount(hash: (string, Cents) -> string): D.Fingerprint {
    (r: D.BalanceRow, amount: Cents) => hash(r.description, amount)
  }

  /** Two equal charges in one statement, whatever the hash: they share a key, the second is
      taken for a duplicate, and the account shows 0.50 where the statement ends at 1.00. */
  lemma {:induction false} TwoEqualChargesAreOff(hash: (string, Cents) -> string)
    ensures var s := Store([], [Import(5, Queued, None, None, None, None)], []);
      var rows := [D.BalanceRow(1, "", "FEE", 50), D.BalanceRow(1, "", "FEE", 100)];
      var txns := D.FromBalances(rows, 0, "KES", ByTextAndAmount(hash));
      Shown(Process(s, [], 0, Flat(P.Ok(txns))), [], 5, 1) == 50
  {
    var s := Store([], [Import(5, Queued, None, None, None, None)], []);
    var rows := [D.BalanceRow(1, "", "FEE", 50), D.BalanceRow(1, "", "FEE", 100)];
    var txns := D.FromBalances(rows, 0, "KES", ByTextAndAmount(hash));
    FreshImportShows(s, [], 0, txns, 1);
    assert txns == [txns[0], txns[1]];
    EqualKeysGainOnce(txns[0], txns[1], Some(1), 1);
  }

  lemma {:induction false} EqualKeysGainOnce(a: Parsed, b: Parsed, since: Option<Date>, until: Date)
    requires a.key == b.key
    ensures Gained([], 5, [a, b], since, until) == Within(since, until)(a)
  {
    var w := Within(since, until);
    SecondIsSkipped(a, b);
    SumOfOne(a, w);
    SumOfOne(b, w);
    SumOfMore([a], b, w);
    assert [a] + [b] == [a, b];
  }

  lemma {:induction false} SecondIsSkipped(a: Parsed, b: Parsed)
    requires a.key == b.key
    ensures Skipped([], 5, [a, b]) == [b]
  {
    assert [a, b][..1] == [a] && [a][..0] == [];
    assert [a][0].key == b.key;
    assert Skipped([], 5, [a]) == [];
    assert [] + [b] == [b];
  }

  // ---- both engines after an import and any manual entries ----

  lemma {:induction false} FirstRowLands(table: seq<Stored>, account: Id, id: Id, sub: Option<Id>, txns: seq<Parsed>)
    requires txns != [] && !HasKey(table, account, txns[0].key)
    ensures var after := InsertAll(table, account, id, sub, txns);
      |after| > |table| && after[|table|] == StoredOf(account, id, sub, txns[0])
  {
    var n := |txns| - 1;
    if n == 0 {
      assert txns[..0] == [];
    } else {
      FirstRowLands(table, account, id, sub, txns[..n]);
    }
  }

  lemma {:induction false} AccountRowsExactly(table: seq<Stored>, account: Id, r: S.Row)
    ensures r in A.AccountRows(table, account)
      <==> r.id < |table| && table[r.id].account == account && r == A.RowOf(table[r.id], r.id)
  {
    if table != [] {
      AccountRowsExactly(table[..|table| - 1], account, r);
    }
  }

  /** A row typed in by hand: no import, no key, no balance. */
  predicate ByHand(t: Stored) {
    t.importId.None? && t.key.None? && t.balanceAfter.None? && t.subLedger.None?
  }

  /** The store with some rows typed in. */
  function WithTyped(s: Store, manual: seq<Stored>): Store {
    s.(table := s.table + manual)
  }

  lemma {:induction false} ImportedRowsAreUnsplit(before: seq<Stored>, subs: seq<SubLedger>, account: Id, id: Id,
                                                  txns: seq<Parsed>, manual: seq<Stored>)
    requires forall i :: 0 <= i < |before| ==> before[i].account != account
    requires (forall t :: t in manual ==> ByHand(t)) && Undivided(subs, account)
    ensures A.Unsplit(InsertAll(before, account, id, None, txns) + manual, subs, account)
  {
    var imported := InsertAll(before, account, id, None, txns);
    var table := imported + manual;
    InsertIsUnion(before, account, id, None, txns);
    assert forall i :: 0 <= i < |before| ==> imported[i] == before[i];
    forall i | 0 <= i < |table| && table[i].account == account
      ensures table[i].subLedger.None?
    {
      if i < |imported| {
        FirstWriterIsKept(before, account, id, None, txns, i);
      } else {
        assert table[i] in manual;
      }
    }
  }

  /** Once imported, a first row with a balance is listed, so the statement has an anchor. */
  lemma {:induction false} ImportStartsTheStatement(s: Store, id: Id, txns: seq<Parsed>, manual: seq<Stored>,
                                                    rows: seq<S.Row>)
    requires FreshAccount(s, id) && txns != [] && txns[0].balanceAfter.Some?
    requires A.IsFetched(rows, WriteSingle(s, id, txns).table + manual, s.imports[id].account)
    ensures S.Starting(rows).Some?
  {
    var account := s.imports[id].account;
    var table := WriteSingle(s, id, txns).table + manual;
    assert !HasKey(s.table, account, txns[0].key);
    FirstRowLands(s.table, account, id, None, txns);
    var first := A.RowOf(table[|s.table|], |s.table|);
    AccountRowsExactly(table, account, first);
    assert first in multiset(rows);
    S.AnchorFromIsFirst(rows, 0);
  }

  /** Import any statement whose first row has a balance into a fresh account without
      sub-ledgers, then type in any rows by hand, dated before, between or after the imported
      ones. The account's balance and the statement's closing balance agree on a later day if
      and only if the statement's own balance at the start of the import's first day is the
      opening recovered from its first row. */
  lemma {:induction false} EnginesAgreeAfterImport(s: Store, subs: seq<SubLedger>, id: Id, txns: seq<Parsed>,
                                                   manual: seq<Stored>, rows: seq<S.Row>, asOf: Date)
    requires FreshAccount(s, id) && Undivided(subs, s.imports[id].account)
    requires txns != [] && txns[0].balanceAfter.Some? && txns[0].date <= asOf
    requires forall t :: t in manual ==> ByHand(t)
    requires A.IsFetched(rows, WriteSingle(s, id, txns).table + manual, s.imports[id].account)
    ensures var after := Process(s, subs, id, Flat(P.Ok(txns)));
      S.Closing(rows, S.Window(None, Some(asOf)))
      == Some(Shown(WithTyped(after, manual), subs, s.imports[id].account, asOf))
      <==> S.BalanceInto(rows, Some(txns[0].date)) == Some(P.DeriveOpeningBalance(txns).value.0)
  {
    var account := s.imports[id].account;
    var after := WithTyped(WriteSingle(s, id, txns), manual);
    FreshAnchorApplies(s, id, txns, asOf);
    ImportStartsTheStatement(s, id, txns, manual, rows);
    ImportedRowsAreUnsplit(s.table, subs, account, id, txns, manual);
    A.Discrepancy(after.table, subs, account, rows, Anchors(after.imports, account),
                  AnchorsOfSubs(after.selections), asOf);
  }

  /** In particular when the import's first row is the first known balance of the list and
      nothing typed in stands before it on its own day, whether the file chains or not. */
  lemma {:induction false} EnginesAgreeFromTheFirstRow(s: Store, subs: seq<SubLedger>, id: Id, txns: seq<Parsed>,
                                                       manual: seq<Stored>, rows: seq<S.Row>, j: nat, asOf: Date)
    requires FreshAccount(s, id) && Undivided(subs, s.imports[id].account)
    requires txns != [] && txns[0].balanceAfter.Some? && txns[0].date <= asOf
    requires forall t :: t in manual ==> ByHand(t)
    requires A.IsFetched(rows, WriteSingle(s, id, txns).table + manual, s.imports[id].account)
    requires j < |rows| && rows[j].id == |s.table| && forall i :: 0 <= i < j ==> rows[i].balanceAfter.None?
    ensures var after := Process(s, subs, id, Flat(P.Ok(txns)));
      S.Closing(rows, S.Window(None, Some(asOf)))
      == Some(Shown(WithTyped(after, manual), subs, s.imports[id].account, asOf))
      <==> A.EarlierThatDay(rows, j) == 0
    ensures (forall i :: 0 <= i < j ==> rows[i].date < rows[j].date) ==> A.EarlierThatDay(rows, j) == 0
  {
    var account := s.imports[id].account;
    var a := Anchor(P.DeriveOpeningBalance(txns).value.0, txns[0].date);
    FirstRowOfImport(s, id, txns, manual, rows, j);
    S.AnchorIsHit(rows, j);
    A.GapAtRow(rows, a, j);
    EnginesAgreeAfterImport(s, subs, id, txns, manual, rows, asOf);
  }

  lemma {:induction false} FirstRowOfImport(s: Store, id: Id, txns: seq<Parsed>, manual: seq<Stored>,
                                            rows: seq<S.Row>, j: nat)
    requires FreshAccount(s, id) && txns != [] && txns[0].balanceAfter.Some?
    requires A.IsFetched(rows, WriteSingle(s, id, txns).table + manual, s.imports[id].account)
    requires j < |rows| && rows[j].id == |s.table|
    ensures A.TakenFrom(Anchor(P.DeriveOpeningBalance(txns).value.0, txns[0].date), rows, j)
  {
    var account := s.imports[id].account;
    var table := WriteSingle(s, id, txns).table + manual;
    assert !HasKey(s.table, account, txns[0].key);
    FirstRowLands(s.table, account, id, None, txns);
    assert rows[j] in multiset(rows);
    AccountRowsExactly(table, account, rows[j]);
    assert rows[j] == A.RowOf(StoredOf(account, id, None, txns[0]), |s.table|);
  }

  // ---- whole histories ----

  /** What happens to the tables: a job, clean, refused or interrupted, or a row typed in. */
  datatype Event = Worked(job: Job) | Typed(row: Stored)

  function History(s: Store, subs: seq<SubLedger>, events: seq<Event>): Store {
    if events == [] then s
    else
      var before := History(s, subs, events[..|events| - 1]);
      match events[|events| - 1]
      case Worked(job) => Work(before, subs, job)
      case Typed(row) => WithTyped(before, [row])
  }

  /** What the bank says the account held at the end of each day. */
  type BankRecord = Date -> Cents

  /** The file's recovered opening is the bank's figure for the day before: it begins with the
      first booking of a day. */
  ghost predicate TrueToBank(txns: seq<Parsed>, bank: BankRecord) {
    var d := P.DeriveOpeningBalance(txns);
    d.Some? ==> d.value.0 == bank(d.value.1 - 1)
  }

  ghost predicate FilesAreTrue(s: Store, events: seq<Event>, account: Id, bank: BankRecord) {
    forall e :: e in events && e.Worked? && e.job.id < |s.imports| && s.imports[e.job.id].account == account
                && e.job.parse.Flat? && e.job.parse.rows.Ok? ==>
      TrueToBank(e.job.parse.rows.value, bank)
  }

  ghost predicate OpeningsAreTrue(s: Store, account: Id, bank: BankRecord) {
    forall i :: 0 <= i < |s.imports| && s.imports[i].account == account && s.imports[i].opening.Some? ==>
      s.imports[i].opening.value.0 == bank(s.imports[i].opening.value.1 - 1)
  }

  lemma {:induction false} JobKeepsOpeningsTrue(s: Store, subs: seq<SubLedger>, j: Job, account: Id, bank: BankRecord)
    requires OpeningsAreTrue(s, account, bank)
    requires (j.id < |s.imports| && s.imports[j.id].account == account && j.parse.Flat? && j.parse.rows.Ok?) ==>
               TrueToBank(j.parse.rows.value, bank)
    ensures OpeningsAreTrue(Work(s, subs, j), account, bank)
  {
    JobKeepsFrame(s, subs, j);
  }

  /** Events never change which account an import belongs to. */
  lemma {:induction false} HistoryKeepsFrame(s: Store, subs: seq<SubLedger>, events: seq<Event>)
    ensures SameFrame(s, History(s, subs, events))
  {
    if events != [] {
      var front, last := events[..|events| - 1], events[|events| - 1];
      HistoryKeepsFrame(s, subs, front);
      if last.Worked? {
        JobKeepsFrame(History(s, subs, front), subs, last.job);
      }
    }
  }

  lemma {:induction false} HistoryKeepsOpeningsTrue(s: Store, subs: seq<SubLedger>, events: seq<Event>, account: Id,
                                                    bank: BankRecord)
    requires OpeningsAreTrue(s, account, bank) && FilesAreTrue(s, events, account, bank)
    ensures OpeningsAreTrue(History(s, subs, events), account, bank)
  {
    if events != [] {
      var front, last := events[..|events| - 1], events[|events| - 1];
      assert last in events;
      HistoryKeepsOpeningsTrue(s, subs, front, account, bank);
      HistoryKeepsFrame(s, subs, front);
      if last.Worked? {
        JobKeepsOpeningsTrue(History(s, subs, front), subs, last.job, account, bank);
      }
    }
  }

  lemma {:induction false} AnchorsAreTrue(imports: seq<Import>, account: Id, bank: BankRecord)
    requires forall i :: 0 <= i < |imports| && imports[i].account == account && imports[i].opening.Some? ==>
               imports[i].opening.value.0 == bank(imports[i].opening.value.1 - 1)
    ensures forall a :: a in Anchors(imports, account) ==> a.opening == bank(a.date - 1)
  {
    if imports != [] {
      AnchorsAreTrue(imports[..|imports| - 1], account, bank);
    }
  }

  /** What the statement lists from the start of one day to the start of another. */
  function Between(rows: seq<S.Row>, lo: Date, hi: Date): int {
    S.Net(rows[..S.DayStart(rows, hi)]) - S.Net(rows[..S.DayStart(rows, lo)])
  }

  /** The day of the earliest known balance, where that row opens the bank's day, is a day on
      which the statement starts with the bank's figure, unless rows listed before it on the
      day weigh in. */
  lemma {:induction false} StatementStartsTrue(rows: seq<S.Row>, j: nat, bank: BankRecord)
    requires S.DateSorted(rows) && S.IsAnchor(rows, j)
    requires rows[j].balanceAfter.value - S.Delta(rows[j]) == bank(rows[j].date - 1)
    ensures S.BalanceInto(rows, Some(rows[j].date)) == Some(bank(rows[j].date - 1))
      <==> A.EarlierThatDay(rows, j) == 0
  {
    S.AnchorIsHit(rows, j);
    A.GapAtRow(rows, Anchor(bank(rows[j].date - 1), rows[j].date), j);
  }

  /** Any history of overlapping, repeated, refused and interrupted imports and of rows typed
      in, every file beginning with the first booking of a day. Let day d be one on which the
      statement starts with the bank's figure, as on the day of the first statement imported.
      Whatever the newest opening in force, on its day e: the account's balance and the
      statement's closing balance agree if and only if the rows on record from d up to e,
      imported or typed in, come to what the bank booked in that time. */
  lemma {:induction false} EnginesAgreeOverHistory(s: Store, subs: seq<SubLedger>, events: seq<Event>, account: Id,
                                                   bank: BankRecord, rows: seq<S.Row>, d: Date, asOf: Date)
    requires OpeningsAreTrue(s, account, bank) && FilesAreTrue(s, events, account, bank)
    requires var after := History(s, subs, events);
      && A.IsFetched(rows, after.table, account) && A.Unsplit(after.table, subs, account)
      && B.Newest(Anchors(after.imports, account), asOf).Some?
    requires S.BalanceInto(rows, Some(d)) == Some(bank(d - 1))
    ensures var after := History(s, subs, events);
      var e := B.Newest(Anchors(after.imports, account), asOf).value.date;
      S.Closing(rows, S.Window(None, Some(asOf))) == Some(Shown(after, subs, account, asOf))
      <==> Between(rows, d, e) == bank(e - 1) - bank(d - 1)
  {
    var after := History(s, subs, events);
    var anchors := Anchors(after.imports, account);
    HistoryKeepsOpeningsTrue(s, subs, events, account, bank);
    AnchorsAreTrue(after.imports, account, bank);
    B.NewestApplies(anchors, asOf);
    A.Discrepancy(after.table, subs, account, rows, anchors, AnchorsOfSubs(after.selections), asOf);
  }

  // ---- no stored balance is ever read ----

  /** A row typed in moves what the account shows by its signed amount on every day from its
      own on, if an opening in force does not come after it; yet it stores no balance, so the
      newest stored balance stays what it was. */
  lemma {:induction false} TypedRowMovesTheBalance(s: Store, subs: seq<SubLedger>, row: Stored, asOf: Date)
    requires ByHand(row) && Undivided(subs, row.account)
    ensures var since := B.Since(B.Newest(Anchors(s.imports, row.account), asOf));
      Shown(WithTyped(s, [row]), subs, row.account, asOf)
      == Shown(s, subs, row.account, asOf)
         + if B.OnOrAfter(row.date, since) && row.date <= asOf then Tables.Delta(row) else 0
    ensures LastStored(WithTyped(s, [row]).table, row.account) == LastStored(s.table, row.account)
  {
    var account := row.account;
    assert (s.table + [row])[..|s.table|] == s.table;
    B.NoSubLedgers(s.table, subs, account, Anchors(s.imports, account), AnchorsOfSubs(s.selections), asOf);
    B.NoSubLedgers(s.table + [row], subs, account, Anchors(s.imports, account), AnchorsOfSubs(s.selections), asOf);
  }

  /** The balance on the newest row of the account that stores one. */
  function LastStored(table: seq<Stored>, account: Id): Option<Cents> {
    if table == [] then None
    else
      var t := table[|table| - 1];
      if t.account == account && t.balanceAfter.Some? then t.balanceAfter
      else LastStored(table[..|table| - 1], account)
  }

  // ---- a key that depends on the description ----

  /** Equity Bank's dedupe key: reference, description and amount. */
  function ByReferenceTextAndAmount(hash: (string, string, Cents) -> string): D.Fingerprint {
    (r: D.BalanceRow, amount: Cents) => hash(r.reference, r.description, amount)
  }

  /** One booking read twice, a fragment of text having gone to the wrong row in one of the
      readings: it is stored again exactly when the hash tells the two descriptions apart. */
  lemma {:induction false} TextDecidesDuplicates(hash: (string, string, Cents) -> string, row: D.BalanceRow,
                                                 text: string, before: Cents, account: Id, id: Id)
    ensures var fp := ByReferenceTextAndAmount(hash);
      var one := D.Rebuilt(row, before, "KES", fp);
      var again := D.Rebuilt(row.(description := text), before, "KES", fp);
      |InsertAll(InsertAll([], account, id, None, [one]), account, id, None, [again])|
      == if hash(row.reference, text, one.amount) == hash(row.reference, row.description, one.amount) then 1 else 2
  {
    var fp := ByReferenceTextAndAmount(hash);
    var one := D.Rebuilt(row, before, "KES", fp);
    var again := D.Rebuilt(row.(description := text), before, "KES", fp);
    assert one.key == hash(row.reference, row.description, one.amount);
    assert again.key == hash(row.reference, text, one.amount);
    KeyDecides(account, id, one, again);
  }

  lemma {:induction false} KeyDecides(account: Id, id: Id, one: Parsed, again: Parsed)
    ensures |InsertAll(InsertAll([], account, id, None, [one]), account, id, None, [again])|
      == if again.key == one.key then 1 else 2
  {
    assert [one][..0] == [] && [again][..0] == [];
    assert InsertAll([], account, id, None, []) == [];
    var stored := [StoredOf(account, id, None, one)];
    assert InsertAll([], account, id, None, [one]) == [] + stored == stored;
    assert InsertAll(stored, account, id, None, []) == stored;
    assert InsertAll(stored, account, id, None, [again]) == InsertOne(stored, account, id, None, again);
    assert HasKey(stored, account, again.key) <==> stored[0].key == Some(again.key);
  }

  // ---- rounding ----

  /** The report's rows for a list of parsed transactions. */
  ghost predicate Shows(rows: seq<S.Row>, txns: seq<Parsed>) {
    && |rows| == |txns|
    && forall i :: 0 <= i < |rows| ==>
      rows[i].amount == txns[i].amount && rows[i].dir == txns[i].dir && rows[i].balanceAfter == txns[i].balanceAfter
  }

  lemma {:induction false} DriftFromFirstRow(txns: seq<Parsed>, opening: Cents, i: nat)
    requires P.Accepts(txns, opening) && i < |txns|
    ensures txns[0].balanceAfter.Some? && txns[i].balanceAfter.Some?
    ensures Abs(txns[i].balanceAfter.value - txns[0].balanceAfter.value
                - (P.Net(txns[..i + 1]) - P.Net(txns[..1]))) <= i
  {
    assert P.RowReconciles(txns, opening, i);
    if i > 0 {
      DriftFromFirstRow(txns, opening, i - 1);
      SumOfStep(txns, i, P.Delta);
    }
  }

  /** A statement that passed the check with its cent of tolerance per row: the balance the
      report computes for row i is within i cents of the balance the bank printed there. */
  lemma {:induction false} ReportStaysWithinCents(rows: seq<S.Row>, txns: seq<Parsed>, opening: Cents, i: nat)
    requires P.Accepts(txns, opening) && Shows(rows, txns) && i < |txns|
    ensures txns[i].balanceAfter.Some? && S.BalanceAfter(rows, i + 1).Some?
    ensures Abs(S.BalanceAfter(rows, i + 1).value - txns[i].balanceAfter.value) <= i
  {
    DriftFromFirstRow(txns, opening, i);
    assert S.IsAnchor(rows, 0);
    S.StartingFromAnchor(rows, 0);
    SumOfZip(rows[..1], txns[..1], S.Delta, P.Delta);
    SumOfZip(rows[..i + 1], txns[..i + 1], S.Delta, P.Delta);
  }
}
