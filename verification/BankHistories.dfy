/** Whole histories against the bank's own ledger: what the two balances show when the files
    imported are statements cut from one ledger. */
module BankHistories {
  import opened Basics
  import opened Sums
  import opened Tables
  import P = ParserBase
  import B = BookBalance
  import S = Statement
  import A = Agreement
  import opened ImportWorker
  import opened ImportRuns
  import opened EndToEnd

  // ---- the bank's ledger and the statements cut from it ----

  /** Every booking of an account, oldest first, with the balance it left and its own key. */
  ghost predicate IsLedger(book: seq<Parsed>, base: Cents) {
    && P.ExactChain(book, base) && DistinctKeys(book)
    && forall i, j :: 0 <= i < j < |book| ==> book[i].date <= book[j].date
  }

  /** What the account held at the end of each day. */
  function AtEndOf(book: seq<Parsed>, base: Cents): BankRecord {
    (d: Date) => base + SumOf(book, Within(None, d))
  }

  /** Consecutive bookings, the first of them the first of its day. */
  ghost predicate IsStatement(txns: seq<Parsed>, book: seq<Parsed>) {
    exists a: nat, b: nat :: Cut(txns, book, a, b)
  }

  ghost predicate Cut(txns: seq<Parsed>, book: seq<Parsed>, a: nat, b: nat) {
    && a <= b <= |book| && txns == book[a..b]
    && (0 < a < |book| ==> book[a - 1].date < book[a].date)
  }

  lemma {:induction false} HeldBefore(book: seq<Parsed>, base: Cents, a: nat)
    requires IsLedger(book, base) && a < |book| && (0 < a ==> book[a - 1].date < book[a].date)
    ensures AtEndOf(book, base)(book[a].date - 1) == base + P.Net(book[..a])
  {
    var w := Within(None, book[a].date - 1);
    SumOfSplit(book, a, w);
    SumOfZip(book[..a], book[..a], w, P.Delta);
    SumOfZero(book[a..], w);
  }

  /** A statement's recovered opening is what the bank says was held the day before. */
  lemma {:induction false} StatementIsTrue(txns: seq<Parsed>, book: seq<Parsed>, base: Cents)
    requires IsLedger(book, base) && IsStatement(txns, book)
    ensures TrueToBank(txns, AtEndOf(book, base))
  {
    var a: nat, b: nat :| Cut(txns, book, a, b);
    if txns != [] {
      HeldBefore(book, base, a);
      SumOfStep(book, a, P.Delta);
    }
  }

  // ---- what the events may be ----

  /** Nothing of the account is stored and none of its imports states an opening. */
  ghost predicate NothingOf(s: Store, account: Id) {
    && (forall r :: 0 <= r < |s.table| ==> s.table[r].account != account)
    && forall i :: 0 <= i < |s.imports| && s.imports[i].account == account ==> s.imports[i].opening.None?
  }

  /** Files of the account are statements cut from the ledger, refused, crashed or broken off
      as they may be; rows typed in for it lie outside the days from d to asOf. Other accounts
      do as they like. */
  ghost predicate Fitting(s: Store, event: Event, account: Id, book: seq<Parsed>, d: Date, asOf: Date) {
    match event
    case Typed(row) => row.account == account ==> ByHand(row) && !(d <= row.date <= asOf)
    case Worked(j) =>
      j.id < |s.imports| && s.imports[j.id].account == account ==>
        && (j.parse.Sectioned? ==> !j.parse.sections.Ok?)
        && (j.parse.Flat? && j.parse.rows.Ok? ==> IsStatement(j.parse.rows.value, book))
  }

  ghost predicate AllFitting(s: Store, events: seq<Event>, account: Id, book: seq<Parsed>, d: Date, asOf: Date) {
    forall e :: e in events ==> Fitting(s, e, account, book, d, asOf)
  }

  /** Every booking of those days was delivered by some job of the history. */
  ghost predicate Covered(s: Store, subs: seq<SubLedger>, events: seq<Event>, account: Id, book: seq<Parsed>, d: Date,
                          asOf: Date) {
    forall i :: 0 <= i < |book| && d <= book[i].date <= asOf ==>
      exists e :: e in events && e.Worked? && DeliversKey(s, subs, e.job, account, book[i].key)
  }

  // ---- what is then on record ----

  ghost predicate Books(t: Stored, b: Parsed) {
    t.key == Some(b.key) && t.date == b.date && t.amount == b.amount && t.dir == b.dir
  }

  ghost predicate BookedRow(t: Stored, book: seq<Parsed>) {
    exists i :: 0 <= i < |book| && Books(t, book[i])
  }

  /** The account's rows are bookings of the ledger, or keyless rows outside the days. */
  ghost predicate FromBook(table: seq<Stored>, account: Id, book: seq<Parsed>, d: Date, asOf: Date) {
    forall r :: 0 <= r < |table| && table[r].account == account ==>
      && table[r].subLedger.None?
      && (table[r].key.Some? ==> BookedRow(table[r], book))
      && (table[r].key.None? ==> !(d <= table[r].date <= asOf))
  }

  ghost predicate KeyedOnce(table: seq<Stored>, account: Id) {
    forall i, j :: 0 <= i < j < |table| && table[i].account == table[j].account == account && table[i].key.Some?
      ==> table[i].key != table[j].key
  }

  ghost predicate OnRecord(table: seq<Stored>, account: Id, book: seq<Parsed>, d: Date, asOf: Date) {
    FromBook(table, account, book, d, asOf) && KeyedOnce(table, account)
  }

  lemma {:induction false} StrangersChangeNothing(table: seq<Stored>, more: seq<Stored>, account: Id,
                                                  book: seq<Parsed>, d: Date, asOf: Date)
    requires OnRecord(table, account, book, d, asOf) && table <= more
    requires forall r :: |table| <= r < |more| ==> more[r].account != account
    ensures OnRecord(more, account, book, d, asOf)
  {
    assert forall r :: 0 <= r < |table| ==> more[r] == table[r];
  }

  lemma {:induction false} InsertOneKeepsRecord(table: seq<Stored>, account: Id, id: Id, t: Parsed, book: seq<Parsed>,
                                                d: Date, asOf: Date)
    requires OnRecord(table, account, book, d, asOf) && t in book
    ensures OnRecord(InsertOne(table, account, id, None, t), account, book, d, asOf)
  {
    if !HasKey(table, account, t.key) {
      var row := StoredOf(account, id, None, t);
      var i :| 0 <= i < |book| && book[i] == t;
      assert Books(row, book[i]);
    }
  }

  lemma {:induction false} InsertKeepsRecord(table: seq<Stored>, account: Id, id: Id, txns: seq<Parsed>,
                                             book: seq<Parsed>, d: Date, asOf: Date)
    requires OnRecord(table, account, book, d, asOf) && forall t :: t in txns ==> t in book
    ensures OnRecord(InsertAll(table, account, id, None, txns), account, book, d, asOf)
  {
    if txns != [] {
      var front, last := txns[..|txns| - 1], txns[|txns| - 1];
      assert last in txns;
      InsertKeepsRecord(table, account, id, front, book, d, asOf);
      InsertOneKeepsRecord(InsertAll(table, account, id, None, front), account, id, last, book, d, asOf);
    }
  }

  lemma {:induction false} TypingKeepsRecord(table: seq<Stored>, account: Id, row: Stored, book: seq<Parsed>, d: Date,
                                             asOf: Date)
    requires OnRecord(table, account, book, d, asOf)
    requires row.account == account ==> ByHand(row) && !(d <= row.date <= asOf)
    ensures OnRecord(table + [row], account, book, d, asOf)
  {
  }

  /** Whatever a job of another account inserts is not this account's. */
  lemma {:induction false} OthersInsertElsewhere(s: Store, subs: seq<SubLedger>, j: Job, r: nat)
    requires j.id < |s.imports| && |s.table| <= r < |Work(s, subs, j).table|
    ensures Work(s, subs, j).table[r].account == s.imports[j.id].account
  {
    var account := s.imports[j.id].account;
    TableAfterJob(s, subs, j);
    match j.parse {
      case Flat(Ok(_)) => FirstWriterIsKept(s.table, account, j.id, None, Delivered(s, subs, j), r);
      case Sectioned(Ok(sections)) =>
        NewRowsComeFromTheirGroup(s.table, account, j.id, Front(GroupsToWrite(s, subs, j.id, sections), j.writes), r);
      case _ =>
    }
  }

  lemma {:induction false} JobKeepsRecord(s: Store, subs: seq<SubLedger>, j: Job, account: Id, book: seq<Parsed>,
                                          d: Date, asOf: Date)
    requires OnRecord(s.table, account, book, d, asOf) && Fitting(s, Worked(j), account, book, d, asOf)
    ensures OnRecord(Work(s, subs, j).table, account, book, d, asOf)
  {
    if j.id < |s.imports| {
      JobIsUnion(s, subs, j);
      TableAfterJob(s, subs, j);
      if s.imports[j.id].account != account {
        forall r | |s.table| <= r < |Work(s, subs, j).table|
          ensures Work(s, subs, j).table[r].account != account
        {
          OthersInsertElsewhere(s, subs, j, r);
        }
        StrangersChangeNothing(s.table, Work(s, subs, j).table, account, book, d, asOf);
      } else if j.parse.Flat? && j.parse.rows.Ok? {
        InsertKeepsRecord(s.table, account, j.id, Delivered(s, subs, j), book, d, asOf);
      }
    }
  }

  lemma {:induction false} HistoryKeepsRecord(s: Store, subs: seq<SubLedger>, events: seq<Event>, account: Id,
                                              book: seq<Parsed>, d: Date, asOf: Date)
    requires OnRecord(s.table, account, book, d, asOf) && AllFitting(s, events, account, book, d, asOf)
    ensures OnRecord(History(s, subs, events).table, account, book, d, asOf)
  {
    if events != [] {
      var front, last := events[..|events| - 1], events[|events| - 1];
      assert last in events;
      HistoryKeepsRecord(s, subs, front, account, book, d, asOf);
      HistoryKeepsFrame(s, subs, front);
      match last {
        case Worked(j) => JobKeepsRecord(History(s, subs, front), subs, j, account, book, d, asOf);
        case Typed(row) => TypingKeepsRecord(History(s, subs, front).table, account, row, book, d, asOf);
      }
    }
  }

  /** A key some job of the history delivered is there at the end. */
  lemma {:induction false} DeliveredIsStored(s: Store, subs: seq<SubLedger>, events: seq<Event>, j: Job, account: Id,
                                             k: string)
    requires Worked(j) in events && DeliversKey(s, subs, j, account, k)
    ensures HasKey(History(s, subs, events).table, account, k)
  {
    var front, last := events[..|events| - 1], events[|events| - 1];
    assert events == front + [last];
    var before := History(s, subs, front);
    HistoryKeepsFrame(s, subs, front);
    if last == Worked(j) {
      DeliveredSame(s, before, subs, j);
      JobIsUnion(before, subs, j);
    } else {
      DeliveredIsStored(s, subs, front, j, account, k);
      if last.Worked? {
        JobIsUnion(before, subs, last.job);
      }
      KeysStay(before.table, History(s, subs, events).table, account, k);
    }
  }

  // ---- adding it up ----

  /** A booking's movement within the days, if it is on record. */
  function Stocked(table: seq<Stored>, account: Id, since: Date, until: Date): Parsed -> int {
    (t: Parsed) => if HasKey(table, account, t.key) then Within(Some(since), until)(t) else 0
  }

  lemma {:induction false} HasKeyMore(table: seq<Stored>, x: Stored, account: Id, k: string)
    ensures HasKey(table + [x], account, k) <==> HasKey(table, account, k) || (x.account == account && x.key == Some(k))
  {
    var more := table + [x];
    assert more[|table|] == x;
    if HasKey(table, account, k) {
      KeysStay(table, more, account, k);
    }
    if HasKey(more, account, k) {
      var i :| 0 <= i < |more| && more[i].account == account && more[i].key == Some(k);
      assert i < |table| ==> table[i] == more[i];
    }
  }

  lemma {:induction false} KeyWasNew(table: seq<Stored>, x: Stored, account: Id)
    requires KeyedOnce(table + [x], account) && x.account == account && x.key.Some?
    ensures !HasKey(table, account, x.key.value)
  {
    var more := table + [x];
    forall r | 0 <= r < |table| && table[r].account == account
      ensures table[r].key != x.key
    {
      assert more[r] == table[r] && more[|table|] == x;
      assert more[r].key.Some? ==> more[r].key != more[|table|].key;
    }
  }

  lemma {:induction false} StockedMore(table: seq<Stored>, x: Stored, account: Id, book: seq<Parsed>, since: Date,
                                       until: Date)
    requires DistinctKeys(book) && OnRecord(table + [x], account, book, since, until)
    ensures SumOf(book, Stocked(table + [x], account, since, until))
      == SumOf(book, Stocked(table, account, since, until))
         + if x.account == account && since <= x.date <= until then Tables.Delta(x) else 0
  {
    var f, g := Stocked(table, account, since, until), Stocked(table + [x], account, since, until);
    assert (table + [x])[|table|] == x;
    forall j | 0 <= j < |book| && !(x.account == account && x.key == Some(book[j].key))
      ensures f(book[j]) == g(book[j])
    {
      HasKeyMore(table, x, account, book[j].key);
    }
    if x.account == account && x.key.Some? {
      var i :| 0 <= i < |book| && Books(x, book[i]);
      KeyWasNew(table, x, account);
      HasKeyMore(table, x, account, book[i].key);
      assert forall j :: 0 <= j < |book| && j != i ==> book[j].key != book[i].key;
      assert f(book[i]) == 0 && g(book[i]) == Within(Some(since), until)(book[i]);
      assert P.Delta(book[i]) == Tables.Delta(x);
      SumOfBump(book, f, g, i);
    } else {
      SumOfZip(book, book, f, g);
    }
  }

  lemma {:induction false} RecordPrefix(table: seq<Stored>, account: Id, book: seq<Parsed>, d: Date, asOf: Date)
    requires table != [] && OnRecord(table, account, book, d, asOf)
    ensures OnRecord(table[..|table| - 1], account, book, d, asOf)
  {
  }

  /** The account's movements in the days are those of the bookings on record. */
  lemma {:induction false} MovementsAreStocked(table: seq<Stored>, account: Id, book: seq<Parsed>, since: Date,
                                               until: Date)
    requires DistinctKeys(book) && OnRecord(table, account, book, since, until)
    ensures B.Movements(table, B.Direct(account), Some(since), until)
      == SumOf(book, Stocked(table, account, since, until))
  {
    if table == [] {
      forall t | t in book
        ensures Stocked(table, account, since, until)(t) == 0
      {
        assert !HasKey(table, account, t.key);
      }
      SumOfZero(book, Stocked(table, account, since, until));
    } else {
      var n := |table| - 1;
      RecordPrefix(table, account, book, since, until);
      MovementsAreStocked(table[..n], account, book, since, until);
      assert table[..n] + [table[n]] == table;
      StockedMore(table[..n], table[n], account, book, since, until);
    }
  }

  lemma {:induction false} BankMoves(book: seq<Parsed>, base: Cents, since: Date, until: Date)
    requires since <= until + 1
    ensures AtEndOf(book, base)(until) == AtEndOf(book, base)(since - 1) + SumOf(book, Within(Some(since), until))
  {
    SumOfPlus(book, Within(None, since - 1), Within(Some(since), until), Within(None, until));
  }

  lemma {:induction false} NarrowerRecord(table: seq<Stored>, account: Id, book: seq<Parsed>, d: Date, e: Date,
                                          asOf: Date)
    requires OnRecord(table, account, book, d, asOf) && d <= e
    ensures OnRecord(table, account, book, e, asOf)
  {
  }

  /** Every booking of the days being delivered, the account moved as the bank says. */
  lemma {:induction false} RecordedAsBooked(s: Store, subs: seq<SubLedger>, events: seq<Event>, account: Id,
                                            book: seq<Parsed>, base: Cents, d: Date, e: Date, asOf: Date)
    requires IsLedger(book, base) && NothingOf(s, account)
    requires AllFitting(s, events, account, book, d, asOf) && Covered(s, subs, events, account, book, d, asOf)
    requires d <= e <= asOf + 1
    ensures B.Movements(History(s, subs, events).table, B.Direct(account), Some(e), asOf)
      == AtEndOf(book, base)(asOf) - AtEndOf(book, base)(e - 1)
  {
    var table := History(s, subs, events).table;
    HistoryKeepsRecord(s, subs, events, account, book, d, asOf);
    NarrowerRecord(table, account, book, d, e, asOf);
    MovementsAreStocked(table, account, book, e, asOf);
    forall i | 0 <= i < |book|
      ensures Stocked(table, account, e, asOf)(book[i]) == Within(Some(e), asOf)(book[i])
    {
      if e <= book[i].date <= asOf {
        var event :| event in events && event.Worked? && DeliversKey(s, subs, event.job, account, book[i].key);
        DeliveredIsStored(s, subs, events, event.job, account, book[i].key);
      }
    }
    SumOfZip(book, book, Stocked(table, account, e, asOf), Within(Some(e), asOf));
    BankMoves(book, base, e, asOf);
  }

  lemma {:induction false} FittingFilesAreTrue(s: Store, events: seq<Event>, account: Id, book: seq<Parsed>,
                                               base: Cents, d: Date, asOf: Date)
    requires IsLedger(book, base) && AllFitting(s, events, account, book, d, asOf)
    ensures FilesAreTrue(s, events, account, AtEndOf(book, base))
  {
    forall e | e in events && e.Worked? && e.job.id < |s.imports| && s.imports[e.job.id].account == account
               && e.job.parse.Flat? && e.job.parse.rows.Ok?
      ensures TrueToBank(e.job.parse.rows.value, AtEndOf(book, base))
    {
      assert Fitting(s, e, account, book, d, asOf);
      StatementIsTrue(e.job.parse.rows.value, book, base);
    }
  }

  /** After any history of statements cut from the bank's ledger, overlapping, repeated, out of
      order, refused or broken off, that together deliver every booking from day d to asOf,
      with nothing typed in for those days: where the newest opening in force is not before d,
      the account shows what the bank held. */
  lemma {:induction false} AccountShowsTheBank(s: Store, subs: seq<SubLedger>, events: seq<Event>, account: Id,
                                               book: seq<Parsed>, base: Cents, d: Date, asOf: Date)
    requires IsLedger(book, base) && NothingOf(s, account) && Undivided(subs, account)
    requires AllFitting(s, events, account, book, d, asOf) && Covered(s, subs, events, account, book, d, asOf)
    requires var a := B.Newest(Anchors(History(s, subs, events).imports, account), asOf); a.Some? && d <= a.value.date
    ensures Shown(History(s, subs, events), subs, account, asOf) == AtEndOf(book, base)(asOf)
  {
    var after := History(s, subs, events);
    var anchors := Anchors(after.imports, account);
    var a := B.Newest(anchors, asOf).value;
    FittingFilesAreTrue(s, events, account, book, base, d, asOf);
    HistoryKeepsOpeningsTrue(s, subs, events, account, AtEndOf(book, base));
    AnchorsAreTrue(after.imports, account, AtEndOf(book, base));
    B.NewestApplies(anchors, asOf);
    RecordedAsBooked(s, subs, events, account, book, base, d, a.date, asOf);
    B.NoSubLedgers(after.table, subs, account, anchors, AnchorsOfSubs(after.selections), asOf);
  }

  lemma {:induction false} RecordIsUnsplit(table: seq<Stored>, subs: seq<SubLedger>, account: Id, book: seq<Parsed>,
                                           d: Date, asOf: Date)
    requires OnRecord(table, account, book, d, asOf) && Undivided(subs, account)
    ensures A.Unsplit(table, subs, account)
  {
  }

  lemma {:induction false} HistoryIsUnsplit(s: Store, subs: seq<SubLedger>, events: seq<Event>, account: Id,
                                            book: seq<Parsed>, d: Date, asOf: Date)
    requires NothingOf(s, account) && Undivided(subs, account)
    requires AllFitting(s, events, account, book, d, asOf)
    ensures A.Unsplit(History(s, subs, events).table, subs, account)
  {
    HistoryKeepsRecord(s, subs, events, account, book, d, asOf);
    RecordIsUnsplit(History(s, subs, events).table, subs, account, book, d, asOf);
  }

  /** The statement's closing balance is the bank's too, on any day, if the statement starts
      day d with the bank's figure. */
  lemma {:induction false} StatementShowsTheBank(s: Store, subs: seq<SubLedger>, events: seq<Event>, account: Id,
                                                 book: seq<Parsed>, base: Cents, rows: seq<S.Row>, d: Date,
                                                 asOf: Date)
    requires IsLedger(book, base) && NothingOf(s, account) && Undivided(subs, account)
    requires AllFitting(s, events, account, book, d, asOf) && Covered(s, subs, events, account, book, d, asOf)
    requires d <= asOf + 1 && A.IsFetched(rows, History(s, subs, events).table, account)
    requires S.BalanceInto(rows, Some(d)) == Some(AtEndOf(book, base)(d - 1))
    ensures S.Closing(rows, S.Window(None, Some(asOf))) == Some(AtEndOf(book, base)(asOf))
  {
    HistoryIsUnsplit(s, subs, events, account, book, d, asOf);
    A.ClosingFromDay(History(s, subs, events).table, subs, account, rows, d, asOf);
    RecordedAsBooked(s, subs, events, account, book, base, d, d, asOf);
  }
}
