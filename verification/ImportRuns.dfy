/** Whole histories of import jobs: retries, overlaps, and what they do to the balance. */
module ImportRuns {
  import opened Basics
  import opened Sums
  import opened Tables
  import P = ParserBase
  import M = MentorSacco
  import B = BookBalance
  import opened ImportWorker

  /** A job together with how far it gets: enough writes make it a clean one. */
  datatype Job = Job(id: Id, parse: Parse, writes: nat, marked: bool)

  function Work(s: Store, subs: seq<SubLedger>, j: Job): Store {
    ProcessUpTo(s, subs, j.id, j.parse, j.writes, j.marked)
  }

  function Run(s: Store, subs: seq<SubLedger>, jobs: seq<Job>): Store {
    if jobs == [] then s else Work(Run(s, subs, jobs[..|jobs| - 1]), subs, jobs[|jobs| - 1])
  }

  /** The groups a sub-ledger job stores for its account, if it gets that far. */
  function GroupsToWrite(s: Store, subs: seq<SubLedger>, id: Id, sections: seq<M.SubLedgerStatement>): seq<Group> {
    var selected := SelectedSubs(s.selections, subs, id);
    if selected == [] then []
    else (match Resolve(selected, sections)
          case Missing(_) => []
          case Resolved(groups) => groups)
  }

  /** Everything a job's file brings to its account before the job ends. */
  function Delivered(s: Store, subs: seq<SubLedger>, j: Job): seq<Parsed> {
    if j.id >= |s.imports| then []
    else match j.parse
      case Flat(Ok(txns)) => if j.writes == 0 then [] else txns
      case Sectioned(Ok(sections)) => AllTxns(Front(GroupsToWrite(s, subs, j.id, sections), j.writes))
      case _ => []
  }

  // ---- what jobs never change ----

  /** Same imports for the same accounts, same sub-ledgers picked. */
  ghost predicate SameFrame(s: Store, t: Store) {
    && |s.imports| == |t.imports|
    && (forall i :: 0 <= i < |s.imports| ==> s.imports[i].account == t.imports[i].account)
    && |s.selections| == |t.selections|
    && (forall i :: 0 <= i < |s.selections| ==>
         s.selections[i].importId == t.selections[i].importId && s.selections[i].subLedger == t.selections[i].subLedger)
  }

  lemma {:induction false} SelectedSubsSame(a: seq<Selection>, b: seq<Selection>, subs: seq<SubLedger>, id: Id)
    requires |a| == |b|
    requires forall i :: 0 <= i < |a| ==> a[i].importId == b[i].importId && a[i].subLedger == b[i].subLedger
    ensures SelectedSubs(a, subs, id) == SelectedSubs(b, subs, id)
  {
    if a != [] {
      SelectedSubsSame(a[..|a| - 1], b[..|b| - 1], subs, id);
    }
  }

  /** The opening recorded for a sub-ledger: that of its last group that has a first row. */
  function OpeningFor(groups: seq<Group>, sub: Id): Option<(Cents, Date)> {
    if groups == [] then None
    else
      var g := groups[|groups| - 1];
      if g.sub == sub && P.DeriveOpeningBalance(g.txns).Some? then P.DeriveOpeningBalance(g.txns)
      else OpeningFor(groups[..|groups| - 1], sub)
  }

  lemma {:induction false} RecordedOpenings(selections: seq<Selection>, id: Id, groups: seq<Group>)
    ensures |RecordOpenings(selections, id, groups)| == |selections|
    ensures forall i :: 0 <= i < |selections| ==>
      RecordOpenings(selections, id, groups)[i]
      == if selections[i].importId == id && OpeningFor(groups, selections[i].subLedger).Some?
         then selections[i].(opening := OpeningFor(groups, selections[i].subLedger))
         else selections[i]
  {
    if groups != [] {
      RecordedOpenings(selections, id, groups[..|groups| - 1]);
    }
  }

  /** What a job does to the transactions table, however far it gets. */
  lemma {:induction false} TableAfterJob(s: Store, subs: seq<SubLedger>, j: Job)
    requires j.id < |s.imports|
    ensures Work(s, subs, j).table ==
      match j.parse
      case Flat(Ok(_)) => InsertAll(s.table, s.imports[j.id].account, j.id, None, Delivered(s, subs, j))
      case Sectioned(Ok(sections)) =>
        InsertGroups(s.table, s.imports[j.id].account, j.id, Front(GroupsToWrite(s, subs, j.id, sections), j.writes))
      case _ => s.table
  {
    match j.parse {
      case Sectioned(Ok(sections)) =>
        var selected := SelectedSubs(s.selections, subs, j.id);
        if selected != [] && Resolve(selected, sections).Resolved? {
          GroupsAfterTable(s, j.id, Resolve(selected, sections).groups, j.writes);
        }
      case _ =>
    }
  }

  lemma {:induction false} OpeningsKeepFrame(selections: seq<Selection>, id: Id, groups: seq<Group>)
    ensures var after := RecordOpenings(selections, id, groups);
      && |after| == |selections|
      && forall i :: 0 <= i < |selections| ==>
           after[i].importId == selections[i].importId && after[i].subLedger == selections[i].subLedger
           && (selections[i].importId != id ==> after[i] == selections[i])
  {
    RecordedOpenings(selections, id, groups);
  }

  /** A job touches no other import's record and no other import's openings. */
  lemma {:induction false} JobKeepsFrame(s: Store, subs: seq<SubLedger>, j: Job)
    ensures SameFrame(s, Work(s, subs, j))
    ensures KeepsOthers(s, Work(s, subs, j), j.id)
  {
    if j.id < |s.imports| && j.parse.Sectioned? && j.parse.sections.Ok? {
      OpeningsKeepFrame(s.selections, j.id, GroupsToWrite(s, subs, j.id, j.parse.sections.value));
    }
  }

  /** Imports other than `id` have the same record and the same openings in both. */
  ghost predicate KeepsOthers(s: Store, t: Store, id: Id) {
    && |s.imports| == |t.imports| && |s.selections| == |t.selections|
    && (forall i :: 0 <= i < |s.imports| && i != id ==> t.imports[i] == s.imports[i])
    && (forall i :: 0 <= i < |s.selections| && s.selections[i].importId != id ==> t.selections[i] == s.selections[i])
  }

  lemma {:induction false} DeliveredSame(s: Store, t: Store, subs: seq<SubLedger>, j: Job)
    requires SameFrame(s, t)
    ensures Delivered(s, subs, j) == Delivered(t, subs, j)
  {
    SelectedSubsSame(s.selections, t.selections, subs, j.id);
  }

  // ---- set union over any history ----

  ghost predicate DeliversKey(s: Store, subs: seq<SubLedger>, j: Job, account: Id, k: string) {
    j.id < |s.imports| && s.imports[j.id].account == account && CarriesKey(Delivered(s, subs, j), k)
  }

  lemma {:induction false} JobIsUnion(s: Store, subs: seq<SubLedger>, j: Job)
    ensures var after := Work(s, subs, j);
      && s.table <= after.table
      && (UniqueKeys(s.table) ==> UniqueKeys(after.table))
      && (forall account, k :: HasKey(after.table, account, k)
           <==> HasKey(s.table, account, k) || DeliversKey(s, subs, j, account, k))
  {
    if j.id < |s.imports| {
      var account := s.imports[j.id].account;
      TableAfterJob(s, subs, j);
      match j.parse {
        case Flat(Ok(_)) => InsertIsUnion(s.table, account, j.id, None, Delivered(s, subs, j));
        case Sectioned(Ok(sections)) =>
          GroupsAreUnion(s.table, account, j.id, Front(GroupsToWrite(s, subs, j.id, sections), j.writes));
        case _ =>
      }
    }
  }

  ghost predicate SomeJobDelivers(s: Store, subs: seq<SubLedger>, jobs: seq<Job>, account: Id, k: string) {
    exists n :: 0 <= n < |jobs| && DeliversKey(s, subs, jobs[n], account, k)
  }

  lemma {:induction false} SomeJobDeliversStep(s: Store, subs: seq<SubLedger>, front: seq<Job>, j: Job, account: Id,
                                               k: string)
    ensures SomeJobDelivers(s, subs, front + [j], account, k)
      <==> SomeJobDelivers(s, subs, front, account, k) || DeliversKey(s, subs, j, account, k)
  {
    var jobs := front + [j];
    if i :| 0 <= i < |front| && DeliversKey(s, subs, front[i], account, k) {
      assert jobs[i] == front[i];
    }
    if i :| 0 <= i < |jobs| && DeliversKey(s, subs, jobs[i], account, k) {
      assert i < |front| ==> front[i] == jobs[i];
    }
    assert jobs[|front|] == j;
  }

  /** After any sequence of jobs, failed ones and repeats included, an account holds exactly
      the keys it started with and those some job delivered to it: order and repetition of
      imports do not matter to that set. Rows once stored are never rewritten, so the first
      writer of a key is kept, and no key is ever stored twice. */
  lemma {:induction false} RunsStoreTheUnion(s: Store, subs: seq<SubLedger>, jobs: seq<Job>)
    ensures var after := Run(s, subs, jobs);
      && s.table <= after.table
      && SameFrame(s, after)
      && (UniqueKeys(s.table) ==> UniqueKeys(after.table))
      && (forall account, k :: HasKey(after.table, account, k) <==>
           HasKey(s.table, account, k) || SomeJobDelivers(s, subs, jobs, account, k))
  {
    if jobs != [] {
      var front, j := jobs[..|jobs| - 1], jobs[|jobs| - 1];
      RunsStoreTheUnion(s, subs, front);
      var before := Run(s, subs, front);
      JobIsUnion(before, subs, j);
      JobKeepsFrame(before, subs, j);
      DeliveredSame(s, before, subs, j);
      assert jobs == front + [j];
      forall account, k
        ensures SomeJobDelivers(s, subs, jobs, account, k)
          <==> SomeJobDelivers(s, subs, front, account, k) || DeliversKey(before, subs, j, account, k)
      {
        SomeJobDeliversStep(s, subs, front, j, account, k);
      }
    }
  }

  // ---- retries ----

  lemma {:induction false} KnownGroupsAreIdle(table: seq<Stored>, account: Id, id: Id, groups: seq<Group>)
    requires forall k :: CarriesKey(AllTxns(groups), k) ==> HasKey(table, account, k)
    ensures InsertGroups(table, account, id, groups) == table
  {
    if groups != [] {
      var front, g := groups[..|groups| - 1], groups[|groups| - 1];
      forall k
        ensures CarriesKey(AllTxns(groups), k) <==> CarriesKey(AllTxns(front), k) || CarriesKey(g.txns, k)
      {
        CarriesKeyAppend(AllTxns(front), g.txns, k);
      }
      KnownGroupsAreIdle(table, account, id, front);
      assert forall i :: 0 <= i < |g.txns| ==> CarriesKey(g.txns, g.txns[i].key);
      InsertKnownIsIdle(table, account, id, Some(g.sub), g.txns);
    }
  }

  lemma {:induction false} OpeningsTwice(selections: seq<Selection>, id: Id, groups: seq<Group>)
    ensures RecordOpenings(RecordOpenings(selections, id, groups), id, groups) == RecordOpenings(selections, id, groups)
  {
    RecordedOpenings(selections, id, groups);
    RecordedOpenings(RecordOpenings(selections, id, groups), id, groups);
  }

  /** t is a store in which the job has been done, whatever else was done since. */
  ghost predicate HoldsDone(s: Store, t: Store, subs: seq<SubLedger>, id: Id, parse: Parse) {
    var done := Process(s, subs, id, parse);
    && SameFrame(s, t) && done.table <= t.table
    && id < |t.imports| == |done.imports| && t.imports[id] == done.imports[id]
    && |t.selections| == |done.selections|
    && forall i :: 0 <= i < |t.selections| && t.selections[i].importId == id ==> t.selections[i] == done.selections[i]
  }

  lemma {:induction false} KeysStay(table: seq<Stored>, more: seq<Stored>, account: Id, k: string)
    requires table <= more && HasKey(table, account, k)
    ensures HasKey(more, account, k)
  {
    var i :| 0 <= i < |table| && table[i].account == account && table[i].key == Some(k);
    assert more[i] == table[i];
  }

  lemma {:induction false} FlatAgainIsIdle(s: Store, t: Store, subs: seq<SubLedger>, id: Id, txns: seq<Parsed>)
    requires id < |s.imports| && HoldsDone(s, t, subs, id, Flat(P.Ok(txns)))
    ensures WriteSingle(t, id, txns) == t
  {
    var account := s.imports[id].account;
    InsertIsUnion(s.table, account, id, None, txns);
    forall i | 0 <= i < |txns|
      ensures HasKey(t.table, account, txns[i].key)
    {
      KeysStay(WriteSingle(s, id, txns).table, t.table, account, txns[i].key);
    }
    InsertKnownIsIdle(t.table, account, id, None, txns);
  }

  lemma {:induction false} GroupsAgainAreIdle(s: Store, t: Store, id: Id, groups: seq<Group>)
    requires id < |s.imports| && id < |t.imports| && t.imports[id].account == s.imports[id].account
    requires WriteGroups(s, id, groups).table <= t.table && t.imports[id] == WriteGroups(s, id, groups).imports[id]
    requires RecordOpenings(t.selections, id, groups) == t.selections
    ensures WriteGroups(t, id, groups) == t
  {
    var account := s.imports[id].account;
    GroupsAreUnion(s.table, account, id, groups);
    forall k | CarriesKey(AllTxns(groups), k)
      ensures HasKey(t.table, account, k)
    {
      KeysStay(WriteGroups(s, id, groups).table, t.table, account, k);
    }
    KnownGroupsAreIdle(t.table, account, id, groups);
  }

  lemma {:induction false} OpeningsAgainAreIdle(before: seq<Selection>, now: seq<Selection>, id: Id, groups: seq<Group>)
    requires var done := RecordOpenings(before, id, groups);
      && |now| == |done| == |before|
      && (forall i :: 0 <= i < |now| ==>
           now[i].importId == before[i].importId && now[i].subLedger == before[i].subLedger)
      && (forall i :: 0 <= i < |now| && now[i].importId == id ==> now[i] == done[i])
    ensures RecordOpenings(now, id, groups) == now
  {
    RecordedOpenings(before, id, groups);
    RecordedOpenings(now, id, groups);
  }

  /** A job that has been done is idle from then on. */
  lemma {:induction false} DoneIsIdle(s: Store, t: Store, subs: seq<SubLedger>, id: Id, parse: Parse)
    requires id < |s.imports| && HoldsDone(s, t, subs, id, parse)
    ensures Process(t, subs, id, parse) == t
  {
    match parse {
      case Flat(Ok(txns)) => FlatAgainIsIdle(s, t, subs, id, txns);
      case Sectioned(Ok(sections)) =>
        SelectedSubsSame(s.selections, t.selections, subs, id);
        var selected := SelectedSubs(s.selections, subs, id);
        if selected != [] && Resolve(selected, sections).Resolved? {
          var groups := Resolve(selected, sections).groups;
          RecordedOpenings(s.selections, id, groups);
          OpeningsAgainAreIdle(s.selections, t.selections, id, groups);
          GroupsAgainAreIdle(s, t, id, groups);
        }
      case _ =>
    }
  }

  /** A clean job as an item of a history. */
  function Clean(s: Store, subs: seq<SubLedger>, id: Id, parse: Parse): Job {
    Job(id, parse, WritesNeeded(s, subs, id, parse), true)
  }

  lemma {:induction false} OthersKeepDone(s: Store, subs: seq<SubLedger>, id: Id, parse: Parse, others: seq<Job>)
    requires id < |s.imports| && forall o :: o in others ==> o.id != id
    ensures HoldsDone(s, Run(Process(s, subs, id, parse), subs, others), subs, id, parse)
  {
    var done := Process(s, subs, id, parse);
    if others == [] {
      JobKeepsFrame(s, subs, Clean(s, subs, id, parse));
    } else {
      var front, last := others[..|others| - 1], others[|others| - 1];
      assert last in others;
      OthersKeepDone(s, subs, id, parse, front);
      var t := Run(done, subs, front);
      JobKeepsFrame(t, subs, last);
      JobIsUnion(t, subs, last);
    }
  }

  /** Repeating a job changes nothing at all, not the rows, not any import's record, not any
      opening balance: neither right away nor after any jobs of other imports, interrupted
      ones included. */
  lemma {:induction false} RetryChangesNothing(s: Store, subs: seq<SubLedger>, id: Id, parse: Parse, others: seq<Job>)
    requires forall o :: o in others ==> o.id != id
    ensures var after := Run(Process(s, subs, id, parse), subs, others);
      Process(after, subs, id, parse) == after
  {
    if id < |s.imports| {
      OthersKeepDone(s, subs, id, parse, others);
      DoneIsIdle(s, Run(Process(s, subs, id, parse), subs, others), subs, id, parse);
    } else {
      RunKeepsFrame(s, subs, others);
    }
  }

  lemma {:induction false} RunKeepsFrame(s: Store, subs: seq<SubLedger>, jobs: seq<Job>)
    ensures SameFrame(s, Run(s, subs, jobs))
  {
    if jobs != [] {
      RunKeepsFrame(s, subs, jobs[..|jobs| - 1]);
      JobKeepsFrame(Run(s, subs, jobs[..|jobs| - 1]), subs, jobs[|jobs| - 1]);
    }
  }

  // ---- what a broken or failed job leaves behind ----

  /** However far a job gets, it has left the transactions table alone exactly when the account
      already had every key the job delivered. */
  lemma {:induction false} LeavesRowsExactly(s: Store, subs: seq<SubLedger>, j: Job)
    requires j.id < |s.imports|
    ensures Work(s, subs, j).table == s.table
      <==> forall k :: CarriesKey(Delivered(s, subs, j), k) ==> HasKey(s.table, s.imports[j.id].account, k)
  {
    var account := s.imports[j.id].account;
    TableAfterJob(s, subs, j);
    if forall k :: CarriesKey(Delivered(s, subs, j), k) ==> HasKey(s.table, account, k) {
      match j.parse {
        case Flat(Ok(_)) =>
          var txns := Delivered(s, subs, j);
          assert forall i :: 0 <= i < |txns| ==> CarriesKey(txns, txns[i].key);
          InsertKnownIsIdle(s.table, account, j.id, None, txns);
        case Sectioned(Ok(sections)) =>
          KnownGroupsAreIdle(s.table, account, j.id, Front(GroupsToWrite(s, subs, j.id, sections), j.writes));
        case _ =>
      }
    } else {
      var k :| CarriesKey(Delivered(s, subs, j), k) && !HasKey(s.table, account, k);
      JobIsUnion(s, subs, j);
      assert HasKey(Work(s, subs, j).table, account, k);
    }
  }

  /** The job gets as far as recording openings. */
  predicate RecordsOpenings(s: Store, subs: seq<SubLedger>, j: Job) {
    && j.parse.Sectioned? && j.parse.sections.Ok?
    && SelectedSubs(s.selections, subs, j.id) != []
    && Resolve(SelectedSubs(s.selections, subs, j.id), j.parse.sections.value).Resolved?
    && j.writes > |GroupsToWrite(s, subs, j.id, j.parse.sections.value)|
  }

  /** It has left the openings alone exactly when it does not get that far, or every opening
      it has for a picked sub-ledger was recorded already. */
  lemma {:induction false} LeavesOpeningsExactly(s: Store, subs: seq<SubLedger>, j: Job)
    requires j.id < |s.imports|
    ensures Work(s, subs, j).selections == s.selections
      <==> (RecordsOpenings(s, subs, j) ==>
             forall i :: 0 <= i < |s.selections| && s.selections[i].importId == j.id ==>
               var groups := GroupsToWrite(s, subs, j.id, j.parse.sections.value);
               var opening := OpeningFor(groups, s.selections[i].subLedger);
               opening.Some? ==> s.selections[i].opening == opening)
  {
    if RecordsOpenings(s, subs, j) {
      var groups := GroupsToWrite(s, subs, j.id, j.parse.sections.value);
      RecordedOpenings(s.selections, j.id, groups);
      assert Work(s, subs, j).selections == RecordOpenings(s.selections, j.id, groups);
    }
  }

  /** One row parsed, stored, and then the write of the import's record raises: the import is
      marked failed and its transaction is there. */
  lemma {:induction false} FailedImportHoldsARow(t: Parsed)
    ensures var s := Store([], [Import(5, Queued, None, None, None, None)], []);
      var after := Work(s, [], Job(0, Flat(P.Ok([t])), 1, true));
      && after.imports[0].status.Failed?
      && after.table == [StoredOf(5, 0, None, t)]
  {
    assert [t][..0] == [];
    assert InsertAll([], 5, 0, None, []) == [];
    assert InsertAll([], 5, 0, None, [t]) == [] + [StoredOf(5, 0, None, t)];
  }

  // ---- catching up after an interruption ----

  /** The same tables but for the error text of one import. */
  ghost predicate SameButError(a: Store, b: Store, id: Id) {
    && a.table == b.table && a.selections == b.selections && |a.imports| == |b.imports|
    && forall i :: 0 <= i < |a.imports| ==>
         a.imports[i] == if i == id then b.imports[i].(error := a.imports[i].error) else b.imports[i]
  }

  lemma {:induction false} GroupsCatchUp(table: seq<Stored>, account: Id, id: Id, groups: seq<Group>, n: nat)
    ensures InsertGroups(InsertGroups(table, account, id, Front(groups, n)), account, id, groups)
      == InsertGroups(table, account, id, groups)
  {
    var front, rest := Front(groups, n), groups[|Front(groups, n)|..];
    var reached := InsertGroups(table, account, id, front);
    FrontAndRest(groups, n);
    GroupsAreUnion(table, account, id, front);
    KnownGroupsAreIdle(reached, account, id, front);
    InsertGroupsAppend(table, account, id, front, rest);
    InsertGroupsAppend(reached, account, id, front, rest);
  }

  lemma {:induction false} FlatCatchesUp(table: seq<Stored>, account: Id, id: Id, txns: seq<Parsed>)
    ensures InsertAll(InsertAll(table, account, id, None, txns), account, id, None, txns)
      == InsertAll(table, account, id, None, txns)
  {
    InsertIsUnion(table, account, id, None, txns);
    InsertKnownIsIdle(InsertAll(table, account, id, None, txns), account, id, None, txns);
  }

  lemma {:induction false} ResolvedCatchesUp(s: Store, id: Id, groups: seq<Group>, writes: nat, marked: bool)
    requires id < |s.imports| && writes < |groups| + 2
    ensures var reached := GroupsAfter(s, id, groups, writes);
      SameButError(WriteGroups(if marked then Fail(reached, id, Unexpected) else reached, id, groups),
                   WriteGroups(s, id, groups), id)
  {
    GroupsCatchUp(s.table, s.imports[id].account, id, groups, writes);
    OpeningsTwice(s.selections, id, groups);
  }

  /** Wherever the database broke a job off, running it again in full leaves the tables as one
      clean run would have, except that the error text of the failed attempt stays on record
      beside the status `parsed`. */
  lemma {:induction false} RetryCompletes(s: Store, subs: seq<SubLedger>, id: Id, parse: Parse, writes: nat,
                                          marked: bool)
    ensures SameButError(Process(ProcessUpTo(s, subs, id, parse, writes, marked), subs, id, parse),
                         Process(s, subs, id, parse), id)
    ensures (id < |s.imports| && writes < WritesNeeded(s, subs, id, parse) && marked
             && Process(s, subs, id, parse).imports[id].status.Done?) ==>
        Process(ProcessUpTo(s, subs, id, parse, writes, marked), subs, id, parse).imports[id].error == Some(Unexpected)
  {
    if id < |s.imports| {
      var j := Job(id, parse, writes, marked);
      JobKeepsFrame(s, subs, j);
      SelectedSubsSame(s.selections, Work(s, subs, j).selections, subs, id);
      if writes >= WritesNeeded(s, subs, id, parse) {
        RetryChangesNothing(s, subs, id, parse, []);
      } else {
        match parse {
          case Flat(Ok(txns)) => FlatCatchesUp(s.table, s.imports[id].account, id, txns);
          case Sectioned(Ok(sections)) =>
            var selected := SelectedSubs(s.selections, subs, id);
            if selected != [] && Resolve(selected, sections).Resolved? {
              ResolvedCatchesUp(s, id, Resolve(selected, sections).groups, writes, marked);
            }
          case _ =>
        }
      }
    }
  }

  /** Attempts at one job, each broken off somewhere or not. */
  function Attempts(s: Store, subs: seq<SubLedger>, id: Id, parse: Parse, attempts: seq<(nat, bool)>): Store {
    if attempts == [] then s
    else
      var (writes, marked) := attempts[|attempts| - 1];
      ProcessUpTo(Attempts(s, subs, id, parse, attempts[..|attempts| - 1]), subs, id, parse, writes, marked)
  }

  /** However many attempts were broken off, the first full one puts things right. */
  lemma {:induction false} RetriesCatchUp(s: Store, subs: seq<SubLedger>, id: Id, parse: Parse,
                                          attempts: seq<(nat, bool)>)
    ensures SameButError(Process(Attempts(s, subs, id, parse, attempts), subs, id, parse),
                         Process(s, subs, id, parse), id)
  {
    if attempts != [] {
      var front, last := attempts[..|attempts| - 1], attempts[|attempts| - 1];
      RetriesCatchUp(s, subs, id, parse, front);
      RetryCompletes(Attempts(s, subs, id, parse, front), subs, id, parse, last.0, last.1);
    }
  }

  // ---- from the file to the balance ----

  /** The anchors the book balance of an account may choose from. */
  function Anchors(imports: seq<Import>, account: Id): seq<Anchor> {
    if imports == [] then []
    else
      var front, last := Anchors(imports[..|imports| - 1], account), imports[|imports| - 1];
      if last.account == account && last.opening.Some?
      then front + [Anchor(last.opening.value.0, last.opening.value.1)]
      else front
  }

  /** Those a sub-ledger may choose from. */
  function SubAnchors(selections: seq<Selection>, sub: Id): seq<Anchor> {
    if selections == [] then []
    else
      var front, last := SubAnchors(selections[..|selections| - 1], sub), selections[|selections| - 1];
      if last.subLedger == sub && last.opening.Some?
      then front + [Anchor(last.opening.value.0, last.opening.value.1)]
      else front
  }

  function AnchorsOfSubs(selections: seq<Selection>): Id -> seq<Anchor> {
    (sub: Id) => SubAnchors(selections, sub)
  }

  /** The figure the account shows: the book balance over everything stored. */
  function Shown(s: Store, subs: seq<SubLedger>, account: Id, asOf: Date): Cents {
    B.Balance(s.table, subs, account, Anchors(s.imports, account), AnchorsOfSubs(s.selections), asOf)
  }

  ghost predicate Undivided(subs: seq<SubLedger>, account: Id) {
    forall sub :: sub in subs ==> sub.account != account
  }

  /** The statement's own closing balance. */
  function StatedClosing(txns: seq<Parsed>): Option<Cents>
    requires txns != []
  {
    txns[|txns| - 1].balanceAfter
  }

  /** From the file to the figure on screen, for any list of rows whose first has a balance,
      chained or not, in any order of dates. Look on any later day on which this import's
      opening is in force: the account shows that opening, plus the movements of the file and
      those the account already had from the opening day on, less those skipped as duplicates. */
  lemma {:induction false} ImportedBalance(s: Store, subs: seq<SubLedger>, id: Id, txns: seq<Parsed>, asOf: Date)
    requires id < |s.imports| && Undivided(subs, s.imports[id].account)
    requires txns != [] && txns[0].balanceAfter.Some?
    requires B.Newest(Anchors(WriteSingle(s, id, txns).imports, s.imports[id].account), asOf)
             == Some(Anchor(P.DeriveOpeningBalance(txns).value.0, txns[0].date))
    ensures var account := s.imports[id].account;
      var w := Within(Some(txns[0].date), asOf);
      Shown(Process(s, subs, id, Flat(P.Ok(txns))), subs, account, asOf)
      == P.DeriveOpeningBalance(txns).value.0 + SumOf(txns, w)
         + B.Movements(s.table, B.Direct(account), Some(txns[0].date), asOf) - SumOf(Skipped(s.table, account, txns), w)
  {
    var account := s.imports[id].account;
    var after := WriteSingle(s, id, txns);
    InsertedMovements(s.table, account, id, None, txns, B.Direct(account), Some(txns[0].date), asOf);
    B.NoSubLedgers(after.table, subs, account, Anchors(after.imports, account), AnchorsOfSubs(after.selections), asOf);
  }

  /** Every import of a list whose first row has a balance offers its recovered opening. */
  lemma {:induction false} ImportOffersItsOpening(s: Store, subs: seq<SubLedger>, id: Id, txns: seq<Parsed>)
    requires id < |s.imports| && txns != [] && txns[0].balanceAfter.Some?
    ensures var after := Process(s, subs, id, Flat(P.Ok(txns)));
      Anchor(P.DeriveOpeningBalance(txns).value.0, txns[0].date) in Anchors(after.imports, s.imports[id].account)
  {
    AnchorOffered(WriteSingle(s, id, txns).imports, s.imports[id].account, id);
  }

  lemma {:induction false} AnchorOffered(imports: seq<Import>, account: Id, id: Id)
    requires id < |imports| && imports[id].account == account && imports[id].opening.Some?
    ensures Anchor(imports[id].opening.value.0, imports[id].opening.value.1) in Anchors(imports, account)
  {
    if id < |imports| - 1 {
      AnchorOffered(imports[..|imports| - 1], account, id);
    }
  }

  /** Nothing of the account is in the ledger yet, and no other import of it states an opening. */
  ghost predicate FreshAccount(s: Store, id: Id) {
    && id < |s.imports|
    && (forall i :: 0 <= i < |s.table| ==> s.table[i].account != s.imports[id].account)
    && (forall i :: 0 <= i < |s.imports| && i != id ==>
         (s.imports[i].account == s.imports[id].account ==> s.imports[i].opening.None?))
  }

  ghost predicate DistinctKeys(txns: seq<Parsed>) {
    forall i, j :: 0 <= i < j < |txns| ==> txns[i].key != txns[j].key
  }

  /** A statement imported into a fresh account: the account shows the recovered opening plus
      what the file books from that day to this, less the rows skipped as duplicates of each
      other. */
  lemma {:induction false} FreshImportShows(s: Store, subs: seq<SubLedger>, id: Id, txns: seq<Parsed>, asOf: Date)
    requires FreshAccount(s, id) && Undivided(subs, s.imports[id].account)
    requires txns != [] && txns[0].balanceAfter.Some? && txns[0].date <= asOf
    ensures Shown(Process(s, subs, id, Flat(P.Ok(txns))), subs, s.imports[id].account, asOf)
      == P.DeriveOpeningBalance(txns).value.0 + Gained(s.table, s.imports[id].account, txns, Some(txns[0].date), asOf)
  {
    FreshAnchorApplies(s, id, txns, asOf);
    ImportedBalance(s, subs, id, txns, asOf);
    NothingStoredMovesNothing(s.table, s.imports[id].account, Some(txns[0].date), asOf);
  }

  /** How far the last stated balance is from where the first and the movements lead. */
  function Breaks(txns: seq<Parsed>): int
    requires txns != [] && txns[0].balanceAfter.Some? && StatedClosing(txns).Some?
  {
    StatedClosing(txns).value - txns[0].balanceAfter.value - P.Net(txns[1..])
  }

  /** What the rows outside those days move. */
  function Outside(txns: seq<Parsed>, since: Date, asOf: Date): int {
    P.Net(txns) - SumOf(txns, Within(Some(since), asOf))
  }

  /** The bank's own closing balance is shown exactly when the breaks in the stated balances,
      the rows dated before the first or after the day asked about, and the rows skipped for
      sharing a key cancel out. */
  lemma {:induction false} FreshImportShowsClosing(s: Store, subs: seq<SubLedger>, id: Id, txns: seq<Parsed>,
                                                   asOf: Date)
    requires FreshAccount(s, id) && Undivided(subs, s.imports[id].account)
    requires txns != [] && txns[0].balanceAfter.Some? && txns[0].date <= asOf && StatedClosing(txns).Some?
    ensures var account := s.imports[id].account;
      var missing := Breaks(txns) + Outside(txns, txns[0].date, asOf)
                     + SumOf(Skipped(s.table, account, txns), Within(Some(txns[0].date), asOf));
      && Shown(Process(s, subs, id, Flat(P.Ok(txns))), subs, account, asOf) == StatedClosing(txns).value - missing
      && (P.ExactChain(txns, P.DeriveOpeningBalance(txns).value.0) ==> Breaks(txns) == 0)
  {
    FreshImportShows(s, subs, id, txns, asOf);
    OpeningPlusNet(txns);
  }

  lemma {:induction false} OpeningPlusNet(txns: seq<Parsed>)
    requires txns != [] && txns[0].balanceAfter.Some? && StatedClosing(txns).Some?
    ensures StatedClosing(txns).value == P.DeriveOpeningBalance(txns).value.0 + P.Net(txns) + Breaks(txns)
    ensures P.ExactChain(txns, P.DeriveOpeningBalance(txns).value.0) ==> Breaks(txns) == 0
  {
    SumOfSplit(txns, 1, P.Delta);
    SumOfOne(txns[0], P.Delta);
    assert txns[..1] == [txns[0]];
    assert txns[..|txns| - 1 + 1] == txns;
  }

  /** A chained statement: its closing balance is shown exactly when the rows outside the days
      and the rows skipped cancel out. */
  lemma {:induction false} FreshChainShowsClosing(s: Store, subs: seq<SubLedger>, id: Id, txns: seq<Parsed>, asOf: Date)
    requires FreshAccount(s, id) && Undivided(subs, s.imports[id].account)
    requires txns != [] && txns[0].balanceAfter.Some? && txns[0].date <= asOf && StatedClosing(txns).Some?
    requires P.ExactChain(txns, P.DeriveOpeningBalance(txns).value.0)
    ensures var account := s.imports[id].account;
      Shown(Process(s, subs, id, Flat(P.Ok(txns))), subs, account, asOf) == StatedClosing(txns).value
      <==> Outside(txns, txns[0].date, asOf)
           + SumOf(Skipped(s.table, account, txns), Within(Some(txns[0].date), asOf)) == 0
  {
    FreshImportShowsClosing(s, subs, id, txns, asOf);
  }

  lemma {:induction false} FreshAnchorApplies(s: Store, id: Id, txns: seq<Parsed>, asOf: Date)
    requires FreshAccount(s, id) && txns != [] && txns[0].balanceAfter.Some? && txns[0].date <= asOf
    ensures var a := Anchor(P.DeriveOpeningBalance(txns).value.0, txns[0].date);
      && Anchors(WriteSingle(s, id, txns).imports, s.imports[id].account) == [a]
      && B.Newest(Anchors(WriteSingle(s, id, txns).imports, s.imports[id].account), asOf) == Some(a)
  {
    OnlyAnchor(WriteSingle(s, id, txns).imports, s.imports[id].account, id);
    assert [Anchor(P.DeriveOpeningBalance(txns).value.0, txns[0].date)][..0] == [];
  }

  lemma {:induction false} OnlyAnchor(imports: seq<Import>, account: Id, id: Id)
    requires id < |imports| && imports[id].account == account && imports[id].opening.Some?
    requires forall i :: 0 <= i < |imports| && i != id && imports[i].account == account ==> imports[i].opening.None?
    ensures Anchors(imports, account) == [Anchor(imports[id].opening.value.0, imports[id].opening.value.1)]
  {
    var n := |imports| - 1;
    if id < n {
      OnlyAnchor(imports[..n], account, id);
    } else {
      NoAnchors(imports[..n], account);
    }
  }

  lemma {:induction false} NoAnchors(imports: seq<Import>, account: Id)
    requires forall i :: 0 <= i < |imports| && imports[i].account == account ==> imports[i].opening.None?
    ensures Anchors(imports, account) == []
  {
    if imports != [] {
      NoAnchors(imports[..|imports| - 1], account);
    }
  }

  lemma {:induction false} NothingStoredMovesNothing(table: seq<Stored>, account: Id, since: Option<Date>, until: Date)
    requires forall i :: 0 <= i < |table| ==> table[i].account != account
    ensures B.Movements(table, B.Direct(account), since, until) == 0
  {
    if table != [] {
      NothingStoredMovesNothing(table[..|table| - 1], account, since, until);
    }
  }

  lemma {:induction false} DistinctKeysSkipNothing(table: seq<Stored>, account: Id, txns: seq<Parsed>)
    requires forall i :: 0 <= i < |txns| ==> !HasKey(table, account, txns[i].key)
    requires DistinctKeys(txns)
    ensures Skipped(table, account, txns) == []
  {
    if txns != [] {
      DistinctKeysSkipNothing(table, account, txns[..|txns| - 1]);
    }
  }

  // ---- accounts with sub-ledgers ----

  /** A statement filed under no sub-ledger never moves what an account with any sub-ledger
      shows, on any day. */
  lemma {:induction false} SubLedgersHideFlatImports(s: Store, subs: seq<SubLedger>, id: Id, txns: seq<Parsed>,
                                                     asOf: Date)
    requires id < |s.imports| && !Undivided(subs, s.imports[id].account)
    ensures Shown(Process(s, subs, id, Flat(P.Ok(txns))), subs, s.imports[id].account, asOf)
      == Shown(s, subs, s.imports[id].account, asOf)
  {
    var account := s.imports[id].account;
    var after := WriteSingle(s, id, txns);
    B.SubLedgersAddUp(s.table, subs, account, Anchors(s.imports, account), AnchorsOfSubs(s.selections), asOf);
    B.SubLedgersAddUp(after.table, subs, account, Anchors(after.imports, account), AnchorsOfSubs(s.selections), asOf);
    var was := B.Share(s.table, account, AnchorsOfSubs(s.selections), asOf);
    var now := B.Share(after.table, account, AnchorsOfSubs(s.selections), asOf);
    forall sub | sub in subs
      ensures now(sub) == was(sub)
    {
      var since := B.Since(B.Newest(AnchorsOfSubs(s.selections)(sub.id), asOf));
      InsertedMovements(s.table, account, id, None, txns, B.Sub(sub.id), since, asOf);
    }
    SumOfCongruent(subs, now, was);
  }

  /** An account that has one empty sub-ledger, and a statement of one row ending at 100.00:
      the account shows nothing, whatever was imported. */
  lemma {:induction false} SubLedgerHidesTheImport(key: string)
    ensures var s := Store([], [Import(5, Queued, None, None, None, None)], []);
      var subs := [SubLedger(1, 5, "Savings", Addition)];
      var txns := [P.Parsed(7, 10000, "KES", In, "", Some(10000), key)];
      && FreshAccount(s, 0) && DistinctKeys(txns)
      && StatedClosing(txns) == Some(10000)
      && Shown(Process(s, subs, 0, Flat(P.Ok(txns))), subs, 5, 7) == 0
  {
    var s := Store([], [Import(5, Queued, None, None, None, None)], []);
    var sub := SubLedger(1, 5, "Savings", Addition);
    var txns := [P.Parsed(7, 10000, "KES", In, "", Some(10000), key)];
    assert sub in [sub];
    SubLedgersHideFlatImports(s, [sub], 0, txns, 7);
    B.SubLedgersAddUp([], [sub], 5, Anchors(s.imports, 5), AnchorsOfSubs([]), 7);
    SumOfOne(sub, B.Share([], 5, AnchorsOfSubs([]), 7));
  }
}
