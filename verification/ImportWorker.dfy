/** app/worker.py and the writes of app/repositories/transactions.py and
    statement_imports.py it performs. */
module ImportWorker {
  import opened Basics
  import opened Sums
  import opened Tables
  import P = ParserBase
  import M = MentorSacco
  import B = BookBalance

  type Parsed = P.Parsed

  datatype Reason = NoParser | ParserRefused(why: P.Failure) | NoSelection | MissingSection(name: string) | Unexpected

  datatype Status = Queued | Done | Failed

  datatype Import = Import(
    account: Id,
    status: Status,
    period: Option<(Date, Date)>,
    rowCount: Option<nat>,
    opening: Option<(Cents, Date)>,
    error: Option<Reason>)

  /** A sub-ledger chosen at upload time, with the opening balance recorded for it later. */
  datatype Selection = Selection(importId: Id, subLedger: Id, opening: Option<(Cents, Date)>)

  /** An import's id is its position: imports are kept in order of creation. */
  datatype Store = Store(table: seq<Stored>, imports: seq<Import>, selections: seq<Selection>)

  /** What fetching the file and running the provider's parser led to. */
  datatype Parse =
    | Unsupported
    | Flat(rows: P.Outcome<seq<Parsed>>)
    | Sectioned(sections: P.Outcome<seq<M.SubLedgerStatement>>)

  // ---- insert ... on conflict do nothing ----

  predicate HasKey(table: seq<Stored>, account: Id, key: string) {
    exists i :: 0 <= i < |table| && table[i].account == account && table[i].key == Some(key)
  }

  function StoredOf(account: Id, importId: Id, sub: Option<Id>, t: Parsed): Stored {
    Stored(account, sub, Some(importId), t.date, t.amount, t.currency, t.dir, t.description,
           t.balanceAfter, Some(t.key))
  }

  function InsertOne(table: seq<Stored>, account: Id, importId: Id, sub: Option<Id>, t: Parsed): seq<Stored> {
    if HasKey(table, account, t.key) then table else table + [StoredOf(account, importId, sub, t)]
  }

  function InsertAll(table: seq<Stored>, account: Id, importId: Id, sub: Option<Id>, txns: seq<Parsed>): seq<Stored> {
    if txns == [] then table
    else
      InsertOne(InsertAll(table, account, importId, sub, txns[..|txns| - 1]), account, importId, sub,
                txns[|txns| - 1])
  }

  /** The rows that were already there, or came earlier in the same file. */
  function Skipped(table: seq<Stored>, account: Id, txns: seq<Parsed>): seq<Parsed> {
    if txns == [] then []
    else
      var front, last := txns[..|txns| - 1], txns[|txns| - 1];
      if HasKey(table, account, last.key) || exists i :: 0 <= i < |front| && front[i].key == last.key
      then Skipped(table, account, front) + [last]
      else Skipped(table, account, front)
  }

  ghost predicate UniqueKeys(table: seq<Stored>) {
    forall i, j :: 0 <= i < j < |table| && table[i].account == table[j].account && table[i].key.Some?
      ==> table[i].key != table[j].key
  }

  /** The keys stored for the account are the union of what was there and what came in; rows
      already stored are never touched; uniqueness is kept. */
  lemma {:induction false} InsertIsUnion(table: seq<Stored>, account: Id, importId: Id, sub: Option<Id>,
                                         txns: seq<Parsed>)
    ensures var after := InsertAll(table, account, importId, sub, txns);
      && table <= after
      && (forall k :: HasKey(after, account, k)
           <==> HasKey(table, account, k) || exists i :: 0 <= i < |txns| && txns[i].key == k)
      && (forall other, k :: other != account ==> (HasKey(after, other, k) <==> HasKey(table, other, k)))
      && (UniqueKeys(table) ==> UniqueKeys(after))
  {
    if txns != [] {
      var front, last := txns[..|txns| - 1], txns[|txns| - 1];
      InsertIsUnion(table, account, importId, sub, front);
      var before := InsertAll(table, account, importId, sub, front);
      InsertOneIsUnion(before, account, importId, sub, last);
      assert txns[|txns| - 1].key == last.key;
      assert forall i :: 0 <= i < |front| ==> front[i] == txns[i];
    }
  }

  lemma {:induction false} InsertOneIsUnion(table: seq<Stored>, account: Id, importId: Id, sub: Option<Id>, t: Parsed)
    ensures var after := InsertOne(table, account, importId, sub, t);
      && table <= after
      && (forall k :: HasKey(after, account, k) <==> HasKey(table, account, k) || k == t.key)
      && (forall other, k :: other != account ==> (HasKey(after, other, k) <==> HasKey(table, other, k)))
      && (UniqueKeys(table) ==> UniqueKeys(after))
  {
    var after := InsertOne(table, account, importId, sub, t);
    forall a, k
      ensures HasKey(after, a, k) <==> HasKey(table, a, k) || (a == account && k == t.key)
    {
      if HasKey(table, a, k) {
        var i :| 0 <= i < |table| && table[i].account == a && table[i].key == Some(k);
        assert after[i] == table[i];
      }
      if HasKey(after, a, k) {
        var i :| 0 <= i < |after| && after[i].account == a && after[i].key == Some(k);
        if i < |table| {
          assert table[i].account == a;
        }
      }
      if a == account && k == t.key && !HasKey(table, a, k) {
        assert after[|table|].account == a;
      }
    }
  }

  /** The row says what the parsed transaction said, filed under the account and sub-ledger of
      the import it came with. */
  ghost predicate StoredAs(row: Stored, account: Id, importId: Id, sub: Option<Id>, t: Parsed) {
    && row.account == account && row.subLedger == sub && row.importId == Some(importId)
    && row.date == t.date && row.amount == t.amount && row.currency == t.currency && row.dir == t.dir
    && row.description == t.description && row.balanceAfter == t.balanceAfter && row.key == Some(t.key)
  }

  /** Every new row is the first in the batch to carry its key, and carries it unchanged. */
  lemma {:induction false} FirstWriterIsKept(table: seq<Stored>, account: Id, importId: Id, sub: Option<Id>,
                                             txns: seq<Parsed>, r: nat)
    requires |table| <= r < |InsertAll(table, account, importId, sub, txns)|
    ensures exists i: nat ::
              && i < |txns|
              && StoredAs(InsertAll(table, account, importId, sub, txns)[r], account, importId, sub, txns[i])
              && !HasKey(table, account, txns[i].key)
              && forall j :: 0 <= j < i ==> txns[j].key != txns[i].key
  {
    var n := |txns| - 1;
    if n >= 0 {
      var front := txns[..n];
      var before := InsertAll(table, account, importId, sub, front);
      InsertIsUnion(table, account, importId, sub, front);
      if r < |before| {
        FirstWriterIsKept(table, account, importId, sub, front, r);
        var i: nat :| i < |front| && StoredAs(before[r], account, importId, sub, front[i])
          && !HasKey(table, account, front[i].key) && forall j :: 0 <= j < i ==> front[j].key != front[i].key;
        assert txns[i] == front[i] && forall j :: 0 <= j < i ==> txns[j] == front[j];
      } else {
        assert forall j :: 0 <= j < n ==> front[j] == txns[j];
        assert !HasKey(table, account, txns[n].key);
      }
    }
  }

  /** Nothing parsed goes missing: what is not inserted is skipped. */
  lemma {:induction false} InsertedPlusSkipped(table: seq<Stored>, account: Id, importId: Id, sub: Option<Id>,
                                               txns: seq<Parsed>)
    ensures |InsertAll(table, account, importId, sub, txns)| - |table| + |Skipped(table, account, txns)| == |txns|
  {
    if txns != [] {
      var front, last := txns[..|txns| - 1], txns[|txns| - 1];
      InsertedPlusSkipped(table, account, importId, sub, front);
      InsertIsUnion(table, account, importId, sub, front);
    }
  }

  /** Rows inserted for this account and sub-ledger are in the scope. */
  predicate Feeds(account: Id, sub: Option<Id>, scope: B.Scope) {
    match scope
    case Direct(a) => a == account && sub.None?
    case Sub(k) => sub == Some(k)
  }

  /** What a parsed row moves within the days from `since` to `until`. */
  function Within(since: Option<Date>, until: Date): Parsed -> int {
    (t: Parsed) => if B.OnOrAfter(t.date, since) && t.date <= until then P.Delta(t) else 0
  }

  lemma {:induction false} InsertOneMoves(table: seq<Stored>, account: Id, importId: Id, sub: Option<Id>, t: Parsed,
                                          scope: B.Scope, since: Option<Date>, until: Date)
    ensures B.Movements(InsertOne(table, account, importId, sub, t), scope, since, until)
      == B.Movements(table, scope, since, until)
         + if Feeds(account, sub, scope) && !HasKey(table, account, t.key) then Within(since, until)(t) else 0
  {
    if !HasKey(table, account, t.key) {
      assert (table + [StoredOf(account, importId, sub, t)])[..|table|] == table;
    }
  }

  lemma {:induction false} SkippedStep(table: seq<Stored>, account: Id, importId: Id, sub: Option<Id>,
                                       front: seq<Parsed>, t: Parsed, weight: Parsed -> int)
    ensures var before := InsertAll(table, account, importId, sub, front);
      SumOf(Skipped(table, account, front + [t]), weight)
      == SumOf(Skipped(table, account, front), weight) + if HasKey(before, account, t.key) then weight(t) else 0
  {
    InsertIsUnion(table, account, importId, sub, front);
    SumOfMore(Skipped(table, account, front), t, weight);
    assert (front + [t])[..|front|] == front;
  }

  /** What a list of rows gains a balance they belong to: its movements less those skipped. */
  function Gained(table: seq<Stored>, account: Id, txns: seq<Parsed>, since: Option<Date>, until: Date): int {
    SumOf(txns, Within(since, until)) - SumOf(Skipped(table, account, txns), Within(since, until))
  }

  lemma {:induction false} GainedStep(table: seq<Stored>, account: Id, importId: Id, sub: Option<Id>,
                                      front: seq<Parsed>, t: Parsed, since: Option<Date>, until: Date)
    ensures var before := InsertAll(table, account, importId, sub, front);
      Gained(table, account, front + [t], since, until)
      == Gained(table, account, front, since, until)
         + if HasKey(before, account, t.key) then 0 else Within(since, until)(t)
  {
    SumOfMore(front, t, Within(since, until));
    SkippedStep(table, account, importId, sub, front, t, Within(since, until));
  }

  /** The movements a balance gains, over any days, are those parsed less those skipped, and
      only the balance the rows belong to gains any. */
  lemma {:induction false} InsertedMovements(table: seq<Stored>, account: Id, importId: Id, sub: Option<Id>,
                                             txns: seq<Parsed>, scope: B.Scope, since: Option<Date>, until: Date)
    ensures B.Movements(InsertAll(table, account, importId, sub, txns), scope, since, until)
      == B.Movements(table, scope, since, until)
         + if Feeds(account, sub, scope) then Gained(table, account, txns, since, until) else 0
  {
    if txns != [] {
      var front, last := txns[..|txns| - 1], txns[|txns| - 1];
      InsertedMovements(table, account, importId, sub, front, scope, since, until);
      var before := InsertAll(table, account, importId, sub, front);
      InsertOneMoves(before, account, importId, sub, last, scope, since, until);
      GainedStep(table, account, importId, sub, front, last, since, until);
      assert front + [last] == txns;
    }
  }

  /** Inserting rows whose keys are all present changes nothing. */
  lemma {:induction false} InsertKnownIsIdle(table: seq<Stored>, account: Id, importId: Id, sub: Option<Id>,
                                             txns: seq<Parsed>)
    requires forall i :: 0 <= i < |txns| ==> HasKey(table, account, txns[i].key)
    ensures InsertAll(table, account, importId, sub, txns) == table
  {
    if txns != [] {
      var front := txns[..|txns| - 1];
      assert forall i :: 0 <= i < |front| ==> front[i] == txns[i];
      InsertKnownIsIdle(table, account, importId, sub, front);
    }
  }

  // ---- a single-account import ----

  function PeriodOf(txns: seq<Parsed>): Option<(Date, Date)> {
    if txns == [] then None else Some(P.StatementPeriod(txns))
  }

  function MarkParsed(i: Import, period: Option<(Date, Date)>, rowCount: nat, opening: Option<(Cents, Date)>): Import {
    i.(status := Done, period := period, rowCount := Some(rowCount), opening := opening)
  }

  function MarkFailed(i: Import, why: Reason): Import {
    i.(status := Failed, error := Some(why))
  }

  function WriteSingle(s: Store, id: Id, txns: seq<Parsed>): Store
    requires id < |s.imports|
  {
    var i := s.imports[id];
    s.(table := InsertAll(s.table, i.account, id, None, txns),
       imports := s.imports[id := MarkParsed(i, PeriodOf(txns), |txns|, P.DeriveOpeningBalance(txns))])
  }

  // ---- a sub-ledger import ----

  function FindSub(subs: seq<SubLedger>, id: Id): Option<SubLedger> {
    if subs == [] then None
    else if subs[|subs| - 1].id == id then Some(subs[|subs| - 1])
    else FindSub(subs[..|subs| - 1], id)
  }

  /** The sub-ledgers picked for this import at upload time. */
  function SelectedSubs(selections: seq<Selection>, subs: seq<SubLedger>, importId: Id): seq<SubLedger> {
    if selections == [] then []
    else
      var front, last := SelectedSubs(selections[..|selections| - 1], subs, importId), selections[|selections| - 1];
      var found := FindSub(subs, last.subLedger);
      if last.importId == importId && found.Some? then front + [found.value] else front
  }

  /** Transactions of all sections with the name, one section after the other. */
  function TxnsNamed(sections: seq<M.SubLedgerStatement>, name: string): seq<Parsed> {
    if sections == [] then []
    else
      var front, last := TxnsNamed(sections[..|sections| - 1], name), sections[|sections| - 1];
      if last.name == name then front + last.transactions else front
  }

  predicate HasSection(sections: seq<M.SubLedgerStatement>, name: string) {
    exists i :: 0 <= i < |sections| && sections[i].name == name
  }

  /** A sub-ledger with the rows that are to go to it. */
  datatype Group = Group(sub: Id, txns: seq<Parsed>)

  datatype Resolution = Resolved(groups: seq<Group>) | Missing(name: string)

  function Resolve(selected: seq<SubLedger>, sections: seq<M.SubLedgerStatement>): Resolution {
    if selected == [] then Resolved([])
    else
      var last := selected[|selected| - 1];
      match Resolve(selected[..|selected| - 1], sections)
      case Missing(name) => Missing(name)
      case Resolved(groups) =>
        if HasSection(sections, last.name) then Resolved(groups + [Group(last.id, TxnsNamed(sections, last.name))])
        else Missing(last.name)
  }

  function InsertGroups(table: seq<Stored>, account: Id, importId: Id, groups: seq<Group>): seq<Stored> {
    if groups == [] then table
    else
      var g := groups[|groups| - 1];
      InsertAll(InsertGroups(table, account, importId, groups[..|groups| - 1]), account, importId, Some(g.sub), g.txns)
  }

  function AllTxns(groups: seq<Group>): seq<Parsed> {
    if groups == [] then [] else AllTxns(groups[..|groups| - 1]) + groups[|groups| - 1].txns
  }

  function RecordOpening(selections: seq<Selection>, importId: Id, sub: Id, opening: (Cents, Date)): seq<Selection> {
    seq(|selections|, i requires 0 <= i < |selections| =>
      if selections[i].importId == importId && selections[i].subLedger == sub
      then selections[i].(opening := Some(opening)) else selections[i])
  }

  /** Each group with a first row records the opening that row implies. */
  function RecordOpenings(selections: seq<Selection>, importId: Id, groups: seq<Group>): seq<Selection> {
    if groups == [] then selections
    else
      var before := RecordOpenings(selections, importId, groups[..|groups| - 1]);
      var g := groups[|groups| - 1];
      match P.DeriveOpeningBalance(g.txns)
      case None => before
      case Some(opening) => RecordOpening(before, importId, g.sub, opening)
  }

  function WriteGroups(s: Store, id: Id, groups: seq<Group>): Store
    requires id < |s.imports|
  {
    var all := AllTxns(groups);
    Store(InsertGroups(s.table, s.imports[id].account, id, groups),
          s.imports[id := MarkParsed(s.imports[id], PeriodOf(all), |all|, None)],
          RecordOpenings(s.selections, id, groups))
  }

  // ---- the job ----

  /** How a job ends, as a state of the tables. Refusals leave every transaction alone. */
  function Fail(s: Store, id: Id, why: Reason): Store
    requires id < |s.imports|
  {
    s.(imports := s.imports[id := MarkFailed(s.imports[id], why)])
  }

  function Process(s: Store, subs: seq<SubLedger>, id: Id, parse: Parse): Store {
    if id >= |s.imports| then s
    else match parse
      case Unsupported => Fail(s, id, NoParser)
      case Flat(Ok(txns)) => WriteSingle(s, id, txns)
      case Flat(Refused(why)) => Fail(s, id, ParserRefused(why))
      case Flat(Crashed) => Fail(s, id, Unexpected)
      case Sectioned(Refused(why)) => Fail(s, id, ParserRefused(why))
      case Sectioned(Crashed) => Fail(s, id, Unexpected)
      case Sectioned(Ok(sections)) =>
        var selected := SelectedSubs(s.selections, subs, id);
        if selected == [] then Fail(s, id, NoSelection)
        else match Resolve(selected, sections)
          case Missing(name) => Fail(s, id, MissingSection(name))
          case Resolved(groups) => WriteGroups(s, id, groups)
  }

  // ---- a job that the database interrupts ----

  /** Writes a job makes when nothing goes wrong. Each is atomic by itself, and nothing holds
      them together: the insert, or one insert per group; the openings; the import's record. */
  function WritesNeeded(s: Store, subs: seq<SubLedger>, id: Id, parse: Parse): nat {
    match parse
    case Flat(Ok(_)) => 2
    case Sectioned(Ok(sections)) =>
      var selected := SelectedSubs(s.selections, subs, id);
      if selected == [] then 1
      else (match Resolve(selected, sections)
            case Missing(_) => 1
            case Resolved(groups) => |groups| + 2)
    case _ => 1
  }

  function Front(groups: seq<Group>, n: nat): seq<Group> {
    if n < |groups| then groups[..n] else groups
  }

  function SingleAfter(s: Store, id: Id, txns: seq<Parsed>, writes: nat): Store
    requires id < |s.imports|
  {
    if writes == 0 then s
    else if writes == 1 then s.(table := InsertAll(s.table, s.imports[id].account, id, None, txns))
    else WriteSingle(s, id, txns)
  }

  function GroupsAfter(s: Store, id: Id, groups: seq<Group>, writes: nat): Store
    requires id < |s.imports|
  {
    if writes <= |groups| then s.(table := InsertGroups(s.table, s.imports[id].account, id, Front(groups, writes)))
    else if writes == |groups| + 1 then WriteGroups(s, id, groups).(imports := s.imports)
    else WriteGroups(s, id, groups)
  }

  /** The tables once the first writes have gone through. */
  function AfterWrites(s: Store, subs: seq<SubLedger>, id: Id, parse: Parse, writes: nat): Store
    requires id < |s.imports|
  {
    match parse
    case Flat(Ok(txns)) => SingleAfter(s, id, txns, writes)
    case Sectioned(Ok(sections)) =>
      (match Resolve(SelectedSubs(s.selections, subs, id), sections)
       case Missing(_) => s
       case Resolved(groups) => GroupsAfter(s, id, groups, writes))
    case _ => s
  }

  /** A job of which `writes` writes go through before the database raises. The worker then
      tries to mark the import failed; `marked` says whether that goes through. */
  function ProcessUpTo(s: Store, subs: seq<SubLedger>, id: Id, parse: Parse, writes: nat, marked: bool): Store {
    if id >= |s.imports| then s
    else if writes >= WritesNeeded(s, subs, id, parse) then Process(s, subs, id, parse)
    else if marked then Fail(AfterWrites(s, subs, id, parse, writes), id, Unexpected)
    else AfterWrites(s, subs, id, parse, writes)
  }

  class Worker {
    var table: seq<Stored>
    var imports: seq<Import>
    var selections: seq<Selection>
    const subs: seq<SubLedger>

    constructor (subs: seq<SubLedger>)
      ensures Contents() == Store([], [], []) && this.subs == subs
    {
      table, imports, selections := [], [], [];
      this.subs := subs;
    }

    function Contents(): Store
      reads this
    {
      Store(table, imports, selections)
    }

    method InsertTransactions(account: Id, importId: Id, sub: Option<Id>, txns: seq<Parsed>) returns (inserted: nat)
      modifies this`table
      ensures table == InsertAll(old(table), account, importId, sub, txns)
      ensures inserted + |Skipped(old(table), account, txns)| == |txns|
    {
      inserted := 0;
      for i := 0 to |txns|
        invariant table == InsertAll(old(table), account, importId, sub, txns[..i])
        invariant |table| == |old(table)| + inserted
      {
        assert txns[..i + 1][..i] == txns[..i];
        if !HasKey(table, account, txns[i].key) {
          table := table + [StoredOf(account, importId, sub, txns[i])];
          inserted := inserted + 1;
        }
      }
      assert txns[..|txns|] == txns;
      InsertedPlusSkipped(old(table), account, importId, sub, txns);
    }

    /** The insert, then the record; `writes` of the two go through. */
    method WriteSingleAccountImport(id: Id, txns: seq<Parsed>, writes: nat) returns (raised: bool)
      requires id < |imports|
      modifies this
      ensures raised <==> writes < 2
      ensures Contents() == SingleAfter(old(Contents()), id, txns, writes)
    {
      if writes == 0 {
        return true;
      }
      var inserted := InsertTransactions(imports[id].account, id, None, txns);
      if writes == 1 {
        return true;
      }
      var period := PeriodOf(txns);
      var opening := P.DeriveOpeningBalance(txns);
      imports := imports[id := MarkParsed(imports[id], period, |txns|, opening)];
      return false;
    }

    /** Every selected sub-ledger with its rows, or the first name without a section. */
    method ResolveSelected(selected: seq<SubLedger>, sections: seq<M.SubLedgerStatement>) returns (r: Resolution)
      ensures r == Resolve(selected, sections)
    {
      var resolved: seq<Group> := [];
      for i := 0 to |selected|
        invariant Resolve(selected[..i], sections) == Resolved(resolved)
      {
        assert selected[..i + 1][..i] == selected[..i];
        if !HasSection(sections, selected[i].name) {
          MissingStays(selected, i + 1, sections);
          return Missing(selected[i].name);
        }
        resolved := resolved + [Group(selected[i].id, TxnsNamed(sections, selected[i].name))];
      }
      assert selected[..|selected|] == selected;
      return Resolved(resolved);
    }

    /** One insert per group, then the openings, then the record; `writes` go through. */
    method WriteResolved(id: Id, resolved: seq<Group>, writes: nat) returns (raised: bool)
      requires id < |imports|
      modifies this
      ensures raised <==> writes < |resolved| + 2
      ensures Contents() == GroupsAfter(old(Contents()), id, resolved, writes)
    {
      var account := imports[id].account;
      var all: seq<Parsed> := [];
      var openings: seq<(Id, (Cents, Date))> := [];
      for i := 0 to |resolved|
        invariant i <= writes
        invariant table == InsertGroups(old(table), account, id, resolved[..i])
        invariant imports == old(imports) && selections == old(selections)
        invariant all == AllTxns(resolved[..i])
        invariant ApplyOpenings(selections, id, openings) == RecordOpenings(selections, id, resolved[..i])
      {
        assert resolved[..i + 1][..i] == resolved[..i];
        if writes == i {
          return true;
        }
        var g := resolved[i];
        var inserted := InsertTransactions(account, id, Some(g.sub), g.txns);
        all := all + g.txns;
        var opening := P.DeriveOpeningBalance(g.txns);
        if opening.Some? {
          assert (openings + [(g.sub, opening.value)])[..|openings|] == openings;
          openings := openings + [(g.sub, opening.value)];
        }
      }
      assert resolved[..|resolved|] == resolved;
      if writes == |resolved| {
        return true;
      }
      if openings != [] {
        selections := ApplyOpenings(selections, id, openings);
      }
      if writes == |resolved| + 1 {
        return true;
      }
      imports := imports[id := MarkParsed(imports[id], PeriodOf(all), |all|, None)];
      return false;
    }

    /** Resolves every selected sub-ledger before anything is written. */
    method WriteSubLedgerImport(id: Id, sections: seq<M.SubLedgerStatement>, writes: nat)
      returns (error: Option<Reason>, raised: bool)
      requires id < |imports|
      modifies this
      ensures var selected := SelectedSubs(old(selections), subs, id);
        if selected == [] then error == Some(NoSelection) && !raised && Contents() == old(Contents())
        else match Resolve(selected, sections)
          case Missing(name) => error == Some(MissingSection(name)) && !raised && Contents() == old(Contents())
          case Resolved(groups) =>
            && error == None && (raised <==> writes < |groups| + 2)
            && Contents() == GroupsAfter(old(Contents()), id, groups, writes)
    {
      var selected := SelectedSubs(selections, subs, id);
      if selected == [] {
        return Some(NoSelection), false;
      }
      var resolution := ResolveSelected(selected, sections);
      match resolution {
        case Missing(name) => return Some(MissingSection(name)), false;
        case Resolved(groups) =>
          raised := WriteResolved(id, groups, writes);
          error := None;
      }
    }

    /** A refusal is recorded by one write; an exception, the database's included, ends in an
        attempt to mark the import failed. */
    method ProcessJob(id: Id, parse: Parse, writes: nat, marked: bool)
      modifies this
      ensures Contents() == ProcessUpTo(old(Contents()), subs, id, parse, writes, marked)
    {
      if id >= |imports| {
        return;
      }
      var failure: Option<Reason> := None;
      var raised := false;
      match parse {
        case Unsupported => failure := Some(NoParser);
        case Flat(Ok(txns)) => raised := WriteSingleAccountImport(id, txns, writes);
        case Flat(Refused(why)) => failure := Some(ParserRefused(why));
        case Flat(Crashed) => failure := Some(Unexpected);
        case Sectioned(Ok(sections)) => failure, raised := WriteSubLedgerImport(id, sections, writes);
        case Sectioned(Refused(why)) => failure := Some(ParserRefused(why));
        case Sectioned(Crashed) => failure := Some(Unexpected);
      }
      if failure.Some? {
        if writes == 0 {
          raised := true;
        } else {
          imports := imports[id := MarkFailed(imports[id], failure.value)];
        }
      }
      if raised && marked {
        imports := imports[id := MarkFailed(imports[id], Unexpected)];
      }
    }
  }

  function ApplyOpenings(selections: seq<Selection>, importId: Id, openings: seq<(Id, (Cents, Date))>): seq<Selection> {
    if openings == [] then selections
    else
      var (sub, opening) := openings[|openings| - 1];
      RecordOpening(ApplyOpenings(selections, importId, openings[..|openings| - 1]), importId, sub, opening)
  }

  lemma {:induction false} MissingStays(selected: seq<SubLedger>, n: nat, sections: seq<M.SubLedgerStatement>)
    requires n <= |selected| && Resolve(selected[..n], sections).Missing?
    ensures Resolve(selected, sections) == Resolve(selected[..n], sections)
    decreases |selected| - n
  {
    if n == |selected| {
      assert selected[..n] == selected;
    } else {
      assert selected[..n + 1][..n] == selected[..n];
      MissingStays(selected, n + 1, sections);
    }
  }

  // ---- putting groups together ----

  lemma {:induction false} InsertGroupsAppend(table: seq<Stored>, account: Id, importId: Id, a: seq<Group>,
                                              b: seq<Group>)
    ensures InsertGroups(table, account, importId, a + b)
      == InsertGroups(InsertGroups(table, account, importId, a), account, importId, b)
  {
    if b == [] {
      assert a + b == a;
    } else {
      InsertGroupsAppend(table, account, importId, a, b[..|b| - 1]);
      assert (a + b)[..|a + b| - 1] == a + b[..|b| - 1];
    }
  }

  // ---- what a job guarantees ----

  /** A job whose writes all go through ends its import as parsed or as failed. If failed, by a
      refusal, a parser crash or a selection that does not resolve, it has written no
      transaction and no opening balance. */
  lemma {:induction false} FailureWritesNothing(s: Store, subs: seq<SubLedger>, id: Id, parse: Parse)
    requires id < |s.imports|
    ensures var after := Process(s, subs, id, parse);
      && |after.imports| == |s.imports|
      && (after.imports[id].status.Failed? ==> after.table == s.table && after.selections == s.selections)
      && (after.imports[id].status.Done? || after.imports[id].status.Failed?)
      && (forall other :: 0 <= other < |s.imports| && other != id ==> after.imports[other] == s.imports[other])
  {
  }

  lemma {:induction false} GroupsAreUnion(table: seq<Stored>, account: Id, importId: Id, groups: seq<Group>)
    ensures var after := InsertGroups(table, account, importId, groups);
      && table <= after
      && (forall k :: HasKey(after, account, k) <==> HasKey(table, account, k) || CarriesKey(AllTxns(groups), k))
      && (forall other, k :: other != account ==> (HasKey(after, other, k) <==> HasKey(table, other, k)))
      && (UniqueKeys(table) ==> UniqueKeys(after))
  {
    if groups != [] {
      var front, g := groups[..|groups| - 1], groups[|groups| - 1];
      GroupsAreUnion(table, account, importId, front);
      InsertIsUnion(InsertGroups(table, account, importId, front), account, importId, Some(g.sub), g.txns);
      forall k
        ensures CarriesKey(AllTxns(groups), k) <==> CarriesKey(AllTxns(front), k) || CarriesKey(g.txns, k)
      {
        CarriesKeyAppend(AllTxns(front), g.txns, k);
      }
    }
  }

  ghost predicate CarriesKey(txns: seq<Parsed>, k: string) {
    exists i :: 0 <= i < |txns| && txns[i].key == k
  }

  lemma {:induction false} CarriesKeyAppend(a: seq<Parsed>, b: seq<Parsed>, k: string)
    ensures CarriesKey(a + b, k) <==> CarriesKey(a, k) || CarriesKey(b, k)
  {
    if CarriesKey(a + b, k) {
      var i :| 0 <= i < |a + b| && (a + b)[i].key == k;
      assert i >= |a| ==> b[i - |a|].key == k;
    }
    if CarriesKey(a, k) {
      var i :| 0 <= i < |a| && a[i].key == k;
      assert (a + b)[i].key == k;
    }
    if CarriesKey(b, k) {
      var i :| 0 <= i < |b| && b[i].key == k;
      assert (a + b)[|a| + i].key == k;
    }
  }

  lemma {:induction false} FrontAndRest(groups: seq<Group>, n: nat)
    ensures Front(groups, n) + groups[|Front(groups, n)|..] == groups
  {
  }

  lemma {:induction false} FrontIsPrefix(table: seq<Stored>, account: Id, importId: Id, groups: seq<Group>, n: nat)
    ensures table <= InsertGroups(table, account, importId, Front(groups, n))
                  <= InsertGroups(table, account, importId, groups)
  {
    var front, rest := Front(groups, n), groups[|Front(groups, n)|..];
    FrontAndRest(groups, n);
    InsertGroupsAppend(table, account, importId, front, rest);
    GroupsAreUnion(table, account, importId, front);
    GroupsAreUnion(InsertGroups(table, account, importId, front), account, importId, rest);
  }

  lemma {:induction false} GroupsAfterTable(s: Store, id: Id, groups: seq<Group>, writes: nat)
    requires id < |s.imports|
    ensures GroupsAfter(s, id, groups, writes).table
      == InsertGroups(s.table, s.imports[id].account, id, Front(groups, writes))
  {
  }

  /** An interrupted job leaves a beginning of what it would have written, nothing of anyone
      else's, and a record that is as it was or marked failed: so a failed import may well
      have left transactions behind. */
  lemma {:induction false} InterruptedJob(s: Store, subs: seq<SubLedger>, id: Id, parse: Parse, writes: nat,
                                          marked: bool)
    requires id < |s.imports| && writes < WritesNeeded(s, subs, id, parse)
    ensures var after := ProcessUpTo(s, subs, id, parse, writes, marked);
      && s.table <= after.table <= Process(s, subs, id, parse).table
      && after.imports == (if marked then s.imports[id := MarkFailed(s.imports[id], Unexpected)] else s.imports)
      && (after.selections == s.selections || after.selections == Process(s, subs, id, parse).selections)
      && (writes == 0 ==> after.table == s.table && after.selections == s.selections)
  {
    var account := s.imports[id].account;
    match parse {
      case Flat(Ok(txns)) => InsertIsUnion(s.table, account, id, None, txns);
      case Sectioned(Ok(sections)) =>
        var selected := SelectedSubs(s.selections, subs, id);
        if selected != [] && Resolve(selected, sections).Resolved? {
          FrontIsPrefix(s.table, account, id, Resolve(selected, sections).groups, writes);
        }
      case _ =>
    }
  }

  /** A new row came from one of the groups and sits under that group's sub-ledger. */
  ghost predicate ComesFrom(row: Stored, account: Id, importId: Id, groups: seq<Group>) {
    exists g, t :: 0 <= g < |groups| && 0 <= t < |groups[g].txns|
      && StoredAs(row, account, importId, Some(groups[g].sub), groups[g].txns[t])
  }

  lemma {:induction false} NewRowsComeFromTheirGroup(table: seq<Stored>, account: Id, importId: Id,
                                                     groups: seq<Group>, r: nat)
    requires |table| <= r < |InsertGroups(table, account, importId, groups)|
    ensures ComesFrom(InsertGroups(table, account, importId, groups)[r], account, importId, groups)
  {
    if groups != [] {
      var n := |groups| - 1;
      var front, g := groups[..n], groups[n];
      var before := InsertGroups(table, account, importId, front);
      InsertIsUnion(before, account, importId, Some(g.sub), g.txns);
      if r < |before| {
        NewRowsComeFromTheirGroup(table, account, importId, front, r);
        var k, t :| 0 <= k < |front| && 0 <= t < |front[k].txns|
          && StoredAs(before[r], account, importId, Some(front[k].sub), front[k].txns[t]);
        assert groups[k] == front[k];
      } else {
        FirstWriterIsKept(before, account, importId, Some(g.sub), g.txns, r);
        assert groups[n] == g;
      }
    }
  }

  lemma {:induction false} ResolvedGroups(selected: seq<SubLedger>, sections: seq<M.SubLedgerStatement>)
    requires Resolve(selected, sections).Resolved?
    ensures var groups := Resolve(selected, sections).groups;
      && |groups| == |selected|
      && forall i :: 0 <= i < |groups| ==> groups[i] == Group(selected[i].id, TxnsNamed(sections, selected[i].name))
  {
    if selected != [] {
      ResolvedGroups(selected[..|selected| - 1], sections);
    }
  }

  predicate Covers(period: Option<(Date, Date)>, date: Date) {
    period.Some? && period.value.0 <= date <= period.value.1
  }

  /** A sub-ledger import that goes through: every selected sub-ledger's transactions are
      stored for the account afterwards; each row added is one of them, under the sub-ledger
      whose section it stood in; the import counts all of them and its period bounds all. */
  lemma {:induction false} SubLedgerImportIsComplete(s: Store, subs: seq<SubLedger>, id: Id,
                                                     sections: seq<M.SubLedgerStatement>)
    requires id < |s.imports|
    requires var selected := SelectedSubs(s.selections, subs, id);
      selected != [] && Resolve(selected, sections).Resolved?
    ensures var selected := SelectedSubs(s.selections, subs, id);
      var groups := Resolve(selected, sections).groups;
      var account := s.imports[id].account;
      var after := Process(s, subs, id, Sectioned(P.Ok(sections)));
      && |groups| == |selected|
      && (forall i :: 0 <= i < |selected| ==>
           groups[i] == Group(selected[i].id, TxnsNamed(sections, selected[i].name)))
      && (forall k :: CarriesKey(AllTxns(groups), k) ==> HasKey(after.table, account, k))
      && s.table <= after.table
      && (forall r :: |s.table| <= r < |after.table| ==> ComesFrom(after.table[r], account, id, groups))
      && after.imports[id].rowCount == Some(|AllTxns(groups)|)
      && (forall t :: t in AllTxns(groups) ==> Covers(after.imports[id].period, t.date))
  {
    var selected := SelectedSubs(s.selections, subs, id);
    var groups := Resolve(selected, sections).groups;
    var account := s.imports[id].account;
    ResolvedGroups(selected, sections);
    GroupsAreUnion(s.table, account, id, groups);
    forall r | |s.table| <= r < |InsertGroups(s.table, account, id, groups)|
      ensures ComesFrom(InsertGroups(s.table, account, id, groups)[r], account, id, groups)
    {
      NewRowsComeFromTheirGroup(s.table, account, id, groups, r);
    }
  }
}
