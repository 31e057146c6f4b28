/** Sub-ledger imports from the file to the balance on screen: which opening is recorded when
    a name heads several sections, and what the sub-ledger's balance then comes to. */
module SubLedgerRuns {
  import opened Basics
  import opened Sums
  import opened Tables
  import P = ParserBase
  import D = BalanceDeltas
  import M = MentorSacco
  import B = BookBalance
  import opened ImportWorker
  import opened ImportRuns

  type Section = M.SubLedgerStatement

  /** The first section of that name that holds any row at all. */
  function FirstFilled(sections: seq<Section>, name: string): (r: Option<Section>)
    ensures r.Some? ==> r.value in sections && r.value.name == name && r.value.transactions != []
  {
    if sections == [] then None
    else
      var front, last := FirstFilled(sections[..|sections| - 1], name), sections[|sections| - 1];
      if front.Some? then front
      else if last.name == name && last.transactions != [] then Some(last)
      else None
  }

  function OpeningOf(section: Option<Section>): Option<(Cents, Date)> {
    if section.None? || section.value.transactions == [] then None
    else Some((section.value.opening, section.value.transactions[0].date))
  }

  /** What the statement parser promises of its sections. */
  ghost predicate OpeningsHold(sections: seq<Section>) {
    forall s :: s in sections && s.transactions != [] ==> P.DeriveOpeningBalance(s.transactions) == OpeningOf(Some(s))
  }

  lemma {:induction false} ParsedOpeningsHold(lines: seq<M.Line>, fp: string -> D.Fingerprint)
    ensures OpeningsHold(M.SectionsOf(M.Blocks(lines), fp))
  {
    var blocks := M.Blocks(lines);
    forall s | s in M.SectionsOf(blocks, fp) && s.transactions != []
      ensures P.DeriveOpeningBalance(s.transactions) == OpeningOf(Some(s))
    {
      var i :| 0 <= i < |blocks| && M.SectionsOf(blocks, fp)[i] == s;
      M.SectionIsSound(blocks[i], fp(blocks[i].name));
    }
  }

  /** Sections merged under one name keep only the first filled one's opening. */
  lemma {:induction false} OpeningOfMerged(sections: seq<Section>, name: string)
    requires OpeningsHold(sections)
    ensures P.DeriveOpeningBalance(TxnsNamed(sections, name)) == OpeningOf(FirstFilled(sections, name))
    ensures TxnsNamed(sections, name) == [] <==> FirstFilled(sections, name).None?
  {
    if sections != [] {
      var front, last := sections[..|sections| - 1], sections[|sections| - 1];
      assert sections == front + [last];
      OpeningOfMerged(front, name);
      var earlier := TxnsNamed(front, name);
      if earlier == [] {
        assert earlier + last.transactions == last.transactions;
      } else {
        assert (earlier + last.transactions)[0] == earlier[0];
      }
    }
  }

  // ---- which groups a selection leads to ----

  lemma {:induction false} FoundHasId(subs: seq<SubLedger>, id: Id)
    ensures FindSub(subs, id).Some? ==> FindSub(subs, id).value.id == id
  {
    if subs != [] {
      FoundHasId(subs[..|subs| - 1], id);
    }
  }

  lemma {:induction false} SelectedAreFound(selections: seq<Selection>, subs: seq<SubLedger>, importId: Id)
    ensures forall x :: x in SelectedSubs(selections, subs, importId) ==> FindSub(subs, x.id) == Some(x)
  {
    if selections != [] {
      SelectedAreFound(selections[..|selections| - 1], subs, importId);
      FoundHasId(subs, selections[|selections| - 1].subLedger);
    }
  }

  lemma {:induction false} PickedIsSelected(selections: seq<Selection>, subs: seq<SubLedger>, importId: Id, i: nat)
    requires i < |selections| && selections[i].importId == importId && FindSub(subs, selections[i].subLedger).Some?
    ensures FindSub(subs, selections[i].subLedger).value in SelectedSubs(selections, subs, importId)
  {
    if i < |selections| - 1 {
      PickedIsSelected(selections[..|selections| - 1], subs, importId, i);
    }
  }

  lemma {:induction false} OpeningForGroups(groups: seq<Group>, sub: Id, opening: Option<(Cents, Date)>)
    requires forall g :: g in groups && g.sub == sub ==> P.DeriveOpeningBalance(g.txns) == opening
    ensures OpeningFor(groups, sub) == if exists g :: g in groups && g.sub == sub then opening else None
  {
    if groups != [] {
      var front, last := groups[..|groups| - 1], groups[|groups| - 1];
      assert groups == front + [last];
      OpeningForGroups(front, sub, opening);
    }
  }

  /** Selection i of this import, for a sub-ledger that is called sub.name. */
  ghost predicate Picks(s: Store, subs: seq<SubLedger>, id: Id, i: nat, sub: SubLedger) {
    && id < |s.imports| && i < |s.selections|
    && s.selections[i].importId == id && FindSub(subs, s.selections[i].subLedger) == Some(sub)
  }

  ghost predicate GoesThrough(s: Store, subs: seq<SubLedger>, id: Id, sections: seq<Section>) {
    Resolve(SelectedSubs(s.selections, subs, id), sections).Resolved?
  }

  lemma {:induction false} GroupOf(s: Store, subs: seq<SubLedger>, id: Id, sections: seq<Section>, i: nat,
                                   sub: SubLedger)
    requires Picks(s, subs, id, i, sub) && GoesThrough(s, subs, id, sections)
    ensures var groups := Resolve(SelectedSubs(s.selections, subs, id), sections).groups;
      && sub.id == s.selections[i].subLedger
      && Group(sub.id, TxnsNamed(sections, sub.name)) in groups
      && forall g :: g in groups && g.sub == sub.id ==> g.txns == TxnsNamed(sections, sub.name)
  {
    var selected := SelectedSubs(s.selections, subs, id);
    var groups := Resolve(selected, sections).groups;
    FoundHasId(subs, s.selections[i].subLedger);
    SelectedAreFound(s.selections, subs, id);
    PickedIsSelected(s.selections, subs, id, i);
    ResolvedGroups(selected, sections);
    var k :| 0 <= k < |selected| && selected[k] == sub;
    assert groups[k] in groups;
    forall g | g in groups && g.sub == sub.id
      ensures g.txns == TxnsNamed(sections, sub.name)
    {
      var m :| 0 <= m < |groups| && groups[m] == g;
      assert selected[m] in selected && FindSub(subs, sub.id) == Some(selected[m]);
    }
  }

  /** A sub-ledger import that goes through records, for every sub-ledger picked, the opening
      its first filled section reported; a name whose sections are all empty keeps what it
      had. */
  lemma {:induction false} FirstSectionOpens(s: Store, subs: seq<SubLedger>, id: Id, sections: seq<Section>, i: nat,
                                             sub: SubLedger)
    requires OpeningsHold(sections) && Picks(s, subs, id, i, sub) && GoesThrough(s, subs, id, sections)
    ensures var after := Process(s, subs, id, Sectioned(P.Ok(sections)));
      var first := FirstFilled(sections, sub.name);
      && |after.selections| == |s.selections|
      && after.selections[i]
         == s.selections[i].(opening := if first.Some? then OpeningOf(first) else s.selections[i].opening)
  {
    var groups := Resolve(SelectedSubs(s.selections, subs, id), sections).groups;
    PickedIsSelected(s.selections, subs, id, i);
    GroupOf(s, subs, id, sections, i, sub);
    OpeningOfMerged(sections, sub.name);
    OpeningForGroups(groups, sub.id, OpeningOf(FirstFilled(sections, sub.name)));
    RecordedOpenings(s.selections, id, groups);
  }

  // ---- what the sub-ledger's balance comes to ----

  lemma {:induction false} OneAnchorOffered(selections: seq<Selection>, sub: Id, a: Anchor)
    requires forall j :: 0 <= j < |selections| && selections[j].subLedger == sub && selections[j].opening.Some? ==>
               selections[j].opening.value == (a.opening, a.date)
    ensures forall x :: x in SubAnchors(selections, sub) ==> x == a
    ensures forall j :: 0 <= j < |selections| && selections[j].subLedger == sub && selections[j].opening.Some? ==>
              a in SubAnchors(selections, sub)
  {
    if selections != [] {
      OneAnchorOffered(selections[..|selections| - 1], sub, a);
    }
  }

  /** What the groups gain one sub-ledger in some days, each inserted after the ones before it. */
  function GroupsGained(table: seq<Stored>, account: Id, id: Id, groups: seq<Group>, sub: Id, since: Option<Date>,
                        until: Date): int {
    if groups == [] then 0
    else
      var front, g := groups[..|groups| - 1], groups[|groups| - 1];
      GroupsGained(table, account, id, front, sub, since, until)
        + if g.sub == sub then Gained(InsertGroups(table, account, id, front), account, g.txns, since, until) else 0
  }

  lemma {:induction false} GroupsMove(table: seq<Stored>, account: Id, id: Id, groups: seq<Group>, sub: Id,
                                      since: Option<Date>, until: Date)
    ensures B.Movements(InsertGroups(table, account, id, groups), B.Sub(sub), since, until)
      == B.Movements(table, B.Sub(sub), since, until) + GroupsGained(table, account, id, groups, sub, since, until)
  {
    if groups != [] {
      var front, g := groups[..|groups| - 1], groups[|groups| - 1];
      GroupsMove(table, account, id, front, sub, since, until);
      InsertedMovements(InsertGroups(table, account, id, front), account, id, Some(g.sub), g.txns, B.Sub(sub),
                        since, until);
    }
  }

  /** All that stands on the sub-ledger in those days once the upload is in: what was there,
      and what the upload gained it. */
  function Standing(s: Store, subs: seq<SubLedger>, id: Id, sections: seq<Section>, sub: Id, since: Date,
                    asOf: Date): int
    requires id < |s.imports|
  {
    B.Movements(s.table, B.Sub(sub), Some(since), asOf)
    + GroupsGained(s.table, s.imports[id].account, id, GroupsToWrite(s, subs, id, sections), sub, Some(since), asOf)
  }

  function AfterUpload(s: Store, subs: seq<SubLedger>, id: Id, sections: seq<Section>): Store {
    Process(s, subs, id, Sectioned(P.Ok(sections)))
  }

  /** The balance of one sub-ledger. */
  function SubBalance(s: Store, sub: Id, asOf: Date): Cents {
    B.ScopeBalance(s.table, B.Sub(sub), SubAnchors(s.selections, sub), asOf)
  }

  /** The upload picks the sub-ledger, `first` is its first filled section, and that section's
      opening is the one in force on the day asked about. */
  ghost predicate Opens(s: Store, subs: seq<SubLedger>, id: Id, sections: seq<Section>, sub: SubLedger,
                        first: Section, asOf: Date) {
    && (exists i: nat :: Picks(s, subs, id, i, sub))
    && GoesThrough(s, subs, id, sections)
    && FirstFilled(sections, sub.name) == Some(first) && first.transactions != []
    && B.Newest(SubAnchors(AfterUpload(s, subs, id, sections).selections, sub.id), asOf)
       == Some(Anchor(first.opening, first.transactions[0].date))
  }

  lemma {:induction false} ThroughWrites(s: Store, subs: seq<SubLedger>, id: Id, sections: seq<Section>, sub: SubLedger)
    requires (exists i: nat :: Picks(s, subs, id, i, sub)) && GoesThrough(s, subs, id, sections)
    ensures id < |s.imports|
    ensures AfterUpload(s, subs, id, sections).table
      == InsertGroups(s.table, s.imports[id].account, id, GroupsToWrite(s, subs, id, sections))
  {
    var i: nat :| Picks(s, subs, id, i, sub);
    PickedIsSelected(s.selections, subs, id, i);
  }

  /** Any upload, the first for a sub-ledger or a later one, with or without duplicates, over
      any dates: on a day on which this upload's opening is in force the sub-ledger shows that
      opening plus all that stands on it from the opening's day on. */
  lemma {:induction false} SubLedgerShowsItsSections(s: Store, subs: seq<SubLedger>, id: Id, sections: seq<Section>,
                                                     sub: SubLedger, first: Section, asOf: Date)
    requires Opens(s, subs, id, sections, sub, first, asOf)
    ensures id < |s.imports|
    ensures SubBalance(AfterUpload(s, subs, id, sections), sub.id, asOf)
      == first.opening + Standing(s, subs, id, sections, sub.id, first.transactions[0].date, asOf)
  {
    ThroughWrites(s, subs, id, sections, sub);
    GroupsMove(s.table, s.imports[id].account, id, GroupsToWrite(s, subs, id, sections), sub.id,
               Some(first.transactions[0].date), asOf);
  }

  // ---- a first, clean upload ----

  /** The weight of everything the groups hold for one sub-ledger. */
  function GroupsWeigh(groups: seq<Group>, sub: Id, w: Parsed -> int): int {
    if groups == [] then 0
    else
      var g := groups[|groups| - 1];
      GroupsWeigh(groups[..|groups| - 1], sub, w) + if g.sub == sub then SumOf(g.txns, w) else 0
  }

  lemma {:induction false} OneGroupWeighs(groups: seq<Group>, sub: Id, txns: seq<Parsed>, w: Parsed -> int)
    requires forall i, j :: 0 <= i < j < |groups| ==> groups[i].sub != groups[j].sub
    requires forall g :: g in groups && g.sub == sub ==> g.txns == txns
    ensures GroupsWeigh(groups, sub, w) == if exists g :: g in groups && g.sub == sub then SumOf(txns, w) else 0
  {
    if groups != [] {
      var front, last := groups[..|groups| - 1], groups[|groups| - 1];
      assert groups == front + [last];
      OneGroupWeighs(front, sub, txns, w);
      forall g | g in front
        ensures g.sub != last.sub
      {
        var i :| 0 <= i < |front| && front[i] == g;
        assert groups[i].sub != groups[|front|].sub;
      }
    }
  }

  /** Nothing in the file is a duplicate, of the account's rows or of another row in it. */
  ghost predicate AllNew(table: seq<Stored>, account: Id, txns: seq<Parsed>) {
    DistinctKeys(txns) && forall i :: 0 <= i < |txns| ==> !HasKey(table, account, txns[i].key)
  }

  lemma {:induction false} NewFront(table: seq<Stored>, account: Id, front: seq<Parsed>, back: seq<Parsed>)
    requires AllNew(table, account, front + back)
    ensures AllNew(table, account, front)
  {
    assert forall i :: 0 <= i < |front| ==> front[i] == (front + back)[i];
  }

  lemma {:induction false} NewBack(table: seq<Stored>, account: Id, front: seq<Parsed>, back: seq<Parsed>)
    requires AllNew(table, account, front + back)
    ensures AllNew(table, account, back)
    ensures forall i :: 0 <= i < |back| ==> !CarriesKey(front, back[i].key)
  {
    var all := front + back;
    assert forall i :: 0 <= i < |front| ==> front[i] == all[i];
    assert forall i :: 0 <= i < |back| ==> back[i] == all[|front| + i];
  }

  lemma {:induction false} NewInParts(table: seq<Stored>, account: Id, id: Id, front: seq<Group>, g: Group)
    requires AllNew(table, account, AllTxns(front) + g.txns)
    ensures AllNew(table, account, AllTxns(front))
    ensures AllNew(InsertGroups(table, account, id, front), account, g.txns)
  {
    NewFront(table, account, AllTxns(front), g.txns);
    NewBack(table, account, AllTxns(front), g.txns);
    GroupsAreUnion(table, account, id, front);
  }

  lemma {:induction false} NewGroupsGainAll(table: seq<Stored>, account: Id, id: Id, groups: seq<Group>, sub: Id,
                                            since: Option<Date>, until: Date)
    requires AllNew(table, account, AllTxns(groups))
    ensures GroupsGained(table, account, id, groups, sub, since, until)
      == GroupsWeigh(groups, sub, Within(since, until))
  {
    if groups != [] {
      var front, g := groups[..|groups| - 1], groups[|groups| - 1];
      NewInParts(table, account, id, front, g);
      NewGroupsGainAll(table, account, id, front, sub, since, until);
      DistinctKeysSkipNothing(InsertGroups(table, account, id, front), account, g.txns);
    }
  }

  lemma {:induction false} NothingThereYet(table: seq<Stored>, sub: Id, since: Option<Date>, until: Date)
    requires forall i :: 0 <= i < |table| ==> table[i].subLedger != Some(sub)
    ensures B.Movements(table, B.Sub(sub), since, until) == 0
  {
    if table != [] {
      NothingThereYet(table[..|table| - 1], sub, since, until);
    }
  }

  /** The sub-ledger is new: no rows, and no other import has recorded an opening for it. */
  ghost predicate FreshSub(s: Store, id: Id, sub: Id) {
    && (forall i :: 0 <= i < |s.table| ==> s.table[i].subLedger != Some(sub))
    && (forall j :: 0 <= j < |s.selections| && s.selections[j].subLedger == sub && s.selections[j].importId != id ==>
         s.selections[j].opening.None?)
  }

  /** Picked sub-ledgers differ, as the selection table's key demands. */
  ghost predicate PicksDiffer(selected: seq<SubLedger>) {
    forall i, j :: 0 <= i < j < |selected| ==> selected[i].id != selected[j].id
  }

  /** An upload of a sub-ledger statement that goes through and repeats nothing, with
      selection i picking the new sub-ledger `sub`. */
  ghost predicate CleanUpload(s: Store, subs: seq<SubLedger>, id: Id, sections: seq<Section>, i: nat, sub: SubLedger) {
    && Picks(s, subs, id, i, sub) && GoesThrough(s, subs, id, sections) && FreshSub(s, id, sub.id)
    && PicksDiffer(SelectedSubs(s.selections, subs, id))
    && AllNew(s.table, s.imports[id].account, AllTxns(Resolve(SelectedSubs(s.selections, subs, id), sections).groups))
  }

  lemma {:induction false} FreshSubOpens(s: Store, subs: seq<SubLedger>, id: Id, sections: seq<Section>, i: nat,
                                         sub: SubLedger, first: Section, asOf: Date)
    requires OpeningsHold(sections) && Picks(s, subs, id, i, sub) && GoesThrough(s, subs, id, sections)
    requires FreshSub(s, id, sub.id) && FirstFilled(sections, sub.name) == Some(first)
    requires first.transactions != [] && first.transactions[0].date <= asOf
    ensures Opens(s, subs, id, sections, sub, first, asOf)
  {
    var after := AfterUpload(s, subs, id, sections);
    var a := Anchor(first.opening, first.transactions[0].date);
    var groups := Resolve(SelectedSubs(s.selections, subs, id), sections).groups;
    GroupOf(s, subs, id, sections, i, sub);
    PickedIsSelected(s.selections, subs, id, i);
    RecordedOpenings(s.selections, id, groups);
    FirstSectionOpens(s, subs, id, sections, i, sub);
    forall j |
      0 <= j < |after.selections| && after.selections[j].subLedger == sub.id && after.selections[j].opening.Some?
      ensures after.selections[j].opening.value == (a.opening, a.date)
    {
      if s.selections[j].importId == id {
        FirstSectionOpens(s, subs, id, sections, j, sub);
      }
    }
    OneAnchorOffered(after.selections, sub.id, a);
    B.NewestApplies(SubAnchors(after.selections, sub.id), asOf);
  }

  lemma {:induction false} GroupsDiffer(selected: seq<SubLedger>, sections: seq<Section>)
    requires PicksDiffer(selected) && Resolve(selected, sections).Resolved?
    ensures var groups := Resolve(selected, sections).groups;
      forall i, j :: 0 <= i < j < |groups| ==> groups[i].sub != groups[j].sub
  {
    ResolvedGroups(selected, sections);
  }

  /** On a new sub-ledger stands what its sections book in those days. */
  lemma {:induction false} CleanStanding(s: Store, subs: seq<SubLedger>, id: Id, sections: seq<Section>, i: nat,
                                         sub: SubLedger, since: Date, asOf: Date)
    requires CleanUpload(s, subs, id, sections, i, sub)
    ensures Standing(s, subs, id, sections, sub.id, since, asOf)
      == SumOf(TxnsNamed(sections, sub.name), Within(Some(since), asOf))
  {
    var groups := Resolve(SelectedSubs(s.selections, subs, id), sections).groups;
    PickedIsSelected(s.selections, subs, id, i);
    GroupOf(s, subs, id, sections, i, sub);
    GroupsDiffer(SelectedSubs(s.selections, subs, id), sections);
    NewGroupsGainAll(s.table, s.imports[id].account, id, groups, sub.id, Some(since), asOf);
    OneGroupWeighs(groups, sub.id, TxnsNamed(sections, sub.name), Within(Some(since), asOf));
    NothingThereYet(s.table, sub.id, Some(since), asOf);
  }

  lemma {:induction false} NewSubLedgerShowsItsSections(s: Store, subs: seq<SubLedger>, id: Id,
                                                        sections: seq<Section>, i: nat, sub: SubLedger,
                                                        first: Section, asOf: Date)
    requires OpeningsHold(sections) && CleanUpload(s, subs, id, sections, i, sub)
    requires FirstFilled(sections, sub.name) == Some(first) && first.transactions != []
    requires first.transactions[0].date <= asOf
    ensures SubBalance(AfterUpload(s, subs, id, sections), sub.id, asOf)
      == first.opening + SumOf(TxnsNamed(sections, sub.name), Within(Some(first.transactions[0].date), asOf))
  {
    FreshSubOpens(s, subs, id, sections, i, sub, first, asOf);
    SubLedgerShowsItsSections(s, subs, id, sections, sub, first, asOf);
    CleanStanding(s, subs, id, sections, i, sub, first.transactions[0].date, asOf);
  }

  // ---- sections merged under one name ----

  /** Openings, and closing balances, of all filled sections of a name together. */
  function OpeningTotal(sections: seq<Section>, name: string): Cents {
    if sections == [] then 0
    else
      var last := sections[|sections| - 1];
      OpeningTotal(sections[..|sections| - 1], name)
        + if last.name == name && last.transactions != [] then last.opening else 0
  }

  function ClosingTotal(sections: seq<Section>, name: string): Cents {
    if sections == [] then 0
    else
      var last := sections[|sections| - 1];
      ClosingTotal(sections[..|sections| - 1], name)
        + if last.name == name && last.transactions != [] then last.opening + P.Net(last.transactions) else 0
  }

  lemma {:induction false} MergedTotals(sections: seq<Section>, name: string)
    ensures ClosingTotal(sections, name) == OpeningTotal(sections, name) + P.Net(TxnsNamed(sections, name))
  {
    if sections != [] {
      var front, last := sections[..|sections| - 1], sections[|sections| - 1];
      MergedTotals(front, name);
      SumOfAppend(TxnsNamed(front, name), last.transactions, P.Delta);
    }
  }

  /** Any upload: how far the sub-ledger's balance is from the closing balances of all its
      sections together. It lacks the openings of the sections after the first, and it differs
      by whatever stands on it beside the sections' own rows or is missing of them. */
  lemma {:induction false} MergedSectionsGap(s: Store, subs: seq<SubLedger>, id: Id, sections: seq<Section>,
                                             sub: SubLedger, first: Section, asOf: Date)
    requires Opens(s, subs, id, sections, sub, first, asOf)
    ensures id < |s.imports|
    ensures SubBalance(AfterUpload(s, subs, id, sections), sub.id, asOf) - ClosingTotal(sections, sub.name)
      == first.opening - OpeningTotal(sections, sub.name)
         + Standing(s, subs, id, sections, sub.id, first.transactions[0].date, asOf)
         - P.Net(TxnsNamed(sections, sub.name))
  {
    SubLedgerShowsItsSections(s, subs, id, sections, sub, first, asOf);
    MergedTotals(sections, sub.name);
  }

  /** Two separate balance sequences under one name, on a new sub-ledger: it shows their
      combined closing balance exactly when the openings of the later sections, and the rows
      dated before the first section's first row or after the day asked about, cancel out. */
  lemma {:induction false} MergedSectionsAgree(s: Store, subs: seq<SubLedger>, id: Id, sections: seq<Section>, i: nat,
                                               sub: SubLedger, first: Section, asOf: Date)
    requires OpeningsHold(sections) && CleanUpload(s, subs, id, sections, i, sub)
    requires FirstFilled(sections, sub.name) == Some(first) && first.transactions != []
    requires first.transactions[0].date <= asOf
    ensures SubBalance(AfterUpload(s, subs, id, sections), sub.id, asOf) == ClosingTotal(sections, sub.name)
      <==> OpeningTotal(sections, sub.name) - first.opening
           + Outside(TxnsNamed(sections, sub.name), first.transactions[0].date, asOf) == 0
  {
    NewSubLedgerShowsItsSections(s, subs, id, sections, i, sub, first, asOf);
    MergedTotals(sections, sub.name);
  }

  // ---- one section under a name ----

  ghost predicate OnlySection(sections: seq<Section>, name: string, k: nat) {
    && k < |sections| && sections[k].name == name && sections[k].transactions != []
    && forall j :: 0 <= j < |sections| && sections[j].name == name ==> j == k
  }

  lemma {:induction false} OnlyOneNamed(sections: seq<Section>, name: string, k: nat)
    requires OnlySection(sections, name, k)
    ensures TxnsNamed(sections, name) == sections[k].transactions
    ensures FirstFilled(sections, name) == Some(sections[k])
  {
    var n := |sections| - 1;
    if k < n {
      OnlyOneNamed(sections[..n], name, k);
    } else {
      NoneNamed(sections[..n], name);
      assert [] + sections[k].transactions == sections[k].transactions;
    }
  }

  lemma {:induction false} NoneNamed(sections: seq<Section>, name: string)
    requires forall j :: 0 <= j < |sections| ==> sections[j].name != name
    ensures TxnsNamed(sections, name) == [] && FirstFilled(sections, name).None?
  {
    if sections != [] {
      NoneNamed(sections[..|sections| - 1], name);
    }
  }

  lemma {:induction false} ClosesWhereItEnds(b: M.Block, fp: D.Fingerprint)
    requires M.SectionOf(b, fp).transactions != []
    ensures var s := M.SectionOf(b, fp);
      s.transactions[|s.transactions| - 1].balanceAfter == Some(s.opening + P.Net(s.transactions))
  {
    var txns := M.SectionOf(b, fp).transactions;
    M.SectionIsSound(b, fp);
    assert txns[..|txns| - 1 + 1] == txns;
  }

  /** What the statement parser promises of where its sections end. */
  ghost predicate SectionsClose(sections: seq<Section>) {
    forall s :: s in sections && s.transactions != [] ==>
      s.transactions[|s.transactions| - 1].balanceAfter == Some(s.opening + P.Net(s.transactions))
  }

  lemma {:induction false} ParsedSectionsClose(lines: seq<M.Line>, fp: string -> D.Fingerprint)
    ensures SectionsClose(M.SectionsOf(M.Blocks(lines), fp))
  {
    var blocks := M.Blocks(lines);
    var sections := M.SectionsOf(blocks, fp);
    forall s | s in sections && s.transactions != []
      ensures s.transactions[|s.transactions| - 1].balanceAfter == Some(s.opening + P.Net(s.transactions))
    {
      var k :| 0 <= k < |blocks| && sections[k] == s;
      ClosesWhereItEnds(blocks[k], fp(blocks[k].name));
    }
  }

  /** Last balance printed in the first filled section of the name. */
  function LastPrinted(sections: seq<Section>, name: string): Cents {
    var first := FirstFilled(sections, name);
    if first.None? then 0
    else
      var txns := first.value.transactions;
      if txns[|txns| - 1].balanceAfter.Some? then txns[|txns| - 1].balanceAfter.value else 0
  }

  /** What the sub-ledger shows beyond, or short of, its section's own rows. */
  function Miss(s: Store, subs: seq<SubLedger>, id: Id, sections: seq<Section>, sub: SubLedger, asOf: Date): int
    requires id < |s.imports|
  {
    var first := FirstFilled(sections, sub.name);
    if first.None? then 0
    else Standing(s, subs, id, sections, sub.id, first.value.transactions[0].date, asOf)
         - P.Net(TxnsNamed(sections, sub.name))
  }

  /** Any upload with one section under the sub-ledger's name: the sub-ledger shows the last
      balance printed in it, but for what else stands on it from that section's first day on
      and what of the section does not. */
  lemma {:induction false} SubLedgerShowsItsLastBalance(s: Store, subs: seq<SubLedger>, id: Id,
                                                        sections: seq<Section>, sub: SubLedger, k: nat, asOf: Date)
    requires SectionsClose(sections) && OnlySection(sections, sub.name, k)
    requires Opens(s, subs, id, sections, sub, sections[k], asOf)
    ensures id < |s.imports|
    ensures SubBalance(AfterUpload(s, subs, id, sections), sub.id, asOf)
      == LastPrinted(sections, sub.name) + Miss(s, subs, id, sections, sub, asOf)
  {
    OnlyOneNamed(sections, sub.name, k);
    assert sections[k] in sections;
    SubLedgerShowsItsSections(s, subs, id, sections, sub, sections[k], asOf);
  }

  /** On a new sub-ledger, nothing being repeated, it misses only the rows dated outside the
      days from its first row to the day asked about. */
  lemma {:induction false} NewSubLedgerMisses(s: Store, subs: seq<SubLedger>, id: Id, sections: seq<Section>, i: nat,
                                              sub: SubLedger, k: nat, asOf: Date)
    requires CleanUpload(s, subs, id, sections, i, sub) && OnlySection(sections, sub.name, k)
    ensures Miss(s, subs, id, sections, sub, asOf)
      == -Outside(sections[k].transactions, sections[k].transactions[0].date, asOf)
  {
    OnlyOneNamed(sections, sub.name, k);
    CleanStanding(s, subs, id, sections, i, sub, sections[k].transactions[0].date, asOf);
  }

  // ---- the whole account ----

  ghost predicate Picked(s: Store, id: Id, sub: Id) {
    exists i :: 0 <= i < |s.selections| && s.selections[i].importId == id && s.selections[i].subLedger == sub
  }

  /** One section of the upload opens the sub-ledger. */
  ghost predicate OpensAlone(s: Store, subs: seq<SubLedger>, id: Id, sections: seq<Section>, sub: SubLedger,
                             asOf: Date) {
    exists k: nat :: OnlySection(sections, sub.name, k) && Opens(s, subs, id, sections, sub, sections[k], asOf)
  }

  function AsMarked(sub: SubLedger, amount: int): int {
    if sub.treatment.Addition? then amount else -amount
  }

  /** What a sub-ledger should show after the upload: the last balance printed for it, with
      what it misses; or, not having been picked, what it showed before. */
  ghost function ShareAfter(s: Store, subs: seq<SubLedger>, id: Id, sections: seq<Section>,
                            asOf: Date): SubLedger -> int
    requires id < |s.imports|
  {
    (sub: SubLedger) =>
      if sub.account != s.imports[id].account then 0
      else if Picked(s, id, sub.id)
      then AsMarked(sub, LastPrinted(sections, sub.name) + Miss(s, subs, id, sections, sub, asOf))
      else AsMarked(sub, SubBalance(s, sub.id, asOf))
  }

  lemma {:induction false} SubAnchorsSame(a: seq<Selection>, b: seq<Selection>, sub: Id)
    requires |a| == |b|
    requires forall i :: 0 <= i < |a| ==>
               a[i].subLedger == b[i].subLedger && (a[i].subLedger == sub ==> a[i] == b[i])
    ensures SubAnchors(a, sub) == SubAnchors(b, sub)
  {
    if a != [] {
      SubAnchorsSame(a[..|a| - 1], b[..|b| - 1], sub);
    }
  }

  lemma {:induction false} SelectedWerePicked(s: Store, subs: seq<SubLedger>, selections: seq<Selection>, id: Id,
                                              x: SubLedger)
    requires selections <= s.selections && x in SelectedSubs(selections, subs, id)
    ensures Picked(s, id, x.id)
  {
    if selections != [] {
      var n := |selections| - 1;
      FoundHasId(subs, selections[n].subLedger);
      assert selections[n] == s.selections[n];
      if x in SelectedSubs(selections[..n], subs, id) {
        SelectedWerePicked(s, subs, selections[..n], id, x);
      }
    }
  }

  lemma {:induction false} NotPickedGainsNothing(table: seq<Stored>, account: Id, id: Id, groups: seq<Group>, sub: Id,
                                                 since: Option<Date>, until: Date)
    requires forall g :: g in groups ==> g.sub != sub
    ensures GroupsGained(table, account, id, groups, sub, since, until) == 0
  {
    if groups != [] {
      assert groups[|groups| - 1] in groups;
      NotPickedGainsNothing(table, account, id, groups[..|groups| - 1], sub, since, until);
    }
  }

  /** A sub-ledger that was not picked shows what it showed. */
  lemma {:induction false} NotPickedStays(s: Store, subs: seq<SubLedger>, id: Id, sections: seq<Section>, sub: Id,
                                          asOf: Date)
    requires id < |s.imports| && !Picked(s, id, sub)
    ensures SubBalance(AfterUpload(s, subs, id, sections), sub, asOf) == SubBalance(s, sub, asOf)
  {
    var groups := GroupsToWrite(s, subs, id, sections);
    var selected := SelectedSubs(s.selections, subs, id);
    var since := B.Since(B.Newest(SubAnchors(s.selections, sub), asOf));
    if selected != [] && Resolve(selected, sections).Resolved? {
      ResolvedGroups(selected, sections);
      forall g | g in groups
        ensures g.sub != sub
      {
        var k :| 0 <= k < |groups| && groups[k] == g;
        SelectedWerePicked(s, subs, s.selections, id, selected[k]);
      }
      OpeningsKeepFrame(s.selections, id, groups);
      SubAnchorsSame(s.selections, RecordOpenings(s.selections, id, groups), sub);
      GroupsMove(s.table, s.imports[id].account, id, groups, sub, since, asOf);
      NotPickedGainsNothing(s.table, s.imports[id].account, id, groups, sub, since, asOf);
    }
  }

  lemma {:induction false} PickedShows(s: Store, subs: seq<SubLedger>, id: Id, sections: seq<Section>, sub: SubLedger,
                                       asOf: Date)
    requires SectionsClose(sections) && OpensAlone(s, subs, id, sections, sub, asOf)
    ensures id < |s.imports|
    ensures SubBalance(AfterUpload(s, subs, id, sections), sub.id, asOf)
      == LastPrinted(sections, sub.name) + Miss(s, subs, id, sections, sub, asOf)
  {
    var k: nat :| OnlySection(sections, sub.name, k) && Opens(s, subs, id, sections, sub, sections[k], asOf);
    SubLedgerShowsItsLastBalance(s, subs, id, sections, sub, k, asOf);
  }

  /** Any upload of a sub-ledger statement, each sub-ledger picked having one section and that
      section's opening in force: the account shows, added or subtracted as marked, the last
      balances printed for the sub-ledgers picked, each with what it misses, and the other
      sub-ledgers as they were. */
  lemma {:induction false} AccountShowsLastBalances(s: Store, subs: seq<SubLedger>, id: Id, lines: seq<M.Line>,
                                                    fp: string -> D.Fingerprint, asOf: Date)
    requires id < |s.imports| && !Undivided(subs, s.imports[id].account)
    requires forall sub :: sub in subs && sub.account == s.imports[id].account && Picked(s, id, sub.id) ==>
               OpensAlone(s, subs, id, M.SectionsOf(M.Blocks(lines), fp), sub, asOf)
    ensures var sections := M.SectionsOf(M.Blocks(lines), fp);
      Shown(AfterUpload(s, subs, id, sections), subs, s.imports[id].account, asOf)
      == SumOf(subs, ShareAfter(s, subs, id, sections, asOf))
  {
    var sections := M.SectionsOf(M.Blocks(lines), fp);
    ParsedSectionsClose(lines, fp);
    SharesAfter(s, subs, id, sections, asOf);
  }

  lemma {:induction false} ShareIsMarked(s: Store, sub: SubLedger, asOf: Date)
    ensures B.Share(s.table, sub.account, AnchorsOfSubs(s.selections), asOf)(sub)
      == AsMarked(sub, SubBalance(s, sub.id, asOf))
  {
  }

  lemma {:induction false} OneShareAfter(s: Store, subs: seq<SubLedger>, id: Id, sections: seq<Section>,
                                         sub: SubLedger, asOf: Date)
    requires SectionsClose(sections) && id < |s.imports| && sub.account == s.imports[id].account
    requires Picked(s, id, sub.id) ==> OpensAlone(s, subs, id, sections, sub, asOf)
    ensures AsMarked(sub, SubBalance(AfterUpload(s, subs, id, sections), sub.id, asOf))
      == ShareAfter(s, subs, id, sections, asOf)(sub)
  {
    if Picked(s, id, sub.id) {
      PickedShows(s, subs, id, sections, sub, asOf);
    } else {
      NotPickedStays(s, subs, id, sections, sub.id, asOf);
    }
  }

  lemma {:induction false} SharesAfter(s: Store, subs: seq<SubLedger>, id: Id, sections: seq<Section>, asOf: Date)
    requires SectionsClose(sections) && id < |s.imports| && !Undivided(subs, s.imports[id].account)
    requires forall sub :: sub in subs && sub.account == s.imports[id].account && Picked(s, id, sub.id) ==>
               OpensAlone(s, subs, id, sections, sub, asOf)
    ensures Shown(AfterUpload(s, subs, id, sections), subs, s.imports[id].account, asOf)
      == SumOf(subs, ShareAfter(s, subs, id, sections, asOf))
  {
    var account := s.imports[id].account;
    var after := AfterUpload(s, subs, id, sections);
    var share := B.Share(after.table, account, AnchorsOfSubs(after.selections), asOf);
    B.SubLedgersAddUp(after.table, subs, account, Anchors(after.imports, account),
                      AnchorsOfSubs(after.selections), asOf);
    forall sub | sub in subs
      ensures share(sub) == ShareAfter(s, subs, id, sections, asOf)(sub)
    {
      if sub.account == account {
        ShareIsMarked(after, sub, asOf);
        OneShareAfter(s, subs, id, sections, sub, asOf);
      }
    }
    SumOfCongruent(subs, share, ShareAfter(s, subs, id, sections, asOf));
  }

  // ---- two loans under one name ----

  function LoanRow(date: Date, amount: Cents, balance: Cents, key: string): Parsed {
    P.Parsed(date, amount, "KES", In, "", Some(balance), key)
  }

  /** A loan that went from 0.00 to 1.00 on day d1, and another that opened at `opening` and
      grew by `amount` on day d2. */
  function TwoLoans(d1: Date, d2: Date, opening: Cents, amount: Cents, k1: string, k2: string): seq<Section> {
    [M.SubLedgerStatement("Instant Loan", 0, [LoanRow(d1, 100, 100, k1)]),
     M.SubLedgerStatement("Instant Loan", opening, [LoanRow(d2, amount, opening + amount, k2)])]
  }

  const LOAN := SubLedger(1, 5, "Instant Loan", Addition)

  const LOAN_UPLOAD := Store([], [Import(5, Queued, None, None, None, None)], [Selection(0, 1, None)])

  lemma {:induction false} LoansNamed(a: Section, b: Section, x: Parsed, y: Parsed)
    requires a.name == b.name == LOAN.name && a.transactions == [x] && b.transactions == [y]
    ensures TxnsNamed([a, b], LOAN.name) == [x, y]
    ensures FirstFilled([a, b], LOAN.name) == Some(a)
    ensures OpeningTotal([a, b], LOAN.name) == a.opening + b.opening
  {
    var sections := [a, b];
    assert sections[..1] == [a] && [a][..0] == [];
    assert TxnsNamed([a], LOAN.name) == [x];
    assert [x] + [y] == [x, y];
    assert FirstFilled([a], LOAN.name) == Some(a);
    assert OpeningTotal([a], LOAN.name) == a.opening;
  }

  lemma {:induction false} LoanSelected()
    ensures SelectedSubs(LOAN_UPLOAD.selections, [LOAN], 0) == [LOAN]
  {
    var selection := Selection(0, 1, None);
    assert [selection][..0] == [] && [LOAN][..0] == [];
    assert FindSub([LOAN], 1) == Some(LOAN);
  }

  lemma {:induction false} LoanResolved(sections: seq<Section>)
    requires HasSection(sections, LOAN.name)
    ensures Resolve([LOAN], sections) == Resolved([Group(1, TxnsNamed(sections, LOAN.name))])
  {
    assert [LOAN][..0] == [];
    assert Resolve([], sections) == Resolved([]);
  }

  lemma {:induction false} TxnsOfOneGroup(g: Group)
    ensures AllTxns([g]) == g.txns
  {
    assert [g][..0] == [];
  }

  lemma {:induction false} LoanUploadIsClean(sections: seq<Section>)
    requires HasSection(sections, LOAN.name) && DistinctKeys(TxnsNamed(sections, LOAN.name))
    ensures CleanUpload(LOAN_UPLOAD, [LOAN], 0, sections, 0, LOAN)
  {
    LoanSelected();
    LoanResolved(sections);
    TxnsOfOneGroup(Group(1, TxnsNamed(sections, LOAN.name)));
    assert [LOAN][..0] == [];
  }

  lemma {:induction false} LoanIsTheAccount(after: Store, asOf: Date)
    ensures Shown(after, [LOAN], 5, asOf) == SubBalance(after, 1, asOf)
  {
    assert LOAN in [LOAN];
    B.SubLedgersAddUp(after.table, [LOAN], 5, Anchors(after.imports, 5), AnchorsOfSubs(after.selections), asOf);
    SumOfOne(LOAN, B.Share(after.table, 5, AnchorsOfSubs(after.selections), asOf));
  }

  lemma {:induction false} LoansFit(d1: Date, d2: Date, opening: Cents, amount: Cents, k1: string, k2: string)
    requires k1 != k2
    ensures var sections := TwoLoans(d1, d2, opening, amount, k1, k2);
      && OpeningsHold(sections)
      && CleanUpload(LOAN_UPLOAD, [LOAN], 0, sections, 0, LOAN)
      && FirstFilled(sections, LOAN.name) == Some(sections[0])
      && TxnsNamed(sections, LOAN.name) == [LoanRow(d1, 100, 100, k1), LoanRow(d2, amount, opening + amount, k2)]
      && OpeningTotal(sections, LOAN.name) == opening
  {
    var sections := TwoLoans(d1, d2, opening, amount, k1, k2);
    assert sections[0].name == LOAN.name;
    LoansNamed(sections[0], sections[1], LoanRow(d1, 100, 100, k1), LoanRow(d2, amount, opening + amount, k2));
    LoanUploadIsClean(sections);
  }

  /** What the account shows, and what the two loans come to. */
  lemma {:induction false} LoansShow(d1: Date, d2: Date, opening: Cents, amount: Cents, k1: string, k2: string,
                                     asOf: Date)
    requires k1 != k2 && d1 <= asOf
    ensures var sections := TwoLoans(d1, d2, opening, amount, k1, k2);
      && Shown(AfterUpload(LOAN_UPLOAD, [LOAN], 0, sections), [LOAN], 5, asOf)
         == 100 + (if d1 <= d2 <= asOf then amount else 0)
      && ClosingTotal(sections, LOAN.name) == 100 + opening + amount
  {
    var sections := TwoLoans(d1, d2, opening, amount, k1, k2);
    var x, y := LoanRow(d1, 100, 100, k1), LoanRow(d2, amount, opening + amount, k2);
    LoansFit(d1, d2, opening, amount, k1, k2);
    NewSubLedgerShowsItsSections(LOAN_UPLOAD, [LOAN], 0, sections, 0, LOAN, sections[0], asOf);
    LoanIsTheAccount(AfterUpload(LOAN_UPLOAD, [LOAN], 0, sections), asOf);
    MergedTotals(sections, LOAN.name);
    SumOfTwo(x, y, P.Delta);
    SumOfTwo(x, y, Within(Some(d1), asOf));
  }

  lemma {:induction false} SumOfTwo(x: Parsed, y: Parsed, w: Parsed -> int)
    ensures SumOf([x, y], w) == w(x) + w(y)
  {
    SumOfOne(x, w);
    SumOfMore([x], y, w);
    assert [x] + [y] == [x, y];
  }

  /** A loan to 1.00, then one from 0.50 to 0.60, under one name: the account shows 1.10 where
      the closing balances come to 1.60, the second opening being lost. */
  lemma {:induction false} TwoLoansAreOff(k1: string, k2: string)
    requires k1 != k2
    ensures var sections := TwoLoans(1, 2, 50, 10, k1, k2);
      && Shown(AfterUpload(LOAN_UPLOAD, [LOAN], 0, sections), [LOAN], 5, 2) == 110
      && ClosingTotal(sections, LOAN.name) == 160
  {
    LoansShow(1, 2, 50, 10, k1, k2, 2);
  }

  /** A loan to 1.00 on day 10, listed before one from 0.00 to 0.50 on day 2: the account shows
      1.00 where the closing balances come to 1.50, although the second opened at zero. */
  lemma {:induction false} EarlierLoanIsLost(k1: string, k2: string)
    requires k1 != k2
    ensures var sections := TwoLoans(10, 2, 0, 50, k1, k2);
      && OpeningTotal(sections, LOAN.name) == sections[0].opening
      && Shown(AfterUpload(LOAN_UPLOAD, [LOAN], 0, sections), [LOAN], 5, 10) == 100
      && ClosingTotal(sections, LOAN.name) == 150
  {
    var sections := TwoLoans(10, 2, 0, 50, k1, k2);
    LoansShow(10, 2, 0, 50, k1, k2, 10);
    LoansFit(10, 2, 0, 50, k1, k2);
  }
}
