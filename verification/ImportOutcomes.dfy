/** How a job ends, from the import, the file and what was picked at upload: app/worker.py,
    process_job and the two writers, without the interruptions. */
module ImportOutcomes {
  import opened Basics
  import opened Tables
  import opened ImportWorker
  import P = ParserBase
  import M = MentorSacco

  /** Sub-ledgers are identified by their ids. */
  ghost predicate IdsDiffer(subs: seq<SubLedger>) {
    forall i, j :: 0 <= i < j < |subs| ==> subs[i].id != subs[j].id
  }

  /** Place i of the selections picks this sub-ledger for the import. */
  ghost predicate PicksAt(selections: seq<Selection>, subs: seq<SubLedger>, id: Id, i: nat, sub: SubLedger) {
    i < |selections| && selections[i].importId == id && selections[i].subLedger == sub.id && sub in subs
  }

  ghost predicate Found(sections: seq<M.SubLedgerStatement>, name: string) {
    exists k :: 0 <= k < |sections| && sections[k].name == name
  }

  lemma {:induction false} FoundById(subs: seq<SubLedger>, id: Id)
    ensures match FindSub(subs, id)
            case None => forall sub :: sub in subs ==> sub.id != id
            case Some(sub) => sub in subs && sub.id == id
    ensures IdsDiffer(subs) ==> forall sub :: sub in subs && sub.id == id ==> FindSub(subs, id) == Some(sub)
  {
    if subs != [] {
      var n := |subs| - 1;
      FoundById(subs[..n], id);
      assert subs == subs[..n] + [subs[n]];
    }
  }

  /** The known sub-ledger that each place picks for the import, if it does. */
  function PickAt(selections: seq<Selection>, subs: seq<SubLedger>, id: Id): nat -> Option<SubLedger> {
    (i: nat) =>
      if i < |selections| && selections[i].importId == id then FindSub(subs, selections[i].subLedger) else None
  }

  lemma {:induction false} SelectedPlaces(selections: seq<Selection>, subs: seq<SubLedger>, id: Id)
    returns (places: seq<nat>)
    ensures Lists(SelectedSubs(selections, subs, id), PickAt(selections, subs, id), places)
  {
    places := [];
    if selections != [] {
      var n := |selections| - 1;
      var front := selections[..n];
      places := SelectedPlaces(front, subs, id);
      ListsMore(SelectedSubs(front, subs, id), PickAt(front, subs, id), PickAt(selections, subs, id), places, n);
      if PickAt(selections, subs, id)(n).Some? {
        places := places + [n];
      }
    }
  }

  /** places are where the selected sub-ledgers were picked, all of them and in that order. */
  ghost predicate PickedAt(selections: seq<Selection>, subs: seq<SubLedger>, id: Id, selected: seq<SubLedger>,
                           places: seq<nat>) {
    && |places| == |selected|
    && (forall k :: 0 <= k < |places| ==> PicksAt(selections, subs, id, places[k], selected[k]))
    && (forall j, k :: 0 <= j < k < |places| ==> places[j] < places[k])
    && forall i: nat, sub :: PicksAt(selections, subs, id, i, sub) ==> i in places
  }

  /** The sub-ledgers a job works through: those picked for its import, in the order picked. */
  lemma {:induction false} SelectedInOrder(selections: seq<Selection>, subs: seq<SubLedger>, id: Id)
    returns (places: seq<nat>)
    requires IdsDiffer(subs)
    ensures PickedAt(selections, subs, id, SelectedSubs(selections, subs, id), places)
  {
    places := SelectedPlaces(selections, subs, id);
    var selected := SelectedSubs(selections, subs, id);
    var at := PickAt(selections, subs, id);
    forall k | 0 <= k < |places|
      ensures PicksAt(selections, subs, id, places[k], selected[k])
    {
      assert at(places[k]) == Some(selected[k]);
      FoundById(subs, selections[places[k]].subLedger);
    }
    forall i: nat, sub | PicksAt(selections, subs, id, i, sub)
      ensures i in places
    {
      FoundById(subs, sub.id);
      assert at(i).Some?;
    }
  }

  lemma {:induction false} PickIsSelected(selections: seq<Selection>, subs: seq<SubLedger>, id: Id,
                                          selected: seq<SubLedger>, places: seq<nat>, i: nat, sub: SubLedger)
    returns (k: nat)
    requires IdsDiffer(subs) && PickedAt(selections, subs, id, selected, places)
    requires PicksAt(selections, subs, id, i, sub)
    ensures k < |selected| && places[k] == i && selected[k] == sub
  {
    k :| 0 <= k < |places| && places[k] == i;
    assert PicksAt(selections, subs, id, places[k], selected[k]);
    FoundById(subs, sub.id);
  }

  /** A name stands for the rows of every section of that name, end to end in file order. */
  lemma {:induction false} NamedTogether(sections: seq<M.SubLedgerStatement>, name: string)
    ensures TxnsNamed(sections, name) == Flatten(Filter(sections, (s: M.SubLedgerStatement) => s.name == name),
                                                 (s: M.SubLedgerStatement) => s.transactions)
  {
    if sections != [] {
      var n := |sections| - 1;
      NamedTogether(sections[..n], name);
      var front := Filter(sections[..n], (s: M.SubLedgerStatement) => s.name == name);
      assert (front + [sections[n]])[..|front|] == front;
    }
  }

  lemma {:induction false} ResolvesExactlyWhen(selected: seq<SubLedger>, sections: seq<M.SubLedgerStatement>)
    ensures match Resolve(selected, sections)
            case Resolved(_) => forall k :: 0 <= k < |selected| ==> Found(sections, selected[k].name)
            case Missing(name) =>
              exists k :: 0 <= k < |selected| && selected[k].name == name && !Found(sections, name)
                && forall j :: 0 <= j < k ==> Found(sections, selected[j].name)
  {
    if selected != [] {
      var n := |selected| - 1;
      ResolvesExactlyWhen(selected[..n], sections);
      assert HasSection(sections, selected[n].name) == Found(sections, selected[n].name);
      if Resolve(selected[..n], sections).Missing? {
        var k :| 0 <= k < n && selected[..n][k].name == Resolve(selected[..n], sections).name
          && !Found(sections, selected[..n][k].name)
          && forall j :: 0 <= j < k ==> Found(sections, selected[..n][j].name);
        assert forall j :: 0 <= j < n ==> selected[..n][j] == selected[j];
      } else {
        assert forall j :: 0 <= j < n ==> selected[..n][j] == selected[j];
      }
    }
  }

  /** What it takes for an import to succeed: one list of rows, or sections with one at least
      for every sub-ledger picked, and one picked. */
  ghost predicate Succeeds(s: Store, subs: seq<SubLedger>, id: Id, parse: Parse) {
    match parse
    case Flat(Ok(_)) => true
    case Sectioned(Ok(sections)) =>
      && (exists i: nat, sub :: PicksAt(s.selections, subs, id, i, sub))
      && forall i: nat, sub :: PicksAt(s.selections, subs, id, i, sub) ==> Found(sections, sub.name)
    case _ => false
  }

  /** The reason given is the one that applies: the parser's own, or the first picked
      sub-ledger that has no section. */
  ghost predicate RightReason(s: Store, subs: seq<SubLedger>, id: Id, parse: Parse, why: Reason) {
    match parse
    case Unsupported => why == NoParser
    case Flat(Refused(refusal)) => why == ParserRefused(refusal)
    case Sectioned(Refused(refusal)) => why == ParserRefused(refusal)
    case Flat(Crashed) => why == Unexpected
    case Sectioned(Crashed) => why == Unexpected
    case Flat(Ok(_)) => false
    case Sectioned(Ok(sections)) =>
      if forall i: nat, sub :: !PicksAt(s.selections, subs, id, i, sub) then why == NoSelection
      else why.MissingSection? && FirstUnfound(s.selections, subs, id, sections, why.name)
  }

  /** The first picked sub-ledger without a section has this name. */
  ghost predicate FirstUnfound(selections: seq<Selection>, subs: seq<SubLedger>, id: Id,
                               sections: seq<M.SubLedgerStatement>, name: string) {
    && !Found(sections, name)
    && exists i: nat, sub ::
         && PicksAt(selections, subs, id, i, sub) && sub.name == name
         && forall j: nat, other :: PicksAt(selections, subs, id, j, other) && j < i ==> Found(sections, other.name)
  }

  /** An existing import ends as parsed exactly when it succeeds, keeping what error text it
      had. Otherwise it ends as failed for the reason that applies, with its period, count
      and opening as they were. */
  lemma {:induction false} JobOutcome(s: Store, subs: seq<SubLedger>, id: Id, parse: Parse)
    requires id < |s.imports| && IdsDiffer(subs)
    ensures var before, after := s.imports[id], Process(s, subs, id, parse).imports[id];
      && (after.status.Done? <==> Succeeds(s, subs, id, parse))
      && (after.status.Failed? <==> !Succeeds(s, subs, id, parse))
      && (after.status.Done? ==> after.error == before.error && after.account == before.account)
      && (after.status.Failed? ==>
           && after.error.Some? && RightReason(s, subs, id, parse, after.error.value)
           && after == before.(status := Failed, error := after.error))
  {
    if parse.Sectioned? && parse.sections.Ok? {
      SectionedOutcome(s, subs, id, parse.sections.value);
    }
  }

  /** The selection, in terms of the picks alone. */
  lemma {:induction false} SectionedOutcome(s: Store, subs: seq<SubLedger>, id: Id,
                                            sections: seq<M.SubLedgerStatement>)
    requires IdsDiffer(subs)
    ensures var selected := SelectedSubs(s.selections, subs, id);
      && (selected == [] <==> forall i: nat, sub :: !PicksAt(s.selections, subs, id, i, sub))
      && (Succeeds(s, subs, id, Sectioned(P.Ok(sections))) <==>
           selected != [] && Resolve(selected, sections).Resolved?)
      && (selected != [] && Resolve(selected, sections).Missing? ==>
           RightReason(s, subs, id, Sectioned(P.Ok(sections)), MissingSection(Resolve(selected, sections).name)))
  {
    var selected := SelectedSubs(s.selections, subs, id);
    var places := SelectedInOrder(s.selections, subs, id);
    NoneSelected(s.selections, subs, id, selected, places);
    if selected != [] {
      AllFound(s.selections, subs, id, selected, places, sections);
      ResolvesExactlyWhen(selected, sections);
      if Resolve(selected, sections).Missing? {
        FirstMissing(s.selections, subs, id, selected, places, sections, Resolve(selected, sections).name);
      }
    }
  }

  lemma {:induction false} NoneSelected(selections: seq<Selection>, subs: seq<SubLedger>, id: Id,
                                        selected: seq<SubLedger>, places: seq<nat>)
    requires PickedAt(selections, subs, id, selected, places)
    ensures selected == [] <==> forall i: nat, sub :: !PicksAt(selections, subs, id, i, sub)
  {
    if selected != [] {
      assert PicksAt(selections, subs, id, places[0], selected[0]);
    }
  }

  lemma {:induction false} AllFound(selections: seq<Selection>, subs: seq<SubLedger>, id: Id,
                                    selected: seq<SubLedger>, places: seq<nat>,
                                    sections: seq<M.SubLedgerStatement>)
    requires IdsDiffer(subs) && PickedAt(selections, subs, id, selected, places)
    ensures (forall k :: 0 <= k < |selected| ==> Found(sections, selected[k].name))
      <==> forall i: nat, sub :: PicksAt(selections, subs, id, i, sub) ==> Found(sections, sub.name)
  {
    if forall k :: 0 <= k < |selected| ==> Found(sections, selected[k].name) {
      forall i: nat, sub | PicksAt(selections, subs, id, i, sub)
        ensures Found(sections, sub.name)
      {
        var k := PickIsSelected(selections, subs, id, selected, places, i, sub);
      }
    }
    if forall i: nat, sub :: PicksAt(selections, subs, id, i, sub) ==> Found(sections, sub.name) {
      forall k | 0 <= k < |selected|
        ensures Found(sections, selected[k].name)
      {
        assert PicksAt(selections, subs, id, places[k], selected[k]);
      }
    }
  }

  lemma {:induction false} FirstMissing(selections: seq<Selection>, subs: seq<SubLedger>, id: Id,
                                        selected: seq<SubLedger>, places: seq<nat>,
                                        sections: seq<M.SubLedgerStatement>, name: string)
    requires IdsDiffer(subs) && PickedAt(selections, subs, id, selected, places)
    requires exists k :: (0 <= k < |selected| && selected[k].name == name && !Found(sections, name)
                          && forall j :: 0 <= j < k ==> Found(sections, selected[j].name))
    ensures FirstUnfound(selections, subs, id, sections, name)
  {
    var k :| 0 <= k < |selected| && selected[k].name == name && !Found(sections, name)
      && forall j :: 0 <= j < k ==> Found(sections, selected[j].name);
    assert PicksAt(selections, subs, id, places[k], selected[k]);
    forall j: nat, other | PicksAt(selections, subs, id, j, other) && j < places[k]
      ensures Found(sections, other.name)
    {
      var n := PickIsSelected(selections, subs, id, selected, places, j, other);
    }
  }

  /** The days run from the earliest row to the latest, and both are days of rows. */
  ghost predicate Spans(period: Option<(Date, Date)>, txns: seq<Parsed>) {
    match period
    case None => txns == []
    case Some((first, last)) =>
      && (forall t :: t in txns ==> first <= t.date <= last)
      && (exists t :: t in txns && t.date == first) && exists t :: t in txns && t.date == last
  }

  /** The opening recorded is the first row's balance without that row's movement. */
  ghost predicate OpensBefore(opening: Option<(Cents, Date)>, txns: seq<Parsed>) {
    match opening
    case None => txns == [] || txns[0].balanceAfter.None?
    case Some((balance, day)) =>
      && txns != [] && day == txns[0].date
      && txns[0].balanceAfter == Some(if txns[0].dir.In? then balance + txns[0].amount else balance - txns[0].amount)
  }

  lemma {:induction false} PeriodSpans(txns: seq<Parsed>)
    ensures Spans(PeriodOf(txns), txns)
  {
  }

  /** What a parsed single-account import records: every row counted, duplicates included. */
  lemma {:induction false} FlatRecord(s: Store, subs: seq<SubLedger>, id: Id, txns: seq<Parsed>)
    requires id < |s.imports|
    ensures var after := Process(s, subs, id, Flat(P.Ok(txns))).imports[id];
      after.rowCount == Some(|txns|) && Spans(after.period, txns) && OpensBefore(after.opening, txns)
  {
    PeriodSpans(txns);
  }

  /** What a parsed sub-ledger import records: the rows of all the groups counted and spanned,
      and no opening of its own. */
  lemma {:induction false} SectionedRecord(s: Store, subs: seq<SubLedger>, id: Id, sections: seq<M.SubLedgerStatement>)
    requires id < |s.imports| && IdsDiffer(subs) && Succeeds(s, subs, id, Sectioned(P.Ok(sections)))
    ensures var after := Process(s, subs, id, Sectioned(P.Ok(sections))).imports[id];
      var selected := SelectedSubs(s.selections, subs, id);
      Resolve(selected, sections).Resolved? &&
      var groups := Resolve(selected, sections).groups;
      && after.rowCount == Some(|AllTxns(groups)|) && Spans(after.period, AllTxns(groups)) && after.opening.None?
      && |groups| == |selected|
      && forall k :: 0 <= k < |groups| ==> groups[k] == Group(selected[k].id, TxnsNamed(sections, selected[k].name))
  {
    SectionedOutcome(s, subs, id, sections);
    ResolvedGroups(SelectedSubs(s.selections, subs, id), sections);
    PeriodSpans(AllTxns(Resolve(SelectedSubs(s.selections, subs, id), sections).groups));
  }
}
