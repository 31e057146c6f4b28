/** Which recorded opening a balance starts from, in terms of the records themselves: the
    anchor joins of app/repositories/accounts.py. */
module OpeningsInForce {
  import opened Basics
  import opened Tables
  import opened ImportWorker
  import opened ImportRuns
  import B = BookBalance

  /** The opening that record i states, if it has one and is about this. */
  type Openings = nat -> Option<Anchor>

  function OfAccount(imports: seq<Import>, account: Id): Openings {
    (i: nat) =>
      if i < |imports| && imports[i].account == account && imports[i].opening.Some?
      then Some(Anchor(imports[i].opening.value.0, imports[i].opening.value.1)) else None
  }

  function OfSubLedger(selections: seq<Selection>, sub: Id): Openings {
    (i: nat) =>
      if i < |selections| && selections[i].subLedger == sub && selections[i].opening.Some?
      then Some(Anchor(selections[i].opening.value.0, selections[i].opening.value.1)) else None
  }

  lemma {:induction false} ImportsInOrder(imports: seq<Import>, account: Id) returns (places: seq<nat>)
    ensures Lists(Anchors(imports, account), OfAccount(imports, account), places)
  {
    places := [];
    if imports != [] {
      var n := |imports| - 1;
      var front := imports[..n];
      places := ImportsInOrder(front, account);
      ListsMore(Anchors(front, account), OfAccount(front, account), OfAccount(imports, account), places, n);
      if OfAccount(imports, account)(n).Some? {
        places := places + [n];
      }
    }
  }

  lemma {:induction false} SelectionsInOrder(selections: seq<Selection>, sub: Id) returns (places: seq<nat>)
    ensures Lists(SubAnchors(selections, sub), OfSubLedger(selections, sub), places)
  {
    places := [];
    if selections != [] {
      var n := |selections| - 1;
      var front := selections[..n];
      places := SelectionsInOrder(front, sub);
      ListsMore(SubAnchors(front, sub), OfSubLedger(front, sub), OfSubLedger(selections, sub), places, n);
      if OfSubLedger(selections, sub)(n).Some? {
        places := places + [n];
      }
    }
  }

  /** Record i states the opening in force: none dated up to the day is dated later, and none
      of its own date was recorded after it. */
  ghost predicate InForceAt(openings: Openings, asOf: Date, i: nat) {
    && openings(i).Some? && openings(i).value.date <= asOf
    && forall j: nat :: openings(j).Some? && openings(j).value.date <= asOf ==>
         || openings(j).value.date < openings(i).value.date
         || (openings(j).value.date == openings(i).value.date && j <= i)
  }

  lemma {:induction false} NewestIsInForce(anchors: seq<Anchor>, openings: Openings, places: seq<nat>, asOf: Date)
    requires Lists(anchors, openings, places)
    ensures match B.Newest(anchors, asOf)
            case None => forall i: nat :: openings(i).Some? ==> openings(i).value.date > asOf
            case Some(a) => exists i: nat :: InForceAt(openings, asOf, i) && openings(i) == Some(a)
  {
    B.NewestApplies(anchors, asOf);
    match B.Newest(anchors, asOf) {
      case None =>
        forall i: nat | openings(i).Some?
          ensures openings(i).value.date > asOf
        {
          var k :| 0 <= k < |places| && places[k] == i;
          assert anchors[k] in anchors;
        }
      case Some(a) =>
        var k := B.NewestIsNewest(anchors, asOf);
        forall j: nat | openings(j).Some? && openings(j).value.date <= asOf
          ensures openings(j).value.date < a.date || (openings(j).value.date == a.date && j <= places[k])
        {
          var m :| 0 <= m < |places| && places[m] == j;
          assert anchors[m].date <= asOf;
        }
        assert InForceAt(openings, asOf, places[k]);
    }
  }

  /** An account's balance starts from the latest-dated opening its imports state, whatever
      their status, the one created last among equals; and from nothing only if none states
      one dated up to the day. */
  lemma {:induction false} AccountStartsFrom(imports: seq<Import>, account: Id, asOf: Date)
    ensures match B.Newest(Anchors(imports, account), asOf)
            case None => forall i: nat :: OfAccount(imports, account)(i).Some? ==>
              OfAccount(imports, account)(i).value.date > asOf
            case Some(a) => exists i: nat ::
              InForceAt(OfAccount(imports, account), asOf, i) && OfAccount(imports, account)(i) == Some(a)
  {
    var places := ImportsInOrder(imports, account);
    NewestIsInForce(Anchors(imports, account), OfAccount(imports, account), places, asOf);
  }

  /** And a sub-ledger's from the latest-dated one recorded with a selection of it. */
  lemma {:induction false} SubLedgerStartsFrom(selections: seq<Selection>, sub: Id, asOf: Date)
    ensures match B.Newest(SubAnchors(selections, sub), asOf)
            case None => forall i: nat :: OfSubLedger(selections, sub)(i).Some? ==>
              OfSubLedger(selections, sub)(i).value.date > asOf
            case Some(a) => exists i: nat ::
              InForceAt(OfSubLedger(selections, sub), asOf, i) && OfSubLedger(selections, sub)(i) == Some(a)
  {
    var places := SelectionsInOrder(selections, sub);
    NewestIsInForce(SubAnchors(selections, sub), OfSubLedger(selections, sub), places, asOf);
  }
}
