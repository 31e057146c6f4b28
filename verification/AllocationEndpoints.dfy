/** The two allocation endpoints as they run: checks in loops, lists filled in place, then
    writes. Each is shown to take exactly the step the state machine takes. */
module AllocationEndpoints {
  import opened Basics
  import opened BudgetState
  import opened AllocationLedger

  datatype BulkResult = BulkDone(updated: seq<Id>, skipped: seq<Id>) | BulkRejected(why: Rejection)

  lemma {:induction false} AlertsOverStep(l: Ledger, budgets: seq<Budget>, g: Group, i: nat, earlier: seq<Alert>)
    requires i < |budgets|
    ensures earlier + AlertsOver(l, budgets[..i + 1], g)
      == (earlier + AlertsOver(l, budgets[..i], g)) + AlertFor(l, budgets[i], g)
  {
    assert budgets[..i + 1][..i] == budgets[..i];
  }

  lemma {:induction false} GroupAlertsStep(l: Ledger, groups: seq<Group>, i: nat, earlier: seq<Alert>)
    requires i < |groups|
    ensures earlier + GroupAlerts(l, groups[..i + 1])
      == (earlier + GroupAlerts(l, groups[..i])) + AlertsOfGroup(l, groups[i])
  {
    assert groups[..i + 1][..i] == groups[..i];
  }

  lemma {:induction false} FirstAt(items: seq<Item>, p: Item -> bool, k: nat)
    requires k < |items| && p(items[k]) && forall i :: 0 <= i < k ==> !p(items[i])
    ensures First(items, p) == Some(k)
  {
    FirstIsFirst(items, p);
  }

  lemma {:induction false} FirstNowhere(items: seq<Item>, p: Item -> bool)
    requires forall i :: 0 <= i < |items| ==> !p(items[i])
    ensures First(items, p) == None
  {
    FirstIsFirst(items, p);
  }

  class Endpoints {
    var txns: map<Id, Txn>
    var allocs: seq<Alloc>
    var alerts: seq<Alert>
    const categories: map<Id, CategoryType>
    const reasons: set<Id>
    const accounts: set<Id>
    const subLedgers: set<Id>
    const budgets: seq<Budget>
    const nearThreshold: Option<real>

    constructor (categories: map<Id, CategoryType>, reasons: set<Id>, accounts: set<Id>, subLedgers: set<Id>,
                 budgets: seq<Budget>, nearThreshold: Option<real>)
      ensures State() == Ledger(map[], [], [], categories, reasons, accounts, subLedgers, budgets, nearThreshold)
      ensures Inv(State())
    {
      txns, allocs, alerts := map[], [], [];
      this.categories, this.reasons, this.accounts := categories, reasons, accounts;
      this.subLedgers, this.budgets, this.nearThreshold := subLedgers, budgets, nearThreshold;
    }

    function State(): Ledger
      reads this
    {
      Ledger(txns, allocs, alerts, categories, reasons, accounts, subLedgers, budgets, nearThreshold)
    }

    /** A new transaction, under an id nothing else has. */
    method RecordTransaction(id: Id, t: Txn)
      modifies this`txns
      ensures State() == Step(old(State()), Record(id, t))
    {
      if id !in txns && t.amount >= 0 {
        txns := txns[id := t];
      }
    }

    /** One budget: an alert if the group pushed it up. */
    method ConsiderBudget(b: Budget, g: Group, nearThreshold: real, ghost l: Ledger)
      requires State() == l.(alerts := alerts) && nearThreshold == Threshold(l)
      modifies this`alerts
      ensures State() == l.(alerts := alerts)
      ensures alerts == old(alerts) + AlertFor(l, b, g)
    {
      if !Reaches(g, b) || b.limit.None? {
        return;
      }
      var consumedAfter := Consumed(allocs, txns, b);
      var consumedBefore := consumedAfter - g.amount;
      var beforeState := ExpenseState(b.limit.value, consumedBefore, nearThreshold);
      var afterState := ExpenseState(b.limit.value, consumedAfter, nearThreshold);
      if afterState.Okay? || Rank(afterState) <= Rank(beforeState) {
        return;
      }
      alerts := alerts + [Alert(b.id, afterState)];
    }

    /** Every budget in turn, judged after the insert. The tables other than the alerts are
        those of l throughout. */
    method GenerateBudgetAlerts(g: Group, ghost l: Ledger)
      requires State() == l.(alerts := alerts)
      modifies this`alerts
      ensures State() == l.(alerts := alerts)
      ensures alerts == old(alerts) + AlertsOfGroup(l, g)
    {
      if g.category !in categories || categories[g.category].Income? {
        return;
      }
      var nearThreshold := Threshold(State());
      for i := 0 to |budgets|
        invariant State() == l.(alerts := alerts)
        invariant alerts == old(alerts) + AlertsOver(l, budgets[..i], g)
      {
        AlertsOverStep(l, budgets, g, i, old(alerts));
        ConsiderBudget(budgets[i], g, nearThreshold, l);
      }
      assert budgets[..|budgets|] == budgets;
    }

    method GenerateGroupAlerts(groups: seq<Group>, ghost l: Ledger)
      requires State() == l.(alerts := alerts)
      modifies this`alerts
      ensures State() == l.(alerts := alerts)
      ensures alerts == old(alerts) + GroupAlerts(l, groups)
    {
      for i := 0 to |groups|
        invariant State() == l.(alerts := alerts)
        invariant alerts == old(alerts) + GroupAlerts(l, groups[..i])
      {
        GroupAlertsStep(l, groups, i, old(alerts));
        GenerateBudgetAlerts(groups[i], l);
      }
      assert groups[..|groups|] == groups;
    }

    /** New allocations and the amounts they add per category, date and currency. */
    method StoreAllocations(added: seq<Alloc>)
      modifies this`allocs, this`alerts
      ensures State() == Store(old(State()), added)
    {
      allocs := allocs + added;
      var groups: seq<Group> := [];
      for i := 0 to |added|
        invariant groups == GroupsOf(txns, added[..i])
      {
        assert added[..i + 1][..i] == added[..i];
        var a := added[i];
        if a.category.None? || a.txn !in txns {
          continue;
        }
        groups := AddToGroup(groups, Group(a.category.value, txns[a.txn].date, a.currency, a.amount));
      }
      assert added[..|added|] == added;
      GenerateGroupAlerts(groups, State());
    }

    method CheckItems(items: seq<Item>) returns (why: Option<Rejection>)
      ensures var notPositive, misshapen := First(items, NotPositive), First(items, Misshapen);
        why == if notPositive.Some? then Some(AmountNotPositive(notPositive.value + 1))
               else if misshapen.Some? && misshapen.value < |items| then
                 Some(if BothSet(items[misshapen.value]) then CategoryAndReason(misshapen.value + 1)
                      else SeveralSources(misshapen.value + 1))
               else None
    {
      for i := 0 to |items|
        invariant forall j :: 0 <= j < i ==> !NotPositive(items[j])
      {
        if items[i].amount <= 0 {
          FirstAt(items, NotPositive, i);
          return Some(AmountNotPositive(i + 1));
        }
      }
      FirstNowhere(items, NotPositive);
      for i := 0 to |items|
        invariant forall j :: 0 <= j < i ==> !Misshapen(items[j])
      {
        var item := items[i];
        if item.category.Some? && item.reason.Some? {
          FirstAt(items, Misshapen, i);
          return Some(CategoryAndReason(i + 1));
        }
        if item.reason.None? {
          continue;
        }
        var sourcesGiven := Given(item.sourceAccount) + Given(item.sourceSubLedger) + Given(item.sourceText);
        if sourcesGiven > 1 {
          FirstAt(items, Misshapen, i);
          return Some(SeveralSources(i + 1));
        }
      }
      FirstNowhere(items, Misshapen);
      return None;
    }

    method CheckTypes(items: seq<Item>, dir: Direction) returns (why: Option<Rejection>)
      ensures var mismatched := FirstMismatch(categories, dir, items);
        why == if mismatched.Some? then Some(TypeMismatch(mismatched.value + 1)) else None
    {
      FirstIsFirst(items, (i: Item) => Mismatched(categories, dir, i.category));
      for i := 0 to |items|
        invariant forall j :: 0 <= j < i ==> !Mismatched(categories, dir, items[j].category)
      {
        var category := items[i].category;
        if category.None? {
          continue;
        }
        if category.value in categories && categories[category.value] != ExpectedType(dir) {
          assert Mismatched(categories, dir, items[i].category);
          return Some(TypeMismatch(i + 1));
        }
      }
      return None;
    }

    method CreateAllocations(id: Id, items: seq<Item>) returns (why: Option<Rejection>)
      modifies this`allocs, this`alerts
      ensures why == CheckCreate(old(State()), id, items)
      ensures State() == Create(old(State()), id, items)
    {
      if items == [] {
        return Some(EmptyRequest);
      }
      if id !in txns {
        return Some(TxnNotFound);
      }
      var t := txns[id];
      FirstIsFirst(items, Misshapen);
      why := CheckItems(items);
      if why.Some? {
        return;
      }
      var l := State();
      if UnknownCategory(l, items) {
        return Some(CategoryNotFound);
      }
      if UnknownReason(l, items) {
        return Some(ReasonNotFound);
      }
      if UnknownAccount(l, items) {
        return Some(SourceAccountNotFound);
      }
      if UnknownSubLedger(l, items) {
        return Some(SourceSubLedgerNotFound);
      }
      why := CheckTypes(items, t.dir);
      if why.Some? {
        return;
      }
      var alreadyAllocated := AllocatedTo(allocs, id);
      var newTotal := TotalOf(items);
      if alreadyAllocated + newTotal > t.amount {
        return Some(ExceedsRemaining(t.amount - alreadyAllocated));
      }
      StoreAllocations(AllocsOf(id, t.currency, items));
      return None;
    }

    method BulkAllocate(body: BulkBody) returns (r: BulkResult)
      modifies this`allocs, this`alerts
      ensures State() == Bulk(old(State()), body)
      ensures r == match CheckBulk(old(State()), body)
                   case Some(why) => BulkRejected(why)
                   case None => BulkDone(Updated(old(State()), Keys(Pairs(body))),
                                         Skipped(old(State()), Keys(Pairs(body))))
    {
      if body.txnIds.Some? == body.allocations.Some? {
        return BulkRejected(WrongShape);
      }
      var pairs := Pairs(body);
      if pairs == [] {
        return BulkRejected(EmptyRequest);
      }
      var keys := Keys(pairs);
      var l := State();
      if MissingTxn(l, keys) {
        return BulkRejected(TxnNotFound);
      }
      if MissingCategory(l, pairs, keys) {
        return BulkRejected(CategoryNotFound);
      }
      for i := 0 to |keys|
        invariant forall j :: 0 <= j < i ==>
          !(keys[j] in l.txns && Mismatched(categories, l.txns[keys[j]].dir, Chosen(pairs, keys[j])))
      {
        var category := Chosen(pairs, keys[i]);
        if category.None? {
          continue;
        }
        if categories[category.value] != ExpectedType(txns[keys[i]].dir) {
          assert AnyMismatch(l, pairs, keys);
          return BulkRejected(TypeMismatch(0));
        }
      }
      assert !AnyMismatch(l, pairs, keys);
      var inserts: seq<Alloc> := [];
      var updated: seq<Id> := [];
      var skipped: seq<Id> := [];
      for i := 0 to |keys|
        invariant updated == Updated(l, keys[..i]) && skipped == Skipped(l, keys[..i])
        invariant inserts == Fills(l, pairs, updated)
      {
        assert keys[..i + 1][..i] == keys[..i];
        var t := txns[keys[i]];
        var remaining := t.amount - AllocatedTo(allocs, keys[i]);
        if remaining <= 0 {
          skipped := skipped + [keys[i]];
          continue;
        }
        inserts := inserts + [Alloc(keys[i], Chosen(pairs, keys[i]), None, None, None, None,
                                    remaining, remaining, t.currency, None)];
        updated := updated + [keys[i]];
      }
      assert keys[..|keys|] == keys;
      if updated != [] {
        StoreAllocations(inserts);
      } else {
        assert allocs + [] == allocs && GroupsOf(txns, []) == [] && alerts + [] == alerts;
      }
      return BulkDone(updated, skipped);
    }
  }
}
