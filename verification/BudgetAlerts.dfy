/** What the budget alerts amount to over whole runs of the ledger. */
module BudgetAlerts {
  import opened Basics
  import opened Sums
  import opened BudgetState
  import opened AllocationLedger

  /** The states announced for one budget, oldest first. */
  function StatesFor(alerts: seq<Alert>, budget: Id): seq<State> {
    if alerts == [] then []
    else
      var front, last := StatesFor(alerts[..|alerts| - 1], budget), alerts[|alerts| - 1];
      if last.budget == budget then front + [last.state] else front
  }

  lemma {:induction false} StatesForAppend(a: seq<Alert>, b: seq<Alert>, budget: Id)
    ensures StatesFor(a + b, budget) == StatesFor(a, budget) + StatesFor(b, budget)
  {
    if b == [] {
      assert a + b == a;
    } else {
      StatesForAppend(a, b[..|b| - 1], budget);
      assert (a + b)[..|a + b| - 1] == a + b[..|b| - 1];
    }
  }

  // ---- what the groups add up to ----

  function GroupSum(groups: seq<Group>, b: Budget): Cents {
    if groups == [] then 0
    else (if Reaches(groups[0], b) then groups[0].amount else 0) + GroupSum(groups[1..], b)
  }

  lemma {:induction false} GroupSumAdd(groups: seq<Group>, g: Group, b: Budget)
    ensures GroupSum(AddToGroup(groups, g), b) == GroupSum(groups, b) + if Reaches(g, b) then g.amount else 0
  {
    if groups == [] {
    } else if SameKey(groups[0], g) {
      assert AddToGroup(groups, g)[1..] == groups[1..];
    } else {
      GroupSumAdd(groups[1..], g, b);
      assert AddToGroup(groups, g)[1..] == AddToGroup(groups[1..], g);
    }
  }

  /** No two groups share their key. */
  ghost predicate KeysDiffer(groups: seq<Group>) {
    forall i, j :: 0 <= i < j < |groups| ==> !SameKey(groups[i], groups[j])
  }

  lemma {:induction false} AddKeepsKeys(groups: seq<Group>, g: Group)
    requires KeysDiffer(groups)
    ensures KeysDiffer(AddToGroup(groups, g))
    ensures forall h :: h in AddToGroup(groups, g) ==> SameKey(h, g) || h in groups
  {
    if groups != [] && !SameKey(groups[0], g) {
      AddKeepsKeys(groups[1..], g);
      var rest := AddToGroup(groups[1..], g);
      forall k | 0 <= k < |rest|
        ensures !SameKey(groups[0], rest[k])
      {
        assert rest[k] in rest;
      }
    }
  }

  ghost predicate NoneTwofold(added: seq<Alloc>) {
    forall a :: a in added ==> !(a.category.Some? && a.reason.Some?)
  }

  /** The groups reaching a budget add up to what the new allocations consume of it. */
  lemma {:induction false} GroupsCoverSpending(txns: map<Id, Txn>, added: seq<Alloc>, b: Budget)
    requires NoneTwofold(added)
    ensures KeysDiffer(GroupsOf(txns, added))
    ensures GroupSum(GroupsOf(txns, added), b) == Consumed(added, txns, b)
  {
    if added != [] {
      var front, a := added[..|added| - 1], added[|added| - 1];
      assert added == front + [a];
      GroupsCoverSpending(txns, front, b);
      if a.category.Some? && a.txn in txns {
        var g := Group(a.category.value, txns[a.txn].date, a.currency, a.amount);
        GroupSumAdd(GroupsOf(txns, front), g, b);
        AddKeepsKeys(GroupsOf(txns, front), g);
      }
    }
  }

  lemma {:induction false} ConsumedIgnoresOtherTxns(allocs: seq<Alloc>, txns: map<Id, Txn>, more: map<Id, Txn>,
                                                    b: Budget)
    requires forall a :: a in allocs ==> a.txn in txns && a.txn in more && more[a.txn] == txns[a.txn]
    ensures Consumed(allocs, more, b) == Consumed(allocs, txns, b)
  {
    SumOfCongruent(allocs, SpentOn(more, b), SpentOn(txns, b));
  }

  lemma {:induction false} ConsumedNonNegative(allocs: seq<Alloc>, txns: map<Id, Txn>, b: Budget)
    requires forall a :: a in allocs ==> a.amount > 0
    ensures Consumed(allocs, txns, b) >= 0
  {
    if allocs != [] {
      assert allocs[|allocs| - 1] in allocs;
      ConsumedNonNegative(allocs[..|allocs| - 1], txns, b);
    }
  }

  // ---- what is raised for one budget ----

  /** A capped budget on an expense category, identified by its id. */
  ghost predicate Watched(l: Ledger, b: Budget) {
    && b in l.budgets
    && b.limit.Some?
    && b.category in l.categories && l.categories[b.category].Expense?
    && forall i, j :: 0 <= i < j < |l.budgets| ==> l.budgets[i].id != l.budgets[j].id
  }

  /** Current state of the budget. */
  function Now(l: Ledger, b: Budget): State
    requires b.limit.Some?
  {
    StateAt(l, b, Consumed(l.allocs, l.txns, b))
  }

  /** Taking this group's money away again would put the budget in a lower state. */
  predicate Decisive(l: Ledger, b: Budget, g: Group)
    requires b.limit.Some?
  {
    Reaches(g, b) && Rank(StateAt(l, b, Consumed(l.allocs, l.txns, b) - g.amount)) < Rank(Now(l, b))
  }

  function DecisiveCount(l: Ledger, b: Budget, groups: seq<Group>): nat
    requires b.limit.Some?
  {
    if groups == [] then 0
    else DecisiveCount(l, b, groups[..|groups| - 1]) + if Decisive(l, b, groups[|groups| - 1]) then 1 else 0
  }

  function Repeat(s: State, n: nat): seq<State> {
    seq(n, _ => s)
  }

  lemma {:induction false} StatesOverBudgets(l: Ledger, budgets: seq<Budget>, g: Group, b: Budget)
    requires b.limit.Some?
    requires forall i, j :: 0 <= i < j < |budgets| ==> budgets[i].id != budgets[j].id
    requires b in budgets || forall c :: c in budgets ==> c.id != b.id
    ensures StatesFor(AlertsOver(l, budgets, g), b.id)
      == if b in budgets && Decisive(l, b, g) then [Now(l, b)] else []
  {
    if budgets != [] {
      var n := |budgets| - 1;
      var front, last := budgets[..n], budgets[n];
      assert budgets == front + [last];
      assert forall c :: c in front ==> exists i :: 0 <= i < n && budgets[i] == c;
      StatesOverBudgets(l, front, g, b);
      StatesForAppend(AlertsOver(l, front, g), AlertFor(l, last, g), b.id);
      OneAlert(l, last, g, b.id);
    }
  }

  lemma {:induction false} OneAlert(l: Ledger, c: Budget, g: Group, budget: Id)
    ensures StatesFor(AlertFor(l, c, g), budget)
      == if c.id == budget && c.limit.Some? && Decisive(l, c, g) then [Now(l, c)] else []
  {
    var alerts := AlertFor(l, c, g);
    if alerts != [] {
      assert alerts[..0] == [];
    }
  }

  lemma {:induction false} StatesOfGroup(l: Ledger, g: Group, b: Budget)
    requires Watched(l, b)
    ensures StatesFor(AlertsOfGroup(l, g), b.id) == if Decisive(l, b, g) then [Now(l, b)] else []
  {
    StatesOverBudgets(l, l.budgets, g, b);
  }

  /** The alerts one batch raises for a budget all announce its state after the batch, one
      for each decisive group. */
  lemma {:induction false} StatesOfBatch(l: Ledger, groups: seq<Group>, b: Budget)
    requires Watched(l, b)
    ensures StatesFor(GroupAlerts(l, groups), b.id) == Repeat(Now(l, b), DecisiveCount(l, b, groups))
  {
    if groups != [] {
      var front, g := groups[..|groups| - 1], groups[|groups| - 1];
      StatesOfBatch(l, front, b);
      StatesForAppend(GroupAlerts(l, front), AlertsOfGroup(l, g), b.id);
      StatesOfGroup(l, g, b);
      RepeatStep(Now(l, b), DecisiveCount(l, b, front));
    }
  }

  lemma {:induction false} RepeatStep(s: State, n: nat)
    ensures Repeat(s, n + 1) == Repeat(s, n) + [s] && Repeat(s, n) + [] == Repeat(s, n)
  {
  }

  lemma {:induction false} RepeatFew(s: State)
    ensures Repeat(s, 0) == [] && Repeat(s, 1) == [s] && Repeat(s, 2) == [s, s]
  {
  }

  // ---- one group per batch ----

  ghost predicate OneReaches(groups: seq<Group>, b: Budget) {
    forall i, j :: 0 <= i < j < |groups| ==> !(Reaches(groups[i], b) && Reaches(groups[j], b))
  }

  lemma {:induction false} NoneReaching(l: Ledger, groups: seq<Group>, b: Budget)
    requires b.limit.Some? && forall i :: 0 <= i < |groups| ==> !Reaches(groups[i], b)
    ensures GroupSum(groups, b) == 0 && DecisiveCount(l, b, groups) == 0
  {
    NoneSum(groups, b);
    if groups != [] {
      NoneReaching(l, groups[..|groups| - 1], b);
    }
  }

  lemma {:induction false} NoneSum(groups: seq<Group>, b: Budget)
    requires forall i :: 0 <= i < |groups| ==> !Reaches(groups[i], b)
    ensures GroupSum(groups, b) == 0
  {
    if groups != [] {
      NoneSum(groups[1..], b);
    }
  }

  lemma {:induction false} GroupSumAppend(x: seq<Group>, y: seq<Group>, b: Budget)
    ensures GroupSum(x + y, b) == GroupSum(x, b) + GroupSum(y, b)
  {
    if x == [] {
      assert x + y == y;
    } else {
      GroupSumAppend(x[1..], y, b);
      assert (x + y)[1..] == x[1..] + y;
    }
  }

  /** With one group reaching the budget, subtracting it gives back the true figure from
      before the batch, and the batch is decisive exactly when the state went up. */
  lemma {:induction false} SingleGroupDecides(l: Ledger, groups: seq<Group>, b: Budget)
    requires b.limit.Some? && OneReaches(groups, b)
    ensures DecisiveCount(l, b, groups)
      == if Rank(StateAt(l, b, Consumed(l.allocs, l.txns, b) - GroupSum(groups, b))) < Rank(Now(l, b)) then 1 else 0
  {
    if groups != [] {
      var n := |groups| - 1;
      var front, g := groups[..n], groups[n];
      assert groups == front + [g];
      GroupSumAppend(front, [g], b);
      assert GroupSum([g], b) == (if Reaches(g, b) then g.amount else 0) by {
        assert [g][1..] == [];
      }
      if Reaches(g, b) {
        assert forall i :: 0 <= i < n ==> front[i] == groups[i] && !Reaches(groups[i], b);
        NoneReaching(l, front, b);
      } else {
        SingleGroupDecides(l, front, b);
      }
    }
  }

  /** All new allocations of one transaction carry its date and currency, so only one group
      of a create-allocations request can reach a given budget. */
  lemma {:induction false} GroupsShareDate(txns: map<Id, Txn>, added: seq<Alloc>, date: Date, currency: string)
    requires forall a :: a in added ==> a.txn in txns && txns[a.txn].date == date && a.currency == currency
    ensures forall g :: g in GroupsOf(txns, added) ==> g.date == date && g.currency == currency
    ensures KeysDiffer(GroupsOf(txns, added))
  {
    if added != [] {
      var front, a := added[..|added| - 1], added[|added| - 1];
      assert added == front + [a];
      GroupsShareDate(txns, front, date, currency);
      if a.category.Some? {
        AddKeepsKeys(GroupsOf(txns, front), Group(a.category.value, date, currency, a.amount));
      }
    }
  }

  lemma {:induction false} CreateReachesOnce(l: Ledger, id: Id, items: seq<Item>, b: Budget)
    requires id in l.txns
    ensures OneReaches(GroupsOf(l.txns, AllocsOf(id, l.txns[id].currency, items)), b)
  {
    var added := AllocsOf(id, l.txns[id].currency, items);
    GroupsShareDate(l.txns, added, l.txns[id].date, l.txns[id].currency);
    var groups := GroupsOf(l.txns, added);
    forall i, j | 0 <= i < j < |groups|
      ensures !(Reaches(groups[i], b) && Reaches(groups[j], b))
    {
      assert groups[i] in groups && groups[j] in groups;
      assert !SameKey(groups[i], groups[j]);
    }
  }

  // ---- the alert history ----

  ghost predicate Climbs(states: seq<State>) {
    && (forall i :: 0 <= i < |states| ==> Rank(states[i]) >= 1)
    && (forall i, j :: 0 <= i < j < |states| ==> Rank(states[i]) < Rank(states[j]))
  }

  function LastState(states: seq<State>): State {
    if states == [] then Okay else states[|states| - 1]
  }

  /** The alerts so far tell the budget's story: ever higher states, ending at the current
      one; silence means the budget is still fine. */
  ghost predicate TellsTheStory(l: Ledger, b: Budget)
    requires b.limit.Some?
  {
    Climbs(StatesFor(l.alerts, b.id)) && Now(l, b) == LastState(StatesFor(l.alerts, b.id))
  }

  /** Where every story begins: nothing spent, nothing announced. */
  lemma {:induction false} StoryBegins(l: Ledger, b: Budget)
    requires b.limit.Some? && l.allocs == [] && l.alerts == [] && Threshold(l) > 0.0
    ensures TellsTheStory(l, b)
  {
    if b.limit.value > 0 {
      assert Ratio(b.limit.value, 0) == 0.0;
    }
  }

  /** Whatever is stored, the groups reaching a budget carry all the new spending, so taking
      them away from the new figure gives back the old one; and spending never lowers a state. */
  lemma {:induction false} SpendingByGroups(l: Ledger, added: seq<Alloc>, b: Budget)
    requires b.limit.Some? && NoneTwofold(added)
    requires forall a :: a in added ==> a.amount > 0
    ensures var after := Store(l, added);
      && Consumed(after.allocs, after.txns, b) - GroupSum(GroupsOf(l.txns, added), b) == Consumed(l.allocs, l.txns, b)
      && Rank(Now(l, b)) <= Rank(Now(after, b))
  {
    var after := Store(l, added);
    GroupsCoverSpending(l.txns, added, b);
    SumOfAppend(l.allocs, added, SpentOn(l.txns, b));
    ConsumedNonNegative(added, l.txns, b);
    RankMonotone(b.limit.value, Consumed(l.allocs, l.txns, b), Consumed(after.allocs, l.txns, b), Threshold(l));
  }

  /** Exactly what a stored batch announces for a budget. */
  lemma {:induction false} StoreAnnounces(l: Ledger, added: seq<Alloc>, b: Budget)
    requires Watched(l, b)
    ensures var after := Store(l, added);
      && Watched(after, b)
      && StatesFor(after.alerts, b.id) == StatesFor(l.alerts, b.id)
         + Repeat(Now(after, b), DecisiveCount(after, b, GroupsOf(l.txns, added)))
  {
    var groups := GroupsOf(l.txns, added);
    var stored := l.(allocs := l.allocs + added);
    StatesForAppend(l.alerts, GroupAlerts(stored, groups), b.id);
    StatesOfBatch(stored, groups, b);
    SameCount(stored, Store(l, added), b, groups);
  }

  /** Storing a batch of which one group at most reaches the budget: exactly one alert is
      raised if the state rose, none otherwise. */
  lemma {:induction false} StoreRaisesOnce(l: Ledger, added: seq<Alloc>, b: Budget)
    requires Watched(l, b) && NoneTwofold(added)
    requires forall a :: a in added ==> a.amount > 0
    requires OneReaches(GroupsOf(l.txns, added), b)
    ensures var after := Store(l, added);
      && Rank(Now(l, b)) <= Rank(Now(after, b))
      && StatesFor(after.alerts, b.id) == StatesFor(l.alerts, b.id)
         + (if Rank(Now(l, b)) < Rank(Now(after, b)) then [Now(after, b)] else [])
  {
    var after := Store(l, added);
    SpendingByGroups(l, added, b);
    StoreAnnounces(l, added, b);
    SingleGroupDecides(after, GroupsOf(l.txns, added), b);
    RepeatFew(Now(after, b));
  }

  lemma {:induction false} SameRankSameState(l: Ledger, m: Ledger, b: Budget)
    requires b.limit.Some? && Rank(Now(l, b)) == Rank(Now(m, b))
    ensures Now(l, b) == Now(m, b)
  {
  }

  lemma {:induction false} StoreKeepsStory(l: Ledger, added: seq<Alloc>, b: Budget)
    requires Watched(l, b) && NoneTwofold(added) && TellsTheStory(l, b)
    requires forall a :: a in added ==> a.amount > 0
    requires OneReaches(GroupsOf(l.txns, added), b)
    ensures TellsTheStory(Store(l, added), b)
  {
    StoreRaisesOnce(l, added, b);
    if Rank(Now(l, b)) == Rank(Now(Store(l, added), b)) {
      SameRankSameState(l, Store(l, added), b);
    }
  }

  lemma {:induction false} SameCount(l: Ledger, m: Ledger, b: Budget, groups: seq<Group>)
    requires b.limit.Some? && l.allocs == m.allocs && l.txns == m.txns && l.nearThreshold == m.nearThreshold
    ensures DecisiveCount(l, b, groups) == DecisiveCount(m, b, groups)
  {
    if groups != [] {
      SameCount(l, m, b, groups[..|groups| - 1]);
    }
  }

  lemma {:induction false} StoryClimbs(states: seq<State>, n: nat)
    requires n < |states| && Climbs(states)
    ensures Rank(states[n]) > n
  {
    if n > 0 {
      StoryClimbs(states, n - 1);
    }
  }

  lemma {:induction false} StoryIsShort(l: Ledger, b: Budget)
    requires b.limit.Some? && TellsTheStory(l, b)
    ensures |StatesFor(l.alerts, b.id)| <= 3
  {
    var states := StatesFor(l.alerts, b.id);
    if states != [] {
      StoryClimbs(states, |states| - 1);
    }
  }

  // ---- the setting an alert is judged by ----

  /** The share of its limit from which a budget is near: the one the user has set, or four
      fifths when none is set or it is set to zero. */
  ghost predicate NearFrom(l: Ledger, share: real) {
    || (l.nearThreshold == Some(share) && share > 0.0)
    || ((l.nearThreshold == None || l.nearThreshold == Some(0.0)) && share == 0.8)
  }

  /** The one state, if any, that is passed into when consumption goes from c to d. */
  ghost function Passed(limit: Cents, share: real, c: Cents, d: Cents): seq<State> {
    if limit <= 0 then (if c <= 0 < d then [Over] else [])
    else if c <= limit < d then [Over]
    else if c < limit == d then [At]
    else if c as real < share * limit as real <= d as real && d < limit then [Near]
    else []
  }

  lemma {:induction false} PassedIsTheRise(limit: Cents, share: real, c: Cents, d: Cents)
    requires share > 0.0 && c <= d
    ensures var before, after := ExpenseState(limit, c, share), ExpenseState(limit, d, share);
      Passed(limit, share, c, d) == if Rank(before) < Rank(after) then [after] else []
  {
    StateMeansMoney(limit, c, share);
    StateMeansMoney(limit, d, share);
  }

  /** In money, and by the user's own setting: a batch of which one group at most reaches a
      watched budget announces near when it takes consumption past that share of the limit
      and short of it, at when it takes it to the limit, over when it takes it past, and
      otherwise nothing. */
  lemma {:induction false} AnnouncedByTheSetting(l: Ledger, added: seq<Alloc>, b: Budget, share: real)
    requires Watched(l, b) && NoneTwofold(added) && NearFrom(l, share)
    requires forall a :: a in added ==> a.amount > 0
    requires OneReaches(GroupsOf(l.txns, added), b)
    ensures var after := Store(l, added);
      StatesFor(after.alerts, b.id) == StatesFor(l.alerts, b.id)
        + Passed(b.limit.value, share, Consumed(l.allocs, l.txns, b), Consumed(after.allocs, after.txns, b))
  {
    StoreRaisesOnce(l, added, b);
    GroupsCoverSpending(l.txns, added, b);
    SumOfAppend(l.allocs, added, SpentOn(l.txns, b));
    ConsumedNonNegative(added, l.txns, b);
    PassedIsTheRise(b.limit.value, share, Consumed(l.allocs, l.txns, b),
                    Consumed(l.allocs, l.txns, b) + Consumed(added, l.txns, b));
  }

  /** Budgets without a limit and budgets of other than expense categories are never alerted on. */
  lemma {:induction false} OthersAreNeverAlerted(l: Ledger, added: seq<Alloc>, b: Budget)
    requires b in l.budgets
    requires forall i, j :: 0 <= i < j < |l.budgets| ==> l.budgets[i].id != l.budgets[j].id
    requires b.limit.None? || b.category !in l.categories || l.categories[b.category].Income?
    ensures StatesFor(Store(l, added).alerts, b.id) == StatesFor(l.alerts, b.id)
  {
    var stored := l.(allocs := l.allocs + added);
    StatesForAppend(l.alerts, GroupAlerts(stored, GroupsOf(l.txns, added)), b.id);
    NoneForOthers(stored, GroupsOf(l.txns, added), b);
  }

  lemma {:induction false} NoneForOthers(l: Ledger, groups: seq<Group>, b: Budget)
    requires b in l.budgets
    requires forall i, j :: 0 <= i < j < |l.budgets| ==> l.budgets[i].id != l.budgets[j].id
    requires b.limit.None? || b.category !in l.categories || l.categories[b.category].Income?
    ensures StatesFor(GroupAlerts(l, groups), b.id) == []
  {
    if groups != [] {
      var front, g := groups[..|groups| - 1], groups[|groups| - 1];
      NoneForOthers(l, front, b);
      StatesForAppend(GroupAlerts(l, front), AlertsOfGroup(l, g), b.id);
      if g.category in l.categories && l.categories[g.category].Expense? {
        NoneOverBudgets(l, l.budgets, g, b);
      }
    }
  }

  lemma {:induction false} NoneOverBudgets(l: Ledger, budgets: seq<Budget>, g: Group, b: Budget)
    requires b.limit.None? || b.category != g.category
    requires forall c :: c in budgets && c.id == b.id ==> c == b
    ensures StatesFor(AlertsOver(l, budgets, g), b.id) == []
  {
    if budgets != [] {
      var n := |budgets| - 1;
      assert budgets == budgets[..n] + [budgets[n]];
      NoneOverBudgets(l, budgets[..n], g, b);
      StatesForAppend(AlertsOver(l, budgets[..n], g), AlertFor(l, budgets[n], g), b.id);
      OneAlert(l, budgets[n], g, b.id);
    }
  }

  // ---- exactly how many alerts a batch raises ----

  /** The budget's state once `spent` more is stored. */
  function StateWith(l: Ledger, b: Budget, spent: Cents): State
    requires b.limit.Some?
  {
    StateAt(l, b, Consumed(l.allocs, l.txns, b) + spent)
  }

  /** How far `spent` more takes the budget past the point where that state begins. */
  function Overshoot(l: Ledger, b: Budget, spent: Cents): real
    requires b.limit.Some?
  {
    (Consumed(l.allocs, l.txns, b) + spent) as real - Floor(b.limit.value, StateWith(l, b, spent), Threshold(l))
  }

  /** Number of groups that reach the budget with more than `size`. */
  function LargerThan(groups: seq<Group>, b: Budget, size: real): nat {
    if groups == [] then 0
    else
      var g := groups[|groups| - 1];
      LargerThan(groups[..|groups| - 1], b, size) + if Reaches(g, b) && g.amount as real > size then 1 else 0
  }

  /** Alerts a batch will raise, from the ledger before it and the batch itself: one for each
      date whose spending is larger than what the whole batch overshoots by. */
  function AlertsDue(l: Ledger, added: seq<Alloc>, b: Budget): nat
    requires b.limit.Some?
  {
    var groups := GroupsOf(l.txns, added);
    var spent := GroupSum(groups, b);
    if Rank(StateWith(l, b, spent)) == 0 then 0 else LargerThan(groups, b, Overshoot(l, b, spent))
  }

  lemma {:induction false} GroupWithinSum(groups: seq<Group>, b: Budget, i: nat)
    requires i < |groups| && Reaches(groups[i], b)
    requires forall g :: g in groups ==> g.amount >= 0
    ensures groups[i].amount <= GroupSum(groups, b)
  {
    if i > 0 {
      GroupWithinSum(groups[1..], b, i - 1);
    } else {
      SumNonNegative(groups[1..], b);
    }
  }

  lemma {:induction false} SumNonNegative(groups: seq<Group>, b: Budget)
    requires forall g :: g in groups ==> g.amount >= 0
    ensures GroupSum(groups, b) >= 0
  {
    if groups != [] {
      SumNonNegative(groups[1..], b);
    }
  }

  lemma {:induction false} GroupsPositive(txns: map<Id, Txn>, added: seq<Alloc>)
    requires forall a :: a in added ==> a.amount > 0
    ensures forall g :: g in GroupsOf(txns, added) ==> g.amount > 0
  {
    if added != [] {
      var front, a := added[..|added| - 1], added[|added| - 1];
      assert added == front + [a];
      GroupsPositive(txns, front);
      if a.category.Some? && a.txn in txns {
        AddKeepsPositive(GroupsOf(txns, front), Group(a.category.value, txns[a.txn].date, a.currency, a.amount));
      }
    }
  }

  lemma {:induction false} AddKeepsPositive(groups: seq<Group>, g: Group)
    requires g.amount > 0 && forall h :: h in groups ==> h.amount > 0
    ensures forall h :: h in AddToGroup(groups, g) ==> h.amount > 0
  {
    if groups != [] && !SameKey(groups[0], g) {
      AddKeepsPositive(groups[1..], g);
    }
  }

  lemma {:induction false} DecisiveIsLarger(l: Ledger, after: Ledger, b: Budget, g: Group, spent: Cents)
    requires b.limit.Some? && Threshold(l) > 0.0 && g.amount >= 0
    requires after.nearThreshold == l.nearThreshold
    requires Consumed(after.allocs, after.txns, b) == Consumed(l.allocs, l.txns, b) + spent
    ensures Now(after, b) == StateWith(l, b, spent)
    ensures Decisive(after, b, g) <==>
      Rank(StateWith(l, b, spent)) >= 1 && Reaches(g, b) && g.amount as real > Overshoot(l, b, spent)
  {
    var total := Consumed(l.allocs, l.txns, b) + spent;
    if Rank(StateWith(l, b, spent)) >= 1 {
      StateHasFloor(b.limit.value, total, total - g.amount, Threshold(l));
    }
  }

  lemma {:induction false} DecisiveCountIsDue(l: Ledger, after: Ledger, b: Budget, groups: seq<Group>, spent: Cents)
    requires b.limit.Some? && Threshold(l) > 0.0
    requires forall g :: g in groups ==> g.amount > 0
    requires after.nearThreshold == l.nearThreshold
    requires Consumed(after.allocs, after.txns, b) == Consumed(l.allocs, l.txns, b) + spent
    ensures DecisiveCount(after, b, groups)
      == if Rank(StateWith(l, b, spent)) == 0 then 0 else LargerThan(groups, b, Overshoot(l, b, spent))
  {
    if groups != [] {
      DecisiveCountIsDue(l, after, b, groups[..|groups| - 1], spent);
      DecisiveIsLarger(l, after, b, groups[|groups| - 1], spent);
    }
  }

  lemma {:induction false} NoneLarger(groups: seq<Group>, b: Budget, size: real)
    requires forall i :: 0 <= i < |groups| && Reaches(groups[i], b) ==> groups[i].amount as real <= size
    ensures LargerThan(groups, b, size) == 0
  {
    if groups != [] {
      NoneLarger(groups[..|groups| - 1], b, size);
    }
  }

  /** Had the budget been in that state before, the batch overshoots by all it spends. */
  lemma {:induction false} SameStateNoneDue(l: Ledger, added: seq<Alloc>, b: Budget)
    requires b.limit.Some? && Threshold(l) > 0.0
    requires forall a :: a in added ==> a.amount > 0
    requires Rank(StateWith(l, b, GroupSum(GroupsOf(l.txns, added), b))) == Rank(Now(l, b))
    ensures AlertsDue(l, added, b) == 0
  {
    var groups := GroupsOf(l.txns, added);
    var spent := GroupSum(groups, b);
    var consumed := Consumed(l.allocs, l.txns, b);
    if Rank(Now(l, b)) >= 1 {
      StateHasFloor(b.limit.value, consumed + spent, consumed, Threshold(l));
      GroupsPositive(l.txns, added);
      forall i | 0 <= i < |groups| && Reaches(groups[i], b)
        ensures groups[i].amount as real <= Overshoot(l, b, spent)
      {
        GroupWithinSum(groups, b, i);
      }
      NoneLarger(groups, b, Overshoot(l, b, spent));
    }
  }

  /** A batch over any dates. The budget ends in the state its money says, and that state is
      announced once for each group larger than the batch's overshoot: so a rise goes
      unannounced when no single date carries it, and is announced over and over when several
      dates each would. There is never a false alarm. */
  lemma {:induction false} BatchAlertsExactly(l: Ledger, added: seq<Alloc>, b: Budget)
    requires Watched(l, b) && NoneTwofold(added) && Threshold(l) > 0.0
    requires forall a :: a in added ==> a.amount > 0
    ensures var spent := GroupSum(GroupsOf(l.txns, added), b);
      var after := Store(l, added);
      && Watched(after, b)
      && Now(after, b) == StateWith(l, b, spent)
      && Rank(Now(l, b)) <= Rank(StateWith(l, b, spent))
      && StatesFor(after.alerts, b.id)
         == StatesFor(l.alerts, b.id) + Repeat(StateWith(l, b, spent), AlertsDue(l, added, b))
      && (Rank(StateWith(l, b, spent)) == Rank(Now(l, b)) ==> AlertsDue(l, added, b) == 0)
  {
    var groups := GroupsOf(l.txns, added);
    var after := Store(l, added);
    SpendingByGroups(l, added, b);
    StoreAnnounces(l, added, b);
    GroupsPositive(l.txns, added);
    DecisiveCountIsDue(l, after, b, groups, GroupSum(groups, b));
    if Rank(StateWith(l, b, GroupSum(groups, b))) == Rank(Now(l, b)) {
      SameStateNoneDue(l, added, b);
    }
  }

  /** The batch leaves the state where it was, or raises it with exactly one alert due. */
  ghost predicate AnnouncedOnce(l: Ledger, added: seq<Alloc>, b: Budget)
    requires b.limit.Some?
  {
    Rank(StateWith(l, b, GroupSum(GroupsOf(l.txns, added), b))) == Rank(Now(l, b)) || AlertsDue(l, added, b) == 1
  }

  /** After a right history, a batch keeps it right exactly when it is announced once. */
  lemma {:induction false} StoreKeepsStoryExactly(l: Ledger, added: seq<Alloc>, b: Budget)
    requires Watched(l, b) && NoneTwofold(added) && Threshold(l) > 0.0 && TellsTheStory(l, b)
    requires forall a :: a in added ==> a.amount > 0
    ensures TellsTheStory(Store(l, added), b) <==> AnnouncedOnce(l, added, b)
  {
    BatchAlertsExactly(l, added, b);
    var n := StateWith(l, b, GroupSum(GroupsOf(l.txns, added), b));
    var due := AlertsDue(l, added, b);
    RepeatedStory(StatesFor(l.alerts, b.id), n, due);
  }

  /** Saying n again `due` times continues a climb that stood lower exactly when it is once. */
  lemma {:induction false} RepeatedStory(states: seq<State>, n: State, due: nat)
    requires Climbs(states) && Rank(LastState(states)) <= Rank(n)
    ensures var more := states + Repeat(n, due);
      && (due == 0 ==> more == states)
      && (Rank(LastState(states)) < Rank(n) ==>
           (Climbs(more) && LastState(more) == n <==> due == 1))
  {
    var more := states + Repeat(n, due);
    if due == 0 {
      assert more == states;
    } else if due == 1 {
      assert more == states + [n];
    } else {
      assert more[|states|] == n && more[|states| + 1] == n;
    }
  }

  /** What a request stores; creates and new transactions are always announced rightly. */
  ghost predicate RightlyAnnounced(l: Ledger, r: Request, b: Budget)
    requires b.limit.Some?
  {
    r.BulkAllocate? && CheckBulk(l, r.body).None? ==> AnnouncedOnce(l, BulkFills(l, r.body), b)
  }

  function BulkFills(l: Ledger, body: BulkBody): seq<Alloc> {
    Fills(l, Pairs(body), Updated(l, Keys(Pairs(body))))
  }

  /** One date per budget is always enough. */
  lemma {:induction false} OneDateIsRight(l: Ledger, body: BulkBody, b: Budget)
    requires Inv(l) && Watched(l, b) && TellsTheStory(l, b) && Threshold(l) > 0.0
    requires CheckBulk(l, body).None? && OneReaches(GroupsOf(l.txns, BulkFills(l, body)), b)
    ensures RightlyAnnounced(l, BulkAllocate(body), b)
  {
    FillsAreSound(l, body);
    StoreKeepsStory(l, BulkFills(l, body), b);
    StoreKeepsStoryExactly(l, BulkFills(l, body), b);
  }

  lemma {:induction false} CreateKeepsStory(l: Ledger, id: Id, items: seq<Item>, b: Budget)
    requires Watched(l, b) && TellsTheStory(l, b)
    ensures Watched(Create(l, id, items), b) && TellsTheStory(Create(l, id, items), b)
  {
    AcceptedExactlyWhen(l, id, items);
    if Acceptable(l, id, items) {
      assert forall k :: 0 <= k < |items| ==> items[k] in items;
      CreateReachesOnce(l, id, items, b);
      StoreKeepsStory(l, AllocsOf(id, l.txns[id].currency, items), b);
    }
  }

  /** One request: from a right history to a right history exactly when it is rightly announced. */
  lemma {:induction false} StepKeepsStoryExactly(l: Ledger, r: Request, b: Budget)
    requires Inv(l) && Watched(l, b) && TellsTheStory(l, b) && Threshold(l) > 0.0
    ensures Watched(Step(l, r), b) && Threshold(Step(l, r)) == Threshold(l)
    ensures TellsTheStory(Step(l, r), b) <==> RightlyAnnounced(l, r, b)
  {
    match r {
      case CreateAllocations(id, items) => CreateKeepsStory(l, id, items, b);
      case BulkAllocate(body) =>
        if CheckBulk(l, body).None? {
          FillsAreSound(l, body);
          StoreKeepsStoryExactly(l, BulkFills(l, body), b);
        }
      case Record(id, t) =>
        if id !in l.txns && t.amount >= 0 {
          ConsumedIgnoresOtherTxns(l.allocs, l.txns, l.txns[id := t], b);
        }
    }
  }

  // ---- runs ----

  ghost predicate RightAt(l: Ledger, requests: seq<Request>, n: nat, b: Budget)
    requires b.limit.Some? && n < |requests|
  {
    RightlyAnnounced(Run(l, requests[..n]), requests[n], b)
  }

  ghost predicate StoryAt(l: Ledger, requests: seq<Request>, n: nat, b: Budget)
    requires b.limit.Some? && n <= |requests|
  {
    TellsTheStory(Run(l, requests[..n]), b)
  }

  lemma {:induction false} RunKeepsWatch(l: Ledger, requests: seq<Request>, b: Budget)
    requires Watched(l, b)
    ensures Watched(Run(l, requests), b) && Threshold(Run(l, requests)) == Threshold(l)
  {
    if requests != [] {
      RunKeepsWatch(l, requests[..|requests| - 1], b);
    }
  }

  lemma {:induction false} StoryMovesOn(l: Ledger, requests: seq<Request>, n: nat, b: Budget)
    requires Inv(l) && Watched(l, b) && Threshold(l) > 0.0 && n < |requests|
    requires StoryAt(l, requests, n, b)
    ensures StoryAt(l, requests, n + 1, b) <==> RightAt(l, requests, n, b)
  {
    RunKeepsWatch(l, requests[..n], b);
    RunsKeepInv(l, requests[..n]);
    assert requests[..n + 1][..n] == requests[..n];
    StepKeepsStoryExactly(Run(l, requests[..n]), requests[n], b);
  }

  lemma {:induction false} StoryUpTo(l: Ledger, requests: seq<Request>, n: nat, b: Budget)
    requires Inv(l) && Watched(l, b) && Threshold(l) > 0.0 && TellsTheStory(l, b) && n <= |requests|
    requires forall k :: 0 <= k < n ==> RightAt(l, requests, k, b)
    ensures StoryAt(l, requests, n, b)
  {
    if n == 0 {
      assert requests[..0] == [];
    } else {
      StoryUpTo(l, requests, n - 1, b);
      StoryMovesOn(l, requests, n - 1, b);
    }
  }

  /** Over any run, the alerts for a capped expense budget tell its story throughout, climbing
      strictly and ending at the current state after every request, if and only if every
      bulk request along the way is rightly announced. Then there are at most three. */
  lemma {:induction false} AlertsTellTheStory(l: Ledger, requests: seq<Request>, b: Budget)
    requires Inv(l) && Watched(l, b) && Threshold(l) > 0.0 && TellsTheStory(l, b)
    ensures (forall n :: 0 <= n <= |requests| ==> StoryAt(l, requests, n, b))
      <==> (forall n :: 0 <= n < |requests| ==> RightAt(l, requests, n, b))
    ensures (forall n :: 0 <= n < |requests| ==> RightAt(l, requests, n, b)) ==>
      TellsTheStory(Run(l, requests), b) && |StatesFor(Run(l, requests).alerts, b.id)| <= 3
  {
    if forall n :: 0 <= n < |requests| ==> RightAt(l, requests, n, b) {
      forall n | 0 <= n <= |requests|
        ensures StoryAt(l, requests, n, b)
      {
        StoryUpTo(l, requests, n, b);
      }
      assert requests[..|requests|] == requests;
      assert StoryAt(l, requests, |requests|, b);
      StoryIsShort(Run(l, requests), b);
    }
    if forall n :: 0 <= n <= |requests| ==> StoryAt(l, requests, n, b) {
      forall n | 0 <= n < |requests|
        ensures RightAt(l, requests, n, b)
      {
        assert StoryAt(l, requests, n, b) && StoryAt(l, requests, n + 1, b);
        StoryMovesOn(l, requests, n, b);
      }
    }
  }

  // ---- two requests that break the promise ----

  lemma {:induction false} TwoGroups(txns: map<Id, Txn>, x: Alloc, y: Alloc, b: Budget)
    requires x.txn in txns && y.txn in txns && txns[x.txn].date != txns[y.txn].date
    requires Counts(x, txns, b) && Counts(y, txns, b)
    ensures GroupsOf(txns, [x, y]) == [Group(b.category, txns[x.txn].date, x.currency, x.amount),
                                       Group(b.category, txns[y.txn].date, y.currency, y.amount)]
  {
    var g := Group(b.category, txns[x.txn].date, x.currency, x.amount);
    var h := Group(b.category, txns[y.txn].date, y.currency, y.amount);
    assert [x, y][..1] == [x] && [x][..0] == [];
    assert GroupsOf(txns, [x]) == [g];
    assert [g][1..] == [] && !SameKey(g, h);
    assert AddToGroup([g], h) == [g] + AddToGroup([], h);
  }

  /** Two new allocations on two days of one budget: each is judged as if the other had been
      there before it. */
  lemma {:induction false} TwoDays(l: Ledger, x: Alloc, y: Alloc, b: Budget)
    requires Watched(l, b)
    requires x.txn in l.txns && y.txn in l.txns && l.txns[x.txn].date != l.txns[y.txn].date
    requires Counts(x, l.txns, b) && Counts(y, l.txns, b)
    ensures var after := Store(l, [x, y]);
      var c := Consumed(l.allocs, l.txns, b);
      && Consumed(after.allocs, after.txns, b) == c + x.amount + y.amount
      && DecisiveCount(after, b, GroupsOf(l.txns, [x, y]))
         == (if Rank(StateAt(l, b, c + y.amount)) < Rank(StateAt(l, b, c + x.amount + y.amount)) then 1 else 0)
            + (if Rank(StateAt(l, b, c + x.amount)) < Rank(StateAt(l, b, c + x.amount + y.amount)) then 1 else 0)
  {
    TwoGroups(l.txns, x, y, b);
    ConsumedOfTwo(l, x, y, b);
    var groups := GroupsOf(l.txns, [x, y]);
    DecisiveOfTwo(Store(l, [x, y]), b, groups[0], groups[1]);
  }

  lemma {:induction false} ConsumedOfTwo(l: Ledger, x: Alloc, y: Alloc, b: Budget)
    requires Counts(x, l.txns, b) && Counts(y, l.txns, b)
    ensures Consumed(l.allocs + [x, y], l.txns, b) == Consumed(l.allocs, l.txns, b) + x.amount + y.amount
  {
    SumOfAppend(l.allocs, [x, y], SpentOn(l.txns, b));
    SumOfOne(x, SpentOn(l.txns, b));
    SumOfMore([x], y, SpentOn(l.txns, b));
    assert [x] + [y] == [x, y];
  }

  lemma {:induction false} DecisiveOfTwo(l: Ledger, b: Budget, g: Group, h: Group)
    requires b.limit.Some?
    ensures DecisiveCount(l, b, [g, h]) == (if Decisive(l, b, g) then 1 else 0) + (if Decisive(l, b, h) then 1 else 0)
  {
    assert [g, h][..1] == [g] && [g][..0] == [];
    assert DecisiveCount(l, b, [g]) == if Decisive(l, b, g) then 1 else 0;
  }

  /** A ledger with `spent` already under the budget and two open transactions of `part`
      each, one day apart. The budget's limit is 100.00. */
  function Example(spent: nat, part: nat): Ledger
    requires spent > 0
  {
    Ledger(map[1 := Txn(0, 1, part, "KES", Out), 2 := Txn(0, 2, part, "KES", Out), 3 := Txn(0, 1, spent, "KES", Out)],
           [Alloc(3, Some(7), None, None, None, None, spent, spent, "KES", None)],
           [], map[7 := Expense], {}, {0}, {}, [EXAMPLE_BUDGET], Some(0.8))
  }

  const EXAMPLE_BUDGET := Budget(9, 7, Some(10000), 1, 2, "KES")

  const EXAMPLE_BODY := BulkBody(Some([1, 2]), Some(7), None)

  function ExampleFill(id: Id, part: nat): Alloc {
    Alloc(id, Some(7), None, None, None, None, part, part, "KES", None)
  }

  lemma {:induction false} ExampleRequest()
    ensures Pairs(EXAMPLE_BODY) == [Mapping(1, Some(7)), Mapping(2, Some(7))]
    ensures Keys(Pairs(EXAMPLE_BODY)) == [1, 2]
    ensures Chosen(Pairs(EXAMPLE_BODY), 1) == Chosen(Pairs(EXAMPLE_BODY), 2) == Some(7)
  {
    var pairs := Pairs(EXAMPLE_BODY);
    assert pairs == [Mapping(1, Some(7)), Mapping(2, Some(7))];
    assert pairs[..1] == [pairs[0]] && [pairs[0]][..0] == [];
    assert Keys([pairs[0]]) == [1];
    assert Chosen([pairs[0]], 1) == Some(7);
  }

  lemma {:induction false} ExampleIsSound(spent: nat, part: nat)
    requires spent > 0 && part > 0
    ensures var l := Example(spent, part);
      && Inv(l) && Watched(l, EXAMPLE_BUDGET)
      && Consumed(l.allocs, l.txns, EXAMPLE_BUDGET) == spent
      && AllocatedTo(l.allocs, 1) == AllocatedTo(l.allocs, 2) == 0
  {
    var l := Example(spent, part);
    var a := l.allocs[0];
    assert l.allocs == [a];
    assert EXAMPLE_BUDGET in l.budgets;
    SumOfOne(a, SpentOn(l.txns, EXAMPLE_BUDGET));
    SumOfOne(a, TakenFrom(1));
    SumOfOne(a, TakenFrom(2));
    SumOfOne(a, TakenFrom(3));
  }

  lemma {:induction false} ExampleBulk(spent: nat, part: nat)
    requires spent > 0 && part > 0
    ensures var l := Example(spent, part);
      && CheckBulk(l, EXAMPLE_BODY).None?
      && Bulk(l, EXAMPLE_BODY) == Store(l, [ExampleFill(1, part), ExampleFill(2, part)])
  {
    var l := Example(spent, part);
    var pairs := Pairs(EXAMPLE_BODY);
    ExampleRequest();
    ExampleIsSound(spent, part);
    assert !MissingTxn(l, [1, 2]) && !MissingCategory(l, pairs, [1, 2]) && !AnyMismatch(l, pairs, [1, 2]);
    assert [1, 2][..1] == [1] && [1][..0] == [];
    assert Updated(l, [1]) == [1];
    assert Updated(l, [1, 2]) == [1, 2];
    var fills := Fills(l, pairs, [1, 2]);
    assert Fill(l, pairs, 1) == ExampleFill(1, part) && Fill(l, pairs, 2) == ExampleFill(2, part);
    assert fills == [ExampleFill(1, part), ExampleFill(2, part)];
  }

  /** One bulk request, two dates: the same alert raised twice. */
  lemma {:induction false} BulkCanAlertTwice()
    ensures var l := Example(1000, 4500);
      && Inv(l) && Watched(l, EXAMPLE_BUDGET) && CheckBulk(l, EXAMPLE_BODY).None?
      && StatesFor(Bulk(l, EXAMPLE_BODY).alerts, EXAMPLE_BUDGET.id) == [At, At]
  {
    var l := Example(1000, 4500);
    var x, y := ExampleFill(1, 4500), ExampleFill(2, 4500);
    ExampleIsSound(1000, 4500);
    ExampleBulk(1000, 4500);
    TwoDays(l, x, y, EXAMPLE_BUDGET);
    StoreAnnounces(l, [x, y], EXAMPLE_BUDGET);
    assert Ratio(10000, 10000) == 1.0 && Ratio(10000, 5500) == 0.55;
    RepeatFew(At);
  }

  /** One bulk request, two dates: the budget goes from fine to near, and nobody is told. */
  lemma {:induction false} BulkCanMissAlert()
    ensures var l := Example(7500, 1000);
      && Inv(l) && Watched(l, EXAMPLE_BUDGET) && CheckBulk(l, EXAMPLE_BODY).None?
      && Now(l, EXAMPLE_BUDGET) == Okay && Now(Bulk(l, EXAMPLE_BODY), EXAMPLE_BUDGET) == Near
      && StatesFor(Bulk(l, EXAMPLE_BODY).alerts, EXAMPLE_BUDGET.id) == []
  {
    var l := Example(7500, 1000);
    var x, y := ExampleFill(1, 1000), ExampleFill(2, 1000);
    ExampleIsSound(7500, 1000);
    ExampleBulk(7500, 1000);
    TwoDays(l, x, y, EXAMPLE_BUDGET);
    StoreAnnounces(l, [x, y], EXAMPLE_BUDGET);
    assert Ratio(10000, 7500) == 0.75 && Ratio(10000, 8500) == 0.85 && Ratio(10000, 9500) == 0.95;
  }

  // ---- the setting makes the difference ----

  /** One open transaction of 60.00 and a budget of 100.00 with nothing spent, under a setting. */
  function Untouched(setting: Option<real>): Ledger {
    Ledger(map[1 := Txn(0, 1, 6000, "KES", Out)], [], [], map[7 := Expense], {}, {0}, {}, [EXAMPLE_BUDGET], setting)
  }

  const EXAMPLE_SPLIT := Item(Some(7), None, None, None, None, 6000, None)

  lemma {:induction false} SplitOnUntouched(setting: Option<real>)
    ensures var l := Untouched(setting);
      && Acceptable(l, 1, [EXAMPLE_SPLIT]) && Watched(l, EXAMPLE_BUDGET)
      && Create(l, 1, [EXAMPLE_SPLIT]) == Store(l, [ExampleFill(1, 6000)])
      && Consumed(Store(l, [ExampleFill(1, 6000)]).allocs, l.txns, EXAMPLE_BUDGET) == 6000
  {
    var l := Untouched(setting);
    assert EXAMPLE_BUDGET in l.budgets;
    assert [EXAMPLE_SPLIT][..0] == [];
    assert TotalOf([EXAMPLE_SPLIT]) == 6000;
    AcceptedExactlyWhen(l, 1, [EXAMPLE_SPLIT]);
    assert AllocsOf(1, "KES", [EXAMPLE_SPLIT]) == [ExampleFill(1, 6000)];
    assert l.allocs + [ExampleFill(1, 6000)] == [ExampleFill(1, 6000)];
    SumOfOne(ExampleFill(1, 6000), SpentOn(l.txns, EXAMPLE_BUDGET));
  }

  /** The same request: near for a user who set one half, silence for one who set nothing. */
  lemma {:induction false} SettingDecides()
    ensures Acceptable(Untouched(Some(0.5)), 1, [EXAMPLE_SPLIT]) && Acceptable(Untouched(None), 1, [EXAMPLE_SPLIT])
    ensures StatesFor(Create(Untouched(Some(0.5)), 1, [EXAMPLE_SPLIT]).alerts, EXAMPLE_BUDGET.id) == [Near]
    ensures StatesFor(Create(Untouched(None), 1, [EXAMPLE_SPLIT]).alerts, EXAMPLE_BUDGET.id) == []
  {
    SplitOnUntouched(Some(0.5));
    SplitOnUntouched(None);
    CreateReachesOnce(Untouched(Some(0.5)), 1, [EXAMPLE_SPLIT], EXAMPLE_BUDGET);
    CreateReachesOnce(Untouched(None), 1, [EXAMPLE_SPLIT], EXAMPLE_BUDGET);
    AnnouncedByTheSetting(Untouched(Some(0.5)), [ExampleFill(1, 6000)], EXAMPLE_BUDGET, 0.5);
    AnnouncedByTheSetting(Untouched(None), [ExampleFill(1, 6000)], EXAMPLE_BUDGET, 0.8);
  }

  // ---- two queries, one figure ----

  /** The plan listing sums a budget's consumption without looking at transfer reasons. */
  function Listed(txns: map<Id, Txn>, b: Budget): Alloc -> int {
    (a: Alloc) =>
      if a.category == Some(b.category) && a.currency == b.currency && a.txn in txns
         && b.starts <= txns[a.txn].date <= b.ends then a.amount else 0
  }

  function ListedConsumption(allocs: seq<Alloc>, txns: map<Id, Txn>, b: Budget): Cents {
    SumOf(allocs, Listed(txns, b))
  }

  /** It is nevertheless the figure the alerts use, in every state that can be reached. */
  lemma {:induction false} ListingAgreesWithAlerts(l: Ledger, requests: seq<Request>, b: Budget)
    requires Inv(l)
    ensures var after := Run(l, requests);
      ListedConsumption(after.allocs, after.txns, b) == Consumed(after.allocs, after.txns, b)
  {
    RunsKeepInv(l, requests);
    var after := Run(l, requests);
    assert NoneTwofold(after.allocs);
    SumOfCongruent(after.allocs, Listed(after.txns, b), SpentOn(after.txns, b));
  }
}
