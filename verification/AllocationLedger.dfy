/** The allocation side of the ledger as a state machine: what app/api/transactions.py and
    app/repositories/notifications.py do to one user's tables, one request at a time. */
module AllocationLedger {
  import opened Basics
  import opened Sums
  import opened BudgetState

  datatype Txn = Txn(account: Id, date: Date, amount: Cents, currency: string, dir: Direction)

  /** `original` is in the transaction's currency and decides how much of it is reconciled;
      `amount` is the figure budgets and reports add up. */
  datatype Alloc = Alloc(
    txn: Id,
    category: Option<Id>,
    reason: Option<Id>,
    sourceAccount: Option<Id>,
    sourceSubLedger: Option<Id>,
    sourceText: Option<string>,
    original: Cents,
    amount: Cents,
    currency: string,
    note: Option<string>)

  /** A budget together with its plan's window and currency. */
  datatype Budget = Budget(id: Id, category: Id, limit: Option<Cents>, starts: Date, ends: Date, currency: string)

  datatype Alert = Alert(budget: Id, state: State)

  datatype Ledger = Ledger(
    txns: map<Id, Txn>,
    allocs: seq<Alloc>,
    alerts: seq<Alert>,
    categories: map<Id, CategoryType>,
    reasons: set<Id>,
    accounts: set<Id>,
    subLedgers: set<Id>,
    budgets: seq<Budget>,
    nearThreshold: Option<real>)

  // ---- sums over allocations ----

  /** What an allocation takes of one transaction. */
  function TakenFrom(id: Id): Alloc -> int {
    (a: Alloc) => if a.txn == id then a.original else 0
  }

  function AllocatedTo(allocs: seq<Alloc>, id: Id): Cents {
    SumOf(allocs, TakenFrom(id))
  }

  lemma {:induction false} AllocatedNonNegative(allocs: seq<Alloc>, id: Id)
    requires forall a :: a in allocs && a.txn == id ==> a.original > 0
    ensures AllocatedTo(allocs, id) >= 0
    ensures AllocatedTo(allocs, id) == 0 <==> forall a :: a in allocs ==> a.txn != id
  {
    if allocs != [] {
      var front, last := allocs[..|allocs| - 1], allocs[|allocs| - 1];
      assert allocs == front + [last];
      AllocatedNonNegative(front, id);
    }
  }

  /** Spending a budget counts, as the alert query sums it. */
  predicate Counts(a: Alloc, txns: map<Id, Txn>, b: Budget) {
    && a.category == Some(b.category)
    && a.currency == b.currency
    && a.reason.None?
    && a.txn in txns
    && b.starts <= txns[a.txn].date <= b.ends
  }

  function SpentOn(txns: map<Id, Txn>, b: Budget): Alloc -> int {
    (a: Alloc) => if Counts(a, txns, b) then a.amount else 0
  }

  function Consumed(allocs: seq<Alloc>, txns: map<Id, Txn>, b: Budget): Cents {
    SumOf(allocs, SpentOn(txns, b))
  }

  // ---- alerts ----

  /** New spending of one category on one date in one currency. */
  datatype Group = Group(category: Id, date: Date, currency: string, amount: Cents)

  predicate SameKey(g: Group, h: Group) {
    g.category == h.category && g.date == h.date && g.currency == h.currency
  }

  /** Adding to an insertion-ordered dictionary of amounts. */
  function AddToGroup(groups: seq<Group>, g: Group): seq<Group> {
    if groups == [] then [g]
    else if SameKey(groups[0], g) then [groups[0].(amount := groups[0].amount + g.amount)] + groups[1..]
    else [groups[0]] + AddToGroup(groups[1..], g)
  }

  function GroupsOf(txns: map<Id, Txn>, added: seq<Alloc>): seq<Group> {
    if added == [] then []
    else
      var groups, a := GroupsOf(txns, added[..|added| - 1]), added[|added| - 1];
      if a.category.None? || a.txn !in txns then groups
      else AddToGroup(groups, Group(a.category.value, txns[a.txn].date, a.currency, a.amount))
  }

  /** The group's money falls into the budget. */
  predicate Reaches(g: Group, b: Budget) {
    b.category == g.category && b.currency == g.currency && b.starts <= g.date <= b.ends
  }

  function Threshold(l: Ledger): real {
    if l.nearThreshold.None? || l.nearThreshold.value == 0.0 then DEFAULT_NEAR_THRESHOLD else l.nearThreshold.value
  }

  function StateAt(l: Ledger, b: Budget, consumed: Cents): State
    requires b.limit.Some?
  {
    ExpenseState(b.limit.value, consumed, Threshold(l))
  }

  function AlertFor(l: Ledger, b: Budget, g: Group): seq<Alert> {
    if !Reaches(g, b) || b.limit.None? then []
    else
      var consumedAfter := Consumed(l.allocs, l.txns, b);
      var before, after := StateAt(l, b, consumedAfter - g.amount), StateAt(l, b, consumedAfter);
      if after.Okay? || Rank(after) <= Rank(before) then [] else [Alert(b.id, after)]
  }

  function AlertsOver(l: Ledger, budgets: seq<Budget>, g: Group): seq<Alert> {
    if budgets == [] then []
    else AlertsOver(l, budgets[..|budgets| - 1], g) + AlertFor(l, budgets[|budgets| - 1], g)
  }

  function AlertsOfGroup(l: Ledger, g: Group): seq<Alert> {
    if g.category !in l.categories || l.categories[g.category].Income? then []
    else AlertsOver(l, l.budgets, g)
  }

  function GroupAlerts(l: Ledger, groups: seq<Group>): seq<Alert> {
    if groups == [] then []
    else GroupAlerts(l, groups[..|groups| - 1]) + AlertsOfGroup(l, groups[|groups| - 1])
  }

  /** Storing new allocations, then raising the alerts they call for. */
  function Store(l: Ledger, added: seq<Alloc>): Ledger {
    var stored := l.(allocs := l.allocs + added);
    stored.(alerts := l.alerts + GroupAlerts(stored, GroupsOf(l.txns, added)))
  }

  // ---- create allocations ----

  /** One requested split. The source text is taken after stripping, blank being none. */
  datatype Item = Item(
    category: Option<Id>,
    reason: Option<Id>,
    sourceAccount: Option<Id>,
    sourceSubLedger: Option<Id>,
    sourceText: Option<string>,
    amount: Cents,
    note: Option<string>)

  datatype Rejection =
    | EmptyRequest
    | WrongShape
    | TxnNotFound
    | AmountNotPositive(split: nat)
    | CategoryAndReason(split: nat)
    | SeveralSources(split: nat)
    | CategoryNotFound
    | ReasonNotFound
    | SourceAccountNotFound
    | SourceSubLedgerNotFound
    | TypeMismatch(split: nat)
    | ExceedsRemaining(remaining: Cents)

  function ExpectedType(dir: Direction): CategoryType {
    if dir.Out? then Expense else Income
  }

  predicate BothSet(i: Item) {
    i.category.Some? && i.reason.Some?
  }

  function Given<T>(o: Option<T>): nat {
    if o.Some? then 1 else 0
  }

  predicate TooManySources(i: Item) {
    i.reason.Some? && Given(i.sourceAccount) + Given(i.sourceSubLedger) + Given(i.sourceText) > 1
  }

  predicate NotPositive(i: Item) {
    i.amount <= 0
  }

  predicate Misshapen(i: Item) {
    BothSet(i) || TooManySources(i)
  }

  predicate Mismatched(categories: map<Id, CategoryType>, dir: Direction, category: Option<Id>) {
    category.Some? && category.value in categories && categories[category.value] != ExpectedType(dir)
  }

  /** Position of the first item that p holds of. */
  function First(items: seq<Item>, p: Item -> bool): Option<nat> {
    if items == [] then None
    else if First(items[..|items| - 1], p).Some? then First(items[..|items| - 1], p)
    else if p(items[|items| - 1]) then Some(|items| - 1)
    else None
  }

  lemma {:induction false} FirstIsFirst(items: seq<Item>, p: Item -> bool)
    ensures match First(items, p)
            case None => forall i :: 0 <= i < |items| ==> !p(items[i])
            case Some(k) => k < |items| && p(items[k]) && forall i :: 0 <= i < k ==> !p(items[i])
  {
    if items != [] {
      FirstIsFirst(items[..|items| - 1], p);
    }
  }

  function FirstMismatch(categories: map<Id, CategoryType>, dir: Direction, items: seq<Item>): Option<nat> {
    First(items, (i: Item) => Mismatched(categories, dir, i.category))
  }

  predicate UnknownCategory(l: Ledger, items: seq<Item>) {
    exists i :: 0 <= i < |items| && items[i].category.Some? && items[i].category.value !in l.categories
  }

  predicate UnknownReason(l: Ledger, items: seq<Item>) {
    exists i :: 0 <= i < |items| && items[i].reason.Some? && items[i].reason.value !in l.reasons
  }

  predicate UnknownAccount(l: Ledger, items: seq<Item>) {
    exists i :: 0 <= i < |items| && items[i].sourceAccount.Some? && items[i].sourceAccount.value !in l.accounts
  }

  predicate UnknownSubLedger(l: Ledger, items: seq<Item>) {
    exists i :: 0 <= i < |items| && items[i].sourceSubLedger.Some? && items[i].sourceSubLedger.value !in l.subLedgers
  }

  function TotalOf(items: seq<Item>): Cents {
    if items == [] then 0 else TotalOf(items[..|items| - 1]) + items[|items| - 1].amount
  }

  /** The checks, in the order the endpoint makes them. */
  function CheckCreate(l: Ledger, id: Id, items: seq<Item>): Option<Rejection> {
    if items == [] then Some(EmptyRequest)
    else if id !in l.txns then Some(TxnNotFound)
    else
      var t := l.txns[id];
      FirstIsFirst(items, Misshapen);
      var notPositive, misshapen := First(items, NotPositive), First(items, Misshapen);
      var mismatched := FirstMismatch(l.categories, t.dir, items);
      if notPositive.Some? then Some(AmountNotPositive(notPositive.value + 1))
      else if misshapen.Some? then
        Some(if BothSet(items[misshapen.value]) then CategoryAndReason(misshapen.value + 1)
             else SeveralSources(misshapen.value + 1))
      else if UnknownCategory(l, items) then Some(CategoryNotFound)
      else if UnknownReason(l, items) then Some(ReasonNotFound)
      else if UnknownAccount(l, items) then Some(SourceAccountNotFound)
      else if UnknownSubLedger(l, items) then Some(SourceSubLedgerNotFound)
      else if mismatched.Some? then Some(TypeMismatch(mismatched.value + 1))
      else if AllocatedTo(l.allocs, id) + TotalOf(items) > t.amount
      then Some(ExceedsRemaining(t.amount - AllocatedTo(l.allocs, id)))
      else None
  }

  function AllocOf(id: Id, currency: string, i: Item): Alloc {
    Alloc(id, i.category, i.reason, i.sourceAccount, i.sourceSubLedger, i.sourceText,
          i.amount, i.amount, currency, i.note)
  }

  function AllocsOf(id: Id, currency: string, items: seq<Item>): seq<Alloc> {
    seq(|items|, k requires 0 <= k < |items| => AllocOf(id, currency, items[k]))
  }

  function Create(l: Ledger, id: Id, items: seq<Item>): Ledger {
    if CheckCreate(l, id, items).Some? || id !in l.txns then l
    else Store(l, AllocsOf(id, l.txns[id].currency, items))
  }

  // ---- bulk allocate ----

  datatype Mapping = Mapping(txn: Id, category: Option<Id>)

  datatype BulkBody = BulkBody(txnIds: Option<seq<Id>>, category: Option<Id>, allocations: Option<seq<Mapping>>)

  /** The requested pairs, whichever of the two shapes they came in. */
  function Pairs(body: BulkBody): seq<Mapping> {
    if body.txnIds.Some? then
      var ids := body.txnIds.value;
      seq(|ids|, i requires 0 <= i < |ids| => Mapping(ids[i], body.category))
    else if body.allocations.Some? then body.allocations.value
    else []
  }

  /** Keys of the dictionary built from the pairs: each id once, where it first stood. */
  function Keys(pairs: seq<Mapping>): seq<Id> {
    if pairs == [] then []
    else
      var front, last := Keys(pairs[..|pairs| - 1]), pairs[|pairs| - 1];
      if last.txn in front then front else front + [last.txn]
  }

  /** Its value for an id: the last one given. */
  function Chosen(pairs: seq<Mapping>, id: Id): Option<Id> {
    if pairs == [] then None
    else if pairs[|pairs| - 1].txn == id then pairs[|pairs| - 1].category
    else Chosen(pairs[..|pairs| - 1], id)
  }

  predicate MissingTxn(l: Ledger, keys: seq<Id>) {
    exists i :: 0 <= i < |keys| && keys[i] !in l.txns
  }

  predicate MissingCategory(l: Ledger, pairs: seq<Mapping>, keys: seq<Id>) {
    exists i :: 0 <= i < |keys| && Chosen(pairs, keys[i]).Some? && Chosen(pairs, keys[i]).value !in l.categories
  }

  predicate AnyMismatch(l: Ledger, pairs: seq<Mapping>, keys: seq<Id>) {
    exists i ::
      0 <= i < |keys| && keys[i] in l.txns && Mismatched(l.categories, l.txns[keys[i]].dir, Chosen(pairs, keys[i]))
  }

  function CheckBulk(l: Ledger, body: BulkBody): Option<Rejection> {
    if body.txnIds.Some? == body.allocations.Some? then Some(WrongShape)
    else
      var pairs := Pairs(body);
      var keys := Keys(pairs);
      if pairs == [] then Some(EmptyRequest)
      else if MissingTxn(l, keys) then Some(TxnNotFound)
      else if MissingCategory(l, pairs, keys) then Some(CategoryNotFound)
      else if AnyMismatch(l, pairs, keys) then Some(TypeMismatch(0))
      else None
  }

  function Remaining(l: Ledger, id: Id): Cents {
    if id in l.txns then l.txns[id].amount - AllocatedTo(l.allocs, id) else 0
  }

  function Updated(l: Ledger, keys: seq<Id>): seq<Id> {
    if keys == [] then []
    else
      var front, last := Updated(l, keys[..|keys| - 1]), keys[|keys| - 1];
      if Remaining(l, last) > 0 then front + [last] else front
  }

  function Skipped(l: Ledger, keys: seq<Id>): seq<Id> {
    if keys == [] then []
    else
      var front, last := Skipped(l, keys[..|keys| - 1]), keys[|keys| - 1];
      if Remaining(l, last) > 0 then front else front + [last]
  }

  /** What is left of one transaction, put under its chosen category. */
  function Fill(l: Ledger, pairs: seq<Mapping>, id: Id): Alloc {
    Alloc(id, Chosen(pairs, id), None, None, None, None, Remaining(l, id), Remaining(l, id),
          if id in l.txns then l.txns[id].currency else "", None)
  }

  function Fills(l: Ledger, pairs: seq<Mapping>, ids: seq<Id>): seq<Alloc> {
    seq(|ids|, k requires 0 <= k < |ids| => Fill(l, pairs, ids[k]))
  }

  function Bulk(l: Ledger, body: BulkBody): Ledger {
    if CheckBulk(l, body).Some? then l
    else
      var pairs := Pairs(body);
      Store(l, Fills(l, pairs, Updated(l, Keys(pairs))))
  }

  // ---- runs ----

  /** A new transaction enters the ledger under a new id, from a statement or by hand. */
  datatype Request =
    | CreateAllocations(id: Id, items: seq<Item>)
    | BulkAllocate(body: BulkBody)
    | Record(newId: Id, txn: Txn)

  function Step(l: Ledger, r: Request): Ledger {
    match r
    case CreateAllocations(id, items) => Create(l, id, items)
    case BulkAllocate(body) => Bulk(l, body)
    case Record(id, t) => if id in l.txns || t.amount < 0 then l else l.(txns := l.txns[id := t])
  }

  function Run(l: Ledger, requests: seq<Request>): Ledger {
    if requests == [] then l else Step(Run(l, requests[..|requests| - 1]), requests[|requests| - 1])
  }

  // ---- the invariant ----

  ghost predicate Sound(a: Alloc, txns: map<Id, Txn>, categories: map<Id, CategoryType>) {
    && a.txn in txns
    && a.original == a.amount > 0
    && a.currency == txns[a.txn].currency
    && !(a.category.Some? && a.reason.Some?)
    && (a.category.Some? ==>
         a.category.value in categories && categories[a.category.value] == ExpectedType(txns[a.txn].dir))
    && (a.reason.Some? ==> Given(a.sourceAccount) + Given(a.sourceSubLedger) + Given(a.sourceText) <= 1)
  }

  ghost predicate AllSound(l: Ledger) {
    forall a :: a in l.allocs ==> Sound(a, l.txns, l.categories)
  }

  ghost predicate WithinAmounts(l: Ledger) {
    forall id :: id in l.txns ==> 0 <= l.txns[id].amount && AllocatedTo(l.allocs, id) <= l.txns[id].amount
  }

  ghost predicate Inv(l: Ledger) {
    AllSound(l) && WithinAmounts(l)
  }

  lemma {:induction false} AllocatedByItems(id: Id, currency: string, items: seq<Item>, other: Id)
    ensures AllocatedTo(AllocsOf(id, currency, items), other) == if other == id then TotalOf(items) else 0
  {
    var allocs := AllocsOf(id, currency, items);
    if items != [] {
      AllocatedByItems(id, currency, items[..|items| - 1], other);
      assert allocs[..|allocs| - 1] == AllocsOf(id, currency, items[..|items| - 1]);
    }
  }

  /** Spelled out: what a request must satisfy to be accepted, all of it and nothing else. */
  ghost predicate Acceptable(l: Ledger, id: Id, items: seq<Item>) {
    && items != [] && id in l.txns
    && (forall i :: i in items ==> AcceptableItem(l, l.txns[id].dir, i))
    && AllocatedTo(l.allocs, id) + TotalOf(items) <= l.txns[id].amount
  }

  ghost predicate AcceptableItem(l: Ledger, dir: Direction, i: Item) {
    && i.amount > 0
    && !(i.category.Some? && i.reason.Some?)
    && (i.reason.Some? ==> Given(i.sourceAccount) + Given(i.sourceSubLedger) + Given(i.sourceText) <= 1)
    && (i.category.Some? ==> i.category.value in l.categories && l.categories[i.category.value] == ExpectedType(dir))
    && (i.reason.Some? ==> i.reason.value in l.reasons)
    && (i.sourceAccount.Some? ==> i.sourceAccount.value in l.accounts)
    && (i.sourceSubLedger.Some? ==> i.sourceSubLedger.value in l.subLedgers)
  }

  lemma {:induction false} AcceptedExactlyWhen(l: Ledger, id: Id, items: seq<Item>)
    ensures CheckCreate(l, id, items).None? <==> Acceptable(l, id, items)
  {
    if id in l.txns {
      var mismatched := (i: Item) => Mismatched(l.categories, l.txns[id].dir, i.category);
      FirstIsFirst(items, NotPositive);
      FirstIsFirst(items, Misshapen);
      FirstIsFirst(items, mismatched);
      if CheckCreate(l, id, items).None? {
        forall i | i in items
          ensures AcceptableItem(l, l.txns[id].dir, i)
        {
          var k :| 0 <= k < |items| && items[k] == i;
          assert !NotPositive(items[k]) && !Misshapen(items[k]) && !mismatched(items[k]);
        }
      }
      if Acceptable(l, id, items) {
        assert forall k :: 0 <= k < |items| ==> AcceptableItem(l, l.txns[id].dir, items[k]);
      }
    }
  }

  lemma {:induction false} CreateKeepsInv(l: Ledger, id: Id, items: seq<Item>)
    requires Inv(l)
    ensures Inv(Create(l, id, items))
  {
    AcceptedExactlyWhen(l, id, items);
    if CheckCreate(l, id, items).None? {
      var added := AllocsOf(id, l.txns[id].currency, items);
      var after := Create(l, id, items);
      forall a | a in after.allocs
        ensures Sound(a, l.txns, l.categories)
      {
        if a !in l.allocs {
          var k :| 0 <= k < |added| && added[k] == a;
          assert items[k] in items;
        }
      }
      forall other | other in l.txns
        ensures AllocatedTo(after.allocs, other) <= l.txns[other].amount
      {
        SumOfAppend(l.allocs, added, TakenFrom(other));
        AllocatedByItems(id, l.txns[id].currency, items, other);
      }
    }
  }

  // ---- bulk allocation, in detail ----

  lemma {:induction false} KeysAreDistinctIds(pairs: seq<Mapping>)
    ensures Distinct(Keys(pairs))
    ensures forall id :: id in Keys(pairs) <==> exists i :: 0 <= i < |pairs| && pairs[i].txn == id
  {
    if pairs != [] {
      var front, last := pairs[..|pairs| - 1], pairs[|pairs| - 1];
      KeysAreDistinctIds(front);
      assert forall i :: 0 <= i < |front| ==> front[i] == pairs[i];
      assert pairs[|pairs| - 1].txn == last.txn;
    }
  }

  lemma {:induction false} UpdatedOrSkipped(l: Ledger, keys: seq<Id>)
    requires Distinct(keys)
    ensures Distinct(Updated(l, keys)) && Distinct(Skipped(l, keys))
    ensures forall id :: id in Updated(l, keys) <==> id in keys && Remaining(l, id) > 0
    ensures forall id :: id in Skipped(l, keys) <==> id in keys && Remaining(l, id) <= 0
  {
    if keys != [] {
      var front, last := keys[..|keys| - 1], keys[|keys| - 1];
      assert keys == front + [last];
      UpdatedOrSkipped(l, front);
    }
  }

  lemma {:induction false} AllocatedByFills(l: Ledger, pairs: seq<Mapping>, ids: seq<Id>, id: Id)
    requires Distinct(ids)
    ensures AllocatedTo(Fills(l, pairs, ids), id) == if id in ids then Remaining(l, id) else 0
  {
    if ids != [] {
      var n := |ids| - 1;
      AllocatedByFills(l, pairs, ids[..n], id);
      assert ids == ids[..n] + [ids[n]];
      assert Fills(l, pairs, ids)[..n] == Fills(l, pairs, ids[..n]);
    }
  }

  /** An accepted bulk request splits the distinct ids it names into updated and skipped.
      Every updated transaction ends up allocated to exactly its amount; every other one,
      skipped or not named at all, keeps what it had, however often ids were repeated. */
  lemma {:induction false} BulkSplitsAndFills(l: Ledger, body: BulkBody)
    requires Inv(l) && CheckBulk(l, body).None?
    ensures var keys := Keys(Pairs(body));
      var after := Bulk(l, body);
      var updated, skipped := Updated(l, keys), Skipped(l, keys);
      && Distinct(updated) && Distinct(skipped)
      && (forall id :: !(id in updated && id in skipped))
      && (forall id :: id in updated || id in skipped
           <==> exists i :: 0 <= i < |Pairs(body)| && Pairs(body)[i].txn == id)
      && after.txns == l.txns
      && (forall id :: id in updated ==> id in l.txns && AllocatedTo(after.allocs, id) == l.txns[id].amount)
      && (forall id :: id in skipped ==> id in l.txns && AllocatedTo(l.allocs, id) == l.txns[id].amount)
      && (forall id :: id !in updated ==> AllocatedTo(after.allocs, id) == AllocatedTo(l.allocs, id))
  {
    var pairs := Pairs(body);
    var keys := Keys(pairs);
    var updated := Updated(l, keys);
    KeysAreDistinctIds(pairs);
    UpdatedOrSkipped(l, keys);
    forall id
      ensures AllocatedTo(Bulk(l, body).allocs, id)
        == AllocatedTo(l.allocs, id) + if id in updated then Remaining(l, id) else 0
    {
      SumOfAppend(l.allocs, Fills(l, pairs, updated), TakenFrom(id));
      AllocatedByFills(l, pairs, updated, id);
    }
    forall id | id in keys
      ensures id in l.txns
    {
      var i :| 0 <= i < |keys| && keys[i] == id;
    }
  }

  lemma {:induction false} FillIsSound(l: Ledger, pairs: seq<Mapping>, keys: seq<Id>, i: nat)
    requires !MissingTxn(l, keys) && !MissingCategory(l, pairs, keys) && !AnyMismatch(l, pairs, keys)
    requires i < |keys| && Remaining(l, keys[i]) > 0
    ensures Sound(Fill(l, pairs, keys[i]), l.txns, l.categories)
  {
    assert keys[i] in l.txns;
    assert !Mismatched(l.categories, l.txns[keys[i]].dir, Chosen(pairs, keys[i]));
  }

  lemma {:induction false} FillsAreSound(l: Ledger, body: BulkBody)
    requires CheckBulk(l, body).None?
    ensures var pairs := Pairs(body);
      forall a :: a in Fills(l, pairs, Updated(l, Keys(pairs))) ==> Sound(a, l.txns, l.categories)
  {
    var pairs := Pairs(body);
    var keys := Keys(pairs);
    var updated := Updated(l, keys);
    KeysAreDistinctIds(pairs);
    UpdatedOrSkipped(l, keys);
    forall k | 0 <= k < |updated|
      ensures Sound(Fill(l, pairs, updated[k]), l.txns, l.categories)
    {
      assert updated[k] in updated;
      var i :| 0 <= i < |keys| && keys[i] == updated[k];
      FillIsSound(l, pairs, keys, i);
    }
  }

  lemma {:induction false} BulkKeepsInv(l: Ledger, body: BulkBody)
    requires Inv(l)
    ensures Inv(Bulk(l, body))
  {
    if CheckBulk(l, body).None? {
      FillsAreSound(l, body);
      BulkSplitsAndFills(l, body);
      var after := Bulk(l, body);
      var updated := Updated(l, Keys(Pairs(body)));
      forall id | id in l.txns
        ensures AllocatedTo(after.allocs, id) <= l.txns[id].amount
      {
        assert id in updated || AllocatedTo(after.allocs, id) == AllocatedTo(l.allocs, id);
      }
    }
  }

  lemma {:induction false} NothingLeftNothingUpdated(l: Ledger, keys: seq<Id>)
    requires forall id :: id in keys ==> Remaining(l, id) <= 0
    ensures Updated(l, keys) == [] && Skipped(l, keys) == keys
  {
    if keys != [] {
      var front, last := keys[..|keys| - 1], keys[|keys| - 1];
      assert keys == front + [last];
      NothingLeftNothingUpdated(l, front);
    }
  }

  lemma {:induction false} NothingToFill(l: Ledger, body: BulkBody)
    requires CheckBulk(l, body).None?
    requires forall id :: id in Keys(Pairs(body)) ==> Remaining(l, id) <= 0
    ensures Updated(l, Keys(Pairs(body))) == [] && Skipped(l, Keys(Pairs(body))) == Keys(Pairs(body))
    ensures Bulk(l, body) == l
  {
    NothingLeftNothingUpdated(l, Keys(Pairs(body)));
    var none := Fills(l, Pairs(body), []);
    assert none == [] && l.allocs + none == l.allocs;
    assert GroupsOf(l.txns, none) == [];
    assert l.alerts + [] == l.alerts;
  }

  lemma {:induction false} SameTablesSameCheck(l: Ledger, m: Ledger, body: BulkBody)
    requires l.txns == m.txns && l.categories == m.categories
    ensures CheckBulk(l, body) == CheckBulk(m, body)
  {
  }

  /** The same bulk request again is accepted, updates nothing and changes nothing. */
  lemma {:induction false} BulkTwiceIsBulkOnce(l: Ledger, body: BulkBody)
    requires Inv(l) && CheckBulk(l, body).None?
    ensures var after := Bulk(l, body);
      && CheckBulk(after, body).None?
      && Updated(after, Keys(Pairs(body))) == []
      && Skipped(after, Keys(Pairs(body))) == Keys(Pairs(body))
      && Bulk(after, body) == after
  {
    var after := Bulk(l, body);
    BulkSplitsAndFills(l, body);
    KeysAreDistinctIds(Pairs(body));
    SameTablesSameCheck(l, after, body);
    NothingToFill(after, body);
  }

  // ---- every reachable ledger ----

  lemma {:induction false} StepKeepsInv(l: Ledger, r: Request)
    requires Inv(l)
    ensures Inv(Step(l, r))
  {
    match r {
      case CreateAllocations(id, items) => CreateKeepsInv(l, id, items);
      case BulkAllocate(body) => BulkKeepsInv(l, body);
      case Record(id, t) =>
        if id !in l.txns {
          assert forall a :: a in l.allocs ==> a.txn != id;
          AllocatedNonNegative(l.allocs, id);
        }
    }
  }

  /** In every state any run can reach, each transaction's allocations are positive and sum
      to at most its amount, none has both a category and a transfer reason, and every
      category fits its transaction's direction. */
  lemma {:induction false} RunsKeepInv(l: Ledger, requests: seq<Request>)
    requires Inv(l)
    ensures Inv(Run(l, requests))
  {
    if requests != [] {
      RunsKeepInv(l, requests[..|requests| - 1]);
      StepKeepsInv(Run(l, requests[..|requests| - 1]), requests[|requests| - 1]);
    }
  }

  /** A rejected request leaves the whole ledger as it was. */
  lemma {:induction false} RejectedChangesNothing(l: Ledger, r: Request)
    requires match r
             case CreateAllocations(id, items) => !Acceptable(l, id, items)
             case BulkAllocate(body) => CheckBulk(l, body).Some?
             case Record(id, _) => id in l.txns
    ensures Step(l, r) == l
  {
    if r.CreateAllocations? {
      AcceptedExactlyWhen(l, r.id, r.items);
    }
  }

  // ---- reconciliation status ----

  datatype Reconciliation = Unreconciled | Partial | Reconciled

  function StatusOf(l: Ledger, id: Id): Reconciliation
    requires id in l.txns
  {
    var total := AllocatedTo(l.allocs, id);
    if total >= l.txns[id].amount then Reconciled else if total > 0 then Partial else Unreconciled
  }

  /** On a sound ledger: reconciled when nothing is left, unreconciled when nothing has been
      allocated, partial in between. A transaction of nothing counts as reconciled at once. */
  lemma {:induction false} StatusMeans(l: Ledger, id: Id)
    requires Inv(l) && id in l.txns
    ensures StatusOf(l, id) == Reconciled <==> AllocatedTo(l.allocs, id) == l.txns[id].amount
    ensures StatusOf(l, id) == Unreconciled <==> l.txns[id].amount > 0 && forall a :: a in l.allocs ==> a.txn != id
    ensures StatusOf(l, id) == Partial <==> 0 < AllocatedTo(l.allocs, id) < l.txns[id].amount
  {
    AllocatedNonNegative(l.allocs, id);
  }

  function StatusRank(s: Reconciliation): nat {
    match s
    case Unreconciled => 0
    case Partial => 1
    case Reconciled => 2
  }

  lemma {:induction false} StepOnlyAppends(l: Ledger, r: Request)
    requires Inv(l)
    ensures l.allocs <= Step(l, r).allocs
    ensures forall id :: id in l.txns ==> id in Step(l, r).txns && Step(l, r).txns[id] == l.txns[id]
  {
  }

  lemma {:induction false} AppendingRaisesStatus(l: Ledger, after: Ledger, id: Id)
    requires Inv(after) && id in l.txns && id in after.txns && after.txns[id] == l.txns[id]
    requires l.allocs <= after.allocs
    ensures StatusRank(StatusOf(l, id)) <= StatusRank(StatusOf(after, id))
  {
    var added := after.allocs[|l.allocs|..];
    assert after.allocs == l.allocs + added;
    SumOfAppend(l.allocs, added, TakenFrom(id));
    assert forall a :: a in added ==> a in after.allocs;
    AllocatedNonNegative(added, id);
  }

  /** Along any run a transaction's status only moves from unreconciled through partial to
      reconciled, never back. */
  lemma {:induction false} StatusNeverMovesBack(l: Ledger, requests: seq<Request>, id: Id)
    requires Inv(l) && id in l.txns
    ensures var after := Run(l, requests);
      && id in after.txns && after.txns[id] == l.txns[id]
      && StatusRank(StatusOf(l, id)) <= StatusRank(StatusOf(after, id))
  {
    if requests != [] {
      var front, r := requests[..|requests| - 1], requests[|requests| - 1];
      StatusNeverMovesBack(l, front, id);
      var before := Run(l, front);
      RunsKeepInv(l, front);
      StepKeepsInv(before, r);
      StepOnlyAppends(before, r);
      AppendingRaisesStatus(before, Step(before, r), id);
    }
  }
}
