/** What the two allocation endpoints write into the table, in terms of the request alone:
    app/api/transactions.py, create_allocations_endpoint and bulk_allocate_endpoint. */
module AllocationFiling {
  import opened Basics
  import opened Sums
  import opened BudgetState
  import opened AllocationLedger

  // ---- one transaction, many splits ----

  /** The split exactly as it was asked for, in the transaction's currency. */
  ghost predicate FiledAs(a: Alloc, id: Id, t: Txn, i: Item) {
    && a.txn == id
    && a.category == i.category && a.reason == i.reason
    && a.sourceAccount == i.sourceAccount && a.sourceSubLedger == i.sourceSubLedger && a.sourceText == i.sourceText
    && a.original == a.amount == i.amount
    && a.currency == t.currency
    && a.note == i.note
  }

  /** Money of this transaction falls into the budget when it is under the budget's category. */
  ghost predicate Fits(t: Txn, b: Budget) {
    t.currency == b.currency && b.starts <= t.date <= b.ends
  }

  function AskedUnder(category: Id): Item -> int {
    (i: Item) => if i.category == Some(category) then i.amount else 0
  }

  lemma {:induction false} SplitsAddUp(l: Ledger, id: Id, items: seq<Item>, b: Budget)
    requires id in l.txns && forall i :: i in items ==> !BothSet(i)
    ensures Consumed(AllocsOf(id, l.txns[id].currency, items), l.txns, b)
      == if Fits(l.txns[id], b) then SumOf(items, AskedUnder(b.category)) else 0
  {
    var added := AllocsOf(id, l.txns[id].currency, items);
    if Fits(l.txns[id], b) {
      forall k | 0 <= k < |items|
        ensures SpentOn(l.txns, b)(added[k]) == AskedUnder(b.category)(items[k])
      {
        assert items[k] in items;
      }
      SumOfZip(added, items, SpentOn(l.txns, b), AskedUnder(b.category));
    } else {
      SumOfZero(added, SpentOn(l.txns, b));
    }
  }

  /** An acceptable request adds one allocation for each split, in order, filed the way the
      split says, and nothing else. Every budget whose window and currency fit takes up what
      the splits put under its category; every other budget stays where it was. */
  lemma {:induction false} CreateFilesEverySplit(l: Ledger, id: Id, items: seq<Item>)
    requires Acceptable(l, id, items)
    ensures var after := Create(l, id, items);
      && after == l.(allocs := after.allocs, alerts := after.alerts)
      && l.allocs <= after.allocs && |after.allocs| == |l.allocs| + |items|
      && (forall k :: 0 <= k < |items| ==> FiledAs(after.allocs[|l.allocs| + k], id, l.txns[id], items[k]))
      && forall b: Budget :: Consumed(after.allocs, after.txns, b) == Consumed(l.allocs, l.txns, b)
           + if Fits(l.txns[id], b) then SumOf(items, AskedUnder(b.category)) else 0
  {
    AcceptedExactlyWhen(l, id, items);
    var added := AllocsOf(id, l.txns[id].currency, items);
    var after := Create(l, id, items);
    assert after.allocs == l.allocs + added;
    forall b: Budget
      ensures Consumed(after.allocs, after.txns, b) == Consumed(l.allocs, l.txns, b)
        + if Fits(l.txns[id], b) then SumOf(items, AskedUnder(b.category)) else 0
    {
      SumOfAppend(l.allocs, added, SpentOn(l.txns, b));
      SplitsAddUp(l, id, items, b);
    }
  }

  // ---- why a request is turned down ----

  ghost predicate Positive(items: seq<Item>) {
    forall i :: i in items ==> i.amount > 0
  }

  ghost predicate WellShaped(items: seq<Item>) {
    forall i :: i in items ==> AcceptableShape(i)
  }

  ghost predicate AcceptableShape(i: Item) {
    && !(i.category.Some? && i.reason.Some?)
    && (i.reason.Some? ==> Given(i.sourceAccount) + Given(i.sourceSubLedger) + Given(i.sourceText) <= 1)
  }

  ghost predicate Known(l: Ledger, items: seq<Item>) {
    && (forall i :: i in items && i.category.Some? ==> i.category.value in l.categories)
    && (forall i :: i in items && i.reason.Some? ==> i.reason.value in l.reasons)
    && (forall i :: i in items && i.sourceAccount.Some? ==> i.sourceAccount.value in l.accounts)
    && (forall i :: i in items && i.sourceSubLedger.Some? ==> i.sourceSubLedger.value in l.subLedgers)
  }

  /** What the answer says of the request. A numbered answer names the first split at fault,
      counted from one, and every earlier kind of fault is absent. */
  ghost predicate TrueReason(l: Ledger, id: Id, items: seq<Item>, why: Rejection) {
    match why
    case EmptyRequest => items == []
    case TxnNotFound => items != [] && id !in l.txns
    case AmountNotPositive(n) =>
      && 1 <= n <= |items| && items[n - 1].amount <= 0 && Positive(items[..n - 1])
    case CategoryAndReason(n) =>
      && 1 <= n <= |items| && items[n - 1].category.Some? && items[n - 1].reason.Some?
      && Positive(items) && WellShaped(items[..n - 1])
    case SeveralSources(n) =>
      && 1 <= n <= |items| && !AcceptableShape(items[n - 1]) && items[n - 1].category.None?
      && Positive(items) && WellShaped(items[..n - 1])
    case CategoryNotFound =>
      && Positive(items) && WellShaped(items)
      && exists i :: i in items && i.category.Some? && i.category.value !in l.categories
    case ReasonNotFound =>
      && Positive(items) && WellShaped(items)
      && exists i :: i in items && i.reason.Some? && i.reason.value !in l.reasons
    case SourceAccountNotFound =>
      && Positive(items) && WellShaped(items)
      && exists i :: i in items && i.sourceAccount.Some? && i.sourceAccount.value !in l.accounts
    case SourceSubLedgerNotFound =>
      && Positive(items) && WellShaped(items)
      && exists i :: i in items && i.sourceSubLedger.Some? && i.sourceSubLedger.value !in l.subLedgers
    case TypeMismatch(n) =>
      && 1 <= n <= |items| && id in l.txns
      && Positive(items) && WellShaped(items) && Known(l, items)
      && !Suits(l, l.txns[id].dir, items[n - 1]) && forall i :: i in items[..n - 1] ==> Suits(l, l.txns[id].dir, i)
    case ExceedsRemaining(remaining) =>
      && id in l.txns && (forall i :: i in items ==> AcceptableItem(l, l.txns[id].dir, i))
      && AllocatedTo(l.allocs, id) + SumOf(items, (i: Item) => i.amount) > l.txns[id].amount
      && remaining == l.txns[id].amount - AllocatedTo(l.allocs, id)
    case WrongShape => false
  }

  ghost predicate Suits(l: Ledger, dir: Direction, i: Item) {
    i.category.Some? ==> i.category.value in l.categories && l.categories[i.category.value] == ExpectedType(dir)
  }

  lemma {:induction false} TotalIsSum(items: seq<Item>)
    ensures TotalOf(items) == SumOf(items, (i: Item) => i.amount)
  {
    if items != [] {
      TotalIsSum(items[..|items| - 1]);
      SumOfCongruent(items[..|items| - 1], (i: Item) => i.amount, (i: Item) => i.amount);
    }
  }

  lemma {:induction false} FaultlessIsShaped(items: seq<Item>, n: nat)
    requires n <= |items|
    ensures (forall k :: 0 <= k < n ==> !NotPositive(items[k])) ==> Positive(items[..n])
    ensures (forall k :: 0 <= k < n ==> !Misshapen(items[k])) ==> WellShaped(items[..n])
  {
    assert forall k :: 0 <= k < n ==> items[..n][k] == items[k];
  }

  lemma {:induction false} NothingUnknown(l: Ledger, items: seq<Item>)
    requires !UnknownCategory(l, items) && !UnknownReason(l, items)
    requires !UnknownAccount(l, items) && !UnknownSubLedger(l, items)
    ensures Known(l, items)
  {
  }

  /** A request is turned down for a fault it has, the first in the order of the checks. */
  lemma {:induction false} RejectedForATrueReason(l: Ledger, id: Id, items: seq<Item>)
    requires CheckCreate(l, id, items).Some?
    ensures TrueReason(l, id, items, CheckCreate(l, id, items).value)
  {
    var why := CheckCreate(l, id, items).value;
    if items != [] && id in l.txns {
      FirstIsFirst(items, NotPositive);
      FirstIsFirst(items, Misshapen);
      FaultlessIsShaped(items, |items|);
      assert items[..|items|] == items;
      match why {
        case AmountNotPositive(n) => FaultlessIsShaped(items, n - 1);
        case CategoryAndReason(n) => FaultlessIsShaped(items, n - 1);
        case SeveralSources(n) => FaultlessIsShaped(items, n - 1);
        case TypeMismatch(n) =>
          NothingUnknown(l, items);
          MismatchIsFirst(l, id, items);
        case ExceedsRemaining(_) =>
          NothingUnknown(l, items);
          MismatchIsFirst(l, id, items);
          TotalIsSum(items);
        case _ =>
      }
    }
  }

  lemma {:induction false} MismatchIsFirst(l: Ledger, id: Id, items: seq<Item>)
    requires id in l.txns && Known(l, items)
    ensures match FirstMismatch(l.categories, l.txns[id].dir, items)
            case None => forall i :: i in items ==> Suits(l, l.txns[id].dir, i)
            case Some(k) =>
              && k < |items| && !Suits(l, l.txns[id].dir, items[k])
              && forall i :: i in items[..k] ==> Suits(l, l.txns[id].dir, i)
  {
    var mismatched := (i: Item) => Mismatched(l.categories, l.txns[id].dir, i.category);
    FirstIsFirst(items, mismatched);
    assert forall k :: 0 <= k < |items| ==>
      items[k] in items && mismatched(items[k]) == !Suits(l, l.txns[id].dir, items[k]);
  }

  // ---- many transactions ----

  /** The ids a request names, as often and in the order it names them. */
  function Named(body: BulkBody): seq<Id> {
    if body.txnIds.Some? then body.txnIds.value
    else if body.allocations.Some? then Txns(body.allocations.value)
    else []
  }

  function Txns(mappings: seq<Mapping>): seq<Id> {
    seq(|mappings|, k requires 0 <= k < |mappings| => mappings[k].txn)
  }

  /** The request wants this transaction under this category: the one category of a uniform
      request, or what the last mapping that names the transaction says. */
  ghost predicate AsksFor(body: BulkBody, id: Id, category: Option<Id>) {
    if body.txnIds.Some? then id in body.txnIds.value && category == body.category
    else body.allocations.Some? && exists k: nat :: LastMapping(body.allocations.value, k, id) == Some(category)
  }

  /** The category of the k-th mapping if it names id and no later one does. */
  ghost function LastMapping(mappings: seq<Mapping>, k: nat, id: Id): Option<Option<Id>> {
    if k < |mappings| && mappings[k].txn == id && forall j :: k < j < |mappings| ==> mappings[j].txn != id
    then Some(mappings[k].category)
    else None
  }

  lemma {:induction false} PairsAreTheRequest(body: BulkBody)
    ensures |Pairs(body)| == |Named(body)|
    ensures forall k :: 0 <= k < |Pairs(body)| ==> Pairs(body)[k].txn == Named(body)[k]
    ensures forall id :: id in Keys(Pairs(body)) <==> id in Named(body)
  {
    KeysAreDistinctIds(Pairs(body));
    forall id
      ensures id in Keys(Pairs(body)) <==> id in Named(body)
    {
      if id in Keys(Pairs(body)) {
        var k :| 0 <= k < |Pairs(body)| && Pairs(body)[k].txn == id;
        assert Named(body)[k] == id;
      }
      if id in Named(body) {
        var k :| 0 <= k < |Named(body)| && Named(body)[k] == id;
        assert Pairs(body)[k].txn == id;
      }
    }
  }

  lemma {:induction false} ChosenIsLast(pairs: seq<Mapping>, id: Id, k: nat)
    requires LastMapping(pairs, k, id).Some?
    ensures Chosen(pairs, id) == pairs[k].category
  {
    var n := |pairs| - 1;
    if k < n {
      assert LastMapping(pairs[..n], k, id).Some?;
      ChosenIsLast(pairs[..n], id, k);
    }
  }

  lemma {:induction false} SomeMappingIsLast(pairs: seq<Mapping>, id: Id, i: nat) returns (k: nat)
    requires i < |pairs| && pairs[i].txn == id
    ensures LastMapping(pairs, k, id).Some?
    decreases |pairs| - i
  {
    if j :| i < j < |pairs| && pairs[j].txn == id {
      k := SomeMappingIsLast(pairs, id, j);
    } else {
      k := i;
    }
  }

  /** Every id a request names is asked for under one category, the one the endpoint takes. */
  lemma {:induction false} ChosenIsAsked(body: BulkBody, id: Id, category: Option<Id>)
    requires id in Named(body)
    ensures AsksFor(body, id, category) <==> Chosen(Pairs(body), id) == category
  {
    var pairs := Pairs(body);
    var i :| 0 <= i < |Named(body)| && Named(body)[i] == id;
    assert pairs[i].txn == id;
    var k := SomeMappingIsLast(pairs, id, i);
    ChosenIsLast(pairs, id, k);
    if body.txnIds.None? {
      if AsksFor(body, id, category) {
        var j: nat :| LastMapping(pairs, j, id) == Some(category);
        ChosenIsLast(pairs, id, j);
      }
    }
  }

  lemma {:induction false} AskedIsNamed(body: BulkBody, id: Id, category: Option<Id>)
    requires AsksFor(body, id, category)
    ensures id in Named(body)
  {
    if body.txnIds.None? {
      var k: nat :| LastMapping(body.allocations.value, k, id) == Some(category);
      assert Named(body)[k] == id;
    }
  }

  /** Spelled out: a bulk request is accepted when it comes in exactly one shape, names at
      least one transaction and only known ones, and asks only for known categories of the
      type the transaction's direction calls for. */
  ghost predicate AcceptableBulk(l: Ledger, body: BulkBody) {
    && body.txnIds.Some? != body.allocations.Some?
    && Named(body) != []
    && (forall id :: id in Named(body) ==> id in l.txns)
    && forall id, c :: AsksFor(body, id, Some(c)) && id in l.txns ==>
         c in l.categories && l.categories[c] == ExpectedType(l.txns[id].dir)
  }

  lemma {:induction false} BulkAcceptedExactlyWhen(l: Ledger, body: BulkBody)
    ensures CheckBulk(l, body).None? <==> AcceptableBulk(l, body)
  {
    var pairs := Pairs(body);
    var keys := Keys(pairs);
    PairsAreTheRequest(body);
    if CheckBulk(l, body).None? {
      assert forall id :: id in keys ==> exists i :: 0 <= i < |keys| && keys[i] == id;
      forall id, c | AsksFor(body, id, Some(c)) && id in l.txns
        ensures c in l.categories && l.categories[c] == ExpectedType(l.txns[id].dir)
      {
        AskedIsNamed(body, id, Some(c));
        ChosenIsAsked(body, id, Some(c));
        var i :| 0 <= i < |keys| && keys[i] == id;
        assert !Mismatched(l.categories, l.txns[keys[i]].dir, Chosen(pairs, keys[i]));
      }
    }
    if AcceptableBulk(l, body) {
      forall i | 0 <= i < |keys|
        ensures keys[i] in l.txns
        ensures Chosen(pairs, keys[i]).Some? ==>
          && Chosen(pairs, keys[i]).value in l.categories
          && l.categories[Chosen(pairs, keys[i]).value] == ExpectedType(l.txns[keys[i]].dir)
      {
        assert keys[i] in keys;
        ChosenIsAsked(body, keys[i], Chosen(pairs, keys[i]));
      }
    }
  }

  /** What a refused bulk request has wrong with it; the kinds of fault are looked for in this
      order, each over the whole request before the next. */
  ghost predicate TrueBulkReason(l: Ledger, body: BulkBody, why: Rejection) {
    match why
    case WrongShape => body.txnIds.Some? == body.allocations.Some?
    case EmptyRequest => body.txnIds.Some? != body.allocations.Some? && Named(body) == []
    case TxnNotFound => exists id :: id in Named(body) && id !in l.txns
    case CategoryNotFound =>
      && (forall id :: id in Named(body) ==> id in l.txns)
      && exists id, c :: AsksFor(body, id, Some(c)) && c !in l.categories
    case TypeMismatch(_) =>
      && (forall id :: id in Named(body) ==> id in l.txns)
      && (forall id, c :: AsksFor(body, id, Some(c)) ==> c in l.categories)
      && exists id, c ::
           AsksFor(body, id, Some(c)) && id in l.txns && c in l.categories
           && l.categories[c] != ExpectedType(l.txns[id].dir)
    case _ => false
  }

  lemma {:induction false} BulkRejectedForATrueReason(l: Ledger, body: BulkBody)
    requires CheckBulk(l, body).Some?
    ensures TrueBulkReason(l, body, CheckBulk(l, body).value)
  {
    var pairs := Pairs(body);
    var keys := Keys(pairs);
    PairsAreTheRequest(body);
    if MissingTxn(l, keys) {
      var i :| 0 <= i < |keys| && keys[i] !in l.txns;
      assert keys[i] in keys;
    } else if MissingCategory(l, pairs, keys) {
      var i :| 0 <= i < |keys| && Chosen(pairs, keys[i]).Some? && Chosen(pairs, keys[i]).value !in l.categories;
      assert keys[i] in keys;
      ChosenIsAsked(body, keys[i], Chosen(pairs, keys[i]));
    } else if AnyMismatch(l, pairs, keys) {
      var i :| 0 <= i < |keys| && keys[i] in l.txns
               && Mismatched(l.categories, l.txns[keys[i]].dir, Chosen(pairs, keys[i]));
      assert keys[i] in keys;
      ChosenIsAsked(body, keys[i], Chosen(pairs, keys[i]));
      AskedAreKnown(l, body);
    }
  }

  lemma {:induction false} AskedAreKnown(l: Ledger, body: BulkBody)
    requires !MissingCategory(l, Pairs(body), Keys(Pairs(body)))
    ensures forall id, c :: AsksFor(body, id, Some(c)) ==> c in l.categories
  {
    PairsAreTheRequest(body);
    forall id, c | AsksFor(body, id, Some(c))
      ensures c in l.categories
    {
      AskedIsNamed(body, id, Some(c));
      ChosenIsAsked(body, id, Some(c));
      var keys := Keys(Pairs(body));
      var i :| 0 <= i < |keys| && keys[i] == id;
    }
  }

  /** id stands in the list before the first place other stands at. */
  ghost predicate NamedFirst(ids: seq<Id>, id: Id, other: Id) {
    exists p :: 0 <= p < |ids| && ids[p] == id && forall q :: 0 <= q <= p ==> ids[q] != other
  }

  lemma {:induction false} NamedFirstGrows(ids: seq<Id>, more: seq<Id>, id: Id, other: Id)
    requires ids <= more && NamedFirst(ids, id, other)
    ensures NamedFirst(more, id, other)
  {
    var p :| 0 <= p < |ids| && ids[p] == id && forall q :: 0 <= q <= p ==> ids[q] != other;
    assert more[p] == id;
  }

  /** The distinct ids come in the order in which they were first named. */
  lemma {:induction false} KeysInOrder(pairs: seq<Mapping>, i: nat, j: nat)
    requires i < j < |Keys(pairs)|
    ensures NamedFirst(Txns(pairs), Keys(pairs)[i], Keys(pairs)[j])
  {
    var n := |pairs| - 1;
    var front := Keys(pairs[..n]);
    assert Txns(pairs[..n]) <= Txns(pairs);
    if j < |front| {
      KeysInOrder(pairs[..n], i, j);
      NamedFirstGrows(Txns(pairs[..n]), Txns(pairs), Keys(pairs)[i], Keys(pairs)[j]);
    } else {
      KeysAreDistinctIds(pairs[..n]);
      assert front[i] in front;
      var p :| 0 <= p < n && pairs[..n][p].txn == front[i];
      assert Txns(pairs)[p] == Keys(pairs)[i];
      forall q | 0 <= q <= p
        ensures Txns(pairs)[q] != Keys(pairs)[j]
      {
        assert pairs[..n][q].txn in front;
      }
    }
  }

  lemma {:induction false} UpdatedInOrder(l: Ledger, pairs: seq<Mapping>, keys: seq<Id>, i: nat, j: nat)
    requires keys <= Keys(pairs) && i < j < |Updated(l, keys)|
    ensures NamedFirst(Txns(pairs), Updated(l, keys)[i], Updated(l, keys)[j])
  {
    var n := |keys| - 1;
    var front := Updated(l, keys[..n]);
    if j < |front| {
      UpdatedInOrder(l, pairs, keys[..n], i, j);
    } else {
      UpdatedAreKeys(l, keys[..n], front[i]);
      var p :| 0 <= p < n && keys[p] == front[i];
      KeysInOrder(pairs, p, n);
    }
  }

  lemma {:induction false} UpdatedAreKeys(l: Ledger, keys: seq<Id>, id: Id)
    requires id in Updated(l, keys)
    ensures id in keys && Remaining(l, id) > 0
  {
    var n := |keys| - 1;
    if id in Updated(l, keys[..n]) {
      UpdatedAreKeys(l, keys[..n], id);
    }
  }

  /** All that is left of its transaction, under the category asked for and nothing more. */
  ghost predicate FilledAs(a: Alloc, l: Ledger, body: BulkBody) {
    && a.txn in l.txns && AsksFor(body, a.txn, a.category)
    && a.original == a.amount == l.txns[a.txn].amount - AllocatedTo(l.allocs, a.txn) > 0
    && a.currency == l.txns[a.txn].currency
    && a.reason.None? && a.sourceAccount.None? && a.sourceSubLedger.None? && a.sourceText.None? && a.note.None?
  }

  lemma {:induction false} TxnsOfPairs(body: BulkBody)
    ensures Txns(Pairs(body)) == Named(body)
  {
    PairsAreTheRequest(body);
  }

  lemma {:induction false} BulkAppends(l: Ledger, body: BulkBody)
    requires AcceptableBulk(l, body)
    ensures Bulk(l, body).allocs == l.allocs + Fills(l, Pairs(body), Updated(l, Keys(Pairs(body))))
  {
    BulkAcceptedExactlyWhen(l, body);
  }

  /** What an accepted bulk request writes: one allocation for each named id with money left. */
  lemma {:induction false} BulkWrites(l: Ledger, body: BulkBody)
    requires AcceptableBulk(l, body)
    ensures var ids := Updated(l, Keys(Pairs(body)));
      && Bulk(l, body).allocs == l.allocs + Fills(l, Pairs(body), ids)
      && (forall id :: id in ids <==> id in Named(body) && Remaining(l, id) > 0)
      && forall id :: id in ids ==> FilledAs(Fill(l, Pairs(body), id), l, body)
  {
    BulkAcceptedExactlyWhen(l, body);
    BulkAppends(l, body);
    PairsAreTheRequest(body);
    KeysAreDistinctIds(Pairs(body));
    UpdatedOrSkipped(l, Keys(Pairs(body)));
    forall id | id in Updated(l, Keys(Pairs(body)))
      ensures FilledAs(Fill(l, Pairs(body), id), l, body)
    {
      ChosenIsAsked(body, id, Chosen(Pairs(body), id));
    }
  }

  lemma {:induction false} WrittenAt(l: Ledger, body: BulkBody, k: nat)
    requires Bulk(l, body).allocs == l.allocs + Fills(l, Pairs(body), Updated(l, Keys(Pairs(body))))
    requires k < |Updated(l, Keys(Pairs(body)))|
    ensures |l.allocs| + k < |Bulk(l, body).allocs|
    ensures Bulk(l, body).allocs[|l.allocs| + k].txn == Updated(l, Keys(Pairs(body)))[k]
  {
  }

  lemma {:induction false} EachNamedIsFilled(l: Ledger, body: BulkBody, id: Id)
    requires AcceptableBulk(l, body) && id in Named(body) && AllocatedTo(l.allocs, id) < l.txns[id].amount
    ensures exists k :: |l.allocs| <= k < |Bulk(l, body).allocs| && Bulk(l, body).allocs[k].txn == id
  {
    BulkWrites(l, body);
    var ids := Updated(l, Keys(Pairs(body)));
    assert id in ids;
    var k :| 0 <= k < |ids| && ids[k] == id;
    WrittenAt(l, body, k);
  }

  lemma {:induction false} FilledInOrder(l: Ledger, body: BulkBody, j: nat, k: nat)
    requires AcceptableBulk(l, body) && |l.allocs| <= j < k < |Bulk(l, body).allocs|
    ensures NamedFirst(Named(body), Bulk(l, body).allocs[j].txn, Bulk(l, body).allocs[k].txn)
  {
    BulkAppends(l, body);
    var keys, start := Keys(Pairs(body)), |l.allocs|;
    WrittenAt(l, body, j - start);
    WrittenAt(l, body, k - start);
    UpdatedInOrder(l, Pairs(body), keys, j - start, k - start);
    TxnsOfPairs(body);
  }

  /** An accepted bulk request adds one allocation for each transaction it names that has
      anything left, in the order they are first named: all that is left, under the category
      asked for. Nothing else enters the table. */
  lemma {:induction false} BulkFilesAsAsked(l: Ledger, body: BulkBody)
    requires AcceptableBulk(l, body)
    ensures var after := Bulk(l, body);
      && after == l.(allocs := after.allocs, alerts := after.alerts)
      && l.allocs <= after.allocs
      && (forall k :: |l.allocs| <= k < |after.allocs| ==> FilledAs(after.allocs[k], l, body))
      && (forall id :: id in Named(body) && AllocatedTo(l.allocs, id) < l.txns[id].amount ==>
           exists k :: |l.allocs| <= k < |after.allocs| && after.allocs[k].txn == id)
      && (forall j, k :: |l.allocs| <= j < k < |after.allocs| ==>
           NamedFirst(Named(body), after.allocs[j].txn, after.allocs[k].txn))
  {
    BulkWrites(l, body);
    var allocs := Bulk(l, body).allocs;
    var ids := Updated(l, Keys(Pairs(body)));
    forall k | |l.allocs| <= k < |allocs|
      ensures FilledAs(allocs[k], l, body)
    {
      assert ids[k - |l.allocs|] in ids;
    }
    forall id | id in Named(body) && AllocatedTo(l.allocs, id) < l.txns[id].amount
      ensures exists k :: |l.allocs| <= k < |allocs| && allocs[k].txn == id
    {
      EachNamedIsFilled(l, body, id);
    }
    forall j, k | |l.allocs| <= j < k < |allocs|
      ensures NamedFirst(Named(body), allocs[j].txn, allocs[k].txn)
    {
      FilledInOrder(l, body, j, k);
    }
  }

  // ---- what a bulk request does to a budget ----

  /** What is left of a transaction the request puts under the budget. */
  ghost function AskedOfBudget(l: Ledger, body: BulkBody, b: Budget): Id -> int {
    (id: Id) =>
      if id in l.txns && AsksFor(body, id, Some(b.category)) && Fits(l.txns[id], b)
         && AllocatedTo(l.allocs, id) < l.txns[id].amount
      then l.txns[id].amount - AllocatedTo(l.allocs, id) else 0
  }

  lemma {:induction false} FillsAddUp(l: Ledger, body: BulkBody, ids: seq<Id>, b: Budget)
    requires forall id :: id in ids ==> id in l.txns && id in Named(body) && Remaining(l, id) > 0
    ensures Consumed(Fills(l, Pairs(body), ids), l.txns, b) == SumOf(ids, AskedOfBudget(l, body, b))
  {
    var fills := Fills(l, Pairs(body), ids);
    forall k | 0 <= k < |ids|
      ensures SpentOn(l.txns, b)(fills[k]) == AskedOfBudget(l, body, b)(ids[k])
    {
      assert ids[k] in ids;
      ChosenIsAsked(body, ids[k], Some(b.category));
    }
    SumOfZip(fills, ids, SpentOn(l.txns, b), AskedOfBudget(l, body, b));
  }

  lemma {:induction false} SumOverUpdated(l: Ledger, body: BulkBody, b: Budget)
    requires AcceptableBulk(l, body)
    ensures SumOf(Updated(l, Keys(Pairs(body))), AskedOfBudget(l, body, b))
      == SumSet(Elements(Named(body)), AskedOfBudget(l, body, b))
  {
    var keys := Keys(Pairs(body));
    var ids := Updated(l, keys);
    var f := AskedOfBudget(l, body, b);
    PairsAreTheRequest(body);
    KeysAreDistinctIds(Pairs(body));
    UpdatedOrSkipped(l, keys);
    SumOfIsSumSet(ids, f);
    var all := Elements(Named(body));
    var rest := all - Elements(ids);
    SumSetUnion(Elements(ids), rest, f);
    SumSetZero(rest, f);
    assert Elements(ids) + rest == all;
  }

  /** Every budget takes up what was left of the transactions the request puts under its
      category and whose date and currency fit, each once however often it was named. */
  lemma {:induction false} BulkSpending(l: Ledger, body: BulkBody, b: Budget)
    requires AcceptableBulk(l, body)
    ensures var after := Bulk(l, body);
      Consumed(after.allocs, after.txns, b)
      == Consumed(l.allocs, l.txns, b) + SumSet(Elements(Named(body)), AskedOfBudget(l, body, b))
  {
    BulkWrites(l, body);
    var ids := Updated(l, Keys(Pairs(body)));
    SumOfAppend(l.allocs, Fills(l, Pairs(body), ids), SpentOn(l.txns, b));
    FillsAddUp(l, body, ids, b);
    SumOverUpdated(l, body, b);
  }
}
