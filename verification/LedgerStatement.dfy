/** app/repositories/reports.py, fetch_transaction_statement_rows: what the statement of an
    account shows of its transactions' allocations, on the ledger the endpoints keep. */
module LedgerStatement {
  import opened Basics
  import opened Sums
  import opened BudgetState
  import opened AllocationLedger
  import F = AllocationFiling
  import S = Statement

  /** The row joins one transaction with what its allocations come to and what they are under. */
  ghost predicate ReadsLedger(r: S.Row, l: Ledger) {
    && r.id in l.txns
    && r.date == l.txns[r.id].date && r.amount == l.txns[r.id].amount && r.dir == l.txns[r.id].dir
    && r.allocatedTotal == AllocatedTo(l.allocs, r.id)
    && forall c :: c in r.categoryIds <==> UnderCategory(l, r.id, c)
  }

  ghost predicate UnderCategory(l: Ledger, id: Id, c: Id) {
    exists a :: a in l.allocs && a.txn == id && a.category == Some(c)
  }

  ghost predicate AllRead(rows: seq<S.Row>, l: Ledger) {
    forall i :: 0 <= i < |rows| ==> ReadsLedger(rows[i], l)
  }

  /** What the filters ask of the transaction itself. */
  ghost predicate Asked(l: Ledger, id: Id, f: S.Filters)
    requires id in l.txns
  {
    && (f.fromDate.Some? ==> f.fromDate.value <= l.txns[id].date)
    && (f.toDate.Some? ==> l.txns[id].date <= f.toDate.value)
    && (f.status == Some(S.Reconciled) ==> AllocatedTo(l.allocs, id) == l.txns[id].amount)
    && (f.status == Some(S.Unreconciled) ==> AllocatedTo(l.allocs, id) < l.txns[id].amount)
    && (f.category.Some? ==> UnderCategory(l, id, f.category.value))
  }

  /** On a sound ledger the statement displays exactly the transactions its filters ask for,
      each with its own status: reconciled when the allocations come to its amount. */
  lemma {:induction false} DisplayedByLedger(rows: seq<S.Row>, l: Ledger, f: S.Filters, i: nat)
    requires Inv(l) && AllRead(rows, l) && i < |rows|
    ensures i in S.Displayed(rows, f) <==> Asked(l, rows[i].id, f)
    ensures S.LineAt(rows, i).status == S.Reconciled <==> StatusOf(l, rows[i].id) == AllocationLedger.Reconciled
    ensures S.LineAt(rows, i).status == S.Reconciled <==> AllocatedTo(l.allocs, rows[i].id) == l.txns[rows[i].id].amount
  {
    S.DisplayedExactly(rows, f);
    assert ReadsLedger(rows[i], l);
  }

  /** After an accepted bulk request every transaction it named is shown as reconciled, and
      those it had to fill can be found under the category asked for. */
  lemma {:induction false} BulkShows(l: Ledger, body: BulkBody, rows: seq<S.Row>, i: nat)
    requires Inv(l) && F.AcceptableBulk(l, body) && i < |rows| && AllRead(rows, Bulk(l, body))
    requires rows[i].id in F.Named(body)
    ensures S.LineAt(rows, i).status == S.Reconciled
    ensures forall c :: F.AsksFor(body, rows[i].id, Some(c)) && AllocatedTo(l.allocs, rows[i].id) < rows[i].amount ==>
              i in S.Displayed(rows, S.Filters(None, None, Some(S.Reconciled), Some(c)))
  {
    var id := rows[i].id;
    var after := Bulk(l, body);
    F.BulkAcceptedExactlyWhen(l, body);
    F.PairsAreTheRequest(body);
    BulkSplitsAndFills(l, body);
    BulkKeepsInv(l, body);
    assert ReadsLedger(rows[i], after);
    KeysAreDistinctIds(Pairs(body));
    assert AllocatedTo(after.allocs, id) == l.txns[id].amount;
    forall c | F.AsksFor(body, id, Some(c)) && AllocatedTo(l.allocs, id) < rows[i].amount
      ensures i in S.Displayed(rows, S.Filters(None, None, Some(S.Reconciled), Some(c)))
    {
      FilledUnder(l, body, id, c);
      DisplayedByLedger(rows, after, S.Filters(None, None, Some(S.Reconciled), Some(c)), i);
    }
  }

  lemma {:induction false} FilledUnder(l: Ledger, body: BulkBody, id: Id, c: Id)
    requires F.AcceptableBulk(l, body) && F.AsksFor(body, id, Some(c))
    requires id in F.Named(body) && AllocatedTo(l.allocs, id) < l.txns[id].amount
    ensures UnderCategory(Bulk(l, body), id, c)
  {
    F.EachNamedIsFilled(l, body, id);
    F.BulkFilesAsAsked(l, body);
    var allocs := Bulk(l, body).allocs;
    var k :| |l.allocs| <= k < |allocs| && allocs[k].txn == id;
    assert F.FilledAs(allocs[k], l, body);
    F.ChosenIsAsked(body, id, Some(c));
    F.ChosenIsAsked(body, id, allocs[k].category);
  }

  /** After accepted splits the transaction is shown under every category they name, and as
      reconciled exactly when they take all that was left. */
  lemma {:induction false} SplitsShow(l: Ledger, id: Id, items: seq<Item>, rows: seq<S.Row>, i: nat)
    requires Inv(l) && Acceptable(l, id, items)
    requires i < |rows| && AllRead(rows, Create(l, id, items)) && rows[i].id == id
    ensures forall item :: item in items && item.category.Some? ==>
              i in S.Displayed(rows, S.Filters(None, None, None, item.category))
    ensures S.LineAt(rows, i).status == S.Reconciled <==>
      AllocatedTo(l.allocs, id) + SumOf(items, (item: Item) => item.amount) == l.txns[id].amount
  {
    var after := Create(l, id, items);
    F.CreateFilesEverySplit(l, id, items);
    CreateKeepsInv(l, id, items);
    assert ReadsLedger(rows[i], after);
    forall item | item in items && item.category.Some?
      ensures i in S.Displayed(rows, S.Filters(None, None, None, item.category))
    {
      var k :| 0 <= k < |items| && items[k] == item;
      assert F.FiledAs(after.allocs[|l.allocs| + k], id, l.txns[id], items[k]);
      assert after.allocs[|l.allocs| + k] in after.allocs;
      DisplayedByLedger(rows, after, S.Filters(None, None, None, item.category), i);
    }
    TakenBySplits(l, id, items);
    DisplayedByLedger(rows, after, S.Filters(None, None, None, None), i);
  }

  lemma {:induction false} TakenBySplits(l: Ledger, id: Id, items: seq<Item>)
    requires Acceptable(l, id, items)
    ensures AllocatedTo(Create(l, id, items).allocs, id)
      == AllocatedTo(l.allocs, id) + SumOf(items, (item: Item) => item.amount)
  {
    AcceptedExactlyWhen(l, id, items);
    SumOfAppend(l.allocs, AllocsOf(id, l.txns[id].currency, items), TakenFrom(id));
    AllocatedByItems(id, l.txns[id].currency, items, id);
    F.TotalIsSum(items);
  }
}
