/** The tables the balances are derived from. A transaction's id is its position in its
    table, and tables are kept in order of creation. */
module Tables {
  import opened Basics

  datatype Stored = Stored(
    account: Id,
    subLedger: Option<Id>,
    importId: Option<Id>,
    date: Date,
    amount: Cents,
    currency: string,
    dir: Direction,
    description: string,
    balanceAfter: Option<Cents>,
    key: Option<string>)

  /** A balance brought forward: what an account held at the start of a day. */
  datatype Anchor = Anchor(opening: Cents, date: Date)

  datatype Treatment = Addition | Subtraction

  datatype SubLedger = SubLedger(id: Id, account: Id, name: string, treatment: Treatment)

  function Delta(t: Stored): int {
    Signed(t.dir, t.amount)
  }
}

/** app/repositories/accounts.py: the book balance query. */
module BookBalance {
  import opened Basics
  import opened Sums
  import opened Tables

  /** Rows a balance is summed over: an account's own, or one sub-ledger's. */
  datatype Scope = Direct(account: Id) | Sub(subLedger: Id)

  predicate InScope(t: Stored, scope: Scope) {
    match scope
    case Direct(account) => t.account == account && t.subLedger.None?
    case Sub(id) => t.subLedger == Some(id)
  }

  /** On or after `since`, where no date at all means from the beginning. */
  predicate OnOrAfter(date: Date, since: Option<Date>) {
    since.None? || date >= since.value
  }

  /** Signed sum of the scope's rows dated from `since` to `until`. */
  function Movements(table: seq<Stored>, scope: Scope, since: Option<Date>, until: Date): int {
    if table == [] then 0
    else
      var t := table[|table| - 1];
      Movements(table[..|table| - 1], scope, since, until)
        + if InScope(t, scope) && OnOrAfter(t.date, since) && t.date <= until then Delta(t) else 0
  }

  /** The anchor with the latest date up to asOf; on equal dates the one created last. */
  function Newest(anchors: seq<Anchor>, asOf: Date): Option<Anchor> {
    if anchors == [] then None
    else
      var best, last := Newest(anchors[..|anchors| - 1], asOf), anchors[|anchors| - 1];
      if last.date <= asOf && (best.None? || last.date >= best.value.date) then Some(last) else best
  }

  function Since(anchor: Option<Anchor>): Option<Date> {
    if anchor.None? then None else Some(anchor.value.date)
  }

  function BroughtForward(anchor: Option<Anchor>): Cents {
    if anchor.None? then 0 else anchor.value.opening
  }

  function ScopeBalance(table: seq<Stored>, scope: Scope, anchors: seq<Anchor>, asOf: Date): Cents {
    var anchor := Newest(anchors, asOf);
    BroughtForward(anchor) + Movements(table, scope, Since(anchor), asOf)
  }

  /** Sum over an account's sub-ledgers, each added or subtracted as it is marked. */
  function SubLedgerTotal(table: seq<Stored>, subs: seq<SubLedger>, account: Id, anchors: Id -> seq<Anchor>,
                          asOf: Date): Option<Cents> {
    if subs == [] then None
    else
      var sub := subs[|subs| - 1];
      var front := SubLedgerTotal(table, subs[..|subs| - 1], account, anchors, asOf);
      if sub.account != account then front
      else
        var b := ScopeBalance(table, Sub(sub.id), anchors(sub.id), asOf);
        Some((if front.Some? then front.value else 0) + if sub.treatment.Addition? then b else -b)
  }

  /** The book balance: the sub-ledgers' total when the account has any, else its own rows
      replayed from the newest balance brought forward. */
  function Balance(table: seq<Stored>, subs: seq<SubLedger>, account: Id, anchors: seq<Anchor>,
                   subAnchors: Id -> seq<Anchor>, asOf: Date): Cents {
    match SubLedgerTotal(table, subs, account, subAnchors, asOf)
    case Some(total) => total
    case None => ScopeBalance(table, Direct(account), anchors, asOf)
  }

  lemma {:induction false} NoSubLedgers(table: seq<Stored>, subs: seq<SubLedger>, account: Id, anchors: seq<Anchor>,
                                        subAnchors: Id -> seq<Anchor>, asOf: Date)
    requires forall s :: s in subs ==> s.account != account
    ensures SubLedgerTotal(table, subs, account, subAnchors, asOf).None?
    ensures Balance(table, subs, account, anchors, subAnchors, asOf)
      == ScopeBalance(table, Direct(account), anchors, asOf)
  {
    if subs != [] {
      NoSubLedgers(table, subs[..|subs| - 1], account, anchors, subAnchors, asOf);
    }
  }

  /** A sub-ledger's share of its account's balance. */
  function Share(table: seq<Stored>, account: Id, subAnchors: Id -> seq<Anchor>, asOf: Date): SubLedger -> int {
    (s: SubLedger) =>
      if s.account != account then 0
      else if s.treatment.Addition? then ScopeBalance(table, Sub(s.id), subAnchors(s.id), asOf)
      else -ScopeBalance(table, Sub(s.id), subAnchors(s.id), asOf)
  }

  /** One sub-ledger is enough for the account's own rows and openings not to count: the
      balance is the sub-ledgers' balances, added or subtracted as each is marked. */
  lemma {:induction false} SubLedgersAddUp(table: seq<Stored>, subs: seq<SubLedger>, account: Id,
                                           anchors: seq<Anchor>, subAnchors: Id -> seq<Anchor>, asOf: Date)
    ensures SubLedgerTotal(table, subs, account, subAnchors, asOf).Some?
      <==> exists s :: s in subs && s.account == account
    ensures (exists s :: s in subs && s.account == account) ==>
      Balance(table, subs, account, anchors, subAnchors, asOf) == SumOf(subs, Share(table, account, subAnchors, asOf))
  {
    if subs != [] {
      var front, last := subs[..|subs| - 1], subs[|subs| - 1];
      assert subs == front + [last];
      SubLedgersAddUp(table, front, account, anchors, subAnchors, asOf);
      if forall s :: s in front ==> s.account != account {
        SumOfZero(front, Share(table, account, subAnchors, asOf));
      }
    }
  }

  /** Position i holds the anchor in force: no later date up to asOf, and on the same date
      none created after it. */
  ghost predicate InForce(anchors: seq<Anchor>, asOf: Date, i: nat) {
    && i < |anchors| && anchors[i].date <= asOf
    && forall j :: 0 <= j < |anchors| && anchors[j].date <= asOf ==>
         anchors[j].date < anchors[i].date || (anchors[j].date == anchors[i].date && j <= i)
  }

  lemma {:induction false} NewestApplies(anchors: seq<Anchor>, asOf: Date)
    ensures match Newest(anchors, asOf)
            case None => forall a :: a in anchors ==> a.date > asOf
            case Some(b) => b in anchors && b.date <= asOf
  {
    if anchors != [] {
      NewestApplies(anchors[..|anchors| - 1], asOf);
      assert anchors == anchors[..|anchors| - 1] + [anchors[|anchors| - 1]];
    }
  }

  lemma {:induction false} NewestIsNewest(anchors: seq<Anchor>, asOf: Date) returns (i: nat)
    requires Newest(anchors, asOf).Some?
    ensures InForce(anchors, asOf, i) && anchors[i] == Newest(anchors, asOf).value
  {
    var n := |anchors| - 1;
    var front, last := anchors[..n], anchors[n];
    var best := Newest(front, asOf);
    if last.date <= asOf && (best.None? || last.date >= best.value.date) {
      i := n;
      if best.None? {
        NewestApplies(front, asOf);
        assert forall j :: 0 <= j < n ==> anchors[j] in front;
      } else {
        var k := NewestIsNewest(front, asOf);
        assert forall j :: 0 <= j < n ==> anchors[j] == front[j];
      }
    } else {
      i := NewestIsNewest(front, asOf);
      assert forall j :: 0 <= j < n ==> anchors[j] == front[j];
    }
  }

  lemma {:induction false} MovementsSplit(table: seq<Stored>, scope: Scope, since: Option<Date>, cut: Date, until: Date)
    requires cut <= until && OnOrAfter(cut + 1, since)
    ensures Movements(table, scope, since, until)
      == Movements(table, scope, since, cut) + Movements(table, scope, Some(cut + 1), until)
  {
    if table != [] {
      MovementsSplit(table[..|table| - 1], scope, since, cut, until);
    }
  }

  /** Adding a newer balance brought forward never shows, on any later day, exactly when it
      states what the older one and the movements up to its own day already imply. One test,
      independent of the day asked about. */
  lemma {:induction false} SupersedingIsInvisible(table: seq<Stored>, scope: Scope, anchors: seq<Anchor>,
                                                  newer: Anchor, asOf: Date)
    requires newer.date <= asOf
    requires var older := Newest(anchors, asOf); older.Some? ==> older.value.date <= newer.date
    ensures var older := Newest(anchors, asOf);
      ScopeBalance(table, scope, anchors + [newer], asOf) == ScopeBalance(table, scope, anchors, asOf)
      <==> newer.opening == BroughtForward(older) + Movements(table, scope, Since(older), newer.date - 1)
  {
    assert (anchors + [newer])[..|anchors|] == anchors;
    var older := Newest(anchors, asOf);
    MovementsSplit(table, scope, Since(older), newer.date - 1, asOf);
  }

  /** An older statement imported later changes nothing while a newer anchor applies. */
  lemma {:induction false} LateImportIsIgnored(table: seq<Stored>, scope: Scope, anchors: seq<Anchor>, late: Anchor,
                                               asOf: Date)
    requires var best := Newest(anchors, asOf); best.Some? && late.date < best.value.date
    ensures ScopeBalance(table, scope, anchors + [late], asOf) == ScopeBalance(table, scope, anchors, asOf)
  {
    assert (anchors + [late])[..|anchors|] == anchors;
  }

  lemma {:induction false} SameAnchorBetween(anchors: seq<Anchor>, d1: Date, d2: Date)
    requires d1 <= d2 && forall a :: a in anchors ==> !(d1 < a.date <= d2)
    ensures Newest(anchors, d1) == Newest(anchors, d2)
  {
    if anchors != [] {
      SameAnchorBetween(anchors[..|anchors| - 1], d1, d2);
    }
  }

  /** While no new anchor comes into force the balance moves by the movements alone. */
  lemma {:induction false} BalanceMovesByMovements(table: seq<Stored>, scope: Scope, anchors: seq<Anchor>, d1: Date,
                                                   d2: Date)
    requires d1 <= d2 && forall a :: a in anchors ==> !(d1 < a.date <= d2)
    ensures ScopeBalance(table, scope, anchors, d2)
      == ScopeBalance(table, scope, anchors, d1) + Movements(table, scope, Some(d1 + 1), d2)
  {
    SameAnchorBetween(anchors, d1, d2);
    NewestApplies(anchors, d1);
    MovementsSplit(table, scope, Since(Newest(anchors, d1)), d1, d2);
  }

  /** What the opening in force says was there before anything stored: itself less all
      movements before its day. */
  function Base(table: seq<Stored>, scope: Scope, anchors: seq<Anchor>, asOf: Date): Cents {
    match Newest(anchors, asOf)
    case None => 0
    case Some(a) => a.opening - Movements(table, scope, None, a.date - 1)
  }

  lemma {:induction false} BalanceFromBase(table: seq<Stored>, scope: Scope, anchors: seq<Anchor>, asOf: Date)
    ensures ScopeBalance(table, scope, anchors, asOf)
      == Base(table, scope, anchors, asOf) + Movements(table, scope, None, asOf)
  {
    NewestApplies(anchors, asOf);
    if Newest(anchors, asOf).Some? {
      MovementsSplit(table, scope, None, Newest(anchors, asOf).value.date - 1, asOf);
    }
  }

  /** Every anchor tells the same story: its opening is `base` plus all earlier movements. */
  ghost predicate Consistent(table: seq<Stored>, scope: Scope, anchors: seq<Anchor>, base: Cents) {
    forall a :: a in anchors ==> a.opening == base + Movements(table, scope, None, a.date - 1)
  }

  /** Over consistent anchors, however many and however ordered, the book balance from the
      first anchor on is simply that story's balance. */
  lemma {:induction false} ConsistentAnchorsAgree(table: seq<Stored>, scope: Scope, anchors: seq<Anchor>, base: Cents,
                                                  asOf: Date)
    requires Consistent(table, scope, anchors, base)
    requires exists a :: a in anchors && a.date <= asOf
    ensures ScopeBalance(table, scope, anchors, asOf) == base + Movements(table, scope, None, asOf)
  {
    NewestApplies(anchors, asOf);
    var a := Newest(anchors, asOf).value;
    MovementsSplit(table, scope, None, a.date - 1, asOf);
  }
}
