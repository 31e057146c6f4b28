/** app/services/budget_state.py: where a budget stands, from exact ratios. */
module BudgetState {
  import opened Basics

  datatype CategoryType = Expense | Income

  datatype State = Okay | Near | At | Over | OnTrack | Good

  datatype Derived = Derived(remaining: Option<Cents>, state: Option<State>)

  const DEFAULT_NEAR_THRESHOLD: real := 0.8

  /** A zero limit has no ratio: any consumption is past it, none at all is the floor. */
  function Ratio(limit: Cents, consumed: Cents): real {
    if limit <= 0 then (if consumed > 0 then 2.0 else 0.0)
    else consumed as real / limit as real
  }

  function DeriveBudgetState(category: CategoryType, limit: Option<Cents>, consumed: Cents,
                             nearThreshold: real): Derived {
    match limit
    case None => Derived(None, None)
    case Some(l) =>
      var ratio := Ratio(l, consumed);
      var state :=
        if category.Income? then (if ratio >= 1.0 then Good else OnTrack)
        else if ratio > 1.0 then Over
        else if ratio == 1.0 then At
        else if ratio >= nearThreshold then Near
        else Okay;
      Derived(Some(l - consumed), Some(state))
  }

  /** State of a capped expense budget. */
  function ExpenseState(limit: Cents, consumed: Cents, nearThreshold: real): (s: State)
    ensures s.Okay? || s.Near? || s.At? || s.Over?
  {
    DeriveBudgetState(Expense, Some(limit), consumed, nearThreshold).state.value
  }

  /** The escalation order of the alerts. */
  function Rank(s: State): nat {
    match s
    case Near => 1
    case At => 2
    case Over => 3
    case _ => 0
  }

  lemma {:induction false} ScaleKeepsOrder(x: real, y: real, scale: real)
    requires scale > 0.0
    ensures x < y <==> x * scale < y * scale
    ensures x == y <==> x * scale == y * scale
  {
    assert y * scale - x * scale == (y - x) * scale;
  }

  lemma {:induction false} RatioAgainstOne(limit: Cents, consumed: Cents)
    requires limit > 0
    ensures Ratio(limit, consumed) > 1.0 <==> consumed > limit
    ensures Ratio(limit, consumed) == 1.0 <==> consumed == limit
  {
    assert Ratio(limit, consumed) * limit as real == consumed as real;
    ScaleKeepsOrder(1.0, Ratio(limit, consumed), limit as real);
  }

  lemma {:induction false} RatioMonotone(limit: Cents, c1: Cents, c2: Cents)
    requires c1 <= c2
    ensures Ratio(limit, c1) <= Ratio(limit, c2)
  {
    if limit > 0 {
      ScaleKeepsOrder(Ratio(limit, c2), Ratio(limit, c1), limit as real);
    }
  }

  /** What the states say about the money, for both kinds of category: over and at mean past
      the limit and on it, near means from the given share of it on; a zero limit is passed by
      the first cent and never merely met. What remains is the limit less what is consumed. */
  lemma {:induction false} StateMeansMoney(limit: Cents, consumed: Cents, nearThreshold: real)
    ensures var e := ExpenseState(limit, consumed, nearThreshold);
      && (limit > 0 ==> (e.Over? <==> consumed > limit) && (e.At? <==> consumed == limit))
      && (limit > 0 ==> (e.Near? <==> nearThreshold * limit as real <= consumed as real && consumed < limit))
      && (limit <= 0 ==> (e.Over? <==> consumed > 0) && !e.At? && (nearThreshold > 0.0 ==> !e.Near?))
    ensures var i := DeriveBudgetState(Income, Some(limit), consumed, nearThreshold).state;
      && i in {Some(Good), Some(OnTrack)}
      && (limit > 0 ==> (i == Some(Good) <==> consumed >= limit))
      && (limit <= 0 ==> (i == Some(Good) <==> consumed > 0))
    ensures forall c: CategoryType ::
      DeriveBudgetState(c, Some(limit), consumed, nearThreshold).remaining == Some(limit - consumed)
  {
    if limit > 0 {
      RatioAgainstOne(limit, consumed);
      assert Ratio(limit, consumed) * limit as real == consumed as real;
      ScaleKeepsOrder(Ratio(limit, consumed), nearThreshold, limit as real);
    }
  }

  /** The least consumption that puts a capped expense budget into state s. */
  function Floor(limit: Cents, s: State, nearThreshold: real): real {
    match s
    case Over => (if limit > 0 then limit + 1 else 1) as real
    case At => limit as real
    case _ => nearThreshold * limit as real
  }

  /** Any state an alert can name is reached exactly from its floor on. */
  lemma {:induction false} StateHasFloor(limit: Cents, total: Cents, consumed: Cents, nearThreshold: real)
    requires nearThreshold > 0.0 && Rank(ExpenseState(limit, total, nearThreshold)) >= 1
    ensures var s := ExpenseState(limit, total, nearThreshold);
      Rank(ExpenseState(limit, consumed, nearThreshold)) >= Rank(s)
      <==> consumed as real >= Floor(limit, s, nearThreshold)
  {
    if limit > 0 {
      RatioAgainstOne(limit, total);
      RatioAgainstOne(limit, consumed);
      assert Ratio(limit, consumed) * limit as real == consumed as real;
      ScaleKeepsOrder(Ratio(limit, consumed), nearThreshold, limit as real);
    }
  }

  /** Consuming more never lowers the state, whatever the limit and the threshold. */
  lemma {:induction false} RankMonotone(limit: Cents, c1: Cents, c2: Cents, nearThreshold: real)
    requires c1 <= c2
    ensures Rank(ExpenseState(limit, c1, nearThreshold)) <= Rank(ExpenseState(limit, c2, nearThreshold))
  {
    RatioMonotone(limit, c1, c2);
  }
}
