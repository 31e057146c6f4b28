/** app/parsers/base.py: the row every parser returns, the running-balance check and the
    opening balance recovered from the oldest row. */
module ParserBase {
  import opened Basics
  import opened Sums

  /** One parsed statement row. `key` stands for the provider's dedupe hash. */
  datatype Parsed = Parsed(
    date: Date,
    amount: Cents,
    currency: string,
    dir: Direction,
    description: string,
    balanceAfter: Option<Cents>,
    key: string)

  /** Outcome of the check: row numbers count from 1, as the error message does. A row
      without a balance makes the comparison itself fail with a type error. */
  datatype Validation = Reconciled | Mismatch(row: nat) | TypeError(row: nat)

  /** The reasons a parser gives for refusing a statement. */
  datatype Failure = MissingAnchor | BalanceMismatch(row: nat)

  /** What calling a parser leads to; Crashed is any exception that is not a refusal. */
  datatype Outcome<+T> = Ok(value: T) | Refused(why: Failure) | Crashed

  /** The check as parsers use it: a failed check replaces the rows. */
  function Checked(txns: seq<Parsed>, v: Validation): Outcome<seq<Parsed>> {
    match v
    case Reconciled => Ok(txns)
    case Mismatch(row) => Refused(BalanceMismatch(row))
    case TypeError(_) => Crashed
  }

  function Delta(t: Parsed): int {
    Signed(t.dir, t.amount)
  }

  /** Opening-to-closing movement of a list of rows. */
  function Net(txns: seq<Parsed>): int {
    SumOf(txns, Delta)
  }

  /** Row i agrees, to within a cent, with the balance stated just before it. */
  ghost predicate RowReconciles(txns: seq<Parsed>, opening: Cents, i: nat)
    requires i < |txns|
  {
    && (i > 0 ==> txns[i - 1].balanceAfter.Some?)
    && txns[i].balanceAfter.Some?
    && Abs(StatedBefore(txns, opening, i) + Delta(txns[i]) - txns[i].balanceAfter.value) <= 1
  }

  ghost function StatedBefore(txns: seq<Parsed>, opening: Cents, i: nat): Cents
    requires i < |txns|
    requires i > 0 ==> txns[i - 1].balanceAfter.Some?
  {
    if i == 0 then opening else txns[i - 1].balanceAfter.value
  }

  ghost predicate Accepts(txns: seq<Parsed>, opening: Cents) {
    forall i :: 0 <= i < |txns| ==> RowReconciles(txns, opening, i)
  }

  /** The chain holds with no tolerance used up. */
  ghost predicate ExactChain(txns: seq<Parsed>, opening: Cents) {
    forall i :: 0 <= i < |txns| ==>
      txns[i].balanceAfter.Some? && txns[i].balanceAfter.value == opening + Net(txns[..i + 1])
  }

  /** Accepts exactly the lists whose every row reconciles; otherwise names the first row
      that does not, telling a mismatch from a row with no balance at all. */
  method ValidateRunningBalance(txns: seq<Parsed>, opening: Cents) returns (v: Validation)
    ensures v.Reconciled? <==> Accepts(txns, opening)
    ensures !v.Reconciled? ==> 1 <= v.row <= |txns| && Accepts(txns[..v.row - 1], opening)
    ensures v.Mismatch? ==>
      txns[v.row - 1].balanceAfter.Some? && !RowReconciles(txns, opening, v.row - 1)
    ensures v.TypeError? ==> txns[v.row - 1].balanceAfter.None?
  {
    var previousBalance := opening;
    for i := 0 to |txns|
      invariant forall j :: 0 <= j < i ==> RowReconciles(txns, opening, j)
      invariant i > 0 ==> txns[i - 1].balanceAfter == Some(previousBalance)
      invariant i == 0 ==> previousBalance == opening
    {
      var t := txns[i];
      assert forall j :: 0 <= j < i ==>
        (RowReconciles(txns[..i], opening, j) <==> RowReconciles(txns, opening, j));
      var expected := if t.dir.In? then previousBalance + t.amount else previousBalance - t.amount;
      if t.balanceAfter.None? {
        assert !RowReconciles(txns, opening, i);
        return TypeError(i + 1);
      }
      if Abs(expected - t.balanceAfter.value) > 1 {
        assert !RowReconciles(txns, opening, i);
        return Mismatch(i + 1);
      }
      previousBalance := t.balanceAfter.value;
    }
    return Reconciled;
  }

  /** Each accepted row may hide one cent, and the cents add up: after n rows the stated
      balance is within n cents of opening plus net movement. */
  lemma {:induction false} DriftBounded(txns: seq<Parsed>, opening: Cents, n: nat)
    requires Accepts(txns, opening)
    requires 0 < n <= |txns|
    ensures txns[n - 1].balanceAfter.Some?
    ensures Abs(txns[n - 1].balanceAfter.value - (opening + Net(txns[..n]))) <= n
  {
    assert RowReconciles(txns, opening, n - 1);
    SumOfStep(txns, n - 1, Delta);
    if n > 1 {
      DriftBounded(txns, opening, n - 1);
    } else {
      assert txns[..0] == [];
    }
  }

  /** n rows, each stating one cent more than it should. */
  ghost function Drifting(n: nat, opening: Cents): (txns: seq<Parsed>)
    ensures |txns| == n
  {
    seq(n, i => Parsed(0, 100, "KES", In, "", Some(opening + 101 * (i + 1)), ""))
  }

  lemma {:induction false} DriftingNet(n: nat, opening: Cents)
    ensures Net(Drifting(n, opening)) == 100 * n
  {
    if n > 0 {
      DriftingNet(n - 1, opening);
      SumOfStep(Drifting(n, opening), n - 1, Delta);
      assert Drifting(n, opening)[..n - 1] == Drifting(n - 1, opening);
      assert Drifting(n, opening)[..n] == Drifting(n, opening);
    } else {
      assert Drifting(0, opening) == [];
    }
  }

  /** The bound is the best possible: for every n some accepted list drifts by n cents. */
  lemma {:induction false} DriftIsReached(n: nat, opening: Cents)
    requires n > 0
    ensures exists txns: seq<Parsed> ::
              && |txns| == n
              && Accepts(txns, opening)
              && txns[n - 1].balanceAfter == Some(opening + Net(txns) + n)
  {
    var txns := Drifting(n, opening);
    DriftingNet(n, opening);
    assert Accepts(txns, opening);
    assert txns[n - 1].balanceAfter == Some(opening + Net(txns) + n);
  }

  lemma {:induction false} ExactChainAccepts(txns: seq<Parsed>, opening: Cents)
    requires ExactChain(txns, opening)
    ensures Accepts(txns, opening)
  {
    forall i | 0 <= i < |txns|
      ensures RowReconciles(txns, opening, i)
    {
      SumOfStep(txns, i, Delta);
      if i == 0 {
        assert txns[..0] == [];
      } else {
        assert txns[i - 1].balanceAfter.Some?;
      }
    }
  }

  /** Earliest and latest date of a non-empty batch. */
  function StatementPeriod(txns: seq<Parsed>): (p: (Date, Date))
    requires txns != []
    ensures forall t :: t in txns ==> p.0 <= t.date <= p.1
    ensures exists t :: t in txns && t.date == p.0
    ensures exists t :: t in txns && t.date == p.1
  {
    var last := txns[|txns| - 1];
    if |txns| == 1 then
      assert last in txns;
      (last.date, last.date)
    else
      var front := txns[..|txns| - 1];
      var (lo, hi) := StatementPeriod(front);
      assert txns == front + [last];
      (if last.date < lo then last.date else lo, if last.date > hi then last.date else hi)
  }

  function DeriveOpeningBalance(txns: seq<Parsed>): Option<(Cents, Date)> {
    if txns == [] || txns[0].balanceAfter.None? then None
    else Some((txns[0].balanceAfter.value - Delta(txns[0]), txns[0].date))
  }

  /** Validation does not make the recovered opening exact. Over an accepted list it is off
      by at most a cent, and it is the true opening just when the first row chains exactly. */
  lemma {:induction false} DeriveOpeningOfAccepted(txns: seq<Parsed>, opening: Cents)
    requires Accepts(txns, opening) && txns != []
    ensures var d := DeriveOpeningBalance(txns);
      && d.Some? && d.value.1 == txns[0].date && Abs(d.value.0 - opening) <= 1
      && (d.value.0 == opening <==> txns[0].balanceAfter.value == opening + Delta(txns[0]))
  {
    assert RowReconciles(txns, opening, 0);
  }

  lemma {:induction false} DeriveOpeningOfExactChain(txns: seq<Parsed>, opening: Cents)
    requires ExactChain(txns, opening) && txns != []
    ensures DeriveOpeningBalance(txns) == Some((opening, txns[0].date))
  {
    SumOfStep(txns, 0, Delta);
    assert txns[..0] == [];
  }

  /** A one-row list that is accepted although its recovered opening is a cent out. */
  lemma {:induction false} DeriveOpeningCanBeOff()
    ensures exists txns :: Accepts(txns, 10000) && DeriveOpeningBalance(txns) == Some((10001, 7))
  {
    var txns := [Parsed(7, 500, "KES", In, "", Some(10501), "")];
    assert RowReconciles(txns, 10000, 0);
    assert Accepts(txns, 10000);
    assert DeriveOpeningBalance(txns) == Some((10001, 7));
  }
}
