/** The reconstruction shared by Equity Bank, NCBA Bank and Mentor Sacco: only the running
    balance is read, and amount and direction come from its differences. */
module BalanceDeltas {
  import opened Basics
  import opened Sums
  import opened ParserBase

  datatype BalanceRow = BalanceRow(date: Date, reference: string, description: string, balance: Cents)

  /** What the bank really did: one movement per row. */
  datatype Move = Move(date: Date, reference: string, description: string, dir: Direction, amount: Cents)

  /** The provider's dedupe hash, as a function of the row's text and the rebuilt amount. */
  type Fingerprint = (BalanceRow, Cents) -> string

  function Before(rows: seq<BalanceRow>, opening: Cents, i: nat): Cents
    requires i <= |rows|
  {
    if i == 0 then opening else rows[i - 1].balance
  }

  function Rebuilt(row: BalanceRow, before: Cents, currency: string, fp: Fingerprint): Parsed {
    var amount := Abs(row.balance - before);
    Parsed(row.date, amount, currency, if row.balance >= before then In else Out,
           row.description, Some(row.balance), fp(row, amount))
  }

  function FromBalances(rows: seq<BalanceRow>, opening: Cents, currency: string, fp: Fingerprint): seq<Parsed> {
    seq(|rows|, i requires 0 <= i < |rows| => Rebuilt(rows[i], Before(rows, opening, i), currency, fp))
  }

  method BuildTransactions(rows: seq<BalanceRow>, opening: Cents, currency: string, fp: Fingerprint)
    returns (txns: seq<Parsed>)
    ensures txns == FromBalances(rows, opening, currency, fp)
  {
    txns := [];
    var previousBalance := opening;
    for i := 0 to |rows|
      invariant previousBalance == Before(rows, opening, i)
      invariant txns == FromBalances(rows, opening, currency, fp)[..i]
    {
      var row := rows[i];
      var amount := Abs(row.balance - previousBalance);
      var direction := if row.balance >= previousBalance then In else Out;
      previousBalance := row.balance;
      txns := txns + [Parsed(row.date, amount, currency, direction, row.description,
                             Some(row.balance), fp(row, amount))];
    }
  }

  /** Whatever balances and opening were read, the rebuilt rows chain exactly: the check
      that follows cannot fail, and reversing the oldest row gives the opening back. */
  lemma {:induction false} RebuiltChainsExactly(rows: seq<BalanceRow>, opening: Cents, currency: string,
                                                fp: Fingerprint)
    ensures var txns := FromBalances(rows, opening, currency, fp);
      && ExactChain(txns, opening)
      && Accepts(txns, opening)
      && (rows != [] ==> DeriveOpeningBalance(txns) == Some((opening, rows[0].date)))
  {
    RebuiltExactly(rows, opening, currency, fp);
    ExactChainAccepts(FromBalances(rows, opening, currency, fp), opening);
    if rows != [] {
      DeriveOpeningOfExactChain(FromBalances(rows, opening, currency, fp), opening);
    }
  }

  lemma {:induction false} Telescope(txns: seq<Parsed>, rows: seq<BalanceRow>, opening: Cents, n: nat)
    requires n <= |rows| == |txns|
    requires forall i {:trigger txns[i]} :: 0 <= i < |txns| ==>
               Delta(txns[i]) == rows[i].balance - Before(rows, opening, i)
    ensures Before(rows, opening, n) == opening + Net(txns[..n])
  {
    if n > 0 {
      Telescope(txns, rows, opening, n - 1);
      SumOfStep(txns, n - 1, Delta);
    }
  }

  lemma {:induction false} TelescopesExactly(txns: seq<Parsed>, rows: seq<BalanceRow>, opening: Cents)
    requires |rows| == |txns|
    requires forall i {:trigger txns[i]} :: 0 <= i < |txns| ==>
               txns[i].balanceAfter == Some(rows[i].balance)
               && Delta(txns[i]) == rows[i].balance - Before(rows, opening, i)
    ensures ExactChain(txns, opening)
  {
    forall i | 0 <= i < |txns|
      ensures txns[i].balanceAfter == Some(opening + Net(txns[..i + 1]))
    {
      Telescope(txns, rows, opening, i + 1);
    }
  }

  lemma {:induction false} RebuiltExactly(rows: seq<BalanceRow>, opening: Cents, currency: string, fp: Fingerprint)
    ensures ExactChain(FromBalances(rows, opening, currency, fp), opening)
  {
    TelescopesExactly(FromBalances(rows, opening, currency, fp), rows, opening);
  }

  /** Row for row: date, text and balance are the printed row's own, and the fingerprint is
      taken of the row and the rebuilt amount, which is never negative. */
  lemma {:induction false} RebuiltRows(rows: seq<BalanceRow>, opening: Cents, currency: string, fp: Fingerprint)
    ensures var txns := FromBalances(rows, opening, currency, fp);
      && |txns| == |rows|
      && forall i :: 0 <= i < |txns| ==>
           && txns[i].date == rows[i].date && txns[i].description == rows[i].description
           && txns[i].balanceAfter == Some(rows[i].balance) && txns[i].currency == currency
           && txns[i].amount >= 0 && txns[i].key == fp(rows[i], txns[i].amount)
  {
  }

  function MoveDelta(m: Move): int {
    Signed(m.dir, m.amount)
  }

  function MoveNet(moves: seq<Move>): int {
    SumOf(moves, MoveDelta)
  }

  /** The statement a bank prints for these movements: text and running balance only. */
  function Printed(moves: seq<Move>, opening: Cents): seq<BalanceRow> {
    seq(|moves|, i requires 0 <= i < |moves| =>
      BalanceRow(moves[i].date, moves[i].reference, moves[i].description, opening + MoveNet(moves[..i + 1])))
  }

  ghost predicate Recovers(txns: seq<Parsed>, moves: seq<Move>) {
    && |txns| == |moves|
    && forall i :: 0 <= i < |txns| ==> SameMovement(txns[i], moves[i])
  }

  ghost predicate SameMovement(t: Parsed, m: Move) {
    t.date == m.date && t.description == m.description && t.dir == m.dir && t.amount == m.amount
  }

  /** A movement that shows in a balance column: a positive amount, or a zero credit. A zero
      debit, or a negative amount, comes back as something else. */
  predicate Visible(m: Move) {
    m.amount > 0 || (m.amount == 0 && m.dir.In?)
  }

  lemma {:induction false} PrintedMove(moves: seq<Move>, opening: Cents, i: nat)
    requires i < |moves|
    ensures Printed(moves, opening)[i].balance - Before(Printed(moves, opening), opening, i) == MoveDelta(moves[i])
  {
    SumOfStep(moves, i, MoveDelta);
  }

  lemma {:induction false} RebuiltMove(m: Move, row: BalanceRow, before: Cents, currency: string, fp: Fingerprint)
    requires row.date == m.date && row.description == m.description && row.balance - before == MoveDelta(m)
    ensures SameMovement(Rebuilt(row, before, currency, fp), m) <==> Visible(m)
  {
  }

  lemma {:induction false} RebuiltRow(moves: seq<Move>, opening: Cents, currency: string, fp: Fingerprint, i: nat)
    requires i < |moves|
    ensures SameMovement(FromBalances(Printed(moves, opening), opening, currency, fp)[i], moves[i])
      <==> Visible(moves[i])
  {
    PrintedMove(moves, opening, i);
    RebuiltMove(moves[i], Printed(moves, opening)[i], Before(Printed(moves, opening), opening, i), currency, fp);
  }

  /** Printing only balances loses nothing exactly when every movement is visible. */
  lemma {:induction false} RebuildInvertsPrinting(moves: seq<Move>, opening: Cents, currency: string, fp: Fingerprint)
    ensures Recovers(FromBalances(Printed(moves, opening), opening, currency, fp), moves)
      <==> forall m :: m in moves ==> Visible(m)
  {
    forall i | 0 <= i < |moves|
      ensures SameMovement(FromBalances(Printed(moves, opening), opening, currency, fp)[i], moves[i])
        <==> Visible(moves[i])
    {
      RebuiltRow(moves, opening, currency, fp, i);
    }
    if Recovers(FromBalances(Printed(moves, opening), opening, currency, fp), moves) {
      forall m | m in moves
        ensures Visible(m)
      {
        var i :| 0 <= i < |moves| && moves[i] == m;
      }
    }
  }

  /** A wrong opening balance is absorbed silently by the first row: every later row is
      unchanged, the first one moves by the whole error, and the check still passes. */
  lemma {:induction false} WrongOpeningHitsFirstRowOnly(rows: seq<BalanceRow>, opening: Cents, wrong: Cents,
                                                        currency: string, fp: Fingerprint)
    requires rows != []
    ensures var good := FromBalances(rows, opening, currency, fp);
      var bad := FromBalances(rows, wrong, currency, fp);
      && good[1..] == bad[1..]
      && Delta(bad[0]) == Delta(good[0]) + opening - wrong
      && Accepts(bad, wrong)
  {
    RebuiltChainsExactly(rows, wrong, currency, fp);
  }
}
