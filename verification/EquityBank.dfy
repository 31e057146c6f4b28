/** app/parsers/equity_bank.py, from lines already split and matched: data lines, Total
    lines and free text. */
module EquityBank {
  import opened Basics
  import opened Sums
  import opened ParserBase
  import opened BalanceDeltas

  /** One stripped line. A line that matches the Total pattern is never anything else; the
      bare amount on a data line is not read, so it is not kept here. */
  datatype Line =
    | Total(credit: Cents, debit: Cents, closing: Cents)
    | Data(prefix: string, reference: string, date: Date, balance: Cents)
    | Text(text: string)
    | Blank

  // ---- faux-bold words ----

  predicate Doubled(word: string) {
    |word| % 2 == 0 && forall i :: 0 <= i < |word| / 2 ==> word[2 * i] == word[2 * i + 1]
  }

  function EverySecond(word: string): string {
    seq(|word| / 2, i requires 0 <= i < |word| / 2 => word[2 * i])
  }

  function DedoubleWord(word: string): string {
    if |word| < 2 || |word| % 2 != 0 then word
    else if Doubled(word) then EverySecond(word)
    else word
  }

  function DoubleWord(word: string): string {
    if word == [] then [] else [word[0], word[0]] + DoubleWord(word[1..])
  }

  lemma {:induction false} DoubleWordLetters(word: string)
    ensures |DoubleWord(word)| == 2 * |word|
    ensures forall i :: 0 <= i < |word| ==> DoubleWord(word)[2 * i] == word[i] == DoubleWord(word)[2 * i + 1]
  {
    if word != [] {
      DoubleWordLetters(word[1..]);
      forall i | 0 <= i < |word|
        ensures DoubleWord(word)[2 * i] == word[i] == DoubleWord(word)[2 * i + 1]
      {
        if i > 0 {
          assert DoubleWord(word)[2 * i] == DoubleWord(word[1..])[2 * (i - 1)];
          assert DoubleWord(word)[2 * i + 1] == DoubleWord(word[1..])[2 * (i - 1) + 1];
        }
      }
    }
  }

  /** Faux bold is undone exactly. */
  lemma {:induction false} DedoubleInvertsDoubling(word: string)
    ensures DedoubleWord(DoubleWord(word)) == word
  {
    DoubleWordLetters(word);
    var doubled := DoubleWord(word);
    assert Doubled(doubled);
    assert EverySecond(doubled) == word;
  }

  lemma {:induction false} DoubledIsDouble(word: string)
    requires Doubled(word)
    ensures DoubleWord(EverySecond(word)) == word
  {
    if word != [] {
      var rest := word[2..];
      forall i | 0 <= i < |rest| / 2
        ensures rest[2 * i] == rest[2 * i + 1]
      {
        assert word[2 * (i + 1)] == word[2 * (i + 1) + 1];
      }
      DoubledIsDouble(rest);
      assert EverySecond(word) == [word[0]] + EverySecond(rest);
      assert word[2 * 0] == word[2 * 0 + 1];
      assert word == [word[0], word[0]] + rest;
    }
  }

  /** Nothing but a doubled word is ever changed. */
  lemma {:induction false} DedoubleTouchesOnlyDoubled(word: string)
    requires DedoubleWord(word) != word
    ensures DoubleWord(DedoubleWord(word)) == word
  {
    DoubledIsDouble(word);
  }

  // ---- the line loop ----

  /** State of the line loop: the rows read so far and the text waiting for its data line. */
  datatype Scan = Scan(rows: seq<BalanceRow>, pending: seq<string>)

  function Described(pending: seq<string>, prefix: string): string {
    Join(pending + if prefix == "" then [] else [prefix])
  }

  /** A description is the waiting text and then the data line's own, one space between any
      two pieces, and nothing where a piece is missing. */
  lemma {:induction false} DescribedSpells(pending: seq<string>, prefix: string)
    ensures pending == [] ==> Described(pending, prefix) == prefix
    ensures pending != [] && prefix == "" ==> Described(pending, prefix) == Join(pending)
    ensures pending != [] && prefix != "" ==> Described(pending, prefix) == Join(pending) + " " + prefix
  {
    assert pending + [] == pending && [] + [prefix] == [prefix];
    if pending != [] && prefix != "" {
      JoinAppend(pending, [prefix]);
    }
  }

  function ScanLine(s: Scan, line: Line): Scan {
    match line
    case Total(_, _, _) => s
    case Blank => s
    case Text(text) => s.(pending := s.pending + [text])
    case Data(prefix, reference, date, balance) =>
      Scan(s.rows + [BalanceRow(date, reference, Described(s.pending, prefix), balance)], [])
  }

  function ScanLines(lines: seq<Line>): Scan {
    if lines == [] then Scan([], [])
    else ScanLine(ScanLines(lines[..|lines| - 1]), lines[|lines| - 1])
  }

  function FirstTotal(lines: seq<Line>): (r: Option<Line>)
    ensures r.Some? ==> r.value.Total?
  {
    if lines == [] then None
    else if lines[0].Total? then Some(lines[0])
    else FirstTotal(lines[1..])
  }

  function OpeningFrom(total: Line): Cents
    requires total.Total?
  {
    total.closing - total.credit + total.debit
  }

  /** The first Total row decides, and only a statement without any has none. */
  lemma {:induction false} FirstTotalIsFirst(lines: seq<Line>, n: nat)
    requires n <= |lines| && forall j :: 0 <= j < n ==> !lines[j].Total?
    requires n < |lines| ==> lines[n].Total?
    ensures FirstTotal(lines) == if n == |lines| then None else Some(lines[n])
  {
    if n > 0 {
      FirstTotalIsFirst(lines[1..], n - 1);
    }
  }

  method ParseStatementText(lines: seq<Line>, currency: string, fp: Fingerprint)
    returns (r: Outcome<seq<Parsed>>)
    ensures FirstTotal(lines).None? ==> r == Refused(MissingAnchor)
    ensures FirstTotal(lines).Some? ==>
      r == Ok(FromBalances(ScanLines(lines).rows, OpeningFrom(FirstTotal(lines).value), currency, fp))
  {
    var rawRows: seq<BalanceRow> := [];
    var pending: seq<string> := [];
    for i := 0 to |lines|
      invariant Scan(rawRows, pending) == ScanLines(lines[..i])
    {
      assert lines[..i + 1][..i] == lines[..i];
      match lines[i] {
        case Total(_, _, _) =>
        case Blank =>
        case Text(text) => pending := pending + [text];
        case Data(prefix, reference, date, balance) =>
          var detailParts := pending + if prefix == "" then [] else [prefix];
          rawRows := rawRows + [BalanceRow(date, reference, Join(detailParts), balance)];
          pending := [];
      }
    }
    assert lines[..|lines|] == lines;
    var totalMatch := FirstTotal(lines);
    if totalMatch.None? {
      return Refused(MissingAnchor);
    }
    var openingBalance := OpeningFrom(totalMatch.value);
    var txns := BuildTransactions(rawRows, openingBalance, currency, fp);
    var v := ValidateRunningBalance(txns, openingBalance);
    RebuiltChainsExactly(rawRows, openingBalance, currency, fp);
    return Checked(txns, v);
  }

  // ---- round trip ----

  /** How one movement is laid out: text wrapped over earlier lines, then its data line. */
  datatype Entry = Entry(wrapped: seq<string>, prefix: string, move: Move)

  function TextLines(texts: seq<string>): seq<Line> {
    seq(|texts|, i requires 0 <= i < |texts| => Text(texts[i]))
  }

  function Moves(entries: seq<Entry>): seq<Move> {
    seq(|entries|, i requires 0 <= i < |entries| => entries[i].move)
  }

  function Layout(entries: seq<Entry>, opening: Cents): seq<Line> {
    if entries == [] then []
    else
      var n := |entries| - 1;
      var e := entries[n];
      Layout(entries[..n], opening) + TextLines(e.wrapped)
        + [Data(e.prefix, e.move.reference, e.move.date, opening + MoveNet(Moves(entries)))]
  }

  /** Every movement carries the text its lines spell out. */
  ghost predicate TextsAgree(entries: seq<Entry>) {
    forall e :: e in entries ==> e.move.description == Described(e.wrapped, e.prefix)
  }

  predicate Content(line: Line) {
    line.Data? || line.Text?
  }

  function Credits(moves: seq<Move>): Cents {
    SumOf(moves, (m: Move) => if m.dir.In? then m.amount else 0)
  }

  function Debits(moves: seq<Move>): Cents {
    SumOf(moves, (m: Move) => if m.dir.In? then 0 else m.amount)
  }

  lemma {:induction false} CreditsMinusDebits(moves: seq<Move>)
    ensures MoveNet(moves) == Credits(moves) - Debits(moves)
  {
    if moves != [] {
      var n := |moves| - 1;
      CreditsMinusDebits(moves[..n]);
      SumOfStep(moves, n, MoveDelta);
      assert moves[..n + 1] == moves;
    }
  }

  lemma {:induction false} ScanTexts(lines: seq<Line>, texts: seq<string>)
    ensures ScanLines(lines + TextLines(texts))
      == Scan(ScanLines(lines).rows, ScanLines(lines).pending + texts)
  {
    var all := lines + TextLines(texts);
    if texts == [] {
      assert all == lines;
      assert ScanLines(lines).pending + texts == ScanLines(lines).pending;
    } else {
      var n := |texts| - 1;
      ScanTexts(lines, texts[..n]);
      assert all[..|all| - 1] == lines + TextLines(texts[..n]);
      assert texts == texts[..n] + [texts[n]];
      assert ScanLines(lines).pending + texts == (ScanLines(lines).pending + texts[..n]) + [texts[n]];
    }
  }

  /** One entry's lines, read after lines that leave no text waiting, add its row. */
  lemma {:induction false} ScanEntry(before: seq<Line>, e: Entry, balance: Cents)
    requires ScanLines(before).pending == []
    requires e.move.description == Described(e.wrapped, e.prefix)
    ensures ScanLines(before + TextLines(e.wrapped) + [Data(e.prefix, e.move.reference, e.move.date, balance)])
      == Scan(ScanLines(before).rows + [BalanceRow(e.move.date, e.move.reference, e.move.description, balance)], [])
  {
    ScanTexts(before, e.wrapped);
    var texts := before + TextLines(e.wrapped);
    assert (texts + [Data(e.prefix, e.move.reference, e.move.date, balance)])[..|texts|] == texts;
    assert [] + e.wrapped == e.wrapped;
  }

  lemma {:induction false} FrontAgrees(entries: seq<Entry>)
    requires TextsAgree(entries) && entries != []
    ensures var n := |entries| - 1;
      TextsAgree(entries[..n]) && entries[n].move.description == Described(entries[n].wrapped, entries[n].prefix)
  {
    assert entries[|entries| - 1] in entries;
  }

  lemma {:induction false} ScanOfLayout(entries: seq<Entry>, opening: Cents)
    requires TextsAgree(entries)
    ensures ScanLines(Layout(entries, opening)) == Scan(Printed(Moves(entries), opening), [])
  {
    if entries == [] {
      assert Printed(Moves(entries), opening) == [];
    } else {
      var n := |entries| - 1;
      FrontAgrees(entries);
      ScanOfLayout(entries[..n], opening);
      ScanEntry(Layout(entries[..n], opening), entries[n], opening + MoveNet(Moves(entries)));
      PrintedStep(entries, opening);
    }
  }

  lemma {:induction false} PrintedStep(entries: seq<Entry>, opening: Cents)
    requires entries != []
    ensures var n := |entries| - 1;
      var m := entries[n].move;
      Printed(Moves(entries), opening) == Printed(Moves(entries[..n]), opening)
        + [BalanceRow(m.date, m.reference, m.description, opening + MoveNet(Moves(entries)))]
  {
    var n := |entries| - 1;
    var moves := Moves(entries);
    assert Moves(entries[..n]) == moves[..n];
    assert moves[..n + 1] == moves;
    forall i | 0 <= i < n
      ensures Printed(moves, opening)[i] == Printed(moves[..n], opening)[i]
    {
      assert moves[..n][..i + 1] == moves[..i + 1];
    }
  }

  /** Total rows and blank lines are invisible to the row scan, wherever they stand. */
  lemma {:induction false} ScanSkipsNoise(lines: seq<Line>)
    ensures ScanLines(lines) == ScanLines(Filter(lines, Content))
  {
    if lines != [] {
      var n := |lines| - 1;
      ScanSkipsNoise(lines[..n]);
      if Content(lines[n]) {
        var f := Filter(lines[..n], Content);
        assert (f + [lines[n]])[..|f|] == f;
      }
    }
  }

  /** Round trip. Lay out any movements over wrapped lines, sprinkle blank lines and Total
      rows anywhere, add trailing text; if the first Total row states the true totals, the
      parser returns exactly those movements, and its opening balance is the true one. This
      holds precisely because, and only when, every movement is visible in the balances. */
  lemma {:induction false} ParsingInvertsLayout(lines: seq<Line>, entries: seq<Entry>, trailing: seq<string>,
                                                opening: Cents, currency: string, fp: Fingerprint)
    requires TextsAgree(entries)
    requires Filter(lines, Content) == Layout(entries, opening) + TextLines(trailing)
    requires FirstTotal(lines) == Some(Total(Credits(Moves(entries)), Debits(Moves(entries)),
                                             opening + MoveNet(Moves(entries))))
    ensures OpeningFrom(FirstTotal(lines).value) == opening
    ensures Recovers(FromBalances(ScanLines(lines).rows, OpeningFrom(FirstTotal(lines).value), currency, fp),
                     Moves(entries))
      <==> forall m :: m in Moves(entries) ==> Visible(m)
  {
    CreditsMinusDebits(Moves(entries));
    ScanSkipsNoise(lines);
    ScanTexts(Layout(entries, opening), trailing);
    ScanOfLayout(entries, opening);
    RebuildInvertsPrinting(Moves(entries), opening, currency, fp);
  }
}
