/** app/parsers/mentor_sacco.py: one statement, several sub-ledgers, each a section with its
    own opening balance. */
module MentorSacco {
  import opened Basics
  import opened ParserBase
  import opened BalanceDeltas

  /** One stripped line: a section header, a dated data line, or anything else. */
  datatype Line =
    | Header(name: string)
    | Data(date: Date, rest: string, amount: Cents, balance: Cents)
    | Noise

  datatype SubLedgerStatement = SubLedgerStatement(name: string, opening: Cents, transactions: seq<Parsed>)

  /** A data line that is not an opening balance. The printed amount matters only when it
      is the first row of a section that states no opening. */
  datatype Row = Row(date: Date, description: string, amount: Cents, balance: Cents)

  predicate StatesOpening(line: Line) {
    line.Data? && "Opening Balance" <= line.rest
  }

  predicate IsRow(line: Line) {
    line.Data? && !StatesOpening(line)
  }

  function RowOf(line: Line): Row
    requires line.Data?
  {
    Row(line.date, line.rest, line.amount, line.balance)
  }

  // ---- one section ----

  function BalanceRows(rows: seq<Row>): seq<BalanceRow> {
    seq(|rows|, i requires 0 <= i < |rows| =>
      BalanceRow(rows[i].date, "", rows[i].description, rows[i].balance))
  }

  function EffectiveOpening(rows: seq<Row>, opening: Cents, explicit: bool): Cents {
    if rows != [] && !explicit then rows[0].balance - rows[0].amount else opening
  }

  method BuildSection(rows: seq<Row>, opening: Cents, explicit: bool, fp: Fingerprint)
    returns (effective: Cents, txns: seq<Parsed>)
    ensures effective == EffectiveOpening(rows, opening, explicit)
    ensures txns == FromBalances(BalanceRows(rows), effective, "KES", fp)
  {
    effective, txns := opening, [];
    var previousBalance := opening;
    ghost var all := BalanceRows(rows);
    for i := 0 to |rows|
      invariant effective == if i == 0 then opening else EffectiveOpening(rows, opening, explicit)
      invariant i == 0 ==> previousBalance == opening
      invariant i > 0 ==> previousBalance == rows[i - 1].balance
      invariant txns == FromBalances(all, EffectiveOpening(rows, opening, explicit), "KES", fp)[..i]
    {
      if i == 0 && !explicit {
        previousBalance := rows[i].balance - rows[i].amount;
        effective := previousBalance;
      }
      var amount := Abs(rows[i].balance - previousBalance);
      var direction := if rows[i].balance >= previousBalance then In else Out;
      previousBalance := rows[i].balance;
      txns := txns + [Parsed(rows[i].date, amount, "KES", direction, rows[i].description,
        Some(rows[i].balance), fp(BalanceRow(rows[i].date, "", rows[i].description, rows[i].balance), amount))];
    }
  }

  // ---- cutting the file at its headers ----

  /** A header and the data lines under it. */
  datatype Block = Block(name: string, lines: seq<Line>)

  function Blocks(lines: seq<Line>): seq<Block> {
    if lines == [] then []
    else
      var front := Blocks(lines[..|lines| - 1]);
      var last := lines[|lines| - 1];
      if last.Header? then front + [Block(last.name, [])]
      else if last.Noise? || front == [] then front
      else
        Grown(front, last)
  }

  /** The last block, with one more line. */
  function Grown(blocks: seq<Block>, line: Line): seq<Block>
    requires blocks != []
  {
    var b := blocks[|blocks| - 1];
    blocks[..|blocks| - 1] + [b.(lines := b.lines + [line])]
  }

  lemma {:induction false} BlocksStep(lines: seq<Line>, i: nat)
    requires i < |lines|
    ensures var blocks := Blocks(lines[..i]);
      Blocks(lines[..i + 1]) ==
      match lines[i]
      case Header(name) => blocks + [Block(name, [])]
      case Noise => blocks
      case Data(_, _, _, _) => if blocks == [] then [] else Grown(blocks, lines[i])
  {
    assert lines[..i + 1][..i] == lines[..i];
  }

  /** Opening stated by a block: its last opening line, or nothing. */
  function StatedOpening(lines: seq<Line>): Option<Cents> {
    if lines == [] then None
    else
      var last := lines[|lines| - 1];
      if StatesOpening(last) then Some(last.balance) else StatedOpening(lines[..|lines| - 1])
  }

  function RowsOf(lines: seq<Line>): seq<Row> {
    if lines == [] then []
    else
      var front := RowsOf(lines[..|lines| - 1]);
      var last := lines[|lines| - 1];
      if IsRow(last) then front + [RowOf(last)] else front
  }

  function SectionOf(b: Block, fp: Fingerprint): SubLedgerStatement {
    var stated := StatedOpening(b.lines);
    var opening := EffectiveOpening(RowsOf(b.lines), if stated.Some? then stated.value else 0, stated.Some?);
    SubLedgerStatement(b.name, opening, FromBalances(BalanceRows(RowsOf(b.lines)), opening, "KES", fp))
  }

  function SectionsOf(blocks: seq<Block>, fp: string -> Fingerprint): seq<SubLedgerStatement> {
    seq(|blocks|, i requires 0 <= i < |blocks| => SectionOf(blocks[i], fp(blocks[i].name)))
  }

  /** The loop variables hold what the open block says so far. */
  ghost predicate Reflects(open: Block, name: string, opening: Cents, explicit: bool, rows: seq<Row>) {
    && open.name == name
    && rows == RowsOf(open.lines)
    && StatedOpening(open.lines) == (if explicit then Some(opening) else None)
    && (!explicit ==> opening == 0)
  }

  /** Blocks but the last are closed into sections, the last is open; none means no header yet. */
  ghost predicate Tracks(blocks: seq<Block>, sections: seq<SubLedgerStatement>, fp: string -> Fingerprint,
                         sectionName: Option<string>, opening: Cents, explicit: bool, rows: seq<Row>) {
    if blocks == [] then sectionName.None? && sections == []
    else
      && sectionName.Some?
      && sections == SectionsOf(blocks[..|blocks| - 1], fp)
      && Reflects(blocks[|blocks| - 1], sectionName.value, opening, explicit, rows)
  }

  lemma {:induction false} SectionsOfStep(blocks: seq<Block>, fp: string -> Fingerprint)
    requires blocks != []
    ensures var n := |blocks| - 1;
      SectionsOf(blocks, fp) == SectionsOf(blocks[..n], fp) + [SectionOf(blocks[n], fp(blocks[n].name))]
  {
  }

  lemma {:induction false} HeaderOpens(blocks: seq<Block>, sections: seq<SubLedgerStatement>,
                                       fp: string -> Fingerprint, name: string)
    requires sections == SectionsOf(blocks, fp)
    ensures Tracks(blocks + [Block(name, [])], sections, fp, Some(name), 0, false, [])
  {
    assert (blocks + [Block(name, [])])[..|blocks|] == blocks;
  }

  lemma {:induction false} LineJoins(blocks: seq<Block>, sections: seq<SubLedgerStatement>, fp: string -> Fingerprint,
                                     name: string, opening: Cents, explicit: bool, rows: seq<Row>, line: Line)
    requires blocks != [] && Tracks(blocks, sections, fp, Some(name), opening, explicit, rows) && line.Data?
    ensures StatesOpening(line) ==> Tracks(Grown(blocks, line), sections, fp, Some(name), line.balance, true, rows)
    ensures !StatesOpening(line) ==>
      Tracks(Grown(blocks, line), sections, fp, Some(name), opening, explicit, rows + [RowOf(line)])
  {
    var open := blocks[|blocks| - 1];
    assert (open.lines + [line])[..|open.lines|] == open.lines;
    assert Grown(blocks, line)[..|blocks| - 1] == blocks[..|blocks| - 1];
  }

  method Flush(name: string, opening: Cents, explicit: bool, rows: seq<Row>, fp: Fingerprint, ghost open: Block)
    returns (section: SubLedgerStatement)
    requires Reflects(open, name, opening, explicit, rows)
    ensures section == SectionOf(open, fp)
  {
    var effective, txns := BuildSection(rows, opening, explicit, fp);
    var v := ValidateRunningBalance(txns, effective);
    RebuiltChainsExactly(BalanceRows(rows), effective, "KES", fp);
    assert v.Reconciled?;
    section := SubLedgerStatement(name, effective, txns);
  }

  /** The parse loop closes a section at each header and at the end. The outcome is one
      section per block, and never a refusal. */
  method ParseStatement(lines: seq<Line>, fp: string -> Fingerprint)
    returns (r: Outcome<seq<SubLedgerStatement>>)
    ensures r == Ok(SectionsOf(Blocks(lines), fp))
  {
    var sections: seq<SubLedgerStatement> := [];
    var sectionName: Option<string> := None;
    var openingBalance := 0;
    var hasExplicitOpening := false;
    var rows: seq<Row> := [];
    ghost var blocks: seq<Block> := [];
    for i := 0 to |lines|
      invariant blocks == Blocks(lines[..i])
      invariant Tracks(blocks, sections, fp, sectionName, openingBalance, hasExplicitOpening, rows)
    {
      BlocksStep(lines, i);
      match lines[i] {
        case Header(name) =>
          if sectionName.Some? {
            var section := Flush(sectionName.value, openingBalance, hasExplicitOpening, rows,
                                 fp(sectionName.value), blocks[|blocks| - 1]);
            sections := sections + [section];
            SectionsOfStep(blocks, fp);
          }
          HeaderOpens(blocks, sections, fp, name);
          sectionName := Some(name);
          openingBalance := 0;
          hasExplicitOpening := false;
          rows := [];
        case Noise =>
        case Data(date, rest, amount, balance) =>
          if sectionName.Some? {
            LineJoins(blocks, sections, fp, sectionName.value, openingBalance, hasExplicitOpening, rows, lines[i]);
            if "Opening Balance" <= rest {
              openingBalance := balance;
              hasExplicitOpening := true;
            } else {
              rows := rows + [Row(date, rest, amount, balance)];
            }
          }
      }
      blocks := Blocks(lines[..i + 1]);
    }
    assert lines[..|lines|] == lines;
    if sectionName.Some? {
      var section := Flush(sectionName.value, openingBalance, hasExplicitOpening, rows,
                           fp(sectionName.value), blocks[|blocks| - 1]);
      sections := sections + [section];
      SectionsOfStep(blocks, fp);
    } else {
      assert SectionsOf([], fp) == [];
    }
    return Ok(sections);
  }

  // ---- nothing lost, nothing shared ----

  function HeaderNames(lines: seq<Line>): seq<string> {
    if lines == [] then []
    else
      var front := HeaderNames(lines[..|lines| - 1]);
      var last := lines[|lines| - 1];
      if last.Header? then front + [last.name] else front
  }

  function BlockNames(blocks: seq<Block>): seq<string> {
    seq(|blocks|, i requires 0 <= i < |blocks| => blocks[i].name)
  }

  /** One section per header occurrence, in file order, never merged by name. */
  lemma {:induction false} OneSectionPerHeader(lines: seq<Line>)
    ensures BlockNames(Blocks(lines)) == HeaderNames(lines)
  {
    if lines != [] {
      OneSectionPerHeader(lines[..|lines| - 1]);
    }
  }

  /** Data lines from the first header on. */
  function DataAfterHeader(lines: seq<Line>): seq<Line> {
    if lines == [] then []
    else
      var front, last := lines[..|lines| - 1], lines[|lines| - 1];
      if last.Data? && HeaderNames(front) != [] then DataAfterHeader(front) + [last]
      else DataAfterHeader(front)
  }

  function AllLines(blocks: seq<Block>): seq<Line> {
    if blocks == [] then [] else AllLines(blocks[..|blocks| - 1]) + blocks[|blocks| - 1].lines
  }

  /** The sections' data lines, end to end, are the file's data lines after its first
      header: none lost, none shared, none out of order. */
  lemma {:induction false} SectionsPartitionLines(lines: seq<Line>)
    ensures AllLines(Blocks(lines)) == DataAfterHeader(lines)
  {
    if lines != [] {
      var front, last := lines[..|lines| - 1], lines[|lines| - 1];
      SectionsPartitionLines(front);
      OneSectionPerHeader(front);
      var blocks := Blocks(front);
      if last.Header? {
        assert (blocks + [Block(last.name, [])])[..|blocks|] == blocks;
      } else if last.Data? && blocks != [] {
        var n := |blocks| - 1;
        var grown := blocks[n].(lines := blocks[n].lines + [last]);
        assert (blocks[..n] + [grown])[..n] == blocks[..n];
      } else {
        assert blocks == [] ==> HeaderNames(front) == [];
      }
    }
  }

  /** The file's headers and data lines from the first header on. */
  function FromFirstHeader(lines: seq<Line>): seq<Line> {
    if lines == [] then []
    else
      var front, last := FromFirstHeader(lines[..|lines| - 1]), lines[|lines| - 1];
      if last.Header? || (last.Data? && front != []) then front + [last] else front
  }

  /** Blocks written out again, each under its header. */
  function WrittenOut(blocks: seq<Block>): seq<Line> {
    if blocks == [] then []
    else
      var b := blocks[|blocks| - 1];
      WrittenOut(blocks[..|blocks| - 1]) + [Header(b.name)] + b.lines
  }

  /** Cutting the file loses nothing of who stands under whom: written out again, the blocks
      are the file from its first header on, without the noise. */
  lemma {:induction false} BlocksInvertTheFile(lines: seq<Line>)
    ensures WrittenOut(Blocks(lines)) == FromFirstHeader(lines)
    ensures Blocks(lines) == [] <==> FromFirstHeader(lines) == []
  {
    if lines != [] {
      var front, last := lines[..|lines| - 1], lines[|lines| - 1];
      BlocksInvertTheFile(front);
      var blocks := Blocks(front);
      if last.Header? {
        assert (blocks + [Block(last.name, [])])[..|blocks|] == blocks;
      } else if last.Data? && blocks != [] {
        var n := |blocks| - 1;
        assert Grown(blocks, last)[..n] == blocks[..n];
        assert WrittenOut(Grown(blocks, last))
          == WrittenOut(blocks[..n]) + [Header(blocks[n].name)] + (blocks[n].lines + [last]);
        assert WrittenOut(blocks) == WrittenOut(blocks[..n]) + [Header(blocks[n].name)] + blocks[n].lines;
      }
    }
  }

  lemma {:induction false} RowsAreTheRowLines(lines: seq<Line>)
    ensures |RowsOf(lines)| == |Filter(lines, IsRow)|
    ensures forall i :: 0 <= i < |RowsOf(lines)| ==>
      Filter(lines, IsRow)[i].Data? && RowsOf(lines)[i] == RowOf(Filter(lines, IsRow)[i])
  {
    if lines != [] {
      RowsAreTheRowLines(lines[..|lines| - 1]);
    }
  }

  ghost predicate Carries(t: Parsed, line: Line)
    requires line.Data?
  {
    t.date == line.date && t.description == line.rest && t.balanceAfter == Some(line.balance)
  }

  /** Each section carries its block's non-opening lines one for one, chains exactly from
      its reported opening, and gives that opening back when it has a row.
      Without a stated opening the first row is booked as the printed amount. */
  lemma {:induction false} SectionIsSound(b: Block, fp: Fingerprint)
    ensures var s := SectionOf(b, fp);
      var lines := Filter(b.lines, IsRow);
      && s.name == b.name
      && |s.transactions| == |lines|
      && (forall i :: 0 <= i < |lines| ==> lines[i].Data? && Carries(s.transactions[i], lines[i]))
      && ExactChain(s.transactions, s.opening)
      && (StatedOpening(b.lines).None? && lines != [] ==> Delta(s.transactions[0]) == lines[0].amount)
      && (s.transactions != [] ==>
           DeriveOpeningBalance(s.transactions) == Some((s.opening, s.transactions[0].date)))
  {
    RowsAreTheRowLines(b.lines);
    RebuiltChainsExactly(BalanceRows(RowsOf(b.lines)), SectionOf(b, fp).opening, "KES", fp);
  }

  // ---- the opening a section reports ----

  /** The opening a block states is the balance on its last opening line. */
  lemma {:induction false} StatedIsLast(lines: seq<Line>)
    ensures match StatedOpening(lines)
            case None => forall i :: 0 <= i < |lines| ==> !StatesOpening(lines[i])
            case Some(v) => exists i ::
              && 0 <= i < |lines| && StatesOpening(lines[i]) && lines[i].balance == v
              && forall j :: i < j < |lines| ==> !StatesOpening(lines[j])
  {
    if lines != [] {
      var n := |lines| - 1;
      StatedIsLast(lines[..n]);
      if StatesOpening(lines[n]) {
      } else if StatedOpening(lines[..n]).Some? {
        var i :| 0 <= i < n && StatesOpening(lines[i]) && lines[i].balance == StatedOpening(lines[..n]).value
          && forall j :: i < j < n ==> !StatesOpening(lines[..n][j]);
        assert forall j :: i < j < n ==> lines[..n][j] == lines[j];
      }
    }
  }

  /** Where an opening line stands, its balance, the last one's, is the section's opening, and
      the first row moves from there. Where none stands, the opening is the first row's balance
      less its printed amount; and a section without rows either opened at zero. */
  lemma {:induction false} OpeningOfSection(b: Block, fp: Fingerprint, i: nat)
    requires i <= |b.lines| && forall j :: i < j < |b.lines| ==> !StatesOpening(b.lines[j])
    requires if i < |b.lines| then StatesOpening(b.lines[i])
             else forall j :: 0 <= j < |b.lines| ==> !StatesOpening(b.lines[j])
    ensures var s := SectionOf(b, fp);
      var lines := Filter(b.lines, IsRow);
      && |s.transactions| == |lines|
      && (lines != [] ==> lines[0].Data?)
      && (i < |b.lines| ==> s.opening == b.lines[i].balance)
      && (i == |b.lines| && lines != [] ==> s.opening == lines[0].balance - lines[0].amount)
      && (i == |b.lines| && lines == [] ==> s.opening == 0)
      && (lines != [] ==> Delta(s.transactions[0]) == lines[0].balance - s.opening)
  {
    RowsAreTheRowLines(b.lines);
    StatedAt(b.lines, i);
  }

  lemma {:induction false} StatedAt(lines: seq<Line>, i: nat)
    requires i <= |lines| && forall j :: i < j < |lines| ==> !StatesOpening(lines[j])
    requires if i < |lines| then StatesOpening(lines[i]) else forall j :: 0 <= j < |lines| ==> !StatesOpening(lines[j])
    ensures StatedOpening(lines) == if i < |lines| then Some(lines[i].balance) else None
  {
    if lines != [] {
      var n := |lines| - 1;
      if i < n {
        StatedAt(lines[..n], i);
      } else if i > n {
        StatedAt(lines[..n], n);
      }
    }
  }

  /** A section as the statement prints it: its opening line, then a line per movement. */
  function PrintedBlock(name: string, day: Date, opening: Cents, moves: seq<Move>): Block {
    Block(name, [Data(day, "Opening Balance", opening, opening)] + MoveLines(moves, opening))
  }

  function MoveLines(moves: seq<Move>, opening: Cents): seq<Line> {
    if moves == [] then []
    else
      var n := |moves| - 1;
      MoveLines(moves[..n], opening)
        + [Data(moves[n].date, moves[n].description, moves[n].amount, opening + MoveNet(moves))]
  }

  ghost predicate PlainText(moves: seq<Move>) {
    forall m :: m in moves ==> m.reference == "" && !("Opening Balance" <= m.description)
  }

  lemma {:induction false} LinesOfMoves(first: Line, moves: seq<Move>, opening: Cents)
    requires StatesOpening(first) && PlainText(moves)
    ensures StatedOpening([first] + MoveLines(moves, opening)) == Some(first.balance)
    ensures BalanceRows(RowsOf([first] + MoveLines(moves, opening))) == Printed(moves, opening)
  {
    var lines := [first] + MoveLines(moves, opening);
    if moves == [] {
      assert lines == [first] && [first][..0] == [];
      assert RowsOf([first]) == [];
    } else {
      var n := |moves| - 1;
      LinesOfMoves(first, moves[..n], opening);
      assert moves[n] in moves;
      assert lines[..|lines| - 1] == [first] + MoveLines(moves[..n], opening);
      PrintedOneMore(moves, opening);
    }
  }

  lemma {:induction false} PrintedOneMore(moves: seq<Move>, opening: Cents)
    requires moves != []
    ensures var n := |moves| - 1;
      Printed(moves, opening) == Printed(moves[..n], opening)
        + [BalanceRow(moves[n].date, moves[n].reference, moves[n].description, opening + MoveNet(moves))]
  {
    var n := |moves| - 1;
    assert moves[..n + 1] == moves;
    forall i | 0 <= i < n
      ensures Printed(moves, opening)[i] == Printed(moves[..n], opening)[i]
    {
      assert moves[..n][..i + 1] == moves[..i + 1];
    }
  }

  /** Round trip: a section printed under its true opening comes back with that opening, and
      with its movements if and only if all of them are visible in the balances. */
  lemma {:induction false} SectionInvertsPrinting(name: string, day: Date, opening: Cents, moves: seq<Move>,
                                                  fp: Fingerprint)
    requires PlainText(moves)
    ensures var s := SectionOf(PrintedBlock(name, day, opening, moves), fp);
      && s.name == name && s.opening == opening
      && (Recovers(s.transactions, moves) <==> forall m :: m in moves ==> Visible(m))
  {
    LinesOfMoves(Data(day, "Opening Balance", opening, opening), moves, opening);
    RebuildInvertsPrinting(moves, opening, "KES", fp);
  }

  // ---- a whole file ----

  predicate Heard(line: Line) {
    !line.Noise?
  }

  lemma {:induction false} NoiseIsIgnored(lines: seq<Line>)
    ensures Blocks(lines) == Blocks(Filter(lines, Heard))
  {
    if lines != [] {
      var n := |lines| - 1;
      NoiseIsIgnored(lines[..n]);
      if Heard(lines[n]) {
        var kept := Filter(lines[..n], Heard);
        assert (kept + [lines[n]])[..|kept|] == kept;
      }
    }
  }

  lemma {:induction false} DataJoins(before: seq<Line>, blocks: seq<Block>, name: string, lines: seq<Line>)
    requires Blocks(before) == blocks && forall l :: l in lines ==> l.Data?
    ensures Blocks(before + [Header(name)] + lines) == blocks + [Block(name, lines)]
  {
    var all := before + [Header(name)] + lines;
    if lines == [] {
      assert all[..|all| - 1] == before;
    } else {
      var n := |lines| - 1;
      DataJoins(before, blocks, name, lines[..n]);
      assert all[..|all| - 1] == before + [Header(name)] + lines[..n];
      assert lines[n] in lines;
      assert (blocks + [Block(name, lines[..n])])[..|blocks|] == blocks;
      assert lines[..n] + [lines[n]] == lines;
    }
  }

  ghost predicate DataOnly(blocks: seq<Block>) {
    forall b, l :: b in blocks && l in b.lines ==> l.Data?
  }

  lemma {:induction false} CuttingInvertsWriting(blocks: seq<Block>)
    requires DataOnly(blocks)
    ensures Blocks(WrittenOut(blocks)) == blocks
  {
    if blocks != [] {
      var n := |blocks| - 1;
      CuttingInvertsWriting(blocks[..n]);
      assert blocks[n] in blocks;
      DataJoins(WrittenOut(blocks[..n]), blocks[..n], blocks[n].name, blocks[n].lines);
      assert blocks[..n] + [blocks[n]] == blocks;
    }
  }

  /** One sub-ledger as it really was: its opening and what moved. */
  datatype Account = Account(name: string, day: Date, opening: Cents, moves: seq<Move>)

  function PrintedBlocks(accounts: seq<Account>): seq<Block> {
    seq(|accounts|, i requires 0 <= i < |accounts| =>
      PrintedBlock(accounts[i].name, accounts[i].day, accounts[i].opening, accounts[i].moves))
  }

  lemma {:induction false} MoveLinesAreData(moves: seq<Move>, opening: Cents)
    ensures forall l :: l in MoveLines(moves, opening) ==> l.Data?
  {
    if moves != [] {
      MoveLinesAreData(moves[..|moves| - 1], opening);
    }
  }

  lemma {:induction false} PrintedIsData(accounts: seq<Account>)
    ensures DataOnly(PrintedBlocks(accounts))
  {
    forall b, l | b in PrintedBlocks(accounts) && l in b.lines
      ensures l.Data?
    {
      var i :| 0 <= i < |accounts| && PrintedBlocks(accounts)[i] == b;
      MoveLinesAreData(accounts[i].moves, accounts[i].opening);
    }
  }

  /** Round trip for a whole statement: sub-ledgers printed one after the other, two of one
      name included, with noise anywhere, come back one for one with their names and openings,
      and each with its movements if and only if all of its are visible. */
  lemma {:induction false} ParsingInvertsStatement(lines: seq<Line>, accounts: seq<Account>, fp: string -> Fingerprint)
    requires forall a :: a in accounts ==> PlainText(a.moves)
    requires Filter(lines, Heard) == WrittenOut(PrintedBlocks(accounts))
    ensures var sections := SectionsOf(Blocks(lines), fp);
      && |sections| == |accounts|
      && forall i :: 0 <= i < |accounts| ==>
           && sections[i].name == accounts[i].name && sections[i].opening == accounts[i].opening
           && (Recovers(sections[i].transactions, accounts[i].moves)
               <==> forall m :: m in accounts[i].moves ==> Visible(m))
  {
    NoiseIsIgnored(lines);
    PrintedIsData(accounts);
    CuttingInvertsWriting(PrintedBlocks(accounts));
    forall i | 0 <= i < |accounts|
      ensures var s := SectionsOf(Blocks(lines), fp)[i];
        && s.name == accounts[i].name && s.opening == accounts[i].opening
        && (Recovers(s.transactions, accounts[i].moves) <==> forall m :: m in accounts[i].moves ==> Visible(m))
    {
      var a := accounts[i];
      assert a in accounts;
      SectionInvertsPrinting(a.name, a.day, a.opening, a.moves, fp(a.name));
    }
  }

  /** A section's fingerprints are taken under its own name, of the text and the rebuilt amount. */
  lemma {:induction false} SectionKeys(lines: seq<Line>, fp: string -> Fingerprint, i: nat, j: nat)
    requires i < |SectionsOf(Blocks(lines), fp)|
    requires j < |SectionsOf(Blocks(lines), fp)[i].transactions|
    ensures var s := SectionsOf(Blocks(lines), fp)[i];
      var t := s.transactions[j];
      t.balanceAfter.Some?
      && t.key == fp(s.name)(BalanceRow(t.date, "", t.description, t.balanceAfter.value), t.amount)
  {
    var b := Blocks(lines)[i];
    var f := fp(b.name);
    RebuiltRows(BalanceRows(RowsOf(b.lines)), SectionOf(b, f).opening, "KES", f);
  }
}
