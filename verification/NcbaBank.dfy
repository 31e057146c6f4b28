/** app/parsers/ncba_bank.py: rows rebuilt from word positions, one band per printed date. */
module NcbaBank {
  import opened Basics
  import opened ParserBase
  import opened BalanceDeltas
  import opened Ordering

  datatype Word = Word(text: string, x0: real, top: real)

  /** Horizontal extent of a cell. */
  datatype Span = Span(x0: real, x1: real)

  /** The merged transaction block of a page. */
  datatype Block = Block(dates: Span, descriptions: Span, balances: Span, top: real, bottom: real)

  datatype Page = Page(words: seq<Word>, block: Option<Block>)

  /** Reading of a printed number and of a printed date. */
  datatype Reader = Reader(number: string -> Cents, day: string -> Date)

  predicate InBox(w: Word, span: Span, top: real, bottom: real) {
    span.x0 - 1.0 <= w.x0 < span.x1 + 1.0 && top <= w.top < bottom
  }

  function WordsInBox(words: seq<Word>, span: Span, top: real, bottom: real): seq<Word> {
    Filter(words, (w: Word) => InBox(w, span, top, bottom))
  }

  /** The words of a cell start within its width, one unit of slack on either side, and stand
      between the block's top and bottom. */
  lemma {:induction false} CellWords(words: seq<Word>, span: Span, top: real, bottom: real, w: Word)
    ensures w in WordsInBox(words, span, top, bottom)
      <==> w in words && span.x0 - 1.0 <= w.x0 < span.x1 + 1.0 && top <= w.top < bottom
  {
    FilterMembers(words, (v: Word) => InBox(v, span, top, bottom), w);
  }

  const BY_TOP: (Word, Word) -> bool := (a: Word, b: Word) => a.top <= b.top

  const BY_TOP_THEN_LEFT: (Word, Word) -> bool :=
    (a: Word, b: Word) => a.top < b.top || (a.top == b.top && a.x0 <= b.x0)

  // ---- row bands ----

  function Tops(words: seq<Word>): seq<real> {
    seq(|words|, i requires 0 <= i < |words| => words[i].top)
  }

  /** Where band i ends: at the next date, or at the bottom of the block. */
  function BandEnd(tops: seq<real>, bottom: real, i: nat): real
    requires i < |tops|
  {
    if i + 1 < |tops| then tops[i + 1] else bottom
  }

  predicate InBand(tops: seq<real>, bottom: real, i: nat, y: real)
    requires i < |tops|
  {
    tops[i] - 2.0 <= y < BandEnd(tops, bottom, i) - 2.0
  }

  function BandFrom(tops: seq<real>, bottom: real, y: real, i: nat): Option<nat>
    requires i <= |tops|
    decreases |tops| - i
  {
    if i == |tops| then None
    else if InBand(tops, bottom, i, y) then Some(i)
    else BandFrom(tops, bottom, y, i + 1)
  }

  function BandFor(tops: seq<real>, bottom: real, y: real): Option<nat> {
    BandFrom(tops, bottom, y, 0)
  }

  ghost predicate Ascending(tops: seq<real>, bottom: real) {
    && (forall i, j :: 0 <= i < j < |tops| ==> tops[i] <= tops[j])
    && (forall i :: 0 <= i < |tops| ==> tops[i] < bottom)
  }

  lemma {:induction false} BandFromIsFirst(tops: seq<real>, bottom: real, y: real, i: nat)
    requires i <= |tops|
    ensures match BandFrom(tops, bottom, y, i)
            case Some(b) => i <= b < |tops| && InBand(tops, bottom, b, y)
            case None => forall k :: i <= k < |tops| ==> !InBand(tops, bottom, k, y)
    decreases |tops| - i
  {
    if i < |tops| && !InBand(tops, bottom, i, y) {
      BandFromIsFirst(tops, bottom, y, i + 1);
    }
  }

  lemma {:induction false} SomeBandCovers(tops: seq<real>, bottom: real, y: real, i: nat)
    requires i < |tops| && tops[i] - 2.0 <= y < bottom - 2.0
    ensures exists k :: i <= k < |tops| && InBand(tops, bottom, k, y)
    decreases |tops| - i
  {
    if InBand(tops, bottom, i, y) {
    } else {
      SomeBandCovers(tops, bottom, y, i + 1);
    }
  }

  /** The bands partition the range from the first date less 2 to the bottom less 2: a
      height lies in exactly one band, the one band_for names, or outside the range. */
  lemma {:induction false} BandsPartition(tops: seq<real>, bottom: real, y: real)
    requires Ascending(tops, bottom) && tops != []
    ensures BandFor(tops, bottom, y).Some? <==> tops[0] - 2.0 <= y < bottom - 2.0
    ensures forall b: nat :: b < |tops| ==>
      (InBand(tops, bottom, b, y) <==> BandFor(tops, bottom, y) == Some(b))
  {
    BandFromIsFirst(tops, bottom, y, 0);
    if tops[0] - 2.0 <= y < bottom - 2.0 {
      SomeBandCovers(tops, bottom, y, 0);
    }
  }

  /** Lower words never fall in earlier bands. */
  lemma {:induction false} BandMonotone(tops: seq<real>, bottom: real, y: real, z: real)
    requires Ascending(tops, bottom) && tops != [] && y <= z
    requires BandFor(tops, bottom, y).Some? && BandFor(tops, bottom, z).Some?
    ensures BandFor(tops, bottom, y).value <= BandFor(tops, bottom, z).value
  {
    BandFromIsFirst(tops, bottom, y, 0);
    BandFromIsFirst(tops, bottom, z, 0);
  }

  // ---- filling the bands ----

  function TextsInBand(words: seq<Word>, tops: seq<real>, bottom: real, b: nat): seq<string> {
    if words == [] then []
    else
      var front := TextsInBand(words[..|words| - 1], tops, bottom, b);
      var last := words[|words| - 1];
      if BandFor(tops, bottom, last.top) == Some(b) then front + [last.text] else front
  }

  function LastInBand(words: seq<Word>, tops: seq<real>, bottom: real, b: nat): Option<string> {
    if words == [] then None
    else
      var last := words[|words| - 1];
      if BandFor(tops, bottom, last.top) == Some(b) then Some(last.text)
      else LastInBand(words[..|words| - 1], tops, bottom, b)
  }

  /** The rows of bands 0..n: a band without a balance yields no row. */
  function RowsUpTo(dates: seq<Word>, descriptions: seq<Word>, balances: seq<Word>, bottom: real, reader: Reader,
                    n: nat): seq<BalanceRow>
    requires n <= |dates|
  {
    if n == 0 then []
    else
      var tops := Tops(dates);
      var front := RowsUpTo(dates, descriptions, balances, bottom, reader, n - 1);
      match LastInBand(balances, tops, bottom, n - 1)
      case None => front
      case Some(text) =>
        front + [BalanceRow(reader.day(dates[n - 1].text), "",
                            Join(TextsInBand(descriptions, tops, bottom, n - 1)), reader.number(text))]
  }

  function DateWords(words: seq<Word>, b: Block): seq<Word> {
    SortBy(WordsInBox(words, b.dates, b.top, b.bottom), BY_TOP)
  }

  function BalanceWords(words: seq<Word>, b: Block): seq<Word> {
    SortBy(WordsInBox(words, b.balances, b.top, b.bottom), BY_TOP)
  }

  function DescriptionWords(words: seq<Word>, b: Block): seq<Word> {
    SortBy(WordsInBox(words, b.descriptions, b.top, b.bottom), BY_TOP_THEN_LEFT)
  }

  function PageRows(page: Page, reader: Reader): seq<BalanceRow> {
    match page.block
    case None => []
    case Some(b) =>
      var dates := DateWords(page.words, b);
      RowsUpTo(dates, DescriptionWords(page.words, b), BalanceWords(page.words, b), b.bottom, reader, |dates|)
  }

  lemma {:induction false} DateWordsAscend(words: seq<Word>, b: Block)
    ensures Ascending(Tops(DateWords(words, b)), b.bottom)
  {
    var inBox := WordsInBox(words, b.dates, b.top, b.bottom);
    SortBySorted(inBox, BY_TOP);
    var dates := DateWords(words, b);
    forall i | 0 <= i < |dates|
      ensures dates[i].top < b.bottom
    {
      SortByMembers(inBox, BY_TOP, dates[i]);
      FilterMembers(words, (w: Word) => InBox(w, b.dates, b.top, b.bottom), dates[i]);
    }
  }

  /** Each band collects the texts of the words that fall into it. */
  method CollectDescriptions(words: seq<Word>, tops: seq<real>, bottom: real) returns (descriptions: array<seq<string>>)
    ensures descriptions.Length == |tops|
    ensures forall b :: 0 <= b < |tops| ==> descriptions[b] == TextsInBand(words, tops, bottom, b)
  {
    descriptions := new seq<string>[|tops|](_ => []);
    for k := 0 to |words|
      invariant forall b :: 0 <= b < |tops| ==> descriptions[b] == TextsInBand(words[..k], tops, bottom, b)
    {
      var band := BandFor(tops, bottom, words[k].top);
      BandFromIsFirst(tops, bottom, words[k].top, 0);
      assert words[..k + 1][..k] == words[..k];
      if band.Some? {
        descriptions[band.value] := descriptions[band.value] + [words[k].text];
      }
    }
    assert words[..|words|] == words;
  }

  /** Each band keeps the last balance word that falls into it. */
  method CollectBalances(words: seq<Word>, tops: seq<real>, bottom: real) returns (balances: array<Option<string>>)
    ensures balances.Length == |tops|
    ensures forall b :: 0 <= b < |tops| ==> balances[b] == LastInBand(words, tops, bottom, b)
  {
    balances := new Option<string>[|tops|](_ => None);
    for k := 0 to |words|
      invariant forall b :: 0 <= b < |tops| ==> balances[b] == LastInBand(words[..k], tops, bottom, b)
    {
      var band := BandFor(tops, bottom, words[k].top);
      BandFromIsFirst(tops, bottom, words[k].top, 0);
      assert words[..k + 1][..k] == words[..k];
      if band.Some? {
        balances[band.value] := Some(words[k].text);
      }
    }
    assert words[..|words|] == words;
  }

  method ParsePage(page: Page, reader: Reader) returns (rows: seq<BalanceRow>)
    ensures rows == PageRows(page, reader)
  {
    if page.block.None? {
      return [];
    }
    var block := page.block.value;
    var dateWords := DateWords(page.words, block);
    var balanceWords := BalanceWords(page.words, block);
    var descriptionWords := DescriptionWords(page.words, block);
    var rowTops := Tops(dateWords);
    if rowTops == [] {
      return [];
    }
    var descriptions := CollectDescriptions(descriptionWords, rowTops, block.bottom);
    var balances := CollectBalances(balanceWords, rowTops, block.bottom);
    rows := [];
    for i := 0 to |dateWords|
      invariant rows == RowsUpTo(dateWords, descriptionWords, balanceWords, block.bottom, reader, i)
    {
      if balances[i].Some? {
        rows := rows + [BalanceRow(reader.day(dateWords[i].text), "", Join(descriptions[i]),
                                   reader.number(balances[i].value))];
      }
    }
  }

  // ---- conservation of words ----

  function Texts(words: seq<Word>): seq<string> {
    seq(|words|, i requires 0 <= i < |words| => words[i].text)
  }

  /** The descriptions of bands 0..n, one after the other. */
  function AllTexts(words: seq<Word>, tops: seq<real>, bottom: real, n: nat): seq<string> {
    if n == 0 then [] else AllTexts(words, tops, bottom, n - 1) + TextsInBand(words, tops, bottom, n - 1)
  }

  predicate InRange(tops: seq<real>, bottom: real, w: Word) {
    tops != [] && tops[0] - 2.0 <= w.top < bottom - 2.0
  }

  /** A word added after all words above it extends the text at its own band's place. */
  lemma {:induction false} AllTextsStep(front: seq<Word>, last: Word, tops: seq<real>, bottom: real, n: nat, b: nat)
    requires n <= |tops|
    requires BandFor(tops, bottom, last.top) == Some(b)
    requires forall k :: b < k < n ==> TextsInBand(front, tops, bottom, k) == []
    ensures AllTexts(front + [last], tops, bottom, n)
      == AllTexts(front, tops, bottom, n) + if b < n then [last.text] else []
  {
    assert (front + [last])[..|front|] == front;
    if n > 0 {
      AllTextsStep(front, last, tops, bottom, n - 1, b);
    }
  }

  lemma {:induction false} AllTextsSkip(front: seq<Word>, last: Word, tops: seq<real>, bottom: real, n: nat)
    requires BandFor(tops, bottom, last.top).None?
    ensures AllTexts(front + [last], tops, bottom, n) == AllTexts(front, tops, bottom, n)
  {
    assert (front + [last])[..|front|] == front;
    if n > 0 {
      AllTextsSkip(front, last, tops, bottom, n - 1);
    }
  }

  lemma {:induction false} NothingBelow(words: seq<Word>, tops: seq<real>, bottom: real, y: real, k: nat)
    requires Ascending(tops, bottom) && tops != []
    requires forall w :: w in words ==> w.top <= y
    requires BandFor(tops, bottom, y).Some? && BandFor(tops, bottom, y).value < k
    ensures TextsInBand(words, tops, bottom, k) == []
  {
    if words != [] {
      var last := words[|words| - 1];
      NothingBelow(words[..|words| - 1], tops, bottom, y, k);
      if BandFor(tops, bottom, last.top).Some? {
        BandMonotone(tops, bottom, last.top, y);
      }
    }
  }

  lemma {:induction false} AllTextsLastWord(front: seq<Word>, last: Word, tops: seq<real>, bottom: real)
    requires Ascending(tops, bottom) && tops != []
    requires forall w :: w in front ==> w.top <= last.top
    ensures AllTexts(front + [last], tops, bottom, |tops|)
      == AllTexts(front, tops, bottom, |tops|) + if InRange(tops, bottom, last) then [last.text] else []
  {
    BandsPartition(tops, bottom, last.top);
    if InRange(tops, bottom, last) {
      var b := BandFor(tops, bottom, last.top).value;
      BandFromIsFirst(tops, bottom, last.top, 0);
      forall k | b < k < |tops|
        ensures TextsInBand(front, tops, bottom, k) == []
      {
        NothingBelow(front, tops, bottom, last.top, k);
      }
      AllTextsStep(front, last, tops, bottom, |tops|, b);
    } else {
      AllTextsSkip(front, last, tops, bottom, |tops|);
    }
  }

  /** Reading the bands top to bottom gives every in-range word exactly once, in the order
      the words were sorted: no word is lost, duplicated or moved. */
  lemma {:induction false} WordsAreConserved(words: seq<Word>, tops: seq<real>, bottom: real)
    requires Ascending(tops, bottom) && tops != []
    requires SortedBy(words, BY_TOP_THEN_LEFT)
    ensures AllTexts(words, tops, bottom, |tops|)
      == Texts(Filter(words, (w: Word) => InRange(tops, bottom, w)))
  {
    if words == [] {
      NoWordsNoTexts(tops, bottom, |tops|);
    } else {
      var front, last := words[..|words| - 1], words[|words| - 1];
      assert words == front + [last];
      WordsAreConserved(front, tops, bottom);
      assert forall w :: w in front ==> BY_TOP_THEN_LEFT(w, last);
      AllTextsLastWord(front, last, tops, bottom);
      var kept := Filter(front, (w: Word) => InRange(tops, bottom, w));
      assert Texts(kept + [last]) == Texts(kept) + [last.text];
    }
  }

  lemma {:induction false} NoWordsNoTexts(tops: seq<real>, bottom: real, n: nat)
    ensures AllTexts([], tops, bottom, n) == []
  {
    if n > 0 {
      NoWordsNoTexts(tops, bottom, n - 1);
    }
  }

  /** On every page: each description word between the first date and the bottom ends up in
      exactly one row's description, in reading order. */
  lemma {:induction false} PageWordsAreConserved(page: Page)
    requires page.block.Some? && DateWords(page.words, page.block.value) != []
    ensures var b := page.block.value;
      var tops := Tops(DateWords(page.words, b));
      var words := DescriptionWords(page.words, b);
      && AllTexts(words, tops, b.bottom, |tops|)
         == Texts(Filter(words, (w: Word) => InRange(tops, b.bottom, w)))
      && multiset(words) == multiset(WordsInBox(page.words, b.descriptions, b.top, b.bottom))
  {
    var b := page.block.value;
    var inBox := WordsInBox(page.words, b.descriptions, b.top, b.bottom);
    DateWordsAscend(page.words, b);
    SortBySorted(inBox, BY_TOP_THEN_LEFT);
    SortByMultiset(inBox, BY_TOP_THEN_LEFT);
    WordsAreConserved(DescriptionWords(page.words, b), Tops(DateWords(page.words, b)), b.bottom);
  }

  ghost predicate LowestInBand(w: Word, words: seq<Word>, tops: seq<real>, bottom: real, b: nat)
    requires b < |tops|
  {
    && InBand(tops, bottom, b, w.top)
    && forall v :: v in words && InBand(tops, bottom, b, v.top) ==> v.top <= w.top
  }

  /** A band is kept exactly when some balance word lies in it, and then the lowest wins. */
  lemma {:induction false} BalanceOfBand(words: seq<Word>, tops: seq<real>, bottom: real, b: nat)
    requires Ascending(tops, bottom) && b < |tops| && SortedBy(words, BY_TOP)
    ensures match LastInBand(words, tops, bottom, b)
            case None => forall w :: w in words ==> !InBand(tops, bottom, b, w.top)
            case Some(text) => exists w :: w in words && w.text == text && LowestInBand(w, words, tops, bottom, b)
  {
    if words != [] {
      var front, last := words[..|words| - 1], words[|words| - 1];
      BandsPartition(tops, bottom, last.top);
      BalanceOfBand(front, tops, bottom, b);
      assert words == front + [last];
      if InBand(tops, bottom, b, last.top) {
        assert forall v :: v in words ==> BY_TOP(v, last) || v == last;
        assert last in words;
      }
    }
  }

  /** The row says what its band holds: the date that heads it, the words of the description
      in reading order, and the lowest balance printed in it. */
  ghost predicate ReadsBand(row: BalanceRow, page: Page, block: Block, reader: Reader, b: nat) {
    var dates := DateWords(page.words, block);
    var tops := Tops(dates);
    && b < |dates|
    && row.date == reader.day(dates[b].text)
    && row.description == Join(Texts(Filter(DescriptionWords(page.words, block),
                                            (w: Word) => InBand(tops, block.bottom, b, w.top))))
    && exists w :: (w in BalanceWords(page.words, block)
                    && LowestInBand(w, BalanceWords(page.words, block), tops, block.bottom, b)
                    && row.balance == reader.number(w.text))
  }

  /** Some balance is printed in the band. */
  ghost predicate HasBalance(page: Page, block: Block, b: nat) {
    && b < |DateWords(page.words, block)|
    && exists w :: w in BalanceWords(page.words, block)
         && InBand(Tops(DateWords(page.words, block)), block.bottom, b, w.top)
  }

  lemma {:induction false} TextsAreFiltered(words: seq<Word>, tops: seq<real>, bottom: real, b: nat)
    requires Ascending(tops, bottom) && b < |tops|
    ensures TextsInBand(words, tops, bottom, b) == Texts(Filter(words, (w: Word) => InBand(tops, bottom, b, w.top)))
  {
    if words != [] {
      var front, last := words[..|words| - 1], words[|words| - 1];
      TextsAreFiltered(front, tops, bottom, b);
      BandsPartition(tops, bottom, last.top);
      var kept := Filter(front, (w: Word) => InBand(tops, bottom, b, w.top));
      assert Texts(kept + [last]) == Texts(kept) + [last.text];
    }
  }

  /** The row each of the first n bands gives rise to, if any. */
  function RowOfBand(page: Page, block: Block, reader: Reader, n: nat): nat -> Option<BalanceRow>
    requires n <= |DateWords(page.words, block)|
  {
    var dates, words := DateWords(page.words, block), DescriptionWords(page.words, block);
    var tops, balances := Tops(dates), BalanceWords(page.words, block);
    (b: nat) =>
      if b >= n || b >= |dates| then None
      else match LastInBand(balances, tops, block.bottom, b)
        case None => None
        case Some(text) => Some(BalanceRow(reader.day(dates[b].text), "",
                                           Join(TextsInBand(words, tops, block.bottom, b)), reader.number(text)))
  }

  lemma {:induction false} RowsAreListed(page: Page, block: Block, reader: Reader, n: nat) returns (kept: seq<nat>)
    requires n <= |DateWords(page.words, block)|
    ensures Lists(RowsUpTo(DateWords(page.words, block), DescriptionWords(page.words, block),
                           BalanceWords(page.words, block), block.bottom, reader, n),
                  RowOfBand(page, block, reader, n), kept)
  {
    kept := [];
    if n > 0 {
      kept := RowsAreListed(page, block, reader, n - 1);
      var before := RowsUpTo(DateWords(page.words, block), DescriptionWords(page.words, block),
                             BalanceWords(page.words, block), block.bottom, reader, n - 1);
      ListsMore(before, RowOfBand(page, block, reader, n - 1), RowOfBand(page, block, reader, n), kept, n - 1);
      if RowOfBand(page, block, reader, n)(n - 1).Some? {
        kept := kept + [n - 1];
      }
    }
  }

  /** A band has a row exactly when it has a balance, and the row reads it. */
  lemma {:induction false} BandIsRead(page: Page, block: Block, reader: Reader, b: nat)
    requires b < |DateWords(page.words, block)|
    ensures match RowOfBand(page, block, reader, |DateWords(page.words, block)|)(b)
            case None => !HasBalance(page, block, b)
            case Some(row) => HasBalance(page, block, b) && ReadsBand(row, page, block, reader, b)
  {
    var tops := Tops(DateWords(page.words, block));
    DateWordsAscend(page.words, block);
    SortBySorted(WordsInBox(page.words, block.balances, block.top, block.bottom), BY_TOP);
    BalanceOfBand(BalanceWords(page.words, block), tops, block.bottom, b);
    TextsAreFiltered(DescriptionWords(page.words, block), tops, block.bottom, b);
  }

  /** rows are those of the kept bands, top to bottom, and the kept bands are those with a
      balance. */
  ghost predicate RowsOfBands(rows: seq<BalanceRow>, page: Page, block: Block, reader: Reader, kept: seq<nat>) {
    && |kept| == |rows|
    && (forall k :: 0 <= k < |kept| ==> ReadsBand(rows[k], page, block, reader, kept[k]))
    && (forall j, k :: 0 <= j < k < |kept| ==> kept[j] < kept[k])
    && forall b: nat :: b in kept <==> HasBalance(page, block, b)
  }

  lemma {:induction false} RowsAreTheBands(page: Page, block: Block, reader: Reader) returns (kept: seq<nat>)
    requires page.block == Some(block)
    ensures RowsOfBands(PageRows(page, reader), page, block, reader, kept)
  {
    var n := |DateWords(page.words, block)|;
    var rows, at := PageRows(page, reader), RowOfBand(page, block, reader, n);
    kept := RowsAreListed(page, block, reader, n);
    forall k | 0 <= k < |kept|
      ensures ReadsBand(rows[k], page, block, reader, kept[k]) && HasBalance(page, block, kept[k])
    {
      assert at(kept[k]) == Some(rows[k]);
      BandIsRead(page, block, reader, kept[k]);
    }
    forall b: nat | HasBalance(page, block, b)
      ensures b in kept
    {
      BandIsRead(page, block, reader, b);
      assert at(b).Some?;
    }
  }

  /** A page's rows are its bands that have a balance; a page without a block has none. The
      words come from the page's own columns, whatever order they were extracted in. */
  lemma {:induction false} PageRowsAreTheBands(page: Page, reader: Reader) returns (kept: seq<nat>)
    ensures page.block.None? ==> PageRows(page, reader) == []
    ensures page.block.Some? ==>
      var block, rows := page.block.value, PageRows(page, reader);
      && multiset(DateWords(page.words, block))
         == multiset(WordsInBox(page.words, block.dates, block.top, block.bottom))
      && multiset(BalanceWords(page.words, block))
         == multiset(WordsInBox(page.words, block.balances, block.top, block.bottom))
      && RowsOfBands(rows, page, block, reader, kept)
  {
    kept := [];
    if page.block.Some? {
      var block := page.block.value;
      SortByMultiset(WordsInBox(page.words, block.dates, block.top, block.bottom), BY_TOP);
      SortByMultiset(WordsInBox(page.words, block.balances, block.top, block.bottom), BY_TOP);
      kept := RowsAreTheBands(page, block, reader);
    }
  }

  // ---- the whole statement ----

  function RowsOn(reader: Reader): Page -> seq<BalanceRow> {
    (page: Page) => PageRows(page, reader)
  }

  function AllRows(pages: seq<Page>, reader: Reader): seq<BalanceRow> {
    Flatten(pages, RowsOn(reader))
  }

  /** The statement's rows are the pages' rows, page after page. */
  lemma {:induction false} PagesInOrder(pages: seq<Page>, more: seq<Page>, reader: Reader)
    ensures AllRows(pages + more, reader) == AllRows(pages, reader) + AllRows(more, reader)
    ensures forall p :: AllRows([p], reader) == PageRows(p, reader)
  {
    FlattenAppend(pages, more, RowsOn(reader));
    forall p
      ensures AllRows([p], reader) == PageRows(p, reader)
    {
      FlattenOne(p, RowsOn(reader));
    }
  }

  /** The opening balance is the one thing that must be found; with it the statement always
      parses, whatever the balances say. */
  method ParseStatement(openingField: Option<Cents>, pages: seq<Page>, reader: Reader, fp: Fingerprint)
    returns (r: Outcome<seq<Parsed>>)
    ensures openingField.None? ==> r == Refused(MissingAnchor)
    ensures openingField.Some? ==>
      r == Ok(FromBalances(AllRows(pages, reader), openingField.value, "KES", fp))
  {
    if openingField.None? {
      return Refused(MissingAnchor);
    }
    var rawRows: seq<BalanceRow> := [];
    for i := 0 to |pages|
      invariant rawRows == AllRows(pages[..i], reader)
    {
      var rows := ParsePage(pages[i], reader);
      rawRows := rawRows + rows;
      assert pages[..i + 1][..i] == pages[..i];
    }
    assert pages[..|pages|] == pages;
    var txns := BuildTransactions(rawRows, openingField.value, "KES", fp);
    var v := ValidateRunningBalance(txns, openingField.value);
    RebuiltChainsExactly(rawRows, openingField.value, "KES", fp);
    return Checked(txns, v);
  }
}
