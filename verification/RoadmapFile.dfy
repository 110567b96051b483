/** Reading and writing the whole roadmap file (class Roadmap in scripts/dev/roadmap.py). */
module RoadmapFile {
  import opened Common
  import opened RoadmapText

  /** A line, or a table row with its cells; `raw` is the line it was read from. */
  datatype Item = Plain(line: string) | TableRow(cells: seq<string>, raw: Option<string>)

  function TextOf(item: Item): string {
    match item
    case Plain(line) => line
    case TableRow(cells, raw) => if raw.Some? then raw.value else RowText(cells)
  }

  /** One column of the line under a table head: dashes, a colon before or after. */
  predicate DashCell(p: string) {
    var a := if p != "" && p[0] == ':' then p[1..] else p;
    var b := if a != "" && a[|a| - 1] == ':' then a[..|a| - 1] else a;
    b != "" && forall i :: 0 <= i < |b| ==> b[i] == '-'
  }

  predicate IsSeparator(line: string) {
    var l := StripRight(line);
    |l| >= 2 && l[0] == '|' && l[|l| - 1] == '|' && AllDashes(Split(l[1..|l| - 1], '|'))
  }

  predicate AllDashes(parts: seq<string>) { forall i :: 0 <= i < |parts| ==> DashCell(Strip(parts[i])) }

  /** The item of a line, and whether the next one stands under a heading. */
  function ParseLine(line: string, inSection: bool): (Item, bool) {
    if StartsWith(line, "## ") then (Plain(line), true)
    else if inSection && StartsWith(line, "|") && !IsSeparator(line)
            && SplitCells(line) != [] && SplitCells(line)[0] != "ID" then (TableRow(SplitCells(line), Some(line)), inSection)
    else (Plain(line), inSection)
  }

  function ParseLines(lines: seq<string>, inSection: bool): (items: seq<Item>)
    ensures |items| == |lines|
    decreases |lines|
  {
    if lines == [] then []
    else
      var (item, next) := ParseLine(lines[0], inSection);
      [item] + ParseLines(lines[1..], next)
  }

  datatype Document = Document(items: seq<Item>, newline: bool)

  function LinesOf(text: string): (lines: seq<string>)
    ensures lines != []
  {
    var lines := Split(text, '\n');
    if text != "" && text[|text| - 1] == '\n' then (LastIsEmpty(text); lines[..|lines| - 1]) else lines
  }

  lemma {:induction false} LastIsEmpty(text: string)
    requires text != "" && text[|text| - 1] == '\n'
    ensures |Split(text, '\n')| >= 2 && Split(text, '\n')[|Split(text, '\n')| - 1] == ""
  {
    if |text| > 1 {
      LastIsEmpty(text[1..]);
    } else {
      assert text[1..] == "";
    }
  }

  function ReadText(text: string): Document {
    Document(ParseLines(LinesOf(text), false), text != "" && text[|text| - 1] == '\n')
  }

  function Texts(items: seq<Item>): (r: seq<string>)
    ensures |r| == |items| && forall i :: 0 <= i < |r| ==> r[i] == TextOf(items[i])
  {
    seq(|items|, i requires 0 <= i < |items| => TextOf(items[i]))
  }

  function Render(d: Document): string {
    Join(Texts(d.items), "\n") + if d.newline then "\n" else ""
  }

  /** Roadmap.__init__: the loop over the lines. */
  method Read(text: string) returns (d: Document)
    ensures d == ReadText(text)
  {
    hide SplitCells, IsSeparator, LinesOf, StartsWith;
    var lines := LinesOf(text);
    var items: seq<Item> := [];
    var inSection := false;
    for i := 0 to |lines|
      invariant items + ParseLines(lines[i..], inSection) == ParseLines(lines, false)
    {
      var line := lines[i];
      assert lines[i..][0] == line && lines[i..][1..] == lines[i + 1..];
      var item := Plain(line);
      if StartsWith(line, "## ") {
        inSection := true;
      } else if inSection && StartsWith(line, "|") && !IsSeparator(line) {
        var cells := SplitCells(line);
        if cells != [] && cells[0] != "ID" {
          item := TableRow(cells, Some(line));
        }
      }
      ghost var rest := ParseLines(lines[i + 1..], inSection);
      assert items + ([item] + rest) == (items + [item]) + rest;
      items := items + [item];
    }
    d := Document(items, text != "" && text[|text| - 1] == '\n');
  }

  // ----- Reading changes nothing ---------------------------------------------------------

  lemma {:induction false} TextsOfParsed(lines: seq<string>, inSection: bool)
    ensures Texts(ParseLines(lines, inSection)) == lines
    decreases |lines|
  {
    if lines != [] {
      var (item, next) := ParseLine(lines[0], inSection);
      TextsOfParsed(lines[1..], next);
      var items := ParseLines(lines, inSection);
      assert items == [item] + ParseLines(lines[1..], next);
      forall i | 0 <= i < |lines| ensures Texts(items)[i] == lines[i] {
        if i > 0 {
          assert Texts(ParseLines(lines[1..], next))[i - 1] == lines[1..][i - 1];
        }
      }
    }
  }

  lemma {:induction false} JoinLast(parts: seq<string>, sep: string)
    requires |parts| >= 2
    ensures Join(parts, sep) == Join(parts[..|parts| - 1], sep) + sep + parts[|parts| - 1]
  {
    if |parts| > 2 {
      JoinLast(parts[1..], sep);
      assert parts[1..][..|parts| - 2] == parts[..|parts| - 1][1..];
    }
  }

  /** For every text: reading it and writing it back gives the same text. */
  lemma ReadThenRender(text: string)
    ensures Render(ReadText(text)) == text
  {
    var lines := Split(text, '\n');
    JoinSplit(text, '\n');
    TextsOfParsed(LinesOf(text), false);
    if text != "" && text[|text| - 1] == '\n' {
      LastIsEmpty(text);
      JoinLast(lines, "\n");
      assert Join(lines, "\n") == Join(lines[..|lines| - 1], "\n") + "\n" + "";
    }
  }

  // ----- What is written reads back ------------------------------------------------------

  predicate SameItem(a: Item, b: Item) {
    match b
    case Plain(line) => a == b
    case TableRow(cells, _) => a.TableRow? && a.cells == cells
  }

  predicate SameItems(a: seq<Item>, b: seq<Item>) {
    |a| == |b| && forall i :: 0 <= i < |a| ==> SameItem(a[i], b[i])
  }

  /** Every item's text, read where it stands, is that item again. */
  predicate Readable(items: seq<Item>, inSection: bool)
    decreases |items|
  {
    items != [] ==>
      && Without(TextOf(items[0]), '\n')
      && SameItem(ParseLine(TextOf(items[0]), inSection).0, items[0])
      && Readable(items[1..], ParseLine(TextOf(items[0]), inSection).1)
  }

  lemma {:induction false} ReadableReparses(items: seq<Item>, inSection: bool)
    requires Readable(items, inSection)
    ensures SameItems(ParseLines(Texts(items), inSection), items)
    ensures forall i :: 0 <= i < |items| ==> Without(TextOf(items[i]), '\n')
    decreases |items|
  {
    hide ParseLine, Without, TextOf, SameItem;
    if items != [] {
      var (item, next) := ParseLine(TextOf(items[0]), inSection);
      ReadableReparses(items[1..], next);
      assert Texts(items)[1..] == Texts(items[1..]);
      assert ParseLines(Texts(items), inSection) == [item] + ParseLines(Texts(items[1..]), next);
      hide ParseLines, Texts;
      forall i | 1 <= i < |items| ensures Without(TextOf(items[i]), '\n') {
        assert items[i] == items[1..][i - 1];
      }
    }
  }

  /**
  A readable document, written and read, has the same rows and lines; only an empty last
  line without an end of its own is taken for the end of the line before it.
  */
  lemma RenderThenRead(d: Document)
    requires d.items != [] && Readable(d.items, false)
    ensures var back, n := ReadText(Render(d)).items, |d.items|;
            if d.newline || n == 1 || TextOf(d.items[n - 1]) != "" then SameItems(back, d.items)
            else d.items[n - 1] == Plain("") && SameItems(back, d.items[..n - 1])
  {
    hide Readable, SameItems, LinesOf, ParseLines, TextOf, Under, Without;
    var n := |d.items|;
    if d.newline || n == 1 || TextOf(d.items[n - 1]) != "" {
      ReadableReparses(d.items, false);
      LinesOfRendered(Texts(d.items), d.newline);
    } else {
      EmptyLast(d);
    }
  }

  /** Without a final newline an empty last line is read as one. */
  lemma EmptyLast(d: Document)
    requires |d.items| > 1 && Readable(d.items, false) && !d.newline && TextOf(d.items[|d.items| - 1]) == ""
    ensures d.items[|d.items| - 1] == Plain("") && SameItems(ReadText(Render(d)).items, d.items[..|d.items| - 1])
  {
    hide Readable, SameItems, LinesOf, ParseLines, Under, Without, TextOf;
    var n, most := |d.items|, d.items[..|d.items| - 1];
    assert d.items == most + [d.items[n - 1]];
    ReadableAppend(most, [d.items[n - 1]], false);
    LastIsPlain(d.items[n - 1], Under(most, false));
    ReadableReparses(most, false);
    assert Texts(d.items)[..n - 1] == Texts(most);
    JoinLast(Texts(d.items), "\n");
    LinesOfRendered(Texts(most), true);
    assert Render(d) == Join(Texts(most), "\n") + "\n";
  }

  lemma LastIsPlain(item: Item, inSection: bool)
    requires Readable([item], inSection) && TextOf(item) == ""
    ensures item == Plain("")
  {
  }

  lemma LinesOfRendered(texts: seq<string>, newline: bool)
    requires texts != [] && forall i :: 0 <= i < |texts| ==> Without(texts[i], '\n')
    requires !newline ==> texts[|texts| - 1] != "" || |texts| == 1
    ensures var text := Join(texts, "\n") + if newline then "\n" else "";
            LinesOf(text) == texts && (newline <==> text != "" && text[|text| - 1] == '\n')
  {
    if newline {
      var more := texts + [""];
      assert more[..|texts|] == texts && forall i :: 0 <= i < |more| ==> Without(more[i], '\n');
      JoinLast(more, "\n");
      assert Join(texts, "\n") + "\n" == Join(more, "\n");
      SplitJoin(more, '\n');
    } else {
      assert Join(texts, "\n") + "" == Join(texts, "\n");
      SplitJoin(texts, '\n');
      LastChar(texts);
    }
  }

  lemma {:induction false} LastChar(texts: seq<string>)
    requires texts != [] && (forall i :: 0 <= i < |texts| ==> Without(texts[i], '\n'))
    requires texts[|texts| - 1] != "" || |texts| == 1
    ensures var text := Join(texts, "\n"); text == "" || text[|text| - 1] != '\n'
  {
    if |texts| > 1 {
      JoinLast(texts, "\n");
      var last := texts[|texts| - 1];
      assert last[|last| - 1] != '\n';
    }
  }

  /** What a file was read into is readable. */
  lemma {:induction false} ReadIsReadable(lines: seq<string>, inSection: bool)
    requires forall i :: 0 <= i < |lines| ==> Without(lines[i], '\n')
    ensures Readable(ParseLines(lines, inSection), inSection)
    decreases |lines|
  {
    if lines != [] {
      ReadIsReadable(lines[1..], ParseLine(lines[0], inSection).1);
      var items := ParseLines(lines, inSection);
      assert items[1..] == ParseLines(lines[1..], ParseLine(lines[0], inSection).1);
    }
  }

  // ----- New and changed rows ------------------------------------------------------------

  predicate DashChar(c: char) { c == '|' || c == '-' || c == ':' || IsSpace(c) }

  lemma {:induction false} SplitChars(s: string, sep: char, i: nat)
    requires i < |s| && s[i] != sep
    ensures exists k :: 0 <= k < |Split(s, sep)| && s[i] in Split(s, sep)[k]
  {
    var rest := Split(s[1..], sep);
    if i == 0 {
      assert s[0] in Split(s, sep)[0];
    } else {
      SplitChars(s[1..], sep, i - 1);
      var k :| 0 <= k < |rest| && s[1..][i - 1] in rest[k];
      assert s[i] in Split(s, sep)[if s[0] == sep then k + 1 else k];
    }
  }

  lemma {:induction false} StripRightChars(s: string, c: char)
    requires c in s && !IsSpace(c)
    ensures c in StripRight(s)
  {
    if IsSpace(s[|s| - 1]) {
      assert s == s[..|s| - 1] + [s[|s| - 1]];
      StripRightChars(s[..|s| - 1], c);
    }
  }

  lemma {:induction false} StripLeftChars(s: string, c: char)
    requires c in s && !IsSpace(c)
    ensures c in StripLeft(s)
  {
    if IsSpace(s[0]) {
      assert s == [s[0]] + s[1..];
      StripLeftChars(s[1..], c);
    }
  }

  lemma DashCellChars(p: string, c: char)
    requires DashCell(p) && c in p
    ensures c == '-' || c == ':'
  {
    var a := if p != "" && p[0] == ':' then p[1..] else p;
    var b := if a != "" && a[|a| - 1] == ':' then a[..|a| - 1] else a;
    var i :| 0 <= i < |p| && p[i] == c;
    assert p[0] == ':' ==> p == [':'] + a;
    assert a[|a| - 1] == ':' ==> a == b + [':'];
    if c != ':' {
      assert c in a;
      assert c in b;
    }
  }

  /** A line with any other character is no separator. */
  lemma OtherCharNoSeparator(line: string, c: char)
    requires c in line && !DashChar(c)
    ensures !IsSeparator(line)
  {
    if IsSeparator(line) {
      var l := StripRight(line);
      StripRightChars(line, c);
      var i :| 0 <= i < |l| && l[i] == c;
      var inner := l[1..|l| - 1];
      assert inner[i - 1] == c;
      SplitChars(inner, '|', i - 1);
      var k :| 0 <= k < |Split(inner, '|')| && c in Split(inner, '|')[k];
      StripLeftChars(Split(inner, '|')[k], c);
      StripRightChars(StripLeft(Split(inner, '|')[k]), c);
      DashCellChars(Strip(Split(inner, '|')[k]), c);
    }
  }

  /** A row as a verb leaves it: clean one-line cells, the first no table head, one with a letter. */
  predicate GoodCells(cells: seq<string>) {
    && cells != [] && cells[0] != "ID"
    && (forall i :: 0 <= i < |cells| ==> Clean(cells[i]) && Without(cells[i], '\n'))
    && exists i, j :: 0 <= i < |cells| && 0 <= j < |cells[i]| && !DashChar(cells[i][j])
  }

  lemma {:induction false} CellCharsInRow(cells: seq<string>, i: nat, c: char)
    requires i < |cells| && c in cells[i]
    ensures c in Join(cells, " | ")
  {
    if |cells| > 1 && i > 0 {
      CellCharsInRow(cells[1..], i - 1, c);
    }
  }

  lemma {:induction false} RowWithout(cells: seq<string>)
    requires forall i :: 0 <= i < |cells| ==> Without(cells[i], '\n')
    ensures Without(Join(cells, " | "), '\n')
  {
    if |cells| > 1 {
      RowWithout(cells[1..]);
    }
  }

  /** Under a heading such a row, written anew, is read as that row and no other. */
  lemma GoodRowReads(cells: seq<string>)
    requires GoodCells(cells)
    ensures SameItem(ParseLine(RowText(cells), true).0, TableRow(cells, None))
    ensures ParseLine(RowText(cells), true).1 && Without(RowText(cells), '\n')
  {
    hide SplitCells, IsSeparator, Clean;
    var line := RowText(cells);
    GoodRowNoSeparator(cells);
    assert line[0] == '|' && line[..1] == "|" && line[..3][0] == '|';
    WrittenRowReadsBack(cells);
    RowWithout(cells);
  }

  lemma GoodRowNoSeparator(cells: seq<string>)
    requires GoodCells(cells)
    ensures !IsSeparator(RowText(cells))
  {
    hide Clean, Without;
    var i, j :| 0 <= i < |cells| && 0 <= j < |cells[i]| && !DashChar(cells[i][j]);
    CellCharsInRow(cells, i, cells[i][j]);
    assert cells[i][j] in RowText(cells);
    hide IsSeparator;
    OtherCharNoSeparator(RowText(cells), cells[i][j]);
  }

  /** Where the items before leave the reader. */
  function Under(items: seq<Item>, inSection: bool): bool
    decreases |items|
  {
    if items == [] then inSection else Under(items[1..], ParseLine(TextOf(items[0]), inSection).1)
  }

  lemma {:induction false} ReadableAppend(a: seq<Item>, b: seq<Item>, inSection: bool)
    ensures Readable(a + b, inSection) <==> Readable(a, inSection) && Readable(b, Under(a, inSection))
    decreases |a|
  {
    if a == [] {
      assert a + b == b;
    } else {
      assert (a + b)[1..] == a[1..] + b && (a + b)[0] == a[0];
      ReadableAppend(a[1..], b, ParseLine(TextOf(a[0]), inSection).1);
    }
  }

  /** A part exchanged for another that leaves the reader where the first did. */
  lemma Splice(head: seq<Item>, middle: seq<Item>, other: seq<Item>, tail: seq<Item>)
    requires Readable(head + (middle + tail), false)
    requires Readable(other, Under(head, false)) && Under(other, Under(head, false)) == Under(middle, Under(head, false))
    ensures Readable(head + (other + tail), false)
  {
    hide Readable, Under;
    var u := Under(head, false);
    ReadableAppend(head, middle + tail, false);
    ReadableAppend(middle, tail, u);
    ReadableAppend(other, tail, u);
    ReadableAppend(head, other + tail, false);
  }

  lemma NothingReadable(inSection: bool)
    ensures Readable([], inSection) && Under([], inSection) == inSection
  {
  }

  /** A row that reads as itself under a heading. */
  predicate GoodItem(item: Item) { item.TableRow? && Readable([item], true) }

  lemma GoodItemFacts(item: Item)
    requires GoodItem(item)
    ensures Readable([item], true) && Under([item], true)
  {
    RowKeepsSection(item, true);
  }

  lemma GoodCellsItem(cells: seq<string>)
    requires GoodCells(cells)
    ensures GoodItem(TableRow(cells, None))
  {
    GoodRowReads(cells);
    assert [TableRow(cells, None)][1..] == [];
  }

  lemma RowKeepsSection(row: Item, inSection: bool)
    requires row.TableRow? && Readable([row], inSection)
    ensures inSection && Under([row], inSection)
  {
    hide SplitCells, IsSeparator;
    assert [row][1..] == [];
  }

  /** A row read in its place stands under a heading and reads as itself there. */
  lemma RowInPlace(items: seq<Item>, at: nat)
    requires at < |items| && Readable(items, false) && items[at].TableRow?
    ensures Under(items[..at], false) && GoodItem(items[at]) && Under([items[at]], true)
  {
    hide Readable, Under;
    var head, one, tail := items[..at], [items[at]], items[at + 1..];
    assert items == head + (one + tail);
    ReadableAppend(head, one + tail, false);
    ReadableAppend(one, tail, Under(head, false));
    RowKeepsSection(items[at], Under(head, false));
  }

  /** A row put in, under a heading, leaves everything else to be read as before. */
  lemma InsertReadable(items: seq<Item>, at: nat, item: Item)
    requires at <= |items| && Readable(items, false) && Under(items[..at], false) && GoodItem(item)
    ensures Readable(items[..at] + [item] + items[at..], false)
  {
    hide Readable, Under, GoodItem;
    GoodItemFacts(item);
    NothingReadable(true);
    var head, tail := items[..at], items[at..];
    assert items == head + ([] + tail) && head + [item] + tail == head + ([item] + tail);
    Splice(head, [], [item], tail);
  }

  /** So does a row taken out: it never was the heading of what follows. */
  lemma RemoveReadable(items: seq<Item>, at: nat)
    requires at < |items| && Readable(items, false) && items[at].TableRow?
    ensures Readable(items[..at] + items[at + 1..], false) && Under(items[..at], false) && GoodItem(items[at])
  {
    hide Readable, Under, GoodItem;
    RowInPlace(items, at);
    var head, one, tail := items[..at], [items[at]], items[at + 1..];
    assert items == head + (one + tail);
    NothingReadable(true);
    Splice(head, one, [], tail);
    assert head + ([] + tail) == head + tail;
  }

  /** And a row changed in its place. */
  lemma ReplaceReadable(items: seq<Item>, at: nat, item: Item)
    requires at < |items| && Readable(items, false) && items[at].TableRow? && GoodItem(item)
    ensures Readable(items[at := item], false)
  {
    hide Readable, Under, GoodItem;
    RowInPlace(items, at);
    GoodItemFacts(item);
    var head, one, tail := items[..at], [items[at]], items[at + 1..];
    assert items == head + (one + tail);
    Splice(head, one, [item], tail);
    assert items[at := item] == head + ([item] + tail);
  }

  /** What stands in the cells of a row that was read. */
  lemma GoodItemCells(item: Item)
    requires GoodItem(item)
    ensures item.cells != [] && item.cells[0] != "ID"
    ensures forall i :: 0 <= i < |item.cells| ==> Clean(item.cells[i]) && Without(item.cells[i], '\n')
  {
    var line := TextOf(item);
    hide IsSeparator;
    assert item.cells == SplitCells(line);
    CellsReadAreClean(line);
    CellsReadWithout(line);
    hide SplitCells, Clean;
  }

  // ----- Lines ---------------------------------------------------------------------------

  /** A line that is neither a heading nor a table line. */
  predicate Prose(line: string) { Without(line, '\n') && !StartsWith(line, "## ") && !StartsWith(line, "|") }

  lemma {:induction false} ProseReadable(lines: seq<string>, inSection: bool)
    requires forall i :: 0 <= i < |lines| ==> Prose(lines[i])
    ensures Readable(PlainLines(lines), inSection) && Under(PlainLines(lines), inSection) == inSection
    decreases |lines|
  {
    if lines != [] {
      assert PlainLines(lines)[0] == Plain(lines[0]) && PlainLines(lines)[1..] == PlainLines(lines[1..]);
      ProseReadable(lines[1..], inSection);
    }
  }

  function PlainLines(lines: seq<string>): (items: seq<Item>)
    ensures |items| == |lines| && forall i :: 0 <= i < |items| ==> items[i] == Plain(lines[i])
  {
    seq(|lines|, i requires 0 <= i < |lines| => Plain(lines[i]))
  }

  predicate IsHeading(item: Item) { item.Plain? && StartsWith(item.line, "## ") }

  /** Behind a heading the reader is in a section, to the end. */
  lemma {:induction false} UnderHeading(items: seq<Item>, start: nat, inSection: bool)
    requires start < |items| && IsHeading(items[start])
    ensures Under(items, inSection)
    decreases |items|
  {
    if start > 0 {
      UnderHeading(items[1..], start - 1, ParseLine(TextOf(items[0]), inSection).1);
    } else {
      UnderStays(items[1..]);
    }
  }

  lemma {:induction false} UnderStays(items: seq<Item>)
    ensures Under(items, true)
    decreases |items|
  {
    if items != [] {
      UnderStays(items[1..]);
    }
  }

  // ----- A new table ---------------------------------------------------------------------

  const COLUMNS: seq<string> :=
    ["ID", "Klasse", "Titel", "Status", "Quelle / Beweis", "Ledger", "H\U{E4}ngt ab von", "PR", "Ablauf", "Kevin-min"]

  function TableHead(): string { RowText(COLUMNS) }

  const DASHES: seq<string> := ["---", "---", "---", "---", "---", "---", "---", "---", "---", "---"]

  function TableSep(): string { "|" + (Join(DASHES, "|") + "|") }

  lemma ColumnsAreClean()
    ensures forall i :: 0 <= i < |COLUMNS| ==> Clean(COLUMNS[i]) && Without(COLUMNS[i], '\n')
  {
    forall i | 0 <= i < |COLUMNS| ensures Clean(COLUMNS[i]) && Without(COLUMNS[i], '\n') {
      var c := COLUMNS[i];
      forall j | 0 <= j < |c| ensures c[j] != '|' && c[j] != '\n' {
        assert ColumnChar(c[j]);
      }
      NoPipeNoBare(c, ' ');
      assert !IsSpace(c[0]) && !IsSpace(c[|c| - 1]);
    }
  }

  predicate ColumnChar(c: char) { 'a' <= c <= 'z' || 'A' <= c <= 'Z' || c == ' ' || c == '/' || c == '-' || c == '\U{E4}' }

  lemma DashIsADash()
    ensures DashCell(Strip("---")) && Without("---", '|') && Without("---", '\n')
  {
    assert !IsSpace('-');
    assert Strip("---") == "---";
  }

  lemma SepIsASeparator()
    ensures IsSeparator(TableSep()) && Without(TableSep(), '\n')
  {
    hide Join, Strip, DashCell;
    var inner, l := Join(DASHES, "|"), TableSep();
    DashIsADash();
    assert forall i :: 0 <= i < |DASHES| ==> DASHES[i] == "---";
    SplitJoin(DASHES, '|');
    assert !IsSpace('|');
    assert StripRight(l) == l;
    assert l[1..|l| - 1] == inner;
    JoinWithout(DASHES, "|");
  }

  lemma {:induction false} JoinWithout(parts: seq<string>, sep: string)
    requires Without(sep, '\n') && forall i :: 0 <= i < |parts| ==> Without(parts[i], '\n')
    ensures Without(Join(parts, sep), '\n')
  {
    if |parts| > 1 {
      JoinWithout(parts[1..], sep);
    }
  }

  /** A table line whose first cell is ID is a line. */
  lemma IdLineReads(cells: seq<string>)
    requires cells != [] && cells[0] == "ID" && forall i :: 0 <= i < |cells| ==> Clean(cells[i]) && Without(cells[i], '\n')
    ensures Without(RowText(cells), '\n') && !StartsWith(RowText(cells), "## ")
    ensures ParseLine(RowText(cells), true) == (Plain(RowText(cells)), true)
  {
    var line := RowText(cells);
    WrittenRowReadsBack(cells);
    JoinWithout(cells, " | ");
    hide SplitCells, Clean, IsSeparator, Join;
    assert line[0] == '|' && |line| >= 3 && line[..3][0] == '|' && "## "[0] == '#';
  }

  lemma HeadReads()
    ensures Without(TableHead(), '\n') && ParseLine(TableHead(), true) == (Plain(TableHead()), true)
    ensures !StartsWith(TableHead(), "## ")
  {
    ColumnsAreClean();
    hide Clean, RowText, ParseLine, StartsWith;
    IdLineReads(COLUMNS);
  }

  lemma SepReads()
    ensures Without(TableSep(), '\n') && ParseLine(TableSep(), true) == (Plain(TableSep()), true)
    ensures IsSeparator(TableSep()) && !StartsWith(TableSep(), "## ")
  {
    var sep := TableSep();
    SepIsASeparator();
    hide SplitCells, IsSeparator, Join;
    assert sep[0] == '|' && (|sep| >= 3 ==> sep[..3][0] == '|') && "## "[0] == '#';
  }

  /** The lines of a new table are read as lines, never as rows. */
  lemma TableReadable()
    ensures Readable([Plain(TableHead()), Plain(TableSep())], true) && Under([Plain(TableHead()), Plain(TableSep())], true)
    ensures IsSeparator(TableSep()) && !IsHeading(Plain(TableHead())) && !IsHeading(Plain(TableSep()))
  {
    HeadReads();
    SepReads();
    hide TableHead, TableSep, ParseLine, IsSeparator, StartsWith;
    var items := [Plain(TableHead()), Plain(TableSep())];
    assert items[1..] == [Plain(TableSep())] && items[1..][1..] == [];
    assert Readable([Plain(TableSep())], true) && Under([Plain(TableSep())], true) by {
      assert [Plain(TableSep())][1..] == [];
    }
  }
}
