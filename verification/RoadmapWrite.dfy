/** The roadmap file as it is linted and written: text in, text out (lint and write in scripts/dev/roadmap.py). */
module RoadmapWrite {
  import opened Common
  import opened Calendar
  import opened RoadmapText
  import opened RoadmapCells
  import opened RoadmapFile
  import opened RoadmapHeader
  import opened RoadmapRows
  import opened RoadmapHeadings
  import opened RoadmapItems
  import opened RoadmapCellsWritten
  import opened RoadmapVerbs

  // ----- The header line -----------------------------------------------------------------

  predicate IsStand(item: Item) { item.Plain? && StartsWith(item.line, "Stand:") && !IsHeading(item) }

  /** The `Stand:` line above the first section. */
  function HeaderLine(items: seq<Item>): Option<string> {
    if items == [] || IsHeading(items[0]) then None
    else if IsStand(items[0]) then Some(items[0].line)
    else HeaderLine(items[1..])
  }

  function CountStatus(rows: seq<Placed>, status: Status): nat {
    if rows == [] then 0 else (if State(rows[0].row) == Some(status) then 1 else 0) + CountStatus(rows[1..], status)
  }

  function CountExpired(rows: seq<Placed>, today: int): nat {
    if rows == [] then 0
    else
      var r := rows[0].row;
      (if IsOpen(r) && r.expiry.Some? && r.expiry.value < today then 1 else 0) + CountExpired(rows[1..], today)
  }

  /** What the header should say. */
  function CountsOf(rows: seq<Placed>, today: int): Counts {
    Counts(CountStatus(rows, Aktiv), CountStatus(rows, Bereit), CountStatus(rows, InPr), CountStatus(rows, Neu), CountExpired(rows, today))
  }

  /** Where the header line stands. */
  method HeaderIndex(items: seq<Item>) returns (found: bool, at: nat)
    ensures found ==> at < |items| && IsStand(items[at]) && forall i :: 0 <= i < at ==> !IsStand(items[i]) && !IsHeading(items[i])
    ensures !found ==> HeaderLine(items) == None
    ensures found ==> HeaderLine(items) == Some(items[at].line)
  {
    hide IsStand, IsHeading;
    for i := 0 to |items|
      invariant forall j :: 0 <= j < i ==> !IsStand(items[j]) && !IsHeading(items[j])
    {
      if IsHeading(items[i]) {
        NoHeader(items, i);
        return false, 0;
      }
      if IsStand(items[i]) {
        HeaderAt(items, i);
        return true, i;
      }
    }
    NoHeader(items, |items|);
    found, at := false, 0;
  }

  lemma {:induction false} HeaderAt(items: seq<Item>, at: nat)
    requires at < |items| && IsStand(items[at]) && forall i :: 0 <= i < at ==> !IsStand(items[i]) && !IsHeading(items[i])
    ensures HeaderLine(items) == Some(items[at].line)
  {
    if at > 0 {
      HeaderAt(items[1..], at - 1);
    }
  }

  lemma {:induction false} NoHeader(items: seq<Item>, at: nat)
    requires at <= |items| && (at < |items| ==> IsHeading(items[at])) && forall i :: 0 <= i < at ==> !IsStand(items[i]) && !IsHeading(items[i])
    ensures HeaderLine(items) == None
  {
    if at > 0 {
      NoHeader(items[1..], at - 1);
    }
  }

  /** A line of prose put in or exchanged: rows and the rest of the file are as before. */
  lemma ProseIn(items: seq<Item>, from: nat, to: nat, line: string)
    requires from <= to <= |items| && Readable(items, false) && Prose(line)
    requires forall i :: from <= i < to ==> items[i].Plain? && Prose(items[i].line)
    ensures var more := items[..from] + [Plain(line)] + items[to..];
            Readable(more, false) && Rows(more) == Rows(items)
  {
    hide Readable, Under, Rows, RowsFrom, KindOf, Prose;
    var head, middle, tail, one := items[..from], items[from..to], items[to..], [Plain(line)];
    var u := Under(head, false);
    assert one == PlainLines([line]);
    ProseReadable([line], u);
    var lines := LinesIn(middle);
    assert middle == PlainLines(lines);
    ProseReadable(lines, u);
    ProseKinds([line]);
    ProseKinds(lines);
    assert items[from..] == middle + tail;
    assert items == head + (middle + tail) && head + one + tail == head + (one + tail);
    Splice(head, middle, one, tail);
    SameRows(head, middle, one, tail);
  }

  function LinesIn(items: seq<Item>): (r: seq<string>)
    requires forall i :: 0 <= i < |items| ==> items[i].Plain?
    ensures |r| == |items| && forall i :: 0 <= i < |r| ==> r[i] == items[i].line
  {
    seq(|items|, i requires 0 <= i < |items| => items[i].line)
  }

  lemma SameRows(head: seq<Item>, middle: seq<Item>, other: seq<Item>, tail: seq<Item>)
    requires forall i :: 0 <= i < |middle| ==> KindOf(middle[i]).Text?
    requires forall i :: 0 <= i < |other| ==> KindOf(other[i]).Text?
    ensures Rows(head + (other + tail)) == Rows(head + (middle + tail))
  {
    hide KindOf;
    var section := SectionAfter(head, NOWHERE);
    RowsAppend(head, middle + tail, NOWHERE);
    RowsAppend(head, other + tail, NOWHERE);
    RowsAppend(middle, tail, section);
    RowsAppend(other, tail, section);
    NoRows(middle, section);
    NoRows(other, section);
    NoHeadingSame(middle, section);
    NoHeadingSame(other, section);
  }

  /** set_header: the line that says what the rows say, in its place. */
  method SetHeader(items: seq<Item>, today: Date) returns (r: seq<Item>)
    requires Readable(items, false) && ValidDate(today)
    ensures Readable(r, false) && r != [] && Rows(r) == Rows(items)
    ensures HeaderLine(r) == Some(HeaderText(today, CountsOf(Rows(items), Ordinal(today))))
  {
    hide Readable, Rows, HeaderText, CountsOf, HeaderLine, IsStand, Prose, IsHeading, Ordinal, StartsWith;
    var line := HeaderText(today, CountsOf(Rows(items), Ordinal(today)));
    HeaderIsALine(today, CountsOf(Rows(items), Ordinal(today)));
    StandIsProse(line);
    var found, at := HeaderIndex(items);
    if found {
      StandsAreProse(items, at);
      ProseIn(items, at, at + 1, line);
      r := items[..at] + [Plain(line)] + items[at + 1..];
      HeaderAt(r, at);
    } else {
      at := if items != [] && items[0].Plain? && StartsWith(items[0].line, "# ") then 1 else 0;
      ProseIn(items, at, at, line);
      r := items[..at] + [Plain(line)] + items[at..];
      if at == 1 {
        TitleIsNeither(items);
      }
      HeaderAt(r, at);
    }
  }

  lemma StandIsProse(line: string)
    requires Without(line, '\n') && StartsWith(line, "Stand:") && line[0] == 'S'
    ensures Prose(line) && IsStand(Plain(line))
  {
    assert |line| >= 3 ==> line[..3][0] == 'S';
    assert line[..1][0] == 'S' && "## "[0] == '#' && "|"[0] == '|';
  }

  lemma StandsAreProse(items: seq<Item>, at: nat)
    requires at < |items| && Readable(items, false) && IsStand(items[at])
    ensures items[at].Plain? && Prose(items[at].line)
  {
    var line := items[at].line;
    ReadableReparses(items, false);
    assert Without(TextOf(items[at]), '\n');
    assert line[..6][0] == line[0] && "Stand:"[0] == 'S';
    StandIsProse(line);
  }

  /** The title of the file is no heading of a section; a file without a header has none there. */
  lemma TitleIsNeither(items: seq<Item>)
    requires items != [] && items[0].Plain? && StartsWith(items[0].line, "# ")
    ensures !IsStand(items[0]) && !IsHeading(items[0])
  {
    var line := items[0].line;
    assert line[..2][0] == line[0] && line[..2][1] == line[1] && "# "[0] == '#' && "# "[1] == ' ';
    assert |line| >= 6 ==> line[..6][0] == line[0];
    assert |line| >= 3 ==> line[..3][1] == line[1];
    assert "Stand:"[0] == 'S' && "## "[1] == '#';
  }

  // ----- Reading what was written --------------------------------------------------------

  lemma SameKind(a: Item, b: Item)
    requires SameItem(a, b)
    ensures KindOf(a) == KindOf(b) && IsHeading(a) == IsHeading(b) && IsStand(a) == IsStand(b) && (a.Plain? ==> a == b)
  {
  }

  lemma {:induction false} SameItemsRead(a: seq<Item>, b: seq<Item>, section: Section)
    requires SameItems(a, b)
    ensures RowsFrom(a, section) == RowsFrom(b, section) && HeaderLine(a) == HeaderLine(b)
    decreases |a|
  {
    if a != [] {
      SameKind(a[0], b[0]);
      assert SameItems(a[1..], b[1..]);
      hide KindOf, IsHeading, IsStand;
      SameItemsRead(a[1..], b[1..], if KindOf(a[0]).Heading? then KindOf(a[0]).section else section);
    }
  }

  lemma {:induction false} EmptyLineLast(items: seq<Item>, section: Section)
    ensures RowsFrom(items + [Plain("")], section) == RowsFrom(items, section) && HeaderLine(items + [Plain("")]) == HeaderLine(items)
    decreases |items|
  {
    var more := items + [Plain("")];
    if items == [] {
      assert more[1..] == [] && more[0] == Plain("");
      assert KindOf(Plain("")).Text? && !IsStand(Plain("")) && !IsHeading(Plain(""));
    } else {
      assert more[0] == items[0] && more[1..] == items[1..] + [Plain("")];
      hide KindOf, IsHeading, IsStand;
      EmptyLineLast(items[1..], if KindOf(items[0]).Heading? then KindOf(items[0]).section else section);
    }
  }

  /** Whatever the items, as long as they are readable: the text written of them reads to the same rows and header. */
  lemma WrittenReads(items: seq<Item>, newline: bool)
    requires Readable(items, false) && items != []
    ensures var back := ReadText(Render(Document(items, newline))).items;
            Rows(back) == Rows(items) && HeaderLine(back) == HeaderLine(items)
  {
    hide Readable, ReadText, Render, KindOf, TextOf, RowsFrom, HeaderLine, SameItems;
    var d := Document(items, newline);
    RenderThenRead(d);
    var back, n := ReadText(Render(d)).items, |items|;
    if SameItems(back, items) {
      SameItemsRead(back, items, NOWHERE);
    } else {
      SameItemsRead(back, items[..n - 1], NOWHERE);
      assert items == items[..n - 1] + [Plain("")];
      EmptyLineLast(items[..n - 1], NOWHERE);
    }
  }

  // ----- Lint ----------------------------------------------------------------------------

  function RowsOf(text: string): seq<Placed> { Rows(ReadText(text).items) }

  /** Nothing for lint to report, on that day. */
  predicate TextClean(text: string, today: Date)
    requires today.y >= 1
  {
    LintClean(RowsOf(text)) && HeaderClean(HeaderLine(ReadText(text).items), CountsOf(RowsOf(text), Ordinal(today)))
  }

  datatype Finding = DuplicateId(id: string) | Columns(id: string) | BadStatus(id: string) | WrongSection(id: string) | SharedKey(key: string) | Header

  /** Clean as far as the first `n` rows go. */
  ghost predicate CleanUpTo(rows: seq<Placed>, n: nat)
    requires n <= |rows|
  {
    && (forall i :: 0 <= i < n ==> RowOk(rows[i]))
    && (forall i, j :: 0 <= i < j < n ==> PairOk(rows[i].row, rows[j].row))
  }

  predicate OpenKey(r: Row) { r.Row? && IsOpen(r) && r.key.Some? }

  /** The row after `n` brings nothing new to report. */
  lemma CleanStep(rows: seq<Placed>, n: nat, ids: set<string>, keys: set<string>)
    requires n < |rows|
    requires forall x :: x in ids <==> exists i :: 0 <= i < n && NumberOf(rows[i].row.id).Some? && rows[i].row.id == x
    requires forall x :: x in keys <==> exists i :: 0 <= i < n && OpenKey(rows[i].row) && rows[i].row.key.value == x
    ensures var r := rows[n].row;
            CleanUpTo(rows, n + 1) <==>
              && CleanUpTo(rows, n) && RowOk(rows[n])
              && !(NumberOf(r.id).Some? && r.id in ids) && !(OpenKey(r) && r.key.value in keys)
  {
    hide NumberOf;
    var r := rows[n].row;
    if NumberOf(r.id).Some? && r.id in ids {
      var i :| 0 <= i < n && NumberOf(rows[i].row.id).Some? && rows[i].row.id == r.id;
      assert !PairOk(rows[i].row, rows[n].row);
    } else if OpenKey(r) && r.key.value in keys {
      var i :| 0 <= i < n && OpenKey(rows[i].row) && rows[i].row.key.value == r.key.value;
      assert !PairOk(rows[i].row, rows[n].row);
    } else {
      forall i | 0 <= i < n ensures PairOk(rows[i].row, r) {
      }
    }
  }

  /** lint: the loop over the rows, then the header. */
  method Lint(text: string, today: Date) returns (findings: seq<Finding>)
    requires today.y >= 1
    ensures findings == [] <==> TextClean(text, today)
  {
    var d := Read(text);
    var rows := Rows(d.items);
    findings := LintRows(rows);
    if !HeaderClean(HeaderLine(d.items), CountsOf(rows, Ordinal(today))) {
      findings := findings + [Header];
    }
  }

  lemma CleanEnds(rows: seq<Placed>)
    ensures CleanUpTo(rows, 0) && (CleanUpTo(rows, |rows|) <==> LintClean(rows))
  {
  }

  method LintRows(rows: seq<Placed>) returns (findings: seq<Finding>)
    ensures findings == [] <==> LintClean(rows)
  {
    hide NumberOf, RowOk, CleanUpTo, LintClean;
    CleanEnds(rows);
    findings := [];
    var ids: set<string>, keys: set<string> := {}, {};
    for n := 0 to |rows|
      invariant forall x :: x in ids <==> exists i :: 0 <= i < n && NumberOf(rows[i].row.id).Some? && rows[i].row.id == x
      invariant forall x :: x in keys <==> exists i :: 0 <= i < n && OpenKey(rows[i].row) && rows[i].row.key.value == x
      invariant findings == [] <==> CleanUpTo(rows, n)
    {
      CleanStep(rows, n, ids, keys);
      var r := rows[n].row;
      var found: seq<Finding> := [];
      if NumberOf(r.id).Some? {
        if r.id in ids {
          found := [DuplicateId(r.id)];
        }
        ids := ids + {r.id};
      }
      var filed := LintRow(rows[n]);
      found := found + filed;
      if OpenKey(r) {
        if r.key.value in keys {
          found := found + [SharedKey(r.key.value)];
        }
        keys := keys + {r.key.value};
      }
      findings := findings + found;
    }
  }

  /** What lint says of one row by itself. */
  method LintRow(p: Placed) returns (findings: seq<Finding>)
    ensures findings == [] <==> RowOk(p)
  {
    if p.row.Bad? {
      return [Columns(p.row.id)];
    }
    if !p.row.word.Is? {
      return [BadStatus(p.row.id)];
    }
    if !Filed(p.section, p.row.word.status) {
      return [WrongSection(p.row.id)];
    }
    findings := [];
  }

  // ----- Writing -------------------------------------------------------------------------

  datatype Written = Written(added: Option<nat>, pruned: nat)

  /** The file and the lock file beside it. */
  class RoadmapOnDisk {
    var text: string
    var issued: nat

    constructor (file: string)
      ensures text == file && issued == 0
    {
      text, issued := file, 0;
    }

    /** A hand edit: anything. */
    method Edit(file: string)
      modifies this`text
      ensures text == file
    {
      text := file;
    }

    /**
    write(): the file is read, changed, pruned, given its first section and its header,
    written, and read again to count its rows; then what was issued is remembered.
    */
    method Write(verb: Verb, today: Date, lines: seq<string>) returns (r: Result<Written, Refusal>)
      requires ValidDate(today) && forall i :: 0 <= i < |lines| ==> Prose(lines[i])
      modifies this
      ensures r.Err? ==> text == old(text) && issued == old(issued)
      ensures r.Ok? ==> (r.value.added.Some? <==> verb.AddRow?)
      ensures r.Ok? ==> |RowsOf(text)| == |RowsOf(old(text))| + (if verb.AddRow? then 1 else 0) - r.value.pruned
      ensures r.Ok? && LintClean(RowsOf(old(text))) && !verb.AddRow? ==> TextClean(text, today)
      ensures r.Ok? && LintClean(RowsOf(old(text))) && verb.AddRow? ==>
                (TextClean(text, today) <==> KeyFree(RowsOf(old(text)), NewKey(verb)))
      ensures LintClean(RowsOf(old(text))) ==> r != Err(CountWrong)
      ensures AllSections(ReadText(old(text)).items) ==> r != Err(NoSection)
      ensures AllSections(ReadText(old(text)).items) && LintClean(RowsOf(old(text))) ==>
                (r.Ok? <==> Accepts(ReadText(old(text)).items, verb, today))
      ensures r.Ok? && verb.AddRow? ==> old(issued) < r.value.added.value <= issued
      ensures issued >= old(issued)
    {
      hide Rows, LintClean, AllSections, ReadText, NewKey, Readable, KeyFree, Ordinal, HeaderClean, CountsOf, Accepts, Render, HeaderLine;
      hide HeaderText, Prose;
      var newline := text != "" && text[|text| - 1] == '\n';
      var roadmap := new Roadmap(text, issued);
      var before := |Rows(roadmap.items)|;
      var done, highest := Revise(roadmap, verb, today, lines);
      if done.Err? {
        return Err(done.error);
      }
      var items := SetHeader(roadmap.items, today);
      var written := Render(Document(items, newline));
      WrittenReads(items, newline);
      var back := Read(written);
      if |Rows(back.items)| != before + (if verb.AddRow? then 1 else 0) - done.value.pruned {
        return Err(CountWrong);
      }
      HeaderReads(today, CountsOf(Rows(roadmap.items), Ordinal(today)));
      text, issued := written, highest;
      r := done;
    }
  }

  /** The verb, the prune and the first section, before the header. */
  method Revise(roadmap: Roadmap, verb: Verb, today: Date, lines: seq<string>) returns (r: Result<Written, Refusal>, highest: nat)
    requires roadmap.Valid() && ValidDate(today) && forall i :: 0 <= i < |lines| ==> Prose(lines[i])
    modifies roadmap`items
    ensures r != Err(CountWrong) && (AllSections(old(roadmap.items)) ==> r != Err(NoSection))
    ensures AllSections(old(roadmap.items)) ==> (r.Ok? <==> Accepts(old(roadmap.items), verb, today))
    ensures highest >= roadmap.issued
    ensures r.Ok? ==>
              && roadmap.Valid() && (r.value.added.Some? <==> verb.AddRow?)
              && (verb.AddRow? ==> roadmap.issued < r.value.added.value <= highest)
              && (LintClean(Rows(old(roadmap.items))) ==>
                    && |Rows(roadmap.items)| == |Rows(old(roadmap.items))| + (if verb.AddRow? then 1 else 0) - r.value.pruned
                    && (!verb.AddRow? ==> LintClean(Rows(roadmap.items)))
                    && (verb.AddRow? ==> (LintClean(Rows(roadmap.items)) <==> KeyFree(Rows(old(roadmap.items)), NewKey(verb)))))
  {
    hide Rows, LintClean, AllFiled, OpenOf, Needed, AllSections, NewKey, Readable, NextSafe, Pruned, KeyFree, Ordinal, Accepts;
    ghost var first := Rows(roadmap.items);
    highest := roadmap.issued;
    var added, newest := roadmap.Perform(verb, today);
    if added.Err? {
      return Err(added.error), highest;
    }
    ghost var changed := Rows(roadmap.items);
    var pruned := roadmap.Prune(Ordinal(today));
    if pruned.Err? {
      return Err(pruned.error), highest;
    }
    ghost var kept := Rows(roadmap.items);
    if AllFiled(kept) {
      NobodyInNextUp(kept);
    }
    roadmap.SetNextUp(lines);
    assert AllFiled(kept) ==> Rows(roadmap.items) == kept;
    highest := roadmap.Highest();
    if verb.AddRow? {
      StillThere(changed, kept, newest, Needed(changed));
      HighestCovers(roadmap.items, newest, highest);
    }
    CleanOrNot(verb, first, changed, kept, newest);
    r := Ok(Written(added.value, pruned.value));
  }

  /** What lint says of the rows before says what it says of them after. */
  lemma CleanOrNot(verb: Verb, first: seq<Placed>, changed: seq<Placed>, kept: seq<Placed>, newest: Placed)
    requires NextSafe(changed, kept, Needed(changed)) && (LintClean(changed) ==> LintClean(kept))
    requires LintClean(first) && (verb.AddRow? ==> KeyFree(first, NewKey(verb))) ==> LintClean(changed)
    requires verb.AddRow? ==>
               && newest in changed && newest.row.Row? && IsOpen(newest.row) && newest.row.key == NewKey(verb)
               && NumberOf(newest.row.id).Some? && IdsBelow(first, NumberOf(newest.row.id).value)
               && forall p :: p in first ==> p in changed
    ensures LintClean(first) && !verb.AddRow? ==> LintClean(kept)
    ensures LintClean(first) && verb.AddRow? ==> (LintClean(kept) <==> KeyFree(first, NewKey(verb)))
  {
    if verb.AddRow? && !KeyFree(first, NewKey(verb)) {
      var key := NewKey(verb);
      hide NewKey, LintClean;
      var i :| 0 <= i < |first| && first[i].row.Row? && IsOpen(first[i].row) && first[i].row.key == key;
      assert first[i] in first && first[i] in changed;
      StillThere(changed, kept, newest, Needed(changed));
      StillThere(changed, kept, first[i], Needed(changed));
      assert first[i] != newest;
      SameKeyIsAFinding(kept, first[i], newest);
    }
  }

  /** An add that is let through leaves the file clean if its key is read back as given and is not on a row without an ID. */
  lemma KeyGivenIsFree(verb: Verb, rows: seq<Placed>)
    requires verb.AddRow? && verb.key.Some? && OneToken(verb.key.value)
    requires !Taken(rows, verb.key) && Owner(rows, verb.key.value) != Some("")
    requires var before := FindKey(Cell(SourceHead(verb.source, verb.proof, true)));
             if before.Some? then before == verb.key else Spaceless(verb.key.value) && NoBarePipe(verb.key.value, ' ')
    ensures KeyFree(rows, NewKey(verb))
  {
    KeyReadBack(verb.source, verb.proof, verb.key.value);
    NamelessOwnerIsOverlooked(rows, verb.key.value);
  }

  /** An add that finds its key free and still leaves a file lint reports: the source names another row's key first. */
  lemma GivenKeyMisleads(rows: seq<Placed>) returns (verb: Verb)
    requires !KeyFree(rows, Some("x")) && KeyFree(rows, Some("y"))
    ensures verb.AddRow? && WellAsked(verb) && !Taken(rows, verb.key) && !KeyFree(rows, NewKey(verb))
  {
    OwnedOrFree(rows, "y");
    hide KeyFree, OneToken, FindKey, Cell, SourceText;
    var source, key := SecondKeyIsLost();
    assert "t"[0] == 't' && !IsSpace('t');
    PlainEnds("t");
    verb := AddRow("BUG", "t", source, "", "", Some(key));
  }

  function NamelessCells(): seq<string> {
    ["", "BUG", "t", StatusWord(Neu), DEDUP + " y", NONE, NONE, NONE, "nie", NONE]
  }

  lemma NamelessIsGood()
    ensures GoodCells(NamelessCells()) && |NamelessCells()| == NCOLS
    ensures var r := ReadRow(NamelessCells()); r.Row? && r.id == "" && r.word == Is(Neu) && r.key == Some("y")
  {
    hide StatusWord, DEDUP, NONE, ReadWord, DayOf, FindKey, FindIds, RankOf, StartsWith, Clean, Without, GoodCells, CleanCells;
    assert !IsSpace('y');
    NewReads();
    KeyAlone("y");
    assert DEDUP + " y" == DEDUP + " " + "y";
    NamelessCellsAreClean();
    WordedCells(NamelessCells(), Neu);
  }

  lemma NamelessCellsAreClean()
    ensures CleanCells(NamelessCells())
  {
    ClassIsPlain("BUG");
    assert Clean("") && Without("", '\n');
    LettersArePlain("t");
    LettersArePlain("nie");
    NoneIsPlain();
    StatusWordReads(Neu);
    LettersArePlain(StatusWord(Neu));
    DedupIsPlain();
    hide StatusWord, NONE, Letters;
    var k := DEDUP + " y";
    NoPipeNoBare(k, ' ');
    assert Clean(k) && Without(k, '\n');
    hide DEDUP, Clean, Without;
  }

  lemma FreshHeading()
    ensures StartsWith("## Neu", "## ") && Without("## Neu", '\n') && KindOf(Plain("## Neu")) == Heading(Fresh)
  {
    var title := "## Neu"[3..];
    assert title == "Neu";
    PlainEnds(title);
    NotTitled(title, "Als N\U{E4}chstes", 0);
    NotTitled(title, "In Arbeit", 0);
  }

  /** A file lint has nothing to say about but its header, in which a key stands on an open row without an ID. */
  lemma NamelessOwnerHappens() returns (text: string)
    ensures LintClean(RowsOf(text)) && Owner(RowsOf(text), "y") == Some("")
  {
    NamelessIsGood();
    FreshHeading();
    hide NamelessCells, GoodCells, ReadRow, StartsWith, Without, Readable, Under, KindOf, GoodItem, RowOk;
    hide Render, ReadText, LintClean, Owner;
    var heading, item := Plain("## Neu"), TableRow(NamelessCells(), None);
    var items := [heading, item];
    GoodCellsItem(item.cells);
    GoodItemFacts(item);
    HeadingReads("## Neu", false);
    assert items == [heading] + [item];
    ReadableAppend([heading], [item], false);
    RowOfItem(item);
    OneRow(item, Fresh);
    assert items[1..] == [item];
    text := Render(Document(items, false));
    WrittenReads(items, false);
    NamelessAlone(ReadRow(item.cells));
  }

  lemma NamelessAlone(r: Row)
    requires r.Row? && r.id == "" && r.word == Is(Neu) && r.key == Some("y")
    ensures LintClean([Placed(Fresh, r)]) && Owner([Placed(Fresh, r)], "y") == Some("")
  {
    hide NumberOf;
  }

  datatype Event = Command(verb: Verb, today: Date, lines: seq<string>) | HandEdit(file: string)

  predicate Sensible(e: Event) { e.Command? ==> ValidDate(e.today) && forall i :: 0 <= i < |e.lines| ==> Prose(e.lines[i]) }

  /** However the file is edited by hand in between, the IDs the adds return only grow. */
  method Session(disk: RoadmapOnDisk, events: seq<Event>) returns (ids: seq<nat>)
    requires forall i :: 0 <= i < |events| ==> Sensible(events[i])
    modifies disk
    ensures forall i, j :: 0 <= i < j < |ids| ==> ids[i] < ids[j]
    ensures forall i :: 0 <= i < |ids| ==> old(disk.issued) < ids[i] <= disk.issued
  {
    ids := [];
    for e := 0 to |events|
      invariant forall i, j :: 0 <= i < j < |ids| ==> ids[i] < ids[j]
      invariant forall i :: 0 <= i < |ids| ==> old(disk.issued) < ids[i] <= disk.issued
      invariant disk.issued >= old(disk.issued)
    {
      assert Sensible(events[e]);
      match events[e] {
        case HandEdit(file) => disk.Edit(file);
        case Command(verb, today, lines) =>
          var r := disk.Write(verb, today, lines);
          if r.Ok? && r.value.added.Some? {
            ids := ids + [r.value.added.value];
          }
      }
    }
  }
}
