/**
The rows of the roadmap and where they stand (class Roadmap, lint and next in
scripts/dev/roadmap.py), read from the lines and cells of the file. What a row's ledger
touches is an argument of `next`.
*/
module RoadmapRows {
  import opened Common
  import opened RoadmapText
  import opened RoadmapCells
  import opened RoadmapFile

  const KEEP_CLOSED_DAYS := 7

  datatype Section = NextUp | InProgress | Fresh | Planned | Deferred | Stuck | Closed | Archive | Unknown(name: string)

  /** A row as its cells are read; `Bad` has not ten columns. Days are day numbers. */
  datatype Row =
    | Row(id: string, rank: nat, word: Word, day: Option<int>, key: Option<string>, deps: set<string>, expiry: Option<int>,
          cells: seq<string>)
    | Bad(id: string, cells: seq<string>)

  datatype Placed = Placed(section: Section, row: Row)

  function SectionOf(s: Status): Section {
    match s
    case Neu => Fresh
    case Geplant => Planned
    case Freigegeben => Planned
    case Aktiv => InProgress
    case Bereit => InProgress
    case InPr => InProgress
    case Zurueckgestellt => Deferred
    case Blockiert => Stuck
    case Abgeschlossen => Closed
    case Abgelehnt => Closed
  }

  function Transitions(s: Status): set<Status> {
    match s
    case Neu => {Geplant, Zurueckgestellt, Blockiert, Abgelehnt}
    case Geplant => {Freigegeben, Aktiv, Zurueckgestellt, Blockiert, Abgelehnt}
    case Freigegeben => {Geplant, Aktiv, Zurueckgestellt, Blockiert, Abgelehnt}
    case Aktiv => {Bereit, Geplant, Zurueckgestellt, Blockiert, Abgelehnt}
    case Bereit => {InPr, Aktiv, Zurueckgestellt, Blockiert, Abgelehnt}
    case InPr => {Abgeschlossen, Aktiv, Zurueckgestellt, Blockiert, Abgelehnt}
    case Zurueckgestellt => {Neu, Geplant, Abgelehnt}
    case Blockiert => {Geplant, Freigegeben, Aktiv, Zurueckgestellt, Abgelehnt}
    case Abgeschlossen => {Abgelehnt}
    case Abgelehnt => {}
  }

  function State(r: Row): Option<Status> { if r.Row? && !r.word.Strange? then Some(r.word.status) else None }

  predicate IsOpen(r: Row) { State(r).Some? && !IsClosed(State(r).value) }

  predicate ClosedRow(r: Row) { State(r).Some? && IsClosed(State(r).value) }

  // ----- Reading a line ------------------------------------------------------------------

  const NCOLS := 10

  function RankOf(klass: string): nat {
    if klass == "SEC" then 0 else if klass == "REG" then 1 else if klass == "REL" then 2 else if klass == "BUG" then 3
    else if klass == "FEAT" then 4 else if klass == "REF" then 5 else if klass == "IDEE" then 6 else 7
  }

  function ReadRow(cells: seq<string>): Row {
    if |cells| != NCOLS then Bad(if cells == [] then "" else cells[0], cells)
    else Row(cells[0], RankOf(cells[1]), ReadWord(cells[3]), DayOf(cells[3]), FindKey(cells[4]), FindIds(cells[6]), DayOf(cells[8]), cells)
  }

  predicate Titled(title: string, name: string) { title == name || StartsWith(title, name + " ") }

  /** section_name: the first section a heading's title names. */
  function SectionName(line: string): Section
    requires |line| >= 3
  {
    var title := Strip(line[3..]);
    if Titled(title, "Als N\U{E4}chstes") then NextUp
    else if Titled(title, "In Arbeit") then InProgress
    else if Titled(title, "Neu") then Fresh
    else if Titled(title, "Geplant") then Planned
    else if Titled(title, "Zur\U{FC}ckgestellt") then Deferred
    else if Titled(title, "Blockiert") then Stuck
    else if Titled(title, "Abgeschlossen") then Closed
    else if Titled(title, "Archiv") then Archive
    else Unknown(title)
  }

  /** The title of a section. */
  function TitleOf(s: Section): string {
    match s
    case NextUp => "Als N\U{E4}chstes"
    case InProgress => "In Arbeit"
    case Fresh => "Neu"
    case Planned => "Geplant"
    case Deferred => "Zur\U{FC}ckgestellt"
    case Stuck => "Blockiert"
    case Closed => "Abgeschlossen"
    case Archive => "Archiv"
    case Unknown(name) => name
  }

  lemma OneTitle(title: string, a: Section, b: Section)
    requires !a.Unknown? && !b.Unknown? && Titled(title, TitleOf(a)) && Titled(title, TitleOf(b))
    ensures a == b
  {
    var s, t := TitleOf(a), TitleOf(b);
    assert |title| >= |s| && title[0] == s[0] && title[1] == s[1];
    assert |title| >= |t| && title[0] == t[0] && title[1] == t[1];
  }

  /** A heading is that of a section exactly if its title is the section's, with or without words behind it. */
  lemma SectionNamed(line: string, s: Section)
    requires |line| >= 3
    ensures var title := Strip(line[3..]);
            if s.Unknown? then SectionName(line) == s <==> s.name == title && forall k: Section :: !k.Unknown? ==> !Titled(title, TitleOf(k))
            else SectionName(line) == s <==> title == TitleOf(s) || (|title| > |TitleOf(s)| && title[..|TitleOf(s)| + 1] == TitleOf(s) + " ")
  {
    var title, found := Strip(line[3..]), SectionName(line);
    assert !found.Unknown? ==> Titled(title, TitleOf(found));
    if found.Unknown? {
      forall k: Section | !k.Unknown? ensures !Titled(title, TitleOf(k)) {
      }
    }
    if !s.Unknown? && Titled(title, TitleOf(s)) && !found.Unknown? {
      OneTitle(title, s, found);
    }
  }

  datatype Kind = Heading(section: Section) | Entry(row: Row) | Text(separator: bool)

  /** What an item of the file is. */
  function KindOf(item: Item): (k: Kind)
    ensures k.Entry? <==> item.TableRow?
    ensures k.Heading? <==> IsHeading(item)
  {
    match item
    case TableRow(cells, _) => Entry(ReadRow(cells))
    case Plain(line) => if StartsWith(line, "## ") then Heading(SectionName(line)) else Text(IsSeparator(line))
  }

  // ----- Rows in file order --------------------------------------------------------------

  function RowsFrom(items: seq<Item>, section: Section): seq<Placed>
    decreases |items|
  {
    if items == [] then []
    else
      match KindOf(items[0])
      case Heading(s) => RowsFrom(items[1..], s)
      case Entry(row) => [Placed(section, row)] + RowsFrom(items[1..], section)
      case Text(_) => RowsFrom(items[1..], section)
  }

  function SectionAfter(items: seq<Item>, section: Section): Section
    decreases |items|
  {
    if items == [] then section
    else SectionAfter(items[1..], if KindOf(items[0]).Heading? then KindOf(items[0]).section else section)
  }

  const NOWHERE := Unknown("")

  function Rows(items: seq<Item>): seq<Placed> { RowsFrom(items, NOWHERE) }

  lemma {:induction false} RowsAppend(a: seq<Item>, b: seq<Item>, section: Section)
    ensures RowsFrom(a + b, section) == RowsFrom(a, section) + RowsFrom(b, SectionAfter(a, section))
    ensures SectionAfter(a + b, section) == SectionAfter(b, SectionAfter(a, section))
    decreases |a|
  {
    hide KindOf;
    if a == [] {
      assert a + b == b;
    } else {
      assert (a + b)[0] == a[0] && (a + b)[1..] == a[1..] + b;
      RowsAppend(a[1..], b, if KindOf(a[0]).Heading? then KindOf(a[0]).section else section);
    }
  }

  /** `b` is `a` with `x` put in at `k`. */
  predicate InsertedAt(a: seq<Placed>, b: seq<Placed>, k: nat, x: Placed) { k <= |a| && b == a[..k] + [x] + a[k..] }

  predicate RemovedAt(a: seq<Placed>, b: seq<Placed>, k: nat) { k < |a| && b == a[..k] + a[k + 1..] }

  /** Where item `at` stands among the rows. */
  function Position(items: seq<Item>, at: nat): (k: nat)
    requires at <= |items|
  {
    |Rows(items[..at])|
  }

  lemma OneRow(item: Item, section: Section)
    requires KindOf(item).Entry?
    ensures RowsFrom([item], section) == [Placed(section, KindOf(item).row)] && SectionAfter([item], section) == section
  {
    assert [item][1..] == [];
  }

  lemma InsertRows(items: seq<Item>, at: nat, item: Item)
    requires at <= |items| && KindOf(item).Entry?
    ensures InsertedAt(Rows(items), Rows(items[..at] + [item] + items[at..]), Position(items, at),
                       Placed(SectionAfter(items[..at], NOWHERE), KindOf(item).row))
  {
    hide RowsFrom, SectionAfter, KindOf;
    var head, tail, section := items[..at], items[at..], SectionAfter(items[..at], NOWHERE);
    assert items == head + tail;
    RowsAppend(head, tail, NOWHERE);
    RowsAppend([item], tail, section);
    RowsAppend(head, [item] + tail, NOWHERE);
    OneRow(item, section);
    assert head + [item] + tail == head + ([item] + tail);
    var a := Rows(items);
    assert a[..|Rows(head)|] == Rows(head) && a[|Rows(head)|..] == RowsFrom(tail, section);
  }

  lemma RemoveRows(items: seq<Item>, at: nat)
    requires at < |items| && KindOf(items[at]).Entry?
    ensures var k := Position(items, at);
            && RemovedAt(Rows(items), Rows(items[..at] + items[at + 1..]), k)
            && Rows(items)[k] == Placed(SectionAfter(items[..at], NOWHERE), KindOf(items[at]).row)
  {
    hide RowsFrom, SectionAfter, KindOf;
    var head, tail, section := items[..at], items[at + 1..], SectionAfter(items[..at], NOWHERE);
    var one := [items[at]];
    assert items == head + (one + tail);
    RowsAppend(head, one + tail, NOWHERE);
    RowsAppend(one, tail, section);
    RowsAppend(head, tail, NOWHERE);
    OneRow(items[at], section);
    var a := Rows(items);
    assert a == Rows(head) + ([Placed(section, KindOf(items[at]).row)] + RowsFrom(tail, section));
  }

  lemma ReplaceRows(items: seq<Item>, at: nat, item: Item)
    requires at < |items| && KindOf(items[at]).Entry? && KindOf(item).Entry?
    ensures var k := Position(items, at);
            && k < |Rows(items)| && Rows(items)[k] == Placed(SectionAfter(items[..at], NOWHERE), KindOf(items[at]).row)
            && Rows(items[at := item]) == Rows(items)[k := Placed(SectionAfter(items[..at], NOWHERE), KindOf(item).row)]
  {
    hide RowsFrom, SectionAfter, KindOf;
    var head, tail, section := items[..at], items[at + 1..], SectionAfter(items[..at], NOWHERE);
    assert items == head + ([items[at]] + tail);
    assert items[at := item] == head + ([item] + tail);
    RowsAppend(head, [items[at]] + tail, NOWHERE);
    RowsAppend([items[at]], tail, section);
    RowsAppend(head, [item] + tail, NOWHERE);
    RowsAppend([item], tail, section);
    OneRow(items[at], section);
    OneRow(item, section);
  }

  // ----- Lint ----------------------------------------------------------------------------

  predicate Filed(section: Section, s: Status) { section == SectionOf(s) || (IsClosed(s) && section == Archive) }

  /** A row lint has nothing to say about. */
  predicate RowOk(p: Placed) { p.row.Row? && p.row.word.Is? && Filed(p.section, p.row.word.status) }

  /** Two rows lint lets stand beside each other. */
  predicate PairOk(a: Row, b: Row) {
    && !(NumberOf(a.id).Some? && a.id == b.id)
    && !(a.Row? && b.Row? && IsOpen(a) && IsOpen(b) && a.key.Some? && a.key == b.key)
  }

  predicate AllFiled(rows: seq<Placed>) { forall i :: 0 <= i < |rows| ==> RowOk(rows[i]) }

  predicate LintClean(rows: seq<Placed>) {
    && AllFiled(rows)
    && (forall i, j :: 0 <= i < j < |rows| ==> PairOk(rows[i].row, rows[j].row))
  }

  lemma RemoveFiled(a: seq<Placed>, b: seq<Placed>, k: nat)
    requires AllFiled(a) && RemovedAt(a, b, k)
    ensures AllFiled(b)
  {
    forall i | 0 <= i < |b| ensures RowOk(b[i]) {
      assert b[i] == if i < k then a[i] else a[i + 1];
    }
  }

  lemma InsertFiled(a: seq<Placed>, b: seq<Placed>, k: nat, x: Placed)
    requires AllFiled(a) && InsertedAt(a, b, k, x) && RowOk(x)
    ensures AllFiled(b)
  {
    forall i | 0 <= i < |b| ensures RowOk(b[i]) {
      assert b[i] == if i < k then a[i] else if i == k then x else a[i - 1];
    }
  }

  lemma RemoveClean(a: seq<Placed>, b: seq<Placed>, k: nat)
    requires LintClean(a) && RemovedAt(a, b, k)
    ensures LintClean(b)
  {
    forall i | 0 <= i < |b| ensures RowOk(b[i]) {
      assert b[i] == if i < k then a[i] else a[i + 1];
    }
    forall i, j | 0 <= i < j < |b| ensures PairOk(b[i].row, b[j].row) {
      assert b[i] == if i < k then a[i] else a[i + 1];
      assert b[j] == if j < k then a[j] else a[j + 1];
    }
  }

  lemma InsertClean(a: seq<Placed>, b: seq<Placed>, k: nat, x: Placed)
    requires LintClean(a) && InsertedAt(a, b, k, x) && RowOk(x)
    requires forall i :: 0 <= i < |a| ==> PairOk(a[i].row, x.row) && PairOk(x.row, a[i].row)
    ensures LintClean(b)
  {
    forall i | 0 <= i < |b| ensures RowOk(b[i]) {
      assert b[i] == if i < k then a[i] else if i == k then x else a[i - 1];
    }
    forall i, j | 0 <= i < j < |b| ensures PairOk(b[i].row, b[j].row) {
      assert b[i] == if i < k then a[i] else if i == k then x else a[i - 1];
      assert b[j] == if j < k then a[j] else if j == k then x else a[j - 1];
    }
  }

  lemma OthersPairOk(a: seq<Placed>, b: seq<Placed>, k: nat)
    requires LintClean(a) && RemovedAt(a, b, k)
    ensures forall i :: 0 <= i < |b| ==> PairOk(b[i].row, a[k].row) && PairOk(a[k].row, b[i].row)
  {
    forall i | 0 <= i < |b| ensures PairOk(b[i].row, a[k].row) && PairOk(a[k].row, b[i].row) {
      assert b[i] == if i < k then a[i] else a[i + 1];
      assert if i < k then PairOk(a[i].row, a[k].row) else PairOk(a[k].row, a[i + 1].row);
    }
  }

  // ----- The next row to build -----------------------------------------------------------

  /** The open rows in file order. */
  function OpenOf(rows: seq<Placed>): seq<Placed> {
    if rows == [] then []
    else (if IsOpen(rows[0].row) then [rows[0]] else []) + OpenOf(rows[1..])
  }

  lemma {:induction false} OpenOfAppend(a: seq<Placed>, b: seq<Placed>)
    ensures OpenOf(a + b) == OpenOf(a) + OpenOf(b)
  {
    hide IsOpen;
    if a == [] {
      assert a + b == b;
    } else {
      assert (a + b)[0] == a[0] && (a + b)[1..] == a[1..] + b;
      OpenOfAppend(a[1..], b);
      var first := if IsOpen(a[0].row) then [a[0]] else [];
      assert OpenOf(a + b) == first + OpenOf(a[1..] + b) && OpenOf(a) == first + OpenOf(a[1..]);
      hide OpenOf;
    }
  }

  lemma {:induction false} OpenOfMembers(rows: seq<Placed>, p: Placed)
    ensures p in OpenOf(rows) <==> p in rows && IsOpen(p.row)
  {
    if rows != [] {
      OpenOfMembers(rows[1..], p);
      assert rows == [rows[0]] + rows[1..];
    }
  }

  /** Some row of this ID stands abgeschlossen. */
  ghost predicate DoneIn(rows: seq<Placed>, id: string) {
    exists i :: 0 <= i < |rows| && rows[i].row.id == id && State(rows[i].row) == Some(Abgeschlossen)
  }

  ghost predicate Ready(r: Row, status: Status, rows: seq<Placed>, eligible: Row -> bool) {
    State(r) == Some(status) && (forall d :: d in r.deps ==> DoneIn(rows, d)) && eligible(r)
  }

  /** The first of the highest class among the ready rows of a part of the file. */
  ghost function Pick(part: seq<Placed>, status: Status, rows: seq<Placed>, eligible: Row -> bool): (r: Option<Row>)
    ensures r.Some? ==> Ready(r.value, status, rows, eligible)
  {
    if part == [] then None
    else
      var first, later := part[0].row, Pick(part[1..], status, rows, eligible);
      if Ready(first, status, rows, eligible) && (later.None? || first.rank <= later.value.rank) then Some(first) else later
  }

  /** cmd_next over all rows of the file. */
  ghost function Next(rows: seq<Placed>, status: Status, eligible: Row -> bool): Option<Row> {
    Pick(rows, status, rows, eligible)
  }

  /** Rows that are not open never are the next of an open status. */
  lemma {:induction false} PickAmongOpen(part: seq<Placed>, status: Status, rows: seq<Placed>, eligible: Row -> bool)
    requires !IsClosed(status)
    ensures Pick(part, status, rows, eligible) == Pick(OpenOf(part), status, rows, eligible)
  {
    if part != [] {
      PickAmongOpen(part[1..], status, rows, eligible);
      if IsOpen(part[0].row) {
        assert OpenOf(part)[1..] == OpenOf(part[1..]);
      } else {
        assert OpenOf(part) == OpenOf(part[1..]);
      }
    }
  }

  lemma {:induction false} PickSame(part: seq<Placed>, status: Status, a: seq<Placed>, b: seq<Placed>, eligible: Row -> bool)
    requires forall p, d :: p in part && p.row.Row? && d in p.row.deps ==> (DoneIn(a, d) <==> DoneIn(b, d))
    ensures Pick(part, status, a, eligible) == Pick(part, status, b, eligible)
  {
    if part != [] {
      PickSame(part[1..], status, a, b, eligible);
      assert part[0] in part;
    }
  }

  // ----- What a prune may do -------------------------------------------------------------

  /** The IDs the open rows depend on. */
  function Needed(rows: seq<Placed>): set<string> {
    set i, d | 0 <= i < |rows| && rows[i].row.Row? && IsOpen(rows[i].row) && d in rows[i].row.deps :: d
  }

  /** Open rows are as they were, and so is whether a row they need is done. */
  ghost predicate NextSafe(a: seq<Placed>, b: seq<Placed>, needed: set<string>) {
    OpenOf(a) == OpenOf(b) && forall d :: d in needed ==> (DoneIn(a, d) <==> DoneIn(b, d))
  }

  /** Then the next row of every open status is the same row. */
  lemma NextIsKept(a: seq<Placed>, b: seq<Placed>, status: Status, eligible: Row -> bool)
    requires NextSafe(a, b, Needed(a)) && !IsClosed(status)
    ensures Next(a, status, eligible) == Next(b, status, eligible)
  {
    PickAmongOpen(a, status, a, eligible);
    PickAmongOpen(b, status, b, eligible);
    forall p, d | p in OpenOf(a) && p.row.Row? && d in p.row.deps ensures DoneIn(a, d) <==> DoneIn(b, d) {
      OpenOfMembers(a, p);
      var i :| 0 <= i < |a| && a[i] == p;
      assert d in Needed(a);
    }
    PickSame(OpenOf(a), status, a, b, eligible);
  }

  lemma RemoveSafe(a: seq<Placed>, b: seq<Placed>, k: nat, needed: set<string>)
    requires RemovedAt(a, b, k) && !IsOpen(a[k].row) && a[k].row.id !in needed
    ensures NextSafe(a, b, needed)
  {
    assert a == a[..k] + ([a[k]] + a[k + 1..]);
    OpenOfAppend(a[..k], [a[k]] + a[k + 1..]);
    OpenOfAppend([a[k]], a[k + 1..]);
    OpenOfAppend(a[..k], a[k + 1..]);
    forall d | d in needed ensures DoneIn(a, d) <==> DoneIn(b, d) {
      RemoveDone(a, b, k, d);
    }
  }

  lemma RemoveDone(a: seq<Placed>, b: seq<Placed>, k: nat, d: string)
    requires RemovedAt(a, b, k)
    ensures DoneIn(b, d) ==> DoneIn(a, d)
    ensures DoneIn(a, d) ==> DoneIn(b, d) || (a[k].row.id == d && State(a[k].row) == Some(Abgeschlossen))
  {
    if DoneIn(b, d) {
      var i :| 0 <= i < |b| && b[i].row.id == d && State(b[i].row) == Some(Abgeschlossen);
      assert b[i] == a[if i < k then i else i + 1];
    }
    if DoneIn(a, d) {
      var i :| 0 <= i < |a| && a[i].row.id == d && State(a[i].row) == Some(Abgeschlossen);
      if i != k {
        assert b[if i < k then i else i - 1] == a[i];
      }
    }
  }

  /** A closed row that only moves changes nothing either. */
  lemma MoveSafe(a: seq<Placed>, b: seq<Placed>, c: seq<Placed>, k: nat, j: nat, x: Placed, needed: set<string>)
    requires RemovedAt(a, b, k) && InsertedAt(b, c, j, x) && x.row == a[k].row && !IsOpen(x.row)
    ensures NextSafe(a, c, needed)
  {
    RemoveSafe(a, b, k, {});
    assert RemovedAt(c, b, j) by {
      assert c[..j] == b[..j] && c[j + 1..] == b[j..] && b == b[..j] + b[j..];
    }
    RemoveSafe(c, b, j, {});
    forall d | d in needed ensures DoneIn(a, d) <==> DoneIn(c, d) {
      RemoveDone(a, b, k, d);
      RemoveDone(c, b, j, d);
      assert c[j] == x;
    }
  }

  lemma SafeTrans(a: seq<Placed>, b: seq<Placed>, c: seq<Placed>, needed: set<string>)
    requires NextSafe(a, b, needed) && NextSafe(b, c, needed)
    ensures NextSafe(a, c, needed)
  {
  }
}
