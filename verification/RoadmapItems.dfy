/** Rows and sections of the roadmap under the changes its verbs make (scripts/dev/roadmap.py). */
module RoadmapItems {
  import opened Common
  import opened RoadmapCells
  import opened RoadmapFile
  import opened RoadmapRows

  ghost predicate HasSection(items: seq<Item>, section: Section) { exists i :: 0 <= i < |items| && KindOf(items[i]) == Heading(section) }

  /** All sections the verbs file rows in. */
  ghost predicate AllSections(items: seq<Item>) {
    forall s: Section :: !s.NextUp? && !s.Unknown? ==> HasSection(items, s)
  }

  lemma {:induction false} NoHeadingSame(items: seq<Item>, section: Section)
    requires forall i :: 0 <= i < |items| ==> !KindOf(items[i]).Heading?
    ensures SectionAfter(items, section) == section
  {
    if items != [] {
      NoHeadingSame(items[1..], section);
    }
  }

  lemma InBounds(items: seq<Item>, start: nat, at: nat)
    requires start < at <= |items| && KindOf(items[start]).Heading? && forall i :: start < i < at ==> !KindOf(items[i]).Heading?
    ensures SectionAfter(items[..at], NOWHERE) == KindOf(items[start]).section
  {
    var head, one, tail := items[..start], [items[start]], items[start + 1..at];
    assert items[..at] == head + (one + tail);
    RowsAppend(head, one + tail, NOWHERE);
    RowsAppend(one, tail, SectionAfter(head, NOWHERE));
    assert one[1..] == [];
    NoHeadingSame(tail, KindOf(items[start]).section);
  }

  lemma TextRows(items: seq<Item>, at: nat, lines: seq<Item>)
    requires at <= |items| && forall i :: 0 <= i < |lines| ==> KindOf(lines[i]).Text?
    ensures Rows(items[..at] + lines + items[at..]) == Rows(items)
  {
    var head, tail, section := items[..at], items[at..], SectionAfter(items[..at], NOWHERE);
    assert items == head + tail && head + lines + tail == head + (lines + tail);
    RowsAppend(head, tail, NOWHERE);
    RowsAppend(head, lines + tail, NOWHERE);
    RowsAppend(lines, tail, section);
    NoHeadingSame(lines, section);
    NoRows(lines, section);
  }

  lemma {:induction false} NoRows(items: seq<Item>, section: Section)
    requires forall i :: 0 <= i < |items| ==> KindOf(items[i]).Text?
    ensures RowsFrom(items, section) == []
  {
    if items != [] {
      NoRows(items[1..], section);
    }
  }

  /** [start, end) is the section: its heading, up to the next one. */
  ghost predicate Bounds(items: seq<Item>, name: Section, start: nat, end: nat) {
    && start < end <= |items| && KindOf(items[start]) == Heading(name)
    && (forall i :: start < i < end ==> !KindOf(items[i]).Heading?) && (end < |items| ==> KindOf(items[end]).Heading?)
  }

  /** Before the first row of the section, or behind its last. */
  ghost predicate AtEdge(items: seq<Item>, name: Section, top: bool, k: nat) {
    exists start: nat, end: nat :: Bounds(items, name, start, end) && k == Position(items, if top then start + 1 else end)
  }

  /** No row between two places: as many rows before the one as before the other. */
  lemma SamePlace(items: seq<Item>, a: nat, b: nat)
    requires a <= b <= |items| && forall i :: a <= i < b ==> !KindOf(items[i]).Entry?
    ensures Position(items, a) == Position(items, b)
  {
    assert items[..b] == items[..a] + items[a..b];
    RowsAppend(items[..a], items[a..b], NOWHERE);
    NoEntries(items[a..b], SectionAfter(items[..a], NOWHERE));
  }

  lemma {:induction false} NoEntries(items: seq<Item>, section: Section)
    requires forall i :: 0 <= i < |items| ==> !KindOf(items[i]).Entry?
    ensures RowsFrom(items, section) == []
  {
    if items != [] {
      NoEntries(items[1..], if KindOf(items[0]).Heading? then KindOf(items[0]).section else section);
    }
  }

  /** Two lines, neither a heading nor a row. */
  predicate TwoLines(table: seq<Item>) { |table| == 2 && KindOf(table[0]).Text? && KindOf(table[1]).Text? }

  lemma TablePlace(items: seq<Item>, start: nat, table: seq<Item>)
    requires start < |items| && TwoLines(table)
    ensures Position(items[..start + 1] + table + items[start + 1..], start + 3) == Position(items, start + 1)
  {
    var more := items[..start + 1] + table + items[start + 1..];
    assert more[..start + 3] == items[..start + 1] + table;
    RowsAppend(items[..start + 1], table, NOWHERE);
    NoRows(table, SectionAfter(items[..start + 1], NOWHERE));
  }

  lemma StillThere(a: seq<Placed>, b: seq<Placed>, p: Placed, needed: set<string>)
    requires NextSafe(a, b, needed) && p in a && IsOpen(p.row)
    ensures p in b
  {
    OpenOfMembers(a, p);
    OpenOfMembers(b, p);
  }

  lemma InsertedIsIn(a: seq<Placed>, b: seq<Placed>, k: nat, x: Placed)
    requires InsertedAt(a, b, k, x)
    ensures x in b
  {
    assert b[k] == x;
  }

  lemma NobodyInNextUp(rows: seq<Placed>)
    requires AllFiled(rows)
    ensures forall p :: p in rows ==> p.section != NextUp
  {
    forall p | p in rows ensures p.section != NextUp {
      var i :| 0 <= i < |rows| && rows[i] == p;
      assert RowOk(rows[i]);
    }
  }

  lemma HighestCovers(items: seq<Item>, p: Placed, n: nat)
    requires p in Rows(items) && NumberOf(p.row.id).Some?
    requires forall i :: 0 <= i < |items| && KindOf(items[i]).Entry? && NumberOf(KindOf(items[i]).row.id).Some? ==> NumberOf(KindOf(items[i]).row.id).value <= n
    ensures NumberOf(p.row.id).value <= n
  {
    var k :| 0 <= k < |Rows(items)| && Rows(items)[k] == p;
    var i := RowsAreItems(items, NOWHERE, k);
  }

  lemma TableKeepsSections(items: seq<Item>, start: nat, table: seq<Item>)
    requires start < |items| && TwoLines(table)
    ensures var more := items[..start + 1] + table + items[start + 1..];
            && (forall s :: HasSection(items, s) ==> HasSection(more, s))
            && more[start] == items[start] && !KindOf(more[start + 1]).Heading? && !KindOf(more[start + 2]).Heading?
  {
    var more := items[..start + 1] + table + items[start + 1..];
    forall s | HasSection(items, s) ensures HasSection(more, s) {
      var i :| 0 <= i < |items| && KindOf(items[i]) == Heading(s);
      assert KindOf(more[if i <= start then i else i + 2]) == Heading(s);
    }
  }

  lemma InsertKeepsSections(items: seq<Item>, at: nat, item: Item)
    requires at <= |items|
    ensures forall s :: HasSection(items, s) ==> HasSection(items[..at] + [item] + items[at..], s)
  {
    var more := items[..at] + [item] + items[at..];
    forall s | HasSection(items, s) ensures HasSection(more, s) {
      var i :| 0 <= i < |items| && KindOf(items[i]) == Heading(s);
      assert KindOf(more[if i < at then i else i + 1]) == Heading(s);
    }
  }

  lemma RemoveKeepsSections(items: seq<Item>, at: nat)
    requires at < |items| && !KindOf(items[at]).Heading?
    ensures forall s :: HasSection(items, s) <==> HasSection(items[..at] + items[at + 1..], s)
  {
    hide KindOf;
    var less := items[..at] + items[at + 1..];
    forall s | HasSection(items, s) ensures HasSection(less, s) {
      var i :| 0 <= i < |items| && KindOf(items[i]) == Heading(s);
      assert KindOf(less[if i < at then i else i - 1]) == Heading(s);
    }
    forall s | HasSection(less, s) ensures HasSection(items, s) {
      var i :| 0 <= i < |less| && KindOf(less[i]) == Heading(s);
      assert KindOf(items[if i < at then i else i + 1]) == Heading(s);
    }
  }

  lemma ReplaceKeepsSections(items: seq<Item>, at: nat, item: Item)
    requires at < |items| && !KindOf(items[at]).Heading? && !KindOf(item).Heading?
    ensures forall s :: HasSection(items, s) <==> HasSection(items[at := item], s)
  {
    hide KindOf;
    var more := items[at := item];
    forall s | HasSection(more, s) ensures HasSection(items, s) {
      var i :| 0 <= i < |more| && KindOf(more[i]) == Heading(s);
      assert KindOf(items[i]) == Heading(s);
    }
    forall s | HasSection(items, s) ensures HasSection(more, s) {
      var i :| 0 <= i < |items| && KindOf(items[i]) == Heading(s);
      assert KindOf(more[i]) == Heading(s);
    }
  }

  lemma ReplaceIsMove(a: seq<Placed>, k: nat, x: Placed)
    requires k < |a|
    ensures RemovedAt(a, a[..k] + a[k + 1..], k) && InsertedAt(a[..k] + a[k + 1..], a[k := x], k, x)
  {
    var mid := a[..k] + a[k + 1..];
    assert mid[..k] == a[..k] && mid[k..] == a[k + 1..];
  }

  /** Taking the changed row out leaves what taking the old one out would. */
  lemma SamePosition(items: seq<Item>, at: nat, item: Item)
    requires at < |items| && KindOf(items[at]).Entry?
    ensures var k := Position(items, at);
            RemovedAt(Rows(items), Rows(items[at := item][..at] + items[at := item][at + 1..]), k)
  {
    RemoveRows(items, at);
    assert items[at := item][..at] == items[..at] && items[at := item][at + 1..] == items[at + 1..];
  }

  predicate IdsBelow(rows: seq<Placed>, n: nat) {
    forall i :: 0 <= i < |rows| && NumberOf(rows[i].row.id).Some? ==> NumberOf(rows[i].row.id).value < n
  }

  predicate KeyFree(rows: seq<Placed>, key: Option<string>) {
    key.Some? ==> forall i :: 0 <= i < |rows| && rows[i].row.Row? && IsOpen(rows[i].row) ==> rows[i].row.key != key
  }

  /** The ID of the first open row that carries a key. */
  function Owner(rows: seq<Placed>, key: string): Option<string> {
    if rows == [] then None
    else if rows[0].row.Row? && IsOpen(rows[0].row) && rows[0].row.key == Some(key) then Some(rows[0].row.id)
    else Owner(rows[1..], key)
  }

  /** What add asks: an owner without an ID does not count. */
  predicate Taken(rows: seq<Placed>, key: Option<string>) {
    key.Some? && Owner(rows, key.value).Some? && Owner(rows, key.value).value != ""
  }

  lemma {:induction false} OwnedOrFree(rows: seq<Placed>, key: string)
    ensures KeyFree(rows, Some(key)) <==> Owner(rows, key).None?
  {
    if rows != [] {
      OwnedOrFree(rows[1..], key);
      assert KeyFree(rows[1..], Some(key)) <==> forall i :: 1 <= i < |rows| && rows[i].row.Row? && IsOpen(rows[i].row) ==> rows[i].row.key != Some(key) by {
        if KeyFree(rows[1..], Some(key)) {
          forall i | 1 <= i < |rows| && rows[i].row.Row? && IsOpen(rows[i].row) ensures rows[i].row.key != Some(key) {
            assert rows[1..][i - 1] == rows[i];
          }
        }
      }
    }
  }

  /** A key is refused exactly when an open row has it, unless the first such row has an empty ID. */
  lemma NamelessOwnerIsOverlooked(rows: seq<Placed>, key: string)
    ensures (Taken(rows, Some(key)) <==> !KeyFree(rows, Some(key))) <==> Owner(rows, key) != Some("")
  {
    OwnedOrFree(rows, key);
  }

  /** The item a row was read from. */
  lemma {:induction false} RowsAreItems(items: seq<Item>, section: Section, k: nat) returns (i: nat)
    requires k < |RowsFrom(items, section)|
    ensures i < |items| && KindOf(items[i]) == Entry(RowsFrom(items, section)[k].row)
    ensures SectionAfter(items[..i], section) == RowsFrom(items, section)[k].section
    decreases |items|
  {
    if KindOf(items[0]).Entry? && k == 0 {
      i := 0;
    } else {
      var next := if KindOf(items[0]).Heading? then KindOf(items[0]).section else section;
      var j := RowsAreItems(items[1..], next, if KindOf(items[0]).Entry? then k - 1 else k);
      i := j + 1;
      assert items[..i][1..] == items[1..][..j];
    }
  }

  lemma HighestOfRows(items: seq<Item>, n: nat)
    requires forall i :: 0 <= i < |items| && KindOf(items[i]).Entry? && NumberOf(KindOf(items[i]).row.id).Some? ==> NumberOf(KindOf(items[i]).row.id).value <= n
    ensures IdsBelow(Rows(items), n + 1)
  {
    forall k | 0 <= k < |Rows(items)| && NumberOf(Rows(items)[k].row.id).Some? ensures NumberOf(Rows(items)[k].row.id).value < n + 1 {
      var i := RowsAreItems(items, NOWHERE, k);
    }
  }

  // ----- Pruning -------------------------------------------------------------------------

  /** Closed more than KEEP_CLOSED_DAYS ago. */
  predicate Past(row: Row, today: int) { ClosedRow(row) && row.day.Some? && today - row.day.value > KEEP_CLOSED_DAYS }

  predicate ToArchive(p: Placed, needed: set<string>, today: int) {
    Past(p.row, today) && p.row.id in needed && p.section != Archive
  }

  predicate Gone(row: Row, needed: set<string>, today: int) { Past(row, today) && row.id !in needed }

  predicate NobodyGone(rows: seq<Placed>, needed: set<string>, today: int) {
    forall i :: 0 <= i < |rows| ==> !Gone(rows[i].row, needed, today)
  }

  predicate NobodyToArchive(rows: seq<Placed>, needed: set<string>, today: int) {
    forall i :: 0 <= i < |rows| ==> !ToArchive(rows[i], needed, today)
  }

  /** A row still within its days stands where it stood; one that is needed stands somewhere. */
  ghost predicate Stayed(a: seq<Placed>, b: seq<Placed>, needed: set<string>, today: int) {
    && (forall p :: p in a && !Past(p.row, today) ==> p in b)
    && (forall p :: p in a && p.row.id in needed ==> exists q :: q in b && q.row == p.row)
  }

  /** What is left of the closed rows past their days is needed and in the archive; nothing else was touched. */
  ghost predicate Pruned(a: seq<Placed>, b: seq<Placed>, needed: set<string>, today: int) {
    Stayed(a, b, needed, today) && forall p :: p in b && Past(p.row, today) ==> p.row.id in needed && p.section == Archive
  }

  lemma NoneGone(items: seq<Item>, needed: set<string>, today: int)
    requires forall x :: 0 <= x < |items| && KindOf(items[x]).Entry? ==> !Gone(KindOf(items[x]).row, needed, today)
    ensures NobodyGone(Rows(items), needed, today)
  {
    forall k | 0 <= k < |Rows(items)| ensures !Gone(Rows(items)[k].row, needed, today) {
      var i := RowsAreItems(items, NOWHERE, k);
    }
  }

  lemma NoneToArchive(items: seq<Item>, needed: set<string>, today: int)
    requires forall x :: 0 <= x < |items| && KindOf(items[x]).Entry? ==>
               !ToArchive(Placed(SectionAfter(items[..x], NOWHERE), KindOf(items[x]).row), needed, today)
    ensures NobodyToArchive(Rows(items), needed, today)
  {
    forall k | 0 <= k < |Rows(items)| ensures !ToArchive(Rows(items)[k], needed, today) {
      var i := RowsAreItems(items, NOWHERE, k);
    }
  }

  lemma SafeRefl(rows: seq<Placed>, needed: set<string>)
    ensures NextSafe(rows, rows, needed)
  {
  }

  lemma RemovedStays(b: seq<Placed>, c: seq<Placed>, k: nat, p: Placed)
    requires RemovedAt(b, c, k) && p in b && p != b[k]
    ensures p in c
  {
    var i :| 0 <= i < |b| && b[i] == p;
    assert c[if i < k then i else i - 1] == p;
  }

  lemma GoneStep(a: seq<Placed>, b: seq<Placed>, c: seq<Placed>, k: nat, needed: set<string>, today: int)
    requires RemovedAt(b, c, k) && Gone(b[k].row, needed, today) && NextSafe(a, b, needed) && Stayed(a, b, needed, today)
    ensures NextSafe(a, c, needed) && Stayed(a, c, needed, today) && |c| + 1 == |b| && (LintClean(b) ==> LintClean(c))
    ensures AllFiled(b) ==> AllFiled(c)
  {
    if AllFiled(b) {
      RemoveFiled(b, c, k);
    }
    RemoveSafe(b, c, k, needed);
    SafeTrans(a, b, c, needed);
    if LintClean(b) {
      RemoveClean(b, c, k);
    }
    forall p | p in a && !Past(p.row, today) ensures p in c {
      RemovedStays(b, c, k, p);
    }
    forall p | p in a && p.row.id in needed ensures exists q :: q in c && q.row == p.row {
      var q :| q in b && q.row == p.row;
      RemovedStays(b, c, k, q);
    }
  }

  lemma InsertedStays(b: seq<Placed>, c: seq<Placed>, j: nat, x: Placed, p: Placed)
    requires InsertedAt(b, c, j, x) && p in b
    ensures p in c
  {
    var i :| 0 <= i < |b| && b[i] == p;
    assert c[if i < j then i else i + 1] == p;
  }

  lemma MovedStep(a: seq<Placed>, b: seq<Placed>, mid: seq<Placed>, c: seq<Placed>, k: nat, j: nat, needed: set<string>, today: int)
    requires RemovedAt(b, mid, k) && ToArchive(b[k], needed, today) && InsertedAt(mid, c, j, Placed(Archive, b[k].row))
    requires Stayed(a, b, needed, today) && NobodyGone(b, needed, today)
    ensures Stayed(a, c, needed, today) && NobodyGone(c, needed, today)
  {
    var x := Placed(Archive, b[k].row);
    forall p | p in a && !Past(p.row, today) ensures p in c {
      RemovedStays(b, mid, k, p);
      InsertedStays(mid, c, j, x, p);
    }
    forall p | p in a && p.row.id in needed ensures exists q :: q in c && q.row == p.row {
      var q :| q in b && q.row == p.row;
      if q == b[k] {
        InsertedIsIn(mid, c, j, x);
      } else {
        RemovedStays(b, mid, k, q);
        InsertedStays(mid, c, j, x, q);
      }
    }
    forall i | 0 <= i < |c| ensures !Gone(c[i].row, needed, today) {
      if i != j {
        var m := if i < j then i else i - 1;
        assert c[i] == mid[m] == b[if m < k then m else m + 1];
      }
    }
  }

  function CountToArchive(rows: seq<Placed>, needed: set<string>, today: int): nat {
    if rows == [] then 0 else (if ToArchive(rows[0], needed, today) then 1 else 0) + CountToArchive(rows[1..], needed, today)
  }

  lemma {:induction false} CountAppend(a: seq<Placed>, b: seq<Placed>, needed: set<string>, today: int)
    ensures CountToArchive(a + b, needed, today) == CountToArchive(a, needed, today) + CountToArchive(b, needed, today)
  {
    if a == [] {
      assert a + b == b;
    } else {
      assert (a + b)[0] == a[0] && (a + b)[1..] == a[1..] + b;
      CountAppend(a[1..], b, needed, today);
    }
  }

  lemma CountOne(p: Placed, needed: set<string>, today: int)
    ensures CountToArchive([p], needed, today) == if ToArchive(p, needed, today) then 1 else 0
  {
    assert [p][1..] == [];
  }

  lemma CountMove(a: seq<Placed>, b: seq<Placed>, c: seq<Placed>, k: nat, j: nat, x: Placed, needed: set<string>, today: int)
    requires RemovedAt(a, b, k) && InsertedAt(b, c, j, x) && ToArchive(a[k], needed, today) && !ToArchive(x, needed, today)
    ensures CountToArchive(c, needed, today) < CountToArchive(a, needed, today)
  {
    assert a == a[..k] + ([a[k]] + a[k + 1..]);
    CountAppend(a[..k], [a[k]] + a[k + 1..], needed, today);
    CountAppend([a[k]], a[k + 1..], needed, today);
    CountAppend(a[..k], a[k + 1..], needed, today);
    assert b == b[..j] + b[j..] && c == b[..j] + ([x] + b[j..]);
    CountAppend(b[..j], b[j..], needed, today);
    CountAppend(b[..j], [x] + b[j..], needed, today);
    CountAppend([x], b[j..], needed, today);
    CountOne(a[k], needed, today);
    CountOne(x, needed, today);
  }

  /** One row to the archive: lint stays content, next stays the same, one fewer is left. */
  lemma ArchiveStep(a: seq<Placed>, b: seq<Placed>, c: seq<Placed>, k: nat, j: nat, needed: set<string>, today: int)
    requires RemovedAt(a, b, k) && ToArchive(a[k], needed, today) && InsertedAt(b, c, j, Placed(Archive, a[k].row))
    ensures NextSafe(a, c, needed) && |c| == |a| && CountToArchive(c, needed, today) < CountToArchive(a, needed, today)
    ensures LintClean(a) ==> LintClean(c)
    ensures AllFiled(a) ==> AllFiled(c)
  {
    var x := Placed(Archive, a[k].row);
    if AllFiled(a) {
      RemoveFiled(a, b, k);
      InsertFiled(b, c, j, x);
    }
    MoveSafe(a, b, c, k, j, x, needed);
    CountMove(a, b, c, k, j, x, needed, today);
    if LintClean(a) {
      RemoveClean(a, b, k);
      OthersPairOk(a, b, k);
      InsertClean(b, c, j, x);
    }
  }

  lemma SectionStep(items: seq<Item>, i: nat)
    requires i < |items|
    ensures SectionAfter(items[..i + 1], NOWHERE)
         == if KindOf(items[i]).Heading? then KindOf(items[i]).section else SectionAfter(items[..i], NOWHERE)
  {
    assert items[..i + 1] == items[..i] + [items[i]];
    RowsAppend(items[..i], [items[i]], NOWHERE);
    assert [items[i]][1..] == [];
  }

  lemma {:induction false} RowsAllIn(items: seq<Item>, section: Section)
    requires forall i :: 0 <= i < |items| ==> !KindOf(items[i]).Heading?
    ensures forall p :: p in RowsFrom(items, section) ==> p.section == section
  {
    if items != [] {
      RowsAllIn(items[1..], section);
    }
  }

  lemma NextUpRows(items: seq<Item>, start: nat, end: nat, lines: seq<Item>)
    requires start < end <= |items| && KindOf(items[start]) == Heading(NextUp) && (forall i :: start < i < end ==> !KindOf(items[i]).Heading?)
    requires (end < |items| ==> KindOf(items[end]).Heading?) && forall i :: 0 <= i < |lines| ==> KindOf(lines[i]).Text?
    ensures var more := items[..start + 1] + lines + items[end..];
            && (forall p :: p in Rows(items) && p.section != NextUp ==> p in Rows(more))
            && ((forall p :: p in Rows(items) ==> p.section != NextUp) ==> Rows(more) == Rows(items))
  {
    hide RowsFrom, SectionAfter, KindOf;
    var head, middle, tail := items[..start + 1], items[start + 1..end], items[end..];
    assert items[start + 1..] == middle + tail;
    assert items == head + items[start + 1..];
    assert head + lines + tail == head + (lines + tail);
    InBounds(items, start, start + 1);
    RowsAppend(head, middle + tail, NOWHERE);
    RowsAppend(head, lines + tail, NOWHERE);
    RowsAppend(middle, tail, NextUp);
    RowsAppend(lines, tail, NextUp);
    NoHeadingSame(middle, NextUp);
    NoHeadingSame(lines, NextUp);
    NoRows(lines, NextUp);
    RowsAllIn(middle, NextUp);
    var inside := RowsFrom(middle, NextUp);
    var outside := RowsFrom(tail, SectionAfter(middle, NextUp));
    assert Rows(items) == Rows(head) + (inside + outside);
    assert Rows(head + lines + tail) == Rows(head) + outside;
    hide Rows;
    forall p | p in inside ensures p in Rows(items) {
    }
    assert inside != [] ==> inside[0] in inside;
  }

  // ----- Lint stays content --------------------------------------------------------------

  lemma StatusKeepsClean(a: seq<Placed>, mid: seq<Placed>, b: seq<Placed>, k: nat, j: nat, x: Placed)
    requires LintClean(a) && RemovedAt(a, mid, k) && InsertedAt(mid, b, j, x) && RowOk(x)
    requires x.row.id == a[k].row.id && x.row.key == a[k].row.key && (IsOpen(x.row) ==> IsOpen(a[k].row))
    ensures LintClean(b) && |b| == |a|
  {
    RemoveClean(a, mid, k);
    OthersPairOk(a, mid, k);
    InsertClean(mid, b, j, x);
  }

  lemma AddKeepsClean(a: seq<Placed>, b: seq<Placed>, k: nat, row: Row, n: nat)
    requires LintClean(a) && InsertedAt(a, b, k, Placed(Fresh, row)) && row.Row? && NumberOf(row.id) == Some(n) && row.word == Is(Neu)
    requires IdsBelow(a, n)
    ensures AllFiled(b) && |b| == |a| + 1 && (KeyFree(a, row.key) ==> LintClean(b))
  {
    InsertFiled(a, b, k, Placed(Fresh, row));
    if !KeyFree(a, row.key) {
      return;
    }
    forall i | 0 <= i < |a| ensures PairOk(a[i].row, row) && PairOk(row, a[i].row) {
      assert RowOk(a[i]);
    }
    InsertClean(a, b, k, Placed(Fresh, row));
  }

  /** Two open rows of one key, wherever they stand, are a finding. */
  lemma SameKeyIsAFinding(rows: seq<Placed>, p: Placed, q: Placed)
    requires p in rows && q in rows && p != q && p.row.Row? && q.row.Row? && IsOpen(p.row) && IsOpen(q.row)
    requires p.row.key.Some? && p.row.key == q.row.key
    ensures !LintClean(rows)
  {
    var i :| 0 <= i < |rows| && rows[i] == p;
    var j :| 0 <= j < |rows| && rows[j] == q;
    assert if i < j then !PairOk(rows[i].row, rows[j].row) else !PairOk(rows[j].row, rows[i].row);
  }
}
