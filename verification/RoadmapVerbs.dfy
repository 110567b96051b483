/** The verbs of the roadmap: they change the items in place, then prune (scripts/dev/roadmap.py). */
module RoadmapVerbs {
  import opened Common
  import opened Calendar
  import opened RoadmapText
  import opened RoadmapCells
  import opened RoadmapFile
  import opened RoadmapRows
  import opened RoadmapHeadings
  import opened RoadmapItems
  import opened RoadmapCellsWritten

  datatype Refusal =
    | Usage | NoSection | NoRow | Ambiguous | WrongColumns | UnknownStatus | NoTransition | WrongStatus | Duplicate | TooLate | CountWrong

  /** Why no row of an ID is found. */
  ghost predicate FindRefused(items: seq<Item>, id: string, why: Refusal) {
    match why
    case NoRow => forall i :: 0 <= i < |items| ==> !HasId(items[i], id)
    case Ambiguous => exists i, j :: 0 <= i < j < |items| && HasId(items[i], id) && HasId(items[j], id)
    case WrongColumns => exists i: nat :: TheRow(items, id, i) && KindOf(items[i]).row.Bad?
    case _ => false
  }

  /** The one row of an ID. */
  ghost predicate TheRow(items: seq<Item>, id: string, at: nat) {
    at < |items| && HasId(items[at], id) && forall i :: 0 <= i < |items| && HasId(items[i], id) ==> i == at
  }

  /** A row of ten columns, by its ID. */
  ghost predicate Hit(items: seq<Item>, id: string, at: nat) { TheRow(items, id, at) && KindOf(items[at]).row.Row? }

  /** The row stands where its status belongs, or the section of it exists. */
  ghost predicate Housed(items: seq<Item>, at: nat, next: Status, confirms: bool)
    requires at < |items|
  {
    var section := SectionAfter(items[..at], NOWHERE);
    section == SectionOf(next) || (confirms && section == Archive) || HasSection(items, SectionOf(next))
  }

  predicate Confirms(row: Row, next: Status) { Some(next) == State(row) && IsClosed(next) }

  ghost predicate StatusAccepted(items: seq<Item>, id: string, next: Status, at: nat) {
    Hit(items, id, at) && Legal(KindOf(items[at]).row, next) && Housed(items, at, next, Confirms(KindOf(items[at]).row, next))
  }

  /** Why a status is not set; each reason shuts out the others. */
  ghost predicate StatusRefused(items: seq<Item>, id: string, next: Status, why: Refusal) {
    match why
    case UnknownStatus => exists at: nat :: Hit(items, id, at) && State(KindOf(items[at]).row).None?
    case NoTransition => exists at: nat :: Hit(items, id, at) && State(KindOf(items[at]).row).Some? && !Legal(KindOf(items[at]).row, next)
    case NoSection =>
      exists at: nat :: Hit(items, id, at) && Legal(KindOf(items[at]).row, next) && !Housed(items, at, next, Confirms(KindOf(items[at]).row, next))
    case _ => FindRefused(items, id, why)
  }

  function Waiting(revoke: bool): Status { if revoke then Freigegeben else Geplant }

  function Granted(revoke: bool): Status { if revoke then Geplant else Freigegeben }

  ghost predicate ApproveAccepted(items: seq<Item>, id: string, revoke: bool, at: nat) {
    Hit(items, id, at) && State(KindOf(items[at]).row) == Some(Waiting(revoke)) && Housed(items, at, Granted(revoke), false)
  }

  ghost predicate ApproveRefused(items: seq<Item>, id: string, revoke: bool, why: Refusal) {
    match why
    case WrongStatus => exists at: nat :: Hit(items, id, at) && State(KindOf(items[at]).row) != Some(Waiting(revoke))
    case NoSection =>
      exists at: nat :: Hit(items, id, at) && State(KindOf(items[at]).row) == Some(Waiting(revoke)) && !Housed(items, at, Granted(revoke), false)
    case _ => FindRefused(items, id, why)
  }

  lemma HitIs(items: seq<Item>, id: string, at: nat)
    requires Hit(items, id, at)
    ensures at < |items| && items[at].TableRow? && KindOf(items[at]).Entry? && KindOf(items[at]).row.Row? && KindOf(items[at]).row.id == id
  {
    hide ReadRow;
  }

  lemma StatusVerdict(items: seq<Item>, id: string, next: Status, at: nat)
    requires Hit(items, id, at)
    ensures var row := KindOf(items[at]).row;
            && ((exists i: nat :: StatusAccepted(items, id, next, i)) <==> Legal(row, next) && Housed(items, at, next, Confirms(row, next)))
            && (State(row).None? ==> StatusRefused(items, id, next, UnknownStatus) && !Legal(row, next))
            && (State(row).Some? && !Legal(row, next) ==> StatusRefused(items, id, next, NoTransition))
            && (Legal(row, next) && !Housed(items, at, next, Confirms(row, next)) ==> StatusRefused(items, id, next, NoSection))
  {
    hide KindOf, Housed, Transitions, Confirms;
    assert forall i: nat :: Hit(items, id, i) ==> i == at;
    hide Hit;
    if Legal(KindOf(items[at]).row, next) && Housed(items, at, next, Confirms(KindOf(items[at]).row, next)) {
      assert StatusAccepted(items, id, next, at);
    }
  }

  lemma ApproveVerdict(items: seq<Item>, id: string, revoke: bool, at: nat)
    requires Hit(items, id, at)
    ensures var waits := State(KindOf(items[at]).row) == Some(Waiting(revoke));
            && ((exists i: nat :: ApproveAccepted(items, id, revoke, i)) <==> waits && Housed(items, at, Granted(revoke), false))
            && (!waits ==> ApproveRefused(items, id, revoke, WrongStatus))
            && (waits && !Housed(items, at, Granted(revoke), false) ==> ApproveRefused(items, id, revoke, NoSection))
  {
    hide KindOf, Housed, State;
    assert forall i: nat :: Hit(items, id, i) ==> i == at;
    hide Hit;
    if State(KindOf(items[at]).row) == Some(Waiting(revoke)) && Housed(items, at, Granted(revoke), false) {
      assert ApproveAccepted(items, id, revoke, at);
    }
  }

  lemma NothingAccepted(items: seq<Item>, id: string, next: Status, why: Refusal)
    requires FindRefused(items, id, why)
    ensures StatusRefused(items, id, next, why) && !exists at: nat :: StatusAccepted(items, id, next, at)
  {
    hide KindOf, Housed, Legal;
    forall at: nat ensures !StatusAccepted(items, id, next, at) {
      RefusedIsNoHit(items, id, why, at);
    }
  }

  lemma NothingApproved(items: seq<Item>, id: string, revoke: bool, why: Refusal)
    requires FindRefused(items, id, why)
    ensures ApproveRefused(items, id, revoke, why) && !exists at: nat :: ApproveAccepted(items, id, revoke, at)
  {
    hide KindOf, Housed;
    forall at: nat ensures !ApproveAccepted(items, id, revoke, at) {
      RefusedIsNoHit(items, id, why, at);
    }
  }

  /** In a file with all its sections a status is never refused for one. */
  lemma NeverForASection(items: seq<Item>, id: string, next: Status, why: Refusal)
    requires StatusRefused(items, id, next, why)
    ensures why != CountWrong && (AllSections(items) ==> why != NoSection)
  {
    hide KindOf, HasSection, Hit;
  }

  lemma NeverApprovedForASection(items: seq<Item>, id: string, revoke: bool, why: Refusal)
    requires ApproveRefused(items, id, revoke, why)
    ensures why != CountWrong && (AllSections(items) ==> why != NoSection)
  {
    hide KindOf, HasSection, Hit;
  }

  lemma FiledAtHome(next: Status)
    ensures Filed(SectionOf(next), next)
  {
  }

  lemma FiledAgain(row: Row, next: Status, section: Section)
    requires section == SectionOf(next) || (Confirms(row, next) && section == Archive)
    ensures Filed(section, next)
  {
  }

  /** A row that changes is written anew; one that does not keeps its line. */
  function RestatedItem(item: Item, next: Status, note: Option<string>, ledger: Option<string>, pr: Option<string>, today: Date): Item
    requires item.TableRow? && |item.cells| == NCOLS && State(ReadRow(item.cells)).Some?
  {
    if Rewrites(item.cells[3], State(ReadRow(item.cells)).value, next, note) || ledger.Some? || pr.Some?
    then TableRow(StatusCells(item.cells, next, note, ledger, pr, today), None)
    else item
  }

  lemma ReadAsItIs(items: seq<Item>, at: nat)
    requires Readable(items, false) && at < |items| && KindOf(items[at]).Entry? && KindOf(items[at]).row.Row?
    ensures var item := items[at];
            && item.TableRow? && |item.cells| == NCOLS && CleanCells(item.cells) && GoodItem(item)
            && KindOf(item).row == ReadRow(item.cells) && KindOf(item).row.cells == item.cells
  {
    hide Readable;
    RowOfItem(items[at]);
    RemoveReadable(items, at);
    hide KindOf, GoodItem, ReadRow;
    GoodItemCells(items[at]);
  }

  lemma RestatedItemReads(items: seq<Item>, at: nat, next: Status, note: Option<string>, ledger: Option<string>, pr: Option<string>, today: Date)
    requires Readable(items, false) && at < |items| && KindOf(items[at]).Entry? && KindOf(items[at]).row.Row? && ValidDate(today)
    requires State(KindOf(items[at]).row).Some?
    ensures items[at].TableRow? && |items[at].cells| == NCOLS && KindOf(items[at]).row == ReadRow(items[at].cells)
    ensures var row, cells := KindOf(items[at]).row, items[at].cells;
            var restated := RestatedItem(items[at], next, note, ledger, pr, today);
            && row.cells == cells && GoodItem(restated) && KindOf(restated).Entry?
            && KindOf(restated).row == ReadRow(StatusCells(cells, next, note, ledger, pr, today)) && Restated(row, next, KindOf(restated).row)
  {
    hide Readable, KindOf, ReadRow, GoodItem, GoodCells, Restated;
    ReadAsItIs(items, at);
    var item := items[at];
    StatusCellsRead(item.cells, next, note, ledger, pr, today);
    UnchangedStatus(item.cells, next, note, ledger, pr, today);
    hide StatusCells, Rewrites, ValidDate;
    var changed := StatusCells(item.cells, next, note, ledger, pr, today);
    GoodCellsItem(changed);
    RowOfItem(TableRow(changed, None));
    RowOfItem(item);
  }

  lemma ApprovedItemReads(items: seq<Item>, at: nat, next: Status)
    requires Readable(items, false) && at < |items| && KindOf(items[at]).Entry? && KindOf(items[at]).row.Row?
    ensures items[at].TableRow? && |items[at].cells| == NCOLS
    ensures var row, cells := KindOf(items[at]).row, items[at].cells;
            var restated := TableRow(ApprovedCells(cells, next), None);
            && row.cells == cells && GoodItem(restated) && KindOf(restated).Entry?
            && KindOf(restated).row == ReadRow(ApprovedCells(cells, next)) && Restated(row, next, KindOf(restated).row)
  {
    hide Readable, KindOf, ReadRow, GoodItem, GoodCells, Restated;
    ReadAsItIs(items, at);
    var item := items[at];
    ApprovedCellsRead(item.cells, next);
    hide ApprovedCells;
    var changed := ApprovedCells(item.cells, next);
    GoodCellsItem(changed);
    RowOfItem(TableRow(changed, None));
  }

  /** Whether a verb goes through. */
  ghost predicate Accepts(items: seq<Item>, verb: Verb, today: Date)
    requires ValidDate(today)
  {
    match verb
    case AddRow(_, _, _, _, _, _) =>
      && WellAsked(verb) && !Taken(Rows(items), verb.key) && ValidDate(AddDays(today, ExpiryDays(verb.klass)))
      && HasSection(items, Fresh)
    case SetTo(id, status, _, _, pr) =>
      (pr.Some? && pr.value != "" ==> NamesPr(pr.value)) && exists at: nat :: StatusAccepted(items, id, status, at)
    case ApproveRow(id, revoke) => exists at: nat :: ApproveAccepted(items, id, revoke, at)
  }

  /** A row that cannot be found is no hit. */
  lemma RefusedIsNoHit(items: seq<Item>, id: string, why: Refusal, at: nat)
    requires FindRefused(items, id, why)
    ensures !Hit(items, id, at)
  {
    hide KindOf;
  }

  predicate HasId(item: Item, id: string) { KindOf(item).Entry? && KindOf(item).row.id == id }

  lemma EdgeIs(items: seq<Item>, name: Section, start: nat, end: nat, top: bool)
    requires Bounds(items, name, start, end)
    ensures AtEdge(items, name, top, Position(items, if top then start + 1 else end))
  {
  }

  /** The lines of a new table. */
  function NewTable(): seq<Item> { [Plain(TableHead()), Plain(TableSep())] }

  lemma NewTableIsATable()
    ensures |NewTable()| == 2 && TwoLines(NewTable()) && Readable(NewTable(), true) && Under(NewTable(), true)
  {
    TableReadable();
    hide TableHead, TableSep, Readable, Under;
  }

  class Roadmap {
    var items: seq<Item>
    var issued: nat

    ghost predicate Valid() reads this { Readable(items, false) }

    constructor (text: string, seen: nat)
      ensures Valid() && items == ReadText(text).items && issued == seen
    {
      var d := Read(text);
      items, issued := d.items, seen;
      new;
      ReadTextReadable(text);
    }

    /** [heading, next heading) of the first section of that name. */
    method SectionBounds(name: Section) returns (found: bool, start: nat, end: nat)
      ensures found <==> HasSection(items, name)
      ensures found ==> Bounds(items, name, start, end) && forall j :: 0 <= j < start ==> KindOf(items[j]) != Heading(name)
    {
      hide KindOf;
      found, start, end := false, 0, 0;
      for i := 0 to |items|
        invariant !found ==> forall j :: 0 <= j < i ==> KindOf(items[j]) != Heading(name)
        invariant found ==>
                    && start < i && KindOf(items[start]) == Heading(name) && (forall j :: start < j < i ==> !KindOf(items[j]).Heading?)
                    && forall j :: 0 <= j < start ==> KindOf(items[j]) != Heading(name)
      {
        if KindOf(items[i]).Heading? {
          if found {
            end := i;
            return;
          }
          if KindOf(items[i]).section == name {
            found, start := true, i;
          }
        }
      }
      end := |items|;
    }

    /** First and last row and first separator of a section; `end` where there is none. */
    method Table(start: nat, end: nat) returns (first: nat, last: nat, sep: nat)
      requires start < end <= |items| && KindOf(items[start]).Heading?
      ensures (first == end && last == end) || start < first <= last < end
      ensures sep == end || start < sep < end
      ensures forall x :: start <= x < first ==> !KindOf(items[x]).Entry?
      ensures forall x :: (if last == end then start else last + 1) <= x < end ==> !KindOf(items[x]).Entry?
    {
      hide KindOf;
      first, last, sep := end, end, end;
      for i := start to end
        invariant (first == end && last == end) || start < first <= last < i
        invariant sep == end || start < sep < i
        invariant forall x :: start <= x < (if first == end then i else first) ==> !KindOf(items[x]).Entry?
        invariant forall x :: (if last == end then start else last + 1) <= x < i ==> !KindOf(items[x]).Entry?
      {
        if KindOf(items[i]).Entry? {
          if first == end {
            first := i;
          }
          last := i;
        } else if KindOf(items[i]).Text? && KindOf(items[i]).separator && sep == end {
          sep := i;
        }
      }
    }

    /** Opens a table below a heading. */
    method OpenTable(start: nat)
      requires Valid() && start < |items| && KindOf(items[start]).Heading?
      modifies this`items
      ensures Valid() && |items| == |old(items)| + 2
      ensures Rows(items) == Rows(old(items)) && Position(items, start + 3) == Position(old(items), start + 1)
      ensures KindOf(items[start]) == KindOf(old(items)[start]) && !KindOf(items[start + 1]).Heading? && !KindOf(items[start + 2]).Heading?
      ensures forall s :: HasSection(old(items), s) ==> HasSection(items, s)
    {
      hide NewTable, Readable, Under, KindOf, Rows, Position, IsHeading;
      NewTableIsATable();
      TextRows(items, start + 1, NewTable());
      TableKeepsSections(items, start, NewTable());
      TablePlace(items, start, NewTable());
      TableReads(items, start, NewTable());
      items := items[..start + 1] + NewTable() + items[start + 1..];
    }

    /** Where a row goes in a section with a table: before its first row or behind its last. */
    method FindPlace(name: Section, start: nat, end: nat, top: bool) returns (table: bool, at: nat)
      requires Bounds(items, name, start, end)
      ensures table ==> start < at <= end && Position(items, at) == Position(items, if top then start + 1 else end)
      ensures !table ==> Position(items, start + 1) == Position(items, if top then start + 1 else end)
    {
      hide Position, KindOf;
      var first, last, sep := Table(start, end);
      table, at := true, start + 1;
      if first < end {
        SamePlace(items, start + 1, first);
        SamePlace(items, last + 1, end);
        at := if top then first else last + 1;
      } else {
        SamePlace(items, start + 1, end);
        if sep < end {
          SamePlace(items, start + 1, sep + 1);
          at := sep + 1;
        } else {
          table := false;
        }
      }
    }

    /** insert_row: before the first row of the section or behind its last, in a table opened for it if need be. */
    method InsertRow(name: Section, item: Item, top: bool) returns (ok: bool, ghost k: nat)
      requires Valid() && GoodItem(item)
      modifies this`items
      ensures Valid() && (ok <==> HasSection(old(items), name))
      ensures !ok ==> items == old(items)
      ensures ok ==> InsertedAt(Rows(old(items)), Rows(items), k, Placed(name, KindOf(item).row)) && AtEdge(old(items), name, top, k)
      ensures forall s :: HasSection(old(items), s) ==> HasSection(items, s)
    {
      hide Rows, Position, KindOf, Readable, AtEdge, HasSection, GoodItem, InsertedAt;
      k := 0;
      var start: nat, end: nat;
      ok, start, end := SectionBounds(name);
      if !ok {
        return;
      }
      EdgeIs(items, name, start, end, top);
      var table: bool, at: nat;
      table, at := FindPlace(name, start, end, top);
      if table {
        k := PutItem(start, at, item);
      } else {
        OpenTable(start);
        k := PutItem(start, start + 3, item);
      }
    }

    /** One row more, behind the heading it belongs to. */
    method PutItem(start: nat, at: nat, item: Item) returns (ghost k: nat)
      requires Valid() && GoodItem(item) && start < at <= |items| && KindOf(items[start]).Heading?
      requires forall i :: start < i < at ==> !KindOf(items[i]).Heading?
      modifies this`items
      ensures Valid() && k == Position(old(items), at)
      ensures InsertedAt(Rows(old(items)), Rows(items), k, Placed(KindOf(old(items)[start]).section, KindOf(item).row))
      ensures forall s :: HasSection(old(items), s) ==> HasSection(items, s)
    {
      hide Rows, SectionAfter, Position, Readable, Under;
      InBounds(items, start, at);
      InsertRows(items, at, item);
      InsertKeepsSections(items, at, item);
      UnderHeading(items[..at], start, false);
      InsertReadable(items, at, item);
      k := Position(items, at);
      items := items[..at] + [item] + items[at..];
    }

    method RemoveItem(at: nat) returns (ghost k: nat)
      requires Valid() && at < |items| && KindOf(items[at]).Entry?
      modifies this`items
      ensures Valid() && GoodItem(old(items)[at])
      ensures k < |Rows(old(items))| && RemovedAt(Rows(old(items)), Rows(items), k)
      ensures Rows(old(items))[k] == Placed(SectionAfter(old(items)[..at], NOWHERE), KindOf(old(items)[at]).row)
      ensures items == old(items)[..at] + old(items)[at + 1..]
      ensures forall s :: HasSection(old(items), s) <==> HasSection(items, s)
    {
      hide Rows, SectionAfter, Position, Readable, Under;
      RemoveRows(items, at);
      k := Position(items, at);
      RemoveKeepsSections(items, at);
      RemoveReadable(items, at);
      items := items[..at] + items[at + 1..];
    }

    /** find: where the row of an ID stands, or why none is given. */
    method Find(id: string) returns (r: Result<nat, Refusal>)
      ensures r.Ok? ==> Hit(items, id, r.value)
      ensures r.Err? ==> FindRefused(items, id, r.error)
    {
      hide KindOf;
      var hits, at := 0, 0;
      ghost var second := 0;
      for i := 0 to |items|
        invariant hits > 0 ==> at < i && HasId(items[at], id)
        invariant hits > 1 ==> at < second < i && HasId(items[second], id)
        invariant hits <= 1 ==> forall j :: 0 <= j < i && HasId(items[j], id) ==> hits == 1 && j == at
      {
        if HasId(items[i], id) {
          if hits == 0 {
            at := i;
          } else {
            second := i;
          }
          hits := hits + 1;
        }
      }
      if hits == 0 {
        return Err(NoRow);
      }
      if hits > 1 {
        return Err(Ambiguous);
      }
      if KindOf(items[at]).row.Bad? {
        assert TheRow(items, id, at);
        return Err(WrongColumns);
      }
      r := Ok(at);
    }

    /** A changed row in its place, or, if it stands wrong, in its own section. */
    method Restate(at: nat, item: Item, next: Status, confirms: bool) returns (ok: bool, ghost k: nat, ghost j: nat, ghost mid: seq<Placed>, ghost x: Placed)
      requires Valid() && at < |items| && KindOf(items[at]).Entry? && GoodItem(item)
      modifies this`items
      ensures Valid()
      ensures ok ==>
                && RemovedAt(Rows(old(items)), mid, k) && InsertedAt(mid, Rows(items), j, x)
                && Rows(old(items))[k].row == KindOf(old(items)[at]).row && x.row == KindOf(item).row
                && (x.section == SectionOf(next) || (confirms && x.section == Archive))
      ensures ok <==> Housed(old(items), at, next, confirms)
      ensures forall s :: HasSection(old(items), s) ==> HasSection(items, s)
    {
      hide Rows, SectionAfter, Position, InsertedAt, Readable, Under, HasSection;
      var home := SectionOf(next);
      var section := SectionAfter(items[..at], NOWHERE);
      ReplaceRows(items, at, item);
      ReplaceKeepsSections(items, at, item);
      ReplaceReadable(items, at, item);
      ghost var before := Rows(items);
      k := Position(items, at);
      items := items[at := item];
      j, mid, x := k, before[..k] + before[k + 1..], Placed(section, KindOf(item).row);
      if section == home || (confirms && section == Archive) {
        ReplaceIsMove(before, k, x);
        return true, k, j, mid, x;
      }
      ok, j := Refile(at, home);
      SamePosition(old(items), at, item);
      x := Placed(home, KindOf(item).row);
    }

    /** A row leaves its place for its own section. */
    method Refile(at: nat, home: Section) returns (ok: bool, ghost j: nat)
      requires Valid() && at < |items| && KindOf(items[at]).Entry?
      modifies this`items
      ensures Valid()
      ensures ok ==> InsertedAt(Rows(old(items)[..at] + old(items)[at + 1..]), Rows(items), j, Placed(home, KindOf(old(items)[at]).row))
      ensures ok <==> HasSection(old(items), home)
      ensures forall s :: HasSection(old(items), s) ==> HasSection(items, s)
    {
      hide Rows, SectionAfter, KindOf, Readable, HasSection;
      var item := items[at];
      ghost var k := RemoveItem(at);
      ok, j := InsertRow(home, item, home == Closed);
    }

    /** set_status: a legal step, written into the row; a row that stands wrong moves home. */
    method SetStatus(id: string, next: Status, note: Option<string>, ledger: Option<string>, pr: Option<string>, today: Date)
      returns (r: Result<(), Refusal>, ghost k: nat, ghost j: nat, ghost mid: seq<Placed>, ghost x: Placed)
      requires Valid() && ValidDate(today)
      modifies this`items
      ensures Valid()
      ensures r.Ok? ==>
                && RemovedAt(Rows(old(items)), mid, k) && InsertedAt(mid, Rows(items), j, x)
                && var row := Rows(old(items))[k].row;
                   && row.Row? && row.id == id && Legal(row, next) && |row.cells| == NCOLS && row == ReadRow(row.cells)
                   && x.row == ReadRow(StatusCells(row.cells, next, note, ledger, pr, today))
                   && Restated(row, next, x.row) && Filed(x.section, next)
      ensures r.Ok? <==> exists at: nat :: StatusAccepted(old(items), id, next, at)
      ensures r.Err? ==> StatusRefused(old(items), id, next, r.error)
      ensures forall s :: HasSection(old(items), s) ==> HasSection(items, s)
    {
      hide Readable, KindOf, Rows, ReadRow, StatusCells, Restated, StatusAccepted, StatusRefused, Hit, FindRefused, Housed, HasSection, GoodItem;
      hide Legal, InsertedAt, RemovedAt, RestatedItem, Filed;
      k, j, mid, x := 0, 0, [], Placed(NOWHERE, Bad(id, []));
      var found := Find(id);
      if found.Err? {
        NothingAccepted(items, id, next, found.error);
        return Err(found.error), k, j, mid, x;
      }
      var at := found.value;
      StatusVerdict(items, id, next, at);
      HitIs(items, id, at);
      var item := items[at];
      var row := KindOf(item).row;
      if State(row).None? {
        return Err(UnknownStatus), k, j, mid, x;
      }
      if !Legal(row, next) {
        return Err(NoTransition), k, j, mid, x;
      }
      RestatedItemReads(items, at, next, note, ledger, pr, today);
      var ok;
      ok, k, j, mid, x := Restate(at, RestatedItem(item, next, note, ledger, pr, today), next, Confirms(row, next));
      if ok {
        FiledAgain(row, next, x.section);
      }
      r := if ok then Ok(()) else Err(NoSection);
    }

    /** approve: geplant -> freigegeben, or back; only the word changes, the note stays. */
    method Approve(id: string, revoke: bool)
      returns (r: Result<(), Refusal>, ghost k: nat, ghost j: nat, ghost mid: seq<Placed>, ghost x: Placed)
      requires Valid()
      modifies this`items
      ensures Valid()
      ensures r.Ok? ==>
                && RemovedAt(Rows(old(items)), mid, k) && InsertedAt(mid, Rows(items), j, x)
                && var row, next := Rows(old(items))[k].row, Granted(revoke);
                   && State(row) == Some(Waiting(revoke)) && row.id == id && |row.cells| == NCOLS
                   && x.row == ReadRow(ApprovedCells(row.cells, next)) && Restated(row, next, x.row) && Filed(x.section, next)
      ensures r.Ok? <==> exists at: nat :: ApproveAccepted(old(items), id, revoke, at)
      ensures r.Err? ==> ApproveRefused(old(items), id, revoke, r.error)
      ensures forall s :: HasSection(old(items), s) ==> HasSection(items, s)
    {
      hide Readable, KindOf, Rows, ReadRow, ApprovedCells, Restated, ApproveAccepted, ApproveRefused, Hit, FindRefused, Housed, HasSection;
      hide InsertedAt, RemovedAt, GoodItem, Filed;
      k, j, mid, x := 0, 0, [], Placed(NOWHERE, Bad(id, []));
      var found := Find(id);
      if found.Err? {
        NothingApproved(items, id, revoke, found.error);
        return Err(found.error), k, j, mid, x;
      }
      var at := found.value;
      ApproveVerdict(items, id, revoke, at);
      HitIs(items, id, at);
      var item := items[at];
      if State(KindOf(item).row) != Some(Waiting(revoke)) {
        return Err(WrongStatus), k, j, mid, x;
      }
      ApprovedItemReads(items, at, Granted(revoke));
      var ok;
      ok, k, j, mid, x := Restate(at, TableRow(ApprovedCells(item.cells, Granted(revoke)), None), Granted(revoke), false);
      if ok {
        FiledAtHome(Granted(revoke));
      }
      r := if ok then Ok(()) else Err(NoSection);
    }

    /** add: a `neu` row at the end of its section, with the next ID. */
    method Add(verb: Verb, today: Date) returns (r: Result<nat, Refusal>, ghost k: nat, ghost row: Row)
      requires Valid() && verb.AddRow? && ValidDate(today)
      modifies this`items
      ensures Valid()
      ensures r.Ok? ==>
                && InsertedAt(Rows(old(items)), Rows(items), k, Placed(Fresh, row)) && AtEdge(old(items), Fresh, false, k)
                && row.Row? && NumberOf(row.id) == Some(r.value) && row.word == Is(Neu) && row.key == NewKey(verb) && row.deps == {}
                && row.cells == AddedCells(r.value, verb.klass, verb.title, SourceText(verb.source, verb.proof, verb.key), verb.ledger, today)
                && r.value > issued && IdsBelow(Rows(old(items)), r.value)
      ensures r.Err? ==> items == old(items)
      ensures r == Err(Usage) <==> !WellAsked(verb)
      ensures r == Err(Duplicate) <==> WellAsked(verb) && Taken(Rows(old(items)), verb.key)
      ensures r == Err(TooLate) <==> WellAsked(verb) && !Taken(Rows(old(items)), verb.key) && !ValidDate(AddDays(today, ExpiryDays(verb.klass)))
      ensures r == Err(NoSection) <==>
                WellAsked(verb) && !Taken(Rows(old(items)), verb.key) && ValidDate(AddDays(today, ExpiryDays(verb.klass)))
                && !HasSection(old(items), Fresh)
      ensures r.Ok? <==>
                WellAsked(verb) && !Taken(Rows(old(items)), verb.key) && ValidDate(AddDays(today, ExpiryDays(verb.klass)))
                && HasSection(old(items), Fresh)
      ensures forall s :: HasSection(old(items), s) ==> HasSection(items, s)
    {
      hide Readable, GoodCells, AddedCells, ReadRow, Cell, SourceText, AddDays, ValidDate, ExpiryDays;
      hide Rows, KindOf, NumberOf, Taken, OneToken, Blank, RankOf, GoodItem, AtEdge, InsertedAt;
      k, row := 0, Bad("", []);
      if !WellAsked(verb) {
        return Err(Usage), k, row;
      }
      var rows := Rows(items);
      if Taken(rows, verb.key) {
        return Err(Duplicate), k, row;
      }
      if !ValidDate(AddDays(today, ExpiryDays(verb.klass))) {
        return Err(TooLate), k, row;
      }
      var n := Highest();
      HighestOfRows(items, n);
      var source := SourceText(verb.source, verb.proof, verb.key);
      var cells := AddedCells(n + 1, verb.klass, verb.title, source, verb.ledger, today);
      AddedCellsRead(n + 1, verb.klass, verb.title, source, verb.ledger, today);
      GoodCellsItem(cells);
      var item := TableRow(cells, None);
      RowOfItem(item);
      ReadRowCells(cells);
      row := KindOf(item).row;
      hide WellAsked;
      var ok;
      ok, k := InsertRow(Fresh, item, false);
      r := if ok then Ok(n + 1) else Err(NoSection);
    }

    /** The verb itself. */
    method Perform(verb: Verb, today: Date) returns (r: Result<Option<nat>, Refusal>, ghost newest: Placed)
      requires Valid() && ValidDate(today)
      modifies this`items
      ensures Valid()
      ensures r.Ok? ==> (r.value.Some? <==> verb.AddRow?)
      ensures r.Ok? ==> |Rows(items)| == |Rows(old(items))| + if verb.AddRow? then 1 else 0
      ensures r.Ok? && verb.AddRow? ==>
                && r.value.value > issued && IdsBelow(Rows(old(items)), r.value.value) && newest in Rows(items) && newest.section == Fresh
                && newest.row.Row? && NumberOf(newest.row.id) == Some(r.value.value) && IsOpen(newest.row) && newest.row.key == NewKey(verb)
                && (forall p :: p in Rows(old(items)) ==> p in Rows(items))
      ensures r.Ok? && LintClean(Rows(old(items))) ==> AllFiled(Rows(items))
      ensures r.Ok? && LintClean(Rows(old(items))) && (verb.AddRow? ==> KeyFree(Rows(old(items)), NewKey(verb))) ==> LintClean(Rows(items))
      ensures r.Ok? <==> Accepts(old(items), verb, today)
      ensures AllSections(old(items)) ==> r != Err(NoSection) && AllSections(items)
      ensures r != Err(CountWrong)
    {
      hide Readable, Rows, NewKey, ReadRow, StatusCells, ApprovedCells, LintClean, AllFiled, Restated;
      hide HasSection, StatusAccepted, StatusRefused, ApproveAccepted, ApproveRefused, WellAsked, Taken, ValidDate, AddDays, NamesPr, AddedCells;
      ghost var first := items;
      ghost var before := Rows(items);
      newest := Placed(NOWHERE, Bad("", []));
      match verb {
        case AddRow(_, _, _, _, _, _) =>
          var done, k, row := Add(verb, today);
          if done.Err? {
            return Err(done.error), newest;
          }
          newest := Placed(Fresh, row);
          AddedRow(before, Rows(items), k, row, done.value);
          r := Ok(Some(done.value));
        case SetTo(id, status, note, ledger, pr) =>
          if pr.Some? && pr.value != "" && !NamesPr(pr.value) {
            return Err(Usage), newest;
          }
          var done, k, j, mid, x := SetStatus(id, status, note, ledger, pr, today);
          if done.Err? {
            NeverForASection(first, id, status, done.error);
            return Err(done.error), newest;
          }
          MovedRow(before, mid, Rows(items), k, j, x, status);
          r := Ok(None);
        case ApproveRow(id, revoke) =>
          var done, k, j, mid, x := Approve(id, revoke);
          if done.Err? {
            NeverApprovedForASection(first, id, revoke, done.error);
            return Err(done.error), newest;
          }
          MovedRow(before, mid, Rows(items), k, j, x, Granted(revoke));
          r := Ok(None);
      }
    }

    /** prune: closed rows past their days leave, or move to the archive if an open row needs them. */
    method Prune(today: int) returns (r: Result<nat, Refusal>)
      requires Valid()
      modifies this`items
      ensures Valid()
      ensures r.Err? ==> r.error == NoSection
      ensures r.Ok? ==>
                && NextSafe(Rows(old(items)), Rows(items), Needed(Rows(old(items))))
                && |Rows(items)| + r.value == |Rows(old(items))|
                && (LintClean(Rows(old(items))) ==> LintClean(Rows(items))) && (AllFiled(Rows(old(items))) ==> AllFiled(Rows(items)))
                && Pruned(Rows(old(items)), Rows(items), Needed(Rows(old(items))), today)
      ensures AllSections(old(items)) ==> r.Ok?
      ensures forall s :: HasSection(old(items), s) ==> HasSection(items, s)
    {
      var rows := Rows(items);
      var needed := Needed(rows);
      hide Rows, SectionAfter, Position, LintClean, AllFiled, NextSafe, Needed, OpenOf, KindOf, Readable;
      SafeRefl(rows, needed);
      var gone, i := 0, 0;
      while i < |items|
        invariant Valid() && i <= |items| && NextSafe(rows, Rows(items), needed) && |Rows(items)| + gone == |rows|
        invariant (LintClean(rows) ==> LintClean(Rows(items))) && (AllFiled(rows) ==> AllFiled(Rows(items)))
        invariant Stayed(rows, Rows(items), needed, today)
        invariant forall x :: 0 <= x < i && KindOf(items[x]).Entry? ==> !Gone(KindOf(items[x]).row, needed, today)
        invariant forall s :: HasSection(old(items), s) ==> HasSection(items, s)
        decreases |items| - i
      {
        if KindOf(items[i]).Entry? && Gone(KindOf(items[i]).row, needed, today) {
          ghost var before := Rows(items);
          ghost var k := RemoveItem(i);
          GoneStep(rows, before, Rows(items), k, needed, today);
          gone := gone + 1;
        } else {
          i := i + 1;
        }
      }
      NoneGone(items, needed, today);
      var found: bool;
      var at: nat;
      found, at := LastToArchive(needed, today);
      while found
        invariant Valid() && NextSafe(rows, Rows(items), needed) && |Rows(items)| + gone == |rows|
        invariant (LintClean(rows) ==> LintClean(Rows(items))) && (AllFiled(rows) ==> AllFiled(Rows(items)))
        invariant Stayed(rows, Rows(items), needed, today) && NobodyGone(Rows(items), needed, today)
        invariant forall s :: HasSection(old(items), s) ==> HasSection(items, s)
        invariant found ==> at < |items| && StandsWrong(items, at, needed, today)
        invariant !found ==> NobodyToArchive(Rows(items), needed, today)
        decreases CountToArchive(Rows(items), needed, today)
      {
        var item := items[at];
        ghost var before := Rows(items);
        ghost var k := RemoveItem(at);
        ghost var mid := Rows(items);
        var ok, j := InsertRow(Archive, item, true);
        if !ok {
          return Err(NoSection);
        }
        ArchiveStep(before, mid, Rows(items), k, j, needed, today);
        MovedStep(rows, before, mid, Rows(items), k, j, needed, today);
        SafeTrans(rows, before, Rows(items), needed);
        found, at := LastToArchive(needed, today);
      }
      RenewHeadings();
      r := Ok(gone);
    }

    /** Every heading of the closed rows names the days they are kept. */
    method RenewHeadings()
      requires Valid()
      modifies this`items
      ensures Valid() && Rows(items) == Rows(old(items)) && |items| == |old(items)|
      ensures forall i :: 0 <= i < |items| ==>
                KindOf(items[i]) == KindOf(old(items)[i])
                && items[i] == if ClosedItem(old(items)[i]) then Plain(ClosedTitle()) else old(items)[i]
      ensures forall s :: HasSection(old(items), s) ==> HasSection(items, s)
    {
      hide Rows, KindOf, Readable, ClosedTitle, ClosedHeading, IsHeading;
      ClosedTitleFits();
      ClosedTitleIsALine();
      ClosedHeadingNames(ClosedTitle());
      for n := 0 to |items|
        invariant Valid() && Rows(items) == Rows(old(items)) && |items| == |old(items)|
        invariant forall i :: 0 <= i < |items| ==>
                    KindOf(items[i]) == KindOf(old(items)[i])
                    && items[i] == if i < n && ClosedItem(old(items)[i]) then Plain(ClosedTitle()) else old(items)[i]
      {
        if ClosedItem(items[n]) {
          ClosedHeadingNames(items[n].line);
          HeadingReplaced(items, n, ClosedTitle());
          items := items[n := Plain(ClosedTitle())];
        }
      }
      forall s | HasSection(old(items), s) ensures HasSection(items, s) {
        var i :| 0 <= i < |old(items)| && KindOf(old(items)[i]) == Heading(s);
        assert KindOf(items[i]) == Heading(s);
      }
    }

    /** The last row that belongs in the archive and is not there. */
    method LastToArchive(needed: set<string>, today: int) returns (found: bool, at: nat)
      ensures found ==> at < |items| && StandsWrong(items, at, needed, today)
      ensures !found ==> NobodyToArchive(Rows(items), needed, today)
    {
      hide KindOf;
      found, at := false, 0;
      var section := NOWHERE;
      for i := 0 to |items|
        invariant section == SectionAfter(items[..i], NOWHERE)
        invariant found ==> at < |items| && StandsWrong(items, at, needed, today)
        invariant !found ==> forall x :: 0 <= x < i ==> !StandsWrong(items, x, needed, today)
      {
        SectionStep(items, i);
        if KindOf(items[i]).Heading? {
          section := KindOf(items[i]).section;
        } else if KindOf(items[i]).Entry? && ToArchive(Placed(section, KindOf(items[i]).row), needed, today) {
          found, at := true, i;
        }
      }
      if !found {
        forall x | 0 <= x < |items| && KindOf(items[x]).Entry?
          ensures !ToArchive(Placed(SectionAfter(items[..x], NOWHERE), KindOf(items[x]).row), needed, today)
        {
          assert !StandsWrong(items, x, needed, today);
        }
        NoneToArchive(items, needed, today);
      }
    }

    /** set_next_up: "Als Naechstes" is written anew; rows filed elsewhere stay. */
    method SetNextUp(lines: seq<string>)
      requires Valid() && forall i :: 0 <= i < |lines| ==> Prose(lines[i])
      modifies this`items
      ensures Valid()
      ensures forall p :: p in Rows(old(items)) && p.section != NextUp ==> p in Rows(items)
      ensures (forall p :: p in Rows(old(items)) ==> p.section != NextUp) ==> Rows(items) == Rows(old(items))
    {
      var found, start, end := SectionBounds(NextUp);
      if found {
        var more := lines + [""];
        assert Prose("");
        hide Rows, Readable, Under, KindOf, Prose;
        var written := PlainLines(more);
        ProseKinds(more);
        NextUpRows(items, start, end, written);
        SectionSpliced(items, start, end, more);
        items := items[..start + 1] + written + items[end..];
      }
    }

    /** highest: nothing in the rows or handed out earlier is above it. */
    method Highest() returns (n: nat)
      ensures n >= issued
      ensures forall i :: 0 <= i < |items| && KindOf(items[i]).Entry? && NumberOf(KindOf(items[i]).row.id).Some? ==>
                NumberOf(KindOf(items[i]).row.id).value <= n
    {
      hide KindOf, NumberOf;
      n := issued;
      for i := 0 to |items|
        invariant n >= issued
        invariant forall j :: 0 <= j < i && KindOf(items[j]).Entry? && NumberOf(KindOf(items[j]).row.id).Some? ==>
                    NumberOf(KindOf(items[j]).row.id).value <= n
      {
        if KindOf(items[i]).Entry? {
          var number := NumberOf(KindOf(items[i]).row.id);
          if number.Some? && number.value > n {
            n := number.value;
          }
        }
      }
    }
  }

  datatype Verb =
    | AddRow(klass: string, title: string, source: string, proof: string, ledger: string, key: Option<string>)
    | SetTo(id: string, status: Status, note: Option<string>, filedUnder: Option<string>, pr: Option<string>)
    | ApproveRow(id: string, revoke: bool)

  /** A row needs a class, a title and a source, and a key is one token. */
  predicate WellAsked(verb: Verb)
    requires verb.AddRow?
  {
    KnownClass(verb.klass) && !Blank(verb.title) && !Blank(verb.source) && (verb.key.Some? ==> OneToken(verb.key.value))
  }

  /** The key a new row will be found by: the first its source cell names. */
  function NewKey(verb: Verb): Option<string>
    requires verb.AddRow?
  {
    FindKey(Cell(SourceText(verb.source, verb.proof, verb.key)))
  }

  /** PRs are named as #42. */
  predicate NamesPr(s: string) { exists i :: 0 <= i < |s| - 1 && s[i] == '#' && IsDigit(s[i + 1]) }

  predicate StandsWrong(items: seq<Item>, at: nat, needed: set<string>, today: int)
    requires at < |items|
  {
    KindOf(items[at]).Entry? && ToArchive(Placed(SectionAfter(items[..at], NOWHERE), KindOf(items[at]).row), needed, today)
  }

  // ----- What the methods rest on --------------------------------------------------------

  lemma ReadTextReadable(text: string)
    ensures Readable(ReadText(text).items, false) && ReadText(text).items != []
  {
    SplitPieces(text, '\n');
    ReadIsReadable(LinesOf(text), false);
  }

  lemma RowOfItem(item: Item)
    requires item.TableRow?
    ensures KindOf(item) == Entry(ReadRow(item.cells)) && ReadRow(item.cells).cells == item.cells
    ensures ReadRow(item.cells).Row? <==> |item.cells| == NCOLS
  {
  }

  lemma ReadRowCells(cells: seq<string>)
    ensures ReadRow(cells).cells == cells
  {
  }

  lemma UnchangedStatus(cells: seq<string>, next: Status, note: Option<string>, ledger: Option<string>, pr: Option<string>, today: Date)
    requires |cells| == NCOLS && State(ReadRow(cells)).Some?
    ensures !Rewrites(cells[3], State(ReadRow(cells)).value, next, note) && ledger.None? && pr.None? ==>
              StatusCells(cells, next, note, ledger, pr, today) == cells
  {
    hide ReadRow, StatusText, StatusWord, Cell;
  }

  lemma HeadingKind(item: Item)
    requires KindOf(item).Heading?
    ensures IsHeading(item)
  {
    hide ReadRow, SectionName;
  }

  lemma SplicedUnder(head: seq<Item>, middle: seq<Item>, other: seq<Item>, tail: seq<Item>)
    requires Readable(head + (middle + tail), false) && Under(head, false) && Readable(other, true)
    ensures Readable(head + other + tail, false)
  {
    hide Readable, Under;
    UnderStays(middle);
    UnderStays(other);
    Splice(head, middle, other, tail);
    assert head + other + tail == head + (other + tail);
  }

  lemma UnderAt(items: seq<Item>, start: nat)
    requires start < |items| && KindOf(items[start]).Heading?
    ensures Under(items[..start + 1], false)
  {
    hide Under, KindOf, IsHeading;
    HeadingKind(items[start]);
    var head := items[..start + 1];
    assert head[start] == items[start];
    UnderHeading(head, start, false);
  }

  lemma TableReads(items: seq<Item>, start: nat, table: seq<Item>)
    requires start < |items| && Readable(items, false) && KindOf(items[start]).Heading?
    requires Readable(table, true)
    ensures Readable(items[..start + 1] + table + items[start + 1..], false)
  {
    hide Readable, Under, KindOf;
    UnderAt(items, start);
    ThreeParts(items, start + 1, start + 1);
    SplicedUnder(items[..start + 1], items[start + 1..start + 1], table, items[start + 1..]);
  }

  /** What stands below a heading exchanged for prose lines. */
  lemma SectionSpliced(items: seq<Item>, start: nat, end: nat, lines: seq<string>)
    requires start < end <= |items| && Readable(items, false) && KindOf(items[start]).Heading?
    requires forall i :: 0 <= i < |lines| ==> Prose(lines[i])
    ensures Readable(items[..start + 1] + PlainLines(lines) + items[end..], false)
  {
    hide Readable, Under, KindOf, Prose;
    ProseReadable(lines, true);
    UnderAt(items, start);
    ThreeParts(items, start + 1, end);
    hide PlainLines;
    SplicedUnder(items[..start + 1], items[start + 1..end], PlainLines(lines), items[end..]);
  }

  lemma ThreeParts(items: seq<Item>, a: nat, b: nat)
    requires a <= b <= |items|
    ensures items == items[..a] + (items[a..b] + items[b..])
  {
  }

  lemma ProseKinds(lines: seq<string>)
    requires forall i :: 0 <= i < |lines| ==> Prose(lines[i])
    ensures forall i :: 0 <= i < |lines| ==> KindOf(PlainLines(lines)[i]).Text?
  {
    forall i | 0 <= i < |lines| ensures KindOf(PlainLines(lines)[i]).Text? {
      assert Prose(lines[i]);
    }
  }

  lemma AddedRow(a: seq<Placed>, b: seq<Placed>, k: nat, row: Row, n: nat)
    requires InsertedAt(a, b, k, Placed(Fresh, row)) && row.Row? && NumberOf(row.id) == Some(n) && row.word == Is(Neu) && IdsBelow(a, n)
    ensures Placed(Fresh, row) in b && IsOpen(row) && |b| == |a| + 1
    ensures LintClean(a) ==> AllFiled(b) && (KeyFree(a, row.key) ==> LintClean(b))
    ensures forall p :: p in a ==> p in b
  {
    if LintClean(a) {
      AddKeepsClean(a, b, k, row, n);
    }
    InsertedIsIn(a, b, k, Placed(Fresh, row));
    forall p | p in a ensures p in b {
      InsertedStays(a, b, k, Placed(Fresh, row), p);
    }
  }

  lemma MovedRow(a: seq<Placed>, mid: seq<Placed>, b: seq<Placed>, k: nat, j: nat, x: Placed, next: Status)
    requires RemovedAt(a, mid, k) && InsertedAt(mid, b, j, x) && Restated(a[k].row, next, x.row) && Legal(a[k].row, next) && Filed(x.section, next)
    ensures |b| == |a| && (LintClean(a) ==> LintClean(b) && AllFiled(b))
  {
    if LintClean(a) {
      StatusKeepsClean(a, mid, b, k, j, x);
    }
  }

  /** A row that closes today stays for KEEP_CLOSED_DAYS, whatever prunes run meanwhile. */
  lemma ClosedRowStaysItsDays(cells: seq<string>, next: Status, note: Option<string>, ledger: Option<string>, pr: Option<string>,
                              today: Date, later: int)
    requires |cells| == NCOLS && State(ReadRow(cells)).Some? && ValidDate(today)
    requires IsClosed(next) && next != State(ReadRow(cells)).value && later <= Ordinal(today) + KEEP_CLOSED_DAYS
    ensures !Past(ReadRow(StatusCells(cells, next, note, ledger, pr, today)), later)
  {
    ClosedToday(cells, next, note, ledger, pr, today);
    hide ReadRow, StatusCells, Ordinal;
  }
}
