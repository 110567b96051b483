/** The cells the verbs of the roadmap write, and how they are read again (scripts/dev/roadmap.py). */
module RoadmapCellsWritten {
  import opened Common
  import opened Calendar
  import opened RoadmapText
  import opened RoadmapCells
  import opened RoadmapFile
  import opened RoadmapRows

  predicate Legal(row: Row, next: Status) { State(row).Some? && (next == State(row).value || next in Transitions(State(row).value)) }

  // ----- status and approve --------------------------------------------------------------

  /** What follows the status word in its column. */
  function NoteOf(cell: string): string { if |StatusText(cell)| <= |cell| then cell[|StatusText(cell)|..] else "" }

  /** The day a closed row carries: the day it closed, kept when only its note changes. */
  function ClosingDay(cell: string, was: Status, next: Status, today: Date): Option<Date> {
    if !IsClosed(next) then None
    else if next == was && ParseDay(cell).Some? then ParseDay(cell) else Some(today)
  }

  function StatusCell(cell: string, was: Status, next: Status, note: Option<string>, today: Date): string {
    if next != was || note.Some? then
      Cell(StatusValue(next, ClosingDay(cell, was, next, today), if note.Some? then note.value else ""))
    else if StatusText(cell) != StatusWord(next) then StatusWord(next) + NoteOf(cell)
    else cell
  }

  predicate Rewrites(cell: string, was: Status, next: Status, note: Option<string>) {
    next != was || note.Some? || StatusText(cell) != StatusWord(next)
  }

  /** The cells set_status leaves. */
  function StatusCells(cells: seq<string>, next: Status, note: Option<string>, ledger: Option<string>, pr: Option<string>, today: Date)
    : (r: seq<string>)
    requires |cells| == NCOLS && State(ReadRow(cells)).Some?
    ensures |r| == NCOLS
  {
    var filed := cells[3 := StatusCell(cells[3], State(ReadRow(cells)).value, next, note, today)];
    var ledgered := if ledger.Some? then filed[5 := Cell(ledger.value)] else filed;
    if pr.Some? then ledgered[7 := Cell(pr.value)] else ledgered
  }

  /** The cells approve leaves: the word exchanged, its note kept. */
  function ApprovedCells(cells: seq<string>, next: Status): (r: seq<string>)
    requires |cells| == NCOLS
    ensures |r| == NCOLS
  {
    cells[3 := StatusWord(next) + NoteOf(cells[3])]
  }

  predicate CleanCells(cells: seq<string>) {
    && cells != [] && cells[0] != "ID"
    && forall i :: 0 <= i < |cells| ==> Clean(cells[i]) && Without(cells[i], '\n')
  }

  /** `row` after a change of its status column (and of columns nobody reads): the rest reads as before. */
  predicate Restated(row: Row, next: Status, after: Row) {
    && row.Row? && after.Row? && after.word == Is(next)
    && after.id == row.id && after.rank == row.rank && after.key == row.key && after.deps == row.deps && after.expiry == row.expiry
  }

  lemma StatusWritten(cell: string, was: Status, next: Status, note: Option<string>, today: Date)
    requires Clean(cell) && Without(cell, '\n') && ValidDate(today) && ReadWord(cell) in {Is(was), Alias(was)}
    ensures var c := StatusCell(cell, was, next, note, today);
            Clean(c) && Without(c, '\n') && ReadWord(c) == Is(next) && StartsWith(c, StatusWord(next))
  {
    if next != was || note.Some? {
      StatusCellReads(next, ClosingDay(cell, was, next, today), if note.Some? then note.value else "");
    } else if StatusText(cell) != StatusWord(next) {
      RewordedReads(cell, next);
    } else {
      StatusWordReads(next);
      RewordedReads(cell, next);
      assert cell == StatusWord(next) + cell[|StatusWord(next)|..] by {
        StatusFirst(cell);
      }
    }
  }

  /** A clean column begins with its word. */
  lemma StatusFirst(cell: string)
    requires Clean(cell)
    ensures |StatusText(cell)| <= |cell| && cell[..|StatusText(cell)|] == StatusText(cell)
    ensures cell == StatusText(cell) + NoteOf(cell)
  {
    assert StripLeft(cell) == cell;
  }

  lemma WordedCells(cells: seq<string>, next: Status)
    requires |cells| == NCOLS && CleanCells(cells) && StartsWith(cells[3], StatusWord(next))
    ensures GoodCells(cells)
  {
    StatusWordReads(next);
    var c := cells[3];
    assert c[..|StatusWord(next)|][0] == c[0];
    assert Letter(c[0]);
    LetterNoDash(c[0]);
  }

  lemma LetterNoDash(c: char)
    requires Letter(c)
    ensures !DashChar(c)
  {
  }

  /** What set_status writes is a row again, of the status it was given, and otherwise the row it was. */
  lemma StatusCellsRead(cells: seq<string>, next: Status, note: Option<string>, ledger: Option<string>, pr: Option<string>, today: Date)
    requires |cells| == NCOLS && CleanCells(cells) && State(ReadRow(cells)).Some? && ValidDate(today)
    ensures var r := StatusCells(cells, next, note, ledger, pr, today);
            GoodCells(r) && Restated(ReadRow(cells), next, ReadRow(r))
  {
    hide StatusCell, Clean, Cell, StartsWith, Without, ValidDate;
    var was := State(ReadRow(cells)).value;
    StatusWritten(cells[3], was, next, note, today);
    if ledger.Some? {
      CellIsClean(ledger.value);
      CellWithout(ledger.value);
    }
    if pr.Some? {
      CellIsClean(pr.value);
      CellWithout(pr.value);
    }
    var cell := StatusCell(cells[3], was, next, note, today);
    hide CleanCells, ReadRow, Restated;
    var filed := cells[3 := cell];
    SetClean(cells, 3, cell);
    var ledgered := if ledger.Some? then filed[5 := Cell(ledger.value)] else filed;
    if ledger.Some? {
      SetClean(filed, 5, Cell(ledger.value));
    }
    var r := StatusCells(cells, next, note, ledger, pr, today);
    if pr.Some? {
      SetClean(ledgered, 7, Cell(pr.value));
    }
    WordedCells(r, next);
    OnlyStatusRead(cells, r, next);
  }

  lemma SetClean(cells: seq<string>, i: nat, c: string)
    requires CleanCells(cells) && 0 < i < |cells| && Clean(c) && Without(c, '\n')
    ensures CleanCells(cells[i := c])
  {
    hide Clean, Without;
  }

  lemma OnlyStatusRead(cells: seq<string>, r: seq<string>, next: Status)
    requires |cells| == NCOLS && |r| == NCOLS && ReadWord(r[3]) == Is(next)
    requires r[0] == cells[0] && r[1] == cells[1] && r[4] == cells[4] && r[6] == cells[6] && r[8] == cells[8]
    ensures Restated(ReadRow(cells), next, ReadRow(r))
  {
    hide ReadWord, DayOf, FindKey, FindIds, RankOf;
  }

  /** A row closed today carries today. */
  lemma ClosedToday(cells: seq<string>, next: Status, note: Option<string>, ledger: Option<string>, pr: Option<string>, today: Date)
    requires |cells| == NCOLS && State(ReadRow(cells)).Some? && ValidDate(today) && IsClosed(next) && next != State(ReadRow(cells)).value
    ensures ReadRow(StatusCells(cells, next, note, ledger, pr, today)).day == Some(Ordinal(today))
  {
    StatusCellReads(next, Some(today), if note.Some? then note.value else "");
    hide StatusValue, Cell, DayOf, Ordinal, ReadWord, FindKey, FindIds;
  }

  lemma ApprovedCellsRead(cells: seq<string>, next: Status)
    requires |cells| == NCOLS && CleanCells(cells)
    ensures var r := ApprovedCells(cells, next);
            |cells| == NCOLS && GoodCells(r) && Restated(ReadRow(cells), next, ReadRow(r))
  {
    RewordedReads(cells[3], next);
    var r := ApprovedCells(cells, next);
    hide CleanCells, Clean, StartsWith, ReadRow, Without, Restated;
    SetClean(cells, 3, r[3]);
    WordedCells(r, next);
    OnlyStatusRead(cells, r, next);
  }

  // ----- add -----------------------------------------------------------------------------

  const NONE := "\U{2014}"

  function ExpiryDays(klass: string): nat { if klass == "IDEE" then 60 else if klass == "REF" then 90 else 0 }

  /** The day a new row expires, or `nie`. */
  function Expires(klass: string, today: Date): string {
    if ExpiryDays(klass) == 0 then "nie" else Iso(AddDays(today, ExpiryDays(klass)))
  }

  function AddedCells(n: nat, klass: string, title: string, source: string, ledger: string, today: Date): (r: seq<string>)
    ensures |r| == NCOLS
  {
    [RowId(n), klass, Cell(title), StatusWord(Neu), Cell(source), Cell(ledger), NONE, NONE, Expires(klass, today), NONE]
  }

  predicate KnownClass(klass: string) { RankOf(klass) < 7 }

  lemma ClassIsPlain(klass: string)
    requires KnownClass(klass)
    ensures Clean(klass) && Without(klass, '\n')
  {
    forall i | 0 <= i < |klass| ensures 'A' <= klass[i] <= 'Z' {
    }
    CapitalsArePlain(klass);
  }

  lemma CapitalsArePlain(s: string)
    requires s != "" && forall i :: 0 <= i < |s| ==> 'A' <= s[i] <= 'Z'
    ensures Clean(s) && Without(s, '\n')
  {
    forall i | 0 <= i < |s| ensures !IsSpace(s[i]) && s[i] != '|' {
      assert 'A' <= s[i] <= 'Z';
    }
    NoPipeNoBare(s, ' ');
  }

  lemma IdIsPlain(n: nat)
    ensures Clean(RowId(n)) && Without(RowId(n), '\n') && RowId(n) != "ID"
  {
    var s := RowId(n);
    forall i | 0 <= i < |s| ensures !IsSpace(s[i]) && s[i] != '|' && s[i] != '\n' {
      assert s[i] == 'R' || s[i] == '-' || IsDigit(s[i]);
    }
    NoPipeNoBare(s, ' ');
    assert s[0] == 'R' && "ID"[0] == 'I';
  }

  lemma NoneIsPlain()
    ensures Clean(NONE) && Without(NONE, '\n') && FindIds(NONE) == {}
  {
    NoPipeNoBare(NONE, ' ');
    assert NONE[1..] == "";
  }

  lemma ExpiresIsPlain(klass: string, today: Date)
    requires ValidDate(today) && ValidDate(AddDays(today, ExpiryDays(klass)))
    ensures Clean(Expires(klass, today)) && Without(Expires(klass, today), '\n')
  {
    if ExpiryDays(klass) == 0 {
      LettersArePlain("nie");
    } else {
      var s := Iso(AddDays(today, ExpiryDays(klass)));
      IsoIsPlain(AddDays(today, ExpiryDays(klass)));
      NoPipeNoBare(s, ' ');
    }
  }

  /** A new row expires on the day its class says, or never. */
  lemma ExpiresReads(klass: string, today: Date)
    requires ValidDate(today) && ValidDate(AddDays(today, ExpiryDays(klass))) && ExpiryDays(klass) > 0
    ensures DayOf(Expires(klass, today)) == Some(Ordinal(today) + ExpiryDays(klass))
  {
    hide AddDays, Iso, DayOf, Ordinal, ExpiryDays;
    var t := AddDays(today, ExpiryDays(klass));
    AddDaysIsLater(today, ExpiryDays(klass));
    DayReads("", t, "");
    assert "" + Iso(t) + "" == Iso(t);
  }

  lemma AddedAreClean(n: nat, klass: string, title: string, source: string, ledger: string, today: Date)
    requires KnownClass(klass) && ValidDate(today) && ValidDate(AddDays(today, ExpiryDays(klass)))
    ensures CleanCells(AddedCells(n, klass, title, source, ledger, today))
  {
    hide Clean, Without, Cell, RowId, Expires, StatusWord, NONE, Letters, KnownClass, ValidDate, AddDays, ExpiryDays;
    IdIsPlain(n);
    ClassIsPlain(klass);
    CellIsClean(title);
    CellWithout(title);
    CellIsClean(source);
    CellWithout(source);
    CellIsClean(ledger);
    CellWithout(ledger);
    NoneIsPlain();
    ExpiresIsPlain(klass, today);
    StatusWordReads(Neu);
    LettersArePlain(StatusWord(Neu));
  }

  lemma NewReads()
    ensures ReadWord(StatusWord(Neu)) == Is(Neu) && StartsWith(StatusWord(Neu), StatusWord(Neu))
  {
    StatusReads(Neu, "");
    assert StatusWord(Neu) + "" == StatusWord(Neu);
  }

  /** What add writes is a new row of its section, found by the key its source cell names first. */
  lemma AddedCellsRead(n: nat, klass: string, title: string, source: string, ledger: string, today: Date)
    requires KnownClass(klass) && ValidDate(today) && ValidDate(AddDays(today, ExpiryDays(klass)))
    ensures var r := AddedCells(n, klass, title, source, ledger, today);
            && GoodCells(r) && ReadRow(r).Row? && NumberOf(ReadRow(r).id) == Some(n) && ReadRow(r).word == Is(Neu)
            && ReadRow(r).key == FindKey(Cell(source)) && ReadRow(r).deps == {} && ReadRow(r).rank == RankOf(klass)
  {
    hide CleanCells, GoodCells, Cell, ReadWord, DayOf, FindKey, FindIds, RowId, Expires, StatusWord, StartsWith, RankOf, NumberOf, NONE;
    var r := AddedCells(n, klass, title, source, ledger, today);
    RowIdReads(n);
    NoneIsPlain();
    NewReads();
    AddedAreClean(n, klass, title, source, ledger, today);
    WordedCells(r, Neu);
  }
}
