/**
What the roadmap script reads out of a cell, and writes into one (scripts/dev/roadmap.py):
numbers, row IDs, days, status words and Dedup-Keys.

Digits are 0 to 9. The script's patterns take any Unicode digit, so an ID or a date in other
digits is one to the script and plain text here.
*/
module RoadmapCells {
  import opened Common
  import opened Calendar
  import opened RoadmapText

  // ----- Numbers -------------------------------------------------------------------------

  predicate IsDigit(c: char) { '0' <= c <= '9' }

  predicate AllDigits(s: string) { forall i :: 0 <= i < |s| ==> IsDigit(s[i]) }

  function DigitOf(c: char): nat
    requires IsDigit(c)
  {
    c as int - '0' as int
  }

  function CharOf(d: nat): (c: char)
    requires d < 10
    ensures IsDigit(c) && DigitOf(c) == d
  {
    ('0' as int + d) as char
  }

  function Value(s: string): nat
    requires AllDigits(s)
  {
    if s == "" then 0 else Value(s[..|s| - 1]) * 10 + DigitOf(s[|s| - 1])
  }

  function Decimal(n: nat): (s: string)
    ensures s != "" && AllDigits(s)
  {
    if n < 10 then [CharOf(n)] else Decimal(n / 10) + [CharOf(n % 10)]
  }

  /** Zeros in front, up to the width. */
  function Pad(s: string, width: nat): (r: string)
    ensures |r| >= width && |r| >= |s| && (|s| <= width ==> |r| == width)
    ensures AllDigits(s) ==> AllDigits(r)
    decreases width - |s|
  {
    if |s| >= width then s else Pad("0" + s, width)
  }

  lemma {:induction false} DecimalReads(n: nat)
    ensures Value(Decimal(n)) == n
  {
    if n < 10 {
      assert [CharOf(n)][..0] == "";
    } else {
      DecimalReads(n / 10);
      assert Decimal(n)[..|Decimal(n)| - 1] == Decimal(n / 10);
    }
  }

  lemma {:induction false} LeadingZero(s: string)
    requires AllDigits(s)
    ensures AllDigits("0" + s) && Value("0" + s) == Value(s)
  {
    if s != "" {
      LeadingZero(s[..|s| - 1]);
      assert ("0" + s)[..|s|] == "0" + s[..|s| - 1];
    } else {
      assert "0" + s == "0" && "0"[..0] == "";
    }
  }

  lemma {:induction false} PadReads(s: string, width: nat)
    requires AllDigits(s)
    ensures Value(Pad(s, width)) == Value(s)
    decreases width - |s|
  {
    if |s| < width {
      LeadingZero(s);
      PadReads("0" + s, width);
    }
  }

  lemma {:induction false} DecimalShort(n: nat, k: nat)
    requires (k == 2 && n < 100) || (k == 4 && n < 10000)
    ensures |Decimal(n)| <= k
  {
    assert n >= 10 ==> |Decimal(n)| == |Decimal(n / 10)| + 1;
    assert n >= 100 ==> |Decimal(n / 10)| == |Decimal(n / 10 / 10)| + 1;
    assert n >= 1000 ==> |Decimal(n / 10 / 10)| == |Decimal(n / 10 / 10 / 10)| + 1;
  }

  /** How many digits `s` begins with. */
  function DigitRun(s: string): (n: nat)
    ensures n <= |s| && AllDigits(s[..n]) && (n < |s| ==> !IsDigit(s[n]))
  {
    if s == "" || !IsDigit(s[0]) then 0 else 1 + DigitRun(s[1..])
  }

  lemma {:induction false} RunStops(d: string, rest: string)
    requires AllDigits(d) && (rest == "" || !IsDigit(rest[0]))
    ensures DigitRun(d + rest) == |d|
  {
    if d == "" {
      assert d + rest == rest;
    } else {
      assert (d + rest)[1..] == d[1..] + rest && (d + rest)[0] == d[0];
      RunStops(d[1..], rest);
    }
  }

  // ----- Row IDs -------------------------------------------------------------------------

  predicate IsRowId(s: string) { StartsWith(s, "R-") && |s| >= 6 && AllDigits(s[2..]) }

  /** The number of an R-nnnn; None for anything else. */
  function NumberOf(s: string): Option<nat> { if IsRowId(s) then Some(Value(s[2..])) else None }

  function RowId(n: nat): string { "R-" + Pad(Decimal(n), 4) }

  lemma RowIdReads(n: nat)
    ensures NumberOf(RowId(n)) == Some(n)
  {
    var s := RowId(n);
    assert s[2..] == Pad(Decimal(n), 4) && s[..2] == "R-";
    DecimalReads(n);
    PadReads(Decimal(n), 4);
  }

  /** Every R-nnnn in a cell, each as long as its digits go. */
  function FindIds(s: string): set<string>
    decreases |s|
  {
    if s == "" then {}
    else if StartsWith(s, "R-") && DigitRun(s[2..]) >= 4 then
      {s[..2 + DigitRun(s[2..])]} + FindIds(s[2 + DigitRun(s[2..])..])
    else FindIds(s[1..])
  }

  // ----- Days ----------------------------------------------------------------------------

  /** date.isoformat. */
  function Iso(t: Date): string { Pad(Decimal(t.y), 4) + "-" + Pad(Decimal(t.m), 2) + "-" + Pad(Decimal(t.d), 2) }

  predicate DateShape(s: string) {
    |s| == 10 && AllDigits(s[..4]) && s[4] == '-' && AllDigits(s[5..7]) && s[7] == '-' && AllDigits(s[8..])
  }

  function DateIn(s: string): Date
    requires DateShape(s)
  {
    Date(Value(s[..4]), Value(s[5..7]), Value(s[8..]))
  }

  /** parse_day: the first YYYY-MM-DD, if it is a date. */
  function ParseDay(s: string): (r: Option<Date>)
    ensures r.Some? ==> ValidDate(r.value)
  {
    if |s| < 10 then None
    else if DateShape(s[..10]) then (if ValidDate(DateIn(s[..10])) then Some(DateIn(s[..10])) else None)
    else ParseDay(s[1..])
  }

  /** The day number a cell names. */
  function DayOf(s: string): Option<int> {
    if ParseDay(s).Some? && ParseDay(s).value.y >= 1 then Some(Ordinal(ParseDay(s).value)) else None
  }

  lemma IsoReads(t: Date)
    requires ValidDate(t)
    ensures |Iso(t)| == 10 && DateShape(Iso(t)) && DateIn(Iso(t)) == t
  {
    var y, m, d := Pad(Decimal(t.y), 4), Pad(Decimal(t.m), 2), Pad(Decimal(t.d), 2);
    DecimalShort(t.y, 4);
    DecimalShort(t.m, 2);
    DecimalShort(t.d, 2);
    DecimalReads(t.y);
    DecimalReads(t.m);
    DecimalReads(t.d);
    PadReads(Decimal(t.y), 4);
    PadReads(Decimal(t.m), 2);
    PadReads(Decimal(t.d), 2);
    assert |y| == 4 && |m| == 2 && |d| == 2;
    var s := Iso(t);
    assert s == y + "-" + m + "-" + d;
    assert s[..4] == y && s[5..7] == m && s[8..] == d;
  }

  predicate NoDigits(s: string) { forall i :: 0 <= i < |s| ==> !IsDigit(s[i]) }

  /** A day behind text without digits is the day that is read, whatever follows. */
  lemma {:induction false} DayReads(before: string, t: Date, after: string)
    requires NoDigits(before) && ValidDate(t)
    ensures ParseDay(before + Iso(t) + after) == Some(t) && DayOf(before + Iso(t) + after) == Some(Ordinal(t))
  {
    IsoReads(t);
    var s := before + Iso(t) + after;
    if before == "" {
      assert s[..10] == Iso(t);
    } else {
      assert s[1..] == before[1..] + Iso(t) + after && s[0] == before[0];
      assert s[..10][..4][0] == before[0];
      DayReads(before[1..], t, after);
    }
  }

  // ----- Status words --------------------------------------------------------------------

  datatype Status = Neu | Geplant | Freigegeben | Aktiv | Bereit | InPr | Zurueckgestellt | Blockiert | Abgeschlossen | Abgelehnt

  /** The status column: the word, an alias of it, or something else. */
  datatype Word = Is(status: Status) | Alias(status: Status) | Strange

  predicate IsClosed(s: Status) { s.Abgeschlossen? || s.Abgelehnt? }

  function StatusWord(s: Status): string {
    match s
    case Neu => "neu"
    case Geplant => "geplant"
    case Freigegeben => "freigegeben"
    case Aktiv => "aktiv"
    case Bereit => "bereit"
    case InPr => "pr"
    case Zurueckgestellt => "zur\U{FC}ckgestellt"
    case Blockiert => "blockiert"
    case Abgeschlossen => "abgeschlossen"
    case Abgelehnt => "abgelehnt"
  }

  /** The word a status column begins with; what follows it is a note. */
  function StatusText(cell: string): string { FirstWord(StripLeft(cell)) }

  function WordOf(w: string): Word {
    if w == "neu" then Is(Neu)
    else if w == "geplant" then Is(Geplant)
    else if w == "freigegeben" then Is(Freigegeben)
    else if w == "aktiv" then Is(Aktiv)
    else if w == "bereit" then Is(Bereit)
    else if w == "pr" then Is(InPr)
    else if w == "zur\U{FC}ckgestellt" then Is(Zurueckgestellt)
    else if w == "blockiert" then Is(Blockiert)
    else if w == "abgeschlossen" then Is(Abgeschlossen)
    else if w == "abgelehnt" then Is(Abgelehnt)
    else if w == "geparkt" then Alias(Zurueckgestellt)
    else if w == "erledigt" then Alias(Abgeschlossen)
    else Strange
  }

  function ReadWord(cell: string): Word { WordOf(StatusText(cell)) }

  predicate Letter(c: char) { 'a' <= c <= 'z' || c == '\U{FC}' }

  predicate Letters(s: string) { s != "" && forall i :: 0 <= i < |s| ==> Letter(s[i]) }

  lemma LettersArePlain(s: string)
    requires Letters(s)
    ensures Spaceless(s) && Without(s, '|') && Without(s, '\n') && NoDigits(s) && Clean(s)
  {
    forall i | 0 <= i < |s| ensures !IsSpace(s[i]) && s[i] != '|' && s[i] != '\n' && !IsDigit(s[i]) {
      assert Letter(s[i]);
    }
    NoPipeNoBare(s, ' ');
  }

  lemma StatusWordReads(s: Status)
    ensures Letters(StatusWord(s)) && WordOf(StatusWord(s)) == Is(s)
  {
  }

  /** A status word with something behind it, or nothing, reads as that status. */
  lemma StatusReads(s: Status, rest: string)
    requires rest == "" || IsSpace(rest[0])
    ensures StatusText(StatusWord(s) + rest) == StatusWord(s) && ReadWord(StatusWord(s) + rest) == Is(s)
  {
    StatusWordReads(s);
    LettersArePlain(StatusWord(s));
    WordsBegin(StatusWord(s), rest);
    FirstWordStops(StatusWord(s), rest);
  }

  /** What is written into the status column: the word, the day for a closed row, the note. */
  function StatusValue(s: Status, day: Option<Date>, note: string): string {
    StatusWord(s) + (if day.Some? then " " + Iso(day.value) else "") + (if note != "" then " (" + note + ")" else "")
  }

  /** Whatever the note, the column reads as the status, and a day in it as that day. */
  lemma StatusCellReads(s: Status, day: Option<Date>, note: string)
    requires day.Some? ==> ValidDate(day.value)
    ensures var cell := Cell(StatusValue(s, day, note));
            && ReadWord(cell) == Is(s) && Clean(cell) && Without(cell, '\n')
            && StartsWith(cell, StatusWord(s))
            && (day.Some? ==> DayOf(cell) == Some(Ordinal(day.value)))
  {
    assert IsSpace(' ');
    StatusValueIs(s, day, note);
    hide Words, Escape, Join, Cell, StatusWord, ReadWord, Clean, DayOf, StatusRest, StatusValue, Iso, Ordinal, ParseDay, IsSpace, Letters, StartsWith, ValidDate, NoDigits, Spaceless;
    var w, value, rest := StatusWord(s), StatusValue(s, day, note), StatusRest(day, note);
    StatusWordReads(s);
    LettersArePlain(w);
    CellIsClean(value);
    CellWithout(value);
    CellBegins(w, rest);
    var tail := if Words(rest) == [] then "" else " " + Escape(Join(Words(rest), " "), ' ');
    StatusReads(s, tail);
    Prefixed(w, tail);
    if day.Some? {
      DayInTail(day.value, note, tail);
      DayBehind(w, day.value, tail);
    }
  }

  lemma Prefixed(w: string, tail: string)
    ensures StartsWith(w + tail, w)
  {
  }

  lemma DayBehind(w: string, t: Date, tail: string)
    requires NoDigits(w) && ValidDate(t) && exists after :: tail == " " + Iso(t) + after
    ensures DayOf(w + tail) == Some(Ordinal(t))
  {
    hide DayOf, Iso, Ordinal;
    var after :| tail == " " + Iso(t) + after;
    var before := w + " ";
    assert w + tail == before + Iso(t) + after;
    DayReads(before, t, after);
  }

  function StatusRest(day: Option<Date>, note: string): (r: string)
    ensures r == "" || r[0] == ' '
  {
    (if day.Some? then " " + Iso(day.value) else "") + (if note != "" then " (" + note + ")" else "")
  }

  lemma StatusValueIs(s: Status, day: Option<Date>, note: string)
    ensures StatusValue(s, day, note) == StatusWord(s) + StatusRest(day, note)
  {
    hide StatusWord, Iso;
    var d, n := if day.Some? then " " + Iso(day.value) else "", if note != "" then " (" + note + ")" else "";
    assert StatusWord(s) + d + n == StatusWord(s) + (d + n);
  }

  lemma IsoIsPlain(t: Date)
    requires ValidDate(t)
    ensures Iso(t) != "" && Spaceless(Iso(t)) && Without(Iso(t), '|') && Without(Iso(t), '\n')
  {
    IsoReads(t);
    var s := Iso(t);
    forall i | 0 <= i < |s| ensures !IsSpace(s[i]) && s[i] != '|' && s[i] != '\n' {
      assert i < 4 ==> s[i] == s[..4][i];
      assert 5 <= i < 7 ==> s[i] == s[5..7][i - 5];
      assert 8 <= i ==> s[i] == s[8..][i - 8];
      assert IsDigit(s[i]) || s[i] == '-';
    }
  }

  lemma WordsOfRest(t: Date, note: string) returns (words: seq<string>)
    requires ValidDate(t)
    ensures Words(StatusRest(Some(t), note)) == [Iso(t)] + words
  {
    IsoIsPlain(t);
    hide Words, Iso, ValidDate;
    var iso, rest := Iso(t), StatusRest(Some(t), note);
    var noted := if note != "" then " (" + note + ")" else "";
    assert rest[1..] == iso + noted;
    WordsSkip(rest);
    WordsBegin(iso, noted);
    words := Words(noted);
  }

  lemma DayInTail(t: Date, note: string, tail: string)
    requires ValidDate(t)
    requires var words := Words(StatusRest(Some(t), note)); tail == if words == [] then "" else " " + Escape(Join(words, " "), ' ')
    ensures exists after :: tail == " " + Iso(t) + after
  {
    hide Words, Escape, IsSpace, StatusRest, Iso, ValidDate;
    var iso := Iso(t);
    IsoIsPlain(t);
    var words := WordsOfRest(t, note);
    NoPipeNoBare(iso, ' ');
    EscapeKeeps(iso, ' ');
    var more := JoinBegins(iso, words);
    hide Join;
    EscapeAppend(iso, more, ' ');
    assert tail == " " + iso + Escape(more, LastOf(iso, ' '));
  }

  lemma JoinBegins(w: string, words: seq<string>) returns (more: string)
    ensures Join([w] + words, " ") == w + more
  {
    if words == [] {
      more := "";
      assert [w] + words == [w];
    } else {
      more := " " + Join(words, " ");
      JoinAppend([w], words, " ");
    }
  }

  /** The word of a clean column exchanged, its note kept. */
  lemma RewordedReads(cell: string, s: Status)
    requires Clean(cell) && Without(cell, '\n')
    ensures var next := StatusWord(s) + cell[|StatusText(cell)|..];
            |StatusText(cell)| <= |cell| && ReadWord(next) == Is(s) && Clean(next) && Without(next, '\n') && StartsWith(next, StatusWord(s))
  {
    CleanIsStripped(cell);
    hide StatusWord, FirstWord, StripLeft, ReadWord, IsSpace, Letters, Clean, Without;
    WordEnds(cell);
    StatusWordReads(s);
    var v, k := StatusWord(s), |FirstWord(cell)|;
    StatusReads(s, cell[k..]);
    RewordedIsClean(cell, k, v);
    assert (v + cell[k..])[..|v|] == v;
  }

  lemma CleanIsStripped(cell: string)
    requires Clean(cell)
    ensures StripLeft(cell) == cell
  {
  }

  lemma RewordedIsClean(cell: string, k: nat, v: string)
    requires Clean(cell) && Without(cell, '\n') && Letters(v) && v != ""
    requires k <= |cell| && (k < |cell| ==> IsSpace(cell[k]))
    ensures Clean(v + cell[k..]) && Without(v + cell[k..], '\n')
  {
    LettersArePlain(v);
    hide Letters;
    var note := cell[k..];
    var next := v + note;
    forall i | 0 <= i < |next| && next[i] == '|' ensures Escaped(next, ' ', i) {
      var j := i - |v|;
      assert note[j] == cell[k + j] == '|' && Escaped(cell, ' ', k + j);
      assert j != 0;
    }
    assert note != "" ==> note[|note| - 1] == cell[|cell| - 1];
  }

  // ----- Dedup-Keys ----------------------------------------------------------------------

  const DEDUP := "Dedup-Key:"

  /** The first Dedup-Key in a text: what stands behind the mark, up to the next space. */
  function FindKey(s: string): Option<string> {
    if s == "" then None
    else if StartsWith(s, DEDUP) && StripLeft(s[|DEDUP|..]) != "" then Some(FirstWord(StripLeft(s[|DEDUP|..])))
    else FindKey(s[1..])
  }

  /** The source of a new row: where it comes from, what proves it, its key. */
  function SourceText(source: string, proof: string, key: Option<string>): string {
    SourceHead(source, proof, key.Some?) + (if key.Some? then DEDUP + " " + key.value else "")
  }

  /** What stands before the key. */
  function SourceHead(source: string, proof: string, keyed: bool): string {
    var dot := " \U{B7} ";
    if proof == "" then (if keyed then source + dot else source)
    else if keyed then source + dot + proof + dot else source + dot + proof
  }

  /** One token, perhaps with white space around it. */
  predicate OneToken(key: string) { |Words(key)| == 1 }

  lemma DedupIsPlain()
    ensures Spaceless(DEDUP) && Without(DEDUP, '|') && DEDUP[|DEDUP| - 1] == ':' && |DEDUP| == 10
  {
    forall i | 0 <= i < |DEDUP| ensures !IsSpace(DEDUP[i]) && DEDUP[i] != '|' {
      assert Letter(DEDUP[i]) || DEDUP[i] in {'D', 'K', '-', ':'};
    }
  }

  lemma {:induction false} StripLeftFront(s: string, rest: string)
    requires StripLeft(s) != ""
    ensures StripLeft(s + rest) == StripLeft(s) + rest
  {
    if IsSpace(s[0]) {
      assert (s + rest)[0] == s[0] && (s + rest)[1..] == s[1..] + rest;
      StripLeftFront(s[1..], rest);
    }
  }

  lemma {:induction false} StripLeftBlank(s: string)
    requires s != "" && !IsSpace(s[|s| - 1])
    ensures StripLeft(s) != ""
  {
    if IsSpace(s[0]) {
      StripLeftBlank(s[1..]);
    }
  }

  lemma {:induction false} FirstWordFront(s: string, rest: string)
    requires rest == "" || IsSpace(rest[0])
    ensures FirstWord(s + rest) == FirstWord(s)
  {
    if s == "" {
      assert s + rest == rest;
    } else {
      assert (s + rest)[0] == s[0] && (s + rest)[1..] == s[1..] + rest;
      if !IsSpace(s[0]) {
        FirstWordFront(s[1..], rest);
      }
    }
  }

  /** The key at the end of a text is the one read, unless the text before it has one. */
  lemma {:induction false} KeyAtTheEnd(w: string, key: string, tail: string)
    requires w == "" || (!IsSpace(w[|w| - 1]) && w[|w| - 1] != ':')
    requires key != "" && Spaceless(key) && tail == " " + (DEDUP + " " + key)
    ensures FindKey(w + tail) == if FindKey(w).Some? then FindKey(w) else Some(key)
    decreases |w|
  {
    var s := w + tail;
    if w == "" {
      KeyAlone(key);
      SameMark("", tail);
      assert s == tail && "" + tail == tail && s[1..] == DEDUP + " " + key;
      hide StripLeft, FirstWord;
      assert FindKey(tail) == FindKey(tail[1..]);
    } else {
      assert s[0] == w[0] && s[1..] == w[1..] + tail;
      SameMark(w, tail);
      if StartsWith(w, DEDUP) {
        MarkedKey(w, tail);
        hide StripLeft, FirstWord, DEDUP;
      } else {
        KeyAtTheEnd(w[1..], key, tail);
        hide StripLeft, FirstWord, DEDUP;
      }
    }
  }

  lemma MarkedKey(w: string, tail: string)
    requires StartsWith(w, DEDUP) && !IsSpace(w[|w| - 1]) && w[|w| - 1] != ':' && tail != "" && tail[0] == ' '
    ensures StripLeft(w[|DEDUP|..]) != "" && StripLeft((w + tail)[|DEDUP|..]) != ""
    ensures FirstWord(StripLeft((w + tail)[|DEDUP|..])) == FirstWord(StripLeft(w[|DEDUP|..]))
  {
    DedupIsPlain();
    var rest := w[|DEDUP|..];
    assert |w| == |DEDUP| ==> w == DEDUP;
    assert rest != "" && rest[|rest| - 1] == w[|w| - 1];
    assert (w + tail)[|DEDUP|..] == rest + tail;
    StripLeftBlank(rest);
    StripLeftFront(rest, tail);
    assert IsSpace(' ');
    FirstWordFront(StripLeft(rest), tail);
  }

  lemma KeyAlone(key: string)
    requires key != "" && Spaceless(key)
    ensures FindKey(DEDUP + " " + key) == Some(key)
  {
    var s := DEDUP + " " + key;
    assert s[|DEDUP|..] == " " + key && s[..|DEDUP|] == DEDUP;
    assert (" " + key)[1..] == key;
    assert StripLeft(" " + key) == StripLeft(key) == key;
    assert key + "" == key;
    FirstWordStops(key, "");
  }

  /** The mark has no space in it: it does not reach over the end of `w`. */
  lemma SameMark(w: string, tail: string)
    requires tail != "" && tail[0] == ' '
    ensures StartsWith(w + tail, DEDUP) <==> StartsWith(w, DEDUP)
  {
    DedupIsPlain();
    assert IsSpace(' ');
    var s := w + tail;
    if |w| < |DEDUP| {
      assert s[|w|] == ' ' && DEDUP[|w|] != ' ';
      assert |s| >= |DEDUP| ==> s[..|DEDUP|][|w|] == ' ';
    } else {
      assert s[..|DEDUP|] == w[..|DEDUP|];
    }
  }

  lemma DotIsPlain()
    ensures Spaceless("\U{B7}") && Without("\U{B7}", '|') && IsSpace(' ')
  {
  }

  /** The words before a key: they end in the dot that joins it. */
  lemma HeadWords(x: string) returns (words: seq<string>)
    ensures Words(x + " \U{B7} ") == words + ["\U{B7}"]
  {
    var dot := "\U{B7}";
    DotIsPlain();
    assert x + " \U{B7} " == (x + " ") + (dot + " ");
    WordsSplit(x + " ", dot + " ");
    WordsBegin(dot, " ");
    WordsSkip(" ");
    WordsOfNothing();
    assert " "[1..] == "";
    words := Words(x + " ");
  }

  lemma HeadEndsInDot(source: string, proof: string) returns (words: seq<string>)
    ensures Words(SourceHead(source, proof, true)) == words + ["\U{B7}"]
    ensures var head := SourceHead(source, proof, true); head != "" && head[|head| - 1] == ' '
  {
    if proof == "" {
      words := HeadWords(source);
    } else {
      words := HeadWords(source + " \U{B7} " + proof);
      assert source + " \U{B7} " + proof + " \U{B7} " == SourceHead(source, proof, true);
    }
  }

  lemma {:induction false} JoinEnds(words: seq<string>, last: string)
    requires last != ""
    ensures var s := Join(words + [last], " "); s != "" && s[|s| - 1] == last[|last| - 1]
  {
    if words == [] {
      assert words + [last] == [last];
    } else {
      JoinAppend(words, [last], " ");
    }
  }

  /** The words of a source text with a key: those before it, the mark, the key. */
  lemma SourceWords(head: string, key: string, core: string)
    requires head != "" && IsSpace(head[|head| - 1]) && Words(key) == [core]
    ensures Words(head + (DEDUP + " " + key)) == Words(head) + [DEDUP, core]
  {
    DedupIsPlain();
    DotIsPlain();
    hide Words, DEDUP;
    WordsSplit(head, DEDUP + " " + key);
    assert DEDUP + " " + key == DEDUP + (" " + key);
    WordsBegin(DEDUP, " " + key);
    WordsSkip(" " + key);
    assert (" " + key)[1..] == key;
  }

  /** The cell of a source text with a key. */
  lemma SourceCell(source: string, proof: string, key: string, core: string)
    requires Words(key) == [core] && core != ""
    ensures var w := Cell(SourceHead(source, proof, true));
            && w != "" && w[|w| - 1] == '\U{B7}'
            && Cell(SourceText(source, proof, Some(key))) == w + (" " + (DEDUP + " " + Escape(core, ' ')))
  {
    var head := SourceHead(source, proof, true);
    var words := HeadEndsInDot(source, proof);
    DotIsPlain();
    SourceWords(head, key, core);
    JoinEnds(words, "\U{B7}");
    var front := Join(Words(head), " ");
    EscapeLeavesNone(front, '\n');
    KeyedCell(head, core);
  }

  lemma KeyedCell(head: string, core: string)
    requires Words(head) != [] && Join(Words(head), " ") != ""
    ensures Escape(Join(Words(head) + [DEDUP, core], " "), '\n')
         == Escape(Join(Words(head), " "), '\n') + (" " + (DEDUP + " " + Escape(core, ' ')))
  {
    DedupIsPlain();
    hide Words, Escape, DEDUP;
    var front, mark := Join(Words(head), " "), " " + (DEDUP + " ");
    JoinAppend(Words(head), [DEDUP, core], " ");
    assert [DEDUP, core] == [DEDUP] + [core];
    JoinAppend([DEDUP], [core], " ");
    assert Join([DEDUP], " ") == DEDUP && Join([core], " ") == core;
    hide Join;
    assert front + " " + (DEDUP + " " + core) == front + (mark + core);
    EscapeAppend(front, mark + core, '\n');
    EscapeAppend(mark, core, LastOf(front, '\n'));
    NoPipeNoBare(mark, LastOf(front, '\n'));
    EscapeKeeps(mark, LastOf(front, '\n'));
    assert mark + Escape(core, ' ') == " " + (DEDUP + " " + Escape(core, ' '));
  }

  /**
  The key a new row is given is the key it is found by exactly if the text before carries
  no Dedup-Key and the key itself neither a space nor a bare pipe, or if the text before
  carries this very key first.
  */
  lemma KeyReadBack(source: string, proof: string, key: string)
    requires OneToken(key)
    ensures var before := FindKey(Cell(SourceHead(source, proof, true)));
            (FindKey(Cell(SourceText(source, proof, Some(key)))) == Some(key)) <==>
            (if before.Some? then before == Some(key) else Spaceless(key) && NoBarePipe(key, ' '))
  {
    hide Words, Escape, FindKey, Cell, SourceHead, SourceText, DEDUP, IsSpace, OneToken, Spaceless, NoBarePipe;
    var core := OnlyWord(key);
    SourceCell(source, proof, key, core);
    var w, e := Cell(SourceHead(source, proof, true)), Escape(core, ' ');
    EscapedWord(core);
    KeyAtTheEnd(w, e, " " + (DEDUP + " " + e));
    KeyIsItself(key, core);
  }

  lemma OnlyWord(key: string) returns (core: string)
    requires OneToken(key)
    ensures Words(key) == [core] && core != "" && Spaceless(core) && !IsSpace('\U{B7}')
  {
    core := Words(key)[0];
    WordsAreWords(key);
    assert core in Words(key);
  }

  lemma EscapedWord(core: string)
    requires core != "" && Spaceless(core)
    ensures Escape(core, ' ') != "" && Spaceless(Escape(core, ' '))
  {
    var e := Escape(core, ' ');
    EscapeLeavesNone(core, ' ');
    forall i | 0 <= i < |e| ensures !IsSpace(e[i]) {
      EscapeChars(core, ' ', i);
      assert !IsSpace('\\');
    }
  }

  lemma KeyIsItself(key: string, core: string)
    requires Words(key) == [core] && core != "" && Spaceless(core)
    ensures Escape(core, ' ') == key <==> Spaceless(key) && NoBarePipe(key, ' ')
  {
    if Spaceless(key) {
      WordsOfNothing();
      assert key + "" == key;
      if key != "" {
        WordsBegin(key, "");
        assert Words(key) == [key] + [] == [key];
      }
      assert core == key;
      if NoBarePipe(key, ' ') {
        EscapeKeeps(key, ' ');
      }
      EscapeLeavesNone(core, ' ');
    } else if Escape(core, ' ') == key {
      var i :| 0 <= i < |key| && IsSpace(key[i]);
      EscapeChars(core, ' ', i);
    }
  }

  lemma {:induction false} TailsKeep(s: string, prev: char, n: nat)
    requires NoBarePipe(s, prev) && 1 <= n <= |s|
    ensures NoBarePipe(s[n..], s[n - 1])
  {
    TailKeeps(s, prev);
    if n > 1 {
      TailsKeep(s[1..], s[0], n - 1);
      assert s[1..][n - 1..] == s[n..];
    }
  }

  /** No key read from a cell has a bare pipe. */
  lemma {:induction false} KeysReadHaveNoPipe(s: string, prev: char)
    requires NoBarePipe(s, prev)
    ensures FindKey(s).Some? ==> NoBarePipe(FindKey(s).value, ' ')
    decreases |s|
  {
    if s != "" {
      if StartsWith(s, DEDUP) && StripLeft(s[|DEDUP|..]) != "" {
        DedupIsPlain();
        assert s[|DEDUP| - 1] == s[..|DEDUP|][|DEDUP| - 1] == ':';
        TailsKeep(s, prev, |DEDUP|);
        StripLeftKeeps(s[|DEDUP|..], ':');
        var rest := StripLeft(s[|DEDUP|..]);
        PrefixKeeps(rest, |FirstWord(rest)|);
      } else {
        TailKeeps(s, prev);
        KeysReadHaveNoPipe(s[1..], s[0]);
      }
    }
  }

  /** So a key with one is never found again, whatever stands before it. */
  lemma PipedKeyIsLost(source: string, proof: string, key: string)
    requires OneToken(key) && !NoBarePipe(key, ' ')
    ensures FindKey(Cell(SourceText(source, proof, Some(key)))) != Some(key)
  {
    var w := Cell(SourceHead(source, proof, true));
    CellIsClean(SourceHead(source, proof, true));
    KeysReadHaveNoPipe(w, ' ');
    KeyReadBack(source, proof, key);
  }

  /** Nor is one behind a source that names another: here the row is found by x, not by y. */
  lemma SecondKeyIsLost() returns (source: string, key: string)
    ensures key == "y" && OneToken(key) && Spaceless(key) && NoBarePipe(key, ' ') && !Blank(source)
    ensures FindKey(Cell(SourceText(source, "", Some(key)))) == Some("x") != Some(key)
  {
    source, key := DEDUP + " x", "y";
    PlainEnds(source);
    var dot, rest := "\U{B7}", " x \U{B7} ";
    DedupIsPlain();
    DotIsPlain();
    WordsOfNothing();
    assert key + "" == key && Spaceless(key);
    WordsBegin(key, "");
    NoPipeNoBare(key, ' ');
    KeyReadBack(source, "", key);
    SourceCell(source, "", key, key);
    EscapeKeeps(key, ' ');
    assert SourceHead(source, "", true) == DEDUP + rest;
    SecondKeyCell(dot, rest);
    var w := Cell(DEDUP + rest);
    KeyAtTheEnd(w, key, " " + (DEDUP + " " + key));
  }

  lemma PlainEnds(s: string)
    requires s != "" && !IsSpace(s[0]) && !IsSpace(s[|s| - 1])
    ensures Strip(s) == s && !Blank(s)
  {
  }

  lemma SecondKeyCell(dot: string, rest: string)
    requires dot == "\U{B7}" && rest == " x \U{B7} "
    ensures Cell(DEDUP + rest) == DEDUP + (" x " + dot) && FindKey(Cell(DEDUP + rest)) == Some("x")
  {
    DedupIsPlain();
    DotIsPlain();
    assert IsSpace(' ') && !IsSpace('x');
    hide Words, Escape, FindKey, DEDUP, IsSpace;
    CellBegins(DEDUP, rest);
    RestWords(dot, rest);
    assert Join(["x", dot], " ") == "x " + dot;
    hide Join;
    NoPipeNoBare("x " + dot, ' ');
    EscapeKeeps("x " + dot, ' ');
    assert " " + ("x " + dot) == " x " + dot;
    KeyInFront(dot);
  }

  lemma RestWords(dot: string, rest: string)
    requires dot == "\U{B7}" && rest == " x \U{B7} "
    ensures Words(rest) == ["x", dot]
  {
    DotIsPlain();
    assert IsSpace(' ') && !IsSpace('x');
    hide Words, IsSpace;
    WordsSkip(rest);
    assert rest[1..] == "x" + (" " + (dot + " ")) && Spaceless("x");
    WordsBegin("x", " " + (dot + " "));
    WordsSkip(" " + (dot + " "));
    assert (" " + (dot + " "))[1..] == dot + " ";
    WordsBegin(dot, " ");
    WordsSkip(" ");
    WordsOfNothing();
    assert " "[1..] == "";
    assert ["x"] + ([dot] + []) == ["x", dot];
  }

  lemma KeyInFront(dot: string)
    requires dot == "\U{B7}"
    ensures FindKey(DEDUP + (" x " + dot)) == Some("x")
  {
    var s := DEDUP + (" x " + dot);
    assert s[|DEDUP|..] == " x " + dot && s[..|DEDUP|] == DEDUP;
    assert (" x " + dot)[1..] == "x" + (" " + dot);
    FirstWordStops("x", " " + dot);
    assert StripLeft(" x " + dot) == StripLeft("x" + (" " + dot));
    WordsBegin("x", " " + dot);
  }
}
