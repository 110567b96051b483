/**
The roadmap file as text (scripts/dev/roadmap.py): lines, table rows and cells, how they
are read and how they are written.
*/
module RoadmapText {
  predicate StartsWith(s: string, prefix: string) { |prefix| <= |s| && s[..|prefix|] == prefix }

  // ----- Lines ---------------------------------------------------------------------------

  function Split(s: string, sep: char): (parts: seq<string>)
    ensures parts != []
  {
    if s == "" then [""]
    else
      var rest := Split(s[1..], sep);
      if s[0] == sep then [""] + rest else [[s[0]] + rest[0]] + rest[1..]
  }

  function Join(parts: seq<string>, sep: string): string {
    if parts == [] then "" else if |parts| == 1 then parts[0] else parts[0] + sep + Join(parts[1..], sep)
  }

  lemma {:induction false} JoinSplit(s: string, sep: char)
    ensures Join(Split(s, sep), [sep]) == s
  {
    if s != "" {
      JoinSplit(s[1..], sep);
      var rest := Split(s[1..], sep);
      if s[0] == sep {
        assert Split(s, sep)[1..] == rest;
        assert Join(Split(s, sep), [sep]) == "" + [sep] + Join(rest, [sep]);
      } else {
        assert Split(s, sep)[1..] == rest[1..];
        assert |rest| > 1 ==> Join(rest, [sep]) == rest[0] + [sep] + Join(rest[1..], [sep]);
        assert [s[0]] + s[1..] == s;
      }
    }
  }

  predicate Without(s: string, c: char) { forall i :: 0 <= i < |s| ==> s[i] != c }

  lemma {:induction false} SplitFront(p: string, rest: string, sep: char)
    requires Without(p, sep)
    ensures Split(p + [sep] + rest, sep) == [p] + Split(rest, sep)
  {
    var s := p + [sep] + rest;
    if p == "" {
      assert s[1..] == rest;
    } else {
      assert s[0] == p[0] && s[1..] == p[1..] + [sep] + rest;
      SplitFront(p[1..], rest, sep);
      assert ([p[1..]] + Split(rest, sep))[1..] == Split(rest, sep);
      assert [p[0]] + p[1..] == p;
    }
  }

  lemma {:induction false} SplitOne(p: string, sep: char)
    requires Without(p, sep)
    ensures Split(p, sep) == [p]
  {
    if p != "" {
      SplitOne(p[1..], sep);
      assert [p[0]] + p[1..] == p;
    }
  }

  lemma {:induction false} SplitJoin(parts: seq<string>, sep: char)
    requires parts != [] && forall i :: 0 <= i < |parts| ==> Without(parts[i], sep)
    ensures Split(Join(parts, [sep]), sep) == parts
  {
    if |parts| == 1 {
      SplitOne(parts[0], sep);
    } else {
      SplitJoin(parts[1..], sep);
      SplitFront(parts[0], Join(parts[1..], [sep]), sep);
      assert parts == [parts[0]] + parts[1..];
    }
  }

  lemma {:induction false} SplitPieces(s: string, sep: char)
    ensures forall i :: 0 <= i < |Split(s, sep)| ==> Without(Split(s, sep)[i], sep)
  {
    if s != "" {
      SplitPieces(s[1..], sep);
    }
  }

  // ----- Cells ---------------------------------------------------------------------------

  /** What str.split and str.strip take for white space. */
  predicate IsSpace(c: char) {
    c in {' ', '\t', '\n', '\r', '\U{0B}', '\U{0C}', '\U{1C}', '\U{1D}', '\U{1E}', '\U{1F}', '\U{85}', '\U{A0}', '\U{1680}',
          '\U{2000}', '\U{2001}', '\U{2002}', '\U{2003}', '\U{2004}', '\U{2005}', '\U{2006}', '\U{2007}', '\U{2008}', '\U{2009}',
          '\U{200A}', '\U{2028}', '\U{2029}', '\U{202F}', '\U{205F}', '\U{3000}'}
  }

  function StripLeft(s: string): string { if s != "" && IsSpace(s[0]) then StripLeft(s[1..]) else s }

  function StripRight(s: string): string { if s != "" && IsSpace(s[|s| - 1]) then StripRight(s[..|s| - 1]) else s }

  function Strip(s: string): string { StripRight(StripLeft(s)) }

  predicate Stripped(s: string) { s == "" || (!IsSpace(s[0]) && !IsSpace(s[|s| - 1])) }

  /** Split at every pipe no backslash stands before; `prev` is the character before `s`. */
  function SplitPipes(s: string, prev: char): (parts: seq<string>)
    ensures parts != []
    decreases |s|
  {
    if s == "" then [""]
    else
      var rest := SplitPipes(s[1..], s[0]);
      if s[0] == '|' && prev != '\\' then [""] + rest else [[s[0]] + rest[0]] + rest[1..]
  }

  predicate Blank(s: string) { Strip(s) == "" }

  function SplitCells(line: string): seq<string> {
    var parts := SplitPipes(line, '\n');
    var tail := if Blank(parts[0]) then parts[1..] else parts;
    var inner := if tail != [] && Blank(tail[|tail| - 1]) then tail[..|tail| - 1] else tail;
    seq(|inner|, i requires 0 <= i < |inner| => Strip(inner[i]))
  }

  /** No pipe that would start a new cell. */
  predicate NoBarePipe(s: string, prev: char) {
    forall i :: 0 <= i < |s| && s[i] == '|' ==> Escaped(s, prev, i)
  }

  predicate Escaped(s: string, prev: char, i: nat)
    requires i < |s|
  {
    (if i == 0 then prev else s[i - 1]) == '\\'
  }

  predicate Clean(c: string) { Stripped(c) && NoBarePipe(c, ' ') }

  function Escape(s: string, prev: char): string
    decreases |s|
  {
    if s == "" then ""
    else if s[0] == '|' && prev != '\\' then "\\|" + Escape(s[1..], '|')
    else [s[0]] + Escape(s[1..], s[0])
  }

  /** The words of a value. */
  function Words(s: string): seq<string>
    decreases |s|
  {
    var t := StripLeft(s);
    if t == "" then [] else (StripLeftShorter(s); [FirstWord(t)] + Words(t[|FirstWord(t)|..]))
  }

  function FirstWord(s: string): (w: string)
    ensures |w| <= |s| && w == s[..|w|]
    ensures s != "" && !IsSpace(s[0]) ==> w != ""
    ensures forall i :: 0 <= i < |w| ==> !IsSpace(w[i])
  {
    if s == "" || IsSpace(s[0]) then "" else [s[0]] + FirstWord(s[1..])
  }

  lemma StripLeftShorter(s: string)
    ensures |StripLeft(s)| <= |s| && (StripLeft(s) != "" ==> !IsSpace(StripLeft(s)[0]))
  {
  }

  /** cell(): the words joined by single spaces, bare pipes escaped, a dash for nothing. */
  function Cell(value: string): string {
    var escaped := Escape(Join(Words(value), " "), '\n');
    if escaped == "" then "\U{2014}" else escaped
  }

  function RowText(cells: seq<string>): string { "| " + Join(cells, " | ") + " |" }

  // ----- A written row reads back --------------------------------------------------------

  /** The row after its first pipe. */
  function Tail(cells: seq<string>): string {
    if cells == [] then "" else " " + cells[0] + " |" + Tail(cells[1..])
  }

  lemma {:induction false} RowTextIsTail(cells: seq<string>)
    requires cells != []
    ensures RowText(cells) == "|" + Tail(cells)
  {
    if |cells| == 1 {
      assert Tail(cells) == " " + cells[0] + " |" + Tail(cells[1..]) == " " + cells[0] + " |" + "";
      assert RowText(cells) == "| " + cells[0] + " |";
    } else {
      RowTextIsTail(cells[1..]);
      assert Join(cells, " | ") == cells[0] + " | " + Join(cells[1..], " | ");
      assert Tail(cells) == " " + cells[0] + " |" + Tail(cells[1..]);
      Bars(cells[0], Join(cells[1..], " | "), Tail(cells[1..]));
    }
  }

  lemma Bars(first: string, more: string, tail: string)
    requires "| " + more + " |" == "|" + tail
    ensures "| " + (first + " | " + more) + " |" == "|" + (" " + first + " |" + tail)
  {
    assert ("| " + more + " |")[1..] == " " + more + " |" && ("|" + tail)[1..] == tail;
    assert tail == " " + more + " |";
  }

  lemma TailKeeps(s: string, prev: char)
    requires NoBarePipe(s, prev) && s != ""
    ensures NoBarePipe(s[1..], s[0])
  {
    forall i | 0 <= i < |s[1..]| && s[1..][i] == '|' ensures Escaped(s[1..], s[0], i) {
      assert s[i + 1] == '|' && Escaped(s, prev, i + 1);
    }
  }

  lemma {:induction false} PipesFront(p: string, rest: string, prev: char)
    requires NoBarePipe(p, prev) && (if p == "" then prev else p[|p| - 1]) != '\\'
    ensures SplitPipes(p + "|" + rest, prev) == [p] + SplitPipes(rest, '|')
  {
    var s := p + "|" + rest;
    if p == "" {
      assert s[1..] == rest;
    } else {
      assert s[0] == p[0] && s[1..] == p[1..] + "|" + rest;
      assert p[0] == '|' ==> Escaped(p, prev, 0);
      TailKeeps(p, prev);
      PipesFront(p[1..], rest, p[0]);
      assert ([p[1..]] + SplitPipes(rest, '|'))[1..] == SplitPipes(rest, '|');
      assert [p[0]] + p[1..] == p;
    }
  }

  function Padded(cells: seq<string>): (r: seq<string>)
    ensures |r| == |cells| && forall i :: 0 <= i < |r| ==> r[i] == " " + cells[i] + " "
  {
    seq(|cells|, i requires 0 <= i < |cells| => " " + cells[i] + " ")
  }

  lemma {:induction false} PipesOfTail(cells: seq<string>)
    requires forall i :: 0 <= i < |cells| ==> Clean(cells[i])
    ensures SplitPipes(Tail(cells), '|') == Padded(cells) + [""]
  {
    if cells != [] {
      PipesOfTail(cells[1..]);
      var p := " " + cells[0] + " ";
      assert Tail(cells) == p + "|" + Tail(cells[1..]);
      assert NoBarePipe(p, '|') by {
        forall i | 0 <= i < |p| && p[i] == '|' ensures Escaped(p, '|', i) {
          assert cells[0][i - 1] == '|' && Escaped(cells[0], ' ', i - 1);
        }
      }
      PipesFront(p, Tail(cells[1..]), '|');
      assert Padded(cells) == [p] + Padded(cells[1..]);
    }
  }

  lemma StripPadded(c: string)
    requires Stripped(c)
    ensures Strip(" " + c + " ") == c
  {
    var s := " " + c + " ";
    assert s[1..] == c + " ";
    if c == "" {
      assert StripLeft(s) == StripLeft(" ") == StripLeft("");
    } else {
      assert StripLeft(s) == StripLeft(c + " ") == c + " ";
      assert (c + " ")[..|c|] == c;
      assert StripRight(c + " ") == StripRight(c) == c;
    }
  }

  /** Any list of clean cells, written as a row, reads back to the same cells. */
  lemma WrittenRowReadsBack(cells: seq<string>)
    requires cells != [] && forall i :: 0 <= i < |cells| ==> Clean(cells[i])
    ensures SplitCells(RowText(cells)) == cells
  {
    RowTextIsTail(cells);
    PipesOfTail(cells);
    assert "|" + Tail(cells) == "" + "|" + Tail(cells);
    PipesFront("", Tail(cells), '\n');
    var parts := SplitPipes(RowText(cells), '\n');
    assert parts == [""] + (Padded(cells) + [""]);
    assert parts[1..] == Padded(cells) + [""];
    assert (Padded(cells) + [""])[..|cells|] == Padded(cells);
    forall i | 0 <= i < |cells| ensures Strip(Padded(cells)[i]) == cells[i] {
      StripPadded(cells[i]);
    }
  }

  // ----- Every cell is clean -------------------------------------------------------------

  lemma {:induction false} EscapeLeavesNone(s: string, prev: char)
    ensures NoBarePipe(Escape(s, prev), prev)
    ensures s != "" ==> Escape(s, prev) != "" && Escape(s, prev)[|Escape(s, prev)| - 1] == s[|s| - 1]
    ensures s != "" ==> Escape(s, prev)[0] == s[0] || Escape(s, prev)[0] == '\\'
    ensures s == "" ==> Escape(s, prev) == ""
    decreases |s|
  {
    if s != "" {
      var bare := s[0] == '|' && prev != '\\';
      EscapeLeavesNone(s[1..], if bare then '|' else s[0]);
    }
  }

  lemma {:induction false} WordsAreWords(s: string)
    ensures forall w :: w in Words(s) ==> w != "" && forall i :: 0 <= i < |w| ==> !IsSpace(w[i])
    decreases |s|
  {
    var t := StripLeft(s);
    StripLeftShorter(s);
    if t != "" {
      WordsAreWords(t[|FirstWord(t)|..]);
    }
  }

  lemma {:induction false} JoinedWordsStripped(words: seq<string>)
    requires forall w :: w in words ==> w != "" && forall i :: 0 <= i < |w| ==> !IsSpace(w[i])
    ensures Stripped(Join(words, " ")) && (words != [] ==> Join(words, " ") != "")
    ensures forall i :: 0 <= i < |Join(words, " ")| ==> Join(words, " ")[i] == ' ' || !IsSpace(Join(words, " ")[i])
  {
    if words != [] {
      assert words[0] in words;
      if |words| > 1 {
        assert forall w :: w in words[1..] ==> w in words;
        JoinedWordsStripped(words[1..]);
      }
    }
  }

  /** Whatever value a verb is given, its cell is clean and not empty. */
  lemma CellIsClean(value: string)
    ensures Clean(Cell(value)) && Cell(value) != ""
  {
    var joined := Join(Words(value), " ");
    WordsAreWords(value);
    JoinedWordsStripped(Words(value));
    EscapeLeavesNone(joined, '\n');
    var escaped := Escape(joined, '\n');
    assert NoBarePipe(escaped, ' ') by {
      forall i | 0 <= i < |escaped| && escaped[i] == '|' ensures Escaped(escaped, ' ', i) {
        assert Escaped(escaped, '\n', i);
      }
    }
  }

  lemma {:induction false} PiecesHaveNoBarePipe(s: string, prev: char)
    ensures NoBarePipe(SplitPipes(s, prev)[0], prev)
    ensures forall i :: 1 <= i < |SplitPipes(s, prev)| ==> NoBarePipe(SplitPipes(s, prev)[i], '|')
    decreases |s|
  {
    if s != "" {
      PiecesHaveNoBarePipe(s[1..], s[0]);
      var rest := SplitPipes(s[1..], s[0]);
      if !(s[0] == '|' && prev != '\\') {
        var first := [s[0]] + rest[0];
        forall i | 0 <= i < |first| && first[i] == '|' ensures Escaped(first, prev, i) {
          if i > 0 {
            assert rest[0][i - 1] == '|' && Escaped(rest[0], s[0], i - 1);
          }
        }
      }
    }
  }

  lemma {:induction false} StripLeftKeeps(s: string, prev: char)
    requires NoBarePipe(s, prev) && prev != '\\'
    ensures NoBarePipe(StripLeft(s), ' ')
    ensures StripLeft(s) == "" || !IsSpace(StripLeft(s)[0])
  {
    if s != "" && IsSpace(s[0]) {
      TailKeeps(s, prev);
      StripLeftKeeps(s[1..], s[0]);
    } else {
      assert StripLeft(s) == s;
      forall i | 0 <= i < |s| && s[i] == '|' ensures Escaped(s, ' ', i) {
        assert Escaped(s, prev, i);
      }
    }
  }

  lemma PrefixKeeps(s: string, n: nat)
    requires NoBarePipe(s, ' ') && n <= |s|
    ensures NoBarePipe(s[..n], ' ')
  {
    forall i | 0 <= i < n && s[..n][i] == '|' ensures Escaped(s[..n], ' ', i) {
      assert s[i] == '|' && Escaped(s, ' ', i);
    }
  }

  lemma {:induction false} StripRightKeeps(s: string)
    requires NoBarePipe(s, ' ') && (s == "" || !IsSpace(s[0]))
    ensures Clean(StripRight(s))
  {
    if s != "" && IsSpace(s[|s| - 1]) {
      PrefixKeeps(s, |s| - 1);
      StripRightKeeps(s[..|s| - 1]);
    }
  }

  /** Whatever stands in the file, the cells read from it are clean: a changed row reads back. */
  lemma CellsReadAreClean(line: string)
    ensures forall i :: 0 <= i < |SplitCells(line)| ==> Clean(SplitCells(line)[i])
  {
    var parts := SplitPipes(line, '\n');
    PiecesHaveNoBarePipe(line, '\n');
    forall i | 0 <= i < |parts| ensures Clean(Strip(parts[i])) {
      StripLeftKeeps(parts[i], if i == 0 then '\n' else '|');
      StripRightKeeps(StripLeft(parts[i]));
    }
    var tail := if Blank(parts[0]) then parts[1..] else parts;
    var inner := if tail != [] && Blank(tail[|tail| - 1]) then tail[..|tail| - 1] else tail;
    forall i | 0 <= i < |inner| ensures Clean(Strip(inner[i])) {
      assert inner[i] == tail[i];
      assert Blank(parts[0]) ==> tail[i] == parts[i + 1];
      assert !Blank(parts[0]) ==> tail[i] == parts[i];
    }
  }

  // ----- What a cell keeps of its value --------------------------------------------------

  predicate Spaceless(s: string) { forall i :: 0 <= i < |s| ==> !IsSpace(s[i]) }

  lemma {:induction false} FirstWordStops(w: string, rest: string)
    requires Spaceless(w) && (rest == "" || IsSpace(rest[0]))
    ensures FirstWord(w + rest) == w
  {
    if w == "" {
      assert w + rest == rest;
    } else {
      assert (w + rest)[0] == w[0] && (w + rest)[1..] == w[1..] + rest;
      FirstWordStops(w[1..], rest);
      assert [w[0]] + w[1..] == w;
    }
  }

  lemma WordsBegin(w: string, rest: string)
    requires w != "" && Spaceless(w) && (rest == "" || IsSpace(rest[0]))
    ensures StripLeft(w + rest) == w + rest && Words(w + rest) == [w] + Words(rest)
  {
    FirstWordStops(w, rest);
    assert (w + rest)[0] == w[0];
    assert (w + rest)[|w|..] == rest;
  }

  lemma WordsSkip(s: string)
    requires s != "" && IsSpace(s[0])
    ensures Words(s) == Words(s[1..])
  {
    assert StripLeft(s) == StripLeft(s[1..]);
  }

  lemma WordsOfNothing()
    ensures Words("") == []
  {
  }

  /** Behind a space the words begin anew. */
  lemma {:induction false} WordsSplit(p: string, x: string)
    requires p == "" || IsSpace(p[|p| - 1])
    ensures Words(p + x) == Words(p) + Words(x)
    decreases |p|
  {
    WordsOfNothing();
    hide Words, StripLeft;
    if p == "" {
      assert p + x == x;
    } else if IsSpace(p[0]) {
      assert (p + x)[0] == p[0] && (p + x)[1..] == p[1..] + x;
      WordsSkip(p);
      WordsSkip(p + x);
      WordsSplit(p[1..], x);
    } else {
      var w := FirstWord(p);
      WordEnds(p);
      var rest := p[|w|..];
      hide FirstWord;
      assert p == w + rest && p + x == w + (rest + x);
      WordsBegin(w, rest);
      WordsBegin(w, rest + x);
      WordsSplit(rest, x);
      assert [w] + (Words(rest) + Words(x)) == ([w] + Words(rest)) + Words(x);
    }
  }

  lemma {:induction false} WordEnds(s: string)
    ensures |FirstWord(s)| < |s| ==> IsSpace(s[|FirstWord(s)|])
    ensures s != "" && IsSpace(s[|s| - 1]) ==> |FirstWord(s)| < |s|
  {
    if s != "" && !IsSpace(s[0]) {
      WordEnds(s[1..]);
    }
  }

  lemma {:induction false} JoinAppend(a: seq<string>, b: seq<string>, sep: string)
    requires a != [] && b != []
    ensures Join(a + b, sep) == Join(a, sep) + sep + Join(b, sep)
  {
    assert (a + b)[0] == a[0] && (a + b)[1..] == a[1..] + b;
    if |a| == 1 {
      assert a[1..] + b == b;
    } else {
      JoinAppend(a[1..], b, sep);
    }
  }

  function LastOf(s: string, prev: char): char { if s == "" then prev else s[|s| - 1] }

  lemma {:induction false} EscapeAppend(p: string, q: string, prev: char)
    ensures Escape(p + q, prev) == Escape(p, prev) + Escape(q, LastOf(p, prev))
    decreases |p|
  {
    if p == "" {
      assert p + q == q;
    } else {
      assert (p + q)[0] == p[0] && (p + q)[1..] == p[1..] + q;
      var bare := p[0] == '|' && prev != '\\';
      EscapeAppend(p[1..], q, if bare then '|' else p[0]);
      assert LastOf(p[1..], p[0]) == LastOf(p, prev);
    }
  }

  /** Nothing to escape is nothing changed. */
  lemma {:induction false} EscapeKeeps(s: string, prev: char)
    requires NoBarePipe(s, prev)
    ensures Escape(s, prev) == s
    decreases |s|
  {
    if s != "" {
      assert s[0] == '|' ==> Escaped(s, prev, 0);
      TailKeeps(s, prev);
      EscapeKeeps(s[1..], s[0]);
      assert [s[0]] + s[1..] == s;
    }
  }

  lemma NoPipeNoBare(s: string, prev: char)
    requires Without(s, '|')
    ensures NoBarePipe(s, prev)
  {
  }

  /** Escaping puts in backslashes and nothing else. */
  lemma {:induction false} EscapeChars(s: string, prev: char, i: nat)
    requires i < |Escape(s, prev)|
    ensures Escape(s, prev)[i] == '\\' || Escape(s, prev)[i] in s
    decreases |s|
  {
    if s[0] == '|' && prev != '\\' {
      if i >= 2 {
        EscapeChars(s[1..], '|', i - 2);
      }
    } else if i >= 1 {
      EscapeChars(s[1..], s[0], i - 1);
    }
  }

  /** A cell is one line. */
  lemma CellWithout(value: string)
    ensures Without(Cell(value), '\n')
  {
    var joined := Join(Words(value), " ");
    WordsAreWords(value);
    JoinedWordsStripped(Words(value));
    var escaped := Escape(joined, '\n');
    forall i | 0 <= i < |escaped| ensures escaped[i] != '\n' {
      EscapeChars(joined, '\n', i);
      assert IsSpace('\n');
    }
  }

  /** A value of a word and more keeps the word in front. */
  lemma CellBegins(w: string, rest: string)
    requires w != "" && Spaceless(w) && Without(w, '|') && (rest == "" || IsSpace(rest[0]))
    ensures var tail := if Words(rest) == [] then "" else " " + Escape(Join(Words(rest), " "), ' ');
            Cell(w + rest) == w + tail
  {
    hide Words, Escape, Spaceless, IsSpace;
    WordsBegin(w, rest);
    NoPipeNoBare(w, '\n');
    EscapeKeeps(w, '\n');
    var words := Words(rest);
    if words == [] {
      assert [w] + words == [w];
    } else {
      JoinAppend([w], words, " ");
      assert Join([w], " ") == w;
      var more := Join(words, " ");
      hide Join;
      assert w + " " + more == w + (" " + more);
      EscapeAppend(w, " " + more, '\n');
      EscapeAppend(" ", more, LastOf(w, '\n'));
      NoPipeNoBare(" ", LastOf(w, '\n'));
      EscapeKeeps(" ", LastOf(w, '\n'));
    }
  }

  lemma {:induction false} PiecesWithout(s: string, prev: char, c: char)
    requires Without(s, c)
    ensures forall i :: 0 <= i < |SplitPipes(s, prev)| ==> Without(SplitPipes(s, prev)[i], c)
    decreases |s|
  {
    if s != "" {
      PiecesWithout(s[1..], s[0], c);
    }
  }

  lemma {:induction false} StripWithout(s: string, c: char)
    requires Without(s, c)
    ensures Without(StripLeft(s), c) && Without(StripRight(s), c)
  {
    if s != "" {
      StripWithout(s[1..], c);
      StripWithout(s[..|s| - 1], c);
    }
  }

  /** The cells of one line are one line each. */
  lemma CellsReadWithout(line: string)
    requires Without(line, '\n')
    ensures forall i :: 0 <= i < |SplitCells(line)| ==> Without(SplitCells(line)[i], '\n')
  {
    var parts := SplitPipes(line, '\n');
    PiecesWithout(line, '\n', '\n');
    forall i | 0 <= i < |parts| ensures Without(Strip(parts[i]), '\n') {
      StripWithout(parts[i], '\n');
      StripWithout(StripLeft(parts[i]), '\n');
    }
    var tail := if Blank(parts[0]) then parts[1..] else parts;
    var inner := if tail != [] && Blank(tail[|tail| - 1]) then tail[..|tail| - 1] else tail;
    forall i | 0 <= i < |inner| ensures Without(Strip(inner[i]), '\n') {
      assert inner[i] == tail[i];
      assert Blank(parts[0]) ==> tail[i] == parts[i + 1];
      assert !Blank(parts[0]) ==> tail[i] == parts[i];
    }
  }
}
