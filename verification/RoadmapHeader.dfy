/**
The header line of the roadmap: how it is written and what lint reads in it
(scripts/dev/roadmap.py).

Word characters are ASCII letters, digits and the underscore. The script's word boundary is
Unicode's: behind a letter such as a-umlaut no counter begins for the script, and one does here.
*/
module RoadmapHeader {
  import opened Common
  import opened Calendar
  import opened RoadmapText
  import opened RoadmapCells

  /** Open rows per counted status, and the open rows past their day. */
  datatype Counts = Counts(active: nat, ready: nat, inPr: nat, entered: nat, stale: nat)

  // ----- Reading -------------------------------------------------------------------------

  predicate WordChar(c: char) { 'a' <= c <= 'z' || 'A' <= c <= 'Z' || IsDigit(c) || c == '_' }

  predicate Named(name: string) { name == "aktiv" || name == "bereit" || name == "pr" || name == "neu" }

  /** The counter a text begins with. */
  function NameAt(s: string): string {
    if StartsWith(s, "aktiv") then "aktiv"
    else if StartsWith(s, "bereit") then "bereit"
    else if StartsWith(s, "pr") then "pr"
    else if StartsWith(s, "neu") then "neu"
    else ""
  }

  datatype Field = Field(name: string, value: nat, rest: string)

  /** Behind a counter's name: white space, its number, a slash and its cap. */
  function FieldOf(name: string, s: string): (f: Option<Field>)
    ensures f.Some? ==> |f.value.rest| < |s|
  {
    var number := StripLeft(s);
    StripLeftShorter(s);
    if number == s || DigitRun(number) == 0 then None
    else CapOf(name, Value(number[..DigitRun(number)]), number[DigitRun(number)..])
  }

  function CapOf(name: string, value: nat, s: string): (f: Option<Field>)
    ensures f.Some? ==> |f.value.rest| < |s|
  {
    var slash := StripLeft(s);
    StripLeftShorter(s);
    if slash == "" || slash[0] != '/' then None
    else
      var cap := StripLeft(slash[1..]);
      StripLeftShorter(slash[1..]);
      if DigitRun(cap) == 0 then None else Some(Field(name, value, cap[DigitRun(cap)..]))
  }

  /** A counter at the front of a text, and what follows it. */
  function FieldAt(s: string): (f: Option<Field>)
    ensures f.Some? ==> |f.value.rest| < |s|
  {
    if NameAt(s) == "" then None else FieldOf(NameAt(s), s[|NameAt(s)|..])
  }

  /** Every counter of a line, in order; `prev` is the character before `s`. */
  function FindFields(s: string, prev: char): seq<(string, nat)>
    decreases |s|
  {
    if s == "" then []
    else if !WordChar(prev) && FieldAt(s).Some? then
      var f := FieldAt(s).value;
      [(f.name, f.value)] + FindFields(f.rest, '0')
    else FindFields(s[1..], s[0])
  }

  /** The last number said for a name. */
  function Said(fields: seq<(string, nat)>, name: string): Option<nat> {
    if fields == [] then None
    else if fields[|fields| - 1].0 == name then Some(fields[|fields| - 1].1)
    else Said(fields[..|fields| - 1], name)
  }

  /** The first number behind ALT. */
  function FindAlt(s: string, prev: char): Option<nat>
    decreases |s|
  {
    if s == "" then None
    else if !WordChar(prev) && StartsWith(s, "ALT:") && DigitRun(StripLeft(s[4..])) > 0 then
      Some(Value(StripLeft(s[4..])[..DigitRun(StripLeft(s[4..]))]))
    else FindAlt(s[1..], s[0])
  }

  predicate Contains(s: string, t: string) { exists i :: 0 <= i <= |s| && StartsWith(s[i..], t) }

  predicate FieldsSay(fields: seq<(string, nat)>, c: Counts) {
    && Said(fields, "aktiv") == Some(c.active) && Said(fields, "bereit") == Some(c.ready)
    && Said(fields, "pr") == Some(c.inPr) && Said(fields, "neu") == Some(c.entered)
  }

  /** lint_header has nothing to say: there is a header, and it says what the rows say. */
  predicate HeaderClean(line: Option<string>, c: Counts) {
    && line.Some? && Contains(line.value, "WIP:") && FieldsSay(FindFields(line.value, '\n'), c)
    && FindAlt(line.value, '\n') == Some(c.stale)
  }

  // ----- What is read --------------------------------------------------------------------

  predicate White(s: string) { forall i :: 0 <= i < |s| ==> IsSpace(s[i]) }

  predicate Number(s: string) { s != "" && AllDigits(s) }

  lemma {:induction false} StripLeftSplits(s: string) returns (w: string)
    ensures White(w) && s == w + StripLeft(s) && (StripLeft(s) == "" || !IsSpace(StripLeft(s)[0]))
  {
    w := "";
    if s != "" && IsSpace(s[0]) {
      var v := StripLeftSplits(s[1..]);
      w := [s[0]] + v;
      assert s == [s[0]] + s[1..];
    }
  }

  lemma {:induction false} StripLeftWhite(w: string, t: string)
    requires White(w) && (t == "" || !IsSpace(t[0]))
    ensures StripLeft(w + t) == t
    decreases |w|
  {
    if w == "" {
      assert w + t == t;
    } else {
      assert (w + t)[1..] == w[1..] + t && IsSpace(w[0]);
      StripLeftWhite(w[1..], t);
    }
  }

  /** The texts of a counter: name, white space, number, slash and cap, with or without white space around the slash. */
  predicate CounterText(s: string, name: string, a: string, number: string, b: string, c: string, cap: string, rest: string) {
    && s == name + (a + (number + (b + ("/" + (c + (cap + rest)))))) && Named(name)
    && a != "" && White(a) && White(b) && White(c) && Number(number) && Number(cap) && (rest == "" || !IsDigit(rest[0]))
  }

  /** What is read as a counter is one. */
  lemma FieldIsText(s: string) returns (a: string, number: string, b: string, c: string, cap: string)
    requires FieldAt(s).Some?
    ensures var f := FieldAt(s).value; CounterText(s, f.name, a, number, b, c, cap, f.rest) && f.value == Value(number)
  {
    var f, name := FieldAt(s).value, NameAt(s);
    var s1 := s[|name|..];
    assert s == name + s1;
    a := StripLeftSplits(s1);
    var s2 := StripLeft(s1);
    number := s2[..DigitRun(s2)];
    var s3 := s2[DigitRun(s2)..];
    assert s2 == number + s3;
    b := StripLeftSplits(s3);
    var s4 := StripLeft(s3);
    var s5 := s4[1..];
    assert s4 == "/" + s5;
    c := StripLeftSplits(s5);
    var s6 := StripLeft(s5);
    cap := s6[..DigitRun(s6)];
    assert s6 == cap + s6[DigitRun(s6)..];
    hide StripLeft, Value;
    assert a == "" ==> "" + s2 == s2;
  }

  /** And every text of one, at the front of whatever follows, is read so. */
  lemma TextIsField(s: string, name: string, a: string, number: string, b: string, c: string, cap: string, rest: string)
    requires CounterText(s, name, a, number, b, c, cap, rest)
    ensures FieldAt(s) == Some(Field(name, Value(number), rest))
  {
    var s6 := cap + rest;
    var s4 := "/" + (c + s6);
    var s2 := number + (b + s4);
    NameReads(name, a + s2);
    assert s[|name|..] == a + s2;
    DigitNoSpace(number[0]);
    DigitNoSpace(cap[0]);
    StripLeftWhite(a, s2);
    assert b + s4 == "" || !IsDigit((b + s4)[0]) by { assert b != "" ==> IsSpace(b[0]); SpaceNoDigit(b); }
    RunStops(number, b + s4);
    assert s2[..|number|] == number && s2[|number|..] == b + s4;
    StripLeftWhite(b, s4);
    assert s4[1..] == c + s6;
    StripLeftWhite(c, s6);
    RunStops(cap, rest);
    assert s6[|cap|..] == rest;
    hide StripLeft, Value, NameAt, DigitRun;
  }

  lemma SpaceNoDigit(b: string)
    requires White(b)
    ensures b != "" ==> !IsDigit(b[0])
  {
    if b != "" {
      assert IsSpace(b[0]);
    }
  }

  lemma NameReads(name: string, rest: string)
    requires Named(name)
    ensures NameAt(name + rest) == name
  {
    var s := name + rest;
    assert s[..|name|] == name && s[0] == name[0];
    assert "aktiv"[0] == 'a' && "bereit"[0] == 'b' && "pr"[0] == 'p' && "neu"[0] == 'n';
    assert |s| >= 5 ==> s[..5][0] == s[0];
    assert |s| >= 6 ==> s[..6][0] == s[0];
    assert |s| >= 2 ==> s[..2][0] == s[0];
    assert |s| >= 3 ==> s[..3][0] == s[0];
  }

  /** A word begins at i, `prev` being the character before the text. */
  predicate WordBegins(s: string, prev: char, i: nat)
    requires i < |s|
  {
    !WordChar(if i == 0 then prev else s[i - 1])
  }

  /** "ALT:" with a number behind it, white space between or not. */
  predicate AltNumber(s: string, a: string, number: string, rest: string) {
    s == "ALT:" + (a + (number + rest)) && White(a) && Number(number) && (rest == "" || !IsDigit(rest[0]))
  }

  ghost predicate AltStands(s: string, prev: char, i: nat) {
    i < |s| && WordBegins(s, prev, i) && exists a: string, number: string, rest: string :: AltNumber(s[i..], a, number, rest)
  }

  /** The test at one place is whether it stands there. */
  lemma AltTest(s: string) returns (a: string, number: string, rest: string)
    ensures var found := StartsWith(s, "ALT:") && DigitRun(StripLeft(s[4..])) > 0;
            && (found ==> AltNumber(s, a, number, rest) && number == StripLeft(s[4..])[..DigitRun(StripLeft(s[4..]))])
            && (!found ==> forall x: string, n: string, r: string :: !AltNumber(s, x, n, r))
  {
    a, number, rest := "", "", "";
    if StartsWith(s, "ALT:") && DigitRun(StripLeft(s[4..])) > 0 {
      a := StripLeftSplits(s[4..]);
      var u := StripLeft(s[4..]);
      number, rest := u[..DigitRun(u)], u[DigitRun(u)..];
      hide StripLeft, IsSpace;
      assert s == "ALT:" + s[4..] && u == number + rest;
    } else {
      hide StripLeft, IsSpace, DigitRun;
      forall x: string, n: string, r: string ensures !AltNumber(s, x, n, r) {
        if AltNumber(s, x, n, r) {
          AltPasses(s, x, n, r);
        }
      }
    }
  }

  lemma AltPasses(s: string, a: string, number: string, rest: string)
    requires AltNumber(s, a, number, rest)
    ensures StartsWith(s, "ALT:") && DigitRun(StripLeft(s[4..])) > 0
  {
    hide IsSpace;
    assert s[..4] == "ALT:" && s[4..] == a + (number + rest);
    DigitNoSpace(number[0]);
    StripLeftWhite(a, number + rest);
    RunStops(number, rest);
  }

  lemma StandsInTail(s: string, prev: char, i: nat)
    requires s != ""
    ensures AltStands(s[1..], s[0], i) == AltStands(s, prev, i + 1)
  {
    if i < |s[1..]| {
      assert s[1..][i..] == s[i + 1..];
    }
  }

  /** The number read behind ALT is that of the first place it stands at. */
  lemma {:induction false} AltIsTheFirst(s: string, prev: char) returns (i: nat, a: string, number: string, rest: string)
    requires FindAlt(s, prev).Some?
    ensures AltStands(s, prev, i) && forall j: nat :: j < i ==> !AltStands(s, prev, j)
    ensures AltNumber(s[i..], a, number, rest) && FindAlt(s, prev) == Some(Value(number))
    decreases |s|
  {
    a, number, rest := AltTest(s);
    assert s[0..] == s;
    hide StripLeft, Value, WordChar, AltNumber;
    i := 0;
    if !(!WordChar(prev) && StartsWith(s, "ALT:") && DigitRun(StripLeft(s[4..])) > 0) {
      assert !AltStands(s, prev, 0);
      var k;
      k, a, number, rest := AltIsTheFirst(s[1..], s[0]);
      i := k + 1;
      StandsInTail(s, prev, k);
      forall j: nat | j < i ensures !AltStands(s, prev, j) {
        if j > 0 {
          StandsInTail(s, prev, j - 1);
        }
      }
      assert s[1..][k..] == s[i..];
    }
  }

  /** Wherever it stands, a number is read. */
  lemma {:induction false} AltIsRead(s: string, prev: char, i: nat)
    requires AltStands(s, prev, i)
    ensures FindAlt(s, prev).Some?
    decreases |s|
  {
    var a, number, rest := AltTest(s);
    assert s[0..] == s;
    hide StripLeft, Value, WordChar, AltNumber;
    if i > 0 {
      StandsInTail(s, prev, i - 1);
      AltIsRead(s[1..], s[0], i - 1);
    }
  }

  // ----- Writing -------------------------------------------------------------------------

  function Counter(name: string, value: nat, cap: string): string { name + (" " + (Decimal(value) + ("/" + cap))) }

  const DOT := " \U{B7} "

  function AltText(c: Counts): string { DOT + ("ALT: " + Decimal(c.stale)) }

  function FromNew(c: Counts): string { Counter("neu", c.entered, "20") + AltText(c) }

  function FromPr(c: Counts): string { Counter("pr", c.inPr, "3") + (DOT + FromNew(c)) }

  function FromReady(c: Counts): string { Counter("bereit", c.ready, "2") + (DOT + FromPr(c)) }

  function FromActive(c: Counts): string { Counter("aktiv", c.active, "2") + (DOT + FromReady(c)) }

  /** wip_text. */
  function WipText(c: Counts): string { "WIP: " + FromActive(c) }

  /** The line set_header writes. */
  function HeaderText(today: Date, c: Counts): string { "Stand: " + (Iso(today) + (DOT + WipText(c))) }

  // ----- What is written is what is read -------------------------------------------------

  predicate Starts(c: char) { c == 'a' || c == 'b' || c == 'p' || c == 'n' }

  predicate SkipsAt(p: string, prev: char, i: nat)
    requires i < |p|
  {
    Starts(p[i]) ==> WordChar(if i == 0 then prev else p[i - 1])
  }

  /** No counter begins in `p`: where one could, a word goes on. */
  predicate Skips(p: string, prev: char) { forall i :: 0 <= i < |p| ==> SkipsAt(p, prev, i) }

  lemma NoNameNoField(s: string)
    requires s != "" && !Starts(s[0])
    ensures FieldAt(s).None?
  {
    assert "aktiv"[0] == 'a' && "bereit"[0] == 'b' && "pr"[0] == 'p' && "neu"[0] == 'n';
    assert |s| >= 5 ==> s[..5][0] == s[0];
    assert |s| >= 6 ==> s[..6][0] == s[0];
    assert |s| >= 2 ==> s[..2][0] == s[0];
    assert |s| >= 3 ==> s[..3][0] == s[0];
  }

  lemma {:induction false} SkipFields(p: string, rest: string, prev: char)
    requires Skips(p, prev)
    ensures FindFields(p + rest, prev) == FindFields(rest, LastOf(p, prev))
    decreases |p|
  {
    var s := p + rest;
    if p == "" {
      assert s == rest;
    } else {
      assert s[0] == p[0] && s[1..] == p[1..] + rest;
      assert SkipsAt(p, prev, 0);
      if !Starts(p[0]) {
        NoNameNoField(s);
      }
      forall i | 0 <= i < |p[1..]| ensures SkipsAt(p[1..], p[0], i) {
        assert SkipsAt(p, prev, i + 1);
      }
      hide FieldAt;
      SkipFields(p[1..], rest, p[0]);
      assert LastOf(p[1..], p[0]) == LastOf(p, prev);
    }
  }

  lemma StripLeftDigits(s: string)
    requires s != "" && (IsDigit(s[0]) || s[0] == '/')
    ensures StripLeft(s) == s && StripLeft(" " + s) == s
  {
    assert (" " + s)[1..] == s && IsSpace(' ');
    assert !IsSpace(s[0]) by {
      if IsDigit(s[0]) {
        DigitNoSpace(s[0]);
      }
    }
  }

  lemma DigitNoSpace(c: char)
    requires IsDigit(c)
    ensures !IsSpace(c)
  {
  }

  /** A counter as it is written, before anything but a digit, is that counter. */
  lemma CounterReads(name: string, value: nat, cap: string, rest: string)
    requires Named(name) && cap != "" && AllDigits(cap) && (rest == "" || !IsDigit(rest[0]))
    ensures FieldAt(Counter(name, value, cap) + rest) == Some(Field(name, value, rest))
  {
    var n := Decimal(value);
    var s := Counter(name, value, cap) + rest;
    var a := n + ("/" + (cap + rest));
    assert s == name + (" " + a);
    NameReads(name, " " + a);
    assert s[|name|..] == " " + a;
    hide FieldOf, NameAt, Counter;
    NumberReads(name, value, cap, rest);
  }

  lemma NumberReads(name: string, value: nat, cap: string, rest: string)
    requires cap != "" && AllDigits(cap) && (rest == "" || !IsDigit(rest[0]))
    ensures FieldOf(name, " " + (Decimal(value) + ("/" + (cap + rest)))) == Some(Field(name, value, rest))
  {
    var n, tail := Decimal(value), "/" + (cap + rest);
    var a := n + tail;
    hide CapOf, StripLeft;
    StripLeftDigits(a);
    RunStops(n, tail);
    DecimalReads(value);
    assert a[..|n|] == n && a[|n|..] == tail;
    CapReads(name, value, cap, rest);
    assert |" " + a| == |a| + 1;
  }

  lemma CapReads(name: string, value: nat, cap: string, rest: string)
    requires cap != "" && AllDigits(cap) && (rest == "" || !IsDigit(rest[0]))
    ensures CapOf(name, value, "/" + (cap + rest)) == Some(Field(name, value, rest))
  {
    hide StripLeft;
    StripLeftDigits("/" + (cap + rest));
    assert ("/" + (cap + rest))[1..] == cap + rest;
    StripLeftDigits(cap + rest);
    RunStops(cap, rest);
    assert (cap + rest)[|cap|..] == rest;
  }

  /** One counter, read off the front of what is left of the line. */
  lemma FieldsBegin(name: string, value: nat, cap: string, rest: string, prev: char)
    requires Named(name) && cap != "" && AllDigits(cap) && (rest == "" || !IsDigit(rest[0])) && !WordChar(prev)
    ensures FindFields(Counter(name, value, cap) + rest, prev) == [(name, value)] + FindFields(rest, '0')
  {
    CounterReads(name, value, cap, rest);
    hide FieldAt, Counter;
  }

  lemma DotSkips(rest: string)
    ensures FindFields(DOT + rest, '0') == FindFields(rest, ' ')
  {
    SkipFields(DOT, rest, '0');
  }

  predicate NoA(s: string) { forall i :: 0 <= i < |s| ==> s[i] != 'A' }

  lemma {:induction false} SkipAlt(p: string, rest: string, prev: char)
    requires NoA(p)
    ensures FindAlt(p + rest, prev) == FindAlt(rest, LastOf(p, prev))
    decreases |p|
  {
    var s := p + rest;
    if p == "" {
      assert s == rest;
    } else {
      assert s[0] == p[0] && s[1..] == p[1..] + rest;
      assert |s| >= 4 ==> s[..4][0] == s[0];
      assert "ALT:"[0] == 'A';
      SkipAlt(p[1..], rest, p[0]);
      assert LastOf(p[1..], p[0]) == LastOf(p, prev);
    }
  }

  lemma AltReads(n: nat)
    ensures FindAlt("ALT: " + Decimal(n), ' ') == Some(n)
  {
    var d := Decimal(n);
    var s := "ALT: " + d;
    assert s[..4] == "ALT:" && s[4..] == " " + d && d + "" == d;
    StripLeftDigits(d);
    RunStops(d, "");
    DecimalReads(n);
    assert d[..|d|] == d;
  }

  lemma {:induction false} DigitsSkip(s: string, prev: char)
    requires AllDigits(s)
    ensures FindFields(s, prev) == []
    decreases |s|
  {
    if s != "" {
      NoNameNoField(s);
      hide FieldAt;
      DigitsSkip(s[1..], s[0]);
    }
  }

  lemma AltHasNoField(c: Counts)
    ensures FindFields(AltText(c), '0') == []
  {
    var d := Decimal(c.stale);
    SkipFields(DOT, "ALT: " + d, '0');
    SkipFields("ALT: ", d, ' ');
    DigitsSkip(d, ' ');
  }

  lemma IsoSkips(t: Date, prev: char)
    requires ValidDate(t)
    ensures Skips(Iso(t), prev) && NoA(Iso(t)) && Iso(t) != ""
  {
    IsoReads(t);
    var s := Iso(t);
    forall i | 0 <= i < |s| ensures !Starts(s[i]) && s[i] != 'A' {
      assert i < 4 ==> s[i] == s[..4][i];
      assert 5 <= i < 7 ==> s[i] == s[5..7][i - 5];
      assert 8 <= i ==> s[i] == s[8..][i - 8];
      assert IsDigit(s[i]) || s[i] == '-';
    }
  }

  function FieldsOf(c: Counts): seq<(string, nat)> { [("aktiv", c.active), ("bereit", c.ready), ("pr", c.inPr), ("neu", c.entered)] }

  lemma NewFields(c: Counts)
    ensures FindFields(FromNew(c), ' ') == [("neu", c.entered)]
  {
    AltBegins(c);
    hide Counter, FindFields, AltText;
    FieldsBegin("neu", c.entered, "20", AltText(c), ' ');
    AltHasNoField(c);
  }

  lemma PrFields(c: Counts)
    ensures FindFields(FromPr(c), ' ') == [("pr", c.inPr), ("neu", c.entered)]
  {
    hide Counter, FindFields, FromNew;
    FieldThen("pr", c.inPr, "3", FromNew(c));
    NewFields(c);
  }

  lemma ReadyFields(c: Counts)
    ensures FindFields(FromReady(c), ' ') == [("bereit", c.ready), ("pr", c.inPr), ("neu", c.entered)]
  {
    hide Counter, FindFields, FromPr;
    FieldThen("bereit", c.ready, "2", FromPr(c));
    PrFields(c);
  }

  lemma WipFields(c: Counts)
    ensures FindFields(WipText(c), ' ') == FieldsOf(c)
  {
    hide Counter, FindFields, FromReady;
    WipSkips(FromActive(c));
    FieldThen("aktiv", c.active, "2", FromReady(c));
    ReadyFields(c);
  }

  lemma WipSkips(rest: string)
    ensures FindFields("WIP: " + rest, ' ') == FindFields(rest, ' ')
  {
    SkipFields("WIP: ", rest, ' ');
  }

  lemma FieldThen(name: string, value: nat, cap: string, next: string)
    requires Named(name) && cap != "" && AllDigits(cap)
    ensures FindFields(Counter(name, value, cap) + (DOT + next), ' ') == [(name, value)] + FindFields(next, ' ')
  {
    hide Counter, FindFields;
    assert (DOT + next)[0] == ' ' && !WordChar(' ');
    FieldsBegin(name, value, cap, DOT + next, ' ');
    DotSkips(next);
  }

  lemma AltBegins(c: Counts)
    ensures AltText(c) != "" && AltText(c)[0] == ' '
  {
  }

  lemma FieldsSayCounts(c: Counts)
    ensures FieldsSay(FieldsOf(c), c)
  {
    var f := FieldsOf(c);
    assert f[..3] == [("aktiv", c.active), ("bereit", c.ready), ("pr", c.inPr)];
    assert f[..3][..2] == [("aktiv", c.active), ("bereit", c.ready)];
    assert f[..3][..2][..1] == [("aktiv", c.active)];
    assert |"aktiv"| == 5 && |"bereit"| == 6 && |"pr"| == 2 && |"neu"| == 3;
    assert Said(f[..3][..2][..1], "aktiv") == Some(c.active);
    assert Said(f[..3][..2], "aktiv") == Some(c.active) && Said(f[..3][..2], "bereit") == Some(c.ready);
    assert Said(f[..3], "aktiv") == Some(c.active) && Said(f[..3], "bereit") == Some(c.ready) && Said(f[..3], "pr") == Some(c.inPr);
  }

  lemma CounterHasNoA(name: string, value: nat, cap: string)
    requires NoA(name) && AllDigits(cap)
    ensures NoA(Counter(name, value, cap))
  {
    var n := Decimal(value);
    forall i | 0 <= i < |n| ensures n[i] != 'A' { assert IsDigit(n[i]); }
    forall i | 0 <= i < |cap| ensures cap[i] != 'A' { assert IsDigit(cap[i]); }
  }

  lemma AltThen(name: string, value: nat, cap: string, next: string)
    requires NoA(name) && AllDigits(cap)
    ensures FindAlt(Counter(name, value, cap) + (DOT + next), ' ') == FindAlt(next, ' ')
  {
    CounterHasNoA(name, value, cap);
    hide Counter, FindAlt;
    SkipAlt(Counter(name, value, cap), DOT + next, ' ');
    SkipAlt(DOT, next, LastOf(Counter(name, value, cap), ' '));
  }

  lemma WipAlt(c: Counts)
    ensures FindAlt(WipText(c), ' ') == Some(c.stale)
  {
    hide Counter, FindAlt;
    var alt := "ALT: " + Decimal(c.stale);
    SkipAlt("WIP: ", FromActive(c), ' ');
    AltThen("aktiv", c.active, "2", FromReady(c));
    AltThen("bereit", c.ready, "2", FromPr(c));
    AltThen("pr", c.inPr, "3", FromNew(c));
    AltThen("neu", c.entered, "20", alt);
    AltReads(c.stale);
  }

  /** The line set_header writes leaves lint nothing to say. */
  lemma HeaderReads(today: Date, c: Counts)
    requires ValidDate(today)
    ensures HeaderClean(Some(HeaderText(today, c)), c)
  {
    hide HeaderText, WipText, FindFields, FindAlt, FieldsSay;
    HeaderFields(today, c);
    HeaderAlt(today, c);
    FieldsSayCounts(c);
    HeaderHasWip(today, c);
  }

  lemma HeaderFields(today: Date, c: Counts)
    requires ValidDate(today)
    ensures FindFields(HeaderText(today, c), '\n') == FieldsOf(c)
  {
    var iso, wip := Iso(today), WipText(c);
    IsoSkips(today, ' ');
    hide Iso, WipText, FindFields;
    SkipFields("Stand: ", iso + (DOT + wip), '\n');
    SkipFields(iso, DOT + wip, ' ');
    SkipFields(DOT, wip, LastOf(iso, ' '));
    WipFields(c);
  }

  lemma HeaderAlt(today: Date, c: Counts)
    requires ValidDate(today)
    ensures FindAlt(HeaderText(today, c), '\n') == Some(c.stale)
  {
    var iso, wip := Iso(today), WipText(c);
    IsoSkips(today, ' ');
    hide Iso, WipText, FindAlt;
    SkipAlt("Stand: ", iso + (DOT + wip), '\n');
    SkipAlt(iso, DOT + wip, ' ');
    SkipAlt(DOT, wip, LastOf(iso, ' '));
    WipAlt(c);
  }

  lemma HeaderHasWip(today: Date, c: Counts)
    ensures Contains(HeaderText(today, c), "WIP:")
  {
    var iso, wip := Iso(today), WipText(c);
    var line := HeaderText(today, c);
    WipBegins(c);
    hide Iso, WipText, StartsWith;
    var i := |"Stand: "| + |iso| + |DOT|;
    assert line[i..] == wip;
  }

  lemma WipBegins(c: Counts)
    ensures StartsWith(WipText(c), "WIP:")
  {
    hide FromActive;
    assert WipText(c)[..4] == "WIP:";
  }

  /** It is one line, no heading and no table line. */
  lemma HeaderIsALine(today: Date, c: Counts)
    requires ValidDate(today)
    ensures Without(HeaderText(today, c), '\n') && StartsWith(HeaderText(today, c), "Stand:")
    ensures HeaderText(today, c)[0] == 'S'
  {
    hide Counter, Iso, ValidDate;
    IsoIsPlain(today);
    CounterIsALine("aktiv", c.active, "2");
    CounterIsALine("bereit", c.ready, "2");
    CounterIsALine("pr", c.inPr, "3");
    CounterIsALine("neu", c.entered, "20");
    DecimalIsALine(c.stale);
    assert HeaderText(today, c)[..6] == "Stand:";
  }

  lemma DecimalIsALine(n: nat)
    ensures Without(Decimal(n), '\n')
  {
    var d := Decimal(n);
    forall i | 0 <= i < |d| ensures d[i] != '\n' { assert IsDigit(d[i]); }
  }

  lemma CounterIsALine(name: string, value: nat, cap: string)
    requires Without(name, '\n') && Without(cap, '\n')
    ensures Without(Counter(name, value, cap), '\n')
  {
    DecimalIsALine(value);
  }
}
