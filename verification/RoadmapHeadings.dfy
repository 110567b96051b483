/** The heading of the closed rows, which names the days they are kept (prune in scripts/dev/roadmap.py). */
module RoadmapHeadings {
  import opened RoadmapText
  import opened RoadmapCells
  import opened RoadmapFile
  import opened RoadmapRows

  const CLOSED_FRONT := "## " + ("Abgeschlossen" + " ") + "(letzte "
  const CLOSED_BACK := " Tage)"

  /** CLOSED_HEADING: the heading with any number of days. */
  predicate ClosedHeading(line: string) {
    var n, m := |CLOSED_FRONT|, |line| - |CLOSED_BACK|;
    n < m && StartsWith(line, CLOSED_FRONT) && line[m..] == CLOSED_BACK && AllDigits(line[n..m])
  }

  predicate ClosedItem(item: Item) { item.Plain? && ClosedHeading(item.line) }

  function ClosedTitle(): string { CLOSED_FRONT + Decimal(KEEP_CLOSED_DAYS) + CLOSED_BACK }

  lemma ClosedTitleFits()
    ensures ClosedHeading(ClosedTitle())
  {
    var d := Decimal(KEEP_CLOSED_DAYS);
    hide Decimal;
    var line, n := ClosedTitle(), |CLOSED_FRONT|;
    var m := |line| - |CLOSED_BACK|;
    assert line == CLOSED_FRONT + (d + CLOSED_BACK);
    assert line[..n] == CLOSED_FRONT && line[m..] == CLOSED_BACK && line[n..m] == d;
  }

  /** It is that heading exactly if a number stands where the days do. */
  lemma ClosedHeadingIs(line: string)
    ensures ClosedHeading(line) <==> exists d: string :: AllDigits(d) && d != "" && line == "## Abgeschlossen (letzte " + (d + " Tage)")
  {
    assert CLOSED_FRONT == "## Abgeschlossen (letzte ";
    var n, m := |CLOSED_FRONT|, |line| - |CLOSED_BACK|;
    if ClosedHeading(line) {
      var d := line[n..m];
      assert line == line[..n] + (d + line[m..]);
    }
    if d: string :| AllDigits(d) && d != "" && line == "## Abgeschlossen (letzte " + (d + " Tage)") {
      assert line[..n] == CLOSED_FRONT && line[n..m] == d && line[m..] == CLOSED_BACK;
    }
  }

  /** Whatever the number, it is the section of the closed rows. */
  lemma ClosedHeadingNames(line: string)
    requires ClosedHeading(line)
    ensures StartsWith(line, "## ") && SectionName(line) == Closed && KindOf(Plain(line)) == Heading(Closed)
  {
    hide Strip, Titled, AllDigits;
    var n, m := |CLOSED_FRONT|, |line| - |CLOSED_BACK|;
    FrontChars(line, CLOSED_FRONT);
    assert line[..3] == "## ";
    var title := line[3..];
    assert CLOSED_FRONT[3..17] == "Abgeschlossen" + " ";
    assert title[..14] == line[..n][3..17] == CLOSED_FRONT[3..17];
    assert title[|title| - 1] == line[m..][5] == ')';
    PlainEnds(title);
    OtherTitles(title);
    IsTitled(title, "Abgeschlossen");
  }

  lemma FrontChars(line: string, front: string)
    requires StartsWith(line, front)
    ensures |front| <= |line| && forall i :: 0 <= i < |front| ==> line[i] == front[i]
  {
    forall i | 0 <= i < |front| ensures line[i] == front[i] {
      assert line[..|front|][i] == line[i];
    }
  }

  lemma IsTitled(title: string, name: string)
    requires |title| > |name| && title[..|name| + 1] == name + " "
    ensures Titled(title, name)
  {
  }

  lemma NotTitled(title: string, name: string, i: nat)
    requires i < |title| && i < |name| && title[i] != name[i]
    ensures !Titled(title, name)
  {
    assert |title| > |name| ==> title[..|name| + 1][i] == title[i];
    assert (name + " ")[i] == name[i];
  }

  lemma OtherTitles(title: string)
    requires |title| >= 2 && title[0] == 'A' && title[1] == 'b'
    ensures !Titled(title, "Als N\U{E4}chstes") && !Titled(title, "In Arbeit") && !Titled(title, "Neu") && !Titled(title, "Geplant")
    ensures !Titled(title, "Zur\U{FC}ckgestellt") && !Titled(title, "Blockiert")
  {
    hide Titled;
    NotTitled(title, "Als N\U{E4}chstes", 1);
    NotTitled(title, "In Arbeit", 0);
    NotTitled(title, "Neu", 0);
    NotTitled(title, "Geplant", 0);
    NotTitled(title, "Zur\U{FC}ckgestellt", 0);
    NotTitled(title, "Blockiert", 0);
  }

  /** Items of the same kinds hold the same rows. */
  lemma {:induction false} SameKindsRows(a: seq<Item>, b: seq<Item>, section: Section)
    requires |a| == |b| && forall i :: 0 <= i < |a| ==> KindOf(a[i]) == KindOf(b[i])
    ensures RowsFrom(a, section) == RowsFrom(b, section)
    decreases |a|
  {
    hide KindOf;
    if a != [] {
      assert KindOf(a[0]) == KindOf(b[0]);
      SameKindsRows(a[1..], b[1..], if KindOf(a[0]).Heading? then KindOf(a[0]).section else section);
    }
  }

  lemma HeadingReads(line: string, inSection: bool)
    requires StartsWith(line, "## ") && Without(line, '\n')
    ensures Readable([Plain(line)], inSection) && Under([Plain(line)], inSection)
  {
    assert [Plain(line)][1..] == [];
  }

  /** One heading exchanged for another of its section. */
  lemma HeadingReplaced(items: seq<Item>, at: nat, line: string)
    requires at < |items| && Readable(items, false) && IsHeading(items[at])
    requires StartsWith(line, "## ") && Without(line, '\n') && KindOf(Plain(line)) == KindOf(items[at])
    ensures Readable(items[at := Plain(line)], false) && Rows(items[at := Plain(line)]) == Rows(items)
  {
    hide Readable, Under, KindOf, RowsFrom;
    var head, one, tail, other := items[..at], [items[at]], items[at + 1..], [Plain(line)];
    assert items == head + (one + tail);
    assert items[at := Plain(line)] == head + (other + tail);
    SameKindsRows(items, items[at := Plain(line)], NOWHERE);
    HeadingReads(line, Under(head, false));
    UnderHeading(one, 0, Under(head, false));
    Splice(head, one, other, tail);
  }

  lemma ClosedTitleIsALine()
    ensures Without(ClosedTitle(), '\n')
  {
    var d := Decimal(KEEP_CLOSED_DAYS);
    hide Decimal;
    forall i | 0 <= i < |d| ensures d[i] != '\n' {
      assert IsDigit(d[i]);
    }
    assert forall i :: 0 <= i < |CLOSED_FRONT| ==> CLOSED_FRONT[i] != '\n';
    assert forall i :: 0 <= i < |CLOSED_BACK| ==> CLOSED_BACK[i] != '\n';
  }
}
