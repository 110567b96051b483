/** The statuses a row of the roadmap can go through (TRANSITIONS in scripts/dev/roadmap.py). */
module RoadmapLife {
  import opened RoadmapCells
  import opened RoadmapRows
  import opened RoadmapCellsWritten

  /** One status after the other, as legal changes leave them. */
  predicate Life(h: seq<Status>) {
    forall i :: 0 < i < |h| ==> h[i] == h[i - 1] || h[i] in Transitions(h[i - 1])
  }

  /** What the verb takes as legal is a step of a life. */
  lemma LegalIsAStep(row: Row, next: Status)
    ensures Legal(row, next) <==> State(row).Some? && Life([State(row).value, next])
  {
    if State(row).Some? {
      var h := [State(row).value, next];
      assert h[0] == State(row).value && h[1] == next;
      assert Life(h) ==> h[1] == h[1 - 1] || h[1] in Transitions(h[1 - 1]);
    }
  }

  /** Rejected is rejected for good, and closed leads nowhere but there. */
  lemma {:induction false} ClosedForGood(h: seq<Status>, i: nat, j: nat)
    requires Life(h) && i <= j < |h|
    ensures h[i].Abgelehnt? ==> h[j].Abgelehnt?
    ensures h[i].Abgeschlossen? ==> h[j].Abgeschlossen? || h[j].Abgelehnt?
  {
    if i < j {
      ClosedForGood(h, i, j - 1);
    }
  }

  /** All of h[i..j] is one status. */
  predicate Constant(h: seq<Status>, i: nat, j: nat, s: Status) { i < j <= |h| && forall k :: i <= k < j ==> h[k] == s }

  /** The stretch of one status that ends at j, and the status before it. */
  lemma {:induction false} Stretch(h: seq<Status>, j: nat) returns (i: nat)
    requires Life(h) && j < |h|
    ensures i <= j && Constant(h, i, j + 1, h[j])
    ensures i > 0 ==> h[i - 1] != h[j] && h[j] in Transitions(h[i - 1])
  {
    if j == 0 || h[j - 1] != h[j] {
      i := j;
    } else {
      i := Stretch(h, j - 1);
    }
  }

  /**
  Whatever happened before: a row that is not yet ready when its life begins and is closed
  as done at its end was active, then ready, then in a pull request, right before that.
  */
  lemma DoneWasWorkedOn(h: seq<Status>) returns (a: nat, b: nat, c: nat, d: nat)
    requires Life(h) && h != [] && h[|h| - 1].Abgeschlossen?
    requires !h[0].Bereit? && !h[0].InPr? && !h[0].Abgeschlossen?
    ensures Constant(h, a, b, Aktiv) && Constant(h, b, c, Bereit) && Constant(h, c, d, InPr) && Constant(h, d, |h|, Abgeschlossen)
  {
    d := Stretch(h, |h| - 1);
    c := Stretch(h, d - 1);
    b := Stretch(h, c - 1);
    a := Stretch(h, b - 1);
  }

  /** An approved row was planned or blocked before, and one taken up was approved, planned, ready, in a pull request or blocked. */
  lemma ComesFrom(was: Status, next: Status)
    requires next in Transitions(was)
    ensures next.Neu? ==> was.Zurueckgestellt?
    ensures next.Freigegeben? ==> was.Geplant? || was.Blockiert?
    ensures next.Aktiv? ==> was.Geplant? || was.Freigegeben? || was.Bereit? || was.InPr? || was.Blockiert?
    ensures next.Blockiert? || next.Zurueckgestellt? ==> !IsClosed(was)
  {
  }

  /** Every open row can still be done, and every row not rejected can be rejected at once. */
  lemma CanBeDone(s: Status) returns (h: seq<Status>)
    requires !IsClosed(s)
    ensures Life(h) && h != [] && h[0] == s && h[|h| - 1].Abgeschlossen?
    ensures Life([s, Abgelehnt]) && Life([Abgeschlossen, Abgelehnt])
  {
    h := match s
      case Neu => [s, Geplant, Aktiv, Bereit, InPr, Abgeschlossen]
      case Zurueckgestellt => [s, Geplant, Aktiv, Bereit, InPr, Abgeschlossen]
      case Aktiv => [s, Bereit, InPr, Abgeschlossen]
      case Bereit => [s, InPr, Abgeschlossen]
      case InPr => [s, Abgeschlossen]
      case _ => [s, Aktiv, Bereit, InPr, Abgeschlossen];
  }
}
