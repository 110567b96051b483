/**
Every interleaving of evaluations, single dispatches and bundle claims
(apps/monitoring/app/alerter.py, alert_bundle.py and check_engine.py). A claim is one step:
it reads and writes the state row under its lock and commits before anything is sent.
*/
module AlertRuns {
  import opened Common
  import opened CheckEngine
  import AlertBundles

  datatype Kind = HostPing | Heartbeat | Other

  datatype Check = Check(server: Option<nat>, kind: Kind, enabled: bool, limits: Limits)

  datatype World = World(
    checks: map<CheckId, Check>,
    rows: map<CheckId, StateRow>,
    queue: multiset<CheckId>,                 // dispatches under way
    reports: map<CheckId, seq<Status>>,       // history: what each claim reported
    results: map<CheckId, seq<Status>>        // history: every result
  )

  function Reports(w: World, c: CheckId): seq<Status> { if c in w.reports then w.reports[c] else [] }

  function Results(w: World, c: CheckId): seq<Status> { if c in w.results then w.results[c] else [] }

  function RowOf(w: World, c: CheckId): StateRow { if c in w.rows then w.rows[c] else NewRow }

  // ----- Host down -----------------------------------------------------------------------

  /** Whether `d` signals host-down for `c`, by rank. */
  predicate Signals(d: Check, c: Check) {
    && d.enabled && c.server.Some? && d.server == c.server
    && match c.kind
       case HostPing => false
       case Heartbeat => d.kind.HostPing?
       case Other => !d.kind.Other?
  }

  ghost predicate HostIsDown(w: World, c: CheckId)
    requires c in w.checks
  {
    exists d :: d in w.checks && d in w.rows && w.rows[d].status.Critical? && Signals(w.checks[d], w.checks[c])
  }

  /** host ping before heartbeat before everything else. */
  function Rank(kind: Kind): nat { if kind.HostPing? then 0 else if kind.Heartbeat? then 1 else 2 }

  /** A check is silenced exactly if an enabled signal check of its server that ranks before it is critical. */
  lemma SilencedByRank(w: World, c: CheckId)
    requires c in w.checks
    ensures HostIsDown(w, c) <==>
              exists d :: d in w.checks && d in w.rows && w.rows[d].status.Critical? && w.checks[d].enabled
                          && w.checks[c].server.Some? && w.checks[d].server == w.checks[c].server
                          && Rank(w.checks[d].kind) < Rank(w.checks[c].kind)
  {
    if HostIsDown(w, c) {
      var d :| d in w.checks && d in w.rows && w.rows[d].status.Critical? && Signals(w.checks[d], w.checks[c]);
      assert Rank(w.checks[d].kind) < Rank(w.checks[c].kind);
    }
    if d :| d in w.checks && d in w.rows && w.rows[d].status.Critical? && w.checks[d].enabled
            && w.checks[c].server.Some? && w.checks[d].server == w.checks[c].server && Rank(w.checks[d].kind) < Rank(w.checks[c].kind) {
      assert Signals(w.checks[d], w.checks[c]);
    }
  }

  /** When host-down silences a check, a critical check of that server is left that it does not silence. */
  lemma OneSignalIsHeard(w: World, c: CheckId) returns (loud: CheckId)
    requires c in w.checks && HostIsDown(w, c)
    ensures loud in w.checks && loud in w.rows && w.rows[loud].status.Critical? && loud != c
    ensures w.checks[loud].server == w.checks[c].server && w.checks[loud].enabled && !HostIsDown(w, loud)
  {
    loud :| loud in w.checks && loud in w.rows && w.rows[loud].status.Critical? && Signals(w.checks[loud], w.checks[c]);
    if HostIsDown(w, loud) {
      loud :| loud in w.checks && loud in w.rows && w.rows[loud].status.Critical? && w.checks[loud].kind.HostPing?
              && Signals(w.checks[loud], w.checks[c]);
    }
  }

  // ----- Steps ---------------------------------------------------------------------------

  datatype Step =
    | Evaluate(c: CheckId, result: Status)
    | Select(c: CheckId)                                            // the bundle job sends it alone
    | Dispatch(c: CheckId, maintenance: bool)
    | Bundle(members: set<CheckId>, status: Status, held: set<CheckId>)   // held: maintenance, or awaiting a check

  ghost predicate Enabled(w: World, e: Step) {
    match e
    case Evaluate(c, result) => c in w.checks && !result.Pending?
    case Select(c) =>
      && c in w.checks && c in w.rows && (w.rows[c].status.Ok? || w.rows[c].status.Critical?)
      && ResolveNotification(w.rows[c].notified, w.rows[c].status).Notify?
    case Dispatch(c, _) => c in w.checks && c in w.rows && c in w.queue
    case Bundle(members, status, _) => members <= w.checks.Keys && (status.Ok? || status.Critical?)
  }

  /** The rows a bundle claims, decided again under their locks. */
  ghost function ClaimedBy(w: World, members: set<CheckId>, status: Status, held: set<CheckId>): (entries: set<CheckId>)
    requires members <= w.checks.Keys
    ensures entries <= members && |entries| <= |members|
  {
    var entries := set c | c in members && c in w.rows && w.rows[c].status == status
                           && ResolveNotification(w.rows[c].notified, status).Notify? && c !in held && !HostIsDown(w, c);
    Subset(entries, members);
    if |entries| < AlertBundles.BUNDLE_MIN then {} else entries
  }

  lemma Subset(a: set<CheckId>, b: set<CheckId>)
    requires a <= b
    ensures |a| <= |b|
  {
    assert b == a + (b - a);
  }

  ghost function Apply(w: World, e: Step): World
    requires Enabled(w, e)
  {
    match e
    case Evaluate(c, result) =>
      var (row, decision) := Evaluated(w.checks[c].limits, RowOf(w, c), result);
      w.(rows := w.rows[c := row], queue := if decision.Notify? then w.queue + multiset{c} else w.queue,
         results := w.results[c := Results(w, c) + [result]])
    case Select(c) => w.(queue := w.queue + multiset{c})
    case Dispatch(c, maintenance) =>
      var (row, report) := Claimed(w.rows[c], maintenance || HostIsDown(w, c));
      w.(rows := w.rows[c := row], queue := w.queue - multiset{c},
         reports := if report.Some? then w.reports[c := Reports(w, c) + [report.value]] else w.reports)
    case Bundle(members, status, held) =>
      Reported(w, ClaimedBy(w, members, status, held), status)
  }

  /** Every entry marked as reported. */
  ghost function Reported(w: World, entries: set<CheckId>, status: Status): World {
    w.(rows := map c | c in w.rows :: if c in entries then w.rows[c].(notified := Some(status)) else w.rows[c],
       reports := map c | c in w.reports.Keys + entries :: if c in entries then Reports(w, c) + [status] else w.reports[c])
  }

  // ----- One check -----------------------------------------------------------------------

  /** How a step may touch one check. */
  datatype Touch = Untouched | ByResult(result: Status) | ByClaim(muted: bool)

  ghost predicate Touches(w: World, t: World, c: CheckId, touch: Touch)
    requires c in w.checks
  {
    match touch
    case Untouched =>
      t.rows.Keys >= w.rows.Keys && RowOf(t, c) == RowOf(w, c) && Reports(t, c) == Reports(w, c) && Results(t, c) == Results(w, c)
    case ByResult(result) =>
      && RowOf(t, c) == Evaluated(w.checks[c].limits, RowOf(w, c), result).0
      && Reports(t, c) == Reports(w, c) && Results(t, c) == Results(w, c) + [result]
    case ByClaim(muted) =>
      var (row, report) := Claimed(RowOf(w, c), muted);
      && RowOf(t, c) == row && Results(t, c) == Results(w, c)
      && Reports(t, c) == Reports(w, c) + (if report.Some? then [report.value] else [])
  }

  lemma StepTouches(w: World, e: Step, c: CheckId) returns (touch: Touch)
    requires Enabled(w, e) && c in w.checks
    ensures Touches(w, Apply(w, e), c, touch)
    ensures touch.ByResult? ==> e.Evaluate? && e.c == c && touch.result == e.result
    ensures e.Evaluate? && e.c == c ==> touch.ByResult?
    ensures e.Dispatch? && e.c == c ==> touch == ByClaim(e.maintenance || HostIsDown(w, c))
    ensures touch.ByClaim? ==> c in w.rows && ((e.Dispatch? && e.c == c) || (e.Bundle? && c in e.members && !e.status.Pending?
                                                                             && w.rows[c].status == e.status))
    ensures Apply(w, e).checks == w.checks
  {
    match e {
      case Evaluate(d, result) => touch := if d == c then ByResult(result) else Untouched;
      case Select(_) => touch := Untouched;
      case Dispatch(d, maintenance) => touch := if d == c then ByClaim(maintenance || HostIsDown(w, c)) else Untouched;
      case Bundle(members, status, held) =>
        BundleTouches(w, e, c);
        touch := if c in ClaimedBy(w, members, status, held) then ByClaim(false) else Untouched;
    }
  }

  lemma BundleTouches(w: World, e: Step, c: CheckId)
    requires Enabled(w, e) && e.Bundle? && c in w.checks
    ensures var entries, t := ClaimedBy(w, e.members, e.status, e.held), Apply(w, e);
            && (c in entries ==> c in w.rows && c in e.members && w.rows[c].status == e.status && Touches(w, t, c, ByClaim(false)))
            && (c !in entries ==> Touches(w, t, c, Untouched))
            && Reports(t, c) == Reports(w, c) + (if c in entries then [e.status] else [])
  {
    var entries := ClaimedBy(w, e.members, e.status, e.held);
    EntryFacts(w, e.members, e.status, e.held, c);
    ReportedTouches(w, entries, e.status, c);
    assert Apply(w, e) == Reported(w, entries, e.status);
    hide ClaimedBy, HostIsDown, Reported, Touches;
  }

  lemma ReportedTouches(w: World, entries: set<CheckId>, status: Status, c: CheckId)
    requires c in w.checks
    requires c in entries ==> c in w.rows && w.rows[c].status == status && ResolveNotification(w.rows[c].notified, status).Notify?
    ensures var t := Reported(w, entries, status);
            && Touches(w, t, c, if c in entries then ByClaim(false) else Untouched)
            && Reports(t, c) == Reports(w, c) + (if c in entries then [status] else [])
  {
  }

  lemma EntryFacts(w: World, members: set<CheckId>, status: Status, held: set<CheckId>, c: CheckId)
    requires members <= w.checks.Keys
    ensures c in ClaimedBy(w, members, status, held) ==>
              && c in w.rows && c in members && w.rows[c].status == status
              && ResolveNotification(w.rows[c].notified, status).Notify?
  {
  }

  // ----- What every run keeps ------------------------------------------------------------

  function TrailingFails(h: seq<Status>): nat {
    if h == [] || h[|h| - 1].Ok? then 0 else 1 + TrailingFails(h[..|h| - 1])
  }

  function TrailingOks(h: seq<Status>): nat {
    if h == [] || !h[|h| - 1].Ok? then 0 else 1 + TrailingOks(h[..|h| - 1])
  }

  /** A legal sequence of reports. */
  predicate ReportsLegal(reports: seq<Status>) {
    && (forall i :: 0 <= i < |reports| ==> Problem(reports[i]) || reports[i].Ok?)
    && (reports != [] ==> Problem(reports[0]))
    && (forall i :: 1 <= i < |reports| ==> reports[i - 1] != reports[i])
  }

  /** What is marked as reported is the last report, if anything was. */
  predicate SentStateOk(row: StateRow, reports: seq<Status>) {
    && (row.notified.None? ==> reports == [])
    && (row.notified.Some? ==> (Problem(row.notified.value) || row.notified.value.Ok?))
    && (ReportedProblem(row.notified) ==> reports != [] && reports[|reports| - 1] == row.notified.value)
    && (row.notified == Some(Status.Ok) ==> reports == [] || reports[|reports| - 1].Ok?)
    && (row.status.Pending? ==> row.notified.None?)
  }

  /** Every result so far was unknown. */
  predicate NoData(h: seq<Status>) { forall i :: 0 <= i < |h| ==> h[i].Unknown? }

  predicate CheckInv(w: World, c: CheckId) {
    var row := RowOf(w, c);
    && ReportsLegal(Reports(w, c)) && SentStateOk(row, Reports(w, c))
    && row.fail == TrailingFails(Results(w, c)) && row.ok == TrailingOks(Results(w, c))
    && (row.status.Pending? ==> Results(w, c) == [])
    && (NoData(Results(w, c)) ==> row.status.Pending? || row.status.Unknown?)
    && (c in w.queue ==> !row.status.Pending?)
  }

  ghost predicate Inv(w: World) {
    forall c :: c in w.checks ==> CheckInv(w, c)
  }

  /** No check has been evaluated yet. */
  ghost predicate Initial(w: World) {
    && w.queue == multiset{} && w.reports == map[] && w.results == map[]
    && (forall c :: c in w.rows ==> w.rows[c] == NewRow)
  }

  lemma EvaluatedKeeps(w: World, t: World, c: CheckId, result: Status)
    requires c in w.checks && CheckInv(w, c) && Touches(w, t, c, ByResult(result)) && !result.Pending?
    ensures CheckInv(t, c)
  {
    var h := Results(w, c);
    assert (h + [result])[..|h|] == h;
    assert NoData(h + [result]) ==> NoData(h) && (h + [result])[|h|] == result;
  }

  lemma ClaimedKeeps(w: World, t: World, c: CheckId, muted: bool)
    requires c in w.checks && CheckInv(w, c) && Touches(w, t, c, ByClaim(muted)) && !RowOf(w, c).status.Pending?
    ensures CheckInv(t, c)
  {
    var report := Claimed(RowOf(w, c), muted).1;
    if report.None? {
      assert Reports(t, c) == Reports(w, c);
    }
  }

  lemma StepKeepsInv(w: World, e: Step)
    requires Inv(w) && Enabled(w, e)
    ensures Inv(Apply(w, e))
  {
    var t := Apply(w, e);
    forall c | c in t.checks ensures CheckInv(t, c) {
      var touch := StepTouches(w, e, c);
      assert CheckInv(w, c);
      match touch {
        case ByResult(result) => EvaluatedKeeps(w, t, c, result);
        case ByClaim(muted) => ClaimedKeeps(w, t, c, muted);
        case Untouched =>
      }
    }
  }

  ghost predicate Runs(w: World, steps: seq<Step>, t: World)
    decreases |steps|
  {
    if steps == [] then w == t else Enabled(w, steps[0]) && Runs(Apply(w, steps[0]), steps[1..], t)
  }

  lemma {:induction false} RunsKeepInv(w: World, steps: seq<Step>, t: World)
    requires Inv(w) && Runs(w, steps, t)
    ensures Inv(t)
    decreases |steps|
  {
    if steps != [] {
      StepKeepsInv(w, steps[0]);
      RunsKeepInv(Apply(w, steps[0]), steps[1..], t);
    }
  }

  lemma InitialInv(w: World)
    requires Initial(w)
    ensures Inv(w)
  {
  }

  // ----- Reports -------------------------------------------------------------------------

  /**
  In every run each check's reports are problems and recoveries only, begin with a problem,
  never repeat, and report ok only right after a warning or a critical.
  */
  lemma ReportsAreLegal(initial: World, steps: seq<Step>, w: World, c: CheckId)
    requires Initial(initial) && Runs(initial, steps, w) && c in w.checks
    ensures ReportsLegal(Reports(w, c))
    ensures forall i :: 0 <= i < |Reports(w, c)| && Reports(w, c)[i].Ok? ==> i > 0 && Problem(Reports(w, c)[i - 1])
  {
    InitialInv(initial);
    RunsKeepInv(initial, steps, w);
    assert CheckInv(w, c);
  }

  /** A report is made by a claim alone, and is the status stored at that moment. */
  lemma ReportIsTheStoredStatus(w: World, e: Step, c: CheckId)
    requires Enabled(w, e) && c in w.checks && Reports(Apply(w, e), c) != Reports(w, c)
    ensures !e.Evaluate? && c in w.rows && Reports(Apply(w, e), c) == Reports(w, c) + [w.rows[c].status]
    ensures Apply(w, e).rows[c] == w.rows[c].(notified := Some(w.rows[c].status))
  {
    var touch := StepTouches(w, e, c);
  }

  /** A bundle reports nothing, or at least three checks. */
  lemma BundleIsNeverSmall(w: World, e: Step)
    requires Enabled(w, e) && e.Bundle?
    ensures var reported := set c | c in w.checks && Reports(Apply(w, e), c) != Reports(w, c);
            reported == {} || |reported| >= AlertBundles.BUNDLE_MIN
  {
    var entries := ClaimedBy(w, e.members, e.status, e.held);
    var reported := set c | c in w.checks && Reports(Apply(w, e), c) != Reports(w, c);
    forall c | c in w.checks ensures c in reported <==> c in entries {
      BundleTouches(w, e, c);
    }
    hide Apply, Enabled, ClaimedBy;
    assert reported == entries;
  }

  predicate Open(row: StateRow) { ResolveNotification(row.notified, row.status).Notify? }

  ghost predicate NoResultFor(c: CheckId, steps: seq<Step>) {
    forall i :: 0 <= i < |steps| && steps[i].Evaluate? ==> steps[i].c != c
  }

  /**
  A report that is due stays due through every muted dispatch, failed bundle and other
  check's step, until one claim makes it; without a new evaluation it is made at most once.
  */
  lemma {:induction false} DueUntilClaimed(w: World, steps: seq<Step>, t: World, c: CheckId)
    requires Runs(w, steps, t) && NoResultFor(c, steps) && c in w.checks && c in w.rows && Open(w.rows[c])
    ensures c in t.rows && c in t.checks && t.rows[c].status == w.rows[c].status
    ensures || (Open(t.rows[c]) && t.rows[c] == w.rows[c] && Reports(t, c) == Reports(w, c))
            || (!Open(t.rows[c]) && Reports(t, c) == Reports(w, c) + [w.rows[c].status])
    decreases |steps|
  {
    if steps != [] {
      var u := Apply(w, steps[0]);
      var touch := StepTouches(w, steps[0], c);
      assert NoResultFor(c, steps[1..]) by {
        forall i | 0 <= i < |steps[1..]| && steps[1..][i].Evaluate? ensures steps[1..][i].c != c {
          assert steps[1..][i] == steps[i + 1];
        }
      }
      if Open(u.rows[c]) {
        DueUntilClaimed(u, steps[1..], t, c);
      } else {
        SettledStays(u, steps[1..], t, c);
      }
    }
  }

  lemma {:induction false} SettledStays(w: World, steps: seq<Step>, t: World, c: CheckId)
    requires Runs(w, steps, t) && NoResultFor(c, steps) && c in w.checks && c in w.rows && w.rows[c].notified == Some(w.rows[c].status)
    ensures c in t.rows && c in t.checks && t.rows[c] == w.rows[c] && Reports(t, c) == Reports(w, c)
    decreases |steps|
  {
    if steps != [] {
      var touch := StepTouches(w, steps[0], c);
      assert NoResultFor(c, steps[1..]) by {
        forall i | 0 <= i < |steps[1..]| && steps[1..][i].Evaluate? ensures steps[1..][i].c != c {
          assert steps[1..][i] == steps[i + 1];
        }
      }
      SettledStays(Apply(w, steps[0]), steps[1..], t, c);
    }
  }

  /** A dispatch that nothing mutes makes the report. */
  lemma UnmutedDispatchReports(w: World, e: Step)
    requires Enabled(w, e) && e.Dispatch? && Open(w.rows[e.c]) && !e.maintenance && !HostIsDown(w, e.c)
    ensures Reports(Apply(w, e), e.c) == Reports(w, e.c) + [w.rows[e.c].status] && !Open(Apply(w, e).rows[e.c])
  {
  }

  // ----- Damping -------------------------------------------------------------------------

  /** The last `n` results exist and satisfy what the trailing run counts. */
  lemma {:induction false} TrailingFailsMeans(h: seq<Status>, n: nat)
    ensures TrailingFails(h) >= n <==> n <= |h| && forall i :: |h| - n <= i < |h| ==> !h[i].Ok?
  {
    if h != [] && n > 0 {
      TrailingFailsMeans(h[..|h| - 1], n - 1);
      assert forall i :: 0 <= i < |h| - 1 ==> h[..|h| - 1][i] == h[i];
      if n <= |h| && forall i :: |h| - n <= i < |h| ==> !h[i].Ok? {
        assert !h[|h| - 1].Ok?;
      }
    }
  }

  lemma {:induction false} TrailingOksMeans(h: seq<Status>, n: nat)
    ensures TrailingOks(h) >= n <==> n <= |h| && forall i :: |h| - n <= i < |h| ==> h[i].Ok?
  {
    if h != [] && n > 0 {
      TrailingOksMeans(h[..|h| - 1], n - 1);
      assert forall i :: 0 <= i < |h| - 1 ==> h[..|h| - 1][i] == h[i];
      if n <= |h| && forall i :: |h| - n <= i < |h| ==> h[i].Ok? {
        assert h[|h| - 1].Ok?;
      }
    }
  }

  /**
  In every run: a check that stood ok or pending turns warning or critical only when its
  last consecutive_fails results were all not ok, and then to the result itself.
  */
  lemma ProblemOnlyAfterFails(initial: World, steps: seq<Step>, w: World, c: CheckId, result: Status)
    requires Initial(initial) && Runs(initial, steps, w) && Enabled(w, Evaluate(c, result))
    requires RowOf(w, c).status.Ok? || RowOf(w, c).status.Pending?
    requires Problem(Apply(w, Evaluate(c, result)).rows[c].status)
    ensures var h := Results(w, c) + [result];
            var n := w.checks[c].limits.fails;
            && Apply(w, Evaluate(c, result)).rows[c].status == result
            && n <= |h| && (forall i :: 0 <= i < |h| && |h| - n <= i ==> !h[i].Ok?)
  {
    InitialInv(initial);
    RunsKeepInv(initial, steps, w);
    var t := Apply(w, Evaluate(c, result));
    StepKeepsInv(w, Evaluate(c, result));
    assert CheckInv(t, c) && CheckInv(w, c);
    var h, n := Results(w, c) + [result], w.checks[c].limits.fails;
    if n > 0 {
      TrailingFailsMeans(h, n);
    }
  }

  /**
  In every run: a check that carries a reported problem turns ok only when its last
  consecutive_oks results were all ok.
  */
  lemma RecoveryOnlyAfterOks(initial: World, steps: seq<Step>, w: World, c: CheckId, result: Status)
    requires Initial(initial) && Runs(initial, steps, w) && Enabled(w, Evaluate(c, result))
    requires ReportedProblem(RowOf(w, c).notified) && !RowOf(w, c).status.Ok?
    requires Apply(w, Evaluate(c, result)).rows[c].status.Ok?
    ensures var h := Results(w, c) + [result];
            var n := w.checks[c].limits.oks;
            n <= |h| && forall i :: 0 <= i < |h| && |h| - n <= i ==> h[i].Ok?
  {
    InitialInv(initial);
    RunsKeepInv(initial, steps, w);
    var t := Apply(w, Evaluate(c, result));
    StepKeepsInv(w, Evaluate(c, result));
    assert CheckInv(t, c) && CheckInv(w, c);
    var h, n := Results(w, c) + [result], w.checks[c].limits.oks;
    if n > 0 {
      TrailingOksMeans(h, n);
    }
  }

  /** The last `n` results are all ok, or all not ok. */
  predicate LastAre(h: seq<Status>, n: int, ok: bool) { n <= |h| && forall i :: 0 <= i < |h| && |h| - n <= i ==> h[i].Ok? == ok }

  /** The report that stands: the last one, if it is a problem. */
  function StandingReport(reports: seq<Status>): Option<Status> {
    if reports != [] && Problem(reports[|reports| - 1]) then Some(reports[|reports| - 1]) else None
  }

  /** What a row stands at after a result, by the history alone. */
  function StandsAt(h: seq<Status>, limits: Limits, before: Status, standing: Option<Status>): Status
    requires h != []
  {
    var result := h[|h| - 1];
    if !result.Ok? then
      if LastAre(h, limits.fails, false) then result
      else if !before.Pending? then before
      else if result.Unknown? then Unknown else Status.Ok
    else if standing.Some? && !before.Ok? && !before.Pending? && !LastAre(h, limits.oks, true) then standing.value
    else Status.Ok
  }

  lemma CountsAreLast(h: seq<Status>, n: int)
    requires h != []
    ensures var result := h[|h| - 1];
            && (!result.Ok? ==> (TrailingFails(h) >= n <==> LastAre(h, n, false)))
            && (result.Ok? ==> (TrailingOks(h) >= n <==> LastAre(h, n, true)))
  {
    if n > 0 {
      TrailingFailsMeans(h, n);
      TrailingOksMeans(h, n);
    }
  }

  /**
  In every run an evaluation leaves the check exactly where its history says: at the result
  once the last consecutive_fails results are all not ok, and at ok, unless a reported
  problem still waits for consecutive_oks of them. A dispatch is queued exactly if a problem
  other than the one reported shows, or the ok of a reported one.
  */
  lemma EvaluatedByHistory(initial: World, steps: seq<Step>, w: World, c: CheckId, result: Status)
    requires Initial(initial) && Runs(initial, steps, w) && Enabled(w, Evaluate(c, result))
    ensures var t := Apply(w, Evaluate(c, result));
            var standing := StandingReport(Reports(w, c));
            && Results(t, c) == Results(w, c) + [result] && c in t.rows
            && t.rows[c].status == StandsAt(Results(t, c), w.checks[c].limits, RowOf(w, c).status, standing)
            && t.queue == w.queue + (if Tells(t.rows[c].status, standing) then multiset{c} else multiset{})
            && (Open(t.rows[c]) <==> Tells(t.rows[c].status, standing))
  {
    hide Runs, Initial;
    InitialInv(initial);
    RunsKeepInv(initial, steps, w);
    assert CheckInv(w, c);
    hide Inv, Evaluated, ReportsLegal, NoData, StandsAt, Tells;
    RowByHistory(RowOf(w, c), Results(w, c), Reports(w, c), w.checks[c].limits, result);
  }

  lemma StandingIsNotified(row: StateRow, reports: seq<Status>)
    requires SentStateOk(row, reports)
    ensures StandingReport(reports) == if ReportedProblem(row.notified) then row.notified else None
  {
  }

  lemma RowByHistory(row: StateRow, h: seq<Status>, reports: seq<Status>, limits: Limits, result: Status)
    requires SentStateOk(row, reports) && row.fail == TrailingFails(h) && row.ok == TrailingOks(h) && !result.Pending?
    ensures var (next, decision) := Evaluated(limits, row, result);
            var standing := StandingReport(reports);
            && next.status == StandsAt(h + [result], limits, row.status, standing)
            && (decision.Notify? <==> Tells(next.status, standing)) && (Open(next) <==> Tells(next.status, standing))
  {
    var more := h + [result];
    CountsAreLast(more, limits.fails);
    CountsAreLast(more, limits.oks);
    assert more[..|more| - 1] == h;
    StandingIsNotified(row, reports);
    assert row.status.Pending? ==> !ReportedProblem(row.notified);
    assert row.notified.Some? ==> Problem(row.notified.value) || row.notified.value.Ok?;
    hide LastAre, StandingReport, SentStateOk, TrailingFails, TrailingOks;
  }

  /** Something to report: a problem that is not the standing report, or the end of one. */
  predicate Tells(status: Status, standing: Option<Status>) {
    (Problem(status) && standing != Some(status)) || (status.Ok? && standing.Some?)
  }

  /** At the threshold a problem shows, and is dispatched unless it is the one reported. */
  lemma ProblemShowsAtThreshold(initial: World, steps: seq<Step>, w: World, c: CheckId, result: Status)
    requires Initial(initial) && Runs(initial, steps, w) && Enabled(w, Evaluate(c, result)) && Problem(result)
    requires LastAre(Results(w, c) + [result], w.checks[c].limits.fails, false)
    ensures var t := Apply(w, Evaluate(c, result));
            && t.rows[c].status == result
            && (StandingReport(Reports(w, c)) != Some(result) ==> t.queue == w.queue + multiset{c} && Open(t.rows[c]))
  {
    EvaluatedByHistory(initial, steps, w, c, result);
    hide Runs, Initial, LastAre;
  }

  /** At the threshold the all-clear of a reported problem shows, and is dispatched. */
  lemma AllClearAtThreshold(initial: World, steps: seq<Step>, w: World, c: CheckId)
    requires Initial(initial) && Runs(initial, steps, w) && Enabled(w, Evaluate(c, Status.Ok))
    requires LastAre(Results(w, c) + [Status.Ok], w.checks[c].limits.oks, true)
    ensures var t := Apply(w, Evaluate(c, Status.Ok));
            && t.rows[c].status.Ok?
            && (StandingReport(Reports(w, c)).Some? ==> t.queue == w.queue + multiset{c} && Open(t.rows[c]))
  {
    EvaluatedByHistory(initial, steps, w, c, Status.Ok);
    hide Runs, Initial, LastAre;
  }

  // ----- When a check is reported --------------------------------------------------------

  /** The checks a bundle may report: standing at its status with something to tell, and nothing holds or silences them. */
  ghost function Reportable(w: World, members: set<CheckId>, status: Status, held: set<CheckId>): set<CheckId>
    requires members <= w.checks.Keys
  {
    set c | c in members && c in w.rows && w.rows[c].status == status && Tells(status, StandingReport(Reports(w, c)))
            && c !in held && !HostIsDown(w, c)
  }

  lemma OpenIsTells(w: World, c: CheckId)
    requires c in w.checks && c in w.rows && CheckInv(w, c) && !w.rows[c].status.Pending?
    ensures Open(w.rows[c]) <==> Tells(w.rows[c].status, StandingReport(Reports(w, c)))
  {
    StandingIsNotified(w.rows[c], Reports(w, c));
    hide StandingReport;
  }

  lemma ClaimedAreReportable(w: World, members: set<CheckId>, status: Status, held: set<CheckId>)
    requires Inv(w) && members <= w.checks.Keys && !status.Pending?
    ensures var due := Reportable(w, members, status, held);
            ClaimedBy(w, members, status, held) == if |due| >= 3 then due else {}
  {
    hide HostIsDown, Tells, StandingReport, CheckInv;
    var entries := set c | c in members && c in w.rows && w.rows[c].status == status
                           && ResolveNotification(w.rows[c].notified, status).Notify? && c !in held && !HostIsDown(w, c);
    var due := Reportable(w, members, status, held);
    forall c | c in members && c in w.rows && w.rows[c].status == status
      ensures ResolveNotification(w.rows[c].notified, status).Notify? <==> Tells(status, StandingReport(Reports(w, c)))
    {
      OpenIsTells(w, c);
    }
    assert entries == due;
  }

  /**
  In every run a step reports a check exactly if it is an unmuted dispatch of it, or a
  bundle of three or more it is among, while it has something to tell: a dispatch under
  maintenance or host-down, a bundle that holds it back or is too small, and every other
  step report nothing of it.
  */
  lemma ReportedExactly(initial: World, steps: seq<Step>, w: World, e: Step, c: CheckId)
    requires Initial(initial) && Runs(initial, steps, w) && Enabled(w, e) && c in w.checks
    ensures Reports(Apply(w, e), c) != Reports(w, c) <==>
            match e
            case Evaluate(_, _) => false
            case Select(_) => false
            case Dispatch(d, maintenance) =>
              d == c && !maintenance && !HostIsDown(w, c) && Tells(w.rows[c].status, StandingReport(Reports(w, c)))
            case Bundle(members, status, held) =>
              c in Reportable(w, members, status, held) && |Reportable(w, members, status, held)| >= 3
  {
    InitialInv(initial);
    RunsKeepInv(initial, steps, w);
    hide Runs, Initial;
    assert CheckInv(w, c);
    hide Inv, HostIsDown, CheckInv, Tells, StandingReport, Reportable, Apply;
    match e {
      case Evaluate(_, _) => var touch := StepTouches(w, e, c);
      case Select(_) => var touch := StepTouches(w, e, c);
      case Dispatch(_, _) => DispatchReports(w, e, c);
      case Bundle(members, status, held) =>
        BundleTouches(w, e, c);
        ClaimedAreReportable(w, members, status, held);
    }
  }

  lemma DispatchReports(w: World, e: Step, c: CheckId)
    requires Enabled(w, e) && e.Dispatch? && c in w.checks && CheckInv(w, c)
    ensures Reports(Apply(w, e), c) != Reports(w, c) <==>
              e.c == c && !e.maintenance && !HostIsDown(w, c) && Tells(w.rows[c].status, StandingReport(Reports(w, c)))
  {
    if e.c == c {
      OpenIsTells(w, c);
    }
    hide CheckInv, HostIsDown, Tells, StandingReport;
  }

  /** What is due of an unmuted heartbeat can be reported at once: the job selects it, the dispatch reports it. */
  lemma DueCanBeReported(w: World, c: CheckId)
    requires c in w.checks && c in w.rows && (w.rows[c].status.Ok? || w.rows[c].status.Critical?)
    requires Open(w.rows[c]) && !HostIsDown(w, c)
    ensures Enabled(w, Select(c)) && Enabled(Apply(w, Select(c)), Dispatch(c, false))
    ensures var t := Apply(Apply(w, Select(c)), Dispatch(c, false));
            t.queue == w.queue && Reports(t, c) == Reports(w, c) + [w.rows[c].status]
  {
    var u := Apply(w, Select(c));
    assert HostIsDown(u, c) == HostIsDown(w, c);
    UnmutedDispatchReports(u, Dispatch(c, false));
  }

  /** Three that are due and unmuted can be reported in one bundle. */
  lemma DueCanBeBundled(w: World, members: set<CheckId>, status: Status, c: CheckId)
    requires Inv(w) && members <= w.checks.Keys && (status.Ok? || status.Critical?)
    requires Reportable(w, members, status, {}) == members && |members| >= 3 && c in members
    ensures Enabled(w, Bundle(members, status, {}))
    ensures Reports(Apply(w, Bundle(members, status, {})), c) == Reports(w, c) + [status]
  {
    hide ClaimedBy, Reportable, Inv, Apply, Touches;
    BundleTouches(w, Bundle(members, status, {}), c);
    ClaimedAreReportable(w, members, status, {});
  }

  /** A held result keeps the row at what was reported: nothing is due, nothing is dispatched. */
  lemma HeldNeverNotifies(w: World, c: CheckId, result: Status)
    requires Enabled(w, Evaluate(c, result))
    requires HoldsRecovery(result, NextOkCount(result, RowOf(w, c).ok), w.checks[c].limits.oks, RowOf(w, c).status, RowOf(w, c).notified)
    ensures var t := Apply(w, Evaluate(c, result));
            && !Open(t.rows[c]) && t.queue == w.queue && t.rows[c].notified == RowOf(w, c).notified
            && Some(t.rows[c].status) == RowOf(w, c).notified
  {
  }

  /** A check that never got data never stands green, and nothing is ever reported of it. */
  lemma NoDataIsNeverGreen(initial: World, steps: seq<Step>, w: World, c: CheckId)
    requires Initial(initial) && Runs(initial, steps, w) && c in w.checks && NoData(Results(w, c))
    ensures RowOf(w, c).status.Pending? || RowOf(w, c).status.Unknown?
    ensures RowOf(w, c).status.Pending? ==> Results(w, c) == []
  {
    InitialInv(initial);
    RunsKeepInv(initial, steps, w);
    assert CheckInv(w, c);
  }

  /** A problem never reported, muted or not, ends with the first ok and in silence. */
  lemma UnreportedEndsSilently(w: World, c: CheckId)
    requires Enabled(w, Evaluate(c, Status.Ok)) && !ReportedProblem(RowOf(w, c).notified)
    ensures var t := Apply(w, Evaluate(c, Status.Ok));
            && t.rows[c].status.Ok? && !Open(t.rows[c]) && t.queue == w.queue && Reports(t, c) == Reports(w, c)
            && (Claimed(t.rows[c], false).1.None?)
  {
  }

  /** The counters are the lengths of the trailing runs. */
  lemma CountersAreTrailingRuns(initial: World, steps: seq<Step>, w: World, c: CheckId)
    requires Initial(initial) && Runs(initial, steps, w) && c in w.checks
    ensures RowOf(w, c).fail == TrailingFails(Results(w, c)) && RowOf(w, c).ok == TrailingOks(Results(w, c))
  {
    InitialInv(initial);
    RunsKeepInv(initial, steps, w);
    assert CheckInv(w, c);
  }
}
