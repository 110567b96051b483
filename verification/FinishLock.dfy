/**
The lock before rotate-root finish (apps/ca-issuer/app/cli.py): no active device may still
hold a certificate signed under the old root. It compares the newest certificate of every
device line with the first start under the new root (apps/ca-issuer/app/inventory.py).
*/
module FinishLock {
  import opened Common
  import opened Certificates
  import Reg = RegisterTables

  type RootId = nat
  type LineId = Reg.LineId

  /** issued_certificates, with two history fields: who signed it, and when exactly. */
  datatype Row = Row(line: LineId, nb: Time, na: Time, created: Time, takenOver: bool, under: RootId, signed: Time)

  // ----- Reading the register ------------------------------------------------------------

  /** The row of `line` with the latest notBefore, the first of several. */
  function NewestRow(rows: seq<Row>, line: LineId): (r: Option<Row>)
    ensures r.Some? ==> r.value in rows && r.value.line == line
    ensures forall x :: x in rows && x.line == line ==> r.Some? && x.nb <= r.value.nb
  {
    if rows == [] then None
    else
      var last, before := rows[|rows| - 1], NewestRow(rows[..|rows| - 1], line);
      assert rows == rows[..|rows| - 1] + [last];
      if last.line == line && (before.None? || last.nb > before.value.nb) then Some(last) else before
  }

  /** Not revoked, its identity not revoked as of the certificate, and still valid. */
  predicate Reachable(line: Reg.Line, newest: Row, revoked: map<Reg.Identity, Option<Time>>, now: Time) {
    line.revoked.None? && Reg.Active(revoked, line.identity, Some(newest.nb)) && newest.na > now
  }

  /** What the lock calls a device: the newest certificate of a line that reaches the server. */
  ghost predicate Devices(lines: map<LineId, Reg.Line>, rows: seq<Row>, revoked: map<Reg.Identity, Option<Time>>, now: Time,
                          devices: map<LineId, Row>)
  {
    && (forall l :: l in devices <==>
          l in lines && NewestRow(rows, l).Some? && Reachable(lines[l], NewestRow(rows, l).value, revoked, now))
    && (forall l :: l in devices ==> NewestRow(rows, l) == Some(devices[l]))
  }

  /** The device on a line still gets in with its newest certificate: neither is revoked, and it has not ended. */
  ghost predicate GetsInWith(lines: map<LineId, Reg.Line>, rows: seq<Row>, revoked: map<Reg.Identity, Option<Time>>, now: Time, l: LineId,
                             row: Row)
  {
    && l in lines && lines[l].revoked.None? && NewestRow(rows, l) == Some(row) && now < row.na
    && (lines[l].identity in revoked ==> revoked[lines[l].identity].Some? && revoked[lines[l].identity].value < row.nb)
  }

  lemma DevicesGetIn(lines: map<LineId, Reg.Line>, rows: seq<Row>, revoked: map<Reg.Identity, Option<Time>>, now: Time,
                     devices: map<LineId, Row>)
    requires Devices(lines, rows, revoked, now, devices)
    ensures forall l, row :: GetsInWith(lines, rows, revoked, now, l, row) <==> l in devices && devices[l] == row
  {
    hide NewestRow;
  }

  function Newer(before: Option<Row>, row: Row, line: LineId): Option<Row> {
    if row.line == line && (before.None? || row.nb > before.value.nb) then Some(row) else before
  }

  lemma OneRowMore(rows: seq<Row>, i: nat, line: LineId)
    requires i < |rows|
    ensures NewestRow(rows[..i + 1], line) == Newer(NewestRow(rows[..i], line), rows[i], line)
  {
    assert rows[..i + 1][..i] == rows[..i];
  }

  /** _query_register: the newest certificate of every device that still reaches the server. */
  method QueryRegister(lines: map<LineId, Reg.Line>, rows: seq<Row>, revoked: map<Reg.Identity, Option<Time>>, now: Time)
    returns (devices: map<LineId, Row>)
    ensures Devices(lines, rows, revoked, now, devices)
  {
    hide NewestRow, Tracks;
    var newest: map<LineId, Row> := map[];
    NothingTracked(lines);
    assert rows[..0] == [];
    for i := 0 to |rows|
      invariant Tracks(lines, rows[..i], newest)
    {
      var row := rows[i];
      TrackOneMore(lines, rows, i, newest);
      if row.line in lines && lines[row.line].revoked.None? && (row.line !in newest || row.nb > newest[row.line].nb) {
        newest := newest[row.line := row];
      }
    }
    assert rows[..|rows|] == rows;
    devices := map l | l in newest && l in lines && Reachable(lines[l], newest[l], revoked, now) :: newest[l];
    TrackedDevices(lines, rows, newest, revoked, now);
  }

  /** The newest row so far of every line that is not revoked. */
  ghost predicate Tracks(lines: map<LineId, Reg.Line>, rows: seq<Row>, newest: map<LineId, Row>) {
    && (forall l :: l in newest <==> l in lines && lines[l].revoked.None? && NewestRow(rows, l).Some?)
    && (forall l :: l in newest ==> NewestRow(rows, l) == Some(newest[l]))
  }

  lemma NothingTracked(lines: map<LineId, Reg.Line>)
    ensures Tracks(lines, [], map[])
  {
  }

  lemma TrackOneMore(lines: map<LineId, Reg.Line>, rows: seq<Row>, i: nat, newest: map<LineId, Row>)
    requires i < |rows| && Tracks(lines, rows[..i], newest)
    ensures var row := rows[i];
            var counts := row.line in lines && lines[row.line].revoked.None? && (row.line !in newest || row.nb > newest[row.line].nb);
            Tracks(lines, rows[..i + 1], if counts then newest[row.line := row] else newest)
  {
    hide NewestRow;
    forall l ensures NewestRow(rows[..i + 1], l) == Newer(NewestRow(rows[..i], l), rows[i], l) {
      OneRowMore(rows, i, l);
    }
  }

  lemma TrackedDevices(lines: map<LineId, Reg.Line>, rows: seq<Row>, newest: map<LineId, Row>, revoked: map<Reg.Identity, Option<Time>>, now: Time)
    requires Tracks(lines, rows, newest)
    ensures Devices(lines, rows, revoked, now, map l | l in newest && l in lines && Reachable(lines[l], newest[l], revoked, now) :: newest[l])
  {
    hide NewestRow;
  }

  /** _Device.signed_since: within the second of `at`, the time of recording decides. */
  predicate SignedSince(row: Row, at: Time) {
    var second := WholeSecond(at);
    if row.nb != second then row.nb > second else row.created >= at
  }

  datatype Started = Started(root: RootId, at: Time)

  datatype Hold = NotStarted | RegisterIncomplete | Pending

  /** Why finish is held back, or None. */
  ghost function Held(root: RootId, started: Option<Started>, installed: Option<Time>, oldRootStart: Time,
                      devices: map<LineId, Row>, now: Time): Option<Hold>
  {
    if started.None? || started.value.root != root then Some(NotStarted)
    else if installed.Some? && oldRootStart < installed.value && now < installed.value + Reg.LEGACY_WINDOW then Some(RegisterIncomplete)
    else if exists l :: l in devices && !SignedSince(devices[l], started.value.at) then Some(Pending)
    else None
  }

  // ----- Issuer processes ----------------------------------------------------------------

  datatype Process =
    | Down
    | Loaded(root: RootId)                 // hierarchy read, start not recorded yet
    | Serving(root: RootId, since: Time)

  datatype System = System(
    clock: Time,
    root: RootId,               // root.crt on disk
    used: set<RootId>,          // every root root.crt has held
    process: Process,
    started: Option<Started>,   // the `root` row of infra_certificates
    rows: seq<Row>,
    unrecorded: seq<Row>,       // signed before the register existed
    missed: set<RootId>         // roots under which a start failed to write the row
  )

  datatype Event =
    | SwitchTo(root: RootId)
    | Load
    | Record(at: Time, written: bool)
    | Issue(line: LineId, created: Time, signed: Time, na: Time)
    | IssueUnrecorded(signed: Time, na: Time)
    | TakeOver(index: nat, line: LineId, created: Time)
    | Stop

  /** One issuer process at a time, all on one clock; a root never returns to root.crt. */
  predicate Enabled(s: System, e: Event) {
    match e
    case SwitchTo(root) => root !in s.used
    case Load => s.process.Down?
    case Record(at, _) => s.process.Loaded? && s.clock < at
    // Requests of one process overlap: `created` is read when one begins, `signed` later.
    case Issue(_, created, signed, _) => s.process.Serving? && s.process.since <= created <= signed && s.clock <= signed
    case IssueUnrecorded(signed, _) => s.process.Serving? && s.clock <= signed
    // The server may take over as well, with its own clock.
    case TakeOver(index, _, _) => index < |s.unrecorded|
    case Stop => s.process.Serving?
  }

  function Apply(s: System, e: Event): System
    requires Enabled(s, e)
  {
    match e
    case SwitchTo(root) => s.(root := root, used := s.used + {root})
    case Load => s.(process := Loaded(s.root))
    case Record(at, written) =>
      // inventory.collect reads root.crt once more; a failed write does not stop the start.
      var up := s.(clock := at, process := Serving(s.process.root, at));
      if written then
        up.(started := Some(if s.started.Some? && s.started.value.root == s.root then s.started.value else Started(s.root, at)))
      else up.(missed := s.missed + {s.process.root})
    case Issue(line, created, signed, na) =>
      s.(clock := signed, rows := s.rows + [Row(line, WholeSecond(signed), na, created, false, s.process.root, signed)])
    case IssueUnrecorded(signed, na) =>
      s.(clock := signed, unrecorded := s.unrecorded + [Row(0, WholeSecond(signed), na, signed, false, s.process.root, signed)])
    case TakeOver(index, line, created) =>
      s.(rows := s.rows + [s.unrecorded[index].(line := line, created := created, takenOver := true)])
    case Stop => s.(process := Down)
  }

  /** A start during which no switch runs: what it loads is what it records. */
  predicate Quiet(s: System, e: Event) {
    e.Record? && e.written && s.process.Loaded? ==> s.process.root == s.root
  }

  /** `t` is reached from `s` by `events`. */
  ghost predicate Runs(s: System, events: seq<Event>, t: System)
    decreases |events|
  {
    if events == [] then s == t
    else Enabled(s, events[0]) && Runs(Apply(s, events[0]), events[1..], t)
  }

  /** Every start of the run is quiet. */
  ghost predicate AllQuiet(s: System, events: seq<Event>)
    decreases |events|
  {
    events != [] && Enabled(s, events[0]) ==> Quiet(s, events[0]) && AllQuiet(Apply(s, events[0]), events[1..])
  }

  /** No issuer has run yet. */
  predicate Initial(s: System) {
    && s.used == {s.root} && s.process.Down? && s.started.None?
    && s.rows == [] && s.unrecorded == [] && s.missed == {}
  }

  predicate RowInv(s: System, row: Row) {
    && row.nb == WholeSecond(row.signed) && row.signed <= s.clock && row.under in s.used
    && (row.takenOver || row.created <= row.signed)
    && (s.started.Some? && s.started.value.root == s.root && row.under != s.root ==> row.signed < s.started.value.at)
    && (row.under == s.root && s.root !in s.missed ==>
          && s.started.Some? && s.started.value.root == s.root && s.started.value.at <= row.signed
          && (row.takenOver || s.started.value.at <= row.created))
  }

  predicate Inv(s: System) {
    && s.root in s.used
    && (s.started.Some? ==> s.started.value.at <= s.clock && s.started.value.root in s.used)
    && (s.process.Loaded? ==> s.process.root in s.used)
    && (s.process.Serving? ==> s.process.since <= s.clock && s.process.root in s.used)
    && (!s.process.Down? && s.started.Some? && s.started.value.root == s.root ==> s.process.root == s.root)
    && (s.process.Serving? && s.process.root == s.root && s.root !in s.missed ==>
          s.started.Some? && s.started.value.root == s.root && s.started.value.at <= s.process.since)
    && (forall i | 0 <= i < |s.rows| :: RowInv(s, s.rows[i]))
    && (forall i | 0 <= i < |s.unrecorded| :: RowInv(s, s.unrecorded[i]) && !s.unrecorded[i].takenOver)
  }

  lemma StepKeepsInv(s: System, e: Event)
    requires Inv(s) && Enabled(s, e) && Quiet(s, e)
    ensures Inv(Apply(s, e))
  {
    hide WholeSecond;
    var t := Apply(s, e);
    forall i | 0 <= i < |s.rows| ensures RowInv(t, s.rows[i]) {
      assert RowInv(s, s.rows[i]);
    }
    forall i | 0 <= i < |s.unrecorded| ensures RowInv(t, s.unrecorded[i]) {
      assert RowInv(s, s.unrecorded[i]);
    }
    if e.TakeOver? {
      assert RowInv(s, s.unrecorded[e.index]);
    }
  }

  lemma {:induction false} RunsKeepInv(s: System, events: seq<Event>, t: System)
    requires Inv(s) && Runs(s, events, t) && AllQuiet(s, events)
    ensures Inv(t)
    decreases |events|
  {
    if events != [] {
      StepKeepsInv(s, events[0]);
      RunsKeepInv(Apply(s, events[0]), events[1..], t);
    }
  }

  /**
  In every run of issuer processes on one clock, each start quiet: signed_since the recorded
  start holds of every certificate the register was told of at its signing under the root,
  and of one signed under another root exactly when it was taken over later and lies in the
  very second of the start, although notBefore is cut to whole seconds and the record
  survives later restarts. A start that failed to write its row only makes the test stricter.
  */
  lemma SignedSinceTells(initial: System, events: seq<Event>, s: System, row: Row)
    requires Initial(initial) && Runs(initial, events, s) && AllQuiet(initial, events)
    requires row in s.rows && s.started.Some? && s.started.value.root == s.root
    ensures var at := s.started.value.at;
            && (row.under != s.root ==>
                  (SignedSince(row, at) <==> row.takenOver && row.nb == WholeSecond(at) && at <= row.created))
            && (row.under == s.root && s.root !in s.missed ==>
                  (SignedSince(row, at) <==> !(row.takenOver && row.nb == WholeSecond(at) && row.created < at)))
  {
    hide Runs, AllQuiet, RowInv, SignedSince, WholeSecond;
    RunsKeepInv(initial, events, s);
    var i :| 0 <= i < |s.rows| && s.rows[i] == row;
    assert RowInv(s, s.rows[i]);
    RowTells(s, row);
  }

  lemma RowTells(s: System, row: Row)
    requires RowInv(s, row) && s.started.Some? && s.started.value.root == s.root
    ensures var at := s.started.value.at;
            && (row.under != s.root ==>
                  (SignedSince(row, at) <==> row.takenOver && row.nb == WholeSecond(at) && at <= row.created))
            && (row.under == s.root && s.root !in s.missed ==>
                  (SignedSince(row, at) <==> !(row.takenOver && row.nb == WholeSecond(at) && row.created < at)))
  {
    var at := s.started.value.at;
    SecondsInOrder(row.signed, at);
    hide WholeSecond;
  }

  lemma SecondsInOrder(a: Time, b: Time)
    ensures if a <= b then WholeSecond(a) <= WholeSecond(b) else WholeSecond(b) <= WholeSecond(a)
  {
  }

  /**
  A finish the lock lets through leaves no active device line whose newest recorded
  certificate was signed under another root than root.crt, unless it was taken over in
  the second of the start.
  */
  lemma LockedFinishStrandsNobody(initial: System, events: seq<Event>, s: System, lines: map<LineId, Reg.Line>,
                                  revoked: map<Reg.Identity, Option<Time>>, installed: Option<Time>, oldRootStart: Time,
                                  devices: map<LineId, Row>, now: Time, line: LineId, newest: Row)
    requires Initial(initial) && Runs(initial, events, s) && AllQuiet(initial, events)
    requires Devices(lines, s.rows, revoked, now, devices)
    requires Held(s.root, s.started, installed, oldRootStart, devices, now) == None
    requires GetsInWith(lines, s.rows, revoked, now, line, newest)
    ensures newest.under == s.root || (newest.takenOver && newest.nb == WholeSecond(s.started.value.at))
  {
    DevicesGetIn(lines, s.rows, revoked, now, devices);
    assert line in devices && devices[line] == newest;
    SignedSinceTells(initial, events, s, newest);
  }

  /**
  Nor does it leave a certificate of the old root that the register has not seen: from then
  on none is taken over any more.
  */
  lemma NothingLeftToTakeOver(root: RootId, started: Option<Started>, installed: Option<Time>, oldRootStart: Time,
                              devices: map<LineId, Row>, now: Time, nb: Time, later: Time)
    requires Held(root, started, installed, oldRootStart, devices, now) == None
    requires oldRootStart <= nb && now <= later
    ensures !Reg.LegacyAdmitted(nb, installed, later)
  {
  }

  /** Not forced, a finish goes through once every device has renewed at the new process. */
  lemma RenewedDevicesLetFinishThrough(initial: System, events: seq<Event>, s: System, lines: map<LineId, Reg.Line>,
                                       revoked: map<Reg.Identity, Option<Time>>, installed: Option<Time>, oldRootStart: Time,
                                       devices: map<LineId, Row>, now: Time)
    requires Initial(initial) && Runs(initial, events, s) && AllQuiet(initial, events)
    requires Devices(lines, s.rows, revoked, now, devices)
    requires s.started.Some? && s.started.value.root == s.root && s.root !in s.missed
    requires installed.Some? ==> installed.value <= oldRootStart || installed.value + Reg.LEGACY_WINDOW <= now
    requires forall l, row :: GetsInWith(lines, s.rows, revoked, now, l, row) ==> row.under == s.root && !row.takenOver
    ensures Held(s.root, s.started, installed, oldRootStart, devices, now) == None
  {
    DevicesGetIn(lines, s.rows, revoked, now, devices);
    forall l | l in devices ensures SignedSince(devices[l], s.started.value.at) {
      assert GetsInWith(lines, s.rows, revoked, now, l, devices[l]);
      SignedSinceTells(initial, events, s, devices[l]);
    }
  }

  // ----- Where it fails ------------------------------------------------------------------

  /**
  A start is told apart only if it is quiet: after any other that writes the row, whatever
  the old root's process signs next counts as signed under the new root.
  */
  lemma UnquietStartIsMistaken(s: System, at: Time, line: LineId, created: Time, signed: Time, na: Time)
    requires s.process.Loaded? && s.clock < at <= created <= signed
    requires !Quiet(s, Record(at, true)) && !(s.started.Some? && s.started.value.root == s.root)
    ensures var t := Apply(Apply(s, Record(at, true)), Issue(line, created, signed, na));
            && t.started == Some(Started(t.root, at))
            && t.rows[|s.rows|].under != t.root && SignedSince(t.rows[|s.rows|], at)
  {
  }

  /** Such a start is reachable: a switch between ensure_hierarchy and record_inventory. */
  lemma UnquietStartHappens() returns (initial: System, events: seq<Event>, s: System, row: Row)
    ensures Initial(initial) && Runs(initial, events, s) && !AllQuiet(initial, events)
    ensures row in s.rows && s.started.Some? && s.started.value.root == s.root
    ensures !row.takenOver && SignedSince(row, s.started.value.at) && row.under != s.root
  {
    initial := System(0, 0, {0}, Down, None, [], [], {});
    events := [Load, SwitchTo(1), Record(5, true), Issue(7, 6, 6, 100)];
    var s1 := Apply(initial, Load);
    var s2 := Apply(s1, SwitchTo(1));
    var s3 := Apply(s2, Record(5, true));
    s := Apply(s3, Issue(7, 6, 6, 100));
    row := s.rows[0];
    assert events[1..] == [SwitchTo(1), Record(5, true), Issue(7, 6, 6, 100)];
    assert events[1..][1..] == [Record(5, true), Issue(7, 6, 6, 100)];
    assert events[1..][1..][1..] == [Issue(7, 6, 6, 100)];
    assert Runs(s3, [Issue(7, 6, 6, 100)], s);
  }

  /** The other gap: a certificate taken over in the very second of the start counts as new. */
  lemma TakenOverInTheSecondHappens() returns (initial: System, events: seq<Event>, s: System, row: Row)
    ensures Initial(initial) && Runs(initial, events, s) && AllQuiet(initial, events)
    ensures row in s.rows && s.started.Some? && s.started.value.root == s.root
    ensures row.takenOver && SignedSince(row, s.started.value.at) && row.under != s.root
  {
    initial := System(0, 0, {0}, Down, None, [], [], {});
    var s1 := Apply(initial, Load);
    var s2 := Apply(s1, Record(1, true));
    var s3 := Apply(s2, IssueUnrecorded(2, 100));
    var s4 := Apply(s3, Stop);
    var s5 := Apply(s4, SwitchTo(1));
    var s6 := Apply(s5, Load);
    var s7 := Apply(s6, Record(5, true));
    s := Apply(s7, TakeOver(0, 7, 6));
    row := s.rows[0];
    hide Runs, AllQuiet;
    events := Before(s7, TakeOver(0, 7, 6), [], s);
    events := Before(s6, Record(5, true), events, s);
    events := Before(s5, Load, events, s);
    events := Before(s4, SwitchTo(1), events, s);
    events := Before(s3, Stop, events, s);
    events := Before(s2, IssueUnrecorded(2, 100), events, s);
    events := Before(s1, Record(1, true), events, s);
    events := Before(initial, Load, events, s);
  }

  /** One quiet step more at the head of a run. */
  lemma Before(s: System, e: Event, events: seq<Event>, t: System) returns (longer: seq<Event>)
    requires Enabled(s, e) && Quiet(s, e)
    requires events == [] ==> Apply(s, e) == t
    requires events != [] ==> Runs(Apply(s, e), events, t) && AllQuiet(Apply(s, e), events)
    ensures longer == [e] + events && Runs(s, longer, t) && AllQuiet(s, longer)
  {
    longer := [e] + events;
    assert longer[0] == e && longer[1..] == events;
  }
}
