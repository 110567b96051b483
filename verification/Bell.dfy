/**
The bell's events of a bundle (_send_bell in apps/monitoring/app/alert_bundle.py, with
hub_decision, bell_severity and bell_record of apps/monitoring/app/alerter.py).
*/
module Bell {
  import opened Common
  import opened CheckEngine
  import opened AlertBundles

  datatype Event = Event(level: Severity, members: seq<Entry>, bundle: bool)

  type Board = map<CheckId, Shown>

  function Level(s: Severity): nat { match s case Info => 0 case Low => 1 case High => 2 }

  function OfLevel(n: nat): Severity { if n == 0 then Info else if n == 1 then Low else High }

  function StatusLevel(s: Status): nat {
    match s case Ok => 0 case Pending => 0 case Unknown => 1 case Warning => 1 case Critical => 2
  }

  function Capped(status: nat, severity: Severity): Severity { OfLevel(Min(status, Level(severity))) }

  /** An event goes out for a problem above info, and for the end of one that was shown. */
  predicate Emits(shown: Shown, after: Status, severity: Severity) {
    if after.Ok? then shown.Alarm? && !shown.level.Info? else Min(StatusLevel(after), Level(severity)) != 0
  }

  /** The end of a problem has the recorded level; a problem is capped by the severity. */
  function BellSeverity(shown: Shown, before: Status, after: Status, severity: Severity): Severity {
    if after.Ok? then (if shown.Alarm? then shown.level else Info)
    else
      var worse := if StatusLevel(before) >= StatusLevel(after) then StatusLevel(before) else StatusLevel(after);
      Capped(worse, severity)
  }

  function BellRecord(after: Status, severity: Severity): Shown {
    if Problem(after) then Alarm(Capped(StatusLevel(after), severity)) else AllClear
  }

  /** emit_to_hub drops an event of level info: what the bell decides to emit never is one. */
  lemma EmittedIsNeverInfo(shown: Shown, before: Status, after: Status, severity: Severity)
    requires Emits(shown, after, severity)
    ensures !BellSeverity(shown, before, after, severity).Info?
  {
  }

  /**
  The all-clear of every alarm reaches the bell, whatever the severity became in between,
  and at the level of the alarm exactly if the status before was, below the check's
  severity, no worse than the one reported.
  */
  lemma AllClearAtTheAlarmsLevel(before: Status, after: Status, severity: Severity, later: Severity, shown: Shown)
    requires Problem(after) && Emits(shown, after, severity)
    ensures var showing := BellRecord(after, severity);
            && Emits(showing, Status.Ok, later)
            && (BellSeverity(showing, after, Status.Ok, later) == BellSeverity(shown, before, after, severity)
                <==> Min(StatusLevel(before), Level(severity)) <= StatusLevel(after))
  {
  }

  /**
  Else it is one level below: an event says how bad it was, the record only how bad it is.
  A check back from critical to warning is shown as critical and cleared as a warning.
  */
  lemma ClearedBelowItsAlarm(before: Status, after: Status, severity: Severity, later: Severity, shown: Shown)
    requires Problem(after) && Emits(shown, after, severity) && Min(StatusLevel(before), Level(severity)) > StatusLevel(after)
    ensures before.Critical? && after.Warning? && severity.High?
    ensures BellSeverity(shown, before, after, severity).High?
    ensures BellSeverity(BellRecord(after, severity), after, Status.Ok, later).Low?
  {
  }

  /** The input on which that happens: the bell showed critical, the check goes to warning, then to ok. */
  lemma DeescalationClearsTooLow() returns (before: Status, after: Status, severity: Severity, shown: Shown)
    ensures shown == BellRecord(before, severity) && Problem(before) && Problem(after) && Emits(shown, after, severity)
    ensures Level(BellSeverity(BellRecord(after, severity), after, Status.Ok, severity))
          < Level(BellSeverity(shown, before, after, severity))
  {
    before, after, severity, shown := Critical, Warning, High, Alarm(High);
  }

  // ----- Splitting -----------------------------------------------------------------------

  ghost predicate Placed(members: seq<Entry>, board: Board) {
    Distinct(members) && forall m :: m in members ==> m.id in board
  }

  function LevelOf(m: Entry, after: Status, board: Board): Severity {
    if m.id in board then BellSeverity(board[m.id], m.before, after, m.severity) else Info
  }

  function Emitted(members: seq<Entry>, after: Status, board: Board): (r: seq<Entry>)
    ensures forall m :: m in r <==> m in members && m.id in board && Emits(board[m.id], after, m.severity)
  {
    Filter(members, (m: Entry) => m.id in board && Emits(board[m.id], after, m.severity))
  }

  function AtLevel(s: seq<Entry>, level: Severity, after: Status, board: Board): (r: seq<Entry>)
    ensures forall m :: m in r <==> m in s && LevelOf(m, after, board) == level
  {
    Filter(s, m => LevelOf(m, after, board) == level)
  }

  function WithServer(s: seq<Entry>): (r: seq<Entry>)
    ensures forall m :: m in r <==> m in s && m.server.Some?
  {
    Filter(s, (m: Entry) => m.server.Some?)
  }

  function Flat(events: seq<Event>): seq<Entry> {
    if events == [] then [] else Flat(events[..|events| - 1]) + events[|events| - 1].members
  }

  lemma {:induction false} FlatAppend(a: seq<Event>, b: seq<Event>)
    ensures Flat(a + b) == Flat(a) + Flat(b)
  {
    if b == [] {
      assert a + b == a;
    } else {
      assert (a + b)[..|a + b| - 1] == a + b[..|b| - 1];
      FlatAppend(a, b[..|b| - 1]);
    }
  }

  lemma FlatOne(e: Event)
    ensures Flat([e]) == e.members
  {
    assert [e][..0] == [];
  }

  lemma {:induction false} FilterSplit(s: seq<Entry>, p: Entry -> bool, q: Entry -> bool, r: Entry -> bool)
    requires forall m :: m in s ==> !(p(m) && q(m)) && (r(m) <==> p(m) || q(m))
    ensures multiset(Filter(s, p)) + multiset(Filter(s, q)) == multiset(Filter(s, r))
  {
    if s != [] {
      assert s == s[..|s| - 1] + [s[|s| - 1]];
      FilterSplit(s[..|s| - 1], p, q, r);
    }
  }

  lemma {:induction false} FilterDistinct(s: seq<Entry>, p: Entry -> bool)
    requires Distinct(s)
    ensures Distinct(Filter(s, p))
  {
    if s != [] {
      assert s == s[..|s| - 1] + [s[|s| - 1]];
      FilterDistinct(s[..|s| - 1], p);
      assert forall m :: m in s[..|s| - 1] ==> m.id != s[|s| - 1].id;
    }
  }

  lemma {:induction false} FilterAll(s: seq<Entry>, p: Entry -> bool)
    requires forall m :: m in s ==> p(m)
    ensures Filter(s, p) == s
  {
    if s != [] {
      assert s == s[..|s| - 1] + [s[|s| - 1]];
      FilterAll(s[..|s| - 1], p);
    }
  }

  lemma {:induction false} FilterNone(s: seq<Entry>, p: Entry -> bool)
    requires forall m :: m in s ==> !p(m)
    ensures Filter(s, p) == []
  {
    if s != [] {
      FilterNone(s[..|s| - 1], p);
    }
  }

  /** One event is of one level and takes what the hub takes. */
  predicate EventOk(e: Event, after: Status, board: Board) {
    && 1 <= |e.members| <= HUB_MAX_IDS
    && (!e.bundle ==> |e.members| == 1)
    && (forall m :: m in e.members ==> LevelOf(m, after, board) == e.level && (e.bundle ==> m.server.Some?))
  }

  predicate EventsOk(events: seq<Event>, after: Status, board: Board) {
    forall e :: e in events ==> EventOk(e, after, board)
  }

  /** Who is bundled: those with a server, when at least BUNDLE_MIN of them share the level. */
  predicate BundledIn(m: Entry, group: seq<Entry>) { m.server.Some? && |WithServer(group)| >= BUNDLE_MIN }

  ghost predicate AllAt(s: seq<Entry>, level: Severity, after: Status, board: Board) {
    forall m :: m in s ==> LevelOf(m, after, board) == level
  }

  predicate Kinds(events: seq<Event>, bundle: bool) { forall e :: e in events ==> e.bundle == bundle }

  method Singles(level: Severity, group: seq<Entry>, after: Status, board: Board) returns (events: seq<Event>)
    requires AllAt(group, level, after, board)
    ensures Flat(events) == group && EventsOk(events, after, board) && Kinds(events, false)
  {
    events := [];
    for i := 0 to |group|
      invariant Flat(events) == group[..i] && EventsOk(events, after, board) && Kinds(events, false)
    {
      FlatAppend(events, [Event(level, [group[i]], false)]);
      FlatOne(Event(level, [group[i]], false));
      events := events + [Event(level, [group[i]], false)];
    }
  }

  method Chunks(level: Severity, bundled: seq<Entry>, after: Status, board: Board) returns (events: seq<Event>)
    requires AllAt(bundled, level, after, board) && forall m :: m in bundled ==> m.server.Some?
    ensures Flat(events) == bundled && EventsOk(events, after, board) && Kinds(events, true)
  {
    NothingPlaced([], after, board);
    hide LevelOf, Flat, EventsOk, Kinds, AllAt;
    events := [];
    var start := 0;
    while start < |bundled|
      invariant 0 <= start <= |bundled|
      invariant Flat(events) == bundled[..start] && EventsOk(events, after, board) && Kinds(events, true)
    {
      var end := Min(start + HUB_MAX_IDS, |bundled|);
      var chunk := Event(level, bundled[start..end], true);
      ChunkOk(level, bundled, start, end, after, board);
      Joined(events, [chunk], true, after, board);
      FlatAppend(events, [chunk]);
      assert bundled[..start] + chunk.members == bundled[..end];
      events := events + [chunk];
      start := end;
    }
    assert bundled[..|bundled|] == bundled;
  }

  lemma ChunkOk(level: Severity, bundled: seq<Entry>, start: nat, end: nat, after: Status, board: Board)
    requires AllAt(bundled, level, after, board) && forall m :: m in bundled ==> m.server.Some?
    requires start < end <= |bundled| && end - start <= HUB_MAX_IDS
    ensures var chunk := Event(level, bundled[start..end], true);
            EventsOk([chunk], after, board) && Kinds([chunk], true) && Flat([chunk]) == bundled[start..end]
  {
    FlatOne(Event(level, bundled[start..end], true));
    hide LevelOf, Flat;
    assert forall m :: m in bundled[start..end] ==> m in bundled;
  }

  function Outside(group: seq<Entry>, ids: set<CheckId>): (r: seq<Entry>)
    ensures forall m :: m in r <==> m in group && m.id !in ids
  {
    Filter(group, (m: Entry) => m.id !in ids)
  }

  lemma OutsideConserves(group: seq<Entry>, bundled: seq<Entry>)
    requires Distinct(group) && (bundled == [] || bundled == WithServer(group))
    ensures multiset(Outside(group, set m | m in bundled :: m.id)) + multiset(bundled) == multiset(group)
  {
    var ids := set m | m in bundled :: m.id;
    if bundled == [] {
      FilterAll(group, (m: Entry) => m.id !in ids);
    } else {
      forall m | m in group ensures m.id in ids <==> m.server.Some? {
        if m.id in ids {
          var x :| x in bundled && x.id == m.id;
          assert x == m;
        }
      }
      FilterSplit(group, (m: Entry) => m.server.Some?, (m: Entry) => m.id !in ids, (m: Entry) => true);
      FilterAll(group, (m: Entry) => true);
    }
  }

  /** The events of one level: nobody is lost, nobody is doubled. */
  method SplitLevel(level: Severity, group: seq<Entry>, after: Status, board: Board)
    returns (singles: seq<Event>, bundles: seq<Event>)
    requires Distinct(group) && AllAt(group, level, after, board)
    ensures multiset(Flat(singles)) + multiset(Flat(bundles)) == multiset(group)
    ensures EventsOk(singles, after, board) && EventsOk(bundles, after, board)
    ensures Kinds(singles, false) && Kinds(bundles, true)
    ensures forall m :: m in group ==> (m in Flat(bundles) <==> BundledIn(m, group))
  {
    var bundled := WithServer(group);
    if |bundled| < BUNDLE_MIN {
      bundled := [];
    }
    var inBundle := set m | m in bundled :: m.id;
    var alone := Outside(group, inBundle);
    OutsideConserves(group, bundled);
    hide Flat, Distinct, LevelOf, WithServer, Outside, EventsOk, Kinds;
    singles := Singles(level, alone, after, board);
    bundles := Chunks(level, bundled, after, board);
  }

  // ----- All levels ----------------------------------------------------------------------

  ghost predicate NoRepeat(order: seq<Severity>) { forall i, j :: 0 <= i < j < |order| ==> order[i] != order[j] }

  /** The levels in the order they first appear, with their members. */
  method ByLevel(emit: seq<Entry>, after: Status, board: Board) returns (order: seq<Severity>, groups: map<Severity, seq<Entry>>)
    ensures NoRepeat(order) && (forall l :: l in groups <==> l in order)
    ensures forall l :: l in order ==> groups[l] == AtLevel(emit, l, after, board)
    ensures forall m :: m in emit ==> LevelOf(m, after, board) in order
  {
    hide AtLevel, LevelOf;
    order, groups := [], map[];
    forall l ensures AtLevel(emit[..0], l, after, board) == [] {
      AtLevelNothing(l, after, board);
    }
    for i := 0 to |emit|
      invariant NoRepeat(order) && (forall l :: l in groups <==> l in order)
      invariant forall l :: l in order ==> groups[l] == AtLevel(emit[..i], l, after, board)
      invariant forall l :: l !in order ==> AtLevel(emit[..i], l, after, board) == []
    {
      var m := emit[i];
      var level := LevelOf(m, after, board);
      forall l ensures AtLevel(emit[..i + 1], l, after, board)
                    == AtLevel(emit[..i], l, after, board) + (if level == l then [m] else []) {
        AtLevelStep(emit, i, l, after, board);
      }
      if level in groups {
        groups := groups[level := groups[level] + [m]];
      } else {
        order, groups := order + [level], groups[level := [m]];
      }
    }
    assert emit[..|emit|] == emit;
    forall m | m in emit ensures LevelOf(m, after, board) in order {
      assert m in AtLevel(emit, LevelOf(m, after, board), after, board);
    }
  }

  lemma AtLevelNothing(level: Severity, after: Status, board: Board)
    ensures AtLevel([], level, after, board) == []
  {
  }

  lemma AtLevelStep(emit: seq<Entry>, i: nat, level: Severity, after: Status, board: Board)
    requires i < |emit|
    ensures AtLevel(emit[..i + 1], level, after, board)
         == AtLevel(emit[..i], level, after, board) + (if LevelOf(emit[i], after, board) == level then [emit[i]] else [])
  {
    hide LevelOf;
    assert emit[..i + 1][..i] == emit[..i] && emit[..i + 1][i] == emit[i];
  }

  /** The members whose level is still to come. */
  function ToCome(emit: seq<Entry>, levels: seq<Severity>, after: Status, board: Board): (r: seq<Entry>)
    ensures forall m :: m in r <==> m in emit && LevelOf(m, after, board) in levels
  {
    Filter(emit, m => LevelOf(m, after, board) in levels)
  }

  lemma ToComeStep(emit: seq<Entry>, order: seq<Severity>, k: nat, after: Status, board: Board)
    requires NoRepeat(order) && k < |order|
    ensures multiset(ToCome(emit, order[k..], after, board))
         == multiset(AtLevel(emit, order[k], after, board)) + multiset(ToCome(emit, order[k + 1..], after, board))
  {
    assert order[k..] == [order[k]] + order[k + 1..];
    assert order[k] !in order[k + 1..];
    FilterSplit(emit, m => LevelOf(m, after, board) == order[k], m => LevelOf(m, after, board) in order[k + 1..],
                m => LevelOf(m, after, board) in order[k..]);
  }

  lemma ToComeEnds(emit: seq<Entry>, order: seq<Severity>, after: Status, board: Board)
    requires forall m :: m in emit ==> LevelOf(m, after, board) in order
    ensures ToCome(emit, order, after, board) == emit && ToCome(emit, [], after, board) == []
  {
    FilterAll(emit, m => LevelOf(m, after, board) in order);
    FilterNone(emit, m => LevelOf(m, after, board) in []);
  }

  lemma AtLevelDistinct(emit: seq<Entry>, level: Severity, after: Status, board: Board)
    requires Distinct(emit)
    ensures Distinct(AtLevel(emit, level, after, board))
  {
    FilterDistinct(emit, m => LevelOf(m, after, board) == level);
  }

  /** A member is in a bundle exactly when its level has BUNDLE_MIN members with a server, itself one. */
  predicate BundledRight(m: Entry, bundles: seq<Event>, emit: seq<Entry>, after: Status, board: Board) {
    m in Flat(bundles) <==> BundledIn(m, AtLevel(emit, LevelOf(m, after, board), after, board))
  }

  /** Every member the bell emits is in exactly one event, of its own level. */
  method Events(emit: seq<Entry>, after: Status, board: Board) returns (singles: seq<Event>, bundles: seq<Event>)
    requires Distinct(emit)
    ensures multiset(Flat(singles)) + multiset(Flat(bundles)) == multiset(emit)
    ensures EventsOk(singles, after, board) && EventsOk(bundles, after, board)
    ensures Kinds(singles, false) && Kinds(bundles, true)
    ensures forall m :: m in emit ==> BundledRight(m, bundles, emit, after, board)
  {
    var order, groups := ByLevel(emit, after, board);
    singles, bundles := [], [];
    ToComeEnds(emit, order, after, board);
    assert order[0..] == order && order[..0] == [];
    NothingPlaced(emit, after, board);
    hide ToCome, AtLevel, AllAt, Flat, Distinct, LevelOf, BundledIn, EventsOk, Kinds, PlacedSoFar, NoRepeat, Conserved, BundledRight;
    for k := 0 to |order|
      invariant Conserved(emit, ToCome(emit, order[k..], after, board), singles, bundles)
      invariant EventsOk(singles, after, board) && EventsOk(bundles, after, board)
      invariant Kinds(singles, false) && Kinds(bundles, true)
      invariant PlacedSoFar(emit, order[..k], bundles, after, board)
    {
      var group := groups[order[k]];
      AtLevelDistinct(emit, order[k], after, board);
      LevelOfGroup(emit, order[k], after, board);
      var s, b := SplitLevel(order[k], group, after, board);
      NotDone(order, k);
      LevelBundled(emit, order[..k], order[k], group, bundles, s, b, after, board);
      Joined(singles, s, false, after, board);
      Joined(bundles, b, true, after, board);
      ConservedStep(emit, order, k, group, singles, bundles, s, b, after, board);
      singles, bundles := singles + s, bundles + b;
    }
    assert order[|order|..] == [] && order[..|order|] == order;
    AllPlaced(emit, order, bundles, after, board);
    ConservedAll(emit, singles, bundles);
  }

  ghost predicate Conserved(emit: seq<Entry>, rest: seq<Entry>, singles: seq<Event>, bundles: seq<Event>) {
    multiset(Flat(singles)) + multiset(Flat(bundles)) + multiset(rest) == multiset(emit)
  }

  lemma ConservedAll(emit: seq<Entry>, singles: seq<Event>, bundles: seq<Event>)
    requires Conserved(emit, [], singles, bundles)
    ensures multiset(Flat(singles)) + multiset(Flat(bundles)) == multiset(emit)
  {
  }

  lemma ConservedStep(emit: seq<Entry>, order: seq<Severity>, k: nat, group: seq<Entry>, singles: seq<Event>, bundles: seq<Event>,
                      s: seq<Event>, b: seq<Event>, after: Status, board: Board)
    requires NoRepeat(order) && k < |order| && group == AtLevel(emit, order[k], after, board)
    requires Conserved(emit, ToCome(emit, order[k..], after, board), singles, bundles)
    requires multiset(Flat(s)) + multiset(Flat(b)) == multiset(group)
    ensures Conserved(emit, ToCome(emit, order[k + 1..], after, board), singles + s, bundles + b)
  {
    ToComeStep(emit, order, k, after, board);
    FlatAppend(singles, s);
    FlatAppend(bundles, b);
    hide Flat, AtLevel, ToCome, NoRepeat, LevelOf;
  }

  lemma LevelOfGroup(emit: seq<Entry>, level: Severity, after: Status, board: Board)
    ensures AllAt(AtLevel(emit, level, after, board), level, after, board)
  {
  }

  lemma NotDone(order: seq<Severity>, k: nat)
    requires NoRepeat(order) && k < |order|
    ensures order[k] !in order[..k] && order[..k + 1] == order[..k] + [order[k]]
  {
  }

  lemma NothingPlaced(emit: seq<Entry>, after: Status, board: Board)
    ensures EventsOk([], after, board) && Kinds([], false) && Kinds([], true) && Flat([]) == []
    ensures Conserved(emit, emit, [], [])
    ensures PlacedSoFar(emit, [], [], after, board)
  {
  }

  lemma AllPlaced(emit: seq<Entry>, order: seq<Severity>, bundles: seq<Event>, after: Status, board: Board)
    requires PlacedSoFar(emit, order, bundles, after, board) && forall m :: m in emit ==> LevelOf(m, after, board) in order
    ensures forall m :: m in emit ==> BundledRight(m, bundles, emit, after, board)
  {
    hide LevelOf, BundledRight;
  }

  lemma Joined(a: seq<Event>, b: seq<Event>, bundle: bool, after: Status, board: Board)
    requires EventsOk(a, after, board) && EventsOk(b, after, board) && Kinds(a, bundle) && Kinds(b, bundle)
    ensures EventsOk(a + b, after, board) && Kinds(a + b, bundle)
    ensures multiset(Flat(a + b)) == multiset(Flat(a)) + multiset(Flat(b))
  {
    FlatAppend(a, b);
  }

  /** The levels in `done` are placed, no other member is in a bundle. */
  ghost predicate PlacedSoFar(emit: seq<Entry>, done: seq<Severity>, bundles: seq<Event>, after: Status, board: Board) {
    && (forall m :: m in emit && LevelOf(m, after, board) in done ==> BundledRight(m, bundles, emit, after, board))
    && (forall m :: m in emit && LevelOf(m, after, board) !in done ==> m !in Flat(bundles))
  }

  lemma LevelBundled(emit: seq<Entry>, done: seq<Severity>, level: Severity, group: seq<Entry>, bundles: seq<Event>, s: seq<Event>,
                     b: seq<Event>, after: Status, board: Board)
    requires level !in done && PlacedSoFar(emit, done, bundles, after, board) && group == AtLevel(emit, level, after, board)
    requires multiset(Flat(s)) + multiset(Flat(b)) == multiset(group)
    requires forall m :: m in group ==> (m in Flat(b) <==> BundledIn(m, group))
    ensures PlacedSoFar(emit, done + [level], bundles + b, after, board)
  {
    forall m | m in emit
      ensures LevelOf(m, after, board) in done + [level] ==> BundledRight(m, bundles + b, emit, after, board)
      ensures LevelOf(m, after, board) !in done + [level] ==> m !in Flat(bundles + b)
    {
      hide Flat, LevelOf, BundledIn, PlacedSoFar, BundledRight;
      OneBundled(emit, done, level, group, bundles, s, b, after, board, m);
    }
    hide Flat, LevelOf, BundledIn, BundledRight;
  }

  lemma OneBundled(emit: seq<Entry>, done: seq<Severity>, level: Severity, group: seq<Entry>, bundles: seq<Event>, s: seq<Event>,
                   b: seq<Event>, after: Status, board: Board, m: Entry)
    requires level !in done && m in emit && PlacedSoFar(emit, done, bundles, after, board)
    requires group == AtLevel(emit, level, after, board) && multiset(Flat(s)) + multiset(Flat(b)) == multiset(group)
    requires m in group ==> (m in Flat(b) <==> BundledIn(m, group))
    ensures LevelOf(m, after, board) in done + [level] ==> BundledRight(m, bundles + b, emit, after, board)
    ensures LevelOf(m, after, board) !in done + [level] ==> m !in Flat(bundles + b)
  {
    FlatAppend(bundles, b);
    assert m in Flat(b) ==> m in multiset(group);
    hide Flat, LevelOf, BundledIn, AtLevel;
  }

  // ----- Sending -------------------------------------------------------------------------

  ghost predicate Accepted(m: Entry, events: seq<Event>, accepts: Event -> bool) {
    exists i :: 0 <= i < |events| && accepts(events[i]) && m in events[i].members
  }

  /** _send_bell: the record of each member follows what the hub said to its event. */
  method SendBell(members: seq<Entry>, after: Status, board: Board, accepts: Event -> bool)
    returns (singles: seq<Event>, bundles: seq<Event>, record: Board)
    requires Placed(members, board)
    ensures multiset(Flat(singles + bundles)) == multiset(Emitted(members, after, board))
    ensures EventsOk(singles + bundles, after, board)
    ensures forall m :: m in Emitted(members, after, board) ==>
              BundledRight(m, bundles, Emitted(members, after, board), after, board)
    ensures record.Keys == board.Keys
    ensures forall m :: m in members ==>
              record[m.id] == if Accepted(m, singles + bundles, accepts) then BellRecord(after, m.severity) else board[m.id]
    ensures forall c :: c in board && (forall m :: m in members ==> m.id != c) ==> record[c] == board[c]
  {
    var emit := Emitted(members, after, board);
    EmittedDistinct(members, after, board);
    singles, bundles := Events(emit, after, board);
    FlatAppend(singles, bundles);
    assert forall m :: m in Flat(singles + bundles) ==> m in multiset(emit);
    record := Record(members, singles + bundles, after, board, accepts);
  }

  lemma EmittedDistinct(members: seq<Entry>, after: Status, board: Board)
    requires Distinct(members)
    ensures Distinct(Emitted(members, after, board))
  {
    FilterDistinct(members, (m: Entry) => m.id in board && Emits(board[m.id], after, m.severity));
  }

  lemma {:induction false} InFlat(events: seq<Event>, i: nat, m: Entry)
    requires i < |events| && m in events[i].members
    ensures m in Flat(events)
  {
    if i < |events| - 1 {
      InFlat(events[..|events| - 1], i, m);
    }
  }

  lemma {:induction false} CountOfDistinct(s: seq<Entry>, m: Entry)
    requires Distinct(s)
    ensures multiset(s)[m] <= 1
  {
    if s != [] {
      var last, rest := s[|s| - 1], s[..|s| - 1];
      assert s == rest + [last];
      CountOfDistinct(rest, m);
      assert m == last ==> m !in rest;
    }
  }

  /** Two events never share a member. */
  lemma EventsAreDisjoint(events: seq<Event>, emit: seq<Entry>, i: nat, j: nat, m: Entry)
    requires Distinct(emit) && multiset(Flat(events)) == multiset(emit)
    requires i < j < |events| && m in events[i].members
    ensures m !in events[j].members
  {
    hide Flat, Distinct;
    var head, tail := events[..j], events[j..];
    assert events == head + tail;
    FlatAppend(head, tail);
    InFlat(head, i, m);
    CountOfDistinct(emit, m);
    if m in tail[0].members {
      InFlat(tail, 0, m);
    }
    assert multiset(Flat(head) + Flat(tail))[m] == multiset(Flat(head))[m] + multiset(Flat(tail))[m];
    assert multiset(Flat(head))[m] >= 1;
  }

  /** The members of the events the hub took. */
  method Taken(members: seq<Entry>, events: seq<Event>, accepts: Event -> bool) returns (accepted: seq<Entry>)
    requires forall m :: m in Flat(events) ==> m in members
    ensures forall m :: m in accepted ==> m in members
    ensures forall m :: m in members ==> (m in accepted <==> Accepted(m, events, accepts))
  {
    accepted := [];
    for i := 0 to |events|
      invariant forall m :: m in accepted ==> m in members
      invariant forall m :: m in members ==> (m in accepted <==> Accepted(m, events[..i], accepts))
    {
      forall m | m in events[i].members ensures m in members {
        InFlat(events, i, m);
      }
      AcceptedStep(members, events, i, accepts);
      hide Accepted;
      if accepts(events[i]) {
        accepted := accepted + events[i].members;
      }
    }
    assert events[..|events|] == events;
  }

  method Record(members: seq<Entry>, events: seq<Event>, after: Status, board: Board, accepts: Event -> bool) returns (record: Board)
    requires Placed(members, board) && forall m :: m in Flat(events) ==> m in members
    ensures record.Keys == board.Keys
    ensures forall m :: m in members ==>
              record[m.id] == if Accepted(m, events, accepts) then BellRecord(after, m.severity) else board[m.id]
    ensures forall c :: c in board && (forall m :: m in members ==> m.id != c) ==> record[c] == board[c]
  {
    var accepted := Taken(members, events, accepts);
    hide Accepted, BellRecord, Flat;
    record := board;
    assert forall m, x :: m in members && x in members && m.id == x.id ==> m == x;
    for i := 0 to |accepted|
      invariant record.Keys == board.Keys
      invariant forall m :: m in members ==>
                  record[m.id] == if m in accepted[..i] then BellRecord(after, m.severity) else board[m.id]
      invariant forall c :: c in board && (forall m :: m in members ==> m.id != c) ==> record[c] == board[c]
    {
      assert accepted[..i + 1] == accepted[..i] + [accepted[i]];
      assert accepted[i] in members;
      record := record[accepted[i].id := BellRecord(after, accepted[i].severity)];
    }
    assert accepted[..|accepted|] == accepted;
  }

  lemma AcceptedStep(members: seq<Entry>, events: seq<Event>, i: nat, accepts: Event -> bool)
    requires i < |events|
    ensures forall m :: m in members ==>
              (Accepted(m, events[..i + 1], accepts) <==> Accepted(m, events[..i], accepts) || (accepts(events[i]) && m in events[i].members))
  {
    forall m | m in members
      ensures Accepted(m, events[..i + 1], accepts) <==> Accepted(m, events[..i], accepts) || (accepts(events[i]) && m in events[i].members)
    {
      if Accepted(m, events[..i], accepts) {
        var j :| 0 <= j < i && accepts(events[..i][j]) && m in events[..i][j].members;
        assert events[..i + 1][j] == events[..i][j];
      }
      if accepts(events[i]) && m in events[i].members {
        assert events[..i + 1][i] == events[i];
      }
    }
  }
}
