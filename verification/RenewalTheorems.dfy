/**
Root renewals over whole runs: any commands in any order, each stopped after any file
operation, from a fresh hierarchy on.
*/
module RenewalTheorems {
  import opened Common
  import opened Certificates
  import opened PkiDirectory
  import opened Rotation
  import opened RenewalWorld
  import opened RenewalCuts
  import opened RenewalCommands
  import opened RenewalFinish

  // ----- Runs -------------------------------------------------------------------------

  function FreshScope(s: Scope, root: Cert, now: Time, key: KeyId): ScopeFiles {
    match BuildIntermediate(s, root, root.key, None, now, key)
    case Ok(c) => ScopeFiles(Some(c), Some(key), Some([c, root]), None)
    case Err(_) => ScopeFiles(None, None, None, None)
  }

  /** What the first boot creates (storage.ensure_hierarchy). */
  function Fresh(now: Time, pass: Passphrase): World {
    var root := BuildRoot(None, now, 0);
    var t, a, i := FreshScope(Tunnel, root, now, 1), FreshScope(Access, root, now, 2), FreshScope(Internal, root, now, 3);
    World(Dir(Some(root), Some(EncKey(0, pass)), None, None, None, None, None, t, a, i), now, 4,
          (if t.crt.Some? then {t.crt.value} else {}) + (if a.crt.Some? then {a.crt.value} else {})
          + (if i.crt.Some? then {i.crt.value} else {}),
          [root], true)
  }

  lemma FreshSatisfiesInv(now: Time, pass: Passphrase)
    ensures Inv(Fresh(now, pass)) && InPhase(Fresh(now, pass).dir, NoRenewal)
  {
    var root := BuildRoot(None, now, 0);
    BuildRootIsProper(None, now, 0);
    BuildIntermediateIsProper(Tunnel, root, 0, None, now, 1);
    BuildIntermediateIsProper(Access, root, 0, None, now, 2);
    BuildIntermediateIsProper(Internal, root, 0, None, now, 3);
    var w := Fresh(now, pass);
    forall s ensures ScopeInv(w.dir.Of(s), s, root, root, now) && ChainUnder(w.dir.Of(s), root) {
      match s case Tunnel => case Access => case Internal =>
    }
  }

  datatype Event = Event(cmd: Command, now: Time, cut: nat)

  function RunAll(w: World, events: seq<Event>): World
    decreases |events|
  {
    if events == [] then w else RunAll(Run(w, events[0].cmd, events[0].now, events[0].cut), events[1..])
  }

  /** The clock never goes back, neither within the run nor before its start. */
  predicate Monotone(clock: Time, events: seq<Event>)
    decreases |events|
  {
    events == [] || (clock <= events[0].now && Monotone(events[0].now, events[1..]))
  }

  lemma RunKeepsInv(w: World, cmd: Command, now: Time, cut: nat)
    requires Inv(w) && w.clock <= now
    ensures Inv(Run(w, cmd, now, cut)) && Run(w, cmd, now, cut).clock == now
  {
    hide Inv, Cuts, PlanStage, PlanAbort, PlanSwitch, PlanFinish, PlanRotation, Coherent;
    TickKeepsInv(w, now);
    var plan := PlanOf(w.dir, cmd, now, w.nextKey);
    if plan.Ok? && cut > 0 {
      var w0 := Begin(w, cmd, now);
      match cmd {
        case Stage(pass) => StageCuts(w, pass, now);
        case Abort => AbortCuts(w, now);
        case SwitchRoot(o) => SwitchCuts(w, o, now);
        case Finish => FinishCuts(w, now);
        case Rotate(pass, compromised) => RotationCuts(w, pass, compromised, now, plan.value);
      }
      var k := if cut < |plan.value| then cut else |plan.value|;
      CutsAt(w0, plan.value, k);
      assert plan.value[..|plan.value|] == plan.value;
      StepAllClock(w0, plan.value[..k]);
      if Reissues(cmd) && k == |plan.value| {
        EndedKeepsInv(StepAll(w0, plan.value));
      }
    }
  }

  lemma EndedKeepsInv(w: World)
    requires Inv(w) && Coherent(w.dir)
    ensures Inv(w.(ended := true))
  {
  }

  lemma {:induction false} StepAllClock(w: World, ops: seq<Op>)
    ensures StepAll(w, ops).clock == w.clock
    decreases |ops|
  {
    if ops != [] {
      StepAllClock(Step(w, ops[0]), ops[1..]);
    }
  }

  lemma {:induction false} RunAllKeepsInv(w: World, events: seq<Event>)
    requires Inv(w) && Monotone(w.clock, events)
    ensures Inv(RunAll(w, events))
    decreases |events|
  {
    hide Inv, Run;
    if events != [] {
      RunKeepsInv(w, events[0].cmd, events[0].now, events[0].cut);
      RunAllKeepsInv(Run(w, events[0].cmd, events[0].now, events[0].cut), events[1..]);
    }
  }

  /**
  In no run from a fresh hierarchy, every command cut anywhere, does the phase classifier
  meet files it rejects.
  */
  lemma NeverRejected(now: Time, pass: Passphrase, events: seq<Event>)
    requires Monotone(now, events)
    ensures LoadState(RunAll(Fresh(now, pass), events).dir).Ok?
    ensures Inv(RunAll(Fresh(now, pass), events))
  {
    FreshSatisfiesInv(now, pass);
    RunAllKeepsInv(Fresh(now, pass), events);
  }

  /** A switch that stopped part way is moved on by nothing but a switch. */
  lemma OnlySwitchEndsASwitch(w: World, cmd: Command, now: Time, cut: nat)
    requires InPhase(w.dir, Switching) && !cmd.SwitchRoot?
    ensures PlanOf(w.dir, cmd, now, w.nextKey).Err? && Run(w, cmd, now, cut).dir == w.dir
  {
  }

  /** A finish that stopped part way is moved on by nothing but a finish. */
  lemma OnlyFinishEndsAFinish(w: World, cmd: Command, now: Time, cut: nat)
    requires InPhase(w.dir, Finishing) && !cmd.Finish?
    ensures PlanOf(w.dir, cmd, now, w.nextKey).Err? && Run(w, cmd, now, cut).dir == w.dir
  {
  }

  // ----- A switch, cut and run again --------------------------------------------------

  /** The options of a switch over all its attempts, with the keys they open. */
  datatype Renewal = Renewal(oldRoot: Cert, newRoot: Cert, oldKey: EncKey, newKey: EncKey, options: SwitchOptions)

  /** Right passphrases, and options a switch accepts. */
  predicate RightOptions(r: Renewal) {
    && r.options.nextPass == r.newKey.pass
    && (r.options.cross ==> r.options.rootPass == Some(r.oldKey.pass))
    && (r.options.compromised != {} ==> r.options.cross)
  }

  /** Before or within the switch of `r`: both roots and both keys are where a rerun finds them. */
  predicate Underway(d: Dir, r: Renewal) {
    && (d.record.None? ==> d.nextCrt.Some? && d.retired.None? && d.cross.None?)
    && OldRoot(d) == Some(r.oldRoot) && NewRoot(d) == Some(r.newRoot)
    && d.nextKey == Some(r.newKey)
    && (d.rootKey == Some(r.oldKey) || d.rootKey == Some(r.newKey))
    && (d.record.Some? ==> d.record.value.compromised == r.options.compromised && d.record.value.cross == r.options.cross)
  }

  predicate ScopeOp(op: Op) { op.PutRetired? || op.PutKey? || op.PutCrt? || op.PutChain? }

  predicate StaysUnderway(d: Dir, ops: seq<Op>, r: Renewal)
    decreases |ops|
  {
    Underway(d, r) && (ops != [] ==> StaysUnderway(Apply(d, ops[0]), ops[1..], r))
  }

  lemma {:induction false} StaysUnderwayAppend(d: Dir, a: seq<Op>, b: seq<Op>, r: Renewal)
    requires StaysUnderway(d, a, r) && StaysUnderway(ApplyAll(d, a), b, r)
    ensures StaysUnderway(d, a + b, r)
    decreases |a|
  {
    if a == [] {
      assert a + b == b;
    } else {
      assert (a + b)[0] == a[0] && (a + b)[1..] == a[1..] + b;
      StaysUnderwayAppend(Apply(d, a[0]), a[1..], b, r);
    }
  }

  lemma {:induction false} UnderwayAt(d: Dir, ops: seq<Op>, r: Renewal, k: nat)
    requires StaysUnderway(d, ops, r) && k <= |ops|
    ensures Underway(ApplyAll(d, ops[..k]), r)
    decreases |ops|
  {
    if k > 0 {
      assert ops[..k][0] == ops[0] && ops[..k][1..] == ops[1..][..k - 1];
      UnderwayAt(Apply(d, ops[0]), ops[1..], r, k - 1);
    }
  }

  lemma {:induction false} ScopeOpsStayUnderway(d: Dir, ops: seq<Op>, r: Renewal)
    requires Underway(d, r) && forall i | 0 <= i < |ops| :: ScopeOp(ops[i])
    ensures StaysUnderway(d, ops, r)
    ensures var v := ApplyAll(d, ops); v == d.(tunnel := v.tunnel, access := v.access, internal := v.internal)
    decreases |ops|
  {
    if ops != [] {
      assert ScopeOp(ops[0]);
      assert forall i | 0 <= i < |ops[1..]| :: ops[1..][i] == ops[i + 1];
      ScopeOpsStayUnderway(Apply(d, ops[0]), ops[1..], r);
    }
  }

  /** A switch plan: the head, file operations of the scopes, the tail. */
  lemma SwitchOps(d: Dir, r: Renewal, now: Time, key: KeyId) returns (cross: Option<Cert>, body: seq<Op>)
    requires Underway(d, r) && PlanSwitch(d, r.options, now, key).Ok?
    ensures PlanSwitch(d, r.options, now, key).value
            == SwitchHead(d, RecordOf(d, r.options, now), r.oldRoot, cross) + body + SwitchTail(r.newKey, r.newRoot)
    ensures forall i | 0 <= i < |body| :: ScopeOp(body[i])
  {
    hide PlanSwitch, MoveOf, PlanCross, SwitchHead, SwitchTail, ChainsOf, RecordOf, LoadState;
    var ops := PlanSwitch(d, r.options, now, key).value;
    var p := SwitchPlan(d, r.options, now, key, ops);
    cross, body := p.cross, p.t + p.a + p.i + ChainsOf(d, p.newRoot);
    var head, tail := SwitchHead(d, RecordOf(d, r.options, now), r.oldRoot, cross), SwitchTail(r.newKey, r.newRoot);
    OneBody(head, p.t + p.a + p.i, ChainsOf(d, p.newRoot), tail);
    BodyIsScopes(d, r.options, now, key, p);
  }

  lemma OneBody(a: seq<Op>, b: seq<Op>, c: seq<Op>, d: seq<Op>)
    ensures a + b + c + d == a + (b + c) + d
  {
  }

  /** The moves and the chains write files of a scope only. */
  lemma BodyIsScopes(d: Dir, o: SwitchOptions, now: Time, key: KeyId, p: SwitchParts)
    requires PartsOf(d, o, now, key, p)
    ensures forall i | 0 <= i < |p.t + p.a + p.i + ChainsOf(d, p.newRoot)| :: ScopeOp((p.t + p.a + p.i + ChainsOf(d, p.newRoot))[i])
  {
    hide PlanCross, LoadState, MoveOf, ScopeOp;
    MoveIsScopes(d, Tunnel, p, o, now, key, p.t);
    MoveIsScopes(d, Access, p, o, now, key, p.a);
    MoveIsScopes(d, Internal, p, o, now, key, p.i);
    ChainIsScopes(d.tunnel, Tunnel, p.newRoot);
    ChainIsScopes(d.access, Access, p.newRoot);
    ChainIsScopes(d.internal, Internal, p.newRoot);
    hide ChainOf;
    ScopesAppend(p.t, p.a);
    ScopesAppend(p.t + p.a, p.i);
    ScopesAppend(ChainOf(d.tunnel, Tunnel, p.newRoot), ChainOf(d.access, Access, p.newRoot));
    ScopesAppend(ChainOf(d.tunnel, Tunnel, p.newRoot) + ChainOf(d.access, Access, p.newRoot), ChainOf(d.internal, Internal, p.newRoot));
    ScopesAppend(p.t + p.a + p.i, ChainsOf(d, p.newRoot));
  }

  lemma ScopesAppend(a: seq<Op>, b: seq<Op>)
    requires (forall i | 0 <= i < |a| :: ScopeOp(a[i])) && (forall i | 0 <= i < |b| :: ScopeOp(b[i]))
    ensures forall i | 0 <= i < |a + b| :: ScopeOp((a + b)[i])
  {
    hide ScopeOp;
  }

  lemma ChainIsScopes(f: ScopeFiles, s: Scope, newRoot: Cert)
    ensures forall i | 0 <= i < |ChainOf(f, s, newRoot)| :: ScopeOp(ChainOf(f, s, newRoot)[i])
  {
    hide Moved;
  }

  lemma MoveIsScopes(d: Dir, s: Scope, p: SwitchParts, o: SwitchOptions, now: Time, key: KeyId, ops: seq<Op>)
    requires MoveOf(d, s, p, o, now, key) == Ok(ops)
    ensures forall i | 0 <= i < |ops| :: ScopeOp(ops[i])
  {
    hide PlanScope, Moved, KeyFor;
  }

  lemma SwitchStaysUnderway(w: World, r: Renewal, now: Time)
    requires Underway(w.dir, r) && r.oldRoot != r.newRoot
    requires PlanSwitch(w.dir, r.options, now, w.nextKey).Ok?
    ensures var ops := PlanSwitch(w.dir, r.options, now, w.nextKey).value;
            ops != [] && StaysUnderway(w.dir, ops[..|ops| - 1], r)
  {
    hide StaysUnderway, ApplyAll, SwitchHead;
    var d, switch := w.dir, RecordOf(w.dir, r.options, now);
    var cross, body := SwitchOps(d, r, now, w.nextKey);
    var head := SwitchHead(d, switch, r.oldRoot, cross);
    var ops, tail := PlanSwitch(d, r.options, now, w.nextKey).value, SwitchTail(r.newKey, r.newRoot);
    SwitchRecordMatches(d, r, now, w.nextKey);
    HeadStaysUnderway(d, r, switch, cross);
    var d1 := ApplyAll(d, head);
    ScopeOpsStayUnderway(d1, body, r);
    TailStaysUnderway(ApplyAll(d1, body), r);
    StaysUnderwayAppend(d1, body, tail[..3], r);
    StaysUnderwayAppend(d, head, body + tail[..3], r);
    assert ops[..|ops| - 1] == head + (body + tail[..3]);
  }

  lemma SwitchRecordMatches(d: Dir, r: Renewal, now: Time, key: KeyId)
    requires Underway(d, r) && PlanSwitch(d, r.options, now, key).Ok?
    ensures var s := RecordOf(d, r.options, now);
            && s.compromised == r.options.compromised && s.cross == r.options.cross
            && (d.record.Some? ==> d.record == Some(s))
  {
  }

  lemma HeadStaysUnderway(d: Dir, r: Renewal, switch: Switch, cross: Option<Cert>)
    requires Underway(d, r) && switch.compromised == r.options.compromised && switch.cross == r.options.cross
    requires d.record.Some? ==> d.record == Some(switch)
    ensures var head := SwitchHead(d, switch, r.oldRoot, cross);
            && StaysUnderway(d, head, r)
            && ApplyAll(d, head).retired == Some(r.oldRoot) && ApplyAll(d, head).record == Some(switch)
            && Underway(ApplyAll(d, head), r)
  {
    var a := if d.record.None? then [PutRecord(switch)] else [];
    var b := if d.retired.None? then [PutRetiredRoot(r.oldRoot)] else [];
    var c := if cross.Some? && d.cross.None? then [PutCross(cross.value)] else [];
    ApplyOne(d, PutRecord(switch));
    ApplyOne(ApplyAll(d, a), PutRetiredRoot(r.oldRoot));
    if cross.Some? {
      ApplyOne(ApplyAll(ApplyAll(d, a), b), PutCross(cross.value));
    }
    assert (a != [] ==> a[1..] == []) && (b != [] ==> b[1..] == []) && (c != [] ==> c[1..] == []);
    var d1 := ApplyAll(d, a);
    assert d1 == d.(record := Some(switch));
    assert StaysUnderway(d, a, r);
    var d2 := ApplyAll(d1, b);
    assert d2 == d1.(retired := Some(r.oldRoot));
    assert StaysUnderway(d1, b, r);
    var d3 := ApplyAll(d2, c);
    assert d3 == d2.(cross := d3.cross);
    assert StaysUnderway(d2, c, r);
    StaysUnderwayAppend(d, a, b, r);
    ApplyAllAppend(d, a, b);
    StaysUnderwayAppend(d, a + b, c, r);
    ApplyAllAppend(d, a + b, c);
    assert SwitchHead(d, switch, r.oldRoot, cross) == a + b + c;
  }

  lemma TailStaysUnderway(d: Dir, r: Renewal)
    requires Underway(d, r) && d.retired == Some(r.oldRoot) && d.record.Some?
    ensures StaysUnderway(d, SwitchTail(r.newKey, r.newRoot)[..3], r)
  {
    var ops := SwitchTail(r.newKey, r.newRoot)[..3];
    assert ops == [PutRootKey(r.newKey), PutRootCrt(r.newRoot), RemoveNextCrt];
    var d1 := Apply(d, ops[0]);
    var d2 := Apply(d1, ops[1]);
    var d3 := Apply(d2, ops[2]);
    assert ops[1..] == [ops[1], ops[2]] && ops[1..][1..] == [ops[2]] && ops[1..][1..][1..] == [];
    assert StaysUnderway(d3, [], r);
    assert StaysUnderway(d2, [ops[2]], r);
    assert StaysUnderway(d1, [ops[1], ops[2]], r);
  }

  /** With the right options and both roots valid, a switch is never refused. */
  lemma SwitchIsPlanned(w: World, r: Renewal, now: Time)
    requires Inv(w) && w.clock <= now && Underway(w.dir, r) && RightOptions(r)
    requires ValidAt(r.oldRoot, now) && ValidAt(r.newRoot, now)
    ensures PlanSwitch(w.dir, r.options, now, w.nextKey).Ok?
  {
    var d, o := w.dir, r.options;
    assert InPhase(d, Staged) || InPhase(d, Switching);
    assert d.rootKey == Some(r.oldKey) && d.cross.None? && o.cross ==> r.oldKey.key == r.oldRoot.key;
    var cross := PlanCross(d, o, r.newRoot, r.oldRoot, now);
    assert cross.Ok?;
    var roots := [r.newRoot, r.oldRoot];
    forall s ensures PlanMove(d.Of(s), s, r.newRoot, r.newRoot.key, roots, s in o.compromised, now, KeyFor(s, w.nextKey)).Ok? {
      MoveIsPlanned(w, s, r.oldRoot, r.newRoot, s in o.compromised, now, KeyFor(s, w.nextKey));
    }
    assert PlanMove(d.Of(Tunnel), Tunnel, r.newRoot, r.newRoot.key, roots, Tunnel in o.compromised, now, KeyFor(Tunnel, w.nextKey)).Ok?;
    assert PlanMove(d.Of(Access), Access, r.newRoot, r.newRoot.key, roots, Access in o.compromised, now, KeyFor(Access, w.nextKey)).Ok?;
    assert PlanMove(d.Of(Internal), Internal, r.newRoot, r.newRoot.key, roots, Internal in o.compromised, now, KeyFor(Internal, w.nextKey)).Ok?;
  }

  lemma MoveIsPlanned(w: World, s: Scope, oldRoot: Cert, newRoot: Cert, compromised: bool, now: Time, key: KeyId)
    requires Inv(w) && w.clock <= now && OldRoot(w.dir) == Some(oldRoot) && NewRoot(w.dir) == Some(newRoot)
    requires ValidAt(newRoot, now)
    ensures PlanMove(w.dir.Of(s), s, newRoot, newRoot.key, [newRoot, oldRoot], compromised, now, key).Ok?
  {
    var f, roots := w.dir.Of(s), [newRoot, oldRoot];
    assert ScopeInv(f, s, oldRoot, newRoot, w.clock);
    BuildIntermediateIsProper(s, newRoot, newRoot.key, Some(DayOf(now)), now, key);
    forall i | 0 <= i < |f.Entries()| ensures IsIntermediateAmong(f.Entries()[i], s, roots) {
      assert f.Entries()[i] in f.Entries();
      assert IsIntermediate(f.Entries()[i], s, roots[0]) || IsIntermediate(f.Entries()[i], s, roots[1]);
    }
  }

  /** One attempt: refused by nothing; stopped, it stays under way; ended, the switch is done. */
  lemma SwitchAttempt(w: World, r: Renewal, now: Time, cut: nat)
    requires Inv(w) && w.clock <= now && Underway(w.dir, r) && RightOptions(r) && r.oldRoot != r.newRoot
    requires ValidAt(r.oldRoot, now) && ValidAt(r.newRoot, now)
    ensures var plan := PlanSwitch(w.dir, r.options, now, w.nextKey);
            var v := Run(w, SwitchRoot(r.options), now, cut);
            && plan.Ok? && Inv(v) && v.clock == now
            && (cut < |plan.value| ==> Underway(v.dir, r))
            && (cut >= |plan.value| ==> SwitchDone(w.dir, v.dir, r.options))
  {
    hide Inv, PlanSwitch, Cuts, StaysUnderway, Underway, SwitchDone;
    SwitchIsPlanned(w, r, now);
    RunKeepsInv(w, SwitchRoot(r.options), now, cut);
    SwitchCuts(w, r.options, now);
    SwitchStaysUnderway(w, r, now);
    var ops := PlanSwitch(w.dir, r.options, now, w.nextKey).value;
    if cut < |ops| {
      var w0 := Begin(w, SwitchRoot(r.options), now);
      UnderwayAt(w.dir, ops[..|ops| - 1], r, cut);
      assert ops[..|ops| - 1][..cut] == ops[..cut];
      StepAllIsApplyAll(w0, ops[..cut]);
    }
  }

  datatype Attempt = Attempt(now: Time, cut: nat)

  /** Attempts in order of time, each while both roots are valid. */
  predicate Attempts(clock: Time, r: Renewal, attempts: seq<Attempt>)
    decreases |attempts|
  {
    attempts == []
    || (&& clock <= attempts[0].now && ValidAt(r.oldRoot, attempts[0].now) && ValidAt(r.newRoot, attempts[0].now)
        && Attempts(attempts[0].now, r, attempts[1..]))
  }

  function SwitchAll(w: World, r: Renewal, attempts: seq<Attempt>): World
    decreases |attempts|
  {
    if attempts == [] then w
    else SwitchAll(Run(w, SwitchRoot(r.options), attempts[0].now, attempts[0].cut), r, attempts[1..])
  }

  /** Every attempt of a list is stopped before its last file operation. */
  predicate AllStopped(w: World, r: Renewal, attempts: seq<Attempt>)
    decreases |attempts|
  {
    attempts == []
    || (var plan := PlanSwitch(w.dir, r.options, attempts[0].now, w.nextKey);
        && (plan.Ok? ==> attempts[0].cut < |plan.value|)
        && AllStopped(Run(w, SwitchRoot(r.options), attempts[0].now, attempts[0].cut), r, attempts[1..]))
  }

  /**
  A switch stopped after any file operation, any number of times, and run again with the
  same options ends in phase switched: N is root.crt with its key, every scope is settled
  under N, R is kept as retired, and X is there if and only if it was asked for. At every
  stop both roots are still at hand, and R's key is overwritten only once X is on disk or
  the record says there is none.
  */
  lemma {:induction false} StoppedSwitchEnds(w: World, r: Renewal, attempts: seq<Attempt>, last: Time)
    requires Inv(w) && Underway(w.dir, r) && RightOptions(r) && r.oldRoot != r.newRoot
    requires Attempts(w.clock, r, attempts + [Attempt(last, 0)]) && AllStopped(w, r, attempts)
    ensures var v := SwitchAll(w, r, attempts);
            && Inv(v) && Underway(v.dir, r)
            && (v.dir.rootKey == Some(r.oldKey)
                || (v.dir.record.Some? && (v.dir.cross.Some? || !v.dir.record.value.cross)))
            && PlanSwitch(v.dir, r.options, last, v.nextKey).Ok?
            && forall cut | cut >= |PlanSwitch(v.dir, r.options, last, v.nextKey).value| ::
                 var e := Run(v, SwitchRoot(r.options), last, cut).dir;
                 && SwitchDone(v.dir, e, r.options)
                 && e.rootCrt == Some(r.newRoot) && e.rootKey == Some(r.newKey) && e.retired == Some(r.oldRoot)
    decreases |attempts|
  {
    hide Inv, Run, PlanSwitch;
    if attempts == [] {
      var ops := PlanSwitch(w.dir, r.options, last, w.nextKey);
      assert (attempts + [Attempt(last, 0)])[0] == Attempt(last, 0);
      SwitchAttempt(w, r, last, 0);
      OverwrittenKey(w, r);
      forall cut | cut >= |ops.value| ensures SwitchDone(w.dir, Run(w, SwitchRoot(r.options), last, cut).dir, r.options) {
        SwitchAttempt(w, r, last, cut);
      }
    } else {
      var a := attempts[0];
      var all := attempts + [Attempt(last, 0)];
      assert all[0] == a && all[1..] == attempts[1..] + [Attempt(last, 0)];
      SwitchAttempt(w, r, a.now, a.cut);
      StoppedSwitchEnds(Run(w, SwitchRoot(r.options), a.now, a.cut), r, attempts[1..], last);
    }
  }

  lemma OverwrittenKey(w: World, r: Renewal)
    requires Inv(w) && Underway(w.dir, r) && r.oldRoot != r.newRoot
    ensures w.dir.rootKey == Some(r.oldKey)
            || (w.dir.record.Some? && (w.dir.cross.Some? || !w.dir.record.value.cross))
  {
  }

  /** Every staged world is under way: the theorem applies to the first attempt of any switch. */
  lemma StagedIsUnderway(w: World, o: SwitchOptions)
    requires Inv(w) && InPhase(w.dir, Staged)
    ensures Underway(w.dir, Renewal(w.dir.rootCrt.value, w.dir.nextCrt.value, w.dir.rootKey.value, w.dir.nextKey.value, o))
    ensures w.dir.rootCrt != w.dir.nextCrt
  {
  }

  // ----- A finish, cut and run again --------------------------------------------------

  predicate AfterSwitch(d: Dir) { InPhase(d, Switched) || InPhase(d, Finishing) }

  /** Finishes stopped part way, with any rotations between them. */
  predicate FinishesAndRotations(w: World, events: seq<Event>)
    decreases |events|
  {
    events == []
    || (&& (events[0].cmd.Rotate? || (events[0].cmd.Finish? && events[0].cut < 6))
        && FinishesAndRotations(Run(w, events[0].cmd, events[0].now, events[0].cut), events[1..]))
  }

  lemma StoppedFinishStays(w: World, now: Time, cut: nat)
    requires Inv(w) && w.clock <= now && AfterSwitch(w.dir) && cut < 6
    ensures var v := Run(w, Finish, now, cut);
            AfterSwitch(v.dir) && v.dir.rootCrt == w.dir.rootCrt
  {
    hide Inv, PlanFinish, LoadState, StepAll, ApplyAll, GivenUp;
    FinishIsPlanned(w);
    RunKeepsInv(w, Finish, now, cut);
    hide AfterSwitch;
    var ops, v := PlanFinish(w.dir).value, Run(w, Finish, now, cut);
    var w0 := Begin(w, Finish, now);
    FinishPrefix(w.dir, ops, cut);
    StepAllIsApplyAll(w0, ops[..cut]);
    assert cut > 0 ==> v.dir == StepAll(w0, ops[..cut]).dir;
    assert v.dir.record == w.dir.record && v.dir.nextCrt == w.dir.nextCrt && v.dir.nextKey == w.dir.nextKey && v.dir.rootCrt == w.dir.rootCrt;
    StillAfterSwitch(w.dir, v);
  }

  lemma StillAfterSwitch(d: Dir, v: World)
    requires Inv(v) && AfterSwitch(d) && v.dir.record == d.record && v.dir.nextCrt == d.nextCrt && v.dir.nextKey == d.nextKey
    ensures AfterSwitch(v.dir)
  {
    hide RootsInv, ScopeInv, GenerationInv, Coherent;
    assert LoadState(v.dir).Ok?;
    hide PhaseInv;
  }

  lemma FinishPrefix(d: Dir, ops: seq<Op>, cut: nat)
    requires PlanFinish(d) == Ok(ops) && cut < 6
    ensures |ops| == 6
    ensures var v := ApplyAll(d, ops[..cut]);
            v.record == d.record && v.nextCrt == d.nextCrt && v.nextKey == d.nextKey && v.rootCrt == d.rootCrt
  {
    var v := ApplyAll(d, ops[..cut]);
    HarmlessPrefix(d, ops[..cut]);
  }

  lemma {:induction false} HarmlessPrefix(d: Dir, ops: seq<Op>)
    requires forall i | 0 <= i < |ops| :: ops[i].PutRetired? || ops[i].RemoveCross? || ops[i].RemoveRetiredRoot?
    ensures var v := ApplyAll(d, ops);
            v.record == d.record && v.nextCrt == d.nextCrt && v.nextKey == d.nextKey && v.rootCrt == d.rootCrt
    decreases |ops|
  {
    if ops != [] {
      assert forall i | 0 <= i < |ops[1..]| :: ops[1..][i] == ops[i + 1];
      HarmlessPrefix(Apply(d, ops[0]), ops[1..]);
    }
  }

  lemma RotationStays(w: World, pass: Passphrase, compromised: set<Scope>, now: Time, cut: nat)
    requires Inv(w) && w.clock <= now && AfterSwitch(w.dir)
    ensures var v := Run(w, Rotate(pass, compromised), now, cut);
            AfterSwitch(v.dir) && v.dir.rootCrt == w.dir.rootCrt
  {
    hide PlanScope, WriteScope, Inv;
    var plan := PlanRotation(w.dir, pass, compromised, now, w.nextKey);
    if plan.Ok? && cut > 0 {
      var w0 := Begin(w, Rotate(pass, compromised), now);
      var ops := plan.value[..if cut < |plan.value| then cut else |plan.value|];
      assert plan.value[..|plan.value|] == plan.value;
      StepAllIsApplyAll(w0, ops);
      RotationOps(w.dir, pass, compromised, now, w.nextKey);
      RotationKeepsPhaseFiles(w.dir, ops);
    }
  }

  lemma RotationOps(d: Dir, pass: Passphrase, compromised: set<Scope>, now: Time, key: KeyId)
    requires PlanRotation(d, pass, compromised, now, key).Ok?
    ensures forall i | 0 <= i < |PlanRotation(d, pass, compromised, now, key).value| ::
              var op := PlanRotation(d, pass, compromised, now, key).value[i];
              ScopeOp(op) || (op.PutRecord? && d.record.Some? && op.switch.cross == d.record.value.cross)
  {
    hide PlanScope;
  }

  lemma {:induction false} RotationKeepsPhaseFiles(d: Dir, ops: seq<Op>)
    requires forall i | 0 <= i < |ops| :: ScopeOp(ops[i]) || (ops[i].PutRecord? && d.record.Some? && ops[i].switch.cross == d.record.value.cross)
    ensures var v := ApplyAll(d, ops);
            && v == d.(record := v.record, tunnel := v.tunnel, access := v.access, internal := v.internal)
            && (v.record.Some? <==> d.record.Some?)
            && (v.record.Some? ==> v.record.value.cross == d.record.value.cross)
    decreases |ops|
  {
    if ops != [] {
      assert forall i | 0 <= i < |ops[1..]| :: ops[1..][i] == ops[i + 1];
      RotationKeepsPhaseFiles(Apply(d, ops[0]), ops[1..]);
    }
  }

  /**
  A finish cut anywhere, with any rotations (cut or not) in between, is ended by running it
  again: it is never refused, and it leaves neither the old root nor anything the old root
  signed, X included, in any file.
  */
  lemma {:induction false} StoppedFinishEnds(w: World, events: seq<Event>, last: Time, oldRoot: Cert)
    requires Inv(w) && AfterSwitch(w.dir) && Monotone(w.clock, events + [Event(Finish, last, 6)])
    requires FinishesAndRotations(w, events)
    requires IsRoot(oldRoot) && oldRoot.key != w.dir.rootCrt.value.key
    ensures var v := RunAll(w, events);
            && AfterSwitch(v.dir) && PlanFinish(v.dir).Ok?
            && forall cut | cut >= 6 ::
                 var e := Run(v, Finish, last, cut).dir;
                 InPhase(e, NoRenewal) && FreeOf(e, oldRoot) && e.rootCrt == w.dir.rootCrt
    decreases |events|
  {
    hide Inv, Run, FreeOf, PlanFinish, AfterSwitch;
    if events == [] {
      assert (events + [Event(Finish, last, 6)])[0] == Event(Finish, last, 6);
      FinishAllowed(w);
      forall cut | cut >= 6
        ensures var e := Run(w, Finish, last, cut).dir;
                InPhase(e, NoRenewal) && FreeOf(e, oldRoot) && e.rootCrt == w.dir.rootCrt
      {
        FinishedIsFree(w, last, cut, oldRoot);
      }
    } else {
      var e := events[0];
      var all := events + [Event(Finish, last, 6)];
      assert all[0] == e && all[1..] == events[1..] + [Event(Finish, last, 6)];
      RunKeepsInv(w, e.cmd, e.now, e.cut);
      if e.cmd.Finish? {
        StoppedFinishStays(w, e.now, e.cut);
      } else {
        RotationStays(w, e.cmd.pass, e.cmd.compromised, e.now, e.cut);
      }
      StoppedFinishEnds(Run(w, e.cmd, e.now, e.cut), events[1..], last, oldRoot);
    }
  }

  lemma FinishAllowed(w: World)
    requires Inv(w) && AfterSwitch(w.dir)
    ensures PlanFinish(w.dir).Ok?
  {
    FinishIsPlanned(w);
  }

  lemma FinishedIsFree(w: World, now: Time, cut: nat, oldRoot: Cert)
    requires Inv(w) && AfterSwitch(w.dir) && w.clock <= now && cut >= 6
    requires IsRoot(oldRoot) && oldRoot.key != w.dir.rootCrt.value.key
    ensures var e := Run(w, Finish, now, cut).dir;
            InPhase(e, NoRenewal) && FreeOf(e, oldRoot) && e.rootCrt == w.dir.rootCrt
  {
    hide Inv, FreeOf, Cuts;
    FinishAllowed(w);
    FinishPrefix(w.dir, PlanFinish(w.dir).value, 0);
    FinishCuts(w, now);
    RunKeepsInv(w, Finish, now, cut);
    NoRenewalIsFree(Run(w, Finish, now, cut), oldRoot);
  }

  lemma NoRenewalIsFree(w: World, oldRoot: Cert)
    requires Inv(w) && InPhase(w.dir, NoRenewal) && IsRoot(oldRoot) && oldRoot.key != w.dir.rootCrt.value.key
    ensures FreeOf(w.dir, oldRoot)
  {
    var root := w.dir.rootCrt.value;
    forall s ensures var f := w.dir.Of(s);
      && f.crt.Some? && !SignedBy(f.crt.value, oldRoot)
      && (forall c :: c in f.Entries() ==> !SignedBy(c, oldRoot) && c != oldRoot)
      && (f.chain.Some? && forall c :: c in f.chain.value ==> !SignedBy(c, oldRoot) && c != oldRoot)
    {
      assert ScopeInv(w.dir.Of(s), s, root, root, w.clock);
      assert ChainUnder(w.dir.Of(s), root);
      assert ProperRoot(root, w.clock);
    }
  }
}
