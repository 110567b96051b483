/** Which roots clients are told to trust, over every run (storage.py, rotation.py in apps/ca-issuer/app). */
module RootsHandedOut {
  import opened Common
  import opened Certificates
  import opened PkiDirectory
  import opened Rotation
  import opened RenewalWorld
  import opened RenewalTheorems
  import opened IssuerBoot
  import opened BootTheorems
  import opened RenewalEffects

  /** A switch, or a rotation after one, that names a scope compromised and takes effect. */
  predicate Cedes(w: World, e: Event) {
    && TakesEffect(w, e)
    && ((e.cmd.SwitchRoot? && e.cmd.options.compromised != {})
        || (e.cmd.Rotate? && e.cmd.compromised != {} && InPhase(w.dir, Switched)))
  }

  /** Some such command ran while `root` was the old root. */
  predicate CededIn(w: World, events: seq<Event>, root: Cert)
    decreases |events|
  {
    events != [] && ((Cedes(w, events[0]) && OldRoot(w.dir) == Some(root)) || CededIn(After(w, events[0]), events[1..], root))
  }

  // ----- What one command does to the record ---------------------------------------------

  /** In every record a scope is named exactly if R is to be dropped. */
  predicate RecordOk(d: Dir) {
    d.record.Some? ==> (d.record.value.dropRetiredRoot <==> d.record.value.compromised != {})
  }

  /** The renewal on disk has a scope named; the last leftover of a finish does not count. */
  predicate Ceded(d: Dir) {
    d.record.Some? && d.record.value.compromised != {} && (d.retired.Some? || d.nextCrt.Some? || d.nextKey.Some?)
  }

  /** A command leaves the old root and adds to what is named, or goes on to a later old root. */
  predicate Moves(w: World, e: Event, v: World) {
    && OldRoot(w.dir).Some? && OldRoot(v.dir).Some? && RecordOk(v.dir)
    && (OldRoot(v.dir) == OldRoot(w.dir) ==> (Ceded(v.dir) <==> Ceded(w.dir) || Cedes(w, e)))
    && (OldRoot(v.dir) != OldRoot(w.dir) ==>
          OldRoot(v.dir).value.key > OldRoot(w.dir).value.key && !Ceded(v.dir) && !Cedes(w, e))
  }

  lemma CommandMoves(w: World, e: Event)
    requires Inv(w) && w.clock <= e.now && RecordOk(w.dir)
    ensures Moves(w, e, After(w, e))
  {
    hide Inv, After;
    RunIsPerformed(w, e);
    OldRootKnown(w);
    if TakesEffect(w, e) {
      match e.cmd {
        case Stage(_) => StagingMoves(w, e);
        case Abort => StagingMoves(w, e);
        case SwitchRoot(o) => SwitchMoves(w, o, e);
        case Finish => FinishMoves(w, e);
        case Rotate(pass, compromised) => RotationMoves(w, pass, compromised, e);
      }
    }
  }

  lemma OldRootKnown(w: World)
    requires Inv(w)
    ensures OldRoot(w.dir).Some? && w.dir.rootCrt.Some?
  {
    hide RootsInv, ScopeInv, PhaseInv, GenerationInv;
  }

  lemma StagingMoves(w: World, e: Event)
    requires Inv(w) && TakesEffect(w, e) && (e.cmd.Stage? || e.cmd.Abort?)
    ensures Moves(w, e, After(w, e))
  {
    hide Inv, After, PlanOf;
    OldRootKnown(w);
    StagingLeaves(w, e);
  }

  lemma SwitchMoves(w: World, o: SwitchOptions, e: Event)
    requires Inv(w) && w.clock <= e.now && RecordOk(w.dir) && TakesEffect(w, e) && e.cmd == SwitchRoot(o)
    ensures Moves(w, e, After(w, e))
  {
    hide Inv, After, PlanOf;
    OldRootKnown(w);
    SwitchLeaves(w, o, e.now, e.cut);
  }

  lemma RotationMoves(w: World, pass: Passphrase, compromised: set<Scope>, e: Event)
    requires Inv(w) && RecordOk(w.dir) && TakesEffect(w, e) && e.cmd == Rotate(pass, compromised)
    ensures Moves(w, e, After(w, e))
  {
    hide Inv, After, PlanOf;
    OldRootKnown(w);
    RotationLeaves(w, pass, compromised, e.now, e.cut);
  }

  /** Behind the switch the old root is older than root.crt, if it is still there. */
  lemma OldIsOlder(w: World)
    requires Inv(w) && AfterSwitch(w.dir)
    ensures w.dir.rootCrt.Some? && w.dir.nextCrt.None? && w.dir.nextKey.None?
    ensures w.dir.retired.Some? ==> w.dir.retired.value.key < w.dir.rootCrt.value.key
  {
    hide ScopeInv, GenerationInv, Coherent, ProperRoot;
  }

  lemma FinishMoves(w: World, e: Event)
    requires Inv(w) && RecordOk(w.dir) && TakesEffect(w, e) && e.cmd.Finish?
    ensures Moves(w, e, After(w, e))
  {
    hide After, PlanOf;
    OldRootKnown(w);
    var t, a, i := FinishLeaves(w, e.now, e.cut);
    OldIsOlder(w);
    hide Inv, LoadState;
  }

  // ----- Over whole runs -----------------------------------------------------------------

  lemma {:induction false} RunsMove(w: World, events: seq<Event>)
    requires Inv(w) && Monotone(w.clock, events) && RecordOk(w.dir)
    ensures var v := RunAll(w, events);
            && Inv(v) && RecordOk(v.dir) && OldRoot(w.dir).Some? && OldRoot(v.dir).Some?
            && OldRoot(v.dir).value.key >= OldRoot(w.dir).value.key
            && (OldRoot(v.dir).value.key == OldRoot(w.dir).value.key ==> OldRoot(v.dir) == OldRoot(w.dir))
            && (Ceded(v.dir) <==>
                  (OldRoot(v.dir) == OldRoot(w.dir) && Ceded(w.dir)) || CededIn(w, events, OldRoot(v.dir).value))
    decreases |events|
  {
    hide Inv, Run, Cedes, Ceded, RecordOk;
    OldRootKnown(w);
    if events != [] {
      var e := events[0];
      CommandMoves(w, e);
      RunKeepsInv(w, e.cmd, e.now, e.cut);
      RunsMove(After(w, e), events[1..]);
    }
  }

  lemma FreshHasNoRecord(start: Time, pass: Passphrase)
    ensures Inv(Fresh(start, pass)) && RecordOk(Fresh(start, pass).dir) && !Ceded(Fresh(start, pass).dir)
  {
    FreshSatisfiesInv(start, pass);
  }

  /** The roots a start hands out, by the phase it finds. */
  lemma RootsBooted(w: World, started: Time, s: Scope)
    requires Inv(w) && RecordOk(w.dir) && Boot(w.dir, started).Ok?
    ensures w.dir.rootCrt.Some?
    ensures var root, roots := w.dir.rootCrt.value, Boot(w.dir, started).value.Of(s).roots;
            && (InPhase(w.dir, Switched) ==>
                  && w.dir.retired.Some? && w.dir.retired.value.key < root.key
                  && roots == if started < w.dir.retired.value.na && !Ceded(w.dir) then [w.dir.retired.value, root] else [root])
            && (InPhase(w.dir, Staged) ==> w.dir.nextCrt.Some? && roots == [w.dir.nextCrt.value, root])
            && (InPhase(w.dir, NoRenewal) ==> roots == [root])
            && (!InPhase(w.dir, Switched) ==> w.dir.record.None? && w.dir.retired.None?)
  {
    hide Boot, Inv;
    BootedScope(w.dir, started, s);
    SwitchedRoots(w);
    hide IsIntermediate, IsCross, Loadable;
  }

  lemma SwitchedRoots(w: World)
    requires Inv(w) && (InPhase(w.dir, NoRenewal) || InPhase(w.dir, Staged) || InPhase(w.dir, Switched))
    ensures if InPhase(w.dir, Switched) then w.dir.retired.Some? && w.dir.rootCrt.Some? && w.dir.retired.value.key < w.dir.rootCrt.value.key
            else w.dir.record.None? && w.dir.retired.None?
  {
    if InPhase(w.dir, Switched) {
      OldIsOlder(w);
    }
    hide Inv;
  }

  /**
  After a switch clients are told to trust the retired root exactly as long as it is valid
  and no switch or rotation named a scope compromised while it was the old root.
  */
  lemma RetiredRootHandedOut(start: Time, pass: Passphrase, events: seq<Event>, started: Time, s: Scope)
    requires Monotone(start, events)
    requires var w := RunAll(Fresh(start, pass), events); InPhase(w.dir, Switched) && Boot(w.dir, started).Ok?
    ensures var w := RunAll(Fresh(start, pass), events);
            && w.dir.retired.Some?
            && (w.dir.retired.value in Boot(w.dir, started).value.Of(s).roots <==>
                  started < w.dir.retired.value.na && !CededIn(Fresh(start, pass), events, w.dir.retired.value))
  {
    hide Inv, Boot, Run, Ceded, CededIn, RecordOk, LoadState;
    FreshHasNoRecord(start, pass);
    RunsMove(Fresh(start, pass), events);
    RootsBooted(RunAll(Fresh(start, pass), events), started, s);
  }

  lemma {:induction false} RunAllAppend(w: World, a: seq<Event>, b: seq<Event>)
    ensures RunAll(w, a + b) == RunAll(RunAll(w, a), b)
    decreases |a|
  {
    hide Run;
    if a == [] {
      assert a + b == b;
    } else {
      assert (a + b)[0] == a[0] && (a + b)[1..] == a[1..] + b;
      RunAllAppend(Run(w, a[0].cmd, a[0].now, a[0].cut), a[1..], b);
    }
  }

  lemma CededStaysAway(w: World, e: Event, later: seq<Event>, started: Time, s: Scope)
    requires Inv(w) && RecordOk(w.dir) && Cedes(w, e) && Monotone(w.clock, [e] + later)
    requires Boot(RunAll(w, [e] + later).dir, started).Ok?
    ensures OldRoot(w.dir).Some? && OldRoot(w.dir).value !in Boot(RunAll(w, [e] + later).dir, started).value.Of(s).roots
  {
    hide Inv, Boot, Run, Ceded, RecordOk, Cedes;
    var events := [e] + later;
    assert events[0] == e;
    RunsMove(w, events);
    var v, root := RunAll(w, events), OldRoot(w.dir).value;
    assert CededIn(w, events, root);
    RootsBooted(v, started, s);
    BootedScope(v.dir, started, s);
    LaterRoots(v);
    if OldRoot(v.dir) == Some(root) {
      CededHasARecord(v.dir);
    }
    hide LoadState;
  }

  lemma {:induction false} MonotoneAppend(clock: Time, a: seq<Event>, b: seq<Event>, w: World)
    requires Monotone(clock, a + b) && w.clock == clock && Inv(w)
    ensures Monotone(clock, a) && Monotone(RunAll(w, a).clock, b)
    decreases |a|
  {
    hide Inv, Run;
    if a == [] {
      assert a + b == b;
    } else {
      assert (a + b)[0] == a[0] && (a + b)[1..] == a[1..] + b;
      RunKeepsInv(w, a[0].cmd, a[0].now, a[0].cut);
      MonotoneAppend(a[0].now, a[1..], b, Run(w, a[0].cmd, a[0].now, a[0].cut));
    }
  }

  /**
  Once a switch or a rotation named a scope while R was the old root, no later start hands
  R out again: not after any rotations, stops and restarts, not after the finish, nor in a
  later renewal.
  */
  lemma CededRootNeverReturns(start: Time, pass: Passphrase, first: seq<Event>, e: Event, later: seq<Event>, started: Time, s: Scope)
    requires Monotone(start, first + ([e] + later)) && Cedes(RunAll(Fresh(start, pass), first), e)
    requires Boot(RunAll(Fresh(start, pass), first + ([e] + later)).dir, started).Ok?
    ensures var w := RunAll(Fresh(start, pass), first);
            && OldRoot(w.dir).Some?
            && OldRoot(w.dir).value !in Boot(RunAll(Fresh(start, pass), first + ([e] + later)).dir, started).value.Of(s).roots
  {
    hide Inv, Boot, Run, RecordOk, Cedes, OldRoot;
    var origin := Fresh(start, pass);
    FreshHasNoRecord(start, pass);
    MonotoneAppend(start, first, [e] + later, origin);
    RunAllAppend(origin, first, [e] + later);
    RunsMove(origin, first);
    CededStaysAway(RunAll(origin, first), e, later, started, s);
  }

  lemma CededHasARecord(d: Dir)
    requires Ceded(d)
    ensures d.record.Some?
  {
  }

  /** No root on disk is older than the old root. */
  lemma LaterRoots(w: World)
    requires Inv(w)
    ensures OldRoot(w.dir).Some? && w.dir.rootCrt.Some? && OldRoot(w.dir).value.key <= w.dir.rootCrt.value.key
    ensures w.dir.nextCrt.Some? ==> OldRoot(w.dir).value.key <= w.dir.nextCrt.value.key && (InPhase(w.dir, Staged) ==> OldRoot(w.dir).value.key < w.dir.nextCrt.value.key)
  {
    hide ScopeInv, GenerationInv, Coherent, ProperRoot;
  }
}
