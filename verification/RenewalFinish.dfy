/** The switch as a whole, and rotate-root finish. */
module RenewalFinish {
  import opened Common
  import opened Certificates
  import opened PkiDirectory
  import opened Rotation
  import opened RenewalWorld
  import opened RenewalCuts
  import opened RenewalCommands
  import opened RenewalSwitch

  function RecordOf(d: Dir, o: SwitchOptions, now: Time): Switch {
    if d.record.Some? then d.record.value else Switch(now, o.compromised, o.cross, o.compromised != {})
  }

  /** What a planned switch consists of. */
  datatype SwitchParts = SwitchParts(oldRoot: Cert, newRoot: Cert, cross: Option<Cert>, t: seq<Op>, a: seq<Op>, i: seq<Op>)

  function ChainsOf(d: Dir, newRoot: Cert): seq<Op> {
    ChainOf(d.tunnel, Tunnel, newRoot) + ChainOf(d.access, Access, newRoot) + ChainOf(d.internal, Internal, newRoot)
  }

  function MoveOf(d: Dir, s: Scope, p: SwitchParts, o: SwitchOptions, now: Time, key: KeyId): Plan {
    PlanMove(d.Of(s), s, p.newRoot, p.newRoot.key, [p.newRoot, p.oldRoot], s in o.compromised, now, KeyFor(s, key))
  }

  predicate PartsOf(d: Dir, o: SwitchOptions, now: Time, key: KeyId, p: SwitchParts) {
    && (InPhase(d, Staged) || InPhase(d, Switching)) && (!o.cross ==> d.cross.None?)
    && (d.record.Some? ==> d.record.value.compromised == o.compromised && d.record.value.cross == o.cross)
    && OldRoot(d) == Some(p.oldRoot) && NewRoot(d) == Some(p.newRoot) && ValidAt(p.newRoot, now)
    && d.nextKey.Some? && d.nextKey.value.key == p.newRoot.key
    && PlanCross(d, o, p.newRoot, p.oldRoot, now) == Ok(p.cross)
    && MoveOf(d, Tunnel, p, o, now, key) == Ok(p.t) && MoveOf(d, Access, p, o, now, key) == Ok(p.a)
    && MoveOf(d, Internal, p, o, now, key) == Ok(p.i)
  }

  /** The operations: before the moves, the moves, and behind them. */
  function SwitchOf(d: Dir, o: SwitchOptions, now: Time, p: SwitchParts): seq<Op>
    requires d.nextKey.Some?
  {
    SwitchHead(d, RecordOf(d, o, now), p.oldRoot, p.cross) + (p.t + p.a + p.i) + ChainsOf(d, p.newRoot) + SwitchTail(d.nextKey.value, p.newRoot)
  }

  lemma SwitchPlan(d: Dir, o: SwitchOptions, now: Time, key: KeyId, ops: seq<Op>) returns (p: SwitchParts)
    requires PlanSwitch(d, o, now, key) == Ok(ops)
    ensures PartsOf(d, o, now, key, p) && ops == SwitchOf(d, o, now, p)
  {
    hide PlanMove, PlanCross, SwitchHead, SwitchTail, ChainOf, KeyFor;
    var oldRoot, newRoot := OldRoot(d).value, NewRoot(d).value;
    var roots := [newRoot, oldRoot];
    p := SwitchParts(oldRoot, newRoot, PlanCross(d, o, newRoot, oldRoot, now).value,
                     PlanMove(d.Of(Tunnel), Tunnel, newRoot, newRoot.key, roots, Tunnel in o.compromised, now, KeyFor(Tunnel, key)).value,
                     PlanMove(d.Of(Access), Access, newRoot, newRoot.key, roots, Access in o.compromised, now, KeyFor(Access, key)).value,
                     PlanMove(d.Of(Internal), Internal, newRoot, newRoot.key, roots, Internal in o.compromised, now, KeyFor(Internal, key)).value);
  }

  lemma UnmovedGaveUp(w: World, o: SwitchOptions, now: Time, s: Scope)
    requires Inv(w) && w.clock <= now && (InPhase(w.dir, Staged) || InPhase(w.dir, Switching))
    requires s in o.compromised && !Moved(w.dir.Of(s), s, NewRoot(w.dir).value)
    ensures NoGeneration(Begin(w, SwitchRoot(o), now), s)
  {
    var newRoot := NewRoot(w.dir).value;
    forall g | g in w.gens && g.subject.IntermediateName? && g.subject.scope == s ensures !SignedBy(g, newRoot) {
      assert GenerationInv(g, w, newRoot);
    }
  }

  lemma StagedIsUnmoved(w: World, s: Scope)
    requires Inv(w) && InPhase(w.dir, Staged)
    ensures !Moved(w.dir.Of(s), s, NewRoot(w.dir).value)
  {
    assert CrtUnder(w.dir.Of(s), OldRoot(w.dir).value);
  }

  lemma CrossPlanned(w: World, o: SwitchOptions, cross: Option<Cert>)
    requires Inv(w) && (InPhase(w.dir, Staged) || InPhase(w.dir, Switching))
    requires !o.cross ==> w.dir.cross.None?
    requires w.dir.record.Some? ==> w.dir.record.value.cross == o.cross
    requires PlanCross(w.dir, o, NewRoot(w.dir).value, OldRoot(w.dir).value, w.clock) == Ok(cross)
    ensures cross.Some? <==> o.cross
    ensures w.dir.cross.Some? ==> cross == w.dir.cross
    ensures cross.Some? ==> ProperCross(cross.value, NewRoot(w.dir).value, OldRoot(w.dir).value, w.clock)
  {
    var oldRoot, newRoot := OldRoot(w.dir).value, NewRoot(w.dir).value;
    if w.dir.cross.None? && o.cross {
      BuildCrossIsProper(newRoot, oldRoot, oldRoot.key, w.clock);
    }
  }

  /** The directory in which a switch that ran to its end leaves the PKI. */
  predicate SwitchDone(before: Dir, after: Dir, o: SwitchOptions) {
    && InPhase(after, Switched) && Coherent(after)
    && OldRoot(before).Some? && NewRoot(before).Some?
    && after.rootCrt == NewRoot(before) && after.rootKey == before.nextKey
    && after.retired == OldRoot(before)
    && (after.cross.Some? <==> o.cross)
    && (after.cross.Some? ==> IsCross(after.cross.value, NewRoot(before).value, OldRoot(before).value))
    && after.record.Some? && after.record.value.compromised == o.compromised && after.record.value.cross == o.cross
    && forall s :: Settled(after.Of(s), s, NewRoot(before).value)
  }

  lemma SwitchCuts(w: World, o: SwitchOptions, now: Time)
    requires Inv(w) && w.clock <= now
    requires PlanSwitch(w.dir, o, now, w.nextKey).Ok?
    ensures var ops := PlanSwitch(w.dir, o, now, w.nextKey).value;
            && Cuts(Begin(w, SwitchRoot(o), now), ops)
            && SwitchDone(w.dir, StepAll(Begin(w, SwitchRoot(o), now), ops).dir, o)
  {
    hide Inv, Cuts, StepAll, PlanSwitch, PartsOf, SwitchOf, SwitchDone;
    var ops := PlanSwitch(w.dir, o, now, w.nextKey).value;
    var p := SwitchPlan(w.dir, o, now, w.nextKey, ops);
    PartsCut(w, o, now, p);
  }

  lemma PartsCut(w: World, o: SwitchOptions, now: Time, p: SwitchParts)
    requires Inv(w) && w.clock <= now && PartsOf(w.dir, o, now, w.nextKey, p)
    ensures var w0, ops := Begin(w, SwitchRoot(o), now), SwitchOf(w.dir, o, now, p);
            Cuts(w0, ops) && SwitchDone(w.dir, StepAll(w0, ops).dir, o)
  {
    hide Inv, Cuts, StepAll, PartsOf, SwitchReady, Coherent, Settled, MovedFrom, SwitchHead, SwitchTail, ChainOf, LoadState, HeadPlanned, Pending;
    hide OldRoot, NewRoot, IsCross;
    var d, w0, switch := w.dir, Begin(w, SwitchRoot(o), now), RecordOf(w.dir, o, now);
    PartsPlanned(w, o, now, p);
    HeadCuts(w0, switch, p.oldRoot, p.newRoot, p.cross);
    var head := SwitchHead(d, switch, p.oldRoot, p.cross);
    var w1 := StepAll(w0, head);
    PartsPending(w, o, now, p, w1);
    MovesCuts(w1, p.oldRoot, p.newRoot, o.compromised, w.nextKey, p.t, p.a, p.i);
    var w2 := StepAll(w1, p.t + p.a + p.i);
    ScopesMoved(d, w1, w2, p.newRoot);
    ChainsCuts(w2, d, p.oldRoot, p.newRoot);
    var w3 := StepAll(w2, ChainsOf(d, p.newRoot));
    TailCuts(w3, p.oldRoot, p.newRoot);
    CutsAppend(w0, head, p.t + p.a + p.i);
    CutsAppend(w0, head + (p.t + p.a + p.i), ChainsOf(d, p.newRoot));
    CutsAppend(w0, head + (p.t + p.a + p.i) + ChainsOf(d, p.newRoot), SwitchTail(d.nextKey.value, p.newRoot));
    PartsDone(w, o, now, p, w3, StepAll(w3, SwitchTail(d.nextKey.value, p.newRoot)));
  }

  /** Nothing but the scopes changed since the head, so the tail leaves what a switch must. */
  lemma PartsDone(w: World, o: SwitchOptions, now: Time, p: SwitchParts, w3: World, end: World)
    requires Inv(w) && w.clock <= now && PartsOf(w.dir, o, now, w.nextKey, p) && (p.cross.Some? <==> o.cross)
    requires w3.dir == w.dir.(record := Some(RecordOf(w.dir, o, now)), retired := Some(p.oldRoot), cross := p.cross,
                              tunnel := w3.dir.tunnel, access := w3.dir.access, internal := w3.dir.internal)
    requires forall s :: Settled(w3.dir.Of(s), s, p.newRoot)
    requires end.dir == SwitchedDir(w3.dir, p.newRoot) && InPhase(end.dir, Switched) && Coherent(end.dir)
    ensures SwitchDone(w.dir, end.dir, o)
  {
    PlannedCrossIsCross(w, o, now, p);
    hide Inv, MoveOf, PlanCross, Coherent, IsCross, LoadState;
    forall s ensures Settled(end.dir.Of(s), s, p.newRoot) {
      assert end.dir.Of(s) == w3.dir.Of(s);
    }
    hide Settled;
  }

  lemma PlannedCrossIsCross(w: World, o: SwitchOptions, now: Time, p: SwitchParts)
    requires Inv(w) && w.clock <= now && PartsOf(w.dir, o, now, w.nextKey, p)
    ensures p.cross.Some? ==> IsCross(p.cross.value, p.newRoot, p.oldRoot)
  {
    hide Inv, MoveOf, PlanCross;
    var w0 := Begin(w, SwitchRoot(o), now);
    BeginKeepsInv(w, SwitchRoot(o), now);
    CrossPlanned(w0, o, p.cross);
  }

  lemma PartsPlanned(w: World, o: SwitchOptions, now: Time, p: SwitchParts)
    requires Inv(w) && w.clock <= now && PartsOf(w.dir, o, now, w.nextKey, p)
    ensures w.dir.nextKey.Some? && HeadPlanned(Begin(w, SwitchRoot(o), now), RecordOf(w.dir, o, now), p.oldRoot, p.newRoot, p.cross)
    ensures (p.cross.Some? <==> o.cross)
    ensures forall s :: s in o.compromised && !Moved(w.dir.Of(s), s, p.newRoot) ==> NoGeneration(Begin(w, SwitchRoot(o), now), s)
  {
    hide Inv, MoveOf, PlanCross, Moved, NoGeneration;
    var w0 := Begin(w, SwitchRoot(o), now);
    BeginKeepsInv(w, SwitchRoot(o), now);
    CrossPlanned(w0, o, p.cross);
    hide ProperCross;
    forall s | s in o.compromised && !Moved(w.dir.Of(s), s, p.newRoot) ensures NoGeneration(w0, s) {
      UnmovedGaveUp(w, o, now, s);
    }
    if w.dir.record.None? {
      forall s ensures !Moved(w.dir.Of(s), s, p.newRoot) {
        StagedIsUnmoved(w, s);
      }
    }
  }

  lemma PartsPending(w: World, o: SwitchOptions, now: Time, p: SwitchParts, w1: World)
    requires PartsOf(w.dir, o, now, w.nextKey, p)
    requires forall s :: s in o.compromised && !Moved(w.dir.Of(s), s, p.newRoot) ==> NoGeneration(Begin(w, SwitchRoot(o), now), s)
    requires var w0 := Begin(w, SwitchRoot(o), now);
             w1 == w0.(dir := w0.dir.(record := Some(RecordOf(w.dir, o, now)), retired := Some(p.oldRoot), cross := p.cross))
    ensures Pending(w1, Tunnel, p.oldRoot, p.newRoot, o.compromised, w.nextKey, p.t)
    ensures Pending(w1, Access, p.oldRoot, p.newRoot, o.compromised, w.nextKey, p.a)
    ensures Pending(w1, Internal, p.oldRoot, p.newRoot, o.compromised, w.nextKey, p.i)
  {
    hide PlanMove, Moved, PlanCross, LoadState;
    assert forall s :: w1.dir.Of(s) == w.dir.Of(s);
    assert w1.gens == Begin(w, SwitchRoot(o), now).gens;
  }

  lemma ScopesMoved(d: Dir, w1: World, w2: World, newRoot: Cert)
    requires w1.dir.tunnel == d.tunnel && w1.dir.access == d.access && w1.dir.internal == d.internal
    requires forall s :: MovedFrom(w1.dir.Of(s), w2.dir.Of(s), s, newRoot)
    ensures forall s :: MovedFrom(d.Of(s), w2.dir.Of(s), s, newRoot)
  {
    hide MovedFrom;
    forall s ensures MovedFrom(d.Of(s), w2.dir.Of(s), s, newRoot) {
      assert d.Of(s) == w1.dir.Of(s);
    }
  }


  // ----- finish -----------------------------------------------------------------------

  predicate AllUnderRoot(w: World) {
    && w.dir.rootCrt.Some?
    && forall g :: g in w.gens ==> SignedBy(g, w.dir.rootCrt.value)
  }

  predicate FinishReady(w: World) {
    Inv(w) && (InPhase(w.dir, Switched) || InPhase(w.dir, Finishing)) && AllUnderRoot(w)
  }

  /** The retired file of `s` without the entries under R. */
  lemma KeepUnderRoot(w: World, s: Scope, kept: seq<Cert>)
    requires FinishReady(w)
    requires forall c :: c in kept <==> c in w.dir.Of(s).Entries() && IsIntermediate(c, s, w.dir.rootCrt.value)
    ensures FinishReady(Step(w, PutRetired(s, kept)))
    ensures EntriesUnder(Step(w, PutRetired(s, kept)).dir.Of(s), w.dir.rootCrt.value)
    ensures forall u :: u != s ==> Step(w, PutRetired(s, kept)).dir.Of(u) == w.dir.Of(u)
  {
    var v, f := Step(w, PutRetired(s, kept)), w.dir.Of(s).(retired := Some(kept));
    KeptScope(w, s, kept);
    KeptPhase(w, s, kept);
    KeptGenerations(w, s, kept);
    ScopeChange(w.dir, s, f);
    RootsAreKnown(w);
    assert w.ended ==> Coherent(w.dir);
    assert forall c :: c in kept ==> SignedBy(c, w.dir.rootCrt.value);
    hide Inv, ScopeInv, PhaseInv, GenerationInv, LoadState, OldRoot, NewRoot, SignedBy;
    ScopeChangeKeepsInv(w, v, s, f);
  }

  lemma KeptScope(w: World, s: Scope, kept: seq<Cert>)
    requires Inv(w) && forall c :: c in kept ==> c in w.dir.Of(s).Entries()
    ensures ScopeInv(w.dir.Of(s).(retired := Some(kept)), s, OldRoot(w.dir).value, NewRoot(w.dir).value, w.clock)
  {
    hide UnderEither, RootsInv, PhaseInv, GenerationInv, LoadState;
    assert ScopeInv(w.dir.Of(s), s, OldRoot(w.dir).value, NewRoot(w.dir).value, w.clock);
  }

  lemma KeptPhase(w: World, s: Scope, kept: seq<Cert>)
    requires FinishReady(w) && forall c :: c in kept ==> c in w.dir.Of(s).Entries() && SignedBy(c, w.dir.rootCrt.value)
    ensures PhaseInv(w.dir.With(s, w.dir.Of(s).(retired := Some(kept))), OldRoot(w.dir).value, NewRoot(w.dir).value, w.clock)
  {
    hide UnderEither, RootsInv, ScopeInv, GenerationInv, ProperCross, IsIntermediate, SignedBy;
    ScopeChange(w.dir, s, w.dir.Of(s).(retired := Some(kept)));
  }

  lemma KeptGenerations(w: World, s: Scope, kept: seq<Cert>)
    requires FinishReady(w)
    requires forall c :: c in kept <==> c in w.dir.Of(s).Entries() && IsIntermediate(c, s, w.dir.rootCrt.value)
    ensures var v := w.(dir := w.dir.With(s, w.dir.Of(s).(retired := Some(kept))));
            forall g :: g in w.gens ==> GenerationInv(g, v, NewRoot(w.dir).value)
  {
    var v := w.(dir := w.dir.With(s, w.dir.Of(s).(retired := Some(kept))));
    ScopeChange(w.dir, s, w.dir.Of(s).(retired := Some(kept)));
    var root := w.dir.rootCrt.value;
    assert NewRoot(w.dir) == Some(root);
    assert ScopeInv(w.dir.Of(s), s, OldRoot(w.dir).value, root, w.clock);
    hide RootsInv, PhaseInv, Coherent, LoadState;
    forall g | g in w.gens ensures GenerationInv(g, v, root) {
      assert GenerationInv(g, w, root);
    }
  }

  predicate Purged(w: World) {
    FinishReady(w) && forall s :: EntriesUnder(w.dir.Of(s), w.dir.rootCrt.value)
  }

  lemma RemoveCrossKeepsInv(w: World)
    requires Purged(w)
    ensures Purged(Step(w, RemoveCross)) && Step(w, RemoveCross).dir.cross.None?
  {
    var v := Step(w, RemoveCross);
    assert forall u :: v.dir.Of(u) == w.dir.Of(u);
    assert NewRoot(w.dir) == w.dir.rootCrt;
    forall g | g in v.gens ensures GenerationInv(g, v, NewRoot(v.dir).value) {
      assert GenerationInv(g, w, NewRoot(w.dir).value);
    }
  }

  lemma RemoveRetiredRootKeepsInv(w: World)
    requires Purged(w) && w.dir.cross.None?
    ensures Purged(Step(w, RemoveRetiredRoot))
  {
    var v := Step(w, RemoveRetiredRoot);
    assert forall u :: v.dir.Of(u) == w.dir.Of(u);
    var root := w.dir.rootCrt.value;
    forall s ensures ScopeInv(v.dir.Of(s), s, root, root, v.clock) && CrtUnder(v.dir.Of(s), root) {
      assert ScopeInv(w.dir.Of(s), s, OldRoot(w.dir).value, root, w.clock);
      assert EntriesUnder(w.dir.Of(s), root);
    }
    forall g | g in v.gens ensures GenerationInv(g, v, root) {
      assert GenerationInv(g, w, root);
    }
  }

  lemma RemoveRecordKeepsInv(w: World)
    requires Purged(w) && w.dir.cross.None? && w.dir.retired.None?
    ensures Inv(Step(w, RemoveRecord)) && InPhase(Step(w, RemoveRecord).dir, NoRenewal)
  {
    var v := Step(w, RemoveRecord);
    assert forall u :: v.dir.Of(u) == w.dir.Of(u);
    forall g | g in v.gens ensures GenerationInv(g, v, NewRoot(v.dir).value) {
      assert GenerationInv(g, w, NewRoot(w.dir).value);
    }
  }

  ghost predicate Retains(w: World, s: Scope, kept: seq<Cert>) {
    && w.dir.rootCrt.Some?
    && forall c :: c in kept <==> c in w.dir.Of(s).Entries() && IsIntermediate(c, s, w.dir.rootCrt.value)
  }

  lemma PurgeCuts(w: World, t: seq<Cert>, a: seq<Cert>, i: seq<Cert>)
    requires FinishReady(w)
    requires Retains(w, Tunnel, t) && Retains(w, Access, a) && Retains(w, Internal, i)
    ensures var ops := [PutRetired(Tunnel, t), PutRetired(Access, a), PutRetired(Internal, i)];
            && Cuts(w, ops) && Purged(StepAll(w, ops))
            && StepAll(w, ops) == w.(dir := w.dir.(
                 tunnel := w.dir.tunnel.(retired := Some(t)),
                 access := w.dir.access.(retired := Some(a)),
                 internal := w.dir.internal.(retired := Some(i))))
  {
    hide Inv, Cuts;
    var p, q, r := PutRetired(Tunnel, t), PutRetired(Access, a), PutRetired(Internal, i);
    KeepUnderRoot(w, Tunnel, t);
    var w1 := Step(w, p);
    KeepUnderRoot(w1, Access, a);
    var w2 := Step(w1, q);
    KeepUnderRoot(w2, Internal, i);
    var w3 := Step(w2, r);
    CutsTwo(w, p, q);
    CutsOne(w2, r);
    CutsAppend(w, [p, q], [r]);
    assert [p, q] + [r] == [p, q, r];
    forall s ensures EntriesUnder(w3.dir.Of(s), w3.dir.rootCrt.value) {
      match s case Tunnel => case Access => case Internal =>
    }
  }

  lemma PurgedIsInv(w: World)
    ensures Purged(w) ==> Inv(w)
  {
  }

  lemma DropCuts(w: World)
    requires Purged(w)
    ensures var ops := [RemoveCross, RemoveRetiredRoot, RemoveRecord];
            && Cuts(w, ops)
            && StepAll(w, ops) == w.(dir := w.dir.(cross := None, retired := None, record := None))
            && InPhase(StepAll(w, ops).dir, NoRenewal)
  {
    hide Inv, Cuts, StepAll, Purged, LoadState;
    PurgedIsInv(w);
    PurgedIsInv(Step(w, RemoveCross));
    PurgedIsInv(Step(Step(w, RemoveCross), RemoveRetiredRoot));
    RemoveCrossKeepsInv(w);
    var w1 := Step(w, RemoveCross);
    RemoveRetiredRootKeepsInv(w1);
    var w2 := Step(w1, RemoveRetiredRoot);
    RemoveRecordKeepsInv(w2);
    CutsTwo(w, RemoveCross, RemoveRetiredRoot);
    CutsOne(w2, RemoveRecord);
    CutsAppend(w, [RemoveCross, RemoveRetiredRoot], [RemoveRecord]);
    assert [RemoveCross, RemoveRetiredRoot] + [RemoveRecord] == [RemoveCross, RemoveRetiredRoot, RemoveRecord];
  }

  /** R, X and everything R signed are in no file. */
  predicate FreeOf(d: Dir, oldRoot: Cert) {
    && d.rootCrt.Some? && d.rootCrt.value != oldRoot
    && d.retired.None? && d.cross.None? && d.nextCrt.None? && d.record.None?
    && forall s :: var f := d.Of(s);
         && f.crt.Some? && !SignedBy(f.crt.value, oldRoot)
         && (forall c :: c in f.Entries() ==> !SignedBy(c, oldRoot) && c != oldRoot)
         && (f.chain.Some? && forall c :: c in f.chain.value ==> !SignedBy(c, oldRoot) && c != oldRoot)
  }

  lemma FinishCuts(w: World, now: Time)
    requires Inv(w) && w.clock <= now && PlanFinish(w.dir).Ok?
    ensures var ops := PlanFinish(w.dir).value;
            var w0 := Begin(w, Finish, now);
            && Cuts(w0, ops)
            && InPhase(StepAll(w0, ops).dir, NoRenewal)
            && StepAll(w0, ops).dir.rootCrt == w.dir.rootCrt
  {
    hide Inv, Cuts, StepAll, RetiredUnder;
    var w0 := Begin(w, Finish, now);
    BeginKeepsInv(w, Finish, now);
    var root := w.dir.rootCrt.value;
    var oldRoots := if w.dir.retired.Some? then [w.dir.retired.value] else [];
    var t := RetiredUnder(w.dir.Of(Tunnel).Entries(), Tunnel, root, oldRoots).value;
    var a := RetiredUnder(w.dir.Of(Access).Entries(), Access, root, oldRoots).value;
    var i := RetiredUnder(w.dir.Of(Internal).Entries(), Internal, root, oldRoots).value;
    var purge := [PutRetired(Tunnel, t), PutRetired(Access, a), PutRetired(Internal, i)];
    var drop := [RemoveCross, RemoveRetiredRoot, RemoveRecord];
    PurgeCuts(w0, t, a, i);
    DropCuts(StepAll(w0, purge));
    CutsAppend(w0, purge, drop);
    assert PlanFinish(w.dir).value == purge + drop;
  }

  /** A finish of a reachable world in phase switched or finishing is never refused. */
  lemma FinishIsPlanned(w: World)
    requires Inv(w) && (InPhase(w.dir, Switched) || InPhase(w.dir, Finishing))
    ensures PlanFinish(w.dir).Ok?
  {
    var root := w.dir.rootCrt.value;
    var oldRoots := if w.dir.retired.Some? then [w.dir.retired.value] else [];
    assert NewRoot(w.dir) == Some(root);
    forall s ensures RetiredUnder(w.dir.Of(s).Entries(), s, root, oldRoots).Ok? {
      assert ScopeInv(w.dir.Of(s), s, OldRoot(w.dir).value, root, w.clock);
      forall c | c in w.dir.Of(s).Entries() ensures IsIntermediateAmong(c, s, [root] + oldRoots) {
        if ProperIntermediate(c, s, root, w.clock) {
          assert IsIntermediate(c, s, ([root] + oldRoots)[0]);
        } else {
          assert IsIntermediate(c, s, ([root] + oldRoots)[1]);
        }
      }
    }
    assert RetiredUnder(w.dir.Of(Tunnel).Entries(), Tunnel, root, oldRoots).Ok?;
    assert RetiredUnder(w.dir.Of(Access).Entries(), Access, root, oldRoots).Ok?;
    assert RetiredUnder(w.dir.Of(Internal).Entries(), Internal, root, oldRoots).Ok?;
  }
}
