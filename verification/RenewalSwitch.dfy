/** rotate-root switch: the record and both roots first, then the scopes, then the root itself. */
module RenewalSwitch {
  import opened Common
  import opened Certificates
  import opened PkiDirectory
  import opened Rotation
  import opened RenewalWorld
  import opened RenewalCuts
  import opened RenewalCommands

  // ----- The record, R and X ----------------------------------------------------------

  lemma PutRecordKeepsInv(w: World, switch: Switch)
    requires Inv(w) && InPhase(w.dir, Staged)
    requires forall s :: s in switch.compromised ==> NoGeneration(w, s)
    ensures Inv(Step(w, PutRecord(switch))) && InPhase(Step(w, PutRecord(switch)).dir, Switching)
  {
    var v := Step(w, PutRecord(switch));
    assert forall s :: v.dir.Of(s) == w.dir.Of(s);
    var oldRoot, newRoot := OldRoot(w.dir).value, NewRoot(w.dir).value;
    forall s ensures CrtUnder(v.dir.Of(s), oldRoot) && EntriesUnder(v.dir.Of(s), oldRoot) && !CrtUnder(v.dir.Of(s), newRoot) {
      assert CrtUnder(w.dir.Of(s), oldRoot) && EntriesUnder(w.dir.Of(s), oldRoot);
    }
    forall g | g in v.gens ensures GenerationInv(g, v, newRoot) {
      assert GenerationInv(g, w, newRoot);
    }
  }

  lemma PutRetiredRootKeepsInv(w: World)
    requires Inv(w) && InPhase(w.dir, Switching) && w.dir.retired.None?
    ensures Inv(Step(w, PutRetiredRoot(w.dir.rootCrt.value)))
  {
    var v := Step(w, PutRetiredRoot(w.dir.rootCrt.value));
    assert forall s :: v.dir.Of(s) == w.dir.Of(s);
    forall g | g in v.gens ensures GenerationInv(g, v, NewRoot(v.dir).value) {
      assert GenerationInv(g, w, NewRoot(w.dir).value);
    }
  }

  lemma PutCrossKeepsInv(w: World, x: Cert)
    requires Inv(w) && InPhase(w.dir, Switching) && w.dir.retired.Some? && w.dir.cross.None?
    requires w.dir.record.value.cross && ProperCross(x, NewRoot(w.dir).value, OldRoot(w.dir).value, w.clock)
    ensures Inv(Step(w, PutCross(x)))
  {
    var v := Step(w, PutCross(x));
    assert forall s :: v.dir.Of(s) == w.dir.Of(s);
    forall g | g in v.gens ensures GenerationInv(g, v, NewRoot(v.dir).value) {
      assert GenerationInv(g, w, NewRoot(w.dir).value);
    }
  }

  /** The scopes may be moved: the options, R and (if asked for) X are on disk. */
  predicate SwitchReady(w: World, oldRoot: Cert, newRoot: Cert) {
    && Inv(w) && !w.ended && InPhase(w.dir, Switching)
    && w.dir.retired == Some(oldRoot) && NewRoot(w.dir) == Some(newRoot)
    && w.dir.record.Some? && (w.dir.record.value.cross <==> w.dir.cross.Some?)
    && ValidAt(newRoot, w.clock)
  }

  /** What the plan of a switch knows before its first write. */
  predicate HeadPlanned(w: World, switch: Switch, oldRoot: Cert, newRoot: Cert, cross: Option<Cert>) {
    && Inv(w) && !w.ended && (InPhase(w.dir, Staged) || InPhase(w.dir, Switching))
    && OldRoot(w.dir) == Some(oldRoot) && NewRoot(w.dir) == Some(newRoot) && ValidAt(newRoot, w.clock)
    && (w.dir.record.Some? ==> w.dir.record == Some(switch))
    && (switch.cross <==> cross.Some?)
    && (w.dir.cross.Some? ==> cross == w.dir.cross)
    && (cross.Some? ==> ProperCross(cross.value, newRoot, oldRoot, w.clock))
    && (w.dir.record.None? ==> forall s :: s in switch.compromised ==> NoGeneration(w, s))
  }

  lemma HeadRecord(w: World, switch: Switch, oldRoot: Cert, newRoot: Cert, cross: Option<Cert>)
    requires HeadPlanned(w, switch, oldRoot, newRoot, cross)
    ensures var ops := if w.dir.record.None? then [PutRecord(switch)] else [];
            && Cuts(w, ops)
            && HeadPlanned(StepAll(w, ops), switch, oldRoot, newRoot, cross)
            && StepAll(w, ops) == w.(dir := w.dir.(record := Some(switch)))
            && InPhase(StepAll(w, ops).dir, Switching)
  {
    hide Inv;
    if w.dir.record.None? {
      PutRecordKeepsInv(w, switch);
      CutsOne(w, PutRecord(switch));
    }
  }

  lemma HeadRetired(w: World, switch: Switch, oldRoot: Cert, newRoot: Cert, cross: Option<Cert>)
    requires HeadPlanned(w, switch, oldRoot, newRoot, cross) && InPhase(w.dir, Switching)
    ensures var ops := if w.dir.retired.None? then [PutRetiredRoot(oldRoot)] else [];
            && Cuts(w, ops)
            && HeadPlanned(StepAll(w, ops), switch, oldRoot, newRoot, cross)
            && StepAll(w, ops) == w.(dir := w.dir.(retired := Some(oldRoot)))
            && InPhase(StepAll(w, ops).dir, Switching)
  {
    hide Inv;
    if w.dir.retired.None? {
      PutRetiredRootKeepsInv(w);
      CutsOne(w, PutRetiredRoot(oldRoot));
    }
  }

  lemma HeadCross(w: World, switch: Switch, oldRoot: Cert, newRoot: Cert, cross: Option<Cert>)
    requires HeadPlanned(w, switch, oldRoot, newRoot, cross) && InPhase(w.dir, Switching) && w.dir.retired == Some(oldRoot)
    ensures var ops := if cross.Some? && w.dir.cross.None? then [PutCross(cross.value)] else [];
            && Cuts(w, ops)
            && SwitchReady(StepAll(w, ops), oldRoot, newRoot)
            && StepAll(w, ops) == w.(dir := w.dir.(cross := cross))
  {
    hide Inv;
    if cross.Some? && w.dir.cross.None? {
      PutCrossKeepsInv(w, cross.value);
      CutsOne(w, PutCross(cross.value));
    }
  }

  lemma HeadCuts(w: World, switch: Switch, oldRoot: Cert, newRoot: Cert, cross: Option<Cert>)
    requires HeadPlanned(w, switch, oldRoot, newRoot, cross)
    ensures var ops := SwitchHead(w.dir, switch, oldRoot, cross);
            && Cuts(w, ops)
            && SwitchReady(StepAll(w, ops), oldRoot, newRoot)
            && StepAll(w, ops) == w.(dir := w.dir.(record := Some(switch), retired := Some(oldRoot), cross := cross))
  {
    hide Inv, Cuts, StepAll, HeadPlanned, SwitchReady;
    HeadRecord(w, switch, oldRoot, newRoot, cross);
    var a := if w.dir.record.None? then [PutRecord(switch)] else [];
    var w1 := StepAll(w, a);
    HeadRetired(w1, switch, oldRoot, newRoot, cross);
    var b := if w.dir.retired.None? then [PutRetiredRoot(oldRoot)] else [];
    var w2 := StepAll(w1, b);
    HeadCross(w2, switch, oldRoot, newRoot, cross);
    var c := if cross.Some? && w.dir.cross.None? then [PutCross(cross.value)] else [];
    CutsAppend(w, a, b);
    CutsAppend(w, a + b, c);
    assert SwitchHead(w.dir, switch, oldRoot, cross) == a + b + c;
  }

  // ----- The scopes -------------------------------------------------------------------

  predicate OnlyScopes(w: World, v: World) {
    && v == w.(dir := v.dir, gens := v.gens)
    && v.dir == w.dir.(tunnel := v.dir.tunnel, access := v.dir.access, internal := v.dir.internal)
  }

  predicate Pending(w: World, s: Scope, oldRoot: Cert, newRoot: Cert, compromised: set<Scope>, key: KeyId, ops: seq<Op>) {
    && PlanMove(w.dir.Of(s), s, newRoot, newRoot.key, [newRoot, oldRoot], s in compromised, w.clock, KeyFor(s, key)) == Ok(ops)
    && (s in compromised && !Moved(w.dir.Of(s), s, newRoot) ==> NoGeneration(w, s))
  }

  /** `f` as planned, `now` as the moves left it: untouched if it was moved before, else settled. */
  predicate MovedFrom(f: ScopeFiles, now: ScopeFiles, s: Scope, newRoot: Cert) {
    if Moved(f, s, newRoot) then now == f else Settled(now, s, newRoot)
  }

  lemma UnmovedMayIssue(w: World, s: Scope, oldRoot: Cert, newRoot: Cert)
    requires SwitchReady(w, oldRoot, newRoot) && !Moved(w.dir.Of(s), s, newRoot)
    ensures Issues(w.dir, newRoot) && !CrtUnder(w.dir.Of(s), newRoot)
    ensures w.dir.Of(s).crt.Some? && IsIntermediateAmong(w.dir.Of(s).crt.value, s, [newRoot, oldRoot])
  {
    assert SwitchingInv(w.dir, oldRoot, newRoot, w.clock);
    assert ScopeInv(w.dir.Of(s), s, oldRoot, newRoot, w.clock);
    var roots := [newRoot, oldRoot];
    assert IsIntermediate(w.dir.Of(s).crt.value, s, roots[0]) || IsIntermediate(w.dir.Of(s).crt.value, s, roots[1]);
    assert !Settled(w.dir.Of(s), s, newRoot);
  }

  lemma MoveOne(w: World, s: Scope, oldRoot: Cert, newRoot: Cert, compromised: set<Scope>, key: KeyId, ops: seq<Op>)
    requires SwitchReady(w, oldRoot, newRoot) && Pending(w, s, oldRoot, newRoot, compromised, key, ops)
    ensures Cuts(w, ops)
    ensures var v := StepAll(w, ops);
            && SwitchReady(v, oldRoot, newRoot) && OnlyScopes(w, v)
            && MovedFrom(w.dir.Of(s), v.dir.Of(s), s, newRoot)
            && (forall u :: u != s ==> v.dir.Of(u) == w.dir.Of(u))
            && (forall u, q :: u != s && Pending(w, u, oldRoot, newRoot, compromised, key, q) ==>
                               Pending(v, u, oldRoot, newRoot, compromised, key, q))
  {
    hide Inv, PlanScope, WriteScope;
    if !Moved(w.dir.Of(s), s, newRoot) {
      UnmovedMayIssue(w, s, oldRoot, newRoot);
      var roots := [newRoot, oldRoot];
      var r := PlanScope(w.dir.Of(s), s, newRoot, newRoot.key, roots, s in compromised, w.clock, KeyFor(s, key)).value;
      MoveWrites(w, s, oldRoot, newRoot, compromised, key, r);
    }
  }

  lemma MoveWrites(w: World, s: Scope, oldRoot: Cert, newRoot: Cert, compromised: set<Scope>, key: KeyId, r: Replacement)
    requires SwitchReady(w, oldRoot, newRoot) && !Moved(w.dir.Of(s), s, newRoot)
    requires PlanScope(w.dir.Of(s), s, newRoot, newRoot.key, [newRoot, oldRoot], s in compromised, w.clock, KeyFor(s, key)) == Ok(r)
    requires s in compromised ==> NoGeneration(w, s)
    requires Issues(w.dir, newRoot) && !CrtUnder(w.dir.Of(s), newRoot)
    requires w.dir.Of(s).crt.Some? && IsIntermediateAmong(w.dir.Of(s).crt.value, s, [newRoot, oldRoot])
    ensures Cuts(w, WriteScope(s, r, newRoot))
    ensures var v := StepAll(w, WriteScope(s, r, newRoot));
            && SwitchReady(v, oldRoot, newRoot) && OnlyScopes(w, v) && Settled(v.dir.Of(s), s, newRoot)
            && (forall u :: u != s ==> v.dir.Of(u) == w.dir.Of(u))
            && (forall u :: u != s && NoGeneration(w, u) ==> NoGeneration(v, u))
  {
    hide Inv, PlanScope, WriteScope, Cuts, StepAll, IsIntermediateAmong;
    ScopeWritten(w, s, newRoot, [newRoot, oldRoot], s in compromised, KeyFor(s, key), r);
    var v := AfterScope(w, s, r, newRoot);
    assert LoadState(v.dir).value.phase == LoadState(w.dir).value.phase;
    assert v.dir.Of(s) == ReplacedScope(r, newRoot);
  }

  lemma MovesCuts(w: World, oldRoot: Cert, newRoot: Cert, compromised: set<Scope>, key: KeyId,
                  t: seq<Op>, a: seq<Op>, i: seq<Op>)
    requires SwitchReady(w, oldRoot, newRoot)
    requires Pending(w, Tunnel, oldRoot, newRoot, compromised, key, t)
    requires Pending(w, Access, oldRoot, newRoot, compromised, key, a)
    requires Pending(w, Internal, oldRoot, newRoot, compromised, key, i)
    ensures Cuts(w, t + a + i)
    ensures var v := StepAll(w, t + a + i);
            && SwitchReady(v, oldRoot, newRoot) && OnlyScopes(w, v)
            && forall s :: MovedFrom(w.dir.Of(s), v.dir.Of(s), s, newRoot)
  {
    hide Inv, Cuts, StepAll, SwitchReady, Pending, MovedFrom;
    MoveOne(w, Tunnel, oldRoot, newRoot, compromised, key, t);
    var w1 := StepAll(w, t);
    MoveOne(w1, Access, oldRoot, newRoot, compromised, key, a);
    var w2 := StepAll(w1, a);
    MoveOne(w2, Internal, oldRoot, newRoot, compromised, key, i);
    CutsAppend(w, t, a);
    CutsAppend(w, t + a, i);
    var v := StepAll(w2, i);
    forall s ensures MovedFrom(w.dir.Of(s), v.dir.Of(s), s, newRoot) {
      match s case Tunnel => case Access => case Internal =>
    }
  }

  lemma ChainOne(w: World, f: ScopeFiles, s: Scope, oldRoot: Cert, newRoot: Cert)
    requires SwitchReady(w, oldRoot, newRoot) && MovedFrom(f, w.dir.Of(s), s, newRoot)
    ensures var ops := ChainOf(f, s, newRoot);
            && Cuts(w, ops)
            && var v := StepAll(w, ops);
               && SwitchReady(v, oldRoot, newRoot) && OnlyScopes(w, v) && Settled(v.dir.Of(s), s, newRoot)
               && forall u :: u != s ==> v.dir.Of(u) == w.dir.Of(u)
  {
    hide Inv;
    if Moved(f, s, newRoot) {
      var op := PutChain(s, [f.crt.value, newRoot]);
      PutChainKeepsInv(w, s, [f.crt.value, newRoot]);
      CutsOne(w, op);
      assert LoadState(Step(w, op).dir).value.phase == LoadState(w.dir).value.phase;
    }
  }

  lemma ChainsCuts(w: World, d: Dir, oldRoot: Cert, newRoot: Cert)
    requires SwitchReady(w, oldRoot, newRoot)
    requires forall s :: MovedFrom(d.Of(s), w.dir.Of(s), s, newRoot)
    ensures var ops := ChainOf(d.tunnel, Tunnel, newRoot) + ChainOf(d.access, Access, newRoot) + ChainOf(d.internal, Internal, newRoot);
            && Cuts(w, ops)
            && var v := StepAll(w, ops);
               && SwitchReady(v, oldRoot, newRoot) && OnlyScopes(w, v)
               && forall s :: Settled(v.dir.Of(s), s, newRoot)
  {
    hide Inv, Cuts, StepAll, SwitchReady, MovedFrom, ChainOf, Settled;
    var t, a, i := ChainOf(d.tunnel, Tunnel, newRoot), ChainOf(d.access, Access, newRoot), ChainOf(d.internal, Internal, newRoot);
    assert MovedFrom(d.Of(Tunnel), w.dir.Of(Tunnel), Tunnel, newRoot);
    ChainOne(w, d.tunnel, Tunnel, oldRoot, newRoot);
    var w1 := StepAll(w, t);
    assert MovedFrom(d.Of(Access), w1.dir.Of(Access), Access, newRoot);
    ChainOne(w1, d.access, Access, oldRoot, newRoot);
    var w2 := StepAll(w1, a);
    assert MovedFrom(d.Of(Internal), w2.dir.Of(Internal), Internal, newRoot);
    ChainOne(w2, d.internal, Internal, oldRoot, newRoot);
    CutsAppend(w, t, a);
    CutsAppend(w, t + a, i);
    var v := StepAll(w2, i);
    forall s ensures Settled(v.dir.Of(s), s, newRoot) {
      match s case Tunnel => case Access => case Internal =>
    }
  }

  // ----- The root ---------------------------------------------------------------------

  predicate TailReady(w: World, oldRoot: Cert, newRoot: Cert) {
    SwitchReady(w, oldRoot, newRoot) && forall s :: Settled(w.dir.Of(s), s, newRoot)
  }

  lemma PutRootKeyKeepsInv(w: World, oldRoot: Cert, newRoot: Cert)
    requires TailReady(w, oldRoot, newRoot) && w.dir.nextKey.Some?
    ensures TailReady(Step(w, PutRootKey(w.dir.nextKey.value)), oldRoot, newRoot)
  {
    var v := Step(w, PutRootKey(w.dir.nextKey.value));
    assert forall s :: v.dir.Of(s) == w.dir.Of(s);
    assert SwitchingInv(w.dir, oldRoot, newRoot, w.clock);
    forall g | g in v.gens ensures GenerationInv(g, v, newRoot) {
      assert GenerationInv(g, w, newRoot);
    }
  }

  lemma PutRootCrtKeepsInv(w: World, oldRoot: Cert, newRoot: Cert)
    requires TailReady(w, oldRoot, newRoot) && w.dir.rootKey == w.dir.nextKey
    ensures TailReady(Step(w, PutRootCrt(newRoot)), oldRoot, newRoot)
  {
    var v := Step(w, PutRootCrt(newRoot));
    assert forall s :: v.dir.Of(s) == w.dir.Of(s);
    assert SwitchingInv(w.dir, oldRoot, newRoot, w.clock);
    forall g | g in v.gens ensures GenerationInv(g, v, newRoot) {
      assert GenerationInv(g, w, newRoot);
    }
  }

  lemma RemoveNextCrtInSwitch(w: World, oldRoot: Cert, newRoot: Cert)
    requires TailReady(w, oldRoot, newRoot) && w.dir.rootKey == w.dir.nextKey && w.dir.rootCrt == Some(newRoot)
    ensures TailReady(Step(w, RemoveNextCrt), oldRoot, newRoot)
  {
    var v := Step(w, RemoveNextCrt);
    assert forall s :: v.dir.Of(s) == w.dir.Of(s);
    assert SwitchingInv(w.dir, oldRoot, newRoot, w.clock);
    forall g | g in v.gens ensures GenerationInv(g, v, newRoot) {
      assert GenerationInv(g, w, newRoot);
    }
  }

  lemma RemoveNextKeyInSwitch(w: World, oldRoot: Cert, newRoot: Cert)
    requires TailReady(w, oldRoot, newRoot) && w.dir.rootKey == w.dir.nextKey && w.dir.rootCrt == Some(newRoot)
    requires w.dir.nextCrt.None?
    ensures Inv(Step(w, RemoveNextKey)) && InPhase(Step(w, RemoveNextKey).dir, Switched) && Coherent(Step(w, RemoveNextKey).dir)
  {
    var v := Step(w, RemoveNextKey);
    assert forall s :: v.dir.Of(s) == w.dir.Of(s);
    assert SwitchingInv(w.dir, oldRoot, newRoot, w.clock);
    forall s ensures CrtUnder(v.dir.Of(s), newRoot) {
      assert Settled(w.dir.Of(s), s, newRoot);
    }
    forall g | g in v.gens ensures GenerationInv(g, v, newRoot) {
      assert GenerationInv(g, w, newRoot);
    }
  }

  lemma TailReadyIsInv(w: World, oldRoot: Cert, newRoot: Cert)
    requires TailReady(w, oldRoot, newRoot)
    ensures Inv(w) && w.dir.nextKey.Some?
  {
  }

  /** The directory a switch that ran to its end leaves. */
  function SwitchedDir(d: Dir, newRoot: Cert): Dir {
    d.(rootKey := d.nextKey, rootCrt := Some(newRoot), nextCrt := None, nextKey := None)
  }

  lemma TailCuts(w: World, oldRoot: Cert, newRoot: Cert)
    requires TailReady(w, oldRoot, newRoot) && w.dir.nextKey.Some?
    ensures var ops := SwitchTail(w.dir.nextKey.value, newRoot);
            && Cuts(w, ops)
            && var v := StepAll(w, ops);
               && v.dir == SwitchedDir(w.dir, newRoot)
               && InPhase(v.dir, Switched) && Coherent(v.dir)
  {
    hide Inv, Cuts, StepAll, TailReady, Coherent, InPhase;
    var key := w.dir.nextKey.value;
    PutRootKeyKeepsInv(w, oldRoot, newRoot);
    var w1 := Step(w, PutRootKey(key));
    PutRootCrtKeepsInv(w1, oldRoot, newRoot);
    var w2 := Step(w1, PutRootCrt(newRoot));
    RemoveNextCrtInSwitch(w2, oldRoot, newRoot);
    var w3 := Step(w2, RemoveNextCrt);
    RemoveNextKeyInSwitch(w3, oldRoot, newRoot);
    TailReadyIsInv(w, oldRoot, newRoot);
    TailReadyIsInv(w1, oldRoot, newRoot);
    TailReadyIsInv(w2, oldRoot, newRoot);
    TailReadyIsInv(w3, oldRoot, newRoot);
    CutsTwo(w, PutRootKey(key), PutRootCrt(newRoot));
    CutsTwo(w2, RemoveNextCrt, RemoveNextKey);
    CutsAppend(w, [PutRootKey(key), PutRootCrt(newRoot)], [RemoveNextCrt, RemoveNextKey]);
    assert SwitchTail(key, newRoot) == [PutRootKey(key), PutRootCrt(newRoot)] + [RemoveNextCrt, RemoveNextKey];
  }
}
