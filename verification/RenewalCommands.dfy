/** The plans of the five commands, each cut anywhere, against the invariant. */
module RenewalCommands {
  import opened Common
  import opened Certificates
  import opened PkiDirectory
  import opened Rotation
  import opened RenewalWorld
  import opened RenewalCuts

  /** Every file of a generation given up: none of `s` is left in the history. */
  predicate NoGeneration(w: World, s: Scope) {
    forall g :: g in w.gens ==> !(g.subject.IntermediateName? && g.subject.scope == s)
  }

  lemma IssuerIsProper(w: World, root: Cert)
    requires Inv(w) && Issues(w.dir, root)
    ensures ProperRoot(root, w.clock)
  {
    hide ScopeInv, PhaseInv, GenerationInv, Coherent, ProperRoot;
  }

  lemma PlannedCert(f: ScopeFiles, s: Scope, root: Cert, roots: seq<Cert>, compromised: bool, now: Time, key: KeyId, r: Replacement)
    requires ProperRoot(root, now) && ValidAt(root, now)
    requires PlanScope(f, s, root, root.key, roots, compromised, now, key) == Ok(r)
    ensures ProperIntermediate(r.cert, s, root, now) && r.cert.key == key
  {
    hide BuildIntermediate, ProperRoot, ProperIntermediate, RetiredAfter, IsIntermediateAmong;
    BuildIntermediateIsProper(s, root, root.key, Some(DayOf(now)), now, key);
  }

  /** Who is in the retired file planned. */
  lemma PlannedRetired(f: ScopeFiles, s: Scope, root: Cert, roots: seq<Cert>, compromised: bool, now: Time, key: KeyId, r: Replacement)
    requires PlanScope(f, s, root, root.key, roots, compromised, now, key) == Ok(r)
    ensures f.crt.Some?
    ensures forall c :: c in r.retired <==>
              !compromised && ((c in f.Entries() && now < c.na)
                               || (c == f.crt.value && IsIntermediateAmong(c, s, roots) && ValidAt(c, now)))
  {
    hide BuildIntermediate, IsIntermediateAmong;
  }

  lemma PlannedScope(w: World, s: Scope, root: Cert, roots: seq<Cert>, compromised: bool, key: KeyId, r: Replacement)
    requires Inv(w) && Issues(w.dir, root) && ValidAt(root, w.clock)
    requires PlanScope(w.dir.Of(s), s, root, root.key, roots, compromised, w.clock, key) == Ok(r)
    requires IsIntermediateAmong(w.dir.Of(s).crt.value, s, roots)
    requires compromised ==> NoGeneration(w, s)
    ensures ProperIntermediate(r.cert, s, root, w.clock) && r.cert.key == key
    ensures Admits(w, s, r.retired)
  {
    hide PlanScope, Inv, ProperRoot, ProperIntermediate, IsIntermediateAmong, Issues, Admits;
    IssuerIsProper(w, root);
    PlannedCert(w.dir.Of(s), s, root, roots, compromised, w.clock, key, r);
    PlannedRetired(w.dir.Of(s), s, root, roots, compromised, w.clock, key, r);
    PlannedAdmits(w, s, root, roots, compromised, r.retired);
  }

  lemma PlannedAdmits(w: World, s: Scope, root: Cert, roots: seq<Cert>, compromised: bool, retired: seq<Cert>)
    requires Inv(w) && Issues(w.dir, root) && w.dir.Of(s).crt.Some? && IsIntermediateAmong(w.dir.Of(s).crt.value, s, roots)
    requires compromised ==> NoGeneration(w, s)
    requires forall c :: c in retired <==>
               !compromised && ((c in w.dir.Of(s).Entries() && w.clock < c.na)
                                || (c == w.dir.Of(s).crt.value && IsIntermediateAmong(c, s, roots) && ValidAt(c, w.clock)))
    ensures Admits(w, s, retired)
  {
    hide IsIntermediateAmong, Issues, RootsInv, Coherent, SignedBy;
    var f, oldRoot, newRoot := w.dir.Of(s), OldRoot(w.dir).value, NewRoot(w.dir).value;
    assert ScopeInv(f, s, oldRoot, newRoot, w.clock);
    assert InPhase(w.dir, Staged) ==> CrtUnder(f, oldRoot) && EntriesUnder(f, oldRoot);
    UnderBegan(f.crt.value, s, oldRoot, newRoot, w.clock);
    hide PhaseInv, UnderEither, LoadState;
    forall g | g in w.gens && g.subject.IntermediateName? && g.subject.scope == s && w.clock < g.na ensures g in retired {
      assert GenerationInv(g, w, newRoot);
    }
  }

  lemma UnderBegan(c: Cert, s: Scope, oldRoot: Cert, newRoot: Cert, clock: Time)
    requires UnderEither(c, s, oldRoot, newRoot, clock)
    ensures c.nb <= clock
  {
  }

  /** One scope planned and written, in any world the plan was made for. */
  lemma ScopeWritten(w: World, s: Scope, root: Cert, roots: seq<Cert>, compromised: bool, key: KeyId, r: Replacement)
    requires Inv(w) && Issues(w.dir, root) && !w.ended && ValidAt(root, w.clock)
    requires PlanScope(w.dir.Of(s), s, root, root.key, roots, compromised, w.clock, key) == Ok(r)
    requires IsIntermediateAmong(w.dir.Of(s).crt.value, s, roots)
    requires compromised ==> NoGeneration(w, s)
    requires InPhase(w.dir, Switching) ==> !CrtUnder(w.dir.Of(s), root)
    ensures Cuts(w, WriteScope(s, r, root))
    ensures StepAll(w, WriteScope(s, r, root)) == AfterScope(w, s, r, root)
    ensures Inv(AfterScope(w, s, r, root)) && Issues(AfterScope(w, s, r, root).dir, root)
    ensures r.cert.subject.IntermediateName? && r.cert.subject.scope == s && IsIntermediate(r.cert, s, root)
  {
    hide Inv, Cuts, StepAll, PlanScope, Admits, WriteScope;
    PlannedScope(w, s, root, roots, compromised, key, r);
    WriteScopeCuts(w, s, r, root);
    assert LoadState(AfterScope(w, s, r, root).dir) == LoadState(w.dir);
  }

  // ----- rotate-intermediates ---------------------------------------------------------

  /** The roots a rotation accepts cover every intermediate in use. */
  lemma RotationRoots(w: World, s: Scope)
    requires Inv(w) && !InPhase(w.dir, Switching) && !InPhase(w.dir, Finishing)
    ensures w.dir.Of(s).crt.Some? && w.dir.rootCrt.Some?
    ensures IsIntermediateAmong(w.dir.Of(s).crt.value, s,
              if w.dir.retired.None? then [w.dir.rootCrt.value] else [w.dir.rootCrt.value, w.dir.retired.value])
    ensures Issues(w.dir, w.dir.rootCrt.value)
  {
    assert ScopeInv(w.dir.Of(s), s, OldRoot(w.dir).value, NewRoot(w.dir).value, w.clock);
    var roots := if w.dir.retired.None? then [w.dir.rootCrt.value] else [w.dir.rootCrt.value, w.dir.retired.value];
    assert IsIntermediate(w.dir.Of(s).crt.value, s, roots[0]);
  }

  lemma RecordCuts(w: World, compromised: set<Scope>)
    requires Inv(w) && !InPhase(w.dir, Switching) && !InPhase(w.dir, Finishing)
    requires forall s :: s in compromised ==> NoGeneration(w, s)
    ensures var ops := RecordCompromised(w.dir.record, compromised);
            && Cuts(w, ops)
            && var v := StepAll(w, ops);
               && Inv(v) && LoadState(v.dir).Ok?
               && LoadState(v.dir).value.phase == LoadState(w.dir).value.phase
               && v == w.(dir := w.dir.(record := v.dir.record))
  {
    var ops := RecordCompromised(w.dir.record, compromised);
    if ops != [] {
      RecordStep(w, compromised);
      hide Inv, LoadState;
      assert ops == [ops[0]];
      CutsOne(w, ops[0]);
    }
  }

  lemma RecordStep(w: World, compromised: set<Scope>)
    requires Inv(w) && !InPhase(w.dir, Switching) && !InPhase(w.dir, Finishing)
    requires RecordCompromised(w.dir.record, compromised) != [] && forall s :: s in compromised ==> NoGeneration(w, s)
    ensures var v := Step(w, RecordCompromised(w.dir.record, compromised)[0]);
            && Inv(v) && LoadState(v.dir).Ok? && LoadState(w.dir).Ok? && LoadState(v.dir).value.phase == LoadState(w.dir).value.phase
            && v == w.(dir := w.dir.(record := v.dir.record))
  {
    hide UnderEither, ProperRoot, ProperCross, IsIntermediate;
    var v := Step(w, RecordCompromised(w.dir.record, compromised)[0]);
    assert forall s :: v.dir.Of(s) == w.dir.Of(s);
    forall g | g in v.gens ensures GenerationInv(g, v, NewRoot(v.dir).value) {
      assert GenerationInv(g, w, NewRoot(w.dir).value);
    }
  }

  lemma BeginGivesUp(w: World, cmd: Command, now: Time, compromised: set<Scope>)
    requires cmd.Rotate? && cmd.compromised == compromised
    ensures forall s :: s in compromised ==> NoGeneration(Begin(w, cmd, now), s)
  {
  }

  /** What a rotation writes, in its parts. */
  lemma RotationPlan(d: Dir, pass: Passphrase, compromised: set<Scope>, now: Time, key: KeyId, ops: seq<Op>)
    returns (root: Cert, roots: seq<Cert>, t: Replacement, a: Replacement, i: Replacement)
    requires PlanRotation(d, pass, compromised, now, key) == Ok(ops)
    ensures LoadState(d).Ok? && !InPhase(d, Switching) && !InPhase(d, Finishing) && d.rootCrt == Some(root) && ValidAt(root, now)
    ensures roots == if d.retired.None? then [root] else [root, d.retired.value]
    ensures PlanScope(d.tunnel, Tunnel, root, root.key, roots, Tunnel in compromised, now, KeyFor(Tunnel, key)) == Ok(t)
    ensures PlanScope(d.access, Access, root, root.key, roots, Access in compromised, now, KeyFor(Access, key)) == Ok(a)
    ensures PlanScope(d.internal, Internal, root, root.key, roots, Internal in compromised, now, KeyFor(Internal, key)) == Ok(i)
    ensures ops == RecordCompromised(d.record, compromised) + ThreeScopes(root, t, a, i)
  {
    hide PlanScope, WriteScope, RecordCompromised, KeyFor;
    root := d.rootCrt.value;
    roots := if d.retired.None? then [root] else [root, d.retired.value];
    t := PlanScope(d.tunnel, Tunnel, root, root.key, roots, Tunnel in compromised, now, KeyFor(Tunnel, key)).value;
    a := PlanScope(d.access, Access, root, root.key, roots, Access in compromised, now, KeyFor(Access, key)).value;
    i := PlanScope(d.internal, Internal, root, root.key, roots, Internal in compromised, now, KeyFor(Internal, key)).value;
    var head := RecordCompromised(d.record, compromised);
    assert ops == head + WriteScope(Tunnel, t, root) + WriteScope(Access, a, root) + WriteScope(Internal, i, root);
    Grouped(head, WriteScope(Tunnel, t, root), WriteScope(Access, a, root), WriteScope(Internal, i, root));
  }

  lemma Grouped(a: seq<Op>, b: seq<Op>, c: seq<Op>, d: seq<Op>)
    ensures a + b + c + d == a + (b + c + d)
  {
  }

  function ThreeScopes(root: Cert, t: Replacement, a: Replacement, i: Replacement): seq<Op> {
    WriteScope(Tunnel, t, root) + WriteScope(Access, a, root) + WriteScope(Internal, i, root)
  }

  /** Every cut of `ops` keeps the invariant; all of them leave the directory coherent, in the phase `w` was in. */
  predicate CutsAndEnds(w: World, w0: World, ops: seq<Op>) {
    && Cuts(w0, ops) && Coherent(StepAll(w0, ops).dir)
    && LoadState(StepAll(w0, ops).dir).Ok? && LoadState(w.dir).Ok?
    && LoadState(StepAll(w0, ops).dir).value.phase == LoadState(w.dir).value.phase
  }

  lemma RotationCuts(w: World, pass: Passphrase, compromised: set<Scope>, now: Time, ops: seq<Op>)
    requires Inv(w) && w.clock <= now
    requires PlanRotation(w.dir, pass, compromised, now, w.nextKey) == Ok(ops)
    ensures CutsAndEnds(w, Begin(w, Rotate(pass, compromised), now), ops)
  {
    hide Inv, Cuts, StepAll, PlanScope, PlanRotation, Coherent, LoadState, RecordCompromised, ThreeScopes, NoGeneration;
    var cmd := Rotate(pass, compromised);
    var w0 := Begin(w, cmd, now);
    BeginKeepsInv(w, cmd, now);
    BeginGivesUp(w, cmd, now, compromised);
    var root, roots, t, a, i := RotationPlan(w.dir, pass, compromised, now, w.nextKey, ops);
    RecordCuts(w0, compromised);
    var head := RecordCompromised(w.dir.record, compromised);
    var w1 := StepAll(w0, head);
    RecordedReady(w0, w1, root, roots, compromised);
    RotationWrites(w1, root, roots, compromised, w.nextKey, t, a, i);
    CutsAppend(w0, head, ThreeScopes(root, t, a, i));
  }

  /** The record changes nothing a rotation looks at. */
  lemma RecordedReady(w0: World, w1: World, root: Cert, roots: seq<Cert>, compromised: set<Scope>)
    requires Inv(w1) && LoadState(w1.dir).Ok? && LoadState(w0.dir).Ok? && LoadState(w1.dir).value.phase == LoadState(w0.dir).value.phase
    requires w1 == w0.(dir := w0.dir.(record := w1.dir.record)) && !w0.ended && w0.dir.rootCrt == Some(root) && ValidAt(root, w0.clock)
    requires !InPhase(w0.dir, Switching) && !InPhase(w0.dir, Finishing)
    requires roots == if w0.dir.retired.None? then [root] else [root, w0.dir.retired.value]
    ensures RotationReady(w1, root, roots)
    ensures forall s :: NoGeneration(w0, s) ==> NoGeneration(w1, s)
    ensures w1.dir.tunnel == w0.dir.tunnel && w1.dir.access == w0.dir.access && w1.dir.internal == w0.dir.internal
  {
    hide Inv, LoadState;
  }

  /** A rotation about to replace the files of `s`. */
  predicate RotationReady(w: World, root: Cert, roots: seq<Cert>) {
    && Inv(w) && !w.ended && !InPhase(w.dir, Switching) && !InPhase(w.dir, Finishing)
    && w.dir.rootCrt == Some(root) && ValidAt(root, w.clock)
    && roots == (if w.dir.retired.None? then [root] else [root, w.dir.retired.value])
  }

  predicate Planned(w: World, s: Scope, root: Cert, roots: seq<Cert>, compromised: set<Scope>, key: KeyId, r: Replacement) {
    && PlanScope(w.dir.Of(s), s, root, root.key, roots, s in compromised, w.clock, KeyFor(s, key)) == Ok(r)
    && (s in compromised ==> NoGeneration(w, s))
  }

  lemma RotationWritesOne(w: World, s: Scope, root: Cert, roots: seq<Cert>, compromised: set<Scope>, key: KeyId, r: Replacement)
    requires RotationReady(w, root, roots) && Planned(w, s, root, roots, compromised, key, r)
    ensures Cuts(w, WriteScope(s, r, root))
    ensures StepAll(w, WriteScope(s, r, root)) == AfterScope(w, s, r, root)
    ensures RotationReady(AfterScope(w, s, r, root), root, roots)
    ensures forall u, q :: u != s && Planned(w, u, root, roots, compromised, key, q) ==>
                           Planned(AfterScope(w, s, r, root), u, root, roots, compromised, key, q)
  {
    hide Inv, Cuts, StepAll, PlanScope, WriteScope;
    RotationRoots(w, s);
    ScopeWritten(w, s, root, roots, s in compromised, KeyFor(s, key), r);
    assert LoadState(AfterScope(w, s, r, root).dir) == LoadState(w.dir);
    assert forall u :: u != s ==> AfterScope(w, s, r, root).dir.Of(u) == w.dir.Of(u);
  }

  /** The twelve files of a rotation. */
  lemma RotationWrites(w: World, root: Cert, roots: seq<Cert>, compromised: set<Scope>, key: KeyId,
                       t: Replacement, a: Replacement, i: Replacement)
    requires RotationReady(w, root, roots) && w.dir.rootCrt == Some(root)
    requires Planned(w, Tunnel, root, roots, compromised, key, t)
    requires Planned(w, Access, root, roots, compromised, key, a)
    requires Planned(w, Internal, root, roots, compromised, key, i)
    ensures var body := ThreeScopes(root, t, a, i);
            && Cuts(w, body)
            && Coherent(StepAll(w, body).dir)
            && LoadState(StepAll(w, body).dir) == LoadState(w.dir)
  {
    hide Inv, Cuts, StepAll, RotationReady, Planned, WriteScope;
    RotationWritesOne(w, Tunnel, root, roots, compromised, key, t);
    var w1 := AfterScope(w, Tunnel, t, root);
    RotationWritesOne(w1, Access, root, roots, compromised, key, a);
    var w2 := AfterScope(w1, Access, a, root);
    RotationWritesOne(w2, Internal, root, roots, compromised, key, i);
    var w3 := AfterScope(w2, Internal, i, root);
    CutsAppend(w, WriteScope(Tunnel, t, root), WriteScope(Access, a, root));
    CutsAppend(w, WriteScope(Tunnel, t, root) + WriteScope(Access, a, root), WriteScope(Internal, i, root));
    assert w3.dir == w.dir.(tunnel := ReplacedScope(t, root), access := ReplacedScope(a, root), internal := ReplacedScope(i, root));
  }

  // ----- rotate-root stage, abort -----------------------------------------------------

  lemma StageCuts(w: World, pass: Passphrase, now: Time)
    requires Inv(w) && w.clock <= now
    requires PlanStage(w.dir, pass, now, w.nextKey).Ok?
    ensures var ops := PlanStage(w.dir, pass, now, w.nextKey).value;
            && Cuts(Begin(w, Stage(pass), now), ops)
            && InPhase(StepAll(Begin(w, Stage(pass), now), ops).dir, Staged)
            && StepAll(Begin(w, Stage(pass), now), ops).dir.rootCrt == w.dir.rootCrt
  {
    var cmd := Stage(pass);
    var w0 := Begin(w, cmd, now);
    var newRoot := BuildRoot(Some(DayOf(now)), now, w.nextKey);
    var a, b := PutNextKey(EncKey(w.nextKey, pass)), PutNextCrt(newRoot);
    StagePlan(w, pass, now);
    hide PlanStage, Inv, Cuts, StepAll, BuildRoot, LoadState;
    BeginKeepsInv(w, cmd, now);
    PutNextKeyKeepsInv(w0, EncKey(w.nextKey, pass));
    NextRootIsNew(w, pass, now);
    StagedKeepsInv(Step(w0, a), newRoot);
    CutsTwo(w0, a, b);
  }

  lemma StagePlan(w: World, pass: Passphrase, now: Time)
    requires PlanStage(w.dir, pass, now, w.nextKey).Ok?
    ensures InPhase(w.dir, NoRenewal) && w.dir.nextCrt.None?
    ensures PlanStage(w.dir, pass, now, w.nextKey).value
            == [PutNextKey(EncKey(w.nextKey, pass)), PutNextCrt(BuildRoot(Some(DayOf(now)), now, w.nextKey))]
  {
  }

  lemma PutNextKeyKeepsInv(w: World, enc: EncKey)
    requires Inv(w) && InPhase(w.dir, NoRenewal)
    ensures Inv(Step(w, PutNextKey(enc))) && InPhase(Step(w, PutNextKey(enc)).dir, NoRenewal)
  {
    hide UnderEither, ProperRoot, ProperCross;
    var v := Step(w, PutNextKey(enc));
    assert forall s :: v.dir.Of(s) == w.dir.Of(s);
    assert InPhase(v.dir, NoRenewal);
    forall g | g in v.gens ensures GenerationInv(g, v, NewRoot(v.dir).value) {
      assert GenerationInv(g, w, NewRoot(w.dir).value);
    }
  }

  /** The root a stage builds is newer than everything there is. */
  lemma NextRootIsNew(w: World, pass: Passphrase, now: Time)
    requires Inv(w) && w.clock <= now && PlanStage(w.dir, pass, now, w.nextKey).Ok?
    ensures var newRoot, w0 := BuildRoot(Some(DayOf(now)), now, w.nextKey), Begin(w, Stage(pass), now);
            && ProperRoot(newRoot, now) && newRoot.key == w.nextKey < w0.nextKey
            && w.dir.rootCrt.Some? && w.dir.rootCrt.value.key < newRoot.key && w.dir.rootCrt.value.nb <= newRoot.nb
            && w.dir.rootCrt.value.subject != newRoot.subject
            && (forall g :: g in w0.gens ==> g.signer < newRoot.key)
  {
    hide ScopeInv, PhaseInv, WholeSecond, Coherent;
    BuildRootIsProper(Some(DayOf(now)), now, w.nextKey);
    WholeSecondFacts(now, w.dir.rootCrt.value.nb);
    forall g | g in w.gens ensures g.signer < w.nextKey {
      assert GenerationInv(g, w, NewRoot(w.dir).value);
    }
  }

  lemma StagedKeepsInv(w: World, newRoot: Cert)
    requires Inv(w) && InPhase(w.dir, NoRenewal) && w.dir.nextKey.Some? && w.dir.nextKey.value.key == newRoot.key
    requires ProperRoot(newRoot, w.clock) && newRoot.key < w.nextKey
    requires w.dir.rootCrt.value.key < newRoot.key && w.dir.rootCrt.value.nb <= newRoot.nb
    requires w.dir.rootCrt.value.subject != newRoot.subject
    requires forall g :: g in w.gens ==> g.signer < newRoot.key
    ensures Inv(Step(w, PutNextCrt(newRoot)))
  {
    var v := Step(w, PutNextCrt(newRoot));
    assert InPhase(v.dir, Staged);
    assert forall s :: v.dir.Of(s) == w.dir.Of(s);
    assert forall s :: ScopeInv(w.dir.Of(s), s, w.dir.rootCrt.value, w.dir.rootCrt.value, w.clock);
    forall g | g in v.gens ensures GenerationInv(g, v, newRoot) {
      assert GenerationInv(g, w, NewRoot(w.dir).value);
    }
  }

  lemma RemoveNextCrtKeepsInv(w: World)
    requires Inv(w) && InPhase(w.dir, Staged)
    ensures Inv(Step(w, RemoveNextCrt)) && InPhase(Step(w, RemoveNextCrt).dir, NoRenewal)
  {
    var v := Step(w, RemoveNextCrt);
    assert forall s :: v.dir.Of(s) == w.dir.Of(s);
    var oldRoot := w.dir.rootCrt.value;
    forall s ensures ScopeInv(v.dir.Of(s), s, oldRoot, oldRoot, v.clock) {
      assert CrtUnder(w.dir.Of(s), oldRoot) && EntriesUnder(w.dir.Of(s), oldRoot);
      assert ScopeInv(w.dir.Of(s), s, oldRoot, NewRoot(w.dir).value, w.clock);
    }
  }

  lemma RemoveNextKeyKeepsInv(w: World)
    requires Inv(w) && InPhase(w.dir, NoRenewal)
    ensures Inv(Step(w, RemoveNextKey)) && InPhase(Step(w, RemoveNextKey).dir, NoRenewal)
  {
    var v := Step(w, RemoveNextKey);
    assert forall s :: v.dir.Of(s) == w.dir.Of(s);
    assert InPhase(v.dir, NoRenewal);
  }

  lemma AbortCuts(w: World, now: Time)
    requires Inv(w) && w.clock <= now
    requires PlanAbort(w.dir).Ok?
    ensures var ops := PlanAbort(w.dir).value;
            && Cuts(Begin(w, Abort, now), ops)
            && InPhase(StepAll(Begin(w, Abort, now), ops).dir, NoRenewal)
            && StepAll(Begin(w, Abort, now), ops).dir.nextCrt.None? && StepAll(Begin(w, Abort, now), ops).dir.nextKey.None?
            && StepAll(Begin(w, Abort, now), ops).dir.rootCrt == w.dir.rootCrt
  {
    hide Inv, Cuts, StepAll;
    var w0 := Begin(w, Abort, now);
    BeginKeepsInv(w, Abort, now);
    AbortPhase(w);
    AbortEnds(w, now);
    var ops := PlanAbort(w.dir).value;
    if w.dir.nextCrt.Some? {
      RemoveNextCrtKeepsInv(w0);
      RemoveNextKeyKeepsInv(Step(w0, RemoveNextCrt));
      CutsTwo(w0, RemoveNextCrt, RemoveNextKey);
      assert ops == [RemoveNextCrt, RemoveNextKey];
    } else {
      RemoveNextKeyKeepsInv(w0);
      CutsOne(w0, RemoveNextKey);
      assert ops == [RemoveNextKey];
    }
  }

  lemma AbortPhase(w: World)
    requires Inv(w) && PlanAbort(w.dir).Ok?
    ensures if w.dir.nextCrt.Some? then InPhase(w.dir, Staged) && w.dir.nextKey.Some? else InPhase(w.dir, NoRenewal)
  {
  }

  lemma AbortEnds(w: World, now: Time)
    requires Inv(w) && PlanAbort(w.dir).Ok?
    ensures var v := StepAll(Begin(w, Abort, now), PlanAbort(w.dir).value);
            && InPhase(v.dir, NoRenewal) && v.dir.nextCrt.None? && v.dir.nextKey.None? && v.dir.rootCrt == w.dir.rootCrt
  {
    var w0, ops := Begin(w, Abort, now), PlanAbort(w.dir).value;
    if w.dir.nextCrt.Some? {
      assert ops == [RemoveNextCrt] + [RemoveNextKey];
      assert ops[1..] == [RemoveNextKey] && [RemoveNextKey][1..] == [];
      assert StepAll(w0, ops) == Step(Step(w0, RemoveNextCrt), RemoveNextKey);
    } else {
      assert [RemoveNextKey][1..] == [];
      assert StepAll(w0, ops) == Step(w0, RemoveNextKey);
    }
  }
}
