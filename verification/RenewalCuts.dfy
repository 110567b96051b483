/** Every cut of every command keeps the invariant of RenewalWorld. */
module RenewalCuts {
  import opened Common
  import opened Certificates
  import opened PkiDirectory
  import opened Rotation
  import opened RenewalWorld

  lemma BeginKeepsInv(w: World, cmd: Command, now: Time)
    requires Inv(w) && w.clock <= now
    ensures Inv(Begin(w, cmd, now))
  {
    TickKeepsInv(w, now);
    hide ScopeInv, PhaseInv, Coherent, ProperRoot, LoadState, GivenUp, OldRoot, NewRoot;
    var t, v := w.(clock := now), Begin(w, cmd, now);
    forall g | g in v.gens ensures GenerationInv(g, v, NewRoot(v.dir).value) {
      assert GenerationInv(g, t, NewRoot(t.dir).value);
    }
  }

  lemma TickKeepsInv(w: World, now: Time)
    requires Inv(w) && w.clock <= now
    ensures Inv(w.(clock := now))
  {
  }

  // ----- The files of one scope -------------------------------------------------------

  /** Where a new intermediate of a scope may be issued, and under which root. */
  predicate Issues(d: Dir, root: Cert) {
    && LoadState(d).Ok? && d.rootKey.Some?
    && match LoadState(d).value.phase
       case NoRenewal => d.rootCrt == Some(root)
       case Staged => d.rootCrt == Some(root)
       case Switching =>
         && NewRoot(d) == Some(root) && d.retired.Some? && d.rootKey.value.key == d.retired.value.key
       case Switched => d.rootCrt == Some(root)
       case Finishing => false
  }

  /** `entries` may become the retired file of `s`: known issuers, and no generation lost. */
  predicate Admits(w: World, s: Scope, entries: seq<Cert>) {
    && OldRoot(w.dir).Some? && NewRoot(w.dir).Some?
    && (forall c :: c in entries ==> UnderEither(c, s, OldRoot(w.dir).value, NewRoot(w.dir).value, w.clock))
    && (InPhase(w.dir, Staged) ==> forall c :: c in entries ==> SignedBy(c, OldRoot(w.dir).value))
    && (forall g :: g in w.gens && g.subject.IntermediateName? && g.subject.scope == s && w.clock < g.na ==> g in entries)
  }

  /** What a change of the files of one scope leaves alone. */
  lemma ScopeChange(d: Dir, s: Scope, f: ScopeFiles)
    ensures var e := d.With(s, f);
            && LoadState(e) == LoadState(d) && OldRoot(e) == OldRoot(d) && NewRoot(e) == NewRoot(d)
            && (forall phase :: InPhase(e, phase) <==> InPhase(d, phase))
            && e.rootCrt == d.rootCrt && e.rootKey == d.rootKey && e.nextKey == d.nextKey && e.nextCrt == d.nextCrt
            && e.record == d.record && e.retired == d.retired && e.cross == d.cross
            && e.Of(s) == f && forall t :: t != s ==> e.Of(t) == d.Of(t)
  {
  }

  /** The invariant after such a change, part by part. */
  lemma ScopeChangeKeepsInv(w: World, v: World, s: Scope, f: ScopeFiles)
    requires Inv(w) && v.dir == w.dir.With(s, f) && v.clock == w.clock && v.nextKey == w.nextKey && v.roots == w.roots
    requires OldRoot(w.dir).Some? && NewRoot(w.dir).Some?
    requires var oldRoot, newRoot := OldRoot(w.dir).value, NewRoot(w.dir).value;
             && ScopeInv(f, s, oldRoot, newRoot, w.clock) && PhaseInv(v.dir, oldRoot, newRoot, w.clock)
             && forall g :: g in v.gens ==> GenerationInv(g, v, newRoot)
    requires v.ended ==> Coherent(v.dir)
    ensures Inv(v)
  {
    hide LoadState, ScopeInv, PhaseInv, GenerationInv, Coherent, ProperRoot;
    ScopeChange(w.dir, s, f);
    hide OldRoot, NewRoot;
  }

  lemma RootsAreKnown(w: World)
    requires Inv(w)
    ensures OldRoot(w.dir).Some? && NewRoot(w.dir).Some? && w.dir.rootCrt.Some?
  {
    hide RootsInv, ScopeInv, PhaseInv, GenerationInv, Coherent;
  }

  lemma PutRetiredKeepsInv(w: World, s: Scope, entries: seq<Cert>, root: Cert)
    requires Inv(w) && Issues(w.dir, root) && Admits(w, s, entries)
    ensures Inv(Step(w, PutRetired(s, entries)))
  {
    var v, f := Step(w, PutRetired(s, entries)), w.dir.Of(s).(retired := Some(entries));
    PutRetiredPhase(w, s, entries, root);
    PutRetiredGenerations(w, s, entries);
    PutRetiredScope(w, s, entries);
    ScopeChange(w.dir, s, f);
    assert w.ended ==> Coherent(w.dir);
    hide Inv, PhaseInv, ScopeInv, GenerationInv, Admits, Issues, LoadState, OldRoot, NewRoot;
    ScopeChangeKeepsInv(w, v, s, f);
  }

  lemma PutRetiredScope(w: World, s: Scope, entries: seq<Cert>)
    requires Inv(w) && Admits(w, s, entries)
    ensures ScopeInv(w.dir.Of(s).(retired := Some(entries)), s, OldRoot(w.dir).value, NewRoot(w.dir).value, w.clock)
  {
    hide UnderEither, RootsInv, PhaseInv, GenerationInv, LoadState;
    assert ScopeInv(w.dir.Of(s), s, OldRoot(w.dir).value, NewRoot(w.dir).value, w.clock);
  }

  lemma PutRetiredPhase(w: World, s: Scope, entries: seq<Cert>, root: Cert)
    requires Inv(w) && Issues(w.dir, root) && Admits(w, s, entries)
    ensures PhaseInv(w.dir.With(s, w.dir.Of(s).(retired := Some(entries))), OldRoot(w.dir).value, NewRoot(w.dir).value, w.clock)
  {
    hide UnderEither, RootsInv, ScopeInv, GenerationInv, ProperCross, IsIntermediate;
    ScopeChange(w.dir, s, w.dir.Of(s).(retired := Some(entries)));
    hide LoadState;
  }

  lemma PutRetiredGenerations(w: World, s: Scope, entries: seq<Cert>)
    requires Inv(w) && Admits(w, s, entries)
    ensures var v := w.(dir := w.dir.With(s, w.dir.Of(s).(retired := Some(entries))));
            forall g :: g in w.gens ==> GenerationInv(g, v, NewRoot(w.dir).value)
  {
    var v := w.(dir := w.dir.With(s, w.dir.Of(s).(retired := Some(entries))));
    ScopeChange(w.dir, s, w.dir.Of(s).(retired := Some(entries)));
    hide UnderEither, RootsInv, ScopeInv, PhaseInv, LoadState, Coherent, SignedBy;
    forall g | g in w.gens ensures GenerationInv(g, v, NewRoot(w.dir).value) {
      assert GenerationInv(g, w, NewRoot(w.dir).value);
    }
  }

  lemma PutKeyKeepsInv(w: World, s: Scope, key: KeyId, root: Cert)
    requires Inv(w) && Issues(w.dir, root) && !w.ended
    requires !CrtUnder(w.dir.Of(s), root) || !InPhase(w.dir, Switching)
    ensures Inv(Step(w, PutKey(s, key)))
  {
    var v, f := Step(w, PutKey(s, key)), w.dir.Of(s).(key := Some(key));
    RootsAreKnown(w);
    PutKeyPhase(w, s, key, root);
    PutOtherGenerations(w, s, f);
    KeyScope(w, s, key);
    ScopeChange(w.dir, s, f);
    hide Inv, PhaseInv, ScopeInv, GenerationInv, Issues, LoadState, OldRoot, NewRoot, Coherent;
    ScopeChangeKeepsInv(w, v, s, f);
  }

  lemma KeyScope(w: World, s: Scope, key: KeyId)
    requires Inv(w)
    ensures ScopeInv(w.dir.Of(s).(key := Some(key)), s, OldRoot(w.dir).value, NewRoot(w.dir).value, w.clock)
  {
    hide UnderEither, RootsInv, PhaseInv, GenerationInv, LoadState;
    assert ScopeInv(w.dir.Of(s), s, OldRoot(w.dir).value, NewRoot(w.dir).value, w.clock);
  }

  lemma PutKeyPhase(w: World, s: Scope, key: KeyId, root: Cert)
    requires Inv(w) && Issues(w.dir, root)
    requires !CrtUnder(w.dir.Of(s), root) || !InPhase(w.dir, Switching)
    ensures PhaseInv(w.dir.With(s, w.dir.Of(s).(key := Some(key))), OldRoot(w.dir).value, NewRoot(w.dir).value, w.clock)
  {
    hide UnderEither, RootsInv, ScopeInv, GenerationInv, ProperCross, IsIntermediate, SignedBy;
    ScopeChange(w.dir, s, w.dir.Of(s).(key := Some(key)));
    hide LoadState;
  }

  /** Key and chain say nothing about the generations. */
  lemma PutOtherGenerations(w: World, s: Scope, f: ScopeFiles)
    requires Inv(w) && f.crt == w.dir.Of(s).crt && f.Entries() == w.dir.Of(s).Entries()
    ensures var v := w.(dir := w.dir.With(s, f));
            forall g :: g in w.gens ==> GenerationInv(g, v, NewRoot(w.dir).value)
  {
    var v := w.(dir := w.dir.With(s, f));
    ScopeChange(w.dir, s, f);
    hide UnderEither, RootsInv, ScopeInv, PhaseInv, LoadState, Coherent, SignedBy;
    forall g | g in w.gens ensures GenerationInv(g, v, NewRoot(w.dir).value) {
      assert GenerationInv(g, w, NewRoot(w.dir).value);
    }
  }

  /** A new intermediate may go in: the generation it takes the place of is kept. */
  predicate MayReplace(w: World, s: Scope, cert: Cert, root: Cert) {
    && Issues(w.dir, root) && !w.ended && ProperIntermediate(cert, s, root, w.clock)
    && w.dir.Of(s).key == Some(cert.key)
    && (forall g :: g in w.gens && g.subject.IntermediateName? && g.subject.scope == s && w.clock < g.na ==> g in w.dir.Of(s).Entries())
    && (InPhase(w.dir, Switching) ==> !CrtUnder(w.dir.Of(s), root))
  }

  lemma PutCrtGenerations(w: World, s: Scope, cert: Cert, root: Cert)
    requires Inv(w) && MayReplace(w, s, cert, root)
    ensures var v := Step(w, PutCrt(s, cert));
            NewRoot(w.dir).Some? && forall g :: g in v.gens ==> GenerationInv(g, v, NewRoot(w.dir).value)
  {
    var v := Step(w, PutCrt(s, cert));
    ScopeChange(w.dir, s, w.dir.Of(s).(crt := Some(cert)));
    NewGeneration(w, s, cert, root);
    hide UnderEither, ProperRoot, ProperCross, PhaseInv, ScopeInv, SignedBy;
    forall g | g in v.gens && g != cert ensures GenerationInv(g, v, NewRoot(w.dir).value) {
      OldGeneration(w, s, cert, root, g);
    }
  }

  lemma NewGeneration(w: World, s: Scope, cert: Cert, root: Cert)
    requires Inv(w) && MayReplace(w, s, cert, root)
    ensures NewRoot(w.dir).Some? && GenerationInv(cert, Step(w, PutCrt(s, cert)), NewRoot(w.dir).value)
  {
    hide UnderEither, ProperCross, ScopeInv;
    ScopeChange(w.dir, s, w.dir.Of(s).(crt := Some(cert)));
  }

  lemma OldGeneration(w: World, s: Scope, cert: Cert, root: Cert, g: Cert)
    requires Inv(w) && MayReplace(w, s, cert, root) && g in w.gens && g != cert
    ensures NewRoot(w.dir).Some? && GenerationInv(g, Step(w, PutCrt(s, cert)), NewRoot(w.dir).value)
  {
    hide UnderEither, ProperCross, ProperRoot, ProperIntermediate, ScopeInv, RootsInv;
    ScopeChange(w.dir, s, w.dir.Of(s).(crt := Some(cert)));
    assert GenerationInv(g, w, NewRoot(w.dir).value);
  }

  lemma PutCrtKeepsInv(w: World, s: Scope, cert: Cert, root: Cert)
    requires Inv(w) && MayReplace(w, s, cert, root)
    ensures Inv(Step(w, PutCrt(s, cert)))
  {
    var v, f := Step(w, PutCrt(s, cert)), w.dir.Of(s).(crt := Some(cert));
    RootsAreKnown(w);
    PutCrtGenerations(w, s, cert, root);
    PutCrtPhase(w, s, cert, root);
    PutCrtScope(w, s, cert, root);
    ScopeChange(w.dir, s, f);
    hide Inv, GenerationInv, PhaseInv, ScopeInv, Issues, LoadState, OldRoot, NewRoot, ProperIntermediate, Coherent;
    ScopeChangeKeepsInv(w, v, s, f);
  }

  lemma PutCrtScope(w: World, s: Scope, cert: Cert, root: Cert)
    requires Inv(w) && MayReplace(w, s, cert, root)
    ensures ScopeInv(w.dir.Of(s).(crt := Some(cert)), s, OldRoot(w.dir).value, NewRoot(w.dir).value, w.clock)
  {
    assert OldRoot(w.dir) == Some(root) || NewRoot(w.dir) == Some(root);
    hide ProperIntermediate, RootsInv, PhaseInv, GenerationInv, LoadState;
    assert ScopeInv(w.dir.Of(s), s, OldRoot(w.dir).value, NewRoot(w.dir).value, w.clock);
  }

  lemma PutCrtPhase(w: World, s: Scope, cert: Cert, root: Cert)
    requires Inv(w) && MayReplace(w, s, cert, root)
    ensures OldRoot(w.dir).Some? && NewRoot(w.dir).Some?
    ensures PhaseInv(w.dir.With(s, w.dir.Of(s).(crt := Some(cert))), OldRoot(w.dir).value, NewRoot(w.dir).value, w.clock)
  {
    hide UnderEither, GenerationInv, ProperCross, ProperRoot, ScopeInv;
    ScopeChange(w.dir, s, w.dir.Of(s).(crt := Some(cert)));
  }

  lemma PutChainKeepsInv(w: World, s: Scope, chain: seq<Cert>)
    requires Inv(w) && !w.ended
    requires InPhase(w.dir, Switching) ==> w.dir.Of(s).crt.Some? && chain == [w.dir.Of(s).crt.value, NewRoot(w.dir).value]
    requires !InPhase(w.dir, Switching) ==> forall c :: c in chain ==> SignedBy(c, w.dir.rootCrt.value)
    ensures Inv(Step(w, PutChain(s, chain)))
  {
    var v, f := Step(w, PutChain(s, chain)), w.dir.Of(s).(chain := Some(chain));
    RootsAreKnown(w);
    PutChainPhase(w, s, chain);
    PutOtherGenerations(w, s, f);
    ChainScope(w, s, chain);
    ScopeChange(w.dir, s, f);
    hide Inv, PhaseInv, ScopeInv, GenerationInv, LoadState, OldRoot, NewRoot, Coherent;
    ScopeChangeKeepsInv(w, v, s, f);
  }

  lemma ChainScope(w: World, s: Scope, chain: seq<Cert>)
    requires Inv(w)
    ensures ScopeInv(w.dir.Of(s).(chain := Some(chain)), s, OldRoot(w.dir).value, NewRoot(w.dir).value, w.clock)
  {
    hide UnderEither, RootsInv, PhaseInv, GenerationInv, LoadState;
    assert ScopeInv(w.dir.Of(s), s, OldRoot(w.dir).value, NewRoot(w.dir).value, w.clock);
  }

  lemma PutChainPhase(w: World, s: Scope, chain: seq<Cert>)
    requires Inv(w)
    requires InPhase(w.dir, Switching) ==> w.dir.Of(s).crt.Some? && chain == [w.dir.Of(s).crt.value, NewRoot(w.dir).value]
    requires !InPhase(w.dir, Switching) ==> forall c :: c in chain ==> SignedBy(c, w.dir.rootCrt.value)
    ensures PhaseInv(w.dir.With(s, w.dir.Of(s).(chain := Some(chain))), OldRoot(w.dir).value, NewRoot(w.dir).value, w.clock)
  {
    hide UnderEither, RootsInv, ScopeInv, GenerationInv, ProperCross, IsIntermediate, SignedBy;
    ScopeChange(w.dir, s, w.dir.Of(s).(chain := Some(chain)));
  }

  lemma RootSignsItself(w: World, root: Cert)
    requires Inv(w) && Issues(w.dir, root)
    ensures SignedBy(root, root)
  {
    hide ScopeInv, PhaseInv, GenerationInv, Coherent;
  }

  function ReplacedScope(r: Replacement, root: Cert): ScopeFiles {
    ScopeFiles(Some(r.cert), Some(r.cert.key), Some([r.cert, root]), Some(r.retired))
  }

  /** The world after the four files of one scope. */
  function AfterScope(w: World, s: Scope, r: Replacement, root: Cert): World {
    w.(dir := w.dir.With(s, ReplacedScope(r, root)), gens := w.gens + {r.cert})
  }

  lemma WriteScopeHead(w: World, s: Scope, r: Replacement, root: Cert)
    requires Inv(w) && Issues(w.dir, root) && !w.ended
    requires Admits(w, s, r.retired)
    requires InPhase(w.dir, Switching) ==> !CrtUnder(w.dir.Of(s), root)
    ensures var ops := WriteScope(s, r, root)[..2];
            && Cuts(w, ops)
            && StepAll(w, ops) == w.(dir := w.dir.With(s, w.dir.Of(s).(retired := Some(r.retired), key := Some(r.cert.key))))
  {
    hide Inv, Cuts, StepAll, Admits;
    var a, b := PutRetired(s, r.retired), PutKey(s, r.cert.key);
    PutRetiredKeepsInv(w, s, r.retired, root);
    assert LoadState(Step(w, a).dir) == LoadState(w.dir);
    assert Step(w, a).dir.Of(s) == w.dir.Of(s).(retired := Some(r.retired));
    PutKeyKeepsInv(Step(w, a), s, r.cert.key, root);
    CutsTwo(w, a, b);
    assert WriteScope(s, r, root)[..2] == [a, b];
  }

  /** The chain of a new intermediate is the one its root wants. */
  lemma ChainFits(w: World, s: Scope, cert: Cert, root: Cert)
    requires Inv(w) && Issues(w.dir, root) && ProperIntermediate(cert, s, root, w.clock)
    ensures var d := Step(w, PutCrt(s, cert)).dir;
            && d == w.dir.With(s, w.dir.Of(s).(crt := Some(cert))) && d.rootCrt.Some?
            && (InPhase(d, Switching) ==> d.Of(s).crt == Some(cert) && NewRoot(d) == Some(root))
            && (!InPhase(d, Switching) ==> forall c :: c in [cert, root] ==> SignedBy(c, d.rootCrt.value))
  {
    RootSignsItself(w, root);
    RootsAreKnown(w);
    hide Inv;
    ScopeChange(w.dir, s, w.dir.Of(s).(crt := Some(cert)));
  }

  lemma WriteScopeTail(w: World, s: Scope, r: Replacement, root: Cert)
    requires Inv(w) && Issues(w.dir, root) && !w.ended
    requires ProperIntermediate(r.cert, s, root, w.clock)
    requires w.dir.Of(s).key == Some(r.cert.key) && w.dir.Of(s).Entries() == r.retired
    requires Admits(w, s, r.retired)
    requires InPhase(w.dir, Switching) ==> !CrtUnder(w.dir.Of(s), root)
    ensures var ops := WriteScope(s, r, root)[2..];
            && Cuts(w, ops)
            && StepAll(w, ops) == w.(dir := w.dir.With(s, w.dir.Of(s).(crt := Some(r.cert), chain := Some([r.cert, root]))),
                                     gens := w.gens + {r.cert})
  {
    hide Inv, Cuts, StepAll;
    var a, b := PutCrt(s, r.cert), PutChain(s, [r.cert, root]);
    PutCrtKeepsInv(w, s, r.cert, root);
    ChainFits(w, s, r.cert, root);
    hide Issues, Admits, LoadState, ProperIntermediate, CrtUnder;
    PutChainKeepsInv(Step(w, a), s, [r.cert, root]);
    CutsTwo(w, a, b);
    assert WriteScope(s, r, root)[2..] == [a, b];
  }

  lemma WriteScopeCuts(w: World, s: Scope, r: Replacement, root: Cert)
    requires Inv(w) && Issues(w.dir, root) && !w.ended
    requires ProperIntermediate(r.cert, s, root, w.clock)
    requires Admits(w, s, r.retired)
    requires InPhase(w.dir, Switching) ==> !CrtUnder(w.dir.Of(s), root)
    ensures Cuts(w, WriteScope(s, r, root))
    ensures StepAll(w, WriteScope(s, r, root)) == AfterScope(w, s, r, root)
    ensures Inv(AfterScope(w, s, r, root))
  {
    hide Inv, Cuts, StepAll, Issues, Admits, LoadState, ProperIntermediate;
    var ops := WriteScope(s, r, root);
    WriteScopeHead(w, s, r, root);
    var mid := StepAll(w, ops[..2]);
    CutsAt(w, ops[..2], 2);
    assert ops[..2][..2] == ops[..2] && ops[..2] + ops[2..] == ops;
    HalfScope(w, s, r, root, mid);
    WriteScopeTail(mid, s, r, root);
    CutsAppend(w, ops[..2], ops[2..]);
    CutsAt(w, ops, 4);
    assert ops[..4] == ops;
    assert StepAll(mid, ops[2..]).dir.Of(s) == ReplacedScope(r, root);
    assert StepAll(w, ops) == AfterScope(w, s, r, root);
  }

  lemma HalfScope(w: World, s: Scope, r: Replacement, root: Cert, mid: World)
    requires Issues(w.dir, root) && Admits(w, s, r.retired)
    requires InPhase(w.dir, Switching) ==> !CrtUnder(w.dir.Of(s), root)
    requires mid == w.(dir := w.dir.With(s, w.dir.Of(s).(retired := Some(r.retired), key := Some(r.cert.key))))
    ensures Issues(mid.dir, root) && Admits(mid, s, r.retired)
    ensures mid.dir.Of(s).key == Some(r.cert.key) && mid.dir.Of(s).Entries() == r.retired
    ensures InPhase(mid.dir, Switching) ==> !CrtUnder(mid.dir.Of(s), root)
  {
    assert LoadState(mid.dir) == LoadState(w.dir);
  }
}
