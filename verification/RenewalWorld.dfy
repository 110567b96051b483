/**
The world a root renewal runs in: the directory, a monotone clock, fresh keys, and two
history variables (the intermediates a scope ever had, the roots root.crt ever held).
`Run` executes a command and stops it after any number of file operations; `Inv` is what
every reachable world satisfies.
*/
module RenewalWorld {
  import opened Common
  import opened Certificates
  import opened PkiDirectory
  import opened Rotation

  datatype World = World(
    dir: Dir,
    clock: Time,
    nextKey: KeyId,
    gens: set<Cert>,    // intermediates ever current, less those given up (--compromised, finish)
    roots: seq<Cert>,   // every root.crt so far, oldest first
    ended: bool         // the last rotation or switch ran to its end
  )

  datatype Command =
    | Stage(pass: Passphrase)
    | Abort
    | SwitchRoot(options: SwitchOptions)
    | Finish
    | Rotate(pass: Passphrase, compromised: set<Scope>)

  function PlanOf(d: Dir, cmd: Command, now: Time, key: KeyId): Plan {
    match cmd
    case Stage(pass) => PlanStage(d, pass, now, key)
    case Abort => PlanAbort(d)
    case SwitchRoot(o) => PlanSwitch(d, o, now, key)
    case Finish => PlanFinish(d)
    case Rotate(pass, compromised) => PlanRotation(d, pass, compromised, now, key)
  }

  function Step(w: World, op: Op): World {
    w.(dir := Apply(w.dir, op),
       gens := if op.PutCrt? then w.gens + {op.cert} else w.gens,
       roots := if op.PutRootCrt? && (w.roots == [] || w.roots[|w.roots| - 1] != op.cert) then w.roots + [op.cert] else w.roots)
  }

  function StepAll(w: World, ops: seq<Op>): World
    decreases |ops|
  {
    if ops == [] then w else StepAll(Step(w, ops[0]), ops[1..])
  }

  /** A scope named compromised gives up its generations, a finish those of the old root. */
  predicate GivenUp(g: Cert, d: Dir, cmd: Command) {
    match cmd
    case Rotate(_, compromised) => g.subject.IntermediateName? && g.subject.scope in compromised
    case SwitchRoot(o) =>
      && g.subject.IntermediateName? && g.subject.scope in o.compromised
      && !(NewRoot(d).Some? && SignedBy(g, NewRoot(d).value))
    case Finish => !(d.rootCrt.Some? && SignedBy(g, d.rootCrt.value))
    case _ => false
  }

  predicate Reissues(cmd: Command) { cmd.Rotate? || cmd.SwitchRoot? }

  /** The world as the first file operation of `cmd` finds it. */
  function Begin(w: World, cmd: Command, now: Time): World {
    w.(clock := now,
       nextKey := w.nextKey + KEYS_PER_COMMAND,
       gens := (set g | g in w.gens && !GivenUp(g, w.dir, cmd)),
       ended := w.ended && !Reissues(cmd))
  }

  /** `cmd` at `now`, stopped after `cut` file operations (or ended, if it has no more). */
  function Run(w: World, cmd: Command, now: Time, cut: nat): World {
    match PlanOf(w.dir, cmd, now, w.nextKey)
    case Err(_) => w.(clock := now)
    case Ok(ops) =>
      if cut == 0 then w.(clock := now)
      else if cut < |ops| then StepAll(Begin(w, cmd, now), ops[..cut])
      else
        var end := StepAll(Begin(w, cmd, now), ops);
        end.(ended := end.ended || Reissues(cmd))
  }

  // ----- What every reachable world satisfies ----------------------------------------

  predicate UnderEither(c: Cert, s: Scope, oldRoot: Cert, newRoot: Cert, clock: Time) {
    ProperIntermediate(c, s, oldRoot, clock) || ProperIntermediate(c, s, newRoot, clock)
  }

  predicate ScopeInv(f: ScopeFiles, s: Scope, oldRoot: Cert, newRoot: Cert, clock: Time) {
    && f.crt.Some? && f.key.Some? && f.chain.Some?
    && UnderEither(f.crt.value, s, oldRoot, newRoot, clock)
    && forall c :: c in f.Entries() ==> UnderEither(c, s, oldRoot, newRoot, clock)
  }

  predicate CrtUnder(f: ScopeFiles, root: Cert) {
    f.crt.Some? && SignedBy(f.crt.value, root)
  }

  predicate EntriesUnder(f: ScopeFiles, root: Cert) {
    forall c :: c in f.Entries() ==> SignedBy(c, root)
  }

  predicate ChainUnder(f: ScopeFiles, root: Cert) {
    f.chain.Some? && forall c :: c in f.chain.value ==> SignedBy(c, root)
  }

  /** Moved, with the chain that goes with it. */
  predicate Settled(f: ScopeFiles, s: Scope, newRoot: Cert) {
    Moved(f, s, newRoot) && f.chain == Some([f.crt.value, newRoot])
  }

  predicate SwitchingInv(d: Dir, oldRoot: Cert, newRoot: Cert, clock: Time) {
    && d.nextKey.Some? && d.nextKey.value.key == newRoot.key
    && d.record.Some? && d.rootCrt.Some? && d.rootKey.Some?
    && d.rootCrt.value in {oldRoot, newRoot}
    && (d.retired.None? ==>
          && d.cross.None? && d.rootKey.value.key == oldRoot.key && d.rootCrt.value == oldRoot
          && forall s :: CrtUnder(d.Of(s), oldRoot) && EntriesUnder(d.Of(s), oldRoot))
    && (d.cross.Some? ==> d.record.value.cross && ProperCross(d.cross.value, newRoot, oldRoot, clock))
    // R's key is overwritten only once X is on disk (or none was asked for) and every scope moved.
    && (d.rootKey.value.key == oldRoot.key
        || (&& d.rootKey == d.nextKey && d.retired.Some? && (d.record.value.cross ==> d.cross.Some?)
            && forall s :: Settled(d.Of(s), s, newRoot)))
    && (d.rootCrt.value == newRoot ==> d.rootKey == d.nextKey)
    && forall s :: CrtUnder(d.Of(s), newRoot) ==> Moved(d.Of(s), s, newRoot)
  }

  predicate PhaseInv(d: Dir, oldRoot: Cert, newRoot: Cert, clock: Time) {
    && LoadState(d).Ok? && d.rootKey.Some?
    && match LoadState(d).value.phase
       case NoRenewal =>
         d.rootKey.value.key == oldRoot.key && forall s :: ChainUnder(d.Of(s), oldRoot)
       case Staged =>
         && oldRoot != newRoot
         && d.rootKey.value.key == oldRoot.key && d.nextKey.value.key == newRoot.key
         && forall s :: CrtUnder(d.Of(s), oldRoot) && EntriesUnder(d.Of(s), oldRoot) && ChainUnder(d.Of(s), oldRoot)
       case Switching => oldRoot != newRoot && SwitchingInv(d, oldRoot, newRoot, clock)
       case Switched =>
         && oldRoot != newRoot && d.rootKey.value.key == newRoot.key
         && (d.cross.Some? ==> ProperCross(d.cross.value, newRoot, oldRoot, clock))
         && forall s :: CrtUnder(d.Of(s), newRoot) && ChainUnder(d.Of(s), newRoot)
       case Finishing =>
         && d.rootKey.value.key == newRoot.key && d.cross.None? && (d.retired.Some? ==> oldRoot != newRoot)
         && forall s :: CrtUnder(d.Of(s), newRoot) && EntriesUnder(d.Of(s), newRoot) && ChainUnder(d.Of(s), newRoot)
  }

  predicate RootsInv(w: World, oldRoot: Cert, newRoot: Cert) {
    && ProperRoot(oldRoot, w.clock) && ProperRoot(newRoot, w.clock)
    && oldRoot.key < w.nextKey && newRoot.key < w.nextKey
    && (oldRoot != newRoot ==>
          oldRoot.key < newRoot.key && oldRoot.subject != newRoot.subject && oldRoot.nb <= newRoot.nb)
    && w.roots != [] && w.dir.rootCrt == Some(w.roots[|w.roots| - 1])
    && (w.dir.retired.Some? ==>
          w.dir.retired == w.dir.rootCrt || (|w.roots| >= 2 && w.dir.retired == Some(w.roots[|w.roots| - 2])))
    && forall i, j | 0 <= i < j < |w.roots| :: w.roots[i].key < w.roots[j].key
  }

  /** An unexpired generation is the current intermediate of its scope or in its retired file. */
  predicate Kept(g: Cert, f: ScopeFiles, clock: Time) {
    clock < g.na ==> f.crt == Some(g) || g in f.Entries()
  }

  predicate GenerationInv(g: Cert, w: World, newRoot: Cert) {
    && g.subject.IntermediateName? && g.signer < w.nextKey
    && Kept(g, w.dir.Of(g.subject.scope), w.clock)
    && (w.dir.record.Some? && g.subject.scope in w.dir.record.value.compromised ==> SignedBy(g, newRoot))
    && (InPhase(w.dir, Staged) ==> g.signer != newRoot.key)
    && (InPhase(w.dir, Switching) && SignedBy(g, newRoot) ==> w.dir.Of(g.subject.scope).crt == Some(g))
  }

  predicate Coherent(d: Dir) {
    && d.rootCrt.Some?
    && forall s :: var f := d.Of(s);
                   f.crt.Some? && f.key == Some(f.crt.value.key) && f.chain == Some([f.crt.value, d.rootCrt.value])
  }

  predicate Inv(w: World) {
    && w.dir.rootCrt.Some?
    && var oldRoot, newRoot := OldRoot(w.dir).value, NewRoot(w.dir).value;
       && RootsInv(w, oldRoot, newRoot)
       && (forall s :: ScopeInv(w.dir.Of(s), s, oldRoot, newRoot, w.clock))
       && PhaseInv(w.dir, oldRoot, newRoot, w.clock)
       && (forall g :: g in w.gens ==> GenerationInv(g, w, newRoot))
       && (w.ended ==> Coherent(w.dir))
  }

  /** Every cut of `ops` leaves a world that satisfies the invariant. */
  predicate Cuts(w: World, ops: seq<Op>)
    decreases |ops|
  {
    Inv(w) && (ops != [] ==> Cuts(Step(w, ops[0]), ops[1..]))
  }

  lemma {:induction false} StepAllAppend(w: World, a: seq<Op>, b: seq<Op>)
    ensures StepAll(w, a + b) == StepAll(StepAll(w, a), b)
    decreases |a|
  {
    hide Step;
    if a == [] {
      assert a + b == b;
    } else {
      assert (a + b)[0] == a[0] && (a + b)[1..] == a[1..] + b;
      StepAllAppend(Step(w, a[0]), a[1..], b);
    }
  }

  lemma {:induction false} CutsAppend(w: World, a: seq<Op>, b: seq<Op>)
    requires Cuts(w, a) && Cuts(StepAll(w, a), b)
    ensures Cuts(w, a + b)
    ensures StepAll(w, a + b) == StepAll(StepAll(w, a), b)
    decreases |a|
  {
    hide Inv, Step;
    if a == [] {
      assert a + b == b;
    } else {
      assert (a + b)[0] == a[0] && (a + b)[1..] == a[1..] + b;
      CutsAppend(Step(w, a[0]), a[1..], b);
    }
  }

  lemma CutsOne(w: World, op: Op)
    requires Inv(w) && Inv(Step(w, op))
    ensures Cuts(w, [op]) && StepAll(w, [op]) == Step(w, op)
  {
    hide Inv, Step;
    assert [op][1..] == [];
    assert Cuts(Step(w, op), []);
  }

  lemma CutsTwo(w: World, a: Op, b: Op)
    requires Inv(w) && Inv(Step(w, a)) && Inv(Step(Step(w, a), b))
    ensures Cuts(w, [a, b]) && StepAll(w, [a, b]) == Step(Step(w, a), b)
  {
    hide Inv, Step, Cuts, StepAll;
    CutsOne(Step(w, a), b);
    CutsOne(w, a);
    CutsAppend(w, [a], [b]);
    assert [a] + [b] == [a, b];
  }

  lemma {:induction false} CutsAt(w: World, ops: seq<Op>, k: nat)
    requires Cuts(w, ops) && k <= |ops|
    ensures Inv(StepAll(w, ops[..k]))
    decreases |ops|
  {
    hide Inv, Step;
    if k > 0 {
      assert ops[..k][0] == ops[0] && ops[..k][1..] == ops[1..][..k - 1];
      CutsAt(Step(w, ops[0]), ops[1..], k - 1);
    }
  }

  /** The directory of a run is the directory its file operations make. */
  lemma {:induction false} StepAllIsApplyAll(w: World, ops: seq<Op>)
    ensures StepAll(w, ops).dir == ApplyAll(w.dir, ops)
    decreases |ops|
  {
    if ops != [] {
      StepAllIsApplyAll(Step(w, ops[0]), ops[1..]);
    }
  }
}
