/** When a command of the CLI is refused, in every reachable world (apps/ca-issuer/app/rotation.py). */
module Refusals {
  import opened Common
  import opened Certificates
  import opened PkiDirectory
  import opened Rotation
  import opened RenewalWorld
  import opened RenewalFinish
  import opened RenewalTheorems

  /** The passphrase opens root.key.enc. */
  predicate OpensRoot(d: Dir, pass: Passphrase) { d.rootKey.Some? && d.rootKey.value.pass == pass }

  /** A new root staged or half switched to, and no stop asks for other options than the record's. */
  predicate MaySwitch(d: Dir, o: SwitchOptions) {
    && (InPhase(d, Staged) || InPhase(d, Switching))
    && (o.compromised != {} ==> o.cross)
    && (d.record.Some? ==> d.record.value.compromised == o.compromised && d.record.value.cross == o.cross)
  }

  /** What a command needs of the directory, its passphrases and the clock. */
  predicate Allowed(w: World, cmd: Command, now: Time)
    requires Inv(w)
  {
    var d := w.dir;
    match cmd
    case Stage(pass) => pass != NO_PASSPHRASE && InPhase(d, NoRenewal) && d.rootCrt.value.subject != RootName(Some(DayOf(now)))
    case Abort => InPhase(d, Staged) || (InPhase(d, NoRenewal) && d.nextKey.Some?)
    case SwitchRoot(o) =>
      && MaySwitch(d, o) && d.nextKey.value.pass == o.nextPass && ValidAt(NewRoot(d).value, now)
      && (o.cross && d.cross.None? ==>
            ValidAt(OldRoot(d).value, now) && o.rootPass.Some? && OpensRoot(d, o.rootPass.value))
    case Finish => InPhase(d, Switched) || InPhase(d, Finishing)
    case Rotate(pass, _) =>
      && (InPhase(d, NoRenewal) || InPhase(d, Staged) || InPhase(d, Switched))
      && OpensRoot(d, pass) && ValidAt(d.rootCrt.value, now)
  }

  /** The entries of a scope are intermediates of the roots a command knows. */
  predicate EntriesKnown(f: ScopeFiles, s: Scope, roots: seq<Cert>) {
    forall c :: c in f.Entries() ==> IsIntermediateAmong(c, s, roots)
  }

  /** A scope's plan is refused only for a root that is not valid. */
  lemma ScopeIsPlanned(w: World, s: Scope, root: Cert, roots: seq<Cert>, compromised: bool, now: Time, key: KeyId)
    requires Inv(w) && w.clock <= now && EntriesKnown(w.dir.Of(s), s, roots)
    ensures PlanScope(w.dir.Of(s), s, root, root.key, roots, compromised, now, key).Ok? <==> ValidAt(root, now)
  {
    var f := w.dir.Of(s);
    assert ScopeInv(f, s, OldRoot(w.dir).value, NewRoot(w.dir).value, w.clock);
    forall i | 0 <= i < |f.Entries()| ensures IsIntermediateAmong(f.Entries()[i], s, roots) {
      assert f.Entries()[i] in f.Entries();
    }
    CurrentBegan(f, s, OldRoot(w.dir).value, NewRoot(w.dir).value, w.clock);
    hide Inv, ScopeInv, IsIntermediateAmong, EntriesKnown;
  }

  lemma CurrentBegan(f: ScopeFiles, s: Scope, oldRoot: Cert, newRoot: Cert, clock: Time)
    requires ScopeInv(f, s, oldRoot, newRoot, clock)
    ensures f.crt.Some? && f.crt.value.nb <= clock
  {
  }

  lemma KnownByEither(f: ScopeFiles, s: Scope, oldRoot: Cert, newRoot: Cert, roots: seq<Cert>, clock: Time)
    requires ScopeInv(f, s, oldRoot, newRoot, clock) && oldRoot in roots && (newRoot in roots || EntriesUnder(f, oldRoot))
    ensures EntriesKnown(f, s, roots)
  {
    var i :| 0 <= i < |roots| && roots[i] == oldRoot;
    forall c | c in f.Entries() ensures IsIntermediateAmong(c, s, roots) {
      if IsIntermediate(c, s, roots[i]) {
      } else {
        var j :| 0 <= j < |roots| && roots[j] == newRoot;
        assert IsIntermediate(c, s, roots[j]);
      }
    }
  }

  /** The roots a rotation goes by. */
  function RootsOf(root: Cert, state: State): seq<Cert> {
    if state.retiredRoot.None? then [root] else [root, state.retiredRoot.value]
  }

  lemma RotationKnows(w: World, state: State, s: Scope)
    requires Inv(w) && LoadState(w.dir) == Result.Ok(state) && !state.phase.Switching? && !state.phase.Finishing?
    ensures w.dir.rootKey.Some? && w.dir.rootKey.value.key == w.dir.rootCrt.value.key
    ensures EntriesKnown(w.dir.Of(s), s, RootsOf(w.dir.rootCrt.value, state))
  {
    var oldRoot, newRoot := OldRoot(w.dir).value, NewRoot(w.dir).value;
    assert ScopeInv(w.dir.Of(s), s, oldRoot, newRoot, w.clock);
    hide ScopeInv, EntriesKnown;
    KnownByEither(w.dir.Of(s), s, oldRoot, newRoot, RootsOf(w.dir.rootCrt.value, state), w.clock);
  }

  lemma RotationRefusedExactly(w: World, pass: Passphrase, compromised: set<Scope>, now: Time)
    requires Inv(w) && w.clock <= now
    ensures PlanRotation(w.dir, pass, compromised, now, w.nextKey).Ok? <==> Allowed(w, Rotate(pass, compromised), now)
  {
    assert LoadState(w.dir).Ok?;
    var d, state := w.dir, LoadState(w.dir).value;
    if !state.phase.Switching? && !state.phase.Finishing? {
      var root, roots := d.rootCrt.value, RootsOf(d.rootCrt.value, state);
      forall s ensures d.rootKey.Some? && d.rootKey.value.key == root.key
      ensures PlanScope(d.Of(s), s, root, root.key, roots, s in compromised, now, KeyFor(s, w.nextKey)).Ok? <==> ValidAt(root, now) {
        RotationKnows(w, state, s);
        ScopeIsPlanned(w, s, root, roots, s in compromised, now, KeyFor(s, w.nextKey));
      }
      hide Inv, PlanScope, LoadState, KeyFor, ValidAt, RecordCompromised, WriteScope;
      assert PlanScope(d.Of(Tunnel), Tunnel, root, root.key, roots, Tunnel in compromised, now, KeyFor(Tunnel, w.nextKey)).Ok? <==> ValidAt(root, now);
      assert PlanScope(d.Of(Access), Access, root, root.key, roots, Access in compromised, now, KeyFor(Access, w.nextKey)).Ok? <==> ValidAt(root, now);
      assert PlanScope(d.Of(Internal), Internal, root, root.key, roots, Internal in compromised, now, KeyFor(Internal, w.nextKey)).Ok? <==> ValidAt(root, now);
    }
  }

  lemma SwitchRefusedExactly(w: World, o: SwitchOptions, now: Time)
    requires Inv(w) && w.clock <= now
    ensures PlanSwitch(w.dir, o, now, w.nextKey).Ok? <==> Allowed(w, SwitchRoot(o), now)
  {
    assert LoadState(w.dir).Ok?;
    var d, state := w.dir, LoadState(w.dir).value;
    if MaySwitch(d, o) {
      var oldRoot, newRoot := OldRoot(d).value, NewRoot(d).value;
      SwitchFacts(w, o);
      CrossRefusedExactly(w, o, oldRoot, newRoot, now);
      if ValidAt(newRoot, now) {
        forall s ensures PlanMove(d.Of(s), s, newRoot, newRoot.key, [newRoot, oldRoot], s in o.compromised, now, KeyFor(s, w.nextKey)).Ok? {
          MoveIsPlanned(w, s, oldRoot, newRoot, s in o.compromised, now, KeyFor(s, w.nextKey));
        }
      }
      hide Inv, PlanMove, LoadState, KeyFor, ValidAt, SwitchHead, SwitchTail, ChainOf, PlanCross, MaySwitch;
      var (t, a, i) := (Scope.Tunnel, Scope.Access, Scope.Internal);
      assert ValidAt(newRoot, now) ==> PlanMove(d.Of(t), t, newRoot, newRoot.key, [newRoot, oldRoot], t in o.compromised, now, KeyFor(t, w.nextKey)).Ok?;
      assert ValidAt(newRoot, now) ==> PlanMove(d.Of(a), a, newRoot, newRoot.key, [newRoot, oldRoot], a in o.compromised, now, KeyFor(a, w.nextKey)).Ok?;
      assert ValidAt(newRoot, now) ==> PlanMove(d.Of(i), i, newRoot, newRoot.key, [newRoot, oldRoot], i in o.compromised, now, KeyFor(i, w.nextKey)).Ok?;
    }
  }

  /** What the invariant says of a switch that may start or go on. */
  lemma SwitchFacts(w: World, o: SwitchOptions)
    requires Inv(w) && MaySwitch(w.dir, o)
    ensures NewRoot(w.dir).Some? && OldRoot(w.dir).Some? && IsRoot(NewRoot(w.dir).value)
    ensures NewRoot(w.dir).value.key != OldRoot(w.dir).value.key
    ensures w.dir.nextKey.Some? && w.dir.nextKey.value.key == NewRoot(w.dir).value.key
    ensures w.dir.cross.Some? ==> o.cross
  {
  }

  lemma CrossRefusedExactly(w: World, o: SwitchOptions, oldRoot: Cert, newRoot: Cert, now: Time)
    requires Inv(w) && MaySwitch(w.dir, o) && OldRoot(w.dir) == Some(oldRoot) && NewRoot(w.dir) == Some(newRoot)
    ensures PlanCross(w.dir, o, newRoot, oldRoot, now).Ok? <==>
              (o.cross && w.dir.cross.None? ==> ValidAt(oldRoot, now) && o.rootPass.Some? && OpensRoot(w.dir, o.rootPass.value))
  {
    SwitchFacts(w, o);
    assert o.cross && w.dir.cross.None? ==> w.dir.rootKey.Some? && w.dir.rootKey.value.key == oldRoot.key;
    assert w.dir.cross.Some? ==> IsCross(w.dir.cross.value, newRoot, oldRoot);
    hide Inv, MaySwitch, LoadState;
  }

  /**
  In every reachable world a command is refused exactly if it comes in the wrong phase, a
  passphrase it needs is wrong, a root it signs with is not valid, a rerun asks for other
  options, or the new root would have the old one's name.
  */
  lemma RefusedExactly(w: World, cmd: Command, now: Time)
    requires Inv(w) && w.clock <= now
    ensures PlanOf(w.dir, cmd, now, w.nextKey).Ok? <==> Allowed(w, cmd, now)
  {
    match cmd {
      case Stage(_) =>
      case Abort =>
      case SwitchRoot(o) => SwitchRefusedExactly(w, o, now);
      case Finish =>
        if InPhase(w.dir, Switched) || InPhase(w.dir, Finishing) {
          FinishIsPlanned(w);
        }
      case Rotate(pass, compromised) => RotationRefusedExactly(w, pass, compromised, now);
    }
  }
}
