/**
The commands of apps/ca-issuer/app/rotation.py as they run: file by file over a volume, by
a process that may stop after any of its file operations. Each is proved to perform exactly
the operations of its plan, up to the stop.
*/
module PkiVolume {
  import opened Common
  import opened Certificates
  import opened PkiDirectory
  import opened Rotation

  const SCOPES := [Tunnel, Access, Internal]

  class Volume {
    var dir: Dir
    /** File operations the running process still gets done before it stops. */
    var life: nat

    ghost var start: Dir
    ghost var born: nat
    ghost var issued: seq<Op>

    /** The directory is what the operations of this process made of it, up to the stop. */
    ghost predicate Valid()
      reads this
    {
      && dir == ApplyAll(start, issued[..Min(born, |issued|)])
      && life == born - Min(born, |issued|)
    }

    constructor (d: Dir)
      ensures Valid() && dir == d && life == 0
    {
      dir, life := d, 0;
      start, born, issued := d, 0, [];
    }

    /** A new process takes the lock; it will live for `ops` file operations. */
    method Open(ops: nat)
      modifies this
      ensures Valid() && dir == old(dir) && start == dir && issued == [] && born == ops
    {
      life := ops;
      start, born, issued := dir, ops, [];
    }

    /** _replace or _remove: one atomic step, lost if the process has stopped. */
    method Write(op: Op)
      requires Valid()
      modifies this
      ensures Valid() && start == old(start) && born == old(born) && issued == old(issued) + [op]
    {
      ghost var before := issued;
      issued := issued + [op];
      if life > 0 {
        dir := Apply(dir, op);
        life := life - 1;
        assert issued[..Min(born, |issued|)] == before + [op] && before[..Min(born, |before|)] == before;
        ApplyAllAppend(start, before, [op]);
        ApplyOne(ApplyAll(start, before), op);
      } else {
        assert issued[..Min(born, |issued|)] == before[..Min(born, |before|)];
      }
    }

    method WriteScopeFiles(s: Scope, r: Replacement, root: Cert)
      requires Valid()
      modifies this
      ensures Valid() && start == old(start) && born == old(born) && issued == old(issued) + WriteScope(s, r, root)
    {
      Write(PutRetired(s, r.retired));
      Write(PutKey(s, r.cert.key));
      Write(PutCrt(s, r.cert));
      Write(PutChain(s, [r.cert, root]));
    }

    method RotateIntermediates(pass: Passphrase, compromised: set<Scope>, now: Time, key: KeyId, ops: nat)
      returns (refused: Option<Refusal>)
      modifies this
      ensures match PlanRotation(old(dir), pass, compromised, now, key)
              case Err(e) => refused == Some(e) && dir == old(dir)
              case Ok(plan) => refused == None && dir == ApplyAll(old(dir), plan[..Min(ops, |plan|)])
    {
      hide PlanScope, ApplyAll, WriteScope, Decrypt, LoadState;
      Open(ops);
      var d := dir;
      var loaded := LoadState(d);
      if loaded.Err? { return Some(Rejected(loaded.error)); }
      var state := loaded.value;
      if state.phase.Switching? || state.phase.Finishing? { return Some(WrongPhase(state.phase)); }
      if d.rootCrt.None? || d.rootKey.None? { return Some(Unreadable); }
      var root := d.rootCrt.value;
      var unlocked := Decrypt(d.rootKey, pass, root);
      if unlocked.Err? { return Some(unlocked.error); }
      if !ValidAt(root, now) { return Some(RootNotValid); }
      var roots := if state.retiredRoot.None? then [root] else [root, state.retiredRoot.value];

      var all := PlanAll(d, root, unlocked.value, roots, compromised, now, key);
      if all.Err? { return Some(all.error); }
      var planned := all.value;
      hide KeyFor;

      // The plan stands; nothing below can refuse any more.
      WriteRotation(state.switch, compromised, planned, root);
      ThreeScopes(planned, root);
      hide ScopesWritten, RecordCompromised;
      assert issued == PlanRotation(d, pass, compromised, now, key).value;
      refused := None;
    }

    method WriteRotation(switch: Option<Switch>, compromised: set<Scope>, planned: seq<Replacement>, root: Cert)
      requires Valid() && issued == [] && |planned| == 3
      modifies this
      ensures Valid() && start == old(start) && born == old(born)
      ensures issued == RecordCompromised(switch, compromised) + ScopesWritten(planned, root)
    {
      hide ApplyAll, Valid, WriteScope;
      if compromised != {} && switch.Some? {
        var s := switch.value.(compromised := switch.value.compromised + compromised, dropRetiredRoot := true);
        if s != switch.value { Write(PutRecord(s)); }
      }
      ghost var head := RecordCompromised(switch, compromised);
      for i := 0 to |planned|
        invariant Valid() && start == old(start) && born == old(born)
        invariant issued == head + ScopesWritten(planned[..i], root)
      {
        assert planned[..i + 1][..i] == planned[..i];
        WriteScopeFiles(SCOPES[i], planned[i], root);
      }
      assert planned[..3] == planned;
    }

    method StageRoot(pass: Passphrase, now: Time, key: KeyId, ops: nat) returns (refused: Option<Refusal>)
      modifies this
      ensures match PlanStage(old(dir), pass, now, key)
              case Err(e) => refused == Some(e) && dir == old(dir)
              case Ok(plan) => refused == None && dir == ApplyAll(old(dir), plan[..Min(ops, |plan|)])
    {
      Open(ops);
      if pass == NO_PASSPHRASE { return Some(NoNewPassphrase); }
      var loaded := LoadState(dir);
      if loaded.Err? { return Some(Rejected(loaded.error)); }
      if !loaded.value.phase.NoRenewal? { return Some(WrongPhase(loaded.value.phase)); }
      if dir.rootCrt.None? { return Some(Unreadable); }
      var newRoot := BuildRoot(Some(DayOf(now)), now, key);
      if newRoot.subject == dir.rootCrt.value.subject { return Some(SameRootName); }
      Write(PutNextKey(EncKey(key, pass)));
      Write(PutNextCrt(newRoot));
      assert issued == PlanStage(start, pass, now, key).value;
      refused := None;
    }

    method AbortRoot(ops: nat) returns (refused: Option<Refusal>)
      modifies this
      ensures match PlanAbort(old(dir))
              case Err(e) => refused == Some(e) && dir == old(dir)
              case Ok(plan) => refused == None && dir == ApplyAll(old(dir), plan[..Min(ops, |plan|)])
    {
      Open(ops);
      var d := dir;
      if d.record.Some? || d.retired.Some? || d.cross.Some? { return Some(AlreadySwitched); }
      if d.nextCrt.None? && d.nextKey.None? { return Some(NothingStaged); }
      if d.nextCrt.Some? { Write(RemoveNextCrt); }
      if d.nextKey.Some? { Write(RemoveNextKey); }
      assert issued == PlanAbort(d).value;
      refused := None;
    }

    method SwitchToNext(o: SwitchOptions, now: Time, key: KeyId, ops: nat) returns (refused: Option<Refusal>)
      modifies this
      ensures match PlanSwitch(old(dir), o, now, key)
              case Err(e) => refused == Some(e) && dir == old(dir)
              case Ok(plan) => refused == None && dir == ApplyAll(old(dir), plan[..Min(ops, |plan|)])
    {
      hide ApplyAll, WriteScope, PlanCross, MovesPlanned, ChainsPlanned, PlanScope, Moved, IsRoot;
      Open(ops);
      var d := dir;
      if o.compromised != {} && !o.cross { return Some(CompromisedWithoutCross); }
      var loaded := LoadState(d);
      if loaded.Err? { return Some(Rejected(loaded.error)); }
      var state := loaded.value;
      if !state.phase.Staged? && !state.phase.Switching? { return Some(WrongPhase(state.phase)); }
      var switch := Switch(now, o.compromised, o.cross, o.compromised != {});
      if state.switch.Some? {
        if state.switch.value.compromised != o.compromised || state.switch.value.cross != o.cross { return Some(OtherOptions); }
        switch := state.switch.value;
      }
      if !o.cross && d.cross.Some? { return Some(UnexpectedCross); }
      if OldRoot(d).None? || NewRoot(d).None? { return Some(Unreadable); }
      var oldRoot, newRoot := OldRoot(d).value, NewRoot(d).value;
      if newRoot.key == oldRoot.key { return Some(NoNewRoot); }
      if !IsRoot(newRoot) { return Some(NotARoot); }
      var unlocked := Decrypt(d.nextKey, o.nextPass, newRoot);
      if unlocked.Err? { return Some(unlocked.error); }
      if !ValidAt(newRoot, now) { return Some(RootNotValid); }
      var crossed := PlanCross(d, o, newRoot, oldRoot, now);
      if crossed.Err? { return Some(crossed.error); }
      var roots := [newRoot, oldRoot];

      var moves, moved := PlanMoves(d, newRoot, unlocked.value, roots, o.compromised, now, key);
      ThreeMoves(d, newRoot, unlocked.value, roots, o.compromised, now, key);
      if moves.Err? { return Some(moves.error); }

      // The plan stands; nothing below can refuse any more.
      WriteSwitch(d, switch, oldRoot, newRoot, crossed.value, moves.value, moved);
      refused := None;
    }

    method WriteSwitch(d: Dir, switch: Switch, oldRoot: Cert, newRoot: Cert, cross: Option<Cert>, planned: seq<Op>, moved: seq<Op>)
      requires Valid() && issued == [] && d.nextKey.Some?
      modifies this
      ensures Valid() && start == old(start) && born == old(born)
      ensures issued == SwitchHead(d, switch, oldRoot, cross) + planned + moved + SwitchTail(d.nextKey.value, newRoot)
    {
      hide ApplyAll, Valid, SwitchHead;
      WriteSwitchHead(d, switch, oldRoot, cross);
      WriteAll(planned);
      WriteAll(moved);
      ghost var before := issued;
      Write(PutRootKey(d.nextKey.value));
      Write(PutRootCrt(newRoot));
      Write(RemoveNextCrt);
      Write(RemoveNextKey);
      assert issued == before + SwitchTail(d.nextKey.value, newRoot);
    }

    method WriteSwitchHead(d: Dir, switch: Switch, oldRoot: Cert, cross: Option<Cert>)
      requires Valid() && issued == []
      modifies this
      ensures Valid() && start == old(start) && born == old(born) && issued == SwitchHead(d, switch, oldRoot, cross)
    {
      hide ApplyAll, Valid;
      if d.record.None? { Write(PutRecord(switch)); }
      ghost var a := if d.record.None? then [PutRecord(switch)] else [];
      assert issued == a;
      if d.retired.None? { Write(PutRetiredRoot(oldRoot)); }
      ghost var b := if d.retired.None? then [PutRetiredRoot(oldRoot)] else [];
      assert issued == a + b;
      if cross.Some? && d.cross.None? { Write(PutCross(cross.value)); }
    }

    method WriteAll(ops: seq<Op>)
      requires Valid()
      modifies this
      ensures Valid() && start == old(start) && born == old(born) && issued == old(issued) + ops
    {
      for i := 0 to |ops|
        invariant Valid() && start == old(start) && born == old(born) && issued == old(issued) + ops[..i]
      {
        Write(ops[i]);
        assert ops[..i + 1] == ops[..i] + [ops[i]];
      }
      assert ops[..|ops|] == ops;
    }

    method FinishRoot(ops: nat) returns (refused: Option<Refusal>)
      modifies this
      ensures match PlanFinish(old(dir))
              case Err(e) => refused == Some(e) && dir == old(dir)
              case Ok(plan) => refused == None && dir == ApplyAll(old(dir), plan[..Min(ops, |plan|)])
    {
      hide RetiredUnder, ApplyAll, LoadState;
      Open(ops);
      var d := dir;
      var loaded := LoadState(d);
      if loaded.Err? { return Some(Rejected(loaded.error)); }
      var state := loaded.value;
      if !state.phase.Switched? && !state.phase.Finishing? { return Some(WrongPhase(state.phase)); }
      if d.rootCrt.None? { return Some(Unreadable); }
      if d.retired.Some? && d.retired.value.key == d.rootCrt.value.key { return Some(NoNewRoot); }
      var root := d.rootCrt.value;
      var oldRoots := if d.retired.Some? then [d.retired.value] else [];
      var kept := KeepAll(d, root, oldRoots);
      if kept.Err? { return Some(kept.error); }
      WriteFinish(kept.value);
      hide AllKept;
      assert issued == PlanFinish(d).value;
      refused := None;
    }

    method WriteFinish(kept: seq<seq<Cert>>)
      requires Valid() && issued == [] && |kept| == 3
      modifies this
      ensures Valid() && start == old(start) && born == old(born)
      ensures issued == FinishOps(kept)
    {
      hide ApplyAll, Valid;
      for i := 0 to |kept|
        invariant Valid() && start == old(start) && born == old(born) && |issued| == i
        invariant forall j | 0 <= j < i :: issued[j] == PutRetired(SCOPES[j], kept[j])
      {
        Write(PutRetired(SCOPES[i], kept[i]));
      }
      Write(RemoveCross);
      Write(RemoveRetiredRoot);
      Write(RemoveRecord);
      assert SCOPES[0] == Tunnel && SCOPES[1] == Access && SCOPES[2] == Internal;
    }
  }

  function AllPlanned(d: Dir, root: Cert, rootKey: KeyId, roots: seq<Cert>, compromised: set<Scope>, now: Time, key: KeyId)
    : (r: Result<seq<Replacement>, Refusal>)
    ensures r.Ok? ==> |r.value| == 3
  {
    var plan := s => PlanScope(d.Of(s), s, root, rootKey, roots, s in compromised, now, KeyFor(s, key));
    match (plan(Tunnel), plan(Access), plan(Internal))
    case (Ok(t), Ok(a), Ok(i)) => Ok([t, a, i])
    case (Err(e), _, _) => Err(e)
    case (_, Err(e), _) => Err(e)
    case (_, _, Err(e)) => Err(e)
  }

  /** The replacement of every scope, planned before any file changes; the first refusal stands. */
  function FinishOps(kept: seq<seq<Cert>>): seq<Op>
    requires |kept| == 3
  {
    [PutRetired(Tunnel, kept[0]), PutRetired(Access, kept[1]), PutRetired(Internal, kept[2]), RemoveCross, RemoveRetiredRoot, RemoveRecord]
  }

  function AllKept(d: Dir, root: Cert, oldRoots: seq<Cert>): (r: Result<seq<seq<Cert>>, Refusal>)
    ensures r.Ok? ==> |r.value| == 3
  {
    match (RetiredUnder(d.tunnel.Entries(), Tunnel, root, oldRoots), RetiredUnder(d.access.Entries(), Access, root, oldRoots),
           RetiredUnder(d.internal.Entries(), Internal, root, oldRoots))
    case (Ok(t), Ok(a), Ok(i)) => Ok([t, a, i])
    case (Err(e), _, _) => Err(e)
    case (_, Err(e), _) => Err(e)
    case (_, _, Err(e)) => Err(e)
  }

  /** The entries a finish keeps, scope by scope; the first refusal ends it. */
  method KeepAll(d: Dir, root: Cert, oldRoots: seq<Cert>) returns (r: Result<seq<seq<Cert>>, Refusal>)
    ensures r == AllKept(d, root, oldRoots)
  {
    hide RetiredUnder;
    var kept: seq<seq<Cert>> := [];
    assert SCOPES[0] == Tunnel && SCOPES[1] == Access && SCOPES[2] == Internal;
    for i := 0 to |SCOPES|
      invariant |kept| == i
      invariant forall j | 0 <= j < i :: RetiredUnder(d.Of(SCOPES[j]).Entries(), SCOPES[j], root, oldRoots) == Ok(kept[j])
    {
      var one := RetiredUnder(d.Of(SCOPES[i]).Entries(), SCOPES[i], root, oldRoots);
      if one.Err? {
        assert i > 0 ==> RetiredUnder(d.Of(SCOPES[0]).Entries(), SCOPES[0], root, oldRoots).Ok?;
        assert i > 1 ==> RetiredUnder(d.Of(SCOPES[1]).Entries(), SCOPES[1], root, oldRoots).Ok?;
        return Err(one.error);
      }
      kept := kept + [one.value];
    }
    assert RetiredUnder(d.Of(SCOPES[0]).Entries(), SCOPES[0], root, oldRoots) == Ok(kept[0]);
    assert RetiredUnder(d.Of(SCOPES[1]).Entries(), SCOPES[1], root, oldRoots) == Ok(kept[1]);
    assert RetiredUnder(d.Of(SCOPES[2]).Entries(), SCOPES[2], root, oldRoots) == Ok(kept[2]);
    assert kept == [kept[0], kept[1], kept[2]];
    r := Ok(kept);
  }

  method PlanAll(d: Dir, root: Cert, rootKey: KeyId, roots: seq<Cert>, compromised: set<Scope>, now: Time, key: KeyId)
    returns (r: Result<seq<Replacement>, Refusal>)
    ensures r == AllPlanned(d, root, rootKey, roots, compromised, now, key)
  {
    hide PlanScope;
    var planned: seq<Replacement> := [];
    assert SCOPES[0] == Tunnel && SCOPES[1] == Access && SCOPES[2] == Internal;
    for i := 0 to |SCOPES|
      invariant |planned| == i
      invariant forall j | 0 <= j < i ::
                  PlanScope(d.Of(SCOPES[j]), SCOPES[j], root, rootKey, roots, SCOPES[j] in compromised, now, KeyFor(SCOPES[j], key))
                  == Ok(planned[j])
    {
      var s := SCOPES[i];
      var one := PlanScope(d.Of(s), s, root, rootKey, roots, s in compromised, now, KeyFor(s, key));
      if one.Err? {
        assert i > 0 ==> PlanScope(d.Of(SCOPES[0]), SCOPES[0], root, rootKey, roots, SCOPES[0] in compromised, now, KeyFor(SCOPES[0], key)).Ok?;
        assert i > 1 ==> PlanScope(d.Of(SCOPES[1]), SCOPES[1], root, rootKey, roots, SCOPES[1] in compromised, now, KeyFor(SCOPES[1], key)).Ok?;
        return Err(one.error);
      }
      planned := planned + [one.value];
    }
    assert planned == [planned[0], planned[1], planned[2]];
    r := Ok(planned);
  }

  /** The scopes still to move, and the chains of those the stopped run has moved. */
  method PlanMoves(d: Dir, newRoot: Cert, newKey: KeyId, roots: seq<Cert>, compromised: set<Scope>, now: Time, key: KeyId)
    returns (planned: Plan, moved: seq<Op>)
    ensures planned == MovesPlanned(d, 3, newRoot, newKey, roots, compromised, now, key)
    ensures planned.Ok? ==> moved == ChainsPlanned(d, 3, newRoot)
  {
    var ops: seq<Op> := [];
    moved := [];
    for i := 0 to |SCOPES|
      invariant MovesPlanned(d, i, newRoot, newKey, roots, compromised, now, key) == Ok(ops)
      invariant moved == ChainsPlanned(d, i, newRoot)
    {
      var s := SCOPES[i];
      if Moved(d.Of(s), s, newRoot) {
        assert ops + [] == ops;
        moved := moved + [PutChain(s, [d.Of(s).crt.value, newRoot])];
      } else {
        var r := PlanScope(d.Of(s), s, newRoot, newKey, roots, s in compromised, now, KeyFor(s, key));
        if r.Err? {
          ThreeMoves(d, newRoot, newKey, roots, compromised, now, key);
          return Err(r.error), [];
        }
        ops := ops + WriteScope(s, r.value, newRoot);
      }
    }
    planned := Ok(ops);
  }

  // ----- The loops over the scopes, as functions of how far they are -------------------

  function ScopesWritten(planned: seq<Replacement>, root: Cert): seq<Op>
    requires |planned| <= 3
  {
    if planned == [] then []
    else
      var n := |planned| - 1;
      ScopesWritten(planned[..n], root) + WriteScope(SCOPES[n], planned[n], root)
  }

  lemma ThreeScopes(planned: seq<Replacement>, root: Cert)
    requires |planned| == 3
    ensures ScopesWritten(planned, root)
            == WriteScope(Tunnel, planned[0], root) + WriteScope(Access, planned[1], root) + WriteScope(Internal, planned[2], root)
  {
    assert planned[..2][..1] == planned[..1] && planned[..1][..0] == [];
    assert ScopesWritten(planned[..1], root) == WriteScope(Tunnel, planned[0], root);
    assert ScopesWritten(planned[..2], root) == WriteScope(Tunnel, planned[0], root) + WriteScope(Access, planned[1], root);
  }

  function MovesPlanned(d: Dir, n: nat, newRoot: Cert, newKey: KeyId, roots: seq<Cert>, compromised: set<Scope>, now: Time, key: KeyId): Plan
    requires n <= 3
  {
    if n == 0 then Ok([])
    else
      match MovesPlanned(d, n - 1, newRoot, newKey, roots, compromised, now, key)
      case Err(e) => Err(e)
      case Ok(ops) =>
        var s := SCOPES[n - 1];
        match PlanMove(d.Of(s), s, newRoot, newKey, roots, s in compromised, now, KeyFor(s, key))
        case Err(e) => Err(e)
        case Ok(more) => Ok(ops + more)
  }

  function ChainsPlanned(d: Dir, n: nat, newRoot: Cert): seq<Op>
    requires n <= 3
  {
    if n == 0 then [] else ChainsPlanned(d, n - 1, newRoot) + ChainOf(d.Of(SCOPES[n - 1]), SCOPES[n - 1], newRoot)
  }

  lemma ThreeMoves(d: Dir, newRoot: Cert, newKey: KeyId, roots: seq<Cert>, compromised: set<Scope>, now: Time, key: KeyId)
    ensures var move := s => PlanMove(d.Of(s), s, newRoot, newKey, roots, s in compromised, now, KeyFor(s, key));
            MovesPlanned(d, 3, newRoot, newKey, roots, compromised, now, key) ==
            match (move(Tunnel), move(Access), move(Internal))
            case (Ok(t), Ok(a), Ok(i)) => Ok(t + a + i)
            case (Err(e), _, _) => Err(e)
            case (_, Err(e), _) => Err(e)
            case (_, _, Err(e)) => Err(e)
    ensures forall n | 0 <= n < 3 :: MovesPlanned(d, n, newRoot, newKey, roots, compromised, now, key).Err? ==>
              MovesPlanned(d, n + 1, newRoot, newKey, roots, compromised, now, key) == MovesPlanned(d, n, newRoot, newKey, roots, compromised, now, key)
    ensures ChainsPlanned(d, 3, newRoot)
            == ChainOf(d.tunnel, Tunnel, newRoot) + ChainOf(d.access, Access, newRoot) + ChainOf(d.internal, Internal, newRoot)
  {
    hide PlanMove, ChainOf;
    var p := n requires 0 <= n <= 3 => MovesPlanned(d, n, newRoot, newKey, roots, compromised, now, key);
    assert p(0) == Ok([]) && SCOPES[0] == Tunnel && SCOPES[1] == Access && SCOPES[2] == Internal;
    var first := PlanMove(d.Of(Tunnel), Tunnel, newRoot, newKey, roots, Tunnel in compromised, now, KeyFor(Tunnel, key));
    assert first.Ok? ==> [] + first.value == first.value;
    assert p(1) == PlanMove(d.Of(Tunnel), Tunnel, newRoot, newKey, roots, Tunnel in compromised, now, KeyFor(Tunnel, key));
    assert p(2).Err? ==> p(3) == p(2);
    assert ChainsPlanned(d, 1, newRoot) == ChainOf(d.tunnel, Tunnel, newRoot);
    assert ChainsPlanned(d, 2, newRoot) == ChainOf(d.tunnel, Tunnel, newRoot) + ChainOf(d.access, Access, newRoot);
  }
}
