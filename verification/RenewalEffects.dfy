/** What a command leaves on disk, wherever it stops. */
module RenewalEffects {
  import opened Common
  import opened Certificates
  import opened PkiDirectory
  import opened Rotation
  import opened RenewalWorld
  import opened RenewalCommands
  import opened RenewalFinish
  import opened RenewalTheorems
  import opened BootTheorems

  /** The file operations of a command that got done. */
  function Performed(w: World, e: Event): seq<Op> {
    match PlanOf(w.dir, e.cmd, e.now, w.nextKey)
    case Err(_) => []
    case Ok(ops) => if e.cut < |ops| then ops[..e.cut] else ops
  }

  function After(w: World, e: Event): World { Run(w, e.cmd, e.now, e.cut) }

  predicate RanToEnd(w: World, e: Event) {
    TakesEffect(w, e) && e.cut >= |PlanOf(w.dir, e.cmd, e.now, w.nextKey).value|
  }

  lemma RunIsPerformed(w: World, e: Event)
    ensures TakesEffect(w, e) ==> After(w, e).dir == ApplyAll(w.dir, Performed(w, e)) && After(w, e).nextKey == w.nextKey + KEYS_PER_COMMAND
    ensures !TakesEffect(w, e) ==> After(w, e).dir == w.dir && After(w, e).nextKey == w.nextKey && Performed(w, e) == []
  {
    hide PlanOf;
    var w0, plan := Begin(w, e.cmd, e.now), PlanOf(w.dir, e.cmd, e.now, w.nextKey);
    if TakesEffect(w, e) {
      StepAllIsApplyAll(w0, Performed(w, e));
      StepAllKeepsKey(w0, Performed(w, e));
    } else if plan.Ok? {
      assert plan.value[..0] == [];
      if |plan.value| == 0 {
        assert Performed(w, e) == [];
      }
    }
  }

  lemma {:induction false} StepAllKeepsKey(w: World, ops: seq<Op>)
    ensures StepAll(w, ops).nextKey == w.nextKey
    decreases |ops|
  {
    if ops != [] {
      StepAllKeepsKey(Step(w, ops[0]), ops[1..]);
    }
  }

  // ----- Files that stay as they are -----------------------------------------------------

  lemma {:induction false} ScopeOpsOnly(d: Dir, ops: seq<Op>)
    requires forall i | 0 <= i < |ops| :: ScopeOp(ops[i])
    ensures var v := ApplyAll(d, ops); v == d.(tunnel := v.tunnel, access := v.access, internal := v.internal)
    decreases |ops|
  {
    if ops != [] {
      assert ScopeOp(ops[0]);
      assert forall i | 0 <= i < |ops[1..]| :: ops[1..][i] == ops[i + 1];
      ScopeOpsOnly(Apply(d, ops[0]), ops[1..]);
    }
  }

  /** The record a list of operations leaves, if it writes this one or none. */
  predicate OnlyRecord(ops: seq<Op>, rec: Switch) {
    forall i | 0 <= i < |ops| :: !ops[i].RemoveRecord? && (ops[i].PutRecord? ==> ops[i].switch == rec)
  }

  lemma {:induction false} RecordKept(d: Dir, ops: seq<Op>, rec: Switch)
    requires OnlyRecord(ops, rec) && d.record == Some(rec)
    ensures ApplyAll(d, ops).record == Some(rec)
    decreases |ops|
  {
    if ops != [] {
      assert forall i | 0 <= i < |ops[1..]| :: ops[1..][i] == ops[i + 1];
      assert !ops[0].RemoveRecord?;
      RecordKept(Apply(d, ops[0]), ops[1..], rec);
    }
  }

  lemma OnlyRecordAppend(a: seq<Op>, b: seq<Op>, rec: Switch)
    requires OnlyRecord(a, rec) && OnlyRecord(b, rec)
    ensures OnlyRecord(a + b, rec)
  {
  }

  lemma ScopesWriteNoRecord(ops: seq<Op>, rec: Switch)
    requires forall i | 0 <= i < |ops| :: ScopeOp(ops[i])
    ensures OnlyRecord(ops, rec)
  {
  }

  // ----- A rotation ----------------------------------------------------------------------

  /** The record after a rotation has begun to write. */
  function RecordAfterRotation(record: Option<Switch>, compromised: set<Scope>): Option<Switch> {
    if record.None? || compromised == {} then record
    else Some(record.value.(compromised := record.value.compromised + compromised, dropRetiredRoot := true))
  }

  lemma RotationLeaves(w: World, pass: Passphrase, compromised: set<Scope>, now: Time, cut: nat)
    requires TakesEffect(w, Event(Rotate(pass, compromised), now, cut))
    ensures var v := After(w, Event(Rotate(pass, compromised), now, cut)).dir;
            v == w.dir.(record := RecordAfterRotation(w.dir.record, compromised), tunnel := v.tunnel, access := v.access, internal := v.internal)
    ensures LoadState(w.dir).Ok? && !InPhase(w.dir, Switching) && !InPhase(w.dir, Finishing)
  {
    hide PlanRotation, PlanScope, LoadState, Run, GivenUp, Begin, ValidAt;
    var e := Event(Rotate(pass, compromised), now, cut);
    RunIsPerformed(w, e);
    var ops := PlanRotation(w.dir, pass, compromised, now, w.nextKey).value;
    var root, roots, t, a, i := RotationPlan(w.dir, pass, compromised, now, w.nextKey, ops);
    var head, body := RecordCompromised(w.dir.record, compromised), ThreeScopes(root, t, a, i);
    ThreeAreScopes(root, t, a, i);
    hide ThreeScopes;
    var done := Performed(w, e);
    if head == [] {
      assert ops == body;
      ScopeOpsOnly(w.dir, done);
    } else {
      assert done[0] == ops[0] == head[0];
      assert forall k | 0 <= k < |done[1..]| :: done[1..][k] == body[k];
      ScopeOpsOnly(Apply(w.dir, head[0]), done[1..]);
    }
  }

  lemma ThreeAreScopes(root: Cert, t: Replacement, a: Replacement, i: Replacement)
    ensures forall k | 0 <= k < |ThreeScopes(root, t, a, i)| :: ScopeOp(ThreeScopes(root, t, a, i)[k])
    ensures ThreeScopes(root, t, a, i) != []
  {
  }

  // ----- A switch ------------------------------------------------------------------------

  lemma SwitchableUnderway(w: World, o: SwitchOptions, now: Time)
    requires Inv(w) && PlanSwitch(w.dir, o, now, w.nextKey).Ok?
    ensures OldRoot(w.dir).Some? && NewRoot(w.dir).Some? && w.dir.rootKey.Some? && w.dir.nextKey.Some? && OldRoot(w.dir) != NewRoot(w.dir)
    ensures Underway(w.dir, Renewal(OldRoot(w.dir).value, NewRoot(w.dir).value, w.dir.rootKey.value, w.dir.nextKey.value, o))
  {
    hide PlanMove, PlanCross, ScopeInv, GenerationInv;
  }

  lemma SwitchWritesOnlyItsRecord(d: Dir, o: SwitchOptions, now: Time, key: KeyId)
    requires PlanSwitch(d, o, now, key).Ok?
    ensures var ops := PlanSwitch(d, o, now, key).value;
            OnlyRecord(ops, RecordOf(d, o, now)) && (d.record.None? ==> ops != [] && ops[0] == PutRecord(RecordOf(d, o, now)))
  {
    hide PlanSwitch, MoveOf, PlanCross, LoadState, OnlyRecord, RecordOf, SwitchHead, SwitchTail, ChainsOf;
    var ops, rec := PlanSwitch(d, o, now, key).value, RecordOf(d, o, now);
    var p := SwitchPlan(d, o, now, key, ops);
    var head, moves := SwitchHead(d, rec, p.oldRoot, p.cross), p.t + p.a + p.i;
    var chains, tail := ChainsOf(d, p.newRoot), SwitchTail(d.nextKey.value, p.newRoot);
    HeadAndTailRecord(d, rec, p.oldRoot, p.cross, d.nextKey.value, p.newRoot);
    BodyIsScopes(d, o, now, key, p);
    ScopesWriteNoRecord(moves + chains, rec);
    OneBody(head, moves, chains, tail);
    OnlyRecordAppend(head, moves + chains, rec);
    OnlyRecordAppend(head + (moves + chains), tail, rec);
  }

  lemma HeadAndTailRecord(d: Dir, rec: Switch, oldRoot: Cert, cross: Option<Cert>, enc: EncKey, newRoot: Cert)
    ensures OnlyRecord(SwitchHead(d, rec, oldRoot, cross), rec) && OnlyRecord(SwitchTail(enc, newRoot), rec)
    ensures d.record.None? ==> SwitchHead(d, rec, oldRoot, cross) != [] && SwitchHead(d, rec, oldRoot, cross)[0] == PutRecord(rec)
  {
  }

  lemma SwitchLeaves(w: World, o: SwitchOptions, now: Time, cut: nat)
    requires Inv(w) && w.clock <= now && TakesEffect(w, Event(SwitchRoot(o), now, cut))
    ensures var v := After(w, Event(SwitchRoot(o), now, cut)).dir;
            && OldRoot(v) == OldRoot(w.dir) && NewRoot(v) == NewRoot(w.dir) && (v.retired.Some? || v.nextKey.Some?)
            && v.record == Some(RecordOf(w.dir, o, now)) && RecordOf(w.dir, o, now).compromised == o.compromised
    ensures w.dir.nextKey.Some?
  {
    hide PlanSwitch, Inv, Cuts, Run, StaysUnderway, OnlyRecord;
    var e, rec := Event(SwitchRoot(o), now, cut), RecordOf(w.dir, o, now);
    var ops, done := PlanSwitch(w.dir, o, now, w.nextKey).value, Performed(w, e);
    RunIsPerformed(w, e);
    SwitchableUnderway(w, o, now);
    var r := Renewal(OldRoot(w.dir).value, NewRoot(w.dir).value, w.dir.rootKey.value, w.dir.nextKey.value, o);
    SwitchStaysUnderway(w, r, now);
    SwitchRecordMatches(w.dir, r, now, w.nextKey);
    PrefixRecord(w.dir, o, now, w.nextKey, done);
    if cut < |ops| {
      UnderwayAt(w.dir, ops[..|ops| - 1], r, cut);
      assert ops[..|ops| - 1][..cut] == ops[..cut];
    } else {
      SwitchCuts(w, o, now);
      StepAllIsApplyAll(Begin(w, SwitchRoot(o), now), ops);
      DoneRoots(w.dir, ApplyAll(w.dir, ops), o);
    }
  }

  lemma DoneRoots(d: Dir, v: Dir, o: SwitchOptions)
    requires SwitchDone(d, v, o)
    ensures OldRoot(v) == OldRoot(d) && NewRoot(v) == NewRoot(d) && v.retired.Some?
  {
    hide Settled, Coherent;
  }

  lemma PrefixRecord(d: Dir, o: SwitchOptions, now: Time, key: KeyId, done: seq<Op>)
    requires PlanSwitch(d, o, now, key).Ok? && done != [] && done <= PlanSwitch(d, o, now, key).value
    ensures ApplyAll(d, done).record == Some(RecordOf(d, o, now))
  {
    hide PlanSwitch;
    SwitchWritesOnlyItsRecord(d, o, now, key);
    var rec := RecordOf(d, o, now);
    if d.record.None? {
      assert done[0] == PutRecord(rec);
      assert forall i | 0 <= i < |done[1..]| :: done[1..][i] == done[i + 1];
      RecordKept(Apply(d, done[0]), done[1..], rec);
    } else {
      RecordKept(d, done, rec);
    }
  }

  // ----- A finish ------------------------------------------------------------------------

  /** The six operations of a finish, by what it keeps of each scope. */
  lemma FinishPlan(d: Dir, ops: seq<Op>) returns (t: seq<Cert>, a: seq<Cert>, i: seq<Cert>)
    requires PlanFinish(d) == Ok(ops)
    ensures InPhase(d, Switched) || InPhase(d, Finishing)
    ensures d.rootCrt.Some?
    ensures ops == [PutRetired(Tunnel, t), PutRetired(Access, a), PutRetired(Internal, i), RemoveCross, RemoveRetiredRoot, RemoveRecord]
    ensures forall c :: c in t ==> c in d.tunnel.Entries() && SignedBy(c, d.rootCrt.value)
    ensures forall c :: c in a ==> c in d.access.Entries() && SignedBy(c, d.rootCrt.value)
    ensures forall c :: c in i ==> c in d.internal.Entries() && SignedBy(c, d.rootCrt.value)
  {
    var root := d.rootCrt.value;
    var oldRoots := if d.retired.Some? then [d.retired.value] else [];
    t := RetiredUnder(d.tunnel.Entries(), Tunnel, root, oldRoots).value;
    a := RetiredUnder(d.access.Entries(), Access, root, oldRoots).value;
    i := RetiredUnder(d.internal.Entries(), Internal, root, oldRoots).value;
  }

  /** The directory after each operation of a finish. */
  function FinishedUpTo(d: Dir, t: seq<Cert>, a: seq<Cert>, i: seq<Cert>, n: nat): Dir {
    var d1 := if n >= 1 then d.(tunnel := d.tunnel.(retired := Some(t))) else d;
    var d2 := if n >= 2 then d1.(access := d.access.(retired := Some(a))) else d1;
    var d3 := if n >= 3 then d2.(internal := d.internal.(retired := Some(i))) else d2;
    var d4 := if n >= 4 then d3.(cross := None) else d3;
    var d5 := if n >= 5 then d4.(retired := None) else d4;
    if n >= 6 then d5.(record := None) else d5
  }

  lemma FinishLeaves(w: World, now: Time, cut: nat) returns (t: seq<Cert>, a: seq<Cert>, i: seq<Cert>)
    requires TakesEffect(w, Event(Finish, now, cut))
    ensures After(w, Event(Finish, now, cut)).dir == FinishedUpTo(w.dir, t, a, i, cut)
    ensures InPhase(w.dir, Switched) || InPhase(w.dir, Finishing)
    ensures w.dir.rootCrt.Some?
    ensures forall c :: c in t ==> c in w.dir.tunnel.Entries() && SignedBy(c, w.dir.rootCrt.value)
    ensures forall c :: c in a ==> c in w.dir.access.Entries() && SignedBy(c, w.dir.rootCrt.value)
    ensures forall c :: c in i ==> c in w.dir.internal.Entries() && SignedBy(c, w.dir.rootCrt.value)
    ensures PlanFinish(w.dir).Ok? && |PlanFinish(w.dir).value| == 6
    ensures forall op :: op in Performed(w, Event(Finish, now, cut)) ==> !op.PutCrt?
  {
    hide PlanFinish, Run, LoadState;
    var e := Event(Finish, now, cut);
    RunIsPerformed(w, e);
    var ops := PlanFinish(w.dir).value;
    t, a, i := FinishPlan(w.dir, ops);
    AppliedUpTo(w.dir, ops, t, a, i, if cut < 6 then cut else 6);
    assert ops[..6] == ops;
  }

  lemma {:induction false} AppliedUpTo(d: Dir, ops: seq<Op>, t: seq<Cert>, a: seq<Cert>, i: seq<Cert>, n: nat)
    requires ops == [PutRetired(Tunnel, t), PutRetired(Access, a), PutRetired(Internal, i), RemoveCross, RemoveRetiredRoot, RemoveRecord] && n <= 6
    ensures ApplyAll(d, ops[..n]) == FinishedUpTo(d, t, a, i, n)
  {
    if n > 0 {
      AppliedUpTo(d, ops, t, a, i, n - 1);
      assert ops[..n] == ops[..n - 1] + [ops[n - 1]];
      ApplyAllAppend(d, ops[..n - 1], [ops[n - 1]]);
      ApplyOne(ApplyAll(d, ops[..n - 1]), ops[n - 1]);
    }
  }

  // ----- A stage, an abort ---------------------------------------------------------------

  lemma StagingLeaves(w: World, e: Event)
    requires TakesEffect(w, e) && (e.cmd.Stage? || e.cmd.Abort?) && Inv(w)
    ensures var v := After(w, e).dir;
            v == w.dir.(nextCrt := v.nextCrt, nextKey := v.nextKey) && w.dir.record.None? && w.dir.retired.None?
    ensures forall op :: op in Performed(w, e) ==> !op.PutCrt? && !op.PutRetired?
  {
    hide Run, BuildRoot;
    RunIsPerformed(w, e);
    var ops := PlanOf(w.dir, e.cmd, e.now, w.nextKey).value;
    assert forall i | 0 <= i < |ops| :: NextOp(ops[i]);
    assert w.dir.record.None? && w.dir.retired.None?;
    hide PlanOf, Inv;
    assert forall i | 0 <= i < |Performed(w, e)| :: NextOp(Performed(w, e)[i]);
    NextOpsOnly(w.dir, Performed(w, e));
  }

  predicate NextOp(op: Op) { op.PutNextKey? || op.PutNextCrt? || op.RemoveNextCrt? || op.RemoveNextKey? }

  lemma {:induction false} NextOpsOnly(d: Dir, ops: seq<Op>)
    requires forall i | 0 <= i < |ops| :: NextOp(ops[i])
    ensures var v := ApplyAll(d, ops); v == d.(nextCrt := v.nextCrt, nextKey := v.nextKey)
    decreases |ops|
  {
    if ops != [] {
      assert NextOp(ops[0]);
      assert forall i | 0 <= i < |ops[1..]| :: ops[1..][i] == ops[i + 1];
      NextOpsOnly(Apply(d, ops[0]), ops[1..]);
    }
  }
}
