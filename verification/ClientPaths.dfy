/**
What the gateway presents after each start, and which clients can build a certification
path to it (section 6.1 of RFC 5280, with the path length of section 4.2.1.9).
*/
module ClientPaths {
  import opened Common
  import opened Certificates
  import opened PkiDirectory
  import opened Rotation
  import opened RenewalWorld
  import opened RenewalTheorems
  import opened IssuerBoot
  import opened BootTheorems
  import RenewalFinish

  // ----- Path validation ---------------------------------------------------------------

  predicate SelfIssued(c: Cert) { c.subject == c.issuer }

  /** max_path_length after a CA certificate of the path. */
  function PathLengthAfter(c: Cert, max: nat): nat
    requires SelfIssued(c) || max > 0
  {
    var left := if SelfIssued(c) then max else max - 1;
    if c.pathLen.Some? && c.pathLen.value < left then c.pathLen.value else left
  }

  predicate PathFrom(issuer: Cert, path: seq<Cert>, now: Time, max: nat)
    decreases |path|
  {
    && path != []
    && SignedBy(path[0], issuer) && path[0].nb <= now <= path[0].na
    && (|path| > 1 ==>
          && path[0].ca && (SelfIssued(path[0]) || max > 0)
          && PathFrom(path[0], path[1..], now, PathLengthAfter(path[0], max)))
  }

  predicate ValidPath(anchor: Cert, path: seq<Cert>, now: Time) {
    PathFrom(anchor, path, now, |path|)
  }

  /** A client that trusts `anchors` reaches a server presenting `presented`, its leaf first. */
  ghost predicate Reaches(anchors: seq<Cert>, presented: seq<Cert>, now: Time) {
    && presented != []
    && exists anchor, path ::
         && anchor in anchors && path != [] && path[|path| - 1] == presented[0]
         && (forall c :: c in path ==> c in presented)
         && ValidPath(anchor, path, now)
  }

  // ----- The gateway -------------------------------------------------------------------

  /** What follows the leaf: after a switch the cross certificate takes the root's place. */
  function AfterLeaf(inter: Intermediate, sendRoot: bool): seq<Cert> {
    if inter.cross.None? || inter.oldRoot.None? then (if sendRoot then [inter.cert, inter.root] else [inter.cert])
    else [inter.cert, inter.cross.value] + (if sendRoot then [inter.oldRoot.value] else [])
  }

  datatype ServerFiles = ServerFiles(fullchain: seq<Cert>, key: Option<KeyId>)

  /** A leaf past half its life is minted anew on the next start. */
  predicate NeedsRemint(leaf: Cert, now: Time) {
    leaf.na <= leaf.nb || 2 * (now - leaf.nb) >= leaf.na - leaf.nb
  }

  predicate KeepsLeaf(files: ServerFiles, inter: Intermediate, domain: string, presented: seq<Cert>, now: Time) {
    && files.fullchain != [] && files.key.Some?
    && var leaf := files.fullchain[0];
       && !NeedsRemint(leaf, now)
       && files.key.value == leaf.key
       && SignedBy(leaf, inter.cert)
       && files.fullchain[1..] == presented
       && leaf.subject == LeafName(domain, None)
  }

  /** _provision_server_material: the leaf is kept or minted anew under the current intermediate. */
  function Provision(files: ServerFiles, inter: Intermediate, domain: string, sendRoot: bool, now: Time, key: KeyId)
    : Result<ServerFiles, Lapse>
  {
    var presented := AfterLeaf(inter, sendRoot);
    if KeepsLeaf(files, inter, domain, presented, now) then Ok(files)
    else
      match SignLeaf(LeafName(domain, None), key, inter.cert, inter.key, LEAF_GATEWAY, now)
      case Err(e) => Err(e)
      case Ok(leaf) => Ok(ServerFiles([leaf] + presented, Some(key)))
  }

  /** A leaf provisioned before carries a start in the past: the clock does not go back. */
  predicate FromThePast(files: ServerFiles, now: Time) {
    files.fullchain != [] ==> files.fullchain[0].nb <= now
  }

  lemma ProvisionedLeaf(files: ServerFiles, inter: Intermediate, domain: string, sendRoot: bool, now: Time, key: KeyId)
    requires FromThePast(files, now) && inter.key == inter.cert.key && ValidAt(inter.cert, now) && inter.cert.na % SECOND == 0
    ensures var r := Provision(files, inter, domain, sendRoot, now, key);
            && r.Ok? && r.value.fullchain != []
            && r.value.fullchain[1..] == AfterLeaf(inter, sendRoot)
            && SignedBy(r.value.fullchain[0], inter.cert)
            && r.value.fullchain[0].nb <= now <= r.value.fullchain[0].na
            && r.value.fullchain[0].subject == LeafName(domain, None) && r.value.key == Some(r.value.fullchain[0].key)
    // What lies there stays exactly if it fits and has more than half its life ahead, or is what would be minted.
    ensures files.fullchain != [] ==>
              var leaf := files.fullchain[0];
              (Provision(files, inter, domain, sendRoot, now, key).value == files <==>
                 || (leaf.na - now > now - leaf.nb && leaf.subject == LeafName(domain, None) && SignedBy(leaf, inter.cert)
                     && files.key == Some(leaf.key) && files.fullchain[1..] == AfterLeaf(inter, sendRoot))
                 || files == Provision(ServerFiles([], None), inter, domain, sendRoot, now, key).value)
  {
    if !KeepsLeaf(files, inter, domain, AfterLeaf(inter, sendRoot), now) {
      SignedLeafNests(LeafName(domain, None), key, inter.cert, inter.key, LEAF_GATEWAY, now);
    }
  }

  // ----- Which clients reach it --------------------------------------------------------

  lemma BootedAccess(w: World, now: Time)
    requires Inv(w) && w.clock <= now && Boot(w.dir, now).Ok?
    ensures w.dir.rootCrt.Some?
    ensures var inter := Boot(w.dir, now).value.access;
            && inter.key == inter.cert.key && ValidAt(inter.cert, now) && inter.cert.na % SECOND == 0
            && IsIntermediate(inter.cert, Access, w.dir.rootCrt.value) && inter.root == w.dir.rootCrt.value
            && inter.roots != [] && inter.roots[|inter.roots| - 1] == w.dir.rootCrt.value
            && (InPhase(w.dir, Staged) ==> w.dir.nextCrt.Some? && w.dir.nextCrt.value in inter.roots)
            && (InPhase(w.dir, Switched) && now < w.dir.retired.value.na ==>
                  inter.cross == w.dir.cross && inter.oldRoot == w.dir.retired)
  {
    BootedScope(w.dir, now, Access);
    assert ScopeInv(w.dir.Of(Access), Access, OldRoot(w.dir).value, NewRoot(w.dir).value, w.clock);
    hide Inv, UnderEither, ProperRoot;
  }

  /** A client that trusts root.crt reaches the gateway after every start. */
  lemma RootHolderReaches(w: World, anchors: seq<Cert>, files: ServerFiles, domain: string, now: Time, key: KeyId)
    requires Inv(w) && w.clock <= now && Boot(w.dir, now).Ok? && FromThePast(files, now)
    requires w.dir.rootCrt.value in anchors
    ensures var r := Provision(files, Boot(w.dir, now).value.access, domain, true, now, key);
            r.Ok? && Reaches(anchors, r.value.fullchain, now)
  {
    hide Inv, Boot, Provision;
    BootedAccess(w, now);
    var inter, root := Boot(w.dir, now).value.access, w.dir.rootCrt.value;
    ProvisionedLeaf(files, inter, domain, true, now, key);
    var chain := Provision(files, inter, domain, true, now, key).value.fullchain;
    var path := [inter.cert, chain[0]];
    assert inter.cert == chain[1..][0] == chain[1];
    assert path[1..] == [chain[0]];
    assert PathFrom(inter.cert, path[1..], now, 0);
    assert PathFrom(root, path, now, 2);
    assert ValidPath(root, path, now);
    assert forall c :: c in path ==> c in chain;
  }

  /** Over X, a client that trusts only the old root reaches the gateway until that root ends. */
  lemma OldRootHolderReaches(w: World, anchors: seq<Cert>, files: ServerFiles, domain: string, now: Time, key: KeyId)
    requires Inv(w) && w.clock <= now && Boot(w.dir, now).Ok? && FromThePast(files, now)
    requires InPhase(w.dir, Switched) && w.dir.cross.Some? && now < w.dir.retired.value.na
    requires w.dir.retired.value in anchors
    ensures var r := Provision(files, Boot(w.dir, now).value.access, domain, true, now, key);
            r.Ok? && Reaches(anchors, r.value.fullchain, now)
  {
    hide Inv, Boot, Provision;
    BootedAccess(w, now);
    CrossIsProper(w);
    var inter, oldRoot, x := Boot(w.dir, now).value.access, w.dir.retired.value, w.dir.cross.value;
    ProvisionedLeaf(files, inter, domain, true, now, key);
    var chain := Provision(files, inter, domain, true, now, key).value.fullchain;
    var path := [x, inter.cert, chain[0]];
    assert AfterLeaf(inter, true) == [inter.cert, x, oldRoot];
    assert inter.cert == chain[1..][0] == chain[1] && x == chain[1..][1] == chain[2];
    assert path[1..] == [inter.cert, chain[0]] && path[1..][1..] == [chain[0]];
    assert PathFrom(inter.cert, path[1..][1..], now, 0);
    assert PathFrom(x, path[1..], now, 1);
    assert PathFrom(oldRoot, path, now, 3);
    assert ValidPath(oldRoot, path, now);
    assert forall c :: c in path ==> c in chain;
  }

  lemma CrossIsProper(w: World)
    requires Inv(w) && InPhase(w.dir, Switched) && w.dir.cross.Some?
    ensures ProperCross(w.dir.cross.value, w.dir.rootCrt.value, w.dir.retired.value, w.clock)
    ensures w.dir.rootCrt.value.subject != w.dir.retired.value.subject
  {
  }

  // ----- Over whole runs ---------------------------------------------------------------

  lemma {:induction false} StepsKeepRoots(w: World, ops: seq<Op>)
    ensures w.roots <= StepAll(w, ops).roots
    decreases |ops|
  {
    if ops != [] {
      StepsKeepRoots(Step(w, ops[0]), ops[1..]);
    }
  }

  lemma RunKeepsRoots(w: World, cmd: Command, now: Time, cut: nat)
    ensures w.roots <= Run(w, cmd, now, cut).roots
  {
    var plan := PlanOf(w.dir, cmd, now, w.nextKey);
    if plan.Ok? {
      StepsKeepRoots(Begin(w, cmd, now), plan.value);
      if cut < |plan.value| {
        StepsKeepRoots(Begin(w, cmd, now), plan.value[..cut]);
      }
    }
  }

  /** No root ever returns to root.crt: every one it held has a key of its own. */
  lemma RootsNeverReturn(w: World, i: nat, j: nat)
    requires Inv(w) && i < j < |w.roots|
    ensures w.roots[i] != w.roots[j] && w.roots[i].key != w.roots[j].key
  {
  }

  /** `newRoot` is staged as the root number n, or was switched to as such. */
  predicate Coming(w: World, newRoot: Cert, n: nat) {
    || (|w.roots| == n && w.dir.nextCrt == Some(newRoot) && w.dir.rootCrt != Some(newRoot))
    || (|w.roots| > n && w.roots[n] == newRoot)
  }

  lemma {:induction false} StepsAppendOnly(w: World, ops: seq<Op>, newRoot: Cert)
    requires forall i | 0 <= i < |ops| :: ops[i].PutRootCrt? ==> ops[i].cert == newRoot
    requires w.roots != []
    ensures StepAll(w, ops).roots == w.roots || StepAll(w, ops).roots == w.roots + [newRoot]
    ensures w.roots[|w.roots| - 1] == newRoot ==> StepAll(w, ops).roots == w.roots
    decreases |ops|
  {
    if ops != [] {
      assert forall i | 0 <= i < |ops[1..]| :: ops[1..][i] == ops[i + 1];
      StepsAppendOnly(Step(w, ops[0]), ops[1..], newRoot);
    }
  }

  /** No root but this one goes into root.crt. */
  predicate OnlyRoot(ops: seq<Op>, newRoot: Cert) { forall i | 0 <= i < |ops| :: ops[i].PutRootCrt? ==> ops[i].cert == newRoot }

  lemma OnlyRootAppend(a: seq<Op>, b: seq<Op>, newRoot: Cert)
    requires OnlyRoot(a, newRoot) && OnlyRoot(b, newRoot)
    ensures OnlyRoot(a + b, newRoot)
  {
  }

  lemma SwitchWritesOnlyItsRoot(d: Dir, o: SwitchOptions, now: Time, key: KeyId, newRoot: Cert)
    requires PlanSwitch(d, o, now, key).Ok? && NewRoot(d) == Some(newRoot)
    ensures OnlyRoot(PlanSwitch(d, o, now, key).value, newRoot)
  {
    hide PlanSwitch, RenewalFinish.MoveOf, PlanCross, LoadState, OnlyRoot, RenewalFinish.RecordOf, SwitchHead, SwitchTail;
    var ops := PlanSwitch(d, o, now, key).value;
    var p := RenewalFinish.SwitchPlan(d, o, now, key, ops);
    var head, moves := SwitchHead(d, RenewalFinish.RecordOf(d, o, now), p.oldRoot, p.cross), p.t + p.a + p.i;
    var chains, tail := RenewalFinish.ChainsOf(d, p.newRoot), SwitchTail(d.nextKey.value, p.newRoot);
    HeadAndTailRoots(d, RenewalFinish.RecordOf(d, o, now), p.oldRoot, p.cross, newRoot);
    BodyIsScopes(d, o, now, key, p);
    ScopesWriteNoRoot(moves + chains, newRoot);
    OneBody(head, moves, chains, tail);
    OnlyRootAppend(head, moves + chains, newRoot);
    OnlyRootAppend(head + (moves + chains), tail, newRoot);
  }

  lemma ScopesWriteNoRoot(ops: seq<Op>, newRoot: Cert)
    requires forall i | 0 <= i < |ops| :: ScopeOp(ops[i])
    ensures OnlyRoot(ops, newRoot)
  {
  }

  lemma HeadAndTailRoots(d: Dir, switch: Switch, oldRoot: Cert, cross: Option<Cert>, newRoot: Cert)
    ensures OnlyRoot(SwitchHead(d, switch, oldRoot, cross), newRoot)
    ensures forall enc :: OnlyRoot(SwitchTail(enc, newRoot), newRoot)
  {
  }

  lemma SwitchingStaysComing(w: World, o: SwitchOptions, now: Time, cut: nat, newRoot: Cert)
    requires Inv(w) && w.clock <= now && w.dir.nextCrt == Some(newRoot) && w.dir.rootCrt != Some(newRoot)
    ensures Coming(Run(w, SwitchRoot(o), now, cut), newRoot, |w.roots|)
  {
    hide Inv, PlanSwitch, StepAll;
    var plan := PlanSwitch(w.dir, o, now, w.nextKey);
    if plan.Ok? && cut > 0 {
      var w0 := Begin(w, SwitchRoot(o), now);
      var k := if cut < |plan.value| then cut else |plan.value|;
      var ops := plan.value[..k];
      assert plan.value[..|plan.value|] == plan.value;
      var v := StepAll(w0, ops);
      SwitchWritesOnlyItsRoot(w.dir, o, now, w.nextKey, newRoot);
      LastRoot(w);
      StepsAppendOnly(w0, ops, newRoot);
      SwitchKeepsNewRoot(w, o, now, k, newRoot);
      RunKeepsInv(w, SwitchRoot(o), now, cut);
      LastRoot(Run(w, SwitchRoot(o), now, cut));
      StepAllIsApplyAll(w0, ops);
      assert NewRoot(v.dir) == Some(newRoot);
      assert Run(w, SwitchRoot(o), now, cut).dir == v.dir && Run(w, SwitchRoot(o), now, cut).roots == v.roots;
    }
  }

  lemma SwitchKeepsNewRoot(w: World, o: SwitchOptions, now: Time, k: nat, newRoot: Cert)
    requires Inv(w) && w.clock <= now && w.dir.nextCrt == Some(newRoot)
    requires PlanSwitch(w.dir, o, now, w.nextKey).Ok? && k <= |PlanSwitch(w.dir, o, now, w.nextKey).value|
    ensures NewRoot(ApplyAll(w.dir, PlanSwitch(w.dir, o, now, w.nextKey).value[..k])) == Some(newRoot)
  {
    hide PlanSwitch;
    SwitchableIsUnderway(w, o, now);
    var r := Renewal(OldRoot(w.dir).value, newRoot, w.dir.rootKey.value, w.dir.nextKey.value, o);
    var ops := PlanSwitch(w.dir, o, now, w.nextKey).value;
    SwitchStaysUnderway(w, r, now);
    if k < |ops| {
      UnderwayAt(w.dir, ops[..|ops| - 1], r, k);
      assert ops[..|ops| - 1][..k] == ops[..k];
    } else {
      SwitchedRoot(w, o, now);
      assert ops[..k] == ops;
    }
  }

  lemma SwitchableIsUnderway(w: World, o: SwitchOptions, now: Time)
    requires Inv(w) && w.dir.nextCrt.Some? && PlanSwitch(w.dir, o, now, w.nextKey).Ok?
    ensures OldRoot(w.dir).Some? && w.dir.rootKey.Some? && w.dir.nextKey.Some? && OldRoot(w.dir) != w.dir.nextCrt
    ensures Underway(w.dir, Renewal(OldRoot(w.dir).value, w.dir.nextCrt.value, w.dir.rootKey.value, w.dir.nextKey.value, o))
  {
    hide PlanSwitchOf;
  }

  lemma SwitchedRoot(w: World, o: SwitchOptions, now: Time)
    requires Inv(w) && w.clock <= now && PlanSwitch(w.dir, o, now, w.nextKey).Ok?
    ensures NewRoot(ApplyAll(w.dir, PlanSwitch(w.dir, o, now, w.nextKey).value)) == NewRoot(w.dir)
  {
    hide Inv, PlanSwitch, Cuts;
    RenewalFinish.SwitchCuts(w, o, now);
    StepAllIsApplyAll(Begin(w, SwitchRoot(o), now), PlanSwitch(w.dir, o, now, w.nextKey).value);
  }

  lemma RunStaysComing(w: World, cmd: Command, now: Time, cut: nat, newRoot: Cert, n: nat)
    requires Inv(w) && w.clock <= now && Coming(w, newRoot, n)
    requires |w.roots| == n && TakesEffect(w, Event(cmd, now, cut)) ==> !cmd.Abort?
    ensures Coming(Run(w, cmd, now, cut), newRoot, n)
  {
    hide PlanScope, RetiredUnder, WriteScope;
    RunKeepsRoots(w, cmd, now, cut);
    if |w.roots| == n {
      match cmd {
        case SwitchRoot(o) => SwitchingStaysComing(w, o, now, cut, newRoot);
        case Rotate(pass, compromised) => RotationStaysComing(w, pass, compromised, now, cut);
        case _ =>
      }
    }
  }

  lemma RotationStaysComing(w: World, pass: Passphrase, compromised: set<Scope>, now: Time, cut: nat)
    requires w.roots != []
    ensures var v := Run(w, Rotate(pass, compromised), now, cut);
            v.roots == w.roots && v.dir.nextCrt == w.dir.nextCrt && v.dir.rootCrt == w.dir.rootCrt
  {
    hide PlanScope, WriteScope;
    var plan := PlanRotation(w.dir, pass, compromised, now, w.nextKey);
    if plan.Ok? && cut > 0 {
      var w0 := Begin(w, Rotate(pass, compromised), now);
      var ops := plan.value[..if cut < |plan.value| then cut else |plan.value|];
      assert plan.value[..|plan.value|] == plan.value;
      RotationOps(w.dir, pass, compromised, now, w.nextKey);
      StepAllIsApplyAll(w0, ops);
      RotationKeepsPhaseFiles(w.dir, ops);
      StepsAppendOnly(w0, ops, w.roots[|w.roots| - 1]);
    }
  }

  /** No abort takes effect while root.crt has held no more than n roots: the one to come is not given up. */
  predicate NotAborted(w: World, events: seq<Event>, n: nat)
    decreases |events|
  {
    events == []
    || (&& (|w.roots| == n && TakesEffect(w, events[0]) ==> !events[0].cmd.Abort?)
        && NotAborted(Run(w, events[0].cmd, events[0].now, events[0].cut), events[1..], n))
  }

  lemma {:induction false} RunAllStaysComing(w: World, events: seq<Event>, newRoot: Cert, n: nat)
    requires Inv(w) && Monotone(w.clock, events) && Coming(w, newRoot, n) && NotAborted(w, events, n)
    ensures Coming(RunAll(w, events), newRoot, n)
    decreases |events|
  {
    hide Inv, Run, Coming;
    if events != [] {
      var e := events[0];
      RunKeepsInv(w, e.cmd, e.now, e.cut);
      RunStaysComing(w, e.cmd, e.now, e.cut, newRoot, n);
      RunAllStaysComing(Run(w, e.cmd, e.now, e.cut), events[1..], newRoot, n);
    }
  }

  lemma {:induction false} RunAllKeepsRoots(w: World, events: seq<Event>)
    ensures w.roots <= RunAll(w, events).roots
    decreases |events|
  {
    hide Run;
    if events != [] {
      var e := events[0];
      RunKeepsRoots(w, e.cmd, e.now, e.cut);
      RunAllKeepsRoots(Run(w, e.cmd, e.now, e.cut), events[1..]);
    }
  }

  /** How many further roots a `chain` handed out at this start already covers. */
  function Ahead(d: Dir): nat { if InPhase(d, Staged) then 1 else 0 }

  /**
  A client holding the roots of a `chain` handed out at any start reaches the gateway at
  every later start up to the next switch, or, handed out with a new root staged, through
  the switch to that root, the finish and everything after it up to the switch after, as
  long as that staged root is not aborted. Aborts of other renewals make no difference.
  */
  lemma ChainHolderReaches(w: World, events: seq<Event>, handed: Time, files: ServerFiles, domain: string, now: Time, key: KeyId)
    requires Inv(w) && w.clock <= handed && Boot(w.dir, handed).Ok?
    requires Monotone(w.clock, events) && (InPhase(w.dir, Staged) ==> NotAborted(w, events, |w.roots|))
    requires var v := RunAll(w, events);
             && v.clock <= now && Boot(v.dir, now).Ok? && FromThePast(files, now)
             && |v.roots| <= |w.roots| + Ahead(w.dir)
    ensures var v := RunAll(w, events);
            var r := Provision(files, Boot(v.dir, now).value.access, domain, true, now, key);
            r.Ok? && Reaches(Boot(w.dir, handed).value.access.roots, r.value.fullchain, now)
  {
    hide Inv, Run, Boot, Provision, Reaches;
    var v := RunAll(w, events);
    RunAllKeepsInv(w, events);
    RunAllKeepsRoots(w, events);
    BootedAccess(w, handed);
    LastRoot(w);
    LastRoot(v);
    if InPhase(w.dir, Staged) {
      StagedIsComing(w);
      RunAllStaysComing(w, events, w.dir.nextCrt.value, |w.roots|);
    }
    RootHolderReaches(v, Boot(w.dir, handed).value.access.roots, files, domain, now, key);
  }

  lemma StagedIsComing(w: World)
    requires Inv(w) && InPhase(w.dir, Staged)
    ensures w.dir.nextCrt.Some? && Coming(w, w.dir.nextCrt.value, |w.roots|)
  {
  }

  lemma LastRoot(w: World)
    requires Inv(w)
    ensures w.roots != [] && w.dir.rootCrt == Some(w.roots[|w.roots| - 1])
  {
  }

  /**
  A client that holds nothing but the root of some start reaches the gateway at every later
  start up to the finish of the next renewal, while that root is valid and X was made.
  */
  lemma OldClientReaches(w: World, events: seq<Event>, files: ServerFiles, domain: string, now: Time, key: KeyId)
    requires Inv(w) && Monotone(w.clock, events)
    requires var v := RunAll(w, events);
             && v.clock <= now && Boot(v.dir, now).Ok? && FromThePast(files, now)
             && (|v.roots| == |w.roots| ||
                 (|v.roots| == |w.roots| + 1 && InPhase(v.dir, Switched) && v.dir.cross.Some? && now < w.dir.rootCrt.value.na))
    ensures var v := RunAll(w, events);
            var r := Provision(files, Boot(v.dir, now).value.access, domain, true, now, key);
            r.Ok? && Reaches([w.dir.rootCrt.value], r.value.fullchain, now)
  {
    hide Inv, Run, Boot, Provision, Reaches;
    var v := RunAll(w, events);
    RunAllKeepsInv(w, events);
    RunAllKeepsRoots(w, events);
    LastRoot(w);
    LastRoot(v);
    if |v.roots| == |w.roots| {
      RootHolderReaches(v, [w.dir.rootCrt.value], files, domain, now, key);
    } else {
      RetiredIsPrevious(v);
      assert v.dir.retired == Some(w.roots[|w.roots| - 1]);
      OldRootHolderReaches(v, [w.dir.rootCrt.value], files, domain, now, key);
    }
  }

  lemma RetiredIsPrevious(w: World)
    requires Inv(w) && InPhase(w.dir, Switched)
    ensures |w.roots| >= 2 && w.dir.retired == Some(w.roots[|w.roots| - 2])
  {
  }
}
