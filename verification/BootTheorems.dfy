/** What a start trusts, over every run of rotations and root renewals. */
module BootTheorems {
  import opened Common
  import opened Certificates
  import opened PkiDirectory
  import opened Rotation
  import opened RenewalWorld
  import opened RenewalTheorems
  import opened IssuerBoot

  /** root.crt, the intermediates in use and a staged root are within their validity. */
  predicate CertificatesValid(d: Dir, now: Time) {
    && d.rootCrt.Some? && ValidAt(d.rootCrt.value, now)
    && (forall s :: d.Of(s).crt.Some? && ValidAt(d.Of(s).crt.value, now))
    && (d.nextCrt.Some? ==> ValidAt(d.nextCrt.value, now))
  }

  /**
  Once the last rotation or switch ran to its end, the boot accepts the directory in phase
  none, staged and switched, for as long as its certificates are valid.
  */
  lemma BootAccepts(w: World, now: Time)
    requires Inv(w) && w.ended && w.clock <= now && CertificatesValid(w.dir, now)
    requires InPhase(w.dir, NoRenewal) || InPhase(w.dir, Staged) || InPhase(w.dir, Switched)
    ensures Boot(w.dir, now).Ok?
  {
    TrustLoads(w, now);
    hide Inv, RenewalTrust, SignersOf, LoadState, LoadScope, Boot;
    var d, root, state := w.dir, w.dir.rootCrt.value, LoadState(w.dir).value;
    var trust := RenewalTrust(state, root, now).value;
    forall s ensures ScopeOpens(d, s, state, trust, now) {
      ScopeLoads(w, s);
      ScopeIsLoaded(d.Of(s), s, root, SignersOf(state, s, root, trust), trust, now);
    }
    BootOpens(d, state, trust, now);
  }

  predicate ScopeOpens(d: Dir, s: Scope, state: State, trust: Trust, now: Time) {
    && d.rootCrt.Some? && d.Of(s).crt.Some? && d.Of(s).key.Some? && d.Of(s).chain.Some?
    && LoadScope(d.Of(s), s, d.rootCrt.value, SignersOf(state, s, d.rootCrt.value, trust), trust, now).Ok?
  }

  lemma ScopeIsLoaded(f: ScopeFiles, s: Scope, root: Cert, signers: seq<Cert>, trust: Trust, now: Time)
    requires f.crt.Some? && f.key == Some(f.crt.value.key) && f.chain == Some([f.crt.value, root])
    requires IsIntermediate(f.crt.value, s, root) && ValidAt(f.crt.value, now)
    ensures LoadScope(f, s, root, signers, trust, now).Ok?
  {
    hide Loadable, IsIntermediate;
  }

  lemma BootOpens(d: Dir, state: State, trust: Trust, now: Time)
    requires d.rootCrt.Some? && d.rootKey.Some? && SignedBy(d.rootCrt.value, d.rootCrt.value) && ValidAt(d.rootCrt.value, now)
    requires LoadState(d) == Ok(state) && !state.phase.Switching? && !state.phase.Finishing?
    requires RenewalTrust(state, d.rootCrt.value, now) == Ok(trust) && forall s :: ScopeOpens(d, s, state, trust, now)
    ensures Boot(d, now).Ok?
  {
    hide LoadScope, LoadState, RenewalTrust, SignersOf, SignedBy;
    assert ScopeOpens(d, Tunnel, state, trust, now) && ScopeOpens(d, Access, state, trust, now) && ScopeOpens(d, Internal, state, trust, now);
  }

  lemma TrustLoads(w: World, now: Time)
    requires Inv(w) && w.clock <= now && CertificatesValid(w.dir, now)
    requires InPhase(w.dir, NoRenewal) || InPhase(w.dir, Staged) || InPhase(w.dir, Switched)
    ensures w.dir.rootCrt.Some? && w.dir.rootKey.Some? && SignedBy(w.dir.rootCrt.value, w.dir.rootCrt.value)
    ensures LoadState(w.dir).Ok? && RenewalTrust(LoadState(w.dir).value, w.dir.rootCrt.value, now).Ok?
  {
    hide ScopeInv, GenerationInv, Coherent;
  }

  lemma ScopeLoads(w: World, s: Scope)
    requires Inv(w) && w.ended
    requires InPhase(w.dir, NoRenewal) || InPhase(w.dir, Staged) || InPhase(w.dir, Switched)
    ensures var f, root := w.dir.Of(s), w.dir.rootCrt.value;
            && f.crt.Some? && f.key == Some(f.crt.value.key) && f.chain == Some([f.crt.value, root])
            && IsIntermediate(f.crt.value, s, root)
  {
    assert ScopeInv(w.dir.Of(s), s, OldRoot(w.dir).value, NewRoot(w.dir).value, w.clock);
    assert InPhase(w.dir, Staged) ==> CrtUnder(w.dir.Of(s), OldRoot(w.dir).value);
  }

  /** Every unexpired generation of a scope that was not given up is trusted by every start. */
  lemma GenerationIsLoaded(w: World, g: Cert, now: Time)
    requires Inv(w) && w.clock <= now && g in w.gens && now < g.na && Boot(w.dir, now).Ok?
    ensures g.subject.IntermediateName?
    ensures var inter := Boot(w.dir, now).value.Of(g.subject.scope);
            (inter.cert == g || g in inter.retired) && g.nb <= now && g.na % SECOND == 0
  {
    var d, root := w.dir, w.dir.rootCrt.value;
    assert GenerationInv(g, w, NewRoot(d).value);
    var s := g.subject.scope;
    var f := d.Of(s);
    assert ScopeInv(f, s, OldRoot(d).value, NewRoot(d).value, w.clock);
    var state := LoadState(d).value;
    var trust := RenewalTrust(state, root, now).value;
    var signers := SignersOf(state, s, root, trust);
    BootedScope(d, now, s);
    if f.crt != Some(g) {
      assert g in f.Entries() && UnderEither(g, s, OldRoot(d).value, NewRoot(d).value, w.clock);
      KnownSigner(w, g, now);
      assert g in Loadable(f.Entries(), s, f.crt.value, signers, now);
    }
  }

  lemma BootedScope(d: Dir, now: Time, s: Scope)
    requires Boot(d, now).Ok?
    ensures d.rootCrt.Some? && LoadState(d).Ok? && RenewalTrust(LoadState(d).value, d.rootCrt.value, now).Ok?
    ensures var state, root := LoadState(d).value, d.rootCrt.value;
            var trust := RenewalTrust(state, root, now).value;
            LoadScope(d.Of(s), s, root, SignersOf(state, s, root, trust), trust, now) == Ok(Boot(d, now).value.Of(s))
    ensures InPhase(d, NoRenewal) || InPhase(d, Staged) || InPhase(d, Switched)
  {
    hide LoadScope;
    match s case Tunnel => case Access => case Internal =>
  }

  lemma KnownSigner(w: World, g: Cert, now: Time)
    requires Inv(w) && Boot(w.dir, now).Ok? && g in w.gens && g.subject.IntermediateName?
    requires UnderEither(g, g.subject.scope, OldRoot(w.dir).value, NewRoot(w.dir).value, w.clock)
    requires g in w.dir.Of(g.subject.scope).Entries()
    ensures var state, root := LoadState(w.dir).value, w.dir.rootCrt.value;
            LoadState(w.dir).Ok? && RenewalTrust(state, root, now).Ok? &&
            IsIntermediateAmong(g, g.subject.scope, SignersOf(state, g.subject.scope, root, RenewalTrust(state, root, now).value))
  {
    hide LoadScope;
    var d, root, s := w.dir, w.dir.rootCrt.value, g.subject.scope;
    BootedScope(d, now, s);
    assert GenerationInv(g, w, NewRoot(d).value);
    var state := LoadState(d).value;
    var signers := SignersOf(state, s, root, RenewalTrust(state, root, now).value);
    assert signers[0] == root;
    if IsIntermediate(g, s, root) {
      assert IsIntermediate(g, s, signers[0]);
    } else {
      assert EntriesUnder(d.Of(s), d.rootCrt.value) || !InPhase(d, Staged);
      assert IsIntermediate(g, s, signers[1]);
    }
  }

  /**
  A leaf still before its end, signed by any generation of its scope that was not given up,
  is believed by an issuer started at any time since, after any rotations, switches and
  restarts (after a finish: the generations under the new root).
  */
  lemma EarlierLeavesVerify(w: World, g: Cert, subject: Name, key: KeyId, life: int, signed: Time, started: Time, now: Time)
    requires Inv(w) && g in w.gens && w.clock <= started <= now && signed <= started
    requires Boot(w.dir, started).Ok?
    requires SignLeaf(subject, key, g, g.key, life, signed).Ok?
    requires started < SignLeaf(subject, key, g, g.key, life, signed).value.na && now <= SignLeaf(subject, key, g, g.key, life, signed).value.na
    ensures g.subject.IntermediateName?
    ensures Believes(Boot(w.dir, started).value.Of(g.subject.scope), SignLeaf(subject, key, g, g.key, life, signed).value, now)
  {
    var leaf := SignLeaf(subject, key, g, g.key, life, signed).value;
    LeafEndsWithIssuer(subject, key, g, life, signed);
    GenerationIsLoaded(w, g, started);
    var inter := Boot(w.dir, started).value.Of(g.subject.scope);
    if inter.cert != g {
      var i :| 0 <= i < |inter.retired| && inter.retired[i] == g;
    }
  }

  lemma LeafEndsWithIssuer(subject: Name, key: KeyId, g: Cert, life: int, signed: Time)
    requires SignLeaf(subject, key, g, g.key, life, signed).Ok?
    ensures var leaf := SignLeaf(subject, key, g, g.key, life, signed).value;
            leaf.na <= g.na && leaf.nb <= signed && leaf.signer == g.key
  {
  }

  // ----- Over whole runs --------------------------------------------------------------

  predicate Names(cmd: Command, s: Scope) {
    (cmd.Rotate? && s in cmd.compromised) || (cmd.SwitchRoot? && s in cmd.options.compromised)
  }

  /** A command that is not refused and writes at least one file. */
  predicate TakesEffect(w: World, e: Event) {
    PlanOf(w.dir, e.cmd, e.now, w.nextKey).Ok? && e.cut > 0
  }

  /** No command that takes effect names the scope. */
  predicate NeverNamed(w: World, events: seq<Event>, s: Scope)
    decreases |events|
  {
    events == []
    || (&& (TakesEffect(w, events[0]) ==> !Names(events[0].cmd, s))
        && NeverNamed(Run(w, events[0].cmd, events[0].now, events[0].cut), events[1..], s))
  }

  /** None gives `g` up: its scope is not named, and no finish ends its root. */
  predicate Spared(w: World, events: seq<Event>, g: Cert)
    decreases |events|
  {
    events == []
    || (&& (TakesEffect(w, events[0]) ==> !GivenUp(g, w.dir, events[0].cmd))
        && Spared(Run(w, events[0].cmd, events[0].now, events[0].cut), events[1..], g))
  }

  predicate CurrentRemembered(w: World, s: Scope) {
    w.dir.Of(s).crt.Some? && w.dir.Of(s).crt.value in w.gens
  }

  lemma {:induction false} StepsRemember(w: World, ops: seq<Op>, s: Scope, g: Cert)
    ensures CurrentRemembered(w, s) ==> CurrentRemembered(StepAll(w, ops), s)
    ensures g in w.gens ==> g in StepAll(w, ops).gens
    decreases |ops|
  {
    if ops != [] {
      StepRemembers(w, ops[0], s, g);
      hide Step, CurrentRemembered;
      StepsRemember(Step(w, ops[0]), ops[1..], s, g);
    }
  }

  lemma StepRemembers(w: World, op: Op, s: Scope, g: Cert)
    ensures CurrentRemembered(w, s) ==> CurrentRemembered(Step(w, op), s)
    ensures g in w.gens ==> g in Step(w, op).gens
  {
  }

  lemma RunRemembers(w: World, cmd: Command, now: Time, cut: nat, s: Scope, g: Cert)
    requires Inv(w)
    ensures CurrentRemembered(w, s) && (TakesEffect(w, Event(cmd, now, cut)) ==> !Names(cmd, s)) ==>
              CurrentRemembered(Run(w, cmd, now, cut), s)
    ensures g in w.gens && (TakesEffect(w, Event(cmd, now, cut)) ==> !GivenUp(g, w.dir, cmd)) ==>
              g in Run(w, cmd, now, cut).gens
  {
    hide Inv, PlanOf, StepAll;
    var plan := PlanOf(w.dir, cmd, now, w.nextKey);
    if plan.Ok? {
      var w0 := Begin(w, cmd, now);
      if CurrentRemembered(w, s) && !Names(cmd, s) {
        CurrentIsNotGivenUp(w, cmd, now, s);
      }
      StepsRemember(w0, plan.value, s, g);
      if cut < |plan.value| {
        StepsRemember(w0, plan.value[..cut], s, g);
      }
    }
  }

  lemma CurrentIsNotGivenUp(w: World, cmd: Command, now: Time, s: Scope)
    requires Inv(w) && CurrentRemembered(w, s) && !Names(cmd, s) && PlanOf(w.dir, cmd, now, w.nextKey).Ok?
    ensures !GivenUp(w.dir.Of(s).crt.value, w.dir, cmd)
  {
    hide RetiredUnder, PlanScope;
    var f := w.dir.Of(s);
    assert ScopeInv(f, s, OldRoot(w.dir).value, NewRoot(w.dir).value, w.clock);
    if cmd.Finish? {
      assert CrtUnder(f, NewRoot(w.dir).value) && NewRoot(w.dir) == w.dir.rootCrt;
    }
  }

  lemma {:induction false} RunAllRemembers(w: World, events: seq<Event>, s: Scope)
    requires Inv(w) && Monotone(w.clock, events) && CurrentRemembered(w, s) && NeverNamed(w, events, s)
    ensures CurrentRemembered(RunAll(w, events), s)
    decreases |events|
  {
    hide Inv, Run, CurrentRemembered, GivenUp, TakesEffect;
    if events != [] {
      var e := events[0];
      RunKeepsInv(w, e.cmd, e.now, e.cut);
      RunRemembers(w, e.cmd, e.now, e.cut, s, BuildRoot(None, 0, 0));
      RunAllRemembers(Run(w, e.cmd, e.now, e.cut), events[1..], s);
    }
  }

  lemma {:induction false} RunAllSpares(w: World, events: seq<Event>, g: Cert)
    requires Inv(w) && Monotone(w.clock, events) && g in w.gens && Spared(w, events, g)
    ensures g in RunAll(w, events).gens && Inv(RunAll(w, events))
    decreases |events|
  {
    hide Inv, Run, GivenUp, TakesEffect;
    if events != [] {
      var e := events[0];
      RunKeepsInv(w, e.cmd, e.now, e.cut);
      RunRemembers(w, e.cmd, e.now, e.cut, Tunnel, g);
      RunAllSpares(Run(w, e.cmd, e.now, e.cut), events[1..], g);
    }
  }

  /**
  For a scope never named compromised: whatever intermediate was current at some point of a
  run from a fresh hierarchy, a leaf it signed is believed until its own end by every issuer
  started later in the run, across any rotations, switches and cuts; only a finish of a
  renewal that moved away from its root ends that.
  */
  lemma EveryRunKeepsLeaves(start: Time, pass: Passphrase, first: seq<Event>, later: seq<Event>, s: Scope,
                            subject: Name, key: KeyId, life: int, signed: Time, started: Time, now: Time)
    requires Monotone(start, first) && NeverNamed(Fresh(start, pass), first, s)
    requires var w1 := RunAll(Fresh(start, pass), first);
             && Monotone(w1.clock, later) && w1.dir.Of(s).crt.Some? && Spared(w1, later, w1.dir.Of(s).crt.value)
             && var w2, g := RunAll(w1, later), w1.dir.Of(s).crt.value;
                && w2.clock <= started <= now && signed <= started && Boot(w2.dir, started).Ok?
                && var leaf := SignLeaf(subject, key, g, g.key, life, signed);
                   leaf.Ok? && started < leaf.value.na && now <= leaf.value.na
    ensures var w1 := RunAll(Fresh(start, pass), first);
            var w2, g := RunAll(w1, later), w1.dir.Of(s).crt.value;
            Believes(Boot(w2.dir, started).value.Of(s), SignLeaf(subject, key, g, g.key, life, signed).value, now)
  {
    hide Inv, Run, Boot, SignLeaf, Believes;
    var w1 := RunAll(Fresh(start, pass), first);
    NeverRejected(start, pass, first);
    FreshRemembers(start, pass, s);
    RunAllRemembers(Fresh(start, pass), first, s);
    var g := w1.dir.Of(s).crt.value;
    RunAllSpares(w1, later, g);
    ScopeOfCurrent(w1, s);
    EarlierLeavesVerify(RunAll(w1, later), g, subject, key, life, signed, started, now);
  }

  lemma ScopeOfCurrent(w: World, s: Scope)
    requires Inv(w)
    ensures var f := w.dir.Of(s); f.crt.Some? && f.crt.value.subject.IntermediateName? && f.crt.value.subject.scope == s
  {
    assert ScopeInv(w.dir.Of(s), s, OldRoot(w.dir).value, NewRoot(w.dir).value, w.clock);
  }

  lemma FreshRemembers(start: Time, pass: Passphrase, s: Scope)
    ensures Inv(Fresh(start, pass)) && CurrentRemembered(Fresh(start, pass), s)
  {
    FreshSatisfiesInv(start, pass);
    ScopeOfCurrent(Fresh(start, pass), s);
    match s case Tunnel => case Access => case Internal =>
  }

  /** After a switch, a scope given up trusts no intermediate under the old root. */
  lemma CompromisedUnderOldRootIsRefused(w: World, now: Time, s: Scope)
    requires Inv(w) && InPhase(w.dir, Switched) && s in w.dir.record.value.compromised && Boot(w.dir, now).Ok?
    ensures var inter := Boot(w.dir, now).value.Of(s);
            && !SignedBy(inter.cert, w.dir.retired.value)
            && forall c :: c in inter.retired ==> !SignedBy(c, w.dir.retired.value)
  {
    hide Boot, LoadScope, RenewalTrust, SignersOf;
    SwitchedApart(w, s);
    BootedScope(w.dir, now, s);
    hide Inv;
    OnlyTheNewRoot(w.dir, now, s);
  }

  lemma SwitchedApart(w: World, s: Scope)
    requires Inv(w) && InPhase(w.dir, Switched)
    ensures w.dir.retired.Some? && w.dir.rootCrt.Some? && w.dir.retired.value.key != w.dir.rootCrt.value.key
    ensures CrtUnder(w.dir.Of(s), w.dir.rootCrt.value)
  {
    hide ScopeInv, GenerationInv, Coherent, ProperRoot;
  }

  /** What a scope given up is loaded with. */
  lemma OnlyTheNewRoot(d: Dir, now: Time, s: Scope)
    requires InPhase(d, Switched) && s in d.record.value.compromised && Boot(d, now).Ok? && d.retired.Some? && d.rootCrt.Some?
    requires d.retired.value.key != d.rootCrt.value.key && CrtUnder(d.Of(s), d.rootCrt.value)
    ensures var inter := Boot(d, now).value.Of(s);
            && !SignedBy(inter.cert, d.retired.value)
            && forall c :: c in inter.retired ==> !SignedBy(c, d.retired.value)
  {
    BootedScope(d, now, s);
    var state, root := LoadState(d).value, d.rootCrt.value;
    assert state.switch == d.record;
    hide Boot, LoadState, RenewalTrust, LoadScope;
    var trust := RenewalTrust(state, root, now).value;
    assert SignersOf(state, s, root, trust) == [root];
    LoadedUnder(d.Of(s), s, root, trust, now);
  }

  lemma LoadedUnder(f: ScopeFiles, s: Scope, root: Cert, trust: Trust, now: Time)
    requires LoadScope(f, s, root, [root], trust, now).Ok?
    ensures var inter := LoadScope(f, s, root, [root], trust, now).value;
            SignedBy(inter.cert, root) && forall c :: c in inter.retired ==> SignedBy(c, root)
  {
  }
}
