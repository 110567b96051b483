/**
Whom an issuer believes, over every run: nobody but the intermediates it issued itself and
has not given up (issuer.py, storage.py and rotation.py in apps/ca-issuer/app).
*/
module Believed {
  import opened Common
  import opened Certificates
  import opened PkiDirectory
  import opened Rotation
  import opened RenewalWorld
  import opened RenewalCommands
  import opened RenewalFinish
  import opened RenewalTheorems
  import opened IssuerBoot
  import opened BootTheorems
  import opened RenewalEffects
  import opened RootsHandedOut

  // ----- The intermediates of a run ------------------------------------------------------

  /** The intermediates a list of operations puts in use. */
  function Issued(ops: seq<Op>): set<Cert> { set op | op in ops && op.PutCrt? :: op.cert }

  /** Those of the first start. */
  function FirstIssued(d: Dir): set<Cert> {
    (if d.tunnel.crt.Some? then {d.tunnel.crt.value} else {}) + (if d.access.crt.Some? then {d.access.crt.value} else {})
    + (if d.internal.crt.Some? then {d.internal.crt.value} else {})
  }

  /** Every intermediate issued up to the end of a run. */
  function AllIssued(w: World, events: seq<Event>, before: set<Cert>): set<Cert>
    decreases |events|
  {
    if events == [] then before else AllIssued(After(w, events[0]), events[1..], before + Issued(Performed(w, events[0])))
  }

  /**
  What stands after a command: what it gave up is gone once it ran to its end, what it
  issued is new.
  */
  function StandingAfter(w: World, e: Event, before: set<Cert>): set<Cert> {
    (set g | g in before && !(RanToEnd(w, e) && GivenUp(g, w.dir, e.cmd))) + Issued(Performed(w, e))
  }

  function Standing(w: World, events: seq<Event>, before: set<Cert>): set<Cert>
    decreases |events|
  {
    if events == [] then before else Standing(After(w, events[0]), events[1..], StandingAfter(w, events[0], before))
  }

  // ----- What a command writes -----------------------------------------------------------

  /** The intermediates of a scope on disk. */
  predicate OnDisk(d: Dir, s: Scope, c: Cert) { d.Of(s).crt == Some(c) || c in d.Of(s).Entries() }

  /** The new intermediate of each scope, if the command makes one. */
  datatype News = News(tunnel: Cert, access: Cert, internal: Cert) {
    function Of(s: Scope): Cert { match s case Tunnel => tunnel case Access => access case Internal => internal }
  }

  predicate NewsFits(key: KeyId, news: News) {
    forall s :: news.Of(s).subject.IntermediateName? && news.Of(s).subject.scope == s && news.Of(s).key == KeyFor(s, key)
  }

  /** A retired file gets what stood on disk, a certificate is the new one of its scope. */
  predicate Fits(d: Dir, news: News, op: Op) {
    && (op.PutRetired? ==> forall c :: c in op.entries ==> OnDisk(d, op.scope, c))
    && (op.PutCrt? ==> op.cert == news.Of(op.scope))
  }

  predicate AllFit(d: Dir, news: News, ops: seq<Op>) { forall i | 0 <= i < |ops| :: Fits(d, news, ops[i]) }

  lemma AllFitAppend(d: Dir, news: News, a: seq<Op>, b: seq<Op>)
    requires AllFit(d, news, a) && AllFit(d, news, b)
    ensures AllFit(d, news, a + b)
  {
    hide Fits;
  }

  function AnyNews(key: KeyId): News {
    News(Any(Tunnel, key), Any(Access, key), Any(Internal, key))
  }

  function Any(s: Scope, key: KeyId): Cert {
    Cert(IntermediateName(s, None), KeyFor(s, key), RootName(None), 0, true, None, 0, 0)
  }

  lemma PlannedIs(f: ScopeFiles, s: Scope, root: Cert, roots: seq<Cert>, compromised: bool, now: Time, key: KeyId, r: Replacement)
    requires PlanScope(f, s, root, root.key, roots, compromised, now, key) == Ok(r)
    ensures r.cert.subject.IntermediateName? && r.cert.subject.scope == s && r.cert.key == key
    ensures compromised ==> r.retired == []
    ensures forall c :: c in r.retired ==> f.crt == Some(c) || c in f.Entries()
  {
    PlannedRetired(f, s, root, roots, compromised, now, key, r);
    hide RetiredAfter, IsIntermediateAmong;
  }

  lemma WriteScopeFits(d: Dir, news: News, s: Scope, r: Replacement, root: Cert)
    requires r.cert == news.Of(s) && forall c :: c in r.retired ==> OnDisk(d, s, c)
    ensures AllFit(d, news, WriteScope(s, r, root))
  {
  }

  lemma RotationFits(d: Dir, pass: Passphrase, compromised: set<Scope>, now: Time, key: KeyId, ops: seq<Op>) returns (news: News)
    requires PlanRotation(d, pass, compromised, now, key) == Ok(ops)
    ensures NewsFits(key, news) && AllFit(d, news, ops)
  {
    hide PlanRotation, PlanScope, LoadState, WriteScope, AllFit;
    var root, roots, t, a, i := RotationPlan(d, pass, compromised, now, key, ops);
    PlannedIs(d.tunnel, Tunnel, root, roots, Tunnel in compromised, now, KeyFor(Tunnel, key), t);
    PlannedIs(d.access, Access, root, roots, Access in compromised, now, KeyFor(Access, key), a);
    PlannedIs(d.internal, Internal, root, roots, Internal in compromised, now, KeyFor(Internal, key), i);
    news := News(t.cert, a.cert, i.cert);
    WriteScopeFits(d, news, Tunnel, t, root);
    WriteScopeFits(d, news, Access, a, root);
    WriteScopeFits(d, news, Internal, i, root);
    AllFitAppend(d, news, WriteScope(Tunnel, t, root), WriteScope(Access, a, root));
    AllFitAppend(d, news, WriteScope(Tunnel, t, root) + WriteScope(Access, a, root), WriteScope(Internal, i, root));
    RecordFits(d, news, compromised);
    AllFitAppend(d, news, RecordCompromised(d.record, compromised), ThreeScopes(root, t, a, i));
  }

  lemma RecordFits(d: Dir, news: News, compromised: set<Scope>)
    ensures AllFit(d, news, RecordCompromised(d.record, compromised))
  {
  }

  /** One move of a switch, and the intermediate it makes. */
  lemma MoveFits(d: Dir, s: Scope, p: SwitchParts, o: SwitchOptions, now: Time, key: KeyId, ops: seq<Op>) returns (cert: Cert)
    requires MoveOf(d, s, p, o, now, key) == Ok(ops)
    ensures cert.subject.IntermediateName? && cert.subject.scope == s && cert.key == KeyFor(s, key)
    ensures forall news: News :: news.Of(s) == cert ==> AllFit(d, news, ops)
  {
    hide PlanScope, WriteScope, AllFit;
    if Moved(d.Of(s), s, p.newRoot) {
      cert := Any(s, key);
      forall news: News ensures AllFit(d, news, ops) {
        NothingFits(d, news);
      }
    } else {
      var r := PlanScope(d.Of(s), s, p.newRoot, p.newRoot.key, [p.newRoot, p.oldRoot], s in o.compromised, now, KeyFor(s, key)).value;
      PlannedIs(d.Of(s), s, p.newRoot, [p.newRoot, p.oldRoot], s in o.compromised, now, KeyFor(s, key), r);
      cert := r.cert;
      forall news: News | news.Of(s) == cert ensures AllFit(d, news, ops) {
        WriteScopeFits(d, news, s, r, p.newRoot);
      }
    }
  }

  lemma NothingFits(d: Dir, news: News)
    ensures AllFit(d, news, [])
  {
  }

  lemma SwitchFits(d: Dir, o: SwitchOptions, now: Time, key: KeyId, ops: seq<Op>) returns (news: News)
    requires PlanSwitch(d, o, now, key) == Ok(ops)
    ensures NewsFits(key, news) && AllFit(d, news, ops)
  {
    hide PlanSwitch, MoveOf, PlanCross, LoadState, RecordOf, SwitchHead, SwitchTail, ChainsOf, AllFit;
    var p := SwitchPlan(d, o, now, key, ops);
    var t := MoveFits(d, Tunnel, p, o, now, key, p.t);
    var a := MoveFits(d, Access, p, o, now, key, p.a);
    var i := MoveFits(d, Internal, p, o, now, key, p.i);
    news := News(t, a, i);
    var head, moves := SwitchHead(d, RecordOf(d, o, now), p.oldRoot, p.cross), p.t + p.a + p.i;
    var chains, tail := ChainsOf(d, p.newRoot), SwitchTail(d.nextKey.value, p.newRoot);
    AllFitAppend(d, news, p.t, p.a);
    AllFitAppend(d, news, p.t + p.a, p.i);
    HeadAndTailFit(d, news, RecordOf(d, o, now), p.oldRoot, p.cross, d.nextKey.value, p.newRoot);
    ChainsFit(d, news, p.newRoot);
    AllFitAppend(d, news, head, moves);
    AllFitAppend(d, news, head + moves, chains);
    AllFitAppend(d, news, head + moves + chains, tail);
  }

  lemma HeadAndTailFit(d: Dir, news: News, rec: Switch, oldRoot: Cert, cross: Option<Cert>, enc: EncKey, newRoot: Cert)
    ensures AllFit(d, news, SwitchHead(d, rec, oldRoot, cross)) && AllFit(d, news, SwitchTail(enc, newRoot))
  {
  }

  lemma ChainsFit(d: Dir, news: News, newRoot: Cert)
    ensures AllFit(d, news, ChainsOf(d, newRoot))
  {
    hide Moved;
  }

  /** Whatever the command and wherever it stopped. */
  lemma PerformedFits(w: World, e: Event) returns (news: News)
    requires Inv(w)
    ensures NewsFits(w.nextKey, news) && AllFit(w.dir, news, Performed(w, e))
  {
    hide Inv;
    news := AnyNews(w.nextKey);
    if TakesEffect(w, e) {
      match e.cmd {
        case Stage(_) => StagingLeaves(w, e); hide PlanOf, Run, OnDisk;
        case Abort => StagingLeaves(w, e); hide PlanOf, Run, OnDisk;
        case Finish => FinishFits(w, e, news);
        case SwitchRoot(o) =>
          hide PlanSwitch;
          news := SwitchFits(w.dir, o, e.now, w.nextKey, PlanSwitch(w.dir, o, e.now, w.nextKey).value);
          hide Fits;
        case Rotate(pass, compromised) =>
          hide PlanRotation;
          news := RotationFits(w.dir, pass, compromised, e.now, w.nextKey, PlanRotation(w.dir, pass, compromised, e.now, w.nextKey).value);
          hide Fits;
      }
    } else {
      hide Run, PlanOf;
      RunIsPerformed(w, e);
    }
  }

  lemma FinishFits(w: World, e: Event, news: News)
    requires e.cmd.Finish? && PlanFinish(w.dir).Ok?
    ensures AllFit(w.dir, news, Performed(w, e))
  {
    hide PlanFinish, LoadState;
    var t, a, i := FinishPlan(w.dir, PlanFinish(w.dir).value);
    hide SignedBy;
  }

  /** The files of a scope after such operations. */
  lemma {:induction false} FittingDisk(d: Dir, news: News, at: Dir, ops: seq<Op>, s: Scope)
    requires AllFit(d, news, ops)
    requires forall c :: c in at.Of(s).Entries() ==> OnDisk(d, s, c)
    ensures var v := ApplyAll(at, ops).Of(s);
            && (v.crt == at.Of(s).crt || (v.crt.Some? && v.crt.value in Issued(ops)))
            && forall c :: c in v.Entries() ==> OnDisk(d, s, c)
    decreases |ops|
  {
    if ops != [] {
      assert Fits(d, news, ops[0]);
      assert forall i | 0 <= i < |ops[1..]| :: ops[1..][i] == ops[i + 1];
      assert forall op :: op in ops[1..] ==> op in ops;
      OneFits(d, news, at, ops[0], s);
      hide Fits, OnDisk;
      FittingDisk(d, news, Apply(at, ops[0]), ops[1..], s);
      assert Issued(ops[1..]) <= Issued(ops) && (ops[0].PutCrt? ==> ops[0].cert in Issued(ops));
    }
  }

  lemma OneFits(d: Dir, news: News, at: Dir, op: Op, s: Scope)
    requires Fits(d, news, op) && forall c :: c in at.Of(s).Entries() ==> OnDisk(d, s, c)
    ensures var v := Apply(at, op).Of(s);
            && (v.crt == at.Of(s).crt || (op.PutCrt? && v.crt == Some(op.cert)))
            && forall c :: c in v.Entries() ==> OnDisk(d, s, c)
  {
  }

  // ----- What stands on disk -------------------------------------------------------------

  /** An entry the record has struck: of a scope given up in the switch, under the root it moved away from. */
  predicate Struck(d: Dir, s: Scope, c: Cert) {
    d.record.Some? && s in d.record.value.compromised && NewRoot(d).Some? && !SignedBy(c, NewRoot(d).value)
  }

  ghost predicate Stands(d: Dir, standing: set<Cert>) {
    forall s, c :: OnDisk(d, s, c) ==> c in standing || (d.Of(s).crt != Some(c) && Struck(d, s, c))
  }

  /** What is known of the disk after a command. */
  lemma DiskAfter(w: World, e: Event, s: Scope)
    requires Inv(w)
    ensures var v := After(w, e).dir.Of(s);
            && (v.crt == w.dir.Of(s).crt || (v.crt.Some? && v.crt.value in Issued(Performed(w, e))))
            && forall c :: c in v.Entries() ==> OnDisk(w.dir, s, c)
  {
    hide Inv, Run;
    RunIsPerformed(w, e);
    if TakesEffect(w, e) {
      var news := PerformedFits(w, e);
      hide PlanOf, Performed;
      FittingDisk(w.dir, news, w.dir, Performed(w, e), s);
    }
  }

  /** What a command that has not given anything up yet leaves. */
  lemma StandsOn(w: World, e: Event, standing: set<Cert>)
    requires Inv(w) && Stands(w.dir, standing)
    requires forall s, c :: Struck(w.dir, s, c) ==> Struck(After(w, e).dir, s, c)
    ensures Stands(After(w, e).dir, standing + Issued(Performed(w, e)))
  {
    hide Inv, Run, Struck, Performed, After;
    forall s, c | OnDisk(After(w, e).dir, s, c)
      ensures c in standing + Issued(Performed(w, e)) || (After(w, e).dir.Of(s).crt != Some(c) && Struck(After(w, e).dir, s, c))
    {
      DiskAfter(w, e, s);
      if c in After(w, e).dir.Of(s).Entries() && c !in standing + Issued(Performed(w, e)) {
        assert OnDisk(w.dir, s, c);
      }
    }
  }

  lemma StaysStruck(w: World, e: Event)
    requires Inv(w) && w.clock <= e.now && !(e.cmd.Finish? && RanToEnd(w, e))
    ensures forall s, c :: Struck(w.dir, s, c) ==> Struck(After(w, e).dir, s, c)
  {
    hide Inv, Run, PlanOf;
    RunIsPerformed(w, e);
    if TakesEffect(w, e) {
      match e.cmd {
        case Stage(_) => StagingLeaves(w, e);
        case Abort => StagingLeaves(w, e);
        case SwitchRoot(o) => SwitchLeaves(w, o, e.now, e.cut);
        case Finish => FinishStrikes(w, e);
        case Rotate(pass, compromised) => RotationLeaves(w, pass, compromised, e.now, e.cut);
      }
    }
  }

  lemma FinishStrikes(w: World, e: Event)
    requires TakesEffect(w, e) && e.cmd.Finish? && !RanToEnd(w, e)
    ensures forall s, c :: Struck(w.dir, s, c) ==> Struck(After(w, e).dir, s, c)
  {
    hide Run, PlanFinish;
    var t, a, i := FinishLeaves(w, e.now, e.cut);
  }

  lemma CommandStands(w: World, e: Event, standing: set<Cert>)
    requires Inv(w) && w.clock <= e.now && Stands(w.dir, standing)
    ensures Stands(After(w, e).dir, StandingAfter(w, e, standing))
  {
    hide Inv, Run, PlanOf, Performed, After, Stands, RanToEnd, GivenUp;
    if !RanToEnd(w, e) {
      StaysStruck(w, e);
      StandsOn(w, e, standing);
      assert StandingAfter(w, e, standing) == standing + Issued(Performed(w, e));
    } else {
      EndStands(w, e, standing);
    }
  }

  lemma EndStands(w: World, e: Event, standing: set<Cert>)
    requires Inv(w) && w.clock <= e.now && Stands(w.dir, standing) && RanToEnd(w, e)
    ensures Stands(After(w, e).dir, StandingAfter(w, e, standing))
  {
    hide Inv, Run, PlanOf, Performed, After, Stands;
    match e.cmd {
      case Stage(_) => StaysStruck(w, e); StandsOn(w, e, standing); NothingGivenUp(w, e, standing);
      case Abort => StaysStruck(w, e); StandsOn(w, e, standing); NothingGivenUp(w, e, standing);
      case SwitchRoot(o) => SwitchStands(w, e, standing);
      case Finish => FinishStands(w, e, standing);
      case Rotate(pass, compromised) => RotationStands(w, e, standing);
    }
  }

  lemma NothingGivenUp(w: World, e: Event, standing: set<Cert>)
    requires e.cmd.Stage? || e.cmd.Abort?
    ensures StandingAfter(w, e, standing) == standing + Issued(Performed(w, e))
  {
    hide Performed, RanToEnd;
  }

  /** What of the disk before is on the disk after, and of which scope it is. */
  lemma DiskOfScope(w: World, s: Scope, c: Cert)
    requires Inv(w) && OnDisk(w.dir, s, c)
    ensures c.subject.IntermediateName? && c.subject.scope == s
  {
    hide RootsInv, PhaseInv, GenerationInv, LoadState;
    assert ScopeInv(w.dir.Of(s), s, OldRoot(w.dir).value, NewRoot(w.dir).value, w.clock);
  }

  lemma RotationStands(w: World, e: Event, standing: set<Cert>)
    requires Inv(w) && w.clock <= e.now && Stands(w.dir, standing) && RanToEnd(w, e) && e.cmd.Rotate?
    ensures Stands(After(w, e).dir, StandingAfter(w, e, standing))
  {
    hide Inv, Run, PlanOf, Performed, After, RanToEnd, Struck;
    StaysStruck(w, e);
    var v := After(w, e).dir;
    forall s, c | OnDisk(v, s, c)
      ensures c in StandingAfter(w, e, standing) || (v.Of(s).crt != Some(c) && Struck(v, s, c))
    {
      DiskAfter(w, e, s);
      if s in e.cmd.compromised {
        NamedIsReplaced(w, e, s);
      } else if c !in Issued(Performed(w, e)) {
        assert OnDisk(w.dir, s, c);
        DiskOfScope(w, s, c);
      }
    }
  }

  lemma WrittenScope(d: Dir, s: Scope, r: Replacement, root: Cert)
    ensures ApplyAll(d, WriteScope(s, r, root)) == d.With(s, ScopeFiles(Some(r.cert), Some(r.cert.key), Some([r.cert, root]), Some(r.retired)))
  {
    var a, b, c, e := PutRetired(s, r.retired), PutKey(s, r.cert.key), PutCrt(s, r.cert), PutChain(s, [r.cert, root]);
    assert WriteScope(s, r, root) == [a] + [b] + [c] + [e];
    ApplyAllAppend(d, [a] + [b] + [c], [e]);
    ApplyAllAppend(d, [a] + [b], [c]);
    ApplyAllAppend(d, [a], [b]);
    ApplyOne(d, a);
    ApplyOne(Apply(d, a), b);
    ApplyOne(Apply(Apply(d, a), b), c);
    ApplyOne(Apply(Apply(Apply(d, a), b), c), e);
  }

  /** A rotation that ran to its end leaves of a scope it named nothing but the new intermediate. */
  lemma NamedIsReplaced(w: World, e: Event, s: Scope)
    requires RanToEnd(w, e) && e.cmd.Rotate? && s in e.cmd.compromised
    ensures var v := After(w, e).dir.Of(s);
            v.crt.Some? && v.crt.value in Issued(Performed(w, e)) && v.Entries() == []
  {
    hide Run, PlanRotation, PlanScope, LoadState;
    RunIsPerformed(w, e);
    var ops := PlanRotation(w.dir, e.cmd.pass, e.cmd.compromised, e.now, w.nextKey).value;
    var root, roots, t, a, i := RotationPlan(w.dir, e.cmd.pass, e.cmd.compromised, e.now, w.nextKey, ops);
    PlannedIs(w.dir.tunnel, Tunnel, root, roots, Tunnel in e.cmd.compromised, e.now, KeyFor(Tunnel, w.nextKey), t);
    PlannedIs(w.dir.access, Access, root, roots, Access in e.cmd.compromised, e.now, KeyFor(Access, w.nextKey), a);
    PlannedIs(w.dir.internal, Internal, root, roots, Internal in e.cmd.compromised, e.now, KeyFor(Internal, w.nextKey), i);
    assert Performed(w, e) == ops;
    hide Performed, PlanOf, TakesEffect;
    AllWritten(w.dir, RecordCompromised(w.dir.record, e.cmd.compromised), root, t, a, i);
    assert PutCrt(Tunnel, t.cert) in ThreeScopes(root, t, a, i) && PutCrt(Access, a.cert) in ThreeScopes(root, t, a, i)
        && PutCrt(Internal, i.cert) in ThreeScopes(root, t, a, i) by { ThreeCerts(root, t, a, i); }
    hide ThreeScopes, RecordCompromised;
    assert forall op :: op in ThreeScopes(root, t, a, i) ==> op in ops;
    match s case Tunnel => case Access => case Internal =>
  }

  lemma ThreeCerts(root: Cert, t: Replacement, a: Replacement, i: Replacement)
    ensures var ops := ThreeScopes(root, t, a, i);
            PutCrt(Tunnel, t.cert) in ops && PutCrt(Access, a.cert) in ops && PutCrt(Internal, i.cert) in ops
  {
    var x, y, z := WriteScope(Tunnel, t, root), WriteScope(Access, a, root), WriteScope(Internal, i, root);
    assert x[2] in x && y[2] in y && z[2] in z;
    hide WriteScope;
  }

  lemma AllWritten(d: Dir, head: seq<Op>, root: Cert, t: Replacement, a: Replacement, i: Replacement)
    ensures var v := ApplyAll(d, head + ThreeScopes(root, t, a, i));
            && v.tunnel == ScopeFiles(Some(t.cert), Some(t.cert.key), Some([t.cert, root]), Some(t.retired))
            && v.access == ScopeFiles(Some(a.cert), Some(a.cert.key), Some([a.cert, root]), Some(a.retired))
            && v.internal == ScopeFiles(Some(i.cert), Some(i.cert.key), Some([i.cert, root]), Some(i.retired))
  {
    hide WriteScope, ApplyAll;
    var x, y, z := WriteScope(Tunnel, t, root), WriteScope(Access, a, root), WriteScope(Internal, i, root);
    ApplyAllAppend(d, head, x + y + z);
    var d0 := ApplyAll(d, head);
    ApplyAllAppend(d0, x + y, z);
    ApplyAllAppend(d0, x, y);
    WrittenScope(d0, Tunnel, t, root);
    WrittenScope(ApplyAll(d0, x), Access, a, root);
    WrittenScope(ApplyAll(ApplyAll(d0, x), y), Internal, i, root);
  }

  lemma SwitchStands(w: World, e: Event, standing: set<Cert>)
    requires Inv(w) && w.clock <= e.now && Stands(w.dir, standing) && RanToEnd(w, e) && e.cmd.SwitchRoot?
    ensures Stands(After(w, e).dir, StandingAfter(w, e, standing))
  {
    hide Inv, Run, PlanOf, Performed, After, RanToEnd;
    StaysStruck(w, e);
    SwitchedScopes(w, e);
    assert TakesEffect(w, e) by { EndTakesEffect(w, e); }
    SwitchLeaves(w, e.cmd.options, e.now, e.cut);
    var v := After(w, e).dir;
    forall s, c | OnDisk(v, s, c)
      ensures c in StandingAfter(w, e, standing) || (v.Of(s).crt != Some(c) && Struck(v, s, c))
    {
      DiskAfter(w, e, s);
      if c !in Issued(Performed(w, e)) {
        assert OnDisk(w.dir, s, c);
        DiskOfScope(w, s, c);
      }
    }
  }

  lemma EndTakesEffect(w: World, e: Event)
    requires RanToEnd(w, e)
    ensures TakesEffect(w, e)
  {
  }

  lemma SwitchedScopes(w: World, e: Event)
    requires Inv(w) && w.clock <= e.now && RanToEnd(w, e) && e.cmd.SwitchRoot?
    ensures NewRoot(w.dir).Some? && forall s :: After(w, e).dir.Of(s).crt.Some? && SignedBy(After(w, e).dir.Of(s).crt.value, NewRoot(w.dir).value)
  {
    hide Inv, Cuts, PlanSwitch, Run, Coherent, LoadState;
    RunIsPerformed(w, e);
    SwitchCuts(w, e.cmd.options, e.now);
    StepAllIsApplyAll(Begin(w, e.cmd, e.now), PlanSwitch(w.dir, e.cmd.options, e.now, w.nextKey).value);
  }

  lemma FinishStands(w: World, e: Event, standing: set<Cert>)
    requires Inv(w) && w.clock <= e.now && Stands(w.dir, standing) && RanToEnd(w, e) && e.cmd.Finish?
    ensures Stands(After(w, e).dir, StandingAfter(w, e, standing))
  {
    hide Run, PlanFinish, Performed, LoadState;
    var t, a, i := FinishLeaves(w, e.now, e.cut);
    var v, root := After(w, e).dir, w.dir.rootCrt.value;
    OldIsOlder(w);
    CrtsUnderRoot(w);
    hide Inv, After;
    forall s, c | OnDisk(v, s, c) ensures c in StandingAfter(w, e, standing) {
      assert OnDisk(w.dir, s, c) && SignedBy(c, root) by { match s case Tunnel => case Access => case Internal => }
    }
  }

  lemma CrtsUnderRoot(w: World)
    requires Inv(w) && AfterSwitch(w.dir)
    ensures forall s :: w.dir.Of(s).crt.Some? && SignedBy(w.dir.Of(s).crt.value, w.dir.rootCrt.value)
  {
    hide ScopeInv, GenerationInv, Coherent, ProperRoot;
  }

  lemma {:induction false} RunsStand(w: World, events: seq<Event>, standing: set<Cert>)
    requires Inv(w) && Monotone(w.clock, events) && Stands(w.dir, standing)
    ensures Inv(RunAll(w, events)) && Stands(RunAll(w, events).dir, Standing(w, events, standing))
    decreases |events|
  {
    hide Inv, Run, Stands, StandingAfter;
    if events != [] {
      var e := events[0];
      RunKeepsInv(w, e.cmd, e.now, e.cut);
      CommandStands(w, e, standing);
      RunsStand(After(w, e), events[1..], StandingAfter(w, e, standing));
    }
  }

  // ----- Keys ----------------------------------------------------------------------------

  /** Every intermediate has a key of its own. */
  predicate KeysApart(issued: set<Cert>, next: KeyId) {
    && (forall g :: g in issued ==> g.subject.IntermediateName? && g.key < next)
    && (forall g, h :: g in issued && h in issued && g.key == h.key ==> g == h)
  }

  lemma IssuedNews(d: Dir, news: News, ops: seq<Op>, key: KeyId)
    requires AllFit(d, news, ops) && NewsFits(key, news)
    ensures forall c :: c in Issued(ops) ==> exists s :: c == news.Of(s)
    ensures forall c :: c in Issued(ops) ==> c.subject.IntermediateName? && key <= c.key < key + KEYS_PER_COMMAND
    ensures forall c, h :: c in Issued(ops) && h in Issued(ops) && c.key == h.key ==> c == h
  {
    forall c | c in Issued(ops) ensures exists s :: c == news.Of(s) {
      var op :| op in ops && op.PutCrt? && op.cert == c;
      var i :| 0 <= i < |ops| && ops[i] == op;
      assert Fits(d, news, ops[i]);
      assert c == news.Of(op.scope);
    }
    hide AllFit;
  }

  lemma CommandKeysApart(w: World, e: Event, issued: set<Cert>)
    requires Inv(w) && KeysApart(issued, w.nextKey)
    ensures KeysApart(issued + Issued(Performed(w, e)), After(w, e).nextKey)
    ensures forall g :: g in issued ==> g !in Issued(Performed(w, e))
  {
    hide Inv, Run, PlanOf;
    RunIsPerformed(w, e);
    var news := PerformedFits(w, e);
    hide Performed;
    IssuedNews(w.dir, news, Performed(w, e), w.nextKey);
    if !TakesEffect(w, e) {
      assert Issued(Performed(w, e)) == {};
    }
    hide AllFit, NewsFits, Issued;
  }

  lemma {:induction false} RunKeysApart(w: World, events: seq<Event>, issued: set<Cert>, standing: set<Cert>)
    requires Inv(w) && Monotone(w.clock, events) && KeysApart(issued, w.nextKey) && standing <= issued
    ensures KeysApart(AllIssued(w, events, issued), RunAll(w, events).nextKey) && issued <= AllIssued(w, events, issued)
    ensures Standing(w, events, standing) <= AllIssued(w, events, issued)
    ensures forall g :: g in issued && g !in standing ==> g !in Standing(w, events, standing)
    decreases |events|
  {
    hide Inv, Run, KeysApart, GivenUp, RanToEnd, Performed;
    if events != [] {
      var e := events[0];
      RunKeepsInv(w, e.cmd, e.now, e.cut);
      CommandKeysApart(w, e, issued);
      RunKeysApart(After(w, e), events[1..], issued + Issued(Performed(w, e)), StandingAfter(w, e, standing));
    }
  }

  lemma FreshStands(start: Time, pass: Passphrase)
    ensures var w := Fresh(start, pass); Inv(w) && Stands(w.dir, FirstIssued(w.dir)) && KeysApart(FirstIssued(w.dir), w.nextKey)
  {
    FreshSatisfiesInv(start, pass);
    var w := Fresh(start, pass);
    hide Inv, WholeSecond;
    forall s, c | OnDisk(w.dir, s, c) ensures c in FirstIssued(w.dir) {
      match s case Tunnel => case Access => case Internal =>
    }
  }

  // ----- Whom an issuer believes ---------------------------------------------------------

  /** What a start loads of a scope. */
  lemma LoadedStands(w: World, started: Time, s: Scope, standing: set<Cert>)
    requires Inv(w) && Stands(w.dir, standing) && Boot(w.dir, started).Ok?
    ensures var inter := Boot(w.dir, started).value.Of(s);
            forall c :: c == inter.cert || c in inter.retired ==>
              && c in standing && ValidAt(c, started) && c.subject.IntermediateName? && c.subject.scope == s
              && w.dir.rootCrt.Some?
              && (IsIntermediate(c, s, w.dir.rootCrt.value) || (w.dir.retired.Some? && IsIntermediate(c, s, w.dir.retired.value)))
  {
    BootedScope(w.dir, started, s);
    SwitchedRoots(w);
    LoadedRoots(w.dir, started, s);
    hide Inv, Boot, LoadScope, RenewalTrust, SignersOf;
    var inter := Boot(w.dir, started).value.Of(s);
    forall c | c == inter.cert || c in inter.retired ensures c in standing {
      assert OnDisk(w.dir, s, c);
    }
  }

  lemma LoadedRoots(d: Dir, started: Time, s: Scope)
    requires Boot(d, started).Ok? && LoadState(d).Ok?
    requires if InPhase(d, Switched) then d.retired.Some? else d.record.None? && d.retired.None?
    ensures d.rootCrt.Some?
    ensures var inter := Boot(d, started).value.Of(s);
            && d.Of(s).crt == Some(inter.cert) && (forall c :: c in inter.retired ==> c in d.Of(s).Entries())
            && forall c :: c == inter.cert || c in inter.retired ==>
                 && ValidAt(c, started) && c.subject.IntermediateName? && c.subject.scope == s
                 && (IsIntermediate(c, s, d.rootCrt.value) || (d.retired.Some? && IsIntermediate(c, s, d.retired.value)))
                 && !Struck(d, s, c)
  {
    hide Boot, RenewalTrust, SignersOf, LoadScope;
    BootedScope(d, started, s);
    var state, root := LoadState(d).value, d.rootCrt.value;
    var trust := RenewalTrust(state, root, started).value;
    var signers := SignersOf(state, s, root, trust);
    assert NewRoot(d) == Some(root) || d.record.None?;
    SignersKnown(d, started, s, trust);
    hide LoadState;
    LoadedFrom(d.Of(s), s, root, signers, trust, started);
    hide IsIntermediate;
    forall c | IsIntermediateAmong(c, s, signers)
      ensures IsIntermediate(c, s, root) || (d.retired.Some? && signers != [root] && IsIntermediate(c, s, d.retired.value))
    {
      var i :| 0 <= i < |signers| && IsIntermediate(c, s, signers[i]);
    }
    hide IsIntermediateAmong;
    UnderIsSigned(s, root);
  }

  lemma UnderIsSigned(s: Scope, root: Cert)
    ensures forall c :: IsIntermediate(c, s, root) ==> SignedBy(c, root)
    ensures forall c, r :: IsIntermediate(c, s, r) ==> c.subject.IntermediateName? && c.subject.scope == s
  {
  }

  /** The signers a scope is loaded with. */
  lemma SignersKnown(d: Dir, started: Time, s: Scope, trust: Trust)
    requires LoadState(d).Ok? && d.rootCrt.Some? && RenewalTrust(LoadState(d).value, d.rootCrt.value, started) == Ok(trust)
    requires if InPhase(d, Switched) then d.retired.Some? else d.record.None? && d.retired.None?
    ensures var signers := SignersOf(LoadState(d).value, s, d.rootCrt.value, trust);
            && (forall i | 0 <= i < |signers| :: signers[i] == d.rootCrt.value || (d.retired.Some? && signers[i] == d.retired.value))
            && (d.record.Some? && s in d.record.value.compromised ==> signers == [d.rootCrt.value])
  {
    assert LoadState(d).value.switch == d.record;
    hide IsCross, IsRoot;
  }

  lemma LoadedFrom(f: ScopeFiles, s: Scope, root: Cert, signers: seq<Cert>, trust: Trust, now: Time)
    requires LoadScope(f, s, root, signers, trust, now).Ok?
    ensures var inter := LoadScope(f, s, root, signers, trust, now).value;
            && f.crt == Some(inter.cert) && IsIntermediate(inter.cert, s, root) && ValidAt(inter.cert, now)
            && forall c :: c in inter.retired ==> c in f.Entries() && IsIntermediateAmong(c, s, signers) && ValidAt(c, now)
  {
    hide IsIntermediate, IsIntermediateAmong;
  }

  lemma LoadedCurrent(d: Dir, started: Time, s: Scope)
    requires Boot(d, started).Ok?
    ensures d.Of(s).crt == Some(Boot(d, started).value.Of(s).cert)
  {
    hide Boot, RenewalTrust, SignersOf;
    BootedScope(d, started, s);
  }

  /**
  A leaf is believed for a scope only if it is within its dates and an intermediate of that
  scope signed it that was issued in the run, has not been given up by a command that ran to
  its end, was valid at the start and, unless it is the current one, still is, and is under
  root.crt or the retired root.
  */
  lemma OnlyStandingSignersBelieved(start: Time, pass: Passphrase, events: seq<Event>, s: Scope, leaf: Cert, started: Time, now: Time)
    returns (g: Cert)
    requires Monotone(start, events)
    requires var w := RunAll(Fresh(start, pass), events);
             Boot(w.dir, started).Ok? && Believes(Boot(w.dir, started).value.Of(s), leaf, now)
    ensures leaf.nb <= now <= leaf.na && leaf.signer == g.key
    ensures g in Standing(Fresh(start, pass), events, FirstIssued(Fresh(start, pass).dir))
    ensures g.subject.IntermediateName? && g.subject.scope == s && ValidAt(g, started)
    ensures var d := RunAll(Fresh(start, pass), events).dir;
            && d.rootCrt.Some?
            && (IsIntermediate(g, s, d.rootCrt.value) || (d.retired.Some? && IsIntermediate(g, s, d.retired.value)))
            && (d.Of(s).crt == Some(g) || g.nb <= now <= g.na)
  {
    hide Inv, Boot, Run, Stands, Standing, KeysApart;
    var origin := Fresh(start, pass);
    FreshStands(start, pass);
    RunsStand(origin, events, FirstIssued(origin.dir));
    var w := RunAll(origin, events);
    LoadedStands(w, started, s, Standing(origin, events, FirstIssued(origin.dir)));
    LoadedCurrent(w.dir, started, s);
    var inter := Boot(w.dir, started).value.Of(s);
    if leaf.signer == inter.cert.key {
      g := inter.cert;
    } else {
      var i :| 0 <= i < |inter.retired| && inter.retired[i].nb <= now <= inter.retired[i].na && leaf.signer == inter.retired[i].key;
      g := inter.retired[i];
    }
  }

  /** A leaf of an intermediate of another scope, or of one given up, is believed nowhere in this scope. */
  lemma OthersAreNotBelieved(start: Time, pass: Passphrase, events: seq<Event>, s: Scope, h: Cert, leaf: Cert, started: Time, now: Time)
    requires Monotone(start, events) && Boot(RunAll(Fresh(start, pass), events).dir, started).Ok?
    requires h in AllIssued(Fresh(start, pass), events, FirstIssued(Fresh(start, pass).dir)) && leaf.signer == h.key
    requires !(h.subject.IntermediateName? && h.subject.scope == s)
             || h !in Standing(Fresh(start, pass), events, FirstIssued(Fresh(start, pass).dir))
    ensures !Believes(Boot(RunAll(Fresh(start, pass), events).dir, started).value.Of(s), leaf, now)
  {
    hide Inv, Boot, Run, Stands, Standing, AllIssued, Believes;
    var origin := Fresh(start, pass);
    if Believes(Boot(RunAll(origin, events).dir, started).value.Of(s), leaf, now) {
      var g := OnlyStandingSignersBelieved(start, pass, events, s, leaf, started, now);
      FreshStands(start, pass);
      RunKeysApart(origin, events, FirstIssued(origin.dir), FirstIssued(origin.dir));
      hide Fresh;
    }
  }

  /** A key no intermediate of the run has is believed nowhere. */
  lemma ForgeriesAreNotBelieved(start: Time, pass: Passphrase, events: seq<Event>, s: Scope, leaf: Cert, started: Time, now: Time)
    requires Monotone(start, events) && Boot(RunAll(Fresh(start, pass), events).dir, started).Ok?
    requires forall g :: g in AllIssued(Fresh(start, pass), events, FirstIssued(Fresh(start, pass).dir)) ==> g.key != leaf.signer
    ensures !Believes(Boot(RunAll(Fresh(start, pass), events).dir, started).value.Of(s), leaf, now)
  {
    hide Inv, Boot, Run, Stands, Standing, AllIssued, Believes;
    var origin := Fresh(start, pass);
    if Believes(Boot(RunAll(origin, events).dir, started).value.Of(s), leaf, now) {
      var g := OnlyStandingSignersBelieved(start, pass, events, s, leaf, started, now);
      FreshStands(start, pass);
      RunKeysApart(origin, events, FirstIssued(origin.dir), FirstIssued(origin.dir));
    }
  }

  lemma {:induction false} RunsAppend(w: World, a: seq<Event>, b: seq<Event>, issued: set<Cert>, standing: set<Cert>)
    ensures AllIssued(w, a + b, issued) == AllIssued(RunAll(w, a), b, AllIssued(w, a, issued))
    ensures Standing(w, a + b, standing) == Standing(RunAll(w, a), b, Standing(w, a, standing))
    decreases |a|
  {
    hide Run, StandingAfter, Performed;
    if a == [] {
      assert a + b == b;
    } else {
      assert (a + b)[0] == a[0] && (a + b)[1..] == a[1..] + b;
      RunsAppend(After(w, a[0]), a[1..], b, issued + Issued(Performed(w, a[0])), StandingAfter(w, a[0], standing));
    }
  }

  /**
  Once a rotation that names a scope compromised ran to its end, no leaf of an earlier
  intermediate of the scope is believed again, whatever follows.
  */
  lemma EarlierGenerationsAreOut(start: Time, pass: Passphrase, first: seq<Event>, e: Event, later: seq<Event>, s: Scope, h: Cert, leaf: Cert,
                                 started: Time, now: Time)
    requires Monotone(start, first + ([e] + later))
    requires RanToEnd(RunAll(Fresh(start, pass), first), e) && e.cmd.Rotate? && s in e.cmd.compromised
    requires h in AllIssued(Fresh(start, pass), first, FirstIssued(Fresh(start, pass).dir)) && h.subject.IntermediateName? && h.subject.scope == s
    requires leaf.signer == h.key && Boot(RunAll(Fresh(start, pass), first + ([e] + later)).dir, started).Ok?
    ensures !Believes(Boot(RunAll(Fresh(start, pass), first + ([e] + later)).dir, started).value.Of(s), leaf, now)
  {
    hide Inv, Boot, Run, Stands, AllIssued, Believes, KeysApart, RanToEnd;
    var origin := Fresh(start, pass);
    var begun, events, tail := FirstIssued(origin.dir), first + ([e] + later), [e] + later;
    FreshStands(start, pass);
    assert origin.clock == start;
    hide Fresh, FirstIssued;
    MonotoneAppend(start, first, tail, origin);
    RunsAppend(origin, first, tail, begun, begun);
    RunKeysApart(origin, first, begun, begun);
    RunsStand(origin, first, begun);
    var w := RunAll(origin, first);
    assert tail[0] == e && tail[1..] == later;
    StandsNoMore(w, e, later, AllIssued(origin, first, begun), Standing(origin, first, begun), h);
    OthersAreNotBelieved(start, pass, events, s, h, leaf, started, now);
  }

  lemma StandsNoMore(w: World, e: Event, later: seq<Event>, issued: set<Cert>, standing: set<Cert>, h: Cert)
    requires Inv(w) && Monotone(w.clock, [e] + later) && KeysApart(issued, w.nextKey) && standing <= issued && h in issued
    requires RanToEnd(w, e) && GivenUp(h, w.dir, e.cmd)
    ensures h !in Standing(w, [e] + later, standing) && h in AllIssued(w, [e] + later, issued)
  {
    hide Inv, Run, KeysApart, GivenUp, RanToEnd, Performed;
    var events := [e] + later;
    assert events[0] == e && events[1..] == later;
    CommandKeysApart(w, e, issued);
    RunKeepsInv(w, e.cmd, e.now, e.cut);
    RunKeysApart(After(w, e), later, issued + Issued(Performed(w, e)), StandingAfter(w, e, standing));
  }
}
