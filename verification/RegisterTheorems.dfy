/** Revocation, tokens and lines over whole runs of the register. */
module RegisterTheorems {
  import opened Common
  import opened Certificates
  import opened RegisterTables
  import opened Register
  import opened RegisterRuns

  ghost predicate Runs(s: State, steps: seq<Step>, t: State)
    decreases |steps|
  {
    if steps == [] then s == t else Enabled(s, steps[0]) && Runs(Apply(s, steps[0]), steps[1..], t)
  }

  /** An empty register: whatever was issued or revoked before it existed may be there. */
  ghost predicate Initial(s: State) {
    && s.db.lines == map[] && s.db.certs == map[] && s.reserved == map[] && s.txs == map[]
    && (forall k :: k in s.db.tokens ==> s.db.tokens[k].issued.None?)
  }

  lemma {:induction false} RunsKeepInv(s: State, steps: seq<Step>, t: State)
    requires Inv(s) && Runs(s, steps, t)
    ensures Inv(t)
    decreases |steps|
  {
    hide Inv;
    if steps != [] {
      StepKeepsInv(s, steps[0]);
      RunsKeepInv(Apply(s, steps[0]), steps[1..], t);
    }
  }

  lemma InitialInv(s: State)
    requires Initial(s)
    ensures Inv(s)
  {
  }

  // ----- What one step may add -----------------------------------------------------------

  predicate LineLater(a: Line, b: Line) {
    b == a.(revoked := b.revoked) && (a.revoked.Some? ==> b == a)
  }

  predicate TokenLater(a: Token, b: Token) {
    b.minted == a.minted && (a.used.Some? ==> b == a)
  }

  ghost predicate TablesLater(d: Tables, e: Tables) {
    && (forall f :: f in d.certs ==> f in e.certs && e.certs[f] == d.certs[f])
    && (forall l :: l in d.lines ==> l in e.lines && LineLater(d.lines[l], e.lines[l]))
    && (forall k :: k in d.tokens ==> k in e.tokens && TokenLater(d.tokens[k], e.tokens[k]))
  }

  /** Nothing recorded is ever changed but by revoking or spending it. */
  ghost predicate Later(s: State, t: State) {
    && (forall f :: f in s.leaves ==> f in t.leaves && t.leaves[f] == s.leaves[f])
    && TablesLater(s.db, t.db)
  }

  /** When what a recorded certificate rests on was issued or minted. */
  function Basis(s: State, fp: Fingerprint): Option<Time>
    requires fp in s.db.certs
  {
    var c := s.db.certs[fp];
    if c.renewedFrom.Some? then
      if c.renewedFrom.value in s.leaves then Some(s.leaves[c.renewedFrom.value].nb) else None
    else if c.token.Some? then
      if c.token.value in s.db.tokens then s.db.tokens[c.token.value].minted else None
    else Some(c.nb)
  }

  /** A certificate is recorded only on what its identity's revocation leaves active, on an open line. */
  predicate GainOk(s: State, t: State, fp: Fingerprint)
    requires fp in t.db.certs
  {
    && fp in t.leaves && Active(s.db.revoked, t.leaves[fp].identity, Basis(t, fp))
    && (t.db.certs[fp].line in s.db.lines ==> s.db.lines[t.db.certs[fp].line].revoked.None?)
  }

  ghost predicate Gains(s: State, t: State) {
    forall fp :: fp in t.db.certs && fp !in s.db.certs ==> GainOk(s, t, fp)
  }

  lemma EnrollmentLater(d: Tables, token: TokenId, now: Time, line: LineId, fp: Fingerprint, nb: Time,
                        former: Option<Fingerprint>)
    requires token in d.tokens && d.tokens[token].used.None? && line !in d.lines && fp !in d.certs
    ensures var e := RecordEnrollment(d, token, now, line, fp, nb, former);
            && TablesLater(d, e) && e.certs == d.certs[fp := Issued(line, nb, None, Some(token), |d.certs|)]
            && token in e.tokens && e.tokens[token].minted == d.tokens[token].minted
  {
  }

  lemma CommitEnrollGains(s: State, e: Step)
    requires Inv(s) && Enabled(s, e) && e.CommitEnroll?
    ensures Later(s, Apply(s, e)) && Gains(s, Apply(s, e))
  {
    var tx := s.txs[e.k];
    assert TxOk(s, tx);
    assert LinesReserved(s);
    hide TablesOk, TxsOk;
    EnrollmentLater(s.db, tx.token, tx.now, e.line, tx.enroll.fp, s.leaves[tx.enroll.fp].nb, tx.former);
    hide RecordEnrollment, TablesLater;
  }

  lemma RenewalLater(d: Tables, taken: bool, line: LineId, id: Identity, kind: Kind, current: Fingerprint,
                     currentNb: Time, fp: Fingerprint, nb: Time)
    requires fp !in d.certs && (taken ==> line !in d.lines && current !in d.certs)
    ensures var e := RecordRenewal(d, taken, line, id, kind, current, currentNb, fp, nb);
            && TablesLater(d, e) && e.tokens == d.tokens && e.revoked == d.revoked
            && (forall f :: f in e.certs && f !in d.certs ==> f == fp || (taken && f == current))
            && fp in e.certs && e.certs[fp].line == line && e.certs[fp].renewedFrom == Some(current)
            && (taken && current != fp ==>
                  current in e.certs && e.certs[current] == Issued(line, currentNb, None, None, |d.certs|))
  {
  }

  lemma CommitRenewGains(s: State, e: Step)
    requires Inv(s) && Enabled(s, e) && e.CommitRenew?
    ensures Later(s, Apply(s, e)) && Gains(s, Apply(s, e))
  {
    hide Inv, Apply, Enabled;
    CommitRenewIs(s, e);
    var tx := s.txs[e.k];
    var g := tx.renew;
    RenewalLater(s.db, g.taken, g.line, tx.id, g.kind, tx.current, s.leaves[tx.current].nb, g.fp, s.leaves[g.fp].nb);
    hide RecordRenewal, TablesLater;
  }

  lemma OpenLineLater(d: Tables, line: LineId, id: Identity, kind: Kind, fp: Fingerprint, nb: Time)
    requires fp !in d.certs && line !in d.lines
    ensures TablesLater(d, OpenLine(d, line, id, kind, true, fp, nb, Some(nb), None))
  {
  }

  lemma ServerTakeOverWrites(s: State, e: Step)
    requires Inv(s) && Enabled(s, e) && e.ServerTakeOver? && e.fp !in s.db.certs
    ensures e.fp in s.leaves && e.line !in s.db.lines
    ensures Active(s.db.revoked, s.leaves[e.fp].identity, Some(s.leaves[e.fp].nb))
    ensures Apply(s, e).db == OpenLine(s.db, e.line, s.leaves[e.fp].identity, e.kind, true, e.fp, s.leaves[e.fp].nb,
                                       Some(s.leaves[e.fp].nb), None)
    ensures Apply(s, e).leaves == s.leaves
  {
    hide TablesOk, TxsOk;
  }

  lemma ServerTakeOverGains(s: State, e: Step)
    requires Inv(s) && Enabled(s, e) && e.ServerTakeOver?
    ensures Later(s, Apply(s, e)) && Gains(s, Apply(s, e))
  {
    if e.fp !in s.db.certs {
      ServerTakeOverWrites(s, e);
      hide Inv, Enabled, Apply;
      OpenLineLater(s.db, e.line, s.leaves[e.fp].identity, e.kind, e.fp, s.leaves[e.fp].nb);
      hide TablesLater;
    } else {
      hide Inv, Enabled;
      assert Apply(s, e) == s;
    }
  }

  /** No other step records a certificate. */
  lemma OtherStepsGainNothing(s: State, e: Step)
    requires Inv(s) && Enabled(s, e) && !e.CommitEnroll? && !e.CommitRenew? && !e.ServerTakeOver?
    ensures Later(s, Apply(s, e)) && Apply(s, e).db.certs == s.db.certs
  {
    hide Apply, Enabled, Inv;
    LeavesLater(s, e);
    if e.AdmitEnroll? {
      AdmitEnrollWrites(s, e);
    } else if e.Mint? || e.Consume? || e.CommitRevoke? || e.RevokeOne? {
      SmallWritesLater(s, e);
    } else {
      OtherStepsWriteNothing(s, e);
    }
  }

  lemma AdmitEnrollWrites(s: State, e: Step)
    requires Inv(s) && Enabled(s, e) && e.AdmitEnroll?
    ensures TablesLater(s.db, Apply(s, e).db) && Apply(s, e).db.certs == s.db.certs
  {
    hide TablesOk, LinesReserved;
    assert TxOk(s, s.txs[e.k]);
    hide TxsOk;
  }

  lemma SmallWritesLater(s: State, e: Step)
    requires Enabled(s, e) && (e.Mint? || e.Consume? || e.CommitRevoke? || e.RevokeOne?)
    ensures TablesLater(s.db, Apply(s, e).db) && Apply(s, e).db.certs == s.db.certs
  {
    hide TokenFree, LineFree, RevokeLines;
    if e.Mint? {
      assert Apply(s, e).db == s.db.(tokens := s.db.tokens[e.token := e.row]);
      TokensLater(s.db, Apply(s, e).db);
    } else if e.Consume? {
      assert Apply(s, e).db == Spend(s.db, e.token, e.now, None);
      TokensLater(s.db, Apply(s, e).db);
    } else if e.RevokeOne? {
      assert Apply(s, e).db == RevokeLine(s.db, e.line, e.reason);
      OneRevokedLater(s.db, e.line, e.reason);
      hide Apply, Enabled;
    } else {
      assert Apply(s, e).db == RevokeLines(s.db, s.txs[e.k].seen.value).(revoked := s.db.revoked[s.txs[e.k].id := Some(s.txs[e.k].at)]);
      SeenRevokedLater(s.db, s.txs[e.k].seen.value, s.db.revoked[s.txs[e.k].id := Some(s.txs[e.k].at)]);
      hide Apply, Enabled;
    }
  }

  lemma TokensLater(d: Tables, e: Tables)
    requires e == d.(tokens := e.tokens) && forall k :: k in d.tokens ==> k in e.tokens && TokenLater(d.tokens[k], e.tokens[k])
    ensures TablesLater(d, e) && e.certs == d.certs
  {
  }

  lemma OneRevokedLater(d: Tables, line: LineId, reason: Reason)
    requires line in d.lines
    ensures TablesLater(d, RevokeLine(d, line, reason)) && RevokeLine(d, line, reason).certs == d.certs
  {
  }

  lemma SeenRevokedLater(d: Tables, seen: set<LineId>, revoked: map<Identity, Option<Time>>)
    ensures var e := RevokeLines(d, seen).(revoked := revoked); TablesLater(d, e) && e.certs == d.certs
  {
  }

  lemma OtherStepsWriteNothing(s: State, e: Step)
    requires Enabled(s, e) && !e.CommitEnroll? && !e.CommitRenew? && !e.ServerTakeOver? && !e.AdmitEnroll?
    requires !e.Mint? && !e.Consume? && !e.CommitRevoke? && !e.RevokeOne?
    ensures Apply(s, e).db == s.db
  {
  }

  lemma LeavesLater(s: State, e: Step)
    requires Enabled(s, e)
    ensures forall f :: f in s.leaves ==> f in Apply(s, e).leaves && Apply(s, e).leaves[f] == s.leaves[f]
  {
  }

  lemma StepGains(s: State, e: Step)
    requires Inv(s) && Enabled(s, e)
    ensures Later(s, Apply(s, e)) && Gains(s, Apply(s, e))
  {
    if e.CommitEnroll? {
      CommitEnrollGains(s, e);
    } else if e.CommitRenew? {
      CommitRenewGains(s, e);
    } else if e.ServerTakeOver? {
      ServerTakeOverGains(s, e);
    } else {
      OtherStepsGainNothing(s, e);
    }
  }

  lemma LaterTrans(s: State, t: State, u: State)
    requires Later(s, t) && Later(t, u)
    ensures Later(s, u)
  {
  }

  lemma {:induction false} RunsGoOn(s: State, steps: seq<Step>, t: State)
    requires Inv(s) && Runs(s, steps, t)
    ensures Later(s, t)
    decreases |steps|
  {
    hide Inv, Enabled, Apply, TablesLater;
    if steps == [] {
      LaterRefl(s);
    } else {
      StepKeepsInv(s, steps[0]);
      StepGains(s, steps[0]);
      RunsGoOn(Apply(s, steps[0]), steps[1..], t);
      LaterTrans(s, Apply(s, steps[0]), t);
    }
  }

  lemma LaterRefl(s: State)
    ensures Later(s, s)
  {
  }

  // ----- Revocation ----------------------------------------------------------------------

  /** A revocation does not move the point in time back. */
  predicate Forward(s: State, e: Step) {
    e.CommitRevoke? && e.k in s.txs && s.txs[e.k].Revoking? && s.txs[e.k].id in s.db.revoked ==>
      var point := s.db.revoked[s.txs[e.k].id];
      point.Some? && point.value <= s.txs[e.k].at
  }

  ghost predicate AllForward(s: State, steps: seq<Step>)
    decreases |steps|
  {
    steps != [] && Enabled(s, steps[0]) ==> Forward(s, steps[0]) && AllForward(Apply(s, steps[0]), steps[1..])
  }

  lemma ForwardTightens(s: State, e: Step, id: Identity, at: Option<Time>)
    requires Enabled(s, e) && Forward(s, e) && Active(Apply(s, e).db.revoked, id, at)
    ensures Active(s.db.revoked, id, at)
  {
    RevokedAfter(s, e);
    hide Enabled, Apply;
  }

  /** Only a revocation writes the table of the revoked. */
  lemma RevokedAfter(s: State, e: Step)
    requires Enabled(s, e)
    ensures if e.CommitRevoke?
            then e.k in s.txs && s.txs[e.k].Revoking? && Apply(s, e).db.revoked == s.db.revoked[s.txs[e.k].id := Some(s.txs[e.k].at)]
            else Apply(s, e).db.revoked == s.db.revoked
  {
    hide Apply, Enabled;
    if e.CommitEnroll? {
      EnrollRevokesNobody(s, e);
    } else if e.CommitRenew? {
      RenewRevokesNobody(s, e);
    } else if e.ServerTakeOver? {
      TakeOverRevokesNobody(s, e);
    } else if e.AdmitEnroll? || e.Mint? || e.Consume? {
      TokensRevokeNobody(s, e);
    } else if e.CommitRevoke? || e.RevokeOne? {
      RevocationsRevoke(s, e);
    } else {
      OtherStepsWriteNothing(s, e);
    }
  }

  lemma EnrollRevokesNobody(s: State, e: Step)
    requires Enabled(s, e) && e.CommitEnroll?
    ensures Apply(s, e).db.revoked == s.db.revoked
  {
    hide RecordEnrollment, Replaceable, LineFree;
    var tx := s.txs[e.k];
    EnrollmentRevokesNobody(s.db, tx.token, tx.now, e.line, tx.enroll.fp, s.leaves[tx.enroll.fp].nb, tx.former);
  }

  lemma RenewRevokesNobody(s: State, e: Step)
    requires Enabled(s, e) && e.CommitRenew?
    ensures Apply(s, e).db.revoked == s.db.revoked
  {
    hide RecordRenewal, Conflict;
    var tx := s.txs[e.k];
    var g := tx.renew;
    RenewalRevokesNobody(s.db, g.taken, g.line, tx.id, g.kind, tx.current, s.leaves[tx.current].nb, g.fp, s.leaves[g.fp].nb);
  }

  lemma RenewalRevokesNobody(d: Tables, taken: bool, line: LineId, id: Identity, kind: Kind, current: Fingerprint, currentNb: Time,
                             fp: Fingerprint, nb: Time)
    ensures RecordRenewal(d, taken, line, id, kind, current, currentNb, fp, nb).revoked == d.revoked
  {
  }

  lemma TakeOverRevokesNobody(s: State, e: Step)
    requires Enabled(s, e) && e.ServerTakeOver?
    ensures Apply(s, e).db.revoked == s.db.revoked
  {
    hide IdentityFree, Active, LegacyAdmitted;
  }

  lemma TokensRevokeNobody(s: State, e: Step)
    requires Enabled(s, e) && (e.AdmitEnroll? || e.Mint? || e.Consume?)
    ensures Apply(s, e).db.revoked == s.db.revoked
  {
    hide TokenFree, Active;
  }

  lemma RevocationsRevoke(s: State, e: Step)
    requires Enabled(s, e) && (e.CommitRevoke? || e.RevokeOne?)
    ensures if e.CommitRevoke?
            then e.k in s.txs && s.txs[e.k].Revoking? && Apply(s, e).db.revoked == s.db.revoked[s.txs[e.k].id := Some(s.txs[e.k].at)]
            else Apply(s, e).db.revoked == s.db.revoked
  {
    hide LineFree, RevokeLines;
  }

  lemma EnrollmentRevokesNobody(d: Tables, token: TokenId, now: Time, line: LineId, fp: Fingerprint, nb: Time, former: Option<Fingerprint>)
    requires token in d.tokens
    ensures RecordEnrollment(d, token, now, line, fp, nb, former).revoked == d.revoked
  {
    hide Replaceable;
  }

  lemma BasisStays(s: State, t: State, fp: Fingerprint)
    requires Later(s, t) && TablesOk(s.db, s.leaves) && fp in s.db.certs
    ensures fp in t.db.certs && Basis(t, fp) == Basis(s, fp)
    ensures fp in s.leaves && fp in t.leaves && t.leaves[fp] == s.leaves[fp]
  {
    assert CertOk(s.db, s.leaves, fp);
    if s.db.certs[fp].renewedFrom.Some? {
      assert CertOk(s.db, s.leaves, s.db.certs[fp].renewedFrom.value);
    }
  }

  lemma InvFacts(s: State)
    requires Inv(s)
    ensures TablesOk(s.db, s.leaves)
  {
  }

  /**
  In every interleaving, whatever is recorded after `s` for an identity rests on something
  the revocation in force at `s` leaves active: no successor of a certificate issued at or
  before that point, and nothing for a token minted at or before it. For an identity
  revoked without a time, nothing at all.
  */
  lemma {:induction false} RevokedIdentityGainsNothing(s: State, steps: seq<Step>, t: State, fp: Fingerprint)
    requires Inv(s) && Runs(s, steps, t) && AllForward(s, steps)
    requires fp in t.db.certs && fp !in s.db.certs
    ensures fp in t.leaves && Active(s.db.revoked, t.leaves[fp].identity, Basis(t, fp))
    decreases |steps|
  {
    hide Inv;
    if steps != [] {
      var u := Apply(s, steps[0]);
      StepKeepsInv(s, steps[0]);
      StepGains(s, steps[0]);
      if fp in u.db.certs {
        assert GainOk(s, u, fp);
        RunsGoOn(u, steps[1..], t);
        InvFacts(u);
        BasisStays(u, t, fp);
      } else {
        RevokedIdentityGainsNothing(u, steps[1..], t, fp);
        ForwardTightens(s, steps[0], t.leaves[fp].identity, Basis(t, fp));
      }
    }
  }

  /** The same, read off for a point in time. */
  lemma RevokedAsOf(initial: State, before: seq<Step>, s: State, after: seq<Step>, t: State, id: Identity, point: Time,
                    fp: Fingerprint)
    requires Initial(initial) && Runs(initial, before, s) && Runs(s, after, t) && AllForward(s, after)
    requires id in s.db.revoked && s.db.revoked[id] == Some(point)
    requires fp in t.db.certs && fp !in s.db.certs && fp in t.leaves && t.leaves[fp].identity == id
    ensures var c := t.db.certs[fp];
            && (c.renewedFrom.Some? ==> c.renewedFrom.value in t.leaves && t.leaves[c.renewedFrom.value].nb > point)
            && (c.token.Some? ==>
                  && c.token.value in t.db.tokens && t.db.tokens[c.token.value].minted.Some?
                  && t.db.tokens[c.token.value].minted.value > point)
            && (c.renewedFrom.None? && c.token.None? ==> t.leaves[fp].nb > point)
  {
    hide Inv, Runs, AllForward;
    InitialInv(initial);
    RunsKeepInv(initial, before, s);
    RevokedIdentityGainsNothing(s, after, t, fp);
    RunsKeepInv(s, after, t);
    InvFacts(t);
    assert CertOk(t.db, t.leaves, fp);
  }

  /** A revoked line never gains a certificate. */
  lemma {:induction false} RevokedLineGainsNothing(s: State, steps: seq<Step>, t: State, line: LineId, fp: Fingerprint)
    requires Inv(s) && Runs(s, steps, t)
    requires line in s.db.lines && s.db.lines[line].revoked.Some?
    requires fp in t.db.certs && t.db.certs[fp].line == line
    ensures fp in s.db.certs && line in t.db.lines && t.db.lines[line].revoked.Some?
    decreases |steps|
  {
    hide Inv;
    if steps != [] {
      var u := Apply(s, steps[0]);
      StepKeepsInv(s, steps[0]);
      StepGains(s, steps[0]);
      RevokedLineGainsNothing(u, steps[1..], t, line, fp);
      RunsGoOn(u, steps[1..], t);
      assert u.db.certs[fp] == t.db.certs[fp];
      assert Gains(s, u);
    }
  }

  /** No line escapes a revocation: an open one was opened on something newer. */
  lemma OpenLinesAreNewer(initial: State, steps: seq<Step>, s: State, line: LineId)
    requires Initial(initial) && Runs(initial, steps, s)
    requires line in s.db.lines && s.db.lines[line].revoked.None?
    ensures Active(s.db.revoked, s.db.lines[line].identity, s.db.lines[line].basis)
  {
    InitialInv(initial);
    RunsKeepInv(initial, steps, s);
    assert LineOk(s.db, line);
  }

  /**
  The condition Forward cannot be dropped: after any revocation that moves the point back
  behind an unrecorded certificate of the transition, that certificate is taken over again.
  */
  lemma MovedBackReadmits(s: State, k: TxId, fp: Fingerprint, line: LineId, kind: Kind, now: Time)
    requires Inv(s) && Enabled(s, CommitRevoke(k)) && !Forward(s, CommitRevoke(k))
    requires fp in s.leaves && fp !in s.db.certs && s.leaves[fp].identity == s.txs[k].id && line !in s.reserved
    requires LegacyAdmitted(s.leaves[fp].nb, s.db.installed, now)
    requires s.txs[k].at < s.leaves[fp].nb && !Active(s.db.revoked, s.txs[k].id, Some(s.leaves[fp].nb))
    ensures var u := Apply(s, CommitRevoke(k));
            Enabled(u, ServerTakeOver(fp, line, kind, now)) && fp in Apply(u, ServerTakeOver(fp, line, kind, now)).db.certs
  {
    hide TablesOk, LinesReserved, TxOk, LineFree, OpenLines;
    var u := Apply(s, CommitRevoke(k));
    var tx := s.txs[k];
    assert u == End(s, k).(db := RevokeLines(s.db, tx.seen.value).(revoked := s.db.revoked[tx.id := Some(tx.at)]));
    forall j | j in u.txs ensures !(HasLock(u.txs[j]) && u.txs[j].id == s.txs[k].id) {
      assert Apart(s.txs[j], s.txs[k]);
    }
  }

  /** What an enrollment of `token` in a state without other work on it does, step by step. */
  function EnrollAlone(k: TxId, token: TokenId, now: Time, fp: Fingerprint, nb: Time, line: LineId): seq<Step> {
    [BeginEnroll(k, token, None, now), LockEnroll(k), AdmitEnroll(k), SignEnroll(k, fp, nb), CommitEnroll(k, line)]
  }

  /** One step more at the head of a run. */
  lemma RunsStep(s: State, e: Step, rest: seq<Step>, t: State)
    requires Enabled(s, e) && Runs(Apply(s, e), rest, t)
    ensures Runs(s, [e] + rest, t)
  {
    assert ([e] + rest)[0] == e && ([e] + rest)[1..] == rest;
  }

  lemma RunsNothing(s: State)
    ensures Runs(s, [], s)
  {
  }

  /** A usable token of an active identity that nobody works on is spent on a certificate. */
  lemma EnrollAloneRuns(s: State, k: TxId, token: TokenId, now: Time, fp: Fingerprint, nb: Time, line: LineId) returns (t: State)
    requires k !in s.txs && Usable(s.db, token, now) && TokenFree(s, token)
    requires IdentityFree(s, s.db.tokens[token].identity) && fp !in s.leaves && line !in s.reserved
    requires Active(s.db.revoked, s.db.tokens[token].identity, s.db.tokens[token].minted)
    ensures Runs(s, EnrollAlone(k, token, now, fp, nb, line), t)
    ensures fp in t.db.certs && t.db.certs[fp].renewedFrom.None? && t.db.certs[fp].token == Some(token)
    ensures fp in t.leaves && t.leaves[fp].identity == s.db.tokens[token].identity
    ensures token in t.db.tokens && t.db.tokens[token].minted == s.db.tokens[token].minted
  {
    hide Runs, Apply, Enabled, RecordEnrollment, TokenFree, IdentityFree, Active;
    var id := s.db.tokens[token].identity;
    var s1, s2 := Put(s, k, Enrolling(id, token, None, now, Consumed)), Put(s, k, Enrolling(id, token, None, now, InLock));
    var s3 := Put(s, k, Enrolling(id, token, None, now, Admitted));
    var s4 := Put(s, k, Enrolling(id, token, None, now, Signed(fp))).(leaves := s.leaves[fp := Leaf(id, nb)]);
    t := s.(db := RecordEnrollment(s.db, token, now, line, fp, nb, None), leaves := s4.leaves, reserved := s.reserved[line := id]);
    AloneBegins(s, k, token, now);
    AloneGoesOn(s, k, token, now, fp, nb);
    AloneCommits(s, k, token, now, fp, nb, line);
    RecordedFirst(s.db, token, now, line, fp, nb);
    assert EnrollAlone(k, token, now, fp, nb, line)
        == [BeginEnroll(k, token, None, now)] + ([LockEnroll(k)] + ([AdmitEnroll(k)] + ([SignEnroll(k, fp, nb)] + ([CommitEnroll(k, line)]))));
    RunsNothing(t);
    RunsStep(s4, CommitEnroll(k, line), [], t);
    assert [CommitEnroll(k, line)] + [] == [CommitEnroll(k, line)];
    RunsStep(s3, SignEnroll(k, fp, nb), [CommitEnroll(k, line)], t);
    RunsStep(s2, AdmitEnroll(k), [SignEnroll(k, fp, nb)] + ([CommitEnroll(k, line)]), t);
    RunsStep(s1, LockEnroll(k), [AdmitEnroll(k)] + ([SignEnroll(k, fp, nb)] + ([CommitEnroll(k, line)])), t);
    RunsStep(s, BeginEnroll(k, token, None, now), [LockEnroll(k)] + ([AdmitEnroll(k)] + ([SignEnroll(k, fp, nb)] + ([CommitEnroll(k, line)]))), t);
  }

  lemma RecordedFirst(d: Tables, token: TokenId, now: Time, line: LineId, fp: Fingerprint, nb: Time)
    requires token in d.tokens
    ensures var e := RecordEnrollment(d, token, now, line, fp, nb, None);
            && fp in e.certs && e.certs[fp].renewedFrom.None? && e.certs[fp].token == Some(token)
            && token in e.tokens && e.tokens[token].minted == d.tokens[token].minted
  {
  }

  lemma AloneBegins(s: State, k: TxId, token: TokenId, now: Time)
    requires k !in s.txs && Usable(s.db, token, now) && TokenFree(s, token) && IdentityFree(s, s.db.tokens[token].identity)
    ensures var id := s.db.tokens[token].identity;
            var s1, s2 := Put(s, k, Enrolling(id, token, None, now, Consumed)), Put(s, k, Enrolling(id, token, None, now, InLock));
            && Enabled(s, BeginEnroll(k, token, None, now)) && Apply(s, BeginEnroll(k, token, None, now)) == s1
            && Enabled(s1, LockEnroll(k)) && Apply(s1, LockEnroll(k)) == s2
  {
    var id := s.db.tokens[token].identity;
    assert s.txs[k := Enrolling(id, token, None, now, Consumed)][k := Enrolling(id, token, None, now, InLock)]
        == s.txs[k := Enrolling(id, token, None, now, InLock)];
  }

  lemma AloneGoesOn(s: State, k: TxId, token: TokenId, now: Time, fp: Fingerprint, nb: Time)
    requires k !in s.txs && Usable(s.db, token, now) && fp !in s.leaves
    requires Active(s.db.revoked, s.db.tokens[token].identity, s.db.tokens[token].minted)
    ensures var id := s.db.tokens[token].identity;
            var s2, s3 := Put(s, k, Enrolling(id, token, None, now, InLock)), Put(s, k, Enrolling(id, token, None, now, Admitted));
            var s4 := Put(s, k, Enrolling(id, token, None, now, Signed(fp))).(leaves := s.leaves[fp := Leaf(id, nb)]);
            && Enabled(s2, AdmitEnroll(k)) && Apply(s2, AdmitEnroll(k)) == s3
            && Enabled(s3, SignEnroll(k, fp, nb)) && Apply(s3, SignEnroll(k, fp, nb)) == s4
  {
    var id := s.db.tokens[token].identity;
    var locked, admitted, signed :=
      Enrolling(id, token, None, now, InLock), Enrolling(id, token, None, now, Admitted), Enrolling(id, token, None, now, Signed(fp));
    assert s.txs[k := locked][k := admitted] == s.txs[k := admitted];
    assert s.txs[k := admitted][k := signed] == s.txs[k := signed];
  }

  lemma AloneCommits(s: State, k: TxId, token: TokenId, now: Time, fp: Fingerprint, nb: Time, line: LineId)
    requires k !in s.txs && Usable(s.db, token, now) && fp !in s.leaves && line !in s.reserved
    ensures var id := s.db.tokens[token].identity;
            var s4 := Put(s, k, Enrolling(id, token, None, now, Signed(fp))).(leaves := s.leaves[fp := Leaf(id, nb)]);
            && Enabled(s4, CommitEnroll(k, line))
            && Apply(s4, CommitEnroll(k, line))
               == s.(db := RecordEnrollment(s.db, token, now, line, fp, nb, None), leaves := s4.leaves, reserved := s.reserved[line := id])
  {
    hide RecordEnrollment;
    assert s.txs[k := Enrolling(s.db.tokens[token].identity, token, None, now, Signed(fp))] - {k} == s.txs;
  }

  /**
  Nor does it need the transition: after any revocation that moves the point back behind
  the minting of a token the first one had closed off, that token enrolls again.
  */
  lemma MovedBackReadmitsToken(s: State, k: TxId, token: TokenId, now: Time, fp: Fingerprint, nb: Time, line: LineId)
    returns (t: State)
    requires Inv(s) && Enabled(s, CommitRevoke(k)) && !Forward(s, CommitRevoke(k))
    requires Usable(s.db, token, now) && TokenFree(s, token) && s.db.tokens[token].identity == s.txs[k].id
    requires s.db.tokens[token].minted.Some? && s.txs[k].at < s.db.tokens[token].minted.value
    requires !Active(s.db.revoked, s.txs[k].id, s.db.tokens[token].minted)
    requires fp !in s.leaves && line !in s.reserved
    ensures Runs(s, [CommitRevoke(k)] + EnrollAlone(k, token, now, fp, nb, line), t)
    ensures fp !in s.db.certs && fp in t.db.certs && fp in t.leaves && t.leaves[fp].identity == s.txs[k].id
    ensures Basis(t, fp) == s.db.tokens[token].minted && !Active(s.db.revoked, s.txs[k].id, Basis(t, fp))
  {
    UnsignedUnrecorded(s.db, s.leaves, fp);
    hide TablesOk, LinesReserved;
    var u := Apply(s, CommitRevoke(k));
    forall j | j in u.txs ensures !(HasLock(u.txs[j]) && u.txs[j].id == s.txs[k].id) {
      assert Apart(s.txs[j], s.txs[k]);
    }
    t := EnrollAloneRuns(u, k, token, now, fp, nb, line);
    hide Runs;
    RunsStep(s, CommitRevoke(k), EnrollAlone(k, token, now, fp, nb, line), t);
  }

  /** A second revocation of an identity without lines, stamped before the minting the first one closed off. */
  lemma SecondMovesBack(s: State, id: Identity, at: Time, token: TokenId, now: Time, fp: Fingerprint, nb: Time, line: LineId)
    returns (after: seq<Step>, t: State)
    requires Initial(s) && id in s.db.revoked && s.db.revoked[id].Some? && fp !in s.leaves
    requires Usable(s.db, token, now) && s.db.tokens[token].identity == id && s.db.tokens[token].minted.Some?
    requires at < s.db.tokens[token].minted.value <= s.db.revoked[id].value
    ensures Runs(s, after, t) && !AllForward(s, after)
    ensures fp !in s.db.certs && fp in t.db.certs && fp in t.leaves && t.leaves[fp].identity == id
    ensures Basis(t, fp) == s.db.tokens[token].minted
  {
    var s1, s2 := Put(s, 0, Revoking(id, at, None)), Put(s, 0, Revoking(id, at, Some({})));
    RevokeAloneBegins(s, 0, id, at);
    RevokingAloneInv(s, 0, id, at);
    assert !Forward(s2, CommitRevoke(0)) && TokenFree(s2, token) && line !in s2.reserved;
    hide Inv, Enabled, Apply, Runs, AllForward, Initial, Forward, TokenFree;
    var enroll := EnrollAlone(0, token, now, fp, nb, line);
    t := MovedBackReadmitsToken(s2, 0, token, now, fp, nb, line);
    var last := [CommitRevoke(0)] + enroll;
    NotForward(s2, CommitRevoke(0), enroll);
    NotForwardLater(s1, SeeLines(0), last);
    NotForwardLater(s, BeginRevoke(0, id, at), [SeeLines(0)] + last);
    RunsStep(s1, SeeLines(0), last, t);
    RunsStep(s, BeginRevoke(0, id, at), [SeeLines(0)] + last, t);
    after := [BeginRevoke(0, id, at)] + ([SeeLines(0)] + last);
  }

  /**
  Such a run from an empty register: revocations stamped 3 and 10, the one stamped 3
  committed last, and a certificate for a token minted at 5 although 10 was in force.
  */
  lemma MovedBackHappens() returns (initial: State, before: seq<Step>, s: State, after: seq<Step>, t: State, id: Identity, fp: Fingerprint)
    ensures Initial(initial) && Runs(initial, before, s) && Runs(s, after, t) && !AllForward(s, after)
    ensures id in s.db.revoked && s.db.revoked[id] == Some(10)
    ensures fp in t.db.certs && fp !in s.db.certs && fp in t.leaves && t.leaves[fp].identity == id
    ensures Basis(t, fp) == Some(5)
  {
    id, fp := Identity("u", Access), 1;
    var token := Token(id, false, 100, None, Some(5), None);
    initial := State(Tables(map[0 := token], map[], map[], map[], None), map[], map[], map[]);
    before := [BeginRevoke(0, id, 10)] + ([SeeLines(0)] + ([CommitRevoke(0)] + []));
    s := RevokeAloneRuns(initial, 0, id, 10);
    hide Runs, AllForward;
    after, t := SecondMovesBack(s, id, 3, 0, 50, fp, 50, 7);
  }

  /** A revocation in a register without lines and other work. */
  lemma RevokeAloneRuns(s: State, k: TxId, id: Identity, at: Time) returns (t: State)
    requires s.txs == map[] && s.db.lines == map[]
    ensures Runs(s, [BeginRevoke(k, id, at)] + ([SeeLines(k)] + ([CommitRevoke(k)] + [])), t)
    ensures t == s.(db := s.db.(revoked := s.db.revoked[id := Some(at)]))
  {
    var s1, s2 := Put(s, k, Revoking(id, at, None)), Put(s, k, Revoking(id, at, Some({})));
    RevokeAloneBegins(s, k, id, at);
    t := Apply(s2, CommitRevoke(k));
    assert s2.txs - {k} == s.txs && t.db.lines == s.db.lines;
    hide Runs, Apply, Enabled;
    RunsNothing(t);
    RunsStep(s2, CommitRevoke(k), [], t);
    RunsStep(s1, SeeLines(k), [CommitRevoke(k)] + [], t);
    RunsStep(s, BeginRevoke(k, id, at), [SeeLines(k)] + ([CommitRevoke(k)] + []), t);
  }

  lemma RevokeAloneBegins(s: State, k: TxId, id: Identity, at: Time)
    requires s.txs == map[] && s.db.lines == map[]
    ensures var s1, s2 := Put(s, k, Revoking(id, at, None)), Put(s, k, Revoking(id, at, Some({})));
            && Enabled(s, BeginRevoke(k, id, at)) && Apply(s, BeginRevoke(k, id, at)) == s1
            && Enabled(s1, SeeLines(k)) && Apply(s1, SeeLines(k)) == s2 && Enabled(s2, CommitRevoke(k))
  {
    assert OpenLines(s.db, id) == {};
    assert s.txs[k := Revoking(id, at, None)][k := Revoking(id, at, Some({}))] == s.txs[k := Revoking(id, at, Some({}))];
  }

  lemma RevokingAloneInv(s: State, k: TxId, id: Identity, at: Time)
    requires Initial(s)
    ensures Inv(Put(s, k, Revoking(id, at, Some({}))))
  {
  }

  lemma NotForward(s: State, e: Step, rest: seq<Step>)
    requires Enabled(s, e) && !Forward(s, e)
    ensures !AllForward(s, [e] + rest)
  {
    assert ([e] + rest)[0] == e;
  }

  lemma NotForwardLater(s: State, e: Step, rest: seq<Step>)
    requires Enabled(s, e) && !AllForward(Apply(s, e), rest)
    ensures !AllForward(s, [e] + rest)
  {
    assert ([e] + rest)[0] == e && ([e] + rest)[1..] == rest;
  }

  // ----- Tokens and lines ----------------------------------------------------------------

  /** Each token yields at most one certificate, and one that did is spent. */
  lemma OneCertificatePerToken(initial: State, steps: seq<Step>, s: State, a: Fingerprint, b: Fingerprint)
    requires Initial(initial) && Runs(initial, steps, s)
    requires a in s.db.certs && b in s.db.certs && s.db.certs[a].token.Some? && s.db.certs[a].token == s.db.certs[b].token
    ensures a == b
    ensures s.db.certs[a].token.value in s.db.tokens && s.db.tokens[s.db.certs[a].token.value].used.Some?
  {
    InitialInv(initial);
    RunsKeepInv(initial, steps, s);
    assert CertOk(s.db, s.leaves, a) && CertOk(s.db, s.leaves, b);
  }

  /** A failed signing, like every roll-back, writes nothing and leaves the token usable. */
  lemma FailedSigningSpendsNothing(initial: State, steps: seq<Step>, s: State, k: TxId, other: TxId,
                                   former: Option<Fingerprint>, now: Time)
    requires Initial(initial) && Runs(initial, steps, s)
    requires k in s.txs && s.txs[k].Enrolling? && other !in Apply(s, Abort(k)).txs
    requires s.txs[k].token in s.db.tokens ==> now < s.db.tokens[s.txs[k].token].expires
    ensures Apply(s, Abort(k)).db == s.db
    ensures Enabled(Apply(s, Abort(k)), BeginEnroll(other, s.txs[k].token, former, now))
  {
    InitialInv(initial);
    RunsKeepInv(initial, steps, s);
    hide TablesOk;
    assert TxOk(s, s.txs[k]);
    var t := Apply(s, Abort(k));
    forall j | j in t.txs ensures !(t.txs[j].Enrolling? && t.txs[j].token == s.txs[k].token) {
      assert Apart(s.txs[j], s.txs[k]);
    }
  }

  /**
  Every recorded certificate is on one line, of its own subject and scope, in the line's
  tree; the line is legacy exactly if the certificate it began with was not enrolled with a token.
  */
  lemma RecordedOnItsOwnLine(initial: State, steps: seq<Step>, s: State, fp: Fingerprint) returns (back: nat)
    requires Initial(initial) && Runs(initial, steps, s) && fp in s.db.certs
    ensures fp in s.leaves && s.db.certs[fp].line in s.db.lines
    ensures s.db.lines[s.db.certs[fp].line].identity == s.leaves[fp].identity
    ensures Descends(s.db, fp, back, s.db.lines[s.db.certs[fp].line].first)
    ensures forall x :: x in s.db.certs && s.db.certs[x].line == s.db.certs[fp].line && s.db.certs[x].renewedFrom.None?
              ==> x == s.db.lines[s.db.certs[fp].line].first
    ensures var line := s.db.lines[s.db.certs[fp].line];
            line.first in s.db.certs && (line.legacy <==> s.db.certs[line.first].token.None?)
  {
    InitialInv(initial);
    RunsKeepInv(initial, steps, s);
    assert LineOk(s.db, s.db.certs[fp].line);
    assert CertOk(s.db, s.leaves, fp);
    back := LineIsATree(s.db, s.leaves, fp);
  }

  /** An enrollment revokes at most one of the lines there were, and that of its own identity. */
  lemma EnrollmentRevokesAtMostOne(s: State, e: Step, a: LineId, b: LineId)
    requires Inv(s) && Enabled(s, e) && e.CommitEnroll?
    requires a in s.db.lines && b in s.db.lines
    requires Apply(s, e).db.lines[a] != s.db.lines[a] && Apply(s, e).db.lines[b] != s.db.lines[b]
    ensures a == b && s.db.lines[a].identity == s.db.tokens[s.txs[e.k].token].identity
    ensures s.txs[e.k].former.Some? && LineOf(s.db, s.txs[e.k].former.value) == Some(a)
    ensures Apply(s, e).db.lines[a] == s.db.lines[a].(revoked := Some(Replaced))
  {
    hide TablesOk;
    assert TxOk(s, s.txs[e.k]);
  }
}
