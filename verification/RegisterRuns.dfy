/** What holds in every interleaving of enrollments, renewals and revocations. */
module RegisterRuns {
  import opened Common
  import opened RegisterTables
  import opened Register

  /** Transaction `k` moved on while it held its identity; the others did nothing. */
  lemma TxsKept(s: State, t: State, k: TxId)
    requires TxsOk(s) && k in s.txs && HasLock(s.txs[k]) && Confined(s, t, s.txs[k].id)
    requires t.txs - {k} == s.txs - {k}
    requires forall j :: j in s.txs && j != k && s.txs[j].Enrolling? ==>
               var token := s.txs[j].token;
               token in s.db.tokens && token in t.db.tokens && t.db.tokens[token] == s.db.tokens[token]
    requires k in t.txs ==> TxOk(t, t.txs[k]) && HasLock(t.txs[k]) && t.txs[k].id == s.txs[k].id
    requires k in t.txs ==> (t.txs[k].Enrolling? <==> s.txs[k].Enrolling?)
    requires k in t.txs && t.txs[k].Enrolling? ==> t.txs[k].token == s.txs[k].token
    ensures TxsOk(t)
  {
    forall j | j in t.txs ensures TxOk(t, t.txs[j]) {
      if j != k {
        assert j in t.txs - {k};
        assert t.txs[j] == (t.txs - {k})[j] == (s.txs - {k})[j] == s.txs[j];
        assert Apart(s.txs[j], s.txs[k]);
        OthersOk(s, t, s.txs[k].id, s.txs[j]);
      }
    }
    SameTxs(s, t, k);
    forall i, j | i in t.txs && j in t.txs && i != j ensures Apart(t.txs[i], t.txs[j]) {
      if i != k && j != k {
        assert Apart(s.txs[i], s.txs[j]);
      } else if i == k {
        assert Apart(s.txs[k], s.txs[j]);
      } else {
        assert Apart(s.txs[i], s.txs[k]);
      }
    }
  }

  lemma SameTxs(s: State, t: State, k: TxId)
    requires t.txs - {k} == s.txs - {k}
    ensures forall j :: j != k ==> (j in t.txs <==> j in s.txs)
    ensures forall j :: j != k && j in t.txs ==> t.txs[j] == s.txs[j]
  {
    forall j | j != k ensures j in t.txs <==> j in s.txs {
      assert j in t.txs <==> j in t.txs - {k};
      assert j in s.txs <==> j in s.txs - {k};
    }
    forall j | j != k && j in t.txs ensures t.txs[j] == s.txs[j] {
      assert t.txs[j] == (t.txs - {k})[j] == (s.txs - {k})[j] == s.txs[j];
    }
  }

  /** Transaction `k` begins, or takes its lock: no table changes. */
  lemma TxsJoined(s: State, t: State, k: TxId)
    requires TxsOk(s) && k in t.txs && t == Put(s, k, t.txs[k]) && TxOk(s, t.txs[k])
    requires forall j :: j in s.txs && j != k ==> Apart(s.txs[j], t.txs[k]) && Apart(t.txs[k], s.txs[j])
    ensures TxsOk(t)
  {
    forall j | j in t.txs ensures TxOk(t, t.txs[j]) {
      assert j != k ==> TxOk(s, s.txs[j]);
    }
    forall i, j | i in t.txs && j in t.txs && i != j ensures Apart(t.txs[i], t.txs[j]) {
      if i != k && j != k {
        assert Apart(s.txs[i], s.txs[j]);
      }
    }
  }

  /** Transaction `k` ends without a write. */
  lemma TxsLeft(s: State, k: TxId)
    requires TxsOk(s)
    ensures TxsOk(End(s, k))
  {
    var t := End(s, k);
    forall j | j in t.txs ensures TxOk(t, t.txs[j]) {
      assert TxOk(s, s.txs[j]);
    }
    forall i, j | i in t.txs && j in t.txs && i != j ensures Apart(t.txs[i], t.txs[j]) {
      assert Apart(s.txs[i], s.txs[j]);
    }
  }

  /** A write outside every transaction. */
  lemma TxsAside(s: State, t: State)
    requires TxsOk(s) && t.txs == s.txs
    requires forall k :: k in s.txs ==> TxOk(t, s.txs[k])
    ensures TxsOk(t)
  {
  }

  // ----- Enrolling -----------------------------------------------------------------------

  lemma BeginEnrollKeeps(s: State, e: Step)
    requires Inv(s) && Enabled(s, e) && (e.BeginEnroll? || e.LockEnroll?)
    ensures Inv(Apply(s, e))
  {
    hide TablesOk;
    assert e.LockEnroll? ==> TxOk(s, s.txs[e.k]);
    TxsJoined(s, Apply(s, e), e.k);
  }

  lemma TokensApart(s: State, t: State, k: TxId)
    requires TxsOk(s) && k in s.txs && s.txs[k].Enrolling?
    requires forall x :: x in s.db.tokens && x != s.txs[k].token ==> x in t.db.tokens && t.db.tokens[x] == s.db.tokens[x]
    ensures forall j :: j in s.txs && j != k && s.txs[j].Enrolling? ==>
              var token := s.txs[j].token;
              token in s.db.tokens && token in t.db.tokens && t.db.tokens[token] == s.db.tokens[token]
  {
    forall j | j in s.txs && j != k && s.txs[j].Enrolling?
      ensures var token := s.txs[j].token; token in s.db.tokens && token in t.db.tokens && t.db.tokens[token] == s.db.tokens[token]
    {
      assert Apart(s.txs[j], s.txs[k]) && TxOk(s, s.txs[j]);
    }
  }

  lemma AdmitEnrollKeeps(s: State, e: Step)
    requires Inv(s) && Enabled(s, e) && e.AdmitEnroll?
    ensures Inv(Apply(s, e))
  {
    hide TablesOk, LinesReserved;
    var t, tx := Apply(s, e), s.txs[e.k];
    assert TxOk(s, tx);
    if Active(s.db.revoked, tx.id, s.db.tokens[tx.token].minted) {
      assert t == Put(s, e.k, tx.(enroll := Admitted));
      hide Enabled, Apply;
      forall j | j in s.txs && j != e.k ensures Apart(s.txs[j], t.txs[e.k]) && Apart(t.txs[e.k], s.txs[j]) {
        assert Apart(s.txs[j], tx);
      }
      TxsJoined(s, t, e.k);
      SameLinesReserved(s, t);
    } else {
      assert t == End(s, e.k).(db := Spend(s.db, tx.token, tx.now, None));
      hide Enabled, Apply;
      SpendOk(s.db, s.leaves, tx.token, tx.now, None);
      TokensApart(s, t, e.k);
      SpentConfined(s, t, tx.id);
      hide Confined, TxOk, TxsOk;
      TxsKept(s, t, e.k);
      SameLinesReserved(s, t);
    }
  }

  lemma SpentConfined(s: State, t: State, id: Identity)
    requires t == s.(txs := t.txs, db := s.db.(tokens := t.db.tokens))
    ensures Confined(s, t, id)
  {
  }

  lemma SameLinesReserved(s: State, t: State)
    requires LinesReserved(s) && t.db.lines == s.db.lines && t.reserved == s.reserved
    ensures LinesReserved(t)
  {
  }

  lemma LeavesGrow(d: Tables, leaves: map<Fingerprint, Leaf>, fp: Fingerprint, leaf: Leaf)
    requires TablesOk(d, leaves) && fp !in leaves
    ensures TablesOk(d, leaves[fp := leaf])
  {
    forall x | x in d.certs ensures CertOk(d, leaves[fp := leaf], x) {
      assert CertOk(d, leaves, x);
    }
  }

  /** Only what is signed is recorded. */
  lemma UnsignedUnrecorded(d: Tables, leaves: map<Fingerprint, Leaf>, fp: Fingerprint)
    requires TablesOk(d, leaves) && fp !in leaves
    ensures fp !in d.certs
  {
  }

  lemma SignConfined(s: State, t: State, id: Identity, fp: Fingerprint, leaf: Leaf)
    requires t.db == s.db && t.reserved == s.reserved && fp !in s.leaves && t.leaves == s.leaves[fp := leaf]
    ensures Confined(s, t, id)
  {
  }

  lemma DrawConfined(s: State, t: State, id: Identity, line: LineId)
    requires t.db == s.db && t.leaves == s.leaves && line !in s.reserved && t.reserved == s.reserved[line := id]
    ensures Confined(s, t, id)
  {
  }

  /** A leaf was signed for transaction `k`, which is now at `next`. */
  lemma SignedKeeps(s: State, k: TxId, fp: Fingerprint, nb: Time, next: Tx)
    requires Inv(s) && k in s.txs && HasLock(s.txs[k]) && fp !in s.leaves
    requires HasLock(next) && next.id == s.txs[k].id && (next.Enrolling? <==> s.txs[k].Enrolling?)
    requires next.Enrolling? ==> next.token == s.txs[k].token
    requires var t := Put(s, k, next).(leaves := s.leaves[fp := Leaf(next.id, nb)]); TxOk(t, next)
    ensures Inv(Put(s, k, next).(leaves := s.leaves[fp := Leaf(next.id, nb)]))
  {
    var t := Put(s, k, next).(leaves := s.leaves[fp := Leaf(next.id, nb)]);
    LeavesGrow(s.db, s.leaves, fp, Leaf(next.id, nb));
    SignConfined(s, t, next.id, fp, Leaf(next.id, nb));
    TokensHeld(s, k);
    hide TablesOk, TxOk, Confined, TxsOk;
    TxsKept(s, t, k);
  }

  lemma SignEnrollKeeps(s: State, e: Step)
    requires Inv(s) && Enabled(s, e) && e.SignEnroll?
    ensures Inv(Apply(s, e))
  {
    UnsignedUnrecorded(s.db, s.leaves, e.fp);
    assert TxOk(s, s.txs[e.k]);
    hide TablesOk;
    SignedKeeps(s, e.k, e.fp, e.nb, s.txs[e.k].(enroll := Signed(e.fp)));
  }

  lemma SignRenewKeeps(s: State, e: Step)
    requires Inv(s) && Enabled(s, e) && e.SignRenew?
    ensures Inv(Apply(s, e))
  {
    hide TablesOk, LinesReserved;
    UnsignedUnrecorded(s.db, s.leaves, e.fp);
    assert TxOk(s, s.txs[e.k]);
    hide TxsOk;
    var g := s.txs[e.k].renew;
    var next := s.txs[e.k].(renew := SignedOn(g.line, g.taken, g.kind, e.fp));
    assert Apply(s, e) == Put(s, e.k, next).(leaves := s.leaves[e.fp := Leaf(next.id, e.nb)]);
    hide Enabled, Apply;
    SignedKeeps(s, e.k, e.fp, e.nb, next);
  }

  /** A new line of the identity, with its certificate. */
  lemma OpenLineConfined(d: Tables, leaves: map<Fingerprint, Leaf>, reserved: map<LineId, Identity>, line: LineId, id: Identity, kind: Kind,
                         legacy: bool, fp: Fingerprint, nb: Time, basis: Option<Time>, token: Option<TokenId>)
    requires fp in leaves && leaves[fp].identity == id && fp !in d.certs
    requires line !in d.lines && line in reserved && reserved[line] == id
    ensures var e := OpenLine(d, line, id, kind, legacy, fp, nb, basis, token);
            CertsConfined(d, e, leaves, id) && LinesConfined(d, e, reserved, id) && e.revoked == d.revoked && e.tokens == d.tokens
  {
  }

  /** A replaced line of the same identity is revoked, no other. */
  lemma ReplacedConfined(d: Tables, e: Tables, reserved: map<LineId, Identity>, former: Option<Fingerprint>, id: Identity)
    requires LinesConfined(d, e, reserved, id)
    ensures var f := RevokeReplaced(e, former, id);
            LinesConfined(d, f, reserved, id) && f.certs == e.certs && f.revoked == e.revoked && f.tokens == e.tokens
  {
  }

  lemma SpentSame(d: Tables, spent: Tables, e: Tables, leaves: map<Fingerprint, Leaf>, reserved: map<LineId, Identity>, id: Identity)
    requires spent.lines == d.lines && spent.certs == d.certs
    requires CertsConfined(spent, e, leaves, id) && LinesConfined(spent, e, reserved, id)
    ensures CertsConfined(d, e, leaves, id) && LinesConfined(d, e, reserved, id)
  {
  }

  lemma SameCerts(d: Tables, e: Tables, f: Tables, leaves: map<Fingerprint, Leaf>, id: Identity)
    requires CertsConfined(d, e, leaves, id) && f.certs == e.certs
    ensures CertsConfined(d, f, leaves, id)
  {
  }

  lemma EnrollmentConfined(d: Tables, leaves: map<Fingerprint, Leaf>, reserved: map<LineId, Identity>, token: TokenId, now: Time, line: LineId,
                           fp: Fingerprint, nb: Time, former: Option<Fingerprint>)
    requires token in d.tokens && fp in leaves && leaves[fp].identity == d.tokens[token].identity && fp !in d.certs
    requires line !in d.lines && line in reserved && reserved[line] == d.tokens[token].identity
    ensures var e, id := RecordEnrollment(d, token, now, line, fp, nb, former), d.tokens[token].identity;
            && CertsConfined(d, e, leaves, id) && LinesConfined(d, e, reserved, id) && e.revoked == d.revoked
            && forall x :: x in d.tokens && x != token ==> x in e.tokens && e.tokens[x] == d.tokens[x]
  {
    var t := d.tokens[token];
    var spent, id, kind := Spend(d, token, now, Some(fp)), t.identity, KindOf(t.identity.scope, t.browser);
    hide RevokeReplaced, OpenLine;
    OpenLineConfined(spent, leaves, reserved, line, id, kind, false, fp, nb, t.minted, Some(token));
    var more := OpenLine(spent, line, id, kind, false, fp, nb, t.minted, Some(token));
    SpentSame(d, spent, more, leaves, reserved, id);
    hide LinesConfined, CertsConfined;
    ReplacedConfined(d, more, reserved, former, id);
    SameCerts(d, more, RevokeReplaced(more, former, id), leaves, id);
  }

  /** What a committing enrollment finds and leaves. */
  lemma CommitEnrollIs(s: State, e: Step)
    requires Inv(s) && Enabled(s, e) && e.CommitEnroll?
    ensures e.k in s.txs && s.txs[e.k].Enrolling? && s.txs[e.k].enroll.Signed? && HasLock(s.txs[e.k]) && EnrollOk(s, s.txs[e.k])
    ensures e.line !in s.reserved && e.line !in s.db.lines
    ensures var tx := s.txs[e.k];
            Apply(s, e) == End(s, e.k).(db := RecordEnrollment(s.db, tx.token, tx.now, e.line, tx.enroll.fp, s.leaves[tx.enroll.fp].nb, tx.former),
                                        reserved := s.reserved[e.line := tx.id])
  {
    hide TablesOk, RecordEnrollment;
    assert TxOk(s, s.txs[e.k]);
  }

  lemma CommitEnrollConfined(s: State, e: Step)
    requires Inv(s) && Enabled(s, e) && e.CommitEnroll?
    ensures Confined(s, Apply(s, e), s.txs[e.k].id)
    ensures var token := s.txs[e.k].token;
            forall x :: x in s.db.tokens && x != token ==> x in Apply(s, e).db.tokens && Apply(s, e).db.tokens[x] == s.db.tokens[x]
  {
    hide Inv, Enabled, Apply, RecordEnrollment, LinesConfined, CertsConfined;
    CommitEnrollIs(s, e);
    var tx := s.txs[e.k];
    EnrollmentConfined(s.db, s.leaves, s.reserved[e.line := tx.id], tx.token, tx.now, e.line, tx.enroll.fp, s.leaves[tx.enroll.fp].nb, tx.former);
  }

  lemma CommitEnrollKeeps(s: State, e: Step)
    requires Inv(s) && Enabled(s, e) && e.CommitEnroll?
    ensures Inv(Apply(s, e))
  {
    hide TablesOk, Enabled, Apply, RecordEnrollment, Confined, TxsOk, LinesReserved;
    CommitEnrollIs(s, e);
    CommitEnrollConfined(s, e);
    var t, tx := Apply(s, e), s.txs[e.k];
    EnrollmentOk(s.db, s.leaves, tx.token, tx.now, e.line, tx.enroll.fp, s.leaves[tx.enroll.fp].nb, tx.former);
    TokensApart(s, t, e.k);
    TxsKept(s, t, e.k);
    ReservedStill(s, t, tx.id);
  }

  /** Lines old and new have their ids reserved. */
  lemma ReservedStill(s: State, t: State, id: Identity)
    requires LinesReserved(s) && Confined(s, t, id)
    ensures LinesReserved(t)
  {
    hide CertsConfined, RevokedConfined, LeavesKept;
  }

  // ----- Renewing ------------------------------------------------------------------------

  lemma BeginRenewKeeps(s: State, e: Step)
    requires Inv(s) && Enabled(s, e) && (e.BeginRenew? || e.LockRenew?)
    ensures Inv(Apply(s, e))
  {
    hide TablesOk;
    assert e.LockRenew? ==> TxOk(s, s.txs[e.k]);
    TxsJoined(s, Apply(s, e), e.k);
  }

  /** A transaction that keeps its lock and token stays apart from the others. */
  lemma StaysApart(s: State, k: TxId, next: Tx)
    requires TxsOk(s) && k in s.txs && s.txs[k].Renewing? && HasLock(s.txs[k]) && next.Renewing? && next.id == s.txs[k].id
    ensures forall j :: j in s.txs && j != k ==> Apart(s.txs[j], next) && Apart(next, s.txs[j])
  {
    forall j | j in s.txs && j != k ensures Apart(s.txs[j], next) && Apart(next, s.txs[j]) {
      assert Apart(s.txs[j], s.txs[k]);
    }
  }

  lemma CheckRenewKeeps(s: State, e: Step)
    requires Inv(s) && Enabled(s, e) && (e.AdmitRenew? || e.RecheckRenew?)
    ensures Inv(Apply(s, e))
  {
    hide TablesOk;
    var t, tx := Apply(s, e), s.txs[e.k];
    assert TxOk(s, tx);
    if Active(s.db.revoked, tx.id, Some(s.leaves[tx.current].nb)) {
      StaysApart(s, e.k, t.txs[e.k]);
      TxsJoined(s, t, e.k);
    } else {
      TxsLeft(s, e.k);
    }
  }

  /** A take-over draws a line id; nothing is written yet. */
  lemma TakingOverKeeps(s: State, k: TxId, line: LineId)
    requires Inv(s) && RenewAt(s, k, (g: RenewStage) => g.Checked?) && line !in s.reserved
    requires s.txs[k].current !in s.db.certs
    ensures var tx := s.txs[k];
            Inv(Put(s, k, tx.(renew := OnLine(line, true, tx.legacyKind))).(reserved := s.reserved[line := tx.id]))
  {
    hide TablesOk;
    var tx := s.txs[k];
    var t := Put(s, k, tx.(renew := OnLine(line, true, tx.legacyKind))).(reserved := s.reserved[line := tx.id]);
    assert TxOk(s, tx);
    assert TxOk(t, t.txs[k]);
    DrawConfined(s, t, tx.id, line);
    TokensHeld(s, k);
    hide Confined, TxOk, TxsOk;
    TxsKept(s, t, k);
  }

  lemma TokensHeld(s: State, k: TxId)
    requires TxsOk(s)
    ensures forall j :: j in s.txs && j != k && s.txs[j].Enrolling? ==> s.txs[j].token in s.db.tokens
  {
    forall j | j in s.txs && j != k && s.txs[j].Enrolling? ensures s.txs[j].token in s.db.tokens {
      assert TxOk(s, s.txs[j]);
    }
  }

  /** Every recorded certificate has its line. */
  lemma RecordedHasLine(d: Tables, leaves: map<Fingerprint, Leaf>, fp: Fingerprint)
    requires TablesOk(d, leaves)
    ensures LineOf(d, fp).Some? <==> fp in d.certs
  {
    if fp in d.certs {
      assert CertOk(d, leaves, fp);
    }
  }

  lemma FindLineKeeps(s: State, e: Step)
    requires Inv(s) && Enabled(s, e) && e.FindLine?
    ensures Inv(Apply(s, e))
  {
    hide TablesOk;
    var t, tx := Apply(s, e), s.txs[e.k];
    RecordedHasLine(s.db, s.leaves, tx.current);
    if e.k !in t.txs {
      TxsLeft(s, e.k);
    } else if LineOf(s.db, tx.current).None? {
      hide Inv;
      TakingOverKeeps(s, e.k, e.line);
    } else {
      assert TxOk(s, tx);
      StaysApart(s, e.k, t.txs[e.k]);
      TxsJoined(s, t, e.k);
    }
  }

  /** Under the locks nobody can have recorded either certificate: no IntegrityError. */
  lemma RenewalNeverConflicts(s: State, k: TxId)
    requires Inv(s) && RenewAt(s, k, (g: RenewStage) => g.Rechecked?)
    ensures !Conflict(s, s.txs[k])
  {
    assert TxOk(s, s.txs[k]);
  }

  /** What a committing renewal finds and leaves. */
  lemma CommitRenewIs(s: State, e: Step)
    requires Inv(s) && Enabled(s, e) && e.CommitRenew?
    ensures e.k in s.txs && s.txs[e.k].Renewing? && s.txs[e.k].renew.Rechecked? && HasLock(s.txs[e.k]) && RenewOk(s, s.txs[e.k])
    ensures var tx := s.txs[e.k];
            var g := tx.renew;
            Apply(s, e) == End(s, e.k).(db := RecordRenewal(s.db, g.taken, g.line, tx.id, g.kind, tx.current, s.leaves[tx.current].nb,
                                                            g.fp, s.leaves[g.fp].nb))
  {
    RenewalNeverConflicts(s, e.k);
    hide TablesOk, RecordRenewal;
    assert TxOk(s, s.txs[e.k]);
  }

  lemma SuccessorConfined(d: Tables, e: Tables, leaves: map<Fingerprint, Leaf>, id: Identity, line: LineId, fp: Fingerprint, nb: Time, from: Fingerprint)
    requires CertsConfined(d, e, leaves, id) && fp in leaves && leaves[fp].identity == id && fp !in d.certs
    ensures CertsConfined(d, AddSuccessor(e, line, fp, nb, from), leaves, id)
  {
  }

  lemma RecordRenewalConfined(d: Tables, leaves: map<Fingerprint, Leaf>, reserved: map<LineId, Identity>, taken: bool, line: LineId, id: Identity,
                              kind: Kind, current: Fingerprint, nb: Time, fp: Fingerprint, next: Time)
    requires current in leaves && leaves[current].identity == id && fp in leaves && leaves[fp].identity == id && fp !in d.certs
    requires line in reserved && reserved[line] == id && (taken ==> line !in d.lines && current !in d.certs)
    ensures var e := RecordRenewal(d, taken, line, id, kind, current, nb, fp, next);
            CertsConfined(d, e, leaves, id) && LinesConfined(d, e, reserved, id) && e.revoked == d.revoked && e.tokens == d.tokens
  {
    var base := if taken then OpenLine(d, line, id, kind, true, current, nb, Some(nb), None) else d;
    if taken {
      OpenLineConfined(d, leaves, reserved, line, id, kind, true, current, nb, Some(nb), None);
    }
    assert CertsConfined(d, base, leaves, id) && LinesConfined(d, base, reserved, id);
    hide OpenLine;
    SuccessorConfined(d, base, leaves, id, line, fp, next, current);
    hide CertsConfined;
  }

  lemma CommitRenewConfined(s: State, e: Step)
    requires Inv(s) && Enabled(s, e) && e.CommitRenew?
    ensures Confined(s, Apply(s, e), s.txs[e.k].id) && Apply(s, e).db.tokens == s.db.tokens
  {
    hide Inv, Enabled, Apply, RecordRenewal, LinesConfined, CertsConfined;
    CommitRenewIs(s, e);
    var tx := s.txs[e.k];
    RecordRenewalConfined(s.db, s.leaves, s.reserved, tx.renew.taken, tx.renew.line, tx.id, tx.renew.kind, tx.current,
                          s.leaves[tx.current].nb, tx.renew.fp, s.leaves[tx.renew.fp].nb);
  }

  lemma CommitRenewKeeps(s: State, e: Step)
    requires Inv(s) && Enabled(s, e) && e.CommitRenew?
    ensures Inv(Apply(s, e))
  {
    hide TablesOk, Enabled, Apply, RecordRenewal, Confined, TxsOk, LinesReserved;
    CommitRenewIs(s, e);
    CommitRenewConfined(s, e);
    var t, tx := Apply(s, e), s.txs[e.k];
    RenewalOk(s.db, s.leaves, tx.renew.taken, tx.renew.line, tx.renew.kind, tx.current, tx.renew.fp);
    TokensHeld(s, e.k);
    TxsKept(s, t, e.k);
    ReservedStill(s, t, tx.id);
  }

  // ----- Revoking and the server's other writes ------------------------------------------

  lemma RevokeBegins(s: State, e: Step)
    requires Inv(s) && Enabled(s, e) && (e.BeginRevoke? || e.SeeLines?)
    ensures Inv(Apply(s, e))
  {
    hide TablesOk;
    var t := Apply(s, e);
    if e.SeeLines? {
      forall j | j in s.txs && j != e.k ensures Apart(s.txs[j], t.txs[e.k]) && Apart(t.txs[e.k], s.txs[j]) {
        assert Apart(s.txs[j], s.txs[e.k]);
      }
    }
    TxsJoined(s, t, e.k);
  }

  /** All open lines of the identity are revoked with it, so none is left to justify. */
  lemma RevokedTablesOk(d: Tables, leaves: map<Fingerprint, Leaf>, id: Identity, at: Time, seen: set<LineId>)
    requires TablesOk(d, leaves)
    requires forall l :: l in d.lines && d.lines[l].identity == id && d.lines[l].revoked.None? ==> l in seen
    ensures TablesOk(RevokeLines(d, seen).(revoked := d.revoked[id := Some(at)]), leaves)
  {
    hide TablesOk;
    var e := RevokeLines(d, seen);
    assert forall l :: l in e.lines && e.lines[l].identity == id ==> e.lines[l].revoked.Some?;
    RevokeLinesOk(d, e, leaves);
    hide RevokeLines;
    var f := e.(revoked := d.revoked[id := Some(at)]);
    RevokedElsewhere(e, leaves, id, at);
  }

  lemma RevokedElsewhere(e: Tables, leaves: map<Fingerprint, Leaf>, id: Identity, at: Time)
    requires TablesOk(e, leaves) && forall l :: l in e.lines && e.lines[l].identity == id ==> e.lines[l].revoked.Some?
    ensures TablesOk(e.(revoked := e.revoked[id := Some(at)]), leaves)
  {
    var f := e.(revoked := e.revoked[id := Some(at)]);
    forall l | l in f.lines ensures LineOk(f, l) {
      assert LineOk(e, l);
    }
    forall x | x in f.certs ensures CertOk(f, leaves, x) {
      assert CertOk(e, leaves, x);
    }
  }

  lemma CommitRevokeConfined(s: State, k: TxId)
    requires TxsOk(s) && k in s.txs && s.txs[k].Revoking? && s.txs[k].seen.Some?
    ensures var tx := s.txs[k];
            Confined(s, End(s, k).(db := RevokeLines(s.db, tx.seen.value).(revoked := s.db.revoked[tx.id := Some(tx.at)])), tx.id)
  {
    assert TxOk(s, s.txs[k]);
    hide TxsOk;
    var tx := s.txs[k];
    SeenConfined(s.db, s.reserved, tx.seen.value, tx.id, s.db.revoked[tx.id := Some(tx.at)]);
    hide RevokeLines, LinesConfined, TxOk;
  }

  lemma SeenConfined(d: Tables, reserved: map<LineId, Identity>, seen: set<LineId>, id: Identity, revoked: map<Identity, Option<Time>>)
    requires forall l :: l in seen ==> l in d.lines && d.lines[l].identity == id
    ensures var e := RevokeLines(d, seen).(revoked := revoked); LinesConfined(d, e, reserved, id) && e.certs == d.certs
  {
  }

  lemma CommitRevokeKeeps(s: State, e: Step)
    requires Inv(s) && Enabled(s, e) && e.CommitRevoke?
    ensures Inv(Apply(s, e))
  {
    hide TablesOk;
    var t, tx := Apply(s, e), s.txs[e.k];
    assert TxOk(s, tx);
    assert t == End(s, e.k).(db := RevokeLines(s.db, tx.seen.value).(revoked := s.db.revoked[tx.id := Some(tx.at)]));
    hide Enabled, Apply, TxsOk;
    RevokedTablesOk(s.db, s.leaves, tx.id, tx.at, tx.seen.value);
    CommitRevokeConfined(s, e.k);
    hide Confined, TxOk, RevokeLines;
    TokensHeld(s, e.k);
    assert t.db.tokens == s.db.tokens;
    TxsKept(s, t, e.k);
    ReservedStill(s, t, tx.id);
  }

  lemma LineRevokedAside(s: State, line: LineId, reason: Reason)
    requires TxsOk(s) && line in s.db.lines && LineFree(s, line, None)
    ensures TxsOk(s.(db := RevokeLine(s.db, line, reason)))
  {
    var t := s.(db := RevokeLine(s.db, line, reason));
    forall k | k in s.txs ensures TxOk(t, s.txs[k]) {
      hide Apart;
      assert TxOk(s, s.txs[k]) && !HasLine(s.txs[k], line);
    }
    hide TxOk;
    TxsAside(s, t);
  }

  lemma RevokeOneKeeps(s: State, e: Step)
    requires Inv(s) && Enabled(s, e) && e.RevokeOne?
    ensures Inv(Apply(s, e))
  {
    hide TablesOk, TxsOk;
    RevokeLinesOk(s.db, RevokeLine(s.db, e.line, e.reason), s.leaves);
    LineRevokedAside(s, e.line, e.reason);
  }

  lemma MintOk(d: Tables, leaves: map<Fingerprint, Leaf>, token: TokenId, row: Token)
    requires TablesOk(d, leaves) && token !in d.tokens && row.issued.None?
    ensures TablesOk(d.(tokens := d.tokens[token := row]), leaves)
  {
    var e := d.(tokens := d.tokens[token := row]);
    forall x | x in e.certs ensures CertOk(e, leaves, x) {
      assert CertOk(d, leaves, x);
    }
    forall l | l in e.lines ensures LineOk(e, l) {
      assert LineOk(d, l);
    }
  }

  /** Only a token nobody is spending changes. */
  lemma TokenAside(s: State, t: State, token: TokenId)
    requires TxsOk(s) && t == s.(db := s.db.(tokens := t.db.tokens)) && TokenFree(s, token)
    requires forall x :: x in s.db.tokens && x != token ==> x in t.db.tokens && t.db.tokens[x] == s.db.tokens[x]
    ensures TxsOk(t)
  {
    forall k | k in s.txs ensures TxOk(t, s.txs[k]) {
      assert TxOk(s, s.txs[k]);
    }
    hide TxOk;
    TxsAside(s, t);
  }

  lemma TokenStepsKeep(s: State, e: Step)
    requires Inv(s) && Enabled(s, e) && (e.Mint? || e.Consume?)
    ensures Inv(Apply(s, e))
  {
    hide TablesOk;
    if e.Consume? {
      SpendOk(s.db, s.leaves, e.token, e.now, None);
    } else {
      MintOk(s.db, s.leaves, e.token, e.row);
      forall k | k in s.txs && s.txs[k].Enrolling? ensures s.txs[k].token != e.token {
        assert TxOk(s, s.txs[k]);
      }
    }
    hide TxsOk;
    TokenAside(s, Apply(s, e), e.token);
  }

  lemma TakenOverAside(s: State, fp: Fingerprint, line: LineId, kind: Kind)
    requires TxsOk(s) && LinesReserved(s) && fp in s.leaves && fp !in s.db.certs && line !in s.reserved
    requires IdentityFree(s, s.leaves[fp].identity)
    ensures var id := s.leaves[fp].identity;
            TxsOk(s.(db := OpenLine(s.db, line, id, kind, true, fp, s.leaves[fp].nb, Some(s.leaves[fp].nb), None),
                     reserved := s.reserved[line := id]))
  {
    hide OpenLine, CertsConfined, LinesConfined, TxOk, Apart;
    var id := s.leaves[fp].identity;
    var t := s.(db := OpenLine(s.db, line, id, kind, true, fp, s.leaves[fp].nb, Some(s.leaves[fp].nb), None),
                reserved := s.reserved[line := id]);
    OpenLineConfined(s.db, s.leaves, t.reserved, line, id, kind, true, fp, s.leaves[fp].nb, Some(s.leaves[fp].nb), None);
    assert Confined(s, t, id);
    hide Confined;
    forall k | k in s.txs ensures TxOk(t, s.txs[k]) {
      OthersOk(s, t, id, s.txs[k]);
    }
    TxsAside(s, t);
  }

  lemma ServerTakeOverKeeps(s: State, e: Step)
    requires Inv(s) && Enabled(s, e) && e.ServerTakeOver?
    ensures Inv(Apply(s, e))
  {
    hide TablesOk, TxsOk;
    if e.fp !in s.db.certs {
      OpenLineOk(s.db, s.leaves, e.line, e.kind, true, e.fp, Some(s.leaves[e.fp].nb), None);
      TakenOverAside(s, e.fp, e.line, e.kind);
    }
  }

  lemma StepKeepsInv(s: State, e: Step)
    requires Inv(s) && Enabled(s, e)
    ensures Inv(Apply(s, e))
  {
    hide Inv;
    match e {
      case Mint(_, _) => TokenStepsKeep(s, e);
      case Consume(_, _) => TokenStepsKeep(s, e);
      case BeginEnroll(_, _, _, _) => BeginEnrollKeeps(s, e);
      case LockEnroll(_) => BeginEnrollKeeps(s, e);
      case AdmitEnroll(_) => AdmitEnrollKeeps(s, e);
      case SignEnroll(_, _, _) => SignEnrollKeeps(s, e);
      case CommitEnroll(_, _) => CommitEnrollKeeps(s, e);
      case BeginRenew(_, _, _, _) => BeginRenewKeeps(s, e);
      case LockRenew(_) => BeginRenewKeeps(s, e);
      case AdmitRenew(_) => CheckRenewKeeps(s, e);
      case FindLine(_, _) => FindLineKeeps(s, e);
      case SignRenew(_, _, _) => SignRenewKeeps(s, e);
      case RecheckRenew(_) => CheckRenewKeeps(s, e);
      case CommitRenew(_) => CommitRenewKeeps(s, e);
      case BeginRevoke(_, _, _) => RevokeBegins(s, e);
      case SeeLines(_) => RevokeBegins(s, e);
      case CommitRevoke(_) => CommitRevokeKeeps(s, e);
      case RevokeOne(_, _) => RevokeOneKeeps(s, e);
      case ServerTakeOver(_, _, _, _) => ServerTakeOverKeeps(s, e);
      case Abort(k) => AbortKeeps(s, k);
    }
  }

  lemma AbortKeeps(s: State, k: TxId)
    requires Inv(s)
    ensures Inv(End(s, k))
  {
    hide TablesOk;
    TxsLeft(s, k);
  }
}
