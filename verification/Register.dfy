/**
The certificate register under concurrent transactions (DbTokenStore in
apps/ca-issuer/app/db.py, revocation and take-over as apps/server/app/modules/enrollment/models.py
runs them). A transaction is a list of steps between which every other transaction may run;
its writes appear when it commits, and it may be rolled back anywhere. It holds the token row
it spends, the advisory lock on its identity and the line row it works on until it ends.
*/
module Register {
  import opened Common
  import opened RegisterTables

  type TxId = nat

  datatype EnrollStage = Consumed | InLock | Admitted | Signed(fp: Fingerprint)

  datatype RenewStage =
    | Begun
    | Locked
    | Checked
    | OnLine(line: LineId, taken: bool, kind: Kind)
    | SignedOn(line: LineId, taken: bool, kind: Kind, fp: Fingerprint)
    | Rechecked(line: LineId, taken: bool, kind: Kind, fp: Fingerprint)

  datatype Tx =
    | Enrolling(id: Identity, token: TokenId, former: Option<Fingerprint>, now: Time, enroll: EnrollStage)
    | Renewing(id: Identity, current: Fingerprint, legacyKind: Kind, now: Time, renew: RenewStage)
    | Revoking(id: Identity, at: Time, seen: Option<set<LineId>>)

  datatype State = State(
    db: Tables,                         // committed
    leaves: map<Fingerprint, Leaf>,     // every certificate ever signed, recorded or not
    reserved: map<LineId, Identity>,    // every line id ever drawn
    txs: map<TxId, Tx>
  )

  predicate HasLock(tx: Tx) {
    !(tx.Enrolling? && tx.enroll.Consumed?) && !(tx.Renewing? && tx.renew.Begun?)
  }

  predicate HasLine(tx: Tx, line: LineId) {
    || (tx.Renewing? && (tx.renew.OnLine? || tx.renew.SignedOn? || tx.renew.Rechecked?) && tx.renew.line == line)
    || (tx.Revoking? && tx.seen.Some? && line in tx.seen.value)
  }

  ghost predicate IdentityFree(s: State, id: Identity) {
    forall k :: k in s.txs ==> !(HasLock(s.txs[k]) && s.txs[k].id == id)
  }

  ghost predicate TokenFree(s: State, token: TokenId) {
    forall k :: k in s.txs ==> !(s.txs[k].Enrolling? && s.txs[k].token == token)
  }

  /** Nobody but `me` holds the row. */
  ghost predicate LineFree(s: State, line: LineId, me: Option<TxId>) {
    forall k :: k in s.txs && Some(k) != me ==> !HasLine(s.txs[k], line)
  }

  datatype Step =
    | Mint(token: TokenId, row: Token)
    | Consume(token: TokenId, now: Time)
    | BeginEnroll(k: TxId, token: TokenId, former: Option<Fingerprint>, now: Time)
    | LockEnroll(k: TxId)
    | AdmitEnroll(k: TxId)
    | SignEnroll(k: TxId, fp: Fingerprint, nb: Time)
    | CommitEnroll(k: TxId, line: LineId)
    | BeginRenew(k: TxId, current: Fingerprint, legacyKind: Kind, now: Time)
    | LockRenew(k: TxId)
    | AdmitRenew(k: TxId)
    | FindLine(k: TxId, line: LineId)
    | SignRenew(k: TxId, fp: Fingerprint, nb: Time)
    | RecheckRenew(k: TxId)
    | CommitRenew(k: TxId)
    | BeginRevoke(k: TxId, id: Identity, at: Time)
    | SeeLines(k: TxId)
    | CommitRevoke(k: TxId)
    | RevokeOne(line: LineId, reason: Reason)
    | ServerTakeOver(fp: Fingerprint, line: LineId, kind: Kind, now: Time)
    | Abort(k: TxId)

  predicate EnrollAt(s: State, k: TxId, stage: EnrollStage -> bool) {
    k in s.txs && s.txs[k].Enrolling? && stage(s.txs[k].enroll)
  }

  predicate RenewAt(s: State, k: TxId, stage: RenewStage -> bool) {
    k in s.txs && s.txs[k].Renewing? && stage(s.txs[k].renew)
  }

  /** The statement can run now; a lock somebody else holds makes it wait. */
  ghost predicate Enabled(s: State, e: Step) {
    match e
    case Mint(token, row) => token !in s.db.tokens && row.used.None? && row.issued.None?
    case Consume(token, now) => Usable(s.db, token, now) && TokenFree(s, token)
    case BeginEnroll(k, token, _, now) => k !in s.txs && Usable(s.db, token, now) && TokenFree(s, token)
    case LockEnroll(k) => EnrollAt(s, k, (g: EnrollStage) => g.Consumed?) && IdentityFree(s, s.txs[k].id)
    case AdmitEnroll(k) => EnrollAt(s, k, (g: EnrollStage) => g.InLock?) && s.txs[k].token in s.db.tokens
    case SignEnroll(k, fp, _) => EnrollAt(s, k, (g: EnrollStage) => g.Admitted?) && fp !in s.leaves
    case CommitEnroll(k, line) =>
      && EnrollAt(s, k, (g: EnrollStage) => g.Signed?) && s.txs[k].token in s.db.tokens
      && s.txs[k].enroll.fp in s.leaves && line !in s.reserved
      && (var gone := Replaceable(s.db, s.txs[k].former, s.txs[k].id); gone.Some? ==> LineFree(s, gone.value, Some(k)))
    case BeginRenew(k, current, _, _) => k !in s.txs && current in s.leaves
    case LockRenew(k) => RenewAt(s, k, (g: RenewStage) => g.Begun?) && IdentityFree(s, s.txs[k].id)
    case AdmitRenew(k) => RenewAt(s, k, (g: RenewStage) => g.Locked?) && s.txs[k].current in s.leaves
    case FindLine(k, line) =>
      && RenewAt(s, k, (g: RenewStage) => g.Checked?) && s.txs[k].current in s.leaves && line !in s.reserved
      && (var found := LineOf(s.db, s.txs[k].current); found.Some? ==> LineFree(s, found.value, Some(k)))
    case SignRenew(k, fp, _) => RenewAt(s, k, (g: RenewStage) => g.OnLine?) && fp !in s.leaves
    case RecheckRenew(k) => RenewAt(s, k, (g: RenewStage) => g.SignedOn?) && s.txs[k].current in s.leaves
    case CommitRenew(k) =>
      RenewAt(s, k, (g: RenewStage) => g.Rechecked?) && s.txs[k].current in s.leaves && s.txs[k].renew.fp in s.leaves
    case BeginRevoke(k, id, _) => k !in s.txs && IdentityFree(s, id)
    case SeeLines(k) =>
      && k in s.txs && s.txs[k].Revoking? && s.txs[k].seen.None?
      && (forall l :: l in OpenLines(s.db, s.txs[k].id) ==> LineFree(s, l, Some(k)))
    case CommitRevoke(k) => k in s.txs && s.txs[k].Revoking? && s.txs[k].seen.Some?
    case RevokeOne(line, _) => line in s.db.lines && LineFree(s, line, None)
    case ServerTakeOver(fp, line, _, now) =>
      && fp in s.leaves && line !in s.reserved && IdentityFree(s, s.leaves[fp].identity)
      && Active(s.db.revoked, s.leaves[fp].identity, Some(s.leaves[fp].nb))
      && LegacyAdmitted(s.leaves[fp].nb, s.db.installed, now)
    case Abort(k) => k in s.txs
  }

  function OpenLines(d: Tables, id: Identity): set<LineId> {
    set l | l in d.lines && d.lines[l].identity == id && d.lines[l].revoked.None?
  }

  /** The transaction ends; its locks with it. */
  function End(s: State, k: TxId): State { s.(txs := s.txs - {k}) }

  function Put(s: State, k: TxId, tx: Tx): State { s.(txs := s.txs[k := tx]) }

  /** Inserting a certificate a second time is an IntegrityError: everything is undone. */
  predicate Conflict(s: State, tx: Tx)
    requires tx.Renewing? && tx.renew.Rechecked?
  {
    (tx.renew.taken && tx.current in s.db.certs) || tx.renew.fp in s.db.certs
  }

  ghost function Apply(s: State, e: Step): State
    requires Enabled(s, e)
  {
    match e
    case Mint(token, row) => s.(db := s.db.(tokens := s.db.tokens[token := row]))
    case Consume(token, now) => s.(db := Spend(s.db, token, now, None))
    case BeginEnroll(k, token, former, now) =>
      Put(s, k, Enrolling(s.db.tokens[token].identity, token, former, now, Consumed))
    case LockEnroll(k) => Put(s, k, s.txs[k].(enroll := InLock))
    case AdmitEnroll(k) =>
      var tx := s.txs[k];
      if Active(s.db.revoked, tx.id, s.db.tokens[tx.token].minted) then Put(s, k, tx.(enroll := Admitted))
      else End(s, k).(db := Spend(s.db, tx.token, tx.now, None))     // committed: the token is spent
    case SignEnroll(k, fp, nb) =>
      Put(s, k, s.txs[k].(enroll := Signed(fp))).(leaves := s.leaves[fp := Leaf(s.txs[k].id, nb)])
    case CommitEnroll(k, line) =>
      var tx := s.txs[k];
      var fp := tx.enroll.fp;
      End(s, k).(db := RecordEnrollment(s.db, tx.token, tx.now, line, fp, s.leaves[fp].nb, tx.former),
                 reserved := s.reserved[line := tx.id])
    case BeginRenew(k, current, legacyKind, now) =>
      Put(s, k, Renewing(s.leaves[current].identity, current, legacyKind, now, Begun))
    case LockRenew(k) => Put(s, k, s.txs[k].(renew := Locked))
    case AdmitRenew(k) =>
      var tx := s.txs[k];
      if Active(s.db.revoked, tx.id, Some(s.leaves[tx.current].nb)) then Put(s, k, tx.(renew := Checked)) else End(s, k)
    case FindLine(k, line) =>
      var tx := s.txs[k];
      var found := LineOf(s.db, tx.current);
      if found.None? then
        if LegacyAdmitted(s.leaves[tx.current].nb, s.db.installed, tx.now)
        then Put(s, k, tx.(renew := OnLine(line, true, tx.legacyKind))).(reserved := s.reserved[line := tx.id])
        else End(s, k)
      else
        var l := s.db.lines[found.value];
        if l.revoked.Some? || l.identity != tx.id then End(s, k)
        else Put(s, k, tx.(renew := OnLine(found.value, false, l.kind)))
    case SignRenew(k, fp, nb) =>
      var g := s.txs[k].renew;
      Put(s, k, s.txs[k].(renew := SignedOn(g.line, g.taken, g.kind, fp))).(leaves := s.leaves[fp := Leaf(s.txs[k].id, nb)])
    case RecheckRenew(k) =>
      var tx := s.txs[k];
      var g := tx.renew;
      if Active(s.db.revoked, tx.id, Some(s.leaves[tx.current].nb))
      then Put(s, k, tx.(renew := Rechecked(g.line, g.taken, g.kind, g.fp))) else End(s, k)
    case CommitRenew(k) =>
      var tx := s.txs[k];
      var g := tx.renew;
      if Conflict(s, tx) then End(s, k)
      else End(s, k).(db := RecordRenewal(s.db, g.taken, g.line, tx.id, g.kind, tx.current, s.leaves[tx.current].nb,
                                          g.fp, s.leaves[g.fp].nb))
    case BeginRevoke(k, id, at) => Put(s, k, Revoking(id, at, None))
    case SeeLines(k) => Put(s, k, s.txs[k].(seen := Some(OpenLines(s.db, s.txs[k].id))))
    case CommitRevoke(k) =>
      var tx := s.txs[k];
      End(s, k).(db := RevokeLines(s.db, tx.seen.value).(revoked := s.db.revoked[tx.id := Some(tx.at)]))
    case RevokeOne(line, reason) => s.(db := RevokeLine(s.db, line, reason))
    case ServerTakeOver(fp, line, kind, now) =>
      if fp in s.db.certs then s
      else s.(db := OpenLine(s.db, line, s.leaves[fp].identity, kind, true, fp, s.leaves[fp].nb, Some(s.leaves[fp].nb), None),
              reserved := s.reserved[line := s.leaves[fp].identity])
    case Abort(k) => End(s, k)
  }

  // ----- What every step keeps -----------------------------------------------------------

  predicate EnrollOk(s: State, tx: Tx)
    requires tx.Enrolling?
  {
    && tx.token in s.db.tokens && s.db.tokens[tx.token].used.None? && s.db.tokens[tx.token].identity == tx.id
    && (tx.enroll.Admitted? || tx.enroll.Signed? ==> Active(s.db.revoked, tx.id, s.db.tokens[tx.token].minted))
    && (tx.enroll.Signed? ==>
          var fp := tx.enroll.fp;
          fp in s.leaves && s.leaves[fp].identity == tx.id && fp !in s.db.certs)
  }

  predicate OnLineOk(s: State, tx: Tx, line: LineId, taken: bool)
    requires tx.Renewing?
  {
    && line in s.reserved && s.reserved[line] == tx.id
    && (taken ==> line !in s.db.lines && tx.current !in s.db.certs)
    && (!taken ==>
          && tx.current in s.db.certs && s.db.certs[tx.current].line == line && line in s.db.lines
          && s.db.lines[line].revoked.None? && s.db.lines[line].identity == tx.id)
  }

  predicate RenewOk(s: State, tx: Tx)
    requires tx.Renewing?
  {
    && tx.current in s.leaves && s.leaves[tx.current].identity == tx.id
    && (!tx.renew.Begun? && !tx.renew.Locked? ==> Active(s.db.revoked, tx.id, Some(s.leaves[tx.current].nb)))
    && (tx.renew.OnLine? || tx.renew.SignedOn? || tx.renew.Rechecked? ==> OnLineOk(s, tx, tx.renew.line, tx.renew.taken))
    && (tx.renew.SignedOn? || tx.renew.Rechecked? ==>
          var fp := tx.renew.fp;
          fp in s.leaves && s.leaves[fp].identity == tx.id && fp !in s.db.certs && fp != tx.current)
  }

  /** A revocation has seen every open line of its identity. */
  predicate RevokeOk(s: State, tx: Tx)
    requires tx.Revoking?
  {
    tx.seen.Some? ==>
      && (forall l :: l in s.db.lines && s.db.lines[l].identity == tx.id && s.db.lines[l].revoked.None? ==> l in tx.seen.value)
      && (forall l :: l in tx.seen.value ==> l in s.db.lines && s.db.lines[l].identity == tx.id)
  }

  predicate TxOk(s: State, tx: Tx) {
    match tx
    case Enrolling(_, _, _, _, _) => EnrollOk(s, tx)
    case Renewing(_, _, _, _, _) => RenewOk(s, tx)
    case Revoking(_, _, _) => RevokeOk(s, tx)
  }

  /** The locks keep two transactions apart. */
  predicate Apart(a: Tx, b: Tx) {
    && !(HasLock(a) && HasLock(b) && a.id == b.id)
    && !(a.Enrolling? && b.Enrolling? && a.token == b.token)
  }

  ghost predicate TxsOk(s: State) {
    && (forall k :: k in s.txs ==> TxOk(s, s.txs[k]))
    && (forall j, k :: j in s.txs && k in s.txs && j != k ==> Apart(s.txs[j], s.txs[k]))
  }

  ghost predicate LinesReserved(s: State) {
    forall l :: l in s.db.lines ==> l in s.reserved && s.reserved[l] == s.db.lines[l].identity
  }

  ghost predicate Inv(s: State) {
    TablesOk(s.db, s.leaves) && LinesReserved(s) && TxsOk(s)
  }

  /** From `s` to `t` only what belongs to the identity changes, and nothing recorded goes away. */
  ghost predicate Confined(s: State, t: State, id: Identity) {
    && LeavesKept(s.leaves, t.leaves) && CertsConfined(s.db, t.db, t.leaves, id) && ReservedKept(s.reserved, t.reserved)
    && LinesConfined(s.db, t.db, t.reserved, id) && RevokedConfined(s.db, t.db, id)
  }

  ghost predicate LeavesKept(a: map<Fingerprint, Leaf>, b: map<Fingerprint, Leaf>) {
    forall f :: f in a ==> f in b && b[f] == a[f]
  }

  ghost predicate CertsConfined(d: Tables, e: Tables, leaves: map<Fingerprint, Leaf>, id: Identity) {
    && (forall f :: f in d.certs ==> f in e.certs && e.certs[f] == d.certs[f])
    && (forall f :: f in e.certs && f !in d.certs ==> f in leaves && leaves[f].identity == id)
  }

  ghost predicate ReservedKept(a: map<LineId, Identity>, b: map<LineId, Identity>) {
    forall l :: l in a ==> l in b && b[l] == a[l]
  }

  ghost predicate LinesConfined(d: Tables, e: Tables, reserved: map<LineId, Identity>, id: Identity) {
    && (forall l :: l in d.lines ==>
          && l in e.lines && e.lines[l] == d.lines[l].(revoked := e.lines[l].revoked)
          && (d.lines[l].identity != id ==> e.lines[l] == d.lines[l]))
    && (forall l :: l in e.lines && l !in d.lines ==> l in reserved && reserved[l] == id && e.lines[l].identity == id)
  }

  ghost predicate RevokedConfined(d: Tables, e: Tables, id: Identity) {
    && (forall i :: i != id ==> (i in d.revoked <==> i in e.revoked))
    && (forall i :: i != id && i in d.revoked ==> e.revoked[i] == d.revoked[i])
  }

  lemma OthersOk(s: State, t: State, id: Identity, tx: Tx)
    requires Confined(s, t, id) && TxOk(s, tx)
    requires tx.id != id || !HasLock(tx)
    requires tx.Enrolling? && tx.token in s.db.tokens ==> tx.token in t.db.tokens && t.db.tokens[tx.token] == s.db.tokens[tx.token]
    ensures TxOk(t, tx)
  {
  }
}
