/**
The transactions of the database store are transactions of the register: run while nobody
else does, each is a run of its statements, so what holds in every interleaving holds of it.
*/
module StoreInRegister {
  import opened Common
  import opened RegisterTables
  import opened Register
  import opened RegisterRuns
  import opened RegisterTheorems
  import Stores = TokenStores

  /** Between two transactions. */
  predicate Idle(s: State) { s.txs == map[] }

  lemma IdleIsFree(s: State)
    requires Idle(s)
    ensures (forall id :: IdentityFree(s, id)) && (forall token :: TokenFree(s, token)) && (forall l, me :: LineFree(s, l, me))
  {
  }

  /** One transaction alone, as it stands. */
  function Only(s: State, k: TxId, tx: Tx): State { s.(txs := map[k := tx]) }

  lemma OnlyIsPut(s: State, k: TxId, tx: Tx, next: Tx)
    ensures Put(Only(s, k, tx), k, next) == Only(s, k, next) && End(Only(s, k, tx), k) == s.(txs := map[])
    ensures Idle(s) ==> Put(s, k, next) == Only(s, k, next)
  {
    assert (map[k := tx])[k := next] == map[k := next];
    assert (map[k := tx]) - {k} == map[];
  }

  lemma OnlyIsFree(s: State, k: TxId, tx: Tx)
    ensures !HasLock(tx) ==> forall id :: IdentityFree(Only(s, k, tx), id)
    ensures forall l :: LineFree(Only(s, k, tx), l, Some(k))
  {
  }

  /** One more step at the end of a run. */
  lemma {:induction false} RunsAlso(s: State, steps: seq<Step>, t: State, e: Step)
    requires Runs(s, steps, t) && Enabled(t, e)
    ensures Runs(s, steps + [e], Apply(t, e))
    decreases |steps|
  {
    hide Enabled, Apply;
    if steps == [] {
      assert steps + [e] == [e];
      RunsNothing(Apply(t, e));
      RunsStep(s, e, [], Apply(t, e));
      assert [e] + [] == [e];
    } else {
      RunsAlso(Apply(s, steps[0]), steps[1..], t, e);
      RunsStep(s, steps[0], steps[1..] + [e], Apply(t, e));
      assert [steps[0]] + (steps[1..] + [e]) == steps + [e];
    }
  }

  // ----- A renewal -----------------------------------------------------------------------

  /** The renewal holds its lock and has read the revocations. */
  lemma RenewBegins(s: State, k: TxId, current: Fingerprint, legacyKind: Kind, now: Time)
    requires Idle(s) && current in s.leaves
    ensures var id := s.leaves[current].identity;
            var s1, s2 := Only(s, k, Renewing(id, current, legacyKind, now, Begun)), Only(s, k, Renewing(id, current, legacyKind, now, Locked));
            && Enabled(s, BeginRenew(k, current, legacyKind, now)) && Apply(s, BeginRenew(k, current, legacyKind, now)) == s1
            && Enabled(s1, LockRenew(k)) && Apply(s1, LockRenew(k)) == s2
            && Enabled(s2, AdmitRenew(k))
            && Apply(s2, AdmitRenew(k)) ==
                 (if Active(s.db.revoked, id, Some(s.leaves[current].nb)) then Only(s, k, Renewing(id, current, legacyKind, now, Checked)) else s)
  {
    hide Active;
    var id := s.leaves[current].identity;
    var a, b, c := Renewing(id, current, legacyKind, now, Begun), Renewing(id, current, legacyKind, now, Locked), Renewing(id, current, legacyKind, now, Checked);
    OnlyIsPut(s, k, a, a);
    OnlyIsPut(s, k, a, b);
    OnlyIsPut(s, k, b, c);
    OnlyIsFree(s, k, a);
    hide IdentityFree;
  }

  /** Where the search for the line leads. */
  lemma RenewFindsLine(s: State, k: TxId, current: Fingerprint, legacyKind: Kind, now: Time, line: LineId)
    requires Idle(s) && current in s.leaves && line !in s.reserved
    ensures var id := s.leaves[current].identity;
            var s3 := Only(s, k, Renewing(id, current, legacyKind, now, Checked));
            var found := LineOf(s.db, current);
            && Enabled(s3, FindLine(k, line))
            && Apply(s3, FindLine(k, line)) ==
                 (if found.None? then
                    if LegacyAdmitted(s.leaves[current].nb, s.db.installed, now)
                    then Only(s, k, Renewing(id, current, legacyKind, now, OnLine(line, true, legacyKind))).(reserved := s.reserved[line := id])
                    else s
                  else if s.db.lines[found.value].revoked.Some? || s.db.lines[found.value].identity != id then s
                  else Only(s, k, Renewing(id, current, legacyKind, now, OnLine(found.value, false, s.db.lines[found.value].kind))))
  {
    hide LegacyAdmitted;
    var id := s.leaves[current].identity;
    var c := Renewing(id, current, legacyKind, now, Checked);
    OnlyIsPut(s, k, c, Renewing(id, current, legacyKind, now, OnLine(line, true, legacyKind)));
    if LineOf(s.db, current).Some? {
      var found := LineOf(s.db, current).value;
      OnlyIsPut(s, k, c, Renewing(id, current, legacyKind, now, OnLine(found, false, s.db.lines[found].kind)));
    }
    OnlyIsFree(s, k, c);
    hide LineFree;
  }

  /** On its line: signed, and checked once more. */
  lemma RenewSigns(s: State, k: TxId, tx: Tx, signed: Stores.Signed)
    requires tx.Renewing? && tx.renew.OnLine? && tx.current in s.leaves && s.leaves[tx.current].identity == tx.id && signed.fp !in s.leaves
    requires Active(s.db.revoked, tx.id, Some(s.leaves[tx.current].nb))
    ensures var leaves, g := s.leaves[signed.fp := Leaf(tx.id, signed.nb)], tx.renew;
            var s5 := Only(s, k, tx.(renew := SignedOn(g.line, g.taken, g.kind, signed.fp))).(leaves := leaves);
            var s6 := Only(s, k, tx.(renew := Rechecked(g.line, g.taken, g.kind, signed.fp))).(leaves := leaves);
            && Enabled(Only(s, k, tx), SignRenew(k, signed.fp, signed.nb)) && Apply(Only(s, k, tx), SignRenew(k, signed.fp, signed.nb)) == s5
            && Enabled(s5, RecheckRenew(k)) && Apply(s5, RecheckRenew(k)) == s6
  {
    hide Active;
    var g := tx.renew;
    var a, b := tx.(renew := SignedOn(g.line, g.taken, g.kind, signed.fp)), tx.(renew := Rechecked(g.line, g.taken, g.kind, signed.fp));
    OnlyIsPut(s, k, tx, a);
    var leaves := s.leaves[signed.fp := Leaf(tx.id, signed.nb)];
    OnlyIsPut(s.(leaves := leaves), k, a, b);
    assert leaves[tx.current] == s.leaves[tx.current];
  }

  lemma RenewEnds(s: State, k: TxId, tx: Tx)
    requires tx.Renewing? && tx.renew.Rechecked? && tx.current in s.leaves && tx.renew.fp in s.leaves && !Conflict(s, tx)
    ensures var s6, g := Only(s, k, tx), tx.renew;
            && Enabled(s6, CommitRenew(k))
            && Apply(s6, CommitRenew(k)) ==
                 s.(db := RecordRenewal(s.db, g.taken, g.line, tx.id, g.kind, tx.current, s.leaves[tx.current].nb, g.fp, s.leaves[g.fp].nb), txs := map[])
  {
    hide RecordRenewal;
    OnlyIsPut(s, k, tx, tx);
  }

  lemma RenewCommits(s: State, k: TxId, current: Fingerprint, legacyKind: Kind, now: Time, g: RenewStage, signed: Stores.Signed)
    requires Idle(s) && Inv(s) && current in s.leaves && g.OnLine? && signed.fp !in s.leaves
    requires Active(s.db.revoked, s.leaves[current].identity, Some(s.leaves[current].nb)) && (g.taken ==> current !in s.db.certs)
    ensures var id := s.leaves[current].identity;
            var leaves := s.leaves[signed.fp := Leaf(id, signed.nb)];
            var tx := Renewing(id, current, legacyKind, now, g);
            var s5 := Only(s, k, tx.(renew := SignedOn(g.line, g.taken, g.kind, signed.fp))).(leaves := leaves);
            var s6 := Only(s, k, tx.(renew := Rechecked(g.line, g.taken, g.kind, signed.fp))).(leaves := leaves);
            && Enabled(Only(s, k, tx), SignRenew(k, signed.fp, signed.nb)) && Apply(Only(s, k, tx), SignRenew(k, signed.fp, signed.nb)) == s5
            && Enabled(s5, RecheckRenew(k)) && Apply(s5, RecheckRenew(k)) == s6
            && Enabled(s6, CommitRenew(k))
            && Apply(s6, CommitRenew(k)) ==
                 s.(db := RecordRenewal(s.db, g.taken, g.line, id, g.kind, current, s.leaves[current].nb, signed.fp, signed.nb), leaves := leaves)
  {
    hide Inv, Active, RecordRenewal, Enabled, Apply;
    NeitherRecorded(s, signed.fp);
    var id := s.leaves[current].identity;
    var tx := Renewing(id, current, legacyKind, now, g);
    RenewSigns(s, k, tx, signed);
    var leaves := s.leaves[signed.fp := Leaf(id, signed.nb)];
    RenewEnds(s.(leaves := leaves), k, tx.(renew := Rechecked(g.line, g.taken, g.kind, signed.fp)));
    assert leaves[current] == s.leaves[current];
  }

  /** Signing failed: rolled back. */
  lemma AbortsAlone(s: State, k: TxId, tx: Tx)
    ensures Enabled(Only(s, k, tx), Abort(k)) && Apply(Only(s, k, tx), Abort(k)) == s.(txs := map[])
  {
    OnlyIsPut(s, k, tx, tx);
  }

  /**
  A renewal of the database store is a run of the register's renewal, from the lock to the
  commit, the refusal or the roll-back.
  */
  lemma RenewIsARun(s: State, k: TxId, current: Fingerprint, legacyKind: Kind, signed: Option<Stores.Signed>, line: LineId, now: Time)
    returns (steps: seq<Step>, t: State)
    requires Idle(s) && Inv(s) && current in s.leaves && line !in s.reserved && (signed.Some? ==> signed.value.fp !in s.leaves)
    ensures Runs(s, steps, t) && Idle(t)
    ensures t.db == Stores.TableRenew(s.db, current, s.leaves[current].nb, s.leaves[current].identity, legacyKind, signed, line, now).0
  {
    hide Runs, Apply, Enabled, RecordRenewal, Active, LegacyAdmitted;
    var id, nb := s.leaves[current].identity, s.leaves[current].nb;
    var tx := Renewing(id, current, legacyKind, now, Checked);
    RenewBegins(s, k, current, legacyKind, now);
    RunsNothing(s);
    steps := [];
    t := Apply(s, BeginRenew(k, current, legacyKind, now));
    RunsAlso(s, steps, s, BeginRenew(k, current, legacyKind, now));
    steps := steps + [BeginRenew(k, current, legacyKind, now)];
    RunsAlso(s, steps, t, LockRenew(k));
    steps, t := steps + [LockRenew(k)], Apply(t, LockRenew(k));
    RunsAlso(s, steps, t, AdmitRenew(k));
    steps, t := steps + [AdmitRenew(k)], Apply(t, AdmitRenew(k));
    if !Active(s.db.revoked, id, Some(nb)) {
      return;
    }
    RenewFindsLine(s, k, current, legacyKind, now, line);
    RunsAlso(s, steps, t, FindLine(k, line));
    steps, t := steps + [FindLine(k, line)], Apply(t, FindLine(k, line));
    var found := LineOf(s.db, current);
    if (found.None? && !LegacyAdmitted(nb, s.db.installed, now))
       || (found.Some? && (s.db.lines[found.value].revoked.Some? || s.db.lines[found.value].identity != id)) {
      return;
    }
    var g := if found.None? then OnLine(line, true, legacyKind) else OnLine(found.value, false, s.db.lines[found.value].kind);
    var r := if found.None? then s.(reserved := s.reserved[line := id]) else s;
    assert t == Only(r, k, tx.(renew := g));
    UnrecordedHasNoLine(s, current);
    if signed.None? {
      AbortsAlone(r, k, tx.(renew := g));
      RunsAlso(s, steps, t, Abort(k));
      steps, t := steps + [Abort(k)], Apply(t, Abort(k));
      return;
    }
    ReservedKeepsInv(s, line, id);
    RenewCommits(r, k, current, legacyKind, now, g, signed.value);
    hide Inv;
    NeitherRecorded(s, signed.value.fp);
    RunsAlso(s, steps, t, SignRenew(k, signed.value.fp, signed.value.nb));
    steps, t := steps + [SignRenew(k, signed.value.fp, signed.value.nb)], Apply(t, SignRenew(k, signed.value.fp, signed.value.nb));
    RunsAlso(s, steps, t, RecheckRenew(k));
    steps, t := steps + [RecheckRenew(k)], Apply(t, RecheckRenew(k));
    RunsAlso(s, steps, t, CommitRenew(k));
    steps, t := steps + [CommitRenew(k)], Apply(t, CommitRenew(k));
  }

  lemma UnrecordedHasNoLine(s: State, current: Fingerprint)
    requires Inv(s)
    ensures LineOf(s.db, current).None? ==> current !in s.db.certs
  {
    RecordedHasLine(s.db, s.leaves, current);
  }

  lemma NeitherRecorded(s: State, fp: Fingerprint)
    requires Inv(s) && fp !in s.leaves
    ensures fp !in s.db.certs
  {
    UnsignedUnrecorded(s.db, s.leaves, fp);
  }

  lemma ReservedKeepsInv(s: State, line: LineId, id: Identity)
    requires Idle(s) && Inv(s) && line !in s.reserved
    ensures Inv(s.(reserved := s.reserved[line := id]))
  {
    hide TablesOk;
  }

  // ----- An enrollment -------------------------------------------------------------------

  lemma EnrollBegins(s: State, k: TxId, token: TokenId, former: Option<Fingerprint>, now: Time)
    requires Idle(s) && Usable(s.db, token, now)
    ensures var row := s.db.tokens[token];
            var s1, s2 := Only(s, k, Enrolling(row.identity, token, former, now, Consumed)), Only(s, k, Enrolling(row.identity, token, former, now, InLock));
            && Enabled(s, BeginEnroll(k, token, former, now)) && Apply(s, BeginEnroll(k, token, former, now)) == s1
            && Enabled(s1, LockEnroll(k)) && Apply(s1, LockEnroll(k)) == s2
            && Enabled(s2, AdmitEnroll(k))
            && Apply(s2, AdmitEnroll(k)) ==
                 (if Active(s.db.revoked, row.identity, row.minted) then Only(s, k, Enrolling(row.identity, token, former, now, Admitted))
                  else s.(db := Spend(s.db, token, now, None)))
  {
    hide Active;
    var id := s.db.tokens[token].identity;
    var a, b, c := Enrolling(id, token, former, now, Consumed), Enrolling(id, token, former, now, InLock), Enrolling(id, token, former, now, Admitted);
    OnlyIsPut(s, k, a, a);
    OnlyIsPut(s, k, a, b);
    OnlyIsPut(s, k, b, c);
    OnlyIsFree(s, k, a);
    IdleIsFree(s);
    hide IdentityFree, TokenFree;
  }

  lemma EnrollCommits(s: State, k: TxId, token: TokenId, former: Option<Fingerprint>, now: Time, signed: Stores.Signed, line: LineId)
    requires Idle(s) && Usable(s.db, token, now) && signed.fp !in s.leaves && line !in s.reserved
    ensures var id := s.db.tokens[token].identity;
            var leaves := s.leaves[signed.fp := Leaf(id, signed.nb)];
            var s3 := Only(s, k, Enrolling(id, token, former, now, Admitted));
            var s4 := Only(s, k, Enrolling(id, token, former, now, Signed(signed.fp))).(leaves := leaves);
            && Enabled(s3, SignEnroll(k, signed.fp, signed.nb)) && Apply(s3, SignEnroll(k, signed.fp, signed.nb)) == s4
            && Enabled(s4, CommitEnroll(k, line))
            && Apply(s4, CommitEnroll(k, line)) ==
                 s.(db := RecordEnrollment(s.db, token, now, line, signed.fp, signed.nb, former), leaves := leaves, reserved := s.reserved[line := id])
  {
    hide RecordEnrollment, Replaceable;
    var id := s.db.tokens[token].identity;
    var c, e := Enrolling(id, token, former, now, Admitted), Enrolling(id, token, former, now, Signed(signed.fp));
    OnlyIsPut(s, k, c, e);
    OnlyIsPut(s, k, e, e);
    var leaves := s.leaves[signed.fp := Leaf(id, signed.nb)];
    OnlyIsPut(s.(leaves := leaves), k, e, e);
    OnlyIsFree(s.(leaves := leaves), k, e);
    hide LineFree;
  }

  /** An enrollment of the database store is a run of the register's enrollment. */
  lemma EnrollIsARun(s: State, k: TxId, token: TokenId, signed: Option<Stores.Signed>, former: Option<Fingerprint>, line: LineId, now: Time)
    returns (steps: seq<Step>, t: State)
    requires Idle(s) && Inv(s) && line !in s.reserved && (signed.Some? ==> signed.value.fp !in s.leaves)
    ensures Runs(s, steps, t) && Idle(t)
    ensures t.db == Stores.TableEnroll(s.db, token, signed, former, line, now).0
  {
    hide Runs, Apply, Enabled, RecordEnrollment, Active, Inv;
    RunsNothing(s);
    steps, t := [], s;
    if !Usable(s.db, token, now) {
      return;
    }
    var row := s.db.tokens[token];
    EnrollBegins(s, k, token, former, now);
    RunsAlso(s, steps, t, BeginEnroll(k, token, former, now));
    steps, t := steps + [BeginEnroll(k, token, former, now)], Apply(t, BeginEnroll(k, token, former, now));
    RunsAlso(s, steps, t, LockEnroll(k));
    steps, t := steps + [LockEnroll(k)], Apply(t, LockEnroll(k));
    RunsAlso(s, steps, t, AdmitEnroll(k));
    steps, t := steps + [AdmitEnroll(k)], Apply(t, AdmitEnroll(k));
    if !Active(s.db.revoked, row.identity, row.minted) {
      return;
    }
    if signed.None? {
      AbortsAlone(s, k, Enrolling(row.identity, token, former, now, Admitted));
      RunsAlso(s, steps, t, Abort(k));
      steps, t := steps + [Abort(k)], Apply(t, Abort(k));
      return;
    }
    NeitherRecorded(s, signed.value.fp);
    EnrollCommits(s, k, token, former, now, signed.value, line);
    RunsAlso(s, steps, t, SignEnroll(k, signed.value.fp, signed.value.nb));
    steps, t := steps + [SignEnroll(k, signed.value.fp, signed.value.nb)], Apply(t, SignEnroll(k, signed.value.fp, signed.value.nb));
    RunsAlso(s, steps, t, CommitEnroll(k, line));
    steps, t := steps + [CommitEnroll(k, line)], Apply(t, CommitEnroll(k, line));
  }

  lemma Mints(s: State, token: TokenId, row: Token)
    requires Inv(s) && token !in s.db.tokens && row.used.None? && row.issued.None?
    ensures var u := Apply(s, Mint(token, row));
            Enabled(s, Mint(token, row)) && Inv(u) && u == s.(db := s.db.(tokens := s.db.tokens[token := row]))
  {
    hide Inv;
    StepKeepsInv(s, Mint(token, row));
  }

  /** A fresh token of an identity not revoked since enrolls one certificate, on a line of that identity. */
  lemma MintedTokenEnrolls(s: State, k: TxId, token: TokenId, row: Token, signed: Stores.Signed, line: LineId, now: Time)
    returns (steps: seq<Step>, t: State)
    requires Idle(s) && Inv(s) && line !in s.reserved && signed.fp !in s.leaves
    requires token !in s.db.tokens && row.used.None? && row.issued.None? && now < row.expires
    requires row.identity in s.db.revoked ==>
               row.minted.Some? && s.db.revoked[row.identity].Some? && s.db.revoked[row.identity].value < row.minted.value
    ensures Runs(s, steps, t) && Idle(t) && token in t.db.tokens && t.db.tokens[token].used == Some(now)
    ensures signed.fp in t.db.certs && t.db.certs[signed.fp].line == line && t.db.certs[signed.fp].token == Some(token)
    ensures line in t.db.lines && t.db.lines[line].identity == row.identity && t.db.lines[line].revoked.None?
  {
    hide Runs, Apply, Enabled, Inv;
    Mints(s, token, row);
    var u := Apply(s, Mint(token, row));
    var rest;
    rest, t := EnrollIsARun(u, k, token, Some(signed), None, line, now);
    RunsStep(s, Mint(token, row), rest, t);
    steps := [Mint(token, row)] + rest;
    NeitherRecorded(u, signed.fp);
  }
}
