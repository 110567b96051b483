/**
The two token stores of the ca-issuer: InMemoryTokenStore (apps/ca-issuer/app/tokens.py)
and DbTokenStore (apps/ca-issuer/app/db.py), each proved to implement one register. The
random line id, the clock and what signing yields are arguments; `signed` is None when
signing raises.
*/
module TokenStores {
  import opened Common
  import opened RegisterTables

  // ----- The register both implement -----------------------------------------------------

  datatype Grant = Grant(identity: Identity, browser: bool)

  datatype Entry = Entry(grant: Grant, expires: Time, minted: Time)

  datatype Signed = Signed(fp: Fingerprint, nb: Time)

  datatype LineInfo = LineInfo(line: LineId, identity: Identity, kind: Kind, legacy: bool, revoked: Option<Reason>)

  /** What a store knows: the tokens usable now, revocations, and each certificate's line. */
  datatype Book = Book(
    usable: map<TokenId, Entry>,
    revoked: map<Identity, Time>,
    lines: map<LineId, LineInfo>,
    certs: map<Fingerprint, LineId>,
    installed: Time
  )

  datatype Refusal = Deprovisioned | NotInRegister | LineRevoked | RecordedConcurrently

  datatype Answer =
    | Done
    | Granted(grant: Grant)
    | NoGrant
    | SigningFailed
    | DbError                                        // an exception of the database
    | Enrolled(grant: Grant, fp: Fingerprint)        // what the signer was asked for, and its leaf
    | Renewed(kind: Kind, fp: Fingerprint)
    | Refused(why: Refusal)

  predicate BookActive(b: Book, id: Identity, at: Option<Time>) {
    id in b.revoked ==> at.Some? && at.value > b.revoked[id]
  }

  function AfterExpiry(b: Book, now: Time): Book {
    b.(usable := map k | k in b.usable && b.usable[k].expires > now :: b.usable[k])
  }

  lemma UsableAfter(b: Book, token: TokenId, now: Time)
    ensures var e := AfterExpiry(b, now);
            && e == b.(usable := e.usable)
            && (token in e.usable <==> token in b.usable && b.usable[token].expires > now)
            && (token in e.usable ==> e.usable[token] == b.usable[token])
            && (token !in e.usable ==> AfterExpiry(b.(usable := b.usable - {token}), now) == e)
            && AfterExpiry(b.(usable := b.usable - {token}), now) == e.(usable := e.usable - {token})
  {
  }

  lemma ExpiryAside(b: Book, c: Book, now: Time)
    requires b.usable == c.usable
    ensures AfterExpiry(c, now) == c.(usable := AfterExpiry(b, now).usable)
  {
  }

  function InfoOf(b: Book, fp: Fingerprint): Option<LineInfo> {
    if fp in b.certs && b.certs[fp] in b.lines then Some(b.lines[b.certs[fp]]) else None
  }

  function RetireFormer(b: Book, former: Option<Fingerprint>, id: Identity): Book {
    if former.None? || InfoOf(b, former.value).None? then b
    else
      var line := InfoOf(b, former.value).value;
      if line.identity == id && line.revoked.None?
      then b.(lines := b.lines[b.certs[former.value] := line.(revoked := Some(Replaced))]) else b
  }

  function BookEnroll(b: Book, token: TokenId, signed: Option<Signed>, former: Option<Fingerprint>, line: LineId)
    : (Book, Answer)
  {
    if token !in b.usable then (b, NoGrant)
    else
      var entry := b.usable[token];
      var spent := b.(usable := b.usable - {token});
      if !BookActive(b, entry.grant.identity, Some(entry.minted)) then (spent, NoGrant)
      else if signed.None? then (b, SigningFailed)
      else
        var id := entry.grant.identity;
        var recorded := spent.(lines := b.lines[line := LineInfo(line, id, KindOf(id.scope, entry.grant.browser), false, None)],
                               certs := b.certs[signed.value.fp := line]);
        (RetireFormer(recorded, former, id), Enrolled(entry.grant, signed.value.fp))
  }

  function BookRenew(b: Book, now: Time, current: Fingerprint, nb: Time, id: Identity, legacyKind: Kind,
                     signed: Option<Signed>, line: LineId): (Book, Answer)
  {
    if !BookActive(b, id, Some(nb)) then (b, Refused(Deprovisioned))
    else if current in b.certs && b.certs[current] in b.lines then
      var info := b.lines[b.certs[current]];
      if info.revoked.Some? || info.identity != id then (b, Refused(LineRevoked))
      else if signed.None? then (b, SigningFailed)
      else (b.(certs := b.certs[signed.value.fp := b.certs[current]]), Renewed(info.kind, signed.value.fp))
    else if !LegacyAdmitted(nb, Some(b.installed), now) then (b, Refused(NotInRegister))
    else if signed.None? then (b, SigningFailed)
    else (b.(lines := b.lines[line := LineInfo(line, id, legacyKind, true, None)],
             certs := b.certs[current := line][signed.value.fp := line]), Renewed(legacyKind, signed.value.fp))
  }

  // ----- The transactions on the tables ---------------------------------------------------

  /** What an enrollment commits, and its answer. */
  function TableEnroll(d: Tables, token: TokenId, signed: Option<Signed>, former: Option<Fingerprint>, line: LineId, now: Time)
    : (Tables, Answer)
  {
    if !Usable(d, token, now) then (d, NoGrant)
    else
      var row := d.tokens[token];
      if !Active(d.revoked, row.identity, row.minted) then (Spend(d, token, now, None), NoGrant)
      else if signed.None? then (d, SigningFailed)
      else if signed.value.fp in d.certs then (d, DbError)
      else (RecordEnrollment(d, token, now, line, signed.value.fp, signed.value.nb, former),
            Enrolled(Grant(row.identity, row.browser), signed.value.fp))
  }

  /** What a renewal commits, and its answer. */
  function TableRenew(d: Tables, current: Fingerprint, nb: Time, id: Identity, legacyKind: Kind, signed: Option<Signed>, line: LineId, now: Time)
    : (Tables, Answer)
  {
    if !Active(d.revoked, id, Some(nb)) then (d, Refused(Deprovisioned))
    else
      var found := LineOf(d, current);
      if found.None? && !LegacyAdmitted(nb, d.installed, now) then (d, Refused(NotInRegister))
      else if found.Some? && (d.lines[found.value].revoked.Some? || d.lines[found.value].identity != id) then (d, Refused(LineRevoked))
      else if signed.None? then (d, SigningFailed)
      else
        var on, kind := if found.Some? then found.value else line, if found.Some? then d.lines[found.value].kind else legacyKind;
        if signed.value.fp in d.certs || (found.None? && signed.value.fp == current) then (d, Refused(RecordedConcurrently))
        else (RecordRenewal(d, found.None?, on, id, kind, current, nb, signed.value.fp, signed.value.nb), Renewed(kind, signed.value.fp))
  }

  // ----- In memory -----------------------------------------------------------------------

  class InMemoryTokenStore {
    var tokens: map<TokenId, Entry>
    var deprovisioned: map<Identity, Time>
    var lines: map<LineId, LineInfo>
    var certs: map<Fingerprint, LineId>
    var installed: Time

    ghost predicate Valid() reads this {
      forall f :: f in certs ==> certs[f] in lines
    }

    ghost function View(now: Time): Book reads this {
      AfterExpiry(Book(tokens, deprovisioned, lines, certs, installed), now)
    }

    constructor (at: Time)
      ensures Valid() && forall now :: View(now) == Book(map[], map[], map[], map[], at)
    {
      tokens, deprovisioned, lines, certs, installed := map[], map[], map[], map[], at;
      new;
      assert forall now :: View(now).usable == map[];
    }

    method Mint(token: TokenId, grant: Grant, ttl: Time, now: Time)
      requires Valid() && ttl > 0
      modifies this
      ensures Valid() && View(now) == old(View(now)).(usable := old(View(now)).usable[token := Entry(grant, now + ttl, now)])
    {
      tokens := tokens[token := Entry(grant, now + ttl, now)];
      assert View(now).usable == old(View(now)).usable[token := Entry(grant, now + ttl, now)];
    }

    method Deprovision(id: Identity, at: Time, now: Time)
      requires Valid()
      modifies this
      ensures Valid() && View(now) == old(View(now)).(revoked := old(View(now)).revoked[id := at])
    {
      deprovisioned := deprovisioned[id := at];
    }

    /** The entry is popped whether or not it has expired. */
    method Consume(token: TokenId, now: Time) returns (answer: Answer)
      requires Valid()
      modifies this
      ensures Valid() && View(now) == old(View(now)).(usable := old(View(now)).usable - {token})
      ensures answer == if token in old(View(now)).usable then Granted(old(View(now)).usable[token].grant) else NoGrant
    {
      answer := NoGrant;
      if token in tokens {
        var entry := tokens[token];
        tokens := tokens - {token};
        if now < entry.expires {
          answer := Granted(entry.grant);
        }
      }
      assert View(now).usable == old(View(now)).usable - {token};
    }

    method Enroll(token: TokenId, signed: Option<Signed>, former: Option<Fingerprint>, line: LineId, now: Time)
      returns (answer: Answer)
      requires Valid() && line !in lines
      modifies this
      ensures Valid() && (View(now), answer) == BookEnroll(old(View(now)), token, signed, former, line)
    {
      hide AfterExpiry, KindOf, RetireFormer;
      ghost var was := Book(tokens, deprovisioned, lines, certs, installed);
      UsableAfter(was, token, now);
      if token !in tokens {
        return NoGrant;
      }
      var entry := tokens[token];
      tokens := tokens - {token};
      if now >= entry.expires {
        return NoGrant;
      }
      if !StillActive(entry.grant.identity, entry.minted) {
        return NoGrant;
      }
      if signed.None? {
        tokens := tokens[token := entry];
        assert Book(tokens, deprovisioned, lines, certs, installed) == was;
        return SigningFailed;
      }
      var id := entry.grant.identity;
      Record(LineInfo(line, id, KindOf(id.scope, entry.grant.browser), false, None), signed.value.fp, former);
      ghost var spent := was.(usable := was.usable - {token});
      ExpiryAside(spent, spent.(lines := lines, certs := certs), now);
      answer := Enrolled(entry.grant, signed.value.fp);
    }

    method LineOf(fp: Fingerprint, now: Time) returns (info: Option<LineInfo>)
      requires Valid()
      ensures info == InfoOf(View(now), fp)
    {
      if fp in certs && certs[fp] in lines {
        info := Some(lines[certs[fp]]);
      } else {
        info := None;
      }
    }

    /** A new line with its certificate; the line the holder had before is retired. */
    method Record(info: LineInfo, fp: Fingerprint, former: Option<Fingerprint>)
      requires Valid()
      modifies this`lines, this`certs
      ensures Valid()
      ensures forall b: Book :: b.lines == old(lines)[info.line := info] && b.certs == old(certs)[fp := info.line] ==>
                RetireFormer(b, former, info.identity) == b.(lines := lines, certs := certs)
    {
      lines := lines[info.line := info];
      certs := certs[fp := info.line];
      if former.Some? && former.value in certs {
        var replaced := lines[certs[former.value]];
        if replaced.identity == info.identity && replaced.revoked.None? {
          lines := lines[certs[former.value] := replaced.(revoked := Some(Replaced))];
        }
      }
    }

    /** A take-over is recorded only together with its successor. */
    method Renew(current: Fingerprint, nb: Time, id: Identity, legacyKind: Kind, signed: Option<Signed>, line: LineId,
                 now: Time) returns (answer: Answer)
      requires Valid() && line !in lines
      modifies this
      ensures Valid() && (View(now), answer) == BookRenew(old(View(now)), now, current, nb, id, legacyKind, signed, line)
    {
      if !StillActive(id, nb) {
        return Refused(Deprovisioned);
      }
      var takenOver := current !in certs;
      if takenOver && !LegacyAdmitted(nb, Some(installed), now) {
        return Refused(NotInRegister);
      }
      var on := if takenOver then line else certs[current];
      var info := if takenOver then LineInfo(line, id, legacyKind, true, None) else lines[on];
      if info.revoked.Some? || info.identity != id {
        return Refused(LineRevoked);
      }
      if signed.None? {
        return SigningFailed;
      }
      if takenOver {
        lines := lines[on := info];
        certs := certs[current := on];
      }
      certs := certs[signed.value.fp := on];
      answer := Renewed(info.kind, signed.value.fp);
    }

    method IsActive(id: Identity, at: Option<Time>, now: Time) returns (active: bool)
      requires Valid()
      ensures active == BookActive(View(now), id, at)
    {
      active := id !in deprovisioned || (at.Some? && at.value > deprovisioned[id]);
    }

    predicate StillActive(id: Identity, at: Time) reads this {
      id in deprovisioned ==> at > deprovisioned[id]
    }
  }

  // ----- In the database -----------------------------------------------------------------

  class DbTokenStore {
    var db: Tables

    ghost predicate Valid() reads this { RowsValid(db) }

    ghost function View(now: Time): Book
      requires Valid()
      reads this
    {
      BookOf(db, now)
    }

    constructor (at: Time)
      ensures Valid() && forall now :: View(now) == Book(map[], map[], map[], map[], at)
      ensures db.tokens == map[]
    {
      db := Tables(map[], map[], map[], map[], Some(at));
    }

    /** The server's insert. */
    method Mint(token: TokenId, grant: Grant, ttl: Time, now: Time)
      requires Valid() && ttl > 0 && token !in db.tokens
      modifies this
      ensures Valid() && View(now) == old(View(now)).(usable := old(View(now)).usable[token := Entry(grant, now + ttl, now)])
      ensures db.tokens.Keys == old(db.tokens.Keys) + {token}
    {
      db := db.(tokens := db.tokens[token := Token(grant.identity, grant.browser, now + ttl, None, Some(now), None)]);
      assert View(now).usable == old(View(now)).usable[token := Entry(grant, now + ttl, now)];
    }

    /** The row of the revoked identity, as the server writes it. */
    method Deprovision(id: Identity, at: Time, now: Time)
      requires Valid()
      modifies this
      ensures Valid() && View(now) == old(View(now)).(revoked := old(View(now)).revoked[id := at])
      ensures db.tokens == old(db.tokens)
    {
      db := db.(revoked := db.revoked[id := Some(at)]);
      assert View(now).revoked == old(View(now)).revoked[id := at];
    }

    /** The conditional UPDATE: the row's grant if it was usable. */
    method ConsumeRow(conn: Tables, token: TokenId, now: Time) returns (after: Tables, entry: Option<Token>)
      ensures entry.Some? <==> Usable(conn, token, now)
      ensures entry.Some? ==> entry.value == conn.tokens[token] && after == Spend(conn, token, now, None)
      ensures entry.None? ==> after == conn
    {
      if Usable(conn, token, now) {
        entry := Some(conn.tokens[token]);
        after := Spend(conn, token, now, None);
      } else {
        after, entry := conn, None;
      }
    }

    method Consume(token: TokenId, now: Time) returns (answer: Answer)
      requires Valid()
      modifies this
      ensures Valid() && View(now) == old(View(now)).(usable := old(View(now)).usable - {token})
      ensures answer == if token in old(View(now)).usable then Granted(old(View(now)).usable[token].grant) else NoGrant
      ensures db.tokens.Keys == old(db.tokens.Keys)
    {
      var conn, row := ConsumeRow(db, token, now);
      if row.None? {
        assert View(now).usable - {token} == View(now).usable;
        return NoGrant;
      }
      UsableRow(db, token, now);
      SpendBook(db, token, now, None);
      db := conn;
      answer := Granted(Grant(row.value.identity, row.value.browser));
    }

    /** enroll: the token is spent, the leaf signed and its rows written, all or nothing; a recorded leaf is an error. */
    method Enroll(token: TokenId, signed: Option<Signed>, former: Option<Fingerprint>, line: LineId, now: Time)
      returns (answer: Answer)
      requires Valid() && line !in db.lines
      modifies this
      ensures Valid() && var (book, reply) := BookEnroll(old(View(now)), token, signed, former, line);
              if reply.Enrolled? && reply.fp in old(View(now)).certs then db == old(db) && answer == DbError
              else (View(now), answer) == (book, reply)
      ensures (db, answer) == TableEnroll(old(db), token, signed, former, line, now)
      ensures answer.SigningFailed? ==> db == old(db)
      ensures db.tokens.Keys == old(db.tokens.Keys)
    {
      var conn, row := ConsumeRow(db, token, now);
      UsableRow(db, token, now);
      hide BookOf, RowsValid;
      if row.None? {
        return NoGrant;
      }
      var id, browser := row.value.identity, row.value.browser;
      SpendBook(db, token, now, None);
      if !Active(conn.revoked, id, row.value.minted) {
        db := conn;
        return NoGrant;
      }
      if signed.None? {
        return SigningFailed;       // rolled back
      }
      CertRow(db, signed.value.fp, now);
      if signed.value.fp in db.certs {
        return DbError;             // rolled back
      }
      EnrolledBook(db, token, now, signed.value, former, line);
      EnrollStatements(db, token, now, line, signed.value, former);
      hide BookEnroll, RecordEnrollment, RevokeReplaced;
      conn := Spend(db, token, now, Some(signed.value.fp));
      conn := OpenLine(conn, line, id, KindOf(id.scope, browser), false, signed.value.fp, signed.value.nb,
                       row.value.minted, Some(token));
      if former.Some? {
        conn := RevokeReplaced(conn, former, id);
      }
      db := conn;
      answer := Enrolled(Grant(id, browser), signed.value.fp);
    }

    method LineOf(fp: Fingerprint, now: Time) returns (info: Option<LineInfo>)
      requires Valid()
      ensures info == InfoOf(View(now), fp)
    {
      var line := RegisterTables.LineOf(db, fp);
      info := if line.Some? then Some(InfoOfLine(line.value, db.lines[line.value])) else None;
    }

    method IsActive(id: Identity, at: Option<Time>, now: Time) returns (active: bool)
      requires Valid()
      ensures active == BookActive(View(now), id, at)
    {
      ActiveRow(db, id, at, now);
      active := Active(db.revoked, id, at);
    }

    /** One transaction; refusals, a failed signing and a certificate recorded already roll it back. */
    method Renew(current: Fingerprint, nb: Time, id: Identity, legacyKind: Kind, signed: Option<Signed>, line: LineId,
                 now: Time) returns (answer: Answer)
      requires Valid() && line !in db.lines
      modifies this
      ensures Valid() && var (book, reply) := BookRenew(old(View(now)), now, current, nb, id, legacyKind, signed, line);
              if reply.Renewed? && (reply.fp in old(View(now)).certs || reply.fp == current)
              then answer == Refused(RecordedConcurrently) else (View(now), answer) == (book, reply)
      ensures (db, answer) == TableRenew(old(db), current, nb, id, legacyKind, signed, line, now)
      ensures !answer.Renewed? ==> db == old(db)
      ensures db.tokens == old(db.tokens)
    {
      hide BookOf, Active, LegacyAdmitted, BookActive, OpenLine;
      ActiveRow(db, id, Some(nb), now);
      CertRow(db, current, now);
      if !Active(db.revoked, id, Some(nb)) {
        return Refused(Deprovisioned);
      }
      var conn, on, kind := db, line, legacyKind;
      var found := RegisterTables.LineOf(conn, current);
      if found.None? {
        if !LegacyAdmitted(nb, conn.installed, now) {
          return Refused(NotInRegister);
        }
        OpenLineBook(conn, line, id, kind, true, Signed(current, nb), Some(nb), None, now);
        conn := OpenLine(conn, line, id, kind, true, current, nb, Some(nb), None);
      } else if conn.lines[found.value].revoked.Some? || conn.lines[found.value].identity != id {
        return Refused(LineRevoked);
      } else {
        on, kind := found.value, conn.lines[found.value].kind;
      }
      if signed.None? {
        return SigningFailed;
      }
      if !Active(conn.revoked, id, Some(nb)) {
        return Refused(Deprovisioned);
      }
      CertRow(db, signed.value.fp, now);
      if signed.value.fp in conn.certs {
        return Refused(RecordedConcurrently);
      }
      SuccessorBook(conn, on, signed.value, current, now);
      conn := AddSuccessor(conn, on, signed.value.fp, signed.value.nb, current);
      db := conn;
      answer := Renewed(kind, signed.value.fp);
    }
  }

  // ----- The tables as a book ------------------------------------------------------------

  /** Every row as the issuer and the server write it. */
  ghost predicate RowsValid(d: Tables) {
    && d.installed.Some?
    && (forall i :: i in d.revoked ==> d.revoked[i].Some?)
    && (forall f :: f in d.certs ==> d.certs[f].line in d.lines)
    && (forall k :: k in d.tokens ==> d.tokens[k].minted.Some?)
  }

  ghost function BookOf(d: Tables, now: Time): Book
    requires RowsValid(d)
  {
    Book(UsableIn(d, now), RevokedIn(d), LinesIn(d), CertsIn(d), d.installed.value)
  }

  ghost function UsableIn(d: Tables, now: Time): map<TokenId, Entry>
    requires RowsValid(d)
  {
    map k | k in d.tokens && Usable(d, k, now) :: EntryOf(d.tokens[k])
  }

  ghost function RevokedIn(d: Tables): map<Identity, Time>
    requires RowsValid(d)
  {
    map i | i in d.revoked :: d.revoked[i].value
  }

  ghost function LinesIn(d: Tables): map<LineId, LineInfo> { map l | l in d.lines :: InfoOfLine(l, d.lines[l]) }

  ghost function CertsIn(d: Tables): map<Fingerprint, LineId> { map f | f in d.certs :: d.certs[f].line }

  lemma SameTokens(d: Tables, e: Tables, now: Time)
    requires RowsValid(d) && RowsValid(e) && e.tokens == d.tokens && e.revoked == d.revoked
    ensures UsableIn(e, now) == UsableIn(d, now) && RevokedIn(e) == RevokedIn(d)
  {
  }

  lemma UsableRow(d: Tables, token: TokenId, now: Time)
    requires RowsValid(d)
    ensures token in BookOf(d, now).usable <==> Usable(d, token, now)
    ensures token in BookOf(d, now).usable ==>
              d.tokens[token].minted.Some? && BookOf(d, now).usable[token] == EntryOf(d.tokens[token])
    ensures token in BookOf(d, now).usable ==>
              BookActive(BookOf(d, now), d.tokens[token].identity, d.tokens[token].minted)
                == Active(d.revoked, d.tokens[token].identity, d.tokens[token].minted)
  {
  }

  lemma ActiveRow(d: Tables, id: Identity, at: Option<Time>, now: Time)
    requires RowsValid(d)
    ensures BookActive(BookOf(d, now), id, at) == Active(d.revoked, id, at)
  {
  }

  lemma CertRow(d: Tables, fp: Fingerprint, now: Time)
    requires RowsValid(d)
    ensures InfoOf(BookOf(d, now), fp) == if LineOf(d, fp).Some? then Some(InfoOfLine(d.certs[fp].line, d.lines[d.certs[fp].line])) else None
    ensures fp in BookOf(d, now).certs <==> LineOf(d, fp).Some?
    ensures fp in d.certs <==> LineOf(d, fp).Some?
    ensures fp in BookOf(d, now).certs ==> BookOf(d, now).certs[fp] == d.certs[fp].line
    ensures Some(BookOf(d, now).installed) == d.installed
  {
  }

  lemma SpendBook(d: Tables, token: TokenId, now: Time, issued: Option<Fingerprint>)
    requires RowsValid(d) && Usable(d, token, now)
    ensures RowsValid(Spend(d, token, now, issued))
    ensures BookOf(Spend(d, token, now, issued), now) == BookOf(d, now).(usable := BookOf(d, now).usable - {token})
  {
    assert BookOf(Spend(d, token, now, issued), now).usable == BookOf(d, now).usable - {token};
  }

  lemma OpenLineBook(d: Tables, line: LineId, id: Identity, kind: Kind, legacy: bool, leaf: Signed, basis: Option<Time>,
                     token: Option<TokenId>, now: Time)
    requires RowsValid(d)
    ensures var e := OpenLine(d, line, id, kind, legacy, leaf.fp, leaf.nb, basis, token);
            && RowsValid(e) && line in e.lines && e.revoked == d.revoked && e.tokens == d.tokens
            && (forall f :: f in e.certs <==> f in d.certs || f == leaf.fp)
            && BookOf(e, now) == BookOf(d, now).(lines := BookOf(d, now).lines[line := LineInfo(line, id, kind, legacy, None)],
                                                 certs := BookOf(d, now).certs[leaf.fp := line])
  {
    var e := OpenLine(d, line, id, kind, legacy, leaf.fp, leaf.nb, basis, token);
    hide UsableIn, RevokedIn, LinesIn, CertsIn;
    OpenedLines(d, line, id, kind, legacy, leaf, basis, token);
    OpenedCerts(d, line, id, kind, legacy, leaf, basis, token);
    OpenedRows(d, line, id, kind, legacy, leaf, basis, token);
    hide OpenLine;
    SameTokens(d, e, now);
  }

  lemma OpenedRows(d: Tables, line: LineId, id: Identity, kind: Kind, legacy: bool, leaf: Signed, basis: Option<Time>, token: Option<TokenId>)
    requires RowsValid(d)
    ensures var e := OpenLine(d, line, id, kind, legacy, leaf.fp, leaf.nb, basis, token);
            && RowsValid(e) && line in e.lines && e.revoked == d.revoked && e.tokens == d.tokens && e.installed == d.installed
            && forall f :: f in e.certs <==> f in d.certs || f == leaf.fp
  {
  }

  lemma OpenedLines(d: Tables, line: LineId, id: Identity, kind: Kind, legacy: bool, leaf: Signed, basis: Option<Time>, token: Option<TokenId>)
    ensures LinesIn(OpenLine(d, line, id, kind, legacy, leaf.fp, leaf.nb, basis, token)) == LinesIn(d)[line := LineInfo(line, id, kind, legacy, None)]
  {
  }

  lemma OpenedCerts(d: Tables, line: LineId, id: Identity, kind: Kind, legacy: bool, leaf: Signed, basis: Option<Time>, token: Option<TokenId>)
    ensures CertsIn(OpenLine(d, line, id, kind, legacy, leaf.fp, leaf.nb, basis, token)) == CertsIn(d)[leaf.fp := line]
  {
  }

  lemma SuccessorBook(d: Tables, line: LineId, leaf: Signed, from: Fingerprint, now: Time)
    requires RowsValid(d) && line in d.lines
    ensures var e := AddSuccessor(d, line, leaf.fp, leaf.nb, from);
            RowsValid(e) && BookOf(e, now) == BookOf(d, now).(certs := BookOf(d, now).certs[leaf.fp := line])
  {
    var e := AddSuccessor(d, line, leaf.fp, leaf.nb, from);
    assert RowsValid(e);
    SameTokens(d, e, now);
    hide UsableIn, RevokedIn;
    assert CertsIn(e) == CertsIn(d)[leaf.fp := line];
  }

  lemma ReplaceBook(d: Tables, former: Option<Fingerprint>, id: Identity, now: Time)
    requires RowsValid(d)
    ensures RowsValid(RevokeReplaced(d, former, id))
    ensures BookOf(RevokeReplaced(d, former, id), now) == RetireFormer(BookOf(d, now), former, id)
  {
    var line := Replaceable(d, former, id);
    if line.Some? && d.lines[line.value].revoked.None? {
      RevokeBook(d, line.value, now);
    }
    if former.Some? {
      CertRow(d, former.value, now);
    }
    hide BookOf, RowsValid;
  }

  lemma RevokeBook(d: Tables, line: LineId, now: Time)
    requires RowsValid(d) && line in d.lines && d.lines[line].revoked.None?
    ensures var e, b := RevokeLine(d, line, Replaced), BookOf(d, now);
            && RowsValid(e) && line in b.lines
            && BookOf(e, now) == b.(lines := b.lines[line := b.lines[line].(revoked := Some(Replaced))])
  {
    var e, b := RevokeLine(d, line, Replaced), BookOf(d, now);
    assert RowsValid(e);
    SameTokens(d, e, now);
    hide UsableIn, RevokedIn, CertsIn;
    assert LinesIn(e) == LinesIn(d)[line := LinesIn(d)[line].(revoked := Some(Replaced))];
  }

  /** The statements of the transaction, one after the other. */
  lemma EnrollStatements(d: Tables, token: TokenId, now: Time, line: LineId, leaf: Signed, former: Option<Fingerprint>)
    requires token in d.tokens
    ensures var t := d.tokens[token];
            var entered := OpenLine(Spend(d, token, now, Some(leaf.fp)), line, t.identity, KindOf(t.identity.scope, t.browser), false,
                                    leaf.fp, leaf.nb, t.minted, Some(token));
            var e := RecordEnrollment(d, token, now, line, leaf.fp, leaf.nb, former);
            && e == RevokeReplaced(entered, former, t.identity) && (former.None? ==> e == entered)
            && e.tokens.Keys == d.tokens.Keys
  {
  }

  /** What the transaction records is the register's enrollment. */
  lemma EnrolledBook(d: Tables, token: TokenId, now: Time, leaf: Signed, former: Option<Fingerprint>, line: LineId)
    requires RowsValid(d) && Usable(d, token, now) && Active(d.revoked, d.tokens[token].identity, d.tokens[token].minted)
    ensures var t := d.tokens[token];
            var e := RecordEnrollment(d, token, now, line, leaf.fp, leaf.nb, former);
            && RowsValid(e)
            && BookEnroll(BookOf(d, now), token, Some(leaf), former, line)
               == (BookOf(e, now), Enrolled(Grant(t.identity, t.browser), leaf.fp))
  {
    var t := d.tokens[token];
    var kind := KindOf(t.identity.scope, t.browser);
    UsableRow(d, token, now);
    SpendBook(d, token, now, Some(leaf.fp));
    var spent := Spend(d, token, now, Some(leaf.fp));
    OpenLineBook(spent, line, t.identity, kind, false, leaf, t.minted, Some(token), now);
    ReplaceBook(OpenLine(spent, line, t.identity, kind, false, leaf.fp, leaf.nb, t.minted, Some(token)), former, t.identity, now);
    hide BookOf, RowsValid, RetireFormer, Replaceable;
  }

  function EntryOf(t: Token): Entry
    requires t.minted.Some?
  {
    Entry(Grant(t.identity, t.browser), t.expires, t.minted.value)
  }

  function InfoOfLine(id: LineId, l: Line): LineInfo { LineInfo(id, l.identity, l.kind, l.legacy, l.revoked) }
}
