/** What the one register of both stores admits and refuses, over every sequence of calls. */
module StoreTheorems {
  import opened Common
  import opened RegisterTables
  import opened TokenStores
  import opened StoreRuns

  /** The register after the first `n` calls. */
  function BookAt(b: Book, calls: seq<Call>, n: nat): Book
    requires n <= |calls|
    decreases n
  {
    if n == 0 then b else BookAt(BookStep(AfterExpiry(b, calls[0].now), calls[0]).0, calls[1..], n - 1)
  }

  /** The register as call number `n` finds it. */
  function Found(b: Book, calls: seq<Call>, n: nat): Book
    requires n < |calls|
  {
    AfterExpiry(BookAt(b, calls, n), calls[n].now)
  }

  /** Every certificate has a line, and a line is filed under its own id. */
  predicate BookOk(b: Book) {
    (forall f :: f in b.certs ==> b.certs[f] in b.lines) && (forall l :: l in b.lines ==> b.lines[l].line == l)
  }

  lemma {:induction false} AtStep(b: Book, minted: set<TokenId>, clock: Time, calls: seq<Call>, n: nat)
    requires FreshRun(b, minted, clock, calls) && BookOk(b) && n < |calls|
    ensures BookRun(b, calls)[n] == BookStep(Found(b, calls, n), calls[n]).1
    ensures BookAt(b, calls, n + 1) == BookStep(Found(b, calls, n), calls[n]).0
    ensures BookOk(BookAt(b, calls, n)) && exists m :: Fresh(Found(b, calls, n), m, calls[n].op)
    decreases n
  {
    hide BookStep, AfterExpiry, Fresh, BookOk;
    if n == 0 {
      assert BookAt(b, calls, 1) == BookAt(BookStep(AfterExpiry(b, calls[0].now), calls[0]).0, calls[1..], 0);
    } else {
      var now := AfterExpiry(b, calls[0].now);
      StepOk(b, calls[0], minted);
      AtStep(BookStep(now, calls[0]).0, MintedBy(minted, calls[0].op), calls[0].now, calls[1..], n - 1);
    }
  }

  lemma StepOk(b: Book, call: Call, minted: set<TokenId>)
    requires BookOk(b) && Fresh(AfterExpiry(b, call.now), minted, call.op)
    ensures BookOk(BookStep(AfterExpiry(b, call.now), call).0)
  {
    var now := AfterExpiry(b, call.now);
    ExpiryLeavesLines(b, call.now);
    hide AfterExpiry, BookEnroll, BookRenew;
    match call.op {
      case Enroll(token, signed, former, line) => EnrollKeepsOk(now, token, signed, former, line);
      case Renew(current, nb, id, legacyKind, signed, line) => RenewKeepsOk(now, call.now, current, nb, id, legacyKind, signed, line);
      case _ =>
    }
  }

  lemma RenewKeepsOk(b: Book, now: Time, current: Fingerprint, nb: Time, id: Identity, legacyKind: Kind, signed: Option<Signed>, line: LineId)
    requires BookOk(b)
    ensures BookOk(BookRenew(b, now, current, nb, id, legacyKind, signed, line).0)
  {
  }

  lemma EnrollKeepsOk(b: Book, token: TokenId, signed: Option<Signed>, former: Option<Fingerprint>, line: LineId)
    requires BookOk(b)
    ensures BookOk(BookEnroll(b, token, signed, former, line).0)
  {
  }

  // ----- A revoked line ------------------------------------------------------------------

  /** The line is as it was, with the same certificates. */
  ghost predicate SameLine(a: Book, b: Book, line: LineId) {
    && line in a.lines && line in b.lines && b.lines[line] == a.lines[line]
    && (forall f :: (f in a.certs && a.certs[f] == line) <==> (f in b.certs && b.certs[f] == line))
  }

  lemma StepLeavesRevoked(b: Book, call: Call, minted: set<TokenId>, line: LineId)
    requires BookOk(b) && Fresh(b, minted, call.op) && line in b.lines && b.lines[line].revoked.Some?
    ensures SameLine(b, BookStep(b, call).0, line)
  {
    match call.op {
      case Enroll(token, signed, former, other) => EnrollLeavesRevoked(b, token, signed, former, other, line);
      case Renew(current, nb, id, legacyKind, signed, other) =>
      case _ =>
    }
  }

  lemma EnrollLeavesRevoked(b: Book, token: TokenId, signed: Option<Signed>, former: Option<Fingerprint>, other: LineId, line: LineId)
    requires BookOk(b) && line in b.lines && b.lines[line].revoked.Some? && other !in b.lines && (signed.Some? ==> signed.value.fp !in b.certs)
    ensures SameLine(b, BookEnroll(b, token, signed, former, other).0, line)
  {
  }

  /** A revoked line keeps its reason and gains no certificate, whatever is called. */
  lemma {:induction false} RevokedLineIsClosed(b: Book, minted: set<TokenId>, clock: Time, calls: seq<Call>, i: nat, j: nat, line: LineId)
    requires FreshRun(b, minted, clock, calls) && BookOk(b) && i <= j <= |calls|
    requires line in BookAt(b, calls, i).lines && BookAt(b, calls, i).lines[line].revoked.Some?
    ensures SameLine(BookAt(b, calls, i), BookAt(b, calls, j), line)
    decreases j
  {
    hide BookAt, FreshRun, BookStep, AfterExpiry, Fresh, BookOk;
    if i < j {
      RevokedLineIsClosed(b, minted, clock, calls, i, j - 1, line);
      AtStep(b, minted, clock, calls, j - 1);
      var before := BookAt(b, calls, j - 1);
      ExpiryLeavesLines(before, calls[j - 1].now);
      var m :| Fresh(Found(b, calls, j - 1), m, calls[j - 1].op);
      StepLeavesRevoked(Found(b, calls, j - 1), calls[j - 1], m, line);
    }
  }

  lemma ExpiryLeavesLines(b: Book, now: Time)
    ensures var e := AfterExpiry(b, now);
            e.lines == b.lines && e.certs == b.certs && e.revoked == b.revoked && e.installed == b.installed && (BookOk(b) ==> BookOk(e))
  {
  }

  /**
  Once a line is shown as revoked, every later renewal of one of its certificates is
  refused, and a later look at a certificate of that line shows one it had then.
  */
  lemma ShownRevokedStaysRefused(b: Book, minted: set<TokenId>, clock: Time, calls: seq<Call>, i: nat, j: nat, info: LineInfo)
    requires FreshRun(b, minted, clock, calls) && BookOk(b) && i < j < |calls|
    requires calls[i].op.LineOf? && BookRun(b, calls)[i] == Info(Some(info)) && info.revoked.Some?
    ensures calls[j].op.Renew? && calls[j].op.current in Found(b, calls, j).certs && Found(b, calls, j).certs[calls[j].op.current] == info.line ==>
              BookRun(b, calls)[j] in {Reply(Refused(Deprovisioned)), Reply(Refused(LineRevoked))}
    ensures calls[j].op.LineOf? && BookRun(b, calls)[j].Info? && BookRun(b, calls)[j].info.Some? && BookRun(b, calls)[j].info.value.line == info.line ==>
              BookRun(b, calls)[j] == Info(Some(info)) && InfoOf(Found(b, calls, i), calls[j].op.fp) == Some(info)
  {
    hide FreshRun, AfterExpiry, Fresh, BookAt, BookEnroll;
    AtStep(b, minted, clock, calls, i);
    AtStep(b, minted, clock, calls, j);
    ExpiryLeavesLines(BookAt(b, calls, i), calls[i].now);
    ExpiryLeavesLines(BookAt(b, calls, j), calls[j].now);
    RevokedLineIsClosed(b, minted, clock, calls, i, j, info.line);
  }

  // ----- Who is renewed, who enrolled ----------------------------------------------------

  /** A certificate may be renewed: on an open line of its holder, or unrecorded, from before the install, in the window. */
  predicate MayRenew(b: Book, now: Time, current: Fingerprint, nb: Time, id: Identity) {
    && (id in b.revoked ==> nb > b.revoked[id])
    && match InfoOf(b, current)
       case Some(info) => info.revoked.None? && info.identity == id
       case None => nb < b.installed && now < b.installed + LEGACY_WINDOW
  }

  /**
  A renewal goes through exactly if the certificate may be renewed and signing works. The
  new one is then on the line of the old one, with the kind of that line, and nothing else
  changed; an unrecorded one gets a line of its own with the kind it was presented as.
  */
  lemma RenewedExactly(b: Book, minted: set<TokenId>, clock: Time, calls: seq<Call>, j: nat)
    requires FreshRun(b, minted, clock, calls) && BookOk(b) && j < |calls| && calls[j].op.Renew?
    ensures var op, before, after, reply := calls[j].op, Found(b, calls, j), BookAt(b, calls, j + 1), BookRun(b, calls)[j];
            && (reply.Reply? && reply.answer.Renewed? <==> MayRenew(before, calls[j].now, op.current, op.nb, op.id) && op.signed.Some?)
            && (reply.Reply? && reply.answer.Renewed? ==>
                  && reply.answer.fp == op.signed.value.fp
                  && (forall f :: f != op.signed.value.fp && f != op.current ==> InfoOf(after, f) == InfoOf(before, f))
                  && InfoOf(after, op.current) == InfoOf(after, op.signed.value.fp)
                  && InfoOf(after, op.current) ==
                       (if InfoOf(before, op.current).Some? then InfoOf(before, op.current)
                        else Some(LineInfo(op.line, op.id, op.legacyKind, true, None)))
                  && reply.answer.kind == InfoOf(after, op.current).value.kind)
            && (!(reply.Reply? && reply.answer.Renewed?) ==> after == before)
            && (!(reply.Reply? && reply.answer.Renewed?) ==> reply.Reply? && (reply.answer.Refused? || reply.answer.SigningFailed?))
  {
    hide FreshRun, AfterExpiry, BookAt, BookEnroll;
    AtStep(b, minted, clock, calls, j);
    ExpiryLeavesLines(BookAt(b, calls, j), calls[j].now);
    var m :| Fresh(Found(b, calls, j), m, calls[j].op);
    var op := calls[j].op;
    RenewedOnItsLine(Found(b, calls, j), calls[j].now, op.current, op.nb, op.id, op.legacyKind, op.signed, op.line);
    hide BookRenew, MayRenew, BookOk, BookRun;
  }

  lemma RenewedOnItsLine(b: Book, now: Time, current: Fingerprint, nb: Time, id: Identity, legacyKind: Kind, signed: Option<Signed>, line: LineId)
    requires BookOk(b) && line !in b.lines && (signed.Some? ==> signed.value.fp !in b.certs && signed.value.fp != current)
    ensures var (after, answer) := BookRenew(b, now, current, nb, id, legacyKind, signed, line);
            && (answer.Renewed? <==> MayRenew(b, now, current, nb, id) && signed.Some?)
            && (answer.Renewed? ==>
                  && answer.fp == signed.value.fp
                  && (forall f :: f != signed.value.fp && f != current ==> InfoOf(after, f) == InfoOf(b, f))
                  && InfoOf(after, current) == InfoOf(after, signed.value.fp)
                  && InfoOf(after, current) == (if InfoOf(b, current).Some? then InfoOf(b, current) else Some(LineInfo(line, id, legacyKind, true, None)))
                  && answer.kind == InfoOf(after, current).value.kind)
            && (!answer.Renewed? ==> after == b && (answer.Refused? || answer.SigningFailed?))
  {
  }

  /**
  An enrollment goes through exactly if its token is usable, its identity active as of the
  minting, and signing works. The certificate is then on a new open line of the granted
  identity; the line of the former certificate is retired exactly if it is that identity's
  and open, and nothing else changed.
  */
  lemma EnrolledExactly(b: Book, minted: set<TokenId>, clock: Time, calls: seq<Call>, j: nat)
    requires FreshRun(b, minted, clock, calls) && BookOk(b) && j < |calls| && calls[j].op.Enroll?
    ensures var op, before, after, reply := calls[j].op, Found(b, calls, j), BookAt(b, calls, j + 1), BookRun(b, calls)[j];
            && reply.Reply?
            && (reply.answer.Enrolled? <==>
                  && op.token in before.usable && op.signed.Some?
                  && var entry := before.usable[op.token];
                     entry.grant.identity in before.revoked ==> entry.minted > before.revoked[entry.grant.identity])
            && (reply.answer.Enrolled? ==>
                  var grant := before.usable[op.token].grant;
                  && reply.answer == Enrolled(grant, op.signed.value.fp) && op.token !in after.usable
                  && (forall f :: f != op.signed.value.fp ==> FormerRetired(before, after, op.former, grant.identity, f))
                  && InfoOf(after, op.signed.value.fp).Some?
                  && var info := InfoOf(after, op.signed.value.fp).value;
                     && info.identity == grant.identity && !info.legacy
                     && (info.kind.Agent? <==> grant.identity.scope.Tunnel?) && (info.kind.Browser? <==> !grant.identity.scope.Tunnel? && grant.browser)
                     && info.line !in before.lines
                     && (info.revoked.Some? ==> op.former == Some(op.signed.value.fp)))
            && (!reply.answer.Enrolled? ==>
                  after == before || after == before.(usable := before.usable - {op.token}))
            && (reply.answer.SigningFailed? ==> after == before)
  {
    hide FreshRun, AfterExpiry, BookAt, BookRenew;
    AtStep(b, minted, clock, calls, j);
    ExpiryLeavesLines(BookAt(b, calls, j), calls[j].now);
    var m :| Fresh(Found(b, calls, j), m, calls[j].op);
    hide BookRun;
    EnrolledOnItsLine(Found(b, calls, j), calls[j].op.token, calls[j].op.signed, calls[j].op.former, calls[j].op.line);
  }

  /** The line of `f` afterwards: retired if it is the former one's, of this identity and open, else as before. */
  predicate FormerRetired(before: Book, after: Book, former: Option<Fingerprint>, id: Identity, f: Fingerprint) {
    match InfoOf(before, f)
    case None => InfoOf(after, f).None?
    case Some(info) =>
      var gone := former.Some? && InfoOf(before, former.value) == Some(info) && info.identity == id && info.revoked.None?;
      InfoOf(after, f) == Some(if gone then info.(revoked := Some(Replaced)) else info)
  }

  lemma EnrolledOnItsLine(b: Book, token: TokenId, signed: Option<Signed>, former: Option<Fingerprint>, line: LineId)
    requires BookOk(b) && line !in b.lines && (signed.Some? ==> signed.value.fp !in b.certs)
    ensures var (after, answer) := BookEnroll(b, token, signed, former, line);
            answer.Enrolled? ==>
              && signed.Some? && token in b.usable
              && var id := b.usable[token].grant.identity;
                 && (forall f :: f != signed.value.fp ==> FormerRetired(b, after, former, id, f))
                 && InfoOf(after, signed.value.fp).Some?
                 && var info := InfoOf(after, signed.value.fp).value;
                    && info == LineInfo(line, id, KindOf(id.scope, b.usable[token].grant.browser), false, info.revoked)
                    && (info.revoked.Some? ==> former == Some(signed.value.fp))
  {
    hide KindOf, BookActive;
  }

  // ----- A deprovisioned identity --------------------------------------------------------

  lemma {:induction false} RevokedUntil(b: Book, minted: set<TokenId>, clock: Time, calls: seq<Call>, i: nat, j: nat, id: Identity, at: Time)
    requires FreshRun(b, minted, clock, calls) && BookOk(b) && i < j <= |calls| && calls[i].op == Deprovision(id, at)
    requires forall k :: i < k < j ==> !(calls[k].op.Deprovision? && calls[k].op.id == id)
    ensures id in BookAt(b, calls, j).revoked && BookAt(b, calls, j).revoked[id] == at
    decreases j
  {
    hide FreshRun, AfterExpiry, Fresh, BookAt, BookOk, BookRun;
    AtStep(b, minted, clock, calls, j - 1);
    ExpiryLeavesLines(BookAt(b, calls, j - 1), calls[j - 1].now);
    if i < j - 1 {
      RevokedUntil(b, minted, clock, calls, i, j - 1, id, at);
    }
  }

  /**
  A deprovisioned identity enrolls with no token minted at or before that point and renews
  no certificate issued at or before it, until it is deprovisioned again.
  */
  lemma DeprovisionedIsRefused(b: Book, minted: set<TokenId>, clock: Time, calls: seq<Call>, i: nat, j: nat, id: Identity, at: Time)
    requires FreshRun(b, minted, clock, calls) && BookOk(b) && i < j < |calls| && calls[i].op == Deprovision(id, at)
    requires forall k :: i < k < j ==> !(calls[k].op.Deprovision? && calls[k].op.id == id)
    ensures calls[j].op.Renew? && calls[j].op.id == id && calls[j].op.nb <= at ==> BookRun(b, calls)[j] == Reply(Refused(Deprovisioned))
    ensures calls[j].op.Enroll? && calls[j].op.token in Found(b, calls, j).usable
            && Found(b, calls, j).usable[calls[j].op.token].grant.identity == id && Found(b, calls, j).usable[calls[j].op.token].minted <= at
            ==> BookRun(b, calls)[j] == Reply(NoGrant) && calls[j].op.token !in BookAt(b, calls, j + 1).usable
    ensures calls[j].op.IsActive? && calls[j].op.id == id ==>
              BookRun(b, calls)[j] == Said(calls[j].op.issued.Some? && calls[j].op.issued.value > at)
  {
    hide FreshRun, AfterExpiry, Fresh, BookAt, BookOk, RetireFormer;
    RevokedUntil(b, minted, clock, calls, i, j, id, at);
    AtStep(b, minted, clock, calls, j);
    ExpiryLeavesLines(BookAt(b, calls, j), calls[j].now);
  }
}
