/** Sequential runs: the in-memory store and the database store cannot be told apart. */
module StoreRuns {
  import opened Common
  import opened RegisterTables
  import opened TokenStores

  datatype Op =
    | Mint(token: TokenId, grant: Grant, ttl: Time)
    | Deprovision(id: Identity, at: Time)
    | Consume(token: TokenId)
    | Enroll(token: TokenId, signed: Option<Signed>, former: Option<Fingerprint>, line: LineId)
    | Renew(current: Fingerprint, nb: Time, id: Identity, legacyKind: Kind, signed: Option<Signed>, line: LineId)
    | LineOf(fp: Fingerprint)
    | IsActive(id: Identity, issued: Option<Time>)

  datatype Call = Call(now: Time, op: Op)

  datatype Reply = Reply(answer: Answer) | Info(info: Option<LineInfo>) | Said(active: bool)

  /** The register after one call at its time, and what it says. */
  function BookStep(b: Book, call: Call): (Book, Reply) {
    match call.op
    case Mint(token, grant, ttl) =>
      (b.(usable := b.usable[token := Entry(grant, call.now + ttl, call.now)]), Reply(Done))
    case Deprovision(id, at) => (b.(revoked := b.revoked[id := at]), Reply(Done))
    case Consume(token) =>
      (b.(usable := b.usable - {token}), Reply(if token in b.usable then Granted(b.usable[token].grant) else NoGrant))
    case Enroll(token, signed, former, line) =>
      var (after, answer) := BookEnroll(b, token, signed, former, line);
      (after, Reply(answer))
    case Renew(current, nb, id, legacyKind, signed, line) =>
      var (after, answer) := BookRenew(b, call.now, current, nb, id, legacyKind, signed, line);
      (after, Reply(answer))
    case LineOf(fp) => (b, Info(InfoOf(b, fp)))
    case IsActive(id, at) => (b, Said(BookActive(b, id, at)))
  }

  function BookRun(b: Book, calls: seq<Call>): (replies: seq<Reply>)
    ensures |replies| == |calls|
    decreases |calls|
  {
    if calls == [] then []
    else
      var (after, reply) := BookStep(AfterExpiry(b, calls[0].now), calls[0]);
      [reply] + BookRun(after, calls[1..])
  }

  /** Tokens, line ids and fingerprints are new when they first appear. */
  predicate Fresh(b: Book, minted: set<TokenId>, op: Op) {
    match op
    case Mint(token, _, ttl) => token !in minted && ttl > 0
    case Enroll(_, signed, _, line) => line !in b.lines && (signed.Some? ==> signed.value.fp !in b.certs)
    case Renew(current, _, _, _, signed, line) =>
      line !in b.lines && (signed.Some? ==> signed.value.fp !in b.certs && signed.value.fp != current)
    case _ => true
  }

  function MintedBy(minted: set<TokenId>, op: Op): set<TokenId> {
    if op.Mint? then minted + {op.token} else minted
  }

  predicate FreshRun(b: Book, minted: set<TokenId>, clock: Time, calls: seq<Call>)
    decreases |calls|
  {
    calls != [] ==>
      var now := AfterExpiry(b, calls[0].now);
      && clock <= calls[0].now && Fresh(now, minted, calls[0].op)
      && FreshRun(BookStep(now, calls[0]).0, MintedBy(minted, calls[0].op), calls[0].now, calls[1..])
  }

  lemma MemoryLater(b: Book, clock: Time, now: Time)
    requires clock <= now
    ensures AfterExpiry(b, now) == AfterExpiry(AfterExpiry(b, clock), now)
  {
    assert AfterExpiry(b, now).usable == AfterExpiry(AfterExpiry(b, clock), now).usable;
  }

  lemma TablesLater(d: Tables, clock: Time, now: Time)
    requires RowsValid(d) && clock <= now
    ensures BookOf(d, now) == AfterExpiry(BookOf(d, clock), now)
  {
    assert BookOf(d, now).usable == AfterExpiry(BookOf(d, clock), now).usable;
  }

  lemma LinesOfTables(d: Tables, clock: Time)
    requires RowsValid(d)
    ensures BookOf(d, clock).lines.Keys == d.lines.Keys && BookOf(d, clock).certs.Keys == d.certs.Keys
  {
  }

  lemma EnrolledIsSigned(b: Book, token: TokenId, signed: Option<Signed>, former: Option<Fingerprint>, line: LineId)
    ensures var reply := BookEnroll(b, token, signed, former, line).1;
            reply.Enrolled? ==> signed.Some? && reply.fp == signed.value.fp
  {
    hide RetireFormer;
  }

  lemma RenewedIsSigned(b: Book, now: Time, current: Fingerprint, nb: Time, id: Identity, legacyKind: Kind, signed: Option<Signed>, line: LineId)
    ensures var reply := BookRenew(b, now, current, nb, id, legacyKind, signed, line).1;
            reply.Renewed? ==> signed.Some? && reply.fp == signed.value.fp
  {
  }

  method CallMemory(mem: InMemoryTokenStore, call: Call) returns (reply: Reply)
    requires mem.Valid() && Fresh(mem.View(call.now), {}, call.op)
    modifies mem
    ensures mem.Valid() && (mem.View(call.now), reply) == BookStep(old(mem.View(call.now)), call)
  {
    var now := call.now;
    match call.op {
      case Mint(token, grant, ttl) => mem.Mint(token, grant, ttl, now); reply := Reply(Done);
      case Deprovision(id, at) => mem.Deprovision(id, at, now); reply := Reply(Done);
      case Consume(token) => var answer := mem.Consume(token, now); reply := Reply(answer);
      case Enroll(token, signed, former, line) =>
        var answer := mem.Enroll(token, signed, former, line, now);
        reply := Reply(answer);
      case Renew(current, nb, id, legacyKind, signed, line) =>
        var answer := mem.Renew(current, nb, id, legacyKind, signed, line, now);
        reply := Reply(answer);
      case LineOf(fp) => var info := mem.LineOf(fp, now); reply := Info(info);
      case IsActive(id, at) => var active := mem.IsActive(id, at, now); reply := Said(active);
    }
  }

  method CallDb(db: DbTokenStore, call: Call) returns (reply: Reply)
    requires db.Valid() && Fresh(db.View(call.now), db.db.tokens.Keys, call.op)
    modifies db
    ensures db.Valid() && (db.View(call.now), reply) == BookStep(old(db.View(call.now)), call)
    ensures db.db.tokens.Keys == MintedBy(old(db.db.tokens.Keys), call.op)
  {
    hide BookEnroll, BookRenew, BookOf, RowsValid;
    var now := call.now;
    LinesOfTables(db.db, now);
    match call.op {
      case Mint(token, grant, ttl) => db.Mint(token, grant, ttl, now); reply := Reply(Done);
      case Deprovision(id, at) => db.Deprovision(id, at, now); reply := Reply(Done);
      case Consume(token) => var answer := db.Consume(token, now); reply := Reply(answer);
      case Enroll(token, signed, former, line) =>
        EnrolledIsSigned(db.View(now), token, signed, former, line);
        var answer := db.Enroll(token, signed, former, line, now);
        reply := Reply(answer);
      case Renew(current, nb, id, legacyKind, signed, line) =>
        RenewedIsSigned(db.View(now), now, current, nb, id, legacyKind, signed, line);
        var answer := db.Renew(current, nb, id, legacyKind, signed, line, now);
        reply := Reply(answer);
      case LineOf(fp) => var info := db.LineOf(fp, now); reply := Info(info);
      case IsActive(id, at) => var active := db.IsActive(id, at, now); reply := Said(active);
    }
  }

  /**
  Driven side by side through any sequence of calls with a monotone clock and fresh names,
  the two stores give the same replies, those of the one register both implement.
  */
  method RunBoth(mem: InMemoryTokenStore, db: DbTokenStore, calls: seq<Call>, start: Time)
    returns (fromMemory: seq<Reply>, fromDb: seq<Reply>)
    requires mem.Valid() && db.Valid() && mem.View(start) == db.View(start)
    requires FreshRun(mem.View(start), db.db.tokens.Keys, start, calls)
    modifies mem, db
    ensures fromMemory == fromDb == BookRun(old(mem.View(start)), calls)
    ensures mem.Valid() && db.Valid()
    ensures var last := if calls == [] then start else calls[|calls| - 1].now; mem.View(last) == db.View(last)
  {
    hide BookStep, Fresh, AfterExpiry, BookOf;
    fromMemory, fromDb := [], [];
    var clock := start;
    var i := 0;
    assert calls[0..] == calls;
    while i < |calls|
      invariant 0 <= i <= |calls| && mem.Valid() && db.Valid()
      invariant clock == if i == 0 then start else calls[i - 1].now
      invariant mem.View(clock) == db.View(clock)
      invariant FreshRun(mem.View(clock), db.db.tokens.Keys, clock, calls[i..])
      invariant fromMemory == fromDb
      invariant fromMemory + BookRun(mem.View(clock), calls[i..]) == BookRun(old(mem.View(start)), calls)
    {
      var call := calls[i];
      assert calls[i..][0] == call && calls[i..][1..] == calls[i + 1..];
      MemoryLater(Book(mem.tokens, mem.deprovisioned, mem.lines, mem.certs, mem.installed), clock, call.now);
      TablesLater(db.db, clock, call.now);
      ghost var before := mem.View(call.now);
      FreshForMemory(before, db.db.tokens.Keys, call.op);
      var m := CallMemory(mem, call);
      var d := CallDb(db, call);
      assert m == d;
      clock, i := call.now, i + 1;
      assert fromMemory + ([m] + BookRun(mem.View(clock), calls[i..])) == (fromMemory + [m]) + BookRun(mem.View(clock), calls[i..]);
      fromMemory, fromDb := fromMemory + [m], fromDb + [d];
    }
  }

  lemma FreshForMemory(b: Book, minted: set<TokenId>, op: Op)
    requires Fresh(b, minted, op)
    ensures Fresh(b, {}, op)
  {
  }

  /** A token is spent once: from then on every call with it says so, to the end of the run. */
  lemma {:induction false} SpentTokenGrantsNothing(b: Book, minted: set<TokenId>, clock: Time, calls: seq<Call>,
                                                   token: TokenId, i: nat)
    requires FreshRun(b, minted, clock, calls) && token in minted && token !in b.usable && i < |calls|
    requires match calls[i].op
             case Consume(k) => k == token
             case Enroll(k, _, _, _) => k == token
             case _ => false
    ensures BookRun(b, calls)[i] == Reply(NoGrant)
    decreases |calls|
  {
    if i > 0 {
      var (after, _) := BookStep(AfterExpiry(b, calls[0].now), calls[0]);
      SpentTokenGrantsNothing(after, MintedBy(minted, calls[0].op), calls[0].now, calls[1..], token, i - 1);
    }
  }
}
