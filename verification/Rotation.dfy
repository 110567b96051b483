/**
The commands of apps/ca-issuer/app/rotation.py as plans: each reads and checks everything
first and then yields the file operations it performs, in order. A refusal writes nothing.
*/
module Rotation {
  import opened Common
  import opened Certificates
  import opened PkiDirectory

  datatype Refusal =
    | Rejected(error: RolloverError)
    | WrongPhase(phase: Phase)
    | Unreadable
    | NoNewPassphrase
    | SameRootName
    | AlreadySwitched
    | NothingStaged
    | WrongPassphrase
    | KeyMismatch
    | RootNotValid
    | ClockBehind(scope: Scope)
    | ForeignEntry(scope: Scope)
    | OtherOptions
    | UnexpectedCross
    | CompromisedWithoutCross
    | NoNewRoot
    | NotARoot
    | BadCross

  type Plan = Result<seq<Op>, Refusal>

  function DayOf(now: Time): int { now / DAY }

  function Decrypt(enc: Option<EncKey>, pass: Passphrase, cert: Cert): Result<KeyId, Refusal> {
    match enc
    case None => Err(Unreadable)
    case Some(e) =>
      if e.pass != pass then Err(WrongPassphrase)
      else if e.key != cert.key then Err(KeyMismatch)
      else Ok(e.key)
  }

  // ----- The retired file of a scope ------------------------------------------------

  function Unexpired(certs: seq<Cert>, now: Time): (r: seq<Cert>)
    ensures forall c :: c in r <==> c in certs && now < c.na
  {
    if certs == [] then []
    else (if now < certs[0].na then [certs[0]] else []) + Unexpired(certs[1..], now)
  }

  predicate NewestFirst(certs: seq<Cert>) {
    forall i, j | 0 <= i < j < |certs| :: certs[i].nb >= certs[j].nb
  }

  predicate EachOnce(certs: seq<Cert>) {
    forall i, j | 0 <= i < j < |certs| :: certs[i] != certs[j]
  }

  /** `c` behind every entry that starts no earlier: the sort keeps the order of equals. */
  function InsertByStart(certs: seq<Cert>, c: Cert): (r: seq<Cert>)
    ensures forall x :: x in r <==> x in certs || x == c
    ensures NewestFirst(certs) ==> NewestFirst(r)
    ensures EachOnce(certs) && c !in certs ==> EachOnce(r)
  {
    if certs == [] || certs[0].nb < c.nb then
      InsertedInFront(certs, c);
      [c] + certs
    else
      InsertedBehind(certs, InsertByStart(certs[1..], c), c);
      [certs[0]] + InsertByStart(certs[1..], c)
  }

  lemma InsertedInFront(certs: seq<Cert>, c: Cert)
    requires certs == [] || certs[0].nb < c.nb
    ensures forall x :: x in [c] + certs <==> x in certs || x == c
    ensures NewestFirst(certs) ==> NewestFirst([c] + certs)
    ensures EachOnce(certs) && c !in certs ==> EachOnce([c] + certs)
  {
  }

  lemma InsertedBehind(certs: seq<Cert>, rest: seq<Cert>, c: Cert)
    requires certs != [] && certs[0].nb >= c.nb
    requires forall x :: x in rest <==> x in certs[1..] || x == c
    requires NewestFirst(certs[1..]) ==> NewestFirst(rest)
    requires EachOnce(certs[1..]) && c !in certs[1..] ==> EachOnce(rest)
    ensures forall x :: x in [certs[0]] + rest <==> x in certs || x == c
    ensures NewestFirst(certs) ==> NewestFirst([certs[0]] + rest)
    ensures EachOnce(certs) && c !in certs ==> EachOnce([certs[0]] + rest)
  {
    var r := [certs[0]] + rest;
    assert certs == [certs[0]] + certs[1..];
    if NewestFirst(certs) {
      forall i, j | 0 <= i < j < |r| ensures r[i].nb >= r[j].nb {
        assert r[j] == rest[j - 1] && rest[j - 1] in rest;
      }
    }
    if EachOnce(certs) && c !in certs {
      assert certs[0] !in certs[1..];
      forall i, j | 0 <= i < j < |r| ensures r[i] != r[j] {
        assert r[j] == rest[j - 1] && rest[j - 1] in rest;
      }
    }
  }

  /** unique, then sorted by notBefore, newest first. */
  function SortedUnique(certs: seq<Cert>): (r: seq<Cert>)
    ensures NewestFirst(r) && EachOnce(r)
    ensures forall c :: c in r <==> c in certs
  {
    if certs == [] then []
    else
      var last := certs[|certs| - 1];
      var rest := SortedUnique(certs[..|certs| - 1]);
      assert certs == certs[..|certs| - 1] + [last];
      if last in rest then rest else InsertByStart(rest, last)
  }

  /** _retired_after: what the retired file holds after `replaced` is replaced. */
  function RetiredAfter(earlier: seq<Cert>, s: Scope, replaced: Cert, roots: seq<Cert>, now: Time)
    : (r: Result<seq<Cert>, Refusal>)
    ensures r.Ok? ==>
      && NewestFirst(r.value) && EachOnce(r.value)
      && (forall c :: c in r.value <==>
           || (c in earlier && now < c.na)
           || (c == replaced && IsIntermediateAmong(replaced, s, roots) && ValidAt(replaced, now)))
  {
    if exists i | 0 <= i < |earlier| :: !IsIntermediateAmong(earlier[i], s, roots) then Err(ForeignEntry(s))
    else
      var keep := Unexpired(earlier, now);
      Ok(SortedUnique(
        if IsIntermediateAmong(replaced, s, roots) && ValidAt(replaced, now) then keep + [replaced] else keep))
  }

  datatype Replacement = Replacement(cert: Cert, retired: seq<Cert>)

  /** _plan_scope: the new intermediate and the retired file beside it. */
  function PlanScope(f: ScopeFiles, s: Scope, root: Cert, rootKey: KeyId, roots: seq<Cert>,
                     compromised: bool, now: Time, key: KeyId): Result<Replacement, Refusal>
  {
    if f.crt.None? then Err(Unreadable)
    else
      var replaced := f.crt.value;
      var built := BuildIntermediate(s, root, rootKey, Some(DayOf(now)), now, key);
      if built.Err? then Err(RootNotValid)
      else if compromised then Ok(Replacement(built.value, []))
      else if now < replaced.nb && IsIntermediateAmong(replaced, s, roots) then Err(ClockBehind(s))
      else
        match RetiredAfter(f.Entries(), s, replaced, roots, now)
        case Err(e) => Err(e)
        case Ok(retired) => Ok(Replacement(built.value, retired))
  }

  /** _write_scope: retired file, key, certificate, chain. */
  function WriteScope(s: Scope, r: Replacement, root: Cert): seq<Op> {
    [PutRetired(s, r.retired), PutKey(s, r.cert.key), PutCrt(s, r.cert), PutChain(s, [r.cert, root])]
  }

  // ----- rotate-intermediates ---------------------------------------------------------

  function KeyFor(s: Scope, key: KeyId): KeyId {
    match s case Tunnel => key case Access => key + 1 case Internal => key + 2
  }

  /** The fresh keys one command may draw. */
  const KEYS_PER_COMMAND := 3

  function PlanRotation(d: Dir, pass: Passphrase, compromised: set<Scope>, now: Time, key: KeyId): Plan {
    match LoadState(d)
    case Err(e) => Err(Rejected(e))
    case Ok(state) =>
      if state.phase.Switching? || state.phase.Finishing? then Err(WrongPhase(state.phase))
      else if d.rootCrt.None? || d.rootKey.None? then Err(Unreadable)
      else
        var root := d.rootCrt.value;
        match Decrypt(d.rootKey, pass, root)
        case Err(e) => Err(e)
        case Ok(rootKey) =>
          if !ValidAt(root, now) then Err(RootNotValid)
          else
            var roots := if state.retiredRoot.None? then [root] else [root, state.retiredRoot.value];
            var plan := s => PlanScope(d.Of(s), s, root, rootKey, roots, s in compromised, now, KeyFor(s, key));
            match (plan(Tunnel), plan(Access), plan(Internal))
            case (Ok(t), Ok(a), Ok(i)) =>
              Ok(RecordCompromised(state.switch, compromised)
                 + WriteScope(Tunnel, t, root) + WriteScope(Access, a, root) + WriteScope(Internal, i, root))
            case (Err(e), _, _) => Err(e)
            case (_, Err(e), _) => Err(e)
            case (_, _, Err(e)) => Err(e)
  }

  /** A scope given up after the switch goes into the record, and R leaves `chain`. */
  function RecordCompromised(switch: Option<Switch>, compromised: set<Scope>): seq<Op> {
    if compromised == {} || switch.None? then []
    else
      var s := switch.value.(compromised := switch.value.compromised + compromised, dropRetiredRoot := true);
      if s == switch.value then [] else [PutRecord(s)]
  }

  // ----- rotate-root stage, abort -----------------------------------------------------

  function PlanStage(d: Dir, pass: Passphrase, now: Time, key: KeyId): Plan {
    if pass == NO_PASSPHRASE then Err(NoNewPassphrase)
    else
      match LoadState(d)
      case Err(e) => Err(Rejected(e))
      case Ok(state) =>
        if !state.phase.NoRenewal? then Err(WrongPhase(state.phase))
        else if d.rootCrt.None? then Err(Unreadable)
        else
          var newRoot := BuildRoot(Some(DayOf(now)), now, key);
          if newRoot.subject == d.rootCrt.value.subject then Err(SameRootName)
          else Ok([PutNextKey(EncKey(key, pass)), PutNextCrt(newRoot)])
  }

  function PlanAbort(d: Dir): Plan {
    if d.record.Some? || d.retired.Some? || d.cross.Some? then Err(AlreadySwitched)
    else if d.nextCrt.None? && d.nextKey.None? then Err(NothingStaged)
    else
      Ok((if d.nextCrt.Some? then [RemoveNextCrt] else [])
         + (if d.nextKey.Some? then [RemoveNextKey] else []))
  }

  // ----- rotate-root switch -----------------------------------------------------------

  /** Which root was R: root.crt until root-retired.pem holds it. */
  function OldRoot(d: Dir): Option<Cert> { if d.retired.Some? then d.retired else d.rootCrt }

  /** Which root is N: root-next.crt until root.crt holds it. */
  function NewRoot(d: Dir): Option<Cert> { if d.nextCrt.Some? then d.nextCrt else d.rootCrt }

  /** A scope a stopped switch has already moved under N. */
  predicate Moved(f: ScopeFiles, s: Scope, newRoot: Cert) {
    f.crt.Some? && IsIntermediate(f.crt.value, s, newRoot) && f.key == Some(f.crt.value.key)
  }

  function PlanMove(f: ScopeFiles, s: Scope, newRoot: Cert, newKey: KeyId, roots: seq<Cert>,
                    compromised: bool, now: Time, key: KeyId): Plan
  {
    if Moved(f, s, newRoot) then Ok([])
    else
      match PlanScope(f, s, newRoot, newKey, roots, compromised, now, key)
      case Err(e) => Err(e)
      case Ok(r) => Ok(WriteScope(s, r, newRoot))
  }

  /** The chain of a scope moved by the run that stopped. */
  function ChainOf(f: ScopeFiles, s: Scope, newRoot: Cert): seq<Op> {
    if Moved(f, s, newRoot) then [PutChain(s, [f.crt.value, newRoot])] else []
  }

  datatype SwitchOptions = SwitchOptions(
    nextPass: Passphrase,
    rootPass: Option<Passphrase>,
    compromised: set<Scope>,
    cross: bool
  )

  /** The cross certificate of this run: the one on disk, a new one, or none. */
  function PlanCross(d: Dir, o: SwitchOptions, newRoot: Cert, oldRoot: Cert, now: Time)
    : Result<Option<Cert>, Refusal>
  {
    if d.cross.Some? then
      if IsCross(d.cross.value, newRoot, oldRoot) then Ok(d.cross) else Err(BadCross)
    else if !o.cross then Ok(None)
    else if !ValidAt(oldRoot, now) then Err(RootNotValid)
    else if o.rootPass.None? then Err(WrongPassphrase)
    else
      match Decrypt(d.rootKey, o.rootPass.value, oldRoot)
      case Err(e) => Err(e)
      case Ok(oldKey) =>
        match BuildCross(newRoot, oldRoot, oldKey, now)
        case Err(_) => Err(RootNotValid)
        case Ok(x) => Ok(Some(x))
  }

  /** The record, R and X: what a run that stops later needs, before anything is replaced. */
  function SwitchHead(d: Dir, switch: Switch, oldRoot: Cert, cross: Option<Cert>): seq<Op> {
    (if d.record.None? then [PutRecord(switch)] else [])
    + (if d.retired.None? then [PutRetiredRoot(oldRoot)] else [])
    + (if cross.Some? && d.cross.None? then [PutCross(cross.value)] else [])
  }

  /** root.key.enc, then root.crt; then N's own files go. */
  function SwitchTail(nextKey: EncKey, newRoot: Cert): seq<Op> {
    [PutRootKey(nextKey), PutRootCrt(newRoot), RemoveNextCrt, RemoveNextKey]
  }

  function PlanSwitch(d: Dir, o: SwitchOptions, now: Time, key: KeyId): Plan {
    if o.compromised != {} && !o.cross then Err(CompromisedWithoutCross)
    else
      match LoadState(d)
      case Err(e) => Err(Rejected(e))
      case Ok(state) =>
        if !state.phase.Staged? && !state.phase.Switching? then Err(WrongPhase(state.phase))
        else if state.switch.Some? && (state.switch.value.compromised != o.compromised || state.switch.value.cross != o.cross)
        then Err(OtherOptions)
        else if !o.cross && d.cross.Some? then Err(UnexpectedCross)
        else if OldRoot(d).None? || NewRoot(d).None? then Err(Unreadable)
        else
          var switch := if state.switch.Some? then state.switch.value
                        else Switch(now, o.compromised, o.cross, o.compromised != {});
          PlanSwitchOf(d, o, switch, OldRoot(d).value, NewRoot(d).value, now, key)
  }

  function PlanSwitchOf(d: Dir, o: SwitchOptions, switch: Switch, oldRoot: Cert, newRoot: Cert, now: Time, key: KeyId)
    : Plan
  {
    if newRoot.key == oldRoot.key then Err(NoNewRoot)
    else if !IsRoot(newRoot) then Err(NotARoot)
    else
      match Decrypt(d.nextKey, o.nextPass, newRoot)
      case Err(e) => Err(e)
      case Ok(newKey) =>
        if !ValidAt(newRoot, now) then Err(RootNotValid)
        else
          match PlanCross(d, o, newRoot, oldRoot, now)
          case Err(e) => Err(e)
          case Ok(cross) =>
            var roots := [newRoot, oldRoot];
            var move := s => PlanMove(d.Of(s), s, newRoot, newKey, roots, s in o.compromised, now, KeyFor(s, key));
            match (move(Tunnel), move(Access), move(Internal))
            case (Ok(t), Ok(a), Ok(i)) =>
              Ok(SwitchHead(d, switch, oldRoot, cross)
                 + (t + a + i)
                 + (ChainOf(d.tunnel, Tunnel, newRoot) + ChainOf(d.access, Access, newRoot) + ChainOf(d.internal, Internal, newRoot))
                 + SwitchTail(d.nextKey.value, newRoot))
            case (Err(e), _, _) => Err(e)
            case (_, Err(e), _) => Err(e)
            case (_, _, Err(e)) => Err(e)
  }

  // ----- rotate-root finish -----------------------------------------------------------

  /** _retired_under: the entries under `root`; one under none of the roots is a refusal. */
  function RetiredUnder(entries: seq<Cert>, s: Scope, root: Cert, oldRoots: seq<Cert>): (r: Result<seq<Cert>, Refusal>)
    ensures r.Ok? ==> forall c :: c in r.value <==> c in entries && IsIntermediate(c, s, root)
    ensures r.Ok? <==> forall c :: c in entries ==> IsIntermediateAmong(c, s, [root] + oldRoots)
  {
    if entries == [] then Ok([])
    else
      assert entries == [entries[0]] + entries[1..];
      if IsIntermediate(entries[0], s, root) then
        assert IsIntermediate(entries[0], s, ([root] + oldRoots)[0]);
        match RetiredUnder(entries[1..], s, root, oldRoots)
        case Err(e) => Err(e)
        case Ok(rest) => Ok([entries[0]] + rest)
      else if !IsIntermediateAmong(entries[0], s, [root] + oldRoots) then Err(ForeignEntry(s))
      else RetiredUnder(entries[1..], s, root, oldRoots)
  }

  function PlanFinish(d: Dir): Plan {
    match LoadState(d)
    case Err(e) => Err(Rejected(e))
    case Ok(state) =>
      if !state.phase.Switched? && !state.phase.Finishing? then Err(WrongPhase(state.phase))
      else if d.rootCrt.None? then Err(Unreadable)
      else if d.retired.Some? && d.retired.value.key == d.rootCrt.value.key then Err(NoNewRoot)
      else
        var root := d.rootCrt.value;
        var oldRoots := if d.retired.Some? then [d.retired.value] else [];
        var kept := s => RetiredUnder(d.Of(s).Entries(), s, root, oldRoots);
        match (kept(Tunnel), kept(Access), kept(Internal))
        case (Ok(t), Ok(a), Ok(i)) =>
          Ok([PutRetired(Tunnel, t), PutRetired(Access, a), PutRetired(Internal, i),
              RemoveCross, RemoveRetiredRoot, RemoveRecord])
        case (Err(e), _, _) => Err(e)
        case (_, Err(e), _) => Err(e)
        case (_, _, Err(e)) => Err(e)
  }
}
