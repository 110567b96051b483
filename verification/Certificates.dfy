/**
Symbolic certificates (apps/ca-issuer/app/pki.py).

A key pair is a number; a signature check compares the number of the signing key.
Times are microseconds; what a certificate carries is cut to whole seconds, as the
encoding of X.509 does.
*/
module Certificates {
  import opened Common

  type KeyId = nat

  const SECOND := 1_000_000
  const DAY := 86_400 * SECOND
  const ROOT_LIFE := 3650 * DAY
  const INTERMEDIATE_LIFE := 1825 * DAY
  const LEAF_GATEWAY := 365 * DAY

  function WholeSecond(t: Time): (s: Time)
    ensures s <= t < s + SECOND
    ensures s % SECOND == 0
  {
    t - t % SECOND
  }

  datatype Scope = Tunnel | Access | Internal

  /** A subject: the CN with its optional label (a day), a leaf also with its scope OU. */
  datatype Name =
    | RootName(day: Option<int>)
    | IntermediateName(scope: Scope, day: Option<int>)
    | LeafName(cn: string, ou: Option<Scope>)

  datatype Cert = Cert(
    subject: Name,
    key: KeyId,
    issuer: Name,
    signer: KeyId,
    ca: bool,
    pathLen: Option<nat>,
    nb: Time,
    na: Time
  )

  /** verify_directly_issued_by: the names chain and the signature verifies. */
  predicate SignedBy(c: Cert, issuer: Cert) {
    c.issuer == issuer.subject && c.signer == issuer.key
  }

  /** Valid from its begin on, no longer at its end. */
  predicate ValidAt(c: Cert, now: Time) {
    c.nb <= now < c.na
  }

  predicate IsRoot(c: Cert) {
    c.ca && SignedBy(c, c)
  }

  predicate IsIntermediate(c: Cert, s: Scope, root: Cert) {
    && c.subject.IntermediateName? && c.subject.scope == s
    && c.ca && c.pathLen == Some(0)
    && SignedBy(c, root)
  }

  predicate IsIntermediateAmong(c: Cert, s: Scope, roots: seq<Cert>) {
    exists i | 0 <= i < |roots| :: IsIntermediate(c, s, roots[i])
  }

  predicate IsCross(c: Cert, newRoot: Cert, oldRoot: Cert) {
    && c.subject == newRoot.subject && c.key == newRoot.key
    && c.ca && c.pathLen == Some(1)
    && SignedBy(c, oldRoot)
  }

  datatype Lapse = Lapse(issuer: Cert, at: Time)

  /** notAfter of what `issuer` signs at `now`; an issuer outside its validity signs nothing. */
  function NotAfter(issuer: Cert, life: int, now: Time): (r: Result<Time, Lapse>)
    ensures r.Ok? <==> ValidAt(issuer, now)
    ensures r.Ok? ==> r.value <= issuer.na && r.value <= now + life
  {
    if ValidAt(issuer, now) then Ok(Min(now + life, issuer.na)) else Err(Lapse(issuer, now))
  }

  function BuildRoot(day: Option<int>, now: Time, key: KeyId): Cert {
    Cert(RootName(day), key, RootName(day), key, true, None, WholeSecond(now), WholeSecond(now + ROOT_LIFE))
  }

  function BuildIntermediate(s: Scope, root: Cert, rootKey: KeyId, day: Option<int>, now: Time, key: KeyId)
    : Result<Cert, Lapse>
  {
    match NotAfter(root, INTERMEDIATE_LIFE, now)
    case Err(e) => Err(e)
    case Ok(end) =>
      Ok(Cert(IntermediateName(s, day), key, root.subject, rootKey, true, Some(0), WholeSecond(now), WholeSecond(end)))
  }

  /** N's name and key, signed with R's key; it ends with the earlier of both roots. */
  function BuildCross(newRoot: Cert, oldRoot: Cert, oldKey: KeyId, now: Time): Result<Cert, Lapse> {
    match NotAfter(oldRoot, ROOT_LIFE, now)
    case Err(e) => Err(e)
    case Ok(end) =>
      Ok(Cert(newRoot.subject, newRoot.key, oldRoot.subject, oldKey, true, Some(1), WholeSecond(now),
              WholeSecond(Min(end, newRoot.na))))
  }

  function SignLeaf(subject: Name, key: KeyId, issuer: Cert, issuerKey: KeyId, life: int, now: Time)
    : Result<Cert, Lapse>
  {
    match NotAfter(issuer, life, now)
    case Err(e) => Err(e)
    case Ok(end) =>
      Ok(Cert(subject, key, issuer.subject, issuerKey, false, None, WholeSecond(now), WholeSecond(end)))
  }

  /** A root as BuildRoot issued it no later than `clock`. */
  predicate ProperRoot(c: Cert, clock: Time) {
    && IsRoot(c) && c.subject.RootName? && c.pathLen == None
    && c.nb % SECOND == 0 && c.nb <= clock && c.na == c.nb + ROOT_LIFE
  }

  /** An intermediate as BuildIntermediate issued it no later than `clock`: its life nests in the root's. */
  predicate ProperIntermediate(c: Cert, s: Scope, root: Cert, clock: Time) {
    && IsIntermediate(c, s, root)
    && root.nb <= c.nb <= clock && c.na <= root.na && c.na % SECOND == 0
  }

  predicate ProperCross(c: Cert, newRoot: Cert, oldRoot: Cert, clock: Time) {
    && IsCross(c, newRoot, oldRoot)
    && c.nb <= clock && c.na == oldRoot.na
  }

  lemma WholeSecondFacts(t: Time, end: Time)
    ensures WholeSecond(t) <= t < WholeSecond(t) + SECOND && WholeSecond(t) % SECOND == 0
    ensures WholeSecond(t + ROOT_LIFE) == WholeSecond(t) + ROOT_LIFE
    ensures end % SECOND == 0 ==> WholeSecond(end) == end
    ensures end % SECOND == 0 && end <= t ==> end <= WholeSecond(t)
    ensures end % SECOND == 0 && t < end ==> WholeSecond(t) < end
  {
  }

  lemma LifeEndsOnASecond(nb: Time)
    requires nb % SECOND == 0
    ensures (nb + ROOT_LIFE) % SECOND == 0
  {
  }

  lemma BuildRootIsProper(day: Option<int>, now: Time, key: KeyId)
    ensures ProperRoot(BuildRoot(day, now, key), now)
    ensures BuildRoot(day, now, key).nb == WholeSecond(now)
    ensures ValidAt(BuildRoot(day, now, key), now)
  {
    hide WholeSecond;
    WholeSecondFacts(now, 0);
  }

  lemma BuildIntermediateIsProper(s: Scope, root: Cert, rootKey: KeyId, day: Option<int>, now: Time, key: KeyId)
    requires ProperRoot(root, now) && ValidAt(root, now) && rootKey == root.key
    ensures BuildIntermediate(s, root, rootKey, day, now, key).Ok?
    ensures var c := BuildIntermediate(s, root, rootKey, day, now, key).value;
            ProperIntermediate(c, s, root, now) && c.key == key && ValidAt(c, now)
  {
    hide WholeSecond;
    WholeSecondFacts(now, root.nb);
    WholeSecondFacts(now, root.na);
    WholeSecondFacts(now + INTERMEDIATE_LIFE, root.na);
    LifeEndsOnASecond(root.nb);
  }

  /** X ends exactly with R: R was issued before the switch and N no earlier than R. */
  lemma BuildCrossIsProper(newRoot: Cert, oldRoot: Cert, oldKey: KeyId, now: Time)
    requires ProperRoot(newRoot, now) && ProperRoot(oldRoot, now) && oldRoot.nb <= newRoot.nb
    requires ValidAt(oldRoot, now) && oldKey == oldRoot.key
    ensures BuildCross(newRoot, oldRoot, oldKey, now).Ok?
    ensures ProperCross(BuildCross(newRoot, oldRoot, oldKey, now).value, newRoot, oldRoot, now)
  {
    hide WholeSecond;
    LifeEndsOnASecond(oldRoot.nb);
    WholeSecondFacts(now, oldRoot.na);
  }

  /** A leaf ends no later than the intermediate that signed it, carries what was asked for, and signs nothing itself. */
  lemma SignedLeafNests(subject: Name, key: KeyId, issuer: Cert, issuerKey: KeyId, life: int, now: Time)
    requires issuerKey == issuer.key && issuer.na % SECOND == 0
    ensures var r := SignLeaf(subject, key, issuer, issuerKey, life, now);
            && (r.Ok? <==> ValidAt(issuer, now))
            && (r.Ok? ==> SignedBy(r.value, issuer) && r.value.nb <= now && r.value.na <= issuer.na)
            && (r.Ok? ==> r.value.subject == subject && r.value.key == key && !r.value.ca)
            && (r.Ok? && life >= SECOND ==> now < r.value.na)
  {
    hide WholeSecond;
    WholeSecondFacts(now, issuer.na);
    if ValidAt(issuer, now) {
      WholeSecondFacts(now + life, issuer.na);
    }
  }
}
