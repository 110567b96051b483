/**
What the issuer trusts after a start (apps/ca-issuer/app/storage.py), and whom it then
believes (apps/ca-issuer/app/issuer.py).
*/
module IssuerBoot {
  import opened Common
  import opened Certificates
  import opened PkiDirectory
  import opened Rotation

  datatype Intermediate = Intermediate(
    scope: Scope,
    cert: Cert,
    key: KeyId,
    root: Cert,              // root.crt: `chain` is [cert, root]
    roots: seq<Cert>,        // what clients are to trust, root.crt last
    retired: seq<Cert>,
    oldRoot: Option<Cert>,
    cross: Option<Cert>
  )

  datatype Hierarchy = Hierarchy(tunnel: Intermediate, access: Intermediate, internal: Intermediate) {
    function Of(s: Scope): Intermediate {
      match s case Tunnel => tunnel case Access => access case Internal => internal
    }
  }

  datatype BootError =
    | Incomplete
    | BadRenewal(error: RolloverError)
    | StoppedPartWay(phase: Phase)
    | BadRoot
    | BadNextRoot
    | BadOldRoot
    | BadCrossFile
    | BadScope(scope: Scope)

  datatype Trust = Trust(roots: seq<Cert>, signers: seq<Cert>, oldRoot: Option<Cert>, cross: Option<Cert>)

  function RenewalTrust(state: State, root: Cert, now: Time): Result<Trust, BootError> {
    if state.phase.Staged? && state.nextRoot.Some? then
      var newRoot := state.nextRoot.value;
      if !IsRoot(newRoot) || !ValidAt(newRoot, now) then Err(BadNextRoot)
      else Ok(Trust([newRoot, root], [root], None, None))
    else if state.phase.Switched? && state.retiredRoot.Some? && state.switch.Some? then
      var oldRoot := state.retiredRoot.value;
      if !IsRoot(oldRoot) then Err(BadOldRoot)
      else if state.cross.Some? && !IsCross(state.cross.value, root, oldRoot) then Err(BadCrossFile)
      else if now >= oldRoot.na then Ok(Trust([root], [root, oldRoot], None, None))
      else
        Ok(Trust(if state.switch.value.dropRetiredRoot then [root] else [oldRoot, root],
                 [root, oldRoot], Some(oldRoot), state.cross))
    else Ok(Trust([root], [root], None, None))
  }

  /** The entries of a retired file the boot takes: of the scope, under a known root, valid now. */
  function Loadable(entries: seq<Cert>, s: Scope, current: Cert, roots: seq<Cert>, now: Time): (r: seq<Cert>)
    ensures forall c :: c in r <==>
              c in entries && IsIntermediateAmong(c, s, roots) && ValidAt(c, now) && c != current
  {
    if entries == [] then []
    else
      var c := entries[0];
      (if IsIntermediateAmong(c, s, roots) && ValidAt(c, now) && c != current then [c] else [])
      + Loadable(entries[1..], s, current, roots, now)
  }

  function LoadScope(f: ScopeFiles, s: Scope, root: Cert, signers: seq<Cert>, trust: Trust, now: Time)
    : Result<Intermediate, BootError>
  {
    if f.crt.None? || f.key.None? || f.chain.None? then Err(BadScope(s))
    else if !IsIntermediate(f.crt.value, s, root) then Err(BadScope(s))
    else if !ValidAt(f.crt.value, now) then Err(BadScope(s))
    else if f.key.value != f.crt.value.key then Err(BadScope(s))
    else if f.chain.value != [f.crt.value, root] then Err(BadScope(s))
    else
      Ok(Intermediate(s, f.crt.value, f.key.value, root, trust.roots,
                      SortedUnique(Loadable(f.Entries(), s, f.crt.value, signers, now)),
                      trust.oldRoot, trust.cross))
  }

  /** An existing hierarchy, loaded and checked on every start. */
  function Boot(d: Dir, now: Time): Result<Hierarchy, BootError> {
    if d.rootCrt.None? || d.rootKey.None?
       || d.tunnel.crt.None? || d.tunnel.key.None? || d.tunnel.chain.None?
       || d.access.crt.None? || d.access.key.None? || d.access.chain.None?
       || d.internal.crt.None? || d.internal.key.None? || d.internal.chain.None?
    then Err(Incomplete)
    else
      match LoadState(d)
      case Err(e) => Err(BadRenewal(e))
      case Ok(state) =>
        var root := d.rootCrt.value;
        if state.phase.Switching? || state.phase.Finishing? then Err(StoppedPartWay(state.phase))
        else if !SignedBy(root, root) || !ValidAt(root, now) then Err(BadRoot)
        else
          match RenewalTrust(state, root, now)
          case Err(e) => Err(e)
          case Ok(trust) =>
            match (LoadScope(d.tunnel, Tunnel, root, SignersOf(state, Tunnel, root, trust), trust, now),
                   LoadScope(d.access, Access, root, SignersOf(state, Access, root, trust), trust, now),
                   LoadScope(d.internal, Internal, root, SignersOf(state, Internal, root, trust), trust, now))
            case (Ok(t), Ok(a), Ok(i)) => Ok(Hierarchy(t, a, i))
            case (Err(e), _, _) => Err(e)
            case (_, Err(e), _) => Err(e)
            case (_, _, Err(e)) => Err(e)
  }

  /** A scope given up after the switch trusts no retired intermediate under R. */
  function SignersOf(state: State, s: Scope, root: Cert, trust: Trust): seq<Cert> {
    if state.switch.Some? && s in state.switch.value.compromised then [root] else trust.signers
  }

  /** _verify_ca_signed: signed by the scope's current or a still valid retired intermediate. */
  predicate Believes(inter: Intermediate, leaf: Cert, now: Time) {
    && leaf.nb <= now <= leaf.na
    && (leaf.signer == inter.cert.key
        || exists i | 0 <= i < |inter.retired| ::
             inter.retired[i].nb <= now <= inter.retired[i].na && leaf.signer == inter.retired[i].key)
  }
}
