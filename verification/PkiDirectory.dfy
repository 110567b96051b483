/**
The PKI directory as a record of optional files, its renewal phase
(apps/ca-issuer/app/root_rollover.py) and single file operations: every replacement and
removal is one atomic step, and a stopped command is a prefix of its steps.
*/
module PkiDirectory {
  import opened Common
  import opened Certificates

  type Passphrase = nat
  const NO_PASSPHRASE: Passphrase := 0

  /** An encrypted private key: `pass` opens it. */
  datatype EncKey = EncKey(key: KeyId, pass: Passphrase)

  /** root-switch.json. */
  datatype Switch = Switch(at: Time, compromised: set<Scope>, cross: bool, dropRetiredRoot: bool)

  /** <scope>.crt, <scope>.key, <scope>-chain.pem, <scope>-retired.pem. */
  datatype ScopeFiles = ScopeFiles(
    crt: Option<Cert>,
    key: Option<KeyId>,
    chain: Option<seq<Cert>>,
    retired: Option<seq<Cert>>
  ) {
    /** A missing retired file and an empty one read alike. */
    function Entries(): seq<Cert> { if retired.Some? then retired.value else [] }
  }

  datatype Dir = Dir(
    rootCrt: Option<Cert>,
    rootKey: Option<EncKey>,
    nextCrt: Option<Cert>,
    nextKey: Option<EncKey>,
    retired: Option<Cert>,
    cross: Option<Cert>,
    record: Option<Switch>,
    tunnel: ScopeFiles,
    access: ScopeFiles,
    internal: ScopeFiles
  ) {
    function Of(s: Scope): ScopeFiles {
      match s case Tunnel => tunnel case Access => access case Internal => internal
    }

    function With(s: Scope, f: ScopeFiles): Dir {
      match s
      case Tunnel => this.(tunnel := f)
      case Access => this.(access := f)
      case Internal => this.(internal := f)
    }
  }

  datatype Phase = NoRenewal | Staged | Switching | Switched | Finishing

  datatype State = State(
    phase: Phase,
    nextRoot: Option<Cert>,
    retiredRoot: Option<Cert>,
    cross: Option<Cert>,
    switch: Option<Switch>
  )

  /** A combination of renewal files that the classifier rejects. */
  datatype RolloverError =
    | WithoutRecord
    | NextWithoutKey
    | CrossWithoutRetired
    | CrossAgainstRecord

  /** The phase as the files alone show it. */
  function LoadState(d: Dir): Result<State, RolloverError> {
    match d.record
    case None =>
      if d.retired.Some? || d.cross.Some? then Err(WithoutRecord)
      else if d.nextCrt.Some? && d.nextKey.None? then Err(NextWithoutKey)
      else Ok(State(if d.nextCrt.Some? then Staged else NoRenewal, d.nextCrt, None, None, None))
    case Some(switch) =>
      if d.nextCrt.Some? || d.nextKey.Some? then
        Ok(State(Switching, d.nextCrt, d.retired, d.cross, d.record))
      else if d.retired.None? && d.cross.Some? then Err(CrossWithoutRetired)
      else if !switch.cross && d.cross.Some? then Err(CrossAgainstRecord)
      else if d.retired.None? || (switch.cross && d.cross.None?) then
        Ok(State(Finishing, d.nextCrt, d.retired, d.cross, d.record))
      else
        Ok(State(Switched, d.nextCrt, d.retired, d.cross, d.record))
  }

  predicate InPhase(d: Dir, phase: Phase) {
    LoadState(d).Ok? && LoadState(d).value.phase == phase
  }

  datatype Op =
    | PutRootKey(enc: EncKey)
    | PutRootCrt(cert: Cert)
    | PutNextKey(enc: EncKey)
    | PutNextCrt(cert: Cert)
    | PutRetiredRoot(cert: Cert)
    | PutCross(cert: Cert)
    | PutRecord(switch: Switch)
    | PutRetired(scope: Scope, entries: seq<Cert>)
    | PutKey(scope: Scope, key: KeyId)
    | PutCrt(scope: Scope, cert: Cert)
    | PutChain(scope: Scope, chain: seq<Cert>)
    | RemoveNextCrt
    | RemoveNextKey
    | RemoveCross
    | RemoveRetiredRoot
    | RemoveRecord

  function Apply(d: Dir, op: Op): Dir {
    match op
    case PutRootKey(enc) => d.(rootKey := Some(enc))
    case PutRootCrt(cert) => d.(rootCrt := Some(cert))
    case PutNextKey(enc) => d.(nextKey := Some(enc))
    case PutNextCrt(cert) => d.(nextCrt := Some(cert))
    case PutRetiredRoot(cert) => d.(retired := Some(cert))
    case PutCross(cert) => d.(cross := Some(cert))
    case PutRecord(switch) => d.(record := Some(switch))
    case PutRetired(s, entries) => d.With(s, d.Of(s).(retired := Some(entries)))
    case PutKey(s, key) => d.With(s, d.Of(s).(key := Some(key)))
    case PutCrt(s, cert) => d.With(s, d.Of(s).(crt := Some(cert)))
    case PutChain(s, chain) => d.With(s, d.Of(s).(chain := Some(chain)))
    case RemoveNextCrt => d.(nextCrt := None)
    case RemoveNextKey => d.(nextKey := None)
    case RemoveCross => d.(cross := None)
    case RemoveRetiredRoot => d.(retired := None)
    case RemoveRecord => d.(record := None)
  }

  function ApplyAll(d: Dir, ops: seq<Op>): Dir
    decreases |ops|
  {
    if ops == [] then d else ApplyAll(Apply(d, ops[0]), ops[1..])
  }

  lemma ApplyOne(d: Dir, op: Op)
    ensures ApplyAll(d, [op]) == Apply(d, op)
  {
    assert [op][1..] == [];
    assert ApplyAll(Apply(d, op), []) == Apply(d, op);
  }

  lemma {:induction false} ApplyAllAppend(d: Dir, a: seq<Op>, b: seq<Op>)
    ensures ApplyAll(d, a + b) == ApplyAll(ApplyAll(d, a), b)
    decreases |a|
  {
    if a == [] {
      assert a + b == b;
    } else {
      assert (a + b)[0] == a[0] && (a + b)[1..] == a[1..] + b;
      ApplyAllAppend(Apply(d, a[0]), a[1..], b);
    }
  }
}
