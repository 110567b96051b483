/**
The tables the ca-issuer shares with the server (apps/ca-issuer/app/db.py): enrollment
tokens, revoked identities, device lines and issued certificates, with the statements that
read and write them. A few columns are history: they decide nothing and only let a
theorem speak of where a row came from.
*/
module RegisterTables {
  import opened Common
  import opened Certificates

  type TokenId = nat
  type LineId = nat
  type Fingerprint = nat

  const LEGACY_WINDOW := 90 * DAY

  datatype Identity = Identity(subject: string, scope: Scope)

  datatype Kind = Agent | Desktop | Browser

  datatype Reason = Replaced | BySelf | ByAdmin

  datatype Token = Token(
    identity: Identity,
    browser: bool,
    expires: Time,
    used: Option<Time>,
    minted: Option<Time>,
    issued: Option<Fingerprint>     // history: the certificate it was spent on
  )

  datatype Line = Line(
    identity: Identity,
    kind: Kind,
    legacy: bool,
    revoked: Option<Reason>,
    first: Fingerprint,             // history: the certificate it was opened with
    basis: Option<Time>             // history: when what opened it was minted or issued
  )

  datatype Issued = Issued(
    line: LineId,
    nb: Time,
    renewedFrom: Option<Fingerprint>,
    token: Option<TokenId>,         // history: the token it was enrolled with
    rank: nat                       // history: how many were recorded before it
  )

  /** A certificate as its holder presents it. */
  datatype Leaf = Leaf(identity: Identity, nb: Time)

  datatype Tables = Tables(
    tokens: map<TokenId, Token>,
    revoked: map<Identity, Option<Time>>,
    lines: map<LineId, Line>,
    certs: map<Fingerprint, Issued>,
    installed: Option<Time>
  )

  /** Not revoked at that time; an unknown time on one side counts as revoked. */
  predicate Active(revoked: map<Identity, Option<Time>>, id: Identity, at: Option<Time>) {
    id in revoked ==> at.Some? && revoked[id].Some? && at.value > revoked[id].value
  }

  predicate LegacyAdmitted(nb: Time, installed: Option<Time>, now: Time) {
    installed.Some? && nb < installed.value && now < installed.value + LEGACY_WINDOW
  }

  function KindOf(scope: Scope, browser: bool): Kind {
    if scope.Tunnel? then Agent else if browser then Browser else Desktop
  }

  predicate Usable(d: Tables, token: TokenId, now: Time) {
    token in d.tokens && d.tokens[token].used.None? && d.tokens[token].expires > now
  }

  function Spend(d: Tables, token: TokenId, now: Time, issued: Option<Fingerprint>): Tables
    requires token in d.tokens
  {
    d.(tokens := d.tokens[token := d.tokens[token].(used := Some(now), issued := issued)])
  }

  /** A new line with its first certificate. */
  function OpenLine(d: Tables, line: LineId, id: Identity, kind: Kind, legacy: bool, fp: Fingerprint, nb: Time,
                    basis: Option<Time>, token: Option<TokenId>): Tables
  {
    d.(lines := d.lines[line := Line(id, kind, legacy, None, fp, basis)],
       certs := d.certs[fp := Issued(line, nb, None, token, |d.certs|)])
  }

  /** A successor on the line of the certificate it renews. */
  function AddSuccessor(d: Tables, line: LineId, fp: Fingerprint, nb: Time, from: Fingerprint): Tables {
    d.(certs := d.certs[fp := Issued(line, nb, Some(from), None, |d.certs|)])
  }

  /** The line of a recorded certificate. */
  function LineOf(d: Tables, fp: Fingerprint): Option<LineId> {
    if fp in d.certs && d.certs[fp].line in d.lines then Some(d.certs[fp].line) else None
  }

  function RevokeLine(d: Tables, line: LineId, reason: Reason): Tables
    requires line in d.lines
  {
    if d.lines[line].revoked.None? then d.(lines := d.lines[line := d.lines[line].(revoked := Some(reason))]) else d
  }

  /** The line a grant may retire with `former` (the request field of an enrollment): one of its own identity. */
  function Replaceable(d: Tables, former: Option<Fingerprint>, id: Identity): Option<LineId> {
    if former.Some? && LineOf(d, former.value).Some? && d.lines[LineOf(d, former.value).value].identity == id
    then LineOf(d, former.value) else None
  }

  function RevokeReplaced(d: Tables, former: Option<Fingerprint>, id: Identity): Tables {
    var line := Replaceable(d, former, id);
    if line.Some? then RevokeLine(d, line.value, Replaced) else d
  }

  /** What a revocation does to the lines it has seen. */
  function RevokeLines(d: Tables, seen: set<LineId>): Tables {
    d.(lines := map l | l in d.lines ::
         if l in seen && d.lines[l].revoked.None? then d.lines[l].(revoked := Some(ByAdmin)) else d.lines[l])
  }

  /** Everything an enrollment writes: the token spent, a line, its certificate, the old line. */
  function RecordEnrollment(d: Tables, token: TokenId, now: Time, line: LineId, fp: Fingerprint, nb: Time,
                            former: Option<Fingerprint>): Tables
    requires token in d.tokens
  {
    var t := d.tokens[token];
    var recorded := OpenLine(Spend(d, token, now, Some(fp)), line, t.identity, KindOf(t.identity.scope, t.browser), false,
                             fp, nb, t.minted, Some(token));
    RevokeReplaced(recorded, former, t.identity)
  }

  /** Everything a renewal writes; `taken` opens a legacy line for the presented certificate. */
  function RecordRenewal(d: Tables, taken: bool, line: LineId, id: Identity, kind: Kind, current: Fingerprint,
                         currentNb: Time, fp: Fingerprint, nb: Time): Tables
  {
    var base := if taken then OpenLine(d, line, id, kind, true, current, currentNb, Some(currentNb), None) else d;
    AddSuccessor(base, line, fp, nb, current)
  }

  // ----- What every recorded row satisfies -----------------------------------------------

  predicate CertOk(d: Tables, leaves: map<Fingerprint, Leaf>, fp: Fingerprint)
    requires fp in d.certs
  {
    var c := d.certs[fp];
    && fp in leaves && c.nb == leaves[fp].nb && c.rank < |d.certs|
    && c.line in d.lines && d.lines[c.line].identity == leaves[fp].identity
    && (c.renewedFrom.None? <==> d.lines[c.line].first == fp)
    && (c.renewedFrom.Some? ==>
          var p := c.renewedFrom.value;
          p in d.certs && d.certs[p].line == c.line && d.certs[p].rank < c.rank)
    && (c.token.Some? ==>
          && c.renewedFrom.None? && c.token.value in d.tokens
          && d.tokens[c.token.value].issued == Some(fp))
  }

  predicate LineOk(d: Tables, line: LineId)
    requires line in d.lines
  {
    var l := d.lines[line];
    && l.first in d.certs && d.certs[l.first].line == line
    && (l.legacy <==> d.certs[l.first].token.None?)
    && (l.revoked.None? ==> Active(d.revoked, l.identity, l.basis))
  }

  ghost predicate TablesOk(d: Tables, leaves: map<Fingerprint, Leaf>) {
    && (forall fp :: fp in d.certs ==> CertOk(d, leaves, fp))
    && (forall l :: l in d.lines ==> LineOk(d, l))
    && (forall k :: k in d.tokens && d.tokens[k].used.None? ==> d.tokens[k].issued.None?)
  }

  lemma SpendOk(d: Tables, leaves: map<Fingerprint, Leaf>, token: TokenId, now: Time, issued: Option<Fingerprint>)
    requires TablesOk(d, leaves) && token in d.tokens && d.tokens[token].used.None?
    ensures TablesOk(Spend(d, token, now, issued), leaves)
  {
    var e := Spend(d, token, now, issued);
    forall x | x in e.certs ensures CertOk(e, leaves, x) {
      assert CertOk(d, leaves, x);
    }
    forall l | l in e.lines ensures LineOk(e, l) {
      assert LineOk(d, l);
    }
  }

  lemma OpenLineOk(d: Tables, leaves: map<Fingerprint, Leaf>, line: LineId, kind: Kind, legacy: bool, fp: Fingerprint,
                   basis: Option<Time>, token: Option<TokenId>)
    requires TablesOk(d, leaves)
    requires line !in d.lines && fp !in d.certs && fp in leaves
    requires Active(d.revoked, leaves[fp].identity, basis) && (legacy <==> token.None?)
    requires token.Some? ==> token.value in d.tokens && d.tokens[token.value].issued == Some(fp)
    ensures TablesOk(OpenLine(d, line, leaves[fp].identity, kind, legacy, fp, leaves[fp].nb, basis, token), leaves)
  {
    var e := OpenLine(d, line, leaves[fp].identity, kind, legacy, fp, leaves[fp].nb, basis, token);
    assert |e.certs| == |d.certs| + 1;
    forall x | x in e.certs ensures CertOk(e, leaves, x) {
      if x != fp {
        assert CertOk(d, leaves, x);
      }
    }
    forall l | l in e.lines ensures LineOk(e, l) {
      if l != line {
        assert LineOk(d, l);
      }
    }
  }

  lemma RevokeLinesOk(d: Tables, e: Tables, leaves: map<Fingerprint, Leaf>)
    requires TablesOk(d, leaves)
    requires e == d.(lines := e.lines) && e.lines.Keys == d.lines.Keys
    requires forall l :: l in d.lines ==> e.lines[l] == d.lines[l].(revoked := e.lines[l].revoked)
    requires forall l :: l in d.lines && e.lines[l].revoked.None? ==> d.lines[l].revoked.None?
    ensures TablesOk(e, leaves)
  {
    forall x | x in e.certs ensures CertOk(e, leaves, x) {
      assert CertOk(d, leaves, x);
    }
    forall l | l in e.lines ensures LineOk(e, l) {
      assert LineOk(d, l);
    }
  }

  lemma EnrollmentOk(d: Tables, leaves: map<Fingerprint, Leaf>, token: TokenId, now: Time, line: LineId,
                     fp: Fingerprint, nb: Time, former: Option<Fingerprint>)
    requires TablesOk(d, leaves)
    requires token in d.tokens && d.tokens[token].used.None?
    requires line !in d.lines && fp !in d.certs && fp in leaves && leaves[fp] == Leaf(d.tokens[token].identity, nb)
    requires Active(d.revoked, d.tokens[token].identity, d.tokens[token].minted)
    ensures TablesOk(RecordEnrollment(d, token, now, line, fp, nb, former), leaves)
  {
    hide TablesOk;
    var t := d.tokens[token];
    var spent := Spend(d, token, now, Some(fp));
    SpendOk(d, leaves, token, now, Some(fp));
    var kind := KindOf(t.identity.scope, t.browser);
    OpenLineOk(spent, leaves, line, kind, false, fp, t.minted, Some(token));
    var recorded := OpenLine(spent, line, t.identity, kind, false, fp, nb, t.minted, Some(token));
    RevokeLinesOk(recorded, RevokeReplaced(recorded, former, t.identity), leaves);
  }

  lemma SuccessorOk(d: Tables, leaves: map<Fingerprint, Leaf>, line: LineId, fp: Fingerprint, from: Fingerprint)
    requires TablesOk(d, leaves)
    requires from in d.certs && d.certs[from].line == line && line in d.lines
    requires fp !in d.certs && fp in leaves && leaves[fp].identity == d.lines[line].identity
    ensures TablesOk(AddSuccessor(d, line, fp, leaves[fp].nb, from), leaves)
  {
    var e := AddSuccessor(d, line, fp, leaves[fp].nb, from);
    assert |e.certs| == |d.certs| + 1;
    assert CertOk(d, leaves, from) && LineOk(d, line);
    forall x | x in e.certs ensures CertOk(e, leaves, x) {
      if x != fp {
        assert CertOk(d, leaves, x);
      }
    }
    forall l | l in e.lines ensures LineOk(e, l) {
      assert LineOk(d, l);
    }
  }

  lemma RenewalOk(d: Tables, leaves: map<Fingerprint, Leaf>, taken: bool, line: LineId, kind: Kind,
                  current: Fingerprint, fp: Fingerprint)
    requires TablesOk(d, leaves) && current in leaves && fp in leaves && fp !in d.certs && fp != current
    requires leaves[fp].identity == leaves[current].identity
    requires taken ==> line !in d.lines && current !in d.certs
    requires !taken ==> current in d.certs && d.certs[current].line == line
    requires Active(d.revoked, leaves[current].identity, Some(leaves[current].nb))
    ensures TablesOk(RecordRenewal(d, taken, line, leaves[current].identity, kind, current, leaves[current].nb, fp,
                                   leaves[fp].nb), leaves)
  {
    if taken {
      OpenLineOk(d, leaves, line, kind, true, current, Some(leaves[current].nb), None);
      SuccessorOk(OpenLine(d, line, leaves[current].identity, kind, true, current, leaves[current].nb,
                           Some(leaves[current].nb), None), leaves, line, fp, current);
    } else {
      assert CertOk(d, leaves, current);
      SuccessorOk(d, leaves, line, fp, current);
    }
  }

  // ----- A line is one tree --------------------------------------------------------------

  /** From a certificate back over renewed_from. */
  ghost predicate Descends(d: Tables, fp: Fingerprint, steps: nat, root: Fingerprint)
    decreases steps
  {
    && fp in d.certs
    && (if steps == 0 then fp == root
        else d.certs[fp].renewedFrom.Some? && Descends(d, d.certs[fp].renewedFrom.value, steps - 1, root))
  }

  /**
  The certificates of a line form one tree: each goes back over renewed_from, without a
  repeat and without leaving the line, to the one certificate the line was opened with.
  */
  lemma {:induction false} LineIsATree(d: Tables, leaves: map<Fingerprint, Leaf>, fp: Fingerprint) returns (steps: nat)
    requires TablesOk(d, leaves) && fp in d.certs
    ensures d.certs[fp].line in d.lines
    ensures Descends(d, fp, steps, d.lines[d.certs[fp].line].first)
    ensures d.certs[d.lines[d.certs[fp].line].first].line == d.certs[fp].line
    ensures forall x :: x in d.certs && d.certs[x].line == d.certs[fp].line && d.certs[x].renewedFrom.None?
              ==> x == d.lines[d.certs[fp].line].first
    decreases d.certs[fp].rank
  {
    assert CertOk(d, leaves, fp);
    assert LineOk(d, d.certs[fp].line);
    forall x | x in d.certs && d.certs[x].line == d.certs[fp].line && d.certs[x].renewedFrom.None?
      ensures x == d.lines[d.certs[fp].line].first
    {
      assert CertOk(d, leaves, x);
    }
    if d.certs[fp].renewedFrom.None? {
      steps := 0;
    } else {
      var before := LineIsATree(d, leaves, d.certs[fp].renewedFrom.value);
      steps := before + 1;
    }
  }
}
