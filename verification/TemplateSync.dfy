/**
Reconciling a template with the checks of one server (_sync_checks_for_server in
apps/monitoring/app/template_sync.py), and the scheduler mutations it collects.
*/
module TemplateSync {
  import opened Common
  import opened TemplateChecks

  type ServerId = nat
  type TemplateId = nat

  datatype Check = Check(server: ServerId, template: Option<TemplateId>, def: string, values: Values, overridden: set<Field>)

  datatype Tombstone = Tombstone(template: TemplateId, server: ServerId, def: string)

  type Checks = map<CheckId, Check>

  predicate Ours(c: Check, t: TemplateId, s: ServerId) { c.template == Some(t) && c.server == s && c.def != "" }

  ghost predicate AllFull(checks: Checks) { forall id :: id in checks ==> Full(checks[id].values) }

  /** At most one check per definition. */
  ghost predicate UniqueDefs(checks: Checks, t: TemplateId, s: ServerId) {
    forall a, b :: a in checks && b in checks && Ours(checks[a], t, s) && Ours(checks[b], t, s) && checks[a].def == checks[b].def
      ==> a == b
  }

  /** At most one check per definition, on every server. */
  ghost predicate Single(checks: Checks) { forall t, s :: UniqueDefs(checks, t, s) }

  ghost predicate DistinctDefs(defs: seq<Def>) {
    forall i, j :: 0 <= i < j < |defs| && defs[i].id != "" ==> defs[i].id != defs[j].id
  }

  /** The definition named, if the template has it. */
  ghost predicate Defines(defs: seq<Def>, id: string) { exists i :: 0 <= i < |defs| && defs[i].id == id }

  ghost predicate HasDef(checks: Checks, t: TemplateId, s: ServerId, def: string) {
    exists id :: id in checks && Ours(checks[id], t, s) && checks[id].def == def
  }

  function NewCheck(t: TemplateId, s: ServerId, def: Def): Check {
    Check(s, Some(t), def.id, TemplateValues(def), {})
  }

  // ----- The scheduler -------------------------------------------------------------------

  datatype Action = Add(id: CheckId, interval: Value, checkType: Value) | Remove(id: CheckId)

  type Jobs = map<CheckId, Value>

  const PUSH_ONLY: set<string> :=
    {"agent_resources", "service_process", "proxmox_backup", "zfs_health", "docker_health", "smart_health", "system_state"}

  const INTERVALS: set<string> := {"1m", "5m", "15m", "30m", "1h", "6h", "12h", "24h"}

  predicate PushOnly(checkType: Value) { checkType.Text? && checkType.text in PUSH_ONLY }

  predicate ValidInterval(interval: Value) { interval.Text? && interval.text in INTERVALS }

  ghost predicate AllValid(checks: Checks)
    requires AllFull(checks)
  {
    forall id :: id in checks ==> ValidInterval(checks[id].values[Interval])
  }

  ghost predicate DefsValid(defs: seq<Def>) {
    forall i :: 0 <= i < |defs| && Interval in defs[i].given ==> ValidInterval(defs[i].given[Interval])
  }

  ghost predicate ActionsValid(actions: seq<Action>) {
    forall i :: 0 <= i < |actions| && actions[i].Add? ==> ValidInterval(actions[i].interval)
  }

  function Done(jobs: Jobs, a: Action): Jobs {
    match a
    case Add(id, interval, checkType) => if PushOnly(checkType) then jobs - {id} else jobs[id := interval]
    case Remove(id) => jobs - {id}
  }

  function Replay(jobs: Jobs, actions: seq<Action>): Jobs {
    if actions == [] then jobs else Done(Replay(jobs, actions[..|actions| - 1]), actions[|actions| - 1])
  }

  predicate Scheduled(c: Check)
    requires Full(c.values)
  {
    c.values[Enabled] == Flag(true) && !PushOnly(c.values[CheckType])
  }

  /** The job table the checks call for. */
  ghost function Index(checks: Checks): Jobs
    requires AllFull(checks)
  {
    map id | id in checks && Scheduled(checks[id]) :: checks[id].values[Interval]
  }

  /** The action that follows a check as it now stands. */
  function Follow(id: CheckId, c: Check): Action
    requires Full(c.values)
  {
    if c.values[Enabled] == Flag(true) then Add(id, c.values[Interval], c.values[CheckType]) else Remove(id)
  }

  lemma FollowKeepsIndex(checks: Checks, id: CheckId, c: Check)
    requires AllFull(checks) && Full(c.values)
    ensures AllFull(checks[id := c]) && Done(Index(checks), Follow(id, c)) == Index(checks[id := c])
    ensures c.values[Enabled] != Flag(true) && id !in checks ==> Index(checks[id := c]) == Index(checks)
  {
  }

  lemma RemoveKeepsIndex(checks: Checks, id: CheckId)
    requires AllFull(checks)
    ensures AllFull(checks - {id}) && Done(Index(checks), Remove(id)) == Index(checks - {id})
  {
  }

  lemma ReplayOne(jobs: Jobs, actions: seq<Action>, a: Action)
    ensures Replay(jobs, actions + [a]) == Done(Replay(jobs, actions), a)
  {
    assert (actions + [a])[..|actions|] == actions;
  }

  // ----- What a sync means ---------------------------------------------------------------

  /**
  The checks of a server by definition. Of two checks of one definition the map holds the
  one the query gave last; only this one is the sync's.
  */
  ghost predicate Picks(checks: Checks, t: TemplateId, s: ServerId, picks: map<string, CheckId>) {
    && (forall id :: id in checks && Ours(checks[id], t, s) ==> checks[id].def in picks)
    && (forall d :: d in picks ==> picks[d] in checks && Ours(checks[picks[d]], t, s) && checks[picks[d]].def == d)
  }

  predicate Picked(checks: Checks, picks: map<string, CheckId>, id: CheckId) {
    id in checks && checks[id].def in picks && picks[checks[id].def] == id
  }

  /** A check of the server whose definition another check was picked for. */
  ghost predicate PassedOver(checks: Checks, t: TemplateId, s: ServerId, picks: map<string, CheckId>, id: CheckId) {
    id in checks && Ours(checks[id], t, s) && !Picked(checks, picks, id)
  }

  /** `b` is what syncing `a` must give, and nothing else. */
  ghost predicate Synced(a: Checks, b: Checks, t: TemplateId, s: ServerId, defs: seq<Def>, tombs: set<Tombstone>,
                         picks: map<string, CheckId>) {
    && AllFull(a) && AllFull(b) && Picks(a, t, s, picks) && OthersKept(a, b, picks) && Written(a, b, defs, picks)
    && Created(a, b, t, s, defs, tombs) && OneEach(a, b)
  }

  ghost predicate OthersKept(a: Checks, b: Checks, picks: map<string, CheckId>) {
    forall id :: id in a && !Picked(a, picks, id) ==> id in b && b[id] == a[id]
  }

  /** A check whose definition is gone goes; of the others every field the user did not change is written. */
  ghost predicate Written(a: Checks, b: Checks, defs: seq<Def>, picks: map<string, CheckId>)
    requires AllFull(a)
  {
    forall id :: id in a && Picked(a, picks, id) ==>
      && (id in b <==> Defines(defs, a[id].def))
      && (forall i :: 0 <= i < |defs| && defs[i].id == a[id].def ==> id in b && b[id] == Rewritten(a[id], defs[i]))
  }

  function Rewritten(c: Check, def: Def): Check
    requires Full(c.values)
  {
    c.(values := Merge(def, c.values, c.overridden))
  }

  ghost predicate Created(a: Checks, b: Checks, t: TemplateId, s: ServerId, defs: seq<Def>, tombs: set<Tombstone>) {
    && (forall id :: id in b && id !in a ==> exists i :: 0 <= i < |defs| && NewFrom(a, b[id], t, s, defs[i], tombs))
    && (forall i :: 0 <= i < |defs| && Missing(a, t, s, defs[i], tombs) ==> HasDef(b, t, s, defs[i].id))
  }

  /** One new check for a definition. */
  ghost predicate OneEach(a: Checks, b: Checks) {
    forall x, y :: x in b && y in b && x !in a && y !in a && b[x].def == b[y].def ==> x == y
  }

  /** The definition has no check yet, and the user did not delete it. */
  ghost predicate Missing(a: Checks, t: TemplateId, s: ServerId, def: Def, tombs: set<Tombstone>) {
    def.id != "" && !HasDef(a, t, s, def.id) && Tombstone(t, s, def.id) !in tombs
  }

  ghost predicate NewFrom(a: Checks, c: Check, t: TemplateId, s: ServerId, def: Def, tombs: set<Tombstone>) {
    Missing(a, t, s, def, tombs) && c == NewCheck(t, s, def)
  }

  /** A check that stays keeps its names. */
  lemma NamesStay(a: Checks, b: Checks, t: TemplateId, s: ServerId, defs: seq<Def>, tombs: set<Tombstone>,
                  picks: map<string, CheckId>, id: CheckId)
    requires Synced(a, b, t, s, defs, tombs, picks) && id in a && id in b
    ensures b[id].template == a[id].template && b[id].server == a[id].server && b[id].def == a[id].def
  {
    hide Created, OneEach, Merge, HasDef;
    if Picked(a, picks, id) {
      assert Defines(defs, a[id].def);
      var i :| 0 <= i < |defs| && defs[i].id == a[id].def;
      assert b[id] == Rewritten(a[id], defs[i]);
    }
  }

  /** With one check per definition nothing is passed over. */
  lemma UniqueIsPicked(a: Checks, t: TemplateId, s: ServerId, picks: map<string, CheckId>, id: CheckId)
    requires UniqueDefs(a, t, s) && Picks(a, t, s, picks)
    ensures !PassedOver(a, t, s, picks, id)
  {
  }

  /**
  Of all checks of one definition a sync writes, or deletes, exactly the one picked; the
  others stay as they are, even when the definition is gone.
  */
  lemma OnlyOneFollows(a: Checks, b: Checks, t: TemplateId, s: ServerId, defs: seq<Def>, tombs: set<Tombstone>,
                       picks: map<string, CheckId>, i: nat)
    requires Synced(a, b, t, s, defs, tombs, picks) && i < |defs| && HasDef(a, t, s, defs[i].id)
    ensures defs[i].id in picks && picks[defs[i].id] in a && picks[defs[i].id] in b
    ensures b[picks[defs[i].id]] == Rewritten(a[picks[defs[i].id]], defs[i])
    ensures forall id :: id in a && Ours(a[id], t, s) && a[id].def == defs[i].id && id != picks[defs[i].id] ==> id in b && b[id] == a[id]
  {
    hide Merge, Created, OneEach;
    var id :| id in a && Ours(a[id], t, s) && a[id].def == defs[i].id;
    assert Picked(a, picks, picks[defs[i].id]);
  }

  /**
  A sync leaves exactly the defined checks there were, the defined ones not tombstoned, and
  what it passed over.
  */
  lemma SyncLeavesExactly(a: Checks, b: Checks, t: TemplateId, s: ServerId, defs: seq<Def>, tombs: set<Tombstone>,
                          picks: map<string, CheckId>, def: string)
    requires Synced(a, b, t, s, defs, tombs, picks) && def != ""
    ensures HasDef(b, t, s, def) <==>
              (Defines(defs, def) && (HasDef(a, t, s, def) || Tombstone(t, s, def) !in tombs))
              || exists id :: PassedOver(a, t, s, picks, id) && a[id].def == def
  {
    if HasDef(b, t, s, def) {
      var id :| id in b && Ours(b[id], t, s) && b[id].def == def;
      LeftForAReason(a, b, t, s, defs, tombs, picks, id);
    }
    if exists id :: PassedOver(a, t, s, picks, id) && a[id].def == def {
      var id :| PassedOver(a, t, s, picks, id) && a[id].def == def;
      assert id in b && b[id] == a[id];
    } else if Defines(defs, def) && (HasDef(a, t, s, def) || Tombstone(t, s, def) !in tombs) {
      var i :| 0 <= i < |defs| && defs[i].id == def;
      DefinedIsThere(a, b, t, s, defs, tombs, picks, i);
    }
  }

  lemma LeftForAReason(a: Checks, b: Checks, t: TemplateId, s: ServerId, defs: seq<Def>, tombs: set<Tombstone>,
                       picks: map<string, CheckId>, id: CheckId)
    requires Synced(a, b, t, s, defs, tombs, picks) && id in b && Ours(b[id], t, s)
    ensures (PassedOver(a, t, s, picks, id) && a[id].def == b[id].def)
            || (Defines(defs, b[id].def) && (HasDef(a, t, s, b[id].def) || Tombstone(t, s, b[id].def) !in tombs))
  {
    hide Merge, OneEach;
    if id in a {
      NamesStay(a, b, t, s, defs, tombs, picks, id);
      assert Ours(a[id], t, s);
    } else {
      var i :| 0 <= i < |defs| && NewFrom(a, b[id], t, s, defs[i], tombs);
    }
  }

  lemma DefinedIsThere(a: Checks, b: Checks, t: TemplateId, s: ServerId, defs: seq<Def>, tombs: set<Tombstone>,
                       picks: map<string, CheckId>, i: nat)
    requires Synced(a, b, t, s, defs, tombs, picks) && i < |defs| && defs[i].id != ""
    requires HasDef(a, t, s, defs[i].id) || Tombstone(t, s, defs[i].id) !in tombs
    ensures HasDef(b, t, s, defs[i].id)
  {
    if HasDef(a, t, s, defs[i].id) {
      OnlyOneFollows(a, b, t, s, defs, tombs, picks, i);
      NamesStay(a, b, t, s, defs, tombs, picks, picks[defs[i].id]);
      assert Ours(b[picks[defs[i].id]], t, s);
    } else {
      assert Missing(a, t, s, defs[i], tombs);
    }
  }

  /**
  A second sync that picks the same checks changes nothing, unless the first passed over a
  check whose definition is gone: that one is the next to go.
  */
  lemma SyncIdempotent(a: Checks, b: Checks, c: Checks, t: TemplateId, s: ServerId, defs: seq<Def>, tombs: set<Tombstone>,
                       picks: map<string, CheckId>, again: map<string, CheckId>)
    requires DistinctDefs(defs) && Synced(a, b, t, s, defs, tombs, picks) && Synced(b, c, t, s, defs, tombs, again)
    requires forall d :: d in picks && d in again && Defines(defs, d) ==> again[d] == picks[d]
    ensures c == b <==> forall id :: PassedOver(a, t, s, picks, id) ==> Defines(defs, a[id].def)
  {
    if id :| PassedOver(a, t, s, picks, id) && !Defines(defs, a[id].def) {
      NextToGo(a, b, c, t, s, defs, tombs, picks, again, id);
    } else {
      forall id | id in b ensures id in c && c[id] == b[id] {
        SecondSyncKeeps(a, b, c, t, s, defs, tombs, picks, again, id);
      }
      forall id | id in c ensures id in b {
        if id !in b {
          var i :| 0 <= i < |defs| && NewFrom(b, c[id], t, s, defs[i], tombs);
          DefinedIsThere(a, b, t, s, defs, tombs, picks, i);
        }
      }
    }
  }

  /** With one check per definition a second sync always changes nothing. */
  lemma SecondSyncChangesNothing(a: Checks, b: Checks, c: Checks, t: TemplateId, s: ServerId, defs: seq<Def>, tombs: set<Tombstone>,
                                 picks: map<string, CheckId>, again: map<string, CheckId>)
    requires UniqueDefs(a, t, s) && DistinctDefs(defs)
    requires Synced(a, b, t, s, defs, tombs, picks) && Synced(b, c, t, s, defs, tombs, again)
    ensures c == b
  {
    SyncKeepsUnique(a, b, t, s, defs, tombs, picks);
    forall d | d in picks && d in again && Defines(defs, d) ensures again[d] == picks[d] {
      var i :| 0 <= i < |defs| && defs[i].id == d;
      assert HasDef(a, t, s, d);
      OnlyOneFollows(a, b, t, s, defs, tombs, picks, i);
      NamesStay(a, b, t, s, defs, tombs, picks, picks[d]);
      hide Merge;
      assert Ours(b[picks[d]], t, s) && Ours(b[again[d]], t, s);
    }
    forall id ensures !PassedOver(a, t, s, picks, id) {
      UniqueIsPicked(a, t, s, picks, id);
    }
    hide Synced, UniqueDefs, DistinctDefs, PassedOver, Defines;
    SyncIdempotent(a, b, c, t, s, defs, tombs, picks, again);
  }

  lemma NextToGo(a: Checks, b: Checks, c: Checks, t: TemplateId, s: ServerId, defs: seq<Def>, tombs: set<Tombstone>,
                 picks: map<string, CheckId>, again: map<string, CheckId>, id: CheckId)
    requires Synced(a, b, t, s, defs, tombs, picks) && Synced(b, c, t, s, defs, tombs, again)
    requires PassedOver(a, t, s, picks, id) && !Defines(defs, a[id].def)
    ensures c != b
  {
    hide Created, OneEach, Merge, HasDef;
    var def := a[id].def;
    assert id in b && b[id] == a[id];
    var x := again[def];
    assert Picked(b, again, x) && x in b && x !in c;
  }

  lemma SecondSyncKeeps(a: Checks, b: Checks, c: Checks, t: TemplateId, s: ServerId, defs: seq<Def>, tombs: set<Tombstone>,
                        picks: map<string, CheckId>, again: map<string, CheckId>, id: CheckId)
    requires DistinctDefs(defs) && Synced(a, b, t, s, defs, tombs, picks) && Synced(b, c, t, s, defs, tombs, again) && id in b
    requires forall d :: d in picks && d in again && Defines(defs, d) ==> again[d] == picks[d]
    requires PassedOver(a, t, s, picks, id) ==> Defines(defs, a[id].def)
    ensures id in c && c[id] == b[id]
  {
    if Picked(b, again, id) {
      hide HasDef, OneEach, OthersKept;
      assert Ours(b[id], t, s);
      if id in a {
        NamesStay(a, b, t, s, defs, tombs, picks, id);
        assert Ours(a[id], t, s) && a[id].def in picks;
        PickedAgain(a, b, t, s, defs, tombs, picks, again, id);
        var i :| 0 <= i < |defs| && defs[i].id == a[id].def;
        RewrittenTwice(a[id], defs[i]);
        hide Created, Merge;
        assert b[id] == Rewritten(a[id], defs[i]) && c[id] == Rewritten(b[id], defs[i]);
      } else {
        assert exists i :: 0 <= i < |defs| && NewFrom(a, b[id], t, s, defs[i], tombs);
        var i :| 0 <= i < |defs| && NewFrom(a, b[id], t, s, defs[i], tombs);
        NewIsSynced(defs[i]);
        hide Created, TemplateValues;
        assert c[id] == Rewritten(b[id], defs[i]);
      }
    }
  }

  lemma PickedAgain(a: Checks, b: Checks, t: TemplateId, s: ServerId, defs: seq<Def>, tombs: set<Tombstone>,
                    picks: map<string, CheckId>, again: map<string, CheckId>, id: CheckId)
    requires Synced(a, b, t, s, defs, tombs, picks) && id in a && id in b && Ours(a[id], t, s) && b[id].def == a[id].def
    requires Picked(b, again, id) && forall d :: d in picks && d in again && Defines(defs, d) ==> again[d] == picks[d]
    requires PassedOver(a, t, s, picks, id) ==> Defines(defs, a[id].def)
    ensures Picked(a, picks, id) && Defines(defs, a[id].def)
  {
    hide HasDef, OneEach, Created, Merge;
  }

  lemma RewrittenTwice(c: Check, def: Def)
    requires Full(c.values)
    ensures Rewritten(Rewritten(c, def), def) == Rewritten(c, def) && Rewritten(c, def).def == c.def
  {
    MergeIdempotent(def, c.values, c.overridden);
  }

  /** Checks of other templates and servers are as they were, whatever this sync did. */
  lemma SyncTouchesNoOther(a: Checks, b: Checks, t: TemplateId, s: ServerId, defs: seq<Def>, tombs: set<Tombstone>,
                           picks: map<string, CheckId>, t2: TemplateId, s2: ServerId)
    requires Synced(a, b, t, s, defs, tombs, picks) && (t2 != t || s2 != s)
    ensures forall id :: id in b && Ours(b[id], t2, s2) ==> id in a && a[id] == b[id]
    ensures forall id :: id in a && Ours(a[id], t2, s2) ==> id in b && a[id] == b[id]
  {
    hide Merge, OneEach, HasDef;
    forall id | id in b && Ours(b[id], t2, s2) ensures id in a && a[id] == b[id] {
      if id in a {
        NamesStay(a, b, t, s, defs, tombs, picks, id);
      }
    }
  }

  /** No definition is doubled by a sync. */
  lemma SyncKeepsUnique(a: Checks, b: Checks, t: TemplateId, s: ServerId, defs: seq<Def>, tombs: set<Tombstone>,
                        picks: map<string, CheckId>)
    requires Synced(a, b, t, s, defs, tombs, picks) && UniqueDefs(a, t, s)
    ensures UniqueDefs(b, t, s)
  {
    forall x, y | x in b && y in b && Ours(b[x], t, s) && Ours(b[y], t, s) && b[x].def == b[y].def ensures x == y {
      NewOrNamed(a, b, t, s, defs, tombs, picks, x);
      NewOrNamed(a, b, t, s, defs, tombs, picks, y);
    }
  }

  lemma NewOrNamed(a: Checks, b: Checks, t: TemplateId, s: ServerId, defs: seq<Def>, tombs: set<Tombstone>,
                   picks: map<string, CheckId>, id: CheckId)
    requires Synced(a, b, t, s, defs, tombs, picks) && id in b && Ours(b[id], t, s)
    ensures if id in a then Ours(a[id], t, s) && a[id].def == b[id].def else !HasDef(a, t, s, b[id].def)
  {
    if id in a {
      NamesStay(a, b, t, s, defs, tombs, picks, id);
    } else {
      var i :| 0 <= i < |defs| && NewFrom(a, b[id], t, s, defs[i], tombs);
    }
  }

  // ----- The sync ------------------------------------------------------------------------

  /** What the loop over the definitions has done after some of them. */
  ghost predicate Underway(a: Checks, b: Checks, t: TemplateId, s: ServerId, defs: seq<Def>, tombs: set<Tombstone>,
                           picks: map<string, CheckId>) {
    && AllFull(a) && AllFull(b) && Untouched(a, b, defs, picks) && SoFar(a, b, defs, picks)
    && Created(a, b, t, s, defs, tombs) && OneEach(a, b)
  }

  ghost predicate Untouched(a: Checks, b: Checks, defs: seq<Def>, picks: map<string, CheckId>) {
    forall id :: id in a ==> id in b && (!(Picked(a, picks, id) && Defines(defs, a[id].def)) ==> b[id] == a[id])
  }

  ghost predicate SoFar(a: Checks, b: Checks, defs: seq<Def>, picks: map<string, CheckId>)
    requires AllFull(a)
  {
    forall id, i :: id in a && Picked(a, picks, id) && 0 <= i < |defs| && defs[i].id == a[id].def ==>
      id in b && b[id] == Rewritten(a[id], defs[i])
  }

  /** What one more definition writes: `row` of the check picked for it, or nothing. */
  lemma OneMoreWritten(a: Checks, b: Checks, c: Checks, defs: seq<Def>, def: Def, picks: map<string, CheckId>)
    requires AllFull(a) && Untouched(a, b, defs, picks) && SoFar(a, b, defs, picks) && (forall id :: id in b ==> id in c)
    requires forall id :: id in a && !(Picked(a, picks, id) && a[id].def == def.id) ==> c[id] == b[id]
    requires forall id :: id in a && Picked(a, picks, id) && a[id].def == def.id ==>
               !Defines(defs, def.id) && c[id] == Rewritten(a[id], def)
    ensures Untouched(a, c, defs + [def], picks) && SoFar(a, c, defs + [def], picks)
  {
    hide Rewritten, Picked;
    DefinesMore(defs, def);
    forall id, i | id in a && Picked(a, picks, id) && 0 <= i < |defs + [def]| && (defs + [def])[i].id == a[id].def
      ensures id in c && c[id] == Rewritten(a[id], (defs + [def])[i])
    {
      assert (defs + [def])[i] == if i < |defs| then defs[i] else def;
      if i < |defs| {
        DefinesAt(defs, i);
      }
    }
  }

  /** Everything new carries the name of a definition handled. */
  lemma NewIsDefined(a: Checks, b: Checks, t: TemplateId, s: ServerId, defs: seq<Def>, tombs: set<Tombstone>, id: CheckId)
    requires Created(a, b, t, s, defs, tombs) && id in b && id !in a
    ensures Defines(defs, b[id].def)
  {
    var i :| 0 <= i < |defs| && NewFrom(a, b[id], t, s, defs[i], tombs);
  }

  lemma DefinesMore(defs: seq<Def>, def: Def)
    ensures forall id :: Defines(defs + [def], id) <==> Defines(defs, id) || id == def.id
  {
    forall id ensures Defines(defs + [def], id) <==> Defines(defs, id) || id == def.id {
      if Defines(defs, id) {
        var i :| 0 <= i < |defs| && defs[i].id == id;
        assert (defs + [def])[i].id == id;
      }
      assert (defs + [def])[|defs|] == def;
    }
  }

  /** A definition without an id, or tombstoned, or without effect. */
  lemma SkipStep(a: Checks, b: Checks, t: TemplateId, s: ServerId, defs: seq<Def>, def: Def, tombs: set<Tombstone>,
                 picks: map<string, CheckId>)
    requires Underway(a, b, t, s, defs, tombs, picks) && Picks(a, t, s, picks)
    requires def.id == "" || (def.id !in picks && Tombstone(t, s, def.id) in tombs)
    ensures Underway(a, b, t, s, defs + [def], tombs, picks)
  {
    hide Created, OneEach, Merge, Defines, HasDef, Untouched, SoFar;
    CreatedMore(a, b, b, t, s, defs, def, tombs);
    UnderwayKeys(a, b, t, s, defs, tombs, picks);
    OneMoreWritten(a, b, b, defs, def, picks);
  }

  lemma UnderwayKeys(a: Checks, b: Checks, t: TemplateId, s: ServerId, defs: seq<Def>, tombs: set<Tombstone>, picks: map<string, CheckId>)
    requires Underway(a, b, t, s, defs, tombs, picks)
    ensures forall id :: id in a ==> id in b
  {
  }

  lemma CreatedMore(a: Checks, b: Checks, c: Checks, t: TemplateId, s: ServerId, defs: seq<Def>, def: Def, tombs: set<Tombstone>)
    requires Created(a, b, t, s, defs, tombs)
    requires forall id :: id in b ==> id in c && c[id].template == b[id].template && c[id].server == b[id].server && c[id].def == b[id].def
    requires forall id :: id in b && id !in a ==> c[id] == b[id]
    requires forall id :: id in c && id !in b ==> NewFrom(a, c[id], t, s, def, tombs)
    requires Missing(a, t, s, def, tombs) ==> HasDef(c, t, s, def.id)
    ensures Created(a, c, t, s, defs + [def], tombs)
  {
    var more := defs + [def];
    forall id | id in c && id !in a ensures exists i :: 0 <= i < |more| && NewFrom(a, c[id], t, s, more[i], tombs) {
      if id in b {
        var i :| 0 <= i < |defs| && NewFrom(a, b[id], t, s, defs[i], tombs);
        assert NewFrom(a, c[id], t, s, more[i], tombs);
      } else {
        assert NewFrom(a, c[id], t, s, more[|defs|], tombs);
      }
    }
    forall i | 0 <= i < |more| && Missing(a, t, s, more[i], tombs) ensures HasDef(c, t, s, more[i].id) {
      if i < |defs| {
        assert more[i] == defs[i] && HasDef(b, t, s, defs[i].id);
        var id :| id in b && Ours(b[id], t, s) && b[id].def == defs[i].id;
        assert Ours(c[id], t, s);
      }
    }
  }

  lemma UpdateStep(a: Checks, b: Checks, t: TemplateId, s: ServerId, defs: seq<Def>, def: Def, tombs: set<Tombstone>,
                   picks: map<string, CheckId>)
    requires Underway(a, b, t, s, defs, tombs, picks) && Picks(a, t, s, picks) && def.id in picks && !Defines(defs, def.id)
    ensures var id := picks[def.id];
            && id in a && id in b && b[id] == a[id]
            && Underway(a, b[id := Rewritten(a[id], def)], t, s, defs + [def], tombs, picks)
  {
    hide Merge, Untouched, SoFar, Created, OneEach;
    UpdateCreated(a, b, t, s, defs, def, tombs, picks);
    UnderwayKeys(a, b, t, s, defs, tombs, picks);
    var id := picks[def.id];
    OneMoreWritten(a, b, b[id := Rewritten(a[id], def)], defs, def, picks);
  }

  lemma UpdateCreated(a: Checks, b: Checks, t: TemplateId, s: ServerId, defs: seq<Def>, def: Def, tombs: set<Tombstone>,
                      picks: map<string, CheckId>)
    requires Underway(a, b, t, s, defs, tombs, picks) && Picks(a, t, s, picks) && def.id in picks && !Defines(defs, def.id)
    ensures var id := picks[def.id];
            && id in a && id in b && b[id] == a[id]
            && Created(a, b[id := Rewritten(a[id], def)], t, s, defs + [def], tombs) && OneEach(a, b[id := Rewritten(a[id], def)])
  {
    hide Created, OneEach, Merge, SoFar;
    var id := picks[def.id];
    var row := Rewritten(a[id], def);
    assert row.template == a[id].template && row.server == a[id].server && row.def == a[id].def;
    hide Rewritten;
    UnderwayKeys(a, b, t, s, defs, tombs, picks);
    assert HasDef(a, t, s, def.id) && b[id] == a[id];
    hide HasDef, Defines, Untouched, Picks;
    CreatedMore(a, b, b[id := row], t, s, defs, def, tombs);
    SameNewOnes(a, b, b[id := row]);
  }

  lemma DefinesAt(defs: seq<Def>, i: nat)
    requires i < |defs|
    ensures Defines(defs, defs[i].id)
  {
  }

  lemma SameNewOnes(a: Checks, b: Checks, c: Checks)
    requires OneEach(a, b) && forall id :: id in c && id !in a ==> id in b && c[id] == b[id]
    ensures OneEach(a, c)
  {
  }

  lemma CreateStep(a: Checks, b: Checks, t: TemplateId, s: ServerId, defs: seq<Def>, def: Def, tombs: set<Tombstone>,
                   picks: map<string, CheckId>, id: CheckId)
    requires Underway(a, b, t, s, defs, tombs, picks) && Picks(a, t, s, picks) && def.id !in picks && !Defines(defs, def.id)
    requires id !in b && def.id != "" && Tombstone(t, s, def.id) !in tombs
    ensures Underway(a, b[id := NewCheck(t, s, def)], t, s, defs + [def], tombs, picks)
  {
    var c := b[id := NewCheck(t, s, def)];
    PicksHas(a, t, s, picks, def.id);
    CreatedOne(a, b, t, s, defs, def, tombs, id);
    NewOnes(a, b, t, s, defs, def, tombs, id);
    hide Created, TemplateValues, Merge, Defines, HasDef, OneEach, Untouched, SoFar;
    UnderwayKeys(a, b, t, s, defs, tombs, picks);
    OneMoreWritten(a, b, c, defs, def, picks);
  }

  lemma NewOnes(a: Checks, b: Checks, t: TemplateId, s: ServerId, defs: seq<Def>, def: Def, tombs: set<Tombstone>, id: CheckId)
    requires Created(a, b, t, s, defs, tombs) && OneEach(a, b) && !Defines(defs, def.id) && id !in b
    ensures OneEach(a, b[id := NewCheck(t, s, def)])
  {
    forall x | x in b && x !in a ensures b[x].def != def.id {
      NewIsDefined(a, b, t, s, defs, tombs, x);
    }
  }

  lemma CreatedOne(a: Checks, b: Checks, t: TemplateId, s: ServerId, defs: seq<Def>, def: Def, tombs: set<Tombstone>, id: CheckId)
    requires Created(a, b, t, s, defs, tombs) && id !in b && Missing(a, t, s, def, tombs)
    ensures Created(a, b[id := NewCheck(t, s, def)], t, s, defs + [def], tombs)
  {
    var c := b[id := NewCheck(t, s, def)];
    assert c[id] == NewCheck(t, s, def) && Ours(c[id], t, s) && c[id].def == def.id;
    assert HasDef(c, t, s, def.id);
    hide TemplateValues, Created, HasDef, Missing;
    CreatedMore(a, b, c, t, s, defs, def, tombs);
  }

  lemma PicksHas(checks: Checks, t: TemplateId, s: ServerId, picks: map<string, CheckId>, def: string)
    requires Picks(checks, t, s, picks)
    ensures def in picks <==> HasDef(checks, t, s, def)
  {
    if def in picks {
      assert checks[picks[def]].def == def;
    }
  }

  /** The checks by definition; a later one takes the place of an earlier one. */
  method ByDefinition(checks: Checks, t: TemplateId, s: ServerId) returns (picks: map<string, CheckId>)
    ensures Picks(checks, t, s, picks)
  {
    picks := map[];
    var ours := set id | id in checks && Ours(checks[id], t, s);
    var todo := ours;
    while todo != {}
      invariant todo <= ours
      invariant forall id :: id in ours && id !in todo ==> checks[id].def in picks
      invariant forall d :: d in picks ==> picks[d] in checks && Ours(checks[picks[d]], t, s) && checks[picks[d]].def == d
      decreases todo
    {
      var id :| id in todo;
      picks := picks[checks[id].def := id];
      todo := todo - {id};
    }
  }

  /** The actions so far turn the one job table into the other. */
  ghost predicate InStep(a: Checks, b: Checks, actions: seq<Action>) {
    && AllFull(a) && AllFull(b) && AllValid(b) && ActionsValid(actions)
    && Replay(Index(a), actions) == Index(b)
  }

  lemma StepFollow(a: Checks, b: Checks, actions: seq<Action>, id: CheckId, c: Check)
    requires InStep(a, b, actions) && Full(c.values) && ValidInterval(c.values[Interval])
    ensures InStep(a, b[id := c], actions + [Follow(id, c)])
    ensures c.values[Enabled] != Flag(true) && id !in b ==> InStep(a, b[id := c], actions)
  {
    StaysValid(b, id, c);
    FollowKeepsIndex(b, id, c);
    ReplayOne(Index(a), actions, Follow(id, c));
    hide Index, Replay;
  }

  /** One definition. */
  method HandleDef(a: Checks, b: Checks, t: TemplateId, s: ServerId, ghost defs: seq<Def>, def: Def, tombs: set<Tombstone>,
                   picks: map<string, CheckId>, id: CheckId, actions: seq<Action>)
    returns (c: Checks, more: seq<Action>)
    requires Underway(a, b, t, s, defs, tombs, picks) && InStep(a, b, actions) && Picks(a, t, s, picks)
    requires id !in b && (def.id != "" ==> !Defines(defs, def.id)) && (Interval in def.given ==> ValidInterval(def.given[Interval]))
    ensures Underway(a, c, t, s, defs + [def], tombs, picks) && InStep(a, c, more)
    ensures c.Keys <= b.Keys + {id}
  {
    hide Picks, TemplateValues, Underway, InStep, Defines, Merge;
    c, more := b, actions;
    if def.id == "" {
      SkipStep(a, b, t, s, defs, def, tombs, picks);
    } else if def.id in picks {
      UpdateBoth(a, b, t, s, defs, def, tombs, picks, actions);
      var found := picks[def.id];
      var values := WriteFields(def, b[found].values, b[found].overridden);
      var row := b[found].(values := values);
      c, more := b[found := row], actions + [Follow(found, row)];
    } else if Tombstone(t, s, def.id) in tombs {
      SkipStep(a, b, t, s, defs, def, tombs, picks);
    } else {
      var row := NewCheck(t, s, def);
      CreateBoth(a, b, t, s, defs, def, tombs, picks, id, actions);
      c := b[id := row];
      if row.values[Enabled] == Flag(true) {
        more := actions + [Follow(id, row)];
      }
    }
  }

  lemma UpdateBoth(a: Checks, b: Checks, t: TemplateId, s: ServerId, defs: seq<Def>, def: Def, tombs: set<Tombstone>,
                   picks: map<string, CheckId>, actions: seq<Action>)
    requires Underway(a, b, t, s, defs, tombs, picks) && InStep(a, b, actions) && Picks(a, t, s, picks)
    requires def.id in picks && !Defines(defs, def.id) && (Interval in def.given ==> ValidInterval(def.given[Interval]))
    ensures var found := picks[def.id];
            && found in b && Full(b[found].values)
            && var row := Rewritten(b[found], def);
               Underway(a, b[found := row], t, s, defs + [def], tombs, picks) && InStep(a, b[found := row], actions + [Follow(found, row)])
  {
    hide Underway, Picks, Defines;
    UnderwayFull(a, b, t, s, defs, tombs, picks);
    InStepValid(a, b, actions);
    hide InStep;
    UpdateStep(a, b, t, s, defs, def, tombs, picks);
    var found := picks[def.id];
    RewrittenIsValid(b[found], def);
    hide Merge, Rewritten;
    StepFollow(a, b, actions, found, Rewritten(b[found], def));
  }

  lemma RewrittenIsValid(c: Check, def: Def)
    requires Full(c.values) && ValidInterval(c.values[Interval]) && (Interval in def.given ==> ValidInterval(def.given[Interval]))
    ensures Full(Rewritten(c, def).values) && ValidInterval(Rewritten(c, def).values[Interval])
  {
  }

  lemma CreateBoth(a: Checks, b: Checks, t: TemplateId, s: ServerId, defs: seq<Def>, def: Def, tombs: set<Tombstone>,
                   picks: map<string, CheckId>, id: CheckId, actions: seq<Action>)
    requires Underway(a, b, t, s, defs, tombs, picks) && InStep(a, b, actions) && Picks(a, t, s, picks)
    requires id !in b && def.id !in picks && !Defines(defs, def.id) && (Interval in def.given ==> ValidInterval(def.given[Interval]))
    requires def.id != "" && Tombstone(t, s, def.id) !in tombs
    ensures var row := NewCheck(t, s, def);
            && Underway(a, b[id := row], t, s, defs + [def], tombs, picks)
            && InStep(a, b[id := row], if row.values[Enabled] == Flag(true) then actions + [Follow(id, row)] else actions)
  {
    hide Underway, Picks, Defines, TemplateValues;
    UnderwayFull(a, b, t, s, defs, tombs, picks);
    InStepValid(a, b, actions);
    hide InStep;
    NewIsValid(b, id, t, s, def);
    CreateStep(a, b, t, s, defs, def, tombs, picks, id);
    hide NewCheck;
    StepFollow(a, b, actions, id, NewCheck(t, s, def));
  }

  lemma InStepValid(a: Checks, b: Checks, actions: seq<Action>)
    requires InStep(a, b, actions)
    ensures AllFull(b) && AllValid(b)
  {
  }

  /** The loop over the definitions. */
  method UpdateAndCreate(a: Checks, t: TemplateId, s: ServerId, defs: seq<Def>, tombs: set<Tombstone>,
                         picks: map<string, CheckId>, ids: seq<CheckId>)
    returns (b: Checks, actions: seq<Action>)
    requires AllFull(a) && Picks(a, t, s, picks) && DistinctDefs(defs)
    requires |ids| == |defs| && (forall i :: 0 <= i < |ids| ==> ids[i] !in a)
    requires forall i, j :: 0 <= i < j < |ids| ==> ids[i] != ids[j]
    requires AllValid(a) && DefsValid(defs)
    ensures Underway(a, b, t, s, defs, tombs, picks) && InStep(a, b, actions)
    ensures forall id :: id in b && id !in a ==> id in ids
  {
    b, actions := a, [];
    assert defs[..0] == [];
    for i := 0 to |defs|
      invariant Underway(a, b, t, s, defs[..i], tombs, picks) && InStep(a, b, actions)
      invariant forall id :: id in b && id !in a ==> id in ids[..i]
    {
      var def := defs[i];
      assert defs[..i + 1] == defs[..i] + [def];
      assert ids[..i + 1] == ids[..i] + [ids[i]] && ids[i] !in ids[..i];
      NotYet(defs, i);
      assert Interval in def.given ==> ValidInterval(def.given[Interval]);
      hide Picks, DistinctDefs, DefsValid, Underway, InStep, AllFull, AllValid;
      b, actions := HandleDef(a, b, t, s, defs[..i], def, tombs, picks, ids[i], actions);
    }
    assert defs[..|defs|] == defs && ids[..|ids|] == ids;
  }

  lemma StaysValid(b: Checks, id: CheckId, c: Check)
    requires AllFull(b) && AllValid(b) && Full(c.values) && ValidInterval(c.values[Interval])
    ensures AllFull(b[id := c]) && AllValid(b[id := c])
  {
  }

  lemma NewIsValid(b: Checks, id: CheckId, t: TemplateId, s: ServerId, def: Def)
    requires AllFull(b) && AllValid(b) && (Interval in def.given ==> ValidInterval(def.given[Interval]))
    ensures Full(NewCheck(t, s, def).values) && ValidInterval(NewCheck(t, s, def).values[Interval])
    ensures AllFull(b[id := NewCheck(t, s, def)]) && AllValid(b[id := NewCheck(t, s, def)])
  {
    assert "5m" in INTERVALS;
  }

  lemma NotYet(defs: seq<Def>, i: nat)
    requires DistinctDefs(defs) && i < |defs|
    ensures defs[i].id != "" ==> !Defines(defs[..i], defs[i].id)
  {
  }

  lemma UnderwayFull(a: Checks, b: Checks, t: TemplateId, s: ServerId, defs: seq<Def>, tombs: set<Tombstone>, picks: map<string, CheckId>)
    requires Underway(a, b, t, s, defs, tombs, picks)
    ensures AllFull(a) && AllFull(b)
  {
  }

  function Doomed(picks: map<string, CheckId>, names: set<string>, target: set<string>): set<CheckId> {
    set d | d in picks && d in names && d !in target :: picks[d]
  }

  /** The picked checks whose definition is gone are deleted. */
  method DeleteGone(b: Checks, picks: map<string, CheckId>, target: set<string>, ghost before: Jobs, actions: seq<Action>)
    returns (c: Checks, more: seq<Action>)
    requires AllFull(b) && Replay(before, actions) == Index(b) && ActionsValid(actions)
    ensures ActionsValid(more)
    ensures AllFull(c) && c == b - Doomed(picks, picks.Keys, target) && Replay(before, more) == Index(c)
  {
    c, more := b, actions;
    var todo := picks.Keys;
    assert Doomed(picks, {}, target) == {};
    while todo != {}
      invariant todo <= picks.Keys && AllFull(c) && ActionsValid(more)
      invariant c == b - Doomed(picks, picks.Keys - todo, target)
      invariant Replay(before, more) == Index(c)
      decreases todo
    {
      var def :| def in todo;
      DoomedOne(picks, picks.Keys - todo, target, def);
      assert picks.Keys - (todo - {def}) == (picks.Keys - todo) + {def};
      todo := todo - {def};
      if def !in target {
        RemoveKeepsIndex(c, picks[def]);
        ReplayOne(before, more, Remove(picks[def]));
        c, more := c - {picks[def]}, more + [Remove(picks[def])];
      }
    }
    assert picks.Keys - {} == picks.Keys;
  }

  lemma DoomedOne(picks: map<string, CheckId>, names: set<string>, target: set<string>, def: string)
    requires def in picks
    ensures Doomed(picks, names + {def}, target) == Doomed(picks, names, target) + (if def in target then {} else {picks[def]})
  {
  }

  lemma DeletedSynced(a: Checks, b: Checks, t: TemplateId, s: ServerId, defs: seq<Def>, tombs: set<Tombstone>,
                      picks: map<string, CheckId>, target: set<string>)
    requires Underway(a, b, t, s, defs, tombs, picks) && Picks(a, t, s, picks)
    requires forall d :: d in target <==> d != "" && Defines(defs, d)
    ensures Synced(a, b - Doomed(picks, picks.Keys, target), t, s, defs, tombs, picks)
  {
    var c := b - Doomed(picks, picks.Keys, target);
    WhoIsDoomed(a, b, t, s, defs, tombs, picks, target);
    hide Doomed, HasDef, Merge;
    DeletedCreated(a, b, c, t, s, defs, tombs);
    DeletedWritten(a, b, c, t, s, defs, tombs, picks);
    SameNewOnes(a, b, c);
    hide Created, OneEach, Picks, Written, OthersKept, Defines;
  }

  lemma DeletedWritten(a: Checks, b: Checks, c: Checks, t: TemplateId, s: ServerId, defs: seq<Def>, tombs: set<Tombstone>,
                       picks: map<string, CheckId>)
    requires Underway(a, b, t, s, defs, tombs, picks) && (forall id :: id in c ==> id in b && c[id] == b[id])
    requires forall id :: id in a ==> (id in c <==> !(Picked(a, picks, id) && !Defines(defs, a[id].def)))
    ensures Written(a, c, defs, picks) && OthersKept(a, c, picks)
  {
    hide Created, OneEach, HasDef, Merge;
    forall id, i | id in a && Picked(a, picks, id) && 0 <= i < |defs| && defs[i].id == a[id].def
      ensures id in c && c[id] == Rewritten(a[id], defs[i])
    {
      assert Defines(defs, a[id].def);
    }
  }

  lemma WhoIsDoomed(a: Checks, b: Checks, t: TemplateId, s: ServerId, defs: seq<Def>, tombs: set<Tombstone>,
                    picks: map<string, CheckId>, target: set<string>)
    requires Underway(a, b, t, s, defs, tombs, picks) && Picks(a, t, s, picks)
    requires forall d :: d in target <==> d != "" && Defines(defs, d)
    ensures forall id :: id in b && id !in a ==> id !in Doomed(picks, picks.Keys, target)
    ensures forall id :: id in a ==> (id in Doomed(picks, picks.Keys, target) <==> Picked(a, picks, id) && !Defines(defs, a[id].def))
    ensures forall id :: id in a && id in b ==> b[id].template == a[id].template && b[id].server == a[id].server && b[id].def == a[id].def
  {
    hide Created, OneEach, HasDef, Merge;
    forall id | id in a ensures b[id].template == a[id].template && b[id].server == a[id].server && b[id].def == a[id].def {
      if Picked(a, picks, id) && Defines(defs, a[id].def) {
        var i :| 0 <= i < |defs| && defs[i].id == a[id].def;
        assert b[id] == Rewritten(a[id], defs[i]);
      }
    }
    hide Underway;
    forall id | id in a && Picked(a, picks, id) && !Defines(defs, a[id].def) ensures id in Doomed(picks, picks.Keys, target) {
      assert a[id].def in picks && picks[a[id].def] == id;
    }
  }

  lemma DeletedCreated(a: Checks, b: Checks, c: Checks, t: TemplateId, s: ServerId, defs: seq<Def>, tombs: set<Tombstone>)
    requires Created(a, b, t, s, defs, tombs) && (forall id :: id in c ==> id in b && c[id] == b[id])
    requires forall id :: id in b && id !in c ==> id in a
    requires forall id :: id in a && id in b ==> b[id].template == a[id].template && b[id].server == a[id].server && b[id].def == a[id].def
    ensures Created(a, c, t, s, defs, tombs)
  {
    forall i | 0 <= i < |defs| && Missing(a, t, s, defs[i], tombs) ensures HasDef(c, t, s, defs[i].id) {
      var id :| id in b && Ours(b[id], t, s) && b[id].def == defs[i].id;
      if id in a {
        assert Ours(a[id], t, s);
      }
      assert id in c && Ours(c[id], t, s);
    }
  }

  /**
  _sync_checks_for_server: leaves what a sync must leave, and the actions it collects turn
  the job table of the checks before into the one of the checks after.
  */
  method SyncChecks(a: Checks, t: TemplateId, s: ServerId, defs: seq<Def>, tombs: set<Tombstone>, ids: seq<CheckId>)
    returns (b: Checks, actions: seq<Action>, picks: map<string, CheckId>)
    requires AllFull(a) && AllValid(a) && DistinctDefs(defs) && DefsValid(defs)
    requires |ids| == |defs| && (forall i :: 0 <= i < |ids| ==> ids[i] !in a)
    requires forall i, j :: 0 <= i < j < |ids| ==> ids[i] != ids[j]
    ensures Synced(a, b, t, s, defs, tombs, picks)
    ensures Replay(Index(a), actions) == Index(b) && AllValid(b) && ActionsValid(actions)
    ensures forall id :: id in b && id !in a ==> id in ids
  {
    picks := ByDefinition(a, t, s);
    hide Picks;
    var target := set d | d in defs && d.id != "" :: d.id;
    forall d ensures d in target <==> d != "" && Defines(defs, d) {
      if d in target {
        var x :| x in defs && x.id == d;
      }
      if Defines(defs, d) {
        var i :| 0 <= i < |defs| && defs[i].id == d;
        assert defs[i] in defs;
      }
    }
    var c;
    c, actions := UpdateAndCreate(a, t, s, defs, tombs, picks, ids);
    UnderwayFull(a, c, t, s, defs, tombs, picks);
    DeletedSynced(a, c, t, s, defs, tombs, picks, target);
    hide Synced, Index, Doomed, Underway;
    b, actions := DeleteGone(c, picks, target, Index(a), actions);
  }
}
