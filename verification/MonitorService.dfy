/**
The check table and the job table beside it (apps/monitoring/app/template_sync.py,
scheduler.py and the check routes): every operation writes the checks in one transaction,
collects what the scheduler has to do, and replays that only after the commit.
`commits` is false when the transaction fails before its commit.
*/
module MonitorService {
  import opened Common
  import opened TemplateChecks
  import opened TemplateSync

  ghost predicate RowsOk(checks: Checks) { AllFull(checks) && AllValid(checks) }

  ghost predicate NewIds(ids: seq<CheckId>, count: nat, checks: Checks) {
    && |ids| == count && (forall i :: 0 <= i < |ids| ==> ids[i] !in checks)
    && (forall i, j :: 0 <= i < j < |ids| ==> ids[i] != ids[j])
  }

  ghost predicate DefsOk(defs: seq<Def>) { DistinctDefs(defs) && DefsValid(defs) }

  /** One server after the other, each synced. */
  ghost predicate SyncedAll(a: Checks, b: Checks, t: TemplateId, servers: seq<ServerId>, defs: map<ServerId, seq<Def>>,
                            tombs: set<Tombstone>)
    decreases |servers|
  {
    if servers == [] then a == b
    else
      var last := servers[|servers| - 1];
      last in defs && exists m: Checks, picks :: SyncedAll(a, m, t, servers[..|servers| - 1], defs, tombs)
                                                 && Synced(m, b, t, last, defs[last], tombs, picks)
  }

  lemma SyncKeepsSingle(a: Checks, b: Checks, t: TemplateId, s: ServerId, defs: seq<Def>, tombs: set<Tombstone>,
                        picks: map<string, CheckId>)
    requires Single(a) && Synced(a, b, t, s, defs, tombs, picks)
    ensures Single(b)
  {
    hide Synced;
    forall t2, s2 ensures UniqueDefs(b, t2, s2) {
      assert UniqueDefs(a, t2, s2);
      if t2 == t && s2 == s {
        SyncKeepsUnique(a, b, t, s, defs, tombs, picks);
      } else {
        SyncTouchesNoOther(a, b, t, s, defs, tombs, picks, t2, s2);
      }
    }
  }

  lemma {:induction false} ReplayAppend(jobs: Jobs, x: seq<Action>, y: seq<Action>)
    ensures Replay(jobs, x + y) == Replay(Replay(jobs, x), y)
  {
    if y == [] {
      assert x + y == x;
    } else {
      assert (x + y)[..|x + y| - 1] == x + y[..|y| - 1];
      ReplayAppend(jobs, x, y[..|y| - 1]);
    }
  }

  lemma SyncedOneMore(a: Checks, m: Checks, b: Checks, t: TemplateId, servers: seq<ServerId>, i: nat, defs: map<ServerId, seq<Def>>,
                      tombs: set<Tombstone>, picks: map<string, CheckId>)
    requires i < |servers| && SyncedAll(a, m, t, servers[..i], defs, tombs)
    requires servers[i] in defs && Synced(m, b, t, servers[i], defs[servers[i]], tombs, picks)
    ensures SyncedAll(a, b, t, servers[..i + 1], defs, tombs)
  {
    hide Synced;
    assert servers[..i + 1][..i] == servers[..i];
  }

  /** No check ID is meant for two servers. */
  ghost predicate Apart(ids: seq<seq<CheckId>>) { forall i, j, x :: 0 <= i < j < |ids| && x in ids[i] ==> x !in ids[j] }

  /** What is new in `rows` has an ID meant for one of the first servers. */
  ghost predicate FromFirst(checks: Checks, rows: Checks, ids: seq<seq<CheckId>>, n: nat) {
    n <= |ids| && forall x :: x in rows && x !in checks ==> exists k :: 0 <= k < n && x in ids[k]
  }

  lemma FromOneMore(checks: Checks, rows: Checks, next: Checks, ids: seq<seq<CheckId>>, n: nat)
    requires n < |ids| && FromFirst(checks, rows, ids, n) && forall x :: x in next && x !in rows ==> x in ids[n]
    ensures FromFirst(checks, next, ids, n + 1)
  {
  }

  /** The IDs for the next server are new to the rows so far. */
  lemma StillNew(checks: Checks, rows: Checks, ids: seq<seq<CheckId>>, i: nat, count: nat)
    requires i < |ids| && NewIds(ids[i], count, checks) && Apart(ids) && FromFirst(checks, rows, ids, i)
    ensures NewIds(ids[i], count, rows)
  {
    forall k | 0 <= k < |ids[i]| ensures ids[i][k] !in rows {
      assert ids[i][k] in ids[i];
    }
  }

  /** The loop over the servers of a template. */
  method SyncServers(checks: Checks, t: TemplateId, servers: seq<ServerId>, defs: map<ServerId, seq<Def>>, tombs: set<Tombstone>,
                     ids: seq<seq<CheckId>>)
    returns (rows: Checks, actions: seq<Action>)
    requires RowsOk(checks) && |ids| == |servers|
    requires forall i :: 0 <= i < |servers| ==> servers[i] in defs && DefsOk(defs[servers[i]]) && NewIds(ids[i], |defs[servers[i]]|, checks)
    requires Apart(ids)
    ensures RowsOk(rows) && ActionsValid(actions) && Replay(Index(checks), actions) == Index(rows)
    ensures Single(checks) ==> Single(rows)
    ensures SyncedAll(checks, rows, t, servers, defs, tombs)
  {
    rows, actions := checks, [];
    assert SyncedAll(checks, rows, t, servers[..0], defs, tombs) && FromFirst(checks, rows, ids, 0) && Replay(Index(checks), []) == Index(checks);
    hide Synced, Index, Single, SyncedAll, FromFirst, Apart, Replay, DistinctDefs, DefsValid;
    for i := 0 to |servers|
      invariant RowsOk(rows) && ActionsValid(actions) && Replay(Index(checks), actions) == Index(rows)
      invariant Single(checks) ==> Single(rows)
      invariant FromFirst(checks, rows, ids, i)
      invariant SyncedAll(checks, rows, t, servers[..i], defs, tombs)
    {
      var s := servers[i];
      StillNew(checks, rows, ids, i, |defs[s]|);
      var next, more, picks := SyncChecks(rows, t, s, defs[s], tombs, ids[i]);
      if Single(rows) {
        SyncKeepsSingle(rows, next, t, s, defs[s], tombs, picks);
      }
      SyncedFull(rows, next, t, s, defs[s], tombs, picks);
      ReplayAppend(Index(checks), actions, more);
      FromOneMore(checks, rows, next, ids, i);
      SyncedOneMore(checks, rows, next, t, servers, i, defs, tombs, picks);
      rows, actions := next, actions + more;
    }
    assert servers[..|servers|] == servers;
  }

  class Monitoring {
    var checks: Checks
    var tombstones: set<Tombstone>
    var jobs: Jobs

    /** The jobs are exactly the enabled checks that are not push-only, each at its interval. */
    ghost predicate Valid() reads this { RowsOk(checks) && jobs == Index(checks) }

    /** A process start: no job yet, the checks as the last one left them. */
    constructor (rows: Checks, deleted: set<Tombstone>)
      requires RowsOk(rows)
      ensures Valid() && checks == rows && tombstones == deleted
    {
      checks, tombstones, jobs := rows, deleted, map[];
      new;
      LoadAllChecks();
    }

    /** The scheduler refuses an interval it does not know. */
    method AddCheck(id: CheckId, interval: Value, checkType: Value) returns (ok: bool)
      modifies this`jobs
      ensures ok <==> PushOnly(checkType) || ValidInterval(interval)
      ensures jobs == if ok then Done(old(jobs), Add(id, interval, checkType)) else old(jobs)
    {
      if PushOnly(checkType) {
        RemoveCheck(id);
        return true;
      }
      if !ValidInterval(interval) {
        return false;
      }
      jobs := jobs[id := interval];
      ok := true;
    }

    method RemoveCheck(id: CheckId)
      modifies this`jobs
      ensures jobs == old(jobs) - {id}
    {
      if id in jobs {
        jobs := jobs - {id};
      }
    }

    method LoadAllChecks()
      requires RowsOk(checks) && jobs == map[]
      modifies this`jobs
      ensures jobs == Index(checks)
    {
      var todo := checks.Keys;
      while todo != {}
        invariant todo <= checks.Keys
        invariant jobs == map id | id in checks && id !in todo && Scheduled(checks[id]) :: checks[id].values[Interval]
        decreases todo
      {
        var id :| id in todo;
        var v := checks[id].values;
        if v[Enabled] == Flag(true) && !PushOnly(v[CheckType]) {
          var ok := AddCheck(id, v[Interval], v[CheckType]);
        }
        todo := todo - {id};
      }
    }

    method ApplySchedulerActions(actions: seq<Action>)
      requires ActionsValid(actions)
      modifies this`jobs
      ensures jobs == Replay(old(jobs), actions)
    {
      for i := 0 to |actions|
        invariant jobs == Replay(old(jobs), actions[..i])
      {
        assert actions[..i + 1] == actions[..i] + [actions[i]];
        ReplayOne(old(jobs), actions[..i], actions[i]);
        match actions[i] {
          case Add(id, interval, checkType) => var ok := AddCheck(id, interval, checkType);
          case Remove(id) => RemoveCheck(id);
        }
      }
      assert actions[..|actions|] == actions;
    }

    /** sync_assignment. */
    method SyncAssignment(t: TemplateId, s: ServerId, defs: seq<Def>, ids: seq<CheckId>, commits: bool)
      returns (picks: map<string, CheckId>)
      requires Valid() && DefsOk(defs) && NewIds(ids, |defs|, checks)
      modifies this`checks, this`jobs
      ensures Valid() && (Single(old(checks)) ==> Single(checks))
      ensures if commits then Synced(old(checks), checks, t, s, defs, tombstones, picks) else checks == old(checks)
    {
      var rows, actions;
      rows, actions, picks := SyncChecks(checks, t, s, defs, tombstones, ids);
      if !commits {
        return;
      }
      if Single(checks) {
        SyncKeepsSingle(checks, rows, t, s, defs, tombstones, picks);
      }
      SyncedFull(checks, rows, t, s, defs, tombstones, picks);
      checks := rows;
      hide Synced, Index, Single;
      ApplySchedulerActions(actions);
    }

    /** sync_template: one transaction over all servers of the template. */
    method SyncTemplate(t: TemplateId, servers: seq<ServerId>, defs: map<ServerId, seq<Def>>, ids: seq<seq<CheckId>>, commits: bool)
      requires Valid() && |ids| == |servers|
      requires forall i :: 0 <= i < |servers| ==> servers[i] in defs && DefsOk(defs[servers[i]]) && NewIds(ids[i], |defs[servers[i]]|, checks)
      requires Apart(ids)
      modifies this`checks, this`jobs
      ensures Valid() && (Single(old(checks)) ==> Single(checks))
      ensures if commits then SyncedAll(old(checks), checks, t, servers, defs, tombstones) else checks == old(checks)
    {
      var rows, actions := SyncServers(checks, t, servers, defs, tombstones, ids);
      if commits {
        checks := rows;
        hide Index, Single, SyncedAll, NewIds, DefsOk;
        ApplySchedulerActions(actions);
      }
    }

    /** restore_checks: the tombstones go and the sync creates their checks again. */
    method RestoreChecks(t: TemplateId, s: ServerId, defs: seq<Def>, ids: seq<CheckId>, commits: bool)
      returns (picks: map<string, CheckId>)
      requires Valid() && DefsOk(defs) && NewIds(ids, |defs|, checks)
      modifies this
      ensures Valid() && (Single(old(checks)) ==> Single(checks))
      ensures !commits ==> checks == old(checks) && tombstones == old(tombstones)
      ensures commits ==>
                && tombstones == (set x | x in old(tombstones) && !(x.template == t && x.server == s))
                && Synced(old(checks), checks, t, s, defs, tombstones, picks)
                && forall def :: def != "" ==>
                     (HasDef(checks, t, s, def) <==>
                      Defines(defs, def) || exists id :: PassedOver(old(checks), t, s, picks, id) && old(checks)[id].def == def)
    {
      var kept := set x | x in tombstones && !(x.template == t && x.server == s);
      var rows, actions;
      rows, actions, picks := SyncChecks(checks, t, s, defs, kept, ids);
      if !commits {
        return;
      }
      if Single(checks) {
        SyncKeepsSingle(checks, rows, t, s, defs, kept, picks);
      }
      SyncedFull(checks, rows, t, s, defs, kept, picks);
      hide Synced, Index, HasDef, Defines, PassedOver, Single;
      forall def | def != ""
        ensures HasDef(rows, t, s, def) <==>
                Defines(defs, def) || exists id :: PassedOver(checks, t, s, picks, id) && checks[id].def == def
      {
        SyncLeavesExactly(checks, rows, t, s, defs, kept, picks, def);
      }
      checks, tombstones := rows, kept;
      ApplySchedulerActions(actions);
    }

    /** apply_template: every definition becomes a check of the server. */
    method ApplyTemplate(t: TemplateId, s: ServerId, defs: seq<Def>, ids: seq<CheckId>, commits: bool)
      requires Valid() && DefsValid(defs) && NewIds(ids, |defs|, checks)
      modifies this`checks, this`jobs
      ensures Valid()
      ensures !commits ==> checks == old(checks)
      ensures commits && Single(old(checks)) ==> (Single(checks) <==> DistinctDefs(defs) && NoneYet(old(checks), t, s, defs))
      ensures commits ==>
                && checks.Keys == old(checks.Keys) + (set x | x in ids)
                && (forall id :: id in old(checks) ==> checks[id] == old(checks)[id])
                && (forall i :: 0 <= i < |defs| ==> checks[ids[i]] == NewCheck(t, s, defs[i]))
    {
      var rows, actions := CreateAll(checks, t, s, defs, ids);
      if commits {
        if Single(checks) {
          AppliedRows(checks, rows, t, s, defs, ids);
        }
        checks := rows;
        hide Index, Single, NewIds, NoneYet, DistinctDefs;
        ApplySchedulerActions(actions);
      }
    }

    /** remove_template: its checks, its tombstones and their jobs go. */
    method RemoveTemplate(t: TemplateId, s: ServerId, commits: bool)
      requires Valid()
      modifies this
      ensures Valid() && (Single(old(checks)) ==> Single(checks))
      ensures !commits ==> checks == old(checks) && tombstones == old(tombstones)
      ensures commits ==>
                && checks == (map id | id in old(checks) && !(old(checks)[id].template == Some(t) && old(checks)[id].server == s) :: old(checks)[id])
                && tombstones == (set x | x in old(tombstones) && !(x.template == t && x.server == s))
    {
      var gone := set id | id in checks && checks[id].template == Some(t) && checks[id].server == s;
      var rows, actions := DeleteAll(checks, gone);
      hide InStep, Index;
      if commits {
        if Single(checks) {
          FewerRows(checks, rows);
        }
        checks := rows;
        tombstones := set x | x in tombstones && !(x.template == t && x.server == s);
        hide Single;
        ApplySchedulerActions(actions);
      }
    }

    /** A user edit: the fields, their marks, and the job. */
    method EditCheck(id: CheckId, server: Option<ServerId>, changed: Values, template: Option<Def>, commits: bool)
      requires Valid() && id in checks && (Interval in changed ==> ValidInterval(changed[Interval]))
      modifies this`checks, this`jobs
      ensures Valid()
      ensures checks == if commits then old(checks)[id := Edited(old(checks)[id], server, changed, template)] else old(checks)
      ensures Single(old(checks)) ==>
                (Single(checks) <==> !(commits && Clashes(old(checks), id, Edited(old(checks)[id], server, changed, template))))
    {
      hide Index, Single, Clashes, Marked, TemplateValues;
      var marks := checks[id].overridden;
      if template.Some? {
        marks := MarkFields(TemplateValues(template.value), marks, changed);
      }
      var c := checks[id].(values := checks[id].values + changed, overridden := marks,
                           server := if server.Some? then server.value else checks[id].server);
      if !commits {
        return;
      }
      assert c == Edited(checks[id], server, changed, template);
      EditKeeps(checks, id, c);
      hide Edited;
      checks := checks[id := c];
      match Follow(id, c) {
        case Add(_, interval, checkType) => var ok := AddCheck(id, interval, checkType);
        case Remove(_) => RemoveCheck(id);
      }
    }

    /** A user deletion: a tombstone keeps the sync from creating the check again. */
    method DeleteCheck(id: CheckId, hasTemplate: bool, commits: bool)
      requires Valid() && id in checks
      modifies this
      ensures Valid() && (Single(old(checks)) ==> Single(checks))
      ensures !commits ==> checks == old(checks) && tombstones == old(tombstones)
      ensures commits ==> checks == old(checks) - {id}
      ensures commits ==>
                var c := old(checks)[id];
                tombstones == old(tombstones)
                  + (if hasTemplate && c.template.Some? && c.def != "" then {Tombstone(c.template.value, c.server, c.def)} else {})
    {
      if !commits {
        return;
      }
      var c := checks[id];
      RemoveKeepsIndex(checks, id);
      if Single(checks) {
        FewerRows(checks, checks - {id});
      }
      if hasTemplate && c.template.Some? && c.def != "" {
        tombstones := tombstones + {Tombstone(c.template.value, c.server, c.def)};
      }
      checks := checks - {id};
      hide Index, Single;
      RemoveCheck(id);
    }
  }

  /** The first `i` definitions have their checks. */
  ghost predicate HasNew(checks: Checks, rows: Checks, t: TemplateId, s: ServerId, defs: seq<Def>, ids: seq<CheckId>, i: nat) {
    && i <= |ids| == |defs| && rows.Keys == checks.Keys + (set x | x in ids[..i])
    && (forall id :: id in checks ==> rows[id] == checks[id])
    && (forall k :: 0 <= k < i ==> ids[k] in rows && rows[ids[k]] == NewCheck(t, s, defs[k]))
  }

  lemma OneMore(checks: Checks, rows: Checks, t: TemplateId, s: ServerId, defs: seq<Def>, ids: seq<CheckId>, i: nat)
    requires HasNew(checks, rows, t, s, defs, ids, i) && i < |ids| && NewIds(ids, |defs|, checks)
    ensures HasNew(checks, rows[ids[i] := NewCheck(t, s, defs[i])], t, s, defs, ids, i + 1) && ids[i] !in rows
  {
    var row := NewCheck(t, s, defs[i]);
    hide TemplateValues, NewCheck;
    assert ids[..i + 1] == ids[..i] + [ids[i]] && ids[i] !in ids[..i];
    assert forall x :: x in ids[..i + 1] <==> x in ids[..i] || x == ids[i];
    var more := rows[ids[i] := row];
    forall k | 0 <= k < i + 1 ensures ids[k] in more && more[ids[k]] == NewCheck(t, s, defs[k]) {
      assert k < i ==> ids[k] != ids[i];
    }
  }

  /** The checks go one by one, each with its job. */
  method DeleteAll(checks: Checks, gone: set<CheckId>) returns (rows: Checks, actions: seq<Action>)
    requires RowsOk(checks)
    ensures RowsOk(rows) && ActionsValid(actions) && Replay(Index(checks), actions) == Index(rows) && rows == checks - gone
  {
    rows, actions := checks, [];
    var todo := gone;
    assert InStep(checks, rows, actions);
    hide InStep, Index;
    while todo != {}
      invariant todo <= gone && rows == checks - (gone - todo)
      invariant InStep(checks, rows, actions)
      decreases todo
    {
      var id :| id in todo;
      StepRemove(checks, rows, actions, id);
      assert gone - (todo - {id}) == (gone - todo) + {id};
      rows, actions, todo := rows - {id}, actions + [Remove(id)], todo - {id};
    }
    assert gone - {} == gone;
    InStepIs(checks, rows, actions);
  }

  lemma InStepIs(a: Checks, b: Checks, actions: seq<Action>)
    requires InStep(a, b, actions)
    ensures AllFull(a) && RowsOk(b) && ActionsValid(actions) && Replay(Index(a), actions) == Index(b)
  {
  }

  /** A check for every definition, and the jobs they call for. */
  method CreateAll(checks: Checks, t: TemplateId, s: ServerId, defs: seq<Def>, ids: seq<CheckId>)
    returns (rows: Checks, actions: seq<Action>)
    requires AllFull(checks) && AllValid(checks) && DefsValid(defs) && NewIds(ids, |defs|, checks)
    ensures InStep(checks, rows, actions)
    ensures rows.Keys == checks.Keys + (set x | x in ids)
    ensures forall id :: id in checks ==> rows[id] == checks[id]
    ensures forall i :: 0 <= i < |defs| ==> rows[ids[i]] == NewCheck(t, s, defs[i])
  {
    rows, actions := checks, [];
    for i := 0 to |defs|
      invariant InStep(checks, rows, actions)
      invariant HasNew(checks, rows, t, s, defs, ids, i)
    {
      var c := NewCheck(t, s, defs[i]);
      OneMore(checks, rows, t, s, defs, ids, i);
      NewIsValid(rows, ids[i], t, s, defs[i]);
      StepFollow(checks, rows, actions, ids[i], c);
      hide InStep, TemplateValues, DefsValid, AllFull, AllValid, Index, HasNew, NewIds;
      rows := rows[ids[i] := c];
      if c.values[Enabled] == Flag(true) {
        actions := actions + [Follow(ids[i], c)];
      }
    }
    assert ids[..|ids|] == ids;
  }

  /** The row after an edit; a check whose template is gone is left unmarked. */
  function Edited(c: Check, server: Option<ServerId>, changed: Values, template: Option<Def>): (r: Check)
    requires Full(c.values)
    ensures Full(r.values) && r.def == c.def && r.template == c.template && (server.None? ==> r.server == c.server)
  {
    var marks := if template.Some? then Marked(TemplateValues(template.value), c.overridden, changed) else c.overridden;
    c.(values := c.values + changed, overridden := marks, server := if server.Some? then server.value else c.server)
  }

  /** An edit moves a check of a definition to a server that has one already. */
  ghost predicate Clashes(checks: Checks, id: CheckId, c: Check) {
    c.template.Some? && c.def != ""
    && exists x :: x in checks && x != id && Ours(checks[x], c.template.value, c.server) && checks[x].def == c.def
  }

  lemma EditKeeps(checks: Checks, id: CheckId, c: Check)
    requires RowsOk(checks) && id in checks && Full(c.values) && ValidInterval(c.values[Interval])
    ensures RowsOk(checks[id := c]) && Done(Index(checks), Follow(id, c)) == Index(checks[id := c])
    ensures Single(checks) ==> (Single(checks[id := c]) <==> !Clashes(checks, id, c))
  {
    StaysValid(checks, id, c);
    FollowKeepsIndex(checks, id, c);
    hide Single, Clashes, Index;
    if Single(checks) {
      EditedRows(checks, id, c);
    }
  }

  lemma EditedRows(checks: Checks, id: CheckId, c: Check)
    requires Single(checks) && id in checks
    ensures Single(checks[id := c]) <==> !Clashes(checks, id, c)
  {
    var edited := checks[id := c];
    if Clashes(checks, id, c) {
      var x :| x in checks && x != id && Ours(checks[x], c.template.value, c.server) && checks[x].def == c.def;
      assert edited[x] == checks[x] && edited[id] == c && Ours(c, c.template.value, c.server);
      assert !UniqueDefs(edited, c.template.value, c.server);
    } else {
      forall t, s ensures UniqueDefs(edited, t, s) {
        assert UniqueDefs(checks, t, s);
      }
    }
  }

  /** Without a change of the server there is no clash. */
  lemma SameServerNeverClashes(checks: Checks, id: CheckId, changed: Values, template: Option<Def>)
    requires Single(checks) && AllFull(checks) && id in checks
    ensures !Clashes(checks, id, Edited(checks[id], None, changed, template))
  {
    var c := Edited(checks[id], None, changed, template);
    if c.template.Some? && c.def != "" {
      assert UniqueDefs(checks, c.template.value, c.server) && Ours(checks[id], c.template.value, c.server);
    }
  }

  lemma FewerRows(checks: Checks, fewer: Checks)
    requires Single(checks) && forall id :: id in fewer ==> id in checks && fewer[id] == checks[id]
    ensures Single(fewer)
  {
    forall t, s ensures UniqueDefs(fewer, t, s) {
      assert UniqueDefs(checks, t, s);
    }
  }

  lemma StepRemove(a: Checks, b: Checks, actions: seq<Action>, id: CheckId)
    requires InStep(a, b, actions)
    ensures InStep(a, b - {id}, actions + [Remove(id)])
  {
    RemoveKeepsIndex(b, id);
    ReplayOne(Index(a), actions, Remove(id));
    hide Index, Replay;
  }

  /** No definition of the template has a check on the server. */
  ghost predicate NoneYet(checks: Checks, t: TemplateId, s: ServerId, defs: seq<Def>) {
    forall i :: 0 <= i < |defs| && defs[i].id != "" ==> !HasDef(checks, t, s, defs[i].id)
  }

  ghost predicate Applied(checks: Checks, rows: Checks, t: TemplateId, s: ServerId, defs: seq<Def>, ids: seq<CheckId>) {
    && NewIds(ids, |defs|, checks) && rows.Keys == checks.Keys + (set x | x in ids) && (forall id :: id in checks ==> rows[id] == checks[id])
    && forall k :: 0 <= k < |defs| ==> rows[ids[k]] == NewCheck(t, s, defs[k])
  }

  lemma AppliedRows(checks: Checks, rows: Checks, t: TemplateId, s: ServerId, defs: seq<Def>, ids: seq<CheckId>)
    requires Single(checks) && Applied(checks, rows, t, s, defs, ids)
    ensures Single(rows) <==> DistinctDefs(defs) && NoneYet(checks, t, s, defs)
  {
    if DistinctDefs(defs) && NoneYet(checks, t, s, defs) {
      forall t2, s2 ensures UniqueDefs(rows, t2, s2) {
        AppliedUnique(checks, rows, t, s, defs, ids, t2, s2);
      }
    } else if i, j :| 0 <= i < j < |defs| && defs[i].id != "" && defs[i].id == defs[j].id {
      NewRow(checks, rows, t, s, defs, ids, i);
      NewRow(checks, rows, t, s, defs, ids, j);
      assert !UniqueDefs(rows, t, s);
    } else {
      var i :| 0 <= i < |defs| && defs[i].id != "" && HasDef(checks, t, s, defs[i].id);
      var x :| x in checks && Ours(checks[x], t, s) && checks[x].def == defs[i].id;
      NewRow(checks, rows, t, s, defs, ids, i);
      assert rows[x] == checks[x];
      assert !UniqueDefs(rows, t, s);
    }
  }

  lemma NewRow(checks: Checks, rows: Checks, t: TemplateId, s: ServerId, defs: seq<Def>, ids: seq<CheckId>, i: nat)
    requires Applied(checks, rows, t, s, defs, ids) && i < |defs|
    ensures ids[i] in rows && ids[i] !in checks && rows[ids[i]].def == defs[i].id
    ensures defs[i].id != "" ==> Ours(rows[ids[i]], t, s)
  {
    hide TemplateValues;
    assert ids[i] in ids;
  }

  lemma AppliedUnique(checks: Checks, rows: Checks, t: TemplateId, s: ServerId, defs: seq<Def>, ids: seq<CheckId>, t2: TemplateId, s2: ServerId)
    requires Single(checks) && Applied(checks, rows, t, s, defs, ids) && DistinctDefs(defs) && NoneYet(checks, t, s, defs)
    ensures UniqueDefs(rows, t2, s2)
  {
    hide TemplateValues;
    assert UniqueDefs(checks, t2, s2);
    forall x, y | x in rows && y in rows && Ours(rows[x], t2, s2) && Ours(rows[y], t2, s2) && rows[x].def == rows[y].def
      ensures x == y
    {
      OldOrNew(checks, rows, t, s, defs, ids, x);
      OldOrNew(checks, rows, t, s, defs, ids, y);
      if x in checks && y !in checks {
        NewNamesDiffer(checks, rows, t, s, defs, ids, t2, s2, x, y);
      }
      if y in checks && x !in checks {
        NewNamesDiffer(checks, rows, t, s, defs, ids, t2, s2, y, x);
      }
      if x !in checks && y !in checks {
        var i :| 0 <= i < |ids| && ids[i] == x;
        var j :| 0 <= j < |ids| && ids[j] == y;
        assert defs[i].id == defs[j].id != "";
      }
    }
  }

  lemma NewNamesDiffer(checks: Checks, rows: Checks, t: TemplateId, s: ServerId, defs: seq<Def>, ids: seq<CheckId>,
                       t2: TemplateId, s2: ServerId, x: CheckId, y: CheckId)
    requires Applied(checks, rows, t, s, defs, ids) && NoneYet(checks, t, s, defs)
    requires x in checks && y in rows && y !in checks && Ours(rows[x], t2, s2) && Ours(rows[y], t2, s2)
    ensures rows[x].def != rows[y].def
  {
    hide TemplateValues;
    OldOrNew(checks, rows, t, s, defs, ids, y);
    var j :| 0 <= j < |ids| && ids[j] == y;
    assert rows[y] == NewCheck(t, s, defs[j]) && !HasDef(checks, t, s, defs[j].id);
  }

  lemma OldOrNew(checks: Checks, rows: Checks, t: TemplateId, s: ServerId, defs: seq<Def>, ids: seq<CheckId>, x: CheckId)
    requires Applied(checks, rows, t, s, defs, ids) && x in rows
    ensures x in checks || exists i :: 0 <= i < |ids| && ids[i] == x
  {
  }

  lemma SyncedFull(a: Checks, b: Checks, t: TemplateId, s: ServerId, defs: seq<Def>, tombs: set<Tombstone>, picks: map<string, CheckId>)
    requires Synced(a, b, t, s, defs, tombs, picks)
    ensures AllFull(b)
  {
  }

  /** Two servers with one check of a definition each: one moved to the other doubles it. */
  lemma MovedCheckClashes() returns (checks: Checks, id: CheckId, to: ServerId)
    ensures RowsOk(checks) && Single(checks) && id in checks
    ensures Clashes(checks, id, Edited(checks[id], Some(to), map[], None))
  {
    var def := Def("d", map[]);
    var here, there := NewCheck(0, 1, def), NewCheck(0, 2, def);
    checks, id, to := map[1 := here, 2 := there], 2, 1;
    NewIsValid(map[], 1, 0, 1, def);
    NewIsValid(map[1 := here], 2, 0, 2, def);
    assert checks == map[1 := here][2 := there];
    hide TemplateValues;
    var c := Edited(checks[id], Some(to), map[], None);
    assert c.template == Some(0) && c.server == 1 && c.def == "d";
    assert Ours(checks[1], 0, 1) && checks[1].def == "d";
  }
}
