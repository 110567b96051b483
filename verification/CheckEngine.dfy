/**
Damping, the recovery hold and the sent-state decision of one check
(apps/monitoring/app/check_engine.py, resolve_notification in apps/monitoring/app/alerter.py).
*/
module CheckEngine {
  import opened Common

  datatype Status = Ok | Warning | Critical | Unknown | Pending

  datatype Decision = Notify | SilentAck | Skip

  /** consecutive_fails and consecutive_oks of a check. */
  datatype Limits = Limits(fails: int, oks: int)

  /** monitor_states. */
  datatype StateRow = StateRow(status: Status, notified: Option<Status>, fail: nat, ok: nat)

  const NewRow := StateRow(Pending, None, 0, 0)

  predicate Problem(s: Status) { s.Warning? || s.Critical? }

  predicate ReportedProblem(notified: Option<Status>) { notified.Some? && Problem(notified.value) }

  function NextFailCount(result: Status, before: nat): nat { if result.Ok? then 0 else before + 1 }

  function NextOkCount(result: Status, before: nat): nat { if result.Ok? then before + 1 else 0 }

  predicate IsSuppressed(result: Status, fails: nat, limit: int) { !result.Ok? && fails < limit }

  function EffectiveStatus(result: Status, fails: nat, limit: int, before: Status): Status {
    if IsSuppressed(result, fails, limit) then
      if !before.Pending? then before else if result.Unknown? then Unknown else Status.Ok
    else result
  }

  predicate HoldsRecovery(result: Status, oks: nat, limit: int, before: Status, notified: Option<Status>) {
    result.Ok? && ReportedProblem(notified) && (Problem(before) || before.Unknown?) && oks < limit
  }

  function ResolveNotification(notified: Option<Status>, current: Status): Decision {
    if notified == Some(current) || current.Unknown? then Skip
    else if current.Ok? && !ReportedProblem(notified) then SilentAck
    else Notify
  }

  /** The row after one result, and whether its check is dispatched. */
  function Evaluated(limits: Limits, row: StateRow, result: Status): (StateRow, Decision) {
    var fail, ok := NextFailCount(result, row.fail), NextOkCount(result, row.ok);
    var status := if HoldsRecovery(result, ok, limits.oks, row.status, row.notified) then row.notified.value
                  else EffectiveStatus(result, fail, limits.fails, row.status);
    var decision := ResolveNotification(row.notified, status);
    (StateRow(status, if decision.SilentAck? then Some(status) else row.notified, fail, ok), decision)
  }

  /** The row after a dispatch looked at it, and the status it reports. */
  function Claimed(row: StateRow, muted: bool): (StateRow, Option<Status>) {
    match ResolveNotification(row.notified, row.status)
    case Skip => (row, None)
    case SilentAck => (row.(notified := Some(row.status)), None)
    case Notify => if muted then (row, None) else (row.(notified := Some(row.status)), Some(row.status))
  }

  /** monitor_states as the two result paths and the dispatchers change it under the row lock. */
  class MonitorState {
    var status: Status
    var notified: Option<Status>
    var failCount: nat
    var okCount: nat

    ghost function Row(): StateRow reads this { StateRow(status, notified, failCount, okCount) }

    constructor ()
      ensures Row() == NewRow
    {
      status, notified, failCount, okCount := Pending, None, 0, 0;
    }

    /** apply_result with _damp and _write_state. */
    method ApplyResult(limits: Limits, result: Status) returns (before: Status, effective: Status, decision: Decision)
      modifies this
      ensures before == old(status) && effective == status
      ensures (Row(), decision) == Evaluated(limits, old(Row()), result)
    {
      before := status;
      var fails := NextFailCount(result, failCount);
      var oks := NextOkCount(result, okCount);
      effective := EffectiveStatus(result, fails, limits.fails, before);
      if HoldsRecovery(result, oks, limits.oks, before, notified) {
        effective := notified.value;
      }
      if effective != status {
        status := effective;
      }
      failCount, okCount := fails, oks;
      decision := ResolveNotification(notified, effective);
      if decision.SilentAck? {
        notified := Some(effective);
      }
    }

    /** _claim_transition: what is reported is the status under the lock. */
    method Claim(muted: bool) returns (report: Option<Status>)
      modifies this`notified
      ensures (Row(), report) == Claimed(old(Row()), muted)
      ensures report.Some? ==> report.value == status && notified == report && old(notified) != report
    {
      report := None;
      var decision := ResolveNotification(notified, status);
      if decision.SilentAck? {
        notified := Some(status);
      } else if decision.Notify? && !muted {
        notified := Some(status);
        report := Some(status);
      }
    }
  }
}
