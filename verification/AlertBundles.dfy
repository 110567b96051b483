/**
How claimed heartbeats reach the alert rules and the bell (send_bundle in
apps/monitoring/app/alert_bundle.py, send_to_rule and the bell functions in
apps/monitoring/app/alerter.py). What a channel answers is an argument.
*/
module AlertBundles {
  import opened Common
  import opened CheckEngine

  type RuleId = nat

  const BUNDLE_MIN := 3
  const HUB_MAX_IDS := 500

  datatype Severity = Info | Low | High        // info, warning, critical

  datatype Rule = Rule(id: RuleId, severity: Option<Severity>, server: Option<nat>, cooldown: Option<nat>)

  /** The last event of a check the bell took. */
  datatype Shown = Nothing | AllClear | Alarm(level: Severity)

  /** A claimed member; `before` is the status reported before, read as ok when there was none. */
  datatype Entry = Entry(id: CheckId, server: Option<nat>, severity: Severity, before: Status)

  datatype LogRow = LogRow(rule: RuleId, check: CheckId, before: Status, after: Status, at: Time, success: bool)

  /** One message to one rule. */
  datatype Send = Send(rule: RuleId, group: seq<Entry>)

  function Filter(s: seq<Entry>, p: Entry -> bool): (r: seq<Entry>)
    ensures forall m :: m in r <==> m in s && p(m)
    ensures |r| <= |s|
  {
    if s == [] then []
    else
      var rest := Filter(s[..|s| - 1], p);
      assert s == s[..|s| - 1] + [s[|s| - 1]];
      if p(s[|s| - 1]) then rest + [s[|s| - 1]] else rest
  }

  predicate Distinct(s: seq<Entry>) { forall i, j :: 0 <= i < j < |s| ==> s[i].id != s[j].id }

  // ----- Rules ---------------------------------------------------------------------------

  predicate RuleMatches(rule: Rule, m: Entry) {
    && (rule.severity.Some? ==> rule.severity.value == m.severity)
    && (rule.server.Some? ==> rule.server == m.server)
  }

  function Cooldown(rule: Rule): nat { if rule.cooldown.None? then 30 else rule.cooldown.value }

  predicate IsInCooldown(log: seq<LogRow>, rule: Rule, m: Entry, now: Time) {
    exists i :: 0 <= i < |log| && log[i].rule == rule.id && log[i].check == m.id && log[i].success && log[i].at >= now - Cooldown(rule)
  }

  predicate RuleApplies(log: seq<LogRow>, rule: Rule, m: Entry, recovery: bool, now: Time) {
    RuleMatches(rule, m) && (recovery || !IsInCooldown(log, rule, m, now))
  }

  /** The members a rule gets. */
  function Matched(log: seq<LogRow>, rule: Rule, members: seq<Entry>, recovery: bool, now: Time): (matched: seq<Entry>)
    ensures forall m :: m in matched <==> m in members && RuleApplies(log, rule, m, recovery, now)
  {
    Filter(members, m => RuleApplies(log, rule, m, recovery, now))
  }

  function RowsOf(rule: RuleId, group: seq<Entry>, after: Status, at: Time, success: bool): (rows: seq<LogRow>)
    ensures |rows| == |group|
    ensures forall i :: 0 <= i < |group| ==> rows[i] == LogRow(rule, group[i].id, group[i].before, after, at, success)
  {
    seq(|group|, i requires 0 <= i < |group| => LogRow(rule, group[i].id, group[i].before, after, at, success))
  }

  /** The messages of a rule: one for all from BUNDLE_MIN on, else one each. */
  function SendsOf(rule: RuleId, matched: seq<Entry>): (sends: seq<Send>)
    ensures |matched| >= BUNDLE_MIN ==> sends == [Send(rule, matched)]
    ensures |matched| < BUNDLE_MIN ==> |sends| == |matched| && forall i :: 0 <= i < |sends| ==> sends[i] == Send(rule, [matched[i]])
  {
    if |matched| >= BUNDLE_MIN then [Send(rule, matched)]
    else seq(|matched|, i requires 0 <= i < |matched| => Send(rule, [matched[i]]))
  }

  function Groups(sends: seq<Send>): seq<Entry> {
    if sends == [] then [] else Groups(sends[..|sends| - 1]) + sends[|sends| - 1].group
  }

  /** The log rows of a list of sends, with what the channel said to each. */
  function LogOf(sends: seq<Send>, after: Status, at: Time, outcome: Send -> bool): seq<LogRow> {
    if sends == [] then []
    else
      var last := sends[|sends| - 1];
      LogOf(sends[..|sends| - 1], after, at, outcome) + RowsOf(last.rule, last.group, after, at, outcome(last))
  }

  lemma {:induction false} GroupsOfSends(rule: RuleId, matched: seq<Entry>)
    ensures Groups(SendsOf(rule, matched)) == matched
  {
    var sends := SendsOf(rule, matched);
    if |matched| >= BUNDLE_MIN {
      assert sends[..0] == [];
      assert Groups(sends) == Groups([]) + matched;
    } else {
      SingleGroups(sends, matched);
    }
  }

  lemma {:induction false} SingleGroups(sends: seq<Send>, matched: seq<Entry>)
    requires |sends| == |matched| && forall i :: 0 <= i < |sends| ==> sends[i].group == [matched[i]]
    ensures Groups(sends) == matched
  {
    if sends != [] {
      SingleGroups(sends[..|sends| - 1], matched[..|matched| - 1]);
      assert matched == matched[..|matched| - 1] + [matched[|matched| - 1]];
    }
  }

  predicate DistinctRules(rules: seq<Rule>) { forall i, j :: 0 <= i < j < |rules| ==> rules[i].id != rules[j].id }

  /** What all rules get: each the members it applied to before the run. */
  function AllSends(log: seq<LogRow>, rules: seq<Rule>, members: seq<Entry>, recovery: bool, now: Time): seq<Send> {
    if rules == [] then []
    else
      var last := rules[|rules| - 1];
      AllSends(log, rules[..|rules| - 1], members, recovery, now)
        + SendsOf(last.id, Matched(log, last, members, recovery, now))
  }

  lemma {:induction false} LogOfAppend(a: seq<Send>, b: seq<Send>, after: Status, at: Time, outcome: Send -> bool)
    ensures LogOf(a + b, after, at, outcome) == LogOf(a, after, at, outcome) + LogOf(b, after, at, outcome)
  {
    if b == [] {
      assert a + b == a;
    } else {
      hide RowsOf;
      assert (a + b)[..|a + b| - 1] == a + b[..|b| - 1] && (a + b)[|a + b| - 1] == b[|b| - 1];
      LogOfAppend(a, b[..|b| - 1], after, at, outcome);
    }
  }

  /** Rows of other rules leave a rule's cooldowns as they were. */
  lemma OtherRulesDoNotCool(log: seq<LogRow>, more: seq<LogRow>, rule: Rule, m: Entry, recovery: bool, now: Time)
    requires forall i :: 0 <= i < |more| ==> more[i].rule != rule.id
    ensures RuleApplies(log + more, rule, m, recovery, now) == RuleApplies(log, rule, m, recovery, now)
  {
    if IsInCooldown(log, rule, m, now) {
      var i :| 0 <= i < |log| && log[i].rule == rule.id && log[i].check == m.id && log[i].success && log[i].at >= now - Cooldown(rule);
      assert (log + more)[i] == log[i];
    }
  }

  lemma {:induction false} FilterSame(s: seq<Entry>, p: Entry -> bool, q: Entry -> bool)
    requires forall m :: m in s ==> p(m) == q(m)
    ensures Filter(s, p) == Filter(s, q)
  {
    if s != [] {
      assert s == s[..|s| - 1] + [s[|s| - 1]];
      FilterSame(s[..|s| - 1], p, q);
    }
  }

  lemma {:induction false} RowsNameTheRules(log: seq<LogRow>, rules: seq<Rule>, members: seq<Entry>, recovery: bool, now: Time,
                                            after: Status, outcome: Send -> bool)
    ensures forall row :: row in LogOf(AllSends(log, rules, members, recovery, now), after, now, outcome) ==>
              exists i :: 0 <= i < |rules| && rules[i].id == row.rule
  {
    if rules != [] {
      var last := rules[|rules| - 1];
      var sends := SendsOf(last.id, Matched(log, last, members, recovery, now));
      RowsNameTheRules(log, rules[..|rules| - 1], members, recovery, now, after, outcome);
      LogOfAppend(AllSends(log, rules[..|rules| - 1], members, recovery, now), sends, after, now, outcome);
      RowsOfOneRule(sends, last.id, after, now, outcome);
      forall row | row in LogOf(AllSends(log, rules, members, recovery, now), after, now, outcome)
        ensures exists i :: 0 <= i < |rules| && rules[i].id == row.rule
      {
        if row in LogOf(AllSends(log, rules[..|rules| - 1], members, recovery, now), after, now, outcome) {
          var i :| 0 <= i < |rules| - 1 && rules[..|rules| - 1][i].id == row.rule;
          assert rules[i].id == row.rule;
        } else {
          assert rules[|rules| - 1].id == row.rule;
        }
      }
    }
  }

  lemma {:induction false} RowsOfOneRule(sends: seq<Send>, rule: RuleId, after: Status, at: Time, outcome: Send -> bool)
    requires forall i :: 0 <= i < |sends| ==> sends[i].rule == rule
    ensures forall row :: row in LogOf(sends, after, at, outcome) ==> row.rule == rule
  {
    if sends != [] {
      RowsOfOneRule(sends[..|sends| - 1], rule, after, at, outcome);
    }
  }

  /** The alert log as the sends of one run extend it. */
  class AlertLog {
    var rows: seq<LogRow>

    constructor (before: seq<LogRow>)
      ensures rows == before
    {
      rows := before;
    }

    /** send_to_rule: one message, a row per member. */
    method SendToRule(send: Send, after: Status, at: Time, success: bool)
      modifies this
      ensures rows == old(rows) + RowsOf(send.rule, send.group, after, at, success)
    {
      var i := 0;
      while i < |send.group|
        invariant 0 <= i <= |send.group|
        invariant rows == old(rows) + RowsOf(send.rule, send.group, after, at, success)[..i]
      {
        rows := rows + [LogRow(send.rule, send.group[i].id, send.group[i].before, after, at, success)];
        i := i + 1;
      }
    }

    /** One rule: its matched members, bundled or alone. */
    method SendRule(rule: Rule, members: seq<Entry>, after: Status, now: Time, outcome: Send -> bool)
      returns (sends: seq<Send>, matched: seq<Entry>)
      modifies this
      ensures matched == Matched(old(rows), rule, members, after.Ok?, now)
      ensures sends == SendsOf(rule.id, matched)
      ensures rows == old(rows) + LogOf(sends, after, now, outcome)
    {
      hide Matched, SendsOf, RowsOf, LogOf;
      matched := Matched(rows, rule, members, after.Ok?, now);
      sends := SendsOf(rule.id, matched);
      LogOfNothing(after, now, outcome);
      assert sends[..0] == [];
      var i := 0;
      while i < |sends|
        invariant 0 <= i <= |sends|
        invariant rows == old(rows) + LogOf(sends[..i], after, now, outcome)
      {
        LogOfOneMore(sends, i, after, now, outcome);
        SendToRule(sends[i], after, now, outcome(sends[i]));
        i := i + 1;
      }
      assert sends[..|sends|] == sends;
    }

    /** _send_rules: every rule gets what it applied to when the run began. */
    method SendRules(rules: seq<Rule>, members: seq<Entry>, after: Status, now: Time, outcome: Send -> bool)
      returns (sends: seq<Send>)
      requires DistinctRules(rules)
      modifies this
      ensures sends == AllSends(old(rows), rules, members, after.Ok?, now)
      ensures rows == old(rows) + LogOf(sends, after, now, outcome)
    {
      hide LogOf, Matched, SendsOf, DistinctRules;
      sends := [];
      assert LogOf(sends, after, now, outcome) == [] by { LogOfNothing(after, now, outcome); }
      var i := 0;
      while i < |rules|
        invariant 0 <= i <= |rules|
        invariant sends == AllSends(old(rows), rules[..i], members, after.Ok?, now)
        invariant rows == old(rows) + LogOf(sends, after, now, outcome)
      {
        ghost var was, sofar := rows, sends;
        var rule := rules[i];
        EarlierRulesOnly(old(rows), rules, i, members, now, after, outcome);
        var more, matched := SendRule(rule, members, after, now, outcome);
        SameMatches(old(rows), was, LogOf(sofar, after, now, outcome), rule, members, after.Ok?, now);
        LogOfAppend(sofar, more, after, now, outcome);
        assert rules[..i + 1][..i] == rules[..i];
        sends := sends + more;
        i := i + 1;
      }
      assert rules[..|rules|] == rules;
    }
  }

  lemma LogOfOneMore(sends: seq<Send>, i: nat, after: Status, at: Time, outcome: Send -> bool)
    requires i < |sends|
    ensures LogOf(sends[..i + 1], after, at, outcome)
         == LogOf(sends[..i], after, at, outcome) + RowsOf(sends[i].rule, sends[i].group, after, at, outcome(sends[i]))
  {
    hide RowsOf;
    assert sends[..i + 1][..i] == sends[..i];
  }

  lemma LogOfNothing(after: Status, now: Time, outcome: Send -> bool)
    ensures LogOf([], after, now, outcome) == []
  {
  }

  lemma EarlierRulesOnly(log: seq<LogRow>, rules: seq<Rule>, i: nat, members: seq<Entry>, now: Time, after: Status,
                         outcome: Send -> bool)
    requires DistinctRules(rules) && i < |rules|
    ensures forall row :: row in LogOf(AllSends(log, rules[..i], members, after.Ok?, now), after, now, outcome) ==>
              row.rule != rules[i].id
  {
    RowsNameTheRules(log, rules[..i], members, after.Ok?, now, after, outcome);
  }

  lemma SameMatches(log: seq<LogRow>, grown: seq<LogRow>, more: seq<LogRow>, rule: Rule, members: seq<Entry>, recovery: bool, now: Time)
    requires grown == log + more && forall row :: row in more ==> row.rule != rule.id
    ensures Matched(grown, rule, members, recovery, now) == Matched(log, rule, members, recovery, now)
  {
    forall m | m in members ensures RuleApplies(grown, rule, m, recovery, now) == RuleApplies(log, rule, m, recovery, now) {
      OtherRulesDoNotCool(log, more, rule, m, recovery, now);
    }
    FilterSame(members, m => RuleApplies(grown, rule, m, recovery, now), m => RuleApplies(log, rule, m, recovery, now));
  }

  // ----- Each rule gets each of its members once -----------------------------------------

  function CountRows(rows: seq<LogRow>, rule: RuleId, check: CheckId): nat {
    if rows == [] then 0
    else
      var last := rows[|rows| - 1];
      CountRows(rows[..|rows| - 1], rule, check) + (if last.rule == rule && last.check == check then 1 else 0)
  }

  function CountIn(s: seq<Entry>, check: CheckId): nat {
    if s == [] then 0 else CountIn(s[..|s| - 1], check) + (if s[|s| - 1].id == check then 1 else 0)
  }

  lemma {:induction false} CountRowsAppend(a: seq<LogRow>, b: seq<LogRow>, rule: RuleId, check: CheckId)
    ensures CountRows(a + b, rule, check) == CountRows(a, rule, check) + CountRows(b, rule, check)
  {
    if b == [] {
      assert a + b == a;
    } else {
      assert (a + b)[..|a + b| - 1] == a + b[..|b| - 1];
      CountRowsAppend(a, b[..|b| - 1], rule, check);
    }
  }

  lemma {:induction false} CountInAppend(a: seq<Entry>, b: seq<Entry>, check: CheckId)
    ensures CountIn(a + b, check) == CountIn(a, check) + CountIn(b, check)
  {
    if b == [] {
      assert a + b == a;
    } else {
      assert (a + b)[..|a + b| - 1] == a + b[..|b| - 1];
      CountInAppend(a, b[..|b| - 1], check);
    }
  }

  lemma {:induction false} CountRowsOf(rule: RuleId, group: seq<Entry>, after: Status, at: Time, success: bool, r: RuleId, c: CheckId)
    ensures CountRows(RowsOf(rule, group, after, at, success), r, c) == if r == rule then CountIn(group, c) else 0
  {
    if group != [] {
      var rows := RowsOf(rule, group, after, at, success);
      assert rows[..|rows| - 1] == RowsOf(rule, group[..|group| - 1], after, at, success);
      CountRowsOf(rule, group[..|group| - 1], after, at, success, r, c);
    }
  }

  lemma {:induction false} CountLogOfRule(sends: seq<Send>, rule: RuleId, after: Status, at: Time, outcome: Send -> bool, r: RuleId, c: CheckId)
    requires forall i :: 0 <= i < |sends| ==> sends[i].rule == rule
    ensures CountRows(LogOf(sends, after, at, outcome), r, c) == if r == rule then CountIn(Groups(sends), c) else 0
  {
    if sends != [] {
      var last := sends[|sends| - 1];
      CountLogOfRule(sends[..|sends| - 1], rule, after, at, outcome, r, c);
      CountRowsAppend(LogOf(sends[..|sends| - 1], after, at, outcome), RowsOf(last.rule, last.group, after, at, outcome(last)), r, c);
      CountRowsOf(last.rule, last.group, after, at, outcome(last), r, c);
      CountInAppend(Groups(sends[..|sends| - 1]), last.group, c);
    }
  }

  lemma {:induction false} CountFiltered(s: seq<Entry>, p: Entry -> bool, check: CheckId)
    requires Distinct(s)
    ensures (forall m :: m in s && m.id == check ==> CountIn(Filter(s, p), check) == if p(m) then 1 else 0)
    ensures (forall m :: m in s ==> m.id != check) ==> CountIn(Filter(s, p), check) == 0
  {
    if s != [] {
      var last, rest := s[|s| - 1], s[..|s| - 1];
      assert s == rest + [last];
      CountFiltered(rest, p, check);
      FilterLast(s, p, check);
      assert forall m :: m in rest ==> m.id != last.id;
      hide Filter, CountIn, Distinct;
    }
  }

  lemma FilterLast(s: seq<Entry>, p: Entry -> bool, check: CheckId)
    requires s != []
    ensures var last, rest := s[|s| - 1], s[..|s| - 1];
            CountIn(Filter(s, p), check) == CountIn(Filter(rest, p), check) + if p(last) && last.id == check then 1 else 0
  {
    var last, rest := s[|s| - 1], s[..|s| - 1];
    CountInAppend(Filter(rest, p), [last], check);
    assert CountIn([last], check) == if last.id == check then 1 else 0 by { assert [last][..0] == []; }
    hide CountIn;
  }

  function RowsCount(log: seq<LogRow>, rules: seq<Rule>, members: seq<Entry>, now: Time, after: Status,
                     outcome: Send -> bool, r: RuleId, c: CheckId): nat
  {
    CountRows(LogOf(AllSends(log, rules, members, after.Ok?, now), after, now, outcome), r, c)
  }

  /** One rule more adds its matched members. */
  lemma CountStep(log: seq<LogRow>, rules: seq<Rule>, members: seq<Entry>, now: Time, after: Status,
                  outcome: Send -> bool, r: RuleId, c: CheckId)
    requires rules != []
    ensures var last := rules[|rules| - 1];
            RowsCount(log, rules, members, now, after, outcome, r, c)
              == RowsCount(log, rules[..|rules| - 1], members, now, after, outcome, r, c)
               + (if r == last.id then CountIn(Matched(log, last, members, after.Ok?, now), c) else 0)
  {
    var last, rest := rules[|rules| - 1], rules[..|rules| - 1];
    var matched := Matched(log, last, members, after.Ok?, now);
    var sends, earlier := SendsOf(last.id, matched), AllSends(log, rest, members, after.Ok?, now);
    CountLogOfRule(sends, last.id, after, now, outcome, r, c);
    GroupsOfSends(last.id, matched);
    hide LogOf, Groups, CountIn, CountRows, SendsOf, Matched;
    LogOfAppend(earlier, sends, after, now, outcome);
    CountRowsAppend(LogOf(earlier, after, now, outcome), LogOf(sends, after, now, outcome), r, c);
  }

  lemma {:induction false} CountNone(log: seq<LogRow>, rules: seq<Rule>, members: seq<Entry>, now: Time, after: Status,
                                     outcome: Send -> bool, r: RuleId, c: CheckId)
    requires forall i :: 0 <= i < |rules| ==> rules[i].id != r
    ensures RowsCount(log, rules, members, now, after, outcome, r, c) == 0
  {
    if rules != [] {
      CountStep(log, rules, members, now, after, outcome, r, c);
      CountNone(log, rules[..|rules| - 1], members, now, after, outcome, r, c);
    }
  }

  /** How often a rule's sends name a check: as often as its matched members do. */
  lemma {:induction false} CountAll(log: seq<LogRow>, rules: seq<Rule>, members: seq<Entry>, now: Time, after: Status,
                                    outcome: Send -> bool, i: nat, c: CheckId)
    requires DistinctRules(rules) && i < |rules|
    ensures RowsCount(log, rules, members, now, after, outcome, rules[i].id, c)
         == CountIn(Matched(log, rules[i], members, after.Ok?, now), c)
  {
    hide RowsCount, CountIn, Matched;
    CountStep(log, rules, members, now, after, outcome, rules[i].id, c);
    if i == |rules| - 1 {
      CountNone(log, rules[..i], members, now, after, outcome, rules[i].id, c);
    } else {
      CountAll(log, rules[..|rules| - 1], members, now, after, outcome, i, c);
    }
  }

  /** What a rule asks of a check: no severity or the check's, no server or the check's. */
  predicate Asks(rule: Rule, m: Entry) { rule.severity in {None, Some(m.severity)} && rule.server in {None, m.server} }

  function Span(rule: Rule): int { if rule.cooldown.Some? then rule.cooldown.value else 30 }

  /** The rule got word of the check within its cooldown, thirty minutes where it names none. */
  ghost predicate Cooling(log: seq<LogRow>, rule: Rule, check: CheckId, now: Time) {
    exists row :: row in log && row.rule == rule.id && row.check == check && row.success
                  && now <= row.at + Span(rule)
  }

  lemma CoolingIsCooldown(log: seq<LogRow>, rule: Rule, m: Entry, now: Time)
    ensures IsInCooldown(log, rule, m, now) <==> Cooling(log, rule, m.id, now)
  {
    if IsInCooldown(log, rule, m, now) {
      var i :| 0 <= i < |log| && log[i].rule == rule.id && log[i].check == m.id && log[i].success && log[i].at >= now - Cooldown(rule);
      assert log[i] in log;
    }
    if Cooling(log, rule, m.id, now) {
      var row :| row in log && row.rule == rule.id && row.check == m.id && row.success
                 && now <= row.at + Span(rule);
      var i :| 0 <= i < |log| && log[i] == row;
    }
  }

  lemma AppliesExactly(log: seq<LogRow>, rule: Rule, m: Entry, recovery: bool, now: Time)
    ensures RuleApplies(log, rule, m, recovery, now) <==> Asks(rule, m) && (recovery || !Cooling(log, rule, m.id, now))
  {
    CoolingIsCooldown(log, rule, m, now);
    hide IsInCooldown, Cooling;
    assert RuleMatches(rule, m) <==> Asks(rule, m);
  }

  /**
  However many rules and members: each rule is told of each member it asks for exactly
  once, in one bundle or alone, with one log row, and of no other member; an alarm it got
  word of within its cooldown is left out, an all-clear never is.
  */
  lemma EachRuleEachMemberOnce(log: seq<LogRow>, rules: seq<Rule>, members: seq<Entry>, now: Time, after: Status,
                               outcome: Send -> bool, rule: Rule, m: Entry)
    requires DistinctRules(rules) && Distinct(members) && rule in rules && m in members
    ensures CountRows(LogOf(AllSends(log, rules, members, after.Ok?, now), after, now, outcome), rule.id, m.id)
         == if Asks(rule, m) && (after.Ok? || !Cooling(log, rule, m.id, now)) then 1 else 0
  {
    var i :| 0 <= i < |rules| && rules[i] == rule;
    CountAll(log, rules, members, now, after, outcome, i, m.id);
    CountFiltered(members, x => RuleApplies(log, rule, x, after.Ok?, now), m.id);
    AppliesExactly(log, rule, m, after.Ok?, now);
  }

  /** The log after a run. */
  function After(log: seq<LogRow>, rules: seq<Rule>, members: seq<Entry>, now: Time, after: Status, outcome: Send -> bool): seq<LogRow> {
    log + LogOf(AllSends(log, rules, members, after.Ok?, now), after, now, outcome)
  }

  lemma {:induction false} CountedIsThere(rows: seq<LogRow>, rule: RuleId, check: CheckId) returns (row: LogRow)
    requires CountRows(rows, rule, check) > 0
    ensures row in rows && row.rule == rule && row.check == check
  {
    var last := rows[|rows| - 1];
    if last.rule == rule && last.check == check {
      row := last;
    } else {
      row := CountedIsThere(rows[..|rows| - 1], rule, check);
    }
  }

  /** What the rule's channel says to every message of it. */
  ghost predicate TookAll(rule: Rule, outcome: Send -> bool, ok: bool) { forall send: Send :: send.rule == rule.id ==> outcome(send) == ok }

  lemma {:induction false} RowsTell(sends: seq<Send>, after: Status, at: Time, outcome: Send -> bool, rule: Rule, ok: bool)
    requires TookAll(rule, outcome, ok)
    ensures forall row :: row in LogOf(sends, after, at, outcome) && row.rule == rule.id ==> row.at == at && row.success == ok
  {
    if sends != [] {
      RowsTell(sends[..|sends| - 1], after, at, outcome, rule, ok);
    }
  }

  /** A run whose messages a rule's channel took leaves the rule cooling, one it refused does not. */
  lemma CoolsAfter(log: seq<LogRow>, rules: seq<Rule>, members: seq<Entry>, now: Time, after: Status, outcome: Send -> bool,
                   rule: Rule, m: Entry, later: Time)
    requires DistinctRules(rules) && Distinct(members) && rule in rules && m in members
    requires now <= later && Asks(rule, m) && !Cooling(log, rule, m.id, now)
    ensures TookAll(rule, outcome, true) && later <= now + Span(rule) ==>
              Cooling(After(log, rules, members, now, after, outcome), rule, m.id, later)
    ensures TookAll(rule, outcome, false) ==> !Cooling(After(log, rules, members, now, after, outcome), rule, m.id, later)
  {
    var sends := AllSends(log, rules, members, after.Ok?, now);
    var rows := LogOf(sends, after, now, outcome);
    EachRuleEachMemberOnce(log, rules, members, now, after, outcome, rule, m);
    var row := CountedIsThere(rows, rule.id, m.id);
    hide AllSends, LogOf, CountRows, Distinct, DistinctRules, Asks, TookAll;
    assert row in log + rows;
    if TookAll(rule, outcome, true) {
      RowsTell(sends, after, now, outcome, rule, true);
    }
    if TookAll(rule, outcome, false) {
      RowsTell(sends, after, now, outcome, rule, false);
    }
  }

  /**
  Two runs: a rule that asks for the check and whose channel took the first is not told of
  an alarm of it again until its cooldown is over; one whose channel refused is told again.
  */
  lemma ToldThenQuiet(log: seq<LogRow>, rules: seq<Rule>, members: seq<Entry>, now: Time, after: Status, outcome: Send -> bool,
                      rule: Rule, m: Entry, next: seq<Entry>, later: Time, status: Status, result: Send -> bool)
    requires DistinctRules(rules) && Distinct(members) && rule in rules && m in members && Distinct(next) && m in next
    requires now <= later && Asks(rule, m) && !Cooling(log, rule, m.id, now)
    ensures var first := After(log, rules, members, now, after, outcome);
            var again := CountRows(LogOf(AllSends(first, rules, next, status.Ok?, later), status, later, result), rule.id, m.id);
            && (TookAll(rule, outcome, true) && !status.Ok? && later <= now + Span(rule) ==> again == 0)
            && (TookAll(rule, outcome, false) || status.Ok? ==> again == 1)
  {
    hide AllSends, LogOf, CountRows, Distinct, DistinctRules, Cooling, After, TookAll;
    CoolsAfter(log, rules, members, now, after, outcome, rule, m, later);
    EachRuleEachMemberOnce(After(log, rules, members, now, after, outcome), rules, next, later, status, result, rule, m);
  }
}
