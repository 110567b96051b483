/**
One template check: what its definition says, what the user changed, and what a sync
writes (apps/monitoring/app/template_sync.py). Definitions have their variables
substituted already; a configuration is compared as a document.
*/
module TemplateChecks {
  datatype Field = Name | Description | CheckType | Config | Enabled | Interval | Severity | Fails | Oks

  datatype Value = Text(text: string) | Num(num: int) | Flag(on: bool) | Doc(doc: map<string, string>) | Absent

  type Values = map<Field, Value>

  /** TEMPLATE_CHECK_FIELDS. */
  const FIELDS: seq<Field> := [Name, Description, CheckType, Config, Enabled, Interval, Severity, Fails, Oks]

  lemma EveryField(f: Field)
    ensures f in FIELDS
  {
    match f {
      case Name => assert FIELDS[0] == f;
      case Description => assert FIELDS[1] == f;
      case CheckType => assert FIELDS[2] == f;
      case Config => assert FIELDS[3] == f;
      case Enabled => assert FIELDS[4] == f;
      case Interval => assert FIELDS[5] == f;
      case Severity => assert FIELDS[6] == f;
      case Fails => assert FIELDS[7] == f;
      case Oks => assert FIELDS[8] == f;
    }
  }

  lemma AllFields()
    ensures forall f: Field :: f in FIELDS
  {
    forall f: Field ensures f in FIELDS { EveryField(f); }
  }

  predicate Full(v: Values) { forall f: Field :: f in v }

  /** A definition: some fields, the rest by default. */
  datatype Def = Def(id: string, given: Values)

  function Default(f: Field): Value {
    match f
    case Name => Text("")
    case Description => Absent
    case CheckType => Text("ping")
    case Config => Doc(map[])
    case Enabled => Flag(true)
    case Interval => Text("5m")
    case Severity => Text("critical")
    case Fails => Num(3)
    case Oks => Num(2)
  }

  /** _template_check_values: what a new check gets, and what an edit is compared with. */
  function TemplateValue(def: Def, f: Field): Value { if f in def.given then def.given[f] else Default(f) }

  function TemplateValues(def: Def): (v: Values)
    ensures Full(v) && forall f: Field :: v[f] == TemplateValue(def, f)
  {
    AllFields();
    map f | f in FIELDS :: TemplateValue(def, f)
  }

  /** What a sync would write: where the definition is silent, some fields stay as they are. */
  function SyncValue(def: Def, v: Values, f: Field): Value
    requires Full(v)
  {
    if f in def.given then def.given[f]
    else if f.Name? || f.CheckType? || f.Interval? || f.Severity? || f.Fails? then v[f]
    else Default(f)
  }

  /** Whoever changed the config owns the type too. */
  function Kept(overridden: set<Field>): set<Field> {
    if Config in overridden then overridden + {CheckType} else overridden
  }

  function Merge(def: Def, v: Values, overridden: set<Field>): (m: Values)
    requires Full(v)
    ensures Full(m)
    ensures forall f :: f in Kept(overridden) ==> m[f] == v[f]
    ensures forall f: Field :: f !in Kept(overridden) ==> m[f] == SyncValue(def, v, f)
  {
    map f | f in v.Keys :: if f in Kept(overridden) then v[f] else SyncValue(def, v, f)
  }

  /** The loop over the template's values in _sync_checks_for_server. */
  method WriteFields(def: Def, v: Values, overridden: set<Field>) returns (m: Values)
    requires Full(v)
    ensures Full(m) && m == Merge(def, v, overridden)
  {
    hide SyncValue;
    var kept := overridden;
    if Config in kept {
      kept := kept + {CheckType};
    }
    m := v;
    for i := 0 to |FIELDS|
      invariant Full(m)
      invariant forall f: Field :: m[f] == if f in FIELDS[..i] && f !in kept then SyncValue(def, v, f) else v[f]
    {
      if FIELDS[i] !in kept {
        m := m[FIELDS[i] := SyncValue(def, v, FIELDS[i])];
      }
    }
    AllFields();
    assert FIELDS[..|FIELDS|] == FIELDS;
    assert m == Merge(def, v, overridden);
  }

  /** mark_overrides: the loop over the fields an edit names. */
  method MarkFields(template: Values, overridden: set<Field>, changed: Values) returns (fields: set<Field>)
    requires Full(template)
    ensures fields == Marked(template, overridden, changed)
  {
    fields := overridden;
    for i := 0 to |FIELDS|
      invariant forall f: Field :: f in fields <==>
                  if f in FIELDS[..i] && f in changed then changed[f] != template[f] else f in overridden
    {
      var f := FIELDS[i];
      if f in changed {
        if changed[f] == template[f] {
          fields := fields - {f};
        } else {
          fields := fields + {f};
        }
      }
    }
    AllFields();
    assert FIELDS[..|FIELDS|] == FIELDS;
    if CheckType in fields {
      fields := fields + {Config};
    }
  }

  function Marked(template: Values, overridden: set<Field>, changed: Values): (fields: set<Field>)
    requires Full(template)
    ensures CheckType in fields ==> Config in fields
    ensures forall f :: f in changed && changed[f] != template[f] ==> f in fields
    ensures forall f :: f in changed && changed[f] == template[f] && f in fields ==> f == Config && CheckType in fields
    ensures forall f :: f !in changed && f in overridden ==> f in fields
    ensures forall f :: f !in changed && f in fields ==> f in overridden || (f == Config && CheckType in fields)
  {
    var own := (set f | f in changed && changed[f] != template[f]) + (set f | f in overridden && f !in changed);
    if CheckType in own then own + {Config} else own
  }

  // ----- A sync --------------------------------------------------------------------------

  /** Syncing twice is syncing once. */
  lemma MergeIdempotent(def: Def, v: Values, overridden: set<Field>)
    requires Full(v)
    ensures Merge(def, Merge(def, v, overridden), overridden) == Merge(def, v, overridden)
  {
    var m := Merge(def, v, overridden);
    forall f: Field ensures Merge(def, m, overridden)[f] == m[f] {
    }
  }

  /** A check just created is what a sync of it would write. */
  lemma NewIsSynced(def: Def)
    ensures Merge(def, TemplateValues(def), {}) == TemplateValues(def)
  {
    var m := Merge(def, TemplateValues(def), {});
    forall f: Field ensures m[f] == TemplateValues(def)[f] {
    }
  }

  /** A type and a config are both the user's, or both what the template writes. */
  lemma PairNeverMixed(def: Def, v: Values, overridden: set<Field>)
    requires Full(v) && (CheckType in overridden ==> Config in overridden)
    ensures var m := Merge(def, v, overridden);
            || (m[CheckType] == v[CheckType] && m[Config] == v[Config])
            || (m[CheckType] == SyncValue(def, v, CheckType) && m[Config] == SyncValue(def, v, Config))
    ensures CheckType in Kept(overridden) <==> Config in Kept(overridden)
  {
  }

  /** Without that tie, which mark_overrides keeps, a user's type meets the template's config. */
  lemma UntiedPairIsMixed(def: Def, v: Values, overridden: set<Field>)
    requires Full(v) && CheckType in overridden && Config !in overridden
    requires SyncValue(def, v, CheckType) != v[CheckType] && SyncValue(def, v, Config) != v[Config]
    ensures var m := Merge(def, v, overridden);
            m[CheckType] == v[CheckType] != SyncValue(def, v, CheckType) && m[Config] == SyncValue(def, v, Config) != v[Config]
  {
  }

  // ----- The baseline --------------------------------------------------------------------

  /** record_override_baseline for a check that can be compared: every field that differs. */
  function Baseline(def: Def, v: Values, overridden: set<Field>): (fields: set<Field>)
    requires Full(v)
    ensures forall f: Field :: v[f] != TemplateValue(def, f) ==> f in fields
    ensures CheckType in fields ==> Config in fields
  {
    Marked(TemplateValues(def), overridden, v)
  }

  /** After the baseline a sync from the unchanged template changes nothing the user sees. */
  lemma BaselineThenSync(def: Def, v: Values, overridden: set<Field>)
    requires Full(v)
    ensures Merge(def, v, Baseline(def, v, overridden)) == v
  {
    var fields := Baseline(def, v, overridden);
    var m := Merge(def, v, fields);
    forall f: Field ensures m[f] == v[f] {
      if f !in Kept(fields) {
        assert v[f] == TemplateValue(def, f);
      }
    }
  }

  // ----- Any number of template changes and edits ----------------------------------------

  datatype Entry = Entry(def: Def, values: Values, overridden: set<Field>)

  datatype Change = Template(def: Def) | Edit(changed: Values)

  function Changed(e: Entry, c: Change): (r: Entry)
    requires Full(e.values)
    ensures Full(r.values)
  {
    match c
    case Template(def) => Entry(def, Merge(def, e.values, e.overridden), e.overridden)
    case Edit(changed) => Entry(e.def, e.values + changed, Marked(TemplateValues(e.def), e.overridden, changed))
  }

  function ChangedAll(e: Entry, cs: seq<Change>): (r: Entry)
    requires Full(e.values)
    ensures Full(r.values)
    decreases |cs|
  {
    if cs == [] then e else ChangedAll(Changed(e, cs[0]), cs[1..])
  }

  /** No edit names the field. */
  predicate LeftAlone(f: Field, cs: seq<Change>) {
    forall i :: 0 <= i < |cs| && cs[i].Edit? ==> f !in cs[i].changed
  }

  lemma LeftAloneTail(f: Field, cs: seq<Change>)
    requires LeftAlone(f, cs) && cs != []
    ensures LeftAlone(f, cs[1..])
  {
    forall i | 0 <= i < |cs[1..]| && cs[1..][i].Edit? ensures f !in cs[1..][i].changed {
      assert cs[1..][i] == cs[i + 1];
    }
  }

  /** A marked field keeps its value and its mark through every later template change and edit of other fields. */
  lemma {:induction false} MarkedSurvives(e: Entry, f: Field, cs: seq<Change>)
    requires Full(e.values) && f in e.overridden && LeftAlone(f, cs)
    ensures ChangedAll(e, cs).values[f] == e.values[f] && f in ChangedAll(e, cs).overridden
    decreases |cs|
  {
    if cs != [] {
      LeftAloneTail(f, cs);
      MarkedSurvives(Changed(e, cs[0]), f, cs[1..]);
    }
  }

  /** An edit that differs from the template marks, whatever came before, and then survives. */
  lemma EditSurvives(e: Entry, changed: Values, f: Field, cs: seq<Change>)
    requires Full(e.values) && f in changed && changed[f] != TemplateValue(e.def, f) && LeftAlone(f, cs)
    ensures ChangedAll(Changed(e, Edit(changed)), cs).values[f] == changed[f]
  {
    MarkedSurvives(Changed(e, Edit(changed)), f, cs);
  }

  /** Set back to the template's value, a field follows the template again, unless its pair is still the user's. */
  lemma SetBackFollows(e: Entry, changed: Values, f: Field, next: Def)
    requires Full(e.values) && f in changed && changed[f] == TemplateValue(e.def, f) && f in next.given
    ensures var back := Changed(e, Edit(changed));
            (f == Config && CheckType in back.overridden) || (f == CheckType && Config in back.overridden)
            || Changed(back, Template(next)).values[f] == next.given[f]
  {
  }

  /** Type and config stay tied through every run. */
  lemma {:induction false} TiedThroughout(e: Entry, cs: seq<Change>)
    requires Full(e.values) && (CheckType in e.overridden ==> Config in e.overridden)
    ensures CheckType in ChangedAll(e, cs).overridden ==> Config in ChangedAll(e, cs).overridden
    decreases |cs|
  {
    if cs != [] {
      TiedThroughout(Changed(e, cs[0]), cs[1..]);
    }
  }

  // ----- What a field nobody changed shows -----------------------------------------------

  /** The fields whose marks decide about a field: its own, and its partner's for type and config. */
  function Pair(f: Field): set<Field> { if f == CheckType || f == Config then {CheckType, Config} else {f} }

  /** Nobody changed the field: no mark on it or its partner, and no edit of either. */
  ghost predicate Untouched(e: Entry, f: Field, cs: seq<Change>) {
    forall g :: g in Pair(f) ==> g !in e.overridden && LeftAlone(g, cs)
  }

  /** The newest of the definitions a run brings that names the field. */
  ghost predicate NewestNaming(f: Field, cs: seq<Change>, i: int) {
    && 0 <= i < |cs| && cs[i].Template? && f in cs[i].def.given
    && forall j :: i < j < |cs| && cs[j].Template? ==> f !in cs[j].def.given
  }

  lemma NewestInTail(f: Field, cs: seq<Change>, i: int)
    requires cs != [] && 0 <= i < |cs|
    ensures i > 0 ==> NewestNaming(f, cs[1..], i - 1) == NewestNaming(f, cs, i)
    ensures i == 0 && NewestNaming(f, cs, 0) ==> !exists j :: NewestNaming(f, cs[1..], j)
  {
    assert forall j :: 0 <= j < |cs| - 1 ==> cs[1..][j] == cs[j + 1];
    assert forall j :: 1 <= j < |cs| ==> cs[j] == cs[1..][j - 1];
  }

  /**
  A field nobody changed, after any run: name, type, interval, severity and the fails
  needed are what the newest definition naming them says, through every definition
  that leaves them out, and as they were if none does.
  */
  lemma {:induction false} UntouchedKeepsNewest(e: Entry, f: Field, cs: seq<Change>, i: int)
    requires Full(e.values) && Untouched(e, f, cs)
    requires f in {Name, CheckType, Interval, Severity, Fails}
    ensures NewestNaming(f, cs, i) ==> ChangedAll(e, cs).values[f] == cs[i].def.given[f]
    ensures (forall j :: 0 <= j < |cs| && cs[j].Template? ==> f !in cs[j].def.given) ==> ChangedAll(e, cs).values[f] == e.values[f]
    decreases |cs|
  {
    if cs != [] {
      var next := Changed(e, cs[0]);
      UntouchedTail(e, f, cs);
      assert forall j :: 0 <= j < |cs| - 1 ==> cs[1..][j] == cs[j + 1];
      UntouchedKeepsNewest(next, f, cs[1..], i - 1);
      if NewestNaming(f, cs, i) {
        NewestInTail(f, cs, i);
        if i == 0 {
          assert next.values[f] == cs[0].def.given[f];
        }
      }
    }
  }

  /**
  The description, the config, the switch and the oks needed are what the last
  definition says; where it leaves them out they go back: no description, an empty
  config, switched on, two.
  */
  lemma UntouchedGoesBack(e: Entry, f: Field, cs: seq<Change>, def: Def)
    requires Full(e.values) && Untouched(e, f, cs + [Template(def)])
    requires f in {Description, Config, Enabled, Oks}
    ensures var shown := ChangedAll(e, cs + [Template(def)]).values[f];
            if f in def.given then shown == def.given[f]
            else match f
              case Description => shown == Absent
              case Config => shown == Doc(map[])
              case Enabled => shown == Flag(true)
              case _ => shown == Num(2)
  {
    var before := ChangedAll(e, cs);
    ChangedAppend(e, cs, Template(def));
    UntouchedFront(e, f, cs, Template(def));
    UntouchedStays(e, f, cs);
  }

  /** A check created from a definition: where it names nothing, these. */
  lemma CreatedBySilence(def: Def)
    ensures var v := TemplateValues(def);
            && (Name !in def.given ==> v[Name] == Text(""))
            && (Description !in def.given ==> v[Description] == Absent)
            && (CheckType !in def.given ==> v[CheckType] == Text("ping"))
            && (Config !in def.given ==> v[Config] == Doc(map[]))
            && (Enabled !in def.given ==> v[Enabled] == Flag(true))
            && (Interval !in def.given ==> v[Interval] == Text("5m"))
            && (Severity !in def.given ==> v[Severity] == Text("critical"))
            && (Fails !in def.given ==> v[Fails] == Num(3))
            && (Oks !in def.given ==> v[Oks] == Num(2))
            && (forall f :: f in def.given ==> v[f] == def.given[f])
  {
  }

  lemma UntouchedTail(e: Entry, f: Field, cs: seq<Change>)
    requires Full(e.values) && Untouched(e, f, cs) && cs != []
    ensures Untouched(Changed(e, cs[0]), f, cs[1..])
    ensures f !in Kept(e.overridden)
    ensures cs[0].Edit? ==> Changed(e, cs[0]).values[f] == e.values[f]
  {
    forall g | g in Pair(f) ensures g !in Changed(e, cs[0]).overridden && LeftAlone(g, cs[1..]) {
      LeftAloneTail(g, cs);
      assert LeftAlone(g, cs);
      assert cs[0].Edit? ==> g !in cs[0].changed;
      assert g == Config ==> CheckType in Pair(f);
      assert CheckType in Pair(f) ==> LeftAlone(CheckType, cs) && CheckType !in e.overridden;
    }
    assert f == CheckType ==> Config in Pair(f);
    assert f in Pair(f) && LeftAlone(f, cs);
  }

  lemma UntouchedFront(e: Entry, f: Field, cs: seq<Change>, last: Change)
    requires Untouched(e, f, cs + [last])
    ensures Untouched(e, f, cs)
  {
    forall g | g in Pair(f) ensures LeftAlone(g, cs) {
      assert LeftAlone(g, cs + [last]);
      assert forall i :: 0 <= i < |cs| ==> (cs + [last])[i] == cs[i];
    }
  }

  lemma {:induction false} UntouchedStays(e: Entry, f: Field, cs: seq<Change>)
    requires Full(e.values) && Untouched(e, f, cs)
    ensures f !in Kept(ChangedAll(e, cs).overridden)
    decreases |cs|
  {
    if cs == [] {
      assert f == CheckType ==> Config in Pair(f);
      assert f in Pair(f);
    } else {
      UntouchedTail(e, f, cs);
      UntouchedStays(Changed(e, cs[0]), f, cs[1..]);
    }
  }

  lemma {:induction false} ChangedAppend(e: Entry, cs: seq<Change>, last: Change)
    requires Full(e.values)
    ensures ChangedAll(e, cs + [last]) == Changed(ChangedAll(e, cs), last)
    decreases |cs|
  {
    if cs != [] {
      assert (cs + [last])[1..] == cs[1..] + [last];
      ChangedAppend(Changed(e, cs[0]), cs[1..], last);
    } else {
      assert [last][1..] == [];
    }
  }
}
