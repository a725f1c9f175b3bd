/**
 * The settings page's edit state: the pending changes and their validation
 * errors, keyed by setting name, the three handlers that change them, the
 * save gate, the grouping of the catalogue and what each field displays.
 */
module SettingsPage {
  import opened JsCore
  import opened ApiTypes
  import opened SettingsValidation
  import opened SettingsConfig

  // ---------------------------------------------------------------------
  // Grouping
  // ---------------------------------------------------------------------

  /** The entries of `s` that belong to group `g`, in their order in `s`. */
  function InGroup(s: seq<Meta>, g: SettingGroup): (r: seq<Meta>)
    ensures |r| <= |s|
    ensures forall m :: m in r ==> m in s && m.group == g
  {
    if s == [] then []
    else
      var init := InGroup(s[..|s| - 1], g);
      if s[|s| - 1].group == g then init + [s[|s| - 1]] else init
  }

  /** No entry of `s` in group `g` is dropped. */
  lemma {:induction false} InGroupKeeps(s: seq<Meta>, g: SettingGroup, m: Meta)
    requires m in s && m.group == g
    ensures m in InGroup(s, g)
    decreases |s|
  {
    if m != s[|s| - 1] {
      assert m in s[..|s| - 1];
      InGroupKeeps(s[..|s| - 1], g, m);
    }
  }

  lemma GroupsListed(g: SettingGroup)
    ensures g in Groups
  {
  }

  /** `settingsByGroup`: one list per group, each group present, filled by one pass
      over the entries. */
  method SettingsByGroup(entries: seq<Meta>) returns (byGroup: map<SettingGroup, seq<Meta>>)
    ensures forall g: SettingGroup :: g in byGroup && byGroup[g] == InGroup(entries, g)
  {
    byGroup := map[];
    for j := 0 to |Groups|
      invariant forall k :: 0 <= k < j ==> Groups[k] in byGroup
      invariant forall g :: g in byGroup ==> byGroup[g] == []
    {
      byGroup := byGroup[Groups[j] := []];
    }
    forall g: SettingGroup
      ensures g in byGroup && byGroup[g] == InGroup(entries[..0], g)
    {
      GroupsListed(g);
    }
    for i := 0 to |entries|
      invariant forall g: SettingGroup :: g in byGroup && byGroup[g] == InGroup(entries[..i], g)
    {
      var m := entries[i];
      byGroup := byGroup[m.group := byGroup[m.group] + [m]];
      assert entries[..i + 1][..i] == entries[..i];
    }
    assert entries[..|entries|] == entries;
  }

  /** The groups' lists one after another, in the order of `gs`. */
  function Flatten(gs: seq<SettingGroup>, s: seq<Meta>): seq<Meta> {
    if gs == [] then [] else InGroup(s, gs[0]) + Flatten(gs[1..], s)
  }

  predicate NoRepeats(gs: seq<SettingGroup>) {
    forall i, j :: 0 <= i < j < |gs| ==> gs[i] != gs[j]
  }

  /** Appending an entry adds it once, in its own group, if that group is listed. */
  lemma {:induction false} FlattenSnoc(gs: seq<SettingGroup>, s: seq<Meta>, x: Meta)
    requires NoRepeats(gs)
    ensures multiset(Flatten(gs, s + [x])) ==
      multiset(Flatten(gs, s)) + (if x.group in gs then multiset{x} else multiset{})
    decreases |gs|
  {
    if gs != [] {
      assert (s + [x])[..|s + [x]| - 1] == s;
      FlattenSnoc(gs[1..], s, x);
      assert x.group in gs <==> x.group == gs[0] || x.group in gs[1..];
      assert x.group == gs[0] ==> x.group !in gs[1..];
    }
  }

  lemma {:induction false} FlattenOfNothing(gs: seq<SettingGroup>)
    ensures Flatten(gs, []) == []
    decreases |gs|
  {
    if gs != [] {
      FlattenOfNothing(gs[1..]);
    }
  }

  /** The groups partition any list of entries: every entry is in exactly one
      group's list, so together the lists hold the same entries. */
  lemma GroupsPartition(s: seq<Meta>)
    ensures multiset(Flatten(Groups, s)) == multiset(s)
  {
    GroupsDistinct();
    forall i | 0 <= i < |s| ensures s[i].group in Groups {
      GroupsListed(s[i].group);
    }
    Partition(Groups, s);
  }

  lemma GroupsDistinct()
    ensures NoRepeats(Groups)
  {
  }

  /** Distinct groups that cover every entry's group partition the entries. */
  lemma {:induction false} Partition(gs: seq<SettingGroup>, s: seq<Meta>)
    requires NoRepeats(gs) && forall i :: 0 <= i < |s| ==> s[i].group in gs
    ensures multiset(Flatten(gs, s)) == multiset(s)
    decreases |s|
  {
    if s == [] {
      FlattenOfNothing(gs);
    } else {
      var init, x := s[..|s| - 1], s[|s| - 1];
      assert s == init + [x];
      assert x.group in gs;
      assert forall i :: 0 <= i < |init| ==> init[i] == s[i];
      calc {
        multiset(Flatten(gs, s));
        multiset(Flatten(gs, init + [x]));
        { FlattenSnoc(gs, init, x); }
        multiset(Flatten(gs, init)) + multiset{x};
        { Partition(gs, init); }
        multiset(init) + multiset{x};
        multiset(init + [x]);
      }
    }
  }

  // ---------------------------------------------------------------------
  // Edit state
  // ---------------------------------------------------------------------

  /** `pendingChanges` and `errors`, keyed by setting name; an error of None is a
      stored `null`. */
  datatype EditState = EditState(pending: map<string, Unknown>, errors: map<string, Option<string>>)

  const Clean: EditState := EditState(map[], map[])

  /** The error `handleChange` records for a value: the key's validator, or null
      when the key is unknown or has no validator. */
  function Validate(key: string, value: Unknown): (r: Option<string>)
    ensures r.Some? ==> exists v :: r.value == SettingsValidation.Message(v)
  {
    match FindMeta(key)
    case None => None
    case Some(m) =>
      if m.validation.None? then None else
      var e := Apply(m.validation.value, value);
      assert e.Some? ==> e.value == SettingsValidation.Message(m.validation.value);
      e
  }

  /** For a setting's own name, the recorded error is that setting's validator's
      verdict. */
  lemma ValidateByName(k: SettingKey, value: Unknown)
    ensures Validate(KeyName(k), value) ==
      (if Entry(k).validation.Some? then Apply(Entry(k).validation.value, value) else None)
  {
    FindMetaOfKeyName(k);
  }

  /** A name that is no setting's records no error. */
  lemma ValidateUnknownName(key: string, value: Unknown)
    requires forall k: SettingKey :: KeyName(k) != key
    ensures Validate(key, value).None?
  {
    var m := FindMeta(key);
    assert m.None?;
  }

  /** `handleChange`. */
  function HandleChange(st: EditState, key: string, value: Unknown): (r: EditState)
    ensures key in r.pending && r.pending[key] == value
    ensures key in r.errors && r.errors[key] == Validate(key, value)
    ensures forall k :: k != key ==> (k in r.pending <==> k in st.pending) && (k in r.errors <==> k in st.errors)
    ensures forall k :: k != key && k in st.pending ==> r.pending[k] == st.pending[k]
    ensures forall k :: k != key && k in st.errors ==> r.errors[k] == st.errors[k]
  {
    EditState(st.pending[key := value], st.errors[key := Validate(key, value)])
  }

  /** `handleReset`, continued after the reset request settles: the key leaves both
      maps once it resolves; a rejection leaves the state as it was. */
  function HandleReset(st: EditState, key: string, resolved: bool): (r: EditState)
    ensures !resolved ==> r == st
    ensures resolved ==> key !in r.pending && key !in r.errors
    ensures resolved ==> forall k :: k != key ==> (k in r.pending <==> k in st.pending) && (k in r.errors <==> k in st.errors)
    ensures forall k :: k != key && k in r.pending ==> r.pending[k] == st.pending[k]
    ensures forall k :: k != key && k in r.errors ==> r.errors[k] == st.errors[k]
  {
    if resolved then EditState(st.pending - {key}, st.errors - {key}) else st
  }

  /** `handleSave`, continued after the update request settles. */
  function HandleSave(st: EditState, succeeded: bool): (r: EditState)
    ensures succeeded ==> |r.pending| == 0 && |r.errors| == 0
    ensures !succeeded ==> r == st
  {
    if succeeded then Clean else st
  }

  predicate HasChanges(st: EditState) {
    |st.pending| > 0
  }

  predicate HasErrors(st: EditState) {
    exists k :: k in st.errors && st.errors[k].Some?
  }

  /** The save button is enabled when there are changes and no error. */
  predicate SaveEnabled(st: EditState) {
    HasChanges(st) && !HasErrors(st)
  }

  /** The save button: whether it is disabled, whether it shows the spinner
      (`loading`, which in the button library also blocks clicks) and the count
      in its caption. */
  datatype SaveButton = SaveButton(disabled: bool, loading: bool, count: Option<nat>)

  /** A click reaches `handleSave` only on a button neither disabled nor loading. */
  predicate Clickable(b: SaveButton) {
    !b.disabled && !b.loading
  }

  /** The button for the edit state while an update request is (`updating`) or is
      not in flight. */
  function SaveButtonOf(st: EditState, updating: bool): (b: SaveButton)
    ensures b.disabled <==> |st.pending| == 0 || exists k :: k in st.errors && st.errors[k].Some?
    ensures b.loading == updating
    ensures Clickable(b) <==> !updating && |st.pending| > 0 && forall k :: k in st.errors ==> st.errors[k].None?
    ensures b.count.Some? <==> |st.pending| > 0
    ensures b.count.Some? ==> b.count.value == |st.pending.Keys|
  {
    SaveButton(!SaveEnabled(st), updating, if HasChanges(st) then Some(|st.pending|) else None)
  }

  /** The edit state every handler keeps: the same keys in both maps, and each
      recorded error is what the key's validator says about its pending value. */
  predicate Consistent(st: EditState) {
    && st.errors.Keys == st.pending.Keys
    && forall k :: k in st.pending ==> st.errors[k] == Validate(k, st.pending[k])
  }

  datatype EditEvent =
    | Changed(key: string, value: Unknown)
    | ResetSettled(key: string, resolved: bool)
    | SaveSettled(succeeded: bool)

  function Apply1(st: EditState, ev: EditEvent): EditState {
    match ev
    case Changed(key, value) => HandleChange(st, key, value)
    case ResetSettled(key, resolved) => HandleReset(st, key, resolved)
    case SaveSettled(succeeded) => HandleSave(st, succeeded)
  }

  function ApplyAll(st: EditState, evs: seq<EditEvent>): EditState
    decreases |evs|
  {
    if evs == [] then st else ApplyAll(Apply1(st, evs[0]), evs[1..])
  }

  lemma StepKeepsConsistent(st: EditState, ev: EditEvent)
    requires Consistent(st)
    ensures Consistent(Apply1(st, ev))
  {
    var r := Apply1(st, ev);
    match ev
    case Changed(key, value) =>
      assert r.errors.Keys == st.errors.Keys + {key};
      forall k | k in r.pending
        ensures r.errors[k] == Validate(k, r.pending[k])
      {
        if k != key {
          assert r.pending[k] == st.pending[k];
        }
      }
    case ResetSettled(key, resolved) =>
      assert resolved ==> r.errors.Keys == st.errors.Keys - {key};
    case SaveSettled(_) =>
  }

  /** Starting clean, whatever the user does, the errors shown are exactly the
      validators' verdicts on the pending values. */
  lemma {:induction false} ApplyAllKeepsConsistent(st: EditState, evs: seq<EditEvent>)
    requires Consistent(st)
    ensures Consistent(ApplyAll(st, evs))
    decreases |evs|
  {
    if evs != [] {
      StepKeepsConsistent(st, evs[0]);
      ApplyAllKeepsConsistent(Apply1(st, evs[0]), evs[1..]);
    }
  }

  /** So in every reachable state the save gate is: something is pending and every
      pending value passes its key's validator. */
  lemma SaveGate(st: EditState)
    requires Consistent(st)
    ensures SaveEnabled(st) <==>
      |st.pending| > 0 && forall k :: k in st.pending ==> Validate(k, st.pending[k]).None?
  {
    if SaveEnabled(st) {
      forall k | k in st.pending
        ensures Validate(k, st.pending[k]).None?
      {
        assert k in st.errors;
      }
    }
  }

  /** A value its validator rejects disables saving until it is changed, reset or
      saved. */
  lemma InvalidChangeBlocksSave(st: EditState, key: string, value: Unknown)
    requires Validate(key, value).Some?
    ensures !SaveEnabled(HandleChange(st, key, value))
  {
    var r := HandleChange(st, key, value);
    assert key in r.errors && r.errors[key].Some?;
  }

  /** Correcting the only faulty value enables saving. */
  lemma CorrectionEnablesSave(st: EditState, key: string, value: Unknown)
    requires forall k :: k in st.errors && k != key ==> st.errors[k].None?
    requires Validate(key, value).None?
    ensures SaveEnabled(HandleChange(st, key, value))
  {
    var r := HandleChange(st, key, value);
    assert key in r.pending;
    forall k | k in r.errors
      ensures r.errors[k].None?
    {
    }
  }

  /** A successful save disables the button again; a failed one keeps everything. */
  lemma SaveOutcomes(st: EditState)
    ensures !SaveEnabled(HandleSave(st, true))
    ensures HandleSave(st, false) == st
  {
  }

  // ---------------------------------------------------------------------
  // Displayed fields
  // ---------------------------------------------------------------------

  /** The props a `SettingField` receives. */
  datatype Field = Field(meta: Meta, value: Unknown, source: SettingSource, error: Option<string>)

  /** What `SettingsGroup` passes for one entry, given the loaded settings (`{}`
      when none are loaded). */
  function ShowField(meta: Meta, values: map<string, Setting>, st: EditState): (f: Field)
    ensures f.meta == meta
    ensures KeyName(meta.key) in st.pending ==> f.value == st.pending[KeyName(meta.key)]
    ensures KeyName(meta.key) !in st.pending && KeyName(meta.key) in values ==> f.value == values[KeyName(meta.key)].value
    ensures f.source == FromDefault || KeyName(meta.key) in values
    ensures f.error.Some? ==> KeyName(meta.key) in st.errors && st.errors[KeyName(meta.key)] == f.error
  {
    var key := KeyName(meta.key);
    Field(meta,
          if key in st.pending then st.pending[key]
          else if key in values then values[key].value
          else Undefined,
          if key in values then values[key].source else FromDefault,
          if key in st.errors then st.errors[key] else None)
  }

  /** The fields of one group: one per entry of that group, in catalogue order. */
  function GroupFields(g: SettingGroup, values: map<string, Setting>, st: EditState): (fs: seq<Field>)
    ensures |fs| == |InGroup(Catalogue, g)|
    ensures forall i :: 0 <= i < |fs| ==> fs[i] == ShowField(InGroup(Catalogue, g)[i], values, st)
    ensures forall f :: f in fs ==> f.meta in Catalogue && f.meta.group == g
  {
    var metas := InGroup(Catalogue, g);
    seq(|metas|, i requires 0 <= i < |metas| => ShowField(metas[i], values, st))
  }

  /** An entry of the catalogue is shown in its group. */
  lemma EveryEntryShown(k: SettingKey, values: map<string, Setting>, st: EditState)
    ensures ShowField(Entry(k), values, st) in GroupFields(Entry(k).group, values, st)
  {
    var m := Entry(k);
    assert Catalogue[Position(k)] == m;
    InGroupKeeps(Catalogue, m.group, m);
    var metas := InGroup(Catalogue, m.group);
    var i :| 0 <= i < |metas| && metas[i] == m;
    assert GroupFields(m.group, values, st)[i] == ShowField(m, values, st);
  }

  /** After a change the field shows the new value and its validator's verdict,
      whatever was stored or pending before. */
  lemma ChangeIsShown(k: SettingKey, values: map<string, Setting>, st: EditState, value: Unknown)
    ensures var f := ShowField(Entry(k), values, HandleChange(st, KeyName(k), value));
      && f.value == value
      && f.error == (if Entry(k).validation.Some? then Apply(Entry(k).validation.value, value) else None)
  {
    ValidateByName(k, value);
  }

  /** A pending value shadows the stored one even when it is `undefined`. */
  lemma PendingShadowsStored(k: SettingKey, values: map<string, Setting>, st: EditState)
    requires KeyName(k) in values
    ensures ShowField(Entry(k), values, HandleChange(st, KeyName(k), Undefined)).value == Undefined
    ensures ShowField(Entry(k), values, HandleChange(st, KeyName(k), Undefined)).source == values[KeyName(k)].source
  {
  }

  /** A resolved reset shows the stored value again (undefined and "default" when
      nothing is stored) and no error. */
  lemma ResetShowsStored(k: SettingKey, values: map<string, Setting>, st: EditState)
    ensures var f := ShowField(Entry(k), values, HandleReset(st, KeyName(k), true));
      && f.error.None?
      && f.value == (if KeyName(k) in values then values[KeyName(k)].value else Undefined)
      && f.source == (if KeyName(k) in values then values[KeyName(k)].source else FromDefault)
  {
  }

  /** Changing a setting that had no pending edit and then resetting it gives back
      exactly the field shown before. */
  lemma ChangeThenResetRestoresField(m: Meta, values: map<string, Setting>, st: EditState, value: Unknown)
    requires KeyName(m.key) !in st.pending && KeyName(m.key) !in st.errors
    ensures ShowField(m, values, HandleReset(HandleChange(st, KeyName(m.key), value), KeyName(m.key), true))
         == ShowField(m, values, st)
  {
  }
}
