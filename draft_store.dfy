/** The draft store of the admission page: how `saveToLocal` folds the entries
    of the admission and clinical forms into one record (app.js:6-45) and how
    `loadFromLocal` puts a saved record back onto the forms' controls
    (app.js:47-80). The same folding loop reappears in
    `generateClinicalSummary` (app.js:277-284). */
module DraftStore {
  import opened Wrappers
  import opened JsStrings

  /** One `[name, value]` pair of `new FormData(form).entries()`. */
  datatype Entry = Entry(key: string, value: string)

  /** What the record holds for a field name: the first value alone, or the
      list of every value once a further one arrives. */
  datatype Value = Scalar(text: string) | List(items: seq<string>)

  type FormRecord = map<string, Value>

  /** JavaScript truthiness of a record value: the empty string is the only
      falsy one (an array is truthy even when empty). */
  predicate Truthy(v: Value)
  {
    !(v.Scalar? && v.text == "")
  }

  function Lookup(data: FormRecord, key: string): Option<Value>
  {
    if key in data then Some(data[key]) else None
  }

  // ---------------------------------------------------------------------------
  // Accumulation (app.js:14-21, app.js:277-284)

  /** The record value after one more value arrives for a name whose current
      value is truthy: a scalar becomes a two-element list, a list grows. */
  function Appended(v: Value, x: string): (r: Value)
    ensures r.List? && |r.items| >= 1 && r.items[|r.items| - 1] == x
    ensures v.Scalar? ==> r.items == [v.text, x]
    ensures v.List? ==> r.items == v.items + [x]
  {
    match v
    case Scalar(s) => List([s, x])
    case List(items) => List(items + [x])
  }

  /** The value a name holds after one entry, given what it held before
      (`None` when the name is not in the record yet). */
  function StepValue(current: Option<Value>, x: string): Value
  {
    if current.Some? && Truthy(current.value) then Appended(current.value, x) else Scalar(x)
  }

  /** One turn of the accumulation loop. */
  function Step(data: FormRecord, e: Entry): (r: FormRecord)
    ensures r.Keys == data.Keys + {e.key}
    ensures forall k :: k in data && k != e.key ==> r[k] == data[k]
  {
    data[e.key := StepValue(Lookup(data, e.key), e.value)]
  }

  /** The record after all `entries`, in order, starting from `data`. */
  function AccumulateAll(data: FormRecord, entries: seq<Entry>): FormRecord
    decreases |entries|
  {
    if |entries| == 0 then data else AccumulateAll(Step(data, entries[0]), entries[1..])
  }

  /** `extractFormData`'s loop: fold the form's entries into `data` in place. */
  method ExtractFormData(data: FormRecord, entries: seq<Entry>) returns (r: FormRecord)
    ensures r == AccumulateAll(data, entries)
  {
    r := data;
    var i := 0;
    while i < |entries|
      invariant 0 <= i <= |entries|
      invariant AccumulateAll(r, entries[i..]) == AccumulateAll(data, entries)
    {
      var key, value := entries[i].key, entries[i].value;
      assert entries[i..][0] == entries[i] && entries[i..][1..] == entries[i + 1..];
      ghost var before := r;
      if key in r && Truthy(r[key]) {
        if r[key].Scalar? {
          r := r[key := List([r[key].text])];
        }
        r := r[key := List(r[key].items + [value])];
        assert r[key] == Appended(before[key], value);
      } else {
        r := r[key := Scalar(value)];
      }
      assert r == Step(before, entries[i]);
      i := i + 1;
    }
    assert entries[i..] == [];
  }

  /** The values `entries` carries for `key`, in entry order. */
  function Project(entries: seq<Entry>, key: string): seq<string>
  {
    if |entries| == 0 then []
    else (if entries[0].key == key then [entries[0].value] else []) + Project(entries[1..], key)
  }

  lemma {:induction false} ProjectAppend(a: seq<Entry>, b: seq<Entry>, key: string)
    ensures Project(a + b, key) == Project(a, key) + Project(b, key)
  {
    if |a| > 0 {
      ProjectAppend(a[1..], b, key);
      assert (a + b)[0] == a[0] && (a + b)[1..] == a[1..] + b;
    } else {
      assert a + b == b;
    }
  }

  /** What one name holds after its values arrive one by one. */
  function FoldValues(current: Option<Value>, xs: seq<string>): Option<Value>
    decreases |xs|
  {
    if |xs| == 0 then current else FoldValues(Some(StepValue(current, xs[0])), xs[1..])
  }

  lemma {:induction false} FoldValuesAppend(current: Option<Value>, xs: seq<string>, ys: seq<string>)
    ensures FoldValues(current, xs + ys) == FoldValues(FoldValues(current, xs), ys)
    decreases |xs|
  {
    if |xs| > 0 {
      var next := Some(StepValue(current, xs[0]));
      assert (xs + ys)[0] == xs[0] && (xs + ys)[1..] == xs[1..] + ys;
      assert FoldValues(current, xs + ys) == FoldValues(next, xs[1..] + ys);
      assert FoldValues(current, xs) == FoldValues(next, xs[1..]);
      FoldValuesAppend(next, xs[1..], ys);
    } else {
      assert xs + ys == ys;
    }
  }

  /** Each name evolves on its own: what a name holds after the fold depends
      only on what it held before and on its own values, in order. */
  lemma {:induction false} AccumulateByKey(data: FormRecord, entries: seq<Entry>, key: string)
    ensures Lookup(AccumulateAll(data, entries), key) == FoldValues(Lookup(data, key), Project(entries, key))
    decreases |entries|
  {
    if |entries| > 0 {
      var e := entries[0];
      AccumulateByKey(Step(data, e), entries[1..], key);
      if e.key == key {
        assert Project(entries, key) == [e.value] + Project(entries[1..], key);
        assert ([e.value] + Project(entries[1..], key))[1..] == Project(entries[1..], key);
      } else {
        assert Project(entries, key) == Project(entries[1..], key);
      }
    }
  }

  /** `xs` without its leading empty strings. */
  function DropLeadingBlanks(xs: seq<string>): (r: seq<string>)
    ensures |r| <= |xs| && r == xs[|xs| - |r|..]
    ensures r == [] || r[0] != ""
    ensures forall i :: 0 <= i < |xs| - |r| ==> xs[i] == ""
  {
    if |xs| > 0 && xs[0] == "" then DropLeadingBlanks(xs[1..]) else xs
  }

  /** What a name holds once all its values `xs` have arrived, stated without
      the fold: nothing for no value; the empty string when every value is
      empty; otherwise, from the first non-empty value on, that value alone or
      the list of it and every later value. */
  function Collected(xs: seq<string>): Option<Value>
  {
    if |xs| == 0 then None
    else
      var t := DropLeadingBlanks(xs);
      if |t| == 0 then Some(Scalar(""))
      else if |t| == 1 then Some(Scalar(t[0]))
      else Some(List(t))
  }

  lemma {:induction false} FoldOntoList(items: seq<string>, xs: seq<string>)
    ensures FoldValues(Some(List(items)), xs) == Some(List(items + xs))
    decreases |xs|
  {
    if |xs| > 0 {
      assert FoldValues(Some(List(items)), xs) == FoldValues(Some(List(items + [xs[0]])), xs[1..]);
      FoldOntoList(items + [xs[0]], xs[1..]);
      assert xs == [xs[0]] + xs[1..];
      assert items + [xs[0]] + xs[1..] == items + xs;
    } else {
      assert items + xs == items;
    }
  }

  lemma {:induction false} FoldFromBlank(current: Option<Value>, xs: seq<string>)
    requires current == None || current == Some(Scalar(""))
    ensures FoldValues(current, xs) == if |xs| == 0 then current else Collected(xs)
    decreases |xs|
  {
    if |xs| > 0 {
      var rest := xs[1..];
      assert FoldValues(current, xs) == FoldValues(Some(Scalar(xs[0])), rest);
      if xs[0] == "" {
        FoldFromBlank(Some(Scalar("")), rest);
        if |rest| > 0 {
          assert DropLeadingBlanks(xs) == DropLeadingBlanks(rest);
        }
      } else {
        assert DropLeadingBlanks(xs) == xs;
        if |rest| > 0 {
          FoldFromValue(xs[0], rest);
          assert [xs[0]] + rest == xs;
        }
      }
    }
  }

  /** After a non-empty value, every later value is appended to a list. */
  lemma {:induction false} FoldFromValue(x: string, rest: seq<string>)
    requires x != "" && |rest| > 0
    ensures FoldValues(Some(Scalar(x)), rest) == Some(List([x] + rest))
  {
    assert FoldValues(Some(Scalar(x)), rest) == FoldValues(Some(List([x, rest[0]])), rest[1..]);
    FoldOntoList([x, rest[0]], rest[1..]);
    assert [x, rest[0]] + rest[1..] == [x] + rest;
  }

  /** The accumulation rule, per name, for a record built from nothing: the
      first value is kept as a scalar; each later value turns it into a list
      that keeps entry order; an empty (falsy) value is replaced by the next
      one instead of being appended to. */
  lemma {:induction false} AccumulateFromEmpty(entries: seq<Entry>, key: string)
    ensures Lookup(AccumulateAll(map[], entries), key) == Collected(Project(entries, key))
  {
    AccumulateByKey(map[], entries, key);
    FoldFromBlank(None, Project(entries, key));
  }

  /** The same fold over the admission form's entries and then the clinical
      form's is the fold over both, in order. */
  lemma {:induction false} AccumulateTwoForms(admission: seq<Entry>, clinical: seq<Entry>, key: string)
    ensures Lookup(AccumulateAll(AccumulateAll(map[], admission), clinical), key)
         == Collected(Project(admission + clinical, key))
  {
    AccumulateByKey(AccumulateAll(map[], admission), clinical, key);
    AccumulateByKey(map[], admission, key);
    ProjectAppend(admission, clinical, key);
    FoldValuesAppend(None, Project(admission, key), Project(clinical, key));
    FoldFromBlank(None, Project(admission + clinical, key));
  }

  /** Values that are never empty are all kept, in entry order. */
  lemma {:induction false} CollectedNonEmpty(xs: seq<string>)
    requires forall i :: 0 <= i < |xs| ==> xs[i] != ""
    ensures Collected(xs) == if |xs| == 0 then None
                             else if |xs| == 1 then Some(Scalar(xs[0]))
                             else Some(List(xs))
  {
  }

  // ---------------------------------------------------------------------------
  // Saving (app.js:6-45)

  /** A value of the saved JSON draft: a form value, or one of the booleans
      the script keeps for checkboxes outside the forms. */
  datatype Stored = Field(value: Value) | Flag(on: bool)

  type Draft = map<string, Stored>

  /** The page state `saveToLocal` records besides the forms, `None` where the
      element is not on the page. */
  datatype UiState = UiState(
    clexane: Option<bool>, negaAlergia: Option<bool>, imc: Option<string>,
    tot: Option<bool>, pvp: Option<bool>, pam: Option<bool>)

  /** Names of the synthetic entries: skipped on restore. */
  predicate IsUiKey(key: string)
  {
    StartsWith(key, "_ui_")
  }

  const LastSavedKey := "_last_saved"

  function AsFlag(flag: Option<bool>): Option<Stored>
  {
    if flag.Some? then Some(Flag(flag.value)) else None
  }

  /** `draft` with `key` set to `v` when there is one. */
  function Put(draft: Draft, key: string, v: Option<Stored>): (r: Draft)
    ensures forall k :: LookupStored(r, k) == if k == key && v.Some? then v else LookupStored(draft, k)
  {
    if v.Some? then draft[key := v.value] else draft
  }

  /** The synthetic entries written over the form entries (app.js:35-42). */
  function WithUiEntries(forms: Draft, ui: UiState, savedAt: string): Draft
  {
    var d := Put(forms, "_ui_clexane", AsFlag(ui.clexane));
    var d := Put(d, "_ui_nega_alergia", AsFlag(ui.negaAlergia));
    var d := Put(d, "_ui_imc", if ui.imc.Some? then Some(Field(Scalar(ui.imc.value))) else None);
    var d := Put(d, "_ui_tot", AsFlag(ui.tot));
    var d := Put(d, "_ui_pvp", AsFlag(ui.pvp));
    var d := Put(d, "_ui_pam", AsFlag(ui.pam));
    Put(d, LastSavedKey, Some(Field(Scalar(savedAt))))
  }

  lemma {:induction false} WithUiEntriesLookup(forms: Draft, ui: UiState, savedAt: string, key: string)
    ensures LookupStored(WithUiEntries(forms, ui, savedAt), key)
         == if UiEntry(ui, savedAt, key).Some? then UiEntry(ui, savedAt, key) else LookupStored(forms, key)
  {
  }

  /** The synthetic entry `saveToLocal` writes under `key` after the form
      entries, if any. */
  function UiEntry(ui: UiState, savedAt: string, key: string): (r: Option<Stored>)
    ensures r.Some? ==> IsUiKey(key) || key == LastSavedKey
  {
    if key == LastSavedKey then Some(Field(Scalar(savedAt)))
    else if key == "_ui_pam" then AsFlag(ui.pam)
    else if key == "_ui_pvp" then AsFlag(ui.pvp)
    else if key == "_ui_tot" then AsFlag(ui.tot)
    else if key == "_ui_imc" then (if ui.imc.Some? then Some(Field(Scalar(ui.imc.value))) else None)
    else if key == "_ui_nega_alergia" then AsFlag(ui.negaAlergia)
    else if key == "_ui_clexane" then AsFlag(ui.clexane)
    else None
  }

  function AsStored(v: Option<Value>): Option<Stored>
  {
    if v.Some? then Some(Field(v.value)) else None
  }

  function LookupStored(draft: Draft, key: string): Option<Stored>
  {
    if key in draft then Some(draft[key]) else None
  }

  /** `draft` is what saving the two forms with entries `admission` and
      `clinical` and the page state `ui` at time `savedAt` writes: every
      synthetic entry, and for every other name the accumulated form values. */
  ghost predicate IsSaveOf(draft: Draft, admission: seq<Entry>, clinical: seq<Entry>, ui: UiState, savedAt: string)
  {
    forall key :: LookupStored(draft, key)
      == if UiEntry(ui, savedAt, key).Some? then UiEntry(ui, savedAt, key)
         else AsStored(Collected(Project(admission + clinical, key)))
  }

  /** `saveToLocal` with the forms' entries, the page state and the clock
      passed in; the JSON text written to local storage is the draft itself. */
  method SaveToLocal(admission: seq<Entry>, clinical: seq<Entry>, ui: UiState, savedAt: string)
    returns (draft: Draft)
    ensures IsSaveOf(draft, admission, clinical, ui, savedAt)
  {
    var data := ExtractFormData(map[], admission);
    data := ExtractFormData(data, clinical);
    draft := map k | k in data :: Field(data[k]);
    ghost var forms := draft;
    draft := SetFlag(draft, "_ui_clexane", ui.clexane);
    draft := SetFlag(draft, "_ui_nega_alergia", ui.negaAlergia);
    if ui.imc.Some? { draft := draft["_ui_imc" := Field(Scalar(ui.imc.value))]; }
    draft := SetFlag(draft, "_ui_tot", ui.tot);
    draft := SetFlag(draft, "_ui_pvp", ui.pvp);
    draft := SetFlag(draft, "_ui_pam", ui.pam);
    draft := draft[LastSavedKey := Field(Scalar(savedAt))];
    assert draft == WithUiEntries(forms, ui, savedAt);
    SavedDraftLookup(admission, clinical, ui, savedAt, data, forms, draft);
  }

  /** `if (el) data[key] = el.checked`: the box's state is written only when
      the box is on the page. */
  method SetFlag(draft: Draft, key: string, flag: Option<bool>) returns (r: Draft)
    ensures r == Put(draft, key, AsFlag(flag))
  {
    r := draft;
    if flag.Some? { r := r[key := Flag(flag.value)]; }
  }

  lemma {:induction false} SavedDraftLookup(admission: seq<Entry>, clinical: seq<Entry>, ui: UiState, savedAt: string,
                         data: FormRecord, forms: Draft, draft: Draft)
    requires data == AccumulateAll(AccumulateAll(map[], admission), clinical)
    requires forms == map k | k in data :: Field(data[k])
    requires draft == WithUiEntries(forms, ui, savedAt)
    ensures IsSaveOf(draft, admission, clinical, ui, savedAt)
  {
    forall key ensures LookupStored(draft, key)
      == if UiEntry(ui, savedAt, key).Some? then UiEntry(ui, savedAt, key)
         else AsStored(Collected(Project(admission + clinical, key)))
    {
      AccumulateTwoForms(admission, clinical, key);
      WithUiEntriesLookup(forms, ui, savedAt, key);
      assert LookupStored(forms, key) == AsStored(Lookup(data, key));
    }
  }

  // ---------------------------------------------------------------------------
  // Restoring (app.js:55-80)

  /** One option of a group of inputs sharing a name (radios or checkboxes). */
  datatype Choice = Choice(value: string, checked: bool)

  /** What `form.elements[name]` finds. */
  datatype Control =
    | Group(choices: seq<Choice>, radio: bool)       // several checkboxes, or radios, share the name
    | Checkbox(value: string, checked: bool)         // a lone checkbox
    | Select(options: seq<string>, selected: string) // a lone single-choice select
    | Text(text: string)                             // any other lone input

  /** `!!data[key]` */
  predicate StoredTruthy(v: Stored)
  {
    match v
    case Field(x) => Truthy(x)
    case Flag(b) => b
  }

  /** `String(data[key])`, what assigning to `input.value` stores: a list is
      written with commas between its items. */
  function StoredString(v: Stored): string
  {
    match v
    case Field(Scalar(s)) => s
    case Field(List(items)) => Join(items, ",")
    case Flag(b) => if b then "true" else "false"
  }

  /** The strings of `Array.isArray(v) ? v : [v]`: a scalar is lifted to a
      one-element list; a boolean equals no option value. */
  function Lifted(v: Stored): seq<string>
  {
    match v
    case Field(Scalar(s)) => [s]
    case Field(List(items)) => items
    case Flag(_) => []
  }

  /** The group branch on checkboxes: every choice whose value is saved
      becomes checked; no choice is ever unchecked. */
  function CheckMatching(choices: seq<Choice>, values: seq<string>): (r: seq<Choice>)
    ensures |r| == |choices|
    ensures forall i :: 0 <= i < |r| ==>
      r[i].value == choices[i].value && r[i].checked == (choices[i].checked || choices[i].value in values)
  {
    seq(|choices|, i requires 0 <= i < |choices| =>
      if choices[i].value in values then choices[i].(checked := true) else choices[i])
  }

  /** `choices` with only the choice at `i` checked: checking a radio
      unchecks every other radio of its name. */
  function CheckOnly(choices: seq<Choice>, i: nat): (r: seq<Choice>)
    requires i < |choices|
    ensures |r| == |choices|
    ensures forall j :: 0 <= j < |r| ==> r[j] == choices[j].(checked := j == i)
  {
    seq(|choices|, j requires 0 <= j < |choices| => choices[j].(checked := j == i))
  }

  /** The group branch on radios, from position `i` on: `radio.checked = true`
      for each radio whose value is saved, in document order. */
  function CheckRadiosFrom(choices: seq<Choice>, values: seq<string>, i: nat): (r: seq<Choice>)
    requires i <= |choices|
    ensures |r| == |choices|
    decreases |choices| - i
  {
    if i == |choices| then choices
    else CheckRadiosFrom(if choices[i].value in values then CheckOnly(choices, i) else choices, values, i + 1)
  }

  /** The group branch on radios. */
  function CheckRadios(choices: seq<Choice>, values: seq<string>): (r: seq<Choice>)
    ensures |r| == |choices|
  {
    CheckRadiosFrom(choices, values, 0)
  }

  /** The radio pass only changes which radios are checked. */
  lemma {:induction false} CheckRadiosFromValues(s: seq<Choice>, values: seq<string>, k: nat)
    requires k <= |s|
    ensures forall j :: 0 <= j < |s| ==> CheckRadiosFrom(s, values, k)[j].value == s[j].value
    decreases |s| - k
  {
    if k < |s| {
      var next := if s[k].value in values then CheckOnly(s, k) else s;
      CheckRadiosFromValues(next, values, k + 1);
    }
  }

  /** From position `k` on, the radio pass changes nothing when no later
      value is saved. */
  lemma {:induction false} CheckRadiosFromNone(s: seq<Choice>, values: seq<string>, k: nat)
    requires k <= |s|
    requires forall j :: k <= j < |s| ==> s[j].value !in values
    ensures CheckRadiosFrom(s, values, k) == s
    decreases |s| - k
  {
    if k < |s| {
      CheckRadiosFromNone(s, values, k + 1);
    }
  }

  /** From position `k` on, when `i` is the last radio whose value is saved,
      the radio pass leaves it the only one checked. */
  lemma {:induction false} CheckRadiosFromLast(s: seq<Choice>, values: seq<string>, k: nat, i: nat)
    requires k <= i < |s| && s[i].value in values
    requires forall j :: i < j < |s| ==> s[j].value !in values
    ensures forall j :: 0 <= j < |s| ==> CheckRadiosFrom(s, values, k)[j].checked == (j == i)
    decreases |s| - k
  {
    var next := if s[k].value in values then CheckOnly(s, k) else s;
    assert forall j :: 0 <= j < |s| ==> next[j].value == s[j].value;
    if k == i {
      CheckRadiosFromNone(next, values, k + 1);
    } else {
      CheckRadiosFromLast(next, values, k + 1, i);
    }
  }

  /** Restoring a radio group: with no saved value among its radios it stays
      as it was; otherwise the last radio whose value is saved is the only
      one checked, whatever was checked before. */
  lemma {:induction false} RestoreRadio(choices: seq<Choice>, v: Stored)
    ensures var r := Restore(Group(choices, true), v);
      && r.Group? && r.radio && |r.choices| == |choices|
      && (forall j :: 0 <= j < |choices| ==> r.choices[j].value == choices[j].value)
      && ((forall j :: 0 <= j < |choices| ==> choices[j].value !in Lifted(v)) ==> r.choices == choices)
      && (forall i ::
            (0 <= i < |choices| && choices[i].value in Lifted(v)
             && (forall j :: i < j < |choices| ==> choices[j].value !in Lifted(v))) ==>
            forall j :: 0 <= j < |choices| ==> r.choices[j].checked == (j == i))
  {
    CheckRadiosFromValues(choices, Lifted(v), 0);
    if forall j :: 0 <= j < |choices| ==> choices[j].value !in Lifted(v) {
      CheckRadiosFromNone(choices, Lifted(v), 0);
    }
    forall i | 0 <= i < |choices| && choices[i].value in Lifted(v)
                 && (forall j :: i < j < |choices| ==> choices[j].value !in Lifted(v))
      ensures forall j :: 0 <= j < |choices| ==> CheckRadios(choices, Lifted(v))[j].checked == (j == i)
    {
      CheckRadiosFromLast(choices, Lifted(v), 0, i);
    }
  }

  /** Setting `select.value`: the option with that value is chosen, or none. */
  function SelectValue(options: seq<string>, x: string): (r: string)
    ensures r == x || r == ""
    ensures x in options ==> r == x
    ensures x !in options ==> r == ""
  {
    if x in options then x else ""
  }

  /** Restoring one control from its saved value, with the select case
      corrected (see `RestoreAsWritten`). */
  function Restore(c: Control, v: Stored): Control
  {
    match c
    case Group(choices, radio) =>
      Group(if radio then CheckRadios(choices, Lifted(v)) else CheckMatching(choices, Lifted(v)), radio)
    case Checkbox(value, _) => Checkbox(value, StoredTruthy(v))
    case Select(options, _) => Select(options, SelectValue(options, StoredString(v)))
    case Text(_) => Text(StoredString(v))
  }

  /** Restoring one control as app.js:67-78 is written. A lone select with
      more than one option passes the group test `input.length > 1 &&
      input[0].type !== 'select-one'`, because `input[0]` is its first option,
      which has no `type`; setting `checked` on its options changes nothing. */
  function RestoreAsWritten(c: Control, v: Stored): Control
  {
    if c.Select? && |c.options| > 1 then c else Restore(c, v)
  }

  /** The as-written branch leaves a select with several options as it was,
      even when the saved value is one of its options. */
  lemma {:induction false} SelectNotRestoredAsWritten()
    ensures RestoreAsWritten(Select(["M", "F"], ""), Field(Scalar("F"))) == Select(["M", "F"], "")
    ensures Restore(Select(["M", "F"], ""), Field(Scalar("F"))) == Select(["M", "F"], "F")
  {
  }

  /** The corrected branch restores a select to any saved option value. */
  lemma {:induction false} RestoreSelectsSavedOption(options: seq<string>, selected: string, x: string)
    requires x in options
    ensures Restore(Select(options, selected), Field(Scalar(x))) == Select(options, x)
  {
  }

  /** The form after restoring: controls named by a non-synthetic key of the
      draft take their saved value; every other control is untouched. */
  function Restored(form: map<string, Control>, draft: Draft): (r: map<string, Control>)
    ensures r.Keys == form.Keys
  {
    map k | k in form :: if k in draft && !IsUiKey(k) then Restore(form[k], draft[k]) else form[k]
  }

  /** The `Object.keys(data).forEach` loop over one form. */
  method RestoreForm(form: map<string, Control>, draft: Draft) returns (r: map<string, Control>)
    ensures r == Restored(form, draft)
  {
    r := form;
    var keys := draft.Keys;
    while keys != {}
      invariant keys <= draft.Keys
      invariant r.Keys == form.Keys
      invariant forall k :: k in form ==>
        r[k] == if k in draft && k !in keys && !IsUiKey(k) then Restore(form[k], draft[k]) else form[k]
      decreases keys
    {
      var key :| key in keys;
      keys := keys - {key};
      if StartsWith(key, "_ui_") {
        continue;
      }
      if key !in r {
        continue;
      }
      r := r[key := Restore(r[key], draft[key])];
    }
  }

  /** Synthetic entries and names the form does not have change nothing. */
  lemma {:induction false} RestoreIgnoresForeignKeys(form: map<string, Control>, draft: Draft)
    ensures Restored(form, draft) == Restored(form, map k | k in draft && k in form && !IsUiKey(k) :: draft[k])
  {
  }

  /** Restoring only ever checks the choices of a checkbox group; it never
      unchecks one. */
  lemma {:induction false} RestoreNeverUnchecks(form: map<string, Control>, draft: Draft, key: string, i: nat)
    requires key in form && form[key].Group? && !form[key].radio
    requires i < |form[key].choices| && form[key].choices[i].checked
    ensures var r := Restored(form, draft);
      r[key].Group? && |r[key].choices| == |form[key].choices| && r[key].choices[i].checked
  {
  }

  /** A scalar saved for a group acts as the one-element list holding it. */
  lemma {:induction false} RestoreLiftsScalar(choices: seq<Choice>, s: string)
    ensures Restore(Group(choices, false), Field(Scalar(s))) == Restore(Group(choices, false), Field(List([s])))
    ensures Restore(Group(choices, true), Field(Scalar(s))) == Restore(Group(choices, true), Field(List([s])))
  {
  }

  // ---------------------------------------------------------------------------
  // Round trip: restoring a saved draft onto cleared forms

  /** A control with its name and whether it is disabled, in document order. */
  datatype Named = Named(name: string, control: Control, disabled: bool)

  /** The values of one control: a text its text, a checked lone checkbox its
      value (`on` unless the page gives another), a group the values of its
      checked choices, a select its chosen option. */
  function ControlValues(c: Control): seq<string>
  {
    match c
    case Text(t) => [t]
    case Checkbox(value, checked) => if checked then [value] else []
    case Group(choices, _) => CheckedValues(choices)
    case Select(options, selected) => if selected in options then [selected] else []
  }

  function CheckedValues(choices: seq<Choice>): (r: seq<string>)
    ensures forall x :: x in r <==> exists i :: 0 <= i < |choices| && choices[i].checked && choices[i].value == x
  {
    if |choices| == 0 then []
    else (if choices[0].checked then [choices[0].value] else []) + CheckedValues(choices[1..])
  }

  function Entries(name: string, xs: seq<string>): (es: seq<Entry>)
    ensures |es| == |xs| && forall i :: 0 <= i < |xs| ==> es[i] == Entry(name, xs[i])
  {
    if |xs| == 0 then [] else [Entry(name, xs[0])] + Entries(name, xs[1..])
  }

  /** What `FormData` lists for a named control: nothing when it is disabled. */
  function Submitted(n: Named): (r: seq<string>)
    ensures n.disabled ==> r == []
    ensures !n.disabled ==> r == ControlValues(n.control)
  {
    if n.disabled then [] else ControlValues(n.control)
  }

  /** The entries of `new FormData(form)`, control by control. */
  function FormEntries(form: seq<Named>): seq<Entry>
  {
    if |form| == 0 then [] else Entries(form[0].name, Submitted(form[0])) + FormEntries(form[1..])
  }

  /** The names of the disabled controls. */
  function DisabledNames(form: seq<Named>): (r: set<string>)
    ensures r <= Names(form)
  {
    if |form| == 0 then {}
    else
      var rest := DisabledNames(form[1..]);
      assert Names(form[1..]) <= Names(form) by {
        forall x | x in Names(form[1..]) ensures x in Names(form) {
          var j :| 0 <= j < |form[1..]| && form[1..][j].name == x;
          assert form[j + 1].name == x;
        }
      }
      (if form[0].disabled then {form[0].name} else {}) + rest
  }

  function Names(form: seq<Named>): set<string>
  {
    set i | 0 <= i < |form| :: form[i].name
  }

  /** `form.elements` as a map from name to control. */
  function Controls(form: seq<Named>): (m: map<string, Control>)
    ensures m.Keys == Names(form)
  {
    if |form| == 0 then map[] else Controls(form[1..])[form[0].name := form[0].control]
  }

  /** A control as a blank page shows it. */
  function Cleared(c: Control): Control
  {
    match c
    case Group(choices, radio) => Group(ClearedChoices(choices), radio)
    case Checkbox(value, _) => Checkbox(value, false)
    case Select(options, _) => Select(options, "")
    case Text(_) => Text("")
  }

  function ClearedChoices(choices: seq<Choice>): (r: seq<Choice>)
    ensures |r| == |choices|
    ensures forall i :: 0 <= i < |r| ==> r[i] == choices[i].(checked := false)
  {
    seq(|choices|, i requires 0 <= i < |choices| => choices[i].(checked := false))
  }

  function ClearedForm(form: map<string, Control>): map<string, Control>
  {
    map k | k in form :: Cleared(form[k])
  }

  /** Controls the draft can describe exactly: the choices of a group have
      distinct, non-empty values, a lone checkbox has a non-empty value (an
      empty one is saved as the falsy `''`), and a select shows one of its
      options or nothing. */
  predicate WellFormedControl(c: Control)
  {
    match c
    case Group(choices, radio) =>
      && (forall i :: 0 <= i < |choices| ==> choices[i].value != "")
      && (forall i, j :: 0 <= i < j < |choices| ==> choices[i].value != choices[j].value)
      && (radio ==> forall i, j :: 0 <= i < j < |choices| && choices[i].checked ==> !choices[j].checked)
    case Select(options, selected) => selected in options || selected == ""
    case Checkbox(value, _) => value != ""
    case Text(_) => true
  }

  /** Names are distinct and every control is well formed. */
  predicate WellFormedForm(form: seq<Named>)
  {
    && (forall i, j :: 0 <= i < j < |form| ==> form[i].name != form[j].name)
    && (forall i :: 0 <= i < |form| ==> WellFormedControl(form[i].control))
  }

  lemma {:induction false} ProjectFormEntries(form: seq<Named>, key: string)
    requires WellFormedForm(form)
    ensures key !in Names(form) ==> Project(FormEntries(form), key) == []
    ensures key in Names(form) ==>
      Project(FormEntries(form), key) == (if key in DisabledNames(form) then [] else ControlValues(Controls(form)[key]))
  {
    if |form| > 0 {
      var head := Entries(form[0].name, Submitted(form[0]));
      NamesOfTail(form);
      ProjectFormEntries(form[1..], key);
      ProjectAppend(head, FormEntries(form[1..]), key);
      ProjectEntries(form[0].name, Submitted(form[0]), key);
    }
  }

  /** What a reload shows for each control of a form: an enabled control as
      it was, a disabled one blank, since `FormData` never saved it. */
  function Reloaded(form: seq<Named>): (m: map<string, Control>)
    ensures m.Keys == Names(form)
  {
    map k | k in Controls(form) :: if k in DisabledNames(form) then Cleared(Controls(form)[k]) else Controls(form)[k]
  }

  /** With no control disabled, a reload shows every control as it was. */
  lemma {:induction false} ReloadedEnabled(form: seq<Named>)
    requires DisabledNames(form) == {}
    ensures Reloaded(form) == Controls(form)
  {
  }

  /** The names of a well-formed form are its first name and, apart from it,
      the names of the rest. */
  lemma {:induction false} NamesOfTail(form: seq<Named>)
    requires |form| > 0 && WellFormedForm(form)
    ensures WellFormedForm(form[1..])
    ensures Names(form) == {form[0].name} + Names(form[1..])
    ensures form[0].name !in Names(form[1..])
  {
    forall j | 0 <= j < |form| - 1 ensures form[1..][j].name != form[0].name {
      assert form[1..][j] == form[j + 1];
    }
    forall x | x in Names(form) ensures x in {form[0].name} + Names(form[1..]) {
      var i :| 0 <= i < |form| && form[i].name == x;
      if i > 0 { assert form[1..][i - 1] == form[i]; }
    }
  }

  lemma {:induction false} ProjectEntries(name: string, xs: seq<string>, key: string)
    ensures Project(Entries(name, xs), key) == if name == key then xs else []
  {
    if |xs| > 0 {
      ProjectEntries(name, xs[1..], key);
      assert xs == [xs[0]] + xs[1..];
    }
  }

  lemma {:induction false} CheckedValuesNonEmpty(choices: seq<Choice>, radio: bool)
    requires WellFormedControl(Group(choices, radio))
    ensures forall i :: 0 <= i < |CheckedValues(choices)| ==> CheckedValues(choices)[i] != ""
  {
    forall i | 0 <= i < |CheckedValues(choices)|
      ensures CheckedValues(choices)[i] != ""
    {
      var x := CheckedValues(choices)[i];
      assert x in CheckedValues(choices);
      var j :| 0 <= j < |choices| && choices[j].checked && choices[j].value == x;
    }
  }

  lemma {:induction false} CheckedValueListed(choices: seq<Choice>, i: nat)
    requires i < |choices|
    ensures choices[i].checked ==> choices[i].value in CheckedValues(choices)
  {
  }

  /** Restoring the saved values of a well-formed control onto its cleared
      copy gives the control back. */
  lemma {:induction false} RestoreClearedControl(c: Control)
    requires WellFormedControl(c)
    ensures var saved := AsStored(Collected(ControlValues(c)));
      (saved.None? ==> Cleared(c) == c) && (saved.Some? ==> Restore(Cleared(c), saved.value) == c)
  {
    if c.Group? {
      RestoreClearedGroup(c.choices, c.radio);
    }
  }

  lemma {:induction false} RestoreClearedGroup(choices: seq<Choice>, radio: bool)
    requires WellFormedControl(Group(choices, radio))
    ensures var saved := AsStored(Collected(ControlValues(Group(choices, radio))));
      (saved.None? ==> Cleared(Group(choices, radio)) == Group(choices, radio))
      && (saved.Some? ==> Restore(Cleared(Group(choices, radio)), saved.value) == Group(choices, radio))
  {
    var xs := CheckedValues(choices);
    CheckedValuesNonEmpty(choices, radio);
    CollectedNonEmpty(xs);
    if |xs| == 0 {
      NothingChecked(choices);
    } else {
      assert Lifted(AsStored(Collected(xs)).value) == xs;
      if radio {
        RecheckedRadio(choices);
      } else {
        Rechecked(choices, radio);
      }
    }
  }

  lemma {:induction false} NothingChecked(choices: seq<Choice>)
    requires CheckedValues(choices) == []
    ensures ClearedChoices(choices) == choices
  {
    forall i | 0 <= i < |choices| ensures ClearedChoices(choices)[i] == choices[i] {
      CheckedValueListed(choices, i);
    }
  }

  lemma {:induction false} Rechecked(choices: seq<Choice>, radio: bool)
    requires WellFormedControl(Group(choices, radio))
    ensures CheckMatching(ClearedChoices(choices), CheckedValues(choices)) == choices
  {
    var xs := CheckedValues(choices);
    var r := CheckMatching(ClearedChoices(choices), xs);
    forall i | 0 <= i < |choices| ensures r[i] == choices[i] {
      CheckedValueListed(choices, i);
      if choices[i].value in xs {
        var j :| 0 <= j < |choices| && choices[j].checked && choices[j].value == choices[i].value;
        assert i == j;
      }
    }
  }

  /** Checking the saved value of a radio group on its cleared copy gives
      the group back: the one checked radio is the only one whose value was
      saved. */
  /** Two choices of a well-formed group with the same value are one. */
  lemma {:induction false} SameValueSameChoice(choices: seq<Choice>, radio: bool, i: nat, j: nat)
    requires WellFormedControl(Group(choices, radio))
    requires i < |choices| && j < |choices| && choices[i].value == choices[j].value
    ensures i == j
  {
  }

  /** A well-formed radio group has at most one checked radio. */
  lemma {:induction false} OneCheckedRadio(choices: seq<Choice>, i: nat, j: nat)
    requires WellFormedControl(Group(choices, true))
    requires i < |choices| && j < |choices| && choices[i].checked && choices[j].checked
    ensures i == j
  {
  }

  lemma {:induction false} RecheckedRadio(choices: seq<Choice>)
    requires WellFormedControl(Group(choices, true))
    requires CheckedValues(choices) != []
    ensures CheckRadios(ClearedChoices(choices), CheckedValues(choices)) == choices
  {
    var xs := CheckedValues(choices);
    var cleared := ClearedChoices(choices);
    assert xs[0] in xs;
    var c :| 0 <= c < |choices| && choices[c].checked && choices[c].value == xs[0];
    forall j | 0 <= j < |choices| ensures choices[j].checked == (j == c) {
      if choices[j].checked {
        OneCheckedRadio(choices, j, c);
      }
    }
    forall j | 0 <= j < |choices| ensures cleared[j].value in xs <==> j == c {
      assert cleared[j].value == choices[j].value;
      if cleared[j].value in xs {
        var i :| 0 <= i < |choices| && choices[i].checked && choices[i].value == cleared[j].value;
        OneCheckedRadio(choices, i, c);
        SameValueSameChoice(choices, true, i, j);
      }
    }
    CheckRadiosFromValues(cleared, xs, 0);
    CheckRadiosFromLast(cleared, xs, 0, c);
    var r := CheckRadios(cleared, xs);
    assert forall j :: 0 <= j < |choices| ==> r[j] == choices[j];
  }

  /** Saving both forms and then restoring the draft onto cleared forms
      reproduces every enabled control and leaves every disabled one blank,
      provided names are distinct across both forms and none is one of the
      synthetic names. With nothing disabled, both forms come back whole. */
  lemma {:induction false} SaveRestoreRoundTrip(admission: seq<Named>, clinical: seq<Named>, ui: UiState, savedAt: string, draft: Draft)
    requires WellFormedForm(admission) && WellFormedForm(clinical)
    requires Names(admission) !! Names(clinical)
    requires forall k :: k in Names(admission) + Names(clinical) ==> !IsUiKey(k) && k != LastSavedKey
    requires IsSaveOf(draft, FormEntries(admission), FormEntries(clinical), ui, savedAt)
    ensures Restored(ClearedForm(Controls(admission)), draft) == Reloaded(admission)
    ensures Restored(ClearedForm(Controls(clinical)), draft) == Reloaded(clinical)
    ensures DisabledNames(admission) == {} ==> Restored(ClearedForm(Controls(admission)), draft) == Controls(admission)
    ensures DisabledNames(clinical) == {} ==> Restored(ClearedForm(Controls(clinical)), draft) == Controls(clinical)
  {
    forall key | key in Names(admission)
      ensures LookupStored(draft, key) == AsStored(Collected(SubmittedUnder(admission, key)))
    {
      SavedUnder(admission, clinical, ui, savedAt, draft, key);
    }
    forall key | key in Names(clinical)
      ensures LookupStored(draft, key) == AsStored(Collected(SubmittedUnder(clinical, key)))
    {
      SavedUnder(admission, clinical, ui, savedAt, draft, key);
    }
    RestoreOneForm(admission, draft);
    RestoreOneForm(clinical, draft);
    if DisabledNames(admission) == {} {
      ReloadedEnabled(admission);
    }
    if DisabledNames(clinical) == {} {
      ReloadedEnabled(clinical);
    }
  }

  /** The draft holds, under each name of either form, what `FormData`
      listed for it. */
  lemma {:induction false} SavedUnder(admission: seq<Named>, clinical: seq<Named>, ui: UiState, savedAt: string, draft: Draft, key: string)
    requires WellFormedForm(admission) && WellFormedForm(clinical)
    requires Names(admission) !! Names(clinical)
    requires key in Names(admission) + Names(clinical) && !IsUiKey(key) && key != LastSavedKey
    requires IsSaveOf(draft, FormEntries(admission), FormEntries(clinical), ui, savedAt)
    ensures key in Names(admission) ==> LookupStored(draft, key) == AsStored(Collected(SubmittedUnder(admission, key)))
    ensures key in Names(clinical) ==> LookupStored(draft, key) == AsStored(Collected(SubmittedUnder(clinical, key)))
  {
    var ea, ec := FormEntries(admission), FormEntries(clinical);
    assert UiEntry(ui, savedAt, key).None?;
    assert LookupStored(draft, key) == AsStored(Collected(Project(ea + ec, key)));
    ProjectAppend(ea, ec, key);
    ProjectFormEntries(admission, key);
    ProjectFormEntries(clinical, key);
    if key in Names(admission) {
      assert Project(ec, key) == [];
      assert Project(ea + ec, key) == SubmittedUnder(admission, key);
    } else {
      assert Project(ea, key) == [];
      assert Project(ea + ec, key) == SubmittedUnder(clinical, key);
    }
  }

  /** The values `FormData` lists under the name `key` of a form. */
  function SubmittedUnder(form: seq<Named>, key: string): seq<string>
    requires key in Names(form)
  {
    if key in DisabledNames(form) then [] else ControlValues(Controls(form)[key])
  }

  lemma {:induction false} RestoreOneForm(form: seq<Named>, draft: Draft)
    requires WellFormedForm(form)
    requires forall k :: k in Names(form) ==> !IsUiKey(k)
    requires forall k :: k in Names(form) ==> LookupStored(draft, k) == AsStored(Collected(SubmittedUnder(form, k)))
    ensures Restored(ClearedForm(Controls(form)), draft) == Reloaded(form)
  {
    var m := Controls(form);
    forall k | k in m ensures WellFormedControl(m[k]) {
      ControlsWellFormed(form, k);
    }
    forall k | k in m ensures Restored(ClearedForm(m), draft)[k] == Reloaded(form)[k] {
      if k !in DisabledNames(form) {
        RestoreClearedControl(m[k]);
      }
    }
  }

  lemma {:induction false} ControlsWellFormed(form: seq<Named>, key: string)
    requires WellFormedForm(form) && key in Names(form)
    ensures WellFormedControl(Controls(form)[key])
  {
    if form[0].name != key {
      assert key in Names(form[1..]) by {
        var j :| 0 <= j < |form| && form[j].name == key;
        assert form[1..][j - 1].name == key;
      }
      ControlsWellFormed(form[1..], key);
    }
  }
}
