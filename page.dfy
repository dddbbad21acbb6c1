/** The page state that the checkbox handlers change (app.js:134-191,
    app.js:437-468) and the restore sequence of `loadFromLocal`, which puts
    the saved values back and then replays those handlers for the saved
    checkbox states (app.js:47-131). */
module PageState {
  import opened Wrappers
  import opened DraftStore

  /** The text of the text input `name` of `form`, `""` when there is none. */
  function TextOf(form: map<string, Control>, name: string): string
  {
    if name in form && form[name].Text? then form[name].text else ""
  }

  /** `form` with the text input `name` set to `v` (a form without such an
      input is left as it is). */
  function SetText(form: map<string, Control>, name: string, v: string): (r: map<string, Control>)
    ensures r.Keys == form.Keys
    ensures name in form && form[name].Text? ==> TextOf(r, name) == v
    ensures forall k :: k in form && k != name ==> r[k] == form[k]
    ensures forall other :: other != name ==> TextOf(r, other) == TextOf(form, other)
  {
    if name in form && form[name].Text? then form[name := Text(v)] else form
  }

  /** `form` with the text input `name` given `default` when it is empty
      (`if (!input.value) input.value = default`). */
  function Defaulted(form: map<string, Control>, name: string, default: string): (r: map<string, Control>)
    ensures r.Keys == form.Keys
    ensures forall other :: other != name ==> TextOf(r, other) == TextOf(form, other)
    ensures TextOf(form, name) != "" ==> r == form
    ensures name in form && form[name].Text? && TextOf(form, name) == "" ==> TextOf(r, name) == default
  {
    if TextOf(form, name) == "" then SetText(form, name, default) else form
  }

  /** `form` with every choice of the group `name` unchecked. */
  function UncheckGroup(form: map<string, Control>, name: string): (r: map<string, Control>)
    ensures r.Keys == form.Keys
    ensures name in form && form[name].Group? ==>
      r[name].Group? && forall i :: 0 <= i < |r[name].choices| ==> !r[name].choices[i].checked
    ensures forall k :: k in form && k != name ==> r[k] == form[k]
  {
    if name in form && form[name].Group? then form[name := Cleared(form[name])] else form
  }

  /** No choice of the group `name` is checked. */
  predicate NoneChecked(form: map<string, Control>, name: string)
  {
    name in form && form[name].Group? ==>
      forall i :: 0 <= i < |form[name].choices| ==> !form[name].choices[i].checked
  }

  /** The clinical devices whose detail box (first id) holds a location
      input (second name), as `toggleClinPVP`, `toggleClinPAM` and
      `toggleClinDreno` pair them. */
  const ClinicalDetails: seq<(string, string)> :=
    [("clin_pvp_detail", "clin_pvp_loc"), ("clin_pam_detail", "clin_pam_loc"),
     ("clin_dreno_detail", "clin_dreno_loc")]

  /** The location inputs of the admission form that `toggleSurgPVP` and
      `toggleSurgPAM` hide themselves. */
  const SurgicalDetails: seq<string> := ["inv_pvp_loc", "inv_pam_loc"]

  /** Whether the saved draft holds a truthy value under `key` (`if (data.key)`). */
  predicate SavedOn(draft: Draft, key: string)
  {
    key in draft && StoredTruthy(draft[key])
  }

  /** The lone checkboxes after a replay step: the box `id` is checked when
      its state was saved, and no other box changes. */
  function Ticked(checks: map<string, bool>, saved: bool, id: string): map<string, bool>
  {
    if saved then checks[id := true] else checks
  }

  /** The admission form after the surgical replay of `loadFromLocal`: the
      Clexane defaults when its box was saved, then `Nega` in the allergy
      detail when that box was saved. */
  function ReplayedAdmission(form: map<string, Control>, data: Draft, tomorrow: string): map<string, Control>
  {
    var withClexane :=
      if SavedOn(data, "_ui_clexane")
      then Defaulted(Defaulted(form, "heparina_data", tomorrow), "heparina_hora", "18:00") else form;
    if SavedOn(data, "_ui_nega_alergia") then SetText(withClexane, "alergia_detalhe", "Nega") else withClexane
  }

  /** What the replay does to the admission form: no input is added or
      removed, only the allergy detail and the two heparin inputs can change,
      and a saved allergy box leaves `Nega` in the detail. */
  lemma {:induction false} ReplayedAdmissionFrame(form: map<string, Control>, data: Draft, tomorrow: string)
    ensures ReplayedAdmission(form, data, tomorrow).Keys == form.Keys
    ensures forall k :: k in form && k !in {"alergia_detalhe", "heparina_data", "heparina_hora"}
              ==> ReplayedAdmission(form, data, tomorrow)[k] == form[k]
    ensures SavedOn(data, "_ui_nega_alergia") ==>
      var r := ReplayedAdmission(form, data, tomorrow);
      r == SetText(r, "alergia_detalhe", "Nega")
  {
    var withClexane :=
      if SavedOn(data, "_ui_clexane")
      then Defaulted(Defaulted(form, "heparina_data", tomorrow), "heparina_hora", "18:00") else form;
    var r := ReplayedAdmission(form, data, tomorrow);
    if SavedOn(data, "_ui_nega_alergia") {
      assert r == SetText(withClexane, "alergia_detalhe", "Nega");
      if "alergia_detalhe" in withClexane && withClexane["alergia_detalhe"].Text? {
        assert r == withClexane["alergia_detalhe" := Text("Nega")];
        assert SetText(r, "alergia_detalhe", "Nega") == r["alergia_detalhe" := Text("Nega")];
      }
    }
  }

  /** After the five replay steps every saved box is checked. */
  lemma {:induction false} TickedAll(checks: map<string, bool>, a: bool, b: bool, c: bool, d: bool, e: bool)
    ensures var r := Ticked(Ticked(Ticked(Ticked(Ticked(checks, a, "check_clexane"), b, "nega_alergia"),
                                          c, "check_tot"), d, "check_pvp"), e, "check_pam");
      && (a ==> "check_clexane" in r && r["check_clexane"])
      && (b ==> "nega_alergia" in r && r["nega_alergia"])
      && (c ==> "check_tot" in r && r["check_tot"])
      && (d ==> "check_pvp" in r && r["check_pvp"])
      && (e ==> "check_pam" in r && r["check_pam"])
  {
    var r1 := Ticked(checks, a, "check_clexane");
    var r2 := Ticked(r1, b, "nega_alergia");
    var r3 := Ticked(r2, c, "check_tot");
    var r4 := Ticked(r3, d, "check_pvp");
    var r5 := Ticked(r4, e, "check_pam");
    assert "check_clexane" != "nega_alergia" && "check_clexane" != "check_tot" && "check_clexane" != "check_pvp" && "check_clexane" != "check_pam";
    assert "nega_alergia" != "check_tot" && "nega_alergia" != "check_pvp" && "nega_alergia" != "check_pam";
    assert "check_tot" != "check_pvp" && "check_tot" != "check_pam" && "check_pvp" != "check_pam";
  }

  class Page {
    /** Controls of the admission (surgical) form and of the clinical form, by name. */
    var admission: map<string, Control>
    var clinical: map<string, Control>
    /** Ids of the elements that carry the `hidden` class. */
    var hidden: set<string>
    /** Ids of the inputs that are disabled. */
    var disabled: set<string>
    /** The checkboxes outside the forms' data, by id (check_clexane,
        nega_alergia, check_tot, check_pvp, check_pam). */
    var checks: map<string, bool>
    /** The text of the BMI display and whether it is highlighted. */
    var imcText: string
    var imcHighlighted: bool

    constructor (admission: map<string, Control>, clinical: map<string, Control>)
      ensures this.admission == admission && this.clinical == clinical
      ensures hidden == {} && disabled == {} && checks == map[]
      ensures imcText == "-" && !imcHighlighted
    {
      this.admission := admission;
      this.clinical := clinical;
      hidden := {};
      disabled := {};
      checks := map[];
      imcText := "-";
      imcHighlighted := false;
    }

    /** What the handlers keep: whatever is hidden holds no data, so a hidden
        device adds nothing to a summary. A hidden airway choice has no
        checked radio; a hidden detail box or location input is empty. */
    ghost predicate Tidy()
      reads this
    {
      && ("vad_selection" in hidden ==> NoneChecked(clinical, "clin_vad"))
      && (forall d :: d in ClinicalDetails && d.0 in hidden ==> TextOf(clinical, d.1) == "")
      && (forall n :: n in SurgicalDetails && n in hidden ==> TextOf(admission, n) == "")
    }

    /** `toggleVAD`: the airway choice is shown while TOT is checked; when it is
        unchecked the choice is hidden and every `clin_vad` radio cleared. */
    method ToggleVAD(on: bool)
      modifies this
      ensures hidden == if on then old(hidden) - {"vad_selection"} else old(hidden) + {"vad_selection"}
      ensures clinical == if on then old(clinical) else UncheckGroup(old(clinical), "clin_vad")
      ensures old(Tidy()) ==> Tidy()
      ensures admission == old(admission) && disabled == old(disabled) && checks == old(checks)
      ensures imcText == old(imcText) && imcHighlighted == old(imcHighlighted)
    {
      if on {
        hidden := hidden - {"vad_selection"};
      } else {
        hidden := hidden + {"vad_selection"};
        clinical := UncheckGroup(clinical, "clin_vad");
      }
    }

    /** `toggleClinPVP`, `toggleClinPAM`, `toggleClinDreno`: the detail box
        `detailId` is shown while the device is checked; when it is unchecked
        the box is hidden and its location input `locName` emptied. */
    method ToggleClinicalDetail(on: bool, detailId: string, locName: string)
      modifies this
      ensures hidden == if on then old(hidden) - {detailId} else old(hidden) + {detailId}
      ensures clinical == if on then old(clinical) else SetText(old(clinical), locName, "")
      ensures !on ==> TextOf(clinical, locName) == ""
      ensures (detailId, locName) in ClinicalDetails && old(Tidy()) ==> Tidy()
      ensures admission == old(admission) && disabled == old(disabled) && checks == old(checks)
      ensures imcText == old(imcText) && imcHighlighted == old(imcHighlighted)
    {
      if on {
        hidden := hidden - {detailId};
      } else {
        hidden := hidden + {detailId};
        clinical := SetText(clinical, locName, "");
      }
    }

    /** `toggleSurgPVP`, `toggleSurgPAM`: the location input `locName` of the
        admission form is itself shown or hidden; hiding empties it. */
    method ToggleSurgicalDetail(on: bool, locName: string)
      modifies this
      ensures hidden == if on then old(hidden) - {locName} else old(hidden) + {locName}
      ensures admission == if on then old(admission) else SetText(old(admission), locName, "")
      ensures !on ==> TextOf(admission, locName) == ""
      ensures locName in SurgicalDetails && old(Tidy()) ==> Tidy()
      ensures clinical == old(clinical) && disabled == old(disabled) && checks == old(checks)
      ensures imcText == old(imcText) && imcHighlighted == old(imcHighlighted)
    {
      if on {
        hidden := hidden - {locName};
      } else {
        hidden := hidden + {locName};
        admission := SetText(admission, locName, "");
      }
    }

    /** `toggleAllergyInput`: "no known allergy" fills the allergy detail with
        `Nega` and disables it; unchecking empties and enables it. */
    method ToggleAllergyInput(on: bool)
      modifies this
      ensures admission == SetText(old(admission), "alergia_detalhe", if on then "Nega" else "")
      ensures disabled == if on then old(disabled) + {"alergia_detalhe"} else old(disabled) - {"alergia_detalhe"}
      ensures on <==> "alergia_detalhe" in disabled
      ensures old(Tidy()) ==> Tidy()
      ensures clinical == old(clinical) && hidden == old(hidden) && checks == old(checks)
      ensures imcText == old(imcText) && imcHighlighted == old(imcHighlighted)
    {
      if on {
        admission := SetText(admission, "alergia_detalhe", "Nega");
        disabled := disabled + {"alergia_detalhe"};
      } else {
        admission := SetText(admission, "alergia_detalhe", "");
        disabled := disabled - {"alergia_detalhe"};
      }
    }

    /** `toggleClexane`: the start date and time are enabled exactly while the
        box is checked; checking it fills an empty date with `tomorrow` and an
        empty time with `18:00`, and keeps what was already there. */
    method ToggleClexane(on: bool, tomorrow: string)
      modifies this
      ensures disabled == if on then old(disabled) - {"heparina_data", "heparina_hora"}
                          else old(disabled) + {"heparina_data", "heparina_hora"}
      ensures on ==> admission == Defaulted(Defaulted(old(admission), "heparina_data", tomorrow), "heparina_hora", "18:00")
      ensures !on ==> admission == old(admission)
      ensures old(Tidy()) ==> Tidy()
      ensures clinical == old(clinical) && hidden == old(hidden) && checks == old(checks)
      ensures imcText == old(imcText) && imcHighlighted == old(imcHighlighted)
    {
      if on {
        disabled := disabled - {"heparina_data", "heparina_hora"};
      } else {
        disabled := disabled + {"heparina_data", "heparina_hora"};
      }
      if on {
        if TextOf(admission, "heparina_data") == "" {
          admission := SetText(admission, "heparina_data", tomorrow);
        }
        if TextOf(admission, "heparina_hora") == "" {
          admission := SetText(admission, "heparina_hora", "18:00");
        }
      }
    }

    /** First step of the surgical replay in `loadFromLocal`: a saved
        Clexane box is checked again and `toggleClexane` run, which enables
        the start date and time. */
    method ReplayClexane(data: Draft, tomorrow: string)
      modifies this
      ensures clinical == old(clinical) && hidden == old(hidden)
      ensures imcText == old(imcText) && imcHighlighted == old(imcHighlighted)
      ensures admission.Keys == old(admission.Keys)
      ensures forall k :: k in admission && k !in {"heparina_data", "heparina_hora"} ==> admission[k] == old(admission)[k]
      ensures "alergia_detalhe" in disabled <==> "alergia_detalhe" in old(disabled)
      ensures forall id :: id in old(checks) && id != "check_clexane" ==> id in checks && checks[id] == old(checks)[id]
      ensures SavedOn(data, "_ui_clexane") ==>
        "check_clexane" in checks && checks["check_clexane"]
        && "heparina_data" !in disabled && "heparina_hora" !in disabled
      ensures SavedOn(data, "_ui_clexane") ==>
        admission == Defaulted(Defaulted(old(admission), "heparina_data", tomorrow), "heparina_hora", "18:00")
      ensures !SavedOn(data, "_ui_clexane") ==> admission == old(admission) && disabled == old(disabled) && checks == old(checks)
      ensures checks == Ticked(old(checks), SavedOn(data, "_ui_clexane"), "check_clexane")
      ensures disabled == if SavedOn(data, "_ui_clexane") then old(disabled) - {"heparina_data", "heparina_hora"} else old(disabled)
    {
      if SavedOn(data, "_ui_clexane") {
        checks := checks["check_clexane" := true];
        ToggleClexane(true, tomorrow);
      }
    }

    /** Second step of the surgical replay: a saved "no known allergy" box is
        checked again and `toggleAllergyInput` run, which fills and disables
        the allergy detail. */
    method ReplayAllergy(data: Draft)
      modifies this
      ensures clinical == old(clinical) && hidden == old(hidden)
      ensures imcText == old(imcText) && imcHighlighted == old(imcHighlighted)
      ensures admission.Keys == old(admission.Keys)
      ensures forall k :: k in admission && k != "alergia_detalhe" ==> admission[k] == old(admission)[k]
      ensures forall id :: id != "alergia_detalhe" ==> (id in disabled <==> id in old(disabled))
      ensures forall id :: id in old(checks) && id != "nega_alergia" ==> id in checks && checks[id] == old(checks)[id]
      ensures SavedOn(data, "_ui_nega_alergia") ==>
        "nega_alergia" in checks && checks["nega_alergia"] && "alergia_detalhe" in disabled
        && admission == SetText(admission, "alergia_detalhe", "Nega")
      ensures !SavedOn(data, "_ui_nega_alergia") ==> admission == old(admission) && disabled == old(disabled) && checks == old(checks)
      ensures checks == Ticked(old(checks), SavedOn(data, "_ui_nega_alergia"), "nega_alergia")
      ensures disabled == if SavedOn(data, "_ui_nega_alergia") then old(disabled) + {"alergia_detalhe"} else old(disabled)
      ensures admission == if SavedOn(data, "_ui_nega_alergia") then SetText(old(admission), "alergia_detalhe", "Nega") else old(admission)
    {
      if SavedOn(data, "_ui_nega_alergia") {
        checks := checks["nega_alergia" := true];
        ToggleAllergyInput(true);
      }
    }

    /** Third step of the surgical replay: the saved BMI text is shown, and
        highlighted unless it is the placeholder `-`. */
    method ReplayImc(data: Draft)
      modifies this
      ensures admission == old(admission) && clinical == old(clinical) && hidden == old(hidden)
      ensures disabled == old(disabled) && checks == old(checks)
      ensures SavedOn(data, "_ui_imc") ==>
        imcText == StoredString(data["_ui_imc"])
        && imcHighlighted == (old(imcHighlighted) || data["_ui_imc"] != Field(Scalar("-")))
      ensures !SavedOn(data, "_ui_imc") ==> imcText == old(imcText) && imcHighlighted == old(imcHighlighted)
    {
      if SavedOn(data, "_ui_imc") {
        imcText := StoredString(data["_ui_imc"]);
        if data["_ui_imc"] != Field(Scalar("-")) {
          imcHighlighted := true;
        }
      }
    }

    /** The clinical part of the replay in `loadFromLocal`: the TOT, PVP and
        PAM boxes are checked again and their detail boxes shown. Showing
        never clears anything, so both forms keep their restored values. */
    method ReplayClinical(data: Draft)
      modifies this
      ensures admission == old(admission) && clinical == old(clinical) && disabled == old(disabled)
      ensures imcText == old(imcText) && imcHighlighted == old(imcHighlighted)
      ensures hidden == old(hidden)
                        - (if SavedOn(data, "_ui_tot") then {"vad_selection"} else {})
                        - (if SavedOn(data, "_ui_pvp") then {"clin_pvp_detail"} else {})
                        - (if SavedOn(data, "_ui_pam") then {"clin_pam_detail"} else {})
      ensures forall id :: id in old(checks) ==> id in checks && (old(checks)[id] ==> checks[id])
      ensures SavedOn(data, "_ui_tot") ==> "check_tot" in checks && checks["check_tot"]
      ensures SavedOn(data, "_ui_pvp") ==> "check_pvp" in checks && checks["check_pvp"]
      ensures SavedOn(data, "_ui_pam") ==> "check_pam" in checks && checks["check_pam"]
      ensures checks == Ticked(Ticked(Ticked(old(checks), SavedOn(data, "_ui_tot"), "check_tot"),
                                      SavedOn(data, "_ui_pvp"), "check_pvp"),
                               SavedOn(data, "_ui_pam"), "check_pam")
    {
      ReplayTot(data);
      ReplayDevice(data, "_ui_pvp", "check_pvp", "clin_pvp_detail", "clin_pvp_loc");
      ReplayDevice(data, "_ui_pam", "check_pam", "clin_pam_detail", "clin_pam_loc");
    }

    /** A saved TOT box is checked again and `toggleVAD` run, which shows the
        airway choice. */
    method ReplayTot(data: Draft)
      modifies this
      ensures admission == old(admission) && clinical == old(clinical) && disabled == old(disabled)
      ensures imcText == old(imcText) && imcHighlighted == old(imcHighlighted)
      ensures hidden == old(hidden) - (if SavedOn(data, "_ui_tot") then {"vad_selection"} else {})
      ensures forall id :: id in old(checks) ==> id in checks && (old(checks)[id] ==> checks[id])
      ensures SavedOn(data, "_ui_tot") ==> "check_tot" in checks && checks["check_tot"]
      ensures checks == Ticked(old(checks), SavedOn(data, "_ui_tot"), "check_tot")
    {
      if SavedOn(data, "_ui_tot") {
        checks := checks["check_tot" := true];
        ToggleVAD(true);
      }
    }

    /** A saved device box `checkId` is checked again and its handler run,
        which shows the detail box `detailId`. */
    method ReplayDevice(data: Draft, key: string, checkId: string, detailId: string, locName: string)
      modifies this
      ensures admission == old(admission) && clinical == old(clinical) && disabled == old(disabled)
      ensures imcText == old(imcText) && imcHighlighted == old(imcHighlighted)
      ensures hidden == old(hidden) - (if SavedOn(data, key) then {detailId} else {})
      ensures forall id :: id in old(checks) ==> id in checks && (old(checks)[id] ==> checks[id])
      ensures SavedOn(data, key) ==> checkId in checks && checks[checkId]
      ensures checks == Ticked(old(checks), SavedOn(data, key), checkId)
    {
      if SavedOn(data, key) {
        checks := checks[checkId := true];
        ToggleClinicalDetail(true, detailId, locName);
      }
    }

    /** `loadFromLocal` given what local storage holds (`None` when there is no
        draft) and the date of tomorrow: every saved value is put back on both
        forms, then each saved checkbox state that is on is set again and its
        handler replayed, so that the restored page looks as it did when the
        user checked those boxes. */
    method LoadFromLocal(saved: Option<Draft>, tomorrow: string)
      modifies this
      ensures saved.None? ==>
        admission == old(admission) && clinical == old(clinical) && hidden == old(hidden)
        && disabled == old(disabled) && checks == old(checks)
        && imcText == old(imcText) && imcHighlighted == old(imcHighlighted)
      ensures saved.Some? ==> clinical == Restored(old(clinical), saved.value)
      ensures saved.Some? ==> admission.Keys == old(admission.Keys)
      ensures saved.Some? ==>
        forall k :: k in admission && k !in {"alergia_detalhe", "heparina_data", "heparina_hora"}
          ==> admission[k] == Restored(old(admission), saved.value)[k]
      ensures saved.Some? && SavedOn(saved.value, "_ui_nega_alergia") ==>
        "nega_alergia" in checks && checks["nega_alergia"] && "alergia_detalhe" in disabled
        && admission == SetText(admission, "alergia_detalhe", "Nega")
      ensures saved.Some? && SavedOn(saved.value, "_ui_clexane") ==>
        "check_clexane" in checks && checks["check_clexane"]
        && "heparina_data" !in disabled && "heparina_hora" !in disabled
      ensures saved.Some? && SavedOn(saved.value, "_ui_tot") ==>
        "check_tot" in checks && checks["check_tot"] && "vad_selection" !in hidden
      ensures saved.Some? && SavedOn(saved.value, "_ui_pvp") ==>
        "check_pvp" in checks && checks["check_pvp"] && "clin_pvp_detail" !in hidden
      ensures saved.Some? && SavedOn(saved.value, "_ui_pam") ==>
        "check_pam" in checks && checks["check_pam"] && "clin_pam_detail" !in hidden
      ensures saved.Some? && SavedOn(saved.value, "_ui_imc") ==>
        imcText == StoredString(saved.value["_ui_imc"])
        && (saved.value["_ui_imc"] != Field(Scalar("-")) ==> imcHighlighted)
      ensures saved.Some? ==>
        admission == ReplayedAdmission(Restored(old(admission), saved.value), saved.value, tomorrow)
      ensures saved.Some? ==>
        hidden == old(hidden)
                  - (if SavedOn(saved.value, "_ui_tot") then {"vad_selection"} else {})
                  - (if SavedOn(saved.value, "_ui_pvp") then {"clin_pvp_detail"} else {})
                  - (if SavedOn(saved.value, "_ui_pam") then {"clin_pam_detail"} else {})
      ensures saved.Some? ==>
        disabled == old(disabled)
                    - (if SavedOn(saved.value, "_ui_clexane") then {"heparina_data", "heparina_hora"} else {})
                    + (if SavedOn(saved.value, "_ui_nega_alergia") then {"alergia_detalhe"} else {})
      ensures saved.Some? ==>
        checks == Ticked(Ticked(Ticked(Ticked(Ticked(old(checks),
                    SavedOn(saved.value, "_ui_clexane"), "check_clexane"),
                    SavedOn(saved.value, "_ui_nega_alergia"), "nega_alergia"),
                    SavedOn(saved.value, "_ui_tot"), "check_tot"),
                    SavedOn(saved.value, "_ui_pvp"), "check_pvp"),
                    SavedOn(saved.value, "_ui_pam"), "check_pam")
      ensures saved.Some? ==>
        imcHighlighted == (old(imcHighlighted)
                           || (SavedOn(saved.value, "_ui_imc") && saved.value["_ui_imc"] != Field(Scalar("-"))))
      ensures saved.Some? && !SavedOn(saved.value, "_ui_imc") ==> imcText == old(imcText)
    {
      if saved.None? {
        return;
      }
      var data := saved.value;
      admission := RestoreForm(admission, data);
      clinical := RestoreForm(clinical, data);
      ghost var restored := admission;
      ReplaySaved(data, tomorrow);
      ReplayedAdmissionFrame(restored, data, tomorrow);
      TickedAll(old(checks), SavedOn(data, "_ui_clexane"), SavedOn(data, "_ui_nega_alergia"),
                SavedOn(data, "_ui_tot"), SavedOn(data, "_ui_pvp"), SavedOn(data, "_ui_pam"));
    }

    /** The replay half of `loadFromLocal`: each saved checkbox state that is
        on is set again and its handler run, surgical boxes first, then the
        BMI display, then the clinical boxes. */
    method ReplaySaved(data: Draft, tomorrow: string)
      modifies this
      ensures admission == ReplayedAdmission(old(admission), data, tomorrow)
      ensures clinical == old(clinical)
      ensures hidden == old(hidden)
                        - (if SavedOn(data, "_ui_tot") then {"vad_selection"} else {})
                        - (if SavedOn(data, "_ui_pvp") then {"clin_pvp_detail"} else {})
                        - (if SavedOn(data, "_ui_pam") then {"clin_pam_detail"} else {})
      ensures disabled == old(disabled)
                          - (if SavedOn(data, "_ui_clexane") then {"heparina_data", "heparina_hora"} else {})
                          + (if SavedOn(data, "_ui_nega_alergia") then {"alergia_detalhe"} else {})
      ensures checks == Ticked(Ticked(Ticked(Ticked(Ticked(old(checks),
                          SavedOn(data, "_ui_clexane"), "check_clexane"),
                          SavedOn(data, "_ui_nega_alergia"), "nega_alergia"),
                          SavedOn(data, "_ui_tot"), "check_tot"),
                          SavedOn(data, "_ui_pvp"), "check_pvp"),
                          SavedOn(data, "_ui_pam"), "check_pam")
      ensures imcText == if SavedOn(data, "_ui_imc") then StoredString(data["_ui_imc"]) else old(imcText)
      ensures imcHighlighted == (old(imcHighlighted) || (SavedOn(data, "_ui_imc") && data["_ui_imc"] != Field(Scalar("-"))))
    {
      ReplayClexane(data, tomorrow);
      ReplayAllergy(data);
      ReplayImc(data);
      ReplayClinical(data);
    }
  }
}
