# UPO admission form: a Dafny model of `app.js`

`app.js` drives a single-page admission form for a post-operative unit
(UPO). The page has two forms:

- the surgical admission form (`admissionForm`);
- the clinical form (`clinicalForm`).

The script keeps a draft of both forms in local storage. It shows or hides
the detail inputs when a checkbox is toggled. It writes two plain-text
notes for the medical record and exports a reminder as an iCalendar file.

This project models that logic and proves what it promises. The modules
follow the program's parts:

| module | file | models |
|---|---|---|
| `Wrappers` | `wrappers.dfy` | `Option` and `Result` |
| `JsStrings` | `js_strings.dfy` | the JavaScript string built-ins the script relies on: `join`, `split`, `startsWith`, `includes`, `trim`, `parseInt`, `filter(s => s)`, `replace(/\n/g, '\\n')` and `String(n)` |
| `DraftStore` | `draft_store.dfy` | the draft: how `saveToLocal` folds the `FormData` entries of both forms into one record and adds the `_ui_` flags, and how `loadFromLocal` puts a record back onto the forms' controls, with the round trip proved |
| `PageState` | `page.dfy` | the page as a `class Page`: the controls of both forms, hidden and disabled elements, the lone checkboxes and the BMI display, all updated in place by the toggle handlers and by `loadFromLocal` |
| `Instability` | `instability.dfy` | the four instability axes, `formatInst`, the surgical positives/negatives split and the clinical validation gate |
| `DateFormat` | `date_format.dfy` | `formatDate` (`yyyy-mm-dd` to `dd/mm`) |
| `ClinicalSummary` | `clinical_summary.dfy` | `generateClinicalSummary`: the gate, the fixed order of the instability lines, the device lines and the note |
| `SurgicalSummary` | `surgical_summary.dfy` | `generateSummary`: the three sections, the intra-operative line, the transfusion padding, history and airway, the checklist marks and the assembled note |
| `Calendar` | `calendar.dfy` | `generateCalendarEvent`: the compact ISO stamp and the twelve lines of the `.ics` file |

Where the source updates state in place, the model is imperative. The
`forEach` and `for … of` loops are `while` loops with invariants: the
`FormData` fold, the restore loop, the validation gate, the split of the
surgical phrases and both device lists. The handlers are methods of
`Page`. Each such method is proved equal to a specification function, and
the properties are proved about that function. The notes are built from
text with `+=` in the source; they are functions, and the two
`Generate…Summary` methods build the same text step by step.

## Model

| member | source | states |
|---|---|---|
| `DraftStore.Appended` | app.js:15-17 | Once a field holds a value, the next value is appended last: a list keeps its items and gains the new one; a lone first value becomes a two-item list. |
| `DraftStore.Step` | app.js:14-21 | One entry adds its name to the record and leaves every other field as it was. |
| `DraftStore.ExtractFormData` | app.js:10-22 | The `for … of` loop over the entries computes the fold of all entries in order. |
| `DraftStore.ProjectAppend` | app.js:24-25 | The values of a name across two forms are the first form's values followed by the second's. |
| `DraftStore.FoldValuesAppend` | app.js:14-21 | Folding a second batch of values continues from the first batch's result, as the second `extractFormData` call continues the same record. |
| `DraftStore.AccumulateByKey` | app.js:14-21 | A field's final value depends only on its own entries, folded in order; other names never affect it. |
| `DraftStore.DropLeadingBlanks` | app.js:15-19 | Only the empty values before the first non-empty one are dropped; the rest is kept in order. |
| `DraftStore.FoldOntoList` | app.js:16-17 | Once a field is a list, every later value is appended, empty ones included. |
| `DraftStore.FoldFromBlank` | app.js:15-20 | Starting from nothing or from `''` (which is falsy), the field ends as the first non-empty value alone, or as the list of it and all later values. |
| `DraftStore.FoldFromValue` | app.js:15-17 | A non-empty value followed by more values becomes the list of all of them. |
| `DraftStore.AccumulateFromEmpty` | app.js:14-21 | On a fresh record, a field is what the collection rule makes of that name's values in entry order. |
| `DraftStore.AccumulateTwoForms` | app.js:7-25 | After both forms, a field collects the admission form's values followed by the clinical form's values. |
| `DraftStore.CollectedNonEmpty` | app.js:14-21 | With no empty values, a field is absent, a single value, or the list of every value in order. |
| `DraftStore.Put` | app.js:35-40 | A flag is written only when its element exists; every other key reads as before. |
| `DraftStore.UiEntry` | app.js:35-42 | The synthetic entries live only under `_ui_` names or `_last_saved`. |
| `DraftStore.WithUiEntriesLookup` | app.js:35-42 | A synthetic entry overrides a form field of the same name; every other name reads the form value. |
| `DraftStore.SetFlag` | app.js:35-40 | `if (el) data._ui_x = el.checked` writes the flag exactly when the element exists. |
| `DraftStore.SaveToLocal` | app.js:6-45 | The written draft holds every synthetic entry and, under every other name, the accumulated values of both forms. |
| `DraftStore.SavedDraftLookup` | app.js:6-45 | The two accumulations followed by the synthetic entries give a draft that is a save of those entries. |
| `DraftStore.CheckMatching` | app.js:69-73 | Restoring a checkbox group checks exactly the choices whose value was saved and unchecks none. |
| `DraftStore.RestoreRadio` | app.js:69-73 | Restoring a radio group, where checking one radio unchecks the others of its name: with no saved value among its radios the group is unchanged; otherwise the last radio whose value was saved is the only one checked. |
| `DraftStore.CheckRadiosFromLast` | app.js:69-73 | Once the pass reaches the last radio whose value was saved, that radio ends as the only one checked. |
| `DraftStore.CheckRadiosFromNone` | app.js:69-73 | The radio pass changes nothing over radios whose values were not saved. |
| `DraftStore.SelectValue` | app.js:77 | Setting a select's value chooses that option when it is listed and no option otherwise. |
| `DraftStore.SelectNotRestoredAsWritten` | app.js:67 | As written, a lone two-option select with a saved value `F` is left unselected; the corrected branch selects `F`. |
| `DraftStore.RestoreSelectsSavedOption` | app.js:67-78 | With the corrected branch, a select is restored to the saved option whenever that option exists. |
| `DraftStore.Restored` | app.js:60-79 | Restoring keeps the form's set of controls; none is added or removed. It restores a select through the corrected branch of "## Findings", and a radio group as the browser does, leaving one radio checked. |
| `DraftStore.RestoreForm` | app.js:60-79 | The loop over the draft's keys computes the restored form, with the corrected branch of "## Findings". |
| `DraftStore.RestoreIgnoresForeignKeys` | app.js:61-64 | `_ui_` keys and names the form lacks have no effect on the restore. |
| `DraftStore.RestoreNeverUnchecks` | app.js:69-73 | A checked choice of a checkbox group stays checked after the restore. For radio groups see `DraftStore.RestoreRadio`. |
| `DraftStore.RestoreLiftsScalar` | app.js:68 | A single saved value restores a checkbox or radio group exactly as a one-item list would. |
| `DraftStore.CheckedValues` | app.js:13-14 | `FormData` lists a value of a group exactly when some checked choice carries it. |
| `DraftStore.Submitted` | app.js:13 | `FormData` lists nothing for a disabled control, and an enabled control's own values otherwise. |
| `DraftStore.ProjectFormEntries` | app.js:13-14 | A form's entries under a name are that control's own values, or none when it is disabled; a name the form lacks has none. |
| `DraftStore.SavedUnder` | app.js:6-45 | The saved draft holds, under each name of either form, what `FormData` listed for that name. |
| `DraftStore.RestoreClearedControl` | app.js:67-78 | Restoring a blank control from the value saved for it gives back the control; when nothing was saved, the control was blank already. |
| `DraftStore.RestoreClearedGroup` | app.js:67-73 | The same for a group whose choice values are distinct and non-empty, and, for radios, with at most one checked, as a browser keeps them. |
| `DraftStore.Rechecked` | app.js:69-73 | Checking the saved values on a cleared checkbox group reproduces the group. |
| `DraftStore.RecheckedRadio` | app.js:69-73 | Checking the saved value on a cleared radio group reproduces the group: its one checked radio is the only one whose value was saved. |
| `DraftStore.RestoreOneForm` | app.js:56-80 | A form whose every name holds what `FormData` listed for it is restored from a blank page: enabled controls as they were, disabled ones blank. Selects use the corrected branch of "## Findings". |
| `DraftStore.SaveRestoreRoundTrip` | app.js:6-80 | Saving both forms and restoring the draft onto blank forms gives back every enabled control as it was and leaves every disabled control blank, since `FormData` skips it. With nothing disabled, both forms come back whole. Selects use the corrected branch of "## Findings". |
| `PageState.SetText` | app.js:150 | Assigning an input's value changes that input only. |
| `PageState.Defaulted` | app.js:458-465 | An empty input receives the default value; a filled one is left alone. |
| `PageState.UncheckGroup` | app.js:140 | Every radio of the named group is unchecked; other controls are unchanged. |
| `PageState.Page.ToggleVAD` | app.js:134-142 | Checking shows the airway choice; unchecking hides it and clears its radios. It keeps the invariant that hidden elements hold no data. |
| `PageState.Page.ToggleClinicalDetail` | app.js:144-172 | Checking shows the detail box; unchecking hides it and empties its location input. It keeps the same invariant. |
| `PageState.Page.ToggleSurgicalDetail` | app.js:173-191 | Checking shows the location input; unchecking hides and empties it. It keeps the same invariant. |
| `PageState.Page.ToggleAllergyInput` | app.js:437-448 | Checking fills the detail with `Nega` and disables it; unchecking empties and enables it. The detail is disabled exactly when the box is checked. |
| `PageState.Page.ToggleClexane` | app.js:450-468 | The start date and time are enabled exactly when the box is checked; on checking, an empty date gets tomorrow and an empty time gets `18:00`. |
| `PageState.Page.ReplayClexane` | app.js:83-89 | A saved Clexane flag checks that box and no other, enables exactly the date and time, and fills them with their defaults when empty. Without the flag nothing changes. |
| `PageState.Page.ReplayAllergy` | app.js:90-96 | A saved no-allergy flag checks that box and no other, fills the detail with `Nega` and disables exactly that input. Without the flag nothing changes. |
| `PageState.Page.ReplayImc` | app.js:97-103 | A saved BMI text is shown again. It gets the highlight unless it is `-`; for `-` the highlight stays as it was. |
| `PageState.Page.ReplayTot` | app.js:106-112 | A saved TOT flag checks that box and no other and shows the airway choice; nothing else is hidden or cleared. |
| `PageState.Page.ReplayDevice` | app.js:113-126 | A saved PVP or PAM flag checks that box and no other and shows its detail box; nothing else is hidden or cleared. |
| `PageState.Page.ReplayClinical` | app.js:105-126 | The clinical replay checks exactly the boxes of the saved flags, shows exactly their detail boxes and keeps both forms' restored values. |
| `PageState.Page.ReplaySaved` | app.js:82-126 | The whole replay, as one new state: the admission form gets the Clexane defaults and the allergy `Nega`; exactly the saved boxes are checked; exactly their detail boxes are shown; exactly the heparin inputs are enabled and the allergy detail disabled; the BMI display changes only when its text was saved. |
| `PageState.ReplayedAdmissionFrame` | app.js:83-96 | The replay adds or removes no input of the admission form and changes only the allergy detail and the two heparin inputs. |
| `PageState.Page.LoadFromLocal` | app.js:47-131 | With no draft nothing changes. Otherwise it gives the whole new page: the restored forms, then the replay of `PageState.Page.ReplaySaved` on the admission form, the boxes, the hidden and disabled elements and the BMI display. Selects use the corrected branch of "## Findings". |
| `Instability.PainLabelOnly` | app.js:331 | The lower-cased label is `dor forte` for the pain axis and no other. |
| `Instability.FormatInst` | app.js:584-594 | A phrase exists exactly for `Não` or `Sim`; it starts with `+` exactly for `Não`, otherwise with `-`. |
| `Instability.PhraseMarks` | app.js:584-594 | Each phrase carries its axis's initial at a fixed place: the label after `+ ` for `Não`, the lower-cased label after `- Instabilidade ` for `Sim`, and pain has its own fixed text. |
| `Instability.FormatInstInjective` | app.js:584-594 | Distinct answers or axes never give the same phrase. |
| `Instability.ClinicalFormatInst` | app.js:329-339 | The clinical variant gives the same phrase for `Não` and `Sim`, and a `?` placeholder line for anything else. |
| `Instability.Signed` | app.js:603-609 | Each item adds at most one phrase. |
| `Instability.SignedAreAnswers` | app.js:603-609 | The `+` phrases are exactly those of the `Não` answers, and the `-` phrases those of the `Sim` answers, in item order. |
| `Instability.SplitPhrases` | app.js:596-609 | The `forEach` loop fills the positives and the negatives with exactly the signed phrases. |
| `Instability.SignedPhrases` | app.js:606-607 | A phrase lands in the positives exactly when it starts with `+`, and no phrase spans lines. |
| `Instability.InstTextLines` | app.js:611-613 | The instability block splits back into the positives, one blank line when both lists are non-empty, then the negatives. |
| `Instability.NeuroUnstableExample` | app.js:596-613 | Example (one input; `Instability.SignedAreAnswers` is the general lemma): with only the neurological axis unstable, the positives are hemodynamic, ventilatory and pain, and the negative is neurological. |
| `Instability.MissingLabels` | app.js:294-308 | At most one label per field is reported. |
| `Instability.CheckInstability` | app.js:294-308 | The gate loop collects exactly the labels of the unanswered fields, in field order. |
| `Instability.MissingLabelIff` | app.js:295-297 | A field's label is reported exactly when the field is unanswered. |
| `Instability.MissingLabelsFrom` | app.js:295-297 | Only a gate field's own label can be reported. |
| `Instability.MissingLabelsOfFields` | app.js:295-297 | Every reported label belongs to an unanswered field. |
| `Instability.GatePasses` | app.js:287-313 | The gate passes exactly when all four instability questions are answered. |
| `DateFormat.FormatIsoDate` | app.js:320-324 | `yyyy-mm-dd` becomes `dd/mm`. |
| `DateFormat.FormatSampleDate` | app.js:498-502 | Example (one input; `DateFormat.FormatIsoDate` is the general lemma): `2024-03-07` becomes `07/03`. |
| `DateFormat.FormatDateEmpty` | app.js:320-324 | The formatted date is empty exactly when the input is empty. |
| `ClinicalSummary.DetailShape` | app.js:355-365 | TOT adds its airway (`Não inf.` when none); PVP, PAM and drain add their location when given; anything else adds nothing. |
| `ClinicalSummary.InvasionLineShape` | app.js:354-368 | Every device line is the date prefix, the device and its detail. |
| `ClinicalSummary.InvasionLinesOf` | app.js:353-369 | One line per checked device. |
| `ClinicalSummary.InvasionLines` | app.js:350-369 | The `forEach` loop builds exactly the device lines of the checked devices. |
| `ClinicalSummary.InvasionLinesAt` | app.js:353-369 | The i-th line describes the i-th checked device. |
| `ClinicalSummary.NoDeviceNoInvasion` | app.js:371 | With no device checked, the block reads `Nenhuma invasão`. |
| `ClinicalSummary.InvasionTextLines` | app.js:371 | The device block splits back into its lines. |
| `ClinicalSummary.InstLines` | app.js:341-345 | The instability block has five lines, none spanning two. |
| `ClinicalSummary.InstTextInOrder` | app.js:341-347 | The joined block reads back as the five lines in their fixed order: neuro, ventilatory, blank, hemodynamic, pain. |
| `ClinicalSummary.Summarize` | app.js:273-378 | The user is warned exactly when the gate finds an unanswered question, and the warning lists exactly those labels. |
| `ClinicalSummary.GenerateClinicalSummary` | app.js:273-378 | Pressing the button gives the outcome of the record that the form's entries fold into. |
| `ClinicalSummary.ShownOnlyWhenAnswered` | app.js:294-313 | A note is shown only when all four instability questions are answered. |
| `ClinicalSummary.BodyLines` | app.js:373-375 | The untrimmed note splits back into the bed, two blank lines, the instability lines, two blank lines and the device lines. |
| `SurgicalSummary.InvListOfChecked` | app.js:548 | Joining the devices with `, `, splitting back and dropping empties gives the non-empty checked devices. |
| `SurgicalSummary.DeviceLineShape` | app.js:624-628 | A device line is the date and the device; a PAM or PVP with a location adds it. |
| `SurgicalSummary.DeviceLines` | app.js:623-629 | One line per device. |
| `SurgicalSummary.InvasionLines` | app.js:623-631 | One line per device, plus one for the drains when they are given. |
| `SurgicalSummary.DeviceLoop` | app.js:624-629 | The `forEach` loop builds exactly the device lines. |
| `SurgicalSummary.CollectInvasions` | app.js:623-631 | The device lines followed by the drain line. |
| `SurgicalSummary.Duration` | app.js:639-643 | The duration is empty exactly when both hours and minutes are empty. It reads `CC <h>h`, with `0` for missing hours, followed by the minutes unless they are empty, `0` or `00`. |
| `SurgicalSummary.NonNumericVolumeIsZero` | app.js:645-646 | A crystalloid volume that is not a number counts as 0. |
| `SurgicalSummary.Hydration` | app.js:648 | The hydration part appears exactly when the total volume is positive. |
| `SurgicalSummary.MillilitresReadBack` | app.js:647-648 | The total written in the line parses back to the same number. |
| `SurgicalSummary.IntraOpLineSpelledOut` | app.js:658-665 | The intra-operative line has duration and hydration only when present, then the anaesthesia, bleeding and diuresis, then the exit medication only when present, all separated by ` / `. |
| `SurgicalSummary.IntraOpJoin` | app.js:658-665 | Filtering out the empty parts and joining equals leading and trailing the optional parts around the three fixed ones. |
| `SurgicalSummary.PadTransfusion` | app.js:667-670 | A single digit gets a leading `0`; any other entry is kept as typed. |
| `SurgicalSummary.PadTransfusionKeepsValue` | app.js:667-670 | Padding never changes the number the entry reads as. |
| `SurgicalSummary.Comorbidities` | app.js:678-679 | The history is empty exactly when both parts are; both present are joined by `; `; one alone is kept as it is. |
| `SurgicalSummary.AirwayOpensWithVad` | app.js:684 | The airway line starts with `VAD` exactly when a difficult airway was marked. |
| `SurgicalSummary.AirwayEndsWithBougie` | app.js:689 | A bougie marked `Sim` ends the airway line with ` + Bougie`. |
| `SurgicalSummary.DietMark` | app.js:694-697 | The diet box is ticked exactly when the diet includes `Liberada`. |
| `SurgicalSummary.ClexaneMark` | app.js:703-713 | The Clexane box is ticked exactly when Clexane is on; it reads `(-)` exactly when Clexane is off and compression is on; otherwise it is blank. |
| `SurgicalSummary.WalkMark` | app.js:715 | The walking box is ticked exactly when the answer is `Sim`. |
| `SurgicalSummary.RestampedIsIdentity` | app.js:723-725 | The `.replace('(x)', '(x)').replace('( )', '( )')` chain leaves every mark as it is. |
| `SurgicalSummary.ChecklistMarks` | app.js:717-731 | The seventh, eighth and ninth checklist lines open with the diet, Clexane and walking marks. |
| `SurgicalSummary.GenerateSummary` | app.js:488-736 | The instability text and the first section, grown with `+=` on top of the identification block, build with the second section the trimmed note that the functions specify; `SurgicalSummary.SummaryIsUntrimmed` shows that `trim` removes nothing from it. |
| `SurgicalSummary.Section1Opens` | app.js:572 | The first section starts with `Nome,` and a newline. |
| `SurgicalSummary.Section3Closes` | app.js:717-731 | The checklist ends with its last line. |
| `SurgicalSummary.AssembledNoteEnds` | app.js:733 | The assembled note keeps the first section's start and the checklist's end. |
| `SurgicalSummary.UntrimmedEnds` | app.js:733 | The untrimmed note starts with `Nome,` and a newline and ends with the last checklist line. |
| `SurgicalSummary.TrimOfNote` | app.js:735 | `trim` removes nothing from such a note. |
| `SurgicalSummary.SummaryIsUntrimmed` | app.js:733-735 | The shown note is the assembled note itself, with no text lost to `trim`. |
| `Calendar.CompactStampDropsSeparators` | app.js:803-805 | The compact stamp has no `-` or `:`, and each of its characters comes from the ISO string. |
| `Calendar.CompactKeeps` | app.js:804 | Characters other than `-`, `:` and `.` pass through. |
| `Calendar.CompactDrops` | app.js:804 | Every `-` and `:` is removed. |
| `Calendar.CompactKeepsDigits` | app.js:804 | Digits pass through unchanged. |
| `Calendar.CompactDropsFraction` | app.js:804 | A `.` and the digits that follow it are removed together. |
| `Calendar.CompactIsoString` | app.js:803-805 | `YYYY-MM-DDTHH:MM:SS.sssZ` becomes `YYYYMMDDTHHMMSSZ`. |
| `Calendar.CompactSampleStamp` | app.js:803-805 | Example (one input; `Calendar.CompactIsoString` is the general lemma): `2024-03-07T10:20:30.123Z` becomes `20240307T102030Z`. |
| `Calendar.IcsLines` | app.js:811-824 | The file has twelve lines. |
| `Calendar.CalendarEvent` | app.js:795-824 | Nothing happens exactly when the prompt is cancelled or left empty. Otherwise a `RangeError` is thrown exactly when the start or end is an invalid date. In the remaining case the file is the twelve lines joined by CRLF. |
| `Calendar.UidIsOneLine` | app.js:816 | The UID line is a single line. |
| `Calendar.StampIsOneLine` | app.js:817-819 | A stamp line built from a one-line ISO string is a single line. |
| `Calendar.DescriptionIsOneLine` | app.js:809-821 | Escaping the newlines keeps the whole description on one line, when the summary has no carriage return. |
| `Calendar.IcsLinesAreLines` | app.js:811-824 | When the inputs hold no line breaks, every line of the file is a single line. |
| `Calendar.IcsContentReadsBack` | app.js:811-824 | Splitting the file at CRLF gives back its twelve lines. |
| `Calendar.DescriptionReadsBack` | app.js:809-821 | Unescaping the description line gives back the reminder text and the summary, when the summary has no backslash. |
| `JsStrings.Split` | app.js:322 | `split` always returns at least one piece. |
| `JsStrings.JoinSplit` | app.js:322 | Joining the pieces of a split with the separator gives back the string. |
| `JsStrings.SplitJoin` | app.js:347 | Splitting a join of pieces that do not contain the separator gives back the pieces. |
| `JsStrings.ReplaceBySelf` | app.js:723 | Replacing a pattern by itself leaves the string unchanged. |
| `JsStrings.NonEmpty` | app.js:665 | `filter(s => s)` keeps only non-empty strings. |
| `JsStrings.NonEmptyKeeps` | app.js:548 | A string survives the filter exactly when it is non-empty and present. |
| `JsStrings.TrimStartDropsSpace` | app.js:377 | Trimming the start drops exactly the leading white space. |
| `JsStrings.TrimEndDropsSpace` | app.js:377 | Trimming the end drops exactly the trailing white space. |
| `JsStrings.TrimIsUnpadded` | app.js:377 | A trimmed string neither starts nor ends with white space. |
| `JsStrings.TrimUnpadded` | app.js:735 | A string that neither starts nor ends with white space is its own trim. |
| `JsStrings.TrimIdempotent` | app.js:377 | Trimming twice is trimming once. |
| `JsStrings.ParseIntNotANumber` | app.js:645 | A string that starts with no digit, sign or white space parses to `NaN`. |
| `JsStrings.ParseIntDigitsThen` | app.js:645 | A run of digits followed by a non-digit parses to the run's value. |
| `JsStrings.ParseIntDecimalString` | app.js:648 | A number written in decimal parses back to itself. |
| `JsStrings.ParseIntDecimalThen` | app.js:645 | A decimal numeral followed by a unit such as `ml` parses to the number. |
| `JsStrings.ParseIntLeadingZero` | app.js:668-669 | A leading `0` does not change the parsed number. |
| `JsStrings.DecimalString` | app.js:816 | A decimal numeral is all digits, without a leading zero unless it is `0`. |
| `JsStrings.EscapeNewlines` | app.js:821 | The escaped text has no newline. |
| `JsStrings.UnescapeEscape` | app.js:821 | Escaped text without backslashes unescapes back to the original. |
| `JsStrings.EscapeNotInjective` | app.js:821 | A literal backslash-n and a newline escape to the same text, so the escape cannot be undone in general. |
| `JsStrings.EscapeIsJoinOfLines` | app.js:821 | Escaping newlines equals splitting at newlines and joining with backslash-n. |

## Left out

- The DOM itself is left out: element lookup, `classList`, `focus`, toasts, modals, `collapsed` sections and navigation. The page is the `Page` object's fields. Every element the handlers touch is assumed to exist. The save's `if (el)` guards are kept, as `Option` values in `DraftStore.UiState`.
- `localStorage`, `JSON.stringify` and `JSON.parse` are left out. The stored text is the draft itself. A missing draft, and a draft that fails to parse, are both `None`.
- `new Date()`, `Date.now()`, `toISOString()`, `prompt`, `Blob`, the download link, the clipboard, `window.open` and `confirm` are left out. Their results are parameters: the save time, tomorrow's date, the clock in milliseconds, the three ISO strings and the user's answer.
- The `setTimeout` that removes the error highlight of the gate is left out.
- `calculateBMI` is left out (floating point). The BMI display is the `imcText` field.
- `resetForm` and the reset of the clinical date and time are left out.
- The service worker, `sw.js`, is not part of this model.
- The `saveToLocal()` call at the end of `toggleAllergyInput` and `toggleClexane` is left out. Saving is modelled on its own by `DraftStore.SaveToLocal`, whose inputs are the forms' entries.
- `parseFloat(hours)` and the date arithmetic of the reminder are left out (floating point and the clock).
- `Calendar.CalendarEvent`: whether the start and end are valid dates is a parameter (`None` for an invalid date), not derived from the answer. So the model does not tie an unreadable delay such as `abc`, or one beyond the range of `Date` such as `1e12`, to the `RangeError` that `toISOString` throws at app.js:818.
- The ICS output follows the code: it does not escape `\`, `,` or `;` and does not fold long lines, as RFC 5545 would require.
- Strings are sequences of code points. JavaScript's UTF-16 lengths and the Unicode rules of `toLowerCase` are not modelled; the lower-case labels are written out.
- The values the surgical note never uses (bed, time, sex, `bh_outros`, the clinical time) are not read by the model.
- `parseInt` (modelled by the function `JsStrings.ParseInt`): leading white space, an optional sign, the `0x` prefix and the longest run of digits are modelled. Integers are unbounded, so precision loss beyond 2^53 is not modelled.
- `SurgicalSummary.AirwayEndsWithBougie`: proves one direction only. A Cormack grade or device text that itself ends with ` + Bougie` would make the converse false.
- `Instability.CheckInstability`: takes the list of gate fields as a parameter. The source's four fields are `Instability.GateFields`.
- Which controls are disabled is given with each form (the `disabled` flag of `DraftStore.Named`). It is not linked to the `disabled` set of `PageState.Page` that the toggle handlers update, because the save is modelled on the forms alone.
- `DraftStore.RestoreNeverUnchecks`: holds for checkbox groups only. In a radio group, checking a radio unchecks the others of its name, so a checked radio can end unchecked; `DraftStore.RestoreRadio` states what happens there.
- A lone radio button is not modelled. A form with one radio of a name would take the `input.value =` branch at app.js:76, which overwrites its value instead of checking it. The page's radio groups all have several buttons.

## Findings

| source | as written | input that shows it | evidently intended | confidence | as-written member | corrected member |
|---|---|---|---|---|---|---|
| app.js:67 | A lone `<select>` with more than one option passes the group test `input.length > 1 && input[0].type !== 'select-one'`, because `input[0]` is its first `<option>`, which has no `type`. The saved value is then applied by setting `checked` on the options, which selects nothing. | a select with options `M` and `F`, nothing selected, saved value `F` | The select takes the branch that assigns `input.value`, so option `F` is selected. | not executed | `DraftStore.SelectNotRestoredAsWritten` | `DraftStore.RestoreSelectsSavedOption` |
