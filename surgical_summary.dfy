/** `generateSummary` (app.js:487-736): the admission note of a surgical
    patient, built from the values of the admission form in three sections
    (identification and devices, surgery and history, the checklist) with the
    instability block between the second and the third. */
module SurgicalSummary {
  import opened Wrappers
  import opened JsStrings
  import opened DateFormat
  import opened Instability

  /** What `generateSummary` reads from the page: text inputs as their value
      (`''` when empty), radio groups as the checked value (`''` when none),
      checkbox groups as the list of checked values, and the three lone
      checkboxes (no known allergy, Clexane, compression) as booleans. */
  datatype Admission = Admission(
    dataAdmissao: string,
    idade: string, equipe: string, peso: string, altura: string, imc: string,
    cirurgia: string, infoPreOp: string, duracaoH: string, duracaoMin: string,
    cristaloide: string, coloide: string, anestesia: seq<string>, anestesiaDrogas: string,
    sangramento: string, diurese: string, sdsMed: seq<string>, sdsOutros: string,
    transfusao: string,
    comorb: seq<string>, comorbOutros: string, medsHabituais: string,
    negaAlergia: bool, alergiaDetalhe: string,
    vad: string, cormack: string, dispIot: string, bougie: seq<string>,
    antibiotico: string, invasao: seq<string>, invPamLoc: string, invPvpLoc: string, drenos: string,
    dieta: string, dietaTempo: string,
    clexane: bool, heparinaData: string, heparinaHora: string, compressor: bool,
    deambular: string,
    instabilities: Answers)

  /** `getChecked(name)`: the checked values joined by a comma and a space. */
  function Checked(values: seq<string>): string
  {
    Join(values, ", ")
  }

  /** `value || fallback` for a string. */
  function Or(value: string, fallback: string): string
  {
    if value != "" then value else fallback
  }

  /** The rule that closes the identification block. */
  const ShortRule: string := "—---------------------------------"

  /** The rule that closes the surgery block. */
  const LongRule: string := "—-------------------------------------------------------------------------------------------------------"

  // ---------------------------------------------------------------------------
  // Section 1: identification, antibiotic and devices

  /** The identification block: name placeholder and age, then weight,
      height and BMI each only when known, then the team and the rule. */
  function Identification(adm: Admission): string
  {
    var opening := "Nome,\n" + adm.idade + " anos";
    var withWeight := if adm.peso != "" then opening + ("\n" + adm.peso + " kg") else opening;
    var withHeight := if adm.altura != "" then withWeight + ("\n" + adm.altura + " m") else withWeight;
    var withBmi := if adm.imc != "" && adm.imc != "-" then withHeight + ("\nIMC " + adm.imc) else withHeight;
    withBmi + ("\n\nMA: " + adm.equipe + "\n\n" + ShortRule)
  }

  /** `antibioticLine`: the admission date and the antibiotic, when one is given. */
  function AntibioticLine(adm: Admission, date: string): string
  {
    if adm.antibiotico != "" then date + " " + adm.antibiotico else ""
  }

  /** `inv_list`: the checked devices, joined by `getChecked` and split back
      at `, `, without empty pieces. */
  function InvList(adm: Admission): seq<string>
  {
    NonEmpty(Split(Checked(adm.invasao), ", "))
  }

  /** Joining and splitting again gives the checked devices back (without
      empty ones) as long as no device value holds a comma. */
  lemma {:induction false} InvListOfChecked(adm: Admission)
    requires forall i :: 0 <= i < |adm.invasao| ==> ',' !in adm.invasao[i]
    ensures InvList(adm) == NonEmpty(adm.invasao)
  {
    if |adm.invasao| == 0 {
      assert Split("", ", ") == [""];
    } else {
      SplitJoin(adm.invasao, ", ");
    }
  }

  /** What `text += ...` adds after a device: its location for PAM and PVP
      when one was typed. */
  function DeviceDetail(adm: Admission, inv: string): string
  {
    (if inv == "PAM" && adm.invPamLoc != "" then " " + adm.invPamLoc else "")
    + (if inv == "PVP" && adm.invPvpLoc != "" then " " + adm.invPvpLoc else "")
  }

  /** One device line: the date, the device and its detail. */
  function DeviceLine(adm: Admission, date: string, inv: string): string
  {
    date + " " + inv + DeviceDetail(adm, inv)
  }

  /** Every device line starts with the date and the device; PAM and PVP show
      their location only when one was typed; other devices show nothing more. */
  lemma {:induction false} DeviceLineShape(adm: Admission, date: string, inv: string)
    ensures StartsWith(DeviceLine(adm, date, inv), date + " " + inv)
    ensures inv == "PAM" && adm.invPamLoc != "" ==> DeviceLine(adm, date, inv) == date + " PAM " + adm.invPamLoc
    ensures inv == "PVP" && adm.invPvpLoc != "" ==> DeviceLine(adm, date, inv) == date + " PVP " + adm.invPvpLoc
    ensures !(inv == "PAM" && adm.invPamLoc != "") && !(inv == "PVP" && adm.invPvpLoc != "") ==>
              DeviceLine(adm, date, inv) == date + " " + inv
  {
    var head := date + " " + inv;
    assert (head + DeviceDetail(adm, inv))[..|head|] == head;
  }

  /** The lines of the devices `invs`, in order. */
  function DeviceLines(adm: Admission, date: string, invs: seq<string>): (r: seq<string>)
    ensures |r| == |invs|
  {
    if |invs| == 0 then [] else [DeviceLine(adm, date, invs[0])] + DeviceLines(adm, date, invs[1..])
  }

  /** `invasionsLines`: one line per device, then one for the drains when
      they are described. */
  function InvasionLines(adm: Admission, date: string): (r: seq<string>)
    ensures |r| == |InvList(adm)| + (if adm.drenos != "" then 1 else 0)
  {
    DeviceLines(adm, date, InvList(adm)) + (if adm.drenos != "" then [date + " " + adm.drenos] else [])
  }

  /** The `data.inv_list.forEach` and the drain line of `generateSummary`. */
  method CollectInvasions(adm: Admission, date: string) returns (lines: seq<string>)
    ensures lines == InvasionLines(adm, date)
  {
    lines := DeviceLoop(adm, date, InvList(adm));
    if adm.drenos != "" {
      lines := lines + [date + " " + adm.drenos];
    }
  }

  /** The `forEach` over the checked devices: one line per device, in order. */
  method DeviceLoop(adm: Admission, date: string, invs: seq<string>) returns (lines: seq<string>)
    ensures lines == DeviceLines(adm, date, invs)
  {
    lines := [];
    var i := 0;
    while i < |invs|
      invariant 0 <= i <= |invs|
      invariant lines + DeviceLines(adm, date, invs[i..]) == DeviceLines(adm, date, invs)
    {
      var inv := invs[i];
      var text := inv;
      if inv == "PAM" && adm.invPamLoc != "" {
        text := text + " " + adm.invPamLoc;
        assert inv != "PVP" by { assert inv[1] == 'A'; }
      }
      if inv == "PVP" && adm.invPvpLoc != "" {
        text := text + " " + adm.invPvpLoc;
      }
      assert text == inv + DeviceDetail(adm, inv);
      DeviceLinesStep(adm, date, invs, i, text);
      lines := lines + [date + " " + text];
      i := i + 1;
    }
    assert invs[i..] == [];
  }

  /** One step of the device loop: the line built from `text` is the next
      device line. */
  lemma {:induction false} DeviceLinesStep(adm: Admission, date: string, invs: seq<string>, i: nat, text: string)
    requires i < |invs|
    requires text == invs[i] + DeviceDetail(adm, invs[i])
    ensures DeviceLines(adm, date, invs[i..]) == [date + " " + text] + DeviceLines(adm, date, invs[i + 1..])
  {
    assert invs[i..][1..] == invs[i + 1..];
    assert date + " " + text == DeviceLine(adm, date, invs[i]);
  }

  /** The whole first section. */
  function Section1(adm: Admission, date: string, invasions: seq<string>): string
  {
    var antibiotic := AntibioticLine(adm, date);
    var withAntibiotic :=
      if antibiotic != "" then Identification(adm) + ("\n" + antibiotic) else Identification(adm);
    if |invasions| > 0 then withAntibiotic + ("\n\n" + Join(invasions, "\n")) else withAntibiotic
  }

  // ---------------------------------------------------------------------------
  // Section 2: surgery, intra-operative line, transfusions, history

  /** `surgeryLine`: the date, `PO` and the surgery, with the pre-operative
      note in parentheses when there is one. */
  function SurgeryLine(adm: Admission, date: string): string
  {
    var line := date + " PO " + adm.cirurgia;
    if adm.infoPreOp != "" then line + (" (" + adm.infoPreOp + ")") else line
  }

  /** Minutes that are printed: anything but nothing, `0` and `00`. */
  predicate ShowsMinutes(m: string)
  {
    m != "" && m != "0" && m != "00"
  }

  /** `durationStr`: empty when neither hours nor minutes are given;
      otherwise `CC`, the hours (`0` when empty) and `h`, followed directly by
      the minutes unless they are empty, `0` or `00`. */
  function Duration(h: string, m: string): (r: string)
    ensures r == "" <==> h == "" && m == ""
    ensures r != "" ==> StartsWith(r, "CC " + Or(h, "0") + "h")
    ensures r != "" ==> |r| == |"CC " + Or(h, "0") + "h"| + (if ShowsMinutes(m) then |m| else 0)
    ensures r != "" && ShowsMinutes(m) ==> r[|r| - |m|..] == m
  {
    if h != "" || m != "" then
      var base := "CC " + Or(h, "0") + "h";
      var r := base + (if ShowsMinutes(m) then m else "");
      assert r[..|base|] == base;
      r
    else ""
  }

  /** `totalHV`: the crystalloid and colloid volumes as `parseInt` reads
      them, a value that is not a number counting as zero. */
  function TotalVolume(crist: string, col: string): int
  {
    ParseIntOrZero(crist) + ParseIntOrZero(col)
  }

  /** A volume field holding no number adds nothing to the total. */
  lemma {:induction false} NonNumericVolumeIsZero(crist: string, col: string)
    requires |crist| > 0 && !IsSpace(crist[0]) && !IsDecimalDigit(crist[0]) && crist[0] != '-' && crist[0] != '+'
    ensures TotalVolume(crist, col) == ParseIntOrZero(col)
  {
    ParseIntNotANumber(crist);
  }

  /** A volume as the note writes it: the decimal number and `ml`. */
  function Millilitres(total: nat): string
  {
    DecimalString(total) + "ml"
  }

  /** `hvStr`: `HV <total>ml` when the total is positive, nothing otherwise. */
  function Hydration(total: int): (r: string)
    ensures r != "" <==> total > 0
  {
    if total > 0 then "HV " + Millilitres(total) else ""
  }

  /** The volume printed in `hvStr` reads back as the total with `parseInt`. */
  lemma {:induction false} MillilitresReadBack(total: nat)
    ensures ParseInt(Millilitres(total)) == Some(total)
  {
    ParseIntDecimalThen(total, "ml");
  }

  /** `anestesiaStr`: the checked anesthesia types, and the drugs when given. */
  function Anesthesia(adm: Admission): string
  {
    "Anestesia " + Checked(adm.anestesia) + (if adm.anestesiaDrogas != "" then " com " + adm.anestesiaDrogas else "")
  }

  /** `medsExitStr`: the exit medications and the other exit medication,
      those present, joined by ` + `. */
  function ExitMedication(sdsMed: string, sdsOutros: string): string
  {
    Join((if sdsMed != "" then [sdsMed] else []) + (if sdsOutros != "" then [sdsOutros] else []), " + ")
  }

  /** The six candidate parts of the intra-operative line, in order. */
  function IntraOpParts(adm: Admission): seq<string>
  {
    [Duration(adm.duracaoH, adm.duracaoMin),
     Hydration(TotalVolume(adm.cristaloide, adm.coloide)),
     Anesthesia(adm),
     "Sangramento " + Or(adm.sangramento, "-"),
     "Diurese " + Or(adm.diurese, "-"),
     ExitMedication(Checked(adm.sdsMed), adm.sdsOutros)]
  }

  /** `intraOpLine`: the parts that are not empty, joined by ` / `. */
  function IntraOpLine(adm: Admission): string
  {
    Join(NonEmpty(IntraOpParts(adm)), " / ")
  }

  /** The intra-operative line spelled out: the duration and the hydration
      each with its separator only when present, then anesthesia, bleeding
      and diuresis always, then the exit medication when present. */
  lemma {:induction false} IntraOpLineSpelledOut(adm: Admission)
    ensures var d := Duration(adm.duracaoH, adm.duracaoMin);
      var hv := Hydration(TotalVolume(adm.cristaloide, adm.coloide));
      var meds := ExitMedication(Checked(adm.sdsMed), adm.sdsOutros);
      IntraOpLine(adm)
      == Lead(d, " / ") + (Lead(hv, " / ")
         + (Anesthesia(adm) + " / " + (("Sangramento " + Or(adm.sangramento, "-"))
            + " / " + ("Diurese " + Or(adm.diurese, "-"))) + Trail(meds, " / ")))
  {
    var d := Duration(adm.duracaoH, adm.duracaoMin);
    var hv := Hydration(TotalVolume(adm.cristaloide, adm.coloide));
    var sa := "Sangramento " + Or(adm.sangramento, "-");
    var di := "Diurese " + Or(adm.diurese, "-");
    var meds := ExitMedication(Checked(adm.sdsMed), adm.sdsOutros);
    assert IntraOpParts(adm) == [d, hv, Anesthesia(adm), sa, di, meds];
    IntraOpJoin([d, hv, Anesthesia(adm), sa, di, meds]);
  }

  /** Six parts of which the middle three are never empty, filtered and joined. */
  lemma {:induction false} IntraOpJoin(parts: seq<string>)
    requires |parts| == 6 && parts[2] != "" && parts[3] != "" && parts[4] != ""
    ensures Join(NonEmpty(parts), " / ")
      == Lead(parts[0], " / ") + (Lead(parts[1], " / ")
         + (parts[2] + " / " + (parts[3] + " / " + parts[4]) + Trail(parts[5], " / ")))
  {
    var d, hv, an, sa, di, me := parts[0], parts[1], parts[2], parts[3], parts[4], parts[5];
    assert NonEmpty(parts[5..]) == Optional(me) by { assert parts[5..][1..] == []; }
    assert NonEmpty(parts[4..]) == [di] + NonEmpty(parts[5..]) by { assert parts[4..][1..] == parts[5..]; }
    assert NonEmpty(parts[3..]) == [sa] + NonEmpty(parts[4..]) by { assert parts[3..][1..] == parts[4..]; }
    assert NonEmpty(parts[2..]) == [an, sa, di] + Optional(me) by { assert parts[2..][1..] == parts[3..]; }
    assert NonEmpty(parts[1..]) == Optional(hv) + ([an, sa, di] + Optional(me)) by { assert parts[1..][1..] == parts[2..]; }
    assert NonEmpty(parts) == Optional(d) + (Optional(hv) + ([an, sa, di] + Optional(me)));
    var core := [an, sa, di];
    assert Join(core, " / ") == an + " / " + (sa + " / " + di) by {
      assert core[1..] == [sa, di] && core[1..][1..] == [di];
      assert Join([di], " / ") == di;
      assert Join([sa, di], " / ") == sa + " / " + di;
    }
    JoinTrail(core, me, " / ");
    JoinLead(hv, core + Optional(me), " / ");
    JoinLead(d, Optional(hv) + (core + Optional(me)), " / ");
  }

  /** `[s]` when `s` is not empty, nothing otherwise. */
  function Optional(s: string): (r: seq<string>)
    ensures |r| <= 1
  {
    if s != "" then [s] else []
  }

  /** An optional part and the separator that follows it in a join. */
  function Lead(s: string, sep: string): string
  {
    if s != "" then s + sep else ""
  }

  /** The separator and an optional part that ends a join. */
  function Trail(s: string, sep: string): string
  {
    if s != "" then sep + s else ""
  }

  /** An optional part in front of a join. */
  lemma {:induction false} JoinLead(s: string, rest: seq<string>, sep: string)
    requires |rest| >= 1
    ensures Join(Optional(s) + rest, sep) == Lead(s, sep) + Join(rest, sep)
  {
    if s != "" {
      JoinAppend([s], rest, sep);
    } else {
      assert Optional(s) + rest == rest;
    }
  }

  /** An optional part at the end of a join. */
  lemma {:induction false} JoinTrail(parts: seq<string>, s: string, sep: string)
    requires |parts| >= 1
    ensures Join(parts + Optional(s), sep) == Join(parts, sep) + Trail(s, sep)
  {
    if s != "" {
      JoinAppend(parts, [s], sep);
    } else {
      assert parts + Optional(s) == parts;
    }
  }

  /** `formattedTransf`: a count written as one decimal digit gets a leading
      zero. For a one-character value `!isNaN(t)` holds for a digit or white
      space and `parseInt(t) < 10` then rules white space out (`NaN`), so the
      guard is exactly "a single decimal digit". */
  function PadTransfusion(t: string): (r: string)
    ensures |t| == 1 && IsDecimalDigit(t[0]) ==> |r| == 2 && r[0] == '0' && r[1..] == t
    ensures !(|t| == 1 && IsDecimalDigit(t[0])) ==> r == t
  {
    if |t| == 1 && IsDecimalDigit(t[0]) then "0" + t else t
  }

  /** Padding keeps the number that `parseInt` reads. */
  lemma {:induction false} PadTransfusionKeepsValue(t: string)
    ensures ParseInt(PadTransfusion(t)) == ParseInt(t)
  {
    if |t| == 1 && IsDecimalDigit(t[0]) {
      ParseIntLeadingZero(t);
    }
  }

  /** `transfLine`: the padded count and the date, when a count is given. */
  function TransfusionLine(t: string, date: string): string
  {
    if t != "" then "Hemotransfusões: " + PadTransfusion(t) + " " + date else ""
  }

  /** `comorbStr`: the checked comorbidities, then the other ones after `; `
      when both are present. */
  function Comorbidities(list: string, others: string): (r: string)
    ensures r == "" <==> list == "" && others == ""
    ensures list != "" && others != "" ==> r == list + "; " + others
    ensures others == "" ==> r == list
    ensures list == "" ==> r == others
  {
    if others != "" then list + (if list != "" then "; " + others else others) else list
  }

  /** `section2Part2`: the history and the usual medication, `Nega` for
      either when nothing is given. */
  function History(adm: Admission): string
  {
    "HPP: " + Or(Comorbidities(Checked(adm.comorb), adm.comorbOutros), "Nega")
    + "\n\nEm uso de: " + Or(adm.medsHabituais, "Nega")
  }

  /** `allergyLine` */
  function Allergy(adm: Admission): string
  {
    if adm.negaAlergia then "Nega alergia" else "Alergia: " + adm.alergiaDetalhe
  }

  /** The intubation device as printed: the video laryngoscope is `VL`. */
  function Device(dispIot: string): string
  {
    if dispIot == "Videolaringo" then "VL" else dispIot
  }

  /** `airwayLine`: `VAD` for a difficult airway or `VA ok`, then the
      Cormack grade, the device, and the bougie, each when given. */
  function Airway(adm: Admission): string
  {
    (if adm.vad == "Sim" then "VAD" else "VA ok")
    + ((if adm.cormack != "" then " - Cormack " + adm.cormack else "")
    + ((if Device(adm.dispIot) != "" then " - " + Device(adm.dispIot) else "")
    + BougieMark(Checked(adm.bougie))))
  }

  /** ` + Bougie` when the bougie answer mentions `Sim`. */
  function BougieMark(bougie: string): string
  {
    if bougie != "" && Contains(bougie, "Sim") then " + Bougie" else ""
  }

  /** The airway line opens with `VAD` exactly for a difficult airway. */
  lemma {:induction false} AirwayOpensWithVad(adm: Admission)
    ensures StartsWith(Airway(adm), "VAD") <==> adm.vad == "Sim"
  {
    var base := if adm.vad == "Sim" then "VAD" else "VA ok";
    var r := Airway(adm);
    var rest := r[|base|..];
    assert r == base + rest;
    PrefixOfAppend(base, rest);
    if adm.vad != "Sim" {
      assert r[2] == base[2] == ' ';
      assert r[..3] != "VAD" by { assert r[..3][2] == ' '; }
    }
  }

  /** The airway line ends with the bougie when one was used. */
  lemma {:induction false} AirwayEndsWithBougie(adm: Admission)
    requires Contains(Checked(adm.bougie), "Sim")
    ensures EndsWith(Airway(adm), " + Bougie")
  {
    var bougie := Checked(adm.bougie);
    assert bougie != "";
    var r := Airway(adm);
    var head := r[..|r| - |BougieMark(bougie)|];
    assert r == head + " + Bougie";
    SuffixOfAppend(head, " + Bougie");
  }

  /** `s.endsWith(suffix)` */
  predicate EndsWith(s: string, suffix: string)
  {
    |suffix| <= |s| && s[|s| - |suffix|..] == suffix
  }

  /** What a text starts with survives anything appended to it. */
  lemma {:induction false} PrefixOfAppend(s: string, t: string)
    ensures (s + t)[..|s|] == s
  {
  }

  /** What is appended last is what the text ends with. */
  lemma {:induction false} SuffixOfAppend(s: string, t: string)
    ensures EndsWith(s + t, t)
  {
    assert (s + t)[|s|..] == t;
  }

  /** The whole second section. */
  function Section2(adm: Admission, date: string): string
  {
    var transfusion := TransfusionLine(adm.transfusao, date);
    var surgery := SurgeryLine(adm, date) + "\n" + IntraOpLine(adm);
    var withTransfusion := if transfusion != "" then surgery + ("\n\n" + transfusion) else surgery;
    withTransfusion + ("\n" + LongRule)
    + ("\n" + History(adm) + "\n\n" + Allergy(adm) + "\n" + Airway(adm))
  }

  // ---------------------------------------------------------------------------
  // Section 3: the checklist

  /** The diet box is ticked exactly when the diet answer mentions `Liberada`. */
  function DietMark(dieta: string): (r: string)
    ensures r == "(x)" <==> Contains(dieta, "Liberada")
    ensures r == "(x)" || r == "( )"
  {
    if dieta != "" && Contains(dieta, "Liberada") then "(x)" else "( )"
  }

  /** `dietText`: the question, then when the diet is free from what time,
      or the diet answer itself. */
  function DietText(dieta: string, tempo: string): string
  {
    "Dieta liberada?"
    + (if dieta != "" && Contains(dieta, "Liberada") then " a partir de " + tempo
       else if dieta != "" then " " + dieta else "")
  }

  /** The Clexane box: ticked when Clexane is prescribed, `(-)` when it is
      not but a compression device is, empty otherwise. */
  function ClexaneMark(clexane: bool, compressor: bool): (r: string)
    ensures r == "(x)" <==> clexane
    ensures r == "(-)" <==> !clexane && compressor
    ensures r == "( )" <==> !clexane && !compressor
  {
    if clexane then "(x)" else if compressor then "(-)" else "( )"
  }

  /** `clexaneText`: with Clexane, when to start it (if a date or a time is
      given); without it but with compression, `não, CPMI`. */
  function ClexaneText(adm: Admission): string
  {
    "Clexane?"
    + (if adm.clexane then
         (if adm.heparinaData != "" || adm.heparinaHora != ""
          then " Iniciar " + FormatDate(adm.heparinaData) + " às " + adm.heparinaHora else "")
       else if adm.compressor then " não, CPMI" else "")
  }

  /** The walking box is ticked exactly when walking within 12 hours is `Sim`. */
  function WalkMark(deambular: string): (r: string)
    ensures r == "(x)" <==> deambular == "Sim"
    ensures r == "(x)" || r == "( )"
  {
    if deambular == "Sim" then "(x)" else "( )"
  }

  /** `mark.replace('(x)', '(x)').replace('( )', '( )')` as the template writes it. */
  function Restamped(mark: string): string
  {
    ReplaceFirst(ReplaceFirst(mark, "(x)", "(x)"), "( )", "( )")
  }

  /** The two replacements in the template leave every mark as it was. */
  lemma {:induction false} RestampedIsIdentity(mark: string)
    ensures Restamped(mark) == mark
  {
    ReplaceBySelf(mark, "(x)");
    ReplaceBySelf(mark, "( )");
  }

  /** The checklist lines above the three decided boxes; the first is empty
      because the template starts with a line break. */
  const ChecklistOpening: seq<string> :=
    ["", "( ) Admissão", "( ) Prescrição", "( ) Rx agora", "( ) Lab agora", "( ) Lab rotina "]

  /** The checklist lines below the three decided boxes. */
  const ChecklistClosing: seq<string> :=
    ["(x) Checar reconciliação", "( ) Nome do familiar / acompanhante", "( ) Coletar TCI",
     "( ) Protocolo de TEV", "( ) Parametrização na prescrição ", LastChecklistLine]

  /** The diet line of the checklist. */
  function DietLine(adm: Admission): string
  {
    Restamped(DietMark(adm.dieta)) + " " + DietText(adm.dieta, adm.dietaTempo)
  }

  /** The Clexane line of the checklist. */
  function ClexaneLine(adm: Admission): string
  {
    Restamped(ClexaneMark(adm.clexane, adm.compressor)) + " " + ClexaneText(adm)
  }

  /** The walking line of the checklist. */
  function WalkLine(adm: Admission): string
  {
    Restamped(WalkMark(adm.deambular)) + " deambular em 12h"
  }

  /** The checklist lines, in order. */
  function ChecklistLines(adm: Admission): seq<string>
  {
    ChecklistOpening + [DietLine(adm), ClexaneLine(adm), WalkLine(adm)] + ChecklistClosing
  }

  /** The whole third section, as the template literal lays it out. */
  function Section3(adm: Admission): string
  {
    Join(ChecklistLines(adm), "\n")
  }

  /** Each of the three decided boxes shows its mark at the start of its own
      checklist line, the seventh, eighth and ninth of the section. */
  lemma {:induction false} ChecklistMarks(adm: Admission)
    ensures ChecklistLines(adm)[6] == DietLine(adm) && DietLine(adm)[..3] == DietMark(adm.dieta)
    ensures ChecklistLines(adm)[7] == ClexaneLine(adm) && ClexaneLine(adm)[..3] == ClexaneMark(adm.clexane, adm.compressor)
    ensures ChecklistLines(adm)[8] == WalkLine(adm) && WalkLine(adm)[..3] == WalkMark(adm.deambular)
  {
    RestampedIsIdentity(DietMark(adm.dieta));
    RestampedIsIdentity(ClexaneMark(adm.clexane, adm.compressor));
    RestampedIsIdentity(WalkMark(adm.deambular));
    PrefixOfAppend(DietMark(adm.dieta), " " + DietText(adm.dieta, adm.dietaTempo));
    PrefixOfAppend(ClexaneMark(adm.clexane, adm.compressor), " " + ClexaneText(adm));
    PrefixOfAppend(WalkMark(adm.deambular), " deambular em 12h");
  }

  // ---------------------------------------------------------------------------
  // The whole note

  /** The final template: the two sections, the instability block under its
      heading and the checklist under its own. */
  function Assemble(section1: string, section2: string, instStr: string, section3: string): string
  {
    section1 + "\n\n\n" + section2 + "\n\n\n\nINSTABILIDADES:\n\n\n" + instStr
    + "\n\n\n\nOrientações:\n" + section3
  }

  /** The note before `trim`. */
  function Untrimmed(adm: Admission): string
  {
    var date := FormatDate(adm.dataAdmissao);
    Assemble(Section1(adm, date, InvasionLines(adm, date)), Section2(adm, date),
             InstText(Signed(adm.instabilities, SurgicalOrder, true), Signed(adm.instabilities, SurgicalOrder, false)),
             Section3(adm))
  }

  /** What `generateSummary` shows. */
  function Summary(adm: Admission): string
  {
    Trim(Untrimmed(adm))
  }

  /** `generateSummary`: the identification block and the second section are
      the functions above; the instability text and the rest of the first
      section are grown with `+=` as the script does. */
  method GenerateSummary(adm: Admission) returns (text: string)
    ensures text == Summary(adm)
  {
    var date := FormatDate(adm.dataAdmissao);
    var section1 := Identification(adm);

    var positives, negatives := SplitPhrases(adm.instabilities, SurgicalOrder);
    var instStr := Join(positives, "\n");
    if |positives| > 0 && |negatives| > 0 { instStr := instStr + "\n\n"; }
    instStr := instStr + Join(negatives, "\n");
    assert instStr == InstText(positives, negatives);

    var antibioticLine := if adm.antibiotico != "" then date + " " + adm.antibiotico else "";
    var invasionsLines := CollectInvasions(adm, date);
    if antibioticLine != "" { section1 := section1 + ("\n" + antibioticLine); }
    if |invasionsLines| > 0 { section1 := section1 + ("\n\n" + Join(invasionsLines, "\n")); }
    assert section1 == Section1(adm, date, InvasionLines(adm, date));

    var section2 := Section2(adm, date);

    text := Trim(Assemble(section1, section2, instStr, Section3(adm)));
  }

  /** `trim` changes nothing: the note starts with `Nome,` and ends with the
      last checklist line. */
  lemma {:induction false} SummaryIsUntrimmed(adm: Admission)
    ensures Summary(adm) == Untrimmed(adm)
    ensures StartsWith(Summary(adm), "Nome,\n") && EndsWith(Summary(adm), LastChecklistLine)
  {
    UntrimmedEnds(adm);
    TrimOfNote(Untrimmed(adm));
  }

  /** A note that opens with `Nome,` and closes with the last checklist line
      is left alone by `trim`. */
  lemma {:induction false} TrimOfNote(note: string)
    requires StartsWith(note, "Nome,\n") && EndsWith(note, LastChecklistLine)
    ensures Trim(note) == note
  {
    assert note[0] == note[..6][0] == 'N';
    assert note[|note| - 1] == note[|note| - |LastChecklistLine|..][|LastChecklistLine| - 1] == 'o';
    TrimUnpadded(note);
  }

  /** The untrimmed note opens with the name placeholder and closes with the
      last checklist line. */
  lemma {:induction false} UntrimmedEnds(adm: Admission)
    ensures StartsWith(Untrimmed(adm), "Nome,\n") && EndsWith(Untrimmed(adm), LastChecklistLine)
  {
    var date := FormatDate(adm.dataAdmissao);
    Section1Opens(adm, date, InvasionLines(adm, date));
    Section3Closes(adm);
    AssembledNoteEnds(Section1(adm, date, InvasionLines(adm, date)), Section2(adm, date),
      InstText(Signed(adm.instabilities, SurgicalOrder, true), Signed(adm.instabilities, SurgicalOrder, false)),
      Section3(adm));
  }

  /** The last line of the checklist. */
  const LastChecklistLine: string := "( ) Check Prontuario fisico"

  /** Section 1 starts with the name placeholder. */
  lemma {:induction false} Section1Opens(adm: Admission, date: string, invasions: seq<string>)
    ensures StartsWith(Section1(adm, date, invasions), "Nome,\n")
  {
    var p := "Nome,\n";
    var opening := "Nome,\n" + adm.idade + " anos";
    assert opening == p + (adm.idade + " anos");
    PrefixOfAppend(p, adm.idade + " anos");
    var withWeight := if adm.peso != "" then opening + ("\n" + adm.peso + " kg") else opening;
    StartsWithExtend(opening, "\n" + adm.peso + " kg", p);
    var withHeight := if adm.altura != "" then withWeight + ("\n" + adm.altura + " m") else withWeight;
    StartsWithExtend(withWeight, "\n" + adm.altura + " m", p);
    var withBmi := if adm.imc != "" && adm.imc != "-" then withHeight + ("\nIMC " + adm.imc) else withHeight;
    StartsWithExtend(withHeight, "\nIMC " + adm.imc, p);
    var id := withBmi + ("\n\nMA: " + adm.equipe + "\n\n" + ShortRule);
    StartsWithExtend(withBmi, "\n\nMA: " + adm.equipe + "\n\n" + ShortRule, p);
    assert id == Identification(adm);
    var antibiotic := AntibioticLine(adm, date);
    var withAntibiotic := if antibiotic != "" then id + ("\n" + antibiotic) else id;
    StartsWithExtend(id, "\n" + antibiotic, p);
    StartsWithExtend(withAntibiotic, "\n\n" + Join(invasions, "\n"), p);
  }

  /** Whatever a text starts with, it still starts with after an append. */
  lemma {:induction false} StartsWithExtend(s: string, t: string, prefix: string)
    requires StartsWith(s, prefix)
    ensures StartsWith(s + t, prefix)
  {
    assert (s + t)[..|prefix|] == s[..|prefix|];
  }

  /** Section 3 ends with its last checklist line. */
  lemma {:induction false} Section3Closes(adm: Admission)
    ensures EndsWith(Section3(adm), LastChecklistLine)
  {
    var lines := ChecklistLines(adm);
    assert lines[|lines| - 1] == LastChecklistLine;
    JoinEndsWith(lines, "\n");
  }

  /** The final template keeps the first section's opening and the
      checklist's closing line. */
  lemma {:induction false} AssembledNoteEnds(s1: string, s2: string, inst: string, s3: string)
    requires StartsWith(s1, "Nome,\n") && EndsWith(s3, LastChecklistLine)
    ensures StartsWith(Assemble(s1, s2, inst, s3), "Nome,\n")
    ensures EndsWith(Assemble(s1, s2, inst, s3), LastChecklistLine)
  {
    var p := "Nome,\n";
    var a := s1 + "\n\n\n";
    StartsWithExtend(s1, "\n\n\n", p);
    var b := a + s2;
    StartsWithExtend(a, s2, p);
    var c := b + "\n\n\n\nINSTABILIDADES:\n\n\n";
    StartsWithExtend(b, "\n\n\n\nINSTABILIDADES:\n\n\n", p);
    var d := c + inst;
    StartsWithExtend(c, inst, p);
    var front := d + "\n\n\n\nOrientações:\n";
    StartsWithExtend(d, "\n\n\n\nOrientações:\n", p);
    StartsWithExtend(front, s3, p);
    EndsWithAppend(front, s3, LastChecklistLine);
  }

  /** A join ends with its last part. */
  lemma {:induction false} JoinEndsWith(parts: seq<string>, sep: string)
    requires |parts| >= 1
    ensures EndsWith(Join(parts, sep), parts[|parts| - 1])
  {
    if |parts| > 1 {
      JoinEndsWith(parts[1..], sep);
      SuffixOfAppend(parts[0] + sep, Join(parts[1..], sep));
      EndsWithAppend(parts[0] + sep, Join(parts[1..], sep), parts[|parts| - 1]);
    }
  }

  /** A text ends with whatever its last piece ends with. */
  lemma {:induction false} EndsWithAppend(s: string, t: string, suffix: string)
    requires EndsWith(t, suffix)
    ensures EndsWith(s + t, suffix)
  {
    assert (s + t)[|s + t| - |suffix|..] == t[|t| - |suffix|..];
  }
}
