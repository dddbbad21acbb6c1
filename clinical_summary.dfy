/** `generateClinicalSummary` (app.js:273-378): the clinical form's entries
    are collected into a record, the instability gate is checked, and the
    bed, the instability lines and one line per invasive device are put
    together as the note. */
module ClinicalSummary {
  import opened Wrappers
  import opened JsStrings
  import opened DraftStore
  import opened DateFormat
  import opened Instability

  /** `${value}` of a record value: a list prints its items comma-separated. */
  function AsText(v: Value): string
  {
    match v
    case Scalar(t) => t
    case List(items) => Join(items, ",")
  }

  /** `data[key] || fallback` printed in a template. */
  function OrElse(data: FormRecord, key: string, fallback: string): string
  {
    if Answered(data, key) then AsText(data[key]) else fallback
  }

  /** `invList`: the checked devices in form order; a lone value counts as
      one device, an empty one as none. */
  function InvasionList(data: FormRecord): seq<string>
  {
    match Lookup(data, "clin_invasao")
    case Some(List(items)) => items
    case Some(Scalar(t)) => if t != "" then [t] else []
    case None => []
  }

  /** The record key of the location typed for a device, if it has one. */
  function LocationKey(inv: string): Option<string>
  {
    if inv == "PVP" then Some("clin_pvp_loc")
    else if inv == "PAM" then Some("clin_pam_loc")
    else if inv == "Dreno" then Some("clin_dreno_loc")
    else None
  }

  /** What a line starts with: the formatted date and a space, when there is a date. */
  function DatePrefix(dateFormatted: string): string
  {
    if dateFormatted == "" then "" else dateFormatted + " "
  }

  /** What `text += ...` adds after a device: the airway for TOT, the
      location for PVP, PAM and Dreno when one was typed, nothing otherwise. */
  function Detail(data: FormRecord, inv: string): string
  {
    if inv == "TOT" then " VAD: " + OrElse(data, "clin_vad", "Não inf.")
    else if inv == "PVP" && Answered(data, "clin_pvp_loc") then " " + AsText(data["clin_pvp_loc"])
    else if inv == "PAM" && Answered(data, "clin_pam_loc") then " " + AsText(data["clin_pam_loc"])
    else if inv == "Dreno" && Answered(data, "clin_dreno_loc") then " " + AsText(data["clin_dreno_loc"])
    else ""
  }

  /** One invasion line: the device and its detail, after the date when
      there is one. */
  function InvasionLine(data: FormRecord, dateFormatted: string, inv: string): string
  {
    var text := inv + Detail(data, inv);
    if dateFormatted != "" then dateFormatted + " " + text else text
  }

  /** Every line starts with the date (when there is one) and the device;
      TOT always shows its airway, `Não inf.` when none was chosen; PVP, PAM
      and Dreno show their location only when one was typed; any other
      device is the device alone. */
  lemma {:induction false} InvasionLineShape(data: FormRecord, dateFormatted: string, inv: string)
    ensures var r := InvasionLine(data, dateFormatted, inv);
      && StartsWith(r, DatePrefix(dateFormatted) + inv)
      && (inv == "TOT" ==>
            r == DatePrefix(dateFormatted) + inv + " VAD: " + OrElse(data, "clin_vad", "Não inf."))
      && (inv != "TOT" && LocationKey(inv).Some? && Answered(data, LocationKey(inv).value) ==>
            r == DatePrefix(dateFormatted) + inv + " " + AsText(data[LocationKey(inv).value]))
      && (inv != "TOT" && (LocationKey(inv).None? || !Answered(data, LocationKey(inv).value)) ==>
            r == DatePrefix(dateFormatted) + inv)
  {
    var prefix := DatePrefix(dateFormatted);
    var d := Detail(data, inv);
    DetailShape(data, inv);
    if dateFormatted == "" {
      assert prefix + inv == inv;
    } else {
      assert dateFormatted + " " + (inv + d) == (prefix + inv) + d;
    }
    assert InvasionLine(data, dateFormatted, inv) == (prefix + inv) + d;
    assert ((prefix + inv) + d)[..|prefix + inv|] == prefix + inv;
  }

  /** The detail after a device, case by case. */
  lemma {:induction false} DetailShape(data: FormRecord, inv: string)
    ensures inv == "TOT" ==> Detail(data, inv) == " VAD: " + OrElse(data, "clin_vad", "Não inf.")
    ensures inv != "TOT" && LocationKey(inv).Some? && Answered(data, LocationKey(inv).value) ==>
              Detail(data, inv) == " " + AsText(data[LocationKey(inv).value])
    ensures inv != "TOT" && (LocationKey(inv).None? || !Answered(data, LocationKey(inv).value)) ==>
              Detail(data, inv) == ""
  {
    if inv == "TOT" {
    } else if inv == "PVP" {
    } else if inv == "PAM" {
      assert inv[1] == 'A';
    } else if inv == "Dreno" {
      assert |inv| == 5;
    }
  }

  /** The lines of the devices `invs`, in order. */
  function InvasionLinesOf(data: FormRecord, dateFormatted: string, invs: seq<string>): (r: seq<string>)
    ensures |r| == |invs|
  {
    if |invs| == 0 then []
    else [InvasionLine(data, dateFormatted, invs[0])] + InvasionLinesOf(data, dateFormatted, invs[1..])
  }

  /** The `invList.forEach` of the clinical summary: one line per device, in
      the order the devices were checked. */
  method InvasionLines(data: FormRecord, dateFormatted: string) returns (lines: seq<string>)
    ensures lines == InvasionLinesOf(data, dateFormatted, InvasionList(data))
  {
    var invList := InvasionList(data);
    lines := [];
    var i := 0;
    while i < |invList|
      invariant 0 <= i <= |invList|
      invariant lines + InvasionLinesOf(data, dateFormatted, invList[i..]) == InvasionLinesOf(data, dateFormatted, invList)
    {
      assert invList[i..][1..] == invList[i + 1..];
      ghost var rest := InvasionLinesOf(data, dateFormatted, invList[i + 1..]);
      var line := InvasionLine(data, dateFormatted, invList[i]);
      assert InvasionLinesOf(data, dateFormatted, invList[i..]) == [line] + rest;
      assert (lines + [line]) + rest == lines + ([line] + rest);
      lines := lines + [line];
      i := i + 1;
    }
  }

  /** The `i`-th line is the line of the `i`-th device. */
  lemma {:induction false} InvasionLinesAt(data: FormRecord, dateFormatted: string, invs: seq<string>, i: nat)
    requires i < |invs|
    ensures InvasionLinesOf(data, dateFormatted, invs)[i] == InvasionLine(data, dateFormatted, invs[i])
  {
    if i > 0 {
      InvasionLinesAt(data, dateFormatted, invs[1..], i - 1);
    }
  }

  /** `invStr`: the lines one per row, or `Nenhuma invasão` when that is empty. */
  function InvasionText(lines: seq<string>): string
  {
    var joined := Join(lines, "\n");
    if joined == "" then "Nenhuma invasão" else joined
  }

  /** Without devices the note says there is no invasion. */
  lemma {:induction false} NoDeviceNoInvasion(data: FormRecord, dateFormatted: string)
    requires InvasionList(data) == []
    ensures InvasionText(InvasionLinesOf(data, dateFormatted, InvasionList(data))) == "Nenhuma invasão"
  {
  }

  /** With devices, the invasion text holds exactly their lines, one per row. */
  lemma {:induction false} InvasionTextLines(lines: seq<string>)
    requires |lines| >= 1 && lines[0] != ""
    requires forall i :: 0 <= i < |lines| ==> '\n' !in lines[i]
    ensures Split(InvasionText(lines), "\n") == lines
  {
    assert Join(lines, "\n") != "" by {
      if |lines| > 1 {
        assert Join(lines, "\n") == lines[0] + "\n" + Join(lines[1..], "\n");
      }
    }
    SplitJoin(lines, "\n");
  }

  /** `instLines`: neurological, ventilatory, a blank line, hemodynamic, pain. */
  function InstLines(data: FormRecord): (r: seq<string>)
    ensures |r| == 5 && forall i :: 0 <= i < 5 ==> '\n' !in r[i]
  {
    [ClinicalFormatInst(Lookup(data, "inst_neuro"), Neuro),
     ClinicalFormatInst(Lookup(data, "inst_vent"), Vent),
     "",
     ClinicalFormatInst(Lookup(data, "inst_hemo"), Hemo),
     ClinicalFormatInst(Lookup(data, "inst_dor"), Pain)]
  }

  /** Read line by line, the instability text is the five lines in their
      fixed order, with the blank one in the middle. */
  lemma {:induction false} InstTextInOrder(data: FormRecord)
    ensures Split(Join(InstLines(data), "\n"), "\n") == InstLines(data)
  {
    SplitJoin(InstLines(data), "\n");
  }

  /** The outcome of pressing the button: a warning naming the unanswered
      axes, the note, or the `TypeError` that `formatDate` raises when the
      record holds more than one date (`split` of an array). */
  datatype Outcome = Warned(missing: seq<string>) | Shown(text: string) | Thrown

  /** The note before `trim`. */
  function Body(leito: string, instStr: string, invStr: string): string
  {
    leito + "\n\n\n" + instStr + "\n\n\n" + invStr
  }

  /** What `generateClinicalSummary` produces for a record. */
  function Summarize(data: FormRecord): (r: Outcome)
    ensures r.Warned? <==> MissingLabels(data, GateFields) != []
    ensures r.Warned? ==> r.missing == MissingLabels(data, GateFields)
  {
    var missing := MissingLabels(data, GateFields);
    if missing != [] then Warned(missing)
    else
      var leito := OrElse(data, "clin_leito", "N/I");
      var rawDate := if Answered(data, "clin_data") then data["clin_data"] else Scalar("");
      if rawDate.List? then Thrown
      else
        var dateFormatted := FormatDate(rawDate.text);
        var lines := InvasionLinesOf(data, dateFormatted, InvasionList(data));
        Shown(Trim(Body(leito, Join(InstLines(data), "\n"), InvasionText(lines))))
  }

  /** `generateClinicalSummary` over the clinical form's entries. */
  method GenerateClinicalSummary(entries: seq<Entry>) returns (out: Outcome)
    ensures out == Summarize(AccumulateAll(map[], entries))
  {
    var data := ExtractFormData(map[], entries);
    var missing := CheckInstability(data, GateFields);
    if |missing| > 0 {
      return Warned(missing);
    }
    var leito := OrElse(data, "clin_leito", "N/I");
    var rawDate := if Answered(data, "clin_data") then data["clin_data"] else Scalar("");
    if rawDate.List? {
      return Thrown;
    }
    var dateFormatted := FormatDate(rawDate.text);

    var neuro := ClinicalFormatInst(Lookup(data, "inst_neuro"), Neuro);
    var vent := ClinicalFormatInst(Lookup(data, "inst_vent"), Vent);
    var hemo := ClinicalFormatInst(Lookup(data, "inst_hemo"), Hemo);
    var pain := ClinicalFormatInst(Lookup(data, "inst_dor"), Pain);
    // the five `instLines.push` calls, in their order
    var instLines := [neuro, vent, "", hemo, pain];
    var instStr := Join(instLines, "\n");

    var invasionStrings := InvasionLines(data, dateFormatted);
    var invStr := InvasionText(invasionStrings);

    var summary := leito + "\n\n\n" + instStr + "\n\n\n" + invStr;
    out := Shown(Trim(summary));
  }

  /** A note is produced only when all four axes are answered. */
  lemma {:induction false} ShownOnlyWhenAnswered(data: FormRecord)
    requires Summarize(data).Shown?
    ensures forall i :: 0 <= i < |GateFields| ==> Answered(data, GateFields[i].name)
  {
    GatePasses(data);
  }

  /** Read line by line, the note before trimming is the bed, two blank
      lines, the instability lines, two blank lines and the invasion lines. */
  lemma {:induction false} BodyLines(leito: string, instLines: seq<string>, invLines: seq<string>)
    requires |instLines| >= 1 && |invLines| >= 1 && '\n' !in leito
    requires forall i :: 0 <= i < |instLines| ==> '\n' !in instLines[i]
    requires forall i :: 0 <= i < |invLines| ==> '\n' !in invLines[i]
    ensures Split(Body(leito, Join(instLines, "\n"), Join(invLines, "\n")), "\n")
         == [leito, "", ""] + instLines + ["", ""] + invLines
  {
    var all := [leito, "", ""] + instLines + ["", ""] + invLines;
    JoinAppend([leito, "", ""], instLines, "\n");
    JoinAppend([leito, "", ""] + instLines, ["", ""], "\n");
    JoinAppend([leito, "", ""] + instLines + ["", ""], invLines, "\n");
    assert Join([leito, "", ""], "\n") == leito + "\n" + "" + "\n" + "" by {
      assert [leito, "", ""][1..] == ["", ""];
      assert ["", ""][1..] == [""];
    }
    assert Join(["", ""], "\n") == "\n" by {
      assert ["", ""][1..] == [""];
    }
    assert Join(all, "\n") == Body(leito, Join(instLines, "\n"), Join(invLines, "\n"));
    forall i | 0 <= i < |all|
      ensures '\n' !in all[i]
    {
      if i < 3 {
      } else if i < 3 + |instLines| {
        assert all[i] == instLines[i - 3];
      } else if i < 5 + |instLines| {
      } else {
        assert all[i] == invLines[i - 5 - |instLines|];
      }
    }
    SplitJoin(all, "\n");
  }
}
