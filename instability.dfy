/** The "Há Instabilidade?" block of both summaries: each of four axes is
    answered `Sim` (unstable) or `Não` (stable), `formatInst` turns an answer
    into a phrase (app.js:329-339, app.js:584-594), the surgical summary puts
    the stable phrases before the unstable ones (app.js:596-613), and the
    clinical summary refuses to run while an axis is unanswered
    (app.js:287-313). */
module Instability {
  import opened Wrappers
  import opened JsStrings
  import opened DraftStore

  datatype Axis = Neuro | Hemo | Vent | Pain

  /** The label each summary prints for an axis. */
  function Label(a: Axis): string
  {
    match a
    case Neuro => "Neurológico"
    case Hemo => "Hemodinâmica"
    case Vent => "Ventilatório"
    case Pain => "Dor forte"
  }

  /** `label.toLowerCase()` for the four labels. */
  function LowerLabel(a: Axis): string
  {
    match a
    case Neuro => "neurológico"
    case Hemo => "hemodinâmica"
    case Vent => "ventilatório"
    case Pain => "dor forte"
  }

  /** Only the pain label lower-cases to `dor forte`, so the special phrases
      are reserved to that axis. */
  lemma {:induction false} PainLabelOnly(a: Axis)
    ensures LowerLabel(a) == "dor forte" <==> a == Pain
  {
    if a != Pain {
      assert LowerLabel(a)[0] != 'd';
    }
  }

  /** No label holds a line break. */
  lemma {:induction false} LabelsOneLine(a: Axis)
    ensures '\n' !in Label(a) && '\n' !in LowerLabel(a)
  {
    match a
    case Neuro =>
    case Hemo =>
    case Vent =>
    case Pain =>
  }

  /** `formatInst(val, label)` of the surgical summary: `Não` gives a phrase
      starting with `+`, `Sim` one starting with `-`, anything else `null`. */
  function FormatInst(answer: string, a: Axis): (r: Option<string>)
    ensures r.Some? <==> answer == "Não" || answer == "Sim"
    ensures r.Some? ==> |r.value| > 2 && (r.value[0] == '+' <==> answer == "Não")
    ensures r.Some? ==> r.value[0] == '+' || r.value[0] == '-'
    ensures r.Some? ==> '\n' !in r.value
  {
    LabelsOneLine(a);
    if answer == "Não" then
      if LowerLabel(a) == "dor forte" then Some("+ Sem dor forte") else Some("+ " + Label(a) + " ok")
    else if answer == "Sim" then
      if LowerLabel(a) == "dor forte" then Some("- Dor forte") else Some("- Instabilidade " + LowerLabel(a))
    else None
  }

  /** `startsWith('+')` looks at the first character only. */
  lemma {:induction false} StartsWithPlus(s: string)
    ensures StartsWith(s, "+") <==> |s| > 0 && s[0] == '+'
  {
    if |s| > 0 && s[0] == '+' {
      assert s[..1] == "+";
    }
  }

  /** The character of a phrase that tells the axes apart: the third for a
      stable answer, the seventeenth for an unstable one (whose pain phrase
      is shorter than that). */
  lemma {:induction false} PhraseMarks(v: string, a: Axis)
    requires v == "Não" || v == "Sim"
    ensures var p := FormatInst(v, a).value;
      && (v == "Não" ==> p[2] == match a case Neuro => 'N' case Hemo => 'H' case Vent => 'V' case Pain => 'S')
      && (v == "Sim" && a == Pain ==> |p| == 11)
      && (v == "Sim" && a != Pain ==> |p| > 16 && p[16] == match a case Neuro => 'n' case Hemo => 'h' case Vent => 'v' case Pain => 'd')
  {
    PainLabelOnly(a);
  }

  /** The answer and the axis can be read back from a phrase: no two
      answered axes share one. */
  lemma {:induction false} FormatInstInjective(v1: string, a1: Axis, v2: string, a2: Axis)
    requires FormatInst(v1, a1).Some? && FormatInst(v1, a1) == FormatInst(v2, a2)
    ensures v1 == v2 && a1 == a2
  {
    PhraseMarks(v1, a1);
    PhraseMarks(v2, a2);
  }

  /** `formatInst(val, label)` of the clinical summary, over the value that
      the form record holds: only the exact strings `Não` and `Sim` match
      (`===`), anything else prints as `? <label>: -`. */
  function ClinicalFormatInst(answer: Option<Value>, a: Axis): (r: string)
    ensures |r| > 0 && '\n' !in r
    ensures (answer == Some(Scalar("Não")) || answer == Some(Scalar("Sim"))) <==> r[0] != '?'
    ensures answer.Some? && answer.value.Scalar? && FormatInst(answer.value.text, a).Some? ==>
              r == FormatInst(answer.value.text, a).value
  {
    LabelsOneLine(a);
    match answer
    case Some(Scalar(t)) =>
      (match FormatInst(t, a)
       case Some(p) => p
       case None => "? " + Label(a) + ": -")
    case _ => "? " + Label(a) + ": -"
  }

  // ---------------------------------------------------------------------------
  // Surgical: stable phrases first, then unstable ones

  /** The four radio answers of the surgical form (`''` when none is checked). */
  datatype Answers = Answers(neuro: string, hemo: string, vent: string, pain: string)

  function AnswerOf(ans: Answers, a: Axis): string
  {
    match a
    case Neuro => ans.neuro
    case Hemo => ans.hemo
    case Vent => ans.vent
    case Pain => ans.pain
  }

  /** The order of the `items` array of the surgical summary. */
  const SurgicalOrder: seq<Axis> := [Hemo, Neuro, Vent, Pain]

  /** The phrases of the answered axes among `axes`, in order, that start
      with `+` (`plus`) or do not (`!plus`). */
  function Signed(ans: Answers, axes: seq<Axis>, plus: bool): (r: seq<string>)
    ensures |r| <= |axes|
    decreases |axes|
  {
    if |axes| == 0 then []
    else
      var res := FormatInst(AnswerOf(ans, axes[0]), axes[0]);
      var here := if res.Some? && StartsWith(res.value, "+") == plus then [res.value] else [];
      here + Signed(ans, axes[1..], plus)
  }

  /** The phrases of the axes among `axes` whose answer is `v`, in order. */
  function AnsweredWith(ans: Answers, axes: seq<Axis>, v: string): seq<string>
    requires v == "Não" || v == "Sim"
  {
    if |axes| == 0 then []
    else
      (if AnswerOf(ans, axes[0]) == v then [FormatInst(v, axes[0]).value] else [])
      + AnsweredWith(ans, axes[1..], v)
  }

  /** The positives are exactly the `Não` answers and the negatives exactly
      the `Sim` answers, each in item order; other answers are dropped. */
  lemma {:induction false} SignedAreAnswers(ans: Answers, axes: seq<Axis>)
    ensures Signed(ans, axes, true) == AnsweredWith(ans, axes, "Não")
    ensures Signed(ans, axes, false) == AnsweredWith(ans, axes, "Sim")
  {
    if |axes| > 0 {
      SignedAreAnswers(ans, axes[1..]);
    }
  }

  /** The `items.forEach` of the surgical summary (`items` is
      `SurgicalOrder` there): each phrase goes to the positives when it
      starts with `+` and to the negatives otherwise. */
  method SplitPhrases(ans: Answers, items: seq<Axis>) returns (positives: seq<string>, negatives: seq<string>)
    ensures positives == Signed(ans, items, true)
    ensures negatives == Signed(ans, items, false)
  {
    positives := [];
    negatives := [];
    var i := 0;
    while i < |items|
      invariant 0 <= i <= |items|
      invariant positives + Signed(ans, items[i..], true) == Signed(ans, items, true)
      invariant negatives + Signed(ans, items[i..], false) == Signed(ans, items, false)
    {
      var item := items[i];
      var res := FormatInst(AnswerOf(ans, item), item);
      SignedStep(ans, items[i..], true);
      SignedStep(ans, items[i..], false);
      assert items[i..][1..] == items[i + 1..];
      ghost var restPlus := Signed(ans, items[i + 1..], true);
      ghost var restMinus := Signed(ans, items[i + 1..], false);
      if res.Some? && StartsWith(res.value, "+") {
        assert Signed(ans, items[i..], true) == [res.value] + restPlus;
        assert Signed(ans, items[i..], false) == restMinus;
        AppendAssociates(positives, [res.value], restPlus);
        positives := positives + [res.value];
      } else if res.Some? {
        assert Signed(ans, items[i..], true) == restPlus;
        assert Signed(ans, items[i..], false) == [res.value] + restMinus;
        AppendAssociates(negatives, [res.value], restMinus);
        negatives := negatives + [res.value];
      } else {
        assert Signed(ans, items[i..], true) == restPlus;
        assert Signed(ans, items[i..], false) == restMinus;
      }
      i := i + 1;
    }
  }

  /** Every phrase of a group is one line, and starts with `+` exactly in the
      positives. */
  lemma {:induction false} SignedPhrases(ans: Answers, axes: seq<Axis>, plus: bool)
    ensures forall i :: 0 <= i < |Signed(ans, axes, plus)| ==>
      '\n' !in Signed(ans, axes, plus)[i] && (StartsWith(Signed(ans, axes, plus)[i], "+") <==> plus)
  {
    if |axes| > 0 {
      SignedPhrases(ans, axes[1..], plus);
      var res := FormatInst(AnswerOf(ans, axes[0]), axes[0]);
      if res.Some? {
        StartsWithPlus(res.value);
      }
    }
  }

  lemma {:induction false} AppendAssociates(a: seq<string>, b: seq<string>, c: seq<string>)
    ensures (a + b) + c == a + (b + c)
  {
  }

  /** One item of the split, taken from the front. */
  lemma {:induction false} SignedStep(ans: Answers, axes: seq<Axis>, plus: bool)
    requires |axes| > 0
    ensures var res := FormatInst(AnswerOf(ans, axes[0]), axes[0]);
      Signed(ans, axes, plus)
      == (if res.Some? && StartsWith(res.value, "+") == plus then [res.value] else []) + Signed(ans, axes[1..], plus)
  {
  }

  /** `instStr`: the positives one per line, a blank line only when both
      groups are present, then the negatives one per line. */
  function InstText(positives: seq<string>, negatives: seq<string>): string
  {
    Join(positives, "\n")
    + (if |positives| > 0 && |negatives| > 0 then "\n\n" else "")
    + Join(negatives, "\n")
  }

  /** Read line by line, the text is the positives, one empty line when both
      groups are present, and the negatives. */
  lemma {:induction false} InstTextLines(positives: seq<string>, negatives: seq<string>)
    requires |positives| + |negatives| > 0
    requires forall i :: 0 <= i < |positives| ==> '\n' !in positives[i]
    requires forall i :: 0 <= i < |negatives| ==> '\n' !in negatives[i]
    ensures Split(InstText(positives, negatives), "\n")
         == positives + (if |positives| > 0 && |negatives| > 0 then [""] else []) + negatives
  {
    var lines := positives + (if |positives| > 0 && |negatives| > 0 then [""] else []) + negatives;
    if |positives| > 0 && |negatives| > 0 {
      JoinAppend(positives, [""], "\n");
      JoinAppend(positives + [""], negatives, "\n");
      assert Join(lines, "\n") == Join(positives, "\n") + "\n" + "" + "\n" + Join(negatives, "\n");
    } else if |positives| > 0 {
      assert lines == positives;
      assert InstText(positives, negatives) == Join(positives, "\n") + "" + "";
    } else {
      assert lines == negatives;
      assert InstText(positives, negatives) == "" + "" + Join(negatives, "\n");
    }
    assert Join(lines, "\n") == InstText(positives, negatives);
    forall i | 0 <= i < |lines|
      ensures '\n' !in lines[i]
    {
      if i < |positives| {
        assert lines[i] == positives[i];
      } else if |positives| > 0 && |negatives| > 0 && i == |positives| {
        assert lines[i] == "";
      } else {
        assert lines[i] in negatives;
      }
    }
    SplitJoin(lines, "\n");
  }

  /** The worked case: unstable only neurologically gives the stable
      phrases of the hemodynamic, ventilatory and pain axes in item order,
      then the neurological instability. */
  lemma {:induction false} NeuroUnstableExample()
    ensures Signed(Answers("Sim", "Não", "Não", "Não"), SurgicalOrder, true)
         == [FormatInst("Não", Hemo).value, FormatInst("Não", Vent).value, "+ Sem dor forte"]
    ensures Signed(Answers("Sim", "Não", "Não", "Não"), SurgicalOrder, false)
         == [FormatInst("Sim", Neuro).value]
  {
    var ans := Answers("Sim", "Não", "Não", "Não");
    SignedAreAnswers(ans, SurgicalOrder);
    var tail1, tail2, tail3 := [Neuro, Vent, Pain], [Vent, Pain], [Pain];
    assert SurgicalOrder[1..] == tail1 && tail1[1..] == tail2 && tail2[1..] == tail3 && tail3[1..] == [];
  }

  // ---------------------------------------------------------------------------
  // Clinical: the validation gate

  /** A field of the gate: the radio group's name and the title the warning prints. */
  datatype GateField = GateField(name: string, title: string)

  /** `instabilityFields`, in the order they are checked. */
  const GateFields: seq<GateField> := [
    GateField("inst_neuro", "Neurológica"),
    GateField("inst_hemo", "Hemodinâmica"),
    GateField("inst_vent", "Ventilatória"),
    GateField("inst_dor", "Dor Forte")
  ]

  /** Whether the record holds a truthy value under `name` (`data[name]`). */
  predicate Answered(data: FormRecord, name: string)
  {
    name in data && Truthy(data[name])
  }

  /** The labels of the fields among `fields` that the record leaves
      unanswered, in order. */
  function MissingLabels(data: FormRecord, fields: seq<GateField>): (r: seq<string>)
    ensures |r| <= |fields|
  {
    if |fields| == 0 then []
    else (if Answered(data, fields[0].name) then [] else [fields[0].title]) + MissingLabels(data, fields[1..])
  }

  /** The `instabilityFields.forEach` of the clinical summary: `missing`
      collects the label of every unanswered field of `fields` (the script
      passes `GateFields`). */
  method CheckInstability(data: FormRecord, fields: seq<GateField>) returns (missing: seq<string>)
    ensures missing == MissingLabels(data, fields)
  {
    missing := [];
    var i := 0;
    while i < |fields|
      invariant 0 <= i <= |fields|
      invariant missing + MissingLabels(data, fields[i..]) == MissingLabels(data, fields)
    {
      var field := fields[i];
      ghost var rest := MissingLabels(data, fields[i + 1..]);
      assert fields[i..][1..] == fields[i + 1..];
      var step := if Answered(data, field.name) then [] else [field.title];
      assert MissingLabels(data, fields[i..]) == step + rest;
      assert missing + (step + rest) == (missing + step) + rest;
      missing := missing + step;
      i := i + 1;
    }
  }

  /** A label is reported exactly when its field is unanswered (the labels
      are distinct). */
  lemma {:induction false} MissingLabelIff(data: FormRecord, fields: seq<GateField>, i: nat)
    requires i < |fields|
    requires forall j, k :: 0 <= j < k < |fields| ==> fields[j].title != fields[k].title
    ensures fields[i].title in MissingLabels(data, fields) <==> !Answered(data, fields[i].name)
  {
    if i == 0 {
      MissingLabelsFrom(data, fields[1..], fields[0].title);
    } else {
      MissingLabelIff(data, fields[1..], i - 1);
      assert fields[1..][i - 1] == fields[i];
      if Answered(data, fields[0].name) {
      } else {
        assert fields[0].title != fields[i].title;
      }
    }
  }

  /** Only the labels of the given fields are ever reported. */
  lemma {:induction false} MissingLabelsFrom(data: FormRecord, fields: seq<GateField>, title: string)
    requires forall j :: 0 <= j < |fields| ==> fields[j].title != title
    ensures title !in MissingLabels(data, fields)
  {
    if |fields| > 0 {
      MissingLabelsFrom(data, fields[1..], title);
    }
  }

  /** The gate lets the summary through exactly when all four axes are
      answered. */
  lemma {:induction false} GatePasses(data: FormRecord)
    ensures MissingLabels(data, GateFields) == [] <==>
      forall i :: 0 <= i < |GateFields| ==> Answered(data, GateFields[i].name)
  {
    forall i | 0 <= i < |GateFields|
      ensures GateFields[i].title in MissingLabels(data, GateFields) <==> !Answered(data, GateFields[i].name)
    {
      MissingLabelIff(data, GateFields, i);
    }
    if MissingLabels(data, GateFields) != [] {
      var l := MissingLabels(data, GateFields)[0];
      assert l in MissingLabels(data, GateFields);
      MissingLabelsOfFields(data, GateFields, l);
    }
  }

  /** Every reported label is the label of an unanswered field. */
  lemma {:induction false} MissingLabelsOfFields(data: FormRecord, fields: seq<GateField>, title: string)
    requires title in MissingLabels(data, fields)
    ensures exists j :: 0 <= j < |fields| && fields[j].title == title && !Answered(data, fields[j].name)
  {
    if !Answered(data, fields[0].name) && title == fields[0].title {
    } else {
      MissingLabelsOfFields(data, fields[1..], title);
      var j :| 0 <= j < |fields[1..]| && fields[1..][j].title == title && !Answered(data, fields[1..][j].name);
      assert fields[j + 1] == fields[1..][j];
    }
  }
}
