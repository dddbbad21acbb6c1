/** The `formatDate` helper that both summaries share (app.js:320-324 and
    app.js:497-502): an input date `Y-M-D` is printed as `D/M`. */
module DateFormat {
  import opened JsStrings

  /** `formatDate(dateStr)`: `""` for an empty input; otherwise the input is
      split at `-` and the third and second parts are printed as `d/m`, a
      missing part printing as `undefined`. */
  function FormatDate(s: string): string
  {
    if s == "" then ""
    else
      var parts := Split(s, "-");
      var m := if |parts| > 1 then parts[1] else "undefined";
      var d := if |parts| > 2 then parts[2] else "undefined";
      d + "/" + m
  }

  /** A date `y-m-d` whose parts hold no `-` prints as `d/m`: the day first,
      the month second, and the year dropped. */
  lemma {:induction false} FormatIsoDate(y: string, m: string, d: string)
    requires '-' !in y && '-' !in m && '-' !in d
    ensures FormatDate(y + "-" + m + "-" + d) == d + "/" + m
  {
    var parts := [y, m, d];
    SplitJoin(parts, "-");
    assert Join(parts, "-") == y + "-" + m + "-" + d by {
      assert parts[1..] == [m, d];
      assert Join([m, d], "-") == m + "-" + d by { assert [m, d][1..] == [d]; }
    }
  }

  /** The dates the date inputs produce: `2024-03-07` prints as `07/03`. */
  lemma {:induction false} FormatSampleDate()
    ensures FormatDate("2024-03-07") == "07/03"
  {
    var iso := "2024" + "-" + "03" + "-" + "07";
    assert iso == "2024-03-07";
    FormatIsoDate("2024", "03", "07");
  }

  /** An empty date prints as nothing, and a non-empty one never does. */
  lemma {:induction false} FormatDateEmpty(s: string)
    ensures FormatDate(s) == "" <==> s == ""
  {
    if s != "" {
      assert '/' in FormatDate(s);
    }
  }
}
