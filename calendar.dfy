/** The reminder file of `generateCalendarEvent` (app.js:794-824): twelve
    content lines joined by CRLF, as section 3.1 of RFC 5545 requires, with
    the note put in the description after every line feed has been replaced
    by backslash-`n` (section 3.3.11 of RFC 5545). The clock, the prompt and
    the download are not modelled: the instants arrive as the strings
    `Date.prototype.toISOString` gives for them. */
module Calendar {
  import opened Wrappers
  import opened JsStrings

  const Title: string := "Revisar Paciente (UPO)"

  /** `Lembrete de revisão.`, a blank line, then the note. */
  function Description(summary: string): string
  {
    "Lembrete de revisão.\n\n" + summary
  }

  // ---------------------------------------------------------------------------
  // `date.toISOString().replace(/-|:|\.\d+/g, '')`

  /** `s` without its leading decimal digits. */
  function DropDigits(s: string): (r: string)
    ensures |r| <= |s|
  {
    if |s| > 0 && IsDecimalDigit(s[0]) then DropDigits(s[1..]) else s
  }

  /** The global replace, scanning from the left: a `-` or a `:` is removed,
      and so is a `.` followed by a run of digits (the whole run, since `\d+`
      is greedy); a `.` with no digit after it stays. */
  function CompactStamp(s: string): string
    decreases |s|
  {
    if |s| == 0 then ""
    else if s[0] == '-' || s[0] == ':' then CompactStamp(s[1..])
    else if s[0] == '.' && |s| > 1 && IsDecimalDigit(s[1]) then CompactStamp(DropDigits(s[1..]))
    else [s[0]] + CompactStamp(s[1..])
  }

  /** No `-` and no `:` survive the replace, and it adds no character. */
  lemma {:induction false} CompactStampDropsSeparators(s: string)
    ensures '-' !in CompactStamp(s) && ':' !in CompactStamp(s)
    ensures forall c :: c in CompactStamp(s) ==> c in s
    decreases |s|
  {
    if |s| > 0 {
      if s[0] == '-' || s[0] == ':' {
        CompactStampDropsSeparators(s[1..]);
      } else if s[0] == '.' && |s| > 1 && IsDecimalDigit(s[1]) {
        DropDigitsIsSuffix(s[1..]);
        CompactStampDropsSeparators(DropDigits(s[1..]));
      } else {
        CompactStampDropsSeparators(s[1..]);
      }
    }
  }

  lemma {:induction false} DropDigitsIsSuffix(s: string)
    ensures forall c :: c in DropDigits(s) ==> c in s
    decreases |s|
  {
    if |s| > 0 && IsDecimalDigit(s[0]) {
      DropDigitsIsSuffix(s[1..]);
    }
  }

  /** A character that starts no match is kept. */
  lemma {:induction false} CompactKeeps(c: char, rest: string)
    requires c != '-' && c != ':' && c != '.'
    ensures CompactStamp([c] + rest) == [c] + CompactStamp(rest)
  {
    assert ([c] + rest)[1..] == rest;
  }

  /** A `-` or `:` is dropped. */
  lemma {:induction false} CompactDrops(c: char, rest: string)
    requires c == '-' || c == ':'
    ensures CompactStamp([c] + rest) == CompactStamp(rest)
  {
    assert ([c] + rest)[1..] == rest;
  }

  /** A run of digits is kept as it is. */
  lemma {:induction false} CompactKeepsDigits(ds: string, rest: string)
    requires forall i :: 0 <= i < |ds| ==> IsDecimalDigit(ds[i])
    ensures CompactStamp(ds + rest) == ds + CompactStamp(rest)
    decreases |ds|
  {
    if |ds| > 0 {
      CompactKeepsDigits(ds[1..], rest);
      assert ds + rest == [ds[0]] + (ds[1..] + rest);
      CompactKeeps(ds[0], ds[1..] + rest);
      assert ds + CompactStamp(rest) == [ds[0]] + (ds[1..] + CompactStamp(rest));
    } else {
      assert ds + rest == rest && ds + CompactStamp(rest) == CompactStamp(rest);
    }
  }

  /** The milliseconds, `.` and all their digits, are dropped. */
  lemma {:induction false} CompactDropsFraction(ms: string, rest: string)
    requires |ms| >= 1 && forall i :: 0 <= i < |ms| ==> IsDecimalDigit(ms[i])
    requires |rest| == 0 || !IsDecimalDigit(rest[0])
    ensures CompactStamp("." + (ms + rest)) == CompactStamp(rest)
  {
    var s := "." + (ms + rest);
    assert s[1..] == ms + rest;
    assert s[1] == ms[0];
    DropDigitsOf(ms, rest);
  }

  lemma {:induction false} DropDigitsOf(ds: string, rest: string)
    requires forall i :: 0 <= i < |ds| ==> IsDecimalDigit(ds[i])
    requires |rest| == 0 || !IsDecimalDigit(rest[0])
    ensures DropDigits(ds + rest) == rest
    decreases |ds|
  {
    if |ds| > 0 {
      assert (ds + rest)[1..] == ds[1..] + rest;
      DropDigitsOf(ds[1..], rest);
    } else {
      assert ds + rest == rest;
    }
  }

  /** The ISO form `YYYY-MM-DDTHH:mm:ss.sssZ` of an instant, from its parts. */
  function IsoString(y: string, mo: string, d: string, h: string, mi: string, s: string, ms: string): string
  {
    y + ("-" + (mo + ("-" + (d + ("T" + (h + (":" + (mi + (":" + (s + ("." + (ms + "Z"))))))))))))
  }

  predicate AllDigits(s: string)
  {
    forall i :: 0 <= i < |s| ==> IsDecimalDigit(s[i])
  }

  /** `formatDate` of the calendar export: the basic form
      `YYYYMMDDTHHmmssZ` that section 3.3.5 of RFC 5545 asks for, with the
      separators and the milliseconds gone. */
  lemma {:induction false} CompactIsoString(y: string, mo: string, d: string, h: string, mi: string, s: string, ms: string)
    requires AllDigits(y) && AllDigits(mo) && AllDigits(d) && AllDigits(h) && AllDigits(mi) && AllDigits(s)
    requires AllDigits(ms) && |ms| >= 1
    ensures CompactStamp(IsoString(y, mo, d, h, mi, s, ms)) == y + (mo + (d + ("T" + (h + (mi + (s + "Z"))))))
  {
    assert CompactStamp("Z") == "Z" by { CompactKeeps('Z', ""); }
    CompactDropsFraction(ms, "Z");
    CompactKeepsDigits(s, "." + (ms + "Z"));
    CompactDrops(':', s + ("." + (ms + "Z")));
    var t1 := ":" + (s + ("." + (ms + "Z")));
    CompactKeepsDigits(mi, t1);
    var t2 := ":" + (mi + t1);
    CompactDrops(':', mi + t1);
    CompactKeepsDigits(h, t2);
    var t3 := "T" + (h + t2);
    CompactKeeps('T', h + t2);
    CompactKeepsDigits(d, t3);
    var t4 := "-" + (d + t3);
    CompactDrops('-', d + t3);
    CompactKeepsDigits(mo, t4);
    var t5 := "-" + (mo + t4);
    CompactDrops('-', mo + t4);
    CompactKeepsDigits(y, t5);
  }

  /** The instant of the examples, `2024-03-07T10:20:30.123Z`, prints as
      `20240307T102030Z`. */
  lemma {:induction false} CompactSampleStamp()
    ensures CompactStamp("2024-03-07T10:20:30.123Z") == "20240307T102030Z"
  {
    CompactIsoString("2024", "03", "07", "10", "20", "30", "123");
    SampleIsoParts();
    SampleBasicParts();
  }

  lemma {:induction false} SampleIsoParts()
    ensures IsoString("2024", "03", "07", "10", "20", "30", "123") == "2024-03-07T10:20:30.123Z"
  {
  }

  lemma {:induction false} SampleBasicParts()
    ensures "2024" + ("03" + ("07" + ("T" + ("10" + ("20" + ("30" + "Z")))))) == "20240307T102030Z"
  {
  }

  // ---------------------------------------------------------------------------
  // The file

  /** The content lines, in the order of the script's array. */
  function IcsLines(nowMillis: nat, nowIso: string, startIso: string, endIso: string, summary: string): (r: seq<string>)
    ensures |r| == 12
  {
    ["BEGIN:VCALENDAR",
     "VERSION:2.0",
     "PRODID:-//UPO//Admissao//PT",
     "BEGIN:VEVENT",
     "UID:" + DecimalString(nowMillis) + "@upo.app",
     "DTSTAMP:" + CompactStamp(nowIso),
     "DTSTART:" + CompactStamp(startIso),
     "DTEND:" + CompactStamp(endIso),
     "SUMMARY:" + Title,
     "DESCRIPTION:" + EscapeNewlines(Description(summary)),
     "END:VEVENT",
     "END:VCALENDAR"]
  }

  /** `icsContent`: the lines joined by CRLF. */
  function IcsContent(nowMillis: nat, nowIso: string, startIso: string, endIso: string, summary: string): string
  {
    Join(IcsLines(nowMillis, nowIso, startIso, endIso, summary), "\r\n")
  }

  /** What pressing the reminder button gives: nothing when the prompt for
      the delay is cancelled or left empty (`if (!hours) return`), the
      `RangeError` that `toISOString` throws when the start or end is an
      invalid date, or the file. */
  datatype Reminder = NoReminder | Thrown | File(text: string)

  /** `generateCalendarEvent`, given the answer to the prompt and the ISO
      strings of the three instants, `None` standing for an invalid date (a
      delay `parseFloat` cannot read, or one beyond the range of `Date`). */
  function CalendarEvent(hours: Option<string>, nowMillis: nat, nowIso: string, startIso: Option<string>,
                         endIso: Option<string>, summary: string): (r: Reminder)
    ensures r.NoReminder? <==> hours.None? || hours.value == ""
    ensures r.Thrown? <==> !r.NoReminder? && (startIso.None? || endIso.None?)
    ensures r.File? ==> r.text == IcsContent(nowMillis, nowIso, startIso.value, endIso.value, summary)
  {
    if hours.None? || hours.value == "" then NoReminder
    else if startIso.None? || endIso.None? then Thrown
    else File(IcsContent(nowMillis, nowIso, startIso.value, endIso.value, summary))
  }

  /** Whatever the escape leaves, apart from the backslash and `n` it
      writes, was already in the text. */
  lemma {:induction false} EscapeAddsOnlyEscape(s: string)
    ensures forall c :: c in EscapeNewlines(s) && c != '\\' && c != 'n' ==> c in s
    decreases |s|
  {
    if |s| > 0 {
      EscapeAddsOnlyEscape(s[1..]);
      assert EscapeNewlines(s) == (if s[0] == '\n' then "\\n" else [s[0]]) + EscapeNewlines(s[1..]);
    }
  }

  /** A text with neither a carriage return nor a line feed. */
  predicate OneLine(s: string)
  {
    '\r' !in s && '\n' !in s
  }

  /** A named line is one line when its name and its value are. */
  lemma {:induction false} OneLineAppend(name: string, value: string)
    requires OneLine(name) && OneLine(value)
    ensures OneLine(name + value)
  {
  }

  /** No content line holds a carriage return or a line feed of its own, as
      long as the instants and the note hold no carriage return and the
      instants no line feed: the note's line feeds are all escaped. */
  lemma {:induction false} IcsLinesAreLines(nowMillis: nat, nowIso: string, startIso: string, endIso: string, summary: string)
    requires '\r' !in nowIso && '\r' !in startIso && '\r' !in endIso && '\r' !in summary
    requires '\n' !in nowIso && '\n' !in startIso && '\n' !in endIso
    ensures var lines := IcsLines(nowMillis, nowIso, startIso, endIso, summary);
      forall i :: 0 <= i < |lines| ==> OneLine(lines[i])
  {
    var lines := IcsLines(nowMillis, nowIso, startIso, endIso, summary);
    FixedLinesAreLines();
    UidIsOneLine(nowMillis);
    StampIsOneLine("DTSTAMP:", nowIso);
    StampIsOneLine("DTSTART:", startIso);
    StampIsOneLine("DTEND:", endIso);
    DescriptionIsOneLine(summary);
    assert lines[0] == "BEGIN:VCALENDAR" && lines[1] == "VERSION:2.0";
    assert lines[2] == "PRODID:-//UPO//Admissao//PT" && lines[3] == "BEGIN:VEVENT";
    assert lines[8] == "SUMMARY:" + Title && lines[10] == "END:VEVENT" && lines[11] == "END:VCALENDAR";
  }

  lemma {:induction false} FixedLinesAreLines()
    ensures OneLine("BEGIN:VCALENDAR") && OneLine("VERSION:2.0") && OneLine("PRODID:-//UPO//Admissao//PT")
    ensures OneLine("BEGIN:VEVENT") && OneLine("SUMMARY:" + Title)
    ensures OneLine("END:VEVENT") && OneLine("END:VCALENDAR")
  {
    OneLineByIndex("BEGIN:VCALENDAR");
    OneLineByIndex("VERSION:2.0");
    OneLineByIndex("PRODID:-//UPO//Admissao//PT");
    OneLineByIndex("BEGIN:VEVENT");
    OneLineByIndex("SUMMARY:" + Title);
    OneLineByIndex("END:VEVENT");
    OneLineByIndex("END:VCALENDAR");
  }

  lemma {:induction false} OneLineByIndex(s: string)
    requires forall i :: 0 <= i < |s| ==> s[i] != '\r' && s[i] != '\n'
    ensures OneLine(s)
  {
  }

  lemma {:induction false} UidIsOneLine(nowMillis: nat)
    ensures OneLine("UID:" + DecimalString(nowMillis) + "@upo.app")
  {
    var digits := DecimalString(nowMillis);
    assert forall c :: c in digits ==> IsDecimalDigit(c);
    OneLineAppend("UID:", digits);
    OneLineAppend("UID:" + digits, "@upo.app");
  }

  lemma {:induction false} StampIsOneLine(name: string, iso: string)
    requires OneLine(name) && OneLine(iso)
    ensures OneLine(name + CompactStamp(iso))
  {
    CompactStampDropsSeparators(iso);
    OneLineAppend(name, CompactStamp(iso));
  }

  lemma {:induction false} DescriptionIsOneLine(summary: string)
    requires '\r' !in summary
    ensures OneLine("DESCRIPTION:" + EscapeNewlines(Description(summary)))
  {
    var description := Description(summary);
    assert '\r' !in description;
    EscapeAddsOnlyEscape(description);
    OneLineAppend("DESCRIPTION:", EscapeNewlines(description));
  }

  /** Split at CRLF, the file gives back its twelve lines: the join is
      undone by reading it line by line, as a calendar client does. */
  lemma {:induction false} IcsContentReadsBack(nowMillis: nat, nowIso: string, startIso: string, endIso: string, summary: string)
    requires '\r' !in nowIso && '\r' !in startIso && '\r' !in endIso && '\r' !in summary
    requires '\n' !in nowIso && '\n' !in startIso && '\n' !in endIso
    ensures Split(IcsContent(nowMillis, nowIso, startIso, endIso, summary), "\r\n")
         == IcsLines(nowMillis, nowIso, startIso, endIso, summary)
  {
    IcsLinesAreLines(nowMillis, nowIso, startIso, endIso, summary);
    SplitJoin(IcsLines(nowMillis, nowIso, startIso, endIso, summary), "\r\n");
  }

  /** The description line gives the note back: after its `DESCRIPTION:`
      name, reading backslash-`n` as a line feed restores the reminder text,
      as long as the note holds no backslash of its own. */
  lemma {:induction false} DescriptionReadsBack(nowMillis: nat, nowIso: string, startIso: string, endIso: string, summary: string)
    requires '\\' !in summary
    ensures var line := IcsLines(nowMillis, nowIso, startIso, endIso, summary)[9];
      StartsWith(line, "DESCRIPTION:") && UnescapeNewlines(line[12..]) == Description(summary)
  {
    var description := Description(summary);
    assert '\\' !in description;
    UnescapeEscape(description);
    var line := "DESCRIPTION:" + EscapeNewlines(description);
    assert line[..12] == "DESCRIPTION:";
    assert line[12..] == EscapeNewlines(description);
  }
}
