/** The JavaScript string operations the form script relies on (`join`,
    `split`, `startsWith`, `includes`, `trim`, `parseInt`, number-to-string and
    the global newline `replace`), written out over `seq<char>`. */
module JsStrings {
  import opened Wrappers

  /** `parts.join(sep)`: the parts with `sep` between consecutive ones. */
  function Join(parts: seq<string>, sep: string): string
  {
    if |parts| == 0 then ""
    else if |parts| == 1 then parts[0]
    else parts[0] + sep + Join(parts[1..], sep)
  }

  /** `s.startsWith(prefix)` */
  predicate StartsWith(s: string, prefix: string)
  {
    |prefix| <= |s| && s[..|prefix|] == prefix
  }

  /** `s.includes(part)`: `part` occurs somewhere in `s`. */
  predicate Contains(s: string, part: string)
    decreases |s|
  {
    StartsWith(s, part) || (|s| > 0 && Contains(s[1..], part))
  }

  /** `s.split(sep)` for a non-empty separator: `s` is cut at every leftmost,
      non-overlapping occurrence of `sep`; the result is never empty. */
  function Split(s: string, sep: string): (parts: seq<string>)
    requires |sep| > 0
    ensures |parts| >= 1
    decreases |s|
  {
    if |s| == 0 then [""]
    else if StartsWith(s, sep) then [""] + Split(s[|sep|..], sep)
    else
      var rest := Split(s[1..], sep);
      [[s[0]] + rest[0]] + rest[1..]
  }

  /** Joining the pieces of a split with the same separator gives the string back. */
  lemma {:induction false} JoinSplit(s: string, sep: string)
    requires |sep| > 0
    ensures Join(Split(s, sep), sep) == s
    decreases |s|
  {
    if |s| == 0 {
    } else if StartsWith(s, sep) {
      var rest := Split(s[|sep|..], sep);
      assert Split(s, sep) == [""] + rest;
      JoinSplit(s[|sep|..], sep);
      JoinAfterEmpty(rest, sep);
      assert s == sep + s[|sep|..];
    } else {
      var rest := Split(s[1..], sep);
      assert Split(s, sep) == [[s[0]] + rest[0]] + rest[1..];
      JoinSplit(s[1..], sep);
      JoinWithFirstChar(s[0], rest, sep);
      assert s == [s[0]] + s[1..];
    }
  }

  /** An empty first part leaves the join starting with the separator. */
  lemma {:induction false} JoinAfterEmpty(parts: seq<string>, sep: string)
    requires |parts| >= 1
    ensures Join([""] + parts, sep) == sep + Join(parts, sep)
  {
    assert ([""] + parts)[1..] == parts;
  }

  /** Putting a character in front of the first part puts it in front of the join. */
  lemma {:induction false} JoinWithFirstChar(c: char, parts: seq<string>, sep: string)
    requires |parts| >= 1
    ensures Join([[c] + parts[0]] + parts[1..], sep) == [c] + Join(parts, sep)
  {
    var moved := [[c] + parts[0]] + parts[1..];
    assert moved[1..] == parts[1..];
    if |parts| > 1 {
      assert Join(moved, sep) == ([c] + parts[0]) + sep + Join(parts[1..], sep);
      assert Join(parts, sep) == parts[0] + sep + Join(parts[1..], sep);
    }
  }

  /** A string in which the separator's first character never occurs is not cut. */
  lemma {:induction false} SplitWithoutSeparator(x: string, sep: string)
    requires |sep| > 0 && sep[0] !in x
    ensures Split(x, sep) == [x]
    decreases |x|
  {
    if |x| > 0 {
      assert !StartsWith(x, sep) by { assert x[0] != sep[0]; }
      SplitWithoutSeparator(x[1..], sep);
      assert x == [x[0]] + x[1..];
    }
  }

  /** A piece free of the separator's first character followed by the separator
      is split off as one part. */
  lemma {:induction false} SplitAfterPiece(x: string, sep: string, rest: string)
    requires |sep| > 0 && sep[0] !in x
    ensures Split(x + sep + rest, sep) == [x] + Split(rest, sep)
    decreases |x|
  {
    var s := x + sep + rest;
    if |x| == 0 {
      assert s == sep + rest;
      assert StartsWith(s, sep);
      assert s[|sep|..] == rest;
    } else {
      assert s[0] == x[0] && x[0] != sep[0];
      assert !StartsWith(s, sep);
      assert s[1..] == x[1..] + sep + rest;
      SplitAfterPiece(x[1..], sep, rest);
      assert [x[0]] + x[1..] == x;
    }
  }

  /** Splitting a join gives the parts back when no part holds the separator's
      first character. */
  lemma {:induction false} SplitJoin(parts: seq<string>, sep: string)
    requires |sep| > 0 && |parts| >= 1
    requires forall i :: 0 <= i < |parts| ==> sep[0] !in parts[i]
    ensures Split(Join(parts, sep), sep) == parts
    decreases |parts|
  {
    if |parts| == 1 {
      SplitWithoutSeparator(parts[0], sep);
    } else {
      SplitJoin(parts[1..], sep);
      SplitAfterPiece(parts[0], sep, Join(parts[1..], sep));
      assert parts == [parts[0]] + parts[1..];
    }
  }

  /** Joining two non-empty lists is joining each and putting one separator
      between them. */
  lemma {:induction false} JoinAppend(a: seq<string>, b: seq<string>, sep: string)
    requires |a| >= 1 && |b| >= 1
    ensures Join(a + b, sep) == Join(a, sep) + sep + Join(b, sep)
    decreases |a|
  {
    if |a| == 1 {
      assert (a + b)[1..] == b;
    } else {
      JoinAppend(a[1..], b, sep);
      assert (a + b)[1..] == a[1..] + b;
    }
  }

  /** `s.replace(pattern, by)` with a string pattern: only the first
      occurrence is replaced. */
  function ReplaceFirst(s: string, pattern: string, replacement: string): string
    requires |pattern| > 0
    decreases |s|
  {
    if |s| == 0 then ""
    else if StartsWith(s, pattern) then replacement + s[|pattern|..]
    else [s[0]] + ReplaceFirst(s[1..], pattern, replacement)
  }

  /** Replacing a pattern by itself gives the text back. */
  lemma {:induction false} ReplaceBySelf(s: string, pattern: string)
    requires |pattern| > 0
    ensures ReplaceFirst(s, pattern, pattern) == s
    decreases |s|
  {
    if |s| > 0 {
      if StartsWith(s, pattern) {
        assert s == s[..|pattern|] + s[|pattern|..];
      } else {
        ReplaceBySelf(s[1..], pattern);
        assert s == [s[0]] + s[1..];
      }
    }
  }

  /** The parts that are not the empty string, in order: `parts.filter(s => s)`. */
  function NonEmpty(parts: seq<string>): (r: seq<string>)
    ensures forall i :: 0 <= i < |r| ==> r[i] != ""
    ensures |r| <= |parts|
  {
    if |parts| == 0 then []
    else if parts[0] == "" then NonEmpty(parts[1..])
    else [parts[0]] + NonEmpty(parts[1..])
  }

  /** Filtering keeps every non-empty part and nothing else. */
  lemma {:induction false} NonEmptyKeeps(parts: seq<string>, p: string)
    ensures p in NonEmpty(parts) <==> p != "" && p in parts
  {
    if |parts| > 0 {
      NonEmptyKeeps(parts[1..], p);
      assert parts == [parts[0]] + parts[1..];
    }
  }

  // ---------------------------------------------------------------------------
  // White space and `trim`

  /** JavaScript's WhiteSpace and LineTerminator code points: what `trim`
      removes and what `parseInt` skips. */
  predicate IsSpace(c: char)
  {
    c == '\t' || c == '\n' || c == '\U{B}' || c == '\U{C}' || c == '\r' || c == ' '
    || c == '\U{A0}' || c == '\U{1680}' || ('\U{2000}' <= c <= '\U{200A}')
    || c == '\U{2028}' || c == '\U{2029}' || c == '\U{202F}' || c == '\U{205F}'
    || c == '\U{3000}' || c == '\U{FEFF}'
  }

  /** `s.trimStart()`: the suffix of `s` after its leading white space. */
  function TrimStart(s: string): string
  {
    if |s| > 0 && IsSpace(s[0]) then TrimStart(s[1..]) else s
  }

  /** `s.trimEnd()`: the prefix of `s` before its trailing white space. */
  function TrimEnd(s: string): string
  {
    if |s| > 0 && IsSpace(s[|s| - 1]) then TrimEnd(s[..|s| - 1]) else s
  }

  /** `trimStart` drops white space only, and all of it up to the first
      other character. */
  lemma {:induction false} TrimStartDropsSpace(s: string)
    ensures var r := TrimStart(s);
      && |r| <= |s| && r == s[|s| - |r|..]
      && (r == [] || !IsSpace(r[0]))
      && forall i :: 0 <= i < |s| - |r| ==> IsSpace(s[i])
  {
    if |s| > 0 && IsSpace(s[0]) {
      TrimStartDropsSpace(s[1..]);
    }
  }

  /** `trimEnd` drops white space only, and all of it after the last other
      character. */
  lemma {:induction false} TrimEndDropsSpace(s: string)
    ensures var r := TrimEnd(s);
      && |r| <= |s| && r == s[..|r|]
      && (r == [] || !IsSpace(r[|r| - 1]))
      && forall i :: |r| <= i < |s| ==> IsSpace(s[i])
  {
    if |s| > 0 && IsSpace(s[|s| - 1]) {
      TrimEndDropsSpace(s[..|s| - 1]);
    }
  }

  /** `s.trim()` */
  function Trim(s: string): string
  {
    TrimEnd(TrimStart(s))
  }

  /** The result of `trim` neither starts nor ends with white space. */
  lemma {:induction false} TrimIsUnpadded(s: string)
    ensures var r := Trim(s); r == [] || (!IsSpace(r[0]) && !IsSpace(r[|r| - 1]))
  {
    var t := TrimStart(s);
    var r := TrimEnd(t);
    TrimStartDropsSpace(s);
    TrimEndDropsSpace(t);
    if r != [] {
      assert r[0] == t[0];
    }
  }

  /** A text that neither starts nor ends with white space is its own trim. */
  lemma {:induction false} TrimUnpadded(s: string)
    requires |s| > 0 && !IsSpace(s[0]) && !IsSpace(s[|s| - 1])
    ensures Trim(s) == s
  {
    assert TrimStart(s) == s;
  }

  /** Trimming twice is trimming once. */
  lemma {:induction false} TrimIdempotent(s: string)
    ensures Trim(Trim(s)) == Trim(s)
  {
    TrimIsUnpadded(s);
    if Trim(s) != [] {
      TrimUnpadded(Trim(s));
    }
  }

  // ---------------------------------------------------------------------------
  // `parseInt` and integer-to-string

  predicate IsDecimalDigit(c: char)
  {
    '0' <= c <= '9'
  }

  /** A digit of radix 10 or 16 (the only radixes `parseInt(s)` picks on its own). */
  predicate IsDigitOf(c: char, radix: nat)
  {
    if radix == 16 then IsDecimalDigit(c) || 'a' <= c <= 'f' || 'A' <= c <= 'F'
    else IsDecimalDigit(c)
  }

  function DigitValue(c: char): (d: nat)
    requires IsDigitOf(c, 16)
    ensures d < 16
    ensures IsDecimalDigit(c) ==> d < 10
  {
    if IsDecimalDigit(c) then c as int - '0' as int
    else if 'a' <= c <= 'f' then c as int - 'a' as int + 10
    else c as int - 'A' as int + 10
  }

  /** The longest prefix of `s` made of digits of `radix`. */
  function DigitRun(s: string, radix: nat): (z: string)
    ensures |z| <= |s| && z == s[..|z|]
    ensures forall i :: 0 <= i < |z| ==> IsDigitOf(z[i], radix)
    ensures |z| < |s| ==> !IsDigitOf(s[|z|], radix)
  {
    if |s| > 0 && IsDigitOf(s[0], radix) then [s[0]] + DigitRun(s[1..], radix) else []
  }

  /** The number that a string of digits denotes in `radix`. */
  function ValueOf(z: string, radix: nat): nat
    requires radix == 10 || radix == 16
    requires forall i :: 0 <= i < |z| ==> IsDigitOf(z[i], radix)
  {
    if |z| == 0 then 0
    else
      assert IsDigitOf(z[|z| - 1], radix);
      ValueOf(z[..|z| - 1], radix) * radix + DigitValue(z[|z| - 1])
  }

  /** `parseInt(s)` without a radix: skip leading white space, read an optional
      sign, switch to radix 16 after a `0x`/`0X` prefix, then read the longest
      run of digits; `None` stands for `NaN` (no digit at all). */
  function ParseInt(s: string): Option<int>
  {
    var t := TrimStart(s);
    var u := Unsigned(t);
    var radix := if HexPrefixed(u) then 16 else 10;
    var z := DigitRun(if HexPrefixed(u) then u[2..] else u, radix);
    if z == [] then None
    else
      var n: int := ValueOf(z, radix);
      Some(if |t| > 0 && t[0] == '-' then -n else n)
  }

  /** `t` after an optional leading sign. */
  function Unsigned(t: string): string
  {
    if |t| > 0 && (t[0] == '-' || t[0] == '+') then t[1..] else t
  }

  /** `u` starts with `0x` or `0X`. */
  predicate HexPrefixed(u: string)
  {
    |u| >= 2 && u[0] == '0' && (u[1] == 'x' || u[1] == 'X')
  }

  /** A text that starts with neither white space, a sign nor a digit is
      not a number. */
  lemma {:induction false} ParseIntNotANumber(s: string)
    requires |s| > 0 && !IsSpace(s[0]) && !IsDecimalDigit(s[0]) && s[0] != '-' && s[0] != '+'
    ensures ParseInt(s) == None
  {
    assert TrimStart(s) == s;
    assert Unsigned(s) == s;
  }

  /** `parseInt(s) || 0`: `NaN` (and zero) read as zero. */
  function ParseIntOrZero(s: string): int
  {
    match ParseInt(s)
    case None => 0
    case Some(n) => n
  }

  function DigitChar(d: nat): (c: char)
    requires d < 10
    ensures IsDecimalDigit(c) && DigitValue(c) == d
  {
    ('0' as int + d) as char
  }

  /** `String(n)` for a non-negative integer: its decimal digits, without
      leading zeros. */
  function DecimalString(n: nat): (s: string)
    ensures |s| >= 1
    ensures forall i :: 0 <= i < |s| ==> IsDecimalDigit(s[i])
    ensures |s| > 1 ==> s[0] != '0'
  {
    if n < 10 then [DigitChar(n)] else DecimalString(n / 10) + [DigitChar(n % 10)]
  }

  lemma {:induction false} ValueOfDecimalString(n: nat)
    ensures ValueOf(DecimalString(n), 10) == n
  {
    var s := DecimalString(n);
    if n >= 10 {
      ValueOfDecimalString(n / 10);
      assert s[..|s| - 1] == DecimalString(n / 10);
    }
  }

  /** A run of decimal digits is read back by `DigitRun` in full. */
  lemma {:induction false} DigitRunAllDigits(s: string, radix: nat)
    requires forall i :: 0 <= i < |s| ==> IsDigitOf(s[i], radix)
    ensures DigitRun(s, radix) == s
  {
    if |s| > 0 {
      DigitRunAllDigits(s[1..], radix);
      assert s == [s[0]] + s[1..];
    }
  }

  /** `parseInt` reads back what `String` writes for a non-negative integer. */
  lemma {:induction false} ParseIntDecimalString(n: nat)
    ensures ParseInt(DecimalString(n)) == Some(n)
  {
    assert DecimalString(n) + "" == DecimalString(n);
    ParseIntDecimalThen(n, "");
  }

  /** A run of digits stops at the first character that is not one. */
  lemma {:induction false} DigitRunThen(digits: string, rest: string, radix: nat)
    requires forall i :: 0 <= i < |digits| ==> IsDigitOf(digits[i], radix)
    requires |rest| == 0 || !IsDigitOf(rest[0], radix)
    ensures DigitRun(digits + rest, radix) == digits
    decreases |digits|
  {
    if |digits| > 0 {
      DigitRunThen(digits[1..], rest, radix);
      assert (digits + rest)[1..] == digits[1..] + rest;
      assert digits == [digits[0]] + digits[1..];
    }
  }

  /** `parseInt` of decimal digits followed by text that is neither a digit
      nor a hexadecimal marker reads the digits' value. */
  lemma {:induction false} ParseIntDigitsThen(digits: string, rest: string)
    requires |digits| >= 1 && forall i :: 0 <= i < |digits| ==> IsDecimalDigit(digits[i])
    requires |rest| == 0 || (!IsDecimalDigit(rest[0]) && rest[0] != 'x' && rest[0] != 'X')
    ensures ParseInt(digits + rest) == Some(ValueOf(digits, 10))
  {
    var s := digits + rest;
    assert s[0] == digits[0];
    assert TrimStart(s) == s by { assert !IsSpace(s[0]); }
    assert Unsigned(s) == s;
    assert !HexPrefixed(s) by {
      if |s| >= 2 && s[0] == '0' {
        if |digits| >= 2 {
          assert s[1] == digits[1];
        } else {
          assert s[1] == rest[0];
        }
      }
    }
    DigitRunThen(digits, rest, 10);
  }

  /** The value of a decimal integer is read back when it is followed by a
      unit such as `ml`. */
  lemma {:induction false} ParseIntDecimalThen(n: nat, rest: string)
    requires |rest| == 0 || (!IsDecimalDigit(rest[0]) && rest[0] != 'x' && rest[0] != 'X')
    ensures ParseInt(DecimalString(n) + rest) == Some(n)
  {
    ParseIntDigitsThen(DecimalString(n), rest);
    ValueOfDecimalString(n);
  }

  /** A leading zero does not change the value of a run of digits. */
  lemma {:induction false} ValueOfLeadingZero(z: string)
    requires forall i :: 0 <= i < |z| ==> IsDecimalDigit(z[i])
    ensures ValueOf("0" + z, 10) == ValueOf(z, 10)
    decreases |z|
  {
    if |z| > 0 {
      var init := z[..|z| - 1];
      ValueOfLeadingZero(init);
      assert ("0" + z)[..|"0" + z| - 1] == "0" + init;
      assert ("0" + z)[|"0" + z| - 1] == z[|z| - 1];
    }
  }

  /** `parseInt` reads the same number with or without one leading zero
      before a run of decimal digits. */
  lemma {:induction false} ParseIntLeadingZero(z: string)
    requires |z| >= 1 && forall i :: 0 <= i < |z| ==> IsDecimalDigit(z[i])
    ensures ParseInt("0" + z) == ParseInt(z)
  {
    var padded := "0" + z;
    assert padded + "" == padded && z + "" == z;
    ParseIntDigitsThen(padded, "");
    ParseIntDigitsThen(z, "");
    ValueOfLeadingZero(z);
  }

  // ---------------------------------------------------------------------------
  // `s.replace(/\n/g, '\\n')`

  /** Every line feed replaced by the two characters backslash and `n`. */
  function EscapeNewlines(s: string): (r: string)
    ensures '\n' !in r
    ensures |r| >= |s|
  {
    if |s| == 0 then ""
    else (if s[0] == '\n' then "\\n" else [s[0]]) + EscapeNewlines(s[1..])
  }

  /** A reader's inverse of `EscapeNewlines`: backslash-`n` back to a line feed. */
  function UnescapeNewlines(s: string): string
  {
    if |s| == 0 then ""
    else if StartsWith(s, "\\n") then "\n" + UnescapeNewlines(s[2..])
    else [s[0]] + UnescapeNewlines(s[1..])
  }

  /** The escape is undone by reading backslash-`n` as a line feed, as long as
      the text holds no backslash of its own. */
  lemma {:induction false} UnescapeEscape(s: string)
    requires '\\' !in s
    ensures UnescapeNewlines(EscapeNewlines(s)) == s
  {
    if |s| > 0 {
      UnescapeEscape(s[1..]);
      var e := EscapeNewlines(s[1..]);
      if s[0] == '\n' {
        assert EscapeNewlines(s) == "\\n" + e;
        assert ("\\n" + e)[2..] == e;
      } else {
        assert EscapeNewlines(s) == [s[0]] + e;
        assert s[0] in s;
        UnescapePlainChar(s[0], e);
      }
      assert s == [s[0]] + s[1..];
    }
  }

  /** A character other than the backslash is read as itself. */
  lemma {:induction false} UnescapePlainChar(c: char, e: string)
    requires c != '\\'
    ensures UnescapeNewlines([c] + e) == [c] + UnescapeNewlines(e)
  {
    var s := [c] + e;
    assert s[0] == c;
    assert !StartsWith(s, "\\n");
    assert s[1..] == e;
  }

  /** Without an escape for the backslash itself, a text that already holds
      backslash-`n` cannot be told apart from one holding a line feed. */
  lemma {:induction false} EscapeNotInjective()
    ensures EscapeNewlines("\\n") == EscapeNewlines("\n")
    ensures "\\n" != "\n"
  {
    assert EscapeNewlines("\\n") == "\\" + EscapeNewlines("n");
  }

  /** The escape is the lines of the text joined by backslash-`n`. */
  lemma {:induction false} EscapeIsJoinOfLines(s: string)
    ensures EscapeNewlines(s) == Join(Split(s, "\n"), "\\n")
    decreases |s|
  {
    if |s| > 0 {
      EscapeIsJoinOfLines(s[1..]);
      var rest := Split(s[1..], "\n");
      if s[0] == '\n' {
        assert StartsWith(s, "\n");
        assert Split(s, "\n") == [""] + rest;
        assert EscapeNewlines(s) == "\\n" + EscapeNewlines(s[1..]);
        JoinAfterEmpty(rest, "\\n");
      } else {
        assert !StartsWith(s, "\n");
        assert Split(s, "\n") == [[s[0]] + rest[0]] + rest[1..];
        assert EscapeNewlines(s) == [s[0]] + EscapeNewlines(s[1..]);
        JoinWithFirstChar(s[0], rest, "\\n");
      }
    }
  }
}
