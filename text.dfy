/**
 * The Python string operations the pipeline is built from, on `string` = seq<char>
 * (a char is a Unicode scalar value, as a Python str element is a code point).
 */
module Text {
  import opened Wrappers

  // ---------------------------------------------------------------------------
  // Characters

  /** The characters for which Python's `str.isspace()` holds (used by strip() and split()). */
  predicate IsSpace(c: char) {
    || c == ' '
    || ('\t' <= c <= '\r')
    || ('\U{1c}' <= c <= '\U{1f}')
    || c == '\U{85}' || c == '\U{a0}' || c == '\U{1680}'
    || ('\U{2000}' <= c <= '\U{200a}')
    || c == '\U{2028}' || c == '\U{2029}' || c == '\U{202f}' || c == '\U{205f}' || c == '\U{3000}'
  }

  predicate IsDigit(c: char) { '0' <= c <= '9' }

  predicate IsAsciiLower(c: char) { 'a' <= c <= 'z' }

  predicate AllDigits(s: string) { forall i :: 0 <= i < |s| ==> IsDigit(s[i]) }

  /** ASCII part of Python's `str.lower()`. */
  function LowerChar(c: char): (r: char)
    ensures 'A' <= c <= 'Z' ==> IsAsciiLower(r)
    ensures !('A' <= c <= 'Z') ==> r == c
  {
    if 'A' <= c <= 'Z' then (c as int + 32) as char else c
  }

  function Lower(s: string): (r: string)
    ensures |r| == |s|
    ensures forall i :: 0 <= i < |s| ==> r[i] == LowerChar(s[i])
  {
    seq(|s|, i requires 0 <= i < |s| => LowerChar(s[i]))
  }

  // ---------------------------------------------------------------------------
  // Prefixes, suffixes, substrings

  predicate StartsWith(s: string, p: string) { |p| <= |s| && s[..|p|] == p }

  predicate EndsWith(s: string, p: string) { |p| <= |s| && s[|s| - |p|..] == p }

  /** Python's `t in s` for two strings. */
  predicate Contains(s: string, t: string)
    decreases |s|
  {
    StartsWith(s, t) || (|s| > 0 && Contains(s[1..], t))
  }

  lemma {:induction false} ContainsAt(s: string, t: string, i: nat)
    requires i + |t| <= |s| && s[i..i + |t|] == t
    ensures Contains(s, t)
    decreases i
  {
    if i > 0 {
      assert s[1..][i - 1..i - 1 + |t|] == t;
      ContainsAt(s[1..], t, i - 1);
    }
  }

  lemma {:induction false} ContainsWitness(s: string, t: string) returns (i: nat)
    requires Contains(s, t)
    ensures i + |t| <= |s| && s[i..i + |t|] == t
    decreases |s|
  {
    if StartsWith(s, t) {
      i := 0;
    } else {
      var j := ContainsWitness(s[1..], t);
      i := j + 1;
      assert s[i..i + |t|] == s[1..][j..j + |t|];
    }
  }

  /** A string containing `t` contains its first character. */
  lemma ContainsFirstChar(s: string, t: string)
    requires |t| > 0 && Contains(s, t)
    ensures t[0] in s
  {
    var i := ContainsWitness(s, t);
    assert s[i] == t[0];
  }

  // ---------------------------------------------------------------------------
  // str.replace

  /** Python's `s.replace(pat, repl)`: every non-overlapping occurrence, scanned left to right. */
  function ReplaceAll(s: string, pat: string, repl: string): string
    requires |pat| > 0
    decreases |s|
  {
    if |s| < |pat| then s
    else if s[..|pat|] == pat then repl + ReplaceAll(s[|pat|..], pat, repl)
    else [s[0]] + ReplaceAll(s[1..], pat, repl)
  }

  /** With no occurrence of `pat`, replace returns its input unchanged. */
  lemma {:induction false} ReplaceAllAbsent(s: string, pat: string, repl: string)
    requires |pat| > 0 && !Contains(s, pat)
    ensures ReplaceAll(s, pat, repl) == s
    decreases |s|
  {
    if |s| >= |pat| {
      ReplaceAllAbsent(s[1..], pat, repl);
      assert [s[0]] + s[1..] == s;
    }
  }

  /** Replacing a string by itself changes nothing (the source's `replace("'", "'")`). */
  lemma {:induction false} ReplaceAllSelf(s: string, t: string)
    requires |t| > 0
    ensures ReplaceAll(s, t, t) == s
    decreases |s|
  {
    if |s| >= |t| {
      if s[..|t|] == t {
        ReplaceAllSelf(s[|t|..], t);
        assert t + s[|t|..] == s;
      } else {
        ReplaceAllSelf(s[1..], t);
        assert [s[0]] + s[1..] == s;
      }
    }
  }

  /** Replacing the one-character string [c] by text without c leaves no c behind. */
  lemma {:induction false} ReplaceAllRemovesChar(s: string, c: char, repl: string)
    requires c !in repl
    ensures c !in ReplaceAll(s, [c], repl)
    decreases |s|
  {
    if |s| >= 1 {
      ReplaceAllRemovesChar(s[1..], c, repl);
      assert s[..1] == [s[0]];
    }
  }

  /** A character absent from the input and from the replacement stays absent. */
  lemma {:induction false} ReplaceAllKeepsAbsent(s: string, pat: string, repl: string, c: char)
    requires |pat| > 0 && c !in s && c !in repl
    ensures c !in ReplaceAll(s, pat, repl)
    decreases |s|
  {
    if |s| >= |pat| {
      if s[..|pat|] == pat {
        ReplaceAllKeepsAbsent(s[|pat|..], pat, repl, c);
      } else {
        ReplaceAllKeepsAbsent(s[1..], pat, repl, c);
      }
    }
  }

  /** When the input is exactly one occurrence, the result is the replacement. */
  lemma ReplaceAllWhole(pat: string, repl: string)
    requires |pat| > 0
    ensures ReplaceAll(pat, pat, repl) == repl
  {
    assert pat[|pat|..] == [];
  }

  /** An occurrence at the very start is replaced and the scan resumes after it. */
  lemma ReplaceAllPrefix(pat: string, rest: string, repl: string)
    requires |pat| > 0
    ensures ReplaceAll(pat + rest, pat, repl) == repl + ReplaceAll(rest, pat, repl)
  {
    assert (pat + rest)[..|pat|] == pat;
    assert (pat + rest)[|pat|..] == rest;
  }

  /** A run of `s = s.replace(token, value)` statements, performed in order. */
  function Substitute(s: string, pairs: seq<(string, string)>): string
    requires forall i :: 0 <= i < |pairs| ==> |pairs[i].0| > 0
    decreases |pairs|
  {
    if |pairs| == 0 then s else Substitute(ReplaceAll(s, pairs[0].0, pairs[0].1), pairs[1..])
  }

  /** Performing substitution k of the run and then the rest is performing the run from k on. */
  lemma SubstituteStep(s: string, pairs: seq<(string, string)>, k: nat)
    requires forall i :: 0 <= i < |pairs| ==> |pairs[i].0| > 0
    requires k < |pairs|
    ensures Substitute(s, pairs[k..]) == Substitute(ReplaceAll(s, pairs[k].0, pairs[k].1), pairs[k + 1..])
  {
    assert pairs[k..][1..] == pairs[k + 1..];
  }

  /** Two runs of substitutions one after the other are the run of both. */
  lemma {:induction false} SubstituteAppend(s: string, a: seq<(string, string)>, b: seq<(string, string)>)
    requires forall i :: 0 <= i < |a| ==> |a[i].0| > 0
    requires forall i :: 0 <= i < |b| ==> |b[i].0| > 0
    ensures forall i :: 0 <= i < |a + b| ==> |(a + b)[i].0| > 0
    ensures Substitute(s, a + b) == Substitute(Substitute(s, a), b)
    decreases |a|
  {
    if |a| > 0 {
      assert (a + b)[1..] == a[1..] + b;
      SubstituteAppend(ReplaceAll(s, a[0].0, a[0].1), a[1..], b);
    } else {
      assert a + b == b;
    }
  }

  /** A text holding none of the tokens comes out of the substitutions unchanged. */
  lemma {:induction false} SubstituteAbsent(s: string, pairs: seq<(string, string)>)
    requires forall i :: 0 <= i < |pairs| ==> |pairs[i].0| > 0 && !Contains(s, pairs[i].0)
    ensures Substitute(s, pairs) == s
    decreases |pairs|
  {
    if |pairs| > 0 {
      ReplaceAllAbsent(s, pairs[0].0, pairs[0].1);
      SubstituteAbsent(s, pairs[1..]);
    }
  }

  // ---------------------------------------------------------------------------
  // strip / lstrip / rstrip

  /** `s.lstrip(chars)` where `drop` says which characters are in `chars`. */
  function LStrip(s: string, drop: char -> bool): (r: string)
    ensures |r| <= |s| && r == s[|s| - |r|..]
    ensures |r| > 0 ==> !drop(r[0])
    ensures forall i :: 0 <= i < |s| - |r| ==> drop(s[i])
    decreases |s|
  {
    if |s| > 0 && drop(s[0]) then
      var r := LStrip(s[1..], drop);
      assert s[1..][|s| - 1 - |r|..] == s[|s| - |r|..];
      assert forall i :: 0 <= i < |s| - 1 - |r| ==> s[1..][i] == s[i + 1];
      r
    else s
  }

  /** `s.rstrip(chars)`. */
  function RStrip(s: string, drop: char -> bool): (r: string)
    ensures |r| <= |s| && r == s[..|r|]
    ensures |r| > 0 ==> !drop(r[|r| - 1])
    ensures forall i :: |r| <= i < |s| ==> drop(s[i])
    decreases |s|
  {
    if |s| > 0 && drop(s[|s| - 1]) then RStrip(s[..|s| - 1], drop) else s
  }

  /** `s.strip(chars)`: no droppable character is left at either end. */
  function StripBy(s: string, drop: char -> bool): (r: string)
    ensures |r| <= |s|
    ensures |r| > 0 ==> !drop(r[0]) && !drop(r[|r| - 1])
  {
    RStrip(LStrip(s, drop), drop)
  }

  /** What strip returns is a slice of its input. */
  lemma StripBySlice(s: string, drop: char -> bool) returns (i: nat)
    ensures i + |StripBy(s, drop)| <= |s| && StripBy(s, drop) == s[i..i + |StripBy(s, drop)|]
  {
    var l := LStrip(s, drop);
    i := |s| - |l|;
  }

  /** Stripping a string that already has nothing to strip at either end changes nothing. */
  lemma StripByStripped(s: string, drop: char -> bool)
    requires |s| > 0 ==> !drop(s[0]) && !drop(s[|s| - 1])
    ensures StripBy(s, drop) == s
  {
  }

  /** Python's `s.strip()`. */
  function Strip(s: string): string { StripBy(s, IsSpace) }

  /** Stripping twice is stripping once. */
  lemma StripIdempotent(s: string)
    ensures Strip(Strip(s)) == Strip(s)
  {
    StripByStripped(Strip(s), IsSpace);
  }

  /** A character that is not in `s` is not in any strip of `s`. */
  lemma StripByKeepsAbsent(s: string, drop: char -> bool, c: char)
    requires c !in s
    ensures c !in StripBy(s, drop)
  {
    var r := StripBy(s, drop);
    var i := StripBySlice(s, drop);
    forall j | 0 <= j < |r| ensures r[j] != c {
      assert r[j] == s[i + j];
    }
  }

  /** Python truthiness of `s.strip()`: the stripped text is empty exactly when every character is whitespace. */
  lemma StripEmptyIff(s: string)
    ensures Strip(s) == [] <==> forall i :: 0 <= i < |s| ==> IsSpace(s[i])
  {
    var l := LStrip(s, IsSpace);
    if Strip(s) == [] {
      assert |l| == 0;
    } else {
      assert !IsSpace(Strip(s)[0]);
      var k := StripBySlice(s, IsSpace);
      assert s[k] == Strip(s)[0];
    }
  }

  // ---------------------------------------------------------------------------
  // Decimal numbers

  function DigitChar(d: nat): (c: char)
    requires d < 10
    ensures IsDigit(c)
  {
    ('0' as int + d) as char
  }

  function DigitValue(c: char): (d: nat)
    requires IsDigit(c)
    ensures d < 10
  {
    c as int - '0' as int
  }

  lemma DigitRoundTrip(d: nat)
    requires d < 10
    ensures DigitValue(DigitChar(d)) == d
  {
  }

  /** Python's `str(n)` for a natural number: decimal digits, no leading zero. */
  function NatToString(n: nat): (r: string)
    ensures |r| > 0 && AllDigits(r)
    ensures |r| > 1 ==> r[0] != '0'
    decreases n
  {
    if n < 10 then [DigitChar(n)] else NatToString(n / 10) + [DigitChar(n % 10)]
  }

  /** The value of a string of decimal digits (leading zeros allowed, as Python's int() allows). */
  function DigitsValue(s: string): nat
    requires AllDigits(s)
    decreases |s|
  {
    if |s| == 0 then 0 else DigitsValue(s[..|s| - 1]) * 10 + DigitValue(s[|s| - 1])
  }

  lemma {:induction false} NatToStringValue(n: nat)
    ensures DigitsValue(NatToString(n)) == n
    decreases n
  {
    var r := NatToString(n);
    if n < 10 {
      DigitRoundTrip(n);
    } else {
      NatToStringValue(n / 10);
      assert r[..|r| - 1] == NatToString(n / 10);
      DigitRoundTrip(n % 10);
    }
  }

  /** Distinct numbers print differently, so keys such as "slide" + str(i) never collide. */
  lemma NatToStringInjective(a: nat, b: nat)
    requires NatToString(a) == NatToString(b)
    ensures a == b
  {
    NatToStringValue(a);
    NatToStringValue(b);
  }

  /** Python's f"{i}" for an int. */
  function IntToString(i: int): (r: string)
    ensures |r| > 0
  {
    if i < 0 then "-" + NatToString(-i) else NatToString(i)
  }

  lemma IntToStringOfNat(n: nat)
    ensures IntToString(n) == NatToString(n)
  {
  }

  /**
   * The digit part Python's `int()` accepts in base 10: it starts with a digit, and every
   * underscore sits between two digits ("1_000" but not "_1", "1_" or "1__0").
   */
  predicate DigitGroups(s: string) {
    && |s| > 0 && IsDigit(s[0]) && DigitsOrUnderscores(s)
    && forall i :: 0 <= i < |s| && s[i] == '_' ==> i + 1 < |s| && IsDigit(s[i + 1])
  }

  predicate DigitsOrUnderscores(s: string) { forall i :: 0 <= i < |s| ==> IsDigit(s[i]) || s[i] == '_' }

  /** The value of digits with underscores among them; an underscore carries no value. */
  function GroupedValue(s: string): nat
    requires DigitsOrUnderscores(s)
    decreases |s|
  {
    if |s| == 0 then 0
    else if s[|s| - 1] == '_' then GroupedValue(s[..|s| - 1])
    else GroupedValue(s[..|s| - 1]) * 10 + DigitValue(s[|s| - 1])
  }

  /** Without underscores, the grouped value is the plain decimal value. */
  lemma {:induction false} GroupedValueOfDigits(s: string)
    requires AllDigits(s)
    ensures GroupedValue(s) == DigitsValue(s)
    decreases |s|
  {
    if |s| > 0 {
      GroupedValueOfDigits(s[..|s| - 1]);
    }
  }

  /** Removing one underscore does not change the value. */
  lemma {:induction false} GroupedValueDropsUnderscore(p: string, q: string)
    requires DigitsOrUnderscores(p) && DigitsOrUnderscores(q)
    ensures DigitsOrUnderscores(p + "_" + q) && DigitsOrUnderscores(p + q)
    ensures GroupedValue(p + "_" + q) == GroupedValue(p + q)
    decreases |q|
  {
    var s := p + "_" + q;
    if |q| == 0 {
      assert s[..|s| - 1] == p;
      assert p + q == p;
    } else {
      var q' := q[..|q| - 1];
      GroupedValueDropsUnderscore(p, q');
      assert s[..|s| - 1] == p + "_" + q';
      assert (p + q)[..|p + q| - 1] == p + q';
      assert s[|s| - 1] == (p + q)[|p + q| - 1] == q[|q| - 1];
    }
  }

  /**
   * Python's `int(s)` on a str, base 10: surrounding whitespace, an optional sign, then
   * ASCII digits with single underscores between them. None stands for the ValueError.
   */
  function ParseInt(s: string): (r: Option<int>)
  {
    var t := Strip(s);
    if |t| > 0 && (t[0] == '-' || t[0] == '+') then
      (if DigitGroups(t[1..]) then
         Some(if t[0] == '-' then -(GroupedValue(t[1..]) as int) else GroupedValue(t[1..]))
       else None)
    else if DigitGroups(t) then Some(GroupedValue(t))
    else None
  }

  /** `int(str(n)) == n`. */
  lemma ParseIntNatToString(n: nat)
    ensures ParseInt(NatToString(n)) == Some(n)
  {
    var s := NatToString(n);
    DigitsAreGroups(s);
    ParseIntOfGroups(s);
    GroupedValueOfDigits(s);
    NatToStringValue(n);
  }

  lemma DigitsAreGroups(s: string)
    requires |s| > 0 && AllDigits(s)
    ensures DigitGroups(s)
  {
  }

  /** Digit groups have no surrounding whitespace and no sign, so int() reads their grouped value. */
  lemma ParseIntOfGroups(t: string)
    requires DigitGroups(t)
    ensures ParseInt(t) == Some(GroupedValue(t))
  {
    assert t[|t| - 1] != '_';
    StripByStripped(t, IsSpace);
  }

  /** `int("1_000") == int("1000")`: an underscore between two digits is accepted and ignored. */
  lemma ParseIntUnderscore(a: string, b: string)
    requires |a| > 0 && |b| > 0 && AllDigits(a) && AllDigits(b)
    ensures ParseInt(a + "_" + b) == ParseInt(a + b) == Some(DigitsValue(a + b))
  {
    var s := a + "_" + b;
    var t := a + b;
    GroupedValueDropsUnderscore(a, b);
    assert DigitGroups(s) by {
      assert s[0] == a[0];
      forall i | 0 <= i < |s| && s[i] == '_' ensures i + 1 < |s| && IsDigit(s[i + 1]) {
        assert s[|a| + 1] == b[0];
      }
    }
    assert AllDigits(t) && t[0] == a[0];
    ParseIntOfGroups(s);
    ParseIntOfGroups(t);
    GroupedValueOfDigits(t);
  }

  /** A string with no decimal digit at all is rejected by int(). */
  lemma ParseIntNeedsDigit(s: string)
    requires forall i :: 0 <= i < |s| ==> !IsDigit(s[i])
    ensures ParseInt(s) == None
  {
    var t := Strip(s);
    var k := StripBySlice(s, IsSpace);
    if |t| > 0 {
      assert t[0] == s[k];
      if |t| > 1 {
        assert t[1..][0] == s[k + 1];
      }
    }
  }

  // ---------------------------------------------------------------------------
  // split and join

  /** Python's `s.split(sep)` for a one-character separator: always at least one part. */
  function Split(s: string, sep: char): (r: seq<string>)
    ensures |r| >= 1
    ensures forall i :: 0 <= i < |r| ==> sep !in r[i]
    decreases |s|
  {
    if |s| == 0 then [""]
    else if s[0] == sep then [""] + Split(s[1..], sep)
    else
      var rest := Split(s[1..], sep);
      [[s[0]] + rest[0]] + rest[1..]
  }

  /** Python's `sep.join(parts)`. */
  function Join(parts: seq<string>, sep: string): string
    decreases |parts|
  {
    if |parts| == 0 then ""
    else if |parts| == 1 then parts[0]
    else parts[0] + sep + Join(parts[1..], sep)
  }

  lemma {:induction false} SplitPrefix(p: string, rest: string, sep: char)
    requires sep !in p
    ensures Split(p + [sep] + rest, sep) == [p] + Split(rest, sep)
    decreases |p|
  {
    if |p| == 0 {
      assert ([] + [sep] + rest)[1..] == rest;
    } else {
      assert (p + [sep] + rest)[1..] == p[1..] + [sep] + rest;
      SplitPrefix(p[1..], rest, sep);
      assert [p[0]] + p[1..] == p;
    }
  }

  lemma {:induction false} SplitNoSep(p: string, sep: char)
    requires sep !in p
    ensures Split(p, sep) == [p]
    decreases |p|
  {
    if |p| > 0 {
      SplitNoSep(p[1..], sep);
      assert [p[0]] + p[1..] == p;
    }
  }

  /** Splitting what was joined with a separator the parts do not contain gives the parts back. */
  lemma {:induction false} SplitJoin(parts: seq<string>, sep: char)
    requires |parts| >= 1
    requires forall i :: 0 <= i < |parts| ==> sep !in parts[i]
    ensures Split(Join(parts, [sep]), sep) == parts
    decreases |parts|
  {
    if |parts| == 1 {
      SplitNoSep(parts[0], sep);
    } else {
      SplitJoin(parts[1..], sep);
      SplitPrefix(parts[0], Join(parts[1..], [sep]), sep);
      assert [parts[0]] + parts[1..] == parts;
    }
  }

  // ---------------------------------------------------------------------------
  // Whitespace words and textwrap.shorten

  /** Length of the run of non-whitespace characters at the start of `s`. */
  function WordLength(s: string): (k: nat)
    ensures k <= |s|
    ensures forall i :: 0 <= i < k ==> !IsSpace(s[i])
    ensures k < |s| ==> IsSpace(s[k])
    decreases |s|
  {
    if |s| == 0 || IsSpace(s[0]) then 0 else 1 + WordLength(s[1..])
  }

  predicate IsWord(w: string) { |w| > 0 && forall i :: 0 <= i < |w| ==> !IsSpace(w[i]) }

  /** Python's `s.split()`: the maximal runs of non-whitespace characters, in order. */
  function Words(s: string): (ws: seq<string>)
    ensures forall i :: 0 <= i < |ws| ==> IsWord(ws[i])
    decreases |s|
  {
    if |s| == 0 then []
    else if IsSpace(s[0]) then Words(s[1..])
    else
      var k := WordLength(s);
      [s[..k]] + Words(s[k..])
  }

  /** Python's `" ".join(s.split())`: whitespace runs collapsed to one space, ends trimmed. */
  function Collapse(s: string): string { Join(Words(s), " ") }

  /** Joining a longer prefix of the words gives a longer line. */
  lemma JoinPrefixGrows(ws: seq<string>, k: nat)
    requires 0 < k < |ws|
    ensures |Join(ws[..k + 1], " ")| == |Join(ws[..k], " ")| + 1 + |ws[k]|
    decreases k
  {
    if k > 1 {
      JoinPrefixGrows(ws[1..], k - 1);
      assert ws[..k + 1][1..] == ws[1..][..k];
      assert ws[..k][1..] == ws[1..][..k - 1];
    } else {
      assert ws[..2][1..] == [ws[1]];
    }
  }

  /** The largest `k` up to `n` such that the first `k` words joined by spaces fit into `budget`. */
  function FitCount(ws: seq<string>, budget: nat, n: nat): (k: nat)
    requires n <= |ws|
    ensures k <= n
    ensures k > 0 ==> |Join(ws[..k], " ")| <= budget
    ensures k < n ==> |Join(ws[..k + 1], " ")| > budget
    decreases n
  {
    if n == 0 || |Join(ws[..n], " ")| <= budget then n else FitCount(ws, budget, n - 1)
  }

  /** The placeholder the source passes to textwrap.shorten. */
  const Ellipsis: string := "..."

  /**
   * textwrap.shorten(text, width, placeholder="..."): the collapsed text if it fits, else the
   * longest run of leading whole words that leaves room for the placeholder, then the placeholder.
   * Words are whitespace-separated: textwrap's extra breaks after hyphens are not modelled.
   */
  function Shorten(text: string, width: nat): (r: string)
    requires width >= |Ellipsis|
    ensures |r| <= width
    ensures |Collapse(text)| <= width ==> r == Collapse(text)
  {
    var c := Collapse(text);
    if |c| <= width then c
    else
      var ws := Words(text);
      var k := FitCount(ws, width - |Ellipsis|, |ws|);
      if k == 0 then Ellipsis else Join(ws[..k], " ") + Ellipsis
  }

  /** Every word of `s` is a slice of `s`, so a character absent from `s` is absent from its words. */
  lemma {:induction false} WordsKeepAbsent(s: string, c: char)
    requires c !in s
    ensures forall i :: 0 <= i < |Words(s)| ==> c !in Words(s)[i]
    decreases |s|
  {
    if |s| > 0 {
      if IsSpace(s[0]) {
        WordsKeepAbsent(s[1..], c);
      } else {
        var k := WordLength(s);
        WordsKeepAbsent(s[k..], c);
        assert Words(s) == [s[..k]] + Words(s[k..]);
      }
    }
  }

  lemma {:induction false} JoinKeepsAbsent(parts: seq<string>, sep: string, c: char)
    requires c !in sep
    requires forall i :: 0 <= i < |parts| ==> c !in parts[i]
    ensures c !in Join(parts, sep)
    decreases |parts|
  {
    if |parts| > 1 {
      JoinKeepsAbsent(parts[1..], sep, c);
    }
  }

  /** Shortening only drops and re-spaces words and appends "...": it introduces no other character. */
  lemma ShortenKeepsAbsent(text: string, width: nat, c: char)
    requires width >= |Ellipsis| && c !in text && c != ' ' && c != '.'
    ensures c !in Shorten(text, width)
  {
    var ws := Words(text);
    WordsKeepAbsent(text, c);
    JoinKeepsAbsent(ws, " ", c);
    var k := FitCount(ws, width - |Ellipsis|, |ws|);
    JoinKeepsAbsent(ws[..k], " ", c);
  }

  /**
   * Truncation happens only at a word boundary: a shortened text that does not fit is
   * `k` whole leading words (fewer than all of them) followed by the placeholder, and
   * one more word would not have fitted.
   */
  lemma ShortenAtWordBoundary(text: string, width: nat)
    requires width >= |Ellipsis| && |Collapse(text)| > width
    ensures var ws := Words(text);
            var k := FitCount(ws, width - |Ellipsis|, |ws|);
            && k < |ws|
            && Shorten(text, width) == (if k == 0 then Ellipsis else Join(ws[..k], " ") + Ellipsis)
            && |Join(ws[..k + 1], " ")| > width - |Ellipsis|
  {
    var ws := Words(text);
    assert ws[..|ws|] == ws;
  }
}
