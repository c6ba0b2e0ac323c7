/**
 * Python's `json.dumps(value)` with its default arguments (`ensure_ascii=True`, separators
 * `", "` and `": "`), on the JSON values of `PyJson`, together with a reader for exactly
 * that text (the part of `json.loads` that such text exercises). `ParseDumps` is the
 * round trip: reading what `Dumps` wrote gives the value back.
 */
module JsonText {
  import opened Wrappers
  import opened Text
  import opened PyJson

  // ---------------------------------------------------------------------------
  // Hexadecimal, for the \uXXXX escapes

  function HexDigit(d: nat): (c: char)
    requires d < 16
  {
    if d < 10 then ('0' as int + d) as char else ('a' as int + (d - 10)) as char
  }

  /** A hex digit of either case, as `json.loads` accepts. */
  function HexValue(c: char): Option<nat>
  {
    if '0' <= c <= '9' then Some(c as int - '0' as int)
    else if 'a' <= c <= 'f' then Some(c as int - 'a' as int + 10)
    else if 'A' <= c <= 'F' then Some(c as int - 'A' as int + 10)
    else None
  }

  /** Python's `'{0:04x}'.format(n)`. */
  function Hex4(n: nat): (s: string)
    requires n < 0x10000
    ensures |s| == 4
  {
    var q1 := n / 16;
    var q2 := q1 / 16;
    var q3 := q2 / 16;
    [HexDigit(q3), HexDigit(q2 % 16), HexDigit(q1 % 16), HexDigit(n % 16)]
  }

  function Hex4Value(s: string): (r: Option<nat>)
    requires |s| == 4
    ensures r.Some? ==> r.value < 0x10000
  {
    var a := HexValue(s[0]);
    var b := HexValue(s[1]);
    var c := HexValue(s[2]);
    var d := HexValue(s[3]);
    if a.None? || b.None? || c.None? || d.None? then None
    else if a.value < 16 && b.value < 16 && c.value < 16 && d.value < 16 then
      Some(((a.value * 16 + b.value) * 16 + c.value) * 16 + d.value)
    else None
  }

  lemma HexRoundTrip(d: nat)
    requires d < 16
    ensures HexValue(HexDigit(d)) == Some(d)
  {
  }

  lemma Hex4RoundTrip(n: nat)
    requires n < 0x10000
    ensures Hex4Value(Hex4(n)) == Some(n)
  {
    var q1 := n / 16;
    var q2 := q1 / 16;
    var q3 := q2 / 16;
    HexRoundTrip(q3);
    HexRoundTrip(q2 % 16);
    HexRoundTrip(q1 % 16);
    HexRoundTrip(n % 16);
    assert n == q1 * 16 + n % 16 && q1 == q2 * 16 + q1 % 16 && q2 == q3 * 16 + q2 % 16;
  }

  // ---------------------------------------------------------------------------
  // Writing

  const Backspace: char := '\U{8}'
  const FormFeed: char := '\U{c}'

  /** The printable ASCII characters, which `ensure_ascii` writes as they are (except `"` and `\`). */
  predicate Printable(c: char) { ' ' <= c <= '~' }

  /**
   * One character of a str as `json.dumps` writes it: the two-character escapes for `"`,
   * `\` and the five named controls, the character itself when it is printable ASCII, and
   * otherwise `\uXXXX` in lower-case hex, as a UTF-16 surrogate pair above U+FFFF.
   */
  function EscapeChar(c: char): (r: string)
    ensures |r| > 0 && r[0] != '"'
  {
    if c == '"' then "\\\""
    else if c == '\\' then "\\\\"
    else if c == '\n' then "\\n"
    else if c == '\r' then "\\r"
    else if c == '\t' then "\\t"
    else if c == Backspace then "\\b"
    else if c == FormFeed then "\\f"
    else if Printable(c) then [c]
    else if c as int < 0x10000 then "\\u" + Hex4(c as int)
    else
      var n := c as int - 0x10000;
      "\\u" + Hex4(0xD800 + n / 1024) + "\\u" + Hex4(0xDC00 + n % 1024)
  }

  function Escape(s: string): string
    decreases |s|
  {
    if |s| == 0 then "" else EscapeChar(s[0]) + Escape(s[1..])
  }

  /** A str as a JSON string literal. */
  function Quote(s: string): string { "\"" + Escape(s) + "\"" }

  /** `json.dumps(j)`; a Python int is written in decimal. */
  function Dumps(j: Json): string
    decreases j, 1
  {
    match j
    case Null => "null"
    case Bool(b) => if b then "true" else "false"
    case Num(n) => IntToString(n)
    case Str(s) => Quote(s)
    case Arr(items) => "[" + DumpItems(items) + "]"
    case Obj(fields) => "{" + DumpFields(j, 0) + "}"
  }

  /** The elements of a list, separated by `", "`. */
  function DumpItems(items: seq<Json>): string
    decreases items, 0
  {
    if |items| == 0 then ""
    else if |items| == 1 then Dumps(items[0])
    else Dumps(items[0]) + ", " + DumpItems(items[1..])
  }

  /** The `"key": value` members of a dict from the k-th on, in insertion order, separated by `", "`. */
  function DumpFields(obj: Json, k: nat): string
    requires obj.Obj? && k <= |obj.fields|
    decreases obj, 0, |obj.fields| - k
  {
    if k == |obj.fields| then ""
    else
      var member := Quote(obj.fields[k].0) + ": " + Dumps(obj.fields[k].1);
      if k + 1 == |obj.fields| then member else member + ", " + DumpFields(obj, k + 1)
  }

  // ---------------------------------------------------------------------------
  // Reading

  /**
   * One character of a string literal, escaped or not, and the text after it. A raw
   * control character, an unknown escape and a lone surrogate are rejected.
   */
  function NextChar(s: string): (r: Option<(char, string)>)
    requires |s| > 0 && s[0] != '"'
    ensures r.Some? ==> |r.value.1| < |s|
  {
    if s[0] != '\\' then (if s[0] < ' ' then None else Some((s[0], s[1..])))
    else if |s| < 2 then None
    else if s[1] == '"' then Some(('"', s[2..]))
    else if s[1] == '\\' then Some(('\\', s[2..]))
    else if s[1] == '/' then Some(('/', s[2..]))
    else if s[1] == 'b' then Some((Backspace, s[2..]))
    else if s[1] == 'f' then Some((FormFeed, s[2..]))
    else if s[1] == 'n' then Some(('\n', s[2..]))
    else if s[1] == 'r' then Some(('\r', s[2..]))
    else if s[1] == 't' then Some(('\t', s[2..]))
    else if s[1] != 'u' || |s| < 6 then None
    else
      var u := Hex4Value(s[2..6]);
      if u.None? then None
      else if 0xD800 <= u.value < 0xDC00 then
        if |s| < 12 || s[6] != '\\' || s[7] != 'u' then None
        else
          var lo := Hex4Value(s[8..12]);
          if lo.None? || !(0xDC00 <= lo.value < 0xE000) then None
          else Some(((0x10000 + (u.value - 0xD800) * 1024 + (lo.value - 0xDC00)) as char, s[12..]))
      else if 0xDC00 <= u.value < 0xE000 then None
      else Some((u.value as char, s[6..]))
  }

  /** The body of a string literal up to its closing quote, and the text after that quote. */
  function ParseString(s: string): (r: Option<(string, string)>)
    ensures r.Some? ==> |r.value.1| < |s|
    decreases |s|
  {
    if |s| == 0 then None
    else if s[0] == '"' then Some(("", s[1..]))
    else
      match NextChar(s)
      case None => None
      case Some((c, after)) =>
        match ParseString(after)
        case None => None
        case Some((body, rest)) => Some(([c] + body, rest))
  }

  /** The number of decimal digits `s` starts with. */
  function DigitRun(s: string): (k: nat)
    ensures k <= |s| && AllDigits(s[..k])
    ensures k < |s| ==> !IsDigit(s[k])
    decreases |s|
  {
    if |s| == 0 || !IsDigit(s[0]) then 0
    else
      var k := DigitRun(s[1..]);
      assert s[..k + 1] == [s[0]] + s[1..][..k];
      k + 1
  }

  /** An integer: an optional `-` and digits without a leading zero. */
  function ParseNumber(s: string): (r: Option<(Json, string)>)
    ensures r.Some? ==> |r.value.1| < |s|
  {
    var neg := |s| > 0 && s[0] == '-';
    var t := if neg then s[1..] else s;
    var k := DigitRun(t);
    if k == 0 || (k > 1 && t[0] == '0') then None
    else
      var m := DigitsValue(t[..k]);
      Some((Num(if neg then -(m as int) else m as int), t[k..]))
  }

  /** One value at the front of `s`, and the text after it. */
  function ParseValue(s: string): (r: Option<(Json, string)>)
    ensures r.Some? ==> |r.value.1| < |s|
    decreases |s|, 0
  {
    if |s| == 0 then None
    else if StartsWith(s, "null") then Some((Null, s[4..]))
    else if StartsWith(s, "true") then Some((Bool(true), s[4..]))
    else if StartsWith(s, "false") then Some((Bool(false), s[5..]))
    else if s[0] == '"' then
      match ParseString(s[1..])
      case None => None
      case Some((body, rest)) => Some((Str(body), rest))
    else if s[0] == '[' then
      if |s| > 1 && s[1] == ']' then Some((Arr([]), s[2..]))
      else
        match ParseItems(s[1..])
        case None => None
        case Some((items, rest)) => Some((Arr(items), rest))
    else if s[0] == '{' then
      if |s| > 1 && s[1] == '}' then Some((Obj([]), s[2..]))
      else
        match ParseFields(s[1..])
        case None => None
        case Some((fields, rest)) => Some((Obj(fields), rest))
    else ParseNumber(s)
  }

  /** Elements separated by `", "` up to the closing `]`, and the text after it. */
  function ParseItems(s: string): (r: Option<(seq<Json>, string)>)
    ensures r.Some? ==> |r.value.1| < |s|
    decreases |s|, 1
  {
    match ParseValue(s)
    case None => None
    case Some((v, rest)) =>
      if StartsWith(rest, "]") then Some(([v], rest[1..]))
      else if !StartsWith(rest, ", ") then None
      else
        match ParseItems(rest[2..])
        case None => None
        case Some((more, after)) => Some(([v] + more, after))
  }

  /** `"key": value` members separated by `", "` up to the closing `}`, and the text after it. */
  function ParseFields(s: string): (r: Option<(Dict<Json>, string)>)
    ensures r.Some? ==> |r.value.1| < |s|
    decreases |s|, 1
  {
    if |s| == 0 || s[0] != '"' then None
    else
      match ParseString(s[1..])
      case None => None
      case Some((key, rest)) =>
        if !StartsWith(rest, ": ") then None
        else
          match ParseValue(rest[2..])
          case None => None
          case Some((v, after)) =>
            if StartsWith(after, "}") then Some(([(key, v)], after[1..]))
            else if !StartsWith(after, ", ") then None
            else
              match ParseFields(after[2..])
              case None => None
              case Some((more, last)) => Some(([(key, v)] + more, last))
  }

  // ---------------------------------------------------------------------------
  // Round trip

  /** Text a number can be followed by without running into it. */
  predicate NoDigitFirst(rest: string) { |rest| == 0 || !IsDigit(rest[0]) }

  lemma Assoc3(a: string, b: string, c: string)
    ensures a + b + c == a + (b + c)
  {
  }

  lemma NotStartsWith(s: string, p: string)
    requires |s| > 0 && |p| > 0 && s[0] != p[0]
    ensures !StartsWith(s, p)
  {
    if |p| <= |s| {
      assert s[..|p|][0] == s[0];
    }
  }

  lemma StartsWithHead(p: string, t: string)
    ensures StartsWith(p + t, p) && (p + t)[|p|..] == t
  {
    assert (p + t)[..|p|] == p;
  }

  /** The control characters with a short escape. */
  predicate Named(c: char)
  {
    c == '"' || c == '\\' || c == '\n' || c == '\r' || c == '\t' || c == Backspace || c == FormFeed
  }

  lemma NextCharNamed(c: char, t: string)
    requires Named(c)
    ensures NextChar(EscapeChar(c) + t) == Some((c, t))
  {
    var s := EscapeChar(c) + t;
    assert |EscapeChar(c)| == 2;
    assert s[0] == '\\' && s[1] == EscapeChar(c)[1] && s[2..] == t;
  }

  lemma NextCharPrintable(c: char, t: string)
    requires !Named(c) && Printable(c)
    ensures NextChar(EscapeChar(c) + t) == Some((c, t))
  {
    var s := [c] + t;
    assert s[0] == c && s[1..] == t;
  }

  lemma NextCharBasic(c: char, t: string)
    requires !Named(c) && !Printable(c) && c as int < 0x10000
    ensures NextChar(EscapeChar(c) + t) == Some((c, t))
  {
    var h := Hex4(c as int);
    Hex4RoundTrip(c as int);
    var s := "\\u" + h + t;
    assert s[0] == '\\' && s[1] == 'u' && s[2..6] == h && s[6..] == t;
  }

  /** The two halves of a surrogate pair, and how they give back the code point. */
  lemma PairHalves(c: int, hi: int, lo: int)
    requires 0x10000 <= c < 0x110000
    requires hi == 0xD800 + (c - 0x10000) / 1024 && lo == 0xDC00 + (c - 0x10000) % 1024
    ensures 0xD800 <= hi < 0xDC00 && 0xDC00 <= lo < 0xE000
    ensures 0x10000 + (hi - 0xD800) * 1024 + (lo - 0xDC00) == c
  {
  }

  lemma PairText(hi: string, lo: string, t: string)
    requires |hi| == 4 && |lo| == 4
    ensures var s := "\\u" + hi + "\\u" + lo + t;
            |s| >= 12 && s[0] == '\\' && s[1] == 'u' && s[2..6] == hi
            && s[6] == '\\' && s[7] == 'u' && s[8..12] == lo && s[12..] == t
  {
  }

  /** A `\\uXXXX\\uXXXX` surrogate pair is read as the code point it encodes. */
  lemma NextCharSurrogates(s: string, hi: int, lo: int)
    requires |s| >= 12 && s[0] == '\\' && s[1] == 'u' && s[6] == '\\' && s[7] == 'u'
    requires Hex4Value(s[2..6]) == Some(hi) && Hex4Value(s[8..12]) == Some(lo)
    requires 0xD800 <= hi < 0xDC00 && 0xDC00 <= lo < 0xE000
    ensures NextChar(s) == Some(((0x10000 + (hi - 0xD800) * 1024 + (lo - 0xDC00)) as char, s[12..]))
  {
  }

  lemma EscapeCharPair(c: char, hi: int, lo: int)
    requires c as int >= 0x10000
    requires hi == 0xD800 + (c as int - 0x10000) / 1024 && lo == 0xDC00 + (c as int - 0x10000) % 1024
    ensures EscapeChar(c) == "\\u" + Hex4(hi) + "\\u" + Hex4(lo)
  {
  }

  /** The two written halves of a pair, followed by `t`, are read as one code point. */
  lemma NextCharPairText(hi: int, lo: int, t: string)
    requires 0xD800 <= hi < 0xDC00 && 0xDC00 <= lo < 0xE000
    ensures NextChar("\\u" + Hex4(hi) + "\\u" + Hex4(lo) + t)
            == Some(((0x10000 + (hi - 0xD800) * 1024 + (lo - 0xDC00)) as char, t))
  {
    Hex4RoundTrip(hi);
    Hex4RoundTrip(lo);
    PairText(Hex4(hi), Hex4(lo), t);
    NextCharSurrogates("\\u" + Hex4(hi) + "\\u" + Hex4(lo) + t, hi, lo);
  }

  lemma NextCharPair(c: char, t: string)
    requires c as int >= 0x10000
    ensures NextChar(EscapeChar(c) + t) == Some((c, t))
  {
    var n := c as int - 0x10000;
    var hi := 0xD800 + n / 1024;
    var lo := 0xDC00 + n % 1024;
    PairHalves(c as int, hi, lo);
    EscapeCharPair(c, hi, lo);
    NextCharPairText(hi, lo, t);
  }

  /** Each written character is read back, and the text after it is left as it was. */
  lemma NextCharEscape(c: char, t: string)
    ensures NextChar(EscapeChar(c) + t) == Some((c, t))
  {
    if Named(c) {
      NextCharNamed(c, t);
    } else if Printable(c) {
      NextCharPrintable(c, t);
    } else if c as int < 0x10000 {
      NextCharBasic(c, t);
    } else {
      NextCharPair(c, t);
    }
  }

  /** A string literal's body is read back up to its closing quote. */
  lemma {:induction false} ParseEscape(s: string, rest: string)
    ensures ParseString(Escape(s) + "\"" + rest) == Some((s, rest))
    decreases |s|
  {
    if |s| == 0 {
      assert Escape(s) + "\"" + rest == "\"" + rest;
    } else {
      var tail := Escape(s[1..]) + "\"" + rest;
      assert Escape(s) + "\"" + rest == EscapeChar(s[0]) + tail by {
        Assoc3(EscapeChar(s[0]), Escape(s[1..]), "\"" + rest);
      }
      NextCharEscape(s[0], tail);
      ParseEscape(s[1..], rest);
      assert [s[0]] + s[1..] == s;
    }
  }

  /** The digit run of `d + rest` is `d` when `rest` does not go on with a digit. */
  lemma {:induction false} DigitRunPrefix(d: string, rest: string)
    requires AllDigits(d) && NoDigitFirst(rest)
    ensures DigitRun(d + rest) == |d|
    decreases |d|
  {
    if |d| > 0 {
      assert (d + rest)[1..] == d[1..] + rest;
      DigitRunPrefix(d[1..], rest);
    }
  }

  lemma ParseNatText(m: nat, rest: string)
    requires NoDigitFirst(rest)
    ensures var t := NatToString(m) + rest;
            DigitRun(t) == |NatToString(m)| && t[..|NatToString(m)|] == NatToString(m)
            && t[|NatToString(m)|..] == rest && DigitsValue(NatToString(m)) == m
  {
    DigitRunPrefix(NatToString(m), rest);
    NatToStringValue(m);
    StartsWithHead(NatToString(m), rest);
  }

  lemma ParseNegativeText(n: int, rest: string)
    requires n < 0 && NoDigitFirst(rest)
    ensures ParseNumber(IntToString(n) + rest) == Some((Num(n), rest))
  {
    var s := "-" + NatToString(-n) + rest;
    ParseNatText(-n, rest);
    assert s[0] == '-' && s[1..] == NatToString(-n) + rest;
  }

  /** An int is read back from its decimal text. */
  lemma ParseNumberText(n: int, rest: string)
    requires NoDigitFirst(rest)
    ensures ParseNumber(IntToString(n) + rest) == Some((Num(n), rest))
  {
    if n < 0 {
      ParseNegativeText(n, rest);
    } else {
      ParseNatText(n, rest);
    }
  }

  /** What a written value starts with decides how it is read. */
  lemma DumpsFirst(j: Json)
    ensures |Dumps(j)| > 0
    ensures j.Num? ==> Dumps(j)[0] == '-' || IsDigit(Dumps(j)[0])
    ensures j.Str? ==> Dumps(j)[0] == '"'
    ensures j.Arr? ==> Dumps(j)[0] == '['
    ensures j.Obj? ==> Dumps(j)[0] == '{'
    ensures Dumps(j)[0] != ']' && Dumps(j)[0] != '}'
  {
    if j.Num? && j.n >= 0 {
      assert IsDigit(NatToString(j.n)[0]);
    }
  }

  /** None of the literal words starts a text whose first character is `c`. */
  lemma NoKeyword(s: string)
    requires |s| > 0 && s[0] != 'n' && s[0] != 't' && s[0] != 'f'
    ensures !StartsWith(s, "null") && !StartsWith(s, "true") && !StartsWith(s, "false")
  {
    NotStartsWith(s, "null");
    NotStartsWith(s, "true");
    NotStartsWith(s, "false");
  }

  lemma ParseDumpsLiteral(j: Json, rest: string)
    requires j.Null? || j.Bool?
    ensures ParseValue(Dumps(j) + rest) == Some((j, rest))
  {
    StartsWithHead(Dumps(j), rest);
    if j == Bool(false) {
      NotStartsWith(Dumps(j) + rest, "null");
      NotStartsWith(Dumps(j) + rest, "true");
    } else if j == Bool(true) {
      NotStartsWith(Dumps(j) + rest, "null");
    }
  }

  lemma ParseDumpsNumber(j: Json, rest: string)
    requires j.Num? && NoDigitFirst(rest)
    ensures ParseValue(Dumps(j) + rest) == Some((j, rest))
  {
    DumpsFirst(j);
    NoKeyword(Dumps(j) + rest);
    ParseNumberText(j.n, rest);
  }

  lemma ParseDumpsString(j: Json, rest: string)
    requires j.Str?
    ensures ParseValue(Dumps(j) + rest) == Some((j, rest))
  {
    var s := "\"" + (Escape(j.s) + "\"" + rest);
    assert Dumps(j) + rest == s;
    NoKeyword(s);
    ParseEscape(j.s, rest);
  }

  lemma ParseDumpsArr(j: Json, rest: string)
    requires j.Arr?
    requires |j.items| > 0 ==> ParseItems(DumpItems(j.items) + "]" + rest) == Some((j.items, rest))
    ensures ParseValue(Dumps(j) + rest) == Some((j, rest))
  {
    var s := "[" + (DumpItems(j.items) + "]" + rest);
    assert Dumps(j) + rest == s;
    NoKeyword(s);
    if |j.items| == 0 {
      assert s[1] == ']' && s[2..] == rest;
    } else {
      DumpsFirst(j.items[0]);
      assert s[1..] == DumpItems(j.items) + "]" + rest;
      assert s[1] == Dumps(j.items[0])[0];
    }
  }

  lemma ParseDumpsObj(j: Json, rest: string)
    requires j.Obj?
    requires |j.fields| > 0 ==> ParseFields(DumpFields(j, 0) + "}" + rest) == Some((j.fields[0..], rest))
    ensures ParseValue(Dumps(j) + rest) == Some((j, rest))
  {
    var s := "{" + (DumpFields(j, 0) + "}" + rest);
    assert Dumps(j) + rest == s;
    NoKeyword(s);
    if |j.fields| == 0 {
      assert s[1] == '}' && s[2..] == rest;
    } else {
      assert s[1..] == DumpFields(j, 0) + "}" + rest;
      assert s[1] == '"';
      assert j.fields[0..] == j.fields;
    }
  }

  /** Reading what `json.dumps` wrote gives the value back, and leaves what followed it. */
  lemma {:induction false} ParseDumps(j: Json, rest: string)
    requires NoDigitFirst(rest)
    ensures ParseValue(Dumps(j) + rest) == Some((j, rest))
    decreases j, 1
  {
    match j
    case Null => ParseDumpsLiteral(j, rest);
    case Bool(_) => ParseDumpsLiteral(j, rest);
    case Num(_) => ParseDumpsNumber(j, rest);
    case Str(_) => ParseDumpsString(j, rest);
    case Arr(items) =>
      if |items| > 0 {
        ParseDumpItems(items, rest);
      }
      ParseDumpsArr(j, rest);
    case Obj(fields) =>
      if |fields| > 0 {
        ParseDumpFields(j, 0, rest);
      }
      ParseDumpsObj(j, rest);
  }

  lemma {:induction false} ParseDumpItems(items: seq<Json>, rest: string)
    requires |items| > 0
    ensures ParseItems(DumpItems(items) + "]" + rest) == Some((items, rest))
    decreases items, 0
  {
    if |items| == 1 {
      var tail := "]" + rest;
      assert DumpItems(items) + "]" + rest == Dumps(items[0]) + tail;
      ParseDumps(items[0], tail);
      StartsWithHead("]", rest);
      assert [items[0]] == items;
    } else {
      var tail := ", " + (DumpItems(items[1..]) + "]" + rest);
      assert DumpItems(items) + "]" + rest == Dumps(items[0]) + tail;
      ParseDumps(items[0], tail);
      NotStartsWith(tail, "]");
      StartsWithHead(", ", DumpItems(items[1..]) + "]" + rest);
      ParseDumpItems(items[1..], rest);
      assert [items[0]] + items[1..] == items;
    }
  }

  /** The text of one `"key": value` member followed by `tail`. */
  lemma MemberText(key: string, v: Json, tail: string)
    ensures Quote(key) + ": " + Dumps(v) + tail == "\"" + (Escape(key) + "\"" + (": " + (Dumps(v) + tail)))
  {
  }

  /** One member followed by `tail` is read back, given that its value is. */
  lemma ParseMember(key: string, v: Json, tail: string)
    requires ParseValue(Dumps(v) + tail) == Some((v, tail))
    ensures var s := "\"" + (Escape(key) + "\"" + (": " + (Dumps(v) + tail)));
            |s| > 0 && s[0] == '"' && ParseString(s[1..]) == Some((key, ": " + (Dumps(v) + tail)))
            && StartsWith(": " + (Dumps(v) + tail), ": ")
            && ParseValue((": " + (Dumps(v) + tail))[2..]) == Some((v, tail))
  {
    var after := ": " + (Dumps(v) + tail);
    ParseEscape(key, after);
    StartsWithHead(": ", Dumps(v) + tail);
  }

  /** The last member of an object, given that it reads back. */
  lemma ParseLastField(obj: Json, k: nat, rest: string)
    requires obj.Obj? && k + 1 == |obj.fields|
    requires ParseValue(Dumps(obj.fields[k].1) + ("}" + rest)) == Some((obj.fields[k].1, "}" + rest))
    ensures ParseFields(DumpFields(obj, k) + "}" + rest) == Some((obj.fields[k..], rest))
  {
    var key := obj.fields[k].0;
    var v := obj.fields[k].1;
    var tail := "}" + rest;
    assert DumpFields(obj, k) + "}" + rest == Quote(key) + ": " + Dumps(v) + tail;
    MemberText(key, v, tail);
    ParseMember(key, v, tail);
    StartsWithHead("}", rest);
    assert obj.fields[k..] == [(key, v)];
  }

  lemma NextFieldText(obj: Json, k: nat, rest: string)
    requires obj.Obj? && k + 1 < |obj.fields|
    ensures var tail := ", " + (DumpFields(obj, k + 1) + "}" + rest);
            DumpFields(obj, k) + "}" + rest
            == "\"" + (Escape(obj.fields[k].0) + "\"" + (": " + (Dumps(obj.fields[k].1) + tail)))
  {
    var key := obj.fields[k].0;
    var v := obj.fields[k].1;
    var tail := ", " + (DumpFields(obj, k + 1) + "}" + rest);
    assert DumpFields(obj, k) + "}" + rest == Quote(key) + ": " + Dumps(v) + tail;
    MemberText(key, v, tail);
  }

  /** A member followed by more members, given that it and the rest read back. */
  lemma ParseNextField(obj: Json, k: nat, rest: string)
    requires obj.Obj? && k + 1 < |obj.fields|
    requires var tail := ", " + (DumpFields(obj, k + 1) + "}" + rest);
             ParseValue(Dumps(obj.fields[k].1) + tail) == Some((obj.fields[k].1, tail))
    requires ParseFields(DumpFields(obj, k + 1) + "}" + rest) == Some((obj.fields[k + 1..], rest))
    ensures ParseFields(DumpFields(obj, k) + "}" + rest) == Some((obj.fields[k..], rest))
  {
    var key := obj.fields[k].0;
    var v := obj.fields[k].1;
    var more := DumpFields(obj, k + 1) + "}" + rest;
    var tail := ", " + more;
    NextFieldText(obj, k, rest);
    ParseMember(key, v, tail);
    NotStartsWith(tail, "}");
    StartsWithHead(", ", more);
    assert obj.fields[k..] == [(key, v)] + obj.fields[k + 1..];
  }

  lemma {:induction false} ParseDumpFields(obj: Json, k: nat, rest: string)
    requires obj.Obj? && k < |obj.fields|
    ensures ParseFields(DumpFields(obj, k) + "}" + rest) == Some((obj.fields[k..], rest))
    decreases obj, 0, |obj.fields| - k
  {
    if k + 1 == |obj.fields| {
      ParseDumps(obj.fields[k].1, "}" + rest);
      ParseLastField(obj, k, rest);
    } else {
      ParseDumps(obj.fields[k].1, ", " + (DumpFields(obj, k + 1) + "}" + rest));
      ParseDumpFields(obj, k + 1, rest);
      ParseNextField(obj, k, rest);
    }
  }

  // ---------------------------------------------------------------------------
  // The written text is printable ASCII

  /** Only printable ASCII, so `.encode()` gives one byte per character. */
  predicate Ascii(s: string) { forall i :: 0 <= i < |s| ==> Printable(s[i]) }

  lemma AsciiConcat(a: string, b: string)
    requires Ascii(a) && Ascii(b)
    ensures Ascii(a + b)
  {
    assert forall i :: 0 <= i < |a + b| ==> (a + b)[i] == (if i < |a| then a[i] else b[i - |a|]);
  }

  lemma Hex4Ascii(n: nat)
    requires n < 0x10000
    ensures Ascii(Hex4(n))
  {
  }

  lemma UnicodeEscapeAscii(n: nat)
    requires n < 0x10000
    ensures Ascii("\\u" + Hex4(n))
  {
    Hex4Ascii(n);
    AsciiConcat("\\u", Hex4(n));
  }

  lemma EscapeCharAscii(c: char)
    ensures Ascii(EscapeChar(c))
  {
    if !Named(c) && !Printable(c) {
      if c as int < 0x10000 {
        UnicodeEscapeAscii(c as int);
      } else {
        var n := c as int - 0x10000;
        var hi := 0xD800 + n / 1024;
        var lo := 0xDC00 + n % 1024;
        EscapeCharPair(c, hi, lo);
        UnicodeEscapeAscii(hi);
        UnicodeEscapeAscii(lo);
        AsciiConcat("\\u" + Hex4(hi), "\\u" + Hex4(lo));
        assert "\\u" + Hex4(hi) + "\\u" + Hex4(lo) == ("\\u" + Hex4(hi)) + ("\\u" + Hex4(lo));
      }
    }
  }

  /** Every character of a string literal's body is written as printable ASCII. */
  lemma {:induction false} EscapeAscii(s: string)
    ensures Ascii(Escape(s))
    decreases |s|
  {
    if |s| > 0 {
      EscapeCharAscii(s[0]);
      EscapeAscii(s[1..]);
      AsciiConcat(EscapeChar(s[0]), Escape(s[1..]));
    }
  }

  lemma QuoteAscii(s: string)
    ensures Ascii(Quote(s))
  {
    EscapeAscii(s);
    AsciiConcat("\"", Escape(s));
    AsciiConcat("\"" + Escape(s), "\"");
  }

  lemma IntToStringAscii(n: int)
    ensures Ascii(IntToString(n))
  {
    if n < 0 {
      AsciiConcat("-", NatToString(-n));
    }
  }

  /** `json.dumps` with its default `ensure_ascii` writes printable ASCII only. */
  lemma {:induction false} DumpsAscii(j: Json)
    ensures Ascii(Dumps(j))
    decreases j, 1
  {
    match j
    case Null =>
    case Bool(_) =>
    case Num(n) => IntToStringAscii(n);
    case Str(text) =>
      QuoteAscii(text);
    case Arr(items) =>
      DumpItemsAscii(items);
      AsciiConcat("[", DumpItems(items));
      AsciiConcat("[" + DumpItems(items), "]");
    case Obj(fields) =>
      DumpFieldsAscii(j, 0);
      AsciiConcat("{", DumpFields(j, 0));
      AsciiConcat("{" + DumpFields(j, 0), "}");
  }

  lemma {:induction false} DumpItemsAscii(items: seq<Json>)
    ensures Ascii(DumpItems(items))
    decreases items, 0
  {
    if |items| > 0 {
      DumpsAscii(items[0]);
      if |items| > 1 {
        DumpItemsAscii(items[1..]);
        AsciiConcat(Dumps(items[0]), ", ");
        AsciiConcat(Dumps(items[0]) + ", ", DumpItems(items[1..]));
      }
    }
  }

  lemma {:induction false} DumpFieldsAscii(obj: Json, k: nat)
    requires obj.Obj? && k <= |obj.fields|
    ensures Ascii(DumpFields(obj, k))
    decreases obj, 0, |obj.fields| - k
  {
    if k < |obj.fields| {
      var key := obj.fields[k].0;
      var v := obj.fields[k].1;
      QuoteAscii(key);
      DumpsAscii(v);
      AsciiConcat(Quote(key), ": ");
      AsciiConcat(Quote(key) + ": ", Dumps(v));
      var member := Quote(key) + ": " + Dumps(v);
      if k + 1 < |obj.fields| {
        DumpFieldsAscii(obj, k + 1);
        AsciiConcat(member, ", ");
        AsciiConcat(member + ", ", DumpFields(obj, k + 1));
      }
    }
  }
}
