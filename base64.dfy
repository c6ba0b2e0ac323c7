/**
 * Python's `base64.urlsafe_b64encode`: the base 64 encoding of section 4 of RFC 4648 with
 * the URL- and filename-safe alphabet of its section 5 (`-` and `_` for 62 and 63) and `=`
 * padding. `Decode` is the strict inverse used to state what an encoded string carries.
 */
module Base64 {
  import opened Wrappers

  type Byte = b: int | 0 <= b < 256
  type Sextet = s: int | 0 <= s < 64

  /** The character for a 6-bit value: A-Z, a-z, 0-9, then `-` and `_`. */
  function Char64(n: Sextet): (c: char)
    ensures c != '='
  {
    if n < 26 then ('A' as int + n) as char
    else if n < 52 then ('a' as int + (n - 26)) as char
    else if n < 62 then ('0' as int + (n - 52)) as char
    else if n == 62 then '-'
    else '_'
  }

  /** The 6-bit value a character stands for; None outside the alphabet. */
  function Index64(c: char): (r: Option<Sextet>)
  {
    if 'A' <= c <= 'Z' then Some(c as int - 'A' as int)
    else if 'a' <= c <= 'z' then Some(c as int - 'a' as int + 26)
    else if '0' <= c <= '9' then Some(c as int - '0' as int + 52)
    else if c == '-' then Some(62)
    else if c == '_' then Some(63)
    else None
  }

  lemma Index64Char(n: Sextet)
    ensures Index64(Char64(n)) == Some(n)
  {
  }

  /** The characters an encoding is made of. */
  predicate IsBase64Char(c: char) { Index64(c).Some? || c == '=' }

  /** The high `hi` bits of one value followed by the low bits of the next, as one sextet. */
  function Join(hi: int, lo: int, width: int): (r: Sextet)
    requires width == 4 || width == 16
    requires 0 <= hi < 64 / width && 0 <= lo < width
    ensures r / width == hi && r % width == lo
  {
    hi * width + lo
  }

  /** Three bytes, 24 bits, as four characters of six bits each. */
  function EncodeTriple(a: Byte, b: Byte, c: Byte): string
  {
    [Char64(a / 4), Char64(Join(a % 4, b / 16, 16)), Char64(Join(b % 16, c / 64, 4)), Char64(c % 64)]
  }

  /** One trailing byte: two characters and two `=`. */
  function EncodeOne(a: Byte): string
  {
    [Char64(a / 4), Char64(Join(a % 4, 0, 16)), '=', '=']
  }

  /** Two trailing bytes: three characters and one `=`. */
  function EncodeTwo(a: Byte, b: Byte): string
  {
    [Char64(a / 4), Char64(Join(a % 4, b / 16, 16)), Char64(Join(b % 16, 0, 4)), '=']
  }

  function Encode(bytes: seq<Byte>): (s: string)
    ensures |s| == 4 * ((|bytes| + 2) / 3)
    decreases |bytes|
  {
    if |bytes| == 0 then ""
    else if |bytes| == 1 then EncodeOne(bytes[0])
    else if |bytes| == 2 then EncodeTwo(bytes[0], bytes[1])
    else EncodeTriple(bytes[0], bytes[1], bytes[2]) + Encode(bytes[3..])
  }

  /** Only alphabet characters and `=` occur in an encoding, so it is safe in a URL path. */
  lemma {:induction false} EncodeAlphabet(bytes: seq<Byte>)
    ensures forall i :: 0 <= i < |Encode(bytes)| ==> IsBase64Char(Encode(bytes)[i])
    decreases |bytes|
  {
    forall n: Sextet ensures Index64(Char64(n)).Some? { Index64Char(n); }
    if |bytes| > 2 {
      EncodeAlphabet(bytes[3..]);
    }
  }

  /** Four characters back to the three bytes they carry; None for a character outside the alphabet. */
  function DecodeQuad(s: string): (r: Option<seq<Byte>>)
    requires |s| == 4
  {
    var i0 := Index64(s[0]);
    var i1 := Index64(s[1]);
    if i0.None? || i1.None? then None
    else if s[2] == '=' && s[3] == '=' then
      Some([i0.value * 4 + i1.value / 16])
    else
      var i2 := Index64(s[2]);
      if i2.None? then None
      else if s[3] == '=' then
        Some([i0.value * 4 + i1.value / 16, (i1.value % 16) * 16 + i2.value / 4])
      else
        var i3 := Index64(s[3]);
        if i3.None? then None
        else Some([i0.value * 4 + i1.value / 16, (i1.value % 16) * 16 + i2.value / 4, (i2.value % 4) * 64 + i3.value])
  }

  /** Padding may only end the last group; any other length or character is rejected. */
  function Decode(s: string): (r: Option<seq<Byte>>)
    decreases |s|
  {
    if |s| == 0 then Some([])
    else if |s| < 4 then None
    else
      var quad := DecodeQuad(s[..4]);
      if quad.None? || (|s| > 4 && |quad.value| < 3) then None
      else
        var rest := Decode(s[4..]);
        if rest.None? then None else Some(quad.value + rest.value)
  }

  lemma DecodeTriple(a: Byte, b: Byte, c: Byte)
    ensures DecodeQuad(EncodeTriple(a, b, c)) == Some([a, b, c])
  {
    var s1 := Join(a % 4, b / 16, 16);
    var s2 := Join(b % 16, c / 64, 4);
    Index64Char(a / 4);
    Index64Char(s1);
    Index64Char(s2);
    Index64Char(c % 64);
    var s := EncodeTriple(a, b, c);
    assert s[2] != '=' && s[3] != '=';
  }

  lemma DecodeOne(a: Byte)
    ensures DecodeQuad(EncodeOne(a)) == Some([a])
  {
    Index64Char(a / 4);
    Index64Char(Join(a % 4, 0, 16));
  }

  lemma DecodeTwo(a: Byte, b: Byte)
    ensures DecodeQuad(EncodeTwo(a, b)) == Some([a, b])
  {
    Index64Char(a / 4);
    Index64Char(Join(a % 4, b / 16, 16));
    Index64Char(Join(b % 16, 0, 4));
    assert EncodeTwo(a, b)[2] != '=';
  }

  /** A single group decodes on its own. */
  lemma DecodeLast(s: string)
    requires |s| == 4 && DecodeQuad(s).Some?
    ensures Decode(s) == DecodeQuad(s)
  {
    assert s[..4] == s;
    assert Decode(s[4..]) == Some([]);
    assert DecodeQuad(s).value + [] == DecodeQuad(s).value;
  }

  lemma Split3<T>(s: seq<T>)
    requires |s| >= 3
    ensures s == [s[0], s[1], s[2]] + s[3..]
  {
  }

  /** A full group in front decodes to its three bytes in front. */
  lemma DecodeFull(head: string, tail: string)
    requires |head| == 4 && DecodeQuad(head).Some? && |DecodeQuad(head).value| == 3
    requires Decode(tail).Some?
    ensures Decode(head + tail) == Some(DecodeQuad(head).value + Decode(tail).value)
  {
    assert (head + tail)[..4] == head && (head + tail)[4..] == tail;
  }

  /** Decoding an encoding gives the bytes back. */
  lemma {:induction false} DecodeEncode(bytes: seq<Byte>)
    ensures Decode(Encode(bytes)) == Some(bytes)
    decreases |bytes|
  {
    var s := Encode(bytes);
    if |bytes| == 1 {
      DecodeOne(bytes[0]);
      DecodeLast(s);
      assert bytes == [bytes[0]];
    } else if |bytes| == 2 {
      DecodeTwo(bytes[0], bytes[1]);
      DecodeLast(s);
      assert bytes == [bytes[0], bytes[1]];
    } else if |bytes| > 2 {
      DecodeTriple(bytes[0], bytes[1], bytes[2]);
      DecodeEncode(bytes[3..]);
      DecodeFull(EncodeTriple(bytes[0], bytes[1], bytes[2]), Encode(bytes[3..]));
      Split3(bytes);
    }
  }

  /** Equal encodings come from equal bytes, so an encoded URL suffix names one payload. */
  lemma EncodeInjective(x: seq<Byte>, y: seq<Byte>)
    requires Encode(x) == Encode(y)
    ensures x == y
  {
    DecodeEncode(x);
    DecodeEncode(y);
  }
}
