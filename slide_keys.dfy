/**
 * The string-keyed naming convention every stage uses for numbered slides: `slide{n}`,
 * `s{n}paragraph1`, `audio_url{n}`, `s{n}audio1`, ... (Python f-strings over an int).
 * The lemmas are what makes the convention a faithful encoding of slide positions:
 * distinct numbers give distinct keys and the key families never collide.
 */
module SlideKeys {
  import opened Wrappers
  import opened Text

  function SlideKey(n: nat): string { "slide" + NatToString(n) }

  function ParagraphKey(n: nat): string { "s" + NatToString(n) + "paragraph1" }

  function AudioUrlKey(n: nat): string { "audio_url" + NatToString(n) }

  function Audio1Key(n: nat): string { "s" + NatToString(n) + "audio1" }

  function Image1Key(n: nat): string { "s" + NatToString(n) + "image1" }

  function Paragraph2Key(n: nat): string { "s" + NatToString(n) + "paragraph2" }

  function Video1Key(n: nat): string { "s" + NatToString(n) + "video1" }

  lemma PrefixedNumberInjective(p: string, a: nat, b: nat)
    requires p + NatToString(a) == p + NatToString(b)
    ensures a == b
  {
    assert NatToString(a) == (p + NatToString(a))[|p|..];
    assert NatToString(b) == (p + NatToString(b))[|p|..];
    NatToStringInjective(a, b);
  }

  lemma SlideKeyInjective(a: nat, b: nat)
    requires SlideKey(a) == SlideKey(b)
    ensures a == b
  {
    PrefixedNumberInjective("slide", a, b);
  }

  /** The digits of `"s" + str(n) + suffix` are recovered by cutting at the suffix. */
  lemma SandwichInjective(a: nat, b: nat, suffix: string)
    requires "s" + NatToString(a) + suffix == "s" + NatToString(b) + suffix
    ensures a == b
  {
    var x := "s" + NatToString(a) + suffix;
    var y := "s" + NatToString(b) + suffix;
    assert NatToString(a) == x[1..|x| - |suffix|];
    assert NatToString(b) == y[1..|y| - |suffix|];
    NatToStringInjective(a, b);
  }

  lemma ParagraphKeyInjective(a: nat, b: nat)
    requires ParagraphKey(a) == ParagraphKey(b)
    ensures a == b
  {
    SandwichInjective(a, b, "paragraph1");
  }

  /** A `slide{n}` key is never one of the script keys. */
  lemma SlideKeyIsNotScriptKey(n: nat, m: nat)
    ensures SlideKey(n) != "storytitle" && SlideKey(n) != "hookline"
    ensures SlideKey(n) != ParagraphKey(m)
  {
    assert SlideKey(n)[1] == 'l';
    assert "storytitle"[1] == 't';
    assert ParagraphKey(m)[1] == NatToString(m)[0];
  }

  /** `s{n}paragraph1` is neither title key and always ends in `paragraph1`. */
  lemma ParagraphKeyShape(n: nat)
    ensures ParagraphKey(n) != "storytitle" && ParagraphKey(n) != "hookline"
    ensures EndsWith(ParagraphKey(n), "paragraph1")
    ensures Contains(ParagraphKey(n), "paragraph1")
    ensures StartsWith(ParagraphKey(n), "s")
  {
    var k := ParagraphKey(n);
    assert k[1] == NatToString(n)[0];
    assert k[|k| - 10..] == "paragraph1";
    ContainsAt(k, "paragraph1", |k| - 10);
  }

  /** `"slide{n}".replace("slide", "")` is `str(n)`. */
  lemma SlideKeySuffix(n: nat)
    ensures ReplaceAll(SlideKey(n), "slide", "") == NatToString(n)
  {
    ReplaceAllPrefix("slide", NatToString(n), "");
    var d := NatToString(n);
    if Contains(d, "slide") {
      ContainsFirstChar(d, "slide");
      assert false;
    }
    ReplaceAllAbsent(d, "slide", "");
  }

  /**
   * `int(key.replace("slide", ""))`, the number the source reads back out of a slide key;
   * None is the ValueError `int()` raises.
   */
  function SlideNumber(key: string): Option<int> {
    ParseInt(ReplaceAll(key, "slide", ""))
  }

  /** Reading the number back out of `slide{n}` gives n. */
  lemma SlideKeyNumber(n: nat)
    ensures SlideNumber(SlideKey(n)) == Some(n as int)
  {
    SlideKeySuffix(n);
    ParseIntNatToString(n);
  }
}
