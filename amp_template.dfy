/**
 * AMP page assembly from app/services/html_service.py: `generate_slide` (one story page
 * with an audio source and a paragraph) and `process_amp_template`, which sorts the slide
 * keys by their numeric suffix, renders every slide that has both a paragraph and an audio
 * URL, and splices the pages into the template's `<!--INSERT_SLIDES_HERE-->` placeholder.
 */
module AmpTemplate {
  import opened Wrappers
  import opened Text
  import opened PyJson
  import opened SlideKeys
  import opened HtmlService

  const SlidesPlaceholder: string := "<!--INSERT_SLIDES_HERE-->"

  /** The width passed to textwrap.shorten for a slide paragraph. */
  const ParagraphWidth: nat := 180

  // ---------------------------------------------------------------------------
  // generate_slide

  /** The fixed page markup up to the audio source URL (abbreviated). */
  const PageHead: string := "<amp-story-page id=\"c29cbf94-847a-4bb7-a4eb-47d17d8c2d5a\"><source type=\"audio/mpeg\" src=\""
  /** The fixed markup between the audio URL and the paragraph text (abbreviated). */
  const PageMiddle: string := "\"><span class=\"_14af73e\">"
  /** The fixed markup after the paragraph text (abbreviated). */
  const PageTail: string := "</span></amp-story-page>"

  /** One story page: the audio URL and the paragraph dropped into the fixed markup. */
  function GenerateSlide(paragraph: string, audioUrl: string): (r: string)
    ensures |r| == |PageHead| + |audioUrl| + |PageMiddle| + |paragraph| + |PageTail|
    ensures StartsWith(r, PageHead) && EndsWith(r, PageTail)
    ensures r[|PageHead|..|PageHead| + |audioUrl|] == audioUrl
    ensures r[|PageHead| + |audioUrl| + |PageMiddle|..|r| - |PageTail|] == paragraph
  {
    PageHead + audioUrl + PageMiddle + paragraph + PageTail
  }

  // ---------------------------------------------------------------------------
  // The paragraph of a rendered slide

  /**
   * `text.replace("'", "'").replace('"', '&quot;')`: the first replacement changes nothing,
   * so only double quotes are escaped, and none is left.
   */
  function EscapeQuotes(text: string): (r: string)
    ensures r == ReplaceAll(text, "\"", "&quot;")
    ensures '"' !in r
  {
    ReplaceAllSelf(text, "'");
    ReplaceAllRemovesChar(text, '"', "&quot;");
    ReplaceAll(ReplaceAll(text, "'", "'"), "\"", "&quot;")
  }

  /**
   * The paragraph a slide shows: escaped, then shortened to 180 characters at a word
   * boundary with "..."; a text whose collapsed form fits is kept whole (collapsed).
   */
  function SlideParagraph(text: string): (r: string)
    ensures |r| <= ParagraphWidth
    ensures '"' !in r
    ensures |Collapse(EscapeQuotes(text))| <= ParagraphWidth ==> r == Collapse(EscapeQuotes(text))
  {
    ShortenKeepsAbsent(EscapeQuotes(text), ParagraphWidth, '"');
    Shorten(EscapeQuotes(text), ParagraphWidth)
  }

  // ---------------------------------------------------------------------------
  // Sorting the slide keys by `int(key.replace("slide", ""))`

  /** A slide with its sort number: (number, key, value). */
  type Numbered = (int, string, Json)

  /** Every key of `d` with the number `number` reads out of it, in dict order; fails if any key has none. */
  function NumberBy(d: Dict<Json>, number: string -> Option<int>): (r: Result<seq<Numbered>>)
    ensures r.Ok? ==> |r.value| == |d|
    ensures r.Ok? ==> forall k :: 0 <= k < |d| ==>
              r.value[k].1 == d[k].0 && r.value[k].2 == d[k].1 && Some(r.value[k].0) == number(d[k].0)
    ensures r.Err? <==> exists k :: 0 <= k < |d| && number(d[k].0).None?
    decreases |d|
  {
    if |d| == 0 then Ok([])
    else
      var n := number(d[0].0);
      var rest := NumberBy(d[1..], number);
      assert forall k :: 1 <= k < |d| ==> d[k] == d[1..][k - 1];
      if n.None? then Err("ValueError: invalid literal for int() with base 10")
      else if rest.Err? then Err(rest.msg)
      else Ok([(n.value, d[0].0, d[0].1)] + rest.value)
  }

  /** Every key of `d` with its slide number, in dict order; fails if any key has no number. */
  function NumberSlides(d: Dict<Json>): (r: Result<seq<Numbered>>)
    ensures r.Ok? ==> |r.value| == |d|
    ensures r.Ok? ==> forall k :: 0 <= k < |d| ==>
              r.value[k].1 == d[k].0 && r.value[k].2 == d[k].1 && Some(r.value[k].0) == SlideNumber(d[k].0)
    ensures r.Err? <==> exists k :: 0 <= k < |d| && SlideNumber(d[k].0).None?
  {
    NumberBy(d, SlideNumber)
  }

  predicate SortedByNumber(s: seq<Numbered>) {
    forall a, b :: 0 <= a < b < |s| ==> s[a].0 <= s[b].0
  }

  /** The elements of `s` numbered n, in order. */
  function WithNumber(s: seq<Numbered>, n: int): seq<Numbered>
    decreases |s|
  {
    if |s| == 0 then []
    else WithNumber(s[..|s| - 1], n) + (if s[|s| - 1].0 == n then [s[|s| - 1]] else [])
  }

  /** Insert x after every element whose number is at most x's (so equal numbers keep their order). */
  function InsertByNumber(s: seq<Numbered>, x: Numbered): (r: seq<Numbered>)
    ensures multiset(r) == multiset(s) + multiset{x}
    decreases |s|
  {
    if |s| == 0 || s[|s| - 1].0 <= x.0 then s + [x]
    else
      assert s == s[..|s| - 1] + [s[|s| - 1]];
      InsertByNumber(s[..|s| - 1], x) + [s[|s| - 1]]
  }

  /** Python's `sorted(..., key=number)`: a stable insertion sort. */
  function SortByNumber(xs: seq<Numbered>): (r: seq<Numbered>)
    ensures multiset(r) == multiset(xs)
    decreases |xs|
  {
    if |xs| == 0 then []
    else
      assert xs == xs[..|xs| - 1] + [xs[|xs| - 1]];
      InsertByNumber(SortByNumber(xs[..|xs| - 1]), xs[|xs| - 1])
  }

  lemma {:induction false} InsertByNumberSorted(s: seq<Numbered>, x: Numbered)
    requires SortedByNumber(s)
    ensures SortedByNumber(InsertByNumber(s, x))
    decreases |s|
  {
    if |s| > 0 && s[|s| - 1].0 > x.0 {
      var init := s[..|s| - 1];
      var last := s[|s| - 1];
      InsertByNumberSorted(init, x);
      var t := InsertByNumber(init, x);
      forall a | 0 <= a < |t| ensures t[a].0 <= last.0 {
        assert t[a] in multiset(t);
        if t[a] != x {
          assert t[a] in multiset(init);
          var b :| 0 <= b < |init| && init[b] == t[a];
          assert s[b] == t[a];
        }
      }
    }
  }

  lemma WithNumberSnoc(s: seq<Numbered>, y: Numbered, n: int)
    ensures WithNumber(s + [y], n) == WithNumber(s, n) + (if y.0 == n then [y] else [])
  {
    assert (s + [y])[..|s|] == s;
  }

  lemma {:induction false} InsertByNumberStable(s: seq<Numbered>, x: Numbered, n: int)
    ensures WithNumber(InsertByNumber(s, x), n) == WithNumber(s, n) + (if x.0 == n then [x] else [])
    decreases |s|
  {
    if |s| == 0 || s[|s| - 1].0 <= x.0 {
      WithNumberSnoc(s, x, n);
    } else {
      var init := s[..|s| - 1];
      var last := s[|s| - 1];
      InsertByNumberStable(init, x, n);
      WithNumberSnoc(InsertByNumber(init, x), last, n);
      assert InsertByNumber(s, x) == InsertByNumber(init, x) + [last];
      assert WithNumber(s, n) == WithNumber(init, n) + (if last.0 == n then [last] else []);
    }
  }

  /**
   * The slides come out in ascending numeric order, as a permutation of the input, and
   * slides with equal numbers keep their dict order (Python's sort is stable).
   */
  lemma {:induction false} SortByNumberCorrect(xs: seq<Numbered>)
    ensures SortedByNumber(SortByNumber(xs))
    ensures multiset(SortByNumber(xs)) == multiset(xs)
    ensures forall n :: WithNumber(SortByNumber(xs), n) == WithNumber(xs, n)
    decreases |xs|
  {
    if |xs| > 0 {
      var init := xs[..|xs| - 1];
      var last := xs[|xs| - 1];
      SortByNumberCorrect(init);
      InsertByNumberSorted(SortByNumber(init), last);
      forall n ensures WithNumber(SortByNumber(xs), n) == WithNumber(xs, n) {
        InsertByNumberStable(SortByNumber(init), last, n);
      }
    }
  }

  /** An input already in ascending order is left as it is. */
  lemma {:induction false} SortByNumberSorted(xs: seq<Numbered>)
    requires SortedByNumber(xs)
    ensures SortByNumber(xs) == xs
    decreases |xs|
  {
    if |xs| > 0 {
      var init := xs[..|xs| - 1];
      var last := xs[|xs| - 1];
      SortedInit(xs);
      SortByNumberSorted(init);
      InsertAtEnd(init, last);
      assert init + [last] == xs;
    }
  }

  /** A slide numbered at least as high as the last one is appended. */
  lemma InsertAtEnd(s: seq<Numbered>, x: Numbered)
    requires |s| == 0 || s[|s| - 1].0 <= x.0
    ensures InsertByNumber(s, x) == s + [x]
  {
  }

  /** Dropping the last slide keeps the order, and that slide's number is the largest. */
  lemma SortedInit(xs: seq<Numbered>)
    requires SortedByNumber(xs) && |xs| > 0
    ensures SortedByNumber(xs[..|xs| - 1])
    ensures |xs| > 1 ==> xs[..|xs| - 1][|xs| - 2].0 <= xs[|xs| - 1].0
  {
    var init := xs[..|xs| - 1];
    forall a, b | 0 <= a < b < |init| ensures init[a].0 <= init[b].0 {
      assert init[a] == xs[a] && init[b] == xs[b];
    }
  }

  // ---------------------------------------------------------------------------
  // Rendering

  /** `s{num}paragraph1` and `audio_url{num}` for the digits `num` of a slide key. */
  function ParagraphKeyOf(key: string): string { "s" + ReplaceAll(key, "slide", "") + "paragraph1" }
  function AudioKeyOf(key: string): string { "audio_url" + ReplaceAll(key, "slide", "") }

  /**
   * One slide of the loop: rendered only when both its paragraph and its audio key are
   * `in` the slide value, otherwise "". The paragraph must be a str (it is `replace`d);
   * the audio URL is formatted with `str()`.
   */
  function RenderSlide(key: string, data: Json): (r: Result<string>)
    ensures data.Obj? && r.Ok? ==>
              (r.value == "" <==> !(HasKey(data.fields, ParagraphKeyOf(key)) && HasKey(data.fields, AudioKeyOf(key))))
    ensures data.Obj? ==>
              (r.Err? <==> HasKey(data.fields, ParagraphKeyOf(key)) && HasKey(data.fields, AudioKeyOf(key))
                           && (!Lookup(data.fields, ParagraphKeyOf(key)).value.Str?
                               || PyStr(Lookup(data.fields, AudioKeyOf(key)).value).Err?))
    ensures data.Obj? && r.Ok? && HasKey(data.fields, ParagraphKeyOf(key)) && HasKey(data.fields, AudioKeyOf(key)) ==>
              && Lookup(data.fields, ParagraphKeyOf(key)).value.Str?
              && PyStr(Lookup(data.fields, AudioKeyOf(key)).value).Ok?
              && r.value == GenerateSlide(SlideParagraph(Lookup(data.fields, ParagraphKeyOf(key)).value.s),
                                          PyStr(Lookup(data.fields, AudioKeyOf(key)).value).value)
  {
    if data.Null? || data.Bool? || data.Num? then Err("TypeError: argument is not iterable")
    else if !(PyContains(data, ParagraphKeyOf(key)).value && PyContains(data, AudioKeyOf(key)).value) then Ok("")
    else if !data.Obj? then Err("TypeError: indices must be integers")
    else
      var raw := Lookup(data.fields, ParagraphKeyOf(key)).value;
      var audio := Lookup(data.fields, AudioKeyOf(key)).value;
      if !raw.Str? then Err("AttributeError: no attribute 'replace'")
      else
        match PyStr(audio)
        case Err(m) => Err(m)
        case Ok(audioUrl) => Ok(GenerateSlide(SlideParagraph(raw.s), audioUrl))
  }

  /** The concatenated pages of the slides, in the given order; the first failure wins. */
  function RenderAll(order: seq<Numbered>): Result<string>
    decreases |order|
  {
    if |order| == 0 then Ok("")
    else
      var page :- RenderSlide(order[0].1, order[0].2);
      var rest :- RenderAll(order[1..]);
      Ok(page + rest)
  }

  /** The pages render exactly when every slide renders on its own: one failure fails them all. */
  lemma {:induction false} RenderAllOk(order: seq<Numbered>)
    ensures RenderAll(order).Ok? <==> forall k :: 0 <= k < |order| ==> RenderSlide(order[k].1, order[k].2).Ok?
    decreases |order|
  {
    if |order| > 0 {
      RenderAllOk(order[1..]);
      assert forall k :: 1 <= k < |order| ==> order[1..][k - 1] == order[k];
    }
  }

  /**
   * What `process_amp_template` returns: a ValueError without the placeholder, the sort's
   * ValueError for a key without a number, otherwise the template with every placeholder
   * occurrence replaced by the pages in ascending slide order.
   */
  function AmpPage(template: string, data: Dict<Json>): (r: Result<string>)
    ensures !Contains(template, SlidesPlaceholder) ==> r.Err?
    ensures NumberSlides(data).Err? ==> r.Err?
    ensures r.Ok? <==> && Contains(template, SlidesPlaceholder) && NumberSlides(data).Ok?
                       && RenderAll(SortByNumber(NumberSlides(data).value)).Ok?
    ensures r.Ok? ==>
              && NumberSlides(data).Ok? && RenderAll(SortByNumber(NumberSlides(data).value)).Ok?
              && r.value == ReplaceAll(template, SlidesPlaceholder, RenderAll(SortByNumber(NumberSlides(data).value)).value)
  {
    if !Contains(template, SlidesPlaceholder) then
      Err("ValueError: Placeholder <!--INSERT_SLIDES_HERE--> not found in uploaded HTML.")
    else
      var numbered :- NumberSlides(data);
      var slides :- RenderAll(SortByNumber(numbered));
      Ok(ReplaceAll(template, SlidesPlaceholder, slides))
  }

  /** What is left to render after `done` pages, prefixed by the pages already built. */
  function Prefixed(done: string, rest: Result<string>): Result<string> {
    if rest.Ok? then Ok(done + rest.value) else rest
  }

  /** One turn of the render loop: a page that renders joins the pages already built. */
  lemma RenderAllStep(order: seq<Numbered>, i: nat, done: string)
    requires i < |order| && RenderSlide(order[i].1, order[i].2).Ok?
    requires RenderAll(order) == Prefixed(done, RenderAll(order[i..]))
    ensures RenderAll(order) == Prefixed(done + RenderSlide(order[i].1, order[i].2).value, RenderAll(order[i + 1..]))
  {
    assert order[i..][1..] == order[i + 1..];
    var page := RenderSlide(order[i].1, order[i].2).value;
    assert RenderAll(order[i..]) == Prefixed(page, RenderAll(order[i + 1..]));
    PrefixedTwice(done, page, RenderAll(order[i + 1..]));
  }

  lemma PrefixedTwice(done: string, page: string, rest: Result<string>)
    ensures Prefixed(done, Prefixed(page, rest)) == Prefixed(done + page, rest)
  {
    if rest.Ok? {
      assert done + (page + rest.value) == (done + page) + rest.value;
    }
  }

  /** A page that fails to render makes the whole rendering fail with its error. */
  lemma RenderAllFails(order: seq<Numbered>, i: nat, done: string)
    requires i < |order| && RenderSlide(order[i].1, order[i].2).Err?
    requires RenderAll(order) == Prefixed(done, RenderAll(order[i..]))
    ensures RenderAll(order) == Err(RenderSlide(order[i].1, order[i].2).msg)
  {
  }

  method ProcessAmpTemplate(templateHtml: string, outputData: Dict<Json>) returns (r: Result<string>)
    ensures r == AmpPage(templateHtml, outputData)
  {
    if !Contains(templateHtml, SlidesPlaceholder) {
      return Err("ValueError: Placeholder <!--INSERT_SLIDES_HERE--> not found in uploaded HTML.");
    }
    var numbered :- NumberSlides(outputData);
    var order := SortByNumber(numbered);
    var allSlides := "";
    var i := 0;
    assert order[0..] == order;
    assert RenderAll(order).Ok? ==> "" + RenderAll(order).value == RenderAll(order).value;
    while i < |order|
      invariant 0 <= i <= |order|
      invariant RenderAll(order) == Prefixed(allSlides, RenderAll(order[i..]))
    {
      var page := RenderSlide(order[i].1, order[i].2);
      if page.Err? {
        RenderAllFails(order, i, allSlides);
        return Err(page.msg);
      }
      RenderAllStep(order, i, allSlides);
      allSlides := allSlides + page.value;
      i := i + 1;
    }
    assert allSlides + "" == allSlides;
    r := Ok(ReplaceAll(templateHtml, SlidesPlaceholder, allSlides));
  }

  /** With no slide to render, the placeholder is simply removed. */
  lemma AmpPageNoSlides(template: string)
    requires Contains(template, SlidesPlaceholder)
    ensures AmpPage(template, []) == Ok(ReplaceAll(template, SlidesPlaceholder, ""))
  {
  }

  /** A slide key without a number (such as "cover") makes the whole page fail. */
  lemma AmpPageRejectsUnnumbered(template: string, data: Dict<Json>, k: nat)
    requires k < |data| && SlideNumber(data[k].0).None?
    ensures AmpPage(template, data).Err?
  {
  }

  // ---------------------------------------------------------------------------
  // From modify_tab4_json to process_amp_template

  /** A tab-4 entry whose paragraph and audio URL are strs. */
  predicate PlainEntry(e: (nat, Json)) {
    && e.1.Obj? && |e.1.fields| == 3
    && e.1.fields[0].0 == ParagraphKey(e.0) && e.1.fields[0].1.Str?
    && e.1.fields[1].0 == AudioUrlKey(e.0) && e.1.fields[1].1.Str?
  }

  /** The page a plain entry renders to. */
  function EntryPage(e: (nat, Json)): string
    requires PlainEntry(e)
  {
    GenerateSlide(SlideParagraph(e.1.fields[0].1.s), e.1.fields[1].1.s)
  }

  function EntryPages(entries: seq<(nat, Json)>): string
    requires forall k :: 0 <= k < |entries| ==> PlainEntry(entries[k])
    decreases |entries|
  {
    if |entries| == 0 then "" else EntryPage(entries[0]) + EntryPages(entries[1..])
  }

  /** The numbered view of a tab-4 entry as the sort sees it. */
  function AsNumbered(entries: seq<(nat, Json)>): (r: seq<Numbered>)
    ensures |r| == |entries|
    ensures forall k :: 0 <= k < |entries| ==> r[k] == (entries[k].0 as int, SlideKey(entries[k].0), entries[k].1)
  {
    seq(|entries|, k requires 0 <= k < |entries| => (entries[k].0 as int, SlideKey(entries[k].0), entries[k].1))
  }

  /** The paragraph and audio keys the renderer derives from `slide{n}` are those of slide n. */
  lemma SlideKeyFields(n: nat)
    ensures ParagraphKeyOf(SlideKey(n)) == ParagraphKey(n) && AudioKeyOf(SlideKey(n)) == AudioUrlKey(n)
  {
    SlideKeySuffix(n);
  }

  lemma NumberEncoded(entries: seq<(nat, Json)>)
    ensures NumberSlides(EncodeSlides(entries)) == Ok(AsNumbered(entries))
  {
    var e := EncodeSlides(entries);
    forall k | 0 <= k < |e| ensures SlideNumber(e[k].0) == Some(entries[k].0 as int) {
      SlideKeyNumber(entries[k].0);
    }
    var r := NumberSlides(e);
    assert r.Ok?;
    assert r.value == AsNumbered(entries);
  }

  lemma RenderPlainEntry(e: (nat, Json))
    requires PlainEntry(e)
    ensures RenderSlide(SlideKey(e.0), e.1) == Ok(EntryPage(e))
  {
    SlideKeyFields(e.0);
    var f := e.1.fields;
    assert Keys(f)[0] == ParagraphKey(e.0);
    assert Keys(f)[1] == AudioUrlKey(e.0);
    assert ParagraphKey(e.0)[0] != AudioUrlKey(e.0)[0];
    assert Lookup(f[1..], AudioUrlKey(e.0)) == Some(f[1].1);
  }

  lemma {:induction false} RenderAllPlain(entries: seq<(nat, Json)>)
    requires forall k :: 0 <= k < |entries| ==> PlainEntry(entries[k])
    ensures RenderAll(AsNumbered(entries)) == Ok(EntryPages(entries))
    decreases |entries|
  {
    if |entries| > 0 {
      AsNumberedCons(entries);
      RenderPlainEntry(entries[0]);
      RenderAllPlain(entries[1..]);
    }
  }

  lemma AsNumberedCons(entries: seq<(nat, Json)>)
    requires |entries| > 0
    ensures AsNumbered(entries)[0].1 == SlideKey(entries[0].0) && AsNumbered(entries)[0].2 == entries[0].1
    ensures AsNumbered(entries)[1..] == AsNumbered(entries[1..])
  {
  }

  /**
   * What `modify_tab4_json` produces is exactly what `process_amp_template` renders: when
   * the re-keyed paragraphs and audio URLs are strs, every entry becomes one page, in
   * slide order, and nothing is skipped.
   */
  lemma Tab4ThenAmp(template: string, d: Dict<Json>)
    requires Contains(template, SlidesPlaceholder)
    requires Tab4Slides(d).Ok?
    requires forall k :: 0 <= k < |Tab4Slides(d).value| ==> PlainEntry(Tab4Slides(d).value[k])
    ensures AmpPage(template, EncodeSlides(Tab4Slides(d).value))
         == Ok(ReplaceAll(template, SlidesPlaceholder, EntryPages(Tab4Slides(d).value)))
  {
    var entries := Tab4Slides(d).value;
    Tab4Numbering(d);
    NumberEncoded(entries);
    SortByNumberSorted(AsNumbered(entries));
    RenderAllPlain(entries);
  }
}
