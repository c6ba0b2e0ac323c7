/**
 * The dict builders and string helpers of app/utils/helpers.py: the structured script
 * (`storytitle`, `s1paragraph1` .. `s{N}paragraph1`, `hookline`), its re-derivation from an
 * LLM slide list, the cover-image flattening of slide-keyed JSON, HTML text cleaning, the
 * slug and canonical URLs of a story, and the response envelopes.
 */
module Helpers {
  import opened Wrappers
  import opened Text
  import opened PyJson
  import opened SlideKeys

  const NoGet := "AttributeError: object has no attribute 'get'"
  const NotStr := "AttributeError: object has no attribute 'strip'"

  // ---------------------------------------------------------------------------
  // Dicts filled by a numbered loop

  /**
   * The dict a loop `for i in 1..k: d[key(i)] = entry(i)` builds from an empty dict when the
   * keys are distinct; the first entry that raises is the loop's exception.
   */
  function BuildDict(key: nat -> string, entry: nat -> Result<Json>, k: nat): Result<Dict<Json>>
  {
    if k == 0 then Ok([])
    else
      var before :- BuildDict(key, entry, k - 1);
      var v :- entry(k);
      Ok(before + [(key(k), v)])
  }

  /** A completed loop made one entry per iteration. */
  lemma {:induction false} BuildDictLength(key: nat -> string, entry: nat -> Result<Json>, k: nat, d: Dict<Json>)
    requires BuildDict(key, entry, k) == Ok(d)
    ensures |d| == k
  {
    if k > 0 {
      BuildDictLength(key, entry, k - 1, BuildDict(key, entry, k - 1).value);
    }
  }

  /** Iteration j + 1 left `entry(j + 1)` under `key(j + 1)` at position j. */
  lemma {:induction false} BuildDictAt(key: nat -> string, entry: nat -> Result<Json>, k: nat, d: Dict<Json>, j: nat)
    requires BuildDict(key, entry, k) == Ok(d) && j < k
    ensures |d| == k && entry(j + 1).Ok? && d[j] == (key(j + 1), entry(j + 1).value)
  {
    var before := BuildDict(key, entry, k - 1).value;
    BuildDictLength(key, entry, k - 1, before);
    BuildDictLength(key, entry, k, d);
    if j < k - 1 {
      BuildDictAt(key, entry, k - 1, before, j);
    }
  }

  /** Once an entry has raised, the later iterations are never reached. */
  lemma {:induction false} BuildDictFailed(key: nat -> string, entry: nat -> Result<Json>, i: nat, k: nat)
    requires i <= k && BuildDict(key, entry, i).Err?
    ensures BuildDict(key, entry, k) == BuildDict(key, entry, i)
    decreases k
  {
    if k > i {
      BuildDictFailed(key, entry, i, k - 1);
    }
  }

  /** A dict keyed `s1paragraph1 .. s{k}paragraph1` has no title key and no later paragraph key. */
  lemma ParagraphDictFresh(entry: nat -> Result<Json>, k: nat, d: Dict<Json>, i: nat)
    requires BuildDict(ParagraphKey, entry, k) == Ok(d) && k < i
    ensures forall m :: 0 <= m < |d| ==> d[m].0 != ParagraphKey(i) && d[m].0 != "storytitle" && d[m].0 != "hookline"
  {
    BuildDictLength(ParagraphKey, entry, k, d);
    forall m | 0 <= m < |d|
      ensures d[m].0 != ParagraphKey(i) && d[m].0 != "storytitle" && d[m].0 != "hookline"
    {
      BuildDictAt(ParagraphKey, entry, k, d, m);
      if ParagraphKey(m + 1) == ParagraphKey(i) {
        ParagraphKeyInjective(m + 1, i);
      }
      ParagraphKeyShape(m + 1);
    }
  }

  /** The paragraph keys `s1paragraph1 .. s{k}paragraph1` are pairwise distinct. */
  lemma ParagraphDictUnique(entry: nat -> Result<Json>, k: nat, d: Dict<Json>)
    requires BuildDict(ParagraphKey, entry, k) == Ok(d)
    ensures UniqueKeys(d)
  {
    BuildDictLength(ParagraphKey, entry, k, d);
    forall a, b | 0 <= a < b < |d| ensures d[a].0 != d[b].0 {
      BuildDictAt(ParagraphKey, entry, k, d, a);
      BuildDictAt(ParagraphKey, entry, k, d, b);
      if d[a].0 == d[b].0 {
        ParagraphKeyInjective(a + 1, b + 1);
      }
    }
  }

  // ---------------------------------------------------------------------------
  // create_structured_output

  /** `range(1, n + 1)` is empty for a negative n. */
  function SlideCount(numberOfSlides: int): nat { if numberOfSlides < 0 then 0 else numberOfSlides }

  /** `slide.get("script", slide.get("title", ""))`; only a dict has `get`. */
  function ScriptOrTitle(slide: Json): (r: Result<Json>)
    ensures r.Ok? <==> slide.Obj?
    ensures slide.Obj? && HasKey(slide.fields, "script") ==> Some(r.value) == Lookup(slide.fields, "script")
    ensures slide.Obj? && !HasKey(slide.fields, "script") ==> r.value == GetOr(slide.fields, "title", Str(""))
  {
    if slide.Obj? then Ok(GetOr(slide.fields, "script", GetOr(slide.fields, "title", Str(""))))
    else Err(NoGet)
  }

  /** The value under `s{i}paragraph1`: from slide i when there is one, "" past the last slide. */
  function StructuredEntry(slides: seq<Json>): nat -> Result<Json>
  {
    (i: nat) => if 1 <= i <= |slides| then ScriptOrTitle(slides[i - 1]) else Ok(Str(""))
  }

  /** The dict `create_structured_output` returns. */
  function StructuredOutput(storytitle: string, hookline: string, slides: seq<Json>, numberOfSlides: int)
    : Result<Dict<Json>>
  {
    var paragraphs :- BuildDict(ParagraphKey, StructuredEntry(slides), SlideCount(numberOfSlides));
    Ok([("storytitle", Str(storytitle))] + paragraphs + [("hookline", Str(hookline))])
  }

  /** A title entry in front of fresh keys leaves a key fresh. */
  lemma ConsFresh(x: (string, Json), d: Dict<Json>, k: string)
    requires x.0 != k && forall m :: 0 <= m < |d| ==> d[m].0 != k
    ensures forall m :: 0 <= m < |[x] + d| ==> ([x] + d)[m].0 != k
  {
    assert forall m :: 1 <= m < |[x] + d| ==> ([x] + d)[m] == d[m - 1];
  }

  /** The positions of `[a] + p + [b]`. */
  lemma Framed<T>(a: T, p: seq<T>, b: T)
    ensures |[a] + p + [b]| == |p| + 2
    ensures ([a] + p + [b])[0] == a && ([a] + p + [b])[|p| + 1] == b
    ensures forall i :: 1 <= i <= |p| ==> ([a] + p + [b])[i] == p[i - 1]
  {
  }

  lemma StructuredEntryAt(slides: seq<Json>, i: nat)
    ensures StructuredEntry(slides)(i) == if 1 <= i <= |slides| then ScriptOrTitle(slides[i - 1]) else Ok(Str(""))
  {
  }

  /** One iteration of the paragraph loop: `s{i}paragraph1` is a fresh key, so it is appended. */
  lemma ParagraphStep(entry: nat -> Result<Json>, head: (string, Json), i: nat, before: Dict<Json>, value: Json)
    requires 1 <= i && BuildDict(ParagraphKey, entry, i - 1) == Ok(before) && entry(i) == Ok(value)
    requires head.0 == "storytitle"
    ensures BuildDict(ParagraphKey, entry, i) == Ok(before + [(ParagraphKey(i), value)])
    ensures Put([head] + before, ParagraphKey(i), value) == [head] + (before + [(ParagraphKey(i), value)])
  {
    ParagraphDictFresh(entry, i - 1, before, i);
    ParagraphKeyShape(i);
    ConsFresh(head, before, ParagraphKey(i));
    PutFresh([head] + before, ParagraphKey(i), value);
  }

  lemma StructuredOutputOk(storytitle: string, hookline: string, slides: seq<Json>, numberOfSlides: int, p: Dict<Json>)
    requires BuildDict(ParagraphKey, StructuredEntry(slides), SlideCount(numberOfSlides)) == Ok(p)
    ensures StructuredOutput(storytitle, hookline, slides, numberOfSlides) ==
              Ok([("storytitle", Str(storytitle))] + p + [("hookline", Str(hookline))])
  {
  }

  lemma StructuredOutputErr(storytitle: string, hookline: string, slides: seq<Json>, numberOfSlides: int, msg: string)
    requires BuildDict(ParagraphKey, StructuredEntry(slides), SlideCount(numberOfSlides)) == Err(msg)
    ensures StructuredOutput(storytitle, hookline, slides, numberOfSlides) == Err(msg)
  {
  }

  /** The closing `hookline` key is new after the title and the paragraphs. */
  lemma HooklineStep(entry: nat -> Result<Json>, head: (string, Json), k: nat, paragraphs: Dict<Json>, hook: Json)
    requires BuildDict(ParagraphKey, entry, k) == Ok(paragraphs) && head.0 == "storytitle"
    ensures Put([head] + paragraphs, "hookline", hook) == [head] + paragraphs + [("hookline", hook)]
  {
    ParagraphDictFresh(entry, k, paragraphs, k + 1);
    ConsFresh(head, paragraphs, "hookline");
    PutFresh([head] + paragraphs, "hookline", hook);
  }

  /** Lines 53-56 for position i. */
  method ParagraphValue(slides: seq<Json>, i: nat) returns (r: Result<Json>)
    ensures r == StructuredEntry(slides)(i)
  {
    StructuredEntryAt(slides, i);
    if 1 <= i <= |slides| {
      if !slides[i - 1].Obj? {
        return Err(NoGet);
      }
      return Ok(GetOr(slides[i - 1].fields, "script", GetOr(slides[i - 1].fields, "title", Str(""))));
    }
    return Ok(Str(""));
  }

  method CreateStructuredOutput(storytitle: string, hookline: string, slides: seq<Json>, numberOfSlides: int)
    returns (r: Result<Dict<Json>>)
    ensures r == StructuredOutput(storytitle, hookline, slides, numberOfSlides)
  {
    ghost var entry := StructuredEntry(slides);
    var head := ("storytitle", Str(storytitle));
    var structuredOutput := [head];
    var i := 1;
    while i <= numberOfSlides
      invariant 1 <= i && i - 1 <= SlideCount(numberOfSlides)
      invariant BuildDict(ParagraphKey, entry, i - 1).Ok?
      invariant structuredOutput == [head] + BuildDict(ParagraphKey, entry, i - 1).value
    {
      var value := ParagraphValue(slides, i);
      if value.Err? {
        BuildDictFailed(ParagraphKey, entry, i, SlideCount(numberOfSlides));
        StructuredOutputErr(storytitle, hookline, slides, numberOfSlides, value.msg);
        return Err(value.msg);
      }
      ParagraphStep(entry, head, i, BuildDict(ParagraphKey, entry, i - 1).value, value.value);
      structuredOutput := Put(structuredOutput, ParagraphKey(i), value.value);
      i := i + 1;
    }
    assert i - 1 == SlideCount(numberOfSlides);
    ghost var paragraphs := BuildDict(ParagraphKey, entry, i - 1).value;
    HooklineStep(entry, head, i - 1, paragraphs, Str(hookline));
    StructuredOutputOk(storytitle, hookline, slides, numberOfSlides, paragraphs);
    structuredOutput := Put(structuredOutput, "hookline", Str(hookline));
    return Ok(structuredOutput);
  }

  /** The structured script fails exactly when one of the first N slides is not a dict. */
  lemma StructuredOutputFails(storytitle: string, hookline: string, slides: seq<Json>, numberOfSlides: int)
    ensures StructuredOutput(storytitle, hookline, slides, numberOfSlides).Ok? <==>
              forall m :: 0 <= m < |slides| && m < SlideCount(numberOfSlides) ==> slides[m].Obj?
  {
    StructuredPrefixFail(slides, SlideCount(numberOfSlides));
  }

  /** The first k iterations complete exactly when none of the first k slides is a non-dict. */
  lemma {:induction false} StructuredPrefixFail(slides: seq<Json>, k: nat)
    ensures BuildDict(ParagraphKey, StructuredEntry(slides), k).Ok? <==>
              forall m :: 0 <= m < |slides| && m < k ==> slides[m].Obj?
  {
    if k > 0 {
      var entry := StructuredEntry(slides);
      StructuredPrefixFail(slides, k - 1);
      StructuredEntryAt(slides, k);
      assert BuildDict(ParagraphKey, entry, k).Ok? <==> BuildDict(ParagraphKey, entry, k - 1).Ok? && entry(k).Ok?;
      assert entry(k).Ok? <==> k > |slides| || slides[k - 1].Obj?;
      if BuildDict(ParagraphKey, entry, k - 1).Err? {
        var m :| 0 <= m < |slides| && m < k - 1 && !slides[m].Obj?;
        assert !BuildDict(ParagraphKey, entry, k).Ok? && !(forall m :: 0 <= m < |slides| && m < k ==> slides[m].Obj?);
      } else if entry(k).Ok? {
        assert BuildDict(ParagraphKey, entry, k).Ok?;
        forall m | 0 <= m < |slides| && m < k ensures slides[m].Obj? {
          if m < k - 1 {
            assert 0 <= m < |slides| && m < k - 1;
          }
        }
      } else {
        assert k - 1 < |slides| && !slides[k - 1].Obj?;
      }
    }
  }

  /**
   * The structured script is `storytitle`, `s1paragraph1` .. `s{N}paragraph1`, `hookline`:
   * position i holds slide i's script (else its title, else "") and positions past the last
   * slide hold "". Slides past N are dropped.
   */
  lemma StructuredOutputSlides(storytitle: string, hookline: string, slides: seq<Json>, numberOfSlides: int,
                               d: Dict<Json>)
    requires StructuredOutput(storytitle, hookline, slides, numberOfSlides) == Ok(d)
    ensures |d| == SlideCount(numberOfSlides) + 2
    ensures d[0] == ("storytitle", Str(storytitle)) && d[|d| - 1] == ("hookline", Str(hookline))
    ensures forall i :: 1 <= i <= SlideCount(numberOfSlides) ==> d[i].0 == ParagraphKey(i)
    ensures forall i :: 1 <= i <= SlideCount(numberOfSlides) && i <= |slides| ==> Ok(d[i].1) == ScriptOrTitle(slides[i - 1])
    ensures forall i :: |slides| < i <= SlideCount(numberOfSlides) ==> d[i].1 == Str("")
  {
    var entry := StructuredEntry(slides);
    var n := SlideCount(numberOfSlides);
    var p := BuildDict(ParagraphKey, entry, n).value;
    BuildDictLength(ParagraphKey, entry, n, p);
    Framed(("storytitle", Str(storytitle)), p, ("hookline", Str(hookline)));
    forall i | 1 <= i <= n
      ensures d[i].0 == ParagraphKey(i)
      ensures i <= |slides| ==> Ok(d[i].1) == ScriptOrTitle(slides[i - 1])
      ensures i > |slides| ==> d[i].1 == Str("")
    {
      BuildDictAt(ParagraphKey, entry, n, p, i - 1);
      assert d[i] == p[i - 1];
      StructuredEntryAt(slides, i);
    }
  }

  /** The `number_of_slides + 2` keys of the structured script are pairwise distinct. */
  lemma StructuredOutputUnique(storytitle: string, hookline: string, slides: seq<Json>, numberOfSlides: int,
                               d: Dict<Json>)
    requires StructuredOutput(storytitle, hookline, slides, numberOfSlides) == Ok(d)
    ensures UniqueKeys(d)
  {
    var entry := StructuredEntry(slides);
    var n := SlideCount(numberOfSlides);
    var p := BuildDict(ParagraphKey, entry, n).value;
    BuildDictLength(ParagraphKey, entry, n, p);
    Framed(("storytitle", Str(storytitle)), p, ("hookline", Str(hookline)));
    ParagraphDictUnique(entry, n, p);
    ParagraphDictFresh(entry, n, p, n + 1);
    assert d == [("storytitle", Str(storytitle))] + p + [("hookline", Str(hookline))];
    forall a, b | 0 <= a < b < |d| ensures d[a].0 != d[b].0 {
      if a == 0 && b <= n {
        assert d[b].0 == p[b - 1].0;
      } else if 0 < a && b <= n {
        assert d[a].0 == p[a - 1].0 && d[b].0 == p[b - 1].0;
      } else if 0 < a {
        assert d[a].0 == p[a - 1].0;
      }
    }
  }

  // ---------------------------------------------------------------------------
  // restructure_slide_output

  const ContentUnavailable := "Content unavailable"

  /**
   * `final_output.get("slides", [])` as the sequence the for loop walks: a list gives its
   * items, an empty str or dict gives nothing; a non-empty str or dict yields str elements,
   * which have no `get`, and a number, a boolean or None is not iterable.
   */
  function SlideList(finalOutput: Dict<Json>): (r: Result<seq<Json>>)
    ensures !HasKey(finalOutput, "slides") ==> r == Ok([])
    ensures HasKey(finalOutput, "slides") && Lookup(finalOutput, "slides").value.Arr? ==>
              r == Ok(Lookup(finalOutput, "slides").value.items)
  {
    var slides := GetOr(finalOutput, "slides", Arr([]));
    if slides.Arr? then Ok(slides.items)
    else if slides == Str("") || slides == Obj([]) then Ok([])
    else if slides.Str? || slides.Obj? then Err(NoGet)
    else Err("TypeError: object is not iterable")
  }

  /** `slide.get("title") or slide.get("prompt") or "Content unavailable"`. */
  function Fallback(fields: Dict<Json>): (r: Json)
    ensures Truthy(r)
    ensures Truthy(GetOr(fields, "title", Null)) ==> r == GetOr(fields, "title", Null)
    ensures !Truthy(GetOr(fields, "title", Null)) && Truthy(GetOr(fields, "prompt", Null)) ==>
              r == GetOr(fields, "prompt", Null)
    ensures !Truthy(GetOr(fields, "title", Null)) && !Truthy(GetOr(fields, "prompt", Null)) ==>
              r == Str(ContentUnavailable)
  {
    var title := GetOr(fields, "title", Null);
    var prompt := GetOr(fields, "prompt", Null);
    if Truthy(title) then title else if Truthy(prompt) then prompt else Str(ContentUnavailable)
  }

  /**
   * The paragraph kept for one slide: its stripped script, or, when that is blank, the
   * stripped fallback. It never has surrounding whitespace, and a non-blank script always
   * wins. A slide that is not a dict, a script that is not a str and a non-str fallback raise.
   */
  function SlideScript(slide: Json): (r: Result<string>)
    ensures r.Ok? ==> Strip(r.value) == r.value
    ensures r.Ok? <==> slide.Obj? && GetOr(slide.fields, "script", Str("")).Str?
                       && (Strip(GetOr(slide.fields, "script", Str("")).s) == "" ==> Fallback(slide.fields).Str?)
    ensures r.Ok? && Strip(GetOr(slide.fields, "script", Str("")).s) != "" ==>
              r.value == Strip(GetOr(slide.fields, "script", Str("")).s)
    ensures r.Ok? && Strip(GetOr(slide.fields, "script", Str("")).s) == "" ==>
              Fallback(slide.fields).Str? && r.value == Strip(Fallback(slide.fields).s)
  {
    if !slide.Obj? then Err(NoGet)
    else
      var script := GetOr(slide.fields, "script", Str(""));
      if !script.Str? then Err(NotStr)
      else if Strip(script.s) != "" then
        StripIdempotent(script.s);
        Ok(Strip(script.s))
      else
        var fallback := Fallback(slide.fields);
        if fallback.Str? then
          StripIdempotent(fallback.s);
          Ok(Strip(fallback.s))
        else Err(NotStr)
  }

  /** A computed paragraph stored as a JSON str. */
  function StrResult(t: Result<string>): (r: Result<Json>)
    ensures r.Ok? <==> t.Ok?
    ensures t.Ok? ==> r.value == Str(t.value)
  {
    if t.Ok? then Ok(Str(t.value)) else Err(t.msg)
  }

  /** The value under `s{i}paragraph1`: the paragraph `script` makes of slide i. */
  function ScriptEntries(slides: seq<Json>, script: Json -> Result<string>): nat -> Result<Json>
  {
    (i: nat) => if 1 <= i <= |slides| then StrResult(script(slides[i - 1])) else Err("IndexError: list index out of range")
  }

  function RestructuredEntry(slides: seq<Json>): nat -> Result<Json> { ScriptEntries(slides, SlideScript) }

  lemma ScriptEntryAt(slides: seq<Json>, script: Json -> Result<string>, i: nat)
    requires 1 <= i <= |slides|
    ensures ScriptEntries(slides, script)(i) == StrResult(script(slides[i - 1]))
  {
  }

  lemma ScriptEntriesFail(slides: seq<Json>, script: Json -> Result<string>)
    ensures BuildDict(ParagraphKey, ScriptEntries(slides, script), |slides|).Ok? <==>
              forall m :: 0 <= m < |slides| ==> script(slides[m]).Ok?
  {
    ScriptPrefixFail(slides, script, |slides|);
  }

  /** The first k iterations complete exactly when none of the first k slides raises. */
  lemma {:induction false} ScriptPrefixFail(slides: seq<Json>, script: Json -> Result<string>, k: nat)
    requires k <= |slides|
    ensures BuildDict(ParagraphKey, ScriptEntries(slides, script), k).Ok? <==>
              forall m :: 0 <= m < k ==> script(slides[m]).Ok?
  {
    if k > 0 {
      var entry := ScriptEntries(slides, script);
      ScriptPrefixFail(slides, script, k - 1);
      ScriptEntryAt(slides, script, k);
      assert BuildDict(ParagraphKey, entry, k).Ok? <==> BuildDict(ParagraphKey, entry, k - 1).Ok? && entry(k).Ok?;
      assert entry(k).Ok? <==> script(slides[k - 1]).Ok?;
      if BuildDict(ParagraphKey, entry, k - 1).Err? {
        var m :| 0 <= m < k - 1 && !script(slides[m]).Ok?;
        assert !BuildDict(ParagraphKey, entry, k).Ok? && !(forall m :: 0 <= m < k ==> script(slides[m]).Ok?);
      } else if entry(k).Ok? {
        assert BuildDict(ParagraphKey, entry, k).Ok?;
        forall m | 0 <= m < k ensures script(slides[m]).Ok? {
          if m < k - 1 {
            assert 0 <= m < k - 1;
          }
        }
      } else {
        assert !script(slides[k - 1]).Ok?;
      }
    }
  }

  lemma ScriptEntriesValues(slides: seq<Json>, script: Json -> Result<string>, d: Dict<Json>)
    requires BuildDict(ParagraphKey, ScriptEntries(slides, script), |slides|) == Ok(d)
    ensures |d| == |slides| && UniqueKeys(d)
    ensures forall k :: 0 <= k < |d| ==> script(slides[k]).Ok? && d[k] == (ParagraphKey(k + 1), Str(script(slides[k]).value))
  {
    var entry := ScriptEntries(slides, script);
    BuildDictLength(ParagraphKey, entry, |slides|, d);
    ParagraphDictUnique(entry, |slides|, d);
    forall k | 0 <= k < |d| ensures script(slides[k]).Ok? && d[k] == (ParagraphKey(k + 1), Str(script(slides[k]).value)) {
      ScriptEntryValueAt(slides, script, d, k);
    }
  }

  lemma ScriptEntryValueAt(slides: seq<Json>, script: Json -> Result<string>, d: Dict<Json>, k: nat)
    requires BuildDict(ParagraphKey, ScriptEntries(slides, script), |slides|) == Ok(d) && k < |slides|
    ensures |d| == |slides| && script(slides[k]).Ok? && d[k] == (ParagraphKey(k + 1), Str(script(slides[k]).value))
  {
    var entry := ScriptEntries(slides, script);
    ScriptEntryAt(slides, script, k + 1);
    BuildDictAt(ParagraphKey, entry, |slides|, d, k);
    var t := script(slides[k]);
    assert entry(k + 1) == StrResult(t);
  }

  /** The dict `restructure_slide_output` returns. */
  function Restructured(finalOutput: Dict<Json>): Result<Dict<Json>>
  {
    var slides :- SlideList(finalOutput);
    BuildDict(ParagraphKey, RestructuredEntry(slides), |slides|)
  }

  /** Lines 33-38 for one slide, rebinding `script` as the source does. */
  method SlideParagraphOf(slide: Json) returns (r: Result<string>)
    ensures r == SlideScript(slide)
  {
    if !slide.Obj? {
      return Err(NoGet);
    }
    var script := GetOr(slide.fields, "script", Str(""));
    if !script.Str? {
      return Err(NotStr);
    }
    var text := Strip(script.s);
    if text == "" {
      var fallback := Fallback(slide.fields);
      if !fallback.Str? {
        return Err(NotStr);
      }
      text := Strip(fallback.s);
    }
    return Ok(text);
  }

  method RestructureSlideOutput(finalOutput: Dict<Json>) returns (r: Result<Dict<Json>>)
    ensures r == Restructured(finalOutput)
  {
    var listed := SlideList(finalOutput);
    if listed.Err? {
      return Err(listed.msg);
    }
    var slides := listed.value;
    ghost var entry := RestructuredEntry(slides);
    assert entry == ScriptEntries(slides, SlideScript);
    var structured: Dict<Json> := [];
    for idx := 0 to |slides|
      invariant BuildDict(ParagraphKey, entry, idx).Ok?
      invariant structured == BuildDict(ParagraphKey, entry, idx).value
    {
      var key := ParagraphKey(idx + 1);
      var script := SlideParagraphOf(slides[idx]);
      ScriptEntryAt(slides, SlideScript, idx + 1);
      if script.Err? {
        assert entry(idx + 1) == Err(script.msg);
        BuildDictFailed(ParagraphKey, entry, idx + 1, |slides|);
        return Err(script.msg);
      }
      assert entry(idx + 1) == Ok(Str(script.value));
      ParagraphDictFresh(entry, idx, structured, idx + 1);
      PutFresh(structured, key, Str(script.value));
      structured := Put(structured, key, Str(script.value));
    }
    return Ok(structured);
  }

  /** The output fails exactly when the slide list or one of its slides cannot be read. */
  lemma RestructuredFails(finalOutput: Dict<Json>, slides: seq<Json>)
    requires SlideList(finalOutput) == Ok(slides)
    ensures Restructured(finalOutput).Ok? <==> forall m :: 0 <= m < |slides| ==> SlideScript(slides[m]).Ok?
  {
    assert Restructured(finalOutput) == BuildDict(ParagraphKey, ScriptEntries(slides, SlideScript), |slides|);
    ScriptEntriesFail(slides, SlideScript);
  }

  /**
   * One key `s{k}paragraph1` per slide, k = 1 .. len(slides) with no gap, each holding that
   * slide's paragraph, which is stripped.
   */
  lemma RestructuredSlides(finalOutput: Dict<Json>, slides: seq<Json>, d: Dict<Json>)
    requires SlideList(finalOutput) == Ok(slides) && Restructured(finalOutput) == Ok(d)
    ensures |d| == |slides| && UniqueKeys(d)
    ensures forall k :: 0 <= k < |d| ==> SlideScript(slides[k]).Ok? && d[k] == (ParagraphKey(k + 1), Str(SlideScript(slides[k]).value))
    ensures forall k :: 0 <= k < |d| ==> d[k].1.Str? && Strip(d[k].1.s) == d[k].1.s
  {
    assert BuildDict(ParagraphKey, ScriptEntries(slides, SlideScript), |slides|) == Ok(d);
    ScriptEntriesValues(slides, SlideScript, d);
  }

  // ---------------------------------------------------------------------------
  // transform_suvichaar_json

  const CoverImageUrl := "https://media.suvichaar.org/upload/polaris/polariscover.png"
  const CoverCredit := "Suvichaar"

  /** `f"s{idx}{suffix}"` for the int parsed from a slide key; a negative number keeps its sign. */
  function NumberedKey(idx: int, suffix: string): string { "s" + IntToString(idx) + suffix }

  /** For a slide position the keys are the ones the other stages use. */
  lemma NumberedKeyOfNat(n: nat)
    ensures NumberedKey(n, "paragraph1") == ParagraphKey(n) && NumberedKey(n, "audio1") == Audio1Key(n)
    ensures NumberedKey(n, "image1") == Image1Key(n) && NumberedKey(n, "paragraph2") == Paragraph2Key(n)
  {
    IntToStringOfNat(n);
  }

  /** The position of the first field whose key contains "paragraph", in insertion order. */
  function FirstParagraphIndex(fields: Dict<Json>): (r: Option<nat>)
    ensures r.None? <==> forall m :: 0 <= m < |fields| ==> !Contains(fields[m].0, "paragraph")
    ensures r.Some? ==> r.value < |fields| && Contains(fields[r.value].0, "paragraph")
    ensures r.Some? ==> forall p :: 0 <= p < r.value ==> !Contains(fields[p].0, "paragraph")
    decreases |fields|
  {
    if |fields| == 0 then None
    else if Contains(fields[0].0, "paragraph") then Some(0)
    else
      var rest := FirstParagraphIndex(fields[1..]);
      assert forall m :: 1 <= m < |fields| ==> fields[m] == fields[1..][m - 1];
      if rest.Some? then Some(rest.value + 1) else None
  }

  /**
   * The text of a cover slide: its `storytitle`, else its `hookline`, else the value of the
   * first field whose key contains "paragraph", else "". It is always one of the slide's own
   * values or "".
   */
  function CoverText(fields: Dict<Json>): (r: Json)
    ensures r == Str("") || exists m :: 0 <= m < |fields| && fields[m].1 == r
    ensures HasKey(fields, "storytitle") ==> r == Lookup(fields, "storytitle").value
    ensures !HasKey(fields, "storytitle") && HasKey(fields, "hookline") ==> r == Lookup(fields, "hookline").value
    ensures !HasKey(fields, "storytitle") && !HasKey(fields, "hookline") ==>
              r == (match FirstParagraphIndex(fields) case Some(i) => fields[i].1 case None => Str(""))
  {
    if HasKey(fields, "storytitle") then Lookup(fields, "storytitle").value
    else if HasKey(fields, "hookline") then Lookup(fields, "hookline").value
    else
      var i := FirstParagraphIndex(fields);
      if i.Some? then fields[i.value].1 else Str("")
  }

  /**
   * The cover entry of one slide: the four fields keyed by the number read out of the slide
   * key. A key that is not "slide" around an int makes `int()` raise; a value that is not a
   * dict makes `in`, `[]` or `.items()` raise, whichever is reached first.
   */
  function CoverEntry(slideKey: string, info: Json): Result<Json>
  {
    var idx := SlideNumber(slideKey);
    if idx.None? then Err("ValueError: invalid literal for int()")
    else if !info.Obj? then Err("TypeError: slide is not a dict")
    else
      var n := idx.value;
      Ok(Obj([(NumberedKey(n, "paragraph1"), CoverText(info.fields)),
              (NumberedKey(n, "audio1"), GetOr(info.fields, "audio_url", Str(""))),
              (NumberedKey(n, "image1"), Str(CoverImageUrl)),
              (NumberedKey(n, "paragraph2"), Str(CoverCredit))]))
  }

  lemma CoverEntryFails(slideKey: string, info: Json)
    ensures CoverEntry(slideKey, info).Ok? <==> SlideNumber(slideKey).Some? && info.Obj?
  {
  }

  /*
   * The loop over `data.items()` is stated for any per-slide function `cover`, so that the
   * proofs about the loop never unfold `int()` on the keys; `cover` is CoverEntry throughout.
   */

  function TransformKey(data: Dict<Json>): nat -> string
  {
    (i: nat) => if 1 <= i <= |data| then data[i - 1].0 else ""
  }

  function TransformEntry(data: Dict<Json>, cover: (string, Json) -> Result<Json>): nat -> Result<Json>
  {
    (i: nat) => if 1 <= i <= |data| then cover(data[i - 1].0, data[i - 1].1) else Err("StopIteration")
  }

  lemma TransformAt(data: Dict<Json>, cover: (string, Json) -> Result<Json>, i: nat)
    requires 1 <= i <= |data|
    ensures TransformKey(data)(i) == data[i - 1].0
    ensures TransformEntry(data, cover)(i) == cover(data[i - 1].0, data[i - 1].1)
  {
  }

  /** The dict `transform_suvichaar_json` returns. */
  function Transformed(data: Dict<Json>): Result<Dict<Json>>
  {
    BuildDict(TransformKey(data), TransformEntry(data, CoverEntry), |data|)
  }

  /** One iteration: the slide key is new (the input is a dict), so its entry is appended. */
  lemma TransformStep(data: Dict<Json>, cover: (string, Json) -> Result<Json>, i: nat, before: Dict<Json>, e: Json)
    requires UniqueKeys(data) && i < |data|
    requires BuildDict(TransformKey(data), TransformEntry(data, cover), i) == Ok(before)
    requires cover(data[i].0, data[i].1) == Ok(e)
    ensures Put(before, data[i].0, e) == before + [(data[i].0, e)]
    ensures BuildDict(TransformKey(data), TransformEntry(data, cover), i + 1) == Ok(before + [(data[i].0, e)])
  {
    BuildDictLength(TransformKey(data), TransformEntry(data, cover), i, before);
    forall m | 0 <= m < |before| ensures before[m].0 != data[i].0 {
      BuildDictAt(TransformKey(data), TransformEntry(data, cover), i, before, m);
      TransformAt(data, cover, m + 1);
    }
    PutFresh(before, data[i].0, e);
    TransformAt(data, cover, i + 1);
  }

  /** An iteration that raises ends the loop with that exception. */
  lemma TransformStop(data: Dict<Json>, cover: (string, Json) -> Result<Json>, i: nat, before: Dict<Json>)
    requires i < |data|
    requires BuildDict(TransformKey(data), TransformEntry(data, cover), i) == Ok(before)
    requires cover(data[i].0, data[i].1).Err?
    ensures BuildDict(TransformKey(data), TransformEntry(data, cover), |data|) == Err(cover(data[i].0, data[i].1).msg)
  {
    TransformAt(data, cover, i + 1);
    BuildDictFailed(TransformKey(data), TransformEntry(data, cover), i + 1, |data|);
  }

  method TransformSuvichaarJson(data: Dict<Json>) returns (r: Result<Dict<Json>>)
    requires UniqueKeys(data)
    ensures r == Transformed(data)
  {
    var transformed: Dict<Json> := [];
    for i := 0 to |data|
      invariant BuildDict(TransformKey(data), TransformEntry(data, CoverEntry), i) == Ok(transformed)
    {
      var (slideKey, info) := data[i];
      var e := CoverEntry(slideKey, info);
      if e.Err? {
        TransformStop(data, CoverEntry, i, transformed);
        return Err(e.msg);
      }
      TransformStep(data, CoverEntry, i, transformed, e.value);
      transformed := Put(transformed, slideKey, e.value);
    }
    return Ok(transformed);
  }

  lemma TransformFails(data: Dict<Json>, cover: (string, Json) -> Result<Json>)
    ensures BuildDict(TransformKey(data), TransformEntry(data, cover), |data|).Ok? <==>
              forall m :: 0 <= m < |data| ==> cover(data[m].0, data[m].1).Ok?
  {
    TransformPrefixFail(data, cover, |data|);
  }

  /** The first k iterations complete exactly when none of the first k slides raises. */
  lemma {:induction false} TransformPrefixFail(data: Dict<Json>, cover: (string, Json) -> Result<Json>, k: nat)
    requires k <= |data|
    ensures BuildDict(TransformKey(data), TransformEntry(data, cover), k).Ok? <==>
              forall m :: 0 <= m < k ==> cover(data[m].0, data[m].1).Ok?
  {
    if k > 0 {
      var key := TransformKey(data);
      var entry := TransformEntry(data, cover);
      TransformPrefixFail(data, cover, k - 1);
      TransformAt(data, cover, k);
      assert BuildDict(key, entry, k).Ok? <==> BuildDict(key, entry, k - 1).Ok? && entry(k).Ok?;
      if BuildDict(key, entry, k - 1).Err? {
        var m :| 0 <= m < k - 1 && !cover(data[m].0, data[m].1).Ok?;
        assert !BuildDict(key, entry, k).Ok? && !(forall m :: 0 <= m < k ==> cover(data[m].0, data[m].1).Ok?);
      } else if entry(k).Ok? {
        assert BuildDict(key, entry, k).Ok?;
        forall m | 0 <= m < k ensures cover(data[m].0, data[m].1).Ok? {
          if m < k - 1 {
            assert 0 <= m < k - 1;
          }
        }
      } else {
        assert !cover(data[k - 1].0, data[k - 1].1).Ok?;
      }
    }
  }

  lemma TransformValues(data: Dict<Json>, cover: (string, Json) -> Result<Json>, d: Dict<Json>)
    requires BuildDict(TransformKey(data), TransformEntry(data, cover), |data|) == Ok(d)
    ensures |d| == |data|
    ensures forall m :: 0 <= m < |d| ==> d[m].0 == data[m].0 && Ok(d[m].1) == cover(data[m].0, data[m].1)
  {
    BuildDictLength(TransformKey(data), TransformEntry(data, cover), |data|, d);
    forall m | 0 <= m < |d| ensures d[m].0 == data[m].0 && Ok(d[m].1) == cover(data[m].0, data[m].1) {
      TransformValueAt(data, cover, d, m);
    }
  }

  lemma TransformValueAt(data: Dict<Json>, cover: (string, Json) -> Result<Json>, d: Dict<Json>, m: nat)
    requires BuildDict(TransformKey(data), TransformEntry(data, cover), |data|) == Ok(d)
    requires m < |data|
    ensures m < |d| && d[m].0 == data[m].0 && Ok(d[m].1) == cover(data[m].0, data[m].1)
  {
    BuildDictAt(TransformKey(data), TransformEntry(data, cover), |data|, d, m);
    TransformAt(data, cover, m + 1);
  }

  /**
   * The transformation fails exactly when some slide key is not "slide" around an int or some
   * slide is not a dict; empty input gives empty output.
   */
  lemma TransformedFails(data: Dict<Json>)
    ensures Transformed(data).Ok? <==>
              forall m :: 0 <= m < |data| ==> SlideNumber(data[m].0).Some? && data[m].1.Obj?
    ensures data == [] ==> Transformed(data) == Ok([])
  {
    TransformFails(data, CoverEntry);
    forall m | 0 <= m < |data|
      ensures CoverEntry(data[m].0, data[m].1).Ok? <==> SlideNumber(data[m].0).Some? && data[m].1.Obj?
    {
      CoverEntryFails(data[m].0, data[m].1);
    }
  }

  /** Every input slide key is kept, in input order, each with its own cover entry. */
  lemma TransformedSlides(data: Dict<Json>, d: Dict<Json>)
    requires Transformed(data) == Ok(d)
    ensures Keys(d) == Keys(data)
    ensures forall m :: 0 <= m < |d| ==> Ok(d[m].1) == CoverEntry(data[m].0, data[m].1)
  {
    TransformValues(data, CoverEntry, d);
  }

  /**
   * A slide stored under `slide{n}` gets the keys `s{n}paragraph1`, `s{n}audio1`, `s{n}image1`
   * and `s{n}paragraph2`: its text, its audio (default ""), the fixed cover image and credit.
   */
  lemma CoverEntryOfSlide(n: nat, info: Json)
    requires info.Obj?
    ensures CoverEntry(SlideKey(n), info) ==
              Ok(Obj([(ParagraphKey(n), CoverText(info.fields)),
                      (Audio1Key(n), GetOr(info.fields, "audio_url", Str(""))),
                      (Image1Key(n), Str(CoverImageUrl)),
                      (Paragraph2Key(n), Str(CoverCredit))]))
  {
    SlideKeyNumber(n);
    NumberedKeyOfNat(n);
  }

  // ---------------------------------------------------------------------------
  // clean_text_for_html

  /**
   * The cleaned text: `"` escaped as `&quot;`, newlines turned into spaces, carriage returns
   * dropped, surrounding whitespace stripped. The source's apostrophe replacement maps `'`
   * to itself and changes nothing.
   */
  function CleanText(text: string): (r: string)
    ensures text == "" ==> r == ""
    ensures '"' !in r && '\n' !in r && '\r' !in r
    ensures Strip(r) == r
  {
    if text == "" then ""
    else
      var quoted := ReplaceAll(ReplaceAll(text, "'", "'"), "\"", "&quot;");
      var spaced := ReplaceAll(quoted, "\n", " ");
      var joined := ReplaceAll(spaced, "\r", "");
      ReplaceAllRemovesChar(ReplaceAll(text, "'", "'"), '"', "&quot;");
      ReplaceAllKeepsAbsent(quoted, "\n", " ", '"');
      ReplaceAllRemovesChar(quoted, '\n', " ");
      ReplaceAllKeepsAbsent(spaced, "\r", "", '"');
      ReplaceAllKeepsAbsent(spaced, "\r", "", '\n');
      ReplaceAllRemovesChar(spaced, '\r', "");
      StripByKeepsAbsent(joined, IsSpace, '"');
      StripByKeepsAbsent(joined, IsSpace, '\n');
      StripByKeepsAbsent(joined, IsSpace, '\r');
      StripIdempotent(joined);
      Strip(joined)
  }

  method CleanTextForHtml(text: string) returns (r: string)
    ensures r == CleanText(text)
  {
    if text == "" {
      return "";
    }
    var t := text;
    t := ReplaceAll(t, "'", "'");
    t := ReplaceAll(t, "\"", "&quot;");
    t := ReplaceAll(t, "\n", " ");
    t := ReplaceAll(t, "\r", "");
    return Strip(t);
  }

  /** Cleaning twice is cleaning once: nothing the first pass leaves is changed by the second. */
  lemma CleanTextIdempotent(text: string)
    ensures CleanText(CleanText(text)) == CleanText(text)
  {
    var s := CleanText(text);
    if s != "" {
      ReplaceAllSelf(s, "'");
      if Contains(s, "\"") { ContainsFirstChar(s, "\""); }
      ReplaceAllAbsent(s, "\"", "&quot;");
      if Contains(s, "\n") { ContainsFirstChar(s, "\n"); }
      ReplaceAllAbsent(s, "\n", " ");
      if Contains(s, "\r") { ContainsFirstChar(s, "\r"); }
      ReplaceAllAbsent(s, "\r", "");
    }
  }

  // ---------------------------------------------------------------------------
  // generate_slug_and_urls (also copied verbatim as S3Service.generate_slug_and_urls)

  predicate IsSlugChar(c: char) { IsAsciiLower(c) || IsDigit(c) || c == '-' }

  predicate IsDash(c: char) { c == '-' }

  /** `''.join(c for c in s if c in ascii_lowercase + digits + '-')`. */
  function KeepSlugChars(s: string): (r: string)
    ensures forall i :: 0 <= i < |r| ==> IsSlugChar(r[i])
    ensures (forall i :: 0 <= i < |s| ==> IsSlugChar(s[i])) ==> r == s
    decreases |s|
  {
    if |s| == 0 then ""
    else
      assert forall i :: 1 <= i < |s| ==> s[1..][i - 1] == s[i];
      (if IsSlugChar(s[0]) then [s[0]] else []) + KeepSlugChars(s[1..])
  }

  /**
   * The slug of a title: lowercased, spaces and underscores turned into dashes, every other
   * character outside [a-z0-9-] dropped, then dashes stripped from both ends.
   */
  function Slug(title: string): string
  {
    StripBy(KeepSlugChars(ReplaceAll(ReplaceAll(Lower(title), " ", "-"), "_", "-")), IsDash)
  }

  /** A slug uses only [a-z0-9-] and neither starts nor ends with a dash. */
  lemma SlugShape(title: string)
    ensures forall i :: 0 <= i < |Slug(title)| ==> IsSlugChar(Slug(title)[i])
    ensures |Slug(title)| > 0 ==> Slug(title)[0] != '-' && Slug(title)[|Slug(title)| - 1] != '-'
  {
    var kept := KeepSlugChars(ReplaceAll(ReplaceAll(Lower(title), " ", "-"), "_", "-"));
    var k := StripBySlice(kept, IsDash);
    var r := Slug(title);
    forall i | 0 <= i < |r| ensures IsSlugChar(r[i]) {
      assert r[i] == kept[k + i];
    }
  }

  lemma LowerSlugChars(s: string)
    requires forall i :: 0 <= i < |s| ==> IsSlugChar(s[i])
    ensures Lower(s) == s
  {
    assert forall i :: 0 <= i < |s| ==> Lower(s)[i] == s[i];
  }

  /** Replacing a character the string does not hold changes nothing. */
  lemma ReplaceAbsentChar(s: string, c: char, repl: string)
    requires c !in s
    ensures ReplaceAll(s, [c], repl) == s
  {
    if Contains(s, [c]) {
      ContainsFirstChar(s, [c]);
    }
    ReplaceAllAbsent(s, [c], repl);
  }

  /** A slug is its own slug. */
  lemma SlugIdempotent(title: string)
    ensures Slug(Slug(title)) == Slug(title)
  {
    var s := Slug(title);
    SlugShape(title);
    LowerSlugChars(s);
    ReplaceAbsentChar(s, ' ', "-");
    ReplaceAbsentChar(s, '_', "-");
    StripByStripped(s, IsDash);
  }

  const StoriesBase := "https://suvichaar.org/stories/"
  const StaticBase := "https://stories.suvichaar.org/"

  /** The tuple `(nano, slug_nano, canonical_url, static_url)`. */
  datatype StoryUrls = StoryUrls(nano: string, slugNano: string, canonicalUrl: string, staticUrl: string)

  /**
   * `draw` stands for the ten characters `random.choices` picks; a title that is not a
   * non-empty str raises ValueError.
   */
  function GenerateSlugAndUrls(title: Json, draw: string): (r: Result<StoryUrls>)
    ensures r.Ok? <==> title.Str? && title.s != ""
  {
    if !title.Str? || title.s == "" then Err("ValueError: Invalid title")
    else
      var nano := draw + "_G";
      var slugNano := Slug(title.s) + "_" + nano;
      Ok(StoryUrls(nano, slugNano, StoriesBase + slugNano, StaticBase + slugNano + ".html"))
  }

  lemma Cut<T>(a: seq<T>, b: seq<T>)
    ensures (a + b)[..|a|] == a && (a + b)[|a|..] == b
  {
  }

  /**
   * Both URLs carry `slug_nano = slug + "_" + nano` with `nano = draw + "_G"`; with a
   * ten-character draw the canonical URL gives back the slug and the nano.
   */
  lemma StoryUrlsDecode(title: Json, draw: string)
    requires |draw| == 10 && GenerateSlugAndUrls(title, draw).Ok?
    ensures var u := GenerateSlugAndUrls(title, draw).value;
            && |u.nano| == 12 && u.nano[..10] == draw && EndsWith(u.nano, "_G")
            && u.canonicalUrl == StoriesBase + u.slugNano
            && u.staticUrl == StaticBase + u.slugNano + ".html"
            && u.slugNano[..|u.slugNano| - 13] == Slug(title.s)
            && u.slugNano[|u.slugNano| - 12..] == u.nano
  {
    var u := GenerateSlugAndUrls(title, draw).value;
    var slug := Slug(title.s);
    Cut(draw, "_G");
    Cut(slug + "_", u.nano);
    Cut(slug, "_");
    assert u.slugNano == (slug + "_") + u.nano;
    assert u.slugNano[..|u.slugNano| - 13] == (slug + "_")[..|slug|];
  }

  // ---------------------------------------------------------------------------
  // validate_json_structure, create_success_response, create_error_response

  /** `all(key in data for key in required_keys)`, stopping at the first missing key. */
  function ValidateJsonStructure(data: Dict<Json>, requiredKeys: seq<string>): (r: bool)
    ensures r <==> forall i :: 0 <= i < |requiredKeys| ==> HasKey(data, requiredKeys[i])
    decreases |requiredKeys|
  {
    if |requiredKeys| == 0 then true
    else if !HasKey(data, requiredKeys[0]) then false
    else
      assert forall i :: 1 <= i < |requiredKeys| ==> requiredKeys[i] == requiredKeys[1..][i - 1];
      ValidateJsonStructure(data, requiredKeys[1..])
  }

  const DefaultSuccessMessage := "Success"
  const DefaultErrorStatus := 400

  function CreateSuccessResponse(data: Json, message: string): (r: Json)
    ensures r.Obj? && Keys(r.fields) == ["success", "message", "data"]
  {
    Obj([("success", Bool(true)), ("message", Str(message)), ("data", data)])
  }

  /** `detail` is None when the caller gives none. */
  function CreateErrorResponse(error: string, detail: Option<string>, statusCode: int): (r: Json)
    ensures r.Obj? && Keys(r.fields) == ["success", "error", "detail", "status_code"]
  {
    Obj([("success", Bool(false)), ("error", Str(error)),
         ("detail", if detail.Some? then Str(detail.value) else Null), ("status_code", Num(statusCode))])
  }

  /** The success envelope says `success: True` and hands back the message and the payload; it has no `error`. */
  lemma SuccessResponseFields(data: Json, message: string)
    ensures var ok := CreateSuccessResponse(data, message).fields;
            Lookup(ok, "success") == Some(Bool(true)) && Lookup(ok, "data") == Some(data)
            && Lookup(ok, "message") == Some(Str(message)) && !HasKey(ok, "error")
  {
  }

  /** The error envelope's `detail` is the given text, or None when there is none. */
  lemma ErrorDetail(error: string, detail: Option<string>, statusCode: int)
    ensures Lookup(CreateErrorResponse(error, detail, statusCode).fields, "detail")
         == Some(if detail.Some? then Str(detail.value) else Null)
  {
    var bad := CreateErrorResponse(error, detail, statusCode).fields;
    assert UniqueKeys(bad);
    LookupAt(bad, 2);
  }

  /** The error envelope says `success: False` and carries the error and its status; it has no `data`. */
  lemma ErrorResponseFields(error: string, detail: Option<string>, statusCode: int)
    ensures var bad := CreateErrorResponse(error, detail, statusCode).fields;
            Lookup(bad, "success") == Some(Bool(false)) && Lookup(bad, "error") == Some(Str(error))
            && Lookup(bad, "status_code") == Some(Num(statusCode)) && !HasKey(bad, "data")
  {
    var bad := CreateErrorResponse(error, detail, statusCode).fields;
    assert UniqueKeys(bad);
    LookupAt(bad, 0);
    LookupAt(bad, 1);
    LookupAt(bad, 3);
  }
}
