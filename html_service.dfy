/**
 * The template-filling half of HTMLProcessingService (app/services/html_service.py):
 * the title substitutions, the tab-4 re-keying of slide JSON, the content-submission
 * substitutions with their link unwrapping, and the metadata record. The AMP page
 * assembly (`process_amp_template`) is in module AmpTemplate.
 */
module HtmlService {
  import opened Wrappers
  import opened Text
  import opened PyJson
  import opened SlideKeys

  // ---------------------------------------------------------------------------
  // replace_placeholders_in_html

  /** `json_data.get(slide, {}).get(field, "")`: a missing slide or field reads as "". */
  function SlideField(data: Dict<Json>, slide: string, field: string): (r: Result<Json>)
    ensures !HasKey(data, slide) ==> r == Ok(Str(""))
    ensures r.Ok? <==> !HasKey(data, slide) || Lookup(data, slide).value.Obj?
    ensures HasKey(data, slide) && r.Ok? ==> r == Ok(GetOr(Lookup(data, slide).value.fields, field, Str("")))
  {
    GetField(GetOr(data, slide, Obj([])), field, Str(""))
  }

  const TitleTokens: seq<string> :=
    ["{{storytitle}}", "{{storytitle_audiourl}}", "{{hookline}}", "{{hookline_audiourl}}"]

  /**
   * The four (token, value) substitutions, in the order the source performs them: the
   * title and its audio from slide1, the hookline and its audio from slide2. A value that
   * is not a str makes `replace` raise, and so does a slide that is not a dict.
   */
  function TitleSubstitutions(data: Dict<Json>): (r: Result<seq<(string, string)>>)
    ensures r.Ok? <==>
      && SlideField(data, "slide1", "storytitle").Ok? && SlideField(data, "slide1", "storytitle").value.Str?
      && SlideField(data, "slide1", "audio_url").Ok? && SlideField(data, "slide1", "audio_url").value.Str?
      && SlideField(data, "slide2", "hookline").Ok? && SlideField(data, "slide2", "hookline").value.Str?
      && SlideField(data, "slide2", "audio_url").Ok? && SlideField(data, "slide2", "audio_url").value.Str?
    ensures r.Ok? ==> |r.value| == 4 && forall i :: 0 <= i < 4 ==> r.value[i].0 == TitleTokens[i]
    ensures r.Ok? ==> forall i :: 0 <= i < 4 ==> |r.value[i].0| > 0
    ensures r.Ok? && !HasKey(data, "slide1") ==> r.value[0].1 == "" && r.value[1].1 == ""
    ensures r.Ok? && !HasKey(data, "slide2") ==> r.value[2].1 == "" && r.value[3].1 == ""
    ensures r.Ok? ==> && r.value[0].1 == SlideField(data, "slide1", "storytitle").value.s
                      && r.value[1].1 == SlideField(data, "slide1", "audio_url").value.s
                      && r.value[2].1 == SlideField(data, "slide2", "hookline").value.s
                      && r.value[3].1 == SlideField(data, "slide2", "audio_url").value.s
  {
    var slide1 := GetOr(data, "slide1", Obj([]));
    var slide2 := GetOr(data, "slide2", Obj([]));
    if !slide1.Obj? || !slide2.Obj? then Err("AttributeError: no attribute 'get'")
    else
      var title := GetOr(slide1.fields, "storytitle", Str(""));
      var titleUrl := GetOr(slide1.fields, "audio_url", Str(""));
      var hook := GetOr(slide2.fields, "hookline", Str(""));
      var hookUrl := GetOr(slide2.fields, "audio_url", Str(""));
      if title.Str? && titleUrl.Str? && hook.Str? && hookUrl.Str? then
        Ok([(TitleTokens[0], title.s), (TitleTokens[1], titleUrl.s), (TitleTokens[2], hook.s), (TitleTokens[3], hookUrl.s)])
      else Err("TypeError: replace() argument 2 must be str")
  }

  method ReplacePlaceholdersInHtml(htmlText: string, jsonData: Dict<Json>) returns (r: Result<string>)
    ensures r.Ok? <==> TitleSubstitutions(jsonData).Ok?
    ensures r.Ok? ==> r.value == Substitute(htmlText, TitleSubstitutions(jsonData).value)
  {
    var slide1 := GetOr(jsonData, "slide1", Obj([]));
    var slide2 := GetOr(jsonData, "slide2", Obj([]));
    if !slide1.Obj? || !slide2.Obj? {
      return Err("AttributeError: no attribute 'get'");
    }
    var storytitle := GetOr(slide1.fields, "storytitle", Str(""));
    var storytitleUrl := GetOr(slide1.fields, "audio_url", Str(""));
    var hookline := GetOr(slide2.fields, "hookline", Str(""));
    var hooklineUrl := GetOr(slide2.fields, "audio_url", Str(""));
    if !storytitle.Str? || !storytitleUrl.Str? || !hookline.Str? || !hooklineUrl.Str? {
      return Err("TypeError: replace() argument 2 must be str");
    }
    ghost var pairs := TitleSubstitutions(jsonData).value;
    var html := htmlText;
    assert pairs[0..] == pairs;
    SubstituteStep(html, pairs, 0);
    html := ReplaceAll(html, "{{storytitle}}", storytitle.s);
    SubstituteStep(html, pairs, 1);
    html := ReplaceAll(html, "{{storytitle_audiourl}}", storytitleUrl.s);
    SubstituteStep(html, pairs, 2);
    html := ReplaceAll(html, "{{hookline}}", hookline.s);
    SubstituteStep(html, pairs, 3);
    html := ReplaceAll(html, "{{hookline_audiourl}}", hooklineUrl.s);
    return Ok(html);
  }

  /** A template with none of the four tokens is returned unchanged, whatever the slides say. */
  lemma ReplacePlaceholdersNoTokens(htmlText: string, jsonData: Dict<Json>)
    requires forall i :: 0 <= i < |TitleTokens| ==> !Contains(htmlText, TitleTokens[i])
    requires TitleSubstitutions(jsonData).Ok?
    ensures Substitute(htmlText, TitleSubstitutions(jsonData).value) == htmlText
  {
    SubstituteAbsent(htmlText, TitleSubstitutions(jsonData).value);
  }

  // ---------------------------------------------------------------------------
  // modify_tab4_json

  /** The value of the first field whose key ends in "paragraph1", in insertion order. */
  function FirstParagraph(fields: Dict<Json>): (r: Option<Json>)
    ensures r.Some? <==> exists i :: 0 <= i < |fields| && EndsWith(fields[i].0, "paragraph1")
    ensures r.Some? ==> exists i :: 0 <= i < |fields| && fields[i] == (fields[i].0, r.value) && EndsWith(fields[i].0, "paragraph1")
    decreases |fields|
  {
    if |fields| == 0 then None
    else if EndsWith(fields[0].0, "paragraph1") then Some(fields[0].1)
    else
      var r := FirstParagraph(fields[1..]);
      assert forall i :: 1 <= i < |fields| ==> fields[i] == fields[1..][i - 1];
      r
  }

  /**
   * The tab-4 entry for one original slide under its new number `n`: the first paragraph
   * re-keyed `s{n}paragraph1`, the slide's `audio_url` re-keyed `audio_url{n}`, and its
   * voice; None when the slide has no paragraph. A slide that is not a dict raises.
   */
  function Tab4Entry(n: nat, content: Json): (r: Result<Option<Json>>)
    ensures r.Ok? <==> content.Obj?
    ensures r.Ok? ==> (r.value.Some? <==> FirstParagraph(content.fields).Some?)
    ensures r.Ok? && r.value.Some? ==>
      && r.value.value.Obj?
      && Keys(r.value.value.fields) == [ParagraphKey(n), AudioUrlKey(n), "voice"]
      && r.value.value.fields[0].1 == FirstParagraph(content.fields).value
      && r.value.value.fields[1].1 == GetOr(content.fields, "audio_url", Str(""))
      && r.value.value.fields[2].1 == GetOr(content.fields, "voice", Str(""))
  {
    if !content.Obj? then Err("AttributeError: no attribute 'items'")
    else
      match FirstParagraph(content.fields)
      case None => Ok(None)
      case Some(v) =>
        Ok(Some(Obj([(ParagraphKey(n), v),
                     (AudioUrlKey(n), GetOr(content.fields, "audio_url", Str(""))),
                     ("voice", GetOr(content.fields, "voice", Str("")))])))
  }

  /** The original slide `slide{k}`; only meaningful when present. */
  function Original(d: Dict<Json>, k: nat): Json
  {
    match Lookup(d, SlideKey(k))
    case Some(v) => v
    case None => Null
  }

  /** Original slides `slide{i}` .. `slide{j}` are all present. */
  predicate Run(d: Dict<Json>, i: nat, j: nat) {
    forall k :: i <= k <= j ==> HasKey(d, SlideKey(k))
  }

  /**
   * The numbered entries built from original slides `slide{i}`, `slide{i+1}`, ... up to the
   * first missing one or slide 99; original slide k is renumbered k - 1.
   */
  function Tab4From(d: Dict<Json>, i: nat): Result<seq<(nat, Json)>>
    requires i >= 1
    decreases 100 - i
  {
    if i > 99 || !HasKey(d, SlideKey(i)) then Ok([])
    else
      var e :- Tab4Entry(i - 1, Original(d, i));
      var rest :- Tab4From(d, i + 1);
      Ok(if e.Some? then [(i - 1, e.value)] + rest else rest)
  }

  /** What `modify_tab4_json` builds, as (number, entry) pairs: slide1 and slide2 are dropped. */
  function Tab4Slides(d: Dict<Json>): Result<seq<(nat, Json)>> { Tab4From(d, 3) }

  /** The dict with key `slide{n}` for every numbered entry, in order. */
  function EncodeSlides(entries: seq<(nat, Json)>): (r: Dict<Json>)
    ensures |r| == |entries|
    ensures forall k :: 0 <= k < |entries| ==> r[k] == (SlideKey(entries[k].0), entries[k].1)
  {
    seq(|entries|, k requires 0 <= k < |entries| => (SlideKey(entries[k].0), entries[k].1))
  }

  lemma EncodeSlidesSnoc(entries: seq<(nat, Json)>, x: (nat, Json))
    ensures EncodeSlides(entries + [x]) == EncodeSlides(entries) + [(SlideKey(x.0), x.1)]
  {
  }

  /** A number larger than every entry's number is not yet a key of the encoded dict. */
  lemma EncodeFresh(entries: seq<(nat, Json)>, n: nat)
    requires forall k :: 0 <= k < |entries| ==> entries[k].0 < n
    ensures !HasKey(EncodeSlides(entries), SlideKey(n))
  {
    var e := EncodeSlides(entries);
    if HasKey(e, SlideKey(n)) {
      var k :| 0 <= k < |e| && Keys(e)[k] == SlideKey(n);
      SlideKeyInjective(entries[k].0, n);
      assert false;
    }
  }

  /** `updated[slide{n}] = entry` for a number past every entry so far appends the encoded pair. */
  lemma EncodeAppend(entries: seq<(nat, Json)>, n: nat, e: Json)
    requires forall k :: 0 <= k < |entries| ==> entries[k].0 < n
    ensures Put(EncodeSlides(entries), SlideKey(n), e) == EncodeSlides(entries + [(n, e)])
    ensures forall k :: 0 <= k < |entries + [(n, e)]| ==> (entries + [(n, e)])[k].0 < n + 1
  {
    EncodeFresh(entries, n);
    EncodeSlidesSnoc(entries, (n, e));
  }

  /** One step of the scan: original slide i is present and a dict. */
  lemma Tab4FromStep(d: Dict<Json>, i: nat)
    requires 1 <= i <= 99 && HasKey(d, SlideKey(i)) && Original(d, i).Obj?
    ensures Tab4From(d, i).Ok? <==> Tab4From(d, i + 1).Ok?
    ensures Tab4From(d, i + 1).Ok? ==>
              Tab4From(d, i).value == Tab4EntrySeq(i - 1, Original(d, i)) + Tab4From(d, i + 1).value
  {
  }

  /** The entry for original content as a sequence of zero or one numbered entries. */
  function Tab4EntrySeq(n: nat, content: Json): seq<(nat, Json)>
    requires content.Obj?
  {
    var e := Tab4Entry(n, content).value;
    if e.Some? then [(n, e.value)] else []
  }

  /**
   * The loop's relation between what is built so far and the rest of the scan: the whole
   * re-keying succeeds exactly when the scan from slide i does, and is then `done` followed by it.
   */
  predicate Scanned(d: Dict<Json>, i: nat, done: seq<(nat, Json)>)
    requires i >= 1
  {
    && (Tab4Slides(d).Ok? <==> Tab4From(d, i).Ok?)
    && (Tab4From(d, i).Ok? ==> Tab4Slides(d).value == done + Tab4From(d, i).value)
  }

  /** The relation carried past slide i. */
  lemma Tab4Advance(d: Dict<Json>, i: nat, n: nat, content: Json, before: seq<(nat, Json)>)
    requires 3 <= i <= 99 && n == i - 1 && HasKey(d, SlideKey(i)) && content == Original(d, i) && content.Obj?
    requires Scanned(d, i, before)
    ensures Scanned(d, i + 1, before + Tab4EntrySeq(n, content))
  {
    Tab4FromStep(d, i);
    if Tab4From(d, i + 1).Ok? {
      ConcatShift(Tab4Slides(d).value, Tab4From(d, i).value, Tab4From(d, i + 1).value,
                  before, Tab4EntrySeq(n, content), before + Tab4EntrySeq(n, content));
    }
  }

  /** A present slide that is not a dict makes the whole re-keying fail. */
  lemma Tab4FromErrorHere(d: Dict<Json>, i: nat, done: seq<(nat, Json)>)
    requires 3 <= i <= 99 && HasKey(d, SlideKey(i)) && !Original(d, i).Obj?
    requires Scanned(d, i, done)
    ensures Tab4Slides(d).Err?
  {
  }

  /** Where the scan stops (a gap, or past slide 99) everything has been built. */
  lemma Tab4Stop(d: Dict<Json>, i: nat, done: seq<(nat, Json)>)
    requires 3 <= i <= 100 && (i == 100 || !HasKey(d, SlideKey(i)))
    requires Scanned(d, i, done)
    ensures Tab4Slides(d) == Ok(done)
  {
    assert Tab4From(d, i) == Ok([]);
    assert done + [] == done;
  }

  /** The entry the inner scan builds when field j is the first paragraph field. */
  lemma Tab4EntryFound(n: nat, content: Json, j: nat)
    requires content.Obj? && j < |content.fields|
    requires FirstParagraph(content.fields) == Some(content.fields[j].1)
    ensures Tab4EntrySeq(n, content) ==
      [(n, Obj([(ParagraphKey(n), content.fields[j].1),
                (AudioUrlKey(n), GetOr(content.fields, "audio_url", Str(""))),
                ("voice", GetOr(content.fields, "voice", Str("")))]))]
  {
  }

  /** Moving a piece from the front of the remainder onto the end of the prefix. */
  lemma ConcatShift<T>(whole: seq<T>, tail: seq<T>, rest: seq<T>, before: seq<T>, piece: seq<T>, done: seq<T>)
    requires tail == piece + rest && whole == before + tail && done == before + piece
    ensures whole == done + rest
  {
    assert before + (piece + rest) == (before + piece) + rest;
  }

  /**
   * The inner `for k, v in content.items()` scan with its `break`: the position of the
   * first field whose key ends in "paragraph1".
   */
  method FindParagraphField(fields: Dict<Json>) returns (found: Option<nat>)
    ensures found.None? <==> FirstParagraph(fields).None?
    ensures found.Some? ==> found.value < |fields| && FirstParagraph(fields) == Some(fields[found.value].1)
    ensures found.Some? ==> EndsWith(fields[found.value].0, "paragraph1")
  {
    var j := 0;
    while j < |fields|
      invariant 0 <= j <= |fields|
      invariant FirstParagraph(fields) == FirstParagraph(fields[j..])
    {
      if EndsWith(fields[j].0, "paragraph1") {
        return Some(j);
      }
      assert fields[j..][1..] == fields[j + 1..];
      j := j + 1;
    }
    return None;
  }

  /** The inner scan over one slide's items and the entry built from the paragraph it finds. */
  method SlideEntry(n: nat, content: Json) returns (entry: Option<Json>)
    requires content.Obj?
    ensures Tab4EntrySeq(n, content) == if entry.Some? then [(n, entry.value)] else []
  {
    var fields := content.fields;
    var found := FindParagraphField(fields);
    if found.Some? {
      var j := found.value;
      Tab4EntryFound(n, content, j);
      entry := Some(Obj([(ParagraphKey(n), fields[j].1),
                         (AudioUrlKey(n), GetOr(fields, "audio_url", Str(""))),
                         ("voice", GetOr(fields, "voice", Str("")))]));
    } else {
      entry := None;
    }
  }

  /** One iteration's contribution: the slide's entry, when it has one, stored under `slide{n}`. */
  method AddSlide(updated: Dict<Json>, ghost done: seq<(nat, Json)>, n: nat, content: Json)
    returns (updated': Dict<Json>, ghost done': seq<(nat, Json)>)
    requires content.Obj? && updated == EncodeSlides(done)
    requires forall k :: 0 <= k < |done| ==> done[k].0 < n
    ensures done' == done + Tab4EntrySeq(n, content) && updated' == EncodeSlides(done')
    ensures forall k :: 0 <= k < |done'| ==> done'[k].0 < n + 1
  {
    var entry := SlideEntry(n, content);
    if entry.Some? {
      EncodeAppend(done, n, entry.value);
      updated' := Put(updated, SlideKey(n), entry.value);
      done' := done + [(n, entry.value)];
    } else {
      updated', done' := updated, done;
    }
  }

  method ModifyTab4Json(originalJson: Dict<Json>) returns (r: Result<Dict<Json>>)
    ensures r.Ok? <==> Tab4Slides(originalJson).Ok?
    ensures r.Ok? ==> r.value == EncodeSlides(Tab4Slides(originalJson).value)
  {
    var updated: Dict<Json> := [];
    ghost var done: seq<(nat, Json)> := [];
    var slideNumber := 2;
    var i := 3;
    assert Tab4From(originalJson, 3).Ok? ==> [] + Tab4From(originalJson, 3).value == Tab4From(originalJson, 3).value;
    while i < 100
      invariant 3 <= i <= 100 && slideNumber == i - 1
      invariant updated == EncodeSlides(done)
      invariant forall k :: 0 <= k < |done| ==> done[k].0 < slideNumber
      invariant Scanned(originalJson, i, done)
      decreases 100 - i
    {
      var oldKey := SlideKey(i);
      if !HasKey(originalJson, oldKey) {
        break;
      }
      var content := Original(originalJson, i);
      if !content.Obj? {
        Tab4FromErrorHere(originalJson, i, done);
        return Err("AttributeError: no attribute 'items'");
      }
      Tab4Advance(originalJson, i, slideNumber, content, done);
      updated, done := AddSlide(updated, done, slideNumber, content);
      slideNumber := slideNumber + 1;
      i := i + 1;
    }
    Tab4Stop(originalJson, i, done);
    r := Ok(updated);
  }

  /** Entries are numbered in strictly increasing order, from i - 1 up to at most 98. */
  predicate NumberedFrom(entries: seq<(nat, Json)>, lo: nat) {
    && (forall a, b :: 0 <= a < b < |entries| ==> entries[a].0 < entries[b].0)
    && (forall k :: 0 <= k < |entries| ==> lo <= entries[k].0 <= 98)
  }

  lemma {:induction false} Tab4FromNumbered(d: Dict<Json>, i: nat)
    requires i >= 1
    requires Tab4From(d, i).Ok?
    ensures NumberedFrom(Tab4From(d, i).value, i - 1)
    decreases 100 - i
  {
    if i <= 99 && HasKey(d, SlideKey(i)) {
      Tab4FromNumbered(d, i + 1);
    }
  }

  /**
   * The re-keyed slides are numbered 2, 3, ... in strictly increasing order and never past
   * 98, so their `slide{n}` keys are distinct.
   */
  lemma Tab4Numbering(d: Dict<Json>)
    requires Tab4Slides(d).Ok?
    ensures NumberedFrom(Tab4Slides(d).value, 2)
    ensures UniqueKeys(EncodeSlides(Tab4Slides(d).value))
  {
    var v := Tab4Slides(d).value;
    Tab4FromNumbered(d, 3);
    forall a, b | 0 <= a < b < |v|
      ensures EncodeSlides(v)[a].0 != EncodeSlides(v)[b].0
    {
      if SlideKey(v[a].0) == SlideKey(v[b].0) {
        SlideKeyInjective(v[a].0, v[b].0);
      }
    }
  }

  /** Original slide k is kept: it is a dict with a paragraph field. */
  predicate Kept(d: Dict<Json>, k: nat) {
    Original(d, k).Obj? && FirstParagraph(Original(d, k).fields).Some?
  }

  predicate HasNumber(entries: seq<(nat, Json)>, m: nat) {
    exists k :: 0 <= k < |entries| && entries[k].0 == m
  }

  lemma HasNumberCons(x: (nat, Json), rest: seq<(nat, Json)>, m: nat)
    ensures HasNumber([x] + rest, m) <==> x.0 == m || HasNumber(rest, m)
  {
    var v := [x] + rest;
    if x.0 == m {
      assert v[0].0 == m;
    }
    if HasNumber(rest, m) {
      var k :| 0 <= k < |rest| && rest[k].0 == m;
      assert v[k + 1].0 == m;
    }
    if HasNumber(v, m) && x.0 != m {
      var k :| 0 <= k < |v| && v[k].0 == m;
      assert rest[k - 1].0 == m;
    }
  }

  lemma RunCons(d: Dict<Json>, i: nat, j: nat)
    requires i <= j
    ensures Run(d, i, j) <==> HasKey(d, SlideKey(i)) && Run(d, i + 1, j)
  {
  }

  lemma {:induction false} Tab4FromMembers(d: Dict<Json>, i: nat, m: nat)
    requires i >= 1
    requires Tab4From(d, i).Ok?
    ensures HasNumber(Tab4From(d, i).value, m) <==> i - 1 <= m <= 98 && Run(d, i, m + 1) && Kept(d, m + 1)
    decreases 100 - i
  {
    if i <= 99 && HasKey(d, SlideKey(i)) {
      Tab4FromStep(d, i);
      Tab4FromMembers(d, i + 1, m);
      Tab4FromNumbered(d, i + 1);
      var rest := Tab4From(d, i + 1).value;
      var pre := Tab4EntrySeq(i - 1, Original(d, i));
      assert Tab4From(d, i).value == pre + rest;
      if HasNumber(rest, m) {
        var k :| 0 <= k < |rest| && rest[k].0 == m;
        assert m >= i;
      }
      // Whether m is found in the scan from i is decided by slide i alone when m == i - 1.
      var found := HasNumber(pre + rest, m);
      if pre != [] {
        HasNumberCons(pre[0], rest, m);
        assert Kept(d, i);
        assert found <==> m == i - 1 || HasNumber(rest, m);
      } else {
        assert pre + rest == rest;
        assert !Kept(d, i);
        assert found <==> HasNumber(rest, m);
      }
      if m + 1 >= i {
        RunCons(d, i, m + 1);
      }
      if m + 1 == i {
        assert found <==> Kept(d, i);
      } else if m >= i {
        assert found <==> HasNumber(rest, m);
      } else {
        assert !found;
      }
    } else if i <= 99 {
      assert !Run(d, i, m + 1) || m + 1 < i;
    }
  }

  /**
   * The re-keyed JSON has an entry numbered m exactly when original slides slide3 ..
   * slide{m+1} are all present (the scan stops at the first gap), m + 1 is at most 99, and
   * slide{m+1} holds a paragraph; the entry is that slide's paragraph and audio_url
   * under the keys `s{m}paragraph1` and `audio_url{m}`.
   */
  lemma Tab4Membership(d: Dict<Json>, m: nat)
    requires Tab4Slides(d).Ok?
    ensures HasNumber(Tab4Slides(d).value, m) <==> 2 <= m <= 98 && Run(d, 3, m + 1) && Kept(d, m + 1)
    ensures HasNumber(Tab4Slides(d).value, m) ==>
              Tab4Entry(m, Original(d, m + 1)).Ok? && Tab4Entry(m, Original(d, m + 1)).value.Some?
  {
    Tab4FromMembers(d, 3, m);
  }

  /** Slides before the gap that are not dicts make the source raise. */
  lemma {:induction false} Tab4FromErrors(d: Dict<Json>, i: nat)
    requires i >= 1
    ensures Tab4From(d, i).Err? <==> exists k :: i <= k <= 99 && Run(d, i, k) && !Original(d, k).Obj?
    decreases 100 - i
  {
    if i <= 99 && HasKey(d, SlideKey(i)) {
      Tab4FromErrors(d, i + 1);
      if Tab4From(d, i).Err? {
        if !Original(d, i).Obj? {
          assert Run(d, i, i);
        } else {
          var k :| i + 1 <= k <= 99 && Run(d, i + 1, k) && !Original(d, k).Obj?;
          assert Run(d, i, k);
        }
      }
      if exists k :: i <= k <= 99 && Run(d, i, k) && !Original(d, k).Obj? {
        var k :| i <= k <= 99 && Run(d, i, k) && !Original(d, k).Obj?;
        if k != i {
          assert Run(d, i + 1, k);
        }
      }
    }
  }

  /** `modify_tab4_json` raises exactly when some slide of the run slide3, slide4, ... is not a dict. */
  lemma Tab4Errors(d: Dict<Json>)
    ensures Tab4Slides(d).Err? <==> exists k :: 3 <= k <= 99 && Run(d, 3, k) && !Original(d, k).Obj?
  {
    Tab4FromErrors(d, 3);
  }

  lemma {:induction false} Tab4FromFrame(d: Dict<Json>, e: Dict<Json>, i: nat)
    requires i >= 1
    requires forall k :: i <= k <= 99 ==> Lookup(d, SlideKey(k)) == Lookup(e, SlideKey(k))
    ensures Tab4From(d, i) == Tab4From(e, i)
    decreases 100 - i
  {
    if i <= 99 {
      Tab4FromFrame(d, e, i + 1);
    }
  }

  /**
   * Only slide3 .. slide99 are read: slide1, slide2 and every other key can change
   * without changing the result.
   */
  lemma Tab4Frame(d: Dict<Json>, e: Dict<Json>)
    requires forall k :: 3 <= k <= 99 ==> Lookup(d, SlideKey(k)) == Lookup(e, SlideKey(k))
    ensures Tab4Slides(d) == Tab4Slides(e)
  {
    Tab4FromFrame(d, e, 3);
  }

  // ---------------------------------------------------------------------------
  // process_content_submission

  /** Index of the first `c` in `s`. */
  function FindChar(s: string, c: char): (r: Option<nat>)
    ensures r.Some? ==> r.value < |s| && s[r.value] == c && c !in s[..r.value]
    ensures r.None? ==> c !in s
    decreases |s|
  {
    if |s| == 0 then None
    else if s[0] == c then Some(0)
    else
      match FindChar(s[1..], c)
      case None => None
      case Some(k) =>
        assert s[..k + 1] == [s[0]] + s[1..][..k];
        Some(k + 1)
  }

  /** The text `attr="{https://` that starts a wrapped link. */
  function WrappedOpen(attr: string): string { attr + "=\"{https://" }

  /**
   * `re.sub(attr + r'="\{(https://[^}]+)\}"', attr + r'="\1"', s)`: every `attr="{https://X}"`
   * with X non-empty and free of `}` loses its braces; the scan restarts after each
   * replacement and otherwise advances one character.
   */
  function UnwrapLinks(s: string, attr: string): string
    decreases |s|
  {
    if |s| == 0 then ""
    else if StartsWith(s, WrappedOpen(attr)) then
      var body := s[|WrappedOpen(attr)|..];
      match FindChar(body, '}')
      case Some(k) =>
        if k >= 1 && k + 1 < |body| && body[k + 1] == '"' then
          attr + "=\"https://" + body[..k] + "\"" + UnwrapLinks(body[k + 2..], attr)
        else [s[0]] + UnwrapLinks(s[1..], attr)
      case None => [s[0]] + UnwrapLinks(s[1..], attr)
    else [s[0]] + UnwrapLinks(s[1..], attr)
  }

  /** Text with no wrapped link is left as it is. */
  lemma {:induction false} UnwrapLinksAbsent(s: string, attr: string)
    requires !Contains(s, WrappedOpen(attr))
    ensures UnwrapLinks(s, attr) == s
    decreases |s|
  {
    if |s| > 0 {
      UnwrapLinksAbsent(s[1..], attr);
      assert [s[0]] + s[1..] == s;
    }
  }

  lemma {:induction false} FindCharAfter(prefix: string, c: char, rest: string)
    requires c !in prefix
    ensures FindChar(prefix + [c] + rest, c) == Some(|prefix|)
    decreases |prefix|
  {
    if |prefix| > 0 {
      assert (prefix + [c] + rest)[1..] == prefix[1..] + [c] + rest;
      FindCharAfter(prefix[1..], c, rest);
    }
  }

  /** A wrapped link at the front is unwrapped and the scan continues after it. */
  lemma UnwrapLinksFront(attr: string, url: string, rest: string)
    requires |url| > 0 && '}' !in url
    ensures UnwrapLinks(WrappedOpen(attr) + url + "}\"" + rest, attr)
         == attr + "=\"https://" + url + "\"" + UnwrapLinks(rest, attr)
  {
    var s := WrappedOpen(attr) + url + "}\"" + rest;
    assert s[..|WrappedOpen(attr)|] == WrappedOpen(attr);
    var body := s[|WrappedOpen(attr)|..];
    assert body == url + ['}'] + ("\"" + rest);
    FindCharAfter(url, '}', "\"" + rest);
    assert body[..|url|] == url;
    assert body[|url| + 2..] == rest;
  }

  /** The str fields of the submission form; a missing one reads as the default. */
  type Submission = Dict<string>

  /**
   * The (token, value) substitutions in the order the source performs them. `now` is the
   * UTC timestamp the source reads from the clock; `userMapping` is the configured
   * name-to-profile-link table. `{{image0}}` is substituted only for a non-empty image URL.
   */
  function SubmissionSubstitutions(sub: Submission, userMapping: Dict<string>, now: string): (r: seq<(string, string)>)
    ensures forall i :: 0 <= i < |r| ==> |r[i].0| > 0
    ensures |r| == if GetOr(sub, "image_url", "") == "" then 12 else 13
    ensures r[4..12] == SubmissionFields(sub)
    ensures |r| == 13 ==> r[12] == ("{{image0}}", GetOr(sub, "image_url", ""))
    ensures r[0] == ("{{user}}", GetOr(sub, "selected_user", "Suvichaar"))
    ensures r[1] == ("{{userprofileurl}}", GetOr(userMapping, GetOr(sub, "selected_user", "Suvichaar"), ""))
    ensures r[2] == ("{{publishedtime}}", now) && r[3] == ("{{modifiedtime}}", now)
  {
    var user := GetOr(sub, "selected_user", "Suvichaar");
    var head := SubmissionHead(user, GetOr(userMapping, user, ""), now);
    var fields := SubmissionFields(sub);
    var image := if GetOr(sub, "image_url", "") != "" then [("{{image0}}", GetOr(sub, "image_url", ""))] else [];
    var r := head + fields + image;
    assert r[..4] == head && r[4..12] == fields && r[12..] == image;
    assert forall i :: 0 <= i < |r| ==> r[i] == if i < 4 then head[i] else if i < 12 then fields[i - 4] else image[i - 12];
    r
  }

  /** The eight story fields, each defaulting to "". */
  function SubmissionFields(sub: Submission): (r: seq<(string, string)>)
    ensures |r| == 8 && forall i :: 0 <= i < 8 ==> |r[i].0| > 0
    ensures r[0] == ("{{storytitle}}", GetOr(sub, "story_title", ""))
    ensures r[1] == ("{{metadescription}}", GetOr(sub, "meta_description", ""))
    ensures r[2] == ("{{metakeywords}}", GetOr(sub, "meta_keywords", ""))
    ensures r[3] == ("{{contenttype}}", GetOr(sub, "content_type", ""))
    ensures r[4] == ("{{lang}}", GetOr(sub, "language", ""))
    ensures r[5] == ("{{pagetitle}}", GetOr(sub, "page_title", ""))
    ensures r[6] == ("{{canurl}}", GetOr(sub, "canonical_url", ""))
    ensures r[7] == ("{{canurl1}}", GetOr(sub, "canonical_url1", ""))
  {
    var tokens := ["{{storytitle}}", "{{metadescription}}", "{{metakeywords}}", "{{contenttype}}",
                   "{{lang}}", "{{pagetitle}}", "{{canurl}}", "{{canurl1}}"];
    var keys := ["story_title", "meta_description", "meta_keywords", "content_type",
                 "language", "page_title", "canonical_url", "canonical_url1"];
    assert forall i :: 0 <= i < 8 ==> |tokens[i]| > 0 by {
      assert |tokens[0]| > 0 && |tokens[1]| > 0 && |tokens[2]| > 0 && |tokens[3]| > 0;
      assert |tokens[4]| > 0 && |tokens[5]| > 0 && |tokens[6]| > 0 && |tokens[7]| > 0;
    }
    seq(8, i requires 0 <= i < 8 => (tokens[i], GetOr(sub, keys[i], "")))
  }

  /** Lines replacing the eight story fields, in the order of `SubmissionFields`. */
  method SubstituteFields(text: string, sub: Submission) returns (r: string)
    ensures r == Substitute(text, SubmissionFields(sub))
  {
    ghost var pairs := SubmissionFields(sub);
    var html := text;
    assert pairs[0..] == pairs;
    SubstituteStep(html, pairs, 0);
    html := ReplaceAll(html, "{{storytitle}}", GetOr(sub, "story_title", ""));
    SubstituteStep(html, pairs, 1);
    html := ReplaceAll(html, "{{metadescription}}", GetOr(sub, "meta_description", ""));
    SubstituteStep(html, pairs, 2);
    html := ReplaceAll(html, "{{metakeywords}}", GetOr(sub, "meta_keywords", ""));
    SubstituteStep(html, pairs, 3);
    html := ReplaceAll(html, "{{contenttype}}", GetOr(sub, "content_type", ""));
    SubstituteStep(html, pairs, 4);
    html := ReplaceAll(html, "{{lang}}", GetOr(sub, "language", ""));
    SubstituteStep(html, pairs, 5);
    html := ReplaceAll(html, "{{pagetitle}}", GetOr(sub, "page_title", ""));
    SubstituteStep(html, pairs, 6);
    html := ReplaceAll(html, "{{canurl}}", GetOr(sub, "canonical_url", ""));
    SubstituteStep(html, pairs, 7);
    html := ReplaceAll(html, "{{canurl1}}", GetOr(sub, "canonical_url1", ""));
    assert pairs[8..] == [];
    r := html;
  }

  /** The user and time tokens, substituted first. */
  function SubmissionHead(user: string, profileUrl: string, now: string): (r: seq<(string, string)>)
    ensures |r| == 4 && forall i :: 0 <= i < 4 ==> |r[i].0| > 0
    ensures r[0] == ("{{user}}", user) && r[1] == ("{{userprofileurl}}", profileUrl)
    ensures r[2] == ("{{publishedtime}}", now) && r[3] == ("{{modifiedtime}}", now)
  {
    [("{{user}}", user), ("{{userprofileurl}}", profileUrl), ("{{publishedtime}}", now), ("{{modifiedtime}}", now)]
  }

  /** Lines replacing the user and time tokens, in the order of `SubmissionHead`. */
  method SubstituteHead(text: string, user: string, profileUrl: string, now: string) returns (r: string)
    ensures r == Substitute(text, SubmissionHead(user, profileUrl, now))
  {
    ghost var pairs := SubmissionHead(user, profileUrl, now);
    var html := text;
    assert pairs[0..] == pairs;
    SubstituteStep(html, pairs, 0);
    html := ReplaceAll(html, "{{user}}", user);
    SubstituteStep(html, pairs, 1);
    html := ReplaceAll(html, "{{userprofileurl}}", profileUrl);
    SubstituteStep(html, pairs, 2);
    html := ReplaceAll(html, "{{publishedtime}}", now);
    SubstituteStep(html, pairs, 3);
    html := ReplaceAll(html, "{{modifiedtime}}", now);
    assert pairs[4..] == [];
    r := html;
  }

  /** The substitutions are the head pairs, the story field pairs and the optional image pair. */
  lemma SubmissionParts(sub: Submission, userMapping: Dict<string>, now: string)
    ensures var user := GetOr(sub, "selected_user", "Suvichaar");
            var image := if GetOr(sub, "image_url", "") != "" then [("{{image0}}", GetOr(sub, "image_url", ""))] else [];
            SubmissionSubstitutions(sub, userMapping, now)
              == SubmissionHead(user, GetOr(userMapping, user, ""), now) + SubmissionFields(sub) + image
  {
  }

  /** The whole run is the head, then the story fields, then the optional image. */
  lemma SubmissionRun(htmlTemplate: string, sub: Submission, userMapping: Dict<string>, now: string)
    ensures Substitute(htmlTemplate, SubmissionSubstitutions(sub, userMapping, now))
         == var user := GetOr(sub, "selected_user", "Suvichaar");
            var image := if GetOr(sub, "image_url", "") != "" then [("{{image0}}", GetOr(sub, "image_url", ""))] else [];
            Substitute(Substitute(Substitute(htmlTemplate, SubmissionHead(user, GetOr(userMapping, user, ""), now)),
                                  SubmissionFields(sub)), image)
  {
    var user := GetOr(sub, "selected_user", "Suvichaar");
    var head := SubmissionHead(user, GetOr(userMapping, user, ""), now);
    var fields := SubmissionFields(sub);
    var image := if GetOr(sub, "image_url", "") != "" then [("{{image0}}", GetOr(sub, "image_url", ""))] else [];
    SubmissionParts(sub, userMapping, now);
    SubstituteAppend(htmlTemplate, head, fields);
    SubstituteAppend(htmlTemplate, head + fields, image);
  }

  method ProcessContentSubmission(htmlTemplate: string, sub: Submission, userMapping: Dict<string>, now: string)
    returns (r: string)
    ensures r == UnwrapLinks(UnwrapLinks(Substitute(htmlTemplate, SubmissionSubstitutions(sub, userMapping, now)), "href"), "src")
  {
    var selectedUser := GetOr(sub, "selected_user", "Suvichaar");
    var userProfileUrl := GetOr(userMapping, selectedUser, "");
    SubmissionRun(htmlTemplate, sub, userMapping, now);
    var html := SubstituteHead(htmlTemplate, selectedUser, userProfileUrl, now);
    html := SubstituteFields(html, sub);
    var imageUrl := GetOr(sub, "image_url", "");
    if imageUrl != "" {
      ghost var image := [("{{image0}}", imageUrl)];
      assert Substitute(html, image) == ReplaceAll(html, "{{image0}}", imageUrl) by {
        assert image[1..] == [];
      }
      html := ReplaceAll(html, "{{image0}}", imageUrl);
    }
    html := UnwrapLinks(html, "href");
    html := UnwrapLinks(html, "src");
    r := html;
  }

  /** A submission template with no token and no wrapped link is returned unchanged. */
  lemma ContentSubmissionUntouched(htmlTemplate: string, sub: Submission, userMapping: Dict<string>, now: string)
    requires forall i :: 0 <= i < |SubmissionSubstitutions(sub, userMapping, now)| ==>
               !Contains(htmlTemplate, SubmissionSubstitutions(sub, userMapping, now)[i].0)
    requires !Contains(htmlTemplate, WrappedOpen("href")) && !Contains(htmlTemplate, WrappedOpen("src"))
    ensures UnwrapLinks(UnwrapLinks(Substitute(htmlTemplate, SubmissionSubstitutions(sub, userMapping, now)), "href"), "src")
         == htmlTemplate
  {
    SubstituteAbsent(htmlTemplate, SubmissionSubstitutions(sub, userMapping, now));
    UnwrapLinksAbsent(htmlTemplate, "href");
    UnwrapLinksAbsent(htmlTemplate, "src");
  }

  // ---------------------------------------------------------------------------
  // generate_metadata

  const StoryLogoLink := "https://media.suvichaar.org/filters:resize/96x96/media/brandasset/suvichaariconblack.png"

  const MetadataKeys: seq<string> :=
    ["story_title", "categories", "filterTags", "story_uid", "story_link", "storyhtmlurl", "urlslug",
     "cover_image_link", "publisher_id", "story_logo_link", "keywords", "metadescription", "lang"]

  /** The metadata record: the inputs under their published names, publisher 1 and the brand logo. */
  function GenerateMetadata(storyTitle: string, categories: int, filterTags: seq<string>, nano: string,
                            slugNano: string, canonicalUrl: string, canonicalUrl1: string,
                            coverImageUrl: string, metaKeywords: string, metaDescription: string,
                            language: string): (r: Dict<Json>)
    ensures Keys(r) == MetadataKeys
  {
    [("story_title", Str(storyTitle)),
     ("categories", Num(categories)),
     ("filterTags", Arr(seq(|filterTags|, i requires 0 <= i < |filterTags| => Str(filterTags[i])))),
     ("story_uid", Str(nano)),
     ("story_link", Str(canonicalUrl)),
     ("storyhtmlurl", Str(canonicalUrl1)),
     ("urlslug", Str(slugNano)),
     ("cover_image_link", Str(coverImageUrl)),
     ("publisher_id", Num(1)),
     ("story_logo_link", Str(StoryLogoLink)),
     ("keywords", Str(metaKeywords)),
     ("metadescription", Str(metaDescription)),
     ("lang", Str(language))]
  }
}
