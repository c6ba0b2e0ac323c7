/**
 * The text-to-speech stage of app/services/tts_service.py and the renderer input built from
 * its output. `synthesize_and_upload` voices the script keys it knows (storytitle, hookline,
 * s1paragraph1..s9paragraph1) into `slide1`, `slide2`, ... with no gaps; the speech call
 * (HTTP request, temporary file, S3 upload) is the parameter `speak`. `generate_remotion_input`
 * flattens a dict into numbered renderer slides that always end with the call-to-action
 * slide; `transliterate_to_devanagari` rewrites slide paragraphs through a language model
 * that may fail.
 */
module TtsService {
  import opened Wrappers
  import opened Text
  import opened PyJson
  import opened SlideKeys

  /** The speech call: (text, voice) to the CDN URL of the uploaded audio, or the failure it raised. */
  type Speech = (string, string) -> Result<string>

  /** `s1paragraph1` .. `s9paragraph1`, the `for i in range(1, 10)` keys. */
  const ParagraphKeys: seq<string> :=
    [ParagraphKey(1), ParagraphKey(2), ParagraphKey(3), ParagraphKey(4), ParagraphKey(5),
     ParagraphKey(6), ParagraphKey(7), ParagraphKey(8), ParagraphKey(9)]

  /** The i-th key of the paragraph loop is `s{i}paragraph1`. */
  lemma ParagraphKeysAt(i: nat)
    requires 1 <= i <= 9
    ensures |ParagraphKeys| == 9 && ParagraphKeys[i - 1] == ParagraphKey(i)
  {
    if i <= 3 {
      assert i == 1 || i == 2 || i == 3;
    } else if i <= 6 {
      assert i == 4 || i == 5 || i == 6;
    } else {
      assert i == 7 || i == 8 || i == 9;
    }
  }

  lemma SuffixCons<T>(s: seq<T>, i: nat, t: seq<T>)
    requires i < |s|
    ensures s[i..] + t == [s[i]] + (s[i + 1..] + t)
  {
  }

  lemma AppendOne<T>(done: seq<T>, x: T, rest: seq<T>)
    ensures done + ([x] + rest) == (done + [x]) + rest
  {
  }

  /** The keys `synthesize_and_upload` looks for, in the order it looks. */
  const SpokenKeys: seq<string> := ["storytitle", "hookline"] + ParagraphKeys

  /** The keys of `keys` that `d` has, in the order of `keys`. */
  function Present<V>(keys: seq<string>, d: Dict<V>): (r: seq<string>)
    ensures |r| <= |keys|
    ensures forall j :: 0 <= j < |r| ==> HasKey(d, r[j])
    decreases |keys|
  {
    if |keys| == 0 then []
    else (if HasKey(d, keys[0]) then [keys[0]] else []) + Present(keys[1..], d)
  }

  /** The present keys are the keys of `keys` that `d` has. */
  lemma {:induction false} PresentMembers<V>(keys: seq<string>, d: Dict<V>)
    ensures forall k :: k in Present(keys, d) <==> k in keys && HasKey(d, k)
    decreases |keys|
  {
    if |keys| > 0 {
      PresentMembers(keys[1..], d);
      assert keys == [keys[0]] + keys[1..];
    }
  }

  /** A dict whose keys are exactly `slide1`, `slide2`, ..., `slide{next-1}`, in that order. */
  predicate SlideNumbered<V>(d: Dict<V>, next: nat) {
    |d| + 1 == next && forall j :: 0 <= j < |d| ==> d[j].0 == SlideKey(j + 1)
  }

  /** In a slide-numbered dict the next slide key is fresh, so `d[f"slide{next}"] = v` appends. */
  lemma NextSlideKeyFresh<V>(d: Dict<V>, next: nat)
    requires SlideNumbered(d, next)
    ensures !HasKey(d, SlideKey(next))
  {
    if HasKey(d, SlideKey(next)) {
      var j :| 0 <= j < |d| && Keys(d)[j] == SlideKey(next);
      SlideKeyInjective(j + 1, next);
      assert false;
    }
  }

  /** The prefix built so far in front of what the rest of the run builds; a failure wins. */
  function Continued(done: Dict<Json>, rest: Result<Dict<Json>>): Result<Dict<Json>> {
    if rest.Err? then rest else Ok(done + rest.value)
  }

  lemma ContinuedEmpty(r: Result<Dict<Json>>)
    ensures Continued([], r) == r
  {
    if r.Ok? {
      assert [] + r.value == r.value;
    }
  }

  // ---------------------------------------------------------------------------
  // synthesize_and_upload

  /** One voiced slide: the text under its original key, the audio URL and the voice. */
  function SpokenEntry(key: string, text: string, url: string, voice: string): Json {
    Obj([(key, Str(text)), ("audio_url", Str(url)), ("voice", Str(voice))])
  }

  /** The slides voiced from `keys` onwards, numbered from `next`; the first failing call fails the run. */
  function SynthesizeFrom(paragraphs: Dict<string>, voice: string, speak: Speech, keys: seq<string>, next: nat)
    : Result<Dict<Json>>
    decreases |keys|
  {
    if |keys| == 0 then Ok([])
    else
      match Lookup(paragraphs, keys[0])
      case None => SynthesizeFrom(paragraphs, voice, speak, keys[1..], next)
      case Some(text) =>
        match speak(text, voice)
        case Err(e) => Err(e)
        case Ok(url) =>
          Continued([(SlideKey(next), SpokenEntry(keys[0], text, url, voice))],
                    SynthesizeFrom(paragraphs, voice, speak, keys[1..], next + 1))
  }

  function Synthesize(paragraphs: Dict<string>, voice: string, speak: Speech): Result<Dict<Json>> {
    SynthesizeFrom(paragraphs, voice, speak, SpokenKeys, 1)
  }

  /** The key is present and its speech call succeeds. */
  predicate Voiced(paragraphs: Dict<string>, voice: string, speak: Speech, key: string) {
    HasKey(paragraphs, key) && speak(Lookup(paragraphs, key).value, voice).Ok?
  }

  function VoicedEntry(paragraphs: Dict<string>, voice: string, speak: Speech, key: string): Json
    requires Voiced(paragraphs, voice, speak, key)
  {
    var text := Lookup(paragraphs, key).value;
    SpokenEntry(key, text, speak(text, voice).value, voice)
  }

  /** Every key of `ks` is voiced. */
  predicate AllVoiced(paragraphs: Dict<string>, voice: string, speak: Speech, ks: seq<string>) {
    forall j :: 0 <= j < |ks| ==> Voiced(paragraphs, voice, speak, ks[j])
  }

  /** The run succeeds exactly when every present key's speech call succeeds. */
  lemma {:induction false} SynthesizeFromOk(paragraphs: Dict<string>, voice: string, speak: Speech,
                                            keys: seq<string>, next: nat)
    ensures SynthesizeFrom(paragraphs, voice, speak, keys, next).Ok?
        <==> AllVoiced(paragraphs, voice, speak, Present(keys, paragraphs))
    decreases |keys|
  {
    if |keys| > 0 {
      var present := Present(keys, paragraphs);
      var tail := Present(keys[1..], paragraphs);
      SynthesizeFromOk(paragraphs, voice, speak, keys[1..], next + 1);
      if HasKey(paragraphs, keys[0]) {
        assert present == [keys[0]] + tail;
        if AllVoiced(paragraphs, voice, speak, present) {
          assert present[0] == keys[0];
          assert forall j :: 0 <= j < |tail| ==> tail[j] == present[j + 1];
        }
        if Voiced(paragraphs, voice, speak, keys[0]) && AllVoiced(paragraphs, voice, speak, tail) {
          assert forall j :: 1 <= j < |present| ==> present[j] == tail[j - 1];
        }
      } else {
        SynthesizeFromOk(paragraphs, voice, speak, keys[1..], next);
        assert SynthesizeFrom(paragraphs, voice, speak, keys, next)
            == SynthesizeFrom(paragraphs, voice, speak, keys[1..], next);
        assert present == tail;
      }
    }
  }

  /** In a successful run every present key is voiced and slide `next + j` voices the j-th of them. */
  lemma {:induction false} SynthesizeFromEntry(paragraphs: Dict<string>, voice: string, speak: Speech,
                                               keys: seq<string>, next: nat, j: nat)
    requires SynthesizeFrom(paragraphs, voice, speak, keys, next).Ok?
    requires j < |Present(keys, paragraphs)|
    ensures Voiced(paragraphs, voice, speak, Present(keys, paragraphs)[j])
    ensures var r := SynthesizeFrom(paragraphs, voice, speak, keys, next).value;
            j < |r| &&
            r[j] == (SlideKey(next + j), VoicedEntry(paragraphs, voice, speak, Present(keys, paragraphs)[j]))
    decreases |keys|
  {
    var present := Present(keys, paragraphs);
    var tail := Present(keys[1..], paragraphs);
    if HasKey(paragraphs, keys[0]) {
      assert present == [keys[0]] + tail;
      if j > 0 {
        assert (next + 1) + (j - 1) == next + j;
        SynthesizeFromEntry(paragraphs, voice, speak, keys[1..], next + 1, j - 1);
        assert present[j] == tail[j - 1];
      }
    } else {
      assert present == tail;
      SynthesizeFromEntry(paragraphs, voice, speak, keys[1..], next, j);
    }
  }

  /** A successful run holds one slide per present key, slide `next + j` at position j. */
  lemma {:induction false} SynthesizeFromKey(paragraphs: Dict<string>, voice: string, speak: Speech,
                                             keys: seq<string>, next: nat, j: nat)
    requires SynthesizeFrom(paragraphs, voice, speak, keys, next).Ok?
    ensures var r := SynthesizeFrom(paragraphs, voice, speak, keys, next).value;
            |r| == |Present(keys, paragraphs)| && (j < |r| ==> r[j].0 == SlideKey(next + j))
    decreases |keys|
  {
    if |keys| > 0 {
      var present := Present(keys, paragraphs);
      var tail := Present(keys[1..], paragraphs);
      if HasKey(paragraphs, keys[0]) {
        assert present == [keys[0]] + tail;
        assert (next + 1) + (j - 1) == next + j;
        SynthesizeFromKey(paragraphs, voice, speak, keys[1..], next + 1, if j > 0 then j - 1 else 0);
      } else {
        assert present == tail;
        SynthesizeFromKey(paragraphs, voice, speak, keys[1..], next, j);
      }
    }
  }

  /** `synthesize_and_upload` returns `slide1..slideK` with no gaps, K the number of script keys present. */
  lemma SynthesizeNumbered(paragraphs: Dict<string>, voice: string, speak: Speech)
    requires Synthesize(paragraphs, voice, speak).Ok?
    ensures SlideNumbered(Synthesize(paragraphs, voice, speak).value, |Present(SpokenKeys, paragraphs)| + 1)
  {
    var r := Synthesize(paragraphs, voice, speak).value;
    SynthesizeFromKey(paragraphs, voice, speak, SpokenKeys, 1, 0);
    forall j | 0 <= j < |r| ensures r[j].0 == SlideKey(j + 1) {
      SynthesizeFromKey(paragraphs, voice, speak, SpokenKeys, 1, j);
      assert 1 + j == j + 1;
    }
  }

  /**
   * `synthesize_and_upload` fails (with no partial result) exactly when the speech call fails
   * for one of the script keys present.
   */
  lemma SynthesizeSucceeds(paragraphs: Dict<string>, voice: string, speak: Speech)
    ensures Synthesize(paragraphs, voice, speak).Ok?
        <==> forall k :: k in SpokenKeys && HasKey(paragraphs, k) ==> Voiced(paragraphs, voice, speak, k)
  {
    var present := Present(SpokenKeys, paragraphs);
    SynthesizeFromOk(paragraphs, voice, speak, SpokenKeys, 1);
    PresentMembers(SpokenKeys, paragraphs);
    if Synthesize(paragraphs, voice, speak).Ok? {
      forall k | k in SpokenKeys && HasKey(paragraphs, k) ensures Voiced(paragraphs, voice, speak, k) {
        var j :| 0 <= j < |present| && present[j] == k;
      }
    }
    if forall k :: k in SpokenKeys && HasKey(paragraphs, k) ==> Voiced(paragraphs, voice, speak, k) {
      forall j | 0 <= j < |present| ensures Voiced(paragraphs, voice, speak, present[j]) {
        assert present[j] in present;
      }
    }
  }

  /**
   * On success, slides `slide1..slideK` with no gaps, K the number of script keys present;
   * slide j voices the j-th of them in the order storytitle, hookline, s1..s9paragraph1.
   */
  lemma SynthesizeSlides(paragraphs: Dict<string>, voice: string, speak: Speech)
    requires Synthesize(paragraphs, voice, speak).Ok?
    ensures var r := Synthesize(paragraphs, voice, speak).value;
            var present := Present(SpokenKeys, paragraphs);
            SlideNumbered(r, |present| + 1) &&
            forall j :: 0 <= j < |present| ==>
              Voiced(paragraphs, voice, speak, present[j]) &&
              r[j].1 == VoicedEntry(paragraphs, voice, speak, present[j])
  {
    var r := Synthesize(paragraphs, voice, speak).value;
    var present := Present(SpokenKeys, paragraphs);
    SynthesizeNumbered(paragraphs, voice, speak);
    forall j | 0 <= j < |present|
      ensures Voiced(paragraphs, voice, speak, present[j])
      ensures r[j].1 == VoicedEntry(paragraphs, voice, speak, present[j])
    {
      SynthesizeFromEntry(paragraphs, voice, speak, SpokenKeys, 1, j);
    }
  }

  /** A key outside storytitle, hookline and s1..s9paragraph1 (`s10paragraph1`, say) is never voiced. */
  lemma SynthesizeIgnores(paragraphs: Dict<string>, key: string)
    requires key !in SpokenKeys
    ensures key !in Present(SpokenKeys, paragraphs)
  {
    PresentMembers(SpokenKeys, paragraphs);
  }

  /**
   * One `if key in paragraphs:` block of the source (the storytitle block, the hookline block
   * and the body of the paragraph loop have this same shape).
   */
  method VoiceKey(paragraphs: Dict<string>, voice: string, speak: Speech, key: string,
                  result: Dict<Json>, slideIndex: nat, ghost rest: seq<string>)
    returns (failure: Option<string>, result': Dict<Json>, slideIndex': nat)
    requires SlideNumbered(result, slideIndex)
    ensures failure.Some? ==> SynthesizeFrom(paragraphs, voice, speak, [key] + rest, slideIndex) == Err(failure.value)
    ensures failure.None? ==> SlideNumbered(result', slideIndex')
    ensures failure.None? ==>
              Continued(result, SynthesizeFrom(paragraphs, voice, speak, [key] + rest, slideIndex))
              == Continued(result', SynthesizeFrom(paragraphs, voice, speak, rest, slideIndex'))
  {
    assert ([key] + rest)[1..] == rest;
    match Lookup(paragraphs, key)
    case None =>
      return None, result, slideIndex;
    case Some(text) =>
      match speak(text, voice)
      case Err(e) =>
        return Some(e), result, slideIndex;
      case Ok(audioUrl) =>
        NextSlideKeyFresh(result, slideIndex);
        result' := Put(result, SlideKey(slideIndex), SpokenEntry(key, text, audioUrl, voice));
        slideIndex' := slideIndex + 1;
        failure := None;
        var tail := SynthesizeFrom(paragraphs, voice, speak, rest, slideIndex');
        if tail.Ok? {
          AppendOne(result, (SlideKey(slideIndex), SpokenEntry(key, text, audioUrl, voice)), tail.value);
        }
  }

  /** `synthesize_and_upload(paragraphs, voice)` with the speech call as `speak`. */
  method SynthesizeAndUpload(paragraphs: Dict<string>, voice: string, speak: Speech)
    returns (r: Result<Dict<Json>>)
    ensures r == Synthesize(paragraphs, voice, speak)
  {
    ghost var target := Synthesize(paragraphs, voice, speak);
    var result: Dict<Json> := [];
    var slideIndex: nat := 1;
    var failure: Option<string>;
    ContinuedEmpty(target);
    assert SpokenKeys == ["storytitle"] + (["hookline"] + ParagraphKeys);
    failure, result, slideIndex :=
      VoiceKey(paragraphs, voice, speak, "storytitle", result, slideIndex, ["hookline"] + ParagraphKeys);
    if failure.Some? {
      return Err(failure.value);
    }
    failure, result, slideIndex := VoiceKey(paragraphs, voice, speak, "hookline", result, slideIndex, ParagraphKeys);
    if failure.Some? {
      return Err(failure.value);
    }
    for i := 1 to 10
      invariant SlideNumbered(result, slideIndex)
      invariant target == Continued(result, SynthesizeFrom(paragraphs, voice, speak, ParagraphKeys[i - 1..], slideIndex))
    {
      ParagraphKeysAt(i);
      SuffixCons(ParagraphKeys, i - 1, []);
      assert ParagraphKeys[i - 1..] + [] == ParagraphKeys[i - 1..] && ParagraphKeys[i..] + [] == ParagraphKeys[i..];
      failure, result, slideIndex :=
        VoiceKey(paragraphs, voice, speak, ParagraphKey(i), result, slideIndex, ParagraphKeys[i..]);
      if failure.Some? {
        return Err(failure.value);
      }
    }
    assert result + [] == result;
    return Ok(result);
  }

  // ---------------------------------------------------------------------------
  // generate_remotion_input

  const CtaParagraph := "Get Such\nInspirational\nContent"
  const CtaAudio := "https://cdn.suvichaar.org/media/tts_407078a4ff494fb5bed8c35050ffd1a7.mp3"
  const CtaFooter := "Like | Subscribe | Share\nwww.suvichaar.org"

  /** The keys `generate_remotion_input` looks for: storytitle, the paragraphs, then hookline last. */
  const RemotionKeys: seq<string> := ["storytitle"] + ParagraphKeys + ["hookline"]

  /** The closing call-to-action slide, the same whatever the input. */
  function CtaEntry(n: nat): Json {
    Obj([(ParagraphKey(n), Str(CtaParagraph)), (Audio1Key(n), Str(CtaAudio)),
         (Video1Key(n), Str("")), (Paragraph2Key(n), Str(CtaFooter))])
  }

  function ContentEntry(n: nat, text: Json, audio: Json, fixedImageUrl: string, authorName: string): Json {
    Obj([(ParagraphKey(n), text), (Audio1Key(n), audio),
         (Image1Key(n), Str(fixedImageUrl)), (Paragraph2Key(n), Str("- " + authorName))])
  }

  /** `tts_output.get(f"slide{n}", {}).get("audio_url", "")`: fails when slide n is not a dict. */
  function SlideAudio(ttsOutput: Dict<Json>, n: nat): Result<Json> {
    GetField(GetOr(ttsOutput, SlideKey(n), Obj([])), "audio_url", Str(""))
  }

  /** The audio lookup fails exactly when `slide{n}` is there and is not a dict. */
  lemma SlideAudioFails(ttsOutput: Dict<Json>, n: nat)
    ensures SlideAudio(ttsOutput, n).Err? <==> HasKey(ttsOutput, SlideKey(n)) && !Lookup(ttsOutput, SlideKey(n)).value.Obj?
  {
  }

  /** The renderer slides for `keys` onwards, numbered from n, closed by the call-to-action slide. */
  function RemotionFrom(ttsOutput: Dict<Json>, audio: nat -> Result<Json>, fixedImageUrl: string, authorName: string, keys: seq<string>, n: nat)
    : Result<Dict<Json>>
    decreases |keys|
  {
    if |keys| == 0 then Ok([(SlideKey(n), CtaEntry(n))])
    else
      match Lookup(ttsOutput, keys[0])
      case None => RemotionFrom(ttsOutput, audio, fixedImageUrl, authorName, keys[1..], n)
      case Some(text) =>
        match audio(n)
        case Err(e) => Err(e)
        case Ok(audioUrl) =>
          Continued([(SlideKey(n), ContentEntry(n, text, audioUrl, fixedImageUrl, authorName))],
                    RemotionFrom(ttsOutput, audio, fixedImageUrl, authorName, keys[1..], n + 1))
  }

  /** The audio lookup of `generate_remotion_input` as a function of the slide number. */
  function AudioOf(ttsOutput: Dict<Json>): nat -> Result<Json> {
    (n: nat) => SlideAudio(ttsOutput, n)
  }

  function Remotion(ttsOutput: Dict<Json>, fixedImageUrl: string, authorName: string): Result<Dict<Json>> {
    RemotionFrom(ttsOutput, AudioOf(ttsOutput), fixedImageUrl, authorName, RemotionKeys, 1)
  }

  /** A failing run names the content slide whose audio lookup failed. */
  lemma {:induction false} RemotionFromFailure(ttsOutput: Dict<Json>, audio: nat -> Result<Json>, fixedImageUrl: string, authorName: string,
                                               keys: seq<string>, n: nat) returns (j: nat)
    requires RemotionFrom(ttsOutput, audio, fixedImageUrl, authorName, keys, n).Err?
    ensures n <= j < n + |Present(keys, ttsOutput)| && audio(j).Err?
    decreases |keys|
  {
    if HasKey(ttsOutput, keys[0]) {
      assert Present(keys, ttsOutput) == [keys[0]] + Present(keys[1..], ttsOutput);
      if audio(n).Err? {
        j := n;
      } else {
        j := RemotionFromFailure(ttsOutput, audio, fixedImageUrl, authorName, keys[1..], n + 1);
      }
    } else {
      assert Present(keys, ttsOutput) == Present(keys[1..], ttsOutput);
      j := RemotionFromFailure(ttsOutput, audio, fixedImageUrl, authorName, keys[1..], n);
    }
  }

  /** A failing audio lookup for one of the content slides fails the run. */
  lemma {:induction false} RemotionFromFails(ttsOutput: Dict<Json>, audio: nat -> Result<Json>, fixedImageUrl: string, authorName: string,
                                             keys: seq<string>, n: nat, j: nat)
    requires n <= j < n + |Present(keys, ttsOutput)| && audio(j).Err?
    ensures RemotionFrom(ttsOutput, audio, fixedImageUrl, authorName, keys, n).Err?
    decreases |keys|
  {
    if HasKey(ttsOutput, keys[0]) {
      assert Present(keys, ttsOutput) == [keys[0]] + Present(keys[1..], ttsOutput);
      if j > n {
        RemotionFromFails(ttsOutput, audio, fixedImageUrl, authorName, keys[1..], n + 1, j);
      }
    } else {
      assert Present(keys, ttsOutput) == Present(keys[1..], ttsOutput);
      RemotionFromFails(ttsOutput, audio, fixedImageUrl, authorName, keys[1..], n, j);
    }
  }

  /** A present key in a successful run: its content slide numbered n, then the rest from n + 1. */
  lemma RemotionFromStep(ttsOutput: Dict<Json>, audio: nat -> Result<Json>, fixedImageUrl: string, authorName: string,
                         keys: seq<string>, n: nat)
    requires |keys| > 0 && HasKey(ttsOutput, keys[0])
    requires RemotionFrom(ttsOutput, audio, fixedImageUrl, authorName, keys, n).Ok?
    ensures audio(n).Ok? && RemotionFrom(ttsOutput, audio, fixedImageUrl, authorName, keys[1..], n + 1).Ok?
    ensures RemotionFrom(ttsOutput, audio, fixedImageUrl, authorName, keys, n).value
         == [(SlideKey(n), ContentEntry(n, Lookup(ttsOutput, keys[0]).value, audio(n).value,
                                        fixedImageUrl, authorName))]
            + RemotionFrom(ttsOutput, audio, fixedImageUrl, authorName, keys[1..], n + 1).value
  {
  }

  /** A successful run ends with the call-to-action slide, numbered after the content slides. */
  lemma {:induction false} RemotionFromLast(ttsOutput: Dict<Json>, audio: nat -> Result<Json>, fixedImageUrl: string, authorName: string,
                                            keys: seq<string>, n: nat)
    requires RemotionFrom(ttsOutput, audio, fixedImageUrl, authorName, keys, n).Ok?
    ensures var r := RemotionFrom(ttsOutput, audio, fixedImageUrl, authorName, keys, n).value;
            var k := |Present(keys, ttsOutput)|;
            |r| == k + 1 && r[k] == (SlideKey(n + k), CtaEntry(n + k))
    decreases |keys|
  {
    if |keys| > 0 {
      var tail := Present(keys[1..], ttsOutput);
      if HasKey(ttsOutput, keys[0]) {
        RemotionFromStep(ttsOutput, audio, fixedImageUrl, authorName, keys, n);
        RemotionFromLast(ttsOutput, audio, fixedImageUrl, authorName, keys[1..], n + 1);
        assert Present(keys, ttsOutput) == [keys[0]] + tail;
        var rest := RemotionFrom(ttsOutput, audio, fixedImageUrl, authorName, keys[1..], n + 1).value;
        assert RemotionFrom(ttsOutput, audio, fixedImageUrl, authorName, keys, n).value[|tail| + 1] == rest[|tail|];
        assert (n + 1) + |tail| == n + (|tail| + 1);
      } else {
        RemotionFromLast(ttsOutput, audio, fixedImageUrl, authorName, keys[1..], n);
        assert Present(keys, ttsOutput) == tail;
      }
    }
  }

  /** In a successful run every content slide's audio lookup succeeded. */
  lemma {:induction false} RemotionFromAudio(ttsOutput: Dict<Json>, audio: nat -> Result<Json>, fixedImageUrl: string, authorName: string,
                                             keys: seq<string>, n: nat, m: nat)
    requires RemotionFrom(ttsOutput, audio, fixedImageUrl, authorName, keys, n).Ok?
    requires n <= m < n + |Present(keys, ttsOutput)|
    ensures audio(m).Ok?
    decreases |keys|
  {
    if HasKey(ttsOutput, keys[0]) {
      RemotionFromStep(ttsOutput, audio, fixedImageUrl, authorName, keys, n);
      assert Present(keys, ttsOutput) == [keys[0]] + Present(keys[1..], ttsOutput);
      if m > n {
        RemotionFromAudio(ttsOutput, audio, fixedImageUrl, authorName, keys[1..], n + 1, m);
      }
    } else {
      assert Present(keys, ttsOutput) == Present(keys[1..], ttsOutput);
      RemotionFromAudio(ttsOutput, audio, fixedImageUrl, authorName, keys[1..], n, m);
    }
  }

  /** In a successful run slide `n + j` is the content slide of the j-th present key. */
  lemma {:induction false} RemotionFromEntry(ttsOutput: Dict<Json>, audio: nat -> Result<Json>, fixedImageUrl: string, authorName: string,
                                             keys: seq<string>, n: nat, j: nat)
    requires RemotionFrom(ttsOutput, audio, fixedImageUrl, authorName, keys, n).Ok?
    requires j < |Present(keys, ttsOutput)| && audio(n + j).Ok?
    ensures var r := RemotionFrom(ttsOutput, audio, fixedImageUrl, authorName, keys, n).value;
            j < |r| &&
            r[j] == (SlideKey(n + j), ContentEntry(n + j, Lookup(ttsOutput, Present(keys, ttsOutput)[j]).value,
                                                   audio(n + j).value, fixedImageUrl, authorName))
    decreases |keys|
  {
    var present := Present(keys, ttsOutput);
    var tail := Present(keys[1..], ttsOutput);
    if HasKey(ttsOutput, keys[0]) {
      RemotionFromStep(ttsOutput, audio, fixedImageUrl, authorName, keys, n);
      assert present == [keys[0]] + tail;
      if j > 0 {
        var m := j - 1;
        assert (n + 1) + m == n + j;
        RemotionFromEntry(ttsOutput, audio, fixedImageUrl, authorName, keys[1..], n + 1, m);
        var rest := RemotionFrom(ttsOutput, audio, fixedImageUrl, authorName, keys[1..], n + 1).value;
        assert RemotionFrom(ttsOutput, audio, fixedImageUrl, authorName, keys, n).value[j] == rest[m];
        assert present[j] == tail[m];
      }
    } else {
      assert present == tail;
      RemotionFromEntry(ttsOutput, audio, fixedImageUrl, authorName, keys[1..], n, j);
    }
  }

  /** In a successful run slide `n + j` sits at position j, the call-to-action slide included. */
  lemma {:induction false} RemotionFromKey(ttsOutput: Dict<Json>, audio: nat -> Result<Json>, fixedImageUrl: string, authorName: string,
                                           keys: seq<string>, n: nat, j: nat)
    requires RemotionFrom(ttsOutput, audio, fixedImageUrl, authorName, keys, n).Ok?
    requires j <= |Present(keys, ttsOutput)|
    ensures var r := RemotionFrom(ttsOutput, audio, fixedImageUrl, authorName, keys, n).value;
            j < |r| && r[j].0 == SlideKey(n + j)
    decreases |keys|
  {
    if |keys| > 0 {
      var present := Present(keys, ttsOutput);
      var tail := Present(keys[1..], ttsOutput);
      if HasKey(ttsOutput, keys[0]) {
        RemotionFromStep(ttsOutput, audio, fixedImageUrl, authorName, keys, n);
        assert present == [keys[0]] + tail;
        if j > 0 {
          var m := j - 1;
          assert (n + 1) + m == n + j;
          RemotionFromKey(ttsOutput, audio, fixedImageUrl, authorName, keys[1..], n + 1, m);
          var rest := RemotionFrom(ttsOutput, audio, fixedImageUrl, authorName, keys[1..], n + 1).value;
          assert RemotionFrom(ttsOutput, audio, fixedImageUrl, authorName, keys, n).value[j] == rest[m];
        }
      } else {
        assert present == tail;
        RemotionFromKey(ttsOutput, audio, fixedImageUrl, authorName, keys[1..], n, j);
      }
    }
  }

  /** From slide 1: the slides are numbered without gaps and the last is the call-to-action slide. */
  lemma RemotionFromNumbered(ttsOutput: Dict<Json>, audio: nat -> Result<Json>, fixedImageUrl: string, authorName: string, keys: seq<string>)
    requires RemotionFrom(ttsOutput, audio, fixedImageUrl, authorName, keys, 1).Ok?
    ensures var r := RemotionFrom(ttsOutput, audio, fixedImageUrl, authorName, keys, 1).value;
            var k := |Present(keys, ttsOutput)|;
            SlideNumbered(r, k + 2) && r[k].1 == CtaEntry(k + 1)
  {
    var r := RemotionFrom(ttsOutput, audio, fixedImageUrl, authorName, keys, 1).value;
    var k := |Present(keys, ttsOutput)|;
    RemotionFromLast(ttsOutput, audio, fixedImageUrl, authorName, keys, 1);
    assert 1 + k == k + 1;
    forall j | 0 <= j < |r| ensures r[j].0 == SlideKey(j + 1) {
      RemotionFromKey(ttsOutput, audio, fixedImageUrl, authorName, keys, 1, j);
      assert 1 + j == j + 1;
    }
  }

  /** From slide 1: content slide j + 1 is built from the j-th present key. */
  lemma RemotionFromContent(ttsOutput: Dict<Json>, audio: nat -> Result<Json>, fixedImageUrl: string, authorName: string, keys: seq<string>)
    requires RemotionFrom(ttsOutput, audio, fixedImageUrl, authorName, keys, 1).Ok?
    ensures |RemotionFrom(ttsOutput, audio, fixedImageUrl, authorName, keys, 1).value| == |Present(keys, ttsOutput)| + 1
    ensures forall m :: 1 <= m <= |Present(keys, ttsOutput)| ==> audio(m).Ok?
    ensures var r := RemotionFrom(ttsOutput, audio, fixedImageUrl, authorName, keys, 1).value;
            var present := Present(keys, ttsOutput);
            forall j :: 0 <= j < |present| ==>
              r[j].1 == ContentEntry(j + 1, Lookup(ttsOutput, present[j]).value,
                                     audio(j + 1).value, fixedImageUrl, authorName)
  {
    var r := RemotionFrom(ttsOutput, audio, fixedImageUrl, authorName, keys, 1).value;
    var present := Present(keys, ttsOutput);
    RemotionFromLast(ttsOutput, audio, fixedImageUrl, authorName, keys, 1);
    forall m | 1 <= m <= |present| ensures audio(m).Ok? {
      RemotionFromAudio(ttsOutput, audio, fixedImageUrl, authorName, keys, 1, m);
    }
    forall j | 0 <= j < |present|
      ensures r[j].1 == ContentEntry(j + 1, Lookup(ttsOutput, present[j]).value,
                                     audio(j + 1).value, fixedImageUrl, authorName)
    {
      RemotionFromAudio(ttsOutput, audio, fixedImageUrl, authorName, keys, 1, 1 + j);
      RemotionFromEntry(ttsOutput, audio, fixedImageUrl, authorName, keys, 1, j);
      assert 1 + j == j + 1;
    }
  }

  /**
   * `generate_remotion_input`: exactly K+1 slides `slide1..slide(K+1)`, K the number of keys
   * present among storytitle, s1..s9paragraph1 and hookline, and the last is the
   * call-to-action slide whatever the input.
   */
  lemma RemotionSlides(ttsOutput: Dict<Json>, fixedImageUrl: string, authorName: string)
    requires Remotion(ttsOutput, fixedImageUrl, authorName).Ok?
    ensures var r := Remotion(ttsOutput, fixedImageUrl, authorName).value;
            var k := |Present(RemotionKeys, ttsOutput)|;
            SlideNumbered(r, k + 2) && r[k].1 == CtaEntry(k + 1)
  {
    RemotionFromNumbered(ttsOutput, AudioOf(ttsOutput), fixedImageUrl, authorName, RemotionKeys);
  }

  /**
   * Content slide j carries the j-th present key's text (in the order storytitle,
   * s1..s9paragraph1, hookline), the audio found at `slide{j}` of the same dict, the fixed
   * image and the author line.
   */
  lemma RemotionContent(ttsOutput: Dict<Json>, fixedImageUrl: string, authorName: string)
    requires Remotion(ttsOutput, fixedImageUrl, authorName).Ok?
    ensures |Remotion(ttsOutput, fixedImageUrl, authorName).value| == |Present(RemotionKeys, ttsOutput)| + 1
    ensures forall m :: 1 <= m <= |Present(RemotionKeys, ttsOutput)| ==> SlideAudio(ttsOutput, m).Ok?
    ensures var r := Remotion(ttsOutput, fixedImageUrl, authorName).value;
            var present := Present(RemotionKeys, ttsOutput);
            forall j :: 0 <= j < |present| ==>
              r[j].1 == ContentEntry(j + 1, Lookup(ttsOutput, present[j]).value,
                                     SlideAudio(ttsOutput, j + 1).value, fixedImageUrl, authorName)
  {
    var audio := AudioOf(ttsOutput);
    var r := Remotion(ttsOutput, fixedImageUrl, authorName).value;
    var present := Present(RemotionKeys, ttsOutput);
    RemotionFromContent(ttsOutput, audio, fixedImageUrl, authorName, RemotionKeys);
    forall m | 1 <= m <= |present| ensures SlideAudio(ttsOutput, m).Ok? {
      assert audio(m) == SlideAudio(ttsOutput, m);
    }
    forall j | 0 <= j < |present|
      ensures r[j].1 == ContentEntry(j + 1, Lookup(ttsOutput, present[j]).value,
                                     SlideAudio(ttsOutput, j + 1).value, fixedImageUrl, authorName)
    {
      assert audio(j + 1) == SlideAudio(ttsOutput, j + 1);
    }
  }


  /**
   * `generate_remotion_input` fails exactly when the audio lookup of one of its content slides
   * fails, that is when `slide{m}` is there but is not a dict, m one of the content slide numbers.
   */
  lemma RemotionFails(ttsOutput: Dict<Json>, fixedImageUrl: string, authorName: string)
    ensures Remotion(ttsOutput, fixedImageUrl, authorName).Err?
        <==> exists m :: 1 <= m <= |Present(RemotionKeys, ttsOutput)| && SlideAudio(ttsOutput, m).Err?
  {
    var audio := AudioOf(ttsOutput);
    if Remotion(ttsOutput, fixedImageUrl, authorName).Err? {
      var m := RemotionFromFailure(ttsOutput, audio, fixedImageUrl, authorName, RemotionKeys, 1);
      assert audio(m) == SlideAudio(ttsOutput, m);
    }
    if exists m :: 1 <= m <= |Present(RemotionKeys, ttsOutput)| && SlideAudio(ttsOutput, m).Err? {
      var m :| 1 <= m <= |Present(RemotionKeys, ttsOutput)| && SlideAudio(ttsOutput, m).Err?;
      assert audio(m) == SlideAudio(ttsOutput, m);
      RemotionFromFails(ttsOutput, audio, fixedImageUrl, authorName, RemotionKeys, 1, m);
    }
  }

  /** With none of `keys` present, only the call-to-action slide is built, numbered n. */
  lemma {:induction false} RemotionFromNothing(ttsOutput: Dict<Json>, audio: nat -> Result<Json>, fixedImageUrl: string, authorName: string,
                                               keys: seq<string>, n: nat)
    requires forall k :: k in keys ==> !HasKey(ttsOutput, k)
    ensures RemotionFrom(ttsOutput, audio, fixedImageUrl, authorName, keys, n) == Ok([(SlideKey(n), CtaEntry(n))])
    decreases |keys|
  {
    if |keys| > 0 {
      assert keys[0] in keys;
      assert forall k :: k in keys[1..] ==> k in keys;
      RemotionFromNothing(ttsOutput, audio, fixedImageUrl, authorName, keys[1..], n);
    }
  }

  /** With none of the script keys, the renderer input is the call-to-action slide alone. */
  lemma RemotionOfNothing(ttsOutput: Dict<Json>, fixedImageUrl: string, authorName: string)
    requires forall k :: k in RemotionKeys ==> !HasKey(ttsOutput, k)
    ensures Remotion(ttsOutput, fixedImageUrl, authorName) == Ok([(SlideKey(1), CtaEntry(1))])
  {
    RemotionFromNothing(ttsOutput, AudioOf(ttsOutput), fixedImageUrl, authorName, RemotionKeys, 1);
  }

  /** A `slide{n}` key is none of the keys `generate_remotion_input` looks for. */
  lemma SlideKeyNotRemotionKey(n: nat)
    ensures SlideKey(n) !in RemotionKeys
  {
    SlideKeyIsNotScriptKey(n, 0);
    forall m | 0 <= m < 9 ensures SlideKey(n) != ParagraphKeys[m] {
      ParagraphKeysAt(m + 1);
      SlideKeyIsNotScriptKey(n, m + 1);
    }
  }

  /**
   * The route that chains the two stages passes the slide-keyed TTS output to
   * `generate_remotion_input`, which looks for script keys at the top level: whatever was
   * voiced, only the call-to-action slide comes out.
   */
  lemma SynthesizeThenRemotion(paragraphs: Dict<string>, voice: string, speak: Speech,
                               fixedImageUrl: string, authorName: string)
    requires Synthesize(paragraphs, voice, speak).Ok?
    ensures Remotion(Synthesize(paragraphs, voice, speak).value, fixedImageUrl, authorName)
         == Ok([(SlideKey(1), CtaEntry(1))])
  {
    var out := Synthesize(paragraphs, voice, speak).value;
    SynthesizeNumbered(paragraphs, voice, speak);
    forall k | k in RemotionKeys ensures !HasKey(out, k) {
      if HasKey(out, k) {
        var j :| 0 <= j < |out| && Keys(out)[j] == k;
        SlideKeyNotRemotionKey(j + 1);
        assert false;
      }
    }
    RemotionOfNothing(out, fixedImageUrl, authorName);
  }

  /** One `if key in tts_output:` block: a content slide numbered `slideIndex` when the key is present. */
  method RemotionKey(ttsOutput: Dict<Json>, fixedImageUrl: string, authorName: string, key: string,
                     result: Dict<Json>, slideIndex: nat, ghost rest: seq<string>)
    returns (failure: Option<string>, result': Dict<Json>, slideIndex': nat)
    requires SlideNumbered(result, slideIndex)
    ensures failure.Some? ==> RemotionFrom(ttsOutput, AudioOf(ttsOutput), fixedImageUrl, authorName, [key] + rest, slideIndex) == Err(failure.value)
    ensures failure.None? ==> SlideNumbered(result', slideIndex')
    ensures failure.None? ==>
              Continued(result, RemotionFrom(ttsOutput, AudioOf(ttsOutput), fixedImageUrl, authorName, [key] + rest, slideIndex))
              == Continued(result', RemotionFrom(ttsOutput, AudioOf(ttsOutput), fixedImageUrl, authorName, rest, slideIndex'))
  {
    ghost var audioOf := AudioOf(ttsOutput);
    assert ([key] + rest)[1..] == rest;
    if !HasKey(ttsOutput, key) {
      return None, result, slideIndex;
    }
    var text := Lookup(ttsOutput, key).value;
    var audioUrl := SlideAudio(ttsOutput, slideIndex);
    assert audioOf(slideIndex) == audioUrl;
    if audioUrl.Err? {
      return Some(audioUrl.msg), result, slideIndex;
    }
    NextSlideKeyFresh(result, slideIndex);
    var entry := ContentEntry(slideIndex, text, audioUrl.value, fixedImageUrl, authorName);
    result' := Put(result, SlideKey(slideIndex), entry);
    slideIndex' := slideIndex + 1;
    failure := None;
    ghost var tail := RemotionFrom(ttsOutput, audioOf, fixedImageUrl, authorName, rest, slideIndex');
    if tail.Ok? {
      AppendOne(result, (SlideKey(slideIndex), entry), tail.value);
    }
  }

  /** `generate_remotion_input(tts_output, fixed_image_url, author_name)`. */
  method GenerateRemotionInput(ttsOutput: Dict<Json>, fixedImageUrl: string, authorName: string)
    returns (r: Result<Dict<Json>>)
    ensures r == Remotion(ttsOutput, fixedImageUrl, authorName)
  {
    ghost var target := Remotion(ttsOutput, fixedImageUrl, authorName);
    var remotionData: Dict<Json> := [];
    var slideIndex: nat := 1;
    var failure: Option<string>;
    ContinuedEmpty(target);
    assert RemotionKeys == ["storytitle"] + (ParagraphKeys + ["hookline"]);
    failure, remotionData, slideIndex :=
      RemotionKey(ttsOutput, fixedImageUrl, authorName, "storytitle", remotionData, slideIndex,
                  ParagraphKeys + ["hookline"]);
    if failure.Some? {
      return Err(failure.value);
    }
    for i := 1 to 10
      invariant SlideNumbered(remotionData, slideIndex)
      invariant target == Continued(remotionData, RemotionFrom(ttsOutput, AudioOf(ttsOutput), fixedImageUrl, authorName,
                                                               ParagraphKeys[i - 1..] + ["hookline"], slideIndex))
    {
      ParagraphKeysAt(i);
      SuffixCons(ParagraphKeys, i - 1, ["hookline"]);
      failure, remotionData, slideIndex :=
        RemotionKey(ttsOutput, fixedImageUrl, authorName, ParagraphKey(i), remotionData, slideIndex,
                    ParagraphKeys[i..] + ["hookline"]);
      if failure.Some? {
        return Err(failure.value);
      }
    }
    assert ParagraphKeys[9..] + ["hookline"] == ["hookline"] + [];
    failure, remotionData, slideIndex :=
      RemotionKey(ttsOutput, fixedImageUrl, authorName, "hookline", remotionData, slideIndex, []);
    if failure.Some? {
      return Err(failure.value);
    }
    NextSlideKeyFresh(remotionData, slideIndex);
    remotionData := Put(remotionData, SlideKey(slideIndex), CtaEntry(slideIndex));
    return Ok(remotionData);
  }

  // ---------------------------------------------------------------------------
  // transliterate_to_devanagari

  /** The language-model call: the transliteration of a text, or the failure it raised. */
  type Transliterator = string -> Result<string>

  /** Only slide paragraphs with some non-blank text are sent to the model. */
  predicate Transliterable(key: string, value: string) {
    StartsWith(key, "s") && Contains(key, "paragraph1") && Strip(value) != ""
  }

  /** The new value of one entry: the stripped answer, or the original on failure or when not eligible. */
  function TransliteratedValue(transliterate: Transliterator, key: string, value: string): string {
    if Transliterable(key, value) then
      match transliterate(value)
      case Ok(answer) => Strip(answer)
      case Err(_) => value
    else value
  }

  function Transliterated(transliterate: Transliterator, jsonData: Dict<string>): (r: Dict<string>)
    ensures |r| == |jsonData|
    ensures forall i :: 0 <= i < |jsonData| ==>
              r[i] == (jsonData[i].0, TransliteratedValue(transliterate, jsonData[i].0, jsonData[i].1))
  {
    seq(|jsonData|, i requires 0 <= i < |jsonData| =>
      (jsonData[i].0, TransliteratedValue(transliterate, jsonData[i].0, jsonData[i].1)))
  }

  /**
   * `transliterate_to_devanagari` keeps every key in place; only a non-blank slide paragraph
   * can change, and a failing model call (or an ineligible entry) keeps the original text.
   */
  lemma TransliteratedKeeps(transliterate: Transliterator, jsonData: Dict<string>)
    ensures Keys(Transliterated(transliterate, jsonData)) == Keys(jsonData)
    ensures forall i :: 0 <= i < |jsonData| && Transliterated(transliterate, jsonData)[i].1 != jsonData[i].1 ==>
              Transliterable(jsonData[i].0, jsonData[i].1) && transliterate(jsonData[i].1).Ok?
  {
  }

  lemma TransliteratedSnoc(transliterate: Transliterator, jsonData: Dict<string>, i: nat)
    requires i < |jsonData|
    ensures Transliterated(transliterate, jsonData[..i + 1])
         == Transliterated(transliterate, jsonData[..i])
            + [(jsonData[i].0, TransliteratedValue(transliterate, jsonData[i].0, jsonData[i].1))]
  {
  }

  /** The body of the loop over `json_data.items()`: the value stored under `k`. */
  method TransliterateEntry(transliterate: Transliterator, k: string, v: string) returns (value: string)
    ensures value == TransliteratedValue(transliterate, k, v)
  {
    value := v;
    if StartsWith(k, "s") && Contains(k, "paragraph1") && Strip(v) != "" {
      var answer := transliterate(v);
      if answer.Ok? {
        value := Strip(answer.value);
      }
    }
  }

  /** `transliterate_to_devanagari(json_data)`, the model call as `transliterate`. */
  method TransliterateToDevanagari(jsonData: Dict<string>, transliterate: Transliterator) returns (updated: Dict<string>)
    requires UniqueKeys(jsonData)
    ensures updated == Transliterated(transliterate, jsonData)
  {
    updated := [];
    for i := 0 to |jsonData|
      invariant updated == Transliterated(transliterate, jsonData[..i])
    {
      var (k, v) := jsonData[i];
      var value := TransliterateEntry(transliterate, k, v);
      assert forall m :: 0 <= m < i ==> Keys(updated)[m] == jsonData[m].0 != k;
      TransliteratedSnoc(transliterate, jsonData, i);
      updated := Put(updated, k, value);
    }
    assert jsonData[..|jsonData|] == jsonData;
  }
}
