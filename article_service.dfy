// The deterministic rules of the article service (app/services/article_service.py) around
// its fetch and its language-model calls: which text becomes the article content and its
// summary, when the classifier's answer is used and when the fixed default is, the story
// title and hookline fallbacks, and how the slide list of the script generator is assembled.
// The page fetch and every model call are oracles passed in as parameters; an oracle that
// answers with a parsed JSON value stands for the call together with `json.loads`.

module ArticleService {
  import opened Wrappers
  import opened Text
  import opened PyJson

  /** `s[:n]`. */
  function Head(s: string, n: nat): (r: string)
    ensures |r| == if |s| <= n then |s| else n
    ensures r == s[..|r|]
  {
    if |s| <= n then s else s[..n]
  }

  // ---------------------------------------------------------------------------
  // extract_article

  const SummaryLength: nat := 300
  const NoContent := "No article content available."
  const Untitled := "Untitled Article"

  /** The CSS selectors tried in turn for the article body. */
  const ContentSelectors: seq<string> :=
    ["article", ".article-content", ".post-content", ".entry-content", ".content", "main", ".main-content"]

  /**
   * What the parsed page offers: the text of its `<title>` tag if it has one, the text of
   * the first element a selector matches (None when nothing matches), and the texts of its
   * `<p>` elements in document order.
   */
  datatype Page = Page(title: Option<string>, select: string -> Option<string>, paragraphs: seq<string>)

  /**
   * The selector loop from selector i on: the first selector that matches decides, even when
   * its text is blank (a matched tag is always truthy); none matching gives "".
   */
  function SelectedText(select: string -> Option<string>, i: nat): (r: string)
    requires i <= |ContentSelectors|
    decreases |ContentSelectors| - i
  {
    if i == |ContentSelectors| then ""
    else match select(ContentSelectors[i])
      case Some(t) => Strip(t)
      case None => SelectedText(select, i + 1)
  }

  /** `[s.strip() for s in texts]`. */
  function StripAll(texts: seq<string>): (r: seq<string>)
    ensures |r| == |texts| && forall i :: 0 <= i < |r| ==> r[i] == Strip(texts[i])
  {
    seq(|texts|, i requires 0 <= i < |texts| => Strip(texts[i]))
  }

  /** The content: the selected text, else the paragraphs joined by spaces, else the fixed notice. */
  function ArticleContent(page: Page): (r: string)
    ensures r != ""
  {
    var selected := SelectedText(page.select, 0);
    var text := if selected != "" then selected else Join(StripAll(page.paragraphs), " ");
    if text != "" then text else NoContent
  }

  /** `content[:300] + "..." if len(content) > 300 else content`. */
  function Summary(content: string): (r: string)
    ensures |content| <= SummaryLength ==> r == content
    ensures |content| > SummaryLength ==> |r| == SummaryLength + 3 && r[..SummaryLength] == content[..SummaryLength]
                                          && r[SummaryLength..] == Ellipsis
  {
    if |content| > SummaryLength then content[..SummaryLength] + Ellipsis else content
  }

  /** Summarising a summary changes nothing: a cut summary is cut again at the same place. */
  lemma SummaryIdempotent(content: string)
    ensures Summary(Summary(content)) == Summary(content)
  {
    if |content| > SummaryLength {
      var s := Summary(content);
      assert s[..SummaryLength] == content[..SummaryLength];
      assert s == s[..SummaryLength] + Ellipsis;
    }
  }

  /** A joined list of paragraph texts is empty only when there is at most one, and it is empty. */
  lemma JoinEmpty(parts: seq<string>)
    ensures Join(parts, " ") == "" <==> |parts| == 0 || (|parts| == 1 && parts[0] == "")
  {
    if |parts| > 1 {
      assert |Join(parts, " ")| >= 1;
    }
  }

  /**
   * Where the content comes from: the selected text when it is not blank; otherwise the fixed
   * notice when the page has no paragraph or a single blank one; otherwise the joined
   * paragraphs, which then are never replaced by the notice, even when they are all blank.
   */
  lemma ContentSource(page: Page)
    ensures SelectedText(page.select, 0) != "" ==> ArticleContent(page) == SelectedText(page.select, 0)
    ensures SelectedText(page.select, 0) == "" && (|page.paragraphs| == 0 || (|page.paragraphs| == 1 && Strip(page.paragraphs[0]) == ""))
            ==> ArticleContent(page) == NoContent
    ensures SelectedText(page.select, 0) == "" && |page.paragraphs| > 1
            ==> ArticleContent(page) == Join(StripAll(page.paragraphs), " ")
  {
    var parts := StripAll(page.paragraphs);
    JoinEmpty(parts);
    if |parts| == 1 {
      assert Join(parts, " ") == parts[0];
    }
  }

  /** The title, summary and content `extract_article` returns. */
  datatype Extracted = Extracted(title: string, summary: string, content: string)

  function ExtractedOf(page: Page): Extracted {
    var title := match page.title
                 case Some(t) => Strip(t)
                 case None => Untitled;
    var content := ArticleContent(page);
    Extracted(title, Summary(content), content)
  }

  /** The selector loop of `extract_article`, with its early `break`. */
  method SelectContent(select: string -> Option<string>) returns (content: string)
    ensures content == SelectedText(select, 0)
  {
    content := "";
    var i := 0;
    while i < |ContentSelectors|
      invariant 0 <= i <= |ContentSelectors|
      invariant SelectedText(select, 0) == SelectedText(select, i)
    {
      var found := select(ContentSelectors[i]);
      if found.Some? {
        content := Strip(found.value);
        return;
      }
      i := i + 1;
    }
  }

  /** `extract_article`: a failed fetch fails; otherwise the content is never empty and the summary is its cut. */
  method ExtractArticle(url: string, fetch: string -> Result<Page>) returns (r: Result<Extracted>)
    ensures r.Ok? <==> fetch(url).Ok?
    ensures r.Ok? ==> r.value == ExtractedOf(fetch(url).value)
    ensures r.Ok? ==> r.value.content != "" && r.value.summary == Summary(r.value.content)
  {
    var response := fetch(url);
    if response.Err? {
      return Err("Failed to extract article from URL: " + response.msg);
    }
    var page := response.value;
    var title := if page.title.Some? then Strip(page.title.value) else Untitled;
    var content := SelectContent(page.select);
    if content == "" {
      content := Join(StripAll(page.paragraphs), " ");
    }
    if content == "" {
      content := NoContent;
    }
    var summary := if |content| > SummaryLength then content[..SummaryLength] + Ellipsis else content;
    r := Ok(Extracted(title, summary, content));
  }

  // ---------------------------------------------------------------------------
  // detect_category_and_subcategory

  const ClassificationKeys: seq<string> := ["category", "subcategory", "emotion"]

  const DefaultClassification: Json :=
    Obj([("category", Str("Unknown")), ("subcategory", Str("General")), ("emotion", Str("Neutral"))])

  /** The classifier reads at most this many characters of the article. */
  const ClassifierInput: nat := 3000

  /** Texts whose stripped form is shorter than this are not classified. */
  const MinClassifiedLength: nat := 50

  /** `all(k in result for k in keys)`, stopping at the first false; `in` may raise. */
  function AllIn(result: Json, keys: seq<string>): (r: Result<bool>)
    ensures r == Ok(true) <==> forall i :: 0 <= i < |keys| ==> PyContains(result, keys[i]) == Ok(true)
    decreases |keys|
  {
    if |keys| == 0 then Ok(true)
    else
      var found :- PyContains(result, keys[0]);
      if !found then Ok(false) else AllIn(result, keys[1..])
  }

  /**
   * The classification: the default for a short text, otherwise the classifier's parsed
   * answer when it holds the three keys, and the default when the call or the parse fails,
   * when a key is missing, or when the answer is not something `in` works on.
   */
  function DetectCategory(text: string, language: string, classify: (string, string) -> Result<Json>): (r: Json)
    ensures |Strip(text)| < MinClassifiedLength ==> r == DefaultClassification
    ensures r == DefaultClassification
            || (classify(Head(text, ClassifierInput), language) == Ok(r) && AllIn(r, ClassificationKeys) == Ok(true))
    ensures |Strip(text)| >= MinClassifiedLength && classify(Head(text, ClassifierInput), language).Ok?
            && AllIn(classify(Head(text, ClassifierInput), language).value, ClassificationKeys) == Ok(true) ==>
              r == classify(Head(text, ClassifierInput), language).value
    ensures |Strip(text)| >= MinClassifiedLength
            && (classify(Head(text, ClassifierInput), language).Err?
                || AllIn(classify(Head(text, ClassifierInput), language).value, ClassificationKeys) != Ok(true)) ==>
              r == DefaultClassification
  {
    if text == "" || |Strip(text)| < MinClassifiedLength then DefaultClassification
    else match classify(Head(text, ClassifierInput), language)
      case Err(_) => DefaultClassification
      case Ok(result) => if AllIn(result, ClassificationKeys) == Ok(true) then result else DefaultClassification
  }

  /** A dict-shaped classification always carries the three keys. */
  lemma ClassificationKeysPresent(text: string, language: string, classify: (string, string) -> Result<Json>)
    ensures var r := DetectCategory(text, language, classify);
            r.Obj? ==> forall i :: 0 <= i < |ClassificationKeys| ==> HasKey(r.fields, ClassificationKeys[i])
  {
    var r := DetectCategory(text, language, classify);
    if r == DefaultClassification {
      assert Keys(r.fields) == ClassificationKeys;
    } else if r.Obj? {
      forall i | 0 <= i < |ClassificationKeys| ensures HasKey(r.fields, ClassificationKeys[i]) {
        assert PyContains(r, ClassificationKeys[i]) == Ok(true);
      }
    }
  }

  /** A short text is classified without consulting the model: any two classifiers agree on it. */
  lemma ShortTextNotClassified(text: string, language: string, c1: (string, string) -> Result<Json>,
                               c2: (string, string) -> Result<Json>)
    requires |Strip(text)| < MinClassifiedLength
    ensures DetectCategory(text, language, c1) == DetectCategory(text, language, c2) == DefaultClassification
  {
  }

  // ---------------------------------------------------------------------------
  // generate_hookline and generate_storytitle

  predicate IsQuote(c: char) { c == '"' }

  /** `text.strip().strip('"')`: how both generators clean the model's answer. */
  function CleanAnswer(text: string): (r: string)
    ensures |r| > 0 ==> !IsQuote(r[0]) && !IsQuote(r[|r| - 1])
  {
    StripBy(Strip(text), IsQuote)
  }

  const HindiHooklineFallback := "यह खबर आपको चौंका सकती है!"
  const EnglishHooklineFallback := "This story might surprise you!"

  /** The hookline: the cleaned answer, or the fixed sentence of the content language when the call fails. */
  function Hookline(title: string, summary: string, language: string,
                    write: (string, string, string) -> Result<string>): (r: string)
    ensures write(title, summary, language).Err? ==>
              r == (if language == "Hindi" then HindiHooklineFallback else EnglishHooklineFallback)
    ensures write(title, summary, language).Ok? ==> r == CleanAnswer(write(title, summary, language).value)
  {
    match write(title, summary, language)
    case Ok(answer) => CleanAnswer(answer)
    case Err(_) => if language == "Hindi" then HindiHooklineFallback else EnglishHooklineFallback
  }

  /** Whatever the model answers, the hookline neither starts nor ends with a double quote. */
  lemma HooklineUnquoted(title: string, summary: string, language: string,
                         write: (string, string, string) -> Result<string>)
    ensures var h := Hookline(title, summary, language, write);
            |h| > 0 ==> !IsQuote(h[0]) && !IsQuote(h[|h| - 1])
  {
    var h := Hookline(title, summary, language, write);
    if write(title, summary, language).Err? && |h| > 0 {
      if language == "Hindi" {
        assert h[0] == 'य' && h[|h| - 1] == '!';
      } else {
        assert h[0] == 'T' && h[|h| - 1] == '!';
      }
    }
  }

  /** The story title: the stripped title except in Hindi, where the model's cleaned answer replaces it. */
  function Storytitle(title: string, summary: string, language: string,
                      write: (string, string) -> Result<string>): (r: string)
    ensures language != "Hindi" ==> r == Strip(title)
    ensures language == "Hindi" && write(title, summary).Err? ==> r == Strip(title)
    ensures language == "Hindi" && write(title, summary).Ok? ==> r == CleanAnswer(write(title, summary).value)
  {
    if language != "Hindi" then Strip(title)
    else match write(title, summary)
      case Ok(answer) => CleanAnswer(answer)
      case Err(_) => Strip(title)
  }

  /** Outside Hindi the model is not consulted: any two writers give the same title. */
  lemma StorytitleWithoutModel(title: string, summary: string, language: string,
                               w1: (string, string) -> Result<string>, w2: (string, string) -> Result<string>)
    requires language != "Hindi"
    ensures Storytitle(title, summary, language, w1) == Storytitle(title, summary, language, w2)
  {
  }

  // ---------------------------------------------------------------------------
  // title_script_generator

  const IntroPrompt := "Intro slide with greeting and headline."
  const IntroImagePrefix := "Vector-style illustration of Polaris presenting news: "
  const SlideImagePrefix := "Modern vector-style visual for: "
  const NarrationFallback := "Unable to generate narration for this slide."
  const HeadlineTitleLength: nat := 80

  /** The first line of the article, stripped, with its double quotes removed. */
  function Headline(articleText: string): string {
    ReplaceAll(Strip(Split(articleText, '\n')[0]), "\"", "")
  }

  /** `for slide in slides_raw`: a list gives its items, a dict its keys, a str its characters. */
  function Iterate(v: Json): (r: Result<seq<Json>>)
    ensures r.Ok? <==> v.Arr? || v.Obj? || v.Str?
    ensures v.Arr? ==> r == Ok(v.items)
    ensures r.Ok? ==> |r.value| == (match v case Arr(items) => |items| case Obj(fields) => |fields| case Str(s) => |s| case _ => 0)
  {
    match v
    case Arr(items) => Ok(items)
    case Obj(fields) => Ok(seq(|fields|, i requires 0 <= i < |fields| => Str(fields[i].0)))
    case Str(s) => Ok(seq(|s|, i requires 0 <= i < |s| => Str([s[i]])))
    case _ => Err("TypeError: object is not iterable")
  }

  /**
   * One narrated slide: the planned title and prompt, an image prompt built from the title and
   * the narration written from the prompt. A failed narration call gives the fixed sentence; a
   * slide without `prompt` or `title` raises (outside the narration's try).
   */
  function NarratedSlide(slide: Json, language: string, narrate: (string, string) -> Result<string>): (r: Result<Json>)
    ensures r.Ok? <==> Subscript(slide, "prompt").Ok? && PyStr(Subscript(slide, "prompt").value).Ok?
                       && Subscript(slide, "title").Ok? && PyStr(Subscript(slide, "title").value).Ok?
    ensures r.Ok? ==> r.value.Obj? && |r.value.fields| == 4 && r.value.fields[3].0 == "script"
    ensures r.Ok? ==> var p := PyStr(Subscript(slide, "prompt").value).value;
                      r.value.fields[3].1 == Str(match narrate(p, language)
                                                 case Ok(n) => Strip(n)
                                                 case Err(_) => NarrationFallback)
  {
    var prompt :- Subscript(slide, "prompt");
    var promptText :- PyStr(prompt);
    var narration := match narrate(promptText, language)
                     case Ok(n) => Strip(n)
                     case Err(_) => NarrationFallback;
    var title :- Subscript(slide, "title");
    var titleText :- PyStr(title);
    Ok(Obj([("title", title), ("prompt", prompt), ("image_prompt", Str(SlideImagePrefix + titleText)),
            ("script", Str(narration))]))
  }

  /** The narrated slides of the plan, in plan order, failing at the first slide that raises. */
  function NarratedSlides(items: seq<Json>, language: string, narrate: (string, string) -> Result<string>): (r: Result<seq<Json>>)
    ensures r.Ok? ==> |r.value| == |items|
    decreases |items|
  {
    if |items| == 0 then Ok([])
    else
      var init :- NarratedSlides(items[..|items| - 1], language, narrate);
      var last :- NarratedSlide(items[|items| - 1], language, narrate);
      Ok(init + [last])
  }

  /** The intro slide built from the article's headline and the intro narration. */
  function IntroSlide(headline: string, script: string): Json {
    Obj([("title", Str(Head(headline, HeadlineTitleLength))), ("prompt", Str(IntroPrompt)),
         ("image_prompt", Str(IntroImagePrefix + headline)), ("script", Str(Strip(script)))])
  }

  function Story(category: string, subcategory: string, emotion: string, slides: seq<Json>): Json {
    Obj([("category", Str(category)), ("subcategory", Str(subcategory)), ("emotion", Str(emotion)),
         ("slides", Arr(slides))])
  }

  /**
   * The generator's result. `planned` is the outcome of the planning call: a failed call
   * fails, None stands for an answer that is not JSON. `intro` writes the intro narration
   * from the headline; its failure fails the generator.
   */
  function TitleScript(category: string, subcategory: string, emotion: string, articleText: string,
                       language: string, planned: Result<Option<Json>>,
                       intro: (string, string) -> Result<string>,
                       narrate: (string, string) -> Result<string>): Result<Json>
  {
    var plan :- planned;
    if plan.None? || Subscript(plan.value, "slides").Err? then Ok(Story(category, subcategory, emotion, []))
    else
      var headline := Headline(articleText);
      var script :- intro(headline, language);
      var items :- Iterate(Subscript(plan.value, "slides").value);
      var narrated :- NarratedSlides(items, language, narrate);
      Ok(Story(category, subcategory, emotion, [IntroSlide(headline, script)] + narrated))
  }

  /** The narration loop: one slide appended per planned slide, stopping at the first that raises. */
  method NarrateAll(first: Json, items: seq<Json>, language: string, narrate: (string, string) -> Result<string>)
    returns (r: Result<seq<Json>>)
    ensures r.Ok? <==> NarratedSlides(items, language, narrate).Ok?
    ensures r.Ok? ==> r.value == [first] + NarratedSlides(items, language, narrate).value
    ensures r.Err? ==> r == NarratedSlides(items, language, narrate)
  {
    var narrated := [];
    var i := 0;
    assert items[..0] == [];
    while i < |items|
      invariant 0 <= i <= |items|
      invariant NarratedSlides(items[..i], language, narrate) == Ok(narrated)
    {
      var entry := NarratedSlide(items[i], language, narrate);
      NarratedStep(items, i, language, narrate);
      if entry.Err? {
        NarratedFails(items, i, language, narrate);
        return Err(entry.msg);
      }
      narrated := narrated + [entry.value];
      i := i + 1;
    }
    assert items[..i] == items;
    r := Ok([first] + narrated);
  }

  /** `title_script_generator`. */
  method TitleScriptGenerator(category: string, subcategory: string, emotion: string, articleText: string,
                              language: string, planned: Result<Option<Json>>,
                              intro: (string, string) -> Result<string>,
                              narrate: (string, string) -> Result<string>)
    returns (r: Result<Json>)
    ensures r == TitleScript(category, subcategory, emotion, articleText, language, planned, intro, narrate)
  {
    if planned.Err? {
      return Err(planned.msg);
    }
    var plan := planned.value;
    if plan.None? {
      return Ok(Story(category, subcategory, emotion, []));
    }
    var slidesRaw := Subscript(plan.value, "slides");
    if slidesRaw.Err? {
      return Ok(Story(category, subcategory, emotion, []));
    }
    var headline := Headline(articleText);
    var script := intro(headline, language);
    if script.Err? {
      return Err(script.msg);
    }
    var items := Iterate(slidesRaw.value);
    if items.Err? {
      return Err(items.msg);
    }
    var slides := NarrateAll(IntroSlide(headline, script.value), items.value, language, narrate);
    if slides.Err? {
      return Err(slides.msg);
    }
    r := Ok(Story(category, subcategory, emotion, slides.value));
  }

  /** Slide i + 1 extends the narrated slides before it, or its failure is theirs. */
  lemma NarratedStep(items: seq<Json>, i: nat, language: string, narrate: (string, string) -> Result<string>)
    requires i < |items| && NarratedSlides(items[..i], language, narrate).Ok?
    ensures NarratedSlide(items[i], language, narrate).Ok? ==>
              NarratedSlides(items[..i + 1], language, narrate)
              == Ok(NarratedSlides(items[..i], language, narrate).value + [NarratedSlide(items[i], language, narrate).value])
    ensures NarratedSlide(items[i], language, narrate).Err? ==>
              NarratedSlides(items[..i + 1], language, narrate) == Err(NarratedSlide(items[i], language, narrate).msg)
  {
    assert items[..i + 1][..i] == items[..i];
    assert items[..i + 1][i] == items[i];
  }

  /** A slide that raises makes every longer run raise the same error. */
  lemma {:induction false} NarratedFails(items: seq<Json>, i: nat, language: string,
                                         narrate: (string, string) -> Result<string>)
    requires i < |items|
    requires NarratedSlides(items[..i + 1], language, narrate).Err?
    ensures NarratedSlides(items, language, narrate) == NarratedSlides(items[..i + 1], language, narrate)
    decreases |items| - i
  {
    if i + 1 < |items| {
      assert items[..i + 2][..i + 1] == items[..i + 1];
      NarratedFails(items, i + 1, language, narrate);
    } else {
      assert items[..i + 1] == items;
    }
  }

  /** A plan that cannot be read gives no slides, the classification echoed. */
  lemma UnreadablePlan(category: string, subcategory: string, emotion: string, articleText: string,
                       language: string, planned: Result<Option<Json>>,
                       intro: (string, string) -> Result<string>, narrate: (string, string) -> Result<string>)
    requires planned.Ok? && (planned.value.None? || Subscript(planned.value.value, "slides").Err?)
    ensures TitleScript(category, subcategory, emotion, articleText, language, planned, intro, narrate)
            == Ok(Story(category, subcategory, emotion, []))
  {
  }

  /**
   * A readable plan with n slides gives n + 1 slides, the first titled with the first 80
   * characters of the headline; a failed intro narration fails the generator.
   */
  lemma PlannedSlides(category: string, subcategory: string, emotion: string, articleText: string,
                      language: string, plan: Json,
                      intro: (string, string) -> Result<string>, narrate: (string, string) -> Result<string>)
    requires Subscript(plan, "slides").Ok? && Subscript(plan, "slides").value.Arr?
    ensures var r := TitleScript(category, subcategory, emotion, articleText, language, Ok(Some(plan)), intro, narrate);
            && (intro(Headline(articleText), language).Err? ==> r.Err?)
            && (r.Ok? ==> var slides := r.value.fields[3].1;
                          && slides.Arr?
                          && |slides.items| == 1 + |Subscript(plan, "slides").value.items|
                          && slides.items[0].fields[0] == ("title", Str(Head(Headline(articleText), HeadlineTitleLength))))
  {
  }
}
