// Request validation of the service's pydantic models (app/models/schemas.py): the enum
// domains, the field defaults and bounds, the template-source validator of the AMP request,
// and the category mapping of the settings (app/core/config.py) that the routes look
// enum values up in. A request body is a JSON object; validation either yields the typed
// request or fails (pydantic's ValidationError, a 422 from the framework).

module Schemas {
  import opened Wrappers
  import opened PyJson

  // ---------------------------------------------------------------------------
  // Enum domains

  datatype Persona = GenZ | Millennial | WorkingProfessionals | CreativeThinkers | SpiritualExplorers

  const PersonaValues: seq<string> :=
    ["genz", "millenial", "working professionals", "creative thinkers", "spiritual explorers"]

  function PersonaValue(p: Persona): (r: string)
    ensures r in PersonaValues
  {
    match p
    case GenZ => "genz"
    case Millennial => "millenial"
    case WorkingProfessionals => "working professionals"
    case CreativeThinkers => "creative thinkers"
    case SpiritualExplorers => "spiritual explorers"
  }

  /** `PersonaEnum(s)`: accepted exactly for the five listed values, and the member found carries `s`. */
  function ParsePersona(s: string): (r: Option<Persona>)
    ensures r.Some? <==> s in PersonaValues
    ensures r.Some? ==> PersonaValue(r.value) == s
  {
    if s == "genz" then Some(GenZ)
    else if s == "millenial" then Some(Millennial)
    else if s == "working professionals" then Some(WorkingProfessionals)
    else if s == "creative thinkers" then Some(CreativeThinkers)
    else if s == "spiritual explorers" then Some(SpiritualExplorers)
    else None
  }

  datatype Language = English | Hindi

  const LanguageValues: seq<string> := ["English", "Hindi"]

  function LanguageValue(l: Language): (r: string)
    ensures r in LanguageValues
  {
    match l
    case English => "English"
    case Hindi => "Hindi"
  }

  /** `LanguageEnum(s)`: the content language is English or Hindi and nothing else. */
  function ParseLanguage(s: string): (r: Option<Language>)
    ensures r.Some? <==> s in LanguageValues
    ensures r.Some? ==> LanguageValue(r.value) == s
  {
    if s == "English" then Some(English)
    else if s == "Hindi" then Some(Hindi)
    else None
  }

  datatype ContentType = News | Article

  const ContentTypeValues: seq<string> := ["News", "Article"]

  function ContentTypeValue(t: ContentType): (r: string)
    ensures r in ContentTypeValues
  {
    match t
    case News => "News"
    case Article => "Article"
  }

  /** `ContentTypeEnum(s)`. */
  function ParseContentType(s: string): (r: Option<ContentType>)
    ensures r.Some? <==> s in ContentTypeValues
    ensures r.Some? ==> ContentTypeValue(r.value) == s
  {
    if s == "News" then Some(News)
    else if s == "Article" then Some(Article)
    else None
  }

  datatype LanguageCode = EnUs | Hi

  const LanguageCodeValues: seq<string> := ["en-US", "hi"]

  function LanguageCodeValue(c: LanguageCode): (r: string)
    ensures r in LanguageCodeValues
  {
    match c
    case EnUs => "en-US"
    case Hi => "hi"
  }

  /** `LanguageCodeEnum(s)`: the language code is en-US or hi and nothing else. */
  function ParseLanguageCode(s: string): (r: Option<LanguageCode>)
    ensures r.Some? <==> s in LanguageCodeValues
    ensures r.Some? ==> LanguageCodeValue(r.value) == s
  {
    if s == "en-US" then Some(EnUs)
    else if s == "hi" then Some(Hi)
    else None
  }

  datatype Category =
    | Art | Travel | Entertainment | Literature | Books | Sports
    | History | Culture | Wildlife | Spiritual | Food

  const CategoryValues: seq<string> :=
    ["Art", "Travel", "Entertainment", "Literature", "Books", "Sports",
     "History", "Culture", "Wildlife", "Spiritual", "Food"]

  function CategoryValue(c: Category): (r: string)
    ensures r in CategoryValues
  {
    match c
    case Art => "Art"
    case Travel => "Travel"
    case Entertainment => "Entertainment"
    case Literature => "Literature"
    case Books => "Books"
    case Sports => "Sports"
    case History => "History"
    case Culture => "Culture"
    case Wildlife => "Wildlife"
    case Spiritual => "Spiritual"
    case Food => "Food"
  }

  /** `CategoryEnum(s)`: one of the eleven listed categories. */
  function ParseCategory(s: string): (r: Option<Category>)
    ensures r.Some? <==> s in CategoryValues
    ensures r.Some? ==> CategoryValue(r.value) == s
  {
    if s == "Art" then Some(Art)
    else if s == "Travel" then Some(Travel)
    else if s == "Entertainment" then Some(Entertainment)
    else if s == "Literature" then Some(Literature)
    else if s == "Books" then Some(Books)
    else if s == "Sports" then Some(Sports)
    else if s == "History" then Some(History)
    else if s == "Culture" then Some(Culture)
    else if s == "Wildlife" then Some(Wildlife)
    else if s == "Spiritual" then Some(Spiritual)
    else if s == "Food" then Some(Food)
    else None
  }

  // ---------------------------------------------------------------------------
  // Settings the requests are checked against

  /** The settings' CATEGORY_MAPPING: category value to numeric category id. */
  const CategoryMapping: Dict<int> :=
    [("Art", 1), ("Travel", 2), ("Entertainment", 3), ("Literature", 4), ("Books", 5), ("Sports", 6),
     ("History", 7), ("Culture", 8), ("Wildlife", 9), ("Spiritual", 10), ("Food", 11)]

  /** The settings' VOICE_OPTIONS: menu number to voice name. */
  const VoiceOptions: Dict<string> :=
    [("1", "alloy"), ("2", "echo"), ("3", "fable"), ("4", "onyx"), ("5", "nova"), ("6", "shimmer")]

  const DefaultVoice: string := "alloy"

  /** Position of a category in the enum's declaration order. */
  function CategoryIndex(c: Category): (i: nat)
    ensures i < |CategoryValues| && CategoryValues[i] == CategoryValue(c)
  {
    match c
    case Art => 0
    case Travel => 1
    case Entertainment => 2
    case Literature => 3
    case Books => 4
    case Sports => 5
    case History => 6
    case Culture => 7
    case Wildlife => 8
    case Spiritual => 9
    case Food => 10
  }

  /**
   * Every category value is a key of the mapping, so `category_mapping[categories.value]`
   * cannot raise; the id is the category's 1-based position in the enum.
   */
  lemma CategoryMapped(c: Category)
    ensures Lookup(CategoryMapping, CategoryValue(c)) == Some(CategoryIndex(c) + 1)
  {
    var i := CategoryIndex(c);
    assert CategoryMapping[i] == (CategoryValue(c), i + 1);
    forall m | 0 <= m < i ensures CategoryMapping[m].0 != CategoryValue(c) {
      assert CategoryMapping[m].0 == CategoryValues[m];
    }
    LookupFirst(CategoryMapping, i);
  }

  /** Different categories get different ids. */
  lemma CategoryIdsDistinct(a: Category, b: Category)
    requires a != b
    ensures Lookup(CategoryMapping, CategoryValue(a)) != Lookup(CategoryMapping, CategoryValue(b))
  {
    CategoryMapped(a);
    CategoryMapped(b);
  }

  /** The default voice is one of the voice options, although a request's voice is never checked against them. */
  lemma DefaultVoiceOffered()
    ensures exists i :: 0 <= i < |VoiceOptions| && VoiceOptions[i].1 == DefaultVoice
  {
    assert VoiceOptions[0].1 == DefaultVoice;
  }

  // ---------------------------------------------------------------------------
  // Field validation

  /** A required `str` field (an `HttpUrl` field is read as its text; URL syntax is not modelled). */
  function RequiredStr(body: Dict<Json>, key: string): (r: Result<string>)
    ensures r.Ok? <==> Lookup(body, key).Some? && Lookup(body, key).value.Str?
    ensures r.Ok? ==> Lookup(body, key) == Some(Str(r.value))
  {
    match Lookup<Json>(body, key)
    case Some(Str(s)) => Ok(s)
    case Some(_) => Err(key + ": Input should be a valid string")
    case None => Err(key + ": Field required")
  }

  /** An `Optional[str] = None` field: absent or null is None. */
  function OptionalStr(body: Dict<Json>, key: string): (r: Result<Option<string>>)
    ensures r.Ok? <==> Lookup(body, key).None? || Lookup(body, key).value.Null? || Lookup(body, key).value.Str?
    ensures r == Ok(None) <==> Lookup(body, key).None? || Lookup(body, key) == Some(Null)
    ensures r.Ok? && r.value.Some? ==> Lookup(body, key) == Some(Str(r.value.value))
  {
    match Lookup<Json>(body, key)
    case None => Ok(None)
    case Some(Null) => Ok(None)
    case Some(Str(s)) => Ok(Some(s))
    case Some(_) => Err(key + ": Input should be a valid string")
  }

  /** A required `Dict[str, Any]` field. */
  function RequiredDict(body: Dict<Json>, key: string): (r: Result<Dict<Json>>)
    ensures r.Ok? <==> Lookup(body, key).Some? && Lookup(body, key).value.Obj?
    ensures r.Ok? ==> Lookup(body, key) == Some(Obj(r.value))
  {
    match Lookup<Json>(body, key)
    case Some(Obj(fields)) => Ok(fields)
    case Some(_) => Err(key + ": Input should be a valid dictionary")
    case None => Err(key + ": Field required")
  }

  /** A `bool` field with a default. */
  function BoolOr(body: Dict<Json>, key: string, default: bool): (r: Result<bool>)
    ensures r.Ok? <==> Lookup(body, key).None? || Lookup(body, key).value.Bool?
    ensures Lookup(body, key).None? ==> r == Ok(default)
    ensures r.Ok? && Lookup(body, key).Some? ==> Lookup(body, key) == Some(Bool(r.value))
  {
    match Lookup<Json>(body, key)
    case None => Ok(default)
    case Some(Bool(b)) => Ok(b)
    case Some(_) => Err(key + ": Input should be a valid boolean")
  }

  /** `number_of_slides: int = Field(default=10, ge=0, le=1000)`. */
  function SlideCountField(body: Dict<Json>): (r: Result<int>)
    ensures r.Ok? <==> Lookup(body, "number_of_slides").None?
                       || (Lookup(body, "number_of_slides").value.Num?
                           && 0 <= Lookup(body, "number_of_slides").value.n <= 1000)
    ensures Lookup(body, "number_of_slides").None? ==> r == Ok(10)
    ensures r.Ok? ==> 0 <= r.value <= 1000
    ensures r.Ok? && Lookup(body, "number_of_slides").Some? ==> Lookup(body, "number_of_slides") == Some(Num(r.value))
  {
    match Lookup<Json>(body, "number_of_slides")
    case None => Ok(10)
    case Some(Num(n)) =>
      if n < 0 then Err("number_of_slides: Input should be greater than or equal to 0")
      else if n > 1000 then Err("number_of_slides: Input should be less than or equal to 1000")
      else Ok(n)
    case Some(_) => Err("number_of_slides: Input should be a valid integer")
  }

  /** A required enum field, read through the enum's parser. */
  function EnumField<E>(body: Dict<Json>, key: string, parse: string -> Option<E>): (r: Result<E>)
    ensures r.Ok? <==> Lookup(body, key).Some? && Lookup(body, key).value.Str? && parse(Lookup(body, key).value.s).Some?
    ensures r.Ok? ==> Some(r.value) == parse(Lookup(body, key).value.s)
  {
    match Lookup<Json>(body, key)
    case Some(Str(s)) =>
      (match parse(s)
       case Some(e) => Ok(e)
       case None => Err(key + ": Input should be one of the enum's values"))
    case Some(_) => Err(key + ": Input should be a valid string")
    case None => Err(key + ": Field required")
  }

  // ---------------------------------------------------------------------------
  // Requests

  datatype ArticleRequest = ArticleRequest(url: string, persona: Persona, contentLanguage: Language, numberOfSlides: int)

  /** `ArticleGenerationRequest`: url, persona and language required; the slide count defaults to 10 and lies in 0..1000. */
  function ValidateArticleRequest(body: Dict<Json>): (r: Result<ArticleRequest>)
    ensures r.Ok? <==> RequiredStr(body, "url").Ok? && EnumField(body, "persona", ParsePersona).Ok?
                       && EnumField(body, "content_language", ParseLanguage).Ok? && SlideCountField(body).Ok?
    ensures r.Ok? ==> && Lookup(body, "url") == Some(Str(r.value.url))
                      && Lookup(body, "persona") == Some(Str(PersonaValue(r.value.persona)))
                      && Lookup(body, "content_language") == Some(Str(LanguageValue(r.value.contentLanguage)))
                      && 0 <= r.value.numberOfSlides <= 1000
                      && (Lookup(body, "number_of_slides").None? ==> r.value.numberOfSlides == 10)
  {
    var url :- RequiredStr(body, "url");
    var persona :- EnumField(body, "persona", ParsePersona);
    var language :- EnumField(body, "content_language", ParseLanguage);
    var n :- SlideCountField(body);
    Ok(ArticleRequest(url, persona, language, n))
  }

  datatype TtsRequest = TtsRequest(structuredSlides: Dict<Json>, voice: string)

  /** `TTSGenerationRequest`: the voice defaults to "alloy" and any string is accepted as a voice. */
  function ValidateTtsRequest(body: Dict<Json>): (r: Result<TtsRequest>)
    ensures r.Ok? <==> RequiredDict(body, "structured_slides").Ok?
                       && (Lookup(body, "voice").None? || Lookup(body, "voice").value.Str?)
    ensures r.Ok? ==> Lookup(body, "structured_slides") == Some(Obj(r.value.structuredSlides))
    ensures r.Ok? ==> r.value.voice == (match Lookup<Json>(body, "voice")
                                        case None => DefaultVoice
                                        case Some(v) => v.s)
  {
    var slides :- RequiredDict(body, "structured_slides");
    var voice :- match Lookup<Json>(body, "voice")
                 case None => Ok(DefaultVoice)
                 case Some(Str(v)) => Ok(v)
                 case Some(_) => Err("voice: Input should be a valid string");
    Ok(TtsRequest(slides, voice))
  }

  datatype HtmlRequest = HtmlRequest(fullSlideJson: Dict<Json>, htmlTemplate: Option<string>, templateUrl: Option<string>)

  /** `HTMLProcessingRequest`: only the slide JSON is required; both template sources may be missing. */
  function ValidateHtmlRequest(body: Dict<Json>): (r: Result<HtmlRequest>)
    ensures r.Ok? <==> RequiredDict(body, "full_slide_json").Ok? && OptionalStr(body, "html_template").Ok?
                       && OptionalStr(body, "template_url").Ok?
    ensures r.Ok? ==> && Lookup(body, "full_slide_json") == Some(Obj(r.value.fullSlideJson))
                      && Ok(r.value.htmlTemplate) == OptionalStr(body, "html_template")
                      && Ok(r.value.templateUrl) == OptionalStr(body, "template_url")
  {
    var slides :- RequiredDict(body, "full_slide_json");
    var html :- OptionalStr(body, "html_template");
    var url :- OptionalStr(body, "template_url");
    Ok(HtmlRequest(slides, html, url))
  }

  datatype AmpRequest = AmpRequest(ampTemplateHtml: Option<string>, ampTemplateUrl: Option<string>, outputJson: Dict<Json>)

  /** Python truthiness of an optional string: None and "" are false. */
  predicate Given(s: Option<string>) {
    s.Some? && s.value != ""
  }

  /**
   * `AMPGenerationRequest` with its `validate_template_source`: once the fields are well typed,
   * the request is rejected exactly when neither template source is given, an empty inline
   * template counting as absent. A URL that is present is always truthy.
   */
  function ValidateAmpRequest(body: Dict<Json>): (r: Result<AmpRequest>)
    ensures OptionalStr(body, "amp_template_html").Ok? && OptionalStr(body, "amp_template_url").Ok?
            && RequiredDict(body, "output_json").Ok?
            ==> (r.Err? <==> OptionalStr(body, "amp_template_html").value in {None, Some("")}
                             && OptionalStr(body, "amp_template_url").value.None?)
    ensures r.Ok? ==> && Ok(r.value.ampTemplateHtml) == OptionalStr(body, "amp_template_html")
                      && Ok(r.value.ampTemplateUrl) == OptionalStr(body, "amp_template_url")
                      && Lookup(body, "output_json") == Some(Obj(r.value.outputJson))
                      && (Given(r.value.ampTemplateHtml) || r.value.ampTemplateUrl.Some?)
  {
    var html :- OptionalStr(body, "amp_template_html");
    var url :- OptionalStr(body, "amp_template_url");
    var output :- RequiredDict(body, "output_json");
    if !Given(html) && url.None? then
      Err("Value error, Either amp_template_html or amp_template_url must be provided")
    else
      Ok(AmpRequest(html, url, output))
  }

  datatype SubmissionRequest = SubmissionRequest(
    storyTitle: string, metaDescription: string, metaKeywords: string,
    contentType: ContentType, language: LanguageCode, imageUrl: string,
    categories: Category, filterTags: string, useCustomCover: bool,
    coverImageUrl: Option<string>, prefinalHtml: string)

  /** `ContentSubmissionRequest`: the custom cover is off unless asked for, and its URL is optional. */
  function ValidateSubmissionRequest(body: Dict<Json>): (r: Result<SubmissionRequest>)
    ensures r.Ok? <==> && RequiredStr(body, "story_title").Ok? && RequiredStr(body, "meta_description").Ok?
                       && RequiredStr(body, "meta_keywords").Ok?
                       && EnumField(body, "content_type", ParseContentType).Ok?
                       && EnumField(body, "language", ParseLanguageCode).Ok?
                       && RequiredStr(body, "image_url").Ok?
                       && EnumField(body, "categories", ParseCategory).Ok?
                       && RequiredStr(body, "filter_tags").Ok?
                       && BoolOr(body, "use_custom_cover", false).Ok?
                       && OptionalStr(body, "cover_image_url").Ok?
                       && RequiredStr(body, "prefinal_html").Ok?
    ensures r.Ok? ==> && Lookup(body, "story_title") == Some(Str(r.value.storyTitle))
                      && Lookup(body, "language") == Some(Str(LanguageCodeValue(r.value.language)))
                      && Lookup(body, "categories") == Some(Str(CategoryValue(r.value.categories)))
                      && Lookup(body, "meta_description") == Some(Str(r.value.metaDescription))
                      && Lookup(body, "meta_keywords") == Some(Str(r.value.metaKeywords))
                      && Lookup(body, "content_type") == Some(Str(ContentTypeValue(r.value.contentType)))
                      && Lookup(body, "image_url") == Some(Str(r.value.imageUrl))
                      && Lookup(body, "filter_tags") == Some(Str(r.value.filterTags))
                      && Lookup(body, "prefinal_html") == Some(Str(r.value.prefinalHtml))
                      && (Lookup(body, "use_custom_cover").None? ==> !r.value.useCustomCover)
                      && (Lookup(body, "use_custom_cover").Some? ==>
                            Lookup(body, "use_custom_cover") == Some(Bool(r.value.useCustomCover)))
                      && Ok(r.value.coverImageUrl) == OptionalStr(body, "cover_image_url")
  {
    var title :- RequiredStr(body, "story_title");
    var description :- RequiredStr(body, "meta_description");
    var keywords :- RequiredStr(body, "meta_keywords");
    var contentType :- EnumField(body, "content_type", ParseContentType);
    var language :- EnumField(body, "language", ParseLanguageCode);
    var imageUrl :- RequiredStr(body, "image_url");
    var category :- EnumField(body, "categories", ParseCategory);
    var tags :- RequiredStr(body, "filter_tags");
    var custom :- BoolOr(body, "use_custom_cover", false);
    var cover :- OptionalStr(body, "cover_image_url");
    var html :- RequiredStr(body, "prefinal_html");
    Ok(SubmissionRequest(title, description, keywords, contentType, language, imageUrl,
                         category, tags, custom, cover, html))
  }
}
