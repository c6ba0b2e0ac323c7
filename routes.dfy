// The decision and fallback rules of the route handlers (app/api/routes.py): where a
// template comes from, the title-based metadata defaults, the parsing of the comma-separated
// filter tags, the cover image and page title of a submission, the substitution of the
// resized-image URLs, and the S3 upload that may fail without failing the request. The
// template fetch and the S3 uploads are oracles passed in as parameters.

module Routes {
  import opened Wrappers
  import opened Text
  import opened PyJson
  import opened Schemas
  import HtmlService
  import Helpers
  import S3Service

  // ---------------------------------------------------------------------------
  // Template source

  /**
   * The if/elif chain of process_html and generate_amp: a template URL is fetched, else a
   * truthy inline template is used, else the template is "". A fetch failure fails the request.
   */
  function TemplateSource(url: Option<string>, inline: Option<string>, fetch: string -> Result<string>): (r: Result<string>)
    ensures url.Some? ==> r == fetch(url.value)
    ensures url.None? && Given(inline) ==> r == Ok(inline.value)
    ensures url.None? && !Given(inline) ==> r == Ok("")
  {
    if url.Some? then fetch(url.value)
    else if Given(inline) then Ok(inline.value)
    else Ok("")
  }

  /**
   * For an AMP request that passed validation the empty fallback is never taken: an empty
   * template can only be what the URL served.
   */
  lemma AmpTemplateNeverFallback(body: Dict<Json>, fetch: string -> Result<string>)
    requires ValidateAmpRequest(body).Ok?
    ensures var req := ValidateAmpRequest(body).value;
            var t := TemplateSource(req.ampTemplateUrl, req.ampTemplateHtml, fetch);
            && (req.ampTemplateUrl.None? ==> t == Ok(req.ampTemplateHtml.value) && t.value != "")
            && (t == Ok("") ==> req.ampTemplateUrl.Some? && fetch(req.ampTemplateUrl.value) == Ok(""))
  {
  }

  // ---------------------------------------------------------------------------
  // S3 upload downgrade

  /** The try/except around an upload: a failure becomes None, a success its URL. */
  function UploadOrNone<T>(upload: Result<T>): (r: Option<T>)
    ensures r.Some? <==> upload.Ok?
    ensures r.Some? ==> r.value == upload.value
  {
    match upload
    case Ok(v) => Some(v)
    case Err(_) => None
  }

  /** HTMLProcessingResponse: the response model has no field for the S3 URLs, so they are dropped. */
  datatype HtmlResponse = HtmlResponse(updatedHtml: string, updatedJson: Dict<Json>, filename: string)

  /**
   * process_html: the template from its source, the title placeholders from slide1 and
   * slide2, the slides renumbered from slide3 on, then the upload. `filename` stands for the
   * clock-stamped name; `upload` for the S3 call, whose outcome changes nothing in the answer.
   */
  method ProcessHtml(req: HtmlRequest, fetch: string -> Result<string>, filename: string,
                     upload: (string, Dict<Json>) -> Result<(string, string)>)
    returns (r: Result<HtmlResponse>)
    ensures r.Ok? <==> && TemplateSource(req.templateUrl, req.htmlTemplate, fetch).Ok?
                       && HtmlService.TitleSubstitutions(req.fullSlideJson).Ok?
                       && HtmlService.Tab4Slides(req.fullSlideJson).Ok?
    ensures r.Ok? ==> && TemplateSource(req.templateUrl, req.htmlTemplate, fetch).Ok?
                      && HtmlService.TitleSubstitutions(req.fullSlideJson).Ok?
                      && HtmlService.Tab4Slides(req.fullSlideJson).Ok?
                      && r.value == HtmlResponse(
                           Substitute(TemplateSource(req.templateUrl, req.htmlTemplate, fetch).value,
                                      HtmlService.TitleSubstitutions(req.fullSlideJson).value),
                           HtmlService.EncodeSlides(HtmlService.Tab4Slides(req.fullSlideJson).value),
                           filename)
  {
    var template := TemplateSource(req.templateUrl, req.htmlTemplate, fetch);
    if template.Err? {
      return Err("HTML processing failed: " + template.msg);
    }
    var updatedHtml := HtmlService.ReplacePlaceholdersInHtml(template.value, req.fullSlideJson);
    if updatedHtml.Err? {
      return Err("HTML processing failed: " + updatedHtml.msg);
    }
    var updatedJson := HtmlService.ModifyTab4Json(req.fullSlideJson);
    if updatedJson.Err? {
      return Err("HTML processing failed: " + updatedJson.msg);
    }
    var urls := UploadOrNone(upload(updatedHtml.value, updatedJson.value));
    r := Ok(HtmlResponse(updatedHtml.value, updatedJson.value, filename));
  }

  // ---------------------------------------------------------------------------
  // Metadata fallback

  const DescriptionKey := "meta_description"
  const KeywordsKey := "meta_keywords"
  const FilterTagsKey := "filter_tags"

  function DescriptionDefault(title: string): string {
    "Latest news and updates about " + title + ". Stay informed with comprehensive coverage and analysis."
  }

  function KeywordsDefault(title: string): string {
    Lower(title) + ", news, updates, latest, information"
  }

  function FilterTagsDefault(title: string): string {
    title + ", News, Updates"
  }

  /** `not metadata.get(k) or metadata.get(k) == "**"`. */
  predicate NeedsFallback(m: Dict<string>, k: string) {
    Lookup(m, k).None? || Lookup(m, k).value == "" || Lookup(m, k).value == "**"
  }

  /** One fallback statement: write the default under `k` when the value there is missing, empty or "**". */
  function FillField(m: Dict<string>, k: string, default: string): Dict<string> {
    if NeedsFallback(m, k) then Put(m, k, default) else m
  }

  /** The three fallback statements, in the order the route performs them. */
  function Filled(title: string, m: Dict<string>): Dict<string> {
    FillField(FillField(FillField(m, DescriptionKey, DescriptionDefault(title)),
                        KeywordsKey, KeywordsDefault(title)),
              FilterTagsKey, FilterTagsDefault(title))
  }

  /** The metadata dict updated in place by the three fallback statements. */
  method FillMetadata(title: string, metadata: Dict<string>) returns (m: Dict<string>)
    ensures m == Filled(title, metadata)
  {
    m := metadata;
    if NeedsFallback(m, DescriptionKey) {
      m := Put(m, DescriptionKey, DescriptionDefault(title));
    }
    if NeedsFallback(m, KeywordsKey) {
      m := Put(m, KeywordsKey, KeywordsDefault(title));
    }
    if NeedsFallback(m, FilterTagsKey) {
      m := Put(m, FilterTagsKey, FilterTagsDefault(title));
    }
  }

  /** After one fallback statement the key holds the default or its old usable value; other keys are untouched. */
  lemma FillFieldLookup(m: Dict<string>, k: string, default: string, other: string)
    ensures Lookup(FillField(m, k, default), k) == Some(if NeedsFallback(m, k) then default else Lookup(m, k).value)
    ensures other != k ==> Lookup(FillField(m, k, default), other) == Lookup(m, other)
  {
    if NeedsFallback(m, k) {
      PutLookup(m, k, default);
      if other != k {
        PutLookupOther(m, k, default, other);
      }
    }
  }

  /** The value the fallback leaves under `k`. */
  function FilledValue(m: Dict<string>, k: string, default: string): string {
    if NeedsFallback(m, k) then default else Lookup(m, k).value
  }

  /**
   * Each of the three fields ends up holding its old value when that was usable and its
   * title-based default otherwise; every other key keeps its value.
   */
  lemma FilledLookup(title: string, m: Dict<string>, other: string)
    ensures Lookup(Filled(title, m), DescriptionKey) == Some(FilledValue(m, DescriptionKey, DescriptionDefault(title)))
    ensures Lookup(Filled(title, m), KeywordsKey) == Some(FilledValue(m, KeywordsKey, KeywordsDefault(title)))
    ensures Lookup(Filled(title, m), FilterTagsKey) == Some(FilledValue(m, FilterTagsKey, FilterTagsDefault(title)))
    ensures other !in {DescriptionKey, KeywordsKey, FilterTagsKey} ==> Lookup(Filled(title, m), other) == Lookup(m, other)
  {
    var m1 := FillField(m, DescriptionKey, DescriptionDefault(title));
    var m2 := FillField(m1, KeywordsKey, KeywordsDefault(title));
    FillFieldLookup(m, DescriptionKey, DescriptionDefault(title), KeywordsKey);
    FillFieldLookup(m, DescriptionKey, DescriptionDefault(title), FilterTagsKey);
    FillFieldLookup(m, DescriptionKey, DescriptionDefault(title), other);
    FillFieldLookup(m1, KeywordsKey, KeywordsDefault(title), DescriptionKey);
    FillFieldLookup(m1, KeywordsKey, KeywordsDefault(title), FilterTagsKey);
    FillFieldLookup(m1, KeywordsKey, KeywordsDefault(title), other);
    FillFieldLookup(m2, FilterTagsKey, FilterTagsDefault(title), DescriptionKey);
    FillFieldLookup(m2, FilterTagsKey, FilterTagsDefault(title), KeywordsKey);
    FillFieldLookup(m2, FilterTagsKey, FilterTagsDefault(title), other);
  }

  /** The three defaults are never empty and never "**", whatever the title. */
  lemma DefaultsUsable(title: string)
    ensures DescriptionDefault(title) !in {"", "**"}
    ensures KeywordsDefault(title) !in {"", "**"}
    ensures FilterTagsDefault(title) !in {"", "**"}
  {
    assert |DescriptionDefault(title)| > 2;
    assert |KeywordsDefault(title)| > 2;
    assert |FilterTagsDefault(title)| > 2;
  }

  /** After the fallback none of the three fields needs it any more. */
  lemma FilledComplete(title: string, m: Dict<string>)
    ensures !NeedsFallback(Filled(title, m), DescriptionKey)
    ensures !NeedsFallback(Filled(title, m), KeywordsKey)
    ensures !NeedsFallback(Filled(title, m), FilterTagsKey)
  {
    FilledLookup(title, m, "");
    DefaultsUsable(title);
  }

  /** Running the fallback a second time changes nothing. */
  lemma FilledIdempotent(title: string, m: Dict<string>)
    ensures Filled(title, Filled(title, m)) == Filled(title, m)
  {
    var f := Filled(title, m);
    FilledComplete(title, m);
    assert FillField(f, DescriptionKey, DescriptionDefault(title)) == f;
    assert FillField(f, KeywordsKey, KeywordsDefault(title)) == f;
  }

  /** MetadataResponse: the three str fields; other keys of the dict are ignored. */
  datatype Metadata = Metadata(metaDescription: string, metaKeywords: string, filterTags: string)

  /** `MetadataResponse(**metadata)`: fails when one of the three fields is missing. */
  function MetadataResponse(m: Dict<string>): (r: Result<Metadata>)
    ensures r.Ok? <==> HasKey(m, DescriptionKey) && HasKey(m, KeywordsKey) && HasKey(m, FilterTagsKey)
    ensures r.Ok? ==> && Lookup(m, DescriptionKey) == Some(r.value.metaDescription)
                      && Lookup(m, KeywordsKey) == Some(r.value.metaKeywords)
                      && Lookup(m, FilterTagsKey) == Some(r.value.filterTags)
  {
    match (Lookup(m, DescriptionKey), Lookup(m, KeywordsKey), Lookup(m, FilterTagsKey))
    case (Some(d), Some(k), Some(t)) => Ok(Metadata(d, k, t))
    case _ => Err("ValidationError: Field required")
  }

  /**
   * Whatever the extraction found, the route answers with usable metadata: each field is the
   * extracted value when usable and the title-based default otherwise.
   */
  lemma MetadataAfterFallback(title: string, m: Dict<string>)
    ensures MetadataResponse(Filled(title, m)) == Ok(Metadata(
              FilledValue(m, DescriptionKey, DescriptionDefault(title)),
              FilledValue(m, KeywordsKey, KeywordsDefault(title)),
              FilledValue(m, FilterTagsKey, FilterTagsDefault(title))))
  {
    FilledLookup(title, m, "");
  }

  // ---------------------------------------------------------------------------
  // Filter tags

  /** `[p.strip() for p in parts if p.strip()]`. */
  function StrippedNonEmpty(parts: seq<string>): (r: seq<string>)
    ensures |r| <= |parts|
    decreases |parts|
  {
    if |parts| == 0 then []
    else if Strip(parts[0]) != "" then [Strip(parts[0])] + StrippedNonEmpty(parts[1..])
    else StrippedNonEmpty(parts[1..])
  }

  /** The tags of a comma-separated `filter_tags` string. */
  function FilterTags(s: string): seq<string> {
    StrippedNonEmpty(Split(s, ','))
  }

  /** Every tag kept is non-empty, already stripped, and free of the separator when the parts are. */
  lemma {:induction false} StrippedNonEmptyShape(parts: seq<string>, c: char)
    requires forall i :: 0 <= i < |parts| ==> c !in parts[i]
    ensures forall i :: 0 <= i < |StrippedNonEmpty(parts)| ==>
              var t := StrippedNonEmpty(parts)[i]; t != "" && Strip(t) == t && c !in t
    decreases |parts|
  {
    if |parts| > 0 {
      StrippedNonEmptyShape(parts[1..], c);
      StripIdempotent(parts[0]);
      StripByKeepsAbsent(parts[0], IsSpace, c);
    }
  }

  /** Every filter tag is non-empty, stripped and holds no comma. */
  lemma FilterTagsShape(s: string)
    ensures forall i :: 0 <= i < |FilterTags(s)| ==>
              FilterTags(s)[i] != "" && Strip(FilterTags(s)[i]) == FilterTags(s)[i] && ',' !in FilterTags(s)[i]
  {
    StrippedNonEmptyShape(Split(s, ','), ',');
  }

  /** Parts that are already tags come through unchanged. */
  lemma {:induction false} StrippedNonEmptyTags(tags: seq<string>)
    requires forall i :: 0 <= i < |tags| ==> tags[i] != "" && Strip(tags[i]) == tags[i]
    ensures StrippedNonEmpty(tags) == tags
    decreases |tags|
  {
    if |tags| > 0 {
      StrippedNonEmptyTags(tags[1..]);
    }
  }

  /** Joining tags with "," and parsing them back gives the tags. */
  lemma FilterTagsJoin(tags: seq<string>)
    requires forall i :: 0 <= i < |tags| ==> tags[i] != "" && Strip(tags[i]) == tags[i] && ',' !in tags[i]
    ensures FilterTags(Join(tags, ",")) == tags
  {
    if |tags| == 0 {
      assert Split("", ',') == [""];
      assert Strip("") == "";
    } else {
      SplitJoin(tags, ',');
      StrippedNonEmptyTags(tags);
    }
  }

  // ---------------------------------------------------------------------------
  // Content submission

  const BrandSuffix := " | Suvichaar"

  /** Python's `str()` of an optional URL: None prints as "None". */
  function PyStrOpt(u: Option<string>): string {
    match u
    case Some(s) => s
    case None => "None"
  }

  /**
   * `str(cover_image_url if use_custom_cover else image_url)`: the image URL unless the custom
   * cover is chosen; a custom cover with no URL is recorded as the text "None".
   */
  function CoverLink(req: SubmissionRequest): (r: string)
    ensures !req.useCustomCover ==> r == req.imageUrl
    ensures req.useCustomCover && req.coverImageUrl.Some? ==> r == req.coverImageUrl.value
    ensures req.useCustomCover && req.coverImageUrl.None? ==> r == "None"
  {
    PyStrOpt(if req.useCustomCover then req.coverImageUrl else Some(req.imageUrl))
  }

  const SubmissionKeys: seq<string> :=
    ["story_title", "meta_description", "meta_keywords", "content_type", "language", "image_url",
     "page_title", "canonical_url", "canonical_url1", "selected_user"]

  /** The `submission_data` dict; `user` stands for the randomly chosen user. */
  function SubmissionData(req: SubmissionRequest, urls: Helpers.StoryUrls, user: string): (r: Dict<string>)
    ensures Keys(r) == SubmissionKeys
  {
    [("story_title", req.storyTitle),
     ("meta_description", req.metaDescription),
     ("meta_keywords", req.metaKeywords),
     ("content_type", ContentTypeValue(req.contentType)),
     ("language", LanguageCodeValue(req.language)),
     ("image_url", req.imageUrl),
     ("page_title", req.storyTitle + BrandSuffix),
     ("canonical_url", urls.canonicalUrl),
     ("canonical_url1", urls.staticUrl),
     ("selected_user", user)]
  }

  /** The ten keys of `submission_data` are distinct. */
  lemma SubmissionKeysDistinct()
    ensures forall m, i :: 0 <= m < i < |SubmissionKeys| ==> SubmissionKeys[m] != SubmissionKeys[i]
  {
  }

  /** Looking a key of `submission_data` up finds the value written under it. */
  lemma SubmissionDataAt(req: SubmissionRequest, urls: Helpers.StoryUrls, user: string, i: nat)
    requires i < |SubmissionKeys|
    ensures GetOr(SubmissionData(req, urls, user), SubmissionKeys[i], "") == SubmissionData(req, urls, user)[i].1
  {
    var d := SubmissionData(req, urls, user);
    assert d[i].0 == Keys(d)[i];
    SubmissionKeysDistinct();
    forall m | 0 <= m < i ensures d[m].0 != d[i].0 {
      assert d[m].0 == Keys(d)[m];
    }
    LookupFirst(d, i);
  }

  /** In the submitted page `{{pagetitle}}` becomes the title with the brand suffix. */
  lemma SubmissionPageTitle(req: SubmissionRequest, urls: Helpers.StoryUrls, user: string)
    ensures HtmlService.SubmissionFields(SubmissionData(req, urls, user))[5]
            == ("{{pagetitle}}", req.storyTitle + BrandSuffix)
  {
    SubmissionDataAt(req, urls, user, 6);
  }

  /** `{{canurl}}` becomes the story's canonical URL. */
  lemma SubmissionPageCanonical(req: SubmissionRequest, urls: Helpers.StoryUrls, user: string)
    ensures HtmlService.SubmissionFields(SubmissionData(req, urls, user))[6] == ("{{canurl}}", urls.canonicalUrl)
  {
    SubmissionDataAt(req, urls, user, 7);
  }

  /** `html_service.category_mapping[request.categories.value]`. */
  function CategoryId(c: Category): (r: Result<int>)
  {
    match Lookup(CategoryMapping, CategoryValue(c))
    case Some(id) => Ok(id)
    case None => Err("KeyError: " + CategoryValue(c))
  }

  /** The category lookup of a validated request never raises; the id is the category's position. */
  lemma CategoryIdOk(c: Category)
    ensures CategoryId(c) == Ok(CategoryIndex(c) + 1)
  {
    CategoryMapped(c);
  }

  /** The metadata record the submission uploads. */
  function SubmissionMetadata(req: SubmissionRequest, urls: Helpers.StoryUrls): (r: Result<Dict<Json>>)
    ensures r.Ok? ==> Keys(r.value) == HtmlService.MetadataKeys
  {
    var category :- CategoryId(req.categories);
    Ok(HtmlService.GenerateMetadata(
      req.storyTitle, category, FilterTags(req.filterTags), urls.nano, urls.slugNano,
      urls.canonicalUrl, urls.staticUrl, CoverLink(req), req.metaKeywords,
      req.metaDescription, LanguageCodeValue(req.language)))
  }

  /**
   * The uploaded metadata always exists for a validated request: the category id is the
   * category's position, the filter tags are the parsed tags and the cover link is `CoverLink`.
   */
  lemma SubmissionMetadataOk(req: SubmissionRequest, urls: Helpers.StoryUrls)
    ensures SubmissionMetadata(req, urls) == Ok(HtmlService.GenerateMetadata(
              req.storyTitle, CategoryIndex(req.categories) + 1, FilterTags(req.filterTags), urls.nano,
              urls.slugNano, urls.canonicalUrl, urls.staticUrl, CoverLink(req), req.metaKeywords,
              req.metaDescription, LanguageCodeValue(req.language)))
  {
    CategoryIdOk(req.categories);
  }

  // ---------------------------------------------------------------------------
  // Resized-image placeholders

  /** The token `{{name}}` a resized URL replaces. */
  function Token(name: string): (t: string)
    ensures |t| > 0
  {
    "{{" + name + "}}"
  }

  /** One `(token, url)` substitution per resized URL, in the dict's order. */
  function Placeholders(resized: Dict<string>): (r: seq<(string, string)>)
    ensures |r| == |resized|
    ensures forall i :: 0 <= i < |r| ==> r[i] == (Token(resized[i].0), resized[i].1)
  {
    seq(|resized|, i requires 0 <= i < |resized| => (Token(resized[i].0), resized[i].1))
  }

  /** The loop replacing `{{label}}` by each resized URL in turn. */
  method SubstituteResized(html: string, resized: Dict<string>) returns (r: string)
    ensures r == Substitute(html, Placeholders(resized))
  {
    ghost var pairs := Placeholders(resized);
    r := html;
    var i := 0;
    assert pairs[0..] == pairs;
    while i < |resized|
      invariant 0 <= i <= |resized|
      invariant Substitute(r, pairs[i..]) == Substitute(html, pairs)
    {
      SubstituteStep(r, pairs, i);
      r := ReplaceAll(r, Token(resized[i].0), resized[i].1);
      i := i + 1;
    }
    assert pairs[i..] == [];
  }

  /**
   * An image off the media host gets no resized URLs, so the page is unchanged; on the media
   * host a page holding neither label's token is unchanged as well.
   */
  lemma ResizedSubstitutionUntouched(cdnPrefix: string, bucket: string, imageUrl: string, html: string)
    requires S3Service.ResizedUrls(cdnPrefix, bucket, imageUrl).Ok?
    requires (!Contains(html, Token("potraitcoverurl")) && !Contains(html, Token("msthumbnailcoverurl")))
             || !S3Service.IsMediaUrl(imageUrl)
    ensures Substitute(html, Placeholders(S3Service.ResizedUrls(cdnPrefix, bucket, imageUrl).value)) == html
  {
    var resized := S3Service.ResizedUrls(cdnPrefix, bucket, imageUrl).value;
    var pairs := Placeholders(resized);
    if S3Service.IsMediaUrl(imageUrl) {
      assert Keys(resized) == ["potraitcoverurl", "msthumbnailcoverurl"];
      assert resized[0].0 == "potraitcoverurl" && resized[1].0 == "msthumbnailcoverurl";
      SubstituteAbsent(html, pairs);
    }
  }
}
