# News-Engine story pipeline, modelled in Dafny

News-Engine (the Suvichaar FastAPI service) turns a news article into a narrated web story.
A story travels between its stages as string-keyed dictionaries: `storytitle`, `hookline`,
`sNparagraph1`, `slideN`, `audio_urlN` and so on. Each stage renumbers, re-keys or flattens
them, and the last stages splice them into HTML and AMP markup. This project models that
pipeline and the smaller deterministic pieces around it:

- the structured-script builders, the cover-JSON flattening, text cleaning, slug and URL
  building, and the response envelopes of `app/utils/helpers.py`;
- speech annotation, renderer-input flattening and transliteration in
  `app/services/tts_service.py`;
- placeholder substitution, the slide renumbering of `modify_tab4_json`, AMP slide assembly,
  content submission and metadata in `app/services/html_service.py`;
- slug building, the resized-image URL encoder (JSON text, UTF-8, URL-safe base64) and the
  extension rule of `app/services/s3_service.py`;
- the request validators and enum domains of `app/models/schemas.py`, with the constant
  mappings of `app/core/config.py`;
- the decision and fallback rules of the route handlers in `app/api/routes.py`;
- the deterministic rules around the page fetch and the language-model calls in
  `app/services/article_service.py`.

How the Python is represented:

- A dictionary is a sequence of (key, value) pairs in insertion order. `Put` models `d[k] = v`:
  it replaces the value in place or appends the pair. `Lookup`, `GetOr` and `HasKey` model
  `d[k]`, `d.get(k, default)` and `k in d`.
- A JSON value is the datatype `Json`. `PyContains`, `Subscript`, `GetField` and `PyStr` model
  Python's `in`, `[]`, `.get` and `str()` on it, including the exceptions they raise.
- A raised exception is the `Err` case of `Result`.
- Each external call is a function parameter that may fail: the page fetch, the template
  fetch, the speech call, the language model and the S3 upload. The clock, the random draw
  and the random user are parameters too.
- Loops that fill a dictionary step by step are methods. Each method's postcondition ties
  its result to a specification function, and lemmas state the properties of that function.

Modules, one per file: `Wrappers`, `Text` (the Python string operations used),
`PyJson` (dictionaries and JSON values), `SlideKeys` (the `slideN`/`sNparagraph1` key
families), `Base64`, `JsonText` (`json.dumps` and a parser for its output), `Helpers`,
`TtsService`, `HtmlService`, `AmpTemplate` (`process_amp_template`), `S3Service`, `Schemas`,
`Routes` and `ArticleService`.

## Model

| member | source | states |
|---|---|---|
| Helpers.CreateStructuredOutput | app/utils/helpers.py:45-59 | the method's result is `StructuredOutput`, built by its loop over `range(1, number_of_slides + 1)` |
| Helpers.StructuredOutputSlides | app/utils/helpers.py:48-58 | exactly `number_of_slides + 2` entries: `storytitle` first, `s1..sNparagraph1` in order, `hookline` last; the i-th paragraph is the slide's `script`, else its `title`, else `""`; positions past the slide list are `""` |
| Helpers.StructuredOutputUnique | app/utils/helpers.py:48-58 | the keys of the structured output are pairwise distinct |
| Helpers.StructuredOutputFails | app/utils/helpers.py:54 | the builder raises exactly when one of the used slides is not a dict |
| Helpers.ScriptOrTitle | app/utils/helpers.py:54 | `slide.get("script", slide.get("title", ""))`: the script when present, else the title, else `""`; not a dict raises |
| Helpers.RestructureSlideOutput | app/utils/helpers.py:26-42 | the method's result is `Restructured`, built by its loop over the slides |
| Helpers.RestructuredSlides | app/utils/helpers.py:31-40 | one key `s{k}paragraph1` per slide, k = 1..len(slides) with no gap, distinct keys, each value stripped |
| Helpers.RestructuredFails | app/utils/helpers.py:31-40 | restructuring fails exactly when some slide's script cannot be computed |
| Helpers.SlideScript | app/utils/helpers.py:33-38 | succeeds exactly for a dict slide with a str script whose fallback, when needed, is a str; a non-blank script is kept stripped; a blank one gives the stripped fallback (the first truthy of title, prompt, "Content unavailable") |
| Helpers.Fallback | app/utils/helpers.py:37 | the fallback is always truthy: the title if truthy, else the prompt if truthy, else "Content unavailable", each case stated |
| Helpers.SlideList | app/utils/helpers.py:28 | `final_output.get("slides", [])`: missing gives no slides, a list gives its items |
| Helpers.TransformSuvichaarJson | app/utils/helpers.py:142-165 | the method's result is `Transformed`, built by its loop over the input items |
| Helpers.TransformedSlides | app/utils/helpers.py:146-163 | the output has exactly the input keys in input order, and each value is the cover entry of its input slide |
| Helpers.TransformedFails | app/utils/helpers.py:146-147 | the transform raises exactly when some key has a non-numeric suffix or some value is not a dict; empty input gives empty output |
| Helpers.CoverEntryOfSlide | app/utils/helpers.py:149-162 | for `slide{n}` the entry holds `s{n}paragraph1` = the cover text, `s{n}audio1` = `audio_url` or `""`, and the constant image and `paragraph2` |
| Helpers.CoverText | app/utils/helpers.py:149-154 | the text is `storytitle` when present, else `hookline` when present, else the value of the first key containing "paragraph", else `""`; each case stated, and the text is always one of the slide's values or `""` |
| Helpers.FirstParagraphIndex | app/utils/helpers.py:154 | the first key containing "paragraph", or none when no key does |
| Helpers.CoverEntryFails | app/utils/helpers.py:147 | one entry fails exactly when its key has no number or its value is not a dict |
| Helpers.CleanTextForHtml | app/utils/helpers.py:73-84 | the method's result is `CleanText`, computed by its sequence of replacements |
| Helpers.CleanText | app/utils/helpers.py:73-84 | empty gives empty; otherwise the result has no `"`, `\n` or `\r` and no surrounding whitespace |
| Helpers.CleanTextIdempotent | app/utils/helpers.py:73-84 | cleaning twice equals cleaning once |
| Helpers.SlugShape | app/utils/helpers.py:17-19 | the slug uses only `[a-z0-9-]` and neither starts nor ends with `-` |
| Helpers.SlugIdempotent | app/utils/helpers.py:17-19 | slugging a slug changes nothing |
| Helpers.GenerateSlugAndUrls | app/utils/helpers.py:12-23 | raises exactly for a title that is not a non-empty str (the copy in app/services/s3_service.py, lines 102-113, has the same body) |
| Helpers.StoryUrlsDecode | app/services/s3_service.py:110-113 | nano is the 10-character draw plus `_G`; `slug_nano = slug + "_" + nano`; the canonical URLs are the stories base and the static base around `slug_nano`, and the slug and nano can be read back from `slug_nano` |
| Helpers.ValidateJsonStructure | app/utils/helpers.py:68-70 | true exactly when every required key is present |
| Helpers.CreateSuccessResponse | app/utils/helpers.py:179-185 | an envelope with exactly the keys success, message, data |
| Helpers.SuccessResponseFields | app/utils/helpers.py:179-185 | success is True, the message and data are handed back, and there is no error key |
| Helpers.CreateErrorResponse | app/utils/helpers.py:188-195 | an envelope with exactly the keys success, error, detail, status_code |
| Helpers.ErrorResponseFields | app/utils/helpers.py:188-195 | success is False, the error and status code are carried, and there is no data key |
| Helpers.ErrorDetail | app/utils/helpers.py:188-195 | the error envelope's `detail` is the given text, or None when none is given |
| TtsService.SynthesizeAndUpload | app/services/tts_service.py:28-73 | the method's result equals `Synthesize`, built by its storytitle, hookline and paragraph blocks |
| TtsService.SynthesizeSlides | app/services/tts_service.py:33-71 | keys `slide1..slideK` with no gap, K the number of present keys among storytitle, hookline, s1..s9paragraph1; slide j voices the j-th of them in that order, keeping the text under its original key, with its audio URL and the same voice |
| TtsService.SynthesizeSucceeds | app/services/tts_service.py:38-106 | synthesis succeeds exactly when every present key's speech call succeeds; a failure returns no partial result |
| TtsService.SynthesizeIgnores | app/services/tts_service.py:36-58 | a key outside storytitle, hookline and s1..s9paragraph1 (e.g. `s10paragraph1`) is never voiced |
| TtsService.GenerateRemotionInput | app/services/tts_service.py:108-156 | the method's result equals `Remotion` |
| TtsService.RemotionSlides | app/services/tts_service.py:111-154 | exactly K+1 slides `slide1..slide(K+1)`, K the number of present keys among storytitle, s1..s9paragraph1, hookline; the last is the call-to-action entry |
| TtsService.RemotionContent | app/services/tts_service.py:114-146 | content slide j carries the j-th present key's text, the audio at `slide{j}` of the same dict (default `""`), the fixed image and `"- " + author_name` |
| TtsService.RemotionFails | app/services/tts_service.py:118-142 | the flattening fails exactly when the `slide{m}` of some content slide is present but not a dict |
| TtsService.RemotionOfNothing | app/services/tts_service.py:148-154 | with none of the script keys, the output is the call-to-action slide alone as `slide1` |
| TtsService.SlideAudioFails | app/services/tts_service.py:118 | the audio lookup raises exactly when `slide{n}` is present but not a dict |
| TtsService.SynthesizeThenRemotion | app/services/tts_service.py:39-70 | the slide-keyed synthesis output fed to the flattening yields only the call-to-action slide, whatever was voiced |
| TtsService.SlideKeyNotRemotionKey | app/services/tts_service.py:115-138 | no `slide{n}` key is one of the keys the flattening looks for |
| TtsService.TransliterateToDevanagari | app/services/tts_service.py:158-186 | the method's result equals `Transliterated`, built by its loop |
| TtsService.Transliterated | app/services/tts_service.py:165-184 | same length; each entry keeps its key, and its value is the stripped answer for a non-blank slide paragraph whose call succeeds, otherwise the original |
| TtsService.TransliteratedKeeps | app/services/tts_service.py:163-186 | the keys are exactly the input keys, and a changed value belongs to a key starting with "s" and containing "paragraph1" with a non-blank value |
| HtmlService.TitleSubstitutions | app/services/html_service.py:50-58 | fails exactly when `slide1`/`slide2` is present but not a dict, or one of the four values read is not a str; the four tokens in order; `{{storytitle}}` and `{{storytitle_audiourl}}` take `storytitle` and `audio_url` of `slide1`, `{{hookline}}` and `{{hookline_audiourl}}` take `hookline` and `audio_url` of `slide2`; a missing slide or field gives `""` |
| HtmlService.SlideField | app/services/html_service.py:50-53 | `json_data.get(slide, {}).get(field, "")`: `""` when the slide is missing, the field or `""` when it is a dict, an error otherwise |
| HtmlService.ReplacePlaceholdersInHtml | app/services/html_service.py:48-60 | the result is the template with the four title tokens substituted in the source's order |
| HtmlService.ReplacePlaceholdersNoTokens | app/services/html_service.py:55-60 | a template with none of the four tokens comes back unchanged |
| HtmlService.ModifyTab4Json | app/services/html_service.py:62-86 | the method's result is the encoding of `Tab4Slides`, built by its loop over slide3..slide99 with its counter and break |
| HtmlService.Tab4Numbering | app/services/html_service.py:64-84 | output numbers are ascending from 2 in insertion order, and output keys are distinct |
| HtmlService.Tab4Membership | app/services/html_service.py:67-84 | output `slide{m}` exists exactly when 2 <= m <= 98, `slide3..slide{m+1}` are all present (the scan stops at the first gap) and `slide{m+1}` has a key ending in paragraph1; its value holds exactly `s{m}paragraph1`, `audio_url{m}` and `voice` |
| HtmlService.Tab4Errors | app/services/html_service.py:71-74 | the renumbering raises exactly when a scanned slide is not a dict |
| HtmlService.Tab4Frame | app/services/html_service.py:67-71 | the result depends only on `slide3..slide99`; `slide1`, `slide2` and every other key are never read |
| HtmlService.Tab4Entry | app/services/html_service.py:74-83 | a slide gives an entry exactly when it has a key ending in paragraph1; the entry is keyed `s{n}paragraph1`, `audio_url{n}`, `voice` and takes that first value, the slide's `audio_url` and its `voice`, each defaulting to `""` |
| HtmlService.FirstParagraph | app/services/html_service.py:74-75 | the value of the first key ending in "paragraph1", or none when no key does |
| HtmlService.FindParagraphField | app/services/html_service.py:74-83 | the inner loop with break finds the index of that first key |
| HtmlService.EncodeSlides | app/services/html_service.py:72-78 | numbered entries become `slide{n}` keys in the same order |
| HtmlService.ProcessContentSubmission | app/services/html_service.py:155-188 | the result is the template after the user, timestamp, field and image substitutions in the source's order, then the `href` and `src` unwrapping |
| HtmlService.SubmissionSubstitutions | app/services/html_service.py:158-182 | user defaults to "Suvichaar" and its profile URL to `""`; `{{publishedtime}}` and `{{modifiedtime}}` are `now`; then the eight content fields; `{{image0}}` gets `image_url`, and only when it is non-empty |
| HtmlService.SubstituteHead | app/services/html_service.py:158-167 | the four `replace` statements for the user, its profile URL and the two timestamps are the first four substitutions of the run, in order |
| HtmlService.SubstituteFields | app/services/html_service.py:170-177 | the eight content-field `replace` statements are the run of `SubmissionFields`, in order |
| HtmlService.SubmissionFields | app/services/html_service.py:170-177 | the eight content tokens in source order, each paired with its submission field (`story_title` … `canonical_url1`) defaulting to `""` |
| HtmlService.ContentSubmissionUntouched | app/services/html_service.py:155-188 | a template with no token and no wrapped link comes back unchanged |
| HtmlService.UnwrapLinksAbsent | app/services/html_service.py:185-186 | text without a wrapped `attr="{https://` link is left unchanged by the unwrapping |
| HtmlService.UnwrapLinksFront | app/services/html_service.py:185-186 | a wrapped link `attr="{https://…}"` loses its braces |
| HtmlService.GenerateMetadata | app/services/html_service.py:200-219 | exactly the thirteen metadata keys in the source's order |
| AmpTemplate.ProcessAmpTemplate | app/services/html_service.py:134-153 | the method's result equals `AmpPage`, built by its loop over the sorted keys |
| AmpTemplate.AmpPage | app/services/html_service.py:136-152 | raises without the placeholder and for a key without a number; succeeds exactly when the placeholder is present, every key has a number and the sorted slides render, and then every placeholder occurrence is replaced by the pages of the numerically sorted slides |
| AmpTemplate.AmpPageNoSlides | app/services/html_service.py:139-152 | with no slides the placeholder is replaced by `""` |
| AmpTemplate.AmpPageRejectsUnnumbered | app/services/html_service.py:140 | a key whose suffix is not an integer makes the sort raise |
| AmpTemplate.RenderSlide | app/services/html_service.py:141-150 | a slide renders nothing unless both `s{n}paragraph1` and `audio_url{n}` are present; with both present it raises when the paragraph is not a str (a list or dict URL also fails in the model, where Python prints its repr; see PyJson.PyStr), and otherwise it is the page of the shortened, escaped paragraph and the formatted URL |
| AmpTemplate.RenderAllOk | app/services/html_service.py:141-150 | the slides render exactly when every slide renders on its own; the first failure fails the page |
| AmpTemplate.SlideParagraph | app/services/html_service.py:147-148 | the rendered paragraph has no `"`, is at most 180 characters, and is the whitespace-collapsed text when that fits |
| AmpTemplate.EscapeQuotes | app/services/html_service.py:147 | `"` becomes `&quot;` and no `"` is left; the apostrophe replacement is the identity |
| AmpTemplate.GenerateSlide | app/services/html_service.py:88-132 | the page is a fixed head, the audio URL, a fixed middle, the paragraph and a fixed tail, each readable back at its place (the fixed parts are abbreviated, see "Left out") |
| AmpTemplate.NumberSlides | app/services/html_service.py:140 | each key gets `int(key.replace("slide", ""))`; fails exactly when some key has no number |
| AmpTemplate.SortByNumberCorrect | app/services/html_service.py:140 | the sort is ascending by number, a permutation, and stable |
| AmpTemplate.Tab4ThenAmp | app/services/html_service.py:62-153 | the renumbered slides, fed to the AMP assembly, render in slide order with nothing skipped |
| S3Service.GenerateResizedImageUrls | app/services/s3_service.py:115-145 | the method's result equals `ResizedUrls`, built by its loop over the two presets |
| S3Service.ResizedUrls | app/services/s3_service.py:117-129 | `{}` unless the URL starts with `http(s)://media.suvichaar.org`; otherwise exactly the labels `potraitcoverurl` and `msthumbnailcoverurl` |
| S3Service.ResizedUrlsDecode | app/services/s3_service.py:120-143 | decoding each suffix gives back the bucket, the path without its leading `/`, 640 by 853 or 300 by 300, and fit "cover" |
| S3Service.ReadResizedUrlOf | app/services/s3_service.py:141-142 | the CDN prefix plus base64 of the UTF-8 JSON text decodes back to the template |
| S3Service.MediaKey | app/services/s3_service.py:120-121 | for a media URL with a plain path, the object key is the path without its leading `/` |
| S3Service.CdnKey | app/services/s3_service.py:121 | the key is a suffix of the URL path and does not start with `/` |
| S3Service.ImageExtension | app/services/s3_service.py:82-85 | the lowercased extension of the URL path's basename when it is one of .jpg .jpeg .png .gif, else .jpg |
| Base64.DecodeEncode | app/services/s3_service.py:141 | URL-safe base64 decoding inverts encoding |
| Base64.EncodeAlphabet | app/services/s3_service.py:141 | the encoding uses only the URL-safe alphabet and `=` |
| Base64.EncodeInjective | app/services/s3_service.py:141 | different payloads give different encodings |
| JsonText.ParseDumps | app/services/s3_service.py:141 | the `json.dumps` text of a value parses back to that value |
| JsonText.DumpsAscii | app/services/s3_service.py:141 | `json.dumps` text is ASCII, so its UTF-8 bytes are its characters |
| Schemas.ParsePersona | app/models/schemas.py:9-15 | a persona is accepted exactly when it is one of the five values, and maps back to it |
| Schemas.ParseLanguage | app/models/schemas.py:18-21 | a language is accepted exactly when it is English or Hindi |
| Schemas.ParseContentType | app/models/schemas.py:24-27 | a content type is accepted exactly when it is News or Article |
| Schemas.ParseLanguageCode | app/models/schemas.py:30-33 | a language code is accepted exactly when it is en-US or hi |
| Schemas.ParseCategory | app/models/schemas.py:36-48 | a category is accepted exactly when it is one of the eleven values |
| Schemas.CategoryMapped | app/core/config.py:60-72 | every category value is a key of the category mapping, with id = position + 1, so the lookup in the submission route cannot fail |
| Schemas.CategoryIdsDistinct | app/core/config.py:60-72 | different categories get different ids |
| Schemas.DefaultVoiceOffered | app/core/config.py:43-50 | the default voice "alloy" is one of the voice options |
| Schemas.SlideCountField | app/models/schemas.py:58 | `number_of_slides` defaults to 10 and is accepted exactly in 0..1000 |
| Schemas.ValidateArticleRequest | app/models/schemas.py:53-58 | accepted exactly when the url is a str and persona, language and slide count are valid; the fields are the ones given |
| Schemas.ValidateTtsRequest | app/models/schemas.py:61-64 | accepted exactly when `structured_slides` is a dict and `voice`, if given, a str; voice defaults to "alloy" and is not checked against the options |
| Schemas.ValidateHtmlRequest | app/models/schemas.py:67-71 | accepted exactly when `full_slide_json` is a dict and both optional fields are str or missing |
| Schemas.ValidateAmpRequest | app/models/schemas.py:74-85 | with well-typed fields, rejected exactly when the inline template is missing or empty and the URL is missing |
| Schemas.ValidateSubmissionRequest | app/models/schemas.py:88-100 | accepted exactly when every required field has its type and the enums are valid; every accepted field carries the body's value; `use_custom_cover` is the given bool and defaults to False |
| Schemas.RequiredStr | app/models/schemas.py:90-92 | a required str field: accepted exactly when present and a str |
| Schemas.OptionalStr | app/models/schemas.py:70-71 | an optional str field: missing or null gives None, a str gives it, anything else is rejected |
| Schemas.BoolOr | app/models/schemas.py:98 | a bool field with a default: missing gives the default, a bool gives it, anything else is rejected |
| Schemas.EnumField | app/models/schemas.py:56-57 | an enum field is accepted exactly when it is a str the enum parses |
| Routes.TemplateSource | app/api/routes.py:117-127 | the URL is fetched when set, else the inline template when non-empty, else `""` |
| Routes.AmpTemplateNeverFallback | app/api/routes.py:239-249 | for a validated AMP request the `""` fallback is unreachable: without a URL the inline template is non-empty |
| Routes.UploadOrNone | app/api/routes.py:140-150 | an upload failure becomes None, a success its URL |
| Routes.ProcessHtml | app/api/routes.py:111-161 | succeeds exactly when the template source, the title substitution and the renumbering succeed, whatever the upload does; the answer is the substituted template, the renumbered JSON and the filename |
| Routes.FillMetadata | app/api/routes.py:424-432 | the method's result equals `Filled`, the three fallback updates in order |
| Routes.FilledLookup | app/api/routes.py:425-432 | each of the three fields is its value, or its title-based default when it is missing, empty or "**"; every other key is unchanged |
| Routes.FillFieldLookup | app/api/routes.py:425-426 | one fallback sets its own key and leaves every other key unchanged |
| Routes.DefaultsUsable | app/api/routes.py:426-432 | no default is empty or "**" |
| Routes.FilledComplete | app/api/routes.py:425-432 | after the fallback no field needs a fallback |
| Routes.FilledIdempotent | app/api/routes.py:425-432 | applying the fallback twice equals applying it once |
| Routes.MetadataResponse | app/api/routes.py:434 | the response is built exactly when the three fields are present, and carries their values |
| Routes.MetadataAfterFallback | app/api/routes.py:425-434 | after the fallback the response is always built, from the filled fields |
| Routes.FilterTagsShape | app/api/routes.py:481 | every tag is non-empty, stripped and free of commas |
| Routes.FilterTagsJoin | app/api/routes.py:481 | parsing the comma-join of non-empty stripped comma-free tags gives the tags back |
| Routes.StrippedNonEmpty | app/api/routes.py:481 | the stripped non-empty parts, in order, never more than the parts |
| Routes.CoverLink | app/api/routes.py:451-487 | the image URL unless the custom cover is chosen; then the custom URL, or "None" when it is missing |
| Routes.SubmissionData | app/api/routes.py:457-468 | exactly the ten submission keys in the source's order |
| Routes.SubmissionPageTitle | app/api/routes.py:448-464 | the page-title substitution uses the story title plus " \| Suvichaar" |
| Routes.SubmissionPageCanonical | app/api/routes.py:465 | the canonical-URL substitution uses the generated canonical URL |
| Routes.CategoryIdOk | app/api/routes.py:484 | the category lookup always succeeds, with the category's id |
| Routes.SubmissionMetadata | app/api/routes.py:481-489 | the metadata has exactly the thirteen metadata keys |
| Routes.SubmissionMetadataOk | app/api/routes.py:481-489 | the metadata is generated from the title, the category id, the parsed filter tags, the URLs, the cover link and the request's fields |
| Routes.SubstituteResized | app/api/routes.py:473-475 | the loop replaces each returned label's `{{label}}` by its URL, in order |
| Routes.ResizedSubstitutionUntouched | app/api/routes.py:473-475 | HTML without the two label tokens comes back unchanged, and so does any HTML when no label is returned |
| ArticleService.ExtractArticle | app/services/article_service.py:46-96 | a failed fetch fails; otherwise the title, summary and content of the page, the content never empty and the summary its cut |
| ArticleService.SelectContent | app/services/article_service.py:74-79 | the selector loop stops at the first selector that matches, even when its text is blank |
| ArticleService.ArticleContent | app/services/article_service.py:74-88 | the content is never empty |
| ArticleService.ContentSource | app/services/article_service.py:74-88 | the selected text when not blank; else the notice when there is no paragraph or one blank one; else the joined paragraphs, even when all are blank |
| ArticleService.JoinEmpty | app/services/article_service.py:84 | the space-joined paragraphs are empty exactly when there are none or one empty one |
| ArticleService.Summary | app/services/article_service.py:91 | the content itself when at most 300 characters, else its first 300 plus "..." |
| ArticleService.SummaryIdempotent | app/services/article_service.py:91 | summarising a summary changes nothing |
| ArticleService.DetectCategory | app/services/article_service.py:113-189 | the default for a text shorter than 50 when stripped; otherwise the model's answer when the call succeeds and the answer contains the three keys, else the default (both directions stated) |
| ArticleService.AllIn | app/services/article_service.py:179 | `all(k in result for k in keys)` is true exactly when each `in` is true |
| ArticleService.ClassificationKeysPresent | app/services/article_service.py:179-189 | a dict classification always has category, subcategory and emotion |
| ArticleService.ShortTextNotClassified | app/services/article_service.py:115-120 | a short text gets the default whatever the model would answer |
| ArticleService.Hookline | app/services/article_service.py:230-242 | the cleaned answer, or on failure the Hindi or English fixed sentence |
| ArticleService.HooklineUnquoted | app/services/article_service.py:238-242 | the hookline never starts or ends with `"` |
| ArticleService.CleanAnswer | app/services/article_service.py:238-272 | `strip().strip('"')` leaves no quote at either end |
| ArticleService.Storytitle | app/services/article_service.py:244-276 | outside Hindi the stripped title; in Hindi the cleaned answer, or the stripped title on failure |
| ArticleService.StorytitleWithoutModel | app/services/article_service.py:261-262 | outside Hindi the title does not depend on the model |
| ArticleService.TitleScriptGenerator | app/services/article_service.py:278-398 | the method's result equals `TitleScript` |
| ArticleService.NarrateAll | app/services/article_service.py:361-391 | the loop appends one narrated slide per planned slide; the first slide that raises ends it with that error |
| ArticleService.NarratedSlide | app/services/article_service.py:361-391 | a planned slide that is not a dict holding `prompt` and `title` raises (a list or dict `prompt` or `title` also fails in the model, where Python's f-string prints its repr; see PyJson.PyStr); otherwise four fields whose script is the stripped narration or, when the call fails, the fixed sentence |
| ArticleService.NarratedSlides | app/services/article_service.py:361-391 | one narrated slide per planned slide |
| ArticleService.NarratedFails | app/services/article_service.py:361-391 | a slide that raises makes the whole run raise the same error |
| ArticleService.Iterate | app/services/article_service.py:361 | iterating a list gives its items, a dict its keys, a str its characters; anything else raises |
| ArticleService.UnreadablePlan | app/services/article_service.py:331-334 | an unparsable plan or one without `slides` gives no slides, with the classification echoed |
| ArticleService.PlannedSlides | app/services/article_service.py:337-398 | a plan of n slides gives 1 + n slides, the first titled `headline[:80]`; a failing intro call fails the generator |
| Text.SplitJoin | app/api/routes.py:481 | splitting a separator-joined list of separator-free parts gives the parts back |
| Text.StripIdempotent | app/utils/helpers.py:84 | stripping twice equals stripping once |
| Text.Shorten | app/services/html_service.py:148 | `textwrap.shorten`: at most `width` characters, and the collapsed text when it fits |
| Text.ShortenAtWordBoundary | app/services/html_service.py:148 | a shortened text is whole whitespace-separated words joined by spaces followed by "...", and one more word would not fit (textwrap's hyphen breaks are left out) |
| Text.ParseIntNatToString | app/services/html_service.py:140 | `int()` of a number's decimal text gives the number back |
| Text.ParseIntUnderscore | app/services/html_service.py:140 | `int()` accepts an underscore between two digits and ignores it, so `slide1_0` is slide 10 |
| SlideKeys.SlideKeyInjective | app/services/html_service.py:72 | different slide numbers give different `slide{n}` keys |
| SlideKeys.ParagraphKeyInjective | app/services/html_service.py:76 | different numbers give different `s{n}paragraph1` keys |
| SlideKeys.SlideKeyNumber | app/services/html_service.py:140 | the number of `slide{n}` is n |
| PyJson.PutLookup | app/services/tts_service.py:39 | after `d[k] = v`, `d[k]` is v, and an existing key keeps its place |
| PyJson.PyContains | app/services/html_service.py:146 | `k in x` on a dict, a str or a list, and raises on a number, bool or None |
| PyJson.Subscript | app/services/article_service.py:332 | `x[k]` succeeds exactly on a dict holding k |

## Left out

- Network, storage and model calls are not modelled. They are parameters that may fail:
  - `fetch_template_from_url`;
  - the `requests` fetch and the BeautifulSoup parse in `extract_article` (a `Page` gives the title text, the selector matches and the paragraph texts);
  - `_generate_audio` (temp file, HTTP and S3);
  - every `S3Service.upload_*` call, and `generate_thumbnail`;
  - the Azure OpenAI calls.
- Prompt texts are not modelled; each model call is a function of the values it depends on.
- A model answer that is parsed JSON stands for the call, the `strip("```json")` clean-up and `json.loads` together.
- `get_sentiment`: TextBlob floating-point polarity thresholds.
- `extract_metadata_from_response`: Python regex semantics applied to free-form model text. `Routes.FillMetadata` takes its result as input.
- `create_zip_file` and the download endpoints: archive and filesystem work.
- `random.choices`, `get_random_user`, `generate_filename` and `datetime.now()` are parameters (`draw`, `user`, `filename`, `now`).
- The route paths that use `request.output_json_url` and `request.prefinal_html_url` are not modelled. Neither attribute is declared in app/models/schemas.py, so those paths raise at run time. The same holds for `upload_processed_files` and `upload_amp_html`, which app/services/s3_service.py does not declare.
- Routes.ProcessHtml: the S3 URLs are dropped from the answer. The response model in app/models/schemas.py:147-152 has no field for them, and the upload call itself does not exist (see above). So an upload failure changes nothing in the answer.
- `HttpUrl` syntax checks and pydantic's type coercion (e.g. "5" accepted for an int) are not modelled: URL fields are plain strings and fields must have their JSON type.
- `urlparse` is modelled only for the steps the resized-image and upload code needs: the leading clean-up, the scheme split, the netloc cut with its bracket check, and the params, query and fragment cuts. Host parsing and port validation are not modelled.
- `Text.Lower` folds ASCII letters only; Python's Unicode case mapping is not modelled. (`Text.Strip` and `Text.Words` use the full set of characters for which `str.isspace()` holds.)
- PyJson.PyStr: `str()` of a list or dict fails in the model instead of producing Python's repr text; numbers, bools and None are formatted.
- Text.Shorten: textwrap's `break_on_hyphens` chunking is not modelled. The model cuts an over-long text only between whitespace-separated words. textwrap also cuts after a hyphen between letters ("well-" + "known"), before an em-dash `--`, and inside an over-long word at its last hyphen. So an over-long text with such a word can keep a longer prefix in Python: for 170 × `a` + " well-known", Python gives 170 × `a` + " well-..." and the model gives 170 × `a` + "...". The `\w`-based letter classes of textwrap's word-splitting regex are Unicode tables, which is why the hyphen rule is left out.
- Text.ShortenAtWordBoundary: states the whole-word cut of the model; textwrap can cut after the hyphen of a hyphenated word (see Text.Shorten).
- AmpTemplate.SlideParagraph: inherits the Text.Shorten gap for over-long paragraphs with hyphenated words or em-dashes.
- AmpTemplate.RenderSlide: inherits the Text.Shorten gap through AmpTemplate.SlideParagraph. It also fails for an audio URL that is a list or dict, which the f-string in `generate_slide` prints by its repr in Python (the PyJson.PyStr gap).
- AmpTemplate.AmpPage: inherits the Text.Shorten gap through AmpTemplate.SlideParagraph, the non-ASCII digit gap of Text.ParseInt through AmpTemplate.NumberSlides, and the PyJson.PyStr gap through AmpTemplate.RenderSlide (a list or dict audio URL fails the page in the model; Python renders it by its repr).
- AmpTemplate.ProcessAmpTemplate: equals AmpTemplate.AmpPage, so it has the same three gaps.
- ArticleService.NarratedSlide: fails for a `prompt` or `title` that is a list or dict. Python's f-strings (the narration prompt and `image_prompt`) print such a value by its repr and go on (the PyJson.PyStr gap).
- ArticleService.NarratedSlides: inherits the PyJson.PyStr gap of ArticleService.NarratedSlide for every slide.
- ArticleService.NarrateAll: computes ArticleService.NarratedSlides, so it has the same PyJson.PyStr gap.
- ArticleService.PlannedSlides: narrates the plan through ArticleService.NarratedSlides, so it has the same PyJson.PyStr gap.
- AmpTemplate.GenerateSlide: the page markup is abbreviated. Only the opening tag, the audio `<source>` element and the paragraph `<span>` are kept; the animations, grid layers, `amp-img` and the empty `h2` are not. The two splice points, and the order of URL and paragraph, are as in the source.
- Text.ParseInt: Python's `int()` also accepts non-ASCII decimal digits (Unicode category Nd, e.g. `int("١٠") == 10`). The model accepts ASCII digits only, with underscores between them as `int()` allows; a key such as `slide١٠` is rejected by the model and accepted by Python. The Nd digit table is not modelled.
- AmpTemplate.NumberSlides: "fails exactly when some key has no number" holds for the model's ParseInt; a key whose suffix uses non-ASCII decimal digits fails here but not in Python (see Text.ParseInt).
- AmpTemplate.AmpPageRejectsUnnumbered: "not an integer" means not an integer for the model's ParseInt, which rejects non-ASCII decimal digits (see Text.ParseInt).
- Helpers.CoverEntryFails: the failure condition uses the model's ParseInt, so a key with non-ASCII decimal digits fails here but not in Python (see Text.ParseInt).
- Helpers.TransformedFails: the same non-ASCII digit gap as Helpers.CoverEntryFails (see Text.ParseInt).
- TtsService.SynthesizeAndUpload: takes a dictionary of str values, as `synthesize_and_upload` declares. The route passes the request's `Dict[str, Any]` unchecked; a non-str value there is not modelled.
- TtsService.TransliterateToDevanagari: takes a dictionary of str values, as `transliterate_to_devanagari` declares; a non-str value (on which `.strip()` raises) is not modelled.
- The Python integer/float distinction is not modelled: JSON numbers are integers.
- Load tests, HTTP client scripts, app start-up and the database models are not modelled.
