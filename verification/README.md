# Link / review block tool — a Dafny model

The tool is an editor block that holds one link, stored as a `{link, meta}`
record. When the user enters a URL, the tool fetches meta data for it.

- **Review URLs.** A URL that passes the review pattern is fetched directly, with API headers. It is shown as a review card: star row, dates, attribution, texts, a picture carousel and expand/collapse buttons.
- **Other URLs.** Any other URL goes through the configured endpoint and is shown as a link card: picture, title, description, info box and arrow.

The model covers the logic beneath the DOM calls:

- `JsValues` — the JavaScript values the tool handles, with their truthiness, `||`, property reads and `Object.keys(..).length`. Also `String(v)`, `textContent` assignment, `trim` with the ECMAScript white-space set, and decimal number texts.
- `UrlPattern` — the review regular expression as data, with two things proved equal:
  - a semantics: the words the expression describes;
  - the matcher `RegExp.prototype.test` runs (an unanchored search with no `g` flag).

  The pattern is also written out by hand as a predicate and proved equal to the expression's language. The consequences are proved:
  - unescaped dots accept any character;
  - an id character is required;
  - the test ignores what surrounds a match.
- `ToolData` — the record, the merging `data` setter, the constructor, `save`, `validate` and the choice `render` makes between the input, the review card and the link card.
- `Fetching` — the request plan, `onFetch`, and the `try`/`catch` of `fetchLinkData`, all as functions of the reply.
  - The class `LinkTool` holds the tool's fields. Its methods `StartFetching`, `FetchData` and `Failed` update those fields in place.
  - The stickiness of the review flag is exposed, not fixed.
- `Carousel` — the geometry of the picture strip.
  - Pure functions give the new `bound` of each slide.
  - The class `Slider` holds the measured fields and a per-thumbnail array of `translateX` offsets. `addReviewData` becomes its constructor; `slideNext` and `slidePrev` become its methods.
- `Toggles` — the two expand/collapse state machines (`toggleMore`, `toggleReplyMore`) as a class with one field per flag, class set and label.
- `ReviewCard` — the review card's derived values:
  - the label override for guest-language reviews;
  - the five-star loop, as a method with a loop invariant;
  - the rating text and the `i < rate` comparison with JavaScript number conversion;
  - the participation, attribution, initial and written-date texts.
- `LinkCard` — the link card as a tree of element values. The tree is read back in document order to state which texts, images and classes it shows.

Browser measurements (`getBoundingClientRect`, `scrollHeight`) and date parsing are parameters. The AJAX reply is a parameter: a decoded body with a status code, or a rejection. Notifier messages are their untranslated keys.

## Model

| member | source | states |
|---|---|---|
| UrlPattern.Ends | src/index.js:140-141 | every end position the matcher reports for a start lies between that start and the end of the text |
| UrlPattern.EndsCorrect | src/index.js:140-141 | the matcher reports end `j` from start `i` exactly when `s[i..j]` is a word of the expression (both directions, for every construct the pattern uses) |
| UrlPattern.CatEndsCorrect | src/index.js:140-141 | the same equivalence for a concatenation, from the equivalences of its two parts |
| UrlPattern.RunEndsCorrect | src/index.js:140-141 | the same equivalence for the negated class `[^/?&"]+`: one or more characters, none excluded |
| UrlPattern.TestIffSomeSubstringMatches | src/index.js:140-141 | `test` without the `g` flag succeeds exactly when some substring of the input is a word of the pattern (unanchored search, no state kept between calls) |
| UrlPattern.TestIgnoresSurroundings | src/index.js:140-141 | adding text before and after an accepted string keeps it accepted |
| UrlPattern.NtmgComIff | src/index.js:140-141 | `.ntmg.com` with unescaped dots is any character, `ntmg`, any character, `com` |
| UrlPattern.StgThenTailIff | src/index.js:140-141 | the optional `(.stg)` group followed by the tail matches exactly the hand-written form |
| UrlPattern.DevThenRestIff | src/index.js:140-141 | the optional `(.dev)` group followed by the rest matches exactly the hand-written form |
| UrlPattern.ApiHostNameIff | src/index.js:140-141 | a host is `api` + optional dev + optional stg + tail exactly when it starts with `api` and the rest is the dev/stg/tail form |
| UrlPattern.HostIff | src/index.js:140-141 | the host alternative matches exactly the `api…ntmg…com` hosts and `localhost:3007` |
| UrlPattern.HostThenPathIff | src/index.js:140-141 | host followed by `/v1/reviews/` and an id matches exactly the hand-written host-path-id form |
| UrlPattern.SchemeSplit | src/index.js:140-141 | a match of `https?://` + b splits into the scheme `http://` or `https://` and a word of b |
| UrlPattern.SchemeJoin | src/index.js:140-141 | either scheme followed by a word of b is a match of `https?://` + b |
| UrlPattern.ReviewPatternIff | src/index.js:140-141 | the review expression describes exactly the hand-written review URLs |
| UrlPattern.IsReviewUrlIff | src/index.js:140-141 | a URL is classified as a review exactly when one of its substrings is a hand-written review URL |
| UrlPattern.ReviewUrlHasPathAndId | src/index.js:140-141 | every accepted URL contains `/v1/reviews/` followed by at least one character other than `/ ? & "` |
| UrlPattern.WholeUrlAccepted | src/index.js:140-141 | every URL of the form scheme + review host + `/v1/reviews/` + id is accepted |
| UrlPattern.DottedHostAccepted | src/index.js:140-141 | `api.ntmg.com`, `api.dev.ntmg.com`, `api.stg.ntmg.com` and `api.dev.stg.ntmg.com` are review hosts |
| UrlPattern.UnescapedDotsAccepted | src/index.js:140-141 | any two characters stand in for the dots of `api.ntmg.com` |
| UrlPattern.RejectedWithoutV | src/index.js:140-141 | a URL without the letter `v` is never a review URL |
| UrlPattern.PlainPageRejected | src/index.js:366 | `https://example.com/page` is not a review URL |
| UrlPattern.BarePathRejected | src/index.js:140-141 | a prefix without the letter `v` followed by a bare `/v1/reviews/` is rejected: the id needs at least one character |
| ToolData.Assign | src/index.js:234-239 | the setter throws on nullish data; otherwise the new link is `data.link` when truthy and the old link otherwise, and likewise for meta |
| ToolData.FetchStartKeepsMeta | src/index.js:1046 | `data = {link: url}` at the start of a fetch keeps the stored meta, and keeps the old link when the URL is empty |
| ToolData.AssignKeepsLinkTruthy | src/index.js:234-239 | a truthy stored link stays truthy through any assignment, so no later `data` assignment blanks an entered URL |
| ToolData.AssignKeepsMetaTruthy | src/index.js:234-239 | a truthy stored meta stays truthy through any assignment |
| ToolData.AssignIdempotent | src/index.js:234-239 | assigning the same data twice is the same as assigning it once |
| ToolData.Construct | src/index.js:158-163 | construction starts from `{link: '', meta: {}}` and applies the setter, throwing on nullish data; the stored meta is always truthy |
| ToolData.Save | src/index.js:213-215 | `save` returns the stored link and meta |
| ToolData.ConstructSaveRoundTrip | src/index.js:213-215 | constructing from data with a truthy meta and a truthy or empty link, then saving, returns that link and meta |
| ToolData.SaveConstructStable | src/index.js:213-215 | constructing from what a constructed tool saved gives the same record |
| ToolData.Validate | src/index.js:225-227 | `validate` throws when the link is not a string |
| ToolData.ValidateIff | src/index.js:225-227 | a string link validates exactly when it holds a character other than ECMAScript white space |
| ToolData.NoLinkDoesNotValidate | src/index.js:225-227 | a tool constructed without a link does not validate |
| ToolData.RenderChoice | src/index.js:189-199 | `render` shows the input when meta has no keys, the review card when the stored link passes the pattern, and the link card otherwise; it throws on nullish meta |
| ToolData.ConstructedRenders | src/index.js:189-199 | on a constructed tool, `render`'s choice of view does not throw, and it picks the input when the saved data had no truthy meta |
| Fetching.ConfigFrom | src/index.js:78-89 | `endpoint`, `language` and `apikey` are each the configured value when truthy and `''` otherwise; a nullish config throws |
| Fetching.ReviewHeaders | src/index.js:368-372 | the review headers are exactly `accept`, `accept-language` (the configured language) and `x-api-key` (the configured key) |
| Fetching.Plan | src/index.js:1049-1053 | a review fetch goes to the URL with the stored headers and no query; any other fetch goes to the endpoint with `{url}` as query and no headers |
| Fetching.OnFetch | src/index.js:1068-1099 | a code of 400 or more reports "try the other one" and leaves the data; a nullish body throws; otherwise the link becomes `body.link \|\| link`, which for any string body (even `''`) is the method `String.prototype.link`, the meta becomes `body \|\| meta`, and a notice is shown exactly when the body is falsy |
| Fetching.Handled | src/index.js:1080-1098 | with the new link known, the record takes the truthy link and the body as meta (else the old ones); a falsy body reports the wrong format with no preview, a truthy one is previewed as the review flag says |
| Fetching.OnFetchIntended | src/index.js:1076-1078 | as `onFetch`, but only an object body supplies a link: any other body keeps the stored link |
| Fetching.FetchLinkData | src/index.js:1044-1060 | a rejected request, or a body that makes `onFetch` throw, reports "Couldn't fetch" with the URL stored; a preview is never shown together with a notice |
| Fetching.ErrorStatusKeepsData | src/index.js:1068-1074 | an error status leaves the record as the fetch start left it |
| Fetching.FalsyBodyKeepsMeta | src/index.js:1080-1090 | a falsy, non-nullish body keeps the old meta and reports the wrong format, with no preview |
| Fetching.TruthyBodyShowsPreview | src/index.js:1076-1098 | a truthy body becomes the meta and the preview kind follows the review flag; a string body stores `String.prototype.link` as the link, any other body its truthy `link`, else the URL, else the old link |
| Fetching.StringBodyReplacesLink | src/index.js:1076-1083 | a string reply below 400, even the empty one, stores `String.prototype.link` as the link, so `validate` throws and `String(link)` (the link card's `href`) is the function's source; an empty one also reports the wrong format and keeps the meta |
| Fetching.IntendedKeepsUrl | src/index.js:1076-1083 | with the intended reading, a non-object reply keeps the fetched URL, which validates exactly when it is not blank; on object replies the intended handling equals `onFetch` |
| Fetching.FetchKeepsMetaTruthy | src/index.js:1044-1099 | every fetch keeps the stored meta truthy, so `render`'s choice of view never throws on it |
| Fetching.LinkTool.StartFetching | src/index.js:359-381 | a review URL sets the review flag and headers for good; any other URL leaves them; the request, data, notices, error style and preview are those of the fetch |
| Fetching.LinkTool.FetchData | src/index.js:1044-1060 | the fields after one fetch are those `FetchLinkData` computes (including `String.prototype.link` as the link after a string reply); the error style is set exactly when a notice is shown |
| Fetching.LinkTool.Failed | src/index.js:1108-1115 | the notice is appended and the error style applied |
| Fetching.StickyReviewDiverges | src/index.js:366-373 | after a review fetch, a plain link is still fetched with the review headers and previewed as a review, while `render` would show a link card for the stored record |
| Fetching.StickyReviewOnTool | src/index.js:359-381 | on the tool itself: a review URL fetch followed by a plain page fetch sends the review request for the page, schedules a review preview, and leaves a record `render` shows as a link card |
| Carousel.AlignDown | src/index.js:897 | `Math.floor(x / w) * w` is a multiple of `w` within `w` below `x` |
| Carousel.AlignDownLargest | src/index.js:897 | it is the largest multiple of `w` not above `x` |
| Carousel.NextBound | src/index.js:891-897 | `slideNext` moves exactly to the end when what remains fits in the visible width, and otherwise to the aligned position |
| Carousel.PrevBound | src/index.js:924-926 | `slidePrev` moves back by at most the visible width, aligned down to a thumbnail edge |
| Carousel.NextBoundWithinEnd | src/index.js:887-912 | from an aligned bound before the end, `slideNext` never moves backwards and never passes `maxWidth - visibleWidth` |
| Carousel.NextBoundProgress | src/index.js:893-897 | with a visible width of at least one thumbnail, `slideNext` always moves forward |
| Carousel.NextBoundStuckWhenNarrow | src/index.js:893-897 | with a visible width narrower than a thumbnail, the aligned branch of `slideNext` never moves |
| Carousel.PrevBoundBack | src/index.js:919-940 | `slidePrev` lands on a non-negative thumbnail edge, strictly before the old bound when the visible width is positive |
| Carousel.WorkedExample | src/index.js:887-940 | six 100 px thumbnails, 250 px visible: next goes 0 → 200 → 350, prev goes 350 → 100 → 0 |
| Carousel.RemainFromEnd | src/index.js:898-899 | after a slide, `remainWidth` is the end `maxWidth - visibleWidth` minus the bound |
| Carousel.InitialHideDiffers | src/index.js:851-863 | on a fresh tool, between 1 and 15 px remaining hides the next arrow, although `slideNext` would still move |
| Carousel.Slider.constructor | src/index.js:848-863 | the initial measurements, the hidden previous arrow, and the next arrow hidden when less than 16 px remain |
| Carousel.Slider.ShiftAll | src/index.js:908-911 | every thumbnail is translated by `-bound` |
| Carousel.Slider.SlideNext | src/index.js:887-912 | no change when nothing lies beyond the visible part; otherwise bound, totalRight, remainWidth, arrows and offsets as the source sets them |
| Carousel.Slider.SlidePrev | src/index.js:919-940 | no change at bound 0; otherwise bound, totalRight, remainWidth, arrows and offsets as the source sets them |
| Toggles.Flip | src/index.js:947-958 | one toggle flips the flag, puts `is-close` on exactly when collapsed, offers the other label, and changes no other class |
| Toggles.FlipTwice | src/index.js:947-976 | two toggles restore the state exactly when the state was coherent |
| Toggles.ShortMessageFirstFlip | src/index.js:840-843 | a message that never got `is-close` only changes its label on the first toggle |
| Toggles.MessageToggles.constructor | src/index.js:836-878 | after `addReviewData`, both flags are false and `is-close` is on exactly the messages taller than 70 px |
| Toggles.MessageToggles.ToggleMore | src/index.js:947-958 | the message toggle takes one `Flip` step; the reply is untouched |
| Toggles.MessageToggles.ToggleReplyMore | src/index.js:965-976 | the reply toggle takes one `Flip` step; the message is untouched |
| ReviewCard.LabelsFor | src/index.js:655-660 | a guest-language review replaces all four labels by the configured texts; otherwise they stay |
| ReviewCard.UnsetSettingsBlankLabels | src/index.js:655-660 | with the label settings unset, a guest-language review shows empty labels |
| ReviewCard.BlankIsZero | src/index.js:662-668 | a blank rating text converts to 0 |
| ReviewCard.NumberOfDigits | src/index.js:668 | a run of digits converts to its value |
| ReviewCard.NumberOfNatText | src/index.js:668 | the decimal text of a natural number converts back to that number |
| ReviewCard.StarSpec | src/index.js:665-677 | star `i` is on exactly when `i < rate` holds with JavaScript number comparison |
| ReviewCard.StarRow | src/index.js:662-679 | the loop appends exactly the five stars the specification gives for the converted rate |
| ReviewCard.StarCountOfInteger | src/index.js:665-677 | for a whole-number rate `n`, the row has `n` clamped to `[0, 5]` lit stars |
| ReviewCard.StarCountOfNaN | src/index.js:665-677 | a rate that is not a number lights no star |
| ReviewCard.ReplaceFirst | src/index.js:663 | a string `replace` substitutes the replacement for the first occurrence of the pattern only, wherever it is, and leaves a string without one unchanged |
| ReviewCard.RateTextOfPrefixed | src/index.js:663 | `REVIEW_RATING_<rest>` becomes `<rest>` |
| ReviewCard.RatingFor | src/index.js:662-679 | a non-string rating throws; otherwise the five stars `StarSpec` gives for the converted rate text, and that text as the number |
| ReviewCard.RatingOfLevel | src/index.js:662-679 | `REVIEW_RATING_<n>` shows `n` as its number and `min(n, 5)` lit stars |
| ReviewCard.ParticipationText | src/index.js:681-684 | the participation line is the label, a colon and the first seven characters of the value (all of a shorter one); a non-string value throws |
| ReviewCard.ParticipationKeepsPrefix | src/index.js:683 | the line keeps exactly the first seven characters, or all of a shorter value |
| ReviewCard.AttributionText | src/index.js:685-687 | the attribution line is the configured text for `String(meta.attribution)`, or empty when none is configured |
| ReviewCard.AttributionLookup | src/index.js:685-687 | with no attribution configured the line is empty; a string configured for the key is shown as it is |
| ReviewCard.Initial | src/index.js:783-786 | the icon letter is the first character of the nickname; a non-string nickname throws |
| ReviewCard.WrittenDateAsWritten | src/index.js:787-793 | an invalid date shows `NaN/NaN/NaN` after the label and colon |
| ReviewCard.AsWrittenReadsMonthFromZero | src/index.js:787-793 | the line as built reads back as year, the 0-based month (one below the calendar month) and day, for every valid date |
| ReviewCard.WrittenDate | src/index.js:787-793 | the line with the calendar month; an invalid date shows `NaN/NaN/NaN` |
| ReviewCard.DateLineReadsBack | src/index.js:790-792 | a `year/month/day` line reads back as its three numbers |
| ReviewCard.WrittenDateReadsCalendarMonth | src/index.js:787-793 | the corrected line reads back as year, month 1 to 12, and day |
| ReviewCard.AsWrittenJanuaryReadsZero | src/index.js:787-793 | the line as built reads back month 0 for a January date |
| LinkCard.ImagePart | src/index.js:485-491 | the picture box is present exactly when `meta.image` is truthy |
| LinkCard.TextPart | src/index.js:494-502 | a text element is present exactly when its field is truthy |
| LinkCard.InfoPart | src/index.js:510-524 | the info box is present exactly when the operating days or the lowest price is truthy |
| LinkCard.Anchor | src/index.js:503-507 | the anchor's `href` is `String(link)` and the arrow is its last child |
| LinkCard.Card | src/index.js:482-526 | the holder contains just the anchor |
| LinkCard.CardGather | src/index.js:482-526 | reading the card in document order visits the holder, the anchor, the picture, the body with title, description and info box, then the arrow |
| LinkCard.CardTexts | src/index.js:494-524 | the card's texts, in order, are title, description, operating days and lowest price, each exactly when truthy |
| LinkCard.CardImages | src/index.js:485-491 | the card holds one image, with source `String(meta.image)`, when the image is truthy, and none otherwise |
| LinkCard.CardClasses | src/index.js:482-526 | the card's classes in document order; the info box appears exactly when the operating days or the price is truthy, with a line for each |
| JsValues.OrEmpty | src/index.js:78-89 | `config.x \|\| ''` is the configured value when truthy and `''` otherwise, so always truthy or `''` |
| JsValues.TextContent | src/index.js:495 | setting `textContent` to a string shows that string; a nullish value shows nothing |
| JsValues.TrimEmptyIff | src/index.js:226 | `trim` yields `''` exactly for strings made only of ECMAScript white space |
| JsValues.NatToStringRoundTrip | src/index.js:790-792 | the decimal text of a natural number reads back as that number |

## Left out

- DOM construction is not modelled: `make`, the `CSS` getter, `prepare*Preview`, `makeInputHolder`, key and click wiring, and `selectLinkUrl`. Elements are values, and only the link card's tree is built.
- The review card's node tree is not built. Only its texts and star row are modelled: the holders, the media list, the reply box and the `pic` list `showReviewPreview` fills.
- The AJAX library, the notifier and `i18n.t` are outside the model. The reply is an input, and notices are their message keys.
- Timers and promises are treated as sequential steps: `showProgress`, `hideProgress` and the `.then` that shows the preview. An exception thrown inside the delayed preview (for example a non-string `meta.rating`) is modelled as `None` in the card functions. It is not tied back to the fetch, which has already succeeded.
- Layout reads become integer or boolean parameters: `getBoundingClientRect` for the list edges and thumbnail width, and `scrollHeight > 70`. Fractional pixel widths are not modelled.
- Throws inside the review card after `render`'s choice are not modelled: `meta.media_items.length` (src/index.js:703) throws when `media_items` is missing, and `addReviewData` appends `itemMessage` (src/index.js:839), which stays `null` when `meta.body` is falsy (it is set only at src/index.js:691), so that review card throws. `ToolData.ConstructedRenders` and `Fetching.FetchKeepsMetaTruthy` speak of the choice of view only.
- `new URL(..)` host checks are not modelled. Their `catch` branch writes to a node the tool never creates, so it throws after the link card is built; the tree is unaffected.
- `new Date(..)` parsing is not modelled. The written date takes the UTC components, or an invalid date, as input.
- `showModal`, the `console` output, the debug code after the media list and the commented-out code are not modelled.
- webpack.config.js is not part of this model.
- ReviewCard.UnsignedNumber and the number conversion only read:
  - optional white space;
  - an optional sign;
  - `Infinity`, or digits with an optional fraction.

  Exponents (`1e3`) and hexadecimal, binary and octal forms (`0x10`, `0b1`, `0o7`) convert to NaN in the model, where `Number` gives their value.
- ReviewCard.ToNumber yields an exact rational, not the nearest double. `Number('4.00000000000000001')` is 4 in JavaScript and lights four stars; the model reads a value above 4 and lights five.
- JsValues.Value holds integer numbers only, so a fractional JSON number (such as a `lowest_price_gross` of `12.5`) cannot be represented, and `String(v)` of a number gives integer texts only.
- JsValues.Get knows one inherited property: `link` on strings. Other inherited members (`length` of a string or array, `Object.prototype` methods such as `toString`) are not among the keys the tool reads, except through `config.attribution[..]` below.
- ReviewCard.ParticipationText: `substring` counts UTF-16 code units, and the model counts characters.
- ReviewCard.Initial takes the whole first character. `substring(0, 1)` takes one UTF-16 code unit, so a nickname starting outside the Basic Multilingual Plane (an emoji, say) shows half a surrogate pair in the source; a lone surrogate is not a character the model can hold.
- UrlPattern.Ends and UrlPattern.Matches read the URL as characters. Without the `u` flag, `.` matches one UTF-16 code unit, so a character outside the Basic Multilingual Plane is two units for the source: `https://api😀ntmg.com/v1/reviews/x` is rejected by the source and accepted by the model.
- ReviewCard.AttributionText looks the key up among the configured entries only. A key inherited from `Object.prototype` (`meta.attribution` equal to `toString`, say) would show that function's text in the source and shows nothing in the model.
- ReviewCard.AttributionText assumes the configured attribution is an object. A truthy non-object setting (a string, say) is not modelled.
- Carousel.Slider.constructor models the picture list with at least one picture. With an empty media list, `addReviewData` skips the slider altogether.
- Carousel.Slider.SlideNext and Carousel.Slider.SlidePrev take the list's left edge as a parameter, measured afresh at each call, as the source does.
- Fetching.LinkTool.StartFetching takes the URL as a string. The input text or paste event that supplies it is not modelled.
- The error-style toggling in `removeErrorStyle` and `applyErrorStyle` is modelled as a flag. Moving the progress bar is not modelled.

## Findings

| source | as written | input that shows it | evidently intended | confidence | as-written member | corrected member |
|---|---|---|---|---|---|---|
| src/index.js:790-792 | the written date uses `getUTCMonth()`, which counts months from 0 | a review written on 15 January 2023 shows `2023/0/15` | the calendar month, `getUTCMonth() + 1`, giving `2023/1/15` | high (not executed) | ReviewCard.AsWrittenJanuaryReadsZero | ReviewCard.WrittenDateReadsCalendarMonth |
| src/index.js:1076-1083 | `response.link` is read from any body; on a string body it finds the inherited method `String.prototype.link`, which is truthy and replaces the URL | a reply with code 200 and the empty string as body stores the function as the link, so `validate` throws and `save` returns the function as the link (the body itself is falsy, so no card is built); with the body `ok` a link card is built, and its `href` (`String(link)`) is the function's source text | only an object body supplies a link; any other body keeps the fetched URL | medium (not executed) | Fetching.StringBodyReplacesLink | Fetching.IntendedKeepsUrl |

The class `LinkTool` and `Fetching.FetchLinkData` follow `onFetch` as written; `Fetching.OnFetchIntended` is the corrected handler, and `Fetching.IntendedKeepsUrl` proves what it keeps.

Two further behaviours are modelled as written and stated as lemmas, not corrected:

- **The review flag is sticky** (`Fetching.StickyReviewDiverges`). After one review URL, every later fetch uses the review request and the review card, while `render` re-tests the stored link.
- **A null reply body is reported as a failed fetch.** `onFetch` reads `response.link` before its check for a falsy body, so the throw is caught as "Couldn't fetch the link data" (`Fetching.FetchLinkData`).
