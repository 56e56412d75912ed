/**
 * Fetching link data: `startFetching` picks the review plan when the URL
 * passes the review pattern, `fetchLinkData` stores the URL and issues the
 * request, and `onFetch` turns the reply into new data, an error notice or a
 * preview. The AJAX call, the notifier and the translation of messages are
 * outside the model: the reply is an input and notices are their message keys.
 */
module Fetching {
  import opened JsValues
  import opened UrlPattern
  import opened ToolData

  /** The configuration values the request needs, after the constructor's `|| ''` defaults. */
  datatype Config = Config(endpoint: Value, language: Value, apikey: Value)

  /** `config.x || ''` for each setting; reading a property of a nullish config throws. */
  function ConfigFrom(raw: Value): (c: Option<Config>)
    ensures c.None? <==> Nullish(raw)
    ensures c.Some? ==> c.value.endpoint == (if Truthy(Get(raw, "endpoint")) then Get(raw, "endpoint") else Str(""))
    ensures c.Some? ==> c.value.language == (if Truthy(Get(raw, "language")) then Get(raw, "language") else Str(""))
    ensures c.Some? ==> c.value.apikey == (if Truthy(Get(raw, "apikey")) then Get(raw, "apikey") else Str(""))
  {
    if Nullish(raw) then None
    else Some(Config(OrEmpty(raw, "endpoint"), OrEmpty(raw, "language"), OrEmpty(raw, "apikey")))
  }

  /** The headers `startFetching` stores for a review URL. */
  function ReviewHeaders(config: Config): (h: map<string, Value>)
    ensures h.Keys == {"accept", "accept-language", "x-api-key"}
    ensures h["accept-language"] == config.language && h["x-api-key"] == config.apikey
  {
    map["accept" := Str("application/json, text/plain, */*"),
        "accept-language" := config.language,
        "x-api-key" := config.apikey]
  }

  /** The arguments of the GET request. `None` stands for `null`. */
  datatype Request = Request(url: Value, headers: Option<map<string, Value>>, query: Option<map<string, Value>>)

  /**
   * The request plan: a review fetch goes straight to the URL with the stored
   * headers; any other fetch goes to the configured endpoint with the URL as
   * the `url` query parameter.
   */
  function Plan(isReview: bool, head: map<string, Value>, config: Config, url: string): (req: Request)
    ensures isReview ==> req == Request(Str(url), Some(head), None)
    ensures !isReview ==> req == Request(config.endpoint, None, Some(map["url" := Str(url)]))
  {
    Request(if isReview then Str(url) else config.endpoint,
            if isReview then Some(head) else None,
            if isReview then None else Some(map["url" := Str(url)]))
  }

  /** What the AJAX call delivers: a decoded body and status code, or a rejection. */
  datatype Reply = Replied(body: Value, code: int) | Rejected

  /** The three failure notices, by their message keys. */
  const TryOther: string := "Couldn't get this link data, try the other one"
  const WrongFormat: string := "Wrong response format from the server"
  const CouldNotFetch: string := "Couldn't fetch the link data"

  /** Which preview `onFetch` schedules once the progress bar has faded out. */
  datatype Preview = NoPreview | LinkPreview(meta: Value) | ReviewPreview(meta: Value)

  /** The result of handling one reply: the new record, the notice shown (if any) and the preview. */
  datatype Outcome = Outcome(data: Record, notice: Option<string>, preview: Preview)

  /**
   * `onFetch(response, code)`. `None` means it threw: `response.link` is read
   * on a nullish body before anything else happens. A string body has a
   * `link` property too, the inherited `String.prototype.link` method, which
   * is truthy and so becomes the stored link.
   */
  function OnFetch(data: Record, isReview: bool, body: Value, code: int): (o: Option<Outcome>)
    ensures code >= 400 ==> o == Some(Outcome(data, Some(TryOther), NoPreview))
    ensures code < 400 ==> (o.None? <==> Nullish(body))
    ensures code < 400 && o.Some? ==> o.value.data.link == OrElse(Get(body, "link"), data.link)
    ensures code < 400 && body.Str? ==> o.Some? && o.value.data.link == StringLink
    ensures code < 400 && o.Some? ==> o.value.data.meta == OrElse(body, data.meta)
    ensures code < 400 && o.Some? ==> (o.value.notice.Some? <==> !Truthy(body))
  {
    if code >= 400 then Some(Outcome(data, Some(TryOther), NoPreview))
    else if Nullish(body) then None
    else Some(Handled(data, isReview, body, OrElse(Get(body, "link"), data.link)))
  }

  /**
   * The rest of `onFetch` once the new link is known: the body is stored as
   * the meta, a falsy body is reported as the wrong format, and a truthy one
   * is previewed as the review flag says.
   */
  function Handled(data: Record, isReview: bool, body: Value, link: Value): (o: Outcome)
    requires !Nullish(body)
    ensures o.data == Record(OrElse(link, data.link), OrElse(body, data.meta))
    ensures o.notice.Some? <==> !Truthy(body)
    ensures o.notice.Some? ==> o.notice.value == WrongFormat && o.preview == NoPreview
    ensures Truthy(body) ==> o.preview == (if isReview then ReviewPreview(body) else LinkPreview(body))
  {
    var stored := Assign(data, ObjectOf(Some(link), Some(body))).value;
    if !Truthy(body) then Outcome(stored, Some(WrongFormat), NoPreview)
    else if isReview then Outcome(stored, None, ReviewPreview(body))
    else Outcome(stored, None, LinkPreview(body))
  }

  /**
   * `onFetch` as it is evidently meant to read the link: only an object body
   * can supply one, and any other body keeps the stored link.
   */
  function OnFetchIntended(data: Record, isReview: bool, body: Value, code: int): (o: Option<Outcome>)
    ensures code >= 400 ==> o == Some(Outcome(data, Some(TryOther), NoPreview))
    ensures code < 400 ==> (o.None? <==> Nullish(body))
    ensures code < 400 && o.Some? ==>
              o.value.data.link == (if body.Obj? && Truthy(Get(body, "link")) then Get(body, "link") else data.link)
    ensures code < 400 && o.Some? ==> o.value.data.meta == OrElse(body, data.meta)
    ensures code < 400 && o.Some? ==> (o.value.notice.Some? <==> !Truthy(body))
  {
    if code >= 400 then Some(Outcome(data, Some(TryOther), NoPreview))
    else if Nullish(body) then None
    else Some(Handled(data, isReview, body, if body.Obj? then OrElse(Get(body, "link"), data.link) else data.link))
  }

  /**
   * `fetchLinkData(url)` after the request plan: the URL is stored first,
   * then the reply is handled; a rejection or a throw inside `onFetch` is
   * caught and reported as "Couldn't fetch".
   */
  function FetchLinkData(data: Record, isReview: bool, url: string, reply: Reply): (o: Outcome)
    ensures var start := Assign(data, ObjectOf(Some(Str(url)), None)).value;
            (reply.Rejected? || (reply.code < 400 && Nullish(reply.body)))
            ==> o == Outcome(start, Some(CouldNotFetch), NoPreview)
    ensures o.preview != NoPreview ==> o.notice.None?
  {
    var start := Assign(data, ObjectOf(Some(Str(url)), None)).value;
    match reply
    case Rejected => Outcome(start, Some(CouldNotFetch), NoPreview)
    case Replied(body, code) =>
      match OnFetch(start, isReview, body, code)
      case None => Outcome(start, Some(CouldNotFetch), NoPreview)
      case Some(o) => o
  }

  /** An error status leaves the data as the fetch start left it, shows "try the other one" and no preview. */
  lemma ErrorStatusKeepsData(data: Record, isReview: bool, url: string, body: Value, code: int)
    requires code >= 400
    ensures FetchLinkData(data, isReview, url, Replied(body, code))
            == Outcome(Assign(data, ObjectOf(Some(Str(url)), None)).value, Some(TryOther), NoPreview)
  {
  }

  /** A falsy body that is not nullish keeps the old meta, shows "wrong format" and no preview. */
  lemma FalsyBodyKeepsMeta(data: Record, isReview: bool, url: string, body: Value, code: int)
    requires code < 400 && !Nullish(body) && !Truthy(body)
    ensures var o := FetchLinkData(data, isReview, url, Replied(body, code));
            o.data.meta == data.meta && o.notice == Some(WrongFormat) && o.preview == NoPreview
  {
  }

  /**
   * A truthy body becomes the meta and the preview kind follows the stored
   * review flag, not the URL. A body that is not a string replaces the link
   * by its `link` when that is truthy and otherwise keeps the URL; a string
   * body always stores `String.prototype.link`.
   */
  lemma TruthyBodyShowsPreview(data: Record, isReview: bool, url: string, body: Value, code: int)
    requires code < 400 && Truthy(body)
    ensures var o := FetchLinkData(data, isReview, url, Replied(body, code));
            o.data.meta == body && o.notice.None?
            && o.preview == (if isReview then ReviewPreview(body) else LinkPreview(body))
            && o.data.link == (if body.Str? then StringLink
                               else if Truthy(Get(body, "link")) then Get(body, "link")
                               else if url != "" then Str(url) else data.link)
  {
  }

  /**
   * Any string reply below 400, even the empty one, stores the method
   * `String.prototype.link` as the link: `validate()` then throws, and the
   * saved link is no longer the URL.
   */
  lemma StringBodyReplacesLink(data: Record, isReview: bool, url: string, s: string, code: int)
    requires code < 400
    ensures var o := FetchLinkData(data, isReview, url, Replied(Str(s), code));
            o.data.link == StringLink && Validate(o.data).None?
            && ToJsString(o.data.link) == "function link() { [native code] }"
            && (s == "" ==> o.notice == Some(WrongFormat) && o.data.meta == data.meta)
  {
    StringLinkText();
  }

  /**
   * With the link read only from object bodies, a reply that is not an object
   * leaves the fetched URL as the link, so a non-blank URL still validates;
   * on object bodies the intended handling is exactly `onFetch`'s.
   */
  lemma IntendedKeepsUrl(data: Record, isReview: bool, url: string, body: Value, code: int)
    requires code < 400 && !Nullish(body)
    ensures var start := Assign(data, ObjectOf(Some(Str(url)), None)).value;
            body.Obj? ==> OnFetchIntended(start, isReview, body, code) == OnFetch(start, isReview, body, code)
    ensures var start := Assign(data, ObjectOf(Some(Str(url)), None)).value;
            var o := OnFetchIntended(start, isReview, body, code).value;
            !body.Obj? && url != "" ==> o.data.link == Str(url) && Validate(o.data) == Some(!AllSpace(url))
  {
    var start := Assign(data, ObjectOf(Some(Str(url)), None)).value;
    if !body.Obj? && url != "" {
      ValidateIff(OnFetchIntended(start, isReview, body, code).value.data);
    }
  }

  /**
   * Every fetch keeps a truthy stored meta truthy, so `render`'s choice of
   * view never throws on a record the tool built.
   */
  lemma FetchKeepsMetaTruthy(data: Record, isReview: bool, url: string, reply: Reply)
    requires Truthy(data.meta)
    ensures Truthy(FetchLinkData(data, isReview, url, reply).data.meta)
  {
  }

  /** The widget's state that fetching reads and writes. */
  class LinkTool {
    var data: Record
    var isReview: bool
    var head: map<string, Value>
    const config: Config
    /** The input holder carries the error class. */
    var inputError: bool
    /** Notices shown so far, oldest first. */
    var notices: seq<string>
    var preview: Preview

    /** The review flag is only ever set together with the review headers, and the stored meta is truthy. */
    predicate Valid()
      reads this
    {
      (isReview ==> head == ReviewHeaders(config)) && Truthy(data.meta)
    }

    constructor (saved: Value, config: Config)
      requires !Nullish(saved)
      ensures Valid()
      ensures data == Construct(saved).value && !isReview && head == map[]
      ensures this.config == config && !inputError && notices == [] && preview == NoPreview
    {
      data := Construct(saved).value;
      isReview := false;
      head := map[];
      this.config := config;
      inputError := false;
      notices := [];
      preview := NoPreview;
    }

    /**
     * `startFetching(url)`: a URL passing the review pattern switches the tool
     * to the review plan for good; the error style is removed; then the URL is
     * fetched. Returns the request that was sent (`None` when none was needed).
     */
    method StartFetching(url: string, reply: Reply) returns (req: Request)
      requires Valid()
      modifies this
      ensures Valid()
      ensures isReview == (old(isReview) || IsReviewUrl(url))
      ensures head == (if IsReviewUrl(url) then ReviewHeaders(config) else old(head))
      ensures req == Plan(isReview, head, config, url)
      ensures var o := FetchLinkData(old(data), isReview, url, reply);
              data == o.data && preview == (if o.preview == NoPreview then old(preview) else o.preview)
              && notices == old(notices) + (if o.notice.Some? then [o.notice.value] else [])
              && inputError == o.notice.Some?
    {
      if IsReviewUrl(url) {
        isReview := true;
        head := ReviewHeaders(config);
      }
      inputError := false;
      req := FetchData(url, reply);
    }

    /** `fetchLinkData(url)` followed by `onFetch` or the `catch` branch. */
    method FetchData(url: string, reply: Reply) returns (req: Request)
      requires Valid()
      modifies this`data, this`inputError, this`notices, this`preview
      ensures Valid()
      ensures req == Plan(isReview, head, config, url)
      ensures var o := FetchLinkData(old(data), isReview, url, reply);
              data == o.data && preview == (if o.preview == NoPreview then old(preview) else o.preview)
              && notices == old(notices) + (if o.notice.Some? then [o.notice.value] else [])
              && inputError == (old(inputError) || o.notice.Some?)
    {
      data := Assign(data, ObjectOf(Some(Str(url)), None)).value;
      req := Plan(isReview, head, config, url);
      match reply
      case Rejected =>
        Failed(CouldNotFetch);
      case Replied(body, code) =>
        match OnFetch(data, isReview, body, code)
        case None =>
          Failed(CouldNotFetch);
        case Some(o) =>
          data := o.data;
          if o.notice.Some? {
            Failed(o.notice.value);
          } else {
            preview := o.preview;
          }
    }

    /** `fetchingFailed(message)`: show the notice and apply the error style. */
    method Failed(message: string)
      modifies this`notices, this`inputError
      ensures notices == old(notices) + [message] && inputError
    {
      notices := notices + [message];
      inputError := true;
    }
  }

  /**
   * Once a review URL has been fetched, the flag stays set: a later fetch of
   * a plain link still goes straight to that link with the review headers and
   * shows a review card, while `render`, which re-tests the stored link,
   * would show a link card for the same record.
   */
  lemma StickyReviewDiverges(data: Record, config: Config, body: Value)
    requires Truthy(body) && !Truthy(Get(body, "link")) && KeyCount(body).value > 0
    ensures var url := "https://example.com/page";
            var o := FetchLinkData(data, true, url, Replied(body, 200));
            Plan(true, ReviewHeaders(config), config, url).headers == Some(ReviewHeaders(config))
            && o.preview == ReviewPreview(body)
            && RenderChoice(o.data) == Some(LinkCard)
  {
    var url := "https://example.com/page";
    PlainPageRejected();
    assert ToJsString(Str(url)) == url;
  }

  /**
   * The same divergence on the tool itself: after a fetch of a review URL,
   * fetching a plain page still sends the review request and schedules a
   * review preview, while `render`'s choice for the stored record is the
   * link card.
   */
  method StickyReviewOnTool(tool: LinkTool, reviewUrl: string, first: Reply, body: Value) returns (req: Request)
    requires tool.Valid() && IsReviewUrl(reviewUrl)
    requires Truthy(body) && !Truthy(Get(body, "link")) && KeyCount(body).value > 0
    modifies tool
    ensures tool.Valid() && tool.isReview
    ensures req == Request(Str("https://example.com/page"), Some(ReviewHeaders(tool.config)), None)
    ensures tool.preview == ReviewPreview(body) && RenderChoice(tool.data) == Some(LinkCard)
  {
    var firstReq := tool.StartFetching(reviewUrl, first);
    var before := tool.data;
    PlainPageRejected();
    req := tool.StartFetching("https://example.com/page", Replied(body, 200));
    StickyReviewDiverges(before, tool.config, body);
  }
}
