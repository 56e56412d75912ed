/**
 * The block's stored record `{link, meta}`: the merging `data` setter, `save`,
 * `validate` and the choice `render` makes between the URL input, the review
 * card and the link card.
 */
module ToolData {
  import opened JsValues
  import opened UrlPattern

  /** `_data`: the link the user gave (or the server returned) and the fetched meta data. */
  datatype Record = Record(link: Value, meta: Value)

  /** The record a new tool starts from before its saved data is assigned. */
  const Initial: Record := Record(Str(""), Obj(map[]))

  /**
   * The `data` setter: `link` and `meta` of the incoming object replace the
   * stored ones only when they are truthy. Reading a property of `null` or
   * `undefined` throws, which is `None` here.
   */
  function Assign(current: Record, incoming: Value): (r: Option<Record>)
    ensures r.None? <==> Nullish(incoming)
    ensures r.Some? ==> r.value.link == (if Truthy(Get(incoming, "link")) then Get(incoming, "link") else current.link)
    ensures r.Some? ==> r.value.meta == (if Truthy(Get(incoming, "meta")) then Get(incoming, "meta") else current.meta)
  {
    if Nullish(incoming) then None
    else Some(Record(OrElse(Get(incoming, "link"), current.link), OrElse(Get(incoming, "meta"), current.meta)))
  }

  /** An object literal with the given properties. */
  function ObjectOf(link: Option<Value>, meta: Option<Value>): (v: Value)
    ensures !Nullish(v)
    ensures Get(v, "link") == (if link.Some? then link.value else Undefined)
    ensures Get(v, "meta") == (if meta.Some? then meta.value else Undefined)
  {
    var withLink: map<string, Value> := if link.Some? then map["link" := link.value] else map[];
    Obj(if meta.Some? then withLink["meta" := meta.value] else withLink)
  }

  /** `this.data = { link: url }` at the start of a fetch never clears the stored meta. */
  lemma FetchStartKeepsMeta(current: Record, url: string)
    ensures Assign(current, ObjectOf(Some(Str(url)), None)).Some?
    ensures Assign(current, ObjectOf(Some(Str(url)), None)).value.meta == current.meta
    ensures Assign(current, ObjectOf(Some(Str(url)), None)).value.link
            == (if url == "" then current.link else Str(url))
  {
  }

  /**
   * A stored link that is truthy stays truthy through every assignment: once
   * a URL has been entered, no later `data` assignment blanks it.
   */
  lemma AssignKeepsLinkTruthy(current: Record, incoming: Value)
    requires Truthy(current.link) && !Nullish(incoming)
    ensures Truthy(Assign(current, incoming).value.link)
  {
  }

  /** A stored meta that is truthy stays truthy through every assignment, so it is never nullish. */
  lemma AssignKeepsMetaTruthy(current: Record, incoming: Value)
    requires Truthy(current.meta) && !Nullish(incoming)
    ensures Truthy(Assign(current, incoming).value.meta)
  {
  }

  /** Assigning the same object twice gives what assigning it once gives. */
  lemma AssignIdempotent(current: Record, incoming: Value)
    requires !Nullish(incoming)
    ensures Assign(Assign(current, incoming).value, incoming) == Assign(current, incoming)
  {
  }

  /** The constructor's `this.data = data`, applied to the initial record. */
  function Construct(saved: Value): (r: Option<Record>)
    ensures r.None? <==> Nullish(saved)
    ensures r.Some? ==> Truthy(r.value.meta)
  {
    Assign(Initial, saved)
  }

  /** `save()` returns the stored record as it is. */
  function Save(r: Record): (saved: Value)
    ensures !Nullish(saved) && Get(saved, "link") == r.link && Get(saved, "meta") == r.meta
  {
    ObjectOf(Some(r.link), Some(r.meta))
  }

  /**
   * Saved data with a truthy meta and a truthy link, or the tool's own
   * default empty link, survives a construct-then-save round trip.
   */
  lemma ConstructSaveRoundTrip(link: Value, meta: Value)
    requires (Truthy(link) || link == Str("")) && Truthy(meta)
    ensures Construct(ObjectOf(Some(link), Some(meta))).Some?
    ensures Save(Construct(ObjectOf(Some(link), Some(meta))).value) == ObjectOf(Some(link), Some(meta))
  {
  }

  /** Saving a constructed block and constructing again from what was saved yields the same record. */
  lemma SaveConstructStable(saved: Value)
    requires !Nullish(saved)
    ensures Construct(Save(Construct(saved).value)) == Construct(saved)
  {
  }

  /**
   * `validate()`: the stored link, trimmed, is not empty. A link that is not
   * a string has no `trim` method, so the call throws (`None`).
   */
  function Validate(r: Record): (ok: Option<bool>)
    ensures ok.None? <==> !r.link.Str?
  {
    if r.link.Str? then Some(Trim(r.link.s) != "") else None
  }

  /** A string link validates exactly when it holds a character other than white space. */
  lemma ValidateIff(r: Record)
    requires r.link.Str?
    ensures Validate(r) == Some(true) <==> !AllSpace(r.link.s)
  {
    TrimEmptyIff(r.link.s);
  }

  /** A block constructed from data without a link keeps the initial empty link, which does not validate. */
  lemma NoLinkDoesNotValidate(meta: Option<Value>)
    ensures Validate(Construct(ObjectOf(None, meta)).value) == Some(false)
  {
    TrimEmptyIff("");
  }

  /** What `render` puts in the container. */
  datatype View = InputField | ReviewCard | LinkCard

  /**
   * `render`: the input when `Object.keys(meta)` is empty, otherwise the
   * review card when the link (as `String(link)`) passes the review pattern
   * and the link card when it does not. `Object.keys` throws on a nullish meta.
   */
  function RenderChoice(r: Record): (v: Option<View>)
    ensures v.None? <==> Nullish(r.meta)
    ensures v == Some(InputField) <==> KeyCount(r.meta) == Some(0)
    ensures v == Some(ReviewCard) <==> KeyCount(r.meta).Some? && KeyCount(r.meta).value > 0 && IsReviewUrl(ToJsString(r.link))
    ensures v == Some(LinkCard) <==> KeyCount(r.meta).Some? && KeyCount(r.meta).value > 0 && !IsReviewUrl(ToJsString(r.link))
  {
    match KeyCount(r.meta)
    case None => None
    case Some(n) =>
      if n == 0 then Some(InputField)
      else if IsReviewUrl(ToJsString(r.link)) then Some(ReviewCard)
      else Some(LinkCard)
  }

  /**
   * For a block constructed from any non-nullish data, `render`'s choice of
   * view does not throw; a fresh block shows the input.
   */
  lemma ConstructedRenders(saved: Value)
    requires !Nullish(saved)
    ensures RenderChoice(Construct(saved).value).Some?
    ensures !Truthy(Get(saved, "meta")) ==> RenderChoice(Construct(saved).value) == Some(InputField)
  {
  }
}
