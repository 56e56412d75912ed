/**
 * The link card `showLinkPreview` builds from the fetched meta data: a holder
 * with an anchor to the stored link, holding the picture (when there is an
 * image), the body (title, description and the info box, each only when
 * present) and the arrow. Elements are values; the order of children is the
 * order in which they are appended.
 */
module LinkCard {
  import opened JsValues

  /** An element: tag, classes, attributes, text (when `textContent` was set) and children. */
  datatype Node = Node(tag: string, classes: seq<string>, attrs: map<string, string>, text: Option<string>, children: seq<Node>)

  function Leaf(tag: string, classes: seq<string>, attrs: map<string, string>, text: Option<string>): Node {
    Node(tag, classes, attrs, text, [])
  }

  /** The picture box with its image, when `meta.image` is truthy. */
  function ImagePart(image: Value): (part: seq<Node>)
    ensures |part| == (if Truthy(image) then 1 else 0)
  {
    if Truthy(image) then
      [Node("div", ["c-itemCard__item__pic"], map[], None, [Leaf("img", [], map["src" := ToJsString(image)], None)])]
    else []
  }

  /** A text element of the body, when its field is truthy. */
  function TextPart(tag: string, cls: string, attrs: map<string, string>, field: Value): (part: seq<Node>)
    ensures |part| == (if Truthy(field) then 1 else 0)
  {
    if Truthy(field) then [Leaf(tag, [cls], attrs, Some(TextContent(field)))] else []
  }

  /** The info box with the operating days and then the lowest price, when either is truthy. */
  function InfoPart(week: Value, price: Value): (part: seq<Node>)
    ensures |part| == (if Truthy(week) || Truthy(price) then 1 else 0)
  {
    if Truthy(price) || Truthy(week) then
      [Node("div", ["c-itemCard__item__body__info"], map[], None,
            TextPart("p", "c-itemCard__item__body__info__week", map[], week)
            + TextPart("p", "c-itemCard__item__body__info__price", map["style" := "color:#0094CC"], price))]
    else []
  }

  const Arrow: Node := Leaf("i", ["c-itemCard__item__arrow"], map["style" := "border-color:#0094CC;"], None)

  /** The picture box of the card. */
  function ImageOf(meta: Value): (part: seq<Node>)
    requires !Nullish(meta)
  {
    ImagePart(Get(meta, "image"))
  }

  /** The title of the card. */
  function TitleOf(meta: Value): (part: seq<Node>)
    requires !Nullish(meta)
  {
    TextPart("h3", "c-itemCard__item__body__ttl", map[], Get(meta, "title"))
  }

  /** The description of the card. */
  function DescriptionOf(meta: Value): (part: seq<Node>)
    requires !Nullish(meta)
  {
    TextPart("p", "c-itemCard__item__body__desc", map[], Get(meta, "description"))
  }

  /** The info box of the card. */
  function InfoOf(meta: Value): (part: seq<Node>)
    requires !Nullish(meta)
  {
    InfoPart(Get(meta, "operating_days_of_week"), Get(meta, "lowest_price_gross"))
  }

  /** The body: the title, the description and the info box, each only when present. */
  function Body(meta: Value): (body: Node)
    requires !Nullish(meta)
    ensures body.tag == "div" && body.classes == ["c-itemCard__item__body"] && body.text == None
  {
    Node("div", ["c-itemCard__item__body"], map[], None, TitleOf(meta) + DescriptionOf(meta) + InfoOf(meta))
  }

  /** The anchor to the stored link: the picture box, the body and the arrow. */
  function Anchor(meta: Value, link: Value): (a: Node)
    requires !Nullish(meta)
    ensures a.tag == "a" && a.classes == [] && a.text == None
    ensures "href" in a.attrs && a.attrs["href"] == ToJsString(link)
    ensures |a.children| >= 2 && a.children[|a.children| - 1] == Arrow
  {
    Node("a", [], map["target" := "_blank", "rel" := "nofollow noindex noreferrer", "href" := ToJsString(link)],
         None, ImageOf(meta) + [Body(meta)] + [Arrow])
  }

  /** `showLinkPreview(meta)` with the stored link, on freshly prepared nodes. */
  function Card(meta: Value, link: Value): (card: Node)
    requires !Nullish(meta)
    ensures card.tag == "div" && card.classes == ["c-itemCard__item"] && card.text == None
    ensures card.children == [Anchor(meta, link)]
  {
    Node("div", ["c-itemCard__item"], map[], None, [Anchor(meta, link)])
  }

  // ---------------------------------------------------------------------
  // Reading a tree back in document order

  /** What `pick` finds in `n` and its descendants, in document order. */
  function Gather(n: Node, pick: Node -> seq<string>): seq<string>
    decreases n
  {
    pick(n) + GatherAll(n.children, pick)
  }

  /** What `pick` finds in a list of sibling trees, in document order. */
  function GatherAll(nodes: seq<Node>, pick: Node -> seq<string>): seq<string>
    decreases nodes
  {
    if nodes == [] then [] else GatherAll(nodes[..|nodes| - 1], pick) + Gather(nodes[|nodes| - 1], pick)
  }

  /** The text an element's `textContent` was set to. */
  function TextOf(n: Node): seq<string> {
    if n.text.Some? then [n.text.value] else []
  }

  /** The source of an image element. */
  function SrcOf(n: Node): seq<string> {
    if n.tag == "img" && "src" in n.attrs then [n.attrs["src"]] else []
  }

  /** The classes of an element. */
  function ClassesOf(n: Node): seq<string> {
    n.classes
  }

  /** The text `textContent` gave a field, when it is truthy. */
  function Shown(field: Value): seq<string> {
    if Truthy(field) then [TextContent(field)] else []
  }

  /** Gathering over concatenated sibling lists is concatenation. */
  lemma {:induction false} GatherAllSplit(xs: seq<Node>, ys: seq<Node>, pick: Node -> seq<string>)
    ensures GatherAll(xs + ys, pick) == GatherAll(xs, pick) + GatherAll(ys, pick)
    decreases |ys|
  {
    if ys == [] {
      assert xs + ys == xs;
    } else {
      var init := ys[..|ys| - 1];
      assert (xs + ys)[..|xs + ys| - 1] == xs + init;
      GatherAllSplit(xs, init, pick);
      AppendAssoc(GatherAll(xs, pick), GatherAll(init, pick), Gather(ys[|ys| - 1], pick));
    }
  }

  lemma GatherAllOne(n: Node, pick: Node -> seq<string>)
    ensures GatherAll([n], pick) == Gather(n, pick)
  {
    assert [n][..0] == [];
  }

  /** A part that is present when its field is truthy contributes its one leaf. */
  lemma {:induction false} TextPartGather(tag: string, cls: string, attrs: map<string, string>, field: Value, pick: Node -> seq<string>)
    ensures GatherAll(TextPart(tag, cls, attrs, field), pick)
            == (if Truthy(field) then pick(Leaf(tag, [cls], attrs, Some(TextContent(field)))) else [])
  {
    if Truthy(field) {
      GatherAllOne(Leaf(tag, [cls], attrs, Some(TextContent(field))), pick);
    }
  }

  /** A node whose children come in three runs reads back run by run. */
  lemma GatherThree(n: Node, xs: seq<Node>, ys: seq<Node>, zs: seq<Node>, pick: Node -> seq<string>)
    requires n.children == xs + ys + zs
    ensures Gather(n, pick) == pick(n) + (GatherAll(xs, pick) + GatherAll(ys, pick) + GatherAll(zs, pick))
  {
    GatherAllSplit(xs + ys, zs, pick);
    GatherAllSplit(xs, ys, pick);
  }

  /** The card read back in document order, part by part. */
  lemma CardGather(meta: Value, link: Value, pick: Node -> seq<string>)
    requires !Nullish(meta)
    ensures Gather(Card(meta, link), pick)
            == pick(Card(meta, link))
               + (pick(Anchor(meta, link))
                  + (GatherAll(ImageOf(meta), pick)
                     + (pick(Body(meta)) + (GatherAll(TitleOf(meta), pick) + GatherAll(DescriptionOf(meta), pick) + GatherAll(InfoOf(meta), pick)))
                     + pick(Arrow)))
  {
    GatherThree(Body(meta), TitleOf(meta), DescriptionOf(meta), InfoOf(meta), pick);
    GatherThree(Anchor(meta, link), ImageOf(meta), [Body(meta)], [Arrow], pick);
    GatherAllOne(Body(meta), pick);
    GatherAllOne(Arrow, pick);
    GatherAllOne(Anchor(meta, link), pick);
  }

  /** The info box read back: the box itself, then its week and price lines. */
  lemma {:induction false} InfoPartGather(week: Value, price: Value, pick: Node -> seq<string>)
    ensures var weekPart := TextPart("p", "c-itemCard__item__body__info__week", map[], week);
            var pricePart := TextPart("p", "c-itemCard__item__body__info__price", map["style" := "color:#0094CC"], price);
            GatherAll(InfoPart(week, price), pick)
            == if Truthy(week) || Truthy(price)
               then pick(InfoPart(week, price)[0]) + (GatherAll(weekPart, pick) + GatherAll(pricePart, pick))
               else []
  {
    if Truthy(week) || Truthy(price) {
      var weekPart := TextPart("p", "c-itemCard__item__body__info__week", map[], week);
      var pricePart := TextPart("p", "c-itemCard__item__body__info__price", map["style" := "color:#0094CC"], price);
      GatherAllOne(InfoPart(week, price)[0], pick);
      GatherAllSplit(weekPart, pricePart, pick);
    }
  }

  /** The texts and image sources of each part of the card. */
  lemma PartsRead(meta: Value)
    requires !Nullish(meta)
    ensures var image := Get(meta, "image");
            GatherAll(ImageOf(meta), TextOf) == []
            && GatherAll(ImageOf(meta), SrcOf) == (if Truthy(image) then [ToJsString(image)] else [])
    ensures GatherAll(TitleOf(meta), TextOf) == Shown(Get(meta, "title")) && GatherAll(TitleOf(meta), SrcOf) == []
    ensures GatherAll(DescriptionOf(meta), TextOf) == Shown(Get(meta, "description"))
            && GatherAll(DescriptionOf(meta), SrcOf) == []
  {
    var image := ImagePart(Get(meta, "image"));
    if image != [] {
      GatherAllOne(image[0], TextOf);
      GatherAllOne(image[0].children[0], TextOf);
      GatherAllOne(image[0], SrcOf);
      GatherAllOne(image[0].children[0], SrcOf);
    }
    TextPartGather("h3", "c-itemCard__item__body__ttl", map[], Get(meta, "title"), TextOf);
    TextPartGather("p", "c-itemCard__item__body__desc", map[], Get(meta, "description"), TextOf);
    TextPartGather("h3", "c-itemCard__item__body__ttl", map[], Get(meta, "title"), SrcOf);
    TextPartGather("p", "c-itemCard__item__body__desc", map[], Get(meta, "description"), SrcOf);
  }

  /** The texts and image sources of the info box. */
  lemma InfoRead(meta: Value)
    requires !Nullish(meta)
    ensures var week := Get(meta, "operating_days_of_week");
            var price := Get(meta, "lowest_price_gross");
            GatherAll(InfoOf(meta), TextOf) == Shown(week) + Shown(price) && GatherAll(InfoOf(meta), SrcOf) == []
  {
    var week := Get(meta, "operating_days_of_week");
    var price := Get(meta, "lowest_price_gross");
    InfoPartGather(week, price, TextOf);
    InfoPartGather(week, price, SrcOf);
    TextPartGather("p", "c-itemCard__item__body__info__week", map[], week, TextOf);
    TextPartGather("p", "c-itemCard__item__body__info__price", map["style" := "color:#0094CC"], price, TextOf);
    TextPartGather("p", "c-itemCard__item__body__info__week", map[], week, SrcOf);
    TextPartGather("p", "c-itemCard__item__body__info__price", map["style" := "color:#0094CC"], price, SrcOf);
  }

  /** Empty pieces around the reading of the card drop out. */
  lemma TextShape<T>(card: seq<T>, anchor: seq<T>, image: seq<T>, body: seq<T>,
                     title: seq<T>, desc: seq<T>, info: seq<T>, arrow: seq<T>, week: seq<T>, price: seq<T>)
    requires card == [] && anchor == [] && image == [] && body == [] && arrow == [] && info == week + price
    ensures card + (anchor + (image + (body + (title + desc + info)) + arrow)) == title + desc + week + price
  {
  }

  lemma SrcShape<T>(card: seq<T>, anchor: seq<T>, image: seq<T>, body: seq<T>,
                    title: seq<T>, desc: seq<T>, info: seq<T>, arrow: seq<T>)
    requires card == [] && anchor == [] && body == [] && title == [] && desc == [] && info == [] && arrow == []
    ensures card + (anchor + (image + (body + (title + desc + info)) + arrow)) == image
  {
  }

  /**
   * The card shows, in document order, the title, the description, the
   * operating days and the lowest price — each exactly when its field is
   * truthy — and no other text.
   */
  lemma CardTexts(meta: Value, link: Value)
    requires !Nullish(meta)
    ensures Gather(Card(meta, link), TextOf)
            == Shown(Get(meta, "title")) + Shown(Get(meta, "description"))
               + Shown(Get(meta, "operating_days_of_week")) + Shown(Get(meta, "lowest_price_gross"))
  {
    CardGather(meta, link, TextOf);
    PartsRead(meta);
    InfoRead(meta);
    TextShape(TextOf(Card(meta, link)), TextOf(Anchor(meta, link)), GatherAll(ImageOf(meta), TextOf), TextOf(Body(meta)),
              GatherAll(TitleOf(meta), TextOf), GatherAll(DescriptionOf(meta), TextOf), GatherAll(InfoOf(meta), TextOf),
              TextOf(Arrow), Shown(Get(meta, "operating_days_of_week")), Shown(Get(meta, "lowest_price_gross")));
  }

  /** The card holds one image, with the meta image as its source, when that image is truthy, and none otherwise. */
  lemma CardImages(meta: Value, link: Value)
    requires !Nullish(meta)
    ensures var image := Get(meta, "image");
            Gather(Card(meta, link), SrcOf) == if Truthy(image) then [ToJsString(image)] else []
  {
    CardGather(meta, link, SrcOf);
    PartsRead(meta);
    InfoRead(meta);
    SrcShape(SrcOf(Card(meta, link)), SrcOf(Anchor(meta, link)), GatherAll(ImageOf(meta), SrcOf), SrcOf(Body(meta)),
             GatherAll(TitleOf(meta), SrcOf), GatherAll(DescriptionOf(meta), SrcOf), GatherAll(InfoOf(meta), SrcOf),
             SrcOf(Arrow));
  }

  /** The classes of the picture box, the title and the description. */
  lemma ClassesRead(meta: Value)
    requires !Nullish(meta)
    ensures GatherAll(ImageOf(meta), ClassesOf) == (if Truthy(Get(meta, "image")) then ["c-itemCard__item__pic"] else [])
    ensures GatherAll(TitleOf(meta), ClassesOf) == (if Truthy(Get(meta, "title")) then ["c-itemCard__item__body__ttl"] else [])
    ensures GatherAll(DescriptionOf(meta), ClassesOf)
            == (if Truthy(Get(meta, "description")) then ["c-itemCard__item__body__desc"] else [])
  {
    var image := ImagePart(Get(meta, "image"));
    if image != [] {
      GatherAllOne(image[0], ClassesOf);
      GatherAllOne(image[0].children[0], ClassesOf);
    }
    TextPartGather("h3", "c-itemCard__item__body__ttl", map[], Get(meta, "title"), ClassesOf);
    TextPartGather("p", "c-itemCard__item__body__desc", map[], Get(meta, "description"), ClassesOf);
  }

  /** The classes of the info box: its own first, then a line for each truthy field. */
  lemma InfoClassesRead(meta: Value)
    requires !Nullish(meta)
    ensures var week := Get(meta, "operating_days_of_week");
            var price := Get(meta, "lowest_price_gross");
            GatherAll(InfoOf(meta), ClassesOf)
            == (if Truthy(week) || Truthy(price) then ["c-itemCard__item__body__info"] else [])
               + ((if Truthy(week) then ["c-itemCard__item__body__info__week"] else [])
                  + (if Truthy(price) then ["c-itemCard__item__body__info__price"] else []))
  {
    var week := Get(meta, "operating_days_of_week");
    var price := Get(meta, "lowest_price_gross");
    InfoPartGather(week, price, ClassesOf);
    TextPartGather("p", "c-itemCard__item__body__info__week", map[], week, ClassesOf);
    TextPartGather("p", "c-itemCard__item__body__info__price", map["style" := "color:#0094CC"], price, ClassesOf);
  }

  lemma ClassShape<T>(card: seq<T>, anchor: seq<T>, image: seq<T>, body: seq<T>,
                      title: seq<T>, desc: seq<T>, info: seq<T>, arrow: seq<T>)
    requires anchor == []
    ensures card + (anchor + (image + (body + (title + desc + info)) + arrow))
            == card + image + body + title + desc + info + arrow
  {
  }

  /**
   * The classes of the card in document order: the holder, the picture box
   * when there is an image, the body, the title and description when present,
   * the info box exactly when the operating days or the lowest price is
   * truthy (with a line for each that is), and the arrow.
   */
  lemma CardClasses(meta: Value, link: Value)
    requires !Nullish(meta)
    ensures var week := Get(meta, "operating_days_of_week");
            var price := Get(meta, "lowest_price_gross");
            Gather(Card(meta, link), ClassesOf)
            == ["c-itemCard__item"]
               + (if Truthy(Get(meta, "image")) then ["c-itemCard__item__pic"] else [])
               + ["c-itemCard__item__body"]
               + (if Truthy(Get(meta, "title")) then ["c-itemCard__item__body__ttl"] else [])
               + (if Truthy(Get(meta, "description")) then ["c-itemCard__item__body__desc"] else [])
               + ((if Truthy(week) || Truthy(price) then ["c-itemCard__item__body__info"] else [])
                  + ((if Truthy(week) then ["c-itemCard__item__body__info__week"] else [])
                     + (if Truthy(price) then ["c-itemCard__item__body__info__price"] else [])))
               + ["c-itemCard__item__arrow"]
  {
    CardGather(meta, link, ClassesOf);
    ClassesRead(meta);
    InfoClassesRead(meta);
    ClassShape(ClassesOf(Card(meta, link)), ClassesOf(Anchor(meta, link)), GatherAll(ImageOf(meta), ClassesOf),
               ClassesOf(Body(meta)), GatherAll(TitleOf(meta), ClassesOf), GatherAll(DescriptionOf(meta), ClassesOf),
               GatherAll(InfoOf(meta), ClassesOf), ClassesOf(Arrow));
  }
}
