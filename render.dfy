/**
 * Slide rendering (`add_title_slide`, `add_content_slide` in main.py).
 * A slide is the list of shapes whose text or picture the code sets, with
 * its layout index and background colour. Positions and sizes are in tenths
 * of an inch; font sizes are in points.
 */
module Render {
  import opened Wrappers
  import opened Colours

  /** One content item; `kind` is the free-form type tag ('title', 'text', 'image', 'equation'). */
  datatype SlideItem = SlideItem(
    kind: string,
    content: Option<string>,
    subtitle: Option<string>,
    imageUrl: Option<string>,
    caption: Option<string>)

  datatype SlideSpec = SlideSpec(title: string, subtitle: Option<string>, items: seq<SlideItem>)

  /** The resolved theme colours (the `colors` dictionary). */
  datatype Theme = Theme(primary: Rgb, accent: Rgb, text: Rgb)

  datatype Align = Left | Center

  /** A text run; `bold` is true only where the code sets bold. */
  datatype Run = Run(text: string, size: nat, bold: bool, colour: Rgb, align: Align)

  /** Left, top, width and height, in tenths of an inch. */
  datatype Box = Box(left: int, top: int, width: int, height: int)

  datatype Shape =
    | Placeholder(idx: nat, run: Run)       // a placeholder of the layout, filled with one run
    | TextBox(box: Box, run: Run, wrap: bool)
    | Picture(box: Box, source: string)     // the image fetched from `source`, re-encoded as PNG

  /** `layout` is the index into the default template's slide layouts. */
  datatype Slide = Slide(layout: nat, background: Rgb, shapes: seq<Shape>)

  /**
   * The image fetch (HTTP GET, status check, decode and PNG re-encode):
   * true when all of it succeeds for that URL.
   */
  type Fetcher = string -> bool

  const TitleLayout: nat := 0
  const TitleOnlyLayout: nat := 5
  const CursorStart: int := 24
  const TextStep: int := 10
  const ImageStep: int := 32
  const SubtitleBox := Box(9, 18, 110, 10)

  /** Python truthiness of an `Optional[str]`: present and non-empty. */
  predicate Given(o: Option<string>) {
    o.Some? && o.value != ""
  }

  /** A text or equation item with content: rendered as a text box. */
  predicate IsFlowText(item: SlideItem) {
    (item.kind == "text" || item.kind == "equation") && Given(item.content)
  }

  /** An image item with a URL: fetched, and advances the cursor whatever the outcome. */
  predicate IsFlowImage(item: SlideItem) {
    item.kind == "image" && Given(item.imageUrl)
  }

  /** How far an item moves the vertical cursor. */
  function Advance(item: SlideItem): int {
    if IsFlowText(item) then TextStep else if IsFlowImage(item) then ImageStep else 0
  }

  /** The text box of a text or equation item: 7.0 x 1.2 in at the cursor, 0.9 in from the left. */
  function TextItemBox(item: SlideItem, y: int, theme: Theme): Shape
    requires IsFlowText(item)
  {
    TextBox(Box(9, y, 70, 12),
            Run(item.content.value, if item.kind == "text" then 18 else 20,
                item.kind == "equation", theme.text, Left),
            true)
  }

  /** The picture of an image item: 4.5 x 2.8 in, 8.2 in from the left, 0.2 in above the cursor. */
  function ImagePicture(item: SlideItem, y: int): Shape
    requires IsFlowImage(item)
  {
    Picture(Box(82, y - 2, 45, 28), item.imageUrl.value)
  }

  /** The caption of an image item: 12 pt, 4.5 x 0.6 in, 2.7 in below the cursor, without word wrap. */
  function CaptionBox(item: SlideItem, y: int, theme: Theme): Shape
    requires Given(item.caption)
  {
    TextBox(Box(82, y + 27, 45, 6), Run(item.caption.value, 12, false, theme.text, Left), false)
  }

  /**
   * The shapes one item adds when the cursor stands at `y`: none for an item
   * that is neither a text item with content nor an image whose fetch
   * succeeded, and at most a picture and its caption.
   */
  function ItemShapes(item: SlideItem, y: int, theme: Theme, fetch: Fetcher): (shapes: seq<Shape>)
    ensures |shapes| <= 2
    ensures shapes != [] <==> IsFlowText(item) || (IsFlowImage(item) && fetch(item.imageUrl.value))
  {
    if IsFlowText(item) then [TextItemBox(item, y, theme)]
    else if IsFlowImage(item) && fetch(item.imageUrl.value) then
      [ImagePicture(item, y)] + (if Given(item.caption) then [CaptionBox(item, y, theme)] else [])
    else []
  }

  /** The cursor after the items, starting from 2.4 in; it never goes above that. */
  function CursorAfter(items: seq<SlideItem>): (y: int)
    ensures y >= CursorStart
  {
    if items == [] then CursorStart
    else CursorAfter(items[..|items| - 1]) + Advance(items[|items| - 1])
  }

  /** The shapes the item loop adds, in order: at most two per item. */
  function FlowShapes(items: seq<SlideItem>, theme: Theme, fetch: Fetcher): (shapes: seq<Shape>)
    ensures |shapes| <= 2 * |items|
  {
    if items == [] then []
    else
      var prefix := items[..|items| - 1];
      FlowShapes(prefix, theme, fetch) + ItemShapes(items[|items| - 1], CursorAfter(prefix), theme, fetch)
  }

  /** The title run and, for a non-empty subtitle, its text box. */
  function ContentHeader(spec: SlideSpec, theme: Theme): (shapes: seq<Shape>)
    ensures |shapes| == if Given(spec.subtitle) then 2 else 1
    ensures shapes[0].Placeholder? && shapes[0].idx == 0 && shapes[0].run.text == spec.title
    ensures forall k :: 1 <= k < |shapes| ==> shapes[k].TextBox? && shapes[k].box == SubtitleBox
  {
    [Placeholder(0, Run(spec.title, 38, true, theme.text, Left))]
    + if Given(spec.subtitle) then
        [TextBox(SubtitleBox, Run(spec.subtitle.value, 20, false, theme.text, Left), false)]
      else []
  }

  /**
   * The slide `add_content_slide` adds: the title-only layout on the primary
   * colour, with at most two shapes per item after the header.
   */
  function ContentSlide(spec: SlideSpec, theme: Theme, fetch: Fetcher): (slide: Slide)
    ensures slide.layout == TitleOnlyLayout && slide.background == theme.primary
    ensures |slide.shapes| <= 2 + 2 * |spec.items|
  {
    Slide(TitleOnlyLayout, theme.primary, ContentHeader(spec, theme) + FlowShapes(spec.items, theme, fetch))
  }

  /**
   * The slide `add_title_slide` adds: the title layout on the primary colour,
   * placeholder 0 holding the title and, whenever a subtitle is passed,
   * placeholder 1 holding it, both centred.
   */
  function TitleSlide(title: string, subtitle: Option<string>, theme: Theme): (slide: Slide)
    ensures slide.layout == TitleLayout && slide.background == theme.primary
    ensures |slide.shapes| == if subtitle.Some? then 2 else 1
  {
    Slide(TitleLayout, theme.primary,
          [Placeholder(0, Run(title, 54, true, theme.text, Center))]
          + if subtitle.Some? then [Placeholder(1, Run(subtitle.value, 24, false, theme.text, Center))] else [])
  }

  /** The presentation being built; its slides are only ever appended to. */
  class Presentation {
    var slides: seq<Slide>

    constructor ()
      ensures slides == []
    {
      slides := [];
    }

    /** `prs.slides.add_slide`. */
    method AddSlide(s: Slide)
      modifies this
      ensures slides == old(slides) + [s]
    {
      slides := slides + [s];
    }
  }

  /** `add_title_slide(prs, title, subtitle, colors)`. */
  method AddTitleSlide(prs: Presentation, title: string, subtitle: Option<string>, theme: Theme)
    modifies prs
    ensures prs.slides == old(prs.slides) + [TitleSlide(title, subtitle, theme)]
  {
    var shapes := [Placeholder(0, Run(title, 54, true, theme.text, Center))];
    if subtitle.Some? {
      shapes := shapes + [Placeholder(1, Run(subtitle.value, 24, false, theme.text, Center))];
    } else {
      assert shapes + [] == shapes;
    }
    prs.AddSlide(Slide(TitleLayout, theme.primary, shapes));
  }

  /**
   * The item loop of `add_content_slide`: returns the shapes it adds and the
   * final cursor, which is 2.4 in plus 1.0 in per text item and 3.2 in per
   * image item.
   */
  method PlaceItems(items: seq<SlideItem>, theme: Theme, fetch: Fetcher) returns (shapes: seq<Shape>, y: int)
    ensures shapes == FlowShapes(items, theme, fetch)
    ensures y == CursorAfter(items)
    ensures y == CursorStart + TextStep * CountText(items) + ImageStep * CountImages(items)
  {
    shapes, y := [], CursorStart;
    for i := 0 to |items|
      invariant shapes == FlowShapes(items[..i], theme, fetch)
      invariant y == CursorAfter(items[..i])
    {
      var item := items[i];
      ghost var before, at := shapes, y;
      if IsFlowText(item) {
        shapes := shapes + [TextItemBox(item, y, theme)];
        y := y + TextStep;
      } else if IsFlowImage(item) {
        var fetched := fetch(item.imageUrl.value);
        if fetched {
          shapes := shapes + [ImagePicture(item, y)];
          if Given(item.caption) {
            shapes := shapes + [CaptionBox(item, y, theme)];
          }
        }
        y := y + ImageStep;
      }
      assert shapes == before + ItemShapes(item, at, theme, fetch);
      assert y == at + Advance(item);
      PrefixOfPrefix(items, i + 1);
    }
    assert items[..|items|] == items;
    CursorClosedForm(items);
  }

  /** `add_content_slide(prs, spec, colors)`. */
  method AddContentSlide(prs: Presentation, spec: SlideSpec, theme: Theme, fetch: Fetcher)
    modifies prs
    ensures prs.slides == old(prs.slides) + [ContentSlide(spec, theme, fetch)]
  {
    var shapes := [Placeholder(0, Run(spec.title, 38, true, theme.text, Left))];
    if Given(spec.subtitle) {
      shapes := shapes + [TextBox(SubtitleBox, Run(spec.subtitle.value, 20, false, theme.text, Left), false)];
    } else {
      assert shapes + [] == shapes;
    }
    var flow, end := PlaceItems(spec.items, theme, fetch);
    prs.AddSlide(Slide(TitleOnlyLayout, theme.primary, shapes + flow));
  }

  // ---------------------------------------------------------------------------
  // Counting items, independently of the loop.

  function CountText(items: seq<SlideItem>): nat {
    if items == [] then 0 else (if IsFlowText(items[0]) then 1 else 0) + CountText(items[1..])
  }

  function CountImages(items: seq<SlideItem>): nat {
    if items == [] then 0 else (if IsFlowImage(items[0]) then 1 else 0) + CountImages(items[1..])
  }

  lemma {:induction false} CountAppend(a: seq<SlideItem>, b: seq<SlideItem>)
    ensures CountText(a + b) == CountText(a) + CountText(b)
    ensures CountImages(a + b) == CountImages(a) + CountImages(b)
  {
    if a != [] {
      assert (a + b)[1..] == a[1..] + b;
      CountAppend(a[1..], b);
    } else {
      assert a + b == b;
    }
  }

  /**
   * The cursor ends at 2.4 in + 1.0 in per text/equation item with content
   * + 3.2 in per image item with a URL, whether or not its fetch succeeds.
   */
  lemma {:induction false} CursorClosedForm(items: seq<SlideItem>)
    ensures CursorAfter(items) == CursorStart + TextStep * CountText(items) + ImageStep * CountImages(items)
  {
    if items != [] {
      var prefix, last := items[..|items| - 1], items[|items| - 1];
      CursorClosedForm(prefix);
      assert items == prefix + [last];
      CountAppend(prefix, [last]);
      assert [last][1..] == [];
    }
  }

  // ---------------------------------------------------------------------------
  // Where the items land.

  lemma PrefixOfPrefix(items: seq<SlideItem>, j: nat)
    requires 0 < j <= |items|
    ensures items[..j][..j - 1] == items[..j - 1] && items[..j][j - 1] == items[j - 1]
  {
  }

  /** The cursor never moves up. */
  lemma {:induction false} CursorMonotone(items: seq<SlideItem>, i: nat, j: nat)
    requires i <= j <= |items|
    ensures CursorAfter(items[..i]) <= CursorAfter(items[..j])
  {
    if i < j {
      PrefixOfPrefix(items, j);
      CursorMonotone(items, i, j - 1);
    }
  }

  /**
   * An item that is laid out (a text box or an image slot) sits strictly
   * above every later item: the tops of successive flow items increase.
   */
  lemma {:induction false} StartsIncrease(items: seq<SlideItem>, i: nat, j: nat)
    requires i < j <= |items|
    requires IsFlowText(items[i]) || IsFlowImage(items[i])
    ensures CursorAfter(items[..i]) < CursorAfter(items[..j])
    ensures CursorStart <= CursorAfter(items[..i])
  {
    PrefixOfPrefix(items, i + 1);
    CursorMonotone(items, i + 1, j);
    CursorMonotone(items, 0, i);
    assert items[..0] == [];
  }

  /** The shapes of a shorter prefix of the items come first, unchanged. */
  lemma {:induction false} FlowPrefix(items: seq<SlideItem>, i: nat, j: nat, theme: Theme, fetch: Fetcher)
    requires i <= j <= |items|
    ensures FlowShapes(items[..i], theme, fetch) <= FlowShapes(items[..j], theme, fetch)
  {
    if i < j {
      PrefixOfPrefix(items, j);
      FlowPrefix(items, i, j - 1, theme, fetch);
    }
  }

  /** The shapes item `k` adds appear in the slide, placed at the cursor it found. */
  lemma {:induction false} ItemShapesPlaced(items: seq<SlideItem>, k: nat, theme: Theme, fetch: Fetcher, sh: Shape)
    requires k < |items|
    requires sh in ItemShapes(items[k], CursorAfter(items[..k]), theme, fetch)
    ensures sh in FlowShapes(items, theme, fetch)
  {
    PrefixOfPrefix(items, k + 1);
    var before := FlowShapes(items[..k + 1], theme, fetch);
    assert before == FlowShapes(items[..k], theme, fetch) + ItemShapes(items[k], CursorAfter(items[..k]), theme, fetch);
    assert sh in before;
    var i :| 0 <= i < |before| && before[i] == sh;
    FlowPrefix(items, k + 1, |items|, theme, fetch);
    assert items[..|items|] == items;
    assert FlowShapes(items, theme, fetch)[i] == sh;
  }

  /**
   * Every text or equation item with content gets its text box at the
   * cursor, 18 pt plain for text and 20 pt bold for equations, whatever
   * the image fetches do.
   */
  lemma TextItemPlaced(items: seq<SlideItem>, k: nat, theme: Theme, fetch: Fetcher)
    requires k < |items| && IsFlowText(items[k])
    ensures TextBox(Box(9, CursorAfter(items[..k]), 70, 12),
                    Run(items[k].content.value, if items[k].kind == "text" then 18 else 20,
                        items[k].kind == "equation", theme.text, Left),
                    true) in FlowShapes(items, theme, fetch)
  {
    ItemShapesPlaced(items, k, theme, fetch, TextItemBox(items[k], CursorAfter(items[..k]), theme));
  }

  /**
   * A fetched image is placed 0.2 in above the cursor, 4.5 x 2.8 in at 8.2 in
   * from the left, and its non-empty caption 2.7 in below the cursor.
   */
  lemma FetchedImagePlaced(items: seq<SlideItem>, k: nat, theme: Theme, fetch: Fetcher)
    requires k < |items| && IsFlowImage(items[k]) && fetch(items[k].imageUrl.value)
    ensures ImagePicture(items[k], CursorAfter(items[..k])) in FlowShapes(items, theme, fetch)
    ensures Given(items[k].caption) ==> CaptionBox(items[k], CursorAfter(items[..k]), theme) in FlowShapes(items, theme, fetch)
  {
    var y := CursorAfter(items[..k]);
    var shapes := ItemShapes(items[k], y, theme, fetch);
    assert shapes[0] == ImagePicture(items[k], y);
    ItemShapesPlaced(items, k, theme, fetch, ImagePicture(items[k], y));
    if Given(items[k].caption) {
      assert shapes[1] == CaptionBox(items[k], y, theme);
      ItemShapesPlaced(items, k, theme, fetch, CaptionBox(items[k], y, theme));
    }
  }

  /**
   * Only the item tops increase; the boxes may overlap. Two consecutive text
   * items are placed 1.0 in apart in boxes 1.2 in high, so the first box
   * reaches into the second.
   */
  lemma TextBoxesOverlap(items: seq<SlideItem>, k: nat, theme: Theme, fetch: Fetcher)
    requires k + 1 < |items| && IsFlowText(items[k]) && IsFlowText(items[k + 1])
    ensures var a, b := TextItemBox(items[k], CursorAfter(items[..k]), theme),
                        TextItemBox(items[k + 1], CursorAfter(items[..k + 1]), theme);
      && a in FlowShapes(items, theme, fetch) && b in FlowShapes(items, theme, fetch)
      && a.box.left == b.box.left
      && a.box.top < b.box.top < a.box.top + a.box.height
  {
    TextItemPlaced(items, k, theme, fetch);
    TextItemPlaced(items, k + 1, theme, fetch);
    PrefixOfPrefix(items, k + 1);
  }

  /**
   * A caption spans 2.7 to 3.3 in below its image's cursor, while the next
   * image, 3.2 in further down, starts 0.2 in above its own cursor: in the
   * same column, the caption reaches into the next picture.
   */
  lemma CaptionOverlapsNextPicture(items: seq<SlideItem>, k: nat, theme: Theme, fetch: Fetcher)
    requires k + 1 < |items|
    requires IsFlowImage(items[k]) && fetch(items[k].imageUrl.value) && Given(items[k].caption)
    requires IsFlowImage(items[k + 1]) && fetch(items[k + 1].imageUrl.value)
    ensures var c, p := CaptionBox(items[k], CursorAfter(items[..k]), theme),
                        ImagePicture(items[k + 1], CursorAfter(items[..k + 1]));
      && c in FlowShapes(items, theme, fetch) && p in FlowShapes(items, theme, fetch)
      && c.box.left == p.box.left
      && c.box.top < p.box.top < c.box.top + c.box.height
  {
    FetchedImagePlaced(items, k, theme, fetch);
    FetchedImagePlaced(items, k + 1, theme, fetch);
    PrefixOfPrefix(items, k + 1);
  }

  /**
   * A failed fetch leaves no trace: every picture on a slide comes from an
   * image item whose fetch succeeded, and sits at that item's slot.
   */
  lemma {:induction false} PicturesAreFetched(items: seq<SlideItem>, theme: Theme, fetch: Fetcher, sh: Shape)
    requires sh in FlowShapes(items, theme, fetch) && sh.Picture?
    ensures fetch(sh.source)
    ensures exists k :: 0 <= k < |items| && IsFlowImage(items[k]) && items[k].imageUrl.value == sh.source
                        && sh.box == Box(82, CursorAfter(items[..k]) - 2, 45, 28)
  {
    var n := |items|;
    var prefix, last := items[..n - 1], items[n - 1];
    var y := CursorAfter(prefix);
    assert FlowShapes(items, theme, fetch) == FlowShapes(prefix, theme, fetch) + ItemShapes(last, y, theme, fetch);
    if sh in FlowShapes(prefix, theme, fetch) {
      PicturesAreFetched(prefix, theme, fetch, sh);
      var k :| 0 <= k < |prefix| && IsFlowImage(prefix[k]) && prefix[k].imageUrl.value == sh.source
               && sh.box == Box(82, CursorAfter(prefix[..k]) - 2, 45, 28);
      assert prefix[..k] == items[..k] && prefix[k] == items[k];
    } else {
      assert sh in ItemShapes(last, y, theme, fetch);
      assert IsFlowImage(last) && fetch(last.imageUrl.value) && sh == ImagePicture(last, y);
      assert items[..n - 1] == prefix;
      assert IsFlowImage(items[n - 1]) && items[n - 1].imageUrl.value == sh.source
             && sh.box == Box(82, CursorAfter(items[..n - 1]) - 2, 45, 28);
    }
  }

  /** Items that are fetched images, and those among them with a caption. */
  function CountFetched(items: seq<SlideItem>, fetch: Fetcher): nat {
    if items == [] then 0
    else (if IsFlowImage(items[0]) && fetch(items[0].imageUrl.value) then 1 else 0) + CountFetched(items[1..], fetch)
  }

  function CountCaptioned(items: seq<SlideItem>, fetch: Fetcher): nat {
    if items == [] then 0
    else (if IsFlowImage(items[0]) && fetch(items[0].imageUrl.value) && Given(items[0].caption) then 1 else 0)
         + CountCaptioned(items[1..], fetch)
  }

  lemma {:induction false} CountFetchedAppend(a: seq<SlideItem>, b: seq<SlideItem>, fetch: Fetcher)
    ensures CountFetched(a + b, fetch) == CountFetched(a, fetch) + CountFetched(b, fetch)
    ensures CountCaptioned(a + b, fetch) == CountCaptioned(a, fetch) + CountCaptioned(b, fetch)
  {
    if a != [] {
      assert (a + b)[1..] == a[1..] + b;
      CountFetchedAppend(a[1..], b, fetch);
    } else {
      assert a + b == b;
    }
  }

  /**
   * The item loop adds one shape per text item, one per fetched image and
   * one more per fetched image with a caption; nothing else adds shapes.
   */
  lemma {:induction false} FlowShapeCount(items: seq<SlideItem>, theme: Theme, fetch: Fetcher)
    ensures |FlowShapes(items, theme, fetch)|
            == CountText(items) + CountFetched(items, fetch) + CountCaptioned(items, fetch)
  {
    if items != [] {
      var prefix, last := items[..|items| - 1], items[|items| - 1];
      FlowShapeCount(prefix, theme, fetch);
      assert items == prefix + [last];
      CountAppend(prefix, [last]);
      CountFetchedAppend(prefix, [last], fetch);
      assert [last][1..] == [];
    }
  }

  /** No flow shape is a placeholder, and each lies at least 2.2 in from the top. */
  lemma {:induction false} FlowBelowHeader(items: seq<SlideItem>, theme: Theme, fetch: Fetcher, sh: Shape)
    requires sh in FlowShapes(items, theme, fetch)
    ensures !sh.Placeholder? && sh.box.top >= CursorStart - 2
  {
    var n := |items|;
    var prefix := items[..n - 1];
    if sh in FlowShapes(prefix, theme, fetch) {
      FlowBelowHeader(prefix, theme, fetch, sh);
    } else {
      assert items[..n - 1] == prefix;
      CursorMonotone(items, 0, n - 1);
      assert items[..0] == [];
    }
  }

  /**
   * A content slide holds the subtitle box exactly when its subtitle is
   * non-empty, and its first shape is always the title, 38 pt bold.
   */
  lemma ContentSubtitle(spec: SlideSpec, theme: Theme, fetch: Fetcher)
    ensures var shapes := ContentSlide(spec, theme, fetch).shapes;
      |shapes| > 0 && shapes[0] == Placeholder(0, Run(spec.title, 38, true, theme.text, Left))
    ensures Given(spec.subtitle) <==>
      exists sh :: sh in ContentSlide(spec, theme, fetch).shapes && sh.TextBox? && sh.box == SubtitleBox
  {
    var header, flow := ContentHeader(spec, theme), FlowShapes(spec.items, theme, fetch);
    assert ContentSlide(spec, theme, fetch).shapes == header + flow;
    if sh: Shape :| sh in header + flow && sh.TextBox? && sh.box == SubtitleBox {
      if sh in flow {
        FlowBelowHeader(spec.items, theme, fetch, sh);
      }
    }
    if Given(spec.subtitle) {
      assert header[1] in header + flow;
    }
  }

  /**
   * The first item starts at 2.4 in, inside the subtitle box (1.8 to 2.8 in):
   * a first text item overlaps the subtitle.
   */
  lemma FirstItemUnderSubtitle(spec: SlideSpec, theme: Theme, fetch: Fetcher)
    requires Given(spec.subtitle) && spec.items != [] && IsFlowText(spec.items[0])
    ensures var s, a := ContentHeader(spec, theme)[1], TextItemBox(spec.items[0], CursorStart, theme);
      && s in ContentSlide(spec, theme, fetch).shapes && a in ContentSlide(spec, theme, fetch).shapes
      && s.box == SubtitleBox
      && s.box.top < a.box.top < s.box.top + s.box.height
  {
    var header, flow := ContentHeader(spec, theme), FlowShapes(spec.items, theme, fetch);
    assert ContentSlide(spec, theme, fetch).shapes == header + flow;
    TextItemPlaced(spec.items, 0, theme, fetch);
    assert spec.items[..0] == [];
    assert header[1] in header + flow;
  }

  /** Every slide's background is the primary colour and every run uses the text colour. */
  predicate Styled(slide: Slide, theme: Theme) {
    slide.background == theme.primary
    && forall sh :: sh in slide.shapes && !sh.Picture? ==> sh.run.colour == theme.text
  }

  lemma {:induction false} FlowStyled(items: seq<SlideItem>, theme: Theme, fetch: Fetcher, sh: Shape)
    requires sh in FlowShapes(items, theme, fetch) && !sh.Picture?
    ensures sh.run.colour == theme.text
  {
    var n := |items|;
    var prefix := items[..n - 1];
    if sh in FlowShapes(prefix, theme, fetch) {
      FlowStyled(prefix, theme, fetch, sh);
    }
  }

  lemma ContentSlideStyled(spec: SlideSpec, theme: Theme, fetch: Fetcher)
    ensures Styled(ContentSlide(spec, theme, fetch), theme)
  {
    forall sh | sh in ContentSlide(spec, theme, fetch).shapes && !sh.Picture?
      ensures sh.run.colour == theme.text
    {
      if sh in FlowShapes(spec.items, theme, fetch) {
        FlowStyled(spec.items, theme, fetch, sh);
      }
    }
  }
}
