/**
 * Deck assembly (`build_presentation` in main.py): resolve the three theme
 * colours, refuse an empty slide list, render slide 0 through the title path
 * and every later slide through the content path, in order.
 */
module Assemble {
  import opened Wrappers
  import opened Colours
  import opened Render

  datatype PresentationSpec = PresentationSpec(
    themePrimary: string,
    themeAccent: string,
    themeText: string,
    slides: seq<SlideSpec>,
    filename: string)

  /** A request that leaves every optional field at its default. */
  function WithDefaults(slides: seq<SlideSpec>): PresentationSpec {
    PresentationSpec("0b1220", "d4af37", "ffffff", slides, "Mesurer_la_Terre.pptx")
  }

  /**
   * `InvalidColour`: `hex_to_rgb` raised on that token (a `ValueError`).
   * `HttpError`: the `HTTPException` raised for an empty slide list.
   */
  datatype BuildError = InvalidColour(token: string) | HttpError(status: int, detail: string)

  const NoSlides := HttpError(400, "No slides provided")

  /**
   * The `colors` dictionary: primary, then accent, then text; the first bad
   * token raises. It resolves exactly when all three tokens do, to their colours.
   */
  function ResolveTheme(spec: PresentationSpec): (r: Result<Theme, BuildError>)
    ensures r.Ok? <==> HexToRgb(spec.themePrimary).Some? && HexToRgb(spec.themeAccent).Some?
                       && HexToRgb(spec.themeText).Some?
    ensures r.Ok? ==> r.value == Theme(HexToRgb(spec.themePrimary).value, HexToRgb(spec.themeAccent).value,
                                       HexToRgb(spec.themeText).value)
    ensures r.Err? ==> r.error.InvalidColour?
                       && r.error.token in [spec.themePrimary, spec.themeAccent, spec.themeText]
                       && HexToRgb(r.error.token).None?
  {
    match HexToRgb(spec.themePrimary)
    case None => Err(InvalidColour(spec.themePrimary))
    case Some(primary) =>
      match HexToRgb(spec.themeAccent)
      case None => Err(InvalidColour(spec.themeAccent))
      case Some(accent) =>
        match HexToRgb(spec.themeText)
        case None => Err(InvalidColour(spec.themeText))
        case Some(text) => Ok(Theme(primary, accent, text))
  }

  /** Python's `subtitle or ""`: empty exactly when the subtitle is missing or empty. */
  function OrEmpty(o: Option<string>): (s: string)
    ensures s == "" <==> !Given(o)
    ensures Given(o) ==> s == o.value
  {
    if Given(o) then o.value else ""
  }

  /** The content slides, one per spec and in the same order. */
  function ContentSlides(specs: seq<SlideSpec>, theme: Theme, fetch: Fetcher): (slides: seq<Slide>)
    ensures |slides| == |specs|
    ensures forall k :: 0 <= k < |specs| ==> slides[k] == ContentSlide(specs[k], theme, fetch)
  {
    if specs == [] then []
    else ContentSlides(specs[..|specs| - 1], theme, fetch) + [ContentSlide(specs[|specs| - 1], theme, fetch)]
  }

  /** Slide 0 through the title path with its title and `subtitle or ""`, the rest through the content path. */
  function RenderDeck(slides: seq<SlideSpec>, theme: Theme, fetch: Fetcher): (deck: seq<Slide>)
    requires slides != []
    ensures |deck| == |slides|
    ensures deck[0].layout == TitleLayout && |deck[0].shapes| == 2
    ensures forall k :: 1 <= k < |deck| ==> deck[k].layout == TitleOnlyLayout
  {
    [TitleSlide(slides[0].title, Some(OrEmpty(slides[0].subtitle)), theme)]
    + ContentSlides(slides[1..], theme, fetch)
  }

  /** One more content slide appended to a presentation that already holds some slides. */
  lemma ContentSlidesStep(before: seq<Slide>, specs: seq<SlideSpec>, i: nat, theme: Theme, fetch: Fetcher)
    requires i < |specs|
    ensures before + ContentSlides(specs[..i + 1], theme, fetch)
            == (before + ContentSlides(specs[..i], theme, fetch)) + [ContentSlide(specs[i], theme, fetch)]
  {
    assert specs[..i + 1][..i] == specs[..i];
  }

  /**
   * The slides of the presentation `build_presentation` saves, or the error
   * it raises: one slide per spec once the theme resolves and the list is
   * non-empty, and the 400 error for an empty list with a valid theme.
   */
  function Deck(spec: PresentationSpec, fetch: Fetcher): (r: Result<seq<Slide>, BuildError>)
    ensures r.Ok? <==> ResolveTheme(spec).Ok? && spec.slides != []
    ensures r.Ok? ==> |r.value| == |spec.slides|
    ensures r.Err? && ResolveTheme(spec).Ok? ==> r.error == NoSlides
  {
    match ResolveTheme(spec)
    case Err(e) => Err(e)
    case Ok(theme) =>
      if spec.slides == [] then Err(NoSlides) else Ok(RenderDeck(spec.slides, theme, fetch))
  }

  /**
   * `build_presentation(spec)`: the colour tokens are resolved before the
   * slide list is checked. Saving the package is opaque here: the result
   * stands for it by the slides it holds.
   */
  method BuildPresentation(spec: PresentationSpec, fetch: Fetcher) returns (r: Result<seq<Slide>, BuildError>)
    ensures r == Deck(spec, fetch)
  {
    var primary := HexToRgb(spec.themePrimary);
    if primary.None? {
      return Err(InvalidColour(spec.themePrimary));
    }
    var accent := HexToRgb(spec.themeAccent);
    if accent.None? {
      return Err(InvalidColour(spec.themeAccent));
    }
    var text := HexToRgb(spec.themeText);
    if text.None? {
      return Err(InvalidColour(spec.themeText));
    }
    if spec.slides == [] {
      return Err(NoSlides);
    }
    var slides := RenderSlides(spec.slides, Theme(primary.value, accent.value, text.value), fetch);
    r := Ok(slides);
  }

  /**
   * The rendering part of `build_presentation`: a fresh presentation, the
   * title slide, then one content slide per remaining spec, appended in order.
   */
  method RenderSlides(specs: seq<SlideSpec>, theme: Theme, fetch: Fetcher) returns (slides: seq<Slide>)
    requires specs != []
    ensures slides == RenderDeck(specs, theme, fetch)
    ensures |slides| == |specs|
  {
    var prs := new Presentation();
    var first := specs[0];
    AddTitleSlide(prs, first.title, Some(OrEmpty(first.subtitle)), theme);
    AddContentSlides(prs, specs[1..], theme, fetch);
    slides := prs.slides;
  }

  /** The loop over `spec.slides[1:]`: one content slide per spec, appended in order. */
  method AddContentSlides(prs: Presentation, specs: seq<SlideSpec>, theme: Theme, fetch: Fetcher)
    modifies prs
    ensures prs.slides == old(prs.slides) + ContentSlides(specs, theme, fetch)
  {
    ghost var before := prs.slides;
    for i := 0 to |specs|
      invariant prs.slides == before + ContentSlides(specs[..i], theme, fetch)
    {
      AddContentSlide(prs, specs[i], theme, fetch);
      ContentSlidesStep(before, specs, i, theme, fetch);
    }
    assert specs[..|specs|] == specs;
  }

  // ---------------------------------------------------------------------------
  // Properties of the deck.

  /**
   * The theme colours are resolved before the slide list is looked at: a bad
   * token fails first (primary, then accent, then text), and only then does
   * an empty slide list fail with status 400.
   */
  lemma BuildErrors(spec: PresentationSpec, fetch: Fetcher)
    ensures HexToRgb(spec.themePrimary).None? ==> Deck(spec, fetch) == Err(InvalidColour(spec.themePrimary))
    ensures HexToRgb(spec.themePrimary).Some? && HexToRgb(spec.themeAccent).None? ==>
              Deck(spec, fetch) == Err(InvalidColour(spec.themeAccent))
    ensures HexToRgb(spec.themePrimary).Some? && HexToRgb(spec.themeAccent).Some? && HexToRgb(spec.themeText).None? ==>
              Deck(spec, fetch) == Err(InvalidColour(spec.themeText))
    ensures ResolveTheme(spec).Ok? && spec.slides == [] ==> Deck(spec, fetch) == Err(HttpError(400, "No slides provided"))
    ensures Deck(spec, fetch).Ok? <==> ResolveTheme(spec).Ok? && spec.slides != []
  {
  }

  /**
   * A rendered deck has one slide per spec: slide 0 from the title path with
   * its title and `subtitle or ""`, every later slide from the content path,
   * in input order.
   */
  lemma DeckSlides(specs: seq<SlideSpec>, theme: Theme, fetch: Fetcher)
    requires specs != []
    ensures var slides := RenderDeck(specs, theme, fetch);
      && |slides| == |specs|
      && slides[0] == TitleSlide(specs[0].title, Some(OrEmpty(specs[0].subtitle)), theme)
      && forall k :: 1 <= k < |slides| ==> slides[k] == ContentSlide(specs[k], theme, fetch)
  {
    var slides, rest := RenderDeck(specs, theme, fetch), ContentSlides(specs[1..], theme, fetch);
    forall k | 1 <= k < |slides| ensures slides[k] == ContentSlide(specs[k], theme, fetch) {
      assert slides[k] == rest[k - 1];
      assert specs[1..][k - 1] == specs[k];
    }
  }

  /**
   * The title slide always fills its subtitle placeholder, with the empty
   * string when the subtitle is missing or empty, and its items play no part.
   */
  lemma TitleSlideShape(specs: seq<SlideSpec>, items: seq<SlideItem>, theme: Theme, fetch: Fetcher)
    requires specs != []
    ensures RenderDeck(specs, theme, fetch)[0].shapes
            == [Placeholder(0, Run(specs[0].title, 54, true, theme.text, Center)),
                Placeholder(1, Run(OrEmpty(specs[0].subtitle), 24, false, theme.text, Center))]
    ensures RenderDeck(specs[0 := specs[0].(items := items)], theme, fetch) == RenderDeck(specs, theme, fetch)
  {
    assert specs[0 := specs[0].(items := items)][1..] == specs[1..];
  }

  /** Every slide of a rendered deck has the primary background and text-coloured runs. */
  lemma DeckStyled(specs: seq<SlideSpec>, theme: Theme, fetch: Fetcher)
    requires specs != []
    ensures forall k :: 0 <= k < |specs| ==> Styled(RenderDeck(specs, theme, fetch)[k], theme)
  {
    var slides := RenderDeck(specs, theme, fetch);
    forall k | 0 <= k < |specs| ensures Styled(slides[k], theme) {
      if k > 0 {
        ContentSlideStyled(specs[k], theme, fetch);
      }
    }
  }

  /** The item loop reads only the text colour of the theme. */
  lemma {:induction false} FlowUsesTextColour(items: seq<SlideItem>, t1: Theme, t2: Theme, fetch: Fetcher)
    requires t1.text == t2.text
    ensures FlowShapes(items, t1, fetch) == FlowShapes(items, t2, fetch)
  {
    if items != [] {
      FlowUsesTextColour(items[..|items| - 1], t1, t2, fetch);
    }
  }

  /** A content slide depends on the theme only through its primary and text colours. */
  lemma ContentSlideRecolours(spec: SlideSpec, t1: Theme, t2: Theme, fetch: Fetcher)
    requires t1.text == t2.text
    ensures ContentSlide(spec, t2, fetch) == ContentSlide(spec, t1, fetch).(background := t2.primary)
  {
    FlowUsesTextColour(spec.items, t1, t2, fetch);
  }

  /**
   * Rendering with another primary colour changes the backgrounds and nothing
   * else; the accent colour is never used.
   */
  lemma PrimaryOnlyRecolours(specs: seq<SlideSpec>, t1: Theme, t2: Theme, fetch: Fetcher)
    requires specs != [] && t1.text == t2.text
    ensures var d1, d2 := RenderDeck(specs, t1, fetch), RenderDeck(specs, t2, fetch);
      && |d2| == |d1|
      && forall k :: 0 <= k < |d1| ==>
           && d2[k].layout == d1[k].layout
           && d2[k].shapes == d1[k].shapes
           && d2[k].background == t2.primary
  {
    var d1, d2 := RenderDeck(specs, t1, fetch), RenderDeck(specs, t2, fetch);
    forall k | 0 <= k < |d1|
      ensures d2[k] == d1[k].(background := t2.primary)
    {
      if k > 0 {
        assert d1[k] == ContentSlide(specs[k], t1, fetch);
        assert d2[k] == ContentSlide(specs[k], t2, fetch);
        ContentSlideRecolours(specs[k], t1, t2, fetch);
      }
    }
  }

  /** Changing only the primary token of a request changes only the theme's primary colour. */
  lemma ResolvePrimary(spec: PresentationSpec, primary: string)
    requires ResolveTheme(spec).Ok? && HexToRgb(primary).Some?
    ensures ResolveTheme(spec.(themePrimary := primary))
            == Ok(ResolveTheme(spec).value.(primary := HexToRgb(primary).value))
  {
  }

  /**
   * For a request whose primary token resolves, replacing that token by
   * another valid one changes whether the build succeeds in no case, and
   * where it succeeds changes only the backgrounds, to the new colour.
   */
  lemma DeckPrimaryOnly(spec: PresentationSpec, primary: string, fetch: Fetcher)
    requires HexToRgb(primary).Some?
    ensures var d1, d2 := Deck(spec, fetch), Deck(spec.(themePrimary := primary), fetch);
      && (HexToRgb(spec.themePrimary).Some? ==> (d2.Ok? <==> d1.Ok?))
      && (d1.Ok? ==>
            && d2.Ok? && |d2.value| == |d1.value|
            && forall k :: 0 <= k < |d1.value| ==>
                 && d2.value[k].layout == d1.value[k].layout
                 && d2.value[k].shapes == d1.value[k].shapes
                 && d2.value[k].background == HexToRgb(primary).value)
  {
    var spec2 := spec.(themePrimary := primary);
    if ResolveTheme(spec).Ok? {
      ResolvePrimary(spec, primary);
      if spec.slides != [] {
        var t1 := ResolveTheme(spec).value;
        PrimaryOnlyRecolours(spec.slides, t1, ResolveTheme(spec2).value, fetch);
      }
    }
  }

  /** The default theme tokens resolve to night blue, gold and white. */
  lemma DefaultTheme(slides: seq<SlideSpec>)
    ensures ResolveTheme(WithDefaults(slides)) == Ok(Theme(Rgb(11, 18, 32), Rgb(212, 175, 55), Rgb(255, 255, 255)))
  {
    var primary, accent, text := Rgb(11, 18, 32), Rgb(212, 175, 55), Rgb(255, 255, 255);
    assert FormatHex(primary) == "0b1220";
    assert FormatHex(accent) == "d4af37";
    assert FormatHex(text) == "ffffff";
    FormatHexReadsBack(primary);
    FormatHexReadsBack(accent);
    FormatHexReadsBack(text);
  }
}
