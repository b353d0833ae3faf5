# Slide-deck assembly, modelled in Dafny

This project models the core of a small service that turns a JSON description
of a presentation into a PowerPoint deck (`main.py`). A request names three
theme colours as hex tokens and lists slides. Each slide has a title, an
optional subtitle and typed items (`text`, `equation`, `image`). The model
covers:

- **Colour tokens** (`hex_to_rgb`), in `colours.dfy`. Every leading `#` is
  stripped. The slices `[0:2]`, `[2:4]` and `[4:6]` are then read with
  Python's `int(_, 16)`, and the result must pass python-pptx's `RGBColor`
  range check. `ParseInt16` models that `int()` call: surrounding whitespace,
  a sign, an optional `0x` prefix and `_` separators. A token that makes the
  call raise resolves to `None`.
- **Slide rendering** (`add_title_slide`, `add_content_slide`), in
  `render.dfy`. A slide is its layout index, its background colour and the
  shapes whose text or picture the code sets. Positions are integers in
  tenths of an inch, because the source only ever uses one-decimal inch
  values. The content path keeps a vertical cursor that starts at 2.4 in.
  Text and equation items with content add a text box and move the cursor
  by 1.0 in. Image items with a URL move it by 3.2 in whether or not the
  fetch succeeds. A fetched image adds a picture, plus a caption box when the
  caption is non-empty. All other items add nothing. The image fetch is an
  oracle `Fetcher = string -> bool`.
- **Deck assembly** (`build_presentation`), in `assemble.dfy`. The three
  colours are resolved first, in the order primary, accent, text. An empty
  slide list then fails with status 400. Slide 0 goes through the title path
  with `subtitle or ""`, and every later slide goes through the content path
  in input order. A `Presentation` object's `slides` sequence only grows,
  through `AddSlide`. Saving the package is opaque: the build returns the
  slide sequence it would save.

`Deck` is the reference definition of a build. `BuildPresentation` and the
in-place methods (`AddTitleSlide`, `AddContentSlide`, `PlaceItems`,
`RenderSlides`, `AddContentSlides`) are proved against it. Its properties are proved as lemmas.

## How the code behaves where a looser reading differs

- `hex_to_rgb` strips every leading `#`, not only a single marker character.
  No other marker character is stripped: `"$0b1220"` keeps its `$` in the
  slice `[0:2]`, and the call raises (`OtherMarkerRejected`).
- `hex_to_rgb` does not require six digits. With five characters left,
  `[4:6]` is a one-character slice that `int()` accepts, so `"abcde"` gives
  (171, 205, 14) (`HexToRgbFiveDigits`). The call raises only when four or
  fewer characters remain (`HexToRgbTooShort`), or when a pair is rejected
  by `int()` or is negative (`HexToRgbSixChars`). `int()` also accepts pairs
  such as `" f"`, `"f "` and `"+f"`. The pair `"-f"` parses to -15, which
  `RGBColor` then rejects. With exactly five characters, the result is
  characterised pair by pair (`HexToRgbFiveChars`): `"ab cd"` gives
  (171, 12, 13), and `"abcd+"` raises.
- The title slide always fills its subtitle placeholder, with the empty
  string when the subtitle is missing or empty (`TitleSlideShape`). The
  content path adds a subtitle box only for a non-empty subtitle
  (`ContentSubtitle`).
- Only the item start positions increase (`StartsIncrease`). The boxes may
  overlap. Two consecutive text items start 1.0 in apart, but each box is
  1.2 in high (`TextBoxesOverlap`). A caption spans 2.7 to 3.3 in below its
  image's cursor, while the next picture in the same column starts 3.0 in
  below it (`CaptionOverlapsNextPicture`). The first item starts at 2.4 in,
  inside the subtitle box, which spans 1.8 to 2.8 in (`FirstItemUnderSubtitle`).

## Model

| member | source | states |
|---|---|---|
| `Colours.Slice` | main.py:46-48 | Python's `s[i:j]` with clamped bounds: never longer than `s` or than `j - i`, the ordinary subsequence when `i <= j <= |s|`, and empty when `i` is past the end |
| `Colours.ParseInt16` | main.py:46-48 | `int(s, 16)`, where whitespace, a sign, a `0x` prefix and `_` separators are allowed; a blank string raises |
| `Colours.HexToRgb` | main.py:44-49 | `hex_to_rgb`: strip the '#'s, read the three slices and range-check them; a token that resolves has at least five characters after the '#'s |
| `Colours.LStripHash` | main.py:45 | the stripped token does not start with '#' and is no longer than the input |
| `Colours.LStripHashStrips` | main.py:45 | the input is some number of '#' characters followed by the stripped token, so only leading '#'s are removed |
| `Colours.ParseEmpty` | main.py:46-48 | `int("", 16)` raises |
| `Colours.ParseOneChar` | main.py:48 | a one-character slice is accepted by `int(_, 16)` exactly when it is a hex digit, with that digit's value |
| `Colours.ParsePair` | main.py:46-48 | a two-character slice is accepted exactly in the forms "hh", " h", "h ", "+h" and "-h", with the value `PairValue` gives |
| `Colours.HexToRgbSixChars` | main.py:44-49 | with at least six characters after the '#'s, the token resolves exactly when all three pairs are accepted with non-negative values, and the channels are those values |
| `Colours.HexToRgbSixDigits` | main.py:44-49 | six hex digits after the '#'s resolve to R, G, B = the base-16 values of characters [0:2], [2:4], [4:6] |
| `Colours.HexToRgbFiveDigits` | main.py:45-49 | five hex digits after the '#'s are accepted; blue is the value of the fifth digit alone |
| `Colours.HexToRgbFiveChars` | main.py:45-49 | with exactly five characters after the '#'s, the token resolves exactly when the first two pairs are accepted with non-negative values and the fifth character is a hex digit; that digit alone is blue |
| `Colours.FiveCharAccepted` | main.py:45-49 | `"ab cd"` resolves to (171, 12, 13) |
| `Colours.FiveCharRejected` | main.py:45-49 | `"abcd+"` raises, because the lone `+` in [4:6] is not a number |
| `Colours.OtherMarkerRejected` | main.py:45-46 | `"$0b1220"` raises: only '#' is stripped, so `$0` is the first pair |
| `Colours.HexToRgbTooShort` | main.py:45-48 | four or fewer characters after the '#'s make the call raise, because the slice [4:6] is empty |
| `Colours.HexToRgbBadCharacter` | main.py:45-48 | a character among the first six after the '#'s that is not a hex digit, whitespace or a sign makes the call raise |
| `Colours.HexToRgbIgnoresHashes` | main.py:45 | any number of leading '#' characters leaves the result unchanged |
| `Colours.HexToRgbIgnoresTail` | main.py:46-48 | once six characters follow the '#'s, anything appended after them is ignored |
| `Colours.FormatHex` | main.py:37-39 | a colour written as a token has six hex digits, as the default theme tokens do |
| `Colours.FormatHexReadsBack` | main.py:44-49 | every colour written as a six-digit token resolves back to itself |
| `Colours.HexToRgbFormat` | main.py:44-49 | the same round trip with any number of leading '#' characters |
| `Render.ItemShapes` | main.py:117-153 | the shapes one item adds: at most two, and some exactly when it is a text/equation item with content or an image item with a URL whose fetch succeeds |
| `Render.CursorAfter` | main.py:115-154 | the cursor after a list of items; it never lies above its 2.4 in start |
| `Render.FlowShapes` | main.py:115-154 | the shapes the item loop adds, in item order: at most two per item |
| `Render.ContentHeader` | main.py:90-113 | the title placeholder first, then one subtitle box at (0.9, 1.8, 11, 1) in exactly when the subtitle is non-empty |
| `Render.ContentSlide` | main.py:83-154 | the content slide: layout 5, the primary background, and at most two shapes per item after the header |
| `Render.TitleSlide` | main.py:52-80 | the title slide: layout 0, the primary background, and two placeholders exactly when a subtitle is passed, otherwise one |
| `Render.Presentation.constructor` | main.py:158 | a new presentation has no slides |
| `Render.Presentation.AddSlide` | main.py:54 | adding a slide appends it and changes nothing else |
| `Render.AddTitleSlide` | main.py:52-80 | appends exactly `TitleSlide`: layout 0, primary background, a 54 pt bold centred title run in the text colour, and a 24 pt centred subtitle run whenever a subtitle is passed |
| `Render.AddContentSlide` | main.py:83-154 | appends exactly `ContentSlide`: layout 5, primary background, a 38 pt bold title, the subtitle box for a non-empty subtitle, then the item shapes in order |
| `Render.PlaceItems` | main.py:115-154 | the item loop produces `FlowShapes` and leaves the cursor at 2.4 in + 1.0 in per text/equation item with content + 3.2 in per image item with a URL |
| `Render.CountAppend` | main.py:116 | text and image item counts add up over concatenated item lists |
| `Render.CursorClosedForm` | main.py:115-154 | the cursor ends at 2.4 + 1.0·T + 3.2·I in, whatever the fetch outcomes; other items, including `title` items, do not move it |
| `Render.CursorMonotone` | main.py:115-154 | the cursor never moves up |
| `Render.StartsIncrease` | main.py:115-154 | a laid-out item's top is strictly above every later item's, and no lower than 2.4 in |
| `Render.FlowPrefix` | main.py:116-154 | the shapes of earlier items are never changed by later ones |
| `Render.ItemShapesPlaced` | main.py:116-154 | every shape an item adds at its cursor position appears in the slide |
| `Render.TextItemPlaced` | main.py:117-130 | each text/equation item with content gets a box at (0.9, cursor, 7, 1.2) in, 18 pt plain for text and 20 pt bold for equations, for every fetch outcome |
| `Render.FetchedImagePlaced` | main.py:131-150 | a fetched image gets its picture (`ImagePicture`: 4.5 x 2.8 in at 8.2 in from the left, 0.2 in above the cursor), and a non-empty caption its 12 pt box (`CaptionBox`: 4.5 x 0.6 in, 2.7 in below the cursor) |
| `Render.TextBoxesOverlap` | main.py:117-130 | two consecutive text items get boxes in the same column where the second starts inside the first |
| `Render.CaptionOverlapsNextPicture` | main.py:139-154 | a fetched image's caption reaches into the picture of a fetched image that follows it |
| `Render.PicturesAreFetched` | main.py:131-154 | every picture comes from an image item whose fetch succeeded and sits at that item's slot, so a failed fetch leaves no trace |
| `Render.CountFetchedAppend` | main.py:131-150 | fetched and captioned image counts add up over concatenated item lists |
| `Render.FlowShapeCount` | main.py:116-154 | the loop adds one shape per text item, one per fetched image and one per fetched image with a caption, and nothing else |
| `Render.FlowBelowHeader` | main.py:115-154 | no item shape is a placeholder, and every one lies at least 2.2 in from the top |
| `Render.ContentSubtitle` | main.py:91-113 | a content slide starts with its 38 pt bold title, and holds the subtitle box at (0.9, 1.8, 11, 1) in exactly when the subtitle is non-empty |
| `Render.FirstItemUnderSubtitle` | main.py:103-118 | with a non-empty subtitle, a first text item's box starts inside the subtitle box |
| `Render.FlowStyled` | main.py:116-154 | every item text run uses the text colour |
| `Render.ContentSlideStyled` | main.py:86-113 | a content slide has the primary background, and all its runs use the text colour |
| `Assemble.ResolveTheme` | main.py:160-164 | the `colors` dictionary resolves exactly when all three tokens do, to their colours; otherwise the error names a token that does not resolve |
| `Assemble.OrEmpty` | main.py:171 | `subtitle or ""`: empty exactly when the subtitle is missing or empty, else the subtitle |
| `Assemble.RenderDeck` | main.py:169-175 | one slide per spec: slide 0 with the title layout and two placeholders, every later slide with the title-only layout |
| `Assemble.Deck` | main.py:157-175 | the build succeeds exactly when the theme resolves and there are slides, then with one slide per spec; with a valid theme the only error is the 400 error |
| `Assemble.ContentSlides` | main.py:174-175 | one content slide per remaining spec, each from the content path, in input order |
| `Assemble.BuildPresentation` | main.py:157-179 | the build returns exactly `Deck`: the first bad colour token's error, else the 400 error for no slides, else the rendered deck |
| `Assemble.RenderSlides` | main.py:158-175 | the rendering part appends the title slide and then the content slides, giving `RenderDeck` with one slide per spec |
| `Assemble.AddContentSlides` | main.py:173-175 | the loop over `spec.slides[1:]` appends exactly `ContentSlides`, one content slide per spec in order |
| `Assemble.BuildErrors` | main.py:160-167 | colours are resolved before the slide list is checked: primary, then accent, then text fail first; an empty list then fails with status 400; otherwise the build succeeds |
| `Assemble.DeckSlides` | main.py:169-175 | a deck has one slide per spec: slide 0 is the title slide of its title and `subtitle or ""`, and slide k ≥ 1 is the content slide of spec k |
| `Assemble.TitleSlideShape` | main.py:60-80 | the title slide always holds the title run and a subtitle run (possibly empty), and changing slide 0's items changes nothing |
| `Assemble.DeckStyled` | main.py:56-58 | every slide has the primary background and every run the text colour |
| `Assemble.FlowUsesTextColour` | main.py:116-154 | the item shapes depend on the theme only through the text colour |
| `Assemble.ContentSlideRecolours` | main.py:83-154 | a content slide rendered with another primary colour differs only in its background |
| `Assemble.PrimaryOnlyRecolours` | main.py:160-175 | two themes with the same text colour give decks with the same slide count, layouts and shapes; only the backgrounds differ, and the accent is never used |
| `Assemble.ResolvePrimary` | main.py:160-164 | changing only the primary token changes only the theme's primary colour |
| `Assemble.DeckPrimaryOnly` | main.py:160-175 | replacing a valid primary token by another valid one keeps success or failure as it was; a deck that was built keeps its slide count, layouts and shapes, and every background becomes the new colour |
| `Assemble.DefaultTheme` | main.py:37-39 | the default tokens resolve to (11, 18, 32), (212, 175, 55) and (255, 255, 255) |

## Left out

- The FastAPI app, CORS middleware, endpoints and uvicorn start-up (main.py:14-22, 182-205) are HTTP plumbing around the core.
- The `filename` field is used only by the endpoint's response header; the model keeps it in `PresentationSpec` and nothing reads it.
- The image fetch (`requests.get`, `raise_for_status`, PIL decode and PNG re-encode) is the `Fetcher` oracle. The oracle gives the same outcome for every fetch of one URL; the source fetches once per item, and two fetches of one URL could differ.
- A picture stands for its PNG bytes by the URL they came from.
- An exception raised by python-pptx itself inside the image `try` block (after the picture is added) is not modelled; the model's shape-adding steps cannot fail.
- `ParseInt16` treats only ASCII whitespace as whitespace. Python's `int()` also skips non-ASCII whitespace and reads non-ASCII decimal digits; the model counts those characters as invalid.
- python-pptx internals are not modelled: the template's layouts, the geometry of its placeholders, `Inches`/`Pt` conversion to EMU, and `prs.save` serialisation. The build returns the slide sequence instead of package bytes.
- Float rounding of the cursor and the EMU truncation of accumulated float error are not modelled. Positions are exact tenths of an inch.
- The font name `Inter`, and paragraph properties other than alignment, are not recorded. `wrap` is true only where the code turns word wrap on.
- The default slide size of `Presentation()` is not modelled.
- In the source the slide is added to the presentation before its shapes are set, and the presentation is created before the colours are resolved. The model appends a finished slide and creates the presentation after the checks. Nothing can observe the difference: no exception escapes between those steps, and a failed build discards the presentation.
