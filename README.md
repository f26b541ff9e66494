# Snipping overlay — a Dafny model

This project models the in-page part of a browser snipping tool: the script
`content/content.js`, which is injected into a tab. It does the following:

- It picks a dimming tint from the page's background colour.
- It covers the viewport with a canvas.
- It lets the user drag a selection.
- It offers a toolbar for drawing strokes and typing text inside the selection.
- On save, it hides the toolbar, asks the extension's relay for a screenshot,
  composes the screenshot with the canvas and downloads the result as
  `capture-<timestamp>.png`.
- It tears itself down after a save, a cancel, an undersized selection or a
  failed capture.

The model has nine modules:

| module | what it holds |
|---|---|
| `Lexical` | `\d` and `\s`; the number a digit run denotes; the decimal text of a number |
| `Theme` | the colour pattern of `isColorDark` as a staged matcher with a leftmost scan, proved sound and complete against a grammar of the strings it accepts; the integer luminance test; `getPageBackgroundColor`; the tint choice |
| `Geometry` | points, rectangles, the selection rectangle and the 10-pixel rule |
| `Raster` | the canvas's dimming layer as an `array2` of cells; strokes and text lines as a log of drawing commands; `fillRect`/`clearRect` as an in-place method |
| `Tools` | the tool toggle, the cursor each tool shows, the drawing options and the values the toolbar's selectors offer |
| `TextLayout` | splitting on line feeds, the blank test of `trim()`, the `fillText` calls of a text box, the key that ends editing |
| `Capture` | the relay's reply, the decision taken on it (as written and as intended), the download's name, the composed image |
| `Overlay` | the class `OverlaySession` (see below) and `Inject`, the guard against a second session |
| `Wrappers` | `Option` |

`Overlay.OverlaySession` has one field per session variable of lines 89-100. On top of those it has:

- the canvas;
- the ink drawn on it;
- the set of page resources that are live;
- the crosshair and cursor state;
- the open text box;
- the progress of a save;
- the effects seen outside the page: console errors, alerts and downloads.

Each event handler is a method with a `modifies` clause naming the fields it changes. Every event handler keeps the invariant `Valid()`; `Redraw` and `CreateToolbar` are steps inside other handlers. Its parts say:

- The dimming layer shows the selection.
- Before a selection is kept, nothing but selecting has happened.
- A kept selection never changes and selecting cannot start again.
- Once a selection is kept, the crosshair and cursor follow the tool; before, the start-up crosshair is shown.
- A text box is open exactly while typing.
- While the toolbar is up, no save has started.
- The crosshair listener, the overlay, the canvas and the stylesheet link live and die together.

Every handler also satisfies `Evolves()`, which says:

- Once a selection is kept, the dimming layer is never touched again.
- Ink is only ever added.
- Effects are only ever added.
- A torn-down session stays down.

A handler's preconditions say which events can reach it:

- Canvas listeners need the canvas in the page.
- Toolbar listeners need the toolbar.
- Text-box listeners need the attached text box.
- Capture continuations need the matching stage of the save.

Three behaviours of the code matter for teardown and capture. The model follows the code:

- **Teardown is not idempotent.** The stylesheet link is removed without a guard (line 420), so a second `cleanup` throws. `Cleanup` reports this as `ok == false`. On every path that reaches it (`OnMouseUp`, `OnCancel`, `OnCaptureResponse`, `OnImageLoad`), the invariant proves the call happens on a live session.
- **A missing reply does not reach the failure path.** The failure branch reads `response.error` before anything else (line 400). A missing reply therefore throws before the notice and the teardown. This is logged under Findings. The class uses the corrected decision.
- **Text-box teardown is separate.** The text box is not among the resources `cleanup` removes (lines 411-421). Only `finishTyping` removes it.

## Model

| member | source | states |
|---|---|---|
| Lexical.Value | content/content.js:15 | the number `Number` (and `parseInt(…, 10)`) reads from a run of ASCII digits, most significant first, leading zeros allowed |
| Lexical.Show | content/content.js:394 | the decimal text of a number (as in `${Date.now()}`) is a non-empty digit run with no leading zero, and `0` for zero |
| Lexical.ValueOfShow | content/content.js:15 | reading back the decimal text of `n` with `Number` gives `n` |
| Lexical.ValueIgnoresLeadingZero | content/content.js:15 | a leading zero does not change the number a digit run denotes |
| Lexical.DigitsAreNotSpaces | content/content.js:11 | no character is both `\d` and `\s`, so the pattern's quantifiers never backtrack |
| Theme.DigitPrefix | content/content.js:11 | greedy `\d+`: the longest prefix of digits, the character after it not a digit |
| Theme.SpacePrefix | content/content.js:11 | greedy `\s*`: the longest prefix of whitespace, the character after it not whitespace |
| Theme.Match | content/content.js:11 | the pattern tried at one position, stage by stage: `rgb`, an optional `a`, `(`, the red digits and `,`, spaces, the green digits and `,`, spaces, the blue digits; its meaning is stated by `Theme.MatchSound` and `Theme.MatchComplete` |
| Theme.MatchComplete | content/content.js:11 | every string of the pattern's form, `rgb` or `rgba`, `(`, digits, `,`, spaces, digits, `,`, spaces, digits, followed by anything that does not continue the digits, is matched at its start and yields the three numbers written in it |
| Theme.MatchSound | content/content.js:11 | every match at the start of a string is such a spelling followed by a non-digit or nothing, and yields the numbers written in it |
| Theme.FirstMatchFrom | content/content.js:11 | `exec` scans from the left: the reported position starts a match and no earlier one does; when nothing is reported, no position matches |
| Theme.Exec | content/content.js:11 | `exec` without the `g` flag: the groups found at the leftmost position where the pattern matches, with no match at any earlier position; nothing exactly when no position matches |
| Theme.Leftmost | content/content.js:11 | no position before the one `exec` reports starts a match, and none at all when it reports nothing |
| Theme.ScaledThreshold | content/content.js:17-18 | the integer test `299r+587g+114b < 140000` is exactly `0.299r+0.587g+0.114b < 140` over the rationals |
| Theme.IsColorDark | content/content.js:10-19 | `isColorDark` holds exactly when the pattern finds a colour and `0.299r+0.587g+0.114b < 140` for the channels it finds; false when it finds nothing |
| Theme.ExecReadsRgb | content/content.js:11-15 | a computed colour `rgb(r, g, b)` is read back as `(r, g, b)` |
| Theme.ExecReadsRgba | content/content.js:11-15 | a computed colour `rgba(r, g, b, a)` is read back as `(r, g, b)`, whatever the alpha |
| Theme.DarkIffLuminanceBelow140 | content/content.js:10-19 | on a computed colour, `rgb(r, g, b)` or `rgba(r, g, b, a)` whatever the alpha, `isColorDark` holds exactly when the luminance of `(r, g, b)` is below 140 |
| Theme.PageBackgroundColor | content/content.js:25-41 | the body's colour unless it is `rgba(0, 0, 0, 0)` or `transparent`; then the root's; when both are transparent, white; never a transparent value |
| Theme.OverlayTint | content/content.js:43-48 | the tint is one of the two 25 % tints; which one is stated by the three lemmas below |
| Theme.TransparentPageGetsBlackTint | content/content.js:25-48 | a page whose body and root are both transparent counts as white and gets the black tint |
| Theme.BodyColourDecidesTint | content/content.js:25-48 | a body with a visible computed colour, `rgb` or `rgba`, decides the tint whatever the root's colour: the white tint exactly when its luminance is below 140, the black tint otherwise |
| Theme.RootColourDecidesTint | content/content.js:25-48 | over a transparent body, the root's visible computed colour, `rgb` or `rgba`, decides the tint in the same way |
| Geometry.SelectionBetween | content/content.js:143-150 | the selection has non-negative sides and each side runs exactly from the anchor to the mouse position or back |
| Geometry.SelectionIsTightest | content/content.js:143-150 | the selection reaches both points and lies inside every box that does |
| Raster.FillRect | content/content.js:104-117 | every canvas cell inside the rectangle takes the new content and every other cell keeps its own |
| Tools.Toggle | content/content.js:277 | the new tool is none or the chosen one, and it is none exactly when the chosen tool was already active or is none |
| Tools.ToggleTwice | content/content.js:277 | choosing the same tool twice from it or from no tool returns to where it started |
| Tools.CursorFollows | content/content.js:292-302 | the draw tool shows the crosshair and hides the cursor; the text tool hides the crosshair and shows the text cursor; no tool hides the crosshair and shows the default cursor |
| Tools.DefaultsValid | content/content.js:95-100 | the initial options are among those the toolbar offers |
| Tools.LineWidthChoiceParses | content/content.js:200-205 | `parseInt` of every line-width option is one of the widths 2, 5, 10, 20 |
| Tools.FontSizeChoiceParses | content/content.js:218-227 | `parseInt` of every font-size option is one of the sizes 14 to 72 |
| TextLayout.Split | content/content.js:330 | `split("\n")` yields at least one piece and no piece holds a line feed |
| TextLayout.JoinSplit | content/content.js:330 | joining the pieces with line feeds gives the text back |
| TextLayout.SplitJoin | content/content.js:330 | splitting pieces joined by line feeds gives the same pieces |
| TextLayout.SplitCount | content/content.js:330 | there is one more piece than there are line feeds |
| TextLayout.IsBlank | content/content.js:329 | `text.trim()` is empty exactly when every character is ECMAScript whitespace |
| TextLayout.TextInk | content/content.js:329-338 | blank text draws nothing; any other text draws one line per line feed plus one |
| TextLayout.TextInkLayout | content/content.js:331-338 | every line is drawn at `x + 5` in the current font, size and colour; the first at `y + 5`; each next one `fontSize * 1.2` lower |
| TextLayout.TextInkKeepsText | content/content.js:330-338 | the drawn lines, joined by line feeds, are exactly the typed text |
| TextLayout.EndsEditing | content/content.js:353 | editing ends on Enter without Shift, and on no other key |
| Capture.DecideAsWritten | content/content.js:382-405 | as written, a reply with a non-empty image loads it; a missing reply throws; an error reply reports the failure |
| Capture.Decide | content/content.js:382-405 | as intended, a reply with a non-empty image loads exactly that image; everything else, a missing reply included, reports the failure; it never throws |
| Capture.MissingReplyThrows | content/content.js:400 | with no reply, the written code throws where the intended one reports the failure |
| Capture.DecideAgreesOnReplies | content/content.js:382-405 | on every reply that arrives, the written and the intended decisions agree |
| Capture.FileName | content/content.js:394 | the download's name `capture-<now>.png` |
| Capture.FileNameCarriesTimestamp | content/content.js:394 | the file name is `capture-`, the timestamp's digits and `.png`, and the timestamp reads back from it |
| Overlay.DrawnUntil | content/content.js:336-340 | the lines drawn are a prefix of all lines: exactly those before the throwing line when one throws, all of them otherwise |
| Overlay.Inject | content/content.js:2-48 | a page that already has the annotation canvas gets no session; otherwise a fresh, valid, live session with the tint theme detection chose |
| Overlay.OverlaySession.constructor | content/content.js:50-120 | start-up: the crosshair, overlay, canvas and stylesheet are live and the crosshair is tracked; no selection, tool, ink or save; default options; the canvas is tinted everywhere |
| Overlay.OverlaySession.Redraw | content/content.js:103-119 | afterwards every cell is the tint except the selection's, which are clear, and the earlier ink is gone |
| Overlay.OverlaySession.MoveCrosshair | content/content.js:58-62 | the crosshair moves to the mouse position and nothing else changes |
| Overlay.OverlaySession.OnMouseDown | content/content.js:123-140 | while typing nothing changes; with no tool and no selection, selecting starts at the mouse position; with the draw tool, a new path starts at the mouse position; with the text tool after a selection, a text box opens at the mouse position |
| Overlay.OverlaySession.OnMouseMove | content/content.js:142-160 | while selecting, the selection becomes the rectangle between the anchor and the mouse position and the layer shows it; while drawing, the mouse position extends the path and the whole path is stroked in the current colour and width; otherwise nothing changes |
| Overlay.OverlaySession.OnMouseUp | content/content.js:162-178 | selecting and drawing end; a selection more than 10 pixels wide and high is kept with the toolbar up and no tool active; any other selection, a missing one included, tears the session down; outside a selection, the kept selection, the tool and the resources stay |
| Overlay.OverlaySession.KeepSelection | content/content.js:165-169 | the selection is kept, the toolbar comes up, the overlay is hidden, no tool is active, the crosshair is hidden and the cursor is the default one |
| Overlay.OverlaySession.CreateToolbar | content/content.js:185-273 | the toolbar comes up with both colour pickers showing the current colour |
| Overlay.OverlaySession.SetActiveTool | content/content.js:275-303 | the tool becomes the toggle of the old one and the chosen one, and the crosshair and cursor follow it |
| Overlay.OverlaySession.OnDrawColourInput | content/content.js:256-259 | the colour changes, only the colour, and both pickers show it |
| Overlay.OverlaySession.OnTextColourInput | content/content.js:260-263 | the colour changes, only the colour, and both pickers show it |
| Overlay.OverlaySession.OnLineWidthChange | content/content.js:264-266 | the line width becomes the number the chosen option denotes; the other options stay |
| Overlay.OverlaySession.OnFontSizeChange | content/content.js:267-269 | the font size becomes the number the chosen option denotes; the other options stay |
| Overlay.OverlaySession.OnFontFamilyChange | content/content.js:270-272 | the font family becomes the chosen one; the other options stay |
| Overlay.OverlaySession.CreateTextbox | content/content.js:305-307 | while typing nothing changes; otherwise typing starts with a text box at the mouse position, not yet in the page |
| Overlay.OverlaySession.AttachTextbox | content/content.js:361-364 | the text box enters the page |
| Overlay.OverlaySession.FinishTyping | content/content.js:325-349 | the ink grows by the text's lines up to the one that throws, if any; a throw is logged; in every case the text box leaves the page and typing ends |
| Overlay.OverlaySession.DrawText | content/content.js:327-339 | the ink grows by exactly the lines drawn before the throwing one, and `failed` says whether a line threw |
| Overlay.OverlaySession.CloseTextbox | content/content.js:342-348 | the text box leaves the page and typing ends |
| Overlay.OverlaySession.OnTextboxKeyDown | content/content.js:352-357 | Enter without Shift ends editing as blurring does: the ink grows by the lines drawn, a throw is logged, the text box leaves the page and typing ends; any other key changes nothing |
| Overlay.OverlaySession.OnCancel | content/content.js:247 | the cancel button tears the session down: the crosshair listener stops, the session's resources leave the page, and `cleanup` does not throw |
| Overlay.OverlaySession.SaveCapture | content/content.js:368-372 | the toolbar leaves the page and the capture is scheduled for a later timer event |
| Overlay.OverlaySession.OnCaptureTimer | content/content.js:372-380 | the screenshot is requested for a final image of the canvas's size |
| Overlay.OverlaySession.OnCaptureResponse | content/content.js:382-406 | a reply with an image starts loading it and nothing else changes; any other reply logs the error, shows the failure notice and tears the session down, with no download |
| Overlay.OverlaySession.OnImageLoad | content/content.js:385-397 | exactly one download is added: an image of exactly the canvas's size, the screenshot below the canvas's layer and ink, named `capture-<now>.png`; then the session is torn down |
| Overlay.OverlaySession.Cleanup | content/content.js:411-421 | the crosshair listener stops, and the crosshair, overlay, canvas, toolbar and stylesheet link leave the page; the text box stays; `ok` is false exactly when the session was already down, where the code throws |

## Left out

- The DOM itself is not modelled: element creation, styles, the toolbar's markup and icons (lines 185-236), the buttons' `active` classes and the option panels' visibility (lines 280-289). Only the roles of the live elements are kept, as a set.
- Drawing is a command log, not pixels. Strokes and text are kept as `Stroke` and `TextLine` commands in `ink`, with no rasterisation, anti-aliasing, font metrics, caps or joins.
- `toDataURL`, PNG encoding and image decoding are not modelled. The downloaded image is a record of its size, its layers and its name.
- Floating point is not modelled. Luminance is an integer test proved equal to the decimal formula. Line positions are exact rationals. IEEE rounding is not captured. It matters at the 140 boundary: for `rgb(16, 222, 43)` the exact luminance is 140, so the model calls the colour not dark, while a double evaluation of `0.299 * r + 0.587 * g + 0.114 * b` can round to just below 140, and then the code picks the white tint instead.
- Timers and focus are events, not time. The 100 ms save delay and the deferred insertion of the text box are events the environment delivers (`OnCaptureTimer`, `AttachTextbox`). A blur is a call to `FinishTyping`. Which element has focus is not modelled.
- `Date.now()` is the parameter `now`. The relay's reply is the parameter `response`. A throwing `fillText` is the parameter `failAt`. The viewport size and the computed colours are constructor or `Inject` parameters.
- `Overlay.OverlaySession.OnImageLoad`: only the screenshot's URL is kept. The screenshot's pixels and the case where the image fails to load are not modelled. The code installs no error handler for that case, so such a session would simply stay open.
- `Overlay.OverlaySession.OnCaptureResponse`: the console message drops the error detail the code appends.
- `Overlay.OverlaySession.FinishTyping`: the console message drops the thrown error object the code logs with it (line 341).
- `Overlay.OverlaySession.Cleanup`: the `?.remove()` calls that find no element are not separate steps. Removing an absent resource from the set changes nothing, which is the same effect.
- `Overlay.OverlaySession.constructor`: it takes the tint as a parameter, and `Inject` computes that tint with `Theme.OverlayTint`. In the code the two steps are one piece of top-level script.
- `popup/popup.js` is not part of this model. It only launches the script.
- `background.js` is not part of this model beyond the shape of its reply: an image URL, an error, or no reply.

## Findings

| source | as written | input that shows it | evidently intended | confidence | as-written member | corrected member |
|---|---|---|---|---|---|---|
| content/content.js:399-405 | the failure branch logs `response.error` before alerting and cleaning up, so when no reply arrives (`response` is `undefined`) reading `.error` throws a TypeError; the notice is never shown and the session is never torn down | the relay's message port closes without a reply, so the callback receives `undefined` | a missing reply is a capture failure like an error reply: log, notify, tear down | not executed | Capture.MissingReplyThrows | Capture.Decide |
