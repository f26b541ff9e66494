/** The overlay session of content/content.js: the state the page script keeps
    in its `let` variables (lines 89-100), the canvas and DOM resources it
    creates (lines 53-86), the handlers of the events it listens to, and its
    teardown. Each handler runs to completion, so each is one method. */
module Overlay {
  import opened Wrappers
  import opened Geometry
  import opened Raster
  import opened Tools
  import opened TextLayout
  import opened Capture
  import Theme

  /** The DOM resources a session creates: the custom crosshair, the dimming
      overlay, the annotation canvas, the toolbar, the stylesheet link and the
      text box. */
  datatype Resource = Crosshair | DimOverlay | Canvas | Toolbar | StyleLink | TextInput

  /** What teardown removes (the text box is not among them). */
  const SessionResources: set<Resource> := {Crosshair, DimOverlay, Canvas, Toolbar, StyleLink}

  /** A text box and whether its deferred insertion into the page has run. */
  datatype Textbox = Textbox(anchor: Point, attached: bool)

  /** Progress of a save: toolbar removed and the 100 ms timer pending; the
      final canvas sized and the screenshot requested; the screenshot
      loading; done. */
  datatype CaptureState =
    | NotStarted
    | Scheduled
    | Requested(width: nat, height: nat)
    | Loading(width: nat, height: nat, url: string)
    | Finished

  /** What the session does outside the page: console messages, alerts and
      downloads. */
  datatype Effect = ConsoleError(message: string) | Alert(message: string) | Download(image: Artifact)

  const TextDrawError := "Snipping Tool: Error drawing text."
  const CaptureError := "Failed to capture tab:"

  /** Every cell of `a` is the tint, but for those of the selection, which
      are clear. */
  ghost predicate Dimmed(a: array2<Cell>, tint: string, selection: Option<Rect>)
    reads a
  {
    forall i, j :: 0 <= i < a.Length0 && 0 <= j < a.Length1 ==> a[i, j] == DimCell(tint, selection, i, j)
  }

  /** The lines of `all` drawn before the line `failAt` throws, if it does. */
  function DrawnUntil(all: seq<Ink>, failAt: Option<nat>): (drawn: seq<Ink>)
    ensures drawn <= all
    ensures |drawn| < |all| <==> failAt.Some? && failAt.value < |all|
    ensures failAt.Some? && failAt.value < |all| ==> drawn == all[..failAt.value]
  {
    if failAt.Some? && failAt.value < |all| then all[..failAt.value] else all
  }

  class OverlaySession {
    /** `canvas.width` and `canvas.height`, the viewport size at start-up. */
    const width: nat
    const height: nat
    /** The dimming tint chosen by theme detection. */
    const tint: string
    /** The canvas's dimming layer. */
    const layer: array2<Cell>
    /** Strokes and text drawn on the canvas, oldest first. */
    var ink: seq<Ink>
    /** The canvas's current path, since the last `beginPath`. */
    var path: seq<Point>
    var isSelecting: bool
    var isDrawing: bool
    var isTyping: bool
    var selectionRect: Option<Rect>
    var startPos: Point
    var currentTool: Tool
    var options: ToolOptions
    /** The values shown by the draw and text colour pickers. */
    var drawPicker: string
    var textPicker: string
    /** The resources currently in the page. */
    var live: set<Resource>
    /** Whether the document-level `mousemove` listener moving the crosshair is installed. */
    var crosshairTracking: bool
    var crosshairShown: bool
    var crosshairAt: Point
    var cursor: Cursor
    var overlayShown: bool
    var textbox: Option<Textbox>
    var capture: CaptureState
    var effects: seq<Effect>
    /** The selection kept at mouse-up, once there is one. */
    ghost var committed: Option<Rect>

    /** The canvas is in the page, so its listeners can still fire. */
    predicate Alive()
      reads this`live
    {
      Canvas in live
    }

    /** The dimming layer has the canvas's size and shows the selection. */
    ghost predicate LayerShowsSelection()
      reads this`selectionRect, layer
    {
      layer.Length0 == width && layer.Length1 == height && Dimmed(layer, tint, selectionRect)
    }

    /** Before a selection is kept nothing but selecting can have happened;
        once it is kept, selecting is over and the overlay is hidden. */
    ghost predicate PhaseAgrees()
      reads this`committed, this`currentTool, this`isDrawing, this`isTyping, this`ink, this`live
      reads this`capture, this`overlayShown, this`isSelecting, this`selectionRect
    {
      && (committed.None? ==>
            currentTool == NoTool && !isDrawing && !isTyping && ink == []
            && Toolbar !in live && capture == NotStarted && overlayShown)
      && (committed.Some? ==>
            !isSelecting && selectionRect == committed && Commits(committed.value) && !overlayShown)
    }

    /** A text box is open exactly while typing, and in the page once attached. */
    ghost predicate TypingAgrees()
      reads this`isTyping, this`textbox, this`live
    {
      && (isTyping <==> textbox.Some?)
      && (TextInput in live <==> textbox.Some? && textbox.value.attached)
    }

    /** While the toolbar is up both pickers show the current colour and no
        save has started. */
    ghost predicate ToolbarAgrees()
      reads this`live, this`drawPicker, this`textPicker, this`options, this`capture
    {
      Toolbar in live ==> drawPicker == options.colour && textPicker == options.colour && capture == NotStarted
    }

    /** The session's resources and the crosshair listener come and go
        together, and a save in progress keeps them; its final canvas has the
        annotation canvas's size. */
    ghost predicate LifecycleAgrees()
      reads this`live, this`capture, this`crosshairTracking
    {
      && (Toolbar in live || capture.Scheduled? || capture.Requested? || capture.Loading? ==> Alive())
      && (capture.Requested? ==> capture.width == width && capture.height == height)
      && (capture.Loading? ==> capture.width == width && capture.height == height)
      && (Alive() <==> StyleLink in live) && (Alive() <==> Crosshair in live)
      && (Alive() <==> DimOverlay in live) && (Alive() <==> crosshairTracking)
    }

    /** Once a selection is kept, the crosshair and the cursor follow the
        tool; before, the crosshair of start-up is shown. */
    ghost predicate CursorAgrees()
      reads this`committed, this`currentTool, this`crosshairShown, this`cursor
    {
      && (committed.Some? ==> CursorFollows(currentTool, crosshairShown, cursor))
      && (committed.None? ==> crosshairShown && cursor == StylesheetCursor)
    }

    /** The session invariant, apart from the cursor. */
    ghost predicate Core()
      reads this, layer
    {
      && LayerShowsSelection()
      && ValidOptions(options)
      && PhaseAgrees()
      && TypingAgrees()
      && ToolbarAgrees()
      && LifecycleAgrees()
    }

    /** The session invariant. */
    ghost predicate Valid()
      reads this, layer
    {
      Core() && CursorAgrees()
    }

    /** What no event can undo: a kept selection and the dimming layer stay
        as they are and ink is only added to; effects are only added to; a
        torn-down session stays down. */
    twostate predicate Evolves()
      reads this, layer
    {
      && (old(committed).Some? ==> committed == old(committed) && old(ink) <= ink && unchanged(layer))
      && old(effects) <= effects
      && (!old(Alive()) ==> !Alive())
    }

    /** Start-up (lines 44-120): theme detection, the crosshair, overlay,
        canvas and stylesheet, the initial state and the first redraw. The
        tint comes from theme detection (`Theme.OverlayTint`). */
    constructor (viewportWidth: nat, viewportHeight: nat, overlayTint: string)
      ensures Valid() && Alive() && fresh(layer)
      ensures width == viewportWidth && height == viewportHeight
      ensures tint == overlayTint
      ensures live == {Crosshair, DimOverlay, Canvas, StyleLink} && crosshairTracking && crosshairShown && overlayShown
      ensures !isSelecting && !isDrawing && !isTyping && selectionRect.None? && currentTool == NoTool
      ensures options == DefaultOptions && ink == [] && effects == [] && capture == NotStarted && committed.None?
      ensures forall i, j :: 0 <= i < width && 0 <= j < height ==> layer[i, j] == Tinted(tint)
    {
      width := viewportWidth;
      height := viewportHeight;
      tint := overlayTint;
      layer := new Cell[viewportWidth, viewportHeight];
      ink := [];
      path := [];
      isSelecting := false;
      isDrawing := false;
      isTyping := false;
      selectionRect := None;
      startPos := Point(0, 0);
      currentTool := NoTool;
      options := DefaultOptions;
      drawPicker := DefaultOptions.colour;
      textPicker := DefaultOptions.colour;
      live := {Crosshair, DimOverlay, Canvas, StyleLink};
      crosshairTracking := true;
      crosshairShown := true;
      crosshairAt := Point(0, 0);
      cursor := StylesheetCursor;
      overlayShown := true;
      textbox := None;
      capture := NotStarted;
      effects := [];
      committed := None;
      new;
      DefaultsValid();
      Redraw();
    }

    /** `redrawCanvas` (lines 103-119): clear the whole canvas, ink included,
        fill it with the tint, then clear the selection. A step of the
        constructor and of `OnMouseMove` only, not an event of its own: it
        neither needs nor restores `Valid()`, which its callers re-establish. */
    method Redraw()
      requires layer.Length0 == width && layer.Length1 == height
      modifies layer, this`ink
      ensures ink == []
      ensures forall i, j :: 0 <= i < width && 0 <= j < height ==> layer[i, j] == DimCell(tint, selectionRect, i, j)
    {
      FillRect(layer, Rect(0, 0, width, height), Clear);
      ink := [];
      FillRect(layer, Rect(0, 0, width, height), Tinted(tint));
      if selectionRect.Some? {
        FillRect(layer, selectionRect.value, Clear);
      }
    }

    /** `moveCrosshair` (lines 58-62), the document-level `mousemove` listener. */
    method MoveCrosshair(p: Point)
      requires Valid() && crosshairTracking
      modifies this`crosshairAt
      ensures Valid() && Evolves() && crosshairAt == p
    {
      crosshairAt := p;
    }

    /** `onMouseDown` (lines 123-140). */
    method OnMouseDown(p: Point)
      requires Valid() && Alive()
      modifies this`isSelecting, this`startPos, this`isDrawing, this`path, this`isTyping, this`textbox
      ensures Valid() && Evolves()
      ensures old(isTyping) ==> unchanged(this)
      ensures !old(isTyping) && old(currentTool) == NoTool && old(selectionRect).None? ==>
                isSelecting && startPos == p && isDrawing == old(isDrawing) && path == old(path)
                && isTyping == old(isTyping) && textbox == old(textbox)
      ensures !old(isTyping) && old(currentTool) == NoTool && old(selectionRect).Some? ==> unchanged(this)
      ensures !old(isTyping) && old(currentTool) == DrawTool ==>
                isDrawing && path == [p] && isSelecting == old(isSelecting) && startPos == old(startPos)
                && isTyping == old(isTyping) && textbox == old(textbox)
      ensures !old(isTyping) && old(currentTool) == TextTool ==>
                isSelecting == old(isSelecting) && startPos == old(startPos) && isDrawing == old(isDrawing) && path == old(path)
                && if old(selectionRect).Some? then isTyping && textbox == Some(Textbox(p, false))
                   else isTyping == old(isTyping) && textbox == old(textbox)
    {
      if isTyping {
        return;
      }
      if currentTool == NoTool && selectionRect.None? {
        isSelecting := true;
        startPos := p;
      } else if currentTool == DrawTool {
        isDrawing := true;
        path := [p];
      } else if currentTool == TextTool {
        if selectionRect.Some? {
          CreateTextbox(p);
        }
      }
    }

    /** `onMouseMove` (lines 142-160): while selecting, the selection spans
        the anchor and the mouse position and the canvas is redrawn; while drawing,
        the path is extended and stroked with the current options. */
    method OnMouseMove(p: Point)
      requires Valid() && Alive()
      modifies this`selectionRect, layer, this`ink, this`path
      ensures Valid() && Evolves()
      ensures old(isSelecting) ==> selectionRect == Some(SelectionBetween(startPos, p)) && ink == [] && path == old(path)
      ensures !old(isSelecting) && old(isDrawing) ==>
                path == old(path) + [p] && ink == old(ink) + [Stroke(path, options.colour, options.lineWidth)]
                && selectionRect == old(selectionRect) && unchanged(layer)
      ensures !old(isSelecting) && !old(isDrawing) ==> unchanged(this) && unchanged(layer)
    {
      if isSelecting {
        selectionRect := Some(SelectionBetween(startPos, p));
        Redraw();
      } else if isDrawing {
        path := path + [p];
        ink := ink + [Stroke(path, options.colour, options.lineWidth)];
      }
    }

    /** `onMouseUp` (lines 162-178): a selection more than 10 pixels wide and
        high is kept and the toolbar appears with no tool active; any other
        selection, including one that never moved, tears the session down.
        A stroke in progress ends. */
    method OnMouseUp()
      requires Valid() && Alive()
      modifies this`isSelecting, this`isDrawing, this`live, this`overlayShown, this`committed, this`currentTool
      modifies this`crosshairShown, this`cursor, this`drawPicker, this`textPicker, this`crosshairTracking
      ensures Valid() && Evolves()
      ensures !isSelecting && !isDrawing
      ensures old(isSelecting) && old(selectionRect).Some? && Commits(old(selectionRect).value) ==>
                committed == old(selectionRect) && live == old(live) + {Toolbar} && currentTool == NoTool
                && !overlayShown && !crosshairShown && cursor == DefaultCursor
      ensures old(isSelecting) && !(old(selectionRect).Some? && Commits(old(selectionRect).value)) ==>
                committed.None? && !Alive() && live == old(live) - SessionResources
      ensures !old(isSelecting) ==>
                live == old(live) && committed == old(committed) && currentTool == old(currentTool)
                && crosshairShown == old(crosshairShown) && cursor == old(cursor)
    {
      if isSelecting {
        isSelecting := false;
        if selectionRect.Some? && Commits(selectionRect.value) {
          KeepSelection();
        } else {
          var ok := Cleanup();
          assert ok;
        }
      }
      if isDrawing {
        isDrawing := false;
      }
    }

    /** Lines 166-169: the selection is kept, the toolbar appears, the
        overlay is hidden (the canvas dims the page from now on) and no tool
        is active. */
    method KeepSelection()
      requires Valid() && Alive() && !isSelecting && committed.None?
      requires selectionRect.Some? && Commits(selectionRect.value)
      modifies this`live, this`drawPicker, this`textPicker, this`overlayShown, this`committed
      modifies this`currentTool, this`crosshairShown, this`cursor
      ensures Valid() && Evolves()
      ensures committed == selectionRect && live == old(live) + {Toolbar} && currentTool == NoTool
      ensures !overlayShown && !crosshairShown && cursor == DefaultCursor
    {
      CreateToolbar();
      overlayShown := false;
      committed := selectionRect;
      SetActiveTool(NoTool);
    }

    /** `createToolbar` (lines 185-273) as far as the session's state goes:
        the toolbar enters the page with both colour pickers showing the
        current colour. A step of `KeepSelection` only, as the code calls it
        only from `onMouseUp`: it neither needs nor restores `Valid()`, which
        `KeepSelection` re-establishes once the selection is kept. */
    method CreateToolbar()
      modifies this`live, this`drawPicker, this`textPicker
      ensures live == old(live) + {Toolbar}
      ensures drawPicker == options.colour && textPicker == options.colour
    {
      live := live + {Toolbar};
      drawPicker := options.colour;
      textPicker := options.colour;
    }

    /** `setActiveTool` (lines 275-303): toggle the tool, then make the
        crosshair and the cursor follow it. */
    method SetActiveTool(t: Tool)
      requires Core() && Toolbar in live
      modifies this`currentTool, this`crosshairShown, this`cursor
      ensures Valid() && Evolves()
      ensures currentTool == Toggle(old(currentTool), t)
      ensures CursorFollows(currentTool, crosshairShown, cursor)
    {
      currentTool := Toggle(currentTool, t);
      if currentTool == DrawTool {
        crosshairShown := true;
        cursor := HiddenCursor;
      } else if currentTool == TextTool {
        crosshairShown := false;
        cursor := TextCursor;
      } else {
        crosshairShown := false;
        cursor := DefaultCursor;
      }
    }

    /** The draw colour picker's `input` listener (lines 256-259): the colour
        changes and the text picker shows it too. */
    method OnDrawColourInput(value: string)
      requires Valid() && Toolbar in live
      modifies this`options, this`drawPicker, this`textPicker
      ensures Valid() && Evolves()
      ensures options == old(options).(colour := value) && drawPicker == value && textPicker == value
    {
      drawPicker := value;
      options := options.(colour := value);
      textPicker := value;
    }

    /** The text colour picker's `input` listener (lines 260-263). */
    method OnTextColourInput(value: string)
      requires Valid() && Toolbar in live
      modifies this`options, this`drawPicker, this`textPicker
      ensures Valid() && Evolves()
      ensures options == old(options).(colour := value) && drawPicker == value && textPicker == value
    {
      textPicker := value;
      options := options.(colour := value);
      drawPicker := value;
    }

    /** The line-width selector's `change` listener (lines 264-266). */
    method OnLineWidthChange(value: string)
      requires Valid() && Toolbar in live && value in LineWidthChoices
      modifies this`options
      ensures Valid() && Evolves()
      ensures Lexical.AllDigits(value) && options == old(options).(lineWidth := Lexical.Value(value))
    {
      LineWidthChoiceParses(value);
      options := options.(lineWidth := Lexical.Value(value));
    }

    /** The font-size selector's `change` listener (lines 267-269). */
    method OnFontSizeChange(value: string)
      requires Valid() && Toolbar in live && value in FontSizeChoices
      modifies this`options
      ensures Valid() && Evolves()
      ensures Lexical.AllDigits(value) && options == old(options).(fontSize := Lexical.Value(value))
    {
      FontSizeChoiceParses(value);
      options := options.(fontSize := Lexical.Value(value));
    }

    /** The font-family selector's `change` listener (lines 270-272). */
    method OnFontFamilyChange(value: string)
      requires Valid() && Toolbar in live && value in FontFamilyChoices
      modifies this`options
      ensures Valid() && Evolves()
      ensures options == old(options).(fontFamily := value)
    {
      options := options.(fontFamily := value);
    }

    /** `createTextbox` (lines 305-365), reached from a mouse-down with the
        text tool after a selection: nothing happens while a text box is
        open; otherwise one opens at the mouse position, its insertion into the page
        deferred to a timer. */
    method CreateTextbox(p: Point)
      requires Valid() && currentTool == TextTool && selectionRect.Some?
      modifies this`isTyping, this`textbox
      ensures Valid() && Evolves()
      ensures old(isTyping) ==> unchanged(this)
      ensures !old(isTyping) ==> isTyping && textbox == Some(Textbox(p, false))
    {
      if isTyping {
        return;
      }
      isTyping := true;
      textbox := Some(Textbox(p, false));
    }

    /** The timer of lines 361-364: the text box enters the page and takes
        the focus. */
    method AttachTextbox()
      requires Valid() && textbox.Some? && !textbox.value.attached
      modifies this`textbox, this`live
      ensures Valid() && Evolves()
      ensures textbox == Some(old(textbox).value.(attached := true)) && live == old(live) + {TextInput}
    {
      textbox := Some(textbox.value.(attached := true));
      live := live + {TextInput};
    }

    /** `finishTyping` (lines 325-349), run when the text box loses focus.
        Unless the text is blank, each of its lines is drawn in turn; if
        drawing line `failAt` throws, the lines before it stay drawn and the
        error is logged. Either way the text box leaves the page and typing
        ends. */
    method FinishTyping(value: string, failAt: Option<nat>)
      requires Valid() && textbox.Some? && textbox.value.attached
      modifies this`ink, this`isTyping, this`textbox, this`live, this`effects
      ensures Valid() && Evolves()
      ensures !isTyping && textbox.None? && live == old(live) - {TextInput}
      ensures var all := TextInk(value, old(textbox).value.anchor, options);
              ink == old(ink) + DrawnUntil(all, failAt)
              && effects == old(effects) + (if |DrawnUntil(all, failAt)| < |all| then [ConsoleError(TextDrawError)] else [])
    {
      var failed := DrawText(value, textbox.value.anchor, failAt);
      if failed {
        effects := effects + [ConsoleError(TextDrawError)];
      }
      CloseTextbox();
    }

    /** The `finally` block of lines 342-348: the text box leaves the page
        and typing ends. */
    method CloseTextbox()
      requires Valid() && textbox.Some?
      modifies this`isTyping, this`textbox, this`live
      ensures Valid() && Evolves()
      ensures !isTyping && textbox.None? && live == old(live) - {TextInput}
    {
      textbox := None;
      isTyping := false;
      live := live - {TextInput};
    }

    /** The `try` block of lines 327-339: unless the text is blank, its
        lines are drawn in turn, line `i` `fontSize * 1.2` below the first,
        until every line is drawn or drawing line `failAt` throws. */
    method DrawText(value: string, anchor: Point, failAt: Option<nat>) returns (failed: bool)
      requires Valid() && isTyping
      modifies this`ink
      ensures Valid() && Evolves()
      ensures var all := TextInk(value, anchor, options);
              ink == old(ink) + DrawnUntil(all, failAt) && (failed <==> |DrawnUntil(all, failAt)| < |all|)
    {
      failed := false;
      if !IsBlank(value) {
        var lines := Split(value);
        ghost var all := LinesInk(lines, anchor, options);
        var i := 0;
        while i < |lines| && failAt != Some(i)
          invariant i <= |lines|
          invariant failAt.Some? && failAt.value < |lines| ==> i <= failAt.value
          invariant ink == old(ink) + all[..i]
        {
          ink := ink + [LineInk(lines[i], anchor, options, i)];
          i := i + 1;
        }
        failed := i < |lines|;
      }
    }

    /** The text box's `keydown` listener (lines 352-357): Enter without
        Shift ends editing, which runs `finishTyping`; any other key leaves
        the session as it is. */
    method OnTextboxKeyDown(key: string, shiftKey: bool, value: string, failAt: Option<nat>) returns (ended: bool)
      requires Valid() && textbox.Some? && textbox.value.attached
      modifies this`ink, this`isTyping, this`textbox, this`live, this`effects
      ensures Valid() && Evolves()
      ensures ended == EndsEditing(key, shiftKey)
      ensures !ended ==> unchanged(this)
      ensures ended ==> !isTyping && textbox.None? && live == old(live) - {TextInput}
                        && ink == old(ink) + DrawnUntil(TextInk(value, old(textbox).value.anchor, options), failAt)
                        && effects == old(effects)
                                      + (if |DrawnUntil(TextInk(value, old(textbox).value.anchor, options), failAt)|
                                            < |TextInk(value, old(textbox).value.anchor, options)|
                                         then [ConsoleError(TextDrawError)] else [])
    {
      ended := EndsEditing(key, shiftKey);
      if ended {
        FinishTyping(value, failAt);
      }
    }

    /** The cancel button's `click` listener (line 247), which calls `cleanup`
        directly: the toolbar being up, the session is live, so the call
        never reaches the throw of line 420. */
    method OnCancel() returns (ok: bool)
      requires Valid() && Toolbar in live
      modifies this`live, this`crosshairTracking
      ensures Valid() && Evolves()
      ensures ok && live == old(live) - SessionResources && !crosshairTracking && !Alive()
    {
      ok := Cleanup();
    }

    /** `saveCapture` (lines 368-372): the toolbar leaves the page first, so
        that the screenshot does not show it; the rest waits for a timer. */
    method SaveCapture()
      requires Valid() && Toolbar in live
      modifies this`live, this`capture
      ensures Valid() && Evolves()
      ensures live == old(live) - {Toolbar} && capture == Scheduled
    {
      live := live - {Toolbar};
      capture := Scheduled;
    }

    /** The timer of lines 372-380: a final canvas the size of the annotation
        canvas is made and the screenshot is requested. */
    method OnCaptureTimer()
      requires Valid() && capture == Scheduled
      modifies this`capture
      ensures Valid() && Evolves()
      ensures capture == Requested(width, height)
    {
      capture := Requested(width, height);
    }

    /** The reply continuation (lines 382-406), as corrected: a reply with a
        screenshot starts loading it; anything else, a missing reply
        included, logs the error, shows the failure notice and tears down. */
    method OnCaptureResponse(response: Option<Reply>)
      requires Valid() && capture.Requested?
      modifies this`capture, this`effects, this`live, this`crosshairTracking
      ensures Valid() && Evolves()
      ensures Decide(response).LoadImage? ==>
                capture == Loading(width, height, Decide(response).url) && effects == old(effects) && live == old(live)
      ensures !Decide(response).LoadImage? ==>
                capture == Finished && effects == old(effects) + [ConsoleError(CaptureError), Alert(FailureNotice)]
                && !Alive() && live == old(live) - SessionResources
    {
      var outcome := Decide(response);
      if outcome.LoadImage? {
        capture := Loading(capture.width, capture.height, outcome.url);
      } else {
        effects := effects + [ConsoleError(CaptureError), Alert(FailureNotice)];
        capture := Finished;
        var ok := Cleanup();
        assert ok;
      }
    }

    /** The dimming layer as columns of cells, indexed by `x` then `y`, as
        `drawImage` reads the canvas. */
    function Pixels(): seq<seq<Cell>>
      reads layer
    {
      seq(layer.Length0, i requires 0 <= i < layer.Length0 reads layer =>
        seq(layer.Length1, j requires 0 <= j < layer.Length1 reads layer => layer[i, j]))
    }

    /** The screenshot's `onload` (lines 385-397): the final image, exactly
        the canvas's size, has the screenshot at the bottom and the canvas on
        top; it is downloaded as `capture-<now>.png` and the session is torn
        down. */
    method OnImageLoad(now: nat)
      requires Valid() && capture.Loading?
      modifies this`capture, this`effects, this`live, this`crosshairTracking
      ensures Valid() && Evolves()
      ensures effects == old(effects) + [Download(Artifact(width, height,
                [Screenshot(old(capture).url), Annotations(Pixels(), ink)], FileName(now)))]
      ensures capture == Finished && !Alive() && live == old(live) - SessionResources
    {
      var image := Artifact(capture.width, capture.height,
                            [Screenshot(capture.url), Annotations(Pixels(), ink)], FileName(now));
      effects := effects + [Download(image)];
      capture := Finished;
      var ok := Cleanup();
      assert ok;
    }

    /** `cleanup` (lines 411-421): the crosshair listener goes and every
        session resource leaves the page (an open text box is not touched).
        The stylesheet link is removed without a check, so a second call
        throws: `ok` is false exactly when the session was already down. */
    method Cleanup() returns (ok: bool)
      requires Valid() && (capture.NotStarted? || capture.Finished?)
      modifies this`live, this`crosshairTracking
      ensures Valid() && Evolves()
      ensures ok == old(Alive())
      ensures live == old(live) - SessionResources && !crosshairTracking
    {
      crosshairTracking := false;
      ok := StyleLink in live;
      live := live - SessionResources;
    }
  }

  /** The guard of line 2: a page that already has an annotation canvas gets
      no second session. */
  method Inject(pageHasCanvas: bool, viewportWidth: nat, viewportHeight: nat, bodyColour: string, htmlColour: string)
    returns (session: OverlaySession?)
    ensures pageHasCanvas <==> session == null
    ensures session != null ==> fresh(session) && session.Valid() && session.Alive()
                                && session.tint == Theme.OverlayTint(bodyColour, htmlColour)
  {
    if pageHasCanvas {
      session := null;
    } else {
      var tint := Theme.OverlayTint(bodyColour, htmlColour);
      session := new OverlaySession(viewportWidth, viewportHeight, tint);
    }
  }
}
