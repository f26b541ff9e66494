/** The toolbar's state: which tool is active, the cursor each tool shows and
    the shared drawing options (content/content.js, lines 94-100, 198-227,
    256-272 and 275-302). */
module Tools {
  import opened Lexical

  datatype Tool = NoTool | DrawTool | TextTool

  /** `setActiveTool`: choosing the active tool again switches it off,
      choosing another one switches to it. */
  function Toggle(current: Tool, chosen: Tool): (t: Tool)
    ensures t == NoTool || t == chosen
    ensures t == NoTool <==> (current == chosen || chosen == NoTool)
  {
    if current == chosen then NoTool else chosen
  }

  /** Toggling the same tool twice returns to where the first toggle started
      whenever that was this tool or no tool. */
  lemma ToggleTwice(current: Tool, chosen: Tool)
    requires current == chosen || current == NoTool
    ensures Toggle(Toggle(current, chosen), chosen) == current
  {
  }

  /** The canvas's CSS cursor: the stylesheet's until a tool is first
      chosen, then `none`, `text` or `default`. */
  datatype Cursor = StylesheetCursor | HiddenCursor | TextCursor | DefaultCursor

  /** The mouse affordance of each tool: drawing shows the custom crosshair
      and hides the native cursor; text hides the crosshair and shows the text
      cursor; no tool hides the crosshair and shows the default cursor. */
  predicate CursorFollows(t: Tool, crosshairShown: bool, cursor: Cursor) {
    match t
    case DrawTool => crosshairShown && cursor == HiddenCursor
    case TextTool => !crosshairShown && cursor == TextCursor
    case NoTool => !crosshairShown && cursor == DefaultCursor
  }

  /** The options shared by the draw and text tools. */
  datatype ToolOptions = ToolOptions(colour: string, lineWidth: int, fontSize: int, fontFamily: string)

  const DefaultOptions := ToolOptions("#ff3838", 5, 24, "Arial")

  /** The values of the toolbar's `<select>` options. */
  const LineWidthChoices: seq<string> := ["2", "5", "10", "20"]
  const FontSizeChoices: seq<string> := ["14", "16", "18", "24", "32", "42", "56", "72"]
  const FontFamilyChoices: seq<string> := ["Arial", "Verdana", "Georgia", "Times New Roman", "Courier New"]

  const LineWidths: set<int> := {2, 5, 10, 20}
  const FontSizes: set<int> := {14, 16, 18, 24, 32, 42, 56, 72}

  /** Widths, sizes and families the toolbar can set. */
  predicate ValidOptions(o: ToolOptions) {
    o.lineWidth in LineWidths && o.fontSize in FontSizes && o.fontFamily in FontFamilyChoices
  }

  lemma DefaultsValid()
    ensures ValidOptions(DefaultOptions)
  {
  }

  lemma ValueOfTwoDigits(v: string)
    requires |v| == 2 && AllDigits(v)
    ensures Value(v) == 10 * DigitValue(v[0]) + DigitValue(v[1])
  {
    var head := v[..1];
    assert head[..0] == [];
    assert Value(head) == DigitValue(v[0]);
    assert v[..|v| - 1] == head;
  }

  /** `parseInt(value, 10)` of a line-width option is one of the widths. */
  lemma LineWidthChoiceParses(v: string)
    requires v in LineWidthChoices
    ensures AllDigits(v) && Value(v) in LineWidths
  {
    if |v| == 2 {
      ValueOfTwoDigits(v);
    } else {
      assert v[..0] == [];
    }
  }

  /** `parseInt(value, 10)` of a font-size option is one of the sizes. */
  lemma FontSizeChoiceParses(v: string)
    requires v in FontSizeChoices
    ensures AllDigits(v) && Value(v) in FontSizes
  {
    ValueOfTwoDigits(v);
  }
}
