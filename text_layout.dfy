/** Text annotations: how the content of the text box becomes `fillText`
    calls, and which key ends editing (content/content.js, lines 325-357). */
module TextLayout {
  import opened Lexical
  import opened Geometry
  import opened Raster
  import opened Tools

  /** `s.split("\n")`: the pieces between line feeds, always at least one. */
  function Split(s: string): (lines: seq<string>)
    ensures |lines| >= 1
    ensures forall k :: 0 <= k < |lines| ==> '\n' !in lines[k]
  {
    if s == [] then [""]
    else
      var rest := Split(s[1..]);
      if s[0] == '\n' then [""] + rest
      else [[s[0]] + rest[0]] + rest[1..]
  }

  /** `lines.join("\n")`. */
  function Join(lines: seq<string>): string {
    if lines == [] then ""
    else if |lines| == 1 then lines[0]
    else lines[0] + "\n" + Join(lines[1..])
  }

  /** Splitting loses nothing: joining the pieces gives the text back. */
  lemma {:induction false} JoinSplit(s: string)
    ensures Join(Split(s)) == s
  {
    if s != [] {
      var rest := Split(s[1..]);
      JoinSplit(s[1..]);
      if s[0] != '\n' && |rest| > 1 {
        var lines := Split(s);
        assert lines[1..] == rest[1..];
        assert Join(rest) == rest[0] + "\n" + Join(rest[1..]);
      }
    }
  }

  lemma {:induction false} SplitSingle(a: string)
    requires '\n' !in a
    ensures Split(a) == [a]
  {
    if a != [] {
      SplitSingle(a[1..]);
      assert [a[0]] + a[1..] == a;
    }
  }

  lemma {:induction false} SplitAtNewline(a: string, b: string)
    requires '\n' !in a
    ensures Split(a + "\n" + b) == [a] + Split(b)
  {
    if a == [] {
      assert a + "\n" + b == "\n" + b;
      assert ("\n" + b)[1..] == b;
    } else {
      var s := a + "\n" + b;
      assert s[1..] == a[1..] + "\n" + b;
      SplitAtNewline(a[1..], b);
      assert [a[0]] + a[1..] == a;
    }
  }

  /** Joining pieces that hold no line feed and splitting again gives the
      same pieces. */
  lemma {:induction false} SplitJoin(lines: seq<string>)
    requires |lines| >= 1
    requires forall k :: 0 <= k < |lines| ==> '\n' !in lines[k]
    ensures Split(Join(lines)) == lines
  {
    if |lines| == 1 {
      SplitSingle(lines[0]);
    } else {
      SplitJoin(lines[1..]);
      SplitAtNewline(lines[0], Join(lines[1..]));
      assert [lines[0]] + lines[1..] == lines;
    }
  }

  function Newlines(s: string): nat {
    if s == [] then 0 else (if s[0] == '\n' then 1 else 0) + Newlines(s[1..])
  }

  /** There is one more piece than there are line feeds. */
  lemma {:induction false} SplitCount(s: string)
    ensures |Split(s)| == Newlines(s) + 1
  {
    if s != [] {
      SplitCount(s[1..]);
    }
  }

  /** `text.trim()` is empty: every character is whitespace. */
  predicate IsBlank(text: string) {
    AllSpaces(text)
  }

  /** The `fillText` of line `i` of a text box anchored at `anchor`: offset
      by 5 pixels on both axes, lines `fontSize * 1.2` pixels apart, drawn in
      the options' font and colour. */
  function LineInk(line: string, anchor: Point, o: ToolOptions, i: nat): Ink {
    TextLine(line, (anchor.x + 5) as real,
             (anchor.y + 5) as real + (i as real) * ((o.fontSize as real) * 1.2),
             o.fontSize, o.fontFamily, o.colour)
  }

  /** The drawing commands finishing a text box issues, in order. */
  function TextInk(text: string, anchor: Point, o: ToolOptions): (ink: seq<Ink>)
    ensures IsBlank(text) ==> ink == []
    ensures !IsBlank(text) ==> |ink| == Newlines(text) + 1
  {
    if IsBlank(text) then []
    else
      SplitCount(text);
      LinesInk(Split(text), anchor, o)
  }

  /** One `fillText` per line, line `i` one pitch below line `i - 1`. */
  function LinesInk(lines: seq<string>, anchor: Point, o: ToolOptions): seq<Ink> {
    seq(|lines|, i requires 0 <= i < |lines| => LineInk(lines[i], anchor, o, i))
  }

  /** Every line is drawn 5 pixels right of the anchor in the options' font
      and colour; the first 5 pixels below it, each next one `fontSize * 1.2`
      pixels lower. */
  lemma TextInkLayout(text: string, anchor: Point, o: ToolOptions)
    ensures var ink := TextInk(text, anchor, o);
            && (forall i :: 0 <= i < |ink| ==>
                  ink[i].TextLine? && ink[i].x == (anchor.x + 5) as real
                  && ink[i].fontSize == o.fontSize && ink[i].fontFamily == o.fontFamily && ink[i].colour == o.colour)
            && (|ink| > 0 ==> ink[0].y == (anchor.y + 5) as real)
            && (forall i :: 0 <= i < |ink| - 1 ==> ink[i + 1].y - ink[i].y == (o.fontSize as real) * 1.2)
  {
  }

  function Texts(ink: seq<Ink>): seq<string>
    requires forall i :: 0 <= i < |ink| ==> ink[i].TextLine?
  {
    seq(|ink|, i requires 0 <= i < |ink| => ink[i].text)
  }

  /** The lines drawn, joined by line feeds, are exactly what was typed: no
      character is dropped or duplicated by the layout. */
  lemma TextInkKeepsText(text: string, anchor: Point, o: ToolOptions)
    requires !IsBlank(text)
    ensures Join(Texts(TextInk(text, anchor, o))) == text
  {
    assert Texts(TextInk(text, anchor, o)) == Split(text);
    JoinSplit(text);
  }

  /** Enter without Shift ends editing; Shift+Enter inserts a line feed. */
  predicate EndsEditing(key: string, shiftKey: bool) {
    key == "Enter" && !shiftKey
  }
}
