/** Theme detection: the page's background colour decides whether the dimming
    tint is light or dark (content/content.js, lines 10-48). */
module Theme {
  import opened Wrappers
  import opened Lexical

  /** The three numbers the colour pattern captures. */
  datatype Rgb = Rgb(r: nat, g: nat, b: nat)

  /** Length of the longest prefix of `t` made of ASCII digits: what a
      greedy `\d+` or `\d*` consumes. */
  function DigitPrefix(t: string): (n: nat)
    ensures n <= |t| && AllDigits(t[..n])
    ensures n < |t| ==> !IsDigit(t[n])
  {
    if t != [] && IsDigit(t[0]) then
      var n := 1 + DigitPrefix(t[1..]);
      assert t[..n] == [t[0]] + t[1..][..n - 1];
      n
    else 0
  }

  /** Length of the longest prefix of `t` made of whitespace: what a greedy
      `\s*` consumes. */
  function SpacePrefix(t: string): (n: nat)
    ensures n <= |t| && AllSpaces(t[..n])
    ensures n < |t| ==> !IsSpace(t[n])
  {
    if t != [] && IsSpace(t[0]) then
      var n := 1 + SpacePrefix(t[1..]);
      assert t[..n] == [t[0]] + t[1..][..n - 1];
      n
    else 0
  }

  /** The stages of the regular expression `rgba?\((\d+),\s*(\d+),\s*(\d+)`:
      the head `rgba?`, the opening parenthesis, the first group and its
      comma, the second group (after the first group's value `r`) and the
      third (after `r` and `g`). */
  datatype Stage = Head | Paren | Red | Green(r: nat) | Blue(r: nat, g: nat)

  /** The pattern tried from `stage` at the start of `t`, with its three
      groups read as numbers. Backtracking never finds another match: `a` is
      not `(`, a digit is not `,` and a whitespace character is not a digit,
      so every quantifier takes its longest run. Nothing is required after
      the third group. */
  function Match(stage: Stage, t: string): Option<Rgb>
    decreases |t|
  {
    match stage
    case Head =>
      if |t| < 3 || t[..3] != "rgb" then None
      else Match(Paren, if |t| > 3 && t[3] == 'a' then t[4..] else t[3..])
    case Paren =>
      if t == [] || t[0] != '(' then None else Match(Red, t[1..])
    case Red =>
      var n := DigitPrefix(t);
      if n == 0 || n == |t| || t[n] != ',' then None
      else Match(Green(Value(t[..n])), t[n + 1..])
    case Green(r) =>
      var u := t[SpacePrefix(t)..];
      var n := DigitPrefix(u);
      if n == 0 || n == |u| || u[n] != ',' then None
      else Match(Blue(r, Value(u[..n])), u[n + 1..])
    case Blue(r, g) =>
      var u := t[SpacePrefix(t)..];
      var n := DigitPrefix(u);
      if n == 0 then None else Some(Rgb(r, g, Value(u[..n])))
  }

  /** The strings the pattern accepts, piece by piece: the optional `a`, the
      three digit runs and the two whitespace runs after the commas. */
  datatype Form = Form(alpha: bool, red: string, gap1: string, green: string, gap2: string, blue: string)

  predicate WellFormed(f: Form) {
    f.red != [] && AllDigits(f.red) && AllSpaces(f.gap1)
    && f.green != [] && AllDigits(f.green) && AllSpaces(f.gap2)
    && f.blue != [] && AllDigits(f.blue)
  }

  /** The text of `f` followed by `rest`, built from the right so that each
      stage of the matcher peels off one piece. */
  function Spell(f: Form, rest: string): string {
    var groups := f.red + ("," + SpellGreen(f, rest));
    "rgb" + (if f.alpha then "a" + ("(" + groups) else "(" + groups)
  }

  function SpellGreen(f: Form, rest: string): string {
    f.gap1 + (f.green + ("," + SpellBlue(f, rest)))
  }

  function SpellBlue(f: Form, rest: string): string {
    f.gap2 + (f.blue + rest)
  }

  function Denotes(f: Form): Rgb
    requires WellFormed(f)
  {
    Rgb(Value(f.red), Value(f.green), Value(f.blue))
  }

  /** What may follow a match: anything that does not extend the last digit run. */
  predicate Delimits(q: string) {
    q == [] || !IsDigit(q[0])
  }

  lemma {:induction false} DigitPrefixOf(d: string, q: string)
    requires AllDigits(d) && Delimits(q)
    ensures DigitPrefix(d + q) == |d|
  {
    if d != [] {
      assert (d + q)[1..] == d[1..] + q;
      DigitPrefixOf(d[1..], q);
    }
  }

  lemma {:induction false} SpacePrefixOf(w: string, q: string)
    requires AllSpaces(w) && (q == [] || !IsSpace(q[0]))
    ensures SpacePrefix(w + q) == |w|
  {
    if w != [] {
      assert (w + q)[1..] == w[1..] + q;
      SpacePrefixOf(w[1..], q);
    }
  }

  /** A whitespace run followed by a digit run is consumed as `\s*(\d+)`. */
  lemma GapDigits(gap: string, d: string, q: string)
    requires AllSpaces(gap) && d != [] && AllDigits(d) && Delimits(q)
    ensures var u := (gap + (d + q))[SpacePrefix(gap + (d + q))..];
            u == d + q && DigitPrefix(u) == |d| && u[..|d|] == d
  {
    DigitsAreNotSpaces(d[0]);
    SpacePrefixOf(gap, d + q);
    DigitPrefixOf(d, q);
  }

  lemma BlueComplete(r: nat, g: nat, f: Form, q: string)
    requires WellFormed(f) && Delimits(q)
    ensures Match(Blue(r, g), SpellBlue(f, q)) == Some(Rgb(r, g, Value(f.blue)))
  {
    GapDigits(f.gap2, f.blue, q);
  }

  lemma GreenComplete(r: nat, f: Form, q: string)
    requires WellFormed(f) && Delimits(q)
    ensures Match(Green(r), SpellGreen(f, q)) == Some(Rgb(r, Value(f.green), Value(f.blue)))
  {
    var rest := "," + SpellBlue(f, q);
    GapDigits(f.gap1, f.green, rest);
    AroundComma(f.green, SpellBlue(f, q));
    assert Match(Green(r), SpellGreen(f, q)) == Match(Blue(r, Value(f.green)), SpellBlue(f, q));
    BlueComplete(r, Value(f.green), f, q);
  }

  lemma RedComplete(f: Form, q: string)
    requires WellFormed(f) && Delimits(q)
    ensures Match(Red, f.red + ("," + SpellGreen(f, q))) == Some(Denotes(f))
  {
    DigitPrefixOf(f.red, "," + SpellGreen(f, q));
    AroundComma(f.red, SpellGreen(f, q));
    assert Match(Red, f.red + ("," + SpellGreen(f, q))) == Match(Green(Value(f.red)), SpellGreen(f, q));
    GreenComplete(Value(f.red), f, q);
  }

  /** Every string of the pattern's form, followed by anything that does not
      continue the blue digits, is matched at its start and yields the three
      numbers written in it. */
  lemma MatchComplete(f: Form, q: string)
    requires WellFormed(f) && Delimits(q)
    ensures Match(Head, Spell(f, q)) == Some(Denotes(f))
  {
    var groups := f.red + ("," + SpellGreen(f, q));
    HeadSpell(f.alpha, groups);
    assert Match(Head, Spell(f, q)) == Match(Paren, "(" + groups);
    assert ("(" + groups)[1..] == groups;
    RedComplete(f, q);
  }

  /** The head stage of the matcher peels `rgb(` or `rgba(` off a spelling. */
  lemma HeadSpell(alpha: bool, groups: string)
    ensures var t := "rgb" + (if alpha then "a" + ("(" + groups) else "(" + groups);
            |t| >= 3 && t[..3] == "rgb"
            && (if |t| > 3 && t[3] == 'a' then t[4..] else t[3..]) == "(" + groups
  {
    var t := "rgb" + (if alpha then "a" + ("(" + groups) else "(" + groups);
    assert t[..3] == "rgb";
    assert t[3] == if alpha then 'a' else '(';
  }

  lemma GapDigitsSound(t: string) returns (gap: string, d: string, rest: string)
    ensures AllSpaces(gap) && AllDigits(d) && t == gap + (d + rest)
    ensures var u := t[SpacePrefix(t)..]; d == u[..DigitPrefix(u)] && rest == u[DigitPrefix(u)..]
    ensures rest != [] ==> !IsDigit(rest[0])
  {
    var s := SpacePrefix(t);
    var u := t[s..];
    var n := DigitPrefix(u);
    gap, d, rest := t[..s], u[..n], u[n..];
    assert u == d + rest;
    assert t == gap + u;
  }

  lemma GreenSound(r: nat, t: string) returns (gap1: string, green: string, gap2: string, blue: string, q: string)
    requires Match(Green(r), t).Some?
    ensures AllSpaces(gap1) && green != [] && AllDigits(green)
    ensures AllSpaces(gap2) && blue != [] && AllDigits(blue) && Delimits(q)
    ensures t == gap1 + (green + ("," + (gap2 + (blue + q))))
    ensures Match(Green(r), t) == Some(Rgb(r, Value(green), Value(blue)))
  {
    var rest1;
    gap1, green, rest1 := GapDigitsSound(t);
    Uncons(rest1, ',');
    var t5 := rest1[1..];
    assert Match(Green(r), t) == Match(Blue(r, Value(green)), t5);
    gap2, blue, q := GapDigitsSound(t5);
    assert Match(Blue(r, Value(green)), t5) == Some(Rgb(r, Value(green), Value(blue)));
  }

  lemma RedSound(t: string) returns (f: Form, q: string)
    requires Match(Red, t).Some?
    ensures WellFormed(f) && Delimits(q) && t == f.red + ("," + SpellGreen(f, q))
    ensures Match(Red, t) == Some(Denotes(f))
  {
    var n1 := DigitPrefix(t);
    var red := t[..n1];
    var t3 := t[n1 + 1..];
    SplitAtComma(t, n1);
    assert Match(Red, t) == Match(Green(Value(red)), t3);
    var gap1, green, gap2, blue, rest := GreenSound(Value(red), t3);
    f := Form(false, red, gap1, green, gap2, blue);
    q := rest;
  }

  /** The head of a match: `rgb`, the optional `a`, then `(`. */
  lemma HeadSound(t: string) returns (alpha: bool, t2: string)
    requires Match(Head, t).Some?
    ensures t == "rgb" + (if alpha then "a" + ("(" + t2) else "(" + t2)
    ensures Match(Head, t) == Match(Red, t2)
  {
    alpha := |t| > 3 && t[3] == 'a';
    var u := if alpha then t[4..] else t[3..];
    assert Match(Head, t) == Match(Paren, u);
    t2 := u[1..];
    HeadShape(t, alpha);
  }

  /** The text split at the end of the head `rgba?(`. */
  lemma HeadShape(t: string, alpha: bool)
    requires |t| >= 3 && t[..3] == "rgb" && alpha == (|t| > 3 && t[3] == 'a')
    requires var u := if alpha then t[4..] else t[3..]; u != [] && u[0] == '('
    ensures var t2 := (if alpha then t[4..] else t[3..])[1..];
            t == "rgb" + (if alpha then "a" + ("(" + t2) else "(" + t2)
  {
    var rest := t[3..];
    assert t == t[..3] + rest;
    if alpha {
      Uncons(rest, 'a');
      Uncons(rest[1..], '(');
    } else {
      Uncons(rest, '(');
    }
  }

  /** The pieces around a comma are found again at their positions. */
  lemma AroundComma(a: string, b: string)
    ensures var t := a + ("," + b);
            |t| > |a| && t[..|a|] == a && t[|a|] == ',' && t[|a| + 1..] == b
  {
  }

  lemma SplitAtComma(t: string, n: nat)
    requires n < |t| && t[n] == ','
    ensures t == t[..n] + ("," + t[n + 1..])
  {
    assert t == t[..n] + t[n..];
    Uncons(t[n..], ',');
  }

  lemma Uncons(s: string, c: char)
    requires s != [] && s[0] == c
    ensures s == [c] + s[1..]
  {
  }

  /** Every match has the pattern's form: the matched text is a well-formed
      spelling followed by something that does not continue it, and the
      result is the numbers written in it. */
  lemma MatchSound(t: string) returns (f: Form, q: string)
    requires Match(Head, t).Some?
    ensures WellFormed(f) && Delimits(q) && t == Spell(f, q)
    ensures Match(Head, t) == Some(Denotes(f))
  {
    var alpha, t2 := HeadSound(t);
    var g, rest := RedSound(t2);
    f := g.(alpha := alpha);
    q := rest;
    assert SpellGreen(f, q) == SpellGreen(g, q);
  }

  /** No position in `[i, j)` of `s` starts a match. */
  predicate NoMatchIn(s: string, i: nat, j: nat)
    requires j <= |s| + 1
    decreases j - i
  {
    i >= j || (Match(Head, s[i..]).None? && NoMatchIn(s, i + 1, j))
  }

  /** The first position at or after `i` where the pattern matches: `exec`
      scans left to right and reports the leftmost match. */
  function FirstMatchFrom(s: string, i: nat): (m: Option<nat>)
    requires i <= |s|
    ensures m.Some? ==> i <= m.value <= |s| && Match(Head, s[m.value..]).Some? && NoMatchIn(s, i, m.value)
    ensures m.None? ==> NoMatchIn(s, i, |s| + 1)
    decreases |s| - i
  {
    if Match(Head, s[i..]).Some? then Some(i)
    else if i == |s| then None
    else FirstMatchFrom(s, i + 1)
  }

  lemma {:induction false} NoMatchAt(s: string, i: nat, j: nat, k: nat)
    requires j <= |s| + 1 && NoMatchIn(s, i, j) && i <= k < j
    ensures Match(Head, s[k..]).None?
    decreases k - i
  {
    if i < k {
      NoMatchAt(s, i + 1, j, k);
    }
  }

  /** `exec` reports the leftmost match: no earlier position starts one, and
      when it reports nothing, no position does. */
  lemma Leftmost(s: string, k: nat)
    requires k <= |s|
    ensures FirstMatchFrom(s, 0).Some? && k < FirstMatchFrom(s, 0).value ==> Match(Head, s[k..]).None?
    ensures FirstMatchFrom(s, 0).None? ==> Match(Head, s[k..]).None?
  {
    match FirstMatchFrom(s, 0)
    case Some(m) =>
      if k < m {
        NoMatchAt(s, 0, m, k);
      }
    case None =>
      NoMatchAt(s, 0, |s| + 1, k);
  }

  /** No position before `m` starts a match. */
  lemma NoMatchBefore(s: string, m: nat)
    requires m <= |s| + 1 && NoMatchIn(s, 0, m)
    ensures forall j :: 0 <= j < m ==> Match(Head, s[j..]).None?
  {
    forall j | 0 <= j < m
      ensures Match(Head, s[j..]).None?
    {
      NoMatchAt(s, 0, m, j);
    }
  }

  /** The groups of `/rgba?\((\d+),\s*(\d+),\s*(\d+)/.exec(s)`, read as
      numbers: those of the leftmost position where the pattern matches, or
      nothing when no position does. */
  function Exec(s: string): (r: Option<Rgb>)
    ensures r.None? ==> forall k :: 0 <= k <= |s| ==> Match(Head, s[k..]).None?
    ensures r.Some? ==> exists k :: 0 <= k <= |s| && r == Match(Head, s[k..])
                                    && forall j :: 0 <= j < k ==> Match(Head, s[j..]).None?
  {
    match FirstMatchFrom(s, 0)
    case None =>
      NoMatchBefore(s, |s| + 1);
      None
    case Some(k) =>
      NoMatchBefore(s, k);
      Match(Head, s[k..])
  }

  /** Perceptual luminance scaled by 1000, so that it stays an integer. */
  function Luminance1000(c: Rgb): nat {
    299 * c.r + 587 * c.g + 114 * c.b
  }

  /** The luminance test as the source writes it, over the rationals. */
  predicate LooksDark(c: Rgb) {
    0.299 * (c.r as real) + 0.587 * (c.g as real) + 0.114 * (c.b as real) < 140.0
  }

  /** `isColorDark`: false when the pattern finds nothing, otherwise whether
      the luminance of the colour it finds is below 140. */
  function IsColorDark(s: string): (dark: bool)
    ensures dark <==> Exec(s).Some? && LooksDark(Exec(s).value)
  {
    match Exec(s)
    case None => false
    case Some(c) =>
      ScaledThreshold(c);
      Luminance1000(c) < 140000
  }

  /** The integer test is exactly the source's decimal formula, read over
      the rationals. */
  lemma ScaledThreshold(c: Rgb)
    ensures Luminance1000(c) < 140000 <==> LooksDark(c)
  {
    assert 0.299 * (c.r as real) + 0.587 * (c.g as real) + 0.114 * (c.b as real)
        == (Luminance1000(c) as real) / 1000.0;
  }

  /** The form a browser gives a computed background colour. */
  function CssRgb(c: Rgb): string {
    "rgb(" + CssChannels(c, ")")
  }

  function CssRgba(c: Rgb, alpha: string): string {
    "rgba(" + CssChannels(c, ", " + alpha + ")")
  }

  /** The three channels as a browser writes them, followed by `rest`. */
  function CssChannels(c: Rgb, rest: string): string {
    Show(c.r) + (", " + (Show(c.g) + (", " + (Show(c.b) + rest))))
  }

  /** The channels as a browser writes them are the groups of the pattern,
      each comma followed by one space. */
  lemma CssChannelsSpell(c: Rgb, alpha: bool, rest: string) returns (f: Form)
    ensures WellFormed(f) && Denotes(f) == c
    ensures f.alpha == alpha && CssChannels(c, rest) == f.red + ("," + SpellGreen(f, rest))
  {
    ValueOfShow(c.r);
    ValueOfShow(c.g);
    ValueOfShow(c.b);
    f := Form(alpha, Show(c.r), " ", Show(c.g), " ", Show(c.b));
    CommaSpace(Show(c.b) + rest);
    CommaSpace(Show(c.g) + ("," + SpellBlue(f, rest)));
  }

  lemma CommaSpace(t: string)
    ensures ", " + t == "," + (" " + t)
  {
  }

  /** A match at the very start is the match `exec` reports. */
  lemma ExecAtStart(s: string)
    requires Match(Head, s).Some?
    ensures Exec(s) == Match(Head, s)
  {
    assert s[0..] == s;
  }

  /** Both computed forms are read back as the colour they were written from. */
  lemma ExecReadsRgb(c: Rgb)
    ensures Exec(CssRgb(c)) == Some(c)
  {
    var f := CssChannelsSpell(c, false, ")");
    assert CssRgb(c) == Spell(f, ")");
    MatchComplete(f, ")");
    ExecAtStart(CssRgb(c));
  }

  lemma ExecReadsRgba(c: Rgb, alpha: string)
    ensures Exec(CssRgba(c, alpha)) == Some(c)
  {
    var rest := ", " + alpha + ")";
    var f := CssChannelsSpell(c, true, rest);
    assert CssRgba(c, alpha) == Spell(f, rest);
    MatchComplete(f, rest);
    ExecAtStart(CssRgba(c, alpha));
  }

  /** A computed colour: `rgb(r, g, b)`, or `rgba(r, g, b, a)` with the
      alpha text `a`. */
  function CssColour(c: Rgb, alpha: Option<string>): string {
    match alpha
    case None => CssRgb(c)
    case Some(a) => CssRgba(c, a)
  }

  /** On a computed colour of either form, `isColorDark` is the source's
      luminance test on its channels, whatever the alpha. */
  lemma DarkIffLuminanceBelow140(c: Rgb, alpha: Option<string>)
    ensures IsColorDark(CssColour(c, alpha)) <==> LooksDark(c)
  {
    match alpha
    case None => ExecReadsRgb(c);
    case Some(a) => ExecReadsRgba(c, a);
  }

  const White := "rgb(255, 255, 255)"
  /** The black tint laid over light pages. */
  const TintOverLightPage := "rgba(0, 0, 0, 0.25)"
  /** The white tint laid over dark pages. */
  const TintOverDarkPage := "rgba(255, 255, 255, 0.25)"

  predicate IsTransparent(colour: string) {
    colour == "rgba(0, 0, 0, 0)" || colour == "transparent"
  }

  /** `getPageBackgroundColor`, given the computed background colours of the
      body and of the root element. */
  function PageBackgroundColor(body: string, html: string): (c: string)
    ensures !IsTransparent(c)
    ensures !IsTransparent(body) ==> c == body
    ensures IsTransparent(body) && !IsTransparent(html) ==> c == html
    ensures IsTransparent(body) && IsTransparent(html) ==> c == White
  {
    var colour := if IsTransparent(body) then html else body;
    if IsTransparent(colour) then White else colour
  }

  /** The dimming tint chosen at start-up. */
  function OverlayTint(body: string, html: string): (tint: string)
    ensures tint == TintOverDarkPage || tint == TintOverLightPage
  {
    if IsColorDark(PageBackgroundColor(body, html)) then TintOverDarkPage else TintOverLightPage
  }

  lemma ShowOf255()
    ensures Show(255) == "255"
  {
    assert Show(2) == "2";
    assert Show(25) == Show(2) + "5";
    assert Show(255) == Show(25) + "5";
  }

  /** A page whose body and root are both transparent counts as white, and
      so gets the black tint. */
  lemma TransparentPageGetsBlackTint(body: string, html: string)
    requires IsTransparent(body) && IsTransparent(html)
    ensures OverlayTint(body, html) == TintOverLightPage
  {
    WhiteIsComputed();
    DarkIffLuminanceBelow140(Rgb(255, 255, 255), None);
  }

  lemma WhiteIsComputed()
    ensures CssColour(Rgb(255, 255, 255), None) == White
  {
    ShowOf255();
  }

  /** A body with a visible computed colour decides the tint: the white tint
      exactly when that colour looks dark, whatever the root's colour. */
  lemma BodyColourDecidesTint(body: Rgb, alpha: Option<string>, html: string)
    requires !IsTransparent(CssColour(body, alpha))
    ensures OverlayTint(CssColour(body, alpha), html)
         == if LooksDark(body) then TintOverDarkPage else TintOverLightPage
  {
    DarkIffLuminanceBelow140(body, alpha);
  }

  /** Over a transparent body, the root's visible computed colour decides the
      tint in the same way. */
  lemma RootColourDecidesTint(body: string, root: Rgb, alpha: Option<string>)
    requires IsTransparent(body) && !IsTransparent(CssColour(root, alpha))
    ensures OverlayTint(body, CssColour(root, alpha))
         == if LooksDark(root) then TintOverDarkPage else TintOverLightPage
  {
    DarkIffLuminanceBelow140(root, alpha);
  }
}
