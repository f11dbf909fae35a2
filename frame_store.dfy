/**
 * The frame slice of src/store/slices/frameSlice.ts: the frame styles, the
 * target aspect ratio, and the canvas size derived from the screen size and
 * that ratio. Division of JavaScript numbers is modelled by exact reals.
 */
module FrameStore {
  import opened Wrappers

  datatype Size = Size(width: int, height: int)

  // ---------------------------------------------------------------------
  // Aspect-ratio text: "W:H"
  // ---------------------------------------------------------------------

  /** The pieces joined back together with the separator between them. */
  function Join(pieces: seq<string>, sep: char): string
    decreases |pieces|
  {
    if pieces == [] then ""
    else if |pieces| == 1 then pieces[0]
    else pieces[0] + [sep] + Join(pieces[1..], sep)
  }

  /** String.prototype.split with a one-character separator. */
  function Split(s: string, sep: char): (pieces: seq<string>)
    ensures |pieces| >= 1
    decreases |s|
  {
    if s == [] then [""]
    else
      var rest := Split(s[1..], sep);
      if s[0] == sep then [""] + rest else [[s[0]] + rest[0]] + rest[1..]
  }

  /** Splitting loses nothing: the pieces join back to the text, and no piece holds the separator. */
  lemma {:induction false} SplitJoin(s: string, sep: char)
    ensures Join(Split(s, sep), sep) == s
    ensures forall i :: 0 <= i < |Split(s, sep)| ==> sep !in Split(s, sep)[i]
    decreases |s|
  {
    if s != [] {
      var rest := Split(s[1..], sep);
      SplitJoin(s[1..], sep);
      var pieces := Split(s, sep);
      if s[0] == sep {
        assert pieces[1..] == rest;
        assert s == [] + [sep] + s[1..];
      } else {
        assert pieces[1..] == rest[1..];
        if |rest| == 1 {
          assert Join(pieces, sep) == [s[0]] + rest[0];
        } else {
          assert rest[0] + [sep] + Join(rest[1..], sep) == s[1..];
          assert Join(pieces, sep) == [s[0]] + rest[0] + [sep] + Join(rest[1..], sep);
        }
        assert s == [s[0]] + s[1..];
        forall i | 0 <= i < |pieces|
          ensures sep !in pieces[i]
        {
          if i > 0 { assert pieces[i] == rest[i]; }
        }
      }
    }
  }

  /** Splitting undoes joining pieces that do not hold the separator. */
  lemma {:induction false} JoinSplit(pieces: seq<string>, sep: char)
    requires |pieces| >= 1
    requires forall i :: 0 <= i < |pieces| ==> sep !in pieces[i]
    ensures Split(Join(pieces, sep), sep) == pieces
    decreases |pieces|, |pieces[0]|
  {
    var head := pieces[0];
    if head == [] {
      if |pieces| > 1 {
        JoinSplit(pieces[1..], sep);
        assert Join(pieces, sep) == [sep] + Join(pieces[1..], sep);
        assert [head] + pieces[1..] == pieces;
      }
    } else {
      var shorter := [head[1..]] + pieces[1..];
      assert sep !in head[1..] by { assert forall c :: c in head[1..] ==> c in head; }
      assert forall i :: 0 <= i < |shorter| ==> sep !in shorter[i] by {
        forall i | 0 <= i < |shorter| ensures sep !in shorter[i] {
          if i > 0 { assert shorter[i] == pieces[i]; }
        }
      }
      JoinSplit(shorter, sep);
      assert Join(pieces, sep) == [head[0]] + Join(shorter, sep) by {
        if |pieces| > 1 {
          assert shorter[1..] == pieces[1..];
          assert head == [head[0]] + head[1..];
        }
      }
      assert head[0] != sep by { assert head[0] in head; }
      assert shorter[1..] == pieces[1..];
      assert [head[0]] + shorter[0] == head;
      var j := Join(pieces, sep);
      assert j[1..] == Join(shorter, sep);
      assert [[j[0]] + Split(j[1..], sep)[0]] + Split(j[1..], sep)[1..] == pieces;
    }
  }

  predicate IsDigit(c: char)
  {
    '0' <= c <= '9'
  }

  /** A non-empty run of decimal digits. */
  predicate IsDecimal(s: string)
  {
    |s| > 0 && forall i :: 0 <= i < |s| ==> IsDigit(s[i])
  }

  /** Number(s) for a run of decimal digits. */
  function DecimalValue(s: string): nat
    requires forall i :: 0 <= i < |s| ==> IsDigit(s[i])
    decreases |s|
  {
    if s == [] then 0 else DecimalValue(s[..|s| - 1]) * 10 + DigitValue(s[|s| - 1])
  }

  function DigitValue(c: char): nat
    requires IsDigit(c)
  {
    c as int - '0' as int
  }

  /** The decimal digits of n, without leading zeros. */
  function DecimalText(n: nat): (s: string)
    ensures IsDecimal(s)
  {
    var last := ('0' as int + n % 10) as char;
    if n < 10 then [last] else DecimalText(n / 10) + [last]
  }

  lemma {:induction false} DecimalRoundTrip(n: nat)
    ensures DecimalValue(DecimalText(n)) == n
  {
    var s := DecimalText(n);
    if n >= 10 {
      DecimalRoundTrip(n / 10);
      assert s[..|s| - 1] == DecimalText(n / 10);
    }
  }

  /** The two numbers `aspectRatio.split(':').map(Number)` yields, when both pieces are decimal. */
  function ParseRatio(s: string): Option<(int, int)>
  {
    var pieces := Split(s, ':');
    if |pieces| >= 2 && IsDecimal(pieces[0]) && IsDecimal(pieces[1])
    then Some((DecimalValue(pieces[0]), DecimalValue(pieces[1])))
    else None
  }

  /** An aspect ratio of two positive whole numbers. */
  predicate PositiveRatio(s: string)
  {
    ParseRatio(s).Some? && ParseRatio(s).value.0 > 0 && ParseRatio(s).value.1 > 0
  }

  function FormatRatio(w: nat, h: nat): string
  {
    DecimalText(w) + ":" + DecimalText(h)
  }

  /** Reading a formatted ratio gives back its two numbers. */
  lemma ParseFormatRatio(w: nat, h: nat)
    ensures ParseRatio(FormatRatio(w, h)) == Some((w, h))
  {
    var a, b := DecimalText(w), DecimalText(h);
    assert ':' !in a by { assert forall c :: c in a ==> IsDigit(c); }
    assert ':' !in b by { assert forall c :: c in b ==> IsDigit(c); }
    assert Join([a, b], ':') == FormatRatio(w, h) by {
      assert [a, b][1..] == [b];
    }
    JoinSplit([a, b], ':');
    DecimalRoundTrip(w);
    DecimalRoundTrip(h);
  }

  // ---------------------------------------------------------------------
  // Canvas dimensions
  // ---------------------------------------------------------------------

  /** Math.round: the nearest integer, ties rounded toward +infinity. */
  function Round(x: real): (r: int)
    ensures x - 0.5 < r as real <= x + 0.5
  {
    (x + 0.5).Floor
  }

  /** The target is wider than the screen: ratioW/ratioH > screenW/screenH, compared by cross-multiplying. */
  predicate WiderThanScreen(screen: Size, ratioW: int, ratioH: int)
  {
    ratioW * screen.height > ratioH * screen.width
  }

  predicate PositiveSize(s: Size)
  {
    s.width > 0 && s.height > 0
  }

  /** Rounding n/d gives at most m when n/d <= m, and at least 0 when n >= 0. */
  lemma RoundedQuotientBounds(n: int, d: int, m: int)
    requires d > 0 && 0 <= n <= d * m
    ensures 0 <= Round(n as real / d as real) <= m
  {
    var q := n as real / d as real;
    assert q * d as real == n as real;
    assert q <= m as real;
    assert q >= 0.0;
  }

  /**
   * The canvas before the evenness fix: fit by width when the target is wider
   * than the screen, by height otherwise, keeping the target's aspect.
   */
  function FitToScreen(screen: Size, ratioW: int, ratioH: int): (f: Size)
    requires PositiveSize(screen) && ratioW > 0 && ratioH > 0
    ensures WiderThanScreen(screen, ratioW, ratioH) ==>
      f.width == screen.width && 0 <= f.height <= screen.height
    ensures !WiderThanScreen(screen, ratioW, ratioH) ==>
      f.height == screen.height && 0 <= f.width <= screen.width
  {
    if WiderThanScreen(screen, ratioW, ratioH) then
      RoundedQuotientBounds(screen.width * ratioH, ratioW, screen.height);
      Size(screen.width, Round((screen.width * ratioH) as real / ratioW as real))
    else
      RoundedQuotientBounds(screen.height * ratioW, ratioH, screen.width);
      Size(Round((screen.height * ratioW) as real / ratioH as real), screen.height)
  }

  /** The least even number that is not below n. */
  function MakeEven(n: int): (r: int)
    ensures r % 2 == 0 && n <= r <= n + 1
  {
    if n % 2 == 0 then n else n + 1
  }

  const Fallback: Size := Size(1920, 1080)

  /** What the solver may be given: no screen, an empty ratio, or a positive screen and ratio. */
  predicate Solvable(screen: Option<Size>, aspectRatio: string)
  {
    screen.None? || aspectRatio == "" || (PositiveSize(screen.value) && PositiveRatio(aspectRatio))
  }

  /** The canvas recalculateCanvasDimensions stores. */
  function CanvasFor(screen: Option<Size>, aspectRatio: string): (c: Size)
    requires Solvable(screen, aspectRatio)
    ensures c.width % 2 == 0 && c.height % 2 == 0
    ensures screen.None? || aspectRatio == "" ==> c == Fallback
    ensures screen.Some? && aspectRatio != "" ==>
      var ratio := ParseRatio(aspectRatio).value;
      var f := FitToScreen(screen.value, ratio.0, ratio.1);
      f.width <= c.width <= f.width + 1 && f.height <= c.height <= f.height + 1
  {
    if screen.None? || aspectRatio == "" then Fallback
    else
      var ratio := ParseRatio(aspectRatio).value;
      var f := FitToScreen(screen.value, ratio.0, ratio.1);
      Size(MakeEven(f.width), MakeEven(f.height))
  }

  /** The fitted size in the source's own arithmetic: aspect quotients compared, then divided or multiplied. */
  lemma SourceArithmeticAgrees(screen: Size, ratioW: int, ratioH: int)
    requires PositiveSize(screen) && ratioW > 0 && ratioH > 0
    ensures var screenAspect := screen.width as real / screen.height as real;
      var targetAspect := ratioW as real / ratioH as real;
      && (targetAspect > screenAspect <==> WiderThanScreen(screen, ratioW, ratioH))
      && screen.width as real / targetAspect == (screen.width * ratioH) as real / ratioW as real
      && screen.height as real * targetAspect == (screen.height * ratioW) as real / ratioH as real
  {
  }

  /** A 1920x1080 screen with a 9:16 target fits by height and gives 608x1080, as Math.round(607.5) is 608. */
  lemma PortraitOnFullHd()
    ensures ParseRatio("9:16") == Some((9, 16))
    ensures !WiderThanScreen(Size(1920, 1080), 9, 16)
    ensures FitToScreen(Size(1920, 1080), 9, 16) == Size(608, 1080)
    ensures CanvasFor(Some(Size(1920, 1080)), "9:16") == Size(608, 1080)
  {
    assert FormatRatio(9, 16) == "9:16";
    ParseFormatRatio(9, 16);
    assert (1080 * 9) as real / 16 as real == 607.5;
  }

  /** Rounding n/d gives a positive number exactly when n/d is at least one half. */
  lemma RoundedQuotientPositive(n: int, d: int)
    requires d > 0 && n >= 0
    ensures Round(n as real / d as real) > 0 <==> 2 * n >= d
  {
    var q := n as real / d as real;
    assert q * d as real == n as real;
    if 2 * n >= d {
      assert q >= 0.5;
    } else {
      assert q < 0.5;
    }
  }

  /**
   * A fitted dimension is positive exactly when the rounded quotient is at
   * least one half: 2*screenW*ratioH >= ratioW when fitting by width,
   * 2*screenH*ratioW >= ratioH when fitting by height. Otherwise it is 0.
   */
  lemma FittedPositiveWhen(screen: Size, ratioW: int, ratioH: int)
    requires PositiveSize(screen) && ratioW > 0 && ratioH > 0
    ensures var f := FitToScreen(screen, ratioW, ratioH);
      && (WiderThanScreen(screen, ratioW, ratioH) ==> (f.height > 0 <==> 2 * screen.width * ratioH >= ratioW))
      && (!WiderThanScreen(screen, ratioW, ratioH) ==> (f.width > 0 <==> 2 * screen.height * ratioW >= ratioH))
  {
    if WiderThanScreen(screen, ratioW, ratioH) {
      RoundedQuotientPositive(screen.width * ratioH, ratioW);
    } else {
      RoundedQuotientPositive(screen.height * ratioW, ratioH);
    }
  }

  /** A very wide target rounds the height to 0: 10000:1 on a 1920x1080 screen gives 1920x0. */
  lemma ExtremeRatioGivesZeroHeight()
    ensures ParseRatio("10000:1") == Some((10000, 1))
    ensures WiderThanScreen(Size(1920, 1080), 10000, 1)
    ensures CanvasFor(Some(Size(1920, 1080)), "10000:1") == Size(1920, 0)
  {
    assert FormatRatio(10000, 1) == "10000:1";
    ParseFormatRatio(10000, 1);
    FittedPositiveWhen(Size(1920, 1080), 10000, 1);
  }

  /**
   * The even bump can push the canvas past the screen: 16:9 on a 1366x767
   * screen fits by height to 1364x767, and the odd height 767 becomes 768.
   */
  lemma OddScreenSideOvershoots()
    ensures ParseRatio("16:9") == Some((16, 9))
    ensures FitToScreen(Size(1366, 767), 16, 9) == Size(1364, 767)
    ensures CanvasFor(Some(Size(1366, 767)), "16:9") == Size(1364, 768)
  {
    assert FormatRatio(16, 9) == "16:9";
    ParseFormatRatio(16, 9);
  }

  /** On a screen whose sides are both even, the canvas never exceeds the screen. */
  lemma EvenScreenContainsCanvas(screen: Size, ratio: string)
    requires PositiveSize(screen) && PositiveRatio(ratio)
    requires screen.width % 2 == 0 && screen.height % 2 == 0
    ensures CanvasFor(Some(screen), ratio).width <= screen.width
    ensures CanvasFor(Some(screen), ratio).height <= screen.height
  {
  }

  /** The initial ratio 16:9 on a 1920x1080 screen fills it exactly. */
  lemma LandscapeOnFullHd()
    ensures PositiveRatio("16:9")
    ensures CanvasFor(Some(Size(1920, 1080)), "16:9") == Size(1920, 1080)
  {
    assert FormatRatio(16, 9) == "16:9";
    ParseFormatRatio(16, 9);
    assert (1080 * 16) as real / 9 as real == 1920.0;
  }

  // ---------------------------------------------------------------------
  // The frame slice
  // ---------------------------------------------------------------------

  /** The background is carried as given; updateBackground is not part of this model. */
  datatype Background = Background(kind: string, thumbnailUrl: string, imageUrl: string)

  datatype FrameStyles = FrameStyles(
    padding: real, background: Background, borderRadius: real,
    shadowBlur: real, shadowOffsetX: real, shadowOffsetY: real, shadowColor: string,
    borderWidth: real, borderColor: string)

  /** Partial<Omit<FrameStyles, 'background'>>. */
  datatype FrameStylePatch = FrameStylePatch(
    padding: Option<real>, borderRadius: Option<real>,
    shadowBlur: Option<real>, shadowOffsetX: Option<real>, shadowOffsetY: Option<real>, shadowColor: Option<string>,
    borderWidth: Option<real>, borderColor: Option<string>)

  /** A known screen is positive, and the ratio is empty or two positive whole numbers. */
  predicate ValidInputs(screen: Option<Size>, aspectRatio: string)
  {
    && (screen.Some? ==> PositiveSize(screen.value))
    && (aspectRatio == "" || PositiveRatio(aspectRatio))
  }

  class FrameState {
    var frameStyles: FrameStyles
    var aspectRatio: string
    /** Owned by another slice of the store; read here. */
    var screenSize: Option<Size>
    var canvasDimensions: Size

    /** The screen size and ratio are ones the canvas solver accepts. */
    ghost predicate Valid()
      reads this
    {
      ValidInputs(screenSize, aspectRatio)
    }

    /** initialFrameState: the given styles and the ratio 16:9. */
    constructor (styles: FrameStyles, screen: Option<Size>, canvas: Size)
      requires screen.Some? ==> PositiveSize(screen.value)
      ensures Valid()
      ensures frameStyles == styles && aspectRatio == "16:9"
      ensures screenSize == screen && canvasDimensions == canvas
    {
      frameStyles := styles;
      aspectRatio := "16:9";
      screenSize := screen;
      canvasDimensions := canvas;
      LandscapeOnFullHd();
    }

    /** recalculateCanvasDimensions: only the canvas changes, and it is CanvasFor of the screen and ratio. */
    method RecalculateCanvasDimensions()
      requires Valid()
      modifies this`canvasDimensions
      ensures Valid()
      ensures canvasDimensions == CanvasFor(screenSize, aspectRatio)
    {
      if screenSize.None? || aspectRatio == "" {
        canvasDimensions := Size(1920, 1080);
        return;
      }
      var screenWidth, screenHeight := screenSize.value.width, screenSize.value.height;
      var ratio := ParseRatio(aspectRatio).value;
      var ratioW, ratioH := ratio.0, ratio.1;
      var screenAspectRatio := screenWidth as real / screenHeight as real;
      var targetAspectRatio := ratioW as real / ratioH as real;
      SourceArithmeticAgrees(screenSize.value, ratioW, ratioH);
      ghost var fitted := FitToScreen(screenSize.value, ratioW, ratioH);

      var canvasWidth, canvasHeight;
      if targetAspectRatio > screenAspectRatio {
        canvasWidth := screenWidth;
        canvasHeight := Round(screenWidth as real / targetAspectRatio);
      } else {
        canvasHeight := screenHeight;
        canvasWidth := Round(screenHeight as real * targetAspectRatio);
      }
      assert canvasWidth == fitted.width && canvasHeight == fitted.height;

      canvasDimensions := Size(
        if canvasWidth % 2 == 0 then canvasWidth else canvasWidth + 1,
        if canvasHeight % 2 == 0 then canvasHeight else canvasHeight + 1);
    }

    /** setAspectRatio: store the ratio, then recompute the canvas from it. */
    method SetAspectRatio(ratio: string)
      requires Valid()
      requires ratio == "" || PositiveRatio(ratio)
      modifies this`aspectRatio, this`canvasDimensions
      ensures Valid()
      ensures aspectRatio == ratio
      ensures canvasDimensions == CanvasFor(screenSize, ratio)
      ensures frameStyles == old(frameStyles) && screenSize == old(screenSize)
    {
      aspectRatio := ratio;
      RecalculateCanvasDimensions();
    }

    /** updateFrameStyle: the supplied fields are written; the background, ratio and canvas are untouched. */
    method UpdateFrameStyle(p: FrameStylePatch)
      requires Valid()
      modifies this`frameStyles
      ensures Valid()
      ensures frameStyles.background == old(frameStyles.background)
      ensures frameStyles.padding == OrElse(p.padding, old(frameStyles.padding))
      ensures frameStyles.borderRadius == OrElse(p.borderRadius, old(frameStyles.borderRadius))
      ensures frameStyles.shadowBlur == OrElse(p.shadowBlur, old(frameStyles.shadowBlur))
      ensures frameStyles.shadowOffsetX == OrElse(p.shadowOffsetX, old(frameStyles.shadowOffsetX))
      ensures frameStyles.shadowOffsetY == OrElse(p.shadowOffsetY, old(frameStyles.shadowOffsetY))
      ensures frameStyles.shadowColor == OrElse(p.shadowColor, old(frameStyles.shadowColor))
      ensures frameStyles.borderWidth == OrElse(p.borderWidth, old(frameStyles.borderWidth))
      ensures frameStyles.borderColor == OrElse(p.borderColor, old(frameStyles.borderColor))
    {
      if p.padding.Some? { frameStyles := frameStyles.(padding := p.padding.value); }
      if p.borderRadius.Some? { frameStyles := frameStyles.(borderRadius := p.borderRadius.value); }
      if p.shadowBlur.Some? { frameStyles := frameStyles.(shadowBlur := p.shadowBlur.value); }
      if p.shadowOffsetX.Some? { frameStyles := frameStyles.(shadowOffsetX := p.shadowOffsetX.value); }
      if p.shadowOffsetY.Some? { frameStyles := frameStyles.(shadowOffsetY := p.shadowOffsetY.value); }
      if p.shadowColor.Some? { frameStyles := frameStyles.(shadowColor := p.shadowColor.value); }
      if p.borderWidth.Some? { frameStyles := frameStyles.(borderWidth := p.borderWidth.value); }
      if p.borderColor.Some? { frameStyles := frameStyles.(borderColor := p.borderColor.value); }
    }
  }

  /** Recomputing the canvas a second time changes nothing: it depends only on the screen and the ratio. */
  method RecalculateIsIdempotent(f: FrameState) returns (first: Size, second: Size)
    requires f.Valid()
    modifies f
    ensures first == second && second == f.canvasDimensions
  {
    f.RecalculateCanvasDimensions();
    first := f.canvasDimensions;
    f.RecalculateCanvasDimensions();
    second := f.canvasDimensions;
  }
}
