/** Colour rules of the preview renderer: the black-or-white text decision,
    the tone normalisation of a sampled background, and the shifted subtext
    colour written as a CSS `rgb(...)` string.

    Arithmetic is exact (`real`), where the program uses IEEE-754 doubles;
    `Math.round` is floor(x + 0.5). */
module Colour {

  import opened Wrappers
  import Decimal

  /** A colour as three channel numbers. The program's callers pass bytes
      (0..255); the operations themselves accept any integers. */
  datatype Rgb = Rgb(r: int, g: int, b: int)

  predicate InRange(c: Rgb) {
    0 <= c.r <= 255 && 0 <= c.g <= 255 && 0 <= c.b <= 255
  }

  /** The two values the program uses for the primary text colour,
      the strings "black" and "white". */
  datatype TextColor = Black | White

  /** Weighted channel sum with the coefficients of WCAG 2.1 relative
      luminance, applied directly to the channel values: there is no
      gamma decoding. */
  function Luminance(r: real, g: real, b: real): real {
    0.2126 * r + 0.7152 * g + 0.0722 * b
  }

  // ---------------------------------------------------------------------
  // getTextColor

  /** Black text exactly when the weighted sum over 0..255 channels is
      strictly above 128; a sum of exactly 128 gives white. */
  function GetTextColor(r: int, g: int, b: int): (t: TextColor)
    ensures t == Black <==> 2126 * r + 7152 * g + 722 * b > 1280000
  {
    if Luminance(r as real, g as real, b as real) > 128.0 then Black else White
  }

  /** All weights are positive, so brightening any channel never turns
      black text into white text. */
  lemma GetTextColorMonotone(r: int, g: int, b: int, r': int, g': int, b': int)
    requires r <= r' && g <= g' && b <= b'
    ensures GetTextColor(r, g, b) == Black ==> GetTextColor(r', g', b') == Black
    ensures GetTextColor(r', g', b') == White ==> GetTextColor(r, g, b) == White
  {
  }

  lemma GetTextColorExtremes()
    ensures GetTextColor(255, 255, 255) == Black
    ensures GetTextColor(0, 0, 0) == White
    ensures GetTextColor(128, 128, 128) == White
    ensures GetTextColor(129, 128, 128) == Black
  {
  }

  // ---------------------------------------------------------------------
  // normalizeTone

  /** Which way the tone is pushed: darkened when the normalised luminance
      is above 0.75, lightened when it is below 0.25, kept otherwise. */
  datatype ToneStep = Darken | Lighten | Keep

  /** The step for a normalised luminance. Its contract gives the choice as
      two equivalences, the form in which the lemmas below use it. */
  function ToneStepFor(luminance: real): (t: ToneStep)
    ensures t == Darken <==> luminance > 0.75
    ensures t == Lighten <==> luminance < 0.25
  {
    if luminance > 0.75 then Darken
    else if luminance < 0.25 then Lighten
    else Keep
  }

  /** The program's `factor` for each step. */
  function Factor(t: ToneStep): real {
    match t
    case Darken => 0.8
    case Lighten => 1.2
    case Keep => 1.0
  }

  /** The program's `saturation` for each step. */
  function Saturation(t: ToneStep): real {
    match t
    case Keep => 1.0
    case _ => 0.9
  }

  /** `x * factor`, spelled out per step so that every product has a
      constant operand. */
  function Scale(x: real, t: ToneStep): real {
    match t
    case Darken => x * 0.8
    case Lighten => x * 1.2
    case Keep => x * 1.0
  }

  /** `mean + (x - mean) * saturation`, spelled out per step. */
  function Desaturate(x: real, mean: real, t: ToneStep): real {
    match t
    case Keep => mean + (x - mean) * 1.0
    case _ => mean + (x - mean) * 0.9
  }

  function Min(x: real, y: real): real { if x <= y then x else y }

  function Max(x: real, y: real): real { if x >= y then x else y }

  /** `Math.min(1, Math.max(0, x))`. */
  function Clamp01(x: real): (y: real)
    ensures 0.0 <= y <= 1.0
    ensures 0.0 <= x <= 1.0 ==> y == x
    ensures x < 0.0 ==> y == 0.0
    ensures x > 1.0 ==> y == 1.0
  {
    Min(1.0, Max(0.0, x))
  }

  /** `Math.round`: the nearest integer, halves rounded up. */
  function Round(x: real): (n: int)
    ensures n as real - 0.5 <= x < n as real + 0.5
  {
    (x + 0.5).Floor
  }

  /** A 0..255 channel as a fraction of 1. */
  function Unit(v: int): real {
    v as real / 255.0
  }

  /** The step chosen for a colour, from its normalised luminance. */
  function StepOf(c: Rgb): ToneStep {
    ToneStepFor(Luminance(Unit(c.r), Unit(c.g), Unit(c.b)))
  }

  /** A channel after the brightness step: scaled, then clamped to [0, 1]. */
  function Scaled(v: int, t: ToneStep): real {
    Clamp01(Scale(Unit(v), t))
  }

  /** The mean of the three channels after the brightness step. */
  function ToneMean(c: Rgb, t: ToneStep): (mean: real)
    ensures 0.0 <= mean <= 1.0
  {
    (Scaled(c.r, t) + Scaled(c.g, t) + Scaled(c.b, t)) / 3.0
  }

  /** One output channel: blended toward the mean, back to 0..255, rounded.
      Blending a value of [0, 1] toward a mean in [0, 1] with a saturation
      in (0, 1] is a convex combination, so the result is a byte. */
  function ToneChannel(v: int, t: ToneStep, mean: real): (n: int)
    requires 0.0 <= mean <= 1.0
    ensures 0 <= n <= 255
  {
    Round(Desaturate(Scaled(v, t), mean, t) * 255.0)
  }

  /** The tone normalisation, as a function of the input colour. */
  function NormalizedTone(c: Rgb): (out: Rgb)
    ensures InRange(out)
  {
    var t := StepOf(c);
    var mean := ToneMean(c, t);
    Rgb(ToneChannel(c.r, t, mean), ToneChannel(c.g, t, mean), ToneChannel(c.b, t, mean))
  }

  /** The program's step-by-step computation, reassigning the three
      working channels as it goes. */
  method NormalizeTone(c: Rgb) returns (out: Rgb)
    ensures out == NormalizedTone(c)
    ensures InRange(out)
  {
    // normalise to 0..1
    var rf := c.r as real / 255.0;
    var gf := c.g as real / 255.0;
    var bf := c.b as real / 255.0;

    var luminance := Luminance(rf, gf, bf);

    var factor := 1.0;
    var saturation := 1.0;
    if luminance > 0.75 {
      factor := 0.8;
      saturation := 0.9;
    } else if luminance < 0.25 {
      factor := 1.2;
      saturation := 0.9;
    }
    ghost var t := StepOf(c);
    assert factor == Factor(t) && saturation == Saturation(t);

    ScaledIs(c.r, rf, factor, t);
    ScaledIs(c.g, gf, factor, t);
    ScaledIs(c.b, bf, factor, t);
    rf := Min(1.0, Max(0.0, rf * factor));
    gf := Min(1.0, Max(0.0, gf * factor));
    bf := Min(1.0, Max(0.0, bf * factor));

    var avg := (rf + gf + bf) / 3.0;

    DesaturatedIs(rf, avg, saturation, t);
    DesaturatedIs(gf, avg, saturation, t);
    DesaturatedIs(bf, avg, saturation, t);
    rf := avg + (rf - avg) * saturation;
    gf := avg + (gf - avg) * saturation;
    bf := avg + (bf - avg) * saturation;

    out := Rgb(Round(rf * 255.0), Round(gf * 255.0), Round(bf * 255.0));
    NormalizedToneFromChannels(c, rf, gf, bf);
  }

  /** NormalizedTone, given the three blended channels. */
  lemma NormalizedToneFromChannels(c: Rgb, x: real, y: real, z: real)
    requires x == Desaturate(Scaled(c.r, StepOf(c)), ToneMean(c, StepOf(c)), StepOf(c))
    requires y == Desaturate(Scaled(c.g, StepOf(c)), ToneMean(c, StepOf(c)), StepOf(c))
    requires z == Desaturate(Scaled(c.b, StepOf(c)), ToneMean(c, StepOf(c)), StepOf(c))
    ensures NormalizedTone(c) == Rgb(Round(x * 255.0), Round(y * 255.0), Round(z * 255.0))
  {
  }

  /** The program's brightness step on one channel is Scaled. */
  lemma ScaledIs(v: int, x: real, factor: real, t: ToneStep)
    requires x == v as real / 255.0 && factor == Factor(t)
    ensures Min(1.0, Max(0.0, x * factor)) == Scaled(v, t)
  {
    match t
    case Darken =>
    case Lighten =>
    case Keep =>
  }

  /** The program's saturation step on one channel is Desaturate. */
  lemma DesaturatedIs(x: real, mean: real, saturation: real, t: ToneStep)
    requires saturation == Saturation(t)
    ensures mean + (x - mean) * saturation == Desaturate(x, mean, t)
  {
    match t
    case Darken =>
    case Lighten =>
    case Keep =>
  }

  lemma Clamp01Monotone(x: real, y: real)
    requires x <= y
    ensures Clamp01(x) <= Clamp01(y)
  {
    if y < 0.0 {
    } else if x > 1.0 {
    } else {
      assert Clamp01(x) <= Max(0.0, x) <= Max(0.0, y);
    }
  }

  lemma RoundMonotone(x: real, y: real)
    requires x <= y
    ensures Round(x) <= Round(y)
  {
  }

  lemma ToneChannelMonotone(v: int, w: int, t: ToneStep, mean: real)
    requires v <= w && 0.0 <= mean <= 1.0
    ensures ToneChannel(v, t, mean) <= ToneChannel(w, t, mean)
  {
    assert Scale(Unit(v), t) <= Scale(Unit(w), t);
    Clamp01Monotone(Scale(Unit(v), t), Scale(Unit(w), t));
    var x, y := Desaturate(Scaled(v, t), mean, t), Desaturate(Scaled(w, t), mean, t);
    assert x <= y;
    RoundMonotone(x * 255.0, y * 255.0);
  }

  /** Mid-range colours (normalised luminance between 0.25 and 0.75
      inclusive) come back unchanged. */
  lemma NormalizedToneIdentityOnMidRange(c: Rgb)
    requires InRange(c)
    requires 0.25 <= Luminance(Unit(c.r), Unit(c.g), Unit(c.b)) <= 0.75
    ensures NormalizedTone(c) == c
  {
  }

  /** Scaling, clamping, blending with a positive saturation and rounding are
      all monotone, so the order between any two channels is kept. */
  lemma NormalizedToneKeepsChannelOrder(c: Rgb)
    ensures c.r <= c.g ==> NormalizedTone(c).r <= NormalizedTone(c).g
    ensures c.g <= c.r ==> NormalizedTone(c).g <= NormalizedTone(c).r
    ensures c.r <= c.b ==> NormalizedTone(c).r <= NormalizedTone(c).b
    ensures c.b <= c.r ==> NormalizedTone(c).b <= NormalizedTone(c).r
    ensures c.g <= c.b ==> NormalizedTone(c).g <= NormalizedTone(c).b
    ensures c.b <= c.g ==> NormalizedTone(c).b <= NormalizedTone(c).g
  {
    var t := StepOf(c);
    var mean := ToneMean(c, t);
    if c.r <= c.g { ToneChannelMonotone(c.r, c.g, t, mean); }
    if c.g <= c.r { ToneChannelMonotone(c.g, c.r, t, mean); }
    if c.r <= c.b { ToneChannelMonotone(c.r, c.b, t, mean); }
    if c.b <= c.r { ToneChannelMonotone(c.b, c.r, t, mean); }
    if c.g <= c.b { ToneChannelMonotone(c.g, c.b, t, mean); }
    if c.b <= c.g { ToneChannelMonotone(c.b, c.g, t, mean); }
  }

  /** A grey stays grey: blending equal channels toward their mean changes nothing. */
  lemma NormalizedToneKeepsGrey(c: Rgb)
    requires c.r == c.g == c.b
    ensures NormalizedTone(c).r == NormalizedTone(c).g == NormalizedTone(c).b
  {
  }

  /** White is darkened to a grey with factor 0.8. */
  lemma NormalizedToneOfWhite()
    ensures NormalizedTone(Rgb(255, 255, 255)) == Rgb(204, 204, 204)
  {
  }

  /** Black stays black: the 1.2 brightening is a multiplication. */
  lemma NormalizedToneOfBlack()
    ensures NormalizedTone(Rgb(0, 0, 0)) == Rgb(0, 0, 0)
  {
    assert StepOf(Rgb(0, 0, 0)) == Lighten;
    BlackChannelsStayZero();
  }

  lemma BlackChannelsStayZero()
    ensures ToneMean(Rgb(0, 0, 0), Lighten) == 0.0
    ensures ToneChannel(0, Lighten, 0.0) == 0
  {
    assert Scaled(0, Lighten) == 0.0;
    assert Desaturate(0.0, 0.0, Lighten) == 0.0;
  }

  /** A very bright colour comes out darker: its channel sum strictly drops. */
  lemma NormalizedToneDarkensBright(c: Rgb)
    requires InRange(c)
    requires Luminance(Unit(c.r), Unit(c.g), Unit(c.b)) > 0.75
    ensures NormalizedTone(c).r + NormalizedTone(c).g + NormalizedTone(c).b < c.r + c.g + c.b
  {
    assert StepOf(c) == Darken;
    var mean := ToneMean(c, Darken);
    assert Scaled(c.r, Darken) == Unit(c.r) * 0.8;
    assert Scaled(c.g, Darken) == Unit(c.g) * 0.8;
    assert Scaled(c.b, Darken) == Unit(c.b) * 0.8;
    var x := Desaturate(Scaled(c.r, Darken), mean, Darken);
    var y := Desaturate(Scaled(c.g, Darken), mean, Darken);
    var z := Desaturate(Scaled(c.b, Darken), mean, Darken);
    assert (x + y + z) * 255.0 == 0.8 * (c.r + c.g + c.b) as real;
    var out := NormalizedTone(c);
    assert out.r == Round(x * 255.0);
    assert out.g == Round(y * 255.0);
    assert out.b == Round(z * 255.0);
    assert c.r + c.g + c.b > 8;
  }

  // ---------------------------------------------------------------------
  // getSubTextColor

  /** The `adjust` helper: `Math.max(0, Math.min(255, c + amount))`. */
  function Adjust(c: int, amount: int): (v: int)
    ensures 0 <= v <= 255
    ensures 0 <= c + amount <= 255 ==> v == c + amount
    ensures c + amount < 0 ==> v == 0
    ensures c + amount > 255 ==> v == 255
  {
    var m := if 255 <= c + amount then 255 else c + amount;
    if 0 >= m then 0 else m
  }

  /** Lighten under white text, darken under black text. */
  function ToneShift(mainText: TextColor): int {
    if mainText == White then 40 else -40
  }

  /** The subtext channels, before they are written out. */
  function SubTextShade(bg: Rgb, mainText: TextColor): (s: Rgb)
    ensures InRange(s)
  {
    var shift := ToneShift(mainText);
    Rgb(Adjust(bg.r, shift), Adjust(bg.g, shift), Adjust(bg.b, shift))
  }

  /** Channels a decimal numeral can be printed for. */
  predicate NonNegative(c: Rgb) {
    0 <= c.r && 0 <= c.g && 0 <= c.b
  }

  /** A CSS colour `rgb(r, g, b)` with decimal channels. */
  function CssRgb(c: Rgb): string
    requires NonNegative(c)
  {
    "rgb(" + (Decimal.NatToString(c.r) + (", " + (Decimal.NatToString(c.g) + (", "
      + (Decimal.NatToString(c.b) + ")")))))
  }

  /** The subtext colour as the program returns it: a CSS string whose
      channels are those of SubTextShade. */
  function GetSubTextColor(bg: Rgb, mainText: TextColor): (css: string)
    ensures ParseCssRgb(css) == Some(SubTextShade(bg, mainText))
  {
    var s := SubTextShade(bg, mainText);
    CssRgbRoundTrip(s);
    CssRgb(s)
  }

  /** The rest of s after the literal lit, if s starts with it. */
  function AfterLiteral(lit: string, s: string): (r: Option<string>)
    ensures r.Some? ==> s == lit + r.value
  {
    if |lit| <= |s| && s[..|lit|] == lit then Some(s[|lit|..]) else None
  }

  /** Reads the literal lit and then a decimal number. */
  function ReadField(lit: string, s: string): Option<(nat, string)> {
    match AfterLiteral(lit, s)
    case None => None
    case Some(t) => Decimal.ReadNat(t)
  }

  /** Reads back a string of the exact form CssRgb writes. The program
      never reads the string; this reader only states, in the lemmas below,
      which colour a written string denotes. */
  function ParseCssRgb(s: string): Option<Rgb> {
    match ReadField("rgb(", s)
    case None => None
    case Some((r, s1)) =>
      match ReadField(", ", s1)
      case None => None
      case Some((g, s2)) =>
        match ReadField(", ", s2)
        case None => None
        case Some((b, s3)) =>
          if s3 == ")" then Some(Rgb(r, g, b)) else None
  }

  lemma ReadFieldOfWritten(lit: string, n: nat, rest: string)
    requires rest == [] || !Decimal.IsDigit(rest[0])
    ensures ReadField(lit, lit + (Decimal.NatToString(n) + rest)) == Some((n, rest))
  {
    var t := Decimal.NatToString(n) + rest;
    assert (lit + t)[..|lit|] == lit;
    assert (lit + t)[|lit|..] == t;
    Decimal.ReadNatOfNatToString(n, rest);
  }

  /** Reading a written colour gives the colour back. */
  lemma CssRgbRoundTrip(c: Rgb)
    requires NonNegative(c)
    ensures ParseCssRgb(CssRgb(c)) == Some(c)
  {
    var s3 := ")";
    var s2 := ", " + (Decimal.NatToString(c.b) + s3);
    var s1 := ", " + (Decimal.NatToString(c.g) + s2);
    ReadFieldOfWritten("rgb(", c.r, s1);
    ReadFieldOfWritten(", ", c.g, s2);
    ReadFieldOfWritten(", ", c.b, s3);
  }

  /** Different channel triples give different strings. */
  lemma CssRgbInjective(c: Rgb, d: Rgb)
    requires NonNegative(c) && NonNegative(d)
    requires CssRgb(c) == CssRgb(d)
    ensures c == d
  {
    CssRgbRoundTrip(c);
    CssRgbRoundTrip(d);
  }

  /** Whatever ReadField accepts is the literal, a printed number and text
      that does not start with a digit. */
  lemma ReadFieldIsWritten(lit: string, s: string)
    ensures ReadField(lit, s).Some? ==>
      var (n, rest) := ReadField(lit, s).value;
      s == lit + (Decimal.NatToString(n) + rest) && (rest == [] || !Decimal.IsDigit(rest[0]))
  {
    var a := AfterLiteral(lit, s);
    if a.Some? {
      Decimal.ReadNatIsNatToString(a.value);
    }
  }

  /** The reader accepts only what CssRgb writes: a string that reads as a
      colour is that colour's CSS string. */
  lemma ParseCssRgbIsCssRgb(s: string)
    ensures ParseCssRgb(s).Some? ==>
      NonNegative(ParseCssRgb(s).value) && s == CssRgb(ParseCssRgb(s).value)
  {
    ReadFieldIsWritten("rgb(", s);
    if ReadField("rgb(", s).Some? {
      var s1 := ReadField("rgb(", s).value.1;
      ReadFieldIsWritten(", ", s1);
      if ReadField(", ", s1).Some? {
        var s2 := ReadField(", ", s1).value.1;
        ReadFieldIsWritten(", ", s2);
      }
    }
  }

  /** The subtext colour has a single spelling: any string that reads as the
      shifted channels is the string GetSubTextColor returns. */
  lemma GetSubTextColorUnique(bg: Rgb, mainText: TextColor, s: string)
    requires ParseCssRgb(s) == Some(SubTextShade(bg, mainText))
    ensures s == GetSubTextColor(bg, mainText)
  {
    ParseCssRgbIsCssRgb(s);
  }

  /** Under white text every channel rises by 40, stopping at 255; under
      black text every channel falls by 40, stopping at 0. */
  lemma SubTextShadeDirection(bg: Rgb, mainText: TextColor)
    requires InRange(bg)
    ensures var s := SubTextShade(bg, mainText);
      mainText == White ==>
        bg.r <= s.r && bg.g <= s.g && bg.b <= s.b &&
        (s.r == bg.r + 40 || s.r == 255) &&
        (s.g == bg.g + 40 || s.g == 255) &&
        (s.b == bg.b + 40 || s.b == 255)
    ensures var s := SubTextShade(bg, mainText);
      mainText == Black ==>
        s.r <= bg.r && s.g <= bg.g && s.b <= bg.b &&
        (s.r == bg.r - 40 || s.r == 0) &&
        (s.g == bg.g - 40 || s.g == 0) &&
        (s.b == bg.b - 40 || s.b == 0)
  {
  }
}
