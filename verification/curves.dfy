/** The shaping curves of `createSmoothCurve` (public/js/knob.js): one
    control value in [0,1] bent by one of ten named curves, so that the
    effects of the engine start at different points of the knob's travel. */
module Curves {
  import opened Numeric
  import opened Host

  datatype Curve =
    | Exponential | Logarithmic | Smooth | Gentle | Inverse
    | AudioTaper | Musical | Aggressive | Stepped | Linear

  /** The name the engine passes for each curve. */
  function Name(c: Curve): string {
    match c
    case Exponential => "exponential"
    case Logarithmic => "logarithmic"
    case Smooth => "smooth"
    case Gentle => "gentle"
    case Inverse => "inverse"
    case AudioTaper => "audio_taper"
    case Musical => "musical"
    case Aggressive => "aggressive"
    case Stepped => "stepped"
    case Linear => "linear"
  }

  const KnownNames: set<string> :=
    {"exponential", "logarithmic", "smooth", "gentle", "inverse",
     "audio_taper", "musical", "aggressive", "stepped", "linear"}

  /** The `switch` on the curve name: an unknown name falls through to the
      `default:` arm, which shares its body with "linear". */
  function Named(name: string): (c: Curve)
    ensures name !in KnownNames ==> c == Linear
    ensures name in KnownNames ==> Name(c) == name
  {
    if name == "exponential" then Exponential
    else if name == "logarithmic" then Logarithmic
    else if name == "smooth" then Smooth
    else if name == "gentle" then Gentle
    else if name == "inverse" then Inverse
    else if name == "audio_taper" then AudioTaper
    else if name == "musical" then Musical
    else if name == "aggressive" then Aggressive
    else if name == "stepped" then Stepped
    else Linear
  }

  /** Looking a curve up by its own name finds it again. */
  lemma NamedName(c: Curve)
    ensures Named(Name(c)) == c
    ensures Name(c) in KnownNames
  {
  }

  /** Smoothstep, x^3 (6x^2 - 15x + 10), written as the source nests it. */
  function SmoothStep(x: real): real {
    x * x * x * (x * (x * 6.0 - 15.0) + 10.0)
  }

  /** x (2 - x/2): rises to 1.5, not 1, at x = 1. */
  function GentleRise(x: real): real {
    x * (2.0 - x * 0.5)
  }

  /** 1 - (1 - x)^2; `Math.pow` with exponent 2 is the square. */
  function InverseSquare(x: real): real {
    1.0 - (1.0 - x) * (1.0 - x)
  }

  /** floor(8x) / 8. */
  function Staircase(x: real): real {
    (x * 8.0).Floor as real / 8.0
  }

  /** 0 below 0.1, then the square root of the rescaled remainder. */
  function AggressiveRise(x: real, m: MathLib): real {
    if x < 0.1 then 0.0 else m.pow((x - 0.1) / 0.9, 0.5)
  }

  /** log10(1 + 9x), divided by 1 ("logarithmic") or by log10 10
      ("audio_taper"). */
  function LogRise(x: real, m: MathLib): real {
    m.log10(1.0 + x * 9.0)
  }

  /** The largest value each curve reaches on [0,1]. */
  function Ceiling(c: Curve): real {
    if c == Gentle then 1.5 else 1.0
  }

  /** The value of each curve at an already clamped x. */
  function Shape(c: Curve, x: real, m: MathLib): real
    requires 0.0 <= x <= 1.0
  {
    match c
    case Exponential => m.pow(x, 2.2)
    case Logarithmic => if x == 0.0 then 0.0 else LogRise(x, m) / 1.0
    case Smooth => SmoothStep(x)
    case Gentle => GentleRise(x)
    case Inverse => InverseSquare(x)
    case AudioTaper => LogRise(x, m) / m.log10(10.0)
    case Musical => m.pow(x, 1.5)
    case Aggressive => AggressiveRise(x, m)
    case Stepped => Staircase(x)
    case Linear => x
  }

  /** `createSmoothCurve(input, name)`: clamp the input to [0,1] first, then
      shape it. Every curve is silent at 0 and reaches its ceiling at 1,
      and every one stays within [0, ceiling]. */
  function Eval(c: Curve, input: real, m: MathLib): (r: real)
    ensures 0.0 <= r <= Ceiling(c)
    ensures input <= 0.0 ==> r == 0.0
    ensures 1.0 <= input ==> r == Ceiling(c)
    ensures c == Aggressive && input < 0.1 ==> r == 0.0
  {
    var x := Clamp01(input);
    ShapeRange(c, x, m);
    Shape(c, x, m)
  }

  /** Each curve stays within [0, ceiling] on [0,1], is 0 at 0 and reaches
      its ceiling at 1; the aggressive curve is silent below 0.1. */
  lemma ShapeRange(c: Curve, x: real, m: MathLib)
    requires 0.0 <= x <= 1.0
    ensures 0.0 <= Shape(c, x, m) <= Ceiling(c)
    ensures x == 0.0 ==> Shape(c, x, m) == 0.0
    ensures x == 1.0 ==> Shape(c, x, m) == Ceiling(c)
    ensures c == Aggressive && x < 0.1 ==> Shape(c, x, m) == 0.0
  {
    ShapeBounds(c, x, m);
    ShapeEnds(c, x, m);
  }

  lemma ShapeBounds(c: Curve, x: real, m: MathLib)
    requires 0.0 <= x <= 1.0
    ensures 0.0 <= Shape(c, x, m) <= Ceiling(c)
  {
    match c
    case Exponential => PowRange(x, 2.2, m);
    case Logarithmic => LogRange(x, m);
    case Smooth => SmoothRange(x);
    case Gentle => GentleRange(x);
    case Inverse => InverseRange(x);
    case AudioTaper => LogRange(x, m);
    case Musical => PowRange(x, 1.5, m);
    case Aggressive => AggressiveRange(x, m);
    case Stepped => StaircaseRange(x);
    case Linear =>
  }

  lemma ShapeEnds(c: Curve, x: real, m: MathLib)
    requires 0.0 <= x <= 1.0
    ensures x == 0.0 ==> Shape(c, x, m) == 0.0
    ensures x == 1.0 ==> Shape(c, x, m) == Ceiling(c)
    ensures c == Aggressive && x < 0.1 ==> Shape(c, x, m) == 0.0
  {
    ShapeAtZero(c, m);
    ShapeAtOne(c, m);
    if c == Aggressive && x < 0.1 {
      assert Shape(c, x, m) == AggressiveRise(x, m);
    }
  }

  lemma ShapeAtZero(c: Curve, m: MathLib)
    ensures Shape(c, 0.0, m) == 0.0
  {
    match c
    case Exponential => PowRange(0.0, 2.2, m);
    case Logarithmic =>
    case Smooth =>
    case Gentle =>
    case Inverse =>
    case AudioTaper => LogRange(0.0, m);
    case Musical => PowRange(0.0, 1.5, m);
    case Aggressive =>
    case Stepped =>
    case Linear =>
  }

  lemma ShapeAtOne(c: Curve, m: MathLib)
    ensures Shape(c, 1.0, m) == Ceiling(c)
  {
    match c
    case Exponential => PowRange(1.0, 2.2, m);
    case Logarithmic => LogRange(1.0, m);
    case Smooth =>
    case Gentle =>
    case Inverse =>
    case AudioTaper => LogRange(1.0, m);
    case Musical => PowRange(1.0, 1.5, m);
    case Aggressive => AggressiveRange(1.0, m);
    case Stepped =>
    case Linear =>
  }

  lemma PowRange(x: real, e: real, m: MathLib)
    requires 0.0 <= x <= 1.0 && 0.0 < e
    ensures 0.0 <= m.pow(x, e) <= 1.0
    ensures x == 0.0 ==> m.pow(x, e) == 0.0
    ensures x == 1.0 ==> m.pow(x, e) == 1.0
  {
  }

  lemma LogRange(x: real, m: MathLib)
    requires 0.0 <= x <= 1.0
    ensures 0.0 <= LogRise(x, m) <= 1.0
    ensures x == 0.0 ==> LogRise(x, m) == 0.0
    ensures x == 1.0 ==> LogRise(x, m) == 1.0
  {
    assert 1.0 <= 1.0 + x * 9.0 <= 10.0;
  }

  lemma AggressiveRange(x: real, m: MathLib)
    requires 0.0 <= x <= 1.0
    ensures 0.0 <= AggressiveRise(x, m) <= 1.0
    ensures x == 1.0 ==> AggressiveRise(x, m) == 1.0
  {
    if x >= 0.1 {
      var y := (x - 0.1) / 0.9;
      assert 0.0 <= y <= 1.0;
      assert x == 1.0 ==> y == 1.0;
    }
  }

  lemma GentleRange(x: real)
    requires 0.0 <= x <= 1.0
    ensures 0.0 <= GentleRise(x) <= 1.5
    ensures GentleRise(0.0) == 0.0 && GentleRise(1.0) == 1.5
  {
    NonnegProduct(x, 2.0 - x * 0.5);
    NonnegProduct(1.0 - x, 1.5 - x * 0.5);
    assert 1.5 - GentleRise(x) == (1.0 - x) * (1.5 - x * 0.5);
  }

  lemma InverseRange(x: real)
    requires 0.0 <= x <= 1.0
    ensures 0.0 <= InverseSquare(x) <= 1.0
    ensures InverseSquare(0.0) == 0.0 && InverseSquare(1.0) == 1.0
  {
    NonnegProduct(1.0 - x, 1.0 - x);
    NonnegProduct(x, 2.0 - x);
    assert InverseSquare(x) == x * (2.0 - x);
  }

  /** The curve is the same whether the caller clamps first or not. */
  lemma EvalClamped(c: Curve, input: real, m: MathLib)
    ensures Eval(c, input, m) == Eval(c, Clamp01(input), m)
  {
  }

  /** Dispatching on a name: any string outside the ten names shapes like
      "linear", i.e. it is the clamp itself. */
  lemma UnknownNameIsLinear(name: string, input: real, m: MathLib)
    requires name !in KnownNames
    ensures Eval(Named(name), input, m) == Clamp01(input)
  {
  }

  /** With log10 1 = 0 and log10 10 = 1, the two logarithmic curves agree. */
  lemma LogarithmicIsAudioTaper(input: real, m: MathLib)
    ensures Eval(Logarithmic, input, m) == Eval(AudioTaper, input, m)
  {
  }

  /** Smoothstep maps [0,1] onto [0,1] with fixed ends. */
  lemma SmoothRange(x: real)
    requires 0.0 <= x <= 1.0
    ensures 0.0 <= SmoothStep(x) <= 1.0
    ensures SmoothStep(0.0) == 0.0 && SmoothStep(1.0) == 1.0
  {
    // 6x^2 - 15x + 10 has no real root, and S(x) + S(1 - x) = 1.
    var y := 1.0 - x;
    assert x * (x * 6.0 - 15.0) + 10.0 > 0.0 by {
      assert x * (x * 6.0 - 15.0) + 10.0 == 6.0 * (x - 1.25) * (x - 1.25) + 0.625;
    }
    assert y * (y * 6.0 - 15.0) + 10.0 > 0.0 by {
      assert y * (y * 6.0 - 15.0) + 10.0 == 6.0 * (y - 1.25) * (y - 1.25) + 0.625;
    }
    Cube(x);
    Cube(y);
    NonnegProduct(x * x * x, x * (x * 6.0 - 15.0) + 10.0);
    NonnegProduct(y * y * y, y * (y * 6.0 - 15.0) + 10.0);
    assert SmoothStep(x) + SmoothStep(y) == 1.0;
  }

  lemma Cube(x: real)
    requires 0.0 <= x
    ensures 0.0 <= x * x * x
  {
    NonnegProduct(x, x);
    NonnegProduct(x * x, x);
  }

  lemma NonnegProduct(a: real, b: real)
    requires 0.0 <= a && 0.0 <= b
    ensures 0.0 <= a * b
  {
  }

  /** floor(8x)/8 stays in [0,1] on [0,1] and is a whole number of eighths. */
  lemma StaircaseRange(x: real)
    requires 0.0 <= x <= 1.0
    ensures 0.0 <= Staircase(x) <= 1.0
    ensures (Staircase(x) * 8.0).Floor as real == Staircase(x) * 8.0
  {
  }

  /** Smoothstep is nondecreasing on [0,1]. With s = a + b and d = b - a,
      S(b) - S(a) = d * Q where
      Q = 15/8 (s(2 - s))^2 + d^2/4 (15 (s - 1)^2 - 5 + 6 d^2/4),
      and s(2 - s) >= d on the unit square makes Q nonnegative. */
  lemma SmoothMonotone(a: real, b: real)
    requires 0.0 <= a <= b <= 1.0
    ensures SmoothStep(a) <= SmoothStep(b)
  {
    var s := a + b;
    var d := b - a;
    var w := s * (2.0 - s);
    assert w >= d by {
      if s <= 1.0 {
        assert 2.0 - s >= 1.0;
        NonnegProduct(s, 1.0 - s);
        assert w == s + s * (1.0 - s);
      } else {
        assert s >= 1.0;
        NonnegProduct(s - 1.0, 2.0 - s);
        assert w == (2.0 - s) + (s - 1.0) * (2.0 - s);
      }
    }
    var q := d * d / 4.0;
    var Q := 15.0 / 8.0 * w * w + q * (15.0 * (s - 1.0) * (s - 1.0) - 5.0 + 6.0 * q);
    assert w * w >= d * d by {
      NonnegProduct(w - d, w + d);
      assert w * w - d * d == (w - d) * (w + d);
    }
    NonnegProduct(q, 15.0 * (s - 1.0) * (s - 1.0) + 6.0 * q);
    assert Q >= 15.0 / 8.0 * d * d - 5.0 * q;
    assert Q >= 0.0;
    NonnegProduct(d, Q);
    assert SmoothStep(b) - SmoothStep(a) == d * Q;
  }

  /** gentle and inverse are nondecreasing on [0,1]. */
  lemma GentleMonotone(a: real, b: real)
    requires 0.0 <= a <= b <= 1.0
    ensures GentleRise(a) <= GentleRise(b)
  {
    NonnegProduct(b - a, 2.0 - 0.5 * (a + b));
    assert GentleRise(b) - GentleRise(a) == (b - a) * (2.0 - 0.5 * (a + b));
  }

  lemma InverseMonotone(a: real, b: real)
    requires 0.0 <= a <= b <= 1.0
    ensures InverseSquare(a) <= InverseSquare(b)
  {
    NonnegProduct(b - a, 2.0 - (a + b));
    assert InverseSquare(b) - InverseSquare(a) == (b - a) * (2.0 - (a + b));
  }

  lemma StaircaseMonotone(a: real, b: real)
    requires a <= b
    ensures Staircase(a) <= Staircase(b)
  {
    assert (a * 8.0).Floor <= (b * 8.0).Floor;
  }

  /** The five curves computed exactly (linear, smooth, gentle, inverse,
      stepped) are nondecreasing in the control value, before or after
      clamping. */
  lemma EvalMonotone(c: Curve, a: real, b: real, m: MathLib)
    requires c == Linear || c == Smooth || c == Gentle || c == Inverse || c == Stepped
    requires a <= b
    ensures Eval(c, a, m) <= Eval(c, b, m)
  {
    var x, y := Clamp01(a), Clamp01(b);
    assert x <= y;
    match c
    case Smooth => SmoothMonotone(x, y);
    case Gentle => GentleMonotone(x, y);
    case Inverse => InverseMonotone(x, y);
    case Stepped => StaircaseMonotone(x, y);
    case Linear =>
  }
}
