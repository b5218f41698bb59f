/** Arithmetic shared by the control path and the worklets: the clamps,
    JavaScript's `Math.round`, the `%` operator on numbers, and the
    round-to-step quantiser used by both bit crushers. */
module Numeric {

  function Abs(x: real): real {
    if x < 0.0 then -x else x
  }

  function Max(a: real, b: real): real {
    if a < b then b else a
  }

  function Min(a: real, b: real): real {
    if a < b then a else b
  }

  /** `Math.max(0, Math.min(1, x))`. */
  function Clamp01(x: real): (r: real)
    ensures 0.0 <= r <= 1.0
    ensures 0.0 <= x <= 1.0 ==> r == x
    ensures x <= 0.0 ==> r == 0.0
    ensures 1.0 <= x ==> r == 1.0
  {
    Max(0.0, Min(1.0, x))
  }

  /** `Math.floor`. */
  function Floor(x: real): int {
    x.Floor
  }

  /** `Math.round`, which rounds halves upwards: floor(v + 1/2). */
  function Round(v: real): (k: int)
    ensures v - 0.5 < k as real <= v + 0.5
  {
    (v + 0.5).Floor
  }

  /** Rounding an integer gives it back. */
  lemma RoundIntegral(k: int)
    ensures Round(k as real) == k
  {
  }

  /** `Math.round(v * step) / step`: the nearest point of the grid of
      multiples of 1/step, halves going up. */
  function Quantize(v: real, step: real): (q: real)
    requires step > 0.0
  {
    Round(v * step) as real / step
  }

  /** A quantised value is a grid point: q * step is an integer. */
  lemma QuantizeOnGrid(v: real, step: real)
    requires step > 0.0
    ensures Quantize(v, step) * step == Round(v * step) as real
  {
  }

  /** Re-quantising at the same step changes nothing. */
  lemma QuantizeIdempotent(v: real, step: real)
    requires step > 0.0
    ensures Quantize(Quantize(v, step), step) == Quantize(v, step)
  {
    var k := Round(v * step);
    QuantizeOnGrid(v, step);
    RoundIntegral(k);
  }

  /** The quantisation error is at most half a step. */
  lemma QuantizeError(v: real, step: real)
    requires step > 0.0
    ensures Abs(Quantize(v, step) - v) <= 0.5 / step
  {
    var k := Round(v * step) as real;
    var e := k - v * step;
    assert -0.5 <= e <= 0.5;
    assert Quantize(v, step) - v == e / step;
    DivideBound(e, step);
  }

  /** Dividing by a positive number keeps a bound on the magnitude. */
  lemma DivideBound(e: real, s: real)
    requires s > 0.0 && -0.5 <= e <= 0.5
    ensures -0.5 / s <= e / s <= 0.5 / s
  {
    DivideUpper(e, s);
    DivideUpper(-e, s);
    assert (-e) / s == -(e / s);
  }

  lemma DivideUpper(e: real, s: real)
    requires s > 0.0 && e <= 0.5
    ensures e / s <= 0.5 / s
  {
    var d, hi := e / s, 0.5 / s;
    assert d * s == e;
    assert hi * s == 0.5;
    if d > hi { ScaleStrict(hi, d, s); }
  }

  /** x added to itself n times: the accumulated advance of a phase that
      steps by x per sample. */
  function Repeat(x: real, n: nat): real {
    if n == 0 then 0.0 else Repeat(x, n - 1) + x
  }

  lemma {:induction false} RepeatIsProduct(x: real, n: nat)
    ensures Repeat(x, n) == x * n as real
  {
    if n > 0 {
      RepeatIsProduct(x, n - 1);
      assert x * n as real == x * (n - 1) as real + x;
    }
  }

  lemma {:induction false} RepeatAdd(x: real, a: nat, b: nat)
    ensures Repeat(x, a + b) == Repeat(x, a) + Repeat(x, b)
    decreases b
  {
    if b > 0 {
      RepeatAdd(x, a, b - 1);
    }
  }

  /** Truncation toward zero, as JavaScript's `%` uses for its quotient. */
  function Trunc(x: real): int {
    if x >= 0.0 then x.Floor else -((-x).Floor)
  }

  /** JavaScript's `a % n` on numbers: the remainder of truncating
      division, which carries the sign of `a`. */
  function FRem(a: real, n: real): (r: real)
    requires n > 0.0
    ensures 0.0 <= a ==> 0.0 <= r < n
  {
    RemainderBounds(a, n);
    a - n * Trunc(a / n) as real
  }

  /** For a nonnegative dividend, the part of the quotient that truncation
      drops, scaled back by the divisor, is in [0, divisor). */
  lemma RemainderBounds(a: real, n: real)
    requires n > 0.0
    ensures 0.0 <= a ==> 0.0 <= a - n * Trunc(a / n) as real < n
  {
    var q := a / n;
    assert q * n == a;
    ScaledFraction(a, n, q, Trunc(q) as real);
  }

  lemma ScaledFraction(a: real, n: real, q: real, t: real)
    requires n > 0.0 && q * n == a && t == Trunc(q) as real
    ensures 0.0 <= a ==> 0.0 <= a - n * t < n
  {
    if 0.0 <= a {
      NonnegRemainder(a, n, q, t);
    }
  }

  lemma NonnegRemainder(a: real, n: real, q: real, t: real)
    requires n > 0.0 && q * n == a && t == Trunc(q) as real && 0.0 <= a
    ensures 0.0 <= a - n * t < n
  {
    if q < 0.0 {
      ScaleStrict(q, 0.0, n);
    }
    assert q >= 0.0;
    var u := q - t;
    var un := u * n;
    assert a - n * t == un by { Distribute(a, n, q, t, u); }
    ScaleStrict(u, 1.0, n);
    ScaleWeak(0.0, u, n);
  }

  lemma Distribute(a: real, n: real, q: real, t: real, u: real)
    requires q * n == a && u == q - t
    ensures a - n * t == u * n
  {
  }

  /** Multiplying by a positive number keeps an order. */
  lemma ScaleWeak(x: real, y: real, n: real)
    requires x <= y && n > 0.0
    ensures x * n <= y * n
  {
  }

  /** Multiplying by a positive number keeps a strict order. */
  lemma ScaleStrict(x: real, y: real, n: real)
    requires x < y && n > 0.0
    ensures x * n < y * n
  {
  }

  /** A factor of magnitude at most one scales a nonnegative number down. */
  lemma UnitScale(l: real, i: real)
    requires -1.0 <= l <= 1.0 && 0.0 <= i
    ensures -i <= l * i <= i
  {
    if i > 0.0 {
      ScaleWeak(l, 1.0, i);
      ScaleWeak(-1.0, l, i);
    }
  }

  /** A sequence is its head followed by its tail; stated once here so that
      proofs need not rebuild the equality in a large context. */
  lemma HeadAndTail<T>(xs: seq<T>, y: T, ys: seq<T>)
    requires 0 < |xs| && y == xs[0] && ys == xs[1..]
    ensures [y] + ys == xs
  {
  }

  /** The first element and the rest of a concatenation whose first part is
      not empty. */
  lemma HeadOfAppend<T>(xs: seq<T>, ys: seq<T>)
    requires 0 < |xs|
    ensures (xs + ys)[0] == xs[0] && (xs + ys)[1..] == xs[1..] + ys
  {
  }

  /** Putting an element in front of a concatenation. */
  lemma ConsAppend<T>(x: T, p: seq<T>, q: seq<T>)
    ensures [x] + (p + q) == ([x] + p) + q
  {
  }

  /** The product `f * d`, as one term, so that bounds on it combine with
      sums by linear reasoning alone. */
  function Scale(f: real, d: real): real {
    f * d
  }

  /** A fraction in [0, 1] of a number lies between 0 and that number. */
  lemma ScaleBetween(f: real, d: real)
    ensures 0.0 <= f <= 1.0 && 0.0 <= d ==> 0.0 <= Scale(f, d) <= d
    ensures 0.0 <= f <= 1.0 && d <= 0.0 ==> d <= Scale(f, d) <= 0.0
    ensures f == 0.0 ==> Scale(f, d) == 0.0
  {
    if 0.0 <= f <= 1.0 && 0.0 <= d {
      FractionOfNonneg(f, d);
    }
    if 0.0 <= f <= 1.0 && d <= 0.0 {
      FractionOfNonpos(f, d);
    }
  }

  lemma FractionOfNonneg(f: real, d: real)
    requires 0.0 <= f <= 1.0 && 0.0 <= d
    ensures 0.0 <= f * d <= d
  {
  }

  lemma FractionOfNonpos(f: real, d: real)
    requires 0.0 <= f <= 1.0 && d <= 0.0
    ensures d <= f * d <= 0.0
  {
  }

  /** A product of nonnegative numbers is nonnegative. */
  lemma ProductNonneg(a: real, b: real)
    requires 0.0 <= a && 0.0 <= b
    ensures 0.0 <= a * b
  {
    if b > 0.0 { ScaleWeak(0.0, a, b); }
  }

  /** Below twice the divisor, `%` subtracts the divisor at most once. */
  lemma FRemBelowTwice(a: real, n: real)
    requires n > 0.0 && 0.0 <= a < 2.0 * n
    ensures FRem(a, n) == if a < n then a else a - n
  {
    if a < n {
      QuotientBelow(a, n, 1.0);
      QuotientAtLeast(a, n, 0.0);
      assert Trunc(a / n) == 0;
    } else {
      QuotientBelow(a, n, 2.0);
      QuotientAtLeast(a, n, 1.0);
      assert Trunc(a / n) == 1;
    }
  }

  lemma QuotientBelow(a: real, n: real, k: real)
    requires n > 0.0 && a < k * n
    ensures a / n < k
  {
    var q := a / n;
    assert q * n == a;
    if q >= k { ScaleWeak(k, q, n); }
  }

  lemma QuotientAtLeast(a: real, n: real, k: real)
    requires n > 0.0 && k * n <= a
    ensures k <= a / n
  {
    var q := a / n;
    assert q * n == a;
    if q < k { ScaleStrict(q, k, n); }
  }
}

/** What the processors and the engine receive from the host: the random
    source and the transcendental functions of `Math`, which the model does
    not compute. Each is a parameter whose TYPE carries the only facts the
    proofs use about it. */
module Host {

  /** A value `Math.random()` may return. */
  type Unit = r: real | 0.0 <= r < 1.0

  /** The successive results of `Math.random()`: the k-th call returns
      `draw(k)`. Operations take a cursor into the stream and return the
      cursor after the draws they made. */
  type RandomStream = nat -> Unit

  /** Laws of `Math.pow(x, e)` used here: on [0,1] with a positive exponent
      it stays in [0,1] and fixes 0 and 1, and a power of two is positive. */
  ghost predicate PowLaws(f: (real, real) -> real) {
    && (forall x, e :: 0.0 <= x <= 1.0 && 0.0 < e ==> 0.0 <= f(x, e) <= 1.0)
    && (forall e :: 0.0 < e ==> f(0.0, e) == 0.0 && f(1.0, e) == 1.0)
    && (forall e :: f(2.0, e) > 0.0)
  }

  type Pow = f: (real, real) -> real | PowLaws(f)
    witness (x: real, e: real) => if x == 2.0 then 1.0 else if x <= 0.0 then 0.0 else if x >= 1.0 then 1.0 else x

  /** Laws of `Math.log10` used here: log10 1 = 0, log10 10 = 1, and values
      in between for arguments in between. */
  ghost predicate Log10Laws(f: real -> real) {
    && (forall y :: 1.0 <= y <= 10.0 ==> 0.0 <= f(y) <= 1.0)
    && f(1.0) == 0.0
    && f(10.0) == 1.0
  }

  type Log10 = f: real -> real | Log10Laws(f)
    witness (y: real) => if y <= 1.0 then 0.0 else if y >= 10.0 then 1.0 else (y - 1.0) / 9.0

  /** `Math.sin`: bounded by one in magnitude. */
  ghost predicate SineLaws(f: real -> real) {
    forall t :: -1.0 <= f(t) <= 1.0
  }

  type Sine = f: real -> real | SineLaws(f)
    witness (t: real) => 0.0

  /** `Math.tanh`: bounded by one in magnitude, odd, and so 0 at 0. */
  ghost predicate TanhLaws(f: real -> real) {
    && (forall t :: -1.0 <= f(t) <= 1.0)
    && (forall s, t :: s == -t ==> f(s) == -f(t))
    && f(0.0) == 0.0
  }

  type Tanh = f: real -> real | TanhLaws(f)
    witness (t: real) => 0.0

  /** `Math.PI`, known only to lie between 3.14 and 3.15. */
  type Pi = p: real | 3.14 < p < 3.15 witness 3.1416

  /** Total number of samples over all channels of a block. */
  function TotalFrames(chs: seq<seq<real>>): nat {
    if |chs| == 0 then 0 else |chs[0]| + TotalFrames(chs[1..])
  }

  /** The frames from channel c on are those of channel c and those after it. */
  lemma FramesFrom(chs: seq<seq<real>>, c: nat)
    requires c < |chs|
    ensures TotalFrames(chs[c..]) == |chs[c]| + TotalFrames(chs[c + 1..])
  {
    assert chs[c..][1..] == chs[c + 1..];
  }

  /** The samples of all channels of a block, channel after channel: the
      order in which a processor whose state is shared by all channels
      meets them. */
  function Flatten(chs: seq<seq<real>>): (xs: seq<real>)
    ensures |xs| == TotalFrames(chs)
  {
    if |chs| == 0 then [] else chs[0] + Flatten(chs[1..])
  }

  /** Flattening a channel followed by more channels. */
  lemma FlattenCons(first: seq<real>, rest: seq<seq<real>>)
    ensures Flatten([first] + rest) == first + Flatten(rest)
  {
    assert ([first] + rest)[1..] == rest;
  }

  /** The samples from channel c on are channel c's, then those after it. */
  lemma FlattenFrom(chs: seq<seq<real>>, c: nat)
    requires c < |chs|
    ensures Flatten(chs[c..]) == chs[c] + Flatten(chs[c + 1..])
  {
    assert chs[c..][1..] == chs[c + 1..];
  }

  datatype MathLib = MathLib(pow: Pow, log10: Log10, sin: Sine, tanh: Tanh, pi: Pi)

  /** `Math.pow(2, bitDepth - 1)`, the number of quantiser levels per unit
      that both bit crushers round to: always positive. */
  function LevelsPerUnit(bitDepth: real, m: MathLib): (s: real)
    ensures s > 0.0
  {
    m.pow(2.0, bitDepth - 1.0)
  }
}
