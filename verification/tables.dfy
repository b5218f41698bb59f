/** The two WaveShaper tables the engine builds (public/js/knob.js):
    the quantising table used when the bit crusher worklet is missing, and
    the three-branch distortion table. Both sample [-1, 1) at 44100
    points. */
module Tables {
  import opened Numeric
  import opened Host

  /** Number of entries in each table. */
  const TableSize: nat := 44100

  /** The input value entry `i` of a table stands for: 2i/44100 - 1. */
  function Position(i: int): real {
    (i * 2) as real / TableSize as real - 1.0
  }

  /** Positions cover [-1, 1), the middle entry stands for 0, and entries
      mirrored about the middle stand for opposite values. */
  lemma PositionFacts(i: int)
    requires 0 <= i < TableSize
    ensures -1.0 <= Position(i) < 1.0
    ensures Position(TableSize / 2) == 0.0
    ensures 0 < i ==> Position(TableSize - i) == -Position(i)
  {
  }

  // ---------------------------------------------------------------------
  // createBitCrushCurve

  /** `createBitCrushCurve(bitDepth)`: every entry is its position rounded
      to the grid of multiples of 1/step, so it lies within half a grid
      step of its position and is left unchanged by a second rounding. */
  method CreateBitCrushCurve(bitDepth: real, m: MathLib) returns (curve: seq<real>)
    ensures |curve| == TableSize
    ensures forall i :: 0 <= i < |curve| ==> curve[i] == Quantize(Position(i), LevelsPerUnit(bitDepth, m))
    ensures forall i :: 0 <= i < |curve| ==> Abs(curve[i] - Position(i)) <= 0.5 / LevelsPerUnit(bitDepth, m)
    ensures forall i :: 0 <= i < |curve| ==> Quantize(curve[i], LevelsPerUnit(bitDepth, m)) == curve[i]
  {
    var step := LevelsPerUnit(bitDepth, m);
    curve := [];
    var i := 0;
    while i < TableSize
      invariant 0 <= i <= TableSize && |curve| == i
      invariant forall j :: 0 <= j < i ==> curve[j] == Quantize(Position(j), step)
      invariant forall j :: 0 <= j < i ==> Abs(curve[j] - Position(j)) <= 0.5 / step
      invariant forall j :: 0 <= j < i ==> Quantize(curve[j], step) == curve[j]
    {
      var x := Position(i);
      var q := Quantize(x, step);
      QuantizeError(x, step);
      QuantizeIdempotent(x, step);
      curve := curve + [q];
      i := i + 1;
    }
  }

  // ---------------------------------------------------------------------
  // createDistortionCurve

  /** JavaScript's `Math.sign`, with sign(0) = 0. */
  function Sign(x: real): (s: real)
    ensures s == 0.0 || s == 1.0 || s == -1.0
    ensures s * x == Abs(x)
  {
    if x > 0.0 then 1.0 else if x < 0.0 then -1.0 else 0.0
  }

  /** Hard-clip stage of the top branch: x * amount * 0.6 clamped to
      +-4/amount. */
  function HardClip(amount: real, x: real): (r: real)
    requires amount > 0.0
    ensures -4.0 / amount <= r <= 4.0 / amount
    ensures -4.0 / amount <= x * amount * 0.6 <= 4.0 / amount ==> r == x * amount * 0.6
    ensures x * amount * 0.6 > 4.0 / amount ==> r == 4.0 / amount
    ensures x * amount * 0.6 < -4.0 / amount ==> r == -4.0 / amount
  {
    var clipLevel := (1.0 / amount) * 4.0;
    Max(-clipLevel, Min(clipLevel, x * amount * 0.6))
  }

  /** Which of the three shapes a drive amount selects. */
  datatype Branch = Soft | Asymmetric | Hard

  function BranchOf(amount: real): Branch {
    if amount < 3.0 then Soft else if amount < 6.0 then Asymmetric else Hard
  }

  /** One table entry: a soft tanh below amount 3, an asymmetric power law
      through tanh below 6, and a hard clip through tanh from 6 on. The
      peak level drops with each branch (0.85, 0.8, 0.7), and the centre
      always maps to 0. */
  function DistortionEntry(amount: real, x: real, m: MathLib): (y: real)
    ensures -0.85 <= y <= 0.85
    ensures BranchOf(amount) == Asymmetric ==> -0.8 <= y <= 0.8
    ensures BranchOf(amount) == Hard ==> -0.7 <= y <= 0.7
    ensures x == 0.0 ==> y == 0.0
  {
    match BranchOf(amount)
    case Soft =>
      m.tanh(amount * x * 1.2) * 0.85
    case Asymmetric =>
      var asymmetry := 0.3;
      var driven := amount * x * 0.8;
      var shaped := Sign(driven) * m.pow(Abs(driven), 0.7 + asymmetry * Sign(driven));
      m.tanh(shaped) * 0.8
    case Hard =>
      m.tanh(HardClip(amount, x) * 2.0) * 0.7
  }

  /** The soft and hard branches are odd: they distort positive and
      negative half-waves alike. */
  lemma DistortionOdd(amount: real, x: real, m: MathLib)
    requires BranchOf(amount) != Asymmetric
    ensures DistortionEntry(amount, -x, m) == -DistortionEntry(amount, x, m)
  {
    if BranchOf(amount) == Soft {
      assert amount * (-x) * 1.2 == -(amount * x * 1.2);
    } else {
      assert (-x) * amount * 0.6 == -(x * amount * 0.6);
      assert HardClip(amount, -x) == -HardClip(amount, x);
      assert HardClip(amount, -x) * 2.0 == -(HardClip(amount, x) * 2.0);
    }
  }

  /** `createDistortionCurve(amount)`. */
  method CreateDistortionCurve(amount: real, m: MathLib) returns (curve: seq<real>)
    ensures |curve| == TableSize
    ensures forall i :: 0 <= i < |curve| ==> curve[i] == DistortionEntry(amount, Position(i), m)
    ensures forall i :: 0 <= i < |curve| ==> -0.85 <= curve[i] <= 0.85
    ensures curve[TableSize / 2] == 0.0
  {
    curve := [];
    var i := 0;
    while i < TableSize
      invariant 0 <= i <= TableSize && |curve| == i
      invariant forall j :: 0 <= j < i ==> curve[j] == DistortionEntry(amount, Position(j), m)
    {
      curve := curve + [DistortionEntry(amount, Position(i), m)];
      i := i + 1;
    }
    PositionFacts(0);
  }

  /** Outside the asymmetric branch the table is antisymmetric about its
      middle entry. */
  lemma DistortionTableOdd(amount: real, m: MathLib, curve: seq<real>, i: int)
    requires BranchOf(amount) != Asymmetric
    requires |curve| == TableSize
    requires forall j :: 0 <= j < |curve| ==> curve[j] == DistortionEntry(amount, Position(j), m)
    requires 0 < i < TableSize
    ensures curve[TableSize - i] == -curve[i]
  {
    PositionFacts(i);
    DistortionOdd(amount, Position(i), m);
  }
}
