/** The stateless state-feedback controller (class StateFeedbackController):
    u = H·[stick, pedal] − K·x, crossfeed added to channel 1 (index 0), then
    each component clamped to ±uCmdLimit. */
module Controller {
  import opened Saturation
  import opened LinearAlgebra

  /** The gains and the command limit; there is no state to carry. */
  datatype StateFeedbackController = StateFeedbackController(K: Matrix, H: Matrix, uCmdLimit: real)

  /** The limit the constructor uses when none is given. */
  const DefaultCmdLimit: real := 1.0

  /** Construction with the limit left at its default. */
  function WithDefaultLimit(K: Matrix, H: Matrix): (c: StateFeedbackController)
    ensures c.K == K && c.H == H && c.uCmdLimit == 1.0
  {
    StateFeedbackController(K, H, DefaultCmdLimit)
  }

  /** H is 2×2 and K is 2×n for a plant state of length n. */
  predicate WellShaped(c: StateFeedbackController, n: nat)
  {
    IsMatrix(c.H, 2, 2) && IsMatrix(c.K, 2, n)
  }

  /** The command before the clamp. */
  function Unclamped(c: StateFeedbackController, stick: real, pedal: real, x: Vector, crossfeed: real): (u: Vector)
    requires WellShaped(c, |x|)
    ensures |u| == 2
    ensures u[0] == Dot(c.H[0], [stick, pedal]) - Dot(c.K[0], x) + crossfeed
    ensures u[1] == Dot(c.H[1], [stick, pedal]) - Dot(c.K[1], x)
  {
    var u := Sub(MatVec(c.H, [stick, pedal]), MatVec(c.K, x));
    u[0 := u[0] + crossfeed]
  }

  /** The saturated command. Each component lies in ±uCmdLimit, equals the
      unclamped value whenever that is in range, and sits at the nearer bound
      otherwise. */
  function Compute(c: StateFeedbackController, stick: real, pedal: real, x: Vector, crossfeed: real): (u: Vector)
    requires WellShaped(c, |x|)
    ensures |u| == 2
    ensures c.uCmdLimit >= 0.0 ==> Abs(u[0]) <= c.uCmdLimit && Abs(u[1]) <= c.uCmdLimit
    ensures forall i :: 0 <= i < 2 ==>
              var v := Unclamped(c, stick, pedal, x, crossfeed)[i];
              && (Abs(v) <= c.uCmdLimit ==> u[i] == v)
              && (c.uCmdLimit >= 0.0 && v > c.uCmdLimit ==> u[i] == c.uCmdLimit)
              && (c.uCmdLimit >= 0.0 && v < -c.uCmdLimit ==> u[i] == -c.uCmdLimit)
  {
    var v := Unclamped(c, stick, pedal, x, crossfeed);
    [Saturate(v[0], c.uCmdLimit), Saturate(v[1], c.uCmdLimit)]
  }

  /** The unclamped command written out for the 4-state plant, term by term. */
  lemma UnclampedExpanded(c: StateFeedbackController, stick: real, pedal: real, x: Vector, crossfeed: real)
    requires |x| == 4 && WellShaped(c, 4)
    ensures Unclamped(c, stick, pedal, x, crossfeed)[0] ==
              c.H[0][0] * stick + c.H[0][1] * pedal
              - (c.K[0][0] * x[0] + c.K[0][1] * x[1] + c.K[0][2] * x[2] + c.K[0][3] * x[3])
              + crossfeed
    ensures Unclamped(c, stick, pedal, x, crossfeed)[1] ==
              c.H[1][0] * stick + c.H[1][1] * pedal
              - (c.K[1][0] * x[0] + c.K[1][1] * x[1] + c.K[1][2] * x[2] + c.K[1][3] * x[3])
  {
    DotOfPair(c.H[0], [stick, pedal]);
    DotOfPair(c.H[1], [stick, pedal]);
    DotOfFour(c.K[0], x);
    DotOfFour(c.K[1], x);
  }

  lemma DotOfPair(a: Vector, b: Vector)
    requires |a| == 2 && |b| == 2
    ensures Dot(a, b) == a[0] * b[0] + a[1] * b[1]
  {
    var a1, b1 := a[1..], b[1..];
    assert a1[1..] == [] && b1[1..] == [];
    assert Dot(a1, b1) == a[1] * b[1];
    assert Dot(a, b) == a[0] * b[0] + Dot(a1, b1);
  }

  lemma DotOfFour(a: Vector, b: Vector)
    requires |a| == 4 && |b| == 4
    ensures Dot(a, b) == a[0] * b[0] + a[1] * b[1] + a[2] * b[2] + a[3] * b[3]
  {
    var a1, b1 := a[1..], b[1..];
    var a2, b2 := a1[1..], b1[1..];
    var a3, b3 := a2[1..], b2[1..];
    assert a3[1..] == [] && b3[1..] == [];
    assert Dot(a3, b3) == a[3] * b[3];
    assert Dot(a2, b2) == a[2] * b[2] + a[3] * b[3];
    assert Dot(a1, b1) == a[1] * b[1] + a[2] * b[2] + a[3] * b[3];
    assert Dot(a, b) == a[0] * b[0] + Dot(a1, b1);
  }

  /** Crossfeed reaches channel 1 only: channel 2's command ignores it. */
  lemma CrossfeedOnlyOnChannel1(c: StateFeedbackController, stick: real, pedal: real, x: Vector, cf1: real, cf2: real)
    requires WellShaped(c, |x|)
    ensures Compute(c, stick, pedal, x, cf1)[1] == Compute(c, stick, pedal, x, cf2)[1]
  {
  }

  /** Zero stick, pedal, state and crossfeed give a zero command. */
  lemma ZeroInputsGiveZeroCommand(c: StateFeedbackController, x: Vector)
    requires WellShaped(c, |x|) && IsZero(x) && c.uCmdLimit >= 0.0
    ensures IsZero(Compute(c, 0.0, 0.0, x, 0.0))
  {
    DotZero(c.H[0], [0.0, 0.0]);
    DotZero(c.H[1], [0.0, 0.0]);
    DotZero(c.K[0], x);
    DotZero(c.K[1], x);
  }
}
