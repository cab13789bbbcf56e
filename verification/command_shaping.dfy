/** Pilot command shaping (class CommandShaper and its two scalar helpers):
    a slew-rate limiter and two cascaded first-order low-pass stages for each
    of the stick and pedal channels, plus a washout crossfeed taken from the
    filtered pedal, clamped and then smoothed. */
module CommandShaping {
  import opened Saturation

  /** Floor applied to every time constant before it divides the step. */
  const TauFloor: real := 0.000000001

  /** The time constant a first-order stage actually divides by. */
  function EffectiveTau(tau: real): (t: real)
    ensures t > 0.0 && t >= tau && t >= TauFloor
    ensures tau >= TauFloor ==> t == tau
    ensures tau < TauFloor ==> t == TauFloor
  {
    Max(tau, TauFloor)
  }

  /** Moving a fraction k in [0, 1] of the way from x to u stays between them. */
  lemma PartialStepBetween(x: real, u: real, k: real)
    requires 0.0 <= k <= 1.0
    ensures Between(x + (u - x) * k, x, u)
  {
    var d := u - x;
    assert d * k + d * (1.0 - k) == d;
    if x <= u {
      MulNonNegative(d, k);
      MulNonNegative(d, 1.0 - k);
    } else {
      MulNonNegative(-d, k);
      MulNonNegative(-d, 1.0 - k);
    }
  }

  lemma MulNonNegative(a: real, b: real)
    requires a >= 0.0 && b >= 0.0
    ensures a * b >= 0.0
  {
  }

  lemma FractionInUnit(dt: real, t: real)
    requires t > 0.0 && 0.0 <= dt <= t
    ensures 0.0 <= dt / t <= 1.0
  {
    assert dt / t * t == dt;
  }

  /** One forward-Euler step of the low-pass x' = (u - x)/tau; defined for
      every tau, including zero and negative ones, through EffectiveTau. */
  function FirstOrder(x: real, u: real, tau: real, dt: real): (r: real)
    ensures x == u ==> r == x
    ensures dt == 0.0 ==> r == x
    ensures dt == EffectiveTau(tau) ==> r == u
    ensures 0.0 <= dt <= EffectiveTau(tau) ==> Between(r, x, u)
  {
    var t := EffectiveTau(tau);
    if 0.0 <= dt <= t then
      FractionInUnit(dt, t);
      PartialStepBetween(x, u, dt / t);
      x + (u - x) * (dt / t)
    else
      x + (u - x) * (dt / t)
  }

  /** Slew-rate limiter: the output moves from prev toward cmd by at most
      ratePerSec·dt. With a negative allowance the clamp interval is empty and
      the output is pushed by the allowance itself, as numpy's clip does. */
  function RateLimit(prev: real, cmd: real, ratePerSec: real, dt: real): (r: real)
    ensures ratePerSec * dt >= 0.0 ==> Abs(r - prev) <= ratePerSec * dt
    ensures ratePerSec * dt >= 0.0 ==> (r == cmd <==> Abs(cmd - prev) <= ratePerSec * dt)
    ensures ratePerSec * dt >= 0.0 ==> Between(r, prev, cmd)
    ensures ratePerSec * dt >= 0.0 && cmd - prev > ratePerSec * dt ==> r == prev + ratePerSec * dt
    ensures ratePerSec * dt >= 0.0 && cmd - prev < -(ratePerSec * dt) ==> r == prev - ratePerSec * dt
    ensures ratePerSec * dt < 0.0 ==> r == prev + ratePerSec * dt
  {
    var maxStep := ratePerSec * dt;
    prev + Clip(cmd - prev, -maxStep, maxStep)
  }

  /** The three memory cells of one pilot channel: rate-limited command and
      the outputs of the two low-pass stages. */
  datatype ChainState = ChainState(cmd: real, f1: real, f2: real)

  datatype ShaperParams = ShaperParams(
    stickRate: real,
    pedalRate: real,
    tau1: real,
    tau2: real,
    tCross: real,
    kCross: real,
    crossfeedLimit: real,
    tauCrossSmooth: real)

  /** The eight memory cells: two channel chains, the crossfeed lag and the
      smoothed crossfeed. */
  datatype ShaperState = ShaperState(stick: ChainState, pedal: ChainState, crossfeedLag: real, crossfeedSm: real)

  datatype CommandShaper = CommandShaper(params: ShaperParams, state: ShaperState)

  /** What a step returns: the updated shaper and (stick, pedal, crossfeed). */
  datatype ShaperOutput = ShaperOutput(next: CommandShaper, stickFilt: real, pedalFilt: real, crossfeed: real)

  predicate ChainZero(c: ChainState)
  {
    c.cmd == 0.0 && c.f1 == 0.0 && c.f2 == 0.0
  }

  predicate AllCellsZero(s: ShaperState)
  {
    ChainZero(s.stick) && ChainZero(s.pedal) && s.crossfeedLag == 0.0 && s.crossfeedSm == 0.0
  }

  function New(p: ShaperParams): (sh: CommandShaper)
    ensures sh.params == p && AllCellsZero(sh.state)
  {
    var zero := ChainState(0.0, 0.0, 0.0);
    CommandShaper(p, ShaperState(zero, zero, 0.0, 0.0))
  }

  /** Reset rebuilds the shaper from its own parameters. */
  function Reset(sh: CommandShaper): (r: CommandShaper)
    ensures r.params == sh.params && AllCellsZero(r.state)
    ensures r == New(sh.params)
  {
    New(sh.params)
  }

  /** One channel: rate limit, then the two low-pass stages in cascade. */
  function ChainStep(c: ChainState, raw: real, rate: real, tau1: real, tau2: real, dt: real): (r: ChainState)
    ensures rate * dt >= 0.0 ==> Abs(r.cmd - c.cmd) <= rate * dt
    ensures rate * dt >= 0.0 && Abs(raw - c.cmd) <= rate * dt ==> r.cmd == raw
    ensures rate * dt >= 0.0 && raw - c.cmd > rate * dt ==> r.cmd == c.cmd + rate * dt
    ensures rate * dt >= 0.0 && raw - c.cmd < -(rate * dt) ==> r.cmd == c.cmd - rate * dt
    // the two low-pass stages in cascade: f1 follows the limited command, f2 follows f1
    ensures r.f1 == FirstOrder(c.f1, r.cmd, tau1, dt) && r.f2 == FirstOrder(c.f2, r.f1, tau2, dt)
    ensures 0.0 <= dt <= EffectiveTau(tau1) ==> Between(r.f1, c.f1, r.cmd)
    ensures 0.0 <= dt <= EffectiveTau(tau2) ==> Between(r.f2, c.f2, r.f1)
  {
    var cmd := RateLimit(c.cmd, raw, rate, dt);
    var f1 := FirstOrder(c.f1, cmd, tau1, dt);
    var f2 := FirstOrder(c.f2, f1, tau2, dt);
    ChainState(cmd, f1, f2)
  }

  /** The washout term Kc·(pedal − lag) clamped to ±crossfeedLimit, before smoothing. */
  function CrossfeedLimited(kCross: real, limit: real, pedalFilt: real, lag: real): (c: real)
    ensures limit >= 0.0 ==> Abs(c) <= limit
    ensures Abs(kCross * (pedalFilt - lag)) <= limit ==> c == kCross * (pedalFilt - lag)
    ensures limit >= 0.0 && kCross * (pedalFilt - lag) > limit ==> c == limit
    ensures limit >= 0.0 && kCross * (pedalFilt - lag) < -limit ==> c == -limit
    ensures limit >= 0.0 && pedalFilt == lag ==> c == 0.0
  {
    Saturate(kCross * (pedalFilt - lag), limit)
  }

  /** The crossfeed conditions under which the smoothed crossfeed stays clamped:
      a non-negative limit and a step no longer than the smoothing time constant. */
  predicate CrossfeedStable(p: ShaperParams, dt: real)
  {
    p.crossfeedLimit >= 0.0 && 0.0 <= dt <= EffectiveTau(p.tauCrossSmooth)
  }

  /** One shaper step. Stick and pedal run the same chain update on their own
      cells; the crossfeed reads only the filtered pedal. */
  function Step(sh: CommandShaper, stickRaw: real, pedalRaw: real, dt: real): (r: ShaperOutput)
    ensures r.next.params == sh.params
    ensures r.stickFilt == r.next.state.stick.f2
    ensures r.pedalFilt == r.next.state.pedal.f2
    ensures r.crossfeed == r.next.state.crossfeedSm
    ensures r.next.state.stick == ChainStep(sh.state.stick, stickRaw, sh.params.stickRate, sh.params.tau1, sh.params.tau2, dt)
    ensures r.next.state.pedal == ChainStep(sh.state.pedal, pedalRaw, sh.params.pedalRate, sh.params.tau1, sh.params.tau2, dt)
    // the lag follows the filtered pedal with time constant tCross; the clamped
    // washout is then smoothed with tauCrossSmooth
    ensures r.next.state.crossfeedLag == FirstOrder(sh.state.crossfeedLag, r.pedalFilt, sh.params.tCross, dt)
    ensures r.crossfeed == FirstOrder(sh.state.crossfeedSm,
                                      CrossfeedLimited(sh.params.kCross, sh.params.crossfeedLimit, r.pedalFilt, r.next.state.crossfeedLag),
                                      sh.params.tauCrossSmooth, dt)
    ensures 0.0 <= dt <= EffectiveTau(sh.params.tCross) ==>
              Between(r.next.state.crossfeedLag, sh.state.crossfeedLag, r.pedalFilt)
    ensures 0.0 <= dt <= EffectiveTau(sh.params.tauCrossSmooth) ==>
              Between(r.crossfeed, sh.state.crossfeedSm, CrossfeedLimited(sh.params.kCross, sh.params.crossfeedLimit, r.pedalFilt, r.next.state.crossfeedLag))
    ensures CrossfeedStable(sh.params, dt) && Abs(sh.state.crossfeedSm) <= sh.params.crossfeedLimit ==>
              Abs(r.crossfeed) <= sh.params.crossfeedLimit
  {
    var p := sh.params;
    var s := sh.state;
    var stick := ChainStep(s.stick, stickRaw, p.stickRate, p.tau1, p.tau2, dt);
    var pedal := ChainStep(s.pedal, pedalRaw, p.pedalRate, p.tau1, p.tau2, dt);
    var lag := FirstOrder(s.crossfeedLag, pedal.f2, p.tCross, dt);
    var sm := FirstOrder(s.crossfeedSm, CrossfeedLimited(p.kCross, p.crossfeedLimit, pedal.f2, lag), p.tauCrossSmooth, dt);
    ShaperOutput(CommandShaper(p, ShaperState(stick, pedal, lag, sm)), stick.f2, pedal.f2, sm)
  }

  /** The stick outputs do not depend on anything on the pedal side. */
  lemma StickIndependentOfPedal(a: CommandShaper, b: CommandShaper, stickRaw: real, pedalA: real, pedalB: real, dt: real)
    requires a.state.stick == b.state.stick
    requires a.params.stickRate == b.params.stickRate && a.params.tau1 == b.params.tau1 && a.params.tau2 == b.params.tau2
    ensures Step(a, stickRaw, pedalA, dt).next.state.stick == Step(b, stickRaw, pedalB, dt).next.state.stick
    ensures Step(a, stickRaw, pedalA, dt).stickFilt == Step(b, stickRaw, pedalB, dt).stickFilt
  {
  }

  /** The pedal output and the crossfeed do not depend on anything on the stick side. */
  lemma PedalAndCrossfeedIndependentOfStick(a: CommandShaper, b: CommandShaper, stickA: real, stickB: real, pedalRaw: real, dt: real)
    requires a.state.pedal == b.state.pedal
    requires a.state.crossfeedLag == b.state.crossfeedLag && a.state.crossfeedSm == b.state.crossfeedSm
    requires a.params.pedalRate == b.params.pedalRate && a.params.tau1 == b.params.tau1 && a.params.tau2 == b.params.tau2
    requires a.params.tCross == b.params.tCross && a.params.kCross == b.params.kCross
    requires a.params.crossfeedLimit == b.params.crossfeedLimit && a.params.tauCrossSmooth == b.params.tauCrossSmooth
    ensures Step(a, stickA, pedalRaw, dt).next.state.pedal == Step(b, stickB, pedalRaw, dt).next.state.pedal
    ensures Step(a, stickA, pedalRaw, dt).pedalFilt == Step(b, stickB, pedalRaw, dt).pedalFilt
    ensures Step(a, stickA, pedalRaw, dt).crossfeed == Step(b, stickB, pedalRaw, dt).crossfeed
  {
    var p := a.params;
    var pedal := ChainStep(a.state.pedal, pedalRaw, p.pedalRate, p.tau1, p.tau2, dt);
    var lag := FirstOrder(a.state.crossfeedLag, pedal.f2, p.tCross, dt);
    var sm := FirstOrder(a.state.crossfeedSm, CrossfeedLimited(p.kCross, p.crossfeedLimit, pedal.f2, lag), p.tauCrossSmooth, dt);
    assert Step(a, stickA, pedalRaw, dt).crossfeed == sm;
    assert Step(b, stickB, pedalRaw, dt).crossfeed == sm;
  }

  /** The conditions under which zero is a fixed point: both rate allowances
      non-negative and a non-negative crossfeed limit. */
  predicate ZeroPreserving(p: ShaperParams, dt: real)
  {
    p.stickRate * dt >= 0.0 && p.pedalRate * dt >= 0.0 && p.crossfeedLimit >= 0.0
  }

  /** All eight cells at zero under zero raw inputs stay at zero. */
  lemma ZeroIsFixedPoint(sh: CommandShaper, dt: real)
    requires AllCellsZero(sh.state) && ZeroPreserving(sh.params, dt)
    ensures AllCellsZero(Step(sh, 0.0, 0.0, dt).next.state)
    ensures Step(sh, 0.0, 0.0, dt).stickFilt == 0.0
    ensures Step(sh, 0.0, 0.0, dt).pedalFilt == 0.0
    ensures Step(sh, 0.0, 0.0, dt).crossfeed == 0.0
  {
  }

  predicate ChainInRange(c: ChainState, lo: real, hi: real)
  {
    lo <= c.cmd <= hi && lo <= c.f1 <= hi && lo <= c.f2 <= hi
  }

  /** A step short enough for both low-pass stages and a non-negative slew allowance. */
  predicate ChainStable(rate: real, tau1: real, tau2: real, dt: real)
  {
    rate * dt >= 0.0 && 0.0 <= dt && dt <= EffectiveTau(tau1) && dt <= EffectiveTau(tau2)
  }

  /** A channel whose cells and raw input lie in [lo, hi] keeps its cells there. */
  lemma ChainStaysInRange(c: ChainState, raw: real, rate: real, tau1: real, tau2: real, dt: real, lo: real, hi: real)
    requires ChainInRange(c, lo, hi) && lo <= raw <= hi
    requires ChainStable(rate, tau1, tau2, dt)
    ensures ChainInRange(ChainStep(c, raw, rate, tau1, tau2, dt), lo, hi)
  {
  }

  /** The shaper's outputs after each of a sequence of (stick, pedal) raw inputs. */
  function Run(sh: CommandShaper, inputs: seq<(real, real)>, dt: real): (r: seq<ShaperOutput>)
    ensures |r| == |inputs|
    ensures forall k :: 0 <= k < |r| ==> r[k].next.params == sh.params
    ensures CrossfeedStable(sh.params, dt) && Abs(sh.state.crossfeedSm) <= sh.params.crossfeedLimit ==>
              forall k :: 0 <= k < |r| ==> Abs(r[k].crossfeed) <= sh.params.crossfeedLimit
    decreases |inputs|
  {
    if |inputs| == 0 then []
    else
      var out := Step(sh, inputs[0].0, inputs[0].1, dt);
      [out] + Run(out.next, inputs[1..], dt)
  }

  /** Over a whole run, the filtered stick never leaves an interval that holds
      every raw stick input and the initial stick cells. */
  lemma {:induction false} StickStaysInRange(sh: CommandShaper, inputs: seq<(real, real)>, dt: real, lo: real, hi: real)
    requires ChainInRange(sh.state.stick, lo, hi)
    requires forall k :: 0 <= k < |inputs| ==> lo <= inputs[k].0 <= hi
    requires ChainStable(sh.params.stickRate, sh.params.tau1, sh.params.tau2, dt)
    ensures forall k :: 0 <= k < |inputs| ==> lo <= Run(sh, inputs, dt)[k].stickFilt <= hi
    decreases |inputs|
  {
    if |inputs| > 0 {
      var out := Step(sh, inputs[0].0, inputs[0].1, dt);
      ChainStaysInRange(sh.state.stick, inputs[0].0, sh.params.stickRate, sh.params.tau1, sh.params.tau2, dt, lo, hi);
      StickStaysInRange(out.next, inputs[1..], dt, lo, hi);
      var r := Run(sh, inputs, dt);
      assert r == [out] + Run(out.next, inputs[1..], dt);
      forall k | 0 <= k < |inputs|
        ensures lo <= r[k].stickFilt <= hi
      {
        if k > 0 {
          assert r[k] == Run(out.next, inputs[1..], dt)[k - 1];
        }
      }
    }
  }
}
