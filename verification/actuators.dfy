/** The two-channel second-order actuator (class SecondOrderActuator2Ch).
    Its state is the 4-vector [d1, d1_dot, d2, d2_dot]; every step of a channel
    clamps the acceleration, integrates and clamps the rate, then integrates and
    clamps the position, in that fixed order. */
module Actuator {
  import opened Saturation
  import opened LinearAlgebra

  /** Per-channel parameter vectors, each of length 2 (index 0 is channel 1). */
  datatype ActuatorParams = ActuatorParams(
    w0: Vector,
    zeta: Vector,
    deltaMax: Vector,
    rateMax: Vector,
    accMax: Vector)

  datatype SecondOrderActuator2Ch = SecondOrderActuator2Ch(params: ActuatorParams, x: Vector)

  /** The parameters of one channel, as the single per-channel update reads them. */
  datatype ChannelParams = ChannelParams(
    w0: real, zeta: real, deltaMax: real, rateMax: real, accMax: real)

  /** One channel's (position, rate) pair. */
  datatype Channel = Channel(pos: real, rate: real)

  /** Result of a step: the updated actuator and the deflection the plant sees. */
  datatype ActuatorOutput = ActuatorOutput(next: SecondOrderActuator2Ch, deflection: Vector)

  predicate ParamsWellShaped(p: ActuatorParams)
  {
    |p.w0| == 2 && |p.zeta| == 2 && |p.deltaMax| == 2 && |p.rateMax| == 2 && |p.accMax| == 2
  }

  /** All limits are non-negative; only then is each clamp interval non-empty. */
  predicate LimitsNonNegative(p: ActuatorParams)
    requires ParamsWellShaped(p)
  {
    forall i :: 0 <= i < 2 ==> p.deltaMax[i] >= 0.0 && p.rateMax[i] >= 0.0 && p.accMax[i] >= 0.0
  }

  predicate Valid(a: SecondOrderActuator2Ch)
  {
    ParamsWellShaped(a.params) && |a.x| == 4
  }

  function ParamsOf(p: ActuatorParams, i: nat): ChannelParams
    requires ParamsWellShaped(p) && i < 2
  {
    ChannelParams(p.w0[i], p.zeta[i], p.deltaMax[i], p.rateMax[i], p.accMax[i])
  }

  /** Channel i of the state: position at index 2i, rate at index 2i+1. */
  function ChannelOf(a: SecondOrderActuator2Ch, i: nat): Channel
    requires Valid(a) && i < 2
  {
    Channel(a.x[2 * i], a.x[2 * i + 1])
  }

  /** The stored positions and rates are inside their limits. */
  predicate WithinLimits(a: SecondOrderActuator2Ch)
    requires Valid(a)
  {
    forall i :: 0 <= i < 2 ==>
      Abs(ChannelOf(a, i).pos) <= a.params.deltaMax[i] && Abs(ChannelOf(a, i).rate) <= a.params.rateMax[i]
  }

  /** Construction: the state starts at [0, 0, 0, 0]. */
  function New(p: ActuatorParams): (a: SecondOrderActuator2Ch)
    requires ParamsWellShaped(p)
    ensures Valid(a) && a.params == p && IsZero(a.x)
    ensures LimitsNonNegative(p) ==> WithinLimits(a)
  {
    SecondOrderActuator2Ch(p, Zeros(4))
  }

  /** Reset zeroes the state and keeps the parameters. */
  function Reset(a: SecondOrderActuator2Ch): (r: SecondOrderActuator2Ch)
    requires Valid(a)
    ensures Valid(r) && r.params == a.params && IsZero(r.x)
    ensures r == New(a.params)
  {
    a.(x := Zeros(4))
  }

  /** Unconstrained acceleration of the servo d'' = -w0²·d - 2ζw0·d' + w0²·u. */
  function RawAccel(cp: ChannelParams, c: Channel, u: real): real
  {
    (-(cp.w0 * cp.w0)) * c.pos - (2.0 * cp.zeta * cp.w0) * c.rate + (cp.w0 * cp.w0) * u
  }

  /** The acceleration actually integrated: the raw one after the ±accMax clamp. */
  function IntegratedAccel(cp: ChannelParams, c: Channel, u: real): (acc: real)
    ensures cp.accMax >= 0.0 ==> Abs(acc) <= cp.accMax
    ensures Abs(RawAccel(cp, c, u)) <= cp.accMax ==> acc == RawAccel(cp, c, u)
    ensures cp.accMax >= 0.0 && RawAccel(cp, c, u) > cp.accMax ==> acc == cp.accMax
    ensures cp.accMax >= 0.0 && RawAccel(cp, c, u) < -cp.accMax ==> acc == -cp.accMax
  {
    Saturate(RawAccel(cp, c, u), cp.accMax)
  }

  /** Forward-Euler integration of v at the given derivative over dt, then the
      ±limit clamp: the result is the integrated value when that is in range
      and the nearer limit otherwise. */
  function IntegrateClamped(v: real, derivative: real, dt: real, limit: real): (r: real)
    ensures limit >= 0.0 ==> Abs(r) <= limit
    ensures Abs(v + derivative * dt) <= limit ==> r == v + derivative * dt
    ensures limit >= 0.0 && v + derivative * dt > limit ==> r == limit
    ensures limit >= 0.0 && v + derivative * dt < -limit ==> r == -limit
  {
    Saturate(v + derivative * dt, limit)
  }

  /** One step of a single channel with the cascaded clamps accel → rate → position. */
  function ChannelStep(cp: ChannelParams, c: Channel, u: real, dt: real): (r: Channel)
    // the rate integrates the clamped acceleration, the position the new rate
    ensures r.rate == IntegrateClamped(c.rate, IntegratedAccel(cp, c, u), dt, cp.rateMax)
    ensures r.pos == IntegrateClamped(c.pos, r.rate, dt, cp.deltaMax)
    ensures cp.rateMax >= 0.0 ==> Abs(r.rate) <= cp.rateMax
    ensures cp.deltaMax >= 0.0 ==> Abs(r.pos) <= cp.deltaMax
    // the rate moves by at most accMax·dt from an in-limit rate
    ensures dt >= 0.0 && cp.accMax >= 0.0 && Abs(c.rate) <= cp.rateMax ==>
              Abs(r.rate - c.rate) <= cp.accMax * dt
    // the position moves by at most rateMax·dt from an in-limit position
    ensures dt >= 0.0 && cp.rateMax >= 0.0 && Abs(c.pos) <= cp.deltaMax ==>
              Abs(r.pos - c.pos) <= cp.rateMax * dt
  {
    var acc := IntegratedAccel(cp, c, u);
    var rate := IntegrateClamped(c.rate, acc, dt, cp.rateMax);
    var pos := IntegrateClamped(c.pos, rate, dt, cp.deltaMax);
    IntegrateClampedChange(c.rate, acc, dt, cp.rateMax, cp.accMax);
    IntegrateClampedChange(c.pos, rate, dt, cp.deltaMax, cp.rateMax);
    Channel(pos, rate)
  }

  /** Integrating a derivative bounded by `bound` over a non-negative step and
      clamping to a limit moves an in-limit value by at most bound·dt. */
  lemma IntegrateClampedChange(v: real, derivative: real, dt: real, limit: real, bound: real)
    requires bound >= 0.0 ==> Abs(derivative) <= bound
    ensures dt >= 0.0 && bound >= 0.0 && Abs(v) <= limit ==>
              Abs(IntegrateClamped(v, derivative, dt, limit) - v) <= bound * dt
  {
    if dt >= 0.0 && bound >= 0.0 && Abs(v) <= limit {
      ScaledBound(derivative, bound, dt);
      ClipTowardInterior(v + derivative * dt, -limit, limit, v);
    }
  }

  /** One step of both channels. Each channel is the same per-channel update,
      fed only with its own parameters, state and command component. */
  function Step(a: SecondOrderActuator2Ch, u: Vector, dt: real): (r: ActuatorOutput)
    requires Valid(a) && |u| == 2
    ensures Valid(r.next) && r.next.params == a.params
    ensures forall i :: 0 <= i < 2 ==>
              ChannelOf(r.next, i) == ChannelStep(ParamsOf(a.params, i), ChannelOf(a, i), u[i], dt)
    ensures r.deflection == [ChannelOf(r.next, 0).pos, ChannelOf(r.next, 1).pos]
    ensures LimitsNonNegative(a.params) ==> WithinLimits(r.next)
  {
    var c1 := ChannelStep(ParamsOf(a.params, 0), ChannelOf(a, 0), u[0], dt);
    var c2 := ChannelStep(ParamsOf(a.params, 1), ChannelOf(a, 1), u[1], dt);
    var next := a.(x := [c1.pos, c1.rate, c2.pos, c2.rate]);
    assert ChannelOf(next, 0) == c1 && ChannelOf(next, 1) == c2;
    ActuatorOutput(next, [c1.pos, c2.pos])
  }

  lemma ChannelZero(cp: ChannelParams, dt: real)
    requires cp.deltaMax >= 0.0 && cp.rateMax >= 0.0 && cp.accMax >= 0.0
    ensures ChannelStep(cp, Channel(0.0, 0.0), 0.0, dt) == Channel(0.0, 0.0)
  {
    var c := Channel(0.0, 0.0);
    assert RawAccel(cp, c, 0.0) == 0.0;
    assert IntegratedAccel(cp, c, 0.0) == 0.0;
    assert IntegrateClamped(0.0, 0.0, dt, cp.rateMax) == 0.0;
  }

  /** Channel i's new state is the same for any two actuators that agree on
      channel i's parameters, state and command, whatever the other channel does. */
  lemma ChannelsIndependent(a: SecondOrderActuator2Ch, b: SecondOrderActuator2Ch, u: Vector, v: Vector, dt: real, i: nat)
    requires Valid(a) && Valid(b) && |u| == 2 && |v| == 2 && i < 2
    requires ParamsOf(a.params, i) == ParamsOf(b.params, i)
    requires ChannelOf(a, i) == ChannelOf(b, i)
    requires u[i] == v[i]
    ensures ChannelOf(Step(a, u, dt).next, i) == ChannelOf(Step(b, v, dt).next, i)
    ensures Step(a, u, dt).deflection[i] == Step(b, v, dt).deflection[i]
  {
  }

  /** A zero state under a zero command stays at zero. */
  lemma ZeroIsFixedPoint(a: SecondOrderActuator2Ch, u: Vector, dt: real)
    requires Valid(a) && LimitsNonNegative(a.params)
    requires IsZero(a.x) && |u| == 2 && IsZero(u)
    ensures IsZero(Step(a, u, dt).next.x)
    ensures IsZero(Step(a, u, dt).deflection)
  {
    var r := Step(a, u, dt);
    forall i | 0 <= i < 2
      ensures ChannelOf(r.next, i) == Channel(0.0, 0.0)
    {
      assert ChannelOf(a, i) == Channel(0.0, 0.0);
      ChannelZero(ParamsOf(a.params, i), dt);
    }
    assert ChannelOf(r.next, 0) == Channel(0.0, 0.0);
    assert ChannelOf(r.next, 1) == Channel(0.0, 0.0);
  }

  /** The actuator after each of n steps under a constant command. Every
      state of the run, not only the last, satisfies the position and rate limits. */
  function Trace(a: SecondOrderActuator2Ch, u: Vector, dt: real, n: nat): (r: seq<SecondOrderActuator2Ch>)
    requires Valid(a) && |u| == 2
    ensures |r| == n
    ensures forall k :: 0 <= k < n ==> Valid(r[k]) && r[k].params == a.params
    ensures LimitsNonNegative(a.params) ==> forall k :: 0 <= k < n ==> WithinLimits(r[k])
    decreases n
  {
    if n == 0 then []
    else
      var first := Step(a, u, dt).next;
      [first] + Trace(first, u, dt, n - 1)
  }

  /** The parameters of the repository's actuator limit test. */
  const TestParams: ActuatorParams := ActuatorParams([60.0, 60.0], [0.7, 0.7], [0.4, 0.4], [1.5, 1.5], [50.0, 50.0])

  /** The limit test: a [10, -10] command held for 2000 steps keeps every
      output deflection within 0.4 and the final rates within 1.5. The test
      uses steps of 1 ms; the bounds hold for every step size. */
  lemma LimitTestScenario(a: SecondOrderActuator2Ch, u: Vector, dt: real, n: nat)
    requires Valid(a) && a.params == TestParams && IsZero(a.x)
    requires u == [10.0, -10.0] && n == 2000
    ensures var t := Trace(a, u, dt, n);
            && (forall k :: 0 <= k < n ==> Abs(t[k].x[0]) <= 0.4 && Abs(t[k].x[2]) <= 0.4)
            && Abs(t[n - 1].x[1]) <= 1.5 && Abs(t[n - 1].x[3]) <= 1.5
  {
    assert LimitsNonNegative(a.params);
    TraceComponentBounds(a, u, dt, n);
  }

  /** The limits of every state of a run, spelled out on the four state components. */
  lemma TraceComponentBounds(a: SecondOrderActuator2Ch, u: Vector, dt: real, n: nat)
    requires Valid(a) && |u| == 2 && LimitsNonNegative(a.params)
    ensures var t := Trace(a, u, dt, n);
            forall k :: 0 <= k < n ==>
              && Abs(t[k].x[0]) <= a.params.deltaMax[0] && Abs(t[k].x[1]) <= a.params.rateMax[0]
              && Abs(t[k].x[2]) <= a.params.deltaMax[1] && Abs(t[k].x[3]) <= a.params.rateMax[1]
  {
    var t := Trace(a, u, dt, n);
    forall k | 0 <= k < n
      ensures Abs(t[k].x[0]) <= a.params.deltaMax[0] && Abs(t[k].x[1]) <= a.params.rateMax[0]
      ensures Abs(t[k].x[2]) <= a.params.deltaMax[1] && Abs(t[k].x[3]) <= a.params.rateMax[1]
    {
      assert ChannelOf(t[k], 0) == Channel(t[k].x[0], t[k].x[1]);
      assert ChannelOf(t[k], 1) == Channel(t[k].x[2], t[k].x[3]);
    }
  }
}
