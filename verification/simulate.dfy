/** The fixed-step closed loop of run_simulation: on every point of a uniform
    time grid the pilot input is shaped, turned into a command by the
    controller from the plant state of the previous step, passed through the
    actuator, and applied to the plant; the roll rate and bank angle are logged. */
module Simulation {
  import opened Saturation
  import opened LinearAlgebra
  import Plant
  import Actuator
  import CommandShaping
  import Controller

  /** Everything the loop is built from: plant matrices, gains, shaping
      parameters, command limit and actuator parameters. */
  datatype Config = Config(
    A: Matrix,
    B: Matrix,
    K: Matrix,
    H: Matrix,
    shaping: CommandShaping.ShaperParams,
    uCmdLimit: real,
    actuator: Actuator.ActuatorParams)

  /** A is 4×4, B is 4×2, K is 2×4, H is 2×2 and the actuator vectors have length 2. */
  predicate ConfigWellShaped(cfg: Config)
  {
    && IsMatrix(cfg.A, 4, 4) && IsMatrix(cfg.B, 4, 2)
    && IsMatrix(cfg.K, 2, 4) && IsMatrix(cfg.H, 2, 2)
    && Actuator.ParamsWellShaped(cfg.actuator)
  }

  /** The four elements of the chain. */
  datatype Loop = Loop(
    shaper: CommandShaping.CommandShaper,
    ctrl: Controller.StateFeedbackController,
    act: Actuator.SecondOrderActuator2Ch,
    plant: Plant.LinearPlant)

  predicate WellShaped(l: Loop)
  {
    && Actuator.Valid(l.act)
    && |l.plant.x| == 4 && Plant.WellShaped(l.plant, 2)
    && Controller.WellShaped(l.ctrl, 4)
  }

  /** Two loops built from the same configuration, whatever their states. */
  predicate SameConfig(l: Loop, m: Loop)
  {
    && l.shaper.params == m.shaper.params
    && l.ctrl == m.ctrl
    && l.act.params == m.act.params
    && l.plant.A == m.plant.A && l.plant.B == m.plant.B
  }

  /** Every state cell of every element is zero. */
  predicate AtRest(l: Loop)
  {
    CommandShaping.AllCellsZero(l.shaper.state) && IsZero(l.act.x) && IsZero(l.plant.x)
  }

  /** The loop as constructed: all four elements from the configuration, all at rest. */
  function Init(cfg: Config): (l: Loop)
    requires ConfigWellShaped(cfg)
    ensures WellShaped(l) && AtRest(l)
    ensures l.shaper.params == cfg.shaping && l.act.params == cfg.actuator
    ensures l.ctrl == Controller.StateFeedbackController(cfg.K, cfg.H, cfg.uCmdLimit)
    ensures l.plant.A == cfg.A && l.plant.B == cfg.B
  {
    Loop(
      CommandShaping.New(cfg.shaping),
      Controller.StateFeedbackController(cfg.K, cfg.H, cfg.uCmdLimit),
      Actuator.New(cfg.actuator),
      Plant.New(cfg.A, cfg.B))
  }

  /** What one pass of the loop body produces besides the new loop state. */
  datatype LoopOutput = LoopOutput(next: Loop, uCmd: Vector, uActual: Vector)

  /** One pass of the loop body: shaper, then controller on the plant state
      from before this pass, then actuator, then plant, all with the same dt. */
  function SimStep(l: Loop, stickRaw: real, pedalRaw: real, dt: real): (r: LoopOutput)
    requires WellShaped(l)
    ensures WellShaped(r.next) && SameConfig(r.next, l)
    ensures var sh := CommandShaping.Step(l.shaper, stickRaw, pedalRaw, dt);
            && r.next.shaper == sh.next
            && r.uCmd == Controller.Compute(l.ctrl, sh.stickFilt, sh.pedalFilt, l.plant.x, sh.crossfeed)
    ensures var a := Actuator.Step(l.act, r.uCmd, dt);
            r.next.act == a.next && r.uActual == a.deflection
    ensures r.next.plant == Plant.Step(l.plant, r.uActual, dt)
    ensures |r.uCmd| == 2
    ensures l.ctrl.uCmdLimit >= 0.0 ==> Abs(r.uCmd[0]) <= l.ctrl.uCmdLimit && Abs(r.uCmd[1]) <= l.ctrl.uCmdLimit
    ensures Actuator.LimitsNonNegative(l.act.params) ==> Actuator.WithinLimits(r.next.act)
  {
    var sh := CommandShaping.Step(l.shaper, stickRaw, pedalRaw, dt);
    var uCmd := Controller.Compute(l.ctrl, sh.stickFilt, sh.pedalFilt, l.plant.x, sh.crossfeed);
    var a := Actuator.Step(l.act, uCmd, dt);
    var x := Plant.Step(l.plant, a.deflection, dt);
    LoopOutput(Loop(sh.next, l.ctrl, a.next, x), uCmd, a.deflection)
  }

  /** The one-step delay: this pass's command and actuator motion do not
      depend on how the plant will move in this pass, only on the state it
      had when the pass began. */
  lemma CommandPrecedesPlantUpdate(l: Loop, m: Loop, stickRaw: real, pedalRaw: real, dt: real)
    requires WellShaped(l) && WellShaped(m)
    requires l.shaper == m.shaper && l.ctrl == m.ctrl && l.act == m.act
    requires l.plant.x == m.plant.x
    ensures SimStep(l, stickRaw, pedalRaw, dt).uCmd == SimStep(m, stickRaw, pedalRaw, dt).uCmd
    ensures SimStep(l, stickRaw, pedalRaw, dt).uActual == SimStep(m, stickRaw, pedalRaw, dt).uActual
    ensures SimStep(l, stickRaw, pedalRaw, dt).next.act == SimStep(m, stickRaw, pedalRaw, dt).next.act
  {
  }

  /** The conditions under which a loop at rest stays at rest under zero input. */
  predicate ZeroPreserving(l: Loop, dt: real)
    requires Actuator.ParamsWellShaped(l.act.params)
  {
    && CommandShaping.ZeroPreserving(l.shaper.params, dt)
    && l.ctrl.uCmdLimit >= 0.0
    && Actuator.LimitsNonNegative(l.act.params)
  }

  /** A loop at rest under zero pilot input stays at rest. */
  lemma ZeroInputKeepsRest(l: Loop, dt: real)
    requires WellShaped(l) && AtRest(l) && ZeroPreserving(l, dt)
    ensures AtRest(SimStep(l, 0.0, 0.0, dt).next)
  {
    var sh := CommandShaping.Step(l.shaper, 0.0, 0.0, dt);
    CommandShaping.ZeroIsFixedPoint(l.shaper, dt);
    var uCmd := Controller.Compute(l.ctrl, sh.stickFilt, sh.pedalFilt, l.plant.x, sh.crossfeed);
    Controller.ZeroInputsGiveZeroCommand(l.ctrl, l.plant.x);
    Actuator.ZeroIsFixedPoint(l.act, uCmd, dt);
    var a := Actuator.Step(l.act, uCmd, dt);
    Plant.ZeroIsFixedPoint(l.plant, a.deflection, dt);
  }

  /** The pilot profile of the demonstration run: a 0.5 stick pulse before
      t = 2 s and a 0.3 pedal pulse strictly between 5 s and 7 s. */
  function ScriptedPilot(t: real): (r: (real, real))
    ensures r.0 == 0.5 <==> t < 2.0
    ensures r.0 == 0.0 <==> t >= 2.0
    ensures r.1 == 0.3 <==> 5.0 < t < 7.0
    ensures r.1 == 0.0 <==> t <= 5.0 || t >= 7.0
  {
    var stick := if t < 2.0 then 0.5 else 0.0;
    var pedal := if 5.0 < t < 7.0 then 0.3 else 0.0;
    (stick, pedal)
  }

  /** The run length and sample count run_simulation uses when none are given. */
  const DefaultDuration: real := 10.0
  const DefaultSteps: int := 5000

  /** linspace(0, duration, steps): steps points from 0 to duration, evenly spaced. */
  function Linspace(duration: real, steps: int): (t: seq<real>)
    requires steps >= 2
    ensures |t| == steps
  {
    seq(steps, i requires 0 <= i => (i as real) * duration / ((steps - 1) as real))
  }

  /** The step size the loop uses: the spacing of the first two grid points. */
  function StepSize(t: seq<real>): real
    requires |t| >= 2
  {
    t[1] - t[0]
  }

  /** The grid starts at 0, ends at duration, and consecutive points are
      duration / (steps - 1) apart; in particular that spacing is the step size. */
  lemma GridIsUniform(duration: real, steps: int, i: int)
    requires steps >= 2 && 0 <= i < steps - 1
    ensures Linspace(duration, steps)[0] == 0.0
    ensures Linspace(duration, steps)[steps - 1] == duration
    ensures Linspace(duration, steps)[i + 1] - Linspace(duration, steps)[i] == duration / ((steps - 1) as real)
    ensures StepSize(Linspace(duration, steps)) == duration / ((steps - 1) as real)
  {
    var n := (steps - 1) as real;
    var t := Linspace(duration, steps);
    assert n > 0.0;
    assert t[steps - 1] == n * duration / n;
    assert t[i + 1] == ((i as real) + 1.0) * duration / n;
    assert t[i] == (i as real) * duration / n;
    assert ((i as real) + 1.0) * duration / n == (i as real) * duration / n + duration / n;
    assert t[1] == 1.0 * duration / n;
  }

  /** The loop after the first k samples of the grid t, each pass taking the
      pilot input at its own sample time and advancing by dt. */
  function Iterate(l0: Loop, pilot: real -> (real, real), t: seq<real>, dt: real, k: nat): (r: Loop)
    requires WellShaped(l0) && k <= |t|
    ensures WellShaped(r) && SameConfig(r, l0)
    decreases k
  {
    if k == 0 then l0
    else
      var prev := Iterate(l0, pilot, t, dt, k - 1);
      var input := pilot(t[k - 1]);
      SimStep(prev, input.0, input.1, dt).next
  }

  /** The command the controller hands the actuator on sample k. */
  function CommandAt(l0: Loop, pilot: real -> (real, real), t: seq<real>, dt: real, k: nat): (u: Vector)
    requires WellShaped(l0) && k < |t|
    ensures |u| == 2
  {
    var input := pilot(t[k]);
    SimStep(Iterate(l0, pilot, t, dt, k), input.0, input.1, dt).uCmd
  }

  /** The actuator position and rate limits hold after every pass of the loop. */
  lemma ActuatorLimitsHoldThroughout(l0: Loop, pilot: real -> (real, real), t: seq<real>, dt: real, k: nat)
    requires WellShaped(l0) && k <= |t|
    requires Actuator.LimitsNonNegative(l0.act.params) && Actuator.WithinLimits(l0.act)
    ensures Actuator.WithinLimits(Iterate(l0, pilot, t, dt, k).act)
  {
  }

  /** The command fed to the actuator is saturated on every pass of the loop. */
  lemma CommandsSaturatedThroughout(l0: Loop, pilot: real -> (real, real), t: seq<real>, dt: real, k: nat)
    requires WellShaped(l0) && k < |t| && l0.ctrl.uCmdLimit >= 0.0
    ensures Abs(CommandAt(l0, pilot, t, dt, k)[0]) <= l0.ctrl.uCmdLimit
    ensures Abs(CommandAt(l0, pilot, t, dt, k)[1]) <= l0.ctrl.uCmdLimit
  {
  }

  /** With no pilot input at all, a loop at rest stays at rest on every pass. */
  lemma QuietPilotKeepsRest(l0: Loop, pilot: real -> (real, real), t: seq<real>, dt: real, k: nat)
    requires WellShaped(l0) && AtRest(l0) && k <= |t|
    requires ZeroPreserving(l0, dt)
    requires forall s :: pilot(s) == (0.0, 0.0)
    ensures AtRest(Iterate(l0, pilot, t, dt, k))
    decreases k
  {
    if k > 0 {
      var prev := Iterate(l0, pilot, t, dt, k - 1);
      QuietPilotKeepsRest(l0, pilot, t, dt, k - 1);
      assert AtRest(SimStep(prev, 0.0, 0.0, dt).next) by {
        assert ZeroPreserving(prev, dt);
        ZeroInputKeepsRest(prev, dt);
      }
      assert pilot(t[k - 1]) == (0.0, 0.0);
    }
  }

  /** Component c of the plant state after each of the first n passes, in
      order: the time history the loop logs for that component. */
  function StateLog(l0: Loop, pilot: real -> (real, real), t: seq<real>, dt: real, n: nat, c: nat): (r: seq<real>)
    requires WellShaped(l0) && n <= |t| && c < 4
    ensures |r| == n
  {
    seq(n, k requires 0 <= k < n => Iterate(l0, pilot, t, dt, k + 1).plant.x[c])
  }

  /** One more pass appends its state component to the log and keeps the
      earlier entries. */
  lemma StateLogExtends(l0: Loop, pilot: real -> (real, real), t: seq<real>, dt: real, n: nat, c: nat)
    requires WellShaped(l0) && n < |t| && c < 4
    ensures StateLog(l0, pilot, t, dt, n + 1, c) == StateLog(l0, pilot, t, dt, n, c) + [Iterate(l0, pilot, t, dt, n + 1).plant.x[c]]
  {
    var longer, shorter := StateLog(l0, pilot, t, dt, n + 1, c), StateLog(l0, pilot, t, dt, n, c);
    assert forall j :: 0 <= j < n ==> longer[j] == shorter[j];
    Snoc(longer, shorter, Iterate(l0, pilot, t, dt, n + 1).plant.x[c]);
  }

  /** A sequence that agrees with b on b's indices and has x one past them
      is b with x appended. */
  lemma Snoc(a: seq<real>, b: seq<real>, x: real)
    requires |a| == |b| + 1 && a[|b|] == x
    requires forall j :: 0 <= j < |b| ==> a[j] == b[j]
    ensures a == b + [x]
  {
  }

  /** The logged time histories: one entry per grid point. Bank angle and
      roll rate are the raw state components x[3] and x[1]. */
  datatype SimLog = SimLog(time: seq<real>, rollRate: seq<real>, bank: seq<real>)

  /** linspace rejects a negative sample count; with fewer than two samples
      the grid has no second point to take the spacing from. */
  datatype SimError = NegativeSampleCount | TooFewSamples

  datatype Result<T> = Success(value: T) | Failure(error: SimError)

  /** Taking one more element of s extends the prefix by that element. */
  lemma PrefixExtends(s: seq<real>, i: nat)
    requires i <= |s|
    ensures i < |s| ==> s[..i + 1] == s[..i] + [s[i]]
    ensures s[..|s|] == s
  {
  }

  /** The default grid: 5000 points over 10 s, so the step size is 10/4999 s. */
  lemma DefaultGridSpacing()
    ensures Linspace(DefaultDuration, DefaultSteps)[DefaultSteps - 1] == 10.0
    ensures StepSize(Linspace(DefaultDuration, DefaultSteps)) == 10.0 / 4999.0
  {
    GridIsUniform(DefaultDuration, DefaultSteps, 0);
  }

  /** Pass i + 1 is one loop step from the state after pass i, fed with the
      pilot input at grid time t[i]. */
  lemma IterateUnfolds(l0: Loop, pilot: real -> (real, real), t: seq<real>, dt: real, i: nat)
    requires WellShaped(l0) && i < |t|
    ensures var input := pilot(t[i]);
            Iterate(l0, pilot, t, dt, i + 1) == SimStep(Iterate(l0, pilot, t, dt, i), input.0, input.1, dt).next
  {
  }

  /** The loop over the grid t from the loop state l0: one pass per grid point,
      logging the grid time and the plant's roll rate x[1] and bank angle x[3]
      after the pass. */
  method RunLoop(l0: Loop, pilot: real -> (real, real), t: seq<real>, dt: real) returns (log: SimLog)
    requires WellShaped(l0)
    ensures log.time == t
    ensures log.rollRate == StateLog(l0, pilot, t, dt, |t|, 1)
    ensures log.bank == StateLog(l0, pilot, t, dt, |t|, 3)
  {
    var loop := l0;
    var time, rollRate, bank := [], [], [];
    var i := 0;
    while i < |t|
      invariant 0 <= i <= |t|
      invariant loop == Iterate(l0, pilot, t, dt, i)
      invariant time == t[..i]
      invariant rollRate == StateLog(l0, pilot, t, dt, i, 1)
      invariant bank == StateLog(l0, pilot, t, dt, i, 3)
    {
      PrefixExtends(t, i);
      time := time + [t[i]];
      var input := pilot(t[i]);
      IterateUnfolds(l0, pilot, t, dt, i);
      loop := SimStep(loop, input.0, input.1, dt).next;
      StateLogExtends(l0, pilot, t, dt, i, 1);
      StateLogExtends(l0, pilot, t, dt, i, 3);
      rollRate := rollRate + [loop.plant.x[1]];
      bank := bank + [loop.plant.x[3]];
      i := i + 1;
    }
    PrefixExtends(t, |t|);
    return SimLog(time, rollRate, bank);
  }

  /** The simulation run: the grid t = linspace(0, duration, steps), the step
      size dt = t[1] - t[0], the loop built from the configuration, then one
      pass per grid point. */
  method RunSimulation(cfg: Config, pilot: real -> (real, real), duration: real, steps: int) returns (r: Result<SimLog>)
    requires ConfigWellShaped(cfg)
    ensures steps < 0 ==> r == Failure(NegativeSampleCount)
    ensures 0 <= steps < 2 ==> r == Failure(TooFewSamples)
    ensures steps >= 2 <==> r.Success?
    ensures r.Success? ==>
              var t := Linspace(duration, steps);
              && r.value.time == t
              && r.value.rollRate == StateLog(Init(cfg), pilot, t, StepSize(t), steps, 1)
              && r.value.bank == StateLog(Init(cfg), pilot, t, StepSize(t), steps, 3)
  {
    if steps < 0 {
      return Failure(NegativeSampleCount);
    }
    if steps < 2 {
      return Failure(TooFewSamples);
    }
    var t := Linspace(duration, steps);
    var log := RunLoop(Init(cfg), pilot, t, StepSize(t));
    return Success(log);
  }
}
