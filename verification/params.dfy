/** The tuned parameter set of the demonstration: an F-16-style
    lateral-directional plant (state [beta, p, r, phi], inputs [aileron,
    rudder]), the feedback and feedforward gains, the command-shaping
    constants, the command limit and the two actuator channels. */
module Params {
  import opened Saturation
  import opened LinearAlgebra
  import Actuator
  import CommandShaping
  import Simulation

  const APlant: Matrix := [
    [-0.322, 0.064, -0.991, 0.048],
    [-30.64, -3.678, 0.665, 0.0],
    [5.861, -0.032, -0.476, 0.0],
    [0.0, 1.0, 0.076, 0.0]]

  const BPlant: Matrix := [
    [0.0, 0.004],
    [-73.14, 3.186],
    [1.954, -4.895],
    [0.0, 0.0]]

  const KGains: Matrix := [
    [0.0, -0.15, 0.0, -0.8],
    [2.0, 0.0, -0.5, 0.0]]

  const HGains: Matrix := [
    [-0.5, 0.0],
    [0.0, -1.0]]

  const StickRate: real := 0.6
  const PedalRate: real := 0.5
  const TauPilot1: real := 0.18
  const TauPilot2: real := 0.18
  const TCrossfeed: real := 0.6
  const KCrossfeed: real := 0.8
  const CrossfeedLimit: real := 0.25
  const TauCrossSmooth: real := 0.08

  /** The FCC command saturation. */
  const UCmdLimit: real := 1.0

  /** Natural frequency (rad/s), damping, position (rad), rate (rad/s) and
      acceleration (rad/s^2) limits, identical on both channels. */
  const ActuatorLimits: Actuator.ActuatorParams :=
    Actuator.ActuatorParams([60.0, 60.0], [0.7, 0.7], [0.4, 0.4], [1.5, 1.5], [50.0, 50.0])

  const Shaping: CommandShaping.ShaperParams :=
    CommandShaping.ShaperParams(StickRate, PedalRate, TauPilot1, TauPilot2,
                                TCrossfeed, KCrossfeed, CrossfeedLimit, TauCrossSmooth)

  /** The configuration the demonstration run builds its loop from. */
  const DemoConfig: Simulation.Config :=
    Simulation.Config(APlant, BPlant, KGains, HGains, Shaping, UCmdLimit, ActuatorLimits)

  /** run_simulation() with no arguments: the demonstration configuration,
      the scripted pilot, and the default duration and sample count. */
  method RunDemo() returns (r: Simulation.Result<Simulation.SimLog>)
    ensures r.Success?
    ensures var t := Simulation.Linspace(10.0, 5000);
            && r.value.time == t
            && r.value.rollRate == Simulation.StateLog(Simulation.Init(DemoConfig), Simulation.ScriptedPilot, t, Simulation.StepSize(t), 5000, 1)
            && r.value.bank == Simulation.StateLog(Simulation.Init(DemoConfig), Simulation.ScriptedPilot, t, Simulation.StepSize(t), 5000, 3)
  {
    DemoConfigIsUsable();
    r := Simulation.RunSimulation(DemoConfig, Simulation.ScriptedPilot, Simulation.DefaultDuration, Simulation.DefaultSteps);
  }

  /** The parameter set has the shapes the loop needs, non-negative limits,
      and the same actuator as the limit test. */
  lemma DemoConfigIsUsable()
    ensures Simulation.ConfigWellShaped(DemoConfig)
    ensures Actuator.LimitsNonNegative(DemoConfig.actuator)
    ensures DemoConfig.actuator == Actuator.TestParams
    ensures DemoConfig.uCmdLimit >= 0.0 && DemoConfig.shaping.crossfeedLimit >= 0.0
  {
  }

  /** On the demonstration run, every pass keeps each actuator deflection
      and rate within the limits of ActuatorLimits (0.4 rad and 1.5 rad/s),
      and every command within ±1, whatever the grid and the step size. */
  lemma DemoRunRespectsLimits(t: seq<real>, dt: real, k: nat)
    requires k < |t|
    ensures Simulation.WellShaped(Simulation.Init(DemoConfig))
    ensures var l := Simulation.Iterate(Simulation.Init(DemoConfig), Simulation.ScriptedPilot, t, dt, k + 1);
            l.act.params == ActuatorLimits && Actuator.WithinLimits(l.act)
    ensures var u := Simulation.CommandAt(Simulation.Init(DemoConfig), Simulation.ScriptedPilot, t, dt, k);
            Abs(u[0]) <= 1.0 && Abs(u[1]) <= 1.0
  {
    DemoConfigIsUsable();
    var l0 := Simulation.Init(DemoConfig);
    Simulation.ActuatorLimitsHoldThroughout(l0, Simulation.ScriptedPilot, t, dt, k + 1);
    Simulation.CommandsSaturatedThroughout(l0, Simulation.ScriptedPilot, t, dt, k);
  }

  /** With the stick and pedal left alone, the demonstration loop stays at
      rest for any non-negative step size. */
  lemma DemoQuietStaysAtRest(t: seq<real>, dt: real, k: nat)
    requires dt >= 0.0 && k <= |t|
    ensures Simulation.WellShaped(Simulation.Init(DemoConfig))
    ensures Simulation.AtRest(Simulation.Iterate(Simulation.Init(DemoConfig), s => (0.0, 0.0), t, dt, k))
  {
    DemoConfigIsUsable();
    var l0 := Simulation.Init(DemoConfig);
    CommandShaping.MulNonNegative(StickRate, dt);
    CommandShaping.MulNonNegative(PedalRate, dt);
    Simulation.QuietPilotKeepsRest(l0, s => (0.0, 0.0), t, dt, k);
  }
}
