# F-16-inspired lateral-directional flight control: the per-step control chain

This project models the closed loop of a lateral-directional flight-control
simulation. Each time step chains four elements in a fixed order:

- **Command shaper.** It shapes the raw pilot stick and pedal. Each channel has a slew-rate
  limiter followed by two cascaded first-order low-pass stages. A washout crossfeed is taken
  from the filtered pedal, clamped, then smoothed.
- **State-feedback controller.** It is stateless. It computes `H·[stick, pedal] − K·x`, adds
  the crossfeed to channel 1 and clamps each component to the command limit.
- **Two-channel second-order actuator.** Each channel clamps the acceleration, then
  integrates and clamps the rate, then integrates and clamps the position.
- **Linear plant `x' = A·x + B·u`.** It is advanced by one forward-Euler step. Its state is
  `[beta, p, r, phi]`.

The simulation builds a uniform time grid with `linspace`. It takes the step size from the
first two grid points. It runs the four elements once per grid point and logs the time, the
roll rate `x[1]` and the bank angle `x[3]`.

Every element is an immutable datatype with pure step functions over `real`. The modules
follow the repository's files:

- `saturation.dfy`: the clamp.
- `linear_algebra.dfy`: the `@` products.
- `actuators.dfy`, `command_shaping.dfy`, `controller.dfy` and `plant.dfy`: the four elements.
- `simulate.dfy`: the loop.
- `params.dfy`: the demonstration parameter set as data.

Three choices shape the model:

- **Clamps with an empty interval.** `np.clip` is modelled as numpy evaluates it,
  `min(max(v, lo), hi)`. A negative limit therefore gives an empty clamp interval, and the
  model keeps that case instead of excluding it. Each bound is stated under a non-negative
  limit.
- **Pilot input.** The loop takes the pilot input profile as a function parameter.
  `Simulation.ScriptedPilot` is the profile of the demonstration run.
- **Error cases of the grid.** `linspace` raises on a negative sample count. With fewer than
  two samples, `t[1]` does not exist. Both cases are modelled as `Failure` results of
  `Simulation.RunSimulation`.

## Model

| member | source | states |
|---|---|---|
| Saturation.Clip | src/command_shaping.py:10 | The clamp returns v inside [lo, hi], the nearer bound outside it, and hi for an empty interval, as numpy's clip does. |
| Saturation.Saturate | src/controller.py:16 | The symmetric clamp to ±limit yields a magnitude of at most limit. It passes in-range values through unchanged and sends out-of-range values to the nearer bound. |
| Actuator.New | src/actuators.py:22-27 | A new actuator keeps its parameters and has state [0, 0, 0, 0], which lies within the limits. |
| Actuator.Reset | src/actuators.py:29-30 | Reset zeroes the four state cells, keeps the parameters and equals a fresh instance. |
| Actuator.IntegratedAccel | src/actuators.py:41-43 | The integrated acceleration lies in ±acc_max. It is the raw second-order acceleration when that is within the limit, and the nearer limit otherwise. |
| Actuator.ChannelStep | src/actuators.py:36-59 | The new rate is the old rate integrated at the clamped acceleration, then clamped. The new position is the old position integrated at the new rate, then clamped. The rate lies within ±rate_max and the position within ±delta_max. From in-limit values, the rate moves by at most acc_max·dt and the position by at most rate_max·dt. |
| Actuator.IntegrateClamped | src/actuators.py:45-59 | Integrating over dt and clamping to ±limit gives the integrated value when that is in range and the nearer limit otherwise. The result never exceeds the limit. |
| Actuator.IntegrateClampedChange | src/actuators.py:45-59 | Integrating a value within its limit at a derivative bounded by some bound, then clamping, moves the value by at most bound·dt. This holds for the rate (bound acc_max) and for the position (bound rate_max). |
| Actuator.Step | src/actuators.py:32-64 | Each channel applies the per-channel update to its own parameters, state and command. The returned deflection is the stored position, and the stored positions and rates are within the limits. |
| Actuator.ChannelsIndependent | src/actuators.py:33-61 | A channel's new state and deflection depend only on that channel's parameters, old state and command component. |
| Actuator.ZeroIsFixedPoint | src/actuators.py:37-61 | A zero state under a zero command stays zero and produces a zero deflection. |
| Actuator.Trace | src/actuators.py:32-61 | Every state of a run of steps under a held command, not only the last, keeps the parameters and lies within the position and rate limits. |
| Actuator.LimitTestScenario | tests/test_actuator_limits.py:4-24 | In the limit test (a [10, -10] command held for 2000 steps), every output deflection stays within 0.4 and the final rates within 1.5. |
| Actuator.TraceComponentBounds | tests/test_actuator_limits.py:15-24 | Over a run, the four state components d1, d1_dot, d2 and d2_dot each respect their channel's limit. |
| CommandShaping.EffectiveTau | src/command_shaping.py:5 | The time constant divided by is max(tau, 1e-9). It is positive and equals tau exactly when tau is at least the floor. |
| CommandShaping.PartialStepBetween | src/command_shaping.py:5 | A fraction in [0, 1] of the way from x to u stays between x and u. |
| CommandShaping.FirstOrder | src/command_shaping.py:3-5 | The low-pass step is defined for every tau. It fixes x == u, stays put when dt == 0, reaches u when dt equals the effective tau, and stays between x and u for 0 ≤ dt ≤ effective tau. |
| CommandShaping.RateLimit | src/command_shaping.py:7-10 | The output moves by at most rate·dt and stays between prev and cmd. It equals cmd exactly when cmd is within rate·dt of prev. Otherwise it moves exactly rate·dt toward cmd. A negative allowance pushes prev by the allowance. |
| CommandShaping.New | src/command_shaping.py:20-50 | A new shaper keeps its eight parameters and has all eight state cells at 0. |
| CommandShaping.Reset | src/command_shaping.py:52-59 | Reset zeroes all eight cells, keeps every parameter and equals a fresh shaper. |
| CommandShaping.ChainStep | src/command_shaping.py:62-71 | The rate-limited command reaches the raw input when it is in reach. Otherwise it moves exactly rate·dt toward the input. The first low-pass stage follows the limited command and the second follows the first. Each stage lands between its old value and its input. |
| CommandShaping.CrossfeedLimited | src/command_shaping.py:76-79 | The washout term Kc·(pedal − lag) is clamped to ±crossfeed_limit. It passes through unchanged when in range and goes to the nearer limit otherwise. |
| CommandShaping.Step | src/command_shaping.py:61-82 | Stick and pedal each run the chain update on their own cells. The crossfeed lag is a first-order lag of the filtered pedal with time constant Tc. The clamped washout Kc·(pedal − lag) is then smoothed with tau_cross_smooth. The step returns (stick_f2, pedal_f2, crossfeed_sm). The smoothed crossfeed stays within ±crossfeed_limit when it starts there and dt ≤ tau_cross_smooth. |
| CommandShaping.StickIndependentOfPedal | src/command_shaping.py:63-73 | The stick cells and the filtered stick do not depend on the pedal input or on any pedal-side cell. |
| CommandShaping.PedalAndCrossfeedIndependentOfStick | src/command_shaping.py:64-82 | The pedal cells, the filtered pedal and the crossfeed do not depend on the stick input or on any stick-side cell. |
| CommandShaping.ZeroIsFixedPoint | src/command_shaping.py:61-82 | With all eight cells at zero and zero raw inputs, every cell and every output stays zero. This needs non-negative rate allowances and a non-negative crossfeed limit. |
| CommandShaping.ChainStaysInRange | src/command_shaping.py:62-71 | A channel whose cells and raw input lie in an interval keeps all three cells in it when dt fits both time constants. |
| CommandShaping.Run | src/command_shaping.py:61-82 | Over a sequence of steps the parameters never change, and the smoothed crossfeed stays within ±crossfeed_limit on every step. |
| CommandShaping.StickStaysInRange | src/command_shaping.py:61-73 | Over a whole run, the filtered stick stays inside any interval that holds the initial stick cells and every raw stick input. |
| Controller.Unclamped | src/controller.py:14-15 | Before the clamp, channel 1 is H[0]·[stick, pedal] − K[0]·x + crossfeed and channel 2 is H[1]·[stick, pedal] − K[1]·x. |
| Controller.WithDefaultLimit | src/controller.py:8-11 | A controller built without a limit keeps its gains and gets the default command limit 1.0. |
| Controller.UnclampedExpanded | src/controller.py:14-15 | For the 4-state plant, the two unclamped commands are written out gain by gain. |
| Controller.Compute | src/controller.py:13-17 | Each command component lies within ±u_cmd_limit. It equals the unclamped value when that is in range and the nearer bound otherwise. |
| Controller.CrossfeedOnlyOnChannel1 | src/controller.py:15 | Channel 2's command is the same for every crossfeed value. |
| Controller.ZeroInputsGiveZeroCommand | src/controller.py:14-16 | Zero stick, pedal, state and crossfeed give a zero command. |
| Plant.New | src/plant.py:6-9 | A new plant keeps A and B and has a zero state with one entry per row of A. |
| Plant.Reset | src/plant.py:11-12 | Reset zeroes every state component, keeps the matrices and equals a fresh plant. |
| Plant.Derivative | src/plant.py:15 | Component i of dx is A[i]·x + B[i]·u. |
| Plant.Step | src/plant.py:14-17 | The state becomes x + (A·x + B·u)·dt, component by component. The length of the state and the shapes are preserved. |
| Plant.ZeroIsFixedPoint | src/plant.py:15-16 | A zero state under a zero input stays zero. |
| Plant.ZeroStepIsIdentity | src/plant.py:16 | A zero-length step leaves the plant unchanged. |
| Plant.DerivativeIsLinear | src/plant.py:15 | A·x + B·u is additive in the pair (x, u). |
| Plant.StepIsLinear | src/plant.py:14-17 | The Euler step of a sum of two (state, input) pairs is the sum of their Euler steps. |
| Simulation.Init | src/simulate.py:29-41 | The loop is built from the configuration with every element at rest and every shape consistent. |
| Simulation.SimStep | src/simulate.py:52-58 | One pass runs shaper, controller, actuator and plant in that order with one dt. The controller reads the plant state from before the pass. The command lies within ±u_cmd_limit and the actuator stays within its limits. |
| Simulation.CommandPrecedesPlantUpdate | src/simulate.py:54-58 | A pass's command, deflection and actuator state are the same for any two loops that agree on everything but the plant matrices. |
| Simulation.ZeroInputKeepsRest | src/simulate.py:52-58 | A loop at rest under zero pilot input stays at rest after one pass. |
| Simulation.ScriptedPilot | src/simulate.py:49-50 | The stick is 0.5 exactly when t < 2 and 0 otherwise. The pedal is 0.3 exactly when 5 < t < 7 and 0 otherwise. |
| Simulation.Linspace | src/simulate.py:24 | The grid has exactly `steps` points. |
| Simulation.GridIsUniform | src/simulate.py:24-25 | The grid starts at 0 and ends at duration, and consecutive points are duration/(steps−1) apart. The step size t[1] − t[0] is that spacing. |
| Simulation.DefaultGridSpacing | src/simulate.py:23-25 | The default grid of 5000 points over 10 s ends at 10 s and has step size 10/4999 s. |
| Simulation.Iterate | src/simulate.py:47-58 | After any number of passes, the loop is well shaped and keeps the configuration it was built from. |
| Simulation.ActuatorLimitsHoldThroughout | src/simulate.py:56 | After every pass of the loop, not only the last, each actuator position and rate lies within its limit. |
| Simulation.CommandsSaturatedThroughout | src/simulate.py:54 | On every pass of the loop, the command handed to the actuator lies within ±u_cmd_limit. |
| Simulation.QuietPilotKeepsRest | src/simulate.py:47-58 | With zero stick and pedal throughout, a loop that starts at rest stays at rest after every pass. |
| Simulation.StateLog | src/simulate.py:60-62 | The log of a state component has one entry per pass made. |
| Simulation.StateLogExtends | src/simulate.py:60-62 | One more pass appends exactly its state component to the log and keeps the earlier entries. |
| Simulation.RunLoop | src/simulate.py:47-62 | The time log is the grid itself. Entry k of the roll-rate and bank logs is x[1] and x[3] after the pass at grid point k. |
| Simulation.RunSimulation | src/simulate.py:23-62 | A negative sample count and one of fewer than two fail, and every other count succeeds. On success, the logs are those of the loop over linspace(0, duration, steps) with dt = t[1] − t[0]. |
| Params.DemoConfigIsUsable | src/params.py:6-57 | The parameter set has the shapes the loop needs and non-negative limits, and its actuator is the limit test's. |
| Params.RunDemo | src/simulate.py:23-62 | A run with the default arguments uses the demonstration configuration and the scripted pilot. It succeeds, and its logs are those of the loop over linspace(0, 10, 5000). |
| Params.DemoRunRespectsLimits | src/params.py:43-57 | On the demonstration run, on every pass, deflections stay within 0.4 rad, rates within 1.5 rad/s and commands within ±1. |
| Params.DemoQuietStaysAtRest | src/params.py:32-41 | With the demonstration parameters, zero pilot input keeps the whole loop at rest for every non-negative step size. |

## Left out

- Plotting, directory creation, the progress messages and the entry script are left out. They are output only (src/simulate.py:27, 45, 64-83).
- The `np.degrees` conversion of the logged bank angle and roll rate is left out. The logs hold the raw state components `x[3]` and `x[1]`.
- Floating point is left out. All arithmetic is over exact reals, so IEEE rounding, NaN propagation through `np.clip`, and the 1e-7 slack of the limit test have no counterpart. `linspace` is modelled by its exact formula `i·duration/(steps−1)`.
- The pilot profile is a parameter of the loop, not a fixed function. `Simulation.ScriptedPilot` is the one run_simulation uses.
- Shapes are preconditions: 2-vectors, a 4-state plant, and 4×4, 4×2, 2×4 and 2×2 matrices. The source validates none of them. Longer actuator parameter vectors or a longer command are silently truncated to their first two entries, because the actuator reads only indices 0 and 1. For example, a 3×2 H with a 3×4 K yields a 3-vector command whose third entry the actuator ignores. Other mismatches either raise a numpy error or are silently broadcast. For example, a one-row H makes channel 2 read H[0]·[stick, pedal] − K[1]·x, and a one-row B adds the same B·u to every state component.
- The limit test's step of dt = 0.001 is not fixed in the model. The bounds of Actuator.LimitTestScenario hold for every dt, which includes that one.
- CommandShaping.ZeroIsFixedPoint, Actuator.ZeroIsFixedPoint and Simulation.QuietPilotKeepsRest need the clamp intervals to be non-empty (non-negative limits and rate allowances). With a negative limit, the clamp returns the limit itself and the zero state is not kept.
- Asymptotic behaviour is left out: actuator convergence, washout decay under a held pedal and plant stability. The code states none of it step by step.
- The configuration is a parameter of Simulation.RunSimulation, whereas run_simulation reads the constants of src/params.py. Params.RunDemo is the call with those constants and the default arguments (duration 10.0, steps 5000).
