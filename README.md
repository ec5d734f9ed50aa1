# PID animation: the simulation and frame director, in Dafny

The modelled program renders a video in three phases. Each phase shows a damped mass driven to a
setpoint of 5 by a discrete controller, tuned as P, then PI, then full PID. Between two phases
there is a 50-frame pause, during which the curve fades. The pause also animates the title and
description out and a banner in, but its progress is not clamped to [0, 1]. With the program's
180-frame phases the counter is already past twice both text durations when a pause starts, so the
banner stays transparent for the whole pause, the title and description stay opaque, and their
vertical positions are pushed away from their targets rather than toward them. One call of the
frame function draws one video frame.

The model covers:

- **The plant** (`Plant`): a mass with viscous damping, advanced by semi-implicit Euler.
  - `Systeme` is a class whose methods update `position` and `vitesse` in place.
  - `Advanced` is the pure step the class is proved against.
- **The controller** (`Pid`): the `ControleurPID` class, with anti-windup on the integral
  (clamped to ±12) and an output clamped to ±18.
  - `Calculer` is proved against the pure law `Law`.
  - `Law` carries the clamps, the error and the remembered error in its contract. `LawTerms`
    states the three terms.
- **Easing** (`Easing`): `ease_out_quad` and `ease_in_out_quad` as functions, with their
  endpoints, their range on [0, 1] and their monotonicity.
- **Overlay animation** (`Overlay`): `animer_proprietes_texte` as `TextOverlay.Animer`, proved
  against the pure `Animated`.
  - Opacity is lerped and clipped to [0, 1].
  - The vertical position snaps onto its target within 0.001.
  - A box opacity exists only on texts that carry a box.
  - Progress is not clamped. Past twice the duration the decelerating curve turns negative, and
    lemmas state what the code then does.
- **Frame accounting** (`Frames`): `frames_par_cycle`, `total_frames` and the per-frame
  classification into phase, position in the cycle, simulation or pause.
  - The classification is computed by taking off whole cycles.
  - It is proved equal to floor division and remainder.
- **The script** (`Script`): the constants, the three gain sets, and the closed-loop run `Run`
  from rest that each phase draws.
  - `Positions` and `Times` are the points that run puts in the history.
  - `Faded` is the curve's opacity after `j` pause frames.
- **The director** (`Director`): `maj_animation` and the module globals it changes, as the
  class `Animation`.
  - `MajAnimation` keeps the source's order: text block, phase change, then pause or
    simulation logic.
  - It is proved equal to the value-level step `FrameStep` on a `Snapshot` of every field.
  - `Played(n)` is the state after frames `0 .. n-1` played in order from the state `init`
    leaves.
  - `PlayedConforms` proves that every such state conforms to the script. The history is the
    run's points, plant and controller are where the run is, and the counter, patch, arrow,
    curve opacity and texts are what the frame's position dictates.

`nb_frames_phase` comes from a floating-point `np.arange` in the source. Here it is a positive
constructor parameter (`nbFramesPhase`); the source's value is 180. All arithmetic is on `real`.

## Model

| member | source | states |
|---|---|---|
| Numeric.Clip | pid_animation.py:50-51 | like `np.clip` with ordered bounds, the result lies in `[lo, hi]`; it is the input when that lies inside, and the crossed bound otherwise |
| Plant.StepLaw | pid_animation.py:25-30 | a step obeys `masse * dv == (F - c v) dt`, and the position moves by the NEW velocity times `dt` |
| Plant.RestIsEquilibrium | pid_animation.py:25-30 | without force, a mass at rest does not move |
| Plant.DampingDissipates | pid_animation.py:26-28 | without force, and with `c dt <= m`, damping never increases the speed's magnitude |
| Plant.FirstStepFromRest | pid_animation.py:25-30 | force 6 from rest at 0 (m = 1, c = 0.25, dt = 0.05) gives v = 0.3, x = 0.015 |
| Plant.Systeme.constructor | pid_animation.py:19-23 | the mass starts at the given position at rest, with the given mass and damping (defaults 0, 1 and 0.25) |
| Plant.Systeme.Maj | pid_animation.py:25-30 | the new position and velocity are one `Advanced` step of the old ones; the returned pair is the new state |
| Plant.Systeme.Reinit | pid_animation.py:32-34 | position becomes the argument (default 0) and velocity 0; mass and damping are constants |
| Pid.Law | pid_animation.py:47-58 | error is setpoint minus measure and is remembered; the integral stays in its bounds, is the plain sum when that fits and sits on the bound it crossed otherwise (anti-windup); the signal stays in the output bounds and is P + I + D when that fits |
| Pid.LawTerms | pid_animation.py:49-54 | the proportional term is `Kp` times the error, the integral term `Ki` times the new clamped integral, and the derivative term `Kd` times the change from the error remembered by the PREVIOUS computation, over `dt` |
| Pid.VelocityIgnored | pid_animation.py:47-58 | the measured velocity has no effect on any output or on the memory |
| Pid.Saturation | pid_animation.py:56-57 | a saturated signal sits exactly on the bound it crossed |
| Pid.FirstComputationOfPRun | pid_animation.py:47-58 | the first P computation from 0 yields error 5, integral 0.25 and output 6 |
| Pid.ControleurPID.constructor | pid_animation.py:38-45 | gains, setpoint, step and bounds as given, default bounds ±12 and ±18; memory cleared |
| Pid.ControleurPID.Calculer | pid_animation.py:47-58 | the returned tuple and the new integral and previous error are exactly `Law` of the old memory, so they lie within the integral and output bounds |
| Pid.ControleurPID.Reinit | pid_animation.py:60-62 | integral and previous error become 0; gains and settings are untouched (not in `modifies`) |
| Easing.EaseOutQuad | pid_animation.py:162 | 0 maps to 0 and 1 to 1; [0, 1] maps into [0, 1]; the value never exceeds 1 and is not positive from t = 2 on |
| Easing.EaseInOutQuad | pid_animation.py:163 | 0, 0.5 and 1 map to themselves; [0, 1] maps into [0, 1] |
| Easing.EaseOutQuadMonotone | pid_animation.py:162 | non-decreasing on [0, 1] |
| Easing.EaseInOutQuadMonotone | pid_animation.py:163 | non-decreasing on [0, 1], across the switch at 0.5 |
| Easing.Ease | pid_animation.py:168 | either curve maps [0, 1] into [0, 1] and 1 to 1 |
| Overlay.Progress | pid_animation.py:167 | a non-positive duration gives 1; inside the duration progress is in [0, 1]; it reaches 1 at the duration and is at least 2 from twice the duration |
| Overlay.NextAlpha | pid_animation.py:171-174 | when the opacity moves (more than 0.01 off, or 0/1 targets not reached) the result is in [0, 1]; otherwise it is unchanged |
| Overlay.NextBbox | pid_animation.py:186-192 | the same rule for a box, whose extra trigger is a target above 0.8 with the box below 0.8 |
| Overlay.NextY | pid_animation.py:177-181 | within 0.001 of the target the position snaps onto it; with eased progress in [0, 1] it lands between start and target; at progress 1 it lands on the target |
| Overlay.LerpBetween | pid_animation.py:178 | the lerp's distance to the target is the old distance times `abs(1 - f)`, and it lies between its ends for `f` in [0, 1] |
| Overlay.AlphaApproaches | pid_animation.py:172-174 | with progress and target in [0, 1], opacity stays in [0, 1] and never moves away from its target |
| Overlay.AlphaArrives | pid_animation.py:172-174 | at eased progress 1, an opacity aimed at 0 or 1 lands on it exactly |
| Overlay.AlphaStays | pid_animation.py:172-174 | an opacity sitting on a target of 0 or 1 stays there |
| Overlay.LateProgressHoldsAlpha | pid_animation.py:167-174 | with non-positive eased progress, a fade-in from 0 stays at 0 and a fade-out from 1 stays at 1 (the clip cancels the backward step) |
| Overlay.LateProgressRepelsY | pid_animation.py:177-179 | with negative eased progress, the unclipped vertical position moves AWAY from its target |
| Overlay.AnimatedKeepsOpacities | pid_animation.py:165-192 | an animation call keeps opacity and box opacity in [0, 1] |
| Overlay.AnimatedArrives | pid_animation.py:165-181 | on the call where the count reaches the duration, a 0/1 opacity and the position land on their targets |
| Overlay.AnimatedAtRest | pid_animation.py:165-192 | a text already on its 0/1 opacity, position and box target stays there |
| Overlay.AnimatedLateHolds | pid_animation.py:165-192 | from twice the duration on, a fade-out from 1 stays at 1 and a fade-in from 0 stays at 0 with the ease-out curve |
| Overlay.TextOverlay.constructor | pid_animation.py:142-154 | a text starts with the given element, opacity, position and box opacity |
| Overlay.TextOverlay.Animer | pid_animation.py:165-192 | the new opacity, position and box opacity are `Animated` of the old ones; the box only exists for the title (0.6) and the banner (0.85) |
| Frames.TotalFrames | pid_animation.py:94-95 | the total is `phases * nb + (phases - 1) * 50`: every cycle but the last is followed by a pause |
| Frames.SplitIsDivMod | pid_animation.py:226-227 | taking off whole cycles gives `frame // cycle` and `frame % cycle` |
| Frames.Classify | pid_animation.py:226-229 | a frame is never both simulation and pause; its position lies inside its cycle |
| Frames.ClassifyIsDivMod | pid_animation.py:226-227 | the phase and the position in the cycle are the quotient and remainder by `frames_par_cycle` |
| Frames.ClassifyRecomposes | pid_animation.py:226-227 | phase times cycle plus position gives back the frame |
| Frames.ScriptedFrame | pid_animation.py:226-229 | for every frame below the total, the phase is below the number of phases, exactly one of simulation and pause holds, the last phase never pauses, and simulation means position below `nb` |
| Frames.SplitOf | pid_animation.py:226-227 | `q` whole cycles plus `m < cycle` frames split back into `(q, m)` |
| Frames.SimFrameOf | pid_animation.py:226-229 | the `j`-th simulation frame of every phase is inside the total and classified as simulation |
| Frames.PauseFrameOf | pid_animation.py:226-229 | the `j`-th pause frame after every phase but the last is inside the total and classified as pause |
| Frames.SplitPrevious | pid_animation.py:226-227 | the frame before stays in the cycle one position earlier, or is the previous cycle's last position |
| Frames.NextFrame | pid_animation.py:226-227 | consecutive frames either advance one position in the same phase or open the next phase at position 0 |
| Frames.LaterSimulationFrame | pid_animation.py:226-229 | a simulation frame that does not open its cycle is preceded by the previous position of the same phase, itself a simulation position |
| Frames.LaterPauseFrame | pid_animation.py:226-229 | a pause frame is preceded by the previous position of the same phase; that phase is not the last |
| Script.TuningFor | pid_animation.py:258-265 | the controller's settings for a phase have a non-zero step and ordered bounds |
| Script.PositionsIndexed | pid_animation.py:302-305 | the `i`-th drawn position is the position after `i + 1` steps of the run |
| Script.TimesIndexed | pid_animation.py:300-304 | the `i`-th time stamp is `i * DT` |
| Script.RunStaysBounded | pid_animation.py:50-57 | along every phase's run the integral stays within ±12 and every signal within ±18 |
| Script.RunRemembersError | pid_animation.py:55 | after a step the controller remembers the error it measured on it |
| Script.FirstStepOfPPhase | pid_animation.py:299-302 | the first step of the P phase moves the mass to 0.015 at speed 0.3; the next error is 4.985 |
| Script.SetpointIsEquilibriumOfP | pid_animation.py:85-86 | with P gains, the mass at rest on the setpoint with a cleared controller does not move |
| Script.FadeStep | pid_animation.py:251-252 | a pause frame never brightens the curve; above 0.1 it strictly darkens it while keeping it above 0.085; at 0.1 or below it is unchanged |
| Script.FadedBounds | pid_animation.py:251-252 | after any number of pause frames the curve's opacity lies in (0.085, 1] |
| Script.FadedNonIncreasing | pid_animation.py:251-252 | more pause frames never mean a brighter curve |
| Script.FadeReachesFloor | pid_animation.py:251-252 | 14 pause frames leave the opacity above 0.1, and the 15th takes it to `0.85^15` |
| Script.FadeSettles | pid_animation.py:251-252 | from the 15th pause frame on the opacity stays at `0.85^15`, below 0.1 |
| Director.StartOfPhase | pid_animation.py:257-284 | the first frame of a phase leaves the state after position 0: history = first point of the run, counter 0, gains of the phase, texts at their starting places |
| Director.TextsOfSimulationFrame | pid_animation.py:232-241 | a simulation frame's text block keeps opacities in range and the banner idle, and puts title and description on their marks from the 20th frame |
| Director.TraceOfSimulationFrame | pid_animation.py:299-316 | a later simulation frame appends the run's next point and time, and shows the patch |
| Director.SimStepKeeps | pid_animation.py:299-330 | the simulation logic leaves the phase, the counter, the gains, the curve's opacity and the texts as they were |
| Director.ArrowOfSimulationFrame | pid_animation.py:318-330 | a simulation frame shows the arrow exactly when the new signal exceeds 0.1, opaque only if it already showed |
| Director.SimulationFrame | pid_animation.py:299-316 | a simulation frame after the first takes the state after position `k - 1` to the state after position `k` |
| Director.TextsOfPauseFrame | pid_animation.py:243-249 | a pause frame's text block keeps opacities in range; with `nb >= 40` the title and description stay opaque, and with `nb >= 30` the banner stays transparent |
| Director.RestOfPauseFrame | pid_animation.py:250-295 | a pause frame leaves history, plant, controller and arrow visibility alone, hides patch and arrow and fades the curve |
| Director.PauseFrame | pid_animation.py:287-295 | a pause frame takes the state after position `k - 1` to the state after position `k` |
| Director.OpeningFrameConforms | pid_animation.py:257-266 | played in order, a frame that opens a cycle resets the director into its phase |
| Director.SimulationFrameConforms | pid_animation.py:299-316 | played in order, a later simulation frame keeps the state conforming |
| Director.PauseFrameConforms | pid_animation.py:243-253 | played in order, a pause frame keeps the state conforming |
| Director.FrameConforms | pid_animation.py:222-333 | every frame played in order keeps the state conforming to the script |
| Director.PlayedConforms | pid_animation.py:337-338 | the state after frames `0 .. n-1`, played in order from the `init` state, conforms to the script for every `n` up to the total |
| Director.PhaseStartResets | pid_animation.py:257-266 | after a phase's first frame: counter 0, the phase's gains, plant and controller one step from rest, exactly one point in the history, patch hidden, curve opaque |
| Director.SimulationHistory | pid_animation.py:304-316 | after position `k` of a phase the history has `k + 1` points: the `i`-th at time `i * DT`, at the run's position after `i + 1` steps, the last being the plant's; the patch shows exactly when there are two points or more |
| Director.PauseFrameFades | pid_animation.py:251-252 | a pause frame multiplies the curve's opacity by 0.85 while above 0.1, else leaves it, never brightens it, and leaves history, plant and controller unchanged |
| Director.Animation.constructor | pid_animation.py:194-218 | the artists as `init` leaves them: no phase, transparent texts at their starting places, opaque curve, hidden patch and arrow |
| Director.Animation.AnimerTextesSimulation | pid_animation.py:232-241 | the counter advances, title and description are animated in, the banner out, the curve is opaque and the arrow's opacity follows its visibility |
| Director.Animation.AnimerTextesPause | pid_animation.py:243-253 | the counter advances, title and description are animated out, the banner in, the curve fades by 0.85 while above 0.1, the arrow is transparent |
| Director.Animation.ChangerPhase | pid_animation.py:257-284 | the phase change's whole reset: the loop's half, then the display's half |
| Director.Animation.ReinitialiserBoucle | pid_animation.py:257-266 | phase index, counter 0, plant at rest at 0, the phase's gains, cleared controller and empty history; nothing else changes |
| Director.Animation.ReinitialiserAffichage | pid_animation.py:268-284 | curve opaque, title, description and banner transparent at their starting places, arrow hidden; nothing else changes |
| Director.Animation.PasSimulation | pid_animation.py:299-330 | one controller computation and one plant step, the time and new position appended, patch from the second point, arrow visibility from the signal |
| Director.Animation.MajAnimation | pid_animation.py:222-333 | the new state is the frame step of the old state for the frame's classification |

## Left out

- Fonts, styles, colours, text strings and their setters, the time display, legends and axes are not modelled: they only affect rendering.
- The per-phase y-axis limits are not modelled. They only enter the arrow's geometry, which is also left out; the model keeps the arrow's visibility and opacity.
- `FuncAnimation`, the video writer and ffmpeg are not modelled. The only thing used from them is that frames `0 .. total_frames - 1` are drawn in order after `init`, and that is what `Director.Played` models.
- Floating-point rounding is not modelled: all arithmetic is on `real`. `np.arange` is replaced by the parameter `nbFramesPhase`.
- Plant.Systeme.Maj: requires a non-zero mass. In the program the force is the `np.float64` that `np.clip` returns, so a zero mass gives numpy's infinite or undefined acceleration (with a warning), not an error. The model has no non-finite values.
- Pid.ControleurPID.Calculer: requires a non-zero `dt`. In the program a zero step raises `ZeroDivisionError` on a computation from a plain-float position, and gives infinite or undefined terms once the position is an `np.float64`. The model has no non-finite values. Its bounds on the integral and on the signal come from the contract of `Pid.Law`, which it is proved equal to, and are not repeated in its own `ensures`.
- Director.Animation.MajAnimation: frames may be drawn in any order. Ordered play, and with it the script's invariant, is stated on values, by `Director.Played` and `Director.PlayedConforms`, not as a class invariant.
- Director.PlayedConforms: the text overlays are pinned down only partly.
  - Their opacities stay in [0, 1].
  - The banner is idle while simulating.
  - Title and description are on their marks from the 20th simulation frame.
  - For long phases (the source's 180 frames), the unclamped progress of the pause leaves title and description opaque and the banner transparent.
  - Positions during the pause are not pinned: the code pushes them away from their targets.
- `init` does not touch the plant or the controller: the y-limit precompute (pid_animation.py:105-112) leaves the plant at the end of the last phase's run. `Director.INIT` puts both at rest at the initial position instead. Nothing can tell the two apart, because frame 0's phase change resets both before anything reads them.
- Parameters that the source never reassigns after construction (mass, damping, setpoint, step, bounds) are `const` fields.
- The description text has no background box, so nothing updates a box opacity for it.
