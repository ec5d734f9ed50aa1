/** The frame director: one call per video frame animates the texts, the curve and the force
    arrow and, phase after phase, runs the controller and the plant from rest. */
module Director {
  import opened Numeric
  import opened Plant
  import opened Pid
  import opened Easing
  import opened Overlay
  import opened Frames
  import opened Script

  /** Everything a frame reads or changes, as values: the director's own variables, the
      plant's motion, the controller's gains and memory, and the three texts. */
  datatype Snapshot = Snapshot(
    idxPhase: int,
    counter: int,
    historiqueX: seq<real>,
    historiqueY: seq<real>,
    motion: Motion,
    gains: PhaseConfig,
    memory: PidMemory,
    ligneAlpha: real,
    patchVisible: bool,
    flecheVisible: bool,
    flecheAlpha: real,
    temps: real,
    titre: Look,
    description: Look,
    transition: Look)

  /** Text block of a simulation frame: the counter advances, title and description slide in
      and appear, the banner fades out, the curve is opaque, the arrow shows if visible. */
  function TextsSim(s: Snapshot): Snapshot {
    var n := s.counter + 1;
    s.(counter := n,
       titre := Animated(Title, s.titre, 1.0, POS_Y_TITRE_AXES_FINAL, s.titre.y,
                         n, FRAMES_TRANSITION_TITRE, OutQuad),
       description := Animated(Description, s.description, 1.0, POS_Y_DESC_AXES_FINAL, s.description.y,
                               n, FRAMES_TRANSITION_TITRE, OutQuad),
       transition := Animated(Transition, s.transition, 0.0, POS_Y_TRANSITION, s.transition.y,
                              n, FRAMES_FONDU_TEXTE, OutQuad),
       ligneAlpha := 1.0,
       flecheAlpha := if s.flecheVisible then 0.85 else 0.0)
  }

  /** Text block of a pause frame: the counter advances, title and description slide out and
      disappear, the banner appears, the curve fades, the arrow is transparent. */
  function TextsPause(s: Snapshot): Snapshot {
    var n := s.counter + 1;
    s.(counter := n,
       titre := Animated(Title, s.titre, 0.0, POS_Y_TITRE_AXES_INITIAL, s.titre.y,
                         n, FRAMES_TRANSITION_TITRE, OutQuad),
       description := Animated(Description, s.description, 0.0, POS_Y_DESC_AXES_INITIAL, s.description.y,
                               n, FRAMES_TRANSITION_TITRE, OutQuad),
       transition := Animated(Transition, s.transition, 1.0, POS_Y_TRANSITION, s.transition.y,
                              n, FRAMES_FONDU_TEXTE, OutQuad),
       ligneAlpha := FadeStep(s.ligneAlpha),
       flecheAlpha := 0.0)
  }

  /** Entering phase `idx`: counter, plant, gains, controller memory and history start over,
      the curve is opaque, the texts are back at their starting places, the arrow is hidden. */
  function PhaseReset(s: Snapshot, idx: int): Snapshot
    requires 0 <= idx < |CONFIGS|
  {
    s.(idxPhase := idx,
       counter := 0,
       motion := START.motion,
       gains := CONFIGS[idx],
       memory := START.memory,
       historiqueX := [],
       historiqueY := [],
       ligneAlpha := 1.0,
       titre := Look(0.0, POS_Y_TITRE_AXES_INITIAL, 0.0),
       description := s.description.(alpha := 0.0, y := POS_Y_DESC_AXES_INITIAL),
       transition := Look(0.0, POS_Y_TRANSITION, 0.0),
       flecheVisible := false,
       flecheAlpha := 0.0)
  }

  /** Simulation step at position `frameDansCycle` of the cycle: one controller computation,
      one plant step, one point appended; the error patch shows from the second point on and
      the arrow while the signal exceeds 0.1 in magnitude. */
  function SimStep(s: Snapshot, frameDansCycle: int): Snapshot {
    var temps := frameDansCycle as real * DT;
    var st := Command(s.gains, Loop(s.motion, s.memory));
    var motion := Advanced(s.motion, MASSE, AMORTISSEMENT, st.out.signal, DT);
    var hx := s.historiqueX + [temps];
    var visible := Abs(st.out.signal) > 0.1;
    s.(temps := temps,
       memory := st.memory,
       motion := motion,
       historiqueX := hx,
       historiqueY := s.historiqueY + [motion.position],
       patchVisible := |hx| > 1,
       flecheVisible := visible,
       flecheAlpha := if visible then s.flecheAlpha else 0.0)
  }

  /** A snapshot that took the control step `st` and recorded it is the simulation step. */
  lemma SimStepOf(s: Snapshot, k: int, st: PidStep, r: Snapshot)
    requires st == Command(s.gains, Loop(s.motion, s.memory))
    requires r.motion == Advanced(s.motion, MASSE, AMORTISSEMENT, st.out.signal, DT)
    requires r == s.(temps := k as real * DT, memory := st.memory, motion := r.motion,
                     historiqueX := s.historiqueX + [k as real * DT],
                     historiqueY := s.historiqueY + [r.motion.position],
                     patchVisible := |r.historiqueX| > 1,
                     flecheVisible := Abs(st.out.signal) > 0.1,
                     flecheAlpha := if Abs(st.out.signal) > 0.1 then s.flecheAlpha else 0.0)
    ensures r == SimStep(s, k)
  {
  }

  /** One frame of the classification `c`, in the director's order: text block first, then
      the phase change, then the pause or simulation logic. */
  function FrameStep(s: Snapshot, c: FrameKind): Snapshot
    requires c.phase >= 0
  {
    var s1 := if c.sim then TextsSim(s) else if c.pause then TextsPause(s) else s;
    var s2 := if c.phase != s1.idxPhase && c.phase < |CONFIGS| then PhaseReset(s1, c.phase) else s1;
    if c.pause then s2.(patchVisible := false)
    else if c.sim then SimStep(s2, c.inCycle)
    else s2
  }

  /** The three blocks of a frame, composed, make the frame's step. */
  lemma FrameStepOf(s0: Snapshot, s1: Snapshot, s2: Snapshot, s3: Snapshot, c: FrameKind)
    requires c.phase >= 0
    requires s1 == if c.sim then TextsSim(s0) else if c.pause then TextsPause(s0) else s0
    requires s2 == if c.phase != s1.idxPhase && c.phase < |CONFIGS| then PhaseReset(s1, c.phase) else s1
    requires s3 == if c.pause then s2.(patchVisible := false) else if c.sim then SimStep(s2, c.inCycle) else s2
    ensures s3 == FrameStep(s0, c)
  {
  }

  predicate AllOpacities(s: Snapshot) {
    Opacities(s.titre) && Opacities(s.description) && Opacities(s.transition)
  }

  /** Position `k` of phase `p`'s cycle exists (`nb` simulation frames per phase). */
  predicate InScript(p: int, k: int, nb: nat) {
    0 <= p < |CONFIGS| && 0 <= k && nb > 0
  }

  /** Points drawn once the frame at position `k` of a cycle is done. */
  function Drawn(k: nat, nb: nat): nat {
    if k < nb then k + 1 else nb
  }

  /** The director follows phase `p`, its counter is at `k`, the controller has `p`'s gains. */
  predicate Following(s: Snapshot, p: int, k: int)
    requires 0 <= p < |CONFIGS|
  {
    s.idxPhase == p && s.counter == k && s.gains == CONFIGS[p]
  }

  /** The history holds the points of phase `p`'s run from rest, plant and controller are
      where that run is, the patch shows from the second point of a simulation frame on, and
      the clock shows the last simulated time. */
  predicate Traced(s: Snapshot, p: int, k: int, nb: nat)
    requires InScript(p, k, nb)
  {
    var cfg := CONFIGS[p];
    var n := Drawn(k, nb);
    s.historiqueX == Times(n) && s.historiqueY == Positions(cfg, n) &&
    Loop(s.motion, s.memory) == Run(cfg, n) &&
    s.patchVisible == (k < nb && k > 0) &&
    s.temps == (n - 1) as real * DT
  }

  /** The arrow is visible when the last signal exceeds 0.1 in magnitude, and opaque (0.85)
      only on a simulation frame where the previous signal did too. */
  predicate Arrowed(s: Snapshot, p: int, k: int, nb: nat)
    requires InScript(p, k, nb)
  {
    var cfg := CONFIGS[p];
    s.flecheVisible == (Abs(Command(cfg, Run(cfg, Drawn(k, nb) - 1)).out.signal) > 0.1) &&
    s.flecheAlpha ==
      (if k < nb && k > 0 && s.flecheVisible && Abs(Command(cfg, Run(cfg, k - 1)).out.signal) > 0.1
       then 0.85 else 0.0)
  }

  /** The curve is opaque while simulating and has faded once per pause frame so far. */
  predicate Curved(s: Snapshot, k: int, nb: nat)
    requires 0 <= k && nb > 0
  {
    s.ligneAlpha == Faded(if k < nb then 0 else k - nb + 1)
  }

  /** The texts are in range, and the states that the unclamped progress pins down hold: the
      banner is idle while simulating, title and description are on their marks from the
      twentieth frame, and in a long phase (`nb >= 40`, `nb >= 30` for the banner) the pause
      neither hides the title and description nor shows the banner. */
  predicate Texted(s: Snapshot, k: int, nb: nat) {
    var sim := k < nb;
    AllOpacities(s) &&
    (sim ==> s.transition == Look(0.0, POS_Y_TRANSITION, 0.0)) &&
    (k == 0 ==> s.titre == Look(0.0, POS_Y_TITRE_AXES_INITIAL, 0.0) &&
                s.description.alpha == 0.0 && s.description.y == POS_Y_DESC_AXES_INITIAL) &&
    (sim && k >= FRAMES_TRANSITION_TITRE ==>
       s.titre.alpha == 1.0 && s.titre.y == POS_Y_TITRE_AXES_FINAL &&
       s.description.alpha == 1.0 && s.description.y == POS_Y_DESC_AXES_FINAL) &&
    (!sim && nb >= 2 * FRAMES_TRANSITION_TITRE ==> s.titre.alpha == 1.0 && s.description.alpha == 1.0) &&
    (!sim && nb >= 2 * FRAMES_FONDU_TEXTE ==> s.transition.alpha == 0.0 && s.transition.bboxAlpha == 0.0)
  }

  /** The state after the frame at position `k` of phase `p`'s cycle. */
  predicate After(s: Snapshot, p: int, k: int, nb: nat) {
    InScript(p, k, nb) &&
    Following(s, p, k) && Traced(s, p, k, nb) && Arrowed(s, p, k, nb) && Curved(s, k, nb) && Texted(s, k, nb)
  }

  /** The state after `played` frames: before the first one no phase is active. */
  predicate Conforms(s: Snapshot, played: nat, nb: nat) {
    if played == 0 then s.idxPhase == -1 && AllOpacities(s)
    else
      var c := Classify(played - 1, nb, |CONFIGS|);
      After(s, c.phase, c.inCycle, nb)
  }

  /** The first frame of a phase resets everything and draws the first point of the run. */
  lemma StartOfPhase(s: Snapshot, p: int, nb: nat)
    requires nb > 0 && 0 <= p < |CONFIGS| && s.idxPhase != p && AllOpacities(s)
    ensures After(FrameStep(s, FrameKind(p, 0, false, true)), p, 0, nb)
  {
    var cfg := CONFIGS[p];
    var t := TextsSim(s);
    AnimatedKeepsOpacities(Description, s.description, 1.0, POS_Y_DESC_AXES_FINAL, s.description.y,
                           s.counter + 1, FRAMES_TRANSITION_TITRE, OutQuad);
    var u := PhaseReset(t, p);
    var r := SimStep(u, 0);
    assert FrameStep(s, FrameKind(p, 0, false, true)) == r;
    assert Run(cfg, 1) == Advance(cfg, START);
    assert Following(r, p, 0);
    assert Traced(r, p, 0, nb);
    assert Arrowed(r, p, 0, nb);
    assert Curved(r, 0, nb);
    assert Texted(r, 0, nb);
  }

  /** The text block of a simulation frame after the first keeps the texts' invariant. */
  lemma TextsOfSimulationFrame(s: Snapshot, k: int, nb: nat)
    requires 1 <= k < nb && s.counter == k - 1 && Texted(s, k - 1, nb)
    ensures Texted(TextsSim(s), k, nb)
  {
    AnimatedKeepsOpacities(Title, s.titre, 1.0, POS_Y_TITRE_AXES_FINAL, s.titre.y,
                           k, FRAMES_TRANSITION_TITRE, OutQuad);
    AnimatedKeepsOpacities(Description, s.description, 1.0, POS_Y_DESC_AXES_FINAL, s.description.y,
                           k, FRAMES_TRANSITION_TITRE, OutQuad);
    AnimatedAtRest(Transition, s.transition, 0.0, k, FRAMES_FONDU_TEXTE, OutQuad);
    if k == FRAMES_TRANSITION_TITRE {
      AnimatedArrives(Title, s.titre, 1.0, POS_Y_TITRE_AXES_FINAL, s.titre.y, k, OutQuad);
      AnimatedArrives(Description, s.description, 1.0, POS_Y_DESC_AXES_FINAL, s.description.y, k, OutQuad);
    } else if k > FRAMES_TRANSITION_TITRE {
      AnimatedAtRest(Title, s.titre, 1.0, k, FRAMES_TRANSITION_TITRE, OutQuad);
      AnimatedAtRest(Description, s.description, 1.0, k, FRAMES_TRANSITION_TITRE, OutQuad);
    }
  }

  /** The simulation step of a frame after the first appends the next point of the run. */
  lemma TraceOfSimulationFrame(t: Snapshot, p: int, k: int, nb: nat)
    requires 1 <= k < nb && InScript(p, k, nb) && t.gains == CONFIGS[p]
    requires Traced(t, p, k - 1, nb)
    ensures Traced(SimStep(t, k), p, k, nb)
  {
    var cfg := CONFIGS[p];
    assert Run(cfg, k + 1) == Advance(cfg, Run(cfg, k));
    assert Times(k + 1) == Times(k) + [k as real * DT];
    assert Positions(cfg, k + 1) == Positions(cfg, k) + [Run(cfg, k + 1).motion.position];
  }

  /** The simulation step of a frame after the first shows the arrow for the new signal and
      keeps it opaque only if the previous signal showed it too. */
  lemma ArrowOfSimulationFrame(t: Snapshot, p: int, k: int, nb: nat)
    requires 1 <= k < nb && InScript(p, k, nb) && t.gains == CONFIGS[p]
    requires Loop(t.motion, t.memory) == Run(CONFIGS[p], k)
    requires t.flecheVisible == (Abs(Command(CONFIGS[p], Run(CONFIGS[p], k - 1)).out.signal) > 0.1)
    requires t.flecheAlpha == (if t.flecheVisible then 0.85 else 0.0)
    ensures Arrowed(SimStep(t, k), p, k, nb)
  {
  }

  /** A simulation frame of the phase being followed is its text block, then its step. */
  lemma SimulationFrameSteps(s: Snapshot, c: FrameKind)
    requires c.phase == s.idxPhase >= 0 && c.sim && !c.pause
    ensures FrameStep(s, c) == SimStep(TextsSim(s), c.inCycle)
  {
  }

  /** The simulation step touches neither the phase, the counter, the gains, the curve's
      opacity nor the texts. */
  lemma SimStepKeeps(t: Snapshot, p: int, k: int, nb: nat)
    requires 0 <= p < |CONFIGS| && 0 <= k < nb
    requires Following(t, p, k) && t.ligneAlpha == 1.0 && Texted(t, k, nb)
    ensures Following(SimStep(t, k), p, k) && Curved(SimStep(t, k), k, nb) && Texted(SimStep(t, k), k, nb)
  {
  }

  /** A simulation frame after the first extends the run by one step. */
  lemma SimulationFrame(s: Snapshot, r: Snapshot, b: FrameKind, c: FrameKind, nb: nat)
    requires 1 <= c.inCycle < nb && After(s, b.phase, b.inCycle, nb) && b.phase == c.phase && b.inCycle == c.inCycle - 1
    requires c == FrameKind(c.phase, c.inCycle, false, true) && r == FrameStep(s, c)
    ensures After(r, c.phase, c.inCycle, nb)
  {
    var p, k := c.phase, c.inCycle;
    var t := TextsSim(s);
    SimulationFrameSteps(s, c);
    TextsOfSimulationFrame(s, k, nb);
    TraceOfSimulationFrame(t, p, k, nb);
    ArrowOfSimulationFrame(t, p, k, nb);
    SimStepKeeps(t, p, k, nb);
  }

  /** The text block of a pause frame keeps the texts' invariant. */
  lemma TextsOfPauseFrame(s: Snapshot, k: int, nb: nat)
    requires 0 < nb <= k && s.counter == k - 1 && Texted(s, k - 1, nb)
    ensures Texted(TextsPause(s), k, nb)
  {
    AnimatedKeepsOpacities(Title, s.titre, 0.0, POS_Y_TITRE_AXES_INITIAL, s.titre.y,
                           k, FRAMES_TRANSITION_TITRE, OutQuad);
    AnimatedKeepsOpacities(Description, s.description, 0.0, POS_Y_DESC_AXES_INITIAL, s.description.y,
                           k, FRAMES_TRANSITION_TITRE, OutQuad);
    AnimatedKeepsOpacities(Transition, s.transition, 1.0, POS_Y_TRANSITION, s.transition.y,
                           k, FRAMES_FONDU_TEXTE, OutQuad);
    if nb >= 2 * FRAMES_TRANSITION_TITRE {
      AnimatedLateHolds(Title, s.titre, 0.0, POS_Y_TITRE_AXES_INITIAL, s.titre.y, k, FRAMES_TRANSITION_TITRE);
      AnimatedLateHolds(Description, s.description, 0.0, POS_Y_DESC_AXES_INITIAL, s.description.y,
                        k, FRAMES_TRANSITION_TITRE);
    }
    if nb >= 2 * FRAMES_FONDU_TEXTE {
      AnimatedLateHolds(Transition, s.transition, 1.0, POS_Y_TRANSITION, s.transition.y, k, FRAMES_FONDU_TEXTE);
    }
  }

  /** Outside the texts, a pause frame leaves the run, the history and the arrow's visibility
      alone, hides the patch and the arrow, and fades the curve one more step. */
  lemma RestOfPauseFrame(s: Snapshot, r: Snapshot, p: int, k: int, nb: nat)
    requires nb <= k && InScript(p, k, nb)
    requires Following(s, p, k - 1) && Traced(s, p, k - 1, nb) && Arrowed(s, p, k - 1, nb) && Curved(s, k - 1, nb)
    requires r == s.(counter := k, ligneAlpha := FadeStep(s.ligneAlpha), flecheAlpha := 0.0, patchVisible := false,
                     titre := r.titre, description := r.description, transition := r.transition)
    ensures Following(r, p, k) && Traced(r, p, k, nb) && Arrowed(r, p, k, nb) && Curved(r, k, nb)
  {
    assert Drawn(k - 1, nb) == Drawn(k, nb);
  }

  /** A pause frame leaves the run alone and fades the curve one more step. */
  lemma PauseFrame(s: Snapshot, r: Snapshot, b: FrameKind, c: FrameKind, nb: nat)
    requires nb <= c.inCycle < FramesParCycle(nb) && c.phase < |CONFIGS| - 1
    requires After(s, b.phase, b.inCycle, nb) && b.phase == c.phase && b.inCycle == c.inCycle - 1
    requires c == FrameKind(c.phase, c.inCycle, true, false) && r == FrameStep(s, c)
    ensures After(r, c.phase, c.inCycle, nb)
  {
    var p, k := c.phase, c.inCycle;
    assert r == TextsPause(s).(patchVisible := false);
    TextsOfPauseFrame(s, k, nb);
    RestOfPauseFrame(s, r, p, k, nb);
    assert Texted(r, k, nb);
  }

  /** A frame that opens a cycle opens its phase. */
  lemma OpeningFrameConforms(s: Snapshot, t: Snapshot, n: nat, nb: nat)
    requires nb > 0 && 0 < n <= TotalFrames(nb, |CONFIGS|) && Conforms(s, n - 1, nb)
    requires t == FrameStep(s, Classify(n - 1, nb, |CONFIGS|)) && Classify(n - 1, nb, |CONFIGS|).inCycle == 0
    ensures Conforms(t, n, nb)
  {
    var c := Classify(n - 1, nb, |CONFIGS|);
    ScriptedFrame(n - 1, nb, |CONFIGS|);
    if n > 1 {
      NextFrame(n - 1, nb, |CONFIGS|);
    }
    assert s.idxPhase != c.phase;
    StartOfPhase(s, c.phase, nb);
  }

  /** A simulation frame that does not open its cycle extends the run by one step. */
  lemma SimulationFrameConforms(s: Snapshot, t: Snapshot, n: nat, nb: nat)
    requires nb > 0 && 0 < n <= TotalFrames(nb, |CONFIGS|) && Conforms(s, n - 1, nb)
    requires t == FrameStep(s, Classify(n - 1, nb, |CONFIGS|))
    requires Classify(n - 1, nb, |CONFIGS|).inCycle != 0 && Classify(n - 1, nb, |CONFIGS|).sim
    ensures Conforms(t, n, nb)
  {
    LaterSimulationFrame(n - 1, nb, |CONFIGS|);
    SimulationFrame(s, t, Classify(n - 2, nb, |CONFIGS|), Classify(n - 1, nb, |CONFIGS|), nb);
  }

  /** A pause frame fades the curve and leaves the run alone. */
  lemma PauseFrameConforms(s: Snapshot, t: Snapshot, n: nat, nb: nat)
    requires nb > 0 && 0 < n <= TotalFrames(nb, |CONFIGS|) && Conforms(s, n - 1, nb)
    requires t == FrameStep(s, Classify(n - 1, nb, |CONFIGS|))
    requires Classify(n - 1, nb, |CONFIGS|).inCycle != 0 && !Classify(n - 1, nb, |CONFIGS|).sim
    ensures Conforms(t, n, nb)
  {
    LaterPauseFrame(n - 1, nb, |CONFIGS|);
    PauseFrame(s, t, Classify(n - 2, nb, |CONFIGS|), Classify(n - 1, nb, |CONFIGS|), nb);
  }

  /** Frames played in order keep the state conforming to the script. */
  lemma FrameConforms(s: Snapshot, n: nat, nb: nat)
    requires nb > 0 && 0 < n <= TotalFrames(nb, |CONFIGS|) && Conforms(s, n - 1, nb)
    ensures Conforms(FrameStep(s, Classify(n - 1, nb, |CONFIGS|)), n, nb)
  {
    var c := Classify(n - 1, nb, |CONFIGS|);
    var t := FrameStep(s, c);
    if c.inCycle == 0 {
      OpeningFrameConforms(s, t, n, nb);
    } else if c.sim {
      SimulationFrameConforms(s, t, n, nb);
    } else {
      PauseFrameConforms(s, t, n, nb);
    }
  }

  /** The state `init` leaves: no phase yet, texts transparent at their starting places,
      curve opaque, patch and arrow hidden. `init` does not touch the plant or the controller,
      which the axis-limit precompute leaves at the end of its last run; they are put here at
      rest at the initial position instead, which nothing can tell apart, because frame 0's
      phase change resets both before anything reads them. */
  const INIT: Snapshot := Snapshot(-1, 0, [], [], START.motion, PhaseConfig(0.0, 0.0, 0.0), START.memory,
                                   1.0, false, false, 0.0, 0.0,
                                   Look(0.0, POS_Y_TITRE_AXES_INITIAL, 0.0),
                                   Look(0.0, POS_Y_DESC_AXES_INITIAL, 0.0),
                                   Look(0.0, POS_Y_TRANSITION, 0.0))

  /** The state after frames `0` to `n - 1` have been drawn in order from `INIT`. */
  function Played(n: nat, nb: nat): Snapshot {
    if n == 0 then INIT else FrameStep(Played(n - 1, nb), Classify(n - 1, nb, |CONFIGS|))
  }

  /** One more frame played is one more step. */
  lemma PlayedNext(n: nat, nb: nat)
    requires n > 0
    ensures Played(n, nb) == FrameStep(Played(n - 1, nb), Classify(n - 1, nb, |CONFIGS|))
  {
  }

  /** Every state of the animation conforms to the script. */
  lemma {:induction false} PlayedConforms(n: nat, nb: nat)
    requires nb > 0 && n <= TotalFrames(nb, |CONFIGS|)
    ensures Conforms(Played(n, nb), n, nb)
  {
    if n > 0 {
      PlayedConforms(n - 1, nb);
      FrameConforms(Played(n - 1, nb), n, nb);
      PlayedNext(n, nb);
    }
  }

  /** After the first frame of a phase the history holds exactly one point, the first step of
      the phase's run from rest; the counter is back at 0 and the gains are the phase's. */
  lemma PhaseStartResets(r: Snapshot, p: int, nb: nat)
    requires After(r, p, 0, nb)
    ensures r.counter == 0 && r.gains == CONFIGS[p]
    ensures Loop(r.motion, r.memory) == Advance(CONFIGS[p], START)
    ensures r.historiqueX == [0.0] && r.historiqueY == [r.motion.position]
    ensures !r.patchVisible && r.ligneAlpha == 1.0 && r.flecheAlpha == 0.0
  {
    assert Run(CONFIGS[p], 1) == Advance(CONFIGS[p], Run(CONFIGS[p], 0));
    assert Times(1) == [0.0];
  }

  /** After the simulation frame at position `k` of its cycle the history holds `k + 1`
      points, the `i`-th drawn at `i * DT` at the position the run from rest reaches in
      `i + 1` steps, the last one being the plant's position; and the patch shows exactly
      when there are two points or more. */
  lemma SimulationHistory(r: Snapshot, p: int, k: int, nb: nat)
    requires After(r, p, k, nb) && k < nb
    ensures |r.historiqueX| == |r.historiqueY| == k + 1
    ensures forall i :: 0 <= i <= k ==> r.historiqueX[i] == i as real * DT
    ensures forall i :: 0 <= i <= k ==> r.historiqueY[i] == Run(CONFIGS[p], i + 1).motion.position
    ensures r.historiqueY[k] == r.motion.position
    ensures r.patchVisible <==> |r.historiqueX| > 1
  {
    PositionsIndexed(CONFIGS[p], k + 1);
    TimesIndexed(k + 1);
  }

  /** A pause frame multiplies the curve's opacity by 0.85 while it is above 0.1 and leaves it
      alone otherwise, so the opacity never goes up; the history, the plant and the controller
      do not change. */
  lemma PauseFrameFades(s: Snapshot, frame: int, nb: nat)
    requires nb > 0 && 0 <= frame < TotalFrames(nb, |CONFIGS|) && Conforms(s, frame, nb)
    requires Classify(frame, nb, |CONFIGS|).pause
    ensures var r := FrameStep(s, Classify(frame, nb, |CONFIGS|));
      (s.ligneAlpha > 0.1 ==> r.ligneAlpha == 0.85 * s.ligneAlpha) &&
      (s.ligneAlpha <= 0.1 ==> r.ligneAlpha == s.ligneAlpha) &&
      r.ligneAlpha <= s.ligneAlpha &&
      r.historiqueX == s.historiqueX && r.historiqueY == s.historiqueY &&
      r.motion == s.motion && r.memory == s.memory && !r.patchVisible
  {
    var c := Classify(frame, nb, |CONFIGS|);
    ScriptedFrame(frame, nb, |CONFIGS|);
    if frame > 0 {
      ScriptedFrame(frame - 1, nb, |CONFIGS|);
      NextFrame(frame, nb, |CONFIGS|);
    }
    assert c.phase == s.idxPhase;
  }

  /** The animation: the plant, the controller, the three texts, the curve, the error patch
      and the force arrow, driven one frame at a time. */
  class Animation {
    const nbFramesPhase: nat
    const systeme: Systeme
    const controleur: ControleurPID
    const titre: TextOverlay
    const description: TextOverlay
    const transition: TextOverlay

    var idxPhaseActuelle: int
    var frameCountTransition: int
    var historiqueX: seq<real>
    var historiqueY: seq<real>
    var ligneAlpha: real
    var patchVisible: bool
    var flecheVisible: bool
    var flecheAlpha: real
    var tempsGlobalActuel: real

    /** What never changes: the phase length, which text is which, and the plant's and the
        controller's fixed parameters. */
    predicate Wiring() {
      nbFramesPhase > 0 &&
      titre.element == Title && description.element == Description && transition.element == Transition &&
      titre != description && titre != transition && description != transition &&
      systeme.masse == MASSE && systeme.amortissement == AMORTISSEMENT &&
      controleur.pointConsigne == POINT_CONSIGNE && controleur.dt == DT &&
      controleur.integraleMin == INTEGRALE_MIN && controleur.integraleMax == INTEGRALE_MAX &&
      controleur.sortieMin == SORTIE_MIN && controleur.sortieMax == SORTIE_MAX
    }

    function Snap(): Snapshot
      reads this`idxPhaseActuelle, this`frameCountTransition, this`historiqueX, this`historiqueY,
            this`ligneAlpha, this`patchVisible, this`flecheVisible, this`flecheAlpha, this`tempsGlobalActuel,
            systeme, controleur, titre, description, transition
    {
      Snapshot(idxPhaseActuelle, frameCountTransition, historiqueX, historiqueY,
               Motion(systeme.position, systeme.vitesse),
               PhaseConfig(controleur.kp, controleur.ki, controleur.kd),
               PidMemory(controleur.integrale, controleur.erreurPrecedente),
               ligneAlpha, patchVisible, flecheVisible, flecheAlpha, tempsGlobalActuel,
               Look(titre.alpha, titre.y, titre.bboxAlpha),
               Look(description.alpha, description.y, description.bboxAlpha),
               Look(transition.alpha, transition.y, transition.bboxAlpha))
    }

    /** The artists as created and as `init` leaves them: no phase yet, texts transparent at
        their starting places, curve opaque, patch and arrow hidden. */
    constructor (nbFramesPhase: nat)
      requires nbFramesPhase > 0
      ensures Wiring() && Snap() == INIT
    {
      this.nbFramesPhase := nbFramesPhase;
      systeme := new Systeme(POS_INITIALE, MASSE, AMORTISSEMENT);
      controleur := new ControleurPID(0.0, 0.0, 0.0, POINT_CONSIGNE, DT);
      titre := new TextOverlay(Title, 0.0, POS_Y_TITRE_AXES_INITIAL, 0.0);
      description := new TextOverlay(Description, 0.0, POS_Y_DESC_AXES_INITIAL, 0.0);
      transition := new TextOverlay(Transition, 0.0, POS_Y_TRANSITION, 0.0);
      idxPhaseActuelle := -1;
      frameCountTransition := 0;
      historiqueX, historiqueY := [], [];
      ligneAlpha := 1.0;
      patchVisible := false;
      flecheVisible, flecheAlpha := false, 0.0;
      tempsGlobalActuel := 0.0;
    }

    /** Text block of a simulation frame. */
    method AnimerTextesSimulation()
      requires Wiring()
      modifies this`frameCountTransition, this`ligneAlpha, this`flecheAlpha, titre, description, transition
      ensures Snap() == TextsSim(old(Snap()))
    {
      var n := frameCountTransition + 1;
      titre.Animer(1.0, POS_Y_TITRE_AXES_FINAL, titre.y, n, FRAMES_TRANSITION_TITRE);
      description.Animer(1.0, POS_Y_DESC_AXES_FINAL, description.y, n, FRAMES_TRANSITION_TITRE);
      transition.Animer(0.0, POS_Y_TRANSITION, transition.y, n, FRAMES_FONDU_TEXTE);
      frameCountTransition, ligneAlpha, flecheAlpha := n, 1.0, if flecheVisible then 0.85 else 0.0;
    }

    /** Text block of a pause frame. */
    method AnimerTextesPause()
      requires Wiring()
      modifies this`frameCountTransition, this`ligneAlpha, this`flecheAlpha, titre, description, transition
      ensures Snap() == TextsPause(old(Snap()))
    {
      var n := frameCountTransition + 1;
      titre.Animer(0.0, POS_Y_TITRE_AXES_INITIAL, titre.y, n, FRAMES_TRANSITION_TITRE);
      description.Animer(0.0, POS_Y_DESC_AXES_INITIAL, description.y, n, FRAMES_TRANSITION_TITRE);
      transition.Animer(1.0, POS_Y_TRANSITION, transition.y, n, FRAMES_FONDU_TEXTE);
      var alphaLigne := ligneAlpha;
      if alphaLigne > 0.1 {
        alphaLigne := alphaLigne * 0.85;
      }
      frameCountTransition, ligneAlpha, flecheAlpha := n, alphaLigne, 0.0;
    }

    /** Phase change to `idx`: the loop's half of the reset, then the display's half. */
    method ChangerPhase(idx: int)
      requires Wiring() && 0 <= idx < |CONFIGS|
      modifies this`idxPhaseActuelle, this`frameCountTransition, this`historiqueX, this`historiqueY,
               this`ligneAlpha, this`flecheVisible, this`flecheAlpha,
               systeme, controleur, titre, description, transition
      ensures Snap() == PhaseReset(old(Snap()), idx)
    {
      ReinitialiserBoucle(idx);
      ReinitialiserAffichage();
    }

    /** Enters phase `idx`: counter, plant, gains, controller memory and history start over. */
    method ReinitialiserBoucle(idx: int)
      requires 0 <= idx < |CONFIGS|
      modifies this`idxPhaseActuelle, this`frameCountTransition, this`historiqueX, this`historiqueY,
               systeme, controleur
      ensures Snap() == old(Snap()).(idxPhase := idx, counter := 0, motion := START.motion, gains := CONFIGS[idx],
                                     memory := START.memory, historiqueX := [], historiqueY := [])
    {
      var config := CONFIGS[idx];
      systeme.Reinit(POS_INITIALE);
      controleur.kp, controleur.ki, controleur.kd := config.kp, config.ki, config.kd;
      controleur.Reinit();
      idxPhaseActuelle, frameCountTransition, historiqueX, historiqueY := idx, 0, [], [];
    }

    /** Puts the curve, the texts and the arrow back where a phase starts. */
    method ReinitialiserAffichage()
      requires Wiring()
      modifies this`ligneAlpha, this`flecheVisible, this`flecheAlpha, titre, description, transition
      ensures Snap() == old(Snap()).(ligneAlpha := 1.0,
                                     titre := Look(0.0, POS_Y_TITRE_AXES_INITIAL, 0.0),
                                     description := old(Snap()).description.(alpha := 0.0, y := POS_Y_DESC_AXES_INITIAL),
                                     transition := Look(0.0, POS_Y_TRANSITION, 0.0),
                                     flecheVisible := false, flecheAlpha := 0.0)
    {
      titre.y, titre.alpha, titre.bboxAlpha := POS_Y_TITRE_AXES_INITIAL, 0.0, 0.0;
      description.y, description.alpha := POS_Y_DESC_AXES_INITIAL, 0.0;
      transition.y, transition.alpha, transition.bboxAlpha := POS_Y_TRANSITION, 0.0, 0.0;
      ligneAlpha, flecheVisible, flecheAlpha := 1.0, false, 0.0;
    }

    /** Simulation logic of the frame at position `frameDansCycle` of its cycle. */
    method PasSimulation(frameDansCycle: int)
      requires Wiring()
      modifies this`tempsGlobalActuel, this`historiqueX, this`historiqueY, this`patchVisible,
               this`flecheVisible, this`flecheAlpha, systeme, controleur
      ensures Snap() == SimStep(old(Snap()), frameDansCycle)
    {
      ghost var s0 := Snap();
      ghost var st := Command(s0.gains, Loop(s0.motion, s0.memory));
      assert controleur.Settings() == TuningFor(s0.gains);
      var temps := frameDansCycle as real * DT;
      var out := controleur.Calculer(systeme.position, systeme.vitesse);
      var nouvellePos, nouvelleVel := systeme.Maj(out.signal, DT);
      assert out == st.out && controleur.Memory() == st.memory;
      assert systeme.State() == Advanced(s0.motion, MASSE, AMORTISSEMENT, st.out.signal, DT);
      tempsGlobalActuel, historiqueX, historiqueY := temps, historiqueX + [temps], historiqueY + [nouvellePos];
      patchVisible := |historiqueX| > 1;
      if Abs(out.signal) > 0.1 {
        flecheVisible := true;
      } else {
        flecheVisible, flecheAlpha := false, 0.0;
      }
      SimStepOf(s0, frameDansCycle, st, Snap());
    }

    /** Draws frame number `frame`: the text block, the phase change, then the pause or
        simulation logic. Played from `INIT` for frames 0, 1, 2, ... in order, the state after
        frame `n - 1` is `Played(n, nbFramesPhase)`. */
    method MajAnimation(frame: int)
      requires Wiring() && frame >= 0
      modifies this`idxPhaseActuelle, this`frameCountTransition, this`historiqueX, this`historiqueY,
               this`ligneAlpha, this`patchVisible, this`flecheVisible, this`flecheAlpha, this`tempsGlobalActuel,
               systeme, controleur, titre, description, transition
      ensures Snap() == FrameStep(old(Snap()), Classify(frame, nbFramesPhase, |CONFIGS|))
    {
      var c := Classify(frame, nbFramesPhase, |CONFIGS|);
      ghost var s0 := Snap();
      if c.sim {
        AnimerTextesSimulation();
      } else if c.pause {
        AnimerTextesPause();
      }
      ghost var s1 := Snap();
      if c.phase != idxPhaseActuelle && c.phase < |CONFIGS| {
        ChangerPhase(c.phase);
      }
      ghost var s2 := Snap();
      if c.pause {
        patchVisible := false;
      } else if c.sim {
        PasSimulation(c.inCycle);
      }
      FrameStepOf(s0, s1, s2, Snap(), c);
    }
  }
}
