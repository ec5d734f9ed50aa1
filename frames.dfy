/** Frame accounting: how a global frame index splits into a phase, a position inside the
    phase's cycle, and a simulation or pause sub-state. */
module Frames {

  /** Frames of pause between two phases. */
  const FRAMES_PAUSE: int := 50

  /** A cycle is one phase's simulation frames followed by a pause. */
  function FramesParCycle(nbFramesPhase: nat): int {
    nbFramesPhase + FRAMES_PAUSE
  }

  /** Every cycle counted in full, minus the pause that never follows the last phase. */
  function TotalFrames(nbFramesPhase: nat, phases: nat): (r: int)
    ensures phases >= 1 ==> r == phases * nbFramesPhase + (phases - 1) * FRAMES_PAUSE
  {
    FramesParCycle(nbFramesPhase) * phases - FRAMES_PAUSE
  }

  datatype FrameKind = FrameKind(phase: int, inCycle: int, pause: bool, sim: bool)

  /** Phase and position inside the cycle of a frame, counted by taking off whole cycles. */
  function Split(frame: nat, cycle: nat): (r: (nat, nat))
    requires cycle > 0
    ensures r.1 < cycle
    decreases frame
  {
    if frame < cycle then (0, frame)
    else
      var (q, m) := Split(frame - cycle, cycle);
      (q + 1, m)
  }

  /** The split is floor division and remainder. */
  lemma {:induction false} SplitIsDivMod(frame: nat, cycle: nat)
    requires cycle > 0
    ensures Split(frame, cycle) == (frame / cycle, frame % cycle)
  {
    if frame < cycle {
      DivModUnique(0, frame, cycle);
    } else {
      SplitIsDivMod(frame - cycle, cycle);
      var (q, m) := Split(frame - cycle, cycle);
      assert frame == (q + 1) * cycle + m;
      DivModUnique(q + 1, m, cycle);
    }
  }

  /** The director's classification of a frame: its phase and its position in the cycle are
      the quotient and remainder by the cycle length. A frame is a pause frame when it lies
      past the simulation frames of its cycle and its phase is not the last; it is a
      simulation frame when it is not a pause frame and lies inside the simulation frames. */
  function Classify(frame: nat, nbFramesPhase: nat, phases: nat): (c: FrameKind)
    ensures !(c.sim && c.pause)
    ensures 0 <= c.phase && 0 <= c.inCycle < FramesParCycle(nbFramesPhase)
  {
    var (phase, inCycle) := Split(frame, FramesParCycle(nbFramesPhase));
    var pause := inCycle >= nbFramesPhase && phase < phases - 1;
    var sim := !pause && inCycle < nbFramesPhase;
    FrameKind(phase, inCycle, pause, sim)
  }

  /** Phase and position are `frame // cycle` and `frame % cycle`. */
  lemma ClassifyIsDivMod(frame: nat, nbFramesPhase: nat, phases: nat)
    ensures var c := Classify(frame, nbFramesPhase, phases);
      c.phase == frame / FramesParCycle(nbFramesPhase) && c.inCycle == frame % FramesParCycle(nbFramesPhase)
  {
    SplitIsDivMod(frame, FramesParCycle(nbFramesPhase));
  }

  /** The phase and the position in the cycle recompose the frame index. */
  lemma ClassifyRecomposes(frame: nat, nbFramesPhase: nat, phases: nat)
    ensures var c := Classify(frame, nbFramesPhase, phases);
      frame == c.phase * FramesParCycle(nbFramesPhase) + c.inCycle
  {
    ClassifyIsDivMod(frame, nbFramesPhase, phases);
  }

  /** Division by a positive divisor is determined by any quotient and in-range remainder. */
  lemma DivModUnique(q: int, r: int, d: int)
    requires d > 0 && 0 <= r < d
    ensures (q * d + r) / d == q
    ensures (q * d + r) % d == r
  {
    var x := q * d + r;
    var k := x / d - q;
    assert k * d == r - x % d;
    MulMonotone(1, k, d);
    MulMonotone(k, -1, d);

  }

  /** Multiplying by a non-negative factor preserves order. */
  lemma MulMonotone(a: int, b: int, d: int)
    requires d >= 0
    ensures a <= b ==> a * d <= b * d
  {
    if a <= b {
      assert b * d - a * d == (b - a) * d;
    }
  }

  /** Inside the script every frame has a phase in range, is exactly one of simulation and
      pause, and the last phase never pauses. */
  lemma ScriptedFrame(frame: int, nbFramesPhase: nat, phases: nat)
    requires phases >= 1 && 0 <= frame < TotalFrames(nbFramesPhase, phases)
    ensures var c := Classify(frame, nbFramesPhase, phases);
      0 <= c.phase < phases &&
      c.sim != c.pause &&
      (c.phase == phases - 1 ==> c.sim) &&
      (c.sim <==> c.inCycle < nbFramesPhase)
  {
    var cycle := FramesParCycle(nbFramesPhase);
    var c := Classify(frame, nbFramesPhase, phases);
    ClassifyRecomposes(frame, nbFramesPhase, phases);
    MulMonotone(phases, c.phase, cycle);
    MulMonotone(c.phase, -1, cycle);
    assert 0 <= c.phase < phases;
    if c.phase == phases - 1 {
      assert c.inCycle < nbFramesPhase;
    }
  }

  /** Taking off whole cycles from `q` cycles and `m` more frames leaves `q` and `m`. */
  lemma {:induction false} SplitOf(q: nat, m: nat, cycle: nat)
    requires m < cycle
    ensures Split(q * cycle + m, cycle) == (q, m)
  {
    if q > 0 {
      assert q * cycle + m - cycle == (q - 1) * cycle + m;
      SplitOf(q - 1, m, cycle);
    }
  }

  /** The `j`-th simulation frame of phase `p` is scripted and classified as such. */
  lemma SimFrameOf(p: int, j: int, nbFramesPhase: nat, phases: nat)
    requires 0 <= p < phases && 0 <= j < nbFramesPhase
    ensures var frame := p * FramesParCycle(nbFramesPhase) + j;
      0 <= frame < TotalFrames(nbFramesPhase, phases) &&
      Classify(frame, nbFramesPhase, phases) == FrameKind(p, j, false, true)
  {
    var cycle := FramesParCycle(nbFramesPhase);
    SplitOf(p, j, cycle);
    MulMonotone(p, phases - 1, cycle);
    assert (phases - 1) * cycle == phases * cycle - cycle;
    MulMonotone(0, p, cycle);
  }

  /** The `j`-th pause frame after phase `p` (not the last phase) is scripted and classified
      as such. */
  lemma PauseFrameOf(p: int, j: int, nbFramesPhase: nat, phases: nat)
    requires 0 <= p < phases - 1 && 0 <= j < FRAMES_PAUSE
    ensures var frame := p * FramesParCycle(nbFramesPhase) + nbFramesPhase + j;
      0 <= frame < TotalFrames(nbFramesPhase, phases) &&
      Classify(frame, nbFramesPhase, phases) == FrameKind(p, nbFramesPhase + j, true, false)
  {
    var cycle := FramesParCycle(nbFramesPhase);
    SplitOf(p, nbFramesPhase + j, cycle);
    assert p * cycle + nbFramesPhase + j == p * cycle + (nbFramesPhase + j);
    MulMonotone(p, phases - 2, cycle);
    assert (phases - 2) * cycle == phases * cycle - 2 * cycle;
    MulMonotone(0, p, cycle);
  }

  /** Going back one frame either stays in the same cycle, one step earlier, or leaves the
      cycle's start for the previous cycle's last position. */
  lemma {:induction false} SplitPrevious(frame: nat, cycle: nat)
    requires cycle > 0 && frame >= 1
    ensures var (q, m) := Split(frame, cycle);
      (m != 0 ==> Split(frame - 1, cycle) == (q, m - 1)) &&
      (m == 0 ==> q >= 1 && Split(frame - 1, cycle) == (q - 1, cycle - 1))
  {
    if frame > cycle {
      SplitPrevious(frame - cycle, cycle);
    }
  }

  /** Going from one frame to the next either stays in the same cycle, one step further,
      or enters the next cycle at its start. */
  lemma NextFrame(frame: nat, nbFramesPhase: nat, phases: nat)
    requires frame >= 1
    ensures var c := Classify(frame, nbFramesPhase, phases);
      var b := Classify(frame - 1, nbFramesPhase, phases);
      (c.inCycle != 0 ==> b.phase == c.phase && b.inCycle == c.inCycle - 1) &&
      (c.inCycle == 0 ==> b.phase == c.phase - 1 && b.inCycle == FramesParCycle(nbFramesPhase) - 1)
  {
    SplitPrevious(frame, FramesParCycle(nbFramesPhase));
  }

  /** A scripted simulation frame that does not open its cycle follows the previous position
      of the same phase. */
  lemma LaterSimulationFrame(frame: nat, nbFramesPhase: nat, phases: nat)
    requires phases >= 1 && frame < TotalFrames(nbFramesPhase, phases)
    requires Classify(frame, nbFramesPhase, phases).inCycle != 0 && Classify(frame, nbFramesPhase, phases).sim
    ensures frame >= 1
    ensures var c := Classify(frame, nbFramesPhase, phases);
      var b := Classify(frame - 1, nbFramesPhase, phases);
      c == FrameKind(c.phase, c.inCycle, false, true) && 1 <= c.inCycle < nbFramesPhase &&
      b.phase == c.phase && b.inCycle == c.inCycle - 1
  {
    ScriptedFrame(frame, nbFramesPhase, phases);
    if frame > 0 {
      NextFrame(frame, nbFramesPhase, phases);
    }
  }

  /** A scripted pause frame past its cycle's first position follows the previous position of
      the same phase, which is not the last. */
  lemma LaterPauseFrame(frame: nat, nbFramesPhase: nat, phases: nat)
    requires phases >= 1 && frame < TotalFrames(nbFramesPhase, phases)
    requires Classify(frame, nbFramesPhase, phases).inCycle != 0 && !Classify(frame, nbFramesPhase, phases).sim
    ensures frame >= 1
    ensures var c := Classify(frame, nbFramesPhase, phases);
      var b := Classify(frame - 1, nbFramesPhase, phases);
      c == FrameKind(c.phase, c.inCycle, true, false) &&
      nbFramesPhase <= c.inCycle < FramesParCycle(nbFramesPhase) && c.phase < phases - 1 &&
      b.phase == c.phase && b.inCycle == c.inCycle - 1
  {
    ScriptedFrame(frame, nbFramesPhase, phases);
    if frame > 0 {
      NextFrame(frame, nbFramesPhase, phases);
    }
  }
}
