/** The animation's script: its constants, the three controller phases, the closed-loop
    trajectory each phase draws from rest, and the fade of the curve during a pause. */
module Script {
  import opened Plant
  import opened Pid

  const POINT_CONSIGNE: real := 5.0
  const POS_INITIALE: real := 0.0
  const DT: real := 0.05
  const MASSE: real := 1.0
  const AMORTISSEMENT: real := 0.25
  const INTEGRALE_MIN: real := -12.0
  const INTEGRALE_MAX: real := 12.0
  const SORTIE_MIN: real := -18.0
  const SORTIE_MAX: real := 18.0

  /** Durations, in frames, of the text fades and of the title slide. */
  const FRAMES_FONDU_TEXTE: int := 15
  const FRAMES_TRANSITION_TITRE: int := 20

  /** Vertical positions of the texts, as fractions of the axes' height. */
  const POS_Y_TITRE_AXES_FINAL: real := 0.93
  const POS_Y_DESC_AXES_FINAL: real := 0.15
  const POS_Y_TITRE_AXES_INITIAL: real := 1.03
  const POS_Y_DESC_AXES_INITIAL: real := 0.05
  const POS_Y_TRANSITION: real := 0.55

  /** The gains of one phase. */
  datatype PhaseConfig = PhaseConfig(kp: real, ki: real, kd: real)

  /** P, then PI, then full PID. */
  const CONFIGS: seq<PhaseConfig> := [
    PhaseConfig(1.2, 0.0, 0.0),
    PhaseConfig(1.0, 0.5, 0.0),
    PhaseConfig(1.8, 0.7, 2.2)
  ]

  /** The controller settings a phase runs with: its gains and the fixed setpoint, step and bounds. */
  function TuningFor(c: PhaseConfig): (t: Tuning)
    ensures t.dt != 0.0 && t.integraleMin <= t.integraleMax && t.sortieMin <= t.sortieMax
  {
    Tuning(c.kp, c.ki, c.kd, POINT_CONSIGNE, DT, INTEGRALE_MIN, INTEGRALE_MAX, SORTIE_MIN, SORTIE_MAX)
  }

  /** Plant and controller memory together: the state of the closed loop. */
  datatype Loop = Loop(motion: Motion, memory: PidMemory)

  /** Where every phase starts: the mass at rest at the initial position, the controller cleared. */
  const START: Loop := Loop(Motion(POS_INITIALE, 0.0), PidMemory(0.0, 0.0))

  /** What the controller computes from a loop state. */
  function Command(c: PhaseConfig, s: Loop): PidStep {
    Law(TuningFor(c), s.memory, s.motion.position, s.motion.vitesse)
  }

  /** One closed-loop step: the controller reads the plant, then the plant moves under its signal. */
  function Advance(c: PhaseConfig, s: Loop): Loop {
    var st := Command(c, s);
    Loop(Advanced(s.motion, MASSE, AMORTISSEMENT, st.out.signal, DT), st.memory)
  }

  /** The loop state after `n` steps of phase `c`. */
  function Run(c: PhaseConfig, n: nat): Loop {
    if n == 0 then START else Advance(c, Run(c, n - 1))
  }

  /** The positions drawn after steps 1 to `n`. */
  function Positions(c: PhaseConfig, n: nat): seq<real> {
    if n == 0 then [] else Positions(c, n - 1) + [Run(c, n).motion.position]
  }

  /** The time stamps of steps 1 to `n`: step `i + 1` is drawn at `i * DT`. */
  function Times(n: nat): seq<real> {
    if n == 0 then [] else Times(n - 1) + [(n - 1) as real * DT]
  }

  /** The `i`-th drawn point is the position after step `i + 1`. */
  lemma {:induction false} PositionsIndexed(c: PhaseConfig, n: nat)
    ensures |Positions(c, n)| == n
    ensures forall i :: 0 <= i < n ==> Positions(c, n)[i] == Run(c, i + 1).motion.position
  {
    if n > 0 {
      PositionsIndexed(c, n - 1);
    }
  }

  /** The `i`-th time stamp is `i * DT`. */
  lemma {:induction false} TimesIndexed(n: nat)
    ensures |Times(n)| == n
    ensures forall i :: 0 <= i < n ==> Times(n)[i] == i as real * DT
  {
    if n > 0 {
      TimesIndexed(n - 1);
    }
  }

  /** Along every run the integral stays within its bounds and every signal within the
      output bounds. */
  lemma RunStaysBounded(c: PhaseConfig, n: nat)
    ensures n > 0 ==> INTEGRALE_MIN <= Run(c, n).memory.integrale <= INTEGRALE_MAX
    ensures SORTIE_MIN <= Command(c, Run(c, n)).out.signal <= SORTIE_MAX
  {
  }

  /** After a step the controller remembers the error it measured on that step. */
  lemma RunRemembersError(c: PhaseConfig, n: nat)
    ensures Run(c, n + 1).memory.erreurPrecedente == POINT_CONSIGNE - Run(c, n).motion.position
  {
  }

  /** The first step of the P phase: output 6 moves the mass to 0.015 at speed 0.3, and the
      second step measures the error 4.985. */
  lemma FirstStepOfPPhase()
    ensures Run(CONFIGS[0], 1) == Loop(Motion(0.015, 0.3), PidMemory(0.25, 5.0))
    ensures Command(CONFIGS[0], Run(CONFIGS[0], 1)).out.erreur == 4.985
  {
    assert Run(CONFIGS[0], 0) == START;
  }

  /** Without integral action, the mass at rest on the setpoint with a cleared controller does
      not move: the setpoint is an equilibrium of the P phase. */
  lemma SetpointIsEquilibriumOfP()
    ensures Advance(CONFIGS[0], Loop(Motion(POINT_CONSIGNE, 0.0), PidMemory(0.0, 0.0))).motion
      == Motion(POINT_CONSIGNE, 0.0)
  {
    var s := Loop(Motion(POINT_CONSIGNE, 0.0), PidMemory(0.0, 0.0));
    assert Command(CONFIGS[0], s).out.signal == 0.0;
    RestIsEquilibrium(POINT_CONSIGNE, MASSE, AMORTISSEMENT, DT);
  }

  /** One pause frame of the curve: it fades by 15% while its opacity is above 0.1. */
  function FadeStep(b: real): (r: real)
    ensures r <= b
    ensures b > 0.1 ==> r < b && r > 0.085
    ensures b <= 0.1 ==> r == b
  {
    if b > 0.1 then b * 0.85 else b
  }

  /** The curve's opacity after `j` pause frames, starting fully opaque. */
  function Faded(j: nat): real {
    if j == 0 then 1.0 else FadeStep(Faded(j - 1))
  }

  /** The faded opacity stays in (0.085, 1]: the curve never disappears. */
  lemma {:induction false} FadedBounds(j: nat)
    ensures 0.085 < Faded(j) <= 1.0
  {
    if j > 0 {
      FadedBounds(j - 1);
    }
  }

  /** The fade never brightens the curve. */
  lemma {:induction false} FadedNonIncreasing(i: nat, j: nat)
    requires i <= j
    ensures Faded(j) <= Faded(i)
  {
    if i < j {
      FadedNonIncreasing(i, j - 1);
    }
  }

  /** Fifteen pause frames take the curve to `0.85^15`, just under 0.1. */
  lemma FadeReachesFloor()
    ensures Faded(14) > 0.1
    ensures Faded(15) == 0.087354219101251702667236328125
  {
    assert Faded(1) == 0.85;
    assert Faded(2) == 0.7225;
    assert Faded(3) == 0.614125;
    assert Faded(4) == 0.52200625;
    assert Faded(5) == 0.4437053125;
    assert Faded(6) == 0.377149515625;
    assert Faded(7) == 0.32057708828125;
    assert Faded(8) == 0.2724905250390625;
    assert Faded(9) == 0.231616946283203125;
    assert Faded(10) == 0.19687440434072265625;
    assert Faded(11) == 0.1673432436896142578125;
    assert Faded(12) == 0.142241757136172119140625;
    assert Faded(13) == 0.12090549356574630126953125;
    assert Faded(14) == 0.1027696695308843560791015625;
    assert Faded(15) == 0.087354219101251702667236328125;
  }

  /** From the fifteenth pause frame on, the curve's opacity no longer changes. */
  lemma {:induction false} FadeSettles(j: nat)
    requires j >= 15
    ensures Faded(j) == Faded(15) < 0.1
  {
    if j == 15 {
      FadeReachesFloor();
    } else {
      FadeSettles(j - 1);
    }
  }
}
