/** The discrete PID controller: anti-windup on the integral and a saturated output. */
module Pid {
  import opened Numeric

  /** Gains, setpoint, step and bounds: what a computation reads but does not change. */
  datatype Tuning = Tuning(
    kp: real, ki: real, kd: real,
    pointConsigne: real, dt: real,
    integraleMin: real, integraleMax: real,
    sortieMin: real, sortieMax: real)

  /** What a computation carries over to the next one. */
  datatype PidMemory = PidMemory(integrale: real, erreurPrecedente: real)

  /** The tuple a computation returns: the clamped signal, the error and the three terms. */
  datatype PidOutput = PidOutput(signal: real, erreur: real, termeP: real, termeI: real, termeD: real)

  datatype PidStep = PidStep(out: PidOutput, memory: PidMemory)

  /** One controller computation for the measured value `valeurActuelle`. The measured velocity
      is accepted and ignored: the derivative acts on the error. */
  function Law(t: Tuning, m: PidMemory, valeurActuelle: real, vitesseActuelle: real): (r: PidStep)
    requires t.dt != 0.0
    ensures r.out.erreur == t.pointConsigne - valeurActuelle
    ensures r.memory.erreurPrecedente == r.out.erreur
    ensures t.integraleMin <= t.integraleMax ==> t.integraleMin <= r.memory.integrale <= t.integraleMax
    ensures t.integraleMin <= m.integrale + r.out.erreur * t.dt <= t.integraleMax ==>
      r.memory.integrale == m.integrale + r.out.erreur * t.dt
    ensures t.integraleMin <= t.integraleMax && m.integrale + r.out.erreur * t.dt > t.integraleMax ==>
      r.memory.integrale == t.integraleMax
    ensures t.integraleMin <= t.integraleMax && m.integrale + r.out.erreur * t.dt < t.integraleMin ==>
      r.memory.integrale == t.integraleMin
    ensures t.sortieMin <= t.sortieMax ==> t.sortieMin <= r.out.signal <= t.sortieMax
    ensures t.sortieMin <= r.out.termeP + r.out.termeI + r.out.termeD <= t.sortieMax ==>
      r.out.signal == r.out.termeP + r.out.termeI + r.out.termeD
  {
    var erreur := t.pointConsigne - valeurActuelle;
    var termeP := t.kp * erreur;
    var integrale := Clip(m.integrale + erreur * t.dt, t.integraleMin, t.integraleMax);
    var termeI := t.ki * integrale;
    var deriveeErreur := (erreur - m.erreurPrecedente) / t.dt;
    var termeD := t.kd * deriveeErreur;
    var signal := Clip(termeP + termeI + termeD, t.sortieMin, t.sortieMax);
    PidStep(PidOutput(signal, erreur, termeP, termeI, termeD), PidMemory(integrale, erreur))
  }

  /** A computation is characterised by its error, its clamped integral and its three terms. */
  lemma LawOf(t: Tuning, m: PidMemory, valeurActuelle: real, vitesseActuelle: real, out: PidOutput, next: PidMemory)
    requires t.dt != 0.0
    requires out.erreur == t.pointConsigne - valeurActuelle
    requires next == PidMemory(Clip(m.integrale + out.erreur * t.dt, t.integraleMin, t.integraleMax), out.erreur)
    requires out.termeP == t.kp * out.erreur
    requires out.termeI == t.ki * next.integrale
    requires out.termeD == t.kd * ((out.erreur - m.erreurPrecedente) / t.dt)
    requires out.signal == Clip(out.termeP + out.termeI + out.termeD, t.sortieMin, t.sortieMax)
    ensures PidStep(out, next) == Law(t, m, valeurActuelle, vitesseActuelle)
  {
  }

  /** The three terms of a computation: the proportional term scales the error, the integral
      term the new clamped integral, and the derivative term the change from the error remembered
      by the previous computation, over one step. */
  lemma LawTerms(t: Tuning, m: PidMemory, valeurActuelle: real, vitesseActuelle: real)
    requires t.dt != 0.0
    ensures var r := Law(t, m, valeurActuelle, vitesseActuelle);
      r.out.termeP == t.kp * r.out.erreur && r.out.termeI == t.ki * r.memory.integrale &&
      r.out.termeD == t.kd * ((r.out.erreur - m.erreurPrecedente) / t.dt)
  {
  }

  /** The measured velocity has no effect on anything a computation produces. */
  lemma VelocityIgnored(t: Tuning, m: PidMemory, valeur: real, v1: real, v2: real)
    requires t.dt != 0.0
    ensures Law(t, m, valeur, v1) == Law(t, m, valeur, v2)
  {
  }

  /** When the output saturates, it sits exactly on the bound it crossed. */
  lemma Saturation(t: Tuning, m: PidMemory, valeur: real, vitesse: real)
    requires t.dt != 0.0 && t.sortieMin <= t.sortieMax
    ensures var o := Law(t, m, valeur, vitesse).out;
      (o.termeP + o.termeI + o.termeD > t.sortieMax ==> o.signal == t.sortieMax) &&
      (o.termeP + o.termeI + o.termeD < t.sortieMin ==> o.signal == t.sortieMin)
  {
  }

  /** The first computation of the P run (Kp = 1.2, setpoint 5, dt = 0.05, from position 0):
      error 5, integral 0.25, output 6. */
  lemma FirstComputationOfPRun()
    ensures Law(Tuning(1.2, 0.0, 0.0, 5.0, 0.05, -12.0, 12.0, -18.0, 18.0), PidMemory(0.0, 0.0), 0.0, 0.0)
      == PidStep(PidOutput(6.0, 5.0, 6.0, 0.0, 0.0), PidMemory(0.25, 5.0))
  {
  }

  class ControleurPID {
    var kp: real
    var ki: real
    var kd: real
    const pointConsigne: real
    const dt: real
    var integrale: real
    var erreurPrecedente: real
    const integraleMin: real
    const integraleMax: real
    const sortieMin: real
    const sortieMax: real

    constructor (kp: real, ki: real, kd: real, pointConsigne: real, dt: real,
                 limitesIntegrale: (real, real) := (-12.0, 12.0),
                 limitesSortie: (real, real) := (-18.0, 18.0))
      ensures Settings() == Tuning(kp, ki, kd, pointConsigne, dt,
                                   limitesIntegrale.0, limitesIntegrale.1, limitesSortie.0, limitesSortie.1)
      ensures Memory() == PidMemory(0.0, 0.0)
    {
      this.kp, this.ki, this.kd := kp, ki, kd;
      this.pointConsigne := pointConsigne;
      this.dt := dt;
      integrale := 0.0;
      erreurPrecedente := 0.0;
      integraleMin, integraleMax := limitesIntegrale.0, limitesIntegrale.1;
      sortieMin, sortieMax := limitesSortie.0, limitesSortie.1;
    }

    function Settings(): Tuning
      reads this
    {
      Tuning(kp, ki, kd, pointConsigne, dt, integraleMin, integraleMax, sortieMin, sortieMax)
    }

    function Memory(): PidMemory
      reads this
    {
      PidMemory(integrale, erreurPrecedente)
    }

    /** One computation: updates the clamped integral and the previous error, returns the
        clamped control signal with the error and the three terms. Law's contract gives the
        bounds on the new integral and on the signal. */
    method Calculer(valeurActuelle: real, vitesseActuelle: real) returns (out: PidOutput)
      requires dt != 0.0
      modifies this`integrale, this`erreurPrecedente
      ensures PidStep(out, PidMemory(integrale, erreurPrecedente)) ==
              Law(Settings(), PidMemory(old(integrale), old(erreurPrecedente)), valeurActuelle, vitesseActuelle)
    {
      var erreur := pointConsigne - valeurActuelle;
      var termeP := kp * erreur;
      var nouvelleIntegrale := Clip(integrale + erreur * dt, integraleMin, integraleMax);
      var termeI := ki * nouvelleIntegrale;
      var deriveeErreur := (erreur - erreurPrecedente) / dt;
      var termeD := kd * deriveeErreur;
      var signal := Clip(termeP + termeI + termeD, sortieMin, sortieMax);
      out := PidOutput(signal, erreur, termeP, termeI, termeD);
      integrale, erreurPrecedente := nouvelleIntegrale, erreur;
      LawOf(Settings(), PidMemory(old(integrale), old(erreurPrecedente)), valeurActuelle, vitesseActuelle,
            out, PidMemory(integrale, erreurPrecedente));
    }

    /** Clears the integral and the previous error; gains, setpoint, step and bounds stay. */
    method Reinit()
      modifies this`integrale, this`erreurPrecedente
      ensures Memory() == PidMemory(0.0, 0.0)
    {
      integrale := 0.0;
      erreurPrecedente := 0.0;
    }
  }
}
