/** The controlled plant: a mass with viscous damping, advanced by semi-implicit Euler. */
module Plant {
  import opened Numeric

  /** The part of the plant's state that a step changes. */
  datatype Motion = Motion(position: real, vitesse: real)

  /** One step of length `dt` under `force`: velocity first, then position from the NEW velocity. */
  function Advanced(m: Motion, masse: real, amortissement: real, force: real, dt: real): Motion
    requires masse != 0.0
  {
    var forceEffective := force - amortissement * m.vitesse;
    var acceleration := forceEffective / masse;
    var v := m.vitesse + acceleration * dt;
    Motion(m.position + v * dt, v)
  }

  /** The step obeys Newton's law with damping (`masse * dv = (F - c v) dt`) and moves the
      position by the new velocity, not the old one. */
  lemma StepLaw(m: Motion, masse: real, amortissement: real, force: real, dt: real)
    requires masse != 0.0
    ensures var r := Advanced(m, masse, amortissement, force, dt);
      masse * (r.vitesse - m.vitesse) == (force - amortissement * m.vitesse) * dt &&
      r.position - m.position == r.vitesse * dt
  {
    var a := (force - amortissement * m.vitesse) / masse;
    assert masse * (a * dt) == (masse * a) * dt;
    assert masse * a == force - amortissement * m.vitesse;
  }

  /** Without force, a mass at rest stays where it is. */
  lemma RestIsEquilibrium(x: real, masse: real, amortissement: real, dt: real)
    requires masse != 0.0
    ensures Advanced(Motion(x, 0.0), masse, amortissement, 0.0, dt) == Motion(x, 0.0)
  {
  }

  /** Without force, damping never makes the mass faster, as long as the step is small
      enough that `amortissement * dt <= masse`. */
  lemma DampingDissipates(m: Motion, masse: real, amortissement: real, dt: real)
    requires masse > 0.0 && amortissement >= 0.0 && dt >= 0.0
    requires amortissement * dt <= masse
    ensures Abs(Advanced(m, masse, amortissement, 0.0, dt).vitesse) <= Abs(m.vitesse)
  {
    var k := amortissement * dt / masse;
    assert 0.0 <= k <= 1.0 by {
      assert amortissement * dt >= 0.0;
      assert k * masse == amortissement * dt;
    }
    var v := Advanced(m, masse, amortissement, 0.0, dt).vitesse;
    assert v == m.vitesse * (1.0 - k) by {
      assert (-(amortissement * m.vitesse) / masse) * dt == -(m.vitesse * k);
    }
    if m.vitesse >= 0.0 {
      ScaledDown(m.vitesse, 1.0 - k);
    } else {
      ScaledDown(-m.vitesse, 1.0 - k);
      assert -v == -m.vitesse * (1.0 - k);
    }
  }

  /** Scaling a non-negative quantity by a factor in [0, 1] keeps it between 0 and itself. */
  lemma ScaledDown(a: real, f: real)
    requires a >= 0.0 && 0.0 <= f <= 1.0
    ensures 0.0 <= a * f <= a
  {
    assert a * f <= a * 1.0;
  }

  /** The first step of the P-controller run: force 6 from rest at 0 gives v = 0.3, x = 0.015. */
  lemma FirstStepFromRest()
    ensures Advanced(Motion(0.0, 0.0), 1.0, 0.25, 6.0, 0.05) == Motion(0.015, 0.3)
  {
  }

  class Systeme {
    var position: real
    var vitesse: real
    const masse: real
    const amortissement: real

    constructor (posInitiale: real := 0.0, masse: real := 1.0, amortissement: real := 0.25)
      ensures position == posInitiale && vitesse == 0.0
      ensures this.masse == masse && this.amortissement == amortissement
    {
      position := posInitiale;
      vitesse := 0.0;
      this.masse := masse;
      this.amortissement := amortissement;
    }

    function State(): Motion
      reads this
    {
      Motion(position, vitesse)
    }

    /** Applies `forceControle` for one step of length `dt` and returns the new position and velocity. */
    method Maj(forceControle: real, dt: real) returns (p: real, v: real)
      requires masse != 0.0
      modifies this
      ensures State() == Advanced(old(State()), masse, amortissement, forceControle, dt)
      ensures p == position && v == vitesse
    {
      var forceEffective := forceControle - amortissement * vitesse;
      var acceleration := forceEffective / masse;
      vitesse := vitesse + acceleration * dt;
      position := position + vitesse * dt;
      p, v := position, vitesse;
    }

    /** Puts the mass back at `posInitiale`, at rest; mass and damping are untouched. */
    method Reinit(posInitiale: real := 0.0)
      modifies this
      ensures position == posInitiale && vitesse == 0.0
    {
      position := posInitiale;
      vitesse := 0.0;
    }
  }
}
