/** The Jensen (1983) top-hat wake model of `waketools`.

    A wake starts at the rotor with diameter `d` and grows linearly with the
    downstream distance `i` at the expansion rate `alpha`; inside it the
    velocity is uniform.  Both formulas are evaluated on Python floats, so a
    zero expansion factor in the velocity formula raises ZeroDivisionError. */
module WakeTools {
  import opened Common

  /** `1 + 2*alpha*i`: the wake diameter in rotor diameters. */
  function Expansion(alpha: real, i: real): real {
    1.0 + 2.0 * alpha * i
  }

  /** `jensen_velocity(u0, a, alpha, i)`: `u0 * (1 - 2a / (1 + 2 alpha i)**2)`. */
  function JensenVelocity(u0: real, a: real, alpha: real, i: real): (r: Result<real>)
    ensures r.Err? <==> Expansion(alpha, i) == 0.0
    ensures r.Err? ==> r.error == ZeroDivisionError
    ensures r.Ok? ==> (u0 - r.value) * (Expansion(alpha, i) * Expansion(alpha, i)) == 2.0 * a * u0
  {
    var e := Expansion(alpha, i);
    if e == 0.0 then Err(ZeroDivisionError)
    else
      SquareNonZero(e);
      Ok(u0 * (1.0 - (2.0 * a) / (e * e)))
  }

  /** `jensen_wake_width(d, alpha, i)`: `d * (1 + 2 alpha i) / 2`, the wake radius. */
  function JensenWakeWidth(d: real, alpha: real, i: real): (w: real)
    ensures w * 2.0 == d * Expansion(alpha, i)
  {
    d * Expansion(alpha, i) / 2.0
  }

  /** At the rotor plane the velocity is `u0 (1 - 2a)`. */
  lemma JensenAtRotor(u0: real, a: real, alpha: real)
    ensures JensenVelocity(u0, a, alpha, 0.0) == Ok(u0 * (1.0 - 2.0 * a))
  {
    assert Expansion(alpha, 0.0) == 1.0;
  }

  /** At the rotor plane the wake radius is the rotor radius `d / 2`. */
  lemma WakeWidthAtRotor(d: real, alpha: real)
    ensures JensenWakeWidth(d, alpha, 0.0) == d / 2.0
  {
  }

  /** The wake radius grows linearly: by `d * alpha` per unit of `i`. */
  lemma WakeWidthGrowth(d: real, alpha: real, i: real, j: real)
    ensures JensenWakeWidth(d, alpha, j) - JensenWakeWidth(d, alpha, i) == d * alpha * (j - i)
  {
  }

  /** The model's mass balance: the velocity deficit times the wake area is
      the deficit at the rotor times the rotor area, at every distance. */
  lemma DeficitTimesArea(u0: real, a: real, alpha: real, d: real, i: real)
    requires Expansion(alpha, i) != 0.0
    ensures JensenVelocity(u0, a, alpha, i).Ok?
    ensures var w := JensenWakeWidth(d, alpha, i);
            (u0 - JensenVelocity(u0, a, alpha, i).value) * (w * w)
              == (2.0 * a * u0) * ((d / 2.0) * (d / 2.0))
  {
    var e := Expansion(alpha, i);
    var v := JensenVelocity(u0, a, alpha, i).value;
    var w := JensenWakeWidth(d, alpha, i);
    assert (u0 - v) * (e * e) == 2.0 * a * u0;
    assert w == (d / 2.0) * e;
    calc {
      (u0 - v) * (w * w);
      (u0 - v) * ((d / 2.0) * e * ((d / 2.0) * e));
      ((u0 - v) * (e * e)) * ((d / 2.0) * (d / 2.0));
    }
  }

  /** Downstream of the rotor, with positive induction and expansion and a
      positive free stream, the wake velocity is below the free stream and
      at least the velocity at the rotor. */
  lemma JensenBelowFreestream(u0: real, a: real, alpha: real, i: real)
    requires u0 > 0.0 && a > 0.0 && alpha > 0.0 && i >= 0.0
    ensures JensenVelocity(u0, a, alpha, i).Ok?
    ensures u0 * (1.0 - 2.0 * a) <= JensenVelocity(u0, a, alpha, i).value < u0
  {
    var e := Expansion(alpha, i);
    assert e >= 1.0 by { assert alpha * i >= 0.0; }
    var v := JensenVelocity(u0, a, alpha, i).value;
    var q := (2.0 * a) / (e * e);
    assert e * e >= 1.0 by { SquareAtLeastOne(e); }
    assert 0.0 < q <= 2.0 * a by { QuotientBounds(2.0 * a, e * e); }
    assert v == u0 * (1.0 - q);
    assert u0 * q > 0.0;
    assert u0 * q <= u0 * (2.0 * a);
  }

  /** The wake recovers: moving downstream never lowers the velocity. */
  lemma JensenRecovers(u0: real, a: real, alpha: real, i: real, j: real)
    requires u0 >= 0.0 && a >= 0.0 && alpha > 0.0 && 0.0 <= i <= j
    ensures JensenVelocity(u0, a, alpha, i).Ok? && JensenVelocity(u0, a, alpha, j).Ok?
    ensures JensenVelocity(u0, a, alpha, i).value <= JensenVelocity(u0, a, alpha, j).value
  {
    var ei, ej := Expansion(alpha, i), Expansion(alpha, j);
    ExpansionMonotone(alpha, i, j);
    SquareAtLeastOne(ei);
    SquareMonotone(ei, ej);
    var qi, qj := (2.0 * a) / (ei * ei), (2.0 * a) / (ej * ej);
    QuotientAntitone(2.0 * a, ei * ei, ej * ej);
    ScaleLe(u0, qj, qi);
    VelocityValue(u0, a, alpha, i);
    VelocityValue(u0, a, alpha, j);
  }

  lemma ExpansionMonotone(alpha: real, i: real, j: real)
    requires alpha > 0.0 && 0.0 <= i <= j
    ensures 1.0 <= Expansion(alpha, i) <= Expansion(alpha, j)
  {
    assert alpha * i >= 0.0;
    assert alpha * j - alpha * i == alpha * (j - i);
  }

  lemma VelocityValue(u0: real, a: real, alpha: real, i: real)
    requires Expansion(alpha, i) != 0.0
    ensures var e := Expansion(alpha, i);
            e * e != 0.0 && JensenVelocity(u0, a, alpha, i) == Ok(u0 - u0 * ((2.0 * a) / (e * e)))
  {
    var e := Expansion(alpha, i);
    SquareNonZero(e);
    var q := (2.0 * a) / (e * e);
    assert u0 * (1.0 - q) == u0 - u0 * q;
  }

  lemma SquareNonZero(e: real)
    requires e != 0.0
    ensures e * e > 0.0
  {
    if e < 0.0 {
      assert e * e == (-e) * (-e);
    }
  }

  lemma SquareAtLeastOne(e: real)
    requires e >= 1.0
    ensures e * e >= 1.0
  {
    assert e * e - 1.0 == (e - 1.0) * (e + 1.0);
  }

  lemma SquareMonotone(x: real, y: real)
    requires 0.0 <= x <= y
    ensures x * x <= y * y
  {
    assert y * y - x * x == (y - x) * (y + x);
  }

  lemma QuotientBounds(n: real, d: real)
    requires n > 0.0 && d >= 1.0
    ensures 0.0 < n / d <= n
  {
    assert n / d * d == n;
  }

  lemma QuotientAntitone(n: real, d: real, e: real)
    requires n >= 0.0 && 0.0 < d <= e
    ensures n / e <= n / d
  {
    assert n / d * d == n;
    assert n / e * e == n;
    assert n / e * d <= n / e * e by { ScaleLe(n / e, d, e); }
  }

  lemma ScaleLe(c: real, x: real, y: real)
    requires c >= 0.0 && x <= y
    ensures c * x <= c * y
  {
    assert c * y - c * x == c * (y - x);
  }
}
