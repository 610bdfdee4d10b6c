/** What the release-profile simulator promises: the time grid, the start of every
    curve, conservation of the dose, bounds, monotonicity and the closed forms. */
module SimulationProperties {
  import opened DosageTypes
  import opened SimulationEngine

  /** Inputs for which the curves are physically meaningful: the engine itself checks none of these. */
  ghost predicate Sensible(totalDosage: real, rateConstant: real, duration: real, m: MathLib)
  {
    totalDosage >= 0.0 && rateConstant >= 0.0 && duration > 0.0 && Plausible(m)
  }

  lemma MulNonNegative(a: real, b: real)
    requires a >= 0.0 && b >= 0.0
    ensures a * b >= 0.0
  {
  }

  lemma MulMonotone(a: real, x: real, y: real)
    requires a >= 0.0 && x <= y
    ensures a * x <= a * y
  {
    MulNonNegative(a, y - x);
  }

  /** The grid starts at 0, ends at `duration` and is strictly increasing. */
  lemma {:induction false} TimeGrid(duration: real, timePoints: nat)
    requires timePoints >= 1 && duration > 0.0
    ensures TimeAt(duration, timePoints, 0) == 0.0
    ensures TimeAt(duration, timePoints, timePoints) == duration
    ensures forall i, j :: 0 <= i < j <= timePoints ==>
              TimeAt(duration, timePoints, i) < TimeAt(duration, timePoints, j)
  {
    var dt := duration / (timePoints as real);
    assert dt > 0.0;
    assert (timePoints as real) * dt == duration;
    forall i, j | 0 <= i < j <= timePoints
      ensures TimeAt(duration, timePoints, i) < TimeAt(duration, timePoints, j)
    {
      assert ((j - i) as real) * dt > 0.0;
      assert (j as real) * dt - (i as real) * dt == ((j - i) as real) * dt;
    }
  }

  /** Every grid time is at least 0. */
  lemma TimeNonNegative(duration: real, timePoints: nat, i: nat)
    requires timePoints >= 1 && duration > 0.0
    ensures TimeAt(duration, timePoints, i) >= 0.0
  {
    var dt := duration / (timePoints as real);
    assert dt > 0.0;
  }

  /** Before clamping, the Immediate branch splits the dose exactly in two, and at t = 0 none of it is released. */
  lemma ImmediateComplementary(totalDosage: real, rateConstant: real, duration: real, t: real, m: MathLib)
    requires duration != 0.0
    ensures var a := RawAmounts(Immediate, totalDosage, rateConstant, duration, t, m);
            a.released + a.cumulative == totalDosage
    ensures Plausible(m) && t == 0.0 ==>
              var a := RawAmounts(Immediate, totalDosage, rateConstant, duration, t, m);
              a.released == totalDosage && a.cumulative == 0.0
  {
  }

  /** At t = 0 every kind holds the whole dose back. */
  lemma {:induction false} SampleAtZero(kind: ReleaseType, totalDosage: real, rateConstant: real,
                                        duration: real, m: MathLib)
    requires duration != 0.0 && totalDosage >= 0.0 && Plausible(m)
    ensures ConcentrationAt(kind, totalDosage, rateConstant, duration, 0.0, m) == totalDosage
    ensures CumulativeAt(kind, totalDosage, rateConstant, duration, 0.0, m) == 0.0
  {
    assert -rateConstant * 0.0 == 0.0;
    assert (rateConstant * 2.0) * m.sqrt(0.0) == 0.0;
  }

  /** The clamped concentration and cumulative release add up to the dose, whatever the kind. */
  lemma {:induction false} SampleConservation(kind: ReleaseType, totalDosage: real, rateConstant: real,
                                              duration: real, t: real, m: MathLib)
    requires duration != 0.0 && totalDosage >= 0.0 && Plausible(m)
    ensures ConcentrationAt(kind, totalDosage, rateConstant, duration, t, m)
            + CumulativeAt(kind, totalDosage, rateConstant, duration, t, m) == totalDosage
  {
    if kind == Immediate {
      var e := m.exp(-rateConstant * t);
      assert e > 0.0;
      assert totalDosage * e >= 0.0;
      assert totalDosage * (1.0 - e) == totalDosage - totalDosage * e;
    }
  }

  /** For t >= 0 with a non-negative rate, both series stay within [0, totalDosage]. */
  lemma {:induction false} SampleBounds(kind: ReleaseType, totalDosage: real, rateConstant: real,
                                        duration: real, t: real, m: MathLib)
    requires Sensible(totalDosage, rateConstant, duration, m) && t >= 0.0
    ensures 0.0 <= CumulativeAt(kind, totalDosage, rateConstant, duration, t, m) <= totalDosage
    ensures 0.0 <= ConcentrationAt(kind, totalDosage, rateConstant, duration, t, m) <= totalDosage
  {
    SampleConservation(kind, totalDosage, rateConstant, duration, t, m);
    match kind
    case Immediate =>
      var x := -rateConstant * t;
      assert x <= 0.0;
      var e := m.exp(x);
      assert e <= m.exp(0.0);
      MulNonNegative(totalDosage, 1.0 - e);
    case Extended =>
      MulNonNegative(totalDosage / duration, t);
    case Controlled =>
      MulNonNegative(rateConstant * 2.0, m.sqrt(t));
  }

  /** Later samples have released at least as much, and hold back at most as much. */
  lemma {:induction false} SampleMonotone(kind: ReleaseType, totalDosage: real, rateConstant: real,
                                          duration: real, t1: real, t2: real, m: MathLib)
    requires Sensible(totalDosage, rateConstant, duration, m) && 0.0 <= t1 <= t2
    ensures CumulativeAt(kind, totalDosage, rateConstant, duration, t1, m)
            <= CumulativeAt(kind, totalDosage, rateConstant, duration, t2, m)
    ensures ConcentrationAt(kind, totalDosage, rateConstant, duration, t2, m)
            <= ConcentrationAt(kind, totalDosage, rateConstant, duration, t1, m)
  {
    SampleConservation(kind, totalDosage, rateConstant, duration, t1, m);
    SampleConservation(kind, totalDosage, rateConstant, duration, t2, m);
    RawCumulativeMonotone(kind, totalDosage, rateConstant, duration, t1, t2, m);
  }

  lemma RawCumulativeMonotone(kind: ReleaseType, totalDosage: real, rateConstant: real,
                              duration: real, t1: real, t2: real, m: MathLib)
    requires Sensible(totalDosage, rateConstant, duration, m) && 0.0 <= t1 <= t2
    ensures RawAmounts(kind, totalDosage, rateConstant, duration, t1, m).cumulative
            <= RawAmounts(kind, totalDosage, rateConstant, duration, t2, m).cumulative
  {
    match kind
    case Immediate => ImmediateCumulativeMonotone(totalDosage, rateConstant, duration, t1, t2, m);
    case Extended => ExtendedCumulativeMonotone(totalDosage, rateConstant, duration, t1, t2, m);
    case Controlled => ControlledCumulativeMonotone(totalDosage, rateConstant, duration, t1, t2, m);
  }

  lemma ImmediateCumulativeMonotone(totalDosage: real, rateConstant: real, duration: real,
                              t1: real, t2: real, m: MathLib)
    requires Sensible(totalDosage, rateConstant, duration, m) && 0.0 <= t1 <= t2
    ensures RawAmounts(Immediate, totalDosage, rateConstant, duration, t1, m).cumulative
            <= RawAmounts(Immediate, totalDosage, rateConstant, duration, t2, m).cumulative
  {
    MulMonotone(rateConstant, t1, t2);
    var e1, e2 := m.exp(-rateConstant * t1), m.exp(-rateConstant * t2);
    assert e2 <= e1;
    MulMonotone(totalDosage, 1.0 - e1, 1.0 - e2);
  }

  lemma ExtendedCumulativeMonotone(totalDosage: real, rateConstant: real, duration: real,
                              t1: real, t2: real, m: MathLib)
    requires Sensible(totalDosage, rateConstant, duration, m) && 0.0 <= t1 <= t2
    ensures RawAmounts(Extended, totalDosage, rateConstant, duration, t1, m).cumulative
            <= RawAmounts(Extended, totalDosage, rateConstant, duration, t2, m).cumulative
  {
    MulMonotone(totalDosage / duration, t1, t2);
  }

  lemma ControlledCumulativeMonotone(totalDosage: real, rateConstant: real, duration: real,
                              t1: real, t2: real, m: MathLib)
    requires Sensible(totalDosage, rateConstant, duration, m) && 0.0 <= t1 <= t2
    ensures RawAmounts(Controlled, totalDosage, rateConstant, duration, t1, m).cumulative
            <= RawAmounts(Controlled, totalDosage, rateConstant, duration, t2, m).cumulative
  {
    assert m.sqrt(t1) <= m.sqrt(t2);
    MulMonotone(rateConstant * 2.0, m.sqrt(t1), m.sqrt(t2));
    var r1, r2 := (rateConstant * 2.0) * m.sqrt(t1), (rateConstant * 2.0) * m.sqrt(t2);
    assert r1 <= r2;
    if r2 <= totalDosage {
      assert r1 <= totalDosage;
    } else {
      assert Min(r2, totalDosage) == totalDosage;
    }
  }

  /** The invariants of a simulation result: the grid, the start, the bounds,
      conservation and monotonicity, for every release kind. */
  lemma {:induction false} ProfileInvariants(kind: ReleaseType, totalDosage: real, rateConstant: real,
                                             duration: real, timePoints: nat, m: MathLib)
    requires timePoints >= 1 && Sensible(totalDosage, rateConstant, duration, m)
    ensures var r := Profile(kind, totalDosage, rateConstant, duration, timePoints, m);
            && r.time[0] == 0.0 && r.time[timePoints] == duration
            && r.concentration[0] == totalDosage && r.cumulativeRelease[0] == 0.0
            && (forall i, j :: 0 <= i < j <= timePoints ==> r.time[i] < r.time[j])
            && (forall i :: 0 <= i <= timePoints ==>
                  && 0.0 <= r.cumulativeRelease[i] <= totalDosage
                  && 0.0 <= r.concentration[i] <= totalDosage
                  && r.concentration[i] + r.cumulativeRelease[i] == totalDosage)
            && (forall i, j :: 0 <= i <= j <= timePoints ==>
                  r.cumulativeRelease[i] <= r.cumulativeRelease[j] &&
                  r.concentration[j] <= r.concentration[i])
  {
    var r := Profile(kind, totalDosage, rateConstant, duration, timePoints, m);
    TimeGrid(duration, timePoints);
    SampleAtZero(kind, totalDosage, rateConstant, duration, m);
    forall i | 0 <= i <= timePoints
      ensures 0.0 <= r.cumulativeRelease[i] <= totalDosage
      ensures 0.0 <= r.concentration[i] <= totalDosage
      ensures r.concentration[i] + r.cumulativeRelease[i] == totalDosage
    {
      TimeNonNegative(duration, timePoints, i);
      SampleBounds(kind, totalDosage, rateConstant, duration, r.time[i], m);
      SampleConservation(kind, totalDosage, rateConstant, duration, r.time[i], m);
    }
    forall i, j | 0 <= i <= j <= timePoints
      ensures r.cumulativeRelease[i] <= r.cumulativeRelease[j]
      ensures r.concentration[j] <= r.concentration[i]
    {
      TimeNonNegative(duration, timePoints, i);
      SampleMonotone(kind, totalDosage, rateConstant, duration, r.time[i], r.time[j], m);
    }
  }

  /** On the grid, the zero-order rate times the time of sample i is the fraction i/timePoints of the dose. */
  lemma ExtendedLinear(totalDosage: real, duration: real, timePoints: nat, i: nat)
    requires timePoints >= 1 && duration > 0.0
    ensures (totalDosage / duration) * TimeAt(duration, timePoints, i)
            == totalDosage * (i as real) / (timePoints as real)
  {
    var n := timePoints as real;
    var a := totalDosage / duration;
    var q := duration / n;
    assert a * duration == totalDosage;
    assert q * n == duration;
    calc {
      (a * ((i as real) * q)) * n;
      a * (i as real) * (q * n);
      a * (i as real) * duration;
      (a * duration) * (i as real);
      totalDosage * (i as real);
    }
  }

  /** Extended release is exactly linear on the grid: sample i has released i/timePoints of the dose,
      so the last sample has released all of it. */
  lemma {:induction false} ExtendedClosedForm(totalDosage: real, rateConstant: real, duration: real,
                                              timePoints: nat, m: MathLib, i: nat)
    requires timePoints >= 1 && duration > 0.0 && totalDosage >= 0.0 && i <= timePoints
    ensures var r := Profile(Extended, totalDosage, rateConstant, duration, timePoints, m);
            && r.cumulativeRelease[i] == totalDosage * (i as real) / (timePoints as real)
            && r.concentration[i] == totalDosage * ((timePoints - i) as real) / (timePoints as real)
  {
    ExtendedLinear(totalDosage, duration, timePoints, i);
    FractionOfDose(totalDosage, i, timePoints);
  }

  lemma FractionOfDose(totalDosage: real, i: nat, n: nat)
    requires totalDosage >= 0.0 && 1 <= n && i <= n
    ensures totalDosage * (i as real) / (n as real) <= totalDosage
    ensures totalDosage - totalDosage * (i as real) / (n as real) == totalDosage * ((n - i) as real) / (n as real)
  {
    var f := (i as real) / (n as real);
    assert f <= 1.0;
    MulMonotone(totalDosage, f, 1.0);
    assert totalDosage * (i as real) / (n as real) == totalDosage * f;
  }

  /** Controlled release follows Higuchi's law capped at the dose, and what is not released yet
      is what remains. */
  lemma ControlledClosedForm(totalDosage: real, rateConstant: real, duration: real,
                             timePoints: nat, m: MathLib, i: nat)
    requires timePoints >= 1 && duration > 0.0 && i <= timePoints
    ensures var r := Profile(Controlled, totalDosage, rateConstant, duration, timePoints, m);
            && r.cumulativeRelease[i] == Min(2.0 * rateConstant * m.sqrt(r.time[i]), totalDosage)
            && r.concentration[i] == totalDosage - r.cumulativeRelease[i]
  {
  }

  /** Controlled release reaches the whole dose by the end exactly when 2·k·sqrt(duration) >= totalDosage. */
  lemma {:induction false} ControlledCompletion(totalDosage: real, rateConstant: real, duration: real,
                                                timePoints: nat, m: MathLib)
    requires timePoints >= 1 && duration > 0.0
    ensures var r := Profile(Controlled, totalDosage, rateConstant, duration, timePoints, m);
            r.cumulativeRelease[timePoints] == totalDosage <==>
            2.0 * rateConstant * m.sqrt(duration) >= totalDosage
  {
    TimeGrid(duration, timePoints);
  }

  /** Immediate release never completes: with a positive dose, every sample still holds some of it back. */
  lemma {:induction false} ImmediateNeverComplete(totalDosage: real, rateConstant: real, duration: real,
                                                  timePoints: nat, m: MathLib, i: nat)
    requires timePoints >= 1 && duration > 0.0 && totalDosage > 0.0 && Plausible(m) && i <= timePoints
    ensures var r := Profile(Immediate, totalDosage, rateConstant, duration, timePoints, m);
            r.cumulativeRelease[i] < totalDosage && r.concentration[i] > 0.0
  {
    var t := TimeAt(duration, timePoints, i);
    var e := m.exp(-rateConstant * t);
    assert e > 0.0;
    assert totalDosage * e > 0.0;
  }

  /** Extended release of 500 mg over 24 hours on 4 intervals. */
  lemma ExtendedExample(m: MathLib)
    ensures Profile(Extended, 500.0, 0.3, 24.0, 4, m) ==
            SimulationResult([0.0, 6.0, 12.0, 18.0, 24.0],
                             [500.0, 375.0, 250.0, 125.0, 0.0],
                             [0.0, 125.0, 250.0, 375.0, 500.0])
  {
    var r := Profile(Extended, 500.0, 0.3, 24.0, 4, m);
    assert r.time == [0.0, 6.0, 12.0, 18.0, 24.0];
    assert r.concentration == [500.0, 375.0, 250.0, 125.0, 0.0];
    assert r.cumulativeRelease == [0.0, 125.0, 250.0, 375.0, 500.0];
  }

  /** Controlled release of 100 mg with k = 5 over 16 hours on one interval: 2·5·sqrt(16) = 40. */
  lemma ControlledExample(m: MathLib)
    requires Plausible(m)
    ensures Profile(Controlled, 100.0, 5.0, 16.0, 1, m) ==
            SimulationResult([0.0, 16.0], [100.0, 60.0], [0.0, 40.0])
  {
    var r := Profile(Controlled, 100.0, 5.0, 16.0, 1, m);
    assert r.time == [0.0, 16.0];
    assert r.concentration == [100.0, 60.0];
    assert r.cumulativeRelease == [0.0, 40.0];
  }
}
