/** The release-profile simulator of src/lib/simulationEngine.ts. Numbers are `real`s;
    `Math.exp` and `Math.sqrt` are supplied by the caller as a `MathLib`. */
module SimulationEngine {
  import opened DosageTypes

  /** The two elementary functions the engine calls. */
  datatype MathLib = MathLib(exp: real -> real, sqrt: real -> real)

  /** The facts about `exp` and `sqrt` that the lemmas below use, and no more. */
  ghost predicate Plausible(m: MathLib)
  {
    && m.exp(0.0) == 1.0
    && (forall x :: m.exp(x) > 0.0)
    && (forall x, y :: x <= y ==> m.exp(x) <= m.exp(y))
    && m.sqrt(0.0) == 0.0
    && m.sqrt(16.0) == 4.0
    && (forall x :: 0.0 <= x ==> 0.0 <= m.sqrt(x))
    && (forall x, y :: 0.0 <= x <= y ==> m.sqrt(x) <= m.sqrt(y))
  }

  function Min(a: real, b: real): real { if a <= b then a else b }

  function Max(a: real, b: real): real { if a >= b then a else b }

  /** The simulated time of sample `i` on a grid of `timePoints` intervals: `i * dt`. */
  function TimeAt(duration: real, timePoints: nat, i: int): real
    requires timePoints >= 1
  {
    (i as real) * (duration / (timePoints as real))
  }

  /** The `released` and `cumulative` values the per-kind switch computes, before clamping. */
  datatype Amounts = Amounts(released: real, cumulative: real)

  /** The per-kind amounts at time `t`. Only the zero-order branch divides by the duration. The
      two amounts always share out the whole dose, and the zero-order and Higuchi branches cap
      the released total at the dose. */
  function RawAmounts(kind: ReleaseType, totalDosage: real, rateConstant: real, duration: real,
                      t: real, m: MathLib): (a: Amounts)
    requires kind == Extended ==> duration != 0.0
    ensures a.released + a.cumulative == totalDosage
    ensures kind != Immediate ==> a.cumulative <= totalDosage
  {
    match kind
    case Immediate =>
      // first order: the dose decays exponentially
      Amounts(totalDosage * m.exp(-rateConstant * t), totalDosage * (1.0 - m.exp(-rateConstant * t)))
    case Extended =>
      // zero order: a constant rate of totalDosage / duration
      var cumulative := Min((totalDosage / duration) * t, totalDosage);
      Amounts(totalDosage - cumulative, cumulative)
    case Controlled =>
      // Higuchi: release grows with the square root of time
      var cumulative := Min((rateConstant * 2.0) * m.sqrt(t), totalDosage);
      Amounts(totalDosage - cumulative, cumulative)
  }

  /** The stored concentration at time `t`: the released amount, clamped below at 0. */
  function ConcentrationAt(kind: ReleaseType, totalDosage: real, rateConstant: real, duration: real,
                           t: real, m: MathLib): (c: real)
    requires kind == Extended ==> duration != 0.0
    ensures c >= 0.0
    ensures c >= RawAmounts(kind, totalDosage, rateConstant, duration, t, m).released
  {
    Max(0.0, RawAmounts(kind, totalDosage, rateConstant, duration, t, m).released)
  }

  /** The stored cumulative release at time `t`: clamped above at the total dosage. */
  function CumulativeAt(kind: ReleaseType, totalDosage: real, rateConstant: real, duration: real,
                        t: real, m: MathLib): (c: real)
    requires kind == Extended ==> duration != 0.0
    ensures c <= totalDosage
    ensures c <= RawAmounts(kind, totalDosage, rateConstant, duration, t, m).cumulative
  {
    Min(RawAmounts(kind, totalDosage, rateConstant, duration, t, m).cumulative, totalDosage)
  }

  /** The whole result `simulate` returns, as a value. */
  function Profile(kind: ReleaseType, totalDosage: real, rateConstant: real, duration: real,
                   timePoints: nat, m: MathLib): (r: SimulationResult)
    requires timePoints >= 1 && (kind == Extended ==> duration != 0.0)
    ensures |r.time| == |r.concentration| == |r.cumulativeRelease| == timePoints + 1
  {
    SimulationResult(
      seq(timePoints + 1, i => TimeAt(duration, timePoints, i)),
      seq(timePoints + 1, i => ConcentrationAt(kind, totalDosage, rateConstant, duration,
                                               TimeAt(duration, timePoints, i), m)),
      seq(timePoints + 1, i => CumulativeAt(kind, totalDosage, rateConstant, duration,
                                            TimeAt(duration, timePoints, i), m)))
  }

  /** The body of the per-kind `switch` at time `t`, in the statement form the loop executes,
      with the source's local names; `RawAmounts` is the same switch as a value. */
  method ReleaseStep(releaseType: ReleaseType, totalDosage: real, rateConstant: real, duration: real,
                     t: real, m: MathLib) returns (released: real, cumulative: real)
    requires releaseType == Extended ==> duration != 0.0
    ensures Amounts(released, cumulative) == RawAmounts(releaseType, totalDosage, rateConstant, duration, t, m)
  {
    match releaseType {
      case Immediate =>
        released := totalDosage * m.exp(-rateConstant * t);
        cumulative := totalDosage * (1.0 - m.exp(-rateConstant * t));
      case Extended =>
        var extendedRate := totalDosage / duration;
        cumulative := Min(extendedRate * t, totalDosage);
        released := totalDosage - cumulative;
      case Controlled =>
        var higuchiFactor := rateConstant * 2.0;
        cumulative := Min(higuchiFactor * m.sqrt(t), totalDosage);
        released := totalDosage - cumulative;
    }
  }

  /** `SimulationEngine.simulate`: samples the release curve at the `timePoints + 1`
      grid points `0, dt, ..., timePoints * dt` with `dt = duration / timePoints`. */
  method Simulate(releaseType: ReleaseType, totalDosage: real, rateConstant: real, duration: real,
                  timePoints: nat, m: MathLib) returns (r: SimulationResult)
    requires timePoints >= 1 && (releaseType == Extended ==> duration != 0.0)
    ensures r == Profile(releaseType, totalDosage, rateConstant, duration, timePoints, m)
    ensures |r.time| == |r.concentration| == |r.cumulativeRelease| == timePoints + 1
    ensures forall i :: 0 <= i <= timePoints ==>
              r.time[i] == (i as real) * (duration / (timePoints as real))
    ensures forall i :: 0 <= i <= timePoints ==>
              r.concentration[i] >= 0.0 && r.cumulativeRelease[i] <= totalDosage
  {
    var time: seq<real> := [];
    var concentration: seq<real> := [];
    var cumulativeRelease: seq<real> := [];
    var dt := duration / (timePoints as real);
    var i := 0;
    while i <= timePoints
      invariant 0 <= i <= timePoints + 1
      invariant |time| == |concentration| == |cumulativeRelease| == i
      invariant forall j :: 0 <= j < i ==> time[j] == TimeAt(duration, timePoints, j)
      invariant forall j :: 0 <= j < i ==>
                  concentration[j] == ConcentrationAt(releaseType, totalDosage, rateConstant, duration, time[j], m)
      invariant forall j :: 0 <= j < i ==>
                  cumulativeRelease[j] == CumulativeAt(releaseType, totalDosage, rateConstant, duration, time[j], m)
    {
      var t := (i as real) * dt;
      time := time + [t];
      var released, cumulative := ReleaseStep(releaseType, totalDosage, rateConstant, duration, t, m);
      concentration := concentration + [Max(0.0, released)];
      cumulativeRelease := cumulativeRelease + [Min(cumulative, totalDosage)];
      i := i + 1;
    }
    r := SimulationResult(time, concentration, cumulativeRelease);
    ghost var p := Profile(releaseType, totalDosage, rateConstant, duration, timePoints, m);
    assert r.time == p.time;
    assert r.concentration == p.concentration;
    assert r.cumulativeRelease == p.cumulativeRelease;
  }
}
