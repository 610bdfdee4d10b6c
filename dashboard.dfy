/** The release-type distribution on the dashboard (src/pages/Dashboard.tsx). */
module Dashboard {
  import opened DosageTypes

  const AllReleaseTypes: set<ReleaseType> := {Immediate, Extended, Controlled}

  /** How many of `forms` have release type `k`, counted left to right as `reduce` does. */
  function CountOf(forms: seq<DosageForm>, k: ReleaseType): (n: nat)
    ensures n <= |forms|
  {
    if forms == [] then 0
    else CountOf(forms[..|forms| - 1], k) + (if forms[|forms| - 1].releaseType == k then 1 else 0)
  }

  /** The map the reduction builds: a key per release type some form has, valued by its count. */
  function CountMap(forms: seq<DosageForm>): map<ReleaseType, nat>
  {
    map k | k in AllReleaseTypes && CountOf(forms, k) > 0 :: CountOf(forms, k)
  }

  /** A count is positive exactly when some form has that release type. */
  lemma {:induction false} CountPositive(forms: seq<DosageForm>, k: ReleaseType)
    ensures CountOf(forms, k) > 0 <==> exists i :: 0 <= i < |forms| && forms[i].releaseType == k
  {
    if forms != [] {
      var init := forms[..|forms| - 1];
      CountPositive(init, k);
      if exists i :: 0 <= i < |init| && init[i].releaseType == k {
        var i :| 0 <= i < |init| && init[i].releaseType == k;
        assert forms[i] == init[i];
      }
      if exists i :: 0 <= i < |forms| && forms[i].releaseType == k {
        var i :| 0 <= i < |forms| && forms[i].releaseType == k;
        if i < |init| { assert init[i] == forms[i]; }
      }
    }
  }

  /** The three counts add up to the number of forms. */
  lemma {:induction false} CountsSum(forms: seq<DosageForm>)
    ensures CountOf(forms, Immediate) + CountOf(forms, Extended) + CountOf(forms, Controlled) == |forms|
  {
    if forms != [] {
      CountsSum(forms[..|forms| - 1]);
    }
  }

  /** The value of `counts[k]`, or 0 where the key is missing. */
  function CountOrZero(counts: map<ReleaseType, nat>, k: ReleaseType): nat
  {
    if k in counts then counts[k] else 0
  }

  /** `releaseTypeCounts`: each form adds one to the entry of its release type, creating the entry
      at 1 the first time. */
  method ReleaseTypeCounts(forms: seq<DosageForm>) returns (counts: map<ReleaseType, nat>)
    ensures counts == CountMap(forms)
    ensures forall k :: k in counts <==> exists i :: 0 <= i < |forms| && forms[i].releaseType == k
    ensures forall k :: k in counts ==> 1 <= counts[k] <= |forms|
  {
    counts := map[];
    var i := 0;
    while i < |forms|
      invariant 0 <= i <= |forms|
      invariant counts == CountMap(forms[..i])
    {
      var k := forms[i].releaseType;
      counts := counts[k := (if k in counts then counts[k] else 0) + 1];
      assert forms[..i + 1] == forms[..i] + [forms[i]];
      CountMapSnoc(forms[..i], forms[i]);
      i := i + 1;
    }
    assert forms[..i] == forms;
    forall k ensures k in counts <==> exists i :: 0 <= i < |forms| && forms[i].releaseType == k {
      CountPositive(forms, k);
    }
  }

  /** Adding one form to the end bumps exactly its own entry. */
  lemma CountMapSnoc(forms: seq<DosageForm>, f: DosageForm)
    ensures CountMap(forms + [f])
            == CountMap(forms)[f.releaseType := CountOrZero(CountMap(forms), f.releaseType) + 1]
  {
    var s := forms + [f];
    assert s[..|s| - 1] == forms;
    var lhs := CountMap(s);
    var rhs := CountMap(forms)[f.releaseType := CountOrZero(CountMap(forms), f.releaseType) + 1];
    forall k | k in AllReleaseTypes
      ensures (k in lhs <==> k in rhs) && (k in lhs ==> lhs[k] == rhs[k])
    {
    }
    assert lhs.Keys == rhs.Keys;
  }

  /** The entries of the map add up to the number of forms. */
  lemma CountMapTotal(forms: seq<DosageForm>)
    ensures var counts := CountMap(forms);
            CountOrZero(counts, Immediate) + CountOrZero(counts, Extended) + CountOrZero(counts, Controlled)
            == |forms|
  {
    CountsSum(forms);
  }

  /** The map has at most three keys, one per release type. */
  lemma CountMapKeys(forms: seq<DosageForm>)
    ensures CountMap(forms).Keys <= AllReleaseTypes
    ensures |CountMap(forms)| <= 3
  {
    var keys := CountMap(forms).Keys;
    assert |AllReleaseTypes| == 3;
    SubsetCardinality(keys, AllReleaseTypes);
  }

  lemma {:induction false} SubsetCardinality<T>(a: set<T>, b: set<T>)
    requires a <= b
    ensures |a| <= |b|
    decreases |b|
  {
    if a != {} {
      var x :| x in a;
      SubsetCardinality(a - {x}, b - {x});
    }
  }

  /** The width of a distribution bar, in percent of the whole library. */
  function BarWidth(count: nat, total: nat): (w: real)
    requires total > 0
    ensures 0.0 <= w
    ensures 0 < count ==> 0.0 < w
    ensures count <= total ==> w <= 100.0
  {
    BarFraction(count, total);
    (count as real / total as real) * 100.0
  }

  lemma BarFraction(count: nat, total: nat)
    requires total > 0
    ensures 0.0 <= count as real / total as real
    ensures 0 < count ==> 0.0 < count as real / total as real
    ensures count <= total ==> count as real / total as real <= 1.0
  {
    if 0 < count <= total {
      FractionAtMostOne(count as real, total as real);
    } else if total < count {
      assert 0.0 < count as real / total as real by {
        FractionAtMostOne(total as real, count as real);
      }
    }
  }

  /** Every bar drawn has a width in (0, 100]: each stored count is between 1 and the library size. */
  lemma BarWidthInRange(forms: seq<DosageForm>, k: ReleaseType)
    requires k in CountMap(forms)
    ensures |forms| > 0
    ensures 0.0 < BarWidth(CountMap(forms)[k], |forms|) <= 100.0
  {
    var c := CountMap(forms)[k];
    FractionAtMostOne(c as real, |forms| as real);
  }

  lemma FractionAtMostOne(c: real, t: real)
    requires 0.0 < c <= t
    ensures 0.0 < c / t <= 1.0
  {
    var q := c / t;
    assert q * t == c;
  }

  /** The distribution section is shown, and the "release types" tile is non-zero, exactly when
      the library holds a form. */
  lemma DistributionShown(forms: seq<DosageForm>)
    ensures |CountMap(forms)| > 0 <==> |forms| > 0
  {
    if |forms| > 0 {
      CountPositive(forms, forms[0].releaseType);
      assert forms[0].releaseType in CountMap(forms);
    } else {
      assert CountMap(forms) == map[];
    }
  }
}
