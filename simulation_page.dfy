/** The simulation page (src/pages/Simulation.tsx): its parameters, the per-kind defaults,
    running the engine, the chart series and the CSV download. */
module SimulationPage {
  import opened DosageTypes
  import opened Text
  import opened SimulationEngine
  import SimulationProperties
  import opened CsvExport
  import opened DosageFormStore

  /** The rate constant and duration the page switches to when a form of kind `kind` loads. */
  datatype Parameters = Parameters(rateConstant: real, duration: real)

  /** Each default sits on the sliders' grids: the rate slider holds ten times the constant, an
      integer from 1 to 50, and the duration slider runs from 6 to 72 hours in steps of 6. */
  function Defaults(kind: ReleaseType): (p: Parameters)
    ensures p.duration > 0.0
    ensures var notch := p.rateConstant * 10.0;
            notch.Floor as real == notch && 1.0 <= notch <= 50.0
    ensures var step := p.duration / 6.0;
            step.Floor as real == step && 1.0 <= step <= 12.0
  {
    match kind
    case Immediate => Parameters(1.5, 12.0)
    case Extended => Parameters(0.3, 24.0)
    case Controlled => Parameters(0.5, 24.0)
  }

  /** With the extended-release defaults the whole dose is out by the last sample. */
  lemma ExtendedDefaultsComplete(totalDosage: real, m: MathLib)
    requires totalDosage >= 0.0
    ensures var p := Defaults(Extended);
            var r := Profile(Extended, totalDosage, p.rateConstant, p.duration, ChartPoints, m);
            r.cumulativeRelease[ChartPoints] == totalDosage && r.concentration[ChartPoints] == 0.0
  {
    var p := Defaults(Extended);
    SimulationProperties.ExtendedClosedForm(totalDosage, p.rateConstant, p.duration, ChartPoints, m, ChartPoints);
  }

  /** The page always asks the engine for its default number of intervals. */
  const ChartPoints: nat := 100

  /** One point of the chart: the samples at the same index of the three series. */
  datatype ChartPoint = ChartPoint(time: real, concentration: real, cumulative: real)

  /** `chartData`: the series zipped by index, or nothing before the first run. */
  function ChartData(result: Option<SimulationResult>): (points: seq<ChartPoint>)
    requires result.Some? ==>
      |result.value.concentration| >= |result.value.time| && |result.value.cumulativeRelease| >= |result.value.time|
    ensures result.None? ==> points == []
    ensures result.Some? ==> |points| == |result.value.time|
    ensures result.Some? ==> forall i :: 0 <= i < |points| ==>
              points[i].time == result.value.time[i] &&
              points[i].concentration == result.value.concentration[i] &&
              points[i].cumulative == result.value.cumulativeRelease[i]
  {
    match result
    case None => []
    case Some(r) =>
      seq(|r.time|, i requires 0 <= i < |r.time| =>
        ChartPoint(r.time[i], r.concentration[i], r.cumulativeRelease[i]))
  }

  /** The chart and the CSV show the same samples: data line `i` of the export is point `i` of
      the chart, formatted. */
  lemma ChartMatchesCsv(r: SimulationResult, fixed: Formatter, i: nat)
    requires |r.concentration| >= |r.time| && |r.cumulativeRelease| >= |r.time| && i < |r.time|
    ensures var p := ChartData(Some(r))[i];
            Rows(r, fixed)[i] == Join([fixed(p.time, 2), fixed(p.concentration, 4), fixed(p.cumulative, 4)], ',')
  {
  }

  /** `name.replace(/\s+/g, '_')`: every maximal run of white space becomes one underscore. */
  function CollapseWhitespace(s: string): (r: string)
    ensures |r| <= |s|
  {
    CollapseFrom(s, false)
  }

  /** The scan behind `CollapseWhitespace`; `inRun` says the character before `s` was white space
      and has already been replaced. */
  function CollapseFrom(s: string, inRun: bool): (r: string)
    ensures |r| <= |s|
  {
    if s == [] then []
    else if IsSpace(s[0]) then (if inRun then [] else "_") + CollapseFrom(s[1..], true)
    else [s[0]] + CollapseFrom(s[1..], false)
  }

  /** Whether the scan is inside a run of white space after reading `s`. */
  function EndsInRun(s: string, inRun: bool): bool
  {
    if s == [] then inRun else IsSpace(s[|s| - 1])
  }

  /** The result holds no white space. */
  lemma {:induction false} CollapseHasNoSpace(s: string, inRun: bool)
    ensures forall i :: 0 <= i < |CollapseFrom(s, inRun)| ==> !IsSpace(CollapseFrom(s, inRun)[i])
  {
    if s != [] {
      CollapseHasNoSpace(s[1..], true);
      CollapseHasNoSpace(s[1..], false);
    }
  }

  /** A name without white space is left as it is. */
  lemma {:induction false} CollapseNoSpace(s: string, inRun: bool)
    requires forall i :: 0 <= i < |s| ==> !IsSpace(s[i])
    ensures CollapseFrom(s, inRun) == s
  {
    if s != [] {
      CollapseNoSpace(s[1..], false);
    }
  }

  /** Collapsing twice is collapsing once. */
  lemma CollapseIdempotent(s: string)
    ensures CollapseWhitespace(CollapseWhitespace(s)) == CollapseWhitespace(s)
  {
    CollapseHasNoSpace(s, false);
    CollapseNoSpace(CollapseWhitespace(s), false);
  }

  /** `s` is made of white space only. */
  predicate AllSpace(s: string)
  {
    s == [] || (IsSpace(s[0]) && AllSpace(s[1..]))
  }

  /** A non-empty run of white space alone becomes a single underscore. */
  lemma {:induction false} CollapseRunAlone(ws: string, inRun: bool)
    requires AllSpace(ws)
    ensures CollapseFrom(ws, inRun) == if ws == [] || inRun then [] else "_"
  {
    if ws != [] {
      CollapseRunAlone(ws[1..], true);
    }
  }

  lemma AppendAssoc<T>(x: seq<T>, y: seq<T>, z: seq<T>)
    ensures x + (y + z) == (x + y) + z
  {
  }

  /** The scan splits at any boundary, resuming in the state reached at the end of the first part. */
  lemma {:induction false} CollapseAppend(a: string, b: string, inRun: bool)
    ensures CollapseFrom(a + b, inRun) == CollapseFrom(a, inRun) + CollapseFrom(b, EndsInRun(a, inRun))
  {
    if a == [] {
      assert a + b == b;
    } else {
      var tail := a[1..];
      var next := IsSpace(a[0]);
      var head := Emit(a[0], inRun);
      var rest := CollapseFrom(tail, next);
      var after := CollapseFrom(b, EndsInRun(a, inRun));
      assert CollapseFrom(a + b, inRun) == head + CollapseFrom(tail + b, next) by {
        assert (a + b)[0] == a[0] && (a + b)[1..] == tail + b;
        CollapseCons(a + b, inRun);
      }
      assert CollapseFrom(tail + b, next) == rest + after by {
        assert EndsInRun(tail, next) == EndsInRun(a, inRun) by {
          if tail != [] {
            assert tail[|tail| - 1] == a[|a| - 1];
          }
        }
        CollapseAppend(tail, b, next);
      }
      assert CollapseFrom(a, inRun) == head + rest by {
        CollapseCons(a, inRun);
      }
      AppendAssoc(head, rest, after);
    }
  }

  /** What the scan writes for one character. */
  function Emit(c: char, inRun: bool): string
  {
    if !IsSpace(c) then [c] else if inRun then [] else "_"
  }

  /** One step of the scan. */
  lemma CollapseCons(s: string, inRun: bool)
    requires s != []
    ensures CollapseFrom(s, inRun) == Emit(s[0], inRun) + CollapseFrom(s[1..], IsSpace(s[0]))
  {
  }

  /** A word is collapsed the same whether or not white space came before it. */
  lemma CollapseWordStart(b: string)
    requires b == [] || !IsSpace(b[0])
    ensures CollapseFrom(b, true) == CollapseFrom(b, false)
  {
  }

  /** A run of white space between two words becomes exactly one underscore. */
  lemma CollapseRun(a: string, ws: string, b: string)
    requires a == [] || !IsSpace(a[|a| - 1])
    requires b == [] || !IsSpace(b[0])
    requires ws != [] && AllSpace(ws)
    ensures CollapseWhitespace(a + ws + b) == CollapseWhitespace(a) + "_" + CollapseWhitespace(b)
  {
    var left := CollapseFrom(a, false);
    var right := CollapseFrom(b, false);
    assert CollapseFrom(ws + b, false) == "_" + right by {
      CollapseAppend(ws, b, false);
      CollapseRunAlone(ws, false);
      assert EndsInRun(ws, false) by {
        LastOfAllSpace(ws);
      }
      CollapseWordStart(b);
    }
    assert CollapseFrom(a + (ws + b), false) == left + CollapseFrom(ws + b, false) by {
      CollapseAppend(a, ws + b, false);
    }
    assert a + ws + b == a + (ws + b);
    AppendAssoc(left, "_", right);
  }

  lemma {:induction false} LastOfAllSpace(ws: string)
    requires ws != [] && AllSpace(ws)
    ensures IsSpace(ws[|ws| - 1])
  {
    if |ws| > 1 {
      LastOfAllSpace(ws[1..]);
      assert ws[1..][|ws| - 2] == ws[|ws| - 1];
    }
  }

  const FilenameSuffix := "_simulation.csv"

  /** The name the CSV is downloaded under. */
  function DownloadFilename(name: string): (f: string)
    ensures |f| >= |FilenameSuffix| && f[|f| - |FilenameSuffix|..] == FilenameSuffix
  {
    CollapseWhitespace(name) + FilenameSuffix
  }

  lemma SuffixPrintable(k: nat)
    requires k < |FilenameSuffix|
    ensures !IsSpace(FilenameSuffix[k])
  {
    assert '!' <= FilenameSuffix[k] <= '~';
  }

  /** The file name holds no white space. */
  lemma FilenameHasNoSpace(name: string)
    ensures forall i :: 0 <= i < |DownloadFilename(name)| ==> !IsSpace(DownloadFilename(name)[i])
  {
    var c := CollapseWhitespace(name);
    var f := DownloadFilename(name);
    CollapseHasNoSpace(name, false);
    forall i | 0 <= i < |f| ensures !IsSpace(f[i]) {
      if i >= |c| {
        assert f[i] == FilenameSuffix[i - |c|];
        SuffixPrintable(i - |c|);
      }
    }
  }

  /** The page's React state. */
  class SimulationPage {
    var dosageForm: Option<DosageForm>
    var totalDosage: real
    var rateConstant: real
    var duration: real
    var simulationResult: Option<SimulationResult>

    /** A stored result always has its three series of one length. */
    ghost predicate Valid()
      reads this
    {
      simulationResult.Some? ==>
        |simulationResult.value.concentration| == |simulationResult.value.time| &&
        |simulationResult.value.cumulativeRelease| == |simulationResult.value.time|
    }

    constructor ()
      ensures dosageForm == None && simulationResult == None && Valid()
      ensures totalDosage == 100.0 && rateConstant == 0.5 && duration == 24.0
    {
      dosageForm := None;
      totalDosage := 100.0;
      rateConstant := 0.5;
      duration := 24.0;
      simulationResult := None;
    }

    /** The effect that loads the form named by the route and applies its kind's defaults. The
        dose and any earlier result are kept. Returns false when there is no id or no such form. */
    method Load(store: Store, id: Option<string>) returns (found: bool)
      requires Valid()
      modifies this, store
      ensures Valid()
      ensures totalDosage == old(totalDosage) && simulationResult == old(simulationResult)
      ensures !(id.Some? && id.value != "") ==>
                !found && store.stored == old(store.stored) && dosageForm == old(dosageForm) &&
                rateConstant == old(rateConstant) && duration == old(duration)
      ensures id.Some? && id.value != "" ==>
                store.stored == Some(old(store.Current())) &&
                found == FindById(old(store.Current()), id.value).Some?
      ensures found ==>
                dosageForm == FindById(old(store.Current()), id.value) &&
                Parameters(rateConstant, duration) == Defaults(dosageForm.value.releaseType)
      ensures !found ==> dosageForm == old(dosageForm) && rateConstant == old(rateConstant) &&
                         duration == old(duration)
    {
      found := false;
      if id.Some? && id.value != "" {
        var form := store.GetById(id.value);
        if form.Some? {
          dosageForm := form;
          match form.value.releaseType {
            case Immediate =>
              rateConstant := 1.5;
              duration := 12.0;
            case Extended =>
              rateConstant := 0.3;
              duration := 24.0;
            case Controlled =>
              rateConstant := 0.5;
              duration := 24.0;
          }
          found := true;
        }
      }
    }

    /** `runSimulation`: nothing without a form, otherwise the engine's profile for the current
        parameters on the default grid replaces the stored result. */
    method RunSimulation(m: MathLib)
      requires Valid()
      requires dosageForm.Some? && dosageForm.value.releaseType == Extended ==> duration != 0.0
      modifies this
      ensures Valid()
      ensures dosageForm == old(dosageForm) && totalDosage == old(totalDosage)
      ensures rateConstant == old(rateConstant) && duration == old(duration)
      ensures dosageForm.None? ==> simulationResult == old(simulationResult)
      ensures dosageForm.Some? ==>
                simulationResult ==
                Some(Profile(dosageForm.value.releaseType, totalDosage, rateConstant, duration, ChartPoints, m))
    {
      if dosageForm.None? {
        return;
      }
      var result := Simulate(dosageForm.value.releaseType, totalDosage, rateConstant, duration, ChartPoints, m);
      simulationResult := Some(result);
    }

    /** `handleDownload`: the CSV text and the file name it is saved under, or nothing when there
        is no result or no form. */
    method HandleDownload(fixed: Formatter) returns (download: Option<(string, string)>)
      requires Valid()
      ensures download.Some? <==> simulationResult.Some? && dosageForm.Some?
      ensures download.Some? ==>
                download.value.0 == CsvText(simulationResult.value, fixed) &&
                download.value.1 == DownloadFilename(dosageForm.value.name)
      ensures download.Some? && FormatterSafe(fixed) ==>
                Split(download.value.0, '\n') == [Header] + Rows(simulationResult.value, fixed) + [""]
    {
      if simulationResult.None? || dosageForm.None? {
        return None;
      }
      var csv := ExportToCsv(simulationResult.value, dosageForm.value.name, fixed);
      download := Some((csv, DownloadFilename(dosageForm.value.name)));
    }
  }
}
