/** `SimulationEngine.exportToCSV` of src/lib/simulationEngine.ts: a header line, then one
    line of three comma-separated fixed-precision fields per sample. `toFixed` is supplied by
    the caller; all the model needs of it is that it never writes a comma or a newline. */
module CsvExport {
  import opened DosageTypes

  /** The three column titles, with their units. */
  const Columns: seq<string> := ["Time (hours)", "Concentration (mg)", "Cumulative Release (mg)"]

  /** The header line: the column titles separated by commas. */
  const Header: string := Join(Columns, ',')

  /** `x.toFixed(digits)`. */
  type Formatter = (real, nat) -> string

  /** A formatter whose output never contains either separator. */
  ghost predicate FormatterSafe(fixed: Formatter)
  {
    forall x, d :: ',' !in fixed(x, d) && '\n' !in fixed(x, d)
  }

  lemma SafeField(fixed: Formatter, x: real, d: nat)
    requires FormatterSafe(fixed)
    ensures ',' !in fixed(x, d) && '\n' !in fixed(x, d)
  {
  }

  /** `parts.join(sep)`. */
  function Join(parts: seq<string>, sep: char): (s: string)
    ensures parts == [] ==> s == ""
    ensures parts != [] ==> |parts[0]| <= |s| && s[..|parts[0]|] == parts[0]
    ensures |parts| > 1 ==> |parts[0]| < |s| && s[|parts[0]|] == sep
  {
    if |parts| == 0 then ""
    else if |parts| == 1 then parts[0]
    else parts[0] + [sep] + Join(parts[1..], sep)
  }

  /** Every line followed by `sep`, the way the export builds its text. */
  function Terminated(lines: seq<string>, sep: char): string
  {
    if lines == [] then "" else lines[0] + [sep] + Terminated(lines[1..], sep)
  }

  /** `s.split(sep)`: the pieces between separators, none of which contains one, and
      joining them back gives `s`. */
  function Split(s: string, sep: char): (parts: seq<string>)
    ensures |parts| >= 1
    ensures forall i :: 0 <= i < |parts| ==> sep !in parts[i]
    ensures Join(parts, sep) == s
    decreases |s|
  {
    if s == [] then [""]
    else
      var rest := Split(s[1..], sep);
      if s[0] == sep then
        assert Join([""] + rest, sep) == [sep] + Join(rest, sep);
        [""] + rest
      else
        var parts := [[s[0]] + rest[0]] + rest[1..];
        assert parts[1..] == rest[1..];
        assert |rest| > 1 ==> Join(rest, sep) == rest[0] + [sep] + Join(rest[1..], sep);
        assert Join(parts, sep) == [s[0]] + Join(rest, sep);
        parts
  }

  /** A text without the separator is one piece. */
  lemma {:induction false} SplitNoSeparator(a: string, sep: char)
    requires sep !in a
    ensures Split(a, sep) == [a]
    decreases |a|
  {
    if a != [] {
      SplitNoSeparator(a[1..], sep);
    }
  }

  /** Splitting at the first separator. */
  lemma {:induction false} SplitAtFirst(a: string, b: string, sep: char)
    requires sep !in a
    ensures Split(a + [sep] + b, sep) == [a] + Split(b, sep)
    decreases |a|
  {
    if a == [] {
      assert a + [sep] + b == [sep] + b;
      assert ([sep] + b)[1..] == b;
    } else {
      var s := a + [sep] + b;
      assert s[0] == a[0] && s[1..] == a[1..] + [sep] + b;
      SplitAtFirst(a[1..], b, sep);
      var rest := Split(s[1..], sep);
      assert rest == [a[1..]] + Split(b, sep);
      assert [a[0]] + rest[0] == a;
      assert rest[1..] == Split(b, sep);
    }
  }

  /** Splitting undoes joining when no part contains the separator. */
  lemma {:induction false} SplitJoin(parts: seq<string>, sep: char)
    requires |parts| >= 1
    requires forall i :: 0 <= i < |parts| ==> sep !in parts[i]
    ensures Split(Join(parts, sep), sep) == parts
  {
    if |parts| == 1 {
      SplitNoSeparator(parts[0], sep);
    } else {
      SplitJoin(parts[1..], sep);
      SplitAtFirst(parts[0], Join(parts[1..], sep), sep);
    }
  }

  /** Splitting newline-terminated lines gives the lines and one empty piece after the last newline. */
  lemma {:induction false} SplitTerminated(lines: seq<string>, sep: char)
    requires forall i :: 0 <= i < |lines| ==> sep !in lines[i]
    ensures Split(Terminated(lines, sep), sep) == lines + [""]
  {
    if lines != [] {
      SplitTerminated(lines[1..], sep);
      SplitAtFirst(lines[0], Terminated(lines[1..], sep), sep);
      assert [lines[0]] + (lines[1..] + [""]) == lines + [""];
    }
  }

  /** Appending one more terminated line. */
  lemma {:induction false} TerminatedSnoc(lines: seq<string>, x: string, sep: char)
    ensures Terminated(lines + [x], sep) == Terminated(lines, sep) + x + [sep]
  {
    if lines == [] {
      assert [x][1..] == [];
    } else {
      assert (lines + [x])[1..] == lines[1..] + [x];
      TerminatedSnoc(lines[1..], x, sep);
    }
  }

  lemma JoinThree(a: string, b: string, c: string, sep: char)
    ensures Join([a, b, c], sep) == a + [sep] + b + [sep] + c
  {
    assert [a, b, c][1..] == [b, c];
    assert [b, c][1..] == [c];
    assert Join([b, c], sep) == b + [sep] + c;
    assert a + [sep] + (b + [sep] + c) == a + [sep] + b + [sep] + c;
  }

  /** The three fields of sample `i`: time to 2 places, the two amounts to 4. */
  function RowFields(r: SimulationResult, i: nat, fixed: Formatter): seq<string>
    requires i < |r.time| && i < |r.concentration| && i < |r.cumulativeRelease|
  {
    [fixed(r.time[i], 2), fixed(r.concentration[i], 4), fixed(r.cumulativeRelease[i], 4)]
  }

  /** The data lines, one per entry of `time`. */
  function Rows(r: SimulationResult, fixed: Formatter): (rows: seq<string>)
    requires |r.concentration| >= |r.time| && |r.cumulativeRelease| >= |r.time|
    ensures |rows| == |r.time|
  {
    seq(|r.time|, i requires 0 <= i < |r.time| => Join(RowFields(r, i, fixed), ','))
  }

  /** The exported text, as a value: it opens with the header line and ends with a newline. */
  function CsvText(r: SimulationResult, fixed: Formatter): (csv: string)
    requires |r.concentration| >= |r.time| && |r.cumulativeRelease| >= |r.time|
    ensures |csv| > |Header| && csv[..|Header| + 1] == Header + "\n"
    ensures csv[|csv| - 1] == '\n'
  {
    TerminatedLast([Header] + Rows(r, fixed), '\n');
    Terminated([Header] + Rows(r, fixed), '\n')
  }

  /** A non-empty list of terminated lines ends with the terminator. */
  lemma TerminatedLast(lines: seq<string>, sep: char)
    requires lines != []
    ensures |Terminated(lines, sep)| > 0 && Terminated(lines, sep)[|Terminated(lines, sep)| - 1] == sep
  {
    var n := |lines| - 1;
    assert lines == lines[..n] + [lines[n]];
    TerminatedSnoc(lines[..n], lines[n], sep);
  }

  /** The header is exactly the title line of the export. */
  lemma HeaderIsLiteral()
    ensures Header == "Time (hours),Concentration (mg),Cumulative Release (mg)"
  {
    JoinThree(Columns[0], Columns[1], Columns[2], ',');
    TitlesJoined();
  }

  lemma TitlesJoined()
    ensures "Time (hours)" + "," + "Concentration (mg)" + "," + "Cumulative Release (mg)"
            == "Time (hours),Concentration (mg),Cumulative Release (mg)"
  {
  }

  /** Joining keeps out any character that is neither the separator nor in a part. */
  lemma {:induction false} JoinExcludes(parts: seq<string>, sep: char, c: char)
    requires c != sep && forall i :: 0 <= i < |parts| ==> c !in parts[i]
    ensures c !in Join(parts, sep)
  {
    if |parts| > 1 {
      JoinExcludes(parts[1..], sep, c);
    }
  }

  /** The header is a single line. */
  lemma HeaderOneLine()
    ensures '\n' !in Header
  {
    assert '\n' !in Columns[0] && '\n' !in Columns[1] && '\n' !in Columns[2];
    JoinExcludes(Columns, ',', '\n');
  }

  /** Split at commas, the header gives back the three column titles. */
  lemma HeaderColumns()
    ensures Split(Header, ',') == Columns
  {
    assert ',' !in Columns[0] && ',' !in Columns[1] && ',' !in Columns[2];
    SplitJoin(Columns, ',');
  }

  /** The layout of the export: split at newlines it is the header, then one line per sample,
      then the empty piece after the final newline; every data line splits at commas into
      exactly its three formatted fields. */
  lemma CsvLayout(r: SimulationResult, fixed: Formatter)
    requires |r.concentration| >= |r.time| && |r.cumulativeRelease| >= |r.time|
    requires FormatterSafe(fixed)
    ensures Split(CsvText(r, fixed), '\n') == [Header] + Rows(r, fixed) + [""]
    ensures forall i :: 0 <= i < |r.time| ==> Split(Rows(r, fixed)[i], ',') == RowFields(r, i, fixed)
  {
    var lines := [Header] + Rows(r, fixed);
    HeaderOneLine();
    forall i | 0 <= i < |r.time|
      ensures Split(Rows(r, fixed)[i], ',') == RowFields(r, i, fixed)
      ensures '\n' !in Rows(r, fixed)[i]
    {
      var f := RowFields(r, i, fixed);
      SafeField(fixed, r.time[i], 2);
      SafeField(fixed, r.concentration[i], 4);
      SafeField(fixed, r.cumulativeRelease[i], 4);
      SplitJoin(f, ',');
      JoinThree(f[0], f[1], f[2], ',');
    }
    forall i | 0 <= i < |lines| ensures '\n' !in lines[i] {
      if i > 0 { assert lines[i] == Rows(r, fixed)[i - 1]; }
    }
    SplitTerminated(lines, '\n');
  }

  /** `exportToCSV(result, dosageFormName)`; the name is not used. */
  method ExportToCsv(r: SimulationResult, dosageFormName: string, fixed: Formatter) returns (csv: string)
    requires |r.concentration| >= |r.time| && |r.cumulativeRelease| >= |r.time|
    ensures csv == CsvText(r, fixed)
    ensures FormatterSafe(fixed) ==> Split(csv, '\n') == [Header] + Rows(r, fixed) + [""]
    ensures FormatterSafe(fixed) ==>
              forall i :: 0 <= i < |r.time| ==> Split(Rows(r, fixed)[i], ',') == RowFields(r, i, fixed)
  {
    csv := Header + "\n";
    ghost var lines := [Header];
    TerminatedSnoc([], Header, '\n');
    var i := 0;
    while i < |r.time|
      invariant 0 <= i <= |r.time|
      invariant lines == [Header] + Rows(r, fixed)[..i]
      invariant csv == Terminated(lines, '\n')
    {
      var row := fixed(r.time[i], 2) + "," + fixed(r.concentration[i], 4) + "," + fixed(r.cumulativeRelease[i], 4);
      RowStep(r, fixed, i, lines, row);
      csv := csv + row + "\n";
      lines := lines + [row];
      i := i + 1;
    }
    assert Rows(r, fixed)[..i] == Rows(r, fixed);
    if FormatterSafe(fixed) {
      CsvLayout(r, fixed);
    }
  }

  /** One turn of the export loop: the line it writes is data line `i`, and writing it extends the
      terminated text by that line. */
  lemma RowStep(r: SimulationResult, fixed: Formatter, i: nat, lines: seq<string>, row: string)
    requires i < |r.time| && |r.concentration| >= |r.time| && |r.cumulativeRelease| >= |r.time|
    requires row == fixed(r.time[i], 2) + "," + fixed(r.concentration[i], 4) + "," + fixed(r.cumulativeRelease[i], 4)
    ensures row == Rows(r, fixed)[i]
    ensures Rows(r, fixed)[..i + 1] == Rows(r, fixed)[..i] + [row]
    ensures Terminated(lines + [row], '\n') == Terminated(lines, '\n') + row + "\n"
  {
    JoinThree(fixed(r.time[i], 2), fixed(r.concentration[i], 4), fixed(r.cumulativeRelease[i], 4), ',');
    TerminatedSnoc(lines, row, '\n');
  }
}
