/**
 * What the three consumers of a phase profile receive: the text lines of the
 * results panel, and the (index, phase) rows shared by the plot and the CSV export.
 */
module Output {
  import opened Wrappers
  import opened TextInput
  import opened Validation

  /** One exported row: the element index and its phase in radians. */
  datatype Row = Row(index: nat, phase: real)

  /** Column names of the exported table, in order. */
  const CsvHeader: seq<string> := ["Element Index", "Phase (rad)"]

  /** The DataFrame built by `save_csv`: index column `arange(len(phases))` beside the phase column. */
  function ExportRows(phases: seq<real>): (rows: seq<Row>)
    ensures |rows| == |phases|
  {
    seq(|phases|, i requires 0 <= i < |phases| => Row(i, phases[i]))
  }

  /** The "Phase (rad)" column of a table. */
  function PhaseColumn(rows: seq<Row>): (column: seq<real>)
    ensures |column| == |rows|
    ensures forall i :: 0 <= i < |rows| ==> column[i] == rows[i].phase
  {
    if rows == [] then [] else PhaseColumn(rows[..|rows| - 1]) + [rows[|rows| - 1].phase]
  }

  /** Reading the phase column back out of the exported rows gives the profile unchanged. */
  lemma ExportRoundTrip(phases: seq<real>)
    ensures PhaseColumn(ExportRows(phases)) == phases
  {
  }

  /** Row i is element i: indices run 0, 1, 2, ... in ascending order with no gap or repeat. */
  lemma ExportIndicesAscending(phases: seq<real>)
    ensures forall i :: 0 <= i < |phases| ==> ExportRows(phases)[i].index == i
    ensures forall i, j :: 0 <= i < j < |phases| ==> ExportRows(phases)[i].index < ExportRows(phases)[j].index
  {
  }

  /** The index field of a results line: format spec `04d`. */
  function IndexField(i: nat): (field: string)
    ensures |field| >= 4 && AllDigits(field) && DigitsValue(field) == i
  {
    ZeroPadded(i, 4)
  }

  /** One results line, `{i:04d} | Phase = {ph: .6f} rad` and a newline; `formatPhase` is the float formatting. */
  function DisplayLine(i: nat, phase: real, formatPhase: real -> string): (line: string)
    ensures |line| >= 5 && line[|line| - 5..] == " rad\n"
    ensures NoNewline(formatPhase(phase)) ==> NoNewline(line[..|line| - 1])
  {
    var field, text := IndexField(i), formatPhase(phase);
    var line := field + " | Phase = " + text + " rad\n";
    assert NoNewline(text) ==> NoNewline(line[..|line| - 1]) by {
      if NoNewline(text) {
        forall k | 0 <= k < |line| - 1 ensures line[k] != '\n' {
          if k < |field| { assert line[k] == field[k] && IsDigit(field[k]); }
        }
      }
    }
    line
  }

  /** No line break in the text. */
  predicate NoNewline(s: string) {
    forall k :: 0 <= k < |s| ==> s[k] != '\n'
  }

  /** A line opens with exactly four digits, followed by a space, and those digits read back as `i`. */
  predicate ShowsIndex(line: string, i: nat) {
    |line| > 4 && AllDigits(line[..4]) && line[4] == ' ' && ParseInt(line[..4]) == Some(i)
  }

  /** Every element index the validation admits (at most 9999) fills exactly four digits. */
  lemma DisplayLineIndex(i: nat, phase: real, formatPhase: real -> string)
    requires i < MaxElements
    ensures ShowsIndex(DisplayLine(i, phase, formatPhase), i)
  {
    assert Pow10(4) == 10000 by {
      assert Pow10(1) == 10 && Pow10(2) == 100 && Pow10(3) == 1000;
    }
    ZeroPaddedExact(i, 4);
    var line := DisplayLine(i, phase, formatPhase);
    assert line[..4] == IndexField(i);
  }

  /** The loop of `compute` that writes one results line per element, in index order. */
  method RenderLines(phases: seq<real>, formatPhase: real -> string) returns (lines: seq<string>)
    ensures |lines| == |phases|
    ensures forall i :: 0 <= i < |lines| ==> lines[i] == DisplayLine(i, phases[i], formatPhase)
    ensures |phases| <= MaxElements ==> forall i :: 0 <= i < |lines| ==> ShowsIndex(lines[i], i)
  {
    lines := [];
    var i := 0;
    while i < |phases|
      invariant 0 <= i <= |phases|
      invariant |lines| == i
      invariant forall k :: 0 <= k < i ==> lines[k] == DisplayLine(k, phases[k], formatPhase)
    {
      lines := lines + [DisplayLine(i, phases[i], formatPhase)];
      i := i + 1;
    }
    if |phases| <= MaxElements {
      forall k | 0 <= k < |lines| ensures ShowsIndex(lines[k], k) {
        DisplayLineIndex(k, phases[k], formatPhase);
      }
    }
  }
}
