/**
 * The application object `IRSPhaseApp` with its widgets reduced to the state
 * they hold: the three entry fields, the results text, and the single slot
 * `last_phases` that the compute, save and reset buttons act on.
 */
module Session {
  import opened Wrappers
  import opened Validation
  import opened Steering
  import opened Output

  /**
   * The library routines the application relies on, taken as given: sine,
   * the constant π, `float()` on a stripped string, and the `{: .6f}` formatting.
   */
  datatype Numerics = Numerics(
    sin: real -> real,
    pi: real,
    parseFloat: string -> Option<real>,
    formatPhase: real -> string)

  /** The message box an action ends with, if any. */
  datatype Notice = Quiet | ErrorBox(title: string, text: string) | InfoBox(title: string, text: string)

  /** The figure `save_png` renders: title, axis labels and the plotted (index, phase) points. */
  datatype PlotImage = PlotImage(path: string, title: string, xLabel: string, yLabel: string, points: seq<Row>)

  /** The table `save_csv` hands to the writer: column names and rows, without the DataFrame index. */
  datatype CsvTable = CsvTable(path: string, header: seq<string>, rows: seq<Row>)

  const NoResultMessage := "Compute phase shifts first."
  const PlotTitle := "IRS Phase Shift Distribution"
  const PlotXLabel := "Element Index"
  const PlotYLabel := "Phase (rad)"

  /** The phase profile of a validated geometry. */
  function Profile(g: Geometry, num: Numerics): (phases: seq<real>)
    ensures |phases| == g.count
    ensures g.count >= 1 ==> phases[0] == 0.0
  {
    Ramp(g.count, Delta(g.incident, g.reflection, num.sin, num.pi), num.pi)
  }

  /** The notice that ends a save whose file was written (`writeError == None`) or not. */
  function SaveNotice(what: string, path: string, writeError: Option<string>): Notice {
    match writeError
    case None => InfoBox("Saved", what + " saved to:\n" + path)
    case Some(reason) => ErrorBox("Save Error", reason)
  }

  class IrsPhaseApp {
    const num: Numerics

    // The text of the three entry widgets.
    var countText: string
    var incidentText: string
    var reflectionText: string

    /** `last_phases`: the current result, if any. */
    var lastPhases: Option<seq<real>>
    /** The lines of the results panel. */
    var shownLines: seq<string>
    /** The geometry the current result was computed from. */
    ghost var lastInput: Geometry

    /**
     * A held result is the profile of a geometry that passed validation, and
     * the results panel holds what `compute` wrote for it: one line per
     * element; with no result the panel holds nothing written by the program.
     * Text the user types into the panel is not part of the model.
     */
    ghost predicate Valid()
      reads this
    {
      match lastPhases
      case None => shownLines == []
      case Some(phases) =>
        && 1 <= lastInput.count <= MaxElements
        && phases == Profile(lastInput, num)
        && |shownLines| == |phases|
        && forall i :: 0 <= i < |phases| ==> shownLines[i] == DisplayLine(i, phases[i], num.formatPhase)
    }

    /** A fresh window: empty entries, no result. */
    constructor (num: Numerics)
      ensures Valid() && this.num == num
      ensures countText == "" && incidentText == "" && reflectionText == ""
      ensures lastPhases == None && shownLines == []
    {
      this.num := num;
      countText, incidentText, reflectionText := "", "", "";
      lastPhases := None;
      shownLines := [];
    }

    /** The user types into the three entries; nothing else changes. */
    method Enter(count: string, incident: string, reflection: string)
      requires Valid()
      modifies this
      ensures Valid()
      ensures countText == count && incidentText == incident && reflectionText == reflection
      ensures lastPhases == old(lastPhases) && shownLines == old(shownLines) && lastInput == old(lastInput)
    {
      countText, incidentText, reflectionText := count, incident, reflection;
    }

    /**
     * The Compute button. A request refused by validation shows an input error
     * and leaves the result and the panel as they were; an accepted one
     * replaces the result with the new profile and the panel with its lines.
     */
    method Compute() returns (notice: Notice)
      requires Valid()
      modifies this
      ensures Valid()
      ensures countText == old(countText) && incidentText == old(incidentText) && reflectionText == old(reflectionText)
      ensures match Validate(countText, incidentText, reflectionText, num.parseFloat)
        case Err(e) =>
          && notice == ErrorBox("Input Error", Message(e))
          && lastPhases == old(lastPhases) && shownLines == old(shownLines)
        case Ok(g) =>
          && notice == Quiet
          && lastPhases == Some(Profile(g, num))
          && |shownLines| == g.count
          && forall i :: 0 <= i < g.count ==> ShowsIndex(shownLines[i], i)
    {
      var checked := Validate(countText, incidentText, reflectionText, num.parseFloat);
      match checked
      case Err(e) =>
        notice := ErrorBox("Input Error", Message(e));
      case Ok(g) =>
        var phases := Profile(g, num);
        lastPhases := Some(phases);
        lastInput := g;
        shownLines := RenderLines(phases, num.formatPhase);
        notice := Quiet;
    }

    /**
     * The Save PNG button. Without a result it reports so; a cancelled dialog
     * (empty path) does nothing; otherwise the held profile is plotted against
     * the element index and written to the chosen path.
     */
    method SavePng(chosen: string, writeError: Option<string>) returns (notice: Notice, image: Option<PlotImage>)
      ensures lastPhases.None? ==> notice == ErrorBox("Error", NoResultMessage) && image.None?
      ensures lastPhases.Some? && chosen == "" ==> notice == Quiet && image.None?
      ensures lastPhases.Some? && chosen != "" ==>
        && image == Some(PlotImage(chosen, PlotTitle, PlotXLabel, PlotYLabel, ExportRows(lastPhases.value)))
        && PhaseColumn(image.value.points) == lastPhases.value
        && (writeError.None? ==> notice == InfoBox("Saved", "Plot saved to:\n" + chosen))
        && (writeError.Some? ==> notice == ErrorBox("Save Error", writeError.value))
    {
      if lastPhases.None? {
        return ErrorBox("Error", NoResultMessage), None;
      }
      if chosen == "" {
        return Quiet, None;
      }
      var points := ExportRows(lastPhases.value);
      ExportRoundTrip(lastPhases.value);
      image := Some(PlotImage(chosen, PlotTitle, PlotXLabel, PlotYLabel, points));
      notice := SaveNotice("Plot", chosen, writeError);
    }

    /**
     * The Save CSV button. Same guards as `SavePng`; the table has the columns
     * "Element Index" and "Phase (rad)" and one row per element, in index order.
     */
    method SaveCsv(chosen: string, writeError: Option<string>) returns (notice: Notice, table: Option<CsvTable>)
      ensures lastPhases.None? ==> notice == ErrorBox("Error", NoResultMessage) && table.None?
      ensures lastPhases.Some? && chosen == "" ==> notice == Quiet && table.None?
      ensures lastPhases.Some? && chosen != "" ==>
        && table == Some(CsvTable(chosen, CsvHeader, ExportRows(lastPhases.value)))
        && PhaseColumn(table.value.rows) == lastPhases.value
        && (writeError.None? ==> notice == InfoBox("Saved", "CSV saved to:\n" + chosen))
        && (writeError.Some? ==> notice == ErrorBox("Save Error", writeError.value))
    {
      if lastPhases.None? {
        return ErrorBox("Error", NoResultMessage), None;
      }
      if chosen == "" {
        return Quiet, None;
      }
      var rows := ExportRows(lastPhases.value);
      ExportRoundTrip(lastPhases.value);
      table := Some(CsvTable(chosen, CsvHeader, rows));
      notice := SaveNotice("CSV", chosen, writeError);
    }

    /** The Reset button: empties the entries and the panel and drops the result. */
    method Reset()
      modifies this
      ensures Valid()
      ensures countText == "" && incidentText == "" && reflectionText == ""
      ensures lastPhases == None && shownLines == []
    {
      shownLines := [];
      countText, incidentText, reflectionText := "", "", "";
      lastPhases := None;
    }
  }
}
