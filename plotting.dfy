/**
 * What GPRMaxOutReader.plot_data (main.py:119-189) decides before it draws: whether
 * anything is plotted, the window and time axis, the peaks it marks and the parts
 * of the title. Drawing, statistics and the peak search itself are not modelled.
 */
module Plotting {
  import opened Wrappers
  import opened Window

  /** The widget values plot_data reads: component, range fields, threshold check box and value. */
  datatype Controls = Controls(component: string, range: RangeInput,
                               thresholdEnabled: bool, threshold: real)

  /** The minimum distance between peaks passed to find_peaks. */
  const PeakDistance: nat := 100

  /**
   * The shape of what find_peaks returns for an n-sample window: interior indices
   * (a peak needs a neighbour on each side, so never the first or last sample),
   * at least PeakDistance apart and so strictly increasing.
   */
  predicate Spaced(peaks: seq<nat>, n: nat)
  {
    && (forall i :: 0 <= i < |peaks| ==> 0 < peaks[i] < n - 1)
    && (forall i :: 0 < i < |peaks| ==> peaks[i - 1] + PeakDistance <= peaks[i])
  }

  /** `find_peaks(window, height=threshold, distance=100)`: window-local peak indices. */
  type PeakSearch = f: (seq<real>, real) -> seq<nat> | forall w, t :: Spaced(f(w, t), |w|)
    witness (w: seq<real>, t: real) => []

  datatype PlotOutcome =
    | Skipped                    // no file selected or no trace loaded
    | Refused(reason: Selection) // a message is printed and nothing is drawn
    | TitleTypeError             // `None + "Threshold Filter, "` raises TypeError
    | Plotted(window: seq<real>, time: seq<int>, peaks: seq<nat>,
              component: string, fileName: string, filterName: Option<string>)

  const ThresholdSuffix: string := "Threshold Filter, "

  /** `path.split("/")[-1]`: the text after the last '/', or the whole path without one. */
  function BaseName(path: string): (r: string)
    ensures '/' !in r
    ensures |r| <= |path| && r == path[|path| - |r|..]
    ensures |r| < |path| ==> path[|path| - |r| - 1] == '/'
  {
    if path == [] || path[|path| - 1] == '/' then []
    else BaseName(path[..|path| - 1]) + [path[|path| - 1]]
  }

  /**
   * plot_data with every detected peak marked. With a file and a trace it selects
   * the window; a refused selection draws nothing; with the threshold on it marks
   * the peaks found in the window and appends the threshold suffix to the filter
   * name, which raises TypeError while no filter has been applied.
   */
  function Plot(path: Option<string>, data: Option<seq<real>>, selected: Option<string>,
                controls: Controls, search: PeakSearch): (r: PlotOutcome)
    ensures path.None? || data.None? ==> r == Skipped
    ensures path.Some? && data.Some? ==>
      && (r.Refused? <==> !Select(data.value, controls.range).Ok?)
      && (r.Refused? ==> r.reason == Select(data.value, controls.range))
      && (r.TitleTypeError? <==> Select(data.value, controls.range).Ok?
                                 && controls.thresholdEnabled && selected.None?)
    ensures (path.Some? && data.Some? && Select(data.value, controls.range).Ok?
             && !(controls.thresholdEnabled && selected.None?)) ==> r.Plotted?
    ensures r.Plotted? ==>
      && path.Some? && data.Some?
      && r.component == controls.component
      && Select(data.value, controls.range) == Ok(r.window, r.time)
      && |r.window| > 0
      && r.fileName == BaseName(path.value)
      && r.peaks == (if controls.thresholdEnabled then search(r.window, controls.threshold) else [])
      && r.filterName == (if controls.thresholdEnabled then Some(selected.value + ThresholdSuffix)
                          else selected)
  {
    if path.None? || data.None? then Skipped
    else match Select(data.value, controls.range)
      case Ok(window, time) =>
        if !controls.thresholdEnabled then
          Plotted(window, time, [], controls.component, BaseName(path.value), selected)
        else if selected.None? then TitleTypeError
        else
          Plotted(window, time, search(window, controls.threshold), controls.component,
                  BaseName(path.value), Some(selected.value + ThresholdSuffix))
      case other => Refused(other)
  }

  /**
   * `if peaks:` on the array find_peaks returns: an empty array is false, a
   * one-element array is the truth of its element, and a longer one raises
   * ValueError (None here).
   */
  function PeaksTest(peaks: seq<nat>): (r: Option<bool>)
    ensures r.None? <==> |peaks| >= 2
    ensures r == Some(true) <==> |peaks| == 1 && peaks[0] != 0
    ensures |peaks| == 0 ==> r == Some(false)
  {
    if |peaks| == 0 then Some(false)
    else if |peaks| == 1 then Some(peaks[0] != 0)
    else None
  }

  /**
   * The draw step as written: the truth test on the peak array decides whether the
   * peaks are drawn, and its ValueError is caught by the handler meant for the
   * range fields, which prints the range message and draws nothing. So two or more
   * peaks suppress the plot, and a single peak at window index 0 is not drawn.
   */
  function DrawAsWritten(p: PlotOutcome): (r: PlotOutcome)
    ensures !p.Plotted? ==> r == p
    ensures p.Plotted? && |p.peaks| >= 2 ==> r == Refused(InvalidInput)
    ensures p.Plotted? && p.peaks == [0] ==> r == p.(peaks := [])
    ensures p.Plotted? && |p.peaks| <= 1 && p.peaks != [0] ==> r == p
  {
    match p
    case Plotted(window, time, peaks, component, fileName, filterName) =>
      (match PeaksTest(peaks)
       case None => Refused(InvalidInput)
       case Some(draw) =>
         Plotted(window, time, if draw then peaks else [], component, fileName, filterName))
    case other => other
  }

  /**
   * plot_data as written: what Plot decides, except that two or more detected peaks
   * turn a plot into the invalid-input refusal and a lone peak at 0 is not drawn.
   */
  function PlotAsWritten(path: Option<string>, data: Option<seq<real>>, selected: Option<string>,
                         controls: Controls, search: PeakSearch): (r: PlotOutcome)
    ensures var p := Plot(path, data, selected, controls, search);
      && (!p.Plotted? ==> r == p)
      && (p.Plotted? && |p.peaks| >= 2 ==> r == Refused(InvalidInput))
      && (p.Plotted? && p.peaks == [0] ==> r == p.(peaks := []))
      && (p.Plotted? && |p.peaks| <= 1 && p.peaks != [0] ==> r == p)
  {
    DrawAsWritten(Plot(path, data, selected, controls, search))
  }

  /**
   * For peaks find_peaks can return, the as-written draw step differs from the
   * corrected one only by refusing a plot with two or more peaks.
   */
  lemma DrawAsWrittenOnFoundPeaks(p: PlotOutcome)
    requires p.Plotted? ==> Spaced(p.peaks, |p.window|)
    ensures DrawAsWritten(p) == if p.Plotted? && |p.peaks| >= 2 then Refused(InvalidInput) else p
  {
  }

  /** The 201-sample trace with pulses of 5.0 at sample 50 and 8.0 at sample 150. */
  function TwoPulseTrace(): (r: seq<real>)
    ensures |r| == 201 && r[50] == 5.0 && r[150] == 8.0
  {
    seq(201, i => if i == 50 then 5.0 else if i == 150 then 8.0 else 0.0)
  }

  /**
   * A concrete case: on the two-pulse trace, with the label TGA set and the threshold at
   * 1.0, find_peaks keeps both pulses (100 samples apart); the corrected plot marks
   * both, and the as-written plot_data refuses with the invalid-input message.
   */
  lemma TwoPeaksExample()
    ensures var controls := Controls("Ez", RangeInput(false, Blank, Blank), true, 1.0);
            var search: PeakSearch := (w: seq<real>, t: real) => if |w| > 151 then [50, 150] else [];
            var data := TwoPulseTrace();
      && Plot(Some("runs/a.out"), Some(data), Some("TGA"), controls, search).Plotted?
      && Plot(Some("runs/a.out"), Some(data), Some("TGA"), controls, search).peaks == [50, 150]
      && PlotAsWritten(Some("runs/a.out"), Some(data), Some("TGA"), controls, search)
         == Refused(InvalidInput)
  {
    var data := TwoPulseTrace();
    DefaultSelectsWholeTrace(data, RangeInput(false, Blank, Blank));
  }
}
