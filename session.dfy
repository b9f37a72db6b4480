/**
 * The session state GPRMaxOutReader keeps on itself and updates in place: the
 * selected paths and current index, the loaded trace, the applied-filter label,
 * the shown path and the two navigation buttons' enablement.
 */
module Session {
  import opened Wrappers
  import Navigation
  import Filters
  import Plotting

  /** `read_gprmax_out_file(path, component)`: the dataset rxs/rx1/<component>, or None on any error. */
  type Reader = (string, string) -> Option<seq<real>>

  class Session {
    var filePaths: seq<string>
    var currentFileIndex: int
    var data: Option<seq<real>>
    var selectedFilter: Option<string>
    var fileLabel: string
    var nextEnabled: bool
    var prevEnabled: bool

    const tgaGain: real
    const bandpassLowcut: real
    const bandpassHighcut: real
    const bandpassOrder: int
    const sampleRate: real

    ghost function Cursor(): Navigation.Cursor
      reads this
    {
      Navigation.Cursor(filePaths, currentFileIndex)
    }

    ghost function Filtered(): Filters.FilterState
      reads this
    {
      Filters.FilterState(data, selectedFilter)
    }

    /** The index stays inside the list, the buttons match it, the label shows the current path. */
    ghost predicate Valid()
      reads this
    {
      && Navigation.Valid(Cursor())
      && nextEnabled == Navigation.NextEnabled(Cursor())
      && prevEnabled == Navigation.PrevEnabled(Cursor())
      && (filePaths != [] ==> fileLabel == filePaths[currentFileIndex])
      && sampleRate > 0.0
    }

    /** initUI: nothing selected, no trace, no filter, the shipped filter settings. */
    constructor ()
      ensures Valid()
      ensures Cursor() == Navigation.Initial && data.None? && selectedFilter.None?
      ensures !nextEnabled && !prevEnabled
      ensures tgaGain == Filters.DefaultGain && sampleRate == Filters.SampleRate
      ensures bandpassLowcut == Filters.DefaultLowcut && bandpassHighcut == Filters.DefaultHighcut
      ensures bandpassOrder == Filters.DefaultOrder
    {
      filePaths := [];
      currentFileIndex := 0;
      data := None;
      selectedFilter := None;
      fileLabel := "No file selected";
      tgaGain := Filters.DefaultGain;
      bandpassLowcut := Filters.DefaultLowcut;
      bandpassHighcut := Filters.DefaultHighcut;
      bandpassOrder := Filters.DefaultOrder;
      sampleRate := Filters.SampleRate;
      new;
      UpdateUi();
    }

    /** update_ui: enable Next while index < n - 1 and Previous while index > 0. */
    method UpdateUi()
      requires Navigation.Valid(Cursor())
      requires filePaths != [] ==> fileLabel == filePaths[currentFileIndex]
      requires sampleRate > 0.0
      modifies this`nextEnabled, this`prevEnabled
      ensures Valid()
      ensures nextEnabled <==> currentFileIndex < |filePaths| - 1
      ensures prevEnabled <==> currentFileIndex > 0
    {
      var numFiles := |filePaths|;
      nextEnabled := currentFileIndex < numFiles - 1;
      prevEnabled := currentFileIndex > 0;
    }

    /** browse_files: a non-empty selection replaces the list, shows and loads its first file. */
    method BrowseFiles(selection: seq<string>, component: string, read: Reader)
      requires Valid()
      modifies this
      ensures Valid()
      ensures Cursor() == Navigation.Browse(old(Cursor()), selection)
      ensures data == if selection != [] then read(selection[0], component) else old(data)
      ensures fileLabel == if selection != [] then selection[0] else old(fileLabel)
      ensures selectedFilter == old(selectedFilter)
    {
      if selection != [] {
        filePaths := selection;
        currentFileIndex := 0;
        fileLabel := selection[0];
        data := read(selection[0], component);
        UpdateUi();
      }
    }

    /** next_file: unless the last file is shown, show and load the following one. */
    method NextFile(component: string, read: Reader)
      requires Valid()
      modifies this
      ensures Valid()
      ensures Cursor() == Navigation.Next(old(Cursor()))
      ensures data == if Navigation.NextEnabled(old(Cursor()))
                      then read(filePaths[currentFileIndex], component) else old(data)
      ensures !Navigation.NextEnabled(old(Cursor())) ==> fileLabel == old(fileLabel)
      ensures selectedFilter == old(selectedFilter)
    {
      if currentFileIndex < |filePaths| - 1 {
        currentFileIndex := currentFileIndex + 1;
        fileLabel := filePaths[currentFileIndex];
        data := read(filePaths[currentFileIndex], component);
        UpdateUi();
      }
    }

    /** prev_file: unless the first file is shown, show and load the preceding one. */
    method PrevFile(component: string, read: Reader)
      requires Valid()
      modifies this
      ensures Valid()
      ensures Cursor() == Navigation.Prev(old(Cursor()))
      ensures data == if Navigation.PrevEnabled(old(Cursor()))
                      then read(filePaths[currentFileIndex], component) else old(data)
      ensures !Navigation.PrevEnabled(old(Cursor())) ==> fileLabel == old(fileLabel)
      ensures selectedFilter == old(selectedFilter)
    {
      if currentFileIndex > 0 {
        currentFileIndex := currentFileIndex - 1;
        fileLabel := filePaths[currentFileIndex];
        data := read(filePaths[currentFileIndex], component);
        UpdateUi();
      }
    }

    /** apply_tga: replace the trace by its scaled copy and set the label; no-op without a trace. */
    method ApplyTga()
      requires Valid()
      modifies this`data, this`selectedFilter
      ensures Valid()
      ensures Filtered() == Filters.Tga(old(Filtered()), tgaGain)
    {
      if data.Some? {
        data := Some(Filters.Scale(data.value, tgaGain));
        selectedFilter := Some(Filters.TgaLabel);
      }
    }

    /** apply_tzero: replace the trace by its mean-corrected copy and set the label; no-op without a trace. */
    method ApplyTZero()
      requires Valid()
      modifies this`data, this`selectedFilter
      ensures Valid()
      ensures Filtered() == Filters.TZeroStep(old(Filtered()))
    {
      if data.Some? {
        data := Some(Filters.TZero(data.value));
        selectedFilter := Some(Filters.TZeroLabel);
      }
    }

    /**
     * apply_bandpass: with a trace and cutoffs `butter` can design, replace the trace
     * by its band-passed copy and set the label; otherwise change nothing.
     */
    method ApplyBandpass(lfilter: Filters.BandFilter)
      requires Valid()
      modifies this`data, this`selectedFilter
      ensures Valid()
      ensures Filtered() == Filters.Bandpass(old(Filtered()), bandpassLowcut, bandpassHighcut,
                                             sampleRate, bandpassOrder, lfilter, Filters.DefaultBandLabel)
    {
      if data.Some? && Filters.BandGuard(bandpassLowcut, bandpassHighcut, sampleRate) {
        var low := Filters.Normalised(bandpassLowcut, sampleRate);
        var high := Filters.Normalised(bandpassHighcut, sampleRate);
        data := Some(lfilter(data.value, low, high, bandpassOrder));
        selectedFilter := Some(Filters.DefaultBandLabel);
      }
    }

    /** apply_all_filters: the three handlers in the fixed order TGA, T-Zero, band-pass. */
    method ApplyAllFilters(lfilter: Filters.BandFilter)
      requires Valid()
      modifies this`data, this`selectedFilter
      ensures Valid()
      ensures Filtered() == Filters.AllFilters(old(Filtered()), tgaGain, bandpassLowcut, bandpassHighcut,
                                               sampleRate, bandpassOrder, lfilter, Filters.DefaultBandLabel)
    {
      ApplyTga();
      ApplyTZero();
      ApplyBandpass(lfilter);
    }

    /**
     * plot_data as the program runs it: what is drawn for the current file, trace,
     * label and controls, including the peak-count refusal; changes nothing.
     */
    method PlotData(controls: Plotting.Controls, search: Plotting.PeakSearch)
      returns (outcome: Plotting.PlotOutcome)
      requires Valid()
      ensures outcome == Plotting.PlotAsWritten(if filePaths == [] then None else Some(filePaths[currentFileIndex]),
                                                data, selectedFilter, controls, search)
    {
      var path: Option<string> := None;
      if filePaths != [] {
        path := Some(filePaths[currentFileIndex]);
      }
      outcome := Plotting.PlotAsWritten(path, data, selectedFilter, controls, search);
    }
  }
}
