# GPRMaxOutReader core, modelled in Dafny

GPRMaxOutReader is a small desktop viewer for gprMax `.out` files. Each file holds
receiver traces: one numeric sequence per field component (`Hx`, `Hy`, `Ez`).
This project models the logic inside the viewer's window class and proves properties
of that logic:

- **Sample-window selection** (`Window`). The range fields are read and defaulted.
  A negative start is clamped to 0 and an end beyond the trace is clamped to its length.
  The range is refused unless `start < end`. The result is the slice `data[start:end]`
  with its time axis `start .. end-1`. Non-numeric text gives `InvalidInput`. A refused
  range gives `InvalidRange`.
- **Filter handlers** (`Filters`). TGA multiplies every sample by the gain. T-Zero
  subtracts the trace's mean. Band-pass is guarded by its cutoffs. Apply-all runs the
  three in a fixed order. Each handler replaces the loaded trace and overwrites the
  filter label, and does nothing when no trace is loaded.
- **Multi-file navigation** (`Navigation`). This is the list of selected paths and the
  index of the file shown. Browse, Next and Previous move that index. The two buttons
  are enabled according to the index.
- **Plot decision** (`Plotting`). This is what `plot_data` decides before it draws:
  whether anything is plotted, the window, the marked peaks and the parts of the title.
- **Session** (`Session.Session`). A class with the fields the viewer updates in place.
  Each method's postcondition ties the new state to the pure functions above. Its
  invariant keeps the file index inside the list, keeps the button flags equal to what
  `update_ui` derives, and keeps the file label showing the current path.

Some things stay outside the model and become parameters: the HDF5 reader, scipy's
Butterworth design with `lfilter`, and `find_peaks`. The widget values `plot_data`
reads (component, range fields, threshold box) are passed in as `Plotting.Controls`.

Two behaviours of the program are worth stating plainly:

- Only a negative start is clamped (main.py:139-140). A start at or past the trace's
  length is kept, so the selection gives `InvalidRange`.
- Band-pass with `lowcut >= highcut` silently does nothing (main.py:248). No error is reported.

`Session.Session.PlotData` reports what the program does (`Plotting.PlotAsWritten`).
`Plotting.Plot` is the plot decision with the peak-test defect of "## Findings" corrected.

## Model

| member | source | states |
|---|---|---|
| Window.Requested | main.py:128-133 | with the range off both bounds default to 0 and len(data); a blank field takes its default; a numeric field's value is the bound; non-numeric text (the ValueError path) gives None, and only it |
| Window.Clamp | main.py:139-142 | a negative start becomes 0, an end past the length becomes the length, any other bound is kept |
| Window.Arange | main.py:146 | the time axis has end - start entries, entry k being start + k |
| Window.Select | main.py:128-146 | InvalidInput exactly when the range is on and a bound is non-numeric; a produced window is non-empty, lies inside the trace, equals the slice it names, and its time axis counts up by one from the start |
| Window.SelectIsClampedSlice | main.py:139-146 | after clamping, the selection succeeds iff start < end, with 0 <= start < end <= len and the window exactly data[start..end); otherwise InvalidRange |
| Window.DefaultSelectsWholeTrace | main.py:128-133 | range off or both fields blank selects the whole trace with time axis 0..len-1; an empty trace is refused |
| Window.NegativeStartIsZero | main.py:139-140 | any negative start selects exactly what start 0 selects |
| Window.LongEndIsLength | main.py:130-142 | an end at or past the length selects exactly what end = len or a blank end selects |
| Window.ReversedRangeRefused | main.py:144 | any numeric end at or before the start is refused with InvalidRange, whatever the trace |
| Filters.Tga | main.py:231-235 | with a trace every sample is multiplied by the gain, length kept, label "TGA"; without a trace nothing changes |
| Filters.TZeroStep | main.py:238-242 | with a trace every sample has the trace mean subtracted, length kept, label "T-Zero Correction"; without a trace nothing changes |
| Filters.SumShift | main.py:241 | subtracting c from every sample lowers the sum by len * c |
| Filters.TZeroHasZeroMean | main.py:241 | over the reals a T-Zero-corrected non-empty trace has sum and mean 0 |
| Filters.TZeroIdempotent | main.py:241 | a second T-Zero correction changes nothing |
| Filters.TZeroCommutesWithScale | main.py:234-241 | T-Zero after a gain equals the gain after T-Zero |
| Filters.ScaleTwice | main.py:234 | two scalings by a and b equal one scaling by a * b |
| Filters.TgaTwiceCompounds | main.py:231-235 | two TGA clicks scale the trace by gain squared |
| Filters.BandpassAsWritten | main.py:245-251 | as written: NoTrace exactly without a trace; GuardRefused exactly when lowcut >= highcut; Filtered exactly when the guard passes and the normalised cutoffs can be designed, and then the trace is lfilter of the old trace at those cutoffs and the band-pass label is set; in every other case nothing changes |
| Filters.BandGuardIsDesignable | main.py:248-267 | the corrected guard 0 < lowcut < highcut < fs/2 holds iff the written guard holds and the normalised cutoffs lie strictly inside (0, 1) |
| Filters.Bandpass | main.py:245-251 | without a trace or with cutoffs outside the corrected guard nothing changes; otherwise the trace becomes lfilter of the old trace at the normalised cutoffs and the band-pass label is set |
| Filters.BandpassAgreesWithAsWritten | main.py:245-251 | the corrected handler leaves the same trace and label as the written one on every input, and filters exactly when the corrected guard holds |
| Filters.DefaultCutoffsRaise | main.py:248-267 | with the shipped 10 Hz / 1000 Hz cutoffs at fs 1000 Hz the written guard passes, the normalised high cutoff is 2.0, the design raises and the trace is left unchanged |
| Filters.AllFilters | main.py:253-257 | apply-all changes nothing without a trace; otherwise the trace is T-Zero of the gained trace, band-passed when the band-pass guard passes, and the label is that of the last stage that ran: band-pass's or T-Zero's |
| Filters.AllFiltersTwiceWithDefaults | main.py:253-257 | with the shipped settings two apply-all clicks leave the mean-corrected trace scaled by gain squared: the gains compound |
| Navigation.Browse | main.py:208-210 | an empty selection changes nothing; a non-empty one replaces the list and resets the index to 0; the index stays in range |
| Navigation.Next | main.py:217-219 | the list is kept, the index stays in range and moves forward by at most one |
| Navigation.Prev | main.py:224-226 | the list is kept, the index stays in range and moves back by at most one |
| Navigation.EnabledIffMoves | main.py:104-108 | Next is enabled (index < n - 1) iff pressing it moves; Previous is enabled (index > 0) iff pressing it moves |
| Navigation.NextPrevRoundTrip | main.py:217-229 | Previous undoes an enabled Next, and Next undoes an enabled Previous |
| Navigation.NextTimes | main.py:217-222 | any number of Next presses keeps the list and a valid index |
| Navigation.NextTimesSaturates | main.py:217-222 | k Next presses from index i reach min(i + k, n - 1) |
| Plotting.BaseName | main.py:123 | the file name has no '/', is a suffix of the path, and is preceded by '/' when shorter than the path |
| Plotting.Plot | main.py:119-189 | the plot decision with every detected peak marked: nothing without a file or a trace; a refused selection draws nothing and reports that reason; TypeError exactly when the threshold is on and no filter was applied; otherwise always a plot, which shows the selected non-empty window, the controls' component, the path's file name, the detected peaks when the threshold is on, and the filter name with "Threshold Filter, " appended |
| Plotting.PeaksTest | main.py:168 | the truth test on the peak array raises iff there are two or more peaks, is true iff there is a single non-zero index, and is false for no peaks |
| Plotting.DrawAsWritten | main.py:166-169 | as written, two or more peaks turn a plot into the invalid-input refusal, a single peak at index 0 would not be drawn (find_peaks never returns index 0, see DrawAsWrittenOnFoundPeaks), and every other outcome is kept |
| Plotting.DrawAsWrittenOnFoundPeaks | main.py:151-169 | for peak sets find_peaks can return (interior, 100 apart), the as-written draw step keeps every outcome except that two or more peaks become the invalid-input refusal |
| Plotting.PlotAsWritten | main.py:119-189 | plot_data as written equals Plot except that two or more detected peaks give the invalid-input refusal (and a lone peak at 0, which find_peaks never reports, would not be drawn) |
| Plotting.TwoPeaksExample | main.py:148-189 | on a 201-sample trace with pulses at samples 50 and 150, which find_peaks keeps because they are 100 apart, the corrected plot marks both peaks, but as written the plot is refused as invalid input |
| Session.Session.constructor | main.py:17-59 | starts with no paths, index 0, no trace, no filter, both buttons disabled and the shipped filter settings |
| Session.Session.UpdateUi | main.py:104-108 | Next enabled iff index < n - 1, Previous enabled iff index > 0 |
| Session.Session.BrowseFiles | main.py:201-215 | the cursor moves as Browse says; a non-empty selection loads its first file and shows its path; an empty one leaves the trace and the file label as they were; the filter label is kept; the invariant holds |
| Session.Session.NextFile | main.py:217-222 | the cursor moves as Next says; on a move the new file is loaded; on a refused move the trace and the file label are kept; the invariant holds |
| Session.Session.PrevFile | main.py:224-229 | the cursor moves as Prev says; on a move the new file is loaded; on a refused move the trace and the file label are kept; the invariant holds |
| Session.Session.ApplyTga | main.py:231-236 | trace and label become Tga of the old ones; nothing else changes |
| Session.Session.ApplyTZero | main.py:238-243 | trace and label become TZeroStep of the old ones; nothing else changes |
| Session.Session.ApplyBandpass | main.py:245-251 | trace and label become Bandpass of the old ones under the session's cutoffs; nothing else changes |
| Session.Session.ApplyAllFilters | main.py:253-260 | trace and label become TGA, then T-Zero, then band-pass of the old ones |
| Session.Session.PlotData | main.py:119-189 | changes nothing, and reports what the program's plot_data decides (PlotAsWritten) for the current path, trace, label and controls |

## Left out

- The PyQt window, its layout, signal wiring, file dialog and `main()` are interface plumbing. The file dialog's result is the `selection` argument of `BrowseFiles`.
- The "File i of n" info text is left out, because it is integer formatting. The two button flags it sits beside are modelled.
- `read_gprmax_out_file` is HDF5 I/O. It is the `Reader` function parameter, and None stands for any read error.
- scipy's `butter` and `lfilter` are foreign IIR numerics. They are the `BandFilter` function parameter, called with the normalised cutoffs and the order. Only their domain (0 < low < high < 1) is modelled.
- Filters.Bandpass: does not state that the filtered trace keeps its length, because `lfilter` is a parameter here.
- `find_peaks` is a library call. It is the `PeakSearch` function parameter. Its results are constrained only to be interior indices of the window (never the first or last sample), at least 100 samples apart (`Plotting.Spaced`). Its height test and its choice among close peaks are not modelled.
- The statistics (min, max, mean, std, percentiles), the matplotlib drawing and the statistics text are rendering only. `Plot` does state that a plotted window is non-empty, so they are defined.
- The plot title's formatting is left out. `Plotted` carries its parts: component, file name and filter name.
- Each handler calls `plot_data` again after it changes the trace. That call changes no session field, so the handler methods leave it out.
- An exception out of a handler is modelled only by its effect on the session fields, which is none. This covers scipy's ValueError in `apply_bandpass` and the TypeError in `plot_data`. Whether the application survives an exception escaping a Qt slot depends on the PyQt version, and is not modelled.
- Samples are reals. NaN, infinities and float64 rounding are not modelled, so T-Zero's mean is exactly 0.
- An empty trace's NaN mean in T-Zero is not modelled. The empty trace simply stays empty.
- Plotting.PeaksTest: treats an empty peak array as false. NumPy deprecated that test, and recent NumPy raises on it.
- The band-pass label is the constant "Bandpass Filter (10.0-1000.0 Hz)". Python formats it from the cutoffs, but the cutoffs never change.
- `toggle_range` and `toggle_threshold` only mirror check boxes. Their flags enter as fields of `Controls`.

## Findings

| source | as written | input that shows it | evidently intended | confidence | as-written member | corrected member |
|---|---|---|---|---|---|---|
| main.py:53-56, 248-249, 263-267 | `apply_bandpass` only checks `lowcut < highcut`. The shipped high cutoff, 1000 Hz, equals the sampling rate, so it normalises to 2.0 and `butter` raises ValueError: the band-pass filter never runs | the defaults: lowcut 10.0, highcut 1000.0, fs 1000.0 | filter only cutoffs that can be designed: 0 < lowcut < highcut < fs/2 | high (scipy rejects Wn outside (0, 1)); not executed | Filters.BandpassAsWritten, Filters.DefaultCutoffsRaise | Filters.Bandpass, Filters.BandGuardIsDesignable, Filters.BandpassAgreesWithAsWritten |
| main.py:151, 168-169, 188-189 | `if peaks:` tests the truth of the peak array. Two or more peaks raise ValueError, which the `except ValueError` meant for the range fields catches: the range message is printed and nothing is shown | threshold 1.0 on, the label TGA set, the whole 201-sample trace with pulses 5.0 at sample 50 and 8.0 at sample 150 (find_peaks keeps both) | mark every detected peak: `if len(peaks) > 0` | high; not executed | Plotting.PeaksTest, Plotting.DrawAsWritten, Plotting.DrawAsWrittenOnFoundPeaks, Plotting.PlotAsWritten, Plotting.TwoPeaksExample | Plotting.Plot |
