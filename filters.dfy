/**
 * The destructive filter handlers of GPRMaxOutReader (main.py:231-257) as pure steps
 * on the two session fields they touch: the loaded trace and the filter label.
 * Samples are reals: an idealisation of numpy's float64 arithmetic.
 */
module Filters {
  import opened Wrappers

  /** Sum of the samples. */
  function Sum(x: seq<real>): real
  {
    if x == [] then 0.0 else Sum(x[..|x| - 1]) + x[|x| - 1]
  }

  /** `numpy.mean`, for a non-empty trace. */
  function Mean(x: seq<real>): real
    requires |x| > 0
  {
    Sum(x) / (|x| as real)
  }

  /** `data * gain`: every sample multiplied by the gain. */
  function Scale(x: seq<real>, gain: real): (r: seq<real>)
    ensures |r| == |x|
  {
    seq(|x|, i requires 0 <= i < |x| => x[i] * gain)
  }

  /** `data - c`: every sample shifted down by c. */
  function Shift(x: seq<real>, c: real): (r: seq<real>)
    ensures |r| == |x|
  {
    seq(|x|, i requires 0 <= i < |x| => x[i] - c)
  }

  /**
   * `data - numpy.mean(data)`. On an empty array the mean is NaN and the
   * difference is again empty, so an empty trace stays empty.
   */
  function TZero(x: seq<real>): (r: seq<real>)
    ensures |r| == |x|
  {
    if |x| == 0 then x else Shift(x, Mean(x))
  }

  lemma {:induction false} SumShift(x: seq<real>, c: real)
    ensures Sum(Shift(x, c)) == Sum(x) - (|x| as real) * c
  {
    if x != [] {
      var y := x[..|x| - 1];
      assert Shift(x, c)[..|x| - 1] == Shift(y, c);
      SumShift(y, c);
    }
  }

  lemma {:induction false} SumScale(x: seq<real>, gain: real)
    ensures Sum(Scale(x, gain)) == Sum(x) * gain
  {
    if x != [] {
      var y := x[..|x| - 1];
      assert Scale(x, gain)[..|x| - 1] == Scale(y, gain) by {
        forall i | 0 <= i < |y| ensures Scale(x, gain)[..|x| - 1][i] == Scale(y, gain)[i] { }
      }
      SumScale(y, gain);
      assert (Sum(y) + x[|x| - 1]) * gain == Sum(y) * gain + x[|x| - 1] * gain;
    }
  }

  /** T-Zero correction leaves a trace whose samples sum, hence average, to zero. */
  lemma TZeroHasZeroMean(x: seq<real>)
    requires |x| > 0
    ensures Sum(TZero(x)) == 0.0
    ensures Mean(TZero(x)) == 0.0
  {
    SumShift(x, Mean(x));
  }

  /** Applying T-Zero to a corrected trace changes nothing. */
  lemma TZeroIdempotent(x: seq<real>)
    ensures TZero(TZero(x)) == TZero(x)
  {
    if |x| > 0 {
      TZeroHasZeroMean(x);
      assert Shift(TZero(x), 0.0) == TZero(x);
    }
  }

  /** Scaling before T-Zero is scaling after it: the mean scales with the samples. */
  lemma TZeroCommutesWithScale(x: seq<real>, gain: real)
    ensures TZero(Scale(x, gain)) == Scale(TZero(x), gain)
  {
    if |x| > 0 {
      SumScale(x, gain);
      var m := Mean(x);
      assert Mean(Scale(x, gain)) == m * gain;
      forall i | 0 <= i < |x|
        ensures TZero(Scale(x, gain))[i] == Scale(TZero(x), gain)[i]
      {
        assert x[i] * gain - m * gain == (x[i] - m) * gain;
      }
    }
  }

  /** Two scalings compound multiplicatively. */
  lemma ScaleTwice(x: seq<real>, a: real, b: real)
    ensures Scale(Scale(x, a), b) == Scale(x, a * b)
  {
    forall i | 0 <= i < |x| ensures Scale(Scale(x, a), b)[i] == Scale(x, a * b)[i] {
      assert x[i] * a * b == x[i] * (a * b);
    }
  }

  /** The two fields a filter handler writes. */
  datatype FilterState = FilterState(data: Option<seq<real>>, selected: Option<string>)

  const TgaLabel: string := "TGA"
  const TZeroLabel: string := "T-Zero Correction"

  /** apply_tga: scale the loaded trace by the gain and set the label; no-op with no trace. */
  function Tga(st: FilterState, gain: real): (r: FilterState)
    ensures st.data.None? ==> r == st
    ensures st.data.Some? ==>
      && r.selected == Some(TgaLabel)
      && r.data.Some? && |r.data.value| == |st.data.value|
      && forall i :: 0 <= i < |st.data.value| ==> r.data.value[i] == st.data.value[i] * gain
  {
    match st.data
    case None => st
    case Some(x) => FilterState(Some(Scale(x, gain)), Some(TgaLabel))
  }

  /** apply_tzero: subtract the trace's mean and set the label; no-op with no trace. */
  function TZeroStep(st: FilterState): (r: FilterState)
    ensures st.data.None? ==> r == st
    ensures st.data.Some? ==>
      && r.selected == Some(TZeroLabel)
      && r.data.Some? && |r.data.value| == |st.data.value|
      && (|st.data.value| > 0 ==>
            forall i :: 0 <= i < |st.data.value| ==>
              r.data.value[i] == st.data.value[i] - Mean(st.data.value))
  {
    match st.data
    case None => st
    case Some(x) => FilterState(Some(TZero(x)), Some(TZeroLabel))
  }

  /** Butterworth design plus `lfilter`, given normalised cutoffs and the order. */
  type BandFilter = (seq<real>, real, real, int) -> seq<real>

  /** The guard main.py:248 tests before filtering. */
  predicate GuardAsWritten(lowcut: real, highcut: real)
  {
    lowcut < highcut
  }

  /** Cutoffs divided by the Nyquist frequency, as butter_bandpass does. */
  function Normalised(cut: real, fs: real): real
    requires fs > 0.0
  {
    cut / (0.5 * fs)
  }

  /** scipy's `butter` designs a digital band-pass only for 0 < low < high < 1. */
  predicate Designable(low: real, high: real)
  {
    0.0 < low < high < 1.0
  }

  /** The guard that admits exactly the cutoffs `butter` can design against fs. */
  predicate BandGuard(lowcut: real, highcut: real, fs: real)
  {
    fs > 0.0 && 0.0 < lowcut < highcut < fs / 2.0
  }

  /** The corrected guard passes exactly when the as-written guard passes and the design succeeds. */
  lemma BandGuardIsDesignable(lowcut: real, highcut: real, fs: real)
    requires fs > 0.0
    ensures BandGuard(lowcut, highcut, fs)
        <==> GuardAsWritten(lowcut, highcut) && Designable(Normalised(lowcut, fs), Normalised(highcut, fs))
  {
    var ny := 0.5 * fs;
    assert fs / 2.0 == ny;
    DivOrder(0.0, lowcut, ny);
    DivOrder(lowcut, highcut, ny);
    DivOrder(highcut, ny, ny);
    assert 0.0 / ny == 0.0 && ny / ny == 1.0;
    assert Normalised(lowcut, fs) == lowcut / ny && Normalised(highcut, fs) == highcut / ny;
  }

  /** Dividing by a positive number keeps and reflects strict order. */
  lemma DivOrder(a: real, b: real, c: real)
    requires c > 0.0
    ensures a < b <==> a / c < b / c
  {
    var p, q := a / c, b / c;
    assert p * c == a && q * c == b;
    assert (q - p) * c == b - a;
    if a < b {
      assert q - p > 0.0;
    }
    if p < q {
      assert (q - p) * c > 0.0;
    }
  }

  /** How the as-written handler ends. */
  datatype BandOutcome = NoTrace | GuardRefused | DesignRaised | Filtered

  /**
   * apply_bandpass as written (main.py:245-251): after `lowcut < highcut` it calls
   * butter, which raises ValueError for cutoffs outside (0, 1) after normalisation;
   * the exception leaves both fields as they were.
   */
  function BandpassAsWritten(st: FilterState, lowcut: real, highcut: real, fs: real, order: int,
                             lfilter: BandFilter, name: string): (r: (BandOutcome, FilterState))
    requires fs > 0.0
    ensures r.0 != Filtered ==> r.1 == st
    ensures r.0 == NoTrace <==> st.data.None?
    ensures r.0 == GuardRefused <==> st.data.Some? && !GuardAsWritten(lowcut, highcut)
    ensures r.0 == Filtered <==> st.data.Some? && GuardAsWritten(lowcut, highcut)
                                 && Designable(Normalised(lowcut, fs), Normalised(highcut, fs))
    ensures r.0 == Filtered ==>
      r.1 == FilterState(Some(lfilter(st.data.value, Normalised(lowcut, fs), Normalised(highcut, fs), order)),
                         Some(name))
  {
    if st.data.None? then (NoTrace, st)
    else if !GuardAsWritten(lowcut, highcut) then (GuardRefused, st)
    else
      var low, high := Normalised(lowcut, fs), Normalised(highcut, fs);
      if !Designable(low, high) then (DesignRaised, st)
      else (Filtered, FilterState(Some(lfilter(st.data.value, low, high, order)), Some(name)))
  }

  /** apply_bandpass behind the corrected guard: filters only cutoffs `butter` accepts. */
  function Bandpass(st: FilterState, lowcut: real, highcut: real, fs: real, order: int,
                    lfilter: BandFilter, name: string): (r: FilterState)
    ensures st.data.None? || !BandGuard(lowcut, highcut, fs) ==> r == st
    ensures st.data.Some? && BandGuard(lowcut, highcut, fs) ==>
      && r.selected == Some(name)
      && r.data == Some(lfilter(st.data.value, Normalised(lowcut, fs), Normalised(highcut, fs), order))
  {
    if st.data.Some? && BandGuard(lowcut, highcut, fs) then
      FilterState(Some(lfilter(st.data.value, Normalised(lowcut, fs), Normalised(highcut, fs), order)),
                  Some(name))
    else st
  }

  /** The corrected handler changes the fields exactly as the as-written one does. */
  lemma BandpassAgreesWithAsWritten(st: FilterState, lowcut: real, highcut: real, fs: real,
                                    order: int, lfilter: BandFilter, name: string)
    requires fs > 0.0
    ensures Bandpass(st, lowcut, highcut, fs, order, lfilter, name)
         == BandpassAsWritten(st, lowcut, highcut, fs, order, lfilter, name).1
    ensures BandpassAsWritten(st, lowcut, highcut, fs, order, lfilter, name).0 == Filtered
        <==> st.data.Some? && BandGuard(lowcut, highcut, fs)
  {
    BandGuardIsDesignable(lowcut, highcut, fs);
  }

  /** The cutoffs and design the session uses (main.py:53-56 and the fs of main.py:249). */
  const DefaultGain: real := 2.0
  const DefaultLowcut: real := 10.0
  const DefaultHighcut: real := 1000.0
  const DefaultOrder: int := 5
  const SampleRate: real := 1000.0
  const DefaultBandLabel: string := "Bandpass Filter (10.0-1000.0 Hz)"

  /**
   * With the shipped cutoffs the as-written guard lets the call through, yet the
   * normalised high cutoff is 2.0, so `butter` raises and nothing is filtered.
   */
  lemma DefaultCutoffsRaise(st: FilterState, lfilter: BandFilter)
    requires st.data.Some?
    ensures GuardAsWritten(DefaultLowcut, DefaultHighcut)
    ensures Normalised(DefaultHighcut, SampleRate) == 2.0
    ensures BandpassAsWritten(st, DefaultLowcut, DefaultHighcut, SampleRate, DefaultOrder,
                              lfilter, DefaultBandLabel) == (DesignRaised, st)
    ensures !BandGuard(DefaultLowcut, DefaultHighcut, SampleRate)
  {
  }

  /**
   * apply_all_filters: TGA, then T-Zero, then band-pass, in that order. It leaves the
   * label of the last stage that ran: band-pass when its guard passes, T-Zero
   * otherwise; with no trace nothing changes.
   */
  function AllFilters(st: FilterState, gain: real, lowcut: real, highcut: real, fs: real,
                      order: int, lfilter: BandFilter, name: string): (r: FilterState)
    ensures st.data.None? ==> r == st
    ensures st.data.Some? ==>
      r.selected == if BandGuard(lowcut, highcut, fs) then Some(name) else Some(TZeroLabel)
    ensures st.data.Some? ==>
      var corrected := TZero(Scale(st.data.value, gain));
      r.data == if BandGuard(lowcut, highcut, fs)
                then Some(lfilter(corrected, Normalised(lowcut, fs), Normalised(highcut, fs), order))
                else Some(corrected)
  {
    Bandpass(TZeroStep(Tga(st, gain)), lowcut, highcut, fs, order, lfilter, name)
  }

  /** Two TGA clicks scale by the square of the gain. */
  lemma TgaTwiceCompounds(st: FilterState, gain: real)
    requires st.data.Some?
    ensures Tga(Tga(st, gain), gain) == FilterState(Some(Scale(st.data.value, gain * gain)), Some(TgaLabel))
  {
    ScaleTwice(st.data.value, gain, gain);
  }

  /**
   * With the shipped settings, two apply-all clicks leave the mean-corrected trace
   * scaled by the gain squared: the gains compound, the second T-Zero is absorbed.
   */
  lemma AllFiltersTwiceWithDefaults(x: seq<real>, lfilter: BandFilter)
    ensures var once := AllFilters(FilterState(Some(x), None), DefaultGain, DefaultLowcut,
                                   DefaultHighcut, SampleRate, DefaultOrder, lfilter, DefaultBandLabel);
      AllFilters(once, DefaultGain, DefaultLowcut, DefaultHighcut, SampleRate, DefaultOrder,
                 lfilter, DefaultBandLabel)
        == FilterState(Some(Scale(TZero(x), DefaultGain * DefaultGain)), Some(TZeroLabel))
  {
    var g := DefaultGain;
    var y := TZero(Scale(x, g));
    TZeroCommutesWithScale(x, g);
    TZeroCommutesWithScale(y, g);
    TZeroIdempotent(x);
    ScaleTwice(TZero(x), g, g);
    TZeroCommutesWithScale(TZero(x), g);
  }
}
