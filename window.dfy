/**
 * Sample-window selection of GPRMaxOutReader.plot_data (main.py:128-146):
 * default bounds, clamping, the start < end test, the slice and its time axis.
 */
module Window {
  import opened Wrappers

  /** The text of one bound field: empty, an integer `int()` accepts, or text it rejects. */
  datatype Bound = Blank | Number(value: int) | NotNumber

  /** The range check box and the two bound fields as the user left them. */
  datatype RangeInput = RangeInput(enabled: bool, start: Bound, end: Bound)

  /** What the selection yields: the samples to plot with their time axis, or why not. */
  datatype Selection =
    | Ok(window: seq<real>, time: seq<int>)
    | InvalidRange   // start >= end after clamping
    | InvalidInput   // `int()` raised ValueError on a bound

  /** The bounds before clamping, or None when a bound's text is not an integer. */
  function Requested(input: RangeInput, n: nat): (r: Option<(int, int)>)
    ensures r.None? <==> input.enabled && (input.start.NotNumber? || input.end.NotNumber?)
    ensures r.Some? && (!input.enabled || input.start.Blank?) ==> r.value.0 == 0
    ensures r.Some? && (!input.enabled || input.end.Blank?) ==> r.value.1 == n
    ensures r.Some? && input.enabled && input.start.Number? ==> r.value.0 == input.start.value
    ensures r.Some? && input.enabled && input.end.Number? ==> r.value.1 == input.end.value
  {
    if !input.enabled then Some((0, n))
    else if input.start.NotNumber? || input.end.NotNumber? then None
    else
      var s := if input.start.Blank? then 0 else input.start.value;
      var e := if input.end.Blank? then n else input.end.value;
      Some((s, e))
  }

  /** Raises a negative start to 0 and lowers an end beyond the trace to its length. */
  function Clamp(start: int, end: int, n: nat): (r: (int, int))
    ensures 0 <= r.0 && r.1 <= n
    ensures start >= 0 ==> r.0 == start
    ensures end <= n ==> r.1 == end
    ensures start < 0 ==> r.0 == 0
    ensures end > n ==> r.1 == n
  {
    (if start < 0 then 0 else start, if end > n then n else end)
  }

  /** The time axis `numpy.arange(start, end, 1)`. */
  function Arange(start: int, end: int): (r: seq<int>)
    requires start <= end
    ensures |r| == end - start
    ensures forall k :: 0 <= k < |r| ==> r[k] == start + k
    decreases end - start
  {
    if start == end then [] else [start] + Arange(start + 1, end)
  }

  /** The window plot_data draws for `data` and the range fields. */
  function Select(data: seq<real>, input: RangeInput): (r: Selection)
    ensures r.InvalidInput? <==> input.enabled && (input.start.NotNumber? || input.end.NotNumber?)
    ensures r.Ok? ==>
      && 0 < |r.window| == |r.time|
      && 0 <= r.time[0]
      && r.time[0] + |r.window| <= |data|
      && r.window == data[r.time[0] .. r.time[0] + |r.window|]
      && forall k :: 0 <= k < |r.time| ==> r.time[k] == r.time[0] + k
  {
    match Requested(input, |data|)
    case None => InvalidInput
    case Some((s0, e0)) =>
      var (s, e) := Clamp(s0, e0, |data|);
      if s < e then Ok(data[s..e], Arange(s, e)) else InvalidRange
  }

  /**
   * The window is exactly data[s..e) for the clamped bounds (s, e) when s < e,
   * and the selection is refused with InvalidRange otherwise.
   */
  lemma SelectIsClampedSlice(data: seq<real>, input: RangeInput, s0: int, e0: int)
    requires Requested(input, |data|) == Some((s0, e0))
    ensures var (s, e) := Clamp(s0, e0, |data|);
      && (Select(data, input).Ok? <==> s < e)
      && (s < e ==> 0 <= s < e <= |data|
                    && Select(data, input) == Ok(data[s..e], Arange(s, e)))
      && (s >= e ==> Select(data, input) == InvalidRange)
  {
  }

  /** With the range disabled or both fields blank, the whole trace is the window. */
  lemma DefaultSelectsWholeTrace(data: seq<real>, input: RangeInput)
    requires !input.enabled || (input.start.Blank? && input.end.Blank?)
    ensures |data| > 0 ==> Select(data, input) == Ok(data, Arange(0, |data|))
    ensures |data| == 0 ==> Select(data, input) == InvalidRange
  {
    assert data[0..|data|] == data;
  }

  /** A negative start behaves exactly as a start of 0. */
  lemma NegativeStartIsZero(data: seq<real>, start: int, end: Bound)
    requires start < 0
    ensures Select(data, RangeInput(true, Number(start), end))
         == Select(data, RangeInput(true, Number(0), end))
  {
  }

  /** An end beyond the trace behaves exactly as an end equal to its length, or a blank end. */
  lemma LongEndIsLength(data: seq<real>, start: Bound, end: int)
    requires end >= |data|
    ensures Select(data, RangeInput(true, start, Number(end)))
         == Select(data, RangeInput(true, start, Number(|data|)))
         == Select(data, RangeInput(true, start, Blank))
  {
  }

  /** An end at or before the start is refused, wherever the start lies. */
  lemma ReversedRangeRefused(data: seq<real>, start: int, end: int)
    requires end <= start
    ensures Select(data, RangeInput(true, Number(start), Number(end))) == InvalidRange
  {
  }
}
