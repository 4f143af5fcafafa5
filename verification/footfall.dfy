/** The footfall-segmentation utilities shared by the analysis scripts
    plot_average_footfall.py, plot_pressure_debouncing.py and
    plot_gait_ratios.py: rising-edge detection on a recorded contact series,
    per-period slicing, pressure debouncing (plain and smoothed), padding and
    flattening. Recorded samples are reals; contact flags are booleans; the
    debounced series is a 0/1 integer series. */
module Footfall {
  import opened Wrappers

  // ---------------------------------------------------------------------
  // Rising edges of a contact series
  // ---------------------------------------------------------------------

  /** The series rises at k: no contact at k, contact at k + 1. */
  predicate RisesAt(fc: seq<bool>, k: nat) {
    k + 1 < |fc| && !fc[k] && fc[k + 1]
  }

  /** The indices k >= from at which the series rises, in increasing
      order. */
  function TransitionsFrom(fc: seq<bool>, from: nat): (ts: seq<nat>)
    ensures forall m :: 0 <= m < |ts| ==> from <= ts[m] && RisesAt(fc, ts[m])
    ensures forall m, n :: 0 <= m < n < |ts| ==> ts[m] < ts[n]
    ensures forall k :: from <= k && RisesAt(fc, k) ==> k in ts
    decreases |fc| - from
  {
    if from + 1 >= |fc| then []
    else (if RisesAt(fc, from) then [from] else []) + TransitionsFrom(fc, from + 1)
  }

  /** `np.where((fc[:-1] == False) & (fc[1:] == True))[0]`: exactly the
      rising edges of the series, strictly increasing. */
  function Transitions(fc: seq<bool>): (ts: seq<nat>)
    ensures forall m :: 0 <= m < |ts| ==> ts[m] + 1 < |fc| && !fc[ts[m]] && fc[ts[m] + 1]
    ensures forall m, n :: 0 <= m < n < |ts| ==> ts[m] < ts[n]
    ensures forall k :: 0 <= k && k + 1 < |fc| && !fc[k] && fc[k + 1] ==> k in ts
  {
    var ts := TransitionsFrom(fc, 0);
    assert forall k: nat :: k + 1 < |fc| && !fc[k] && fc[k + 1] ==> RisesAt(fc, k);
    ts
  }

  // ---------------------------------------------------------------------
  // Python slicing and per-period bounds
  // ---------------------------------------------------------------------

  /** How Python normalises a slice bound against a length n: a negative
      bound counts from the end, and the result is clamped into [0, n]. */
  function SliceIndex(x: int, n: nat): (r: nat)
    ensures r <= n
    ensures 0 <= x <= n ==> r == x
    ensures x > n ==> r == n
    ensures x < 0 ==> r == if x + n < 0 then 0 else x + n
  {
    if x < 0 then (if x + n < 0 then 0 else x + n) else if x > n then n else x
  }

  /** Python's `a[start:end]` on integer bounds. */
  function Slice<T>(a: seq<T>, start: int, end: int): (r: seq<T>)
    ensures 0 <= start <= end <= |a| ==> r == a[start..end]
    ensures |r| <= |a|
  {
    var lo, hi := SliceIndex(start, |a|), SliceIndex(end, |a|);
    if lo < hi then a[lo..hi] else []
  }

  /** Start index of period k: the transition moved back by `off` samples;
      clamped to 0 in plot_average_footfall.py and plot_pressure_debouncing.py,
      left as it is (and so possibly negative) in plot_gait_ratios.py. */
  function PeriodStart(ts: seq<nat>, off: nat, k: nat, clampStart: bool): (s: int)
    requires k < |ts|
    ensures clampStart ==> s >= 0 && s >= ts[k] - off && (s == 0 || s == ts[k] - off)
    ensures !clampStart ==> s == ts[k] - off
  {
    var s := ts[k] - off;
    if clampStart && s < 0 then 0 else s
  }

  /** The period loop of `compute_average_data`: one slice per transition
      except the last one, from the (possibly clamped) start to the next
      transition, both moved back by `off` samples. */
  method CollectPeriods(data: seq<real>, ts: seq<nat>, off: nat, clampStart: bool)
    returns (periods: seq<seq<real>>)
    ensures |periods| == if |ts| == 0 then 0 else |ts| - 1
    ensures forall k :: 0 <= k < |periods| ==>
              periods[k] == Slice(data, PeriodStart(ts, off, k, clampStart), ts[k + 1] - off)
  {
    periods := [];
    var n := if |ts| == 0 then 0 else |ts| - 1;
    var k := 0;
    while k < n
      invariant 0 <= k <= n
      invariant |periods| == k
      invariant forall j :: 0 <= j < k ==>
                  periods[j] == Slice(data, PeriodStart(ts, off, j, clampStart), ts[j + 1] - off)
    {
      var start := ts[k] - off;
      if clampStart && start < 0 {
        start := 0;
      }
      var end: int;
      if k < |ts| - 1 {
        end := ts[k + 1] - off;
      } else {
        // the loop runs over range(len(transitions) - 1): this branch is dead
        assert false;
        end := |data| - 1 - off;
      }
      periods := periods + [Slice(data, start, end)];
      k := k + 1;
    }
  }

  // ---------------------------------------------------------------------
  // Debouncing a pressure series
  // ---------------------------------------------------------------------

  /** The first index k >= from at which data rises above data[0] by more
      than the threshold; |data| when there is none. */
  function FirstRise(data: seq<real>, threshold: real, from: nat): (k: nat)
    requires from <= |data|
    ensures from <= k <= |data|
    ensures k < |data| ==> data[k] - data[0] > threshold
    ensures forall j :: from <= j < k ==> data[j] - data[0] <= threshold
    decreases |data| - from
  {
    if from == |data| then |data|
    else if data[from] - data[0] > threshold then from
    else FirstRise(data, threshold, from + 1)
  }

  /** The first index k >= from at which data is back within the threshold
      of data[0]; |data| when there is none. */
  function FirstDrop(data: seq<real>, threshold: real, from: nat): (k: nat)
    requires from <= |data|
    ensures from <= k <= |data|
    ensures k < |data| ==> data[k] - data[0] <= threshold
    ensures forall j :: from <= j < k ==> data[j] - data[0] > threshold
    decreases |data| - from
  {
    if from == |data| then |data|
    else if data[from] - data[0] <= threshold then from
    else FirstDrop(data, threshold, from + 1)
  }

  /** The series that is 1 exactly on [s, e) and 0 elsewhere. */
  function Run(n: nat, s: int, e: int): (r: seq<int>)
    ensures |r| == n
    ensures forall k :: 0 <= k < n ==> r[k] == if s <= k < e then 1 else 0
  {
    seq(n, k => if s <= k < e then 1 else 0)
  }

  /** What `debounce_foot_contact` computes: ones from the first sample
      (after sample 0) that exceeds data[0] by more than the threshold, up to
      the first later sample that does not, or up to the last sample (which
      stays 0) when the series never drops back. */
  function Debounced(data: seq<real>, threshold: real): (r: seq<int>)
    ensures |r| == |data|
  {
    if |data| < 2 then Run(|data|, 0, 0)
    else
      var s := FirstRise(data, threshold, 1);
      if s == |data| then Run(|data|, 0, 0)
      else
        var d := FirstDrop(data, threshold, s + 1);
        Run(|data|, s, if d < |data| then d else |data| - 1)
  }

  /** The shape of a debounced series: same length, entries 0 or 1, first
      and last entries 0, every 1 lies on a rise above the threshold, the
      ones are contiguous, they start at the first rise, and they stop only
      at a drop or at the last sample. */
  lemma DebouncedShape(data: seq<real>, threshold: real)
    ensures var r := Debounced(data, threshold);
      && |r| == |data|
      && (forall k :: 0 <= k < |r| ==> r[k] == 0 || r[k] == 1)
      && (|r| > 0 ==> r[0] == 0 && r[|r| - 1] == 0)
      && (forall k :: 0 <= k < |r| && r[k] == 1 ==> data[k] - data[0] > threshold)
      && (forall i, j, k :: 0 <= i <= k <= j < |r| && r[i] == 1 && r[j] == 1 ==> r[k] == 1)
      && (forall k, j :: 1 <= j < k < |r| && r[k] == 1 && r[k - 1] == 0 ==> data[j] - data[0] <= threshold)
      && (forall k :: 0 <= k && k + 2 < |r| && r[k] == 1 && r[k + 1] == 0 ==> data[k + 1] - data[0] <= threshold)
  {
    if |data| >= 2 {
      var s := FirstRise(data, threshold, 1);
      if s < |data| {
        var d := FirstDrop(data, threshold, s + 1);
        var e := if d < |data| then d else |data| - 1;
        var r := Debounced(data, threshold);
        assert r == Run(|data|, s, e);
        forall k, j | 1 <= j < k < |r| && r[k] == 1 && r[k - 1] == 0
          ensures data[j] - data[0] <= threshold
        {
          assert k == s;
        }
      }
    }
  }

  /** A series that never rises above data[0] by more than the threshold
      debounces to all zeros; one whose first rise is before the last sample
      debounces to a non-empty run starting exactly there. */
  lemma DebouncedRunStart(data: seq<real>, threshold: real)
    ensures (forall j :: 1 <= j < |data| ==> data[j] - data[0] <= threshold) ==>
              forall k :: 0 <= k < |data| ==> Debounced(data, threshold)[k] == 0
    ensures forall s :: 1 <= s < |data| - 1 && data[s] - data[0] > threshold &&
                        (forall j :: 1 <= j < s ==> data[j] - data[0] <= threshold) ==>
              Debounced(data, threshold)[s] == 1 && forall j :: 0 <= j < s ==> Debounced(data, threshold)[j] == 0
  {
    if |data| >= 2 && forall j :: 1 <= j < |data| ==> data[j] - data[0] <= threshold {
      NoRiseRunsToEnd(data, threshold, 1);
    }
  }

  /** With no rise from `from` on, the search for one runs to the end. */
  lemma {:induction false} NoRiseRunsToEnd(data: seq<real>, threshold: real, from: nat)
    requires 1 <= from <= |data|
    requires forall j :: from <= j < |data| ==> data[j] - data[0] <= threshold
    ensures FirstRise(data, threshold, from) == |data|
    decreases |data| - from
  {
    if from < |data| {
      NoRiseRunsToEnd(data, threshold, from + 1);
    }
  }

  /** The slice assignment `debounced[lo:hi] = 1` for bounds inside the
      array. */
  method AssignOnes(d: array<int>, lo: nat, hi: nat)
    requires lo <= d.Length && hi <= d.Length
    modifies d
    ensures forall m :: 0 <= m < d.Length ==> d[m] == if lo <= m < hi then 1 else old(d[m])
  {
    var j := lo;
    while j < hi
      invariant lo <= j <= if hi < lo then lo else hi
      invariant forall m :: 0 <= m < d.Length ==> d[m] == if lo <= m < j then 1 else old(d[m])
    {
      d[j] := 1;
      j := j + 1;
    }
  }

  /** The zeros array of `np.zeros_like(data, dtype=int)` with the slice
      `debounced[contact_start:i] = 1` applied when a contact was found. */
  method MarkContact(n: nat, contactStart: int, i: int) returns (debounced: seq<int>)
    requires contactStart != -1 ==> 0 <= contactStart <= i <= n
    ensures contactStart == -1 ==> debounced == Run(n, 0, 0)
    ensures contactStart != -1 ==> debounced == Run(n, contactStart, i)
  {
    var d := new int[n](_ => 0);
    if contactStart != -1 {
      AssignOnes(d, contactStart, i);
    }
    debounced := d[..];
  }

  /** What the flag loop has found when it stops, determines the debounced
      series: no rise at all, or a first rise at contactStart followed by
      rises up to i, where i is a drop or the last sample. */
  lemma DebouncedFromScan(data: seq<real>, threshold: real, contactStart: int, i: int)
    requires contactStart == -1 ==> forall j :: 1 <= j < |data| ==> data[j] - data[0] <= threshold
    requires contactStart != -1 ==>
      && 1 <= contactStart <= i < |data|
      && data[contactStart] - data[0] > threshold
      && (forall j :: 1 <= j < contactStart ==> data[j] - data[0] <= threshold)
      && (forall j :: contactStart < j < i ==> data[j] - data[0] > threshold)
      && (i == |data| - 1 || data[i] - data[0] <= threshold)
    ensures contactStart == -1 ==> Debounced(data, threshold) == Run(|data|, 0, 0)
    ensures contactStart != -1 ==> Debounced(data, threshold) == Run(|data|, contactStart, i)
  {
    if contactStart == -1 {
      assert |data| >= 2 ==> FirstRise(data, threshold, 1) == |data|;
    } else {
      assert FirstRise(data, threshold, 1) == contactStart;
      var d := FirstDrop(data, threshold, contactStart + 1);
      if i < |data| - 1 || data[i] - data[0] <= threshold {
        if contactStart < i {
          assert d == i;
        }
      }
    }
  }

  /** `debounce_foot_contact` in plot_average_footfall.py and
      plot_pressure_debouncing.py: a flag loop that stops at the first drop,
      then a slice assignment of ones. */
  method DebounceFootContact(data: seq<real>, threshold: real) returns (debounced: seq<int>)
    ensures debounced == Debounced(data, threshold)
  {
    var inContact := false;
    var contactStart := -1;
    var i := 0;
    var k := 1;
    while k < |data|
      invariant 1 <= k <= if |data| == 0 then 1 else |data|
      invariant !inContact ==> contactStart == -1 && forall j :: 1 <= j < k ==> data[j] - data[0] <= threshold
      invariant inContact ==> 1 <= contactStart < k && data[contactStart] - data[0] > threshold
      invariant inContact ==> forall j :: 1 <= j < contactStart ==> data[j] - data[0] <= threshold
      invariant inContact ==> forall j :: contactStart < j < k ==> data[j] - data[0] > threshold
      invariant k >= 2 ==> i == k - 1
    {
      i := k;
      if !inContact && data[k] - data[0] > threshold {
        inContact := true;
        contactStart := k;
      } else if inContact && data[k] - data[0] <= threshold {
        break;
      }
      k := k + 1;
    }
    debounced := MarkContact(|data|, contactStart, i);
    DebouncedFromScan(data, threshold, contactStart, i);
  }

  // ---------------------------------------------------------------------
  // The smoothed variant of plot_gait_ratios.py
  // ---------------------------------------------------------------------

  /** One smoothing step: the previous smoothed sample with weight
      1 - alpha and the raw sample with weight alpha. */
  function Mix(prev: real, x: real, alpha: real): real {
    prev * (1.0 - alpha) + x * alpha
  }

  /** The exponential smoothing that plot_gait_ratios.py applies to its
      copy of the data: the first sample is kept, and each later one mixes
      the previous smoothed sample (weight 1 - alpha) with the raw sample
      (weight alpha). */
  function Smoothed(data: seq<real>, alpha: real): (s: seq<real>)
    ensures |s| == |data|
    ensures |data| > 0 ==> s[0] == data[0]
    decreases |data|
  {
    if |data| <= 1 then data
    else
      var p := Smoothed(data[..|data| - 1], alpha);
      p + [Mix(p[|data| - 2], data[|data| - 1], alpha)]
  }

  /** Every smoothed sample after the first follows the recurrence
      s[k] = s[k - 1] * (1 - alpha) + data[k] * alpha. */
  lemma {:induction false} SmoothedRecurrence(data: seq<real>, alpha: real, k: nat)
    requires 1 <= k < |data|
    ensures Smoothed(data, alpha)[k] == Mix(Smoothed(data, alpha)[k - 1], data[k], alpha)
    decreases |data|
  {
    var n := |data|;
    var p := Smoothed(data[..n - 1], alpha);
    var s := Smoothed(data, alpha);
    assert s[n - 1] == Mix(p[n - 2], data[n - 1], alpha);
    assert s[..n - 1] == p;
    assert s[k - 1] == p[k - 1];
    if k < n - 1 {
      SmoothedRecurrence(data[..n - 1], alpha, k);
      assert data[..n - 1][k] == data[k];
    }
  }

  /** With the default alpha = 1 the smoothing is the identity. */
  lemma SmoothedUnitAlpha(data: seq<real>)
    ensures Smoothed(data, 1.0) == data
  {
    var s := Smoothed(data, 1.0);
    forall k | 0 <= k < |data| ensures s[k] == data[k] {
      if k > 0 {
        SmoothedRecurrence(data, 1.0, k);
      }
    }
  }

  /** `debounce_foot_contact(data, threshold, alpha)` of plot_gait_ratios.py:
      the smoothing is computed in place on a copy of the data, one sample per
      iteration of the flag loop; the input itself is a value and cannot be
      changed. */
  method DebounceFootContactSmoothed(data: seq<real>, threshold: real, alpha: real)
    returns (debounced: seq<int>)
    ensures debounced == Debounced(Smoothed(data, alpha), threshold)
  {
    ghost var sm := Smoothed(data, alpha);
    var dataCopy := new real[|data|](m requires 0 <= m < |data| => data[m]);
    var inContact := false;
    var contactStart := -1;
    var i := 0;
    var k := 1;
    while k < |data|
      invariant 1 <= k <= if |data| == 0 then 1 else |data|
      invariant forall m :: 0 <= m < k && m < |data| ==> dataCopy[m] == sm[m]
      invariant forall m :: k <= m < |data| ==> dataCopy[m] == data[m]
      invariant !inContact ==> contactStart == -1 && forall j :: 1 <= j < k ==> sm[j] - sm[0] <= threshold
      invariant inContact ==> 1 <= contactStart < k && sm[contactStart] - sm[0] > threshold
      invariant inContact ==> forall j :: 1 <= j < contactStart ==> sm[j] - sm[0] <= threshold
      invariant inContact ==> forall j :: contactStart < j < k ==> sm[j] - sm[0] > threshold
      invariant k >= 2 ==> i == k - 1
      modifies dataCopy
    {
      i := k;
      SmoothedRecurrence(data, alpha, k);
      dataCopy[k] := Mix(dataCopy[k - 1], data[k], alpha);
      assert dataCopy[k] == sm[k];
      if !inContact && dataCopy[k] - dataCopy[0] > threshold {
        inContact := true;
        contactStart := k;
      } else if inContact && dataCopy[k] - dataCopy[0] <= threshold {
        break;
      }
      k := k + 1;
    }
    debounced := MarkContact(|data|, contactStart, i);
    DebouncedFromScan(sm, threshold, contactStart, i);
  }

  /** With alpha = 1 the smoothed debounce and the plain one agree. */
  lemma SmoothedDebounceUnitAlpha(data: seq<real>, threshold: real)
    ensures Debounced(Smoothed(data, 1.0), threshold) == Debounced(data, threshold)
  {
    SmoothedUnitAlpha(data);
  }

  // ---------------------------------------------------------------------
  // Padding and flattening
  // ---------------------------------------------------------------------

  /** The largest length among the rows. */
  function MaxLength<T>(rows: seq<seq<T>>): (m: nat)
    requires |rows| > 0
    ensures forall i :: 0 <= i < |rows| ==> |rows[i]| <= m
    ensures exists i :: 0 <= i < |rows| && |rows[i]| == m
  {
    if |rows| == 1 then |rows[0]|
    else
      var m := MaxLength(rows[1..]);
      assert forall i :: 1 <= i < |rows| ==> rows[i] == rows[1..][i - 1];
      if |rows[0]| >= m then |rows[0]| else m
  }

  /** `pad_to_max_length`: every row is extended to the longest row's length
      with the pad value. `max()` of no rows raises ValueError: None. */
  function PadToMaxLength(rows: seq<seq<real>>, padValue: real): (r: Option<seq<seq<real>>>)
    ensures r.None? <==> |rows| == 0
    ensures r.Some? ==> |r.value| == |rows|
    ensures r.Some? ==> forall i :: 0 <= i < |rows| ==>
              && |r.value[i]| == MaxLength(rows)
              && r.value[i][..|rows[i]|] == rows[i]
              && forall j :: |rows[i]| <= j < MaxLength(rows) ==> r.value[i][j] == padValue
  {
    if |rows| == 0 then None
    else
      var m := MaxLength(rows);
      Some(seq(|rows|, i requires 0 <= i < |rows| => rows[i] + seq(m - |rows[i]|, _ => padValue)))
  }

  /** The zero padding placed before the periods (plot_pressure_debouncing.py):
      as long as the first period's start when that is positive, else empty.
      `transitions[0]` of no transitions raises IndexError: None. */
  function StartPadding(ts: seq<nat>, off: nat): (r: Option<seq<int>>)
    ensures r.None? <==> |ts| == 0
    ensures r.Some? ==> |r.value| == (if ts[0] - off > 0 then ts[0] - off else 0)
    ensures r.Some? ==> forall j :: 0 <= j < |r.value| ==> r.value[j] == 0
  {
    if |ts| == 0 then None
    else if ts[0] - off > 0 then Some(seq(ts[0] - off, _ => 0))
    else Some([])
  }

  /** The zero padding placed after the periods: it covers the samples from
      the last transition (moved back by `off`) to the end of the data, and is
      empty when that point is not before the end. */
  function EndPadding(ts: seq<nat>, off: nat, n: nat): (r: Option<seq<int>>)
    ensures r.None? <==> |ts| == 0
    ensures r.Some? ==> var last := ts[|ts| - 1] - off;
              |r.value| == (if last < n then n - last else 0)
    ensures r.Some? ==> forall j :: 0 <= j < |r.value| ==> r.value[j] == 0
  {
    if |ts| == 0 then None
    else if ts[|ts| - 1] - off < n then Some(seq(n - (ts[|ts| - 1] - off), _ => 0))
    else Some([])
  }

  /** The concatenation of a list of series, in order. */
  function Concat(ps: seq<seq<int>>): (r: seq<int>)
  {
    if ps == [] then [] else Concat(ps[..|ps| - 1]) + ps[|ps| - 1]
  }

  /** The `extend` loops of plot_pressure_debouncing.py: start padding, then
      every debounced period in order, then end padding. */
  method Flatten(start: seq<int>, periods: seq<seq<int>>, end: seq<int>) returns (flat: seq<int>)
    ensures flat == start + Concat(periods) + end
  {
    flat := start;
    var k := 0;
    while k < |periods|
      invariant 0 <= k <= |periods|
      invariant flat == start + Concat(periods[..k])
    {
      assert periods[..k + 1][..k] == periods[..k];
      flat := flat + periods[k];
      k := k + 1;
    }
    assert periods[..k] == periods;
    flat := flat + end;
  }

  /** The samples of period k: from the k-th transition moved back by the
      offset (clamped to 0) up to the next transition moved back by it. */
  function PeriodSlice(data: seq<real>, ts: seq<nat>, off: nat, k: nat): (r: seq<real>)
    requires k + 1 < |ts|
    ensures 0 <= PeriodStart(ts, off, k, true) <= ts[k + 1] - off <= |data| ==>
              r == data[PeriodStart(ts, off, k, true)..ts[k + 1] - off]
  {
    Slice(data, PeriodStart(ts, off, k, true), ts[k + 1] - off)
  }

  /** A period depends only on its own two transitions. */
  lemma PeriodSliceOfPrefix(data: seq<real>, ts: seq<nat>, off: nat, k: nat, m: nat)
    requires k + 1 < m <= |ts|
    ensures PeriodSlice(data, ts[..m], off, k) == PeriodSlice(data, ts, off, k)
  {
    assert ts[..m][k] == ts[k] && ts[..m][k + 1] == ts[k + 1];
  }

  /** The debounced periods of a pressure series, as plot_pressure_debouncing.py
      builds them: one period appended per pair of consecutive transitions,
      each then debounced. */
  function DebouncedPeriods(data: seq<real>, ts: seq<nat>, off: nat, threshold: real): (ps: seq<seq<int>>)
    ensures |ps| == if |ts| == 0 then 0 else |ts| - 1
    decreases |ts|
  {
    if |ts| < 2 then []
    else DebouncedPeriods(data, ts[..|ts| - 1], off, threshold) + [Debounced(PeriodSlice(data, ts, off, |ts| - 2), threshold)]
  }

  /** Period k is the debounced slice of the k-th period. */
  lemma {:induction false} DebouncedPeriodAt(data: seq<real>, ts: seq<nat>, off: nat, threshold: real, k: nat)
    requires k + 1 < |ts|
    ensures DebouncedPeriods(data, ts, off, threshold)[k] == Debounced(PeriodSlice(data, ts, off, k), threshold)
    decreases |ts|
  {
    if k + 2 < |ts| {
      var prefix := ts[..|ts| - 1];
      DebouncedPeriodAt(data, prefix, off, threshold, k);
      PeriodSliceOfPrefix(data, ts, off, k, |ts| - 1);
    }
  }

  /** Consecutive periods whose lengths are the gaps of an increasing index
      list concatenate to the span from its first to its last index. */
  lemma {:induction false} ConcatTelescopes(ps: seq<seq<int>>, ts: seq<int>)
    requires |ts| == |ps| + 1
    requires forall k :: 0 <= k < |ps| ==> |ps[k]| == ts[k + 1] - ts[k]
    ensures |Concat(ps)| == ts[|ps|] - ts[0]
    decreases |ps|
  {
    if ps != [] {
      ConcatTelescopes(ps[..|ps| - 1], ts[..|ts| - 1]);
    }
  }

  /** One debounced period runs from its start, clamped to 0, to the next
      transition moved back by the offset: as long as the gap between its
      two transitions when the first is at least the offset, and as long as
      the second transition minus the offset when the start was clamped. */
  lemma DebouncedPeriodLength(data: seq<real>, ts: seq<nat>, off: nat, threshold: real, k: nat)
    requires k + 1 < |ts|
    requires ts[k] <= ts[k + 1] && off <= ts[k + 1] < |data|
    ensures |DebouncedPeriods(data, ts, off, threshold)[k]| == ts[k + 1] - (if off <= ts[k] then ts[k] else off)
  {
    DebouncedPeriodAt(data, ts, off, threshold, k);
    var start := PeriodStart(ts, off, k, true);
    assert start == if off <= ts[k] then ts[k] - off else 0;
    assert |PeriodSlice(data, ts, off, k)| == ts[k + 1] - off - start;
  }

  /** Start padding, debounced periods and end padding together are exactly
      as long as the data, for any increasing transition list that lies in
      the data and whose second entry is at least the offset (the first
      period's start is clamped to 0 when the first entry is not). */
  lemma {:induction false} FlattenedLengthFromBounds(data: seq<real>, ts: seq<nat>, off: nat, threshold: real)
    requires |ts| >= 2
    requires forall m, n :: 0 <= m < n < |ts| ==> ts[m] < ts[n]
    requires off <= ts[1] && ts[|ts| - 1] < |data|
    ensures |StartPadding(ts, off).value + Concat(DebouncedPeriods(data, ts, off, threshold)) + EndPadding(ts, off, |data|).value|
              == |data|
  {
    var n := |ts|;
    var ps := DebouncedPeriods(data, ts, off, threshold);
    var first := if off <= ts[0] then ts[0] else off;
    var bounds := ts[0 := first];
    forall k | 0 <= k < |ps| ensures |ps[k]| == bounds[k + 1] - bounds[k] {
      assert ts[0] <= ts[k] < ts[k + 1] <= ts[n - 1];
      assert 1 <= k ==> ts[1] <= ts[k];
      DebouncedPeriodLength(data, ts, off, threshold, k);
    }
    ConcatTelescopes(ps, bounds);
    assert |Concat(ps)| == ts[n - 1] - first;
  }

  /** The length check reported by plot_pressure_debouncing.py holds: with at
      least two transitions and an offset no larger than the second one,
      start padding + debounced periods + end padding is exactly as long as
      the data. */
  lemma FlattenedLengthMatchesData(fc: seq<bool>, data: seq<real>, threshold: real, off: nat)
    requires |fc| == |data|
    requires |Transitions(fc)| >= 2
    requires off <= Transitions(fc)[1]
    ensures var ts := Transitions(fc);
      |StartPadding(ts, off).value + Concat(DebouncedPeriods(data, ts, off, threshold)) + EndPadding(ts, off, |data|).value|
        == |data|
  {
    var ts := Transitions(fc);
    assert ts[|ts| - 1] + 1 < |fc|;
    FlattenedLengthFromBounds(data, ts, off, threshold);
  }
}
