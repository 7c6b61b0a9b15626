/**
 * Fixed-width time windows counted back from `start`: `getBin` and `makeBins` of the
 * podcast statistics panel. Window `k` (k = 0, 1, ...) holds the times in
 * `[start - (k+1)*interval, start - k*interval)`, and window 0 also every later time.
 * Both functions name a window by `start - k*interval`, its later boundary (its end);
 * a time "reaches" window `k` when it is at or after `start - (k+1)*interval`, the
 * end of window `k+1`.
 */
module Binning {
  import opened Wrappers

  /** End of window `k`: the value `getBin` and `makeBins` use for it. */
  function WindowEnd(start: int, interval: int, k: nat): int {
    start - k * interval
  }

  /** `time` is not earlier than the end of the window before window `k` (window `k+1`). */
  predicate Reaches(time: int, interval: int, start: int, k: nat) {
    time >= start - (k + 1) * interval
  }

  /** Window `k` is the first (most recent) window that `time` reaches. */
  predicate IsBinOf(time: int, interval: int, start: int, k: nat) {
    Reaches(time, interval, start, k) && forall j: nat :: j < k ==> !Reaches(time, interval, start, j)
  }

  /**
   * `getBin`: walking back from `start` one `interval` at a time, at most `bins` times,
   * the first window end `s` with `time >= s - interval`; `None` (JavaScript `null`)
   * when there is none.
   */
  function GetBin(time: int, interval: int, bins: nat, start: int): (r: Option<int>)
    ensures bins == 0 ==> r == None
    ensures r.Some? ==> exists k: nat :: k < bins && IsBinOf(time, interval, start, k) &&
                                         r.value == WindowEnd(start, interval, k)
    ensures r.None? ==> forall k: nat :: k < bins ==> !Reaches(time, interval, start, k)
    decreases bins
  {
    if bins == 0 then None
    else if time >= start - interval then
      assert WindowEnd(start, interval, 0) == start && IsBinOf(time, interval, start, 0);
      Some(start)
    else
      var r := GetBin(time, interval, bins - 1, start - interval);
      WalkBackStep(time, interval, bins, start, start - interval, r);
      r
  }

  /**
   * One step of the backward walk: what holds of the answer found from the previous
   * window end `start - interval` with one window fewer holds of it from `start`,
   * when `time` does not reach window 0.
   */
  lemma WalkBackStep(time: int, interval: int, bins: nat, start: int, prev: int, r: Option<int>)
    requires bins > 0 && time < start - interval && prev == start - interval
    requires r.Some? ==> exists k: nat :: k < bins - 1 && IsBinOf(time, interval, prev, k) &&
                                          r.value == WindowEnd(prev, interval, k)
    requires r.None? ==> forall k: nat :: k < bins - 1 ==> !Reaches(time, interval, prev, k)
    ensures r.Some? ==> exists k: nat :: k < bins && IsBinOf(time, interval, start, k) &&
                                         r.value == WindowEnd(start, interval, k)
    ensures r.None? ==> forall k: nat :: k < bins ==> !Reaches(time, interval, start, k)
  {
    assert !Reaches(time, interval, start, 0);
    if r.Some? {
      var k: nat :| k < bins - 1 && IsBinOf(time, interval, prev, k) &&
                    r.value == WindowEnd(prev, interval, k);
      Shift(time, interval, start, k);
      forall j: nat | j < k + 1 ensures !Reaches(time, interval, start, j) {
        if j > 0 {
          Shift(time, interval, start, j - 1);
        }
      }
      assert IsBinOf(time, interval, start, k + 1);
    } else {
      forall j: nat | j < bins ensures !Reaches(time, interval, start, j) {
        if j > 0 {
          Shift(time, interval, start, j - 1);
        }
      }
    }
  }

  /** Window `k` counted from `start - interval` is window `k + 1` counted from `start`. */
  lemma Shift(time: int, interval: int, start: int, k: nat)
    ensures WindowEnd(start - interval, interval, k) == WindowEnd(start, interval, k + 1)
    ensures Reaches(time, interval, start - interval, k) <==> Reaches(time, interval, start, k + 1)
  {
    assert (k + 1) * interval == k * interval + interval;
    assert (k + 2) * interval == (k + 1) * interval + interval;
  }

  /** With a positive interval, reaching an earlier window implies reaching every later one. */
  lemma ReachesMonotone(time: int, interval: int, start: int, j: nat, k: nat)
    requires interval > 0 && j <= k
    requires Reaches(time, interval, start, j)
    ensures Reaches(time, interval, start, k)
  {
    MulMonotone(j + 1, k + 1, interval);
  }

  lemma {:induction false} MulMonotone(a: nat, b: nat, c: int)
    requires a <= b && c > 0
    ensures a * c <= b * c
  {
    if a < b {
      MulMonotone(a, b - 1, c);
      assert b * c == (b - 1) * c + c;
    }
  }

  /** With at least one window, any time at or after `start - interval`, future times included, lands in the newest window, named `start`. */
  lemma GetBinFirstWindow(time: int, interval: int, bins: nat, start: int)
    requires bins > 0 && time >= start - interval
    ensures GetBin(time, interval, bins, start) == Some(start)
  {
  }

  /**
   * With a positive interval, no window is found exactly when there are no windows
   * or `time` lies before `start - bins*interval`, the lower boundary of the oldest
   * window.
   */
  lemma GetBinOutOfRange(time: int, interval: int, bins: nat, start: int)
    requires interval > 0
    ensures GetBin(time, interval, bins, start).None? <==> (bins == 0 || time < start - bins * interval)
  {
    var r := GetBin(time, interval, bins, start);
    if bins > 0 {
      if r.None? {
        assert !Reaches(time, interval, start, bins - 1);
      } else if time < start - bins * interval {
        var k: nat :| k < bins && IsBinOf(time, interval, start, k) && r.value == WindowEnd(start, interval, k);
        ReachesMonotone(time, interval, start, k, bins - 1);
        assert false;
      }
    }
  }

  /** Two windows that are both "the first window `time` reaches" are the same window. */
  lemma IsBinOfUnique(time: int, interval: int, start: int, j: nat, k: nat)
    requires IsBinOf(time, interval, start, j) && IsBinOf(time, interval, start, k)
    ensures j == k
  {
  }

  /**
   * Direct computation of the window index, with `d = start - time`: window 0 when
   * `d <= interval`, otherwise `(d - 1) / interval`. It is the reference definition
   * that `GetBin`'s backward walk is proved equal to.
   */
  function DirectBin(time: int, interval: int, bins: nat, start: int): Option<int>
    requires interval > 0
  {
    var d := start - time;
    var k := if d <= interval then 0 else (d - 1) / interval;
    if k < bins then Some(WindowEnd(start, interval, k)) else None
  }

  lemma GetBinIsDirect(time: int, interval: int, bins: nat, start: int)
    requires interval > 0
    ensures GetBin(time, interval, bins, start) == DirectBin(time, interval, bins, start)
  {
    var d := start - time;
    var k: nat := if d <= interval then 0 else (d - 1) / interval;
    // `time` reaches window k and none before it.
    if d > interval {
      var q, rem := (d - 1) / interval, (d - 1) % interval;
      assert d - 1 == q * interval + rem && 0 <= rem < interval;
      assert (q + 1) * interval == q * interval + interval;
      assert Reaches(time, interval, start, k);
      assert !Reaches(time, interval, start, k - 1);
      forall j: nat | j < k ensures !Reaches(time, interval, start, j) {
        if Reaches(time, interval, start, j) {
          ReachesMonotone(time, interval, start, j, k - 1);
        }
      }
    }
    assert IsBinOf(time, interval, start, k);
    var r := GetBin(time, interval, bins, start);
    if r.Some? {
      var k': nat :| k' < bins && IsBinOf(time, interval, start, k') && r.value == WindowEnd(start, interval, k');
      IsBinOfUnique(time, interval, start, k, k');
    }
  }

  /** The window ends, newest first: element `i` is `start - i*interval`. */
  function WindowEnds(interval: int, bins: nat, start: int): (r: seq<int>)
    ensures |r| == bins
    ensures forall i :: 0 <= i < bins ==> r[i] == WindowEnd(start, interval, i)
  {
    if bins == 0 then []
    else
      var rest := WindowEnds(interval, bins - 1, start - interval);
      assert forall i :: 0 < i < bins ==> rest[i - 1] == WindowEnd(start, interval, i) by {
        forall i | 0 < i < bins ensures rest[i - 1] == WindowEnd(start, interval, i) {
          Shift(start, interval, start, i - 1);
        }
      }
      [start] + rest
  }

  /** `makeBins`: a counted loop that pushes `cur` and then steps it back by `interval`. */
  method MakeBins(interval: int, bins: nat, start: int) returns (output: seq<int>)
    ensures output == WindowEnds(interval, bins, start)
  {
    output := [];
    var cur := start;
    for i := 0 to bins
      invariant |output| == i
      invariant forall j :: 0 <= j < i ==> output[j] == WindowEnd(start, interval, j)
      invariant cur == WindowEnd(start, interval, i)
    {
      output := output + [cur];
      cur := cur - interval;
    }
  }

  /** With a positive interval the window ends are strictly decreasing. */
  lemma WindowEndsDecreasing(interval: int, bins: nat, start: int, i: nat, j: nat)
    requires interval > 0 && i < j < bins
    ensures WindowEnds(interval, bins, start)[i] > WindowEnds(interval, bins, start)[j]
  {
    MulMonotone(i + 1, j, interval);
  }

  /** Every window `GetBin` finds is one of the ends `makeBins` lists, the one at the found index. */
  lemma GetBinInWindowEnds(time: int, interval: int, bins: nat, start: int)
    requires GetBin(time, interval, bins, start).Some?
    ensures exists k :: 0 <= k < bins && IsBinOf(time, interval, start, k) &&
                        GetBin(time, interval, bins, start).value == WindowEnds(interval, bins, start)[k]
  {
    var k: nat :| k < bins && IsBinOf(time, interval, start, k) &&
                  GetBin(time, interval, bins, start).value == WindowEnd(start, interval, k);
    assert WindowEnds(interval, bins, start)[k] == WindowEnd(start, interval, k);
  }
}
