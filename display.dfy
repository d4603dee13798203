/**
 * What the two dashboard scripts share: the outcomes of their polling requests, and two bounded
 * buffers, the recent-readings table, which shows the ten newest readings newest first, and the
 * chart window, which shows the last sixty points.
 */
module Display {
  import opened Wrappers
  import opened Seqs
  import opened Readings

  /** What `fetch` of `/latest` and `response.json()` come to. */
  datatype LatestOutcome =
    | NotOk
    | Delivered(reading: Reading)
    /** The request or the JSON parse threw. */
    | Threw

  /** What `fetch` of `/history?limit=100` comes to: the rows of an ok reply, or an exception. */
  datatype HistoryOutcome = HistoryRows(rows: seq<Reading>) | HistoryFailed

  const RecentCapacity: nat := 10
  const WindowSize: nat := 60

  /** `buffer.unshift(r)`, then `buffer.slice(0, 10)` when the buffer has grown past ten entries. */
  function PushRecent<T>(buffer: seq<T>, r: T): (b: seq<T>)
    ensures |b| == Min(RecentCapacity, |buffer| + 1)
    ensures b[0] == r
    ensures b[1..] == buffer[..Min(RecentCapacity - 1, |buffer|)]
  {
    var pushed := [r] + buffer;
    if |pushed| > RecentCapacity then pushed[..RecentCapacity] else pushed
  }

  /** The buffer after pushing `xs` one by one, first element first. */
  function PushAll<T>(buffer: seq<T>, xs: seq<T>): seq<T>
    decreases xs
  {
    if xs == [] then buffer else PushAll(PushRecent(buffer, xs[0]), xs[1..])
  }

  /**
   * Whatever was pushed, a buffer that starts with at most ten entries holds the ten newest
   * entries, newest first: the pushed readings in reverse, followed by the original buffer.
   */
  lemma {:induction false} PushAllNewest<T>(buffer: seq<T>, xs: seq<T>)
    requires |buffer| <= RecentCapacity
    ensures var all := Reverse(xs) + buffer;
            PushAll(buffer, xs) == all[..Min(RecentCapacity, |all|)]
    decreases xs
  {
    if xs != [] {
      var b1 := PushRecent(buffer, xs[0]);
      PushAllNewest(b1, xs[1..]);
      var all := Reverse(xs) + buffer;
      var all1 := Reverse(xs[1..]) + b1;
      var n := Min(RecentCapacity, |all|);
      assert Min(RecentCapacity, |all1|) == n;
      forall k | 0 <= k < n ensures all1[k] == all[k] {
        PushedEntry(buffer, xs, k);
      }
      assert all1[..n] == all[..n];
    }
  }

  /** Within the ten newest, pushing the first reading and then the rest lines up with pushing all. */
  lemma PushedEntry<T>(buffer: seq<T>, xs: seq<T>, k: nat)
    requires |buffer| <= RecentCapacity && xs != []
    requires k < Min(RecentCapacity, |xs| + |buffer|)
    ensures var b1 := PushRecent(buffer, xs[0]);
            k < |Reverse(xs[1..]) + b1| && (Reverse(xs[1..]) + b1)[k] == (Reverse(xs) + buffer)[k]
  {
    var b1 := PushRecent(buffer, xs[0]);
    var all1 := Reverse(xs[1..]) + b1;
    if k < |xs| - 1 {
      assert all1[k] == xs[1..][|xs| - 2 - k];
    } else {
      var m := k - (|xs| - 1);
      assert all1[k] == b1[m];
      if m > 0 {
        assert b1[m] == buffer[m - 1];
      }
    }
  }

  /** `points.slice(-60)`: a negative start counts from the end and is clamped to zero. */
  function ChartWindow<T>(points: seq<T>): (w: seq<T>)
    ensures |w| == Min(WindowSize, |points|)
    ensures w == points[|points| - |w|..]
  {
    var start := |points| - WindowSize;
    if start < 0 then points else points[start..]
  }

  /** Windowing twice changes nothing. */
  lemma WindowIdempotent<T>(points: seq<T>)
    ensures ChartWindow(ChartWindow(points)) == ChartWindow(points)
  {
  }

  /** New points slide the window: only the last sixty points of the old window can still matter. */
  lemma WindowSlides<T>(earlier: seq<T>, added: seq<T>)
    ensures ChartWindow(ChartWindow(earlier) + added) == ChartWindow(earlier + added)
  {
    var w := ChartWindow(earlier);
    var a := w + added;
    var b := earlier + added;
    var n := Min(WindowSize, |b|);
    assert Min(WindowSize, |a|) == n;
    forall k | 0 <= k < n
      ensures ChartWindow(a)[k] == ChartWindow(b)[k]
    {
      var i := |a| - n + k;
      if i >= |w| {
        assert a[i] == added[i - |w|];
      } else {
        assert a[i] == w[i];
      }
    }
  }
}
