/** How the bubble turns frame timestamps (milliseconds) into its
    accumulated animation time (seconds). A stored previous timestamp of 0
    means "no previous frame". */
module FrameClock {

  /** Accumulated time and the timestamp of the previous frame. */
  datatype Clock = Clock(time: real, lastFrameTime: real)

  /** Seconds a frame at timestamp t adds: nothing after the "no previous
      frame" sentinel, otherwise the gap since the previous frame. */
  function FrameDelta(last: real, t: real): (d: real)
    ensures last == 0.0 ==> d == 0.0
    ensures last != 0.0 ==> last + 1000.0 * d == t
    ensures last <= t ==> d >= 0.0
  {
    var prev := if last == 0.0 then t else last;
    (t - prev) / 1000.0
  }

  /** A tick moves no backwards when its timestamp is not earlier than the
      previous one, or when there is no previous one. */
  predicate InOrder(last: real, t: real) {
    last == 0.0 || last <= t
  }

  /** The clock part of one animation tick. */
  function Tick(c: Clock, t: real): (c': Clock)
    ensures c'.lastFrameTime == t
    ensures InOrder(c.lastFrameTime, t) ==> c'.time >= c.time
    ensures c.lastFrameTime == 0.0 ==> c'.time == c.time
  {
    Clock(c.time + FrameDelta(c.lastFrameTime, t), t)
  }

  /** The clock after ticks at each of the timestamps ts, in order. */
  function Run(c: Clock, ts: seq<real>): (r: Clock)
    ensures ts == [] ==> r == c
    ensures ts != [] ==> r.lastFrameTime == ts[|ts| - 1]
    decreases |ts|
  {
    if ts == [] then c else Run(Tick(c, ts[0]), ts[1..])
  }

  predicate Sorted(ts: seq<real>) {
    forall i, j :: 0 <= i <= j < |ts| ==> ts[i] <= ts[j]
  }

  /** Timestamps that never go backwards never make the time go backwards. */
  lemma {:induction false} RunMonotone(c: Clock, ts: seq<real>)
    requires Sorted(ts)
    requires ts != [] ==> InOrder(c.lastFrameTime, ts[0])
    ensures Run(c, ts).time >= c.time
    ensures ts != [] ==> Run(c, ts).lastFrameTime == ts[|ts| - 1]
    decreases |ts|
  {
    if ts != [] {
      RunMonotone(Tick(c, ts[0]), ts[1..]);
    }
  }

  /** Once a previous frame exists, the accumulated time grows by exactly
      the span of the timestamps, whatever the frame cadence. */
  lemma {:induction false} RunTelescopes(c: Clock, ts: seq<real>)
    requires Sorted(ts) && ts != []
    requires 0.0 < c.lastFrameTime <= ts[0]
    ensures Run(c, ts) == Clock(c.time + (ts[|ts| - 1] - c.lastFrameTime) / 1000.0, ts[|ts| - 1])
    decreases |ts|
  {
    var c1 := Tick(c, ts[0]);
    if |ts| > 1 {
      RunTelescopes(c1, ts[1..]);
    }
  }

  /** With no previous frame, ticks at positive, non-decreasing timestamps
      measure time from the first of them: that first frame only records its
      timestamp. */
  lemma RunFromSentinel(c: Clock, ts: seq<real>)
    requires c.lastFrameTime == 0.0
    requires Sorted(ts) && ts != [] && ts[0] > 0.0
    ensures Run(c, ts) == Clock(c.time + (ts[|ts| - 1] - ts[0]) / 1000.0, ts[|ts| - 1])
  {
    var c1 := Tick(c, ts[0]);
    assert c1 == Clock(c.time, ts[0]);
    if |ts| > 1 {
      RunTelescopes(c1, ts[1..]);
    }
  }

  /** The render loop's synthetic first call at timestamp 0 leaves the
      sentinel in place, so the first real frame after it is a first frame
      too: time is measured from the first positive timestamp (frames at 0,
      16, 33 and 50 ms accumulate 0.034 s). */
  lemma RunAfterZeroCall(c: Clock, ts: seq<real>)
    requires c.lastFrameTime == 0.0
    requires |ts| >= 2 && ts[0] == 0.0 && ts[1] > 0.0 && Sorted(ts[1..])
    ensures Run(c, ts) == Clock(c.time + (ts[|ts| - 1] - ts[1]) / 1000.0, ts[|ts| - 1])
  {
    var rest := ts[1..];
    assert Tick(c, ts[0]) == c;
    RunFromSentinel(c, rest);
  }
}
