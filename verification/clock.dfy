/** The frame clock both scene files read in `animate`. */
module Clocks {
  import opened Base

  /** The state of a `THREE.Clock` (auto-start): whether it runs, and the time of the last reading in ms. */
  datatype Clock = Clock(running: bool, oldTime: real)

  /** `clock.getDelta()` at time `now` (ms): the new clock and the seconds since the last reading. */
  function GetDelta(c: Clock, now: real): (r: (Clock, real))
    ensures r.0 == Clock(true, now)
    ensures !c.running ==> r.1 == 0.0
    ensures c.running ==> r.1 * 1000.0 == now - c.oldTime
  {
    if c.running then (Clock(true, now), (now - c.oldTime) / 1000.0) else (Clock(true, now), 0.0)
  }

  /** The frame delta of `animate`: ten times the clock's delta, or 0.1 when there is no clock. */
  function FrameDelta(clock: Option<Clock>, now: real): real {
    if clock.Some? then GetDelta(clock.value, now).1 * 10.0 else 0.1
  }

  /**
   * Frame deltas are in hundredths of a second: once the clock runs, the
   * delta of a frame times 100 is the milliseconds since the previous
   * reading, so consecutive frames add up to the time that passed.
   */
  lemma FrameDeltaMeasuresTime(c: Clock, t1: real, t2: real)
    requires c.running
    ensures FrameDelta(Some(c), t1) * 100.0 == t1 - c.oldTime
    ensures (FrameDelta(Some(c), t1) + FrameDelta(Some(GetDelta(c, t1).0), t2)) * 100.0 == t2 - c.oldTime
  {
  }

  /** Without a clock every frame advances by 0.1; the very first reading of a fresh clock gives 0. */
  lemma FrameDeltaWithoutRunningClock(now: real)
    ensures FrameDelta(None, now) == 0.1
    ensures FrameDelta(Some(Clock(false, 0.0)), now) == 0.0
  {
  }
}
