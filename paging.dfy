/** The proximity "tap" that pages through the channels: a reading above the
    threshold, more than the debounce delay after the last accepted tap,
    advances the mode by one modulo the channel count and restarts the delay.
    The clock is an input: `now` is the time the loop step reads. */
module Paging {
  import opened Channels

  /** Proximity reading above which a tap is recognised. */
  const Threshold: int := 1500

  /** Debounce interval in seconds. */
  const Delay: real := 0.5

  /** The globals `mode` and `last_page`. */
  datatype Pager = Pager(mode: nat, lastPage: real)

  /** `mode = 0`, `last_page = 0` at start-up. */
  const Start: Pager := Pager(0, 0.0)

  /** The condition of the paging `if`. */
  predicate Tap(p: Pager, now: real, proximity: int)
  {
    proximity > Threshold && now - p.lastPage > Delay
  }

  /** One evaluation of the paging `if` at time `now`. */
  function Advance(p: Pager, now: real, proximity: int): (q: Pager)
    ensures p.mode < ChannelCount ==> q.mode < ChannelCount
    ensures q.lastPage == p.lastPage || q.lastPage == now
  {
    if Tap(p, now, proximity) then Pager((p.mode + 1) % ChannelCount, now) else p
  }

  /** With the mode in range, the mode changes exactly when a tap is accepted;
      an accepted tap moves to the next channel and stamps `now`, and anything
      else leaves both fields as they were. */
  lemma AdvanceChanges(p: Pager, now: real, proximity: int)
    requires p.mode < ChannelCount
    ensures Advance(p, now, proximity).mode != p.mode <==> Tap(p, now, proximity)
    ensures Tap(p, now, proximity) ==>
      Advance(p, now, proximity) == Pager((p.mode + 1) % ChannelCount, now)
    ensures !Tap(p, now, proximity) ==> Advance(p, now, proximity) == p
  {
  }

  /** The channel displayed after an accepted tap is the next one in the
      cycle temperature, pressure, humidity, light, oxidised, reduced, nh3. */
  lemma AdvanceNextChannel(p: Pager, now: real, proximity: int)
    requires p.mode < ChannelCount && Tap(p, now, proximity)
    ensures Index(ChannelOf(Advance(p, now, proximity).mode)) == (Index(ChannelOf(p.mode)) + 1) % ChannelCount
  {
  }

  /** Debounce: once a tap has been accepted at `t1`, a second reading no
      more than `Delay` later is ignored whatever its proximity. */
  lemma Debounce(p: Pager, t1: real, x1: int, t2: real, x2: int)
    requires Tap(p, t1, x1) && t2 - t1 <= Delay
    ensures Advance(Advance(p, t1, x1), t2, x2) == Advance(p, t1, x1)
  {
  }

  /** One loop step's inputs: the time read and the proximity read. */
  datatype Event = Event(now: real, proximity: int)

  /** The pager after a run of loop steps. */
  function Run(p: Pager, es: seq<Event>): Pager
    decreases |es|
  {
    if es == [] then p else Run(Advance(p, es[0].now, es[0].proximity), es[1..])
  }

  /** How many of those steps are accepted taps. */
  function Taps(p: Pager, es: seq<Event>): nat
    decreases |es|
  {
    if es == [] then 0
    else
      (if Tap(p, es[0].now, es[0].proximity) then 1 else 0)
      + Taps(Advance(p, es[0].now, es[0].proximity), es[1..])
  }

  /** `(m + 1) % k` advanced `t` more times is `m` advanced `t + 1` times. */
  lemma ModStep(m: nat, t: nat)
    requires m < ChannelCount
    ensures ((m + 1) % ChannelCount + t) % ChannelCount == (m + 1 + t) % ChannelCount
  {
  }

  /** Over any run of steps the mode stays in range and has advanced by the
      number of accepted taps, modulo the channel count. */
  lemma {:induction false} RunMode(p: Pager, es: seq<Event>)
    requires p.mode < ChannelCount
    ensures Run(p, es).mode < ChannelCount
    ensures Run(p, es).mode == (p.mode + Taps(p, es)) % ChannelCount
    decreases |es|
  {
    if es != [] {
      var q := Advance(p, es[0].now, es[0].proximity);
      RunMode(q, es[1..]);
      if Tap(p, es[0].now, es[0].proximity) {
        ModStep(p.mode, Taps(q, es[1..]));
      }
    }
  }

  /** Seven accepted taps bring the display back to the channel it started on. */
  lemma FullCycle(p: Pager, es: seq<Event>)
    requires p.mode < ChannelCount && Taps(p, es) == ChannelCount
    ensures Run(p, es).mode == p.mode
  {
    RunMode(p, es);
  }
}
