/** The polling scheduler of polling_loop(): integer arithmetic over clock
    readings in milliseconds. */
module Scheduler {

  function Max(a: int, b: int): int
  {
    if a < b then b else a
  }

  /** What one tick decides: whether a poll is dispatched, the delay of the
      next tick, and the new `last_poll`. */
  datatype Tick = Tick(dispatch: bool, delay: int, lastPoll: int)

  /** One tick: `now` is read on entry, `now2` right after the poll has been
      dispatched (it is not read when nothing is dispatched). */
  function Next(now: int, now2: int, lastPoll: int, interval: int): (t: Tick)
    ensures t.dispatch <==> now - lastPoll >= interval
    ensures !t.dispatch ==> t.lastPoll == lastPoll && now + t.delay == lastPoll + interval
    ensures t.dispatch ==> t.lastPoll == now && t.delay >= 0
    ensures t.dispatch ==> now2 + t.delay >= lastPoll + 2 * interval
    ensures t.dispatch && t.delay > 0 ==> now2 + t.delay == lastPoll + 2 * interval
  {
    var since := now - lastPoll;
    if since >= interval then
      var since2 := now2 - lastPoll;
      Tick(true, Max(0, interval * 2 - since2), now)
    else
      Tick(false, interval - since, lastPoll)
  }

  /** A tick that does not poll waits out the rest of the interval, which is
      a delay in (0, interval] when the clock has not gone back. */
  lemma GateDelayBounds(now: int, now2: int, lastPoll: int, interval: int)
    requires lastPoll <= now && now - lastPoll < interval
    ensures var t := Next(now, now2, lastPoll, interval);
      !t.dispatch && 0 < t.delay <= interval && t.lastPoll == lastPoll
  {
  }

  /** A tick that polls waits at most one interval, and at least nothing,
      when the clock has not gone back between the two readings. */
  lemma DispatchDelayBounds(now: int, now2: int, lastPoll: int, interval: int)
    requires interval > 0 && now - lastPoll >= interval && now <= now2
    ensures var t := Next(now, now2, lastPoll, interval);
      t.dispatch && 0 <= t.delay <= interval && t.lastPoll == now
  {
  }

  /** The first tick after a restart (`last_poll` reset to 0) polls, since
      the clock reads far beyond one interval. */
  lemma FirstTickPolls(now: int, now2: int, interval: int)
    requires now >= interval
    ensures Next(now, now2, 0, interval).dispatch
    ensures Next(now, now2, 0, interval).lastPoll == now
  {
  }

  /** A tick 400 ms into a 1000 ms interval waits 600 ms without polling; a
      tick 1200 ms in polls and waits max(0, 2000 - since2). */
  lemma GateExamples(now2: int)
    ensures Next(10400, now2, 10000, 1000) == Tick(false, 600, 10000)
    ensures Next(11200, now2, 10000, 1000) == Tick(true, Max(0, 2000 - (now2 - 10000)), 11200)
  {
  }

  /** With timers that fire on time and a poll dispatch that takes `cost` ms,
      the poll after a poll comes exactly max(interval, cost) later: the
      doubled delay only makes up for how late the earlier poll was. */
  lemma IdealCadence(now: int, cost: int, lastPoll: int, interval: int)
    requires interval > 0 && cost >= 0 && now - lastPoll >= interval
    ensures var first := Next(now, now + cost, lastPoll, interval);
      var at1 := now + cost + first.delay;
      var second := Next(at1, at1 + cost, first.lastPoll, interval);
      var at2 := at1 + second.delay;
      && first.dispatch && first.lastPoll == now
      && (second.dispatch ==> at1 - now == Max(interval, cost))
      && (!second.dispatch ==> at2 - now == Max(interval, cost) && Next(at2, at2 + cost, now, interval).dispatch)
  {
  }
}
