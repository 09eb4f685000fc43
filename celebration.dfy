/** Starting the effect: when `scheduleEffects` starts it, and the latch that
    makes `startEffects` run only once. */
module Celebration {
  import opened Particles
  import opened Snow

  /** What `scheduleEffects` does: start at once, or arm a timer for `delay` milliseconds. */
  datatype Decision = StartNow | StartAfter(delay: int)

  /** `scheduleEffects()`: the delay is the target instant minus the current
      one, both in milliseconds since the epoch. */
  function Schedule(targetMs: int, nowMs: int): (d: Decision)
    ensures d.StartNow? <==> targetMs <= nowMs
    ensures d.StartAfter? ==> d.delay > 0 && nowMs + d.delay == targetMs
  {
    var delay := targetMs - nowMs;
    if delay <= 0 then StartNow else StartAfter(delay)
  }

  /** The largest delay a host timer honours: `setTimeout` takes its delay as
      a signed 32-bit integer (a WebIDL `long`). */
  const MaxTimerDelay: int := 0x7FFF_FFFF
  const TimerWrap: int := 0x1_0000_0000

  /** The delay a host timer actually waits when asked for `delay`
      milliseconds: the value is reduced to a signed 32-bit integer
      (modulo 2^32), and a negative result becomes 0, as in the timer
      initialisation steps of the HTML Standard. */
  function HostDelay(delay: int): (w: int)
    ensures 0 <= w <= MaxTimerDelay
    ensures 0 <= delay <= MaxTimerDelay ==> w == delay
    ensures MaxTimerDelay < delay < TimerWrap ==> w == 0
  {
    var m := delay % TimerWrap;
    var l := if m > MaxTimerDelay then m - TimerWrap else m;
    if l < 0 then 0 else l
  }

  /** The instant at which the effect is due after `scheduleEffects` at
      `nowMs`, as the script is written: at once, or when the host timer's
      wait has elapsed. A host may run the timer later than that; this is the
      earliest start. */
  function StartTime(d: Decision, nowMs: int): (t: int)
    ensures d.StartNow? ==> t == nowMs
    ensures d.StartAfter? ==> nowMs <= t <= nowMs + MaxTimerDelay
    ensures d.StartAfter? && 0 <= d.delay <= MaxTimerDelay ==> t == nowMs + d.delay
  {
    match d
    case StartNow => nowMs
    case StartAfter(delay) => nowMs + HostDelay(delay)
  }

  /** While the target lies less than 2^31 ms ahead, the effect is due exactly
      at the target, or at once when the target has passed. */
  lemma StartsAtTargetWithinTimerRange(targetMs: int, nowMs: int)
    requires targetMs - nowMs <= MaxTimerDelay
    ensures StartTime(Schedule(targetMs, nowMs), nowMs) == if targetMs <= nowMs then nowMs else targetMs
  {
  }

  /** When the target lies 2^31 ms (about 24.8 days) or more ahead, the timer
      is due before the target: the celebration can start early. */
  lemma {:induction false} StartsEarlyBeyondTimerRange(targetMs: int, nowMs: int)
    requires targetMs - nowMs > MaxTimerDelay
    ensures StartTime(Schedule(targetMs, nowMs), nowMs) < targetMs
  {
    var d := Schedule(targetMs, nowMs);
    assert d.StartAfter? && d.delay == targetMs - nowMs;
    assert StartTime(d, nowMs) == nowMs + HostDelay(d.delay);
  }

  /** A page loaded 2^31 ms before the target starts the celebration at once. */
  lemma EarlyStartExample(nowMs: int)
    ensures var targetMs := nowMs + MaxTimerDelay + 1;
            StartTime(Schedule(targetMs, nowMs), nowMs) == nowMs < targetMs
  {
  }

  /** The intended start: when the target lies beyond what one timer can
      wait, wait the longest honoured delay and decide again. */
  function RearmedStart(targetMs: int, nowMs: int): (t: int)
    ensures nowMs <= t
    decreases targetMs - nowMs
  {
    match Schedule(targetMs, nowMs)
    case StartNow => nowMs
    case StartAfter(delay) =>
      var wait := if delay <= MaxTimerDelay then delay else MaxTimerDelay;
      RearmedStart(targetMs, nowMs + HostDelay(wait))
  }

  /** With rearming, the effect is due exactly at the target, or at once when
      the target has passed; never before the target. */
  lemma {:induction false} RearmedStartsAtTarget(targetMs: int, nowMs: int)
    ensures RearmedStart(targetMs, nowMs) == if targetMs <= nowMs then nowMs else targetMs
    decreases targetMs - nowMs
  {
    var d := Schedule(targetMs, nowMs);
    if d.StartAfter? {
      var wait := if d.delay <= MaxTimerDelay then d.delay else MaxTimerDelay;
      RearmedStartsAtTarget(targetMs, nowMs + HostDelay(wait));
    }
  }

  /** Before the pre-fill, `startEffects` places 40 stars with four
      `Math.random()` draws each. */
  const StarCount: nat := 40
  const StarDraws: nat := 4 * StarCount

  /** The running page: the `startEffects._started` latch and, once started, the snow pool. */
  class Effects {
    var started: bool
    var pool: Pool?

    constructor ()
      ensures !started && pool == null
    {
      started := false;
      pool := null;
    }

    /** `startEffects()`: a no-op once started; otherwise sets the latch,
        takes the star draws from stream position `k`, creates the pool,
        pre-fills it with the canvas width from the position after the
        stars, and starts its clock at `perfNow`. The DOM scaffolding, the
        star elements and the first animation frame request are not
        modelled. */
    method StartEffects(width: Pixels, perfNow: real, rng: RandomStream, k: nat) returns (next: nat)
      modifies this
      ensures started
      ensures old(started) ==> unchanged(this) && next == k
      ensures !old(started) ==>
        && pool != null && fresh(pool) && pool.Valid()
        && pool.particles == Fresh(Creator(width, rng), k + StarDraws, PreFillCount).value
        && |pool.particles| == PreFillCount
        && pool.lastTime == perfNow
        && next == Fresh(Creator(width, rng), k + StarDraws, PreFillCount).next
    {
      if started {
        return k;
      }
      started := true;
      var create := Creator(width, rng);
      var p := new Pool(perfNow);
      next := p.PreFill(create, k + StarDraws);
      pool := p;
      FreshWellFormed(width, rng, k + StarDraws, PreFillCount);
    }

    /** `scheduleEffects()` at `nowMs`: starts the effect at once when the
        target has been reached; otherwise changes nothing and leaves the start
        to the timer armed for the returned delay. */
    method ScheduleEffects(targetMs: int, nowMs: int, width: Pixels, perfNow: real, rng: RandomStream, k: nat)
      returns (d: Decision, next: nat)
      modifies this
      ensures d == Schedule(targetMs, nowMs)
      ensures d.StartAfter? ==> unchanged(this) && next == k
      ensures d.StartNow? ==> started && (old(started) ==> unchanged(this) && next == k)
      ensures d.StartNow? && !old(started) ==>
        && pool != null && fresh(pool) && pool.Valid()
        && pool.particles == Fresh(Creator(width, rng), k + StarDraws, PreFillCount).value
        && |pool.particles| == PreFillCount
        && pool.lastTime == perfNow
        && next == Fresh(Creator(width, rng), k + StarDraws, PreFillCount).next
    {
      d := Schedule(targetMs, nowMs);
      next := k;
      if d.StartNow? {
        next := StartEffects(width, perfNow, rng, k);
      }
    }
  }

  /** Two calls of `startEffects`, as when the timer fires after a start: the
      second finds the latch set and leaves the pool the first one made. */
  method StartTwice(width: Pixels, perfNow: real, later: real, rng: RandomStream, k: nat)
    returns (e: Effects)
    ensures e.started && e.pool != null && |e.pool.particles| == PreFillCount && e.pool.lastTime == perfNow
  {
    e := new Effects();
    var next := e.StartEffects(width, perfNow, rng, k);
    var first := e.pool;
    next := e.StartEffects(width, later, rng, next);
    assert e.pool == first;
  }
}
