/** The counter that slows a connection down after rate-limit notices. */
module RateLimit {
  import opened Clock
  import Backoff

  const BUMP_PAUSE := 500 * MILLISECOND
  const DECREASE_AFTER := 300 * SECOND
  const MAX_BACKOFF_MS := 10000

  /** What an int32 holds after an operation whose exact result is x. */
  function Wrap32(x: int): (r: int)
    ensures -0x8000_0000 <= r < 0x8000_0000
    ensures -0x8000_0000 <= x < 0x8000_0000 ==> r == x
  {
    (x + 0x8000_0000) % 0x1_0000_0000 - 0x8000_0000
  }

  function Add32(count: int, delta: int): int {
    Wrap32(count + delta)
  }

  lemma ModShift(x: int, k: int)
    ensures (x - k * 0x1_0000_0000) % 0x1_0000_0000 == x % 0x1_0000_0000
  {
  }

  lemma WrapOnce(x: int, delta: int)
    ensures Wrap32(Wrap32(x) + delta) == Wrap32(x + delta)
  {
    var k := (x + 0x8000_0000) / 0x1_0000_0000;
    ModShift(x + delta + 0x8000_0000, k);
    assert Wrap32(x) == x - k * 0x1_0000_0000;
  }

  /** The pause for a counter value; powers of two are exact in the source's floating point. */
  function BackoffMs(count: int): int {
    if count <= 0 then 0
    else if 50 * Backoff.Pow(2, count) <= MAX_BACKOFF_MS then 50 * Backoff.Pow(2, count) else MAX_BACKOFF_MS
  }

  /** Nothing, or between 100 ms and 10 s; it doubles with every notice up to seven and then stays at the top. */
  lemma BackoffRange(count: int)
    ensures BackoffMs(count) == 0 <==> count <= 0
    ensures count > 0 ==> 100 <= BackoffMs(count) <= 10000
    ensures 1 <= count < 7 ==> BackoffMs(count + 1) == 2 * BackoffMs(count)
    ensures count >= 8 <==> BackoffMs(count) == 10000
  {
    if count > 0 {
      Backoff.PowGrows(2, 1, count);
      assert Backoff.Pow(2, 7) == 128 && Backoff.Pow(2, 8) == 256;
      if count <= 7 {
        Backoff.PowGrows(2, count, 7);
        if count < 7 {
          Backoff.PowGrows(2, count + 1, 7);
        }
      } else {
        Backoff.PowGrows(2, 8, count);
      }
    }
  }

  // ---------------------------------------------------------------- runs

  /** `bumps` and `drops` count the changes so far, `clock` is the last reading. */
  datatype World = World(count: int, last: int, start: int, clock: int, bumps: nat, drops: nat)

  /** Each call reads the clock once to compare and once more if it changes the counter. */
  datatype Step = Bump(now: int, again: int) | Read(now: int, again: int)

  function Fresh(now: int): World {
    World(0, now, now, now, 0, 0)
  }

  predicate Enabled(w: World, s: Step) {
    w.clock <= s.now <= s.again
  }

  function Next(w: World, s: Step): World {
    match s
    case Bump(now, again) =>
      if now - w.last < BUMP_PAUSE then w.(clock := now)
      else w.(count := Add32(w.count, 1), last := again, clock := again, bumps := w.bumps + 1)
    case Read(now, again) =>
      if w.count <= 0 then w
      else if now - w.last > DECREASE_AFTER
      then w.(count := Add32(w.count, -1), last := again, clock := again, drops := w.drops + 1)
      else w.(clock := now)
  }

  ghost predicate Run(w: World, steps: seq<Step>, w': World)
    decreases |steps|
  {
    if steps == [] then w' == w else Enabled(w, steps[0]) && Run(Next(w, steps[0]), steps[1..], w')
  }

  /** The changes are spaced out, so there cannot be more of them than fit into the time since the start; the
      counter is what an int32 holds of the bumps less the decreases. */
  ghost predicate Inv(w: World) {
    && w.start <= w.last <= w.clock
    && w.bumps >= w.drops && w.count == Wrap32(w.bumps - w.drops)
    && w.bumps * BUMP_PAUSE + w.drops * DECREASE_AFTER <= w.last - w.start
  }

  lemma InvNext(w: World, s: Step)
    requires Inv(w) && Enabled(w, s)
    ensures Inv(Next(w, s)) && Next(w, s).start == w.start
  {
    match s
    case Bump(_, _) => WrapOnce(w.bumps - w.drops, 1);
    case Read(_, _) => WrapOnce(w.bumps - w.drops, -1);
  }

  lemma {:induction false} InvRun(w: World, steps: seq<Step>, w': World)
    requires Inv(w) && Run(w, steps, w')
    ensures Inv(w') && w'.start == w.start
    decreases |steps|
  {
    if steps != [] {
      InvNext(w, steps[0]);
      InvRun(Next(w, steps[0]), steps[1..], w');
    }
  }

  lemma WrapIsLess(n: nat)
    ensures Wrap32(n) <= n
    ensures Wrap32(n) >= 0 <==> n % 0x1_0000_0000 < 0x8000_0000
    ensures n < 0x8000_0000 ==> Wrap32(n) == n
  {
    var k, r := n / 0x1_0000_0000, n % 0x1_0000_0000;
    ModShift(n + 0x8000_0000, k);
    assert Wrap32(n) == (r + 0x8000_0000) % 0x1_0000_0000 - 0x8000_0000;
  }

  /** In every run, however long, the counter is the bumps that counted less the decreases, as far as an int32
      can hold it, and so at most the number of half seconds since the start; it is negative only where the
      difference does not fit, which takes 2^31 bumps, that is 2^30 seconds, more than 34 years. */
  lemma CounterBounds(now: int, steps: seq<Step>, w: World)
    requires Run(Fresh(now), steps, w)
    ensures w.bumps >= w.drops && w.count == Wrap32(w.bumps - w.drops)
    ensures w.count * 500_000_000 + w.drops * 300_500_000_000 <= w.clock - now
    ensures w.count >= 0 <==> (w.bumps - w.drops) % 0x1_0000_0000 < 0x8000_0000
    ensures w.clock - now < 0x8000_0000 * 500_000_000 ==> w.count == w.bumps - w.drops
    ensures BackoffMs(w.count) == 0 || 100 <= BackoffMs(w.count) <= 10000
  {
    InvRun(Fresh(now), steps, w);
    var rest := w.bumps - w.drops;
    WrapIsLess(rest);
    assert w.count * 500_000_000 <= rest * 500_000_000;
    assert rest * 500_000_000 + w.drops * 300_500_000_000 <= w.clock - now;
    BackoffRange(w.count);
  }

  /** At the top of int32 a counted bump makes the counter negative, which reads as no backoff at all;
      this is the only way to get there. */
  lemma WrapsOnlyAtTheTop(w: World, s: Step)
    requires 0 <= w.count < 0x8000_0000
    ensures Next(w, s).count < 0 <==> s.Bump? && s.now - w.last >= 500_000_000 && w.count == 0x7fff_ffff
  {
  }

  /** Reads only, each long enough after the last change. */
  ghost predicate Idle(w: World, steps: seq<Step>)
    decreases |steps|
  {
    steps != [] ==>
      && steps[0].Read? && Enabled(w, steps[0]) && steps[0].now - w.last > 300_000_000_000
      && Idle(Next(w, steps[0]), steps[1..])
  }

  /** An idle counter goes down by one with every such read, and reaches 0 after as many reads as it counts. */
  lemma {:induction false} IdleCountsDown(w: World, steps: seq<Step>, w': World)
    requires 0 <= w.count < 0x8000_0000 && Idle(w, steps) && Run(w, steps, w')
    ensures w'.count == if |steps| <= w.count then w.count - |steps| else 0
    decreases |steps|
  {
    if steps != [] {
      IdleCountsDown(Next(w, steps[0]), steps[1..], w');
    }
  }

  /** Bumps only, each half a second or more after the last change. */
  ghost predicate Spaced(w: World, steps: seq<Step>)
    decreases |steps|
  {
    steps != [] ==>
      && steps[0].Bump? && Enabled(w, steps[0]) && steps[0].now - w.last >= 500_000_000
      && Spaced(Next(w, steps[0]), steps[1..])
  }

  /** Every such bump counts. */
  lemma {:induction false} SpacedBumpsCount(w: World, steps: seq<Step>, w': World)
    requires Spaced(w, steps) && Run(w, steps, w') && 0 <= w.count && w.count + |steps| < 0x8000_0000
    ensures w'.count == w.count + |steps|
    decreases |steps|
  {
    if steps != [] {
      SpacedBumpsCount(Next(w, steps[0]), steps[1..], w');
    }
  }

  /** A bump within half a second of the last change does not count, and a read changes the counter only when it is
      positive and five minutes have passed. */
  lemma SoonChangesNothing(w: World, s: Step)
    requires if s.Bump? then s.now - w.last < 500_000_000 else s.now - w.last <= 300_000_000_000 || w.count <= 0
    ensures Next(w, s).count == w.count && Next(w, s).last == w.last
  {
  }

  // ---------------------------------------------------------------- the manager

  class RateLimitNoticeBackoffManager {
    var rateLimitNoticeCount: int
    var lastBumpTime: int
    ghost var w: World

    ghost predicate Valid()
      reads this
    {
      w.count == rateLimitNoticeCount && w.last == lastBumpTime
    }

    constructor (now: int)
      ensures Valid() && w == Fresh(now)
    {
      rateLimitNoticeCount, lastBumpTime := 0, now;
      w := Fresh(now);
    }

    method Bump(now: int, again: int)
      requires Valid()
      modifies this
      ensures Valid() && w == Next(old(w), Step.Bump(now, again))
    {
      w := Next(w, Step.Bump(now, again));
      var timeSinceLastBump := now - lastBumpTime;
      if timeSinceLastBump < BUMP_PAUSE {
        return;
      }
      rateLimitNoticeCount := Add32(rateLimitNoticeCount, 1);
      lastBumpTime := again;
    }

    /** Returns the pause for the counter before the call, also when the call decreases it. */
    method GetBackoffMs(now: int, again: int) returns (backoffMs: int)
      requires Valid()
      modifies this
      ensures Valid() && w == Next(old(w), Read(now, again))
      ensures backoffMs == BackoffMs(old(rateLimitNoticeCount))
    {
      w := Next(w, Read(now, again));
      if rateLimitNoticeCount <= 0 {
        return 0;
      }
      backoffMs := 50 * Backoff.Pow(2, rateLimitNoticeCount);
      if backoffMs > MAX_BACKOFF_MS {
        backoffMs := MAX_BACKOFF_MS;
      }
      var timeSinceLastBump := now - lastBumpTime;
      if timeSinceLastBump > DECREASE_AFTER {
        rateLimitNoticeCount := Add32(rateLimitNoticeCount, -1);
        lastBumpTime := again;
      }
    }
  }
}
