/** The limit on pairing requests: one bucket per device, forgotten after a while. */
module PairLimiter {
  import opened Bucket

  type Device = string

  /** Nanoseconds. */
  const MINUTE := 60_000_000_000

  datatype Entry = Entry(limiter: Bucket, lastSeen: int)

  type Entries = map<Device, Entry>

  /** The time a token takes: rate.Every(time.Minute / perMin), a truncating division. */
  function Interval(perMin: nat): nat
    requires perMin >= 1
  {
    MINUTE / perMin
  }

  /** The burst, in nanoseconds of credit. */
  function Burst(perMin: nat): nat
    requires perMin >= 1
  {
    perMin * Interval(perMin)
  }

  /** rate.Limiter.Allow; an interval of zero is an infinite rate. */
  predicate Passes(b: Bucket, perMin: nat, t: int)
    requires perMin >= 1
  {
    Interval(perMin) == 0 || Available(b, Burst(perMin), t) >= Interval(perMin)
  }

  function AfterAllow(b: Bucket, perMin: nat, t: int): Bucket
    requires perMin >= 1
  {
    if Interval(perMin) == 0 || !Passes(b, perMin, t) then b else Take(b, Burst(perMin), Interval(perMin), t)
  }

  function BucketOf(m: Entries, perMin: nat, d: Device, t: int): Bucket
    requires perMin >= 1
  {
    if d in m then m[d].limiter else Fresh(Burst(perMin), t)
  }

  /** Allow reads the clock twice: `seen` for the entry, `at` inside the limiter. */
  function Allowed(m: Entries, perMin: nat, d: Device, seen: int, at: int): Entries
    requires perMin >= 1
  {
    m[d := Entry(AfterAllow(BucketOf(m, perMin, d, seen), perMin, at), seen)]
  }

  predicate Admits(m: Entries, perMin: nat, d: Device, seen: int, at: int)
    requires perMin >= 1
  {
    Passes(BucketOf(m, perMin, d, seen), perMin, at)
  }

  /** Sweep forgets devices last seen before the cut-off. */
  function Swept(m: Entries, cutoff: int): Entries {
    map d | d in m && m[d].lastSeen >= cutoff :: m[d]
  }

  // ---- runs -----------------------------------------------------------------------------------

  /** Calls in the order the lock is taken; `read` is the clock a Sweep read beforehand. */
  datatype Call = Allow(device: Device, seen: int, at: int) | Sweep(read: int)

  /** The clock is monotone, and the two readings of one Allow are at most `lag` apart. */
  ghost predicate Timed(calls: seq<Call>, lag: nat, now: int)
    decreases |calls|
  {
    calls != [] ==>
      match calls[0]
      case Allow(_, seen, at) => now <= seen <= at <= seen + lag && Timed(calls[1..], lag, at)
      case Sweep(read) => Timed(calls[1..], lag, Max(now, read))
  }

  /** The answers of a limiter that sweeps with `maxIdle`, or never if it is negative. */
  function Answers(m: Entries, perMin: nat, maxIdle: int, calls: seq<Call>): seq<bool>
    requires perMin >= 1
    decreases |calls|
  {
    if calls == [] then []
    else
      match calls[0]
      case Allow(d, seen, at) =>
        [Admits(m, perMin, d, seen, at)] + Answers(Allowed(m, perMin, d, seen, at), perMin, maxIdle, calls[1..])
      case Sweep(read) =>
        Answers(if maxIdle < 0 then m else Swept(m, read - maxIdle), perMin, maxIdle, calls[1..])
  }

  const NEVER := -1

  /** How long after an entry was last seen its credit can be zero: a request charged late
      was charged no more than the lag, or an interval, after that, and one that found a full
      bucket took an interval out of it. */
  function Late(perMin: nat, lag: nat): int
    requires perMin >= 1
  {
    Max(Min(lag, Interval(perMin)), lag + Interval(perMin) - Burst(perMin))
  }

  /** An entry is kept until its bucket must have filled up again. */
  predicate KeptLongEnough(perMin: nat, maxIdle: nat, lag: nat)
    requires perMin >= 1
  {
    maxIdle + 1 >= Late(perMin, lag) + Burst(perMin)
  }

  /** Entries are consistent: no debt, and charged no later than `lag` after they were seen. */
  ghost predicate EntryOk(e: Entry, perMin: nat, lag: nat, now: int)
    requires perMin >= 1
  {
    && 0 <= e.limiter.credit <= Burst(perMin)
    && e.limiter.last <= e.lastSeen + lag && e.lastSeen <= now && e.limiter.last <= now
    && Zero(e.limiter) <= e.lastSeen + Late(perMin, lag)
  }

  /** The evicting limiter `m` and the one that never evicts, `n`: whom `m` has forgotten,
      `n` would treat as new. */
  ghost predicate Agree(m: Entries, n: Entries, perMin: nat, lag: nat, now: int)
    requires perMin >= 1
  {
    && (forall d :: d in n ==> EntryOk(n[d], perMin, lag, now))
    && (forall d :: d in m ==> d in n && m[d] == n[d])
    && (forall d :: d in n && d !in m ==> Available(n[d].limiter, Burst(perMin), now) == Burst(perMin))
  }

  lemma AtLeastOnce(k: nat, n: nat)
    requires k >= 1
    ensures k * n >= n
  {
  }

  lemma PositiveBurst(perMin: nat)
    requires perMin >= 1 && Interval(perMin) > 0
    ensures Burst(perMin) >= Interval(perMin)
  {
    AtLeastOnce(perMin, Interval(perMin));
  }

  lemma AllowAgrees(m: Entries, n: Entries, perMin: nat, lag: nat, now: int, d: Device, seen: int, at: int)
    requires perMin >= 1 && Interval(perMin) > 0 && Agree(m, n, perMin, lag, now)
    requires now <= seen <= at <= seen + lag
    ensures Admits(m, perMin, d, seen, at) == Admits(n, perMin, d, seen, at)
    ensures Agree(Allowed(m, perMin, d, seen, at), Allowed(n, perMin, d, seen, at), perMin, lag, at)
  {
    PositiveBurst(perMin);
  }

  lemma SweepAgrees(m: Entries, n: Entries, perMin: nat, lag: nat, now: int, maxIdle: nat, read: int)
    requires perMin >= 1 && Agree(m, n, perMin, lag, now)
    requires KeptLongEnough(perMin, maxIdle, lag)
    ensures Agree(Swept(m, read - maxIdle), n, perMin, lag, Max(now, read))
  {
  }

  lemma {:induction false} AnswersAgree(m: Entries, n: Entries, perMin: nat, lag: nat, now: int, maxIdle: nat, calls: seq<Call>)
    requires perMin >= 1 && Interval(perMin) > 0 && Agree(m, n, perMin, lag, now)
    requires KeptLongEnough(perMin, maxIdle, lag) && Timed(calls, lag, now)
    ensures Answers(m, perMin, maxIdle, calls) == Answers(n, perMin, NEVER, calls)
    decreases |calls|
  {
    if calls != [] {
      match calls[0]
      case Allow(d, seen, at) =>
        AllowAgrees(m, n, perMin, lag, now, d, seen, at);
        AnswersAgree(Allowed(m, perMin, d, seen, at), Allowed(n, perMin, d, seen, at), perMin, lag, at, maxIdle, calls[1..]);
      case Sweep(read) =>
        SweepAgrees(m, n, perMin, lag, now, maxIdle, read);
        AnswersAgree(Swept(m, read - maxIdle), n, perMin, lag, Max(now, read), maxIdle, calls[1..]);
    }
  }

  lemma {:induction false} InfiniteRateAdmitsAll(m: Entries, n: Entries, perMin: nat, maxIdle: int, calls: seq<Call>)
    requires perMin >= 1 && Interval(perMin) == 0
    ensures Answers(m, perMin, maxIdle, calls) == Answers(n, perMin, NEVER, calls)
    decreases |calls|
  {
    if calls != [] {
      match calls[0]
      case Allow(d, seen, at) =>
        InfiniteRateAdmitsAll(Allowed(m, perMin, d, seen, at), Allowed(n, perMin, d, seen, at), perMin, maxIdle, calls[1..]);
      case Sweep(read) =>
        InfiniteRateAdmitsAll(if maxIdle < 0 then m else Swept(m, read - maxIdle), n, perMin, maxIdle, calls[1..]);
    }
  }

  /** If entries are kept long enough, or the rate is infinite, eviction is unobservable:
      every answer is that of a limiter that never evicts. */
  lemma EvictionIsUnobservable(perMin: nat, maxIdle: nat, lag: nat, now: int, calls: seq<Call>)
    requires perMin >= 1 && Timed(calls, lag, now)
    requires Interval(perMin) == 0 || KeptLongEnough(perMin, maxIdle, lag)
    ensures Answers(map[], perMin, maxIdle, calls) == Answers(map[], perMin, NEVER, calls)
  {
    if Interval(perMin) == 0 {
      InfiniteRateAdmitsAll(map[], map[], perMin, maxIdle, calls);
    } else {
      AnswersAgree(map[], map[], perMin, lag, now, maxIdle, calls);
    }
  }

  /** What the server is deployed with: Sweep forgets after ten minutes. */
  const LIMITER_MAX_IDLE := 10 * MINUTE

  lemma BurstWithinAMinute(perMin: nat)
    requires perMin >= 1
    ensures Burst(perMin) <= MINUTE
  {
  }

  /** For every configured rate the deployed ten minutes are enough, even if the two clock
      readings of an Allow are nine minutes apart. */
  lemma DeployedEvictionIsUnobservable(perMin: nat, lag: nat, now: int, calls: seq<Call>)
    requires perMin >= 1 && lag <= 540_000_000_000 && Timed(calls, lag, now)
    ensures Answers(map[], perMin, 600_000_000_000, calls) == Answers(map[], perMin, NEVER, calls)
  {
    BurstWithinAMinute(perMin);
    EvictionIsUnobservable(perMin, LIMITER_MAX_IDLE, lag, now, calls);
  }

  // ---- and no shorter time will do ----------------------------------------------------------

  /** `k` requests of one device at one moment. */
  function Volley(d: Device, t: int, k: nat): seq<Call> {
    if k == 0 then [] else [Allow(d, t, t)] + Volley(d, t, k - 1)
  }

  function AllTrue(k: nat): seq<bool> {
    if k == 0 then [] else [true] + AllTrue(k - 1)
  }

  lemma {:induction false} VolleyIsTimed(d: Device, t: int, k: nat, rest: seq<Call>, lag: nat, now: int)
    requires now <= t && Timed(rest, lag, t)
    ensures Timed(Volley(d, t, k) + rest, lag, now)
    decreases k
  {
    if k == 0 {
      assert Volley(d, t, k) + rest == rest;
      TimedEarlier(rest, lag, t, now);
    } else {
      VolleyIsTimed(d, t, k - 1, rest, lag, t);
      assert (Volley(d, t, k) + rest)[1..] == Volley(d, t, k - 1) + rest;
    }
  }

  lemma {:induction false} TimedEarlier(calls: seq<Call>, lag: nat, t: int, now: int)
    requires Timed(calls, lag, t) && now <= t
    ensures Timed(calls, lag, now)
    decreases |calls|
  {
    if calls != [] && calls[0].Sweep? {
      TimedEarlier(calls[1..], lag, Max(t, calls[0].read), Max(now, calls[0].read));
    }
  }

  /** The entries after a volley that has been admitted in full. */
  function AfterVolley(m: Entries, perMin: nat, d: Device, t: int, k: nat): Entries
    requires perMin >= 1
  {
    if k == 0 then m
    else m[d := Entry(Bucket(Available(BucketOf(m, perMin, d, t), Burst(perMin), t) - k * Interval(perMin), t), t)]
  }

  lemma {:induction false} VolleyAdmitted(m: Entries, perMin: nat, maxIdle: int, d: Device, t: int, k: nat, rest: seq<Call>)
    requires perMin >= 1 && Interval(perMin) > 0
    requires d in m ==> m[d].limiter.last <= t
    requires Available(BucketOf(m, perMin, d, t), Burst(perMin), t) >= k * Interval(perMin)
    ensures Answers(m, perMin, maxIdle, Volley(d, t, k) + rest)
         == AllTrue(k) + Answers(AfterVolley(m, perMin, d, t, k), perMin, maxIdle, rest)
    decreases k
  {
    var v := Volley(d, t, k) + rest;
    if k == 0 {
      assert v == rest;
      assert AllTrue(0) + Answers(m, perMin, maxIdle, rest) == Answers(m, perMin, maxIdle, rest);
    } else {
      var i := Interval(perMin);
      assert k * i == (k - 1) * i + i && (k - 1) * i >= 0;
      var m' := Allowed(m, perMin, d, t, t);
      assert v[0] == Allow(d, t, t) && v[1..] == Volley(d, t, k - 1) + rest;
      VolleyAdmitted(m', perMin, maxIdle, d, t, k - 1, rest);
      assert AfterVolley(m', perMin, d, t, k - 1) == AfterVolley(m, perMin, d, t, k);
      assert [true] + (AllTrue(k - 1) + Answers(AfterVolley(m, perMin, d, t, k), perMin, maxIdle, rest))
          == AllTrue(k) + Answers(AfterVolley(m, perMin, d, t, k), perMin, maxIdle, rest);
    }
  }

  /** A device with less credit than `k` requests cost is refused one of them. */
  lemma {:induction false} VolleyRefused(m: Entries, perMin: nat, d: Device, t: int, k: nat)
    requires perMin >= 1 && Interval(perMin) > 0 && d in m && m[d].limiter.last <= t
    requires 0 <= Available(m[d].limiter, Burst(perMin), t) < k * Interval(perMin)
    ensures Answers(m, perMin, NEVER, Volley(d, t, k)) != AllTrue(k)
    decreases k
  {
    if k == 0 {
    } else {
      var i := Interval(perMin);
      assert k * i == (k - 1) * i + i;
      var m' := Allowed(m, perMin, d, t, t);
      if Admits(m, perMin, d, t, t) {
        VolleyRefused(m', perMin, d, t, k - 1);
        assert Answers(m, perMin, NEVER, Volley(d, t, k))[1..] == Answers(m', perMin, NEVER, Volley(d, t, k - 1));
        assert AllTrue(k)[1..] == AllTrue(k - 1);
      } else {
        assert Answers(m, perMin, NEVER, Volley(d, t, k))[0] == false && AllTrue(k)[0] == true;
      }
    }
  }

  // Both runs below end with a Sweep that forgets the device and a burst of it.

  function Finale(perMin: nat, d: Device, r: int, t: int): seq<Call> {
    [Sweep(r)] + Volley(d, t, perMin)
  }

  lemma FinaleIsTimed(perMin: nat, d: Device, r: int, t: int, lag: nat, now: int)
    requires now <= t && r <= t
    ensures Timed(Finale(perMin, d, r, t), lag, now)
  {
    VolleyIsTimed(d, t, perMin, [], lag, Max(now, r));
    assert Volley(d, t, perMin) + [] == Volley(d, t, perMin) == Finale(perMin, d, r, t)[1..];
  }

  lemma EvictedFinale(perMin: nat, maxIdle: nat, d: Device, e: Entry, r: int, t: int)
    requires perMin >= 1 && Interval(perMin) > 0 && e.lastSeen < r - maxIdle
    ensures Answers(map[d := e], perMin, maxIdle, Finale(perMin, d, r, t)) == AllTrue(perMin)
  {
    var v := Volley(d, t, perMin);
    assert Swept(map[d := e], r - maxIdle) == map[];
    assert Finale(perMin, d, r, t)[1..] == v && v + [] == v && AllTrue(perMin) + [] == AllTrue(perMin);
    VolleyAdmitted(map[], perMin, maxIdle, d, t, perMin, []);
  }

  lemma LastingFinale(perMin: nat, d: Device, e: Entry, r: int, t: int)
    requires perMin >= 1 && Interval(perMin) > 0 && e.limiter.last <= t
    requires 0 <= Available(e.limiter, Burst(perMin), t) < Burst(perMin)
    ensures Answers(map[d := e], perMin, NEVER, Finale(perMin, d, r, t)) != AllTrue(perMin)
  {
    assert Finale(perMin, d, r, t)[1..] == Volley(d, t, perMin);
    VolleyRefused(map[d := e], perMin, d, t, perMin);
  }

  lemma SameTail(s: seq<bool>, a: seq<bool>, b: seq<bool>)
    requires a != b
    ensures s + a != s + b
  {
    assert (s + a)[|s|..] == a && (s + b)[|s|..] == b;
  }

  /** One request that is admitted, before the rest of a run. */
  lemma AllowFirst(m: Entries, perMin: nat, maxIdle: int, d: Device, seen: int, at: int, rest: seq<Call>)
    requires perMin >= 1 && Admits(m, perMin, d, seen, at)
    ensures Answers(m, perMin, maxIdle, [Allow(d, seen, at)] + rest)
         == [true] + Answers(Allowed(m, perMin, d, seen, at), perMin, maxIdle, rest)
  {
    assert ([Allow(d, seen, at)] + rest)[1..] == rest;
  }

  // A first request that finds a full bucket, but late.

  function LateProbe(perMin: nat, maxIdle: nat, lag: nat, d: Device): seq<Call> {
    [Allow(d, 0, lag)] + Finale(perMin, d, maxIdle + 1, Max(lag, maxIdle + 1))
  }

  lemma LateProbeShows(perMin: nat, maxIdle: nat, lag: nat, d: Device)
    requires perMin >= 1 && Interval(perMin) > 0 && maxIdle + 1 < lag + Interval(perMin)
    ensures Timed(LateProbe(perMin, maxIdle, lag, d), lag, 0)
    ensures Answers(map[], perMin, maxIdle, LateProbe(perMin, maxIdle, lag, d))
         != Answers(map[], perMin, NEVER, LateProbe(perMin, maxIdle, lag, d))
  {
    var r, t := maxIdle + 1, Max(lag, maxIdle + 1);
    var e := Entry(Bucket(Burst(perMin) - Interval(perMin), lag), 0);
    PositiveBurst(perMin);
    assert Allowed(map[], perMin, d, 0, lag) == map[d := e];
    FinaleIsTimed(perMin, d, r, t, lag, lag);
    assert LateProbe(perMin, maxIdle, lag, d)[1..] == Finale(perMin, d, r, t);
    AllowFirst(map[], perMin, maxIdle, d, 0, lag, Finale(perMin, d, r, t));
    AllowFirst(map[], perMin, NEVER, d, 0, lag, Finale(perMin, d, r, t));
    EvictedFinale(perMin, maxIdle, d, e, r, t);
    LastingFinale(perMin, d, e, r, t);
    SameTail([true], AllTrue(perMin), Answers(map[d := e], perMin, NEVER, Finale(perMin, d, r, t)));
  }

  // Or the burst is spent at time zero, and the next request is charged as soon as it may
  // be, as late after it was seen as possible.

  function SpentProbe(perMin: nat, maxIdle: nat, lag: nat, d: Device): seq<Call>
    requires perMin >= 1
  {
    Volley(d, 0, perMin) + Tail(perMin, maxIdle, lag, d)
  }

  function Tail(perMin: nat, maxIdle: nat, lag: nat, d: Device): seq<Call>
    requires perMin >= 1
  {
    var i := Interval(perMin);
    var seen := i - Min(lag, i);
    [Allow(d, seen, i)] + Finale(perMin, d, seen + maxIdle + 1, Max(i, seen + maxIdle + 1))
  }

  lemma TailIsTimed(perMin: nat, maxIdle: nat, lag: nat, d: Device)
    requires perMin >= 1
    ensures Timed(Tail(perMin, maxIdle, lag, d), lag, 0)
  {
    var i := Interval(perMin);
    var r := i - Min(lag, i) + maxIdle + 1;
    FinaleIsTimed(perMin, d, r, Max(i, r), lag, i);
    assert Tail(perMin, maxIdle, lag, d)[1..] == Finale(perMin, d, r, Max(i, r));
  }

  lemma TailShows(perMin: nat, maxIdle: nat, lag: nat, d: Device)
    requires perMin >= 1 && Interval(perMin) > 0 && maxIdle + 1 < Burst(perMin) + Min(lag, Interval(perMin))
    ensures var m, tail := map[d := Entry(Bucket(0, 0), 0)], Tail(perMin, maxIdle, lag, d);
            Answers(m, perMin, maxIdle, tail) != Answers(m, perMin, NEVER, tail)
  {
    var i := Interval(perMin);
    var seen := i - Min(lag, i);
    var r := seen + maxIdle + 1;
    var t, m, e := Max(i, r), map[d := Entry(Bucket(0, 0), 0)], Entry(Bucket(0, i), seen);
    PositiveBurst(perMin);
    assert Allowed(m, perMin, d, seen, i) == map[d := e];
    AllowFirst(m, perMin, maxIdle, d, seen, i, Finale(perMin, d, r, t));
    AllowFirst(m, perMin, NEVER, d, seen, i, Finale(perMin, d, r, t));
    EvictedFinale(perMin, maxIdle, d, e, r, t);
    LastingFinale(perMin, d, e, r, t);
    SameTail([true], AllTrue(perMin), Answers(map[d := e], perMin, NEVER, Finale(perMin, d, r, t)));
  }

  lemma SpentProbeShows(perMin: nat, maxIdle: nat, lag: nat, d: Device)
    requires perMin >= 1 && Interval(perMin) > 0 && maxIdle + 1 < Burst(perMin) + Min(lag, Interval(perMin))
    ensures Timed(SpentProbe(perMin, maxIdle, lag, d), lag, 0)
    ensures Answers(map[], perMin, maxIdle, SpentProbe(perMin, maxIdle, lag, d))
         != Answers(map[], perMin, NEVER, SpentProbe(perMin, maxIdle, lag, d))
  {
    var m, tail := map[d := Entry(Bucket(0, 0), 0)], Tail(perMin, maxIdle, lag, d);
    TailIsTimed(perMin, maxIdle, lag, d);
    VolleyIsTimed(d, 0, perMin, tail, lag, 0);
    TailShows(perMin, maxIdle, lag, d);
    VolleyAdmitted(map[], perMin, maxIdle, d, 0, perMin, tail);
    VolleyAdmitted(map[], perMin, NEVER, d, 0, perMin, tail);
    SameTail(AllTrue(perMin), Answers(m, perMin, maxIdle, tail), Answers(m, perMin, NEVER, tail));
  }

  /** If devices are forgotten any sooner, a burst after the Sweep is admitted in full
      although a limiter that never evicts would refuse part of it. */
  lemma SoonerEvictionShows(perMin: nat, maxIdle: nat, lag: nat, d: Device) returns (calls: seq<Call>)
    requires perMin >= 1 && Interval(perMin) > 0 && !KeptLongEnough(perMin, maxIdle, lag)
    ensures Timed(calls, lag, 0)
    ensures Answers(map[], perMin, maxIdle, calls) != Answers(map[], perMin, NEVER, calls)
  {
    if maxIdle + 1 < lag + Interval(perMin) {
      LateProbeShows(perMin, maxIdle, lag, d);
      calls := LateProbe(perMin, maxIdle, lag, d);
    } else {
      SpentProbeShows(perMin, maxIdle, lag, d);
      calls := SpentProbe(perMin, maxIdle, lag, d);
    }
  }

  /** For every lag between the two clock readings of a request, eviction is unobservable if
      and only if entries are kept long enough or the rate is infinite. */
  lemma EvictionThreshold(perMin: nat, maxIdle: nat, lag: nat)
    requires perMin >= 1
    ensures (forall calls :: Timed(calls, lag, 0) ==> Answers(map[], perMin, maxIdle, calls) == Answers(map[], perMin, NEVER, calls))
            <==> Interval(perMin) == 0 || KeptLongEnough(perMin, maxIdle, lag)
  {
    if Interval(perMin) == 0 || KeptLongEnough(perMin, maxIdle, lag) {
      forall calls | Timed(calls, lag, 0)
        ensures Answers(map[], perMin, maxIdle, calls) == Answers(map[], perMin, NEVER, calls)
      {
        EvictionIsUnobservable(perMin, maxIdle, lag, 0, calls);
      }
    } else {
      var calls := SoonerEvictionShows(perMin, maxIdle, lag, "");
    }
  }

  /** With one clock reading per request that is the time a full bucket takes. */
  lemma OneReading(perMin: nat, maxIdle: nat)
    requires perMin >= 1
    ensures KeptLongEnough(perMin, maxIdle, 0) <==> maxIdle + 1 >= Burst(perMin)
  {
    AtLeastOnce(perMin, Interval(perMin));
  }

  // ---- how many requests a window admits -----------------------------------------------------

  /** How many requests of `d` between `from` and `to` are admitted. */
  function Admitted(m: Entries, perMin: nat, maxIdle: int, calls: seq<Call>, d: Device, from: int, to: int): nat
    requires perMin >= 1
    decreases |calls|
  {
    if calls == [] then 0
    else
      match calls[0]
      case Allow(e, seen, at) =>
        (if e == d && from <= at <= to && Admits(m, perMin, e, seen, at) then 1 else 0)
        + Admitted(Allowed(m, perMin, e, seen, at), perMin, maxIdle, calls[1..], d, from, to)
      case Sweep(read) =>
        Admitted(if maxIdle < 0 then m else Swept(m, read - maxIdle), perMin, maxIdle, calls[1..], d, from, to)
  }

  /** What the rest of a window can still cost, seen from `now`. */
  function Allowance(b: Bucket, perMin: nat, now: int, from: int, to: int): int
    requires perMin >= 1
  {
    Max(0, to - Max(Zero(b), Max(now, from) - Burst(perMin)))
  }

  function AllowanceOf(n: Entries, perMin: nat, d: Device, now: int, from: int, to: int): int
    requires perMin >= 1
  {
    if d in n then Allowance(n[d].limiter, perMin, now, from, to) else Burst(perMin) + (to - from)
  }

  lemma OneMoreAdmitted(hit: nat, more: nat, interval: nat, left: int, all: int)
    requires hit <= 1 && more * interval <= left && left + (if hit == 1 then interval else 0) <= all
    ensures (hit + more) * interval <= all
  {
    assert (1 + more) * interval == interval + more * interval;
  }

  /** A request uses up an interval of its device's allowance if it passes within the window. */
  lemma AllowSpends(n: Entries, perMin: nat, lag: nat, now: int, e: Device, seen: int, at: int, d: Device, from: int, to: int)
    requires perMin >= 1 && Interval(perMin) > 0 && now <= seen <= at <= seen + lag && from <= to
    requires e in n ==> EntryOk(n[e], perMin, lag, now)
    ensures AllowanceOf(Allowed(n, perMin, e, seen, at), perMin, d, at, from, to)
            + (if e == d && from <= at <= to && Admits(n, perMin, e, seen, at) then Interval(perMin) else 0)
         <= AllowanceOf(n, perMin, d, now, from, to)
  {
    PositiveBurst(perMin);
  }

  /** What a request adds to what the rest of a run admits. */
  lemma AllowAdmits(n: Entries, perMin: nat, lag: nat, now: int, e: Device, seen: int, at: int, rest: seq<Call>, d: Device, from: int, to: int)
    requires perMin >= 1 && Interval(perMin) > 0 && now <= seen <= at <= seen + lag && from <= to
    requires e in n ==> EntryOk(n[e], perMin, lag, now)
    requires var n' := Allowed(n, perMin, e, seen, at);
             Admitted(n', perMin, NEVER, rest, d, from, to) * Interval(perMin) <= AllowanceOf(n', perMin, d, at, from, to)
    ensures Admitted(n, perMin, NEVER, [Allow(e, seen, at)] + rest, d, from, to) * Interval(perMin)
         <= AllowanceOf(n, perMin, d, now, from, to)
  {
    var calls := [Allow(e, seen, at)] + rest;
    assert calls[0] == Allow(e, seen, at) && calls[1..] == rest;
    var n' := Allowed(n, perMin, e, seen, at);
    var hit := if e == d && from <= at <= to && Admits(n, perMin, e, seen, at) then 1 else 0;
    AllowSpends(n, perMin, lag, now, e, seen, at, d, from, to);
    OneMoreAdmitted(hit, Admitted(n', perMin, NEVER, rest, d, from, to), Interval(perMin),
                    AllowanceOf(n', perMin, d, at, from, to), AllowanceOf(n, perMin, d, now, from, to));
  }

  lemma NobodyAdmitted(n: Entries, perMin: nat, d: Device, now: int, from: int, to: int)
    requires perMin >= 1 && from <= to
    ensures AllowanceOf(n, perMin, d, now, from, to) >= 0
  {
  }

  lemma {:induction false} AdmittedWithinAllowance(n: Entries, perMin: nat, lag: nat, calls: seq<Call>, d: Device, now: int, from: int, to: int)
    requires perMin >= 1 && Interval(perMin) > 0 && Timed(calls, lag, now) && from <= to
    requires forall e :: e in n ==> EntryOk(n[e], perMin, lag, now)
    ensures Admitted(n, perMin, NEVER, calls, d, from, to) * Interval(perMin) <= AllowanceOf(n, perMin, d, now, from, to)
    decreases |calls|
  {
    if calls == [] {
      NobodyAdmitted(n, perMin, d, now, from, to);
    } else {
      match calls[0]
      case Sweep(read) =>
        SweepAdmits(n, perMin, now, read, d, from, to);
        AdmittedWithinAllowance(n, perMin, lag, calls[1..], d, Max(now, read), from, to);
      case Allow(e, seen, at) =>
        AllowAgrees(n, n, perMin, lag, now, e, seen, at);
        AdmittedWithinAllowance(Allowed(n, perMin, e, seen, at), perMin, lag, calls[1..], d, at, from, to);
        AllowAdmits(n, perMin, lag, now, e, seen, at, calls[1..], d, from, to);
        assert [Allow(e, seen, at)] + calls[1..] == calls;
    }
  }

  /** Time that passes only takes away from an allowance. */
  lemma SweepAdmits(n: Entries, perMin: nat, now: int, read: int, d: Device, from: int, to: int)
    requires perMin >= 1
    ensures AllowanceOf(n, perMin, d, Max(now, read), from, to) <= AllowanceOf(n, perMin, d, now, from, to)
  {
  }

  lemma {:induction false} AdmittedByAnswers(m: Entries, n: Entries, perMin: nat, lag: nat, now: int, maxIdle: nat, calls: seq<Call>,
                                             d: Device, from: int, to: int)
    requires perMin >= 1 && Interval(perMin) > 0 && Agree(m, n, perMin, lag, now)
    requires KeptLongEnough(perMin, maxIdle, lag) && Timed(calls, lag, now)
    ensures Admitted(m, perMin, maxIdle, calls, d, from, to) == Admitted(n, perMin, NEVER, calls, d, from, to)
    decreases |calls|
  {
    if calls != [] {
      match calls[0]
      case Allow(e, seen, at) =>
        AllowAgrees(m, n, perMin, lag, now, e, seen, at);
        AdmittedByAnswers(Allowed(m, perMin, e, seen, at), Allowed(n, perMin, e, seen, at), perMin, lag, at, maxIdle, calls[1..], d, from, to);
      case Sweep(read) =>
        SweepAgrees(m, n, perMin, lag, now, maxIdle, read);
        AdmittedByAnswers(Swept(m, read - maxIdle), n, perMin, lag, Max(now, read), maxIdle, calls[1..], d, from, to);
    }
  }

  /** In any window, for any device and with any sweeps, no more pairing requests pass than
      the configured number and one more for every part of the window as long as a minute of
      nanoseconds divided by that number. */
  lemma PairingBound(perMin: nat, maxIdle: nat, lag: nat, now: int, calls: seq<Call>, d: Device, from: int, window: nat)
    requires 1 <= perMin <= 60_000_000_000 && Timed(calls, lag, now)
    requires KeptLongEnough(perMin, maxIdle, lag)
    ensures Admitted(map[], perMin, maxIdle, calls, d, from, from + window) <= perMin + window / (60_000_000_000 / perMin)
  {
    var count := Admitted(map[], perMin, maxIdle, calls, d, from, from + window);
    AdmittedByAnswers(map[], map[], perMin, lag, now, maxIdle, calls, d, from, from + window);
    AdmittedWithinAllowance(map[], perMin, lag, calls, d, now, from, from + window);
    Counting(count, perMin, window, Interval(perMin));
  }

  lemma Counting(count: nat, perMin: nat, window: nat, i: nat)
    requires i > 0 && count * i <= perMin * i + window
    ensures count <= perMin + window / i
  {
    var q := window / i;
    assert window < (q + 1) * i;
    assert count * i < perMin * i + (q + 1) * i == (perMin + q + 1) * i;
    SmallerFactor(count, perMin + q + 1, i);
  }

  lemma SmallerFactor(a: nat, b: nat, i: nat)
    requires a * i < b * i
    ensures a < b
  {
  }

  // ---- and what it lets through --------------------------------------------------------------

  /** The entries after some calls. */
  function EntriesAfter(m: Entries, perMin: nat, maxIdle: int, calls: seq<Call>): Entries
    requires perMin >= 1
    decreases |calls|
  {
    if calls == [] then m
    else
      match calls[0]
      case Allow(d, seen, at) => EntriesAfter(Allowed(m, perMin, d, seen, at), perMin, maxIdle, calls[1..])
      case Sweep(read) => EntriesAfter(if maxIdle < 0 then m else Swept(m, read - maxIdle), perMin, maxIdle, calls[1..])
  }

  lemma {:induction false} AnswersOn(m: Entries, perMin: nat, maxIdle: int, calls: seq<Call>, rest: seq<Call>)
    requires perMin >= 1
    ensures Answers(m, perMin, maxIdle, calls + rest)
         == Answers(m, perMin, maxIdle, calls) + Answers(EntriesAfter(m, perMin, maxIdle, calls), perMin, maxIdle, rest)
    decreases |calls|
  {
    if calls == [] {
      assert calls + rest == rest;
      assert [] + Answers(m, perMin, maxIdle, rest) == Answers(m, perMin, maxIdle, rest);
    } else {
      assert (calls + rest)[1..] == calls[1..] + rest;
      match calls[0]
      case Allow(d, seen, at) =>
        AnswersOn(Allowed(m, perMin, d, seen, at), perMin, maxIdle, calls[1..], rest);
        assert ([Admits(m, perMin, d, seen, at)] + Answers(Allowed(m, perMin, d, seen, at), perMin, maxIdle, calls[1..]))
               + Answers(EntriesAfter(m, perMin, maxIdle, calls), perMin, maxIdle, rest)
            == [Admits(m, perMin, d, seen, at)] + (Answers(Allowed(m, perMin, d, seen, at), perMin, maxIdle, calls[1..])
               + Answers(EntriesAfter(m, perMin, maxIdle, calls), perMin, maxIdle, rest));
      case Sweep(read) =>
        AnswersOn(if maxIdle < 0 then m else Swept(m, read - maxIdle), perMin, maxIdle, calls[1..], rest);
    }
  }

  /** No request of `d` has been seen for a minute when `t` comes, and those before were
      charged by then. */
  ghost predicate Unseen(calls: seq<Call>, d: Device, lag: nat, t: int) {
    forall k :: 0 <= k < |calls| && calls[k].Allow? && calls[k].device == d ==> calls[k].seen + lag + 60_000_000_000 <= t
  }

  ghost predicate Rested(m: Entries, perMin: nat, lag: nat, d: Device, t: int)
    requires perMin >= 1
  {
    d in m ==>
      && 0 <= m[d].limiter.credit <= Burst(perMin) && m[d].limiter.last <= m[d].lastSeen + lag
      && Zero(m[d].limiter) <= m[d].lastSeen + Late(perMin, lag) && m[d].lastSeen + lag + 60_000_000_000 <= t
  }

  lemma {:induction false} StaysRested(m: Entries, perMin: nat, lag: nat, now: int, maxIdle: int, calls: seq<Call>, d: Device, t: int)
    requires perMin >= 1 && Interval(perMin) > 0 && Timed(calls, lag, now) && Unseen(calls, d, lag, t)
    requires (forall e :: e in m ==> EntryOk(m[e], perMin, lag, now)) && Rested(m, perMin, lag, d, t)
    ensures Rested(EntriesAfter(m, perMin, maxIdle, calls), perMin, lag, d, t)
    decreases |calls|
  {
    if calls != [] {
      match calls[0]
      case Allow(e, seen, at) =>
        AllowAgrees(m, m, perMin, lag, now, e, seen, at);
        StaysRested(Allowed(m, perMin, e, seen, at), perMin, lag, at, maxIdle, calls[1..], d, t);
      case Sweep(read) =>
        StaysRested(if maxIdle < 0 then m else Swept(m, read - maxIdle), perMin, lag, Max(now, read), maxIdle, calls[1..], d, t);
    }
  }

  lemma RestedIsFull(m: Entries, perMin: nat, lag: nat, d: Device, t: int)
    requires perMin >= 1 && Interval(perMin) > 0 && Rested(m, perMin, lag, d, t)
    ensures d in m ==> m[d].limiter.last <= t
    ensures Available(BucketOf(m, perMin, d, t), Burst(perMin), t) == perMin * Interval(perMin)
  {
    PositiveBurst(perMin);
    BurstWithinAMinute(perMin);
  }

  /** After any calls, a device not seen for a minute has the configured number of requests
      admitted at one moment, and the next one if and only if a minute divided by that
      number has passed since. */
  lemma RateIsGranted(perMin: nat, maxIdle: int, lag: nat, now: int, calls: seq<Call>, d: Device, t: int, seen: int, at: int)
    requires 1 <= perMin <= 60_000_000_000 && Timed(calls, lag, now) && Unseen(calls, d, lag, t) && t <= at
    ensures Answers(map[], perMin, maxIdle, calls + (Volley(d, t, perMin) + [Allow(d, seen, at)]))
         == Answers(map[], perMin, maxIdle, calls) + (AllTrue(perMin) + [at - t >= 60_000_000_000 / perMin])
  {
    var m, next := EntriesAfter(map[], perMin, maxIdle, calls), [Allow(d, seen, at)];
    AnswersOn(map[], perMin, maxIdle, calls, Volley(d, t, perMin) + next);
    StaysRested(map[], perMin, lag, now, maxIdle, calls, d, t);
    RestedIsFull(m, perMin, lag, d, t);
    VolleyAdmitted(m, perMin, maxIdle, d, t, perMin, next);
    NextAfterVolley(m, perMin, maxIdle, d, t, seen, at);
  }

  lemma NextAfterVolley(m: Entries, perMin: nat, maxIdle: int, d: Device, t: int, seen: int, at: int)
    requires perMin >= 1 && Interval(perMin) > 0 && t <= at
    requires Available(BucketOf(m, perMin, d, t), Burst(perMin), t) == perMin * Interval(perMin)
    ensures Answers(AfterVolley(m, perMin, d, t, perMin), perMin, maxIdle, [Allow(d, seen, at)]) == [at - t >= Interval(perMin)]
  {
    var spent := AfterVolley(m, perMin, d, t, perMin);
    PositiveBurst(perMin);
    assert spent[d].limiter == Bucket(0, t);
    assert Answers(Allowed(spent, perMin, d, seen, at), perMin, maxIdle, []) == [];
    assert [Allow(d, seen, at)][1..] == [];
  }

  // ---- the objects -------------------------------------------------------------------------------

  class Tracked {
    var limiter: Bucket
    var lastSeen: int

    constructor (limiter: Bucket)
      ensures this.limiter == limiter
    {
      this.limiter := limiter;
      lastSeen := 0;
    }
  }

  class Limiter {
    var limiters: map<Device, Tracked>
    const perMin: nat

    constructor (perMin: nat)
      requires perMin >= 1
      ensures Valid() && View() == map[] && this.perMin == perMin
    {
      limiters := map[];
      this.perMin := perMin;
    }

    /** Entries are not shared between devices. */
    ghost predicate Valid()
      reads this
    {
      perMin >= 1 && forall d, e :: d in limiters && e in limiters && limiters[d] == limiters[e] ==> d == e
    }

    ghost function View(): Entries
      reads this, limiters.Values
    {
      map d | d in limiters :: Entry(limiters[d].limiter, limiters[d].lastSeen)
    }

    /** The entry of a device, made if there is none. */
    method EntryOf(deviceID: Device, seen: int) returns (e: Tracked)
      requires Valid()
      modifies this`limiters
      ensures Valid() && limiters == old(limiters)[deviceID := e]
      ensures deviceID in old(limiters) ==> e == old(limiters)[deviceID]
      ensures deviceID !in old(limiters) ==> fresh(e) && e.limiter == Fresh(Burst(perMin), seen)
    {
      if deviceID !in limiters {
        var made := new Tracked(Fresh(Burst(perMin), seen));
        limiters := limiters[deviceID := made];
      }
      e := limiters[deviceID];
    }

    /** `seen` and `at` are the clock as read for the entry and inside the limiter. */
    method Allow(deviceID: Device, seen: int, at: int) returns (ok: bool)
      requires Valid()
      modifies this, limiters.Values
      ensures Valid()
      ensures ok == Admits(old(View()), perMin, deviceID, seen, at)
      ensures View() == Allowed(old(View()), perMin, deviceID, seen, at)
    {
      var e := EntryOf(deviceID, seen);
      e.lastSeen := seen;
      ok := Interval(perMin) == 0 || Available(e.limiter, Burst(perMin), at) >= Interval(perMin);
      if ok && Interval(perMin) != 0 {
        e.limiter := Take(e.limiter, Burst(perMin), Interval(perMin), at);
      }
    }

    /** Forgets devices idle for longer than `maxIdle`; `now` is the clock read beforehand. */
    method Sweep(maxIdle: nat, now: int) returns (removed: nat)
      requires Valid()
      modifies this`limiters
      ensures Valid()
      ensures View() == Swept(old(View()), now - maxIdle)
      ensures removed == |old(limiters)| - |limiters|
    {
      var cutoff := now - maxIdle;
      removed := 0;
      ghost var all := limiters;
      var todo := limiters.Keys;
      while todo != {}
        invariant todo <= all.Keys
        invariant forall d :: d in limiters <==> d in all && (d in todo || all[d].lastSeen >= cutoff)
        invariant forall d :: d in limiters ==> limiters[d] == all[d]
        invariant removed == |all| - |limiters|
        decreases todo
      {
        var id :| id in todo;
        todo := todo - {id};
        if limiters[id].lastSeen < cutoff {
          Drop(limiters, id);
          limiters := limiters - {id};
          removed := removed + 1;
        }
      }
    }

    static lemma Drop(m: map<Device, Tracked>, d: Device)
      requires d in m
      ensures |m - {d}| == |m| - 1
    {
      assert m == (m - {d})[d := m[d]];
    }
  }
}
