/** One bytes-per-second budget shared by every stream of a device. */
module BandwidthPool {
  import opened Common
  import opened Bucket

  type Rid = nat
  type Bid = nat

  /** Nanoseconds in a second: what one byte costs, in credit of a byte-nanosecond. */
  const SECOND := 1_000_000_000

  /** One second's worth, at most a mebibyte. */
  function Burst(bps: nat): nat {
    Min(bps, 0x10_0000)
  }

  function Full(bps: nat): nat {
    Burst(bps) * SECOND
  }

  /** A reader keeps the limiter it was wrapped with.  `touched` is when it last told the
      pool it is alive, `ready` when its last read may return. */
  datatype Reader = Reader(bid: Bid, touched: int, ready: int)

  datatype Entry = Entry(bid: Bid, lastSeen: int)

  /** What the pool knows of one device, every limiter it ever made for it, and the open
      readers.  All times count byte-nanoseconds: a moment of `t` ns is `t * bps`. */
  datatype Account = Account(entry: Option<Entry>, buckets: seq<Bucket>, readers: map<Rid, Reader>)

  const NONE := Account(None, [], map[])

  datatype Call =
    | Wrap(r: Rid, seen: int)
    | Read(r: Rid, seen: int, at: int, n: nat)
    | Close(r: Rid, at: int)
    | Sweep(read: int)

  /** Wrap: the entry's limiter, or a new one. */
  function Wrapped(a: Account, bps: nat, r: Rid, seen: int): Account {
    if a.entry.Some? then
      a.(entry := Some(a.entry.value.(lastSeen := seen)), readers := a.readers[r := Reader(a.entry.value.bid, seen, seen)])
    else
      Account(Some(Entry(|a.buckets|, seen)), a.buckets + [Fresh(Full(bps), seen)],
              a.readers[r := Reader(|a.buckets|, seen, seen)])
  }

  function ReadyOf(a: Account, bps: nat, r: Rid, at: int, n: nat): int
    requires r in a.readers && a.readers[r].bid < |a.buckets|
  {
    ReadyAt(a.buckets[a.readers[r].bid], Full(bps), n * SECOND, at)
  }

  /** A read that brought `n` bytes: touch the entry if there is one, then wait. */
  function AfterRead(a: Account, bps: nat, r: Rid, seen: int, at: int, n: nat): Account
    requires r in a.readers && a.readers[r].bid < |a.buckets|
  {
    var bid := a.readers[r].bid;
    Account(if a.entry.Some? then Some(a.entry.value.(lastSeen := seen)) else None,
            a.buckets[bid := Take(a.buckets[bid], Full(bps), n * SECOND, at)],
            a.readers[r := Reader(bid, seen, ReadyOf(a, bps, r, at, n))])
  }

  function Swept(a: Account, maxIdle: nat, read: int): Account {
    if a.entry.Some? && a.entry.value.lastSeen < read - maxIdle then a.(entry := None) else a
  }

  /** `lag` is how far apart the two clock readings of a read may be, `streams` how many
      readers may be open, and `buf` how many bytes are asked for at a time. */
  datatype Params = Params(bps: nat, maxIdle: nat, lag: nat, streams: nat, buf: nat)

  /** The most one read can bring, and what that costs. */
  function Chunk(p: Params): (n: nat)
    ensures n <= Burst(p.bps) && n <= p.buf
  {
    Min(p.buf, Burst(p.bps))
  }

  function Cost(p: Params): (c: nat)
    ensures c <= Full(p.bps)
  {
    Chunk(p) * SECOND
  }

  predicate Can(a: Account, p: Params, now: int, c: Call) {
    match c
    case Wrap(r, seen) => r !in a.readers && now <= seen && |a.readers| < p.streams
    case Read(r, seen, at, n) =>
      && r in a.readers && a.readers[r].bid < |a.buckets| && a.readers[r].ready <= seen
      && now <= seen <= at <= seen + p.lag && 1 <= n <= Chunk(p)
    case Close(r, at) => r in a.readers && a.readers[r].ready <= at && now <= at
    case Sweep(_) => true
  }

  function After(a: Account, p: Params, c: Call): Account
    requires c.Read? ==> c.r in a.readers && a.readers[c.r].bid < |a.buckets|
  {
    match c
    case Wrap(r, seen) => Wrapped(a, p.bps, r, seen)
    case Read(r, seen, at, n) => AfterRead(a, p.bps, r, seen, at, n)
    case Close(r, _) => a.(readers := a.readers - {r})
    case Sweep(read) => Swept(a, p.maxIdle, read)
  }

  function Clock(now: int, c: Call): int {
    match c
    case Wrap(_, seen) => seen
    case Read(_, _, at, _) => at
    case Close(_, at) => at
    case Sweep(read) => Max(now, read)
  }

  /** Calls in the order of the locks they take: a reader reads again, or is closed, once
      its last read has returned, and at most `streams` readers are open. */
  ghost predicate Plays(a: Account, p: Params, now: int, calls: seq<Call>)
    decreases |calls|
  {
    calls != [] ==> Can(a, p, now, calls[0]) && Plays(After(a, p, calls[0]), p, Clock(now, calls[0]), calls[1..])
  }

  /** No open reader has gone `maxIdle` without a byte when a Sweep looks. */
  predicate Fed(a: Account, p: Params, c: Call) {
    c.Sweep? ==> forall r :: r in a.readers ==> a.readers[r].touched >= c.read - p.maxIdle
  }

  ghost predicate AllFed(a: Account, p: Params, now: int, calls: seq<Call>)
    requires Plays(a, p, now, calls)
    decreases |calls|
  {
    calls != [] ==> Fed(a, p, calls[0]) && AllFed(After(a, p, calls[0]), p, Clock(now, calls[0]), calls[1..])
  }

  /** What a call contributes to the window: a read counts when it returns. */
  function Part(a: Account, p: Params, c: Call, from: int, to: int): nat
    requires c.Read? ==> c.r in a.readers && a.readers[c.r].bid < |a.buckets|
  {
    if c.Read? && from <= ReadyOf(a, p.bps, c.r, c.at, c.n) <= to then c.n * SECOND else 0
  }

  /** The credit spent by all reads that return between `from` and `to`. */
  ghost function Returned(a: Account, p: Params, now: int, calls: seq<Call>, from: int, to: int): nat
    requires Plays(a, p, now, calls)
    decreases |calls|
  {
    if calls == [] then 0
    else
      var c := calls[0];
      Part(a, p, c, from, to) + Returned(After(a, p, c), p, Clock(now, c), calls[1..], from, to)
  }

  // ---- what runs keep ---------------------------------------------------------------------------

  /** Reads that have not returned at `t`. */
  function InFlight(a: Account, t: int): set<Rid> {
    set r | r in a.readers && a.readers[r].ready > t
  }

  ghost predicate BucketOk(a: Account, p: Params, now: int)
    requires a.entry.Some? && a.entry.value.bid < |a.buckets|
  {
    var e, b := a.entry.value, a.buckets[a.entry.value.bid];
    && e.lastSeen <= now && b.last <= now
    && Zero(b) <= e.lastSeen + Max(p.streams * Cost(p), p.lag + Cost(p) - Full(p.bps))
    && forall t :: now <= t ==> Zero(b) <= t + |InFlight(a, t)| * Cost(p)
  }

  /** An entry is kept until its bucket must have filled up again: a read may wait for one
      of each open stream, and the two clock readings of a read may be `lag` apart. */
  predicate KeptLongEnough(p: Params) {
    p.maxIdle + 1 >= Max(p.streams * Cost(p) + Full(p.bps), p.lag + Cost(p))
  }

  /** Every open reader draws from the device's current limiter. */
  ghost predicate Ok(a: Account, p: Params, now: int) {
    && |a.readers| <= p.streams
    && (a.entry.None? ==> a.readers == map[])
    && (a.entry.Some? ==>
          && a.entry.value.bid < |a.buckets|
          && (forall r :: r in a.readers ==> a.readers[r].bid == a.entry.value.bid && a.readers[r].touched <= a.entry.value.lastSeen)
          && BucketOk(a, p, now))
  }

  lemma FlightGrows(a: Account, r: Rid, x: Reader, u: int, t: int)
    requires u <= t && (r in a.readers ==> a.readers[r].ready <= u)
    ensures var f := InFlight(a.(readers := a.readers[r := x]), t);
            f == InFlight(a, t) + (if x.ready > t then {r} else {})
            && |f| == |InFlight(a, t)| + (if x.ready > t then 1 else 0)
  {
    var f := InFlight(a.(readers := a.readers[r := x]), t);
    assert f == InFlight(a, t) + (if x.ready > t then {r} else {});
    assert r !in InFlight(a, t);
  }

  lemma {:induction false} Subset<X>(s: set<X>, t: set<X>)
    requires s <= t
    ensures |s| <= |t|
    decreases t
  {
    if s != {} {
      var x :| x in s;
      Subset(s - {x}, t - {x});
    }
  }

  lemma OneMore(k: nat, f: nat)
    ensures (k + 1) * f == k * f + f && k * f >= 0
  {
  }

  lemma WrapFlight(a: Account, p: Params, now: int, r: Rid, seen: int, t: int)
    requires Can(a, p, now, Wrap(r, seen)) && seen <= t
    ensures InFlight(Wrapped(a, p.bps, r, seen), t) == InFlight(a, t)
  {
  }

  lemma WrapKeeps(a: Account, p: Params, now: int, r: Rid, seen: int)
    requires Ok(a, p, now) && Can(a, p, now, Wrap(r, seen))
    ensures Ok(Wrapped(a, p.bps, r, seen), p, seen)
  {
    var a' := Wrapped(a, p.bps, r, seen);
    OneMore(p.streams, Cost(p));
    forall t | seen <= t ensures Zero(a'.buckets[a'.entry.value.bid]) <= t + |InFlight(a', t)| * Cost(p) {
      WrapFlight(a, p, now, r, seen, t);
      OneMore(|InFlight(a, t)|, Cost(p));
    }
    assert |a'.readers| == |a.readers| + 1;
  }

  /** A read waits for the reads in flight, its own included, no longer: for each of them as
      long as its most bytes take. */
  lemma ReadWaits(a: Account, p: Params, now: int, c: Call, t: int)
    requires Ok(a, p, now) && Can(a, p, now, c) && c.Read? && c.at <= t
    ensures var a' := AfterRead(a, p.bps, c.r, c.seen, c.at, c.n);
            && Zero(a'.buckets[a'.entry.value.bid]) <= t + |InFlight(a', t)| * Cost(p)
            && Cost(p) == Min(p.buf, Min(p.bps, 1_048_576)) * 1_000_000_000
  {
    var a' := AfterRead(a, p.bps, c.r, c.seen, c.at, c.n);
    var b := a.buckets[a.entry.value.bid];
    var k := |InFlight(a, t)|;
    assert Zero(b) <= t + k * Cost(p);
    TakeMovesZero(b, Full(p.bps), c.n * SECOND, c.at);
    FlightGrows(a, c.r, a'.readers[c.r], c.at, t);
    assert InFlight(a', t) == InFlight(a.(readers := a.readers[c.r := a'.readers[c.r]]), t);
    assert c.n * SECOND <= Cost(p);
    OneMore(k, Cost(p));
  }

  /** When a reader reads, the reads it can have to wait for are those of the others. */
  lemma ReadersAhead(a: Account, p: Params, now: int, c: Call)
    requires Ok(a, p, now) && Can(a, p, now, c) && c.Read?
    ensures Zero(a.buckets[a.entry.value.bid]) + Cost(p) <= c.seen + p.streams * Cost(p)
  {
    var others := InFlight(a, c.seen);
    assert others <= a.readers.Keys - {c.r};
    Subset(others, a.readers.Keys - {c.r});
    OneMore(|others|, Cost(p));
    Scaled(|others| + 1, p.streams, Cost(p));
  }

  lemma ReadKeeps(a: Account, p: Params, now: int, c: Call)
    requires Ok(a, p, now) && Can(a, p, now, c) && c.Read?
    ensures Ok(AfterRead(a, p.bps, c.r, c.seen, c.at, c.n), p, c.at)
  {
    var a' := AfterRead(a, p.bps, c.r, c.seen, c.at, c.n);
    assert a'.readers.Keys == a.readers.Keys;
    assert |a'.readers| == |a'.readers.Keys|;
    forall t | c.at <= t ensures Zero(a'.buckets[a'.entry.value.bid]) <= t + |InFlight(a', t)| * Cost(p) {
      ReadWaits(a, p, now, c, t);
    }
    ReadersAhead(a, p, now, c);
    TakeMovesZero(a.buckets[a.entry.value.bid], Full(p.bps), c.n * SECOND, c.at);
    assert c.n * SECOND <= Cost(p);
  }

  lemma Scaled(k: nat, n: nat, f: nat)
    requires k <= n
    ensures k * f <= n * f
  {
  }

  lemma CloseKeeps(a: Account, p: Params, now: int, r: Rid, at: int)
    requires Ok(a, p, now) && Can(a, p, now, Close(r, at)) && a.entry.Some?
    ensures Ok(a.(readers := a.readers - {r}), p, at)
  {
    var a' := a.(readers := a.readers - {r});
    assert a.readers == a'.readers[r := a.readers[r]];
    forall t | at <= t ensures Zero(a'.buckets[a'.entry.value.bid]) <= t + |InFlight(a', t)| * Cost(p) {
      assert InFlight(a', t) == InFlight(a, t);
    }
  }

  /** When a fed account is evicted nobody is reading any more, and with enough idle time
      its bucket has filled up again. */
  lemma EvictedIsRecovered(a: Account, p: Params, now: int, read: int)
    requires Ok(a, p, now) && Fed(a, p, Sweep(read)) && a.entry.Some? && a.entry.value.lastSeen < read - p.maxIdle
    requires KeptLongEnough(p)
    ensures a.readers == map[]
    ensures Zero(a.buckets[a.entry.value.bid]) + Full(p.bps) <= read
  {
    assert forall r :: r !in a.readers;
    assert a.readers == map[];
  }

  lemma CallKeeps(a: Account, p: Params, now: int, c: Call)
    requires Ok(a, p, now) && Can(a, p, now, c) && Fed(a, p, c)
    requires KeptLongEnough(p)
    ensures Ok(After(a, p, c), p, Clock(now, c))
  {
    match c
    case Wrap(r, seen) => WrapKeeps(a, p, now, r, seen);
    case Read(_, _, _, _) => ReadKeeps(a, p, now, c);
    case Close(r, at) => CloseKeeps(a, p, now, r, at);
    case Sweep(read) =>
      if a.entry.Some? && a.entry.value.lastSeen < read - p.maxIdle {
        EvictedIsRecovered(a, p, now, read);
      }
  }

  // ---- the shared bound ---------------------------------------------------------------------------

  /** What may still be spent on reads that return by `to`, seen from `now`. */
  function Allowance(a: Account, p: Params, now: int, from: int, to: int): int {
    var idle := Max(from, now) - Full(p.bps);
    if a.entry.Some? && a.entry.value.bid < |a.buckets|
    then Max(0, to - Max(Zero(a.buckets[a.entry.value.bid]), idle))
    else Max(0, to - idle)
  }

  lemma CallSpends(a: Account, p: Params, now: int, c: Call, from: int, to: int)
    requires Ok(a, p, now) && Can(a, p, now, c) && Fed(a, p, c)
    requires KeptLongEnough(p)
    ensures Allowance(After(a, p, c), p, Clock(now, c), from, to)
            + Part(a, p, c, from, to)
         <= Allowance(a, p, now, from, to)
  {
    if c.Read? {
      var b := a.buckets[a.entry.value.bid];
      TakeMovesZero(b, Full(p.bps), c.n * SECOND, c.at);
      assert c.n * SECOND <= Full(p.bps);
    } else if c.Sweep? && a.entry.Some? && a.entry.value.lastSeen < c.read - p.maxIdle {
      EvictedIsRecovered(a, p, now, c.read);
    }
  }

  lemma {:induction false} ReturnedWithinAllowance(a: Account, p: Params, now: int, calls: seq<Call>, from: int, to: int)
    requires Ok(a, p, now) && Plays(a, p, now, calls) && AllFed(a, p, now, calls)
    requires KeptLongEnough(p)
    ensures Returned(a, p, now, calls, from, to) <= Allowance(a, p, now, from, to)
    decreases |calls|
  {
    if calls != [] {
      CallKeeps(a, p, now, calls[0]);
      CallSpends(a, p, now, calls[0], from, to);
      ReturnedWithinAllowance(After(a, p, calls[0]), p, Clock(now, calls[0]), calls[1..], from, to);
    }
  }

  /** However many readers of one device read in whatever order, and whatever Sweep evicts,
      the bytes returned in any window cost at most the burst plus the window, as long as no
      open reader goes `maxIdle` without a byte and entries are kept long enough. */
  lemma SharedBudget(p: Params, now: int, calls: seq<Call>, from: int, to: int)
    requires Plays(NONE, p, now, calls) && AllFed(NONE, p, now, calls) && from <= to
    requires KeptLongEnough(p)
    ensures Returned(NONE, p, now, calls, from, to) <= Full(p.bps) + (to - from)
  {
    ReturnedWithinAllowance(NONE, p, now, calls, from, to);
  }

  // ---- the bound in bytes ---------------------------------------------------------------------------

  /** The bytes of all reads that return between `from` and `to`. */
  ghost function BytesReturned(a: Account, p: Params, now: int, calls: seq<Call>, from: int, to: int): nat
    requires Plays(a, p, now, calls)
    decreases |calls|
  {
    if calls == [] then 0
    else
      var c := calls[0];
      (if c.Read? && from <= ReadyOf(a, p.bps, c.r, c.at, c.n) <= to then c.n else 0)
      + BytesReturned(After(a, p, c), p, Clock(now, c), calls[1..], from, to)
  }

  lemma {:induction false} BytesCost(a: Account, p: Params, now: int, calls: seq<Call>, from: int, to: int)
    requires Plays(a, p, now, calls)
    ensures Returned(a, p, now, calls, from, to) == BytesReturned(a, p, now, calls, from, to) * SECOND
    decreases |calls|
  {
    if calls != [] {
      BytesCost(After(a, p, calls[0]), p, Clock(now, calls[0]), calls[1..], from, to);
    }
  }

  /** So in any `w` seconds no more is returned than the configured number of bytes for each
      of them and one second's worth, at most a mebibyte, of burst. */
  lemma SharedBudgetInBytes(p: Params, now: int, calls: seq<Call>, from: int, to: int, w: nat)
    requires Plays(NONE, p, now, calls) && AllFed(NONE, p, now, calls) && KeptLongEnough(p)
    requires to - from == w * p.bps * 1_000_000_000
    ensures BytesReturned(NONE, p, now, calls, from, to) <= (if p.bps < 1_048_576 then p.bps else 1_048_576) + w * p.bps
  {
    SharedBudget(p, now, calls, from, to);
    BytesCost(NONE, p, now, calls, from, to);
  }

  // ---- the objects --------------------------------------------------------------------------------

  type Device = string

  /** A rate.Limiter shared by the readers of a device. */
  class Limiter {
    var bucket: Bucket
    const full: nat

    constructor (bps: nat, now: int)
      ensures full == Full(bps) && bucket == Fresh(full, now)
    {
      full := Full(bps);
      bucket := Fresh(Full(bps), now);
    }

    /** Reserves and says when the wait is over. */
    method WaitN(n: nat, at: int) returns (ready: int)
      modifies this`bucket
      ensures ready == ReadyAt(old(bucket), full, n * SECOND, at)
      ensures bucket == Take(old(bucket), full, n * SECOND, at)
    {
      ready := ReadyAt(bucket, full, n * SECOND, at);
      bucket := Take(bucket, full, n * SECOND, at);
    }
  }

  class PoolEntry {
    const limiter: Limiter
    var lastSeen: int

    constructor (limiter: Limiter, lastSeen: int)
      ensures this.limiter == limiter && this.lastSeen == lastSeen
    {
      this.limiter, this.lastSeen := limiter, lastSeen;
    }
  }

  class Pool {
    var limiters: map<Device, PoolEntry>
    const bps: nat

    constructor (bps: nat)
      ensures Valid() && limiters == map[] && this.bps == bps
    {
      limiters := map[];
      this.bps := bps;
    }

    ghost predicate Valid()
      reads this
    {
      && (forall d :: d in limiters ==> limiters[d].limiter.full == Full(bps))
      && (forall d, e :: d in limiters && e in limiters && limiters[d] == limiters[e] ==> d == e)
    }

    /** A reader on the device's limiter, made if there is none; no reader without a limit. */
    method Wrap(deviceID: Device, now: int) returns (r: Option<LimitedReader>)
      requires Valid()
      modifies this, limiters.Values
      ensures Valid()
      ensures bps == 0 ==> r.None? && limiters == old(limiters)
      ensures bps > 0 ==>
                && r.Some? && fresh(r.value) && r.value.pool == this && r.value.device == deviceID
                && deviceID in limiters && limiters == old(limiters)[deviceID := limiters[deviceID]]
                && limiters[deviceID].limiter == r.value.limiter && limiters[deviceID].lastSeen == now
                && (if deviceID in old(limiters)
                    then limiters[deviceID] == old(limiters)[deviceID] && r.value.limiter.bucket == old(limiters[deviceID].limiter.bucket)
                    else fresh(r.value.limiter) && r.value.limiter.bucket == Fresh(Full(bps), now))
      ensures forall d | d in old(limiters) && d != deviceID :: limiters[d].lastSeen == old(limiters[d].lastSeen)
    {
      if bps == 0 {
        return None;
      }
      if deviceID !in limiters {
        var limiter := new Limiter(bps, now);
        var e := new PoolEntry(limiter, now);
        limiters := limiters[deviceID := e];
      }
      limiters[deviceID].lastSeen := now;
      var reader := new LimitedReader(this, deviceID, limiters[deviceID].limiter);
      r := Some(reader);
    }

    /** Keeps the device's entry, if it still has one, from being forgotten. */
    method Touch(deviceID: Device, now: int)
      requires Valid()
      modifies limiters.Values
      ensures deviceID in limiters ==> limiters[deviceID].lastSeen == now
      ensures forall d | d in limiters && d != deviceID :: limiters[d].lastSeen == old(limiters[d].lastSeen)
    {
      if deviceID in limiters {
        limiters[deviceID].lastSeen := now;
      }
    }

    /** Forgets devices idle for longer than `maxIdle`; readers keep their limiter. */
    method Sweep(maxIdle: nat, now: int) returns (removed: nat)
      requires Valid()
      modifies this`limiters
      ensures Valid()
      ensures forall d :: d in limiters <==> d in old(limiters) && old(limiters)[d].lastSeen >= now - maxIdle
      ensures forall d :: d in limiters ==> limiters[d] == old(limiters)[d]
      ensures removed == |old(limiters)| - |limiters|
    {
      var cutoff := now - maxIdle;
      removed := 0;
      ghost var all := limiters;
      var todo := limiters.Keys;
      while todo != {}
        invariant todo <= all.Keys
        invariant forall d :: d in limiters <==> d in all && (d in todo || all[d].lastSeen >= cutoff)
        invariant forall d :: d in limiters ==> limiters[d] == all[d]
        invariant removed == |all| - |limiters|
        decreases todo
      {
        var id :| id in todo;
        todo := todo - {id};
        if limiters[id].lastSeen < cutoff {
          assert limiters == (limiters - {id})[id := limiters[id]];
          limiters := limiters - {id};
          removed := removed + 1;
        }
      }
    }
  }

  class LimitedReader {
    const pool: Pool
    const device: Device
    const limiter: Limiter

    constructor (pool: Pool, device: Device, limiter: Limiter)
      ensures this.pool == pool && this.device == device && this.limiter == limiter
    {
      this.pool, this.device, this.limiter := pool, device, limiter;
    }

    /** How much is asked of the source: never more than the burst. */
    method Ask(size: nat) returns (ask: nat)
      ensures ask == Min(size, Min(pool.bps, 1_048_576))
    {
      var burst := Burst(pool.bps);
      ask := if size > burst then burst else size;
    }

    /** The source has returned `n` bytes; `ready` is when they may be handed on. */
    method Deliver(n: nat, seen: int, at: int) returns (ready: int)
      requires pool.Valid() && n <= Burst(pool.bps)
      modifies pool.limiters.Values, limiter
      ensures n == 0 ==> ready == at && limiter.bucket == old(limiter.bucket)
      ensures n > 0 ==>
                && ready == ReadyAt(old(limiter.bucket), limiter.full, n * SECOND, at)
                && limiter.bucket == Take(old(limiter.bucket), limiter.full, n * SECOND, at)
                && (device in pool.limiters ==> pool.limiters[device].lastSeen == seen)
      ensures forall d | d in pool.limiters && (n == 0 || d != device) :: pool.limiters[d].lastSeen == old(pool.limiters[d].lastSeen)
    {
      ready := at;
      if n > 0 {
        pool.Touch(device, seen);
        ready := limiter.WaitN(n, at);
      }
    }
  }
}
