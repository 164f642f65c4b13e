/** When the shared bandwidth budget can be exceeded: the runs that do it, and the exact
    idle time from which on none does.  Times count byte-nanoseconds, which are finer than
    the ticks of a clock: in nanoseconds the idle time is exact to within one. */
module BudgetThreshold {
  import opened Common
  import opened Bucket
  import opened BandwidthPool
  import Pump

  /** Something can be read at all. */
  predicate Readable(p: Params) {
    p.bps >= 1 && p.streams >= 1 && p.buf >= 1
  }

  /** One call before a run. */
  lemma Before(a: Account, p: Params, now: int, c: Call, rest: seq<Call>, from: int, to: int)
    requires Can(a, p, now, c) && Plays(After(a, p, c), p, Clock(now, c), rest)
    ensures Plays(a, p, now, [c] + rest)
    ensures Fed(a, p, c) && AllFed(After(a, p, c), p, Clock(now, c), rest) ==> AllFed(a, p, now, [c] + rest)
    ensures Returned(a, p, now, [c] + rest, from, to)
         == Part(a, p, c, from, to) + Returned(After(a, p, c), p, Clock(now, c), rest, from, to)
  {
    assert ([c] + rest)[1..] == rest;
  }

  // ---- a reader that takes all there is ------------------------------------------------------------

  /** `left` bytes read at one moment, as many at a time as a read brings. */
  function Drain(p: Params, r: Rid, t: int, left: nat, rest: seq<Call>): seq<Call>
    requires Readable(p)
    decreases left
  {
    if left == 0 then rest
    else if left <= Chunk(p) then [Read(r, t, t, left)] + rest
    else [Read(r, t, t, Chunk(p))] + Drain(p, r, t, left - Chunk(p), rest)
  }

  function Drained(a: Account, r: Rid, t: int): Account
    requires r in a.readers && a.readers[r].bid < |a.buckets|
  {
    var bid := a.readers[r].bid;
    Account(if a.entry.Some? then Some(a.entry.value.(lastSeen := t)) else None,
            a.buckets[bid := Bucket(0, t)], a.readers[r := Reader(bid, t, t)])
  }

  /** Reader `r` finds credit for exactly `left` bytes at `t`. */
  predicate Loaded(a: Account, p: Params, r: Rid, t: int, left: nat) {
    && r in a.readers && a.readers[r].bid < |a.buckets| && a.readers[r].ready <= t
    && a.buckets[a.readers[r].bid].last <= t
    && Available(a.buckets[a.readers[r].bid], Full(p.bps), t) == left * SECOND
  }

  lemma OneRead(a: Account, p: Params, r: Rid, t: int, left: nat, n: nat)
    requires Loaded(a, p, r, t, left) && 1 <= n <= left && n <= Chunk(p)
    ensures Can(a, p, t, Read(r, t, t, n))
    ensures ReadyOf(a, p.bps, r, t, n) == t
    ensures var a' := After(a, p, Read(r, t, t, n));
            && Loaded(a', p, r, t, left - n) && Drained(a', r, t) == Drained(a, r, t)
            && (n == left ==> a' == Drained(a, r, t))
  {
  }

  lemma {:induction false} DrainReturns(a: Account, p: Params, r: Rid, t: int, left: nat, rest: seq<Call>, from: int, to: int)
    requires Readable(p) && Loaded(a, p, r, t, left) && left >= 1 && from <= t <= to
    requires Plays(Drained(a, r, t), p, t, rest)
    ensures Plays(a, p, t, Drain(p, r, t, left, rest))
    ensures AllFed(Drained(a, r, t), p, t, rest) ==> AllFed(a, p, t, Drain(p, r, t, left, rest))
    ensures Returned(a, p, t, Drain(p, r, t, left, rest), from, to)
         == left * SECOND + Returned(Drained(a, r, t), p, t, rest, from, to)
    decreases left
  {
    if left <= Chunk(p) {
      OneRead(a, p, r, t, left, left);
      Before(a, p, t, Read(r, t, t, left), rest, from, to);
    } else {
      var n := Chunk(p);
      var read := Read(r, t, t, n);
      OneRead(a, p, r, t, left, n);
      DrainReturns(After(a, p, read), p, r, t, left - n, rest, from, to);
      Before(a, p, t, read, Drain(p, r, t, left - n, rest), from, to);
    }
  }

  // ---- a new stream after the Sweep -----------------------------------------------------------------

  /** A device with an entry last seen at zero and no open reader. */
  function Deserted(credit: int, last: int): Account {
    Account(Some(Entry(0, 0)), [Bucket(credit, last)], map[])
  }

  /** A stream opened and read from at once. */
  function Visit(p: Params, r: Rid, t: int): seq<Call>
    requires Readable(p)
  {
    [Wrap(r, t)] + Drain(p, r, t, Burst(p.bps), [])
  }

  lemma VisitReturns(p: Params, b: Bucket, r: Rid, t: int, from: int)
    requires Readable(p) && from <= t
    ensures var a := Account(None, [b], map[]);
            && Plays(a, p, t, Visit(p, r, t)) && AllFed(a, p, t, Visit(p, r, t))
            && Returned(a, p, t, Visit(p, r, t), from, t) == Full(p.bps)
  {
    var a := Account(None, [b], map[]);
    var a' := After(a, p, Wrap(r, t));
    assert a' == Account(Some(Entry(1, t)), [b, Fresh(Full(p.bps), t)], map[r := Reader(1, t, t)]);
    DrainReturns(a', p, r, t, Burst(p.bps), [], from, t);
    Before(a, p, t, Wrap(r, t), Drain(p, r, t, Burst(p.bps), []), from, t);
  }

  /** A device with no open stream and no entry has the whole burst returned at once. */
  lemma BurstAtOnce(p: Params, r: Rid, t: int)
    requires Readable(p)
    ensures Plays(NONE, p, t, Visit(p, r, t)) && AllFed(NONE, p, t, Visit(p, r, t))
    ensures BytesReturned(NONE, p, t, Visit(p, r, t), t, t) == if p.bps < 1_048_576 then p.bps else 1_048_576
  {
    var a := After(NONE, p, Wrap(r, t));
    assert a == Account(Some(Entry(0, t)), [Fresh(Full(p.bps), t)], map[r := Reader(0, t, t)]);
    DrainReturns(a, p, r, t, Burst(p.bps), [], t, t);
    Before(NONE, p, t, Wrap(r, t), Drain(p, r, t, Burst(p.bps), []), t, t);
    BytesCost(NONE, p, t, Visit(p, r, t), t, t);
  }

  function Newcomer(p: Params, t: int): seq<Call>
    requires Readable(p)
  {
    [Sweep(t)] + Visit(p, 0, t)
  }

  /** Once its entry is old enough to be swept, a new stream of the device gets a full burst. */
  lemma NewcomerReturns(p: Params, credit: int, last: int, now: int, t: int, from: int)
    requires Readable(p) && now <= t && from <= t && p.maxIdle + 1 <= t
    ensures Plays(Deserted(credit, last), p, now, Newcomer(p, t))
    ensures AllFed(Deserted(credit, last), p, now, Newcomer(p, t))
    ensures Returned(Deserted(credit, last), p, now, Newcomer(p, t), from, t) == Full(p.bps)
  {
    VisitReturns(p, Bucket(credit, last), 0, t, from);
    Before(Deserted(credit, last), p, now, Sweep(t), Visit(p, 0, t), from, t);
  }

  // ---- a late reservation ----------------------------------------------------------------------------

  /** A read whose second clock reading is late leaves an old entry behind. */
  function LateRead(p: Params, t: int): seq<Call>
    requires Readable(p)
  {
    [Wrap(0, 0)] + ([Read(0, 0, p.lag, Chunk(p))] + ([Close(0, p.lag)] + Newcomer(p, t)))
  }

  lemma LateReadStep(p: Params)
    requires Readable(p)
    ensures var a := After(NONE, p, Wrap(0, 0)); var read := Read(0, 0, p.lag, Chunk(p));
            && a == Account(Some(Entry(0, 0)), [Fresh(Full(p.bps), 0)], map[0 := Reader(0, 0, 0)])
            && Can(a, p, 0, read) && ReadyOf(a, p.bps, 0, p.lag, Chunk(p)) == p.lag
            && After(a, p, read)
                 == Account(Some(Entry(0, 0)), [Bucket(Full(p.bps) - Cost(p), p.lag)], map[0 := Reader(0, 0, p.lag)])
            && After(After(a, p, read), p, Close(0, p.lag)) == Deserted(Full(p.bps) - Cost(p), p.lag)
  {
    var a := After(NONE, p, Wrap(0, 0));
    assert a == Account(Some(Entry(0, 0)), [Fresh(Full(p.bps), 0)], map[0 := Reader(0, 0, 0)]);
    var a' := After(a, p, Read(0, 0, p.lag, Chunk(p)));
    assert a'.buckets == [Bucket(Full(p.bps) - Cost(p), p.lag)];
    assert a'.readers == map[0 := Reader(0, 0, p.lag)];
    assert a'.readers - {0} == map[];
  }

  lemma LateReadBreaks(p: Params)
    requires Readable(p) && p.maxIdle + 1 < p.lag + Cost(p)
    ensures var t := Max(p.lag, p.maxIdle + 1);
            && Plays(NONE, p, 0, LateRead(p, t)) && AllFed(NONE, p, 0, LateRead(p, t))
            && Returned(NONE, p, 0, LateRead(p, t), p.lag, t) > Full(p.bps) + (t - p.lag)
  {
    var t := Max(p.lag, p.maxIdle + 1);
    var read, close, rest := Read(0, 0, p.lag, Chunk(p)), Close(0, p.lag), Newcomer(p, t);
    LateReadStep(p);
    var a := After(NONE, p, Wrap(0, 0));
    NewcomerReturns(p, Full(p.bps) - Cost(p), p.lag, p.lag, t, p.lag);
    Before(After(a, p, read), p, p.lag, close, rest, p.lag, t);
    Before(a, p, 0, read, [close] + rest, p.lag, t);
    Before(NONE, p, 0, Wrap(0, 0), [read] + ([close] + rest), p.lag, t);
  }

  // ---- all streams at once ----------------------------------------------------------------------------

  // Or the burst is read, and then every stream reads at once: the last of these reads
  // returns a read per stream after the entry was last seen.

  /** When the read of reader `r` returns. */
  function Turn(p: Params, r: nat): nat {
    OneMore(r, Cost(p));
    (r + 1) * Cost(p)
  }

  /** The burst is gone, and `i` readers have been opened and have read since, at time zero. */
  function Piled(p: Params, i: nat): Account {
    Account(Some(Entry(0, 0)), [Bucket(0 - i * Cost(p), 0)], map r: nat | r < i :: Reader(0, 0, Turn(p, r)))
  }

  function Pile(p: Params, i: nat, rest: seq<Call>): seq<Call>
    requires i <= p.streams
    decreases p.streams - i
  {
    if i == p.streams then rest
    else [Wrap(i, 0)] + ([Read(i, 0, 0, Chunk(p))] + Pile(p, i + 1, rest))
  }

  lemma {:induction false} Numbered(p: Params, i: nat)
    ensures |Piled(p, i).readers| == i
    decreases i
  {
    if i > 0 {
      Numbered(p, i - 1);
      assert Piled(p, i).readers == Piled(p, i - 1).readers[i - 1 := Reader(0, 0, Turn(p, i - 1))];
    } else {
      assert Piled(p, 0).readers == map[];
    }
  }

  lemma OneMorePiled(p: Params, i: nat)
    requires Readable(p) && i < p.streams
    ensures Can(Piled(p, i), p, 0, Wrap(i, 0))
    ensures var a := After(Piled(p, i), p, Wrap(i, 0)); var read := Read(i, 0, 0, Chunk(p));
            && Can(a, p, 0, read) && ReadyOf(a, p.bps, i, 0, Chunk(p)) == (i + 1) * Cost(p)
            && After(a, p, read) == Piled(p, i + 1)
  {
    Numbered(p, i);
    OneMore(i, Cost(p));
    var a := After(Piled(p, i), p, Wrap(i, 0));
    assert a.entry == Some(Entry(0, 0)) && a.buckets == [Bucket(0 - i * Cost(p), 0)];
    assert a.readers == Piled(p, i).readers[i := Reader(0, 0, 0)];
    var a' := After(a, p, Read(i, 0, 0, Chunk(p)));
    assert a'.buckets == [Bucket(0 - (i + 1) * Cost(p), 0)];
    assert a'.readers == Piled(p, i + 1).readers;
  }

  /** One more reader before the rest of the run. */
  lemma PileOne(p: Params, i: nat, rest: seq<Call>, to: int)
    requires Readable(p) && i < p.streams && p.streams * Cost(p) <= to
    requires Plays(Piled(p, i + 1), p, 0, rest) && AllFed(Piled(p, i + 1), p, 0, rest)
    ensures var calls := [Wrap(i, 0)] + ([Read(i, 0, 0, Chunk(p))] + rest);
            && Plays(Piled(p, i), p, 0, calls) && AllFed(Piled(p, i), p, 0, calls)
            && Returned(Piled(p, i), p, 0, calls, 0, to) == Cost(p) + Returned(Piled(p, i + 1), p, 0, rest, 0, to)
  {
    var read := Read(i, 0, 0, Chunk(p));
    OneMorePiled(p, i);
    Scaled(i + 1, p.streams, Cost(p));
    OneMore(i, Cost(p));
    Before(After(Piled(p, i), p, Wrap(i, 0)), p, 0, read, rest, 0, to);
    Before(Piled(p, i), p, 0, Wrap(i, 0), [read] + rest, 0, to);
  }

  /** What the readers from `i` on read. */
  function Owed(p: Params, i: nat): nat
    requires i <= p.streams
    decreases p.streams - i
  {
    if i == p.streams then 0 else Cost(p) + Owed(p, i + 1)
  }

  lemma {:induction false} OwedIs(p: Params, i: nat)
    requires i <= p.streams
    ensures Owed(p, i) == (p.streams - i) * Cost(p)
    decreases p.streams - i
  {
    if i < p.streams {
      OwedIs(p, i + 1);
      OneMore(p.streams - i - 1, Cost(p));
    }
  }

  lemma {:induction false} PileReturns(p: Params, i: nat, rest: seq<Call>, to: int)
    requires Readable(p) && i <= p.streams && p.streams * Cost(p) <= to
    requires Plays(Piled(p, p.streams), p, 0, rest) && AllFed(Piled(p, p.streams), p, 0, rest)
    ensures Plays(Piled(p, i), p, 0, Pile(p, i, rest)) && AllFed(Piled(p, i), p, 0, Pile(p, i, rest))
    ensures Returned(Piled(p, i), p, 0, Pile(p, i, rest), 0, to)
         == Owed(p, i) + Returned(Piled(p, p.streams), p, 0, rest, 0, to)
    decreases p.streams - i
  {
    if i < p.streams {
      PileReturns(p, i + 1, rest, to);
      PileOne(p, i, Pile(p, i + 1, rest), to);
    }
  }

  /** The readers below `i` have been closed since. */
  function Leaving(p: Params, i: nat): Account {
    Account(Some(Entry(0, 0)), [Bucket(0 - p.streams * Cost(p), 0)],
            map r: nat | i <= r < p.streams :: Reader(0, 0, Turn(p, r)))
  }

  function Leave(p: Params, i: nat, end: int, rest: seq<Call>): seq<Call>
    requires i <= p.streams
    decreases p.streams - i
  {
    if i == p.streams then rest else [Close(i, end)] + Leave(p, i + 1, end, rest)
  }

  lemma OneLeaves(p: Params, i: nat, now: int, end: nat)
    requires i < p.streams && end == p.streams * Cost(p) && now <= end
    ensures Can(Leaving(p, i), p, now, Close(i, end))
    ensures After(Leaving(p, i), p, Close(i, end)) == Leaving(p, i + 1)
  {
    Scaled(i + 1, p.streams, Cost(p));
    assert Leaving(p, i).readers - {i} == Leaving(p, i + 1).readers;
  }

  /** A Close before the rest of the run. */
  lemma LeaveOne(a: Account, a': Account, p: Params, now: int, i: nat, end: int, rest: seq<Call>, from: int, to: int)
    requires Can(a, p, now, Close(i, end)) && After(a, p, Close(i, end)) == a'
    requires Plays(a', p, end, rest) && AllFed(a', p, end, rest)
    ensures Plays(a, p, now, [Close(i, end)] + rest) && AllFed(a, p, now, [Close(i, end)] + rest)
    ensures Returned(a, p, now, [Close(i, end)] + rest, from, to) == Returned(a', p, end, rest, from, to)
  {
    Before(a, p, now, Close(i, end), rest, from, to);
  }

  lemma {:induction false} LeaveLeads(p: Params, i: nat, now: int, end: nat, rest: seq<Call>, from: int, to: int)
    requires i <= p.streams && end == p.streams * Cost(p) && now <= end && (i == p.streams ==> now == end)
    requires Plays(Leaving(p, p.streams), p, end, rest) && AllFed(Leaving(p, p.streams), p, end, rest)
    ensures Plays(Leaving(p, i), p, now, Leave(p, i, end, rest)) && AllFed(Leaving(p, i), p, now, Leave(p, i, end, rest))
    ensures Returned(Leaving(p, i), p, now, Leave(p, i, end, rest), from, to)
         == Returned(Leaving(p, p.streams), p, end, rest, from, to)
    decreases p.streams - i
  {
    if i < p.streams {
      LeaveLeads(p, i + 1, end, end, rest, from, to);
      OneLeaves(p, i, now, end);
      LeaveOne(Leaving(p, i), Leaving(p, i + 1), p, now, i, end, Leave(p, i + 1, end, rest), from, to);
    }
  }

  /** What all streams do at once, and what follows. */
  function Crowd(p: Params, t: int): seq<Call>
    requires Readable(p)
  {
    Pile(p, 0, Leave(p, 0, p.streams * Cost(p), Newcomer(p, t)))
  }

  /** The burst is read; every stream reads once more at the same moment; all are closed when
      they have returned, and after a Sweep a new stream reads. */
  function AllAtOnce(p: Params, t: int): seq<Call>
    requires Readable(p)
  {
    [Wrap(0, 0)] + Drain(p, 0, 0, Burst(p.bps), [Close(0, 0)] + Crowd(p, t))
  }

  /** Where the crowd starts, turns and ends. */
  lemma CrowdStates(p: Params)
    requires Readable(p)
    ensures Piled(p, 0) == Deserted(0, 0) && Leaving(p, 0) == Piled(p, p.streams)
    ensures Leaving(p, p.streams) == Deserted(0 - p.streams * Cost(p), 0)
  {
    assert Piled(p, 0).readers == map[];
    assert Leaving(p, 0).readers == Piled(p, p.streams).readers;
    assert Leaving(p, p.streams).readers == map[];
  }

  /** Closing all of them and what follows. */
  lemma ExitReturns(p: Params, t: int)
    requires Readable(p) && t >= p.streams * Cost(p) && t >= p.maxIdle + 1
    ensures var a, calls := Piled(p, p.streams), Leave(p, 0, p.streams * Cost(p), Newcomer(p, t));
            Plays(a, p, 0, calls) && AllFed(a, p, 0, calls) && Returned(a, p, 0, calls, 0, t) == Full(p.bps)
  {
    var end := p.streams * Cost(p);
    OneMore(p.streams, Cost(p));
    CrowdStates(p);
    NewcomerReturns(p, 0 - end, 0, end, t, 0);
    LeaveLeads(p, 0, 0, end, Newcomer(p, t), 0, t);
  }

  lemma CrowdReturns(p: Params, t: int)
    requires Readable(p) && t >= p.streams * Cost(p) && t >= p.maxIdle + 1
    ensures Plays(Deserted(0, 0), p, 0, Crowd(p, t)) && AllFed(Deserted(0, 0), p, 0, Crowd(p, t))
    ensures Returned(Deserted(0, 0), p, 0, Crowd(p, t), 0, t) == p.streams * Cost(p) + Full(p.bps)
  {
    CrowdStates(p);
    ExitReturns(p, t);
    PileReturns(p, 0, Leave(p, 0, p.streams * Cost(p), Newcomer(p, t)), t);
    OwedIs(p, 0);
  }

  lemma AllAtOnceBreaks(p: Params)
    requires Readable(p) && p.maxIdle + 1 < p.streams * Cost(p) + Full(p.bps)
    ensures var t := Max(p.streams * Cost(p), p.maxIdle + 1);
            && Plays(NONE, p, 0, AllAtOnce(p, t)) && AllFed(NONE, p, 0, AllAtOnce(p, t))
            && Returned(NONE, p, 0, AllAtOnce(p, t), 0, t) > Full(p.bps) + t
  {
    var t := Max(p.streams * Cost(p), p.maxIdle + 1);
    var a := After(NONE, p, Wrap(0, 0));
    assert a == Account(Some(Entry(0, 0)), [Fresh(Full(p.bps), 0)], map[0 := Reader(0, 0, 0)]);
    var d := Drained(a, 0, 0);
    assert d == Account(Some(Entry(0, 0)), [Bucket(0, 0)], map[0 := Reader(0, 0, 0)]);
    assert After(d, p, Close(0, 0)) == Deserted(0, 0);
    CrowdReturns(p, t);
    Before(d, p, 0, Close(0, 0), Crowd(p, t), 0, t);
    DrainReturns(a, p, 0, 0, Burst(p.bps), [Close(0, 0)] + Crowd(p, t), 0, t);
    Before(NONE, p, 0, Wrap(0, 0), Drain(p, 0, 0, Burst(p.bps), [Close(0, 0)] + Crowd(p, t)), 0, t);
  }

  // ---- the threshold ------------------------------------------------------------------------------------

  /** The bound holds in every run in which every open reader is fed if and only if there is
      nothing to bound or entries are kept long enough. */
  lemma BudgetThreshold(p: Params)
    ensures (forall now, calls, from, to ::
               Plays(NONE, p, now, calls) && AllFed(NONE, p, now, calls) && from <= to ==>
                 Returned(NONE, p, now, calls, from, to) <= Full(p.bps) + (to - from))
            <==> !Readable(p) || KeptLongEnough(p)
  {
    if !Readable(p) || KeptLongEnough(p) {
      forall now, calls, from, to | Plays(NONE, p, now, calls) && AllFed(NONE, p, now, calls) && from <= to
        ensures Returned(NONE, p, now, calls, from, to) <= Full(p.bps) + (to - from)
      {
        if KeptLongEnough(p) {
          SharedBudget(p, now, calls, from, to);
        } else {
          NothingToRead(NONE, p, now, calls, from, to);
        }
      }
    } else if p.maxIdle + 1 < p.lag + Cost(p) {
      LateReadBreaks(p);
    } else {
      AllAtOnceBreaks(p);
    }
  }

  lemma {:induction false} NothingToRead(a: Account, p: Params, now: int, calls: seq<Call>, from: int, to: int)
    requires Plays(a, p, now, calls) && !Readable(p) && (p.streams == 0 ==> a.readers == map[])
    ensures Returned(a, p, now, calls, from, to) == 0
    decreases |calls|
  {
    if calls != [] {
      NothingToRead(After(a, p, calls[0]), p, Clock(now, calls[0]), calls[1..], from, to);
    }
  }

  // ---- readers that idle ------------------------------------------------------------------------------------

  /** A reader opened, left without a byte for the idle time, and only then read from. */
  function IdleRead(p: Params, t: int): seq<Call>
    requires Readable(p)
  {
    [Wrap(0, 0)] + ([Sweep(t)] + Drain(p, 0, t, Burst(p.bps), [Close(0, t)] + Visit(p, 1, t)))
  }

  /** Reader 0 after its entry was swept: it keeps the limiter it was opened with. */
  function Orphan(p: Params): Account {
    Account(None, [Fresh(Full(p.bps), 0)], map[0 := Reader(0, 0, 0)])
  }

  lemma OrphanReturns(p: Params, t: nat)
    requires Readable(p)
    ensures var calls := Drain(p, 0, t, Burst(p.bps), [Close(0, t)] + Visit(p, 1, t));
            Plays(Orphan(p), p, t, calls) && Returned(Orphan(p), p, t, calls, t, t) == 2 * Full(p.bps)
  {
    var a := Drained(Orphan(p), 0, t);
    assert a == Account(None, [Bucket(0, t)], map[0 := Reader(0, t, t)]);
    assert After(a, p, Close(0, t)) == Account(None, [Bucket(0, t)], map[]);
    VisitReturns(p, Bucket(0, t), 1, t, t);
    Before(a, p, t, Close(0, t), Visit(p, 1, t), t, t);
    DrainReturns(Orphan(p), p, 0, t, Burst(p.bps), [Close(0, t)] + Visit(p, 1, t), t, t);
  }

  /** Its limiter has been evicted meanwhile, so the next stream gets another: two bursts of
      one device return at the same moment. */
  lemma IdleReaderDoublesTheBudget(p: Params)
    requires Readable(p)
    ensures var t := p.maxIdle + 1;
            Plays(NONE, p, 0, IdleRead(p, t)) && Returned(NONE, p, 0, IdleRead(p, t), t, t) == 2 * Full(p.bps)
  {
    var t := p.maxIdle + 1;
    var rest := Drain(p, 0, t, Burst(p.bps), [Close(0, t)] + Visit(p, 1, t));
    var a := After(NONE, p, Wrap(0, 0));
    assert After(a, p, Sweep(t)) == Orphan(p);
    OrphanReturns(p, t);
    Before(a, p, 0, Sweep(t), rest, t, t);
    Before(NONE, p, 0, Wrap(0, 0), [Sweep(t)] + rest, t, t);
  }

  /** Without feeding no idle time will do: the bound holds in all runs if and only if
      nothing can be read at all. */
  lemma UnfedThreshold(p: Params)
    ensures (forall now, calls, from, to ::
               Plays(NONE, p, now, calls) && from <= to ==>
                 Returned(NONE, p, now, calls, from, to) <= Full(p.bps) + (to - from))
            <==> !Readable(p)
  {
    if !Readable(p) {
      forall now, calls, from, to | Plays(NONE, p, now, calls) && from <= to
        ensures Returned(NONE, p, now, calls, from, to) <= Full(p.bps) + (to - from)
      {
        NothingToRead(NONE, p, now, calls, from, to);
      }
    } else {
      IdleReaderDoublesTheBudget(p);
    }
  }

  // ---- the deployed server ------------------------------------------------------------------------------------

  /** The server as deployed: ten minutes, read through the copy loop's buffer. */
  function Deployed(bps: nat, streams: nat, lag: nat): Params {
    Params(bps, 600 * SECOND * bps, lag, streams, Pump.BUFFER)
  }

  /** Ten minutes are long enough if and only if the burst and one buffer per open stream can
      be read in ten minutes and a late reservation is not that late. */
  lemma DeployedIdle(bps: nat, streams: nat, lag: nat)
    requires bps >= 1
    ensures var p := Deployed(bps, streams, lag);
            KeptLongEnough(p)
            <==> streams * Chunk(p) + Burst(bps) <= 600 * bps && lag + Cost(p) <= 600 * SECOND * bps + 1
  {
    var p := Deployed(bps, streams, lag);
    assert streams * Cost(p) == (streams * Chunk(p)) * SECOND;
  }

  /** So 599 open streams of a device are safe at any rate, and up to 32 KiB a second no more
      are; at a mebibyte a second 19168 are. */
  lemma DeployedStreams(bps: nat, streams: nat, lag: nat)
    requires bps >= 1 && lag <= 599 * SECOND * bps
    ensures streams <= 599 ==> KeptLongEnough(Deployed(bps, streams, lag))
    ensures bps <= Pump.BUFFER ==> (KeptLongEnough(Deployed(bps, streams, lag)) <==> streams <= 599)
    ensures bps == 0x10_0000 ==> (KeptLongEnough(Deployed(bps, streams, lag)) <==> streams <= 19168)
  {
    var p := Deployed(bps, streams, lag);
    DeployedIdle(bps, streams, lag);
    if streams <= 599 {
      Scaled(streams, 599, Chunk(p));
    } else if bps <= Pump.BUFFER {
      Scaled(600, streams, Chunk(p));
    }
  }
}
