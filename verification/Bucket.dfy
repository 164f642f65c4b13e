/** The token bucket of golang.org/x/time/rate in integer credit: one unit of credit per
    unit of time, up to `full`.  The pairing limiter counts time in nanoseconds and charges
    an interval per request; the bandwidth limiter counts nanoseconds times bytes per second
    and charges a second's worth of nanoseconds per byte. */
module Bucket {

  datatype Bucket = Bucket(credit: int, last: int)

  function Min(a: int, b: int): int {
    if a <= b then a else b
  }

  function Max(a: int, b: int): int {
    if a >= b then a else b
  }

  /** The credit available at `t`; a clock that went backwards adds nothing. */
  function Available(b: Bucket, full: nat, t: int): int {
    if t < b.last then Min(full, b.credit) else Min(full, b.credit + (t - b.last))
  }

  /** Charging `cost` at `t`; the credit may fall below zero, to be waited for. */
  function Take(b: Bucket, full: nat, cost: nat, t: int): Bucket {
    Bucket(Available(b, full, t) - cost, t)
  }

  /** When a reservation made at `t` may go ahead. */
  function ReadyAt(b: Bucket, full: nat, cost: nat, t: int): int {
    t + Max(0, cost - Available(b, full, t))
  }

  /** A new limiter starts with all its tokens. */
  function Fresh(full: nat, t: int): Bucket {
    Bucket(full, t)
  }

  /** The moment at which a bucket's credit is, or would have been, zero. */
  function Zero(b: Bucket): int {
    b.last - b.credit
  }

  /** A charge moves the zero point by its cost, once idle credit above `full` is gone. */
  lemma TakeMovesZero(b: Bucket, full: nat, cost: nat, t: int)
    requires b.last <= t
    ensures Zero(Take(b, full, cost, t)) == Max(Zero(b), t - full) + cost
    ensures ReadyAt(b, full, cost, t) == Max(t, Zero(Take(b, full, cost, t)))
  {
  }

  // ---- what a window of time lets through ------------------------------------------------

  datatype Charge = Charge(time: int, cost: nat)

  /** Charges in the order the limiter's lock is taken, none above the burst. */
  ghost predicate Ordered(cs: seq<Charge>, full: nat, now: int)
    decreases |cs|
  {
    cs != [] ==> now <= cs[0].time && cs[0].cost <= full && Ordered(cs[1..], full, cs[0].time)
  }

  /** The sum of all charges that may go ahead between `from` and `to`. */
  function Released(b: Bucket, full: nat, cs: seq<Charge>, from: int, to: int): nat
    decreases |cs|
  {
    if cs == [] then 0
    else
      var c := cs[0];
      var ready := ReadyAt(b, full, c.cost, c.time);
      (if from <= ready <= to then c.cost else 0)
      + Released(Take(b, full, c.cost, c.time), full, cs[1..], from, to)
  }

  lemma {:induction false} ReleasedIsBounded(b: Bucket, full: nat, cs: seq<Charge>, from: int, to: int)
    requires Ordered(cs, full, b.last)
    ensures Released(b, full, cs, from, to) <= Max(0, to - Max(Zero(b), from - full))
    decreases |cs|
  {
    if cs != [] {
      var c := cs[0];
      TakeMovesZero(b, full, c.cost, c.time);
      ReleasedIsBounded(Take(b, full, c.cost, c.time), full, cs[1..], from, to);
    }
  }

  /** Whatever was charged before and whoever charges, a window of length `to - from` lets
      through at most the burst plus its own length. */
  lemma WindowBound(b: Bucket, full: nat, cs: seq<Charge>, from: int, to: int)
    requires Ordered(cs, full, b.last) && from <= to
    ensures Released(b, full, cs, from, to) <= full + (to - from)
  {
    ReleasedIsBounded(b, full, cs, from, to);
  }
}
