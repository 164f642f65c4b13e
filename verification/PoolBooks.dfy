/** The pool's objects do what the accounts say: one account per device, and whatever
    happens to one device's streams leaves the accounts of all others as they are. */
module PoolBooks {
  import opened Common
  import opened Bucket
  import opened BandwidthPool

  /** One device's account, the limiters the pool ever made for it and its open readers. */
  datatype Book = Book(a: Account, made: seq<Limiter>, open: map<Rid, LimitedReader>)

  const BLANK := Book(NONE, [], map[])

  /** What the pool holds for a device, and the state of some limiters. */
  ghost function EntryOf(pool: Pool, d: Device): Option<(Limiter, int)>
    reads pool, pool.limiters.Values
  {
    if d in pool.limiters then Some((pool.limiters[d].limiter, pool.limiters[d].lastSeen)) else None
  }

  ghost function Buckets(made: seq<Limiter>): seq<Bucket>
    reads made
  {
    seq(|made|, i requires 0 <= i < |made| reads made => made[i].bucket)
  }

  ghost predicate Describes(b: Book, pool: Pool, d: Device)
    reads pool, pool.limiters.Values, b.made
  {
    Tallies(b, pool, d, EntryOf(pool, d)) && Buckets(b.made) == b.a.buckets
  }

  ghost predicate Tallies(b: Book, pool: Pool, d: Device, entry: Option<(Limiter, int)>) {
    && |b.made| == |b.a.buckets|
    && (forall i :: 0 <= i < |b.made| ==> b.made[i].full == Full(pool.bps))
    && (b.a.entry.Some? <==> entry.Some?)
    && (b.a.entry.Some? ==>
          && b.a.entry.value.bid < |b.made| && b.made[b.a.entry.value.bid] == entry.value.0
          && b.a.entry.value.lastSeen == entry.value.1)
    && b.open.Keys == b.a.readers.Keys
    && forall r :: r in b.open ==>
         && b.open[r].pool == pool && b.open[r].device == d
         && b.a.readers[r].bid < |b.made| && b.open[r].limiter == b.made[b.a.readers[r].bid]
  }

  // Each of the account's operations on a tally.

  lemma TalliesWrapped(b: Book, pool: Pool, d: Device, entry: Option<(Limiter, int)>, reader: LimitedReader, r: Rid, now: int)
    requires Tallies(b, pool, d, entry) && r !in b.open
    requires reader.pool == pool && reader.device == d && reader.limiter.full == Full(pool.bps)
    requires entry.Some? ==> reader.limiter == entry.value.0
    ensures var made := if entry.Some? then b.made else b.made + [reader.limiter];
            Tallies(Book(Wrapped(b.a, pool.bps, r, now), made, b.open[r := reader]), pool, d, Some((reader.limiter, now)))
  {
  }

  lemma TalliesRead(b: Book, pool: Pool, d: Device, entry: Option<(Limiter, int)>, r: Rid, seen: int, at: int, n: nat)
    requires Tallies(b, pool, d, entry) && r in b.open
    ensures Tallies(b.(a := AfterRead(b.a, pool.bps, r, seen, at, n)), pool, d,
                    if entry.Some? then Some((entry.value.0, seen)) else None)
  {
  }

  lemma TalliesSwept(b: Book, pool: Pool, d: Device, entry: Option<(Limiter, int)>, maxIdle: nat, now: int)
    requires Tallies(b, pool, d, entry)
    ensures Tallies(b.(a := Swept(b.a, maxIdle, now)), pool, d, SweptEntry(entry, maxIdle, now))
  {
  }

  ghost function SweptEntry(entry: Option<(Limiter, int)>, maxIdle: nat, now: int): Option<(Limiter, int)> {
    if entry.Some? && entry.value.1 < now - maxIdle then None else entry
  }

  /** The limiters of one device are different objects. */
  ghost predicate Distinct(made: seq<Limiter>) {
    forall i, j :: 0 <= i < j < |made| ==> made[i] != made[j]
  }

  method WrapOne(pool: Pool, d: Device, now: int, ghost b: Book, ghost r: Rid)
    returns (reader: LimitedReader, ghost b': Book)
    requires pool.Valid() && pool.bps > 0 && Describes(b, pool, d) && r !in b.open
    modifies pool, pool.limiters.Values
    ensures pool.Valid() && Describes(b', pool, d)
    ensures b'.a == Wrapped(b.a, pool.bps, r, now) && b'.open == b.open[r := reader]
    ensures b'.made == b.made || (fresh(reader.limiter) && b'.made == b.made + [reader.limiter])
    ensures d in pool.limiters && pool.limiters == old(pool.limiters)[d := pool.limiters[d]]
    ensures forall e :: e != d ==> EntryOf(pool, e) == old(EntryOf(pool, e))
  {
    ghost var entry := EntryOf(pool, d);
    var wrapped := pool.Wrap(d, now);
    reader := wrapped.value;
    ghost var made := if b.a.entry.Some? then b.made else b.made + [reader.limiter];
    b' := Book(Wrapped(b.a, pool.bps, r, now), made, b.open[r := reader]);
    TalliesWrapped(b, pool, d, entry, reader, r, now);
    assert Buckets(made) == b'.a.buckets;
  }

  method ReadOne(reader: LimitedReader, n: nat, seen: int, at: int, ghost b: Book, ghost r: Rid)
    returns (ready: int, ghost b': Book)
    requires reader.pool.Valid() && Describes(b, reader.pool, reader.device) && Distinct(b.made)
    requires r in b.open && b.open[r] == reader && 1 <= n <= Burst(reader.pool.bps)
    modifies reader.pool.limiters.Values, reader.limiter
    ensures ready == ReadyOf(b.a, reader.pool.bps, r, at, n)
    ensures b' == b.(a := AfterRead(b.a, reader.pool.bps, r, seen, at, n)) && Describes(b', reader.pool, reader.device)
    ensures forall e :: e != reader.device ==> EntryOf(reader.pool, e) == old(EntryOf(reader.pool, e))
  {
    b' := b.(a := AfterRead(b.a, reader.pool.bps, r, seen, at, n));
    TalliesRead(b, reader.pool, reader.device, EntryOf(reader.pool, reader.device), r, seen, at, n);
    ready := reader.Deliver(n, seen, at);
  }

  // ---- and one device's streams leave the budgets of all others alone ---------------------------------

  type Books = map<Device, Book>

  function BookOf(books: Books, d: Device): Book {
    if d in books then books[d] else BLANK
  }

  /** No limiter serves two devices, or one device twice. */
  ghost predicate Apart(books: Books) {
    && (forall d :: d in books ==> Distinct(books[d].made))
    && forall d, e :: d in books && e in books && d != e ==> Disjoint(books[d].made, books[e].made)
  }

  ghost predicate Disjoint(a: seq<Limiter>, b: seq<Limiter>) {
    forall i, j :: 0 <= i < |a| && 0 <= j < |b| ==> a[i] != b[j]
  }

  /** It stays so when one device's book is rewritten, with a new limiter or without. */
  lemma ApartStill(books: Books, d: Device, b: Book)
    requires Apart(books)
    requires b.made == BookOf(books, d).made
             || (exists l :: l !in Limiters(books) && b.made == BookOf(books, d).made + [l])
    ensures Apart(books[d := b])
  {
    var books' := books[d := b];
    if b.made != BookOf(books, d).made {
      var l :| l !in Limiters(books) && b.made == BookOf(books, d).made + [l];
      forall e, j | e in books && 0 <= j < |books[e].made| ensures books[e].made[j] != l {
        assert books[e].made[j] in Limiters(books);
      }
    }
    assert Distinct(b.made);
    forall e | e in books && e != d ensures Disjoint(b.made, books[e].made) && Disjoint(books[e].made, b.made) {
      assert d in books ==> Disjoint(books[d].made, books[e].made);
    }
  }

  lemma ApartSwept(books: Books, maxIdle: nat, now: int)
    requires Apart(books)
    ensures Apart(AllSwept(books, maxIdle, now))
  {
  }

  ghost function Limiters(books: Books): set<Limiter> {
    set d, i | d in books && 0 <= i < |books[d].made| :: books[d].made[i]
  }

  /** The pool and everything it has handed out are what the accounts of all devices say. */
  ghost predicate Kept(books: Books, pool: Pool)
    reads pool, pool.limiters.Values, Limiters(books)
  {
    && pool.Valid() && pool.bps > 0 && Apart(books) && pool.limiters.Keys <= books.Keys
    && forall d :: d in books ==> Describes(books[d], pool, d)
  }

  /** A reader draws from a limiter of its own device. */
  lemma NotShared(books: Books, reader: LimitedReader, r: Rid)
    requires Kept(books, reader.pool) && reader.device in books
    requires r in books[reader.device].open && books[reader.device].open[r] == reader
    ensures forall e :: e in books && e != reader.device ==> reader.limiter !in books[e].made
  {
    var b := books[reader.device];
    assert Describes(b, reader.pool, reader.device);
    var i := b.a.readers[r].bid;
    assert b.made[i] == reader.limiter;
    forall e | e in books && e != reader.device ensures reader.limiter !in books[e].made {
      assert Disjoint(b.made, books[e].made);
    }
  }

  /** One book is rewritten and the others still describe their devices. */
  lemma KeptAgain(books: Books, pool: Pool, d: Device, b: Book)
    requires pool.Valid() && pool.bps > 0 && Apart(books[d := b]) && pool.limiters.Keys <= books.Keys + {d}
    requires Describes(b, pool, d) && forall e :: e in books && e != d ==> Describes(books[e], pool, e)
    ensures Kept(books[d := b], pool)
  {
  }

  /** Wrapping a stream's source is the account's Wrap, and no other account changes. */
  method OpenReader(pool: Pool, d: Device, now: int, ghost books: Books, ghost r: Rid)
    returns (reader: LimitedReader, ghost books': Books)
    requires Kept(books, pool) && r !in BookOf(books, d).open
    modifies pool, pool.limiters.Values
    ensures d in books' && books' == books[d := books'[d]] && Kept(books', pool)
    ensures books'[d].a == Wrapped(BookOf(books, d).a, pool.bps, r, now)
    ensures books'[d].open == BookOf(books, d).open[r := reader]
  {
    ghost var b';
    reader, b' := WrapOne(pool, d, now, BookOf(books, d), r);
    ApartStill(books, d, b');
    books' := books[d := b'];
    forall e | e in books && e != d ensures Describes(books[e], pool, e) {
      assert old(Describes(books[e], pool, e));
      assert Buckets(books[e].made) == old(Buckets(books[e].made));
    }
    KeptAgain(books, pool, d, b');
  }

  /** A read that brought bytes is the account's Read, and returns when the account says;
      the accounts of all other devices stay as they are. */
  method ReadBytes(reader: LimitedReader, n: nat, seen: int, at: int, ghost books: Books, ghost r: Rid)
    returns (ready: int, ghost books': Books)
    requires Kept(books, reader.pool) && reader.device in books
    requires r in books[reader.device].open && books[reader.device].open[r] == reader
    requires 1 <= n <= Burst(reader.pool.bps)
    modifies reader.pool.limiters.Values, reader.limiter
    ensures var b := books[reader.device];
            && ready == ReadyOf(b.a, reader.pool.bps, r, at, n)
            && books' == books[reader.device := b.(a := AfterRead(b.a, reader.pool.bps, r, seen, at, n))]
    ensures Kept(books', reader.pool)
  {
    NotShared(books, reader, r);
    ghost var b';
    ready, b' := ReadOne(reader, n, seen, at, books[reader.device], r);
    ApartStill(books, reader.device, b');
    books' := books[reader.device := b'];
    forall e | e in books && e != reader.device ensures Describes(books[e], reader.pool, e) {
      assert old(Describes(books[e], reader.pool, e));
      assert Buckets(books[e].made) == old(Buckets(books[e].made));
    }
    KeptAgain(books, reader.pool, reader.device, b');
  }

  /** A reader that is dropped leaves the account's table and nothing else. */
  lemma CloseReader(pool: Pool, d: Device, books: Books, r: Rid)
    requires Kept(books, pool) && r in BookOf(books, d).open
    ensures var b := books[d];
            Kept(books[d := b.(a := b.a.(readers := b.a.readers - {r}), open := b.open - {r})], pool)
  {
    var b := books[d];
    var b' := b.(a := b.a.(readers := b.a.readers - {r}), open := b.open - {r});
    ApartStill(books, d, b');
    KeptAgain(books, pool, d, b');
  }

  function AllSwept(books: Books, maxIdle: nat, now: int): Books {
    map d | d in books :: books[d].(a := Swept(books[d].a, maxIdle, now))
  }

  lemma KeptSwept(books: Books, pool: Pool, maxIdle: nat, now: int)
    requires pool.Valid() && pool.bps > 0 && Apart(books) && pool.limiters.Keys <= books.Keys
    requires forall d :: d in books ==> Describes(books[d].(a := Swept(books[d].a, maxIdle, now)), pool, d)
    ensures Kept(AllSwept(books, maxIdle, now), pool)
  {
    ApartSwept(books, maxIdle, now);
  }

  method SweepEntries(pool: Pool, maxIdle: nat, now: int) returns (removed: nat)
    requires pool.Valid()
    modifies pool`limiters
    ensures pool.Valid() && pool.limiters.Keys <= old(pool.limiters).Keys && removed == |old(pool.limiters)| - |pool.limiters|
    ensures forall d :: EntryOf(pool, d) == SweptEntry(old(EntryOf(pool, d)), maxIdle, now)
  {
    removed := pool.Sweep(maxIdle, now);
  }

  /** And the pool's Sweep is the Sweep of every account. */
  method SweepPool(pool: Pool, maxIdle: nat, now: int, ghost books: Books) returns (removed: nat)
    requires Kept(books, pool)
    modifies pool`limiters
    ensures Kept(AllSwept(books, maxIdle, now), pool)
    ensures removed == |old(pool.limiters)| - |pool.limiters|
  {
    removed := SweepEntries(pool, maxIdle, now);
    forall d | d in books ensures Describes(books[d].(a := Swept(books[d].a, maxIdle, now)), pool, d) {
      assert old(Describes(books[d], pool, d));
      assert Buckets(books[d].made) == old(Buckets(books[d].made));
      TalliesSwept(books[d], pool, d, old(EntryOf(pool, d)), maxIdle, now);
    }
    KeptSwept(books, pool, maxIdle, now);
  }
}
