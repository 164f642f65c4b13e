/** The table of live streams with its per-device quota: the operations on values, what
    they keep, and the class that performs them in place. */
module Registry {
  import opened Common
  import opened Pipe

  type Id = string
  type Device = string

  /** What a stream is created with: whom it is charged to, its two ends, its expiry. */
  datatype Meta = Meta(owner: Device, sender: Device, receiver: Device, expires: int)

  /** The two maps of the registry. */
  datatype Reg = Reg(streams: map<Id, Meta>, perDevice: map<Device, int>)

  const EMPTY := Reg(map[], map[])

  /** Reading a missing key gives zero. */
  function Slots(perDevice: map<Device, int>, d: Device): int {
    if d in perDevice then perDevice[d] else 0
  }

  function Owned(streams: map<Id, Meta>, d: Device): set<Id> {
    set id | id in streams && streams[id].owner == d
  }

  // ---- operations on values -----------------------------------------------------------

  function Admit(r: Reg, cap: int, id: Id, m: Meta): Option<Reg> {
    if Slots(r.perDevice, m.owner) >= cap then None
    else Some(Reg(r.streams[id := m], r.perDevice[m.owner := Slots(r.perDevice, m.owner) + 1]))
  }

  datatype Role = AsSender | AsReceiver | Forbidden

  /** Which end a device may use; a device that is both counts as the sender. */
  function RoleOf(m: Meta, d: Device): Role {
    if d == m.sender then AsSender else if d == m.receiver then AsReceiver else Forbidden
  }

  /** Giving back `k` slots; an account that falls to zero or below is dropped. */
  function Refund(perDevice: map<Device, int>, d: Device, k: int): map<Device, int> {
    if Slots(perDevice, d) - k <= 0 then perDevice - {d} else perDevice[d := Slots(perDevice, d) - k]
  }

  function RemoveOne(r: Reg, id: Id): Reg
    requires id in r.streams
  {
    Reg(r.streams - {id}, Refund(r.perDevice, r.streams[id].owner, 1))
  }

  /** How many of `ids` device `d` is charged for. */
  function Lost(r: Reg, ids: set<Id>, d: Device): nat {
    |Owned(r.streams, d) * ids|
  }

  /** Removing a whole set of streams, in no particular order. */
  function RemoveAll(r: Reg, ids: set<Id>): Reg {
    Reg(r.streams - ids,
        map d | d in r.perDevice && (Lost(r, ids, d) == 0 || r.perDevice[d] - Lost(r, ids, d) > 0)
          :: r.perDevice[d] - Lost(r, ids, d))
  }

  /** What Sweep removes: expired, and neither end claimed. */
  function Stale(r: Reg, now: int, touched: set<Id>): set<Id> {
    set id | id in r.streams && now >= r.streams[id].expires && id !in touched
  }

  /** What ReleaseDevice removes: owned, and not claimed at both ends. */
  function Loose(r: Reg, d: Device, full: set<Id>): set<Id> {
    set id | id in r.streams && r.streams[id].owner == d && id !in full
  }

  /** The attach flags of some streams: sending end, receiving end. */
  type Flags = map<Id, (bool, bool)>

  function Touched(f: Flags): set<Id> {
    set id | id in f && (f[id].0 || f[id].1)
  }

  function Full(f: Flags): set<Id> {
    set id | id in f && f[id].0 && f[id].1
  }

  /** Ends are claimed and never given back. */
  predicate Grown(f: Flags, g: Flags) {
    f.Keys == g.Keys && forall id :: id in f ==> (f[id].0 ==> g[id].0) && (f[id].1 ==> g[id].1)
  }

  /** The more ends are claimed, the less there is to remove. */
  lemma LessToRemove(r: Reg, now: int, d: Device, f: Flags, g: Flags)
    requires Grown(f, g)
    ensures Stale(r, now, Touched(g)) <= Stale(r, now, Touched(f))
    ensures Loose(r, d, Full(g)) <= Loose(r, d, Full(f))
  {
  }

  lemma GrownTwice(f: Flags, g: Flags, h: Flags)
    requires Grown(f, g) && Grown(g, h)
    ensures Grown(f, h)
  {
  }

  /** Closing the streams `gone` and no other: each once, both halves. */
  function AllClosed(pipes: map<Id, (Pipe, bool)>, gone: set<Id>): map<Id, (Pipe, bool)> {
    map id | id in pipes :: if id in gone && !pipes[id].1 then (CloseBoth(pipes[id].0, NotFound), true) else pipes[id]
  }

  /** So the streams that go are closed: each half that has no error yet gets this one, for
      readers and writers to find. */
  lemma TheGoneAreClosed(pipes: map<Id, (Pipe, bool)>, gone: set<Id>, id: Id)
    requires id in pipes
    ensures var before, after := pipes[id], AllClosed(pipes, gone)[id];
            if id !in gone then after == before
            else && after.1 && (before.1 ==> after == before)
                 && (!before.1 ==>
                       && after.0.werr == (if before.0.werr.Some? then before.0.werr else Some(NotFound))
                       && after.0.rerr == (if before.0.rerr.Some? then before.0.rerr else Some(NotFound)))
  {
  }

  // ---- what they keep -----------------------------------------------------------------

  /** Every account equals the number of registered streams charged to it, there is no
      account at zero, and none is above the cap. */
  ghost predicate QuotaOk(r: Reg, cap: int) {
    && (forall d :: Slots(r.perDevice, d) == |Owned(r.streams, d)|)
    && (forall d :: d in r.perDevice ==> 0 < r.perDevice[d] <= cap)
  }

  lemma OwnedAfterAdmit(streams: map<Id, Meta>, id: Id, m: Meta, d: Device)
    requires id !in streams
    ensures Owned(streams[id := m], d) == if d == m.owner then Owned(streams, d) + {id} else Owned(streams, d)
    ensures |Owned(streams[id := m], d)| == |Owned(streams, d)| + if d == m.owner then 1 else 0
  {
    var o := Owned(streams[id := m], d);
    if d == m.owner {
      assert o == Owned(streams, d) + {id};
    } else {
      assert o == Owned(streams, d);
    }
  }

  lemma AdmitKeepsQuota(r: Reg, cap: int, id: Id, m: Meta)
    requires QuotaOk(r, cap) && id !in r.streams
    ensures Admit(r, cap, id, m).None? <==> |Owned(r.streams, m.owner)| >= cap
    ensures var a := Admit(r, cap, id, m);
            a.Some? ==> QuotaOk(a.value, cap) && a.value.streams == r.streams[id := m]
                        && Owned(a.value.streams, m.owner) == Owned(r.streams, m.owner) + {id}
  {
    var a := Admit(r, cap, id, m);
    assert Slots(r.perDevice, m.owner) == |Owned(r.streams, m.owner)|;
    if a.Some? {
      var r' := a.value;
      OwnedAfterAdmit(r.streams, id, m, m.owner);
      forall d ensures Slots(r'.perDevice, d) == |Owned(r'.streams, d)| {
        OwnedAfterAdmit(r.streams, id, m, d);
        assert Slots(r.perDevice, d) == |Owned(r.streams, d)|;
      }
    }
  }

  lemma RemoveKeepsQuota(r: Reg, cap: int, ids: set<Id>)
    requires QuotaOk(r, cap)
    ensures QuotaOk(RemoveAll(r, ids), cap)
    ensures forall d :: Slots(RemoveAll(r, ids).perDevice, d) == Slots(r.perDevice, d) - Lost(r, ids, d)
  {
    var r' := RemoveAll(r, ids);
    forall d
      ensures Slots(r'.perDevice, d) == |Owned(r'.streams, d)|
      ensures Slots(r'.perDevice, d) == Slots(r.perDevice, d) - Lost(r, ids, d)
    {
      assert Owned(r'.streams, d) == Owned(r.streams, d) - Owned(r.streams, d) * ids;
      assert |Owned(r'.streams, d)| == |Owned(r.streams, d)| - Lost(r, ids, d);
    }
  }

  /** Removing one stream more is removing it from what the others left, whatever the
      order and whatever the accounts say. */
  lemma RemoveOneMore(r: Reg, ids: set<Id>, id: Id)
    requires id in r.streams && id !in ids
    ensures RemoveAll(r, ids + {id}) == RemoveOne(RemoveAll(r, ids), id)
  {
    var one, all := RemoveOne(RemoveAll(r, ids), id), RemoveAll(r, ids + {id});
    assert one.streams == all.streams;
    forall d
      ensures d in one.perDevice <==> d in all.perDevice
      ensures d in one.perDevice ==> one.perDevice[d] == all.perDevice[d]
    {
      LostOneMore(r, ids, id, d);
    }
    assert one.perDevice == all.perDevice;
  }

  lemma LostOneMore(r: Reg, ids: set<Id>, id: Id, d: Device)
    requires id in r.streams && id !in ids
    ensures Lost(r, ids + {id}, d) == Lost(r, ids, d) + if d == r.streams[id].owner then 1 else 0
  {
    var o := Owned(r.streams, d);
    if d == r.streams[id].owner {
      assert o * (ids + {id}) == o * ids + {id};
    } else {
      assert o * (ids + {id}) == o * ids;
    }
  }

  lemma RemoveNone(r: Reg)
    ensures RemoveAll(r, {}) == r
  {
    forall d ensures Lost(r, {}, d) == 0 {
      assert Owned(r.streams, d) * {} == {};
    }
    assert RemoveAll(r, {}).streams == r.streams;
  }

  /** Refunding the removed streams of one device in a single subtraction is the same
      as removing them one by one. */
  lemma RefundAtOnce(r: Reg, ids: set<Id>, d: Device)
    requires ids <= Owned(r.streams, d)
    ensures RemoveAll(r, ids).perDevice == if ids == {} then r.perDevice else Refund(r.perDevice, d, |ids|)
  {
    var all := RemoveAll(r, ids).perDevice;
    var once := if ids == {} then r.perDevice else Refund(r.perDevice, d, |ids|);
    forall e
      ensures e in all <==> e in once
      ensures e in all ==> all[e] == once[e]
    {
      LostOfOne(r, ids, d, e);
    }
  }

  lemma DropAfterStore(perDevice: map<Device, int>, d: Device, v: int)
    ensures perDevice[d := v] - {d} == perDevice - {d}
  {
  }

  lemma LostOfOne(r: Reg, ids: set<Id>, d: Device, e: Device)
    requires ids <= Owned(r.streams, d)
    ensures Lost(r, ids, e) == if e == d then |ids| else 0
    ensures ids != {} ==> |ids| > 0
  {
    var o := Owned(r.streams, e);
    if e == d {
      assert o * ids == ids;
    } else {
      assert o * ids == {};
    }
  }

  // ---- the objects ---------------------------------------------------------------------

  class Stream {
    const id: Id
    const sender: Device
    const receiver: Device
    const expiresAt: int
    const owner: Device

    var pipe: Pipe
    var senderAttached: bool
    var receiverAttached: bool
    var senderReady: bool
    var receiverReady: bool
    var closeDone: bool

    constructor (id: Id, owner: Device, sender: Device, receiver: Device, expiresAt: int)
      ensures this.id == id && this.owner == owner && this.sender == sender && this.receiver == receiver
      ensures this.expiresAt == expiresAt
      ensures pipe == OPEN && !senderAttached && !receiverAttached && !senderReady && !receiverReady && !closeDone
    {
      this.id, this.owner, this.sender, this.receiver, this.expiresAt := id, owner, sender, receiver, expiresAt;
      pipe := OPEN;
      senderAttached, receiverAttached, senderReady, receiverReady, closeDone := false, false, false, false, false;
    }

    /** AttachSender up to waitFor: claim the end once, then announce it. */
    method ClaimSender() returns (won: bool)
      modifies this`senderAttached, this`senderReady
      ensures won == !old(senderAttached)
      ensures senderAttached
      ensures senderReady == (won || old(senderReady))
    {
      won := !senderAttached;
      if won {
        senderAttached := true;
        senderReady := true;
      }
    }

    /** AttachReceiver up to waitFor. */
    method ClaimReceiver() returns (won: bool)
      modifies this`receiverAttached, this`receiverReady
      ensures won == !old(receiverAttached)
      ensures receiverAttached
      ensures receiverReady == (won || old(receiverReady))
    {
      won := !receiverAttached;
      if won {
        receiverAttached := true;
        receiverReady := true;
      }
    }

    ghost function Terms(): Meta {
      Meta(owner, sender, receiver, expiresAt)
    }

    method RoleFor(deviceID: Device) returns (r: Role)
      ensures r == RoleOf(Terms(), deviceID)
      ensures r == AsSender <==> deviceID == sender
      ensures r == AsReceiver <==> deviceID == receiver && deviceID != sender
      ensures r == Forbidden <==> deviceID != sender && deviceID != receiver
    {
      if deviceID == sender {
        return AsSender;
      }
      if deviceID == receiver {
        return AsReceiver;
      }
      return Forbidden;
    }

    /** Both halves, once. */
    method Close(err: Err)
      modifies this`pipe, this`closeDone
      ensures closeDone
      ensures pipe == if old(closeDone) then old(pipe) else CloseBoth(old(pipe), err)
      ensures !old(closeDone) ==>
                && pipe.werr == (if old(pipe).werr.Some? then old(pipe).werr else Some(err))
                && pipe.rerr == (if old(pipe).rerr.Some? then old(pipe).rerr else Some(err))
    {
      if !closeDone {
        closeDone := true;
        pipe := pipe.CloseWrite(Some(err));
        pipe := pipe.CloseRead(Some(err));
      }
    }
  }

  /** A request claiming an end of a stream. */
  datatype Arrival = Arrival(stream: Stream, sending: bool)

  datatype CreateError = TooManyStreams | NoRandomness

  datatype Created = Ok(stream: Stream) | Refused(error: CreateError)

  class Table {
    var streams: map<Id, Stream>
    var perDevice: map<Device, int>
    const maxPerDevice: int
    const ttl: int

    constructor (maxPerDevice: int, ttl: int)
      ensures Valid() && View() == EMPTY && this.maxPerDevice == maxPerDevice && this.ttl == ttl
    {
      streams, perDevice := map[], map[];
      this.maxPerDevice, this.ttl := maxPerDevice, ttl;
    }

    /** Streams are filed under their own id. */
    ghost predicate Valid()
      reads this
    {
      forall id :: id in streams ==> streams[id].id == id
    }

    /** The registry as a value. */
    ghost function View(): Reg
      reads this
    {
      Reg(Metas(streams), perDevice)
    }

    static ghost function Metas(streams: map<Id, Stream>): map<Id, Meta> {
      map id | id in streams :: streams[id].Terms()
    }

    static lemma MetasMinus(streams: map<Id, Stream>, gone: set<Id>)
      ensures Metas(streams - gone) == Metas(streams) - gone
    {
    }

    static ghost function FlagsOf(streams: map<Id, Stream>): Flags
      reads streams.Values
    {
      map id | id in streams :: (streams[id].senderAttached, streams[id].receiverAttached)
    }

    /** `newID` is what the random source gave; ids do not repeat. */
    method Create(newID: Option<Id>, owner: Device, sender: Device, receiver: Device, now: int) returns (r: Created)
      requires Valid()
      requires newID.Some? ==> newID.value !in streams
      modifies this
      ensures Valid()
      ensures newID.None? ==> r == Refused(NoRandomness) && View() == old(View()) && streams == old(streams)
      ensures newID.Some? ==>
                match Admit(old(View()), maxPerDevice, newID.value, Meta(owner, sender, receiver, now + ttl))
                case None => r == Refused(TooManyStreams) && View() == old(View()) && streams == old(streams)
                case Some(v) =>
                  && View() == v && r.Ok? && r.stream.id == newID.value
                  && r.stream.Terms() == Meta(owner, sender, receiver, now + ttl) && fresh(r.stream) && streams == old(streams)[newID.value := r.stream]
                  && !r.stream.senderAttached && !r.stream.receiverAttached && r.stream.pipe == OPEN && !r.stream.closeDone
    {
      if newID.None? {
        return Refused(NoRandomness);
      }
      if Slots(perDevice, owner) >= maxPerDevice {
        return Refused(TooManyStreams);
      }
      var s := new Stream(newID.value, owner, sender, receiver, now + ttl);
      streams := streams[newID.value := s];
      perDevice := perDevice[owner := Slots(perDevice, owner) + 1];
      r := Ok(s);
      assert View().streams == old(View()).streams[newID.value := s.Terms()];
    }

    method Get(id: Id) returns (s: Option<Stream>)
      ensures s == if id in streams then Some(streams[id]) else None
    {
      s := if id in streams then Some(streams[id]) else None;
    }

    /** Removes a stream and refunds its owner; a stream already removed is left alone. */
    method Release(s: Stream)
      requires Valid()
      requires s.id in streams ==> streams[s.id] == s
      modifies this, s`pipe, s`closeDone
      ensures Valid()
      ensures s.id !in old(streams) ==>
                View() == old(View()) && streams == old(streams) && s.pipe == old(s.pipe) && s.closeDone == old(s.closeDone)
      ensures s.id in old(streams) ==>
                && View() == RemoveOne(old(View()), s.id) && streams == old(streams) - {s.id} && s.closeDone
                && s.pipe == if old(s.closeDone) then old(s.pipe) else CloseBoth(old(s.pipe), NotFound)
    {
      if s.id !in streams {
        return;
      }
      streams := streams - {s.id};
      perDevice := Refund(perDevice, s.owner, 1);
      assert View().streams == old(View()).streams - {s.id};
      s.Close(NotFound);
    }

    /** The pipes of some streams, and which of them have been closed. */
    static ghost function PipesOf(streams: map<Id, Stream>): map<Id, (Pipe, bool)>
      reads streams.Values
    {
      map id | id in streams :: (streams[id].pipe, streams[id].closeDone)
    }

    /** The closing loop of Sweep and ReleaseDevice. */
    method CloseAll(gone: seq<Stream>)
      requires forall i, j :: 0 <= i < j < |gone| ==> gone[i] != gone[j]
      modifies (set s | s in gone)`pipe, (set s | s in gone)`closeDone
      ensures forall s :: s in gone ==>
                s.closeDone && s.pipe == if old(s.closeDone) then old(s.pipe) else CloseBoth(old(s.pipe), NotFound)
    {
      for k := 0 to |gone|
        invariant forall i :: 0 <= i < k ==>
                    && gone[i].closeDone
                    && gone[i].pipe == if old(gone[i].closeDone) then old(gone[i].pipe) else CloseBoth(old(gone[i].pipe), NotFound)
        invariant forall i :: k <= i < |gone| ==> gone[i].pipe == old(gone[i].pipe) && gone[i].closeDone == old(gone[i].closeDone)
      {
        gone[k].Close(NotFound);
      }
    }

    /** `taken` lists the streams filed under `gone`, each once, in the order `ids`. */
    static ghost predicate Lists(taken: seq<Stream>, were: map<Id, Stream>, ids: seq<Id>, gone: set<Id>)
      decreases |ids|
    {
      && |taken| == |ids|
      && if ids == [] then gone == {} else
           var n := |ids| - 1;
           && ids[n] in were && taken[n] == were[ids[n]] && ids[n] in gone
           && Lists(taken[..n], were, ids[..n], gone - {ids[n]})
    }

    static lemma ListsOneMore(taken: seq<Stream>, were: map<Id, Stream>, ids: seq<Id>, gone: set<Id>, id: Id)
      requires Lists(taken, were, ids, gone)
      requires id in were && id !in gone
      ensures Lists(taken + [were[id]], were, ids + [id], gone + {id})
    {
      assert (taken + [were[id]])[..|ids|] == taken && (ids + [id])[..|ids|] == ids;
      assert gone + {id} - {id} == gone;
    }

    /** A removing scan that has taken the streams `gone`. */
    static ghost predicate Scanned(all: map<Id, Stream>, before: Reg, gone: set<Id>,
                                   streams: map<Id, Stream>, taken: seq<Stream>, ids: seq<Id>) {
      gone <= all.Keys && before.streams.Keys == all.Keys && streams == all - gone && Lists(taken, all, ids, gone)
    }

    static lemma ScanTakes(all: map<Id, Stream>, before: Reg, gone: set<Id>,
                           streams: map<Id, Stream>, taken: seq<Stream>, ids: seq<Id>, id: Id)
      requires Scanned(all, before, gone, streams, taken, ids) && id in all && id !in gone
      ensures Scanned(all, before, gone + {id}, streams - {id}, taken + [all[id]], ids + [id])
      ensures RemoveAll(before, gone + {id}) == RemoveOne(RemoveAll(before, gone), id)
    {
      ListsOneMore(taken, all, ids, gone, id);
      RemoveOneMore(before, gone, id);
      OneStreamLess(all, gone, id);
    }

    static lemma OneStreamLess(all: map<Id, Stream>, gone: set<Id>, id: Id)
      ensures (all - gone) - {id} == all - (gone + {id})
    {
    }

    // The attach flags are set without the registry's lock, so requests go on claiming ends
    // while a scan runs: `arrivals` says which, before each stream it looks at.

    static method Arrive(batch: seq<Arrival>, ghost all: map<Id, Stream>)
      requires forall k :: 0 <= k < |batch| ==> batch[k].stream in all.Values
      modifies all.Values`senderAttached, all.Values`senderReady, all.Values`receiverAttached, all.Values`receiverReady
      ensures Grown(old(FlagsOf(all)), FlagsOf(all))
      ensures batch == [] ==> FlagsOf(all) == old(FlagsOf(all))
    {
      for k := 0 to |batch|
        invariant Grown(old(FlagsOf(all)), FlagsOf(all))
        invariant batch == [] ==> FlagsOf(all) == old(FlagsOf(all))
      {
        ArriveOne(batch[k], all);
      }
    }

    static method ArriveOne(a: Arrival, ghost all: map<Id, Stream>)
      modifies a.stream`senderAttached, a.stream`senderReady, a.stream`receiverAttached, a.stream`receiverReady
      ensures Grown(old(FlagsOf(all)), FlagsOf(all))
    {
      var won;
      if a.sending {
        won := a.stream.ClaimSender();
      } else {
        won := a.stream.ClaimReceiver();
      }
    }

    static predicate Known(arrivals: seq<seq<Arrival>>, all: map<Id, Stream>) {
      forall i, k :: 0 <= i < |arrivals| && 0 <= k < |arrivals[i]| ==> arrivals[i][k].stream in all.Values
    }

    static function Batch(arrivals: seq<seq<Arrival>>, k: nat): seq<Arrival> {
      if k < |arrivals| then arrivals[k] else []
    }

    /** A scan that removes what `target` says of the flags it finds: it has taken nothing
        that was not due when it began, and everything it has passed that still is. */
    static ghost predicate Sifted(due: set<Id>, still: set<Id>, todo: set<Id>, gone: set<Id>) {
      gone <= due && gone !! todo && still - todo <= gone
    }

    /** It comes to `id`, with `now` instead of `still` to be removed. */
    static lemma SiftOne(due: set<Id>, still: set<Id>, now: set<Id>, todo: set<Id>, gone: set<Id>, id: Id)
      requires Sifted(due, still, todo, gone) && id in todo && now <= still && now <= due
      ensures id in now ==> Sifted(due, now, todo - {id}, gone + {id})
      ensures id !in now ==> Sifted(due, now, todo - {id}, gone)
    {
    }

    /** One look of Sweep at a stream, after some more requests have arrived. */
    static method LookStale(id: Id, s: Stream, now: int, batch: seq<Arrival>, ghost all: map<Id, Stream>,
                            ghost before: Reg, ghost flags: Flags, ghost todo: set<Id>, ghost gone: set<Id>)
      returns (keep: bool)
      requires id in all && all[id] == s && id in before.streams && before.streams[id] == s.Terms() && id in todo
      requires forall k :: 0 <= k < |batch| ==> batch[k].stream in all.Values
      requires Grown(flags, FlagsOf(all))
      requires Sifted(Stale(before, now, Touched(flags)), Stale(before, now, Touched(FlagsOf(all))), todo, gone)
      modifies all.Values`senderAttached, all.Values`senderReady, all.Values`receiverAttached, all.Values`receiverReady
      ensures Grown(flags, FlagsOf(all)) && (batch == [] ==> FlagsOf(all) == old(FlagsOf(all)))
      ensures Sifted(Stale(before, now, Touched(flags)), Stale(before, now, Touched(FlagsOf(all))), todo - {id},
                     if keep then gone else gone + {id})
    {
      ghost var f := FlagsOf(all);
      Arrive(batch, all);
      SiftStale(before, now, flags, f, FlagsOf(all), todo, gone, id);
      assert FlagsOf(all)[id] == (s.senderAttached, s.receiverAttached);
      keep := now < s.expiresAt || s.senderAttached || s.receiverAttached;
    }

    /** And one of ReleaseDevice. */
    static method LookLoose(id: Id, s: Stream, deviceID: Device, batch: seq<Arrival>, ghost all: map<Id, Stream>,
                            ghost before: Reg, ghost flags: Flags, ghost todo: set<Id>, ghost gone: set<Id>)
      returns (keep: bool)
      requires id in all && all[id] == s && id in before.streams && before.streams[id] == s.Terms() && id in todo
      requires forall k :: 0 <= k < |batch| ==> batch[k].stream in all.Values
      requires Grown(flags, FlagsOf(all))
      requires Sifted(Loose(before, deviceID, Full(flags)), Loose(before, deviceID, Full(FlagsOf(all))), todo, gone)
      modifies all.Values`senderAttached, all.Values`senderReady, all.Values`receiverAttached, all.Values`receiverReady
      ensures Grown(flags, FlagsOf(all)) && (batch == [] ==> FlagsOf(all) == old(FlagsOf(all)))
      ensures Sifted(Loose(before, deviceID, Full(flags)), Loose(before, deviceID, Full(FlagsOf(all))), todo - {id},
                     if keep then gone else gone + {id})
    {
      ghost var f := FlagsOf(all);
      Arrive(batch, all);
      SiftLoose(before, deviceID, flags, f, FlagsOf(all), todo, gone, id);
      assert FlagsOf(all)[id] == (s.senderAttached, s.receiverAttached);
      keep := s.owner != deviceID || (s.senderAttached && s.receiverAttached);
    }

    /** A scan takes a stream off the table. */
    method Strike(id: Id, ghost all: map<Id, Stream>, ghost before: Reg, ghost gone: set<Id>,
                  ghost taken: seq<Stream>, ghost ids: seq<Id>)
      requires Scanned(all, before, gone, streams, taken, ids) && id in all && id !in gone
      modifies this`streams
      ensures Scanned(all, before, gone + {id}, streams, taken + [all[id]], ids + [id])
      ensures RemoveAll(before, gone + {id}) == RemoveOne(RemoveAll(before, gone), id)
      ensures FlagsOf(all) == old(FlagsOf(all))
    {
      ScanTakes(all, before, gone, streams, taken, ids, id);
      streams := streams - {id};
    }

    method StrikeAndRefund(id: Id, owner: Device, ghost all: map<Id, Stream>, ghost before: Reg, ghost gone: set<Id>,
                           ghost taken: seq<Stream>, ghost ids: seq<Id>)
      requires Scanned(all, before, gone, streams, taken, ids) && id in all && id !in gone
      requires perDevice == RemoveAll(before, gone).perDevice && before.streams[id].owner == owner
      modifies this`streams, this`perDevice
      ensures Scanned(all, before, gone + {id}, streams, taken + [all[id]], ids + [id])
      ensures perDevice == RemoveAll(before, gone + {id}).perDevice
      ensures FlagsOf(all) == old(FlagsOf(all))
    {
      Strike(id, all, before, gone, taken, ids);
      perDevice := Refund(perDevice, owner, 1);
    }

    /** Where the scan of Sweep stands: `flags` are those it began with, `f` those of now. */
    static ghost predicate SweepStands(all: map<Id, Stream>, before: Reg, now: int, flags: Flags, f: Flags, todo: set<Id>,
                                       perDevice: map<Device, int>, streams: map<Id, Stream>, stale: seq<Stream>, ids: seq<Id>, gone: set<Id>) {
      && todo <= all.Keys && Scanned(all, before, gone, streams, stale, ids)
      && perDevice == RemoveAll(before, gone).perDevice
      && Grown(flags, f) && Sifted(Stale(before, now, Touched(flags)), Stale(before, now, Touched(f)), todo, gone)
    }

    /** One turn of the loop of Sweep. */
    method SweepStep(id: Id, now: int, batch: seq<Arrival>, stale: seq<Stream>, ghost ids: seq<Id>, ghost gone: set<Id>,
                     ghost all: map<Id, Stream>, ghost before: Reg, ghost flags: Flags, ghost todo: set<Id>)
      returns (stale': seq<Stream>, ghost ids': seq<Id>, ghost gone': set<Id>)
      requires before.streams == Metas(all) && id in todo
      requires forall k :: 0 <= k < |batch| ==> batch[k].stream in all.Values
      requires SweepStands(all, before, now, flags, FlagsOf(all), todo, perDevice, streams, stale, ids, gone)
      modifies this`streams, this`perDevice
      modifies all.Values`senderAttached, all.Values`senderReady, all.Values`receiverAttached, all.Values`receiverReady
      ensures SweepStands(all, before, now, flags, FlagsOf(all), todo - {id}, perDevice, streams, stale', ids', gone')
      ensures batch == [] ==> FlagsOf(all) == old(FlagsOf(all))
    {
      var s := streams[id];
      var keep := LookStale(id, s, now, batch, all, before, flags, todo, gone);
      if keep {
        return stale, ids, gone;
      }
      StrikeAndRefund(id, s.owner, all, before, gone, stale, ids);
      stale', ids', gone' := stale + [s], ids + [id], gone + {id};
    }

    static lemma BatchIsKnown(arrivals: seq<seq<Arrival>>, all: map<Id, Stream>, looks: nat)
      requires Known(arrivals, all)
      ensures forall k :: 0 <= k < |Batch(arrivals, looks)| ==> Batch(arrivals, looks)[k].stream in all.Values
    {
    }

    /** The locked part of Sweep: what was stale all along goes, and nothing that was not
        stale when it began. */
    method TakeStale(now: int, arrivals: seq<seq<Arrival>>) returns (stale: seq<Stream>, ghost ids: seq<Id>, ghost gone: set<Id>)
      requires Valid() && Known(arrivals, streams)
      modifies this`streams, this`perDevice
      modifies streams.Values`senderAttached, streams.Values`senderReady
      modifies streams.Values`receiverAttached, streams.Values`receiverReady
      ensures Valid() && Grown(old(FlagsOf(streams)), FlagsOf(old(streams)))
      ensures arrivals == [] ==> FlagsOf(old(streams)) == old(FlagsOf(streams))
      ensures gone <= Stale(old(View()), now, Touched(old(FlagsOf(streams))))
      ensures Stale(old(View()), now, Touched(FlagsOf(old(streams)))) <= gone
      ensures View() == RemoveAll(old(View()), gone) && streams == old(streams) - gone && Lists(stale, old(streams), ids, gone)
    {
      ghost var all, before, flags := streams, View(), FlagsOf(streams);
      stale, ids, gone := [], [], {};
      var todo, looks := streams.Keys, 0;
      RemoveNone(before);
      while todo != {}
        invariant SweepStands(all, before, now, flags, FlagsOf(all), todo, perDevice, streams, stale, ids, gone)
        invariant arrivals == [] ==> FlagsOf(all) == flags
        decreases todo
      {
        var id :| id in todo;
        BatchIsKnown(arrivals, all, looks);
        stale, ids, gone := SweepStep(id, now, Batch(arrivals, looks), stale, ids, gone, all, before, flags, todo);
        looks, todo := looks + 1, todo - {id};
      }
      MetasMinus(all, gone);
    }

    static lemma SiftStale(before: Reg, now: int, flags: Flags, f: Flags, g: Flags, todo: set<Id>, gone: set<Id>, id: Id)
      requires Grown(flags, f) && Grown(f, g) && id in todo
      requires Sifted(Stale(before, now, Touched(flags)), Stale(before, now, Touched(f)), todo, gone)
      ensures Grown(flags, g)
      ensures var still := Stale(before, now, Touched(g));
              Sifted(Stale(before, now, Touched(flags)), still, todo - {id}, if id in still then gone + {id} else gone)
    {
      GrownTwice(flags, f, g);
      LessToRemove(before, now, "", f, g);
      LessToRemove(before, now, "", flags, g);
      SiftOne(Stale(before, now, Touched(flags)), Stale(before, now, Touched(f)), Stale(before, now, Touched(g)), todo, gone, id);
    }

    static lemma SiftLoose(before: Reg, d: Device, flags: Flags, f: Flags, g: Flags, todo: set<Id>, gone: set<Id>, id: Id)
      requires Grown(flags, f) && Grown(f, g) && id in todo
      requires Sifted(Loose(before, d, Full(flags)), Loose(before, d, Full(f)), todo, gone)
      ensures Grown(flags, g)
      ensures var still := Loose(before, d, Full(g));
              Sifted(Loose(before, d, Full(flags)), still, todo - {id}, if id in still then gone + {id} else gone)
    {
      GrownTwice(flags, f, g);
      LessToRemove(before, 0, d, f, g);
      LessToRemove(before, 0, d, flags, g);
      SiftOne(Loose(before, d, Full(flags)), Loose(before, d, Full(f)), Loose(before, d, Full(g)), todo, gone, id);
    }

    static lemma {:induction false} ListsSize(taken: seq<Stream>, were: map<Id, Stream>, ids: seq<Id>, gone: set<Id>)
      requires Lists(taken, were, ids, gone)
      ensures |taken| == |gone|
      decreases |ids|
    {
      if ids != [] {
        var n := |ids| - 1;
        ListsSize(taken[..n], were, ids[..n], gone - {ids[n]});
      }
    }

    /** Streams filed under different ids are different objects. */
    static lemma {:induction false} StreamsDiffer(were: map<Id, Stream>, taken: seq<Stream>, ids: seq<Id>, gone: set<Id>)
      requires forall id :: id in were ==> were[id].id == id
      requires Lists(taken, were, ids, gone)
      ensures |taken| == |gone|
      ensures forall i, j :: 0 <= i < j < |taken| ==> taken[i] != taken[j]
      ensures forall s :: s in taken ==> s.id in gone && s.id in were && were[s.id] == s
      ensures forall id :: id in gone ==> id in were && were[id] in taken
      decreases |ids|
    {
      if ids == [] {
      } else {
        var n := |ids| - 1;
        StreamsDiffer(were, taken[..n], ids[..n], gone - {ids[n]});
        assert taken == taken[..n] + [were[ids[n]]];
      }
    }

    /** Both scans close what they have taken once the lock is dropped. */
    method CloseTaken(taken: seq<Stream>, ghost all: map<Id, Stream>, ghost ids: seq<Id>, ghost gone: set<Id>)
      requires (forall id :: id in all ==> all[id].id == id) && Lists(taken, all, ids, gone)
      modifies all.Values`pipe, all.Values`closeDone
      ensures PipesOf(all) == AllClosed(old(PipesOf(all)), gone) && FlagsOf(all) == old(FlagsOf(all))
    {
      StreamsDiffer(all, taken, ids, gone);
      CloseAll(taken);
    }

    /** Drops streams that expired before either end attached. */
    method Sweep(now: int, arrivals: seq<seq<Arrival>>) returns (n: nat, ghost gone: set<Id>)
      requires Valid() && Known(arrivals, streams)
      modifies this`streams, this`perDevice
      modifies streams.Values`senderAttached, streams.Values`senderReady
      modifies streams.Values`receiverAttached, streams.Values`receiverReady
      modifies streams.Values`pipe, streams.Values`closeDone
      ensures Valid() && Grown(old(FlagsOf(streams)), FlagsOf(old(streams)))
      ensures arrivals == [] ==> FlagsOf(old(streams)) == old(FlagsOf(streams))
      ensures gone <= Stale(old(View()), now, Touched(old(FlagsOf(streams))))
      ensures Stale(old(View()), now, Touched(FlagsOf(old(streams)))) <= gone
      ensures View() == RemoveAll(old(View()), gone) && streams == old(streams) - gone
      ensures n == |gone| && PipesOf(old(streams)) == AllClosed(old(PipesOf(streams)), gone)
      ensures forall id :: id in gone ==>
                && id in old(streams) && now >= old(streams)[id].expiresAt
                && !old(streams[id].senderAttached) && !old(streams[id].receiverAttached)
      ensures forall id :: id in streams ==>
                now < streams[id].expiresAt || streams[id].senderAttached || streams[id].receiverAttached
    {
      ghost var all := streams;
      var stale;
      ghost var ids;
      ghost var pipes := PipesOf(all);
      stale, ids, gone := TakeStale(now, arrivals);
      assert PipesOf(all) == pipes;
      ListsSize(stale, all, ids, gone);
      CloseTaken(stale, all, ids, gone);
      RestIsNotStale(all, now, gone);
      n := |stale|;
    }

    static lemma RestIsNotStale(all: map<Id, Stream>, now: int, gone: set<Id>)
      requires Stale(Reg(Metas(all), map[]), now, Touched(FlagsOf(all))) <= gone
      ensures forall id :: id in all && id !in gone ==>
                now < all[id].expiresAt || all[id].senderAttached || all[id].receiverAttached
    {
    }

    /** Where the scan of ReleaseDevice stands. */
    static ghost predicate ReleaseStands(all: map<Id, Stream>, before: Reg, d: Device, flags: Flags, f: Flags, todo: set<Id>,
                                         streams: map<Id, Stream>, owned: seq<Stream>, ids: seq<Id>, gone: set<Id>) {
      && todo <= all.Keys && Scanned(all, before, gone, streams, owned, ids)
      && Grown(flags, f) && Sifted(Loose(before, d, Full(flags)), Loose(before, d, Full(f)), todo, gone)
    }

    /** One turn of the loop of ReleaseDevice. */
    method ReleaseStep(id: Id, deviceID: Device, batch: seq<Arrival>, owned: seq<Stream>, ghost ids: seq<Id>, ghost gone: set<Id>,
                       ghost all: map<Id, Stream>, ghost before: Reg, ghost flags: Flags, ghost todo: set<Id>)
      returns (owned': seq<Stream>, ghost ids': seq<Id>, ghost gone': set<Id>)
      requires before.streams == Metas(all) && id in todo
      requires forall k :: 0 <= k < |batch| ==> batch[k].stream in all.Values
      requires ReleaseStands(all, before, deviceID, flags, FlagsOf(all), todo, streams, owned, ids, gone)
      modifies this`streams
      modifies all.Values`senderAttached, all.Values`senderReady, all.Values`receiverAttached, all.Values`receiverReady
      ensures ReleaseStands(all, before, deviceID, flags, FlagsOf(all), todo - {id}, streams, owned', ids', gone')
      ensures batch == [] ==> FlagsOf(all) == old(FlagsOf(all))
    {
      var s := streams[id];
      var keep := LookLoose(id, s, deviceID, batch, all, before, flags, todo, gone);
      if keep {
        return owned, ids, gone;
      }
      Strike(id, all, before, gone, owned, ids);
      owned', ids', gone' := owned + [s], ids + [id], gone + {id};
    }

    /** The scan of ReleaseDevice: the accounts wait until its end. */
    method ScanLoose(deviceID: Device, arrivals: seq<seq<Arrival>>) returns (owned: seq<Stream>, ghost ids: seq<Id>, ghost gone: set<Id>)
      requires Valid() && Known(arrivals, streams)
      modifies this`streams
      modifies streams.Values`senderAttached, streams.Values`senderReady
      modifies streams.Values`receiverAttached, streams.Values`receiverReady
      ensures Valid() && Grown(old(FlagsOf(streams)), FlagsOf(old(streams)))
      ensures arrivals == [] ==> FlagsOf(old(streams)) == old(FlagsOf(streams))
      ensures gone <= Loose(old(View()), deviceID, Full(old(FlagsOf(streams))))
      ensures Loose(old(View()), deviceID, Full(FlagsOf(old(streams)))) <= gone
      ensures streams == old(streams) - gone && Lists(owned, old(streams), ids, gone)
    {
      ghost var all, before, flags := streams, View(), FlagsOf(streams);
      owned, ids, gone := [], [], {};
      var todo, looks := streams.Keys, 0;
      while todo != {}
        invariant ReleaseStands(all, before, deviceID, flags, FlagsOf(all), todo, streams, owned, ids, gone)
        invariant arrivals == [] ==> FlagsOf(all) == flags
        decreases todo
      {
        var id :| id in todo;
        BatchIsKnown(arrivals, all, looks);
        owned, ids, gone := ReleaseStep(id, deviceID, Batch(arrivals, looks), owned, ids, gone, all, before, flags, todo);
        looks, todo := looks + 1, todo - {id};
      }
    }

    /** The single subtraction that follows the scan. */
    method GiveBack(deviceID: Device, released: nat)
      modifies this`perDevice
      ensures perDevice == if released > 0 then Refund(old(perDevice), deviceID, released) else old(perDevice)
    {
      if released > 0 {
        DropAfterStore(perDevice, deviceID, Slots(perDevice, deviceID) - released);
        perDevice := perDevice[deviceID := Slots(perDevice, deviceID) - released];
        if perDevice[deviceID] <= 0 {
          perDevice := perDevice - {deviceID};
        }
      }
    }

    /** The locked part of ReleaseDevice. */
    method TakeLoose(deviceID: Device, arrivals: seq<seq<Arrival>>) returns (owned: seq<Stream>, ghost ids: seq<Id>, ghost gone: set<Id>)
      requires Valid() && Known(arrivals, streams)
      modifies this`streams, this`perDevice
      modifies streams.Values`senderAttached, streams.Values`senderReady
      modifies streams.Values`receiverAttached, streams.Values`receiverReady
      ensures Valid() && Grown(old(FlagsOf(streams)), FlagsOf(old(streams)))
      ensures arrivals == [] ==> FlagsOf(old(streams)) == old(FlagsOf(streams))
      ensures gone <= Loose(old(View()), deviceID, Full(old(FlagsOf(streams))))
      ensures Loose(old(View()), deviceID, Full(FlagsOf(old(streams)))) <= gone
      ensures View() == RemoveAll(old(View()), gone) && streams == old(streams) - gone && Lists(owned, old(streams), ids, gone)
    {
      ghost var all, before := streams, View();
      owned, ids, gone := ScanLoose(deviceID, arrivals);
      var released := |owned|;
      MetasMinus(all, gone);
      ListsSize(owned, all, ids, gone);
      RefundAtOnce(before, gone, deviceID);
      GiveBack(deviceID, released);
    }

    /** Drops the streams of a device that disconnected, except those claimed at both ends:
        what it owned is afterwards gone or claimed at both ends. */
    method ReleaseDevice(deviceID: Device, arrivals: seq<seq<Arrival>>) returns (ghost gone: set<Id>)
      requires Valid() && Known(arrivals, streams)
      modifies this`streams, this`perDevice
      modifies streams.Values`senderAttached, streams.Values`senderReady
      modifies streams.Values`receiverAttached, streams.Values`receiverReady
      modifies streams.Values`pipe, streams.Values`closeDone
      ensures Valid() && Grown(old(FlagsOf(streams)), FlagsOf(old(streams)))
      ensures arrivals == [] ==> FlagsOf(old(streams)) == old(FlagsOf(streams))
      ensures gone <= Loose(old(View()), deviceID, Full(old(FlagsOf(streams))))
      ensures Loose(old(View()), deviceID, Full(FlagsOf(old(streams)))) <= gone
      ensures View() == RemoveAll(old(View()), gone) && streams == old(streams) - gone
      ensures PipesOf(old(streams)) == AllClosed(old(PipesOf(streams)), gone)
      ensures forall id :: id in gone ==>
                && id in old(streams) && old(streams)[id].owner == deviceID
                && !(old(streams[id].senderAttached) && old(streams[id].receiverAttached))
      ensures forall id :: id in streams && streams[id].owner == deviceID ==>
                streams[id].senderAttached && streams[id].receiverAttached
    {
      ghost var all := streams;
      var owned;
      ghost var ids;
      ghost var pipes := PipesOf(all);
      owned, ids, gone := TakeLoose(deviceID, arrivals);
      assert PipesOf(all) == pipes;
      CloseTaken(owned, all, ids, gone);
      RestIsFull(all, deviceID, gone);
    }

    static lemma RestIsFull(all: map<Id, Stream>, d: Device, gone: set<Id>)
      requires Loose(Reg(Metas(all), map[]), d, Full(FlagsOf(all))) <= gone
      ensures forall id :: id in all && id !in gone && all[id].owner == d ==> all[id].senderAttached && all[id].receiverAttached
    {
    }

    method Len() returns (n: nat)
      ensures n == |streams|
    {
      n := |streams|;
    }
  }
}
