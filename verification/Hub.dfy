/** Who is connected and who wants to hear about whom: the hub's operations on values, and
    the class that performs them with loops over its maps. */
module Hub {
  import opened Common
  import S = Session

  type Device = S.Device

  /** The two maps; `T` stands for whatever identifies a session. */
  datatype Hub<T> = Hub(sessions: map<Device, T>, subs: map<Device, set<Device>>)

  /** A notification to deliver to session `to`. */
  datatype Update<T> = Update(to: T, device: Device, online: bool)

  function SubsOf<T>(h: Hub<T>, d: Device): set<Device> {
    if d in h.subs then h.subs[d] else {}
  }

  /** `a` is subscribed to `b`. */
  predicate Lists<T>(h: Hub<T>, a: Device, b: Device) {
    b in SubsOf(h, a)
  }

  predicate Mutual<T>(h: Hub<T>, a: Device, b: Device) {
    Lists(h, a, b) && Lists(h, b, a)
  }

  /** The connected devices that list `d` and are listed by it. */
  function Watchers<T>(h: Hub<T>, d: Device): set<Device> {
    set p | p in SubsOf(h, d) && Lists(h, p, d) && p in h.sessions
  }

  function Registered<T>(h: Hub<T>, d: Device, s: T): Hub<T> {
    h.(sessions := h.sessions[d := s])
  }

  predicate Holds<T(==)>(h: Hub<T>, d: Device, s: T) {
    d in h.sessions && h.sessions[d] == s
  }

  function Unregistered<T>(h: Hub<T>, d: Device): Hub<T> {
    Hub(h.sessions - {d}, h.subs - {d})
  }

  /** The devices told that `d` went offline: its watchers once its session is gone. */
  function ToldGone<T>(h: Hub<T>, d: Device): set<Device> {
    Watchers(h.(sessions := h.sessions - {d}), d)
  }

  /** A subscription list as stored: no empty entry and not the device itself. */
  function Wanted(d: Device, peers: seq<Device>): set<Device> {
    set p | p in peers && p != "" && p != d
  }

  function Subscribed<T>(h: Hub<T>, d: Device, peers: seq<Device>): Hub<T> {
    if d in h.sessions then h.(subs := h.subs[d := Wanted(d, peers)]) else h
  }

  /** The devices `d` is mutual with after a Subscribe, connected or not. */
  function Mutuals<T>(h: Hub<T>, d: Device, peers: seq<Device>): set<Device> {
    set p | p in SubsOf(Subscribed(h, d, peers), d) && Lists(Subscribed(h, d, peers), p, d)
  }

  /** The connected devices a Subscribe of `d` concerns: those it is mutual with now and
      those that were watching it before. */
  function Heard<T>(h: Hub<T>, d: Device, peers: seq<Device>): set<Device> {
    (Mutuals(h, d, peers) * h.sessions.Keys) + Watchers(h, d)
  }

  /** What the subscriber is told about one device it is now mutual with. */
  function ToSelf<T>(h: Hub<T>, d: Device, p: Device): Update<T>
    requires d in h.sessions
  {
    Update(h.sessions[d], p, p in h.sessions)
  }

  /** What one concerned device is told about the subscriber. */
  function ToPeer<T>(h: Hub<T>, d: Device, peers: seq<Device>, p: Device): Update<T>
    requires p in h.sessions
  {
    Update(h.sessions[p], d, p in Mutuals(h, d, peers))
  }

  /** The notifications a Subscribe implies: the subscriber learns the state of every
      device it is now mutual with, those devices learn that it is online, and devices
      that were watching it and are not mutual any more learn that it is gone. */
  function Implied<T(==)>(h: Hub<T>, d: Device, peers: seq<Device>): set<Update<T>> {
    if d !in h.sessions then {}
    else
      (set p | p in Mutuals(h, d, peers) :: ToSelf(h, d, p))
      + (set p | p in Heard(h, d, peers) :: ToPeer(h, d, peers, p))
  }

  /** `xs` lists the elements of `s`, each once. */
  ghost predicate Enumerates<X>(xs: seq<X>, s: set<X>) {
    && (forall i, j :: 0 <= i < j < |xs| ==> xs[i] != xs[j])
    && (forall x | x in xs :: x in s)
    && (forall x | x in s :: x in xs)
  }

  lemma EnumeratesOneMore<X>(xs: seq<X>, s: set<X>, x: X)
    requires Enumerates(xs, s) && x !in s
    ensures Enumerates(xs + [x], s + {x})
  {
  }

  /** A mailbox after the messages among `us` that are for session `s`, in order. */
  ghost function PushAll<T>(b: S.Mailbox, us: seq<Update<T>>, s: T): S.Mailbox {
    if us == [] then b
    else
      var before := PushAll(b, us[..|us| - 1], s);
      var u := us[|us| - 1];
      if u.to == s then S.Push(before, S.Presence(u.device, u.online)) else before
  }

  /** Presence is only ever revealed between two devices that list each other, before or
      after the change that is announced. */
  lemma OnlyMutualIsRevealed<T>(h: Hub<T>, d: Device, peers: seq<Device>, p: Device)
    requires d in h.sessions
    ensures p in Mutuals(h, d, peers) ==> Mutual(Subscribed(h, d, peers), d, p)
    ensures p in Heard(h, d, peers) ==> Mutual(Subscribed(h, d, peers), d, p) || Mutual(h, d, p)
  {
  }

  // ---- the object --------------------------------------------------------------------------

  class Directory {
    var sessions: map<Device, S.Session>
    var subs: map<Device, set<Device>>

    constructor ()
      ensures Valid() && State() == Hub(map[], map[])
    {
      sessions, subs := map[], map[];
    }

    /** Sessions are filed under their own device and no device lists itself. */
    ghost predicate Valid()
      reads this
    {
      && (forall d :: d in sessions ==> sessions[d].deviceID == d)
      && (forall d :: d in subs ==> d !in subs[d])
    }

    ghost function State(): Hub<S.Session>
      reads this
    {
      Hub(sessions, subs)
    }

    /** The newcomer wins; the caller closes the session returned. */
    method Register(s: S.Session) returns (previous: Option<S.Session>)
      requires Valid()
      modifies this`sessions
      ensures Valid() && State() == Registered(old(State()), s.deviceID, s)
      ensures sessions == old(sessions)[s.deviceID := s] && subs == old(subs)
      ensures previous == if s.deviceID in old(sessions) then Some(old(sessions)[s.deviceID]) else None
    {
      previous := if s.deviceID in sessions then Some(sessions[s.deviceID]) else None;
      sessions := sessions[s.deviceID := s];
    }

    method Lookup(deviceID: Device) returns (s: Option<S.Session>)
      ensures s == if deviceID in sessions then Some(sessions[deviceID]) else None
    {
      s := if deviceID in sessions then Some(sessions[deviceID]) else None;
    }

    method SubscribedTo(subscriber: Device, target: Device) returns (b: bool)
      ensures b == Lists(State(), subscriber, target)
    {
      b := subscriber in subs && target in subs[subscriber];
    }

    /** Connected sessions that subscribe to a device and are subscribed to by it. */
    method MutualWatchers(deviceID: Device) returns (watchers: seq<S.Session>)
      requires Valid()
      ensures Enumerates(watchers, SessionsOf(State(), Watchers(State(), deviceID)))
    {
      watchers := [];
      ghost var h := State();
      ghost var done: set<Device> := {};
      var todo := if deviceID in subs then subs[deviceID] else {};
      assert SessionsOf(h, {}) == {};
      while todo != {}
        invariant todo <= SubsOf(h, deviceID) && done == Watchers(h, deviceID) - todo
        invariant Enumerates(watchers, SessionsOf(h, done))
        decreases todo
      {
        var peer :| peer in todo;
        todo := todo - {peer};
        var back := SubscribedTo(peer, deviceID);
        if !back {
          continue;
        }
        if peer in sessions {
          SessionsOneMore(h, done, peer);
          EnumeratesOneMore(watchers, SessionsOf(h, done), sessions[peer]);
          watchers := watchers + [sessions[peer]];
          done := done + {peer};
        }
      }
      assert done == Watchers(h, deviceID);
    }

    /** The sessions of the connected devices among `ds`. */
    static ghost function SessionsOf(h: Hub<S.Session>, ds: set<Device>): set<S.Session> {
      set p | p in ds && p in h.sessions :: h.sessions[p]
    }

    static lemma SessionsOneMore(h: Hub<S.Session>, ds: set<Device>, p: Device)
      requires forall d :: d in h.sessions ==> h.sessions[d].deviceID == d
      requires p in h.sessions && p !in ds
      ensures SessionsOf(h, ds + {p}) == SessionsOf(h, ds) + {h.sessions[p]}
      ensures h.sessions[p] !in SessionsOf(h, ds)
    {
    }

    /** A session that has been replaced is left alone. */
    method Unregister(s: S.Session) returns (watchers: seq<S.Session>, removed: bool)
      requires Valid()
      modifies this
      ensures Valid()
      ensures removed == Holds(old(State()), s.deviceID, s)
      ensures removed <==> s.deviceID in old(sessions) && old(sessions)[s.deviceID] == s
      ensures !removed ==> watchers == [] && sessions == old(sessions) && subs == old(subs)
      ensures removed ==> sessions == old(sessions) - {s.deviceID} && subs == old(subs) - {s.deviceID}
      ensures removed ==>
                && State() == Unregistered(old(State()), s.deviceID)
                && Enumerates(watchers, SessionsOf(State(), ToldGone(old(State()), s.deviceID)))
    {
      if s.deviceID !in sessions || sessions[s.deviceID] != s {
        return [], false;
      }
      sessions := sessions - {s.deviceID};
      watchers := MutualWatchers(s.deviceID);
      subs := subs - {s.deviceID};
      removed := true;
    }

    /** The first loop of Subscribe. */
    method WantedPeers(deviceID: Device, peers: seq<Device>) returns (wanted: set<Device>)
      ensures wanted == Wanted(deviceID, peers)
      ensures forall p :: p in wanted <==> p in peers && p != "" && p != deviceID
    {
      wanted := {};
      for i := 0 to |peers|
        invariant wanted == Wanted(deviceID, peers[..i])
      {
        assert peers[..i + 1] == peers[..i] + [peers[i]];
        if peers[i] != "" && peers[i] != deviceID {
          wanted := wanted + {peers[i]};
        }
      }
      assert peers[..|peers|] == peers;
    }

    /** The notifications for the mutual devices among `ds`. */
    static ghost function Said(h: Hub<S.Session>, d: Device, peers: seq<Device>, ds: set<Device>): set<Update<S.Session>>
      requires d in h.sessions
    {
      (set p | p in ds && p in Mutuals(h, d, peers) :: ToSelf(h, d, p))
      + (set p | p in ds && p in Mutuals(h, d, peers) && p in h.sessions :: ToPeer(h, d, peers, p))
    }

    static lemma SaidOneMore(h: Hub<S.Session>, d: Device, peers: seq<Device>, ds: set<Device>, p: Device)
      requires d in h.sessions && forall x :: x in h.sessions ==> h.sessions[x].deviceID == x
      requires p in Mutuals(h, d, peers) && p !in ds
      ensures p != d
      ensures var one := Said(h, d, peers, ds) + {ToSelf(h, d, p)};
              && ToSelf(h, d, p) !in Said(h, d, peers, ds)
              && (p in h.sessions ==> ToPeer(h, d, peers, p) !in one)
              && Said(h, d, peers, ds + {p}) == if p in h.sessions then one + {ToPeer(h, d, peers, p)} else one
    {
    }

    /** The second loop of Subscribe, run once the new set is stored; `h` is the hub before. */
    method AnnounceMutual(deviceID: Device, self: S.Session, wanted: set<Device>, ghost h: Hub<S.Session>, ghost peers: seq<Device>)
      returns (updates: seq<Update<S.Session>>, stillMutual: set<Device>)
      requires Valid() && Holds(h, deviceID, self)
      requires State() == Subscribed(h, deviceID, peers) && wanted == SubsOf(State(), deviceID)
      ensures stillMutual == Mutuals(h, deviceID, peers)
      ensures Enumerates(updates, Said(h, deviceID, peers, stillMutual))
    {
      updates, stillMutual := [], {};
      var todo := wanted;
      while todo != {}
        invariant todo <= wanted && stillMutual == Mutuals(h, deviceID, peers) - todo
        invariant Enumerates(updates, Said(h, deviceID, peers, stillMutual))
        decreases todo
      {
        var peer :| peer in todo;
        todo := todo - {peer};
        var back := SubscribedTo(peer, deviceID);
        if !back {
          continue;
        }
        assert peer in Mutuals(h, deviceID, peers);
        SaidOneMore(h, deviceID, peers, stillMutual, peer);
        ghost var said := Said(h, deviceID, peers, stillMutual);
        stillMutual := stillMutual + {peer};
        var online := peer in sessions;
        EnumeratesOneMore(updates, said, ToSelf(h, deviceID, peer));
        updates := updates + [Update(self, peer, online)];
        if online {
          EnumeratesOneMore(updates, said + {ToSelf(h, deviceID, peer)}, ToPeer(h, deviceID, peers, peer));
          updates := updates + [Update(sessions[peer], deviceID, true)];
        }
      }
      assert stillMutual == Mutuals(h, deviceID, peers);
    }

    /** The notifications for those among `ds` that are not mutual any more. */
    static ghost function Lost(h: Hub<S.Session>, d: Device, peers: seq<Device>, ds: set<Device>): set<Update<S.Session>> {
      set p | p in ds && p in h.sessions && p !in Mutuals(h, d, peers) :: ToPeer(h, d, peers, p)
    }

    static lemma LostOneMore(h: Hub<S.Session>, d: Device, peers: seq<Device>, ds: set<Device>, p: Device)
      requires d in h.sessions && forall x :: x in h.sessions ==> h.sessions[x].deviceID == x
      requires p in h.sessions && p !in ds
      ensures var all := Said(h, d, peers, Mutuals(h, d, peers)) + Lost(h, d, peers, ds);
              && (p in Mutuals(h, d, peers) ==> Lost(h, d, peers, ds + {p}) == Lost(h, d, peers, ds))
              && (p !in Mutuals(h, d, peers) ==>
                    && ToPeer(h, d, peers, p) !in all
                    && Lost(h, d, peers, ds + {p}) == Lost(h, d, peers, ds) + {ToPeer(h, d, peers, p)})
    {
    }

    static lemma ImpliedIsSaidAndLost(h: Hub<S.Session>, d: Device, peers: seq<Device>)
      requires d in h.sessions
      ensures Implied(h, d, peers) == Said(h, d, peers, Mutuals(h, d, peers)) + Lost(h, d, peers, Watchers(h, d))
    {
    }

    /** The third loop of Subscribe: former watchers that are not mutual any more. */
    method AnnounceLost(deviceID: Device, before: seq<S.Session>, stillMutual: set<Device>, said: seq<Update<S.Session>>,
                        ghost h: Hub<S.Session>, ghost peers: seq<Device>)
      returns (updates: seq<Update<S.Session>>)
      requires deviceID in h.sessions && forall x :: x in h.sessions ==> h.sessions[x].deviceID == x
      requires stillMutual == Mutuals(h, deviceID, peers)
      requires Enumerates(before, SessionsOf(h, Watchers(h, deviceID)))
      requires Enumerates(said, Said(h, deviceID, peers, stillMutual))
      ensures Enumerates(updates, Implied(h, deviceID, peers))
    {
      updates := said;
      ghost var done: set<Device> := {};
      assert Lost(h, deviceID, peers, done) == {};
      forall k | 0 <= k < |before|
        ensures before[k].deviceID in h.sessions && h.sessions[before[k].deviceID] == before[k]
      {
        assert before[k] in SessionsOf(h, Watchers(h, deviceID));
      }
      for i := 0 to |before|
        invariant done <= Watchers(h, deviceID)
        invariant forall k :: 0 <= k < i ==> before[k].deviceID in done
        invariant forall k :: i <= k < |before| ==> before[k].deviceID !in done
        invariant Enumerates(updates, Said(h, deviceID, peers, stillMutual) + Lost(h, deviceID, peers, done))
      {
        var watcher := before[i];
        assert watcher in SessionsOf(h, Watchers(h, deviceID));
        LostOneMore(h, deviceID, peers, done, watcher.deviceID);
        ghost var all := Said(h, deviceID, peers, stillMutual) + Lost(h, deviceID, peers, done);
        ghost var u := ToPeer(h, deviceID, peers, watcher.deviceID);
        assert all + {u} == Said(h, deviceID, peers, stillMutual) + (Lost(h, deviceID, peers, done) + {u});
        done := done + {watcher.deviceID};
        if watcher.deviceID in stillMutual {
          continue;
        }
        EnumeratesOneMore(updates, all, u);
        updates := updates + [Update(watcher, deviceID, false)];
      }
      assert done == Watchers(h, deviceID) by {
        forall p | p in Watchers(h, deviceID) ensures p in done {
          assert h.sessions[p] in SessionsOf(h, Watchers(h, deviceID));
          assert h.sessions[p] in before;
        }
      }
      ImpliedIsSaidAndLost(h, deviceID, peers);
    }

    /** Replaces a subscription set and says whom to tell what. */
    method Subscribe(deviceID: Device, peers: seq<Device>) returns (updates: seq<Update<S.Session>>)
      requires Valid()
      modifies this`subs
      ensures Valid()
      ensures State() == Subscribed(old(State()), deviceID, peers)
      ensures Enumerates(updates, Implied(old(State()), deviceID, peers))
      ensures deviceID in sessions ==>
                && deviceID in subs && (forall p :: p in subs[deviceID] <==> p in peers && p != "" && p != deviceID)
                && subs == old(subs)[deviceID := subs[deviceID]]
      ensures deviceID !in sessions ==> subs == old(subs) && updates == []
    {
      updates := [];
      if deviceID !in sessions {
        return;
      }
      var self := sessions[deviceID];
      ghost var h := State();
      var previouslyMutual := MutualWatchers(deviceID);
      var wanted := WantedPeers(deviceID, peers);
      subs := subs[deviceID := wanted];
      var stillMutual;
      updates, stillMutual := AnnounceMutual(deviceID, self, wanted, h, peers);
      updates := AnnounceLost(deviceID, previouslyMutual, stillMutual, updates, h, peers);
    }
  }
}
