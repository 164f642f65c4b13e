/** The steps of the signaling server that join hub, sessions and stream registry. */
module Server {
  import opened Common
  import H = Hub
  import S = Session
  import Registry

  type Device = S.Device

  /** The most peers one subscribe message may list. */
  const MAX_SUBSCRIBE_PEERS := 256

  /** The role a stream.create message asks for. */
  datatype Role = Sender | Receiver | Unknown

  class Server {
    const hub: H.Directory
    const streams: Registry.Table

    constructor (hub: H.Directory, streams: Registry.Table)
      ensures this.hub == hub && this.streams == streams
    {
      this.hub, this.streams := hub, streams;
    }

    ghost predicate Valid()
      reads hub, streams, hub.sessions.Values
    {
      && hub.Valid() && streams.Valid()
      && forall d :: d in hub.sessions ==> hub.sessions[d].Valid()
    }

    /** The part of the handshake after the device has proved its identity. */
    method Admit(session: S.Session, welcomeWritten: bool) returns (admitted: bool)
      requires Valid() && session.Valid() && !(session in hub.sessions.Values)
      modifies hub, hub.sessions.Values
      ensures Valid() && admitted == welcomeWritten
      ensures session.Valid() && session.box == old(session.box)
      ensures forall s :: s in old(hub.sessions.Values) ==>
                s.box == if H.Holds(old(hub.State()), session.deviceID, s) then old(s.box).(closed := true) else old(s.box)
      ensures var joined := H.Registered(old(hub.State()), session.deviceID, session);
              hub.State() == if welcomeWritten then joined else H.Unregistered(joined, session.deviceID)
    {
      var previous := hub.Register(session);
      if previous.Some? {
        previous.value.Close();
      }
      if !welcomeWritten {
        var watchers, removed := hub.Unregister(session);
        return false;
      }
      return true;
    }

    /** Sends one notification after another. */
    method SendAll(updates: seq<H.Update<S.Session>>, ghost all: set<S.Session>)
      requires forall s | s in all :: s.Valid()
      requires forall i :: 0 <= i < |updates| ==> updates[i].to in all
      modifies all
      ensures forall s | s in all :: s.Valid() && s.box == H.PushAll(old(s.box), updates, s)
    {
      for i := 0 to |updates|
        invariant forall s | s in all :: s.Valid() && s.box == H.PushAll(old(s.box), updates[..i], s)
      {
        var u := updates[i];
        assert updates[..i + 1][..i] == updates[..i];
        var sent := u.to.Send(S.Presence(u.device, u.online));
      }
      assert updates[..|updates|] == updates;
    }

    /** handleSubscribe, once the message has been decoded: too long a list is refused with a
        message to the session that sent it. */
    method HandleSubscribe(session: S.Session, peers: seq<Device>) returns (ghost us: seq<H.Update<S.Session>>)
      requires Valid() && session.Valid()
      modifies hub, hub.sessions.Values, session
      ensures Valid() && session.Valid() && hub.sessions == old(hub.sessions)
      ensures |peers| > MAX_SUBSCRIBE_PEERS ==>
                && us == [] && hub.State() == old(hub.State())
                && session.box == S.Push(old(session.box), S.Refusal(S.BadRequest))
                && forall s | s in hub.sessions.Values && s != session :: s.box == old(s.box)
      ensures |peers| <= MAX_SUBSCRIBE_PEERS ==>
                && hub.State() == H.Subscribed(old(hub.State()), session.deviceID, peers)
                && H.Enumerates(us, H.Implied(old(hub.State()), session.deviceID, peers))
                && (forall s | s in hub.sessions.Values :: s.box == H.PushAll(old(s.box), us, s))
                && (session in hub.sessions.Values || session.box == old(session.box))
      ensures var d := session.deviceID;
              if |peers| <= 256 && d in hub.sessions
              then && d in hub.subs && (forall p :: p in hub.subs[d] <==> p in peers && p != "" && p != d)
                   && hub.subs == old(hub.subs)[d := hub.subs[d]]
              else hub.subs == old(hub.subs)
    {
      us := [];
      if |peers| > MAX_SUBSCRIBE_PEERS {
        var sent := session.Send(S.Refusal(S.BadRequest));
        return;
      }
      ghost var h := hub.State();
      var updates := hub.Subscribe(session.deviceID, peers);
      us := updates;
      ToldAreConnected(h, session.deviceID, peers);
      SendAll(updates, hub.sessions.Values);
    }

    static lemma ToldAreConnected(h: H.Hub<S.Session>, d: Device, peers: seq<Device>)
      ensures forall u | u in H.Implied(h, d, peers) :: u.to in h.sessions.Values
    {
    }

    /** Everything a device still owns is claimed at both ends. */
    ghost predicate OwnsOnlyFull(d: Device)
      reads streams, streams.streams.Values
    {
      forall id :: id in streams.streams && streams.streams[id].owner == d ==>
        streams.streams[id].senderAttached && streams.streams[id].receiverAttached
    }

    /** teardown: close the session; if it is still the device's session, unregister it,
        tell the watchers and drop the device's loose streams; if not, do nothing more.
        `arrivals` are the requests that claim ends of streams meanwhile. */
    method Teardown(session: S.Session, arrivals: seq<seq<Registry.Arrival>>) returns (ghost gone: set<Registry.Id>)
      requires Valid() && session.Valid() && Registry.Table.Known(arrivals, streams.streams)
      modifies session, hub, hub.sessions.Values, streams, streams.streams.Values
      ensures Valid() && session.Valid() && session.closed
      ensures !old(H.Holds(hub.State(), session.deviceID, session)) ==>
                && gone == {} && hub.State() == old(hub.State()) && streams.View() == old(streams.View())
                && (forall s | s in hub.sessions.Values && s != session :: s.box == old(s.box))
                && (forall t | t in old(streams.streams.Values) :: t.pipe == old(t.pipe) && t.closeDone == old(t.closeDone))
      ensures old(H.Holds(hub.State(), session.deviceID, session)) ==>
                && hub.State() == H.Unregistered(old(hub.State()), session.deviceID)
                && (forall p | p in hub.sessions :: hub.sessions[p].box ==
                      if p in H.ToldGone(old(hub.State()), session.deviceID)
                      then S.Push(old(hub.sessions[p].box), S.Presence(session.deviceID, false))
                      else old(hub.sessions[p].box))
                && streams.View() == Registry.RemoveAll(old(streams.View()), gone)
                && gone <= Registry.Loose(old(streams.View()), session.deviceID, Registry.Full(old(Registry.Table.FlagsOf(streams.streams))))
                && Registry.Table.PipesOf(old(streams.streams))
                     == Registry.AllClosed(old(Registry.Table.PipesOf(streams.streams)), gone)
                && OwnsOnlyFull(session.deviceID)
    {
      gone := {};
      var removed := LeaveHub(session);
      if !removed {
        return;
      }
      gone := DropLoose(session.deviceID, arrivals);
    }

    /** What the device leaves behind on the data plane. */
    method DropLoose(d: Device, arrivals: seq<seq<Registry.Arrival>>) returns (ghost gone: set<Registry.Id>)
      requires streams.Valid() && Registry.Table.Known(arrivals, streams.streams)
      modifies streams, streams.streams.Values
      ensures streams.Valid() && OwnsOnlyFull(d)
      ensures streams.View() == Registry.RemoveAll(old(streams.View()), gone)
      ensures gone <= Registry.Loose(old(streams.View()), d, Registry.Full(old(Registry.Table.FlagsOf(streams.streams))))
      ensures Registry.Table.PipesOf(old(streams.streams))
           == Registry.AllClosed(old(Registry.Table.PipesOf(streams.streams)), gone)
    {
      gone := streams.ReleaseDevice(d, arrivals);
    }

    /** The signaling half of teardown. */
    method Leave(session: S.Session) returns (removed: bool)
      requires hub.Valid() && session.Valid() && forall d :: d in hub.sessions ==> hub.sessions[d].Valid()
      modifies session, hub, hub.sessions.Values
      ensures hub.Valid() && session.Valid() && session.closed
      ensures forall d :: d in hub.sessions ==> hub.sessions[d].Valid()
      ensures removed == H.Holds(old(hub.State()), session.deviceID, session)
      ensures !removed ==>
                && hub.State() == old(hub.State())
                && forall s | s in hub.sessions.Values && s != session :: s.box == old(s.box)
      ensures removed ==>
                && hub.State() == H.Unregistered(old(hub.State()), session.deviceID)
                && forall p | p in hub.sessions :: hub.sessions[p].box ==
                     if p in H.ToldGone(old(hub.State()), session.deviceID)
                     then S.Push(old(hub.sessions[p].box), S.Presence(session.deviceID, false))
                     else old(hub.sessions[p].box)
    {
      session.Close();
      ghost var h := hub.State();
      var watchers;
      watchers, removed := hub.Unregister(session);
      if removed {
        Farewell(session.deviceID, watchers, h);
      }
    }

    /** It touches no stream. */
    method LeaveHub(session: S.Session) returns (removed: bool)
      requires hub.Valid() && session.Valid() && forall d :: d in hub.sessions ==> hub.sessions[d].Valid()
      modifies session, hub, hub.sessions.Values
      ensures hub.Valid() && session.Valid() && session.closed
      ensures forall d :: d in hub.sessions ==> hub.sessions[d].Valid()
      ensures streams.View() == old(streams.View())
      ensures Registry.Table.FlagsOf(streams.streams) == old(Registry.Table.FlagsOf(streams.streams))
      ensures Registry.Table.PipesOf(streams.streams) == old(Registry.Table.PipesOf(streams.streams))
      ensures removed == H.Holds(old(hub.State()), session.deviceID, session)
      ensures !removed ==>
                && hub.State() == old(hub.State())
                && forall s | s in hub.sessions.Values && s != session :: s.box == old(s.box)
      ensures removed ==>
                && hub.State() == H.Unregistered(old(hub.State()), session.deviceID)
                && forall p | p in hub.sessions :: hub.sessions[p].box ==
                     if p in H.ToldGone(old(hub.State()), session.deviceID)
                     then S.Push(old(hub.sessions[p].box), S.Presence(session.deviceID, false))
                     else old(hub.sessions[p].box)
    {
      ghost var flags, pipes := Registry.Table.FlagsOf(streams.streams), Registry.Table.PipesOf(streams.streams);
      removed := Leave(session);
      assert Registry.Table.FlagsOf(streams.streams) == flags && Registry.Table.PipesOf(streams.streams) == pipes;
    }

    /** The watchers are the sessions of the devices to be told, and no others. */
    static lemma WatchersAreTold(h: H.Hub<S.Session>, watchers: seq<S.Session>, told: set<Device>)
      requires H.Enumerates(watchers, H.Directory.SessionsOf(h, told))
      requires told <= h.sessions.Keys && forall p :: p in h.sessions ==> h.sessions[p].deviceID == p
      ensures forall i :: 0 <= i < |watchers| ==>
                watchers[i].deviceID in told && H.Holds(h, watchers[i].deviceID, watchers[i])
      ensures forall p :: p in told ==> h.sessions[p] in watchers
    {
      forall i | 0 <= i < |watchers|
        ensures watchers[i].deviceID in told && H.Holds(h, watchers[i].deviceID, watchers[i])
      {
        assert watchers[i] in H.Directory.SessionsOf(h, told);
      }
      forall p | p in told ensures h.sessions[p] in watchers {
        assert h.sessions[p] in H.Directory.SessionsOf(h, told);
      }
    }

    /** Tells every watcher, once, that `d` is gone; `h` is the hub before it went. */
    method Farewell(d: Device, watchers: seq<S.Session>, ghost h: H.Hub<S.Session>)
      requires hub.Valid() && forall d :: d in hub.sessions ==> hub.sessions[d].Valid()
      requires hub.State() == H.Unregistered(h, d)
      requires H.Enumerates(watchers, H.Directory.SessionsOf(hub.State(), H.ToldGone(h, d)))
      modifies hub.sessions.Values
      ensures hub.Valid() && forall d :: d in hub.sessions ==> hub.sessions[d].Valid()
      ensures forall p | p in hub.sessions :: hub.sessions[p].box ==
                if p in H.ToldGone(h, d) then S.Push(old(hub.sessions[p].box), S.Presence(d, false)) else old(hub.sessions[p].box)
    {
      WatchersAreTold(hub.State(), watchers, H.ToldGone(h, d));
      for i := 0 to |watchers|
        invariant forall p | p in hub.sessions :: hub.sessions[p].Valid()
        invariant forall k :: 0 <= k < i ==> watchers[k].box == S.Push(old(watchers[k].box), S.Presence(d, false))
        invariant forall p | p in hub.sessions && hub.sessions[p] !in watchers[..i] :: hub.sessions[p].box == old(hub.sessions[p].box)
      {
        assert watchers[i] !in watchers[..i];
        var sent := watchers[i].Send(S.Presence(d, false));
      }
    }

    /** What handleStreamCreate answers, and the registry afterwards. */
    static ghost function CreateAnswer(d: Device, peer: Device, role: Role, online: bool, newID: Option<Registry.Id>,
                                       reg: Registry.Reg, cap: int, expires: int): (S.Msg, Registry.Reg) {
      var m := if role.Sender? then Registry.Meta(d, d, peer, expires) else Registry.Meta(d, peer, d, expires);
      if peer == "" || peer == d || role.Unknown? then (S.Refusal(S.BadRequest), reg)
      else if !online then (S.Refusal(S.PeerOffline), reg)
      else if newID.None? then (S.Refusal(S.Internal), reg)
      else
        match Registry.Admit(reg, cap, newID.value, m)
        case None => (S.Refusal(S.TooManyStreams), reg)
        case Some(r) => (S.StreamCreated(newID.value, expires), r)
    }

    /** Each answer has its cause, in the source's order; a refusal has no effect on the
        registry, and what is created lets the asking device send or receive as it wanted. */
    static lemma EachAnswerHasItsCause(d: Device, peer: Device, role: Role, online: bool, newID: Option<Registry.Id>,
                                       reg: Registry.Reg, cap: int, expires: int)
      ensures var (msg, reg') := CreateAnswer(d, peer, role, online, newID, reg, cap, expires);
              var bad, full := peer == "" || peer == d || role.Unknown?, Registry.Slots(reg.perDevice, d) >= cap;
              && (msg == S.Refusal(S.BadRequest) <==> bad)
              && (msg == S.Refusal(S.PeerOffline) <==> !bad && !online)
              && (msg == S.Refusal(S.Internal) <==> !bad && online && newID.None?)
              && (msg == S.Refusal(S.TooManyStreams) <==> !bad && online && newID.Some? && full)
              && (msg.Refusal? ==> reg' == reg)
              && (msg.StreamCreated? <==> !bad && online && newID.Some? && !full)
              && (!msg.Refusal? ==>
                    && msg == S.StreamCreated(newID.value, expires)
                    && reg'.streams == reg.streams[newID.value :=
                         if role.Sender? then Registry.Meta(d, d, peer, expires) else Registry.Meta(d, peer, d, expires)]
                    && reg'.perDevice == reg.perDevice[d := Registry.Slots(reg.perDevice, d) + 1])
    {
    }

    /** handleStreamCreate: refused towards oneself, with no role, or towards a device that
        is not connected; charged to the device that asks; the answer is queued to it. */
    method HandleStreamCreate(session: S.Session, peer: Device, role: Role, newID: Option<Registry.Id>, now: int)
      requires Valid() && session.Valid()
      requires newID.Some? ==> newID.value !in streams.streams
      modifies streams, session
      ensures streams.Valid() && session.Valid()
      ensures var (msg, reg) := CreateAnswer(session.deviceID, peer, role, peer in hub.sessions, newID,
                                             old(streams.View()), streams.maxPerDevice, now + streams.ttl);
              session.box == S.Push(old(session.box), msg) && streams.View() == reg
    {
      var msg := CreateStream(session.deviceID, peer, role, newID, now);
      var sent := session.Send(msg);
    }

    method CreateStream(d: Device, peer: Device, role: Role, newID: Option<Registry.Id>, now: int) returns (msg: S.Msg)
      requires streams.Valid() && hub.Valid()
      requires newID.Some? ==> newID.value !in streams.streams
      modifies streams
      ensures streams.Valid()
      ensures (msg, streams.View())
           == CreateAnswer(d, peer, role, peer in hub.sessions, newID, old(streams.View()), streams.maxPerDevice, now + streams.ttl)
    {
      if peer == "" || peer == d {
        return S.Refusal(S.BadRequest);
      }
      var sender, receiver;
      match role {
        case Sender => sender, receiver := d, peer;
        case Receiver => sender, receiver := peer, d;
        case Unknown => return S.Refusal(S.BadRequest);
      }
      var target := hub.Lookup(peer);
      if target.None? {
        return S.Refusal(S.PeerOffline);
      }
      var r := streams.Create(newID, d, sender, receiver, now);
      match r {
        case Ok(s) => msg := S.StreamCreated(s.id, s.expiresAt);
        case Refused(TooManyStreams) => msg := S.Refusal(S.TooManyStreams);
        case Refused(NoRandomness) => msg := S.Refusal(S.Internal);
      }
    }
  }
}
