/** Hub, sessions and their queues together, as a transition system: what every client has
    been told, and which session a device has.  A hub operation and the sends it implies
    are one step. */
module Presence {
  import opened Hub
  import S = Session

  type Sid = nat

  /** `online` is what the messages queued so far, cut down to the newest subscription,
      tell the client; `stale` those of them whose device was dropped without a word. */
  datatype Client = Client(device: Device, box: S.Mailbox, welcomed: bool, subscribed: bool,
                           online: set<Device>, stale: set<Device>)

  /** `named` is the list each device sent in its last subscribe message, as long as the
      device stays registered; `last` is the session a device registered last, `gone` the
      sessions that have been torn down, `silent` says that some welcome has failed. */
  datatype World = World(hub: Hub<Sid>, clients: map<Sid, Client>, named: map<Device, seq<Device>>,
                         last: map<Device, Sid>, gone: set<Sid>, silent: bool)

  const EMPTY := World(Hub(map[], map[]), map[], map[], map[], {}, false)

  datatype Step =
    | Connect(sid: Sid, device: Device)
    | Welcome(sid: Sid)
    | WelcomeFails(sid: Sid)
    | Subscribe(device: Device, peers: seq<Device>, us: seq<Update<Sid>>)
    | Teardown(sid: Sid, us: seq<Update<Sid>>)
    | Queue(sid: Sid, e: S.Event)          // other messages, and the writer's own steps

  /** One message is queued, or refused. */
  function Receive(c: Client, u: Update<Sid>): Client {
    var box := S.Push(c.box, S.Presence(u.device, u.online));
    if !S.Accepts(c.box) then c.(box := box)
    else c.(box := box,
            online := if u.online then c.online + {u.device} else c.online - {u.device},
            stale := c.stale - {u.device})
  }

  function Deliver(cs: map<Sid, Client>, us: seq<Update<Sid>>): map<Sid, Client> {
    if us == [] then cs
    else
      var before := Deliver(cs, us[..|us| - 1]);
      var u := us[|us| - 1];
      if u.to in before then before[u.to := Receive(before[u.to], u)] else before
  }

  /** Delivering puts into every mailbox what the server's sending loop puts there. */
  lemma {:induction false} DeliverIsPushAll(cs: map<Sid, Client>, us: seq<Update<Sid>>, s: Sid)
    requires s in cs
    ensures s in Deliver(cs, us) && Deliver(cs, us)[s].box == PushAll(cs[s].box, us, s)
    decreases |us|
  {
    if us != [] {
      DeliverIsPushAll(cs, us[..|us| - 1], s);
    }
  }

  /** The current session of a subscriber starts over with the new list. */
  function Cut(c: Client, wanted: set<Device>): Client {
    c.(subscribed := true, online := c.online * wanted, stale := c.stale * wanted)
  }

  function Shut(cs: map<Sid, Client>, sid: Sid): map<Sid, Client> {
    if sid in cs then cs[sid := cs[sid].(box := cs[sid].box.(closed := true))] else cs
  }

  /** The messages of a teardown. */
  function Farewell(h: Hub<Sid>, d: Device): set<Update<Sid>> {
    set p | p in ToldGone(h, d) && p in h.sessions :: Update(h.sessions[p], d, false)
  }

  ghost predicate Can(w: World, st: Step) {
    match st
    case Connect(sid, _) => sid !in w.clients
    case Welcome(sid) => sid in w.clients && !w.clients[sid].welcomed && sid !in w.gone
    case WelcomeFails(sid) => sid in w.clients && !w.clients[sid].welcomed && sid !in w.gone
    case Subscribe(d, peers, us) => Enumerates(us, Implied(w.hub, d, peers))
    case Teardown(sid, us) =>
      && sid in w.clients && w.clients[sid].welcomed && sid !in w.gone
      && (if Holds(w.hub, w.clients[sid].device, sid) then Enumerates(us, Farewell(w.hub, w.clients[sid].device)) else us == [])
    case Queue(sid, e) =>
      sid in w.clients && S.Can(w.clients[sid].box, e) && !(e.Send? && e.m.Presence?)
  }

  function After(w: World, st: Step): World
    requires Can(w, st)
  {
    match st
    case Connect(sid, d) => Connected(w, sid, d)
    case Welcome(sid) => w.(clients := w.clients[sid := w.clients[sid].(welcomed := true)])
    case WelcomeFails(sid) => Vanished(w, sid)
    case Subscribe(d, peers, us) => SubscribedWorld(w, d, peers, us)
    case Teardown(sid, us) => TornDown(w, sid, us)
    case Queue(sid, e) => w.(clients := w.clients[sid := w.clients[sid].(box := S.After(w.clients[sid].box, e))])
  }

  /** Register, and closing the session that was replaced. */
  function Connected(w: World, sid: Sid, d: Device): World {
    var cs := if d in w.hub.sessions then Shut(w.clients, w.hub.sessions[d]) else w.clients;
    w.(hub := Registered(w.hub, d, sid), last := w.last[d := sid],
       clients := cs[sid := Client(d, S.NEW, false, false, {}, {})])
  }

  /** The welcome could not be written: unregistered, and nobody is told. */
  function Vanished(w: World, sid: Sid): World
    requires sid in w.clients
  {
    var d := w.clients[sid].device;
    var w1 := w.(gone := w.gone + {sid}, silent := true);
    if !Holds(w.hub, d, sid) then w1
    else w1.(hub := Unregistered(w.hub, d), named := w.named - {d}, clients := map s | s in w.clients :: Forsaken(w.clients[s], d))
  }

  /** What becomes of a client's knowledge when `d` disappears without a word. */
  function Forsaken(c: Client, d: Device): Client {
    if d in c.online then c.(stale := c.stale + {d}) else c
  }

  function SubscribedWorld(w: World, d: Device, peers: seq<Device>, us: seq<Update<Sid>>): World {
    if d in w.hub.sessions && w.hub.sessions[d] in w.clients then
      var self := w.hub.sessions[d];
      w.(hub := Subscribed(w.hub, d, peers), named := w.named[d := peers],
         clients := Deliver(w.clients[self := Cut(w.clients[self], Wanted(d, peers))], us))
    else w
  }

  /** teardown: close, unregister, tell the watchers. */
  function TornDown(w: World, sid: Sid, us: seq<Update<Sid>>): World
    requires sid in w.clients
  {
    var d := w.clients[sid].device;
    var cs := Shut(w.clients, sid);
    var w1 := w.(gone := w.gone + {sid}, clients := cs);
    if !Holds(w.hub, d, sid) then w1
    else w1.(hub := Unregistered(w.hub, d), named := w.named - {d}, clients := Deliver(cs, us))
  }

  // ---- the invariant ------------------------------------------------------------------------

  /** A subscription is held by connected devices only, and never on oneself. */
  ghost predicate HubOk(w: World) {
    && (forall d :: d in w.hub.sessions ==> w.hub.sessions[d] in w.clients && w.clients[w.hub.sessions[d]].device == d)
    && w.hub.subs.Keys <= w.hub.sessions.Keys
    && (forall d :: d in w.hub.subs ==> d !in w.hub.subs[d])
  }

  /** The hub holds the session a device registered last, unless that very one is gone. */
  ghost predicate NewestOk(w: World) {
    && (forall d :: d in w.last ==> w.last[d] in w.clients)
    && (forall d :: d in w.hub.sessions <==> d in w.last && w.last[d] !in w.gone)
    && (forall d :: d in w.hub.sessions ==> w.hub.sessions[d] == w.last[d])
    && w.gone <= w.clients.Keys
  }

  predicate ViewOk(w: World, d: Device, c: Client) {
    var truth := Watchers(w.hub, d);
    && c.stale <= c.online
    && c.stale !! truth
    && c.online <= truth + c.stale
    && (c.subscribed ==> truth <= c.online)
    && (!w.silent ==> c.stale == {})
  }

  ghost predicate ViewsOk(w: World)
    requires HubOk(w)
  {
    forall d :: d in w.hub.sessions ==>
      var c := w.clients[w.hub.sessions[d]];
      !c.box.closed ==> ViewOk(w, d, c)
  }

  /** The last subscribe message of `d` named `a`, another device. */
  predicate Names(w: World, d: Device, a: Device) {
    d in w.named && a in w.named[d] && a != "" && a != d
  }

  /** A stored subscription is what the message named. */
  ghost predicate NamedOk(w: World) {
    && (forall d :: d in w.named ==> d in w.hub.subs)
    && forall d, a :: d in w.hub.subs ==> (a in w.hub.subs[d] <==> Names(w, d, a))
  }

  ghost predicate Inv(w: World) {
    HubOk(w) && NewestOk(w) && ViewsOk(w)
  }

  // ---- delivering ------------------------------------------------------------------------------

  /** No client is told two different things about one device. */
  ghost predicate Consistent(us: seq<Update<Sid>>) {
    forall i, j :: 0 <= i < |us| && 0 <= j < |us| && us[i].to == us[j].to && us[i].device == us[j].device
                   ==> us[i].online == us[j].online
  }

  predicate Told(us: seq<Update<Sid>>, s: Sid, a: Device) {
    Update(s, a, true) in us || Update(s, a, false) in us
  }

  /** What a delivery does to one client that still takes messages afterwards. */
  ghost predicate Delivered(c: Client, c': Client, us: seq<Update<Sid>>, s: Sid) {
    && c'.device == c.device && c'.subscribed == c.subscribed && c'.welcomed == c.welcomed
    && (!c'.box.closed ==>
          && !c.box.closed
          && (forall a :: a in c'.online <==> Update(s, a, true) in us || (a in c.online && Update(s, a, false) !in us))
          && (forall a :: a in c'.stale <==> a in c.stale && !Told(us, s, a)))
  }

  lemma {:induction false} DeliverReaches(cs: map<Sid, Client>, us: seq<Update<Sid>>, s: Sid)
    requires s in cs && Consistent(us)
    ensures Deliver(cs, us).Keys == cs.Keys
    ensures Delivered(cs[s], Deliver(cs, us)[s], us, s)
  {
    if us != [] {
      var n := |us| - 1;
      assert us == us[..n] + [us[n]];
      DeliverReaches(cs, us[..n], s);
      ReceiveOne(cs[s], Deliver(cs, us[..n])[s], us[..n], us[n], s);
    }
  }

  lemma ReceiveOne(c: Client, mid: Client, us: seq<Update<Sid>>, u: Update<Sid>, s: Sid)
    requires Delivered(c, mid, us, s) && Consistent(us + [u])
    ensures Delivered(c, if u.to == s then Receive(mid, u) else mid, us + [u], s)
  {
    var all := us + [u];
    assert all[|us|] == u;
    forall a ensures Update(s, a, true) in all <==> Update(s, a, true) in us || u == Update(s, a, true) {
    }
    forall a ensures Update(s, a, false) in all <==> Update(s, a, false) in us || u == Update(s, a, false) {
    }
  }

  // ---- what each step keeps ---------------------------------------------------------------------

  /** Different devices have different sessions. */
  lemma SessionsDiffer(w: World, d: Device, e: Device)
    requires HubOk(w) && d in w.hub.sessions && e in w.hub.sessions
    ensures w.hub.sessions[d] == w.hub.sessions[e] ==> d == e
  {
  }

  /** Who is told what by a Subscribe. */
  lemma ImpliedTells(w: World, d: Device, peers: seq<Device>, us: seq<Update<Sid>>, e: Device, a: Device, b: bool)
    requires HubOk(w) && d in w.hub.sessions && e in w.hub.sessions && Enumerates(us, Implied(w.hub, d, peers))
    ensures var m := Mutuals(w.hub, d, peers);
            Update(w.hub.sessions[e], a, b) in us <==>
              || (e == d && a in m && b)
              || (e != d && a == d && e in Heard(w.hub, d, peers) && b == (e in m))
  {
    var h, u := w.hub, Update(w.hub.sessions[e], a, b);
    var m := Mutuals(h, d, peers);
    assert u in us <==> u in Implied(h, d, peers);
    assert m <= h.sessions.Keys;
    assert forall p :: p in Heard(h, d, peers) ==> p in h.sessions && p != d;
    if u in Implied(h, d, peers) {
      if p :| p in m && u == ToSelf(h, d, p) {
        SessionsDiffer(w, d, e);
      } else {
        var p :| p in Heard(h, d, peers) && u == ToPeer(h, d, peers, p);
        SessionsDiffer(w, p, e);
      }
    }
    if e == d && a in m && b {
      assert u == ToSelf(h, d, a);
    }
    if a == d && e in Heard(h, d, peers) && b == (e in m) {
      assert u == ToPeer(h, d, peers, e);
    }
  }

  lemma ImpliedIsConsistent(w: World, d: Device, peers: seq<Device>, us: seq<Update<Sid>>)
    requires HubOk(w) && d in w.hub.sessions && Enumerates(us, Implied(w.hub, d, peers))
    ensures Consistent(us)
  {
    var h := w.hub;
    forall i, j | 0 <= i < |us| && 0 <= j < |us| && us[i].to == us[j].to && us[i].device == us[j].device
      ensures us[i].online == us[j].online
    {
      assert us[i] in us && us[j] in us;
      var e :| e in h.sessions && us[i].to == h.sessions[e];
      ImpliedTells(w, d, peers, us, e, us[i].device, us[i].online);
      ImpliedTells(w, d, peers, us, e, us[j].device, us[j].online);
    }
  }

  /** The truth after a Subscribe. */
  lemma TruthAfterSubscribe(w: World, d: Device, peers: seq<Device>, e: Device)
    requires HubOk(w) && d in w.hub.sessions && e in w.hub.sessions
    ensures var h' := Subscribed(w.hub, d, peers);
            && (e == d ==> Watchers(h', e) == Mutuals(w.hub, d, peers))
            && (e != d ==> forall a :: a in Watchers(h', e) <==>
                  if a == d then e in Mutuals(w.hub, d, peers) else a in Watchers(w.hub, e))
            && (d in Watchers(w.hub, e) ==> e in Watchers(w.hub, d))
  {
    assert Mutuals(w.hub, d, peers) <= w.hub.sessions.Keys;
  }

  lemma SubscribeKeepsView(w: World, d: Device, peers: seq<Device>, us: seq<Update<Sid>>, e: Device)
    requires Inv(w) && d in w.hub.sessions && e in w.hub.sessions && Enumerates(us, Implied(w.hub, d, peers))
    ensures var w' := SubscribedWorld(w, d, peers, us); var s := w.hub.sessions[e];
            && s in w'.clients && w'.clients[s].device == e
            && (!w'.clients[s].box.closed ==> ViewOk(w', e, w'.clients[s]))
  {
    var self, s := w.hub.sessions[d], w.hub.sessions[e];
    var cs := w.clients[self := Cut(w.clients[self], Wanted(d, peers))];
    ImpliedIsConsistent(w, d, peers, us);
    DeliverReaches(cs, us, s);
    var c, c' := cs[s], Deliver(cs, us)[s];
    if !c'.box.closed {
      forall a, b ensures Update(s, a, b) in us <==>
          || (e == d && a in Mutuals(w.hub, d, peers) && b)
          || (e != d && a == d && e in Heard(w.hub, d, peers) && b == (e in Mutuals(w.hub, d, peers)))
      {
        ImpliedTells(w, d, peers, us, e, a, b);
      }
      TruthAfterSubscribe(w, d, peers, e);
      assert ViewOk(w, e, w.clients[s]);
      if e == d {
        assert Watchers(w.hub, d) * Wanted(d, peers) <= Mutuals(w.hub, d, peers);
      } else {
        SessionsDiffer(w, d, e);
      }
    }
  }

  lemma SubscribeKeeps(w: World, st: Step)
    requires Inv(w) && Can(w, st) && st.Subscribe?
    ensures Inv(After(w, st))
  {
    var d, w' := st.device, After(w, st);
    if d in w.hub.sessions {
      forall e | e in w.hub.sessions
        ensures w.hub.sessions[e] in w'.clients && w'.clients[w.hub.sessions[e]].device == e
        ensures !w'.clients[w.hub.sessions[e]].box.closed ==> ViewOk(w', e, w'.clients[w.hub.sessions[e]])
      {
        SubscribeKeepsView(w, d, st.peers, st.us, e);
      }
      var self := w.hub.sessions[d];
      var cs := w.clients[self := Cut(w.clients[self], Wanted(d, st.peers))];
      ImpliedIsConsistent(w, d, st.peers, st.us);
      DeliverReaches(cs, st.us, self);
    }
  }

  /** Who is told what by a teardown. */
  lemma FarewellTells(w: World, d: Device, us: seq<Update<Sid>>, e: Device, a: Device, b: bool)
    requires HubOk(w) && d in w.hub.sessions && e in w.hub.sessions && Enumerates(us, Farewell(w.hub, d))
    ensures Update(w.hub.sessions[e], a, b) in us <==> a == d && !b && e in ToldGone(w.hub, d)
  {
    var u := Update(w.hub.sessions[e], a, b);
    assert u in us <==> u in Farewell(w.hub, d);
    if u in Farewell(w.hub, d) {
      var p :| p in ToldGone(w.hub, d) && p in w.hub.sessions && u == Update(w.hub.sessions[p], d, false);
      SessionsDiffer(w, p, e);
    }
  }

  /** The truth after a device is gone. */
  lemma TruthAfterUnregister(w: World, d: Device, e: Device)
    requires HubOk(w) && d in w.hub.sessions && e in w.hub.sessions && d != e
    ensures Watchers(Unregistered(w.hub, d), e) == Watchers(w.hub, e) - {d}
    ensures d in Watchers(w.hub, e) <==> e in ToldGone(w.hub, d)
  {
  }

  lemma FarewellKeepsView(w: World, sid: Sid, us: seq<Update<Sid>>, e: Device)
    requires Inv(w) && Can(w, Teardown(sid, us)) && Holds(w.hub, w.clients[sid].device, sid)
    requires e in w.hub.sessions && e != w.clients[sid].device
    ensures var w' := TornDown(w, sid, us); var s := w.hub.sessions[e];
            && s in w'.clients && w'.clients[s].device == e
            && (!w'.clients[s].box.closed ==> ViewOk(w', e, w'.clients[s]))
  {
    var d, s, cs := w.clients[sid].device, w.hub.sessions[e], Shut(w.clients, sid);
    SessionsDiffer(w, d, e);
    FarewellIsConsistent(w, d, us);
    DeliverReaches(cs, us, s);
    if !Deliver(cs, us)[s].box.closed {
      forall a, b ensures Update(s, a, b) in us <==> a == d && !b && e in ToldGone(w.hub, d) {
        FarewellTells(w, d, us, e, a, b);
      }
      TruthAfterUnregister(w, d, e);
      assert ViewOk(w, e, w.clients[s]);
    }
  }

  lemma FarewellIsConsistent(w: World, d: Device, us: seq<Update<Sid>>)
    requires Enumerates(us, Farewell(w.hub, d))
    ensures Consistent(us)
  {
    forall i | 0 <= i < |us| ensures !us[i].online {
      assert us[i] in us;
    }
  }

  lemma TeardownKeeps(w: World, st: Step)
    requires Inv(w) && Can(w, st) && st.Teardown?
    ensures Inv(After(w, st))
  {
    var sid, us, w' := st.sid, st.us, After(w, st);
    var d, cs := w.clients[sid].device, Shut(w.clients, sid);
    if Holds(w.hub, d, sid) {
      FarewellIsConsistent(w, d, us);
      DeliverReaches(cs, us, sid);
      forall e | e in w'.hub.sessions
        ensures w.hub.sessions[e] in w'.clients && w'.clients[w.hub.sessions[e]].device == e
        ensures !w'.clients[w.hub.sessions[e]].box.closed ==> ViewOk(w', e, w'.clients[w.hub.sessions[e]])
      {
        FarewellKeepsView(w, sid, us, e);
      }
    } else {
      SameViews(w, w');
    }
  }

  /** Nothing the invariant speaks of has changed for sessions that are still open. */
  lemma SameViews(w: World, w': World)
    requires Inv(w) && w'.hub == w.hub && w'.silent == w.silent && w.clients.Keys <= w'.clients.Keys
    requires forall s :: s in w.clients ==> Alike(w.clients[s], w'.clients[s])
    ensures HubOk(w') && ViewsOk(w')
  {
    forall d | d in w'.hub.sessions && !w'.clients[w'.hub.sessions[d]].box.closed
      ensures ViewOk(w', d, w'.clients[w'.hub.sessions[d]])
    {
      assert Alike(w.clients[w.hub.sessions[d]], w'.clients[w.hub.sessions[d]]);
      assert ViewOk(w, d, w.clients[w.hub.sessions[d]]);
    }
  }

  predicate Alike(c: Client, c': Client) {
    && c'.device == c.device && c'.subscribed == c.subscribed && c'.online == c.online && c'.stale == c.stale
    && (c.box.closed ==> c'.box.closed)
  }

  lemma VanishKeeps(w: World, sid: Sid)
    requires Inv(w) && Can(w, WelcomeFails(sid))
    ensures Inv(Vanished(w, sid))
  {
    var d, w' := w.clients[sid].device, Vanished(w, sid);
    if Holds(w.hub, d, sid) {
      forall e | e in w'.hub.sessions && !w'.clients[w'.hub.sessions[e]].box.closed
        ensures ViewOk(w', e, w'.clients[w'.hub.sessions[e]])
      {
        TruthAfterUnregister(w, d, e);
        assert ViewOk(w, e, w.clients[w.hub.sessions[e]]);
      }
    } else {
      forall e | e in w'.hub.sessions && !w'.clients[w'.hub.sessions[e]].box.closed
        ensures ViewOk(w', e, w'.clients[w'.hub.sessions[e]])
      {
        assert ViewOk(w, e, w.clients[w.hub.sessions[e]]);
      }
    }
  }

  lemma ConnectKeeps(w: World, sid: Sid, d: Device)
    requires Inv(w) && Can(w, Connect(sid, d))
    ensures Inv(Connected(w, sid, d))
  {
    var w' := Connected(w, sid, d);
    forall e | e in w'.hub.sessions && !w'.clients[w'.hub.sessions[e]].box.closed
      ensures ViewOk(w', e, w'.clients[w'.hub.sessions[e]])
    {
      if e != d {
        assert ViewOk(w, e, w.clients[w.hub.sessions[e]]);
        assert Watchers(w'.hub, e) == Watchers(w.hub, e);
      }
    }
  }

  lemma StepKeeps(w: World, st: Step)
    requires Inv(w) && Can(w, st)
    ensures Inv(After(w, st))
  {
    match st
    case Connect(sid, d) => ConnectKeeps(w, sid, d);
    case Welcome(_) => SameViews(w, After(w, st));
    case WelcomeFails(sid) => VanishKeeps(w, sid);
    case Subscribe(_, _, _) => SubscribeKeeps(w, st);
    case Teardown(_, _) => TeardownKeeps(w, st);
    case Queue(_, _) => SameViews(w, After(w, st));
  }

  // ---- runs -----------------------------------------------------------------------------------------

  ghost predicate Leads(w: World, w': World) {
    exists st :: Can(w, st) && w' == After(w, st)
  }

  ghost predicate Run(tr: seq<World>) {
    && tr != [] && tr[0] == EMPTY
    && forall i :: 0 <= i < |tr| - 1 ==> LeadsAt(tr, i)
  }

  ghost predicate LeadsAt(tr: seq<World>, i: nat)
    requires i + 1 < |tr|
  {
    Leads(tr[i], tr[i + 1])
  }

  lemma StepOf(tr: seq<World>, i: nat) returns (st: Step)
    requires Run(tr) && i + 1 < |tr|
    ensures Can(tr[i], st) && tr[i + 1] == After(tr[i], st)
  {
    assert LeadsAt(tr, i);
    st :| Can(tr[i], st) && tr[i + 1] == After(tr[i], st);
  }

  lemma LeadKeeps(w: World, w': World)
    requires Inv(w) && Leads(w, w')
    ensures Inv(w')
  {
    var st :| Can(w, st) && w' == After(w, st);
    StepKeeps(w, st);
  }

  lemma {:induction false} RunKeeps(tr: seq<World>, i: nat)
    requires Run(tr) && i < |tr|
    ensures Inv(tr[i])
  {
    if i > 0 {
      RunKeeps(tr, i - 1);
      assert LeadsAt(tr, i - 1);
      LeadKeeps(tr[i - 1], tr[i]);
    }
  }

  lemma StepKeepsNamed(w: World, st: Step)
    requires NamedOk(w) && Can(w, st)
    ensures NamedOk(After(w, st))
  {
    match st
    case Connect(_, _) =>
    case Welcome(_) =>
    case WelcomeFails(_) =>
    case Subscribe(_, _, _) =>
    case Teardown(_, _) =>
    case Queue(_, _) =>
  }

  lemma {:induction false} RunKeepsNamed(tr: seq<World>, i: nat)
    requires Run(tr) && i < |tr|
    ensures NamedOk(tr[i])
  {
    if i > 0 {
      RunKeepsNamed(tr, i - 1);
      var st := StepOf(tr, i - 1);
      StepKeepsNamed(tr[i - 1], st);
    }
  }

  /** What the messages named is what the hub goes by. */
  lemma MutualIsNamed(w: World, d: Device, a: Device)
    requires NamedOk(w)
    ensures Mutual(w.hub, d, a) <==> Names(w, d, a) && Names(w, a, d)
  {
  }

  predicate Watching(w: World, d: Device) {
    && d in w.hub.sessions && w.hub.sessions[d] in w.clients
    && w.clients[w.hub.sessions[d]].subscribed && !w.clients[w.hub.sessions[d]].box.closed
  }

  /** As long as no welcome has failed, the open session of a registered device that has
      subscribed sees another device online exactly when that one is registered too and
      each of the two named the other in its last subscribe message. */
  lemma PresenceIsExact(tr: seq<World>, i: nat, d: Device, a: Device)
    requires Run(tr) && i < |tr| && Watching(tr[i], d) && !tr[i].silent
    ensures var w := tr[i];
            a in w.clients[w.hub.sessions[d]].online <==> a in w.hub.sessions && Names(w, d, a) && Names(w, a, d)
  {
    RunKeeps(tr, i);
    RunKeepsNamed(tr, i);
    MutualIsNamed(tr[i], d, a);
    assert ViewOk(tr[i], d, tr[i].clients[tr[i].hub.sessions[d]]);
  }

  /** The hub holds the session a device registered last, unless that very session has
      been torn down or never got its welcome. */
  lemma NewestSessionWins(tr: seq<World>, i: nat, d: Device)
    requires Run(tr) && i < |tr|
    ensures var w := tr[i];
            && (d in w.hub.sessions <==> d in w.last && w.last[d] !in w.gone)
            && (d in w.hub.sessions ==> w.hub.sessions[d] == w.last[d])
  {
    RunKeeps(tr, i);
  }

  /** Two devices connect and the second one subscribes to the first. */
  lemma OneSided(a: Device, b: Device) returns (tr: seq<World>)
    requires a != b && a != "" && b != ""
    ensures |tr| == 4 && Run(tr)
    ensures tr[3] == World(Hub(map[a := 0, b := 1], map[b := {a}]),
                           map[0 := Client(a, S.NEW, false, false, {}, {}), 1 := Client(b, S.NEW, false, true, {}, {})],
                           map[b := [a]], map[a := 0, b := 1], {}, false)
  {
    var w1 := GoConnect(EMPTY, 0, a);
    var w2 := GoConnect(w1, 1, b);
    assert Wanted(b, [a]) == {a};
    assert Heard(w2.hub, b, [a]) == {} == Mutuals(w2.hub, b, [a]);
    var w3 := GoSubscribe(w2, b, [a], []);
    assert w3.hub == Hub(map[a := 0, b := 1], map[b := {a}]);
    var nobody: set<Device> := {};
    assert nobody * {a} == nobody;
    assert w3.clients == map[0 := Client(a, S.NEW, false, false, {}, {}), 1 := Client(b, S.NEW, false, true, {}, {})];
    tr := [EMPTY, w1, w2, w3];
  }

  /** Two devices that have just subscribed to each other and so see each other. */
  lemma Acquainted(a: Device, b: Device) returns (tr: seq<World>)
    requires a != b && a != "" && b != ""
    ensures Run(tr)
    ensures var w := tr[|tr| - 1];
            && w.hub == Hub(map[a := 0, b := 1], map[a := {b}, b := {a}]) && w.clients.Keys == {0, 1} && w.gone == {}
            && w.clients[0].device == a && w.clients[0].subscribed && w.clients[0].online == {b} && !w.clients[0].box.closed
  {
    var tr0 := OneSided(a, b);
    var w := tr0[3];
    assert Wanted(a, [b]) == {b};
    ImpliedOfTwo(w.hub, a, b);
    var us := [Update(0, b, true), Update(1, a, true)];
    var w' := GoSubscribe(w, a, [b], us);
    DeliverTwo(w.clients[0 := Cut(w.clients[0], Wanted(a, [b]))], us[0], us[1]);
    tr := tr0 + [w'];
    RunOn(tr0, w');
  }

  lemma RunOn(tr: seq<World>, w': World)
    requires Run(tr) && Leads(tr[|tr| - 1], w')
    ensures Run(tr + [w'])
  {
    var all := tr + [w'];
    forall i | 0 <= i < |all| - 1 ensures LeadsAt(all, i) {
      if i < |tr| - 1 {
        assert LeadsAt(tr, i);
      }
    }
  }

  lemma ImpliedOfTwo(h: Hub<Sid>, a: Device, b: Device)
    requires a != b && a != "" && b != ""
    requires h == Hub(map[a := 0, b := 1], map[b := {a}])
    ensures Implied(h, a, [b]) == {Update(0, b, true), Update(1, a, true)}
  {
    assert Wanted(a, [b]) == {b};
    assert Mutuals(h, a, [b]) == {b} == Heard(h, a, [b]);
  }

  lemma DeliverTwo(cs: map<Sid, Client>, u: Update<Sid>, v: Update<Sid>)
    requires u.to in cs && v.to in cs && u.to != v.to
    ensures Deliver(cs, [u, v]) == cs[u.to := Receive(cs[u.to], u)][v.to := Receive(cs[v.to], v)]
  {
    assert [u][..0] == [] && [u, v][..1] == [u];
    assert Deliver(cs, [u]) == cs[u.to := Receive(cs[u.to], u)];
  }

  /** A failed welcome can leave a client seeing a device that is not connected: of two
      devices that see each other one reconnects, and its new welcome cannot be written. */
  lemma FailedWelcomeLeavesAStaleEntry(a: Device, b: Device) returns (tr: seq<World>)
    requires a != b && a != "" && b != ""
    ensures Run(tr)
    ensures var w := tr[|tr| - 1];
            Watching(w, a) && b in w.clients[w.hub.sessions[a]].online && b !in w.hub.sessions
  {
    var tr0 := Acquainted(a, b);
    var w := tr0[|tr0| - 1];
    var w1 := GoConnect(w, 2, b);
    assert Can(w1, WelcomeFails(2));
    var w2 := After(w1, WelcomeFails(2));
    assert Leads(w1, w2);
    RunOn(tr0, w1);
    RunOn(tr0 + [w1], w2);
    tr := tr0 + [w1] + [w2];
  }

  lemma GoConnect(w: World, sid: Sid, d: Device) returns (w': World)
    requires sid !in w.clients
    ensures Leads(w, w') && w' == Connected(w, sid, d)
  {
    w' := After(w, Connect(sid, d));
    assert Can(w, Connect(sid, d));
  }

  lemma GoSubscribe(w: World, d: Device, peers: seq<Device>, us: seq<Update<Sid>>) returns (w': World)
    requires Enumerates(us, Implied(w.hub, d, peers))
    ensures Leads(w, w') && w' == SubscribedWorld(w, d, peers, us)
  {
    w' := After(w, Subscribe(d, peers, us));
    assert Can(w, Subscribe(d, peers, us));
  }
}
