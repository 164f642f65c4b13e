/** What a client has been told: its view is what the messages put into its queue say, and a
    subscribe message that names a connected device shows it at once. */
module Views {
  import opened Hub
  import opened Presence
  import opened Privacy
  import S = Session

  // ---- the view is the fold of the messages ------------------------------------------------------

  /** The devices online after one more message. */
  function Told(online: set<Device>, m: S.Msg): set<Device> {
    if !m.Presence? then online else if m.online then online + {m.device} else online - {m.device}
  }

  /** The devices online after some messages, read one after the other. */
  function Read(online: set<Device>, ms: seq<S.Msg>): set<Device> {
    if ms == [] then online
    else
      Told(Read(online, ms[..|ms| - 1]), ms[|ms| - 1])
  }

  lemma ReadOne(online: set<Device>, ms: seq<S.Msg>, m: S.Msg)
    ensures Read(online, ms + [m]) == Told(Read(online, ms), m)
  {
    assert (ms + [m])[..|ms|] == ms;
  }

  lemma {:induction false} ReadOn(online: set<Device>, ms: seq<S.Msg>, more: seq<S.Msg>)
    ensures Read(online, ms + more) == Read(Read(online, ms), more)
    decreases |more|
  {
    if more == [] {
      assert ms + more == ms;
    } else {
      var n := |more| - 1;
      ReadOn(online, ms, more[..n]);
      ReadOne(online, ms + more[..n], more[n]);
      assert ms + more[..n] + [more[n]] == ms + more;
    }
  }

  /** `c` has become `c'` by taking messages, and shows what they say. */
  ghost predicate Follows(online: set<Device>, c: Client, c': Client) {
    && c.box.accepted <= c'.box.accepted
    && c'.online == Read(online, c'.box.accepted[|c.box.accepted|..])
  }

  lemma FollowsNothing(c: Client, c': Client)
    requires c'.box.accepted == c.box.accepted && c'.online == c.online
    ensures Follows(c.online, c, c')
  {
  }

  lemma FollowsOn(online: set<Device>, c: Client, mid: Client, c': Client)
    requires Follows(online, c, mid) && Follows(mid.online, mid, c')
    ensures Follows(online, c, c')
  {
    var n, k := |c.box.accepted|, |mid.box.accepted|;
    assert c.box.accepted == mid.box.accepted[..n] == c'.box.accepted[..n];
    assert c'.box.accepted[..k] == mid.box.accepted;
    ReadOn(online, mid.box.accepted[n..], c'.box.accepted[k..]);
    assert mid.box.accepted[n..] + c'.box.accepted[k..] == c'.box.accepted[n..];
  }

  lemma ReceiveFollows(c: Client, u: Update<Sid>)
    ensures Follows(c.online, c, Receive(c, u))
  {
    S.PushTakesIff(c.box, S.Presence(u.device, u.online));
    if S.Accepts(c.box) {
      ReadOne(c.online, [], S.Presence(u.device, u.online));
      assert Receive(c, u).box.accepted[|c.box.accepted|..] == [] + [S.Presence(u.device, u.online)];
    }
  }

  lemma {:induction false} DeliverFollows(cs: map<Sid, Client>, us: seq<Update<Sid>>, s: Sid)
    requires s in cs
    ensures s in Deliver(cs, us) && Follows(cs[s].online, cs[s], Deliver(cs, us)[s])
    decreases |us|
  {
    if us == [] {
      FollowsNothing(cs[s], cs[s]);
    } else {
      var n := |us| - 1;
      DeliverFollows(cs, us[..n], s);
      var mid := Deliver(cs, us[..n]);
      if us[n].to == s {
        ReceiveFollows(mid[s], us[n]);
        FollowsOn(cs[s].online, cs[s], mid[s], Receive(mid[s], us[n]));
      }
    }
  }

  /** What a subscriber keeps of its view: the devices it has named again. */
  function KeptOf(online: set<Device>, d: Device, peers: seq<Device>): set<Device> {
    set a | a in online && a in peers && a != "" && a != d
  }

  /** A subscribe message on session `s`. */
  predicate Begins(w: World, st: Step, s: Sid) {
    st.Subscribe? && st.device in w.hub.sessions && w.hub.sessions[st.device] == s
  }

  function Start(w: World, st: Step, s: Sid): set<Device>
    requires s in w.clients
  {
    if Begins(w, st, s) then KeptOf(w.clients[s].online, st.device, st.peers) else w.clients[s].online
  }

  lemma SubscribeFollows(w: World, st: Step, s: Sid)
    requires Inv(w) && Can(w, st) && st.Subscribe? && s in w.clients
    ensures s in After(w, st).clients && Follows(Start(w, st, s), w.clients[s], After(w, st).clients[s])
  {
    var d := st.device;
    if d in w.hub.sessions {
      var self := w.hub.sessions[d];
      DeliverFollows(w.clients[self := Cut(w.clients[self], Wanted(d, st.peers))], st.us, s);
      assert w.clients[self].online * Wanted(d, st.peers) == KeptOf(w.clients[self].online, d, st.peers);
    } else {
      FollowsNothing(w.clients[s], w.clients[s]);
    }
  }

  lemma TeardownFollows(w: World, st: Step, s: Sid)
    requires Inv(w) && Can(w, st) && st.Teardown? && s in w.clients
    ensures s in After(w, st).clients && Follows(w.clients[s].online, w.clients[s], After(w, st).clients[s])
  {
    if Holds(w.hub, w.clients[st.sid].device, st.sid) {
      DeliverFollows(Shut(w.clients, st.sid), st.us, s);
    } else {
      FollowsNothing(w.clients[s], After(w, st).clients[s]);
    }
  }

  lemma QueueFollows(w: World, st: Step, s: Sid)
    requires Can(w, st) && st.Queue? && s in w.clients
    ensures Follows(w.clients[s].online, w.clients[s], After(w, st).clients[s])
  {
    var c, c' := w.clients[s], After(w, st).clients[s];
    if s == st.sid && st.e.Send? && S.Accepts(c.box) {
      ReadOne(c.online, [], st.e.m);
      assert c'.box.accepted[|c.box.accepted|..] == [] + [st.e.m];
    } else {
      FollowsNothing(c, c');
    }
  }

  /** In every step a view changes by the messages its queue takes, and by nothing else; a
      subscribe message first cuts it down to the devices named. */
  lemma StepFollows(w: World, st: Step, s: Sid)
    requires Inv(w) && Can(w, st) && s in w.clients
    ensures s in After(w, st).clients && Follows(Start(w, st, s), w.clients[s], After(w, st).clients[s])
  {
    match st
    case Subscribe(_, _, _) => SubscribeFollows(w, st, s);
    case Teardown(_, _) => TeardownFollows(w, st, s);
    case Queue(_, _) => QueueFollows(w, st, s);
    case Connect(_, _) => FollowsNothing(w.clients[s], After(w, st).clients[s]);
    case Welcome(_) => FollowsNothing(w.clients[s], After(w, st).clients[s]);
    case WelcomeFails(_) => FollowsNothing(w.clients[s], After(w, st).clients[s]);
  }

  /** From one moment to the next, without a subscribe message on `s`. */
  ghost predicate Quiet(w: World, w': World, s: Sid) {
    exists st :: Can(w, st) && w' == After(w, st) && !Begins(w, st, s)
  }

  ghost predicate QuietAt(tr: seq<World>, k: nat, s: Sid)
    requires k + 1 < |tr|
  {
    Quiet(tr[k], tr[k + 1], s)
  }

  lemma {:induction false} QuietFollows(tr: seq<World>, i: nat, j: nat, s: Sid)
    requires Run(tr) && i <= j < |tr| && s in tr[i].clients
    requires forall k :: i <= k < j ==> QuietAt(tr, k, s)
    ensures s in tr[j].clients && Follows(tr[i].clients[s].online, tr[i].clients[s], tr[j].clients[s])
    decreases j
  {
    if i == j {
      FollowsNothing(tr[i].clients[s], tr[i].clients[s]);
    } else {
      QuietFollows(tr, i, j - 1, s);
      RunKeeps(tr, j - 1);
      assert QuietAt(tr, j - 1, s);
      var st :| Can(tr[j - 1], st) && tr[j] == After(tr[j - 1], st) && !Begins(tr[j - 1], st, s);
      StepFollows(tr[j - 1], st, s);
      FollowsOn(tr[i].clients[s].online, tr[i].clients[s], tr[j - 1].clients[s], tr[j].clients[s]);
    }
  }

  /** In every run, what a client sees is what the presence messages accepted since its last
      subscribe message say, read in order, starting from what it saw before of the devices
      named in it. */
  lemma ViewIsWhatWasTold(tr: seq<World>, i: nat, j: nat, s: Sid, d: Device, peers: seq<Device>, us: seq<Update<Sid>>)
    requires Run(tr) && i < j < |tr| && Holds(tr[i].hub, d, s) && s in tr[i].clients
    requires Can(tr[i], Subscribe(d, peers, us)) && tr[i + 1] == After(tr[i], Subscribe(d, peers, us))
    requires forall k :: i < k < j ==> QuietAt(tr, k, s)
    ensures s in tr[j].clients && Accepted(tr[i], s) <= Accepted(tr[j], s)
    ensures tr[j].clients[s].online
         == Read(KeptOf(tr[i].clients[s].online, d, peers), Accepted(tr[j], s)[|Accepted(tr[i], s)|..])
  {
    RunKeeps(tr, i);
    var st := Subscribe(d, peers, us);
    StepFollows(tr[i], st, s);
    QuietFollows(tr, i + 1, j, s);
    FollowsOn(Start(tr[i], st, s), tr[i].clients[s], tr[i + 1].clients[s], tr[j].clients[s]);
  }

  /** Before its first subscribe message, starting from nothing. */
  lemma ViewBeforeSubscribing(tr: seq<World>, i: nat, j: nat, s: Sid)
    requires Run(tr) && i < j < |tr| && s !in tr[i].clients && s in tr[i + 1].clients
    requires forall k :: i < k < j ==> QuietAt(tr, k, s)
    ensures s in tr[j].clients && tr[j].clients[s].online == Read({}, Accepted(tr[j], s))
  {
    RunKeeps(tr, i);
    var st := StepOf(tr, i);
    StepClients(tr[i], st, s);
    QuietFollows(tr, i + 1, j, s);
    assert Accepted(tr[j], s)[0..] == Accepted(tr[j], s);
  }

  // ---- who is shown at once ------------------------------------------------------------------------

  /** Just after a subscribe message of `d`, every connected device named in it that had
      named `d` is in the view of `d`, and `d` in that device's, as far as their sessions are
      open; a device not named in it is gone from the view of `d`, and `d` from that device's
      if the two had named each other. */
  lemma SubscriberIsShown(tr: seq<World>, i: nat, d: Device, peers: seq<Device>, us: seq<Update<Sid>>, p: Device)
    requires Run(tr) && i + 1 < |tr| && d in tr[i].hub.sessions && p in tr[i].hub.sessions && p != d
    requires Can(tr[i], Subscribe(d, peers, us)) && tr[i + 1] == After(tr[i], Subscribe(d, peers, us))
    ensures var w := tr[i + 1]; var s, o := tr[i].hub.sessions[d], tr[i].hub.sessions[p];
            && s in w.clients && o in w.clients
            && (p in peers && p != "" && Names(tr[i], p, d) ==>
                  && (!w.clients[s].box.closed ==> p in w.clients[s].online)
                  && (!w.clients[o].box.closed ==> d in w.clients[o].online))
            && (p !in peers && !w.clients[s].box.closed ==> p !in w.clients[s].online)
            && (p !in peers && Names(tr[i], d, p) && Names(tr[i], p, d) && !w.clients[o].box.closed ==> d !in w.clients[o].online)
  {
    RunKeeps(tr, i);
    RunKeepsNamed(tr, i);
    var w := tr[i];
    var s, o := w.hub.sessions[d], w.hub.sessions[p];
    var cs := w.clients[s := Cut(w.clients[s], Wanted(d, peers))];
    ImpliedIsConsistent(w, d, peers, us);
    DeliverReaches(cs, us, s);
    DeliverReaches(cs, us, o);
    SessionsDiffer(w, d, p);
    ImpliedTells(w, d, peers, us, d, p, true);
    ImpliedTells(w, d, peers, us, p, d, true);
    ImpliedTells(w, d, peers, us, p, d, false);
  }

  // ---- which sessions are open ---------------------------------------------------------------------

  /** An open session is the one the hub holds for its device, or its welcome failed. */
  predicate OpenIsHeld(w: World, s: Sid)
    requires s in w.clients
  {
    w.clients[s].box.closed || Holds(w.hub, w.clients[s].device, s) || (s in w.gone && !w.clients[s].welcomed)
  }

  lemma DeliveryOpensNothing(cs: map<Sid, Client>, us: seq<Update<Sid>>, s: Sid)
    requires s in cs && Consistent(us)
    ensures s in Deliver(cs, us) && (cs[s].box.closed ==> Deliver(cs, us)[s].box.closed)
    ensures Deliver(cs, us)[s].device == cs[s].device && Deliver(cs, us)[s].welcomed == cs[s].welcomed
  {
    DeliverReaches(cs, us, s);
  }

  lemma SubscribeOpensNothing(w: World, st: Step, s: Sid)
    requires Inv(w) && Can(w, st) && st.Subscribe? && s in w.clients && OpenIsHeld(w, s)
    ensures s in After(w, st).clients && OpenIsHeld(After(w, st), s)
  {
    if st.device in w.hub.sessions {
      var self := w.hub.sessions[st.device];
      ImpliedIsConsistent(w, st.device, st.peers, st.us);
      DeliveryOpensNothing(w.clients[self := Cut(w.clients[self], Wanted(st.device, st.peers))], st.us, s);
    }
  }

  lemma TeardownOpensNothing(w: World, st: Step, s: Sid)
    requires Inv(w) && Can(w, st) && st.Teardown? && s in w.clients && OpenIsHeld(w, s)
    ensures s in After(w, st).clients && OpenIsHeld(After(w, st), s)
  {
    if Holds(w.hub, w.clients[st.sid].device, st.sid) {
      FarewellIsConsistent(w, w.clients[st.sid].device, st.us);
      DeliveryOpensNothing(Shut(w.clients, st.sid), st.us, s);
    }
  }

  lemma ConnectOpensNothing(w: World, st: Step, s: Sid)
    requires Inv(w) && Can(w, st) && st.Connect? && s in w.clients && OpenIsHeld(w, s)
    ensures OpenIsHeld(After(w, st), s)
  {
  }

  lemma FailureOpensNothing(w: World, st: Step, s: Sid)
    requires Inv(w) && Can(w, st) && st.WelcomeFails? && s in w.clients && OpenIsHeld(w, s)
    ensures OpenIsHeld(After(w, st), s)
  {
  }

  lemma StepOpensNothing(w: World, st: Step, s: Sid)
    requires Inv(w) && Can(w, st) && s in After(w, st).clients && (s in w.clients ==> OpenIsHeld(w, s))
    ensures OpenIsHeld(After(w, st), s)
  {
    if s !in w.clients {
      StepClients(w, st, s);
    } else {
      match st
      case Subscribe(_, _, _) => SubscribeOpensNothing(w, st, s);
      case Teardown(_, _) => TeardownOpensNothing(w, st, s);
      case Queue(_, _) =>
      case Connect(_, _) => ConnectOpensNothing(w, st, s);
      case Welcome(_) =>
      case WelcomeFails(_) => FailureOpensNothing(w, st, s);
    }
  }

  /** In every run a session that takes messages is the one the hub holds for its device,
      so a device has at most one; a session replaced or torn down is closed. Only one whose
      welcome failed is left open, with nobody reading from it. */
  lemma {:induction false} OneOpenSessionPerDevice(tr: seq<World>, i: nat, s: Sid)
    requires Run(tr) && i < |tr| && s in tr[i].clients
    ensures OpenIsHeld(tr[i], s)
    decreases i
  {
    if i > 0 {
      RunKeeps(tr, i - 1);
      var st := StepOf(tr, i - 1);
      if s in tr[i - 1].clients {
        OneOpenSessionPerDevice(tr, i - 1, s);
      }
      StepOpensNothing(tr[i - 1], st, s);
    }
  }
}
