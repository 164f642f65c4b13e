/** The hub's privacy rule over whole runs: whatever a session is told about a device, the
    two list each other. */
module Privacy {
  import opened Hub
  import opened Presence
  import S = Session

  function Accepted(w: World, s: Sid): seq<S.Msg> {
    if s in w.clients then w.clients[s].box.accepted else []
  }

  /** The message is one of the notifications for session `s`. */
  ghost predicate Notifies(us: seq<Update<Sid>>, s: Sid, m: S.Msg) {
    exists u :: u in us && u.to == s && m == S.Presence(u.device, u.online)
  }

  /** A delivery only adds messages, and only the notifications it was given. */
  lemma {:induction false} DeliverAdds(cs: map<Sid, Client>, us: seq<Update<Sid>>, s: Sid)
    requires s in cs
    ensures s in Deliver(cs, us)
    ensures var b, b' := cs[s].box.accepted, Deliver(cs, us)[s].box.accepted;
            b <= b' && forall k :: |b| <= k < |b'| ==> Notifies(us, s, b'[k])
    decreases |us|
  {
    if us != [] {
      var n := |us| - 1;
      DeliverAdds(cs, us[..n], s);
      var b, mid, b' := cs[s].box.accepted, Deliver(cs, us[..n])[s].box.accepted, Deliver(cs, us)[s].box.accepted;
      forall k | |b| <= k < |b'| ensures Notifies(us, s, b'[k]) {
        if k < |mid| {
          var u :| u in us[..n] && u.to == s && mid[k] == S.Presence(u.device, u.online);
          assert u in us;
        } else {
          assert us[n] in us;
        }
      }
    }
  }

  /** What a message would reveal is covered by a mutual subscription before or after. */
  predicate Covered(w: World, w': World, s: Sid, m: S.Msg) {
    s in w.clients && m.Presence? ==>
      Mutual(w.hub, w.clients[s].device, m.device) || Mutual(w'.hub, w.clients[s].device, m.device)
  }

  lemma ImpliedIsCovered(w: World, st: Step, s: Sid, m: S.Msg)
    requires Inv(w) && Can(w, st) && st.Subscribe? && s in w.clients && Notifies(st.us, s, m)
    ensures Covered(w, After(w, st), s, m)
  {
    var h, d, peers := w.hub, st.device, st.peers;
    var u :| u in st.us && u.to == s && m == S.Presence(u.device, u.online);
    assert u in Implied(h, d, peers);
    if p :| p in Mutuals(h, d, peers) && u == ToSelf(h, d, p) {
      OnlyMutualIsRevealed(h, d, peers, p);
    } else {
      var p :| p in Heard(h, d, peers) && u == ToPeer(h, d, peers, p);
      OnlyMutualIsRevealed(h, d, peers, p);
    }
  }

  lemma FarewellIsCovered(w: World, st: Step, s: Sid, m: S.Msg)
    requires Inv(w) && Can(w, st) && st.Teardown? && s in w.clients && Notifies(st.us, s, m)
    ensures Covered(w, After(w, st), s, m)
  {
    var u :| u in st.us && u.to == s && m == S.Presence(u.device, u.online);
    var d := w.clients[st.sid].device;
    assert u in Farewell(w.hub, d);
    var p :| p in ToldGone(w.hub, d) && p in w.hub.sessions && u == Update(w.hub.sessions[p], d, false);
  }

  lemma SubscribeIsPrivate(w: World, st: Step, s: Sid, k: nat)
    requires Inv(w) && Can(w, st) && st.Subscribe? && s in w.clients
    ensures Accepted(w, s) <= Accepted(After(w, st), s)
    ensures |Accepted(w, s)| <= k < |Accepted(After(w, st), s)| ==> Covered(w, After(w, st), s, Accepted(After(w, st), s)[k])
  {
    var d := st.device;
    if d in w.hub.sessions && w.hub.sessions[d] in w.clients {
      var self := w.hub.sessions[d];
      DeliverAdds(w.clients[self := Cut(w.clients[self], Wanted(d, st.peers))], st.us, s);
      if |Accepted(w, s)| <= k < |Accepted(After(w, st), s)| {
        ImpliedIsCovered(w, st, s, Accepted(After(w, st), s)[k]);
      }
    }
  }

  lemma TeardownIsPrivate(w: World, st: Step, s: Sid, k: nat)
    requires Inv(w) && Can(w, st) && st.Teardown? && s in w.clients
    ensures Accepted(w, s) <= Accepted(After(w, st), s)
    ensures |Accepted(w, s)| <= k < |Accepted(After(w, st), s)| ==> Covered(w, After(w, st), s, Accepted(After(w, st), s)[k])
  {
    if Holds(w.hub, w.clients[st.sid].device, st.sid) {
      DeliverAdds(Shut(w.clients, st.sid), st.us, s);
      if |Accepted(w, s)| <= k < |Accepted(After(w, st), s)| {
        FarewellIsCovered(w, st, s, Accepted(After(w, st), s)[k]);
      }
    }
  }

  lemma StepIsPrivate(w: World, st: Step, s: Sid, k: nat)
    requires Inv(w) && Can(w, st) && s in After(w, st).clients
    ensures Accepted(w, s) <= Accepted(After(w, st), s)
    ensures |Accepted(w, s)| <= k < |Accepted(After(w, st), s)| ==> Covered(w, After(w, st), s, Accepted(After(w, st), s)[k])
  {
    match st
    case Subscribe(_, _, _) => if s in w.clients { SubscribeIsPrivate(w, st, s, k); }
    case Teardown(_, _) => if s in w.clients { TeardownIsPrivate(w, st, s, k); }
    case Queue(_, _) =>
    case Connect(_, _) =>
    case Welcome(_) =>
    case WelcomeFails(_) =>
  }

  /** In every run, a session that is told anything about a device, by a Subscribe or by a
      teardown, belongs to a device such that each of the two named the other in its last
      subscribe message, just before or just after. */
  lemma OnlyMutualIsTold(tr: seq<World>, i: nat, s: Sid, k: nat)
    requires Run(tr) && i + 1 < |tr| && s in tr[i].clients
    requires |Accepted(tr[i], s)| <= k < |Accepted(tr[i + 1], s)| && Accepted(tr[i + 1], s)[k].Presence?
    ensures var d, a := tr[i].clients[s].device, Accepted(tr[i + 1], s)[k].device;
            || (Names(tr[i], d, a) && Names(tr[i], a, d))
            || (Names(tr[i + 1], d, a) && Names(tr[i + 1], a, d))
  {
    var w, w' := tr[i], tr[i + 1];
    RunKeeps(tr, i);
    RunKeepsNamed(tr, i);
    RunKeepsNamed(tr, i + 1);
    MutualIsNamed(w, w.clients[s].device, Accepted(w', s)[k].device);
    MutualIsNamed(w', w.clients[s].device, Accepted(w', s)[k].device);
    var st := StepOf(tr, i);
    StepIsPrivate(w, st, s, k);
  }

  /** And a session has been told nothing when it is registered. */
  lemma NothingToldAtFirst(tr: seq<World>, i: nat, s: Sid)
    requires Run(tr) && i + 1 < |tr| && s !in tr[i].clients && s in tr[i + 1].clients
    ensures Accepted(tr[i + 1], s) == []
  {
    var w, w' := tr[i], tr[i + 1];
    RunKeeps(tr, i);
    var st := StepOf(tr, i);
    StepClients(w, st, s);
  }

  lemma StepClients(w: World, st: Step, s: Sid)
    requires Inv(w) && Can(w, st) && s !in w.clients && s in After(w, st).clients
    ensures st.Connect? && st.sid == s
  {
    match st
    case Subscribe(d, peers, us) =>
      ImpliedIsConsistent(w, d, peers, us);
      if d in w.hub.sessions {
        var self := w.hub.sessions[d];
        DeliverReaches(w.clients[self := Cut(w.clients[self], Wanted(d, peers))], us, self);
      }
    case Teardown(sid, us) =>
      if Holds(w.hub, w.clients[sid].device, sid) {
        FarewellIsConsistent(w, w.clients[sid].device, us);
        DeliverReaches(Shut(w.clients, sid), us, sid);
      }
    case Queue(_, _) =>
    case Connect(_, _) =>
    case Welcome(_) =>
    case WelcomeFails(_) =>
  }
}
