/** When presence stops being exact: the welcome of a new connection cannot be written, and
    the device is dropped without a word. */
module FailedWelcome {
  import opened Hub
  import opened Presence

  /** The open session of `e`, once subscribed, sees exactly the truth. */
  predicate Exact(w: World, e: Device) {
    Watching(w, e) ==> w.clients[w.hub.sessions[e]].online == Watchers(w.hub, e)
  }

  ghost predicate AllExact(w: World) {
    forall e :: e in w.hub.sessions ==> Exact(w, e)
  }

  lemma StillWatching(w: World, sid: Sid, e: Device)
    requires Inv(w) && Can(w, WelcomeFails(sid)) && Holds(w.hub, w.clients[sid].device, sid) && e != w.clients[sid].device
    ensures Watching(Vanished(w, sid), e) <==> Watching(w, e)
    ensures Watching(w, e) ==>
              && Vanished(w, sid).clients[w.hub.sessions[e]].online == w.clients[w.hub.sessions[e]].online
              && Watchers(Vanished(w, sid).hub, e) == Watchers(w.hub, e) - {w.clients[sid].device}
              && (w.clients[sid].device in Watchers(w.hub, e) <==> e in ToldGone(w.hub, w.clients[sid].device))
  {
    if e in w.hub.sessions {
      TruthAfterUnregister(w, w.clients[sid].device, e);
    }
  }

  /** A failed welcome leaves every view exact if and only if its session had been replaced
      or no open, subscribed session is mutual with the device: those sessions, which a
      teardown would tell, go on seeing it. */
  lemma HarmlessIff(w: World, sid: Sid)
    requires Inv(w) && Can(w, WelcomeFails(sid)) && AllExact(w)
    ensures var d := w.clients[sid].device;
            AllExact(Vanished(w, sid))
            <==> !Holds(w.hub, d, sid) || forall e :: e in ToldGone(w.hub, d) ==> !Watching(w, e)
  {
    var d, w' := w.clients[sid].device, Vanished(w, sid);
    if Holds(w.hub, d, sid) {
      forall e | e in w'.hub.sessions ensures Exact(w', e) <==> !(e in ToldGone(w.hub, d) && Watching(w, e)) {
        StillWatching(w, sid, e);
        assert Exact(w, e);
      }
      assert forall e :: e in ToldGone(w.hub, d) ==> e in w'.hub.sessions;
    } else {
      forall e | e in w'.hub.sessions ensures Exact(w', e) {
        assert Exact(w, e);
      }
    }
  }

  // ---- every false entry has its failed welcome --------------------------------------------------

  /** The open session a device has, and what it wrongly shows. */
  predicate Shows(w: World, d: Device, s: Sid, a: Device) {
    && d in w.hub.sessions && w.hub.sessions[d] == s && s in w.clients
    && !w.clients[s].box.closed && a in w.clients[s].stale
  }

  /** Between two moments device `a` was dropped because its welcome failed, although the
      session `s` of `d` was to be told that it is gone. */
  ghost predicate Forsook(w: World, w': World, d: Device, s: Sid, a: Device) {
    exists sid :: ForsookBy(w, w', d, s, a, sid)
  }

  ghost predicate ForsookBy(w: World, w': World, d: Device, s: Sid, a: Device, sid: Sid) {
    && Can(w, WelcomeFails(sid)) && w' == Vanished(w, sid)
    && w.clients[sid].device == a && Holds(w.hub, a, sid)
    && d in ToldGone(w.hub, a) && Holds(w.hub, d, s)
  }

  lemma SubscribeShowsNoMore(w: World, st: Step, d: Device, s: Sid, a: Device)
    requires Inv(w) && Can(w, st) && st.Subscribe? && Shows(After(w, st), d, s, a)
    ensures Shows(w, d, s, a)
  {
    if st.device in w.hub.sessions {
      var self := w.hub.sessions[st.device];
      var cs := w.clients[self := Cut(w.clients[self], Wanted(st.device, st.peers))];
      ImpliedIsConsistent(w, st.device, st.peers, st.us);
      DeliverReaches(cs, st.us, s);
    }
  }

  lemma TeardownShowsNoMore(w: World, st: Step, d: Device, s: Sid, a: Device)
    requires Inv(w) && Can(w, st) && st.Teardown? && Shows(After(w, st), d, s, a)
    ensures Shows(w, d, s, a)
  {
    if Holds(w.hub, w.clients[st.sid].device, st.sid) {
      FarewellIsConsistent(w, w.clients[st.sid].device, st.us);
      DeliverReaches(Shut(w.clients, st.sid), st.us, s);
    }
  }

  lemma VanishShows(w: World, sid: Sid, d: Device, s: Sid, a: Device)
    requires Inv(w) && Can(w, WelcomeFails(sid)) && Shows(Vanished(w, sid), d, s, a) && !Shows(w, d, s, a)
    ensures ForsookBy(w, Vanished(w, sid), d, s, a, sid)
  {
    assert ViewOk(w, d, w.clients[s]);
    TruthAfterUnregister(w, a, d);
  }

  lemma StepShows(w: World, st: Step, d: Device, s: Sid, a: Device)
    requires Inv(w) && Can(w, st) && Shows(After(w, st), d, s, a) && !Shows(w, d, s, a)
    ensures Forsook(w, After(w, st), d, s, a)
  {
    match st
    case Subscribe(_, _, _) => SubscribeShowsNoMore(w, st, d, s, a);
    case Teardown(_, _) => TeardownShowsNoMore(w, st, d, s, a);
    case WelcomeFails(sid) =>
      VanishShows(w, sid, d, s, a);
    case Connect(_, _) =>
    case Welcome(_) =>
    case Queue(_, _) =>
  }

  lemma ShownSince(tr: seq<World>, i: nat, d: Device, s: Sid, a: Device)
    requires Run(tr) && i < |tr| && Shows(tr[i], d, s, a)
    ensures i > 0 && (Shows(tr[i - 1], d, s, a) || Forsook(tr[i - 1], tr[i], d, s, a))
  {
    if i > 0 {
      RunKeeps(tr, i - 1);
      var st := StepOf(tr, i - 1);
      if !Shows(tr[i - 1], d, s, a) {
        StepShows(tr[i - 1], st, d, s, a);
      }
    }
  }

  lemma {:induction false} ShownIsBlamed(tr: seq<World>, i: nat, d: Device, s: Sid, a: Device) returns (j: nat)
    requires Run(tr) && i < |tr| && Shows(tr[i], d, s, a)
    ensures j < i && Forsook(tr[j], tr[j + 1], d, s, a)
    decreases i
  {
    ShownSince(tr, i, d, s, a);
    if Shows(tr[i - 1], d, s, a) {
      j := ShownIsBlamed(tr, i - 1, d, s, a);
    } else {
      j := i - 1;
    }
  }

  /** In every run, if an open session that has subscribed sees a device online that is not
      registered, or the two did not name each other in their last subscribe messages, then at some earlier moment that device's
      welcome failed while this very session was due to be told. */
  lemma FalseEntriesAreBlamed(tr: seq<World>, i: nat, d: Device, a: Device) returns (j: nat)
    requires Run(tr) && i < |tr| && Watching(tr[i], d)
    requires a in tr[i].clients[tr[i].hub.sessions[d]].online
    requires !(a in tr[i].hub.sessions && Names(tr[i], d, a) && Names(tr[i], a, d))
    ensures j < i && Forsook(tr[j], tr[j + 1], d, tr[i].hub.sessions[d], a)
  {
    RunKeeps(tr, i);
    RunKeepsNamed(tr, i);
    MutualIsNamed(tr[i], d, a);
    assert ViewOk(tr[i], d, tr[i].clients[tr[i].hub.sessions[d]]);
    j := ShownIsBlamed(tr, i, d, tr[i].hub.sessions[d], a);
  }
}
