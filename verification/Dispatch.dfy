/** Which device gets which end of a stream: over all runs, the sending end only goes to a
    POST of the stream's sender and the receiving end to a GET of its receiver. */
module Dispatch {
  import opened Common
  import opened Link
  import opened Relay
  import opened Liveness
  import Registry

  /** A request reaches a handler if and only if the stream is registered and the verb fits
      the device: POST for its sender, GET for its receiver, unless that is the sender too. */
  lemma RequestIff(s: System, id: Id, h: Hid, device: Device, post: bool, body: Bytes)
    requires id in s.links && !At(s.links[id], h)
    ensures Can(s, Request(id, h, device, post, body)) <==>
            id in s.reg.streams &&
            (if post then device == s.reg.streams[id].sender
             else device == s.reg.streams[id].receiver && device != s.reg.streams[id].sender)
    ensures Can(s, Request(id, h, device, post, body)) ==>
              var l := After(s, Request(id, h, device, post, body)).links[id];
              At(l, h) && l.handlers[h] == Handler(if post then Sender else Receiver, if post then body else [], 0, 0, [], false, Looked)
  {
  }

  /** Handler `h` was let in by a request that fits its end of stream `id`. */
  predicate Entitled(s: System, id: Id, h: Hid)
    requires id in s.links && At(s.links[id], h)
  {
    && id in s.terms && (id, h) in s.asks
    && match s.links[id].handlers[h].role
       case Sender => s.asks[(id, h)] == Ask(s.terms[id].sender, true, s.links[id].handlers[h].body)
       case Receiver =>
         var ask := s.asks[(id, h)];
         ask.device == s.terms[id].receiver && !ask.post && ask.device != s.terms[id].sender
  }

  /** The registered streams are still what they were created as. */
  ghost predicate TermsOk(s: System) {
    s.terms.Keys == s.links.Keys && forall id :: id in s.reg.streams ==> id in s.terms && s.terms[id] == s.reg.streams[id]
  }

  ghost predicate AllEntitled(s: System) {
    forall id, h :: id in s.links && At(s.links[id], h) ==> Entitled(s, id, h)
  }

  /** No step of a handler changes which end it is at, or what its body is. */
  lemma RolesStay(l: Link, cap: nat, e: Event, h: Hid)
    requires Enabled(l, e) && !e.Arrive? && At(l, h)
    ensures At(Next(l, cap, e), h)
    ensures Next(l, cap, e).handlers[h].role == l.handlers[h].role && Next(l, cap, e).handlers[h].body == l.handlers[h].body
  {
    SameRequests(l, cap, e);
  }

  lemma TermsStay(s: System, st: Step)
    requires TermsOk(s) && Can(s, st)
    ensures TermsOk(After(s, st))
    ensures forall id :: id in s.terms ==> After(s, st).terms[id] == s.terms[id]
  {
    match st
    case Create(_, _) =>
    case Request(_, _, _, _, _) =>
    case Act(_, _) =>
    case Sweep(_) =>
    case ReleaseDevice(_, _) =>
    case Tick(_) =>
  }

  lemma ActEntitles(s: System, st: Step, id: Id, h: Hid)
    requires TermsOk(s) && AllEntitled(s) && Can(s, st) && st.Act?
    requires id in s.links && At(After(s, st).links[id], h)
    ensures Entitled(After(s, st), id, h)
  {
    if st.id == id {
      SameRequests(s.links[id], s.cfg.maxBytes, st.e);
      RolesStay(s.links[id], s.cfg.maxBytes, st.e, h);
    }
    assert Entitled(s, id, h);
  }

  lemma StepEntitles(s: System, st: Step, id: Id, h: Hid)
    requires TermsOk(s) && AllEntitled(s) && Can(s, st)
    requires id in After(s, st).links && At(After(s, st).links[id], h)
    ensures Entitled(After(s, st), id, h)
  {
    match st
    case Create(_, _) =>
      assert id != st.id ==> Entitled(s, id, h);
    case Request(x, g, device, post, body) =>
      RequestIff(s, x, g, device, post, body);
      if (id, h) != (x, g) {
        assert Entitled(s, id, h);
      }
    case Act(_, _) => ActEntitles(s, st, id, h);
    case Sweep(_) => assert Entitled(s, id, h);
    case ReleaseDevice(_, _) => assert Entitled(s, id, h);
    case Tick(_) => assert Entitled(s, id, h);
  }

  lemma {:induction false} RunEntitles(tr: seq<System>, i: nat)
    requires Run(tr) && i < |tr|
    ensures TermsOk(tr[i]) && AllEntitled(tr[i])
  {
    if i > 0 {
      RunEntitles(tr, i - 1);
      assert LeadsAt(tr, i - 1);
      var st :| Can(tr[i - 1], st) && tr[i] == After(tr[i - 1], st);
      TermsStay(tr[i - 1], st);
      forall id, h | id in tr[i].links && At(tr[i].links[id], h) ensures Entitled(tr[i], id, h) {
        StepEntitles(tr[i - 1], st, id, h);
      }
    }
  }

  /** At every moment of every run, whoever is at the sending end of a stream came by a POST
      of the device the stream was created for as its sender, and whoever is at the
      receiving end by a GET of its receiver; any other device is at neither. */
  lemma EndsBelongToTheirDevices(tr: seq<System>, i: nat, id: Id, h: Hid)
    requires Run(tr) && i < |tr| && id in tr[i].links && At(tr[i].links[id], h)
    ensures var s, x := tr[i], tr[i].links[id].handlers[h];
            && id in s.terms && (id, h) in s.asks
            && (x.role.Sender? <==> s.asks[(id, h)].post)
            && (x.role.Sender? ==> s.asks[(id, h)].device == s.terms[id].sender && x.body == s.asks[(id, h)].body)
            && (x.role.Receiver? ==> s.asks[(id, h)].device == s.terms[id].receiver != s.terms[id].sender)
  {
    RunEntitles(tr, i);
    assert Entitled(tr[i], id, h);
  }

  /** What a request that ends cleanly at the receiving end has written is the whole body of
      the POST of the stream's sender, which was answered ok. */
  lemma DownloadIsTheUpload(tr: seq<System>, i: nat, id: Id, h: Hid) returns (w: Hid)
    requires Run(tr) && i < |tr| && id in tr[i].links && At(tr[i].links[id], h)
    requires tr[i].links[id].handlers[h].role.Receiver? && tr[i].links[id].handlers[h].pc == Answered(None)
    ensures var s := tr[i];
            && id in s.terms && (id, h) in s.asks && s.asks[(id, h)].device == s.terms[id].receiver
            && At(s.links[id], w) && s.links[id].handlers[w].pc == Answered(None)
            && (id, w) in s.asks && s.asks[(id, w)].post && s.asks[(id, w)].device == s.terms[id].sender
            && s.links[id].handlers[h].out == s.asks[(id, w)].body
  {
    var l := tr[i].links[id];
    CleanEndMeansComplete(tr, tr[i], id, h);
    w := l.senderBy.value;
    SenderHolds(tr, tr[i], id);
    EndsBelongToTheirDevices(tr, i, id, h);
    EndsBelongToTheirDevices(tr, i, id, w);
  }

  lemma SenderHolds(tr: seq<System>, s: System, id: Id)
    requires Reached(tr, s, id) && s.links[id].senderBy.Some?
    ensures At(s.links[id], s.links[id].senderBy.value) && s.links[id].handlers[s.links[id].senderBy.value].role.Sender?
  {
    LinkAt(tr, s, id);
  }
}
