/** What Close and Release do to a stream in use: a handler that waits for the other end is
    not woken, and a request that came second takes a live stream down. */
module LiveStreams {
  import opened Common
  import opened Pipe
  import opened Pump
  import opened Link
  import opened LinkInvariant
  import opened Relay
  import opened Liveness
  import Registry

  // ---- who is woken by Close -------------------------------------------------------------------

  /** A step that the timer, the client or the network has to bring about. */
  predicate FromOutside(e: Event) {
    e.GiveUp? || e.ReadBody? || e.WriteOut? || e.WriteOutFails? || e.ExtendFails?
  }

  /** `h` can go on by itself without waiting for any of them. */
  ghost predicate Woken(l: Link, h: Hid) {
    exists e :: MovedBy(e, h) && Enabled(l, e) && !FromOutside(e)
  }

  /** What a handler can be blocked in that closing the pipe does not end: the wait for an end
      nobody has attached to, a read of the request body, a write of the response. */
  predicate Elsewhere(l: Link, x: Handler) {
    || (x.pc.Waiting? && !OtherReady(l, x.role))
    || (x.pc.Reading? && x.role.Sender?)
    || (x.pc.Writing? && x.role.Receiver?)
  }

  /** Once Close has run, a handler that has not answered can go on by itself if and only if
      it is not blocked elsewhere. */
  lemma CloseWakesAllBut(l: Link, cap: nat, h: Hid)
    requires Inv(l, cap) && l.teardown.Closed? && At(l, h) && !l.handlers[h].pc.Answered?
    ensures Woken(l, h) <==> !Elsewhere(l, l.handlers[h])
  {
    if !Elsewhere(l, l.handlers[h]) {
      var e := WakingMove(l, cap, h);
    }
  }

  lemma WakingMove(l: Link, cap: nat, h: Hid) returns (e: Event)
    requires Inv(l, cap) && l.teardown.Closed? && At(l, h)
    requires !l.handlers[h].pc.Answered? && !Elsewhere(l, l.handlers[h])
    ensures MovedBy(e, h) && Enabled(l, e) && !FromOutside(e)
  {
    match l.handlers[h].pc
    case Looked => e := Claim(h);
    case Claimed => e := SignalReady(h);
    case Waiting => e := SeeReady(h);
    case Refused(_) => e := Release(h);
    case Top => e := Extend(h);
    case Reading => e := ReadSeesDone(h);
    case Writing(_, _, _) => e := WriteSeesDone(h);
    case Closing(_) => e := CloseEnd(h);
    case Releasing(_) => e := Release(h);
  }

  // ---- walking along one stream -----------------------------------------------------------------

  predicate Plain(e: Event) {
    !e.Arrive? && !e.Remove? && !e.Release?
  }

  predicate AllPlain(es: seq<Event>) {
    forall k :: 0 <= k < |es| ==> Plain(es[k])
  }

  ghost predicate Possible(l: Link, cap: nat, es: seq<Event>)
    decreases |es|
  {
    es != [] ==> Enabled(l, es[0]) && Possible(Next(l, cap, es[0]), cap, es[1..])
  }

  function Walk(l: Link, cap: nat, es: seq<Event>): Link
    requires Possible(l, cap, es)
    decreases |es|
  {
    if es == [] then l else Walk(Next(l, cap, es[0]), cap, es[1..])
  }

  /** The stream's own steps, other than Release, lead from one state to another. */
  ghost predicate Reaches(l: Link, cap: nat, l': Link) {
    exists es :: Possible(l, cap, es) && AllPlain(es) && Walk(l, cap, es) == l'
  }

  lemma Stays(l: Link, cap: nat)
    ensures Reaches(l, cap, l)
  {
    assert Possible(l, cap, []) && AllPlain([]) && Walk(l, cap, []) == l;
  }

  /** One step first. */
  lemma StepFirst(l: Link, cap: nat, e: Event, m: Link, l': Link)
    requires Enabled(l, e) && Plain(e) && Next(l, cap, e) == m && Reaches(m, cap, l')
    ensures Reaches(l, cap, l')
  {
    var es :| Possible(m, cap, es) && AllPlain(es) && Walk(m, cap, es) == l';
    var all := [e] + es;
    assert all[0] == e && all[1..] == es;
    assert Possible(l, cap, all) && AllPlain(all) && Walk(l, cap, all) == l';
  }

  lemma Go(tr: seq<System>, st: Step) returns (tr': seq<System>)
    requires Run(tr) && Can(Last(tr), st)
    ensures Run(tr') && Last(tr') == After(Last(tr), st)
  {
    tr' := tr + [After(Last(tr), st)];
    assert Leads(Last(tr), After(Last(tr), st));
    forall i | 0 <= i < |tr'| - 1 ensures LeadsAt(tr', i) {
      if i < |tr| - 1 {
        assert LeadsAt(tr, i);
      }
    }
  }

  lemma {:induction false} GoAlong(tr: seq<System>, id: Id, es: seq<Event>) returns (tr': seq<System>)
    requires Run(tr) && id in Last(tr).links && Possible(Last(tr).links[id], Last(tr).cfg.maxBytes, es) && AllPlain(es)
    ensures Run(tr')
    ensures var s := Last(tr); Last(tr') == s.(links := s.links[id := Walk(s.links[id], s.cfg.maxBytes, es)])
    decreases |es|
  {
    var s := Last(tr);
    if es == [] {
      tr' := tr;
      assert s.links[id := s.links[id]] == s.links;
    } else {
      var mid := Go(tr, Act(id, es[0]));
      tr' := GoAlong(mid, id, es[1..]);
      assert Last(mid).links == s.links[id := Next(s.links[id], s.cfg.maxBytes, es[0])];
    }
  }

  lemma GoTo(tr: seq<System>, id: Id, l': Link) returns (tr': seq<System>)
    requires Run(tr) && id in Last(tr).links && Reaches(Last(tr).links[id], Last(tr).cfg.maxBytes, l')
    ensures Run(tr') && Last(tr') == Last(tr).(links := Last(tr).links[id := l'])
  {
    var l, cap := Last(tr).links[id], Last(tr).cfg.maxBytes;
    var es :| Possible(l, cap, es) && AllPlain(es) && Walk(l, cap, es) == l';
    tr' := GoAlong(tr, id, es);
  }

  /** A relay with one stream. */
  predicate Single(s: System, cfg: Config, id: Id, m: Registry.Meta, l: Link) {
    s.cfg == cfg && s.now == 0 && s.reg == Registry.Reg(map[id := m], map[m.owner := 1]) && s.links == map[id := l]
  }

  /** A relay whose one stream has been removed. */
  predicate Bare(s: System, cfg: Config, id: Id, l: Link) {
    s.cfg == cfg && s.now == 0 && s.reg == Registry.EMPTY && s.links == map[id := l]
  }

  lemma Created(cfg: Config, id: Id, m: Registry.Meta) returns (tr: seq<System>)
    requires cfg.maxPerDevice >= 1 && m.expires == cfg.ttl
    ensures Run(tr) && Single(Last(tr), cfg, id, m, FRESH)
  {
    var s := System(cfg, 0, Registry.EMPTY, map[], map[], map[]);
    tr := Go([s], Create(id, m));
    assert Last(tr).reg == Registry.Reg(map[id := m], map[m.owner := 1]);
  }

  // ---- a handler that Close does not wake -----------------------------------------------------------

  /** A sender that has attached and waits, alone on its stream. */
  function WaitingAlone(body: Bytes): Link {
    FRESH.(senderBy := Some(0), senderReady := true, handlers := map[0 := Handler(Sender, body, 0, 0, [], false, Waiting)])
  }

  lemma SenderWaits(cfg: Config, id: Id, m: Registry.Meta, body: Bytes) returns (tr: seq<System>)
    requires cfg.maxPerDevice >= 1 && m.expires == cfg.ttl
    ensures Run(tr) && Single(Last(tr), cfg, id, m, WaitingAlone(body))
  {
    tr := Created(cfg, id, m);
    tr := Go(tr, Request(id, 0, m.sender, true, body));
    assert Last(tr).links == map[id := AfterArrive(FRESH, 0, Sender, body)];
    WaitingLink(cfg.maxBytes, body);
    tr := GoTo(tr, id, WaitingAlone(body));
    assert Last(tr).links == map[id := WaitingAlone(body)];
  }

  lemma WaitingLink(cap: nat, body: Bytes)
    ensures Reaches(AfterArrive(FRESH, 0, Sender, body), cap, WaitingAlone(body))
  {
    var l := AfterArrive(FRESH, 0, Sender, body);
    Stays(WaitingAlone(body), cap);
    StepFirst(AfterClaim(l, 0), cap, SignalReady(0), WaitingAlone(body), WaitingAlone(body));
    StepFirst(l, cap, Claim(0), AfterClaim(l, 0), WaitingAlone(body));
  }

  lemma OwnerLeaves(tr: seq<System>, cfg: Config, id: Id, m: Registry.Meta, body: Bytes) returns (tr': seq<System>)
    requires Run(tr) && Single(Last(tr), cfg, id, m, WaitingAlone(body))
    ensures Run(tr')
    ensures Bare(Last(tr'), cfg, id, WaitingAlone(body).(teardown := Removed, faulted := true))
  {
    var s := Last(tr);
    assert Registry.Full(Flags(s)) == {};
    assert Registry.Loose(s.reg, m.owner, Registry.Full(Flags(s))) == {id};
    tr' := Go(tr, ReleaseDevice(m.owner, {id}));
    OnlyStreamRemoved(id, m);
    assert Last(tr').links == map[id := WaitingAlone(body).(teardown := Removed, faulted := true)];
  }

  lemma OnlyStreamRemoved(id: Id, m: Registry.Meta)
    ensures Registry.RemoveAll(Registry.Reg(map[id := m], map[m.owner := 1]), {id}) == Registry.EMPTY
    ensures Registry.RemoveOne(Registry.Reg(map[id := m], map[m.owner := 1]), id) == Registry.EMPTY
  {
  }

  lemma BothHalvesClose(l: Link, cap: nat)
    requires l.teardown.Removed?
    ensures Reaches(l, cap, l.(teardown := Closed, pipe := CloseBoth(l.pipe, NotFound)))
  {
    var l' := l.(teardown := Closed, pipe := CloseBoth(l.pipe, NotFound));
    Stays(l', cap);
    StepFirst(AfterCloseHalf(l), cap, CloseHalf, l', l');
    StepFirst(l, cap, CloseHalf, AfterCloseHalf(l), l');
  }

  /** The owner of a stream disconnects while the sender waits for the receiver: the stream
      is removed and closed, and the sender still waits. */
  lemma ClosedWhileWaiting(cfg: Config, id: Id, m: Registry.Meta, body: Bytes) returns (tr: seq<System>)
    requires cfg.maxPerDevice >= 1 && m.expires == cfg.ttl
    ensures Run(tr) && id in Last(tr).links && Last(tr).reg == Registry.EMPTY
    ensures var l := Last(tr).links[id];
            l.teardown.Closed? && At(l, 0) && l.handlers[0].pc.Waiting? && !Woken(l, 0)
  {
    tr := SenderWaits(cfg, id, m, body);
    tr := OwnerLeaves(tr, cfg, id, m, body);
    var l := Last(tr).links[id];
    BothHalvesClose(l, cfg.maxBytes);
    tr := GoTo(tr, id, l.(teardown := Closed, pipe := CloseBoth(l.pipe, NotFound)));
  }

  // ---- an upload, step by step ----------------------------------------------------------------------

  /** Both ends attached. */
  function Joined(body: Bytes): Link {
    Link(Some(0), Some(1), true, true, OPEN, Registered, [], false,
         Pair(At0(body, true, Top), At1(true, Top)))
  }

  /** The upload has been answered ok; the receiver has written everything and is about to
      read the end of file. */
  function Uploaded(body: Bytes): Link {
    Link(Some(0), Some(1), true, true, Pipe(Some(EOF), None), Registered, body, false,
         Pair(Handler(Sender, body, |body|, |body|, [], true, Answered(None)),
              Handler(Receiver, [], 0, |body|, body, true, Top)))
  }

  /** A sender and a receiver on one stream. */
  function Pair(w: Handler, x: Handler): map<Hid, Handler> {
    map[0 := w, 1 := x]
  }

  /** The first two of the six steps of attaching. */
  lemma SenderAttaches(cap: nat, body: Bytes, l': Link)
    requires Reaches(SenderThere(body), cap, l')
    ensures Reaches(BothThere(body), cap, l')
  {
    var l := BothThere(body);
    StepFirst(AfterClaim(l, 0), cap, SignalReady(0), SenderThere(body), l');
    StepFirst(l, cap, Claim(0), AfterClaim(l, 0), l');
  }

  function At0(body: Bytes, joined: bool, pc: Pc): Handler {
    Handler(Sender, body, 0, 0, [], joined, pc)
  }

  function At1(joined: bool, pc: Pc): Handler {
    Handler(Receiver, [], 0, 0, [], joined, pc)
  }

  function BothThere(body: Bytes): Link {
    FRESH.(handlers := Pair(At0(body, false, Looked), At1(false, Looked)))
  }

  function SenderThere(body: Bytes): Link {
    FRESH.(senderBy := Some(0), senderReady := true, handlers := Pair(At0(body, false, Waiting), At1(false, Looked)))
  }

  function BothWait(body: Bytes): Link {
    Link(Some(0), Some(1), true, true, OPEN, Registered, [], false,
         Pair(At0(body, false, Waiting), At1(false, Waiting)))
  }

  lemma ReceiverAttaches(cap: nat, body: Bytes, l': Link)
    requires Reaches(BothWait(body), cap, l')
    ensures Reaches(SenderThere(body), cap, l')
  {
    var l := SenderThere(body);
    StepFirst(AfterClaim(l, 1), cap, SignalReady(1), BothWait(body), l');
    StepFirst(l, cap, Claim(1), AfterClaim(l, 1), l');
  }

  lemma BothJoin(cap: nat, body: Bytes, l': Link)
    requires Reaches(Joined(body), cap, l')
    ensures Reaches(BothWait(body), cap, l')
  {
    var l := BothWait(body);
    var mid := Next(l, cap, SeeReady(0));
    StepFirst(mid, cap, SeeReady(1), Joined(body), l');
    StepFirst(l, cap, SeeReady(0), mid, l');
  }

  /** The sender holds the whole body as its last chunk and the receiver reads. */
  function Offered(body: Bytes): Link {
    Link(Some(0), Some(1), true, true, OPEN, Registered, [], false,
         Pair(Handler(Sender, body, |body|, 0, [], true, Writing(body, |body|, Some(EOF))), At1(true, Reading)))
  }

  /** Both are blocked in their reads. */
  function BothRead(body: Bytes): Link {
    Link(Some(0), Some(1), true, true, OPEN, Registered, [], false,
         Pair(At0(body, true, Reading), At1(true, Reading)))
  }

  lemma BothStartReading(cap: nat, body: Bytes, l': Link)
    requires Reaches(BothRead(body), cap, l')
    ensures Reaches(Joined(body), cap, l')
  {
    var l := Joined(body);
    var mid := AfterExtend(l, 0);
    StepFirst(mid, cap, Extend(1), BothRead(body), l');
    StepFirst(l, cap, Extend(0), mid, l');
  }

  lemma BodyIsRead(cap: nat, body: Bytes, l': Link)
    requires 0 < |body| <= BUFFER && (cap == 0 || |body| <= cap) && Reaches(Offered(body), cap, l')
    ensures Reaches(Joined(body), cap, l')
  {
    var l := BothRead(body);
    assert body[0..|body|] == body;
    assert AfterReadBody(l, cap, 0, |body|, Some(EOF)).handlers == Offered(body).handlers;
    StepFirst(l, cap, ReadBody(0, |body|, Some(EOF)), Offered(body), l');
    BothStartReading(cap, body, l');
  }

  function HandedOver(body: Bytes): Link {
    Link(Some(0), Some(1), true, true, OPEN, Registered, body, false,
         Pair(Handler(Sender, body, |body|, |body|, [], true, Closing(None)),
              Handler(Receiver, [], 0, 0, [], true, Writing(body, |body|, None))))
  }

  lemma BodyIsHandedOver(cap: nat, body: Bytes, l': Link)
    requires 0 < |body| <= BUFFER && (cap == 0 || |body| <= cap) && Reaches(HandedOver(body), cap, l')
    ensures Reaches(Offered(body), cap, l')
  {
    assert body[..|body|] == body && [] + body == body;
    assert AfterHandOff(Offered(body), cap, 0, 1) == HandedOver(body);
    StepFirst(Offered(body), cap, HandOff(0, 1), HandedOver(body), l');
  }

  lemma UploadIsAnswered(cap: nat, body: Bytes, l': Link)
    requires Reaches(Uploaded(body), cap, l')
    ensures Reaches(HandedOver(body), cap, l')
  {
    var l := HandedOver(body);
    assert [] + body == body;
    var mid := AfterWriteOut(l, 1);
    StepFirst(mid, cap, CloseEnd(0), Uploaded(body), l');
    StepFirst(l, cap, WriteOut(1), mid, l');
  }

  lemma JoinedReaches(cap: nat, body: Bytes)
    ensures Reaches(BothThere(body), cap, Joined(body))
  {
    Stays(Joined(body), cap);
    BothJoin(cap, body, Joined(body));
    ReceiverAttaches(cap, body, Joined(body));
    SenderAttaches(cap, body, Joined(body));
  }

  lemma BothAttached(cfg: Config, id: Id, m: Registry.Meta, body: Bytes) returns (tr: seq<System>)
    requires cfg.maxPerDevice >= 1 && m.expires == cfg.ttl && m.sender != m.receiver
    ensures Run(tr) && Single(Last(tr), cfg, id, m, Joined(body))
  {
    tr := Created(cfg, id, m);
    tr := Go(tr, Request(id, 0, m.sender, true, body));
    tr := Go(tr, Request(id, 1, m.receiver, false, []));
    assert Last(tr).links == map[id := BothThere(body)];
    JoinedReaches(cfg.maxBytes, body);
    tr := GoTo(tr, id, Joined(body));
  }

  lemma HandedOverReaches(cap: nat, body: Bytes, l': Link)
    requires 0 < |body| <= BUFFER && (cap == 0 || |body| <= cap) && Reaches(HandedOver(body), cap, l')
    ensures Reaches(Joined(body), cap, l')
  {
    BodyIsHandedOver(cap, body, l');
    BodyIsRead(cap, body, l');
  }

  // A stream in use, both ends of it attached, for which the sender's device asks again.

  predicate InUse(l: Link) {
    l.senderBy.Some? && l.teardown.Registered? && 2 !in l.handlers
  }

  function Second(l: Link, pc: Pc): Link {
    l.(faulted := true, handlers := l.handlers[2 := Handler(Sender, [], 0, 0, [], false, pc)])
  }

  lemma SecondIsRefused(tr: seq<System>, cfg: Config, id: Id, m: Registry.Meta, l: Link) returns (tr': seq<System>)
    requires Run(tr) && Single(Last(tr), cfg, id, m, l) && InUse(l)
    ensures Run(tr') && Single(Last(tr'), cfg, id, m, Second(l, Refused(AlreadyAttached)))
  {
    tr' := Go(tr, Request(id, 2, m.sender, true, []));
    var asked := AfterArrive(l, 2, Sender, []);
    assert Last(tr').links == map[id := asked];
    var refused := Second(l, Refused(AlreadyAttached));
    assert AfterClaim(asked, 2).handlers == refused.handlers;
    Stays(refused, cfg.maxBytes);
    StepFirst(asked, cfg.maxBytes, Claim(2), refused, refused);
    tr' := GoTo(tr', id, refused);
  }

  /** It has been refused, and its Release has removed the stream. */
  function TakenDown(l: Link): Link {
    Second(l, Answered(Some(AlreadyAttached))).(teardown := Removed)
  }

  lemma SecondReleases(tr: seq<System>, cfg: Config, id: Id, m: Registry.Meta, l: Link) returns (tr': seq<System>)
    requires Run(tr) && Single(Last(tr), cfg, id, m, Second(l, Refused(AlreadyAttached))) && InUse(l)
    ensures Run(tr') && Bare(Last(tr'), cfg, id, TakenDown(l))
  {
    tr' := Go(tr, Act(id, Release(2)));
    OnlyStreamRemoved(id, m);
    assert AfterRelease(Second(l, Refused(AlreadyAttached)), 2).handlers == TakenDown(l).handlers;
    assert Last(tr').links == map[id := TakenDown(l)];
  }

  /** And Close has run. */
  function ClosedDown(l: Link): Link {
    TakenDown(l).(teardown := Closed, pipe := CloseBoth(l.pipe, NotFound))
  }

  lemma SecondCloses(tr: seq<System>, cfg: Config, id: Id, m: Registry.Meta, l: Link) returns (tr': seq<System>)
    requires Run(tr) && Single(Last(tr), cfg, id, m, l) && InUse(l)
    ensures Run(tr') && Bare(Last(tr'), cfg, id, ClosedDown(l))
  {
    tr' := SecondIsRefused(tr, cfg, id, m, l);
    tr' := SecondReleases(tr', cfg, id, m, l);
    BothHalvesClose(TakenDown(l), cfg.maxBytes);
    tr' := GoTo(tr', id, ClosedDown(l));
    assert Last(tr').links == map[id := ClosedDown(l)];
  }

  // ---- handlers that Close does not wake, in a stream in use ---------------------------------------

  /** A second attach takes the stream down while the sender reads the request body: the
      stream is removed and closed, and the sender goes on waiting for its client. */
  lemma ClosedWhileReading(cfg: Config, id: Id, m: Registry.Meta, body: Bytes) returns (tr: seq<System>)
    requires cfg.maxPerDevice >= 1 && m.expires == cfg.ttl && m.sender != m.receiver
    ensures Run(tr) && id in Last(tr).links
    ensures var l := Last(tr).links[id];
            l.teardown.Closed? && At(l, 0) && l.handlers[0].role.Sender? && l.handlers[0].pc.Reading? && !Woken(l, 0)
  {
    tr := BothAttached(cfg, id, m, body);
    var l := AfterExtend(Joined(body), 0);
    Stays(l, cfg.maxBytes);
    StepFirst(Joined(body), cfg.maxBytes, Extend(0), l, l);
    tr := GoTo(tr, id, l);
    assert Last(tr).links == map[id := l];
    tr := SecondCloses(tr, cfg, id, m, l);
  }

  /** Or while the receiver writes the response: it goes on waiting for its client too. */
  lemma ClosedWhileWriting(cfg: Config, id: Id, m: Registry.Meta, body: Bytes) returns (tr: seq<System>)
    requires cfg.maxPerDevice >= 1 && m.expires == cfg.ttl && m.sender != m.receiver
    requires 0 < |body| <= BUFFER && (cfg.maxBytes == 0 || |body| <= cfg.maxBytes)
    ensures Run(tr) && id in Last(tr).links
    ensures var l := Last(tr).links[id];
            l.teardown.Closed? && At(l, 1) && l.handlers[1].role.Receiver? && l.handlers[1].pc.Writing? && !Woken(l, 1)
  {
    tr := BothAttached(cfg, id, m, body);
    Stays(HandedOver(body), cfg.maxBytes);
    HandedOverReaches(cfg.maxBytes, body, HandedOver(body));
    tr := GoTo(tr, id, HandedOver(body));
    assert Last(tr).links == map[id := HandedOver(body)];
    tr := SecondCloses(tr, cfg, id, m, HandedOver(body));
  }

  // ---- a finished upload that a second attach aborts ------------------------------------------------

  lemma UploadAnswered(cfg: Config, id: Id, m: Registry.Meta, body: Bytes) returns (tr: seq<System>)
    requires cfg.maxPerDevice >= 1 && m.expires == cfg.ttl && m.sender != m.receiver
    requires 0 < |body| <= BUFFER && (cfg.maxBytes == 0 || |body| <= cfg.maxBytes)
    ensures Run(tr) && Single(Last(tr), cfg, id, m, Uploaded(body))
  {
    tr := BothAttached(cfg, id, m, body);
    Stays(Uploaded(body), cfg.maxBytes);
    UploadIsAnswered(cfg.maxBytes, body, Uploaded(body));
    HandedOverReaches(cfg.maxBytes, body, Uploaded(body));
    tr := GoTo(tr, id, Uploaded(body));
    assert Last(tr).links == map[id := Uploaded(body)];
  }

  /** The receiver has found the pipe closed and has closed its half. */
  function CutOff(body: Bytes): Link {
    var l := ClosedDown(Uploaded(body));
    l.(handlers := l.handlers[1 := l.handlers[1].(pc := Releasing(Some(ClosedPipe)))])
  }

  lemma ReceiverIsCutOff(cap: nat, body: Bytes)
    ensures Reaches(ClosedDown(Uploaded(body)), cap, CutOff(body))
  {
    var l := ClosedDown(Uploaded(body));
    var l1 := AfterExtend(l, 1);
    assert l1.handlers[1].pc == Closing(Some(ClosedPipe));
    assert AfterCloseEnd(l1, 1).handlers == CutOff(body).handlers;
    Stays(CutOff(body), cap);
    StepFirst(l1, cap, CloseEnd(1), CutOff(body), CutOff(body));
    StepFirst(l, cap, Extend(1), l1, CutOff(body));
  }

  /** Its Release is all that is left. */
  lemma CutOffAnswers(tr: seq<System>, id: Id, body: Bytes) returns (tr': seq<System>)
    requires Run(tr) && id in Last(tr).links && Last(tr).links[id] == CutOff(body)
    ensures Run(tr') && id in Last(tr').links
    ensures var l := Last(tr').links[id];
            && At(l, 0) && l.handlers[0].pc == Answered(None) && l.handlers[0].body == body
            && At(l, 1) && l.handlers[1].out == body && l.handlers[1].pc == Answered(Some(ClosedPipe))
  {
    tr' := Go(tr, Act(id, Release(1)));
  }

  /** A run in which a complete transfer is aborted: the upload is answered ok and the
      receiver has written every byte; then a second request for the sender's end is refused,
      its Release closes the stream, and the receiver ends in an error. */
  lemma SecondAttachAborts(cfg: Config, id: Id, m: Registry.Meta, body: Bytes) returns (tr: seq<System>)
    requires cfg.maxPerDevice >= 1 && m.expires == cfg.ttl && m.sender != m.receiver
    requires 0 < |body| <= BUFFER && (cfg.maxBytes == 0 || |body| <= cfg.maxBytes)
    ensures Run(tr) && id in Last(tr).links
    ensures var l := Last(tr).links[id];
            && At(l, 0) && l.handlers[0].pc == Answered(None) && l.handlers[0].body == body
            && At(l, 1) && l.handlers[1].out == body && l.handlers[1].pc == Answered(Some(ClosedPipe))
  {
    tr := UploadAnswered(cfg, id, m, body);
    tr := SecondCloses(tr, cfg, id, m, Uploaded(body));
    ReceiverIsCutOff(cfg.maxBytes, body);
    tr := GoTo(tr, id, CutOff(body));
    tr := CutOffAnswers(tr, id, body);
  }

  // ---- when it is delivered -------------------------------------------------------------------------

  /** The receiver looks at the pipe: at the head of its loop, or blocked in its read. */
  function Look(l: Link, h: Hid): Pc
    requires At(l, h)
  {
    if l.handlers[h].pc.Top? then AfterExtend(l, h).handlers[h].pc
    else AfterDone(l, h, l.pipe.ReadError()).handlers[h].pc
  }

  /** When an upload has been answered ok and the receiver looks for the end, it finds it if
      and only if the sender's clean close came before Close's and Close has not closed the
      read half since. */
  lemma DeliveredIff(l: Link, cap: nat, w: Hid, h: Hid)
    requires Inv(l, cap) && At(l, w) && l.handlers[w].role.Sender? && l.handlers[w].pc == Answered(None)
    requires At(l, h) && l.handlers[h].role.Receiver? && (l.handlers[h].pc.Top? || l.handlers[h].pc.Reading?)
    ensures l.handlers[h].pc.Reading? ==> Enabled(l, ReadSeesDone(h))
    ensures Look(l, h) == Closing(None) <==> l.pipe.werr == Some(EOF) && !l.teardown.Closed?
    ensures l.teardown.Closed? ==> Look(l, h) == Closing(Some(ClosedPipe))
  {
    HolderIs(l, w);
    HolderIs(l, h);
  }

  /** The receiver's loop has read the end of the upload. */
  predicate SawEnd(pc: Pc) {
    pc == Closing(None) || pc == Releasing(None) || pc == Answered(None)
  }

  /** A step in which `h` has no part leaves it as it is. */
  lemma OthersLeave(l: Link, cap: nat, h: Hid, e: Event)
    requires At(l, h) && Enabled(l, e) && l.teardown.Closed? && !MovedBy(e, h)
    requires e.HandOff? ==> e.s != h && e.r != h
    ensures At(Next(l, cap, e), h) && Next(l, cap, e).handlers[h] == l.handlers[h]
  {
  }

  lemma StaysClosed(l: Link, cap: nat, e: Event)
    requires l.teardown.Closed? && Enabled(l, e)
    ensures Next(l, cap, e).teardown.Closed?
  {
  }

  /** Its own steps neither begin nor take back that it has read the end: those of attaching, */
  lemma AttachFate(l: Link, cap: nat, h: Hid, e: Event)
    requires Inv(l, cap) && At(l, h) && l.handlers[h].role.Receiver? && Enabled(l, e) && MovedBy(e, h)
    requires e.Claim? || e.SignalReady? || e.SeeReady? || e.GiveUp?
    ensures var l' := Next(l, cap, e);
            At(l', h) && l'.handlers[h].role.Receiver? && !SawEnd(l'.handlers[h].pc) && !SawEnd(l.handlers[h].pc)
  {
  }

  /** those of closing its half and releasing the stream, */
  lemma LeaveFate(l: Link, cap: nat, h: Hid, e: Event)
    requires At(l, h) && l.handlers[h].role.Receiver? && Enabled(l, e) && MovedBy(e, h)
    requires e.CloseEnd? || e.Release?
    ensures var l' := Next(l, cap, e);
            At(l', h) && l'.handlers[h].role.Receiver? && (SawEnd(l'.handlers[h].pc) <==> SawEnd(l.handlers[h].pc))
  {
  }

  /** and those of its loop, which finds the pipe closed. */
  lemma LoopFate(l: Link, cap: nat, h: Hid, e: Event)
    requires Inv(l, cap) && l.teardown.Closed? && At(l, h) && l.handlers[h].role.Receiver? && Enabled(l, e) && MovedBy(e, h)
    requires !e.Claim? && !e.SignalReady? && !e.SeeReady? && !e.GiveUp? && !e.CloseEnd? && !e.Release?
    ensures var l' := Next(l, cap, e);
            At(l', h) && l'.handlers[h].role.Receiver? && !SawEnd(l'.handlers[h].pc) && !SawEnd(l.handlers[h].pc)
  {
    HolderIs(l, h);
  }

  lemma HandOffFate(l: Link, cap: nat, w: Hid, h: Hid)
    requires Inv(l, cap) && Enabled(l, HandOff(w, h))
    ensures var l' := AfterHandOff(l, cap, w, h);
            At(l', h) && l'.handlers[h].role.Receiver? && !SawEnd(l'.handlers[h].pc) && !SawEnd(l.handlers[h].pc)
  {
    HandOffBytes(l, cap, w, h);
    HolderIs(l, w);
  }

  lemma StepKeepsFate(l: Link, cap: nat, h: Hid, e: Event)
    requires Inv(l, cap) && l.teardown.Closed? && At(l, h) && l.handlers[h].role.Receiver? && Enabled(l, e)
    ensures var l' := Next(l, cap, e);
            && l'.teardown.Closed? && At(l', h) && l'.handlers[h].role.Receiver?
            && (SawEnd(l'.handlers[h].pc) <==> SawEnd(l.handlers[h].pc))
  {
    StaysClosed(l, cap, e);
    if MovedBy(e, h) {
      if e.Claim? || e.SignalReady? || e.SeeReady? || e.GiveUp? {
        AttachFate(l, cap, h, e);
      } else if e.CloseEnd? || e.Release? {
        LeaveFate(l, cap, h, e);
      } else {
        LoopFate(l, cap, h, e);
      }
    } else if e.HandOff? && e.r == h {
      HandOffFate(l, cap, e.s, h);
    } else {
      OthersLeave(l, cap, h, e);
    }
  }

  /** Once Close is complete the receiver's fate is settled: whatever happens from then on,
      when it ends, it ends cleanly if and only if it had read the end of the upload before. */
  lemma {:induction false} ClosedFateIff(l: Link, cap: nat, h: Hid, es: seq<Event>)
    requires Inv(l, cap) && l.teardown.Closed? && At(l, h) && l.handlers[h].role.Receiver? && Possible(l, cap, es)
    ensures var l' := Walk(l, cap, es);
            At(l', h) && (l'.handlers[h].pc.Answered? ==> (l'.handlers[h].pc.err.None? <==> SawEnd(l.handlers[h].pc)))
    decreases |es|
  {
    if es != [] {
      StepKeepsFate(l, cap, h, es[0]);
      StepKeeps(l, cap, es[0]);
      ClosedFateIff(Next(l, cap, es[0]), cap, h, es[1..]);
    }
  }

  /** And the Release of a request that came second takes the stream off the registry if and
      only if it is still registered, in use or not. */
  lemma LoserRemovesIff(s: System, s': System, id: Id, h: Hid)
    requires id in s.links && At(s.links[id], h) && s.links[id].handlers[h].pc == Refused(AlreadyAttached)
    requires Can(s, Act(id, Release(h))) && s' == After(s, Act(id, Release(h))) && Good(s)
    ensures id in s.reg.streams && id !in s'.reg.streams <==> s.links[id].teardown.Registered?
    ensures id !in s'.reg.streams
  {
    assert LinkGood(s, id);
  }
}
