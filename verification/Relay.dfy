/** The data plane as a whole: the registry together with every stream ever created and
    every request that found one, as a transition system, and what holds of all its runs. */
module Relay {
  import opened Common
  import opened Pump
  import opened Link
  import opened LinkInvariant
  import Registry

  type Id = Registry.Id
  type Device = Registry.Device

  datatype Config = Config(maxPerDevice: int, ttl: int, maxBytes: nat)

  /** A request for a stream: the authenticated device, its verb, POST or GET, and its body. */
  datatype Ask = Ask(device: Device, post: bool, body: Bytes)

  /** `links` holds every stream created so far, registered or not, because handlers keep
      using a stream they looked up before it was removed.  `terms` is what each of them was
      created with and `asks` what each request asked for; both are history. */
  datatype System = System(cfg: Config, now: int, reg: Registry.Reg, links: map<Id, Link>,
                           terms: map<Id, Registry.Meta>, asks: map<(Id, Hid), Ask>)

  datatype Step =
    | Create(id: Id, m: Registry.Meta)
    | Request(id: Id, h: Hid, device: Device, post: bool, body: Bytes)
    | Act(id: Id, e: Event)
    | Sweep(ids: set<Id>)
    | ReleaseDevice(device: Device, ids: set<Id>)
    | Tick(to: int)

  predicate Initial(s: System) {
    s.reg == Registry.EMPTY && s.links == map[] && s.terms == map[] && s.asks == map[]
  }

  /** The attach flags of every stream. */
  function Flags(s: System): Registry.Flags {
    map id | id in s.links :: (s.links[id].senderBy.Some?, s.links[id].receiverBy.Some?)
  }

  /** The dispatch of ServeHTTP for an authenticated device: Get, Role and the verb. */
  function Route(reg: Registry.Reg, id: Id, device: Device, post: bool): Option<Role> {
    if id !in reg.streams then None
    else
      match Registry.RoleOf(reg.streams[id], device)
      case AsSender => if post then Some(Sender) else None
      case AsReceiver => if post then None else Some(Receiver)
      case Forbidden => None
  }

  /** Sweep and ReleaseDevice look at the attach flags while requests go on setting them,
      so one call of either is a number of such steps, each on a part of what qualifies. */
  predicate Can(s: System, st: Step) {
    match st
    case Create(id, m) =>
      && id !in s.links && m.expires == s.now + s.cfg.ttl
      && Registry.Admit(s.reg, s.cfg.maxPerDevice, id, m).Some?
    case Request(id, h, device, post, _) =>
      id in s.links && Route(s.reg, id, device, post).Some? && !At(s.links[id], h)
    case Act(id, e) =>
      id in s.links && !e.Arrive? && !e.Remove? && Enabled(s.links[id], e)
    case Sweep(ids) => ids <= Registry.Stale(s.reg, s.now, Registry.Touched(Flags(s)))
    case ReleaseDevice(device, ids) => ids <= Registry.Loose(s.reg, device, Registry.Full(Flags(s)))
    case Tick(to) => s.now <= to
  }

  function After(s: System, st: Step): System
    requires Can(s, st)
  {
    match st
    case Create(id, m) =>
      s.(reg := Registry.Admit(s.reg, s.cfg.maxPerDevice, id, m).value, links := s.links[id := FRESH],
         terms := s.terms[id := m])
    case Request(id, h, device, post, body) =>
      s.(links := s.links[id := AfterArrive(s.links[id], h, Route(s.reg, id, device, post).value, body)],
         asks := s.asks[(id, h) := Ask(device, post, body)])
    case Act(id, e) =>
      s.(links := s.links[id := Next(s.links[id], s.cfg.maxBytes, e)],
         reg := if e.Release? && id in s.reg.streams then Registry.RemoveOne(s.reg, id) else s.reg)
    case Sweep(ids) => Dropped(s, ids)
    case ReleaseDevice(_, ids) => Dropped(s, ids)
    case Tick(to) => s.(now := to)
  }

  function Dropped(s: System, ids: set<Id>): System {
    s.(reg := Registry.RemoveAll(s.reg, ids),
       links := map id | id in s.links ::
         if id in ids then s.links[id].(teardown := Removed, faulted := true) else s.links[id])
  }

  // ---- the invariant of the whole ---------------------------------------------------------

  ghost predicate Good(s: System) {
    && Registry.QuotaOk(s.reg, s.cfg.maxPerDevice)
    && s.reg.streams.Keys <= s.links.Keys
    && forall id :: id in s.links ==> LinkGood(s, id)
  }

  /** The stream's own invariant, and that it is filed exactly while not torn down. */
  ghost predicate LinkGood(s: System, id: Id)
    requires id in s.links
  {
    && Inv(s.links[id], s.cfg.maxBytes)
    && (id in s.reg.streams <==> s.links[id].teardown.Registered?)
  }

  lemma InitialGood(s: System)
    requires Initial(s)
    ensures Good(s)
  {
    forall d ensures Registry.Owned(s.reg.streams, d) == {} {
    }
  }

  /** A step that touches one stream and leaves every other one's filing alone. */
  lemma OneLink(s: System, s': System, id: Id)
    requires Good(s) && id in s'.links
    requires s'.cfg == s.cfg && s'.links == s.links[id := s'.links[id]]
    requires forall x :: x in s.links && x != id ==> (x in s'.reg.streams <==> x in s.reg.streams)
    requires s'.reg.streams.Keys <= s.reg.streams.Keys + {id}
    requires Registry.QuotaOk(s'.reg, s'.cfg.maxPerDevice)
    requires LinkGood(s', id)
    ensures Good(s')
  {
    forall x | x in s'.links ensures LinkGood(s', x) {
      if x != id {
        assert LinkGood(s, x);
      }
    }
  }

  lemma CreateKeeps(s: System, st: Step)
    requires Good(s) && Can(s, st) && st.Create?
    ensures Good(After(s, st))
  {
    Registry.AdmitKeepsQuota(s.reg, s.cfg.maxPerDevice, st.id, st.m);
    FreshOk(s.cfg.maxBytes);
    OneLink(s, After(s, st), st.id);
  }

  lemma RequestKeeps(s: System, st: Step)
    requires Good(s) && Can(s, st) && st.Request?
    ensures Good(After(s, st))
  {
    assert LinkGood(s, st.id);
    ArriveKeeps(s.links[st.id], s.cfg.maxBytes, st.h, Route(s.reg, st.id, st.device, st.post).value, st.body);
    OneLink(s, After(s, st), st.id);
  }

  lemma RemoveOneIsAll(r: Registry.Reg, id: Id)
    requires id in r.streams
    ensures Registry.RemoveOne(r, id) == Registry.RemoveAll(r, {id})
  {
    Registry.RemoveNone(r);
    Registry.RemoveOneMore(r, {}, id);
    assert {} + {id} == {id};
  }

  lemma ActKeeps(s: System, st: Step)
    requires Good(s) && Can(s, st) && st.Act?
    ensures Good(After(s, st))
  {
    var id, e := st.id, st.e;
    assert LinkGood(s, id);
    StepKeeps(s.links[id], s.cfg.maxBytes, e);
    TeardownOf(s.links[id], s.cfg.maxBytes, e);
    if e.Release? && id in s.reg.streams {
      RemoveOneIsAll(s.reg, id);
      Registry.RemoveKeepsQuota(s.reg, s.cfg.maxPerDevice, {id});
    }
    OneLink(s, After(s, st), id);
  }

  /** Of a handler's own steps only Release takes a stream out of service. */
  lemma TeardownOf(l: Link, cap: nat, e: Event)
    requires Enabled(l, e) && !e.Arrive? && !e.Remove?
    ensures Next(l, cap, e).teardown.Registered? <==> l.teardown.Registered? && !e.Release?
  {
  }

  lemma DropKeeps(s: System, ids: set<Id>)
    requires Good(s) && ids <= s.reg.streams.Keys
    ensures Good(Dropped(s, ids))
  {
    var s' := Dropped(s, ids);
    Registry.RemoveKeepsQuota(s.reg, s.cfg.maxPerDevice, ids);
    forall id | id in s'.links ensures LinkGood(s', id) {
      assert LinkGood(s, id);
      if id in ids {
        RemoveKeeps(s.links[id], s.cfg.maxBytes);
      }
    }
  }

  lemma StepKeepsGood(s: System, st: Step)
    requires Good(s) && Can(s, st)
    ensures Good(After(s, st))
  {
    match st
    case Create(_, _) => CreateKeeps(s, st);
    case Request(_, _, _, _, _) => RequestKeeps(s, st);
    case Act(_, _) => ActKeeps(s, st);
    case Sweep(ids) => DropKeeps(s, ids);
    case ReleaseDevice(_, ids) => DropKeeps(s, ids);
    case Tick(_) =>
      forall id | id in s.links ensures LinkGood(After(s, st), id) {
        assert LinkGood(s, id);
      }
  }

  // ---- runs ---------------------------------------------------------------------------------

  ghost predicate Leads(s: System, s': System) {
    exists st :: Can(s, st) && s' == After(s, st)
  }

  ghost predicate Path(tr: seq<System>) {
    tr != [] && forall i :: 0 <= i < |tr| - 1 ==> LeadsAt(tr, i)
  }

  ghost predicate LeadsAt(tr: seq<System>, i: nat)
    requires i + 1 < |tr|
  {
    Leads(tr[i], tr[i + 1])
  }

  /** A run of the relay: any interleaving of any steps from the empty registry. */
  ghost predicate Run(tr: seq<System>) {
    Path(tr) && Initial(tr[0])
  }

  lemma LeadKeepsGood(s: System, s': System)
    requires Good(s) && Leads(s, s')
    ensures Good(s')
  {
    var st :| Can(s, st) && s' == After(s, st);
    StepKeepsGood(s, st);
  }

  lemma {:induction false} PathStaysGood(tr: seq<System>, i: nat)
    requires Path(tr) && Good(tr[0]) && i < |tr|
    ensures Good(tr[i])
  {
    if i > 0 {
      PathStaysGood(tr, i - 1);
      assert LeadsAt(tr, i - 1);
      LeadKeepsGood(tr[i - 1], tr[i]);
    }
  }

  lemma RunStaysGood(tr: seq<System>, i: nat)
    requires Run(tr) && i < |tr|
    ensures Good(tr[i])
  {
    InitialGood(tr[0]);
    PathStaysGood(tr, i);
  }

  /** The quota is conserved at every moment of every run. */
  lemma QuotaConserved(tr: seq<System>, i: nat, d: Device)
    requires Run(tr) && i < |tr|
    ensures var r := tr[i].reg;
            && Registry.Slots(r.perDevice, d) == |Registry.Owned(r.streams, d)|
            && (d in r.perDevice ==> 0 < r.perDevice[d] <= tr[i].cfg.maxPerDevice)
  {
    RunStaysGood(tr, i);
  }

  /** Once created, a stream is known for ever, and its removal is final. */
  lemma RemovalIsFinal(s: System, s': System, id: Id)
    requires Good(s) && Leads(s, s') && id in s.links
    ensures id in s'.links
    ensures id !in s.reg.streams ==> id !in s'.reg.streams
  {
    var st :| Can(s, st) && s' == After(s, st);
    OnlyCreateFiles(s, st);
  }

  lemma OnlyCreateFiles(s: System, st: Step)
    requires Can(s, st)
    ensures s.links.Keys <= After(s, st).links.Keys
    ensures After(s, st).reg.streams.Keys <= s.reg.streams.Keys + (if st.Create? then {st.id} else {})
  {
    match st
    case Create(_, _) =>
    case Sweep(_) =>
    case ReleaseDevice(_, _) =>
    case Tick(_) =>
    case Request(_, _, _, _, _) =>
    case Act(_, _) =>
  }

  /** A stream that has been removed stays removed, so over a whole run it is refunded at
      most once, whichever of Release, Sweep and ReleaseDevice came first. */
  lemma {:induction false} RemovedOnce(tr: seq<System>, id: Id, i: nat, j: nat)
    requires Run(tr) && i <= j < |tr|
    requires id in tr[i].links && id !in tr[i].reg.streams
    ensures id in tr[j].links && id !in tr[j].reg.streams
    decreases j
  {
    if i < j {
      RemovedOnce(tr, id, i, j - 1);
      RemovedOneMore(tr, id, j);
    }
  }

  lemma RemovedOneMore(tr: seq<System>, id: Id, j: nat)
    requires Run(tr) && 0 < j < |tr|
    requires id in tr[j - 1].links && id !in tr[j - 1].reg.streams
    ensures id in tr[j].links && id !in tr[j].reg.streams
  {
    RunStaysGood(tr, j - 1);
    assert LeadsAt(tr, j - 1);
    RemovalIsFinal(tr[j - 1], tr[j], id);
  }

  // ---- what a receiver and a sender can rely on ------------------------------------------------

  ghost predicate Reached(tr: seq<System>, s: System, id: Id) {
    Run(tr) && s in tr && id in s.links
  }

  lemma LinkAt(tr: seq<System>, s: System, id: Id)
    requires Reached(tr, s, id)
    ensures Good(s) && Inv(s.links[id], s.cfg.maxBytes)
  {
    var i :| 0 <= i < |tr| && tr[i] == s;
    RunStaysGood(tr, i);
    assert LinkGood(s, id);
  }

  /** A receiver that ends cleanly has written the whole upload body, whose end the
      sender had seen, and the sender was told so. */
  lemma CleanEndMeansComplete(tr: seq<System>, s: System, id: Id, h: Hid)
    requires Reached(tr, s, id) && At(s.links[id], h)
    requires var x := s.links[id].handlers[h]; x.role.Receiver? && x.pc == Answered(None)
    ensures var l := s.links[id];
            && l.senderBy.Some? && At(l, l.senderBy.value)
            && var w := l.handlers[l.senderBy.value];
               w.pc == Answered(None) && w.pos == |w.body| && l.handlers[h].out == w.body && w.total == |w.body|
  {
    LinkAt(tr, s, id);
    HolderIs(s.links[id], h);
  }

  /** A sender that is told `ok` with a number is told the length of its body, and every
      byte of it has been taken out of the pipe by the one receiver. */
  lemma HonestAcknowledgement(tr: seq<System>, s: System, id: Id, h: Hid)
    requires Reached(tr, s, id) && At(s.links[id], h)
    requires var x := s.links[id].handlers[h]; x.role.Sender? && x.pc == Answered(None)
    ensures var l := s.links[id]; var x := l.handlers[h];
            && x.total == |x.body| && l.moved == x.body
            && l.receiverBy.Some? && At(l, l.receiverBy.value)
            && l.handlers[l.receiverBy.value].out <= x.body
  {
    LinkAt(tr, s, id);
    HolderIs(s.links[id], h);
  }

  /** At every moment the response is a prefix of the upload, and at most two buffers of
      what has been read are not written yet. */
  lemma PrefixAndTwoBuffers(tr: seq<System>, s: System, id: Id)
    requires Reached(tr, s, id) && S(s.links[id]).Some? && R(s.links[id]).Some?
    ensures var w, x := S(s.links[id]).value, R(s.links[id]).value;
            x.out <= w.body && |x.out| <= w.pos <= |x.out| + 2 * 32 * 1024
  {
    LinkAt(tr, s, id);
    var w, x := S(s.links[id]).value, R(s.links[id]).value;
    PrefixTrans(x.out, s.links[id].moved, w.body[..w.pos]);
    PrefixTrans(x.out, w.body[..w.pos], w.body);
  }

  /** The cap bounds what is relayed, and only the sender's loop can trip over it: the
      receiver's own check passes on every chunk the pipe can hand it. */
  lemma CapTripsOnlyAtTheSender(tr: seq<System>, s: System, id: Id, w: Hid, x: Hid)
    requires Reached(tr, s, id) && s.cfg.maxBytes > 0
    ensures |s.links[id].moved| <= s.cfg.maxBytes
    ensures Enabled(s.links[id], HandOff(w, x)) ==>
              Next(s.links[id], s.cfg.maxBytes, HandOff(w, x)).handlers[x].pc.Writing?
  {
    LinkAt(tr, s, id);
    CapOf(s.links[id], s.cfg.maxBytes, w, x);
  }

  lemma CapOf(l: Link, cap: nat, w: Hid, x: Hid)
    requires Inv(l, cap) && cap > 0
    ensures |l.moved| <= cap
    ensures Enabled(l, HandOff(w, x)) ==> AfterHandOff(l, cap, w, x).handlers[x].pc.Writing?
  {
    if Enabled(l, HandOff(w, x)) {
      HolderIs(l, w);
      HolderIs(l, x);
    }
  }

  /** At most one request obtains each half of the pipe, its ready channel is never
      closed twice, and obtaining a half means that the other end has been claimed. */
  lemma EachEndOnce(tr: seq<System>, s: System, id: Id, h: Hid, g: Hid)
    requires Reached(tr, s, id) && At(s.links[id], h) && At(s.links[id], g)
    ensures var l := s.links[id]; var x, y := l.handlers[h], l.handlers[g];
            && (x.joined && y.joined && x.role == y.role ==> h == g)
            && (x.joined ==> By(l, if x.role.Sender? then Receiver else Sender).Some?)
            && (Enabled(l, SignalReady(h)) ==> !(if x.role.Sender? then l.senderReady else l.receiverReady))
  {
    LinkAt(tr, s, id);
    var l := s.links[id];
    if l.handlers[h].joined || l.handlers[h].pc.Claimed? {
      assert Placed(l, l.handlers[h], By(l, l.handlers[h].role) == Some(h));
    }
    if l.handlers[g].joined {
      assert Placed(l, l.handlers[g], By(l, l.handlers[g].role) == Some(g));
    }
  }

  /** The request that claimed an end and then gave up waiting. */
  predicate GaveUp(x: Option<Handler>) {
    x.Some? && !x.value.joined && (x.value.pc.Refused? || x.value.pc.Answered?)
  }

  /** If the sender gave up or never came, no receiver ends cleanly; if the receiver gave
      up or never came, no sender is told ok for a body that is not empty. */
  lemma NoSuccessAlone(tr: seq<System>, s: System, id: Id, h: Hid)
    requires Reached(tr, s, id) && At(s.links[id], h) && s.links[id].handlers[h].pc.Answered?
    ensures var l := s.links[id]; var x := l.handlers[h];
            && (x.role.Receiver? && (S(l).None? || GaveUp(S(l))) ==> x.pc.err.Some?)
            && (x.role.Sender? && (R(l).None? || GaveUp(R(l))) && x.body != [] ==> x.pc.err.Some?)
  {
    LinkAt(tr, s, id);
    if s.links[id].handlers[h].pc.err.None? {
      SuccessTakesTwo(s.links[id], s.cfg.maxBytes, h);
    }
  }

  lemma SuccessTakesTwo(l: Link, cap: nat, h: Hid)
    requires Inv(l, cap) && At(l, h) && l.handlers[h].pc == Answered(None)
    ensures l.handlers[h].role.Receiver? ==> S(l).Some? && S(l).value.joined
    ensures l.handlers[h].role.Sender? && l.handlers[h].body != [] ==> R(l).Some? && R(l).value.joined
  {
    HolderIs(l, h);
  }

  /** What can go wrong for a stream in one step of its own: a second attach on one end,
      a failed attach, a failed deadline, read or write, an upload over the cap. */
  predicate Faulty(l: Link, cap: nat, e: Event)
    requires Enabled(l, e)
  {
    match e
    case Claim(h) => By(l, l.handlers[h].role).Some?
    case GiveUp(_, _) => true
    case ExtendFails(_, _) => true
    case WriteOutFails(_, _, _) => true
    case ReadBody(h, n, err) => (err.Some? && err.value.Env?) || (cap > 0 && l.handlers[h].total + n > cap)
    case HandOff(w, _) => var err := l.handlers[w].pc.readErr; err.Some? && err != Some(EOF)
    case Remove => true
    case _ => false
  }

  /** A step that goes wrong for stream `id`: one of its own that does, or a scan of Sweep
      or ReleaseDevice that takes it. */
  predicate Disturbs(s: System, st: Step, id: Id)
    requires Can(s, st)
  {
    match st
    case Sweep(ids) => id in ids
    case ReleaseDevice(_, ids) => id in ids
    case Act(x, e) => x == id && Faulty(s.links[id], s.cfg.maxBytes, e)
    case _ => false
  }

  ghost predicate Undisturbed(tr: seq<System>, id: Id) {
    forall i :: 0 <= i < |tr| - 1 ==> CalmAt(tr, id, i)
  }

  ghost predicate CalmAt(tr: seq<System>, id: Id, i: nat)
    requires i + 1 < |tr|
  {
    CalmLead(tr[i], tr[i + 1], id)
  }

  ghost predicate CalmLead(s: System, s': System, id: Id) {
    exists st :: Can(s, st) && s' == After(s, st) && !Disturbs(s, st, id)
  }

  lemma FaultsOf(l: Link, cap: nat, e: Event)
    requires Inv(l, cap) && Enabled(l, e) && !l.faulted && !Faulty(l, cap, e)
    ensures !Next(l, cap, e).faulted
  {
    if e.HandOff? {
      HandOffCalm(l, cap, e.s, e.r);
    }
  }

  lemma HandOffCalm(l: Link, cap: nat, w: Hid, x: Hid)
    requires Inv(l, cap) && Enabled(l, HandOff(w, x)) && !l.faulted && !Faulty(l, cap, HandOff(w, x))
    ensures !AfterHandOff(l, cap, w, x).faulted
  {
    HolderIs(l, w);
    HolderIs(l, x);
  }

  lemma CalmAct(s: System, st: Step, id: Id)
    requires Good(s) && Can(s, st) && st.Act? && !Disturbs(s, st, id)
    requires id in s.links && !s.links[id].faulted
    ensures !After(s, st).links[id].faulted
  {
    if st.id == id {
      assert LinkGood(s, id);
      FaultsOf(s.links[id], s.cfg.maxBytes, st.e);
    }
  }

  lemma CalmStaysUnfaulted(s: System, s': System, id: Id)
    requires Good(s) && CalmLead(s, s', id)
    requires id in s.links ==> !s.links[id].faulted
    ensures id in s'.links ==> !s'.links[id].faulted
  {
    var st :| Can(s, st) && s' == After(s, st) && !Disturbs(s, st, id);
    if id in s.links && st.Act? {
      CalmAct(s, st, id);
    }
  }

  lemma {:induction false} UndisturbedIsUnfaulted(tr: seq<System>, id: Id, i: nat)
    requires Run(tr) && Undisturbed(tr, id) && i < |tr|
    ensures id in tr[i].links ==> !tr[i].links[id].faulted
  {
    if i > 0 {
      UndisturbedIsUnfaulted(tr, id, i - 1);
      RunStaysGood(tr, i - 1);
      assert CalmAt(tr, id, i - 1);
      CalmStaysUnfaulted(tr[i - 1], tr[i], id);
    }
  }

  /** In a run in which nothing goes wrong for a stream, its own teardown does not abort
      it: the stream stays registered and its reading half open until the receiver has
      read end of file, and whatever handler has answered ended cleanly. */
  lemma FinishedUploadIsNotAborted(tr: seq<System>, i: nat, id: Id, h: Hid)
    requires Run(tr) && Undisturbed(tr, id) && i < |tr|
    requires id in tr[i].links && At(tr[i].links[id], h)
    ensures var l := tr[i].links[id]; var x := l.handlers[h];
            && (x.pc.Answered? ==> x.pc.err.None?)
            && (x.pc.Closing? ==> x.pc.err.None?)
            && (l.pipe.rerr.Some? ==> R(l).Some? && S(l).Some? && S(l).value.pc == Answered(None)
                                      && R(l).value.out == S(l).value.body)
            && (id !in tr[i].reg.streams ==> R(l).Some? && R(l).value.pc == Answered(None))
  {
    UndisturbedIsUnfaulted(tr, id, i);
    RunStaysGood(tr, i);
    assert LinkGood(tr[i], id);
    var l := tr[i].links[id];
    UnfaultedEndsClean(l, tr[i].cfg.maxBytes, h);
  }

  // A scan disturbs a stream only if it is due to be taken.

  /** What each step was: no fault of the stream's own, Sweep only before its expiry or after
      one of its ends was claimed, ReleaseDevice of its owner only after both were. */
  ghost predicate ClaimedBeforeScans(tr: seq<System>, id: Id) {
    forall i :: 0 <= i < |tr| - 1 ==> SafeAt(tr, id, i)
  }

  ghost predicate SafeAt(tr: seq<System>, id: Id, i: nat)
    requires i + 1 < |tr|
  {
    exists st :: Can(tr[i], st) && tr[i + 1] == After(tr[i], st) && SafeStep(tr[i], st, id)
  }

  predicate SafeStep(s: System, st: Step, id: Id)
    requires Can(s, st)
  {
    match st
    case Sweep(_) =>
      id in s.reg.streams && s.now >= s.reg.streams[id].expires ==> id in Registry.Touched(Flags(s))
    case ReleaseDevice(device, _) =>
      id in s.reg.streams && s.reg.streams[id].owner == device ==> id in Registry.Full(Flags(s))
    case Act(x, e) => x == id ==> !Faulty(s.links[id], s.cfg.maxBytes, e)
    case _ => true
  }

  lemma ClaimedIsUndisturbed(tr: seq<System>, id: Id)
    requires Run(tr) && ClaimedBeforeScans(tr, id)
    ensures Undisturbed(tr, id)
  {
    forall i | 0 <= i < |tr| - 1 ensures CalmAt(tr, id, i) {
      assert SafeAt(tr, id, i);
      var st :| Can(tr[i], st) && tr[i + 1] == After(tr[i], st) && SafeStep(tr[i], st, id);
      RunStaysGood(tr, i);
      assert !Disturbs(tr[i], st, id);
    }
  }

  lemma UnfaultedEndsClean(l: Link, cap: nat, h: Hid)
    requires Inv(l, cap) && !l.faulted && At(l, h)
    ensures var x := l.handlers[h];
            && (x.pc.Answered? ==> x.pc.err.None?)
            && (x.pc.Closing? ==> x.pc.err.None?)
    ensures l.pipe.rerr.Some? ==> R(l).Some? && S(l).Some? && S(l).value.pc == Answered(None)
                                  && R(l).value.out == S(l).value.body
    ensures !l.teardown.Registered? ==> R(l).Some? && R(l).value.pc == Answered(None)
  {
    assert Placed(l, l.handlers[h], By(l, l.handlers[h].role) == Some(h));
  }

  // ---- no slot is lost ----------------------------------------------------------------------

  /** Who will take a registered stream off the registry: Sweep if nobody claimed an end,
      the receiver's request if there is one, else the sender's, still in its attach. */
  predicate HasReclaimer(l: Link) {
    || (l.senderBy.None? && l.receiverBy.None?)
    || (R(l).Some? && !R(l).value.pc.Answered?)
    || (R(l).None? && S(l).Some? && !S(l).value.joined
        && (S(l).value.pc.Claimed? || S(l).value.pc.Waiting? || S(l).value.pc.Refused?))
  }

  lemma RegisteredHasReclaimer(l: Link, cap: nat)
    requires Inv(l, cap) && l.teardown.Registered?
    ensures HasReclaimer(l)
  {
    if l.receiverBy.Some? {
      assert Placed(l, l.handlers[l.receiverBy.value], true);
    } else if l.senderBy.Some? {
      assert Placed(l, l.handlers[l.senderBy.value], true);
    }
  }

  lemma EveryStreamHasAReclaimer(tr: seq<System>, s: System, id: Id)
    requires Reached(tr, s, id) && id in s.reg.streams
    ensures HasReclaimer(s.links[id])
  {
    LinkAt(tr, s, id);
    assert LinkGood(s, id);
    RegisteredHasReclaimer(s.links[id], s.cfg.maxBytes);
  }

  ghost predicate AllAnswered(l: Link) {
    forall h :: h in l.handlers ==> l.handlers[h].pc.Answered?
  }

  lemma IdleIsUntouched(s: System, id: Id)
    requires Good(s) && id in s.reg.streams && AllAnswered(s.links[id])
    ensures id !in Registry.Touched(Flags(s))
  {
    assert LinkGood(s, id);
    RegisteredHasReclaimer(s.links[id], s.cfg.maxBytes);
  }

  /** Once no handler is left and every stream has expired, one Sweep empties both maps. */
  lemma SweepEmpties(s: System)
    requires Good(s)
    requires forall id :: id in s.links ==> AllAnswered(s.links[id])
    requires forall id :: id in s.reg.streams ==> s.reg.streams[id].expires <= s.now
    ensures Registry.Stale(s.reg, s.now, Registry.Touched(Flags(s))) == s.reg.streams.Keys
    ensures Registry.RemoveAll(s.reg, s.reg.streams.Keys) == Registry.EMPTY
  {
    forall id | id in s.reg.streams ensures id !in Registry.Touched(Flags(s)) {
      IdleIsUntouched(s, id);
    }
    RemovingAllEmpties(s.reg, s.cfg.maxPerDevice);
  }

  lemma RemovingAllEmpties(r: Registry.Reg, cap: int)
    requires Registry.QuotaOk(r, cap)
    ensures Registry.RemoveAll(r, r.streams.Keys) == Registry.EMPTY
  {
    var r' := Registry.RemoveAll(r, r.streams.Keys);
    Registry.RemoveKeepsQuota(r, cap, r.streams.Keys);
    assert r'.streams == map[];
    forall d ensures d !in r'.perDevice {
      assert Registry.Owned(r'.streams, d) == {};
      assert Registry.Slots(r'.perDevice, d) == 0;
    }
    assert r'.perDevice == map[];
  }
}
