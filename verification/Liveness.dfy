/** Handlers finish and slots come back: no handler is ever stuck, no stream can be kept
    busy for ever without new requests, and from every moment the registry can be emptied. */
module Liveness {
  import opened Common
  import opened Pipe
  import opened Pump
  import opened Link
  import opened LinkInvariant
  import opened Relay
  import Registry

  // ---- a measure -------------------------------------------------------------------------

  function PcRank(pc: Pc): nat {
    match pc
    case Looked => 12
    case Claimed => 11
    case Waiting => 10
    case Writing(_, _, _) => 6
    case Top => 5
    case Reading => 4
    case Closing(_) => 2
    case Refused(_) => 1
    case Releasing(_) => 1
    case Answered(_) => 0
  }

  /** Bytes still to be read count most, bytes waiting to be handed over less. */
  function HandlerRank(x: Handler): nat {
    PcRank(x.pc)
    + (if x.role.Sender? && x.pos <= |x.body| then 16 * (|x.body| - x.pos) else 0)
    + (if x.role.Sender? && x.pc.Writing? then 8 * |x.pc.rest| else 0)
  }

  ghost function Total(m: map<Hid, Handler>): nat
    decreases |m|
  {
    if m == map[] then 0
    else
      var h :| h in m;
      HandlerRank(m[h]) + Total(m - {h})
  }

  lemma {:induction false} TotalAnyOrder(m: map<Hid, Handler>, h: Hid)
    requires h in m
    ensures Total(m) == HandlerRank(m[h]) + Total(m - {h})
    decreases |m|
  {
    var g :| g in m && Total(m) == HandlerRank(m[g]) + Total(m - {g});
    if g != h {
      TotalAnyOrder(m - {g}, h);
      TotalAnyOrder(m - {h}, g);
      assert m - {g} - {h} == m - {h} - {g};
    }
  }

  lemma TotalOfPut(m: map<Hid, Handler>, h: Hid, x: Handler)
    requires h in m
    ensures Total(m[h := x]) == Total(m) - HandlerRank(m[h]) + HandlerRank(x)
  {
    TotalAnyOrder(m, h);
    TotalAnyOrder(m[h := x], h);
    assert m[h := x] - {h} == m - {h};
  }

  function TeardownRank(t: Teardown): nat {
    match t
    case Registered => 3
    case Removed => 2
    case HalfClosed => 1
    case Closed => 0
  }

  ghost function Rank(l: Link): nat {
    Total(l.handlers) + TeardownRank(l.teardown)
  }

  /** Anything but a new request and a read that brings nothing. */
  predicate Productive(e: Event) {
    !e.Arrive? && !(e.ReadBody? && e.n == 0 && e.err.None?)
  }

  /** One handler descends. */
  lemma OneDescends(l: Link, l': Link, h: Hid)
    requires At(l, h) && At(l', h) && l'.handlers == l.handlers[h := l'.handlers[h]]
    requires HandlerRank(l'.handlers[h]) + TeardownRank(l'.teardown) < HandlerRank(l.handlers[h]) + TeardownRank(l.teardown)
    ensures Rank(l') < Rank(l)
  {
    TotalOfPut(l.handlers, h, l'.handlers[h]);
  }

  /** The steps up to the attach call's return. */
  lemma AttachDescends(l: Link, cap: nat, e: Event)
    requires Enabled(l, e) && (e.Claim? || e.SignalReady? || e.SeeReady?)
    ensures Rank(Next(l, cap, e)) < Rank(l)
  {
    match e
    case Claim(h) => OneDescends(l, AfterClaim(l, h), h);
    case SignalReady(h) => OneDescends(l, AfterSignal(l, h), h);
    case SeeReady(h) => OneDescends(l, Next(l, cap, e), h);
  }

  /** Giving up, and the last steps of a handler. */
  lemma LeavingDescends(l: Link, cap: nat, e: Event)
    requires Enabled(l, e) && (e.GiveUp? || e.CloseEnd? || e.Release?)
    ensures Rank(Next(l, cap, e)) < Rank(l)
  {
    match e
    case GiveUp(h, timeout) => OneDescends(l, AfterGiveUp(l, h, timeout), h);
    case CloseEnd(h) => OneDescends(l, AfterCloseEnd(l, h), h);
    case Release(h) => OneDescends(l, AfterRelease(l, h), h);
  }

  /** The steps of the pump that involve one handler and end in an error. */
  lemma FailureDescends(l: Link, cap: nat, e: Event)
    requires Enabled(l, e) && (e.ExtendFails? || e.WriteSeesDone? || e.WriteOutFails?)
    ensures Rank(Next(l, cap, e)) < Rank(l)
  {
    match e
    case WriteOutFails(h, kept, code) => OneDescends(l, AfterWriteOutFails(l, h, kept, code), h);
    case ExtendFails(h, _) => OneDescends(l, Next(l, cap, e), h);
    case WriteSeesDone(h) => OneDescends(l, Next(l, cap, e), h);
  }

  /** The other steps of the pump that involve one handler. */
  lemma PumpDescends(l: Link, cap: nat, e: Event)
    requires Enabled(l, e) && (e.Extend? || e.ReadSeesDone? || e.WriteOut?)
    ensures Rank(Next(l, cap, e)) < Rank(l)
  {
    match e
    case Extend(h) => OneDescends(l, AfterExtend(l, h), h);
    case ReadSeesDone(h) => OneDescends(l, AfterDone(l, h, l.pipe.ReadError()), h);
    case WriteOut(h) => OneDescends(l, AfterWriteOut(l, h), h);
  }

  lemma ReadBodyDescends(l: Link, cap: nat, h: Hid, n: nat, err: Option<Err>)
    requires Inv(l, cap) && Enabled(l, ReadBody(h, n, err)) && (n > 0 || err.Some?)
    ensures Rank(AfterReadBody(l, cap, h, n, err)) < Rank(l)
  {
    var x := l.handlers[h];
    assert |x.body[x.pos..x.pos + n]| == n;
    OneDescends(l, AfterReadBody(l, cap, h, n, err), h);
  }

  /** Every productive step uses up part of a stream's measure. */
  lemma ProductiveDescends(l: Link, cap: nat, e: Event)
    requires Inv(l, cap) && Enabled(l, e) && Productive(e)
    ensures Rank(Next(l, cap, e)) < Rank(l)
  {
    if e.HandOff? {
      HandOffDescends(l, cap, e.s, e.r);
    } else if e.ReadBody? {
      ReadBodyDescends(l, cap, e.h, e.n, e.err);
    } else if e.Claim? || e.SignalReady? || e.SeeReady? {
      AttachDescends(l, cap, e);
    } else if e.GiveUp? || e.CloseEnd? || e.Release? {
      LeavingDescends(l, cap, e);
    } else if e.ExtendFails? || e.WriteSeesDone? || e.WriteOutFails? {
      FailureDescends(l, cap, e);
    } else if !e.Remove? && !e.CloseHalf? {
      PumpDescends(l, cap, e);
    }
  }

  /** Two handlers descend together. */
  lemma TwoDescend(l: Link, l': Link, s: Hid, r: Hid)
    requires At(l, s) && At(l, r) && s != r && l'.teardown == l.teardown
    requires At(l', s) && At(l', r) && l'.handlers == l.handlers[s := l'.handlers[s]][r := l'.handlers[r]]
    requires HandlerRank(l'.handlers[s]) + HandlerRank(l'.handlers[r]) < HandlerRank(l.handlers[s]) + HandlerRank(l.handlers[r])
    ensures Rank(l') < Rank(l)
  {
    TotalOfPut(l.handlers, s, l'.handlers[s]);
    TotalOfPut(l.handlers[s := l'.handlers[s]], r, l'.handlers[r]);
  }

  lemma HandOffDescends(l: Link, cap: nat, s: Hid, r: Hid)
    requires Inv(l, cap) && Enabled(l, HandOff(s, r))
    ensures Rank(AfterHandOff(l, cap, s, r)) < Rank(l)
  {
    HandOffBytes(l, cap, s, r);
    TwoDescend(l, AfterHandOff(l, cap, s, r), s, r);
  }

  // ---- nobody is stuck ---------------------------------------------------------------------

  /** As long as some handler has not answered, some productive step is possible: its own,
      or that of the one it is waiting for, or the rest of the stream's Close. */
  lemma NobodyIsStuck(l: Link, cap: nat, h: Hid) returns (e: Event)
    requires Inv(l, cap) && At(l, h) && !l.handlers[h].pc.Answered?
    ensures Enabled(l, e) && Productive(e) && !e.Remove?
  {
    var x := l.handlers[h];
    if x.pc.Writing? && x.role.Sender? {
      e := WriterMoves(l, cap, h);
    } else if x.pc.Reading? && x.role.Receiver? {
      e := ReaderMoves(l, cap, h);
    } else {
      if x.pc.Reading? {
        HolderIs(l, h);
      }
      e := OwnMove(l, h);
    }
  }

  /** A step that handler `h` takes by itself. */
  predicate MovedBy(e: Event, h: Hid) {
    match e
    case Claim(x) => x == h
    case SignalReady(x) => x == h
    case SeeReady(x) => x == h
    case GiveUp(x, _) => x == h
    case Extend(x) => x == h
    case ExtendFails(x, _) => x == h
    case ReadBody(x, _, _) => x == h
    case ReadSeesDone(x) => x == h
    case WriteSeesDone(x) => x == h
    case WriteOut(x) => x == h
    case WriteOutFails(x, _, _) => x == h
    case CloseEnd(x) => x == h
    case Release(x) => x == h
    case _ => false
  }

  /** A handler that waits for nobody has a step of its own. */
  lemma OwnMove(l: Link, h: Hid) returns (e: Event)
    requires At(l, h) && !l.handlers[h].pc.Answered?
    requires !(l.handlers[h].role.Sender? && l.handlers[h].pc.Writing?)
    requires !(l.handlers[h].role.Receiver? && l.handlers[h].pc.Reading?)
    requires l.handlers[h].pc.Reading? ==> l.handlers[h].pos <= |l.handlers[h].body|
    ensures Enabled(l, e) && Productive(e) && !e.Remove?
    ensures MovedBy(e, h) && (e.GiveUp? ==> l.handlers[h].pc.Waiting?)
  {
    match l.handlers[h].pc
    case Looked => e := Claim(h);
    case Claimed => e := SignalReady(h);
    case Waiting => e := GiveUp(h, true);
    case Refused(_) => e := Release(h);
    case Top => e := Extend(h);
    case Reading => e := ReadBody(h, 0, Some(Env(0)));
    case Writing(_, _, _) => e := WriteOut(h);
    case Closing(_) => e := CloseEnd(h);
    case Releasing(_) => e := Release(h);
  }

  lemma WriterMoves(l: Link, cap: nat, h: Hid) returns (e: Event)
    requires Inv(l, cap) && At(l, h) && l.handlers[h].role.Sender? && l.handlers[h].pc.Writing?
    ensures Enabled(l, e) && Productive(e) && !e.Remove?
  {
    HolderIs(l, h);
    if l.pipe.Done() {
      e := WriteSeesDone(h);
    } else if !l.teardown.Registered? {
      e := CloseHalf;
    } else {
      var g := l.receiverBy.value;
      assert Placed(l, l.handlers[g], true);
      if l.handlers[g].pc.Reading? {
        e := HandOff(h, g);
      } else {
        e := OwnMove(l, g);
      }
    }
  }

  lemma ReaderMoves(l: Link, cap: nat, h: Hid) returns (e: Event)
    requires Inv(l, cap) && At(l, h) && l.handlers[h].role.Receiver? && l.handlers[h].pc.Reading?
    ensures Enabled(l, e) && Productive(e) && !e.Remove?
  {
    HolderIs(l, h);
    if l.pipe.Done() {
      e := ReadSeesDone(h);
    } else if !l.teardown.Registered? {
      e := CloseHalf;
    } else {
      var g := l.senderBy.value;
      assert Placed(l, l.handlers[g], true);
      if l.handlers[g].pc.Writing? {
        e := HandOff(g, h);
      } else {
        e := OwnMove(l, g);
      }
    }
  }

  // ---- a stream without new requests comes to rest ---------------------------------------------

  ghost predicate Busy(l: Link, cap: nat, es: seq<Event>)
    decreases |es|
  {
    es != [] ==> Enabled(l, es[0]) && Productive(es[0]) && Busy(Next(l, cap, es[0]), cap, es[1..])
  }

  /** No sequence of productive steps is longer than the stream's measure. */
  lemma {:induction false} BusyIsBounded(l: Link, cap: nat, es: seq<Event>)
    requires Inv(l, cap) && Busy(l, cap, es)
    ensures |es| <= Rank(l)
    decreases |es|
  {
    if es != [] {
      ProductiveDescends(l, cap, es[0]);
      StepKeeps(l, cap, es[0]);
      BusyIsBounded(Next(l, cap, es[0]), cap, es[1..]);
    }
  }

  // ---- and the whole registry can be emptied -------------------------------------------------------

  /** A path of the system that only lets handlers finish, time pass and Sweep run. */
  ghost predicate Drain(tr: seq<System>) {
    && Path(tr)
    && forall i :: 0 <= i < |tr| - 1 ==> NothingNewAt(tr, i)
  }

  ghost predicate NothingNewAt(tr: seq<System>, i: nat)
    requires i + 1 < |tr|
  {
    NothingNew(tr[i], tr[i + 1])
  }

  /** No stream and no request has been added. */
  ghost predicate NothingNew(s: System, s': System) {
    && s'.links.Keys == s.links.Keys
    && forall id :: id in s.links ==> s'.links[id].handlers.Keys == s.links[id].handlers.Keys
  }

  lemma DrainOn(tr: seq<System>, s': System)
    requires Drain(tr) && Leads(tr[|tr| - 1], s') && NothingNew(tr[|tr| - 1], s')
    ensures Drain(tr + [s'])
  {
    var all := tr + [s'];
    forall i | 0 <= i < |all| - 1 ensures LeadsAt(all, i) && NothingNewAt(all, i) {
      if i < |tr| - 1 {
        assert LeadsAt(tr, i) && NothingNewAt(tr, i);
        assert all[i] == tr[i] && all[i + 1] == tr[i + 1];
      }
    }
  }

  function Last(tr: seq<System>): System
    requires tr != []
  {
    tr[|tr| - 1]
  }

  lemma SameRequests(l: Link, cap: nat, e: Event)
    requires Enabled(l, e) && !e.Arrive?
    ensures Next(l, cap, e).handlers.Keys == l.handlers.Keys
  {
    match e
    case HandOff(s, r) => SameKeys(l.handlers, s, AfterHandOff(l, cap, s, r).handlers[s]);
    case ReadBody(h, n, err) => SameKeys(l.handlers, h, AfterReadBody(l, cap, h, n, err).handlers[h]);
    case Claim(h) => SameKeys(l.handlers, h, AfterClaim(l, h).handlers[h]);
    case Extend(h) => SameKeys(l.handlers, h, AfterExtend(l, h).handlers[h]);
    case CloseEnd(h) => SameKeys(l.handlers, h, AfterCloseEnd(l, h).handlers[h]);
    case _ =>
  }

  lemma SameKeys(m: map<Hid, Handler>, h: Hid, x: Handler)
    requires h in m
    ensures m[h := x].Keys == m.Keys
  {
  }

  /** What an `Act` step does to the table of streams. */
  lemma ActIsLocal(s: System, id: Id, e: Event)
    requires Can(s, Act(id, e))
    ensures var s' := After(s, Act(id, e));
            && s'.cfg == s.cfg && s'.links == s.links[id := Next(s.links[id], s.cfg.maxBytes, e)]
            && NothingNew(s, s')
  {
    SameRequests(s.links[id], s.cfg.maxBytes, e);
  }

  lemma ActDescends(s: System, id: Id, e: Event)
    requires Good(s) && id in s.links && Enabled(s.links[id], e) && Productive(e) && !e.Remove?
    ensures Can(s, Act(id, e)) && Rank(After(s, Act(id, e)).links[id]) < Rank(s.links[id])
  {
    assert LinkGood(s, id);
    ProductiveDescends(s.links[id], s.cfg.maxBytes, e);
    ActIsLocal(s, id, e);
  }

  /** One productive step of one stream. */
  lemma FinishStep(s: System, id: Id, h: Hid) returns (s': System)
    requires Good(s) && id in s.links && At(s.links[id], h) && !s.links[id].handlers[h].pc.Answered?
    ensures Leads(s, s') && Good(s') && s'.cfg == s.cfg && NothingNew(s, s')
    ensures Rank(s'.links[id]) < Rank(s.links[id])
    ensures forall x :: x in s.links && x != id ==> s'.links[x] == s.links[x]
  {
    assert LinkGood(s, id);
    var e := NobodyIsStuck(s.links[id], s.cfg.maxBytes, h);
    ActDescends(s, id, e);
    s' := After(s, Act(id, e));
    StepKeepsGood(s, Act(id, e));
    ActIsLocal(s, id, e);
  }

  /** Lets the handlers of one stream finish, leaving every other stream as it is. */
  lemma {:induction false} FinishOne(tr: seq<System>, id: Id) returns (tr': seq<System>)
    requires Drain(tr) && Good(Last(tr)) && id in Last(tr).links
    ensures Drain(tr') && Good(Last(tr')) && tr' != [] && tr'[0] == tr[0]
    ensures Last(tr').links.Keys == Last(tr).links.Keys && Last(tr').cfg == Last(tr).cfg
    ensures AllAnswered(Last(tr').links[id])
    ensures forall x :: x in Last(tr).links && x != id ==> Last(tr').links[x] == Last(tr).links[x]
    decreases Rank(Last(tr).links[id])
  {
    var s := Last(tr);
    var l := s.links[id];
    if AllAnswered(l) {
      tr' := tr;
    } else {
      var h :| h in l.handlers && !l.handlers[h].pc.Answered?;
      var s' := FinishStep(s, id, h);
      DrainOn(tr, s');
      tr' := FinishOne(tr + [s'], id);
    }
  }

  ghost predicate IdleBut(s: System, todo: set<Id>) {
    forall id :: id in s.links && id !in todo ==> AllAnswered(s.links[id])
  }

  lemma OneFewer(s: System, s': System, todo: set<Id>, id: Id)
    requires IdleBut(s, todo) && id in s'.links && s'.links.Keys == s.links.Keys && AllAnswered(s'.links[id])
    requires forall x :: x in s.links && x != id ==> s'.links[x] == s.links[x]
    ensures IdleBut(s', todo - {id})
  {
  }

  lemma {:induction false} FinishAll(tr: seq<System>, todo: set<Id>) returns (tr': seq<System>)
    requires Drain(tr) && Good(Last(tr)) && todo <= Last(tr).links.Keys && IdleBut(Last(tr), todo)
    ensures Drain(tr') && Good(Last(tr')) && tr' != [] && tr'[0] == tr[0]
    ensures IdleBut(Last(tr'), {})
    decreases |todo|
  {
    if todo == {} {
      tr' := tr;
    } else {
      var id :| id in todo;
      var mid := FinishOne(tr, id);
      OneFewer(Last(tr), Last(mid), todo, id);
      tr' := FinishAll(mid, todo - {id});
    }
  }

  lemma {:induction false} LatestExpiry(streams: map<Id, Registry.Meta>, now: int) returns (t: int)
    ensures now <= t && forall id :: id in streams ==> streams[id].expires <= t
    decreases |streams|
  {
    if streams == map[] {
      t := now;
    } else {
      var id :| id in streams;
      t := LatestExpiry(streams - {id}, now);
      assert forall x :: x in streams && x != id ==> streams[x] == (streams - {id})[x];
      if t < streams[id].expires {
        t := streams[id].expires;
      }
    }
  }

  lemma TakeStep(tr: seq<System>, st: Step) returns (tr': seq<System>)
    requires Drain(tr) && Good(Last(tr)) && Can(Last(tr), st) && NothingNew(Last(tr), After(Last(tr), st))
    ensures Drain(tr') && Good(Last(tr')) && tr' != [] && tr'[0] == tr[0] && Last(tr') == After(Last(tr), st)
  {
    var s' := After(Last(tr), st);
    assert Leads(Last(tr), s');
    StepKeepsGood(Last(tr), st);
    DrainOn(tr, s');
    tr' := tr + [s'];
  }

  /** When all handlers have answered, waiting and one Sweep empty the registry. */
  lemma ExpireAll(idle: seq<System>) returns (tr': seq<System>)
    requires Drain(idle) && Good(Last(idle))
    requires IdleBut(Last(idle), {})
    ensures Drain(tr') && tr' != [] && tr'[0] == idle[0] && Last(tr').reg == Registry.EMPTY
  {
    var t := LatestExpiry(Last(idle).reg.streams, Last(idle).now);
    var late := TakeStep(idle, Tick(t));
    var s := Last(late);
    SweepEmpties(s);
    tr' := TakeStep(late, Sweep(s.reg.streams.Keys));
  }

  /** From every moment of every run, without any new request, handlers finishing, time
      passing and one Sweep lead to a registry with both maps empty. */
  lemma SlotsAlwaysComeBack(tr: seq<System>, i: nat) returns (tr': seq<System>)
    requires Run(tr) && i < |tr|
    ensures Drain(tr') && tr' != [] && tr'[0] == tr[i]
    ensures Last(tr').reg == Registry.EMPTY
  {
    RunStaysGood(tr, i);
    var idle := FinishAll([tr[i]], tr[i].links.Keys);
    tr' := ExpireAll(idle);
  }
}
