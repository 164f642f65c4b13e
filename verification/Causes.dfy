/** Why a request ends the way it does: each answer of a handler has its cause, one step of
    the stream, and each such step its answer. */
module Causes {
  import opened Common
  import opened Pipe
  import opened Pump
  import opened Link
  import opened LinkInvariant
  import opened Relay
  import opened Liveness

  /** What `h` will answer is settled. */
  predicate Settled(pc: Pc, err: Option<Err>) {
    match pc
    case Refused(reason) => err == Some(reason)
    case Closing(e) => err == e
    case Releasing(e) => err == e
    case Answered(e) => err == e
    case _ => false
  }

  predicate Unsettled(pc: Pc) {
    !pc.Refused? && !pc.Closing? && !pc.Releasing? && !pc.Answered?
  }

  function ErrOf(pc: Pc): Option<Err>
    requires !Unsettled(pc)
  {
    match pc
    case Refused(reason) => Some(reason)
    case Closing(e) => e
    case Releasing(e) => e
    case Answered(e) => e
  }

  /** A source that ended with `e`: the end of file is no error. */
  predicate EndsWithError(e: Err, err: Option<Err>) {
    err == if e == EOF then None else Some(e)
  }

  /** A reader finds the pipe closed: it is told what the writer closed it with, unless the
      reading half has been closed as well. */
  predicate ReaderFinds(p: Pipe, err: Option<Err>) {
    if p.rerr.None? && p.werr.Some? then EndsWithError(p.werr.value, err)
    else p.rerr.Some? && err == Some(ClosedPipe)
  }

  /** A writer finds it closed: likewise. */
  predicate WriterFinds(p: Pipe, err: Option<Err>) {
    if p.werr.None? && p.rerr.Some? then err == p.rerr
    else p.werr.Some? && err == Some(ClosedPipe)
  }

  /** The step that makes `h` answer `err`: none is success. */
  predicate Causes(l: Link, cap: nat, e: Event, h: Hid, err: Option<Err>)
    requires Enabled(l, e) && At(l, h)
  {
    var x := l.handlers[h];
    match e
    case Claim(g) => g == h && err == Some(AlreadyAttached)
                     && (if x.role.Sender? then l.senderBy.Some? else l.receiverBy.Some?)
    case GiveUp(g, timeout) => g == h && err == (if timeout then Some(PeerNotAttached) else Some(Cancelled))
    case ExtendFails(g, code) => g == h && err == Some(Env(code))
    case WriteOutFails(g, _, code) => g == h && err == Some(Env(code))
    case Extend(g) => g == h && x.role.Receiver? && ReaderFinds(l.pipe, err)
    case ReadSeesDone(g) => g == h && ReaderFinds(l.pipe, err)
    case WriteSeesDone(g) => g == h && WriterFinds(l.pipe, err)
    case ReadBody(g, n, failure) =>
      g == h &&
      (if n == 0 then failure.Some? && EndsWithError(failure.value, err)
       else if cap > 0 && x.total + n > cap then err == Some(TooLarge)
       else WriterFinds(l.pipe, err))
    case WriteOut(g) => g == h && x.pc.readErr.Some? && EndsWithError(x.pc.readErr.value, err)
    case HandOff(w, r) =>
      || (w == h && |x.pc.rest| <= 32 * 1024 && x.pc.readErr.Some? && EndsWithError(x.pc.readErr.value, err))
      || (r == h && cap > 0 && x.total + Min(32 * 1024, |l.handlers[w].pc.rest|) > cap
          && l.handlers[w].pc.rest != [] && err == Some(TooLarge))
    case _ => false
  }

  // ---- one stream ------------------------------------------------------------------------------------

  /** Steps of attaching, and failures from outside. */
  lemma AttachSettles(l: Link, cap: nat, e: Event, h: Hid, err: Option<Err>)
    requires Enabled(l, e) && At(l, h) && Unsettled(l.handlers[h].pc)
    requires e.Claim? || e.SignalReady? || e.SeeReady? || e.GiveUp? || e.ExtendFails? || e.WriteOutFails?
    ensures At(Next(l, cap, e), h)
    ensures Causes(l, cap, e, h, err) <==> Settled(Next(l, cap, e).handlers[h].pc, err)
  {
  }

  /** Steps of the loop that involve one handler, and those of nobody's loop. */
  lemma LoopSettles(l: Link, cap: nat, e: Event, h: Hid, err: Option<Err>)
    requires Enabled(l, e) && At(l, h) && Unsettled(l.handlers[h].pc)
    requires e.Extend? || e.ReadSeesDone? || e.WriteSeesDone? || e.WriteOut?
    ensures At(Next(l, cap, e), h)
    ensures Causes(l, cap, e, h, err) <==> Settled(Next(l, cap, e).handlers[h].pc, err)
  {
  }

  lemma OtherSettles(l: Link, cap: nat, e: Event, h: Hid, err: Option<Err>)
    requires Enabled(l, e) && At(l, h) && Unsettled(l.handlers[h].pc)
    requires e.CloseEnd? || e.Release? || e.Arrive? || e.Remove? || e.CloseHalf?
    ensures At(Next(l, cap, e), h)
    ensures Causes(l, cap, e, h, err) <==> Settled(Next(l, cap, e).handlers[h].pc, err)
  {
  }

  lemma ReadBodySettles(l: Link, cap: nat, e: Event, h: Hid, err: Option<Err>)
    requires Enabled(l, e) && At(l, h) && Unsettled(l.handlers[h].pc) && e.ReadBody?
    ensures At(Next(l, cap, e), h)
    ensures Causes(l, cap, e, h, err) <==> Settled(Next(l, cap, e).handlers[h].pc, err)
  {
    var x := l.handlers[e.h];
    assert |x.body[x.pos..x.pos + e.n]| == e.n;
  }

  lemma HandOffSettles(l: Link, cap: nat, w: Hid, r: Hid, h: Hid, err: Option<Err>)
    requires Enabled(l, HandOff(w, r)) && At(l, h) && Unsettled(l.handlers[h].pc)
    ensures At(AfterHandOff(l, cap, w, r), h)
    ensures Causes(l, cap, HandOff(w, r), h, err) <==> Settled(AfterHandOff(l, cap, w, r).handlers[h].pc, err)
  {
    var rest := l.handlers[w].pc.rest;
    assert |rest[..Min(BUFFER, |rest|)]| == Min(32 * 1024, |rest|);
  }

  /** A step settles what a handler will answer if and only if it is a cause of it. */
  lemma StepSettles(l: Link, cap: nat, e: Event, h: Hid, err: Option<Err>)
    requires Enabled(l, e) && At(l, h) && Unsettled(l.handlers[h].pc)
    ensures At(Next(l, cap, e), h)
    ensures Causes(l, cap, e, h, err) <==> Settled(Next(l, cap, e).handlers[h].pc, err)
  {
    if e.HandOff? {
      HandOffSettles(l, cap, e.s, e.r, h, err);
    } else if e.ReadBody? {
      ReadBodySettles(l, cap, e, h, err);
    } else if e.Extend? || e.ReadSeesDone? || e.WriteSeesDone? || e.WriteOut? {
      LoopSettles(l, cap, e, h, err);
    } else if e.CloseEnd? || e.Release? || e.Arrive? || e.Remove? || e.CloseHalf? {
      OtherSettles(l, cap, e, h, err);
    } else {
      AttachSettles(l, cap, e, h, err);
    }
  }

  /** A handler that is settled has only its last steps left. */
  lemma LastSteps(l: Link, cap: nat, e: Event, h: Hid)
    requires Enabled(l, e) && At(l, h) && !Unsettled(l.handlers[h].pc)
    requires !((e.CloseEnd? || e.Release?) && e.h == h)
    ensures At(Next(l, cap, e), h) && Next(l, cap, e).handlers[h] == l.handlers[h]
  {
  }

  /** And it stays settled. */
  lemma StaysSettled(l: Link, cap: nat, e: Event, h: Hid, err: Option<Err>)
    requires Enabled(l, e) && At(l, h) && Settled(l.handlers[h].pc, err)
    ensures At(Next(l, cap, e), h) && Settled(Next(l, cap, e).handlers[h].pc, err)
  {
    if !((e.CloseEnd? || e.Release?) && e.h == h) {
      LastSteps(l, cap, e, h);
    }
  }

  lemma CausesAreEarly(l: Link, cap: nat, e: Event, h: Hid, err: Option<Err>)
    requires Enabled(l, e) && At(l, h) && Causes(l, cap, e, h, err)
    ensures Unsettled(l.handlers[h].pc)
  {
  }

  /** What the two halves of the pipe are closed with: the first close of each is stored, a
      handler's with its own error or none, Close's as not found. */
  lemma FirstCloseIsStored(l: Link, cap: nat, e: Event)
    requires Enabled(l, e)
    ensures var p, p' := l.pipe, Next(l, cap, e).pipe;
            && p'.werr == (if p.werr.Some? then p.werr
                           else if e.CloseEnd? && l.handlers[e.h].role.Sender?
                           then (if l.handlers[e.h].pc.err.None? then Some(EOF) else l.handlers[e.h].pc.err)
                           else if e.CloseHalf? && l.teardown.Removed? then Some(NotFound)
                           else None)
            && p'.rerr == (if p.rerr.Some? then p.rerr
                           else if e.CloseEnd? && l.handlers[e.h].role.Receiver?
                           then (if l.handlers[e.h].pc.err.None? then Some(ClosedPipe) else l.handlers[e.h].pc.err)
                           else if e.CloseHalf? && l.teardown.HalfClosed? then Some(NotFound)
                           else None)
  {
    if !e.CloseEnd? && !e.CloseHalf? {
      OnlyClosesTouchThePipe(l, cap, e);
    }
  }

  lemma OnlyClosesTouchThePipe(l: Link, cap: nat, e: Event)
    requires Enabled(l, e) && !e.CloseEnd? && !e.CloseHalf?
    ensures Next(l, cap, e).pipe == l.pipe
  {
  }

  /** What a step puts into the response of `h`: nothing, the chunk, or as much of it as a
      failing write takes. */
  lemma OnlyWritesReachTheResponse(l: Link, cap: nat, e: Event, h: Hid)
    requires Enabled(l, e) && At(l, h)
    ensures At(Next(l, cap, e), h)
    ensures Next(l, cap, e).handlers[h].out
         == l.handlers[h].out + (if e.WriteOut? && e.h == h then l.handlers[h].pc.rest
                                 else if e.WriteOutFails? && e.h == h then l.handlers[h].pc.rest[..e.kept]
                                 else [])
  {
    if e.HandOff? {
      HandOffWritesNothing(l, cap, e, h);
    } else if !((e.WriteOut? || e.WriteOutFails?) && e.h == h) {
      OtherStepsWriteNothing(l, cap, e, h);
    }
  }

  lemma HandOffWritesNothing(l: Link, cap: nat, e: Event, h: Hid)
    requires Enabled(l, e) && At(l, h) && e.HandOff?
    ensures At(Next(l, cap, e), h) && Next(l, cap, e).handlers[h].out == l.handlers[h].out
  {
  }

  lemma OtherStepsWriteNothing(l: Link, cap: nat, e: Event, h: Hid)
    requires Enabled(l, e) && At(l, h) && !e.HandOff? && !((e.WriteOut? || e.WriteOutFails?) && e.h == h)
    ensures At(Next(l, cap, e), h) && Next(l, cap, e).handlers[h].out == l.handlers[h].out
  {
  }

  // ---- whole runs --------------------------------------------------------------------------------------

  /** A step of the system touches a handler only as a step of its stream. */
  lemma OthersLeaveIt(s: System, st: Step, id: Id, h: Hid)
    requires Can(s, st) && id in s.links && At(s.links[id], h) && !(st.Act? && st.id == id)
    ensures id in After(s, st).links && At(After(s, st).links[id], h)
    ensures After(s, st).links[id].handlers[h] == s.links[id].handlers[h]
  {
    match st
    case Create(_, _) =>
    case Request(_, _, _, _, _) =>
    case Act(_, _) =>
    case Sweep(_) =>
    case ReleaseDevice(_, _) =>
    case Tick(_) =>
  }

  lemma SettledOneMore(s: System, s': System, id: Id, h: Hid, err: Option<Err>)
    requires Leads(s, s') && id in s.links && At(s.links[id], h) && Settled(s.links[id].handlers[h].pc, err)
    ensures id in s'.links && At(s'.links[id], h) && Settled(s'.links[id].handlers[h].pc, err)
  {
    var st :| Can(s, st) && s' == After(s, st);
    if st.Act? && st.id == id {
      StaysSettled(s.links[id], s.cfg.maxBytes, st.e, h, err);
    } else {
      OthersLeaveIt(s, st, id, h);
    }
  }

  lemma {:induction false} SettledForGood(tr: seq<System>, j: nat, i: nat, id: Id, h: Hid, err: Option<Err>)
    requires Run(tr) && j <= i < |tr| && id in tr[j].links && At(tr[j].links[id], h)
    requires Settled(tr[j].links[id].handlers[h].pc, err)
    ensures id in tr[i].links && At(tr[i].links[id], h) && Settled(tr[i].links[id].handlers[h].pc, err)
    decreases i
  {
    if j < i {
      SettledForGood(tr, j, i - 1, id, h, err);
      assert LeadsAt(tr, i - 1);
      SettledOneMore(tr[i - 1], tr[i], id, h, err);
    }
  }

  /** Step `j` of the run is step `e` of stream `id`, and makes `h` answer `err`. */
  ghost predicate CausedAt(tr: seq<System>, j: nat, id: Id, e: Event, h: Hid, err: Option<Err>) {
    && j + 1 < |tr| && id in tr[j].links && At(tr[j].links[id], h)
    && Can(tr[j], Act(id, e)) && tr[j + 1] == After(tr[j], Act(id, e))
    && Causes(tr[j].links[id], tr[j].cfg.maxBytes, e, h, err)
  }

  /** After a cause, whatever happens, the handler answers just that. */
  lemma CauseDecidesTheAnswer(tr: seq<System>, j: nat, i: nat, id: Id, e: Event, h: Hid, err: Option<Err>)
    requires Run(tr) && CausedAt(tr, j, id, e, h, err) && j < i < |tr|
    ensures id in tr[i].links && At(tr[i].links[id], h)
    ensures tr[i].links[id].handlers[h].pc.Answered? ==> tr[i].links[id].handlers[h].pc.err == err
  {
    var l, cap := tr[j].links[id], tr[j].cfg.maxBytes;
    CausesAreEarly(l, cap, e, h, err);
    StepSettles(l, cap, e, h, err);
    SettledForGood(tr, j + 1, i, id, h, err);
  }

  /** The step before: the handler was settled already, or this is the cause. */
  lemma SettledSince(tr: seq<System>, i: nat, id: Id, h: Hid, err: Option<Err>) returns (e: Event)
    requires Run(tr) && i < |tr| && id in tr[i].links && At(tr[i].links[id], h) && Settled(tr[i].links[id].handlers[h].pc, err)
    ensures i > 0 && id in tr[i - 1].links && At(tr[i - 1].links[id], h)
    ensures Settled(tr[i - 1].links[id].handlers[h].pc, err) || CausedAt(tr, i - 1, id, e, h, err)
  {
    e := Remove;
    if i > 0 {
      assert LeadsAt(tr, i - 1);
      var st :| Can(tr[i - 1], st) && tr[i] == After(tr[i - 1], st);
      if st.Act? && st.id == id {
        e := st.e;
        ActSettles(tr[i - 1], id, e, h, err);
      } else {
        NewcomersAreUnsettled(tr[i - 1], st, id, h);
        OthersLeaveIt(tr[i - 1], st, id, h);
      }
    }
  }

  lemma ActSettles(s: System, id: Id, e: Event, h: Hid, err: Option<Err>)
    requires Can(s, Act(id, e)) && At(After(s, Act(id, e)).links[id], h)
    requires Settled(After(s, Act(id, e)).links[id].handlers[h].pc, err)
    ensures At(s.links[id], h)
    ensures Settled(s.links[id].handlers[h].pc, err) || Causes(s.links[id], s.cfg.maxBytes, e, h, err)
  {
    var l, cap := s.links[id], s.cfg.maxBytes;
    SameRequests(l, cap, e);
    if Unsettled(l.handlers[h].pc) {
      StepSettles(l, cap, e, h, err);
    } else {
      StaysSettled(l, cap, e, h, ErrOf(l.handlers[h].pc));
    }
  }

  /** A request that has just come has nothing to answer yet. */
  lemma NewcomersAreUnsettled(s: System, st: Step, id: Id, h: Hid)
    requires Can(s, st) && !(st.Act? && st.id == id)
    requires id in After(s, st).links && At(After(s, st).links[id], h)
    requires !Unsettled(After(s, st).links[id].handlers[h].pc)
    ensures id in s.links && At(s.links[id], h)
  {
    match st
    case Create(_, _) =>
    case Request(_, _, _, _, _) =>
    case Act(_, _) =>
    case Sweep(_) =>
    case ReleaseDevice(_, _) =>
    case Tick(_) =>
  }

  /** In every run, every answer has its cause: the second attach, the timer, the client's
      context, a failed deadline, read or write, the cap, what the other side closed the
      pipe with, or the end of file. */
  lemma {:induction false} EveryAnswerHasItsCause(tr: seq<System>, i: nat, id: Id, h: Hid, err: Option<Err>) returns (j: nat, e: Event)
    requires Run(tr) && i < |tr| && id in tr[i].links && At(tr[i].links[id], h)
    requires Settled(tr[i].links[id].handlers[h].pc, err)
    ensures j < i && CausedAt(tr, j, id, e, h, err)
    decreases i
  {
    e := SettledSince(tr, i, id, h, err);
    j := i - 1;
    if !CausedAt(tr, j, id, e, h, err) {
      j, e := EveryAnswerHasItsCause(tr, i - 1, id, h, err);
    }
  }
}
