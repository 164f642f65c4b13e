/** What every step of a stream's handlers keeps. */
module LinkInvariant {
  import opened Common
  import opened Pipe
  import opened Pump
  import opened Link

  // ---- who holds which end ---------------------------------------------------------

  /** A request that holds no end: it has not tried yet, or it came second. */
  predicate Bystander(x: Handler) {
    || x.pc == Looked
    || x.pc == Refused(AlreadyAttached)
    || x.pc == Answered(Some(AlreadyAttached))
  }

  predicate Holds(l: Link, h: Hid) {
    At(l, h) && By(l, l.handlers[h].role) == Some(h)
  }

  function Holder(l: Link, who: Option<Hid>): Option<Handler> {
    if who.Some? && At(l, who.value) then Some(l.handlers[who.value]) else None
  }

  ghost predicate Ends(l: Link) {
    && (l.senderBy.Some? ==> At(l, l.senderBy.value) && l.handlers[l.senderBy.value].role.Sender?)
    && (l.receiverBy.Some? ==> At(l, l.receiverBy.value) && l.handlers[l.receiverBy.value].role.Receiver?)
    && forall h :: h in l.handlers ==> Placed(l, l.handlers[h], By(l, l.handlers[h].role) == Some(h))
  }

  /** A handler is in a winner's place exactly when it holds its end; one that came
      second is a fault, and once it has answered the stream is off the registry. */
  predicate Placed(l: Link, x: Handler, holds: bool) {
    && (!holds ==> Bystander(x) && !x.joined && x.out == [] && x.pos == 0 && x.total == 0)
    && (holds ==> !x.pc.Looked? && x.pc != Refused(AlreadyAttached))
    && (!holds && !x.pc.Looked? ==> l.faulted)
    && (x.pc.Answered? && (!holds || x.pc.err.Some? || x.role.Receiver?) ==> !l.teardown.Registered?)
  }

  // ---- the sending end -------------------------------------------------------------

  predicate AttachError(e: Err) {
    e.PeerNotAttached? || e.Cancelled?
  }

  /** `x` is the handler that holds the sending end. */
  predicate SenderOk(l: Link, cap: nat, x: Handler) {
    && x.role.Sender? && x.out == []
    && x.pos <= |x.body|
    && l.moved <= x.body[..x.pos]
    && x.pos <= |l.moved| + BUFFER
    && (cap > 0 ==> |l.moved| <= cap)
    && (x.joined ==> l.receiverReady)
    && (!x.joined ==> x.pos == 0 && x.total == 0)
    && match x.pc
       case Looked => false
       case Claimed => !x.joined
       case Waiting => !x.joined
       case Refused(e) => !x.joined && AttachError(e)
       case Top => x.joined && l.moved == x.body[..x.pos] && x.total == |l.moved|
       case Reading => x.joined && l.moved == x.body[..x.pos] && x.total == |l.moved|
       case Writing(rest, size, err) =>
         && x.joined && 0 < |rest| <= size <= BUFFER
         && l.moved + rest == x.body[..x.pos]
         && x.total + size == |l.moved| + |rest|
         && (cap > 0 ==> x.total + size <= cap)
         && (err == Some(EOF) ==> x.pos == |x.body|)
       case Closing(err) =>
         && x.joined
         && (err.None? ==> l.moved == x.body && x.total == |x.body| && x.pos == |x.body|)
         && err != Some(EOF)
       case Releasing(err) => x.joined && err.Some? && err != Some(EOF)
       case Answered(err) =>
         && err != Some(EOF)
         && (err.None? ==> x.joined && l.moved == x.body && x.total == |x.body| && x.pos == |x.body|)
         && (!x.joined ==> err.Some? && AttachError(err.value))
  }

  // ---- the receiving end -----------------------------------------------------------

  /** `x` is the handler that holds the receiving end. */
  predicate ReceiverOk(l: Link, x: Handler) {
    && x.role.Receiver?
    && x.out <= l.moved
    && |l.moved| <= |x.out| + BUFFER
    && (x.joined ==> l.senderReady)
    && (!x.joined ==> l.moved == [] && x.total == 0)
    && match x.pc
       case Looked => false
       case Claimed => !x.joined
       case Waiting => !x.joined
       case Refused(e) => !x.joined && AttachError(e)
       case Top => x.joined && l.moved == x.out && x.total == |x.out|
       case Reading => x.joined && l.moved == x.out && x.total == |x.out|
       case Writing(rest, size, err) =>
         && x.joined && 0 < |rest| == size <= BUFFER
         && l.moved == x.out + rest && x.total == |x.out| && err.None?
       case Closing(err) => x.joined && EndsClean(l, x, err)
       case Releasing(err) => x.joined && EndsClean(l, x, err)
       case Answered(err) =>
         && EndsClean(l, x, err)
         && (!x.joined ==> err.Some? && AttachError(err.value))
  }

  /** A pump that ended without an error had read end of file from the pipe. */
  predicate EndsClean(l: Link, x: Handler, err: Option<Err>) {
    && err != Some(EOF)
    && (err.None? ==> l.moved == x.out && x.total == |x.out| && l.pipe.werr == Some(EOF))
  }

  // ---- flags, pipe and teardown ------------------------------------------------------

  predicate ClosedItsHalf(x: Option<Handler>) {
    && x.Some? && x.value.joined && (x.value.pc.Releasing? || x.value.pc.Answered?)
  }

  predicate FlagsOk(l: Link, s: Option<Handler>, r: Option<Handler>) {
    && (l.senderReady <==> s.Some? && !s.value.pc.Claimed?)
    && (l.receiverReady <==> r.Some? && !r.value.pc.Claimed?)
    && (r.None? ==> l.moved == [])
    && (s.None? ==> l.moved == [])
  }

  predicate PipeOk(l: Link, s: Option<Handler>, r: Option<Handler>) {
    && (l.pipe.werr.Some? <==> ClosedItsHalf(s) || l.teardown.HalfClosed? || l.teardown.Closed?)
    && (l.pipe.rerr.Some? <==> ClosedItsHalf(r) || l.teardown.Closed?)
    && l.pipe.rerr != Some(EOF)
    && (l.pipe.werr == Some(EOF) ==> s.Some? && s.value.pc == Answered(None))
  }

  // ---- runs in which nothing goes wrong ------------------------------------------------

  predicate NoError(pc: Pc) {
    match pc
    case Refused(_) => false
    case Closing(err) => err.None?
    case Releasing(err) => err.None?
    case Answered(err) => err.None?
    case Writing(_, _, err) => true
    case _ => true
  }

  predicate UnfaultedOk(l: Link, s: Option<Handler>, r: Option<Handler>) {
    !l.faulted ==>
      && (s.Some? ==> NoError(s.value.pc))
      && (r.Some? ==> NoError(r.value.pc))
      && (l.pipe.werr.Some? ==> l.pipe.werr == Some(EOF))
      && (!l.teardown.Registered? ==> r.Some? && r.value.pc == Answered(None))
  }

  /** Everything said about the two holders; no quantifier is left. */
  predicate Core(l: Link, cap: nat, s: Option<Handler>, r: Option<Handler>) {
    && (s.Some? ==> SenderOk(l, cap, s.value))
    && (r.Some? ==> ReceiverOk(l, r.value))
    && FlagsOk(l, s, r) && PipeOk(l, s, r) && UnfaultedOk(l, s, r)
  }

  function S(l: Link): Option<Handler> {
    Holder(l, l.senderBy)
  }

  function R(l: Link): Option<Handler> {
    Holder(l, l.receiverBy)
  }

  ghost predicate Inv(l: Link, cap: nat) {
    Ends(l) && Core(l, cap, S(l), R(l))
  }

  // ---- lifting a change of one handler -----------------------------------------------

  /** Faults and removals are never taken back. */
  predicate Ages(l: Link, l': Link) {
    && (l.faulted ==> l'.faulted)
    && (!l.teardown.Registered? ==> !l'.teardown.Registered?)
  }

  /** `l'` differs from `l` in handler `h` and in fields that `Ends` does not look at. */
  lemma OneHandler(l: Link, l': Link, h: Hid)
    requires Ends(l) && At(l, h) && Ages(l, l')
    requires l'.senderBy == l.senderBy && l'.receiverBy == l.receiverBy
    requires h in l'.handlers && l'.handlers == l.handlers[h := l'.handlers[h]]
    requires l'.handlers[h].role == l.handlers[h].role
    requires Placed(l', l'.handlers[h], Holds(l, h))
    ensures Ends(l')
    ensures S(l') == (if l.senderBy == Some(h) then Some(l'.handlers[h]) else S(l))
    ensures R(l') == (if l.receiverBy == Some(h) then Some(l'.handlers[h]) else R(l))
  {
  }

  /** Only fields that `Ends` does not look at differ. */
  lemma NoHandler(l: Link, l': Link)
    requires Ends(l) && Ages(l, l')
    requires l'.senderBy == l.senderBy && l'.receiverBy == l.receiverBy && l'.handlers == l.handlers
    ensures Ends(l') && S(l') == S(l) && R(l') == R(l)
  {
  }

  lemma HolderIs(l: Link, h: Hid)
    requires Ends(l) && At(l, h) && !Bystander(l.handlers[h])
    ensures Holds(l, h)
    ensures l.handlers[h].role.Sender? ==> l.senderBy == Some(h) && S(l) == Some(l.handlers[h]) && l.receiverBy != Some(h)
    ensures l.handlers[h].role.Receiver? ==> l.receiverBy == Some(h) && R(l) == Some(l.handlers[h]) && l.senderBy != Some(h)
  {
  }

  // ---- one lemma per event -------------------------------------------------------------

  lemma FreshOk(cap: nat)
    ensures Inv(FRESH, cap)
  {
  }

  /** The data invariants only look at the bytes moved, the ready flags and whether
      end of file has been stored. */
  lemma SameData(l: Link, l': Link, cap: nat, s: Option<Handler>, r: Option<Handler>)
    requires l'.moved == l.moved && l'.senderReady == l.senderReady && l'.receiverReady == l.receiverReady
    requires l.pipe.werr == Some(EOF) ==> l'.pipe.werr == Some(EOF)
    ensures s.Some? && SenderOk(l, cap, s.value) ==> SenderOk(l', cap, s.value)
    ensures r.Some? && ReceiverOk(l, r.value) ==> ReceiverOk(l', r.value)
  {
  }

  lemma ArriveEnds(l: Link, h: Hid, role: Role, body: Bytes)
    requires Ends(l) && !At(l, h)
    ensures var l' := AfterArrive(l, h, role, body); Ends(l') && S(l') == S(l) && R(l') == R(l)
  {
  }

  lemma ArriveKeeps(l: Link, cap: nat, h: Hid, role: Role, body: Bytes)
    requires Inv(l, cap) && !At(l, h)
    ensures Inv(AfterArrive(l, h, role, body), cap)
  {
    var l' := AfterArrive(l, h, role, body);
    ArriveEnds(l, h, role, body);
    SameData(l, l', cap, S(l), R(l));
  }

  lemma ClaimLost(l: Link, cap: nat, h: Hid)
    requires Inv(l, cap) && At(l, h) && l.handlers[h].pc.Looked? && By(l, l.handlers[h].role).Some?
    ensures Inv(AfterClaim(l, h), cap)
  {
    OneHandler(l, AfterClaim(l, h), h);
    SameData(l, AfterClaim(l, h), cap, S(l), R(l));
  }

  lemma ClaimWonEnds(l: Link, h: Hid)
    requires Ends(l) && At(l, h) && l.handlers[h].pc.Looked? && By(l, l.handlers[h].role).None?
    ensures var l' := AfterClaim(l, h);
            && Ends(l')
            && (l.handlers[h].role.Sender? ==> R(l') == R(l) && S(l') == Some(l'.handlers[h]))
            && (l.handlers[h].role.Receiver? ==> S(l') == S(l) && R(l') == Some(l'.handlers[h]))
  {
  }

  lemma ClaimWon(l: Link, cap: nat, h: Hid)
    requires Inv(l, cap) && At(l, h) && l.handlers[h].pc.Looked? && By(l, l.handlers[h].role).None?
    ensures Inv(AfterClaim(l, h), cap)
  {
    ClaimWonEnds(l, h);
    SameData(l, AfterClaim(l, h), cap, S(l), R(l));
  }

  lemma SignalKeeps(l: Link, cap: nat, h: Hid)
    requires Inv(l, cap) && At(l, h) && l.handlers[h].pc.Claimed?
    ensures Inv(AfterSignal(l, h), cap)
  {
    HolderIs(l, h);
    OneHandler(l, AfterSignal(l, h), h);
  }

  lemma SeeReadyKeeps(l: Link, cap: nat, h: Hid)
    requires Inv(l, cap) && At(l, h) && l.handlers[h].pc.Waiting? && OtherReady(l, l.handlers[h].role)
    ensures Inv(Put(l, h, l.handlers[h].(pc := Top, joined := true)), cap)
  {
    var l' := Put(l, h, l.handlers[h].(pc := Top, joined := true));
    HolderIs(l, h);
    OneHandler(l, l', h);
    SameData(l, l', cap, S(l), R(l));
  }

  lemma GiveUpKeeps(l: Link, cap: nat, h: Hid, timeout: bool)
    requires Inv(l, cap) && At(l, h) && l.handlers[h].pc.Waiting?
    ensures Inv(AfterGiveUp(l, h, timeout), cap)
  {
    HolderIs(l, h);
    OneHandler(l, AfterGiveUp(l, h, timeout), h);
    SameData(l, AfterGiveUp(l, h, timeout), cap, S(l), R(l));
  }

  lemma DoneKeeps(l: Link, cap: nat, h: Hid)
    requires Inv(l, cap) && At(l, h) && l.handlers[h].role.Receiver? && l.pipe.Done()
    requires l.handlers[h].pc.Top? || l.handlers[h].pc.Reading?
    ensures Inv(AfterDone(l, h, l.pipe.ReadError()), cap)
  {
    var l' := AfterDone(l, h, l.pipe.ReadError());
    HolderIs(l, h);
    OneHandler(l, l', h);
    SameData(l, l', cap, S(l), None);
  }

  lemma ExtendKeeps(l: Link, cap: nat, h: Hid)
    requires Inv(l, cap) && At(l, h) && l.handlers[h].pc.Top?
    ensures Inv(AfterExtend(l, h), cap)
  {
    if l.handlers[h].role.Receiver? && l.pipe.Done() {
      DoneKeeps(l, cap, h);
    } else {
      var l' := Put(l, h, l.handlers[h].(pc := Reading));
      HolderIs(l, h);
      OneHandler(l, l', h);
      SameData(l, l', cap, S(l), R(l));
    }
  }

  lemma ExtendFailsKeeps(l: Link, cap: nat, h: Hid, code: nat)
    requires Inv(l, cap) && At(l, h) && l.handlers[h].pc.Top?
    ensures Inv(Put(l.(faulted := true), h, l.handlers[h].(pc := Closing(Some(Env(code))))), cap)
  {
    var l' := Put(l.(faulted := true), h, l.handlers[h].(pc := Closing(Some(Env(code)))));
    HolderIs(l, h);
    OneHandler(l, l', h);
    SameData(l, l', cap, S(l), R(l));
  }

  lemma Slices(body: Bytes, pos: nat, n: nat)
    requires pos + n <= |body|
    ensures body[..pos + n] == body[..pos] + body[pos..pos + n]
    ensures body[..pos] <= body[..pos + n]
    ensures n == 0 ==> body[pos..pos + n] == []
    ensures body[..|body|] == body
  {
  }

  lemma ReadBodyPc(l: Link, cap: nat, x: Handler, n: nat, err: Option<Err>, pc: Pc)
    requires x.pc.Reading? && SenderOk(l, cap, x)
    requires n <= BUFFER && x.pos + n <= |x.body|
    requires err == Some(EOF) ==> x.pos + n == |x.body|
    requires pc == EnterWrite(l, AfterRead(x.total, cap, x.body[x.pos..x.pos + n], err))
    requires l.pipe.rerr != Some(EOF)
    ensures SenderOk(l, cap, x.(pos := x.pos + n, pc := pc))
  {
    Slices(x.body, x.pos, n);
    var x' := x.(pos := x.pos + n, pc := pc);
    assert x'.joined && l.moved <= x'.body[..x'.pos];
    if pc.Closing? {
      assert pc.err != Some(EOF);
      if pc.err.None? {
        assert n == 0 && l.moved == x.body;
      }
    } else if pc.Writing? {
      assert l.moved + pc.rest == x.body[..x'.pos];
    }
  }

  /** The sender's handler moves on inside its loop, or out of it, with nothing else changed. */
  lemma SenderMoves(l: Link, l': Link, cap: nat, h: Hid, x': Handler)
    requires Inv(l, cap) && At(l, h) && l.handlers[h].role.Sender? && l.handlers[h].pc.Reading?
    requires SenderOk(l, cap, x') && x'.joined
    requires x'.pc.Top? || x'.pc.Writing? || x'.pc.Closing?
    requires l' == Put(l.(faulted := l'.faulted), h, x')
    requires l.faulted ==> l'.faulted
    requires !l'.faulted ==> NoError(x'.pc)
    ensures Inv(l', cap)
  {
    HolderIs(l, h);
    SameData(l, l', cap, Some(x'), R(l));
    OneHandler(l, l', h);
  }

  /** Before its loop is left, a sender in an undisturbed stream finds the pipe open. */
  lemma CalmPipeIsOpen(l: Link, cap: nat, h: Hid)
    requires Inv(l, cap) && At(l, h) && l.handlers[h].role.Sender? && l.handlers[h].pc.Reading? && !l.faulted
    ensures !l.pipe.Done()
  {
    HolderIs(l, h);
  }

  lemma ReadBodyKeeps(l: Link, cap: nat, h: Hid, n: nat, err: Option<Err>)
    requires Inv(l, cap) && Enabled(l, ReadBody(h, n, err))
    ensures Inv(AfterReadBody(l, cap, h, n, err), cap)
  {
    var x := l.handlers[h];
    var move := AfterRead(x.total, cap, x.body[x.pos..x.pos + n], err);
    var pc := EnterWrite(l, move);
    HolderIs(l, h);
    ReadBodyPc(l, cap, x, n, err, pc);
    if !l.faulted {
      CalmPipeIsOpen(l, cap, h);
    }
    SenderMoves(l, AfterReadBody(l, cap, h, n, err), cap, h, x.(pos := x.pos + n, pc := pc));
  }

  lemma WriteSeesDoneKeeps(l: Link, cap: nat, h: Hid)
    requires Inv(l, cap) && At(l, h) && l.handlers[h].role.Sender? && l.handlers[h].pc.Writing? && l.pipe.Done()
    ensures Inv(Put(l, h, l.handlers[h].(pc := Closing(Some(l.pipe.WriteError())))), cap)
  {
    var l' := Put(l, h, l.handlers[h].(pc := Closing(Some(l.pipe.WriteError()))));
    HolderIs(l, h);
    OneHandler(l, l', h);
    SameData(l, l', cap, None, R(l));
  }

  lemma WriteOutKeeps(l: Link, cap: nat, h: Hid)
    requires Inv(l, cap) && At(l, h) && l.handlers[h].role.Receiver? && l.handlers[h].pc.Writing?
    ensures Inv(AfterWriteOut(l, h), cap)
  {
    HolderIs(l, h);
    OneHandler(l, AfterWriteOut(l, h), h);
    SameData(l, AfterWriteOut(l, h), cap, S(l), None);
  }

  lemma WriteOutFailsKeeps(l: Link, cap: nat, h: Hid, kept: nat, code: nat)
    requires Inv(l, cap) && Enabled(l, WriteOutFails(h, kept, code))
    ensures Inv(AfterWriteOutFails(l, h, kept, code), cap)
  {
    HolderIs(l, h);
    OneHandler(l, AfterWriteOutFails(l, h, kept, code), h);
    SameData(l, AfterWriteOutFails(l, h, kept, code), cap, S(l), None);
  }

  lemma CloseSender(l: Link, cap: nat, h: Hid)
    requires Inv(l, cap) && At(l, h) && l.handlers[h].role.Sender? && l.handlers[h].pc.Closing?
    ensures Inv(AfterCloseEnd(l, h), cap)
  {
    HolderIs(l, h);
    OneHandler(l, AfterCloseEnd(l, h), h);
    SameData(l, AfterCloseEnd(l, h), cap, None, R(l));
  }

  lemma CloseReceiver(l: Link, cap: nat, h: Hid)
    requires Inv(l, cap) && At(l, h) && l.handlers[h].role.Receiver? && l.handlers[h].pc.Closing?
    ensures Inv(AfterCloseEnd(l, h), cap)
  {
    HolderIs(l, h);
    OneHandler(l, AfterCloseEnd(l, h), h);
    SameData(l, AfterCloseEnd(l, h), cap, S(l), None);
  }

  lemma ReleaseLoser(l: Link, cap: nat, h: Hid)
    requires Inv(l, cap) && At(l, h) && l.handlers[h].pc == Refused(AlreadyAttached)
    ensures Inv(AfterRelease(l, h), cap)
  {
    SameData(l, AfterRelease(l, h), cap, S(l), R(l));
    OneHandler(l, AfterRelease(l, h), h);
  }

  lemma ReleaseSender(l: Link, cap: nat, h: Hid)
    requires Inv(l, cap) && Enabled(l, Release(h)) && l.handlers[h].role.Sender?
    requires l.handlers[h].pc != Refused(AlreadyAttached)
    ensures Inv(AfterRelease(l, h), cap)
  {
    var l' := AfterRelease(l, h);
    HolderIs(l, h);
    assert SenderOk(l', cap, l'.handlers[h]);
    SameData(l, l', cap, None, R(l));
    OneHandler(l, l', h);
  }

  lemma ReleaseReceiver(l: Link, cap: nat, h: Hid)
    requires Inv(l, cap) && Enabled(l, Release(h)) && l.handlers[h].role.Receiver?
    requires l.handlers[h].pc != Refused(AlreadyAttached)
    ensures Inv(AfterRelease(l, h), cap)
  {
    var l' := AfterRelease(l, h);
    HolderIs(l, h);
    assert ReceiverOk(l', l'.handlers[h]);
    SameData(l, l', cap, S(l), None);
    OneHandler(l, l', h);
  }

  lemma RemoveKeeps(l: Link, cap: nat)
    requires Inv(l, cap) && l.teardown.Registered?
    ensures Inv(l.(teardown := Removed, faulted := true), cap)
  {
    SameData(l, l.(teardown := Removed, faulted := true), cap, S(l), R(l));
    NoHandler(l, l.(teardown := Removed, faulted := true));
  }

  lemma CloseHalfKeeps(l: Link, cap: nat)
    requires Inv(l, cap) && (l.teardown.Removed? || l.teardown.HalfClosed?)
    ensures Inv(AfterCloseHalf(l), cap)
  {
    SameData(l, AfterCloseHalf(l), cap, S(l), R(l));
    NoHandler(l, AfterCloseHalf(l));
  }

  /** The bytes of one rendezvous: what leaves the sender's chunk is what the receiver
      gets, and the receiver's own cap check cannot fail on it. */
  lemma HandOffBytes(l: Link, cap: nat, s: Hid, r: Hid)
    requires Inv(l, cap) && Enabled(l, HandOff(s, r))
    ensures s != r
    ensures var l' := AfterHandOff(l, cap, s, r);
            SenderOk(l', cap, l'.handlers[s]) && ReceiverOk(l', l'.handlers[r])
  {
    HolderIs(l, s);
    HolderIs(l, r);
    var w, x := l.handlers[s], l.handlers[r];
    var k := Min(BUFFER, |w.pc.rest|);
    assert k == |w.pc.rest|;
    assert w.pc.rest[..k] == w.pc.rest;
    assert x.total + k <= w.total + w.pc.size;
    assert AfterRead(x.total, cap, w.pc.rest, None) == Write(w.pc.rest, None);
    assert w.pos == |w.body| ==> w.body[..w.pos] == w.body;
  }

  lemma HandOffEnds(l: Link, cap: nat, s: Hid, r: Hid)
    requires Inv(l, cap) && Enabled(l, HandOff(s, r))
    ensures var l' := AfterHandOff(l, cap, s, r);
            Ends(l') && S(l') == Some(l'.handlers[s]) && R(l') == Some(l'.handlers[r])
  {
    var l' := AfterHandOff(l, cap, s, r);
    HolderIs(l, s);
    HolderIs(l, r);
    var m := l'.(handlers := l.handlers[s := l'.handlers[s]]);
    OneHandler(l, m, s);
    OneHandler(m, l', r);
  }

  lemma HandOffKeeps(l: Link, cap: nat, s: Hid, r: Hid)
    requires Inv(l, cap) && Enabled(l, HandOff(s, r))
    ensures Inv(AfterHandOff(l, cap, s, r), cap)
  {
    HandOffFlags(l, cap, s, r);
    HandOffEnds(l, cap, s, r);
    HandOffBytes(l, cap, s, r);
  }

  lemma HandOffFlags(l: Link, cap: nat, s: Hid, r: Hid)
    requires Inv(l, cap) && Enabled(l, HandOff(s, r))
    ensures var l' := AfterHandOff(l, cap, s, r); var w, x := Some(l'.handlers[s]), Some(l'.handlers[r]);
            FlagsOk(l', w, x) && PipeOk(l', w, x) && UnfaultedOk(l', w, x)
  {
    HolderIs(l, s);
    HolderIs(l, r);
  }

  /** Every step keeps the invariant. */
  lemma StepKeeps(l: Link, cap: nat, e: Event)
    requires Inv(l, cap) && Enabled(l, e)
    ensures Inv(Next(l, cap, e), cap)
  {
    match e
    case Arrive(h, role, body) => ArriveKeeps(l, cap, h, role, body);
    case Claim(h) => if By(l, l.handlers[h].role).Some? { ClaimLost(l, cap, h); } else { ClaimWon(l, cap, h); }
    case SignalReady(h) => SignalKeeps(l, cap, h);
    case SeeReady(h) => SeeReadyKeeps(l, cap, h);
    case GiveUp(h, timeout) => GiveUpKeeps(l, cap, h, timeout);
    case Extend(h) => ExtendKeeps(l, cap, h);
    case ExtendFails(h, code) => ExtendFailsKeeps(l, cap, h, code);
    case ReadBody(h, n, err) => ReadBodyKeeps(l, cap, h, n, err);
    case HandOff(s, r) => HandOffKeeps(l, cap, s, r);
    case ReadSeesDone(h) => DoneKeeps(l, cap, h);
    case WriteSeesDone(h) => WriteSeesDoneKeeps(l, cap, h);
    case WriteOut(h) => WriteOutKeeps(l, cap, h);
    case WriteOutFails(h, kept, code) => WriteOutFailsKeeps(l, cap, h, kept, code);
    case CloseEnd(h) => if l.handlers[h].role.Sender? { CloseSender(l, cap, h); } else { CloseReceiver(l, cap, h); }
    case Release(h) => ReleaseKeeps(l, cap, h);
    case Remove => RemoveKeeps(l, cap);
    case CloseHalf => CloseHalfKeeps(l, cap);
  }

  lemma ReleaseKeeps(l: Link, cap: nat, h: Hid)
    requires Inv(l, cap) && Enabled(l, Release(h))
    ensures Inv(AfterRelease(l, h), cap)
  {
    if l.handlers[h].pc == Refused(AlreadyAttached) {
      ReleaseLoser(l, cap, h);
    } else if l.handlers[h].role.Sender? {
      ReleaseSender(l, cap, h);
    } else {
      ReleaseReceiver(l, cap, h);
    }
  }
}
