/** One stream and every HTTP request that looked it up: the steps its handlers can
    take, in any order, interleaved with its removal from the registry.

    A handler is a program counter walking through serveSender or serveReceiver.  Each
    step is one atomic action of the source: a compare-and-swap, closing a ready
    channel, leaving a select, one read, one hand-off through the pipe, one write, one
    half-close, one locked section of Release. */
module Link {
  import opened Common
  import opened Pipe
  import opened Pump

  type Hid = nat

  datatype Role = Sender | Receiver

  datatype Pc =
    | Looked                                  // Get and Role succeeded
    | Claimed                                 // won the compare-and-swap
    | Waiting                                 // in waitFor
    | Refused(reason: Err)                      // attach failed, Release is next
    | Top                                     // loop head of pump, deadline next
    | Reading                                 // in src.Read
    | Writing(rest: Bytes, size: nat, readErr: Option<Err>)  // in dst.Write
    | Closing(err: Option<Err>)               // pump returned, CloseWithError is next
    | Releasing(err: Option<Err>)             // Release is next
    | Answered(err: Option<Err>)              // handler returned

  /** `body` is what a sender's request body holds until its end, `pos` how much of it
      has been read; `out` is what has been written to a receiver's response; `joined`
      says that the attach call returned a pipe half. */
  datatype Handler = Handler(role: Role, body: Bytes, pos: nat, total: nat, out: Bytes, joined: bool, pc: Pc)

  /** Progress of a stream's removal: registered, removed with Close still to run,
      writing half closed, both halves closed. */
  datatype Teardown = Registered | Removed | HalfClosed | Closed

  /** `senderBy` and `receiverBy` are the attach flags together with the request that
      set them.  `moved` records every byte handed through the pipe.  `faulted` records
      whether anything went wrong: a second attach on one end, a failed attach, an I/O
      failure, the cap, or a removal by Sweep or ReleaseDevice. */
  datatype Link = Link(
    senderBy: Option<Hid>, receiverBy: Option<Hid>,
    senderReady: bool, receiverReady: bool,
    pipe: Pipe, teardown: Teardown,
    moved: Bytes, faulted: bool,
    handlers: map<Hid, Handler>)

  const FRESH := Link(None, None, false, false, OPEN, Registered, [], false, map[])

  datatype Event =
    | Arrive(h: Hid, role: Role, body: Bytes)
    | Claim(h: Hid)
    | SignalReady(h: Hid)
    | SeeReady(h: Hid)
    | GiveUp(h: Hid, timeout: bool)
    | Extend(h: Hid)
    | ExtendFails(h: Hid, code: nat)
    | ReadBody(h: Hid, n: nat, err: Option<Err>)
    | HandOff(s: Hid, r: Hid)
    | ReadSeesDone(h: Hid)
    | WriteSeesDone(h: Hid)
    | WriteOut(h: Hid)
    | WriteOutFails(h: Hid, kept: nat, code: nat)
    | CloseEnd(h: Hid)
    | Release(h: Hid)
    | Remove                                  // Sweep or ReleaseDevice
    | CloseHalf                               // next half of Stream.Close

  function By(l: Link, role: Role): Option<Hid> {
    if role.Sender? then l.senderBy else l.receiverBy
  }

  predicate OtherReady(l: Link, role: Role) {
    if role.Sender? then l.receiverReady else l.senderReady
  }

  predicate At(l: Link, h: Hid) {
    h in l.handlers
  }

  function Put(l: Link, h: Hid, x: Handler): Link {
    l.(handlers := l.handlers[h := x])
  }

  /** The program counter the loop's decision leads to. */
  function Goto(m: Move): Pc {
    match m
    case Again => Top
    case Ended(err) => Closing(err)
    case Write(chunk, readErr) => Writing(chunk, |chunk|, readErr)
  }

  predicate Fails(m: Move) {
    m.Ended? && m.err.Some?
  }

  function Min(a: nat, b: nat): nat {
    if a <= b then a else b
  }

  predicate Enabled(l: Link, e: Event) {
    match e
    case Arrive(h, _, _) => !At(l, h) && l.teardown.Registered?
    case Claim(h) => At(l, h) && l.handlers[h].pc.Looked?
    case SignalReady(h) => At(l, h) && l.handlers[h].pc.Claimed?
    case SeeReady(h) => At(l, h) && l.handlers[h].pc.Waiting? && OtherReady(l, l.handlers[h].role)
    case GiveUp(h, _) => At(l, h) && l.handlers[h].pc.Waiting?
    case Extend(h) => At(l, h) && l.handlers[h].pc.Top?
    case ExtendFails(h, _) => At(l, h) && l.handlers[h].pc.Top?
    case ReadBody(h, n, err) =>
      && At(l, h) && l.handlers[h].role.Sender? && l.handlers[h].pc.Reading?
      && n <= BUFFER && l.handlers[h].pos + n <= |l.handlers[h].body|
      && (err == Some(EOF) ==> l.handlers[h].pos + n == |l.handlers[h].body|)
      && (err.Some? ==> err.value.EOF? || err.value.Env?)
    case HandOff(s, r) =>
      && At(l, s) && l.handlers[s].role.Sender? && l.handlers[s].pc.Writing?
      && At(l, r) && l.handlers[r].role.Receiver? && l.handlers[r].pc.Reading?
    case ReadSeesDone(h) =>
      At(l, h) && l.handlers[h].role.Receiver? && l.handlers[h].pc.Reading? && l.pipe.Done()
    case WriteSeesDone(h) =>
      At(l, h) && l.handlers[h].role.Sender? && l.handlers[h].pc.Writing? && l.pipe.Done()
    case WriteOut(h) =>
      At(l, h) && l.handlers[h].role.Receiver? && l.handlers[h].pc.Writing?
    case WriteOutFails(h, kept, _) =>
      && At(l, h) && l.handlers[h].role.Receiver? && l.handlers[h].pc.Writing?
      && kept <= |l.handlers[h].pc.rest|
    case CloseEnd(h) => At(l, h) && l.handlers[h].pc.Closing?
    case Release(h) => At(l, h) && (l.handlers[h].pc.Refused? || l.handlers[h].pc.Releasing?)
    case Remove => l.teardown.Registered?
    case CloseHalf => l.teardown.Removed? || l.teardown.HalfClosed?
  }

  function Next(l: Link, cap: nat, e: Event): Link
    requires Enabled(l, e)
  {
    match e
    case Arrive(h, role, body) => AfterArrive(l, h, role, body)
    case Claim(h) => AfterClaim(l, h)
    case SignalReady(h) => AfterSignal(l, h)
    case SeeReady(h) => Put(l, h, l.handlers[h].(pc := Top, joined := true))
    case GiveUp(h, timeout) => AfterGiveUp(l, h, timeout)
    case Extend(h) => AfterExtend(l, h)
    case ExtendFails(h, code) => Put(l.(faulted := true), h, l.handlers[h].(pc := Closing(Some(Env(code)))))
    case ReadBody(h, n, err) => AfterReadBody(l, cap, h, n, err)
    case HandOff(s, r) => AfterHandOff(l, cap, s, r)
    case ReadSeesDone(h) => AfterDone(l, h, l.pipe.ReadError())
    case WriteSeesDone(h) => Put(l, h, l.handlers[h].(pc := Closing(Some(l.pipe.WriteError()))))
    case WriteOut(h) => AfterWriteOut(l, h)
    case WriteOutFails(h, kept, code) => AfterWriteOutFails(l, h, kept, code)
    case CloseEnd(h) => AfterCloseEnd(l, h)
    case Release(h) => AfterRelease(l, h)
    case Remove => l.(teardown := Removed, faulted := true)
    case CloseHalf => AfterCloseHalf(l)
  }

  /** A request that passed Get and Role is about to attach. */
  function AfterArrive(l: Link, h: Hid, role: Role, body: Bytes): Link {
    Put(l, h, Handler(role, if role.Sender? then body else [], 0, 0, [], false, Looked))
  }

  /** The compare-and-swap of AttachSender and AttachReceiver. */
  function AfterClaim(l: Link, h: Hid): Link
    requires At(l, h)
  {
    var x := l.handlers[h];
    if By(l, x.role).Some? then Put(l.(faulted := true), h, x.(pc := Refused(AlreadyAttached)))
    else if x.role.Sender? then Put(l.(senderBy := Some(h)), h, x.(pc := Claimed))
    else Put(l.(receiverBy := Some(h)), h, x.(pc := Claimed))
  }

  /** Closing the ready channel of one's own end. */
  function AfterSignal(l: Link, h: Hid): Link
    requires At(l, h)
  {
    var x := l.handlers[h];
    if x.role.Sender? then Put(l.(senderReady := true), h, x.(pc := Waiting))
    else Put(l.(receiverReady := true), h, x.(pc := Waiting))
  }

  /** waitFor ends by the timer or by the request's context. */
  function AfterGiveUp(l: Link, h: Hid, timeout: bool): Link
    requires At(l, h)
  {
    Put(l.(faulted := true), h, l.handlers[h].(pc := Refused(if timeout then PeerNotAttached else Cancelled)))
  }

  /** The deadline is renewed and src.Read entered; the pipe's Read looks at the done
      channel before it blocks. */
  function AfterExtend(l: Link, h: Hid): Link
    requires At(l, h)
  {
    if l.handlers[h].role.Receiver? && l.pipe.Done() then AfterDone(l, h, l.pipe.ReadError())
    else Put(l, h, l.handlers[h].(pc := Reading))
  }

  /** src.Read of the request body returns `n` more bytes and perhaps an error. */
  function AfterReadBody(l: Link, cap: nat, h: Hid, n: nat, err: Option<Err>): Link
    requires At(l, h) && l.handlers[h].pos + n <= |l.handlers[h].body|
  {
    var x := l.handlers[h];
    var move := AfterRead(x.total, cap, x.body[x.pos..x.pos + n], err);
    Put(l.(faulted := l.faulted || Fails(move)), h, x.(pos := x.pos + n, pc := EnterWrite(l, move)))
  }

  /** Entering the pipe's Write looks at the done channel before it blocks. */
  function EnterWrite(l: Link, m: Move): Pc {
    if m.Write? && l.pipe.Done() then Closing(Some(l.pipe.WriteError())) else Goto(m)
  }

  /** A read of the pipe that returned no bytes and the pipe's error. */
  function AfterDone(l: Link, h: Hid, err: Err): Link
    requires At(l, h)
  {
    Put(l, h, l.handlers[h].(pc := Goto(AfterChunk(Some(err)))))
  }

  /** One rendezvous of a blocked Write with a blocked Read: as many bytes as the
      reader's buffer takes; the Write returns once nothing is left. */
  function AfterHandOff(l: Link, cap: nat, s: Hid, r: Hid): Link
    requires At(l, s) && l.handlers[s].pc.Writing? && At(l, r)
  {
    var w := l.handlers[s];
    var x := l.handlers[r];
    var k := Min(BUFFER, |w.pc.rest|);
    var chunk := w.pc.rest[..k];
    var w' := if k < |w.pc.rest| then w.(pc := w.pc.(rest := w.pc.rest[k..]))
              else w.(total := w.total + w.pc.size, pc := Goto(AfterChunk(w.pc.readErr)));
    var move := AfterRead(x.total, cap, chunk, None);
    var l1 := l.(moved := l.moved + chunk, faulted := l.faulted || Fails(AfterSent(w)) || Fails(move));
    Put(Put(l1, s, w'), r, x.(pc := Goto(move)))
  }

  /** The decision the sender's loop takes when its Write has returned: none while
      part of the chunk is still to be handed over. */
  function AfterSent(w: Handler): Move
    requires w.pc.Writing?
  {
    if BUFFER < |w.pc.rest| then Again else AfterChunk(w.pc.readErr)
  }

  /** The response takes the whole chunk. */
  function AfterWriteOut(l: Link, h: Hid): Link
    requires At(l, h) && l.handlers[h].pc.Writing?
  {
    var x := l.handlers[h];
    Put(l, h, x.(out := x.out + x.pc.rest, total := x.total + x.pc.size, pc := Goto(AfterChunk(x.pc.readErr))))
  }

  /** The response fails after taking part of the chunk. */
  function AfterWriteOutFails(l: Link, h: Hid, kept: nat, code: nat): Link
    requires At(l, h) && l.handlers[h].pc.Writing? && kept <= |l.handlers[h].pc.rest|
  {
    var x := l.handlers[h];
    Put(l.(faulted := true), h, x.(out := x.out + x.pc.rest[..kept], pc := Closing(Some(Env(code)))))
  }

  /** writer.CloseWithError or reader.CloseWithError with what pump returned. */
  function AfterCloseEnd(l: Link, h: Hid): Link
    requires At(l, h) && l.handlers[h].pc.Closing?
  {
    var x := l.handlers[h];
    if x.role.Sender? then
      Put(l.(pipe := l.pipe.CloseWrite(x.pc.err)), h,
          x.(pc := if x.pc.err.None? then Answered(None) else Releasing(x.pc.err)))
    else
      Put(l.(pipe := l.pipe.CloseRead(x.pc.err)), h, x.(pc := Releasing(x.pc.err)))
  }

  /** The locked part of Release; Close, if this call removed the stream, follows. */
  function AfterRelease(l: Link, h: Hid): Link
    requires At(l, h) && (l.handlers[h].pc.Refused? || l.handlers[h].pc.Releasing?)
  {
    var x := l.handlers[h];
    var l1 := if l.teardown.Registered? then l.(teardown := Removed) else l;
    Put(l1, h, x.(pc := Answered(if x.pc.Refused? then Some(x.pc.reason) else x.pc.err)))
  }

  /** Stream.Close, one half at a time. */
  function AfterCloseHalf(l: Link): Link {
    if l.teardown.Removed? then l.(teardown := HalfClosed, pipe := l.pipe.CloseWrite(Some(NotFound)))
    else l.(teardown := Closed, pipe := l.pipe.CloseRead(Some(NotFound)))
  }
}
