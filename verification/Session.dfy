/** One device's connection: a bounded outbound queue drained by one writer. */
module Session {
  import opened Common

  type Device = string

  /** How many messages may wait before the device counts as unable to keep up. */
  const OUTBOUND_BUFFER := 32

  datatype Code = BadRequest | PeerOffline | TooManyStreams | Internal

  datatype Msg =
    | Presence(device: Device, online: bool)
    | Refusal(code: Code)
    | StreamCreated(id: string, expires: int)
    | Other(content: string)

  /** `hand` is the message writeLoop has taken and not finished writing; `stopped` says
      that writeLoop has returned.  `accepted`, `written` and `refused` are history. */
  datatype Mailbox = Mailbox(
    queue: seq<Msg>, hand: Option<Msg>, closed: bool, stopped: bool,
    accepted: seq<Msg>, written: seq<Msg>, refused: bool)

  const NEW := Mailbox([], None, false, false, [], [], false)

  predicate Accepts(b: Mailbox) {
    !b.closed && |b.queue| < OUTBOUND_BUFFER
  }

  /** Send: refused when closed, and closing when full. */
  function Push(b: Mailbox, m: Msg): Mailbox {
    if b.closed then b.(refused := true)
    else if |b.queue| < OUTBOUND_BUFFER then b.(queue := b.queue + [m], accepted := b.accepted + [m])
    else b.(closed := true, refused := true)
  }

  /** So a message is taken, at the end of the queue, if and only if the session is open and
      fewer than 32 wait; one that is not taken finds the session closed or closes it. */
  lemma PushTakesIff(b: Mailbox, m: Msg)
    ensures var b' := Push(b, m); var taken := !b.closed && |b.queue| < 32;
            && (Accepts(b) <==> taken)
            && b'.accepted == b.accepted + (if taken then [m] else [])
            && b'.queue == b.queue + (if taken then [m] else [])
            && (b'.closed <==> b.closed || !taken) && (b'.refused <==> b.refused || !taken)
            && b'.written == b.written && b'.hand == b.hand && b'.stopped == b.stopped
  {
  }

  datatype Event =
    | Send(m: Msg)
    | Close
    | Take            // writeLoop receives from the queue; it may do so even when closed
    | Wrote
    | WriteFails
    | Stop            // writeLoop sees the closed channel or its context

  predicate Can(b: Mailbox, e: Event) {
    match e
    case Send(_) => true
    case Close => true
    case Take => !b.stopped && b.hand.None? && b.queue != []
    case Wrote => !b.stopped && b.hand.Some?
    case WriteFails => !b.stopped && b.hand.Some?
    case Stop => !b.stopped && b.hand.None?
  }

  function After(b: Mailbox, e: Event): Mailbox
    requires Can(b, e)
  {
    match e
    case Send(m) => Push(b, m)
    case Close => b.(closed := true)
    case Take => b.(hand := Some(b.queue[0]), queue := b.queue[1..])
    case Wrote => b.(hand := None, written := b.written + [b.hand.value])
    case WriteFails => b.(closed := true, stopped := true)
    case Stop => b.(stopped := true)
  }

  function InHand(b: Mailbox): seq<Msg> {
    if b.hand.Some? then [b.hand.value] else []
  }

  /** Nothing is lost, repeated or reordered between acceptance and the socket. */
  predicate Ok(b: Mailbox) {
    && b.accepted == b.written + InHand(b) + b.queue
    && |b.queue| <= OUTBOUND_BUFFER
    && (b.refused ==> b.closed)
  }

  lemma StepKeepsOk(b: Mailbox, e: Event)
    requires Ok(b) && Can(b, e)
    ensures Ok(After(b, e))
    ensures b.refused ==> After(b, e).refused && After(b, e).accepted == b.accepted
    ensures b.accepted <= After(b, e).accepted
  {
    var b' := After(b, e);
    if e.Take? {
      assert b.queue == [b.queue[0]] + b.queue[1..];
      assert b'.accepted == b'.written + InHand(b') + b'.queue;
    } else if e.Wrote? {
      assert b'.accepted == b'.written + InHand(b') + b'.queue;
    } else if e.Send? && Accepts(b) {
      assert b'.accepted == b'.written + InHand(b') + b'.queue;
    }
  }

  /** Any interleaving of senders, closers and the writer. */
  ghost predicate Run(tr: seq<Mailbox>) {
    && tr != [] && tr[0] == NEW
    && forall i :: 0 <= i < |tr| - 1 ==> LeadsAt(tr, i)
  }

  ghost predicate LeadsAt(tr: seq<Mailbox>, i: nat)
    requires i + 1 < |tr|
  {
    Leads(tr[i], tr[i + 1])
  }

  ghost predicate Leads(b: Mailbox, b': Mailbox) {
    exists e :: Can(b, e) && b' == After(b, e)
  }

  lemma LeadKeepsOk(b: Mailbox, b': Mailbox)
    requires Ok(b) && Leads(b, b')
    ensures Ok(b') && b.accepted <= b'.accepted
    ensures b.refused ==> b'.refused && b'.accepted == b.accepted
  {
    var e :| Can(b, e) && b' == After(b, e);
    StepKeepsOk(b, e);
  }

  lemma {:induction false} RunIsOk(tr: seq<Mailbox>, i: nat)
    requires Run(tr) && i < |tr|
    ensures Ok(tr[i])
  {
    if i > 0 {
      RunIsOk(tr, i - 1);
      assert LeadsAt(tr, i - 1);
      LeadKeepsOk(tr[i - 1], tr[i]);
    }
  }

  /** What has been written is a prefix of what has been accepted, in order, and at most
      the buffer and the one message in hand are still to come. */
  lemma NoGap(tr: seq<Mailbox>, i: nat)
    requires Run(tr) && i < |tr|
    ensures tr[i].written <= tr[i].accepted
    ensures |tr[i].accepted| <= |tr[i].written| + 33
  {
    RunIsOk(tr, i);
  }

  /** After the first refused message nothing is ever accepted again. */
  lemma {:induction false} RefusedForGood(tr: seq<Mailbox>, i: nat, j: nat)
    requires Run(tr) && i <= j < |tr| && tr[i].refused
    ensures tr[j].refused && tr[j].accepted == tr[i].accepted
    decreases j
  {
    if i < j {
      RefusedForGood(tr, i, j - 1);
      RunIsOk(tr, j - 1);
      assert LeadsAt(tr, j - 1);
      LeadKeepsOk(tr[j - 1], tr[j]);
    }
  }

  /** The writer finishes what it has in hand, then goes through `n` turns that succeed. */
  function Settled(b: Mailbox): Mailbox
    requires !b.stopped
  {
    if b.hand.Some? then After(b, Wrote) else b
  }

  function Turns(b: Mailbox, n: nat): Mailbox
    requires !b.stopped && b.hand.None? && n <= |b.queue|
    decreases n
  {
    if n == 0 then b else Turns(After(After(b, Take), Wrote), n - 1)
  }

  lemma {:induction false} TurnsWrite(b: Mailbox, n: nat)
    requires !b.stopped && b.hand.None? && n <= |b.queue|
    ensures var b' := Turns(b, n);
            b'.written == b.written + b.queue[..n] && b'.queue == b.queue[n..] && b'.accepted == b.accepted
    decreases n
  {
    if n == 0 {
      assert b.written + b.queue[..0] == b.written;
    } else {
      var mid := After(After(b, Take), Wrote);
      TurnsWrite(mid, n - 1);
      assert b.queue[..n] == [b.queue[0]] + mid.queue[..n - 1];
      assert b.written + ([b.queue[0]] + mid.queue[..n - 1]) == b.written + [b.queue[0]] + mid.queue[..n - 1];
    }
  }

  /** In every run, a message sent to an open session that has room is the last one written
      once the writer has gone through the queue, if nothing more is sent. */
  lemma AcceptedIsWritten(tr: seq<Mailbox>, i: nat, m: Msg)
    requires Run(tr) && i < |tr| && !tr[i].closed && |tr[i].queue| < 32 && !tr[i].stopped
    ensures var b := Settled(Push(tr[i], m)); var b' := Turns(b, |b.queue|);
            b'.written == tr[i].accepted + [m] && b'.queue == []
  {
    RunIsOk(tr, i);
    StepKeepsOk(tr[i], Send(m));
    var b := Settled(Push(tr[i], m));
    assert b.written + b.queue == b.accepted;
    TurnsWrite(b, |b.queue|);
    assert b.queue[..|b.queue|] == b.queue;
  }

  // ---- the object --------------------------------------------------------------------------

  class Session {
    const deviceID: Device
    var out: seq<Msg>
    var closed: bool
    ghost var box: Mailbox

    constructor (deviceID: Device)
      ensures this.deviceID == deviceID && Valid() && box == NEW
    {
      this.deviceID := deviceID;
      out, closed := [], false;
      box := NEW;
    }

    /** The channel and the closed flag are those of the mailbox. */
    ghost predicate Valid()
      reads this
    {
      out == box.queue && closed == box.closed && Ok(box)
    }

    method Send(m: Msg) returns (ok: bool)
      requires Valid()
      modifies this`out, this`closed, this`box
      ensures Valid()
      ensures ok == Accepts(old(box)) && box == Push(old(box), m)
      ensures ok <==> !old(closed) && |old(out)| < 32
      ensures out == old(out) + (if ok then [m] else []) && box.accepted == old(box.accepted) + (if ok then [m] else [])
      ensures closed <==> !ok
    {
      StepKeepsOk(box, Event.Send(m));
      box := Push(box, m);
      if closed {
        return false;
      }
      if |out| < OUTBOUND_BUFFER {
        out := out + [m];
        return true;
      }
      Close();
      return false;
    }

    /** Safe to call repeatedly. */
    method Close()
      modifies this`closed, this`box
      ensures closed && box == old(box).(closed := true)
      ensures old(Valid()) ==> Valid()
    {
      if !closed {
        closed := true;
      }
      box := box.(closed := true);
    }

    /** One iteration of writeLoop that found a message: write it, `ok` or not. */
    method WriteNext(ok: bool) returns (m: Msg)
      requires Valid() && out != [] && !box.stopped && box.hand.None?
      modifies this`out, this`closed, this`box
      ensures Valid()
      ensures m == old(out)[0]
      ensures box == After(After(old(box), Take), if ok then Wrote else WriteFails)
      ensures out == old(out)[1..] && box.written == old(box.written) + (if ok then [m] else [])
      ensures closed <==> old(closed) || !ok
    {
      m := out[0];
      out := out[1..];
      StepKeepsOk(box, Take);
      box := After(box, Take);
      StepKeepsOk(box, if ok then Wrote else WriteFails);
      box := After(box, if ok then Wrote else WriteFails);
      if !ok {
        Close();
      }
    }
  }
}
