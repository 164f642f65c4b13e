/** The copy loop of the data plane: its decisions as functions (shared with the
    stream state machine), the loop itself, and what the loop achieves. */
module Pump {
  import opened Common

  /** Bytes moved at a time. */
  const BUFFER := 32 * 1024

  /** What the loop does after a read. */
  datatype Move =
    | Again
    | Ended(err: Option<Err>)
    | Write(chunk: Bytes, readErr: Option<Err>)

  /** The tail of an iteration, once any bytes have been dealt with. */
  function AfterChunk(readErr: Option<Err>): Move {
    match readErr
    case None => Again
    case Some(EOF) => Ended(None)
    case Some(e) => Ended(Some(e))
  }

  /** The decision taken on the result of src.Read. */
  function AfterRead(total: nat, cap: nat, chunk: Bytes, readErr: Option<Err>): Move {
    if |chunk| > 0 then
      if cap > 0 && total + |chunk| > cap then Ended(Some(TooLarge)) else Write(chunk, readErr)
    else AfterChunk(readErr)
  }

  // ---- the environment of one loop --------------------------------------------------

  datatype ReadResult = ReadResult(chunk: Bytes, err: Option<Err>)

  /** A failing dst.Write may have passed on some of the chunk. */
  datatype Fault = Fault(kept: nat, err: Err)

  /** Hands out, one per call, the results src.Read is going to give. */
  class Source {
    var script: seq<ReadResult>

    constructor (script: seq<ReadResult>)
      ensures this.script == script
    {
      this.script := script;
    }

    method Read() returns (r: ReadResult)
      requires script != []
      modifies this
      ensures r == old(script)[0] && script == old(script)[1..]
    {
      r := script[0];
      script := script[1..];
    }
  }

  /** Collects what is written; `faults` says which of the coming writes fail. */
  class Sink {
    var data: Bytes
    var faults: seq<Option<Fault>>

    constructor (faults: seq<Option<Fault>>)
      ensures this.faults == faults && data == []
    {
      this.faults, data := faults, [];
    }

    method Write(chunk: Bytes) returns (err: Option<Err>)
      modifies this
      ensures faults == Rest(old(faults))
      ensures old(faults) == [] || old(faults)[0].None? ==>
                err.None? && data == old(data) + chunk
      ensures old(faults) != [] && old(faults)[0].Some? ==>
                err == Some(old(faults)[0].value.err) && data == old(data) + Kept(old(faults)[0].value, chunk)
    {
      if faults != [] && faults[0].Some? {
        data := data + Kept(faults[0].value, chunk);
        err := Some(faults[0].value.err);
      } else {
        data := data + chunk;
        err := None;
      }
      faults := Rest(faults);
    }
  }

  /** The outcomes of the coming deadline renewals; none left means success. */
  class Deadline {
    var script: seq<Option<Err>>

    constructor (script: seq<Option<Err>>)
      ensures this.script == script
    {
      this.script := script;
    }

    method Extend() returns (err: Option<Err>)
      modifies this
      ensures err == (if old(script) == [] then None else old(script)[0])
      ensures script == Rest(old(script))
    {
      err := if script == [] then None else script[0];
      script := Rest(script);
    }
  }

  function Rest<T>(s: seq<T>): seq<T> {
    if s == [] then [] else s[1..]
  }

  function Kept(f: Fault, chunk: Bytes): Bytes {
    if f.kept <= |chunk| then chunk[..f.kept] else chunk
  }

  // ---- what the loop computes -----------------------------------------------------

  /** `Starved` stands for a read that never returns. */
  datatype End = Clean | Failed(err: Err) | Starved

  datatype Outcome = Outcome(written: Bytes, total: nat, end: End)

  function EndOf(err: Option<Err>): End {
    if err.None? then Clean else Failed(err.value)
  }

  function Copy(ext: seq<Option<Err>>, input: seq<ReadResult>, faults: seq<Option<Fault>>, total: nat, cap: nat): Outcome
    decreases |input|
  {
    if ext != [] && ext[0].Some? then Outcome([], total, Failed(ext[0].value))
    else if input == [] then Outcome([], total, Starved)
    else
      match AfterRead(total, cap, input[0].chunk, input[0].err)
      case Again => Copy(Rest(ext), input[1..], faults, total, cap)
      case Ended(err) => Outcome([], total, EndOf(err))
      case Write(chunk, readErr) =>
        if faults != [] && faults[0].Some? then
          Outcome(Kept(faults[0].value, chunk), total, Failed(faults[0].value.err))
        else
          match AfterChunk(readErr)
          case Ended(err) => Outcome(chunk, total + |chunk|, EndOf(err))
          case _ =>
            var rest := Copy(Rest(ext), input[1..], Rest(faults), total + |chunk|, cap);
            rest.(written := chunk + rest.written)
  }

  /** An outcome once `done` has already been written. */
  function Behind(done: Bytes, o: Outcome): Outcome {
    o.(written := done + o.written)
  }

  /** A turn of the loop that leads on to the next one. */
  lemma CopyGoesOn(ext: seq<Option<Err>>, input: seq<ReadResult>, faults: seq<Option<Fault>>, total: nat, cap: nat, done: Bytes)
    requires (ext == [] || ext[0].None?) && input != [] && input[0].err.None?
    requires input[0].chunk == [] || ((faults == [] || faults[0].None?) && (cap == 0 || total + |input[0].chunk| <= cap))
    ensures var chunk := input[0].chunk; var left := if chunk == [] then faults else Rest(faults);
            Behind(done, Copy(ext, input, faults, total, cap))
              == Behind(done + chunk, Copy(Rest(ext), input[1..], left, total + |chunk|, cap))
  {
    var chunk := input[0].chunk;
    if chunk == [] {
      assert done + chunk == done;
    } else {
      var rest := Copy(Rest(ext), input[1..], Rest(faults), total + |chunk|, cap);
      assert done + (chunk + rest.written) == done + chunk + rest.written;
    }
  }

  /** A turn of the loop that is the last one, after a read without failure. */
  lemma CopyStops(ext: seq<Option<Err>>, input: seq<ReadResult>, faults: seq<Option<Fault>>, total: nat, cap: nat)
    requires (ext == [] || ext[0].None?) && input != [] && input[0].err.Some?
    requires input[0].chunk == [] || ((faults == [] || faults[0].None?) && (cap == 0 || total + |input[0].chunk| <= cap))
    ensures Copy(ext, input, faults, total, cap)
         == Outcome(input[0].chunk, total + |input[0].chunk|, if input[0].err == Some(EOF) then Clean else Failed(input[0].err.value))
  {
  }

  /** A turn of the loop that fails before the read's own error is looked at. */
  lemma CopyFails(ext: seq<Option<Err>>, input: seq<ReadResult>, faults: seq<Option<Fault>>, total: nat, cap: nat)
    ensures ext != [] && ext[0].Some? ==> Copy(ext, input, faults, total, cap) == Outcome([], total, Failed(ext[0].value))
    ensures (ext == [] || ext[0].None?) && input == [] ==> Copy(ext, input, faults, total, cap) == Outcome([], total, Starved)
    ensures (ext == [] || ext[0].None?) && input != [] && input[0].chunk != [] ==>
              var chunk := input[0].chunk;
              if cap > 0 && total + |chunk| > cap then Copy(ext, input, faults, total, cap) == Outcome([], total, Failed(TooLarge))
              else faults != [] && faults[0].Some? ==>
                Copy(ext, input, faults, total, cap) == Outcome(Kept(faults[0].value, chunk), total, Failed(faults[0].value.err))
  {
  }

  /** pump: one buffer at a time until the source ends or something fails. */
  method Pump(dst: Sink, src: Source, deadline: Deadline, cap: nat) returns (total: nat, end: End)
    modifies dst, src, deadline
    ensures var o := Copy(old(deadline.script), old(src.script), old(dst.faults), 0, cap);
            dst.data == old(dst.data) + o.written && total == o.total && end == o.end
  {
    total := 0;
    ghost var o := Behind(dst.data, Copy(deadline.script, src.script, dst.faults, 0, cap));
    while true
      invariant Behind(dst.data, Copy(deadline.script, src.script, dst.faults, total, cap)) == o
      decreases |src.script|
    {
      ghost var ext, input, faults, done := deadline.script, src.script, dst.faults, dst.data;
      CopyFails(ext, input, faults, total, cap);
      assert done + [] == done;
      var extendErr := deadline.Extend();
      if extendErr.Some? {
        return total, Failed(extendErr.value);
      }
      if src.script == [] {
        return total, Starved;
      }
      var r := src.Read();
      var n := |r.chunk|;
      if n > 0 {
        if cap > 0 && total + n > cap {
          return total, Failed(TooLarge);
        }
        var writeErr := dst.Write(r.chunk);
        if writeErr.Some? {
          return total, Failed(writeErr.value);
        }
        total := total + n;
      }
      if r.err.Some? {
        CopyStops(ext, input, faults, total - n, cap);
        if r.err.value == EOF {
          return total, Clean;
        }
        return total, Failed(r.err.value);
      }
      CopyGoesOn(ext, input, faults, total - n, cap, done);
    }
  }

  // ---- the loop is a copy ---------------------------------------------------------

  /** Everything the source hands out. */
  function Data(input: seq<ReadResult>): Bytes {
    if input == [] then [] else input[0].chunk + Data(input[1..])
  }

  /** A source that ends properly: no error before the last read, which reports `last`.
      Zero-length input and bytes arriving together with the end are both allowed. */
  predicate EndsWith(input: seq<ReadResult>, last: Err) {
    input != [] &&
    (if |input| == 1 then input[0].err == Some(last)
     else input[0].err.None? && EndsWith(input[1..], last))
  }

  lemma PrefixBehind(chunk: Bytes, w: Bytes, rest: Bytes)
    requires w <= rest
    ensures chunk + w <= chunk + rest
  {
    assert chunk + rest == chunk + w + rest[|w|..];
  }

  lemma PrefixOfFirst(w: Bytes, chunk: Bytes, rest: Bytes)
    requires w <= chunk
    ensures w <= chunk + rest
  {
    assert chunk + rest == w + (chunk[|w|..] + rest);
  }

  /** Whatever fails and wherever, what was written is a prefix of what the source
      handed out and stays within the cap. */
  lemma {:induction false} WritesAPrefixWithinTheCap(ext: seq<Option<Err>>, input: seq<ReadResult>,
                                                      faults: seq<Option<Fault>>, total: nat, cap: nat)
    requires cap > 0 ==> total <= cap
    ensures var o := Copy(ext, input, faults, total, cap);
            && o.written <= Data(input)
            && (cap > 0 ==> total + |o.written| <= cap)
            && total <= o.total <= total + |o.written|
            && (o.end.Clean? ==> o.total == total + |o.written|)
    decreases |input|
  {
    if (ext != [] && ext[0].Some?) || input == [] {
    } else {
      var rest := Data(input[1..]);
      match AfterRead(total, cap, input[0].chunk, input[0].err)
      case Again =>
        WritesAPrefixWithinTheCap(Rest(ext), input[1..], faults, total, cap);
        assert Data(input) == rest;
      case Ended(_) =>
      case Write(chunk, readErr) =>
        if faults != [] && faults[0].Some? {
          PrefixOfFirst(Kept(faults[0].value, chunk), chunk, rest);
        } else if AfterChunk(readErr).Again? {
          WritesAPrefixWithinTheCap(Rest(ext), input[1..], Rest(faults), total + |chunk|, cap);
          PrefixBehind(chunk, Copy(Rest(ext), input[1..], Rest(faults), total + |chunk|, cap).written, rest);
        } else {
          PrefixOfFirst(chunk, chunk, rest);
        }
    }
  }

  // Where and why the loop ends.

  /** How many reads brought bytes, so how many writes there were. */
  function Writes(input: seq<ReadResult>): nat {
    if input == [] then 0 else (if input[0].chunk == [] then 0 else 1) + Writes(input[1..])
  }

  lemma OneTurnLess(input: seq<ReadResult>, k: nat)
    requires input != [] && k <= |input| - 1
    ensures Data(input[..k + 1]) == input[0].chunk + Data(input[1..][..k])
    ensures Writes(input[..k + 1]) == (if input[0].chunk == [] then 0 else 1) + Writes(input[1..][..k])
  {
    assert input[..k + 1][1..] == input[1..][..k];
  }

  /** Nothing has ended the loop before turn `k`. */
  predicate Arrives(ext: seq<Option<Err>>, input: seq<ReadResult>, k: nat) {
    && k <= |input|
    && (forall j :: 0 <= j < k ==> input[j].err.None?)
    && (forall j :: 0 <= j < k && j < |ext| ==> ext[j].None?)
  }

  /** The loop ends well at turn `k`: the source reports its end, and all of it is written. */
  predicate CleanAt(ext: seq<Option<Err>>, input: seq<ReadResult>, total: nat, k: nat, o: Outcome) {
    && Arrives(ext, input, k) && k < |input| && (k < |ext| ==> ext[k].None?) && input[k].err == Some(EOF)
    && o.written == Data(input[..k + 1]) && o.total == total + |o.written|
  }

  /** It waits for ever for a read after all the others. */
  predicate StarvedAt(ext: seq<Option<Err>>, input: seq<ReadResult>, k: nat, o: Outcome) {
    Arrives(ext, input, k) && k == |input| && (k < |ext| ==> ext[k].None?) && o.written == Data(input)
  }

  /** It fails at turn `k` because of the deadline, the cap, the write or the read, in this
      order; what was read before is written, and as much of the last chunk as got through. */
  predicate FailsAt(ext: seq<Option<Err>>, input: seq<ReadResult>, faults: seq<Option<Fault>>, total: nat, cap: nat,
                    k: nat, e: Err, o: Outcome) {
    Arrives(ext, input, k) &&
    var before := Data(input[..k]);
    if k < |ext| && ext[k].Some? then ext[k] == Some(e) && o.written == before && o.total == total + |before|
    else k < |input| && TurnFails(input[k], faults, Writes(input[..k]), total, cap, e, before, o)
  }

  predicate TurnFails(r: ReadResult, faults: seq<Option<Fault>>, w: nat, total: nat, cap: nat, e: Err, before: Bytes, o: Outcome) {
    if r.chunk != [] && cap > 0 && total + |before| + |r.chunk| > cap then
      e == TooLarge && o.written == before && o.total == total + |before|
    else if r.chunk != [] && w < |faults| && faults[w].Some? then
      e == faults[w].value.err && o.written == before + Kept(faults[w].value, r.chunk) && o.total == total + |before|
    else
      r.err == Some(e) && e != EOF && o.written == before + r.chunk && o.total == total + |before| + |r.chunk|
  }

  /** The loop ends at turn `k` with outcome `o`: well only when the source has reported its
      end, and otherwise for a reason. */
  predicate EndsAt(ext: seq<Option<Err>>, input: seq<ReadResult>, faults: seq<Option<Fault>>, total: nat, cap: nat, k: nat, o: Outcome) {
    match o.end
    case Clean => CleanAt(ext, input, total, k, o)
    case Failed(e) => FailsAt(ext, input, faults, total, cap, k, e, o)
    case Starved => StarvedAt(ext, input, k, o)
  }

  lemma ArrivesLater(ext: seq<Option<Err>>, input: seq<ReadResult>, k: nat)
    requires input != [] && input[0].err.None? && (ext == [] || ext[0].None?) && Arrives(Rest(ext), input[1..], k)
    ensures Arrives(ext, input, k + 1)
  {
    forall j | 0 <= j < k + 1 ensures input[j].err.None? && (j < |ext| ==> ext[j].None?) {
      if j > 0 {
        assert input[j] == input[1..][j - 1];
        assert j < |ext| ==> ext[j] == Rest(ext)[j - 1];
      }
    }
  }

  lemma CleanLater(ext: seq<Option<Err>>, input: seq<ReadResult>, total: nat, k: nat, o: Outcome)
    requires input != [] && input[0].err.None? && (ext == [] || ext[0].None?)
    requires CleanAt(Rest(ext), input[1..], total + |input[0].chunk|, k, o)
    ensures CleanAt(ext, input, total, k + 1, Behind(input[0].chunk, o))
  {
    ArrivesLater(ext, input, k);
    OneTurnLess(input, k + 1);
  }

  lemma TurnFailsLater(r: ReadResult, faults: seq<Option<Fault>>, w: nat, total: nat, cap: nat, e: Err, chunk: Bytes, before: Bytes,
                       o: Outcome)
    requires TurnFails(r, if chunk == [] then faults else Rest(faults), w, total + |chunk|, cap, e, before, o)
    ensures TurnFails(r, faults, (if chunk == [] then 0 else 1) + w, total, cap, e, chunk + before, Behind(chunk, o))
  {
  }

  lemma FailsLater(ext: seq<Option<Err>>, input: seq<ReadResult>, faults: seq<Option<Fault>>, total: nat, cap: nat,
                   k: nat, e: Err, o: Outcome)
    requires input != [] && input[0].err.None? && (ext == [] || ext[0].None?)
    requires FailsAt(Rest(ext), input[1..], if input[0].chunk == [] then faults else Rest(faults), total + |input[0].chunk|, cap, k, e, o)
    ensures FailsAt(ext, input, faults, total, cap, k + 1, e, Behind(input[0].chunk, o))
  {
    ArrivesLater(ext, input, k);
    OneTurnLess(input, k);
    if !(k < |Rest(ext)| && Rest(ext)[k].Some?) {
      TurnFailsLater(input[k + 1], faults, Writes(input[1..][..k]), total, cap, e, input[0].chunk, Data(input[1..][..k]), o);
    }
  }

  lemma EndsAtOnce(ext: seq<Option<Err>>, input: seq<ReadResult>, faults: seq<Option<Fault>>, total: nat, cap: nat)
    requires (ext != [] && ext[0].Some?) || input == [] || input[0].err.Some?
             || (input[0].chunk != [] && ((faults != [] && faults[0].Some?) || (cap > 0 && total + |input[0].chunk| > cap)))
    ensures EndsAt(ext, input, faults, total, cap, 0, Copy(ext, input, faults, total, cap))
  {
    if input != [] {
      OneTurnLess(input, 0);
      assert input[..0] == [] && input[1..][..0] == [];
      assert [] + input[0].chunk == input[0].chunk + [] == input[0].chunk;
    }
  }

  /** Wherever the loop ends, it ends well only when the source has reported its end, with
      everything handed out till then written, and it fails only for a reason. */
  lemma {:induction false} EndsForAReason(ext: seq<Option<Err>>, input: seq<ReadResult>, faults: seq<Option<Fault>>, total: nat, cap: nat)
    returns (k: nat)
    ensures EndsAt(ext, input, faults, total, cap, k, Copy(ext, input, faults, total, cap))
    decreases |input|
  {
    if (ext == [] || ext[0].None?) && input != [] && input[0].err.None?
       && (input[0].chunk == [] || ((faults == [] || faults[0].None?) && (cap == 0 || total + |input[0].chunk| <= cap))) {
      var chunk := input[0].chunk;
      var left := if chunk == [] then faults else Rest(faults);
      var o := Copy(Rest(ext), input[1..], left, total + |chunk|, cap);
      var n := EndsForAReason(Rest(ext), input[1..], left, total + |chunk|, cap);
      Later(ext, input, faults, total, cap, n, o);
      k := n + 1;
    } else {
      EndsAtOnce(ext, input, faults, total, cap);
      k := 0;
    }
  }

  lemma Later(ext: seq<Option<Err>>, input: seq<ReadResult>, faults: seq<Option<Fault>>, total: nat, cap: nat, n: nat, o: Outcome)
    requires (ext == [] || ext[0].None?) && input != [] && input[0].err.None?
    requires input[0].chunk == [] || ((faults == [] || faults[0].None?) && (cap == 0 || total + |input[0].chunk| <= cap))
    requires var left := if input[0].chunk == [] then faults else Rest(faults);
             && o == Copy(Rest(ext), input[1..], left, total + |input[0].chunk|, cap)
             && EndsAt(Rest(ext), input[1..], left, total + |input[0].chunk|, cap, n, o)
    ensures EndsAt(ext, input, faults, total, cap, n + 1, Copy(ext, input, faults, total, cap))
  {
    var all := Copy(ext, input, faults, total, cap);
    CopyGoesOn(ext, input, faults, total, cap, []);
    assert [] + all.written == all.written && [] + input[0].chunk == input[0].chunk;
    assert all == Behind(input[0].chunk, o);
    if o.end.Clean? {
      CleanLater(ext, input, total, n, o);
    }
    if o.end.Starved? {
      ArrivesLater(ext, input, n);
    }
    if o.end.Failed? {
      FailsLater(ext, input, faults, total, cap, n, o.end.err, o);
    }
  }

  /** With nothing else failing, the loop writes the whole source and ends cleanly
      exactly when the source fits under the cap; otherwise it stops as too large. */
  lemma {:induction false} CopiesExactly(input: seq<ReadResult>, total: nat, cap: nat)
    requires EndsWith(input, EOF)
    requires cap > 0 ==> total <= cap
    ensures var o := Copy([], input, [], total, cap);
            var fits := cap == 0 || total + |Data(input)| <= cap;
            && (fits ==> o == Outcome(Data(input), total + |Data(input)|, Clean))
            && (!fits ==> o.end == Failed(TooLarge) && o.written < Data(input))
    decreases |input|
  {
    var chunk := input[0].chunk;
    if |input| == 1 {
      assert Data(input[1..]) == [];
      assert Data(input) == chunk;
    } else {
      if cap == 0 || total + |chunk| <= cap {
        CopiesExactly(input[1..], total + |chunk|, cap);
        assert chunk == [] ==> Data(input) == Data(input[1..]);
      }
    }
  }

  /** Two loops in a row with one cap: whatever the first wrote, however the pipe
      splits it, the second loop never trips the cap, and it copies everything when
      the pipe ends with end of file. */
  lemma ChainedCapNeverTripsTwice(ext: seq<Option<Err>>, input: seq<ReadResult>, faults: seq<Option<Fault>>,
                                  ext2: seq<Option<Err>>, input2: seq<ReadResult>, faults2: seq<Option<Fault>>, cap: nat)
    requires Data(input2) <= Copy(ext, input, faults, 0, cap).written
    requires NoneIs(TooLarge, ext2, input2, faults2)
    ensures Copy(ext2, input2, faults2, 0, cap).end != Failed(TooLarge)
    ensures EndsWith(input2, EOF) ==>
              Copy([], input2, [], 0, cap) == Outcome(Data(input2), |Data(input2)|, Clean)
  {
    WritesAPrefixWithinTheCap(ext, input, faults, 0, cap);
    NeverTooLarge(ext2, input2, faults2, 0, cap);
    if EndsWith(input2, EOF) {
      CopiesExactly(input2, 0, cap);
    }
  }

  /** None of the failures injected from outside is `e`. */
  predicate NoneIs(e: Err, ext: seq<Option<Err>>, input: seq<ReadResult>, faults: seq<Option<Fault>>) {
    && (forall i :: 0 <= i < |ext| ==> ext[i] != Some(e))
    && (forall i :: 0 <= i < |input| ==> input[i].err != Some(e))
    && (forall i :: 0 <= i < |faults| ==> faults[i].Some? ==> faults[i].value.err != e)
  }

  lemma {:induction false} NeverTooLarge(ext: seq<Option<Err>>, input: seq<ReadResult>, faults: seq<Option<Fault>>, total: nat, cap: nat)
    requires cap > 0 ==> total + |Data(input)| <= cap
    requires NoneIs(TooLarge, ext, input, faults)
    ensures Copy(ext, input, faults, total, cap).end != Failed(TooLarge)
    decreases |input|
  {
    if (ext != [] && ext[0].Some?) || input == [] {
    } else {
      match AfterRead(total, cap, input[0].chunk, input[0].err)
      case Again => NeverTooLarge(Rest(ext), input[1..], faults, total, cap);
      case Ended(_) =>
      case Write(chunk, readErr) =>
        if !(faults != [] && faults[0].Some?) && AfterChunk(readErr).Again? {
          NeverTooLarge(Rest(ext), input[1..], Rest(faults), total + |chunk|, cap);
        }
    }
  }
}
