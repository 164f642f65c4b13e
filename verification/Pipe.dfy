/** The unbuffered pipe of Go's io package, reduced to the part that decides what
    a reader or writer is told once an end has been closed. */
module Pipe {
  import opened Common

  /** `werr` and `rerr` are the errors stored by the writing and the reading end. */
  datatype Pipe = Pipe(werr: Option<Err>, rerr: Option<Err>) {

    /** The channel both ends wait on is closed by the first close of either end. */
    predicate Done() {
      werr.Some? || rerr.Some?
    }

    /** writer.CloseWithError: no error stands for end of file, the first store wins. */
    function CloseWrite(err: Option<Err>): Pipe {
      if werr.Some? then this else this.(werr := Some(if err.None? then EOF else err.value))
    }

    /** reader.CloseWithError: no error stands for ErrClosedPipe, the first store wins. */
    function CloseRead(err: Option<Err>): Pipe {
      if rerr.Some? then this else this.(rerr := Some(if err.None? then ClosedPipe else err.value))
    }

    /** What Read returns once the pipe is done. */
    function ReadError(): Err {
      if rerr.None? && werr.Some? then werr.value else ClosedPipe
    }

    /** What Write returns once the pipe is done. */
    function WriteError(): Err {
      if werr.None? && rerr.Some? then rerr.value else ClosedPipe
    }
  }

  const OPEN := Pipe(None, None)

  /** Stream.Close: both halves, the writing one first. */
  function CloseBoth(p: Pipe, err: Err): Pipe {
    p.CloseWrite(Some(err)).CloseRead(Some(err))
  }

  /** Once Stream.Close has run with an error, nothing that happens to the pipe
      afterwards can make a read look like a clean end of file. */
  lemma ClosedNeverReadsEOF(p: Pipe, err: Err, werr: Option<Err>, rerr: Option<Err>)
    ensures CloseBoth(p, err).ReadError() != EOF
    ensures CloseBoth(p, err).CloseWrite(werr).CloseRead(rerr).ReadError() != EOF
    ensures CloseBoth(p, err).CloseRead(rerr).CloseWrite(werr).ReadError() != EOF
  {
  }
}
