/** Vocabulary shared by every part of the model: options, bytes and the errors
    that travel between the two halves of a stream. */
module Common {

  datatype Option<+T> = None | Some(value: T)

  newtype byte = x: int | 0 <= x < 256

  type Bytes = seq<byte>

  /** Every error value the data plane can pass around.  Failures of the network
      (deadlines, sockets, limiter) are `Env`; they are never `EOF`, which only a
      source that has delivered its last byte reports. */
  datatype Err =
    | EOF
    | ClosedPipe
    | NotFound
    | PeerNotAttached
    | AlreadyAttached
    | TooLarge
    | Cancelled
    | Env(code: nat)

  lemma PrefixTrans(a: Bytes, b: Bytes, c: Bytes)
    requires a <= b <= c
    ensures a <= c
  {
    assert c[..|a|] == b[..|a|];
  }
}
