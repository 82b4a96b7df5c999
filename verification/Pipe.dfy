/** One direction of a message-mode named pipe. */
module MessagePipe {
  import opened Common

  /** `off` bytes of the first message have been read; `msgs` are the messages not yet wholly read. */
  datatype Pipe = Pipe(msgs: seq<Bytes>, off: nat)

  const EMPTY_PIPE := Pipe([], 0)

  predicate Sound(p: Pipe) {
    if p.msgs == [] then p.off == 0 else p.off == 0 || p.off < |p.msgs[0]|
  }

  /** Whole messages go in. */
  function Put(p: Pipe, m: Bytes): Pipe {
    p.(msgs := p.msgs + [m])
  }

  /** `more` means that the message has further bytes ("more data"). */
  datatype Chunk = Chunk(data: Bytes, more: bool, rest: Pipe)

  /** A read of `n` bytes never crosses the end of the first message. */
  function Read(p: Pipe, n: nat): (c: Chunk)
    requires Sound(p) && p.msgs != []
    ensures Sound(c.rest)
    ensures |c.data| <= n
    ensures p.off + |c.data| <= |p.msgs[0]| && c.data == p.msgs[0][p.off..p.off + |c.data|]
    ensures c.more <==> |p.msgs[0]| - p.off > n
    ensures c.more ==> |c.data| == n && c.rest == Pipe(p.msgs, p.off + n)
    ensures !c.more ==> p.off + |c.data| == |p.msgs[0]| && c.rest == Pipe(p.msgs[1..], 0)
  {
    var m := p.msgs[0];
    if |m| - p.off <= n then Chunk(m[p.off..], false, Pipe(p.msgs[1..], 0))
    else Chunk(m[p.off..p.off + n], true, Pipe(p.msgs, p.off + n))
  }
}
