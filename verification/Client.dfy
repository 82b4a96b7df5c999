/** The browser's side of the pipe (browser/src/client_win.cc). */
module BrowserClient {
  import opened Common
  import opened Protocol
  import opened MessagePipe
  import opened ConnectionSpec
  import opened Reassembly
  import opened ReassemblyRuns

  /** How one read goes: at once, after waiting for it, or with an error other than "more data". */
  datatype ReadMode = AtOnce | AfterWaiting | ReadFails

  /** The client's reading loop from its `i`-th read on, having read `got`: the buffer it returns and the
      pipe it leaves. */
  function ReadLoop(p: Pipe, got: Bytes, i: nat, modes: nat -> ReadMode): (r: (Bytes, Pipe))
    requires Sound(p)
    ensures Sound(r.1)
    decreases if p.msgs == [] then 0 else |p.msgs[0]| - p.off
  {
    if p.msgs == [] || modes(i) == ReadFails then ([], p)
    else
      var c := Read(p, BUFFER_SIZE);
      if !c.more then (got + c.data, c.rest) else ReadLoop(c.rest, got + c.data, i + 1, modes)
  }

  /** How one write goes; a write that fails after waiting may still have gone through. */
  datatype WriteMode = WritesAtOnce | WritesAfterWaiting | WriteRefused(err: HardError) | WriteLost(delivered: bool)

  predicate Waits(mode: WriteMode) {
    mode.WritesAfterWaiting? || mode.WriteLost?
  }

  function WriteOk(message: Bytes, mode: WriteMode): bool {
    message != [] && (mode == WritesAtOnce || mode == WritesAfterWaiting)
  }

  function Delivered(message: Bytes, mode: WriteMode): seq<Bytes> {
    if WriteOk(message, mode) || (message != [] && mode == WriteLost(true)) then [message] else []
  }

  /** The client's end of a pipe: what it can still read, and what it has written. */
  class ClientPipe {
    var incoming: Pipe
    var written: seq<Bytes>

    // A read or a write was started and not yet waited for.
    var pending: bool

    constructor (incoming: Pipe)
      requires Sound(incoming)
      ensures this.incoming == incoming && written == [] && !pending
    {
      this.incoming, written, pending := incoming, [], false;
    }

    /** What a read of `BUFFER_SIZE` bytes gives now; nothing can be read from an empty pipe. */
    method Take(mode: ReadMode) returns (ok: bool, data: Bytes, err: WinError)
      requires Sound(incoming)
      modifies this`incoming, this`pending
      ensures Sound(incoming) && !pending
      ensures var p := old(incoming);
              if p.msgs == [] || mode == ReadFails then
                !ok && data == [] && err == BrokenPipe && incoming == p
              else
                var c := Read(p, BUFFER_SIZE);
                data == c.data && incoming == c.rest && ok == !c.more && (!ok ==> err == MoreData)
    {
      pending := false;
      if incoming.msgs == [] || mode == ReadFails {
        return false, [], BrokenPipe;
      }
      var c := Read(incoming, BUFFER_SIZE);
      incoming := c.rest;
      return !c.more, c.data, if c.more then MoreData else Success;
    }

    method ReadFile(mode: ReadMode) returns (ok: bool, data: Bytes, err: WinError)
      requires Sound(incoming)
      modifies this`incoming, this`pending
      ensures Sound(incoming)
      ensures mode == AfterWaiting ==> !ok && data == [] && err == IoPending && pending && incoming == old(incoming)
      ensures mode != AfterWaiting ==>
                var p := old(incoming);
                if p.msgs == [] || mode == ReadFails then
                  !ok && data == [] && err == BrokenPipe && incoming == p
                else
                  var c := Read(p, BUFFER_SIZE);
                  data == c.data && incoming == c.rest && ok == !c.more && (!ok ==> err == MoreData)
    {
      if mode == AfterWaiting {
        pending := true;
        return false, [], IoPending;
      }
      ok, data, err := Take(mode);
    }

    method WriteFile(message: Bytes, mode: WriteMode) returns (ok: bool, err: WinError)
      requires message != []
      modifies this`written, this`pending
      ensures ok <==> mode.WritesAtOnce?
      ensures written == old(written) + if ok then [message] else []
      ensures !ok ==> (err == IoPending <==> Waits(mode)) && (pending <==> Waits(mode))
    {
      pending := false;
      match mode {
        case WritesAtOnce =>
          written := written + [message];
          return true, Success;
        case WriteRefused(e) =>
          return false, e;
        case _ =>
          pending := true;
          return false, IoPending;
      }
    }

    /** `GetOverlappedResult` with waiting. */
    method FinishWrite(message: Bytes, mode: WriteMode) returns (ok: bool)
      requires message != [] && pending && Waits(mode)
      modifies this`written, this`pending
      ensures !pending && (ok <==> mode.WritesAfterWaiting?)
      ensures written == old(written) + if ok || mode == WriteLost(true) then [message] else []
    {
      pending := false;
      ok := mode.WritesAfterWaiting?;
      if ok || mode.delivered {
        written := written + [message];
      }
    }
  }

  /** `resize` to the `int` that a count of bytes becomes: it throws for a negative one. */
  function Sized(bytes: Bytes): Option<Bytes> {
    var n := ToDword(|bytes|);
    if n <= MAX_INT then Some(bytes[..n]) else None
  }

  lemma SizesAdd(a: nat, b: nat)
    ensures ToDword(ToDword(a) + b) == ToDword(a + b)
  {
  }

  /** A message of less than 2 GiB comes through as it is; a longer one that one write can send throws. */
  lemma SizedIff(message: Bytes)
    requires |message| < DWORDS
    ensures Sized(message) == Some(message) <==> |message| <= MAX_INT
    ensures Sized(message).None? <==> |message| > MAX_INT
  {
    if |message| <= MAX_INT {
      assert message[..|message|] == message;
    }
  }

  lemma StoredAfter(buffer: Bytes, got: Bytes, data: Bytes)
    requires |got| + |data| <= |buffer| && buffer[..|got|] == got
    ensures Overwrite(buffer, |got|, data)[..|got| + |data|] == got + data
  {
  }

  lemma LoopTurn(p: Pipe, got: Bytes, i: nat, modes: nat -> ReadMode)
    requires Sound(p)
    ensures ReadLoop(p, got, i, modes)
         == if p.msgs == [] || modes(i) == ReadFails then ([], p)
            else
              var c := Read(p, BUFFER_SIZE);
              if c.more then ReadLoop(c.rest, got + c.data, i + 1, modes) else (got + c.data, c.rest)
  {
  }

  /** `None` stands for the exception of `resize`. */
  method ReadNextMessageFromPipe(pipe: ClientPipe, modes: nat -> ReadMode) returns (result: Option<Bytes>)
    requires Sound(pipe.incoming)
    modifies pipe`incoming, pipe`pending
    ensures Sound(pipe.incoming)
    ensures var loop := ReadLoop(old(pipe.incoming), [], 0, modes);
            pipe.incoming == loop.1 && result == Sized(loop.0)
  {
    hide ToDword;
    hide ReadLoop;
    hide Read;
    var buffer := Zeros(BUFFER_SIZE);
    // `finalSize` holds the bits of the source's `int`.
    var p, finalSize, calls := 0, 0, 0;
    ghost var got: Bytes := [];
    while true
      invariant Sound(pipe.incoming)
      invariant p == |got| && finalSize == ToDword(|got|) && |buffer| == p + BUFFER_SIZE && buffer[..p] == got
      invariant ReadLoop(old(pipe.incoming), [], 0, modes) == ReadLoop(pipe.incoming, got, calls, modes)
      decreases if pipe.incoming.msgs == [] then 0 else |pipe.incoming.msgs[0]| - pipe.incoming.off
    {
      LoopTurn(pipe.incoming, got, calls, modes);
      var ok, data, err := pipe.ReadFile(modes(calls));
      if !ok && err == IoPending {
        ok, data, err := pipe.Take(modes(calls));
      }
      // The operating system has stored the bytes at `p`.
      StoredAfter(buffer, got, data);
      buffer := Overwrite(buffer, p, data);
      SizesAdd(|got|, |data|);
      if ok {
        finalSize := ToDword(finalSize + |data|);
        got := got + data;
        break;
      }
      if err != MoreData {
        finalSize := 0;
        got := [];
        break;
      }
      finalSize := ToDword(finalSize + |data|);
      got := got + data;
      buffer := Resize(buffer, |buffer| + BUFFER_SIZE);
      p := |buffer| - BUFFER_SIZE;
      calls := calls + 1;
    }
    if finalSize > MAX_INT {
      return None;
    }
    result := Some(Resize(buffer, finalSize));
    assert result.value == got[..finalSize];
  }

  datatype SendOutcome = ReturnsZero(response: Response) | ReturnsMinusOne | Throws

  class ClientWin {
    const pipe: ClientPipe
    const codec: Codec

    constructor (pipe: ClientPipe, codec: Codec)
      ensures this.pipe == pipe && this.codec == codec
    {
      this.pipe, this.codec := pipe, codec;
    }

    method WriteMessageToPipe(message: Bytes, mode: WriteMode) returns (ok: bool)
      modifies pipe`written, pipe`pending
      ensures ok == WriteOk(message, mode)
      ensures ok <==> message != [] && (mode == WritesAtOnce || mode == WritesAfterWaiting)
      ensures pipe.written == old(pipe.written) + Delivered(message, mode)
      ensures pipe.written == old(pipe.written)
                              + if ok || (message != [] && mode == WriteLost(true)) then [message] else []
    {
      if message == [] {
        return false;
      }
      var err: WinError;
      ok, err := pipe.WriteFile(message, mode);
      if !ok {
        if err == IoPending {
          ok := pipe.FinishWrite(message, mode);
        }
      }
    }

    /** `overlapped` is whether the event of the I/O could be created. */
    method Send(request: Request, overlapped: bool, mode: WriteMode, modes: nat -> ReadMode)
      returns (outcome: SendOutcome)
      requires Sound(pipe.incoming)
      modifies pipe
      ensures Sound(pipe.incoming)
      ensures outcome == SendResult(codec, old(pipe.incoming), request, overlapped, mode, modes)
      ensures var message := codec.putRequest(ChromeToAgent(Some(request), None, None));
              && pipe.written == old(pipe.written) + (if overlapped then Delivered(message, mode) else [])
              && pipe.incoming == if overlapped && WriteOk(message, mode)
                                  then ReadLoop(old(pipe.incoming), [], 0, modes).1 else old(pipe.incoming)
    {
      var message := codec.putRequest(ChromeToAgent(Some(request), None, None));
      if !overlapped {
        return ReturnsMinusOne;
      }
      var success := WriteMessageToPipe(message, mode);
      if success {
        var buffer := ReadNextMessageFromPipe(pipe, modes);
        if buffer.None? {
          return Throws;
        }
        var response := ResponseIn(codec, buffer.value);
        if response.Some? {
          return ReturnsZero(response.value);
        }
      }
      outcome := ReturnsMinusOne;
    }

    method Acknowledge(ack: Acknowledgement, overlapped: bool, mode: WriteMode) returns (code: int)
      modifies pipe`written, pipe`pending
      ensures var message := codec.putRequest(ChromeToAgent(None, Some(ack), None));
              && (code == 0 || code == -1)
              && (code == 0 <==> overlapped && message != [] && (mode == WritesAtOnce || mode == WritesAfterWaiting))
              && pipe.written == old(pipe.written) + if overlapped then Delivered(message, mode) else []
    {
      if !overlapped {
        return -1;
      }
      var ok := WriteMessageToPipe(codec.putRequest(ChromeToAgent(None, Some(ack), None)), mode);
      code := if ok then 0 else -1;
    }

    method CancelRequests(cancel: CancelRequests, overlapped: bool, mode: WriteMode) returns (code: int)
      modifies pipe`written, pipe`pending
      ensures var message := codec.putRequest(ChromeToAgent(None, None, Some(cancel)));
              && (code == 0 || code == -1)
              && (code == 0 <==> overlapped && message != [] && (mode == WritesAtOnce || mode == WritesAfterWaiting))
              && pipe.written == old(pipe.written) + if overlapped then Delivered(message, mode) else []
    {
      if !overlapped {
        return -1;
      }
      var ok := WriteMessageToPipe(codec.putRequest(ChromeToAgent(None, None, Some(cancel))), mode);
      code := if ok then 0 else -1;
    }
  }

  /** What Send makes of a message: an empty or unparsable one is no answer, and a message without a
      response reads as an empty response. */
  function ResponseIn(codec: Codec, message: Bytes): Option<Response> {
    if message == [] then None
    else
      match codec.parseResponse(message)
      case None => None
      case Some(m) => Some(if m.response.Some? then m.response.value else Response("", []))
  }

  function SendResult(codec: Codec, incoming: Pipe, request: Request, overlapped: bool, mode: WriteMode,
                      modes: nat -> ReadMode): SendOutcome
    requires Sound(incoming)
  {
    if overlapped && WriteOk(codec.putRequest(ChromeToAgent(Some(request), None, None)), mode) then
      match Sized(ReadLoop(incoming, [], 0, modes).0)
      case None => Throws
      case Some(message) =>
        match ResponseIn(codec, message)
        case None => ReturnsMinusOne
        case Some(response) => ReturnsZero(response)
    else ReturnsMinusOne
  }

  /** Reads the client needs for a message of which `n` bytes are left. */
  function ClientReads(n: nat): nat {
    Max(1, CeilDiv(n, BUFFER_SIZE))
  }

  /** From any point of a message the loop reads its rest, unless one of the reads that takes fails. */
  lemma {:induction false} LoopReads(p: Pipe, got: Bytes, i: nat, modes: nat -> ReadMode)
    requires Sound(p) && p.msgs != [] && p.off <= |p.msgs[0]|
    ensures var n := ClientReads(|p.msgs[0]| - p.off);
            var r := ReadLoop(p, got, i, modes);
            if forall k :: i <= k < i + n ==> modes(k) != ReadFails
            then r == (got + p.msgs[0][p.off..], Pipe(p.msgs[1..], 0))
            else r.0 == [] && r.1.msgs == p.msgs
    decreases |p.msgs[0]| - p.off
  {
    var m := p.msgs[0];
    var left := |m| - p.off;
    var c := Read(p, BUFFER_SIZE);
    ReadsLeft(left);
    if modes(i) == ReadFails {
    } else if c.more {
      assert ReadLoop(p, got, i, modes) == ReadLoop(c.rest, got + c.data, i + 1, modes);
      LoopReads(c.rest, got + c.data, i + 1, modes);
      hide ReadLoop;
      hide ClientReads;
      assert got + c.data + m[p.off + BUFFER_SIZE..] == got + m[p.off..];
    } else {
      assert c.data == m[p.off..];
    }
  }

  lemma ReadsLeft(left: nat)
    ensures left <= BUFFER_SIZE ==> ClientReads(left) == 1
    ensures left > BUFFER_SIZE ==> ClientReads(left) == 1 + ClientReads(left - BUFFER_SIZE)
    ensures ClientReads(left) >= 1
  {
  }

  /** The client returns exactly the next message and consumes exactly it, unless one of the reads that
      message needs fails; then it returns nothing and the message stays, perhaps half read. */
  lemma ReadsExactlyOneMessage(p: Pipe, modes: nat -> ReadMode)
    requires Sound(p) && p.msgs != [] && p.off == 0
    ensures var m := p.msgs[0];
            var r := ReadLoop(p, [], 0, modes);
            var fails := exists k :: 0 <= k < ClientReads(|m|) && modes(k) == ReadFails;
            && (!fails <==> r == (m, Pipe(p.msgs[1..], 0)))
            && (fails <==> r.1.msgs == p.msgs)
            && (fails ==> r.0 == [])
  {
    LoopReads(p, [], 0, modes);
    assert [] + p.msgs[0][0..] == p.msgs[0];
    assert |p.msgs[1..]| != |p.msgs|;
  }

  /** What is left of the first message. */
  function Unread(p: Pipe): Bytes
    requires Sound(p)
  {
    if p.msgs == [] then [] else p.msgs[0][p.off..]
  }

  /** There is a message, and none of the reads it needs fails. */
  predicate Readable(p: Pipe, modes: nat -> ReadMode)
    requires Sound(p)
  {
    p.msgs != [] && forall k :: 0 <= k < ClientReads(|Unread(p)|) ==> modes(k) != ReadFails
  }

  lemma LoopReturns(p: Pipe, modes: nat -> ReadMode)
    requires Sound(p)
    ensures ReadLoop(p, [], 0, modes).0 == if Readable(p, modes) then Unread(p) else []
  {
    if p.msgs != [] {
      LoopReads(p, [], 0, modes);
      hide ReadLoop;
      hide ClientReads;
      assert [] + Unread(p) == Unread(p);
      assert 0 + ClientReads(|Unread(p)|) == ClientReads(|Unread(p)|);
    }
  }

  /** Send returns 0 with a response exactly if its request could be written, the next message can be read, and
      that message holds this response (none reads as an empty one); it throws exactly if the message is one
      whose size is negative as an `int`. */
  lemma SendReturnsIff(codec: Codec, p: Pipe, request: Request, overlapped: bool, mode: WriteMode,
                       modes: nat -> ReadMode, r: Response)
    requires Sound(p) && |Unread(p)| < DWORDS
    ensures var message := codec.putRequest(ChromeToAgent(Some(request), None, None));
            var asked := overlapped && message != [] && (mode == WritesAtOnce || mode == WritesAfterWaiting);
            var m := Unread(p);
            var outcome := SendResult(codec, p, request, overlapped, mode, modes);
            && (outcome == ReturnsZero(r) <==>
                  && asked && Readable(p, modes) && 0 < |m| <= MAX_INT
                  && (|| codec.parseResponse(m) == Some(AgentToChrome(Some(r)))
                      || (codec.parseResponse(m) == Some(AgentToChrome(None)) && r == Response("", []))))
            && (outcome == Throws <==> asked && Readable(p, modes) && |m| > MAX_INT)
  {
    LoopReturns(p, modes);
    hide ReadLoop;
    hide Readable;
    hide Sized;
    SizedIff(Unread(p));
    SizedIff([]);
    var m := Unread(p);
    assert codec.parseResponse(m).Some? ==>
        codec.parseResponse(m).value == AgentToChrome(codec.parseResponse(m).value.response);
  }

  /** So the agent's response is what Send returns when it is the next message. */
  lemma SendReturnsTheAnswer(codec: Codec, p: Pipe, request: Request, mode: WriteMode, modes: nat -> ReadMode, r: Response)
    requires Lawful(codec) && Sound(p) && p.off == 0 && p.msgs != []
    requires p.msgs[0] == codec.putResponse(AgentToChrome(Some(r))) != []
    requires codec.putRequest(ChromeToAgent(Some(request), None, None)) != [] && mode in {WritesAtOnce, WritesAfterWaiting}
    requires Readable(p, modes)
    ensures SendResult(codec, p, request, true, mode, modes) == ReturnsZero(r)
  {
    assert Unread(p) == p.msgs[0];
    SendReturnsIff(codec, p, request, true, mode, modes, r);
  }

  /** The two readers, one growing a reused buffer across callbacks and one looping in place, make the same
      bytes of the same next message and leave the same pipe, whether reads complete at once or pend. */
  lemma BothReadersAgree(s: Session, queued: nat -> ApiResult, parse: Parser, modes: nat -> ReadMode)
    requires Assembling(s.conn, s.pipe) && s.pipe.off == 0 && s.pipe.msgs != [] && |s.pipe.msgs[0]| <= MAX_INT
    requires KeepsReading(queued) && forall k :: modes(k) != ReadFails
    ensures var t := Repeat(s, 0, ReadsFor(|s.conn.buffer|, |s.pipe.msgs[0]|), queued, parse);
            var r := ReadLoop(s.pipe, [], 0, modes);
            t.delivered == s.delivered + [r.0] && t.pipe == r.1
  {
    hide HandleEvent;
    hide ReadLoop;
    hide Repeat;
    MessageTakes(s, 0, ReadsFor(|s.conn.buffer|, |s.pipe.msgs[0]|), queued, parse);
    ReadsExactlyOneMessage(s.pipe, modes);
  }
}
