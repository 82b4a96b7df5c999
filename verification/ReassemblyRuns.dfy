/** Whole sessions: any writes by the browser interleaved with any read completions. */
module ReassemblyRuns {
  import opened Common
  import opened Protocol
  import opened ResponseEdits
  import opened MessagePipe
  import opened ConnectionSpec
  import opened Sessions
  import opened Reassembly

  /** `written` is all the browser wrote, `delivered` all that was handed to the parser, and `handled` the
      requests, acknowledgements and cancellations handed to the handler. */
  datatype Session = Session(
    conn: Conn, pipe: Pipe, written: seq<Bytes>, delivered: seq<Bytes>, handled: seq<Callback>)

  /** The error of a read that failed for good. */
  type ReadError = e: WinError | !e.Success? && !e.IoPending? && !e.MoreData? witness BrokenPipe

  /** `read` says how queueing the next read went: at once, pending, more data, or an error. A read that
      breaks may still have stored something. */
  datatype Act = Write(message: Bytes) | Complete(read: ApiResult) | Break(err: ReadError, data: Bytes)

  function Step(s: Session, act: Act, parse: Parser): (t: Session)
    requires Sound(s.pipe)
    ensures Sound(t.pipe)
  {
    match act
    case Write(m) => s.(pipe := Put(s.pipe, m), written := s.written + [m])
    case Complete(read) =>
      if !s.conn.connected || s.pipe.msgs == [] then s
      else
        var o := ReadNext(s.conn, s.pipe, read, parse);
        s.(conn := o.conn, pipe := Read(s.pipe, s.conn.readSize).rest, delivered := s.delivered + Parsed(o.calls),
           handled := s.handled + Picked(o.calls, Brought))
    case Break(err, data) =>
      if !s.conn.connected then s
      else
        var o := HandleEvent(s.conn, Failed(err, data), PidFails, Done, parse);
        s.(conn := o.conn, delivered := s.delivered + Parsed(o.calls), handled := s.handled + Picked(o.calls, Brought))
  }

  function Run(s: Session, acts: seq<Act>, parse: Parser): (t: Session)
    requires Sound(s.pipe)
    ensures Sound(t.pipe)
  {
    if acts == [] then s else Step(Run(s, acts[..|acts| - 1], parse), acts[|acts| - 1], parse)
  }

  /** A session just begun, with a browser that may already have written. */
  predicate Begun(s: Session) {
    && s.pipe == Pipe(s.written, 0) && s.delivered == [] && s.handled == []
    && |s.conn.buffer| == BUFFER_SIZE && Assembling(s.conn, s.pipe)
  }

  /** A listening connection whose browser is accepted begins such a session. */
  lemma AcceptBegins(c: Conn, info: BrowserInfo, read: ApiResult, parse: Parser, msgs: seq<Bytes>)
    requires Quiet(c) && c.operation == Listening && Fine(ApiCode(read))
    ensures var o := HandleEvent(c, Succeeded([]), Found(info), read, parse);
            && o.rc == Ok && o.calls == [BrowserConnected(c.handle, info)]
            && Begun(Session(o.conn, Pipe(msgs, 0), msgs, [], []))
  {
    var r := Receive(c, Succeeded([]), Found(info), parse);
    assert r.calls == [BrowserConnected(c.handle, info)];
    assert |r.conn.buffer| == BUFFER_SIZE;
  }

  function Longest(msgs: seq<Bytes>): nat {
    if msgs == [] then 0 else Max(Longest(msgs[..|msgs| - 1]), |msgs[|msgs| - 1]|)
  }

  /** The multiple of 4096 that holds a message of length `n`, at least one buffer. */
  function BufferFor(n: nat): nat {
    BUFFER_SIZE * Max(1, CeilDiv(n, BUFFER_SIZE))
  }

  /** Buffer size between and within messages. */
  predicate Sized(s: Session) {
    if s.pipe.off == 0 then |s.conn.buffer| == BufferFor(Longest(s.delivered))
    else |s.conn.buffer| == s.pipe.off + BUFFER_SIZE && s.pipe.off >= BufferFor(Longest(s.delivered))
  }

  /** Every message written was delivered or is still in the pipe, except a last one of 2^31 bytes or more,
      whose arrival ended the session. */
  predicate Accounted(s: Session) {
    || s.written == s.delivered + s.pipe.msgs
    || (&& !s.conn.connected && |s.delivered| < |s.written| && |s.written[|s.delivered|]| > MAX_INT
        && s.written == s.delivered + [s.written[|s.delivered|]] + s.pipe.msgs)
  }

  predicate Tracks(s: Session) {
    && Sound(s.pipe)
    && Accounted(s)
    && (s.conn.connected ==> s.written == s.delivered + s.pipe.msgs && AllParsable(s.delivered))
    && (s.conn.connected ==> Assembling(s.conn, s.pipe) && Sized(s))
  }

  predicate AllParsable(msgs: seq<Bytes>) {
    forall k :: 0 <= k < |msgs| ==> |msgs[k]| <= MAX_INT
  }

  ghost predicate AllWithin(msgs: seq<Bytes>, bound: nat) {
    forall k :: 0 <= k < |msgs| ==> |msgs[k]| <= bound
  }

  lemma BufferIsLeast(n: nat, k: nat)
    requires k >= 1 && (k == 1 || BUFFER_SIZE * (k - 1) < n) && n <= BUFFER_SIZE * k
    ensures BufferFor(n) == BUFFER_SIZE * k
  {
    assert n >= 1 ==> CeilDiv(n, BUFFER_SIZE) == k;
  }

  lemma BufferHolds(n: nat) returns (k: nat)
    ensures k >= 1 && BufferFor(n) == BUFFER_SIZE * k
    ensures (k == 1 || BUFFER_SIZE * (k - 1) < n) && n <= BUFFER_SIZE * k
  {
    k := Max(1, CeilDiv(n, BUFFER_SIZE));
  }

  lemma BufferArithmetic(longest: nat, off: nat, n: nat)
    requires off % BUFFER_SIZE == 0
    ensures BufferFor(longest) % BUFFER_SIZE == 0
    ensures off >= BufferFor(longest) && off < n <= off + BUFFER_SIZE ==> BufferFor(Max(longest, n)) == off + BUFFER_SIZE
    ensures n <= BufferFor(longest) ==> BufferFor(Max(longest, n)) == BufferFor(longest)
    ensures longest <= MAX_INT ==> BufferFor(longest) <= MAX_INT + 1
  {
    hide BufferFor;
    var k := BufferHolds(longest);
    if off >= BufferFor(longest) && off < n <= off + BUFFER_SIZE {
      BufferIsLeast(Max(longest, n), off / BUFFER_SIZE + 1);
    }
    if n <= BufferFor(longest) {
      BufferIsLeast(Max(longest, n), k);
    }
  }

  lemma {:induction false} LongestWithin(msgs: seq<Bytes>)
    requires AllParsable(msgs)
    ensures Longest(msgs) <= MAX_INT
  {
    if msgs != [] {
      LongestWithin(msgs[..|msgs| - 1]);
    }
  }

  lemma CompleteMore(s: Session, read: ApiResult, parse: Parser)
    requires Tracks(s) && s.conn.connected && s.pipe.msgs != [] && |s.pipe.msgs[0]| < DWORDS
    requires Read(s.pipe, s.conn.readSize).more
    ensures Tracks(Step(s, Complete(read), parse))
  {
    hide HandleEvent;
    var t := Step(s, Complete(read), parse);
    ReadMore(s.conn, s.pipe, read, parse);
    assert t.delivered == s.delivered;
    assert t.pipe.off == |s.conn.buffer|;
  }

  lemma OffsetIsAligned(c: Conn, p: Pipe)
    requires Assembling(c, p)
    ensures p.off % BUFFER_SIZE == 0
    ensures p.off > 0 ==> |c.buffer| == p.off + BUFFER_SIZE
    ensures p.msgs != [] && !Read(p, c.readSize).more ==> |p.msgs[0]| <= |c.buffer|
  {
  }

  lemma LongestPush(msgs: seq<Bytes>, m: Bytes)
    ensures Longest(msgs + [m]) == Max(Longest(msgs), |m|)
  {
    assert (msgs + [m])[..|msgs|] == msgs;
  }

  lemma CompleteLast(s: Session, read: ApiResult, parse: Parser)
    requires Tracks(s) && s.conn.connected && s.pipe.msgs != [] && |s.pipe.msgs[0]| < DWORDS
    requires !Read(s.pipe, s.conn.readSize).more
    ensures Tracks(Step(s, Complete(read), parse))
  {
    hide HandleEvent;
    hide BufferFor;
    hide Assembling;
    hide Longest;
    hide Picked;
    var m := s.pipe.msgs[0];
    var t := Step(s, Complete(read), parse);
    OffsetIsAligned(s.conn, s.pipe);
    BufferArithmetic(Longest(s.delivered), s.pipe.off, |m|);
    ReadLast(s.conn, s.pipe, read, parse);
    hide Dispatch;
    LongestPush(s.delivered, m);
    TakeFirst(s.delivered, s.pipe.msgs);
    assert s.delivered + [] == s.delivered;
  }

  lemma TakeFirst(delivered: seq<Bytes>, msgs: seq<Bytes>)
    requires msgs != []
    ensures delivered + msgs == delivered + [msgs[0]] + msgs[1..]
    ensures (delivered + msgs)[|delivered|] == msgs[0]
  {
  }

  lemma CompleteTracks(s: Session, read: ApiResult, parse: Parser)
    requires Tracks(s) && AllWithin(s.written, DWORDS - 1)
    ensures Tracks(Step(s, Complete(read), parse))
  {
    if s.conn.connected && s.pipe.msgs != [] {
      assert s.pipe.msgs[0] == s.written[|s.delivered|];
      if Read(s.pipe, s.conn.readSize).more {
        CompleteMore(s, read, parse);
      } else {
        CompleteLast(s, read, parse);
      }
    }
  }

  /** A broken read ends the session and brings nothing. */
  lemma BreakEnds(s: Session, err: ReadError, data: Bytes, parse: Parser)
    requires Sound(s.pipe)
    ensures var t := Step(s, Break(err, data), parse);
            && !t.conn.connected
            && t.delivered == s.delivered && t.handled == s.handled && t.pipe == s.pipe && t.written == s.written
  {
    if s.conn.connected {
      var o := HandleEvent(s.conn, Failed(err, data), PidFails, Done, parse);
      BreakCalls(s.conn, err, data, parse);
      hide HandleEvent;
      NothingPicked(o.calls, ParserInput);
      NothingPicked(o.calls, Brought);
      hide Picked;
    }
  }

  lemma BreakTracks(s: Session, err: ReadError, data: Bytes, parse: Parser)
    requires Tracks(s)
    ensures Tracks(Step(s, Break(err, data), parse))
  {
    hide Assembling;
    hide Sized;
    BreakEnds(s, err, data, parse);
    hide Step;
  }

  lemma BreakCalls(c: Conn, err: ReadError, data: Bytes, parse: Parser)
    requires c.connected
    ensures var o := HandleEvent(c, Failed(err, data), PidFails, Done, parse);
            && !o.conn.connected
            && forall k :: 0 <= k < |o.calls| ==> o.calls[k].InternalError? || o.calls[k].BrowserDisconnected?
  {
    var r := Receive(c, Failed(err, data), PidFails, parse);
    assert r.rc == ErrorToResultCode(err) && !Fine(r.rc);
  }

  lemma WriteTracks(s: Session, m: Bytes, parse: Parser)
    requires Tracks(s)
    ensures Tracks(Step(s, Write(m), parse))
  {
    hide BufferFor;
    var t := Step(s, Write(m), parse);
    if s.written == s.delivered + s.pipe.msgs {
      assert t.written == t.delivered + t.pipe.msgs;
    } else {
      var last := s.written[|s.delivered|];
      assert t.written == t.delivered + [last] + t.pipe.msgs && t.written[|t.delivered|] == last;
    }
  }

  lemma StepExtends(s: Session, act: Act, parse: Parser, bound: nat)
    requires Sound(s.pipe) && AllWithin(Step(s, act, parse).written, bound)
    ensures AllWithin(s.written, bound)
  {
    hide ReadNext;
    var t := Step(s, act, parse);
    assert forall k :: 0 <= k < |s.written| ==> s.written[k] == t.written[k];
  }

  // ---- What reaches the handler ----

  /** What a list of messages brings to the handler, one after the other. */
  function BringsAll(c: Conn, msgs: seq<Bytes>, parse: Parser): seq<Callback> {
    if msgs == [] then [] else BringsAll(c, msgs[..|msgs| - 1], parse) + Brings(c, msgs[|msgs| - 1], parse)
  }

  /** The handler got what the delivered messages bring on the connection as it was first. */
  predicate HandlerGot(s: Session, first: Conn, parse: Parser) {
    && s.handled == BringsAll(first, s.delivered, parse)
    && (s.conn.connected ==> SameSession(first, s.conn))
  }

  lemma BringsOneMore(c: Conn, msgs: seq<Bytes>, m: Bytes, parse: Parser)
    ensures BringsAll(c, msgs + [m], parse) == BringsAll(c, msgs, parse) + Brings(c, m, parse)
  {
    assert (msgs + [m])[..|msgs|] == msgs;
  }

  lemma OversizedBringsNothing(c: Conn, m: Bytes, parse: Parser)
    requires |m| > MAX_INT
    ensures Brings(c, m, parse) == [] && Dispatch(c, ParseWhole(m, parse)).0 != Ok
  {
    NothingPicked(HandlerCalls(c, m, parse), Brought);
  }

  lemma CompleteBrings(s: Session, first: Conn, read: ApiResult, parse: Parser)
    requires Tracks(s) && AllWithin(s.written, DWORDS - 1) && HandlerGot(s, first, parse)
    ensures HandlerGot(Step(s, Complete(read), parse), first, parse)
  {
    hide HandleEvent;
    hide Picked;
    hide BringsAll;
    hide HandlerCalls;
    hide Sized;
    var t := Step(s, Complete(read), parse);
    assert s.delivered + [] == s.delivered && s.handled + [] == s.handled;
    if s.conn.connected && s.pipe.msgs != [] {
      var m := s.pipe.msgs[0];
      assert m == s.written[|s.delivered|];
      ReadPicks(s.conn, s.pipe, read, parse, Brought);
      if Read(s.pipe, s.conn.readSize).more {
        ReadMore(s.conn, s.pipe, read, parse);
      } else {
        ReadLast(s.conn, s.pipe, read, parse);
        SameSessionSameCalls(first, s.conn, m, parse);
        BringsOneMore(first, s.delivered, m, parse);
        if |m| > MAX_INT {
          OversizedBringsNothing(s.conn, m, parse);
        }
      }
    }
  }

  lemma {:induction false} RunTracks(s: Session, acts: seq<Act>, parse: Parser)
    requires Begun(s) && AllWithin(Run(s, acts, parse).written, DWORDS - 1)
    ensures Tracks(Run(s, acts, parse)) && HandlerGot(Run(s, acts, parse), s.conn, parse)
    decreases acts
  {
    hide Step;
    hide Assembling;
    hide Sized;
    if acts == [] {
      assert s.written == s.delivered + s.pipe.msgs;
      BeginSized(s);
    } else {
      var front, act := acts[..|acts| - 1], acts[|acts| - 1];
      var t := Run(s, front, parse);
      StepExtends(t, act, parse, DWORDS - 1);
      RunTracks(s, front, parse);
      hide Tracks;
      match act {
        case Write(m) =>
          WriteTracks(t, m, parse);
          WriteBrings(t, m, parse);
        case Complete(read) =>
          CompleteTracks(t, read, parse);
          CompleteBrings(t, s.conn, read, parse);
        case Break(err, data) =>
          BreakTracks(t, err, data, parse);
          BreakEnds(t, err, data, parse);
      }
    }
  }

  lemma BeginSized(s: Session)
    requires Begun(s)
    ensures Sized(s)
  {
  }

  lemma WriteBrings(s: Session, m: Bytes, parse: Parser)
    requires Sound(s.pipe)
    ensures var t := Step(s, Write(m), parse);
            t.handled == s.handled && t.delivered == s.delivered && t.conn == s.conn
  {
  }

  /** Reassembly refines the list of messages written: in every run, with every mix of immediate, pending,
      partial and broken reads, what the parser was given is exactly the first messages written, each whole
      and once, and the rest is still in the pipe; only a message of 2^31 bytes or more is withheld, and
      that ends the session. The handler was given exactly the requests, acknowledgements and cancellations
      in the delivered messages, in order, as of this connection and browser; and the buffer never comes
      near the size at which its `DWORD` would wrap. A single write is of less than 2^32 bytes. */
  lemma RunRefines(s: Session, acts: seq<Act>, parse: Parser)
    requires Begun(s) && AllWithin(Run(s, acts, parse).written, DWORDS - 1)
    ensures var t := Run(s, acts, parse);
            && Accounted(t)
            && (t.conn.connected || AllParsable(t.written) ==> t.written == t.delivered + t.pipe.msgs)
            && t.handled == BringsAll(s.conn, t.delivered, parse)
            && (t.conn.connected && t.pipe.off == 0 ==>
                  && |t.conn.buffer| == BufferFor(Longest(t.delivered)) <= MAX_INT + 1
                  && t.conn.readSize == |t.conn.buffer|)
            && (t.conn.connected ==> |t.conn.buffer| <= DWORDS)
  {
    hide BufferFor;
    hide BringsAll;
    hide Longest;
    RunTracks(s, acts, parse);
    var t := Run(s, acts, parse);
    hide Run;
    if t.conn.connected {
      LongestWithin(t.delivered);
      BufferArithmetic(Longest(t.delivered), 0, 0);
    }
  }

  // ---- Serialised messages ----

  /** A message the agent accepts: a request with a token, or else an acknowledgement or a cancellation. */
  predicate Acceptable(m: ChromeToAgent) {
    NamedRequest(Some(m)) || (m.request.None? && (m.ack.Some? || m.cancel.Some?))
  }

  /** The one handler call it asks for; a request outranks an acknowledgement, and that a cancellation. */
  function CallFor(c: Conn, m: ChromeToAgent): Callback
    requires Acceptable(m)
  {
    if m.request.Some? then
      AnalysisRequested(AnalysisEvent(c.id, c.handle, c.info, m.request.value,
                                      Response(m.request.value.token, [FirstResult(m.request.value.tags)])))
    else if m.ack.Some? then ResponseAcknowledged(m.ack.value)
    else CancelRequested(m.cancel.value)
  }

  /** A new response claims success for the request's first tag. */
  function FirstResult(tags: seq<string>): Result {
    Result(if |tags| > 0 && tags[0] != "" then Some(tags[0]) else None, Some(StatusSuccess), [])
  }

  function Encoded(codec: Codec, ms: seq<ChromeToAgent>): (b: seq<Bytes>)
    ensures |b| == |ms|
  {
    seq(|ms|, k requires 0 <= k < |ms| => codec.putRequest(ms[k]))
  }

  function CallsFor(c: Conn, ms: seq<ChromeToAgent>): (calls: seq<Callback>)
    requires forall k :: 0 <= k < |ms| ==> Acceptable(ms[k])
    ensures |calls| == |ms|
  {
    seq(|ms|, k requires 0 <= k < |ms| => CallFor(c, ms[k]))
  }

  lemma MessageBrings(c: Conn, codec: Codec, m: ChromeToAgent)
    requires Lawful(codec) && Acceptable(m) && codec.putRequest(m) != []
    ensures Brings(c, codec.putRequest(m), codec.parseRequest) == [CallFor(c, m)]
  {
    var calls := HandlerCalls(c, codec.putRequest(m), codec.parseRequest);
    assert codec.parseRequest(codec.putRequest(m)) == Some(m);
    if m.request.Some? {
      var r := InitResponse(m.request.value).value;
      assert r.results == [r.results[0]];
    }
    assert calls == [CallFor(c, m)];
    assert calls[1..] == [];
    assert Picked(calls, Brought) == [calls[0]] + Picked(calls[1..], Brought);
  }

  /** However the next read is queued, reading the last part of a message keeps the session exactly if the
      read can be queued and the message is acceptable and small enough for the parser. */
  lemma SessionSurvivesIff(c: Conn, p: Pipe, read: ApiResult, parse: Parser)
    requires Assembling(c, p) && p.msgs != [] && |p.msgs[0]| < DWORDS && !Read(p, c.readSize).more
    ensures var message := parse(p.msgs[0]);
            ReadNext(c, p, read, parse).conn.connected
            <==> Fine(ApiCode(read)) && |p.msgs[0]| <= MAX_INT && message.Some? && Acceptable(message.value)
  {
    hide HandleEvent;
    ReadLast(c, p, read, parse);
  }

  lemma {:induction false} EncodedBring(c: Conn, codec: Codec, ms: seq<ChromeToAgent>)
    requires Lawful(codec) && forall k :: 0 <= k < |ms| ==> Acceptable(ms[k]) && codec.putRequest(ms[k]) != []
    ensures BringsAll(c, Encoded(codec, ms), codec.parseRequest) == CallsFor(c, ms)
  {
    hide Lawful;
    hide CallFor;
    hide Brings;
    if ms != [] {
      var front, m := ms[..|ms| - 1], ms[|ms| - 1];
      EncodedBring(c, codec, front);
      MessageBrings(c, codec, m);
      assert Encoded(codec, ms) == Encoded(codec, front) + [codec.putRequest(m)];
      BringsOneMore(c, Encoded(codec, front), codec.putRequest(m), codec.parseRequest);
      assert CallsFor(c, ms) == CallsFor(c, front) + [CallFor(c, m)];
    }
  }

  lemma EncodedFits(codec: Codec, ms: seq<ChromeToAgent>)
    requires Lawful(codec)
    ensures AllWithin(Encoded(codec, ms), DWORDS - 1) && AllParsable(Encoded(codec, ms))
  {
  }

  /** From one serialiser to the other end's handler: of the messages a browser serialised and wrote, the
      handler has seen exactly the first ones, one call each, in order, and all of them once the pipe is
      empty. */
  lemma HandlerSeesWhatWasWritten(s: Session, acts: seq<Act>, codec: Codec, ms: seq<ChromeToAgent>)
    requires Lawful(codec) && Begun(s)
    requires Run(s, acts, codec.parseRequest).written == Encoded(codec, ms)
    requires forall k :: 0 <= k < |ms| ==> Acceptable(ms[k]) && codec.putRequest(ms[k]) != []
    ensures var t := Run(s, acts, codec.parseRequest);
            && t.handled <= CallsFor(s.conn, ms)
            && |t.handled| == |t.delivered|
            && (t.pipe.msgs == [] ==> t.handled == CallsFor(s.conn, ms))
  {
    hide Lawful;
    hide Run;
    hide CallFor;
    hide BringsAll;
    hide BufferFor;
    hide Longest;
    EncodedFits(codec, ms);
    RunRefines(s, acts, codec.parseRequest);
    var t := Run(s, acts, codec.parseRequest);
    var n := |t.delivered|;
    assert t.written[..n] == t.delivered;
    assert Encoded(codec, ms[..n]) == Encoded(codec, ms)[..n];
    EncodedBring(s.conn, codec, ms[..n]);
    assert CallsFor(s.conn, ms[..n]) == CallsFor(s.conn, ms)[..n];
  }

  // ---- How many reads one message takes ----

  /** Every next read can be queued: it completes at once, pends, or finds more data. */
  ghost predicate KeepsReading(queued: nat -> ApiResult) {
    forall k :: Fine(ApiCode(queued(k)))
  }

  /** `n` completions, after the first of which the next read goes as `queued(i)`. */
  function Repeat(s: Session, i: nat, n: nat, queued: nat -> ApiResult, parse: Parser): (t: Session)
    requires Sound(s.pipe)
    ensures Sound(t.pipe)
    decreases n
  {
    if n == 0 then s else Repeat(Step(s, Complete(queued(i)), parse), i + 1, n - 1, queued, parse)
  }

  function ReadsFor(buffer: nat, length: nat): nat {
    1 + CeilDiv(Max(0, length - buffer), BUFFER_SIZE)
  }

  /** From `s` to `t` the first message was taken, and handed to the parser if that can take it; if the
      session goes on, `t` is ready for the next message, with a buffer that holds this one and a read for
      the whole of it. */
  predicate HandedOver(s: Session, t: Session, parse: Parser)
    requires s.pipe.msgs != []
  {
    var m := s.pipe.msgs[0];
    && t.delivered == s.delivered + Handed(m) && t.pipe == Pipe(s.pipe.msgs[1..], 0)
    && (t.conn.connected <==> Dispatch(t.conn, ParseWhole(m, parse)).0 == Ok)
    && (t.conn.connected ==>
        && |m| <= MAX_INT
        && |t.conn.buffer| == Max(|s.conn.buffer|, BUFFER_SIZE * CeilDiv(|m|, BUFFER_SIZE)) < DWORDS
        && t.conn.readSize == |t.conn.buffer| && t.conn.buffer[..|m|] == m
        && Assembling(t.conn, t.pipe))
  }

  /** A message is taken by exactly `ReadsFor` completions and no fewer, however the reads are queued. */
  lemma {:induction false} MessageTakes(s: Session, i: nat, n: nat, queued: nat -> ApiResult, parse: Parser)
    requires Assembling(s.conn, s.pipe) && s.pipe.msgs != [] && |s.pipe.msgs[0]| < DWORDS && KeepsReading(queued)
    requires n <= ReadsFor(|s.conn.buffer|, |s.pipe.msgs[0]|)
    ensures var t := Repeat(s, i, n, queued, parse);
            if n < ReadsFor(|s.conn.buffer|, |s.pipe.msgs[0]|) then t.delivered == s.delivered && t.pipe.msgs == s.pipe.msgs
            else HandedOver(s, t, parse)
    decreases n
  {
    hide HandedOver;
    hide Step;
    var t := Step(s, Complete(queued(i)), parse);
    if n == 0 {
    } else if Read(s.pipe, s.conn.readSize).more {
      FirstRead(s, queued(i), parse);
      FewerReads(|s.conn.buffer|, |s.pipe.msgs[0]|);
      hide Assembling;
      hide ReadsFor;
      MessageTakes(t, i + 1, n - 1, queued, parse);
      HandedOverLater(s, t, Repeat(s, i, n, queued, parse), parse);
    } else {
      LastRead(s, queued(i), parse);
      hide Assembling;
      assert n == 1 && Repeat(s, i, 1, queued, parse) == Repeat(t, i + 1, 0, queued, parse) == t;
    }
  }

  lemma HandedOverLater(s: Session, later: Session, t: Session, parse: Parser)
    requires s.pipe.msgs != [] && later.pipe.msgs == s.pipe.msgs && later.delivered == s.delivered
    requires |later.conn.buffer| == |s.conn.buffer| + BUFFER_SIZE
    requires |s.conn.buffer| < |s.pipe.msgs[0]| < DWORDS && |s.conn.buffer| % BUFFER_SIZE == 0
    ensures HandedOver(later, t, parse) ==> HandedOver(s, t, parse)
  {
    hide Dispatch;
    hide Assembling;
    FewerReads(|s.conn.buffer|, |s.pipe.msgs[0]|);
    hide CeilDiv;
  }

  lemma FirstRead(s: Session, read: ApiResult, parse: Parser)
    requires Assembling(s.conn, s.pipe) && s.pipe.msgs != [] && |s.pipe.msgs[0]| < DWORDS
    requires Read(s.pipe, s.conn.readSize).more && Fine(ApiCode(read))
    ensures var t := Step(s, Complete(read), parse);
            && t.delivered == s.delivered && t.pipe.msgs == s.pipe.msgs && Assembling(t.conn, t.pipe)
            && |t.conn.buffer| == |s.conn.buffer| + BUFFER_SIZE
            && |s.conn.buffer| < |s.pipe.msgs[0]| && |s.conn.buffer| % BUFFER_SIZE == 0
  {
    hide HandleEvent;
    hide Picked;
    ReadMore(s.conn, s.pipe, read, parse);
    assert Step(s, Complete(read), parse).delivered == s.delivered;
  }

  lemma LastRead(s: Session, read: ApiResult, parse: Parser)
    requires Assembling(s.conn, s.pipe) && s.pipe.msgs != [] && |s.pipe.msgs[0]| < DWORDS
    requires !Read(s.pipe, s.conn.readSize).more && Fine(ApiCode(read))
    ensures ReadsFor(|s.conn.buffer|, |s.pipe.msgs[0]|) == 1
    ensures HandedOver(s, Step(s, Complete(read), parse), parse)
  {
    hide HandleEvent;
    hide Picked;
    var m := s.pipe.msgs[0];
    var t := Step(s, Complete(read), parse);
    OffsetIsAligned(s.conn, s.pipe);
    ReadLast(s.conn, s.pipe, read, parse);
    DispatchNeedsMessage(t.conn, s.conn, ParseWhole(m, parse));
    hide Dispatch;
    FullBuffer(|s.conn.buffer|, |m|);
  }

  lemma FewerReads(buffer: nat, length: nat)
    requires buffer < length && buffer % BUFFER_SIZE == 0
    ensures ReadsFor(buffer, length) == 1 + ReadsFor(buffer + BUFFER_SIZE, length)
    ensures Max(buffer + BUFFER_SIZE, BUFFER_SIZE * CeilDiv(length, BUFFER_SIZE))
         == Max(buffer, BUFFER_SIZE * CeilDiv(length, BUFFER_SIZE))
  {
  }

  lemma FullBuffer(buffer: nat, length: nat)
    requires length <= buffer && buffer % BUFFER_SIZE == 0
    ensures buffer == Max(buffer, BUFFER_SIZE * CeilDiv(length, BUFFER_SIZE))
    ensures ReadsFor(buffer, length) == 1
  {
  }

  lemma DispatchNeedsMessage(c: Conn, d: Conn, message: Option<ChromeToAgent>)
    ensures Dispatch(c, message).0 == Dispatch(d, message).0
  {
  }

  /** No message of 2^31 bytes or more keeps a session alive or reaches the parser, and so no buffer ever has
      to be read into as a whole that a `DWORD` cannot measure. */
  lemma OversizedMessageEndsTheSession(s: Session, queued: nat -> ApiResult, parse: Parser)
    requires Assembling(s.conn, s.pipe) && s.pipe.msgs != [] && KeepsReading(queued)
    requires MAX_INT < |s.pipe.msgs[0]| < DWORDS
    ensures var t := Repeat(s, 0, ReadsFor(|s.conn.buffer|, |s.pipe.msgs[0]|), queued, parse);
            !t.conn.connected && t.delivered == s.delivered && t.pipe.msgs == s.pipe.msgs[1..]
  {
    MessageTakes(s, 0, ReadsFor(|s.conn.buffer|, |s.pipe.msgs[0]|), queued, parse);
    hide Repeat;
    hide Assembling;
  }
}
