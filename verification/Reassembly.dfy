/** The agent's chunked reads rebuild exactly the messages the browser wrote. */
module Reassembly {
  import opened Common
  import opened Protocol
  import opened MessagePipe
  import opened ResponseEdits
  import opened ConnectionSpec

  /** A read of the pipe as `GetOverlappedResult` reports it. */
  function AsCompletion(chunk: Chunk): Completion {
    if chunk.more then Failed(MoreData, chunk.data) else Succeeded(chunk.data)
  }

  /** The connection has read `p.off` bytes of the pipe's first message into the front of its buffer, and
      its queued read ends at the end of the buffer. */
  predicate Assembling(c: Conn, p: Pipe) {
    && Sound(p)
    && c.connected && c.cursor == Some(p.off) && c.finalSize == p.off
    && c.operation == Reading(p.off, c.readSize)
    && p.off + c.readSize == |c.buffer|
    && 0 < c.readSize
    && BUFFER_SIZE <= |c.buffer| <= DWORDS && |c.buffer| % BUFFER_SIZE == 0
    && (p.off == 0 ==> |c.buffer| < DWORDS)
    && (p.off > 0 ==> c.readSize == BUFFER_SIZE)
    && (p.msgs != [] ==> p.off <= |p.msgs[0]| && c.buffer[..p.off] == p.msgs[0][..p.off])
  }

  /** What `pick` finds in a list of calls, in order. */
  function Picked<T>(calls: seq<Callback>, pick: Callback -> Option<T>): seq<T> {
    if calls == [] then []
    else (match pick(calls[0]) case Some(x) => [x] case None => []) + Picked(calls[1..], pick)
  }

  lemma {:induction false} NothingPicked<T>(calls: seq<Callback>, pick: Callback -> Option<T>)
    requires forall k :: 0 <= k < |calls| ==> pick(calls[k]).None?
    ensures Picked(calls, pick) == []
  {
    if calls != [] {
      NothingPicked(calls[1..], pick);
    }
  }

  lemma {:induction false} PickedConcat<T>(a: seq<Callback>, b: seq<Callback>, pick: Callback -> Option<T>)
    ensures Picked(a + b, pick) == Picked(a, pick) + Picked(b, pick)
  {
    if a == [] {
      assert a + b == b;
    } else {
      var head := match pick(a[0]) case Some(x) => [x] case None => [];
      assert (a + b)[0] == a[0] && (a + b)[1..] == a[1..] + b;
      PickedConcat(a[1..], b, pick);
      assert head + Picked(a[1..], pick) + Picked(b, pick) == head + (Picked(a[1..], pick) + Picked(b, pick));
    }
  }

  function ParserInput(call: Callback): Option<Bytes> {
    if call.ToParser? then Some(call.bytes) else None
  }

  function EventIn(call: Callback): Option<AnalysisEvent> {
    if call.AnalysisRequested? then Some(call.event) else None
  }

  /** A call that hands the handler something the browser sent. */
  function Brought(call: Callback): Option<Callback> {
    if call.AnalysisRequested? || call.ResponseAcknowledged? || call.CancelRequested? then Some(call) else None
  }

  /** Byte strings handed to the parser. */
  function Parsed(calls: seq<Callback>): seq<Bytes> {
    Picked(calls, ParserInput)
  }

  /** The handler calls that follow a whole message `m` read on `c`. */
  function HandlerCalls(c: Conn, m: Bytes, parse: Parser): seq<Callback> {
    Dispatch(c, ParseWhole(m, parse)).1
  }

  /** A message as the parser gets it, if at all. */
  function Handed(m: Bytes): seq<Bytes> {
    if |m| <= MAX_INT then [m] else []
  }

  /** The connection with its outstanding read completed by the next bytes of the pipe. */
  function ReadNext(c: Conn, p: Pipe, read: ApiResult, parse: Parser): Outcome
    requires Sound(p) && p.msgs != []
  {
    HandleEvent(c, AsCompletion(Read(p, c.readSize)), PidFails, read, parse)
  }

  lemma ReceiveChunk(c: Conn, p: Pipe, parse: Parser)
    requires Assembling(c, p) && p.msgs != [] && |p.msgs[0]| < DWORDS
    ensures var chunk := Read(p, c.readSize);
            var o := Receive(c, AsCompletion(chunk), PidFails, parse);
            && o.conn.connected
            && (chunk.more ==>
                && o.rc == ErrMoreData && o.calls == []
                && |o.conn.buffer| == |c.buffer| + BUFFER_SIZE
                && o.conn == c.(buffer := o.conn.buffer, finalSize := |c.buffer|, cursor := Some(|c.buffer|),
                                readSize := BUFFER_SIZE, operation := NoOperation, signalled := true)
                && o.conn.buffer[..|c.buffer|] == p.msgs[0][..|c.buffer|])
            && (!chunk.more ==>
                && |o.conn.buffer| == |c.buffer|
                && o.conn.buffer[..|p.msgs[0]|] == p.msgs[0]
                && o.conn == c.(buffer := o.conn.buffer, finalSize := |p.msgs[0]|, operation := NoOperation,
                                signalled := true)
                && o.rc == Dispatch(o.conn, ParseWhole(p.msgs[0], parse)).0
                && o.calls == Given(p.msgs[0]) + HandlerCalls(o.conn, p.msgs[0], parse))
  {
    hide Dispatch;
    hide Resize;
    var chunk := Read(p, c.readSize);
    StoredChunk(c, p);
    var stored := Finish(c, chunk.data).buffer;
    var m := p.msgs[0];
    if chunk.more {
      ResizeKeeps(stored, |stored| + BUFFER_SIZE);
    } else {
      assert m[..p.off + |chunk.data|] == m;
    }
  }

  lemma ResizeKeeps(b: Bytes, n: nat)
    requires |b| <= n
    ensures Resize(b, n)[..|b|] == b
  {
  }

  /** The bytes of the next read extend the part of the message in the buffer. */
  lemma StoredChunk(c: Conn, p: Pipe)
    requires Assembling(c, p) && p.msgs != []
    ensures var chunk := Read(p, c.readSize);
            var upto := p.off + |chunk.data|;
            var stored := Finish(c, chunk.data).buffer;
            |stored| == |c.buffer| && upto <= |stored| && upto <= |p.msgs[0]| && stored[..upto] == p.msgs[0][..upto]
  {
    var chunk := Read(p, c.readSize);
    var m := p.msgs[0];
    var stored := Finish(c, chunk.data).buffer;
    assert stored == Overwrite(c.buffer, p.off, chunk.data);
    var upto := p.off + |chunk.data|;
    assert stored[..upto] == stored[..p.off] + stored[p.off..upto];
    assert m[..upto] == m[..p.off] + m[p.off..upto];
  }

  lemma ParsedOfMessage(m: Bytes, rest: seq<Callback>)
    requires forall k :: 0 <= k < |rest| ==> !rest[k].ToParser?
    ensures Parsed(Given(m) + rest) == Handed(m)
  {
    NothingPicked(rest, ParserInput);
    if |m| <= MAX_INT {
      assert ([ToParser(m)] + rest)[1..] == rest;
    } else {
      assert [] + rest == rest;
    }
  }

  lemma DispatchParsesNothing(c: Conn, message: Option<ChromeToAgent>)
    ensures Dispatch(c, message).0 != ErrIoPending
    ensures forall k :: 0 <= k < |Dispatch(c, message).1| ==> !Dispatch(c, message).1[k].ToParser?
  {
  }

  lemma ContinueChunk(o: Outcome, read: ApiResult) returns (tail: seq<Callback>)
    requires o.conn.connected && !(o.rc == ErrIoPending)
    ensures var t := Continue(o, read);
            && t.calls == o.calls + tail
            && (forall k :: 0 <= k < |tail| ==> !tail[k].ToParser? && Brought(tail[k]).None?)
            && (t.rc != Ok <==> !t.conn.connected)
            && (t.rc == Ok ==>
                && Fine(o.rc)
                && t.conn == if o.rc == Ok
                             then o.conn.(cursor := Some(0), readSize := ToDword(|o.conn.buffer|), finalSize := 0,
                                          operation := Reading(0, ToDword(|o.conn.buffer|)), signalled := !read.Fail? || read.err != IoPending)
                             else o.conn.(operation := Reading(if o.conn.cursor.Some? then o.conn.cursor.value else 0,
                                                               o.conn.readSize),
                                          signalled := !read.Fail? || read.err != IoPending))
            && (t.rc == Ok <==> Fine(o.rc) && Fine(ApiCode(read)))
            && t.conn.id == o.conn.id && t.conn.handle == o.conn.handle
  {
    var t := Continue(o, read);
    tail := t.calls[|o.calls|..];
  }

  lemma ReadMore(c: Conn, p: Pipe, read: ApiResult, parse: Parser)
    requires Assembling(c, p) && p.msgs != [] && |p.msgs[0]| < DWORDS
    requires Read(p, c.readSize).more
    ensures var o := ReadNext(c, p, read, parse);
            && (o.rc != Ok <==> !o.conn.connected)
            && Parsed(o.calls) == []
            && (o.rc == Ok ==>
                && |o.conn.buffer| == |c.buffer| + BUFFER_SIZE
                && Assembling(o.conn, Read(p, c.readSize).rest))
            && (o.rc == Ok <==> Fine(ApiCode(read)))
  {
    hide Receive;
    hide Continue;
    var chunk := Read(p, c.readSize);
    var r := Receive(c, AsCompletion(chunk), PidFails, parse);
    var o := ReadNext(c, p, read, parse);
    ReceiveChunk(c, p, parse);
    var tail := ContinueChunk(r, read);
    NothingPicked(o.calls, ParserInput);
  }

  lemma ReadLast(c: Conn, p: Pipe, read: ApiResult, parse: Parser)
    requires Assembling(c, p) && p.msgs != [] && |p.msgs[0]| < DWORDS
    requires !Read(p, c.readSize).more
    ensures var o := ReadNext(c, p, read, parse);
            && (o.rc != Ok <==> !o.conn.connected)
            && Parsed(o.calls) == Handed(p.msgs[0])
            && (o.rc == Ok ==>
                && |p.msgs[0]| <= MAX_INT
                && |o.conn.buffer| == |c.buffer| < DWORDS
                && o.conn.buffer[..|p.msgs[0]|] == p.msgs[0]
                && Assembling(o.conn, Read(p, c.readSize).rest)
                && o.conn.readSize == |c.buffer|)
            && (o.rc == Ok <==> Fine(ApiCode(read)) && Dispatch(c, ParseWhole(p.msgs[0], parse)).0 == Ok)
  {
    hide Receive;
    hide Continue;
    var m := p.msgs[0];
    var chunk := Read(p, c.readSize);
    var r := Receive(c, AsCompletion(chunk), PidFails, parse);
    var o := ReadNext(c, p, read, parse);
    ReceiveChunk(c, p, parse);
    assert Dispatch(c, ParseWhole(m, parse)).0 == Dispatch(r.conn, ParseWhole(m, parse)).0;
    DispatchParsesNothing(r.conn, ParseWhole(m, parse));
    var tail := ContinueChunk(r, read);
    var rest := HandlerCalls(r.conn, m, parse) + tail;
    assert o.calls == Given(m) + rest;
    ParsedOfMessage(m, rest);
  }

  /** What a message brings to the handler. */
  function Brings(c: Conn, m: Bytes, parse: Parser): seq<Callback> {
    Picked(HandlerCalls(c, m, parse), Brought)
  }

  /** Same connection, pipe and browser. */
  predicate SameSession(c: Conn, d: Conn) {
    c.id == d.id && c.handle == d.handle && c.info == d.info
  }

  lemma SameSessionSameCalls(c: Conn, d: Conn, m: Bytes, parse: Parser)
    requires SameSession(c, d)
    ensures HandlerCalls(c, m, parse) == HandlerCalls(d, m, parse)
  {
  }

  lemma PickedInside<T>(given: seq<Callback>, calls: seq<Callback>, tail: seq<Callback>, pick: Callback -> Option<T>)
    requires forall call: Callback :: pick(call).Some? ==> Brought(call).Some?
    requires forall k :: 0 <= k < |given| ==> Brought(given[k]).None?
    requires forall k :: 0 <= k < |tail| ==> Brought(tail[k]).None?
    ensures Picked(given + calls + tail, pick) == Picked(calls, pick)
  {
    hide Picked;
    hide Brought;
    PickedConcat(given + calls, tail, pick);
    PickedConcat(given, calls, pick);
    NothingPicked(given, pick);
    NothingPicked(tail, pick);
  }

  /** The calls of one read, with what follows the message's own. */
  lemma ReadCalls(c: Conn, p: Pipe, read: ApiResult, parse: Parser) returns (tail: seq<Callback>)
    requires Assembling(c, p) && p.msgs != [] && |p.msgs[0]| < DWORDS
    ensures var o := ReadNext(c, p, read, parse);
            && o.conn.id == c.id && o.conn.handle == c.handle && (o.conn.connected ==> SameSession(c, o.conn))
            && o.calls == if Read(p, c.readSize).more then tail
                          else Given(p.msgs[0]) + HandlerCalls(c, p.msgs[0], parse) + tail
    ensures forall k :: 0 <= k < |tail| ==> Brought(tail[k]).None?
  {
    hide Continue;
    hide HandlerCalls;
    hide Brought;
    var m := p.msgs[0];
    var chunk := Read(p, c.readSize);
    var r := Receive(c, AsCompletion(chunk), PidFails, parse);
    ReceiveChunk(c, p, parse);
    DispatchParsesNothing(r.conn, ParseWhole(m, parse));
    assert ReadNext(c, p, read, parse) == Continue(r, read);
    hide Receive;
    hide ReadNext;
    hide Assembling;
    tail := ContinueChunk(r, read);
    if !chunk.more {
      SameSessionSameCalls(c, r.conn, m, parse);
    }
  }

  /** Anything that neither the parser's input nor an error report brings is brought by a read exactly when
      the read completes a message, and then it is what that message brings. */
  lemma ReadPicks<T>(c: Conn, p: Pipe, read: ApiResult, parse: Parser, pick: Callback -> Option<T>)
    requires Assembling(c, p) && p.msgs != [] && |p.msgs[0]| < DWORDS
    requires forall call: Callback :: pick(call).Some? ==> Brought(call).Some?
    ensures var o := ReadNext(c, p, read, parse);
            && o.conn.id == c.id && o.conn.handle == c.handle && (o.conn.connected ==> SameSession(c, o.conn))
            && Picked(o.calls, pick)
            == if Read(p, c.readSize).more then [] else Picked(HandlerCalls(c, p.msgs[0], parse), pick)
  {
    hide HandleEvent;
    hide Picked;
    var m := p.msgs[0];
    var tail := ReadCalls(c, p, read, parse);
    hide ReadNext;
    hide Assembling;
    hide Read;
    if Read(p, c.readSize).more {
      NothingPicked(tail, pick);
    } else {
      PickedInside(Given(m), HandlerCalls(c, m, parse), tail, pick);
    }
  }

  /** The events dispatched by a list of calls. */
  function Requests(calls: seq<Callback>): seq<AnalysisEvent> {
    Picked(calls, EventIn)
  }

  predicate NamedRequest(message: Option<ChromeToAgent>) {
    message.Some? && message.value.request.Some? && message.value.request.value.token != ""
  }

  lemma DispatchRequests(c: Conn, m: Bytes, parse: Parser)
    ensures var events := Requests(HandlerCalls(c, m, parse));
            var message := ParseWhole(m, parse);
            if NamedRequest(message)
            then InitResponse(message.value.request.value).Some?
                 && events == [EventFor(c, message.value.request.value, InitResponse(message.value.request.value).value)]
            else events == []
  {
    var calls := HandlerCalls(c, m, parse);
    assert calls[1..] == [];
    assert Picked(calls, EventIn) == (match EventIn(calls[0]) case Some(x) => [x] case None => []) + Picked(calls[1..], EventIn);
  }

  /** A read dispatches an event exactly when it completes a message that asks for an analysis and names
      it; the event is of that request, and its response starts out with that name. */
  lemma ReadRequests(c: Conn, p: Pipe, read: ApiResult, parse: Parser)
    requires Assembling(c, p) && p.msgs != [] && |p.msgs[0]| < DWORDS
    ensures var o := ReadNext(c, p, read, parse);
            var message := ParseWhole(p.msgs[0], parse);
            var events := Requests(o.calls);
            && o.conn.id == c.id && o.conn.handle == c.handle
            && if !Read(p, c.readSize).more && NamedRequest(message)
               then
                 var request := message.value.request.value;
                 |events| == 1 && events[0].conn == c.id && events[0].pipe == c.handle && events[0].info == c.info
                 && events[0].request == request && InitResponse(request) == Some(events[0].response)
                 && events[0].response.token == request.token
               else events == []
  {
    hide HandleEvent;
    hide Picked;
    ReadPicks(c, p, read, parse, EventIn);
    DispatchRequests(c, p.msgs[0], parse);
    hide HandlerCalls;
  }
}
