/** Browsers, agent, queue and workers together: each Send is answered with its own response
    (browser/src/client_win.cc, agent/src/agent_win.cc, agent/src/event_win.cc, demo/handler.h). */
module RoundTrip {
  import opened Common
  import opened Protocol
  import opened MessagePipe
  import opened ResponseEdits
  import opened ConnectionSpec
  import opened Reassembly
  import opened BrowserClient
  import E = AnalysisEvents
  import opened RequestQueues
  import Q = QueueMonitor
  import R = ReassemblyRuns

  /** A browser's Send: not under way, or waiting with part of a message read. */
  datatype Client = Ready | Waiting(token: string, got: Bytes)

  /** A Send that returned 0. */
  datatype Completed = Completed(token: string, response: Response)

  /** One browser session, open while `conn` is connected. `failedSends`: how many Sends did not return 0.
      `clean`: none of them left its request or response behind. `lossless`: no read, dispatch or response
      write of the agent failed. `reissued`: when the session began, an event of an earlier one with the same
      value of its pipe handle was still unanswered. */
  datatype Chan = Chan(
    conn: Conn, toAgent: Pipe, toBrowser: Pipe, client: Client, completed: seq<Completed>,
    failedSends: nat, clean: bool, lossless: bool, reissued: bool)

  /** `agent` is the event loop's thread. Sessions are numbered as their browsers are accepted. Here a handle
      is the value the system gives out, which it may give out again once its pipe is closed. */
  datatype Sys = Sys(chans: seq<Chan>, queue: Q.Monitor, agent: nat)

  /** How the write routine's calls go for one response. */
  datatype Writing = Writing(event: Option<HardError>, writes: nat -> E.WriteOutcome)

  datatype Act =
    | Joins(conn: Conn)
    | Send(i: nat, request: Request, mode: WriteMode)
    | Post(i: nat, message: ChromeToAgent, mode: WriteMode)
    | AgentReads(i: nat, read: ApiResult)
    | AgentBreaks(i: nat)
    | Queueing(q: Q.Act)
    | Respond(t: nat, response: Response, io: Writing)
    | DropFirst(io: Writing)
    | ClientReads(i: nat)
    | ClientFails(i: nat)

  function RequestBytes(codec: Codec, request: Request): Bytes {
    codec.putRequest(ChromeToAgent(Some(request), None, None))
  }

  function ResponseBytes(codec: Codec, response: Response): Bytes {
    codec.putResponse(AgentToChrome(Some(response)))
  }

  /** What the agent's write routine puts into the pipe. */
  ghost function Chunks(codec: Codec, response: Response, io: Writing): seq<Bytes>
    requires E.MakesProgress(io.writes)
  {
    E.WriteMessage(ResponseBytes(codec, response), io.event, io.writes).chunks
  }

  /** Writes to a message-mode pipe are whole. */
  ghost predicate Possible(codec: Codec, response: Response, io: Writing) {
    E.MakesProgress(io.writes) && E.WritesWhole(io.writes, |ResponseBytes(codec, response)|)
  }

  ghost predicate Enabled(s: Sys, a: Act, codec: Codec) {
    match a
    case Joins(conn) =>
      && conn.id == |s.chans| && Assembling(conn, EMPTY_PIPE)
      && conn.handle.Some? && forall j :: 0 <= j < |s.chans| ==> !Holds(s.chans[j], conn.handle)
    case Send(i, request, _) => i < |s.chans| && s.chans[i].client.Ready?
    case Post(i, message, _) => i < |s.chans| && message.request.None?
    case AgentReads(i, _) =>
      && i < |s.chans| && s.chans[i].conn.connected && Sound(s.chans[i].toAgent) && s.chans[i].toAgent.msgs != []
      && s.agent < |s.queue.pcs| && s.queue.pcs[s.agent].Outside?
    case AgentBreaks(i) => i < |s.chans|
    case Queueing(q) => !q.BeginPush? && !q.Answer? && !q.Drop? && Q.Enabled(s.queue, q)
    case Respond(t, response, io) =>
      // The handler leaves the token alone.
      Q.Enabled(s.queue, Q.Answer(t)) && response.token == s.queue.pcs[t].event.response.token
      && Possible(codec, response, io)
    case DropFirst(io) => Q.Enabled(s.queue, Q.Drop) && Possible(codec, s.queue.events[0].response, io)
    case ClientReads(i) =>
      i < |s.chans| && s.chans[i].client.Waiting? && Sound(s.chans[i].toBrowser) && s.chans[i].toBrowser.msgs != []
    case ClientFails(i) => i < |s.chans| && s.chans[i].client.Waiting?
  }

  /** Whether the session is open on this handle. */
  predicate Holds(ch: Chan, pipe: Option<nat>) {
    ch.conn.connected && pipe.Some? && ch.conn.handle == pipe
  }

  function PutAll(p: Pipe, msgs: seq<Bytes>): Pipe {
    p.(msgs := p.msgs + msgs)
  }

  function AfterSend(ch: Chan, bytes: Bytes, token: string, mode: WriteMode): Chan {
    var sent := ch.(toAgent := PutAll(ch.toAgent, Delivered(bytes, mode)));
    if WriteOk(bytes, mode) then sent.(client := Waiting(token, []))
    else sent.(failedSends := ch.failedSends + 1, clean := ch.clean && Delivered(bytes, mode) == [])
  }

  function AfterAgentRead(ch: Chan, read: ApiResult, codec: Codec): Chan
    requires Sound(ch.toAgent) && ch.toAgent.msgs != []
  {
    var o := ReadNext(ch.conn, ch.toAgent, read, codec.parseRequest);
    ch.(conn := o.conn, toAgent := Read(ch.toAgent, ch.conn.readSize).rest, lossless := ch.lossless && o.rc == Ok)
  }

  function Dispatched(ch: Chan, read: ApiResult, codec: Codec): seq<Event>
    requires Sound(ch.toAgent) && ch.toAgent.msgs != []
  {
    Requests(ReadNext(ch.conn, ch.toAgent, read, codec.parseRequest).calls)
  }

  function AfterResponse(ch: Chan, bytes: Bytes, chunks: seq<Bytes>): Chan {
    ch.(toBrowser := PutAll(ch.toBrowser, chunks), lossless := ch.lossless && chunks == [bytes])
  }

  /** The response in what the client's loop has read, if Send returns one. */
  function Answered(codec: Codec, bytes: Bytes): Option<Response> {
    var message := Sized(bytes);
    if message.Some? then ResponseIn(codec, message.value) else None
  }

  function AfterClientRead(ch: Chan, codec: Codec): Chan
    requires ch.client.Waiting? && Sound(ch.toBrowser) && ch.toBrowser.msgs != []
  {
    var c := Read(ch.toBrowser, BUFFER_SIZE);
    var read := ch.(toBrowser := c.rest);
    if c.more then read.(client := ch.client.(got := ch.client.got + c.data))
    else
      var r := Answered(codec, ch.client.got + c.data);
      if r.Some? then read.(client := Ready, completed := ch.completed + [Completed(ch.client.token, r.value)])
      else read.(client := Ready, failedSends := ch.failedSends + 1)
  }

  function AfterFailure(ch: Chan): Chan {
    ch.(client := Ready, failedSends := ch.failedSends + 1, clean := false)
  }

  function Update(s: Sys, i: nat, ch: Chan): Sys
    requires i < |s.chans|
  {
    s.(chans := s.chans[i := ch])
  }

  /** What writing the response of `e` does to session `i`: the response goes to whatever session is open on
      the event's handle, and is lost if that is not its own. */
  function AfterWrite(ch: Chan, i: nat, e: Event, bytes: Bytes, chunks: seq<Bytes>): Chan {
    if i == e.conn then AfterResponse(ch, bytes, if Holds(ch, e.pipe) then chunks else [])
    else if Holds(ch, e.pipe) then ch.(toBrowser := PutAll(ch.toBrowser, chunks))
    else ch
  }

  ghost function Answer(s: Sys, e: Event, response: Response, io: Writing, codec: Codec): (t: Sys)
    requires Possible(codec, response, io)
    ensures |t.chans| == |s.chans|
  {
    var bytes, chunks := ResponseBytes(codec, response), Chunks(codec, response, io);
    s.(chans := seq(|s.chans|, i requires 0 <= i < |s.chans| => AfterWrite(s.chans[i], i, e, bytes, chunks)))
  }

  /** The session of a browser just accepted. */
  function NewChan(conn: Conn, reissued: bool): Chan {
    Chan(conn, EMPTY_PIPE, EMPTY_PIPE, Ready, [], 0, true, true, reissued)
  }

  function Push(queue: Q.Monitor, agent: nat, events: seq<Event>): Q.Monitor
    requires agent < |queue.pcs| && queue.pcs[agent].Outside?
  {
    if events == [] then queue else Q.Step(queue, Q.BeginPush(agent, events[0]))
  }

  ghost function Step(s: Sys, a: Act, codec: Codec): (t: Sys)
    requires Enabled(s, a, codec)
    ensures |t.chans| >= |s.chans|
  {
    match a
    case Joins(conn) => s.(chans := s.chans + [NewChan(conn, Q.Live(s.queue, OnPipe(conn.handle)) > 0)])
    case Send(i, request, mode) =>
      Update(s, i, AfterSend(s.chans[i], RequestBytes(codec, request), request.token, mode))
    case Post(i, message, mode) =>
      Update(s, i, s.chans[i].(toAgent := PutAll(s.chans[i].toAgent, Delivered(codec.putRequest(message), mode))))
    case AgentReads(i, read) =>
      Update(s, i, AfterAgentRead(s.chans[i], read, codec))
        .(queue := Push(s.queue, s.agent, Dispatched(s.chans[i], read, codec)))
    case AgentBreaks(i) =>
      Update(s, i, s.chans[i].(conn := Cleaned(s.chans[i].conn), lossless := false))
    case Queueing(q) => s.(queue := Q.Step(s.queue, q))
    case Respond(t, response, io) =>
      Answer(s, s.queue.pcs[t].event, response, io, codec).(queue := Q.Step(s.queue, Q.Answer(t)))
    case DropFirst(io) =>
      var e := s.queue.events[0];
      Answer(s, e, e.response, io, codec).(queue := Q.Step(s.queue, Q.Drop))
    case ClientReads(i) => Update(s, i, AfterClientRead(s.chans[i], codec))
    case ClientFails(i) => Update(s, i, AfterFailure(s.chans[i]))
  }

  ghost predicate IsRun(s: Sys, acts: seq<Act>, codec: Codec)
    decreases |acts|
  {
    acts == [] || (Enabled(s, acts[0], codec) && IsRun(Step(s, acts[0], codec), acts[1..], codec))
  }

  ghost function After(s: Sys, acts: seq<Act>, codec: Codec): Sys
    requires IsRun(s, acts, codec)
    decreases |acts|
  {
    if acts == [] then s else After(Step(s, acts[0], codec), acts[1..], codec)
  }

  // ---- What is on its way to a waiting Send ----

  /** Messages that ask for an analysis, and those that ask for another one than `token`. */
  function Asks(codec: Codec): Bytes -> nat {
    (m: Bytes) => var r := codec.parseRequest(m); if r.Some? && r.value.request.Some? then 1 else 0
  }

  function AsksOther(codec: Codec, token: string): Bytes -> nat {
    (m: Bytes) =>
      var r := codec.parseRequest(m);
      if r.Some? && r.value.request.Some? && r.value.request.value.token != token then 1 else 0
  }

  function OfConn(i: nat): Event -> nat {
    (e: Event) => if e.conn == i then 1 else 0
  }

  function OfConnOther(i: nat, token: string): Event -> nat {
    (e: Event) => if e.conn == i && e.response.token != token then 1 else 0
  }

  function OnPipe(pipe: Option<nat>): Event -> nat {
    (e: Event) => if e.pipe == pipe then 1 else 0
  }

  /** Events of session `i` that do not name its handle, and events of others that do. */
  function Elsewhere(i: nat, pipe: Option<nat>): Event -> nat {
    (e: Event) => if e.conn == i && e.pipe != pipe then 1 else 0
  }

  function Foreign(i: nat, pipe: Option<nat>): Event -> nat {
    (e: Event) => if e.conn != i && e.pipe == pipe then 1 else 0
  }

  function One(): Bytes -> nat {
    (m: Bytes) => 1
  }

  function AnswersOther(codec: Codec, token: string): Bytes -> nat {
    (m: Bytes) => var r := ResponseIn(codec, m); if r.Some? && r.value.token != token then 1 else 0
  }

  /** Requests in the pipe, events not yet answered, and responses not yet read, of session `i`. */
  function Carriers(ch: Chan, queue: Q.Monitor, i: nat, codec: Codec): nat {
    Tally(ch.toAgent.msgs, Asks(codec)) + Q.Live(queue, OfConn(i)) + Tally(ch.toBrowser.msgs, One())
  }

  /** Those of them that do not belong to `token`. */
  function Strays(ch: Chan, queue: Q.Monitor, i: nat, token: string, codec: Codec): nat {
    Tally(ch.toAgent.msgs, AsksOther(codec, token)) + Q.Live(queue, OfConnOther(i, token))
    + Tally(ch.toBrowser.msgs, AnswersOther(codec, token))
  }

  ghost predicate AllBounded(msgs: seq<Bytes>) {
    forall k :: 0 <= k < |msgs| ==> |msgs[k]| <= MAX_INT
  }

  /** The agent's side of a session. */
  ghost predicate AgentSide(ch: Chan, i: nat) {
    && ch.conn.id == i && Sound(ch.toAgent) && Sound(ch.toBrowser)
    && AllBounded(ch.toAgent.msgs) && AllBounded(ch.toBrowser.msgs)
    && (ch.conn.connected ==> Assembling(ch.conn, ch.toAgent))
  }

  /** What the waiting client has read is the front of the response it is reading. */
  predicate Reading(ch: Chan) {
    ch.client.Waiting? ==>
      if ch.toBrowser.msgs == [] then ch.client.got == []
      else ch.toBrowser.off <= |ch.toBrowser.msgs[0]| && ch.client.got == ch.toBrowser.msgs[0][..ch.toBrowser.off]
  }

  /** At most one carrier, and only while a Send waits, and then it belongs to that Send. */
  predicate InFlight(ch: Chan, queue: Q.Monitor, i: nat, codec: Codec) {
    match ch.client
    case Ready => Carriers(ch, queue, i, codec) == 0
    case Waiting(token, _) =>
      && Carriers(ch, queue, i, codec) <= 1
      && (ch.lossless ==> Carriers(ch, queue, i, codec) == 1)
      && Strays(ch, queue, i, token, codec) == 0
  }

  predicate OwnResponses(completed: seq<Completed>) {
    forall k :: 0 <= k < |completed| ==> completed[k].response.token == completed[k].token
  }

  ghost predicate ChanInv(ch: Chan, queue: Q.Monitor, i: nat, codec: Codec) {
    && AgentSide(ch, i)
    && (ch.failedSends == 0 ==> ch.clean)
    && (ch.clean && !ch.reissued ==> Reading(ch) && InFlight(ch, queue, i, codec) && OwnResponses(ch.completed))
  }

  /** No event of a session yet to come. */
  ghost predicate NoneAhead(queue: Q.Monitor, sessions: nat) {
    forall i: nat :: i >= sessions ==> Q.Live(queue, OfConn(i)) == 0
  }

  /** Every event of a session names its handle, and no other event names that of an open session, unless
      one did from the start. */
  ghost predicate Routed(ch: Chan, queue: Q.Monitor, i: nat) {
    && Q.Live(queue, Elsewhere(i, ch.conn.handle)) == 0
    && (ch.conn.connected && !ch.reissued ==> Q.Live(queue, Foreign(i, ch.conn.handle)) == 0)
  }

  /** Open sessions have handles, and different ones. */
  predicate HandlesApart(chans: seq<Chan>) {
    && (forall i :: 0 <= i < |chans| && chans[i].conn.connected ==> chans[i].conn.handle.Some?)
    && (forall i, j :: 0 <= i < j < |chans| && chans[i].conn.connected && chans[j].conn.connected ==>
          chans[i].conn.handle != chans[j].conn.handle)
  }

  ghost predicate AllRouted(s: Sys) {
    && (forall i :: 0 <= i < |s.chans| ==> Routed(s.chans[i], s.queue, i))
    && HandlesApart(s.chans)
    && NoneAhead(s.queue, |s.chans|)
  }

  ghost predicate Inv(s: Sys, codec: Codec) {
    && (forall i :: 0 <= i < |s.chans| ==> ChanInv(s.chans[i], s.queue, i, codec))
    && AllRouted(s)
  }

  // ---- Weights ----

  lemma LiveAtMost(queue: Q.Monitor, f: Event -> nat, g: Event -> nat)
    requires forall e :: f(e) <= g(e)
    ensures Q.Live(queue, f) <= Q.Live(queue, g)
  {
    hide Tally;
    TallyAtMost(queue.events, f, g);
    TallyAtMost(queue.pcs, Q.Held(f), Q.Held(g));
  }

  lemma StraysAreCarriers(ch: Chan, queue: Q.Monitor, i: nat, token: string, codec: Codec)
    ensures Strays(ch, queue, i, token, codec) <= Carriers(ch, queue, i, codec)
  {
    hide Tally;
    hide Q.Live;
    TallyAtMost(ch.toAgent.msgs, AsksOther(codec, token), Asks(codec));
    TallyAtMost(ch.toBrowser.msgs, AnswersOther(codec, token), One());
    LiveAtMost(queue, OfConnOther(i, token), OfConn(i));
  }

  lemma TallyFirst<T>(s: seq<T>, f: T -> nat)
    requires s != []
    ensures Tally(s, f) == f(s[0]) + Tally(s[1..], f)
  {
  }

  /** A delivered message weighs what it weighs, an undelivered one nothing. */
  lemma PutWeight(p: Pipe, bytes: Bytes, mode: WriteMode, f: Bytes -> nat)
    ensures Tally(PutAll(p, Delivered(bytes, mode)).msgs, f)
         == Tally(p.msgs, f) + if Delivered(bytes, mode) == [] then 0 else f(bytes)
  {
    if Delivered(bytes, mode) == [] {
      assert p.msgs + [] == p.msgs;
    } else {
      TallyPush(p.msgs, bytes, f);
    }
  }

  // ---- Each kind of step ----

  lemma PutKeepsAgentSide(ch: Chan, i: nat, bytes: Bytes, mode: WriteMode)
    requires AgentSide(ch, i) && |bytes| <= MAX_INT
    ensures AgentSide(ch.(toAgent := PutAll(ch.toAgent, Delivered(bytes, mode))), i)
  {
  }

  lemma SendKeeps(ch: Chan, queue: Q.Monitor, i: nat, request: Request, mode: WriteMode, codec: Codec)
    requires Lawful(codec) && ChanInv(ch, queue, i, codec) && ch.client.Ready?
    ensures ChanInv(AfterSend(ch, RequestBytes(codec, request), request.token, mode), queue, i, codec)
  {
    hide Tally;
    hide AgentSide;
    hide Q.Live;
    var bytes := RequestBytes(codec, request);
    var next := AfterSend(ch, bytes, request.token, mode);
    PutKeepsAgentSide(ch, i, bytes, mode);
    AgentSideOnly(ch.(toAgent := PutAll(ch.toAgent, Delivered(bytes, mode))), next, i);
    PutWeight(ch.toAgent, bytes, mode, Asks(codec));
    PutWeight(ch.toAgent, bytes, mode, AsksOther(codec, request.token));
    assert bytes != [] ==> codec.parseRequest(bytes) == Some(ChromeToAgent(Some(request), None, None));
    assert |bytes| <= MAX_INT;
    if ch.clean && !ch.reissued {
      StraysAreCarriers(ch, queue, i, request.token, codec);
      NothingToRead(ch.toBrowser);
      if next.client.Waiting? {
        assert Delivered(bytes, mode) == [bytes];
      }
    }
  }

  lemma NothingToRead(p: Pipe)
    ensures Tally(p.msgs, One()) == 0 ==> p.msgs == []
  {
    if p.msgs != [] {
      TallyMember(p.msgs, 0, One());
    }
  }

  /** The agent's side depends on the connection and the pipes only. */
  lemma AgentSideOnly(a: Chan, b: Chan, i: nat)
    requires AgentSide(a, i) && a.conn == b.conn && a.toAgent == b.toAgent && a.toBrowser == b.toBrowser
    ensures AgentSide(b, i)
  {
  }

  lemma PostKeeps(ch: Chan, queue: Q.Monitor, i: nat, message: ChromeToAgent, mode: WriteMode, codec: Codec)
    requires Lawful(codec) && ChanInv(ch, queue, i, codec)
    requires message.request.None?
    ensures ChanInv(ch.(toAgent := PutAll(ch.toAgent, Delivered(codec.putRequest(message), mode))), queue, i, codec)
  {
    hide Tally;
    hide AgentSide;
    hide Q.Live;
    var bytes := codec.putRequest(message);
    assert |bytes| <= MAX_INT;
    PutKeepsAgentSide(ch, i, bytes, mode);
    assert bytes != [] ==> codec.parseRequest(bytes) == Some(message);
    PutWeight(ch.toAgent, bytes, mode, Asks(codec));
    if ch.client.Waiting? {
      PutWeight(ch.toAgent, bytes, mode, AsksOther(codec, ch.client.token));
    }
  }

  lemma AgentReadKeepsSide(ch: Chan, i: nat, read: ApiResult, codec: Codec)
    requires AgentSide(ch, i) && ch.conn.connected && ch.toAgent.msgs != []
    ensures AgentSide(AfterAgentRead(ch, read, codec), i)
  {
    hide HandleEvent;
    assert |ch.toAgent.msgs[0]| <= MAX_INT;
    if Read(ch.toAgent, ch.conn.readSize).more {
      ReadMore(ch.conn, ch.toAgent, read, codec.parseRequest);
    } else {
      ReadLast(ch.conn, ch.toAgent, read, codec.parseRequest);
    }
    ReadRequests(ch.conn, ch.toAgent, read, codec.parseRequest);
  }

  /** Reading the end of a request turns it into an event with its token; nothing else appears. */
  lemma AgentReadMoves(ch: Chan, i: nat, read: ApiResult, codec: Codec)
    requires AgentSide(ch, i) && ch.conn.connected && ch.toAgent.msgs != []
    ensures var next := AfterAgentRead(ch, read, codec);
            var events := Dispatched(ch, read, codec);
            var m := ch.toAgent.msgs[0];
            && |events| <= 1 && (events != [] ==> events[0].conn == i && events[0].pipe == ch.conn.handle)
            && next.conn.handle == ch.conn.handle && next.reissued == ch.reissued
            && next.toBrowser == ch.toBrowser && next.client == ch.client && next.completed == ch.completed
            && next.clean == ch.clean && next.failedSends == ch.failedSends && (next.lossless ==> ch.lossless)
            && if Read(ch.toAgent, ch.conn.readSize).more then next.toAgent.msgs == ch.toAgent.msgs && events == []
               else
                 && next.toAgent.msgs == ch.toAgent.msgs[1..]
                 && |events| <= Asks(codec)(m)
                 && (next.lossless ==> |events| == Asks(codec)(m))
                 && (events != [] ==> forall token {:trigger AsksOther(codec, token)} ::
                       OfConnOther(i, token)(events[0]) == AsksOther(codec, token)(m))
  {
    hide HandleEvent;
    hide Requests;
    hide InitResponse;
    var m := ch.toAgent.msgs[0];
    assert |m| <= MAX_INT;
    ReadRequests(ch.conn, ch.toAgent, read, codec.parseRequest);
    if !Read(ch.toAgent, ch.conn.readSize).more {
      ReadLast(ch.conn, ch.toAgent, read, codec.parseRequest);
      AcceptedAsks(ch.conn, codec.parseRequest(m));
    }
  }

  lemma AcceptedAsks(c: Conn, message: Option<ChromeToAgent>)
    ensures Dispatch(c, message).0 == Ok && message.Some? && message.value.request.Some? ==> message.value.request.value.token != ""
  {
  }

  // ---- What the queue's steps mean for the sessions ----

  /** The weight of the events in a list that is empty or holds one. */
  function EventWeight(events: seq<Event>, w: Event -> nat): nat {
    if events == [] then 0 else w(events[0])
  }

  /** The live events of `q1` are those of `q0` with `came` and without `went`. */
  ghost predicate Moves(q0: Q.Monitor, q1: Q.Monitor, came: seq<Event>, went: seq<Event>) {
    forall w: Event -> nat :: Q.Live(q1, w) + EventWeight(went, w) == Q.Live(q0, w) + EventWeight(came, w)
  }

  lemma PushMoves(queue: Q.Monitor, agent: nat, events: seq<Event>)
    requires agent < |queue.pcs| && queue.pcs[agent].Outside?
    ensures Moves(queue, Push(queue, agent, events), events, [])
  {
    hide Q.Live;
    hide Q.Step;
    forall w: Event -> nat
      ensures Q.Live(Push(queue, agent, events), w) + EventWeight([], w) == Q.Live(queue, w) + EventWeight(events, w)
    {
      if events != [] {
        Q.LiveStep(queue, Q.BeginPush(agent, events[0]), w);
      }
    }
  }

  lemma TakeMoves(queue: Q.Monitor, a: Q.Act, e: Event)
    requires Q.Enabled(queue, a) && (a.Answer? || a.Drop?)
    requires e == if a.Answer? then queue.pcs[a.t].event else queue.events[0]
    ensures Moves(queue, Q.Step(queue, a), [], [e])
  {
    hide Q.Live;
    hide Q.Step;
    forall w: Event -> nat
      ensures Q.Live(Q.Step(queue, a), w) + EventWeight([e], w) == Q.Live(queue, w) + EventWeight([], w)
    {
      Q.LiveStep(queue, a, w);
    }
  }

  /** A queue step that neither takes an offer nor gives an answer moves no live event. */
  lemma QueueingMoves(queue: Q.Monitor, q: Q.Act)
    requires !q.BeginPush? && !q.Answer? && !q.Drop? && Q.Enabled(queue, q)
    ensures Moves(queue, Q.Step(queue, q), [], [])
  {
    hide Q.Live;
    hide Q.Step;
    forall w: Event -> nat
      ensures Q.Live(Q.Step(queue, q), w) + EventWeight([], w) == Q.Live(queue, w) + EventWeight([], w)
    {
      Q.LiveStep(queue, q, w);
    }
  }

  /** A session's invariant sees only its own live events. */
  lemma OthersMove(ch: Chan, q0: Q.Monitor, q1: Q.Monitor, i: nat, came: seq<Event>, went: seq<Event>, codec: Codec)
    requires ChanInv(ch, q0, i, codec) && Moves(q0, q1, came, went)
    requires (came != [] ==> came[0].conn != i) && (went != [] ==> went[0].conn != i)
    ensures ChanInv(ch, q1, i, codec)
  {
    hide Tally;
    hide AgentSide;
    hide Q.Live;
    assert Q.Live(q1, OfConn(i)) + EventWeight(went, OfConn(i)) == Q.Live(q0, OfConn(i)) + EventWeight(came, OfConn(i));
    if ch.client.Waiting? {
      var other := OfConnOther(i, ch.client.token);
      assert Q.Live(q1, other) + EventWeight(went, other) == Q.Live(q0, other) + EventWeight(came, other);
    }
  }

  /** Routing survives events that leave, and events that come with the handle of their own open session. */
  lemma RoutedMoves(ch: Chan, next: Chan, q0: Q.Monitor, q1: Q.Monitor, i: nat, came: seq<Event>, went: seq<Event>)
    requires Routed(ch, q0, i) && Moves(q0, q1, came, went)
    requires next.conn.handle == ch.conn.handle && next.reissued == ch.reissued
    requires next.conn.connected ==> ch.conn.connected
    requires came != [] ==>
               if came[0].conn == i then came[0].pipe == ch.conn.handle
               else ch.conn.connected ==> came[0].pipe != ch.conn.handle
    ensures Routed(next, q1, i)
  {
    hide Q.Live;
    var own, foreign := Elsewhere(i, ch.conn.handle), Foreign(i, ch.conn.handle);
    assert Q.Live(q1, own) + EventWeight(went, own) == Q.Live(q0, own) + EventWeight(came, own);
    assert Q.Live(q1, foreign) + EventWeight(went, foreign) == Q.Live(q0, foreign) + EventWeight(came, foreign);
  }

  lemma NoneAheadMoves(q0: Q.Monitor, q1: Q.Monitor, sessions: nat, came: seq<Event>, went: seq<Event>)
    requires NoneAhead(q0, sessions) && Moves(q0, q1, came, went)
    requires came != [] ==> came[0].conn < sessions
    ensures NoneAhead(q1, sessions)
  {
    hide Q.Live;
    forall i: nat | i >= sessions
      ensures Q.Live(q1, OfConn(i)) == 0
    {
      assert Q.Live(q1, OfConn(i)) + EventWeight(went, OfConn(i)) == Q.Live(q0, OfConn(i)) + EventWeight(came, OfConn(i));
    }
  }

  /** An event that leaves was live. */
  lemma WentWasLive(q0: Q.Monitor, q1: Q.Monitor, e: Event, w: Event -> nat)
    requires Moves(q0, q1, [], [e])
    ensures w(e) <= Q.Live(q0, w)
  {
    hide Q.Live;
    assert Q.Live(q1, w) + EventWeight([e], w) == Q.Live(q0, w) + EventWeight([], w);
  }

  // ---- More steps ----

  lemma AgentReadKeeps(ch: Chan, queue: Q.Monitor, i: nat, agent: nat, read: ApiResult, codec: Codec)
    requires ChanInv(ch, queue, i, codec) && ch.conn.connected && ch.toAgent.msgs != []
    requires agent < |queue.pcs| && queue.pcs[agent].Outside?
    ensures ChanInv(AfterAgentRead(ch, read, codec), Push(queue, agent, Dispatched(ch, read, codec)), i, codec)
  {
    var next := AfterAgentRead(ch, read, codec);
    var events := Dispatched(ch, read, codec);
    AgentReadKeepsSide(ch, i, read, codec);
    AgentReadMoves(ch, i, read, codec);
    PushMoves(queue, agent, events);
    hide AfterAgentRead;
    hide Dispatched;
    hide AgentSide;
    hide Tally;
    hide Push;
    hide Q.Live;
    hide ChanInv;
    TallyFirst(ch.toAgent.msgs, Asks(codec));
    var after := Push(queue, agent, events);
    assert Q.Live(after, OfConn(i)) + EventWeight([], OfConn(i)) == Q.Live(queue, OfConn(i)) + EventWeight(events, OfConn(i));
    if ch.client.Waiting? {
      var other := OfConnOther(i, ch.client.token);
      assert Q.Live(after, other) + EventWeight([], other) == Q.Live(queue, other) + EventWeight(events, other);
      TallyFirst(ch.toAgent.msgs, AsksOther(codec, ch.client.token));
    }
    hide Moves;
    CarriersFall(ch, next, queue, after, i, codec);
  }

  lemma CarriersFall(ch: Chan, next: Chan, q0: Q.Monitor, q1: Q.Monitor, i: nat, codec: Codec)
    requires ChanInv(ch, q0, i, codec) && AgentSide(next, i)
    requires next.toBrowser == ch.toBrowser && next.client == ch.client && next.completed == ch.completed
    requires next.reissued == ch.reissued
    requires next.clean == ch.clean && next.failedSends == ch.failedSends && (next.lossless ==> ch.lossless)
    requires Carriers(next, q1, i, codec) <= Carriers(ch, q0, i, codec)
    requires next.lossless ==> Carriers(next, q1, i, codec) == Carriers(ch, q0, i, codec)
    requires ch.client.Waiting? ==> Strays(next, q1, i, ch.client.token, codec) <= Strays(ch, q0, i, ch.client.token, codec)
    ensures ChanInv(next, q1, i, codec)
  {
    hide Carriers;
    hide Strays;
    hide AgentSide;
  }

  /** A response with the token of the event it answers takes that event's place, or nothing does. */
  lemma ResponseKeeps(ch: Chan, q0: Q.Monitor, q1: Q.Monitor, i: nat, e: Event, response: Response,
                      chunks: seq<Bytes>, codec: Codec)
    requires Lawful(codec) && ChanInv(ch, q0, i, codec) && e.conn == i && response.token == e.response.token
    requires chunks == [] || (ResponseBytes(codec, response) != [] && chunks == [ResponseBytes(codec, response)])
    requires Moves(q0, q1, [], [e])
    ensures ChanInv(AfterResponse(ch, ResponseBytes(codec, response), chunks), q1, i, codec)
  {
    hide Tally;
    hide Q.Live;
    var bytes := ResponseBytes(codec, response);
    assert Q.Live(q1, OfConn(i)) + EventWeight([e], OfConn(i)) == Q.Live(q0, OfConn(i)) + EventWeight([], OfConn(i));
    if ch.client.Waiting? {
      var other := OfConnOther(i, ch.client.token);
      assert Q.Live(q1, other) + EventWeight([e], other) == Q.Live(q0, other) + EventWeight([], other);
    }
    hide Moves;
    if chunks == [] {
      assert ch.toBrowser.msgs + [] == ch.toBrowser.msgs;
    } else {
      assert codec.parseResponse(bytes) == Some(AgentToChrome(Some(response)));
      TallyPush(ch.toBrowser.msgs, bytes, One());
      assert ResponseIn(codec, bytes) == Some(response);
      if ch.client.Waiting? {
        TallyPush(ch.toBrowser.msgs, bytes, AnswersOther(codec, ch.client.token));
      }
      NothingToRead(ch.toBrowser);
    }
  }

  lemma WrittenChunks(codec: Codec, response: Response, io: Writing) returns (chunks: seq<Bytes>)
    requires Lawful(codec) && Possible(codec, response, io)
    ensures chunks == Chunks(codec, response, io)
    ensures chunks == [] || (ResponseBytes(codec, response) != [] && chunks == [ResponseBytes(codec, response)])
  {
    E.WholeWriteIsOneMessage(ResponseBytes(codec, response), io.event, io.writes);
    chunks := Chunks(codec, response, io);
  }

  /** A session on a reissued handle may get a response that is none of its own. */
  lemma StrayKeeps(ch: Chan, queue: Q.Monitor, i: nat, response: Response, chunks: seq<Bytes>, codec: Codec)
    requires Lawful(codec) && ChanInv(ch, queue, i, codec) && ch.reissued
    requires chunks == [] || chunks == [ResponseBytes(codec, response)]
    ensures ChanInv(ch.(toBrowser := PutAll(ch.toBrowser, chunks)), queue, i, codec)
  {
    hide Tally;
    hide Q.Live;
    assert |ResponseBytes(codec, response)| <= MAX_INT;
    if chunks == [] {
      assert ch.toBrowser.msgs + [] == ch.toBrowser.msgs;
    }
  }

  lemma ClientReadKeeps(ch: Chan, queue: Q.Monitor, i: nat, codec: Codec)
    requires ChanInv(ch, queue, i, codec) && ch.client.Waiting? && ch.toBrowser.msgs != []
    ensures ChanInv(AfterClientRead(ch, codec), queue, i, codec)
  {
    hide Tally;
    hide Q.Live;
    var m := ch.toBrowser.msgs[0];
    var c := Read(ch.toBrowser, BUFFER_SIZE);
    TallyFirst(ch.toBrowser.msgs, One());
    TallyFirst(ch.toBrowser.msgs, AnswersOther(codec, ch.client.token));
    assert |m| <= MAX_INT;
    SizedIff(m);
    if ch.clean && !ch.reissued {
      var upto := ch.toBrowser.off + |c.data|;
      assert m[..upto] == m[..ch.toBrowser.off] + m[ch.toBrowser.off..upto];
      if !c.more {
        assert m[..upto] == m;
      }
    }
  }

  /** A client's step here is one turn of its reading loop: it goes on with the loop, or ends the Send as the
      loop's result ends it. */
  lemma ClientReadIsALoopTurn(ch: Chan, codec: Codec, turn: nat, modes: nat -> ReadMode)
    requires ch.client.Waiting? && Sound(ch.toBrowser) && ch.toBrowser.msgs != [] && modes(turn) != ReadFails
    ensures var next := AfterClientRead(ch, codec);
            var loop := ReadLoop(ch.toBrowser, ch.client.got, turn, modes);
            if next.client.Waiting? then
              && loop == ReadLoop(next.toBrowser, next.client.got, turn + 1, modes)
              && next.client.token == ch.client.token && next.completed == ch.completed
            else
              var result := Answered(codec, loop.0);
              && loop.1 == next.toBrowser
              && next.completed == ch.completed + if result.Some? then [Completed(ch.client.token, result.value)] else []
  {
    var c := Read(ch.toBrowser, BUFFER_SIZE);
    assert ReadLoop(ch.toBrowser, ch.client.got, turn, modes)
        == if c.more then ReadLoop(c.rest, ch.client.got + c.data, turn + 1, modes) else (ch.client.got + c.data, c.rest);
  }

  /** The rest of a Send, against the pipe as it is: its reads, in the modes given, until it ends. */
  function Finished(ch: Chan, codec: Codec, turn: nat, modes: nat -> ReadMode): (t: Chan)
    requires Sound(ch.toBrowser) && (ch.client.Waiting? ==> ch.toBrowser.msgs != [])
    ensures t.client.Ready?
    decreases if ch.client.Ready? then 0 else 1 + |ch.toBrowser.msgs[0]| - ch.toBrowser.off
  {
    if ch.client.Ready? then ch
    else if modes(turn) == ReadFails then AfterFailure(ch)
    else Finished(AfterClientRead(ch, codec), codec, turn + 1, modes)
  }

  lemma {:induction false} FinishedAsTheLoop(ch: Chan, codec: Codec, turn: nat, modes: nat -> ReadMode)
    requires ch.client.Waiting? && Sound(ch.toBrowser) && ch.toBrowser.msgs != []
    ensures var t := Finished(ch, codec, turn, modes);
            var loop := ReadLoop(ch.toBrowser, ch.client.got, turn, modes);
            var result := Answered(codec, loop.0);
            && t.toBrowser == loop.1
            && t.completed == ch.completed + (if result.Some? then [Completed(ch.client.token, result.value)] else [])
            && t.failedSends == ch.failedSends + (if result.Some? then 0 else 1)
    decreases 1 + |ch.toBrowser.msgs[0]| - ch.toBrowser.off
  {
    if modes(turn) != ReadFails {
      ClientReadIsALoopTurn(ch, codec, turn, modes);
      var next := AfterClientRead(ch, codec);
      if next.client.Waiting? {
        FinishedAsTheLoop(next, codec, turn + 1, modes);
      }
    }
  }

  /** A Send here is the Send of the client object: it completes with a response exactly if that one, over the
      same pipe and in the same modes, returns 0 with it, and leaves the same pipe. */
  lemma SendsAgree(ch: Chan, codec: Codec, request: Request, mode: WriteMode, modes: nat -> ReadMode)
    requires ch.client.Ready? && Sound(ch.toBrowser) && ch.toBrowser.msgs != []
    ensures var sent := AfterSend(ch, RequestBytes(codec, request), request.token, mode);
            var t := Finished(sent, codec, 0, modes);
            var outcome := SendResult(codec, ch.toBrowser, request, true, mode, modes);
            && t.completed == ch.completed
                 + (if outcome.ReturnsZero? then [Completed(request.token, outcome.response)] else [])
            && t.failedSends == ch.failedSends + (if outcome.ReturnsZero? then 0 else 1)
            && (sent.client.Waiting? <==> WriteOk(RequestBytes(codec, request), mode))
            && t.toBrowser == if sent.client.Waiting? then ReadLoop(ch.toBrowser, [], 0, modes).1 else ch.toBrowser
  {
    hide ReadLoop;
    hide Sized;
    var sent := AfterSend(ch, RequestBytes(codec, request), request.token, mode);
    if sent.client.Waiting? {
      FinishedAsTheLoop(sent, codec, 0, modes);
    }
  }

  // ---- Whole runs ----

  lemma AnswerKeepsChan(s: Sys, q1: Q.Monitor, e: Event, response: Response, io: Writing, codec: Codec, i: nat)
    requires Lawful(codec) && Inv(s, codec) && response.token == e.response.token && Possible(codec, response, io)
    requires Moves(s.queue, q1, [], [e]) && i < |s.chans|
    ensures ChanInv(Answer(s, e, response, io, codec).chans[i], q1, i, codec)
  {
    hide Q.Live;
    hide ChanInv;
    hide AfterResponse;
    var chunks := WrittenChunks(codec, response, io);
    var ch := s.chans[i];
    hide Possible;
    hide Chunks;
    hide Lawful;
    if i == e.conn {
      ResponseKeeps(ch, s.queue, q1, i, e, response, if Holds(ch, e.pipe) then chunks else [], codec);
    } else {
      OthersMove(ch, s.queue, q1, i, [], [e], codec);
      if Holds(ch, e.pipe) {
        WentWasLive(s.queue, q1, e, Foreign(i, ch.conn.handle));
        StrayKeeps(ch, q1, i, response, chunks, codec);
      }
    }
  }

  lemma AnswerKeeps(s: Sys, q1: Q.Monitor, e: Event, response: Response, io: Writing, codec: Codec)
    requires Lawful(codec) && Inv(s, codec) && response.token == e.response.token && Possible(codec, response, io)
    requires Moves(s.queue, q1, [], [e])
    ensures Inv(Answer(s, e, response, io, codec).(queue := q1), codec)
  {
    hide ChanInv;
    hide Routed;
    hide NoneAhead;
    hide Moves;
    hide Possible;
    hide Lawful;
    hide Chunks;
    var t := Answer(s, e, response, io, codec).(queue := q1);
    forall i | 0 <= i < |t.chans|
      ensures ChanInv(t.chans[i], q1, i, codec) && Routed(t.chans[i], q1, i)
    {
      AnswerKeepsChan(s, q1, e, response, io, codec, i);
      RoutedMoves(s.chans[i], t.chans[i], s.queue, q1, i, [], [e]);
    }
    NoneAheadMoves(s.queue, q1, |s.chans|, [], [e]);
  }

  /** A step that touches one session and no event. */
  lemma UpdateKeeps(s: Sys, i: nat, ch: Chan, codec: Codec)
    requires Inv(s, codec) && i < |s.chans| && ChanInv(ch, s.queue, i, codec)
    requires ch.conn.handle == s.chans[i].conn.handle && ch.reissued == s.chans[i].reissued
    requires ch.conn.connected ==> s.chans[i].conn.connected
    ensures Inv(Update(s, i, ch), codec)
  {
    hide ChanInv;
    hide Q.Live;
    hide NoneAhead;
  }

  lemma ApartAfterUpdate(chans: seq<Chan>, i: nat, ch: Chan)
    requires HandlesApart(chans) && i < |chans|
    requires ch.conn.handle == chans[i].conn.handle && (ch.conn.connected ==> chans[i].conn.connected)
    ensures HandlesApart(chans[i := ch])
  {
  }

  /** An event that comes from an open session, with its handle, keeps every session's routing. */
  lemma EventRoutes(s: Sys, i: nat, ch: Chan, q1: Q.Monitor, events: seq<Event>)
    requires AllRouted(s) && i < |s.chans| && s.chans[i].conn.connected && Moves(s.queue, q1, events, [])
    requires events != [] ==> events[0].conn == i && events[0].pipe == s.chans[i].conn.handle
    requires ch.conn.handle == s.chans[i].conn.handle && ch.reissued == s.chans[i].reissued
    ensures AllRouted(Update(s, i, ch).(queue := q1))
  {
    hide Routed;
    hide NoneAhead;
    hide Moves;
    var t := Update(s, i, ch).(queue := q1);
    forall j | 0 <= j < |t.chans|
      ensures Routed(t.chans[j], q1, j)
    {
      RoutedMoves(s.chans[j], t.chans[j], s.queue, q1, j, events, []);
    }
    NoneAheadMoves(s.queue, q1, |s.chans|, events, []);
    ApartAfterUpdate(s.chans, i, ch);
  }

  /** What an agent's read means for every session's routing. */
  lemma AgentReadsRoute(s: Sys, i: nat, read: ApiResult, codec: Codec)
    requires Inv(s, codec) && Enabled(s, AgentReads(i, read), codec)
    ensures AllRouted(Step(s, AgentReads(i, read), codec))
  {
    hide ChanInv;
    InvSide(s, i, codec);
    AgentReadRoute(s.chans[i], i, read, codec);
    var events := Dispatched(s.chans[i], read, codec);
    PushMoves(s.queue, s.agent, events);
    hide AfterAgentRead;
    hide Dispatched;
    hide Push;
    hide Moves;
    hide Routed;
    hide NoneAhead;
    hide HandlesApart;
    hide AgentSide;
    EventRoutes(s, i, AfterAgentRead(s.chans[i], read, codec), Push(s.queue, s.agent, events), events);
  }

  lemma AgentReadRoute(ch: Chan, i: nat, read: ApiResult, codec: Codec)
    requires AgentSide(ch, i) && ch.conn.connected && ch.toAgent.msgs != []
    ensures var next := AfterAgentRead(ch, read, codec);
            var events := Dispatched(ch, read, codec);
            && (events != [] ==> events[0].conn == i && events[0].pipe == ch.conn.handle)
            && next.conn.handle == ch.conn.handle && next.reissued == ch.reissued
  {
    AgentReadMoves(ch, i, read, codec);
  }

  lemma AgentReadsKeepsInv(s: Sys, i: nat, read: ApiResult, codec: Codec)
    requires Inv(s, codec) && Enabled(s, AgentReads(i, read), codec)
    ensures Inv(Step(s, AgentReads(i, read), codec), codec)
  {
    hide ChanInv;
    hide NoneAhead;
    hide Moves;
    AgentReadsRoute(s, i, read, codec);
    hide Routed;
    hide HandlesApart;
    var events := Dispatched(s.chans[i], read, codec);
    InvSide(s, i, codec);
    AgentReadRoute(s.chans[i], i, read, codec);
    PushMoves(s.queue, s.agent, events);
    hide AfterAgentRead;
    hide Dispatched;
    hide Push;
    hide AgentSide;
    var next := Step(s, AgentReads(i, read), codec);
    forall j | 0 <= j < |next.chans|
      ensures ChanInv(next.chans[j], next.queue, j, codec)
    {
      if j == i {
        AgentReadKeeps(s.chans[i], s.queue, i, s.agent, read, codec);
      } else {
        OthersMove(s.chans[j], s.queue, next.queue, j, events, [], codec);
      }
    }
  }

  lemma InvSide(s: Sys, i: nat, codec: Codec)
    requires Inv(s, codec) && i < |s.chans|
    ensures AgentSide(s.chans[i], i)
  {
  }

  lemma BreakKeeps(ch: Chan, queue: Q.Monitor, i: nat, codec: Codec)
    requires ChanInv(ch, queue, i, codec)
    ensures ChanInv(ch.(conn := Cleaned(ch.conn), lossless := false), queue, i, codec)
    ensures ChanInv(AfterFailure(ch), queue, i, codec)
  {
    hide Tally;
    hide Q.Live;
  }

  lemma StepKeepsInv(s: Sys, a: Act, codec: Codec)
    requires Lawful(codec) && Inv(s, codec) && Enabled(s, a, codec)
    ensures Inv(Step(s, a, codec), codec)
  {
    hide ChanInv;
    hide Lawful;
    hide Q.Step;
    hide Q.Enabled;
    hide Possible;
    hide NoneAhead;
    hide Routed;
    hide HandlesApart;
    match a {
      case Joins(conn) =>
        JoinKeepsInv(s, conn, codec);
      case Send(i, request, mode) =>
        SendKeeps(s.chans[i], s.queue, i, request, mode, codec);
        UpdateKeeps(s, i, AfterSend(s.chans[i], RequestBytes(codec, request), request.token, mode), codec);
      case Post(i, message, mode) =>
        PostKeeps(s.chans[i], s.queue, i, message, mode, codec);
        UpdateKeeps(s, i, Step(s, a, codec).chans[i], codec);
      case AgentReads(i, read) =>
        AgentReadsKeepsInv(s, i, read, codec);
      case AgentBreaks(i) =>
        BreakKeeps(s.chans[i], s.queue, i, codec);
        UpdateKeeps(s, i, Step(s, a, codec).chans[i], codec);
      case Queueing(q) =>
        QueueingKeepsInv(s, q, codec);
      case Respond(t, response, io) =>
        EnabledAnswer(s.queue, t);
        TakeMoves(s.queue, Q.Answer(t), s.queue.pcs[t].event);
        AnswerKeeps(s, Q.Step(s.queue, Q.Answer(t)), s.queue.pcs[t].event, response, io, codec);
      case DropFirst(io) =>
        EnabledDrop(s.queue);
        TakeMoves(s.queue, Q.Drop, s.queue.events[0]);
        AnswerKeeps(s, Q.Step(s.queue, Q.Drop), s.queue.events[0], s.queue.events[0].response, io, codec);
      case ClientReads(i) =>
        ClientReadKeeps(s.chans[i], s.queue, i, codec);
        UpdateKeeps(s, i, AfterClientRead(s.chans[i], codec), codec);
      case ClientFails(i) =>
        BreakKeeps(s.chans[i], s.queue, i, codec);
        UpdateKeeps(s, i, AfterFailure(s.chans[i]), codec);
    }
  }

  lemma QueueingKeepsInv(s: Sys, q: Q.Act, codec: Codec)
    requires Inv(s, codec) && Enabled(s, Queueing(q), codec)
    ensures Inv(Step(s, Queueing(q), codec), codec)
  {
    hide ChanInv;
    hide Routed;
    hide NoneAhead;
    hide Moves;
    hide Q.Step;
    hide Q.Enabled;
    var n := Q.Step(s.queue, q);
    QueueingMoves(s.queue, q);
    forall i | 0 <= i < |s.chans|
      ensures ChanInv(s.chans[i], n, i, codec) && Routed(s.chans[i], n, i)
    {
      OthersMove(s.chans[i], s.queue, n, i, [], [], codec);
      RoutedMoves(s.chans[i], s.chans[i], s.queue, n, i, [], []);
    }
    NoneAheadMoves(s.queue, n, |s.chans|, [], []);
  }

  /** A new session starts with nothing under way, and alone on its handle. */
  lemma JoinKeepsInv(s: Sys, conn: Conn, codec: Codec)
    requires Inv(s, codec) && Enabled(s, Joins(conn), codec)
    ensures Inv(Step(s, Joins(conn), codec), codec)
  {
    hide Q.Live;
    var ch := NewChan(conn, Q.Live(s.queue, OnPipe(conn.handle)) > 0);
    NewChanInv(conn, ch.reissued, s.queue, |s.chans|, codec);
    LiveAtMost(s.queue, Elsewhere(|s.chans|, conn.handle), OfConn(|s.chans|));
    LiveAtMost(s.queue, Foreign(|s.chans|, conn.handle), OnPipe(conn.handle));
    assert Routed(ch, s.queue, |s.chans|);
    hide ChanInv;
    hide Routed;
    hide Assembling;
  }

  lemma NewChanInv(conn: Conn, reissued: bool, queue: Q.Monitor, i: nat, codec: Codec)
    requires conn.id == i && Assembling(conn, EMPTY_PIPE) && Q.Live(queue, OfConn(i)) == 0
    ensures ChanInv(NewChan(conn, reissued), queue, i, codec)
  {
    hide Q.Live;
  }

  lemma EnabledAnswer(queue: Q.Monitor, t: nat)
    requires Q.Enabled(queue, Q.Answer(t))
    ensures t < |queue.pcs| && queue.pcs[t].Analyzing?
  {
  }

  lemma EnabledDrop(queue: Q.Monitor)
    requires Q.Enabled(queue, Q.Drop)
    ensures queue.events != []
  {
  }

  /** An agent without browsers, whose queue and workers have not run. */
  ghost predicate Initial(s: Sys) {
    Q.Initial(s.queue) && s.chans == []
  }

  lemma InitialInv(s: Sys, codec: Codec)
    requires Initial(s)
    ensures Inv(s, codec)
  {
    forall i: nat
      ensures Q.Live(s.queue, OfConn(i)) == 0
    {
      TallyZero(s.queue.pcs, Q.Held(OfConn(i)));
    }
  }

  lemma {:induction false} RunKeepsInv(s: Sys, acts: seq<Act>, codec: Codec)
    requires Lawful(codec) && Inv(s, codec) && IsRun(s, acts, codec)
    ensures Inv(After(s, acts, codec), codec)
    decreases |acts|
  {
    hide Step;
    hide Enabled;
    hide Inv;
    hide Lawful;
    if acts != [] {
      StepKeepsInv(s, acts[0], codec);
      RunKeepsInv(Step(s, acts[0], codec), acts[1..], codec);
    }
  }

  lemma RunChan(s: Sys, acts: seq<Act>, codec: Codec, i: nat)
    requires Lawful(codec) && Initial(s) && IsRun(s, acts, codec) && i < |After(s, acts, codec).chans|
    ensures ChanInv(After(s, acts, codec).chans[i], After(s, acts, codec).queue, i, codec)
  {
    hide Step;
    hide Enabled;
    hide Lawful;
    hide Initial;
    hide ChanInv;
    InitialInv(s, codec);
    RunKeepsInv(s, acts, codec);
  }

  /** In every run of any number of browsers and workers, with browsers joining and acknowledgements and
      cancellations interleaved at will: if a session did not begin on the handle of an unanswered event, then
      as long as none of its Sends has failed each Send that returned 0 holds the response with its own
      request's token; and so it does if the Sends that failed left nothing behind. */
  lemma EachSendGetsItsOwnResponse(s: Sys, acts: seq<Act>, codec: Codec, i: nat)
    requires Lawful(codec) && Initial(s) && IsRun(s, acts, codec) && i < |After(s, acts, codec).chans|
    ensures var ch := After(s, acts, codec).chans[i];
            && (ch.failedSends == 0 ==> ch.clean)
            && (ch.clean && !ch.reissued ==> forall k :: 0 <= k < |ch.completed| ==> ch.completed[k].response.token == ch.completed[k].token)
  {
    hide Step;
    hide Enabled;
    hide Lawful;
    hide Initial;
    hide InFlight;
    hide AgentSide;
    RunChan(s, acts, codec, i);
  }

  /** On such a session nothing is on its way while no Send waits; while one does, at most one of its
      request, its live event and its unread response exists, and exactly one if the agent failed at
      nothing. */
  lemma OneCarrierPerSend(s: Sys, acts: seq<Act>, codec: Codec, i: nat)
    requires Lawful(codec) && Initial(s) && IsRun(s, acts, codec) && i < |After(s, acts, codec).chans|
    ensures var t := After(s, acts, codec);
            var ch := t.chans[i];
            var carriers := Carriers(ch, t.queue, i, codec);
            ch.clean && !ch.reissued ==>
              && carriers <= (if ch.client.Waiting? then 1 else 0)
              && (ch.client.Waiting? && ch.lossless ==> carriers == 1)
  {
    hide Step;
    hide Enabled;
    hide Lawful;
    hide Initial;
    hide Carriers;
    hide Strays;
    hide AgentSide;
    RunChan(s, acts, codec, i);
  }

  // ---- Steps that no Send waits for ----

  /** An acknowledgement or a cancellation that the browser could write reaches the handler as it is, when the
      agent reads it next. */
  lemma PostReachesTheHandler(s: Sys, i: nat, message: ChromeToAgent, mode: WriteMode, read: ApiResult, codec: Codec)
    requires Lawful(codec) && Enabled(s, Post(i, message, mode), codec) && R.Acceptable(message)
    requires s.chans[i].conn.connected && s.chans[i].toAgent == EMPTY_PIPE && Assembling(s.chans[i].conn, EMPTY_PIPE)
    requires 0 < |codec.putRequest(message)| <= s.chans[i].conn.readSize
    requires mode == WritesAtOnce || mode == WritesAfterWaiting
    ensures var ch := Step(s, Post(i, message, mode), codec).chans[i];
            && ch == s.chans[i].(toAgent := Pipe([codec.putRequest(message)], 0))
            && Picked(ReadNext(ch.conn, ch.toAgent, read, codec.parseRequest).calls, Brought) == [R.CallFor(ch.conn, message)]
  {
    hide HandleEvent;
    hide Picked;
    var ch := Step(s, Post(i, message, mode), codec).chans[i];
    assert EMPTY_PIPE.msgs + [codec.putRequest(message)] == [codec.putRequest(message)];
    ReadPicks(ch.conn, ch.toAgent, read, codec.parseRequest, Brought);
    R.MessageBrings(ch.conn, codec, message);
  }

  /** A session that the agent has given up gets no response any more: that of its event is written to no pipe
      of its. */
  lemma BrokenSessionGetsNoResponse(s: Sys, i: nat, t: nat, response: Response, io: Writing, codec: Codec)
    requires i < |s.chans| && Enabled(s, Respond(t, response, io), codec)
    ensures var broken := Step(s, AgentBreaks(i), codec);
            && !broken.chans[i].conn.connected && !broken.chans[i].lossless
            && Enabled(broken, Respond(t, response, io), codec)
            && Step(broken, Respond(t, response, io), codec).chans[i].toBrowser == s.chans[i].toBrowser
  {
    hide Q.Step;
  }

  // ---- A response that goes astray ----

  predicate Answering(a: Act) {
    a.Respond? || a.DropFirst?
  }

  /** The event that a worker, or the queue's destruction, answers, and with what. */
  ghost function EventOf(s: Sys, a: Act, codec: Codec): Event
    requires Answering(a) && Enabled(s, a, codec)
  {
    if a.Respond? then s.queue.pcs[a.t].event else s.queue.events[0]
  }

  ghost function ResponseOf(s: Sys, a: Act, codec: Codec): Response
    requires Answering(a) && Enabled(s, a, codec)
  {
    if a.Respond? then a.response else s.queue.events[0].response
  }

  /** Answering an event writes to another session than its own exactly if that session is open on the
      event's handle; and then the event has outlived its own session, and its handle has been given out again
      while it lived. */
  lemma ResponseGoesAstrayIff(s: Sys, a: Act, j: nat, codec: Codec)
    requires Lawful(codec) && Inv(s, codec) && Answering(a) && Enabled(s, a, codec)
    requires j < |s.chans| && EventOf(s, a, codec).conn != j
    requires Chunks(codec, ResponseOf(s, a, codec), a.io) != []
    ensures var e := EventOf(s, a, codec);
            && e.conn < |s.chans| && e.pipe == s.chans[e.conn].conn.handle
            && var own, other := s.chans[e.conn], s.chans[j];
               var after := Step(s, a, codec).chans[j];
               && (after.toBrowser != other.toBrowser
                   <==> !own.conn.connected && other.conn.connected && other.conn.handle == own.conn.handle)
               && (after.toBrowser != other.toBrowser ==>
                     other.reissued
                     && after.toBrowser == Put(other.toBrowser, ResponseBytes(codec, ResponseOf(s, a, codec))))
  {
    var e, response := EventOf(s, a, codec), ResponseOf(s, a, codec);
    var taken := if a.Respond? then Q.Answer(a.t) else Q.Drop;
    TakeMoves(s.queue, taken, e);
    var q1 := Q.Step(s.queue, taken);
    var _ := WrittenChunks(codec, response, a.io);
    hide Lawful;
    hide Possible;
    hide Chunks;
    hide Q.Step;
    hide Q.Live;
    hide ChanInv;
    WentWasLive(s.queue, q1, e, OfConn(e.conn));
    WentWasLive(s.queue, q1, e, Elsewhere(e.conn, s.chans[e.conn].conn.handle));
    WentWasLive(s.queue, q1, e, Foreign(j, s.chans[j].conn.handle));
    var other := s.chans[j];
    assert |PutAll(other.toBrowser, Chunks(codec, response, a.io)).msgs| > |other.toBrowser.msgs|;
  }

  // ---- A response left behind ----

  /** A response with these bytes is first in the pipe to the browser, and either no Send waits and nothing
      of it is read, or a waiting Send has read the front of it. */
  predicate Left(ch: Chan, bytes: Bytes) {
    && Sound(ch.toBrowser) && ch.toBrowser.msgs != [] && ch.toBrowser.msgs[0] == bytes
    && match ch.client
       case Ready => ch.toBrowser.off == 0
       case Waiting(_, got) => ch.toBrowser.off <= |bytes| && got == bytes[..ch.toBrowser.off]
  }

  /** A Send that fails before it has read any of the response leaves it in the pipe for the next. */
  lemma FailureLeavesTheResponse(s: Sys, i: nat, bytes: Bytes, codec: Codec)
    requires i < |s.chans| && s.chans[i].client.Waiting? && Left(s.chans[i], bytes)
    ensures Enabled(s, ClientFails(i), codec)
    ensures Left(Step(s, ClientFails(i), codec).chans[i], bytes) <==> s.chans[i].toBrowser.off == 0
    ensures Step(s, ClientFails(i), codec).chans[i].failedSends == s.chans[i].failedSends + 1
  {
  }

  /** One that fails in the middle leaves the rest of the response, and the next Send reads that alone. */
  lemma FailureMidwayLeavesTheRest(s: Sys, i: nat, bytes: Bytes, next: Request, mode: WriteMode, modes: nat -> ReadMode,
                                   codec: Codec)
    requires i < |s.chans| && s.chans[i].client.Waiting? && Left(s.chans[i], bytes)
    requires WriteOk(RequestBytes(codec, next), mode) && forall k :: modes(k) != ReadFails
    ensures var ch := Step(Step(s, ClientFails(i), codec), Send(i, next, mode), codec).chans[i];
            && ch.client == Waiting(next.token, [])
            && Sound(ch.toBrowser) && ReadLoop(ch.toBrowser, [], 0, modes).0 == bytes[s.chans[i].toBrowser.off..]
  {
    LoopReads(s.chans[i].toBrowser, [], 0, modes);
  }

  /** No Send of session `i` fails in the middle of a response. */
  ghost predicate NoneHalfRead(s: Sys, acts: seq<Act>, i: nat, codec: Codec)
    requires IsRun(s, acts, codec) && i < |s.chans|
    decreases |acts|
  {
    acts == []
    || ((acts[0] == ClientFails(i) ==> s.chans[i].toBrowser.off == 0)
        && NoneHalfRead(Step(s, acts[0], codec), acts[1..], i, codec))
  }

  lemma LeftStays(s: Sys, a: Act, i: nat, response: Response, codec: Codec)
    requires Lawful(codec) && i < |s.chans| && Enabled(s, a, codec)
    requires ResponseBytes(codec, response) != [] && Left(s.chans[i], ResponseBytes(codec, response))
    requires a == ClientFails(i) ==> s.chans[i].toBrowser.off == 0
    ensures i < |Step(s, a, codec).chans|
    ensures var before := s.chans[i];
            var after := Step(s, a, codec).chans[i];
            || (after.completed == before.completed && Left(after, ResponseBytes(codec, response)))
            || (before.client.Waiting? && after.completed == before.completed + [Completed(before.client.token, response)])
  {
    hide Q.Step;
    hide Q.Enabled;
    hide Chunks;
    hide ReadNext;
    hide Dispatched;
    hide Push;
    hide AfterWrite;
    hide AfterClientRead;
    var bytes, ch := ResponseBytes(codec, response), s.chans[i];
    match a {
      case ClientReads(j) =>
        if j == i {
          ReadingTheLeft(ch, response, codec);
        }
      case Respond(t, r, io) =>
        EnabledAnswer(s.queue, t);
        WriteKeepsLeft(ch, i, s.queue.pcs[t].event, ResponseBytes(codec, r), Chunks(codec, r, io), bytes);
      case DropFirst(io) =>
        EnabledDrop(s.queue);
        var e := s.queue.events[0];
        WriteKeepsLeft(ch, i, e, ResponseBytes(codec, e.response), Chunks(codec, e.response, io), bytes);
      case Send(_, _, _) =>
        assert bytes[..0] == [];
      case _ =>
    }
  }

  /** What is written goes behind the response left. */
  lemma WriteKeepsLeft(ch: Chan, i: nat, e: Event, written: Bytes, chunks: seq<Bytes>, bytes: Bytes)
    requires Left(ch, bytes)
    ensures var after := AfterWrite(ch, i, e, written, chunks); Left(after, bytes) && after.completed == ch.completed
  {
  }

  lemma ReadingTheLeft(ch: Chan, response: Response, codec: Codec)
    requires Lawful(codec) && ResponseBytes(codec, response) != [] && Left(ch, ResponseBytes(codec, response))
    requires ch.client.Waiting?
    ensures var after := AfterClientRead(ch, codec);
            || (after.completed == ch.completed && Left(after, ResponseBytes(codec, response)))
            || after.completed == ch.completed + [Completed(ch.client.token, response)]
  {
    var bytes := ResponseBytes(codec, response);
    assert codec.parseResponse(bytes) == Some(AgentToChrome(Some(response)));
    assert ResponseIn(codec, bytes) == Some(response);
    hide Lawful;
    var c := Read(ch.toBrowser, BUFFER_SIZE);
    var upto := ch.toBrowser.off + |c.data|;
    assert bytes[..upto] == bytes[..ch.toBrowser.off] + bytes[ch.toBrowser.off..upto];
    if !c.more {
      assert bytes[..upto] == bytes;
    }
  }

  /** Why a failed Send matters: once a response is left behind, whatever all browsers, workers and the agent
      do next, the next Send of the session that returns 0 returns that response; it is the Send's own
      exactly if the tokens agree. */
  lemma {:induction false} AbandonedResponseAnswersTheNextSend(
      s: Sys, acts: seq<Act>, i: nat, response: Response, codec: Codec)
    requires Lawful(codec) && IsRun(s, acts, codec) && i < |s.chans| && NoneHalfRead(s, acts, i, codec)
    requires ResponseBytes(codec, response) != [] && Left(s.chans[i], ResponseBytes(codec, response))
    ensures i < |After(s, acts, codec).chans|
    ensures var before := s.chans[i].completed;
            var after := After(s, acts, codec).chans[i].completed;
            && before <= after
            && (|after| > |before| ==>
                  var next := after[|before|];
                  next.response == response
                  && (next.response.token == next.token <==> response.token == next.token))
            && (|after| == |before| ==> Left(After(s, acts, codec).chans[i], ResponseBytes(codec, response)))
    decreases |acts|
  {
    hide Step;
    hide Enabled;
    hide Lawful;
    hide Left;
    if acts != [] {
      LeftStays(s, acts[0], i, response, codec);
      var t := Step(s, acts[0], codec);
      if t.chans[i].completed == s.chans[i].completed {
        AbandonedResponseAnswersTheNextSend(t, acts[1..], i, response, codec);
      } else {
        CompletedGrows(t, acts[1..], i, codec);
      }
    }
  }

  lemma {:induction false} CompletedGrows(s: Sys, acts: seq<Act>, i: nat, codec: Codec)
    requires IsRun(s, acts, codec) && i < |s.chans|
    ensures i < |After(s, acts, codec).chans| && s.chans[i].completed <= After(s, acts, codec).chans[i].completed
    decreases |acts|
  {
    hide Step;
    hide Enabled;
    if acts != [] {
      CompletedStep(s, acts[0], i, codec);
      CompletedGrows(Step(s, acts[0], codec), acts[1..], i, codec);
    }
  }

  lemma CompletedStep(s: Sys, a: Act, i: nat, codec: Codec)
    requires i < |s.chans| && Enabled(s, a, codec)
    ensures i < |Step(s, a, codec).chans| && s.chans[i].completed <= Step(s, a, codec).chans[i].completed
  {
    hide ReadNext;
    hide Push;
    hide Q.Step;
    hide Q.Enabled;
    hide Possible;
    hide Chunks;
    if a.DropFirst? {
      EnabledDrop(s.queue);
    } else if a.Respond? {
      EnabledAnswer(s.queue, a.t);
    }
  }
}
