/** A run in which a Send that gave up makes the next one return the wrong response. */
module AbandonedSends {
  import opened Common
  import opened Protocol
  import opened MessagePipe
  import opened ResponseEdits
  import opened ConnectionSpec
  import opened Reassembly
  import opened BrowserClient
  import opened RequestQueues
  import opened RoundTrip
  import E = AnalysisEvents
  import Q = QueueMonitor

  lemma {:induction false} RunExtends(s: Sys, acts: seq<Act>, a: Act, codec: Codec)
    requires IsRun(s, acts, codec) && Enabled(After(s, acts, codec), a, codec)
    ensures IsRun(s, acts + [a], codec)
    ensures After(s, acts + [a], codec) == Step(After(s, acts, codec), a, codec)
    decreases |acts|
  {
    hide Enabled;
    hide Step;
    if acts == [] {
      assert ([] + [a])[1..] == [];
    } else {
      assert (acts + [a])[1..] == acts[1..] + [a];
      RunExtends(Step(s, acts[0], codec), acts[1..], a, codec);
    }
  }

  lemma RunQueues(s: Sys, acts: seq<Act>, q: Q.Act, codec: Codec) returns (longer: seq<Act>)
    requires IsRun(s, acts, codec)
    requires !q.BeginPush? && !q.Answer? && !q.Drop? && Q.Enabled(After(s, acts, codec).queue, q)
    ensures IsRun(s, longer, codec)
    ensures After(s, longer, codec) == After(s, acts, codec).(queue := Q.Step(After(s, acts, codec).queue, q))
  {
    hide Q.Enabled;
    hide Q.Step;
    longer := acts + [Queueing(q)];
    RunExtends(s, acts, Queueing(q), codec);
  }

  /** The event loop's thread 0 and one worker. */
  predicate At(m: Q.Monitor, loop: Q.Pc, worker: Q.Pc, owner: Option<nat>, events: seq<Event>) {
    m.pcs == [loop, worker] && m.owner == owner && m.events == events && !m.abort
  }

  /** The thread that offers an event gets it into the queue. */
  lemma Offers(s: Sys, acts: seq<Act>, e: Event, codec: Codec) returns (longer: seq<Act>)
    requires IsRun(s, acts, codec) && At(After(s, acts, codec).queue, Q.PushLock(e), Q.Idle, None, [])
    ensures IsRun(s, longer, codec)
    ensures var t := After(s, longer, codec);
            t == After(s, acts, codec).(queue := t.queue) && At(t.queue, Q.Outside, Q.Idle, None, [e])
  {
    hide IsRun;
    hide After;
    hide Enabled;
    hide Step;
    longer := RunQueues(s, acts, Q.Advance(0), codec);
    assert At(After(s, longer, codec).queue, Q.PushAppend(e), Q.Idle, Some(0), []);
    longer := RunQueues(s, longer, Q.Advance(0), codec);
    assert At(After(s, longer, codec).queue, Q.PushNotify, Q.Idle, Some(0), [e]);
    longer := RunQueues(s, longer, Q.NotifyOne(0, None), codec);
    assert At(After(s, longer, codec).queue, Q.PushUnlock, Q.Idle, Some(0), [e]);
    longer := RunQueues(s, longer, Q.Advance(0), codec);
  }

  /** The worker takes it. */
  lemma Takes(s: Sys, acts: seq<Act>, e: Event, codec: Codec) returns (longer: seq<Act>)
    requires IsRun(s, acts, codec) && At(After(s, acts, codec).queue, Q.Outside, Q.Idle, None, [e])
    ensures IsRun(s, longer, codec)
    ensures var t := After(s, longer, codec);
            t == After(s, acts, codec).(queue := t.queue) && At(t.queue, Q.Outside, Q.Analyzing(e), None, [])
  {
    hide IsRun;
    hide After;
    hide Enabled;
    hide Step;
    longer := RunQueues(s, acts, Q.BeginPop(1), codec);
    assert At(After(s, longer, codec).queue, Q.Outside, Q.PopLock, None, [e]);
    longer := RunQueues(s, longer, Q.Advance(1), codec);
    assert At(After(s, longer, codec).queue, Q.Outside, Q.PopTest, Some(1), [e]);
    longer := RunQueues(s, longer, Q.Advance(1), codec);
    assert At(After(s, longer, codec).queue, Q.Outside, Q.PopTake, Some(1), [e]);
    longer := RunQueues(s, longer, Q.Advance(1), codec);
    assert At(After(s, longer, codec).queue, Q.Outside, Q.PopUnlock(Some(e)), Some(1), []);
    longer := RunQueues(s, longer, Q.Advance(1), codec);
  }

  const START := Sys([], Q.Monitor([], false, None, [Q.Outside, Q.Idle], [], [], [], [], [], []), 0)

  /** Two requests whose messages each fit one buffer. */
  ghost predicate Suited(codec: Codec, conn: Conn, a: Request, b: Request) {
    && conn.id == 0 && conn.handle.Some? && Assembling(conn, EMPTY_PIPE)
    && a.token != "" && 0 < |RequestBytes(codec, a)| <= BUFFER_SIZE && RequestBytes(codec, b) != []
    && InitResponse(a).Some? && 0 < |ResponseBytes(codec, InitResponse(a).value)| <= BUFFER_SIZE
  }

  /** A browser joins and asks. */
  lemma Asking(codec: Codec, conn: Conn, a: Request, b: Request) returns (acts: seq<Act>)
    requires Lawful(codec) && Suited(codec, conn, a, b)
    ensures IsRun(START, acts, codec)
    ensures var t := After(START, acts, codec);
            && At(t.queue, Q.Outside, Q.Idle, None, []) && t.agent == 0
            && Asked(t, Pipe([RequestBytes(codec, a)], 0), EMPTY_PIPE, a) && t.chans[0].conn == conn
  {
    hide Assembling;
    acts := [];
    RunExtends(START, acts, Joins(conn), codec);
    acts := acts + [Joins(conn)];
    assert Q.Live(START.queue, OnPipe(conn.handle)) == 0;
    assert After(START, acts, codec).chans == [NewChan(conn, false)];
    RunExtends(START, acts, Send(0, a, WritesAtOnce), codec);
    acts := acts + [Send(0, a, WritesAtOnce)];
    assert [] + [RequestBytes(codec, a)] == [RequestBytes(codec, a)];
  }

  /** A session whose browser waits for an answer to `a`. */
  predicate Asked(s: Sys, toAgent: Pipe, toBrowser: Pipe, a: Request) {
    && |s.chans| == 1
    && s.chans[0] == NewChan(s.chans[0].conn, false).(toAgent := toAgent, toBrowser := toBrowser,
                                                      client := Waiting(a.token, []))
  }

  /** The agent reads the request and offers its event. */
  lemma Reads(codec: Codec, conn: Conn, a: Request, b: Request, t: Sys) returns (e: Event)
    requires Lawful(codec) && Suited(codec, conn, a, b)
    requires At(t.queue, Q.Outside, Q.Idle, None, []) && t.agent == 0
    requires Asked(t, Pipe([RequestBytes(codec, a)], 0), EMPTY_PIPE, a) && t.chans[0].conn == conn
    ensures Enabled(t, AgentReads(0, Done), codec)
    ensures var u := Step(t, AgentReads(0, Done), codec);
            && At(u.queue, Q.PushLock(e), Q.Idle, None, []) && Asked(u, EMPTY_PIPE, EMPTY_PIPE, a)
            && Holds(u.chans[0], e.pipe) && e.conn == 0 && e.response == InitResponse(a).value
  {
    var ch, bytes := t.chans[0], RequestBytes(codec, a);
    assert Assembling(conn, ch.toAgent);
    assert !Read(ch.toAgent, conn.readSize).more && |bytes| <= MAX_INT;
    assert codec.parseRequest(bytes) == Some(ChromeToAgent(Some(a), None, None));
    hide Lawful;
    hide ReadNext;
    ReadLast(conn, ch.toAgent, Done, codec.parseRequest);
    ReadRequests(conn, ch.toAgent, Done, codec.parseRequest);
    e := Dispatched(ch, Done, codec)[0];
    hide Assembling;
    hide InitResponse;
    hide Requests;
  }

  /** The worker answers. */
  lemma Answers(codec: Codec, conn: Conn, a: Request, b: Request, e: Event, t: Sys) returns (act: Act)
    requires Lawful(codec) && Suited(codec, conn, a, b)
    requires At(t.queue, Q.Outside, Q.Analyzing(e), None, []) && Asked(t, EMPTY_PIPE, EMPTY_PIPE, a)
    requires Holds(t.chans[0], e.pipe) && e.conn == 0 && e.response == InitResponse(a).value
    ensures Enabled(t, act, codec)
    ensures Asked(Step(t, act, codec), EMPTY_PIPE, Pipe([ResponseBytes(codec, InitResponse(a).value)], 0), a)
  {
    var response := InitResponse(a).value;
    var bytes := ResponseBytes(codec, response);
    var io := Writing(None, _ => E.WroteAll);
    E.WholeWriteIsOneMessage(bytes, None, io.writes);
    assert Chunks(codec, response, io) == [bytes];
    assert [] + [bytes] == [bytes];
    hide Lawful;
    hide InitResponse;
    hide Chunks;
    act := Respond(1, response, io);
    var u := Step(t, act, codec);
    assert u.chans[0] == AfterWrite(t.chans[0], 0, e, bytes, [bytes]);
  }

  /** The browser gives up before it has read the answer, and asks again. */
  lemma AsksAgain(codec: Codec, b: Request, a: Request, answer: Bytes, t: Sys)
    requires Asked(t, EMPTY_PIPE, Pipe([answer], 0), a) && RequestBytes(codec, b) != []
    ensures Enabled(t, ClientFails(0), codec)
    ensures var u := Step(t, ClientFails(0), codec);
            && Enabled(u, Send(0, b, WritesAtOnce), codec)
            && var v := Step(u, Send(0, b, WritesAtOnce), codec);
               && |v.chans| == 1 && v.chans[0].client == Waiting(b.token, []) && v.chans[0].toBrowser == Pipe([answer], 0)
               && v.chans[0].completed == [] && v.chans[0].failedSends == 1 && !v.chans[0].reissued
  {
  }

  /** What it reads is the first answer. */
  lemma ReadsFirstAnswer(codec: Codec, response: Response, token: string, t: Sys)
    requires Lawful(codec) && 0 < |ResponseBytes(codec, response)| <= BUFFER_SIZE && |t.chans| == 1
    requires t.chans[0].client == Waiting(token, []) && t.chans[0].toBrowser == Pipe([ResponseBytes(codec, response)], 0)
    requires t.chans[0].completed == []
    ensures Enabled(t, ClientReads(0), codec)
    ensures var u := Step(t, ClientReads(0), codec);
            && |u.chans| == 1 && u.chans[0].completed == [Completed(token, response)]
            && u.chans[0].failedSends == t.chans[0].failedSends && u.chans[0].reissued == t.chans[0].reissued
  {
    var bytes := ResponseBytes(codec, response);
    assert codec.parseResponse(bytes) == Some(AgentToChrome(Some(response)));
    SizedIff(bytes);
    assert Answered(codec, bytes) == Some(response);
    hide Lawful;
    hide Answered;
    assert Read(t.chans[0].toBrowser, BUFFER_SIZE).data == bytes && [] + bytes == bytes;
  }

  lemma FirstToken(codec: Codec, conn: Conn, a: Request, b: Request)
    requires Suited(codec, conn, a, b)
    ensures InitResponse(a).value.token == a.token
    ensures RequestBytes(codec, b) != [] && 0 < |ResponseBytes(codec, InitResponse(a).value)| <= BUFFER_SIZE
  {
  }

  /** From the start: a browser asks, gives up before its answer comes, and asks again; the second Send returns
      0 with the first one's response. With different tokens that is another request's. */
  lemma AbandonedSendMisleadsTheNext(codec: Codec, conn: Conn, a: Request, b: Request) returns (acts: seq<Act>)
    requires Lawful(codec) && Suited(codec, conn, a, b)
    ensures Initial(START) && IsRun(START, acts, codec)
    ensures var chans := After(START, acts, codec).chans;
            && |chans| == 1 && chans[0].failedSends == 1 && !chans[0].reissued
            && |chans[0].completed| == 1 && chans[0].completed[0].token == b.token
            && chans[0].completed[0].response.token == a.token
            && (OwnResponses(chans[0].completed) <==> a.token == b.token)
  {
    hide Lawful;
    hide IsRun;
    hide After;
    hide Enabled;
    hide Step;
    FirstToken(codec, conn, a, b);
    hide Suited;
    var response := InitResponse(a).value;
    hide InitResponse;
    acts := Asking(codec, conn, a, b);
    var e := Reads(codec, conn, a, b, After(START, acts, codec));
    RunExtends(START, acts, AgentReads(0, Done), codec);
    acts := acts + [AgentReads(0, Done)];
    acts := Offers(START, acts, e, codec);
    acts := Takes(START, acts, e, codec);
    var act := Answers(codec, conn, a, b, e, After(START, acts, codec));
    RunExtends(START, acts, act, codec);
    acts := acts + [act];
    AsksAgain(codec, b, a, ResponseBytes(codec, response), After(START, acts, codec));
    RunExtends(START, acts, ClientFails(0), codec);
    acts := acts + [ClientFails(0)];
    RunExtends(START, acts, Send(0, b, WritesAtOnce), codec);
    acts := acts + [Send(0, b, WritesAtOnce)];
    ReadsFirstAnswer(codec, response, b.token, After(START, acts, codec));
    RunExtends(START, acts, ClientReads(0), codec);
    acts := acts + [ClientReads(0)];
  }
}
