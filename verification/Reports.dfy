/** Which errors are reported and returned: the agent's construction, a connection's events and its resets. */
module ErrorReports {
  import opened Common
  import opened Protocol
  import opened ResponseEdits
  import opened ConnectionSpec
  import opened Sessions
  import opened PoolSpec
  import opened PoolRuns
  import opened ReassemblyRuns
  import opened ListenerRuns

  // ---- Construction ----

  /** Two errors have the same code only if it is the unexpected one, and only SUCCESS is no error. */
  lemma CodesTellErrorsApart(a: WinError, b: WinError)
    ensures ErrorToResultCode(a) == ErrorToResultCode(b) ==> a == b || ErrorToResultCode(a) == ErrUnexpected
    ensures ErrorToResultCode(a) == Ok <==> a == Success
    ensures ErrorToResultCode(a) == ErrUnexpected <==> a == PipeConnected || a == OtherError
  {
  }

  /** A reset's code is that of its first failing call, or Ok. */
  lemma ResetCodes(c: Conn, env: ResetEnv, instance: nat)
    ensures var rc := ResetInternal(c, env, instance).rc;
            && (rc == Ok <==> Works(env))
            && (env.pipe.Fail? ==> rc == ErrorToResultCode(env.pipe.err))
            && (env.pipe.Done? && env.clear.Fail? ==> rc == ErrorToResultCode(env.clear.err))
            && (env.pipe.Done? && env.clear.Done? ==>
                  && (env.connect.ReturnsTrue? ==> rc == ErrorToResultCode(env.connect.last))
                  && (env.connect.ReturnsFalse? && env.connect.err != IoPending && env.connect.err != PipeConnected ==>
                        rc == ErrorToResultCode(env.connect.err))
                  && (env.connect == ReturnsFalse(PipeConnected) && env.signal.Fail? ==>
                        rc == ErrorToResultCode(env.signal.err)))
  {
  }

  /** A reset reports its failure, after the disconnection of a browser that is still there, and nothing when
      it works. One that works keeps the pipe the connection has, or takes the new one if it has none. Once
      ResetEvent has worked, the event is left set only for a browser that is there already. */
  lemma ResetReports(c: Conn, env: ResetEnv, instance: nat)
    ensures var o := Reset(c, env, instance);
            && o.calls == (if Works(env) then []
                           else (if c.connected then [BrowserDisconnected(c.info)] else [])
                                + [InternalError(ConnectionReset, o.rc)])
            && o.rc == ResetInternal(c, env, instance).rc
            && o.conn.handle == (if !Works(env) then None else if c.handle.Some? then c.handle else Some(instance))
            && (Works(env) ==> o.conn.operation == Listening && o.conn.buffer == c.buffer)
            && o.conn.signalled == if env.pipe.Fail? || env.clear.Fail? then c.signalled
                                   else env.connect.ReturnsTrue? || (env.connect.err == PipeConnected && env.signal.Done?)
  {
  }

  lemma CreationCodes(id: nat, env: CreateEnv, instance: nat)
    ensures var n := NewConn(id, env, instance);
            && (n.rc == Ok <==> CreateWorks(env))
            && (!env.eventCreated ==> n.rc == ErrCannotCreateChannelIoEvent)
            && (env.eventCreated && env.reset.pipe == Fail(AccessDenied) ==> n.rc == ErrAgentAlreadyExists)
            && (env.eventCreated && env.reset.pipe == Fail(InvalidName) ==> n.rc == ErrInvalidChannelName)
            && (env.eventCreated && env.reset.pipe.Fail? ==> n.rc == ErrorToResultCode(env.reset.pipe.err))
            && (n.rc == Ok ==> n.conn.handle == Some(instance) && n.conn.operation == Listening && !n.conn.connected)
            && n.calls == []
  {
  }

  /** An agent is constructed exactly if it is given a handler, the stop event can be created, the pipe name is
      valid, and both its first listeners can be created; otherwise the code is that of the first of these
      that fails. A pipe of that name already there is another agent. */
  lemma CreateOkIff(env: SetupEnv)
    ensures var rc := Create(env).rc;
            && (rc == Ok <==> && env.handlerGiven && env.stopCreated && env.nameValid
                              && CreateWorks(env.creations(0)) && CreateWorks(env.creations(1)))
            && (!env.handlerGiven ==> rc == ErrAgentEventHandlerNotSpecified)
            && (env.handlerGiven && !env.stopCreated ==> rc == ErrCannotCreateAgentStopEvent)
            && (env.handlerGiven && env.stopCreated && !env.nameValid ==> rc == ErrInvalidChannelName)
            && (env.handlerGiven && env.stopCreated && env.nameValid && !CreateWorks(env.creations(0)) ==>
                  rc == NewConn(0, env.creations(0), 0).rc)
            && (env.handlerGiven && env.stopCreated && env.nameValid && CreateWorks(env.creations(0)) ==>
                  rc == NewConn(1, env.creations(1), 1).rc)
  {
    CreationCodes(0, env.creations(0), 0);
    CreationCodes(1, env.creations(1), 1);
    hide NewConn;
    hide CreateWorks;
    if env.handlerGiven && env.stopCreated && env.nameValid {
      var p := NO_POOL.(stopEvent := true);
      var s1 := AddListener(p, env.creations(0));
      var s2 := AddListener(s1.pool, env.creations(1));
      assert AddListeners(s2.pool, MIN_LISTENING, env.creations) == Setup(s2.pool, Ok);
      assert AddListeners(p, 0, env.creations) == Create(env);
    }
  }

  // ---- A connection's events ----

  /** The bytes received when this completion ends a message. */
  function Received(c: Conn, completion: Completion): Bytes {
    Message(Finish(c, completion.data).(finalSize := ToDword(c.finalSize + |completion.data|)))
  }

  function MessageIn(c: Conn, completion: Completion, parse: Parser): Option<ChromeToAgent> {
    ParseWhole(Received(c, completion), parse)
  }

  predicate GoodMessage(m: Option<ChromeToAgent>) {
    m.Some? && Acceptable(m.value)
  }

  /** Whether the event comes to queueing the next read. */
  predicate ReadsOn(c: Conn, completion: Completion, lookup: Lookup, parse: Parser) {
    || (completion.Failed? && completion.err == MoreData)
    || (completion.Succeeded? && if c.connected then GoodMessage(MessageIn(c, completion, parse)) else lookup.Found?)
  }

  /** The code that an event reports under this context, if it reports any. */
  function Reported(c: Conn, completion: Completion, lookup: Lookup, read: ApiResult, parse: Parser,
                    context: Context): Option<ResultCode> {
    if context.QueueRead? then if ReadsOn(c, completion, lookup, parse) then ReportedRead(read) else None
    else if !c.connected then ReportedByAccept(completion, lookup, context)
    else if completion.Succeeded? then ReportedOfMessage(MessageIn(c, completion, parse), context)
    else if context.OnRead? && completion.err != MoreData then Some(ErrorToResultCode(completion.err))
    else None
  }

  function ReportedRead(read: ApiResult): Option<ResultCode> {
    if read.Fail? && read.err != IoPending && read.err != MoreData && read.err != BrokenPipe
    then Some(ErrorToResultCode(read.err)) else None
  }

  function ReportedByAccept(completion: Completion, lookup: Lookup, context: Context): Option<ResultCode> {
    if context.GetOverlappedResult? && completion.Failed? then Some(ErrorToResultCode(completion.err))
    else if context.BuildBrowser? && completion.Succeeded? && lookup.PidFails? then Some(ErrCannotGetBrowserPid)
    else if context.BuildBrowser? && completion.Succeeded? && lookup.PathFails? then Some(ErrCannotGetBrowserBinaryPath)
    else None
  }

  function ReportedOfMessage(message: Option<ChromeToAgent>, context: Context): Option<ResultCode> {
    match message
    case None => if context.ParseChromeToAgent? then Some(ErrInvalidRequestFromBrowser) else None
    case Some(m) =>
      if context.RequestValidation? && m.request.Some? && m.request.value.token == "" then Some(ErrMissingRequestToken)
      else if context.NoRequestOrAck? && m.request.None? && m.ack.None? && m.cancel.None?
      then Some(ErrInvalidRequestFromBrowser)
      else None
  }

  function Times(calls: seq<Callback>, call: Callback): nat {
    multiset(calls)[call]
  }

  /** Calls that hold this report once if it is the one reported, and no other report under this context. */
  predicate Holds(calls: seq<Callback>, context: Context, rc: ResultCode, reported: Option<ResultCode>) {
    Times(calls, InternalError(context, rc)) == if reported == Some(rc) then 1 else 0
  }

  lemma TimesConcat(a: seq<Callback>, b: seq<Callback>, call: Callback)
    ensures Times(a + b, call) == Times(a, call) + Times(b, call)
  {
    assert multiset(a + b) == multiset(a) + multiset(b);
  }

  lemma TimesOne(call: Callback, other: Callback)
    ensures Times([other], call) == if call == other then 1 else 0
    ensures Times([], call) == 0
  {
  }

  /** The handling of one message reports what is wrong with it, and returns the code reported. */
  lemma DispatchReports(c: Conn, m: Option<ChromeToAgent>, context: Context, rc: ResultCode)
    ensures var (code, calls) := Dispatch(c, m);
            && Holds(calls, context, rc, ReportedOfMessage(m, context))
            && (code == Ok <==> GoodMessage(m))
            && code != ErrMoreData && code != ErrIoPending
            && (ReportedOfMessage(m, context) == Some(rc) ==> code == rc)
  {
    var (code, calls) := Dispatch(c, m);
    TimesOne(InternalError(context, rc), calls[0]);
    assert calls == [calls[0]];
    hide Times;
  }

  lemma MessageReports(c: Conn, completion: Completion, parse: Parser, context: Context, rc: ResultCode)
    requires c.connected && completion.Succeeded?
    ensures var o := OnReadFile(Finish(c, completion.data), completion, parse);
            && Holds(o.calls, context, rc, ReportedOfMessage(MessageIn(c, completion, parse), context))
            && (o.rc == Ok <==> GoodMessage(MessageIn(c, completion, parse)))
            && o.rc != ErrMoreData && o.rc != ErrIoPending
            && (ReportedOfMessage(MessageIn(c, completion, parse), context) == Some(rc) ==> o.rc == rc)
  {
    hide Message;
    hide ParseWhole;
    hide GoodMessage;
    hide Dispatch;
    hide ReportedOfMessage;
    var c0 := Finish(c, completion.data);
    FinishKeeps(c, completion.data);
    hide Finish;
    hide Times;
    var c1 := c0.(finalSize := ToDword(c.finalSize + |completion.data|));
    DispatchReports(c1, MessageIn(c, completion, parse), context, rc);
    var calls := Dispatch(c1, MessageIn(c, completion, parse)).1;
    TimesConcat(Given(Message(c1)), calls, InternalError(context, rc));
    TimesOne(InternalError(context, rc), ToParser(Message(c1)));
  }

  lemma FinishKeeps(c: Conn, data: Bytes)
    ensures var f := Finish(c, data);
            f.connected == c.connected && f.finalSize == c.finalSize && f.handle == c.handle && f.info == c.info
  {
  }

  lemma AcceptReports(c: Conn, completion: Completion, lookup: Lookup, parse: Parser, context: Context, rc: ResultCode)
    requires !c.connected
    ensures var o := Receive(c, completion, lookup, parse);
            && Holds(o.calls, context, rc, ReportedByAccept(completion, lookup, context))
            && (o.rc == Ok <==> completion.Succeeded? && lookup.Found?)
            && (completion.Failed? ==> o.rc == ErrorToResultCode(completion.err))
            && (completion.Succeeded? && !lookup.Found? ==> o.rc != ErrMoreData && o.rc != ErrIoPending)
            && (ReportedByAccept(completion, lookup, context) == Some(rc) ==> o.rc == rc)
  {
    FinishKeeps(c, completion.data);
    hide Finish;
    hide OnReadFile;
    var call := InternalError(context, rc);
    var o := Receive(c, completion, lookup, parse);
    TimesOne(call, o.calls[0]);
    assert o.calls == [o.calls[0]];
    hide Times;
  }

  lemma BrokenReadReports(c: Conn, completion: Completion, parse: Parser, context: Context, rc: ResultCode)
    requires completion.Failed?
    ensures var o := OnReadFile(c, completion, parse);
            && Holds(o.calls, context, rc,
                     if context.OnRead? && completion.err != MoreData then Some(ErrorToResultCode(completion.err)) else None)
            && o.rc == ErrorToResultCode(completion.err)
  {
    hide CallHandler;
    TimesOne(InternalError(context, rc), InternalError(OnRead, ErrorToResultCode(completion.err)));
    hide Times;
  }

  lemma ReceiveReports(c: Conn, completion: Completion, lookup: Lookup, parse: Parser, context: Context, rc: ResultCode)
    ensures var o := Receive(c, completion, lookup, parse);
            var reported := Reported(c, completion, lookup, Done, parse, context);
            && Holds(o.calls, context, rc, reported)
            && (o.rc == Ok || o.rc == ErrMoreData <==> ReadsOn(c, completion, lookup, parse))
            && (o.rc == ErrIoPending <==> completion.Failed? && completion.err == IoPending)
            && (reported == Some(rc) ==> o.rc == rc)
  {
    FinishKeeps(c, completion.data);
    var c0 := Finish(c, completion.data);
    hide Finish;
    hide Holds;
    hide MessageIn;
    hide GoodMessage;
    hide OnReadFile;
    if !c.connected {
      AcceptReports(c, completion, lookup, parse, context, rc);
      hide Receive;
      assert context.QueueRead? ==> ReportedByAccept(completion, lookup, context) == None;
    } else {
      assert Receive(c, completion, lookup, parse) == OnReadFile(c0, completion, parse);
      hide Receive;
      hide ReportedByAccept;
      if completion.Succeeded? {
        MessageReports(c, completion, parse, context, rc);
        assert context.QueueRead? ==> ReportedOfMessage(MessageIn(c, completion, parse), context) == None;
      } else {
        BrokenReadReports(c0, completion, parse, context, rc);
        hide ReportedOfMessage;
      }
    }
  }

  /** The second half reports a read that cannot be queued, unless the browser has only gone. */
  lemma ContinueReports(o: Outcome, read: ApiResult, context: Context, rc: ResultCode)
    ensures var all := Continue(o, read);
            var goesOn := o.rc == Ok || o.rc == ErrMoreData;
            && Times(all.calls, InternalError(context, rc)) == Times(o.calls, InternalError(context, rc))
               + (if context.QueueRead? && goesOn && ReportedRead(read) == Some(rc) then 1 else 0)
            && (goesOn ==> all.rc == if Fine(ApiCode(read)) then Ok else ApiCode(read))
            && (!goesOn ==> all.rc == if o.rc == ErrIoPending then Ok else o.rc)
  {
    hide Times;
    hide Cleaned;
    var call := InternalError(context, rc);
    var tail := if o.rc == Ok || o.rc == ErrMoreData then QueueReadFile(o.conn, o.rc == Ok, read).calls else [];
    var q := QueueNext(o, read);
    assert q.calls == o.calls + tail;
    TimesConcat(o.calls, tail, call);
    TimesOne(call, InternalError(QueueRead, ApiCode(read)));
    TimesConcat(q.calls, CleanupCalls(q.conn), call);
    TimesOne(call, BrowserDisconnected(q.conn.info));
  }

  /** For every answer of the system, exactly which errors the handler is told of in one event, and each once;
      and the code the event returns. */
  lemma EventReports(c: Conn, completion: Completion, lookup: Lookup, read: ApiResult, parse: Parser,
                     context: Context, rc: ResultCode)
    ensures var o := HandleEvent(c, completion, lookup, read, parse);
            var reported := Reported(c, completion, lookup, read, parse, context);
            && Holds(o.calls, context, rc, reported)
            && (o.rc == Ok <==> || (completion.Failed? && completion.err == IoPending)
                                || (ReadsOn(c, completion, lookup, parse)
                                    && (read.Done? || read.err == IoPending || read.err == MoreData)))
            && (ReadsOn(c, completion, lookup, parse) && o.rc != Ok ==> o.rc == ApiCode(read))
            && (!ReadsOn(c, completion, lookup, parse) && reported == Some(rc) && o.rc != Ok ==> o.rc == rc)
  {
    ReceiveReports(c, completion, lookup, parse, context, rc);
    var o := Receive(c, completion, lookup, parse);
    ContinueReports(o, read, context, rc);
    hide Receive;
    hide ReadsOn;
    hide MessageIn;
    hide ReportedByAccept;
    hide ReportedOfMessage;
    hide Times;
    hide Continue;
  }
}
