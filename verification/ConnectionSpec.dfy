/** One agent connection as a function of its state and of what the operating system answers
    (agent/src/agent_win.cc, `AgentWin::Connection`). */
module ConnectionSpec {
  import opened Common
  import opened Protocol
  import opened ResponseEdits

  /** The overlapped operation outstanding on a connection. */
  datatype Operation = NoOperation | Listening | Reading(at: nat, size: nat)

  /** `handle` and `cursor` are `None` for INVALID_HANDLE_VALUE and nullptr; a handle stands for one pipe
      instance, a cursor for an offset into `buffer`. `signalled` is the state of the manual-reset event:
      set when an operation finishes, cleared by ResetEvent and when a read or a connect is begun. */
  datatype Conn = Conn(
    id: nat,
    hasEvent: bool,
    handle: Option<nat>,
    connected: bool,
    info: BrowserInfo,
    buffer: Bytes,
    cursor: Option<nat>,
    readSize: nat,
    finalSize: nat,
    operation: Operation,
    signalled: bool)

  datatype AnalysisEvent = AnalysisEvent(
    conn: nat, pipe: Option<nat>, info: BrowserInfo, request: Request, response: Response)

  datatype Context =
    | ConnectionReset | GetOverlappedResult | QueueRead | OnRead
    | ParseChromeToAgent | RequestValidation | NoRequestOrAck | BuildBrowser

  /** Calls on the agent's handler. `ToParser` is not one: it records what is handed to the parser. */
  datatype Callback =
    | BrowserConnected(pipe: Option<nat>, info: BrowserInfo)
    | BrowserDisconnected(info: BrowserInfo)
    | AnalysisRequested(event: AnalysisEvent)
    | ResponseAcknowledged(ack: Acknowledgement)
    | CancelRequested(cancel: CancelRequests)
    | InternalError(context: Context, rc: ResultCode)
    | ToParser(bytes: Bytes)

  datatype Outcome = Outcome(conn: Conn, rc: ResultCode, calls: seq<Callback>)

  /** What `GetOverlappedResult` reports, with the bytes the operating system stored. */
  datatype Completion = Succeeded(data: Bytes) | Failed(err: RealError, data: Bytes)

  datatype Lookup = PidFails | PathFails(pid: nat) | Found(info: BrowserInfo)

  datatype ConnectReturn = ReturnsTrue(last: WinError) | ReturnsFalse(err: RealError)

  /** Answers to DisconnectNamedPipe or CreatePipe, ResetEvent, ConnectNamedPipe and SetEvent. */
  datatype ResetEnv = ResetEnv(pipe: ApiResult, clear: ApiResult, connect: ConnectReturn, signal: ApiResult)

  datatype CreateEnv = CreateEnv(eventCreated: bool, reset: ResetEnv)

  type Parser = Bytes -> Option<ChromeToAgent>

  /** The codes `HandleEvent` does not treat as a failure. */
  predicate Fine(rc: ResultCode) {
    rc == Ok || rc == ErrIoPending || rc == ErrMoreData
  }

  function NotifyIfError(context: Context, rc: ResultCode): seq<Callback> {
    if rc == Ok then [] else [InternalError(context, rc)]
  }

  /** The operating system finishing the outstanding operation. */
  function Finish(c: Conn, data: Bytes): Conn {
    if c.operation.Reading? && c.operation.at + |data| <= |c.buffer|
    then c.(buffer := Overwrite(c.buffer, c.operation.at, data), operation := NoOperation, signalled := true)
    else c.(operation := NoOperation, signalled := true)
  }

  function Cleaned(c: Conn): Conn {
    c.(connected := false, info := NO_BROWSER, buffer := [], cursor := None, readSize := 0, finalSize := 0,
       operation := NoOperation)
  }

  function CleanupCalls(c: Conn): seq<Callback> {
    if c.connected then [BrowserDisconnected(c.info)] else []
  }

  function BuildBrowserInfo(c: Conn, lookup: Lookup): Outcome {
    match lookup
    case PidFails => Outcome(c, ErrCannotGetBrowserPid, [InternalError(BuildBrowser, ErrCannotGetBrowserPid)])
    case PathFails(pid) =>
      Outcome(c.(info := c.info.(pid := pid)), ErrCannotGetBrowserBinaryPath,
              [InternalError(BuildBrowser, ErrCannotGetBrowserBinaryPath)])
    case Found(info) => Outcome(c.(info := info), Ok, [])
  }

  /** A pending read leaves the event clear and a finished one set; one that cannot be queued leaves it as
      it is. */
  function QueueReadFile(c: Conn, reset: bool, read: ApiResult): Outcome {
    var c1 := if reset then c.(cursor := Some(0), readSize := ToDword(|c.buffer|), finalSize := 0) else c;
    var rc := ApiCode(read);
    var at := if c1.cursor.Some? then c1.cursor.value else 0;
    Outcome(if Fine(rc) then c1.(operation := Reading(at, c1.readSize), signalled := rc != ErrIoPending) else c1,
            rc,
            if Fine(rc) || rc == ErrBrokenPipe then [] else [InternalError(QueueRead, rc)])
  }

  /** The first `finalSize` bytes of the buffer. */
  function Message(c: Conn): Bytes {
    if c.finalSize <= |c.buffer| then c.buffer[..c.finalSize] else c.buffer
  }

  function EventFor(c: Conn, request: Request, response: Response): AnalysisEvent {
    AnalysisEvent(c.id, c.handle, c.info, request, response)
  }

  /** Dispatch of a parsed message: its result code and the handler calls. */
  function Dispatch(c: Conn, message: Option<ChromeToAgent>): (ResultCode, seq<Callback>) {
    match message
    case None =>
      (ErrInvalidRequestFromBrowser, [InternalError(ParseChromeToAgent, ErrInvalidRequestFromBrowser)])
    case Some(m) =>
      if m.request.Some? then
        var response := InitResponse(m.request.value);
        if response.Some? then (Ok, [AnalysisRequested(EventFor(c, m.request.value, response.value))])
        else (ErrMissingRequestToken, [InternalError(RequestValidation, ErrMissingRequestToken)])
      else if m.ack.Some? then (Ok, [ResponseAcknowledged(m.ack.value)])
      else if m.cancel.Some? then (Ok, [CancelRequested(m.cancel.value)])
      else (ErrInvalidRequestFromBrowser, [InternalError(NoRequestOrAck, ErrInvalidRequestFromBrowser)])
  }

  /** The parser takes its size as an `int`: from 2^31 bytes on it is negative, and nothing is parsed. */
  function ParseWhole(bytes: Bytes, parse: Parser): Option<ChromeToAgent> {
    if |bytes| <= MAX_INT then parse(bytes) else None
  }

  function Given(bytes: Bytes): seq<Callback> {
    if |bytes| <= MAX_INT then [ToParser(bytes)] else []
  }

  function CallHandler(c: Conn, parse: Parser): Outcome {
    var (rc, calls) := Dispatch(c, ParseWhole(Message(c), parse));
    Outcome(c, rc, Given(Message(c)) + calls)
  }

  function OnReadFile(c: Conn, completion: Completion, parse: Parser): Outcome {
    var c1 := c.(finalSize := ToDword(c.finalSize + |completion.data|));
    match completion
    case Succeeded(_) => CallHandler(c1, parse)
    case Failed(err, _) =>
      var rc := ErrorToResultCode(err);
      if err == MoreData then
        Outcome(c1.(readSize := BUFFER_SIZE,
                    buffer := Resize(c1.buffer, |c1.buffer| + BUFFER_SIZE),
                    cursor := Some(|c1.buffer|)),
                rc, [])
      else Outcome(c1, rc, NotifyIfError(OnRead, rc))
  }

  /** First half of HandleEvent: a browser arrives, or part of a message does. */
  function Receive(c: Conn, completion: Completion, lookup: Lookup, parse: Parser): Outcome {
    var c0 := Finish(c, completion.data);
    if c0.connected then OnReadFile(c0, completion, parse)
    else
      match completion
      case Succeeded(_) =>
        var o := BuildBrowserInfo(c0.(connected := true, buffer := Resize(c0.buffer, BUFFER_SIZE)), lookup);
        if o.rc == Ok then o.(calls := o.calls + [BrowserConnected(o.conn.handle, o.conn.info)]) else o
      case Failed(err, _) =>
        var rc := ErrorToResultCode(err);
        Outcome(c0, rc, NotifyIfError(GetOverlappedResult, rc))
  }

  /** Second half: queue the next read if all went well. */
  function QueueNext(o: Outcome, read: ApiResult): Outcome {
    if o.rc == Ok || o.rc == ErrMoreData then
      var q := QueueReadFile(o.conn, o.rc == Ok, read);
      q.(calls := o.calls + q.calls)
    else o
  }

  /** Last: clean up after a failure, and hide the codes that are none. */
  function Settle(q: Outcome): Outcome {
    if Fine(q.rc) then q.(rc := Ok)
    else Outcome(Cleaned(q.conn), q.rc, q.calls + CleanupCalls(q.conn))
  }

  function Continue(o: Outcome, read: ApiResult): Outcome {
    Settle(QueueNext(o, read))
  }

  function HandleEvent(c: Conn, completion: Completion, lookup: Lookup, read: ApiResult, parse: Parser): Outcome {
    Continue(Receive(c, completion, lookup, parse), read)
  }

  function ConnectPipe(env: ResetEnv): ResultCode {
    match env.connect
    case ReturnsTrue(last) => ErrorToResultCode(last)
    case ReturnsFalse(err) =>
      if err == IoPending then Ok
      else if err == PipeConnected then ApiCode(env.signal)
      else ErrorToResultCode(err)
  }

  /** The event after ConnectPipe, which finds it clear: set by a connect that finishes at once, or by SetEvent
      for a browser that is already there. */
  function SetByConnect(env: ResetEnv): bool {
    match env.connect
    case ReturnsTrue(_) => true
    case ReturnsFalse(err) => err == PipeConnected && env.signal.Done?
  }

  /** `instance` is the pipe instance a successful CreatePipe returns. */
  function ResetInternal(c: Conn, env: ResetEnv, instance: nat): Outcome {
    var rc0 := ApiCode(env.pipe);
    var c1 := if c.handle.None? && rc0 == Ok then c.(handle := Some(instance)) else c;
    var rc1 := if rc0 == Ok then ApiCode(env.clear) else rc0;
    var rc := if rc1 == Ok then ConnectPipe(env) else rc1;
    var c2 := if rc1 == Ok then c1.(signalled := SetByConnect(env)) else c1;
    if rc == Ok then Outcome(c2.(operation := Listening), Ok, [])
    else Outcome(Cleaned(c2).(handle := None), rc, CleanupCalls(c2))
  }

  function Reset(c: Conn, env: ResetEnv, instance: nat): Outcome {
    var o := ResetInternal(c, env, instance);
    o.(calls := o.calls + NotifyIfError(ConnectionReset, o.rc))
  }

  function NewConn(id: nat, env: CreateEnv, instance: nat): Outcome {
    var c := Conn(id, env.eventCreated, None, false, NO_BROWSER, [], None, 0, 0, NoOperation, false);
    if env.eventCreated then ResetInternal(c, env.reset, instance)
    else Outcome(c, ErrCannotCreateChannelIoEvent, [])
  }
}
