/** The agent's objects, updated in place as the source does, and proved to follow their specification
    functions (agent/src/agent_win.cc). Answers of the operating system are parameters. */
module AgentObjects {
  import opened Common
  import opened Protocol
  import opened ResponseEdits
  import Spec = ConnectionSpec
  import opened PoolSpec

  /** The handler an agent is given; it only remembers its calls. */
  class AgentEventHandler {
    var log: seq<Entry>

    constructor ()
      ensures log == []
    {
      log := [];
    }

    method Call(conn: nat, call: Spec.Callback)
      modifies this
      ensures log == old(log) + Tag(conn, [call])
    {
      log := log + [Entry(conn, call)];
    }
  }

  lemma TagConcat(id: nat, a: seq<Spec.Callback>, b: seq<Spec.Callback>)
    ensures Tag(id, a + b) == Tag(id, a) + Tag(id, b)
  {
  }

  lemma HandleEventKeepsId(c: Spec.Conn, completion: Spec.Completion, lookup: Spec.Lookup, read: ApiResult, parse: Spec.Parser)
    ensures Spec.HandleEvent(c, completion, lookup, read, parse).conn.id == c.id
  {
    assert Spec.Receive(c, completion, lookup, parse).conn.id == c.id;
  }

  // The pool's reaction split where the code branches.

  /** A listener is added if connection `i` has just been taken by a browser. */
  function Replaced(p: Pool, i: nat, rc: ResultCode, wasListening: bool, env: Spec.CreateEnv): Pool
    requires i < |p.conns|
  {
    var n := Spec.NewConn(p.nextId, env, p.nextHandle + 1);
    if rc == Ok && wasListening && p.conns[i].connected
    then p.(conns := p.conns + [n.conn], log := p.log + Tag(p.nextId, n.calls), nextId := p.nextId + 1,
            nextHandle := p.nextHandle + 2)
    else p.(nextHandle := p.nextHandle + 2)
  }

  function Became(p: Pool, i: nat, o: Spec.Outcome): Pool
    requires i < |p.conns|
  {
    p.(conns := p.conns[i := o.conn], log := p.log + Tag(p.conns[i].id, o.calls))
  }

  function Erased(p: Pool, i: nat): Pool
    requires i < |p.conns|
  {
    p.(conns := p.conns[..i] + p.conns[i + 1..],
       log := p.log + Tag(p.conns[i].id, Spec.CleanupCalls(p.conns[i])))
  }

  /** After connection `i` failed. */
  function Recovered(p: Pool, i: nat, wasListening: bool, env: Env): Pool
    requires i < |p.conns|
  {
    if !wasListening && |p.conns| > MIN_LISTENING then Erased(p, i).(nextHandle := p.nextHandle + 2)
    else
      var r := Spec.Reset(p.conns[i], env.reset, p.nextHandle);
      Replaced(Became(p, i, r), i, r.rc, wasListening, env.create)
  }

  lemma ReactionSteps(p: Pool, i: nat, env: Env, parse: Spec.Parser)
    requires i < |p.conns|
    ensures Apply(p, i, React(p, i, env, parse)) == Reaction(p, i, env, parse)
  {
    hide Spec.HandleEvent;
    hide Spec.Reset;
    hide Spec.NewConn;
    hide Spec.CleanupCalls;
    hide Tag;
    var c := p.conns[i];
    var o := Spec.HandleEvent(c, env.completion, env.lookup, env.read, parse);
    HandleEventKeepsId(c, env.completion, env.lookup, env.read, parse);
    LogJoin(p.log, c.id, o.calls, Spec.CleanupCalls(o.conn));
    LogJoin(p.log, c.id, o.calls, Spec.Reset(o.conn, env.reset, p.nextHandle).calls);
  }

  function Reaction(p: Pool, i: nat, env: Env, parse: Spec.Parser): Pool
    requires i < |p.conns|
  {
    var o := Spec.HandleEvent(p.conns[i], env.completion, env.lookup, env.read, parse);
    var q := Became(p, i, o);
    if o.rc != Ok then Recovered(q, i, !p.conns[i].connected, env)
    else Replaced(q, i, Ok, !p.conns[i].connected, env.create)
  }

  lemma LogJoin(log: seq<Entry>, id: nat, a: seq<Spec.Callback>, b: seq<Spec.Callback>)
    ensures log + Tag(id, a) + Tag(id, b) == log + Tag(id, a + b)
  {
    TagConcat(id, a, b);
    assert log + Tag(id, a) + Tag(id, b) == log + (Tag(id, a) + Tag(id, b));
  }

  lemma NoCalls(log: seq<Entry>, id: nat)
    ensures Tag(id, []) == [] && log + Tag(id, []) == log
  {
  }

  lemma ShutdownNext(log: seq<Entry>, conns: seq<Spec.Conn>, i: nat)
    requires i < |conns|
    ensures log + ShutdownLog(conns[i..])
         == log + Tag(conns[i].id, Spec.CleanupCalls(conns[i])) + ShutdownLog(conns[i + 1..])
  {
    hide Spec.CleanupCalls;
    assert conns[i..][0] == conns[i] && conns[i..][1..] == conns[i + 1..];
    var tagged := Tag(conns[i].id, Spec.CleanupCalls(conns[i]));
    assert log + (tagged + ShutdownLog(conns[i + 1..])) == log + tagged + ShutdownLog(conns[i + 1..]);
  }

  class Connection {
    const id: nat
    const handler: AgentEventHandler
    const parse: Spec.Parser

    var hasEvent: bool
    var handle: Option<nat>
    var connected: bool
    var info: BrowserInfo
    var buffer: Bytes
    var cursor: Option<nat>
    var readSize: nat
    var finalSize: nat

    // What the operating system is still doing for this connection, and the state of the event.
    var operation: Spec.Operation
    var signalled: bool

    function State(): Spec.Conn
      reads this
    {
      Spec.Conn(id, hasEvent, handle, connected, info, buffer, cursor, readSize, finalSize, operation, signalled)
    }

    /** This connection and its handler's log are as `o` says, given the log before. */
    ghost predicate Follows(o: Spec.Outcome, before: seq<Entry>)
      reads this, handler
    {
      State() == o.conn && handler.log == before + Tag(id, o.calls)
    }

    constructor (id: nat, handler: AgentEventHandler, parse: Spec.Parser, eventCreated: bool)
      ensures this.id == id && this.handler == handler && this.parse == parse
      ensures State() == Spec.Conn(id, eventCreated, None, false, NO_BROWSER, [], None, 0, 0, Spec.NoOperation, false)
    {
      this.id, this.handler, this.parse, hasEvent := id, handler, parse, eventCreated;
      handle, connected, info, buffer := None, false, NO_BROWSER, [];
      cursor, readSize, finalSize, operation, signalled := None, 0, 0, Spec.NoOperation, false;
    }

    /** The rest of the source's constructor. */
    method Start(env: Spec.CreateEnv, instance: nat) returns (rc: ResultCode)
      requires State() == Spec.Conn(id, env.eventCreated, None, false, NO_BROWSER, [], None, 0, 0, Spec.NoOperation, false)
      modifies this, handler
      ensures rc == Spec.NewConn(id, env, instance).rc && Follows(Spec.NewConn(id, env, instance), old(handler.log))
    {
      if !hasEvent {
        NoCalls(handler.log, id);
        return ErrCannotCreateChannelIoEvent;
      }
      rc := ResetInternal(env.reset, instance);
    }

    method Notify(call: Spec.Callback)
      modifies handler
      ensures handler.log == old(handler.log) + Tag(id, [call])
    {
      handler.Call(id, call);
    }

    method NotifyIfError(context: Spec.Context, rc: ResultCode)
      modifies handler
      ensures handler.log == old(handler.log) + Tag(id, Spec.NotifyIfError(context, rc))
    {
      NoCalls(handler.log, id);
      if rc != Ok {
        Notify(Spec.InternalError(context, rc));
      }
    }

    method Cleanup()
      modifies this, handler
      ensures Follows(Spec.Outcome(Spec.Cleaned(old(State())), Ok, Spec.CleanupCalls(old(State()))), old(handler.log))
    {
      NoCalls(handler.log, id);
      if connected {
        Notify(Spec.BrowserDisconnected(info));
      }
      connected, info, buffer, cursor := false, NO_BROWSER, [], None;
      readSize, finalSize := 0, 0;
      // CancelIoEx, or no handle and so nothing outstanding.
      operation := Spec.NoOperation;
    }

    /** The buffer is never resized while a read into it is queued. */
    method ResizeBuffer(size: nat)
      requires !operation.Reading?
      modifies this`buffer
      ensures buffer == Resize(old(buffer), size)
    {
      buffer := Resize(buffer, size);
    }

    /** The operating system has stored the bytes of the finished operation. */
    method GetOverlappedResult(completion: Spec.Completion) returns (success: bool, count: nat)
      modifies this`buffer, this`operation, this`signalled
      ensures State() == Spec.Finish(old(State()), completion.data)
      ensures success == completion.Succeeded? && count == |completion.data|
    {
      success, count := completion.Succeeded?, |completion.data|;
      if operation.Reading? && operation.at + count <= |buffer| {
        buffer := Overwrite(buffer, operation.at, completion.data);
      }
      operation, signalled := Spec.NoOperation, true;
    }

    method BuildBrowserInfo(lookup: Spec.Lookup) returns (rc: ResultCode)
      modifies this`info, handler
      ensures rc == Spec.BuildBrowserInfo(old(State()), lookup).rc
      ensures Follows(Spec.BuildBrowserInfo(old(State()), lookup), old(handler.log))
    {
      NoCalls(handler.log, id);
      match lookup {
        case PidFails =>
          rc := ErrCannotGetBrowserPid;
          NotifyIfError(Spec.BuildBrowser, rc);
        case PathFails(pid) =>
          info := info.(pid := pid);
          rc := ErrCannotGetBrowserBinaryPath;
          NotifyIfError(Spec.BuildBrowser, rc);
        case Found(found) =>
          info := found;
          rc := Ok;
      }
    }

    method QueueReadFile(reset: bool, read: ApiResult) returns (rc: ResultCode)
      requires operation == Spec.NoOperation
      modifies this`cursor, this`readSize, this`finalSize, this`operation, this`signalled, handler
      ensures rc == Spec.QueueReadFile(old(State()), reset, read).rc
      ensures Follows(Spec.QueueReadFile(old(State()), reset, read), old(handler.log))
    {
      NoCalls(handler.log, id);
      if reset {
        cursor := Some(0);
        readSize := ToDword(|buffer|);
        finalSize := 0;
      }
      rc := ApiCode(read);
      if Spec.Fine(rc) {
        operation := Spec.Reading(if cursor.Some? then cursor.value else 0, readSize);
        signalled := rc != ErrIoPending;
      } else if rc != ErrBrokenPipe {
        NotifyIfError(Spec.QueueRead, rc);
      }
    }

    method CallHandler() returns (rc: ResultCode)
      modifies handler
      ensures rc == Spec.CallHandler(State(), parse).rc
      ensures Follows(Spec.CallHandler(old(State()), parse), old(handler.log))
    {
      hide Tag;
      ghost var before := handler.log;
      var bytes := Spec.Message(State());
      hide Spec.Message;
      LogJoin(before, id, Spec.Given(bytes), Spec.Dispatch(State(), Spec.ParseWhole(bytes, parse)).1);
      NoCalls(before, id);
      var message: Option<ChromeToAgent> := None;
      if |bytes| <= MAX_INT {
        Notify(Spec.ToParser(bytes));
        message := parse(bytes);
      }
      assert handler.log == before + Tag(id, Spec.Given(bytes)) && message == Spec.ParseWhole(bytes, parse);
      hide Spec.ParseWhole;
      hide Spec.Given;
      rc := DispatchMessage(message);
    }

    /** The part of `CallHandler` after parsing. */
    method DispatchMessage(message: Option<ChromeToAgent>) returns (rc: ResultCode)
      modifies handler
      ensures rc == Spec.Dispatch(State(), message).0
      ensures handler.log == old(handler.log) + Tag(id, Spec.Dispatch(State(), message).1)
    {
      hide Tag;
      if message.None? {
        rc := ErrInvalidRequestFromBrowser;
        NotifyIfError(Spec.ParseChromeToAgent, rc);
      } else if message.value.request.Some? {
        var request := message.value.request.value;
        var response := InitResponse(request);
        if response.Some? {
          rc := Ok;
          Notify(Spec.AnalysisRequested(Spec.AnalysisEvent(id, handle, info, request, response.value)));
        } else {
          rc := ErrMissingRequestToken;
          NotifyIfError(Spec.RequestValidation, rc);
        }
      } else if message.value.ack.Some? {
        rc := Ok;
        Notify(Spec.ResponseAcknowledged(message.value.ack.value));
      } else if message.value.cancel.Some? {
        rc := Ok;
        Notify(Spec.CancelRequested(message.value.cancel.value));
      } else {
        rc := ErrInvalidRequestFromBrowser;
        NotifyIfError(Spec.NoRequestOrAck, rc);
      }
    }

    method OnReadFile(done: bool, count: nat, completion: Spec.Completion) returns (rc: ResultCode)
      requires operation == Spec.NoOperation
      requires done == completion.Succeeded? && count == |completion.data|
      modifies this`finalSize, this`readSize, this`buffer, this`cursor, handler
      ensures rc == Spec.OnReadFile(old(State()), completion, parse).rc
      ensures Follows(Spec.OnReadFile(old(State()), completion, parse), old(handler.log))
    {
      hide Spec.Dispatch;
      hide Spec.Message;
      hide Tag;
      finalSize := ToDword(finalSize + count);
      if done {
        rc := CallHandler();
        return;
      }
      hide Spec.CallHandler;
      NoCalls(handler.log, id);
      rc := ErrorToResultCode(completion.err);
      if completion.err == MoreData {
        readSize := BUFFER_SIZE;
        ResizeBuffer(|buffer| + BUFFER_SIZE);
        cursor := Some(|buffer| - readSize);
        return;
      }
      NotifyIfError(Spec.OnRead, rc);
    }

    method HandleEvent(completion: Spec.Completion, lookup: Spec.Lookup, read: ApiResult) returns (rc: ResultCode)
      modifies this, handler
      ensures rc == Spec.HandleEvent(old(State()), completion, lookup, read, parse).rc
      ensures Follows(Spec.HandleEvent(old(State()), completion, lookup, read, parse), old(handler.log))
    {
      hide Spec.Receive;
      hide Spec.QueueReadFile;
      hide Spec.CleanupCalls;
      hide Spec.Cleaned;
      hide Tag;
      ghost var before := handler.log;
      ghost var received := Spec.Receive(State(), completion, lookup, parse);
      rc := Receive(completion, lookup);
      ghost var queued := Spec.QueueNext(received, read);
      if rc == Ok || rc == ErrMoreData {
        ghost var q := Spec.QueueReadFile(received.conn, rc == Ok, read);
        LogJoin(before, id, received.calls, q.calls);
        rc := QueueReadFile(rc == Ok, read);
      }
      assert Follows(queued, before) && rc == queued.rc;
      hide Spec.QueueNext;
      if Spec.Fine(rc) {
        rc := Ok;
      } else {
        LogJoin(before, id, queued.calls, Spec.CleanupCalls(queued.conn));
        Cleanup();
      }
    }

    /** The part of `HandleEvent` before the next read is queued. */
    method Receive(completion: Spec.Completion, lookup: Spec.Lookup) returns (rc: ResultCode)
      modifies this, handler
      ensures rc == Spec.Receive(old(State()), completion, lookup, parse).rc
      ensures Follows(Spec.Receive(old(State()), completion, lookup, parse), old(handler.log))
      ensures operation == Spec.NoOperation
    {
      NoCalls(handler.log, id);
      var success, count := GetOverlappedResult(completion);
      if !connected {
        if success {
          connected := true;
          ResizeBuffer(BUFFER_SIZE);
          rc := BuildBrowserInfo(lookup);
          if rc == Ok {
            Notify(Spec.BrowserConnected(handle, info));
          }
        } else {
          rc := ErrorToResultCode(completion.err);
          NotifyIfError(Spec.GetOverlappedResult, rc);
        }
      } else {
        rc := OnReadFile(success, count, completion);
      }
    }

    method ConnectPipe(env: Spec.ResetEnv) returns (rc: ResultCode)
      requires !signalled
      modifies this`signalled
      ensures rc == Spec.ConnectPipe(env) && signalled == Spec.SetByConnect(env)
    {
      match env.connect {
        case ReturnsTrue(last) =>
          signalled := true;
          return ErrorToResultCode(last);
        case ReturnsFalse(last) =>
          var err: WinError := last;
          if err == IoPending {
            return Ok;
          } else if err == PipeConnected {
            if env.signal.Done? {
              signalled := true;
              err := Success;
            } else {
              err := env.signal.err;
            }
          }
          rc := ErrorToResultCode(err);
      }
    }

    method ResetInternal(env: Spec.ResetEnv, instance: nat) returns (rc: ResultCode)
      modifies this, handler
      ensures rc == Spec.ResetInternal(old(State()), env, instance).rc
      ensures Follows(Spec.ResetInternal(old(State()), env, instance), old(handler.log))
    {
      NoCalls(handler.log, id);
      rc := ApiCode(env.pipe);
      if handle.None? && rc == Ok {
        handle := Some(instance);
      }
      if rc == Ok {
        rc := ApiCode(env.clear);
      }
      if rc == Ok {
        signalled := false;
        rc := ConnectPipe(env);
      }
      if rc == Ok {
        operation := Spec.Listening;
      } else {
        Cleanup();
        handle := None;
      }
    }

    method Reset(env: Spec.ResetEnv, instance: nat) returns (rc: ResultCode)
      modifies this, handler
      ensures rc == Spec.Reset(old(State()), env, instance).rc
      ensures Follows(Spec.Reset(old(State()), env, instance), old(handler.log))
    {
      ghost var o := Spec.ResetInternal(State(), env, instance);
      LogJoin(handler.log, id, o.calls, Spec.NotifyIfError(Spec.ConnectionReset, o.rc));
      rc := ResetInternal(env, instance);
      NotifyIfError(Spec.ConnectionReset, rc);
    }
  }

  function States(connections: seq<Connection>): (s: seq<Spec.Conn>)
    reads connections
    ensures |s| == |connections|
    ensures forall i :: 0 <= i < |connections| ==> s[i] == connections[i].State()
  {
    seq(|connections|, i requires 0 <= i < |connections| reads connections => connections[i].State())
  }

  class AgentWin {
    const handler: AgentEventHandler
    const parse: Spec.Parser

    var connections: seq<Connection>
    var stopEvent: bool

    // Numbers for the next connection object and the next pipe instance.
    var nextId: nat
    var nextHandle: nat

    ghost predicate Valid()
      reads this, connections
    {
      && (forall i :: 0 <= i < |connections| ==> connections[i].handler == handler && connections[i].parse == parse)
      && (forall i, j :: 0 <= i < j < |connections| ==> connections[i] != connections[j])
    }

    function Model(): Pool
      reads this, connections, handler
    {
      Pool(States(connections), nextId, nextHandle, stopEvent, handler.log)
    }

    constructor (handler: AgentEventHandler, parse: Spec.Parser)
      requires handler.log == []
      ensures Valid() && Model() == NO_POOL && connections == []
      ensures this.handler == handler && this.parse == parse
    {
      this.handler, this.parse := handler, parse;
      connections, stopEvent, nextId, nextHandle := [], false, 0, 0;
    }

    /** Appends a connection listening on a new pipe instance. */
    method Add(env: Spec.CreateEnv, instance: nat) returns (rc: ResultCode)
      requires Valid()
      modifies this`connections, this`nextId, handler
      ensures Valid() && |connections| == |old(connections)| + 1 && connections[..|old(connections)|] == old(connections)
      ensures fresh(connections[|old(connections)|])
      ensures forall k :: 0 <= k < |connections| ==> connections[k] in old(connections) || fresh(connections[k])
      ensures var p := old(Model());
              var n := Spec.NewConn(p.nextId, env, instance);
              rc == n.rc && Model() == p.(conns := p.conns + [n.conn], nextId := p.nextId + 1, log := p.log + Tag(p.nextId, n.calls))
    {
      hide Spec.NewConn;
      ghost var p := Model();
      var c := new Connection(nextId, handler, parse, env.eventCreated);
      rc := c.Start(env, instance);
      connections := connections + [c];
      nextId := nextId + 1;
      assert States(connections) == p.conns + [c.State()];
    }

    method SignalAt(index: nat, env: Env) returns (rc: ResultCode)
      requires Valid() && index < |connections|
      modifies connections[index], handler
      ensures Valid()
      ensures var p := old(Model());
              var o := Spec.HandleEvent(p.conns[index], env.completion, env.lookup, env.read, parse);
              rc == o.rc && Model() == Became(p, index, o)
    {
      hide Spec.HandleEvent;
      ghost var p := Model();
      rc := connections[index].HandleEvent(env.completion, env.lookup, env.read);
      assert States(connections) == p.conns[index := connections[index].State()];
    }

    method ResetAt(index: nat, env: Spec.ResetEnv) returns (rc: ResultCode)
      requires Valid() && index < |connections|
      modifies connections[index], handler
      ensures Valid()
      ensures var p := old(Model());
              var o := Spec.Reset(p.conns[index], env, p.nextHandle);
              rc == o.rc && Model() == Became(p, index, o)
    {
      hide Spec.Reset;
      ghost var p := Model();
      rc := connections[index].Reset(env, nextHandle);
      assert States(connections) == p.conns[index := connections[index].State()];
    }

    /** Erasing an element destroys its connection. */
    method EraseAt(index: nat)
      requires Valid() && index < |connections|
      modifies this`connections, connections[index], handler
      ensures Valid() && connections == old(connections[..index] + connections[index + 1..])
      ensures Model() == Erased(old(Model()), index)
    {
      ghost var p := Model();
      connections[index].Cleanup();
      connections := connections[..index] + connections[index + 1..];
      assert States(connections) == p.conns[..index] + p.conns[index + 1..];
    }

    method ReplaceListener(index: nat, rc: ResultCode, wasListening: bool, env: Spec.CreateEnv)
      requires Valid() && index < |connections|
      modifies this`connections, this`nextId, this`nextHandle, handler
      ensures Valid() && (forall k :: 0 <= k < |connections| ==> connections[k] in old(connections) || fresh(connections[k]))
      ensures Model() == Replaced(old(Model()), index, rc, wasListening, env)
    {
      hide Spec.NewConn;
      hide Tag;
      ghost var p := Model();
      assert p.conns[index].connected == connections[index].connected;
      if rc == Ok && wasListening && connections[index].connected {
        var _ := Add(env, nextHandle + 1);
      }
      ghost var q := Model();
      nextHandle := nextHandle + 2;
      assert Model() == q.(nextHandle := p.nextHandle + 2);
    }

    method Recover(index: nat, wasListening: bool, env: Env)
      requires Valid() && index < |connections|
      modifies this, connections[index], handler
      ensures Valid() && (forall k :: 0 <= k < |connections| ==> connections[k] in old(connections) || fresh(connections[k]))
      ensures Model() == Recovered(old(Model()), index, wasListening, env)
    {
      hide Spec.Reset;
      hide Became;
      hide Replaced;
      hide Erased;
      if !wasListening && |connections| > MIN_LISTENING {
        EraseAt(index);
        nextHandle := nextHandle + 2;
      } else {
        var rc := ResetAt(index, env.reset);
        ReplaceListener(index, rc, wasListening, env.create);
      }
    }

    method AddFirst(env: Spec.CreateEnv) returns (rc: ResultCode)
      requires Valid()
      modifies this`connections, this`nextId, this`nextHandle, handler
      ensures Valid() && |connections| == |old(connections)| + 1 && connections[..|old(connections)|] == old(connections)
      ensures fresh(connections[|old(connections)|])
      ensures Setup(Model(), rc) == AddListener(old(Model()), env)
    {
      hide Spec.NewConn;
      rc := Add(env, nextHandle);
      nextHandle := nextHandle + 1;
    }

    /** The rest of the source's constructor. */
    method Start(env: SetupEnv) returns (rc: ResultCode)
      requires Valid() && Model() == NO_POOL
      modifies this, handler
      ensures Valid() && Model() == Create(env).pool && rc == Create(env).rc
    {
      hide AddListener;
      hide PoolSpec.Shutdown;
      if !env.handlerGiven {
        return ErrAgentEventHandlerNotSpecified;
      }
      if !env.stopCreated {
        return ErrCannotCreateAgentStopEvent;
      }
      stopEvent := true;
      if !env.nameValid {
        return ErrInvalidChannelName;
      }
      rc := Ok;
      var i := 0;
      while i < MIN_LISTENING
        invariant i <= MIN_LISTENING && i == |connections| && rc == Ok
        invariant Valid() && fresh(connections)
        invariant AddListeners(Model(), i, env.creations) == Create(env)
      {
        rc := AddFirst(env.creations(i));
        if rc != Ok || connections[|connections| - 1].handle.None? {
          Shutdown();
          return;
        }
        i := i + 1;
      }
    }

    method GetHandles() returns (handles: seq<WaitHandle>)
      requires Valid()
      ensures handles == Handles(States(connections))
    {
      handles := [];
      var i := 0;
      while i < |connections|
        invariant i <= |connections| && |handles| == i
        invariant forall k :: 0 <= k < i ==> connections[k].hasEvent && handles[k] == ConnEvent(connections[k].id)
      {
        if !connections[i].hasEvent {
          assert !AllHaveEvents(States(connections));
          return [StopEvent];
        }
        handles := handles + [ConnEvent(connections[i].id)];
        i := i + 1;
      }
      handles := handles + [StopEvent];
    }

    method NotifyError(rc: ResultCode)
      modifies handler
      ensures handler.log == old(handler.log) + [AgentError(rc)]
    {
      handler.log := handler.log + [AgentError(rc)];
    }

    method HandleOneEvent(env: Env) returns (rc: ResultCode, stopped: bool)
      requires Valid()
      modifies this, connections, handler
      ensures Valid() && (forall k :: 0 <= k < |connections| ==> connections[k] in old(connections) || fresh(connections[k]))
      ensures StepResult(Model(), rc, stopped) == Step(old(Model()), env, parse)
    {
      hide Spec.HandleEvent;
      hide Spec.NewConn;
      hide Spec.Reset;
      stopped := false;
      var handles := GetHandles();
      if |handles| < MIN_WAIT_HANDLES {
        rc := ErrAgentNotInitialized;
        NotifyError(rc);
        return;
      }
      if env.wait.WaitFailed? {
        rc := ErrorToResultCode(env.wait.err);
        NotifyError(rc);
        return;
      }
      if env.wait.index >= |handles| - 1 {
        return Ok, true;
      }
      Dispatch(env.wait.index, env);
      rc := Ok;
    }

    /** The part of `HandleOneEvent` after connection `index` was signalled. */
    method Dispatch(index: nat, env: Env)
      requires Valid() && index < |connections|
      modifies this, connections, handler
      ensures Valid() && (forall k :: 0 <= k < |connections| ==> connections[k] in old(connections) || fresh(connections[k]))
      ensures Model() == Apply(old(Model()), index, React(old(Model()), index, env, parse))
    {
      hide Spec.HandleEvent;
      hide Became;
      hide Replaced;
      hide Recovered;
      hide Apply;
      hide React;
      ReactionSteps(Model(), index, env, parse);
      var wasListening := !connections[index].connected;
      var rc := SignalAt(index, env);
      if rc != Ok {
        Recover(index, wasListening, env);
      } else {
        ReplaceListener(index, rc, wasListening, env.create);
      }
    }

    /** `envs` is what the operating system does while the agent runs. */
    method HandleEvents(envs: seq<Env>) returns (rc: ResultCode, running: bool)
      requires Valid()
      modifies this, connections, handler
      ensures Valid()
      ensures Loop(old(Model()), envs, parse)
           == if running then StillWaiting(Model()) else Returned(Model(), rc)
    {
      hide Step;
      rc := Ok;
      var stopped := false;
      var i := 0;
      assert envs[0..] == envs;
      while i < |envs| && !stopped && rc == Ok
        invariant i <= |envs| && Valid()
        invariant forall k :: 0 <= k < |connections| ==> connections[k] in old(connections) || fresh(connections[k])
        invariant Loop(old(Model()), envs, parse)
               == if stopped || rc != Ok then Returned(Model(), rc) else Loop(Model(), envs[i..], parse)
        decreases |envs| - i
      {
        assert envs[i..][0] == envs[i] && envs[i..][1..] == envs[i + 1..];
        rc, stopped := HandleOneEvent(envs[i]);
        i := i + 1;
      }
      running := !stopped && rc == Ok;
    }

    /** Also the whole of the destructor: the connections are destroyed in order. */
    method Shutdown()
      requires Valid()
      modifies this, connections, handler
      ensures Valid() && Model() == PoolSpec.Shutdown(old(Model()))
    {
      hide Spec.CleanupCalls;
      hide Spec.Cleaned;
      hide Tag;
      ghost var p := Model();
      var i := 0;
      assert p.conns[0..] == p.conns;
      while i < |connections|
        invariant i <= |connections| && connections == old(connections) && Valid()
        invariant nextId == p.nextId && nextHandle == p.nextHandle
        invariant forall k :: i <= k < |connections| ==> connections[k].State() == p.conns[k]
        invariant handler.log + ShutdownLog(p.conns[i..]) == p.log + ShutdownLog(p.conns)
      {
        ShutdownNext(handler.log, p.conns, i);
        hide ShutdownLog;
        connections[i].Cleanup();
        i := i + 1;
      }
      assert p.conns[i..] == [] && handler.log == p.log + ShutdownLog(p.conns);
      connections := [];
      stopEvent := false;
    }
  }
}
