/** The agent's pool of connections and its event loop as functions (agent/src/agent_win.cc, `AgentWin`). */
module PoolSpec {
  import opened Common
  import opened Protocol
  import opened ConnectionSpec

  /** `kMinNumListeningPipeInstances`. */
  const MIN_LISTENING: nat := 2

  /** `kMinNumWaitHandles`. */
  const MIN_WAIT_HANDLES: nat := MIN_LISTENING + 1

  /** One call on the handler: by a connection, or by the agent itself. */
  datatype Entry = Entry(conn: nat, call: Callback) | AgentError(rc: ResultCode)

  /** `nextId` and `nextHandle` number connection objects and pipe instances as they are created. */
  datatype Pool = Pool(conns: seq<Conn>, nextId: nat, nextHandle: nat, stopEvent: bool, log: seq<Entry>)

  datatype WaitHandle = ConnEvent(conn: nat) | StopEvent

  /** What WaitForMultipleObjects returns. */
  datatype Wait = WaitFailed(err: RealError) | Signalled(index: nat)

  /** Every answer the operating system gives during one step; unused ones are ignored. */
  datatype Env = Env(
    wait: Wait, completion: Completion, lookup: Lookup, read: ApiResult, reset: ResetEnv, create: CreateEnv)

  function Tag(id: nat, calls: seq<Callback>): (log: seq<Entry>)
    ensures |log| == |calls|
  {
    seq(|calls|, i requires 0 <= i < |calls| => Entry(id, calls[i]))
  }

  predicate AllHaveEvents(conns: seq<Conn>) {
    forall i :: 0 <= i < |conns| ==> conns[i].hasEvent
  }

  /** `GetHandles`: a connection without an event object leaves only the stop event. */
  function Handles(conns: seq<Conn>): seq<WaitHandle> {
    (if AllHaveEvents(conns)
     then seq(|conns|, i requires 0 <= i < |conns| => ConnEvent(conns[i].id)) else [])
    + [StopEvent]
  }

  /** What one signalled connection does to the pool: its new state (`None` when erased), a connection
      added at the end, and the handler calls. */
  datatype Change = Change(result: Option<Conn>, added: Option<Outcome>, calls: seq<Callback>)

  function Replacement(p: Pool, was: Conn, rc: ResultCode, now: Conn, env: Env): Option<Outcome> {
    if rc == Ok && !was.connected && now.connected
    then Some(NewConn(p.nextId, env.create, p.nextHandle + 1)) else None
  }

  function React(p: Pool, i: nat, env: Env, parse: Parser): Change
    requires i < |p.conns|
  {
    var c := p.conns[i];
    var o := HandleEvent(c, env.completion, env.lookup, env.read, parse);
    if o.rc == Ok then
      Change(Some(o.conn), Replacement(p, c, Ok, o.conn, env), o.calls)
    else if c.connected && |p.conns| > MIN_LISTENING then
      Change(None, None, o.calls + CleanupCalls(o.conn))
    else
      var r := Reset(o.conn, env.reset, p.nextHandle);
      Change(Some(r.conn), Replacement(p, c, r.rc, r.conn, env), o.calls + r.calls)
  }

  function Apply(p: Pool, i: nat, change: Change): Pool
    requires i < |p.conns|
  {
    var kept := if change.result.Some? then p.conns[i := change.result.value] else p.conns[..i] + p.conns[i + 1..];
    var log := p.log + Tag(p.conns[i].id, change.calls);
    match change.added
    case None => p.(conns := kept, log := log, nextHandle := p.nextHandle + 2)
    case Some(n) =>
      p.(conns := kept + [n.conn], log := log + Tag(p.nextId, n.calls), nextId := p.nextId + 1,
         nextHandle := p.nextHandle + 2)
  }

  datatype StepResult = StepResult(pool: Pool, rc: ResultCode, stopped: bool)

  /** `HandleOneEvent`. The last handle is the stop event. */
  function Step(p: Pool, env: Env, parse: Parser): StepResult {
    if |Handles(p.conns)| < MIN_WAIT_HANDLES then
      StepResult(p.(log := p.log + [AgentError(ErrAgentNotInitialized)]), ErrAgentNotInitialized, false)
    else
      match env.wait
      case WaitFailed(err) =>
        var rc := ErrorToResultCode(err);
        StepResult(p.(log := p.log + [AgentError(rc)]), rc, false)
      case Signalled(index) =>
        if index >= |Handles(p.conns)| - 1 then StepResult(p, Ok, true)
        else StepResult(Apply(p, index, React(p, index, env, parse)), Ok, false)
  }

  datatype LoopResult = Returned(pool: Pool, rc: ResultCode) | StillWaiting(pool: Pool)

  /** `HandleEvents` against a finite prefix of what the operating system does. */
  function Loop(p: Pool, envs: seq<Env>, parse: Parser): LoopResult
    decreases envs
  {
    if envs == [] then StillWaiting(p)
    else
      var s := Step(p, envs[0], parse);
      if s.stopped || s.rc != Ok then Returned(s.pool, s.rc) else Loop(s.pool, envs[1..], parse)
  }

  function ShutdownLog(conns: seq<Conn>): seq<Entry> {
    if conns == [] then [] else Tag(conns[0].id, CleanupCalls(conns[0])) + ShutdownLog(conns[1..])
  }

  function Shutdown(p: Pool): Pool {
    p.(conns := [], stopEvent := false, log := p.log + ShutdownLog(p.conns))
  }

  /** `creations` answers for the two first connections. */
  datatype SetupEnv = SetupEnv(handlerGiven: bool, stopCreated: bool, nameValid: bool, creations: nat -> CreateEnv)

  const NO_POOL := Pool([], 0, 0, false, [])

  datatype Setup = Setup(pool: Pool, rc: ResultCode)

  function AddListener(p: Pool, env: CreateEnv): Setup {
    var n := NewConn(p.nextId, env, p.nextHandle);
    Setup(p.(conns := p.conns + [n.conn], nextId := p.nextId + 1, nextHandle := p.nextHandle + 1,
             log := p.log + Tag(p.nextId, n.calls)), n.rc)
  }

  function AddListeners(p: Pool, i: nat, creations: nat -> CreateEnv): Setup
    requires i <= MIN_LISTENING
    decreases MIN_LISTENING - i
  {
    if i == MIN_LISTENING then Setup(p, Ok)
    else
      var s := AddListener(p, creations(i));
      if s.rc != Ok || s.pool.conns[|p.conns|].handle.None? then Setup(Shutdown(s.pool), s.rc)
      else AddListeners(s.pool, i + 1, creations)
  }

  /** The `AgentWin` constructor. */
  function Create(env: SetupEnv): Setup {
    if !env.handlerGiven then Setup(NO_POOL, ErrAgentEventHandlerNotSpecified)
    else if !env.stopCreated then Setup(NO_POOL, ErrCannotCreateAgentStopEvent)
    else if !env.nameValid then Setup(NO_POOL.(stopEvent := true), ErrInvalidChannelName)
    else AddListeners(NO_POOL.(stopEvent := true), 0, env.creations)
  }
}
