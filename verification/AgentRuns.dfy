/** The agent from construction to shutdown: what holds in every state of every run. */
module AgentRuns {
  import opened Common
  import opened Protocol
  import opened ConnectionSpec
  import opened Sessions
  import opened PoolSpec
  import opened PoolRuns

  // ---- Construction ----

  /** A connection that is not connected and has the next id joins without disturbing any session. */
  lemma JoinsOutside(p: Pool, c: Conn, q: Pool)
    requires Identified(p) && InSession(p) && !c.connected && c.id == p.nextId
    requires q.conns == p.conns + [c] && q.nextId == p.nextId + 1 && q.log == p.log
    ensures Identified(q) && InSession(q)
  {
    hide PhaseAt;
    FreshIdIsAbsent(p);
    forall id: nat | Absent(q.conns, id)
      ensures Absent(p.conns, id)
    {
      assert forall k :: 0 <= k < |p.conns| ==> q.conns[k] == p.conns[k];
    }
  }

  lemma JoinsOnOwnPipe(p: Pool, c: Conn, q: Pool)
    requires PipesApart(p) && p.log == []
    requires c.handle.Some? ==> c.handle.value == p.nextHandle
    requires q.conns == p.conns + [c] && q.nextHandle == p.nextHandle + 1 && q.log == p.log
    ensures PipesApart(q)
  {
  }

  lemma AddListenerKeeps(p: Pool, env: CreateEnv)
    requires Identified(p) && InSession(p) && PipesApart(p) && Tally(p.conns, Connected) == 0 && p.log == []
    ensures var s := AddListener(p, env);
            && Identified(s.pool) && InSession(s.pool) && PipesApart(s.pool)
            && Tally(s.pool.conns, Connected) == 0 && s.pool.log == []
            && Tally(s.pool.conns, NotConnected) == Tally(p.conns, NotConnected) + 1
  {
    hide NewConn;
    hide Tally;
    hide Identified;
    hide InSession;
    hide PipesApart;
    var s := AddListener(p, env);
    var n := NewConn(p.nextId, env, p.nextHandle);
    NewConnNames(p.nextId, env, p.nextHandle);
    TallyPush(p.conns, n.conn, NotConnected);
    TallyPush(p.conns, n.conn, Connected);
    assert s.pool.log == [];
    JoinsOutside(p, n.conn, s.pool);
    JoinsOnOwnPipe(p, n.conn, s.pool);
  }

  lemma FirstPoolHolds()
    ensures var p := NO_POOL.(stopEvent := true);
            && Identified(p) && InSession(p) && PipesApart(p) && Tally(p.conns, Connected) == 0
  {
    forall id: nat
      ensures PhaseAt([], id) == Outside
    {
      NoLog(id);
      AfterNone(Outside);
    }
  }

  /** A constructed agent has two connections and satisfies every pool invariant; a failed construction
      leaves none, and such an agent refuses to handle events. */
  lemma CreateEstablishes(env: SetupEnv, step: Env, parse: Parser)
    ensures var s := Create(env);
            if s.rc == Ok then Inv(s.pool) && |s.pool.conns| == MIN_LISTENING && s.pool.stopEvent && s.pool.log == []
            else s.pool.conns == [] && Step(s.pool, step, parse).rc == ErrAgentNotInitialized
  {
    hide NewConn;
    hide InSession;
    hide Identified;
    hide PipesApart;
    hide AfterAll;
    if env.handlerGiven && env.stopCreated && env.nameValid {
      var p := NO_POOL.(stopEvent := true);
      FirstPoolHolds();
      AddListenerKeeps(p, env.creations(0));
      var s1 := AddListener(p, env.creations(0));
      AddListenerKeeps(s1.pool, env.creations(1));
      var s2 := AddListener(s1.pool, env.creations(1));
      NewConnNames(0, env.creations(0), 0);
      NewConnNames(1, env.creations(1), 1);
      NewConnValid(0, env.creations(0), 0);
      NewConnValid(1, env.creations(1), 1);
      assert AddListeners(s2.pool, MIN_LISTENING, env.creations) == Setup(s2.pool, Ok);
      if s2.rc == Ok && s1.rc == Ok {
        assert SessionBalance(s2.pool.log) == 0;
      }
    }
  }

  lemma NewConnValid(id: nat, env: CreateEnv, instance: nat)
    ensures var n := NewConn(id, env, instance);
            n.rc == Ok ==> n.conn.handle == Some(instance) && n.conn.hasEvent && n.conn.operation == Listening
  {
  }

  // ---- Steps ----

  lemma AgentErrorKeeps(p: Pool, rc: ResultCode)
    requires Inv(p)
    ensures Inv(p.(log := p.log + [AgentError(rc)]))
  {
    hide AfterAll;
    hide CallsOf;
    hide SessionBalance;
    var e := AgentError(rc);
    var q := p.(log := p.log + [e]);
    LogConcat(p.log, [e], 0);
    LogOne(e, 0);
    forall id: nat
      ensures CallsOf(q.log, id) == CallsOf(p.log, id)
    {
      LogConcat(p.log, [e], id);
      LogOne(e, id);
    }
    forall pipe: nat | Requested(q.log, pipe)
      ensures Requested(p.log, pipe)
    {
      var k :| 0 <= k < |q.log| && RequestOn(q.log[k], pipe);
      assert RequestOn(p.log[k], pipe);
    }
  }

  lemma ReactKeepsInv(p: Pool, i: nat, env: Env, parse: Parser)
    requires Inv(p) && i < |p.conns|
    ensures Inv(Apply(p, i, React(p, i, env, parse)))
  {
    hide React;
    hide Coherent;
    hide Apply;
    PoolSize(p, i);
    ReactCoherent(p, i, env, parse);
    var change := React(p, i, env, parse);
    ApplyCounts(p, i, change);
    ApplyIdentifies(p, i, change);
    ApplyKeepsSessions(p, i, change);
    ApplyKeepsPipesApart(p, i, change);
  }

  /** Whatever the operating system answers, one step of the event loop keeps the pool invariants: exactly
      two connections not connected, callbacks in whole sessions, and no reused pipe. */
  lemma StepKeepsInv(p: Pool, env: Env, parse: Parser)
    requires Inv(p)
    ensures Inv(Step(p, env, parse).pool)
  {
    hide React;
    hide Apply;
    hide Inv;
    if Step(p, env, parse).rc != Ok {
      AgentErrorKeeps(p, Step(p, env, parse).rc);
    } else if env.wait.Signalled? && env.wait.index < |Handles(p.conns)| - 1 {
      ReactKeepsInv(p, env.wait.index, env, parse);
    }
  }

  /** Every handle below the last is the event of the connection at its index, so a signalled index names
      a connection or the stop event. */
  lemma HandlesMatchConnections(conns: seq<Conn>, i: nat)
    requires |Handles(conns)| >= MIN_WAIT_HANDLES && i < |Handles(conns)|
    ensures Handles(conns)[i] == StopEvent <==> i == |conns|
    ensures i != |conns| ==> i < |conns| && Handles(conns)[i] == ConnEvent(conns[i].id)
    ensures |Handles(conns)| == |conns| + 1
  {
  }

  /** A step fails exactly on a missing event object or a failed wait; what a browser sent, and how
      reading it went, does not matter. */
  lemma StepFailsIff(p: Pool, env: Env, parse: Parser)
    requires Counted(p)
    ensures Step(p, env, parse).rc != Ok <==> !AllHaveEvents(p.conns) || env.wait.WaitFailed?
    ensures Step(p, env, parse).stopped <==>
              AllHaveEvents(p.conns) && env.wait.Signalled? && env.wait.index >= |p.conns|
  {
    hide Apply;
    hide React;
    ConnectedOrNot(p.conns);
  }

  /** A step that does not react leaves the connections alone: without an event object it reports that the
      agent is not initialised, after a failed wait the wait's error, and the stop event it reports not at
      all. */
  lemma StepCodes(p: Pool, env: Env, parse: Parser)
    requires Counted(p)
    ensures !AllHaveEvents(p.conns) ==>
              Step(p, env, parse)
              == StepResult(p.(log := p.log + [AgentError(ErrAgentNotInitialized)]), ErrAgentNotInitialized, false)
    ensures AllHaveEvents(p.conns) && env.wait.WaitFailed? ==>
              var rc := ErrorToResultCode(env.wait.err);
              Step(p, env, parse) == StepResult(p.(log := p.log + [AgentError(rc)]), rc, false)
    ensures AllHaveEvents(p.conns) && env.wait.Signalled? && env.wait.index >= |p.conns| ==>
              Step(p, env, parse) == StepResult(p, Ok, true)
  {
    hide Apply;
    hide React;
    ConnectedOrNot(p.conns);
  }

  /** A step that reacts tells the handler everything its connection's event does, in order, and after that
      only the report of a reset. */
  lemma StepTells(p: Pool, i: nat, env: Env, parse: Parser)
    requires Counted(p) && AllHaveEvents(p.conns) && i < |p.conns| && env.wait == Signalled(i)
    ensures var c := p.conns[i];
            var o := HandleEvent(c, env.completion, env.lookup, env.read, parse);
            var reset := if o.rc != Ok && !c.connected then Reset(o.conn, env.reset, p.nextHandle).calls else [];
            Step(p, env, parse).pool.log == p.log + Tag(c.id, o.calls + reset)
  {
    hide HandleEvent;
    var c := p.conns[i];
    var o := HandleEvent(c, env.completion, env.lookup, env.read, parse);
    PoolSize(p, i);
    ConnectedOrNot(p.conns);
    HandleEventKeepsSession(c, env.completion, env.lookup, env.read, parse);
    NewConnNames(p.nextId, env.create, p.nextHandle + 1);
    hide Reset;
    hide NewConn;
    hide AfterAll;
    hide Balance;
    hide Tally;
    assert o.calls + [] == o.calls;
    assert Tag(p.nextId, []) == [];
  }

  /** `MAXIMUM_WAIT_OBJECTS`. */
  const MAX_WAIT: nat := 64

  /** The system refuses to wait on more handles than that. */
  predicate WaitIsLimited(p: Pool, env: Env) {
    |Handles(p.conns)| > MAX_WAIT ==> env.wait.WaitFailed?
  }

  /** What browsers send cannot make a step fail, but how many they are can: with 62 connected there is one
      handle too many, and HandleEvents returns an error. */
  lemma TooManyBrowsersEndTheLoop(p: Pool, envs: seq<Env>, parse: Parser)
    requires Counted(p) && AllHaveEvents(p.conns) && envs != [] && WaitIsLimited(p, envs[0])
    ensures |Handles(p.conns)| == MIN_WAIT_HANDLES + Tally(p.conns, Connected)
    ensures Tally(p.conns, Connected) > MAX_WAIT - MIN_WAIT_HANDLES ==>
              Loop(p, envs, parse).Returned? && Loop(p, envs, parse).rc != Ok && Loop(p, envs, parse).pool.conns == p.conns
  {
    hide Tally;
    hide React;
    hide Apply;
    ConnectedOrNot(p.conns);
    StepFailsIff(p, envs[0], parse);
  }

  function StepsFrom(p: Pool, envs: seq<Env>, parse: Parser): Pool
    decreases envs
  {
    if envs == [] then p else StepsFrom(Step(p, envs[0], parse).pool, envs[1..], parse)
  }

  /** The reason for which a call of HandleEvents that returned `rc` did so in its last step. */
  ghost predicate ReturnsHere(p: Pool, env: Env, rc: ResultCode) {
    var stop := AllHaveEvents(p.conns) && env.wait.Signalled? && env.wait.index >= |p.conns|;
    var broken := !AllHaveEvents(p.conns) || env.wait.WaitFailed?;
    Inv(p) && (rc == Ok <==> stop) && (rc != Ok <==> broken)
  }

  /** HandleEvents keeps the invariants, and returns only on stop (with OK), on a failed wait, or when
      some connection has no event object. */
  lemma {:induction false} LoopReturnsOnly(p: Pool, envs: seq<Env>, parse: Parser)
    requires Inv(p)
    ensures Inv(Loop(p, envs, parse).pool)
    ensures var r := Loop(p, envs, parse);
            r.Returned? ==> exists k :: 0 <= k < |envs| && ReturnsHere(StepsFrom(p, envs[..k], parse), envs[k], r.rc)
    decreases envs
  {
    hide Step;
    hide Inv;
    if envs != [] {
      var s := Step(p, envs[0], parse);
      StepKeepsInv(p, envs[0], parse);
      InvCounts(p);
      StepFailsIff(p, envs[0], parse);
      if s.stopped || s.rc != Ok {
        assert envs[..0] == [] && StepsFrom(p, envs[..0], parse) == p;
        assert ReturnsHere(StepsFrom(p, envs[..0], parse), envs[0], s.rc);
      } else {
        var rest := envs[1..];
        LoopReturnsOnly(s.pool, rest, parse);
        if Loop(p, envs, parse).Returned? {
          var rc := Loop(p, envs, parse).rc;
          var j :| 0 <= j < |rest| && ReturnsHere(StepsFrom(s.pool, rest[..j], parse), rest[j], rc);
          assert envs[..j + 1][1..] == rest[..j];
          assert ReturnsHere(StepsFrom(p, envs[..j + 1], parse), envs[j + 1], rc);
        }
      }
    }
  }

  /** What makes the loop return: stop, a failed wait, or a connection without an event object. */
  predicate Ends(p: Pool, env: Env) {
    !AllHaveEvents(p.conns) || env.wait.WaitFailed? || env.wait.index >= |p.conns|
  }

  predicate ReturnsFrom(p: Pool, env: Env, r: LoopResult, parse: Parser) {
    Ends(p, env) && r == Returned(Step(p, env, parse).pool, Step(p, env, parse).rc)
  }

  /** HandleEvents returns exactly when one of these happens, then and there, with that step's code; until
      then it goes on with every step. */
  lemma {:induction false} LoopReturnsIff(p: Pool, envs: seq<Env>, parse: Parser)
    requires Inv(p)
    ensures var r := Loop(p, envs, parse);
            && (r.Returned? <==> exists k :: 0 <= k < |envs| && Ends(StepsFrom(p, envs[..k], parse), envs[k]))
            && (r.Returned? ==> exists k :: 0 <= k < |envs| && ReturnsFrom(StepsFrom(p, envs[..k], parse), envs[k], r, parse))
            && (r.StillWaiting? ==> r.pool == StepsFrom(p, envs, parse))
    decreases envs
  {
    hide Step;
    hide Inv;
    if envs != [] {
      var s := Step(p, envs[0], parse);
      StepKeepsInv(p, envs[0], parse);
      InvCounts(p);
      StepFailsIff(p, envs[0], parse);
      assert envs[..0] == [] && StepsFrom(p, envs[..0], parse) == p;
      if s.stopped || s.rc != Ok {
        assert ReturnsFrom(StepsFrom(p, envs[..0], parse), envs[0], Loop(p, envs, parse), parse);
        assert Ends(StepsFrom(p, envs[..0], parse), envs[0]);
      } else {
        hide Ends;
        LoopReturnsLater(p, envs, parse);
      }
    }
  }

  lemma {:induction false} LoopReturnsLater(p: Pool, envs: seq<Env>, parse: Parser)
    requires Inv(p) && envs != []
    requires var s := Step(p, envs[0], parse); !s.stopped && s.rc == Ok
    ensures var r := Loop(p, envs, parse);
            && (r.Returned? <==> exists k :: 0 <= k < |envs| && Ends(StepsFrom(p, envs[..k], parse), envs[k]))
            && (r.Returned? ==> exists k :: 0 <= k < |envs| && ReturnsFrom(StepsFrom(p, envs[..k], parse), envs[k], r, parse))
            && (r.StillWaiting? ==> r.pool == StepsFrom(p, envs, parse))
    decreases envs, 0
  {
    hide Inv;
    var s, rest := Step(p, envs[0], parse), envs[1..];
    InvCounts(p);
    StepFailsIff(p, envs[0], parse);
    StepKeepsInv(p, envs[0], parse);
    assert !Ends(p, envs[0]);
    hide Step;
    hide Ends;
    LoopReturnsIff(s.pool, rest, parse);
    var r := Loop(p, envs, parse);
    assert envs[..0] == [] && StepsFrom(p, envs[..0], parse) == p;
    forall k | 0 <= k < |rest|
      ensures StepsFrom(p, envs[..k + 1], parse) == StepsFrom(s.pool, rest[..k], parse) && envs[k + 1] == rest[k]
    {
      assert envs[..k + 1][1..] == rest[..k];
    }
    if r.Returned? {
      var k :| 0 <= k < |rest| && ReturnsFrom(StepsFrom(s.pool, rest[..k], parse), rest[k], r, parse);
      assert ReturnsFrom(StepsFrom(p, envs[..k + 1], parse), envs[k + 1], r, parse);
      var j :| 0 <= j < |rest| && Ends(StepsFrom(s.pool, rest[..j], parse), rest[j]);
      assert Ends(StepsFrom(p, envs[..j + 1], parse), envs[j + 1]);
    } else {
      forall k | 0 <= k < |envs|
        ensures !Ends(StepsFrom(p, envs[..k], parse), envs[k])
      {
        if k > 0 {
          assert !Ends(StepsFrom(s.pool, rest[..k - 1], parse), rest[k - 1]);
        }
      }
    }
  }

  lemma InvCounts(p: Pool)
    requires Inv(p)
    ensures Counted(p)
  {
  }

  /** A connection that was connected at the start of a failing step is erased, never reset: its pipe and
      its place go, the other connections keep theirs. */
  lemma ConnectedFailureErases(p: Pool, i: nat, env: Env, parse: Parser)
    requires Inv(p) && AllHaveEvents(p.conns) && i < |p.conns| && env.wait == Signalled(i)
    requires p.conns[i].connected
    ensures var q := Step(p, env, parse).pool;
            if HandleEvent(p.conns[i], env.completion, env.lookup, env.read, parse).rc != Ok
            then q.conns == p.conns[..i] + p.conns[i + 1..]
            else |q.conns| == |p.conns| && q.conns[i].connected && q.conns[i].handle == p.conns[i].handle
  {
    hide HandleEvent;
    hide React;
    hide Inv;
    hide Names;
    hide AfterAll;
    hide Balance;
    InvCounts(p);
    PoolSize(p, i);
    hide Tally;
    ReactCoherent(p, i, env, parse);
  }

  // ---- Outstanding I/O ----

  /** Every connection is either quiet or has exactly one read queued inside its buffer. */
  predicate OneReadEach(p: Pool) {
    forall i :: 0 <= i < |p.conns| ==> if p.conns[i].connected then Active(p.conns[i]) else Quiet(p.conns[i])
  }

  lemma StepKeepsOneReadEach(p: Pool, i: nat, env: Env, parse: Parser)
    requires OneReadEach(p) && i < |p.conns| && Answers(p.conns[i], env.completion)
    ensures OneReadEach(Apply(p, i, React(p, i, env, parse)))
  {
    hide HandleEvent;
    var c := p.conns[i];
    SingleOutstandingRead(c, env.completion, env.lookup, env.read, parse);
    var o := HandleEvent(c, env.completion, env.lookup, env.read, parse);
    ResetIsQuiet(o.conn, env.reset, p.nextHandle);
    NewConnIsQuiet(p.nextId, env.create, p.nextHandle + 1);
    hide Reset;
    hide NewConn;
    hide Active;
    hide Quiet;
    ActiveConnected(o.conn);
  }

  lemma ActiveConnected(c: Conn)
    ensures Active(c) ==> c.connected
    ensures Quiet(c) ==> !c.connected
  {
  }

  lemma ResetIsQuiet(c: Conn, env: ResetEnv, instance: nat)
    ensures Quiet(c) ==> Quiet(Reset(c, env, instance).conn) && !Reset(c, env, instance).conn.connected
  {
  }

  lemma NewConnIsQuiet(id: nat, env: CreateEnv, instance: nat)
    ensures Quiet(NewConn(id, env, instance).conn) && !NewConn(id, env, instance).conn.connected
  {
  }

  /** The operating system answers each signalled connection as it may. */
  predicate AnswersAll(p: Pool, envs: seq<Env>, parse: Parser)
    decreases envs
  {
    envs == []
    || (var env := envs[0];
        && (env.wait.Signalled? && env.wait.index < |p.conns| ==> Answers(p.conns[env.wait.index], env.completion))
        && AnswersAll(Step(p, env, parse).pool, envs[1..], parse))
  }

  lemma {:induction false} LoopKeepsOneReadEach(p: Pool, envs: seq<Env>, parse: Parser)
    requires OneReadEach(p) && AnswersAll(p, envs, parse)
    ensures OneReadEach(Loop(p, envs, parse).pool)
    decreases envs
  {
    hide React;
    hide Apply;
    hide Answers;
    if envs != [] {
      var env, s := envs[0], Step(p, envs[0], parse);
      if s.rc == Ok && !s.stopped {
        StepKeepsOneReadEach(p, env.wait.index, env, parse);
        LoopKeepsOneReadEach(s.pool, envs[1..], parse);
      }
    }
  }

  lemma CreateReadsNothing(setup: SetupEnv)
    requires Create(setup).rc == Ok
    ensures OneReadEach(Create(setup).pool)
  {
    hide NewConn;
    hide OneReadEach;
    var p := NO_POOL.(stopEvent := true);
    var s1 := AddListener(p, setup.creations(0));
    var s2 := AddListener(s1.pool, setup.creations(1));
    AddQuiet(p, setup.creations(0));
    AddQuiet(s1.pool, setup.creations(1));
    assert AddListeners(s2.pool, MIN_LISTENING, setup.creations) == Setup(s2.pool, Ok);
    assert AddListeners(p, 0, setup.creations) == Create(setup);
    NothingReads(p);
    NothingReads(Shutdown(s1.pool));
    NothingReads(Shutdown(s2.pool));
  }

  lemma NothingReads(p: Pool)
    ensures p.conns == [] ==> OneReadEach(p)
  {
  }

  lemma AddQuiet(p: Pool, env: CreateEnv)
    ensures OneReadEach(p) ==> OneReadEach(AddListener(p, env).pool)
  {
    hide NewConn;
    NewConnIsQuiet(p.nextId, env, p.nextHandle);
  }

  /** In every run of the agent, each connection always has either exactly one read queued inside its
      buffer, or none and nothing left over. */
  lemma OneReadInEveryRun(setup: SetupEnv, envs: seq<Env>, parse: Parser)
    requires Create(setup).rc == Ok && AnswersAll(Create(setup).pool, envs, parse)
    ensures OneReadEach(Loop(Create(setup).pool, envs, parse).pool)
  {
    hide Create;
    hide Loop;
    hide AnswersAll;
    CreateReadsNothing(setup);
    LoopKeepsOneReadEach(Create(setup).pool, envs, parse);
  }

  // ---- Shutdown ----

  /** The phase the pool expects of `id`. */
  function Expected(conns: seq<Conn>, id: nat): Phase {
    if conns == [] then Outside
    else if conns[0].id == id then PhaseOf(conns[0]) else Expected(conns[1..], id)
  }

  lemma {:induction false} ExpectedPhase(conns: seq<Conn>, log: seq<Entry>, id: nat)
    requires forall i :: 0 <= i < |conns| ==> PhaseAt(log, conns[i].id) == PhaseOf(conns[i])
    requires Absent(conns, id) ==> PhaseAt(log, id) == Outside
    ensures PhaseAt(log, id) == Expected(conns, id)
  {
    hide PhaseAt;
    if conns != [] && conns[0].id != id {
      ExpectedPhase(conns[1..], log, id);
    }
  }

  lemma {:induction false} ExpectedOfAbsent(conns: seq<Conn>, id: nat)
    requires Absent(conns, id)
    ensures Expected(conns, id) == Outside
  {
    if conns != [] {
      ExpectedOfAbsent(conns[1..], id);
    }
  }

  lemma {:induction false} ShutdownCloses(conns: seq<Conn>, id: nat)
    requires forall i, j :: 0 <= i < j < |conns| ==> conns[i].id != conns[j].id
    ensures SessionBalance(ShutdownLog(conns)) == -(Tally(conns, Connected) as int)
    ensures AfterAll(Expected(conns, id), CallsOf(ShutdownLog(conns), id)) == Outside
  {
    hide SessionBalance;
    hide CallsOf;
    hide AfterAll;
    if conns == [] {
      NoLog(id);
      AfterNone(Outside);
    } else {
      var c, rest := conns[0], conns[1..];
      var calls := CleanupCalls(c);
      ShutdownCloses(rest, id);
      LogConcat(Tag(c.id, calls), ShutdownLog(rest), id);
      TagCalls(c.id, calls, id);
      AfterNone(Outside);
      AfterNone(Expected(conns, id));
      if c.connected {
        AfterOne(Inside(c.info), calls[0]);
      }
      if c.id == id {
        ExpectedOfAbsent(rest, id);
      }
      AfterAllConcat(Expected(conns, id), CallsOf(Tag(c.id, calls), id), CallsOf(ShutdownLog(rest), id));
    }
  }

  /** After shutdown every connection's callbacks are whole sessions: connected callbacks and failed
      lookups are matched by disconnected callbacks, one for one. */
  lemma ShutdownBalances(p: Pool)
    requires Inv(p)
    ensures var q := Shutdown(p);
            && q.conns == [] && !q.stopEvent && SessionBalance(q.log) == 0
            && (forall id: nat :: AfterAll(Outside, CallsOf(q.log, id)) == Outside)
  {
    hide CallsOf;
    hide AfterAll;
    hide SessionBalance;
    LogConcat(p.log, ShutdownLog(p.conns), 0);
    ShutdownCloses(p.conns, 0);
    forall id: nat
      ensures AfterAll(Outside, CallsOf(Shutdown(p).log, id)) == Outside
    {
      LogConcat(p.log, ShutdownLog(p.conns), id);
      ShutdownCloses(p.conns, id);
      ExpectedPhase(p.conns, p.log, id);
      AfterAllConcat(Outside, CallsOf(p.log, id), CallsOf(ShutdownLog(p.conns), id));
    }
  }

  // ---- Reading the automaton back as orderings of callbacks ----

  predicate IsMessage(call: Callback) {
    call.AnalysisRequested? || call.ResponseAcknowledged? || call.CancelRequested? || call.ToParser?
  }

  /** Call `j` accepts a browser, and no session begins or ends between `j` and `k`. */
  predicate OpensAt(calls: seq<Callback>, j: nat, k: nat)
    requires k <= |calls|
  {
    && j < k && calls[j].BrowserConnected?
    && forall m :: j < m < k ==> !calls[m].BrowserConnected? && !calls[m].BrowserDisconnected?
  }

  predicate InSessionOf(calls: seq<Callback>, k: nat, browser: BrowserInfo)
    requires k <= |calls|
  {
    exists j: nat :: j < k && OpensAt(calls, j, k) && calls[j].info == browser
  }

  predicate LookupFailedBefore(calls: seq<Callback>, k: nat)
    requires k <= |calls|
  {
    k > 0 && calls[k - 1].InternalError? && calls[k - 1].context == BuildBrowser
  }

  lemma OneMoreCall(calls: seq<Callback>, call: Callback, browser: BrowserInfo)
    ensures InSessionOf(calls, |calls|, browser) && !call.BrowserConnected? && !call.BrowserDisconnected? ==>
              InSessionOf(calls + [call], |calls| + 1, browser)
    ensures call.BrowserConnected? ==> InSessionOf(calls + [call], |calls| + 1, call.info)
  {
    var all := calls + [call];
    if call.BrowserConnected? {
      assert OpensAt(all, |calls|, |calls| + 1);
    } else if !call.BrowserDisconnected? && InSessionOf(calls, |calls|, browser) {
      var j: nat :| j < |calls| && OpensAt(calls, j, |calls|) && calls[j].info == browser;
      assert OpensAt(all, j, |calls| + 1);
    }
  }

  lemma {:induction false} PhaseMeaning(calls: seq<Callback>)
    ensures var phase := AfterAll(Outside, calls);
            && (phase.Inside? ==> InSessionOf(calls, |calls|, phase.browser))
            && (phase.LookupFailed? ==> LookupFailedBefore(calls, |calls|))
    decreases calls
  {
    hide InSessionOf;
    if calls != [] {
      var front, call := calls[..|calls| - 1], calls[|calls| - 1];
      var phase := AfterAll(Outside, front);
      assert AfterAll(Outside, calls) == After(phase, call);
      hide AfterAll;
      PhaseMeaning(front);
      assert calls == front + [call];
      OneMoreCall(front, call, if phase.Inside? then phase.browser else NO_BROWSER);
    }
  }

  /** The phase before call `k` of an unbroken history. */
  lemma PhaseBefore(calls: seq<Callback>, k: nat) returns (phase: Phase)
    requires AfterAll(Outside, calls) != Broken && k < |calls|
    ensures phase == AfterAll(Outside, calls[..k]) && After(phase, calls[k]) != Broken && phase != Broken
    ensures phase.Inside? ==> InSessionOf(calls, k, phase.browser)
    ensures phase.LookupFailed? ==> LookupFailedBefore(calls, k)
  {
    hide AfterAll;
    hide InSessionOf;
    var front, rest := calls[..k], calls[k + 1..];
    phase := AfterAll(Outside, front);
    assert calls == front + ([calls[k]] + rest);
    AfterAllConcat(Outside, front, [calls[k]] + rest);
    AfterAllConcat(phase, [calls[k]], rest);
    AfterOne(phase, calls[k]);
    StaysBroken([calls[k]] + rest);
    StaysBroken(rest);
    PhaseMeaning(front);
    assert forall b :: InSessionOf(front, k, b) ==> InSessionOf(calls, k, b) by {
      forall b | InSessionOf(front, k, b)
        ensures InSessionOf(calls, k, b)
      {
        SessionInLonger(front, calls, b);
      }
    }
  }

  lemma SessionInLonger(front: seq<Callback>, calls: seq<Callback>, browser: BrowserInfo)
    requires front <= calls && InSessionOf(front, |front|, browser)
    ensures InSessionOf(calls, |front|, browser)
  {
    var j: nat :| j < |front| && OpensAt(front, j, |front|) && front[j].info == browser;
    assert OpensAt(calls, j, |front|);
  }

  /** In an unbroken callback history, every message comes inside an open session, every request with the
      browser of that session; every disconnection ends one and names its browser, except the lone
      disconnection right after a failed browser lookup; and no session opens inside another. */
  lemma SessionOrder(calls: seq<Callback>, k: nat)
    requires AfterAll(Outside, calls) != Broken && k < |calls|
    ensures IsMessage(calls[k]) ==> exists browser :: InSessionOf(calls, k, browser)
    ensures calls[k].AnalysisRequested? ==> InSessionOf(calls, k, calls[k].event.info)
    ensures calls[k].BrowserDisconnected? ==> InSessionOf(calls, k, calls[k].info) || LookupFailedBefore(calls, k)
    ensures calls[k].BrowserConnected? ==> forall j: nat :: !OpensAt(calls, j, k)
  {
    hide AfterAll;
    hide InSessionOf;
    hide OpensAt;
    var phase := PhaseBefore(calls, k);
    if calls[k].BrowserConnected? {
      forall j: nat
        ensures !OpensAt(calls, j, k)
      {
        if OpensAt(calls, j, k) {
          OpensInPrefix(calls, j, k);
          OpenIsInside(calls[..k], j);
        }
      }
    }
  }

  lemma OpensInPrefix(calls: seq<Callback>, j: nat, k: nat)
    requires k <= |calls| && OpensAt(calls, j, k)
    ensures OpensAt(calls[..k], j, k)
  {
  }

  lemma {:induction false} StaysBroken(calls: seq<Callback>)
    ensures AfterAll(Broken, calls) == Broken
    decreases calls
  {
    if calls != [] {
      StaysBroken(calls[..|calls| - 1]);
    }
  }

  lemma {:induction false} OpenIsInside(calls: seq<Callback>, j: nat)
    requires OpensAt(calls, j, |calls|)
    ensures AfterAll(Outside, calls).Inside? || AfterAll(Outside, calls) == Broken
    decreases calls
  {
    var front := calls[..|calls| - 1];
    if j < |front| {
      assert OpensAt(front, j, |front|);
      OpenIsInside(front, j);
    }
  }

  // ---- A whole life of the agent ----

  lemma {:induction false} ShutdownOnlyDisconnects(conns: seq<Conn>)
    ensures forall k :: 0 <= k < |ShutdownLog(conns)| ==>
              ShutdownLog(conns)[k].Entry? && ShutdownLog(conns)[k].call.BrowserDisconnected?
  {
    if conns != [] {
      ShutdownOnlyDisconnects(conns[1..]);
    }
  }

  lemma ShutdownReusesNothing(p: Pool)
    requires NeverReused(p.log)
    ensures NeverReused(Shutdown(p).log)
  {
    var log := Shutdown(p).log;
    ShutdownOnlyDisconnects(p.conns);
    forall a: nat, b: nat, pipe: nat | 0 <= a < b < |log| && RequestOn(log[a], pipe)
      ensures !ConnectOn(log[b], pipe)
    {
      if b < |p.log| {
        assert RequestOn(p.log[a], pipe);
      } else {
        assert log[b] == ShutdownLog(p.conns)[b - |p.log|];
      }
    }
  }

  /** From construction through any number of steps, under any answers of the operating system, to
      shutdown: each connection's callbacks are whole sessions, sessions balance, and no pipe on which a
      request was dispatched ever serves another browser. */
  lemma AgentLifetime(setup: SetupEnv, envs: seq<Env>, parse: Parser)
    requires Create(setup).rc == Ok
    ensures var p := Loop(Create(setup).pool, envs, parse).pool;
            var log := Shutdown(p).log;
            && Counted(p) && SessionBalance(p.log) == |p.conns| - MIN_LISTENING
            && (forall id: nat :: AfterAll(Outside, CallsOf(log, id)) == Outside)
            && SessionBalance(log) == 0
            && NeverReused(log)
  {
    hide Create;
    hide Step;
    hide Shutdown;
    hide AfterAll;
    hide CallsOf;
    hide SessionBalance;
    CreateOk(setup, parse);
    var p0 := Create(setup).pool;
    LoopReturnsOnly(p0, envs, parse);
    var p := Loop(p0, envs, parse).pool;
    ShutdownBalances(p);
    ShutdownReusesNothing(p);
    ConnectedOrNot(p.conns);
  }

  lemma CreateOk(setup: SetupEnv, parse: Parser)
    requires Create(setup).rc == Ok
    ensures Inv(Create(setup).pool)
  {
    hide Create;
    hide Step;
    var env := Env(Signalled(0), Succeeded([]), PidFails, Done,
                   ResetEnv(Done, Done, ReturnsTrue(Success), Done), setup.creations(0));
    CreateEstablishes(setup, env, parse);
  }
}
