/** How many browsers the agent can still accept, and where its listeners stand in the pool. */
module ListenerRuns {
  import opened Common
  import opened Protocol
  import opened ConnectionSpec
  import opened Sessions
  import opened PoolSpec
  import opened PoolRuns
  import opened AgentRuns

  // ---- What the answers of one step come to ----

  /** Waiting for a browser on a pipe of its own. */
  predicate Listens(c: Conn) {
    c.hasEvent && c.handle.Some? && c.operation == Listening
  }

  /** A browser has connected, could be looked up, and its first read could be queued. */
  predicate AcceptedBy(env: Env) {
    env.completion.Succeeded? && env.lookup.Found? && Fine(ApiCode(env.read))
  }

  predicate Connects(env: ResetEnv) {
    match env.connect
    case ReturnsTrue(last) => last == Success
    case ReturnsFalse(err) => err == IoPending || (err == PipeConnected && env.signal.Done?)
  }

  /** DisconnectNamedPipe or CreatePipe, ResetEvent and the connect all go well. */
  predicate Works(env: ResetEnv) {
    env.pipe.Done? && env.clear.Done? && Connects(env)
  }

  predicate CreateWorks(env: CreateEnv) {
    env.eventCreated && Works(env.reset)
  }

  /** The connect, or SetEvent after it, fails when ResetEvent has already cleared the event. */
  predicate Stranded(env: ResetEnv) {
    env.pipe.Done? && env.clear.Done? && env.connect.ReturnsFalse? && !Connects(env)
  }

  /** A new connection's event is clear from the start. */
  predicate NewStranded(env: CreateEnv) {
    !env.eventCreated || env.reset.pipe.Fail? || env.reset.clear.Fail? || Stranded(env.reset)
  }

  lemma ListeningEvent(c: Conn, env: Env, parse: Parser)
    requires !c.connected
    ensures var o := HandleEvent(c, env.completion, env.lookup, env.read, parse);
            && (o.rc == Ok && o.conn.connected <==> AcceptedBy(env))
            && (ConnectAnswer(env.completion) && !AcceptedBy(env) ==>
                  o.rc != Ok && !o.conn.connected && o.conn.signalled && o.conn.operation == NoOperation)
            && o.conn.hasEvent == c.hasEvent
  {
    var r := Receive(c, env.completion, env.lookup, parse);
    assert r.conn.hasEvent == c.hasEvent;
  }

  lemma ResetOutcome(c: Conn, env: ResetEnv, instance: nat)
    requires c.hasEvent && !c.connected && c.operation == NoOperation
    ensures var d := Reset(c, env, instance).conn;
            && !d.connected && d.hasEvent
            && (Listens(d) <==> Works(env)) && (Reset(c, env, instance).rc == Ok <==> Works(env))
            && (!Works(env) ==> d.operation == NoOperation && d.handle.None?)
            && (c.signalled ==> (Listens(d) || d.signalled <==> !Stranded(env)))
  {
  }

  lemma NewConnOutcome(id: nat, env: CreateEnv, instance: nat)
    ensures var d := NewConn(id, env, instance).conn;
            && !d.connected && (Listens(d) <==> CreateWorks(env)) && (d.operation == Listening ==> Listens(d))
            && (d.hasEvent && (Listens(d) || d.signalled) <==> !NewStranded(env))
  {
  }

  /** A signalled connection that is not connected and accepts nobody is reset, and listens afterwards exactly
      if the reset goes well, whether it had a pipe before or not. */
  lemma RefusedListensIff(p: Pool, i: nat, env: Env, parse: Parser)
    requires Counted(p) && i < |p.conns| && p.conns[i].hasEvent && !p.conns[i].connected
    requires Answers(p.conns[i], env.completion) && Quiet(p.conns[i]) && !AcceptedBy(env)
    ensures var q := Apply(p, i, React(p, i, env, parse));
            && |q.conns| == |p.conns| && (Listens(q.conns[i]) <==> Works(env.reset))
            && !q.conns[i].connected && (Stranded(env.reset) <==> !Listens(q.conns[i]) && !q.conns[i].signalled)
  {
    hide HandleEvent;
    ListeningEvent(p.conns[i], env, parse);
    var o := HandleEvent(p.conns[i], env.completion, env.lookup, env.read, parse);
    ResetOutcome(o.conn, env.reset, p.nextHandle);
    hide Reset;
  }

  predicate ListenersUp(p: Pool) {
    forall i :: 0 <= i < |p.conns| && !p.conns[i].connected ==> Listens(p.conns[i])
  }

  /** Whether signalling the connection makes the agent reset it or create another one, without success. */
  predicate PipeLost(c: Conn, env: Env) {
    !c.connected && if AcceptedBy(env) then !CreateWorks(env.create) else !Works(env.reset)
  }

  /** The pool counts connections, not usable pipes: both unconnected ones keep listening across a step
      exactly if the step's reset or creation, when it has one, goes well. */
  lemma ListenersSurviveIff(p: Pool, i: nat, env: Env, parse: Parser)
    requires Counted(p) && ListenersUp(p) && i < |p.conns|
    requires Answers(p.conns[i], env.completion)
    requires Quiet(p.conns[i]) || Active(p.conns[i])
    ensures ListenersUp(Apply(p, i, React(p, i, env, parse))) <==> !PipeLost(p.conns[i], env)
  {
    var c := p.conns[i];
    var change := React(p, i, env, parse);
    var q := Apply(p, i, change);
    PoolSize(p, i);
    SingleOutstandingRead(c, env.completion, env.lookup, env.read, parse);
    ReactFlags(p, i, env, parse);
    hide Counted;
    hide Answers;
    if !c.connected {
      ReactListens(p, i, env, parse);
    }
    hide React;
    hide Quiet;
    hide Active;
    hide AcceptedBy;
    if change.result.Some? {
      assert q.conns[i] == change.result.value;
      assert forall k :: 0 <= k < |p.conns| && k != i ==> q.conns[k] == p.conns[k];
      if change.added.Some? {
        assert q.conns[|p.conns|] == change.added.value.conn;
      }
    }
  }

  /** What becomes of a signalled connection that is not connected, and of the one added for it. */
  lemma ReactListens(p: Pool, i: nat, env: Env, parse: Parser)
    requires i < |p.conns| && !p.conns[i].connected && Quiet(p.conns[i])
    requires p.conns[i].hasEvent && ConnectAnswer(env.completion)
    ensures var change := React(p, i, env, parse);
            change.result.Some? &&
            var d := change.result.value;
            if AcceptedBy(env) then
              && d.connected && change.added.Some?
              && var n := change.added.value.conn;
                 && (Listens(n) <==> CreateWorks(env.create)) && (n.operation == Listening ==> Listens(n))
                 && !n.connected && (Reachable(n) == 1 <==> !NewStranded(env.create))
            else
              && !d.connected && change.added.None?
              && (Listens(d) <==> Works(env.reset)) && (d.operation == Listening ==> Listens(d))
              && (Reachable(d) == 1 <==> !Stranded(env.reset))
  {
    hide HandleEvent;
    ListeningEvent(p.conns[i], env, parse);
    var o := HandleEvent(p.conns[i], env.completion, env.lookup, env.read, parse);
    if !AcceptedBy(env) {
      ResetOutcome(o.conn, env.reset, p.nextHandle);
    }
    NewConnOutcome(p.nextId, env.create, p.nextHandle + 1);
    hide Reset;
    hide NewConn;
  }

  /** The count of two does not mean that a browser can connect: one failed reset leaves a connection that
      counts as listening and has no pipe. Its event is still set. */
  lemma CountIsNotAvailability(p: Pool, i: nat, env: Env, parse: Parser)
    requires Inv(p) && i < |p.conns| && Listens(p.conns[i]) && Quiet(p.conns[i])
    requires env.completion == Failed(BrokenPipe, [])
    requires env.reset.pipe.Fail?
    ensures var q := Apply(p, i, React(p, i, env, parse));
            && Inv(q) && |q.conns| == |p.conns|
            && !q.conns[i].connected && q.conns[i].handle.None? && !ListenersUp(q)
            && Quiet(q.conns[i]) && q.conns[i].signalled && q.conns[i].operation == NoOperation
  {
    hide Inv;
    hide HandleEvent;
    ReactKeepsInv(p, i, env, parse);
    var c := p.conns[i];
    ListeningEvent(c, env, parse);
    SingleOutstandingRead(c, env.completion, env.lookup, env.read, parse);
    var o := HandleEvent(c, env.completion, env.lookup, env.read, parse);
    FailedPipeOutcome(o.conn, env.reset, p.nextHandle);
    HandleEventNames(c, env.completion, env.lookup, env.read, parse);
    hide Reset;
    var q := Apply(p, i, React(p, i, env, parse));
    assert !Listens(q.conns[i]);
  }

  lemma FailedPipeOutcome(c: Conn, env: ResetEnv, instance: nat)
    requires env.pipe.Fail? && Quiet(c) && c.operation == NoOperation && c.signalled
    ensures var d := Reset(c, env, instance).conn;
            Quiet(d) && d.handle.None? && d.signalled && d.operation == NoOperation
  {
  }

  /** The set event is reported again, and then a reset that goes well makes the connection listen, on a pipe
      created anew. */
  lemma LostListenerComesBack(p: Pool, i: nat, env: Env, parse: Parser)
    requires Counted(p) && i < |p.conns| && Quiet(p.conns[i]) && p.conns[i].hasEvent
    requires p.conns[i].operation == NoOperation && p.conns[i].signalled && p.conns[i].handle.None?
    requires env.completion == Failed(BrokenPipe, []) && Works(env.reset)
    ensures Answers(p.conns[i], env.completion)
    ensures var q := Apply(p, i, React(p, i, env, parse));
            Listens(q.conns[i]) && !q.conns[i].connected
  {
    RefusedListensIff(p, i, env, parse);
  }

  // ---- Where the listeners stand ----

  /** The order the header's comment promises: the unconnected connections come first. */
  predicate ListenersFirst(p: Pool) {
    forall k :: 0 <= k < MIN_LISTENING && k < |p.conns| ==> !p.conns[k].connected
  }

  lemma ListenersFirstAreAll(p: Pool, k: nat)
    requires Counted(p) && ListenersFirst(p) && MIN_LISTENING <= k < |p.conns|
    ensures p.conns[k].connected
  {
    hide Tally;
    var tail := p.conns[2..];
    assert p.conns == [p.conns[0]] + [p.conns[1]] + tail;
    TallyConcat([p.conns[0]] + [p.conns[1]], tail, NotConnected);
    TallyPush([p.conns[0]], p.conns[1], NotConnected);
    TallyMember([p.conns[0]], 0, NotConnected);
    TallyMember(tail, k - 2, NotConnected);
  }

  /** Whether signalling connection `i` accepts a browser on it. */
  predicate Accepts(p: Pool, i: nat, env: Env)
    requires i < |p.conns|
  {
    !p.conns[i].connected && AcceptedBy(env)
  }

  /** Accepting a browser leaves the accepting connection in its place and puts the new listener last. */
  lemma AcceptShape(p: Pool, i: nat, env: Env, parse: Parser)
    requires Counted(p) && AllHaveEvents(p.conns) && i < |p.conns| && env.wait == Signalled(i)
    requires Accepts(p, i, env)
    ensures var q := Step(p, env, parse).pool;
            && |q.conns| == |p.conns| + 1 && q.conns[i].connected && !q.conns[|p.conns|].connected
            && forall k :: 0 <= k < |p.conns| && k != i ==> q.conns[k] == p.conns[k]
  {
    hide HandleEvent;
    ListeningEvent(p.conns[i], env, parse);
    hide AcceptedBy;
    ConnectedOrNot(p.conns);
    NewConnNames(p.nextId, env.create, p.nextHandle + 1);
    hide NewConn;
    hide Tally;
  }

  /** What a reaction does to the connected flags. */
  lemma ReactFlags(p: Pool, i: nat, env: Env, parse: Parser)
    requires i < |p.conns| && (p.conns[i].connected ==> |p.conns| > MIN_LISTENING)
    ensures var change := React(p, i, env, parse);
            && (change.result.Some? ==> change.result.value.connected == (p.conns[i].connected || Accepts(p, i, env)))
            && (change.result.None? ==> p.conns[i].connected)
            && (change.added.Some? <==> Accepts(p, i, env))
  {
    hide HandleEvent;
    var c := p.conns[i];
    var o := HandleEvent(c, env.completion, env.lookup, env.read, parse);
    HandleEventKeepsSession(c, env.completion, env.lookup, env.read, parse);
    if !c.connected {
      ListeningEvent(c, env, parse);
    }
    if o.rc != Ok {
      ResetNames(o.conn, env.reset, p.nextHandle);
    }
    hide AcceptedBy;
    hide Reset;
    hide NewConn;
    hide AfterAll;
    hide Balance;
  }

  /** Any other step keeps every unconnected connection in its place, unconnected. */
  lemma OtherStepShape(p: Pool, i: nat, env: Env, parse: Parser)
    requires Counted(p) && AllHaveEvents(p.conns) && i < |p.conns| && env.wait == Signalled(i)
    requires !Accepts(p, i, env)
    ensures var q := Step(p, env, parse).pool;
            && |p.conns| - 1 <= |q.conns| <= |p.conns| && (!p.conns[i].connected ==> |q.conns| == |p.conns|)
            && (forall k :: 0 <= k < i ==> q.conns[k] == p.conns[k])
            && (|q.conns| == |p.conns| ==>
                  && q.conns[i].connected == p.conns[i].connected
                  && forall k :: i < k < |p.conns| ==> q.conns[k] == p.conns[k])
  {
    PoolSize(p, i);
    ReactFlags(p, i, env, parse);
    hide React;
    hide Accepts;
    hide Tally;
  }

  /** The listeners come first until a browser is accepted, and never right after that: from an ordered pool
      a step keeps the order exactly if it accepts nobody, and from any pool an accept leaves disorder. */
  lemma ListenersStayFirstIff(p: Pool, i: nat, env: Env, parse: Parser)
    requires Inv(p) && AllHaveEvents(p.conns) && i < |p.conns| && env.wait == Signalled(i)
    ensures var ordered := ListenersFirst(Step(p, env, parse).pool);
            && (Accepts(p, i, env) ==> !ordered)
            && (ListenersFirst(p) ==> (ordered <==> !Accepts(p, i, env)))
  {
    hide Step;
    hide Accepts;
    hide Inv;
    InvCounts(p);
    PoolSize(p, i);
    if ListenersFirst(p) && i >= MIN_LISTENING {
      ListenersFirstAreAll(p, i);
    }
    if Accepts(p, i, env) {
      AcceptShape(p, i, env, parse);
      AcceptsUnconnected(p, i, env);
    } else {
      OtherStepShape(p, i, env, parse);
    }
  }

  lemma AcceptsUnconnected(p: Pool, i: nat, env: Env)
    requires i < |p.conns| && Accepts(p, i, env)
    ensures !p.conns[i].connected
  {
  }

  // ---- Listeners over whole runs ----

  /** Only a connection with an event object and a pipe listens. */
  predicate ListensOnPipe(p: Pool) {
    forall i :: 0 <= i < |p.conns| && p.conns[i].operation == Listening ==> Listens(p.conns[i])
  }

  /** A listener the agent will still hear of: listening, or with its event still set. */
  function Reachable(c: Conn): nat {
    if !c.connected && c.hasEvent && (Listens(c) || c.signalled) then 1 else 0
  }

  function Usable(c: Conn): nat {
    if !c.connected && Listens(c) then 1 else 0
  }

  predicate Sane(p: Pool) {
    OneReadEach(p) && ListensOnPipe(p)
  }

  /** Whether the step makes one listener unreachable for good: the connection created after an accept comes
      to nothing, or a reset fails after it has cleared the event. */
  predicate Strands(c: Conn, env: Env) {
    !c.connected && if AcceptedBy(env) then NewStranded(env.create) else Stranded(env.reset)
  }

  function Loss(c: Conn, env: Env): nat {
    if Strands(c, env) then 1 else 0
  }

  /** A reaction replaces a reachable listener by one, unless it strands it, and a connected one by none. */
  lemma ReactReachable(p: Pool, i: nat, env: Env, parse: Parser)
    requires Counted(p) && Sane(p) && i < |p.conns| && p.conns[i].hasEvent
    requires Answers(p.conns[i], env.completion)
    ensures var change := React(p, i, env, parse);
            && (change.result.Some? && change.result.value.operation == Listening ==> Listens(change.result.value))
            && (change.added.Some? && change.added.value.conn.operation == Listening ==> Listens(change.added.value.conn))
            && (if change.result.Some? then Reachable(change.result.value) else 0)
               + (if change.added.Some? then Reachable(change.added.value.conn) else 0) + Loss(p.conns[i], env)
               == Reachable(p.conns[i])
    ensures Reachable(p.conns[i]) == 0 ==> p.conns[i].connected
  {
    var c := p.conns[i];
    PoolSize(p, i);
    ReactFlags(p, i, env, parse);
    if c.connected {
      ConnectedStays(p, i, env, parse);
    } else {
      ReactListens(p, i, env, parse);
    }
    hide React;
    hide Tally;
    hide AcceptedBy;
    hide Stranded;
    hide NewStranded;
    hide Works;
    hide CreateWorks;
  }

  lemma ConnectedStays(p: Pool, i: nat, env: Env, parse: Parser)
    requires i < |p.conns| && p.conns[i].connected && |p.conns| > MIN_LISTENING && Active(p.conns[i])
    requires Answers(p.conns[i], env.completion)
    ensures var change := React(p, i, env, parse);
            change.added.None? && (change.result.Some? ==> Active(change.result.value))
  {
    hide HandleEvent;
    SingleOutstandingRead(p.conns[i], env.completion, env.lookup, env.read, parse);
  }

  lemma ApplyReachable(p: Pool, i: nat, change: Change, loss: nat)
    requires i < |p.conns| && Sane(p)
    requires change.result.Some? && change.result.value.operation == Listening ==> Listens(change.result.value)
    requires change.added.Some? && change.added.value.conn.operation == Listening ==> Listens(change.added.value.conn)
    requires (if change.result.Some? then Reachable(change.result.value) else 0)
             + (if change.added.Some? then Reachable(change.added.value.conn) else 0) + loss == Reachable(p.conns[i])
    ensures ListensOnPipe(Apply(p, i, change))
    ensures Tally(Apply(p, i, change).conns, Reachable) + loss == Tally(p.conns, Reachable)
  {
    hide Tally;
    hide Reachable;
    hide Listens;
    hide OneReadEach;
    match change.result {
      case None =>
        TallyRemove(p.conns, i, Reachable);
        if change.added.Some? {
          TallyPush(p.conns[..i] + p.conns[i + 1..], change.added.value.conn, Reachable);
        }
      case Some(d) =>
        TallyUpdate(p.conns, i, d, Reachable);
        if change.added.Some? {
          TallyPush(p.conns[i := d], change.added.value.conn, Reachable);
        }
    }
  }

  predicate IsAccept(e: Entry) {
    e.Entry? && e.call.BrowserConnected?
  }

  /** A browser was accepted after the first `from` entries. */
  predicate AcceptsIn(log: seq<Entry>, from: nat) {
    exists k :: from <= k < |log| && IsAccept(log[k])
  }

  lemma ConnectedAcceptsNobody(p: Pool, i: nat, env: Env, parse: Parser)
    requires Counted(p) && i < |p.conns| && p.conns[i].connected
    ensures p.log <= Apply(p, i, React(p, i, env, parse)).log
    ensures !AcceptsIn(Apply(p, i, React(p, i, env, parse)).log, |p.log|)
  {
    PoolSize(p, i);
    ReactCoherent(p, i, env, parse);
    hide React;
    hide AfterAll;
    hide Balance;
    hide Tally;
  }

  lemma LogGrows(p: Pool, env: Env, parse: Parser)
    ensures p.log <= Step(p, env, parse).pool.log
  {
    hide React;
  }

  /** Listeners stranded by one step. */
  function StepLoss(p: Pool, env: Env): nat {
    if AllHaveEvents(p.conns) && env.wait.Signalled? && env.wait.index < |p.conns|
    then Loss(p.conns[env.wait.index], env) else 0
  }

  /** Listeners stranded by a run. */
  function Losses(p: Pool, envs: seq<Env>, parse: Parser): nat
    decreases envs
  {
    if envs == [] then 0
    else
      var s := Step(p, envs[0], parse);
      StepLoss(p, envs[0]) + if s.stopped || s.rc != Ok then 0 else Losses(s.pool, envs[1..], parse)
  }

  /** One step under answers the system may give. */
  lemma StepReachable(p: Pool, env: Env, parse: Parser)
    requires Inv(p) && Sane(p)
    requires env.wait.Signalled? && env.wait.index < |p.conns| ==> Answers(p.conns[env.wait.index], env.completion)
    ensures var q := Step(p, env, parse).pool;
            && Inv(q) && Sane(q)
            && Tally(q.conns, Reachable) + StepLoss(p, env) == Tally(p.conns, Reachable)
            && p.log <= q.log
            && (Tally(p.conns, Reachable) == 0 ==> !AcceptsIn(q.log, |p.log|))
  {
    hide React;
    hide Apply;
    hide Inv;
    hide Answers;
    hide ListensOnPipe;
    hide OneReadEach;
    hide Reachable;
    hide Loss;
    hide Tally;
    InvCounts(p);
    StepKeepsInv(p, env, parse);
    LogGrows(p, env, parse);
    StepFailsIff(p, env, parse);
    hide Counted;
    if Step(p, env, parse).rc != Ok || Step(p, env, parse).stopped {
      QuietStep(p, env, parse);
    } else {
      var i := env.wait.index;
      ReactReachable(p, i, env, parse);
      ApplyReachable(p, i, React(p, i, env, parse), Loss(p.conns[i], env));
      StepKeepsOneReadEach(p, i, env, parse);
      TallyMember(p.conns, i, Reachable);
      if Tally(p.conns, Reachable) == 0 {
        ConnectedAcceptsNobody(p, i, env, parse);
      }
    }
  }

  lemma QuietStep(p: Pool, env: Env, parse: Parser)
    requires Step(p, env, parse).rc != Ok || Step(p, env, parse).stopped
    ensures var q := Step(p, env, parse).pool;
            q.conns == p.conns && !AcceptsIn(q.log, |p.log|)
    ensures Sane(p) ==> Sane(Step(p, env, parse).pool)
  {
    hide React;
    hide Apply;
  }

  /** Over every run the reachable listeners, those that listen or have their event still set, are exactly
      the ones there were less those the run strands; not even an accept adds one. Without any, no browser is
      ever accepted again, although two connections still count as not connected. */
  lemma {:induction false} ReachableListenersOnlyStrand(p: Pool, envs: seq<Env>, parse: Parser)
    requires Inv(p) && Sane(p) && AnswersAll(p, envs, parse)
    ensures var q := Loop(p, envs, parse).pool;
            && Inv(q) && Sane(q)
            && Tally(q.conns, Reachable) + Losses(p, envs, parse) == Tally(p.conns, Reachable)
            && p.log <= q.log
            && (Tally(p.conns, Reachable) == 0 ==> !AcceptsIn(q.log, |p.log|))
    decreases envs
  {
    hide Step;
    hide Inv;
    hide Sane;
    hide Tally;
    hide Answers;
    hide StepLoss;
    if envs != [] {
      StepReachable(p, envs[0], parse);
      FailedStepLosesNothing(p, envs[0], parse);
      var s := Step(p, envs[0], parse);
      if !s.stopped && s.rc == Ok {
        ReachableListenersOnlyStrand(s.pool, envs[1..], parse);
        if Tally(p.conns, Reachable) == 0 {
          AcceptsSplit(p.log, s.pool.log, Loop(p, envs, parse).pool.log);
        }
      }
    }
  }

  lemma FailedStepLosesNothing(p: Pool, env: Env, parse: Parser)
    requires Inv(p)
    ensures Step(p, env, parse).rc != Ok || Step(p, env, parse).stopped ==> StepLoss(p, env) == 0
  {
    hide Inv;
    InvCounts(p);
    StepFailsIff(p, env, parse);
    hide Step;
    hide Counted;
  }

  lemma AcceptsSplit(a: seq<Entry>, b: seq<Entry>, c: seq<Entry>)
    requires a <= b <= c && !AcceptsIn(b, |a|) && !AcceptsIn(c, |b|)
    ensures !AcceptsIn(c, |a|)
  {
    forall k | |a| <= k < |c|
      ensures !IsAccept(c[k])
    {
      if k < |b| {
        assert b[k] == c[k];
      }
    }
  }

  /** A constructed agent has two usable listeners, so two losses are what it takes: after them, and only
      after them, no listener is reachable, and whatever follows no browser is accepted. */
  lemma TwoLossesEndService(setup: SetupEnv, before: seq<Env>, later: seq<Env>, parse: Parser)
    requires Create(setup).rc == Ok && AnswersAll(Create(setup).pool, before, parse)
    requires var p := Loop(Create(setup).pool, before, parse).pool;
             AnswersAll(p, later, parse)
    ensures var p := Loop(Create(setup).pool, before, parse).pool;
            var losses := Losses(Create(setup).pool, before, parse);
            && losses <= MIN_LISTENING && (losses == MIN_LISTENING <==> Tally(p.conns, Reachable) == 0)
            && (losses == MIN_LISTENING ==> !AcceptsIn(Loop(p, later, parse).pool.log, |p.log|))
  {
    hide Loop;
    hide Losses;
    hide AnswersAll;
    hide Inv;
    CreateOk(setup, parse);
    CreateReadsNothing(setup);
    CreateListens(setup);
    hide Create;
    ReachableListenersOnlyStrand(Create(setup).pool, before, parse);
    ReachableListenersOnlyStrand(Loop(Create(setup).pool, before, parse).pool, later, parse);
  }

  lemma CreateListens(setup: SetupEnv)
    requires Create(setup).rc == Ok
    ensures var p := Create(setup).pool;
            ListensOnPipe(p) && Tally(p.conns, Usable) == MIN_LISTENING && Tally(p.conns, Reachable) == MIN_LISTENING
  {
    hide NewConn;
    var p := NO_POOL.(stopEvent := true);
    var s1 := AddListener(p, setup.creations(0));
    var s2 := AddListener(s1.pool, setup.creations(1));
    NewConnIsUsable(0, setup.creations(0), 0);
    NewConnIsUsable(1, setup.creations(1), 1);
    assert AddListeners(s2.pool, MIN_LISTENING, setup.creations) == Setup(s2.pool, Ok);
    assert AddListeners(p, 0, setup.creations) == Create(setup);
    var a, b := NewConn(0, setup.creations(0), 0), NewConn(1, setup.creations(1), 1);
    TallyPush([], a.conn, Usable);
    TallyPush([] + [a.conn], b.conn, Usable);
    TallyPush([], a.conn, Reachable);
    TallyPush([] + [a.conn], b.conn, Reachable);
    assert s2.pool.conns == [] + [a.conn] + [b.conn];
  }

  lemma NewConnIsUsable(id: nat, env: CreateEnv, instance: nat)
    ensures var n := NewConn(id, env, instance);
            n.rc == Ok ==> Usable(n.conn) == 1 && Reachable(n.conn) == 1
  {
  }

  /** No agent ever has more than two usable listeners, whatever the system answers. */
  lemma AtMostTwoListeners(setup: SetupEnv, envs: seq<Env>, parse: Parser)
    requires Create(setup).rc == Ok
    ensures Tally(Create(setup).pool.conns, Usable) == MIN_LISTENING
    ensures Tally(Loop(Create(setup).pool, envs, parse).pool.conns, Usable) <= MIN_LISTENING
  {
    hide Loop;
    hide Inv;
    hide Tally;
    CreateOk(setup, parse);
    CreateListens(setup);
    hide Create;
    LoopReturnsOnly(Create(setup).pool, envs, parse);
    var q := Loop(Create(setup).pool, envs, parse).pool;
    InvCounts(q);
    TallyAtMost(q.conns, Usable, NotConnected);
  }
}
