/** What every run of the agent keeps: the pool count, session typestate and pipe reuse. */
module PoolRuns {
  import opened Common
  import opened Protocol
  import opened ConnectionSpec
  import opened Sessions
  import opened PoolSpec

  // ---- One connection's share of the log ----

  function CallsOf(log: seq<Entry>, id: nat): seq<Callback> {
    if log == [] then []
    else
      var e := log[|log| - 1];
      CallsOf(log[..|log| - 1], id) + if e.Entry? && e.conn == id then [e.call] else []
  }

  function SessionBalance(log: seq<Entry>): int {
    if log == [] then 0
    else SessionBalance(log[..|log| - 1]) + if log[|log| - 1].Entry? then Delta(log[|log| - 1].call) else 0
  }

  lemma {:induction false} LogConcat(a: seq<Entry>, b: seq<Entry>, id: nat)
    ensures CallsOf(a + b, id) == CallsOf(a, id) + CallsOf(b, id)
    ensures SessionBalance(a + b) == SessionBalance(a) + SessionBalance(b)
    decreases b
  {
    if b == [] {
      assert a + b == a;
    } else {
      var front := b[..|b| - 1];
      assert (a + b)[..|a + b| - 1] == a + front;
      LogConcat(a, front, id);
    }
  }

  lemma LogOne(e: Entry, id: nat)
    ensures CallsOf([e], id) == if e.Entry? && e.conn == id then [e.call] else []
    ensures SessionBalance([e]) == if e.Entry? then Delta(e.call) else 0
  {
    assert [e][..0] == [];
    assert CallsOf([e], id) == CallsOf([e][..0], id) + if e.Entry? && e.conn == id then [e.call] else [];
  }

  lemma NoLog(id: nat)
    ensures CallsOf([], id) == [] && SessionBalance([]) == 0
  {
  }

  lemma {:induction false} TagCalls(conn: nat, calls: seq<Callback>, id: nat)
    ensures CallsOf(Tag(conn, calls), id) == if conn == id then calls else []
    ensures SessionBalance(Tag(conn, calls)) == Balance(calls)
    decreases calls
  {
    hide Delta;
    hide CallsOf;
    hide SessionBalance;
    hide Balance;
    hide AfterAll;
    hide After;
    if calls == [] {
      AfterNone(Outside);
      NoLog(id);
      assert Tag(conn, calls) == [];
    } else {
      var front, call := calls[..|calls| - 1], calls[|calls| - 1];
      var last := Entry(conn, call);
      TagCalls(conn, front, id);
      LogConcat(Tag(conn, front), [last], id);
      LogOne(last, id);
      assert Tag(conn, calls) == Tag(conn, front) + [last];
      assert calls == front + [call];
      AfterAllConcat(Outside, front, [call]);
      AfterOne(Outside, call);
    }
  }

  lemma TaggedLog(log: seq<Entry>, conn: nat, calls: seq<Callback>, id: nat)
    ensures CallsOf(log + Tag(conn, calls), id) == CallsOf(log, id) + if conn == id then calls else []
    ensures SessionBalance(log + Tag(conn, calls)) == SessionBalance(log) + Balance(calls)
  {
    LogConcat(log, Tag(conn, calls), id);
    TagCalls(conn, calls, id);
  }

  // ---- What one signalled connection does ----

  function NotConnected(c: Conn): nat {
    if c.connected then 0 else 1
  }

  /** Pipe instances named by a connection's calls are its own; only a listening connection accepts and
      only a connected one delivers requests. */
  predicate Names(c: Conn, calls: seq<Callback>) {
    forall k :: 0 <= k < |calls| ==>
      match calls[k]
      case BrowserConnected(pipe, _) => pipe == c.handle && !c.connected
      case AnalysisRequested(event) => event.pipe == c.handle && event.conn == c.id && c.connected
      case _ => true
  }

  lemma HandleEventNames(c: Conn, completion: Completion, lookup: Lookup, read: ApiResult, parse: Parser)
    ensures var o := HandleEvent(c, completion, lookup, read, parse);
            Names(c, o.calls) && o.conn.id == c.id && o.conn.handle == c.handle && o.conn.hasEvent == c.hasEvent
  {
    var r := Receive(c, completion, lookup, parse);
    ReceiveNames(c, completion, lookup, parse);
    hide Receive;
  }

  lemma ReceiveNames(c: Conn, completion: Completion, lookup: Lookup, parse: Parser)
    ensures var o := Receive(c, completion, lookup, parse);
            Names(c, o.calls) && o.conn.id == c.id && o.conn.handle == c.handle && o.conn.hasEvent == c.hasEvent
  {
  }

  lemma NewConnNames(id: nat, env: CreateEnv, instance: nat)
    ensures var n := NewConn(id, env, instance);
            && n.calls == [] && !n.conn.connected && n.conn.id == id
            && (n.conn.handle.Some? ==> n.conn.handle.value == instance)
            && (n.rc == Ok ==> n.conn.hasEvent)
  {
  }

  lemma ResetNames(c: Conn, env: ResetEnv, instance: nat)
    requires !c.connected
    ensures var r := Reset(c, env, instance);
            && !r.conn.connected && r.conn.id == c.id && Names(c, r.calls)
            && AfterAll(Outside, r.calls) == Outside && Balance(r.calls) == 0
            && (forall k :: 0 <= k < |r.calls| ==> r.calls[k].InternalError?)
            && (r.conn.handle.Some? ==> r.conn.handle == c.handle || r.conn.handle == Some(instance))
  {
    hide AfterAll;
    hide Balance;
    var r := Reset(c, env, instance);
    ResetCalls(c, env, instance);
    hide Reset;
    AfterNone(Outside);
    AfterOne(Outside, InternalError(ConnectionReset, r.rc));
  }

  lemma ResetCalls(c: Conn, env: ResetEnv, instance: nat)
    requires !c.connected
    ensures var r := Reset(c, env, instance);
            && !r.conn.connected && r.conn.id == c.id
            && (r.calls == [] || r.calls == [InternalError(ConnectionReset, r.rc)])
            && (r.conn.handle.Some? ==> r.conn.handle == c.handle || r.conn.handle == Some(instance))
  {
    hide ConnectPipe;
  }

  /** The facts about a reaction that every pool property rests on. */
  predicate Coherent(p: Pool, i: nat, change: Change)
    requires i < |p.conns|
  {
    var c := p.conns[i];
    && Names(c, change.calls)
    && AfterAll(PhaseOf(c), change.calls) == (if change.result.Some? then PhaseOf(change.result.value) else Outside)
    && Balance(change.calls) == (if change.result.Some? then Connected(change.result.value) else 0) as int - Connected(c) as int
    && (change.result.Some? ==>
        && change.result.value.id == c.id
        && (c.connected ==> change.result.value.connected)
        && (change.result.value.connected ==> change.result.value.handle == c.handle)
        && (change.result.value.handle.Some? ==>
            change.result.value.handle == c.handle || change.result.value.handle == Some(p.nextHandle)))
    && (change.result.None? ==> c.connected && change.added.None?)
    && (change.added.Some? <==> change.result.Some? && !c.connected && change.result.value.connected)
    && (change.added.Some? ==>
        var n := change.added.value;
        && n.calls == [] && !n.conn.connected && n.conn.id == p.nextId
        && (n.conn.handle.Some? ==> n.conn.handle.value == p.nextHandle + 1))
  }

  /** A connection that fails after being connected is erased, never reset: with the pool count kept
      there is always a third connection. */
  lemma ReactCoherent(p: Pool, i: nat, env: Env, parse: Parser)
    requires i < |p.conns|
    requires p.conns[i].connected ==> |p.conns| > MIN_LISTENING
    ensures Coherent(p, i, React(p, i, env, parse))
    ensures p.conns[i].connected && HandleEvent(p.conns[i], env.completion, env.lookup, env.read, parse).rc != Ok
        <==> React(p, i, env, parse).result.None?
  {
    hide HandleEvent;
    hide NewConn;
    hide Reset;
    hide AfterAll;
    hide Balance;
    var c := p.conns[i];
    var o := HandleEvent(c, env.completion, env.lookup, env.read, parse);
    HandleEventKeepsSession(c, env.completion, env.lookup, env.read, parse);
    HandleEventNames(c, env.completion, env.lookup, env.read, parse);
    NewConnNames(p.nextId, env.create, p.nextHandle + 1);
    if o.rc != Ok {
      var r := Reset(o.conn, env.reset, p.nextHandle);
      ResetNames(o.conn, env.reset, p.nextHandle);
      AfterAllConcat(PhaseOf(c), o.calls, r.calls);
      assert Names(c, r.calls);
      assert o.calls + [] == o.calls;
    }
  }

  /** What becomes of the signalled connection, and when one is added, over the answers alone. */
  lemma ReactIff(p: Pool, i: nat, env: Env, parse: Parser)
    requires i < |p.conns|
    ensures var c := p.conns[i];
            var o := HandleEvent(c, env.completion, env.lookup, env.read, parse);
            var change := React(p, i, env, parse);
            && (change.result.None? <==> o.rc != Ok && c.connected && |p.conns| > MIN_LISTENING)
            && (o.rc == Ok ==> change.result == Some(o.conn))
            && (change.added.Some? <==>
                  !c.connected && change.result.Some? && change.result.value.connected && o.rc == Ok)
  {
    hide HandleEvent;
    hide NewConn;
    hide Reset;
    hide AfterAll;
    hide Balance;
    var c := p.conns[i];
    var o := HandleEvent(c, env.completion, env.lookup, env.read, parse);
    HandleEventKeepsSession(c, env.completion, env.lookup, env.read, parse);
    if o.rc != Ok {
      ResetNames(o.conn, env.reset, p.nextHandle);
    }
  }

  // ---- Invariants of the pool ----

  /** Two connections are not connected. */
  predicate Counted(p: Pool) {
    Tally(p.conns, NotConnected) == MIN_LISTENING
  }

  predicate Identified(p: Pool) {
    && (forall i :: 0 <= i < |p.conns| ==> p.conns[i].id < p.nextId)
    && (forall i, j :: 0 <= i < j < |p.conns| ==> p.conns[i].id != p.conns[j].id)
  }

  predicate Absent(conns: seq<Conn>, id: nat) {
    forall i :: 0 <= i < |conns| ==> conns[i].id != id
  }

  function PhaseAt(log: seq<Entry>, id: nat): Phase {
    AfterAll(Outside, CallsOf(log, id))
  }

  /** Each connection's calls form whole sessions, the last one open exactly if it is connected, and then
      with the browser the connection remembers; a connection that is gone has none open. */
  ghost predicate InSession(p: Pool) {
    && (forall i :: 0 <= i < |p.conns| ==> PhaseAt(p.log, p.conns[i].id) == PhaseOf(p.conns[i]))
    && (forall id: nat :: Absent(p.conns, id) ==> PhaseAt(p.log, id) == Outside)
  }

  predicate Balanced(p: Pool) {
    SessionBalance(p.log) == Tally(p.conns, Connected)
  }

  predicate RequestOn(e: Entry, pipe: nat) {
    e.Entry? && e.call.AnalysisRequested? && e.call.event.pipe == Some(pipe)
  }

  predicate ConnectOn(e: Entry, pipe: nat) {
    e.Entry? && e.call.BrowserConnected? && e.call.pipe == Some(pipe)
  }

  predicate Requested(log: seq<Entry>, pipe: nat) {
    exists k :: 0 <= k < |log| && RequestOn(log[k], pipe)
  }

  /** No browser is accepted on a pipe instance on which a request was ever dispatched. */
  ghost predicate NeverReused(log: seq<Entry>) {
    forall a: nat, b: nat, pipe: nat :: 0 <= a < b < |log| && RequestOn(log[a], pipe) ==> !ConnectOn(log[b], pipe)
  }

  ghost predicate PipesApart(p: Pool) {
    && (forall i :: 0 <= i < |p.conns| && p.conns[i].handle.Some? ==> p.conns[i].handle.value < p.nextHandle)
    && (forall i, j :: 0 <= i < j < |p.conns| && p.conns[i].handle.Some? ==> p.conns[i].handle != p.conns[j].handle)
    && (forall pipe: nat :: Requested(p.log, pipe) ==> pipe < p.nextHandle)
    && (forall i :: 0 <= i < |p.conns| && !p.conns[i].connected && p.conns[i].handle.Some? ==>
          !Requested(p.log, p.conns[i].handle.value))
    && NeverReused(p.log)
  }

  ghost predicate Inv(p: Pool) {
    Counted(p) && Identified(p) && InSession(p) && Balanced(p) && PipesApart(p)
  }

  lemma {:induction false} ConnectedOrNot(conns: seq<Conn>)
    ensures |conns| == Tally(conns, NotConnected) + Tally(conns, Connected)
  {
    if conns != [] {
      ConnectedOrNot(conns[1..]);
    }
  }

  lemma PoolSize(p: Pool, i: nat)
    requires Counted(p) && i < |p.conns|
    ensures |p.conns| == MIN_LISTENING + Tally(p.conns, Connected)
    ensures p.conns[i].connected ==> |p.conns| > MIN_LISTENING
  {
    ConnectedOrNot(p.conns);
    TallyMember(p.conns, i, Connected);
  }

  lemma ApplyCounts(p: Pool, i: nat, change: Change)
    requires i < |p.conns| && Coherent(p, i, change)
    requires Counted(p) && Balanced(p)
    ensures Counted(Apply(p, i, change)) && Balanced(Apply(p, i, change))
  {
    hide AfterAll;
    hide Balance;
    hide SessionBalance;
    hide Tally;
    var c := p.conns[i];
    var q := Apply(p, i, change);
    TaggedLog(p.log, c.id, change.calls, c.id);
    match change.result {
      case None =>
        TallyRemove(p.conns, i, NotConnected);
        TallyRemove(p.conns, i, Connected);
      case Some(d) =>
        TallyUpdate(p.conns, i, d, NotConnected);
        TallyUpdate(p.conns, i, d, Connected);
        if change.added.Some? {
          TallyPush(p.conns[i := d], change.added.value.conn, NotConnected);
          TallyPush(p.conns[i := d], change.added.value.conn, Connected);
          assert Tag(p.nextId, []) == [];
          assert q.log == p.log + Tag(c.id, change.calls);
        }
    }
  }

  lemma ApplyIdentifies(p: Pool, i: nat, change: Change)
    requires i < |p.conns| && Coherent(p, i, change) && Identified(p)
    ensures Identified(Apply(p, i, change))
  {
    hide AfterAll;
    hide Balance;
  }

  /** Every connection after a change is the changed one, the added one, or one that was there before. */
  lemma ApplySources(p: Pool, i: nat, change: Change, k: nat) returns (j: nat)
    requires i < |p.conns| && Coherent(p, i, change) && Identified(p)
    requires k < |Apply(p, i, change).conns|
    ensures var c := Apply(p, i, change).conns[k];
            || (change.result.Some? && c == change.result.value && c.id == p.conns[i].id)
            || (change.added.Some? && c == change.added.value.conn && c.id == p.nextId)
            || (j < |p.conns| && j != i && c == p.conns[j] && c.id != p.conns[i].id)
  {
    hide AfterAll;
    hide Balance;
    j := if change.result.None? && k >= i then k + 1 else k;
  }

  /** Every other connection is still there. */
  lemma ApplyKeepsOthers(p: Pool, i: nat, change: Change, id: nat)
    requires i < |p.conns| && Coherent(p, i, change)
    requires Absent(Apply(p, i, change).conns, id)
    ensures id != p.conns[i].id ==> Absent(p.conns, id)
    ensures id == p.conns[i].id ==> change.result.None?
  {
    hide AfterAll;
    hide Balance;
    var q := Apply(p, i, change);
    if change.result.Some? {
      assert q.conns[i] == change.result.value;
    }
    forall j | 0 <= j < |p.conns| && j != i
      ensures p.conns[j].id != id
    {
      var k := if change.result.None? && j > i then j - 1 else j;
      assert q.conns[k] == p.conns[j];
    }
  }

  /** The calls of a change move the phase of its own connection only. */
  lemma PhaseAfterCalls(log: seq<Entry>, conn: nat, calls: seq<Callback>, id: nat)
    ensures PhaseAt(log + Tag(conn, calls), id) == if conn == id then AfterAll(PhaseAt(log, id), calls) else PhaseAt(log, id)
  {
    hide AfterAll;
    hide CallsOf;
    TaggedLog(log, conn, calls, id);
    AfterAllConcat(Outside, CallsOf(log, id), calls);
    assert CallsOf(log, id) + [] == CallsOf(log, id);
  }

  lemma ApplyKeepsSessions(p: Pool, i: nat, change: Change)
    requires i < |p.conns| && Coherent(p, i, change)
    requires Identified(p) && InSession(p)
    ensures InSession(Apply(p, i, change))
  {
    hide AfterAll;
    hide Balance;
    hide PhaseAt;
    hide Absent;
    var c := p.conns[i];
    var q := Apply(p, i, change);
    assert change.added.Some? ==> Tag(p.nextId, change.added.value.calls) == [];
    assert q.log == p.log + Tag(c.id, change.calls);
    forall k | 0 <= k < |q.conns|
      ensures PhaseAt(q.log, q.conns[k].id) == PhaseOf(q.conns[k])
    {
      var j := ApplySources(p, i, change, k);
      PhaseAfterCalls(p.log, c.id, change.calls, q.conns[k].id);
      FreshIdIsAbsent(p);
    }
    forall id: nat | Absent(q.conns, id)
      ensures PhaseAt(q.log, id) == Outside
    {
      ApplyKeepsOthers(p, i, change, id);
      PhaseAfterCalls(p.log, c.id, change.calls, id);
    }
  }

  lemma FreshIdIsAbsent(p: Pool)
    requires Identified(p)
    ensures Absent(p.conns, p.nextId)
  {
  }

  lemma ApplyKeepsPipesApart(p: Pool, i: nat, change: Change)
    requires i < |p.conns| && Coherent(p, i, change) && PipesApart(p)
    ensures PipesApart(Apply(p, i, change))
  {
    hide AfterAll;
    hide Balance;
    var c := p.conns[i];
    var q := Apply(p, i, change);
    assert change.added.Some? ==> Tag(p.nextId, change.added.value.calls) == [];
    assert q.log == p.log + Tag(c.id, change.calls);
    RequestsOfCalls(p.log, c, change.calls);
    hide Requested;
    hide Names;
    LogNeverReuses(p.log, c, change.calls);
  }

  lemma LogNeverReuses(log: seq<Entry>, c: Conn, calls: seq<Callback>)
    requires NeverReused(log) && Names(c, calls)
    requires !c.connected && c.handle.Some? ==> !Requested(log, c.handle.value)
    ensures NeverReused(log + Tag(c.id, calls))
  {
    var after := log + Tag(c.id, calls);
    forall a: nat, b: nat, pipe: nat | 0 <= a < b < |after| && RequestOn(after[a], pipe)
      ensures !ConnectOn(after[b], pipe)
    {
      if b >= |log| {
        NewEntry(log, c, calls, b, pipe);
      }
      if a >= |log| {
        NewEntry(log, c, calls, a, pipe);
      } else {
        assert RequestOn(log[a], pipe);
        assert Requested(log, pipe);
      }
    }
  }

  /** What an entry added by the calls of one connection says about a pipe. */
  lemma NewEntry(log: seq<Entry>, c: Conn, calls: seq<Callback>, k: nat, pipe: nat)
    requires Names(c, calls) && |log| <= k < |log + Tag(c.id, calls)|
    ensures var e := (log + Tag(c.id, calls))[k];
            && (ConnectOn(e, pipe) ==> !c.connected && c.handle == Some(pipe))
            && (RequestOn(e, pipe) ==> c.connected && c.handle == Some(pipe))
  {
    assert (log + Tag(c.id, calls))[k].call == calls[k - |log|];
  }

  /** The calls of one connection request only on its own pipe, and only if it was connected. */
  lemma RequestsOfCalls(log: seq<Entry>, c: Conn, calls: seq<Callback>)
    requires Names(c, calls)
    ensures forall pipe: nat :: Requested(log + Tag(c.id, calls), pipe) ==>
              Requested(log, pipe) || (c.connected && c.handle == Some(pipe))
  {
    var after := log + Tag(c.id, calls);
    forall pipe: nat | Requested(after, pipe)
      ensures Requested(log, pipe) || (c.connected && c.handle == Some(pipe))
    {
      var k :| 0 <= k < |after| && RequestOn(after[k], pipe);
      if k < |log| {
        assert RequestOn(log[k], pipe);
      } else {
        assert after[k].call == calls[k - |log|];
      }
    }
  }
}
