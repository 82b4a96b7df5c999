/** What one connection's handler calls say about its browser sessions, and its outstanding I/O. */
module Sessions {
  import opened Common
  import opened Protocol
  import opened ResponseEdits
  import opened ConnectionSpec

  /** A connection's callbacks read as an automaton. A session is of the browser it was opened with.
      `LookupFailed` is entered by the error report of a failed browser lookup and left by the lone
      disconnection that follows it. */
  datatype Phase = Outside | Inside(browser: BrowserInfo) | LookupFailed | Broken

  function After(phase: Phase, call: Callback): Phase {
    match call
    case BrowserConnected(_, info) => if phase.Outside? then Inside(info) else Broken
    case BrowserDisconnected(info) => if phase == Inside(info) || phase.LookupFailed? then Outside else Broken
    case InternalError(context, _) =>
      if context == BuildBrowser then if phase.Outside? then LookupFailed else Broken
      else if phase.LookupFailed? then Broken else phase
    case AnalysisRequested(event) => if phase == Inside(event.info) then phase else Broken
    case _ => if phase.Inside? then phase else Broken
  }

  function AfterAll(phase: Phase, calls: seq<Callback>): Phase {
    if calls == [] then phase else After(AfterAll(phase, calls[..|calls| - 1]), calls[|calls| - 1])
  }

  /** Connections plus failed lookups minus disconnections. */
  function Delta(call: Callback): int {
    match call
    case BrowserConnected(_, _) => 1
    case BrowserDisconnected(_) => -1
    case InternalError(context, _) => if context == BuildBrowser then 1 else 0
    case _ => 0
  }

  function Balance(calls: seq<Callback>): int {
    if calls == [] then 0 else Balance(calls[..|calls| - 1]) + Delta(calls[|calls| - 1])
  }

  function PhaseOf(c: Conn): Phase {
    if c.connected then Inside(c.info) else Outside
  }

  function Connected(c: Conn): nat {
    if c.connected then 1 else 0
  }

  lemma {:induction false} AfterAllConcat(phase: Phase, a: seq<Callback>, b: seq<Callback>)
    ensures AfterAll(phase, a + b) == AfterAll(AfterAll(phase, a), b)
    ensures Balance(a + b) == Balance(a) + Balance(b)
    decreases b
  {
    if b == [] {
      assert a + b == a;
    } else {
      var front := b[..|b| - 1];
      assert (a + b)[..|a + b| - 1] == a + front;
      AfterAllConcat(phase, a, front);
    }
  }

  lemma AfterNone(phase: Phase)
    ensures AfterAll(phase, []) == phase && Balance([]) == 0
  {
  }

  lemma AfterOne(phase: Phase, call: Callback)
    ensures AfterAll(phase, [call]) == After(phase, call)
    ensures Balance([call]) == Delta(call)
  {
    assert [call][..0] == [];
    assert AfterAll(phase, [call]) == After(AfterAll(phase, [call][..0]), call);
  }

  lemma AfterTwo(phase: Phase, x: Callback, y: Callback)
    ensures AfterAll(phase, [x, y]) == After(After(phase, x), y)
    ensures Balance([x, y]) == Delta(x) + Delta(y)
  {
    AfterOne(phase, x);
    AfterOne(After(phase, x), y);
    AfterAllConcat(phase, [x], [y]);
    assert [x] + [y] == [x, y];
  }

  /** The phase in the middle of HandleEvent. */
  function MidPhase(o: Outcome): Phase {
    if !o.conn.connected then Outside
    else if o.rc == ErrCannotGetBrowserPid || o.rc == ErrCannotGetBrowserBinaryPath then LookupFailed
    else Inside(o.conn.info)
  }

  lemma ReadKeepsSession(c: Conn, completion: Completion, parse: Parser)
    requires c.connected
    ensures var o := OnReadFile(c, completion, parse);
            && AfterAll(Inside(c.info), o.calls) == MidPhase(o)
            && Balance(o.calls) == 0 && o.conn.connected
  {
    hide AfterAll;
    hide Balance;
    hide InitResponse;
    var o := OnReadFile(c, completion, parse);
    AfterNone(Inside(c.info));
    if |o.calls| == 1 {
      AfterOne(Inside(c.info), o.calls[0]);
      assert o.calls == [o.calls[0]];
    } else if |o.calls| == 2 {
      AfterTwo(Inside(c.info), o.calls[0], o.calls[1]);
      assert o.calls == [o.calls[0], o.calls[1]];
    }
  }

  lemma ReceiveKeepsSession(c: Conn, completion: Completion, lookup: Lookup, parse: Parser)
    ensures var o := Receive(c, completion, lookup, parse);
            && AfterAll(PhaseOf(c), o.calls) == MidPhase(o)
            && Balance(o.calls) == Connected(o.conn) as int - Connected(c) as int
  {
    hide AfterAll;
    hide Balance;
    hide OnReadFile;
    if c.connected {
      ReadKeepsSession(Finish(c, completion.data), completion, parse);
    } else {
      var o := Receive(c, completion, lookup, parse);
      AfterNone(Outside);
      if o.calls != [] {
        AfterOne(Outside, o.calls[0]);
        assert o.calls == [o.calls[0]];
      }
    }
  }

  lemma QueueNextKeepsSession(phase: Phase, o: Outcome, read: ApiResult)
    requires AfterAll(phase, o.calls) == MidPhase(o)
    ensures var q := QueueNext(o, read);
            && AfterAll(phase, q.calls) == MidPhase(q)
            && Balance(q.calls) == Balance(o.calls)
            && q.conn.connected == o.conn.connected
  {
    hide AfterAll;
    hide Balance;
    AfterNone(MidPhase(o));
    if o.rc == Ok || o.rc == ErrMoreData {
      var calls := QueueReadFile(o.conn, o.rc == Ok, read).calls;
      AfterAllConcat(phase, o.calls, calls);
      if calls != [] {
        AfterOne(MidPhase(o), calls[0]);
        assert calls == [calls[0]];
      }
    }
  }

  lemma SettleKeepsSession(phase: Phase, q: Outcome)
    requires AfterAll(phase, q.calls) == MidPhase(q)
    ensures var t := Settle(q);
            && AfterAll(phase, t.calls) == PhaseOf(t.conn)
            && Balance(t.calls) == Balance(q.calls) + Connected(t.conn) as int - Connected(q.conn) as int
            && (t.rc != Ok ==> !t.conn.connected)
            && (t.rc == Ok ==> t.conn.connected == q.conn.connected)
  {
    hide AfterAll;
    hide Balance;
    AfterNone(MidPhase(q));
    if !Fine(q.rc) {
      var calls := CleanupCalls(q.conn);
      AfterAllConcat(phase, q.calls, calls);
      if q.conn.connected {
        AfterOne(MidPhase(q), BrowserDisconnected(q.conn.info));
      }
    }
  }

  /** Every HandleEvent call, whatever the operating system answers, moves the callback automaton from
      the connection's old `connected` flag to its new one, and counts sessions accordingly. */
  lemma HandleEventKeepsSession(c: Conn, completion: Completion, lookup: Lookup, read: ApiResult, parse: Parser)
    ensures var o := HandleEvent(c, completion, lookup, read, parse);
            && AfterAll(PhaseOf(c), o.calls) == PhaseOf(o.conn)
            && Balance(o.calls) == Connected(o.conn) as int - Connected(c) as int
            && (o.rc != Ok ==> !o.conn.connected)
            && (c.connected && o.rc == Ok ==> o.conn.connected)
  {
    var o := Receive(c, completion, lookup, parse);
    ReceiveKeepsSession(c, completion, lookup, parse);
    QueueNextKeepsSession(PhaseOf(c), o, read);
    SettleKeepsSession(PhaseOf(c), QueueNext(o, read));
  }

  // ---- The disconnected callback without a connected one ----

  predicate ConnectedBefore(calls: seq<Callback>, k: nat)
    requires k <= |calls|
  {
    exists j :: 0 <= j < k && calls[j].BrowserConnected?
  }

  predicate LoneDisconnection(calls: seq<Callback>) {
    exists k: nat :: k < |calls| && calls[k].BrowserDisconnected? && !ConnectedBefore(calls, k)
  }

  /** A listening connection reports the end of a session it never reported the beginning of exactly when
      a browser has connected and the look-up of its process fails. */
  lemma LoneDisconnectionIff(c: Conn, completion: Completion, lookup: Lookup, read: ApiResult, parse: Parser)
    requires !c.connected
    ensures LoneDisconnection(HandleEvent(c, completion, lookup, read, parse).calls)
       <==> completion.Succeeded? && !lookup.Found?
  {
    var r := Receive(c, completion, lookup, parse);
    var calls := HandleEvent(c, completion, lookup, read, parse).calls;
    if completion.Failed? {
      assert !r.conn.connected && forall k :: 0 <= k < |calls| ==> !calls[k].BrowserDisconnected?;
    } else if lookup.Found? {
      assert r.calls[0].BrowserConnected? && calls[0] == r.calls[0];
    } else {
      assert calls == r.calls + [BrowserDisconnected(r.conn.info)];
      assert calls[1].BrowserDisconnected? && !ConnectedBefore(calls, 1);
    }
  }

  /** The least such histories: one error report, and one disconnection of a browser nobody was told of, with
      the process id if that was found. */
  lemma FailedLookupDisconnects(c: Conn, data: Bytes, pid: nat, read: ApiResult, parse: Parser)
    requires !c.connected
    ensures HandleEvent(c, Succeeded(data), PidFails, read, parse).calls
         == [InternalError(BuildBrowser, ErrCannotGetBrowserPid), BrowserDisconnected(c.info)]
    ensures HandleEvent(c, Succeeded(data), PathFails(pid), read, parse).calls
         == [InternalError(BuildBrowser, ErrCannotGetBrowserBinaryPath),
             BrowserDisconnected(BrowserInfo(pid, c.info.binaryPath))]
  {
  }

  // ---- Outstanding I/O ----

  /** Neither connected nor reading, with every reading field cleared. */
  predicate Quiet(c: Conn) {
    && !c.connected && c.info == NO_BROWSER && c.buffer == [] && c.cursor == None
    && c.readSize == 0 && c.finalSize == 0 && !c.operation.Reading?
  }

  /** Connected, with exactly one read queued, into a region of the buffer past the bytes received. */
  predicate Active(c: Conn) {
    && c.connected && c.cursor.Some?
    && c.operation == Reading(c.cursor.value, c.readSize)
    && c.finalSize <= c.cursor.value
    && c.cursor.value + c.readSize <= |c.buffer|
  }

  /** What a finished connect, or an old status, can report. */
  predicate ConnectAnswer(completion: Completion) {
    completion.data == [] && (completion.Failed? ==> completion.err != IoPending && completion.err != MoreData)
  }

  /** The operating system's side: a connection is signalled only when its operation has finished, or when
      its event is still set from an earlier one; a failure carries a real error, and a read stores no more
      than it was asked for. */
  predicate Answers(c: Conn, completion: Completion) {
    match c.operation
    case NoOperation => c.signalled && ConnectAnswer(completion)
    case Listening => ConnectAnswer(completion)
    case Reading(_, size) => |completion.data| <= size && (completion.Failed? ==> completion.err != IoPending)
  }

  /** A successful HandleEvent leaves one read queued inside the buffer; a failed one leaves nothing
      queued and everything cleared. */
  lemma SingleOutstandingRead(c: Conn, completion: Completion, lookup: Lookup, read: ApiResult, parse: Parser)
    requires Quiet(c) || Active(c)
    requires Answers(c, completion)
    ensures var o := HandleEvent(c, completion, lookup, read, parse);
            if o.rc == Ok then Active(o.conn) else Quiet(o.conn) && o.conn.operation == NoOperation
  {
    hide OnReadFile;
    hide BuildBrowserInfo;
    hide Continue;
    var o := Receive(c, completion, lookup, parse);
    if c.connected {
      ReadLeavesRoom(c, completion, parse);
    } else {
      AcceptLeavesRoom(c, completion, lookup, parse);
    }
    QueuedReadFits(o, read);
  }

  /** Between the two halves nothing is outstanding, and the cursor is past the bytes received. */
  predicate Paused(o: Outcome) {
    && o.conn.connected && o.conn.operation == NoOperation
    && (o.rc == ErrMoreData ==> o.conn.cursor.Some? && o.conn.finalSize <= o.conn.cursor.value
                                && o.conn.cursor.value + o.conn.readSize <= |o.conn.buffer|)
    && o.rc != ErrIoPending
  }

  lemma ReadLeavesRoom(c: Conn, completion: Completion, parse: Parser)
    requires Active(c) && Answers(c, completion)
    ensures Paused(OnReadFile(Finish(c, completion.data), completion, parse))
  {
    hide InitResponse;
  }

  lemma AcceptLeavesRoom(c: Conn, completion: Completion, lookup: Lookup, parse: Parser)
    requires Quiet(c) && Answers(c, completion)
    ensures var o := Receive(c, completion, lookup, parse);
            if o.conn.connected then Paused(o) && o.rc != ErrMoreData
            else Quiet(o.conn) && o.conn.operation == NoOperation && !Fine(o.rc)
  {
  }

  lemma QueuedReadFits(o: Outcome, read: ApiResult)
    requires Paused(o) || (Quiet(o.conn) && o.conn.operation == NoOperation && !Fine(o.rc))
    ensures var t := Continue(o, read);
            if t.rc == Ok then Active(t.conn) else Quiet(t.conn) && t.conn.operation == NoOperation
  {
  }
}
