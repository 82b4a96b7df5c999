/** The agent's response writer and the life of one analysis event (agent/src/event_win.cc). */
module AnalysisEvents {
  import opened Common
  import opened Protocol
  import opened ResponseEdits

  // ---- WriteMessageToPipe ----

  /** How one `WriteFile` call ends: at once, with an error, or after waiting for a pending write. */
  datatype WriteOutcome =
    | WroteAll
    | WriteFailed(err: HardError)
    | WrotePending(count: nat)
    | PendingFailed(err: HardError)

  /** A completed pending write wrote something. */
  ghost predicate MakesProgress(writes: nat -> WriteOutcome) {
    forall i :: writes(i).WrotePending? ==> writes(i).count > 0
  }

  datatype WriteReport = WriteReport(err: WinError, chunks: seq<Bytes>)

  function Accepted(outcome: WriteOutcome, size: nat): nat {
    match outcome
    case WroteAll => size
    case WrotePending(count) => if count < size then count else size
    case _ => 0
  }

  /** The loop from its `i`-th call on, with `rest` unwritten and `last` the error code left so far. */
  ghost function WriteLoop(rest: Bytes, i: nat, writes: nat -> WriteOutcome, last: WinError): WriteReport
    requires MakesProgress(writes)
    decreases |rest|
  {
    if rest == [] then WriteReport(last, [])
    else
      match writes(i)
      case WroteAll => WriteReport(Success, [rest])
      case WriteFailed(err) => WriteReport(err, [])
      case PendingFailed(err) => WriteReport(err, [])
      case WrotePending(_) =>
        var n := Accepted(writes(i), |rest|);
        var tail := WriteLoop(rest[n..], i + 1, writes, IoPending);
        WriteReport(tail.err, [rest[..n]] + tail.chunks)
  }

  ghost function WriteMessage(message: Bytes, event: Option<HardError>, writes: nat -> WriteOutcome): WriteReport
    requires MakesProgress(writes)
  {
    if message == [] then WriteReport(Success, [])
    else if event.Some? then WriteReport(event.value, [])
    else WriteLoop(Measured(message), 0, writes, Success)
  }

  /** As much of a message as a `DWORD` measures. */
  function Measured(message: Bytes): Bytes {
    message[..ToDword(|message|)]
  }

  /** The codes that mean that nothing failed. */
  predicate Went(err: WinError) {
    err == Success || err == IoPending
  }

  function Joined(chunks: seq<Bytes>): Bytes {
    if chunks == [] then [] else chunks[0] + Joined(chunks[1..])
  }

  /** `event` is the error of a failed event creation, if it failed. */
  method WriteMessageToPipe(message: Bytes, event: Option<HardError>, writes: nat -> WriteOutcome)
    returns (err: WinError, chunks: seq<Bytes>)
    requires MakesProgress(writes)
    ensures WriteReport(err, chunks) == WriteMessage(message, event, writes)
    ensures Joined(chunks) <= message
    ensures Joined(chunks) == message <==> Went(err) && |message| < DWORDS
  {
    hide Joined;
    ghost var goal := WriteMessage(message, event, writes);
    WrittenIsPrefix(message, event, writes);
    chunks := [];
    if message == [] {
      return Success, [];
    }
    if event.Some? {
      return event.value, [];
    }
    err := Success;
    var cursor, size := 0, ToDword(|message|);
    var calls := 0;
    ghost var sent := Measured(message);
    assert sent[0..] == sent;
    while size > 0
      invariant cursor <= |sent| && cursor + size == |sent|
      invariant var tail := WriteLoop(sent[cursor..], calls, writes, err);
                goal.err == tail.err && goal.chunks == chunks + tail.chunks
      decreases size
    {
      ghost var rest := sent[cursor..];
      var n := Accepted(writes(calls), size);
      var chunk := message[cursor..cursor + n];
      match writes(calls) {
        case WroteAll =>
          assert chunk == rest;
          return Success, chunks + [chunk];
        case WriteFailed(e) =>
          return e, chunks;
        case PendingFailed(e) =>
          return e, chunks;
        case WrotePending(_) =>
          assert rest[n..] == sent[cursor + n..] && rest[..n] == chunk;
          ChunksJoin(chunks, chunk, WriteLoop(rest[n..], calls + 1, writes, IoPending).chunks);
          chunks, err := chunks + [chunk], IoPending;
          cursor, size, calls := cursor + n, size - n, calls + 1;
      }
    }
  }

  lemma ChunksJoin(chunks: seq<Bytes>, chunk: Bytes, tail: seq<Bytes>)
    ensures chunks + ([chunk] + tail) == chunks + [chunk] + tail
  {
  }

  /** What was written is a prefix of the message, and the whole of it exactly when the code is SUCCESS
      or IO_PENDING. */
  lemma {:induction false} LoopPrefix(rest: Bytes, i: nat, writes: nat -> WriteOutcome, last: WinError)
    requires MakesProgress(writes) && (last == Success || last == IoPending)
    ensures var report := WriteLoop(rest, i, writes, last);
            && Joined(report.chunks) <= rest
            && ((report.err == Success || report.err == IoPending) <==> Joined(report.chunks) == rest)
    decreases |rest|
  {
    if rest != [] {
      match writes(i) {
        case WroteAll =>
          assert Joined([rest]) == rest + Joined([rest][1..]);
        case WriteFailed(_) =>
        case PendingFailed(_) =>
        case WrotePending(_) =>
          var n := Accepted(writes(i), |rest|);
          var tail := WriteLoop(rest[n..], i + 1, writes, IoPending);
          LoopPrefix(rest[n..], i + 1, writes, IoPending);
          JoinedFront(rest, n, tail.chunks);
          hide Joined;
      }
    }
  }

  lemma WrittenIsPrefix(message: Bytes, event: Option<HardError>, writes: nat -> WriteOutcome)
    requires MakesProgress(writes)
    ensures var report := WriteMessage(message, event, writes);
            && Joined(report.chunks) <= message
            && (Joined(report.chunks) == message <==> Went(report.err) && |message| < DWORDS)
  {
    LoopPrefix(Measured(message), 0, writes, Success);
    if |message| < DWORDS {
      assert Measured(message) == message;
    }
  }

  // ---- Which code, read off from the calls ----

  /** Bytes written by `n` pending writes from the `i`-th call on, if none had to be cut short. */
  function Sent(writes: nat -> WriteOutcome, i: nat, n: nat): nat
    decreases n
  {
    if n == 0 then 0
    else (if writes(i).WrotePending? then writes(i).count else 0) + Sent(writes, i + 1, n - 1)
  }

  predicate AllPend(writes: nat -> WriteOutcome, i: nat, n: nat)
    decreases n
  {
    n == 0 || (writes(i).WrotePending? && AllPend(writes, i + 1, n - 1))
  }

  /** `n` pending writes fall short of `size`, and the next write finishes it at once. */
  predicate EndsAtOnce(writes: nat -> WriteOutcome, i: nat, n: nat, size: nat) {
    AllPend(writes, i, n) && Sent(writes, i, n) < size && writes(i + n).WroteAll?
  }

  /** `n` pending writes fall short of `size`, and one more reaches it. */
  predicate EndsPending(writes: nat -> WriteOutcome, i: nat, n: nat, size: nat) {
    AllPend(writes, i, n + 1) && Sent(writes, i, n) < size <= Sent(writes, i, n + 1)
  }

  /** `n` pending writes fall short of `size`, and the next write, or the wait for it, fails with `err`. */
  predicate EndsFailing(writes: nat -> WriteOutcome, i: nat, n: nat, size: nat, err: HardError) {
    && AllPend(writes, i, n) && Sent(writes, i, n) < size
    && (writes(i + n) == WriteFailed(err) || writes(i + n) == PendingFailed(err))
  }

  ghost predicate FinishesFailing(writes: nat -> WriteOutcome, i: nat, size: nat, err: HardError) {
    exists n: nat :: EndsFailing(writes, i, n, size, err)
  }

  ghost predicate FinishesAtOnce(writes: nat -> WriteOutcome, i: nat, size: nat) {
    exists n: nat :: EndsAtOnce(writes, i, n, size)
  }

  ghost predicate FinishesPending(writes: nat -> WriteOutcome, i: nat, size: nat) {
    exists n: nat :: EndsPending(writes, i, n, size)
  }

  /** The code is decided by the calls and the size alone: SUCCESS exactly if a write that finishes at once
      comes before the pending ones have covered the message, IO_PENDING exactly if they cover it. */
  lemma {:induction false} LoopCode(rest: Bytes, i: nat, writes: nat -> WriteOutcome, last: WinError)
    requires MakesProgress(writes) && rest != []
    ensures var report := WriteLoop(rest, i, writes, last);
            && (report.err == Success <==> FinishesAtOnce(writes, i, |rest|))
            && (report.err == IoPending <==> FinishesPending(writes, i, |rest|))
    decreases |rest|
  {
    match writes(i) {
      case WroteAll =>
        assert EndsAtOnce(writes, i, 0, |rest|);
      case WriteFailed(_) =>
      case PendingFailed(_) =>
      case WrotePending(count) =>
        var n := Accepted(writes(i), |rest|);
        if count >= |rest| {
          assert rest[n..] == [];
          assert AllPend(writes, i, 1) && Sent(writes, i, 1) == count + Sent(writes, i + 1, 0);
          assert EndsPending(writes, i, 0, |rest|);
          forall k: nat
            ensures !EndsAtOnce(writes, i, k, |rest|)
          {
          }
        } else {
          LoopCode(rest[n..], i + 1, writes, IoPending);
          EndsLater(writes, i, |rest|);
        }
    }
  }

  /** A pending write that falls short leaves the rest to the later calls. */
  lemma EndsLater(writes: nat -> WriteOutcome, i: nat, size: nat)
    requires writes(i).WrotePending? && writes(i).count < size
    ensures FinishesAtOnce(writes, i, size) <==> FinishesAtOnce(writes, i + 1, size - writes(i).count)
    ensures FinishesPending(writes, i, size) <==> FinishesPending(writes, i + 1, size - writes(i).count)
  {
    var left := size - writes(i).count;
    if FinishesAtOnce(writes, i, size) {
      var n: nat :| EndsAtOnce(writes, i, n, size);
      assert EndsAtOnce(writes, i + 1, n - 1, left);
    }
    if FinishesAtOnce(writes, i + 1, left) {
      var n: nat :| EndsAtOnce(writes, i + 1, n, left);
      assert EndsAtOnce(writes, i, n + 1, size);
    }
    if FinishesPending(writes, i, size) {
      var n: nat :| EndsPending(writes, i, n, size);
      assert Sent(writes, i, 1) == writes(i).count + Sent(writes, i + 1, 0);
      assert EndsPending(writes, i + 1, n - 1, left);
    }
    if FinishesPending(writes, i + 1, left) {
      var n: nat :| EndsPending(writes, i + 1, n, left);
      assert AllPend(writes, i, n + 2) && Sent(writes, i, n + 2) == writes(i).count + Sent(writes, i + 1, n + 1);
      assert EndsPending(writes, i, n + 1, size);
    }
  }

  /** And it is an error exactly if the first call that is not a pending write fails with it before they have
      covered the message. */
  lemma {:induction false} LoopFailure(rest: Bytes, i: nat, writes: nat -> WriteOutcome, last: WinError, err: HardError)
    requires MakesProgress(writes) && rest != []
    ensures WriteLoop(rest, i, writes, last).err == err <==> FinishesFailing(writes, i, |rest|, err)
    decreases |rest|
  {
    hide FinishesFailing;
    match writes(i) {
      case WroteAll =>
        FirstFails(writes, i, |rest|, err);
      case WriteFailed(e) =>
        FirstFails(writes, i, |rest|, err);
      case PendingFailed(e) =>
        FirstFails(writes, i, |rest|, err);
      case WrotePending(count) =>
        var n := Accepted(writes(i), |rest|);
        if count >= |rest| {
          assert rest[n..] == [];
          CoveredDoesNotFail(writes, i, |rest|, err);
        } else {
          LoopFailure(rest[n..], i + 1, writes, IoPending, err);
          FailsLater(writes, i, |rest|, err);
        }
    }
  }

  lemma FirstFails(writes: nat -> WriteOutcome, i: nat, size: nat, err: HardError)
    requires !writes(i).WrotePending? && size > 0
    ensures FinishesFailing(writes, i, size, err) <==> writes(i) == WriteFailed(err) || writes(i) == PendingFailed(err)
  {
    if writes(i) == WriteFailed(err) || writes(i) == PendingFailed(err) {
      assert EndsFailing(writes, i, 0, size, err);
    }
  }

  lemma CoveredDoesNotFail(writes: nat -> WriteOutcome, i: nat, size: nat, err: HardError)
    requires writes(i).WrotePending? && writes(i).count >= size
    ensures !FinishesFailing(writes, i, size, err)
  {
    forall k: nat
      ensures !EndsFailing(writes, i, k, size, err)
    {
    }
  }

  lemma FailsLater(writes: nat -> WriteOutcome, i: nat, size: nat, err: HardError)
    requires writes(i).WrotePending? && writes(i).count < size
    ensures FinishesFailing(writes, i, size, err) <==> FinishesFailing(writes, i + 1, size - writes(i).count, err)
  {
    var left := size - writes(i).count;
    if FinishesFailing(writes, i, size, err) {
      var n: nat :| EndsFailing(writes, i, n, size, err);
      assert EndsFailing(writes, i + 1, n - 1, left, err);
    }
    if FinishesFailing(writes, i + 1, left, err) {
      var n: nat :| EndsFailing(writes, i + 1, n, left, err);
      assert EndsFailing(writes, i, n + 1, size, err);
    }
  }

  // ---- Messages on a message-mode pipe ----

  /** A pending write that completes has written all it was given. */
  ghost predicate WritesWhole(writes: nat -> WriteOutcome, size: nat) {
    forall i :: writes(i).WrotePending? ==> writes(i).count >= size
  }

  /** The write routine then puts one message into the pipe or none, and it does so exactly if it returns
      SUCCESS or IO_PENDING for a message that is not empty. */
  lemma WholeWriteIsOneMessage(message: Bytes, event: Option<HardError>, writes: nat -> WriteOutcome)
    requires MakesProgress(writes) && WritesWhole(writes, |message|) && |message| < DWORDS
    ensures var report := WriteMessage(message, event, writes);
            report.chunks == if Went(report.err) && message != [] then [message] else []
  {
    assert Measured(message) == message;
    if message != [] {
      assert message[|message|..] == [] && message[..|message|] == message;
      assert WriteLoop(message[|message|..], 1, writes, IoPending) == WriteReport(IoPending, []);
    }
  }

  /** Otherwise the routine's second write starts a message of its own, and the reader gets the first part
      alone. */
  lemma ShortWriteSplitsTheMessage(message: Bytes)
    requires 1 < |message| < DWORDS
    ensures var writes: nat -> WriteOutcome := i => if i == 0 then WrotePending(1) else WroteAll;
            MakesProgress(writes) && WriteMessage(message, None, writes) == WriteReport(Success, [message[..1], message[1..]])
  {
    var writes: nat -> WriteOutcome := i => if i == 0 then WrotePending(1) else WroteAll;
    assert Measured(message) == message;
    assert WriteLoop(message[1..], 1, writes, IoPending) == WriteReport(Success, [message[1..]]);
  }

  lemma JoinedFront(rest: Bytes, n: nat, chunks: seq<Bytes>)
    requires n <= |rest|
    ensures Joined([rest[..n]] + chunks) == rest[..n] + Joined(chunks)
    ensures Joined([rest[..n]] + chunks) == rest <==> Joined(chunks) == rest[n..]
    ensures Joined([]) == []
  {
    assert ([rest[..n]] + chunks)[1..] == chunks;
    assert rest == rest[..n] + rest[n..];
    if rest[..n] + Joined(chunks) == rest {
      assert Joined(chunks) == (rest[..n] + Joined(chunks))[n..];
    }
  }

  /** A message written whole by one pending write is reported as IO_PENDING, although the routine's own
      comment promises SUCCESS. */
  lemma PendingWriteIsNotReportedAsSuccess(message: Bytes)
    requires 0 < |message| < DWORDS
    ensures var writes: nat -> WriteOutcome := _ => WrotePending(|message|);
            MakesProgress(writes) && WriteMessage(message, None, writes) == WriteReport(IoPending, [message])
    ensures ErrorToResultCode(IoPending) != Ok
  {
    var writes: nat -> WriteOutcome := _ => WrotePending(|message|);
    assert Measured(message) == message;
    assert message[..|message|] == message && message[|message|..] == [];
    assert WriteLoop(message[|message|..], 1, writes, IoPending) == WriteReport(IoPending, []);
  }

  // ---- One event from construction to destruction ----

  /** One entry into the write routine. */
  datatype Attempt = Attempt(onPipe: bool, message: AgentToChrome)

  datatype EventState = EventState(pipeValid: bool, sent: bool, message: AgentToChrome, attempts: seq<Attempt>)

  function AfterSend(s: EventState): EventState {
    if s.sent then s else s.(sent := true, attempts := s.attempts + [Attempt(s.pipeValid, s.message)])
  }

  function SendCode(s: EventState, err: WinError): ResultCode {
    if s.sent then ErrResponseAlreadySent else ErrorToResultCode(err)
  }

  /** Common to Close and destruction. */
  function AfterShutdown(s: EventState): EventState {
    if s.pipeValid then AfterSend(s).(pipeValid := false) else s
  }

  datatype Use = Send | Close | Touch(edit: Edit)

  function Touched(m: AgentToChrome, e: Edit): AgentToChrome {
    AgentToChrome(Some(Edited(if m.response.Some? then m.response.value else Response("", []), e)))
  }

  function AfterUse(s: EventState, use: Use): EventState {
    match use
    case Send => AfterSend(s)
    case Close => AfterShutdown(s)
    case Touch(edit) => s.(message := Touched(s.message, edit))
  }

  function AfterUses(s: EventState, uses: seq<Use>): EventState
    decreases uses
  {
    if uses == [] then s else AfterUses(AfterUse(s, uses[0]), uses[1..])
  }

  function Fresh(pipeValid: bool, message: AgentToChrome): EventState {
    EventState(pipeValid, false, message, [])
  }

  /** A use after which an event on this pipe is answered. */
  predicate Answers(use: Use, pipeValid: bool) {
    use.Send? || (pipeValid && use.Close?)
  }

  /** The message after the edits made before the use that answers the event. */
  function MessageAtFirstAnswer(m: AgentToChrome, uses: seq<Use>, pipeValid: bool): AgentToChrome
    decreases uses
  {
    if uses == [] || Answers(uses[0], pipeValid) then m
    else MessageAtFirstAnswer(if uses[0].Touch? then Touched(m, uses[0].edit) else m, uses[1..], pipeValid)
  }

  lemma {:induction false} AnsweredStays(s: EventState, uses: seq<Use>)
    requires s.sent
    ensures var t := AfterUses(s, uses);
            && t.sent && t.attempts == s.attempts
            && var end := AfterShutdown(t); end.attempts == s.attempts && end.sent && !end.pipeValid
    decreases uses
  {
    if uses != [] {
      AnsweredStays(AfterUse(s, uses[0]), uses[1..]);
    }
  }

  /** Over its whole life an event enters the write routine at most once, and not at all exactly if its pipe
      was never valid and Send was never called; it does so on the pipe it was built on and with the response
      as it stood at the first Send, Close or destruction. */
  lemma {:induction false} AttemptsOverALife(pipeValid: bool, message: AgentToChrome, uses: seq<Use>)
    ensures var end := AfterShutdown(AfterUses(Fresh(pipeValid, message), uses));
            && end.attempts == (if pipeValid || Send in uses
                                then [Attempt(pipeValid, MessageAtFirstAnswer(message, uses, pipeValid))] else [])
            && !end.pipeValid && (end.sent <==> end.attempts != [])
    decreases uses
  {
    var s := Fresh(pipeValid, message);
    if uses != [] {
      var t := AfterUse(s, uses[0]);
      assert Send in uses <==> uses[0].Send? || Send in uses[1..];
      if Answers(uses[0], pipeValid) {
        AnsweredStays(t, uses[1..]);
      } else {
        assert t == Fresh(pipeValid, t.message);
        AttemptsOverALife(pipeValid, t.message, uses[1..]);
      }
    }
  }

  /** So an event built on a valid pipe is answered exactly once. */
  lemma OneResponsePerEvent(message: AgentToChrome, uses: seq<Use>)
    ensures AfterShutdown(AfterUses(Fresh(true, message), uses)).attempts
         == [Attempt(true, MessageAtFirstAnswer(message, uses, true))]
  {
    AttemptsOverALife(true, message, uses);
  }

  /** Send is refused exactly when a Send came before it, or a Close of a valid pipe. */
  lemma {:induction false} SendRefusedIffAnswered(pipeValid: bool, message: AgentToChrome, uses: seq<Use>, err: WinError)
    ensures SendCode(AfterUses(Fresh(pipeValid, message), uses), err) == ErrResponseAlreadySent
       <==> exists i :: 0 <= i < |uses| && Answers(uses[i], pipeValid)
    decreases uses
  {
    var s := Fresh(pipeValid, message);
    if uses == [] {
    } else if Answers(uses[0], pipeValid) {
      AnsweredStays(AfterUse(s, uses[0]), uses[1..]);
    } else {
      var t := AfterUse(s, uses[0]);
      assert t == Fresh(pipeValid, t.message);
      SendRefusedIffAnswered(pipeValid, t.message, uses[1..], err);
      if i :| 0 <= i < |uses| && Answers(uses[i], pipeValid) {
        assert uses[1..][i - 1] == uses[i];
      }
      if j :| 0 <= j < |uses[1..]| && Answers(uses[1..][j], pipeValid) {
        assert uses[j + 1] == uses[1..][j];
      }
    }
  }

  /** The code of a first Send, by the calls alone: Ok exactly if there is nothing to write or a write that
      finishes at once ends it, and otherwise that of the first call that fails; a message that pending
      writes cover is reported as pending. */
  lemma SendCodeIff(s: EventState, message: Bytes, event: Option<HardError>, writes: nat -> WriteOutcome, err: HardError)
    requires MakesProgress(writes) && !s.sent && |message| < DWORDS
    ensures var code := SendCode(s, WriteMessage(message, event, writes).err);
            && (code == Ok <==> message == [] || (event.None? && FinishesAtOnce(writes, 0, |message|)))
            && (message != [] && event.Some? ==> code == ErrorToResultCode(event.value))
            && (message != [] && event.None? && FinishesFailing(writes, 0, |message|, err) ==> code == ErrorToResultCode(err))
            && (code == ErrIoPending <==> message != [] && event.None? && FinishesPending(writes, 0, |message|))
            && (code == ErrBrokenPipe <==>
                  message != [] && if event.Some? then event.value == BrokenPipe
                                   else FinishesFailing(writes, 0, |message|, BrokenPipe))
  {
    assert Measured(message) == message;
    if message != [] {
      LoopCode(message, 0, writes, Success);
      LoopFailure(message, 0, writes, Success, err);
      LoopFailure(message, 0, writes, Success, BrokenPipe);
      hide WriteLoop;
      hide FinishesAtOnce;
      hide FinishesPending;
      hide FinishesFailing;
    }
  }

  /** Dropping an event whose Init failed enters the write routine with an untouched message, and so
      writes nothing. */
  lemma RejectedEventWritesNothing(codec: Codec, event: Option<HardError>, writes: nat -> WriteOutcome)
    requires Lawful(codec) && MakesProgress(writes)
    ensures AfterShutdown(Fresh(true, AgentToChrome(None))).attempts == [Attempt(true, AgentToChrome(None))]
    ensures WriteMessage(codec.putResponse(AgentToChrome(None)), event, writes) == WriteReport(Success, [])
  {
  }

  class ContentAnalysisEventWin {
    const browserInfo: BrowserInfo
    const request: Request
    const putResponse: AgentToChrome -> Bytes
    const response: ContentAnalysisResponse

    // Whether `agent_to_chrome_` has a response at all.
    var hasResponse: bool
    var pipeValid: bool
    var responseSent: bool

    // Every entry into the write routine, in order.
    var attempts: seq<Attempt>

    function Message(): AgentToChrome
      reads this, response
    {
      AgentToChrome(if hasResponse then Some(response.State()) else None)
    }

    function State(): EventState
      reads this, response
    {
      EventState(pipeValid, responseSent, Message(), attempts)
    }

    constructor (pipeValid: bool, info: BrowserInfo, request: Request, putResponse: AgentToChrome -> Bytes)
      ensures State() == Fresh(pipeValid, AgentToChrome(None))
      ensures this.request == request && browserInfo == info && fresh(response)
    {
      this.pipeValid, responseSent, hasResponse := pipeValid, false, false;
      this.request, browserInfo, this.putResponse := request, info, putResponse;
      response := new ContentAnalysisResponse();
      attempts := [];
    }

    method Init() returns (rc: ResultCode)
      requires !hasResponse && response.State() == Response("", [])
      modifies this`hasResponse, response
      ensures rc == if InitResponse(request).Some? then Ok else ErrMissingRequestToken
      ensures State() == old(State()).(message := AgentToChrome(InitResponse(request)))
    {
      if request.token == "" {
        return ErrMissingRequestToken;
      }
      hasResponse := true;
      response.SetToken(request.token);
      rc := UpdateResponse(response, if |request.tags| > 0 then request.tags[0] else "", StatusSuccess);
    }

    method Send(event: Option<HardError>, writes: nat -> WriteOutcome) returns (rc: ResultCode)
      requires MakesProgress(writes)
      modifies this`responseSent, this`attempts
      ensures State() == AfterSend(old(State()))
      ensures rc == SendCode(old(State()), WriteMessage(putResponse(old(Message())), event, writes).err)
    {
      if responseSent {
        return ErrResponseAlreadySent;
      }
      responseSent := true;
      attempts := attempts + [Attempt(pipeValid, Message())];
      var err, _ := WriteMessageToPipe(putResponse(Message()), event, writes);
      rc := ErrorToResultCode(err);
    }

    method Close(event: Option<HardError>, writes: nat -> WriteOutcome) returns (rc: ResultCode)
      requires MakesProgress(writes)
      modifies this`responseSent, this`attempts, this`pipeValid
      ensures rc == Ok && State() == AfterShutdown(old(State()))
    {
      Shutdown(event, writes);
      rc := Ok;
    }

    /** Also the whole of the destructor. */
    method Shutdown(event: Option<HardError>, writes: nat -> WriteOutcome)
      requires MakesProgress(writes)
      modifies this`responseSent, this`attempts, this`pipeValid
      ensures State() == AfterShutdown(old(State()))
    {
      if pipeValid {
        if !responseSent {
          var _ := Send(event, writes);
        }
        pipeValid := false;
      }
    }
  }
}
