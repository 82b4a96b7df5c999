# Verification of the content analysis agent and client

This project models the Windows half of the content analysis SDK and its demo: the agent that listens on
named pipes for browsers, the client a browser uses to talk to it, the events that carry one request and
one response, and the demo's background queue, workers and group acknowledgement. It proves what these
promise together: every message a browser writes reaches the handler once and in order, every browser
session is reported whole, the pool never loses count of its listeners, every event is answered once, no
worker sleeps through work, and a browser's request gets its own response.

`dafny verify dfyconfig.toml` checks everything.

## How the model is laid out

The source's classes are Dafny classes whose methods update the same fields in the same order
(`AgentObjects.Connection`, `AgentObjects.AgentWin`, `AnalysisEvents.ContentAnalysisEventWin`,
`ResponseEdits.ContentAnalysisResponse`, `BrowserClient.ClientWin`, `RequestQueues.RequestQueue`,
`GroupAcks.DemoClient`), and the source's loops are loops. Each method is proved equal to a specification
function on values, and the theorems are about those functions, over all inputs and all runs.

| file | models |
|---|---|
| Common, Protocol, Pipe | byte buffers, counting; messages, error codes, the `DWORD` conversion; a message-mode pipe |
| ConnectionSpec, Sessions | one agent connection; its callbacks as an automaton; its outstanding I/O |
| Reassembly, ReassemblyRuns | chunked reads refine the list of messages written, up to the handler's calls |
| PoolSpec, Pool, AgentRuns, Listeners | the pool, the event loop, construction and shutdown; invariants over every run; which connections can still accept a browser |
| Reports | which codes construction, resets and events return, and which errors the handler is told of |
| AgentWin | `Connection` and `AgentWin` as objects, proved to follow those specifications |
| Response, Event, Handler | in-place response edits; write loop and life of an event; the demo's verdict |
| Client | the client's reading loop, `Send`, `Acknowledge`, `CancelRequests`; agreement with the agent's reader |
| RequestQueue, Monitor | the queue's operations; the queue under any number of threads, statement by statement |
| RoundTrip, Abandoned | browsers, pipes, agent, queue and workers together; a run in which a Send that gave up misleads the next |
| GroupAck | the severest action of a group and its acknowledgements |

## What is taken for granted

Every answer of the operating system is a parameter, so each theorem holds for all of them. The contract is:

- Pipes are in message mode (common/utils_win.cc:125-128, browser/src/client_win.cc:408-409). A read of n bytes
  with r bytes left in the message yields min(n, r) bytes; it succeeds if r <= n and otherwise reports "more
  data". One write is of less than 2^32 bytes, as its size is a `DWORD`.
- A pending write that completes has written something (`AnalysisEvents.MakesProgress`); if not, the agent's
  write loop would not end, nor would the source's. In a message-mode pipe it has written everything it was
  given (`AnalysisEvents.WritesWhole`). Only the round trip needs the second point; without it a response can
  be split into two messages (`AnalysisEvents.ShortWriteSplitsTheMessage`).
- A connection's event is manual-reset (agent/src/agent_win.cc:50-53): it is set when an operation finishes, and
  cleared only by ResetEvent and when a read or a connect is begun; a read that cannot be queued leaves it as it
  is (agent/src/agent_win.cc:239-242). A connection is signalled only when its operation has finished or its event
  is still set; a failed connect or read, or an old status, then carries a real error, which is not "pending", and
  except for a read not "more data" (`Sessions.Answers`). Only the theorems about outstanding I/O and about
  listeners need this.
- A failed call leaves an error other than SUCCESS; the wait's error for a pending write or read is not
  "pending" either. Any call may fail, with any error.
- An index beyond the handles that were waited on is read as the stop event; the operating system never returns
  one. It refuses to wait on more than 64 handles (`AgentRuns.WaitIsLimited`).
- A handler that answers an event leaves its token alone (`RoundTrip.Enabled`); the demo's does
  (`DemoHandler.ResponseCarriesTheFinding`).
- Serialising and parsing are an arbitrary pair of partial inverses (`Protocol.Lawful`): the serialiser gives at
  most 2^31 - 1 bytes, and the empty string for a message that would need more; an untouched `AgentToChrome`
  serialises to the empty string. The parser takes its size as an `int`, and refuses the negative size that a
  `DWORD` from 2^31 on becomes (`ConnectionSpec.ParseWhole`).
- The system gives out a handle value anew only when the handle that had it is closed. In RoundTrip a handle is
  such a value: an event writes to whatever session is open on the value it was made with.

Connections and pipe instances are numbered as they are created; `id`, `operation`, the handler's log, an
event's `attempts`, the client pipe's `written` and a session's `clean`, `lossless`, `reissued` and
`failedSends` record what happens and decide nothing.

## Where the code and its comments differ

The model follows the code.

- `WriteMessageToPipe` promises ERROR_SUCCESS once the whole message is sent; after an asynchronous write it
  returns ERROR_IO_PENDING, and `Send` an error (`AnalysisEvents.PendingWriteIsNotReportedAsSuccess`;
  `AnalysisEvents.LoopCode` says exactly when).
- agent/src/agent_win.h:184-186 says that the first two connections are the listeners. Only their number is
  kept: from an ordered pool a step keeps the order exactly if it accepts nobody, and no accept leaves it
  (`ListenerRuns.ListenersStayFirstIff`).
- A disconnected callback can come without a connected one before it: exactly when a browser has connected and
  the look-up of its process fails (`Sessions.LoneDisconnectionIff`, `Sessions.FailedLookupDisconnects`).
- Two connections are always "not connected", but one whose reset or creation failed stays in the pool without
  a pipe (`ListenerRuns.ListenersSurviveIff`, `ListenerRuns.CountIsNotAvailability`). If DisconnectNamedPipe,
  CreatePipe or ResetEvent failed in a reset, its event is still set, and the agent comes back to it
  (`ListenerRuns.LostListenerComesBack`). A listener is lost for good exactly if its event is left clear: when a
  new connection comes to nothing before a connect sets its event (`ListenerRuns.NewStranded`), or when the
  connect, or SetEvent after it, fails in a reset in which ResetEvent worked (`ListenerRuns.Stranded`);
  `ListenerRuns.ReachableListenersOnlyStrand` counts them over every run. After two such losses the agent accepts
  no browser any more (`ListenerRuns.TwoLossesEndService`).
- A client whose `Send` fails while its response is unread answers the next `Send` that succeeds with that
  response, whatever else happens in between, or with the rest of it if a `Send` fails halfway through it
  (`RoundTrip.AbandonedResponseAnswersTheNextSend`, `RoundTrip.FailureMidwayLeavesTheRest`). As long as no
  `Send` of a session has failed, every `Send` gets its own. `AbandonedSends.AbandonedSendMisleadsTheNext` is a
  run from the start in which one does not.
- An event keeps a raw handle that its connection may close first. Its response then goes to another browser
  exactly if that handle value has been given out again to it (`RoundTrip.ResponseGoesAstrayIff`).

## Model

| member | source | states |
|---|---|---|
| MessagePipe.Read | common/utils_win.cc:125-128 | a read returns the next bytes of the first message, never crosses its end, and reports more data exactly when bytes of it remain |
| AgentObjects.Connection.constructor | agent/src/agent_win.cc:39-60 | a new connection has no pipe, no browser and no buffer |
| AgentObjects.Connection.Start | agent/src/agent_win.cc:54-59 | without an event object construction fails before any pipe is created; otherwise the outcome is that of the first reset |
| AgentObjects.Connection.Cleanup | agent/src/agent_win.cc:203-224 | reports the end of a session only if one is open, clears every reading field and leaves the pipe |
| AgentObjects.Connection.ResizeBuffer | agent/src/agent_win.cc:98-98 | the buffer may be resized only while no read into it is outstanding; its contents stay |
| AgentObjects.Connection.GetOverlappedResult | agent/src/agent_win.cc:84-86 | the bytes of the finished read lie where the read was queued, nothing is outstanding afterwards, and the event is set |
| AgentObjects.Connection.BuildBrowserInfo | agent/src/agent_win.cc:340-353 | each failed lookup has its own code and report, and a found browser is remembered |
| AgentObjects.Connection.QueueReadFile | agent/src/agent_win.cc:226-266 | queues one read at the cursor, from the start of the buffer for a new message; a pending read leaves the event clear; pending, more data and a broken pipe are not reported |
| AgentObjects.Connection.CallHandler | agent/src/agent_win.cc:297-338 | hands the parser the bytes received, unless their number is negative as an `int`, and makes the one handler call the message asks for, or reports why not |
| AgentObjects.Connection.DispatchMessage | agent/src/agent_win.cc:305-337 | the branch for each kind of message, and the code and report of each that fits none |
| AgentObjects.Connection.OnReadFile | agent/src/agent_win.cc:268-295 | counts the bytes, grows the buffer by 4096 and moves the cursor on more data, and dispatches on success |
| AgentObjects.Connection.Receive | agent/src/agent_win.cc:83-119 | the first half of an event: a browser accepted, or part of a message received |
| AgentObjects.Connection.HandleEvent | agent/src/agent_win.cc:82-136 | the object's state, its calls and its code are those of the specification, whatever the operating system answers |
| AgentObjects.Connection.ResetInternal | agent/src/agent_win.cc:170-201 | reuses the pipe or creates one, clears the event, then listens; a failure before ResetEvent leaves the event as it was, and any failure clears everything else and forgets the pipe |
| AgentObjects.Connection.ConnectPipe | agent/src/agent_win.cc:147-168 | from a clear event, it ends set exactly if the connect finished at once or SetEvent succeeded for a browser already there; waiting for a browser is no error |
| AgentObjects.Connection.Reset | agent/src/agent_win.cc:75-80 | a reset, reported to the handler if it failed |
| Sessions.ReceiveKeepsSession | agent/src/agent_win.cc:87-119 | accepting a browser opens a session or enters the failed-lookup state; receiving data stays in the session |
| Sessions.SettleKeepsSession | agent/src/agent_win.cc:126-133 | clean-up after a failure ends the open session once and leaves the connection unconnected |
| Sessions.HandleEventKeepsSession | agent/src/agent_win.cc:82-136 | for every answer of the operating system the callbacks lead from the session state before to the one after, and connected plus failed lookups minus disconnected is the change of the connected flag |
| Sessions.LoneDisconnectionIff | agent/src/agent_win.cc:92-106 | a listening connection makes a disconnected callback without a connected one before it exactly if a browser connected and its look-up failed |
| Sessions.FailedLookupDisconnects | agent/src/agent_win.cc:100-128 | a look-up without a process id, or without its path, makes exactly one error report of its own code and one disconnected callback, with the process id if that was found |
| Sessions.SingleOutstandingRead | agent/src/agent_win.cc:82-136 | a successful event leaves exactly one read queued inside the buffer behind the bytes received; a failed one leaves none and everything cleared, also for a listener without a pipe that is signalled again |
| Sessions.ReadLeavesRoom | agent/src/agent_win.cc:268-295 | nothing is outstanding while the buffer changes, and the next read fits between cursor and end |
| Sessions.AcceptLeavesRoom | agent/src/agent_win.cc:87-107 | an accepted browser starts with an idle connection; a failed accept leaves it clear |
| Reassembly.ReceiveChunk | agent/src/agent_win.cc:268-295 | each completion extends the received prefix of the message by exactly the bytes read; the last one makes it the whole message |
| Reassembly.ReadMore | agent/src/agent_win.cc:286-292 | a partial read hands nothing to the parser and keeps the connection assembling the same message in a buffer 4096 bytes longer |
| Reassembly.ReadLast | agent/src/agent_win.cc:268-275 | the last read hands the parser exactly the message, if it is of less than 2^31 bytes, without bytes of earlier ones; it starts over at the front of the unchanged buffer exactly if the message is accepted and the next read can be queued |
| Reassembly.ReadPicks | agent/src/agent_win.cc:297-338 | the handler gets something from the browser exactly when a message is complete, and then what that message brings on this connection |
| Reassembly.ReadRequests | agent/src/agent_win.cc:307-321 | an event is dispatched exactly for a completed request that has a token; it carries that request, this pipe and browser, and a response with that token |
| ReassemblyRuns.AcceptBegins | agent/src/agent_win.cc:92-103 | accepting a known browser makes one connected callback and starts a session with one 4096-byte read queued |
| ReassemblyRuns.RunRefines | agent/src/agent_win.cc:226-295 | in every run, for every mix of immediate, pending, partial and broken reads, the parser got exactly the first messages written, whole and once each, and the rest is still in the pipe, except a message of 2^31 bytes or more, which ended the session; the handler got what the delivered ones bring; the buffer is the least multiple of 4096 that held the longest, and its size never wraps as a `DWORD` |
| ReassemblyRuns.MessageBrings | agent/src/agent_win.cc:307-335 | a serialised request, acknowledgement or cancellation makes its one call; a request outranks the others, and its response claims success for its first tag |
| ReassemblyRuns.SessionSurvivesIff | agent/src/agent_win.cc:121-133 | however the next read is queued, a completed message keeps the session exactly if that read can be queued, the message is of less than 2^31 bytes, parses, and is a request with a token, an acknowledgement or a cancellation |
| ReassemblyRuns.HandlerSeesWhatWasWritten | agent/src/agent_win.cc:226-338 | the handler's calls are a prefix of those the browser's serialised messages ask for, in order, and all of them once the pipe is empty |
| ReassemblyRuns.MessageTakes | agent/src/agent_win.cc:226-292 | whether reads complete at once or pend, a message of length L into a buffer of size B takes exactly 1 + ceil(max(0, L - B) / 4096) completions, and if the session goes on leaves a buffer of max(B, L rounded up to 4096) with a read for the whole of it |
| ReassemblyRuns.OversizedMessageEndsTheSession | agent/src/agent_win.cc:299-303 | a message of 2^31 bytes or more never reaches the parser and always ends the session, so no buffer whose size wraps is ever read into as a whole |
| PoolRuns.ReactCoherent | agent/src/agent_win.cc:510-533 | a connection is erased exactly if it was connected and failed; a listener is added exactly if one was taken; callbacks and counts agree with that |
| PoolRuns.ReactIff | agent/src/agent_win.cc:510-531 | in any pool, the signalled connection is erased exactly if it was connected, failed and is one of more than two; one is added exactly if it was not connected before and is now |
| PoolRuns.PoolSize | agent/src/agent_win.cc:517-518 | the pool holds two connections more than are connected, so a connected one always meets the "more than two" test |
| PoolRuns.ApplyCounts | agent/src/agent_win.cc:513-531 | exactly two unconnected connections before mean exactly two after, and session balance follows the connected ones |
| PoolRuns.ApplyKeepsSessions | agent/src/agent_win.cc:510-533 | every connection's callbacks stay whole sessions, open exactly while it is connected, and with its own browser |
| PoolRuns.ApplyKeepsPipesApart | agent/src/agent_win.cc:517-531 | no two connections share a pipe, and a pipe on which a request came never accepts another browser |
| AgentRuns.CreateEstablishes | agent/src/agent_win.cc:371-411 | a constructed agent satisfies every pool invariant with two connections and has told the handler nothing; a failed construction leaves none and refuses to handle events |
| AgentRuns.StepKeepsInv | agent/src/agent_win.cc:483-534 | every step keeps the pool invariants under arbitrary results, including failed resets and failed new pipes |
| AgentRuns.HandlesMatchConnections | agent/src/agent_win.cc:448-466 | when the wait proceeds, there is one handle per connection, handle i belongs to connection i, and the one after them is the stop event |
| AgentRuns.StepFailsIff | agent/src/agent_win.cc:483-534 | a step fails exactly on a missing event object or a failed wait, and stops exactly on the stop event; what a browser sent and how reading it went do not matter |
| AgentRuns.StepCodes | agent/src/agent_win.cc:490-507 | a step that signals no connection changes none: a missing event object returns and reports that the agent is not initialised, a failed wait returns and reports the wait's error, the stop event reports nothing |
| AgentRuns.StepTells | agent/src/agent_win.cc:510-531 | a step on a connection tells the handler what its event does, in order, and then only what its reset does |
| AgentRuns.TooManyBrowsersEndTheLoop | agent/src/agent_win.cc:494-500 | the wait is on 3 handles more than browsers are connected, so with 62 connected it fails and HandleEvents returns an error |
| AgentRuns.LoopReturnsOnly | agent/src/agent_win.cc:417-426 | HandleEvents keeps the invariants and returns OK only on stop, and an error only for a missing event object or a failed wait |
| AgentRuns.LoopReturnsIff | agent/src/agent_win.cc:417-426 | HandleEvents returns exactly at a step that finds a missing event object, a failed wait or the stop event, with that step's code, and until then goes on with every step |
| AgentRuns.ConnectedFailureErases | agent/src/agent_win.cc:513-523 | a connected connection that fails is erased and never reset; one that does not fail keeps its place and pipe |
| ListenerRuns.ListeningEvent | agent/src/agent_win.cc:87-133 | an unconnected connection accepts a browser exactly if the connect succeeded, the look-up found the process and the first read could be queued; otherwise it fails with its event still set |
| ListenerRuns.RefusedListensIff | agent/src/agent_win.cc:510-523 | one that accepts nobody listens afterwards exactly if its reset goes well, whether it had a pipe or not, and is lost exactly if the connect failed after ResetEvent |
| ListenerRuns.ListenersSurviveIff | agent/src/agent_win.cc:510-531 | both unconnected connections still listen after a step exactly if the answers to its reset or creation, when there is one, are all good |
| ListenerRuns.CountIsNotAvailability | agent/src/agent_win.cc:185-198 | a failed DisconnectNamedPipe leaves a connection that counts as a listener and has no pipe, with its event still set |
| ListenerRuns.LostListenerComesBack | agent/src/agent_win.cc:177-193 | signalled again, such a connection listens on a new pipe once the reset goes well |
| ListenerRuns.ListenersStayFirstIff | agent/src/agent_win.h:184-187 | from a pool whose first two connections are the listeners a step keeps that exactly if it accepts no browser; from no pool does an accept leave it |
| ListenerRuns.AcceptShape | agent/src/agent_win.cc:525-531 | an accepting connection keeps its place and the new listener comes last |
| ListenerRuns.ReactReachable | agent/src/agent_win.cc:510-531 | a reaction replaces a listener that listens or has its event set by one such listener, except exactly when the answers strand it |
| ListenerRuns.ReachableListenersOnlyStrand | agent/src/agent_win.cc:483-534 | over every run the listeners still to be heard of are those there were less those stranded, and without any no browser is ever accepted |
| ListenerRuns.TwoLossesEndService | agent/src/agent_win.cc:371-534 | a constructed agent strands at most two listeners, and once it has stranded two it accepts no browser in any continuation |
| ListenerRuns.AtMostTwoListeners | agent/src/agent_win.cc:401-410 | a constructed agent has exactly two usable listeners and no run, whatever the answers, ever has more |
| AgentRuns.StepKeepsOneReadEach | agent/src/agent_win.cc:510-531 | one step keeps every connection either with exactly one read queued or clear |
| AgentRuns.OneReadInEveryRun | agent/src/agent_win.cc:371-534 | from construction on, in every run, also those in which a lost listener is signalled again, every connection has exactly one read queued inside its buffer or is clear |
| AgentRuns.ShutdownCloses | agent/src/agent_win.cc:536-543 | destroying the connections ends every open session once |
| AgentRuns.ShutdownBalances | agent/src/agent_win.cc:536-543 | after shutdown connected callbacks plus failed lookups equal disconnected callbacks, in all and for each connection |
| AgentRuns.PhaseMeaning | agent/src/agent_win.cc:97-128 | the session state says which accepted browser is still there, or that the last call reported a failed lookup |
| AgentRuns.SessionOrder | agent/src/agent_win.cc:97-338 | every message callback lies in an open session, every request with that session's browser; every disconnected callback ends a session and names its browser, or follows a failed lookup; sessions do not nest |
| AgentRuns.AgentLifetime | agent/src/agent_win.cc:371-543 | over a whole life, callbacks are whole sessions, they balance, and no pipe that carried a request serves another browser |
| ErrorReports.CodesTellErrorsApart | agent/src/agent_utils_win.cc:14-25 | different errors have different codes unless both are unexpected, and only SUCCESS has the code OK |
| ErrorReports.ResetCodes | agent/src/agent_win.cc:147-201 | a reset returns OK exactly if its answers are all good, and otherwise the code of its first failing call |
| ErrorReports.ResetReports | agent/src/agent_win.cc:75-80 | a reset that works reports nothing and keeps the connection's pipe, or takes a new one if it has none; one that fails is reported with its code and leaves no pipe; after ResetEvent the event is set exactly for a browser already there or a connect done at once |
| ErrorReports.CreationCodes | agent/src/agent_win.cc:39-60 | the code of a new connection by the first call that fails: a pipe of that name already there is another agent, a name the system refuses is an invalid channel |
| ErrorReports.CreateOkIff | agent/src/agent_win.cc:371-411 | the agent is constructed exactly if it is given a handler, gets a stop event and a pipe name, and both listeners can be created; otherwise the code is that of the first of these that fails |
| ErrorReports.EventReports | agent/src/agent_win.cc:82-136 | for every answer of the system exactly which errors the handler is told of in an event, each once with its context and code: a failed connect or read, each failed look-up, a malformed message, a missing token, a message of no kind, a read that cannot be queued unless the browser has only gone; and the event's code |
| AgentObjects.ReactionSteps | agent/src/agent_win.cc:510-533 | the code's sequence of branches gives the pool the specification describes |
| AgentObjects.AgentWin.Add | agent/src/agent_win.cc:527-531 | appends one new connection and changes no other |
| AgentObjects.AgentWin.EraseAt | agent/src/agent_win.cc:519-519 | erasing destroys that connection, ends its session, and keeps the order of the others |
| AgentObjects.AgentWin.ReplaceListener | agent/src/agent_win.cc:525-531 | a listener is added exactly for one just taken |
| AgentObjects.AgentWin.Recover | agent/src/agent_win.cc:513-523 | a failed connection is erased or reset as the specification says |
| AgentObjects.AgentWin.Start | agent/src/agent_win.cc:371-411 | the constructor's pool and code are those specified, also when it gives up half way |
| AgentObjects.AgentWin.GetHandles | agent/src/agent_win.cc:448-466 | one handle per connection in order and then the stop event, or the stop event alone |
| AgentObjects.AgentWin.HandleOneEvent | agent/src/agent_win.cc:483-534 | one step on the objects is one step of the specification, with its code and stop flag |
| AgentObjects.AgentWin.Dispatch | agent/src/agent_win.cc:510-533 | the signalled connection's reaction on the objects is the specified one |
| AgentObjects.AgentWin.HandleEvents | agent/src/agent_win.cc:417-426 | the loop on the objects is the specified loop for every finite stretch of events |
| AgentObjects.AgentWin.Shutdown | agent/src/agent_win.cc:536-543 | all connections are destroyed in order and none is left |
| ResponseEdits.UpdateResponse | agent/src/event_base.cc:18-34 | writes tag and status into the first result, which it adds if missing; an empty tag and an unknown status write nothing |
| ResponseEdits.SetEventVerdictTo | agent/src/event_base.cc:36-57 | sets the action of the only rule of the first result, and refuses, changing nothing, when there is no result |
| ResponseEdits.EditsKeepOneResult | agent/src/event_base.cc:18-57 | after any edits of an initialised response there is one result with at most one rule, and each field holds the last value written to it |
| ResponseEdits.EditWritesOneField | agent/src/event_base.cc:18-57 | on any response an edit writes what it names into the first result and leaves the token, the other results, the other fields and the other rules alone |
| AnalysisEvents.WriteMessageToPipe | agent/src/event_win.cc:22-57 | what is written is a prefix of the message, and all of it exactly when the code is SUCCESS or IO_PENDING and the length fits a `DWORD` |
| AnalysisEvents.WrittenIsPrefix | agent/src/event_win.cc:22-57 | the same of the specified loop, for every behaviour of the pipe |
| AnalysisEvents.LoopCode | agent/src/event_win.cc:32-56 | the code follows from the calls and the size alone: SUCCESS exactly if pending writes fall short and the next completes at once, IO_PENDING exactly if pending writes cover the message |
| AnalysisEvents.LoopFailure | agent/src/event_win.cc:32-56 | the code is an error exactly if pending writes fall short and the next write, or the wait for it, fails with that error |
| AnalysisEvents.WholeWriteIsOneMessage | agent/src/event_win.cc:22-57 | on a message-mode pipe a response is written as one message or not at all, and as one exactly on SUCCESS or IO_PENDING |
| AnalysisEvents.ShortWriteSplitsTheMessage | agent/src/event_win.cc:34-54 | a pending write that stopped short would split the response into two messages |
| AnalysisEvents.PendingWriteIsNotReportedAsSuccess | agent/src/event_win.cc:19-56 | one asynchronous write of a whole message is reported as an error |
| AnalysisEvents.OneResponsePerEvent | agent/src/event_win.cc:69-129 | an event on a valid pipe enters the write routine once over any uses and its destruction, with the response as it stood at the first Send, Close or destruction |
| AnalysisEvents.AttemptsOverALife | agent/src/event_win.cc:69-129 | over any uses and destruction the write routine is entered at most once, and not at all exactly if the pipe was never valid and Send never called; it gets the pipe of construction and the response as it stood at the first answer |
| AnalysisEvents.SendRefusedIffAnswered | agent/src/event_win.cc:87-102 | on any pipe Send is refused exactly if a Send came before, or a Close of a valid pipe |
| AnalysisEvents.SendCodeIff | agent/src/event_win.cc:92-102 | a first Send returns OK exactly if there is nothing to write or a write that finishes at once ends it, "pending" exactly if pending writes cover the message, and otherwise the code of the first failing call, a broken pipe's exactly for a broken pipe |
| AnalysisEvents.RejectedEventWritesNothing | agent/src/event_win.cc:22-25 | dropping an event without a token writes nothing to the browser |
| AnalysisEvents.ContentAnalysisEventWin.Init | agent/src/event_win.cc:73-85 | a missing token is refused with nothing changed; otherwise the response names the request and claims success |
| AnalysisEvents.ContentAnalysisEventWin.Send | agent/src/event_win.cc:92-102 | marks the response sent before writing it, whatever the write's outcome, and returns the specified code |
| AnalysisEvents.ContentAnalysisEventWin.Close | agent/src/event_win.cc:87-90 | answers if unanswered and lets go of the pipe |
| AnalysisEvents.ContentAnalysisEventWin.Shutdown | agent/src/event_win.cc:116-129 | the same at destruction; on an invalid pipe it does nothing |
| BrowserClient.ReadNextMessageFromPipe | browser/src/client_win.cc:153-214 | terminates, and returns and consumes what the specified loop does, sized by its 32-bit count: a count that is negative as an `int` throws |
| BrowserClient.SizedIff | browser/src/client_win.cc:159-213 | a message that one write can send comes through whole exactly if it is of less than 2^31 bytes, and throws otherwise |
| BrowserClient.LoopReads | browser/src/client_win.cc:160-210 | from any point of a message the loop reads its rest, in as many reads as its length needs |
| BrowserClient.ReadsExactlyOneMessage | browser/src/client_win.cc:153-214 | the client returns exactly the next message, or nothing exactly when one of the reads it needs fails |
| BrowserClient.BothReadersAgree | browser/src/client_win.cc:153-214 | agent and client make the same bytes of the same message and leave the same pipe, however the reads of either complete |
| BrowserClient.SendReturnsIff | browser/src/client_win.cc:284-308 | Send returns 0 with a response exactly if its request could be written, all the reads the next message needs succeed, and that message is not empty, of less than 2^31 bytes and parses to that response; it throws exactly for a longer one |
| BrowserClient.SendReturnsTheAnswer | browser/src/client_win.cc:297-305 | what the agent serialised into the next message is what Send returns |
| BrowserClient.ClientPipe.WriteFile | browser/src/client_win.cc:228-235 | a write completes at once, is refused with an error, or is left pending |
| BrowserClient.ClientPipe.FinishWrite | browser/src/client_win.cc:236-239 | waiting for a pending write succeeds, or fails with the message delivered or not |
| BrowserClient.ClientWin.WriteMessageToPipe | browser/src/client_win.cc:218-243 | an empty message is refused; any other is written whole or not at all, at once or after waiting, and reported as written exactly when that succeeded |
| BrowserClient.ClientWin.Send | browser/src/client_win.cc:284-308 | one request message out, then one message in; the outcome is the specified one, and the pipe is left as the reading loop leaves it |
| BrowserClient.ClientWin.Acknowledge | browser/src/client_win.cc:310-324 | one acknowledgement message out and nothing read; 0 exactly if it could be written |
| BrowserClient.ClientWin.CancelRequests | browser/src/client_win.cc:326-340 | one cancellation message out and nothing read; 0 exactly if it could be written |
| RequestQueues.PopTakesTheOldest | demo/request_queue.h:35-51 | whatever wakes it, pop returns the oldest event, or nothing exactly if aborted, and waits exactly while there is neither |
| RequestQueues.RequestQueue.Push | demo/request_queue.h:26-33 | appends at the end |
| RequestQueues.RequestQueue.Abort | demo/request_queue.h:54-61 | sets the flag and keeps the events |
| RequestQueues.RequestQueue.Pop | demo/request_queue.h:38-51 | the loop around the condition variable is the specified pop, whatever others do to the queue during each wait |
| QueueMonitor.CriticalSectionsAreOperations | demo/request_queue.h:26-61 | the threads' critical sections are the queue's operations |
| QueueMonitor.StepExcludes | demo/request_queue.h:27-55 | at most one thread is inside a critical section, and it is the owner of the mutex |
| QueueMonitor.StepTakesSafely | demo/request_queue.h:41-48 | a thread about to take an event finds one |
| QueueMonitor.StepLosesNoWakeup | demo/request_queue.h:26-61 | every step keeps: while a thread sleeps, the queued events are at most the notified threads plus the one the owner is about to serve, and no abort is unannounced |
| QueueMonitor.RunLosesNoWakeup | demo/request_queue.h:26-61 | in every interleaving of pushers, poppers, spurious wakeups and aborts, workers do not all sleep while work is queued, none sleeps after abort, and events leave in push order |
| QueueMonitor.SpuriousWakeupIsHarmless | demo/request_queue.h:41-43 | a worker that wakes for nothing while nothing is queued goes back to sleep, and all is as before |
| QueueMonitor.AbortWakesAll | demo/request_queue.h:54-61 | an abort can come whenever the mutex is free; alone it sets the flag, wakes every sleeping worker, and changes nothing else |
| QueueMonitor.LiveStep | demo/handler.h:405-436 | only a push adds an unanswered event and only an answer removes one |
| QueueMonitor.RunConserves | demo/handler.h:398-436 | in every run every event offered is unanswered or answered, and every answered one still held or destroyed |
| QueueMonitor.EveryEventAnsweredOnce | demo/handler.h:398-452 | at rest with an empty queue, the events offered, answered and destroyed are the same multiset |
| QueueMonitor.WorkersStayUntilAbort | demo/handler.h:405-424 | in every run every worker stays one and goes back to the queue after each event; one leaves only an aborted queue |
| QueueMonitor.QuietQueueHasAnsweredAll | demo/handler.h:405-436 | in every run with a worker and without an abort, once nothing more happens by itself the queue is empty and the offered, answered and destroyed events are the same multiset |
| QueueMonitor.EveryEventIsAnsweredInTheEnd | demo/handler.h:398-452 | every run with an abort that cannot go on has all threads at rest, an empty queue, and each offered event answered and destroyed once |
| QueueMonitor.AbortedStepDescends | demo/handler.h:398-402 | after abort every step lowers the statements left to the threads plus the events left in the queue, and takes no event |
| QueueMonitor.AbortedNeverDeadlocks | demo/handler.h:448-452 | after abort some thread can move until all are at rest |
| QueueMonitor.ShutdownTerminates | demo/handler.h:398-452 | after abort no schedule is longer than nine steps a thread and one for each queued event, no pop returns another event, and a schedule that cannot go on has every worker exited and the queue empty |
| DemoHandler.AnalyzeContent | demo/handler.h:37-109 | edits the response for what was found and sends it, with the code of that Send; an event already sent is refused |
| DemoHandler.ResponseCarriesTheFinding | demo/handler.h:37-109 | the one response written is exactly this: the request's token and first tag, failure for an unreadable file and success otherwise, and the block rule exactly if the content holds the keyword |
| DemoHandler.TerminatorIsHarmless | demo/handler.h:362-367 | the null after a file's content neither makes nor hides a keyword |
| RoundTrip.AgentReadMoves | agent/src/agent_win.cc:297-338 | the end of a request turns it into one event of the same session and token; nothing else makes an event |
| RoundTrip.ResponseKeeps | agent/src/event_win.cc:92-102 | what the write routine puts into the pipe for a response takes its event's place in the session, or nothing does |
| RoundTrip.ClientReadKeeps | browser/src/client_win.cc:297-305 | a response read by the client belongs to the Send that waits |
| RoundTrip.ClientReadIsALoopTurn | browser/src/client_win.cc:160-210 | a client's step in the joint model is one turn of the client's reading loop and ends the Send as that loop does |
| RoundTrip.SendsAgree | browser/src/client_win.cc:284-308 | a Send of the joint model completes with a response exactly if the client object's Send, over the same pipe and in the same modes, returns 0 with it, and leaves the same pipe |
| RoundTrip.JoinKeepsInv | agent/src/agent_win.cc:92-103 | a browser accepted at any time starts with nothing under way, and alone on its handle unless an unanswered event names it |
| RoundTrip.StepKeepsInv | browser/src/client_win.cc:284-308 | every step of browsers, agent, queue and workers keeps, per session, at most one of request, live event and unread response, and every event bound for its own session's handle |
| RoundTrip.EachSendGetsItsOwnResponse | browser/src/client_win.cc:284-308 | in every run, as long as no Send of a session has failed and the session did not begin on the handle of an unanswered event, every Send of it that returned 0 holds the response with its own request's token |
| RoundTrip.OneCarrierPerSend | browser/src/client_win.cc:284-308 | on such a session nothing is under way unless a Send waits, and then at most one of request, live event and unread response, exactly one unless the agent failed at something |
| RoundTrip.PostReachesTheHandler | browser/src/client_win.cc:310-340 | an acknowledgement or cancellation written to an idle session reaches the handler as it is with the agent's next read |
| RoundTrip.ResponseGoesAstrayIff | agent/src/event_win.cc:97-100 | a response reaches another session than its event's own exactly if its own is closed and the other is open on the same handle value, and then the other began while the event was unanswered |
| RoundTrip.BrokenSessionGetsNoResponse | agent/src/agent_win.cc:126-133 | once the agent has given up a session, answering its event writes nothing to it |
| RoundTrip.AbandonedResponseAnswersTheNextSend | browser/src/client_win.cc:297-305 | in every continuation from a session with a whole response left unread, in which no Send fails in the middle of it, the next Send that returns 0 holds that response, which is its own exactly if the tokens agree |
| RoundTrip.FailureLeavesTheResponse | browser/src/client_win.cc:186-193 | a Send that fails leaves the whole response unread exactly if it had read none of it |
| RoundTrip.FailureMidwayLeavesTheRest | browser/src/client_win.cc:186-193 | one that fails in the middle leaves the rest, and the next Send reads exactly that |
| AbandonedSends.AbandonedSendMisleadsTheNext | browser/src/client_win.cc:284-308 | a run from the start: a browser asks, gives up before it reads the answer, and its second Send returns 0 with the first request's response |
| GroupAcks.GetActionFromResult | demo/client.cc:200-210 | the severest action of the result's rules, or unspecified if none has one |
| GroupAcks.GetActionFromResponse | demo/client.cc:212-223 | the severest action of all results' rules |
| GroupAcks.MostSevereUnique | demo/client.cc:200-223 | two responses with the same rules, in any order and spread over any results, have the same severest action |
| GroupAcks.DemoClient.HandleReply | demo/client.cc:285-329 | a reply without results changes nothing; grouping keeps the token and the severer action; without grouping the reply is acknowledged at once |
| GroupAcks.DemoClient.RunGroup | demo/client.cc:359-410 | in whatever order the threads finish, the action is the image of the severest triggered in any successful reply, ALLOW if there is none, and each successful request is acknowledged once with it |
| GroupAcks.DemoClient.SendGroupAcks | demo/client.cc:402-409 | one acknowledgement per remembered token, all with the final action |
| GroupAcks.AcksCount | demo/client.cc:402-409 | as a collection the acknowledgements hold each token as often as it was remembered, always with the final action |
| GroupAcks.OrderDoesNotMatter | demo/client.cc:285-410 | two orders of the same replies give the same action and the same multiset of acknowledgements |

## Left out

- Pipe names, security descriptors, process paths and the "first pipe" flag: they are only handed to the operating system.
- `ConnectToPipe`, `WaitForPipeAvailability` and the client's constructor and shutdown: calls into the NT API with little logic of their own.
- The wire format of the messages, and message fields that no modelled code reads.
- Cancellation of a read by a connection's destructor: it depends on when the operating system completes it. The event handle it closes is never waited on again.
- Two `Send` calls at once on one client pipe, and unique tokens under `--threaded`: the source neither matches tokens nor locks its counter.
- The Mac and Posix agent, client and event: stubs without behaviour.
- Scoped print handles, debug strings, dumps, command-line parsing, delays and console output.
- Whether Stop is noticed under constant traffic: the order in which the operating system reports signalled handles decides it.
- `FlushFileBuffers` at an event's shutdown, and the creation of the threads: no state of the model depends on them.
- How a file is read and its size limit: `DemoHandler.AnalyzeContent` is given the content, or nothing when it could not be read.
- RoundTrip.EachSendGetsItsOwnResponse: models the queueing handler only; the pool and the object classes are joined to it through the connection's specification.
- RoundTrip.AbandonedResponseAnswersTheNextSend: says nothing of continuations in which a Send fails in the middle of the response left behind; what that leaves is RoundTrip.FailureMidwayLeavesTheRest.
- GroupAcks.DemoClient.HandleReply: `acks` are the acknowledgements attempted; whether each call succeeded changes nothing else.
