/** The queue's operations as one thread runs them; other threads act while it waits
    (demo/request_queue.h). */
module RequestQueues {
  import opened Common
  import opened ConnectionSpec

  type Event = AnalysisEvent

  datatype Queue = Queue(events: seq<Event>, abort: bool)

  /** One critical section of another thread. */
  datatype QueueOp = OtherPush(event: Event) | OtherPop | OtherAbort

  function AfterOp(q: Queue, op: QueueOp): Queue {
    match op
    case OtherPush(e) => q.(events := q.events + [e])
    case OtherPop => if q.abort || q.events == [] then q else q.(events := q.events[1..])
    case OtherAbort => q.(abort := true)
  }

  function AfterOps(q: Queue, ops: seq<QueueOp>): Queue
    decreases ops
  {
    if ops == [] then q else AfterOps(AfterOp(q, ops[0]), ops[1..])
  }

  predicate MustWait(q: Queue) {
    !q.abort && q.events == []
  }

  datatype PopResult = StillWaiting | Popped(event: Option<Event>)

  /** `pop`, where the `i`-th wait returns after `waits[i]`, for any reason at all. */
  function PopFrom(q: Queue, waits: seq<seq<QueueOp>>): (Queue, PopResult)
    decreases waits
  {
    if MustWait(q) then
      if waits == [] then (q, StillWaiting) else PopFrom(AfterOps(q, waits[0]), waits[1..])
    else if q.abort then (q, Popped(None))
    else (q.(events := q.events[1..]), Popped(Some(q.events[0])))
  }

  /** The queue just before the pop's last critical section ends, computed without the pop. */
  function SeenBy(q: Queue, waits: seq<seq<QueueOp>>): Queue
    decreases waits
  {
    if waits == [] || !MustWait(q) then q else SeenBy(AfterOps(q, waits[0]), waits[1..])
  }

  /** Whatever wakes it, a pop returns the oldest event there is, or nothing exactly when aborted, and
      waits exactly while there is neither. */
  lemma {:induction false} PopTakesTheOldest(q: Queue, waits: seq<seq<QueueOp>>)
    ensures var seen := SeenBy(q, waits);
            var (after, r) := PopFrom(q, waits);
            && (r == Popped(None) <==> seen.abort)
            && (r == StillWaiting <==> !seen.abort && seen.events == [])
            && (r.Popped? && r.event.Some? ==> seen.events == [r.event.value] + after.events)
            && (r.Popped? && r.event.None? ==> after == seen)
    decreases waits
  {
    if MustWait(q) && waits != [] {
      PopTakesTheOldest(AfterOps(q, waits[0]), waits[1..]);
    }
  }

  class RequestQueue {
    var events: seq<Event>
    var abort: bool

    function State(): Queue
      reads this
    {
      Queue(events, abort)
    }

    constructor ()
      ensures State() == Queue([], false)
    {
      events, abort := [], false;
    }

    method Push(event: Event)
      modifies this
      ensures State() == AfterOp(old(State()), OtherPush(event))
    {
      events := events + [event];
    }

    method Abort()
      modifies this
      ensures State() == AfterOp(old(State()), OtherAbort)
    {
      abort := true;
    }

    /** The mutex is released while waiting, so the queue then changes under other threads' hands. */
    method Wait(others: seq<QueueOp>)
      modifies this
      ensures State() == AfterOps(old(State()), others)
    {
      var q := State();
      var i := 0;
      assert others[0..] == others;
      while i < |others|
        invariant i <= |others|
        invariant AfterOps(q, others[i..]) == AfterOps(old(State()), others)
      {
        assert others[i..][0] == others[i] && others[i..][1..] == others[i + 1..];
        q := AfterOp(q, others[i]);
        i := i + 1;
      }
      events, abort := q.events, q.abort;
    }

    method Pop(waits: seq<seq<QueueOp>>) returns (r: PopResult)
      modifies this
      ensures (State(), r) == PopFrom(old(State()), waits)
    {
      var i := 0;
      assert waits[0..] == waits;
      while !abort && |events| == 0
        invariant i <= |waits|
        invariant PopFrom(State(), waits[i..]) == PopFrom(old(State()), waits)
        decreases |waits| - i
      {
        if i == |waits| {
          return StillWaiting;
        }
        assert waits[i..][0] == waits[i] && waits[i..][1..] == waits[i + 1..];
        Wait(waits[i]);
        i := i + 1;
      }
      var event: Option<Event> := None;
      if !abort {
        event := Some(events[0]);
        events := events[1..];
      }
      r := Popped(event);
    }
  }
}
