/** The queue under any number of threads: producers, an aborter, and the demo's workers, each advancing one
    statement at a time (demo/request_queue.h, demo/handler.h). */
module QueueMonitor {
  import opened Common
  import opened ConnectionSpec
  import opened RequestQueues

  /** Where a thread is. The first group are threads that push or abort, the second the workers. */
  datatype Pc =
    | Outside
    | PushLock(event: Event) | PushAppend(event: Event) | PushNotify | PushUnlock
    | AbortLock | AbortSet | AbortNotify | AbortUnlock
    | Idle
    | PopLock | PopTest | Asleep | Woken | PopTake | PopUnlock(got: Option<Event>)
    | Analyzing(event: Event) | Answered(event: Event) | Exited

  /** `offered` are the events given to push, `pushed` and `popped` those appended and removed, in order;
      `answered` and `destroyed` those whose response was written and which were destroyed; `dropped` those
      destroyed with the queue. */
  datatype Monitor = Monitor(
    events: seq<Event>, abort: bool, owner: Option<nat>, pcs: seq<Pc>,
    offered: seq<Event>, pushed: seq<Event>, popped: seq<Event>, dropped: seq<Event>,
    answered: seq<Event>, destroyed: seq<Event>)

  datatype Act =
    | BeginPush(t: nat, event: Event)
    | BeginAbort(t: nat)
    | BeginPop(t: nat)
    | Advance(t: nat)
    | NotifyOne(t: nat, woken: Option<nat>)
    | Spurious(t: nat)
    | Answer(t: nat)
    | Destroy(t: nat)
    | Drop

  predicate WantsLock(pc: Pc) {
    pc.PushLock? || pc.AbortLock? || pc.PopLock? || pc.Woken?
  }

  predicate HoldsLock(pc: Pc) {
    || pc.PushAppend? || pc.PushNotify? || pc.PushUnlock? || pc.AbortSet? || pc.AbortNotify? || pc.AbortUnlock?
    || pc.PopTest? || pc.PopTake? || pc.PopUnlock?
  }

  predicate AtRest(pc: Pc) {
    pc.Outside? || pc.Exited?
  }

  predicate SomeAsleep(pcs: seq<Pc>) {
    exists t :: 0 <= t < |pcs| && pcs[t].Asleep?
  }

  predicate AllAtRest(pcs: seq<Pc>) {
    forall t :: 0 <= t < |pcs| ==> AtRest(pcs[t])
  }

  predicate Enabled(m: Monitor, a: Act) {
    match a
    case BeginPush(t, _) => t < |m.pcs| && m.pcs[t].Outside?
    case BeginAbort(t) => t < |m.pcs| && m.pcs[t].Outside?
    case BeginPop(t) => t < |m.pcs| && m.pcs[t].Idle?
    case Advance(t) =>
      && t < |m.pcs|
      && ((WantsLock(m.pcs[t]) && m.owner.None?)
          || (HoldsLock(m.pcs[t]) && m.owner == Some(t) && !m.pcs[t].PushNotify?))
    case NotifyOne(t, woken) =>
      && t < |m.pcs| && m.pcs[t].PushNotify? && m.owner == Some(t)
      && (if woken.Some? then woken.value < |m.pcs| && m.pcs[woken.value].Asleep? else !SomeAsleep(m.pcs))
    case Spurious(t) => t < |m.pcs| && m.pcs[t].Asleep?
    case Answer(t) => t < |m.pcs| && m.pcs[t].Analyzing?
    case Destroy(t) => t < |m.pcs| && m.pcs[t].Answered?
    case Drop => AllAtRest(m.pcs) && m.abort && m.events != []
  }

  function Move(m: Monitor, t: nat, pc: Pc): (n: Monitor)
    requires t < |m.pcs|
    ensures |n.pcs| == |m.pcs|
  {
    m.(pcs := m.pcs[t := pc])
  }

  function Take(m: Monitor, t: nat): (n: Monitor)
    requires t < |m.pcs|
    ensures |n.pcs| == |m.pcs|
  {
    match m.pcs[t]
    case PushLock(e) => Move(m, t, PushAppend(e)).(owner := Some(t))
    case AbortLock => Move(m, t, AbortSet).(owner := Some(t))
    case _ => Move(m, t, PopTest).(owner := Some(t))
  }

  function WakeAll(pcs: seq<Pc>): (r: seq<Pc>)
    ensures |r| == |pcs|
    ensures forall t :: 0 <= t < |pcs| ==> r[t] == if pcs[t].Asleep? then Woken else pcs[t]
  {
    seq(|pcs|, t requires 0 <= t < |pcs| => if pcs[t].Asleep? then Woken else pcs[t])
  }

  /** One statement of a thread inside its critical section. */
  function Work(m: Monitor, t: nat): (n: Monitor)
    requires t < |m.pcs|
    ensures |n.pcs| == |m.pcs|
  {
    match m.pcs[t]
    case PushAppend(e) => Move(m, t, PushNotify).(events := m.events + [e], pushed := m.pushed + [e])
    case PushUnlock => Move(m, t, Outside).(owner := None)
    case AbortSet => Move(m, t, AbortNotify).(abort := true)
    case AbortNotify => m.(pcs := WakeAll(m.pcs)[t := AbortUnlock])
    case AbortUnlock => Move(m, t, Outside).(owner := None)
    case PopTest =>
      if MustWait(Queue(m.events, m.abort)) then Move(m, t, Asleep).(owner := None)
      else if m.abort then Move(m, t, PopUnlock(None))
      else Move(m, t, PopTake)
    case PopTake =>
      if m.events == [] then m
      else Move(m, t, PopUnlock(Some(m.events[0]))).(events := m.events[1..], popped := m.popped + [m.events[0]])
    case PopUnlock(got) =>
      Move(m, t, if got.Some? then Analyzing(got.value) else Exited).(owner := None)
    case _ => m
  }

  function Step(m: Monitor, a: Act): (n: Monitor)
    requires Enabled(m, a)
    ensures |n.pcs| == |m.pcs|
  {
    match a
    case BeginPush(t, e) => Move(m, t, PushLock(e)).(offered := m.offered + [e])
    case BeginAbort(t) => Move(m, t, AbortLock)
    case BeginPop(t) => Move(m, t, PopLock)
    case Advance(t) => if WantsLock(m.pcs[t]) then Take(m, t) else Work(m, t)
    case NotifyOne(t, woken) =>
      Move(if woken.Some? then Move(m, woken.value, Woken) else m, t, PushUnlock)
    case Spurious(t) => Move(m, t, Woken)
    case Answer(t) => Move(m, t, Answered(m.pcs[t].event)).(answered := m.answered + [m.pcs[t].event])
    case Destroy(t) => Move(m, t, Idle).(destroyed := m.destroyed + [m.pcs[t].event])
    case Drop =>
      var e := m.events[0];
      m.(events := m.events[1..], dropped := m.dropped + [e], answered := m.answered + [e], destroyed := m.destroyed + [e])
  }

  ghost predicate IsRun(m: Monitor, acts: seq<Act>)
    decreases |acts|
  {
    acts == [] || (Enabled(m, acts[0]) && IsRun(Step(m, acts[0]), acts[1..]))
  }

  ghost function After(m: Monitor, acts: seq<Act>): Monitor
    requires IsRun(m, acts)
    decreases |acts|
  {
    if acts == [] then m else After(Step(m, acts[0]), acts[1..])
  }

  predicate Initial(m: Monitor) {
    && m.events == [] && !m.abort && m.owner.None?
    && m.offered == [] && m.pushed == [] && m.popped == [] && m.dropped == [] && m.answered == [] && m.destroyed == []
    && (forall t :: 0 <= t < |m.pcs| ==> m.pcs[t].Outside? || m.pcs[t].Idle?)
  }

  // ---- The monitor against the queue's own operations ----

  function QueueOf(m: Monitor): Queue {
    Queue(m.events, m.abort)
  }

  /** A thread's critical sections are the queue's operations: a push appends, an abort sets the flag, and
      a pop that has tested its condition goes on to wait, to give up or to take the oldest event exactly
      as the queue's pop does. */
  lemma CriticalSectionsAreOperations(m: Monitor, t: nat)
    requires t < |m.pcs|
    ensures m.pcs[t].PushAppend? ==> QueueOf(Work(m, t)) == AfterOp(QueueOf(m), OtherPush(m.pcs[t].event))
    ensures m.pcs[t].AbortSet? ==> QueueOf(Work(m, t)) == AfterOp(QueueOf(m), OtherAbort)
    ensures m.pcs[t].PopTest? ==>
              var tested := Work(m, t);
              var (after, r) := PopFrom(QueueOf(m), []);
              match r
              case StillWaiting => tested.pcs[t].Asleep? && tested.owner.None? && QueueOf(tested) == QueueOf(m)
              case Popped(None) => tested.pcs[t] == PopUnlock(None) && QueueOf(tested) == after
              case Popped(event) =>
                tested.pcs[t].PopTake? && Work(tested, t).pcs[t] == PopUnlock(event) && QueueOf(Work(tested, t)) == after
  {
  }

  // ---- Invariants ----

  predicate MutualExclusion(m: Monitor) {
    && (m.owner.Some? ==> m.owner.value < |m.pcs|)
    && (forall t :: 0 <= t < |m.pcs| ==> (HoldsLock(m.pcs[t]) <==> m.owner == Some(t)))
  }

  function IsWoken(pc: Pc): nat {
    if pc.Woken? then 1 else 0
  }

  /** The lock holder may be about to take an event, or about to wake a thread for the one it added. */
  function Pending(m: Monitor): nat {
    if m.owner.Some? && m.owner.value < |m.pcs|
       && (m.pcs[m.owner.value].PushNotify? || m.pcs[m.owner.value].PopTest? || m.pcs[m.owner.value].PopTake?)
    then 1 else 0
  }

  predicate NoLostWakeup(m: Monitor) {
    SomeAsleep(m.pcs) ==>
      && |m.events| <= Tally(m.pcs, IsWoken) + Pending(m)
      && (m.abort ==> m.owner.Some? && m.owner.value < |m.pcs| && m.pcs[m.owner.value].AbortNotify?)
  }

  predicate Fifo(m: Monitor) {
    m.pushed == m.popped + m.dropped + m.events && (m.dropped != [] ==> m.abort)
  }

  /** A thread about to call `front` finds an event. */
  predicate TakeIsSafe(m: Monitor) {
    forall t :: 0 <= t < |m.pcs| && m.pcs[t].PopTake? ==> m.events != [] && !m.abort
  }

  predicate Inv(m: Monitor) {
    MutualExclusion(m) && NoLostWakeup(m) && Fifo(m) && TakeIsSafe(m)
  }

  lemma TakeExcludes(m: Monitor, t: nat)
    requires MutualExclusion(m) && t < |m.pcs| && WantsLock(m.pcs[t]) && m.owner.None?
    ensures MutualExclusion(Take(m, t))
  {
  }

  lemma WorkExcludes(m: Monitor, t: nat)
    requires MutualExclusion(m) && t < |m.pcs| && HoldsLock(m.pcs[t])
    ensures MutualExclusion(Work(m, t))
  {
    hide MustWait;
    assert m.owner == Some(t);
    if m.pcs[t].AbortNotify? {
    } else {
      var n := Work(m, t);
      assert n.pcs == m.pcs[t := n.pcs[t]];
      assert n.owner == if HoldsLock(n.pcs[t]) then Some(t) else None;
    }
  }

  lemma StepExcludes(m: Monitor, a: Act)
    requires MutualExclusion(m) && Enabled(m, a)
    ensures MutualExclusion(Step(m, a))
  {
    hide Take;
    hide Work;
    if a.Advance? {
      if WantsLock(m.pcs[a.t]) {
        TakeExcludes(m, a.t);
      } else {
        WorkExcludes(m, a.t);
      }
    }
  }

  /** Taking the lock changes the thread's place and the owner only. */
  lemma TakeOnlyMoves(m: Monitor, t: nat)
    requires t < |m.pcs| && WantsLock(m.pcs[t])
    ensures var n := Take(m, t);
            && n == m.(pcs := m.pcs[t := n.pcs[t]], owner := Some(t))
            && (if m.pcs[t].PushLock? then n.pcs[t] == PushAppend(m.pcs[t].event)
                else if m.pcs[t].AbortLock? then n.pcs[t] == AbortSet else n.pcs[t] == PopTest)
  {
  }

  /** How a step changes the queue: it appends, removes the oldest, or leaves the events alone. */
  predicate QueueMoves(m: Monitor, n: Monitor, appended: seq<Event>, removed: nat, dropping: bool)
    requires removed <= |m.events|
  {
    && n.events == m.events[removed..] + appended
    && n.pushed == m.pushed + appended
    && n.popped == (if dropping then m.popped else m.popped + m.events[..removed])
    && n.dropped == (if dropping then m.dropped + m.events[..removed] else m.dropped)
  }

  function Appended(m: Monitor, a: Act): seq<Event>
    requires Enabled(m, a)
  {
    if a.Advance? && m.pcs[a.t].PushAppend? then [m.pcs[a.t].event] else []
  }

  function Removed(m: Monitor, a: Act): nat
    requires Enabled(m, a)
  {
    if a.Drop? || (a.Advance? && m.pcs[a.t].PopTake? && m.events != []) then 1 else 0
  }

  lemma QueueWork(m: Monitor, t: nat)
    requires Enabled(m, Advance(t)) && HoldsLock(m.pcs[t])
    ensures var n := Work(m, t);
            && QueueMoves(m, n, Appended(m, Advance(t)), Removed(m, Advance(t)), false)
            && n.abort == (m.abort || m.pcs[t].AbortSet?)
  {
    hide MustWait;
  }

  /** What a step does to the queue itself. */
  lemma QueueStep(m: Monitor, a: Act)
    requires Enabled(m, a)
    ensures var n := Step(m, a);
            && (a.Drop? ==> m.events != [])
            && QueueMoves(m, n, Appended(m, a), Removed(m, a), a.Drop?)
            && n.abort == (m.abort || (a.Advance? && m.pcs[a.t].AbortSet?))
  {
    if a.Advance? {
      if WantsLock(m.pcs[a.t]) {
        TakeOnlyMoves(m, a.t);
      } else {
        QueueWork(m, a.t);
        hide QueueMoves;
      }
    }
    hide Take;
    hide Work;
  }

  lemma StepTakesSafely(m: Monitor, a: Act)
    requires MutualExclusion(m) && TakeIsSafe(m) && Enabled(m, a)
    ensures TakeIsSafe(Step(m, a))
  {
    QueueStep(m, a);
    var n := Step(m, a);
    if !a.Drop? {
      OneThreadMoves(m, a);
      NewTake(m, a);
      hide Step;
      forall t | 0 <= t < |n.pcs| && n.pcs[t].PopTake?
        ensures n.events != [] && !n.abort
      {
        if t != a.t {
          assert m.pcs[t].PopTake?;
        }
      }
    }
  }

  /** A thread reaches the taking of an event only from its test. */
  lemma NewTake(m: Monitor, a: Act)
    requires Enabled(m, a) && !a.Drop?
    ensures Step(m, a).pcs[a.t].PopTake? ==>
              a.Advance? && ((m.pcs[a.t].PopTest? && m.events != [] && !m.abort) || (m.pcs[a.t].PopTake? && m.events == []))
  {
  }

  lemma StepKeepsOrder(m: Monitor, a: Act)
    requires Fifo(m) && TakeIsSafe(m) && Enabled(m, a)
    ensures Fifo(Step(m, a))
  {
    QueueStep(m, a);
    RemovalIsSafe(m, a);
    hide Step;
    hide Enabled;
    hide TakeIsSafe;
    hide Removed;
    hide Appended;
    if a.Drop? {
      OrderKept(m.popped, m.dropped, m.events, Removed(m, a), [], true);
    } else {
      OrderKept(m.popped, m.dropped, m.events, Removed(m, a), Appended(m, a), false);
    }
  }

  lemma OrderKept(popped: seq<Event>, dropped: seq<Event>, events: seq<Event>, removed: nat, appended: seq<Event>,
                  dropping: bool)
    requires removed <= |events| && (dropping || removed == 0 || dropped == [])
    ensures popped + dropped + events + appended
         == (if dropping then popped else popped + events[..removed])
            + (if dropping then dropped + events[..removed] else dropped)
            + (events[removed..] + appended)
  {
    assert events == events[..removed] + events[removed..];
    if removed == 0 {
      assert popped + events[..0] == popped && dropped + events[..0] == dropped;
    }
  }

  /** Events are dropped only after abort, and popped only before. */
  lemma RemovalIsSafe(m: Monitor, a: Act)
    requires Fifo(m) && TakeIsSafe(m) && Enabled(m, a)
    ensures a.Drop? ==> m.abort && Appended(m, a) == []
    ensures !a.Drop? && Removed(m, a) == 1 ==> m.dropped == []
    ensures Removed(m, a) <= |m.events|
  {
  }

  lemma WorkMovesOne(m: Monitor, t: nat)
    requires t < |m.pcs| && HoldsLock(m.pcs[t])
    ensures var n := Work(m, t);
            n.pcs == (if m.pcs[t].AbortNotify? then WakeAll(m.pcs) else m.pcs)[t := n.pcs[t]]
  {
    hide MustWait;
  }

  /** The threads other than those moved by the step are where they were. */
  lemma OneThreadMoves(m: Monitor, a: Act)
    requires Enabled(m, a) && !a.Drop?
    ensures var n := Step(m, a);
            var pcs := if a.NotifyOne? && a.woken.Some? then m.pcs[a.woken.value := Woken]
                       else if a.Advance? && m.pcs[a.t].AbortNotify? then WakeAll(m.pcs) else m.pcs;
            n.pcs == pcs[a.t := n.pcs[a.t]] && (a.NotifyOne? && a.woken.Some? ==> a.woken.value != a.t)
  {
    if a.Advance? {
      if WantsLock(m.pcs[a.t]) {
        TakeOnlyMoves(m, a.t);
      } else {
        WorkMovesOne(m, a.t);
      }
    }
    hide Take;
    hide Work;
  }

  /** The moved thread `t` spends no notification it does not replace, falls asleep only with nothing to
      do, and hides no abort; `gift` notifications come from elsewhere. */
  predicate WakeupsKept(m: Monitor, n: Monitor, t: nat, gift: nat)
    requires t < |m.pcs| == |n.pcs|
  {
    && (!n.pcs[t].Asleep? ==>
          |n.events| + IsWoken(m.pcs[t]) + Pending(m) <= |m.events| + IsWoken(n.pcs[t]) + Pending(n) + gift || m.abort)
    && (n.pcs[t].Asleep? ==> n.events == [] && !n.abort)
    && (n.abort && !m.abort ==> n.owner == Some(t) && n.pcs[t].AbortNotify?)
    && (m.abort && m.owner.Some? && m.owner.value < |m.pcs| && m.pcs[m.owner.value].AbortNotify? ==>
          n.owner == m.owner && n.pcs[m.owner.value] == m.pcs[m.owner.value])
  }

  lemma WorkKeepsWakeups(m: Monitor, t: nat)
    requires MutualExclusion(m) && t < |m.pcs| && HoldsLock(m.pcs[t]) && !m.pcs[t].PushNotify? && !m.pcs[t].AbortNotify?
    ensures WakeupsKept(m, Work(m, t), t, 0)
  {
  }

  lemma TakeKeepsWakeups(m: Monitor, t: nat)
    requires t < |m.pcs| && WantsLock(m.pcs[t]) && m.owner.None?
    ensures WakeupsKept(m, Take(m, t), t, 0)
  {
  }

  /** Whether the step is a notification that finds no thread asleep. */
  predicate NotifiesNobody(a: Act) {
    a.NotifyOne? && a.woken.None?
  }

  lemma StepKeepsWakeups(m: Monitor, a: Act)
    requires MutualExclusion(m) && Enabled(m, a) && !a.Drop? && !NotifiesNobody(a)
    requires !(a.Advance? && m.pcs[a.t].AbortNotify?)
    ensures WakeupsKept(m, Step(m, a), a.t, if a.NotifyOne? then 1 else 0)
  {
    if a.Advance? {
      hide Pending;
      hide WakeupsKept;
      if WantsLock(m.pcs[a.t]) {
        TakeKeepsWakeups(m, a.t);
      } else {
        WorkKeepsWakeups(m, a.t);
      }
    } else {
      hide Take;
      hide Work;
    }
  }

  lemma StepLosesNoWakeup(m: Monitor, a: Act)
    requires Inv(m) && Enabled(m, a)
    ensures NoLostWakeup(Step(m, a))
  {
    hide Tally;
    hide Fifo;
    hide TakeIsSafe;
    var n := Step(m, a);
    if a.Drop? || NotifiesNobody(a) || (a.Advance? && m.pcs[a.t].AbortNotify?) {
      hide MutualExclusion;
      assert !SomeAsleep(n.pcs);
    } else {
      StepKeepsWakeups(m, a);
      OneThreadMoves(m, a);
      hide Step;
      hide Pending;
      hide MutualExclusion;
      var pcs := if a.NotifyOne? then m.pcs[a.woken.value := Woken] else m.pcs;
      if a.NotifyOne? {
        TallyUpdate(m.pcs, a.woken.value, Woken, IsWoken);
      }
      TallyUpdate(pcs, a.t, n.pcs[a.t], IsWoken);
      if SomeAsleep(n.pcs) && !n.pcs[a.t].Asleep? {
        var u :| 0 <= u < |n.pcs| && n.pcs[u].Asleep?;
        assert m.pcs[u].Asleep?;
      }
    }
  }

  lemma StepKeepsInv(m: Monitor, a: Act)
    requires Inv(m) && Enabled(m, a)
    ensures Inv(Step(m, a))
  {
    hide Step;
    hide Enabled;
    StepExcludes(m, a);
    StepTakesSafely(m, a);
    StepKeepsOrder(m, a);
    StepLosesNoWakeup(m, a);
  }

  lemma {:induction false} RunKeepsInv(m: Monitor, acts: seq<Act>)
    requires Inv(m) && IsRun(m, acts)
    ensures Inv(After(m, acts))
    decreases |acts|
  {
    hide Step;
    hide Enabled;
    hide Inv;
    if acts != [] {
      StepKeepsInv(m, acts[0]);
      RunKeepsInv(Step(m, acts[0]), acts[1..]);
    }
  }

  lemma InitialInv(m: Monitor)
    requires Initial(m)
    ensures Inv(m)
  {
  }

  /** No wakeup is lost, in any interleaving of pushes, pops, spurious wakeups and aborts: while the lock is
      free and some worker sleeps un-notified, at least as many notified workers are still to run as events
      are queued, and the queue is not aborted. Events leave in the order in which they came. */
  lemma RunLosesNoWakeup(m: Monitor, acts: seq<Act>)
    requires Initial(m) && IsRun(m, acts)
    ensures var n := After(m, acts);
            && (n.owner.None? && SomeAsleep(n.pcs) ==> |n.events| <= Tally(n.pcs, IsWoken) && !n.abort)
            && n.popped <= n.pushed && n.pushed == n.popped + n.dropped + n.events
  {
    hide Step;
    hide Enabled;
    hide Initial;
    InitialInv(m);
    RunKeepsInv(m, acts);
  }

  // ---- Conservation ----

  /** Weight of the unanswered events a thread holds. */
  function Held(w: Event -> nat): Pc -> nat {
    (pc: Pc) =>
      match pc
      case PushLock(e) => w(e)
      case PushAppend(e) => w(e)
      case PopUnlock(got) => if got.Some? then w(got.value) else 0
      case Analyzing(e) => w(e)
      case _ => 0
  }

  function HeldAnswered(w: Event -> nat): Pc -> nat {
    (pc: Pc) => if pc.Answered? then w(pc.event) else 0
  }

  /** Total weight of the events that still await an answer. */
  function Live(m: Monitor, w: Event -> nat): nat {
    Tally(m.events, w) + Tally(m.pcs, Held(w))
  }

  /** Every event offered is live or answered, and every event answered is still held or destroyed. */
  predicate Conserved(m: Monitor, w: Event -> nat) {
    && Tally(m.offered, w) == Live(m, w) + Tally(m.answered, w)
    && Tally(m.answered, w) == Tally(m.pcs, HeldAnswered(w)) + Tally(m.destroyed, w)
  }

  lemma {:induction false} SameTally(a: seq<Pc>, b: seq<Pc>, f: Pc -> nat)
    requires |a| == |b| && forall t :: 0 <= t < |a| ==> f(a[t]) == f(b[t])
    ensures Tally(a, f) == Tally(b, f)
  {
    if a != [] {
      SameTally(a[1..], b[1..], f);
    }
  }

  lemma PcTally(m: Monitor, a: Act, f: Pc -> nat)
    requires Enabled(m, a) && !a.Drop? && f(Asleep) == f(Woken)
    ensures Tally(Step(m, a).pcs, f) + f(m.pcs[a.t]) == Tally(m.pcs, f) + f(Step(m, a).pcs[a.t])
  {
    hide Tally;
    hide Step;
    var n := Step(m, a);
    OneThreadMoves(m, a);
    var pcs := if a.NotifyOne? && a.woken.Some? then m.pcs[a.woken.value := Woken]
               else if a.Advance? && m.pcs[a.t].AbortNotify? then WakeAll(m.pcs) else m.pcs;
    SameTally(m.pcs, pcs, f);
    TallyUpdate(pcs, a.t, n.pcs[a.t], f);
  }

  lemma HeldWork(m: Monitor, t: nat, w: Event -> nat)
    requires t < |m.pcs| && HoldsLock(m.pcs[t]) && !m.pcs[t].PushNotify?
    ensures var before, after := Held(w)(m.pcs[t]), Held(w)(Work(m, t).pcs[t]);
            if m.pcs[t].PushAppend? then after + w(m.pcs[t].event) == before
            else if m.pcs[t].PopTake? && m.events != [] then after == before + w(m.events[0])
            else after == before
  {
    hide MustWait;
  }

  lemma HeldStep(m: Monitor, a: Act, w: Event -> nat)
    requires Enabled(m, a) && !a.Drop?
    ensures var before, after := Held(w)(m.pcs[a.t]), Held(w)(Step(m, a).pcs[a.t]);
            match a
            case BeginPush(_, e) => after == before + w(e)
            case Answer(t) => after + w(m.pcs[t].event) == before
            case Advance(t) =>
              if m.pcs[t].PushAppend? then after + w(m.pcs[t].event) == before
              else if m.pcs[t].PopTake? && m.events != [] then after == before + w(m.events[0])
              else after == before
            case _ => after == before
  {
    if a.Advance? {
      if WantsLock(m.pcs[a.t]) {
        TakeOnlyMoves(m, a.t);
      } else {
        HeldWork(m, a.t, w);
        hide Held;
      }
    }
    hide Take;
    hide Work;
  }

  /** Weight entering and leaving the queue itself in a step. */
  lemma QueueWeight(m: Monitor, a: Act, w: Event -> nat)
    requires Enabled(m, a)
    ensures Removed(m, a) == 1 ==> m.events != []
    ensures Tally(Step(m, a).events, w) + (if Removed(m, a) == 1 then w(m.events[0]) else 0)
         == Tally(m.events, w) + (if Appended(m, a) != [] then w(Appended(m, a)[0]) else 0)
  {
    hide Tally;
    QueueStep(m, a);
    hide Step;
    FirstEvent(m.events, w);
    if Appended(m, a) != [] {
      TallyPush(m.events, Appended(m, a)[0], w);
    } else {
      assert m.events[Removed(m, a)..] + [] == m.events[Removed(m, a)..];
    }
  }

  /** Only a push adds to the live events, and only an answer or the queue's destruction takes from them. */
  lemma LiveStep(m: Monitor, a: Act, w: Event -> nat)
    requires Enabled(m, a)
    ensures var n := Step(m, a);
            match a
            case BeginPush(_, e) => Live(n, w) == Live(m, w) + w(e)
            case Answer(t) => Live(n, w) + w(m.pcs[t].event) == Live(m, w)
            case Drop => Live(n, w) + w(m.events[0]) == Live(m, w)
            case _ => Live(n, w) == Live(m, w)
  {
    hide Tally;
    QueueWeight(m, a, w);
    if a.Drop? {
      assert Step(m, a).pcs == m.pcs;
    } else {
      hide Step;
      HeldStep(m, a, w);
      PcTally(m, a, Held(w));
      hide Held;
    }
  }

  lemma FirstEvent(events: seq<Event>, w: Event -> nat)
    ensures events != [] ==> Tally(events, w) == w(events[0]) + Tally(events[1..], w)
  {
  }

  lemma HistoryWork(m: Monitor, t: nat)
    requires t < |m.pcs| && HoldsLock(m.pcs[t])
    ensures var n := Work(m, t);
            n.offered == m.offered && n.answered == m.answered && n.destroyed == m.destroyed && !n.pcs[t].Answered?
  {
    hide MustWait;
  }

  /** What a step adds to the histories, and which threads hold answered events. */
  lemma HistoryStep(m: Monitor, a: Act)
    requires Enabled(m, a)
    ensures var n := Step(m, a);
            && n.offered == (if a.BeginPush? then m.offered + [a.event] else m.offered)
            && n.answered == (if a.Answer? then m.answered + [m.pcs[a.t].event]
                              else if a.Drop? then m.answered + [m.events[0]] else m.answered)
            && n.destroyed == (if a.Destroy? then m.destroyed + [m.pcs[a.t].event]
                               else if a.Drop? then m.destroyed + [m.events[0]] else m.destroyed)
            && (a.Drop? ==> n.pcs == m.pcs)
            && (a.Answer? ==> n.pcs[a.t] == Answered(m.pcs[a.t].event))
            && (!a.Drop? && !a.Answer? ==> !n.pcs[a.t].Answered?)
            && (!a.Drop? && !a.Destroy? ==> !m.pcs[a.t].Answered?)
  {
    if a.Advance? {
      if WantsLock(m.pcs[a.t]) {
        TakeOnlyMoves(m, a.t);
      } else {
        HistoryWork(m, a.t);
      }
    }
    hide Take;
    hide Work;
  }

  lemma StepConserves(m: Monitor, a: Act, w: Event -> nat)
    requires Conserved(m, w) && Enabled(m, a)
    ensures Conserved(Step(m, a), w)
  {
    hide Tally;
    hide Live;
    hide Step;
    LiveStep(m, a, w);
    HistoryStep(m, a);
    if !a.Drop? {
      PcTally(m, a, HeldAnswered(w));
    }
    match a {
      case BeginPush(_, e) => TallyPush(m.offered, e, w);
      case Answer(t) => TallyPush(m.answered, m.pcs[t].event, w);
      case Destroy(t) => TallyPush(m.destroyed, m.pcs[t].event, w);
      case Drop =>
        TallyPush(m.answered, m.events[0], w);
        TallyPush(m.destroyed, m.events[0], w);
      case _ =>
    }
  }

  lemma {:induction false} RunConserves(m: Monitor, acts: seq<Act>, w: Event -> nat)
    requires Conserved(m, w) && IsRun(m, acts)
    ensures Conserved(After(m, acts), w)
    decreases |acts|
  {
    hide Step;
    hide Enabled;
    hide Conserved;
    if acts != [] {
      StepConserves(m, acts[0], w);
      RunConserves(Step(m, acts[0]), acts[1..], w);
    }
  }

  function Is(e: Event): Event -> nat {
    (x: Event) => if x == e then 1 else 0
  }

  lemma {:induction false} TallyCounts(s: seq<Event>, e: Event)
    ensures Tally(s, Is(e)) == multiset(s)[e]
  {
    if s != [] {
      TallyCounts(s[1..], e);
      assert s == [s[0]] + s[1..];
    }
  }

  lemma RestHoldsNothing(pcs: seq<Pc>, w: Event -> nat)
    requires AllAtRest(pcs)
    ensures Tally(pcs, Held(w)) == 0 && Tally(pcs, HeldAnswered(w)) == 0
  {
    TallyZero(pcs, Held(w));
    TallyZero(pcs, HeldAnswered(w));
  }

  /** Once every thread is at rest and the queue has been emptied, through workers or through its own
      destruction, each event ever offered has had its response written once and been destroyed once. */
  lemma EveryEventAnsweredOnce(m: Monitor, acts: seq<Act>)
    requires Initial(m) && IsRun(m, acts)
    requires AllAtRest(After(m, acts).pcs) && After(m, acts).events == []
    ensures var n := After(m, acts);
            multiset(n.offered) == multiset(n.answered) == multiset(n.destroyed)
  {
    hide Step;
    hide Enabled;
    var n := After(m, acts);
    forall e: Event
      ensures multiset(n.offered)[e] == multiset(n.answered)[e] == multiset(n.destroyed)[e]
    {
      TallyZero(m.pcs, Held(Is(e)));
      TallyZero(m.pcs, HeldAnswered(Is(e)));
      RunConserves(m, acts, Is(e));
      RestHoldsNothing(n.pcs, Is(e));
      TallyCounts(n.offered, e);
      TallyCounts(n.answered, e);
      TallyCounts(n.destroyed, e);
    }
  }

  // ---- Workers at work ----

  predicate IsWorker(pc: Pc) {
    || pc.Idle? || pc.PopLock? || pc.PopTest? || pc.Asleep? || pc.Woken? || pc.PopTake? || pc.PopUnlock?
    || pc.Analyzing? || pc.Answered? || pc.Exited?
  }

  /** A worker is a worker for good, and a thread that pushes or aborts is none. */
  predicate SameRoles(m: Monitor, n: Monitor) {
    |m.pcs| == |n.pcs| && forall t :: 0 <= t < |m.pcs| ==> (IsWorker(m.pcs[t]) <==> IsWorker(n.pcs[t]))
  }

  /** While the queue is not aborted no worker has left, nor is any about to. */
  predicate NobodyLeaves(m: Monitor) {
    !m.abort ==> forall t :: 0 <= t < |m.pcs| ==> !m.pcs[t].Exited? && m.pcs[t] != PopUnlock(None)
  }

  lemma WorkKeepsRole(m: Monitor, t: nat)
    requires t < |m.pcs| && HoldsLock(m.pcs[t]) && !m.pcs[t].PushNotify?
    ensures var pc := Work(m, t).pcs[t];
            && (IsWorker(pc) <==> IsWorker(m.pcs[t]))
            && (pc.Exited? ==> m.pcs[t] == PopUnlock(None))
            && (pc == PopUnlock(None) ==> m.abort)
  {
    hide MustWait;
  }

  lemma MovedThread(m: Monitor, a: Act)
    requires Enabled(m, a) && !a.Drop?
    ensures var pc := Step(m, a).pcs[a.t];
            && (IsWorker(pc) <==> IsWorker(m.pcs[a.t]))
            && (pc.Exited? ==> m.pcs[a.t] == PopUnlock(None))
            && (pc == PopUnlock(None) ==> m.abort)
  {
    if a.Advance? {
      if WantsLock(m.pcs[a.t]) {
        TakeOnlyMoves(m, a.t);
      } else {
        WorkKeepsRole(m, a.t);
      }
    }
    hide Take;
    hide Work;
  }

  lemma StepKeepsRoles(m: Monitor, a: Act)
    requires Enabled(m, a)
    ensures SameRoles(m, Step(m, a))
    ensures NobodyLeaves(m) ==> NobodyLeaves(Step(m, a))
  {
    QueueStep(m, a);
    if !a.Drop? {
      OneThreadMoves(m, a);
      MovedThread(m, a);
      hide Step;
    }
  }

  lemma {:induction false} RunKeepsRoles(m: Monitor, acts: seq<Act>)
    requires IsRun(m, acts)
    ensures SameRoles(m, After(m, acts))
    ensures NobodyLeaves(m) ==> NobodyLeaves(After(m, acts))
    decreases |acts|
  {
    hide Step;
    hide Enabled;
    hide NobodyLeaves;
    if acts != [] {
      StepKeepsRoles(m, acts[0]);
      RunKeepsRoles(Step(m, acts[0]), acts[1..]);
    }
  }

  /** Workers leave only an aborted queue: until then every thread that began as a worker still is one, and has
      not left. */
  lemma WorkersStayUntilAbort(m: Monitor, acts: seq<Act>, t: nat)
    requires Initial(m) && IsRun(m, acts) && t < |m.pcs|
    ensures var n := After(m, acts);
            && t < |n.pcs| && (m.pcs[t].Idle? <==> IsWorker(n.pcs[t]))
            && (n.pcs[t].Exited? ==> n.abort)
  {
    hide Step;
    hide Enabled;
    RunKeepsRoles(m, acts);
  }

  /** Nothing can happen but a spurious wakeup, a new push or a new abort. */
  ghost predicate Quiescent(m: Monitor) {
    forall a :: Enabled(m, a) ==> a.Spurious? || a.BeginPush? || a.BeginAbort?
  }

  /** Then every thread that has not left is outside or asleep. */
  lemma QuiescentThreads(m: Monitor)
    requires Inv(m) && Quiescent(m)
    ensures m.owner.None?
    ensures forall t :: 0 <= t < |m.pcs| ==> m.pcs[t].Outside? || m.pcs[t].Asleep? || m.pcs[t].Exited?
  {
    if m.owner.Some? {
      var t := m.owner.value;
      if m.pcs[t].PushNotify? {
        NotifierCanMove(m, t);
      } else {
        assert Enabled(m, Advance(t));
      }
    } else {
      forall t: nat | t < |m.pcs|
        ensures m.pcs[t].Outside? || m.pcs[t].Asleep? || m.pcs[t].Exited?
      {
        var pc := m.pcs[t];
        assert !HoldsLock(pc);
        if !(pc.Outside? || pc.Asleep? || pc.Exited?) {
          var a := if pc.Idle? then BeginPop(t) else if pc.Analyzing? then Answer(t)
                   else if pc.Answered? then Destroy(t) else Advance(t);
          assert Enabled(m, a);
        }
      }
    }
  }

  lemma NotifierCanMove(m: Monitor, t: nat)
    requires t < |m.pcs| && m.owner == Some(t) && m.pcs[t].PushNotify?
    ensures exists a :: Enabled(m, a) && a.NotifyOne?
  {
    if u: nat :| u < |m.pcs| && m.pcs[u].Asleep? {
      assert Enabled(m, NotifyOne(t, Some(u)));
    } else {
      assert Enabled(m, NotifyOne(t, None));
    }
  }

  /** Work gets done: in any run with at least one worker and without an abort, when nothing more can happen
      by itself, no event is queued and each one ever offered has been answered and destroyed once. */
  lemma QuietQueueHasAnsweredAll(m: Monitor, acts: seq<Act>, worker: nat)
    requires Initial(m) && IsRun(m, acts) && worker < |m.pcs| && m.pcs[worker].Idle?
    requires !After(m, acts).abort && Quiescent(After(m, acts))
    ensures var n := After(m, acts);
            && n.events == [] && worker < |n.pcs| && n.pcs[worker].Asleep?
            && multiset(n.offered) == multiset(n.answered) == multiset(n.destroyed)
  {
    hide Step;
    hide Enabled;
    hide Quiescent;
    var n := After(m, acts);
    InitialInv(m);
    RunKeepsInv(m, acts);
    QuiescentThreads(n);
    WorkersStayUntilAbort(m, acts, worker);
    assert n.pcs[worker].Asleep?;
    TallyZero(n.pcs, IsWoken);
    assert n.events == [];
    hide Inv;
    forall e: Event
      ensures multiset(n.offered)[e] == multiset(n.answered)[e] == multiset(n.destroyed)[e]
    {
      TallyZero(m.pcs, Held(Is(e)));
      TallyZero(m.pcs, HeldAnswered(Is(e)));
      RunConserves(m, acts, Is(e));
      TallyZero(n.pcs, Held(Is(e)));
      TallyZero(n.pcs, HeldAnswered(Is(e)));
      TallyCounts(n.offered, e);
      TallyCounts(n.answered, e);
      TallyCounts(n.destroyed, e);
    }
  }

  lemma RunFirst(m: Monitor, a: Act, acts: seq<Act>)
    requires Enabled(m, a) && IsRun(Step(m, a), acts)
    ensures IsRun(m, [a] + acts) && After(m, [a] + acts) == After(Step(m, a), acts)
  {
    assert ([a] + acts)[1..] == acts;
  }

  /** A sleeping worker may wake for nothing at any time; if nothing has come it goes back to sleep, and all is
      as before. */
  lemma SpuriousWakeupIsHarmless(m: Monitor, t: nat)
    requires t < |m.pcs| && m.pcs[t].Asleep? && m.owner.None? && m.events == [] && !m.abort
    ensures var acts := [Spurious(t), Advance(t), Advance(t)];
            IsRun(m, acts) && After(m, acts) == m
  {
    var m1 := Step(m, Spurious(t));
    var m2 := Step(m1, Advance(t));
    var m3 := Step(m2, Advance(t));
    assert m3.pcs == m.pcs;
    RunFirst(m2, Advance(t), []);
    RunFirst(m1, Advance(t), [Advance(t)]);
    RunFirst(m, Spurious(t), [Advance(t), Advance(t)]);
    assert [Spurious(t)] + [Advance(t), Advance(t)] == [Spurious(t), Advance(t), Advance(t)];
    assert [Advance(t)] + [Advance(t)] == [Advance(t), Advance(t)];
    assert [Advance(t)] + [] == [Advance(t)];
  }

  lemma AbortEnds(m: Monitor, t: nat)
    requires t < |m.pcs| && m.pcs[t].AbortNotify? && m.owner == Some(t)
    ensures IsRun(m, [Advance(t), Advance(t)])
    ensures After(m, [Advance(t), Advance(t)]) == m.(owner := None, pcs := WakeAll(m.pcs)[t := Outside])
  {
    var m1 := Step(m, Advance(t));
    assert m1.pcs == WakeAll(m.pcs)[t := AbortUnlock];
    assert Step(m1, Advance(t)).pcs == WakeAll(m.pcs)[t := Outside];
    RunFirst(m1, Advance(t), []);
    RunFirst(m, Advance(t), [Advance(t)]);
    assert [Advance(t)] + [Advance(t)] == [Advance(t), Advance(t)];
    assert [Advance(t)] + [] == [Advance(t)];
  }

  lemma AbortSets(m: Monitor, t: nat)
    requires t < |m.pcs| && m.pcs[t].AbortLock? && m.owner.None?
    requires IsRun(m.(abort := true, owner := Some(t), pcs := m.pcs[t := AbortNotify]), [Advance(t), Advance(t)])
    ensures IsRun(m, [Advance(t), Advance(t), Advance(t), Advance(t)])
    ensures After(m, [Advance(t), Advance(t), Advance(t), Advance(t)])
         == After(m.(abort := true, owner := Some(t), pcs := m.pcs[t := AbortNotify]), [Advance(t), Advance(t)])
  {
    hide IsRun;
    hide After;
    var two := [Advance(t), Advance(t)];
    var m1 := Step(m, Advance(t));
    assert m1.pcs[t := AbortNotify] == m.pcs[t := AbortNotify];
    assert Step(m1, Advance(t)) == m.(abort := true, owner := Some(t), pcs := m.pcs[t := AbortNotify]);
    RunFirst(m1, Advance(t), two);
    RunFirst(m, Advance(t), [Advance(t)] + two);
    hide Step;
    assert [Advance(t)] + ([Advance(t)] + two) == [Advance(t), Advance(t), Advance(t), Advance(t)];
  }

  /** An abort can come whenever the mutex is free, and alone it sets the flag, wakes every sleeper and changes
      nothing else. */
  lemma AbortWakesAll(m: Monitor, t: nat)
    requires t < |m.pcs| && m.pcs[t].Outside? && m.owner.None?
    ensures var acts := [BeginAbort(t), Advance(t), Advance(t), Advance(t), Advance(t)];
            && IsRun(m, acts)
            && var n := After(m, acts);
               && n == m.(abort := true, pcs := n.pcs) && |n.pcs| == |m.pcs|
               && forall k :: 0 <= k < |m.pcs| ==> n.pcs[k] == if m.pcs[k].Asleep? then Woken else m.pcs[k]
  {
    var m1 := Step(m, BeginAbort(t));
    var m3 := m1.(abort := true, owner := Some(t), pcs := m1.pcs[t := AbortNotify]);
    AbortEnds(m3, t);
    AbortSets(m1, t);
    var four := [Advance(t), Advance(t), Advance(t), Advance(t)];
    RunFirst(m, BeginAbort(t), four);
    assert [BeginAbort(t)] + four == [BeginAbort(t), Advance(t), Advance(t), Advance(t), Advance(t)];
    hide Step;
    hide IsRun;
    hide After;
  }

  // ---- Shutdown ----

  /** Statements a thread has left before it rests, once the queue is aborted. */
  function Rank(pc: Pc): nat {
    match pc
    case Outside => 0
    case PushLock(_) => 5
    case PushAppend(_) => 4
    case PushNotify => 2
    case PushUnlock => 1
    case AbortLock => 4
    case AbortSet => 3
    case AbortNotify => 2
    case AbortUnlock => 1
    case Exited => 0
    case PopUnlock(got) => if got.None? then 1 else 7
    case PopTest => 2
    case PopLock => 3
    case Woken => 3
    case Idle => 4
    case Answered(_) => 5
    case Analyzing(_) => 6
    case PopTake => 8
    case Asleep => 9
  }

  const MAX_RANK: nat := 9

  /** Statements left to the threads, and events left to the queue's destruction. */
  function Measure(m: Monitor): nat {
    Tally(m.pcs, Rank) + |m.events|
  }

  /** A step other than a new push or abort. */
  predicate Closing(a: Act) {
    !a.BeginPush? && !a.BeginAbort?
  }

  /** Nothing is left to do but to push or abort anew. */
  ghost predicate Stuck(m: Monitor) {
    forall a :: Enabled(m, a) ==> !Closing(a)
  }

  lemma {:induction false} WakingLowers(a: seq<Pc>, b: seq<Pc>)
    requires |a| == |b| && forall t :: 0 <= t < |a| ==> Rank(b[t]) <= Rank(a[t])
    ensures Tally(b, Rank) <= Tally(a, Rank)
  {
    if a != [] {
      WakingLowers(a[1..], b[1..]);
    }
  }

  lemma WorkRankFalls(m: Monitor, t: nat)
    requires Inv(m) && m.abort && t < |m.pcs| && HoldsLock(m.pcs[t]) && !m.pcs[t].PushNotify?
    ensures Rank(Work(m, t).pcs[t]) + (if m.pcs[t].PushAppend? then 1 else 0) < Rank(m.pcs[t])
    ensures Work(m, t).abort && Work(m, t).popped == m.popped
  {
    hide Tally;
    hide NoLostWakeup;
    hide Fifo;
  }

  lemma ThreadRankFalls(m: Monitor, a: Act)
    requires Inv(m) && m.abort && Enabled(m, a) && Closing(a) && !a.Drop?
    ensures Rank(Step(m, a).pcs[a.t]) + |Appended(m, a)| < Rank(m.pcs[a.t])
    ensures Step(m, a).abort && Step(m, a).popped == m.popped
  {
    hide Tally;
    hide NoLostWakeup;
    hide Fifo;
    if a.Advance? && HoldsLock(m.pcs[a.t]) {
      WorkRankFalls(m, a.t);
    }
    hide Work;
  }

  /** After abort a thread sleeps only until the aborter, who holds the lock, has woken all. */
  lemma AbortedOwner(m: Monitor)
    requires Inv(m) && m.abort
    ensures SomeAsleep(m.pcs) ==> m.owner.Some? && m.pcs[m.owner.value].AbortNotify?
  {
  }

  lemma NobodyToNotify(m: Monitor, a: Act)
    requires Enabled(m, a) && !SomeAsleep(m.pcs)
    ensures a.NotifyOne? ==> a.woken.None?
    ensures !a.Spurious?
  {
  }

  lemma NotifierHoldsLock(m: Monitor, a: Act)
    requires Enabled(m, a) && a.NotifyOne?
    ensures m.owner == Some(a.t) && m.pcs[a.t].PushNotify?
  {
  }

  lemma DropKeepsThreads(m: Monitor)
    requires Enabled(m, Drop)
    ensures var n := Step(m, Drop); n.pcs == m.pcs && n.abort == m.abort && n.popped == m.popped && |n.events| < |m.events|
  {
  }

  /** After abort every step brings the threads closer to rest or the queue closer to empty, and no event is taken from the queue. */
  lemma AbortedStepDescends(m: Monitor, a: Act)
    requires Inv(m) && m.abort && Enabled(m, a) && Closing(a)
    ensures Measure(Step(m, a)) < Measure(m)
    ensures Step(m, a).abort && Step(m, a).popped == m.popped
  {
    QueueStep(m, a);
    if a.Drop? {
      DropKeepsThreads(m);
      return;
    }
    hide Tally;
    hide Step;
    var n := Step(m, a);
    OneThreadMoves(m, a);
    ThreadRankFalls(m, a);
    AbortedOwner(m);
    hide Appended;
    if a.NotifyOne? {
      NotifierHoldsLock(m, a);
      NobodyToNotify(m, a);
    }
    var pcs := if a.Advance? && m.pcs[a.t].AbortNotify? then WakeAll(m.pcs) else m.pcs;
    WakingLowers(m.pcs, pcs);
    TallyUpdate(pcs, a.t, n.pcs[a.t], Rank);
  }

  /** Unless every thread is at rest, some thread can move. */
  lemma AbortedNeverDeadlocks(m: Monitor) returns (a: Act)
    requires Inv(m) && m.abort && !AllAtRest(m.pcs)
    ensures Enabled(m, a) && Closing(a)
  {
    AbortedOwner(m);
    if m.owner.Some? {
      var t := m.owner.value;
      a := if m.pcs[t].PushNotify? then NotifyOne(t, None) else Advance(t);
    } else {
      var t :| 0 <= t < |m.pcs| && !AtRest(m.pcs[t]);
      assert !HoldsLock(m.pcs[t]);
      a := if m.pcs[t].Idle? then BeginPop(t)
           else if m.pcs[t].Analyzing? then Answer(t)
           else if m.pcs[t].Answered? then Destroy(t)
           else Advance(t);
    }
  }

  lemma {:induction false} MeasureBound(pcs: seq<Pc>)
    ensures Tally(pcs, Rank) <= MAX_RANK * |pcs|
  {
    if pcs != [] {
      MeasureBound(pcs[1..]);
    }
  }

  lemma StuckIsEmpty(m: Monitor)
    requires Inv(m) && m.abort && Stuck(m)
    ensures AllAtRest(m.pcs) && m.events == []
  {
    if !AllAtRest(m.pcs) {
      var a := AbortedNeverDeadlocks(m);
    } else if m.events != [] {
      DropIsEnabled(m);
    }
  }

  lemma DropIsEnabled(m: Monitor)
    requires m.abort && AllAtRest(m.pcs) && m.events != []
    ensures Enabled(m, Drop) && Closing(Drop)
  {
  }

  /** Shutdown terminates: after abort no schedule can go on for more than nine steps a thread and one for
      each queued event, no pop returns another event, and a schedule that cannot be extended has every
      worker exited, so that the joins return, and the queue destroyed with all it held. */
  lemma {:induction false} ShutdownTerminates(m: Monitor, acts: seq<Act>)
    requires Inv(m) && m.abort && IsRun(m, acts)
    requires forall i :: 0 <= i < |acts| ==> Closing(acts[i])
    ensures |acts| + Measure(After(m, acts)) <= Measure(m) <= MAX_RANK * |m.pcs| + |m.events|
    ensures After(m, acts).popped == m.popped && After(m, acts).abort
    ensures Stuck(After(m, acts)) ==> AllAtRest(After(m, acts).pcs) && After(m, acts).events == []
    ensures !SomeAsleep(m.pcs) || m.owner.Some?
    decreases |acts|
  {
    hide Step;
    hide Tally;
    hide Stuck;
    hide Enabled;
    hide AllAtRest;
    MeasureBound(m.pcs);
    AbortedOwner(m);
    hide Inv;
    if acts == [] {
      if Stuck(m) {
        StuckIsEmpty(m);
      }
    } else {
      StepKeepsInv(m, acts[0]);
      AbortedStepDescends(m, acts[0]);
      ShutdownTerminates(Step(m, acts[0]), acts[1..]);
    }
  }

  /** Every run with an abort that cannot go on, whatever was queued, held or under way when it came, has
      written each offered event's response once and destroyed each event once. */
  lemma EveryEventIsAnsweredInTheEnd(m: Monitor, acts: seq<Act>)
    requires Initial(m) && IsRun(m, acts) && After(m, acts).abort && Stuck(After(m, acts))
    ensures var n := After(m, acts);
            && AllAtRest(n.pcs) && n.events == []
            && multiset(n.offered) == multiset(n.answered) == multiset(n.destroyed)
  {
    hide Step;
    hide Enabled;
    hide Initial;
    hide Stuck;
    hide AllAtRest;
    InitialInv(m);
    RunKeepsInv(m, acts);
    hide Inv;
    StuckIsEmpty(After(m, acts));
    EveryEventAnsweredOnce(m, acts);
  }
}
