/** The queue of workflow activations to retry, with exponential backoff
    (packages/cli/src/active-workflow-manager.ts, packages/cli/src/constants.ts). A retry
    starts when its timer fires, takes its workflow off the queue when it gets to line 622,
    and ends in a step of its own. */
module RetryQueue {
  import opened Options

  type WorkflowId = string

  type Timer = nat

  const INITIAL_TIMEOUT := 1000
  const MAX_TIMEOUT := 24 * 60 * 60 * 1000

  datatype Entry = Entry(lastTimeout: nat, timer: Timer)

  /** A timeout the runtime has still to fire. */
  datatype Pending = Pending(workflow: WorkflowId, delay: nat)

  /** `entries` is the source's field; `armed` the pending timeouts, `running` the retries
      that have not got to line 622, `leaving` those that have and still await a write,
      `failures` how often a queued workflow failed since it was queued. */
  datatype Queue = Queue(
    entries: map<WorkflowId, Entry>,
    armed: map<Timer, Pending>,
    running: multiset<WorkflowId>,
    leaving: multiset<WorkflowId>,
    nextTimer: Timer,
    failures: map<WorkflowId, nat>)

  /** How a retry ends. Before line 622: failed, or handed over by publishing a command, in
      multi-main. After it: activated, or failed late. */
  datatype End = Failed | OnlyPublished | Activated | FailedLate

  datatype Event =
    | Enqueue(workflow: WorkflowId)
    | Dequeue(workflow: WorkflowId)   // deactivation, or an activation from elsewhere
    | Fire(timer: Timer)
    | Leave(workflow: WorkflowId)     // a retry gets to line 622
    | Finish(workflow: WorkflowId, end: End)

  const EMPTY := Queue(map[], map[], multiset{}, multiset{}, 0, map[])

  function Min(a: nat, b: nat): nat { if a < b then a else b }

  function Backoff(lastTimeout: nat): nat {
    if lastTimeout < MAX_TIMEOUT then Min(lastTimeout * 2, MAX_TIMEOUT) else lastTimeout
  }

  function Remove(s: Queue, w: WorkflowId): Queue {
    if w !in s.entries then s
    else s.(entries := s.entries - {w}, armed := s.armed - {s.entries[w].timer}, failures := s.failures - {w})
  }

  /** A new timer replaces the entry's; the old one is not cleared. */
  function Arm(s: Queue, w: WorkflowId, delay: nat, count: nat): Queue {
    s.(entries := s.entries[w := Entry(delay, s.nextTimer)], armed := s.armed[s.nextTimer := Pending(w, delay)],
       nextTimer := s.nextTimer + 1, failures := s.failures[w := count])
  }

  /** Without an entry the handler itself throws, and nothing is armed. */
  function Fail(s: Queue, w: WorkflowId): Queue {
    if w in s.entries && w in s.failures then Arm(s, w, Backoff(s.entries[w].lastTimeout), s.failures[w] + 1) else s
  }

  predicate Late(end: End) { end.Activated? || end.FailedLate? }

  function Ended(s: Queue, w: WorkflowId, end: End): Queue {
    if end.Failed? || end.FailedLate? then Fail(s, w) else s
  }

  /** The retry that ends is one that has got to line 622, or one that has not. */
  predicate CanEnd(s: Queue, w: WorkflowId, end: End) { if Late(end) then w in s.leaving else w in s.running }

  function Taken(s: Queue, w: WorkflowId, end: End): Queue {
    if Late(end) then s.(leaving := s.leaving - multiset{w}) else s.(running := s.running - multiset{w})
  }

  /** The retry moves past line 622. */
  function Left(s: Queue, w: WorkflowId): Queue {
    Remove(s, w).(running := s.running - multiset{w}, leaving := s.leaving + multiset{w})
  }

  function Step(s: Queue, e: Event): Queue {
    match e
    case Enqueue(w) => Arm(Remove(s, w), w, INITIAL_TIMEOUT, 0)
    case Dequeue(w) => Remove(s, w)
    case Fire(t) =>
      if t !in s.armed then s else s.(armed := s.armed - {t}, running := s.running + multiset{s.armed[t].workflow})
    case Leave(w) =>
      if w in s.running then Left(s, w) else s
    case Finish(w, end) => if CanEnd(s, w, end) then Ended(Taken(s, w, end), w, end) else s
  }

  function Run(s: Queue, events: seq<Event>): Queue
    decreases |events|
  {
    if events == [] then s else Run(Step(s, events[0]), events[1..])
  }

  // ---------- The delay ----------

  function Pow2(n: nat): (r: nat)
    ensures r > n
  {
    if n == 0 then 1 else 2 * Pow2(n - 1)
  }

  /** The delay after n consecutive failures. */
  function Delay(n: nat): nat { Min(INITIAL_TIMEOUT * Pow2(n), MAX_TIMEOUT) }

  lemma DelayStep(n: nat)
    ensures Delay(n + 1) == Backoff(Delay(n))
  {
    assert INITIAL_TIMEOUT * Pow2(n + 1) == 2 * (INITIAL_TIMEOUT * Pow2(n));
  }

  /** In milliseconds: a second at first, then twice as long each time, up to a day. */
  lemma DelayInNumbers(n: nat)
    ensures Delay(0) == 1000
    ensures Delay(n + 1) == if 2 * Delay(n) < 86_400_000 then 2 * Delay(n) else 86_400_000
  {
    assert Pow2(0) == 1;
    assert INITIAL_TIMEOUT * Pow2(n + 1) == 2 * (INITIAL_TIMEOUT * Pow2(n));
  }

  lemma {:induction false} DelayIncreases(m: nat, n: nat)
    requires m <= n
    ensures Delay(m) <= Delay(n) <= MAX_TIMEOUT
  {
    if m < n {
      DelayIncreases(m, n - 1);
      DelayStep(n - 1);
    }
  }

  /** It reaches the day after 17 failures, not before, and stays there. */
  lemma DelaySaturates(n: nat)
    ensures Delay(n) == MAX_TIMEOUT <==> n >= 17
  {
    assert Pow2(16) == 65536 by {
      assert Pow2(4) == 16;
      assert Pow2(8) == 256;
      assert Pow2(12) == 4096;
    }
    assert Pow2(17) == 131072;
    if n >= 17 { DelayIncreases(17, n); } else { DelayIncreases(n, 16); }
  }

  // ---------- Backoff over every run ----------

  /** Every entry's delay is the one for its number of failures, and its timer, if it is
      still pending, waits for exactly that. */
  ghost predicate BackoffOk(s: Queue) {
    && s.failures.Keys == s.entries.Keys
    && (forall w :: w in s.entries ==> EntryOk(s, w))
    && (forall t :: t in s.armed ==> t < s.nextTimer)
  }

  ghost predicate EntryOk(s: Queue, w: WorkflowId)
    requires w in s.entries && w in s.failures
  {
    var entry := s.entries[w];
    && entry.lastTimeout == Delay(s.failures[w]) && entry.timer < s.nextTimer
    && (entry.timer in s.armed ==> s.armed[entry.timer] == Pending(w, entry.lastTimeout))
  }

  lemma RemoveBackoff(s: Queue, w: WorkflowId)
    requires BackoffOk(s)
    ensures BackoffOk(Remove(s, w))
  {
    hide Delay;
    var next := Remove(s, w);
    forall v | v in next.entries ensures EntryOk(next, v) { assert EntryOk(s, v); }
  }

  lemma ArmBackoff(s: Queue, w: WorkflowId, delay: nat, count: nat)
    requires BackoffOk(s) && delay == Delay(count)
    ensures BackoffOk(Arm(s, w, delay, count))
  {
    hide Delay;
    var next := Arm(s, w, delay, count);
    forall v | v in next.entries ensures EntryOk(next, v) { if v != w { assert EntryOk(s, v); } }
  }

  /** Which retries are under way does not matter to the entries and the timers. */
  predicate SameTimers(s: Queue, t: Queue) {
    t.entries == s.entries && t.armed == s.armed && t.nextTimer == s.nextTimer && t.failures == s.failures
  }

  lemma SameBackoff(s: Queue, t: Queue)
    requires BackoffOk(s) && SameTimers(s, t)
    ensures BackoffOk(t)
  {
    hide Delay;
    forall v | v in t.entries ensures EntryOk(t, v) { assert EntryOk(s, v); }
  }

  lemma FailBackoff(s: Queue, w: WorkflowId)
    requires BackoffOk(s)
    ensures BackoffOk(Fail(s, w))
  {
    hide Delay, Backoff;
    if w in s.entries {
      assert EntryOk(s, w);
      DelayStep(s.failures[w]);
      ArmBackoff(s, w, Backoff(s.entries[w].lastTimeout), s.failures[w] + 1);
    }
  }

  lemma EnqueueBackoff(s: Queue, w: WorkflowId)
    requires BackoffOk(s)
    ensures BackoffOk(Step(s, Enqueue(w)))
  {
    hide BackoffOk, Arm, Remove;
    RemoveBackoff(s, w);
    assert Pow2(0) == 1 && Delay(0) == INITIAL_TIMEOUT;
    ArmBackoff(Remove(s, w), w, INITIAL_TIMEOUT, 0);
  }

  lemma DequeueBackoff(s: Queue, w: WorkflowId)
    requires BackoffOk(s)
    ensures BackoffOk(Step(s, Dequeue(w)))
  {
    hide BackoffOk, Remove;
    RemoveBackoff(s, w);
  }

  lemma FireBackoff(s: Queue, t: Timer)
    requires BackoffOk(s)
    ensures BackoffOk(Step(s, Fire(t)))
  {
    hide Delay;
    forall v | v in s.entries ensures EntryOk(Step(s, Fire(t)), v) { assert EntryOk(s, v); }
  }

  lemma LeaveBackoff(s: Queue, w: WorkflowId)
    requires BackoffOk(s)
    ensures BackoffOk(Step(s, Leave(w)))
  {
    hide BackoffOk, Remove;
    RemoveBackoff(s, w);
    SameBackoff(Remove(s, w), Left(s, w));
  }

  lemma FinishBackoff(s: Queue, w: WorkflowId, end: End)
    requires BackoffOk(s)
    ensures BackoffOk(Step(s, Finish(w, end)))
  {
    hide BackoffOk, Fail;
    SameBackoff(s, Taken(s, w, end));
    FailBackoff(Taken(s, w, end), w);
  }

  lemma StepBackoff(s: Queue, e: Event)
    requires BackoffOk(s)
    ensures BackoffOk(Step(s, e))
  {
    hide *;
    match e {
      case Enqueue(w) => EnqueueBackoff(s, w);
      case Dequeue(w) => DequeueBackoff(s, w);
      case Fire(t) => FireBackoff(s, t);
      case Leave(w) => LeaveBackoff(s, w);
      case Finish(w, end) => FinishBackoff(s, w, end);
    }
  }

  lemma {:induction false} RunBackoff(s: Queue, events: seq<Event>)
    requires BackoffOk(s)
    ensures BackoffOk(Run(s, events))
    decreases |events|
  {
    hide BackoffOk, Step;
    if events != [] {
      StepBackoff(s, events[0]);
      RunBackoff(Step(s, events[0]), events[1..]);
    }
  }

  /** From the empty queue, over every interleaving: after n failures in a row the next
      retry waits min(1000 * 2^n, 86400000) milliseconds. */
  lemma BackoffFromStart(events: seq<Event>, w: WorkflowId)
    requires w in Run(EMPTY, events).entries
    ensures var s := Run(EMPTY, events);
            && w in s.failures && s.entries[w].lastTimeout == Delay(s.failures[w])
            && (s.entries[w].timer in s.armed ==> s.armed[s.entries[w].timer] == Pending(w, Delay(s.failures[w])))
  {
    RunBackoff(EMPTY, events);
    assert EntryOk(Run(EMPTY, events), w);
  }

  // ---------- One timer per workflow ----------

  predicate Owned(s: Queue, t: Timer)
    requires t in s.armed
  {
    s.armed[t].workflow in s.entries && s.entries[s.armed[t].workflow].timer == t
  }

  /** Every pending timeout is the one its workflow's entry knows. */
  predicate OneTimer(s: Queue) { forall t :: t in s.armed ==> Owned(s, t) }

  lemma AtMostOne(s: Queue, t: Timer, u: Timer)
    requires OneTimer(s) && t in s.armed && u in s.armed && s.armed[t].workflow == s.armed[u].workflow
    ensures t == u
  {
    assert Owned(s, t) && Owned(s, u);
  }

  /** The workflow was queued afresh while this retry was under way, be it before line 622
      or between there and its end. */
  predicate Overlaps(s: Queue, e: Event) {
    && e.Finish? && (e.end.Failed? || e.end.FailedLate?) && CanEnd(s, e.workflow, e.end)
    && e.workflow in s.entries && s.entries[e.workflow].timer in s.armed
  }

  lemma RemoveOneTimer(s: Queue, w: WorkflowId)
    requires OneTimer(s)
    ensures OneTimer(Remove(s, w))
  {
    forall t | t in Remove(s, w).armed ensures Owned(Remove(s, w), t) { assert Owned(s, t); }
  }

  lemma ArmOneTimer(s: Queue, w: WorkflowId, delay: nat, count: nat)
    requires OneTimer(s) && BackoffOk(s)
    ensures OneTimer(Arm(s, w, delay, count)) <==> !(w in s.entries && s.entries[w].timer in s.armed)
  {
    var next := Arm(s, w, delay, count);
    if w in s.entries && s.entries[w].timer in s.armed {
      assert EntryOk(s, w) && !Owned(next, s.entries[w].timer);
    } else {
      forall t | t in next.armed ensures Owned(next, t) {
        if t in s.armed { assert Owned(s, t); }
      }
    }
  }

  lemma SameOneTimer(s: Queue, t: Queue)
    requires OneTimer(s) && SameTimers(s, t)
    ensures OneTimer(t)
  {
    forall u | u in t.armed ensures Owned(t, u) { assert Owned(s, u); }
  }

  lemma FailOneTimer(s: Queue, w: WorkflowId)
    requires OneTimer(s) && BackoffOk(s)
    ensures OneTimer(Fail(s, w)) <==> !(w in s.entries && s.entries[w].timer in s.armed)
  {
    if w in s.entries { ArmOneTimer(s, w, Backoff(s.entries[w].lastTimeout), s.failures[w] + 1); }
  }

  lemma EnqueueOneTimer(s: Queue, w: WorkflowId)
    requires OneTimer(s) && BackoffOk(s)
    ensures OneTimer(Step(s, Enqueue(w)))
  {
    RemoveOneTimer(s, w);
    RemoveBackoff(s, w);
    hide OneTimer, BackoffOk;
    ArmOneTimer(Remove(s, w), w, INITIAL_TIMEOUT, 0);
  }

  lemma FireOneTimer(s: Queue, t: Timer)
    requires OneTimer(s)
    ensures OneTimer(Step(s, Fire(t)))
  {
    var next := Step(s, Fire(t));
    forall u | u in next.armed ensures Owned(next, u) { assert Owned(s, u); }
  }

  lemma LeaveOneTimer(s: Queue, w: WorkflowId)
    requires OneTimer(s)
    ensures OneTimer(Step(s, Dequeue(w))) && OneTimer(Step(s, Leave(w)))
  {
    hide OneTimer, Remove;
    RemoveOneTimer(s, w);
    SameOneTimer(Remove(s, w), Left(s, w));
  }

  lemma FinishOneTimer(s: Queue, w: WorkflowId, end: End)
    requires OneTimer(s) && BackoffOk(s)
    ensures OneTimer(Step(s, Finish(w, end))) <==> !Overlaps(s, Finish(w, end))
  {
    hide OneTimer, BackoffOk, Fail;
    SameOneTimer(s, Taken(s, w, end));
    SameBackoff(s, Taken(s, w, end));
    FailOneTimer(Taken(s, w, end), w);
  }

  /** The rule is kept by every step but the failure of a retry that overlaps. */
  lemma StepOneTimer(s: Queue, e: Event)
    requires OneTimer(s) && BackoffOk(s)
    ensures OneTimer(Step(s, e)) <==> !Overlaps(s, e)
  {
    hide OneTimer, BackoffOk, Step;
    match e {
      case Enqueue(w) => EnqueueOneTimer(s, w);
      case Dequeue(w) => LeaveOneTimer(s, w);
      case Fire(t) => FireOneTimer(s, t);
      case Leave(w) => LeaveOneTimer(s, w);
      case Finish(w, end) => FinishOneTimer(s, w, end);
    }
  }

  ghost predicate NeverOverlaps(s: Queue, events: seq<Event>)
    decreases |events|
  {
    events != [] ==> !Overlaps(s, events[0]) && NeverOverlaps(Step(s, events[0]), events[1..])
  }

  lemma {:induction false} RunOneTimer(s: Queue, events: seq<Event>)
    requires OneTimer(s) && BackoffOk(s) && NeverOverlaps(s, events)
    ensures OneTimer(Run(s, events))
    ensures var q := Run(s, events); forall t, u ::
              t in q.armed && u in q.armed && q.armed[t].workflow == q.armed[u].workflow ==> t == u
    decreases |events|
  {
    hide OneTimer, BackoffOk, Step, Overlaps;
    if events == [] {
      forall t, u | t in s.armed && u in s.armed && s.armed[t].workflow == s.armed[u].workflow ensures t == u {
        AtMostOne(s, t, u);
      }
    } else {
      StepBackoff(s, events[0]);
      StepOneTimer(s, events[0]);
      RunOneTimer(Step(s, events[0]), events[1..]);
    }
  }

  /** A retry that runs to its end before anything else happens to its workflow never
      overlaps: firing leaves the entry without a pending timer, and line 622 leaves no
      entry at all. */
  lemma AtomicRetry(s: Queue, t: Timer, end: End)
    requires OneTimer(s) && t in s.armed
    ensures var w, fired := s.armed[t].workflow, Step(s, Fire(t));
            !Overlaps(fired, Finish(w, end)) && !Overlaps(Step(fired, Leave(w)), Finish(w, end))
  {
    assert Owned(s, t);
  }

  lemma LeftBehind(w: WorkflowId) returns (s3: Queue)
    ensures s3 == Step(Step(Step(EMPTY, Enqueue(w)), Fire(0)), Leave(w))
    ensures w in s3.leaving
  {
    var s1 := Step(EMPTY, Enqueue(w));
    assert s1.armed == map[0 := Pending(w, INITIAL_TIMEOUT)];
    var s2 := Step(s1, Fire(0));
    assert w in s2.running;
    s3 := Step(s2, Leave(w));
  }

  /** A run of four events from the empty queue that ends with an overlap: the workflow is
      queued afresh behind the back of a retry that is past line 622. */
  lemma OverlapReachable(w: WorkflowId)
    ensures exists events ::
      NeverOverlaps(EMPTY, events) && Overlaps(Run(EMPTY, events), Finish(w, FailedLate))
      && OneTimer(Run(EMPTY, events))
  {
    assert OneTimer(EMPTY) && BackoffOk(EMPTY);
    hide *;
    var events := [Enqueue(w), Fire(0), Leave(w), Enqueue(w)];
    var s3 := LeftBehind(w);
    FreshEntry(s3, w);
    FourSteps(EMPTY, events);
    NoneFinishes(EMPTY, events);
    RunOneTimer(EMPTY, events);
  }

  lemma FourSteps(s: Queue, events: seq<Event>)
    requires |events| == 4
    ensures Run(s, events) == Step(Step(Step(Step(s, events[0]), events[1]), events[2]), events[3])
  {
    hide Step;
    RunUnfolds(s, events, 0);
    RunUnfolds(Step(s, events[0]), events, 1);
    RunUnfolds(Step(Step(s, events[0]), events[1]), events, 2);
    RunUnfolds(Step(Step(Step(s, events[0]), events[1]), events[2]), events, 3);
    assert events[0..] == events;
  }

  lemma FreshEntry(s: Queue, w: WorkflowId)
    requires w in s.leaving
    ensures Overlaps(Step(s, Enqueue(w)), Finish(w, FailedLate))
  {
  }

  lemma {:induction false} NoneFinishes(s: Queue, events: seq<Event>)
    requires forall e :: e in events ==> !e.Finish?
    ensures NeverOverlaps(s, events)
    decreases |events|
  {
    hide Step;
    if events != [] {
      assert events[0] in events;
      NoneFinishes(Step(s, events[0]), events[1..]);
    }
  }

  lemma RunUnfolds(s: Queue, events: seq<Event>, k: nat)
    requires k < |events|
    ensures Run(s, events[k..]) == Run(Step(s, events[k]), events[k + 1..])
    ensures k + 1 == |events| ==> Run(s, events[k..]) == Step(s, events[k])
  {
    hide Step;
    assert events[k..][0] == events[k] && events[k..][1..] == events[k + 1..];
  }

  // ---------- Whether it keeps trying ----------

  /** Some retry of the queued workflow is pending or on its way to line 622. */
  predicate KeepsTrying(s: Queue, w: WorkflowId) {
    w in s.entries && (s.entries[w].timer in s.armed || w in s.running)
  }

  /** The last chance to try again is spent: the workflow leaves the queue, by itself at line
      622 or otherwise, or its only retry ends by publishing a command, which leaves a dead
      entry behind. */
  predicate GivesUp(s: Queue, w: WorkflowId, e: Event)
    requires w in s.entries
  {
    || e == Dequeue(w)
    || (e == Leave(w) && w in s.running)
    || (e == Finish(w, OnlyPublished) && s.running[w] == 1 && s.entries[w].timer !in s.armed)
  }

  /** What happens to another workflow's entry does not matter. */
  lemma OtherKeepsTrying(s: Queue, w: WorkflowId, v: WorkflowId)
    requires BackoffOk(s) && w in s.entries && v != w
    ensures KeepsTrying(Remove(s, v), w) <==> KeepsTrying(s, w)
    ensures KeepsTrying(Fail(s, v), w) <==> KeepsTrying(s, w)
  {
    hide Delay, Backoff;
    assert EntryOk(s, w);
    if v in s.entries { assert EntryOk(s, v); }
  }

  lemma ArmKeepsTrying(s: Queue, w: WorkflowId, v: WorkflowId, delay: nat, count: nat)
    requires v == w || KeepsTrying(s, w)
    ensures KeepsTrying(Arm(s, v, delay, count), w)
  {
  }

  /** A failure never ends the retries, late or not, as long as the workflow is queued;
      leaving the queue and a publication in multi-main do, and nothing else does. */
  lemma StepKeepsTrying(s: Queue, w: WorkflowId, e: Event)
    requires BackoffOk(s) && KeepsTrying(s, w)
    ensures KeepsTrying(Step(s, e), w) <==> !GivesUp(s, w, e)
  {
    hide KeepsTrying, BackoffOk, Step;
    assert w in s.entries by { Queued(s, w); }
    match e {
      case Enqueue(v) => EnqueueKeepsTrying(s, w, v);
      case Dequeue(v) => DequeueKeepsTrying(s, w, v);
      case Fire(t) => FireKeepsTrying(s, w, t);
      case Leave(v) => LeaveKeepsTrying(s, w, v);
      case Finish(v, end) => FinishKeepsTrying(s, w, v, end);
    }
  }

  lemma Queued(s: Queue, w: WorkflowId)
    requires KeepsTrying(s, w)
    ensures w in s.entries
  {
  }

  lemma EnqueueKeepsTrying(s: Queue, w: WorkflowId, v: WorkflowId)
    requires BackoffOk(s) && KeepsTrying(s, w)
    ensures KeepsTrying(Step(s, Enqueue(v)), w)
  {
    hide KeepsTrying, BackoffOk, Arm, Remove;
    assert w in s.entries by { Queued(s, w); }
    if v != w { OtherKeepsTrying(s, w, v); }
    ArmKeepsTrying(Remove(s, v), w, v, INITIAL_TIMEOUT, 0);
  }

  lemma DequeueKeepsTrying(s: Queue, w: WorkflowId, v: WorkflowId)
    requires BackoffOk(s) && KeepsTrying(s, w)
    ensures KeepsTrying(Step(s, Dequeue(v)), w) <==> v != w
  {
    if v != w { OtherKeepsTrying(s, w, v); }
  }

  lemma FireKeepsTrying(s: Queue, w: WorkflowId, t: Timer)
    requires BackoffOk(s) && KeepsTrying(s, w)
    ensures KeepsTrying(Step(s, Fire(t)), w)
  {
    hide Delay;
    assert EntryOk(s, w);
  }

  lemma LeaveKeepsTrying(s: Queue, w: WorkflowId, v: WorkflowId)
    requires BackoffOk(s) && KeepsTrying(s, w)
    ensures KeepsTrying(Step(s, Leave(v)), w) <==> !(v == w && w in s.running)
  {
    if v != w && v in s.running { OtherKeepsTrying(s, w, v); }
  }

  lemma FinishKeepsTrying(s: Queue, w: WorkflowId, v: WorkflowId, end: End)
    requires BackoffOk(s) && KeepsTrying(s, w)
    ensures KeepsTrying(Step(s, Finish(v, end)), w) <==> !GivesUp(s, w, Finish(v, end))
  {
    if CanEnd(s, v, end) {
      SameBackoff(s, Taken(s, v, end));
      if v == w { OwnKeepsTrying(s, w, end); } else { OthersFinish(s, w, v, end); }
    }
  }

  lemma OwnKeepsTrying(s: Queue, w: WorkflowId, end: End)
    requires BackoffOk(s) && KeepsTrying(s, w) && CanEnd(s, w, end)
    ensures KeepsTrying(Ended(Taken(s, w, end), w, end), w) <==> !GivesUp(s, w, Finish(w, end))
  {
    hide Delay, Backoff;
    var left := Taken(s, w, end);
    if end.Failed? || end.FailedLate? {
      ArmKeepsTrying(left, w, w, Backoff(s.entries[w].lastTimeout), s.failures[w] + 1);
      hide Arm;
    } else {
      assert w in left.running <==> s.running[w] > (if Late(end) then 0 else 1);
    }
  }

  lemma OthersFinish(s: Queue, w: WorkflowId, v: WorkflowId, end: End)
    requires BackoffOk(Taken(s, v, end)) && KeepsTrying(s, w) && CanEnd(s, v, end) && v != w
    ensures KeepsTrying(Ended(Taken(s, v, end), v, end), w)
  {
    hide BackoffOk, Fail;
    assert KeepsTrying(Taken(s, v, end), w);
    OtherKeepsTrying(Taken(s, v, end), w, v);
  }

  /** Having left the queue, a retry that fails late is not tried again, and its handler
      throws, unless the workflow has been queued afresh since. */
  lemma LateFailure(s: Queue, w: WorkflowId)
    requires BackoffOk(s) && w in s.leaving
    ensures KeepsTrying(Step(s, Finish(w, FailedLate)), w) <==> w in s.entries
    ensures w !in s.entries ==> SameTimers(s, Step(s, Finish(w, FailedLate)))
  {
  }

  // ---------- Every retry ends once ----------

  function Starts(s: Queue, e: Event, w: WorkflowId): nat {
    if e.Fire? && e.timer in s.armed && s.armed[e.timer].workflow == w then 1 else 0
  }

  function Leaves(s: Queue, e: Event, w: WorkflowId): nat { if e == Leave(w) && w in s.running then 1 else 0 }

  /** A retry ends before line 622, by failing or by publishing, or after it. */
  function EndsEarly(s: Queue, e: Event, w: WorkflowId): nat {
    if (e == Finish(w, Failed) || e == Finish(w, OnlyPublished)) && w in s.running then 1 else 0
  }

  function EndsLate(s: Queue, e: Event, w: WorkflowId): nat {
    if (e == Finish(w, Activated) || e == Finish(w, FailedLate)) && w in s.leaving then 1 else 0
  }

  lemma TimersRunNothing(s: Queue, w: WorkflowId)
    ensures Remove(s, w).running == s.running && Remove(s, w).leaving == s.leaving
    ensures Fail(s, w).running == s.running && Fail(s, w).leaving == s.leaving
  {
    hide Backoff;
  }

  lemma TakenCounts(s: Queue, v: WorkflowId, end: End, w: WorkflowId)
    requires CanEnd(s, v, end)
    ensures Taken(s, v, end).running[w] == s.running[w] - (if v == w && !Late(end) then 1 else 0)
    ensures Taken(s, v, end).leaving[w] == s.leaving[w] - (if v == w && Late(end) then 1 else 0)
  {
  }

  lemma EndsWhere(s: Queue, v: WorkflowId, end: End, w: WorkflowId)
    ensures EndsEarly(s, Finish(v, end), w) == if CanEnd(s, v, end) && v == w && !Late(end) then 1 else 0
    ensures EndsLate(s, Finish(v, end), w) == if CanEnd(s, v, end) && v == w && Late(end) then 1 else 0
  {
  }

  lemma FinishUnderWay(s: Queue, v: WorkflowId, end: End, w: WorkflowId)
    ensures Step(s, Finish(v, end)).running[w] == s.running[w] - EndsEarly(s, Finish(v, end), w)
    ensures Step(s, Finish(v, end)).leaving[w] == s.leaving[w] - EndsLate(s, Finish(v, end), w)
  {
    hide Fail, Taken, CanEnd, Late, EndsEarly, EndsLate;
    EndsWhere(s, v, end, w);
    if CanEnd(s, v, end) {
      TakenCounts(s, v, end, w);
      TimersRunNothing(Taken(s, v, end), v);
    }
  }

  lemma LeaveUnderWay(s: Queue, v: WorkflowId, w: WorkflowId)
    ensures Step(s, Leave(v)).running[w] == s.running[w] - Leaves(s, Leave(v), w)
    ensures Step(s, Leave(v)).leaving[w] == s.leaving[w] + Leaves(s, Leave(v), w)
  {
    hide Remove;
  }

  lemma QueueUnderWay(s: Queue, e: Event, w: WorkflowId)
    requires e.Enqueue? || e.Dequeue? || e.Fire?
    ensures Step(s, e).running[w] == s.running[w] + Starts(s, e, w) && Step(s, e).leaving[w] == s.leaving[w]
  {
    hide Fail, Remove;
    if !e.Fire? { TimersRunNothing(s, e.workflow); }
  }

  lemma OneKind(s: Queue, e: Event, w: WorkflowId)
    ensures !e.Fire? ==> Starts(s, e, w) == 0
    ensures !e.Leave? ==> Leaves(s, e, w) == 0
    ensures !e.Finish? ==> EndsEarly(s, e, w) == 0 && EndsLate(s, e, w) == 0
  {
  }

  lemma StepUnderWay(s: Queue, e: Event, w: WorkflowId)
    ensures Step(s, e).running[w] == s.running[w] + Starts(s, e, w) - Leaves(s, e, w) - EndsEarly(s, e, w)
    ensures Step(s, e).leaving[w] == s.leaving[w] + Leaves(s, e, w) - EndsLate(s, e, w)
  {
    hide *;
    OneKind(s, e, w);
    match e {
      case Leave(v) => LeaveUnderWay(s, v, w);
      case Finish(v, end) => FinishUnderWay(s, v, end, w);
      case _ => QueueUnderWay(s, e, w);
    }
  }

  function Started(s: Queue, events: seq<Event>, w: WorkflowId): nat
    decreases |events|
  {
    if events == [] then 0 else Starts(s, events[0], w) + Started(Step(s, events[0]), events[1..], w)
  }

  function Over(s: Queue, events: seq<Event>, w: WorkflowId): nat
    decreases |events|
  {
    if events == [] then 0 else
    EndsEarly(s, events[0], w) + EndsLate(s, events[0], w) + Over(Step(s, events[0]), events[1..], w)
  }

  /** Over every interleaving the retries under way, on either side of line 622, are those
      that timers have started and that have not ended. */
  lemma {:induction false} RetriesConserved(s: Queue, events: seq<Event>, w: WorkflowId)
    ensures var t := Run(s, events);
            t.running[w] + t.leaving[w] + Over(s, events, w) == s.running[w] + s.leaving[w] + Started(s, events, w)
    decreases |events|
  {
    hide Step, Starts, EndsEarly, EndsLate, Leaves;
    if events != [] {
      StepUnderWay(s, events[0], w);
      RetriesConserved(Step(s, events[0]), events[1..], w);
    }
  }

  // ---------- The class ----------

  class ActivationQueue {
    var queuedActivations: map<WorkflowId, Entry>
    var armed: map<Timer, Pending>
    var running: multiset<WorkflowId>
    var leaving: multiset<WorkflowId>
    var nextTimer: Timer
    ghost var failures: map<WorkflowId, nat>

    ghost function State(): Queue
      reads this
    {
      Queue(queuedActivations, armed, running, leaving, nextTimer, failures)
    }

    ghost predicate Valid()
      reads this
    {
      failures.Keys == queuedActivations.Keys
    }

    constructor ()
      ensures Valid() && State() == EMPTY
    {
      queuedActivations, armed, nextTimer, failures := map[], map[], 0, map[];
      running, leaving := multiset{}, multiset{};
    }

    method SetTimeout(w: WorkflowId, delay: nat) returns (timer: Timer)
      modifies this`armed, this`nextTimer
      ensures timer == old(nextTimer) && nextTimer == timer + 1 && armed == old(armed)[timer := Pending(w, delay)]
    {
      timer := nextTimer;
      armed := armed[timer := Pending(w, delay)];
      nextTimer := nextTimer + 1;
    }

    method RemoveQueuedWorkflowActivation(w: WorkflowId)
      requires Valid()
      modifies this
      ensures Valid() && State() == Remove(old(State()), w)
    {
      if w in queuedActivations {
        armed := armed - {queuedActivations[w].timer};
        queuedActivations := queuedActivations - {w};
        failures := failures - {w};
      }
    }

    method RemoveAllQueuedWorkflowActivations()
      requires Valid()
      modifies this
      ensures Valid() && queuedActivations == map[] && running == old(running) && leaving == old(leaving)
      ensures armed == old(armed) - set w | w in old(queuedActivations) :: old(queuedActivations)[w].timer
    {
      ghost var cleared: set<Timer> := {};
      var ids := queuedActivations.Keys;
      while ids != {}
        invariant Valid() && ids == queuedActivations.Keys && running == old(running) && leaving == old(leaving)
        invariant forall w :: w in queuedActivations ==>
                  w in old(queuedActivations) && queuedActivations[w] == old(queuedActivations)[w]
        invariant armed == old(armed) - cleared
        invariant forall w :: w in old(queuedActivations) && w !in ids ==> old(queuedActivations)[w].timer in cleared
        invariant forall t :: t in cleared ==>
                  exists w :: w in old(queuedActivations) && old(queuedActivations)[w].timer == t
        decreases ids
      {
        var w :| w in ids;
        cleared := cleared + {queuedActivations[w].timer};
        RemoveQueuedWorkflowActivation(w);
        ids := ids - {w};
      }
      assert queuedActivations.Keys == {};
      assert cleared == set w | w in old(queuedActivations) :: old(queuedActivations)[w].timer;
    }

    method AddQueuedWorkflowActivation(w: WorkflowId)
      requires Valid()
      modifies this
      ensures Valid() && State() == Step(old(State()), Enqueue(w))
    {
      RemoveQueuedWorkflowActivation(w);
      var timer := SetTimeout(w, INITIAL_TIMEOUT);
      queuedActivations := queuedActivations[w := Entry(INITIAL_TIMEOUT, timer)];
      failures := failures[w := 0];
    }

    method OnTimeout(timer: Timer)
      requires Valid() && timer in armed
      modifies this
      ensures Valid() && State() == Step(old(State()), Fire(timer))
    {
      running := running + multiset{armed[timer].workflow};
      armed := armed - {timer};
    }

    /** Line 622 in a retry, with writes still to come. */
    method LeaveQueue(w: WorkflowId)
      requires Valid() && w in running
      modifies this
      ensures Valid() && State() == Step(old(State()), Leave(w))
    {
      RemoveQueuedWorkflowActivation(w);
      running := running - multiset{w};
      leaving := leaving + multiset{w};
    }

    /** The handler of a failed retry; a missing entry makes it throw. */
    method RetryLater(w: WorkflowId) returns (throws: bool)
      requires Valid()
      modifies `queuedActivations, `armed, `nextTimer, `failures
      ensures Valid() && State() == Fail(old(State()), w)
      ensures throws <==> w !in old(queuedActivations)
    {
      if w !in queuedActivations { return true; }
      var lastTimeout := queuedActivations[w].lastTimeout;
      if lastTimeout < MAX_TIMEOUT { lastTimeout := Min(lastTimeout * 2, MAX_TIMEOUT); }
      var timer := SetTimeout(w, lastTimeout);
      queuedActivations := queuedActivations[w := Entry(lastTimeout, timer)];
      failures := failures[w := failures[w] + 1];
      throws := false;
    }

    /** The end of the retry function. */
    method FinishRetry(w: WorkflowId, end: End) returns (throws: bool)
      requires Valid() && CanEnd(State(), w, end)
      modifies this
      ensures Valid() && State() == Step(old(State()), Finish(w, end))
      ensures throws <==> (end.Failed? || end.FailedLate?) && w !in old(queuedActivations)
    {
      throws := false;
      ghost var before := State();
      if end.Activated? || end.FailedLate? {
        leaving := leaving - multiset{w};
      } else {
        running := running - multiset{w};
      }
      assert State() == Taken(before, w, end);
      assert Step(before, Finish(w, end)) == Ended(State(), w, end);
      hide Fail, Step, Taken, CanEnd;
      if end.Failed? || end.FailedLate? { throws := RetryLater(w); }
    }
  }
}
