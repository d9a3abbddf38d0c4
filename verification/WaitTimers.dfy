/** The timer table of waiting executions (packages/cli/src/wait-tracker.ts). Every await is
    a step boundary: a poll's rows arrive in a step of their own, whenever that is. */
module WaitTimers {
  import opened Options

  type ExecutionId = string

  type Timer = nat

  /** `waiting` and `mainTimer` are the tracker's fields; `armed` and `intervals` are the
      timeouts and intervals the runtime still has to fire, each timeout with the
      execution its callback resumes. */
  datatype Tracker = Tracker(
    waiting: map<ExecutionId, Timer>,
    mainTimer: Option<Timer>,
    armed: map<Timer, ExecutionId>,
    intervals: set<Timer>,
    nextTimer: Timer)

  datatype Event =
    | StartTracking
    | PollResult(ids: seq<ExecutionId>)   // the rows of one query, however late they arrive
    | Fire(timer: Timer)                  // a timeout runs its callback
    | Stop(id: ExecutionId)               // stopExecution
    | Restart(id: ExecutionId)            // startExecution called for a parent
    | StopTracking

  const IDLE := Tracker(map[], None, map[], {}, 0)

  function Add(s: Tracker, id: ExecutionId): Tracker {
    if id in s.waiting then s
    else s.(waiting := s.waiting[id := s.nextTimer], armed := s.armed[s.nextTimer := id], nextTimer := s.nextTimer + 1)
  }

  function AddAll(s: Tracker, ids: seq<ExecutionId>): Tracker
    decreases |ids|
  {
    if ids == [] then s else AddAll(Add(s, ids[0]), ids[1..])
  }

  function Forget(s: Tracker, id: ExecutionId): Tracker { s.(waiting := s.waiting - {id}) }

  function StopOne(s: Tracker, id: ExecutionId): Tracker {
    if id !in s.waiting then s else Forget(s.(armed := s.armed - {s.waiting[id]}), id)
  }

  /** The timers go; the entries stay. */
  function StopAll(s: Tracker): Tracker {
    if s.mainTimer.None? then s
    else s.(intervals := s.intervals - {s.mainTimer.value}, armed := s.armed - s.waiting.Values)
  }

  function Step(s: Tracker, e: Event): Tracker {
    match e
    case StartTracking =>
      s.(mainTimer := Some(s.nextTimer), intervals := s.intervals + {s.nextTimer}, nextTimer := s.nextTimer + 1)
    case PollResult(ids) => AddAll(s, ids)
    case Fire(t) => if t in s.armed then Forget(s.(armed := s.armed - {t}), s.armed[t]) else s
    case Stop(id) => StopOne(s, id)
    case Restart(id) => Forget(s, id)
    case StopTracking => StopAll(s)
  }

  function Run(s: Tracker, events: seq<Event>): Tracker
    decreases |events|
  {
    if events == [] then s else Run(Step(s, events[0]), events[1..])
  }

  // ---------- The invariants ----------

  /** Timer names are handed out once. */
  ghost predicate Fresh(s: Tracker) {
    && (forall t :: t in s.armed ==> t < s.nextTimer)
    && (forall id :: id in s.waiting ==> s.waiting[id] < s.nextTimer)
    && (forall i :: i in s.intervals ==> i < s.nextTimer)
  }

  predicate LiveEntry(s: Tracker, id: ExecutionId)
    requires id in s.waiting
  {
    s.waiting[id] in s.armed && s.armed[s.waiting[id]] == id
  }

  /** Every entry's timer is armed, for that entry. */
  predicate AllArmed(s: Tracker) { forall id :: id in s.waiting ==> LiveEntry(s, id) }

  predicate Tracked(s: Tracker, t: Timer)
    requires t in s.armed
  {
    s.armed[t] in s.waiting && s.waiting[s.armed[t]] == t
  }

  /** Entries and armed timers correspond one to one. */
  predicate OneToOne(s: Tracker) { AllArmed(s) && forall t :: t in s.armed ==> Tracked(s, t) }

  predicate ArmedTwice(s: Tracker, id: ExecutionId) {
    exists t :: t in s.armed && exists u :: u in s.armed && t != u && s.armed[t] == id && s.armed[u] == id
  }

  lemma OneToOneArmsOnce(s: Tracker, id: ExecutionId)
    requires OneToOne(s)
    ensures !ArmedTwice(s, id)
  {
    forall t, u | t in s.armed && u in s.armed && s.armed[t] == id && s.armed[u] == id ensures t == u {
      assert Tracked(s, t) && Tracked(s, u);
    }
  }

  /** What a poll keeps, and what it brings: every execution found has an entry after it. */
  lemma {:induction false} AddAllKeeps(s: Tracker, ids: seq<ExecutionId>)
    requires Fresh(s)
    ensures Fresh(AddAll(s, ids))
    ensures AllArmed(s) ==> AllArmed(AddAll(s, ids))
    ensures OneToOne(s) ==> OneToOne(AddAll(s, ids))
    ensures forall id :: id in AddAll(s, ids).waiting <==> id in s.waiting || id in ids
    decreases |ids|
  {
    if ids != [] {
      AddKeeps(s, ids[0]);
      AddAllKeeps(Add(s, ids[0]), ids[1..]);
      assert forall id :: id in ids <==> id == ids[0] || id in ids[1..];
      hide OneToOne, AllArmed, Fresh;
    }
  }

  lemma AddKeeps(s: Tracker, id: ExecutionId)
    requires Fresh(s)
    ensures Fresh(Add(s, id))
    ensures AllArmed(s) ==> AllArmed(Add(s, id))
    ensures OneToOne(s) ==> OneToOne(Add(s, id))
    ensures Add(s, id).waiting.Keys == s.waiting.Keys + {id}
  {
    var next := Add(s, id);
    if id !in s.waiting && AllArmed(s) {
      forall other | other in next.waiting ensures LiveEntry(next, other) {
        if other != id { assert LiveEntry(s, other); }
      }
    }
    if id !in s.waiting && OneToOne(s) {
      forall t | t in next.armed ensures Tracked(next, t) {
        if t != s.nextTimer { assert Tracked(s, t); }
      }
    }
  }

  lemma StepFresh(s: Tracker, e: Event)
    requires Fresh(s)
    ensures Fresh(Step(s, e))
  {
    if e.PollResult? { AddAllKeeps(s, e.ids); }
  }

  /** A stepdown that finds entries. */
  predicate Strands(s: Tracker, e: Event) { e.StopTracking? && s.mainTimer.Some? && s.waiting != map[] }

  /** A direct start of an execution whose timer is still pending. */
  predicate Orphans(s: Tracker, e: Event) { e.Restart? && e.id in s.waiting }

  lemma SomeEntry(s: Tracker) returns (id: ExecutionId)
    requires s.waiting != map[]
    ensures id in s.waiting && s.waiting[id] in s.waiting.Values
  {
    id :| id in s.waiting;
  }

  /** Every entry stays armed across any step but a stepdown that finds entries. */
  lemma StepAllArmed(s: Tracker, e: Event)
    requires Fresh(s) && AllArmed(s)
    ensures AllArmed(Step(s, e)) <==> !Strands(s, e)
  {
    var next := Step(s, e);
    if Strands(s, e) {
      var id := SomeEntry(s);
      assert !LiveEntry(next, id);
    } else if e.PollResult? {
      AddAllKeeps(s, e.ids);
    } else {
      forall id | id in next.waiting ensures LiveEntry(next, id) {
        assert LiveEntry(s, id);
        if e.Stop? && e.id in s.waiting { assert LiveEntry(s, e.id); }
      }
    }
  }

  /** The correspondence survives any step but those two. */
  lemma StepOneToOne(s: Tracker, e: Event)
    requires Fresh(s) && OneToOne(s)
    ensures OneToOne(Step(s, e)) <==> !Strands(s, e) && !Orphans(s, e)
  {
    StepAllArmed(s, e);
    var next := Step(s, e);
    if Orphans(s, e) {
      assert LiveEntry(s, e.id);
      assert !Tracked(next, s.waiting[e.id]);
    } else if e.PollResult? {
      AddAllKeeps(s, e.ids);
    } else if !Strands(s, e) {
      forall t | t in next.armed ensures Tracked(next, t) {
        assert Tracked(s, t);
        if e.Fire? && e.timer in s.armed { assert Tracked(s, e.timer); }
      }
    }
  }

  ghost predicate NeverStrands(s: Tracker, events: seq<Event>)
    decreases |events|
  {
    events != [] ==> !Strands(s, events[0]) && NeverStrands(Step(s, events[0]), events[1..])
  }

  ghost predicate NeverOrphans(s: Tracker, events: seq<Event>)
    decreases |events|
  {
    events != [] ==> !Orphans(s, events[0]) && NeverOrphans(Step(s, events[0]), events[1..])
  }

  lemma {:induction false} RunAllArmed(s: Tracker, events: seq<Event>)
    requires Fresh(s) && AllArmed(s) && NeverStrands(s, events)
    ensures Fresh(Run(s, events)) && AllArmed(Run(s, events))
    decreases |events|
  {
    hide Step, AllArmed, Fresh;
    if events != [] {
      StepFresh(s, events[0]);
      StepAllArmed(s, events[0]);
      RunAllArmed(Step(s, events[0]), events[1..]);
    }
  }

  lemma {:induction false} RunOneToOne(s: Tracker, events: seq<Event>)
    requires Fresh(s) && OneToOne(s) && NeverStrands(s, events) && NeverOrphans(s, events)
    ensures OneToOne(Run(s, events))
    decreases |events|
  {
    hide Step, AllArmed, OneToOne, Fresh;
    if events != [] {
      StepFresh(s, events[0]);
      StepOneToOne(s, events[0]);
      RunOneToOne(Step(s, events[0]), events[1..]);
    }
  }

  /** From start-up, over every run of polls (overlapping ones included), firings, stops,
      restarts and stepdowns that find no entry: every entry's timer is armed, and without
      restarts of pending executions no execution is armed twice. */
  lemma TrackedFromStart(events: seq<Event>, id: ExecutionId)
    requires NeverStrands(IDLE, events)
    ensures AllArmed(Run(IDLE, events))
    ensures NeverOrphans(IDLE, events) ==> OneToOne(Run(IDLE, events)) && !ArmedTwice(Run(IDLE, events), id)
  {
    RunAllArmed(IDLE, events);
    if NeverOrphans(IDLE, events) {
      RunOneToOne(IDLE, events);
      OneToOneArmsOnce(Run(IDLE, events), id);
    }
  }

  /** The only interval running is the one a stepdown will clear. */
  predicate OneInterval(s: Tracker) { forall i :: i in s.intervals ==> s.mainTimer == Some(i) }

  lemma {:induction false} AddAllKeepsIntervals(s: Tracker, ids: seq<ExecutionId>)
    ensures AddAll(s, ids).intervals == s.intervals && AddAll(s, ids).mainTimer == s.mainTimer
    decreases |ids|
  {
    if ids != [] { AddAllKeepsIntervals(Add(s, ids[0]), ids[1..]); }
  }

  /** Starting to track while already tracking, and only that, leaks an interval. */
  lemma StepOneInterval(s: Tracker, e: Event)
    requires Fresh(s) && OneInterval(s)
    ensures OneInterval(Step(s, e)) <==> !(e.StartTracking? && s.intervals != {})
  {
    if e.PollResult? { AddAllKeepsIntervals(s, e.ids); }
    if e.StartTracking? && s.intervals != {} {
      var i :| i in s.intervals;
      assert i in Step(s, e).intervals && i != s.nextTimer;
    }
  }

  /** The poll is running. */
  predicate Polls(s: Tracker) { s.mainTimer.Some? && s.mainTimer.value in s.intervals }

  /** Polling begins when tracking starts and goes on until it stops. */
  lemma StepPolls(s: Tracker, e: Event)
    ensures Polls(Step(s, e)) <==> e.StartTracking? || (Polls(s) && !e.StopTracking?)
  {
    if e.PollResult? { AddAllKeepsIntervals(s, e.ids); }
  }

  /** A stepdown then leaves no interval behind. */
  lemma StopEndsPolling(s: Tracker)
    requires OneInterval(s) && s.mainTimer.Some?
    ensures Step(s, StopTracking).intervals == {}
  {
  }

  // ---------- Firing ----------

  /** An execution whose timer fires has neither an entry nor a timer any more; nothing
      changes for the others. */
  lemma FireTakesOff(s: Tracker, t: Timer, id: ExecutionId)
    requires OneToOne(s) && t in s.armed
    ensures var next := Step(s, Fire(t));
            && s.armed[t] !in next.waiting && t !in next.armed
            && (id != s.armed[t] ==> (id in next.waiting <==> id in s.waiting))
            && (id in next.waiting ==> LiveEntry(next, id))
            && forall u :: u in next.armed ==> next.armed[u] != s.armed[t]
  {
    var next := Step(s, Fire(t));
    assert Tracked(s, t);
    if id in next.waiting { assert LiveEntry(s, id); }
    forall u | u in next.armed ensures next.armed[u] != s.armed[t] { assert Tracked(s, u); }
  }

  /** How often the callback of `t` runs. */
  function Firings(s: Tracker, events: seq<Event>, t: Timer): nat
    decreases |events|
  {
    if events == [] then 0 else
    (if events[0] == Fire(t) && t in s.armed then 1 else 0) + Firings(Step(s, events[0]), events[1..], t)
  }

  predicate Spent(s: Tracker, t: Timer) { t < s.nextTimer && t !in s.armed }

  lemma {:induction false} AddAllKeepsSpent(s: Tracker, ids: seq<ExecutionId>, t: Timer)
    requires Spent(s, t)
    ensures Spent(AddAll(s, ids), t)
    decreases |ids|
  {
    if ids != [] { AddAllKeepsSpent(Add(s, ids[0]), ids[1..], t); }
  }

  lemma StepKeepsSpent(s: Tracker, e: Event, t: Timer)
    requires Spent(s, t)
    ensures Spent(Step(s, e), t)
  {
    if e.PollResult? { AddAllKeepsSpent(s, e.ids, t); }
  }

  lemma {:induction false} SpentForGood(s: Tracker, events: seq<Event>, t: Timer)
    requires Spent(s, t)
    ensures Firings(s, events, t) == 0 && Spent(Run(s, events), t)
    decreases |events|
  {
    hide Step;
    if events != [] {
      StepKeepsSpent(s, events[0], t);
      SpentForGood(Step(s, events[0]), events[1..], t);
    }
  }

  /** Over every run each timer resumes its execution at most once, restarts, overlapping
      polls and stepdowns included; one that has fired or was cleared never does again. */
  lemma {:induction false} FiresAtMostOnce(s: Tracker, events: seq<Event>, t: Timer)
    requires Fresh(s)
    ensures Firings(s, events, t) <= 1
    decreases |events|
  {
    if events != [] {
      StepFresh(s, events[0]);
      if events[0] == Fire(t) && t in s.armed {
        assert Spent(Step(s, events[0]), t);
        SpentForGood(Step(s, events[0]), events[1..], t);
      } else {
        FiresAtMostOnce(Step(s, events[0]), events[1..], t);
      }
    }
  }

  // ---------- What goes wrong otherwise ----------

  /** A restart of a pending execution followed by a poll that finds it arms it twice. */
  lemma RestartArmsTwice(s: Tracker, id: ExecutionId)
    requires Fresh(s) && id in s.waiting && LiveEntry(s, id)
    ensures ArmedTwice(Run(s, [Restart(id), PollResult([id])]), id)
  {
    var mid := Step(s, Restart(id));
    var last := AddAll(mid, [id]);
    assert last == Add(mid, id) by { assert [id][1..] == [] && AddAll(Add(mid, id), []) == Add(mid, id); }
    var events := [Restart(id), PollResult([id])];
    assert events[1..] == [events[1]] && Run(mid, events[1..]) == last by { assert events[1..][1..] == []; }
    assert s.waiting[id] in last.armed && last.waiting[id] in last.armed;
  }

  /** An entry without a timer, for which no other timer is pending. */
  predicate Stuck(s: Tracker, id: ExecutionId) {
    && id in s.waiting && s.waiting[id] !in s.armed
    && forall t :: t in s.armed ==> s.armed[t] != id
  }

  /** A stepdown leaves every entry stuck. */
  lemma StepdownStrands(s: Tracker, id: ExecutionId)
    requires OneToOne(s) && s.mainTimer.Some? && id in s.waiting
    ensures Stuck(Step(s, StopTracking), id)
  {
    var next := Step(s, StopTracking);
    forall t | t in s.armed ensures t in s.waiting.Values {
      assert Tracked(s, t) && s.waiting[s.armed[t]] in s.waiting.Values;
    }
    assert s.waiting[id] in s.waiting.Values;
  }

  lemma {:induction false} AddAllKeepsStuck(s: Tracker, ids: seq<ExecutionId>, id: ExecutionId)
    requires Fresh(s) && Stuck(s, id)
    ensures Stuck(AddAll(s, ids), id)
    decreases |ids|
  {
    if ids != [] {
      AddKeeps(s, ids[0]);
      AddAllKeepsStuck(Add(s, ids[0]), ids[1..], id);
    }
  }

  /** From then on no poll arms it again: it stays stuck exactly until it is stopped or
      restarted by name. */
  lemma StuckUntilNamed(s: Tracker, e: Event, id: ExecutionId)
    requires Fresh(s) && Stuck(s, id)
    ensures Stuck(Step(s, e), id) <==> e != Stop(id) && e != Restart(id)
  {
    if e.PollResult? { AddAllKeepsStuck(s, e.ids, id); }
  }

  // ---------- The class ----------

  class WaitTracker {
    var waitingExecutions: map<ExecutionId, Timer>
    var mainTimer: Option<Timer>
    var armed: map<Timer, ExecutionId>
    var intervals: set<Timer>
    var nextTimer: Timer

    function State(): Tracker
      reads this
    {
      Tracker(waitingExecutions, mainTimer, armed, intervals, nextTimer)
    }

    constructor ()
      ensures State() == IDLE
    {
      waitingExecutions, mainTimer, armed, intervals, nextTimer := map[], None, map[], {}, 0;
    }

    method SetTimeout(id: ExecutionId) returns (timer: Timer)
      modifies this`armed, this`nextTimer
      ensures timer == old(nextTimer) && nextTimer == timer + 1 && armed == old(armed)[timer := id]
    {
      timer := nextTimer;
      armed := armed[timer := id];
      nextTimer := nextTimer + 1;
    }

    method ClearTimeout(timer: Timer)
      modifies this`armed
      ensures armed == old(armed) - {timer}
    {
      armed := armed - {timer};
    }

    method Start()
      modifies this
      ensures State() == Step(old(State()), StartTracking)
    {
      mainTimer := Some(nextTimer);
      intervals := intervals + {nextTimer};
      nextTimer := nextTimer + 1;
    }

    method GetWaitingExecutions(executions: seq<ExecutionId>)
      modifies this
      ensures State() == Step(old(State()), PollResult(executions))
    {
      ghost var goal := AddAll(State(), executions);
      for i := 0 to |executions|
        invariant AddAll(State(), executions[i..]) == goal
      {
        assert executions[i..][0] == executions[i] && executions[i..][1..] == executions[i + 1..];
        if executions[i] !in waitingExecutions {
          var timer := SetTimeout(executions[i]);
          waitingExecutions := waitingExecutions[executions[i] := timer];
        }
      }
    }

    method StopExecution(id: ExecutionId)
      modifies this
      ensures State() == Step(old(State()), Stop(id))
    {
      if id !in waitingExecutions { return; }
      ClearTimeout(waitingExecutions[id]);
      waitingExecutions := waitingExecutions - {id};
    }

    method StartExecution(id: ExecutionId)
      modifies this`waitingExecutions
      ensures State() == Step(old(State()), Restart(id))
    {
      waitingExecutions := waitingExecutions - {id};
    }

    method OnTimeout(timer: Timer)
      requires timer in armed
      modifies this
      ensures State() == Step(old(State()), Fire(timer))
    {
      var id := armed[timer];
      armed := armed - {timer};
      StartExecution(id);
    }

    method StopTrackingTimers()
      modifies this`armed, this`intervals
      ensures State() == Step(old(State()), StopTracking)
    {
      if mainTimer.None? { return; }
      intervals := intervals - {mainTimer.value};
      ghost var before, cleared: set<Timer> := armed, {};
      var ids := waitingExecutions.Keys;
      while ids != {}
        invariant ids <= waitingExecutions.Keys && armed == before - cleared
        invariant forall id :: id in waitingExecutions && id !in ids ==> waitingExecutions[id] in cleared
        invariant cleared <= waitingExecutions.Values && intervals == old(intervals) - {mainTimer.value}
        decreases ids
      {
        var id :| id in ids;
        ClearTimeout(waitingExecutions[id]);
        cleared := cleared + {waitingExecutions[id]};
        ids := ids - {id};
      }
      assert cleared == waitingExecutions.Values;
    }
  }
}
