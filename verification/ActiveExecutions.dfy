/** The registry as the service that updates it in place
    (packages/cli/src/active-executions.ts). Each method is one uninterrupted step. */
module ActiveExecutionsService {
  import opened Options
  import opened ConcurrencyQueue
  import opened ExecutionRegistry
  import opened ExecutionLifecycle

  class ActiveExecutions {
    const regular: bool
    var enabled: bool
    var gates: map<QueueType, Gate>
    var runs: seq<Run>
    var activeExecutions: map<ExecutionId, nat>
    var responses: map<nat, Outcome>

    ghost function State(): Registry
      reads this
    {
      Registry(regular, enabled, gates, runs, activeExecutions, responses)
    }

    constructor (regular: bool, limits: map<QueueType, int>)
      ensures State() == Initial(regular, limits) && Inv(State())
    {
      this.regular := regular;
      var limited := map q | q in limits && limits[q] > 0 :: Gate(limits[q], limits[q], []);
      gates, enabled := limited, regular && limited != map[];
      runs, activeExecutions, responses := [], map[], map[];
      new;
      InitialInv(regular, limits);
    }

    /** A limit of zero is a configuration error, whatever the mode. */
    static method Create(regular: bool, limits: map<QueueType, int>) returns (r: Option<ActiveExecutions>)
      ensures r.None? <==> exists q :: q in limits && limits[q] == 0
      ensures r.Some? ==> fresh(r.value) && r.value.State() == Initial(regular, limits) && Inv(r.value.State())
    {
      if q :| q in limits && limits[q] == 0 { return None; }
      var created := new ActiveExecutions(regular, limits);
      r := Some(created);
    }

    predicate HasEntry(id: ExecutionId)
      reads this
    {
      id in activeExecutions && activeExecutions[id] < |runs|
    }

    method BeginAdd(id: ExecutionId, mode: Mode)
      modifies `gates, `runs
      ensures State() == Step(old(State()), DoBeginAdd(id, mode))
    {
      var phase := Admitted;
      var queue := QueueOf(mode);
      if enabled && queue.Some? && queue.value in gates {
        var (gate, proceeds) := TakeUnit(gates[queue.value], Waiter(id, |runs|));
        gates := gates[queue.value := gate];
        phase := if proceeds then Admitted else Queued;
      }
      runs := runs + [NewRun(id, mode, phase)];
    }

    method Register(i: nat, now: nat)
      requires i < |runs| && runs[i].phase == Admitted
      modifies `runs, `activeExecutions
      ensures State() == Step(old(State()), DoRegister(i, now))
    {
      var id := runs[i].id;
      var startedAt, response := now, None;
      if HasEntry(id) {
        var resuming := runs[activeExecutions[id]];
        startedAt, response := resuming.startedAt, resuming.response;
      }
      runs := runs[i := runs[i].(phase := Active, status := Running, startedAt := startedAt, response := response)];
      activeExecutions := activeExecutions[id := i];
    }

    /** `concurrencyControl.release` */
    method ReleaseUnit(mode: Mode)
      modifies `gates, `runs
      ensures State() == Release(old(State()), mode)
    {
      var queue := QueueOf(mode);
      if enabled && queue.Some? && queue.value in gates {
        var (gate, resumed) := GiveUnit(gates[queue.value]);
        gates := gates[queue.value := gate];
        if resumed.Some? && resumed.value < |runs| {
          runs := runs[resumed.value := runs[resumed.value].(phase := Admitted)];
        }
      }
    }

    method OnSettled(i: nat)
      requires Inv(State()) && CallbackDue(State(), i)
      modifies this
      ensures State() == Step(old(State()), DoCallback(i)) && Inv(State())
    {
      var run := runs[i];
      ReleaseRuns(State(), run.mode);
      StepInv(State(), DoCallback(i));
      ReleaseUnit(run.mode);
      if run.status == Waiting {
        runs := runs[i := run.(phase := Released, attached := false)];
      } else {
        activeExecutions := activeExecutions - {run.id};
        runs := runs[i := run.(phase := Released)];
      }
    }

    method StopExecution(id: ExecutionId)
      modifies this
      ensures State() == Step(old(State()), DoStop(id))
    {
      if !HasEntry(id) {
        return;
      }
      var i := activeExecutions[id];
      var run := runs[i];
      if run.response.Some? && run.response.value !in responses {
        responses := responses[run.response.value := Rejected];
      }
      if run.status == Waiting {
        activeExecutions := activeExecutions - {id};
      } else {
        if run.attached {
          run := run.(cancelled := true);
        }
        if run.settled.None? {
          run := run.(settled := Some(Rejected));
        }
        runs := runs[i := run];
      }
    }

    method FinalizeExecution(id: ExecutionId)
      modifies `runs
      ensures State() == Step(old(State()), DoFinalize(id))
    {
      if !HasEntry(id) {
        return;
      }
      var i := activeExecutions[id];
      if runs[i].settled.None? {
        runs := runs[i := runs[i].(settled := Some(Fulfilled))];
      }
    }

    /** Fails when there is no such entry. */
    method SetStatus(id: ExecutionId, status: Status) returns (found: bool)
      modifies `runs
      ensures State() == Step(old(State()), DoSetStatus(id, status)) && found == Has(old(State()), id)
    {
      found := HasEntry(id);
      if found {
        runs := runs[activeExecutions[id] := runs[activeExecutions[id]].(status := status)];
      }
    }

    method AttachResponsePromise(id: ExecutionId, promise: nat) returns (found: bool)
      modifies `runs
      ensures State() == Step(old(State()), DoAttachResponse(id, promise)) && found == Has(old(State()), id)
    {
      found := HasEntry(id);
      if found {
        runs := runs[activeExecutions[id] := runs[activeExecutions[id]].(response := Some(promise))];
      }
    }

    method AttachWorkflowExecution(id: ExecutionId) returns (found: bool)
      modifies `runs
      ensures State() == Step(old(State()), DoAttachWorkflow(id)) && found == Has(old(State()), id)
    {
      found := HasEntry(id);
      if found {
        runs := runs[activeExecutions[id] := runs[activeExecutions[id]].(attached := true)];
      }
    }

    method ResolveResponsePromise(id: ExecutionId)
      modifies `responses
      ensures State() == Step(old(State()), DoResolveResponse(id))
    {
      if HasEntry(id) {
        var promise := runs[activeExecutions[id]].response;
        if promise.Some? && promise.value !in responses {
          responses := responses[promise.value := Fulfilled];
        }
      }
    }

    /** Leaves the promise of a waiting execution for the resumed one to settle. */
    method ResolveExecutionResponsePromise(id: ExecutionId)
      modifies `responses
      ensures State() == if Has(old(State()), id) && Current(old(State()), id).status != Waiting
                         then Step(old(State()), DoResolveResponse(id)) else old(State())
    {
      if HasEntry(id) && runs[activeExecutions[id]].status != Waiting {
        ResolveResponsePromise(id);
      }
    }

    /** `concurrencyControl.remove` */
    method RemoveQueuedAdd(id: ExecutionId, mode: Mode)
      requires Inv(State())
      modifies `gates, `runs
      ensures State() == Step(old(State()), DoRemoveQueued(id, mode)) && Inv(State())
    {
      StepInv(State(), DoRemoveQueued(id, mode));
      RemoveInPlace(State(), id, mode);
      hide Inv, Step, RemoveWaiter, Position, RemoveQueued, QueueOf, Resume;
      var q := QueueOf(mode);
      if !enabled || q.None? || q.value !in gates { return; }
      var queue := gates[q.value].queue;
      var k := Position(queue, id);
      if k == |queue| { return; }
      var (gate, resumed) := RemoveWaiter(gates[q.value], id);
      gates := gates[q.value := gate];
      runs := Resume(runs[queue[k].run := runs[queue[k].run].(phase := Dropped)], resumed);
    }

    /** `concurrencyControl.removeAll`, over the waiters it enumerated */
    method RemoveAllQueued(waiters: seq<(ExecutionId, Mode)>)
      requires Inv(State())
      modifies `gates, `runs
      ensures State() == RemoveAll(old(State()), waiters) && Inv(State())
    {
      if !enabled { return; }
      ghost var goal := RemoveAll(State(), waiters);
      for k := 0 to |waiters|
        invariant Inv(State()) && enabled && goal == RemoveAll(State(), waiters[k..])
      {
        assert waiters[k..][0] == waiters[k] && waiters[k..][1..] == waiters[k + 1..];
        ghost var before := State();
        RemoveQueuedAdd(waiters[k].0, waiters[k].1);
        assert State() == RemoveQueued(before, waiters[k].0, waiters[k].1);
      }
    }

    /** Stops capacity from being given back, then passes once over the enumerated ids;
        `toCancel` lists the executions stopped on the way. */
    method ShutdownFirstPass(cancelAll: bool, executionIds: seq<ExecutionId>) returns (toCancel: seq<ExecutionId>)
      requires Inv(State()) && Enumerates(executionIds, State())
      modifies this
      ensures State() == ShutdownPass(Disabled(old(State())), cancelAll, executionIds)
      ensures forall id :: id in toCancel <==>
                id in executionIds && Has(old(State()), id)
                && (Current(old(State()), id).response.Some? || (regular && cancelAll))
    {
      hide Inv, Enumerates, ShutdownPass, Has, Current;
      ghost var before := State();
      if regular {
        enabled := false;
      }
      toCancel := [];
      ghost var start := State();
      assert start == Disabled(before);
      hide *;
      PassStarts(before, cancelAll, executionIds);
      for k := 0 to |executionIds|
        invariant Passing(start, State(), cancelAll, executionIds, k, toCancel)
      {
        PassSteps(start, State(), cancelAll, executionIds, k, toCancel);
        var stopped := ShutdownEntry(cancelAll, executionIds[k]);
        if stopped {
          toCancel := toCancel + [executionIds[k]];
        }
      }
      PassEnds(before, State(), cancelAll, executionIds, toCancel);
    }

    method ShutdownEntry(cancelAll: bool, id: ExecutionId) returns (stopped: bool)
      modifies this
      ensures State() == ShutdownOne(old(State()), cancelAll, id)
      ensures stopped == (Has(old(State()), id) && ToCancel(old(State()), cancelAll, Current(old(State()), id)))
    {
      stopped := false;
      if HasEntry(id) {
        var run := runs[activeExecutions[id]];
        if run.response.Some? || (regular && cancelAll) {
          StopExecution(id);
          stopped := true;
        } else if run.status == Waiting || run.status == New {
          activeExecutions := activeExecutions - {id};
        }
      }
    }

    /** The waiting loop: each sleep lets some pending callback run. */
    method AwaitActiveExecutions()
      requires Inv(State()) && !enabled && Drainable(State())
      modifies this
      ensures activeExecutions == map[]
    {
      while activeExecutions != map[]
        invariant Inv(State()) && !enabled && Drainable(State())
        decreases |Pending(State())|
      {
        hide Inv, Drainable, Callback;
        SomethingPending(State());
        ghost var due :| due in Pending(State());
        PendingMeans(State(), due);
        assert due < |runs| && runs[due].phase == Active && runs[due].settled.Some?;
        var i: nat :| i < |runs| && runs[i].phase == Active && runs[i].settled.Some?;
        DrainStep(State(), i);
        StepIsCallback(State(), i);
        DrainKeepsDrainable(State(), i);
        OnSettled(i);
      }
    }
  }

  /** The pass stops this entry. */
  predicate Cancels(s: Registry, cancelAll: bool, id: ExecutionId) {
    Has(s, id) && (Current(s, id).response.Some? || (s.regular && cancelAll))
  }

  /** After k ids: what is left of the pass, and what it has stopped so far. */
  ghost predicate Passing(start: Registry, s: Registry, cancelAll: bool, ids: seq<ExecutionId>, k: nat,
                          stopped: seq<ExecutionId>)
  {
    && k <= |ids| && Inv(s) && s.regular == start.regular
    && (forall i, j :: 0 <= i < j < |ids| ==> ids[i] != ids[j])
    && ShutdownPass(start, cancelAll, ids) == ShutdownPass(s, cancelAll, ids[k..])
    && (forall j :: k <= j < |ids| ==> Untouched(start, s, ids[j]))
    && (forall id :: id in stopped <==> id in ids[..k] && Cancels(start, cancelAll, id))
  }

  lemma PassStarts(s: Registry, cancelAll: bool, ids: seq<ExecutionId>)
    requires Inv(s) && Enumerates(ids, s)
    ensures Passing(Disabled(s), Disabled(s), cancelAll, ids, 0, [])
  {
    hide Inv, ShutdownPass, Cancels;
    DisableInv(s);
    forall j | 0 <= j < |ids| ensures Untouched(Disabled(s), Disabled(s), ids[j]) { EntryId(Disabled(s), ids[j]); }
    assert ids[0..] == ids;
  }

  lemma PassSteps(start: Registry, s: Registry, cancelAll: bool, ids: seq<ExecutionId>, k: nat,
                  stopped: seq<ExecutionId>)
    requires Passing(start, s, cancelAll, ids, k, stopped) && k < |ids|
    ensures var stops := Has(s, ids[k]) && ToCancel(s, cancelAll, Current(s, ids[k]));
            Passing(start, ShutdownOne(s, cancelAll, ids[k]), cancelAll, ids, k + 1,
                    if stops then stopped + [ids[k]] else stopped)
  {
    hide Inv, ShutdownOne, Cancels, Untouched, ToCancel;
    ShutdownOneInv(s, cancelAll, ids[k]);
    OneAddsNothing(s, cancelAll, ids[k]);
    assert ids[k..][0] == ids[k] && ids[k..][1..] == ids[k + 1..];
    forall j | k < j < |ids| ensures Untouched(start, ShutdownOne(s, cancelAll, ids[k]), ids[j]) {
      UntouchedOne(start, s, cancelAll, ids[k], ids[j]);
    }
    assert ids[..k + 1] == ids[..k] + [ids[k]];
    CancelsUntouched(start, s, cancelAll, ids[k]);
    hide ShutdownPass;
  }

  lemma PassEnds(s: Registry, t: Registry, cancelAll: bool, ids: seq<ExecutionId>, stopped: seq<ExecutionId>)
    requires Passing(Disabled(s), t, cancelAll, ids, |ids|, stopped)
    ensures t == ShutdownPass(Disabled(s), cancelAll, ids)
    ensures forall id :: id in stopped <==>
              id in ids && Has(s, id) && (Current(s, id).response.Some? || (s.regular && cancelAll))
  {
    hide Inv;
    assert ids[..|ids|] == ids && ids[|ids|..] == [];
  }

  lemma CancelsUntouched(s: Registry, t: Registry, cancelAll: bool, id: ExecutionId)
    requires Untouched(s, t, id) && s.regular == t.regular
    ensures Cancels(s, cancelAll, id) <==> Has(t, id) && ToCancel(t, cancelAll, Current(t, id))
  {
  }

  lemma UntouchedOne(s: Registry, t: Registry, cancelAll: bool, id: ExecutionId, other: ExecutionId)
    requires Inv(t) && Untouched(s, t, other) && id != other
    ensures Untouched(s, ShutdownOne(t, cancelAll, id), other)
  {
    hide Inv;
    OneLeavesOthers(t, cancelAll, id, other);
  }

  lemma RemoveInPlace(s: Registry, id: ExecutionId, mode: Mode)
    requires Inv(s)
    ensures var t, q := Step(s, DoRemoveQueued(id, mode)), QueueOf(mode);
            if !s.enabled || q.None? || q.value !in s.gates
               || Position(s.gates[q.value].queue, id) == |s.gates[q.value].queue|
            then t == s
            else
              var w, (gate, resumed) :=
                s.gates[q.value].queue[Position(s.gates[q.value].queue, id)].run, RemoveWaiter(s.gates[q.value], id);
              && w < |s.runs|
              && t == s.(gates := s.gates[q.value := gate],
                         runs := Resume(s.runs[w := s.runs[w].(phase := Dropped)], resumed))
  {
    hide Inv, RemoveWaiter, Resume;
    var q := QueueOf(mode);
    if s.enabled && q.Some? && q.value in s.gates {
      var k := Position(s.gates[q.value].queue, id);
      if k < |s.gates[q.value].queue| {
        InvAt(s, q.value);
        WaiterHolds(s, q.value, k);
      }
    }
  }

  lemma SomethingPending(s: Registry)
    requires Inv(s) && Drainable(s) && s.active != map[]
    ensures Pending(s) != {}
  {
    var id :| id in s.active;
    var i :| Clears(s, i, id);
    assert i in Pending(s);
  }

  lemma PendingMeans(s: Registry, i: nat)
    requires i in Pending(s)
    ensures CallbackDue(s, i)
  {
  }

  lemma DrainKeepsDrainable(s: Registry, i: nat)
    requires Inv(s) && !s.enabled && Drainable(s) && CallbackDue(s, i)
    ensures Drainable(Callback(s, i))
  {
    hide Inv, Callback;
    var t := Callback(s, i);
    DrainStep(s, i);
    forall id | id in t.active ensures exists j :: Clears(t, j, id) {
      assert id in s.active && !Clears(s, i, id);
      var j :| Clears(s, j, id);
      assert j != i && Clears(t, j, id);
    }
  }
}
