/** What the registry promises about one incarnation, about one id across waits and
    resumes, and about shutdown (packages/cli/src/active-executions.ts). */
module ExecutionLifecycle {
  import opened Options
  import opened ConcurrencyQueue
  import opened ExecutionRegistry

  // ---------- One incarnation ----------

  /** Runs in the pool keep their id and mode, and an incarnation whose callback has run
      never becomes due again. */
  ghost predicate Continues(a: Run, b: Run) {
    && b.id == a.id && b.mode == a.mode
    && (a.phase == Released ==> b.phase == Released)
    && (a.phase == Active ==> b.phase == Active || b.phase == Released)
    && (a.settled.Some? ==> b.settled == a.settled)
  }

  /** Removing from a queue only moves runs that were still queued. */
  lemma RemoveRuns(s: Registry, id: ExecutionId, mode: Mode, j: nat)
    requires Inv(s) && j < |s.runs|
    ensures var t := RemoveQueued(s, id, mode);
            |t.runs| == |s.runs| && (t.runs[j] == s.runs[j] || s.runs[j].phase == Queued)
            && Continues(s.runs[j], t.runs[j])
  {
    hide Consistent, RemoveWaiter, Lists, GateOk, Holders, Suspended, PoolInv, Resume, Lets, RunOk, Continues;
    var t := RemoveQueued(s, id, mode);
    RunsContinue(s.runs[j]);
    if t != s {
      var p := QueueOf(mode).value;
      assert GateInv(s, p);
      var (gate, resumed) := RemoveWaiter(s.gates[p], id);
      var k := Position(s.gates[p].queue, id);
      WaiterHolds(s, p, k);
      var i := s.gates[p].queue[k].run;
      RemoveResumes(s, id, p);
      DropSuspended(s.runs, i, p, p);
      var d := s.runs[i := s.runs[i].(phase := Dropped)];
      ResumeOthers(d, resumed, p);
      assert Lets(d[j], t.runs[j]);
      DroppedContinues(s, i);
      LetsMeans(d[j], t.runs[j]);
    }
  }

  lemma RunsContinue(a: Run)
    ensures Continues(a, a)
  {
  }

  lemma DroppedContinues(s: Registry, i: nat)
    requires Inv(s) && i < |s.runs| && s.runs[i].phase == Queued
    ensures Continues(s.runs[i], s.runs[i].(phase := Dropped))
  {
    assert RunOk(s.gates.Keys, s.runs[i]);
  }

  lemma LetsMeans(a: Run, b: Run)
    requires Lets(a, b)
    ensures Continues(a, b) && (b == a || a.phase == Queued)
    ensures a.phase == Dropped ==> b == a
  {
  }

  lemma CallbackRuns(s: Registry, i: nat, j: nat)
    requires Inv(s) && j < |s.runs|
    ensures var t := Callback(s, i);
            && |t.runs| == |s.runs| && Continues(s.runs[j], t.runs[j])
            && (CallbackDue(s, i) ==> t.runs[i].phase == Released && t.runs[i].status == s.runs[i].status)
            && (j != i ==> t.runs[j] == s.runs[j] || s.runs[j].phase == Queued)
            && (!CallbackDue(s, i) ==> t == s)
            && t.active
               == (if CallbackDue(s, i) && s.runs[i].status != Waiting then s.active - {s.runs[i].id} else s.active)
  {
    hide Release, Inv, Continues, Lets;
    RunsContinue(s.runs[j]);
    if CallbackDue(s, i) {
      var r := Release(s, s.runs[i].mode);
      ReleaseRuns(s, s.runs[i].mode);
      assert Lets(s.runs[i], r.runs[i]) && Lets(s.runs[j], r.runs[j]);
      LetsMeans(s.runs[i], r.runs[i]);
      LetsMeans(s.runs[j], r.runs[j]);
      ReleasedContinues(s.runs[i]);
    }
  }

  lemma ReleasedContinues(a: Run)
    requires a.phase == Active
    ensures forall b: Run ::
              b == a.(phase := Released) || b == a.(phase := Released, attached := false) ==> Continues(a, b)
  {
  }

  lemma SettlingContinues(s: Registry, e: Event, j: nat)
    requires j < |s.runs| && (e.DoStop? || e.DoFinalize?)
    ensures j < |Step(s, e).runs| && Continues(s.runs[j], Step(s, e).runs[j])
  {
    hide Settled;
  }

  lemma AttachingContinues(s: Registry, e: Event, j: nat)
    requires j < |s.runs| && (e.DoSetStatus? || e.DoAttachWorkflow? || e.DoAttachResponse? || e.DoResolveResponse?)
    ensures j < |Step(s, e).runs| && Continues(s.runs[j], Step(s, e).runs[j])
  {
    hide Settled, SettleOnce;
  }

  lemma AddStepContinues(s: Registry, e: Event, j: nat)
    requires Inv(s) && j < |s.runs| && (e.DoFailAdd? || e.DoRegister? || e.DoBeginAdd? || e.DoDisable?)
    ensures j < |Step(s, e).runs| && Continues(s.runs[j], Step(s, e).runs[j])
  {
    hide GateInv, TakeUnit;
    assert RunOk(s.gates.Keys, s.runs[j]);
  }

  lemma StepContinues(s: Registry, e: Event, j: nat)
    requires Inv(s) && j < |s.runs|
    ensures j < |Step(s, e).runs| && Continues(s.runs[j], Step(s, e).runs[j])
  {
    hide RemoveQueued, Callback, Inv, Continues, BeginAdd, Register, FailAdd, Stop, Finalize;
    match e
    case DoCallback(i) => CallbackRuns(s, i, j);
    case DoRemoveQueued(id, mode) => RemoveRuns(s, id, mode, j);
    case DoBeginAdd(_, _) => AddStepContinues(s, e, j);
    case DoRegister(_, _) => AddStepContinues(s, e, j);
    case DoFailAdd(_) => AddStepContinues(s, e, j);
    case DoDisable => AddStepContinues(s, e, j);
    case DoStop(_) => SettlingContinues(s, e, j);
    case DoFinalize(_) => SettlingContinues(s, e, j);
    case _ => AttachingContinues(s, e, j);
  }

  /** How often the callback of incarnation `i` takes effect, and so releases. */
  function Releases(s: Registry, es: seq<Event>, i: nat): nat
    decreases |es|
  {
    if es == [] then 0 else
    (if es[0] == DoCallback(i) && CallbackDue(s, i) then 1 else 0) + Releases(Step(s, es[0]), es[1..], i)
  }

  /** However often an execution is stopped or finalised, it releases at most once. */
  lemma {:induction false} ReleasedAtMostOnce(s: Registry, es: seq<Event>, i: nat)
    requires Inv(s)
    ensures Releases(s, es, i) <= 1
    ensures i < |s.runs| && s.runs[i].phase == Released ==> Releases(s, es, i) == 0
    decreases |es|
  {
    hide Inv, Step, Continues;
    if es != [] {
      StepInv(s, es[0]);
      ReleasedAtMostOnce(Step(s, es[0]), es[1..], i);
      if i < |s.runs| {
        StepContinues(s, es[0], i);
        if es[0] == DoCallback(i) { CallbackRuns(s, i, i); StepIsCallback(s, i); }
        ReleasedStays(s.runs[i], Step(s, es[0]).runs[i]);
      }
    }
  }

  lemma StepIsCallback(s: Registry, i: nat)
    ensures Step(s, DoCallback(i)) == Callback(s, i)
  {
  }

  lemma ReleasedStays(a: Run, b: Run)
    requires Continues(a, b)
    ensures a.phase == Released ==> b.phase == Released
  {
  }

  // ---------- Replaced incarnations ----------

  /** `i` has been registered and no id maps to it any more. */
  ghost predicate Retired(s: Registry, i: nat) {
    && i < |s.runs| && (s.runs[i].phase == Active || s.runs[i].phase == Released)
    && forall id :: id in s.active ==> s.active[id] != i
  }

  lemma StepRetired(s: Registry, e: Event, i: nat)
    requires Inv(s) && Retired(s, i)
    ensures Retired(Step(s, e), i) && Step(s, e).runs[i].status == s.runs[i].status
    ensures Step(s, e).runs[i].id == s.runs[i].id
  {
    hide RemoveQueued, Callback, Inv, BeginAdd, Register, FailAdd, Stop, Finalize, Retired, Continues;
    match e
    case DoCallback(k) => CallbackRetired(s, k, i);
    case DoRemoveQueued(id, mode) => RemoveRetired(s, id, mode, i);
    case DoBeginAdd(_, _) => AddRetired(s, e, i);
    case DoRegister(_, _) => AddRetired(s, e, i);
    case DoFailAdd(_) => AddRetired(s, e, i);
    case DoDisable => AddRetired(s, e, i);
    case _ => CurrentRetired(s, e, i);
  }

  lemma CallbackRetired(s: Registry, k: nat, i: nat)
    requires Inv(s) && Retired(s, i)
    ensures var t := Callback(s, k);
            Retired(t, i) && t.runs[i].status == s.runs[i].status && t.runs[i].id == s.runs[i].id
  {
    hide Callback, Inv;
    CallbackRuns(s, k, i);
  }

  lemma RemoveRetired(s: Registry, id: ExecutionId, mode: Mode, i: nat)
    requires Inv(s) && Retired(s, i)
    ensures var t := RemoveQueued(s, id, mode); Retired(t, i) && t.runs[i] == s.runs[i]
  {
    hide RemoveQueued, Inv;
    RemoveRuns(s, id, mode, i);
    RemoveKeepsMap(s, id, mode);
  }

  lemma AddRetired(s: Registry, e: Event, i: nat)
    requires Retired(s, i) && (e.DoFailAdd? || e.DoRegister? || e.DoBeginAdd? || e.DoDisable?)
    ensures var t := Step(s, e); Retired(t, i) && t.runs[i] == s.runs[i]
  {
    hide TakeUnit, QueueOf;
  }

  lemma CurrentRetired(s: Registry, e: Event, i: nat)
    requires Retired(s, i)
    requires e.DoStop? || e.DoFinalize? || e.DoSetStatus? || e.DoAttachWorkflow?
             || e.DoAttachResponse? || e.DoResolveResponse?
    ensures var t := Step(s, e); Retired(t, i) && t.runs[i] == s.runs[i]
  {
    hide Settled, SettleOnce;
  }

  lemma RemoveKeepsMap(s: Registry, id: ExecutionId, mode: Mode)
    ensures RemoveQueued(s, id, mode).active == s.active
  {
  }

  lemma {:induction false} TraceRetired(s: Registry, es: seq<Event>, i: nat)
    requires Inv(s) && Retired(s, i)
    ensures var t := Trace(s, es);
            Inv(t) && Retired(t, i) && t.runs[i].status == s.runs[i].status && t.runs[i].id == s.runs[i].id
    decreases |es|
  {
    hide Inv, Step;
    if es != [] {
      StepInv(s, es[0]);
      StepRetired(s, es[0], i);
      TraceRetired(Step(s, es[0]), es[1..], i);
    }
  }

  lemma RegisterRetires(s: Registry, i: nat, j: nat, now: nat)
    requires Inv(s) && j < |s.runs| && s.runs[j].phase == Admitted
    requires s.runs[j].id in s.active && s.active[s.runs[j].id] == i
    ensures var t := Register(s, j, now);
            Retired(t, i) && t.runs[i] == s.runs[i] && t.active == s.active[s.runs[j].id := j]
  {
    hide GateInv;
    forall id | id in s.active ensures EntryOk(s, id) {}
  }

  /** When `add` replaces the entry of an id, the late callback of the incarnation it
      replaced keeps whatever the id maps to by then, exactly when that incarnation was
      waiting at the moment it was replaced; it never changes what is recorded there. */
  lemma IncarnationSafety(s: Registry, i: nat, j: nat, now: nat, es: seq<Event>)
    requires Inv(s) && j < |s.runs| && s.runs[j].phase == Admitted
    requires s.runs[j].id in s.active && s.active[s.runs[j].id] == i
    ensures var id := s.runs[j].id;
            var t := Trace(Register(s, j, now), es);
            CallbackDue(t, i) && id in t.active ==>
              && (Callback(t, i).active == t.active <==> s.runs[i].status == Waiting)
              && (s.runs[i].status != Waiting ==> Callback(t, i).active == t.active - {id})
              && Has(t, id) && t.active[id] < |Callback(t, i).runs|
              && Callback(t, i).runs[t.active[id]] == Current(t, id)
  {
    hide Inv, Register, Callback, Trace;
    var id, u := s.runs[j].id, Register(s, j, now);
    RegisterRetires(s, i, j, now);
    EntryId(s, id);
    StepInv(s, DoRegister(j, now));
    StepIsRegister(s, j, now);
    TraceRetired(u, es, i);
    var t := Trace(u, es);
    CallbackRuns(t, i, i);
    if id in t.active {
      EntryId(t, id);
      CallbackRuns(t, i, t.active[id]);
    }
  }

  lemma StepIsRegister(s: Registry, j: nat, now: nat)
    ensures Step(s, DoRegister(j, now)) == Register(s, j, now)
  {
  }

  lemma EntryId(s: Registry, id: ExecutionId)
    requires Inv(s) && id in s.active
    ensures Has(s, id) && Current(s, id).id == id
    ensures (Current(s, id).phase == Active || Current(s, id).phase == Released)
  {
    assert EntryOk(s, id);
  }

  // ---------- One id across waits and resumes ----------

  ghost predicate Throughout(s: Registry, es: seq<Event>, id: ExecutionId)
    decreases |es|
  {
    id in s.active && (es != [] ==> Throughout(Step(s, es[0]), es[1..], id))
  }

  predicate AttachesTo(es: seq<Event>, id: ExecutionId) {
    exists k :: 0 <= k < |es| && es[k].DoAttachResponse? && es[k].id == id
  }

  lemma StepCarries(s: Registry, e: Event, id: ExecutionId)
    requires Inv(s) && id in s.active && id in Step(s, e).active
    ensures Has(s, id) && Has(Step(s, e), id)
    ensures Current(Step(s, e), id).startedAt == Current(s, id).startedAt
    ensures !(e.DoAttachResponse? && e.id == id) ==> Current(Step(s, e), id).response == Current(s, id).response
  {
    hide RemoveQueued, Callback, Inv, BeginAdd, Register, FailAdd, Stop, Finalize;
    EntryId(s, id);
    match e
    case DoCallback(k) => CallbackCarries(s, k, id);
    case DoRemoveQueued(d, mode) => RemoveRuns(s, d, mode, s.active[id]); RemoveKeepsMap(s, d, mode);
    case DoFailAdd(_) => AddCarries(s, e, id);
    case DoRegister(_, _) => AddCarries(s, e, id);
    case DoBeginAdd(_, _) => AddCarries(s, e, id);
    case DoDisable =>
    case _ => CurrentCarries(s, e, id);
  }

  lemma AddCarries(s: Registry, e: Event, id: ExecutionId)
    requires Inv(s) && id in s.active && (e.DoFailAdd? || e.DoRegister? || e.DoBeginAdd?)
    ensures Has(s, id) && Has(Step(s, e), id)
    ensures Current(Step(s, e), id).startedAt == Current(s, id).startedAt
    ensures Current(Step(s, e), id).response == Current(s, id).response
  {
    hide TakeUnit, QueueOf, Inv;
    EntryId(s, id);
  }

  lemma CurrentCarries(s: Registry, e: Event, id: ExecutionId)
    requires Inv(s) && id in s.active && id in Step(s, e).active
    requires e.DoStop? || e.DoFinalize? || e.DoSetStatus? || e.DoAttachWorkflow?
             || e.DoAttachResponse? || e.DoResolveResponse?
    ensures Has(s, id) && Has(Step(s, e), id)
    ensures Current(Step(s, e), id).startedAt == Current(s, id).startedAt
    ensures !(e.DoAttachResponse? && e.id == id) ==> Current(Step(s, e), id).response == Current(s, id).response
  {
    hide Inv, Settled, SettleOnce, Stop, Step;
    EntryId(s, id);
    if e.DoStop? {
      StepIsStop(s, e.id);
      StopCarries(s, e.id, id);
    } else {
      if Has(s, e.id) && e.id != id { EntryDiffers(s, id, e.id); }
      UpdateCarries(s, e, id);
    }
  }

  lemma UpdateCarries(s: Registry, e: Event, id: ExecutionId)
    requires e.DoFinalize? || e.DoSetStatus? || e.DoAttachWorkflow? || e.DoAttachResponse? || e.DoResolveResponse?
    requires Has(s, id) && (Has(s, e.id) && e.id != id ==> s.active[e.id] != s.active[id])
    ensures Has(Step(s, e), id) && Current(Step(s, e), id).startedAt == Current(s, id).startedAt
    ensures !(e.DoAttachResponse? && e.id == id) ==> Current(Step(s, e), id).response == Current(s, id).response
  {
    hide Settled, SettleOnce;
  }

  lemma StopCarries(s: Registry, stopped: ExecutionId, id: ExecutionId)
    requires Has(s, id) && id in Stop(s, stopped).active
    ensures Has(Stop(s, stopped), id)
    ensures Current(Stop(s, stopped), id).startedAt == Current(s, id).startedAt
    ensures Current(Stop(s, stopped), id).response == Current(s, id).response
  {
    hide Settled, SettleOnce;
  }

  lemma EntryDiffers(s: Registry, id: ExecutionId, other: ExecutionId)
    requires Inv(s) && id in s.active && other in s.active && other != id
    ensures s.active[other] != s.active[id]
  {
    EntryId(s, id);
    EntryId(s, other);
  }

  lemma CallbackCarries(s: Registry, k: nat, id: ExecutionId)
    requires Inv(s) && Has(s, id) && id in Callback(s, k).active
    ensures Has(Callback(s, k), id)
    ensures Current(Callback(s, k), id).startedAt == Current(s, id).startedAt
    ensures Current(Callback(s, k), id).response == Current(s, id).response
  {
    hide Release, Inv, Lets;
    CallbackRuns(s, k, s.active[id]);
    EntryId(s, id);
    if CallbackDue(s, k) {
      ReleaseRuns(s, s.runs[k].mode);
      var r := Release(s, s.runs[k].mode);
      assert Lets(s.runs[s.active[id]], r.runs[s.active[id]]);
      LetsMeans(s.runs[s.active[id]], r.runs[s.active[id]]);
    }
  }

  /** As long as an id stays in the map, its start time survives any number of waits and
      resumes, and so does its response promise unless a new one is attached. */
  lemma {:induction false} CarriedOver(s: Registry, es: seq<Event>, id: ExecutionId)
    requires Inv(s) && Throughout(s, es, id)
    ensures Has(s, id) && Has(Trace(s, es), id)
    ensures Current(Trace(s, es), id).startedAt == Current(s, id).startedAt
    ensures !AttachesTo(es, id) ==> Current(Trace(s, es), id).response == Current(s, id).response
    decreases |es|
  {
    hide Inv, Step;
    EntryId(s, id);
    if es != [] {
      assert id in Step(s, es[0]).active;
      StepInv(s, es[0]);
      StepCarries(s, es[0], id);
      CarriedOver(Step(s, es[0]), es[1..], id);
      AttachesLater(es, id);
    }
  }

  lemma AttachesLater(es: seq<Event>, id: ExecutionId)
    requires es != []
    ensures AttachesTo(es, id) <==> (es[0].DoAttachResponse? && es[0].id == id) || AttachesTo(es[1..], id)
  {
    if k :| 0 <= k < |es[1..]| && es[1..][k].DoAttachResponse? && es[1..][k].id == id
    { assert es[k + 1] == es[1..][k]; }
    if k :| 0 <= k < |es| && es[k].DoAttachResponse? && es[k].id == id { if k > 0 { assert es[1..][k - 1] == es[k]; } }
  }

  /** Stopping an execution that is waiting removes its entry at once and leaves its
      promise as it was: if it has not been finalised by then it stays pending, and so
      the unit it holds is not released by this stop. */
  lemma StopWhileWaiting(s: Registry, id: ExecutionId)
    requires Has(s, id) && Current(s, id).status == Waiting
    ensures id !in Stop(s, id).active && Stop(s, id).runs == s.runs && Stop(s, id).gates == s.gates
    ensures forall other :: other != id ==> (other in Stop(s, id).active <==> other in s.active)
  {
  }

  /** Stopped while waiting and never finalised: no later event can settle the promise,
      so the callback never becomes due and the unit is held for good. */
  lemma {:induction false} StoppedWaitingHoldsForever(s: Registry, es: seq<Event>, i: nat)
    requires Inv(s) && Retired(s, i) && s.runs[i].phase == Active && s.runs[i].settled.None?
    ensures var t := Trace(s, es); i < |t.runs| && t.runs[i].phase == Active && t.runs[i].settled.None?
    ensures Releases(s, es, i) == 0
    decreases |es|
  {
    hide Inv, Step;
    if es != [] {
      StepInv(s, es[0]);
      StepRetired(s, es[0], i);
      StepLeavesPending(s, es[0], i);
      StoppedWaitingHoldsForever(Step(s, es[0]), es[1..], i);
    }
  }

  /** Stopping is the last word on an unsettled incarnation: over every later run its
      promise settles if and only if it was not waiting when it was stopped, and if it was
      waiting its unit is never released. */
  lemma StopFate(s: Registry, id: ExecutionId, es: seq<Event>)
    requires Inv(s) && id in s.active
    requires Has(s, id) && Current(s, id).phase == Active && Current(s, id).settled.None?
    ensures var i, t := s.active[id], Trace(Stop(s, id), es);
            i < |t.runs| && (t.runs[i].settled.Some? <==> Current(s, id).status != Waiting)
    ensures Current(s, id).status == Waiting ==> Releases(Stop(s, id), es, s.active[id]) == 0
  {
    hide Inv, Trace, Releases, Continues;
    var i, u := s.active[id], Stop(s, id);
    StepInv(s, DoStop(id));
    StepIsStop(s, id);
    if Current(s, id).status == Waiting {
      StopRetires(s, id);
      hide Stop;
      StoppedWaitingHoldsForever(u, es, i);
    } else {
      assert u.runs[i].settled.Some?;
      hide Stop;
      TraceContinues(u, es, i);
    }
  }

  /** The first settlement decides: finalised first, an execution is fulfilled over every
      later run; stopped first while it is not waiting, rejected. */
  lemma FirstSettlementDecides(s: Registry, id: ExecutionId, es: seq<Event>)
    requires Inv(s) && Has(s, id) && Current(s, id).settled.None?
    ensures var i, t := s.active[id], Trace(Step(s, DoFinalize(id)), es);
            i < |t.runs| && t.runs[i].settled == Some(Fulfilled)
    ensures Current(s, id).status != Waiting ==>
              var i, t := s.active[id], Trace(Step(s, DoStop(id)), es);
              i < |t.runs| && t.runs[i].settled == Some(Rejected)
  {
    hide Inv, Trace;
    StepInv(s, DoFinalize(id));
    StepInv(s, DoStop(id));
    TraceContinues(Step(s, DoFinalize(id)), es, s.active[id]);
    TraceContinues(Step(s, DoStop(id)), es, s.active[id]);
  }

  /** A stop cancels the workflow that is attached to a running execution, and does not
      reach one that was attached before a wait. */
  lemma StopCancels(s: Registry, id: ExecutionId)
    requires Has(s, id) && Current(s, id).status != Waiting && !Current(s, id).cancelled
    ensures Has(Step(s, DoStop(id)), id)
    ensures Current(Step(s, DoStop(id)), id).cancelled <==> Current(s, id).attached
    ensures var t := Step(Step(s, DoAttachWorkflow(id)), DoStop(id)); Has(t, id) && Current(t, id).cancelled
  {
  }

  lemma WaitDetaches(s: Registry, i: nat)
    requires CallbackDue(s, i) && s.runs[i].status == Waiting && |Release(s, s.runs[i].mode).runs| == |s.runs|
    ensures i < |Step(s, DoCallback(i)).runs| && !Step(s, DoCallback(i)).runs[i].attached
  {
    hide Release;
  }

  lemma StepKeepsLost(s: Registry, e: Event, i: nat)
    requires Inv(s) && i < |s.runs| && s.runs[i].phase == Lost
    ensures i < |Step(s, e).runs| && Step(s, e).runs[i].phase == Lost && Step(s, e).runs[i].mode == s.runs[i].mode
  {
    hide RemoveQueued, Callback, Inv, BeginAdd, Register, FailAdd, Stop, Finalize, Settled, SettleOnce;
    match e
    case DoCallback(k) => CallbackKeepsLost(s, k, i);
    case DoRemoveQueued(id, mode) => RemoveRuns(s, id, mode, i);
    case _ => StepContinues(s, e, i); OtherKeepsLost(s, e, i);
  }

  lemma CallbackKeepsLost(s: Registry, k: nat, i: nat)
    requires Inv(s) && i < |s.runs| && s.runs[i].phase == Lost
    ensures i < |Callback(s, k).runs| && Callback(s, k).runs[i] == s.runs[i]
  {
    hide Callback, Inv;
    CallbackRuns(s, k, i);
    if k == i { NotDue(s, k); }
  }

  lemma OtherKeepsLost(s: Registry, e: Event, i: nat)
    requires Inv(s) && i < |s.runs| && s.runs[i].phase == Lost && !e.DoCallback? && !e.DoRemoveQueued?
    ensures i < |Step(s, e).runs| && Step(s, e).runs[i].phase == Lost
  {
    hide GateInv, TakeUnit, Settled, SettleOnce;
    if e.DoStop? || e.DoFinalize? || e.DoSetStatus? || e.DoAttachWorkflow? || e.DoAttachResponse? {
      if e.id in s.active { EntryId(s, e.id); }
    }
  }

  /** An add whose repository write fails after throttling keeps its unit for good. */
  lemma {:induction false} LostHoldsForever(s: Registry, es: seq<Event>, i: nat, q: QueueType)
    requires Inv(s) && i < |s.runs| && s.runs[i].phase == Lost && QueueOf(s.runs[i].mode) == Some(q)
    ensures i in Through(Trace(s, es).runs, q)
    decreases |es|
  {
    hide Inv, Step, QueueOf;
    if es != [] {
      StepInv(s, es[0]);
      StepKeepsLost(s, es[0], i);
      LostHoldsForever(Step(s, es[0]), es[1..], i, q);
    }
  }

  lemma FailedAddKeepsUnit(s: Registry, i: nat, es: seq<Event>, q: QueueType)
    requires Inv(s) && i < |s.runs| && s.runs[i].phase == Admitted && QueueOf(s.runs[i].mode) == Some(q)
    ensures i in Through(Trace(Step(s, DoFailAdd(i)), es).runs, q)
  {
    StepInv(s, DoFailAdd(i));
    assert Step(s, DoFailAdd(i)).runs[i].phase == Lost;
    hide Inv, Step, QueueOf;
    LostHoldsForever(Step(s, DoFailAdd(i)), es, i, q);
  }

  /** A response promise that has settled stays settled the same way. */
  lemma {:induction false} TraceKeepsResponse(s: Registry, es: seq<Event>, p: nat)
    requires p in s.responses
    ensures p in Trace(s, es).responses && Trace(s, es).responses[p] == s.responses[p]
    decreases |es|
  {
    hide Step;
    if es != [] {
      StepKeepsResponse(s, es[0], p);
      TraceKeepsResponse(Step(s, es[0]), es[1..], p);
    }
  }

  lemma StepKeepsResponse(s: Registry, e: Event, p: nat)
    requires p in s.responses
    ensures p in Step(s, e).responses && Step(s, e).responses[p] == s.responses[p]
  {
    hide TakeUnit, GiveUnit, RemoveWaiter, Resume, SettleOnce, QueueOf;
  }

  /** The same for the response promise: stopping rejects it, waiting or not, and resolving
      fulfils it, for good. */
  lemma ResponseSettlement(s: Registry, id: ExecutionId, es: seq<Event>, p: nat)
    requires Has(s, id) && Current(s, id).response == Some(p) && p !in s.responses
    ensures var t := Trace(Step(s, DoStop(id)), es); p in t.responses && t.responses[p] == Rejected
    ensures var t := Trace(Step(s, DoResolveResponse(id)), es); p in t.responses && t.responses[p] == Fulfilled
  {
    hide Trace, SettleOnce;
    TraceKeepsResponse(Step(s, DoStop(id)), es, p);
    TraceKeepsResponse(Step(s, DoResolveResponse(id)), es, p);
  }

  /** A promise that is attached is the one that gets settled, replacing any earlier one. */
  lemma AttachedPromise(s: Registry, id: ExecutionId, es: seq<Event>, p: nat)
    requires Has(s, id) && p !in s.responses
    ensures var t := Trace(Step(Step(s, DoAttachResponse(id, p)), DoStop(id)), es);
            p in t.responses && t.responses[p] == Rejected
    ensures var t := Trace(Step(Step(s, DoAttachResponse(id, p)), DoResolveResponse(id)), es);
            p in t.responses && t.responses[p] == Fulfilled
  {
    var a := Step(s, DoAttachResponse(id, p));
    assert Has(a, id) && Current(a, id).response == Some(p);
    hide Step, Trace;
    ResponseSettlement(a, id, es, p);
  }

  /** An execution that holds the only production slot starts to wait. */
  function WaitBegins(x: ExecutionId): seq<Event> {
    [DoBeginAdd(x, Webhook), DoRegister(0, 7), DoSetStatus(x, Waiting)]
  }

  lemma WaitBegun(x: ExecutionId) returns (s3: Registry)
    ensures s3 == Trace(Initial(true, map[Production := 1]), WaitBegins(x)) && s3.active == map[x := 0]
    ensures s3.runs == [NewRun(x, Webhook, Active).(startedAt := 7, status := Waiting)]
  {
    var s0, es := Initial(true, map[Production := 1]), WaitBegins(x);
    assert Production in s0.gates && s0.gates[Production] == Gate(1, 1, []) && s0.enabled && s0.runs == [];
    assert s0.active == map[];
    hide Initial;
    WebhookAdd(s0, x, Gate(1, 1, []));
    var s1, s2 := Step(s0, es[0]), Step(Step(s0, es[0]), es[1]);
    s3 := Step(s2, es[2]);
    assert s1.runs == [NewRun(x, Webhook, Admitted)];
    assert s2.runs == [NewRun(x, Webhook, Active).(startedAt := 7, status := Running)];
    hide Step;
    TraceUnfolds(s0, es, 0);
    TraceUnfolds(s1, es, 1);
    TraceUnfolds(s2, es, 2);
    assert es[0..] == es;
  }

  /** Such a stop can happen: four events from the start, and the only production slot is
      taken over every later run, by an execution whose promise never settles. */
  lemma SlotLost(x: ExecutionId, es: seq<Event>)
    ensures var t := Trace(Stop(Trace(Initial(true, map[Production := 1]), WaitBegins(x)), x), es);
            && 0 in Through(t.runs, Production) && t.runs[0].settled.None?
            && Production in t.gates && (t.enabled ==> t.gates[Production].capacity <= 0)
  {
    var s0 := Initial(true, map[Production := 1]);
    assert Production in s0.gates && s0.gates[Production].limit == 1;
    hide *;
    var s := WaitBegun(x);
    InitialInv(true, map[Production := 1]);
    TraceInv(s0, WaitBegins(x));
    TraceExcess(s0, WaitBegins(x), Production);
    WaitingEntry(s, x);
    StepInv(s, DoStop(x));
    StepIsStop(s, x);
    StoppedWaitingHoldsForever(Stop(s, x), es, 0);
    TraceInv(Stop(s, x), es);
    TraceExcess(Stop(s, x), es, Production);
    TraceContinues(Stop(s, x), es, 0);
    StillThrough(Trace(Stop(s, x), es), 0);
    if Trace(Stop(s, x), es).enabled { Conserved(Trace(Stop(s, x), es), Production); }
  }

  lemma WaitingEntry(s: Registry, x: ExecutionId)
    requires Inv(s) && s.active == map[x := 0]
    requires s.runs == [NewRun(x, Webhook, Active).(startedAt := 7, status := Waiting)]
    ensures Has(s, x) && Current(s, x).status == Waiting && Retired(Stop(s, x), 0)
    ensures var u := Stop(s, x);
            && |u.runs| == 1 && u.runs[0].mode == Webhook && u.runs[0].phase == Active && u.runs[0].settled.None?
            && u.gates == s.gates
  {
    hide Inv, Retired;
    StopRetires(s, x);
  }

  lemma StillThrough(s: Registry, i: nat)
    requires i < |s.runs| && s.runs[i].mode == Webhook && s.runs[i].phase == Active
    ensures i in Through(s.runs, Production) && |Holders(s.runs, Production)| > 0
  {
    assert i in Holders(s.runs, Production);
  }

  lemma StopRetires(s: Registry, id: ExecutionId)
    requires Inv(s) && Has(s, id) && Current(s, id).status == Waiting
    ensures Retired(Stop(s, id), s.active[id])
  {
    hide Inv;
    EntryId(s, id);
    forall other | other in s.active && other != id
      ensures s.active[other] != s.active[id]
    {
      EntryDiffers(s, id, other);
    }
  }

  /** A settled promise stays settled the same way. */
  lemma {:induction false} TraceContinues(s: Registry, es: seq<Event>, i: nat)
    requires Inv(s) && i < |s.runs|
    ensures i < |Trace(s, es).runs| && Trace(s, es).runs[i].mode == s.runs[i].mode
    ensures s.runs[i].settled.Some? ==> Trace(s, es).runs[i].settled == s.runs[i].settled
    decreases |es|
  {
    hide Inv, Step;
    if es != [] {
      StepInv(s, es[0]);
      StepContinues(s, es[0], i);
      TraceContinues(Step(s, es[0]), es[1..], i);
    }
  }

  lemma StepLeavesPending(s: Registry, e: Event, i: nat)
    requires Inv(s) && Retired(s, i) && s.runs[i].phase == Active && s.runs[i].settled.None?
    ensures i < |Step(s, e).runs| && Step(s, e).runs[i].phase == Active && Step(s, e).runs[i].settled.None?
  {
    hide RemoveQueued, Callback, Inv, BeginAdd, Register, FailAdd, Stop, Finalize, Continues;
    match e
    case DoCallback(k) => if k != i { CallbackRuns(s, k, i); } else { NotDue(s, i); }
    case DoRemoveQueued(id, mode) => RemoveRetired(s, id, mode, i);
    case DoBeginAdd(_, _) => AddRetired(s, e, i);
    case DoRegister(_, _) => AddRetired(s, e, i);
    case DoFailAdd(_) => AddRetired(s, e, i);
    case DoDisable => AddRetired(s, e, i);
    case _ => CurrentRetired(s, e, i);
  }

  lemma NotDue(s: Registry, i: nat)
    requires !CallbackDue(s, i)
    ensures Callback(s, i) == s
  {
  }

  // ---------- Shutdown ----------

  predicate ToCancel(s: Registry, cancelAll: bool, run: Run) { run.response.Some? || (s.regular && cancelAll) }

  function ShutdownOne(s: Registry, cancelAll: bool, id: ExecutionId): Registry {
    if !Has(s, id) then s
    else if ToCancel(s, cancelAll, Current(s, id)) then Stop(s, id)
    else if Current(s, id).status == Waiting || Current(s, id).status == New then s.(active := s.active - {id})
    else s
  }

  /** The first pass of `shutdown` over the ids it enumerated. */
  function ShutdownPass(s: Registry, cancelAll: bool, ids: seq<ExecutionId>): Registry
    decreases |ids|
  {
    if ids == [] then s else ShutdownPass(ShutdownOne(s, cancelAll, ids[0]), cancelAll, ids[1..])
  }

  function Disabled(s: Registry): Registry { if s.regular then s.(enabled := false) else s }

  lemma ShutdownOneInv(s: Registry, cancelAll: bool, id: ExecutionId)
    requires Inv(s)
    ensures Inv(ShutdownOne(s, cancelAll, id))
  {
    hide GateInv, Stop;
    StepInv(s, DoStop(id));
    StepIsStop(s, id);
    if Has(s, id) {
      var t := s.(active := s.active - {id});
      forall d | d in t.active ensures EntryOk(t, d) { assert EntryOk(s, d); }
      SameGates(s, t);
    }
  }

  lemma StepIsStop(s: Registry, id: ExecutionId)
    ensures Step(s, DoStop(id)) == Stop(s, id)
  {
  }

  lemma SameGates(s: Registry, t: Registry)
    requires Inv(s) && t.gates == s.gates && t.runs == s.runs && t.enabled == s.enabled
    ensures forall q :: q in t.gates ==> GateInv(t, q)
  {
    hide Holders, Suspended, GateOk;
    forall q | q in t.gates ensures GateInv(t, q) { assert GateInv(s, q); }
  }

  /** What the pass leaves of an entry: nothing, a cancelled one, or the same one. */
  predicate PassedOver(s: Registry, t: Registry, cancelAll: bool, id: ExecutionId) {
    Has(s, id) &&
    var run := Current(s, id);
    if run.response.Some? || (s.regular && cancelAll) then
      if run.status == Waiting then id !in t.active
      else Has(t, id) && t.active[id] == s.active[id] &&
           Current(t, id)
             == run.(cancelled := run.cancelled || run.attached, settled := SettleOnce(run.settled, Rejected))
    else if run.status == Waiting || run.status == New then id !in t.active
    else Untouched(s, t, id)
  }

  predicate Untouched(s: Registry, t: Registry, id: ExecutionId) {
    Has(s, id) && Has(t, id) && t.active[id] == s.active[id] && Current(t, id) == Current(s, id)
  }

  lemma OneIsPassedOver(s: Registry, cancelAll: bool, id: ExecutionId)
    requires Inv(s) && id in s.active
    ensures PassedOver(s, ShutdownOne(s, cancelAll, id), cancelAll, id)
  {
    hide GateInv;
    assert EntryOk(s, id);
  }

  lemma OneLeavesOthers(s: Registry, cancelAll: bool, id: ExecutionId, other: ExecutionId)
    requires Inv(s) && other in s.active && other != id
    ensures Untouched(s, ShutdownOne(s, cancelAll, id), other)
  {
    hide GateInv;
    assert EntryOk(s, other);
    if id in s.active { EntryDiffers(s, id, other); }
  }

  lemma OneAddsNothing(s: Registry, cancelAll: bool, id: ExecutionId)
    ensures ShutdownOne(s, cancelAll, id).active.Keys <= s.active.Keys
    ensures ShutdownOne(s, cancelAll, id).regular == s.regular
  {
  }

  /** Each enumerated entry is passed over once, whatever the order; the others stay. */
  lemma {:induction false} PassSpec(s: Registry, cancelAll: bool, ids: seq<ExecutionId>, id: ExecutionId)
    requires Inv(s) && id in s.active
    requires forall j, k :: 0 <= j < k < |ids| ==> ids[j] != ids[k]
    ensures var t := ShutdownPass(s, cancelAll, ids);
            if id in ids then PassedOver(s, t, cancelAll, id) else Untouched(s, t, id)
    decreases |ids|
  {
    hide Inv, Stop, SettleOnce, ShutdownOne;
    EntryId(s, id);
    if ids != [] {
      var u := ShutdownOne(s, cancelAll, ids[0]);
      ShutdownOneInv(s, cancelAll, ids[0]);
      OneAddsNothing(s, cancelAll, ids[0]);
      if ids[0] == id {
        OneIsPassedOver(s, cancelAll, id);
        assert id !in ids[1..];
        if id in u.active { PassSpec(u, cancelAll, ids[1..], id); } else { StaysOut(u, cancelAll, ids[1..], id); }
      } else {
        OneLeavesOthers(s, cancelAll, ids[0], id);
        PassSpec(u, cancelAll, ids[1..], id);
      }
    }
  }

  lemma {:induction false} StaysOut(s: Registry, cancelAll: bool, ids: seq<ExecutionId>, id: ExecutionId)
    requires id !in s.active
    ensures id !in ShutdownPass(s, cancelAll, ids).active
    decreases |ids|
  {
    hide ShutdownOne;
    if ids != [] {
      OneAddsNothing(s, cancelAll, ids[0]);
      StaysOut(ShutdownOne(s, cancelAll, ids[0]), cancelAll, ids[1..], id);
    }
  }

  /** The callbacks that can run once `shutdown` is waiting. */
  function Pending(s: Registry): set<nat> { set i: nat | i < |s.runs| && CallbackDue(s, i) }

  /** A pending callback that will delete the entry of `id`. */
  predicate Clears(s: Registry, i: nat, id: ExecutionId) {
    CallbackDue(s, i) && s.runs[i].status != Waiting && s.runs[i].id == id
  }

  /** Every remaining entry has a pending callback that deletes it. */
  ghost predicate Drainable(s: Registry) {
    forall id :: id in s.active ==> exists i :: Clears(s, i, id)
  }

  /** With throttling disabled a callback runs alone: it leaves every other one as it was. */
  lemma DrainStep(s: Registry, i: nat)
    requires Inv(s) && !s.enabled && CallbackDue(s, i)
    ensures var t := Callback(s, i);
            && Inv(t) && !t.enabled && Pending(t) == Pending(s) - {i} && |Pending(t)| == |Pending(s)| - 1
            && (forall j, id :: j != i ==> (Clears(t, j, id) <==> Clears(s, j, id)))
            && (forall id :: !Clears(t, i, id))
            && (forall id :: id in t.active <==> id in s.active && !Clears(s, i, id))
  {
    hide Inv;
    CallbackInv(s, i);
    var t := Callback(s, i);
    assert t.runs == s.runs[i := t.runs[i]] && t.runs[i].phase == Released;
    PendingShrinks(s, t, i);
  }

  lemma PendingShrinks(s: Registry, t: Registry, i: nat)
    requires i < |s.runs| && CallbackDue(s, i) && |t.runs| == |s.runs| && !CallbackDue(t, i)
    requires forall j :: 0 <= j < |s.runs| && j != i ==> t.runs[j] == s.runs[j]
    ensures Pending(t) == Pending(s) - {i} && |Pending(t)| == |Pending(s)| - 1
  {
    forall j | j in Pending(t) ensures j in Pending(s) - {i} {}
    forall j | j in Pending(s) - {i} ensures j in Pending(t) {}
    assert i in Pending(s);
  }

  function RunCallbacks(s: Registry, order: seq<nat>): Registry
    decreases |order|
  {
    if order == [] then s else RunCallbacks(Callback(s, order[0]), order[1..])
  }

  /** While callbacks run, an entry stays until the first one that deletes it. */
  lemma {:induction false} Drain(s: Registry, order: seq<nat>, id: ExecutionId)
    requires Inv(s) && !s.enabled
    ensures id in RunCallbacks(s, order).active <==> id in s.active && forall i :: i in order ==> !Clears(s, i, id)
    decreases |order|
  {
    hide Inv, Callback, Clears;
    if order != [] {
      var i := order[0];
      if CallbackDue(s, i) {
        DrainStep(s, i);
        Drain(Callback(s, i), order[1..], id);
      } else {
        NotDue(s, i);
        Drain(s, order[1..], id);
        NotDueClears(s, i, id);
      }
      assert forall j :: j in order <==> j == i || j in order[1..];
    }
  }

  lemma NotDueClears(s: Registry, i: nat, id: ExecutionId)
    requires !CallbackDue(s, i)
    ensures !Clears(s, i, id)
  {
  }

  /** The waiting loop of `shutdown` empties the map, whatever the order in which the
      pending callbacks run, exactly when every entry is drainable; and as long as an
      entry of a drainable registry remains, a callback is pending. */
  lemma DrainEmpties(s: Registry, order: seq<nat>)
    requires Inv(s) && !s.enabled && forall i :: i in order <==> i in Pending(s)
    ensures RunCallbacks(s, order).active == map[] <==> Drainable(s)
    ensures Drainable(s) && s.active != map[] ==> Pending(s) != {}
  {
    hide Inv;
    var t := RunCallbacks(s, order);
    forall id ensures id in t.active <==> id in s.active && !exists i :: Clears(s, i, id) {
      Drain(s, order, id);
      if i :| Clears(s, i, id) { assert i in Pending(s); }
    }
    if t.active == map[] {
      forall id | id in s.active ensures exists i :: Clears(s, i, id) { assert id !in t.active; }
    }
    if Drainable(s) { assert forall id :: id !in t.active; }
    if Drainable(s) && s.active != map[] {
      var id :| id in s.active;
      var i :| Clears(s, i, id);
      assert i in Pending(s);
    }
  }

  /** A non-waiting entry whose own callback has already run, and which no other
      incarnation's pending callback will delete. */
  ghost predicate Stuck(s: Registry, id: ExecutionId) {
    && Has(s, id) && Current(s, id).phase == Released && Current(s, id).status != Waiting
    && forall i :: !Clears(s, i, id)
  }

  ghost predicate Enumerates(ids: seq<ExecutionId>, s: Registry) {
    && (forall id :: id in ids <==> id in s.active)
    && (forall j, k :: 0 <= j < k < |ids| ==> ids[j] != ids[k])
  }

  /** In regular mode with `cancelAll`, the first pass leaves only entries that are not
      waiting and whose promise has settled, and the waiting loop then empties the map,
      in whatever order the callbacks run, exactly when no entry was stuck before. */
  lemma CancelAllDrains(s: Registry, ids: seq<ExecutionId>, order: seq<nat>)
    requires Inv(s) && s.regular && Enumerates(ids, s)
    requires var p := ShutdownPass(Disabled(s), true, ids); forall i :: i in order <==> i in Pending(p)
    ensures var p := ShutdownPass(Disabled(s), true, ids);
            && (forall id :: id in p.active ==>
                Has(p, id) && Current(p, id).status != Waiting && Current(p, id).settled.Some?)
            && (RunCallbacks(p, order).active == map[] <==> forall id :: id in s.active ==> !Stuck(s, id))
  {
    hide Inv, Stuck, Drainable, RunCallbacks, Pending, ShutdownPass;
    var d := Disabled(s);
    DisableInv(s);
    var p := ShutdownPass(d, true, ids);
    PassKeeps(d, true, ids);
    DrainEmpties(p, order);
    forall id | id in s.active
      ensures id in p.active ==> Has(p, id) && Current(p, id).status != Waiting && Current(p, id).settled.Some?
      ensures Stuck(s, id) <==> id in p.active && forall i :: !Clears(p, i, id)
    {
      CancelledEntry(s, ids, id);
    }
    if forall id :: id in s.active ==> !Stuck(s, id) {
      forall id | id in p.active ensures exists i :: Clears(p, i, id) {}
    }
    DrainableMeans(p);
  }

  lemma DrainableMeans(s: Registry)
    ensures Drainable(s) <==> forall id :: id in s.active ==> exists i :: Clears(s, i, id)
  {
  }

  lemma CancelledEntry(s: Registry, ids: seq<ExecutionId>, id: ExecutionId)
    requires Inv(s) && s.regular && Enumerates(ids, s) && id in s.active
    ensures var p := ShutdownPass(Disabled(s), true, ids);
            && (id in p.active ==> Has(p, id) && Current(p, id).status != Waiting && Current(p, id).settled.Some?)
            && (Stuck(s, id) <==> id in p.active && forall i :: !Clears(p, i, id))
  {
    hide Inv, ShutdownPass, Clears;
    var d := Disabled(s);
    DisableInv(s);
    var p, k := ShutdownPass(d, true, ids), s.active[id];
    EntryId(s, id);
    PassSpec(d, true, ids, id);
    assert PassedOver(d, p, true, id);
    OwnClears(s, p, id);
    forall i | i != k ensures id in p.active ==> (Clears(p, i, id) <==> Clears(s, i, id)) {
      if id in p.active { OtherClears(s, ids, id, i); }
    }
  }

  lemma OwnClears(s: Registry, p: Registry, id: ExecutionId)
    requires Has(s, id) && Current(s, id).id == id
    requires (Current(s, id).phase == Active || Current(s, id).phase == Released)
    requires PassedOver(Disabled(s), p, true, id) && s.regular
    ensures Clears(s, s.active[id], id) ==> Current(s, id).phase == Active
    ensures id in p.active ==> (Clears(p, s.active[id], id) <==> Current(s, id).phase == Active)
  {
  }

  /** Only the current incarnation of an enumerated id is touched by the pass. */
  lemma OtherClears(s: Registry, ids: seq<ExecutionId>, id: ExecutionId, i: nat)
    requires Inv(s) && s.regular && Enumerates(ids, s) && id in s.active && i != s.active[id]
    ensures Clears(ShutdownPass(Disabled(s), true, ids), i, id) <==> Clears(s, i, id)
  {
    hide Inv, ShutdownPass;
    DisableInv(s);
    var d := Disabled(s);
    if i < |s.runs| && s.runs[i].id == id {
      forall other | other in d.active ensures d.active[other] != i { EntryId(s, other); }
      PassLeavesRun(d, true, ids, i);
    } else if i < |s.runs| {
      PassLeavesId(d, true, ids, i);
    } else {
      PassLeavesId(d, true, ids, i);
    }
  }

  lemma {:induction false} PassLeavesRun(s: Registry, cancelAll: bool, ids: seq<ExecutionId>, i: nat)
    requires i < |s.runs| && forall id :: id in s.active ==> s.active[id] != i
    ensures var t := ShutdownPass(s, cancelAll, ids); i < |t.runs| && t.runs[i] == s.runs[i]
    decreases |ids|
  {
    hide SettleOnce, Settled;
    if ids != [] { PassLeavesRun(ShutdownOne(s, cancelAll, ids[0]), cancelAll, ids[1..], i); }
  }

  lemma {:induction false} PassLeavesId(s: Registry, cancelAll: bool, ids: seq<ExecutionId>, i: nat)
    ensures var t := ShutdownPass(s, cancelAll, ids);
            |t.runs| == |s.runs| && (i < |s.runs| ==> t.runs[i].id == s.runs[i].id)
    decreases |ids|
  {
    hide SettleOnce, Settled;
    if ids != [] { PassLeavesId(ShutdownOne(s, cancelAll, ids[0]), cancelAll, ids[1..], i); }
  }

  lemma {:induction false} PassKeeps(s: Registry, cancelAll: bool, ids: seq<ExecutionId>)
    requires Inv(s)
    ensures var t := ShutdownPass(s, cancelAll, ids);
            Inv(t) && t.enabled == s.enabled && t.gates == s.gates && t.active.Keys <= s.active.Keys
    decreases |ids|
  {
    hide Inv, ShutdownOne;
    if ids != [] {
      ShutdownOneInv(s, cancelAll, ids[0]);
      OneKeeps(s, cancelAll, ids[0]);
      PassKeeps(ShutdownOne(s, cancelAll, ids[0]), cancelAll, ids[1..]);
    }
  }

  lemma OneKeeps(s: Registry, cancelAll: bool, id: ExecutionId)
    ensures var t := ShutdownOne(s, cancelAll, id);
            t.enabled == s.enabled && t.gates == s.gates && t.active.Keys <= s.active.Keys
  {
  }

  // ---------- Queued adds during shutdown ----------

  /** `removeAll` of the concurrency control, over the waiters it enumerated. */
  function RemoveAll(s: Registry, waiters: seq<(ExecutionId, Mode)>): Registry
    decreases |waiters|
  {
    if !s.enabled || waiters == [] then s else RemoveAll(RemoveQueued(s, waiters[0].0, waiters[0].1), waiters[1..])
  }

  function WaiterIds(queue: seq<Waiter>): multiset<ExecutionId> {
    if queue == [] then multiset{} else multiset{queue[0].executionId} + WaiterIds(queue[1..])
  }

  /** The ids enumerated for one queue. */
  function Listed(waiters: seq<(ExecutionId, Mode)>, q: QueueType): multiset<ExecutionId> {
    if waiters == [] then multiset{}
    else (if QueueOf(waiters[0].1) == Some(q) then multiset{waiters[0].0} else multiset{}) + Listed(waiters[1..], q)
  }

  lemma {:induction false} WaiterIdsConcat(a: seq<Waiter>, b: seq<Waiter>)
    ensures WaiterIds(a + b) == WaiterIds(a) + WaiterIds(b)
  {
    if a == [] {
      assert a + b == b;
    } else {
      assert (a + b)[1..] == a[1..] + b;
      WaiterIdsConcat(a[1..], b);
    }
  }

  /** Taking one waiter out leaves at most the ids of the others. */
  lemma RemovedIds(g: Gate, id: ExecutionId)
    ensures WaiterIds(RemoveWaiter(g, id).0.queue) <= WaiterIds(g.queue) - multiset{id}
  {
    var k := Position(g.queue, id);
    hide WaiterIds, Position;
    if k == |g.queue| {
      NotWaiting(g.queue, id);
    } else {
      var rest := g.queue[..k] + g.queue[k + 1..];
      CutIds(g.queue, k);
      if rest != [] { TailIds(rest); }
    }
  }

  lemma CutIds(queue: seq<Waiter>, k: nat)
    requires k < |queue|
    ensures WaiterIds(queue) == WaiterIds(queue[..k] + queue[k + 1..]) + multiset{queue[k].executionId}
  {
    hide WaiterIds;
    WaiterIdsConcat(queue[..k], queue[k + 1..]);
    WaiterIdsConcat(queue[..k], queue[k..]);
    HeadIds(queue[k..]);
    assert queue == queue[..k] + queue[k..] && queue[k..][1..] == queue[k + 1..];
  }

  lemma HeadIds(queue: seq<Waiter>)
    requires queue != []
    ensures WaiterIds(queue) == multiset{queue[0].executionId} + WaiterIds(queue[1..])
  {
  }

  lemma TailIds(queue: seq<Waiter>)
    requires queue != []
    ensures WaiterIds(queue[1..]) <= WaiterIds(queue)
  {
  }

  lemma NoIds(queue: seq<Waiter>)
    requires WaiterIds(queue) <= multiset{}
    ensures queue == []
  {
    assert |WaiterIds(queue)| == 0;
  }

  lemma {:induction false} NotWaiting(queue: seq<Waiter>, id: ExecutionId)
    requires Position(queue, id) == |queue|
    ensures id !in WaiterIds(queue)
  {
    if queue != [] { NotWaiting(queue[1..], id); }
  }

  lemma RemoveListed(s: Registry, id: ExecutionId, mode: Mode, q: QueueType)
    requires Inv(s) && s.enabled && q in s.gates
    ensures var t := RemoveQueued(s, id, mode);
            && t.enabled && q in t.gates
            && WaiterIds(t.gates[q].queue)
               <= (if QueueOf(mode) == Some(q) then WaiterIds(s.gates[q].queue) - multiset{id}
                   else WaiterIds(s.gates[q].queue))
  {
    hide Inv, RemoveWaiter, Resume, QueueOf, WaiterIds, Holders, Suspended, GateInv;
    RemovedIds(s.gates[q], id);
    var k := Position(s.gates[q].queue, id);
    if QueueOf(mode) == Some(q) && k < |s.gates[q].queue| {
      InvAt(s, q);
      WaiterHolds(s, q, k);
    }
    if QueueOf(mode) == Some(q) && k == |s.gates[q].queue| { NotWaiting(s.gates[q].queue, id); }
  }

  /** With throttling on, going through all the waiters of a queue leaves nobody in it: each
      one is taken out, or let through in the place of one that is. */
  lemma {:induction false} RemoveAllEmpties(s: Registry, waiters: seq<(ExecutionId, Mode)>, q: QueueType)
    requires Inv(s) && s.enabled && q in s.gates && WaiterIds(s.gates[q].queue) <= Listed(waiters, q)
    ensures var t := RemoveAll(s, waiters); q in t.gates && t.gates[q].queue == [] && Suspended(t.runs, q) == {}
    decreases |waiters|
  {
    hide Inv, RemoveQueued, QueueOf, Suspended;
    if waiters == [] {
      NoIds(s.gates[q].queue);
      NobodySuspended(s, q);
    } else {
      var t := RemoveQueued(s, waiters[0].0, waiters[0].1);
      RemoveQueuedInv(s, waiters[0].0, waiters[0].1);
      RemoveListed(s, waiters[0].0, waiters[0].1, q);
      RemoveAllEmpties(t, waiters[1..], q);
    }
  }

  lemma NobodySuspended(s: Registry, q: QueueType)
    requires Inv(s) && q in s.gates && s.gates[q].queue == []
    ensures Suspended(s.runs, q) == {}
  {
    hide Inv, Holders, Suspended;
    InvAt(s, q);
  }

  /** `shutdown` calls it after it has disabled throttling: it removes nobody. */
  lemma ShutdownRemovesNobody(s: Registry, cancelAll: bool, ids: seq<ExecutionId>, waiters: seq<(ExecutionId, Mode)>)
    requires Inv(s)
    ensures var p := ShutdownPass(Disabled(s), cancelAll, ids); RemoveAll(p, waiters) == p
  {
    DisableInv(s);
    PassKeeps(Disabled(s), cancelAll, ids);
  }

  lemma InvOff(s: Registry)
    requires Inv(s)
    ensures !Disabled(s).enabled
  {
  }

  lemma StepKeepsQueued(s: Registry, e: Event, i: nat)
    requires !s.enabled && i < |s.runs| && s.runs[i].phase == Queued
    ensures !Step(s, e).enabled && i < |Step(s, e).runs| && Step(s, e).runs[i].phase == Queued
  {
    hide QueueOf, TakeUnit, Settled, SettleOnce;
  }

  lemma {:induction false} QueuedForever(s: Registry, es: seq<Event>, i: nat)
    requires !s.enabled && i < |s.runs| && s.runs[i].phase == Queued
    ensures i < |Trace(s, es).runs| && Trace(s, es).runs[i].phase == Queued
    decreases |es|
  {
    hide Step;
    if es != [] {
      StepKeepsQueued(s, es[0], i);
      QueuedForever(Step(s, es[0]), es[1..], i);
    }
  }

  lemma {:induction false} StaysOff(s: Registry, es: seq<Event>)
    requires !s.enabled
    ensures !Trace(s, es).enabled
    decreases |es|
  {
    hide Step;
    if es != [] {
      if Step(s, es[0]).enabled { StaysDisabled(s, es[0]); }
      StaysOff(Step(s, es[0]), es[1..]);
    }
  }

  /** Disabling is for good: throttling never comes back on, and a queued add stays queued. */
  lemma DisabledForGood(s: Registry, es: seq<Event>, i: nat)
    requires i < |s.runs| && s.runs[i].phase == Queued
    ensures var t := Trace(Step(s, DoDisable), es); !t.enabled && i < |t.runs| && t.runs[i].phase == Queued
  {
    hide Trace;
    StaysOff(Step(s, DoDisable), es);
    QueuedForever(Step(s, DoDisable), es, i);
  }

  /** Once `shutdown` has begun, no add that is still queued is ever let through, over
      every later run; nor is it taken out of its queue. */
  lemma ShutdownHoldsQueued(s: Registry, cancelAll: bool, ids: seq<ExecutionId>, es: seq<Event>, i: nat)
    requires Inv(s) && i < |s.runs| && s.runs[i].phase == Queued
    ensures var t := Trace(ShutdownPass(Disabled(s), cancelAll, ids), es); i < |t.runs| && t.runs[i].phase == Queued
  {
    hide Inv, Trace, ShutdownPass;
    var d := Disabled(s);
    assert !d.enabled by { InvOff(s); }
    DisableInv(s);
    forall id | id in d.active ensures d.active[id] != i { EntryId(d, id); }
    PassLeavesRun(d, cancelAll, ids, i);
    PassKeeps(d, cancelAll, ids);
    QueuedForever(ShutdownPass(d, cancelAll, ids), es, i);
  }

  // ---------- Where stuck entries come from ----------

  /** Every entry whose callback has run is waiting. */
  ghost predicate Settling(s: Registry) {
    forall id :: Has(s, id) && Current(s, id).phase == Released ==> Current(s, id).status == Waiting
  }

  predicate LateStatus(s: Registry, e: Event) {
    e.DoSetStatus? && Has(s, e.id) && Current(s, e.id).phase == Released && e.status != Waiting
  }

  ghost predicate NoLateStatus(s: Registry, es: seq<Event>)
    decreases |es|
  {
    es != [] ==> !LateStatus(s, es[0]) && NoLateStatus(Step(s, es[0]), es[1..])
  }

  lemma StepSettling(s: Registry, e: Event)
    requires Inv(s) && Settling(s) && !LateStatus(s, e)
    ensures Settling(Step(s, e))
  {
    hide RemoveQueued, Callback, Inv, BeginAdd, Register, FailAdd, Stop, Finalize, SetStatus, Settling;
    match e
    case DoCallback(k) => CallbackSettling(s, k);
    case DoRemoveQueued(id, mode) => RemoveSettling(s, id, mode);
    case DoBeginAdd(_, _) => AddSettling(s, e);
    case DoRegister(_, _) => AddSettling(s, e);
    case DoFailAdd(_) => AddSettling(s, e);
    case DoDisable => AddSettling(s, e);
    case DoStop(id) => StopSettling(s, id);
    case _ => CurrentSettling(s, e);
  }

  lemma CallbackSettling(s: Registry, k: nat)
    requires Inv(s) && Settling(s)
    ensures Settling(Callback(s, k))
  {
    hide Callback, Inv;
    if !CallbackDue(s, k) { NotDue(s, k); return; }
    var t := Callback(s, k);
    CallbackRuns(s, k, k);
    forall id | Has(t, id) && Current(t, id).phase == Released ensures Current(t, id).status == Waiting {
      EntryId(s, id);
      CallbackRuns(s, k, s.active[id]);
    }
  }

  lemma RemoveSettling(s: Registry, id: ExecutionId, mode: Mode)
    requires Inv(s) && Settling(s)
    ensures Settling(RemoveQueued(s, id, mode))
  {
    hide RemoveQueued, Inv;
    var t := RemoveQueued(s, id, mode);
    RemoveKeepsMap(s, id, mode);
    forall d | Has(t, d) && Current(t, d).phase == Released ensures Current(t, d).status == Waiting {
      EntryId(s, d);
      RemoveRuns(s, id, mode, s.active[d]);
    }
  }

  lemma AddSettling(s: Registry, e: Event)
    requires Inv(s) && Settling(s) && (e.DoFailAdd? || e.DoRegister? || e.DoBeginAdd? || e.DoDisable?)
    ensures Settling(Step(s, e))
  {
    hide TakeUnit, QueueOf, Inv;
    var t := Step(s, e);
    forall id | Has(t, id) && Current(t, id).phase == Released ensures Current(t, id).status == Waiting {
      if id in s.active { EntryId(s, id); }
    }
  }

  lemma StopSettling(s: Registry, id: ExecutionId)
    requires Settling(s)
    ensures Settling(Stop(s, id))
  {
    hide Settled, SettleOnce;
    var t := Stop(s, id);
    forall d | Has(t, d) && Current(t, d).phase == Released ensures Current(t, d).status == Waiting {
      assert Has(s, d);
    }
  }

  lemma CurrentSettling(s: Registry, e: Event)
    requires Settling(s) && !LateStatus(s, e)
    requires e.DoFinalize? || e.DoSetStatus? || e.DoAttachWorkflow? || e.DoAttachResponse? || e.DoResolveResponse?
    ensures Settling(Step(s, e))
  {
    hide Settling;
    if e.DoSetStatus? { StatusSettling(s, e); } else { OtherSettling(s, e); }
  }

  lemma StatusSettling(s: Registry, e: Event)
    requires Settling(s) && !LateStatus(s, e) && e.DoSetStatus?
    ensures Settling(Step(s, e))
  {
    var t := SetStatus(s, e.id, e.status);
    assert Step(s, e) == t;
    hide Step;
    forall d | Has(t, d) && Current(t, d).phase == Released ensures Current(t, d).status == Waiting {
      assert Has(s, d);
    }
  }

  lemma OtherSettling(s: Registry, e: Event)
    requires Settling(s) && (e.DoFinalize? || e.DoAttachWorkflow? || e.DoAttachResponse? || e.DoResolveResponse?)
    ensures Settling(Step(s, e))
  {
    hide Settled, SettleOnce;
    var t := Step(s, e);
    assert t.active == s.active && |t.runs| == |s.runs|;
    assert forall k :: 0 <= k < |s.runs| ==> t.runs[k].phase == s.runs[k].phase && t.runs[k].status == s.runs[k].status;
    hide Step;
    forall d | Has(t, d) && Current(t, d).phase == Released ensures Current(t, d).status == Waiting {
      assert Has(s, d);
    }
  }

  /** If no status is changed to something other than waiting after its callback has
      run, no run of the registry ever makes an entry that shutdown gets stuck on. */
  lemma {:induction false} NeverStuck(s: Registry, es: seq<Event>, id: ExecutionId)
    requires Inv(s) && Settling(s) && NoLateStatus(s, es)
    ensures !Stuck(Trace(s, es), id)
    decreases |es|
  {
    hide Inv, Step, LateStatus;
    if es != [] {
      StepInv(s, es[0]);
      StepSettling(s, es[0]);
      NeverStuck(Step(s, es[0]), es[1..], id);
    }
  }

  /** The only caller passes waiting
      (packages/core/src/execution-engine/node-execution-context/base-execute-context.ts:111). */
  predicate OnlyWaits(es: seq<Event>) { forall e :: e in es && e.DoSetStatus? ==> e.status == Waiting }

  lemma {:induction false} WaitsAreNotLate(s: Registry, es: seq<Event>)
    requires OnlyWaits(es)
    ensures NoLateStatus(s, es)
    decreases |es|
  {
    hide Step;
    if es != [] {
      assert es[0] in es && forall e :: e in es[1..] ==> e in es;
      WaitsAreNotLate(Step(s, es[0]), es[1..]);
    }
  }

  lemma StepKeepsMode(s: Registry, e: Event)
    ensures Step(s, e).regular == s.regular
  {
    hide TakeUnit, GiveUnit, RemoveWaiter, Resume, Settled, SettleOnce, QueueOf;
  }

  lemma {:induction false} TraceKeepsMode(s: Registry, es: seq<Event>)
    ensures Trace(s, es).regular == s.regular
    decreases |es|
  {
    hide Step;
    if es != [] {
      StepKeepsMode(s, es[0]);
      TraceKeepsMode(Step(s, es[0]), es[1..]);
    }
  }

  lemma InitialSettling(limits: map<QueueType, int>)
    ensures Settling(Initial(true, limits)) && Initial(true, limits).regular
  {
  }

  /** Whatever has happened since the start, shutting down with `cancelAll` in regular mode
      ends with an empty map, in whatever order the entries are visited and the pending
      callbacks run. */
  lemma ShutdownEmpties(limits: map<QueueType, int>, es: seq<Event>, ids: seq<ExecutionId>, order: seq<nat>)
    requires OnlyWaits(es) && Enumerates(ids, Trace(Initial(true, limits), es))
    requires var p := ShutdownPass(Disabled(Trace(Initial(true, limits), es)), true, ids);
             forall i :: i in order <==> i in Pending(p)
    ensures RunCallbacks(ShutdownPass(Disabled(Trace(Initial(true, limits), es)), true, ids), order).active == map[]
  {
    hide Initial, Inv, Settling, Stuck, Pending, Trace, Enumerates, ShutdownPass, RunCallbacks, Disabled;
    var s := Initial(true, limits);
    InitialInv(true, limits);
    InitialSettling(limits);
    TraceInv(s, es);
    TraceKeepsMode(s, es);
    WaitsAreNotLate(s, es);
    forall id ensures !Stuck(Trace(s, es), id) { NeverStuck(s, es, id); }
    CancelAllDrains(Trace(s, es), ids, order);
  }
}
