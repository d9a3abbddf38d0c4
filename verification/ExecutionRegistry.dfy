/** The registry of executions in this process: throttled adds, settle-once promises,
    deferred removal callbacks, waiting and resuming under one id, and shutdown
    (packages/cli/src/active-executions.ts). Every `await` ends an atomic step. */
module ExecutionRegistry {
  import opened Options
  import opened ConcurrencyQueue

  datatype Status = Canceled | Crashed | Error | New | Running | Success | Unknown | Waiting
  datatype Mode = Cli | ErrorMode | Integrated | Internal | Manual | Retry | TriggerMode | Webhook | Evaluation
  datatype QueueType = Production | EvaluationQueue
  datatype Outcome = Fulfilled | Rejected

  /** Where an `add` call and the incarnation it creates stand: suspended in the queue,
      let through, registered, callback run; or ended by a failed repository write or
      by being taken out of the queue. */
  datatype Phase = Queued | Admitted | Active | Released | Lost | Dropped

  datatype Run = Run(
    id: ExecutionId, mode: Mode, phase: Phase, startedAt: nat, status: Status,
    response: Option<nat>, attached: bool, cancelled: bool, settled: Option<Outcome>)

  /** `runs` is the pool of incarnations, `active` maps an id to its current one, and
      `responses` holds the response promises that have settled. */
  datatype Registry = Registry(
    regular: bool, enabled: bool, gates: map<QueueType, Gate>,
    runs: seq<Run>, active: map<ExecutionId, nat>, responses: map<nat, Outcome>)

  function QueueOf(mode: Mode): Option<QueueType> {
    match mode
    case Webhook => Some(Production)
    case TriggerMode => Some(Production)
    case Evaluation => Some(EvaluationQueue)
    case _ => None
  }

  function Initial(regular: bool, limits: map<QueueType, int>): Registry {
    var gates := map q | q in limits && limits[q] > 0 :: Gate(limits[q], limits[q], []);
    Registry(regular, regular && gates != map[], gates, [], map[], map[])
  }

  // ---------- Steps ----------

  predicate Gated(s: Registry, mode: Mode) {
    s.enabled && QueueOf(mode).Some? && QueueOf(mode).value in s.gates
  }

  function NewRun(id: ExecutionId, mode: Mode, phase: Phase): Run {
    Run(id, mode, phase, 0, New, None, false, false, None)
  }

  /** `add` up to the point where throttling lets it through. */
  function BeginAdd(s: Registry, id: ExecutionId, mode: Mode): Registry {
    if !Gated(s, mode) then s.(runs := s.runs + [NewRun(id, mode, Admitted)]) else
    var q := QueueOf(mode).value;
    var (gate, proceeds) := TakeUnit(s.gates[q], Waiter(id, |s.runs|));
    s.(gates := s.gates[q := gate], runs := s.runs + [NewRun(id, mode, if proceeds then Admitted else Queued)])
  }

  /** A repository write of `add` throws after throttling. */
  function FailAdd(s: Registry, i: nat): Registry {
    if i < |s.runs| && s.runs[i].phase == Admitted then s.(runs := s.runs[i := s.runs[i].(phase := Lost)]) else s
  }

  function Registered(s: Registry, i: nat, now: nat): Run
    requires i < |s.runs|
  {
    var previous := Lookup(s.active, s.runs[i].id);
    var known := previous.Some? && previous.value < |s.runs|;
    s.runs[i].(phase := Active, status := Running,
               startedAt := if known then s.runs[previous.value].startedAt else now,
               response := if known then s.runs[previous.value].response else None)
  }

  /** The rest of `add`: the new incarnation replaces whatever the id mapped to. */
  function Register(s: Registry, i: nat, now: nat): Registry {
    if i < |s.runs| && s.runs[i].phase == Admitted then
      s.(runs := s.runs[i := Registered(s, i, now)], active := s.active[s.runs[i].id := i])
    else s
  }

  function Resume(runs: seq<Run>, resumed: Option<nat>): seq<Run> {
    if resumed.Some? && resumed.value < |runs|
    then runs[resumed.value := runs[resumed.value].(phase := Admitted)] else runs
  }

  function Release(s: Registry, mode: Mode): Registry {
    if !Gated(s, mode) then s else
    var q := QueueOf(mode).value;
    var (gate, resumed) := GiveUnit(s.gates[q]);
    s.(gates := s.gates[q := gate], runs := Resume(s.runs, resumed))
  }

  predicate CallbackDue(s: Registry, i: nat) {
    i < |s.runs| && s.runs[i].phase == Active && s.runs[i].settled.Some?
  }

  /** The `finally` callback of incarnation `i`. It removes by id, not by identity. */
  function Callback(s: Registry, i: nat): Registry {
    if !CallbackDue(s, i) then s else
    var run, r := s.runs[i], Release(s, s.runs[i].mode);
    if |r.runs| <= i then s
    else if run.status == Waiting then r.(runs := r.runs[i := run.(phase := Released, attached := false)])
    else r.(runs := r.runs[i := run.(phase := Released)], active := r.active - {run.id})
  }

  function Settled(cells: map<nat, Outcome>, promise: Option<nat>, outcome: Outcome): map<nat, Outcome> {
    if promise.None? || promise.value in cells then cells else cells[promise.value := outcome]
  }

  function SettleOnce(cell: Option<Outcome>, outcome: Outcome): Option<Outcome> {
    if cell.Some? then cell else Some(outcome)
  }

  predicate Has(s: Registry, id: ExecutionId) { id in s.active && s.active[id] < |s.runs| }

  function Current(s: Registry, id: ExecutionId): Run
    requires Has(s, id)
  {
    s.runs[s.active[id]]
  }

  function Update(s: Registry, id: ExecutionId, run: Run): Registry
    requires Has(s, id)
  {
    s.(runs := s.runs[s.active[id] := run])
  }

  function Stop(s: Registry, id: ExecutionId): Registry {
    if !Has(s, id) then s else
    var run := Current(s, id);
    var t := s.(responses := Settled(s.responses, run.response, Rejected));
    if run.status == Waiting then t.(active := t.active - {id})
    else Update(t, id, run.(cancelled := run.cancelled || run.attached, settled := SettleOnce(run.settled, Rejected)))
  }

  function Finalize(s: Registry, id: ExecutionId): Registry {
    if !Has(s, id) then s else
    var run := Current(s, id);
    Update(s, id, run.(settled := SettleOnce(run.settled, Fulfilled)))
  }

  function SetStatus(s: Registry, id: ExecutionId, status: Status): Registry {
    if Has(s, id) then Update(s, id, Current(s, id).(status := status)) else s
  }

  function AttachWorkflow(s: Registry, id: ExecutionId): Registry {
    if Has(s, id) then Update(s, id, Current(s, id).(attached := true)) else s
  }

  function AttachResponse(s: Registry, id: ExecutionId, promise: nat): Registry {
    if Has(s, id) then Update(s, id, Current(s, id).(response := Some(promise))) else s
  }

  function ResolveResponse(s: Registry, id: ExecutionId): Registry {
    if Has(s, id) then s.(responses := Settled(s.responses, Current(s, id).response, Fulfilled)) else s
  }

  /** Taking a still queued execution out of its queue. */
  function RemoveQueued(s: Registry, id: ExecutionId, mode: Mode): Registry {
    if !Gated(s, mode) then s else
    var q := QueueOf(mode).value;
    var queue := s.gates[q].queue;
    var k := Position(queue, id);
    if k == |queue| || |s.runs| <= queue[k].run then s else
    var (gate, resumed) := RemoveWaiter(s.gates[q], id);
    s.(gates := s.gates[q := gate],
       runs := Resume(s.runs[queue[k].run := s.runs[queue[k].run].(phase := Dropped)], resumed))
  }

  datatype Event =
    | DoBeginAdd(id: ExecutionId, mode: Mode) | DoFailAdd(run: nat) | DoRegister(run: nat, now: nat)
    | DoCallback(run: nat) | DoStop(id: ExecutionId) | DoFinalize(id: ExecutionId)
    | DoSetStatus(id: ExecutionId, status: Status) | DoAttachWorkflow(id: ExecutionId)
    | DoAttachResponse(id: ExecutionId, promise: nat) | DoResolveResponse(id: ExecutionId)
    | DoRemoveQueued(id: ExecutionId, mode: Mode) | DoDisable

  function Step(s: Registry, e: Event): Registry {
    match e
    case DoBeginAdd(id, mode) => BeginAdd(s, id, mode)
    case DoFailAdd(i) => FailAdd(s, i)
    case DoRegister(i, now) => Register(s, i, now)
    case DoCallback(i) => Callback(s, i)
    case DoStop(id) => Stop(s, id)
    case DoFinalize(id) => Finalize(s, id)
    case DoSetStatus(id, status) => SetStatus(s, id, status)
    case DoAttachWorkflow(id) => AttachWorkflow(s, id)
    case DoAttachResponse(id, p) => AttachResponse(s, id, p)
    case DoResolveResponse(id) => ResolveResponse(s, id)
    case DoRemoveQueued(id, mode) => RemoveQueued(s, id, mode)
    case DoDisable => s.(enabled := false)
  }

  function Trace(s: Registry, es: seq<Event>): Registry
    decreases |es|
  {
    if es == [] then s else Trace(Step(s, es[0]), es[1..])
  }

  // ---------- The invariant ----------

  predicate Holds(run: Run, q: QueueType) {
    QueueOf(run.mode) == Some(q) && run.phase != Released && run.phase != Dropped
  }

  predicate Suspends(run: Run, q: QueueType) {
    QueueOf(run.mode) == Some(q) && run.phase == Queued
  }

  /** The throttles taken on `q` and not released: adds still queued or in progress,
      incarnations whose callback has not run, and adds lost to a failed write. */
  function Holders(runs: seq<Run>, q: QueueType): set<nat> {
    set i: nat | i < |runs| && Holds(runs[i], q)
  }

  function Suspended(runs: seq<Run>, q: QueueType): set<nat> {
    set i: nat | i < |runs| && Suspends(runs[i], q)
  }

  /** The queue lists the suspended runs, each once. */
  ghost predicate Lists(queue: seq<Waiter>, waiting: set<nat>) {
    && (forall k :: 0 <= k < |queue| ==> queue[k].run in waiting)
    && (forall j, k :: 0 <= j < k < |queue| ==> queue[j].run != queue[k].run)
    && (forall i :: i in waiting ==> exists k :: 0 <= k < |queue| && queue[k].run == i)
  }

  ghost predicate GateOk(g: Gate, waiting: set<nat>, held: int, enabled: bool) {
    Consistent(g) && Lists(g.queue, waiting) && (enabled ==> g.capacity == g.limit - held)
  }

  ghost predicate GateInv(s: Registry, q: QueueType)
    requires q in s.gates
  {
    GateOk(s.gates[q], Suspended(s.runs, q), |Holders(s.runs, q)|, s.enabled)
  }

  predicate RunOk(gates: set<QueueType>, run: Run) {
    && (run.phase == Released ==> run.settled.Some?)
    && (run.phase != Active && run.phase != Released ==> run.settled.None?)
    && (run.phase == Queued ==> QueueOf(run.mode).Some? && QueueOf(run.mode).value in gates)
  }

  predicate EntryOk(s: Registry, id: ExecutionId) {
    Has(s, id) && Current(s, id).id == id && (Current(s, id).phase == Active || Current(s, id).phase == Released)
  }

  ghost predicate PoolInv(s: Registry) {
    && (!s.regular ==> !s.enabled)
    && (forall id :: id in s.active ==> EntryOk(s, id))
    && (forall i :: 0 <= i < |s.runs| ==> RunOk(s.gates.Keys, s.runs[i]))
  }

  ghost predicate Inv(s: Registry) {
    PoolInv(s) && forall q :: q in s.gates ==> GateInv(s, q)
  }

  lemma InitialInv(regular: bool, limits: map<QueueType, int>)
    ensures Inv(Initial(regular, limits))
  {
    var s := Initial(regular, limits);
    forall q | q in s.gates ensures GateInv(s, q) {
      assert Holders(s.runs, q) == {} && Suspended(s.runs, q) == {};
    }
  }

  // ---------- Gates, apart from the pool ----------

  function AsSet(run: Option<nat>): set<nat> { if run.Some? then {run.value} else {} }

  lemma TakeOk(g: Gate, w: Waiter, waiting: set<nat>, held: int)
    requires GateOk(g, waiting, held, true) && w.run !in waiting
    ensures var (next, proceeds) := TakeUnit(g, w);
            GateOk(next, if proceeds then waiting else waiting + {w.run}, held + 1, true)
  {
    TakeAndGiveKeepLimit(g, w);
    var (next, proceeds) := TakeUnit(g, w);
    if !proceeds {
      assert next.queue[|g.queue|].run == w.run;
      assert forall k :: 0 <= k < |g.queue| ==> next.queue[k] == g.queue[k];
    }
  }

  lemma ShiftLists(queue: seq<Waiter>, waiting: set<nat>)
    requires Lists(queue, waiting) && queue != []
    ensures queue[0].run in waiting && Lists(queue[1..], waiting - {queue[0].run})
  {
    forall i | i in waiting - {queue[0].run} ensures exists k :: 0 <= k < |queue[1..]| && queue[1..][k].run == i {
      var k :| 0 <= k < |queue| && queue[k].run == i;
      assert queue[1..][k - 1].run == i;
    }
  }

  lemma CutLists(queue: seq<Waiter>, waiting: set<nat>, k: nat)
    requires Lists(queue, waiting) && k < |queue|
    ensures queue[k].run in waiting && Lists(queue[..k] + queue[k + 1..], waiting - {queue[k].run})
  {
    var rest := queue[..k] + queue[k + 1..];
    forall i | i in waiting - {queue[k].run} ensures exists m :: 0 <= m < |rest| && rest[m].run == i {
      var m :| 0 <= m < |queue| && queue[m].run == i;
      assert rest[if m < k then m else m - 1].run == i;
    }
  }

  lemma GiveOk(g: Gate, waiting: set<nat>, held: int)
    requires GateOk(g, waiting, held, true) && held > 0
    ensures var (next, resumed) := GiveUnit(g);
            GateOk(next, waiting - AsSet(resumed), held - 1, true) && AsSet(resumed) <= waiting
  {
    if g.queue != [] { ShiftLists(g.queue, waiting); }
  }

  lemma RemoveOk(g: Gate, id: ExecutionId, waiting: set<nat>, held: int)
    requires GateOk(g, waiting, held, true) && held > 0 && ConcurrencyQueue.Queued(g, id)
    ensures var (next, resumed) := RemoveWaiter(g, id);
            var dropped := g.queue[Position(g.queue, id)].run;
            && dropped in waiting && AsSet(resumed) <= waiting - {dropped}
            && GateOk(next, waiting - {dropped} - AsSet(resumed), held - 1, true)
  {
    hide Lists, Consistent;
    RemoveOverAdmits(g, id);
    RemoveLists(g, id, waiting);
  }

  lemma RemoveLists(g: Gate, id: ExecutionId, waiting: set<nat>)
    requires Lists(g.queue, waiting) && ConcurrencyQueue.Queued(g, id)
    ensures var (next, resumed) := RemoveWaiter(g, id);
            var dropped := g.queue[Position(g.queue, id)].run;
            && dropped in waiting && AsSet(resumed) <= waiting - {dropped}
            && Lists(next.queue, waiting - {dropped} - AsSet(resumed))
  {
    hide Lists;
    var k := Position(g.queue, id);
    CutLists(g.queue, waiting, k);
    var rest := g.queue[..k] + g.queue[k + 1..];
    if rest != [] {
      ShiftLists(rest, waiting - {g.queue[k].run});
    } else {
      assert waiting - {g.queue[k].run} - {} == waiting - {g.queue[k].run};
    }
  }

  // ---------- The pool, one run at a time ----------

  lemma HoldersAppend(runs: seq<Run>, run: Run, q: QueueType)
    ensures Holders(runs + [run], q) == Holders(runs, q) + (if Holds(run, q) then {|runs|} else {})
  {
    hide Holds;
  }

  lemma SuspendedAppend(runs: seq<Run>, run: Run, q: QueueType)
    ensures Suspended(runs + [run], q) == Suspended(runs, q) + (if Suspends(run, q) then {|runs|} else {})
  {
    hide Suspends;
  }

  lemma HeldAppend(runs: seq<Run>, run: Run, q: QueueType)
    ensures |Holders(runs + [run], q)| == |Holders(runs, q)| + (if Holds(run, q) then 1 else 0)
  {
    hide Holds;
    HoldersAppend(runs, run, q);
    assert |runs| !in Holders(runs, q);
    hide Holders;
  }

  lemma HoldersReplace(runs: seq<Run>, i: nat, run: Run, q: QueueType)
    requires i < |runs|
    ensures Holders(runs[i := run], q) == Holders(runs, q) - {i} + (if Holds(run, q) then {i} else {})
  {
    hide Holds;
  }

  lemma SuspendedReplace(runs: seq<Run>, i: nat, run: Run, q: QueueType)
    requires i < |runs|
    ensures Suspended(runs[i := run], q) == Suspended(runs, q) - {i} + (if Suspends(run, q) then {i} else {})
  {
    hide Suspends;
  }

  lemma HeldReplace(runs: seq<Run>, i: nat, run: Run, q: QueueType)
    requires i < |runs|
    ensures |Holders(runs[i := run], q)|
         == |Holders(runs, q)| - (if Holds(runs[i], q) then 1 else 0) + (if Holds(run, q) then 1 else 0)
  {
    hide Holds;
    HoldersReplace(runs, i, run, q);
    assert i in Holders(runs, q) <==> Holds(runs[i], q);
    hide Holders;
  }

  /** Rewriting a run that neither starts nor stops holding or waiting on `q`. */
  lemma RewriteRun(runs: seq<Run>, i: nat, run: Run, q: QueueType)
    requires i < |runs| && (Holds(run, q) <==> Holds(runs[i], q)) && (Suspends(run, q) <==> Suspends(runs[i], q))
    ensures |Holders(runs[i := run], q)| == |Holders(runs, q)|
    ensures Suspended(runs[i := run], q) == Suspended(runs, q)
  {
    hide Holds, Suspends;
    HeldReplace(runs, i, run, q);
    SuspendedReplace(runs, i, run, q);
    assert i in Suspended(runs, q) <==> Suspends(runs[i], q);
  }

  predicate SamePlace(a: Run, b: Run) {
    && b.mode == a.mode && (b.phase == Queued <==> a.phase == Queued)
    && (b.phase == Released || b.phase == Dropped <==> a.phase == Released || a.phase == Dropped)
  }

  lemma RewriteGates(s: Registry, t: Registry, i: nat, run: Run)
    requires Inv(s) && i < |s.runs| && t.gates == s.gates && t.runs == s.runs[i := run] && t.enabled == s.enabled
    requires SamePlace(s.runs[i], run)
    ensures forall q :: q in t.gates ==> GateInv(t, q)
  {
    hide Holders, Suspended, GateOk, PoolInv;
    forall q | q in t.gates ensures GateInv(t, q) {
      assert GateInv(s, q);
      assert (Holds(run, q) <==> Holds(s.runs[i], q)) && (Suspends(run, q) <==> Suspends(s.runs[i], q));
      RewriteRun(s.runs, i, run, q);
    }
  }

  // ---------- Every step keeps the invariant ----------

  lemma UnqueuedAddGate(s: Registry, t: Registry, run: Run, q: QueueType)
    requires q in s.gates && GateInv(s, q) && q in t.gates && t.gates[q] == s.gates[q] && t.enabled == s.enabled
    requires t.runs == s.runs + [run] && !Suspends(run, q) && (s.enabled ==> !Holds(run, q))
    ensures GateInv(t, q)
  {
    hide Holders, Suspended, Lists, Consistent, Holds, Suspends;
    HeldAppend(s.runs, run, q);
    SuspendedAppend(s.runs, run, q);
    assert Suspended(t.runs, q) == Suspended(s.runs, q);
  }

  lemma GatedAddGate(s: Registry, id: ExecutionId, mode: Mode, q: QueueType)
    requires q in s.gates && GateInv(s, q) && s.enabled && QueueOf(mode) == Some(q)
    ensures GateInv(BeginAdd(s, id, mode), q)
  {
    hide Holders, Suspended, Lists, Consistent, TakeUnit, QueueOf;
    var n, t := |s.runs|, BeginAdd(s, id, mode);
    var run := t.runs[n];
    HeldAppend(s.runs, run, q);
    SuspendedAppend(s.runs, run, q);
    NotYetSuspended(s.runs, q);
    TakeOk(s.gates[q], Waiter(id, n), Suspended(s.runs, q), |Holders(s.runs, q)|);
    assert Holds(run, q) && (Suspends(run, q) <==> !TakeUnit(s.gates[q], Waiter(id, n)).1);
    assert Suspended(t.runs, q) == if Suspends(run, q) then Suspended(s.runs, q) + {n} else Suspended(s.runs, q);
  }

  lemma BeginAddGate(s: Registry, id: ExecutionId, mode: Mode, q: QueueType)
    requires q in s.gates && GateInv(s, q)
    ensures GateInv(BeginAdd(s, id, mode), q)
  {
    hide GateInv, TakeUnit, QueueOf;
    if s.enabled && QueueOf(mode) == Some(q) {
      GatedAddGate(s, id, mode, q);
    } else {
      var t := BeginAdd(s, id, mode);
      UnqueuedAddGate(s, t, t.runs[|s.runs|], q);
    }
  }

  lemma NotYetSuspended(runs: seq<Run>, q: QueueType)
    ensures |runs| !in Suspended(runs, q)
  {
  }

  lemma BeginAddPool(s: Registry, id: ExecutionId, mode: Mode)
    requires PoolInv(s)
    ensures PoolInv(BeginAdd(s, id, mode)) && BeginAdd(s, id, mode).gates.Keys == s.gates.Keys
  {
    hide TakeUnit, QueueOf, RunOk;
    var t := BeginAdd(s, id, mode);
    NewRunOk(s, id, mode);
    assert t.gates.Keys == s.gates.Keys;
    forall j | 0 <= j < |t.runs| ensures RunOk(t.gates.Keys, t.runs[j]) {
      if j < |s.runs| { assert RunOk(s.gates.Keys, s.runs[j]) && t.runs[j] == s.runs[j]; }
    }
    forall j | j in t.active ensures EntryOk(t, j) { assert EntryOk(s, j); }
  }

  lemma NewRunOk(s: Registry, id: ExecutionId, mode: Mode)
    ensures RunOk(s.gates.Keys, NewRun(id, mode, Admitted))
    ensures Gated(s, mode) ==> RunOk(s.gates.Keys, NewRun(id, mode, Queued))
  {
    hide QueueOf;
  }

  lemma BeginAddInv(s: Registry, id: ExecutionId, mode: Mode)
    requires Inv(s)
    ensures Inv(BeginAdd(s, id, mode))
  {
    hide GateInv, PoolInv, BeginAdd;
    BeginAddPool(s, id, mode);
    forall q | q in s.gates ensures GateInv(BeginAdd(s, id, mode), q) { BeginAddGate(s, id, mode, q); }
  }

  /** Letting the released waiter through: it stops waiting but goes on holding. */
  lemma ResumeSuspended(runs: seq<Run>, resumed: Option<nat>, p: QueueType, q: QueueType)
    requires AsSet(resumed) <= Suspended(runs, p)
    ensures |Resume(runs, resumed)| == |runs|
    ensures Suspended(Resume(runs, resumed), q)
         == if p == q then Suspended(runs, q) - AsSet(resumed) else Suspended(runs, q)
  {
    if resumed.Some? {
      var i := resumed.value;
      assert i in Suspended(runs, p);
      SuspendedReplace(runs, i, runs[i].(phase := Admitted), q);
      assert p != q ==> i !in Suspended(runs, q);
    }
  }

  lemma ResumeHolders(runs: seq<Run>, resumed: Option<nat>, p: QueueType, q: QueueType)
    requires AsSet(resumed) <= Suspended(runs, p)
    ensures |Holders(Resume(runs, resumed), q)| == |Holders(runs, q)|
  {
    if resumed.Some? {
      var i := resumed.value;
      assert i in Suspended(runs, p);
      HeldReplace(runs, i, runs[i].(phase := Admitted), q);
    }
  }

  lemma HolderCounts(runs: seq<Run>, i: nat, q: QueueType)
    requires i < |runs| && Holds(runs[i], q)
    ensures |Holders(runs, q)| > 0
  {
    assert i in Holders(runs, q);
  }

  lemma ResumeOthers(runs: seq<Run>, resumed: Option<nat>, p: QueueType)
    requires AsSet(resumed) <= Suspended(runs, p)
    ensures |Resume(runs, resumed)| == |runs|
    ensures forall j :: 0 <= j < |runs| ==> Lets(runs[j], Resume(runs, resumed)[j])
  {
    if resumed.Some? { assert resumed.value in Suspended(runs, p); }
  }

  predicate Lets(a: Run, b: Run) { b == a || (a.phase == Queued && b == a.(phase := Admitted)) }

  /** What releasing the unit of an active run does, seen from any gate `q`. */
  lemma ReleaseGate(s: Registry, i: nat, q: QueueType)
    requires Inv(s) && i < |s.runs| && s.runs[i].phase == Active && q in s.gates
    ensures var r := Release(s, s.runs[i].mode);
            && q in r.gates && |Holders(r.runs, q)| == |Holders(s.runs, q)|
            && GateOk(r.gates[q], Suspended(r.runs, q),
                      |Holders(s.runs, q)| - (if QueueOf(s.runs[i].mode) == Some(q) then 1 else 0), s.enabled)
  {
    hide Lists, Consistent, GiveUnit, Holders, Suspended, PoolInv, Resume;
    var mode := s.runs[i].mode;
    assert GateInv(s, q);
    if Gated(s, mode) {
      var p := QueueOf(mode).value;
      assert GateInv(s, p);
      HolderCounts(s.runs, i, p);
      GiveOk(s.gates[p], Suspended(s.runs, p), |Holders(s.runs, p)|);
      ResumeSuspended(s.runs, GiveUnit(s.gates[p]).1, p, q);
      ResumeHolders(s.runs, GiveUnit(s.gates[p]).1, p, q);
    }
  }

  lemma ReleaseRuns(s: Registry, mode: Mode)
    requires Inv(s)
    ensures var r := Release(s, mode);
            && |r.runs| == |s.runs| && r.gates.Keys == s.gates.Keys && r == s.(gates := r.gates, runs := r.runs)
            && forall j :: 0 <= j < |s.runs| ==> Lets(s.runs[j], r.runs[j])
  {
    hide Consistent, GiveUnit, Holders, Suspended, PoolInv, Lists, Resume, Lets;
    if Gated(s, mode) {
      var p := QueueOf(mode).value;
      assert GateInv(s, p);
      assert AsSet(GiveUnit(s.gates[p]).1) <= Suspended(s.runs, p) by { HeadSuspended(s, p); }
      ResumeOthers(s.runs, GiveUnit(s.gates[p]).1, p);
    } else {
      forall j | 0 <= j < |s.runs| ensures Lets(s.runs[j], s.runs[j]) { SameLets(s.runs[j]); }
    }
  }

  lemma SameLets(a: Run)
    ensures Lets(a, a)
  {
  }

  lemma HeadSuspended(s: Registry, q: QueueType)
    requires q in s.gates && GateInv(s, q)
    ensures AsSet(GiveUnit(s.gates[q]).1) <= Suspended(s.runs, q)
  {
    hide Holders, Suspended;
    if s.gates[q].queue != [] { ShiftLists(s.gates[q].queue, Suspended(s.runs, q)); }
  }

  /** A callback gives back exactly the unit its incarnation held. */
  lemma CallbackGate(s: Registry, i: nat, q: QueueType)
    requires Inv(s) && CallbackDue(s, i) && q in s.gates
    ensures q in Callback(s, i).gates && GateInv(Callback(s, i), q)
  {
    hide Lists, Consistent, GiveUnit, Holders, Suspended, Release, Inv;
    ReleaseGate(s, i, q);
    ReleaseRuns(s, s.runs[i].mode);
    var r, t := Release(s, s.runs[i].mode), Callback(s, i);
    assert Lets(s.runs[i], r.runs[i]) && r.runs[i] == s.runs[i];
    HeldReplace(r.runs, i, t.runs[i], q);
    SuspendedReplace(r.runs, i, t.runs[i], q);
    assert i !in Suspended(r.runs, q) by { ActiveNotSuspended(r.runs, i, q); }
    assert Suspended(t.runs, q) == Suspended(r.runs, q);
  }

  lemma ActiveNotSuspended(runs: seq<Run>, i: nat, q: QueueType)
    requires i < |runs| && runs[i].phase != Queued
    ensures i !in Suspended(runs, q)
  {
  }

  /** Letting a queued run through keeps the pool well-formed. */
  lemma LetsPool(s: Registry, r: Registry)
    requires PoolInv(s) && |r.runs| == |s.runs| && r.gates.Keys == s.gates.Keys
    requires r == s.(gates := r.gates, runs := r.runs)
    requires forall j :: 0 <= j < |s.runs| ==> Lets(s.runs[j], r.runs[j])
    ensures PoolInv(r)
  {
    hide QueueOf;
    forall id | id in r.active ensures EntryOk(r, id) {
      assert EntryOk(s, id);
      assert Lets(s.runs[s.active[id]], r.runs[s.active[id]]);
    }
    forall j | 0 <= j < |r.runs| ensures RunOk(r.gates.Keys, r.runs[j]) {
      assert RunOk(s.gates.Keys, s.runs[j]) && Lets(s.runs[j], r.runs[j]);
    }
  }

  predicate Kept(s: Registry, t: Registry, id: ExecutionId)
    requires id in t.active
  {
    id in s.active && t.active[id] == s.active[id]
  }

  predicate EntersAs(t: Registry, id: ExecutionId, i: nat, run: Run)
    requires id in t.active
  {
    t.active[id] == i && id == run.id && (run.phase == Active || run.phase == Released)
  }

  /** Rewriting one run, and possibly unmapping or remapping ids, keeps the pool well-formed. */
  lemma RewritePool(s: Registry, t: Registry, i: nat, run: Run)
    requires PoolInv(s) && i < |s.runs| && t.runs == s.runs[i := run] && t.gates.Keys == s.gates.Keys
    requires t.regular == s.regular && (t.enabled ==> s.enabled)
    requires run.id == s.runs[i].id && RunOk(s.gates.Keys, run)
    requires s.runs[i].phase == Active || s.runs[i].phase == Released ==> run.phase == Active || run.phase == Released
    requires forall id :: id in t.active ==> Kept(s, t, id) || EntersAs(t, id, i, run)
    ensures PoolInv(t)
  {
    hide RunOk;
    forall id | id in t.active ensures EntryOk(t, id) {
      if Kept(s, t, id) { assert EntryOk(s, id); }
    }
    forall j | 0 <= j < |t.runs| ensures RunOk(t.gates.Keys, t.runs[j]) {
      assert RunOk(s.gates.Keys, s.runs[j]);
    }
  }

  lemma CallbackPool(s: Registry, i: nat)
    requires Inv(s) && CallbackDue(s, i)
    ensures PoolInv(Callback(s, i)) && Callback(s, i).gates.Keys == s.gates.Keys
  {
    hide GateInv, Release, PoolInv, QueueOf;
    var r, t := Release(s, s.runs[i].mode), Callback(s, i);
    ReleaseRuns(s, s.runs[i].mode);
    assert Lets(s.runs[i], r.runs[i]) && r.runs[i] == s.runs[i];
    LetsPool(s, r);
    RewritePool(r, t, i, t.runs[i]);
  }

  lemma CallbackInv(s: Registry, i: nat)
    requires Inv(s)
    ensures Inv(Callback(s, i))
  {
    hide GateInv, PoolInv, Release;
    if CallbackDue(s, i) {
      CallbackPool(s, i);
      forall q | q in s.gates ensures GateInv(Callback(s, i), q) { CallbackGate(s, i, q); }
    }
  }

  /** Dropping the removed waiter and resuming the next, seen from any gate `q`. */
  lemma DropAndResume(s: Registry, p: QueueType, k: nat, resumed: Option<nat>, q: QueueType)
    requires p in s.gates && GateInv(s, p) && k < |s.gates[p].queue|
    requires AsSet(resumed) <= Suspended(s.runs, p) - {s.gates[p].queue[k].run}
    ensures var i := s.gates[p].queue[k].run;
            && i < |s.runs|
            && var runs := Resume(s.runs[i := s.runs[i].(phase := Dropped)], resumed);
               && |Holders(runs, q)| == |Holders(s.runs, q)| - (if p == q then 1 else 0)
               && Suspended(runs, q)
                  == if p == q then Suspended(s.runs, q) - {i} - AsSet(resumed) else Suspended(s.runs, q)
  {
    hide Lists, Consistent, Holders, Suspended, Resume;
    WaiterHolds(s, p, k);
    var i := s.gates[p].queue[k].run;
    var dropped := s.runs[i].(phase := Dropped);
    HeldReplace(s.runs, i, dropped, q);
    DropSuspended(s.runs, i, p, p);
    DropSuspended(s.runs, i, p, q);
    ResumeSuspended(s.runs[i := dropped], resumed, p, q);
    ResumeHolders(s.runs[i := dropped], resumed, p, q);
  }

  lemma RemoveQueuedGate(s: Registry, id: ExecutionId, mode: Mode, q: QueueType)
    requires Inv(s) && q in s.gates
    ensures q in RemoveQueued(s, id, mode).gates && GateInv(RemoveQueued(s, id, mode), q)
  {
    hide Lists, Consistent, RemoveWaiter, Holders, Suspended, PoolInv, Resume, QueueOf;
    assert GateInv(s, q);
    if Gated(s, mode) && RemoveQueued(s, id, mode) != s {
      var p := QueueOf(mode).value;
      assert GateInv(s, p);
      var k := Position(s.gates[p].queue, id);
      WaiterHolds(s, p, k);
      RemoveOk(s.gates[p], id, Suspended(s.runs, p), |Holders(s.runs, p)|);
      DropAndResume(s, p, k, RemoveWaiter(s.gates[p], id).1, q);
    }
  }

  lemma WaiterHolds(s: Registry, q: QueueType, k: nat)
    requires q in s.gates && GateInv(s, q) && k < |s.gates[q].queue|
    ensures var i := s.gates[q].queue[k].run; i < |s.runs| && Suspends(s.runs[i], q) && |Holders(s.runs, q)| > 0
  {
    var i := s.gates[q].queue[k].run;
    assert i in Suspended(s.runs, q);
    HolderCounts(s.runs, i, q);
  }

  lemma DropSuspended(runs: seq<Run>, i: nat, p: QueueType, q: QueueType)
    requires i < |runs| && Suspends(runs[i], p)
    ensures Suspended(runs[i := runs[i].(phase := Dropped)], q)
         == if p == q then Suspended(runs, q) - {i} else Suspended(runs, q)
  {
    SuspendedReplace(runs, i, runs[i].(phase := Dropped), q);
    assert p != q ==> i !in Suspended(runs, q);
  }

  lemma RemoveQueuedPool(s: Registry, id: ExecutionId, mode: Mode)
    requires Inv(s)
    ensures PoolInv(RemoveQueued(s, id, mode)) && RemoveQueued(s, id, mode).gates.Keys == s.gates.Keys
  {
    hide Consistent, RemoveWaiter, Lists, GateOk, Holders, Suspended, PoolInv, Resume, Lets, RunOk;
    if Gated(s, mode) && RemoveQueued(s, id, mode) != s {
      var p := QueueOf(mode).value;
      assert GateInv(s, p);
      var (gate, resumed) := RemoveWaiter(s.gates[p], id);
      var k := Position(s.gates[p].queue, id);
      WaiterHolds(s, p, k);
      var i := s.gates[p].queue[k].run;
      var d := s.(runs := s.runs[i := s.runs[i].(phase := Dropped)]);
      DroppedOk(s, i);
      RewritePool(s, d, i, d.runs[i]);
      RemoveResumes(s, id, p);
      DropSuspended(s.runs, i, p, p);
      ResumeOthers(d.runs, resumed, p);
      LetsPool(d, RemoveQueued(s, id, mode));
    }
  }

  lemma DroppedOk(s: Registry, i: nat)
    requires PoolInv(s) && i < |s.runs| && s.runs[i].phase == Queued
    ensures RunOk(s.gates.Keys, s.runs[i].(phase := Dropped))
    ensures forall id :: id in s.active ==> s.active[id] != i
  {
    assert RunOk(s.gates.Keys, s.runs[i]);
    forall id | id in s.active ensures s.active[id] != i { assert EntryOk(s, id); }
  }

  lemma RemoveResumes(s: Registry, id: ExecutionId, p: QueueType)
    requires p in s.gates && GateInv(s, p) && ConcurrencyQueue.Queued(s.gates[p], id)
    ensures AsSet(RemoveWaiter(s.gates[p], id).1)
         <= Suspended(s.runs, p) - {s.gates[p].queue[Position(s.gates[p].queue, id)].run}
  {
    hide Holders, Suspended;
    var k := Position(s.gates[p].queue, id);
    CutLists(s.gates[p].queue, Suspended(s.runs, p), k);
    var rest := s.gates[p].queue[..k] + s.gates[p].queue[k + 1..];
    if rest != [] { ShiftLists(rest, Suspended(s.runs, p) - {s.gates[p].queue[k].run}); }
  }

  lemma RemoveQueuedInv(s: Registry, id: ExecutionId, mode: Mode)
    requires Inv(s)
    ensures Inv(RemoveQueued(s, id, mode))
  {
    hide GateInv, PoolInv, RemoveQueued;
    RemoveQueuedPool(s, id, mode);
    forall q | q in s.gates ensures GateInv(RemoveQueued(s, id, mode), q) { RemoveQueuedGate(s, id, mode, q); }
  }

  /** Steps that rewrite the current incarnation of one id in place, or only unmap it. */
  lemma RewriteInv(s: Registry, t: Registry, i: nat)
    requires Inv(s) && i < |s.runs| && |t.runs| == |s.runs| && t.runs == s.runs[i := t.runs[i]]
    requires t.gates == s.gates && t.enabled == s.enabled && t.regular == s.regular
    requires SamePlace(s.runs[i], t.runs[i]) && t.runs[i].id == s.runs[i].id && RunOk(s.gates.Keys, t.runs[i])
    requires s.runs[i].phase == Active || s.runs[i].phase == Released ==>
               t.runs[i].phase == Active || t.runs[i].phase == Released
    requires forall id :: id in t.active ==> Kept(s, t, id) || EntersAs(t, id, i, t.runs[i])
    ensures Inv(t)
  {
    hide GateInv, PoolInv, RunOk, SamePlace;
    RewriteGates(s, t, i, t.runs[i]);
    RewritePool(s, t, i, t.runs[i]);
  }

  lemma FinalizeInv(s: Registry, id: ExecutionId)
    requires Inv(s)
    ensures Inv(Finalize(s, id))
  {
    hide GateInv, QueueOf;
    if Has(s, id) {
      assert EntryOk(s, id);
      assert RunOk(s.gates.Keys, Current(s, id));
      hide PoolInv;
      RewriteInv(s, Finalize(s, id), s.active[id]);
    }
  }

  lemma StopInv(s: Registry, id: ExecutionId)
    requires Inv(s)
    ensures Inv(Stop(s, id))
  {
    hide Inv, Settled;
    if Has(s, id) {
      if Current(s, id).status == Waiting { StopWaitingInv(s, id); } else { StopRunningInv(s, id); }
    }
  }

  lemma StopWaitingInv(s: Registry, id: ExecutionId)
    requires Inv(s) && Has(s, id) && Current(s, id).status == Waiting
    ensures Inv(Stop(s, id))
  {
    hide GateInv, QueueOf, Settled;
    assert EntryOk(s, id) && RunOk(s.gates.Keys, Current(s, id));
    hide PoolInv, RunOk, EntryOk;
    RewriteInv(s, Stop(s, id), s.active[id]);
  }

  lemma StopRunningInv(s: Registry, id: ExecutionId)
    requires Inv(s) && Has(s, id) && Current(s, id).status != Waiting
    ensures Inv(Stop(s, id))
  {
    hide GateInv, QueueOf, Settled;
    assert EntryOk(s, id) && RunOk(s.gates.Keys, Current(s, id));
    var t := Stop(s, id);
    assert RunOk(s.gates.Keys, t.runs[s.active[id]]);
    hide PoolInv, RunOk, EntryOk, Stop;
    assert t.active == s.active && t.runs == s.runs[s.active[id] := t.runs[s.active[id]]];
    RewriteInv(s, t, s.active[id]);
  }

  lemma AttachingStepInv(s: Registry, e: Event)
    requires Inv(s) && (e.DoSetStatus? || e.DoAttachWorkflow? || e.DoAttachResponse? || e.DoResolveResponse?)
    ensures Inv(Step(s, e))
  {
    hide GateInv, Settled, QueueOf;
    if Has(s, e.id) {
      assert EntryOk(s, e.id);
      var i := s.active[e.id];
      assert RunOk(s.gates.Keys, s.runs[i]);
      hide PoolInv;
      RewriteInv(s, Step(s, e), i);
    }
  }

  lemma AddStepInv(s: Registry, e: Event)
    requires Inv(s) && (e.DoFailAdd? || e.DoRegister?)
    ensures Inv(Step(s, e))
  {
    hide GateInv, QueueOf;
    if e.run < |s.runs| && s.runs[e.run].phase == Admitted {
      assert RunOk(s.gates.Keys, s.runs[e.run]);
      hide PoolInv;
      RewriteInv(s, Step(s, e), e.run);
    }
  }

  lemma DisableInv(s: Registry)
    requires Inv(s)
    ensures Inv(s.(enabled := false))
  {
    hide Holders, Suspended, Lists, Consistent;
    forall q | q in s.gates ensures GateInv(s.(enabled := false), q) { assert GateInv(s, q); }
  }

  lemma StepInv(s: Registry, e: Event)
    requires Inv(s)
    ensures Inv(Step(s, e))
  {
    hide Inv, BeginAdd, Callback, RemoveQueued, Stop, Finalize;
    match e
    case DoBeginAdd(id, mode) => BeginAddInv(s, id, mode);
    case DoCallback(i) => CallbackInv(s, i);
    case DoRemoveQueued(id, mode) => RemoveQueuedInv(s, id, mode);
    case DoFailAdd(_) => AddStepInv(s, e);
    case DoRegister(_, _) => AddStepInv(s, e);
    case DoDisable => DisableInv(s);
    case DoStop(id) => StopInv(s, id);
    case DoFinalize(id) => FinalizeInv(s, id);
    case _ => AttachingStepInv(s, e);
  }

  lemma {:induction false} TraceInv(s: Registry, es: seq<Event>)
    requires Inv(s)
    ensures Inv(Trace(s, es))
    decreases |es|
  {
    hide Inv, Step;
    if es != [] {
      StepInv(s, es[0]);
      TraceInv(Step(s, es[0]), es[1..]);
    }
  }

  // ---------- What is throttled ----------

  /** Throttling is on in regular mode with some positive limit, and each queue with a
      positive limit starts with that many units and nobody in it. */
  lemma StartsThrottled(regular: bool, limits: map<QueueType, int>, q: QueueType)
    ensures var s := Initial(regular, limits);
            && (s.enabled <==> regular && exists p :: p in limits && limits[p] > 0)
            && (q in s.gates <==> q in limits && limits[q] > 0)
            && (q in s.gates ==> s.gates[q].limit == s.gates[q].capacity == limits[q] && s.gates[q].queue == [])
            && s.runs == [] && s.active == map[]
  {
    var gates := Initial(regular, limits).gates;
    if p :| p in limits && limits[p] > 0 { assert p in gates; }
    if gates != map[] {
      var p :| p in gates;
      assert p in limits && limits[p] > 0;
    }
  }

  /** An add waits exactly if throttling is on and it is one of a webhook or a trigger and no
      production unit is left, or one of an evaluation and no evaluation unit is. All other
      modes go through at once and take nothing. */
  lemma WhoWaits(s: Registry, id: ExecutionId, mode: Mode)
    ensures var t := Step(s, DoBeginAdd(id, mode));
            && |t.runs| == |s.runs| + 1
            && t.runs[|s.runs|].phase
               == (if s.enabled
                      && (((mode == Webhook || mode == TriggerMode)
                           && Production in s.gates && s.gates[Production].capacity <= 0)
                          || (mode == Evaluation
                              && EvaluationQueue in s.gates && s.gates[EvaluationQueue].capacity <= 0))
                   then Queued else Admitted)
            && (mode != Webhook && mode != TriggerMode && mode != Evaluation ==> t.gates == s.gates)
            && (mode != Evaluation && EvaluationQueue in s.gates ==>
                EvaluationQueue in t.gates && t.gates[EvaluationQueue] == s.gates[EvaluationQueue])
            && (mode == Evaluation && Production in s.gates ==>
                Production in t.gates && t.gates[Production] == s.gates[Production])
  {
  }

  /** What an add that is let through leaves behind: a running, unsettled execution without a
      workflow attached, which takes over start time and response promise if it resumes. */
  lemma AddedRun(s: Registry, id: ExecutionId, mode: Mode, now: nat)
    requires Inv(s)
    requires var u := Step(s, DoBeginAdd(id, mode)); |u.runs| > |s.runs| && u.runs[|s.runs|].phase == Admitted
    ensures var i, t := |s.runs|, Step(Step(s, DoBeginAdd(id, mode)), DoRegister(|s.runs|, now));
            && |t.runs| == i + 1 && t.active == s.active[id := i]
            && t.runs[i]
               == if id in s.active
                  then Run(id, mode, Active, Current(s, id).startedAt, Running, Current(s, id).response,
                           false, false, None)
                  else Run(id, mode, Active, now, Running, None, false, false, None)
  {
    hide TakeUnit, QueueOf, GateInv;
    assert id in s.active ==> EntryOk(s, id);
  }

  // ---------- Conservation and the concurrency limit ----------

  lemma {:induction false} ListsSize(queue: seq<Waiter>, waiting: set<nat>)
    requires Lists(queue, waiting)
    ensures |waiting| == |queue|
    decreases |queue|
  {
    if queue == [] {
      assert waiting == {};
    } else {
      ShiftLists(queue, waiting);
      ListsSize(queue[1..], waiting - {queue[0].run});
    }
  }

  /** The adds and incarnations that `q` has let through and that still hold a unit. */
  function Through(runs: seq<Run>, q: QueueType): set<nat> { Holders(runs, q) - Suspended(runs, q) }

  lemma ThroughSize(runs: seq<Run>, q: QueueType)
    ensures |Through(runs, q)| == |Holders(runs, q)| - |Suspended(runs, q)|
  {
    assert Suspended(runs, q) <= Holders(runs, q);
    assert Holders(runs, q) == Through(runs, q) + Suspended(runs, q);
  }

  /** Over every interleaving the capacity still missing is exactly the number of
      throttles whose release has not run, and what the gate counts as let through is
      what has been let through. */
  lemma ThrottleConservation(regular: bool, limits: map<QueueType, int>, es: seq<Event>, q: QueueType)
    requires var s := Trace(Initial(regular, limits), es); s.enabled && q in s.gates
    ensures var s := Trace(Initial(regular, limits), es);
            && s.gates[q].limit - s.gates[q].capacity == |Holders(s.runs, q)|
            && |Suspended(s.runs, q)| == |s.gates[q].queue|
            && |Through(s.runs, q)| == ConcurrencyQueue.Admitted(s.gates[q])
  {
    hide *;
    InitialInv(regular, limits);
    TraceInv(Initial(regular, limits), es);
    Conserved(Trace(Initial(regular, limits), es), q);
  }

  lemma Conserved(s: Registry, q: QueueType)
    requires Inv(s) && s.enabled && q in s.gates
    ensures s.gates[q].limit - s.gates[q].capacity == |Holders(s.runs, q)|
    ensures |Suspended(s.runs, q)| == |s.gates[q].queue|
    ensures |Through(s.runs, q)| == ConcurrencyQueue.Admitted(s.gates[q])
  {
    hide Inv, Holders, Suspended, Through;
    InvAt(s, q);
    ListsSize(s.gates[q].queue, Suspended(s.runs, q));
    ThroughSize(s.runs, q);
  }

  lemma InvAt(s: Registry, q: QueueType)
    requires Inv(s) && q in s.gates
    ensures GateInv(s, q)
  {
  }

  /** Removals of a queued execution while another one is queued on the same gate. */
  predicate Crowded(s: Registry, e: Event, q: QueueType)
    requires q in s.gates
  {
    e.DoRemoveQueued? && s.enabled && QueueOf(e.mode) == Some(q) &&
    ConcurrencyQueue.Queued(s.gates[q], e.id) && |s.gates[q].queue| >= 2
  }

  lemma StepExcess(s: Registry, e: Event, q: QueueType)
    requires Inv(s) && q in s.gates
    ensures q in Step(s, e).gates && Step(s, e).gates[q].limit == s.gates[q].limit
    ensures Excess(Step(s, e).gates[q]) <= Excess(s.gates[q]) + if Crowded(s, e, q) then 1 else 0
  {
    hide QueueOf, BeginAdd, Callback, RemoveQueued, Excess, Inv;
    match e
    case DoBeginAdd(id, mode) => BeginAddExcess(s, id, mode, q);
    case DoCallback(i) => CallbackExcess(s, i, q);
    case DoRemoveQueued(id, mode) => RemoveQueuedExcess(s, id, mode, q);
    case _ =>
  }

  lemma BeginAddExcess(s: Registry, id: ExecutionId, mode: Mode, q: QueueType)
    requires Inv(s) && q in s.gates
    ensures var t := BeginAdd(s, id, mode);
            q in t.gates && t.gates[q].limit == s.gates[q].limit && Excess(t.gates[q]) <= Excess(s.gates[q])
  {
    hide QueueOf, Holders, Suspended, Lists, PoolInv, TakeUnit, Excess;
    assert GateInv(s, q);
    TakeAndGiveKeepLimit(s.gates[q], Waiter(id, |s.runs|));
    TakeLimit(s.gates[q], Waiter(id, |s.runs|));
  }

  lemma CallbackExcess(s: Registry, i: nat, q: QueueType)
    requires Inv(s) && q in s.gates
    ensures var t := Callback(s, i);
            q in t.gates && t.gates[q].limit == s.gates[q].limit && Excess(t.gates[q]) <= Excess(s.gates[q])
  {
    hide QueueOf, Holders, Suspended, Lists, PoolInv, GiveUnit, Excess, Resume;
    assert GateInv(s, q);
    GiveLimit(s.gates[q]);
  }

  lemma RemoveQueuedExcess(s: Registry, id: ExecutionId, mode: Mode, q: QueueType)
    requires Inv(s) && q in s.gates
    ensures var t := RemoveQueued(s, id, mode);
            q in t.gates && t.gates[q].limit == s.gates[q].limit &&
            Excess(t.gates[q]) <= Excess(s.gates[q]) + if Crowded(s, DoRemoveQueued(id, mode), q) then 1 else 0
  {
    hide QueueOf, Holders, Suspended, Lists, PoolInv, RemoveWaiter, Excess, Resume;
    assert GateInv(s, q);
    RemoveOverAdmits(s.gates[q], id);
    RemoveLimit(s.gates[q], id);
  }

  lemma TakeLimit(g: Gate, w: Waiter)
    ensures TakeUnit(g, w).0.limit == g.limit
  {
  }

  lemma GiveLimit(g: Gate)
    requires Consistent(g)
    ensures GiveUnit(g).0.limit == g.limit && Excess(GiveUnit(g).0) <= Excess(g)
  {
  }

  lemma RemoveLimit(g: Gate, id: ExecutionId)
    ensures RemoveWaiter(g, id).0.limit == g.limit
  {
  }

  function CrowdedSteps(s: Registry, es: seq<Event>, q: QueueType): nat
    decreases |es|
  {
    if es == [] then 0 else
    (if q in s.gates && Crowded(s, es[0], q) then 1 else 0) + CrowdedSteps(Step(s, es[0]), es[1..], q)
  }

  lemma {:induction false} TraceExcess(s: Registry, es: seq<Event>, q: QueueType)
    requires Inv(s) && q in s.gates
    ensures q in Trace(s, es).gates && Trace(s, es).gates[q].limit == s.gates[q].limit
    ensures Excess(Trace(s, es).gates[q]) <= Excess(s.gates[q]) + CrowdedSteps(s, es, q)
    decreases |es|
  {
    hide Inv, Step, Excess, Crowded;
    if es != [] {
      StepExcess(s, es[0], q);
      StepInv(s, es[0]);
      TraceExcess(Step(s, es[0]), es[1..], q);
    }
  }

  /** The concurrency limit, over every interleaving: at most `limit` executions are
      through a gate at once, plus one for each crowded removal that happened. */
  lemma LimitRespected(regular: bool, limits: map<QueueType, int>, es: seq<Event>, q: QueueType)
    requires q in limits && limits[q] > 0
    requires Trace(Initial(regular, limits), es).enabled
    ensures |Through(Trace(Initial(regular, limits), es).runs, q)|
         <= limits[q] + CrowdedSteps(Initial(regular, limits), es, q)
  {
    hide Inv, Trace, Holders, Suspended, Through, CrowdedSteps;
    var s := Initial(regular, limits);
    InitialInv(regular, limits);
    TraceExcess(s, es, q);
    ThrottleConservation(regular, limits, es, q);
    TraceInv(s, es);
    InvAt(Trace(s, es), q);
    LimitHoldsWithoutExcess(Trace(s, es).gates[q]);
  }

  /** At no point of the run are more than `limit` executions through the gate. */
  predicate WithinLimit(s: Registry, es: seq<Event>, q: QueueType)
    decreases |es|
  {
    && q in s.gates && |Through(s.runs, q)| <= s.gates[q].limit
    && (es != [] ==> WithinLimit(Step(s, es[0]), es[1..], q))
  }

  lemma StaysDisabled(s: Registry, e: Event)
    requires Step(s, e).enabled
    ensures s.enabled
  {
    hide TakeUnit, GiveUnit, RemoveWaiter, Resume, Settled, SettleOnce, QueueOf;
  }

  lemma {:induction false} EnabledBefore(s: Registry, es: seq<Event>)
    requires Trace(s, es).enabled
    ensures s.enabled
    decreases |es|
  {
    hide Step;
    if es != [] {
      EnabledBefore(Step(s, es[0]), es[1..]);
      StaysDisabled(s, es[0]);
    }
  }

  /** While throttling is on, a gate is within its limit if and only if it has no excess. */
  lemma WithinIsNoExcess(s: Registry, q: QueueType)
    requires Inv(s) && s.enabled && q in s.gates
    ensures |Through(s.runs, q)| <= s.gates[q].limit <==> Excess(s.gates[q]) == 0
    ensures Excess(s.gates[q]) >= 0
  {
    hide *;
    Conserved(s, q);
    ConsistentAt(s, q);
    LimitHoldsWithoutExcess(s.gates[q]);
  }

  lemma ConsistentAt(s: Registry, q: QueueType)
    requires Inv(s) && q in s.gates
    ensures Consistent(s.gates[q]) && Excess(s.gates[q]) >= 0
  {
    hide Inv, Holders, Suspended, Lists, Excess;
    InvAt(s, q);
  }

  lemma CrowdedExcess(s: Registry, e: Event, q: QueueType)
    requires Inv(s) && q in s.gates && Crowded(s, e, q)
    ensures q in Step(s, e).gates && Excess(Step(s, e).gates[q]) == Excess(s.gates[q]) + 1
  {
    hide QueueOf, Inv, GateInv, RemoveWaiter, Excess, Resume, Holders;
    InvAt(s, q);
    ConsistentAt(s, q);
    RemoveOverAdmits(s.gates[q], e.id);
    WaiterHolds(s, q, Position(s.gates[q].queue, e.id));
  }

  /** The limit holds at every point of a run, as long as throttling is on, if and only if
      the run removes no queued execution while another one is queued. */
  lemma {:induction false} LimitHoldsExactly(s: Registry, es: seq<Event>, q: QueueType)
    requires Inv(s) && q in s.gates && Excess(s.gates[q]) == 0 && Trace(s, es).enabled
    ensures WithinLimit(s, es, q) <==> CrowdedSteps(s, es, q) == 0
    decreases |es|
  {
    EnabledBefore(s, es);
    WithinIsNoExcess(s, q);
    if es != [] {
      hide Inv, Step, Excess, Crowded, Through;
      var t := Step(s, es[0]);
      assert Trace(s, es) == Trace(t, es[1..]);
      EnabledBefore(t, es[1..]);
      StepInv(s, es[0]);
      StepExcess(s, es[0], q);
      WithinIsNoExcess(t, q);
      if Crowded(s, es[0], q) { CrowdedExcess(s, es[0], q); } else { LimitHoldsExactly(t, es[1..], q); }
    }
  }

  /** The same from the start. */
  lemma LimitExact(regular: bool, limits: map<QueueType, int>, es: seq<Event>, q: QueueType)
    requires q in limits && limits[q] > 0 && Trace(Initial(regular, limits), es).enabled
    ensures WithinLimit(Initial(regular, limits), es, q) <==> CrowdedSteps(Initial(regular, limits), es, q) == 0
  {
    hide Inv, Trace, WithinLimit, CrowdedSteps;
    InitialInv(regular, limits);
    LimitHoldsExactly(Initial(regular, limits), es, q);
  }

  lemma TraceUnfolds(s: Registry, es: seq<Event>, k: nat)
    requires k < |es|
    ensures Trace(s, es[k..]) == Trace(Step(s, es[k]), es[k + 1..])
    ensures k + 1 == |es| ==> Trace(s, es[k..]) == Step(s, es[k])
  {
    hide Step;
    assert es[k..][0] == es[k] && es[k..][1..] == es[k + 1..];
  }

  lemma WebhookAdd(s: Registry, id: ExecutionId, g: Gate)
    requires s.enabled && Production in s.gates && s.gates[Production] == g
    ensures var (next, proceeds) := TakeUnit(g, Waiter(id, |s.runs|));
            Step(s, DoBeginAdd(id, Webhook))
            == s.(gates := s.gates[Production := next],
                  runs := s.runs + [NewRun(id, Webhook, if proceeds then Admitted else Queued)])
  {
  }

  lemma WebhookRemove(s: Registry, id: ExecutionId, g: Gate)
    requires s.enabled && Production in s.gates && s.gates[Production] == g && |s.runs| == 3
    requires Position(g.queue, id) < |g.queue| && g.queue[Position(g.queue, id)].run == 1
    requires RemoveWaiter(g, id).1 == Some(2)
    ensures var t := Step(s, DoRemoveQueued(id, Webhook));
            t.enabled && |t.runs| == 3 && t.runs[0] == s.runs[0] && t.runs[2] == s.runs[2].(phase := Admitted)
  {
    hide Position, RemoveWaiter;
  }

  lemma ThreeAdds(a: ExecutionId, b: ExecutionId, c: ExecutionId) returns (s3: Registry)
    ensures s3
          == Step(Step(Step(Initial(true, map[Production := 1]), DoBeginAdd(a, Webhook)), DoBeginAdd(b, Webhook)),
                  DoBeginAdd(c, Webhook))
    ensures s3.enabled && Production in s3.gates && s3.gates[Production] == Gate(1, -2, [Waiter(b, 1), Waiter(c, 2)])
    ensures s3.runs == [NewRun(a, Webhook, Admitted), NewRun(b, Webhook, Queued), NewRun(c, Webhook, Queued)]
  {
    var s0 := Initial(true, map[Production := 1]);
    assert Production in s0.gates && s0.gates[Production] == Gate(1, 1, []) && s0.enabled && s0.runs == [];
    hide Initial, Step;
    var s1, s2 := Step(s0, DoBeginAdd(a, Webhook)), Step(Step(s0, DoBeginAdd(a, Webhook)), DoBeginAdd(b, Webhook));
    WebhookAdd(s0, a, Gate(1, 1, []));
    WebhookAdd(s1, b, Gate(1, 0, []));
    assert [] + [Waiter(b, 1)] == [Waiter(b, 1)];
    WebhookAdd(s2, c, Gate(1, -1, [Waiter(b, 1)]));
    s3 := Step(s2, DoBeginAdd(c, Webhook));
  }

  lemma TwoThrough(s: Registry, a: ExecutionId, b: ExecutionId, c: ExecutionId)
    requires b != c && s.enabled && Production in s.gates
    requires s.gates[Production] == Gate(1, -2, [Waiter(b, 1), Waiter(c, 2)])
    requires s.runs == [NewRun(a, Webhook, Admitted), NewRun(b, Webhook, Queued), NewRun(c, Webhook, Queued)]
    ensures var t := Step(s, DoRemoveQueued(b, Webhook)); t.enabled && |Through(t.runs, Production)| > 1
  {
    hide Through, Step, Position, RemoveWaiter;
    var last := s.gates[Production];
    RemoveFirst(last, b, c);
    WebhookRemove(s, b, last);
    var t := Step(s, DoRemoveQueued(b, Webhook));
    InThrough(t.runs, 0);
    InThrough(t.runs, 2);
    TwoElements(Through(t.runs, Production), 0, 2);
  }

  /** The limit is really exceeded: with one slot, two callers queue behind the first,
      the second is removed, and the third is through beside the first. */
  lemma LimitExceeded(a: ExecutionId, b: ExecutionId, c: ExecutionId)
    requires b != c
    ensures exists es ::
              var s := Trace(Initial(true, map[Production := 1]), es); s.enabled && |Through(s.runs, Production)| > 1
  {
    hide *;
    var s0, es := Initial(true, map[Production := 1]),
      [DoBeginAdd(a, Webhook), DoBeginAdd(b, Webhook), DoBeginAdd(c, Webhook), DoRemoveQueued(b, Webhook)];
    var s3 := ThreeAdds(a, b, c);
    TwoThrough(s3, a, b, c);
    TraceUnfolds(s0, es, 0);
    TraceUnfolds(Step(s0, es[0]), es, 1);
    TraceUnfolds(Step(Step(s0, es[0]), es[1]), es, 2);
    TraceUnfolds(s3, es, 3);
    assert es[0..] == es;
  }

  lemma InThrough(runs: seq<Run>, i: nat)
    requires i < |runs| && runs[i].mode == Webhook && runs[i].phase == Admitted
    ensures i in Through(runs, Production)
  {
  }

  lemma RemoveFirst(g: Gate, b: ExecutionId, c: ExecutionId)
    requires g.queue == [Waiter(b, 1), Waiter(c, 2)]
    ensures Position(g.queue, b) == 0 && RemoveWaiter(g, b) == (g.(capacity := g.capacity + 1, queue := []), Some(2))
  {
    assert g.queue[..0] + g.queue[1..] == [Waiter(c, 2)];
    assert [Waiter(c, 2)][1..] == [];
  }

  lemma TwoElements(s: set<nat>, x: nat, y: nat)
    requires x in s && y in s && x != y
    ensures |s| >= 2
  {
    assert {x, y} <= s;
    var rest := s - {x} - {y};
    assert s == rest + {x} + {y};
  }
}
