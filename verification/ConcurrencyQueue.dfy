/** The capacity queue behind execution throttling
    (packages/cli/src/concurrency/concurrency-queue.ts). */
module ConcurrencyQueue {
  import opened Options

  type ExecutionId = string

  /** A suspended `enqueue` call: `run` names the caller that its promise resumes. */
  datatype Waiter = Waiter(executionId: ExecutionId, run: nat)

  datatype Gate = Gate(limit: nat, capacity: int, queue: seq<Waiter>)

  /** How many callers have been let through and not yet released. */
  function Admitted(g: Gate): int { g.limit - g.capacity - |g.queue| }

  /** How far below zero the capacity is beyond what the queue accounts for. */
  function Excess(g: Gate): int { (if g.capacity < 0 then -g.capacity else 0) - |g.queue| }

  ghost predicate Consistent(g: Gate) {
    && g.capacity <= g.limit && 0 <= Excess(g)
    && (g.queue != [] ==> g.capacity < 0)
  }

  function NextWaiter(g: Gate): (Gate, Option<nat>) {
    if g.queue == [] then (g, None) else (g.(queue := g.queue[1..]), Some(g.queue[0].run))
  }

  /** The second component tells whether the caller proceeds at once. */
  function TakeUnit(g: Gate, w: Waiter): (Gate, bool) {
    var taken := g.(capacity := g.capacity - 1);
    if taken.capacity < 0 then (taken.(queue := taken.queue + [w]), false) else (taken, true)
  }

  function GiveUnit(g: Gate): (Gate, Option<nat>) {
    NextWaiter(g.(capacity := g.capacity + 1))
  }

  function Position(queue: seq<Waiter>, id: ExecutionId): (k: nat)
    ensures k <= |queue|
    ensures k < |queue| ==> queue[k].executionId == id
    ensures forall j :: 0 <= j < k ==> queue[j].executionId != id
  {
    if queue == [] || queue[0].executionId == id then 0 else 1 + Position(queue[1..], id)
  }

  predicate Queued(g: Gate, id: ExecutionId) { Position(g.queue, id) < |g.queue| }

  /** Removal gives the unit back and, besides, resumes the next waiter in line. */
  function RemoveWaiter(g: Gate, id: ExecutionId): (Gate, Option<nat>) {
    var k := Position(g.queue, id);
    if k == |g.queue| then (g, None)
    else NextWaiter(g.(queue := g.queue[..k] + g.queue[k + 1..], capacity := g.capacity + 1))
  }

  /** Throttling is first come, first served, and the limit is respected as long as
      nothing is removed: every caller beyond the limit waits. */
  lemma TakeAndGiveKeepLimit(g: Gate, w: Waiter)
    requires Consistent(g)
    ensures Consistent(TakeUnit(g, w).0) && Excess(TakeUnit(g, w).0) == Excess(g)
    ensures Admitted(TakeUnit(g, w).0) == Admitted(g) + if TakeUnit(g, w).1 then 1 else 0
    ensures TakeUnit(g, w).1 <==> Admitted(g) < g.limit
    ensures Admitted(g) > 0 ==> Consistent(GiveUnit(g).0) && Excess(GiveUnit(g).0) <= Excess(g)
    ensures g.queue != [] ==> GiveUnit(g).1 == Some(g.queue[0].run) && Admitted(GiveUnit(g).0) == Admitted(g)
    ensures g.queue == [] ==> GiveUnit(g).1 == None && Admitted(GiveUnit(g).0) == Admitted(g) - 1
  {
  }

  lemma LimitHoldsWithoutExcess(g: Gate)
    requires Consistent(g)
    ensures Admitted(g) == g.limit + Excess(g) || (Excess(g) == 0 && Admitted(g) <= g.limit)
    ensures Admitted(g) <= g.limit <==> Excess(g) == 0
  {
  }

  /** Removing a queued execution lets one caller too many through exactly when
      another execution is waiting behind or before it. */
  lemma RemoveOverAdmits(g: Gate, id: ExecutionId)
    requires Consistent(g)
    ensures Consistent(RemoveWaiter(g, id).0)
    ensures Excess(RemoveWaiter(g, id).0) == Excess(g) + if Queued(g, id) && |g.queue| >= 2 then 1 else 0
    ensures Excess(g) == 0 ==> (Admitted(RemoveWaiter(g, id).0) <= g.limit <==> !(Queued(g, id) && |g.queue| >= 2))
  {
    LimitHoldsWithoutExcess(g);
    LimitHoldsWithoutExcess(RemoveWaiter(g, id).0);
  }

  class CapacityQueue {
    const limit: nat
    var capacity: int
    var queue: seq<Waiter>

    ghost function State(): Gate
      reads this
    {
      Gate(limit, capacity, queue)
    }

    constructor (limit: nat)
      ensures State() == Gate(limit, limit, []) && Consistent(State())
    {
      this.limit, capacity, queue := limit, limit, [];
    }

    method Enqueue(w: Waiter) returns (proceeds: bool)
      modifies this
      ensures (State(), proceeds) == TakeUnit(old(State()), w)
    {
      capacity := capacity - 1;
      if capacity < 0 {
        queue := queue + [w];
        return false;
      }
      return true;
    }

    method Dequeue() returns (resumed: Option<nat>)
      modifies this
      ensures (State(), resumed) == GiveUnit(old(State()))
    {
      capacity := capacity + 1;
      resumed := ResolveNext();
    }

    method Remove(id: ExecutionId) returns (resumed: Option<nat>)
      modifies this
      ensures (State(), resumed) == RemoveWaiter(old(State()), id)
    {
      resumed := None;
      var index := Position(queue, id);
      if index < |queue| {
        queue := queue[..index] + queue[index + 1..];
        capacity := capacity + 1;
        resumed := ResolveNext();
      }
    }

    method ResolveNext() returns (resumed: Option<nat>)
      modifies `queue
      ensures (State(), resumed) == NextWaiter(old(State()))
    {
      if queue == [] {
        return None;
      }
      resumed := Some(queue[0].run);
      queue := queue[1..];
    }
  }
}
