/** Registering the webhooks of a workflow, with a compensating clear
    (packages/cli/src/active-workflow-manager.ts, packages/cli/src/webhooks/webhook.service.ts). */
module WebhookRegistration {
  type WorkflowId = string

  type Key = (string, string)

  /** A webhook a workflow asks for: its node, HTTP method and path as written. */
  datatype Hook = Hook(node: string, httpMethod: string, path: string)

  datatype Row = Row(workflowId: WorkflowId, node: string)

  /** The rows by method and normalised path, which is their primary key. */
  type Table = map<Key, Row>

  /** How storing one webhook and creating it at the external service go; `query` says
      that the error is a QueryFailedError. */
  datatype Outcome = Stored | StoreFailed(query: bool) | HookFailed(query: bool)

  /** What happens around the loop: whether the activation is `init` or
      `leadershipChange`, whether the compensating clear goes through, and whether
      filling the cache does. */
  datatype Circumstances = Circumstances(tolerant: bool, clears: bool, caches: bool)

  datatype Result = NoWebhooks | Added | PathTaken(node: string) | OtherError

  // ---------- Keys and rows ----------

  /** Drops one slash at either end. */
  function Normalise(path: string): string {
    var tail := if path != "" && path[0] == '/' then path[1..] else path;
    if tail != "" && tail[|tail| - 1] == '/' then tail[..|tail| - 1] else tail
  }

  function KeyOf(hook: Hook): Key { (hook.httpMethod, Normalise(hook.path)) }

  function RowOf(w: WorkflowId, hook: Hook): Row { Row(w, hook.node) }

  function Own(table: Table, w: WorkflowId): Table { map k | k in table && table[k].workflowId == w :: table[k] }

  function Others(table: Table, w: WorkflowId): Table { map k | k in table && table[k].workflowId != w :: table[k] }

  // ---------- The loop ----------

  /** storeWebhook is an upsert: it replaces whatever row has the key. */
  function Attempt(table: Table, w: WorkflowId, hook: Hook, outcome: Outcome): Table {
    if outcome.StoreFailed? then table else table[KeyOf(hook) := RowOf(w, hook)]
  }

  predicate GoesOn(outcome: Outcome, c: Circumstances) { outcome.Stored? || (c.tolerant && outcome.query) }

  /** The table after the loop and how many webhooks it got past. */
  function Register(table: Table, w: WorkflowId, hooks: seq<Hook>, outcomes: seq<Outcome>,
      c: Circumstances): (r: (Table, nat))
    requires |outcomes| == |hooks|
    ensures r.1 <= |hooks|
    ensures r.1 < |hooks| ==> !outcomes[r.1].Stored?
    decreases |hooks|
  {
    if hooks == [] then (table, 0) else
    var next := Attempt(table, w, hooks[0], outcomes[0]);
    if GoesOn(outcomes[0], c) then
      var (last, count) := Register(next, w, hooks[1..], outcomes[1..], c);
      (last, count + 1)
    else (next, 0)
  }

  function AddWebhooks(table: Table, w: WorkflowId, hooks: seq<Hook>, outcomes: seq<Outcome>,
      c: Circumstances): (Table, Result)
    requires |outcomes| == |hooks|
  {
    if hooks == [] then (table, NoWebhooks) else
    var (after, count) := Register(table, w, hooks, outcomes, c);
    if count == |hooks| then (after, if c.caches then Added else OtherError)
    else
      (if c.clears then Others(after, w) else after,
       if outcomes[count].query then PathTaken(hooks[count].node) else OtherError)
  }

  // ---------- What the loop writes ----------

  /** The webhooks the loop reaches, in order. */
  function Reached(hooks: seq<Hook>, outcomes: seq<Outcome>, c: Circumstances): (r: nat)
    requires |outcomes| == |hooks|
    ensures r <= |hooks|
    decreases |hooks|
  {
    if hooks == [] then 0 else if GoesOn(outcomes[0], c) then 1 + Reached(hooks[1..], outcomes[1..], c) else 1
  }

  /** Webhook k is written. */
  predicate Writes(hooks: seq<Hook>, outcomes: seq<Outcome>, c: Circumstances, k: nat)
    requires |outcomes| == |hooks|
  {
    k < Reached(hooks, outcomes, c) && !outcomes[k].StoreFailed?
  }

  /** Webhook k is the last one written under its key. */
  ghost predicate Wins(hooks: seq<Hook>, outcomes: seq<Outcome>, c: Circumstances, k: nat)
    requires |outcomes| == |hooks|
  {
    && Writes(hooks, outcomes, c, k)
    && forall j :: k < j < |hooks| && KeyOf(hooks[j]) == KeyOf(hooks[k]) ==> !Writes(hooks, outcomes, c, j)
  }

  /** The keys the loop writes under. */
  function Written(hooks: seq<Hook>, outcomes: seq<Outcome>, c: Circumstances): set<Key>
    requires |outcomes| == |hooks|
  {
    set k: nat | k < |hooks| && Writes(hooks, outcomes, c, k) :: KeyOf(hooks[k])
  }

  lemma StepWrites(hooks: seq<Hook>, outcomes: seq<Outcome>, c: Circumstances)
    requires |outcomes| == |hooks| && hooks != []
    ensures Writes(hooks, outcomes, c, 0) <==> !outcomes[0].StoreFailed?
    ensures forall k: nat :: 0 < k < |hooks| ==>
      (Writes(hooks, outcomes, c, k) <==> GoesOn(outcomes[0], c) && Writes(hooks[1..], outcomes[1..], c, k - 1))
  {
  }

  lemma StepWritten(hooks: seq<Hook>, outcomes: seq<Outcome>, c: Circumstances, key: Key)
    requires |outcomes| == |hooks| && hooks != []
    ensures key in Written(hooks, outcomes, c) <==>
            (KeyOf(hooks[0]) == key && !outcomes[0].StoreFailed?)
            || (GoesOn(outcomes[0], c) && key in Written(hooks[1..], outcomes[1..], c))
  {
    StepWrites(hooks, outcomes, c);
    hide Writes, KeyOf, GoesOn;
    if GoesOn(outcomes[0], c) && key in Written(hooks[1..], outcomes[1..], c) {
      var k: nat :| k < |hooks[1..]| && Writes(hooks[1..], outcomes[1..], c, k) && KeyOf(hooks[1..][k]) == key;
      assert KeyOf(hooks[k + 1]) == key && Writes(hooks, outcomes, c, k + 1);
    }
    if key in Written(hooks, outcomes, c) {
      var k: nat :| k < |hooks| && Writes(hooks, outcomes, c, k) && KeyOf(hooks[k]) == key;
      if k > 0 { assert hooks[1..][k - 1] == hooks[k] && Writes(hooks[1..], outcomes[1..], c, k - 1); }
    }
  }

  /** Every key the loop writes ends up with a row of the workflow and every other key
      keeps its row, or its absence. */
  lemma {:induction false} RegisterWrites(table: Table, w: WorkflowId, hooks: seq<Hook>, outcomes: seq<Outcome>,
      c: Circumstances, key: Key)
    requires |outcomes| == |hooks|
    ensures var after := Register(table, w, hooks, outcomes, c).0;
            if key in Written(hooks, outcomes, c) then key in after && after[key].workflowId == w
            else (key in after <==> key in table) && (key in table ==> after[key] == table[key])
    decreases |hooks|
  {
    if hooks != [] {
      StepWritten(hooks, outcomes, c, key);
      hide Written, KeyOf;
      if GoesOn(outcomes[0], c) {
        RegisterWrites(Attempt(table, w, hooks[0], outcomes[0]), w, hooks[1..], outcomes[1..], c, key);
      }
    }
  }

  /** The row under a written key names the node of the last webhook written there. */
  lemma {:induction false} RegisterNode(table: Table, w: WorkflowId, hooks: seq<Hook>, outcomes: seq<Outcome>,
      c: Circumstances, k: nat)
    requires |outcomes| == |hooks| && k < |hooks| && Wins(hooks, outcomes, c, k)
    ensures var after := Register(table, w, hooks, outcomes, c).0;
            KeyOf(hooks[k]) in after && after[KeyOf(hooks[k])] == RowOf(w, hooks[k])
    decreases |hooks|
  {
    StepWrites(hooks, outcomes, c);
    hide Writes;
    var key := KeyOf(hooks[k]);
    if k == 0 {
      assert key !in Written(hooks[1..], outcomes[1..], c) || !GoesOn(outcomes[0], c) by {
        forall j: nat | j < |hooks[1..]| && KeyOf(hooks[1..][j]) == key && GoesOn(outcomes[0], c)
          ensures !Writes(hooks[1..], outcomes[1..], c, j)
        {
          assert hooks[j + 1] == hooks[1..][j];
        }
      }
      RegisterWrites(Attempt(table, w, hooks[0], outcomes[0]), w, hooks[1..], outcomes[1..], c, key);
    } else {
      assert hooks[1..][k - 1] == hooks[k];
      assert Wins(hooks[1..], outcomes[1..], c, k - 1) by {
        forall j | k - 1 < j < |hooks[1..]| && KeyOf(hooks[1..][j]) == KeyOf(hooks[1..][k - 1])
          ensures !Writes(hooks[1..], outcomes[1..], c, j)
        {
          assert hooks[1..][j] == hooks[j + 1];
        }
      }
      RegisterNode(Attempt(table, w, hooks[0], outcomes[0]), w, hooks[1..], outcomes[1..], c, k - 1);
    }
  }

  lemma {:induction false} CountIsReached(table: Table, w: WorkflowId, hooks: seq<Hook>, outcomes: seq<Outcome>,
      c: Circumstances)
    requires |outcomes| == |hooks|
    ensures var count := Register(table, w, hooks, outcomes, c).1;
            && Reached(hooks, outcomes, c) == (if count == |hooks| then count else count + 1)
            && (forall k :: 0 <= k < count ==> GoesOn(outcomes[k], c))
            && (count < |hooks| ==> !GoesOn(outcomes[count], c))
    decreases |hooks|
  {
    if hooks != [] && GoesOn(outcomes[0], c) {
      CountIsReached(Attempt(table, w, hooks[0], outcomes[0]), w, hooks[1..], outcomes[1..], c);
      var count := Register(table, w, hooks, outcomes, c).1;
      forall k | 0 <= k < count ensures GoesOn(outcomes[k], c) {
        if k > 0 { assert outcomes[k] == outcomes[1..][k - 1]; }
      }
    }
  }

  // ---------- All or nothing ----------

  predicate Owns(table: Table, w: WorkflowId, hook: Hook) { KeyOf(hook) in table && table[KeyOf(hook)].workflowId == w }

  /** For an ordinary activation: the loop got through, and then every webhook has a row
      of the workflow; or it did not, and a clear that goes through leaves no row of it. */
  lemma AllOrNothing(table: Table, w: WorkflowId, hooks: seq<Hook>, outcomes: seq<Outcome>, c: Circumstances)
    requires |outcomes| == |hooks| && hooks != [] && !c.tolerant
    ensures var (after, result) := AddWebhooks(table, w, hooks, outcomes, c);
            && (result == Added <==> (forall k :: 0 <= k < |outcomes| ==> outcomes[k].Stored?) && c.caches)
            && ((forall k :: 0 <= k < |outcomes| ==> outcomes[k].Stored?) ==>
                forall hook :: hook in hooks ==> Owns(after, w, hook))
            && ((exists k :: 0 <= k < |outcomes| && !outcomes[k].Stored?) && c.clears ==> Own(after, w) == map[])
  {
    CountIsReached(table, w, hooks, outcomes, c);
    var (after, count) := Register(table, w, hooks, outcomes, c);
    if count == |hooks| {
      forall k | 0 <= k < |outcomes| ensures outcomes[k].Stored? { assert GoesOn(outcomes[k], c); }
      forall hook | hook in hooks ensures Owns(after, w, hook) {
        var k :| 0 <= k < |hooks| && hooks[k] == hook;
        assert Writes(hooks, outcomes, c, k);
        assert KeyOf(hooks[k]) in Written(hooks, outcomes, c);
        RegisterWrites(table, w, hooks, outcomes, c, KeyOf(hook));
      }
    } else {
      assert !outcomes[count].Stored?;
    }
  }

  /** The rows of the other workflows afterwards are exactly those whose key the loop did
      not write: an upsert takes a row over instead of failing on it. */
  lemma OthersExactly(table: Table, w: WorkflowId, hooks: seq<Hook>, outcomes: seq<Outcome>, c: Circumstances)
    requires |outcomes| == |hooks|
    ensures Others(AddWebhooks(table, w, hooks, outcomes, c).0, w) == Others(table, w) - Written(hooks, outcomes, c)
  {
    var after := Register(table, w, hooks, outcomes, c).0;
    forall key ensures (key in Others(after, w) <==> key in Others(table, w) && key !in Written(hooks, outcomes, c))
                    && (key in Others(after, w) ==> after[key] == table[key])
    {
      RegisterWrites(table, w, hooks, outcomes, c, key);
      hide Written, Register;
    }
    hide Written, Register;
    assert Others(Others(after, w), w) == Others(after, w);
  }

  /** A written key already belonged to another workflow. */
  ghost predicate TakesOver(table: Table, w: WorkflowId, hooks: seq<Hook>, outcomes: seq<Outcome>, c: Circumstances)
    requires |outcomes| == |hooks|
  {
    exists key :: key in Written(hooks, outcomes, c) && key in table && table[key].workflowId != w
  }

  /** Other workflows are untouched if and only if no written key was theirs. */
  lemma OthersUntouched(table: Table, w: WorkflowId, hooks: seq<Hook>, outcomes: seq<Outcome>, c: Circumstances)
    requires |outcomes| == |hooks|
    ensures Others(AddWebhooks(table, w, hooks, outcomes, c).0, w) == Others(table, w)
       <==> !TakesOver(table, w, hooks, outcomes, c)
  {
    OthersExactly(table, w, hooks, outcomes, c);
    hide Written, AddWebhooks;
    var kept := Others(table, w) - Written(hooks, outcomes, c);
    if TakesOver(table, w, hooks, outcomes, c) {
      var key :| key in Written(hooks, outcomes, c) && key in table && table[key].workflowId != w;
      assert key in Others(table, w) && key !in kept;
    } else {
      assert kept == Others(table, w);
    }
  }

  /** One slash at either end of a path does not matter; a second one does. */
  lemma SlashesDropped(core: string)
    requires core != "" ==> core[0] != '/' && core[|core| - 1] != '/'
    ensures Normalise(core) == core && Normalise("/" + core) == core
    ensures Normalise(core + "/") == core && Normalise("/" + core + "/") == core
    ensures core != "" ==> Normalise("//" + core) == "/" + core && Normalise(core + "//") == core + "/"
  {
    assert ("/" + core)[1..] == core && ("//" + core)[1..] == "/" + core;
    assert (core + "/")[..|core|] == core && ("/" + core + "/")[1..] == core + "/";
    assert (core + "//")[..|core| + 1] == core + "/";
  }

  /** Webhook k is the first one whose error ends the loop. */
  predicate FailsAt(outcomes: seq<Outcome>, c: Circumstances, k: nat) {
    && k < |outcomes| && !outcomes[k].Stored? && !(c.tolerant && outcomes[k].query)
    && forall j :: 0 <= j < k ==> outcomes[j].Stored? || (c.tolerant && outcomes[j].query)
  }

  /** What the caller is told: nothing to add; success, unless the cache cannot be filled; or
      the error of the first webhook that fails, by its node if it was a query error. When
      the compensating clear fails, what has been written stays. */
  lemma ResultMeans(table: Table, w: WorkflowId, hooks: seq<Hook>, outcomes: seq<Outcome>, c: Circumstances)
    requires |outcomes| == |hooks|
    ensures var (after, result) := AddWebhooks(table, w, hooks, outcomes, c);
            && (hooks == [] ==> after == table && result == NoWebhooks)
            && (hooks != [] && (forall k: nat :: !FailsAt(outcomes, c, k)) ==>
                result == if c.caches then Added else OtherError)
            && (forall k: nat :: FailsAt(outcomes, c, k) ==>
                && result == (if outcomes[k].query then PathTaken(hooks[k].node) else OtherError)
                && (!c.clears ==> forall key :: key in Written(hooks, outcomes, c) ==> key in Own(after, w)))
  {
    CountIsReached(table, w, hooks, outcomes, c);
    var (after, count) := Register(table, w, hooks, outcomes, c);
    if count < |hooks| { assert !GoesOn(outcomes[count], c) && FailsAt(outcomes, c, count); }
    forall k: nat | FailsAt(outcomes, c, k) ensures k == count { assert !GoesOn(outcomes[k], c); }
    forall key | key in Written(hooks, outcomes, c) ensures key in Own(after, w) {
      RegisterWrites(table, w, hooks, outcomes, c, key);
    }
  }

  /** A path another workflow has registered is taken over without an error. */
  lemma TakenPathIsTakenOver()
    ensures var table := map[("GET", "orders") := Row("theirs", "Webhook")];
            var hook, c := Hook("Webhook", "GET", "/orders"), Circumstances(false, true, true);
            var (after, result) := AddWebhooks(table, "ours", [hook], [Stored], c);
            result == Added && after == map[("GET", "orders") := Row("ours", "Webhook")]
  {
    var hook := Hook("Webhook", "GET", "/orders");
    assert KeyOf(hook) == ("GET", "orders");
    var table := map[("GET", "orders") := Row("theirs", "Webhook")];
    var next := Attempt(table, "ours", hook, Stored);
    assert Register(next, "ours", [hook][1..], [Stored][1..], Circumstances(false, true, true)) == (next, 0);
  }

  /** A failed registration whose clear goes through puts the table back if and only if
      the workflow had no rows before and no row was taken over. */
  lemma CompensationRestores(table: Table, w: WorkflowId, hooks: seq<Hook>, outcomes: seq<Outcome>, c: Circumstances)
    requires |outcomes| == |hooks| && hooks != [] && c.clears
    requires exists k :: 0 <= k < |outcomes| && !GoesOn(outcomes[k], c)
    ensures AddWebhooks(table, w, hooks, outcomes, c).0 == table
       <==> Own(table, w) == map[] && !TakesOver(table, w, hooks, outcomes, c)
  {
    CountIsReached(table, w, hooks, outcomes, c);
    OthersUntouched(table, w, hooks, outcomes, c);
    var after := AddWebhooks(table, w, hooks, outcomes, c).0;
    assert Own(after, w) == map[] && Others(after, w) == after;
    hide TakesOver, AddWebhooks;
    if Own(table, w) == map[] {
      assert Others(table, w) == table by {
        forall key | key in table ensures table[key].workflowId != w { assert key !in Own(table, w); }
      }
    }
  }

  /** Two webhooks of the workflow share a key but not a node. */
  predicate Collide(hooks: seq<Hook>, j: nat, k: nat)
    requires j < |hooks| && k < |hooks|
  {
    KeyOf(hooks[j]) == KeyOf(hooks[k]) && hooks[j].node != hooks[k].node
  }

  /** Requests under the webhook's key are led to its node. */
  predicate LeadsTo(table: Table, w: WorkflowId, hook: Hook) {
    KeyOf(hook) in table && table[KeyOf(hook)] == RowOf(w, hook)
  }

  /** After a successful registration each webhook's key leads to its node if and only if
      no two webhooks of different nodes share a key: the later one wins silently. */
  lemma EveryNodeReachable(table: Table, w: WorkflowId, hooks: seq<Hook>, outcomes: seq<Outcome>, c: Circumstances)
    requires |outcomes| == |hooks| && hooks != [] && !c.tolerant && AddWebhooks(table, w, hooks, outcomes, c).1 == Added
    ensures (forall k: nat :: k < |hooks| ==> LeadsTo(AddWebhooks(table, w, hooks, outcomes, c).0, w, hooks[k]))
       <==> (forall j: nat, k: nat :: j < |hooks| && k < |hooks| ==> !Collide(hooks, j, k))
  {
    var after := AddWebhooks(table, w, hooks, outcomes, c).0;
    if forall j: nat, k: nat :: j < |hooks| && k < |hooks| ==> !Collide(hooks, j, k) {
      forall k: nat | k < |hooks| ensures LeadsTo(after, w, hooks[k]) {
        var l := LastOneLeads(table, w, hooks, outcomes, c, k);
        assert !Collide(hooks, l, k);
        hide AddWebhooks;
      }
    }
    hide AddWebhooks, KeyOf;
    if forall k: nat :: k < |hooks| ==> LeadsTo(after, w, hooks[k]) {
      forall j: nat, k: nat | j < |hooks| && k < |hooks| ensures !Collide(hooks, j, k) {
        assert LeadsTo(after, w, hooks[j]) && LeadsTo(after, w, hooks[k]);
      }
    }
  }

  lemma LastOneLeads(table: Table, w: WorkflowId, hooks: seq<Hook>, outcomes: seq<Outcome>, c: Circumstances, k: nat)
    returns (l: nat)
    requires |outcomes| == |hooks| && k < |hooks| && !c.tolerant && AddWebhooks(table, w, hooks, outcomes, c).1 == Added
    ensures l < |hooks| && KeyOf(hooks[l]) == KeyOf(hooks[k])
    ensures LeadsTo(AddWebhooks(table, w, hooks, outcomes, c).0, w, hooks[l])
  {
    CountIsReached(table, w, hooks, outcomes, c);
    l := LastWithKey(hooks, k);
    assert forall j :: 0 <= j < |hooks| ==> GoesOn(outcomes[j], c);
    assert Wins(hooks, outcomes, c, l) by { hide KeyOf; }
    RegisterNode(table, w, hooks, outcomes, c, l);
  }

  lemma LastWithKey(hooks: seq<Hook>, k: nat) returns (l: nat)
    requires k < |hooks|
    ensures k <= l < |hooks| && KeyOf(hooks[l]) == KeyOf(hooks[k])
    ensures forall j :: l < j < |hooks| ==> KeyOf(hooks[j]) != KeyOf(hooks[k])
  {
    l := k;
    for i := k + 1 to |hooks|
      invariant k <= l < i && KeyOf(hooks[l]) == KeyOf(hooks[k])
      invariant forall j :: l < j < i ==> KeyOf(hooks[j]) != KeyOf(hooks[k])
    {
      if KeyOf(hooks[i]) == KeyOf(hooks[k]) { l := i; }
    }
  }

  /** On init or a leadership change a webhook may be skipped: the call still reports
      success, and the webhook is owned if and only if its key was written, or its key
      was the workflow's before. */
  lemma TolerantAdds(table: Table, w: WorkflowId, hooks: seq<Hook>, outcomes: seq<Outcome>, c: Circumstances,
      hook: Hook)
    requires |outcomes| == |hooks| && c.tolerant && hook in hooks
    requires AddWebhooks(table, w, hooks, outcomes, c).1 == Added
    ensures Owns(AddWebhooks(table, w, hooks, outcomes, c).0, w, hook)
       <==> KeyOf(hook) in Written(hooks, outcomes, c) || Owns(table, w, hook)
  {
    RegisterWrites(table, w, hooks, outcomes, c, KeyOf(hook));
  }

  /** Such a call succeeds if and only if every error on the way is a query error (and the
      cache is filled); the workflow then keeps every key it had. Any other error
      compensates, as it does for an ordinary activation. */
  lemma TolerantSucceeds(table: Table, w: WorkflowId, hooks: seq<Hook>, outcomes: seq<Outcome>, c: Circumstances)
    requires |outcomes| == |hooks| && c.tolerant && hooks != []
    ensures var (after, result) := AddWebhooks(table, w, hooks, outcomes, c);
            var passes := forall k :: 0 <= k < |outcomes| ==> outcomes[k].Stored? || outcomes[k].query;
            && (result == Added <==> passes && c.caches)
            && (passes ==> forall key :: key in Own(table, w) ==> key in Own(after, w))
            && (!passes && c.clears ==> Own(after, w) == map[])
  {
    CountIsReached(table, w, hooks, outcomes, c);
    var (after, count) := Register(table, w, hooks, outcomes, c);
    if count == |hooks| {
      forall k | 0 <= k < |outcomes| ensures outcomes[k].Stored? || outcomes[k].query { assert GoesOn(outcomes[k], c); }
      forall key | key in Own(table, w) ensures key in Own(after, w) {
        RegisterWrites(table, w, hooks, outcomes, c, key);
      }
    } else {
      assert !GoesOn(outcomes[count], c);
    }
  }

  // ---------- The classes ----------

  class WebhookService {
    var table: Table

    method StoreWebhook(w: WorkflowId, hook: Hook, fails: bool) returns (ok: bool)
      modifies this
      ensures ok == !fails
      ensures table == if fails then old(table) else old(table)[KeyOf(hook) := RowOf(w, hook)]
    {
      if fails { return false; }
      table := table[KeyOf(hook) := RowOf(w, hook)];
      ok := true;
    }

    method DeleteWorkflowWebhooks(w: WorkflowId)
      modifies this
      ensures table == Others(old(table), w)
    {
      table := Others(table, w);
    }
  }

  class WebhookActivation {
    const webhookService: WebhookService

    constructor (service: WebhookService)
      ensures webhookService == service
    {
      webhookService := service;
    }

    /** Fails before any row is deleted when the workflow is gone or an external
        webhook cannot be removed. */
    method ClearWebhooks(w: WorkflowId, fails: bool) returns (ok: bool)
      modifies webhookService
      ensures ok == !fails
      ensures webhookService.table == if fails then old(webhookService.table) else Others(old(webhookService.table), w)
    {
      if fails { return false; }
      webhookService.DeleteWorkflowWebhooks(w);
      ok := true;
    }

    method AddAllWebhooks(w: WorkflowId, hooks: seq<Hook>, outcomes: seq<Outcome>, c: Circumstances)
      returns (result: Result)
      requires |outcomes| == |hooks|
      modifies webhookService
      ensures (webhookService.table, result) == AddWebhooks(old(webhookService.table), w, hooks, outcomes, c)
    {
      if |hooks| == 0 { return NoWebhooks; }
      ghost var whole := Register(webhookService.table, w, hooks, outcomes, c);
      for i := 0 to |hooks|
        invariant var (last, count) := Register(webhookService.table, w, hooks[i..], outcomes[i..], c);
                  whole == (last, count + i)
      {
        ghost var before := webhookService.table;
        RegisterStep(before, w, hooks, outcomes, c, i);
        var ok := webhookService.StoreWebhook(w, hooks[i], outcomes[i].StoreFailed?);
        if ok && outcomes[i].Stored? { continue; }
        if c.tolerant && outcomes[i].query { continue; }
        var cleared := ClearWebhooks(w, !c.clears);
        return if outcomes[i].query then PathTaken(hooks[i].node) else OtherError;
      }
      result := if c.caches then Added else OtherError;
    }
  }

  lemma RegisterStep(table: Table, w: WorkflowId, hooks: seq<Hook>, outcomes: seq<Outcome>, c: Circumstances, i: nat)
    requires |outcomes| == |hooks| && i < |hooks|
    ensures var next := Attempt(table, w, hooks[i], outcomes[i]);
            Register(table, w, hooks[i..], outcomes[i..], c)
            == if GoesOn(outcomes[i], c)
               then var (last, count) := Register(next, w, hooks[i + 1..], outcomes[i + 1..], c); (last, count + 1)
               else (next, 0)
  {
    assert hooks[i..][0] == hooks[i] && hooks[i..][1..] == hooks[i + 1..];
    assert outcomes[i..][0] == outcomes[i] && outcomes[i..][1..] == outcomes[i + 1..];
  }
}
