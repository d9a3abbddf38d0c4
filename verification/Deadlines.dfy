/** Execution timeouts: the soft deadline handed down to nested sub-workflows
    (packages/cli/src/workflow-execute-additional-data.ts) and the kill time of the root
    (packages/cli/src/workflow-runner.ts). Times are milliseconds since the epoch. */
module Deadlines {
  import opened Options

  type Time = int

  const MAX_SAFE_INTEGER: Time := 9007199254740991

  /** One nested call: the sub-workflow's own timeout in seconds, if set, and when it starts. */
  datatype Level = Level(setting: Option<int>, start: Time)

  function Min(a: int, b: int): int { if a < b then a else b }

  function Max(a: int, b: int): int { if a < b then b else a }

  // ---------- Nested calls ----------

  predicate HasTimeout(level: Level) { level.setting.Some? && level.setting.value > 0 }

  /** The latest moment the level's own timeout allows. */
  function Own(level: Level): Time
    requires HasTimeout(level)
  {
    level.start + level.setting.value * 1000
  }

  /** A deadline of 0 counts as no deadline where the two are compared. */
  function Child(parent: Option<Time>, level: Level): Option<Time> {
    if HasTimeout(level)
    then Some(Min(if parent.None? || parent.value == 0 then MAX_SAFE_INTEGER else parent.value, Own(level)))
    else parent
  }

  /** The deadline after a chain of nested calls. */
  function Chain(root: Option<Time>, levels: seq<Level>): Option<Time> {
    if levels == [] then root else Child(Chain(root, levels[..|levels| - 1]), levels[|levels| - 1])
  }

  /** One call keeps its caller's deadline or moves it forward, exactly unless that
      deadline is 0 and the callee's own timeout ends after the epoch. */
  lemma ChildNoLater(d: Time, level: Level)
    ensures Child(Some(d), level).Some?
    ensures Child(Some(d), level).value <= d <==> !(d == 0 && HasTimeout(level) && Own(level) > 0)
  {
  }

  /** A call without a deadline above it has its own, up to the largest safe integer. */
  lemma FirstDeadline(level: Level)
    requires level.setting.Some? && level.setting.value > 0
    ensures var own := level.start + 1000 * level.setting.value;
            && (own <= 9007199254740991 ==> Child(None, level) == Some(own) && Child(Some(0), level) == Some(own))
            && (own > 9007199254740991 ==> Child(None, level) == Some(9007199254740991))
            && forall d :: d != 0 ==> Child(Some(d), level) == if own < d then Some(own) else Some(d)
  {
  }

  /** What bounds the deadline of the last level: the root's deadline and the own timeout
      of every level that has one. */
  predicate Bounds(root: Option<Time>, levels: seq<Level>, bound: Time) {
    root == Some(bound) || exists k :: 0 <= k < |levels| && HasTimeout(levels[k]) && Own(levels[k]) == bound
  }

  predicate Clocked(root: Option<Time>, levels: seq<Level>) {
    (root.Some? ==> root.value > 0) && forall k :: 0 <= k < |levels| ==> levels[k].start >= 0
  }

  lemma BoundsSplit(root: Option<Time>, levels: seq<Level>, bound: Time)
    requires levels != []
    ensures var last := levels[|levels| - 1];
            Bounds(root, levels, bound)
            <==> Bounds(root, levels[..|levels| - 1], bound) || (HasTimeout(last) && Own(last) == bound)
  {
    var init := levels[..|levels| - 1];
    hide HasTimeout, Own;
    if Bounds(root, init, bound) && root != Some(bound) {
      var k :| 0 <= k < |init| && HasTimeout(init[k]) && Own(init[k]) == bound;
      assert levels[k] == init[k];
    }
    if Bounds(root, levels, bound) && root != Some(bound) {
      var k :| 0 <= k < |levels| && HasTimeout(levels[k]) && Own(levels[k]) == bound;
      if k < |levels| - 1 { assert init[k] == levels[k]; }
    }
  }

  /** The deadline is the least of the bounds (capped at the largest safe integer when the
      root has none), and there is one exactly when there is a bound. */
  lemma {:induction false} ChainIsLeastBound(root: Option<Time>, levels: seq<Level>)
    requires Clocked(root, levels)
    ensures var d := Chain(root, levels);
            && (d.Some? <==> exists bound :: Bounds(root, levels, bound))
            && (d.Some? ==> 0 < d.value)
            && (d.Some? ==> Bounds(root, levels, d.value) || (root.None? && d.value == MAX_SAFE_INTEGER))
            && (forall bound :: Bounds(root, levels, bound) ==> d.Some? && d.value <= bound)
  {
    if levels == [] {
      if root.Some? { assert Bounds(root, levels, root.value); }
    } else {
      var init, last := levels[..|levels| - 1], levels[|levels| - 1];
      ChainIsLeastBound(root, init);
      forall bound
        ensures Bounds(root, levels, bound) <==> Bounds(root, init, bound) || (HasTimeout(last) && Own(last) == bound)
      {
        BoundsSplit(root, levels, bound);
      }
      if root.Some? { assert Bounds(root, init, root.value); }
      hide Bounds;
      if HasTimeout(last) { assert Bounds(root, levels, Own(last)); }
    }
  }

  lemma Prefix(root: Option<Time>, levels: seq<Level>, j: nat, k: nat, bound: Time)
    requires j <= k <= |levels| && Bounds(root, levels[..j], bound)
    ensures Bounds(root, levels[..k], bound)
  {
    if root != Some(bound) {
      var i :| 0 <= i < |levels[..j]| && HasTimeout(levels[..j][i]) && Own(levels[..j][i]) == bound;
      assert levels[..k][i] == levels[..j][i];
    }
  }

  /** Once a level has a deadline every deeper level has one that is no later, and no
      later than its own start plus its own timeout. */
  lemma DeeperNoLater(root: Option<Time>, levels: seq<Level>, j: nat, k: nat)
    requires Clocked(root, levels) && j <= k <= |levels|
    requires Chain(root, levels[..j]).Some?
    ensures Chain(root, levels[..k]).Some? && Chain(root, levels[..k]).value <= Chain(root, levels[..j]).value
    ensures 0 < k && HasTimeout(levels[k - 1]) ==> Chain(root, levels[..k]).value <= Own(levels[k - 1])
  {
    ChainIsLeastBound(root, levels[..j]);
    ChainIsLeastBound(root, levels[..k]);
    var d := Chain(root, levels[..j]).value;
    if Bounds(root, levels[..j], d) {
      Prefix(root, levels, j, k, d);
    } else {
      var bound :| Bounds(root, levels[..j], bound);
      Prefix(root, levels, j, k, bound);
      CappedChain(root, levels[..k]);
    }
    if 0 < k && HasTimeout(levels[k - 1]) {
      assert levels[..k][k - 1] == levels[k - 1];
      assert Bounds(root, levels[..k], Own(levels[k - 1]));
    }
  }

  lemma {:induction false} CappedChain(root: Option<Time>, levels: seq<Level>)
    requires root.None? && Chain(root, levels).Some?
    ensures Chain(root, levels).value <= MAX_SAFE_INTEGER
  {
    if levels != [] && !HasTimeout(levels[|levels| - 1]) {
      CappedChain(root, levels[..|levels| - 1]);
    } else if Chain(root, levels[..|levels| - 1]).Some? {
      CappedChain(root, levels[..|levels| - 1]);
    }
  }

  /** The computation as startExecution makes it. */
  method SubworkflowTimeout(executionTimeoutTimestamp: Option<Time>, level: Level)
    returns (subworkflowTimeout: Option<Time>)
    ensures subworkflowTimeout == Child(executionTimeoutTimestamp, level)
  {
    subworkflowTimeout := executionTimeoutTimestamp;
    if level.setting.Some? && level.setting.value > 0 {
      var inherited := MAX_SAFE_INTEGER;
      if executionTimeoutTimestamp.Some? && executionTimeoutTimestamp.value != 0 {
        inherited := executionTimeoutTimestamp.value;
      }
      subworkflowTimeout := Some(Min(inherited, level.start + level.setting.value * 1000));
    }
  }

  // ---------- The root ----------

  /** The instance's defaults, in seconds. */
  datatype Config = Config(timeout: int, maxTimeout: int)

  /** The limit in seconds, none when the workflow or the defaults switch it off. */
  function Limit(setting: Option<int>, config: Config): Option<int> {
    var wanted := if setting.Some? then setting.value else config.timeout;
    if wanted > 0 && config.maxTimeout > 0 then Some(Min(wanted, config.maxTimeout)) else None
  }

  /** A workflow's own limit counts if it has one, and the instance's otherwise, never beyond
      the instance's maximum; zero or less of any of them that counts switches it off. */
  lemma LimitMeans(setting: Option<int>, config: Config)
    ensures Limit(setting, config).Some? <==>
            config.maxTimeout > 0 && (setting.None? ==> config.timeout > 0) && (setting.Some? ==> setting.value > 0)
    ensures Limit(setting, config).Some? ==>
              var limit := Limit(setting, config).value;
              && 0 < limit <= config.maxTimeout
              && (setting.None? ==> limit == config.timeout || (limit == config.maxTimeout < config.timeout))
              && (setting.Some? ==> limit == setting.value || (limit == config.maxTimeout < setting.value))
  {
  }

  /** What runMainProcess sets up: the soft deadline, and when the execution is stopped.
      The stop counts from `startedAt` when the execution is a resumed one and comes at
      once when that moment has passed; the soft deadline always counts from now. */
  method RunMainProcess(setting: Option<int>, config: Config, startedAt: Option<Time>, now: Time)
    returns (softDeadline: Option<Time>, kill: Option<Time>)
    ensures softDeadline.Some? <==> Limit(setting, config).Some?
    ensures kill.Some? <==> Limit(setting, config).Some?
    ensures kill.Some? ==> var limit := Limit(setting, config).value * 1000;
              && softDeadline.value == now + limit
              && (startedAt.None? ==> kill.value == now + limit)
              && (startedAt.Some? && startedAt.value + limit >= now ==> kill.value == startedAt.value + limit)
              && (startedAt.Some? && startedAt.value + limit < now ==> kill.value == now)
    ensures kill.Some? ==> (kill.value <= softDeadline.value <==> startedAt.None? || startedAt.value <= now)
  {
    var workflowTimeout := if setting.Some? then setting.value else config.timeout;
    if workflowTimeout > 0 { workflowTimeout := Min(workflowTimeout, config.maxTimeout); }
    softDeadline := if workflowTimeout <= 0 then None else Some(now + workflowTimeout * 1000);
    kill := None;
    if workflowTimeout > 0 {
      var timeout := Min(workflowTimeout, config.maxTimeout) * 1000;
      if startedAt.Some? { timeout := Max(timeout - (now - startedAt.value), 0); }
      if timeout == 0 { kill := Some(now); } else { kill := Some(now + timeout); }
    }
  }
}
