/** Leader-only triggers and pollers across several main instances
    (packages/cli/src/active-workflow-manager.ts, packages/cli/src/commands/start.ts and
    packages/cli/src/scaling/multi-main-setup.ee.ts). An event is what happens between two
    awaits, on an instance or in Redis: a leader check reads the key, reacts to the answer,
    sets the key if it was vacant and reacts again; a stepdown removes workflows one by one;
    an activation decides in one step and adds triggers in a later one; a shutdown removes,
    decides to clear the key, clears it and lives on. Checks may overlap. */
module TriggerLeadership {
  import opened Options

  /** In a container the host id is the host name: a restarted process may have it again. */
  type Host = string

  type WorkflowId = string

  datatype Role = Unset | Leader | Follower

  /** What a leader check waits to go on with: what it has read, the answer to its attempt
      to set the key, or that attempt itself. */
  datatype Check = Seen(owner: Option<Host>) | Claiming | Answered(won: bool)

  /** A bulk activation: none, one that waits for the ids of the stored active workflows, or
      one that has still to visit some of them. */
  datatype Bulk = Idle | Loading | Visiting(ids: set<WorkflowId>)

  /** One main process. `triggers` are the workflows it holds in memory and `removing` those
      of them that some handler has still to remove; `starting` are the activations past
      line 560 and not yet at line 613, and `bulk` what a bulk activation has still to
      visit. `cleared` says that its shutdown has deleted the key. */
  datatype Main = Main(
    role: Role, registered: bool, checks: multiset<Check>, stopping: bool, clearing: bool, cleared: bool,
    triggers: set<WorkflowId>, removing: set<WorkflowId>,
    starting: multiset<WorkflowId>, bulk: Bulk)

  /** A process that has just asked for the key. */
  const BOOTED := Main(Unset, false, multiset{Claiming}, false, false, false, {}, {}, multiset{}, Idle)

  datatype Command = AddTriggers(workflow: WorkflowId) | RemoveTriggers(workflow: WorkflowId)

  /** The leader key, the live instances, the workflows stored as active and the commands
      published so far. */
  datatype Cluster = Cluster(
    key: Option<Host>, mains: map<Host, Main>, active: set<WorkflowId>, published: set<Command>)

  const EMPTY := Cluster(None, map[], {}, {})

  /** How adding the triggers ends; a rejected activation may leave the workflow in
      memory, since its trigger nodes start before its poll nodes are tried. */
  datatype Outcome = Registered | NothingToRegister | Rejected(inMemory: bool)

  datatype Event =
    | Join(host: Host)                                            // MultiMainSetup.init, up to its first await
    | Listen(host: Host)                                          // registerEventHandlers
    | Init(host: Host)                                            // ActiveWorkflowManager.init
    | ReadKey(host: Host)                                         // the periodic check
    | React(host: Host, owner: Option<Host>)
    | Claim(host: Host)                                           // setIfNotExists, in Redis
    | Answer(host: Host, won: bool)
    | Expire                                                      // the time to live of the key runs out
    | Crash(host: Host)                                           // the process is gone, for whatever reason
    | Removed(host: Host, workflow: WorkflowId, again: bool)      // again: another handler is still to visit it
    | Abort(host: Host, spared: set<WorkflowId>)                  // a close function throws and ends a handler
    | StopProcess(host: Host)
    | SendClear(host: Host)
    | DeleteKey(host: Host)                                       // in Redis
    | Store(workflow: WorkflowId, active: bool)
    | Publish(command: Command)                                   // add, remove or a retry, on any instance
    | Deliver(host: Host, command: Command)                       // in any order, any number of times
    | LoadIds(host: Host)                                         // the database answers a bulk activation
    | Visit(host: Host, workflow: WorkflowId)                     // the bulk activation reaches a workflow
    | EndBulk(host: Host)                                         // early when the database fails
    | Commit(host: Host, workflow: WorkflowId, outcome: Outcome)  // the activation goes on at line 613
    | TriggerError(host: Host, workflow: WorkflowId)

  // ---------- One instance ----------

  /** markAsFollower and the stepdown handler, up to its first await. */
  function StepDown(m: Main): Main {
    m.(role := Follower, removing := if m.registered then m.removing + m.triggers else m.removing)
  }

  function StartBulk(m: Main): Main { if m.bulk.Idle? then m.(bulk := Loading) else m }

  function Reacted(m: Main, h: Host, owner: Option<Host>): Main {
    var n := m.(checks := m.checks - multiset{Seen(owner)});
    if owner == Some(h) then n
    else if owner.Some? then (if n.role.Leader? then StepDown(n) else n)
    else StepDown(n).(checks := n.checks + multiset{Claiming})
  }

  /** The answer of Redis to setIfNotExists, and the key after it. */
  function Claimed(key: Option<Host>, h: Host, m: Main): (Option<Host>, Main) {
    var n := m.(checks := m.checks - multiset{Claiming} + multiset{Answered(key.None?)});
    if key.None? then (Some(h), n.(cleared := false)) else (key, n)
  }

  /** A lost attempt only marks the instance as follower; no stepdown is announced. */
  function AnsweredWith(m: Main, won: bool): Main {
    var n := m.(checks := m.checks - multiset{Answered(won)}, role := if won then Leader else Follower);
    if won && m.registered then StartBulk(n) else n
  }

  /** Lines 559-560: only the leader goes on to add triggers and pollers. */
  function Begin(m: Main, w: WorkflowId): Main {
    if m.role.Leader? then m.(starting := m.starting + multiset{w}) else m
  }

  function Finish(m: Main, w: WorkflowId, outcome: Outcome): Main {
    var done := m.(starting := m.starting - multiset{w});
    match outcome
    case Registered => done.(triggers := m.triggers + {w})
    case NothingToRegister => done
    case Rejected(inMemory) => done.(triggers := if inMemory then m.triggers + {w} else m.triggers - {w})
  }

  function Received(m: Main, command: Command): Main {
    if !m.role.Leader? then m else
    match command
    case AddTriggers(w) => Begin(m, w)
    case RemoveTriggers(w) => m.(removing := m.removing + {w})
  }

  function Unloaded(m: Main, w: WorkflowId, again: bool): Main {
    m.(triggers := m.triggers - {w}, removing := if again then m.removing else m.removing - {w})
  }

  function Visited(m: Main, w: WorkflowId): Main
    requires m.bulk.Visiting?
  {
    Begin(m.(bulk := Visiting(m.bulk.ids - {w})), w)
  }

  // ---------- The cluster ----------

  function Set(c: Cluster, h: Host, m: Main): Cluster { c.(mains := c.mains[h := m]) }

  /** What an event on a live instance does to that instance. */
  function Local(c: Cluster, m: Main, e: Event): Main {
    match e
    case Listen(_) => m.(registered := true)
    case Init(_) => if m.role.Unset? then m else StartBulk(m)
    case LoadIds(_) => if m.bulk.Loading? then m.(bulk := Visiting(c.active)) else m
    case ReadKey(_) => m.(checks := m.checks + multiset{Seen(c.key)})
    case React(h, owner) => if Seen(owner) in m.checks then Reacted(m, h, owner) else m
    case Answer(_, won) => if Answered(won) in m.checks then AnsweredWith(m, won) else m
    case Removed(_, w, again) => if w in m.removing then Unloaded(m, w, again) else m
    case Abort(_, spared) => m.(removing := m.removing - spared)
    case StopProcess(_) => m.(stopping := true, removing := m.removing + m.triggers)
    case SendClear(_) => if m.stopping then m.(clearing := m.role.Leader?) else m
    case Deliver(_, command) => if command in c.published then Received(m, command) else m
    case Visit(_, w) => if m.bulk.Visiting? && w in m.bulk.ids then Visited(m, w) else m
    case EndBulk(_) => m.(bulk := Idle)
    case Commit(_, w, outcome) => if w in m.starting then Finish(m, w, outcome) else m
    case TriggerError(_, w) => m.(removing := m.removing + {w})
    case _ => m
  }

  function Step(c: Cluster, e: Event): Cluster {
    match e
    case Expire => c.(key := None)
    case Store(w, active) => c.(active := if active then c.active + {w} else c.active - {w})
    case Publish(command) => c.(published := c.published + {command})
    case Join(h) => if h in c.mains then c else Set(c, h, BOOTED)
    case Crash(h) => c.(mains := c.mains - {h})
    case Claim(h) =>
      if h !in c.mains || Claiming !in c.mains[h].checks then c else
      var (key, m) := Claimed(c.key, h, c.mains[h]);
      Set(c.(key := key), h, m)
    case DeleteKey(h) =>
      if h !in c.mains || !c.mains[h].clearing then c
      else Set(c.(key := None), h, c.mains[h].(clearing := false, cleared := true))
    case _ => if e.host in c.mains then Set(c, e.host, Local(c, c.mains[e.host], e)) else c
  }

  /** The state after a whole run. */
  function Run(c: Cluster, events: seq<Event>): Cluster
    decreases |events|
  {
    if events == [] then c else Run(Step(c, events[0]), events[1..])
  }

  /** Some run leads from one state to the other; a graceful one has no expiry and no crash. */
  ghost predicate Reaches(c: Cluster, d: Cluster, graceful: bool) {
    exists events :: Run(c, events) == d && (graceful ==> Graceful(events))
  }

  predicate Graceful(events: seq<Event>) { forall e :: e in events ==> !e.Expire? && !e.Crash? }

  lemma {:induction false} RunSnoc(c: Cluster, events: seq<Event>, e: Event)
    ensures Run(c, events + [e]) == Step(Run(c, events), e)
    decreases |events|
  {
    hide Step;
    if events == [] {
      assert [] + [e] == [e] && [e][1..] == [];
    } else {
      assert (events + [e])[1..] == events[1..] + [e];
      RunSnoc(Step(c, events[0]), events[1..], e);
    }
  }

  lemma ReachesStart(c: Cluster)
    ensures Reaches(c, c, true) && Reaches(c, c, false)
  {
    assert Run(c, []) == c;
  }

  lemma ReachesAnyway(c: Cluster, d: Cluster)
    requires Reaches(c, d, true)
    ensures Reaches(c, d, false)
  {
  }

  lemma ReachesStep(c: Cluster, d: Cluster, e: Event, graceful: bool)
    requires Reaches(c, d, graceful) && (graceful ==> !e.Expire? && !e.Crash?)
    ensures Reaches(c, Step(d, e), graceful)
  {
    hide Step, Run;
    var events :| Run(c, events) == d && (graceful ==> Graceful(events));
    RunSnoc(c, events, e);
  }

  // ---------- The key ----------

  /** A vacant key is taken exactly by an instance that has asked for it, and a taken one
      changes hands only by becoming vacant: when it expires or a shutdown deletes it. */
  lemma StepKey(c: Cluster, e: Event)
    ensures c.key.None? ==>
              Step(c, e).key
              == if e.Claim? && e.host in c.mains && Claiming in c.mains[e.host].checks then Some(e.host) else None
    ensures c.key.Some? ==>
              Step(c, e).key
              == if e.Expire? || (e.DeleteKey? && e.host in c.mains && c.mains[e.host].clearing) then None else c.key
  {
    hide Local;
  }

  predicate ClearsLate(m: Main) { m.clearing ==> m.stopping }

  lemma StepClearsLate(c: Cluster, e: Event, h: Host)
    requires h in Step(c, e).mains && (h in c.mains ==> ClearsLate(c.mains[h]))
    ensures ClearsLate(Step(c, e).mains[h])
  {
    hide Reacted, AnsweredWith, StartBulk, Received, Visited, Begin, Finish, Unloaded;
    if IsLocal(e) && e.host == h && h in c.mains { LocalClearsLate(c, c.mains[h], e); }
    hide Local;
  }

  lemma LocalClearsLate(c: Cluster, m: Main, e: Event)
    requires IsLocal(e) && ClearsLate(m)
    ensures ClearsLate(Local(c, m, e))
  {
    hide StartBulk, Finish, Received, Visited, Begin, Reacted, AnsweredWith;
    match e {
      case Init(_) => StartBulkSame(m);
      case Commit(_, w, outcome) => FinishSame(m, w, outcome);
      case Deliver(_, command) => ReceivedSame(m, command);
      case Visit(_, w) => if m.bulk.Visiting? { VisitedSame(m, w); }
      case React(h, owner) => ReactedSame(m, h, owner);
      case Answer(_, won) => AnsweredSame(m, won);
      case _ =>
    }
  }

  lemma ReactedSame(m: Main, h: Host, owner: Option<Host>)
    ensures Reacted(m, h, owner).(checks := m.checks, role := m.role, removing := m.removing) == m
  {
  }

  lemma AnsweredSame(m: Main, won: bool)
    ensures AnsweredWith(m, won).(checks := m.checks, role := m.role, bulk := m.bulk) == m
  {
  }

  /** Over every run, from an empty cluster or any other where this holds, only an instance
      that has been told to stop ever deletes the key. */
  lemma {:induction false} OnlyStoppingClears(c: Cluster, events: seq<Event>, h: Host)
    requires forall g :: g in c.mains ==> ClearsLate(c.mains[g])
    ensures h in Run(c, events).mains && Run(c, events).mains[h].clearing ==> Run(c, events).mains[h].stopping
    decreases |events|
  {
    hide Step, ClearsLate;
    if events == [] {
      assert h in c.mains && c.mains[h].clearing ==> c.mains[h].stopping by { ClearsLateMeans(c, h); }
    } else {
      forall g | g in Step(c, events[0]).mains ensures ClearsLate(Step(c, events[0]).mains[g]) {
        StepClearsLate(c, events[0], g);
      }
      OnlyStoppingClears(Step(c, events[0]), events[1..], h);
    }
  }

  lemma ClearsLateMeans(c: Cluster, h: Host)
    requires h in c.mains ==> ClearsLate(c.mains[h])
    ensures h in c.mains && c.mains[h].clearing ==> c.mains[h].stopping
  {
  }

  // ---------- One holder at a time ----------

  /** An instance that holds triggers or will: it has some in memory, is about to add some,
      or leads, or has just won the key; a leader that has deleted the key in its shutdown
      only counts for what it still holds or adds. */
  predicate Active(m: Main) {
    || m.triggers != {} || m.starting != multiset{} || Answered(true) in m.checks
    || (m.role.Leader? && !m.cleared)
  }

  predicate KeyedAt(c: Cluster, h: Host) { h in c.mains && Active(c.mains[h]) ==> c.key == Some(h) }

  /** Only the owner of the key is active. */
  predicate Keyed(c: Cluster) { forall h :: h in c.mains ==> KeyedAt(c, h) }

  /** The event starts an activation, on a leader. */
  predicate Begins(c: Cluster, m: Main, e: Event) {
    m.role.Leader?
    && ((e.Deliver? && e.command in c.published && e.command.AddTriggers?)
        || (e.Visit? && m.bulk.Visiting? && e.workflow in m.bulk.ids))
  }

  /** The three ways for an active instance to be without the key: its key expires; a
      shutdown deletes it, its own while it still holds or adds triggers or another one's,
      which does not look whose key it is; or it starts an activation after that. */
  predicate Loses(c: Cluster, h: Host, e: Event)
    requires h in c.mains
  {
    || (e.Expire? && c.key == Some(h) && Active(c.mains[h]))
    || (e.DeleteKey? && c.key == Some(h) && e.host in c.mains && c.mains[e.host].clearing
        && Active(if e.host == h then c.mains[h].(cleared := true) else c.mains[h]))
    || (Begins(c, c.mains[h], e) && e.host == h && c.key != Some(h))
  }

  predicate IsLocal(e: Event) {
    !e.Expire? && !e.Store? && !e.Publish? && !e.Join? && !e.Crash? && !e.Claim? && !e.DeleteKey?
  }

  lemma ReactStaysInactive(c: Cluster, m: Main, e: Event)
    requires !Active(m) && e.React?
    ensures !Active(Local(c, m, e)) && !Begins(c, m, e)
  {
    assert Answered(true) !in m.checks - multiset{Seen(e.owner)};
  }

  lemma AnswerStaysInactive(c: Cluster, m: Main, e: Event)
    requires !Active(m) && e.Answer?
    ensures !Active(Local(c, m, e)) && !Begins(c, m, e)
  {
    hide StartBulk;
    StartBulkSame(m);
  }

  lemma ReadStaysInactive(c: Cluster, m: Main, e: Event)
    requires !Active(m) && (e.ReadKey? || e.Init?)
    ensures !Active(Local(c, m, e)) && !Begins(c, m, e)
  {
  }

  lemma DeliverStaysInactive(c: Cluster, m: Main, e: Event)
    requires !Active(m) && e.Deliver?
    ensures Active(Local(c, m, e)) <==> Begins(c, m, e)
  {
    if Begins(c, m, e) { BeginsActive(c, m, e); }
  }

  lemma VisitStaysInactive(c: Cluster, m: Main, e: Event)
    requires !Active(m) && e.Visit?
    ensures Active(Local(c, m, e)) <==> Begins(c, m, e)
  {
    if Begins(c, m, e) { BeginsActive(c, m, e); }
  }

  lemma OtherStaysInactive(c: Cluster, m: Main, e: Event)
    requires !Active(m) && !e.React? && !e.Answer? && !e.Init? && !e.ReadKey? && !e.Deliver? && !e.Visit?
    ensures !Active(Local(c, m, e)) && !Begins(c, m, e)
  {
    hide Reacted, AnsweredWith, StartBulk, Received, Visited;
  }

  /** An inactive instance becomes active by itself only when it starts an activation. */
  lemma StaysInactive(c: Cluster, m: Main, e: Event)
    requires !Active(m)
    ensures Active(Local(c, m, e)) <==> Begins(c, m, e)
  {
    hide *;
    match e {
      case React(_, _) => ReactStaysInactive(c, m, e);
      case Answer(_, _) => AnswerStaysInactive(c, m, e);
      case Init(_) => ReadStaysInactive(c, m, e);
      case ReadKey(_) => ReadStaysInactive(c, m, e);
      case Deliver(_, _) => DeliverStaysInactive(c, m, e);
      case Visit(_, _) => VisitStaysInactive(c, m, e);
      case _ => OtherStaysInactive(c, m, e);
    }
  }

  lemma StartBulkSame(m: Main)
    ensures StartBulk(m).(bulk := m.bulk) == m
  {
  }

  lemma BeginsActive(c: Cluster, m: Main, e: Event)
    requires Begins(c, m, e)
    ensures Active(Local(c, m, e))
  {
    var w := if e.Deliver? then e.command.workflow else e.workflow;
    assert w in Local(c, m, e).starting;
  }

  lemma StepLocal(c: Cluster, e: Event)
    requires IsLocal(e)
    ensures Step(c, e) == if e.host in c.mains then Set(c, e.host, Local(c, c.mains[e.host], e)) else c
  {
    hide Local;
  }

  lemma LocalKeyedAt(c: Cluster, h: Host, e: Event)
    requires h in c.mains && KeyedAt(c, h) && IsLocal(e)
    ensures h in Step(c, e).mains && (KeyedAt(Step(c, e), h) <==> !Loses(c, h, e))
  {
    StepLocal(c, e);
    hide Step, Local, Active, Begins;
    if e.host == h {
      if !Active(c.mains[h]) { StaysInactive(c, c.mains[h], e); }
      if Begins(c, c.mains[h], e) { BeginsActive(c, c.mains[h], e); }
      BeginsOnlyLocal(c, c.mains[h], e);
    }
  }

  lemma BeginsOnlyLocal(c: Cluster, m: Main, e: Event)
    ensures Begins(c, m, e) ==> IsLocal(e)
  {
  }

  lemma ClaimKeyedAt(c: Cluster, h: Host, g: Host)
    requires h in c.mains && KeyedAt(c, h)
    ensures h in Step(c, Claim(g)).mains && KeyedAt(Step(c, Claim(g)), h)
  {
    if g == h && Claiming in c.mains[h].checks && c.key.Some? {
      assert Answered(true) in c.mains[h].checks - multiset{Claiming} + multiset{Answered(false)}
        ==> Answered(true) in c.mains[h].checks;
    }
  }

  lemma DeleteKeyedAt(c: Cluster, h: Host, g: Host)
    requires h in c.mains && KeyedAt(c, h)
    ensures h in Step(c, DeleteKey(g)).mains
    ensures KeyedAt(Step(c, DeleteKey(g)), h) <==> !Loses(c, h, DeleteKey(g))
  {
  }

  /** Seen from one instance: it keeps the key as long as it is active, except in those
      three ways. */
  lemma StepKeyedAt(c: Cluster, h: Host, e: Event)
    requires h in c.mains && KeyedAt(c, h) && e != Crash(h)
    ensures h in Step(c, e).mains && (KeyedAt(Step(c, e), h) <==> !Loses(c, h, e))
  {
    if IsLocal(e) {
      hide *;
      LocalKeyedAt(c, h, e);
    } else if e.Claim? {
      hide Active, Step;
      ClaimKeyedAt(c, h, e.host);
    } else if e.DeleteKey? {
      hide *;
      DeleteKeyedAt(c, h, e.host);
    } else {
      hide Active, Local;
    }
  }

  /** Some live active instance loses the key. */
  ghost predicate Breaks(c: Cluster, e: Event) { exists h :: h in c.mains && e != Crash(h) && Loses(c, h, e) }

  /** Who is active owns the key: a step keeps that if and only if it is none of the three. */
  lemma StepKeyed(c: Cluster, e: Event)
    requires Keyed(c)
    ensures Keyed(Step(c, e)) <==> !Breaks(c, e)
  {
    hide Active, Step, Loses, KeyedAt;
    forall h | h in c.mains && e != Crash(h)
      ensures h in Step(c, e).mains && (KeyedAt(Step(c, e), h) <==> !Loses(c, h, e))
    {
      assert KeyedAt(c, h);
      StepKeyedAt(c, h, e);
    }
    forall h | h in Step(c, e).mains && h !in c.mains ensures KeyedAt(Step(c, e), h) { JoinedKeyedAt(c, h, e); }
    forall h | h in Step(c, e).mains && e == Crash(h) ensures KeyedAt(Step(c, e), h) { CrashedIsGone(c, h); }
  }

  lemma JoinedKeyedAt(c: Cluster, h: Host, e: Event)
    requires h !in c.mains && h in Step(c, e).mains
    ensures KeyedAt(Step(c, e), h)
  {
    hide Local;
    assert Step(c, e).mains[h] == BOOTED;
  }

  lemma CrashedIsGone(c: Cluster, h: Host)
    ensures h !in Step(c, Crash(h)).mains
  {
  }

  /** A shutdown deletes the key if and only if it is a leader's, by its role, at the moment
      it decides. */
  lemma ClearsByRole(c: Cluster, h: Host)
    requires h in c.mains && c.mains[h].stopping && !c.mains[h].clearing
    ensures Step(Step(c, SendClear(h)), DeleteKey(h)).key == if c.mains[h].role.Leader? then None else c.key
  {
    assert Step(c, SendClear(h)).mains[h].clearing == c.mains[h].role.Leader?;
  }

  /** For a shutdown that deletes its own key: nothing is broken if and only if the instance
      holds nothing, activates nothing and has not just won the key again. */
  lemma CleanClear(c: Cluster, h: Host)
    requires Keyed(c) && c.key == Some(h) && h in c.mains && c.mains[h].clearing
    ensures Keyed(Step(c, DeleteKey(h)))
       <==> c.mains[h].triggers == {} && c.mains[h].starting == multiset{} && Answered(true) !in c.mains[h].checks
  {
    StepKeyed(c, DeleteKey(h));
    hide Keyed, Step;
    assert forall g :: g in c.mains && Loses(c, g, DeleteKey(h)) ==> g == h;
  }

  ghost predicate Unbroken(c: Cluster, events: seq<Event>)
    decreases |events|
  {
    events != [] ==> !Breaks(c, events[0]) && Unbroken(Step(c, events[0]), events[1..])
  }

  lemma {:induction false} RunKeyed(c: Cluster, events: seq<Event>)
    requires Keyed(c) && Unbroken(c, events)
    ensures Keyed(Run(c, events))
    decreases |events|
  {
    hide Keyed, Step, Breaks;
    if events != [] {
      StepKeyed(c, events[0]);
      RunKeyed(Step(c, events[0]), events[1..]);
    }
  }

  /** No workflow is in memory on two instances. */
  predicate Exclusive(c: Cluster) {
    forall g, h :: g in c.mains && h in c.mains && g != h ==> c.mains[g].triggers !! c.mains[h].triggers
  }

  predicate Leads(m: Main) { m.role.Leader? && !m.cleared }

  lemma KeyedIsExclusive(c: Cluster, g: Host, h: Host)
    requires Keyed(c) && g in c.mains && h in c.mains && g != h
    ensures c.mains[g].triggers == {} || c.mains[h].triggers == {}
    ensures !(Leads(c.mains[g]) && Leads(c.mains[h]))
  {
    assert KeyedAt(c, g) && KeyedAt(c, h);
  }

  /** From an empty cluster, over every interleaving without one of those three steps, with
      checks, stepdowns, activations and shutdowns cut at their awaits: a workflow's
      triggers are in memory on at most one instance, and at most one instance leads that
      has not given up its key. */
  lemma AtMostOnce(events: seq<Event>)
    requires Unbroken(EMPTY, events)
    ensures Exclusive(Run(EMPTY, events))
    ensures forall g, h :: g in Run(EMPTY, events).mains && h in Run(EMPTY, events).mains && g != h
              ==> !(Leads(Run(EMPTY, events).mains[g]) && Leads(Run(EMPTY, events).mains[h]))
  {
    RunKeyed(EMPTY, events);
    var c := Run(EMPTY, events);
    hide Run, Leads, Keyed;
    forall g, h | g in c.mains && h in c.mains && g != h
      ensures c.mains[g].triggers !! c.mains[h].triggers && !(Leads(c.mains[g]) && Leads(c.mains[h]))
    {
      KeyedIsExclusive(c, g, h);
    }
  }

  // ---------- Two holders ----------

  /** With the key vacant, any listening instance takes over and adds a stored active
      workflow, without a word to the others. */
  lemma Takeover(a: Cluster, c: Cluster, graceful: bool, g: Host, w: WorkflowId) returns (d: Cluster)
    requires Reaches(a, c, graceful) && c.key.None? && g in c.mains
    requires c.mains[g].registered && c.mains[g].bulk.Idle? && w in c.active
    ensures Reaches(a, d, graceful) && d.key == Some(g)
    ensures g in d.mains && w in d.mains[g].triggers && Leads(d.mains[g])
    ensures forall h :: h in c.mains && h != g ==> h in d.mains && d.mains[h] == c.mains[h]
  {
    hide Reaches;
    var c1, c2 := Step(c, ReadKey(g)), Step(Step(c, ReadKey(g)), React(g, None));
    ReachesStep(a, c, ReadKey(g), graceful);
    ReachesStep(a, c1, React(g, None), graceful);
    Reclaims(c, g);
    hide Local, Step, Reacted, Claimed, AnsweredWith, Finish, Visited, Begin, StepDown, StartBulk;
    var c4 := Step(Step(c2, Claim(g)), Answer(g, true));
    ReachesStep(a, c2, Claim(g), graceful);
    ReachesStep(a, Step(c2, Claim(g)), Answer(g, true), graceful);
    Wins(c2, g);
    var c5 := Step(c4, LoadIds(g));
    ReachesStep(a, c4, LoadIds(g), graceful);
    ReachesStep(a, c5, Visit(g, w), graceful);
    ReachesStep(a, Step(c5, Visit(g, w)), Commit(g, w, Registered), graceful);
    d := Step(Step(c5, Visit(g, w)), Commit(g, w, Registered));
    Adds(c4, g, w);
  }

  lemma Reclaims(c: Cluster, g: Host)
    requires c.key.None? && g in c.mains
    ensures var d := Step(Step(c, ReadKey(g)), React(g, None));
            && d == c.(mains := d.mains) && d.mains.Keys == c.mains.Keys && Claiming in d.mains[g].checks
            && d.mains[g].registered == c.mains[g].registered && d.mains[g].bulk == c.mains[g].bulk
            && forall h :: h in c.mains && h != g ==> d.mains[h] == c.mains[h]
  {
    var c1 := Step(c, ReadKey(g));
    assert Seen(None) in c1.mains[g].checks;
  }

  lemma Wins(c: Cluster, g: Host)
    requires c.key.None? && g in c.mains && Claiming in c.mains[g].checks && c.mains[g].registered
    requires c.mains[g].bulk.Idle?
    ensures var d := Step(Step(c, Claim(g)), Answer(g, true));
            && d == c.(key := Some(g), mains := d.mains) && d.mains.Keys == c.mains.Keys
            && Leads(d.mains[g]) && d.mains[g].bulk == Loading
            && forall h :: h in c.mains && h != g ==> d.mains[h] == c.mains[h]
  {
    var c1 := Step(c, Claim(g));
    assert Answered(true) in c1.mains[g].checks;
  }

  lemma Adds(c: Cluster, g: Host, w: WorkflowId)
    requires g in c.mains && c.mains[g].role.Leader? && c.mains[g].bulk.Loading? && w in c.active
    ensures var d := Step(Step(Step(c, LoadIds(g)), Visit(g, w)), Commit(g, w, Registered));
            && d == c.(mains := d.mains) && d.mains.Keys == c.mains.Keys && w in d.mains[g].triggers
            && d.mains[g].role == c.mains[g].role && d.mains[g].cleared == c.mains[g].cleared
            && forall h :: h in c.mains && h != g ==> d.mains[h] == c.mains[h]
  {
    var c1, c2 := Step(c, LoadIds(g)), Step(Step(c, LoadIds(g)), Visit(g, w));
    assert c1.mains[g] == c.mains[g].(bulk := Visiting(c.active)) && w in c2.mains[g].starting;
  }

  /** The expiry of a live owner's key: the next instance to check adds what the owner holds. */
  lemma ExpiryDuplicates(c: Cluster, g: Host, h: Host, w: WorkflowId)
    requires c.key == Some(h) && h in c.mains && g in c.mains && g != h
    requires w in c.mains[h].triggers && w in c.active && c.mains[g].registered && c.mains[g].bulk.Idle?
    ensures exists d :: Reaches(c, d, false) && !Exclusive(d)
  {
    ReachesStart(c);
    ReachesStep(c, c, Expire, false);
    var d := Takeover(c, Step(c, Expire), false, g, w);
    assert w in d.mains[g].triggers && w in d.mains[h].triggers;
  }

  /** A shutdown that deletes the key while an activation is under way: the next instance
      takes over, and the activation goes on. No key expires and no process crashes. */
  lemma ShutdownDuplicates(c: Cluster, g: Host, h: Host, w: WorkflowId)
    requires h in c.mains && c.mains[h].clearing && w in c.mains[h].starting
    requires g in c.mains && g != h && w in c.active && c.mains[g].registered && c.mains[g].bulk.Idle?
    ensures exists d :: Reaches(c, d, true) && !Exclusive(d)
  {
    ReachesStart(c);
    ReachesStep(c, c, DeleteKey(h), true);
    var c1 := Step(c, DeleteKey(h));
    var d := Takeover(c, c1, true, g, w);
    ReachesStep(c, d, Commit(h, w, Registered), true);
    var last := Step(d, Commit(h, w, Registered));
    assert w in last.mains[h].triggers && w in last.mains[g].triggers;
  }

  /** From an empty cluster: the first instance leads and starts to activate, gets the
      signal to stop and deletes its key; a second one starts up, takes the key and
      activates the same workflow; then the first activation goes on. */
  lemma ShutdownDuplicatesReachable(a: Host, b: Host, w: WorkflowId)
    requires a != b
    ensures exists d :: Reaches(EMPTY, d, true) && !Exclusive(d)
  {
    hide Step, Reaches;
    var c := Stopping(a, w);
    var c1 := Step(c, DeleteKey(a));
    ReachesStep(EMPTY, c, DeleteKey(a), true);
    Deletes(c, a);
    var c2 := FirstLeader(c1, b, w);
    ReachesStep(EMPTY, c2, Commit(b, w, Registered), true);
    ReachesStep(EMPTY, Step(c2, Commit(b, w, Registered)), Commit(a, w, Registered), true);
    BothCommit(c2, a, b, w);
  }

  lemma Deletes(c: Cluster, a: Host)
    requires a in c.mains && c.mains[a].clearing
    ensures var d := Step(c, DeleteKey(a));
            d.key.None? && d.mains.Keys == c.mains.Keys && d.mains[a].starting == c.mains[a].starting
            && d.published == c.published
  {
  }

  lemma BothCommit(c: Cluster, a: Host, b: Host, w: WorkflowId)
    requires a != b && a in c.mains && b in c.mains && w in c.mains[a].starting && w in c.mains[b].starting
    ensures !Exclusive(Step(Step(c, Commit(b, w, Registered)), Commit(a, w, Registered)))
  {
    var d := Step(Step(c, Commit(b, w, Registered)), Commit(a, w, Registered));
    assert w in d.mains[a].triggers && w in d.mains[b].triggers;
  }

  /** A starting instance takes a vacant key and starts the activation it is told about. */
  lemma FirstLeader(c: Cluster, h: Host, w: WorkflowId) returns (d: Cluster)
    requires Reaches(EMPTY, c, true) && c.key.None? && h !in c.mains && AddTriggers(w) in c.published
    ensures Reaches(EMPTY, d, true) && d == c.(key := Some(h), mains := d.mains) && d.mains.Keys == c.mains.Keys + {h}
    ensures d.mains[h] == BOOTED.(role := Leader, checks := multiset{}, starting := multiset{w})
    ensures forall g :: g in c.mains ==> d.mains[g] == c.mains[g]
  {
    hide Reaches;
    var c1 := Step(c, Join(h));
    var c2 := Step(c1, Claim(h));
    var c3 := Step(c2, Answer(h, true));
    d := Step(c3, Deliver(h, AddTriggers(w)));
    ReachesStep(EMPTY, c, Join(h), true);
    ReachesStep(EMPTY, c1, Claim(h), true);
    ReachesStep(EMPTY, c2, Answer(h, true), true);
    ReachesStep(EMPTY, c3, Deliver(h, AddTriggers(w)), true);
    assert c2.mains[h] == BOOTED.(checks := multiset{Answered(true)}) && c2.key == Some(h);
    assert c3.mains[h] == BOOTED.(checks := multiset{}, role := Leader);
  }

  lemma Stopping(a: Host, w: WorkflowId) returns (c: Cluster)
    ensures Reaches(EMPTY, c, true) && c.mains.Keys == {a} && AddTriggers(w) in c.published
    ensures c.key == Some(a) && c.mains[a].clearing && w in c.mains[a].starting
  {
    ReachesStart(EMPTY);
    ReachesStep(EMPTY, EMPTY, Publish(AddTriggers(w)), true);
    hide Reaches;
    var c1 := FirstLeader(Step(EMPTY, Publish(AddTriggers(w))), a, w);
    ReachesStep(EMPTY, c1, StopProcess(a), true);
    ReachesStep(EMPTY, Step(c1, StopProcess(a)), SendClear(a), true);
    c := Step(Step(c1, StopProcess(a)), SendClear(a));
  }

  // ---------- Leader-only ----------

  /** In memory and not about to be removed by a handler. */
  function Held(m: Main): set<WorkflowId> { m.triggers - m.removing }

  /** Triggers in memory for good, and activations that will add some, only on a leader. */
  predicate MainOk(m: Main) { Held(m) != {} || m.starting != multiset{} ==> m.role.Leader? }

  predicate LeaderOnly(c: Cluster) { forall h :: h in c.mains ==> MainOk(c.mains[h]) }

  /** A leader that is made a follower with an activation under way, or before its stepdown
      handler listens; one that loses an overlapping attempt to take the key, which
      announces no stepdown; or a close function that throws on an instance that does not
      lead. */
  predicate Interrupts(c: Cluster, e: Event) {
    || (e.React? && e.host in c.mains && c.mains[e.host].role.Leader? && e.owner != Some(e.host)
        && Seen(e.owner) in c.mains[e.host].checks
        && (c.mains[e.host].starting != multiset{} || (!c.mains[e.host].registered && Held(c.mains[e.host]) != {})))
    || (e.Answer? && !e.won && e.host in c.mains && c.mains[e.host].role.Leader?
        && Answered(false) in c.mains[e.host].checks
        && (c.mains[e.host].starting != multiset{} || Held(c.mains[e.host]) != {}))
    || (e.Abort? && e.host in c.mains && !c.mains[e.host].role.Leader?
        && c.mains[e.host].triggers * c.mains[e.host].removing * e.spared != {})
  }

  lemma ReactMainOk(m: Main, h: Host, owner: Option<Host>)
    requires MainOk(m)
    ensures MainOk(Reacted(m, h, owner)) <==>
      !(m.role.Leader? && owner != Some(h) && (m.starting != multiset{} || (!m.registered && Held(m) != {})))
  {
    var n := Reacted(m, h, owner);
    assert n.starting == m.starting && n.triggers == m.triggers;
    if m.registered && (owner.None? || (owner != Some(h) && m.role.Leader?)) { assert Held(n) == {}; }
  }

  lemma AnswerMainOk(m: Main, won: bool)
    requires MainOk(m)
    ensures MainOk(AnsweredWith(m, won))
       <==> !(m.role.Leader? && !won && (m.starting != multiset{} || Held(m) != {}))
  {
    assert Held(AnsweredWith(m, won)) == Held(m);
  }

  lemma AbortMainOk(m: Main, spared: set<WorkflowId>)
    requires MainOk(m)
    ensures MainOk(m.(removing := m.removing - spared))
       <==> !(!m.role.Leader? && m.triggers * m.removing * spared != {})
  {
    assert Held(m.(removing := m.removing - spared)) == Held(m) + m.triggers * m.removing * spared;
  }

  lemma FinishMainOk(m: Main, w: WorkflowId, outcome: Outcome)
    requires MainOk(m) && w in m.starting
    ensures MainOk(Finish(m, w, outcome))
  {
  }

  lemma UnloadMainOk(m: Main, w: WorkflowId, again: bool)
    requires MainOk(m)
    ensures MainOk(Unloaded(m, w, again))
  {
    assert Held(Unloaded(m, w, again)) <= Held(m);
  }

  lemma ReceivedMainOk(m: Main, command: Command)
    requires MainOk(m)
    ensures MainOk(Received(m, command))
  {
  }

  lemma VisitedMainOk(m: Main, w: WorkflowId)
    requires MainOk(m) && m.bulk.Visiting?
    ensures MainOk(Visited(m, w))
  {
  }

  lemma LocalMainOk(c: Cluster, h: Host, e: Event)
    requires IsLocal(e) && h in c.mains && e.host == h && MainOk(c.mains[h])
    ensures MainOk(Local(c, c.mains[h], e)) <==> !Interrupts(c, e)
  {
    var m := c.mains[h];
    hide Reacted, AnsweredWith, Finish, Unloaded, Received, Visited, StartBulk;
    match e {
      case React(_, owner) => ReactMainOk(m, h, owner);
      case Answer(_, won) => AnswerMainOk(m, won);
      case Abort(_, spared) => AbortMainOk(m, spared);
      case Commit(_, w, outcome) => if w in m.starting { FinishMainOk(m, w, outcome); }
      case Removed(_, w, again) => UnloadMainOk(m, w, again);
      case Deliver(_, command) => ReceivedMainOk(m, command);
      case Visit(_, w) => if m.bulk.Visiting? { VisitedMainOk(m, w); }
      case Init(_) => StartBulkSame(m);
      case _ =>
    }
  }

  /** A step keeps triggers and pending activations on leaders if and only if it is none of
      those. */
  lemma StepLeaderOnly(c: Cluster, e: Event)
    requires LeaderOnly(c)
    ensures LeaderOnly(Step(c, e)) <==> !Interrupts(c, e)
  {
    hide Local, MainOk, Held;
    var next := Step(c, e);
    if IsLocal(e) {
      StepLocal(c, e);
      hide Step;
      if e.host in c.mains {
        LocalMainOk(c, e.host, e);
        assert next.mains[e.host] == Local(c, c.mains[e.host], e);
      }
    } else {
      forall h | h in next.mains ensures MainOk(next.mains[h]) { OtherMainOk(c, h, e); }
    }
  }

  lemma OtherMainOk(c: Cluster, h: Host, e: Event)
    requires !IsLocal(e) && h in Step(c, e).mains && (h in c.mains ==> MainOk(c.mains[h]))
    ensures MainOk(Step(c, e).mains[h])
  {
    hide Local;
  }

  ghost predicate Uninterrupted(c: Cluster, events: seq<Event>)
    decreases |events|
  {
    events != [] ==> !Interrupts(c, events[0]) && Uninterrupted(Step(c, events[0]), events[1..])
  }

  /** Over every run without such a step, however keys expire, instances shut down and
      messages are delivered. */
  lemma {:induction false} RunLeaderOnly(c: Cluster, events: seq<Event>)
    requires LeaderOnly(c) && Uninterrupted(c, events)
    ensures LeaderOnly(Run(c, events))
    decreases |events|
  {
    hide LeaderOnly, Interrupts, Step;
    if events != [] {
      StepLeaderOnly(c, events[0]);
      RunLeaderOnly(Step(c, events[0]), events[1..]);
    }
  }

  /** The leader check as one atomic handler, whatever it reads. */
  function AtomicCheck(c: Cluster, h: Host): seq<Event> {
    if c.key.None? then [ReadKey(h), React(h, None), Claim(h), Answer(h, true)] else [ReadKey(h), React(h, c.key)]
  }

  /** Run without an interruption, and with no activation under way, it never interrupts. */
  lemma AtomicCheckIsSafe(c: Cluster, h: Host)
    requires h in c.mains && c.mains[h].registered && c.mains[h].starting == multiset{}
    ensures Uninterrupted(c, AtomicCheck(c, h))
  {
    var events := AtomicCheck(c, h);
    var c1, c2 := Step(c, ReadKey(h)), Step(Step(c, ReadKey(h)), React(h, c.key));
    hide Step, Interrupts;
    ReadIsSafe(c, h);
    if c.key.None? {
      ClaimIsSafe(c2, h);
      assert Uninterrupted(Step(c2, Claim(h)), events[3..]) by { assert events[3..][1..] == []; }
      assert Uninterrupted(c2, events[2..]) by { assert events[2..][1..] == events[3..]; }
      assert Uninterrupted(c1, events[1..]) by { assert events[1..][1..] == events[2..]; }
    } else {
      assert Uninterrupted(c1, events[1..]) by { assert events[1..][1..] == []; }
    }
  }

  lemma ReadIsSafe(c: Cluster, h: Host)
    requires h in c.mains && c.mains[h].registered && c.mains[h].starting == multiset{}
    ensures !Interrupts(c, ReadKey(h)) && !Interrupts(Step(c, ReadKey(h)), React(h, c.key))
  {
    assert Step(c, ReadKey(h)).mains[h] == c.mains[h].(checks := c.mains[h].checks + multiset{Seen(c.key)});
    hide Step;
  }

  lemma ClaimIsSafe(c: Cluster, h: Host)
    ensures !Interrupts(c, Claim(h)) && !Interrupts(Step(c, Claim(h)), Answer(h, true))
  {
    hide Step;
  }

  /** Stepped down between the decision and the addition: a follower ends up holding the
      triggers of a workflow it did not hold before. */
  lemma CommitAfterStepdown(c: Cluster, h: Host, g: Host, w: WorkflowId)
    requires h in c.mains && c.mains[h].role.Leader? && w in c.mains[h].starting
    requires g != h && Seen(Some(g)) in c.mains[h].checks && w !in c.mains[h].triggers + c.mains[h].removing
    ensures var last := Step(Step(c, React(h, Some(g))), Commit(h, w, Registered));
            h in last.mains && last.mains[h].role.Follower? && w in Held(last.mains[h])
  {
  }

  /** From an empty cluster: the leader decides to activate, its key expires, a second
      instance takes the key, the first notices and steps down, and goes on activating. */
  lemma FollowerHoldsTriggers(a: Host, b: Host, w: WorkflowId)
    requires a != b
    ensures exists d :: Reaches(EMPTY, d, false) && a in d.mains && d.mains[a].role.Follower? && w in Held(d.mains[a])
  {
    var c1 := Replaced(a, b, w);
    var c2 := Step(c1, ReadKey(a));
    ReachesStep(EMPTY, c1, ReadKey(a), false);
    var c3 := Step(c2, React(a, Some(b)));
    ReachesStep(EMPTY, c2, React(a, Some(b)), false);
    ReachesStep(EMPTY, c3, Commit(a, w, Registered), false);
    hide Reaches;
    assert Seen(Some(b)) in c2.mains[a].checks;
    CommitAfterStepdown(c2, a, b, w);
  }

  lemma Replaced(a: Host, b: Host, w: WorkflowId) returns (c: Cluster)
    requires a != b
    ensures Reaches(EMPTY, c, false) && c.key == Some(b) && c.mains.Keys == {a, b}
    ensures AddTriggers(w) in c.published && Answered(true) in c.mains[b].checks
    ensures c.mains[a].role.Leader? && w in c.mains[a].starting && c.mains[a].triggers == {} == c.mains[a].removing
  {
    ReachesStart(EMPTY);
    ReachesStep(EMPTY, EMPTY, Publish(AddTriggers(w)), true);
    hide Local, Claimed, Reaches;
    var c1 := FirstLeader(Step(EMPTY, Publish(AddTriggers(w))), a, w);
    ReachesAnyway(EMPTY, c1);
    ReachesStep(EMPTY, c1, Expire, false);
    ReachesStep(EMPTY, Step(c1, Expire), Join(b), false);
    ReachesStep(EMPTY, Step(Step(c1, Expire), Join(b)), Claim(b), false);
    hide Step;
    c := Step(Step(Step(c1, Expire), Join(b)), Claim(b));
    Succeeds(c1, b);
  }

  lemma Succeeds(c: Cluster, b: Host)
    requires b !in c.mains
    ensures var d := Step(Step(Step(c, Expire), Join(b)), Claim(b));
            && d == c.(key := Some(b), mains := c.mains[b := BOOTED.(checks := multiset{Answered(true)})])
  {
    var c2 := Step(Step(c, Expire), Join(b));
    assert c2 == c.(key := None, mains := c.mains[b := BOOTED]);
    assert Step(c2, Claim(b)).mains[b] == BOOTED.(checks := multiset{Answered(true)});
    assert Step(c2, Claim(b)).mains == c2.mains[b := BOOTED.(checks := multiset{Answered(true)})];
  }

  /** From the same state: both instances activate. */
  lemma ExpiryDuplicatesReachable(a: Host, b: Host, w: WorkflowId)
    requires a != b
    ensures exists d :: Reaches(EMPTY, d, false) && !Exclusive(d)
  {
    hide Step, Reaches;
    var c1 := Replaced(a, b, w);
    var c2, c3 := Step(c1, Answer(b, true)), Step(Step(c1, Answer(b, true)), Deliver(b, AddTriggers(w)));
    ReachesStep(EMPTY, c1, Answer(b, true), false);
    ReachesStep(EMPTY, c2, Deliver(b, AddTriggers(w)), false);
    LeaderStarts(c1, a, b, w);
    ReachesStep(EMPTY, c3, Commit(b, w, Registered), false);
    ReachesStep(EMPTY, Step(c3, Commit(b, w, Registered)), Commit(a, w, Registered), false);
    BothCommit(c3, a, b, w);
  }

  lemma LeaderStarts(c: Cluster, a: Host, b: Host, w: WorkflowId)
    requires a != b && a in c.mains && b in c.mains && Answered(true) in c.mains[b].checks
    requires AddTriggers(w) in c.published
    ensures var d := Step(Step(c, Answer(b, true)), Deliver(b, AddTriggers(w)));
            d.mains.Keys == c.mains.Keys && d.mains[a] == c.mains[a] && w in d.mains[b].starting
  {
    hide StartBulk;
    var c2 := Step(c, Answer(b, true));
    StartBulkSame(c.mains[b].(checks := c.mains[b].checks - multiset{Answered(true)}, role := Leader));
    assert c2.mains[b].role.Leader?;
  }

  /** An activation that ends while a removal of its workflow is under way lasts exactly if no
      other handler is still to visit the workflow. */
  lemma RemovedAgain(c: Cluster, h: Host, w: WorkflowId, again: bool)
    requires h in c.mains && w in c.mains[h].removing && w in c.mains[h].starting
    ensures var d := Step(Step(c, Removed(h, w, again)), Commit(h, w, Registered));
            h in d.mains && (w in Held(d.mains[h]) <==> !again)
  {
    assert w in Step(c, Removed(h, w, again)).mains[h].starting;
  }

  /** What takes a workflow off an instance that does not lead: its removal commands do not,
      since only leaders hear them, and a check that finds another owner does nothing. */
  predicate Relieves(m: Main, h: Host, w: WorkflowId, e: Event) {
    || e == Crash(h) || e == StopProcess(h) || e == TriggerError(h, w)
    || (e == React(h, None) && Seen(None) in m.checks && m.registered)
    || (e == Commit(h, w, Rejected(false)) && w in m.starting)
  }

  lemma StrandedTriggers(c: Cluster, h: Host, w: WorkflowId, e: Event)
    requires h in c.mains && !c.mains[h].role.Leader? && w in Held(c.mains[h])
    ensures (h in Step(c, e).mains && w in Held(Step(c, e).mains[h])) <==> !Relieves(c.mains[h], h, w, e)
  {
    if IsLocal(e) {
      StepLocal(c, e);
      hide Step;
      if e.host == h { StrandedLocal(c, h, w, e); }
    } else {
      hide Local;
    }
  }

  lemma StrandedLocal(c: Cluster, h: Host, w: WorkflowId, e: Event)
    requires h in c.mains && !c.mains[h].role.Leader? && w in Held(c.mains[h]) && IsLocal(e) && e.host == h
    ensures w in Held(Local(c, c.mains[h], e)) <==> !Relieves(c.mains[h], h, w, e)
  {
    hide *;
    if e.React? { StrandedReact(c, h, w, e); }
    else if e.Answer? || e.Init? || e.Visit? { StrandedLater(c, h, w, e); }
    else { StrandedOther(c, h, w, e); }
  }

  lemma StrandedReact(c: Cluster, h: Host, w: WorkflowId, e: Event)
    requires h in c.mains && !c.mains[h].role.Leader? && w in Held(c.mains[h]) && e.React? && e.host == h
    ensures w in Held(Local(c, c.mains[h], e)) <==> !Relieves(c.mains[h], h, w, e)
  {
  }

  lemma StrandedLater(c: Cluster, h: Host, w: WorkflowId, e: Event)
    requires h in c.mains && !c.mains[h].role.Leader? && w in Held(c.mains[h])
    requires (e.Answer? || e.Init? || e.Visit?) && e.host == h
    ensures w in Held(Local(c, c.mains[h], e)) && !Relieves(c.mains[h], h, w, e)
  {
    var m := c.mains[h];
    hide Begin, StartBulk;
    if e.Visit? && m.bulk.Visiting? {
      BeginOnlyStarts(m.(bulk := Visiting(m.bulk.ids - {e.workflow})), e.workflow);
    } else {
      StartBulkSame(m);
    }
  }

  lemma StrandedOther(c: Cluster, h: Host, w: WorkflowId, e: Event)
    requires h in c.mains && !c.mains[h].role.Leader? && w in Held(c.mains[h]) && IsLocal(e) && e.host == h
    requires !e.React? && !e.Answer? && !e.Init? && !e.Visit?
    ensures w in Held(Local(c, c.mains[h], e)) <==> !Relieves(c.mains[h], h, w, e)
  {
    hide *;
    if e.Removed? || e.Abort? || e.Commit? { StrandedRemoval(c, h, w, e); } else { StrandedRest(c, h, w, e); }
  }

  lemma StrandedRemoval(c: Cluster, h: Host, w: WorkflowId, e: Event)
    requires h in c.mains && w in Held(c.mains[h]) && (e.Removed? || e.Abort? || e.Commit?) && e.host == h
    ensures w in Held(Local(c, c.mains[h], e)) <==> !Relieves(c.mains[h], h, w, e)
  {
    hide Finish, Unloaded;
    var m := c.mains[h];
    if e.Commit? { HeldFinish(m, w, e.workflow, e.outcome); }
    if e.Removed? && e.workflow in m.removing { HeldUnloaded(m, w, e.workflow, e.again); }
  }

  lemma HeldFinish(m: Main, w: WorkflowId, v: WorkflowId, outcome: Outcome)
    requires w in Held(m)
    ensures w in Held(Finish(m, v, outcome)) <==> !(outcome == Rejected(false) && v == w)
  {
  }

  lemma HeldUnloaded(m: Main, w: WorkflowId, v: WorkflowId, again: bool)
    requires w in Held(m) && v in m.removing
    ensures w in Held(Unloaded(m, v, again))
  {
  }

  lemma StrandedRest(c: Cluster, h: Host, w: WorkflowId, e: Event)
    requires h in c.mains && !c.mains[h].role.Leader? && w in Held(c.mains[h]) && IsLocal(e) && e.host == h
    requires !e.React? && !e.Answer? && !e.Init? && !e.Visit? && !e.Removed? && !e.Abort? && !e.Commit?
    ensures w in Held(Local(c, c.mains[h], e)) <==> !Relieves(c.mains[h], h, w, e)
  {
    var m, n := c.mains[h], Local(c, c.mains[h], e);
    assert n.triggers == m.triggers;
    assert w in n.removing <==> e.StopProcess? || e == TriggerError(h, w);
    hide Local;
  }

  lemma BeginOnlyStarts(m: Main, w: WorkflowId)
    ensures Begin(m, w).(starting := m.starting) == m
  {
  }

  // ---------- No leader at all ----------

  /** The live owner of the key leads, or is about to hear that it has just won. */
  predicate Seated(m: Main) { m.role.Leader? || Answered(true) in m.checks }

  predicate OwnerLeads(c: Cluster) { c.key.Some? && c.key.value in c.mains ==> Seated(c.mains[c.key.value]) }

  /** The three ways for the owner not to lead: a process starts up under the id that still
      owns the key; the owner reacts to something else than its own id, read before it won;
      or it hears of an attempt that it lost to itself. */
  predicate Unseats(c: Cluster, e: Event) {
    || (e.Join? && e.host !in c.mains && c.key == Some(e.host))
    || (e.React? && e.host in c.mains && c.key == Some(e.host) && e.owner != Some(e.host)
        && Seen(e.owner) in c.mains[e.host].checks && Answered(true) !in c.mains[e.host].checks)
    || (e.Answer? && !e.won && e.host in c.mains && c.key == Some(e.host)
        && Answered(false) in c.mains[e.host].checks && Answered(true) !in c.mains[e.host].checks)
  }

  /** A step keeps the owner leading if and only if it is none of those. */
  lemma StepOwnerLeads(c: Cluster, e: Event)
    requires OwnerLeads(c)
    ensures OwnerLeads(Step(c, e)) <==> !Unseats(c, e)
  {
    if IsLocal(e) {
      StepLocal(c, e);
      hide Step, Seated;
      if e.host in c.mains && c.key == Some(e.host) { LocalSeated(c, e.host, e); }
    } else {
      hide Local;
    }
  }

  lemma LocalSeated(c: Cluster, h: Host, e: Event)
    requires h in c.mains && IsLocal(e) && e.host == h && c.key == Some(h) && Seated(c.mains[h])
    ensures Seated(Local(c, c.mains[h], e)) <==> !Unseats(c, e)
  {
    hide *;
    match e {
      case React(_, _) => ReactSeated(c, h, e);
      case Answer(_, _) => AnswerSeated(c, h, e);
      case _ => OtherSeated(c, h, e);
    }
  }

  lemma ReactSeated(c: Cluster, h: Host, e: Event)
    requires h in c.mains && e.React? && e.host == h && c.key == Some(h) && Seated(c.mains[h])
    ensures Seated(Local(c, c.mains[h], e)) <==> !Unseats(c, e)
  {
    hide Reacted;
    ReactedChecks(c.mains[h], h, e.owner);
    ReactedRole(c.mains[h], h, e.owner);
  }

  lemma ReactedChecks(m: Main, h: Host, owner: Option<Host>)
    ensures Answered(true) in Reacted(m, h, owner).checks <==> Answered(true) in m.checks
  {
    assert Answered(true) in m.checks - multiset{Seen(owner)} <==> Answered(true) in m.checks;
  }

  lemma ReactedRole(m: Main, h: Host, owner: Option<Host>)
    ensures Reacted(m, h, owner).role.Leader? <==> m.role.Leader? && owner == Some(h)
  {
  }

  lemma AnswerSeated(c: Cluster, h: Host, e: Event)
    requires h in c.mains && e.Answer? && e.host == h && c.key == Some(h) && Seated(c.mains[h])
    ensures Seated(Local(c, c.mains[h], e)) <==> !Unseats(c, e)
  {
    var m, n := c.mains[h], Local(c, c.mains[h], e);
    hide StartBulk;
    StartBulkSame(m.(checks := m.checks - multiset{Answered(e.won)}, role := if e.won then Leader else Follower));
    if Answered(e.won) in m.checks { assert n.role == if e.won then Leader else Follower; }
  }

  lemma OtherSeated(c: Cluster, h: Host, e: Event)
    requires h in c.mains && IsLocal(e) && !e.React? && !e.Answer? && Seated(c.mains[h])
    ensures Seated(Local(c, c.mains[h], e)) && !Unseats(c, e)
  {
    LocalKeepsRole(c, c.mains[h], e);
    hide Local;
  }

  /** Only the reactions of a check change the role or take a check off the list. */
  lemma LocalKeepsRole(c: Cluster, m: Main, e: Event)
    requires IsLocal(e) && !e.React? && !e.Answer?
    ensures Local(c, m, e).role == m.role
    ensures Local(c, m, e).checks == if e.ReadKey? then m.checks + multiset{Seen(c.key)} else m.checks
  {
    hide StartBulk, Finish, Received, Visited, Begin, Reacted, AnsweredWith;
    match e {
      case Init(_) => StartBulkSame(m);
      case Commit(_, w, outcome) => FinishSame(m, w, outcome);
      case Deliver(_, command) => ReceivedSame(m, command);
      case Visit(_, w) => if m.bulk.Visiting? { VisitedSame(m, w); }
      case _ =>
    }
  }

  lemma FinishSame(m: Main, w: WorkflowId, outcome: Outcome)
    ensures Finish(m, w, outcome).(starting := m.starting, triggers := m.triggers) == m
  {
  }

  lemma ReceivedSame(m: Main, command: Command)
    ensures Received(m, command).(starting := m.starting, removing := m.removing) == m
  {
  }

  lemma VisitedSame(m: Main, w: WorkflowId)
    requires m.bulk.Visiting?
    ensures Visited(m, w).(starting := m.starting, bulk := m.bulk) == m
  {
  }

  ghost predicate NeverUnseated(c: Cluster, events: seq<Event>)
    decreases |events|
  {
    events != [] ==> !Unseats(c, events[0]) && NeverUnseated(Step(c, events[0]), events[1..])
  }

  lemma {:induction false} RunOwnerLeads(c: Cluster, events: seq<Event>)
    requires OwnerLeads(c) && NeverUnseated(c, events)
    ensures OwnerLeads(Run(c, events))
    decreases |events|
  {
    hide OwnerLeads, Unseats, Step;
    if events != [] {
      StepOwnerLeads(c, events[0]);
      RunOwnerLeads(Step(c, events[0]), events[1..]);
    }
  }

  /** The owner of the key does not lead and has not just won: every check of its own only
      renews the key, or fails to set it. */
  predicate Locked(c: Cluster, h: Host) { h in c.mains && c.key == Some(h) && !Seated(c.mains[h]) }

  /** It stays so until the key goes or the process does. */
  lemma LockedUntil(c: Cluster, h: Host, e: Event)
    requires Locked(c, h)
    ensures Locked(Step(c, e), h) <==>
      !(e.Expire? || e == Crash(h) || (e.DeleteKey? && e.host in c.mains && c.mains[e.host].clearing))
  {
    if IsLocal(e) {
      StepLocal(c, e);
      hide Step, Seated;
      if e.host == h { LocalLocked(c, h, e); }
    } else {
      hide Local;
    }
  }

  lemma LocalLocked(c: Cluster, h: Host, e: Event)
    requires h in c.mains && IsLocal(e) && e.host == h && !Seated(c.mains[h])
    ensures !Seated(Local(c, c.mains[h], e))
  {
    hide *;
    match e {
      case React(_, _) => ReactLocked(c, h, e);
      case Answer(_, _) => AnswerLocked(c, h, e);
      case _ => OtherLocked(c, h, e);
    }
  }

  lemma ReactLocked(c: Cluster, h: Host, e: Event)
    requires h in c.mains && e.React? && !Seated(c.mains[h])
    ensures !Seated(Local(c, c.mains[h], e))
  {
    assert Answered(true) !in c.mains[h].checks - multiset{Seen(e.owner)};
  }

  lemma AnswerLocked(c: Cluster, h: Host, e: Event)
    requires h in c.mains && e.Answer? && !Seated(c.mains[h])
    ensures !Seated(Local(c, c.mains[h], e))
  {
    hide StartBulk;
  }

  lemma OtherLocked(c: Cluster, h: Host, e: Event)
    requires h in c.mains && IsLocal(e) && !e.React? && !e.Answer? && !Seated(c.mains[h])
    ensures !Seated(Local(c, c.mains[h], e))
  {
    LocalKeepsRole(c, c.mains[h], e);
    hide Local;
  }

  /** Meanwhile nobody leads. */
  lemma LockedMeansLeaderless(c: Cluster, h: Host, g: Host)
    requires Keyed(c) && Locked(c, h) && g in c.mains
    ensures !Leads(c.mains[g])
  {
    assert KeyedAt(c, g);
  }

  /** The ordinary way there, from an empty cluster: the leader's process crashes and starts
      again under the same host name before the key has expired. */
  lemma RejoinLocks(h: Host)
    ensures exists d :: Reaches(EMPTY, d, false) && Locked(d, h)
  {
    Boots(EMPTY, h);
    hide *;
    ReachesStart(EMPTY);
    var c := Step(Step(EMPTY, Join(h)), Claim(h));
    ReachesStep(EMPTY, EMPTY, Join(h), false);
    ReachesStep(EMPTY, Step(EMPTY, Join(h)), Claim(h), false);
    ReachesStep(EMPTY, c, Crash(h), false);
    Crashes(c, h);
    var d := Step(c, Crash(h));
    Boots(d, h);
    ReachesStep(EMPTY, d, Join(h), false);
    ReachesStep(EMPTY, Step(d, Join(h)), Claim(h), false);
    ReachesStep(EMPTY, Step(Step(d, Join(h)), Claim(h)), Answer(h, false), false);
    AnswerLocks(Step(Step(d, Join(h)), Claim(h)), h);
  }

  lemma Boots(c: Cluster, h: Host)
    requires h !in c.mains && (c.key.None? || c.key == Some(h))
    ensures var d := Step(Step(c, Join(h)), Claim(h));
            h in d.mains && d.key == Some(h) && d.mains[h].role.Unset?
            && d.mains[h].checks == multiset{Answered(c.key.None?)}
  {
    assert Step(c, Join(h)).mains[h] == BOOTED;
  }

  lemma Crashes(c: Cluster, h: Host)
    ensures h !in Step(c, Crash(h)).mains && Step(c, Crash(h)).key == c.key
  {
  }

  lemma AnswerLocks(c: Cluster, h: Host)
    requires h in c.mains && c.key == Some(h) && c.mains[h].checks == multiset{Answered(false)}
    ensures Locked(Step(c, Answer(h, false)), h)
  {
  }

  /** Two overlapping checks that both find the key vacant end there: the first takes the
      key, the second loses to it. */
  lemma OverlapLocks(c: Cluster, h: Host)
    requires h in c.mains && c.key.None? && c.mains[h].checks == multiset{Seen(None), Seen(None)}
    ensures Locked(Run(c, [React(h, None), Claim(h), Answer(h, true), React(h, None), Claim(h), Answer(h, false)]), h)
  {
    var events := [React(h, None), Claim(h), Answer(h, true), React(h, None), Claim(h), Answer(h, false)];
    var c3 := FirstWins(c, h);
    var c6 := SecondLoses(c3, h);
    hide Step, Locked;
    RunUnfolds(c, events, 0);
    RunUnfolds(Step(c, events[0]), events, 1);
    RunUnfolds(Step(Step(c, events[0]), events[1]), events, 2);
    RunUnfolds(c3, events, 3);
    RunUnfolds(Step(c3, events[3]), events, 4);
    RunUnfolds(Step(Step(c3, events[3]), events[4]), events, 5);
    assert events[0..] == events;
  }

  lemma FirstWins(c: Cluster, h: Host) returns (d: Cluster)
    requires h in c.mains && c.key.None? && c.mains[h].checks == multiset{Seen(None), Seen(None)}
    ensures d == Step(Step(Step(c, React(h, None)), Claim(h)), Answer(h, true))
    ensures h in d.mains && d.key == Some(h) && d.mains[h].checks == multiset{Seen(None)}
  {
    hide *;
    ReactsVacant(c, h, 1);
    ClaimsVacant(Step(c, React(h, None)), h);
    AnswersWon(Step(Step(c, React(h, None)), Claim(h)), h);
    d := Step(Step(Step(c, React(h, None)), Claim(h)), Answer(h, true));
  }

  lemma ReactsVacant(c: Cluster, h: Host, more: nat)
    requires h in c.mains && more <= 1
    requires c.mains[h].checks == if more == 1 then multiset{Seen(None), Seen(None)} else multiset{Seen(None)}
    ensures var d := Step(c, React(h, None));
            h in d.mains && d.key == c.key
            && d.mains[h].checks == if more == 1 then multiset{Seen(None), Claiming} else multiset{Claiming}
  {
  }

  lemma ClaimsVacant(c: Cluster, h: Host)
    requires h in c.mains && c.key.None? && c.mains[h].checks == multiset{Seen(None), Claiming}
    ensures var d := Step(c, Claim(h));
            h in d.mains && d.key == Some(h) && d.mains[h].checks == multiset{Seen(None), Answered(true)}
  {
  }

  lemma AnswersWon(c: Cluster, h: Host)
    requires h in c.mains && c.mains[h].checks == multiset{Seen(None), Answered(true)}
    ensures var d := Step(c, Answer(h, true));
            h in d.mains && d.key == c.key && d.mains[h].checks == multiset{Seen(None)}
  {
    hide StartBulk;
    StartBulkSame(c.mains[h].(checks := multiset{Seen(None)}, role := Leader));
    assert c.mains[h].checks - multiset{Answered(true)} == multiset{Seen(None)};
  }

  lemma SecondLoses(c: Cluster, h: Host) returns (d: Cluster)
    requires h in c.mains && c.key == Some(h) && c.mains[h].checks == multiset{Seen(None)}
    ensures d == Step(Step(Step(c, React(h, None)), Claim(h)), Answer(h, false))
    ensures Locked(d, h)
  {
    hide Locked;
    ReactsVacant(c, h, 0);
    d := ClaimFails(Step(c, React(h, None)), h);
  }

  lemma ClaimFails(c: Cluster, h: Host) returns (d: Cluster)
    requires h in c.mains && c.key == Some(h) && c.mains[h].checks == multiset{Claiming}
    ensures d == Step(Step(c, Claim(h)), Answer(h, false)) && Locked(d, h)
  {
    var c2 := Step(c, Claim(h));
    assert c2.mains[h].checks == multiset{Answered(false)};
    d := Step(c2, Answer(h, false));
  }

  /** From an empty cluster, without an expiry or a crash: the first leader shuts down, and
      two overlapping checks of the second instance leave the cluster without a leader. */
  lemma LockedReachable(a: Host, b: Host, w: WorkflowId)
    requires a != b
    ensures exists d :: Reaches(EMPTY, d, true) && Locked(d, a)
  {
    hide *;
    var c1 := Stopping(b, w);
    var c2 := Joins(c1, a);
    ReachesStep(EMPTY, c2, DeleteKey(b), true);
    var c3 := Step(c2, DeleteKey(b));
    ReachesStep(EMPTY, c3, ReadKey(a), true);
    ReachesStep(EMPTY, Step(c3, ReadKey(a)), ReadKey(a), true);
    ReadTwice(c2, a, b);
    var c4, events := Step(Step(c3, ReadKey(a)), ReadKey(a)),
      [React(a, None), Claim(a), Answer(a, true), React(a, None), Claim(a), Answer(a, false)];
    OverlapLocks(c4, a);
    assert Graceful(events) by { NoExpiryNoCrash(a); }
    ReachesRun(EMPTY, c4, events, true);
  }

  lemma NoExpiryNoCrash(a: Host)
    ensures Graceful([React(a, None), Claim(a), Answer(a, true), React(a, None), Claim(a), Answer(a, false)])
  {
  }

  /** A second instance starts up while the first one has the key. */
  lemma Joins(c: Cluster, a: Host) returns (d: Cluster)
    requires Reaches(EMPTY, c, true) && c.key.Some? && c.key.value != a && a !in c.mains
    ensures Reaches(EMPTY, d, true) && d.key == c.key && d.mains.Keys == c.mains.Keys + {a}
    ensures d.mains[a].checks == multiset{} && forall g :: g in c.mains ==> d.mains[g] == c.mains[g]
  {
    hide Reaches;
    var c1, c2 := Step(c, Join(a)), Step(Step(c, Join(a)), Claim(a));
    ReachesStep(EMPTY, c, Join(a), true);
    ReachesStep(EMPTY, c1, Claim(a), true);
    ReachesStep(EMPTY, c2, Answer(a, false), true);
    assert c2.mains[a].checks == multiset{Answered(false)};
    d := Step(c2, Answer(a, false));
  }

  lemma ReadTwice(c: Cluster, a: Host, b: Host)
    requires a != b && a in c.mains && b in c.mains && c.mains[b].clearing && c.mains[a].checks == multiset{}
    ensures var d := Step(Step(Step(c, DeleteKey(b)), ReadKey(a)), ReadKey(a));
            a in d.mains && d.key.None? && d.mains[a].checks == multiset{Seen(None), Seen(None)}
  {
    var c1 := Step(c, DeleteKey(b));
    assert c1.key.None? && c1.mains[a] == c.mains[a];
    var c2 := Step(c1, ReadKey(a));
    assert c2.key.None? && c2.mains[a].checks == multiset{Seen(None)};
  }

  lemma {:induction false} ReachesRun(c: Cluster, d: Cluster, events: seq<Event>, graceful: bool)
    requires Reaches(c, d, graceful) && (graceful ==> Graceful(events))
    ensures Reaches(c, Run(d, events), graceful)
    decreases |events|
  {
    hide Step, Reaches;
    if events != [] {
      assert events[0] in events;
      ReachesStep(c, d, events[0], graceful);
      ReachesRun(c, Step(d, events[0]), events[1..], graceful);
    }
  }

  lemma RunUnfolds(c: Cluster, events: seq<Event>, k: nat)
    requires k < |events|
    ensures Run(c, events[k..]) == Run(Step(c, events[k]), events[k + 1..])
    ensures k + 1 == |events| ==> Run(c, events[k..]) == Step(c, events[k])
  {
    hide Step;
    assert events[k..][0] == events[k] && events[k..][1..] == events[k + 1..];
  }

  // ---------- Every active workflow ----------

  /** An activation of the workflow is under way or will start; a bulk activation that has
      still to read the ids is to find it stored as active. */
  predicate Pending(m: Main, w: WorkflowId) {
    w in m.starting || m.bulk.Loading? || (m.bulk.Visiting? && w in m.bulk.ids)
  }

  /** In memory for good, or on the way there. */
  predicate Covers(m: Main, w: WorkflowId) { w in Held(m) || Pending(m, w) }

  /** A leader holds a workflow that is stored as active, or will. */
  predicate Covered(c: Cluster, h: Host, w: WorkflowId) {
    h in c.mains && c.mains[h].role.Leader? && w in c.active ==> Covers(c.mains[h], w)
  }

  /** What a leader does to lose a workflow: a handler sets out to remove it with no
      activation pending; a bulk activation ends before it has reached it; or the last
      activation ends without it in memory for good, be it that a removal begun before, by
      an earlier stepdown say, has still to visit it. */
  predicate Uncovers(c: Cluster, m: Main, h: Host, w: WorkflowId, e: Event) {
    || ((e == StopProcess(h) || e == TriggerError(h, w)
         || (e == Deliver(h, RemoveTriggers(w)) && RemoveTriggers(w) in c.published))
        && !Pending(m, w))
    || (e == EndBulk(h) && w !in Held(m) && w !in m.starting)
    || (e.Commit? && e.host == h && e.workflow == w && m.starting[w] == 1
        && !Pending(m.(starting := multiset{}), w) && !StaysIn(m, w, e.outcome))
  }

  /** Whether an activation that ends so leaves the workflow in memory for good. */
  predicate StaysIn(m: Main, w: WorkflowId, outcome: Outcome) {
    w !in m.removing && (outcome == Registered || outcome == Rejected(true)
      || (outcome == NothingToRegister && w in m.triggers))
  }

  /** Besides those: a workflow is stored as active that the leader does not add, or an
      instance starts to lead before its takeover handler listens, or during a bulk
      activation that is past the workflow. */
  predicate Drops(c: Cluster, h: Host, w: WorkflowId, e: Event) {
    h in c.mains
    && (var m := c.mains[h];
        if e == Store(w, true) then m.role.Leader? && !Covers(m, w)
        else if e == Answer(h, true) then
          Answered(true) in m.checks && w in c.active && !Covers(m, w) && !(m.registered && m.bulk.Idle?)
        else m.role.Leader? && w in c.active && Uncovers(c, m, h, w, e))
  }

  lemma KeyCovered(c: Cluster, h: Host, w: WorkflowId, e: Event)
    requires Covered(c, h, w) && (e.Claim? || e.DeleteKey?)
    ensures Covered(Step(c, e), h, w) && !Drops(c, h, w, e)
  {
    hide Local, Covers, StaysIn, Held, Pending;
    if e.Claim? && e.host in c.mains { CoversSame(c.mains[e.host], Claimed(c.key, e.host, c.mains[e.host]).1, w); }
    if e.DeleteKey? && e.host in c.mains {
      CoversSame(c.mains[e.host], c.mains[e.host].(clearing := false, cleared := true), w);
    }
  }

  lemma StoreCovered(c: Cluster, h: Host, w: WorkflowId, e: Event)
    requires Covered(c, h, w) && !IsLocal(e) && !e.Claim? && !e.DeleteKey?
    ensures Covered(Step(c, e), h, w) <==> !Drops(c, h, w, e)
  {
    hide Local, Covers, StaysIn, Held, Pending;
  }

  lemma CoversSame(m: Main, n: Main, w: WorkflowId)
    requires m.triggers == n.triggers && m.removing == n.removing && m.starting == n.starting && m.bulk == n.bulk
    ensures Covers(m, w) <==> Covers(n, w)
  {
  }

  lemma ReactCovered(c: Cluster, h: Host, w: WorkflowId, e: Event)
    requires h in c.mains && e.React? && e.host == h && Covered(c, h, w)
    ensures Local(c, c.mains[h], e).role.Leader? && w in c.active ==> Covers(Local(c, c.mains[h], e), w)
    ensures !Drops(c, h, w, e)
  {
    hide Covers, StaysIn, Held, Pending, Reacted;
    var m := c.mains[h];
    if Reacted(m, h, e.owner).role.Leader? {
      StillLeads(m, h, e.owner);
      CoversSame(m, Reacted(m, h, e.owner), w);
    }
  }

  lemma StillLeads(m: Main, h: Host, owner: Option<Host>)
    requires Reacted(m, h, owner).role.Leader?
    ensures var n := Reacted(m, h, owner); n == m.(checks := n.checks)
  {
  }

  lemma AnswerCovered(c: Cluster, h: Host, w: WorkflowId, e: Event)
    requires h in c.mains && e.Answer? && e.host == h && Covered(c, h, w)
    ensures (Local(c, c.mains[h], e).role.Leader? && w in c.active ==> Covers(Local(c, c.mains[h], e), w))
       <==> !Drops(c, h, w, e)
  {
  }

  lemma BulkCovered(c: Cluster, h: Host, w: WorkflowId, e: Event)
    requires e.Init? || e.LoadIds? || e.Visit? || e.EndBulk?
    requires h in c.mains && e.host == h && Covered(c, h, w)
    ensures (Local(c, c.mains[h], e).role.Leader? && w in c.active ==> Covers(Local(c, c.mains[h], e), w))
       <==> !Drops(c, h, w, e)
  {
  }

  lemma RemovalCovered(c: Cluster, h: Host, w: WorkflowId, e: Event)
    requires e.Removed? || e.Abort? || e.StopProcess? || e.TriggerError? || e.Deliver?
    requires h in c.mains && e.host == h && Covered(c, h, w)
    ensures (Local(c, c.mains[h], e).role.Leader? && w in c.active ==> Covers(Local(c, c.mains[h], e), w))
       <==> !Drops(c, h, w, e)
  {
  }

  lemma CommitCovered(c: Cluster, h: Host, w: WorkflowId, e: Event)
    requires h in c.mains && e.Commit? && e.host == h && Covered(c, h, w)
    ensures (Local(c, c.mains[h], e).role.Leader? && w in c.active ==> Covers(Local(c, c.mains[h], e), w))
       <==> !Drops(c, h, w, e)
  {
    hide Covers, StaysIn, Held, Pending, Finish;
    var m := c.mains[h];
    if e.workflow in m.starting {
      FinishSame(m, e.workflow, e.outcome);
      if Covers(m, w) { FinishCovers(m, w, e.workflow, e.outcome); }
    }
  }

  lemma FinishCovers(m: Main, w: WorkflowId, v: WorkflowId, outcome: Outcome)
    requires v in m.starting && Covers(m, w)
    ensures Covers(Finish(m, v, outcome), w) <==>
      !(v == w && m.starting[w] == 1 && !Pending(m.(starting := multiset{}), w) && !StaysIn(m, w, outcome))
  {
    var n := Finish(m, v, outcome);
    assert n.bulk == m.bulk && n.removing == m.removing && n.starting == m.starting - multiset{v};
  }

  lemma RestCovered(c: Cluster, h: Host, w: WorkflowId, e: Event)
    requires e.Listen? || e.ReadKey? || e.SendClear?
    requires h in c.mains && e.host == h && Covered(c, h, w)
    ensures Local(c, c.mains[h], e).role.Leader? && w in c.active ==> Covers(Local(c, c.mains[h], e), w)
    ensures !Drops(c, h, w, e)
  {
  }

  lemma LocalCovered(c: Cluster, h: Host, w: WorkflowId, e: Event)
    requires h in c.mains && IsLocal(e) && e.host == h && Covered(c, h, w)
    ensures (Local(c, c.mains[h], e).role.Leader? && w in c.active ==> Covers(Local(c, c.mains[h], e), w))
       <==> !Drops(c, h, w, e)
  {
    assert !(e.Expire? || e.Store? || e.Publish? || e.Join? || e.Crash? || e.Claim? || e.DeleteKey?);
    hide *;
    match e {
      case React(_, _) => ReactCovered(c, h, w, e);
      case Answer(_, _) => AnswerCovered(c, h, w, e);
      case Init(_) => BulkCovered(c, h, w, e);
      case LoadIds(_) => BulkCovered(c, h, w, e);
      case Visit(_, _) => BulkCovered(c, h, w, e);
      case EndBulk(_) => BulkCovered(c, h, w, e);
      case Removed(_, _, _) => RemovalCovered(c, h, w, e);
      case Abort(_, _) => RemovalCovered(c, h, w, e);
      case StopProcess(_) => RemovalCovered(c, h, w, e);
      case TriggerError(_, _) => RemovalCovered(c, h, w, e);
      case Deliver(_, _) => RemovalCovered(c, h, w, e);
      case Commit(_, _, _) => CommitCovered(c, h, w, e);
      case _ => RestCovered(c, h, w, e);
    }
  }

  lemma ElsewhereDropsNothing(c: Cluster, h: Host, w: WorkflowId, e: Event)
    requires IsLocal(e) && (e.host != h || h !in c.mains)
    ensures !Drops(c, h, w, e)
  {
    hide Covers;
  }

  /** A step keeps a stored active workflow on its leader, or on its way there, if and only
      if it is none of those. */
  lemma StepCovered(c: Cluster, h: Host, w: WorkflowId, e: Event)
    requires Covered(c, h, w)
    ensures Covered(Step(c, e), h, w) <==> !Drops(c, h, w, e)
  {
    if IsLocal(e) {
      StepLocal(c, e);
      hide Step, Local, Covers, Drops;
      if e.host == h && h in c.mains { LocalCovered(c, h, w, e); } else { ElsewhereDropsNothing(c, h, w, e); }
    } else {
      hide *;
      if e.Claim? || e.DeleteKey? { KeyCovered(c, h, w, e); } else { StoreCovered(c, h, w, e); }
    }
  }

  ghost predicate NeverDropped(c: Cluster, h: Host, w: WorkflowId, events: seq<Event>)
    decreases |events|
  {
    events != [] ==> !Drops(c, h, w, events[0]) && NeverDropped(Step(c, events[0]), h, w, events[1..])
  }

  lemma {:induction false} RunCovered(c: Cluster, h: Host, w: WorkflowId, events: seq<Event>)
    requires Covered(c, h, w) && NeverDropped(c, h, w, events)
    ensures Covered(Run(c, events), h, w)
    decreases |events|
  {
    hide Covered, Drops, Step;
    if events != [] {
      StepCovered(c, h, w, events[0]);
      RunCovered(Step(c, events[0]), h, w, events[1..]);
    }
  }

  // ---------- Start-up ----------

  /** The start-up activation makes up for whatever is missing, unless a bulk activation
      that is already past the workflow makes it skip. */
  lemma InitCovers(c: Cluster, h: Host, w: WorkflowId)
    requires h in c.mains
    ensures Covered(Step(c, Init(h)), h, w) <==> Covered(c, h, w) || c.mains[h].bulk.Idle?
  {
    StepLocal(c, Init(h));
    hide Step, Held;
  }

  /** Nothing else starts a bulk activation but start-up, once the instance has a role, and a
      takeover, once its handlers listen; while one runs it only moves on, with the ids
      stored when it read them. */
  lemma StepBulk(c: Cluster, h: Host, e: Event)
    requires h in c.mains && e != Crash(h)
    ensures h in Step(c, e).mains
    ensures var m, n := c.mains[h], Step(c, e).mains[h];
            && (m.bulk.Idle? ==>
                n.bulk == if (e == Init(h) && !m.role.Unset?)
                             || (e == Answer(h, true) && Answered(true) in m.checks && m.registered)
                          then Loading else Idle)
            && (m.bulk.Loading? ==>
                n.bulk == if e == LoadIds(h) then Visiting(c.active) else if e == EndBulk(h) then Idle else Loading)
            && (m.bulk.Visiting? ==>
                n.bulk == if e == EndBulk(h) then Idle
                          else if e.Visit? && e.host == h then Visiting(m.bulk.ids - {e.workflow}) else m.bulk)
  {
    if IsLocal(e) {
      StepLocal(c, e);
      hide Step;
      if e.host == h { LocalBulk(c, c.mains[h], h, e); }
    } else {
      hide Local;
    }
  }

  lemma LocalBulk(c: Cluster, m: Main, h: Host, e: Event)
    requires IsLocal(e) && e.host == h
    ensures var n := Local(c, m, e);
            && (m.bulk.Idle? ==>
                n.bulk == if (e.Init? && !m.role.Unset?)
                             || (e == Answer(h, true) && Answered(true) in m.checks && m.registered)
                          then Loading else Idle)
            && (m.bulk.Loading? ==>
                n.bulk == if e.LoadIds? then Visiting(c.active) else if e.EndBulk? then Idle else Loading)
            && (m.bulk.Visiting? ==>
                n.bulk == if e.EndBulk? then Idle
                          else if e.Visit? then Visiting(m.bulk.ids - {e.workflow}) else m.bulk)
  {
    hide Finish, Received, Begin, Reacted;
    match e {
      case Commit(_, w, outcome) => FinishSame(m, w, outcome);
      case Deliver(_, command) => ReceivedSame(m, command);
      case Visit(_, w) =>
        if m.bulk.Visiting? {
          BeginOnlyStarts(m.(bulk := Visiting(m.bulk.ids - {w})), w);
          assert w !in m.bulk.ids ==> m.bulk.ids - {w} == m.bulk.ids;
        }
      case React(_, owner) => ReactedSame(m, h, owner);
      case _ =>
    }
  }

  /** It brings every stored active workflow to the point where its triggers are added. */
  lemma InitActivates(c: Cluster, h: Host, w: WorkflowId)
    requires h in c.mains && c.mains[h].role.Leader? && c.mains[h].bulk.Idle? && w in c.active
    ensures var d := Step(Step(Step(c, Init(h)), LoadIds(h)), Visit(h, w)); h in d.mains && w in d.mains[h].starting
  {
    var c1, c2 := Step(c, Init(h)), Step(Step(c, Init(h)), LoadIds(h));
    assert c1.mains[h] == c.mains[h].(bulk := Loading) && c2.mains[h] == c.mains[h].(bulk := Visiting(c.active));
  }

  /** From then on, over every run that drops nothing: when a leader has no activation of
      the workflow left to do, it holds the workflow. */
  lemma StartedLeaderHolds(c: Cluster, h: Host, w: WorkflowId, events: seq<Event>)
    requires h in c.mains && c.mains[h].bulk.Idle? && NeverDropped(Step(c, Init(h)), h, w, events)
    ensures var d := Run(Step(c, Init(h)), events);
            h in d.mains && d.mains[h].role.Leader? && w in d.active && !Pending(d.mains[h], w)
            ==> w in Held(d.mains[h])
  {
    hide Step, Run, NeverDropped, Pending, Held;
    InitCovers(c, h, w);
    RunCovered(Step(c, Init(h)), h, w, events);
  }

  lemma {:induction false} StoresAll(ids: set<WorkflowId>)
    ensures Reaches(EMPTY, EMPTY.(active := ids), true)
    decreases ids
  {
    hide Reaches;
    if ids == {} {
      ReachesStart(EMPTY);
    } else {
      var w :| w in ids;
      StoresAll(ids - {w});
      ReachesStep(EMPTY, EMPTY.(active := ids - {w}), Store(w, true), true);
      assert ids - {w} + {w} == ids;
    }
  }

  /** Join, take the vacant key, listen, activate: up to the ids of the stored workflows. */
  lemma StartsUp(c: Cluster, h: Host) returns (d: Cluster)
    requires Reaches(EMPTY, c, true) && c.key.None? && h !in c.mains
    ensures Reaches(EMPTY, d, true) && d.key == Some(h) && d.active == c.active && h in d.mains
    ensures d.mains[h] == BOOTED.(role := Leader, registered := true, checks := multiset{}, bulk := Visiting(c.active))
  {
    hide Reaches;
    var c1, c2 := Step(c, Join(h)), Step(Step(c, Join(h)), Claim(h));
    ReachesStep(EMPTY, c, Join(h), true);
    ReachesStep(EMPTY, c1, Claim(h), true);
    ReachesStep(EMPTY, c2, Answer(h, true), true);
    ReachesStep(EMPTY, Step(c2, Answer(h, true)), Listen(h), true);
    var c4 := Step(Step(c2, Answer(h, true)), Listen(h));
    ReachesStep(EMPTY, c4, Init(h), true);
    ReachesStep(EMPTY, Step(c4, Init(h)), LoadIds(h), true);
    d := Step(Step(c4, Init(h)), LoadIds(h));
    TakesVacant(c, h);
    ListensAndLoads(Step(c2, Answer(h, true)), h);
  }

  lemma TakesVacant(c: Cluster, h: Host)
    requires c.key.None? && h !in c.mains
    ensures var d := Step(Step(Step(c, Join(h)), Claim(h)), Answer(h, true));
            && d.key == Some(h) && d.active == c.active && h in d.mains
            && d.mains[h] == BOOTED.(role := Leader, checks := multiset{})
  {
    var c2 := Step(Step(c, Join(h)), Claim(h));
    assert c2.mains[h] == BOOTED.(checks := multiset{Answered(true)});
  }

  lemma ListensAndLoads(c: Cluster, h: Host)
    requires h in c.mains && c.mains[h] == BOOTED.(role := Leader, checks := multiset{})
    ensures var d := Step(Step(Step(c, Listen(h)), Init(h)), LoadIds(h));
            && d == c.(mains := d.mains) && h in d.mains
            && d.mains[h]
               == BOOTED.(role := Leader, registered := true, checks := multiset{}, bulk := Visiting(c.active))
  {
    var c2 := Step(Step(c, Listen(h)), Init(h));
    assert c2.mains[h] == BOOTED.(role := Leader, registered := true, checks := multiset{}, bulk := Loading);
  }

  /** A leader that has activated `done` and has still to visit `left`. */
  predicate Activating(c: Cluster, h: Host, done: set<WorkflowId>, left: set<WorkflowId>) {
    && h in c.mains && c.key == Some(h)
    && c.mains[h]
       == BOOTED.(role := Leader, registered := true, checks := multiset{}, triggers := done, bulk := Visiting(left))
  }

  lemma {:induction false} ActivatesAll(c: Cluster, h: Host, done: set<WorkflowId>, left: set<WorkflowId>)
    returns (d: Cluster)
    requires Reaches(EMPTY, c, true) && Activating(c, h, done, left)
    ensures Reaches(EMPTY, d, true) && Activating(d, h, done + left, {}) && d.active == c.active
    decreases left
  {
    hide Reaches, Step, Activating;
    if left == {} {
      assert done + left == done;
      d := c;
    } else {
      var w :| w in left;
      var c1, c2 := Step(c, Visit(h, w)), Step(Step(c, Visit(h, w)), Commit(h, w, Registered));
      ReachesStep(EMPTY, c, Visit(h, w), true);
      ReachesStep(EMPTY, c1, Commit(h, w, Registered), true);
      ActivatesOne(c, h, done, left, w);
      d := ActivatesAll(c2, h, done + {w}, left - {w});
      assert done + {w} + (left - {w}) == done + left;
    }
  }

  lemma ActivatesOne(c: Cluster, h: Host, done: set<WorkflowId>, left: set<WorkflowId>, w: WorkflowId)
    requires Activating(c, h, done, left) && w in left
    ensures var d := Step(Step(c, Visit(h, w)), Commit(h, w, Registered));
            Activating(d, h, done + {w}, left - {w}) && d.active == c.active
  {
    var c1 := Step(c, Visit(h, w));
    assert c1.mains[h] == c.mains[h].(bulk := Visiting(left - {w}), starting := multiset{w});
  }

  /** The ordinary start, from an empty cluster with any workflows stored as active: the
      instance ends up leading, with exactly those in memory and nothing left to do. */
  lemma OrdinaryStart(h: Host, ids: set<WorkflowId>)
    ensures exists d :: Reaches(EMPTY, d, true) && d.active == ids && d.key == Some(h) && h in d.mains
              && d.mains[h] == Main(Leader, true, multiset{}, false, false, false, ids, {}, multiset{}, Idle)
  {
    hide Reaches, Step;
    StoresAll(ids);
    var c := StartsUp(EMPTY.(active := ids), h);
    assert Activating(c, h, {}, ids);
    var d := ActivatesAll(c, h, {}, ids);
    assert {} + ids == ids;
    ReachesStep(EMPTY, d, EndBulk(h), true);
    EndsBulk(d, h, ids);
  }

  lemma EndsBulk(c: Cluster, h: Host, done: set<WorkflowId>)
    requires Activating(c, h, done, {})
    ensures var d := Step(c, EndBulk(h));
            d.active == c.active && d.key == c.key && h in d.mains && d.mains[h] == c.mains[h].(bulk := Idle)
  {
  }

  // ---------- A forgotten workflow ----------

  /** A leader that owns the key, with nothing left to do, and without an active workflow. */
  predicate Forgets(c: Cluster, h: Host, w: WorkflowId) {
    && h in c.mains && c.key == Some(h) && w in c.active
    && c.mains[h] == BOOTED.(role := Leader, registered := true, checks := multiset{})
  }

  /** From an empty cluster with one instance: its key expires, it steps down, takes the key
      again and adds the workflow anew before its stepdown handler has removed it. */
  lemma LeaderForgets(a: Host, w: WorkflowId)
    ensures exists d :: Reaches(EMPTY, d, false) && Forgets(d, a, w) && !Covered(d, a, w)
  {
    ReachesStart(EMPTY);
    ReachesStep(EMPTY, EMPTY, Publish(AddTriggers(w)), true);
    var c1 := FirstLeader(Step(EMPTY, Publish(AddTriggers(w))), a, w);
    ReachesAnyway(EMPTY, c1);
    hide Reaches;
    var c2 := HoldsOne(c1, a, w);
    var c3 := Retakes(c2, a, w);
    var c4 := AddsAnew(c3, a, w);
    hide Step;
    assert Forgets(c4, a, w) && !Covered(c4, a, w);
  }

  lemma HoldsOne(c: Cluster, a: Host, w: WorkflowId) returns (d: Cluster)
    requires Reaches(EMPTY, c, false) && a in c.mains
    requires c.mains[a] == BOOTED.(role := Leader, checks := multiset{}, starting := multiset{w})
    ensures Reaches(EMPTY, d, false) && a in d.mains && w in d.active && d.key == c.key
    ensures d.mains[a] == BOOTED.(role := Leader, registered := true, checks := multiset{}, triggers := {w})
  {
    hide Reaches;
    var c1, c2 := Step(c, Store(w, true)), Step(Step(c, Store(w, true)), Listen(a));
    ReachesStep(EMPTY, c, Store(w, true), false);
    ReachesStep(EMPTY, c1, Listen(a), false);
    ReachesStep(EMPTY, c2, Commit(a, w, Registered), false);
    d := Step(c2, Commit(a, w, Registered));
  }

  /** The key expires; the check steps down and takes it again. */
  lemma Retakes(c: Cluster, a: Host, w: WorkflowId) returns (d: Cluster)
    requires Reaches(EMPTY, c, false) && a in c.mains && w in c.active
    requires c.mains[a] == BOOTED.(role := Leader, registered := true, checks := multiset{}, triggers := {w})
    ensures Reaches(EMPTY, d, false) && a in d.mains && w in d.active && d.key == Some(a)
    ensures d.mains[a] == BOOTED.(role := Leader, registered := true, checks := multiset{},
                                  triggers := {w}, removing := {w}, bulk := Loading)
  {
    hide Reaches;
    ReachesStep(EMPTY, c, Expire, false);
    var c1 := Step(c, Expire);
    ReachesStep(EMPTY, c1, ReadKey(a), false);
    var c2 := Step(c1, ReadKey(a));
    ReachesStep(EMPTY, c2, React(a, None), false);
    var c3 := Step(c2, React(a, None));
    ReachesStep(EMPTY, c3, Claim(a), false);
    var c4 := Step(c3, Claim(a));
    ReachesStep(EMPTY, c4, Answer(a, true), false);
    d := Step(c4, Answer(a, true));
    StepsDown(c1, a, w);
    TakesAgain(c3, a, w);
  }

  lemma StepsDown(c: Cluster, a: Host, w: WorkflowId)
    requires a in c.mains && c.key.None?
    requires c.mains[a] == BOOTED.(role := Leader, registered := true, checks := multiset{}, triggers := {w})
    ensures var d := Step(Step(c, ReadKey(a)), React(a, None));
            d == c.(mains := d.mains) && a in d.mains
            && d.mains[a] == BOOTED.(role := Follower, registered := true, triggers := {w}, removing := {w})
  {
    assert Step(c, ReadKey(a)).mains[a] == c.mains[a].(checks := multiset{Seen(None)});
  }

  lemma TakesAgain(c: Cluster, a: Host, w: WorkflowId)
    requires a in c.mains && c.key.None?
    requires c.mains[a] == BOOTED.(role := Follower, registered := true, triggers := {w}, removing := {w})
    ensures var d := Step(Step(c, Claim(a)), Answer(a, true));
            a in d.mains && d.active == c.active && d.key == Some(a)
            && d.mains[a] == BOOTED.(role := Leader, registered := true, checks := multiset{},
                                     triggers := {w}, removing := {w}, bulk := Loading)
  {
    assert Step(c, Claim(a)).mains[a] == c.mains[a].(checks := multiset{Answered(true)});
  }

  /** The bulk activation adds the workflow, and then the stepdown handler removes it. */
  lemma AddsAnew(c: Cluster, a: Host, w: WorkflowId) returns (d: Cluster)
    requires Reaches(EMPTY, c, false) && a in c.mains && w in c.active && c.key == Some(a)
    requires c.mains[a] == BOOTED.(role := Leader, registered := true, checks := multiset{},
                                   triggers := {w}, removing := {w}, bulk := Loading)
    ensures Reaches(EMPTY, d, false) && Forgets(d, a, w)
  {
    hide Reaches;
    ReachesStep(EMPTY, c, LoadIds(a), false);
    var c1 := Step(c, LoadIds(a));
    ReachesStep(EMPTY, c1, Visit(a, w), false);
    var c2 := Step(c1, Visit(a, w));
    ReachesStep(EMPTY, c2, Commit(a, w, Registered), false);
    var c3 := Step(c2, Commit(a, w, Registered));
    ReachesStep(EMPTY, c3, Removed(a, w, false), false);
    var c4 := Step(c3, Removed(a, w, false));
    ReachesStep(EMPTY, c4, EndBulk(a), false);
    d := Step(c4, EndBulk(a));
    AddedWhileRemoved(c, a, w);
    RemovedAfterAll(c3, a, w);
  }

  lemma AddedWhileRemoved(c: Cluster, a: Host, w: WorkflowId)
    requires a in c.mains && w in c.active
    requires c.mains[a] == BOOTED.(role := Leader, registered := true, checks := multiset{},
                                   triggers := {w}, removing := {w}, bulk := Loading)
    ensures var d := Step(Step(Step(c, LoadIds(a)), Visit(a, w)), Commit(a, w, Registered));
            d == c.(mains := d.mains) && a in d.mains
            && d.mains[a] == c.mains[a].(bulk := Visiting(c.active - {w}))
  {
    var c2 := Step(Step(c, LoadIds(a)), Visit(a, w));
    assert c2.mains[a] == c.mains[a].(bulk := Visiting(c.active - {w}), starting := multiset{w});
  }

  lemma RemovedAfterAll(c: Cluster, a: Host, w: WorkflowId)
    requires a in c.mains && c.key == Some(a) && w in c.active
    requires c.mains[a] == BOOTED.(role := Leader, registered := true, checks := multiset{},
                                   triggers := {w}, removing := {w}, bulk := c.mains[a].bulk)
    ensures Forgets(Step(Step(c, Removed(a, w, false)), EndBulk(a)), a, w)
  {
    var c1 := Step(c, Removed(a, w, false));
    assert c1.mains[a] == c.mains[a].(triggers := {}, removing := {});
  }

  // ---------- Commands and takeovers ----------

  lemma RemovedEverywhere(c: Cluster, h: Host, w: WorkflowId, g: Host)
    requires Keyed(c) && c.key == Some(h) && h in c.mains && c.mains[h].role.Leader? && g in c.mains
    requires RemoveTriggers(w) in c.published
    ensures var removed := Step(Step(c, Deliver(h, RemoveTriggers(w))), Removed(h, w, false));
            g in removed.mains && w !in removed.mains[g].triggers
  {
    assert KeyedAt(c, g);
  }

  lemma AddedOnOwner(c: Cluster, h: Host, w: WorkflowId, g: Host)
    requires Keyed(c) && c.key == Some(h) && h in c.mains && c.mains[h].role.Leader? && g in c.mains
    requires AddTriggers(w) in c.published
    ensures var added := Step(Step(c, Deliver(h, AddTriggers(w))), Commit(h, w, Registered));
            g in added.mains && (w in added.mains[g].triggers <==> g == h)
  {
    assert KeyedAt(c, g);
    var c1 := Step(c, Deliver(h, AddTriggers(w)));
    assert w in c1.mains[h].starting;
  }

  lemma OthersIgnore(c: Cluster, g: Host, command: Command)
    requires g in c.mains && !c.mains[g].role.Leader?
    ensures g in Step(c, Deliver(g, command)).mains && Step(c, Deliver(g, command)).mains[g] == c.mains[g]
  {
  }

  /** A command handled by the owner of the key does its work everywhere: after a removal
      the workflow is in memory nowhere, after a finished addition on the owner alone. An
      instance that does not lead ignores both. */
  lemma CommandReachesHolder(c: Cluster, h: Host, w: WorkflowId, g: Host)
    requires Keyed(c) && c.key == Some(h) && h in c.mains && c.mains[h].role.Leader? && g in c.mains
    requires AddTriggers(w) in c.published && RemoveTriggers(w) in c.published
    ensures var removed := Step(Step(c, Deliver(h, RemoveTriggers(w))), Removed(h, w, false));
            g in removed.mains && w !in removed.mains[g].triggers
    ensures var added := Step(Step(c, Deliver(h, AddTriggers(w))), Commit(h, w, Registered));
            g in added.mains && (w in added.mains[g].triggers <==> g == h)
    ensures !c.mains[g].role.Leader? ==> forall command ::
              g in Step(c, Deliver(g, command)).mains && Step(c, Deliver(g, command)).mains[g] == c.mains[g]
  {
    hide *;
    RemovedEverywhere(c, h, w, g);
    AddedOnOwner(c, h, w, g);
    if !c.mains[g].role.Leader? {
      forall command
        ensures g in Step(c, Deliver(g, command)).mains && Step(c, Deliver(g, command)).mains[g] == c.mains[g]
      {
        OthersIgnore(c, g, command);
      }
    }
  }

  // ---------- The classes ----------

  /** The shared key in Redis. */
  class LeaderKey {
    var holder: Option<Host>

    method SetIfNotExists(h: Host) returns (ok: bool)
      modifies this
      ensures ok == old(holder).None?
      ensures holder == if ok then Some(h) else old(holder)
    {
      ok := holder.None?;
      if ok { holder := Some(h); }
    }

    method Clear()
      modifies this
      ensures holder == None
    {
      holder := None;
    }
  }

  class MainInstance {
    const hostId: Host
    var role: Role
    var registered: bool
    var checks: multiset<Check>
    var stopping: bool
    var clearing: bool
    var cleared: bool
    var activeWorkflows: set<WorkflowId>
    var removing: set<WorkflowId>
    var starting: multiset<WorkflowId>
    var activation: Bulk

    function State(): Main
      reads this
    {
      Main(role, registered, checks, stopping, clearing, cleared, activeWorkflows, removing, starting, activation)
    }

    constructor (h: Host)
      ensures hostId == h && State() == BOOTED
    {
      hostId, role, registered, checks := h, Unset, false, multiset{Claiming};
      stopping, clearing, cleared := false, false, false;
      activeWorkflows, removing, starting, activation := {}, {}, multiset{}, Idle;
    }

    /** The synchronous start of the stepdown handler. */
    method BecomeFollower()
      modifies this`role, this`removing
      ensures State() == StepDown(old(State()))
    {
      role := Follower;
      if registered { removing := removing + activeWorkflows; }
    }

    /** The rest of that handler, if nothing comes between its awaits: it stops at the first
        workflow whose close function throws. */
    method RemoveAllTriggerAndPollerBasedWorkflows(throwing: set<WorkflowId>)
      modifies this`activeWorkflows, this`removing
      ensures removing == {} && activeWorkflows <= old(activeWorkflows)
      ensures old(activeWorkflows) - old(removing) <= activeWorkflows
      ensures activeWorkflows * old(removing) == {} <==> old(activeWorkflows * removing) !! throwing
    {
      ghost var before, all := activeWorkflows, removing;
      var ids := removing;
      removing := {};
      while ids != {}
        invariant removing == {} && ids <= all && before - all <= activeWorkflows <= before
        invariant activeWorkflows * all == before * ids
        invariant before * (all - ids) !! throwing
        decreases ids
      {
        var w :| w in ids;
        if w in activeWorkflows && w in throwing { return; }
        assert w in before ==> w in before * ids;
        assert (activeWorkflows - {w}) * all == activeWorkflows * all - {w} == before * (ids - {w});
        activeWorkflows := activeWorkflows - {w};
        ids := ids - {w};
      }
    }

    /** Up to its first await: skipped while another one is in progress. */
    method AddActiveWorkflows()
      modifies this`activation
      ensures State() == StartBulk(old(State()))
    {
      if !activation.Idle? { return; }
      activation := Loading;
    }

    /** ActiveWorkflowManager.init; an instance without a role fails an assertion. */
    method Init() returns (fails: bool)
      modifies this`activation
      ensures fails == old(role).Unset?
      ensures State() == if fails then old(State()) else StartBulk(old(State()))
    {
      if role.Unset? { return true; }
      AddActiveWorkflows();
      fails := false;
    }

    method ActivateWorkflow(w: WorkflowId)
      requires activation.Visiting?
      modifies this`activation, this`starting
      ensures State() == Visited(old(State()), w)
    {
      activation := Visiting(activation.ids - {w});
      if role.Leader? { starting := starting + multiset{w}; }
    }

    /** The rest of AddActiveWorkflows, if nothing comes between its awaits: a leader starts
        to add every workflow stored as active by then, any other instance none. */
    method OnActiveIds(active: set<WorkflowId>)
      requires activation.Loading?
      modifies this`activation, this`starting
      ensures activation.Idle?
      ensures starting == old(starting) + if role.Leader? then multiset(active) else multiset{}
    {
      activation := Visiting(active);
      while activation.ids != {}
        invariant activation.Visiting? && activation.ids <= active
        invariant starting == old(starting) + if role.Leader? then multiset(active - activation.ids) else multiset{}
        decreases activation.ids
      {
        var w :| w in activation.ids;
        assert active - (activation.ids - {w}) == (active - activation.ids) + {w};
        ActivateWorkflow(w);
      }
      assert active - activation.ids == active;
      activation := Idle;
    }

    /** checkLeader, from the answer to its first await on. */
    method OnLeaderId(owner: Option<Host>)
      requires Seen(owner) in checks
      modifies this`checks, this`role, this`removing
      ensures State() == Reacted(old(State()), hostId, owner)
    {
      checks := checks - multiset{Seen(owner)};
      if owner == Some(hostId) { return; }
      if owner.Some? {
        if role.Leader? { BecomeFollower(); }
        return;
      }
      BecomeFollower();
      checks := checks + multiset{Claiming};
    }

    method TryBecomeLeader(key: LeaderKey)
      requires Claiming in checks
      modifies this`checks, this`cleared, key
      ensures (key.holder, State()) == Claimed(old(key.holder), hostId, old(State()))
    {
      var won := key.SetIfNotExists(hostId);
      checks := checks - multiset{Claiming} + multiset{Answered(won)};
      if won { cleared := false; }
    }

    method OnKeySet(won: bool)
      requires Answered(won) in checks
      modifies this`checks, this`role, this`activation
      ensures State() == AnsweredWith(old(State()), won)
    {
      checks := checks - multiset{Answered(won)};
      if won {
        role := Leader;
        if registered { AddActiveWorkflows(); }
      } else {
        role := Follower;
      }
    }

    /** A command from another instance, handled by the leader alone. */
    method Handle(command: Command)
      modifies this`removing, this`starting
      ensures State() == Received(old(State()), command)
    {
      if !role.Leader? { return; }
      match command {
        case AddTriggers(w) => starting := starting + multiset{w};
        case RemoveTriggers(w) => removing := removing + {w};
      }
    }

    /** The rest of `add`, after its awaits. */
    method AddTriggersAndPollers(w: WorkflowId, outcome: Outcome)
      requires w in starting
      modifies this`activeWorkflows, this`starting
      ensures State() == Finish(old(State()), w, outcome)
    {
      starting := starting - multiset{w};
      match outcome {
        case Registered => activeWorkflows := activeWorkflows + {w};
        case NothingToRegister =>
        case Rejected(inMemory) => activeWorkflows := if inMemory then activeWorkflows + {w} else activeWorkflows - {w};
      }
    }

    /** MultiMainSetup.shutdown decides by the role, and never gives the role up. */
    method SendClear()
      requires stopping
      modifies this`clearing
      ensures clearing == role.Leader?
    {
      clearing := role.Leader?;
    }

    /** The deletion itself looks at nothing. */
    method DeleteKey(key: LeaderKey)
      requires clearing
      modifies this`clearing, this`cleared, key
      ensures key.holder == None && State() == old(State()).(clearing := false, cleared := true)
    {
      key.Clear();
      clearing, cleared := false, true;
    }
  }
}
