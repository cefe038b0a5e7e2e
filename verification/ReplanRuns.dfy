/** Optimized execution with the replan cache, over any sequence of attempts and any interleaving of
    nodes, as a step machine: provenance of reused results and propagation of failures. */
module ReplanRuns {
  import opened DagTypes
  import opened TaskGraph
  import opened ResultReuse

  /** History of worker executions: what a version stands for. */
  datatype Execution = Execution(input: Input, upstream: map<string, TaskResult>, result: TaskResult)

  datatype Work = Work(input: Input, upstream: map<string, TaskResult>)

  /** A call of the runner, with the attempt it belongs to. */
  datatype RunnerCall = RunnerCall(attempt: nat, task: Task, upstream: map<string, TaskResult>)

  datatype Run = Run(
    goal: string, now: real, cache: Cache, history: map<Version, Execution>, calls: seq<RunnerCall>,
    attempt: nat, plan: seq<Task>, running: map<string, Work>,
    versions: map<string, Version>, results: map<string, TaskResult>, reused: set<string>)

  datatype Event =
    | Wait(seconds: real)
    | Attempt(plan: seq<Task>)
    | Begin(index: nat)
    | Finish(index: nat, result: TaskResult, version: Version)

  function InputOf(goal: string, t: Task, versions: map<string, Version>): Input
    requires forall d :: d in t.dependsOn ==> d in versions
  {
    Input(goal, t.id, t.description,
          seq(|t.dependsOn|, i requires 0 <= i < |t.dependsOn| => (t.dependsOn[i], versions[t.dependsOn[i]])))
  }

  function UpstreamOf(t: Task, results: map<string, TaskResult>): map<string, TaskResult>
    requires forall d :: d in t.dependsOn ==> d in results
  {
    map d | d in t.dependsOn :: results[d]
  }

  predicate DepsDone(r: Run, t: Task) {
    forall d :: d in t.dependsOn ==> d in r.results && d in r.versions
  }

  /** All planned nodes have a result. */
  predicate AllSettled(r: Run) {
    forall i :: 0 <= i < |r.plan| ==> r.plan[i].id in r.results
  }

  ghost predicate Enabled(r: Run, e: Event) {
    match e
    case Wait(s) => s >= 0.0
    case Attempt(plan) =>
      && DistinctIds(plan) && AllDepsKnown(plan)
      && r.running == map[] && AllSettled(r)
    case Begin(i) =>
      && i < |r.plan| && r.plan[i].id !in r.results && r.plan[i].id !in r.running && DepsDone(r, r.plan[i])
    case Finish(i, x, v) =>
      && i < |r.plan| && r.plan[i].id in r.running && v !in r.history
      && WorkerMayReturn(r.plan[i], r.running[r.plan[i].id].upstream, x)
  }

  /** Starting a node: take it from the cache, or start a worker; the runner itself is called unless
      the upstream failed. */
  ghost function Begun(r: Run, i: nat): Run
    requires Enabled(r, Begin(i))
  {
    var t := r.plan[i];
    var input := InputOf(r.goal, t, r.versions);
    var up := UpstreamOf(t, r.results);
    match Lookup(r.cache, t.id, input, r.now)
    case Some((x, v)) =>
      r.(results := r.results[t.id := x], versions := r.versions[t.id := v], reused := r.reused + {t.id})
    case None =>
      r.(running := r.running[t.id := Work(input, up)],
         calls := if UpstreamFailed(t, up) then r.calls else r.calls + [RunnerCall(r.attempt, t, up)])
  }

  /** A new attempt starts with its plan and no results; cache and history stay. */
  function Planned(r: Run, plan: seq<Task>): Run {
    r.(attempt := r.attempt + 1, plan := plan, versions := map[], results := map[], reused := {})
  }

  ghost function Do(r: Run, e: Event): Run
    requires Enabled(r, e)
  {
    match e
    case Wait(s) => r.(now := r.now + s)
    case Attempt(plan) => Planned(r, plan)
    case Begin(i) => Begun(r, i)
    case Finish(i, x, v) =>
      var t := r.plan[i];
      var work := r.running[t.id];
      r.(running := r.running - {t.id},
         results := r.results[t.id := x], versions := r.versions[t.id := v],
         history := r.history[v := Execution(work.input, work.upstream, x)],
         cache := Recorded(r.cache, t.id, work.input, x, v, r.now))
  }

  function Initial(goal: string, now: real, ttl: real): Run {
    Run(goal, now, Cache(ttl, map[], map[]), map[], [], 0, [], map[], map[], map[], {})
  }

  ghost predicate Leads(r: Run, run: seq<Event>, s: Run)
    decreases |run|
  {
    if run == [] then r == s
    else Enabled(r, run[0]) && Leads(Do(r, run[0]), run[1..], s)
  }

  // ---------------------------------------------------------------- invariant

  function NamesOf(input: Input): seq<string> {
    seq(|input.deps|, i requires 0 <= i < |input.deps| => input.deps[i].0)
  }

  /** An execution was given the results that its input's versions stand for. */
  ghost predicate ExecutionOk(r: Run, x: Execution) {
    && x.input.goal == r.goal
    && WorkerMayReturn(Task(x.input.taskId, x.input.description, NamesOf(x.input)), x.upstream, x.result)
    && forall i :: 0 <= i < |x.input.deps| ==>
         && x.input.deps[i].0 in x.upstream && x.input.deps[i].1 in r.history
         && r.history[x.input.deps[i].1].result == x.upstream[x.input.deps[i].0]
  }

  ghost predicate HistoryOk(r: Run) {
    forall v {:trigger ExecutionOk(r, r.history[v])} :: v in r.history ==> ExecutionOk(r, r.history[v])
  }

  ghost predicate CachedOk(r: Run) {
    && CacheOk(r.cache)
    && forall t {:trigger EntryOk(r, r.cache.entries[t])} :: t in r.cache.entries ==> EntryOk(r, r.cache.entries[t])
  }

  ghost predicate EntryOk(r: Run, e: Entry) {
    e.version in r.history && r.history[e.version].input == e.input && r.history[e.version].result == e.result
  }

  /** A result in force: its version's execution had this very input and made this very result. */
  ghost predicate ResultOk(r: Run, t: Task) {
    t.id in r.results ==>
      && DepsDone(r, t)
      && t.id in r.versions && r.versions[t.id] in r.history
      && r.history[r.versions[t.id]].input == InputOf(r.goal, t, r.versions)
      && r.history[r.versions[t.id]].result == r.results[t.id]
  }

  ghost predicate WorkOk(r: Run, t: Task) {
    t.id in r.running ==>
      && t.id !in r.results && DepsDone(r, t)
      && r.running[t.id] == Work(InputOf(r.goal, t, r.versions), UpstreamOf(t, r.results))
  }

  ghost predicate PlanOk(r: Run) {
    && DistinctIds(r.plan)
    && r.results.Keys <= Ids(r.plan) && r.versions.Keys == r.results.Keys && r.reused <= r.results.Keys
    && r.running.Keys <= Ids(r.plan)
    && forall i {:trigger NodeOk(r, i)} :: 0 <= i < |r.plan| ==> NodeOk(r, i)
  }

  ghost predicate NodeOk(r: Run, i: nat)
    requires i < |r.plan|
  {
    && ResultOk(r, r.plan[i]) && WorkOk(r, r.plan[i])
    && (r.plan[i].id in r.reused ==>
          && r.plan[i].id in r.results
          && Succeeded(r.results[r.plan[i].id]) && OnlyReusableTools(r.results[r.plan[i].id]))
  }

  /** Every runner call of the current attempt was for a planned task with the results in force. */
  ghost predicate CallOk(r: Run, c: RunnerCall) {
    && (forall d :: d in c.task.dependsOn ==> d in c.upstream) && !UpstreamFailed(c.task, c.upstream)
    && c.attempt <= r.attempt
    && (c.attempt == r.attempt ==>
          c.task in r.plan && DepsDone(r, c.task) && c.upstream == UpstreamOf(c.task, r.results))
  }

  ghost predicate CallsOk(r: Run) {
    forall i {:trigger CallOk(r, r.calls[i])} :: 0 <= i < |r.calls| ==> CallOk(r, r.calls[i])
  }

  ghost predicate Inv(r: Run) {
    var ok :=
      HistoryOk(r) && CachedOk(r) && PlanOk(r) && CallsOk(r);
    ok
  }

  /** What an event may add while an attempt lasts. */
  ghost predicate Grows(r: Run, s: Run) {
    && s.goal == r.goal && s.plan == r.plan && s.attempt == r.attempt
    && (forall v :: v in r.history ==> v in s.history && s.history[v] == r.history[v])
    && (forall t :: t in r.results ==> t in s.results && s.results[t] == r.results[t])
    && (forall t :: t in r.versions ==> t in s.versions && s.versions[t] == r.versions[t])
  }

  lemma ExecutionStaysOk(r: Run, s: Run, x: Execution)
    requires ExecutionOk(r, x) && s.goal == r.goal
    requires forall v :: v in r.history ==> v in s.history && s.history[v] == r.history[v]
    ensures ExecutionOk(s, x)
  {
  }

  lemma ResultStaysOk(r: Run, s: Run, t: Task)
    requires ResultOk(r, t) && Grows(r, s) && t.id in r.results
    ensures ResultOk(s, t)
  {
    assert InputOf(s.goal, t, s.versions) == InputOf(r.goal, t, r.versions);
  }

  lemma WorkStaysOk(r: Run, s: Run, t: Task)
    requires WorkOk(r, t) && Grows(r, s) && t.id in r.running && t.id in s.running
    requires s.running[t.id] == r.running[t.id] && t.id !in s.results
    ensures WorkOk(s, t)
  {
    assert InputOf(s.goal, t, s.versions) == InputOf(r.goal, t, r.versions);
    assert UpstreamOf(t, s.results) == UpstreamOf(t, r.results);
  }

  lemma CallsStayOk(r: Run, s: Run)
    requires CallsOk(r) && Grows(r, s) && s.calls == r.calls
    ensures CallsOk(s)
  {
    forall i | 0 <= i < |s.calls|
      ensures CallOk(s, s.calls[i])
    {
      assert CallOk(r, r.calls[i]);
      CallStaysOk(r, s, r.calls[i]);
    }
  }

  lemma CallStaysOk(r: Run, s: Run, c: RunnerCall)
    requires CallOk(r, c) && Grows(r, s)
    ensures CallOk(s, c)
  {
    if c.attempt == r.attempt {
      assert UpstreamOf(c.task, s.results) == UpstreamOf(c.task, r.results);
    }
  }

  /** One more node has a result; the others stay as they are. */
  lemma SettleKeepsPlan(r: Run, s: Run, i: nat)
    requires PlanOk(r) && Grows(r, s) && i < |r.plan| && r.plan[i].id !in r.results
    requires s.results.Keys == r.results.Keys + {r.plan[i].id} && s.versions.Keys == s.results.Keys
    requires s.running == r.running - {r.plan[i].id}
    requires || s.reused == r.reused
             || (s.reused == r.reused + {r.plan[i].id}
                 && Succeeded(s.results[r.plan[i].id]) && OnlyReusableTools(s.results[r.plan[i].id]))
    requires ResultOk(s, r.plan[i])
    ensures PlanOk(s)
  {
    assert r.plan[i].id in Ids(r.plan);
    forall j | 0 <= j < |s.plan|
      ensures NodeOk(s, j)
    {
      assert NodeOk(r, j);
      if j != i {
        if r.plan[j].id in r.results {
          ResultStaysOk(r, s, r.plan[j]);
        }
        if r.plan[j].id in r.running {
          WorkStaysOk(r, s, r.plan[j]);
        }
      }
    }
  }

  lemma CacheStaysOk(r: Run, s: Run)
    requires CachedOk(r) && s.cache == r.cache && s.history == r.history
    ensures CachedOk(s)
  {
    forall t | t in s.cache.entries
      ensures EntryOk(s, s.cache.entries[t])
    {
      assert EntryOk(r, r.cache.entries[t]);
    }
  }

  lemma HistoryStaysOk(r: Run, s: Run)
    requires HistoryOk(r) && Grows(r, s) && s.history == r.history
    ensures HistoryOk(s)
  {
    forall v | v in s.history
      ensures ExecutionOk(s, s.history[v])
    {
      assert ExecutionOk(r, r.history[v]);
      ExecutionStaysOk(r, s, r.history[v]);
    }
  }

  lemma ReusedResultOk(r: Run, i: nat)
    requires Inv(r) && Enabled(r, Begin(i))
    requires Lookup(r.cache, r.plan[i].id, InputOf(r.goal, r.plan[i], r.versions), r.now).Some?
    ensures Grows(r, Begun(r, i)) && ResultOk(Begun(r, i), r.plan[i])
    ensures var x := Begun(r, i).results[r.plan[i].id]; Succeeded(x) && OnlyReusableTools(x)
  {
    var s := Begun(r, i);
    var t := r.plan[i];
    assert Eligible(r.cache.ttl, r.cache.entries[t.id].result) && EntryOk(r, r.cache.entries[t.id]);
    assert InputOf(s.goal, t, s.versions) == InputOf(r.goal, t, r.versions) by {
      assert t.id !in t.dependsOn;
    }
  }

  lemma ReuseOk(r: Run, i: nat)
    requires Inv(r) && Enabled(r, Begin(i))
    requires Lookup(r.cache, r.plan[i].id, InputOf(r.goal, r.plan[i], r.versions), r.now).Some?
    ensures Inv(Begun(r, i))
  {
    var s := Begun(r, i);
    ReusedResultOk(r, i);
    assert PlanOk(s) by {
      assert r.running - {r.plan[i].id} == r.running;
      SettleKeepsPlan(r, s, i);
    }
    assert CallsOk(s) by {
      CallsStayOk(r, s);
    }
    assert HistoryOk(s) by {
      HistoryStaysOk(r, s);
    }
    CacheStaysOk(r, s);
  }

  lemma StartOk(r: Run, i: nat)
    requires Inv(r) && Enabled(r, Begin(i))
    requires Lookup(r.cache, r.plan[i].id, InputOf(r.goal, r.plan[i], r.versions), r.now).None?
    ensures Inv(Begun(r, i))
  {
    var s := Begun(r, i);
    var t := r.plan[i];
    assert Grows(r, s);
    HistoryStaysOk(r, s);
    CacheStaysOk(r, s);
    assert t.id in Ids(r.plan);
    forall j | 0 <= j < |s.plan|
      ensures NodeOk(s, j)
    {
      assert NodeOk(r, j);
    }
    forall j | 0 <= j < |s.calls|
      ensures CallOk(s, s.calls[j])
    {
      if j < |r.calls| {
        assert CallOk(r, r.calls[j]);
        CallStaysOk(r, s, r.calls[j]);
      }
    }
  }

  lemma FinishedResultOk(r: Run, i: nat, x: TaskResult, v: Version)
    requires Inv(r) && Enabled(r, Finish(i, x, v))
    ensures var s := Do(r, Finish(i, x, v)); Grows(r, s) && ResultOk(s, r.plan[i]) && WorkOk(r, r.plan[i])
  {
    var s := Do(r, Finish(i, x, v));
    var t := r.plan[i];
    assert NodeOk(r, i);
    assert InputOf(s.goal, t, s.versions) == r.running[t.id].input by {
      assert t.id !in t.dependsOn;
    }
  }

  lemma FinishOk(r: Run, i: nat, x: TaskResult, v: Version)
    requires Inv(r) && Enabled(r, Finish(i, x, v))
    ensures Inv(Do(r, Finish(i, x, v)))
  {
    var s := Do(r, Finish(i, x, v));
    var t := r.plan[i];
    FinishedResultOk(r, i, x, v);
    assert PlanOk(s) by {
      SettleKeepsPlan(r, s, i);
    }
    assert CallsOk(s) by {
      CallsStayOk(r, s);
    }
    assert CachedOk(s) by {
      RecordedKeepsOk(r.cache, t.id, r.running[t.id].input, x, v, r.now);
      forall u | u in s.cache.entries
        ensures EntryOk(s, s.cache.entries[u])
      {
        assert u != t.id ==> EntryOk(r, r.cache.entries[u]);
      }
    }
    assert HistoryOk(s) by {
      NewExecutionOk(r, s, t, x, v);
      forall u | u in s.history
        ensures ExecutionOk(s, s.history[u])
      {
        if u != v {
          assert ExecutionOk(r, r.history[u]);
          ExecutionStaysOk(r, s, r.history[u]);
        }
      }
    }
  }

  lemma NewExecutionOk(r: Run, s: Run, t: Task, x: TaskResult, v: Version)
    requires PlanOk(r) && Grows(r, s) && t in r.plan && t.id in r.running && WorkOk(r, t)
    requires WorkerMayReturn(t, r.running[t.id].upstream, x)
    ensures ExecutionOk(s, Execution(r.running[t.id].input, r.running[t.id].upstream, x))
  {
    var work := r.running[t.id];
    assert NamesOf(work.input) == t.dependsOn;
    forall k | 0 <= k < |work.input.deps|
      ensures work.input.deps[k].0 in work.upstream && work.input.deps[k].1 in s.history
      ensures s.history[work.input.deps[k].1].result == work.upstream[work.input.deps[k].0]
    {
      var d := t.dependsOn[k];
      assert d in Ids(r.plan);
      var j :| 0 <= j < |r.plan| && r.plan[j].id == d;
      assert NodeOk(r, j);
    }
  }

  lemma AttemptOk(r: Run, plan: seq<Task>)
    requires Inv(r) && Enabled(r, Attempt(plan))
    ensures Inv(Do(r, Attempt(plan)))
  {
    var s := Do(r, Attempt(plan));
    CacheStaysOk(r, s);
    forall v | v in s.history
      ensures ExecutionOk(s, s.history[v])
    {
      assert ExecutionOk(r, r.history[v]);
      ExecutionStaysOk(r, s, r.history[v]);
    }
    forall i | 0 <= i < |s.calls|
      ensures CallOk(s, s.calls[i])
    {
      assert CallOk(r, r.calls[i]);
    }
  }

  lemma WaitOk(r: Run, seconds: real)
    requires Inv(r) && Enabled(r, Wait(seconds))
    ensures Inv(Do(r, Wait(seconds)))
  {
    var s := Do(r, Wait(seconds));
    assert Grows(r, s);
    CallsStayOk(r, s);
    HistoryStaysOk(r, s);
    CacheStaysOk(r, s);
    forall i | 0 <= i < |s.plan|
      ensures NodeOk(s, i)
    {
      assert NodeOk(r, i);
    }
  }

  lemma EventKeepsInv(r: Run, e: Event)
    requires Inv(r) && Enabled(r, e)
    ensures Inv(Do(r, e))
  {
    match e
    case Wait(s) => WaitOk(r, s);
    case Attempt(plan) => AttemptOk(r, plan);
    case Begin(i) =>
      if Lookup(r.cache, r.plan[i].id, InputOf(r.goal, r.plan[i], r.versions), r.now).Some? {
        ReuseOk(r, i);
      } else {
        StartOk(r, i);
      }
    case Finish(i, x, v) => FinishOk(r, i, x, v);
  }

  lemma {:induction false} RunKeepsInv(r: Run, run: seq<Event>, s: Run)
    requires Inv(r) && Leads(r, run, s)
    ensures Inv(s)
    decreases |run|
  {
    if run != [] {
      EventKeepsInv(r, run[0]);
      RunKeepsInv(Do(r, run[0]), run[1..], s);
    }
  }

  // ---------------------------------------------------------------- theorems

  ghost predicate Reached(r: Run) {
    exists now, ttl, run :: Leads(Initial(r.goal, now, ttl), run, r)
  }

  lemma ReachedIsOk(r: Run)
    requires Reached(r)
    ensures Inv(r)
  {
    var now, ttl, run :| Leads(Initial(r.goal, now, ttl), run, r);
    RunKeepsInv(Initial(r.goal, now, ttl), run, r);
  }

  lemma {:induction false} LeadsOneMore(r: Run, run: seq<Event>, s: Run, e: Event)
    requires Leads(r, run, s) && Enabled(s, e)
    ensures Leads(r, run + [e], Do(s, e))
    decreases |run|
  {
    if run == [] {
      assert Leads(Do(s, e), [e][1..], Do(s, e));
    } else {
      LeadsOneMore(Do(r, run[0]), run[1..], s, e);
      assert (run + [e])[1..] == run[1..] + [e];
    }
  }

  lemma ReachedNext(r: Run, e: Event, s: Run)
    requires Reached(r) && Enabled(r, e) && s == Do(r, e)
    ensures Reached(s)
  {
    var now, ttl, run :| Leads(Initial(r.goal, now, ttl), run, r);
    LeadsOneMore(Initial(r.goal, now, ttl), run, r, e);
    assert Leads(Initial(s.goal, now, ttl), run + [e], s);
  }

  /** Replan cache soundness: over any sequence of attempts, a node result in force, reused or not,
      was computed for the same goal and task from exactly the upstream results now in force; a reused
      one ended DONE and so did every dependency of its node. */
  lemma ResultsComeFromResultsInForce(r: Run, i: nat)
    requires Reached(r) && i < |r.plan| && r.plan[i].id in r.results
    ensures
      var t := r.plan[i];
      && DepsDone(r, t) && t.id in r.versions && r.versions[t.id] in r.history
      && var x := r.history[r.versions[t.id]];
      && x.result == r.results[t.id]
      && x.input.goal == r.goal && x.input.taskId == t.id && x.input.description == t.description
      && (forall d :: d in t.dependsOn ==> d in x.upstream && x.upstream[d] == r.results[d])
      && WorkerMayReturn(t, x.upstream, x.result)
      && (t.id in r.reused ==> Succeeded(r.results[t.id]) && OnlyReusableTools(r.results[t.id])
                               && forall d :: d in t.dependsOn ==> Succeeded(r.results[d]))
  {
    ReachedIsOk(r);
    var t := r.plan[i];
    assert NodeOk(r, i);
    var x := r.history[r.versions[t.id]];
    assert ExecutionOk(r, x);
    assert NamesOf(x.input) == t.dependsOn;
    forall d | d in t.dependsOn
      ensures d in x.upstream && x.upstream[d] == r.results[d]
    {
      var k :| 0 <= k < |t.dependsOn| && t.dependsOn[k] == d;
      assert x.input.deps[k] == (d, r.versions[d]);
      assert d in Ids(r.plan);
      var j :| 0 <= j < |r.plan| && r.plan[j].id == d;
      assert NodeOk(r, j);
    }
    if Succeeded(r.results[t.id]) {
      assert !UpstreamFailed(t, x.upstream);
    }
  }

  /** The cache holds a result for a task: made for the same goal and task from the very versions its
      dependencies have now, and still fresh. */
  predicate Kept(r: Run, t: Task) {
    && t.id in r.cache.entries && r.now < r.cache.entries[t.id].expiresAt
    && var x := r.cache.entries[t.id].input;
    && x.goal == r.goal && x.taskId == t.id && x.description == t.description && |x.deps| == |t.dependsOn|
    && forall k :: 0 <= k < |t.dependsOn| ==>
         t.dependsOn[k] in r.versions && x.deps[k] == (t.dependsOn[k], r.versions[t.dependsOn[k]])
  }

  /** A node whose result is kept takes it without a worker; any other node starts its worker, which calls
      the runner unless an upstream result did not end DONE. */
  lemma KeptIsReused(r: Run, i: nat)
    requires Enabled(r, Begin(i))
    ensures var t := r.plan[i];
            var s := Do(r, Begin(i));
            if Kept(r, t) then
              && s.reused == r.reused + {t.id} && s.running == r.running && s.calls == r.calls
              && s.results == r.results[t.id := r.cache.entries[t.id].result]
              && s.versions == r.versions[t.id := r.cache.entries[t.id].version]
            else
              && s.results == r.results && s.reused == r.reused && s.running.Keys == r.running.Keys + {t.id}
              && s.calls == if exists d :: d in t.dependsOn && r.results[d].reply.stopReason != "DONE" then r.calls
                            else r.calls + [RunnerCall(r.attempt, t, UpstreamOf(t, r.results))]
  {
    var t := r.plan[i];
    var input := InputOf(r.goal, t, r.versions);
    assert Kept(r, t) <==> Lookup(r.cache, t.id, input, r.now).Some? by {
      if Kept(r, t) {
        assert r.cache.entries[t.id].input.deps == input.deps;
      }
    }
    var up := UpstreamOf(t, r.results);
    assert UpstreamFailed(t, up) <==> exists d :: d in t.dependsOn && r.results[d].reply.stopReason != "DONE" by {
      if d :| d in t.dependsOn && r.results[d].reply.stopReason != "DONE" {
        var k :| 0 <= k < |t.dependsOn| && t.dependsOn[k] == d;
      }
    }
  }

  /** Failure propagation: a result that ended DONE has only DONE dependencies; otherwise the node was
      skipped. */
  lemma FailureReachesDependents(r: Run, i: nat, d: string)
    requires Reached(r) && i < |r.plan| && r.plan[i].id in r.results && d in r.plan[i].dependsOn
    ensures d in r.results
    ensures !Succeeded(r.results[d]) ==> r.results[r.plan[i].id] == SkippedResult(r.plan[i])
  {
    ResultsComeFromResultsInForce(r, i);
    var k :| 0 <= k < |r.plan[i].dependsOn| && r.plan[i].dependsOn[k] == d;
  }

  /** Planned tasks, each a dependency of the one before it. */
  ghost predicate AncestorChain(plan: seq<Task>, chain: seq<nat>) {
    && chain != []
    && (forall i :: 0 <= i < |chain| ==> chain[i] < |plan|)
    && (forall i :: 0 <= i < |chain| - 1 ==> plan[chain[i + 1]].id in plan[chain[i]].dependsOn)
  }

  lemma ChainTail(plan: seq<Task>, chain: seq<nat>)
    requires AncestorChain(plan, chain) && |chain| > 1
    ensures AncestorChain(plan, chain[1..]) && plan[chain[1]].id in plan[chain[0]].dependsOn
  {
    var rest := chain[1..];
    assert plan[chain[0 + 1]].id in plan[chain[0]].dependsOn;
    forall i | 0 <= i < |rest| - 1
      ensures plan[rest[i + 1]].id in plan[rest[i]].dependsOn
    {
      assert plan[chain[(i + 1) + 1]].id in plan[chain[i + 1]].dependsOn;
    }
  }

  /** The nodes that did not end DONE are closed under descendants. */
  lemma {:induction false} DoneMeansAncestorsDone(r: Run, chain: seq<nat>)
    requires Reached(r) && AncestorChain(r.plan, chain)
    requires r.plan[chain[0]].id in r.results && Succeeded(r.results[r.plan[chain[0]].id])
    ensures var last := r.plan[chain[|chain| - 1]]; last.id in r.results && Succeeded(r.results[last.id])
    decreases |chain|
  {
    if |chain| > 1 {
      ChainTail(r.plan, chain);
      FailureReachesDependents(r, chain[0], r.plan[chain[1]].id);
      DoneMeansAncestorsDone(r, chain[1..]);
    }
  }

  lemma CallHasDoneUpstream(r: Run, c: RunnerCall, d: string)
    requires Reached(r) && c in r.calls && c.attempt == r.attempt && d in c.task.dependsOn
    ensures c.task in r.plan && d in r.results && Succeeded(r.results[d])
  {
    ReachedIsOk(r);
    var i :| 0 <= i < |r.calls| && r.calls[i] == c;
    assert CallOk(r, r.calls[i]);
    var k :| 0 <= k < |c.task.dependsOn| && c.task.dependsOn[k] == d;
    assert c.upstream[d] == r.results[d];
  }

  /** No runner call of the current attempt is for a node with an ancestor that did not end DONE. */
  lemma CallsHaveDoneAncestors(r: Run, c: RunnerCall, chain: seq<nat>)
    requires Reached(r) && c in r.calls && c.attempt == r.attempt
    requires AncestorChain(r.plan, chain) && |chain| > 1 && r.plan[chain[0]] == c.task
    ensures var last := r.plan[chain[|chain| - 1]]; last.id in r.results && Succeeded(r.results[last.id])
  {
    ChainTail(r.plan, chain);
    CallHasDoneUpstream(r, c, r.plan[chain[1]].id);
    DoneMeansAncestorsDone(r, chain[1..]);
  }
}
