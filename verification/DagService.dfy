/** The DAG application service: execute a plan, synthesize, review, replan, reply.

    Model calls are oracles indexed by the attempt they belong to; an error of any of them aborts the
    run. Durable executions are the subject of module DurableExecution. */
module DagService {
  import opened DagTypes
  import opened TaskGraph
  import opened Scheduler
  import opened DagReply
  import opened ReviewLoop
  import opened ResultReuse
  import opened CachedExecution
  import opened ModelAnswers
  import opened RunnerHistory
  import CacheTransparency
  import ReplanRuns

  datatype ServiceError = GoalRequired | Invalid(error: DagError) | EmptyPlan | Stuck | Backend(message: string)

  // ---------------------------------------------------------------- one worker

  function Worker(optimized: bool, tasks: seq<Task>, o: Oracles, attempt: nat): Execute<TaskResult, string> {
    (id, up) =>
      match TaskNamed(tasks, id)
      case None => Failure("KeyError")
      case Some(t) => RunOne(optimized, t, up, o.runner(attempt, id, up))
  }

  /** The runner of that attempt raised the error. */
  ghost predicate RunnerRaised(o: Oracles, attempt: nat, error: string) {
    exists id, up :: o.runner(attempt, id, up) == Failure(error)
  }

  lemma WorkerRaised(optimized: bool, tasks: seq<Task>, o: Oracles, attempt: nat, t: Task, up: map<string, TaskResult>,
                     error: string)
    requires DistinctIds(tasks) && t in tasks && (optimized ==> forall d :: d in t.dependsOn ==> d in up)
    requires Worker(optimized, tasks, o, attempt)(t.id, up) == Failure(error)
    ensures RunnerRaised(o, attempt, error)
  {
    TaskNamedFinds(tasks, t);
    assert o.runner(attempt, t.id, up) == Failure(error);
  }

  lemma NodeRaised(tasks: seq<Task>, o: Oracles, attempt: nat, m: map<string, TaskResult>, id: string, error: string)
    requires DistinctIds(tasks) && Scheduler.RaisedBy(NodesOf(tasks), Worker(true, tasks, o, attempt), m, id, error)
    ensures RunnerRaised(o, attempt, error)
  {
    var nodes := NodesOf(tasks);
    var i :| 0 <= i < |nodes| && nodes[i].id == id && nodes[i].upstream <= m.Keys
             && Worker(true, tasks, o, attempt)(id, Restrict(m, nodes[i].upstream)) == Failure(error);
    WorkerRaised(true, tasks, o, attempt, tasks[i], Restrict(m, nodes[i].upstream), error);
  }

  /** What evaluation says about the result of one task. */
  lemma ResultOfTask(optimized: bool, tasks: seq<Task>, o: Oracles, attempt: nat, m: map<string, TaskResult>, t: Task)
    requires DistinctIds(tasks) && t in tasks
    requires Evaluates(KnownNodesOf(tasks), Worker(optimized, tasks, o, attempt), m)
    ensures TaskTold(optimized, false, o, attempt, tasks, m, t)
    ensures optimized && Succeeded(m[t.id]) ==> forall d :: d in t.dependsOn ==> d in m && Succeeded(m[d])
  {
    var i :| 0 <= i < |tasks| && tasks[i] == t;
    KnownNodesAreDistinct(tasks);
    assert KnownNodesOf(tasks)[i].id in NodeIds(KnownNodesOf(tasks));
    var execute := Worker(optimized, tasks, o, attempt);
    assert Justified(KnownNodesOf(tasks)[i], execute, m);
    TaskNamedFinds(tasks, t);
    var up := Restrict(m, KnownDeps(tasks, t));
    assert RunOne(optimized, t, up, o.runner(attempt, t.id, up)) == Success(m[t.id]);
    RunOneAnswers(optimized, o, attempt, t, up, m[t.id]);
    assert KeepsKnown(tasks, m, t, up);
    if optimized && Succeeded(m[t.id]) {
      forall d | d in t.dependsOn
        ensures d in m && Succeeded(m[d])
      {
        var k :| 0 <= k < |t.dependsOn| && t.dependsOn[k] == d;
      }
    }
  }

  lemma PickedResults(optimized: bool, tasks: seq<Task>, levels: seq<seq<Task>>, o: Oracles, attempt: nat,
                      m: map<string, TaskResult>)
    requires DistinctIds(tasks) && Levelled(tasks, levels)
    requires Evaluates(KnownNodesOf(tasks), Worker(optimized, tasks, o, attempt), m)
    ensures forall t :: t in FlatTasks(levels) ==> t.id in m
    ensures ResultsFit(levels, Pick(FlatTasks(levels), m)) && (optimized ==> FailureClosed(Pick(FlatTasks(levels), m)))
    ensures ResultsTold(optimized, false, o, attempt, tasks, Pick(FlatTasks(levels), m))
  {
    var flat := FlatTasks(levels);
    KnownNodesAreDistinct(tasks);
    forall t | t in tasks
      ensures TaskTold(optimized, false, o, attempt, tasks, m, t)
      ensures optimized && Succeeded(m[t.id]) ==> forall d :: d in t.dependsOn ==> d in m && Succeeded(m[d])
    {
      ResultOfTask(optimized, tasks, o, attempt, m, t);
    }
    PickedAreTold(optimized, false, o, attempt, tasks, levels, m);
    PickedFit(optimized, tasks, levels, o, attempt, m);
  }

  lemma PickedFit(optimized: bool, tasks: seq<Task>, levels: seq<seq<Task>>, o: Oracles, attempt: nat,
                  m: map<string, TaskResult>)
    requires Levelled(tasks, levels)
    requires forall t :: t in tasks ==> TaskTold(optimized, false, o, attempt, tasks, m, t)
    requires forall t :: t in tasks && optimized && t.id in m && Succeeded(m[t.id]) ==>
              forall d :: d in t.dependsOn ==> d in m && Succeeded(m[d])
    ensures forall t :: t in FlatTasks(levels) ==> t.id in m
    ensures ResultsFit(levels, Pick(FlatTasks(levels), m)) && (optimized ==> FailureClosed(Pick(FlatTasks(levels), m)))
  {
    var flat := FlatTasks(levels);
    forall t | t in flat
      ensures t in tasks && t.id in m && m[t.id].taskId == t.id && m[t.id].dependsOn == t.dependsOn
    {
      FlatTasksAreTasks(tasks, levels, t);
      assert TaskTold(optimized, false, o, attempt, tasks, m, t);
    }
    var results := Pick(flat, m);
    forall i | 0 <= i < |results|
      ensures results[i].taskId == flat[i].id && results[i].dependsOn == flat[i].dependsOn && flat[i] in tasks
    {
      assert flat[i] in flat;
    }
  }

  // ---------------------------------------------------------------- legacy levels

  /** Level after level, each level waiting for the one before it. */
  method RunLegacy(tasks: seq<Task>, levels: seq<seq<Task>>, o: Oracles, attempt: nat)
    returns (r: Result<seq<TaskResult>, string>)
    requires DistinctIds(tasks) && Levelled(tasks, levels)
    ensures r.Success? ==> ResultsFit(levels, r.value) && ResultsTold(false, false, o, attempt, tasks, r.value)
    ensures r.Success? <==> RunLevels(levels, Worker(false, tasks, o, attempt)).Success?
    ensures r.Failure? ==> RunnerRaised(o, attempt, r.error)
  {
    var byId: map<string, TaskResult> := map[];
    var ordered: seq<TaskResult> := [];
    var execute := Worker(false, tasks, o, attempt);
    for n := 0 to |levels|
      invariant RunLevels(levels[..n], execute) == Success(byId)
      invariant InOrder(levels, n, byId, ordered)
    {
      var level := levels[n];
      assert levels[..n + 1][..n] == levels[..n] && levels[..n + 1][n] == level;
      var outcome := RunLevel(level, execute, byId);
      if outcome.Failure? {
        StaysFailed(levels, n + 1, execute);
        LevelRaised(tasks, levels, n, o, attempt, byId);
        return Failure(outcome.error);
      }
      NextLevel(tasks, levels, n, execute, byId, outcome.value, ordered);
      byId := outcome.value;
      ordered := ordered + Pick(level, byId);
    }
    assert levels[..|levels|] == levels;
    LevelsEvaluateKnown(tasks, levels, execute);
    PickedResults(false, tasks, levels, o, attempt, byId);
    return Success(ordered);
  }

  /** The results of the first levels, in order. */
  ghost predicate InOrder(levels: seq<seq<Task>>, n: nat, m: map<string, TaskResult>, ordered: seq<TaskResult>)
    requires n <= |levels|
  {
    && (forall t :: t in FlatTasks(levels[..n]) ==> t.id in m)
    && ordered == Pick(FlatTasks(levels[..n]), m)
  }

  /** A level adds the results of its tasks and keeps those there were. */
  lemma LevelKeeps(tasks: seq<Task>, levels: seq<seq<Task>>, n: nat, execute: Execute<TaskResult, string>,
                   seen: map<string, TaskResult>, m: map<string, TaskResult>)
    requires DistinctIds(tasks) && Levelled(tasks, levels) && n < |levels|
    requires RunLevels(levels[..n], execute) == Success(seen) && RunLevel(levels[n], execute, seen) == Success(m)
    ensures forall t :: t in levels[n] ==> t.id in m
    ensures forall id :: id in seen ==> id in m && m[id] == seen[id]
  {
    var level := levels[n];
    LevelsAreConsistent(tasks, levels, n, execute);
    assert level[..|level|] == level;
    LevelIsConsistent(tasks, levels, n, execute, seen, |level|);
    forall t | t in level
      ensures t.id in m
    {
      var q :| 0 <= q < |level| && level[q] == t;
    }
  }

  lemma NextLevel(tasks: seq<Task>, levels: seq<seq<Task>>, n: nat, execute: Execute<TaskResult, string>,
                  seen: map<string, TaskResult>, m: map<string, TaskResult>, ordered: seq<TaskResult>)
    requires DistinctIds(tasks) && Levelled(tasks, levels) && n < |levels| && InOrder(levels, n, seen, ordered)
    requires RunLevels(levels[..n], execute) == Success(seen) && RunLevel(levels[n], execute, seen) == Success(m)
    ensures forall t :: t in levels[n] ==> t.id in m
    ensures InOrder(levels, n + 1, m, ordered + Pick(levels[n], m))
  {
    var level := levels[n];
    LevelKeeps(tasks, levels, n, execute, seen, m);
    FlatSnoc(levels, n);
    PickMore(FlatTasks(levels[..n]), level, seen, m);
  }

  /** Picking more tasks from a map that keeps the results picked so far. */
  lemma PickMore(before: seq<Task>, level: seq<Task>, seen: map<string, TaskResult>, m: map<string, TaskResult>)
    requires forall t :: t in before ==> t.id in seen
    requires forall id :: id in seen ==> id in m && m[id] == seen[id]
    requires forall t :: t in level ==> t.id in m
    ensures forall t :: t in before + level ==> t.id in m
    ensures Pick(before + level, m) == Pick(before, seen) + Pick(level, m)
  {
    var all := before + level;
    forall i | 0 <= i < |all|
      ensures all[i].id in m
      ensures m[all[i].id] == if i < |before| then seen[all[i].id] else m[level[i - |before|].id]
    {
      if i < |before| {
        assert all[i] == before[i] && before[i] in before;
      } else {
        assert all[i] == level[i - |before|] && all[i] in level;
      }
    }
  }

  lemma LevelRaised(tasks: seq<Task>, levels: seq<seq<Task>>, n: nat, o: Oracles, attempt: nat,
                    seen: map<string, TaskResult>)
    requires DistinctIds(tasks) && Levelled(tasks, levels) && n < |levels|
    requires RunLevel(levels[n], Worker(false, tasks, o, attempt), seen).Failure?
    ensures RunnerRaised(o, attempt, RunLevel(levels[n], Worker(false, tasks, o, attempt), seen).error)
  {
    var t, up := LevelFails(levels[n], Worker(false, tasks, o, attempt), seen);
    AtDepthMembers(tasks, tasks, n, t);
    WorkerRaised(false, tasks, o, attempt, t, up, RunLevel(levels[n], Worker(false, tasks, o, attempt), seen).error);
  }

  lemma {:induction false} StaysFailed(levels: seq<seq<Task>>, n: nat, execute: Execute<TaskResult, string>)
    requires n <= |levels| && RunLevels(levels[..n], execute).Failure?
    ensures RunLevels(levels, execute).Failure?
    decreases |levels| - n
  {
    if n < |levels| {
      assert levels[..n + 1][..n] == levels[..n];
      StaysFailed(levels, n + 1, execute);
    } else {
      assert levels[..n] == levels;
    }
  }

  // ---------------------------------------------------------------- execute

  /** In optimized mode the stop reason is decided by the results, not by the model. */
  function Synthesize(optimized: bool, results: seq<TaskResult>, reply: Reply): Reply {
    if optimized then SynthesisOf(results, reply.answer) else reply
  }

  /** Where a run with the replan cache stands between attempts. */
  datatype Clock = Clock(now: real, drawn: nat)

  ghost predicate BetweenAttempts(reuse: DagResultReuse, goal: string, c: Clock, h: ReplanRuns.Run) reads reuse {
    && reuse.Valid() && ReplanRuns.Reached(h) && ReplanRuns.AllSettled(h) && h.running == map[]
    && h.goal == goal && h.now == c.now && h.cache == reuse.View() && Drawn(h, c.drawn)
  }

  /** The results are those the run has in force, in level order. */
  ghost predicate TakenFrom(h: ReplanRuns.Run, tasks: seq<Task>, levels: seq<seq<Task>>, results: seq<TaskResult>) {
    && ReplanRuns.Reached(h) && h.plan == tasks
    && (forall t :: t in FlatTasks(levels) ==> t.id in h.results)
    && results == Pick(FlatTasks(levels), h.results)
  }

  /** `end` comes from `h` by one attempt with that plan and the replies of that attempt's runner. */
  ghost predicate OneAttempt(o: Oracles, attempt: nat, tasks: seq<Task>, h: ReplanRuns.Run, end: ReplanRuns.Run) {
    && ReplanRuns.Enabled(h, ReplanRuns.Attempt(tasks))
    && Continues(RunnerOf(o, attempt), ReplanRuns.Planned(h, tasks), end)
  }

  ghost predicate ByAttempt(o: Oracles, first: seq<Task>, hs: seq<ReplanRuns.Run>, i: nat)
    requires 0 < i < |hs|
  {
    OneAttempt(o, i, PlanOf(o, first, i), hs[i - 1], hs[i])
  }

  /** The runs between attempts: each comes from the one before by the next attempt. */
  ghost predicate Attempts(o: Oracles, first: seq<Task>, hs: seq<ReplanRuns.Run>) {
    forall i {:trigger ByAttempt(o, first, hs, i)} :: 0 < i < |hs| ==> ByAttempt(o, first, hs, i)
  }

  /** Where a run with the cache begins: its first plan, and a run without any history. */
  datatype Origin = Origin(plan: seq<Task>, goal: string, now: real, ttl: real) {
    function Start(): ReplanRuns.Run {
      ReplanRuns.Initial(goal, now, ttl)
    }
  }

  ghost predicate AttemptsLead(o: Oracles, origin: Origin, hs: seq<ReplanRuns.Run>, n: nat, h: ReplanRuns.Run) {
    |hs| == n + 1 && hs[0] == origin.Start() && hs[n] == h && Attempts(o, origin.plan, hs)
  }

  /** `h` comes from the origin by `n` attempts, with the first plan and then the reviser's. */
  ghost predicate Attempted(o: Oracles, origin: Origin, n: nat, h: ReplanRuns.Run) {
    exists hs :: AttemptsLead(o, origin, hs, n, h)
  }

  /** The next attempt is number `n` with that plan. */
  ghost predicate Due(o: Oracles, origin: Origin, n: nat, plan: seq<Task>, h: ReplanRuns.Run) {
    var ok := n > 0 && Attempted(o, origin, n - 1, h) && plan == PlanOf(o, origin.plan, n);
    ok
  }

  lemma FirstIsDue(o: Oracles, origin: Origin)
    ensures Due(o, origin, 1, origin.plan, origin.Start())
  {
    assert AttemptsLead(o, origin, [origin.Start()], 0, origin.Start());
  }

  lemma NextIsDue(o: Oracles, origin: Origin, n: nat, plan: seq<Task>, h: ReplanRuns.Run)
    requires Attempted(o, origin, n, h) && plan == PlanOf(o, origin.plan, n + 1)
    ensures Due(o, origin, n + 1, plan, h)
  {
  }

  lemma NextAttempt(o: Oracles, origin: Origin, n: nat, plan: seq<Task>, before: ReplanRuns.Run, h: ReplanRuns.Run)
    requires Due(o, origin, n, plan, before) && OneAttempt(o, n, plan, before, h)
    ensures Attempted(o, origin, n, h)
  {
    var hs :| AttemptsLead(o, origin, hs, n - 1, before);
    var more := hs + [h];
    forall i | 0 < i < |more|
      ensures ByAttempt(o, origin.plan, more, i)
    {
      assert i < |hs| ==> ByAttempt(o, origin.plan, hs, i);
    }
    assert AttemptsLead(o, origin, more, n, h);
  }

  lemma {:induction false} AttemptsAreHeard(o: Oracles, first: seq<Task>, hs: seq<ReplanRuns.Run>, n: nat)
    requires n < |hs| && Attempts(o, first, hs) && ReplanRuns.Inv(hs[0]) && AllHeard(o, hs[0]) && hs[0].attempt == 0
    ensures ReplanRuns.Inv(hs[n]) && AllHeard(o, hs[n]) && hs[n].attempt == n
    ensures n > 0 ==> hs[n].plan == PlanOf(o, first, n)
  {
    if n > 0 {
      AttemptsAreHeard(o, first, hs, n - 1);
      assert ByAttempt(o, first, hs, n);
      AttemptKeepsHeard(o, hs[n - 1], PlanOf(o, first, n), hs[n]);
    }
  }

  /** What the attempts so far report was said by their runners. */
  lemma CachedIsTold(o: Oracles, origin: Origin, n: nat, h: ReplanRuns.Run, tasks: seq<Task>, levels: seq<seq<Task>>)
    requires Attempted(o, origin, n, h) && n > 0 && tasks == PlanOf(o, origin.plan, n)
    requires ReplanRuns.Reached(h) && ReplanRuns.AllSettled(h) && AllDepsKnown(tasks) && Levelled(tasks, levels)
    ensures forall t :: t in FlatTasks(levels) ==> t.id in h.results
    ensures ResultsTold(true, true, o, n, tasks, Pick(FlatTasks(levels), h.results))
  {
    var hs :| AttemptsLead(o, origin, hs, n, h);
    AttemptsAreHeard(o, origin.plan, hs, n);
    AttemptIsTold(o, h, levels);
  }

  /** What a finished attempt hands on. */
  lemma AttemptTaken(o: Oracles, origin: Origin, n: nat, h: ReplanRuns.Run, goal: string, tasks: seq<Task>,
                     levels: seq<seq<Task>>, now: real, drawn: nat, cache: Cache, results: map<string, TaskResult>)
    requires Attempted(o, origin, n, h) && tasks == PlanOf(o, origin.plan, n) && n > 0 && AllDepsKnown(tasks)
    requires Follows(h, goal, tasks, now, drawn, cache, Progress(results, h.versions, map[]))
    requires ReplanRuns.AllSettled(h) && Levelled(tasks, levels)
    ensures forall t :: t in FlatTasks(levels) ==> t.id in results
    ensures var taken := Pick(FlatTasks(levels), results);
            && TakenFrom(h, tasks, levels, taken) && ResultsFit(levels, taken) && FailureClosed(taken)
            && ResultsTold(true, true, o, n, tasks, taken)
  {
    AttemptFits(h, levels);
    CachedIsTold(o, origin, n, h, tasks, levels);
  }

  lemma CachedRaised(o: Oracles, attempt: nat, h: ReplanRuns.Run, error: string)
    requires CachedExecution.RaisedBy(RunnerOf(o, attempt), h, error)
    ensures RunnerRaised(o, attempt, error)
  {
    var id :| id in h.running && RunnerOf(o, attempt)(id, h.running[id].upstream) == Failure(error);
    assert o.runner(attempt, id, h.running[id].upstream) == Failure(error);
  }

  /** The nodes of an optimized attempt with the cache. */
  method ExecuteCached(o: Oracles, attempt: nat, goal: string, tasks: seq<Task>, levels: seq<seq<Task>>,
                       reuse: DagResultReuse, c: Clock, ghost h: ReplanRuns.Run, ghost origin: Origin)
    returns (r: Result<seq<TaskResult>, string>, later: Clock, ghost end: ReplanRuns.Run)
    requires DistinctIds(tasks) && AllDepsKnown(tasks) && Levelled(tasks, levels) && BetweenAttempts(reuse, goal, c, h)
    requires Due(o, origin, attempt, tasks, h)
    modifies reuse
    ensures r.Success? ==>
              && BetweenAttempts(reuse, goal, later, end) && TakenFrom(end, tasks, levels, r.value)
              && ResultsFit(levels, r.value) && FailureClosed(r.value)
              && ResultsTold(true, true, o, attempt, tasks, r.value)
    ensures Attempted(o, origin, attempt, end)
    ensures r.Failure? ==> RunnerRaised(o, attempt, r.error)
  {
    var outcome, now, drawn, last :=
      CachedExecution.RunReady(RunnerOf(o, attempt), tasks, levels, goal, reuse, c.now, c.drawn, h);
    later, end := Clock(now, drawn), last;
    NextAttempt(o, origin, attempt, tasks, h, end);
    if outcome.Failure? {
      CachedRaised(o, attempt, end, outcome.error);
      return Failure(outcome.error), later, end;
    }
    AttemptTaken(o, origin, attempt, end, goal, tasks, levels, now, drawn, reuse.View(), outcome.value);
    return Success(Pick(FlatTasks(levels), outcome.value)), later, end;
  }

  /** The nodes of an attempt without a cache, optimized or level by level. */
  method ExecuteNodes(s: Settings, o: Oracles, attempt: nat, tasks: seq<Task>, levels: seq<seq<Task>>)
    returns (r: Result<seq<TaskResult>, string>)
    requires DistinctIds(tasks) && (s.optimized ==> AllDepsKnown(tasks)) && Levelled(tasks, levels)
    ensures r.Success? ==>
              && ResultsFit(levels, r.value) && (s.optimized ==> FailureClosed(r.value))
              && ResultsTold(s.optimized, false, o, attempt, tasks, r.value)
    ensures r.Failure? ==> RunnerRaised(o, attempt, r.error)
  {
    if s.optimized {
      var run := RunPlan(tasks, levels, Worker(true, tasks, o, attempt));
      if run.Failure? {
        ghost var m :| Scheduler.RaisedBy(NodesOf(tasks), Worker(true, tasks, o, attempt), m, run.error.id,
                                          run.error.error);
        NodeRaised(tasks, o, attempt, m, run.error.id, run.error.error);
        return Failure(run.error.error);
      }
      NodesAreKnown(tasks);
      PickedResults(true, tasks, levels, o, attempt, run.value);
      r := Success(Pick(FlatTasks(levels), run.value));
    } else {
      r := RunLegacy(tasks, levels, o, attempt);
    }
  }

  /** The nodes of an attempt, with the cache if there is one. */
  method ExecuteAll(s: Settings, o: Oracles, attempt: nat, goal: string, tasks: seq<Task>, levels: seq<seq<Task>>,
                    reuse: DagResultReuse?, c: Clock, ghost h: ReplanRuns.Run, ghost origin: Origin)
    returns (r: Result<seq<TaskResult>, string>, later: Clock, ghost end: ReplanRuns.Run)
    requires DistinctIds(tasks) && (s.optimized ==> AllDepsKnown(tasks)) && Levelled(tasks, levels)
    requires reuse != null ==> s.optimized && BetweenAttempts(reuse, goal, c, h) && Due(o, origin, attempt, tasks, h)
    modifies reuse
    ensures r.Success? ==>
              && ResultsFit(levels, r.value) && (s.optimized ==> FailureClosed(r.value))
              && ResultsTold(s.optimized, reuse != null, o, attempt, tasks, r.value)
    ensures r.Success? && reuse != null ==>
              && BetweenAttempts(reuse, goal, later, end) && TakenFrom(end, tasks, levels, r.value)
              && Attempted(o, origin, attempt, end)
    ensures r.Failure? ==> RunnerRaised(o, attempt, r.error)
  {
    later, end := c, h;
    if reuse != null {
      r, later, end := ExecuteCached(o, attempt, goal, tasks, levels, reuse, c, h, origin);
    } else {
      r := ExecuteNodes(s, o, attempt, tasks, levels);
    }
  }

  /** A runner or the synthesizer of that attempt raised the error. */
  ghost predicate StepRaised(o: Oracles, attempt: nat, error: string) {
    RunnerRaised(o, attempt, error) || exists results :: o.synthesizer(attempt, results) == Failure(error)
  }

  lemma PlanIsTold(optimized: bool, cached: bool, o: Oracles, n: nat, tasks: seq<Task>, levels: seq<seq<Task>>,
                   results: seq<TaskResult>, synthesis: Reply)
    requires Levelled(tasks, levels) && ResultsFit(levels, results)
    requires ResultsTold(optimized, cached, o, n, tasks, results) && o.synthesizer(n, results).Success?
    requires synthesis == Synthesize(optimized, results, o.synthesizer(n, results).value)
    ensures ExecutionTold(optimized, cached, o, n, tasks, LevelIds(levels), results, synthesis)
  {
    assert AllDone(results) <==> AllEndedDone(results);
  }

  /** One attempt: levels, nodes, synthesis. With the cache its results are those of a run of module
      ReplanRuns, so what is proved about such runs holds of them. */
  method ExecutePlan(s: Settings, o: Oracles, attempt: nat, goal: string, tasks: seq<Task>, reuse: DagResultReuse?,
                     c: Clock, ghost h: ReplanRuns.Run, ghost origin: Origin)
    returns (r: Result<Execution, ServiceError>, later: Clock, ghost end: ReplanRuns.Run)
    requires DistinctIds(tasks) && (s.optimized ==> AllDepsKnown(tasks))
    requires reuse != null ==> s.optimized && BetweenAttempts(reuse, goal, c, h) && Due(o, origin, attempt, tasks, h)
    modifies reuse
    ensures r.Success? ==>
              && ExecutionOk(s.optimized, tasks, r.value)
              && ExecutionTold(s.optimized, reuse != null, o, attempt, tasks, LevelIds(r.value.levels), r.value.results,
                               r.value.synthesis)
    ensures r.Success? && reuse != null ==>
              && BetweenAttempts(reuse, goal, later, end) && TakenFrom(end, tasks, r.value.levels, r.value.results)
              && Attempted(o, origin, attempt, end)
    ensures r == Failure(Invalid(Cycle)) <==> Cyclic(tasks)
    ensures r.Failure? ==> r.error == Invalid(Cycle) || (r.error.Backend? && StepRaised(o, attempt, r.error.message))
  {
    later, end := c, h;
    var levels := TopologicalLevels(tasks);
    if levels.Failure? {
      return Failure(Invalid(levels.error)), later, end;
    }
    var nodes: Result<seq<TaskResult>, string>;
    nodes, later, end := ExecuteAll(s, o, attempt, goal, tasks, levels.value, reuse, c, h, origin);
    if nodes.Failure? {
      return Failure(Backend(nodes.error)), later, end;
    }
    var reply := o.synthesizer(attempt, nodes.value);
    if reply.Failure? {
      return Failure(Backend(reply.error)), later, end;
    }
    var synthesis := Synthesize(s.optimized, nodes.value, reply.value);
    PlanIsTold(s.optimized, reuse != null, o, attempt, tasks, levels.value, nodes.value, synthesis);
    return Success(Execution(levels.value, nodes.value, synthesis)), later, end;
  }

  // ---------------------------------------------------------------- the service

  /** The reply reports the results a run with the cache has in force. */
  ghost predicate Backed(h: ReplanRuns.Run, r: DagReply) {
    exists levels ::
      && Levelled(h.plan, levels) && r.levels == LevelIds(levels)
      && TakenFrom(h, h.plan, levels, r.taskResults)
  }

  lemma ReplyIsBacked(h: ReplanRuns.Run, e: Execution, r: DagReply)
    requires Levelled(h.plan, e.levels) && TakenFrom(h, h.plan, e.levels, e.results)
    requires r.levels == LevelIds(e.levels) && r.taskResults == e.results
    ensures Backed(h, r)
  {
  }

  /** A run that has not begun is between attempts. */
  lemma FreshIsReady(goal: string, now: real, ttl: real, h: ReplanRuns.Run)
    requires h == ReplanRuns.Initial(goal, now, ttl)
    ensures ReplanRuns.Reached(h) && ReplanRuns.AllSettled(h) && Drawn(h, 0)
  {
    assert ReplanRuns.Leads(ReplanRuns.Initial(goal, now, ttl), [], ReplanRuns.Initial(goal, now, ttl));
  }

  // ---------------------------------------------------------------- why a run fails

  /** Why replanning after attempt `n` fails. */
  ghost predicate ReplanFails(s: Settings, o: Oracles, n: nat, error: ServiceError) {
    match error
    case Backend(m) => o.reviser(n) == Failure(m) || StepRaised(o, n + 1, m)
    case EmptyPlan => o.reviser(n) == Success([])
    case Invalid(e) =>
      && o.reviser(n).Success? && o.reviser(n).value != []
      && (!Acceptable(o.reviser(n).value, s.maxTasks, s.optimized)
          || (e == Cycle && Cyclic(NormalizeAll(o.reviser(n).value))))
    case _ => false
  }

  /** Why the review of attempt `n`, or the replanning after it, fails. */
  ghost predicate AttemptFails(s: Settings, o: Oracles, n: nat, error: ServiceError) {
    || (error.Backend? && o.reviewer(n) == Failure(error.message))
    || (n < MaxAttempts(s) && ReplanFails(s, o, n, error))
  }

  ghost predicate ReviewFails(s: Settings, o: Oracles, error: ServiceError) {
    s.review && exists n :: 1 <= n <= MaxAttempts(s) && AttemptFails(s, o, n, error)
  }

  ghost predicate RunFails(s: Settings, o: Oracles, goal: Option<string>, request: seq<RawTask>, error: ServiceError) {
    || (error == GoalRequired && TextOf(goal) == "")
    || (error.Invalid? && !Acceptable(request, s.maxTasks, s.optimized))
    || TasksFail(s, o, NormalizeAll(request), error)
  }

  /** No model call fails, and every revised plan could be a request. */
  ghost predicate AllAnswer(s: Settings, o: Oracles) {
    && (forall a, id, up :: o.runner(a, id, up).Success?)
    && (forall a, results :: o.synthesizer(a, results).Success?)
    && (forall n :: o.reviewer(n).Success?)
    && (forall n :: o.reviser(n).Success? && Runnable(s, o.reviser(n).value))
  }

  ghost predicate Runnable(s: Settings, plan: seq<RawTask>) {
    Acceptable(plan, s.maxTasks, s.optimized) && !Cyclic(NormalizeAll(plan))
  }

  /** Then a proper request has no reason to fail. */
  lemma NoReasonToFail(s: Settings, o: Oracles, goal: Option<string>, request: seq<RawTask>, error: ServiceError)
    requires AllAnswer(s, o) && TextOf(goal) != "" && Runnable(s, request)
    ensures !RunFails(s, o, goal, request, error)
  {
  }

  // ---------------------------------------------------------------- the run

  /** Why the run of an accepted request fails. */
  ghost predicate TasksFail(s: Settings, o: Oracles, tasks: seq<Task>, error: ServiceError) {
    || (error == Invalid(Cycle) && Cyclic(tasks))
    || (error.Backend? && StepRaised(o, 1, error.message))
    || ReviewFails(s, o, error)
  }

  /** The reply without a review. */
  lemma RepliedAtOnce(s: Settings, o: Oracles, goal: string, tasks: seq<Task>, e: Execution, r: DagReply, cached: bool,
                      h: ReplanRuns.Run, origin: Origin)
    requires !s.review && DistinctIds(tasks) && tasks != [] && ExecutionOk(s.optimized, tasks, e)
    requires ExecutionTold(s.optimized, cached, o, 1, tasks, LevelIds(e.levels), e.results, e.synthesis)
    requires r == ReplyOf(goal, e, [], !s.optimized || e.synthesis.stopReason == "DONE") && tasks == origin.plan
    requires cached ==> h.goal == goal && TakenFrom(h, tasks, e.levels, e.results) && Attempted(o, origin, 1, h)
    ensures Concludes(s, o, goal, Success(r), cached, h, origin)
  {
    UnreviewedReply(s, goal, tasks, e);
    UnreviewedIsTold(s, cached, o, tasks, goal, e);
    if cached {
      ReplyIsBacked(h, e, r);
    }
    TurnReplies(s, o, goal, 1, r, cached, h, origin);
  }

  /** The first attempt of an accepted request. The cache is there whenever an optimized run may replan. */
  method FirstAttempt(s: Settings, o: Oracles, goal: string, tasks: seq<Task>, now: real)
    returns (r: Result<Execution, ServiceError>, reuse: DagResultReuse?, c: Clock, ghost h: ReplanRuns.Run)
    requires DistinctIds(tasks) && tasks != [] && (s.optimized ==> AllDepsKnown(tasks))
    ensures reuse != null ==> fresh(reuse)
    ensures reuse != null <==> s.optimized && s.readOnly
    ensures r.Success? ==>
              && Standing(s, goal, tasks, r.value, reuse, c, h)
              && Produced(s, reuse != null, o, tasks, 1, tasks, r.value)
              && (reuse != null ==> Attempted(o, Origin(tasks, goal, now, s.reuseTtl), 1, h))
    ensures r.Failure? ==>
              (r.error == Invalid(Cycle) && Cyclic(tasks)) || (r.error.Backend? && StepRaised(o, 1, r.error.message))
  {
    h := ReplanRuns.Initial(goal, now, s.reuseTtl);
    reuse := null;
    if s.optimized && s.readOnly {
      reuse := new DagResultReuse(s.reuseTtl);
    }
    c := Clock(now, 0);
    FreshIsReady(goal, now, s.reuseTtl, h);
    ghost var origin := Origin(tasks, goal, now, s.reuseTtl);
    FirstIsDue(o, origin);
    r, c, h := ExecutePlan(s, o, 1, goal, tasks, reuse, c, h, origin);
  }

  /** Execute, review and replan an accepted request until an attempt passes or the replans are used up. */
  method RunTasks(s: Settings, o: Oracles, goal: string, tasks: seq<Task>, now: real)
    returns (r: Result<DagReply, ServiceError>, ghost h: ReplanRuns.Run)
    requires DistinctIds(tasks) && tasks != [] && (s.optimized ==> AllDepsKnown(tasks))
    ensures r.Success? ==>
              && ReplyOk(s, r.value) && r.value.goal == goal
              && ReplyTold(s, s.optimized && s.readOnly, o, tasks, r.value)
    ensures r.Success? && s.optimized && s.readOnly ==>
              && h.goal == goal && Backed(h, r.value)
              && exists n: nat :: Attempted(o, Origin(tasks, goal, now, s.reuseTtl), n, h)
    ensures r.Failure? ==> TasksFail(s, o, tasks, r.error)
  {
    ghost var origin := Origin(tasks, goal, now, s.reuseTtl);
    var executed, reuse, clock, first := FirstAttempt(s, o, goal, tasks, now);
    h := first;
    if executed.Failure? {
      return Failure(executed.error), h;
    }
    if s.review {
      LoopBegins(s, o, goal, tasks, executed.value, reuse, clock, h, origin);
      r, h := Review(s, o, goal, tasks, executed.value, reuse, clock, h, origin);
    } else {
      var reply := ReplyOf(goal, executed.value, [], !s.optimized || executed.value.synthesis.stopReason == "DONE");
      RepliedAtOnce(s, o, goal, tasks, executed.value, reply, reuse != null, h, origin);
      r := Success(reply);
    }
  }

  /** A request is checked before anything runs. */
  method Run(s: Settings, o: Oracles, goal: Option<string>, request: seq<RawTask>, now: real)
    returns (r: Result<DagReply, ServiceError>, ghost h: ReplanRuns.Run)
    requires Permitted(s)
    ensures r.Success? ==> ReplyOk(s, r.value)
    ensures r.Success? ==> ReplyTold(s, s.optimized && s.readOnly, o, NormalizeAll(request), r.value)
    ensures r.Success? && s.optimized && s.readOnly ==> h.goal == r.value.goal && Backed(h, r.value)
    ensures r.Success? ==> r.value.goal == TextOf(goal) != "" && Acceptable(request, s.maxTasks, s.optimized)
    ensures r == Failure(GoalRequired) <==> TextOf(goal) == ""
    ensures TextOf(goal) != "" && !Acceptable(request, s.maxTasks, s.optimized) ==> r.Failure? && r.error.Invalid?
    ensures r.Failure? ==> RunFails(s, o, goal, request, r.error)
    ensures AllAnswer(s, o) && TextOf(goal) != "" && Runnable(s, request) ==> r.Success?
    ensures r.Success? && s.optimized && s.readOnly ==>
              exists n: nat :: Attempted(o, Origin(NormalizeAll(request), r.value.goal, now, s.reuseTtl), n, h)
  {
    var normalizedGoal := TextOf(goal);
    h := ReplanRuns.Initial(normalizedGoal, now, s.reuseTtl);
    if normalizedGoal == "" {
      return Failure(GoalRequired), h;
    }
    var validated := ValidateAndNormalize(request, s.maxTasks, s.optimized);
    if validated.Failure? {
      return Failure(Invalid(validated.error)), h;
    }
    r, h := RunTasks(s, o, normalizedGoal, validated.value, now);
    if r.Failure? && AllAnswer(s, o) && Runnable(s, request) {
      NoReasonToFail(s, o, goal, request, r.error);
    }
  }

  /** A revised plan goes through the same validation as a request. */
  method Revise(s: Settings, o: Oracles, attempt: nat) returns (r: Result<seq<Task>, ServiceError>)
    ensures r.Success? ==>
              && DistinctIds(r.value) && AllNamed(r.value) && 0 < |r.value| <= s.maxTasks
              && (s.optimized ==> AllDepsKnown(r.value))
    ensures r.Failure? ==> ReplanFails(s, o, attempt, r.error)
    ensures r.Success? ==> o.reviser(attempt).Success?
    ensures o.reviser(attempt).Success? ==>
              var plan := o.reviser(attempt).value;
              && (r.Success? <==> plan != [] && Acceptable(plan, s.maxTasks, s.optimized))
              && (r.Success? ==> r.value == NormalizeAll(plan))
  {
    var plan := o.reviser(attempt);
    if plan.Failure? {
      return Failure(Backend(plan.error));
    }
    if plan.value == [] {
      return Failure(EmptyPlan);
    }
    var validated := ValidateAndNormalize(plan.value, s.maxTasks, s.optimized);
    if validated.Failure? {
      return Failure(Invalid(validated.error));
    }
    return Success(validated.value);
  }

  /** Where the review loop stands: the plan, its execution, and the run behind it if there is a cache. */
  ghost predicate Standing(s: Settings, goal: string, tasks: seq<Task>, e: Execution, reuse: DagResultReuse?, c: Clock,
                           h: ReplanRuns.Run)
    reads reuse
  {
    && DistinctIds(tasks) && tasks != [] && ExecutionOk(s.optimized, tasks, e)
    && (reuse != null ==> s.optimized && BetweenAttempts(reuse, goal, c, h) && TakenFrom(h, tasks, e.levels, e.results))
  }

  /** The execution is that of attempt `n` and owes nothing to its models. */
  ghost predicate Produced(s: Settings, cached: bool, o: Oracles, first: seq<Task>, n: nat, tasks: seq<Task>,
                           e: Execution) {
    && tasks == PlanOf(o, first, n)
    && ExecutionTold(s.optimized, cached, o, n, tasks, LevelIds(e.levels), e.results, e.synthesis)
  }

  /** Replanning: a revised plan and its execution. */
  method Replan(s: Settings, o: Oracles, n: nat, goal: string, reuse: DagResultReuse?, c: Clock,
                ghost h: ReplanRuns.Run, ghost origin: Origin)
    returns (r: Result<(seq<Task>, Execution), ServiceError>, later: Clock, ghost end: ReplanRuns.Run)
    requires n > 0 && (reuse != null ==> s.optimized && BetweenAttempts(reuse, goal, c, h))
    requires reuse != null ==> Attempted(o, origin, n, h)
    modifies reuse
    ensures r.Success? ==> Standing(s, goal, r.value.0, r.value.1, reuse, later, end)
    ensures r.Success? && reuse != null ==> Attempted(o, origin, n + 1, end)
    ensures r.Success? ==> Produced(s, reuse != null, o, origin.plan, n + 1, r.value.0, r.value.1)
    ensures r.Failure? ==> ReplanFails(s, o, n, r.error)
  {
    later, end := c, h;
    var revised := Revise(s, o, n);
    if revised.Failure? {
      return Failure(revised.error), later, end;
    }
    if reuse != null {
      NextIsDue(o, origin, n, revised.value, h);
    }
    var executed: Result<Execution, ServiceError>;
    executed, later, end := ExecutePlan(s, o, n + 1, goal, revised.value, reuse, c, h, origin);
    if executed.Failure? {
      return Failure(executed.error), later, end;
    }
    return Success((revised.value, executed.value)), later, end;
  }

  lemma Replied(s: Settings, goal: string, tasks: seq<Task>, e: Execution, before: seq<Attempt>, c: Critique,
                h: ReplanRuns.Run)
    requires s.review && DistinctIds(tasks) && tasks != [] && ExecutionOk(s.optimized, tasks, e)
    requires LoopOk(s, before) && |before| < MaxAttempts(s)
    requires var a := AttemptOf(s, |before| + 1, e, c); Passes(s, a) || |before| + 1 == MaxAttempts(s)
    ensures var a := AttemptOf(s, |before| + 1, e, c);
            ReplyOk(s, ReplyOf(goal, e, before + [a], Passes(s, a)))
    ensures var a := AttemptOf(s, |before| + 1, e, c);
            TakenFrom(h, tasks, e.levels, e.results) ==> Backed(h, ReplyOf(goal, e, before + [a], Passes(s, a)))
  {
    var a := AttemptOf(s, |before| + 1, e, c);
    FinalReply(s, goal, tasks, e, before, c, Passes(s, a));
    if TakenFrom(h, tasks, e.levels, e.results) {
      ReplyIsBacked(h, e, ReplyOf(goal, e, before + [a], Passes(s, a)));
    }
  }

  /** What a review leads to: the reply that ends the loop, or another attempt. */
  datatype Verdict = Final(reply: DagReply) | Retry(attempt: Attempt)

  /** Reviewing the execution of attempt `n`. The reviewer is asked unless an optimized attempt has already
      failed, and what it says is what the attempt records. */
  method Judge(s: Settings, o: Oracles, goal: string, tasks: seq<Task>, e: Execution, before: seq<Attempt>, n: nat,
               ghost cached: bool, ghost first: seq<Task>, ghost h: ReplanRuns.Run)
    returns (r: Result<Verdict, string>)
    requires s.review && DistinctIds(tasks) && tasks != [] && ExecutionOk(s.optimized, tasks, e)
    requires LoopOk(s, before) && |before| + 1 == n <= MaxAttempts(s)
    requires Produced(s, cached, o, first, n, tasks, e) && AttemptsTold(s, cached, o, first, before)
    ensures r.Failure? <==>
            o.reviewer(n).Failure? && !(s.optimized && !(AllEndedDone(e.results) && e.synthesis.stopReason == "DONE"))
    ensures r.Failure? ==> o.reviewer(n) == Failure(r.error)
    ensures r.Success? && r.value.Final? ==>
              && ReplyOk(s, r.value.reply) && r.value.reply.goal == goal
              && ReplyTold(s, cached, o, first, r.value.reply)
              && (TakenFrom(h, tasks, e.levels, e.results) ==> Backed(h, r.value.reply))
    ensures r.Success? && r.value.Retry? ==>
              && LoopOk(s, before + [r.value.attempt]) && n < MaxAttempts(s)
              && AttemptsTold(s, cached, o, first, before + [r.value.attempt])
  {
    var critique := CritiqueOf(s, e, o.reviewer(n));
    assert AllDone(e.results) <==> AllEndedDone(e.results);
    if critique.Failure? {
      return Failure(critique.error);
    }
    var a := AttemptOf(s, n, e, critique.value);
    ReviewedIsTold(s, cached, o, first, n, e, critique.value);
    OneMoreTold(s, cached, o, first, before, n, a);
    if Passes(s, a) || n == MaxAttempts(s) {
      Replied(s, goal, tasks, e, before, critique.value, h);
      FinalIsTold(s, cached, o, first, goal, before, e, a, Passes(s, a));
      return Success(Final(ReplyOf(goal, e, before + [a], Passes(s, a))));
    }
    AttemptIsBetween(s, n, e, critique.value);
    FailedAttempt(s, before, a);
    return Success(Retry(a));
  }

  /** Where the review loop is before its next review: the attempts before failed it, and the run behind
      the current execution is that of all attempts so far. */
  ghost predicate InLoop(s: Settings, o: Oracles, goal: string, tasks: seq<Task>, e: Execution, before: seq<Attempt>,
                         n: nat, reuse: DagResultReuse?, c: Clock, h: ReplanRuns.Run, origin: Origin)
    reads reuse
  {
    var ok :=
      && Standing(s, goal, tasks, e, reuse, c, h)
      && LoopOk(s, before) && |before| + 1 == n <= MaxAttempts(s)
      && (reuse != null ==> Attempted(o, origin, n, h))
      && Produced(s, reuse != null, o, origin.plan, n, tasks, e)
      && AttemptsTold(s, reuse != null, o, origin.plan, before);
    ok
  }

  lemma LoopBegins(s: Settings, o: Oracles, goal: string, tasks: seq<Task>, e: Execution, reuse: DagResultReuse?,
                   c: Clock, h: ReplanRuns.Run, origin: Origin)
    requires Standing(s, goal, tasks, e, reuse, c, h) && Produced(s, reuse != null, o, origin.plan, 1, tasks, e)
    requires reuse != null ==> Attempted(o, origin, 1, h)
    ensures InLoop(s, o, goal, tasks, e, [], 1, reuse, c, h, origin)
  {
  }

  /** What the loop ends with: a reply that keeps its promises and, with the cache, reports what the run
      of all attempts has in force; or the error of a step of some attempt. */
  ghost predicate Concludes(s: Settings, o: Oracles, goal: string, r: Result<DagReply, ServiceError>, cached: bool,
                            h: ReplanRuns.Run, origin: Origin) {
    var ok :=
      match r
      case Success(reply) =>
        && ReplyOk(s, reply) && reply.goal == goal && ReplyTold(s, cached, o, origin.plan, reply)
        && (cached ==> h.goal == goal && Backed(h, reply) && exists n: nat :: Attempted(o, origin, n, h))
      case Failure(error) => ReviewFails(s, o, error);
    ok
  }

  datatype Turn = Done(result: Result<DagReply, ServiceError>) | Again(attempt: Attempt, tasks: seq<Task>, e: Execution)

  lemma TurnFails(s: Settings, o: Oracles, goal: string, n: nat, error: ServiceError, cached: bool, h: ReplanRuns.Run,
                  origin: Origin)
    requires s.review && 1 <= n <= MaxAttempts(s) && AttemptFails(s, o, n, error)
    ensures Concludes(s, o, goal, Failure(error), cached, h, origin)
  {
  }

  lemma TurnReplies(s: Settings, o: Oracles, goal: string, n: nat, r: DagReply, cached: bool, h: ReplanRuns.Run,
                    origin: Origin)
    requires ReplyOk(s, r) && r.goal == goal && ReplyTold(s, cached, o, origin.plan, r)
    requires cached ==> h.goal == goal && Backed(h, r) && Attempted(o, origin, n, h)
    ensures Concludes(s, o, goal, Success(r), cached, h, origin)
  {
  }

  /** The attempt failed its review: another one follows. */
  method TryAgain(s: Settings, o: Oracles, goal: string, before: seq<Attempt>, a: Attempt, n: nat,
                  reuse: DagResultReuse?, c: Clock, ghost h: ReplanRuns.Run, ghost origin: Origin)
    returns (turn: Turn, later: Clock, ghost end: ReplanRuns.Run)
    requires s.review && LoopOk(s, before + [a]) && |before| + 1 == n < MaxAttempts(s)
    requires AttemptsTold(s, reuse != null, o, origin.plan, before + [a])
    requires reuse != null ==>
               s.optimized && BetweenAttempts(reuse, goal, c, h) && Attempted(o, origin, n, h)
    modifies reuse
    ensures turn.Done? ==> Concludes(s, o, goal, turn.result, reuse != null, end, origin)
    ensures turn.Again? ==>
              InLoop(s, o, goal, turn.tasks, turn.e, before + [turn.attempt], n + 1, reuse, later, end, origin)
  {
    var replanned: Result<(seq<Task>, Execution), ServiceError>;
    replanned, later, end := Replan(s, o, n, goal, reuse, c, h, origin);
    if replanned.Failure? {
      TurnFails(s, o, goal, n, replanned.error, reuse != null, end, origin);
      return Done(Failure(replanned.error)), later, end;
    }
    return Again(a, replanned.value.0, replanned.value.1), later, end;
  }

  /** One turn of the loop: review, and replan if the attempt fails it. */
  method ReviewOnce(s: Settings, o: Oracles, goal: string, tasks: seq<Task>, e: Execution, before: seq<Attempt>,
                    n: nat, reuse: DagResultReuse?, c: Clock, ghost h: ReplanRuns.Run, ghost origin: Origin)
    returns (turn: Turn, later: Clock, ghost end: ReplanRuns.Run)
    requires s.review && InLoop(s, o, goal, tasks, e, before, n, reuse, c, h, origin)
    modifies reuse
    ensures turn.Done? ==> Concludes(s, o, goal, turn.result, reuse != null, end, origin)
    ensures turn.Again? ==>
              InLoop(s, o, goal, turn.tasks, turn.e, before + [turn.attempt], n + 1, reuse, later, end, origin)
  {
    later, end := c, h;
    var verdict := Judge(s, o, goal, tasks, e, before, n, reuse != null, origin.plan, h);
    if verdict.Failure? {
      TurnFails(s, o, goal, n, Backend(verdict.error), reuse != null, end, origin);
      turn := Done(Failure(Backend(verdict.error)));
    } else if verdict.value.Final? {
      TurnReplies(s, o, goal, n, verdict.value.reply, reuse != null, end, origin);
      turn := Done(Success(verdict.value.reply));
    } else {
      turn, later, end := TryAgain(s, o, goal, before, verdict.value.attempt, n, reuse, c, h, origin);
    }
  }

  /** The review loop. */
  method Review(s: Settings, o: Oracles, goal: string, request: seq<Task>, first: Execution, reuse: DagResultReuse?,
                c: Clock, ghost start: ReplanRuns.Run, ghost origin: Origin)
    returns (r: Result<DagReply, ServiceError>, ghost h: ReplanRuns.Run)
    requires s.review && InLoop(s, o, goal, request, first, [], 1, reuse, c, start, origin)
    modifies reuse
    ensures Concludes(s, o, goal, r, reuse != null, h, origin)
  {
    var tasks, execution, clock := request, first, c;
    h := start;
    var n := 1;
    var attempts: seq<Attempt> := [];
    while true
      invariant InLoop(s, o, goal, tasks, execution, attempts, n, reuse, clock, h, origin)
      decreases MaxAttempts(s) - n
    {
      var turn: Turn;
      turn, clock, h := ReviewOnce(s, o, goal, tasks, execution, attempts, n, reuse, clock, h, origin);
      if turn.Done? {
        return turn.result, h;
      }
      tasks, execution, attempts, n := turn.tasks, turn.e, attempts + [turn.attempt], n + 1;
    }
  }

  // ---------------------------------------------------------------- the cache does not show

  /** At every attempt the runner's replies for that attempt's plan are those of one worker, whose answers
      depend on the task and its upstream results alone. */
  ghost predicate Steady(worker: CacheTransparency.Answering, o: Oracles, first: seq<Task>) {
    forall n: nat {:trigger PlanOf(o, first, n)} :: n > 0 ==> Agrees(worker, RunnerOf(o, n), PlanOf(o, first, n))
  }

  lemma {:induction false} SteadyAttempts(worker: CacheTransparency.Answering, o: Oracles, first: seq<Task>,
                                          hs: seq<ReplanRuns.Run>, n: nat)
    requires Steady(worker, o, first) && n < |hs| && Attempts(o, first, hs)
    requires CacheTransparency.ReachedBy(worker, hs[0])
    ensures CacheTransparency.ReachedBy(worker, hs[n])
  {
    if n > 0 {
      SteadyAttempts(worker, o, first, hs, n - 1);
      assert ByAttempt(o, first, hs, n);
      var before, plan := hs[n - 1], PlanOf(o, first, n);
      var start := ReplanRuns.Planned(before, plan);
      CacheTransparency.ReachedByNext(worker, before, ReplanRuns.Attempt(plan), start);
      AgreementIsKept(worker, RunnerOf(o, n), start, hs[n]);
    }
  }

  /** The results of a plan executed level by level, without a cache, in level order. */
  ghost predicate Uncached(worker: CacheTransparency.Answering, plan: seq<Task>, levels: seq<seq<Task>>,
                           results: seq<TaskResult>) {
    var run := RunLevels(levels, CacheTransparency.Uncached(worker, plan));
    && run.Success? && (forall t :: t in FlatTasks(levels) ==> t.id in run.value)
    && results == Pick(FlatTasks(levels), run.value)
  }

  lemma TakenIsUncached(worker: CacheTransparency.Answering, h: ReplanRuns.Run, levels: seq<seq<Task>>,
                        results: seq<TaskResult>)
    requires CacheTransparency.ReachedBy(worker, h) && Levelled(h.plan, levels) && TakenFrom(h, h.plan, levels, results)
    ensures Uncached(worker, h.plan, levels, results)
  {
    forall i | 0 <= i < |h.plan|
      ensures h.plan[i].id in h.results
    {
      var k := LevelOfTask(h.plan, levels, h.plan[i]);
      FlatMember(levels, h.plan[i]);
    }
    CacheTransparency.CacheIsTransparent(worker, h, levels);
  }

  /** Whatever was reused over all attempts of a run, its reply reports what executing the last plan
      without a cache gives. */
  lemma ReplyIsUncached(worker: CacheTransparency.Answering, o: Oracles, first: seq<Task>, goal: string, now: real,
                        ttl: real, n: nat, h: ReplanRuns.Run, r: DagReply)
    requires Steady(worker, o, first) && Backed(h, r)
    requires Attempted(o, Origin(first, goal, now, ttl), n, h)
    ensures exists levels ::
              && Levelled(h.plan, levels) && r.levels == LevelIds(levels)
              && Uncached(worker, h.plan, levels, r.taskResults)
  {
    var start := ReplanRuns.Initial(goal, now, ttl);
    assert CacheTransparency.LeadsBy(worker, start, [], start);
    var hs :| AttemptsLead(o, Origin(first, goal, now, ttl), hs, n, h);
    SteadyAttempts(worker, o, first, hs, n);
    var levels :|
      Levelled(h.plan, levels) && r.levels == LevelIds(levels) && TakenFrom(h, h.plan, levels, r.taskResults);
    TakenIsUncached(worker, h, levels, r.taskResults);
  }
}
