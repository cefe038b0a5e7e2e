/** What replies owe to the models: every result, synthesis and critique a reply reports is the one the
    runner, the synthesizer or the reviewer of that attempt gave. */
module ModelAnswers {
  import opened DagTypes
  import opened TaskGraph
  import opened DagReply
  import opened ReviewLoop

  /** The model calls of a run, indexed by the attempt they belong to. */
  datatype Oracles = Oracles(
    runner: (nat, string, map<string, TaskResult>) -> Result<Reply, string>,
    synthesizer: (nat, seq<TaskResult>) -> Result<Reply, string>,
    reviewer: nat -> Result<Critique, string>,
    reviser: nat -> Result<seq<RawTask>, string>)

  /** The plan of an attempt: the request's, or the one the reviser gave after the attempt before. */
  function PlanOf(o: Oracles, first: seq<Task>, attempt: nat): seq<Task> {
    if attempt <= 1 then first
    else
      match o.reviser(attempt - 1)
      case Failure(_) => []
      case Success(plan) => NormalizeAll(plan)
  }

  // ---------------------------------------------------------------- results

  /** `up` holds exactly the results reported for the dependencies of `x`. */
  ghost predicate Upstream(results: seq<TaskResult>, x: TaskResult, up: map<string, TaskResult>) {
    && (forall d :: d in up <==> d in x.dependsOn && exists j :: 0 <= j < |results| && results[j].taskId == d)
    && (forall j :: 0 <= j < |results| && results[j].taskId in up ==> up[results[j].taskId] == results[j])
  }

  /** Some dependency did not end DONE. */
  ghost predicate Blocked(up: map<string, TaskResult>) {
    exists d :: d in up && up[d].reply.stopReason != "DONE"
  }

  /** The runner of attempt `k` gave this reply for that task and those upstream results. */
  ghost predicate RunnerSaid(o: Oracles, k: nat, x: TaskResult, up: map<string, TaskResult>) {
    o.runner(k, x.taskId, up) == Success(x.reply)
  }

  /** An earlier attempt's runner said so, and the result was fit to be used again: it ended DONE and used
      no tool but the two for evidence. */
  ghost predicate SaidBefore(o: Oracles, n: nat, x: TaskResult, up: map<string, TaskResult>) {
    && (exists k: nat :: 1 <= k < n && RunnerSaid(o, k, x, up))
    && x.reply.stopReason == "DONE"
    && forall i :: 0 <= i < |x.reply.actions| ==> x.reply.actions[i] in {"", "rag_search", "schema_explore"}
  }

  const SKIPPED := Reply("Required upstream task did not succeed.", "SKIPPED", [])

  /** The result is the runner's answer to the upstream results; an optimized run skips a task with an
      upstream that did not end DONE, and with the cache an earlier answer may stand. */
  ghost predicate Answered(optimized: bool, cached: bool, o: Oracles, n: nat, x: TaskResult,
                           up: map<string, TaskResult>) {
    if optimized && Blocked(up) then x.reply == SKIPPED
    else RunnerSaid(o, n, x, up) || (cached && SaidBefore(o, n, x, up))
  }

  ghost predicate ResultTold(optimized: bool, cached: bool, o: Oracles, n: nat, results: seq<TaskResult>, i: nat)
    requires i < |results|
  {
    exists up :: Upstream(results, results[i], up) && Answered(optimized, cached, o, n, results[i], up)
  }

  /** A result for each task of the plan, with its identity, and none besides. */
  ghost predicate OnePerTask(tasks: seq<Task>, results: seq<TaskResult>) {
    && |results| == |tasks|
    && forall t :: t in tasks ==> exists i :: 0 <= i < |results| && ResultOf(results[i], t)
  }

  predicate ResultOf(x: TaskResult, t: Task) {
    x.taskId == t.id && x.description == t.description && x.dependsOn == t.dependsOn
  }

  /** The results of attempt `n` for its plan are what the runner said. */
  ghost predicate ResultsTold(optimized: bool, cached: bool, o: Oracles, n: nat, tasks: seq<Task>,
                              results: seq<TaskResult>) {
    && OnePerTask(tasks, results)
    && forall i {:trigger ResultTold(optimized, cached, o, n, results, i)} :: 0 <= i < |results| ==>
         ResultTold(optimized, cached, o, n, results, i)
  }

  // ---------------------------------------------------------------- synthesis and review

  predicate AllEndedDone(results: seq<TaskResult>) {
    forall i :: 0 <= i < |results| ==> results[i].reply.stopReason == "DONE"
  }

  /** The synthesis is the synthesizer's; an optimized run takes its answer and decides the stop reason by
      the results. */
  ghost predicate SynthesisTold(optimized: bool, o: Oracles, n: nat, results: seq<TaskResult>, synthesis: Reply) {
    && o.synthesizer(n, results).Success?
    && var said := o.synthesizer(n, results).value;
    if optimized then synthesis == Reply(said.answer, if AllEndedDone(results) then "DONE" else "PARTIAL", [])
    else synthesis == said
  }

  /** The critique is the reviewer's, except that an optimized run scores zero, without asking, an attempt
      with a result or a synthesis that did not end DONE; the aggregate is the mean of its scores. */
  ghost predicate CritiqueTold(s: Settings, o: Oracles, n: nat, a: Attempt) {
    && a.critique.Some? && a.aggregate.Some?
    && var c := a.critique.value;
    && (if s.optimized && !(AllEndedDone(a.taskResults) && a.synthesis.stopReason == "DONE") then
          c.correctness == 0.0 && c.completeness == 0.0 && c.clarity == 0.0
        else o.reviewer(n) == Success(c))
    && IsMean(a.aggregate.value, c, s.weights)
  }

  /** The identifiers in levels are those of the plan's levels, and the results follow them. */
  ghost predicate InLevels(tasks: seq<Task>, ids: seq<seq<string>>, results: seq<TaskResult>) {
    exists levels :: Levelled(tasks, levels) && ids == LevelIds(levels) && ResultsFit(levels, results)
  }

  /** What one execution of a plan owes to the models. */
  ghost predicate ExecutionTold(optimized: bool, cached: bool, o: Oracles, n: nat, tasks: seq<Task>,
                                levels: seq<seq<string>>, results: seq<TaskResult>, synthesis: Reply) {
    && InLevels(tasks, levels, results)
    && ResultsTold(optimized, cached, o, n, tasks, results) && SynthesisTold(optimized, o, n, results, synthesis)
  }

  ghost predicate AttemptTold(s: Settings, cached: bool, o: Oracles, first: seq<Task>, n: nat, a: Attempt) {
    && a.n == n
    && ExecutionTold(s.optimized, cached, o, n, PlanOf(o, first, n), a.levels, a.taskResults, a.synthesis)
    && CritiqueTold(s, o, n, a)
  }

  ghost predicate AttemptsTold(s: Settings, cached: bool, o: Oracles, first: seq<Task>, attempts: seq<Attempt>) {
    forall i {:trigger AttemptToldAt(s, cached, o, first, attempts, i)} :: 0 <= i < |attempts| ==>
      AttemptToldAt(s, cached, o, first, attempts, i)
  }

  ghost predicate AttemptToldAt(s: Settings, cached: bool, o: Oracles, first: seq<Task>, attempts: seq<Attempt>, i: nat)
    requires i < |attempts|
  {
    AttemptTold(s, cached, o, first, i + 1, attempts[i])
  }

  /** An attempt is good enough: its aggregate reaches the threshold and, in optimized mode, its synthesis
      ended DONE. */
  predicate GoodEnough(s: Settings, a: Attempt) {
    a.aggregate.Some? && s.threshold <= a.aggregate.value && (s.optimized ==> a.synthesis.stopReason == "DONE")
  }

  /** What a whole reply owes to the models. Without review it reports the first attempt, accepted unless an
      optimized synthesis is not DONE. With review it reports its last attempt, the first good enough one,
      or the last of those there may be. */
  ghost predicate ReplyTold(s: Settings, cached: bool, o: Oracles, first: seq<Task>, r: DagReply) {
    if s.review then
      && AttemptsTold(s, cached, o, first, r.attempts)
      && 1 <= |r.attempts| <= 1 + (if s.maxReplans > 0 then s.maxReplans else 0)
      && var last := r.attempts[|r.attempts| - 1];
      && r.levels == last.levels && r.taskResults == last.taskResults && r.synthesis == last.synthesis
      && (forall i :: 0 <= i < |r.attempts| - 1 ==> !GoodEnough(s, r.attempts[i]))
      && (r.accepted <==> GoodEnough(s, last))
      && (!r.accepted ==> |r.attempts| == 1 + (if s.maxReplans > 0 then s.maxReplans else 0))
    else
      && r.attempts == []
      && ExecutionTold(s.optimized, cached, o, 1, first, r.levels, r.taskResults, r.synthesis)
      && (r.accepted <==> (s.optimized ==> r.synthesis.stopReason == "DONE"))
  }

  // ---------------------------------------------------------------- what establishes it

  /** Results picked in level order from a map: each keeps its own upstream. */
  lemma PickedUpstream(tasks: seq<Task>, levels: seq<seq<Task>>, m: map<string, TaskResult>, t: Task,
                       up: map<string, TaskResult>)
    requires DistinctIds(tasks) && Levelled(tasks, levels) && m.Keys == Ids(tasks) && t in tasks
    requires forall u :: u in FlatTasks(levels) ==> u.id in m && m[u.id].taskId == u.id
    requires m[t.id].dependsOn == t.dependsOn
    requires up.Keys == KnownDeps(tasks, t) && forall d :: d in up ==> d in m && up[d] == m[d]
    ensures Upstream(Pick(FlatTasks(levels), m), m[t.id], up)
  {
    var flat, results := FlatTasks(levels), Pick(FlatTasks(levels), m);
    forall j | 0 <= j < |results|
      ensures results[j] == m[flat[j].id] && results[j].taskId == flat[j].id && flat[j] in tasks
    {
      assert flat[j] in flat;
      FlatTasksAreTasks(tasks, levels, flat[j]);
    }
    forall d
      ensures d in up <==> d in t.dependsOn && exists j :: 0 <= j < |results| && results[j].taskId == d
    {
      if d in up {
        var i :| 0 <= i < |tasks| && tasks[i].id == d;
        var j := PlaceOf(tasks, levels, tasks[i]);
        assert results[j].taskId == d;
      }
      if d in t.dependsOn && exists j :: 0 <= j < |results| && results[j].taskId == d {
        var j :| 0 <= j < |results| && results[j].taskId == d;
        var i :| 0 <= i < |tasks| && tasks[i] == flat[j];
        var h :| 0 <= h < |t.dependsOn| && t.dependsOn[h] == d;
        assert tasks[i].id == d;
      }
    }
  }

  lemma PlaceOf(tasks: seq<Task>, levels: seq<seq<Task>>, t: Task) returns (j: nat)
    requires Levelled(tasks, levels) && t in tasks
    ensures j < |FlatTasks(levels)| && FlatTasks(levels)[j] == t
  {
    var k := LevelOfTask(tasks, levels, t);
    FlatMember(levels, t);
    j :| 0 <= j < |FlatTasks(levels)| && FlatTasks(levels)[j] == t;
  }

  /** The tasks in level order are those of the plan, each once. */
  lemma FlatSize(tasks: seq<Task>, levels: seq<seq<Task>>)
    requires DistinctIds(tasks) && Levelled(tasks, levels)
    ensures |FlatTasks(levels)| == |tasks|
  {
    var flat := FlatTasks(levels);
    assert levels[..|levels|] == levels;
    FlatDistinct(tasks, levels, |levels|);
    DistinctIdsCount(flat);
    DistinctIdsCount(tasks);
    forall id
      ensures id in Ids(flat) <==> id in Ids(tasks)
    {
      if i :| 0 <= i < |flat| && flat[i].id == id {
        assert flat[i] in flat;
        FlatTasksAreTasks(tasks, levels, flat[i]);
        var k :| 0 <= k < |tasks| && tasks[k] == flat[i];
      }
      if i :| 0 <= i < |tasks| && tasks[i].id == id {
        var j := PlaceOf(tasks, levels, tasks[i]);
      }
    }
    assert Ids(flat) == Ids(tasks);
  }

  /** What is needed of each task for the picked results to be told. */
  ghost predicate TaskTold(optimized: bool, cached: bool, o: Oracles, n: nat, tasks: seq<Task>,
                           m: map<string, TaskResult>, t: Task) {
    && t.id in m && ResultOf(m[t.id], t)
    && exists up :: KeepsKnown(tasks, m, t, up) && Answered(optimized, cached, o, n, m[t.id], up)
  }

  ghost predicate KeepsKnown(tasks: seq<Task>, m: map<string, TaskResult>, t: Task, up: map<string, TaskResult>) {
    up.Keys == KnownDeps(tasks, t) && forall d :: d in up ==> d in m && up[d] == m[d]
  }

  lemma PickedAreTold(optimized: bool, cached: bool, o: Oracles, n: nat, tasks: seq<Task>, levels: seq<seq<Task>>,
                      m: map<string, TaskResult>)
    requires DistinctIds(tasks) && Levelled(tasks, levels) && m.Keys == Ids(tasks)
    requires forall t :: t in tasks ==> TaskTold(optimized, cached, o, n, tasks, m, t)
    ensures forall t :: t in FlatTasks(levels) ==> t.id in m
    ensures ResultsTold(optimized, cached, o, n, tasks, Pick(FlatTasks(levels), m))
  {
    var flat := FlatTasks(levels);
    forall t | t in flat
      ensures t in tasks && t.id in m && m[t.id].taskId == t.id
    {
      FlatTasksAreTasks(tasks, levels, t);
      assert TaskTold(optimized, cached, o, n, tasks, m, t);
    }
    var results := Pick(flat, m);
    FlatSize(tasks, levels);
    forall i: nat | i < |results|
      ensures ResultTold(optimized, cached, o, n, results, i)
    {
      var t := flat[i];
      assert t in flat;
      assert TaskTold(optimized, cached, o, n, tasks, m, t);
      var up :| KeepsKnown(tasks, m, t, up) && Answered(optimized, cached, o, n, m[t.id], up);
      PickedUpstream(tasks, levels, m, t, up);
      assert Upstream(results, results[i], up) && Answered(optimized, cached, o, n, results[i], up);
    }
    forall t | t in tasks
      ensures exists i :: 0 <= i < |results| && ResultOf(results[i], t)
    {
      assert TaskTold(optimized, cached, o, n, tasks, m, t);
      var j := PlaceOf(tasks, levels, t);
      assert ResultOf(results[j], t);
    }
  }

  /** What `RunOne` makes of a reply. */
  lemma RunOneAnswers(optimized: bool, o: Oracles, n: nat, t: Task, up: map<string, TaskResult>, x: TaskResult)
    requires RunOne(optimized, t, up, o.runner(n, t.id, up)) == Success(x)
    requires up.Keys <= (set d | d in t.dependsOn)
    ensures ResultOf(x, t) && Answered(optimized, false, o, n, x, up)
  {
    if optimized {
      if d :| d in up && up[d].reply.stopReason != "DONE" {
        var k :| 0 <= k < |t.dependsOn| && t.dependsOn[k] == d;
        assert UpstreamFailed(t, up);
      }
    }
  }

  /** A reviewed execution becomes an attempt that owes nothing. */
  lemma ReviewedIsTold(s: Settings, cached: bool, o: Oracles, first: seq<Task>, n: nat, e: Execution, c: Critique)
    requires ExecutionTold(s.optimized, cached, o, n, PlanOf(o, first, n), LevelIds(e.levels), e.results, e.synthesis)
    requires CritiqueOf(s, e, o.reviewer(n)) == Success(c)
    ensures AttemptTold(s, cached, o, first, n, AttemptOf(s, n, e, c))
  {
    AggregateIsMean(c, s.weights);
    assert AllDone(e.results) <==> AllEndedDone(e.results);
  }

  lemma OneMoreTold(s: Settings, cached: bool, o: Oracles, first: seq<Task>, before: seq<Attempt>, n: nat, a: Attempt)
    requires AttemptsTold(s, cached, o, first, before) && n == |before| + 1 && AttemptTold(s, cached, o, first, n, a)
    ensures AttemptsTold(s, cached, o, first, before + [a])
  {
    var all := before + [a];
    forall i | 0 <= i < |all|
      ensures AttemptToldAt(s, cached, o, first, all, i)
    {
      if i < |before| {
        assert AttemptToldAt(s, cached, o, first, before, i);
        assert all[i] == before[i];
      } else {
        assert all[i] == a && i + 1 == n;
      }
    }
  }

  /** The reply that ends the review loop. */
  lemma FinalIsTold(s: Settings, cached: bool, o: Oracles, first: seq<Task>, goal: string, before: seq<Attempt>,
                    e: Execution, a: Attempt, accepted: bool)
    requires s.review && AttemptsTold(s, cached, o, first, before + [a]) && LoopOk(s, before)
    requires |before| < MaxAttempts(s) && (accepted <==> Passes(s, a)) && (accepted || |before| + 1 == MaxAttempts(s))
    requires a.levels == LevelIds(e.levels) && a.taskResults == e.results && a.synthesis == e.synthesis
    ensures ReplyTold(s, cached, o, first, ReplyOf(goal, e, before + [a], accepted))
  {
    var all := before + [a];
    assert all[|all| - 1] == a;
    forall i | 0 <= i < |all| - 1
      ensures !GoodEnough(s, all[i])
    {
      assert all[i] == before[i];
    }
  }

  /** The reply without a review. */
  lemma UnreviewedIsTold(s: Settings, cached: bool, o: Oracles, first: seq<Task>, goal: string, e: Execution)
    requires !s.review
    requires ExecutionTold(s.optimized, cached, o, 1, first, LevelIds(e.levels), e.results, e.synthesis)
    ensures ReplyTold(s, cached, o, first, ReplyOf(goal, e, [], !s.optimized || e.synthesis.stopReason == "DONE"))
  {
  }
}
