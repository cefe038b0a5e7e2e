/** Executions of a plan and the review loop over them, whoever produced the executions: a plain run,
    a run with the replan cache, or a session over a durable checkpoint. */
module ReviewLoop {
  import opened DagTypes
  import opened TaskGraph
  import opened DagReply

  /** `readOnly`: all allowed tools are read-only, which turns the replan cache on. */
  datatype Settings = Settings(
    optimized: bool, readOnly: bool, review: bool, maxTasks: nat, maxReplans: int, threshold: real,
    weights: Weights, reuseTtl: real)

  /** The service refuses to replan with tools that may write. */
  predicate Permitted(s: Settings) {
    s.optimized && s.review ==> s.readOnly
  }

  // ---------------------------------------------------------------- one attempt

  /** In optimized mode a failed upstream skips the task; otherwise the runner's reply is reported. */
  function RunOne(optimized: bool, t: Task, up: map<string, TaskResult>,
                  reply: Result<Reply, string>): Result<TaskResult, string> {
    if optimized && exists d :: d in t.dependsOn && d !in up then Failure("KeyError")
    else if optimized && UpstreamFailed(t, up) then Success(SkippedResult(t))
    else
      match reply
      case Failure(e) => Failure(e)
      case Success(x) => Success(TaskResult(t.id, t.description, t.dependsOn, x))
  }

  /** What one attempt produced: levels, results in level order, and the synthesis. */
  datatype Execution = Execution(levels: seq<seq<Task>>, results: seq<TaskResult>, synthesis: Reply)

  /** A node that ended DONE has only DONE dependencies among the results. */
  ghost predicate FailureClosed(results: seq<TaskResult>) {
    forall i, j :: 0 <= i < |results| && 0 <= j < |results| ==>
      (results[j].taskId in results[i].dependsOn && Succeeded(results[i]) ==> Succeeded(results[j]))
  }

  ghost predicate ExecutionOk(optimized: bool, tasks: seq<Task>, e: Execution) {
    && Levelled(tasks, e.levels) && ResultsFit(e.levels, e.results)
    && (optimized ==> FailureClosed(e.results) && (e.synthesis.stopReason == "DONE" <==> AllDone(e.results)))
  }

  /** `[results[task_id] for task_id in tasks]`, tasks in level order. */
  function Pick(flat: seq<Task>, m: map<string, TaskResult>): seq<TaskResult>
    requires forall t :: t in flat ==> t.id in m
  {
    seq(|flat|, i requires 0 <= i < |flat| => m[flat[i].id])
  }

  lemma FlatTasksAreTasks(tasks: seq<Task>, levels: seq<seq<Task>>, t: Task)
    requires Levelled(tasks, levels) && t in FlatTasks(levels)
    ensures t in tasks
  {
    FlatMember(levels, t);
    var k :| 0 <= k < |levels| && t in levels[k];
    AtDepthMembers(tasks, tasks, k, t);
  }

  // ---------------------------------------------------------------- review

  /** A failed node or an incomplete synthesis scores zero before any model is asked. */
  function CritiqueOf(s: Settings, e: Execution, reviewed: Result<Critique, string>): Result<Critique, string> {
    if s.optimized && !(AllDone(e.results) && e.synthesis.stopReason == "DONE") then
      Success(Critique(0.0, 0.0, 0.0, "Required tasks did not succeed"))
    else reviewed
  }

  function AttemptOf(s: Settings, n: nat, e: Execution, c: Critique): Attempt {
    Attempt(n, LevelIds(e.levels), e.results, e.synthesis, Some(c), Some(Aggregate(c, s.weights)))
  }

  /** The acceptance test of the review loop. */
  predicate Passes(s: Settings, a: Attempt) {
    && a.aggregate.Some? && a.aggregate.value >= s.threshold
    && (!s.optimized || a.synthesis.stopReason == "DONE")
  }

  function MaxAttempts(s: Settings): nat {
    if s.maxReplans > 0 then s.maxReplans + 1 else 1
  }

  function ReplyOf(goal: string, e: Execution, attempts: seq<Attempt>, accepted: bool): DagReply {
    DagReply(goal, LevelIds(e.levels), e.results, e.synthesis, attempts, accepted)
  }

  /** What a reply promises: its topology and attempts pass the shadow checks, it is accepted exactly
      if its last attempt passes, no earlier attempt passed, and in optimized mode acceptance means
      that every node ended DONE. */
  ghost predicate ReplyOk(s: Settings, r: DagReply) {
    && (|r.taskResults| <= 6 ==> ValidTopology(r))
    && (s.optimized ==> FailureClosed(r.taskResults) && (r.synthesis.stopReason == "DONE" <==> AllDone(r.taskResults)))
    && (s.optimized && r.accepted ==> AllDone(r.taskResults))
    && (!s.review ==> r.attempts == [] && (r.accepted <==> !s.optimized || AllDone(r.taskResults)))
    && (s.review ==>
          && AttemptsValid(r) && |r.attempts| <= MaxAttempts(s)
          && (r.accepted <==> Passes(s, r.attempts[|r.attempts| - 1]))
          && (forall i :: 0 <= i < |r.attempts| - 1 ==> !Passes(s, r.attempts[i]))
          && (r.accepted || |r.attempts| == MaxAttempts(s))
          && forall i :: 0 <= i < |r.attempts| ==> AttemptBetween(r.attempts[i]))
  }

  ghost predicate AttemptBetween(a: Attempt) {
    a.critique.Some? && a.aggregate.Some? && Least(a.critique.value) <= a.aggregate.value <= Greatest(a.critique.value)
  }

  /** Attempts recorded so far in the review loop. */
  ghost predicate LoopOk(s: Settings, attempts: seq<Attempt>) {
    forall i :: 0 <= i < |attempts| ==>
      AttemptOk(attempts[i], i + 1) && AttemptBetween(attempts[i]) && !Passes(s, attempts[i])
  }

  lemma UnreviewedReply(s: Settings, goal: string, tasks: seq<Task>, e: Execution)
    requires !s.review && DistinctIds(tasks) && tasks != [] && ExecutionOk(s.optimized, tasks, e)
    ensures ReplyOk(s, ReplyOf(goal, e, [], !s.optimized || e.synthesis.stopReason == "DONE"))
  {
    var r := ReplyOf(goal, e, [], !s.optimized || e.synthesis.stopReason == "DONE");
    if |r.taskResults| <= 6 {
      LevelledResultsAreValid(tasks, e.levels, r);
    }
  }

  lemma FinalReply(s: Settings, goal: string, tasks: seq<Task>, e: Execution, before: seq<Attempt>, c: Critique,
                   accepted: bool)
    requires s.review && DistinctIds(tasks) && tasks != [] && ExecutionOk(s.optimized, tasks, e) && LoopOk(s, before)
    requires |before| < MaxAttempts(s)
    requires accepted <==> Passes(s, AttemptOf(s, |before| + 1, e, c))
    requires accepted || |before| + 1 == MaxAttempts(s)
    ensures ReplyOk(s, ReplyOf(goal, e, before + [AttemptOf(s, |before| + 1, e, c)], accepted))
  {
    var last := AttemptOf(s, |before| + 1, e, c);
    var r := ReplyOf(goal, e, before + [last], accepted);
    if |r.taskResults| <= 6 {
      LevelledResultsAreValid(tasks, e.levels, r);
    }
    AttemptsJoin(s, before, e, c);
    assert r.attempts[|r.attempts| - 1] == last;
  }

  lemma AttemptsJoin(s: Settings, before: seq<Attempt>, e: Execution, c: Critique)
    requires LoopOk(s, before)
    ensures var all := before + [AttemptOf(s, |before| + 1, e, c)];
            && (forall i :: 0 <= i < |all| ==> AttemptOk(all[i], i + 1))
            && (forall i :: 0 <= i < |all| ==> AttemptBetween(all[i]))
            && (forall i :: 0 <= i < |all| - 1 ==> !Passes(s, all[i]))
  {
    var all := before + [AttemptOf(s, |before| + 1, e, c)];
    AggregateIsBetween(c, s.weights);
    forall i | 0 <= i < |all|
      ensures AttemptOk(all[i], i + 1) && AttemptBetween(all[i]) && (i < |all| - 1 ==> !Passes(s, all[i]))
    {
      assert i < |before| ==> all[i] == before[i];
    }
  }

  lemma AttemptIsBetween(s: Settings, n: nat, e: Execution, c: Critique)
    ensures AttemptOk(AttemptOf(s, n, e, c), n) && AttemptBetween(AttemptOf(s, n, e, c))
  {
    AggregateIsBetween(c, s.weights);
  }

  lemma FailedAttempt(s: Settings, before: seq<Attempt>, a: Attempt)
    requires LoopOk(s, before) && AttemptOk(a, |before| + 1) && AttemptBetween(a) && !Passes(s, a)
    ensures LoopOk(s, before + [a])
  {
    var all := before + [a];
    forall i | 0 <= i < |all|
      ensures AttemptOk(all[i], i + 1) && AttemptBetween(all[i]) && !Passes(s, all[i])
    {
      assert i < |before| ==> all[i] == before[i];
    }
  }

  // ---------------------------------------------------------------- the loop as a history

  /** An attempt of the loop: the plan, what its execution produced, and the critique. */
  datatype Round = Round(tasks: seq<Task>, execution: Execution, critique: Critique)

  ghost predicate RoundOk(s: Settings, r: Round) {
    DistinctIds(r.tasks) && r.tasks != [] && ExecutionOk(s.optimized, r.tasks, r.execution)
  }

  function AttemptOfRound(s: Settings, rounds: seq<Round>, i: nat): Attempt
    requires i < |rounds|
  {
    AttemptOf(s, i + 1, rounds[i].execution, rounds[i].critique)
  }

  function AttemptsOf(s: Settings, rounds: seq<Round>): seq<Attempt> {
    seq(|rounds|, i requires 0 <= i < |rounds| => AttemptOfRound(s, rounds, i))
  }

  /** The loop stops at the first attempt that passes, or when the replans are used up. */
  predicate Stops(s: Settings, rounds: seq<Round>) {
    && 1 <= |rounds| <= MaxAttempts(s)
    && (forall i :: 0 <= i < |rounds| - 1 ==> !Passes(s, AttemptOfRound(s, rounds, i)))
    && (Passes(s, AttemptOfRound(s, rounds, |rounds| - 1)) || |rounds| == MaxAttempts(s))
  }

  ghost predicate Reviewed(s: Settings, rounds: seq<Round>) {
    Stops(s, rounds) && forall i :: 0 <= i < |rounds| ==> RoundOk(s, rounds[i])
  }

  function ReviewedReply(s: Settings, goal: string, rounds: seq<Round>): DagReply
    requires rounds != []
  {
    var n := |rounds| - 1;
    ReplyOf(goal, rounds[n].execution, AttemptsOf(s, rounds), Passes(s, AttemptOfRound(s, rounds, n)))
  }

  lemma EarlierAttempts(s: Settings, rounds: seq<Round>, before: seq<Attempt>)
    requires Reviewed(s, rounds) && before == AttemptsOf(s, rounds)[..|rounds| - 1]
    ensures LoopOk(s, before)
  {
    forall i | 0 <= i < |before|
      ensures AttemptOk(before[i], i + 1) && AttemptBetween(before[i]) && !Passes(s, before[i])
    {
      assert before[i] == AttemptOfRound(s, rounds, i);
      AttemptIsBetween(s, i + 1, rounds[i].execution, rounds[i].critique);
    }
  }

  lemma LastRound(s: Settings, goal: string, before: seq<Attempt>, r: Round)
    requires s.review && RoundOk(s, r) && LoopOk(s, before) && |before| < MaxAttempts(s)
    requires Passes(s, AttemptOf(s, |before| + 1, r.execution, r.critique)) || |before| + 1 == MaxAttempts(s)
    ensures var a := AttemptOf(s, |before| + 1, r.execution, r.critique);
            ReplyOk(s, ReplyOf(goal, r.execution, before + [a], Passes(s, a)))
  {
    FinalReply(s, goal, r.tasks, r.execution, before, r.critique,
               Passes(s, AttemptOf(s, |before| + 1, r.execution, r.critique)));
  }

  lemma AttemptsSplit(s: Settings, rounds: seq<Round>, before: seq<Attempt>)
    requires rounds != [] && before == AttemptsOf(s, rounds)[..|rounds| - 1]
    ensures AttemptsOf(s, rounds) == before + [AttemptOfRound(s, rounds, |rounds| - 1)]
  {
  }

  /** Any such history yields a reply that keeps all promises, wherever its executions come from. */
  lemma ReviewedReplyOk(s: Settings, goal: string, rounds: seq<Round>)
    requires s.review && Reviewed(s, rounds)
    ensures ReplyOk(s, ReviewedReply(s, goal, rounds))
  {
    var n := |rounds| - 1;
    var before := AttemptsOf(s, rounds)[..n];
    EarlierAttempts(s, rounds, before);
    AttemptsSplit(s, rounds, before);
    LastRound(s, goal, before, rounds[n]);
  }
}
