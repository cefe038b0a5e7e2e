/** Optimized execution with the replan cache: the scheduler loop over the cache object, one attempt
    after another, as a run of module ReplanRuns; and what its results promise. */
module CachedExecution {
  import opened DagTypes
  import opened TaskGraph
  import opened ResultReuse
  import opened DagReply
  import opened ReviewLoop
  import CacheTransparency
  import ReplanRuns
  import Scheduler

  // ---------------------------------------------------------------- what a finished attempt promises

  lemma SettledTask(r: ReplanRuns.Run, t: Task)
    requires ReplanRuns.Reached(r) && ReplanRuns.AllSettled(r) && t in r.plan
    ensures t.id in r.results && r.results[t.id].taskId == t.id && r.results[t.id].dependsOn == t.dependsOn
    ensures forall d :: d in t.dependsOn ==> d in r.results
    ensures Succeeded(r.results[t.id]) ==> forall d :: d in t.dependsOn ==> Succeeded(r.results[d])
  {
    var i :| 0 <= i < |r.plan| && r.plan[i] == t;
    ReplanRuns.ResultsComeFromResultsInForce(r, i);
    forall d | d in t.dependsOn
      ensures d in r.results && (Succeeded(r.results[t.id]) ==> Succeeded(r.results[d]))
    {
      ReplanRuns.FailureReachesDependents(r, i, d);
    }
  }

  /** The results of an attempt, reused or computed, in level order: one per task, and closed under
      failure. */
  lemma AttemptFits(r: ReplanRuns.Run, levels: seq<seq<Task>>)
    requires ReplanRuns.Reached(r) && ReplanRuns.AllSettled(r) && Levelled(r.plan, levels)
    ensures forall t :: t in FlatTasks(levels) ==> t.id in r.results
    ensures ResultsFit(levels, Pick(FlatTasks(levels), r.results))
    ensures FailureClosed(Pick(FlatTasks(levels), r.results))
  {
    var flat := FlatTasks(levels);
    forall t | t in flat
      ensures t in r.plan && t.id in r.results
    {
      FlatTasksAreTasks(r.plan, levels, t);
      SettledTask(r, t);
    }
    var results := Pick(flat, r.results);
    forall i | 0 <= i < |results|
      ensures results[i].taskId == flat[i].id && results[i].dependsOn == flat[i].dependsOn
      ensures Succeeded(results[i]) ==> forall d :: d in flat[i].dependsOn ==> d in r.results && Succeeded(r.results[d])
    {
      assert flat[i] in flat;
      SettledTask(r, flat[i]);
    }
  }

  // ---------------------------------------------------------------- the loop

  type Runner = (string, map<string, TaskResult>) -> Result<Reply, string>

  /** A worker ends with what its runner's reply makes of its task; nothing else starts an attempt. */
  ghost predicate AnsweredBy(runner: Runner, r: ReplanRuns.Run, e: ReplanRuns.Event)
    requires ReplanRuns.Enabled(r, e)
  {
    && !e.Attempt?
    && (e.Finish? ==>
          var t := r.plan[e.index];
          var up := r.running[t.id].upstream;
          RunOne(true, t, up, runner(t.id, up)) == Success(e.result))
  }

  /** Inside one attempt, `run` leads from `r` to `s` with the replies of `runner`. */
  ghost predicate LeadsWith(runner: Runner, r: ReplanRuns.Run, run: seq<ReplanRuns.Event>, s: ReplanRuns.Run)
    decreases |run|
  {
    if run == [] then r == s
    else
      && ReplanRuns.Enabled(r, run[0]) && AnsweredBy(runner, r, run[0])
      && LeadsWith(runner, ReplanRuns.Do(r, run[0]), run[1..], s)
  }

  ghost predicate Continues(runner: Runner, r: ReplanRuns.Run, s: ReplanRuns.Run) {
    exists run :: LeadsWith(runner, r, run, s)
  }

  lemma ContinuesAtOnce(runner: Runner, r: ReplanRuns.Run)
    ensures Continues(runner, r, r)
  {
    assert LeadsWith(runner, r, [], r);
  }

  lemma {:induction false} LeadsWithOneMore(runner: Runner, r: ReplanRuns.Run, run: seq<ReplanRuns.Event>,
                                            s: ReplanRuns.Run, e: ReplanRuns.Event)
    requires LeadsWith(runner, r, run, s) && ReplanRuns.Enabled(s, e) && AnsweredBy(runner, s, e)
    ensures LeadsWith(runner, r, run + [e], ReplanRuns.Do(s, e))
    decreases |run|
  {
    if run == [] {
      assert LeadsWith(runner, ReplanRuns.Do(s, e), [e][1..], ReplanRuns.Do(s, e));
    } else {
      LeadsWithOneMore(runner, ReplanRuns.Do(r, run[0]), run[1..], s, e);
      assert (run + [e])[1..] == run[1..] + [e];
    }
  }

  lemma ContinuesOn(runner: Runner, r: ReplanRuns.Run, s: ReplanRuns.Run, e: ReplanRuns.Event, u: ReplanRuns.Run)
    requires Continues(runner, r, s) && ReplanRuns.Enabled(s, e) && AnsweredBy(runner, s, e)
    requires u == ReplanRuns.Do(s, e)
    ensures Continues(runner, r, u)
  {
    var run :| LeadsWith(runner, r, run, s);
    LeadsWithOneMore(runner, r, run, s, e);
    assert LeadsWith(runner, r, run + [e], u);
  }

  /** On the tasks of the plan the runner's replies make what the worker answers, if they make anything. */
  ghost predicate Agrees(worker: CacheTransparency.Answering, runner: Runner, plan: seq<Task>) {
    forall t, up {:trigger worker(t, up)} :: t in plan && RunOne(true, t, up, runner(t.id, up)).Success? ==>
      worker(t, up) == RunOne(true, t, up, runner(t.id, up)).value
  }

  lemma {:induction false} LeadsWithAgreement(worker: CacheTransparency.Answering, runner: Runner, r: ReplanRuns.Run,
                                              run: seq<ReplanRuns.Event>, s: ReplanRuns.Run)
    requires LeadsWith(runner, r, run, s) && Agrees(worker, runner, r.plan) && CacheTransparency.ReachedBy(worker, r)
    ensures CacheTransparency.ReachedBy(worker, s)
    decreases |run|
  {
    if run != [] {
      var u := ReplanRuns.Do(r, run[0]);
      CacheTransparency.ReachedByNext(worker, r, run[0], u);
      LeadsWithAgreement(worker, runner, u, run[1..], s);
    }
  }

  /** A runner that answers as the worker does keeps the whole run one of that worker's. */
  lemma AgreementIsKept(worker: CacheTransparency.Answering, runner: Runner, r: ReplanRuns.Run, s: ReplanRuns.Run)
    requires Continues(runner, r, s) && Agrees(worker, runner, r.plan) && CacheTransparency.ReachedBy(worker, r)
    ensures CacheTransparency.ReachedBy(worker, s)
  {
    var run :| LeadsWith(runner, r, run, s);
    LeadsWithAgreement(worker, runner, r, run, s);
  }

  /** The error is the runner's, for a node that was running with its upstream results. */
  ghost predicate RaisedBy(runner: Runner, r: ReplanRuns.Run, error: string) {
    exists id :: id in r.running && runner(id, r.running[id].upstream) == Failure(error)
  }

  /** The supply of versions: the next one is longer than all before. */
  function NextVersion(drawn: nat): (v: Version)
    ensures |v| == drawn
  {
    seq(drawn, _ => 'v')
  }

  ghost predicate Drawn(r: ReplanRuns.Run, drawn: nat) {
    forall v :: v in r.history ==> |v| < drawn
  }

  predicate CanBegin(t: Task, results: map<string, TaskResult>, running: map<string, ReplanRuns.Work>) {
    t.id !in results && t.id !in running && forall d :: d in t.dependsOn ==> d in results
  }

  predicate CanMove(t: Task, results: map<string, TaskResult>, running: map<string, ReplanRuns.Work>) {
    t.id in running || CanBegin(t, results, running)
  }

  /** Following unfinished dependencies downwards ends at a node whose dependencies are all finished. */
  lemma {:induction false} LowestUnsettled(plan: seq<Task>, rank: map<string, nat>, results: map<string, TaskResult>,
                                           k: nat)
    returns (i: nat)
    requires Scheduler.Ranked(Scheduler.NodesOf(plan), rank) && k < |plan| && plan[k].id !in results
    ensures i < |plan| && plan[i].id !in results && forall d :: d in plan[i].dependsOn ==> d in results
    decreases rank[Scheduler.NodesOf(plan)[k].id]
  {
    var nodes := Scheduler.NodesOf(plan);
    if d :| d in plan[k].dependsOn && d !in results {
      assert d in nodes[k].upstream;
      var j :| 0 <= j < |nodes| && nodes[j].id == d;
      i := LowestUnsettled(plan, rank, results, j);
    } else {
      i := k;
    }
  }

  lemma SomeUnsettled(r: ReplanRuns.Run) returns (k: nat)
    requires ReplanRuns.Inv(r) && |r.results| < |r.plan|
    ensures k < |r.plan| && r.plan[k].id !in r.results
  {
    DistinctIdsCount(r.plan);
    assert |r.results.Keys| == |r.results|;
    if Ids(r.plan) <= r.results.Keys {
      SubsetSize(Ids(r.plan), r.results.Keys);
    }
    var id :| id in Ids(r.plan) && id !in r.results;
    k :| 0 <= k < |r.plan| && r.plan[k].id == id;
  }

  /** As long as a node has no result, one is running or can begin. */
  lemma SomeNodeCanMove(r: ReplanRuns.Run, levels: seq<seq<Task>>)
    requires ReplanRuns.Inv(r) && AllDepsKnown(r.plan) && Levelled(r.plan, levels) && |r.results| < |r.plan|
    ensures exists i :: 0 <= i < |r.plan| && CanMove(r.plan[i], r.results, r.running)
  {
    var rank := Scheduler.LevelsRank(r.plan, levels);
    var k := SomeUnsettled(r);
    var i := LowestUnsettled(r.plan, rank, r.results, k);
    assert CanMove(r.plan[i], r.results, r.running);
  }

  lemma SettledWhenFull(r: ReplanRuns.Run)
    requires ReplanRuns.Inv(r) && |r.results| >= |r.plan|
    ensures ReplanRuns.AllSettled(r) && r.running == map[]
  {
    DistinctIdsCount(r.plan);
    assert |r.results.Keys| == |r.results|;
    SubsetSize(r.results.Keys, Ids(r.plan));
    forall i | 0 <= i < |r.plan|
      ensures r.plan[i].id in r.results
    {
      assert r.plan[i].id in Ids(r.plan);
    }
    forall id | id in Ids(r.plan)
      ensures id !in r.running
    {
      var i :| 0 <= i < |r.plan| && r.plan[i].id == id;
      assert ReplanRuns.NodeOk(r, i);
    }
  }

  lemma CountsAreBounded(r: ReplanRuns.Run)
    requires ReplanRuns.Inv(r)
    ensures |r.results| <= |r.plan| && |r.running| <= |r.plan|
  {
    DistinctIdsCount(r.plan);
    assert |r.results.Keys| == |r.results| && |r.running.Keys| == |r.running|;
    SubsetIsSmaller(r.results.Keys, Ids(r.plan));
    SubsetIsSmaller(r.running.Keys, Ids(r.plan));
  }

  lemma SubsetIsSmaller(a: set<string>, b: set<string>)
    requires a <= b
    ensures |a| <= |b|
  {
    assert b == a + (b - a);
  }

  /** The loop's variables. */
  datatype Progress = Progress(
    results: map<string, TaskResult>, versions: map<string, Version>, running: map<string, ReplanRuns.Work>)

  /** The loop's variables, the clock, the cache and the versions drawn are those of a run. */
  ghost predicate Follows(r: ReplanRuns.Run, goal: string, tasks: seq<Task>, now: real, drawn: nat, cache: Cache,
                          p: Progress) {
    && ReplanRuns.Reached(r) && Drawn(r, drawn)
    && r.goal == goal && r.plan == tasks && r.now == now && r.cache == cache
    && r.results == p.results && r.versions == p.versions && r.running == p.running
  }

  /** A running node's reply is one its worker may return. */
  lemma FinishIsEnabled(r: ReplanRuns.Run, i: nat, reply: Result<Reply, string>, x: TaskResult, v: Version)
    requires ReplanRuns.Inv(r) && i < |r.plan| && r.plan[i].id in r.running && v !in r.history
    requires RunOne(true, r.plan[i], r.running[r.plan[i].id].upstream, reply) == Success(x)
    ensures ReplanRuns.Enabled(r, ReplanRuns.Finish(i, x, v))
  {
    assert ReplanRuns.NodeOk(r, i);
  }

  lemma RunningHasUpstream(r: ReplanRuns.Run, i: nat)
    requires ReplanRuns.Reached(r) && i < |r.plan| && r.plan[i].id in r.running
    ensures forall d :: d in r.plan[i].dependsOn ==> d in r.running[r.plan[i].id].upstream
  {
    ReplanRuns.ReachedIsOk(r);
    assert ReplanRuns.NodeOk(r, i);
  }

  lemma BeginIsEnabled(r: ReplanRuns.Run, i: nat)
    requires ReplanRuns.Inv(r) && i < |r.plan| && CanBegin(r.plan[i], r.results, r.running)
    ensures ReplanRuns.Enabled(r, ReplanRuns.Begin(i))
    ensures forall d :: d in r.plan[i].dependsOn ==> d in r.versions
  {
  }

  lemma SizeAfter<V>(m: map<string, V>, id: string, x: V)
    requires id !in m
    ensures |m[id := x]| == |m| + 1
  {
    assert m[id := x].Keys == m.Keys + {id};
    assert |m[id := x]| == |m[id := x].Keys| && |m| == |m.Keys|;
  }

  /** A node starts: its result comes from the cache, or its worker begins. */
  method BeginNode(i: nat, tasks: seq<Task>, goal: string, reuse: DagResultReuse, now: real, drawn: nat, p: Progress,
                   ghost r: ReplanRuns.Run) returns (q: Progress, ghost end: ReplanRuns.Run)
    requires reuse.Valid() && Follows(r, goal, tasks, now, drawn, reuse.View(), p)
    requires i < |tasks| && CanBegin(tasks[i], p.results, p.running)
    ensures Follows(end, goal, tasks, now, drawn, reuse.View(), q)
    ensures ReplanRuns.Enabled(r, ReplanRuns.Begin(i)) && end == ReplanRuns.Do(r, ReplanRuns.Begin(i))
    ensures var t := tasks[i];
            && (forall d :: d in t.dependsOn ==> d in p.versions)
            && var input := ReplanRuns.InputOf(goal, t, p.versions);
            match Lookup(reuse.View(), t.id, input, now)
            case Some((x, version)) =>
              q == p.(results := p.results[t.id := x], versions := p.versions[t.id := version])
            case None =>
              q == p.(running := p.running[t.id := ReplanRuns.Work(input, ReplanRuns.UpstreamOf(t, p.results))])
    ensures || (|q.results| == |p.results| + 1 && q.running == p.running)
            || (q.results == p.results && |q.running| == |p.running| + 1)
  {
    ReplanRuns.ReachedIsOk(r);
    BeginIsEnabled(r, i);
    end := ReplanRuns.Begun(r, i);
    ReplanRuns.ReachedNext(r, ReplanRuns.Begin(i), end);
    var t := tasks[i];
    var input := ReplanRuns.InputOf(goal, t, p.versions);
    var cached := reuse.Get(t.id, input, now);
    match cached {
      case Some((x, version)) =>
        SizeAfter(p.results, t.id, x);
        q := p.(results := p.results[t.id := x], versions := p.versions[t.id := version]);
      case None =>
        SizeAfter(p.running, t.id, ReplanRuns.Work(input, ReplanRuns.UpstreamOf(t, p.results)));
        q := p.(running := p.running[t.id := ReplanRuns.Work(input, ReplanRuns.UpstreamOf(t, p.results))]);
    }
  }

  /** A worker ends: its result is recorded under a new version. */
  method FinishNode(i: nat, tasks: seq<Task>, goal: string, reuse: DagResultReuse, now: real, drawn: nat, p: Progress,
                    reply: Result<Reply, string>, x: TaskResult, ghost r: ReplanRuns.Run)
    returns (q: Progress, ghost end: ReplanRuns.Run)
    requires reuse.Valid() && Follows(r, goal, tasks, now, drawn, reuse.View(), p)
    requires i < |tasks| && tasks[i].id in p.running
    requires RunOne(true, tasks[i], p.running[tasks[i].id].upstream, reply) == Success(x)
    modifies reuse
    ensures reuse.Valid() && Follows(end, goal, tasks, now, drawn + 1, reuse.View(), q)
    ensures var e := ReplanRuns.Finish(i, x, NextVersion(drawn));
            ReplanRuns.Enabled(r, e) && end == ReplanRuns.Do(r, e)
    ensures reuse.View() ==
              Recorded(old(reuse.View()), tasks[i].id, p.running[tasks[i].id].input, x, NextVersion(drawn), now)
    ensures q.results == p.results[tasks[i].id := x] && q.running == p.running - {tasks[i].id}
    ensures |q.results| == |p.results| + 1
  {
    ReplanRuns.ReachedIsOk(r);
    var t := tasks[i];
    var version := NextVersion(drawn);
    FinishIsEnabled(r, i, reply, x, version);
    end := ReplanRuns.Do(r, ReplanRuns.Finish(i, x, version));
    ReplanRuns.ReachedNext(r, ReplanRuns.Finish(i, x, version), end);
    assert t.id !in p.results by { assert ReplanRuns.NodeOk(r, i); }
    SizeAfter(p.results, t.id, x);
    reuse.Record(t.id, p.running[t.id].input, x, version, now);
    q := Progress(p.results[t.id := x], p.versions[t.id := version], p.running - {t.id});
  }

  lemma TimePasses(r: ReplanRuns.Run, goal: string, tasks: seq<Task>, now: real, drawn: nat, cache: Cache, p: Progress,
                   elapsed: real)
    requires Follows(r, goal, tasks, now, drawn, cache, p) && elapsed >= 0.0
    ensures Follows(ReplanRuns.Do(r, ReplanRuns.Wait(elapsed)), goal, tasks, now + elapsed, drawn, cache, p)
  {
    ReplanRuns.ReachedNext(r, ReplanRuns.Wait(elapsed), ReplanRuns.Do(r, ReplanRuns.Wait(elapsed)));
  }

  lemma AttemptBegins(r: ReplanRuns.Run, goal: string, tasks: seq<Task>, now: real, drawn: nat, cache: Cache)
    requires ReplanRuns.Reached(r) && ReplanRuns.Enabled(r, ReplanRuns.Attempt(tasks)) && Drawn(r, drawn)
    requires r.goal == goal && r.now == now && r.cache == cache
    ensures Follows(ReplanRuns.Planned(r, tasks), goal, tasks, now, drawn, cache,
                    Progress(map[], map[], map[]))
  {
    ReplanRuns.ReachedNext(r, ReplanRuns.Attempt(tasks), ReplanRuns.Planned(r, tasks));
  }

  lemma Bounded(r: ReplanRuns.Run, goal: string, tasks: seq<Task>, now: real, drawn: nat, cache: Cache, p: Progress)
    requires Follows(r, goal, tasks, now, drawn, cache, p)
    ensures |p.results| <= |tasks| && |p.running| <= |tasks|
    ensures |p.results| == |tasks| ==> ReplanRuns.AllSettled(r) && p.running == map[]
  {
    ReplanRuns.ReachedIsOk(r);
    CountsAreBounded(r);
    if |p.results| == |tasks| {
      SettledWhenFull(r);
    }
  }

  lemma CanMoveOn(r: ReplanRuns.Run, levels: seq<seq<Task>>, goal: string, tasks: seq<Task>, now: real, drawn: nat,
                  cache: Cache, p: Progress)
    requires Follows(r, goal, tasks, now, drawn, cache, p)
    requires AllDepsKnown(tasks) && Levelled(tasks, levels) && |p.results| < |tasks|
    ensures exists i :: 0 <= i < |tasks| && CanMove(tasks[i], p.results, p.running)
  {
    ReplanRuns.ReachedIsOk(r);
    SomeNodeCanMove(r, levels);
  }

  /** A node that can move begins or ends; an error of the runner moves nothing. */
  method MoveNode(runner: Runner, i: nat, tasks: seq<Task>, goal: string, reuse: DagResultReuse, now: real,
                  drawn: nat, p: Progress, ghost start: ReplanRuns.Run, ghost r: ReplanRuns.Run)
    returns (error: Option<string>, q: Progress, next: nat, ghost end: ReplanRuns.Run)
    requires reuse.Valid() && Follows(r, goal, tasks, now, drawn, reuse.View(), p) && Continues(runner, start, r)
    requires i < |tasks| && CanMove(tasks[i], p.results, p.running)
    modifies reuse
    ensures reuse.Valid() && Continues(runner, start, end)
    ensures error.Some? ==> end == r && RaisedBy(runner, end, error.value)
    ensures error.None? ==>
              && Follows(end, goal, tasks, now, next, reuse.View(), q)
              && (|q.results| == |p.results| + 1 || (q.results == p.results && |q.running| == |p.running| + 1))
  {
    error, q, next, end := None, p, drawn, r;
    if tasks[i].id in p.running {
      var upstream := p.running[tasks[i].id].upstream;
      var reply := runner(tasks[i].id, upstream);
      var x := RunOne(true, tasks[i], upstream, reply);
      if x.Failure? {
        RunningHasUpstream(r, i);
        return Some(x.error), p, drawn, r;
      }
      q, end := FinishNode(i, tasks, goal, reuse, now, drawn, p, reply, x.value, r);
      next := drawn + 1;
      ContinuesOn(runner, start, r, ReplanRuns.Finish(i, x.value, NextVersion(drawn)), end);
    } else {
      q, end := BeginNode(i, tasks, goal, reuse, now, drawn, p, r);
      ContinuesOn(runner, start, r, ReplanRuns.Begin(i), end);
    }
  }

  /** One attempt: whichever node can move, moves, and time passes in between, until all have results.
      A runner error ends the attempt; work still running is cancelled. */
  method RunReady(runner: Runner, tasks: seq<Task>, levels: seq<seq<Task>>, goal: string, reuse: DagResultReuse,
                  now: real, drawn: nat, ghost r: ReplanRuns.Run)
    returns (outcome: Result<map<string, TaskResult>, string>, later: real, next: nat, ghost end: ReplanRuns.Run)
    requires AllDepsKnown(tasks) && Levelled(tasks, levels)
    requires reuse.Valid() && ReplanRuns.Reached(r) && ReplanRuns.Enabled(r, ReplanRuns.Attempt(tasks))
    requires Drawn(r, drawn)
    requires r.goal == goal && r.now == now && r.cache == reuse.View()
    modifies reuse
    ensures reuse.Valid()
    ensures Continues(runner, ReplanRuns.Planned(r, tasks), end)
    ensures outcome.Failure? ==> RaisedBy(runner, end, outcome.error)
    ensures outcome.Success? ==>
              && ReplanRuns.AllSettled(end) && end.results == outcome.value
              && Follows(end, goal, tasks, later, next, reuse.View(), Progress(outcome.value, end.versions, map[]))
  {
    var p := Progress(map[], map[], map[]);
    ghost var start := ReplanRuns.Planned(r, tasks);
    later, next, end := now, drawn, start;
    ContinuesAtOnce(runner, start);
    AttemptBegins(r, goal, tasks, now, drawn, reuse.View());
    Bounded(end, goal, tasks, later, next, reuse.View(), p);
    while |p.results| < |tasks|
      invariant reuse.Valid() && Follows(end, goal, tasks, later, next, reuse.View(), p)
      invariant |p.results| <= |tasks| && |p.running| <= |tasks|
      invariant Continues(runner, start, end)
      decreases |tasks| - |p.results|, |tasks| - |p.running|
    {
      var elapsed: real := *;
      if elapsed > 0.0 {
        TimePasses(end, goal, tasks, later, next, reuse.View(), p, elapsed);
        ContinuesOn(runner, start, end, ReplanRuns.Wait(elapsed), ReplanRuns.Do(end, ReplanRuns.Wait(elapsed)));
        later, end := later + elapsed, ReplanRuns.Do(end, ReplanRuns.Wait(elapsed));
      }
      CanMoveOn(end, levels, goal, tasks, later, next, reuse.View(), p);
      var i: nat :| i < |tasks| && CanMove(tasks[i], p.results, p.running);
      var error: Option<string>;
      error, p, next, end := MoveNode(runner, i, tasks, goal, reuse, later, next, p, start, end);
      if error.Some? {
        return Failure(error.value), later, next, end;
      }
      Bounded(end, goal, tasks, later, next, reuse.View(), p);
    }
    Bounded(end, goal, tasks, later, next, reuse.View(), p);
    return Success(p.results), later, next, end;
  }
}
