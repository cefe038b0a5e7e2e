/** The replan cache does not show in the results: with workers whose answers depend on their task and
    its upstream results alone, an attempt that reuses results ends as one that computes them all. */
module CacheTransparency {
  import opened DagTypes
  import opened ReplanRuns
  import opened ResultReuse
  import opened Scheduler
  import opened TaskGraph

  /** The result a worker gives for its task and upstream results. */
  type Answering = (Task, map<string, TaskResult>) -> TaskResult

  ghost predicate AnswersAs(worker: Answering, r: Run, e: ReplanRuns.Event)
    requires ReplanRuns.Enabled(r, e)
  {
    e.Finish? ==> e.result == worker(r.plan[e.index], r.running[r.plan[e.index].id].upstream)
  }

  /** A run whose workers answer as `worker` does. */
  ghost predicate LeadsBy(worker: Answering, r: Run, run: seq<ReplanRuns.Event>, s: Run)
    decreases |run|
  {
    if run == [] then r == s
    else ReplanRuns.Enabled(r, run[0]) && AnswersAs(worker, r, run[0]) && LeadsBy(worker, Do(r, run[0]), run[1..], s)
  }

  ghost predicate ReachedBy(worker: Answering, r: Run) {
    exists now, ttl, run :: LeadsBy(worker, Initial(r.goal, now, ttl), run, r)
  }

  lemma {:induction false} LeadsByOneMore(worker: Answering, r: Run, run: seq<ReplanRuns.Event>, s: Run,
                                          e: ReplanRuns.Event)
    requires LeadsBy(worker, r, run, s) && ReplanRuns.Enabled(s, e) && AnswersAs(worker, s, e)
    ensures LeadsBy(worker, r, run + [e], Do(s, e))
    decreases |run|
  {
    if run == [] {
      assert LeadsBy(worker, Do(s, e), [e][1..], Do(s, e));
    } else {
      LeadsByOneMore(worker, Do(r, run[0]), run[1..], s, e);
      assert (run + [e])[1..] == run[1..] + [e];
    }
  }

  lemma ReachedByNext(worker: Answering, r: Run, e: ReplanRuns.Event, s: Run)
    requires ReachedBy(worker, r) && ReplanRuns.Enabled(r, e) && AnswersAs(worker, r, e) && s == Do(r, e)
    ensures ReachedBy(worker, s)
  {
    var now, ttl, run :| LeadsBy(worker, Initial(r.goal, now, ttl), run, r);
    LeadsByOneMore(worker, Initial(r.goal, now, ttl), run, r, e);
    assert LeadsBy(worker, Initial(s.goal, now, ttl), run + [e], s);
  }

  // ---------------------------------------------------------------- what executions are

  function TaskOf(input: Input): Task {
    Task(input.taskId, input.description, NamesOf(input))
  }

  /** An execution was given exactly the dependencies its input names, and answered as the worker does. */
  ghost predicate WorkedOut(worker: Answering, x: Execution) {
    x.upstream.Keys == (set d | d in NamesOf(x.input)) && x.result == worker(TaskOf(x.input), x.upstream)
  }

  ghost predicate AllWorkedOut(worker: Answering, r: Run) {
    && AllDepsKnown(r.plan)
    && forall v {:trigger WorkedOut(worker, r.history[v])} :: v in r.history ==> WorkedOut(worker, r.history[v])
  }

  lemma FinishWorksOut(worker: Answering, r: Run, i: nat, x: TaskResult, v: Version, s: Run)
    requires ReplanRuns.Inv(r) && ReplanRuns.Enabled(r, Finish(i, x, v)) && AnswersAs(worker, r, Finish(i, x, v))
    requires s == Do(r, Finish(i, x, v))
    ensures WorkedOut(worker, s.history[v])
  {
    var t := r.plan[i];
    assert NodeOk(r, i);
    var work := r.running[t.id];
    assert NamesOf(work.input) == t.dependsOn;
    assert TaskOf(work.input) == t;
  }

  lemma EventKeepsWorkedOut(worker: Answering, r: Run, e: ReplanRuns.Event, s: Run)
    requires ReplanRuns.Inv(r) && ReplanRuns.Enabled(r, e) && AnswersAs(worker, r, e) && s == Do(r, e)
    requires AllWorkedOut(worker, r)
    ensures AllWorkedOut(worker, s)
  {
    if e.Finish? {
      FinishWorksOut(worker, r, e.index, e.result, e.version, s);
      forall v | v in s.history
        ensures WorkedOut(worker, s.history[v])
      {
        assert v != e.version ==> WorkedOut(worker, r.history[v]);
      }
    } else {
      assert s.history == r.history;
    }
  }

  lemma {:induction false} RunKeepsWorkedOut(worker: Answering, r: Run, run: seq<ReplanRuns.Event>, s: Run)
    requires ReplanRuns.Inv(r) && AllWorkedOut(worker, r) && LeadsBy(worker, r, run, s)
    ensures ReplanRuns.Inv(s) && AllWorkedOut(worker, s)
    decreases |run|
  {
    if run != [] {
      ReplanRuns.EventKeepsInv(r, run[0]);
      EventKeepsWorkedOut(worker, r, run[0], Do(r, run[0]));
      RunKeepsWorkedOut(worker, Do(r, run[0]), run[1..], s);
    }
  }

  lemma ReachedIsWorkedOut(worker: Answering, r: Run)
    requires ReachedBy(worker, r)
    ensures ReplanRuns.Inv(r) && AllWorkedOut(worker, r)
  {
    var now, ttl, run :| LeadsBy(worker, Initial(r.goal, now, ttl), run, r);
    RunKeepsWorkedOut(worker, Initial(r.goal, now, ttl), run, r);
  }

  // ---------------------------------------------------------------- transparency

  /** A result in force, reused or computed, is what the worker gives for the results in force. */
  lemma InForceIsWorkedOut(worker: Answering, r: Run, i: nat)
    requires ReachedBy(worker, r) && i < |r.plan| && r.plan[i].id in r.results
    ensures DepsDone(r, r.plan[i])
    ensures r.results[r.plan[i].id] == worker(r.plan[i], UpstreamOf(r.plan[i], r.results))
  {
    ReachedIsWorkedOut(worker, r);
    var t := r.plan[i];
    assert NodeOk(r, i);
    var x := r.history[r.versions[t.id]];
    assert WorkedOut(worker, x) && ExecutionOk(r, x);
    assert NamesOf(x.input) == t.dependsOn;
    assert TaskOf(x.input) == t;
    forall d | d in t.dependsOn
      ensures d in x.upstream && x.upstream[d] == r.results[d]
    {
      UpstreamInForce(r, i, x, d);
    }
    assert x.upstream == UpstreamOf(t, r.results);
  }

  lemma UpstreamInForce(r: Run, i: nat, x: Execution, d: string)
    requires ReplanRuns.Inv(r) && i < |r.plan| && ExecutionOk(r, x) && DepsDone(r, r.plan[i])
    requires x.input == InputOf(r.goal, r.plan[i], r.versions) && d in r.plan[i].dependsOn
    ensures d in x.upstream && x.upstream[d] == r.results[d]
  {
    var t := r.plan[i];
    var k :| 0 <= k < |t.dependsOn| && t.dependsOn[k] == d;
    assert x.input.deps[k] == (d, r.versions[d]);
    assert d in Ids(r.plan);
    var j :| 0 <= j < |r.plan| && r.plan[j].id == d;
    assert NodeOk(r, j);
  }

  /** The task of that name; a plan is only asked for its own. */
  function TaskCalled(plan: seq<Task>, id: string): Task {
    match TaskNamed(plan, id)
    case Some(t) => t
    case None => Task(id, "", [])
  }

  /** The worker as the executor of a plan without a cache. */
  function Uncached(worker: Answering, plan: seq<Task>): Execute<TaskResult, string> {
    (id, up) => Success(worker(TaskCalled(plan, id), up))
  }

  lemma NodeIsJustified(worker: Answering, r: Run, i: nat)
    requires ReachedBy(worker, r) && DistinctIds(r.plan) && i < |r.plan| && r.plan[i].id in r.results
    ensures Justified(NodesOf(r.plan)[i], Uncached(worker, r.plan), r.results)
  {
    var t, n, execute := r.plan[i], NodesOf(r.plan)[i], Uncached(worker, r.plan);
    InForceIsWorkedOut(worker, r, i);
    TaskNamedFinds(r.plan, t);
    var up := UpstreamOf(t, r.results);
    assert Restrict(r.results, n.upstream) == up;
    assert TaskCalled(r.plan, n.id) == t;
    assert execute(n.id, up) == Success(worker(t, up));
  }

  lemma AttemptEvaluates(worker: Answering, r: Run)
    requires ReachedBy(worker, r) && AllSettled(r)
    ensures Evaluates(NodesOf(r.plan), Uncached(worker, r.plan), r.results)
  {
    ReachedIsWorkedOut(worker, r);
    var nodes, execute := NodesOf(r.plan), Uncached(worker, r.plan);
    NodesAreDistinct(r.plan);
    forall i | 0 <= i < |nodes|
      ensures nodes[i].id in r.results && Justified(nodes[i], execute, r.results)
    {
      NodeIsJustified(worker, r, i);
    }
  }

  /** Over any sequence of attempts and any interleaving, with any time to live: a settled attempt holds
      exactly the results of executing its plan level by level without a cache. */
  lemma CacheIsTransparent(worker: Answering, r: Run, levels: seq<seq<Task>>)
    requires ReachedBy(worker, r) && AllSettled(r) && Levelled(r.plan, levels)
    ensures RunLevels(levels, Uncached(worker, r.plan)) == Success(r.results)
  {
    ReachedIsWorkedOut(worker, r);
    AttemptEvaluates(worker, r);
    LevelsSucceed(levels, Uncached(worker, r.plan));
    ConfluentWithLevels(r.plan, levels, Uncached(worker, r.plan), r.results);
  }
}
