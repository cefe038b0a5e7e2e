/** Which runner a result of a run with the replan cache came from: the one of the attempt that computed
    it, asked with the upstream results the node has in force. */
module RunnerHistory {
  import opened DagTypes
  import opened TaskGraph
  import opened ResultReuse
  import opened ReviewLoop
  import opened CachedExecution
  import opened ModelAnswers
  import opened DagReply
  import opened ReplanRuns

  function RunnerOf(o: Oracles, attempt: nat): Runner {
    (id, up) => o.runner(attempt, id, up)
  }

  /** An execution was given exactly the dependencies its input names; its reply is the runner's, or it was
      skipped because one of them did not end DONE. */
  ghost predicate Heard(o: Oracles, k: nat, x: ReplanRuns.Execution) {
    && x.upstream.Keys == (set d | d in NamesOf(x.input))
    && if Blocked(x.upstream) then x.result.reply == SKIPPED
       else o.runner(k, x.input.taskId, x.upstream) == Success(x.result.reply)
  }

  ghost predicate HeardBy(o: Oracles, n: nat, x: ReplanRuns.Execution) {
    exists k: nat :: 1 <= k <= n && Heard(o, k, x)
  }

  /** All executions were answered by an attempt's runner, those behind results of this attempt that were
      not reused by its own. */
  ghost predicate AllHeard(o: Oracles, r: Run) {
    && (forall v {:trigger HeardBy(o, r.attempt, r.history[v])} :: v in r.history ==>
          HeardBy(o, r.attempt, r.history[v]))
    && (forall id {:trigger HeardNow(o, r, id)} :: id in r.results && id !in r.reused ==> HeardNow(o, r, id))
  }

  ghost predicate HeardNow(o: Oracles, r: Run, id: string) {
    id in r.versions && r.versions[id] in r.history && Heard(o, r.attempt, r.history[r.versions[id]])
  }

  lemma FinishIsHeard(o: Oracles, r: Run, i: nat, x: TaskResult, v: Version, s: Run)
    requires ReplanRuns.Inv(r) && ReplanRuns.Enabled(r, Finish(i, x, v)) && r.attempt >= 1
    requires AnsweredBy(RunnerOf(o, r.attempt), r, Finish(i, x, v)) && s == Do(r, Finish(i, x, v))
    ensures v in s.history && Heard(o, r.attempt, s.history[v])
  {
    var t := r.plan[i];
    assert NodeOk(r, i);
    var work := r.running[t.id];
    assert NamesOf(work.input) == t.dependsOn;
    assert work.upstream.Keys == (set d | d in t.dependsOn);
    RunOneAnswers(true, o, r.attempt, t, work.upstream, x);
  }

  lemma FinishKeepsHeard(o: Oracles, r: Run, i: nat, x: TaskResult, v: Version, s: Run)
    requires ReplanRuns.Inv(r) && AllHeard(o, r) && ReplanRuns.Enabled(r, Finish(i, x, v)) && r.attempt >= 1
    requires AnsweredBy(RunnerOf(o, r.attempt), r, Finish(i, x, v)) && s == Do(r, Finish(i, x, v))
    ensures AllHeard(o, s)
  {
    FinishIsHeard(o, r, i, x, v, s);
    forall u | u in s.history
      ensures HeardBy(o, s.attempt, s.history[u])
    {
      if u != v {
        assert HeardBy(o, r.attempt, r.history[u]);
      }
    }
    forall id | id in s.results && id !in s.reused
      ensures HeardNow(o, s, id)
    {
      if id != r.plan[i].id {
        assert HeardNow(o, r, id);
      }
    }
  }

  lemma EventKeepsHeard(o: Oracles, r: Run, e: ReplanRuns.Event, s: Run)
    requires ReplanRuns.Inv(r) && AllHeard(o, r) && ReplanRuns.Enabled(r, e) && r.attempt >= 1
    requires AnsweredBy(RunnerOf(o, r.attempt), r, e) && s == Do(r, e)
    ensures AllHeard(o, s) && s.attempt == r.attempt && s.plan == r.plan
  {
    if e.Finish? {
      FinishKeepsHeard(o, r, e.index, e.result, e.version, s);
    } else {
      forall u | u in s.history
        ensures HeardBy(o, s.attempt, s.history[u])
      {
        assert HeardBy(o, r.attempt, r.history[u]);
      }
      forall id | id in s.results && id !in s.reused
        ensures HeardNow(o, s, id)
      {
        assert HeardNow(o, r, id);
      }
    }
  }

  lemma {:induction false} LeadsKeepsHeard(o: Oracles, r: Run, run: seq<ReplanRuns.Event>, s: Run)
    requires ReplanRuns.Inv(r) && AllHeard(o, r) && r.attempt >= 1 && LeadsWith(RunnerOf(o, r.attempt), r, run, s)
    ensures AllHeard(o, s) && s.attempt == r.attempt && s.plan == r.plan && ReplanRuns.Inv(s)
    decreases |run|
  {
    if run != [] {
      EventKeepsHeard(o, r, run[0], Do(r, run[0]));
      ReplanRuns.EventKeepsInv(r, run[0]);
      LeadsKeepsHeard(o, Do(r, run[0]), run[1..], s);
    }
  }

  /** A whole attempt. */
  lemma AttemptKeepsHeard(o: Oracles, r: Run, plan: seq<Task>, s: Run)
    requires ReplanRuns.Inv(r) && AllHeard(o, r) && ReplanRuns.Enabled(r, ReplanRuns.Attempt(plan))
    requires Continues(RunnerOf(o, r.attempt + 1), Planned(r, plan), s)
    ensures AllHeard(o, s) && s.attempt == r.attempt + 1 && s.plan == plan && ReplanRuns.Inv(s)
  {
    var u := Planned(r, plan);
    ReplanRuns.EventKeepsInv(r, ReplanRuns.Attempt(plan));
    forall v | v in u.history
      ensures HeardBy(o, u.attempt, u.history[v])
    {
      assert HeardBy(o, r.attempt, r.history[v]);
    }
    var run :| LeadsWith(RunnerOf(o, u.attempt), u, run, s);
    LeadsKeepsHeard(o, u, run, s);
  }

  // ---------------------------------------------------------------- what an attempt reports

  /** A reused result was said by the runner of an earlier or this attempt and fit to be used again; any
      other by this attempt's. */
  lemma NodeIsTold(o: Oracles, r: Run, i: nat)
    requires ReplanRuns.Reached(r) && AllHeard(o, r) && AllDepsKnown(r.plan)
    requires i < |r.plan| && r.plan[i].id in r.results
    ensures TaskTold(true, true, o, r.attempt, r.plan, r.results, r.plan[i])
  {
    var t := r.plan[i];
    ResultsComeFromResultsInForce(r, i);
    ReachedIsOk(r);
    assert NodeOk(r, i);
    var x := r.history[r.versions[t.id]];
    assert HeardBy(o, r.attempt, x) && ReplanRuns.ExecutionOk(r, x);
    var k: nat :| 1 <= k <= r.attempt && Heard(o, k, x);
    assert NamesOf(x.input) == t.dependsOn;
    KnownAreAll(r.plan, t);
    assert x.upstream.Keys == KnownDeps(r.plan, t);
    assert KeepsKnown(r.plan, r.results, t, x.upstream);
    assert ResultOf(r.results[t.id], t);
    if t.id !in r.reused {
      assert HeardNow(o, r, t.id);
    } else if k < r.attempt {
      NotBlocked(t, x);
      EvidenceIsPlain(x.result);
      assert RunnerSaid(o, k, r.results[t.id], x.upstream);
    }
    assert Answered(true, true, o, r.attempt, r.results[t.id], x.upstream);
  }

  lemma BlockedFails(t: Task, up: map<string, TaskResult>)
    requires Blocked(up) && up.Keys == set d | d in t.dependsOn
    ensures UpstreamFailed(t, up)
  {
    var d :| d in up && up[d].reply.stopReason != "DONE";
    var k :| 0 <= k < |t.dependsOn| && t.dependsOn[k] == d;
  }

  lemma NotBlocked(t: Task, x: ReplanRuns.Execution)
    requires WorkerMayReturn(t, x.upstream, x.result) && Succeeded(x.result)
    requires x.upstream.Keys == set d | d in t.dependsOn
    ensures !Blocked(x.upstream)
  {
    if Blocked(x.upstream) {
      BlockedFails(t, x.upstream);
    }
  }

  lemma EvidenceIsPlain(x: TaskResult)
    requires OnlyReusableTools(x)
    ensures forall i :: 0 <= i < |x.reply.actions| ==> x.reply.actions[i] in {"", "rag_search", "schema_explore"}
  {
    forall i | 0 <= i < |x.reply.actions|
      ensures x.reply.actions[i] in {"", "rag_search", "schema_explore"}
    {
      assert x.reply.actions[i] != "" ==> x.reply.actions[i] in REUSABLE_EVIDENCE_TOOLS;
    }
  }

  lemma KnownAreAll(tasks: seq<Task>, t: Task)
    requires AllDepsKnown(tasks) && t in tasks
    ensures KnownDeps(tasks, t) == set d | d in t.dependsOn
  {
    var i :| 0 <= i < |tasks| && tasks[i] == t;
    forall d | d in t.dependsOn
      ensures d in KnownDeps(tasks, t)
    {
      assert d in tasks[i].dependsOn;
      var h :| 0 <= h < |t.dependsOn| && t.dependsOn[h] == d;
    }
  }

  /** The results of a settled attempt, read in level order, are what runners said. */
  lemma AttemptIsTold(o: Oracles, r: Run, levels: seq<seq<Task>>)
    requires ReplanRuns.Reached(r) && AllHeard(o, r) && AllSettled(r)
    requires AllDepsKnown(r.plan) && Levelled(r.plan, levels)
    ensures forall t :: t in FlatTasks(levels) ==> t.id in r.results
    ensures ResultsTold(true, true, o, r.attempt, r.plan, Pick(FlatTasks(levels), r.results))
  {
    ReachedIsOk(r);
    forall t | t in r.plan
      ensures TaskTold(true, true, o, r.attempt, r.plan, r.results, t)
    {
      var i :| 0 <= i < |r.plan| && r.plan[i] == t;
      NodeIsTold(o, r, i);
    }
    assert r.results.Keys == Ids(r.plan) by {
      forall id | id in Ids(r.plan)
        ensures id in r.results
      {
        var i :| 0 <= i < |r.plan| && r.plan[i].id == id;
      }
    }
    PickedAreTold(true, true, o, r.attempt, r.plan, levels, r.results);
  }
}
