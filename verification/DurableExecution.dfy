/** Durable executions: what the nodes and the synthesis of a planned attempt, computed or read back
    from a checkpoint, promise together; which runner calls are made; and the replies built on them. */
module DurableExecution {
  import opened DagTypes
  import opened TaskGraph
  import opened Recovery
  import opened RecoveryWorld
  import opened RecoveryInvariant
  import opened RecoveryTheorems
  import DagReply
  import ReviewLoop

  // ---------------------------------------------------------------- the synthesis of an attempt

  /** A planned node has a result in the session. */
  predicate Held(p: Proc, a: nat, id: string) {
    Node(a, id) in p.outcomes && p.outcomes[Node(a, id)].value.NodeValue?
  }

  function ResultOf(p: Proc, a: nat, id: string): TaskResult
    requires Held(p, a, id)
  {
    p.outcomes[Node(a, id)].value.result
  }

  /** Every node outcome of the attempt ended DONE. */
  ghost predicate NodesDone(p: Proc, a: nat) {
    forall id :: Node(a, id) in p.outcomes ==> Held(p, a, id) && Succeeded(ResultOf(p, a, id))
  }

  /** A node outcome is that of a planned task, whose identity its result carries. */
  lemma NodeOfPlan(w: World, sid: SessionId, a: nat, id: string)
    requires Reached(w) && sid in w.procs && Node(a, id) in w.procs[sid].outcomes
    ensures var p := w.procs[sid];
            && Held(p, a, id) && a in p.plans && p.outcomes[Node(a, id)].fingerprint.NodeInput?
            && var t := TaskOf(p.outcomes[Node(a, id)].fingerprint);
            && t in p.plans[a] && t.id == id && ResultOf(p, a, id).taskId == id
            && ResultOf(p, a, id).dependsOn == t.dependsOn
  {
    CrashSafeProvenance(w, sid, a, id);
    ReachedIsOk(w);
    var p := w.procs[sid];
    assert ProcOk(w, sid, p) && OutcomeOk(w, p, Node(a, id), p.outcomes[Node(a, id)]);
  }

  lemma SynthesisOutcome(w: World, sid: SessionId, a: nat)
    requires Reached(w) && sid in w.procs && Synthesis(a) in w.procs[sid].outcomes
    ensures var p := w.procs[sid];
            var o := p.outcomes[Synthesis(a)];
            && o.fingerprint.SynthesisInput? && a in p.plans && AllFinished(p.plans[a], p.outcomes, a, o.fingerprint)
            && o.value.ReplyValue? && o.value.reply == SynthesisOf(o.fingerprint.results, o.value.reply.answer)
  {
    ReachedIsOk(w);
    var p := w.procs[sid];
    var o := p.outcomes[Synthesis(a)];
    assert ProcOk(w, sid, p) && OutcomeOk(w, p, Synthesis(a), o);
    assert InvocationOk(w, o.version, w.invocations[o.version]);
  }

  /** A synthesis a session holds, computed or read back, covers every node of its attempt, and is DONE
      if and only if every node outcome of that attempt in that session is DONE. */
  lemma SynthesisTellsNodes(w: World, sid: SessionId, a: nat)
    requires Reached(w) && sid in w.procs && Synthesis(a) in w.procs[sid].outcomes
    ensures var p := w.procs[sid];
            && a in p.plans && p.outcomes[Synthesis(a)].value.ReplyValue?
            && (forall i :: 0 <= i < |p.plans[a]| ==> Held(p, a, p.plans[a][i].id))
            && (p.outcomes[Synthesis(a)].value.reply.stopReason == "DONE" <==> NodesDone(p, a))
  {
    SynthesisOutcome(w, sid, a);
    var p := w.procs[sid];
    var plan, f := p.plans[a], p.outcomes[Synthesis(a)].fingerprint;
    forall i | 0 <= i < |plan|
      ensures Held(p, a, plan[i].id) && ResultOf(p, a, plan[i].id) == f.results[i]
    {
      assert FinishedAs(p.outcomes, Node(a, plan[i].id), f.versions[i], f.results[i]);
    }
    if AllDone(f.results) {
      forall id | Node(a, id) in p.outcomes
        ensures Held(p, a, id) && Succeeded(ResultOf(p, a, id))
      {
        NodeOfPlan(w, sid, a, id);
        var i :| 0 <= i < |plan| && plan[i] == TaskOf(p.outcomes[Node(a, id)].fingerprint);
        assert Succeeded(f.results[i]);
      }
    }
    if NodesDone(p, a) {
      forall i | 0 <= i < |plan|
        ensures Succeeded(f.results[i])
      {
        assert Held(p, a, plan[i].id);
      }
    }
    assert "DONE"[0] != "PARTIAL"[0];
  }

  // ---------------------------------------------------------------- runner calls

  /** A runner call was made by a planned node whose dependencies its session holds, none of which the
      worker saw fail. */
  ghost predicate RunOk(w: World, v: Version) {
    && v in w.invocations
    && var inv := w.invocations[v];
    && inv.issue.key.Node? && inv.issue.owner in w.procs
    && DepsFinished(w.procs[inv.issue.owner].plans, w.procs[inv.issue.owner].outcomes, inv.issue.key,
                    inv.issue.fingerprint)
    && (forall d :: d in DepNames(inv.issue.fingerprint) ==> d in inv.upstream)
    && !UpstreamFailed(TaskOf(inv.issue.fingerprint), inv.upstream)
  }

  ghost predicate RunsOk(w: World) {
    forall v {:trigger RunOk(w, v)} :: v in w.runs ==> RunOk(w, v)
  }

  /** Plans and outcomes of sessions only grow. */
  ghost predicate ProcsKept(w: World, v: World) {
    forall sid :: sid in w.procs ==> sid in v.procs && ProcKept(w.procs[sid], v.procs[sid])
  }

  ghost predicate ProcKept(p: Proc, q: Proc) {
    && (forall a :: a in p.plans ==> a in q.plans && q.plans[a] == p.plans[a])
    && (forall k :: k in p.outcomes ==> k in q.outcomes && q.outcomes[k] == p.outcomes[k])
  }

  /** Invocations keep what they were given. */
  ghost predicate InvocationsKept(w: World, v: World) {
    forall x :: x in w.invocations ==>
      && x in v.invocations && v.invocations[x].issue == w.invocations[x].issue
      && v.invocations[x].upstream == w.invocations[x].upstream
  }

  lemma RunStaysOk(w: World, v: World, x: Version)
    requires RunOk(w, x) && ProcsKept(w, v) && InvocationsKept(w, v)
    ensures RunOk(v, x)
  {
    var owner := w.invocations[x].issue.owner;
    assert ProcKept(w.procs[owner], v.procs[owner]);
  }

  /** Setting one session's state keeps the rest. */
  lemma OneProcKept(w: World, v: World, sid: SessionId)
    requires sid in w.procs && sid in v.procs && v.procs == w.procs[sid := v.procs[sid]]
    requires ProcKept(w.procs[sid], v.procs[sid])
    ensures ProcsKept(w, v)
  {
  }

  lemma AnswerKeepsProc(w: World, sid: SessionId, v: World)
    requires Inv(w) && Enabled(w, Acknowledge(sid)) && v == Resumed(w, sid)
    ensures v.procs == w.procs[sid := v.procs[sid]] && ProcKept(w.procs[sid], v.procs[sid])
  {
    var p := w.procs[sid];
    assert ProcOk(w, sid, p);
    if p.phase.op.Finish? && p.phase.op.key in p.jobs {
      assert JobOk(w, sid, p, p.phase.op.key, p.jobs[p.phase.op.key]);
    }
  }

  lemma AnswerKeepsInvocations(w: World, sid: SessionId, v: World)
    requires Inv(w) && Enabled(w, Acknowledge(sid)) && v == Resumed(w, sid)
    ensures InvocationsKept(w, v)
  {
    var p := w.procs[sid];
    assert ProcOk(w, sid, p);
    if p.phase.op.Begin? && p.phase.op.key in p.jobs {
      assert JobOk(w, sid, p, p.phase.op.key, p.jobs[p.phase.op.key]);
    }
  }

  lemma BeginKeepsProc(w: World, e: Event, v: World)
    requires Inv(w) && e.RunBegin? && Enabled(w, e) && v == RunBegan(w, e.sid, e.key, e.fingerprint, e.version)
    ensures v.procs == w.procs[e.sid := v.procs[e.sid]] && ProcKept(w.procs[e.sid], v.procs[e.sid])
    ensures v.invocations == w.invocations
  {
    var p := w.procs[e.sid];
    assert ProcOk(w, e.sid, p);
    assert e.key in p.outcomes ==> OutcomeOk(w, p, e.key, p.outcomes[e.key]);
  }

  lemma PlanKeepsProc(w: World, e: Event, v: World)
    requires Enabled(w, e) && (e.PlanAttempt? || e.RunFinish?) && v == Do(w, e)
    ensures v.procs == w.procs[e.sid := v.procs[e.sid]] && ProcKept(w.procs[e.sid], v.procs[e.sid])
    ensures v.invocations == w.invocations
  {
  }

  lemma SendKeepsProc(w: World, sid: SessionId, v: World)
    requires Enabled(w, Send(sid)) && v == Sent(w, sid)
    ensures v.procs == w.procs[sid := v.procs[sid]] && ProcKept(w.procs[sid], v.procs[sid])
    ensures v.invocations == w.invocations
  {
  }

  lemma ReturnKeepsProc(w: World, e: Event, v: World)
    requires Enabled(w, e) && e.InvokeReturns? && v == InvocationReturned(w, e.sid, e.key, e.value)
    ensures v.procs == w.procs[e.sid := v.procs[e.sid]] && ProcKept(w.procs[e.sid], v.procs[e.sid])
    ensures InvocationsKept(w, v)
  {
  }

  lemma OtherKeeps(w: World, e: Event, v: World)
    requires Enabled(w, e) && v == Do(w, e)
    requires !(e.Acknowledge? || e.RunBegin? || e.PlanAttempt? || e.RunFinish? || e.Send? || e.InvokeReturns?)
    ensures ProcsKept(w, v) && v.invocations == w.invocations
  {
  }

  lemma EventKeeps(w: World, e: Event, v: World)
    requires Inv(w) && Enabled(w, e) && v == Do(w, e)
    ensures ProcsKept(w, v) && InvocationsKept(w, v)
  {
    if e.Acknowledge? {
      AnswerKeepsProc(w, e.sid, v);
      OneProcKept(w, v, e.sid);
      AnswerKeepsInvocations(w, e.sid, v);
    } else if e.RunBegin? {
      BeginKeepsProc(w, e, v);
      OneProcKept(w, v, e.sid);
    } else if e.PlanAttempt? || e.RunFinish? {
      PlanKeepsProc(w, e, v);
      OneProcKept(w, v, e.sid);
    } else if e.Send? {
      SendKeepsProc(w, e.sid, v);
      OneProcKept(w, v, e.sid);
    } else if e.InvokeReturns? {
      ReturnKeepsProc(w, e, v);
      OneProcKept(w, v, e.sid);
    } else {
      OtherKeeps(w, e, v);
    }
  }

  lemma NewRunOk(w: World, sid: SessionId, key: Key)
    requires Inv(w) && Enabled(w, RunnerCall(sid, key))
    ensures RunOk(w, w.procs[sid].jobs[key].version)
  {
    InvocationOfJob(w, sid, key);
    assert JobOk(w, sid, w.procs[sid], key, w.procs[sid].jobs[key]);
  }

  lemma EventRecordsRuns(w: World, e: Event, v: World)
    requires Enabled(w, e) && v == Do(w, e)
    ensures v.runs == if e.RunnerCall? then w.runs + {w.procs[e.sid].jobs[e.key].version} else w.runs
  {
  }

  lemma EventKeepsRunsOk(w: World, e: Event, v: World)
    requires Inv(w) && RunsOk(w) && Enabled(w, e) && v == Do(w, e)
    ensures RunsOk(v)
  {
    EventKeeps(w, e, v);
    EventRecordsRuns(w, e, v);
    forall x | x in v.runs
      ensures RunOk(v, x)
    {
      if x !in w.runs {
        NewRunOk(w, e.sid, e.key);
      }
      RunStaysOk(w, v, x);
    }
  }

  lemma {:induction false} LeadsKeepsRunsOk(w: World, run: seq<Event>, v: World)
    requires Inv(w) && RunsOk(w) && Leads(w, run, v)
    ensures RunsOk(v)
    decreases |run|
  {
    if run != [] {
      EventKeepsRunsOk(w, run[0], Do(w, run[0]));
      EventKeepsInv(w, run[0]);
      LeadsKeepsRunsOk(Do(w, run[0]), run[1..], v);
    }
  }

  lemma ReachedRunsOk(w: World)
    requires Reached(w)
    ensures RunsOk(w)
  {
    var now, run :| Leads(Initial(now, w.maxCalls, w.maxTokens), run, w);
    LeadsKeepsRunsOk(Initial(now, w.maxCalls, w.maxTokens), run, w);
  }

  /** A runner call's node has DONE results behind every dependency, in the session that made it. */
  lemma RunHasDoneUpstream(w: World, v: Version, d: string)
    requires Reached(w) && v in w.runs && v in w.invocations && d in DepNames(w.invocations[v].issue.fingerprint)
    ensures var issue := w.invocations[v].issue;
            && issue.key.Node? && issue.owner in w.procs
            && Held(w.procs[issue.owner], issue.key.attempt, d)
            && Succeeded(ResultOf(w.procs[issue.owner], issue.key.attempt, d))
  {
    ReachedRunsOk(w);
    ReachedIsOk(w);
    assert RunOk(w, v) && InvocationOk(w, v, w.invocations[v]);
    var inv := w.invocations[v];
    var f, p := inv.issue.fingerprint, w.procs[inv.issue.owner];
    var i :| 0 <= i < |f.deps| && f.deps[i].0 == d;
    var key := Node(inv.issue.key.attempt, d);
    assert ProcOk(w, inv.issue.owner, p) && OutcomeOk(w, p, key, p.outcomes[key]);
    assert TaskOf(f).dependsOn[i] == d;
  }

  // ---------------------------------------------------------------- results come from runner calls

  /** A node body that returned had called the runner, or was given an upstream result that is not DONE. */
  ghost predicate Ran(w: World, x: Version)
    requires x in w.invocations
  {
    var inv := w.invocations[x];
    inv.issue.key.Node? && inv.result.Some? ==>
      x in w.runs || exists d :: d in inv.upstream && inv.upstream[d].reply.stopReason != "DONE"
  }

  ghost predicate AllRan(w: World) {
    forall x {:trigger Ran(w, x)} :: x in w.invocations ==> Ran(w, x)
  }

  lemma ReturnedRan(w: World, e: Event, v: World)
    requires Inv(w) && AllRan(w) && e.InvokeReturns? && Enabled(w, e)
    requires v == InvocationReturned(w, e.sid, e.key, e.value)
    ensures AllRan(v)
  {
    InvocationOfJob(w, e.sid, e.key);
    var job := w.procs[e.sid].jobs[e.key];
    forall x | x in v.invocations
      ensures Ran(v, x)
    {
      assert Ran(w, x);
      var inv := w.invocations[x];
      assert InvocationOk(w, x, inv);
      if x == job.version && inv.issue.key.Node? && !NeedsRunner(w, job) {
        var t := TaskOf(job.fingerprint);
        var i :| 0 <= i < |t.dependsOn| && !Succeeded(inv.upstream[t.dependsOn[i]]);
        assert t.dependsOn[i] in inv.upstream;
      }
    }
  }

  lemma AnsweredRan(w: World, sid: SessionId, v: World)
    requires Inv(w) && AllRan(w) && Enabled(w, Acknowledge(sid)) && v == Resumed(w, sid)
    ensures AllRan(v)
  {
    forall x | x in v.invocations
      ensures Ran(v, x)
    {
      assert x in w.invocations ==> Ran(w, x);
    }
  }

  lemma QuietlyRan(w: World, e: Event, v: World)
    requires AllRan(w) && Enabled(w, e) && v == Do(w, e) && !e.InvokeReturns? && !e.Acknowledge?
    ensures AllRan(v)
  {
    OtherInvocations(w, e, v);
    EventRecordsRuns(w, e, v);
    forall x | x in v.invocations
      ensures Ran(v, x)
    {
      assert Ran(w, x);
    }
  }

  lemma OtherInvocations(w: World, e: Event, v: World)
    requires Enabled(w, e) && v == Do(w, e) && !e.InvokeReturns? && !e.Acknowledge?
    ensures v.invocations == w.invocations
  {
  }

  lemma {:induction false} LeadsKeepsRan(w: World, run: seq<Event>, v: World)
    requires Inv(w) && AllRan(w) && Leads(w, run, v)
    ensures AllRan(v)
    decreases |run|
  {
    if run != [] {
      var e, u := run[0], Do(w, run[0]);
      EventKeepsInv(w, e);
      if e.InvokeReturns? {
        ReturnedRan(w, e, u);
      } else if e.Acknowledge? {
        AnsweredRan(w, e.sid, u);
      } else {
        QuietlyRan(w, e, u);
      }
      LeadsKeepsRan(u, run[1..], v);
    }
  }

  lemma ReachedRan(w: World)
    requires Reached(w)
    ensures AllRan(w)
  {
    var now, run :| Leads(Initial(now, w.maxCalls, w.maxTokens), run, w);
    LeadsKeepsRan(Initial(now, w.maxCalls, w.maxTokens), run, w);
  }

  /** The body behind a node result was given the results its session holds for the dependencies. */
  lemma UpstreamIsHeld(w: World, sid: SessionId, a: nat, id: string)
    requires Reached(w) && sid in w.procs && Node(a, id) in w.procs[sid].outcomes
    ensures var p := w.procs[sid];
            var o := p.outcomes[Node(a, id)];
            && Held(p, a, id) && o.version in w.invocations
            && var inv := w.invocations[o.version];
            && inv.issue.key == Node(a, id) && inv.result == Some(o.value) && o.fingerprint.NodeInput?
            && WorkerMayReturn(TaskOf(o.fingerprint), inv.upstream, ResultOf(p, a, id))
            && TaskOf(o.fingerprint).dependsOn == DependsOn(p, a, id)
            && (forall d :: d in inv.upstream <==> d in DependsOn(p, a, id))
            && (forall d :: d in inv.upstream ==> Held(p, a, d) && ResultOf(p, a, d) == inv.upstream[d])
  {
    CrashSafeProvenance(w, sid, a, id);
  }

  /** A node result a session holds, computed or read back, comes from a call of the runner, unless a
      dependency the session holds did not end DONE, and then it is the skip. */
  lemma HeldWasRun(w: World, sid: SessionId, a: nat, id: string)
    requires Reached(w) && sid in w.procs && Node(a, id) in w.procs[sid].outcomes
    ensures var p := w.procs[sid];
            && Held(p, a, id)
            && if exists d :: d in DependsOn(p, a, id) && Held(p, a, d) && !Succeeded(ResultOf(p, a, d)) then
                 ResultOf(p, a, id).reply == Reply("Required upstream task did not succeed.", "SKIPPED", [])
               else p.outcomes[Node(a, id)].version in w.runs
  {
    UpstreamIsHeld(w, sid, a, id);
    ReachedRan(w);
    var p := w.procs[sid];
    var o := p.outcomes[Node(a, id)];
    assert Ran(w, o.version);
    if d :| d in DependsOn(p, a, id) && Held(p, a, d) && !Succeeded(ResultOf(p, a, d)) {
      var t := TaskOf(o.fingerprint);
      var i :| 0 <= i < |t.dependsOn| && t.dependsOn[i] == d;
      assert !Succeeded(w.invocations[o.version].upstream[t.dependsOn[i]]);
    }
  }

  lemma {:induction false} ChainIsDone(w: World, sid: SessionId, a: nat, chain: seq<string>)
    requires Reached(w) && sid in w.procs && chain != [] && AncestorChain(w.procs[sid], a, chain)
    requires Held(w.procs[sid], a, chain[0]) && Succeeded(ResultOf(w.procs[sid], a, chain[0]))
    ensures var last := chain[|chain| - 1];
            Held(w.procs[sid], a, last) && Succeeded(ResultOf(w.procs[sid], a, last))
    decreases |chain|
  {
    if |chain| > 1 {
      var p, rest := w.procs[sid], chain[1..];
      assert chain[0 + 1] in DependsOn(p, a, chain[0]);
      DoneMeansDependenciesDone(w, sid, a, chain[0], chain[1]);
      forall i | 0 <= i < |rest| - 1
        ensures rest[i + 1] in DependsOn(p, a, rest[i])
      {
        assert chain[(i + 1) + 1] in DependsOn(p, a, chain[i + 1]);
      }
      ChainIsDone(w, sid, a, rest);
    }
  }

  /** No runner call of a durable run is made for a node with an ancestor that did not end DONE: every
      chain of ancestors, starting at a dependency, is DONE in the session that made the call. */
  lemma RunsHaveDoneAncestors(w: World, v: Version, chain: seq<string>)
    requires Reached(w) && v in w.runs && v in w.invocations && chain != []
    requires chain[0] in DepNames(w.invocations[v].issue.fingerprint)
    requires var issue := w.invocations[v].issue;
             issue.key.Node? && issue.owner in w.procs && AncestorChain(w.procs[issue.owner], issue.key.attempt, chain)
    ensures var issue := w.invocations[v].issue;
            var last := chain[|chain| - 1];
            && Held(w.procs[issue.owner], issue.key.attempt, last)
            && Succeeded(ResultOf(w.procs[issue.owner], issue.key.attempt, last))
  {
    RunHasDoneUpstream(w, v, chain[0]);
    ChainIsDone(w, w.invocations[v].issue.owner, w.invocations[v].issue.key.attempt, chain);
  }

  /** Every recorded runner call belongs to a planned node of the session that made it. */
  lemma RunsArePlanned(w: World, v: Version)
    requires Reached(w) && v in w.runs
    ensures v in w.invocations
    ensures var issue := w.invocations[v].issue;
            && issue.key.Node? && issue.owner in w.procs && issue.fingerprint.NodeInput?
            && issue.key.attempt in w.procs[issue.owner].plans
            && TaskOf(issue.fingerprint) in w.procs[issue.owner].plans[issue.key.attempt]
  {
    ReachedRunsOk(w);
    assert RunOk(w, v);
  }

  // ---------------------------------------------------------------- durable replies

  /** What a session holds for an attempt, as an execution of the review loop. */
  ghost predicate HeldRound(p: Proc, a: nat, r: ReviewLoop.Round) {
    var e := r.execution;
    && DistinctIds(r.tasks) && r.tasks != [] && Levelled(r.tasks, e.levels)
    && a in p.plans && p.plans[a] == DagReply.FlatTasks(e.levels)
    && Synthesis(a) in p.outcomes && p.outcomes[Synthesis(a)].value == ReplyValue(e.synthesis)
    && |e.results| == |p.plans[a]|
    && forall i :: 0 <= i < |e.results| ==> HeldAs(p, a, p.plans[a][i].id, e.results[i])
  }

  predicate HeldAs(p: Proc, a: nat, id: string, x: TaskResult) {
    Held(p, a, id) && ResultOf(p, a, id) == x
  }

  /** The task behind a held result is the planned one. */
  lemma HeldTask(w: World, sid: SessionId, a: nat, r: ReviewLoop.Round, i: nat)
    requires Reached(w) && sid in w.procs && HeldRound(w.procs[sid], a, r) && i < |r.execution.results|
    ensures var p := w.procs[sid];
            && r.execution.results[i].taskId == p.plans[a][i].id
            && r.execution.results[i].dependsOn == p.plans[a][i].dependsOn
            && DependsOn(p, a, p.plans[a][i].id) == p.plans[a][i].dependsOn
  {
    var p, levels := w.procs[sid], r.execution.levels;
    assert HeldAs(p, a, p.plans[a][i].id, r.execution.results[i]);
    NodeOfPlan(w, sid, a, p.plans[a][i].id);
    assert levels[..|levels|] == levels;
    DagReply.FlatDistinct(r.tasks, levels, |levels|);
    var k :| 0 <= k < |p.plans[a]| && p.plans[a][k] == TaskOf(p.outcomes[Node(a, p.plans[a][i].id)].fingerprint);
    assert k == i;
  }

  lemma HeldResultsClosed(w: World, sid: SessionId, a: nat, r: ReviewLoop.Round)
    requires Reached(w) && sid in w.procs && HeldRound(w.procs[sid], a, r)
    ensures ReviewLoop.FailureClosed(r.execution.results)
  {
    var p, results := w.procs[sid], r.execution.results;
    forall i, j | 0 <= i < |results| && 0 <= j < |results|
                  && results[j].taskId in results[i].dependsOn && Succeeded(results[i])
      ensures Succeeded(results[j])
    {
      HeldTask(w, sid, a, r, i);
      HeldTask(w, sid, a, r, j);
      assert HeldAs(p, a, p.plans[a][i].id, results[i]) && HeldAs(p, a, p.plans[a][j].id, results[j]);
      DoneMeansDependenciesDone(w, sid, a, p.plans[a][i].id, p.plans[a][j].id);
    }
  }

  lemma HeldAllDone(w: World, sid: SessionId, a: nat, r: ReviewLoop.Round)
    requires Reached(w) && sid in w.procs && HeldRound(w.procs[sid], a, r)
    ensures NodesDone(w.procs[sid], a) <==> AllDone(r.execution.results)
  {
    var p, results := w.procs[sid], r.execution.results;
    if NodesDone(p, a) {
      forall i | 0 <= i < |results|
        ensures Succeeded(results[i])
      {
        assert HeldAs(p, a, p.plans[a][i].id, results[i]);
      }
    }
    if AllDone(results) {
      forall id | Node(a, id) in p.outcomes
        ensures Held(p, a, id) && Succeeded(ResultOf(p, a, id))
      {
        NodeOfPlan(w, sid, a, id);
        var i :| 0 <= i < |p.plans[a]| && p.plans[a][i] == TaskOf(p.outcomes[Node(a, id)].fingerprint);
        assert HeldAs(p, a, p.plans[a][i].id, results[i]);
      }
    }
  }

  /** What a session holds for an attempt is an execution like any other: levelled, failure-closed, its
      synthesis DONE exactly if all its nodes are. */
  lemma HeldExecutionOk(w: World, sid: SessionId, a: nat, r: ReviewLoop.Round)
    requires Reached(w) && sid in w.procs && HeldRound(w.procs[sid], a, r)
    ensures ReviewLoop.ExecutionOk(true, r.tasks, r.execution)
  {
    forall i | 0 <= i < |r.execution.results|
      ensures r.execution.results[i].taskId == DagReply.FlatTasks(r.execution.levels)[i].id
      ensures r.execution.results[i].dependsOn == DagReply.FlatTasks(r.execution.levels)[i].dependsOn
    {
      HeldTask(w, sid, a, r, i);
    }
    HeldResultsClosed(w, sid, a, r);
    HeldAllDone(w, sid, a, r);
    SynthesisTellsNodes(w, sid, a);
  }

  /** The replies of durable runs: whatever was computed by this session and whatever was read back, and
      whatever the critiques say, a review loop over the attempts a session holds keeps all promises of
      a reply, and accepts only if every node of its last attempt is DONE. */
  lemma DurableReplyOk(s: ReviewLoop.Settings, w: World, sid: SessionId, goal: string, rounds: seq<ReviewLoop.Round>)
    requires s.optimized && s.review && Reached(w) && sid in w.procs && ReviewLoop.Stops(s, rounds)
    requires forall i :: 0 <= i < |rounds| ==> HeldRound(w.procs[sid], i + 1, rounds[i])
    ensures ReviewLoop.ReplyOk(s, ReviewLoop.ReviewedReply(s, goal, rounds))
    ensures ReviewLoop.ReviewedReply(s, goal, rounds).accepted ==> NodesDone(w.procs[sid], |rounds|)
  {
    forall i | 0 <= i < |rounds|
      ensures ReviewLoop.RoundOk(s, rounds[i])
    {
      HeldExecutionOk(w, sid, i + 1, rounds[i]);
    }
    ReviewLoop.ReviewedReplyOk(s, goal, rounds);
    HeldAllDone(w, sid, |rounds|, rounds[|rounds| - 1]);
  }
}
