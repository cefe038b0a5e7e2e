/** When a stored result is used again: the decision of a run told from the entry alone, and a resumed
    session that replays what an earlier one had finished. */
module RecoveryReuse {
  import opened DagTypes
  import opened Recovery
  import opened RecoveryWorld
  import opened RecoveryInvariant
  import opened RecoveryTheorems
  import opened RecoveryDeadline
  import TaskGraph

  /** The session of `sid` may begin the operation: it is alive and idle, has not begun it before, and
      holds what the operation waits for. */
  predicate CanAsk(w: World, sid: SessionId, key: Key, f: Fingerprint) {
    && sid in w.procs && !w.procs[sid].crashed && w.procs[sid].phase.Idle?
    && key !in w.procs[sid].started
    && DepsFinished(w.procs[sid].plans, w.procs[sid].outcomes, key, f)
  }

  /** The checkpoint of a session holds a finished, reusable result for that very input. */
  predicate Stored(s: CheckpointState, key: Key, f: Fingerprint, v: Version, x: Value) {
    key in s.operations && s.operations[key] == Operation(f, v, Done, true, Some(x))
  }

  predicate Active(w: World, sid: SessionId) {
    sid in w.procs && w.procs[sid].session.failure.None? && w.now < w.procs[sid].session.state.deadline
  }

  /** The session after it took a stored result. */
  function Took(p: Proc, key: Key, f: Fingerprint, v: Version, x: Value): Proc {
    p.(started := p.started + {key}, outcomes := p.outcomes[key := Outcome(f, v, x, true, p.session.revision)])
  }

  /** An active session that asks for an operation whose result is stored takes it: no version is drawn,
      nothing is sent and no body runs. */
  lemma StoredIsReused(w: World, sid: SessionId, key: Key, f: Fingerprint, v: Version, x: Value, drawn: Version)
    requires CanAsk(w, sid, key, f) && Active(w, sid) && drawn !in w.issued
    requires Stored(w.procs[sid].session.state, key, f, v, x)
    ensures Enabled(w, RunBegin(sid, key, f, drawn))
    ensures Do(w, RunBegin(sid, key, f, drawn)) == w.(procs := w.procs[sid := Took(w.procs[sid], key, f, v, x)])
  {
  }

  /** A run that finds no stored result draws its version and waits to record its RUNNING entry. */
  lemma NotStoredStarts(w: World, sid: SessionId, key: Key, f: Fingerprint, drawn: Version)
    requires CanAsk(w, sid, key, f) && Active(w, sid) && drawn !in w.issued
    requires forall v, x :: !Stored(w.procs[sid].session.state, key, f, v, x)
    ensures Enabled(w, RunBegin(sid, key, f, drawn)) <==>
            key in w.procs[sid].session.state.operations || |w.procs[sid].session.state.operations| < 256
    ensures Enabled(w, RunBegin(sid, key, f, drawn)) ==>
              var u := Do(w, RunBegin(sid, key, f, drawn));
              && u.issued == w.issued[drawn := Issue(key, f, sid)]
              && u.procs[sid].phase == Locked(Begin(key, f, drawn))
              && u.procs[sid].outcomes == w.procs[sid].outcomes
  {
    var s := w.procs[sid].session.state;
    if ReusableEntry(s, key, f) {
      assert Stored(s, key, f, s.operations[key].version, s.operations[key].result.value);
    }
  }

  /** A failed or expired session begins nothing. */
  lemma InactiveIsRefused(w: World, sid: SessionId, key: Key, f: Fingerprint, drawn: Version)
    requires CanAsk(w, sid, key, f) && !Active(w, sid)
    ensures !Enabled(w, RunBegin(sid, key, f, drawn))
  {
  }

  // ---------------------------------------------------------------- what is stored as reusable

  /** A finished step may always be used again; a node if it ended DONE, used no tool, and every node it
      depends on may be used again. */
  ghost predicate WorthKeeping(s: CheckpointState, key: Key, f: Fingerprint, x: Value) {
    key.Node? ==>
      && x.NodeValue? && x.result.reply.stopReason == "DONE"
      && (forall i :: 0 <= i < |x.result.reply.actions| ==> x.result.reply.actions[i] == "")
      && forall i :: 0 <= i < |DepNames(f)| ==>
           var d := Node(key.attempt, DepNames(f)[i]);
           d in s.operations && s.operations[d].reusable
  }

  /** Finishing an operation stores its result as usable again exactly if it is worth keeping. */
  lemma FinishedIsKept(w: World, sid: SessionId, key: Key)
    requires Inv(w) && Enabled(w, RunFinish(sid, key))
    ensures var job := w.procs[sid].jobs[key];
            var before := w.procs[sid].session.state;
            var after := Do(w, RunFinish(sid, key)).procs[sid].session.state;
            && key in after.operations
            && after.operations[key] ==
               Operation(job.fingerprint, job.version, Done,
                         WorthKeeping(before, key, job.fingerprint, job.stage.value), Some(job.stage.value))
  {
    var p := w.procs[sid];
    var job := p.jobs[key];
    assert ProcOk(w, sid, p) && JobOk(w, sid, p, key, job);
    assert EntryOk(w, key, p.session.state.operations[key]);
    ReusableMeaning(p.session.state, key, job.fingerprint, job.stage.value);
  }

  lemma ReusableMeaning(s: CheckpointState, key: Key, f: Fingerprint, x: Value)
    ensures Reusable(s, key, f, x) <==> WorthKeeping(s, key, f, x)
  {
    if key.Node? && x.NodeValue? {
      assert UsesTools(x.result) <==> exists i :: 0 <= i < |x.result.reply.actions| && x.result.reply.actions[i] != "";
      if WorthKeeping(s, key, f, x) {
        forall d | d in DepNames(f)
          ensures Node(key.attempt, d) in s.operations && s.operations[Node(key.attempt, d)].reusable
        {
          var i :| 0 <= i < |DepNames(f)| && DepNames(f)[i] == d;
        }
      }
      if Reusable(s, key, f, x) {
        forall i | 0 <= i < |DepNames(f)|
          ensures Node(key.attempt, DepNames(f)[i]) in s.operations
          ensures s.operations[Node(key.attempt, DepNames(f)[i])].reusable
        {
          assert DepNames(f)[i] in DepNames(f);
        }
      }
    }
  }

  // ---------------------------------------------------------------- replaying a checkpoint

  /** An operation with its stored result. */
  datatype Item = Item(key: Key, fingerprint: Fingerprint, version: Version, value: Value)

  /** Asked one after the other, every operation finds what it waits for among the results taken before,
      and its own result stored. */
  ghost predicate Replayable(p: Proc, items: seq<Item>)
    decreases |items|
  {
    items == [] ||
    (var i := items[0];
     && i.key !in p.started && DepsFinished(p.plans, p.outcomes, i.key, i.fingerprint)
     && Stored(p.session.state, i.key, i.fingerprint, i.version, i.value)
     && Replayable(Took(p, i.key, i.fingerprint, i.version, i.value), items[1..]))
  }

  function Asking(sid: SessionId, items: seq<Item>, drawn: Version): seq<Event> {
    seq(|items|, i requires 0 <= i < |items| => RunBegin(sid, items[i].key, items[i].fingerprint, drawn))
  }

  /** The session after taking all of them. */
  function TookAll(p: Proc, items: seq<Item>): Proc
    decreases |items|
  {
    if items == [] then p
    else TookAll(Took(p, items[0].key, items[0].fingerprint, items[0].version, items[0].value), items[1..])
  }

  lemma LeadsCons(w: World, e: Event, u: World, rest: seq<Event>, v: World)
    requires Enabled(w, e) && u == Do(w, e) && Leads(u, rest, v)
    ensures Leads(w, [e] + rest, v)
  {
    assert ([e] + rest)[1..] == rest;
  }

  lemma {:induction false} ReplayTakesAll(w: World, sid: SessionId, items: seq<Item>, drawn: Version, v: World)
    requires sid in w.procs && !w.procs[sid].crashed && w.procs[sid].phase.Idle? && Active(w, sid)
    requires drawn !in w.issued && Replayable(w.procs[sid], items)
    requires v == w.(procs := w.procs[sid := TookAll(w.procs[sid], items)])
    ensures Leads(w, Asking(sid, items, drawn), v)
    decreases |items|
  {
    if items == [] {
      assert w.procs[sid := w.procs[sid]] == w.procs;
    } else {
      var i := items[0];
      StoredIsReused(w, sid, i.key, i.fingerprint, i.version, i.value, drawn);
      var e := RunBegin(sid, i.key, i.fingerprint, drawn);
      var u := w.(procs := w.procs[sid := Took(w.procs[sid], i.key, i.fingerprint, i.version, i.value)]);
      assert u.procs[sid := TookAll(u.procs[sid], items[1..])] == v.procs;
      ReplayTakesAll(u, sid, items[1..], drawn, v);
      LeadsCons(w, e, u, Asking(sid, items[1..], drawn), v);
      assert Asking(sid, items, drawn) == [e] + Asking(sid, items[1..], drawn);
    }
  }

  lemma {:induction false} TookHolds(p: Proc, items: seq<Item>, n: nat)
    requires n < |items| && Replayable(p, items)
    ensures items[n].key in TookAll(p, items).outcomes
    ensures TookAll(p, items).outcomes[items[n].key]
            == Outcome(items[n].fingerprint, items[n].version, items[n].value, true, p.session.revision)
    decreases |items|
  {
    var i := items[0];
    var q := Took(p, i.key, i.fingerprint, i.version, i.value);
    if n == 0 {
      TookKeeps(q, items[1..], i.key);
    } else {
      TookHolds(q, items[1..], n - 1);
    }
  }

  lemma {:induction false} TookKeeps(p: Proc, items: seq<Item>, key: Key)
    requires key in p.started && key in p.outcomes && Replayable(p, items)
    ensures key in TookAll(p, items).outcomes && TookAll(p, items).outcomes[key] == p.outcomes[key]
    decreases |items|
  {
    if items != [] {
      var i := items[0];
      TookKeeps(Took(p, i.key, i.fingerprint, i.version, i.value), items[1..], key);
    }
  }

  /** Opening, taking up a plan, and asking for the operations. */
  function Resuming(sid: SessionId, binding: string, attempt: nat, plan: seq<Task>, items: seq<Item>,
                    drawn: Version): seq<Event> {
    [OpenRead(sid, binding)] + ([PlanAttempt(sid, attempt, plan)] + Asking(sid, items, drawn))
  }

  /** The session holds every stored result, marked as reused, and nothing else happened. */
  ghost predicate Replayed(w: World, v: World, sid: SessionId, items: seq<Item>) {
    && v.log == w.log && v.network == w.network && v.issued == w.issued && v.invocations == w.invocations
    && sid in v.procs
    && forall n :: 0 <= n < |items| ==>
         && items[n].key in v.procs[sid].outcomes
         && v.procs[sid].outcomes[items[n].key]
            == Outcome(items[n].fingerprint, items[n].version, items[n].value, true, |w.log|)
  }

  /** A session that opens on a checkpoint before its deadline gets back everything stored there for the
      operations it asks for, in an order that respects their dependencies, and nothing else happens: no
      version is drawn, no request sent, no body invoked. */
  lemma ResumeReplays(w: World, sid: SessionId, binding: string, attempt: nat, plan: seq<Task>, items: seq<Item>,
                      drawn: Version)
    requires Enabled(w, OpenRead(sid, binding)) && drawn !in w.issued
    requires TaskGraph.DistinctIds(plan) && TaskGraph.AllDepsKnown(plan)
    requires var s := Session(w.log[|w.log| - 1].state, |w.log|, None);
      Replayable(NewProc(s, Idle, w.issued.Keys).(plans := map[attempt := plan]), items)
    ensures exists v :: Leads(w, Resuming(sid, binding, attempt, plan, items, drawn), v) && Replayed(w, v, sid, items)
  {
    var a := Do(w, OpenRead(sid, binding));
    var b := Do(a, PlanAttempt(sid, attempt, plan));
    var p := b.procs[sid];
    assert p.plans == map[attempt := plan];
    var v := b.(procs := b.procs[sid := TookAll(p, items)]);
    ReplayTakesAll(b, sid, items, drawn, v);
    forall n | 0 <= n < |items|
      ensures items[n].key in v.procs[sid].outcomes
      ensures v.procs[sid].outcomes[items[n].key]
              == Outcome(items[n].fingerprint, items[n].version, items[n].value, true, |w.log|)
    {
      TookHolds(p, items, n);
    }
    var rest := Asking(sid, items, drawn);
    LeadsCons(a, PlanAttempt(sid, attempt, plan), b, rest, v);
    LeadsCons(w, OpenRead(sid, binding), a, [PlanAttempt(sid, attempt, plan)] + rest, v);
    assert Replayed(w, v, sid, items);
  }

  // ---------------------------------------------------------------- a run that does all this

  const TEXT := StepValue("plan")

  /** Session 0 is alive on a task due at 10 and bound to "task". */
  ghost predicate Working(w: World, phase: Phase, revision: nat) {
    && Reached(w) && w.now == 0 && 0 in w.procs && 1 !in w.procs && "x" !in w.issued
    && var p := w.procs[0];
    && !p.crashed && p.phase == phase && p.session.revision == revision && p.session.failure.None?
    && p.session.state.binding == "task" && p.session.state.deadline == 10
  }

  /** The answer has arrived and the planner is under way. */
  lemma PlanInvoked() returns (w: World)
    ensures Working(w, Idle, 2) && |w.log| == 2
    ensures PLAN in w.procs[0].jobs && w.procs[0].jobs[PLAN] == Job(GOAL, "v", Invoking)
  {
    var a := PlanCommitted();
    ReachedIsOk(a);
    assert ProcOk(a, 0, a.procs[0]);
    CommitIsMine(a, 0);
    w := Do(a, Acknowledge(0));
    ReachedOneMore(a, Acknowledge(0), w);
  }

  lemma PlanReturned() returns (w: World)
    ensures Working(w, Idle, 2) && |w.log| == 2
    ensures PLAN in w.procs[0].jobs && w.procs[0].jobs[PLAN] == Job(GOAL, "v", Returned(TEXT))
  {
    var a := PlanInvoked();
    ReachedIsOk(a);
    assert ProcOk(a, 0, a.procs[0]) && JobOk(a, 0, a.procs[0], PLAN, a.procs[0].jobs[PLAN]);
    w := Do(a, InvokeReturns(0, PLAN, TEXT));
    ReachedOneMore(a, InvokeReturns(0, PLAN, TEXT), w);
  }

  lemma PlanFinishing() returns (w: World)
    ensures Working(w, Locked(Finish(PLAN, "v", TEXT, true)), 2) && |w.log| == 2
    ensures Stored(w.procs[0].session.state, PLAN, GOAL, "v", TEXT)
  {
    var a := PlanReturned();
    ReachedIsOk(a);
    FinishedIsKept(a, 0, PLAN);
    w := Do(a, RunFinish(0, PLAN));
    ReachedOneMore(a, RunFinish(0, PLAN), w);
  }

  lemma PlanSaving() returns (w: World)
    ensures Working(w, Saving(Finish(PLAN, "v", TEXT, true)), 2) && |w.log| == 2
    ensures Stored(w.procs[0].session.state, PLAN, GOAL, "v", TEXT)
  {
    var a := PlanFinishing();
    w := Do(a, Send(0));
    ReachedOneMore(a, Send(0), w);
  }

  /** The result is committed. */
  lemma PlanDone() returns (w: World)
    ensures Reached(w) && w.now == 0 && 1 !in w.procs && "x" !in w.issued && |w.log| == 3
    ensures var s := w.log[2].state; s.binding == "task" && s.deadline == 10 && Stored(s, PLAN, GOAL, "v", TEXT)
  {
    var a := PlanSaving();
    ReachedIsOk(a);
    var p := a.procs[0];
    assert ProcOk(a, 0, p);
    var m := Message(0, 2, p.phase.op, p.session.state);
    w := Do(a, Deliver(m));
    ReachedOneMore(a, Deliver(m), w);
  }

  /** A run of the protocol: one session plans, its result is committed, and a second session that opens
      the checkpoint takes the plan from there. */
  lemma ReuseIsReached()
    ensures exists w :: Reached(w) && HoldsReusedPlan(w)
  {
    var a := PlanDone();
    var b := Do(a, OpenRead(1, "task"));
    ReachedOneMore(a, OpenRead(1, "task"), b);
    StoredIsReused(b, 1, PLAN, GOAL, "v", TEXT, "x");
    var w := Do(b, RunBegin(1, PLAN, GOAL, "x"));
    ReachedOneMore(b, RunBegin(1, PLAN, GOAL, "x"), w);
    assert HoldsReusedPlan(w);
  }

  predicate HoldsReusedPlan(w: World) {
    1 in w.procs && PLAN in w.procs[1].outcomes && w.procs[1].outcomes[PLAN].reused && "x" !in w.issued
  }
}
