/** What is left of an executor session once its deadline has passed. */
module RecoveryDeadline {
  import opened DagTypes
  import opened Recovery
  import opened RecoveryWorld
  import opened RecoveryInvariant
  import opened RecoveryTheorems

  /** The deadline of the session has passed. Its own save refused for that reason does not close it. */
  predicate Expired(w: World, sid: SessionId) {
    sid in w.procs && w.procs[sid].session.state.deadline <= w.now
  }

  predicate Awaiting(w: World, sid: SessionId) {
    sid in w.procs && w.procs[sid].phase.Saving?
  }

  /** The acknowledgement of the commit a waiting session is based on. */
  function Answer(w: World, sid: SessionId): SaveReply
    requires sid in w.procs && w.procs[sid].session.revision < |w.log|
  {
    var r := w.procs[sid].session.revision;
    SaveReply.Acknowledged(r + 1, w.log[r].state)
  }

  lemma BeginAnswered(w: World, v: World, sid: SessionId)
    requires Enabled(w, Acknowledge(sid)) && v == Resumed(w, sid) && w.procs[sid].phase.op.Begin?
    requires AfterReply(w.procs[sid].session, Answer(w, sid)).state == w.procs[sid].session.state
    ensures Expired(w, sid) ==> Expired(v, sid)
    ensures !Awaiting(v, sid)
  {
  }

  lemma OtherAnswered(w: World, v: World, sid: SessionId)
    requires Enabled(w, Acknowledge(sid)) && v == Resumed(w, sid) && !w.procs[sid].phase.op.Begin?
    requires AfterReply(w.procs[sid].session, Answer(w, sid)).state == w.procs[sid].session.state
    ensures Expired(w, sid) ==> Expired(v, sid)
    ensures !Awaiting(v, sid)
    ensures v.invocations == w.invocations
  {
  }

  lemma ExpiredWhenAnswered(w: World, v: World, sid: SessionId)
    requires Inv(w) && Enabled(w, Acknowledge(sid)) && Expired(w, sid) && v == Resumed(w, sid)
    ensures Expired(v, sid) && !Awaiting(v, sid)
    ensures !w.procs[sid].phase.op.Begin? ==> v.invocations == w.invocations
  {
    CommitIsMine(w, sid);
    if w.procs[sid].phase.op.Begin? {
      BeginAnswered(w, v, sid);
    } else {
      OtherAnswered(w, v, sid);
    }
  }

  /** A run's steps check the deadline before they send anything. */
  lemma ExpiredInRun(w: World, e: Event, v: World, sid: SessionId)
    requires Enabled(w, e) && (e.RunBegin? || e.RunFinish?) && Expired(w, sid) && v == Do(w, e)
    ensures Expired(v, sid) && (Awaiting(v, sid) ==> Awaiting(w, sid))
  {
  }

  lemma ExpiredBeforeSave(w: World, e: Event, v: World, sid: SessionId)
    requires Enabled(w, e) && (e.Send? || e.InvokeReturns?) && Expired(w, sid) && v == Do(w, e)
    ensures Expired(v, sid) && (Awaiting(v, sid) ==> Awaiting(w, sid))
  {
  }

  lemma ExpiredElsewhere(w: World, other: SessionId, v: World, sid: SessionId)
    requires Enabled(w, Acknowledge(other)) && other != sid && Expired(w, sid) && v == Resumed(w, other)
    ensures Expired(v, sid) && (Awaiting(v, sid) ==> Awaiting(w, sid))
  {
    OthersAcknowledged(w, other, v, sid);
    assert v.now == w.now;
  }

  lemma ExpiredOtherwise(w: World, e: Event, v: World, sid: SessionId)
    requires Enabled(w, e) && !(e.RunBegin? || e.RunFinish? || e.Send? || e.InvokeReturns? || e.Acknowledge?)
    requires Expired(w, sid) && v == Do(w, e)
    ensures Expired(v, sid) && (Awaiting(v, sid) ==> Awaiting(w, sid))
  {
  }

  lemma ExpiredStays(w: World, e: Event, v: World, sid: SessionId)
    requires Inv(w) && Enabled(w, e) && Expired(w, sid) && v == Do(w, e)
    ensures Expired(v, sid) && (Awaiting(v, sid) ==> Awaiting(w, sid))
  {
    if e == Acknowledge(sid) {
      ExpiredWhenAnswered(w, v, sid);
    } else if e.Acknowledge? {
      ExpiredElsewhere(w, e.sid, v, sid);
    } else if e.RunBegin? || e.RunFinish? {
      ExpiredInRun(w, e, v, sid);
    } else if e.Send? || e.InvokeReturns? {
      ExpiredBeforeSave(w, e, v, sid);
    } else {
      ExpiredOtherwise(w, e, v, sid);
    }
  }

  lemma ExpiredSendsNothing(w: World, e: Event, v: World, sid: SessionId)
    requires Enabled(w, e) && Expired(w, sid) && v == Do(w, e)
    ensures forall m :: m in v.network && m.sender == sid ==> m in w.network
  {
  }

  lemma ExpiredIsRefused(w: World, e: Event, sid: SessionId)
    requires Enabled(w, e) && e.RunBegin? && Expired(w, sid)
    ensures e.sid != sid
  {
  }

  lemma ExpiredDrawsNothing(w: World, e: Event, v: World, sid: SessionId)
    requires Enabled(w, e) && Expired(w, sid) && v == Do(w, e)
    ensures forall x :: x in w.issued ==> x in v.issued && v.issued[x] == w.issued[x]
    ensures forall x :: x in v.issued && x !in w.issued ==> v.issued[x].owner != sid
  {
    if e.RunBegin? {
      ExpiredIsRefused(w, e, sid);
      OthersBeganRun(w, e, v, sid);
    } else {
      IssuedStays(w, e, v);
    }
  }

  /** After the deadline a session sends no further request and draws no version, whatever it was doing
      and although nothing marks it as failed. Unless it is still waiting for an answer, it also never
      advances, commits or starts an invocation. */
  lemma {:induction false} ExpiredForever(w: World, run: seq<Event>, v: World, sid: SessionId)
    requires Inv(w) && Leads(w, run, v) && Expired(w, sid)
    ensures Expired(v, sid) && Silent(w, v, sid)
    ensures !Awaiting(w, sid) ==> !Awaiting(v, sid) && Frozen(w, v, sid)
    decreases |run|
  {
    if run != [] {
      var u := Do(w, run[0]);
      ExpiredStays(w, run[0], u, sid);
      ExpiredSendsNothing(w, run[0], u, sid);
      ExpiredDrawsNothing(w, run[0], u, sid);
      EventKeepsInv(w, run[0]);
      if !Awaiting(w, sid) {
        FrozenStep(w, run[0], u, sid);
      }
      ExpiredForever(u, run[1..], v, sid);
    }
  }

  // ---------------------------------------------------------------- the last invocation

  /** The session waits for the answer to a RUNNING entry, and no other session has taken the revision
      that entry needs. */
  ghost predicate MayStillInvoke(w: World, sid: SessionId) {
    && Alive(w, sid) && w.procs[sid].phase.Saving? && w.procs[sid].phase.op.Begin?
    && !LeftBehind(w, sid)
  }

  /** From `w` to `v` session `sid` starts an invocation. */
  ghost predicate Invokes(w: World, v: World, sid: SessionId) {
    exists x :: x in v.invocations && x !in w.invocations && v.invocations[x].issue.owner == sid
  }

  ghost predicate KeepsInvocations(w: World, v: World) {
    forall x :: x in w.invocations ==> x in v.invocations && v.invocations[x].issue == w.invocations[x].issue
  }

  /** An expired session never comes to wait for a RUNNING entry again. */
  lemma NoNewWait(w: World, e: Event, v: World, sid: SessionId)
    requires Enabled(w, e) && Expired(w, sid) && e != Acknowledge(sid) && v == Do(w, e)
    requires Awaiting(v, sid) ==> Awaiting(w, sid)
    ensures MayStillInvoke(v, sid) ==>
              && Alive(w, sid) && w.procs[sid].phase.Saving? && w.procs[sid].phase.op.Begin?
  {
    if e.Acknowledge? {
      OthersAcknowledged(w, e.sid, v, sid);
    }
  }

  lemma NoLateInvocationStep(w: World, e: Event, v: World, sid: SessionId)
    requires Inv(w) && Enabled(w, e) && Expired(w, sid) && !MayStillInvoke(w, sid) && v == Do(w, e)
    ensures Expired(v, sid) && !MayStillInvoke(v, sid) && !Invokes(w, v, sid) && KeepsInvocations(w, v)
  {
    ExpiredStays(w, e, v, sid);
    InvocationsAreKept(w, e);
    if e == Acknowledge(sid) {
      ExpiredWhenAnswered(w, v, sid);
    } else {
      OnlyOwnersInvoke(w, e, sid);
      NoNewWait(w, e, v, sid);
      if LeftBehind(w, sid) {
        LeftBehindStep(w, e, sid);
      }
    }
  }

  /** After the deadline nothing but the answer to a RUNNING entry can start an invocation. */
  lemma {:induction false} NoLateInvocation(w: World, run: seq<Event>, v: World, sid: SessionId)
    requires Inv(w) && Leads(w, run, v) && Expired(w, sid) && !MayStillInvoke(w, sid)
    ensures !Invokes(w, v, sid) && KeepsInvocations(w, v)
    decreases |run|
  {
    if run != [] {
      var u := Do(w, run[0]);
      NoLateInvocationStep(w, run[0], u, sid);
      EventKeepsInv(w, run[0]);
      NoLateInvocation(u, run[1..], v, sid);
    }
  }

  /** An answer starts the invocation of the RUNNING entry without another look at the clock. It is the
      last one: the session then waits no more. */
  lemma AnswerInvokes(w: World, sid: SessionId, v: World)
    requires Inv(w) && Enabled(w, Acknowledge(sid)) && w.procs[sid].phase.op.Begin? && v == Do(w, Acknowledge(sid))
    ensures Invokes(w, v, sid) && !MayStillInvoke(v, sid)
  {
    CommitIsMine(w, sid);
    var op := w.procs[sid].phase.op;
    assert JobOk(w, sid, w.procs[sid], op.key, w.procs[sid].jobs[op.key]);
    assert op.version in v.invocations && v.invocations[op.version].issue == Issue(op.key, op.fingerprint, sid);
  }

  /** The request of a session that may still invoke is committed or can be. */
  lemma LateAnswer(w: World, sid: SessionId) returns (run: seq<Event>, v: World)
    requires Inv(w) && MayStillInvoke(w, sid)
    ensures Leads(w, run, v) && Invokes(w, v, sid)
  {
    var p := w.procs[sid];
    assert ProcOk(w, sid, p);
    if p.session.revision < |w.log| {
      v := Do(w, Acknowledge(sid));
      run := [Acknowledge(sid)];
      AnswerInvokes(w, sid, v);
    } else {
      var m := Message(sid, p.session.revision, p.phase.op, p.session.state);
      var u := Do(w, Deliver(m));
      EventKeepsInv(w, Deliver(m));
      v := Do(u, Acknowledge(sid));
      AnswerInvokes(u, sid, v);
      run := [Deliver(m), Acknowledge(sid)];
      assert run[1..] == [Acknowledge(sid)];
    }
  }

  ghost predicate LeadsToInvocation(w: World, run: seq<Event>, v: World, sid: SessionId) {
    Leads(w, run, v) && Invokes(w, v, sid)
  }

  /** Exactly when an expired session can still start an invocation. */
  lemma LateInvocationIff(w: World, sid: SessionId)
    requires Inv(w) && Expired(w, sid)
    ensures MayStillInvoke(w, sid) <==> exists run, v :: LeadsToInvocation(w, run, v, sid)
  {
    if MayStillInvoke(w, sid) {
      var run, v := LateAnswer(w, sid);
      assert LeadsToInvocation(w, run, v, sid);
    } else {
      forall run, v | Leads(w, run, v)
        ensures !Invokes(w, v, sid)
      {
        NoLateInvocation(w, run, v, sid);
      }
    }
  }

  lemma AnswerInvokesOne(w: World, sid: SessionId, v: World)
    requires Inv(w) && Enabled(w, Acknowledge(sid)) && w.procs[sid].phase.op.Begin? && v == Resumed(w, sid)
    ensures v.invocations.Keys <= w.invocations.Keys + {w.procs[sid].phase.op.version}
  {
  }

  lemma WaitsOrStarts(w: World, e: Event, v: World, sid: SessionId)
    requires Inv(w) && Enabled(w, e) && Expired(w, sid) && v == Do(w, e)
    ensures Expired(v, sid) && KeepsInvocations(w, v)
    ensures !Invokes(w, v, sid) ||
            (e == Acknowledge(sid) && w.procs[sid].phase.op.Begin? && !MayStillInvoke(v, sid))
  {
    ExpiredStays(w, e, v, sid);
    InvocationsAreKept(w, e);
    if e != Acknowledge(sid) {
      OnlyOwnersInvoke(w, e, sid);
    } else {
      ExpiredWhenAnswered(w, v, sid);
    }
  }

  /** And it is one at most. */
  lemma {:induction false} OneLateInvocation(w: World, run: seq<Event>, v: World, sid: SessionId, x: Version,
                                             y: Version)
    requires Inv(w) && Leads(w, run, v) && Expired(w, sid)
    requires x in v.invocations && x !in w.invocations && v.invocations[x].issue.owner == sid
    requires y in v.invocations && y !in w.invocations && v.invocations[y].issue.owner == sid
    ensures x == y
    decreases |run|
  {
    var u := Do(w, run[0]);
    WaitsOrStarts(w, run[0], u, sid);
    EventKeepsInv(w, run[0]);
    if Invokes(w, u, sid) {
      NoLateInvocation(u, run[1..], v, sid);
      AnswerInvokesOne(w, sid, u);
      assert x in u.invocations && y in u.invocations;
    } else {
      RunKeepsInvocations(u, run[1..], v);
      OneLateInvocation(u, run[1..], v, sid, x, y);
    }
  }

  lemma {:induction false} RunKeepsInvocations(w: World, run: seq<Event>, v: World)
    requires Inv(w) && Leads(w, run, v)
    ensures KeepsInvocations(w, v)
    decreases |run|
  {
    if run != [] {
      InvocationsAreKept(w, run[0]);
      EventKeepsInv(w, run[0]);
      RunKeepsInvocations(Do(w, run[0]), run[1..], v);
    }
  }

  /** The scope of a session runs under a timer set to its deadline. Once the cancellation has reached the
      waiting save, the session is failed and the exception above is over. */
  lemma CancelledForever(w: World, sid: SessionId, run: seq<Event>, v: World)
    requires Inv(w) && Alive(w, sid) && Awaiting(w, sid) && Leads(Do(w, SaveFails(sid, Cancelled)), run, v)
    ensures Failed(v, sid) && Silent(w, v, sid) && !Invokes(w, v, sid)
  {
    var u := Do(w, SaveFails(sid, Cancelled));
    EventKeepsInv(w, SaveFails(sid, Cancelled));
    FailedForever(u, run, v, sid);
    assert u.invocations == w.invocations && u.network == w.network && u.issued == w.issued;
  }

  // ---------------------------------------------------------------- the exception is reached

  lemma {:induction false} LeadsOneMore(w: World, run: seq<Event>, v: World, e: Event)
    requires Leads(w, run, v) && Enabled(v, e)
    ensures Leads(w, run + [e], Do(v, e))
    decreases |run|
  {
    if run == [] {
      assert [e][1..] == [];
      assert run + [e] == [e];
    } else {
      LeadsOneMore(Do(w, run[0]), run[1..], v, e);
      assert (run + [e])[1..] == run[1..] + [e];
    }
  }

  lemma LimitsStay(w: World, e: Event, v: World)
    requires Enabled(w, e) && v == Do(w, e)
    ensures v.maxCalls == w.maxCalls && v.maxTokens == w.maxTokens
  {
  }

  lemma ReachedOneMore(w: World, e: Event, v: World)
    requires Reached(w) && Enabled(w, e) && v == Do(w, e)
    ensures Reached(v)
  {
    var now, run :| Leads(Initial(now, w.maxCalls, w.maxTokens), run, w);
    var start := Initial(now, w.maxCalls, w.maxTokens);
    LeadsOneMore(start, run, w, e);
    LimitsStay(w, e, v);
    assert Leads(start, run + [e], v) && start == Initial(now, v.maxCalls, v.maxTokens);
  }

  const PLAN := Step("plan")
  const GOAL := StepInput("goal")
  const OPENED := Session(FreshState("task", 10), 1, None)

  /** One session has opened a task due at 10. */
  lemma Opened() returns (w: World)
    ensures Reached(w) && w.now == 0 && w.issued == map[] && |w.log| == 1 && w.procs.Keys == {0}
    ensures w.procs[0] == NewProc(OPENED, Idle, {})
  {
    var a := Initial(0, 1, 1);
    assert Leads(Initial(0, 1, 1), [], a);
    var b := Do(a, OpenCreate(0, "task", 10));
    ReachedOneMore(a, OpenCreate(0, "task", 10), b);
    var m := Message(0, 0, Create, FreshState("task", 10));
    var c := Do(b, Deliver(m));
    ReachedOneMore(b, Deliver(m), c);
    w := Do(c, Acknowledge(0));
    ReachedOneMore(c, Acknowledge(0), w);
  }

  /** It has recorded the RUNNING entry of its planner. */
  lemma PlanRecorded() returns (w: World)
    ensures Reached(w) && w.now == 0 && |w.log| == 1 && 0 in w.procs
    ensures !w.procs[0].crashed && w.procs[0].phase == Locked(Begin(PLAN, GOAL, "v"))
    ensures w.procs[0].session == OPENED.(state := ApplyOp(Begin(PLAN, GOAL, "v"), OPENED.state))
    ensures w.procs.Keys == {0} && w.issued.Keys == {"v"}
  {
    var a := Opened();
    w := Do(a, RunBegin(0, PLAN, GOAL, "v"));
    ReachedOneMore(a, RunBegin(0, PLAN, GOAL, "v"), w);
  }

  /** The entry was sent in time and is committed. */
  lemma PlanCommitted() returns (w: World)
    ensures Reached(w) && w.now == 0 && |w.log| == 2 && 0 in w.procs
    ensures w.log[1].writer == 0 && !w.procs[0].crashed && w.procs[0].phase == Saving(Begin(PLAN, GOAL, "v"))
    ensures w.procs[0].session.revision == 1 && w.procs[0].session.state.deadline == 10
    ensures w.procs[0].session.state.binding == "task" && w.procs.Keys == {0} && "x" !in w.issued
  {
    var b := PlanRecorded();
    var c := Do(b, Send(0));
    ReachedOneMore(b, Send(0), c);
    var m := Message(0, 1, Begin(PLAN, GOAL, "v"), c.procs[0].session.state);
    w := Do(c, Deliver(m));
    ReachedOneMore(c, Deliver(m), w);
  }

  /** A run of the protocol reaches the exception: the deadline passes while the answer to a RUNNING
      entry, sent in time, is still on its way. */
  lemma LateAnswerIsReached()
    ensures exists w :: Reached(w) && Expired(w, 0) && MayStillInvoke(w, 0)
  {
    var u := PlanCommitted();
    var w := Do(u, Tick(10));
    ReachedOneMore(u, Tick(10), w);
    assert Reached(w) && Expired(w, 0) && MayStillInvoke(w, 0);
  }
}
