/** The inductive invariant of the recovery world, and its preservation by every event. */
module RecoveryInvariant {
  import opened DagTypes
  import opened Recovery
  import opened RecoveryWorld

  // ---------------------------------------------------------------- the invariant

  ghost predicate FollowsFrom(w: World, op: SaveOp, revision: nat, s: CheckpointState) {
    if revision == 0 then
      op.Create? && s == FreshState(s.binding, s.deadline)
    else
      && revision <= |w.log|
      && OpAllowed(op, w.log[revision - 1].state, w.maxCalls, w.maxTokens)
      && s == ApplyOp(op, w.log[revision - 1].state)
  }

  /** Every commit was a request based on the commit just before it. */
  ghost predicate LogOk(w: World) {
    forall i {:trigger CommitOk(w, i)} :: 0 <= i < |w.log| ==> CommitOk(w, i)
  }

  ghost predicate CommitOk(w: World, i: nat)
    requires i < |w.log|
  {
    && Message(w.log[i].writer, i, w.log[i].op, w.log[i].state) in w.network
    && StateOk(w, w.log[i].state)
  }

  /** A session has at most one request per revision, the one it is waiting for. */
  ghost predicate MessageOk(w: World, m: Message) {
    && m.sender in w.procs
    && m.revision <= w.procs[m.sender].session.revision
    && FollowsFrom(w, m.op, m.revision, m.state)
    && StateOk(w, m.state)
    && (m.revision == w.procs[m.sender].session.revision ==>
          var p := w.procs[m.sender];
          p.session.failure.Some? || (p.phase == Saving(m.op) && p.session.state == m.state))
  }

  ghost predicate NetworkOk(w: World) {
    forall m {:trigger MessageOk(w, m)} :: m in w.network ==> MessageOk(w, m)
  }

  ghost predicate EntryOk(w: World, key: Key, e: Operation) {
    && e.version in w.issued
    && w.issued[e.version].key == key && w.issued[e.version].fingerprint == e.fingerprint
    && (e.status == Done ==>
          && e.version in w.invocations && e.result.Some? && w.invocations[e.version].result == e.result)
    && (e.reusable ==> e.status == Done && (key.Node? ==>
          e.result.value.NodeValue? && Succeeded(e.result.value.result) && !UsesTools(e.result.value.result)))
  }

  ghost predicate StateOk(w: World, s: CheckpointState) {
    forall key {:trigger EntryOk(w, key, s.operations[key])} :: key in s.operations ==>
          EntryOk(w, key, s.operations[key])
  }

  ghost predicate Mentions(f: Fingerprint, versions: set<Version>) {
    f.NodeInput? ==> forall i :: 0 <= i < |f.deps| ==> f.deps[i].1 in versions
  }

  ghost predicate IssuedOk(w: World) {
    forall v :: v in w.issued ==> Mentions(w.issued[v].fingerprint, w.issued.Keys) && w.issued[v].owner in w.procs
  }

  /** An invocation was given the results that the named versions of its dependencies produced. */
  ghost predicate InvocationOk(w: World, v: Version, inv: Invocation) {
    && v in w.issued && w.issued[v] == inv.issue
    && 0 < inv.revision <= |w.log|
    && w.log[inv.revision - 1].op == Begin(inv.issue.key, inv.issue.fingerprint, v)
    && w.log[inv.revision - 1].writer == inv.issue.owner
    && (inv.issue.key.Node? ==>
          var f := inv.issue.fingerprint;
          && f.NodeInput? && f.taskId == inv.issue.key.taskId
          && inv.upstream.Keys == (set d | d in DepNames(f))
          && (forall i :: 0 <= i < |f.deps| ==>
                && f.deps[i].0 in inv.upstream
                && ProducedBy(w, Node(inv.issue.key.attempt, f.deps[i].0), f.deps[i].1,
                              NodeValue(inv.upstream[f.deps[i].0])))
          && (inv.result.Some? ==>
                && inv.result.value.NodeValue?
                && WorkerMayReturn(TaskOf(f), inv.upstream, inv.result.value.result)))
    && (inv.issue.key.Synthesis? ==> SynthesisOk(inv))
  }

  /** A synthesis names results, and the reply it returned has the stop reason they decide. */
  ghost predicate SynthesisOk(inv: Invocation) {
    && inv.issue.fingerprint.SynthesisInput?
    && (inv.result.Some? ==>
          && inv.result.value.ReplyValue?
          && var reply := inv.result.value.reply;
          && reply == SynthesisOf(inv.issue.fingerprint.results, reply.answer))
  }

  ghost predicate ProducedBy(w: World, key: Key, v: Version, value: Value) {
    v in w.invocations && w.invocations[v].issue.key == key && w.invocations[v].result == Some(value)
  }

  ghost predicate InvocationsOk(w: World) {
    forall v {:trigger InvocationOk(w, v, w.invocations[v])} :: v in w.invocations ==>
          InvocationOk(w, v, w.invocations[v])
  }

  ghost predicate PaidBy(w: World, c: Call) {
    && 1 <= c.revision <= |w.log|
    && w.log[c.revision - 1].op == Reserve(c.tokens)
    && w.log[c.revision - 1].writer == c.caller
  }

  ghost predicate CallOk(w: World, c: Call) {
    PaidBy(w, c) && c.caller in w.procs && c.revision <= w.procs[c.caller].session.revision
  }

  ghost predicate CallsOk(w: World) {
    && (forall i {:trigger CallOk(w, w.calls[i])} :: 0 <= i < |w.calls| ==>
          CallOk(w, w.calls[i]))
    && (forall i, j :: 0 <= i < j < |w.calls| ==> w.calls[i].revision != w.calls[j].revision)
  }

  /** A live session agrees with the commit it last saw acknowledged. */
  ghost predicate SyncOk(w: World, sid: SessionId, p: Proc) {
    && p.session.revision <= |w.log|
    && (p.session.failure.None? && w.now < p.session.state.deadline ==>
          match p.phase
          case Idle => p.session.revision > 0 && w.log[p.session.revision - 1].state == p.session.state
          case Locked(op) => p.session.revision > 0 && FollowsFrom(w, op, p.session.revision, p.session.state)
          case Saving(_) => true)
    && (p.phase.Saving? ==>
          && p.session.failure.None?
          && Message(sid, p.session.revision, p.phase.op, p.session.state) in w.network)
    && StateOk(w, p.session.state)
  }

  ghost predicate TicketsOk(w: World, sid: SessionId, p: Proc) {
    forall r {:trigger TicketOk(w, sid, p, r)} :: r in p.tickets ==> TicketOk(w, sid, p, r)
  }

  /** A granted reservation that has not been spent. */
  ghost predicate TicketOk(w: World, sid: SessionId, p: Proc, r: nat)
    requires r in p.tickets
  {
    && PaidBy(w, Call(r, p.tickets[r], sid))
    && r <= p.session.revision
    && forall i :: 0 <= i < |w.calls| ==> w.calls[i].revision != r
  }

  ghost predicate JobOk(w: World, sid: SessionId, p: Proc, key: Key, job: Job) {
    && key in p.started && key !in p.outcomes
    && job.version in w.issued && w.issued[job.version] == Issue(key, job.fingerprint, sid)
    && job.version !in p.base
    && key in p.session.state.operations && p.session.state.operations[key].version == job.version
    && DepsFinished(p.plans, p.outcomes, key, job.fingerprint)
    && match job.stage
       case Starting => job.version !in w.invocations
       case Invoking =>
         && job.version in w.invocations && w.invocations[job.version].result.None?
       case Returned(x) =>
         && job.version in w.invocations && w.invocations[job.version].result == Some(x)
  }

  ghost predicate OutcomeOk(w: World, p: Proc, key: Key, o: Outcome) {
    && key in p.started
    && o.version in w.invocations
    && w.invocations[o.version].issue.key == key
    && w.invocations[o.version].issue.fingerprint == o.fingerprint
    && w.invocations[o.version].result == Some(o.value)
    && (o.reused <==> o.version in p.base)
    && (o.reused ==> Mentions(o.fingerprint, p.base))
    && (o.reused && key.Node? ==>
          o.value.NodeValue? && Succeeded(o.value.result) && !UsesTools(o.value.result))
    && DepsFinished(p.plans, p.outcomes, key, o.fingerprint)
    && CommittedDone(w, o.revision, key, o.version, o.value)
  }

  /** Commit number `revision` holds the DONE entry of that version with that result. */
  ghost predicate CommittedDone(w: World, revision: nat, key: Key, v: Version, value: Value) {
    && 0 < revision <= |w.log|
    && var operations := w.log[revision - 1].state.operations;
    && key in operations && operations[key].version == v
    && operations[key].status == Done && operations[key].result == Some(value)
  }

  /** Entries this session did not start were in the checkpoint it opened. */
  ghost predicate InheritedOk(w: World, p: Proc) {
    && p.base <= w.issued.Keys
    && forall key :: key in p.session.state.operations && key !in p.started ==>
         && p.session.state.operations[key].version in p.base
         && Mentions(p.session.state.operations[key].fingerprint, p.base)
  }

  ghost predicate PhaseOk(p: Proc) {
    p.phase != Idle ==>
      match p.phase.op
      case Begin(key, f, v) => key in p.jobs && p.jobs[key] == Job(f, v, Starting)
      case Finish(key, v, x, _) =>
        key in p.jobs && p.jobs[key].version == v && p.jobs[key].stage == Returned(x)
      case _ => true
  }

  ghost predicate WorkOk(w: World, sid: SessionId, p: Proc) {
    && (forall key {:trigger JobOk(w, sid, p, key, p.jobs[key])} :: key in p.jobs ==>
          JobOk(w, sid, p, key, p.jobs[key]))
    && (forall key {:trigger OutcomeOk(w, p, key, p.outcomes[key])} :: key in p.outcomes ==>
          OutcomeOk(w, p, key, p.outcomes[key]))
    && InheritedOk(w, p)
    && PhaseOk(p)
  }

  ghost predicate ProcOk(w: World, sid: SessionId, p: Proc) {
    SyncOk(w, sid, p) && TicketsOk(w, sid, p) && WorkOk(w, sid, p)
  }

  ghost predicate ProcsOk(w: World) {
    forall sid {:trigger ProcOk(w, sid, w.procs[sid])} :: sid in w.procs ==> ProcOk(w, sid, w.procs[sid])
  }

  ghost predicate Inv(w: World) {
    var ok :=
      LogOk(w) && NetworkOk(w) && IssuedOk(w) && InvocationsOk(w) && CallsOk(w) && ProcsOk(w);
    ok
  }

  // ---------------------------------------------------------------- growth

  /** How one event of session `sid` may extend the shared history. */
  ghost predicate Grows(w: World, v: World, sid: SessionId) {
    && w.maxCalls == v.maxCalls && w.maxTokens == v.maxTokens
    && w.now <= v.now
    && w.log <= v.log
    && w.network <= v.network
    && (forall x :: x in w.issued ==> x in v.issued && v.issued[x] == w.issued[x])
    && (forall x :: x in w.invocations ==>
          && x in v.invocations && v.invocations[x].issue == w.invocations[x].issue
          && (w.invocations[x].result.Some? || w.invocations[x].issue.owner != sid ==>
                v.invocations[x] == w.invocations[x]))
    && (forall x :: x in v.invocations && x !in w.invocations ==> v.invocations[x].issue.owner == sid)
    && |w.calls| <= |v.calls|
    && (forall i :: 0 <= i < |w.calls| ==> v.calls[i] == w.calls[i])
    && (forall i :: |w.calls| <= i < |v.calls| ==> v.calls[i].caller == sid)
  }

  lemma StateOkGrows(w: World, v: World, sid: SessionId, s: CheckpointState)
    requires Grows(w, v, sid) && StateOk(w, s)
    ensures StateOk(v, s)
  {
    forall key | key in s.operations
      ensures EntryOk(v, key, s.operations[key])
    {
      assert EntryOk(w, key, s.operations[key]);
    }
  }

  lemma FollowsFromGrows(w: World, v: World, sid: SessionId, op: SaveOp, revision: nat, s: CheckpointState)
    requires Grows(w, v, sid) && FollowsFrom(w, op, revision, s)
    ensures FollowsFrom(v, op, revision, s)
  {
  }

  lemma SyncOkGrows(w: World, v: World, sid: SessionId, other: SessionId, p: Proc)
    requires Grows(w, v, sid) && SyncOk(w, other, p)
    ensures SyncOk(v, other, p)
  {
    StateOkGrows(w, v, sid, p.session.state);
  }

  lemma TicketsOkGrows(w: World, v: World, sid: SessionId, other: SessionId, p: Proc)
    requires Grows(w, v, sid) && CallsOk(v) && TicketsOk(w, other, p) && sid != other
    ensures TicketsOk(v, other, p)
  {
    forall r | r in p.tickets
      ensures TicketOk(v, other, p, r)
    {
      assert TicketOk(w, other, p, r);
      forall i | 0 <= i < |v.calls|
        ensures v.calls[i].revision != r
      {
        assert CallOk(v, v.calls[i]);
        if i < |w.calls| {
          assert w.calls[i].revision != r;
        }
      }
    }
  }

  lemma WorkOkGrows(w: World, v: World, sid: SessionId, other: SessionId, p: Proc)
    requires Grows(w, v, sid) && InvocationsOk(w) && InvocationsOk(v) && WorkOk(w, other, p) && sid != other
    ensures WorkOk(v, other, p)
  {
    forall key | key in p.jobs
      ensures JobOk(v, other, p, key, p.jobs[key])
    {
      var job := p.jobs[key];
      assert JobOk(w, other, p, key, job);
      assert job.version in w.invocations ==> InvocationOk(w, job.version, w.invocations[job.version]);
      assert job.version in v.invocations ==> InvocationOk(v, job.version, v.invocations[job.version]);
    }
    forall key | key in p.outcomes
      ensures OutcomeOk(v, p, key, p.outcomes[key])
    {
      assert OutcomeOk(w, p, key, p.outcomes[key]);
    }
  }

  /** The requests of one session. */
  ghost predicate RequestsOk(w: World, sid: SessionId) {
    forall m {:trigger MessageOk(w, m)} :: m in w.network && m.sender == sid ==> MessageOk(w, m)
  }

  /** Only session `sid` changes, and it adds only requests and versions of its own. */
  ghost predicate OnlyActs(w: World, v: World, sid: SessionId) {
    && sid in v.procs
    && (forall other :: other in w.procs ==> other in v.procs)
    && (forall other :: other in v.procs && other != sid ==> other in w.procs && v.procs[other] == w.procs[other])
    && (forall m :: m in v.network && m !in w.network ==> m.sender == sid)
    && (forall i :: |w.log| <= i < |v.log| ==> Message(v.log[i].writer, i, v.log[i].op, v.log[i].state) in v.network)
  }

  lemma OthersStayOk(w: World, v: World, sid: SessionId)
    requires ProcsOk(w) && InvocationsOk(w) && Grows(w, v, sid) && CallsOk(v) && InvocationsOk(v)
    requires OnlyActs(w, v, sid) && ProcOk(v, sid, v.procs[sid])
    ensures ProcsOk(v)
  {
    forall other | other in v.procs && other != sid
      ensures ProcOk(v, other, v.procs[other])
    {
      var p := w.procs[other];
      assert ProcOk(w, other, p);
      SyncOkGrows(w, v, sid, other, p);
      TicketsOkGrows(w, v, sid, other, p);
      WorkOkGrows(w, v, sid, other, p);
    }
  }

  lemma NetworkStaysOk(w: World, v: World, sid: SessionId)
    requires NetworkOk(w) && Grows(w, v, sid) && OnlyActs(w, v, sid) && RequestsOk(v, sid)
    ensures NetworkOk(v)
  {
    forall m | m in v.network
      ensures MessageOk(v, m)
    {
      if m.sender != sid {
        assert MessageOk(w, m);
        StateOkGrows(w, v, sid, m.state);
        FollowsFromGrows(w, v, sid, m.op, m.revision, m.state);
      }
    }
  }

  lemma LogStaysOk(w: World, v: World, sid: SessionId)
    requires LogOk(w) && Grows(w, v, sid) && OnlyActs(w, v, sid) && NetworkOk(v)
    ensures LogOk(v)
  {
    forall i | 0 <= i < |v.log|
      ensures CommitOk(v, i)
    {
      if i < |w.log| {
        assert CommitOk(w, i);
        StateOkGrows(w, v, sid, w.log[i].state);
      } else {
        assert MessageOk(v, Message(v.log[i].writer, i, v.log[i].op, v.log[i].state));
      }
    }
  }

  lemma SameIssuedOk(w: World, v: World, sid: SessionId)
    requires IssuedOk(w) && v.issued == w.issued && OnlyActs(w, v, sid)
    ensures IssuedOk(v)
  {
  }

  /** Assembly: what remains to be shown when only session `sid` acts. */
  lemma StepOk(w: World, v: World, sid: SessionId)
    requires Inv(w) && Grows(w, v, sid) && OnlyActs(w, v, sid)
    requires RequestsOk(v, sid) && IssuedOk(v) && InvocationsOk(v) && CallsOk(v) && ProcOk(v, sid, v.procs[sid])
    ensures Inv(v)
  {
    NetworkStaysOk(w, v, sid);
    LogStaysOk(w, v, sid);
    OthersStayOk(w, v, sid);
  }

  /** Assembly for events that add to no history but the log. */
  lemma QuietStepOk(w: World, v: World, sid: SessionId)
    requires Inv(w) && Grows(w, v, sid) && OnlyActs(w, v, sid)
    requires v.issued == w.issued && v.invocations == w.invocations && v.calls == w.calls
    requires sid in w.procs ==> w.procs[sid].session.revision <= v.procs[sid].session.revision
    requires RequestsOk(v, sid) && ProcOk(v, sid, v.procs[sid])
    ensures Inv(v)
  {
    SameIssuedOk(w, v, sid);
    SameInvocationsOk(w, v, sid);
    SameCallsOk(w, v, sid);
    StepOk(w, v, sid);
  }

  // ---------------------------------------------------------------- events

  lemma SameInvocationsOk(w: World, v: World, sid: SessionId)
    requires InvocationsOk(w) && Grows(w, v, sid) && v.invocations == w.invocations
    ensures InvocationsOk(v)
  {
    forall x | x in v.invocations
      ensures InvocationOk(v, x, v.invocations[x])
    {
      assert InvocationOk(w, x, w.invocations[x]);
    }
  }

  lemma TickOk(w: World, ms: nat)
    requires Inv(w)
    ensures Inv(Do(w, Tick(ms)))
  {
    var v := Do(w, Tick(ms));
    forall sid | sid in w.procs
      ensures ProcOk(v, sid, v.procs[sid])
    {
      var p := w.procs[sid];
      assert ProcOk(w, sid, p);
      assert Grows(w, v, sid);
      SyncOkGrows(w, v, sid, sid, p);
      assert TicketsOk(v, sid, p) by {
        forall r | r in p.tickets
          ensures TicketOk(v, sid, p, r)
        {
          assert TicketOk(w, sid, p, r);
        }
      }
      assert WorkOk(v, sid, p) by {
        forall key | key in p.jobs
          ensures JobOk(v, sid, p, key, p.jobs[key])
        {
          assert JobOk(w, sid, p, key, p.jobs[key]);
        }
        forall key | key in p.outcomes
          ensures OutcomeOk(v, p, key, p.outcomes[key])
        {
          assert OutcomeOk(w, p, key, p.outcomes[key]);
        }
      }
    }
    assert Grows(w, v, 0);
    SameInvocationsOk(w, v, 0);
    forall m | m in v.network
      ensures MessageOk(v, m)
    {
      assert MessageOk(w, m);
      StateOkGrows(w, v, 0, m.state);
    }
    forall i | 0 <= i < |v.log|
      ensures CommitOk(v, i)
    {
      assert CommitOk(w, i);
      StateOkGrows(w, v, 0, w.log[i].state);
    }
    forall i | 0 <= i < |v.calls|
      ensures CallOk(v, v.calls[i])
    {
      assert CallOk(w, w.calls[i]);
    }
  }

  /** Own work is untouched by a change of phase, revision, failure or counters. */
  lemma SameWorkOk(w: World, v: World, sid: SessionId, p: Proc, q: Proc)
    requires WorkOk(w, sid, p) && Grows(w, v, sid) && v.invocations == w.invocations
    requires q.base == p.base && q.plans == p.plans && q.started == p.started && q.jobs == p.jobs
    requires q.outcomes == p.outcomes
    requires q.session.state.operations == p.session.state.operations
    requires PhaseOk(q)
    ensures WorkOk(v, sid, q)
  {
    forall key | key in q.jobs
      ensures JobOk(v, sid, q, key, q.jobs[key])
    {
      assert JobOk(w, sid, p, key, p.jobs[key]);
    }
    forall key | key in q.outcomes
      ensures OutcomeOk(v, q, key, q.outcomes[key])
    {
      assert OutcomeOk(w, p, key, p.outcomes[key]);
    }
  }

  lemma SameCallsOk(w: World, v: World, sid: SessionId)
    requires CallsOk(w) && Grows(w, v, sid) && v.calls == w.calls
    requires forall other :: other in w.procs ==>
              other in v.procs && w.procs[other].session.revision <= v.procs[other].session.revision
    ensures CallsOk(v)
  {
    forall i | 0 <= i < |v.calls|
      ensures CallOk(v, v.calls[i])
    {
      assert CallOk(w, w.calls[i]);
    }
  }

  lemma SameTicketsOk(w: World, v: World, sid: SessionId, p: Proc, q: Proc)
    requires TicketsOk(w, sid, p) && Grows(w, v, sid) && v.calls == w.calls
    requires q.tickets == p.tickets && p.session.revision <= q.session.revision
    ensures TicketsOk(v, sid, q)
  {
    forall r | r in q.tickets
      ensures TicketOk(v, sid, q, r)
    {
      assert TicketOk(w, sid, p, r);
    }
  }

  lemma OpenedProcOk(w: World, v: World, sid: SessionId, s: CheckpointState)
    requires Grows(w, v, sid) && v.log == w.log && v.issued == w.issued && w.log != []
    requires s == w.log[|w.log| - 1].state && StateOk(w, s) && IssuedOk(w)
    ensures ProcOk(v, sid, NewProc(Session(s, |w.log|, None), Idle, w.issued.Keys))
  {
    StateOkGrows(w, v, sid, s);
    forall key | key in s.operations
      ensures s.operations[key].version in w.issued.Keys && Mentions(s.operations[key].fingerprint, w.issued.Keys)
    {
      assert EntryOk(w, key, s.operations[key]);
    }
  }

  lemma OpenReadOk(w: World, sid: SessionId, binding: string)
    requires Inv(w) && Enabled(w, OpenRead(sid, binding))
    ensures Inv(Do(w, OpenRead(sid, binding)))
  {
    var v := Do(w, OpenRead(sid, binding));
    assert CommitOk(w, |w.log| - 1);
    OpenedProcOk(w, v, sid, w.log[|w.log| - 1].state);
    NoRequestsYet(w, sid);
    QuietStepOk(w, v, sid);
  }

  lemma NoRequestsYet(w: World, sid: SessionId)
    requires NetworkOk(w) && sid !in w.procs
    ensures forall m :: m in w.network ==> m.sender != sid
  {
    forall m | m in w.network
      ensures m.sender != sid
    {
      assert MessageOk(w, m);
    }
  }

  lemma OpenCreateOk(w: World, sid: SessionId, binding: string, deadline: int)
    requires Inv(w) && Enabled(w, OpenCreate(sid, binding, deadline))
    ensures Inv(Do(w, OpenCreate(sid, binding, deadline)))
  {
    var v := Do(w, OpenCreate(sid, binding, deadline));
    NoRequestsYet(w, sid);
    assert ProcOk(v, sid, v.procs[sid]);
    QuietStepOk(w, v, sid);
  }

  lemma DeliveredProcOk(w: World, v: World, sid: SessionId, p: Proc)
    requires ProcOk(w, sid, p) && Grows(w, v, sid) && v.invocations == w.invocations && v.calls == w.calls
    ensures ProcOk(v, sid, p)
  {
    SyncOkGrows(w, v, sid, sid, p);
    SameTicketsOk(w, v, sid, p, p);
    SameWorkOk(w, v, sid, p, p);
  }

  lemma DeliverOk(w: World, m: Message, v: World)
    requires Inv(w) && m in w.network && m.revision == |w.log|
    requires v == w.(log := w.log + [Commit(m.state, m.op, m.sender)])
    ensures Inv(v)
  {
    var sid := m.sender;
    assert MessageOk(w, m);
    assert ProcOk(v, sid, v.procs[sid]) by {
      assert ProcOk(w, sid, w.procs[sid]);
      DeliveredProcOk(w, v, sid, w.procs[sid]);
    }
    assert RequestsOk(v, sid) by {
      OwnRequestsOk(w, v, sid);
    }
    QuietStepOk(w, v, sid);
  }

  /** Own requests stay accounted for when the session fails or keeps waiting for the same one. */
  lemma OwnRequestsOk(w: World, v: World, sid: SessionId)
    requires NetworkOk(w) && Grows(w, v, sid) && v.network == w.network && sid in w.procs && sid in v.procs
    requires w.procs[sid].session.revision == v.procs[sid].session.revision
    requires w.procs[sid].session.failure.Some? ==> v.procs[sid].session.failure.Some?
    requires
      || v.procs[sid].session.failure.Some?
      || !w.procs[sid].phase.Saving?
      || (v.procs[sid].phase == w.procs[sid].phase && v.procs[sid].session.state == w.procs[sid].session.state)
    ensures RequestsOk(v, sid)
  {
    forall m | m in v.network && m.sender == sid
      ensures MessageOk(v, m)
    {
      assert MessageOk(w, m);
      StateOkGrows(w, v, sid, m.state);
      FollowsFromGrows(w, v, sid, m.op, m.revision, m.state);
    }
  }

  lemma SameProcOk(w: World, v: World, sid: SessionId, p: Proc, q: Proc)
    requires ProcOk(w, sid, p) && Grows(w, v, sid) && v.log == w.log && v.calls == w.calls
    requires v.invocations == w.invocations
    requires q == p.(phase := q.phase, crashed := q.crashed, session := p.session.(failure := q.session.failure))
    requires q.phase == p.phase || q.phase.Idle?
    requires q.session.failure == p.session.failure || (q.session.failure.Some? && q.phase.Idle?)
    requires q.phase == p.phase || q.session.failure.Some? || v.now >= p.session.state.deadline
    ensures ProcOk(v, sid, q)
  {
    StateOkGrows(w, v, sid, p.session.state);
    SameTicketsOk(w, v, sid, p, q);
    SameWorkOk(w, v, sid, p, q);
  }

  /** Ending or abandoning a save, crashing: only phase, failure and crash flag change. */
  lemma GiveUpOk(w: World, sid: SessionId, v: World)
    requires Inv(w) && sid in w.procs
    requires sid in v.procs && v == SetProc(w, sid, v.procs[sid])
    requires var p, q := w.procs[sid], v.procs[sid];
      && q == p.(phase := q.phase, crashed := q.crashed, session := p.session.(failure := q.session.failure))
      && (q.phase == p.phase || q.phase.Idle?)
      && (q.session.failure == p.session.failure || (q.session.failure.Some? && q.phase.Idle?))
      && (q.phase == p.phase || q.session.failure.Some? || (v.now >= p.session.state.deadline && p.phase.Locked?))
    ensures Inv(v)
  {
    var p, q := w.procs[sid], v.procs[sid];
    assert ProcOk(w, sid, p);
    SameProcOk(w, v, sid, p, q);
    OwnRequestsOk(w, v, sid);
    QuietStepOk(w, v, sid);
  }

  lemma ReservedProcOk(w: World, v: World, sid: SessionId, p: Proc, local: Session, tokens: int)
    requires ProcOk(w, sid, p) && p.phase.Idle? && Grows(w, v, sid) && v.log == w.log
    requires v.invocations == w.invocations && v.calls == w.calls && v.now == w.now
    requires ReserveLocally(p.session, w.now, tokens, w.maxCalls, w.maxTokens) == Success(local)
    ensures ProcOk(v, sid, p.(session := local, phase := Locked(Reserve(tokens))))
  {
    var q := p.(session := local, phase := Locked(Reserve(tokens)));
    StateOkGrows(w, v, sid, p.session.state);
    assert SyncOk(v, sid, q);
    SameTicketsOk(w, v, sid, p, q);
    SameWorkOk(w, v, sid, p, q);
  }

  lemma ReserveBeginOk(w: World, sid: SessionId, tokens: int)
    requires Inv(w) && Enabled(w, ReserveBegin(sid, tokens))
    ensures Inv(Do(w, ReserveBegin(sid, tokens)))
  {
    var v := Do(w, ReserveBegin(sid, tokens));
    var p, q := w.procs[sid], v.procs[sid];
    assert ProcOk(w, sid, p);
    ReservedProcOk(w, v, sid, p, q.session, tokens);
    OwnRequestsOk(w, v, sid);
    QuietStepOk(w, v, sid);
  }

  lemma SentProcOk(w: World, v: World, sid: SessionId, p: Proc, q: Proc)
    requires ProcOk(w, sid, p) && p.phase.Locked? && Grows(w, v, sid) && v.log == w.log
    requires v.invocations == w.invocations && v.calls == w.calls && v.now == w.now
    requires EnsureActive(p.session, w.now).None?
    requires q == p.(phase := Saving(p.phase.op))
    requires Message(sid, p.session.revision, p.phase.op, p.session.state) in v.network
    ensures ProcOk(v, sid, q)
    ensures FollowsFrom(v, p.phase.op, p.session.revision, p.session.state) && StateOk(v, p.session.state)
  {
    StateOkGrows(w, v, sid, p.session.state);
    assert SyncOk(v, sid, q);
    SameTicketsOk(w, v, sid, p, q);
    SameWorkOk(w, v, sid, p, q);
  }

  lemma SentRequestsOk(w: World, v: World, sid: SessionId)
    requires NetworkOk(w) && Grows(w, v, sid) && sid in w.procs && sid in v.procs
    requires w.procs[sid].phase.Locked? && w.procs[sid].session.failure.None?
    requires var p, q := w.procs[sid], v.procs[sid];
             && q == p.(phase := Saving(p.phase.op))
             && v.network == w.network + {Message(sid, p.session.revision, p.phase.op, p.session.state)}
             && FollowsFrom(v, p.phase.op, p.session.revision, p.session.state) && StateOk(v, p.session.state)
    ensures RequestsOk(v, sid)
  {
    forall m | m in v.network && m.sender == sid
      ensures MessageOk(v, m)
    {
      if m in w.network {
        assert MessageOk(w, m);
        StateOkGrows(w, v, sid, m.state);
        FollowsFromGrows(w, v, sid, m.op, m.revision, m.state);
      }
    }
  }

  lemma SentOk(w: World, sid: SessionId, v: World)
    requires Inv(w) && sid in w.procs && w.procs[sid].phase.Locked? && EnsureActive(w.procs[sid].session, w.now).None?
    requires var p := w.procs[sid];
      v == SetProc(w, sid, p.(phase := Saving(p.phase.op)))
      .(network := w.network + {Message(sid, p.session.revision, p.phase.op, p.session.state)})
    ensures Inv(v)
  {
    var p, q := w.procs[sid], v.procs[sid];
    assert
      && ProcOk(v, sid, q)
      && FollowsFrom(v, p.phase.op, p.session.revision, p.session.state) && StateOk(v, p.session.state) by
    {
      assert ProcOk(w, sid, p);
      SentProcOk(w, v, sid, p, q);
    }
    assert RequestsOk(v, sid) by {
      SentRequestsOk(w, v, sid);
    }
    QuietStepOk(w, v, sid);
  }

  lemma SendOk(w: World, sid: SessionId, v: World)
    requires Inv(w) && Enabled(w, Send(sid)) && v == Sent(w, sid)
    ensures Inv(v)
  {
    var p, q := w.procs[sid], v.procs[sid];
    if EnsureActive(p.session, w.now).Some? {
      GiveUpOk(w, sid, v);
    } else {
      SentOk(w, sid, v);
    }
  }

  lemma CalledProcOk(w: World, v: World, sid: SessionId, p: Proc, r: nat)
    requires ProcOk(w, sid, p) && r in p.tickets && Grows(w, v, sid) && v.log == w.log && v.now == w.now
    requires v.invocations == w.invocations && v.calls == w.calls + [Call(r, p.tickets[r], sid)]
    ensures ProcOk(v, sid, p.(tickets := p.tickets - {r}))
  {
    var q := p.(tickets := p.tickets - {r});
    StateOkGrows(w, v, sid, p.session.state);
    assert SyncOk(v, sid, q);
    SameWorkOk(w, v, sid, p, q);
    forall x | x in q.tickets
      ensures TicketOk(v, sid, q, x)
    {
      assert TicketOk(w, sid, p, x);
    }
  }

  lemma MoreCallsOk(w: World, v: World, sid: SessionId, c: Call)
    requires CallsOk(w) && PaidBy(w, c) && v.log == w.log && v.calls == w.calls + [c]
    requires forall i :: 0 <= i < |w.calls| ==> w.calls[i].revision != c.revision
    requires forall other :: other in w.procs ==>
              other in v.procs && w.procs[other].session.revision <= v.procs[other].session.revision
    requires c.caller in v.procs && c.revision <= v.procs[c.caller].session.revision
    ensures CallsOk(v)
  {
    forall i | 0 <= i < |v.calls|
      ensures CallOk(v, v.calls[i])
    {
      assert i < |w.calls| ==> CallOk(w, w.calls[i]);
    }
  }

  lemma CallGrows(w: World, sid: SessionId, c: Call, v: World)
    requires sid in w.procs && sid in v.procs && c.caller == sid
    requires v == SetProc(w, sid, v.procs[sid]).(calls := w.calls + [c])
    ensures Grows(w, v, sid) && OnlyActs(w, v, sid)
  {
  }

  lemma ProviderCallOk(w: World, sid: SessionId, r: nat, v: World)
    requires Inv(w) && sid in w.procs && r in w.procs[sid].tickets
    requires var p := w.procs[sid];
      v == SetProc(w, sid, p.(tickets := p.tickets - {r})).(calls := w.calls + [Call(r, p.tickets[r], sid)])
    ensures Inv(v)
  {
    var p := w.procs[sid];
    assert ProcOk(w, sid, p) && TicketOk(w, sid, p, r);
    CallGrows(w, sid, Call(r, p.tickets[r], sid), v);
    assert ProcOk(v, sid, v.procs[sid]) by {
      CalledProcOk(w, v, sid, p, r);
    }
    assert CallsOk(v) by {
      MoreCallsOk(w, v, sid, Call(r, p.tickets[r], sid));
    }
    assert InvocationsOk(v) by {
      SameInvocationsOk(w, v, sid);
    }
    assert IssuedOk(v) by {
      SameIssuedOk(w, v, sid);
    }
    assert RequestsOk(v, sid) by {
      OwnRequestsOk(w, v, sid);
    }
    StepOk(w, v, sid);
  }

  // -- runs

  /** The job whose invocation returns, and every other job, under the growing history. */
  lemma ReturnedJobOk(w: World, v: World, sid: SessionId, p: Proc, q: Proc, key: Key, value: Value, k: Key)
    requires key in p.jobs && p.jobs[key].stage.Invoking? && p.jobs[key].version in w.invocations
    requires var x := p.jobs[key].version;
      v.invocations == w.invocations[x := w.invocations[x].(result := Some(value))]
    requires q == p.(jobs := p.jobs[key := p.jobs[key].(stage := Returned(value))])
    requires v.issued == w.issued && k in p.jobs && JobOk(w, sid, p, k, p.jobs[k]) && JobOk(w, sid, p, key, p.jobs[key])
    ensures JobOk(v, sid, q, k, q.jobs[k])
  {
  }

  lemma SameOutcomeOk(w: World, v: World, sid: SessionId, p: Proc, q: Proc, key: Key, o: Outcome)
    requires OutcomeOk(w, p, key, o) && Grows(w, v, sid)
    requires q.started == p.started && q.base == p.base && q.plans == p.plans && q.outcomes == p.outcomes
    ensures OutcomeOk(v, q, key, o)
  {
  }

  lemma ReturnedProcOk(w: World, v: World, sid: SessionId, p: Proc, q: Proc, key: Key, value: Value)
    requires ProcOk(w, sid, p) && Grows(w, v, sid) && v.log == w.log && v.calls == w.calls && v.issued == w.issued
    requires key in p.jobs && p.jobs[key].stage.Invoking? && p.jobs[key].version in w.invocations
    requires var x := p.jobs[key].version;
      v.invocations == w.invocations[x := w.invocations[x].(result := Some(value))]
    requires q == p.(jobs := p.jobs[key := p.jobs[key].(stage := Returned(value))])
    ensures ProcOk(v, sid, q)
  {
    SyncOkGrows(w, v, sid, sid, p);
    SameTicketsOk(w, v, sid, p, q);
    assert WorkOk(v, sid, q) by {
      assert JobOk(w, sid, p, key, p.jobs[key]);
      forall k | k in q.jobs
        ensures JobOk(v, sid, q, k, q.jobs[k])
      {
        assert JobOk(w, sid, p, k, p.jobs[k]);
        ReturnedJobOk(w, v, sid, p, q, key, value, k);
      }
      forall k | k in q.outcomes
        ensures OutcomeOk(v, q, k, q.outcomes[k])
      {
        assert OutcomeOk(w, p, k, p.outcomes[k]);
        SameOutcomeOk(w, v, sid, p, q, k, p.outcomes[k]);
      }
    }
  }

  lemma ReturnedInvocationsOk(w: World, v: World, sid: SessionId, x: Version, value: Value)
    requires InvocationsOk(w) && Grows(w, v, sid) && x in w.invocations && w.invocations[x].result.None?
    requires v.invocations == w.invocations[x := w.invocations[x].(result := Some(value))]
    requires w.invocations[x].issue.key.Node? ==>
               && value.NodeValue? && w.invocations[x].issue.fingerprint.NodeInput?
               && WorkerMayReturn(TaskOf(w.invocations[x].issue.fingerprint), w.invocations[x].upstream, value.result)
    requires w.invocations[x].issue.key.Synthesis? ==>
               && value.ReplyValue? && w.invocations[x].issue.fingerprint.SynthesisInput?
               && value.reply == SynthesisOf(w.invocations[x].issue.fingerprint.results, value.reply.answer)
    ensures InvocationsOk(v)
  {
    forall y | y in v.invocations
      ensures InvocationOk(v, y, v.invocations[y])
    {
      assert InvocationOk(w, y, w.invocations[y]);
    }
  }

  lemma ReturnGrows(w: World, sid: SessionId, x: Version, value: Value, v: World)
    requires sid in w.procs && sid in v.procs && x in w.invocations
    requires w.invocations[x].result.None? && w.invocations[x].issue.owner == sid
    requires v == SetProc(w, sid,
                          v.procs[sid]).(invocations := w.invocations[x := w.invocations[x].(result := Some(value))])
    ensures Grows(w, v, sid) && OnlyActs(w, v, sid)
  {
  }

  lemma InvokeReturnsOk(w: World, sid: SessionId, key: Key, job: Job, value: Value, v: World)
    requires Inv(w) && sid in w.procs && key in w.procs[sid].jobs && job == w.procs[sid].jobs[key]
    requires job.stage.Invoking? && job.version in w.invocations && MayReturn(w, key, job, value)
    requires v == SetProc(w, sid, w.procs[sid].(jobs := w.procs[sid].jobs[key := job.(stage := Returned(value))]))
                  .(invocations := w.invocations[job.version := w.invocations[job.version].(result := Some(value))])
    ensures Inv(v)
  {
    InvocationOfJob(w, sid, key);
    ReturnGrows(w, sid, job.version, value, v);
    assert ProcOk(v, sid, v.procs[sid]) by {
      ReturnedProcOk(w, v, sid, w.procs[sid], v.procs[sid], key, value);
    }
    assert InvocationsOk(v) by {
      ReturnedInvocationsOk(w, v, sid, job.version, value);
    }
    assert RequestsOk(v, sid) by {
      OwnRequestsOk(w, v, sid);
    }
    UnpaidStepOk(w, v, sid);
  }

  lemma InvocationOfJob(w: World, sid: SessionId, key: Key)
    requires Inv(w) && sid in w.procs && key in w.procs[sid].jobs && w.procs[sid].jobs[key].stage.Invoking?
    ensures ProcOk(w, sid, w.procs[sid])
    ensures var job := w.procs[sid].jobs[key];
            && job.version in w.invocations && w.invocations[job.version].result.None?
            && w.invocations[job.version].issue == Issue(key, job.fingerprint, sid)
  {
    var p := w.procs[sid];
    assert ProcOk(w, sid, p) && JobOk(w, sid, p, key, p.jobs[key]);
    assert InvocationOk(w, p.jobs[key].version, w.invocations[p.jobs[key].version]);
  }

  /** Assembly for events that issue no version and make no provider call. */
  lemma UnpaidStepOk(w: World, v: World, sid: SessionId)
    requires Inv(w) && Grows(w, v, sid) && OnlyActs(w, v, sid)
    requires v.issued == w.issued && v.calls == w.calls
    requires sid in w.procs && w.procs[sid].session.revision <= v.procs[sid].session.revision
    requires RequestsOk(v, sid) && InvocationsOk(v) && ProcOk(v, sid, v.procs[sid])
    ensures Inv(v)
  {
    SameIssuedOk(w, v, sid);
    SameCallsOk(w, v, sid);
    StepOk(w, v, sid);
  }

  lemma FinishedStateOk(w: World, s: CheckpointState, key: Key, job: Job, x: Value)
    requires StateOk(w, s) && key in s.operations && s.operations[key].version == job.version
    requires job.version in w.invocations && w.invocations[job.version].result == Some(x)
    ensures StateOk(w, ApplyOp(Finish(key, job.version, x, Reusable(s, key, job.fingerprint, x)), s))
  {
    var t := ApplyOp(Finish(key, job.version, x, Reusable(s, key, job.fingerprint, x)), s);
    forall k | k in t.operations
      ensures EntryOk(w, k, t.operations[k])
    {
      assert EntryOk(w, k, s.operations[k]);
    }
  }

  /** Own jobs and outcomes do not look inside the entries other than at their versions. */
  lemma SameVersionsWorkOk(w: World, v: World, sid: SessionId, p: Proc, q: Proc)
    requires WorkOk(w, sid, p) && Grows(w, v, sid) && v.invocations == w.invocations
    requires q.base == p.base && q.plans == p.plans && q.started == p.started && q.jobs == p.jobs
    requires q.outcomes == p.outcomes
    requires q.session.state.operations.Keys == p.session.state.operations.Keys
    requires forall k :: k in p.session.state.operations ==>
               && q.session.state.operations[k].version == p.session.state.operations[k].version
               && q.session.state.operations[k].fingerprint == p.session.state.operations[k].fingerprint
    requires PhaseOk(q)
    ensures WorkOk(v, sid, q)
  {
    forall k | k in q.jobs
      ensures JobOk(v, sid, q, k, q.jobs[k])
    {
      assert JobOk(w, sid, p, k, p.jobs[k]);
    }
    forall k | k in q.outcomes
      ensures OutcomeOk(v, q, k, q.outcomes[k])
    {
      assert OutcomeOk(w, p, k, p.outcomes[k]);
    }
  }

  lemma FinishingProcOk(w: World, v: World, sid: SessionId, p: Proc, key: Key)
    requires ProcOk(w, sid, p) && Grows(w, v, sid) && v.log == w.log && v.calls == w.calls
    requires v.invocations == w.invocations
    requires p.phase.Idle? && key in p.jobs && p.jobs[key].stage.Returned? && v.now == w.now
    ensures
      var job := p.jobs[key];
      var reusable := Reusable(p.session.state, key, job.fingerprint, job.stage.value);
      ProcOk(v, sid, p.(session := FinishLocally(p.session, key, job.version, job.stage.value, reusable),
                        phase := Locked(Finish(key, job.version, job.stage.value, reusable))))
  {
    var job := p.jobs[key];
    var s := p.session.state;
    var reusable := Reusable(s, key, job.fingerprint, job.stage.value);
    var local := FinishLocally(p.session, key, job.version, job.stage.value, reusable);
    var q := p.(session := local, phase := Locked(Finish(key, job.version, job.stage.value, reusable)));
    assert JobOk(w, sid, p, key, job);
    assert StateOk(v, local.state) by {
      FinishedStateOk(w, s, key, job, job.stage.value);
      StateOkGrows(w, v, sid, local.state);
    }
    assert SyncOk(v, sid, q);
    assert TicketsOk(v, sid, q) by {
      SameTicketsOk(w, v, sid, p, q);
    }
    assert WorkOk(v, sid, q) by {
      assert local.state.operations.Keys == s.operations.Keys;
      SameVersionsWorkOk(w, v, sid, p, q);
    }
  }

  lemma RunFinishOk(w: World, sid: SessionId, key: Key)
    requires Inv(w) && Enabled(w, RunFinish(sid, key))
    ensures Inv(Do(w, RunFinish(sid, key)))
  {
    var v := Do(w, RunFinish(sid, key));
    var p := w.procs[sid];
    assert ProcOk(v, sid, v.procs[sid]) by {
      assert ProcOk(w, sid, p);
      FinishingProcOk(w, v, sid, p, key);
    }
    OwnRequestsOk(w, v, sid);
    QuietStepOk(w, v, sid);
  }

  lemma MoreOutcomes(plans: map<nat, seq<Task>>, outcomes: map<Key, Outcome>, more: map<Key, Outcome>, key: Key,
                     f: Fingerprint)
    requires DepsFinished(plans, outcomes, key, f)
    requires forall k :: k in outcomes ==> k in more && more[k] == outcomes[k]
    ensures DepsFinished(plans, more, key, f)
  {
    if key.Synthesis? {
      forall i | 0 <= i < |f.results|
        ensures FinishedAs(more, Node(key.attempt, plans[key.attempt][i].id), f.versions[i], f.results[i])
      {
        assert FinishedAs(outcomes, Node(key.attempt, plans[key.attempt][i].id), f.versions[i], f.results[i]);
      }
    }
  }

  /** A run that reuses an entry of the inherited checkpoint. */
  lemma ReusingWorkOk(w: World, sid: SessionId, p: Proc, key: Key, f: Fingerprint)
    requires WorkOk(w, sid, p) && StateOk(w, p.session.state) && InvocationsOk(w)
    requires key !in p.started && DepsFinished(p.plans, p.outcomes, key, f) && ReusableEntry(p.session.state, key, f)
    requires 0 < p.session.revision <= |w.log| && w.log[p.session.revision - 1].state == p.session.state
    ensures
      var e := p.session.state.operations[key];
      WorkOk(w, sid,
             p.(started := p.started + {key},
                outcomes := p.outcomes[key := Outcome(f, e.version, e.result.value, true, p.session.revision)]))
  {
    var e := p.session.state.operations[key];
    var o := Outcome(f, e.version, e.result.value, true, p.session.revision);
    var q := p.(started := p.started + {key}, outcomes := p.outcomes[key := o]);
    assert key !in p.outcomes by {
      assert key in p.outcomes ==> OutcomeOk(w, p, key, p.outcomes[key]);
    }
    forall k | k in q.jobs
      ensures JobOk(w, sid, q, k, q.jobs[k])
    {
      assert JobOk(w, sid, p, k, p.jobs[k]);
      MoreOutcomes(p.plans, p.outcomes, q.outcomes, k, p.jobs[k].fingerprint);
    }
    forall k | k in q.outcomes
      ensures OutcomeOk(w, q, k, q.outcomes[k])
    {
      if k == key {
        assert EntryOk(w, key, e) && InvocationOk(w, e.version, w.invocations[e.version]);
        MoreOutcomes(p.plans, p.outcomes, q.outcomes, key, f);
      } else {
        assert OutcomeOk(w, p, k, p.outcomes[k]);
        MoreOutcomes(p.plans, p.outcomes, q.outcomes, k, p.outcomes[k].fingerprint);
      }
    }
  }

  lemma OwnChangeGrows(w: World, sid: SessionId, v: World)
    requires sid in w.procs && sid in v.procs && v == SetProc(w, sid, v.procs[sid])
    ensures Grows(w, v, sid) && OnlyActs(w, v, sid)
  {
  }

  lemma ReusingProcOk(w: World, v: World, sid: SessionId, p: Proc, q: Proc)
    requires ProcOk(w, sid, p) && WorkOk(w, sid, q) && Grows(w, v, sid)
    requires v.log == w.log && v.calls == w.calls && v.invocations == w.invocations && v.now == w.now
    requires q == p.(started := q.started, outcomes := q.outcomes)
    ensures ProcOk(v, sid, q)
  {
    SyncOkGrows(w, v, sid, sid, p);
    SameTicketsOk(w, v, sid, p, q);
    SameWorkOk(w, v, sid, q, q);
  }

  lemma ReusingOk(w: World, sid: SessionId, key: Key, f: Fingerprint, v: World)
    requires Inv(w) && sid in w.procs
    requires key !in w.procs[sid].started && DepsFinished(w.procs[sid].plans, w.procs[sid].outcomes, key, f)
    requires ReusableEntry(w.procs[sid].session.state, key, f)
    requires w.procs[sid].phase.Idle? && EnsureActive(w.procs[sid].session, w.now).None?
    requires var p := w.procs[sid];
      var e := p.session.state.operations[key];
      v == SetProc(w, sid,
                   p.(started := p.started + {key},
                      outcomes := p.outcomes[key := Outcome(f, e.version, e.result.value, true, p.session.revision)]))
    ensures Inv(v)
  {
    var p, q := w.procs[sid], v.procs[sid];
    OwnChangeGrows(w, sid, v);
    assert ProcOk(w, sid, p);
    ReusingWorkOk(w, sid, p, key, f);
    ReusingProcOk(w, v, sid, p, q);
    OwnRequestsOk(w, v, sid);
    QuietStepOk(w, v, sid);
  }

  /** The versions a run names were all drawn before. */
  lemma DepsAreIssued(w: World, sid: SessionId, p: Proc, key: Key, f: Fingerprint)
    requires WorkOk(w, sid, p) && InvocationsOk(w) && DepsFinished(p.plans, p.outcomes, key, f)
    ensures Mentions(f, w.issued.Keys)
  {
    if f.NodeInput? && key.Node? {
      forall i | 0 <= i < |f.deps|
        ensures f.deps[i].1 in w.issued.Keys
      {
        var o := p.outcomes[Node(key.attempt, f.deps[i].0)];
        assert OutcomeOk(w, p, Node(key.attempt, f.deps[i].0), o);
        assert InvocationOk(w, o.version, w.invocations[o.version]);
      }
    }
  }

  /** A run that records a new RUNNING version. */
  lemma StartingWorkOk(w: World, v: World, sid: SessionId, p: Proc, q: Proc, key: Key, f: Fingerprint, x: Version)
    requires WorkOk(w, sid, p) && InvocationsOk(w) && Grows(w, v, sid) && v.invocations == w.invocations
    requires x !in w.issued && v.issued == w.issued[x := Issue(key, f, sid)]
    requires key !in p.started && DepsFinished(p.plans, p.outcomes, key, f)
    requires q == p.(started := p.started + {key}, phase := Locked(Begin(key, f, x)),
                     jobs := p.jobs[key := Job(f, x, Starting)],
                     session := p.session.(state := ApplyOp(Begin(key, f, x), p.session.state)))
    ensures WorkOk(v, sid, q)
  {
    assert key !in p.outcomes && key !in p.jobs by {
      assert key in p.outcomes ==> OutcomeOk(w, p, key, p.outcomes[key]);
      assert key in p.jobs ==> JobOk(w, sid, p, key, p.jobs[key]);
    }
    assert x !in w.invocations by {
      assert x in w.invocations ==> InvocationOk(w, x, w.invocations[x]);
    }
    forall k | k in q.jobs
      ensures JobOk(v, sid, q, k, q.jobs[k])
    {
      if k != key {
        assert JobOk(w, sid, p, k, p.jobs[k]);
      }
    }
    forall k | k in q.outcomes
      ensures OutcomeOk(v, q, k, q.outcomes[k])
    {
      assert OutcomeOk(w, p, k, p.outcomes[k]);
    }
  }

  lemma StartedStateOk(w: World, v: World, sid: SessionId, s: CheckpointState, key: Key, f: Fingerprint, x: Version)
    requires StateOk(w, s) && Grows(w, v, sid) && x in v.issued && v.issued[x] == Issue(key, f, sid)
    ensures StateOk(v, ApplyOp(Begin(key, f, x), s))
  {
    StateOkGrows(w, v, sid, s);
    var t := ApplyOp(Begin(key, f, x), s);
    forall k | k in t.operations
      ensures EntryOk(v, k, t.operations[k])
    {
      if k != key {
        assert EntryOk(v, k, s.operations[k]);
      }
    }
  }

  lemma StartingProcOk(w: World, v: World, sid: SessionId, p: Proc, q: Proc, key: Key, f: Fingerprint, x: Version)
    requires ProcOk(w, sid, p) && InvocationsOk(w) && Grows(w, v, sid) && v.invocations == w.invocations
    requires v.log == w.log && v.calls == w.calls && v.now == w.now && p.phase.Idle?
    requires x !in w.issued && v.issued == w.issued[x := Issue(key, f, sid)]
    requires key !in p.started && DepsFinished(p.plans, p.outcomes, key, f)
    requires key in p.session.state.operations || |p.session.state.operations| < MAX_OPERATIONS
    requires q == p.(started := p.started + {key}, phase := Locked(Begin(key, f, x)),
                     jobs := p.jobs[key := Job(f, x, Starting)],
                     session := p.session.(state := ApplyOp(Begin(key, f, x), p.session.state)))
    ensures ProcOk(v, sid, q)
  {
    assert StateOk(v, q.session.state) by {
      StartedStateOk(w, v, sid, p.session.state, key, f, x);
    }
    assert SyncOk(v, sid, q);
    assert TicketsOk(v, sid, q) by {
      SameTicketsOk(w, v, sid, p, q);
    }
    assert WorkOk(v, sid, q) by {
      StartingWorkOk(w, v, sid, p, q, key, f, x);
    }
  }

  lemma IssueOk(w: World, v: World, sid: SessionId, x: Version, key: Key, f: Fingerprint)
    requires IssuedOk(w) && x !in w.issued && v.issued == w.issued[x := Issue(key, f, sid)]
    requires Mentions(f, w.issued.Keys) && OnlyActs(w, v, sid)
    ensures IssuedOk(v)
  {
    forall y | y in v.issued
      ensures Mentions(v.issued[y].fingerprint, v.issued.Keys) && v.issued[y].owner in v.procs
    {
      assert y != x ==> Mentions(w.issued[y].fingerprint, w.issued.Keys);
    }
  }

  lemma IssueGrows(w: World, sid: SessionId, x: Version, issue: Issue, v: World)
    requires sid in w.procs && sid in v.procs && x !in w.issued
    requires v == SetProc(w, sid, v.procs[sid]).(issued := w.issued[x := issue])
    ensures Grows(w, v, sid) && OnlyActs(w, v, sid)
  {
  }

  lemma StartingOk(w: World, sid: SessionId, key: Key, f: Fingerprint, x: Version, v: World)
    requires Inv(w) && sid in w.procs && w.procs[sid].phase.Idle? && x !in w.issued
    requires key !in w.procs[sid].started && DepsFinished(w.procs[sid].plans, w.procs[sid].outcomes, key, f)
    requires key in w.procs[sid].session.state.operations || |w.procs[sid].session.state.operations| < MAX_OPERATIONS
    requires var p := w.procs[sid];
      v == SetProc(w, sid,
                   p.(started := p.started + {key}, phase := Locked(Begin(key, f, x)),
                      jobs := p.jobs[key := Job(f, x, Starting)],
                              session := p.session.(state := ApplyOp(Begin(key, f, x), p.session.state))))
           .(issued := w.issued[x := Issue(key, f, sid)])
    ensures Inv(v)
  {
    var p, q := w.procs[sid], v.procs[sid];
    assert ProcOk(w, sid, p);
    IssueGrows(w, sid, x, Issue(key, f, sid), v);
    assert ProcOk(v, sid, q) by {
      StartingProcOk(w, v, sid, p, q, key, f, x);
    }
    assert IssuedOk(v) by {
      DepsAreIssued(w, sid, p, key, f);
      IssueOk(w, v, sid, x, key, f);
    }
    OwnRequestsOk(w, v, sid);
    IssuingStepOk(w, v, sid);
  }

  /** Assembly for events that issue a version. */
  lemma IssuingStepOk(w: World, v: World, sid: SessionId)
    requires Inv(w) && Grows(w, v, sid) && OnlyActs(w, v, sid)
    requires v.invocations == w.invocations && v.calls == w.calls
    requires sid in w.procs && w.procs[sid].session.revision <= v.procs[sid].session.revision
    requires RequestsOk(v, sid) && IssuedOk(v) && ProcOk(v, sid, v.procs[sid])
    ensures Inv(v)
  {
    SameInvocationsOk(w, v, sid);
    SameCallsOk(w, v, sid);
    StepOk(w, v, sid);
  }

  lemma PlansGrow(p: Proc, attempt: nat, plan: seq<Task>, key: Key, f: Fingerprint)
    requires attempt !in p.plans && DepsFinished(p.plans, p.outcomes, key, f)
    ensures DepsFinished(p.plans[attempt := plan], p.outcomes, key, f)
  {
  }

  lemma PlannedWorkOk(w: World, v: World, sid: SessionId, p: Proc, q: Proc, attempt: nat, plan: seq<Task>)
    requires WorkOk(w, sid, p) && attempt !in p.plans && Grows(w, v, sid) && v.invocations == w.invocations
    requires q == p.(plans := p.plans[attempt := plan])
    ensures WorkOk(v, sid, q)
  {
    forall k | k in q.jobs
      ensures JobOk(v, sid, q, k, q.jobs[k])
    {
      assert JobOk(w, sid, p, k, p.jobs[k]);
      PlansGrow(p, attempt, plan, k, p.jobs[k].fingerprint);
    }
    forall k | k in q.outcomes
      ensures OutcomeOk(v, q, k, q.outcomes[k])
    {
      assert OutcomeOk(w, p, k, p.outcomes[k]);
      PlansGrow(p, attempt, plan, k, p.outcomes[k].fingerprint);
    }
  }

  /** Planning touches nothing the invariant looks at, and only adds what operations may depend on. */
  lemma PlannedProcOk(w: World, v: World, sid: SessionId, p: Proc, attempt: nat, plan: seq<Task>)
    requires ProcOk(w, sid, p) && attempt !in p.plans && Grows(w, v, sid) && v.log == w.log && v.calls == w.calls
    requires v.invocations == w.invocations && v.now == w.now
    ensures ProcOk(v, sid, p.(plans := p.plans[attempt := plan]))
  {
    var q := p.(plans := p.plans[attempt := plan]);
    SyncOkGrows(w, v, sid, sid, p);
    SameTicketsOk(w, v, sid, p, q);
    PlannedWorkOk(w, v, sid, p, q, attempt, plan);
  }

  lemma PlanAttemptOk(w: World, sid: SessionId, attempt: nat, plan: seq<Task>, v: World)
    requires Inv(w) && Enabled(w, PlanAttempt(sid, attempt, plan)) && v == Do(w, PlanAttempt(sid, attempt, plan))
    ensures Inv(v)
  {
    assert ProcOk(v, sid, v.procs[sid]) by {
      assert ProcOk(w, sid, w.procs[sid]);
      PlannedProcOk(w, v, sid, w.procs[sid], attempt, plan);
    }
    OwnRequestsOk(w, v, sid);
    QuietStepOk(w, v, sid);
  }

  /** A runner call is recorded, and nothing else changes. */
  lemma RunnerCallOk(w: World, sid: SessionId, key: Key, v: World)
    requires Inv(w) && Enabled(w, RunnerCall(sid, key)) && v == Do(w, RunnerCall(sid, key))
    ensures Inv(v)
  {
    assert ProcOk(v, sid, v.procs[sid]) by {
      assert ProcOk(w, sid, w.procs[sid]);
      DeliveredProcOk(w, v, sid, w.procs[sid]);
    }
    OwnRequestsOk(w, v, sid);
    QuietStepOk(w, v, sid);
  }

  lemma RunBeginOk(w: World, sid: SessionId, key: Key, f: Fingerprint, x: Version, v: World)
    requires Inv(w) && Enabled(w, RunBegin(sid, key, f, x)) && v == RunBegan(w, sid, key, f, x)
    ensures Inv(v)
  {
    if ReusableEntry(w.procs[sid].session.state, key, f) {
      ReusingOk(w, sid, key, f, v);
    } else {
      StartingOk(w, sid, key, f, x, v);
    }
  }

  // -- acknowledgements

  /** The commit a waiting session owns at its revision is the save it is waiting for. */
  lemma CommitIsMine(w: World, sid: SessionId)
    requires Inv(w) && Enabled(w, Acknowledge(sid))
    ensures ProcOk(w, sid, w.procs[sid])
    ensures var p := w.procs[sid];
            && w.log[p.session.revision].state == p.session.state
            && w.log[p.session.revision].op == p.phase.op
            && AfterReply(p.session, SaveReply.Acknowledged(p.session.revision + 1, w.log[p.session.revision].state))
               == p.session.(revision := p.session.revision + 1)
  {
    var p := w.procs[sid];
    var r := p.session.revision;
    assert ProcOk(w, sid, p);
    assert CommitOk(w, r);
    assert MessageOk(w, Message(sid, r, w.log[r].op, w.log[r].state));
  }

  ghost predicate Advanced(w: World, p: Proc, q: Proc) {
    && p.phase.Saving? && p.session.failure.None?
    && p.session.revision < |w.log| && w.log[p.session.revision].state == p.session.state
    && q.session == p.session.(revision := p.session.revision + 1) && q.phase.Idle?
    && q.base == p.base && q.plans == p.plans && q.started == p.started
  }

  lemma AdvancedSyncOk(w: World, v: World, sid: SessionId, p: Proc, q: Proc)
    requires ProcOk(w, sid, p) && Grows(w, v, sid) && Advanced(w, p, q)
    ensures SyncOk(v, sid, q)
  {
    StateOkGrows(w, v, sid, p.session.state);
  }

  lemma AdvancedRequestsOk(w: World, v: World, sid: SessionId)
    requires NetworkOk(w) && Grows(w, v, sid) && v.network == w.network && sid in w.procs && sid in v.procs
    requires v.procs[sid].session.revision == w.procs[sid].session.revision + 1
    ensures RequestsOk(v, sid)
  {
    forall m | m in v.network && m.sender == sid
      ensures MessageOk(v, m)
    {
      assert MessageOk(w, m);
      StateOkGrows(w, v, sid, m.state);
      FollowsFromGrows(w, v, sid, m.op, m.revision, m.state);
    }
  }

  /** A granted reservation becomes a ticket that no call has used. */
  lemma NewTicketOk(w: World, v: World, sid: SessionId, p: Proc, q: Proc, tokens: nat)
    requires ProcOk(w, sid, p) && CallsOk(w) && Grows(w, v, sid) && v.calls == w.calls && Advanced(w, p, q)
    requires sid in w.procs && w.procs[sid] == p
    requires w.log[p.session.revision].op == Reserve(tokens) && w.log[p.session.revision].writer == sid
    requires q.tickets == p.tickets[q.session.revision := tokens]
    ensures TicketsOk(v, sid, q)
  {
    forall r | r in q.tickets
      ensures TicketOk(v, sid, q, r)
    {
      if r != q.session.revision {
        assert TicketOk(w, sid, p, r);
      } else {
        forall i | 0 <= i < |v.calls|
          ensures v.calls[i].revision != r
        {
          assert CallOk(w, w.calls[i]);
        }
      }
    }
  }

  lemma ReserveAcknowledgedOk(w: World, sid: SessionId, tokens: nat, v: World)
    requires Inv(w) && Enabled(w, Acknowledge(sid)) && w.procs[sid].phase.op == Reserve(tokens)
    requires var p := w.procs[sid]; var s := p.session.(revision := p.session.revision + 1);
      v == SetProc(w, sid, p.(session := s, phase := Idle, tickets := p.tickets[s.revision := tokens]))
    ensures Inv(v)
  {
    CommitIsMine(w, sid);
    var p, q := w.procs[sid], v.procs[sid];
    assert ProcOk(v, sid, q) by {
      AdvancedSyncOk(w, v, sid, p, q);
      NewTicketOk(w, v, sid, p, q, tokens);
      SameWorkOk(w, v, sid, p, q);
    }
    assert RequestsOk(v, sid) by {
      AdvancedRequestsOk(w, v, sid);
    }
    QuietStepOk(w, v, sid);
  }

  lemma CreateAcknowledgedOk(w: World, sid: SessionId, v: World)
    requires Inv(w) && Enabled(w, Acknowledge(sid))
    requires var p := w.procs[sid]; var s := p.session.(revision := p.session.revision + 1);
      v == SetProc(w, sid, p.(session := s, phase := Idle))
    ensures Inv(v)
  {
    CommitIsMine(w, sid);
    var p, q := w.procs[sid], v.procs[sid];
    assert ProcOk(v, sid, q) by {
      AdvancedSyncOk(w, v, sid, p, q);
      SameTicketsOk(w, v, sid, p, q);
      SameWorkOk(w, v, sid, p, q);
    }
    assert RequestsOk(v, sid) by {
      AdvancedRequestsOk(w, v, sid);
    }
    QuietStepOk(w, v, sid);
  }

  /** Invoking with the results this session holds for the named versions. */
  /** What the finished dependencies of a node hand to it. */
  lemma UpstreamProduced(w: World, v: World, sid: SessionId, p: Proc, key: Key, f: Fingerprint, i: nat)
    requires WorkOk(w, sid, p) && DepsFinished(p.plans, p.outcomes, key, f) && key.Node? && i < |f.deps|
    requires forall y :: y in w.invocations ==> y in v.invocations && v.invocations[y] == w.invocations[y]
    ensures var up := Upstream(p.plans, p.outcomes, key, f);
            && f.deps[i].0 in up
            && ProducedBy(v, Node(key.attempt, f.deps[i].0), f.deps[i].1, NodeValue(up[f.deps[i].0]))
  {
    assert DepNames(f)[i] == f.deps[i].0;
    assert OutcomeOk(w, p, Node(key.attempt, f.deps[i].0), p.outcomes[Node(key.attempt, f.deps[i].0)]);
  }

  lemma StartedInvocationOk(w: World, v: World, sid: SessionId, p: Proc, key: Key, f: Fingerprint, x: Version,
                            inv: Invocation)
    requires WorkOk(w, sid, p) && Grows(w, v, sid) && DepsFinished(p.plans, p.outcomes, key, f)
    requires x in w.issued && w.issued[x] == Issue(key, f, sid)
    requires forall y :: y in w.invocations ==> y in v.invocations && v.invocations[y] == w.invocations[y]
    requires 0 < inv.revision <= |w.log| && w.log[inv.revision - 1].op == Begin(key, f, x)
    requires w.log[inv.revision - 1].writer == sid
    requires inv == Invocation(Issue(key, f, sid), inv.revision, Upstream(p.plans, p.outcomes, key, f), None)
    ensures InvocationOk(v, x, inv)
  {
    if key.Node? {
      assert inv.upstream.Keys == (set d | d in DepNames(f));
      forall i: nat | i < |f.deps|
        ensures f.deps[i].0 in inv.upstream
        ensures ProducedBy(v, Node(key.attempt, f.deps[i].0), f.deps[i].1, NodeValue(inv.upstream[f.deps[i].0]))
      {
        UpstreamProduced(w, v, sid, p, key, f, i);
      }
    }
  }

  lemma EarlierInvocationOk(w: World, v: World, sid: SessionId, y: Version, inv: Invocation)
    requires InvocationOk(w, y, inv) && Grows(w, v, sid)
    requires forall z :: z in w.invocations ==> z in v.invocations && v.invocations[z] == w.invocations[z]
    ensures InvocationOk(v, y, inv)
  {
  }

  lemma NewInvocationOk(w: World, v: World, sid: SessionId, p: Proc, q: Proc, key: Key, f: Fingerprint, x: Version)
    requires WorkOk(w, sid, p) && InvocationsOk(w) && Grows(w, v, sid) && DepsFinished(p.plans, p.outcomes, key, f)
    requires x !in w.invocations && x in w.issued && w.issued[x] == Issue(key, f, sid)
    requires Advanced(w, p, q) && w.log[p.session.revision].op == Begin(key, f, x)
    requires w.log[p.session.revision].writer == sid
    requires v.invocations == w.invocations[x := Invocation(Issue(key, f, sid), q.session.revision,
                                                            Upstream(p.plans, p.outcomes, key, f), None)]
    ensures InvocationsOk(v)
  {
    forall y | y in v.invocations
      ensures InvocationOk(v, y, v.invocations[y])
    {
      if y != x {
        assert InvocationOk(w, y, w.invocations[y]);
        EarlierInvocationOk(w, v, sid, y, w.invocations[y]);
      } else {
        StartedInvocationOk(w, v, sid, p, key, f, x, v.invocations[x]);
      }
    }
  }

  lemma InvokingWorkOk(w: World, v: World, sid: SessionId, p: Proc, q: Proc, key: Key, f: Fingerprint, x: Version)
    requires WorkOk(w, sid, p) && Grows(w, v, sid) && Advanced(w, p, q)
    requires key in p.jobs && p.jobs[key] == Job(f, x, Starting) && DepsFinished(p.plans, p.outcomes, key, f)
    requires q.outcomes == p.outcomes && q.jobs == p.jobs[key := Job(f, x, Invoking)]
    requires v.invocations == w.invocations[x := Invocation(Issue(key, f, sid), q.session.revision,
                                                            Upstream(p.plans, p.outcomes, key, f), None)]
    ensures WorkOk(v, sid, q)
  {
    assert JobOk(w, sid, p, key, p.jobs[key]);
    forall k | k in q.jobs
      ensures JobOk(v, sid, q, k, q.jobs[k])
    {
      assert JobOk(w, sid, p, k, p.jobs[k]);
    }
    forall k | k in q.outcomes
      ensures OutcomeOk(v, q, k, q.outcomes[k])
    {
      assert OutcomeOk(w, p, k, p.outcomes[k]);
    }
  }

  lemma InvocationGrows(w: World, sid: SessionId, x: Version, inv: Invocation, v: World)
    requires sid in w.procs && sid in v.procs && x !in w.invocations && inv.issue.owner == sid
    requires v == SetProc(w, sid, v.procs[sid]).(invocations := w.invocations[x := inv])
    ensures Grows(w, v, sid) && OnlyActs(w, v, sid)
  {
  }

  lemma BeginAcknowledgedOk(w: World, sid: SessionId, key: Key, f: Fingerprint, x: Version, v: World)
    requires Inv(w) && Enabled(w, Acknowledge(sid)) && w.procs[sid].phase.op == Begin(key, f, x)
    requires key in w.procs[sid].jobs && DepsFinished(w.procs[sid].plans, w.procs[sid].outcomes, key, f)
    requires var p := w.procs[sid]; var s := p.session.(revision := p.session.revision + 1);
      v == SetProc(w, sid, p.(session := s, phase := Idle, jobs := p.jobs[key := Job(f, x, Invoking)]))
           .(invocations := w.invocations[x := Invocation(Issue(key, f, sid), s.revision,
                                                          Upstream(p.plans, p.outcomes, key, f), None)])
    ensures Inv(v)
  {
    CommitIsMine(w, sid);
    var p, q := w.procs[sid], v.procs[sid];
    assert JobOk(w, sid, p, key, p.jobs[key]);
    InvocationGrows(w, sid, x, v.invocations[x], v);
    assert ProcOk(v, sid, q) by {
      AdvancedSyncOk(w, v, sid, p, q);
      SameTicketsOk(w, v, sid, p, q);
      InvokingWorkOk(w, v, sid, p, q, key, f, x);
    }
    assert InvocationsOk(v) by {
      NewInvocationOk(w, v, sid, p, q, key, f, x);
    }
    assert RequestsOk(v, sid) by {
      AdvancedRequestsOk(w, v, sid);
    }
    UnpaidStepOk(w, v, sid);
  }

  /** A committed result is handed to the caller of `run`. */
  lemma FinishedWorkOk(w: World, sid: SessionId, p: Proc, q: Proc, key: Key, x: Value)
    requires WorkOk(w, sid, p) && InvocationsOk(w) && Advanced(w, p, q)
    requires key in p.jobs && p.jobs[key].stage == Returned(x)
    requires CommittedDone(w, q.session.revision, key, p.jobs[key].version, x)
    requires q.jobs == p.jobs - {key}
    requires q.outcomes == p.outcomes[key := Outcome(p.jobs[key].fingerprint, VersionOf(p.session.state, key), x,
                                                     false, q.session.revision)]
    ensures WorkOk(w, sid, q)
  {
    var job := p.jobs[key];
    assert JobOk(w, sid, p, key, job) && InvocationOk(w, job.version, w.invocations[job.version]);
    forall k | k in q.jobs
      ensures JobOk(w, sid, q, k, q.jobs[k])
    {
      assert JobOk(w, sid, p, k, p.jobs[k]);
      MoreOutcomes(p.plans, p.outcomes, q.outcomes, k, p.jobs[k].fingerprint);
    }
    forall k | k in q.outcomes
      ensures OutcomeOk(w, q, k, q.outcomes[k])
    {
      if k == key {
        MoreOutcomes(p.plans, p.outcomes, q.outcomes, key, job.fingerprint);
      } else {
        assert OutcomeOk(w, p, k, p.outcomes[k]);
        MoreOutcomes(p.plans, p.outcomes, q.outcomes, k, p.outcomes[k].fingerprint);
      }
    }
  }

  /** What the acknowledged save of a result has put into the log. */
  lemma FinishCommitsDone(w: World, sid: SessionId, key: Key, x: Value)
    requires Inv(w) && Enabled(w, Acknowledge(sid))
    requires var op := w.procs[sid].phase.op; op.Finish? && op.key == key && op.value == x
    ensures key in w.procs[sid].jobs && w.procs[sid].jobs[key].stage == Returned(x)
    ensures CommittedDone(w, w.procs[sid].session.revision + 1, key, w.procs[sid].jobs[key].version, x)
  {
    CommitIsMine(w, sid);
    var p := w.procs[sid];
    var r := p.session.revision;
    assert JobOk(w, sid, p, key, p.jobs[key]);
    assert CommitOk(w, r);
    assert MessageOk(w, Message(sid, r, w.log[r].op, w.log[r].state));
  }

  lemma FinishAcknowledgedOk(w: World, sid: SessionId, key: Key, x: Value, v: World)
    requires Inv(w) && Enabled(w, Acknowledge(sid))
    requires key in w.procs[sid].jobs && w.procs[sid].jobs[key].stage == Returned(x)
    requires CommittedDone(w, w.procs[sid].session.revision + 1, key, w.procs[sid].jobs[key].version, x)
    requires var p := w.procs[sid]; var s := p.session.(revision := p.session.revision + 1);
      v == SetProc(w, sid, p.(session := s, phase := Idle, jobs := p.jobs - {key},
             outcomes := p.outcomes[key := Outcome(p.jobs[key].fingerprint, VersionOf(s.state, key), x, false,
                                                   s.revision)]))
    ensures Inv(v)
  {
    CommitIsMine(w, sid);
    var p, q := w.procs[sid], v.procs[sid];
    assert ProcOk(v, sid, q) by {
      AdvancedSyncOk(w, v, sid, p, q);
      SameTicketsOk(w, v, sid, p, q);
      FinishedWorkOk(w, sid, p, q, key, x);
      SameWorkOk(w, v, sid, q, q);
    }
    assert RequestsOk(v, sid) by {
      AdvancedRequestsOk(w, v, sid);
    }
    QuietStepOk(w, v, sid);
  }

  lemma AcknowledgeOk(w: World, sid: SessionId, v: World)
    requires Inv(w) && Enabled(w, Acknowledge(sid)) && v == Resumed(w, sid)
    ensures Inv(v)
  {
    CommitIsMine(w, sid);
    var p := w.procs[sid];
    match p.phase.op
    case Create => CreateAcknowledgedOk(w, sid, v);
    case Reserve(t) => ReserveAcknowledgedOk(w, sid, t, v);
    case Begin(key, f, x) =>
      assert JobOk(w, sid, p, key, p.jobs[key]);
      BeginAcknowledgedOk(w, sid, key, f, x, v);
    case Finish(key, _, x, _) =>
      FinishCommitsDone(w, sid, key, x);
      FinishAcknowledgedOk(w, sid, key, x, v);
  }

  // ---------------------------------------------------------------- every run

  /** Every event keeps the invariant. */
  lemma EventKeepsInv(w: World, e: Event)
    requires Inv(w) && Enabled(w, e)
    ensures Inv(Do(w, e))
  {
    var v := Do(w, e);
    match e
    case Tick(ms) => TickOk(w, ms);
    case OpenRead(sid, binding) => OpenReadOk(w, sid, binding);
    case OpenCreate(sid, binding, deadline) => OpenCreateOk(w, sid, binding, deadline);
    case Deliver(m) => DeliverOk(w, m, v);
    case Acknowledge(sid) => AcknowledgeOk(w, sid, v);
    case SaveFails(sid, _) => GiveUpOk(w, sid, v);
    case Crash(sid) => GiveUpOk(w, sid, v);
    case ReserveBegin(sid, tokens) => ReserveBeginOk(w, sid, tokens);
    case PlanAttempt(sid, attempt, plan) => PlanAttemptOk(w, sid, attempt, plan, v);
    case RunBegin(sid, key, f, x) => RunBeginOk(w, sid, key, f, x, v);
    case RunFinish(sid, key) => RunFinishOk(w, sid, key);
    case Send(sid) => SendOk(w, sid, v);
    case ProviderCall(sid, r) => ProviderCallOk(w, sid, r, v);
    case RunnerCall(sid, key) => RunnerCallOk(w, sid, key, v);
    case InvokeReturns(sid, key, value) => InvokeReturnsOk(w, sid, key, w.procs[sid].jobs[key], value, v);
  }

  /** Every state reachable from a fresh task satisfies the invariant. */
  lemma {:induction false} RunKeepsInv(w: World, run: seq<Event>, v: World)
    requires Inv(w) && Leads(w, run, v)
    ensures Inv(v)
    decreases |run|
  {
    if run != [] {
      EventKeepsInv(w, run[0]);
      RunKeepsInv(Do(w, run[0]), run[1..], v);
    }
  }
}
