/** What durable recovery promises, over every run of the recovery world. */
module RecoveryTheorems {
  import opened DagTypes
  import opened Recovery
  import opened RecoveryWorld
  import opened RecoveryInvariant

  /** A world reached from a fresh task by some history of events. */
  ghost predicate Reached(w: World) {
    exists now, run :: Leads(Initial(now, w.maxCalls, w.maxTokens), run, w)
  }

  lemma ReachedIsOk(w: World)
    requires Reached(w)
    ensures Inv(w)
  {
    var now, run :| Leads(Initial(now, w.maxCalls, w.maxTokens), run, w);
    RunKeepsInv(Initial(now, w.maxCalls, w.maxTokens), run, w);
  }

  // ---------------------------------------------------------------- the committed sequence

  lemma CommitFollows(w: World, i: nat)
    requires Inv(w) && i < |w.log|
    ensures FollowsFrom(w, w.log[i].op, i, w.log[i].state)
  {
    assert CommitOk(w, i);
    assert MessageOk(w, Message(w.log[i].writer, i, w.log[i].op, w.log[i].state));
  }

  /** Binding and deadline are fixed by the first commit; both counters only grow; entries stay. */
  lemma {:induction false} CommitsAreMonotone(w: World, i: nat, j: nat)
    requires Inv(w) && i <= j < |w.log|
    ensures var a, b := w.log[i].state, w.log[j].state;
            && a.binding == b.binding && a.deadline == b.deadline
            && a.modelCalls <= b.modelCalls && a.reservedTokens <= b.reservedTokens
            && a.operations.Keys <= b.operations.Keys
    decreases j - i
  {
    if i < j {
      CommitsAreMonotone(w, i, j - 1);
      CommitFollows(w, j);
      OpsKeepFixedFields(w.log[j].op, w.log[j - 1].state, w.maxCalls, w.maxTokens);
    }
  }

  lemma {:induction false} CommitsStayWithinLimits(w: World, i: nat)
    requires Inv(w) && i < |w.log|
    ensures w.log[i].state.modelCalls <= w.maxCalls && w.log[i].state.reservedTokens <= w.maxTokens
    ensures |w.log[i].state.operations| <= MAX_OPERATIONS
  {
    CommitFollows(w, i);
    if i > 0 {
      CommitsStayWithinLimits(w, i - 1);
      OpsKeepFixedFields(w.log[i].op, w.log[i - 1].state, w.maxCalls, w.maxTokens);
    }
  }

  // ---------------------------------------------------------------- durable budget

  function TotalTokens(calls: seq<Call>): nat {
    if calls == [] then 0 else TotalTokens(calls[..|calls| - 1]) + calls[|calls| - 1].tokens
  }

  function CallsUpTo(calls: seq<Call>, n: nat): seq<Call> {
    if calls == [] then []
    else
      var rest := CallsUpTo(calls[..|calls| - 1], n);
      if calls[|calls| - 1].revision <= n then rest + [calls[|calls| - 1]] else rest
  }

  ghost predicate Distinct(calls: seq<Call>) {
    forall i, j :: 0 <= i < j < |calls| ==> calls[i].revision != calls[j].revision
  }

  lemma {:induction false} CallsUpToAll(calls: seq<Call>, n: nat)
    requires forall i :: 0 <= i < |calls| ==> calls[i].revision <= n
    ensures CallsUpTo(calls, n) == calls
  {
    if calls != [] {
      CallsUpToAll(calls[..|calls| - 1], n);
    }
  }

  lemma {:induction false} CallsUpToNone(calls: seq<Call>, n: nat)
    requires forall i :: 0 <= i < |calls| ==> calls[i].revision > n
    ensures CallsUpTo(calls, n) == []
  {
    if calls != [] {
      CallsUpToNone(calls[..|calls| - 1], n);
    }
  }

  /** Passing from n - 1 to n adds at most the one call paid by revision n. */
  lemma {:induction false} CallsUpToStep(calls: seq<Call>, n: nat, tokens: nat)
    requires n > 0 && Distinct(calls)
    requires forall i :: 0 <= i < |calls| && calls[i].revision == n ==> calls[i].tokens == tokens
    ensures var a, b := CallsUpTo(calls, n - 1), CallsUpTo(calls, n);
            if exists i :: 0 <= i < |calls| && calls[i].revision == n
            then |b| == |a| + 1 && TotalTokens(b) == TotalTokens(a) + tokens
            else b == a
  {
    if calls != [] {
      var rest, last := calls[..|calls| - 1], calls[|calls| - 1];
      CallsUpToStep(rest, n, tokens);
      var a, b := CallsUpTo(rest, n - 1), CallsUpTo(rest, n);
      assert (a + [last])[..|a|] == a && (b + [last])[..|b|] == b;
      if last.revision == n {
        assert forall i :: 0 <= i < |rest| ==> rest[i] == calls[i];
        assert !exists i :: 0 <= i < |rest| && rest[i].revision == n;
        assert calls[|calls| - 1].revision == n;
      } else if i :| 0 <= i < |calls| && calls[i].revision == n {
        assert rest[i].revision == n;
      } else {
        assert forall i :: 0 <= i < |rest| ==> rest[i] == calls[i];
      }
    }
  }

  /** Calls paid by the first n commits are covered by the counters of commit n. */
  lemma {:induction false} CallsAreCovered(w: World, n: nat)
    requires Inv(w) && n <= |w.log|
    ensures n == 0 ==> CallsUpTo(w.calls, n) == []
    ensures n > 0 ==>
              && |CallsUpTo(w.calls, n)| <= w.log[n - 1].state.modelCalls
              && TotalTokens(CallsUpTo(w.calls, n)) <= w.log[n - 1].state.reservedTokens
  {
    forall i | 0 <= i < |w.calls|
      ensures 1 <= w.calls[i].revision <= |w.log|
      ensures w.log[w.calls[i].revision - 1].op == Reserve(w.calls[i].tokens)
    {
      assert CallOk(w, w.calls[i]);
    }
    if n == 0 {
      CallsUpToNone(w.calls, 0);
    } else {
      CallsAreCovered(w, n - 1);
      CommitFollows(w, n - 1);
      var op := w.log[n - 1].op;
      CallsUpToStep(w.calls, n, if op.Reserve? then op.tokens else 0);
      if n > 1 {
        OpsKeepFixedFields(op, w.log[n - 2].state, w.maxCalls, w.maxTokens);
      }
    }
  }

  function CommittedCalls(w: World): nat {
    if w.log == [] then 0 else w.log[|w.log| - 1].state.modelCalls
  }

  function CommittedTokens(w: World): nat {
    if w.log == [] then 0 else w.log[|w.log| - 1].state.reservedTokens
  }

  /** Over the whole life of a task and all its sessions, provider calls are covered by the committed
      counters, which are within the limits. */
  lemma DurableBudget(w: World)
    requires Reached(w)
    ensures |w.calls| <= CommittedCalls(w) <= w.maxCalls
    ensures TotalTokens(w.calls) <= CommittedTokens(w) <= w.maxTokens
  {
    ReachedIsOk(w);
    CallsAreCovered(w, |w.log|);
    forall i | 0 <= i < |w.calls|
      ensures w.calls[i].revision <= |w.log|
    {
      assert CallOk(w, w.calls[i]);
    }
    CallsUpToAll(w.calls, |w.log|);
    if w.log != [] {
      CommitsStayWithinLimits(w, |w.log| - 1);
    }
  }

  /** Later commits never lower a counter, change the binding, or move the deadline. */
  lemma DurableFields(w: World, i: nat, j: nat)
    requires Reached(w) && i <= j < |w.log|
    ensures w.log[i].state.modelCalls <= w.log[j].state.modelCalls
    ensures w.log[i].state.reservedTokens <= w.log[j].state.reservedTokens
    ensures w.log[i].state.binding == w.log[j].state.binding && w.log[i].state.deadline == w.log[j].state.deadline
    ensures |w.log[j].state.operations| <= MAX_OPERATIONS
  {
    ReachedIsOk(w);
    CommitsAreMonotone(w, i, j);
    CommitsStayWithinLimits(w, j);
  }

  // ---------------------------------------------------------------- session and central store

  /** A live session with its lock free holds exactly the commit numbered by its revision. */
  lemma LiveSessionAgrees(w: World, sid: SessionId)
    requires Reached(w) && sid in w.procs && w.procs[sid].phase.Idle?
    requires EnsureActive(w.procs[sid].session, w.now).None?
    ensures var s := w.procs[sid].session;
            && 0 < s.revision <= |w.log| && s.state == w.log[s.revision - 1].state
            && (s.revision == |w.log| ==> s.state == w.log[|w.log| - 1].state)
            && s.state.binding == w.log[0].state.binding && s.state.deadline == w.log[0].state.deadline
  {
    ReachedIsOk(w);
    assert ProcOk(w, sid, w.procs[sid]);
    CommitsAreMonotone(w, 0, w.procs[sid].session.revision - 1);
  }

  /** Another session has taken the revision this one would have to extend. */
  ghost predicate LeftBehind(w: World, sid: SessionId) {
    sid in w.procs && w.procs[sid].session.revision < |w.log| && w.log[w.procs[sid].session.revision].writer != sid
  }

  ghost predicate Failed(w: World, sid: SessionId) {
    sid in w.procs && w.procs[sid].session.failure.Some?
  }

  /** From `w` to `v` session `sid` commits nothing, advances nothing and starts no operation. */
  ghost predicate Frozen(w: World, v: World, sid: SessionId) {
    && sid in v.procs && sid in w.procs
    && v.procs[sid].session.revision == w.procs[sid].session.revision
    && |w.log| <= |v.log| && (forall i :: 0 <= i < |w.log| ==> v.log[i] == w.log[i])
    && (forall x :: x in w.invocations ==> x in v.invocations && v.invocations[x].issue == w.invocations[x].issue)
    && (forall x :: x in v.invocations && x !in w.invocations ==> v.invocations[x].issue.owner != sid)
  }

  /** From `w` to `v` session `sid` sends no request and draws no version. */
  ghost predicate Silent(w: World, v: World, sid: SessionId) {
    && (forall m :: m in v.network && m.sender == sid ==> m in w.network)
    && (forall x :: x in w.issued ==> x in v.issued && v.issued[x] == w.issued[x])
    && (forall x :: x in v.issued && x !in w.issued ==> v.issued[x].owner != sid)
  }

  lemma InvocationsAreKept(w: World, e: Event)
    requires Inv(w) && Enabled(w, e)
    ensures var v := Do(w, e);
            forall x :: x in w.invocations ==> x in v.invocations && v.invocations[x].issue == w.invocations[x].issue
  {
    if e.Acknowledge? {
      CommitIsMine(w, e.sid);
      var p := w.procs[e.sid];
      if p.phase.op.Begin? {
        assert JobOk(w, e.sid, p, p.phase.op.key, p.jobs[p.phase.op.key]);
      }
    }
  }

  lemma OnlyOwnersInvoke(w: World, e: Event, sid: SessionId)
    requires Inv(w) && Enabled(w, e) && e != Acknowledge(sid)
    ensures forall x :: x in Do(w, e).invocations && x !in w.invocations ==> Do(w, e).invocations[x].issue.owner != sid
  {
    if e.InvokeReturns? {
      assert Do(w, e).invocations.Keys == w.invocations.Keys;
    }
  }

  lemma RevisionStaysOnBegin(w: World, e: Event, v: World, sid: SessionId)
    requires Enabled(w, e) && e.RunBegin? && sid in w.procs && v == Do(w, e)
    ensures sid in v.procs && v.procs[sid].session.revision == w.procs[sid].session.revision
  {
  }

  lemma OthersBegan(w: World, other: SessionId, v: World, sid: SessionId)
    requires Enabled(w, Acknowledge(other)) && sid in w.procs && other != sid && v == Resumed(w, other)
    requires w.procs[other].phase.op.Begin?
    ensures sid in v.procs && v.procs[sid] == w.procs[sid]
  {
  }

  lemma OthersAdvanced(w: World, other: SessionId, v: World, sid: SessionId)
    requires Enabled(w, Acknowledge(other)) && sid in w.procs && other != sid && v == Resumed(w, other)
    requires !w.procs[other].phase.op.Begin?
    ensures sid in v.procs && v.procs[sid] == w.procs[sid]
  {
  }

  lemma OthersAcknowledged(w: World, other: SessionId, v: World, sid: SessionId)
    requires Enabled(w, Acknowledge(other)) && sid in w.procs && other != sid && v == Resumed(w, other)
    ensures sid in v.procs && v.procs[sid] == w.procs[sid]
  {
    if w.procs[other].phase.op.Begin? {
      OthersBegan(w, other, v, sid);
    } else {
      OthersAdvanced(w, other, v, sid);
    }
  }

  lemma RevisionStaysOtherwise(w: World, e: Event, v: World, sid: SessionId)
    requires Enabled(w, e) && !e.RunBegin? && !e.Acknowledge? && sid in w.procs && v == Do(w, e)
    ensures sid in v.procs && v.procs[sid].session.revision == w.procs[sid].session.revision
  {
  }

  lemma RevisionStays(w: World, e: Event, v: World, sid: SessionId)
    requires Enabled(w, e) && sid in w.procs && e != Acknowledge(sid) && v == Do(w, e)
    ensures sid in v.procs && v.procs[sid].session.revision == w.procs[sid].session.revision
  {
    if e.RunBegin? {
      RevisionStaysOnBegin(w, e, v, sid);
    } else if e.Acknowledge? {
      OthersAcknowledged(w, e.sid, v, sid);
    } else {
      RevisionStaysOtherwise(w, e, v, sid);
    }
  }

  lemma LogIsKept(w: World, e: Event, v: World)
    requires Enabled(w, e) && v == Do(w, e)
    ensures |w.log| <= |v.log| && forall i :: 0 <= i < |w.log| ==> v.log[i] == w.log[i]
  {
  }

  /** Only an acknowledgement advances a session or starts an invocation. */
  lemma FrozenStep(w: World, e: Event, v: World, sid: SessionId)
    requires Inv(w) && Enabled(w, e) && sid in w.procs && e != Acknowledge(sid) && v == Do(w, e)
    ensures Frozen(w, v, sid)
  {
    RevisionStays(w, e, v, sid);
    LogIsKept(w, e, v);
    InvocationsAreKept(w, e);
    OnlyOwnersInvoke(w, e, sid);
  }

  lemma LeftBehindStep(w: World, e: Event, sid: SessionId)
    requires Inv(w) && Enabled(w, e) && LeftBehind(w, sid)
    ensures LeftBehind(Do(w, e), sid) && Frozen(w, Do(w, e), sid)
    ensures forall i :: |w.log| <= i < |Do(w, e).log| ==> Do(w, e).log[i].writer != sid
  {
    FrozenStep(w, e, Do(w, e), sid);
    if e.Deliver? {
      assert MessageOk(w, e.message);
    }
  }

  /** A session left behind stays behind: in every continuation it never commits again, its revision
      stays where it is and no invocation of its own starts. */
  lemma {:induction false} LeftBehindForever(w: World, run: seq<Event>, v: World, sid: SessionId)
    requires Inv(w) && Leads(w, run, v) && LeftBehind(w, sid)
    ensures LeftBehind(v, sid) && Frozen(w, v, sid)
    ensures forall i :: |w.log| <= i < |v.log| ==> v.log[i].writer != sid
    decreases |run|
  {
    if run != [] {
      var u := Do(w, run[0]);
      LeftBehindStep(w, run[0], sid);
      EventKeepsInv(w, run[0]);
      LeftBehindForever(u, run[1..], v, sid);
    }
  }

  /** A failed session is refused every run and every save. */
  lemma FailedIsRefused(w: World, e: Event, sid: SessionId)
    requires Enabled(w, e) && Failed(w, sid)
    requires e.RunBegin? || e.ReserveBegin?
    ensures e.sid != sid
  {
  }

  lemma OthersBeganRun(w: World, e: Event, v: World, sid: SessionId)
    requires Enabled(w, e) && e.RunBegin? && e.sid != sid && sid in w.procs && v == Do(w, e)
    ensures sid in v.procs && v.procs[sid] == w.procs[sid]
    ensures v.network == w.network
    ensures forall x :: x in w.issued ==> x in v.issued && v.issued[x] == w.issued[x]
    ensures forall x :: x in v.issued && x !in w.issued ==> v.issued[x].owner != sid
  {
  }

  lemma FailedStaysOtherwise(w: World, e: Event, v: World, sid: SessionId)
    requires Enabled(w, e) && !e.RunBegin? && !e.Acknowledge? && Failed(w, sid) && v == Do(w, e)
    requires !w.procs[sid].phase.Saving?
    ensures Failed(v, sid)
  {
  }

  lemma FailedStays(w: World, e: Event, v: World, sid: SessionId)
    requires Enabled(w, e) && Failed(w, sid) && v == Do(w, e) && !w.procs[sid].phase.Saving?
    ensures Failed(v, sid)
  {
    if e.RunBegin? {
      FailedIsRefused(w, e, sid);
      OthersBeganRun(w, e, v, sid);
    } else if e.Acknowledge? {
      OthersAcknowledged(w, e.sid, v, sid);
    } else {
      FailedStaysOtherwise(w, e, v, sid);
    }
  }

  lemma FailedStep(w: World, e: Event, v: World, sid: SessionId)
    requires Inv(w) && Enabled(w, e) && Failed(w, sid) && v == Do(w, e)
    ensures Failed(v, sid) && Frozen(w, v, sid)
  {
    assert ProcOk(w, sid, w.procs[sid]);
    FailedStays(w, e, v, sid);
    FrozenStep(w, e, v, sid);
  }

  lemma IssuedStays(w: World, e: Event, v: World)
    requires Enabled(w, e) && !e.RunBegin? && v == Do(w, e)
    ensures v.issued == w.issued
  {
  }

  lemma FailedSendsNothing(w: World, e: Event, v: World, sid: SessionId)
    requires Enabled(w, e) && Failed(w, sid) && v == Do(w, e)
    ensures forall m :: m in v.network && m.sender == sid ==> m in w.network
  {
    if e.Send? || e.OpenCreate? {
    } else {
      assert v.network == w.network;
    }
  }

  lemma FailedStepIsSilent(w: World, e: Event, v: World, sid: SessionId)
    requires Enabled(w, e) && Failed(w, sid) && v == Do(w, e)
    ensures Silent(w, v, sid)
  {
    FailedSendsNothing(w, e, v, sid);
    if e.RunBegin? {
      FailedIsRefused(w, e, sid);
      OthersBeganRun(w, e, v, sid);
    } else {
      IssuedStays(w, e, v);
    }
  }

  /** After a failed save a session sends no further request, starts no operation and draws no new
      version. */
  lemma {:induction false} FailedForever(w: World, run: seq<Event>, v: World, sid: SessionId)
    requires Inv(w) && Leads(w, run, v) && Failed(w, sid)
    ensures Failed(v, sid) && Frozen(w, v, sid) && Silent(w, v, sid)
    decreases |run|
  {
    if run != [] {
      var u := Do(w, run[0]);
      FailedStep(w, run[0], u, sid);
      FailedStepIsSilent(w, run[0], u, sid);
      EventKeepsInv(w, run[0]);
      FailedForever(u, run[1..], v, sid);
    }
  }

  /** So of a failed session at most the one request whose answer was lost can still be committed. */
  lemma FailedCommitsAtMostOne(w: World, run: seq<Event>, v: World, sid: SessionId, i: nat, j: nat)
    requires Inv(w) && Leads(w, run, v) && Failed(w, sid)
    requires |w.log| <= i < |v.log| && |w.log| <= j < |v.log| && v.log[i].writer == sid && v.log[j].writer == sid
    ensures i == j
  {
    FailedForever(w, run, v, sid);
    RunKeepsInv(w, run, v);
    assert CommitOk(v, i) && CommitOk(v, j);
    assert MessageOk(w, Message(sid, i, v.log[i].op, v.log[i].state));
    assert MessageOk(w, Message(sid, j, v.log[j].op, v.log[j].state));
    assert ProcOk(w, sid, w.procs[sid]);
  }

  // ---------------------------------------------------------------- provenance

  /** The dependency list of the task behind an outcome. */
  function DependsOn(p: Proc, attempt: nat, task: string): seq<string> {
    if Node(attempt, task) in p.outcomes then DepNames(p.outcomes[Node(attempt, task)].fingerprint) else []
  }

  /** After any history of crashes, lost answers and takeovers: a node result held by a session came
      from one invocation, which was given exactly the results its dependencies have in that same
      session, and it is in a committed DONE entry; the invocation began only after its RUNNING entry
      was committed. */
  lemma CrashSafeProvenance(w: World, sid: SessionId, attempt: nat, task: string)
    requires Reached(w) && sid in w.procs && Node(attempt, task) in w.procs[sid].outcomes
    ensures
      var p := w.procs[sid];
      var o := p.outcomes[Node(attempt, task)];
      && o.version in w.invocations && o.fingerprint.NodeInput? && o.fingerprint.taskId == task
      && var inv := w.invocations[o.version];
      && inv.issue.key == Node(attempt, task) && inv.issue.fingerprint == o.fingerprint
      && inv.result == Some(o.value) && o.value.NodeValue?
      && inv.upstream.Keys == (set d | d in DependsOn(p, attempt, task))
      && (forall d :: d in DependsOn(p, attempt, task) ==>
            Node(attempt, d) in p.outcomes && p.outcomes[Node(attempt, d)].value == NodeValue(inv.upstream[d]))
      && WorkerMayReturn(TaskOf(o.fingerprint), inv.upstream, o.value.result)
      && CommittedDone(w, o.revision, Node(attempt, task), o.version, o.value)
      && 0 < inv.revision <= |w.log|
      && w.log[inv.revision - 1].op == Begin(Node(attempt, task), o.fingerprint, o.version)
  {
    ReachedIsOk(w);
    var p := w.procs[sid];
    var o := p.outcomes[Node(attempt, task)];
    assert ProcOk(w, sid, p) && OutcomeOk(w, p, Node(attempt, task), o);
    var inv := w.invocations[o.version];
    assert InvocationOk(w, o.version, inv);
    forall d | d in DependsOn(p, attempt, task)
      ensures Node(attempt, d) in p.outcomes && p.outcomes[Node(attempt, d)].value == NodeValue(inv.upstream[d])
    {
      var i :| 0 <= i < |o.fingerprint.deps| && o.fingerprint.deps[i].0 == d;
      assert OutcomeOk(w, p, Node(attempt, d), p.outcomes[Node(attempt, d)]);
    }
  }

  /** The same for the planner, synthesis, critique and replan operations: one invocation with that
      input, that result, in a committed DONE entry. */
  lemma StepProvenance(w: World, sid: SessionId, key: Key)
    requires Reached(w) && sid in w.procs && key in w.procs[sid].outcomes
    ensures
      var o := w.procs[sid].outcomes[key];
      && o.version in w.invocations
      && var inv := w.invocations[o.version];
      && inv.issue.key == key && inv.issue.fingerprint == o.fingerprint && inv.result == Some(o.value)
      && CommittedDone(w, o.revision, key, o.version, o.value)
      && 0 < inv.revision <= |w.log| && w.log[inv.revision - 1].op == Begin(key, o.fingerprint, o.version)
  {
    ReachedIsOk(w);
    var p := w.procs[sid];
    assert ProcOk(w, sid, p) && OutcomeOk(w, p, key, p.outcomes[key]);
    assert InvocationOk(w, p.outcomes[key].version, w.invocations[p.outcomes[key].version]);
  }

  /** Two sessions that hold the same version hold the same result. */
  lemma VersionDeterminesResult(w: World, a: SessionId, b: SessionId, k: Key, l: Key)
    requires Reached(w) && a in w.procs && b in w.procs && k in w.procs[a].outcomes && l in w.procs[b].outcomes
    requires w.procs[a].outcomes[k].version == w.procs[b].outcomes[l].version
    ensures k == l && w.procs[a].outcomes[k].value == w.procs[b].outcomes[l].value
    ensures w.procs[a].outcomes[k].fingerprint == w.procs[b].outcomes[l].fingerprint
  {
    ReachedIsOk(w);
    assert ProcOk(w, a, w.procs[a]) && OutcomeOk(w, w.procs[a], k, w.procs[a].outcomes[k]);
    assert ProcOk(w, b, w.procs[b]) && OutcomeOk(w, w.procs[b], l, w.procs[b].outcomes[l]);
  }

  lemma ReusedDependency(w: World, sid: SessionId, attempt: nat, task: string, d: string)
    requires Inv(w) && sid in w.procs && Node(attempt, task) in w.procs[sid].outcomes
    requires w.procs[sid].outcomes[Node(attempt, task)].reused && d in DependsOn(w.procs[sid], attempt, task)
    ensures Node(attempt, d) in w.procs[sid].outcomes && w.procs[sid].outcomes[Node(attempt, d)].reused
  {
    var p := w.procs[sid];
    var o := p.outcomes[Node(attempt, task)];
    assert ProcOk(w, sid, p) && OutcomeOk(w, p, Node(attempt, task), o);
    var i :| 0 <= i < |o.fingerprint.deps| && o.fingerprint.deps[i].0 == d;
    assert OutcomeOk(w, p, Node(attempt, d), p.outcomes[Node(attempt, d)]);
  }

  /** A chain of dependencies inside one session: each element depends on the next. */
  ghost predicate AncestorChain(p: Proc, attempt: nat, chain: seq<string>) {
    forall i :: 0 <= i < |chain| - 1 ==> chain[i + 1] in DependsOn(p, attempt, chain[i])
  }

  /** A node reused from a checkpoint has every ancestor reused too, and none of them, nor the node
      itself, failed or used a tool. */
  lemma {:induction false} ReuseCoversAncestors(w: World, sid: SessionId, attempt: nat, chain: seq<string>)
    requires Reached(w) && sid in w.procs && chain != [] && AncestorChain(w.procs[sid], attempt, chain)
    requires Node(attempt, chain[0]) in w.procs[sid].outcomes && w.procs[sid].outcomes[Node(attempt, chain[0])].reused
    ensures var key := Node(attempt, chain[|chain| - 1]);
            var outcomes := w.procs[sid].outcomes;
            && key in outcomes && outcomes[key].reused && outcomes[key].value.NodeValue?
            && Succeeded(outcomes[key].value.result) && !UsesTools(outcomes[key].value.result)
    decreases |chain|
  {
    ReachedIsOk(w);
    var p := w.procs[sid];
    if |chain| == 1 {
      assert ProcOk(w, sid, p) && OutcomeOk(w, p, Node(attempt, chain[0]), p.outcomes[Node(attempt, chain[0])]);
    } else {
      ReusedDependency(w, sid, attempt, chain[0], chain[1]);
      var rest := chain[1..];
      assert AncestorChain(p, attempt, rest) by {
        forall i | 0 <= i < |rest| - 1
          ensures rest[i + 1] in DependsOn(p, attempt, rest[i])
        {
          assert chain[(i + 1) + 1] in DependsOn(p, attempt, chain[i + 1]);
        }
      }
      ReuseCoversAncestors(w, sid, attempt, rest);
    }
  }

  /** Failures reach dependents: a DONE result has DONE results behind every dependency, whether each
      was computed now or read back from a checkpoint. */
  lemma DoneMeansDependenciesDone(w: World, sid: SessionId, attempt: nat, task: string, d: string)
    requires Reached(w) && sid in w.procs && Node(attempt, task) in w.procs[sid].outcomes
    requires d in DependsOn(w.procs[sid], attempt, task)
    ensures var outcomes := w.procs[sid].outcomes;
            && Node(attempt, d) in outcomes && outcomes[Node(attempt, d)].value.NodeValue?
            && outcomes[Node(attempt, task)].value.NodeValue?
            && (Succeeded(outcomes[Node(attempt, task)].value.result) ==>
                  Succeeded(outcomes[Node(attempt, d)].value.result))
  {
    CrashSafeProvenance(w, sid, attempt, task);
    var o := w.procs[sid].outcomes[Node(attempt, task)];
    assert d in w.invocations[o.version].upstream;
  }
}
