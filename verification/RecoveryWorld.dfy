/** All executor sessions of one durable task over one central checkpoint, as a step machine.

    Requests travel through `network`, from which the store may take any one at any time: a request
    may be handled late, or after its sender crashed, timed out or was superseded. Every local
    transition is the one of module Recovery. */
module RecoveryWorld {
  import opened DagTypes
  import opened Recovery
  import TaskGraph

  type SessionId = nat

  datatype Commit = Commit(state: CheckpointState, op: SaveOp, writer: SessionId)

  datatype Message = Message(sender: SessionId, revision: nat, op: SaveOp, state: CheckpointState)

  /** The run that drew a version: the history of `uuid4` calls. */
  datatype Issue = Issue(key: Key, fingerprint: Fingerprint, owner: SessionId)

  /** History of operation bodies: the revision that committed the RUNNING entry, what the invocation
      was given and what it returned. */
  datatype Invocation = Invocation(
    issue: Issue, revision: nat, upstream: map<string, TaskResult>, result: Option<Value>)

  /** History of provider calls, each with the revision whose commit paid for it. */
  datatype Call = Call(revision: nat, tokens: nat, caller: SessionId)

  /** The session lock: free, held before the liveness check of the save, or held awaiting the answer. */
  datatype Phase = Idle | Locked(op: SaveOp) | Saving(op: SaveOp)

  datatype Stage = Starting | Invoking | Returned(value: Value)

  datatype Job = Job(fingerprint: Fingerprint, version: Version, stage: Stage)

  /** A result handed to the caller of `run`, with the ghost revision whose commit holds it. */
  datatype Outcome = Outcome(fingerprint: Fingerprint, version: Version, value: Value, reused: bool, revision: nat)

  /** One executor. `base` is the ghost set of versions drawn before it read the checkpoint; `plans`
      holds the tasks of each attempt in level order. */
  datatype Proc = Proc(
    session: Session, phase: Phase, crashed: bool, base: set<Version>, plans: map<nat, seq<Task>>,
    started: set<Key>, jobs: map<Key, Job>, outcomes: map<Key, Outcome>, tickets: map<nat, nat>)

  /** `runs` holds the versions of the node invocations that called the runner. */
  datatype World = World(
    now: int, maxCalls: nat, maxTokens: nat, log: seq<Commit>, network: set<Message>,
    procs: map<SessionId, Proc>, issued: map<Version, Issue>,
    invocations: map<Version, Invocation>, calls: seq<Call>, runs: set<Version>)

  datatype Event =
    | Tick(ms: nat)
    | OpenRead(sid: SessionId, binding: string)
    | OpenCreate(sid: SessionId, binding: string, deadline: int)
    | Deliver(message: Message)
    | Acknowledge(sid: SessionId)
    | SaveFails(sid: SessionId, error: Error)
    | Crash(sid: SessionId)
    | ReserveBegin(sid: SessionId, tokens: int)
    | PlanAttempt(sid: SessionId, attempt: nat, plan: seq<Task>)
    | RunBegin(sid: SessionId, key: Key, fingerprint: Fingerprint, version: Version)
    | RunFinish(sid: SessionId, key: Key)
    | Send(sid: SessionId)
    | ProviderCall(sid: SessionId, revision: nat)
    | RunnerCall(sid: SessionId, key: Key)
    | InvokeReturns(sid: SessionId, key: Key, value: Value)

  // ---------------------------------------------------------------- steps

  function DepNames(f: Fingerprint): seq<string> {
    if f.NodeInput? then seq(|f.deps|, i requires 0 <= i < |f.deps| => f.deps[i].0) else []
  }

  function TaskOf(f: Fingerprint): Task
    requires f.NodeInput?
  {
    Task(f.taskId, f.description, DepNames(f))
  }

  /** What an operation of a planned attempt waits for. A node is a task of the plan; its dependencies
      have finished in this session and the fingerprint names their versions. The synthesis takes the
      results and versions of all tasks of the plan. */
  predicate DepsFinished(plans: map<nat, seq<Task>>, outcomes: map<Key, Outcome>, key: Key, f: Fingerprint) {
    match key
    case Step(_) => f.StepInput?
    case Node(a, t) =>
      && f.NodeInput? && f.taskId == t && a in plans && TaskOf(f) in plans[a]
      && forall i :: 0 <= i < |f.deps| ==>
           && Node(a, f.deps[i].0) in outcomes
           && outcomes[Node(a, f.deps[i].0)].version == f.deps[i].1
           && outcomes[Node(a, f.deps[i].0)].value.NodeValue?
    case Synthesis(a) => f.SynthesisInput? && a in plans && AllFinished(plans[a], outcomes, a, f)
  }

  predicate AllFinished(plan: seq<Task>, outcomes: map<Key, Outcome>, a: nat, f: Fingerprint)
    requires f.SynthesisInput?
  {
    && |f.results| == |f.versions| == |plan|
    && forall i :: 0 <= i < |plan| ==> FinishedAs(outcomes, Node(a, plan[i].id), f.versions[i], f.results[i])
  }

  predicate FinishedAs(outcomes: map<Key, Outcome>, key: Key, v: Version, result: TaskResult) {
    key in outcomes && outcomes[key].version == v && outcomes[key].value == NodeValue(result)
  }

  function Upstream(plans: map<nat, seq<Task>>, outcomes: map<Key, Outcome>, key: Key,
                    f: Fingerprint): map<string, TaskResult>
    requires DepsFinished(plans, outcomes, key, f)
  {
    if !key.Node? then map[]
    else map d | d in DepNames(f) :: outcomes[Node(key.attempt, d)].value.result
  }

  /** The `reusable` test of a node: DONE without tools, and every dependency entry is reusable. */
  predicate Reusable(s: CheckpointState, key: Key, f: Fingerprint, value: Value) {
    match key
    case Step(_) => true
    case Synthesis(_) => true
    case Node(a, _) =>
      && value.NodeValue? && Succeeded(value.result) && !UsesTools(value.result)
      && forall d :: d in DepNames(f) ==> Node(a, d) in s.operations && s.operations[Node(a, d)].reusable
  }

  predicate Alive(w: World, sid: SessionId) {
    sid in w.procs && !w.procs[sid].crashed
  }

  ghost predicate Enabled(w: World, e: Event) {
    match e
    case Tick(_) => true
    case OpenRead(sid, binding) =>
      sid !in w.procs && w.log != [] && w.log[|w.log| - 1].state.binding == binding
      && w.now < w.log[|w.log| - 1].state.deadline
    case OpenCreate(sid, _, _) => sid !in w.procs && w.log == []
    case Deliver(m) => m in w.network && m.revision == |w.log|
    case Acknowledge(sid) =>
      && Alive(w, sid) && w.procs[sid].phase.Saving?
      && var r := w.procs[sid].session.revision;
         r < |w.log| && w.log[r].writer == sid
    case SaveFails(sid, _) => Alive(w, sid) && w.procs[sid].phase.Saving?
    case Crash(sid) => sid in w.procs
    case ReserveBegin(sid, tokens) =>
      && Alive(w, sid) && w.procs[sid].phase.Idle?
      && ReserveLocally(w.procs[sid].session, w.now, tokens, w.maxCalls, w.maxTokens).Success?
    case PlanAttempt(sid, attempt, plan) =>
      && Alive(w, sid) && attempt !in w.procs[sid].plans
      && TaskGraph.DistinctIds(plan) && TaskGraph.AllDepsKnown(plan)
    case RunBegin(sid, key, f, v) =>
      && Alive(w, sid) && w.procs[sid].phase.Idle?
      && key !in w.procs[sid].started && v !in w.issued
      && DepsFinished(w.procs[sid].plans, w.procs[sid].outcomes, key, f)
      && !DecideRun(w.procs[sid].session, w.now, key, f, v).Refuse?
    case RunFinish(sid, key) =>
      && Alive(w, sid) && w.procs[sid].phase.Idle?
      && key in w.procs[sid].jobs && w.procs[sid].jobs[key].stage.Returned?
    case Send(sid) => Alive(w, sid) && w.procs[sid].phase.Locked?
    case ProviderCall(sid, r) => Alive(w, sid) && r in w.procs[sid].tickets
    case RunnerCall(sid, key) =>
      && Alive(w, sid) && key.Node? && key in w.procs[sid].jobs && w.procs[sid].jobs[key].stage.Invoking?
      && NeedsRunner(w, w.procs[sid].jobs[key])
    case InvokeReturns(sid, key, value) =>
      && Alive(w, sid)
      && key in w.procs[sid].jobs && w.procs[sid].jobs[key].stage.Invoking?
      && var job := w.procs[sid].jobs[key];
      && job.version in w.invocations && MayReturn(w, key, job, value)
  }

  /** What an operation body may return: an arbitrary text for planner, critic and replanner, the
      synthesis that its results decide, or the result of a worker. */
  ghost predicate MayReturn(w: World, key: Key, job: Job, value: Value)
    requires job.version in w.invocations
  {
    match key
    case Step(_) => value.StepValue?
    case Synthesis(_) =>
      && job.fingerprint.SynthesisInput? && value.ReplyValue?
      && value.reply == SynthesisOf(job.fingerprint.results, value.reply.answer)
    case Node(_, _) =>
      && value.NodeValue? && job.fingerprint.NodeInput?
      && WorkerMayReturn(TaskOf(job.fingerprint), w.invocations[job.version].upstream, value.result)
      && (NeedsRunner(w, job) ==> job.version in w.runs)
  }

  /** The worker of a node calls the runner unless an upstream node did not end DONE. */
  predicate NeedsRunner(w: World, job: Job) {
    && job.version in w.invocations && job.fingerprint.NodeInput?
    && var up := w.invocations[job.version].upstream;
    && (forall d :: d in DepNames(job.fingerprint) ==> d in up)
    && !UpstreamFailed(TaskOf(job.fingerprint), up)
  }

  function SetProc(w: World, sid: SessionId, p: Proc): World {
    w.(procs := w.procs[sid := p])
  }

  function NewProc(s: Session, phase: Phase, base: set<Version>): Proc {
    Proc(s, phase, false, base, map[], {}, map[], map[], map[])
  }

  function VersionOf(s: CheckpointState, key: Key): Version {
    if key in s.operations then s.operations[key].version else ""
  }

  /** A good acknowledgement: the session moves on and the interrupted operation continues. */
  ghost function Resumed(w: World, sid: SessionId): World
    requires Enabled(w, Acknowledge(sid))
  {
    var p := w.procs[sid];
    var s := AfterReply(p.session, SaveReply.Acknowledged(p.session.revision + 1, w.log[p.session.revision].state));
    var q := p.(session := s, phase := Idle);
    match p.phase.op
    case Create => SetProc(w, sid, q)
    case Reserve(t) => SetProc(w, sid, q.(tickets := q.tickets[s.revision := t]))
    case Begin(key, f, v) =>
      if key in p.jobs && DepsFinished(p.plans, p.outcomes, key, f) then
        SetProc(w, sid, q.(jobs := p.jobs[key := Job(f, v, Invoking)]))
        .(invocations := w.invocations[v := Invocation(Issue(key, f, sid), s.revision,
                                                       Upstream(p.plans, p.outcomes, key, f), None)])
      else SetProc(w, sid, q)
    case Finish(key, v, x, _) =>
      if key in p.jobs then
        SetProc(w, sid, q.(jobs := p.jobs - {key},
                           outcomes := p.outcomes[key := Outcome(p.jobs[key].fingerprint, VersionOf(s.state, key), x,
                                                                 false, s.revision)]))
      else SetProc(w, sid, q)
  }

  ghost function RunBegan(w: World, sid: SessionId, key: Key, f: Fingerprint, v: Version): World
    requires Enabled(w, RunBegin(sid, key, f, v))
  {
    var p := w.procs[sid].(started := w.procs[sid].started + {key});
    match DecideRun(p.session, w.now, key, f, v)
    case Refuse(_) => w
    case Reuse(x, previous) =>
      SetProc(w, sid, p.(outcomes := p.outcomes[key := Outcome(f, previous, x, true, p.session.revision)]))
    case Start(local) =>
      SetProc(w, sid,
              p.(session := local, phase := Locked(Begin(key, f, v)), jobs := p.jobs[key := Job(f, v, Starting)]))
      .(issued := w.issued[v := Issue(key, f, sid)])
  }

  ghost function RunFinishing(w: World, sid: SessionId, key: Key): World
    requires Enabled(w, RunFinish(sid, key))
  {
    var p := w.procs[sid];
    var job := p.jobs[key];
    var reusable := Reusable(p.session.state, key, job.fingerprint, job.stage.value);
    var local := FinishLocally(p.session, key, job.version, job.stage.value, reusable);
    SetProc(w, sid, p.(session := local, phase := Locked(Finish(key, job.version, job.stage.value, reusable))))
  }

  ghost function Sent(w: World, sid: SessionId): World
    requires Enabled(w, Send(sid))
  {
    var p := w.procs[sid];
    if EnsureActive(p.session, w.now).Some? then
      SetProc(w, sid, p.(phase := Idle))
    else
      SetProc(w, sid, p.(phase := Saving(p.phase.op)))
      .(network := w.network + {Message(sid, p.session.revision, p.phase.op, p.session.state)})
  }

  ghost function InvocationReturned(w: World, sid: SessionId, key: Key, value: Value): World
    requires Enabled(w, InvokeReturns(sid, key, value))
  {
    var p := w.procs[sid];
    var job := p.jobs[key];
    SetProc(w, sid, p.(jobs := p.jobs[key := job.(stage := Returned(value))]))
    .(invocations := w.invocations[job.version := w.invocations[job.version].(result := Some(value))])
  }

  ghost function Do(w: World, e: Event): World
    requires Enabled(w, e)
  {
    match e
    case Tick(ms) => w.(now := w.now + ms)
    case OpenRead(sid, _) =>
      SetProc(w, sid, NewProc(Session(w.log[|w.log| - 1].state, |w.log|, None), Idle, w.issued.Keys))
    case OpenCreate(sid, binding, deadline) =>
      var s := FreshState(binding, deadline);
      SetProc(w, sid, NewProc(Session(s, 0, None), Saving(Create), w.issued.Keys))
      .(network := w.network + {Message(sid, 0, Create, s)})
    case Deliver(m) => w.(log := w.log + [Commit(m.state, m.op, m.sender)])
    case Acknowledge(sid) => Resumed(w, sid)
    case SaveFails(sid, error) =>
      var p := w.procs[sid];
      SetProc(w, sid, p.(session := AfterReply(p.session, Lost(error)), phase := Idle))
    case Crash(sid) => SetProc(w, sid, w.procs[sid].(crashed := true))
    case ReserveBegin(sid, tokens) =>
      var p := w.procs[sid];
      SetProc(w, sid, p.(session := ReserveLocally(p.session, w.now, tokens, w.maxCalls, w.maxTokens).value,
                         phase := Locked(Reserve(tokens))))
    case PlanAttempt(sid, attempt, plan) =>
      SetProc(w, sid, w.procs[sid].(plans := w.procs[sid].plans[attempt := plan]))
    case RunBegin(sid, key, f, v) => RunBegan(w, sid, key, f, v)
    case RunFinish(sid, key) => RunFinishing(w, sid, key)
    case Send(sid) => Sent(w, sid)
    case ProviderCall(sid, r) =>
      var p := w.procs[sid];
      SetProc(w, sid, p.(tickets := p.tickets - {r})).(calls := w.calls + [Call(r, p.tickets[r], sid)])
    case RunnerCall(sid, key) => w.(runs := w.runs + {w.procs[sid].jobs[key].version})
    case InvokeReturns(sid, key, value) => InvocationReturned(w, sid, key, value)
  }

  function Initial(now: int, maxCalls: nat, maxTokens: nat): World {
    World(now, maxCalls, maxTokens, [], {}, map[], map[], map[], [], {})
  }

  /** `run` leads from `w` to `v`. */
  ghost predicate Leads(w: World, run: seq<Event>, v: World)
    decreases |run|
  {
    if run == [] then w == v
    else Enabled(w, run[0]) && Leads(Do(w, run[0]), run[1..], v)
  }
}
