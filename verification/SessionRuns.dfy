/** All runs on one agent session record, interleaved at their store accesses, as a step machine.

    A generation ends when the record expires; a new one begins with the next creation. */
module SessionRuns {
  import opened DagTypes
  import opened AgentSession

  /** A successful write; `base` is the index of the commit the writer derived it from. */
  datatype Commit = Commit(value: Checkpoint, writer: nat, generation: nat, base: Option<nat>)

  /** `since` is the time of the run's latest clock-ordered store access. */
  datatype RunState =
    | Fetched(cfg: Config, goal: string, who: Caller, found: Option<nat>, since: int)
    | Owner(cfg: Config, index: nat, since: int)
    | Over

  /** `callers` is the history of who started each run. */
  datatype World = World(
    kind: Kind, id: string, now: int, store: Option<Checkpoint>, generation: nat, log: seq<Commit>,
    runs: map<nat, RunState>, callers: map<nat, Caller>)

  datatype Event =
    | Tick(micros: nat)
    | Expire
    | Fetch(run: nat, cfg: Config, goal: string, who: Caller)
    | Start(run: nat, at: int)
    | Progress(run: nat, steps: seq<string>, sideEffect: bool, at: int, leaseAt: int)
    | Complete(run: nat, outcome: Outcome, at: int)
    | Abandon(run: nat)

  // ---------------------------------------------------------------- steps

  /** What a run would write now, and the commit it derives it from. */
  datatype Write = Write(value: Checkpoint, base: Option<nat>)

  function Expects(w: World, base: Option<nat>): Option<nat>
    requires base.Some? ==> base.value < |w.log|
  {
    match base
    case None => None
    case Some(b) => Some(w.log[b].value.revision)
  }

  predicate IndexOk(w: World, i: Option<nat>) {
    i.Some? ==> i.value < |w.log|
  }

  /** The write an event attempts, if it gets as far as the store. */
  function WriteOf(w: World, e: Event): Option<Write> {
    match e
    case Start(r, at) =>
      if r in w.runs && w.runs[r].Fetched? && IndexOk(w, w.runs[r].found) then
        var s := w.runs[r];
        match s.found
        case None => Some(Write(Created(s.cfg, w.id, s.goal, s.who, at), None))
        case Some(i) =>
          var c := w.log[i].value;
          if ResumeError(c, s.goal, s.who, at).Some? || Terminal(c.status) then None
          else Some(Write(Resumed(s.cfg, c, at), Some(i)))
      else None
    case Progress(r, steps, side, at, leaseAt) =>
      if r in w.runs && w.runs[r].Owner? && w.runs[r].index < |w.log| then
        var s := w.runs[r];
        var next := Progressed(s.cfg, w.log[s.index].value, steps, side, at, leaseAt);
        if next.sideEffect && next.key.None? then None else Some(Write(next, Some(s.index)))
      else None
    case Complete(r, x, at) =>
      if r in w.runs && w.runs[r].Owner? && w.runs[r].index < |w.log| then
        Some(Write(Completed(w.runs[r].cfg, w.log[w.runs[r].index].value, x, at), Some(w.runs[r].index)))
      else None
    case _ => None
  }

  predicate Commits(w: World, e: Event) {
    match WriteOf(w, e)
    case None => false
    case Some(x) => IndexOk(w, x.base) && Accepts(w.kind, w.store, x.value, Expects(w, x.base), w.now)
  }

  predicate InTime(w: World, run: nat, at: int) {
    run in w.runs && w.runs[run] != Over && w.runs[run].since <= at <= w.now
  }

  predicate Enabled(w: World, e: Event) {
    match e
    case Tick(_) => true
    case Expire => w.store.Some? && w.store.value.expiresAt <= w.now
    case Fetch(r, cfg, _, _) =>
      r !in w.runs && cfg.ttl > 0 && !(w.kind == Memory && w.store.Some? && w.store.value.expiresAt <= w.now)
    case Start(r, at) => InTime(w, r, at) && w.runs[r].Fetched?
    case Progress(r, _, _, at, leaseAt) => InTime(w, r, at) && w.runs[r].Owner? && at <= leaseAt <= w.now
    case Complete(r, _, at) => InTime(w, r, at) && w.runs[r].Owner?
    case Abandon(r) => r in w.runs
  }

  /** The run after a write succeeded: it owns the new commit, or it is finished. */
  function AfterCommit(w: World, e: Event, index: nat): RunState {
    match e
    case Start(r, at) => if r in w.runs && w.runs[r].Fetched? then Owner(w.runs[r].cfg, index, at) else Over
    case Progress(r, _, _, at, _) => if r in w.runs && w.runs[r].Owner? then Owner(w.runs[r].cfg, index, at) else Over
    case _ => Over
  }

  function RunOf(e: Event): nat {
    match e
    case Start(r, _) => r
    case Progress(r, _, _, _, _) => r
    case Complete(r, _, _) => r
    case Abandon(r) => r
    case Fetch(r, _, _, _) => r
    case _ => 0
  }

  function Written(w: World, e: Event): World
    requires Commits(w, e)
  {
    var x := WriteOf(w, e).value;
    w.(store := Some(x.value), log := w.log + [Commit(x.value, RunOf(e), w.generation, x.base)],
       runs := w.runs[RunOf(e) := AfterCommit(w, e, |w.log|)])
  }

  function Do(w: World, e: Event): World
    requires Enabled(w, e)
  {
    match e
    case Tick(micros) => w.(now := w.now + micros)
    case Expire => w.(store := None, generation := w.generation + 1)
    case Fetch(r, cfg, goal, who) =>
      w.(runs := w.runs[r := Fetched(cfg, goal, who, if w.store.Some? && |w.log| > 0 then Some(|w.log| - 1) else None,
                                     w.now)],
         callers := w.callers[r := who])
    case Abandon(r) => w.(runs := w.runs[r := Over])
    case _ => if Commits(w, e) then Written(w, e) else w.(runs := w.runs[RunOf(e) := Over])
  }

  function Initial(kind: Kind, id: string, now: int): World {
    World(kind, id, now, None, 0, [], map[], map[])
  }

  ghost predicate Leads(w: World, run: seq<Event>, v: World)
    decreases |run|
  {
    if run == [] then w == v
    else Enabled(w, run[0]) && Leads(Do(w, run[0]), run[1..], v)
  }

  // ---------------------------------------------------------------- invariant

  predicate FirstOfGeneration(log: seq<Commit>, i: nat)
    requires i < |log|
  {
    i == 0 || log[i - 1].generation < log[i].generation
  }

  /** One lawful step of a session: same owner and goal, next revision, side effects kept, never past
      a terminal status. */
  predicate Follows(a: Checkpoint, b: Checkpoint) {
    && SameSession(a, b) && b.revision == a.revision + 1
    && (a.sideEffect ==> b.sideEffect) && !Terminal(a.status)
  }

  /** All of validity but the order of update and expiry. */
  predicate NearlyValid(c: Checkpoint) {
    c.createdAt <= c.updatedAt && (c.sideEffect ==> c.key.Some?) && (c.leaseOwner.Some? <==> c.leaseExpires.Some?)
  }

  ghost predicate CommitOk(w: World, i: nat)
    requires i < |w.log|
  {
    var c := w.log[i];
    && c.generation <= w.generation
    && (i > 0 ==> w.log[i - 1].generation <= c.generation)
    && NearlyValid(c.value) && (w.kind == Redis ==> Valid(c.value))
    && c.value.updatedAt <= w.now
    && match c.base
       case None => FirstOfGeneration(w.log, i) && c.value.revision == 0
       case Some(b) =>
         && !FirstOfGeneration(w.log, i) && b < i
         && c.value.revision == w.log[i - 1].value.revision + 1
         && Follows(w.log[b].value, c.value)
  }

  ghost predicate LogOk(w: World) {
    forall i {:trigger CommitOk(w, i)} :: 0 <= i < |w.log| ==> CommitOk(w, i)
  }

  ghost predicate StoreOk(w: World) {
    match w.store
    case None => |w.log| > 0 ==> w.log[|w.log| - 1].generation < w.generation
    case Some(c) => |w.log| > 0 && w.log[|w.log| - 1].value == c && w.log[|w.log| - 1].generation == w.generation
  }

  ghost predicate RunOk(w: World, r: nat, s: RunState) {
    match s
    case Over => true
    case Fetched(cfg, _, _, found, since) =>
      && cfg.ttl > 0 && since <= w.now && IndexOk(w, found)
      && (found.Some? ==> w.log[found.value].value.updatedAt <= since)
    case Owner(cfg, i, since) =>
      && cfg.ttl > 0 && since <= w.now && i < |w.log| && w.log[i].writer == r
      && var c := w.log[i].value;
      && c.updatedAt <= since && c.status == Running && c.leaseOwner.Some?
      && (w.kind == Redis ==> Valid(c))
  }

  ghost predicate RunsOk(w: World) {
    forall r {:trigger RunOk(w, r, w.runs[r])} :: r in w.runs ==> RunOk(w, r, w.runs[r])
  }

  ghost predicate Inv(w: World) {
    var ok :=
      LogOk(w) && StoreOk(w) && RunsOk(w);
    ok
  }

  lemma RunsStayOk(w: World, v: World, acting: nat)
    requires RunsOk(w) && w.kind == v.kind && w.now <= v.now && w.log <= v.log
    requires forall r :: r in v.runs && r != acting ==> r in w.runs && v.runs[r] == w.runs[r]
    requires acting in v.runs ==> RunOk(v, acting, v.runs[acting])
    ensures RunsOk(v)
  {
    forall r | r in v.runs
      ensures RunOk(v, r, v.runs[r])
    {
      if r != acting {
        assert RunOk(w, r, w.runs[r]);
      }
    }
  }

  lemma LogStaysOk(w: World, v: World)
    requires LogOk(w) && w.kind == v.kind && w.now <= v.now && w.generation <= v.generation && w.log == v.log
    ensures LogOk(v)
  {
    forall i | 0 <= i < |v.log|
      ensures CommitOk(v, i)
    {
      assert CommitOk(w, i);
    }
  }

  /** Every attempted write is a lawful step of the commit it derives from. */
  lemma WriteIsLawful(w: World, e: Event)
    requires Inv(w) && Enabled(w, e) && Commits(w, e)
    ensures var x := WriteOf(w, e).value;
            && NearlyValid(x.value) && x.value.updatedAt <= w.now
            && (w.kind == Redis ==> Valid(x.value))
            && (x.base.None? ==> x.value.revision == 0)
            && (x.base.Some? ==> Follows(w.log[x.base.value].value, x.value))
            && (AfterCommit(w, e, |w.log|) != Over ==> x.value.status == Running && x.value.leaseOwner.Some?)
  {
    var x := WriteOf(w, e).value;
    var s := w.runs[RunOf(e)];
    assert RunOk(w, RunOf(e), s);
    if x.base.Some? {
      assert CommitOk(w, x.base.value);
    }
    CeilIsPositive(x.value.expiresAt - w.now);
  }

  lemma EarlierCommitOk(w: World, v: World, i: nat)
    requires i < |w.log| && CommitOk(w, i)
    requires w.kind == v.kind && w.now <= v.now && w.generation <= v.generation && w.log <= v.log
    ensures CommitOk(v, i)
  {
  }

  lemma NewCommitOk(w: World, e: Event, v: World)
    requires Inv(w) && Enabled(w, e) && Commits(w, e) && v == Written(w, e)
    ensures CommitOk(v, |w.log|)
  {
    WriteIsLawful(w, e);
    if w.log != [] {
      assert CommitOk(w, |w.log| - 1);
    }
  }

  lemma WriterOk(w: World, e: Event, v: World)
    requires Inv(w) && Enabled(w, e) && Commits(w, e) && v == Written(w, e)
    ensures RunOk(v, RunOf(e), v.runs[RunOf(e)])
  {
    WriteIsLawful(w, e);
    assert RunOk(w, RunOf(e), w.runs[RunOf(e)]);
  }

  lemma WrittenOk(w: World, e: Event)
    requires Inv(w) && Enabled(w, e) && Commits(w, e)
    ensures Inv(Written(w, e))
  {
    var v := Written(w, e);
    forall i | 0 <= i < |v.log|
      ensures CommitOk(v, i)
    {
      if i < |w.log| {
        assert CommitOk(w, i);
        EarlierCommitOk(w, v, i);
      } else {
        NewCommitOk(w, e, v);
      }
    }
    WriterOk(w, e, v);
    RunsStayOk(w, v, RunOf(e));
  }

  lemma EventKeepsInv(w: World, e: Event)
    requires Inv(w) && Enabled(w, e)
    ensures Inv(Do(w, e))
  {
    var v := Do(w, e);
    if Commits(w, e) {
      WrittenOk(w, e);
    } else {
      LogStaysOk(w, v);
      if e.Fetch? && |w.log| > 0 {
        assert CommitOk(w, |w.log| - 1);
      }
      if e.Expire? && |w.log| > 0 {
        assert CommitOk(w, |w.log| - 1);
      }
      assert RunOf(e) in w.runs ==> RunOk(w, RunOf(e), w.runs[RunOf(e)]);
      RunsStayOk(w, v, RunOf(e));
    }
  }

  lemma {:induction false} RunKeepsInv(w: World, run: seq<Event>, v: World)
    requires Inv(w) && Leads(w, run, v)
    ensures Inv(v)
    decreases |run|
  {
    if run != [] {
      EventKeepsInv(w, run[0]);
      RunKeepsInv(Do(w, run[0]), run[1..], v);
    }
  }

  // ---------------------------------------------------------------- theorems

  ghost predicate Reached(w: World) {
    exists now, run :: Leads(Initial(w.kind, w.id, now), run, w)
  }

  lemma ReachedIsOk(w: World)
    requires Reached(w)
    ensures Inv(w)
  {
    var now, run :| Leads(Initial(w.kind, w.id, now), run, w);
    RunKeepsInv(Initial(w.kind, w.id, now), run, w);
  }

  /** Inside a generation revisions count the commits. */
  lemma {:induction false} RevisionsCount(w: World, i: nat, j: nat)
    requires Inv(w) && i <= j < |w.log| && w.log[i].generation == w.log[j].generation
    ensures w.log[j].value.revision == w.log[i].value.revision + (j - i)
    decreases j - i
  {
    if i < j {
      assert CommitOk(w, j);
      GenerationsAscend(w, i, j - 1);
      RevisionsCount(w, i, j - 1);
    }
  }

  lemma {:induction false} GenerationsAscend(w: World, i: nat, j: nat)
    requires Inv(w) && i <= j < |w.log|
    ensures w.log[i].generation <= w.log[j].generation
    decreases j - i
  {
    if i < j {
      assert CommitOk(w, j);
      GenerationsAscend(w, i, j - 1);
    }
  }

  /** A successful write is derived from the commit just before it exactly if the writer's own
      checkpoint belongs to the current generation, that is, the record has not expired since. */
  lemma CommitExtendsLatest(w: World, e: Event)
    requires Reached(w) && Enabled(w, e) && Commits(w, e) && WriteOf(w, e).value.base.Some?
    ensures var b := WriteOf(w, e).value.base.value;
            b == |w.log| - 1 <==> w.log[b].generation == w.generation
  {
    ReachedIsOk(w);
    var b := WriteOf(w, e).value.base.value;
    if w.log[b].generation == w.generation {
      RevisionsCount(w, b, |w.log| - 1);
    }
  }

  /** A run that has taken the record over and whose next write would be accepted by revision. */
  predicate CanCommit(w: World, r: nat) {
    && r in w.runs && w.runs[r].Owner? && w.runs[r].index < |w.log|
    && w.log[w.runs[r].index].generation == w.generation
    && Expected(w.store, Some(w.log[w.runs[r].index].value.revision))
  }

  /** Between expiries at most one run that owns the record can still commit, and what it holds is
      exactly what is stored. */
  lemma OneWriter(w: World, a: nat, b: nat)
    requires Reached(w) && CanCommit(w, a) && CanCommit(w, b)
    ensures a == b && w.store == Some(w.log[w.runs[a].index].value)
  {
    ReachedIsOk(w);
    assert RunOk(w, a, w.runs[a]) && RunOk(w, b, w.runs[b]);
    RevisionsCount(w, w.runs[a].index, |w.log| - 1);
    RevisionsCount(w, w.runs[b].index, |w.log| - 1);
  }

  /** Commit `i` was derived from an expired predecessor of the record. */
  predicate Crosses(w: World, i: nat)
    requires i < |w.log|
  {
    w.log[i].base.Some? && w.log[i].base.value < |w.log| && w.log[w.log[i].base.value].generation < w.log[i].generation
  }

  /** Successive commits of one generation: the revision always advances by one, and unless the later
      one crossed an expiry it is a lawful step of the earlier one: owner, goal, key and creation time
      stay, side effects are not forgotten, and a terminal status is never overwritten. */
  lemma CommitsAreLawful(w: World, i: nat)
    requires Reached(w) && i + 1 < |w.log| && w.log[i].generation == w.log[i + 1].generation
    ensures w.log[i + 1].value.revision == w.log[i].value.revision + 1
    ensures !Crosses(w, i + 1) ==> w.log[i + 1].base == Some(i) && Follows(w.log[i].value, w.log[i + 1].value)
  {
    ReachedIsOk(w);
    assert CommitOk(w, i + 1);
    var b := w.log[i + 1].base.value;
    GenerationsAscend(w, b, i + 1);
    if !Crosses(w, i + 1) {
      RevisionsCount(w, b, i);
    }
  }

  /** So over a stretch of one generation without crossings, the session never changes hands, and
      nothing follows a terminal status. */
  lemma {:induction false} GenerationIsOneSession(w: World, i: nat, j: nat)
    requires Reached(w) && i <= j < |w.log| && w.log[i].generation == w.log[j].generation
    requires forall k :: i < k <= j ==> !Crosses(w, k)
    ensures SameSession(w.log[i].value, w.log[j].value)
    ensures w.log[i].value.sideEffect ==> w.log[j].value.sideEffect
    ensures Terminal(w.log[i].value.status) ==> i == j
    decreases j - i
  {
    if i < j {
      ReachedIsOk(w);
      GenerationsAscend(w, i, j - 1);
      GenerationsAscend(w, j - 1, j);
      GenerationIsOneSession(w, i, j - 1);
      CommitsAreLawful(w, j - 1);
    }
  }

  /** Every checkpoint written through the Redis store satisfies the model's validator. */
  lemma RedisStoresValidCheckpoints(w: World, i: nat)
    requires Reached(w) && w.kind == Redis && i < |w.log|
    ensures Valid(w.log[i].value)
  {
    ReachedIsOk(w);
    assert CommitOk(w, i);
  }

  /** What a write stores is valid exactly if it does not report progress at or after the expiry of the
      record it extends; in Redis such a write is refused. */
  lemma WriteValidity(w: World, e: Event)
    requires Reached(w) && Enabled(w, e) && Commits(w, e)
    ensures var x := WriteOf(w, e).value;
            Valid(x.value) <==> !(e.Progress? && x.base.Some? && e.at >= w.log[x.base.value].value.expiresAt)
    ensures w.kind == Redis ==> Valid(WriteOf(w, e).value.value)
  {
    ReachedIsOk(w);
    WriteIsLawful(w, e);
    assert RunOk(w, RunOf(e), w.runs[RunOf(e)]);
  }

  /** In either store a committed checkpoint is valid exactly if it was written before it expired. */
  lemma StoredValidity(w: World, i: nat)
    requires Reached(w) && i < |w.log|
    ensures Valid(w.log[i].value) <==> w.log[i].value.updatedAt < w.log[i].value.expiresAt
  {
    ReachedIsOk(w);
    assert CommitOk(w, i);
  }

  lemma {:induction false} LeadsOneMore(w: World, run: seq<Event>, v: World, e: Event)
    requires Leads(w, run, v) && Enabled(v, e)
    ensures Leads(w, run + [e], Do(v, e))
    decreases |run|
  {
    if run == [] {
      assert Leads(Do(v, e), [e][1..], Do(v, e));
    } else {
      LeadsOneMore(Do(w, run[0]), run[1..], v, e);
      assert (run + [e])[1..] == run[1..] + [e];
    }
  }

  // ---------------------------------------------------------------- who writes

  /** Commit `i` belongs to the caller of the run that wrote it. */
  ghost predicate WrittenByOwner(w: World, i: nat)
    requires i < |w.log|
  {
    && w.log[i].writer in w.callers && Owns(w.callers[w.log[i].writer], w.log[i].value)
    && (w.log[i].base.Some? ==>
          w.log[i].base.value < |w.log| && Owns(w.callers[w.log[i].writer], w.log[w.log[i].base.value].value))
  }

  /** A run knows its caller, and what it owns it wrote itself. */
  ghost predicate RunIsKnown(w: World, r: nat, s: RunState) {
    && r in w.callers
    && (s.Fetched? ==> w.callers[r] == s.who)
    && (s.Owner? ==> s.index < |w.log| && w.log[s.index].writer == r)
  }

  ghost predicate CallersOk(w: World) {
    && (forall i {:trigger WrittenByOwner(w, i)} :: 0 <= i < |w.log| ==> WrittenByOwner(w, i))
    && (forall r {:trigger RunIsKnown(w, r, w.runs[r])} :: r in w.runs ==> RunIsKnown(w, r, w.runs[r]))
  }

  /** A write is derived from a record of the run's own caller, and belongs to that caller too. */
  lemma WriteIsOwn(w: World, e: Event)
    requires Inv(w) && CallersOk(w) && Enabled(w, e) && Commits(w, e)
    ensures var x := WriteOf(w, e).value;
            && RunOf(e) in w.callers && Owns(w.callers[RunOf(e)], x.value)
            && (x.base.Some? ==> Owns(w.callers[RunOf(e)], w.log[x.base.value].value))
  {
    var r := RunOf(e);
    assert RunIsKnown(w, r, w.runs[r]);
    if w.runs[r].Owner? {
      assert WrittenByOwner(w, w.runs[r].index);
    }
  }

  lemma WrittenKeepsCallers(w: World, e: Event, v: World)
    requires Inv(w) && CallersOk(w) && Enabled(w, e) && Commits(w, e) && v == Written(w, e)
    ensures CallersOk(v)
  {
    WriteIsOwn(w, e);
    forall i | 0 <= i < |v.log|
      ensures WrittenByOwner(v, i)
    {
      assert i < |w.log| ==> WrittenByOwner(w, i) && CommitOk(w, i);
    }
    forall r | r in v.runs
      ensures RunIsKnown(v, r, v.runs[r])
    {
      assert r in w.runs ==> RunIsKnown(w, r, w.runs[r]);
    }
  }

  lemma EventKeepsCallers(w: World, e: Event, v: World)
    requires Inv(w) && CallersOk(w) && Enabled(w, e) && v == Do(w, e)
    requires e.Fetch? ==> forall i :: 0 <= i < |w.log| ==> w.log[i].writer != e.run
    ensures CallersOk(v)
  {
    if Commits(w, e) {
      WrittenKeepsCallers(w, e, v);
    } else {
      forall i | 0 <= i < |v.log|
        ensures WrittenByOwner(v, i)
      {
        assert WrittenByOwner(w, i);
      }
      forall r | r in v.runs
        ensures RunIsKnown(v, r, v.runs[r])
      {
        assert r in w.runs ==> RunIsKnown(w, r, w.runs[r]);
      }
    }
  }

  /** Runs that wrote are runs that there are. */
  ghost predicate WritersAreRuns(w: World) {
    forall i :: 0 <= i < |w.log| ==> w.log[i].writer in w.runs
  }

  lemma {:induction false} RunKeepsCallers(w: World, run: seq<Event>, v: World)
    requires Inv(w) && CallersOk(w) && WritersAreRuns(w) && Leads(w, run, v)
    ensures CallersOk(v)
    decreases |run|
  {
    if run != [] {
      EventKeepsInv(w, run[0]);
      EventKeepsCallers(w, run[0], Do(w, run[0]));
      RunKeepsCallers(Do(w, run[0]), run[1..], v);
    }
  }

  /** Every commit was made for the caller whose record it is and extends: no run derives a
      write from a record of another tenant or user. */
  lemma CommitsAreOwn(w: World, i: nat)
    requires Reached(w) && i < |w.log|
    ensures WrittenByOwner(w, i)
  {
    var now, run :| Leads(Initial(w.kind, w.id, now), run, w);
    RunKeepsCallers(Initial(w.kind, w.id, now), run, w);
  }

  /** Starting on a record that was found writes only for its owner and goal, never under a lease another
      run holds, and after a side effect only with the key and a confirmation. */
  lemma TakeoverIsAllowed(w: World, r: nat, at: int)
    requires Enabled(w, Start(r, at)) && Commits(w, Start(r, at)) && w.runs[r].found.Some?
    ensures var s := w.runs[r];
            var c := w.log[s.found.value].value;
            && Owns(s.who, c) && s.goal == c.goal && !Finished(c) && !HeldByAnother(c, at)
            && (c.sideEffect ==> s.who.key == c.key && s.who.confirmed)
  {
  }

  // ---------------------------------------------------------------- the guard against expiry

  /** The guard neither store makes: at the instant of the write the record it is derived from has not
      expired. It reads the store's clock and the expiry of the writer's base, so it belongs inside the
      compare-and-set: see `CallersCheckIsNotEnough`. */
  predicate Timely(w: World, e: Event) {
    Commits(w, e) && WriteOf(w, e).value.base.Some? ==> w.now < w.log[WriteOf(w, e).value.base.value].value.expiresAt
  }

  /** A run with one common time to live in which all writes are timely. */
  ghost predicate TimelyLeads(ttl: int, w: World, run: seq<Event>, v: World)
    decreases |run|
  {
    if run == [] then w == v
    else
      && Enabled(w, run[0]) && Timely(w, run[0]) && (run[0].Fetch? ==> run[0].cfg.ttl == ttl)
      && TimelyLeads(ttl, Do(w, run[0]), run[1..], v)
  }

  ghost predicate TimelyReached(ttl: int, w: World) {
    exists now, run :: TimelyLeads(ttl, Initial(w.kind, w.id, now), run, w)
  }

  /** Record `i` expires no later than its last update allows, no later than any later record of its
      generation, and has expired if its generation is over. */
  ghost predicate AgeOk(ttl: int, w: World, i: nat)
    requires i < |w.log|
  {
    && w.log[i].value.expiresAt <= w.log[i].value.updatedAt + ttl
    && (w.log[i].generation < w.generation ==> w.log[i].value.expiresAt <= w.now)
    && (i > 0 && w.log[i - 1].generation == w.log[i].generation ==>
          w.log[i - 1].value.expiresAt <= w.log[i].value.expiresAt)
    && !Crosses(w, i)
  }

  ghost predicate AgesOk(ttl: int, w: World) {
    && (forall i {:trigger AgeOk(ttl, w, i)} :: 0 <= i < |w.log| ==> AgeOk(ttl, w, i))
    && (forall r :: r in w.runs && w.runs[r] != Over ==> w.runs[r].cfg.ttl == ttl)
  }

  lemma {:induction false} LatestLivesLongest(ttl: int, w: World, i: nat)
    requires Inv(w) && AgesOk(ttl, w) && i < |w.log| && w.log[i].generation == w.log[|w.log| - 1].generation
    ensures w.log[i].value.expiresAt <= w.log[|w.log| - 1].value.expiresAt
    decreases |w.log| - i
  {
    if i < |w.log| - 1 {
      GenerationsAscend(w, i, i + 1);
      GenerationsAscend(w, i + 1, |w.log| - 1);
      assert AgeOk(ttl, w, i + 1);
      LatestLivesLongest(ttl, w, i + 1);
    }
  }

  /** A timely write extends the latest commit. */
  lemma TimelyExtends(ttl: int, w: World, e: Event)
    requires Inv(w) && AgesOk(ttl, w) && Enabled(w, e) && Commits(w, e) && Timely(w, e)
    requires WriteOf(w, e).value.base.Some?
    ensures var b := WriteOf(w, e).value.base.value;
            b == |w.log| - 1 && w.log[b].generation == w.generation
  {
    var b := WriteOf(w, e).value.base.value;
    assert AgeOk(ttl, w, b) && CommitOk(w, b);
    RevisionsCount(w, b, |w.log| - 1);
  }

  lemma TimelyWriteKeepsAges(ttl: int, w: World, e: Event, v: World)
    requires Inv(w) && AgesOk(ttl, w) && Enabled(w, e) && Timely(w, e) && Commits(w, e) && v == Written(w, e)
    ensures AgesOk(ttl, v)
  {
    var n, x := |w.log|, WriteOf(w, e).value;
    assert RunOk(w, RunOf(e), w.runs[RunOf(e)]);
    if x.base.Some? {
      TimelyExtends(ttl, w, e);
      assert AgeOk(ttl, w, n - 1);
    } else if n > 0 {
      assert CommitOk(w, n - 1);
    }
    forall i | 0 <= i < |v.log|
      ensures AgeOk(ttl, v, i)
    {
      assert i < n ==> AgeOk(ttl, w, i) && CommitOk(w, i);
    }
  }

  lemma ExpireKeepsAges(ttl: int, w: World, v: World)
    requires Inv(w) && AgesOk(ttl, w) && Enabled(w, Expire) && v == Do(w, Expire)
    ensures AgesOk(ttl, v)
  {
    forall i | 0 <= i < |v.log|
      ensures AgeOk(ttl, v, i)
    {
      assert AgeOk(ttl, w, i) && CommitOk(w, i);
      if w.log[i].generation == w.generation {
        LatestLivesLongest(ttl, w, i);
      }
    }
  }

  lemma TimelyEventKeepsAges(ttl: int, w: World, e: Event, v: World)
    requires Inv(w) && AgesOk(ttl, w) && Enabled(w, e) && Timely(w, e) && v == Do(w, e)
    requires e.Fetch? ==> e.cfg.ttl == ttl
    ensures AgesOk(ttl, v)
  {
    if Commits(w, e) {
      TimelyWriteKeepsAges(ttl, w, e, v);
    } else if e.Expire? {
      ExpireKeepsAges(ttl, w, v);
    } else {
      forall i | 0 <= i < |v.log|
        ensures AgeOk(ttl, v, i)
      {
        assert AgeOk(ttl, w, i);
      }
    }
  }

  lemma {:induction false} TimelyRunKeepsAges(ttl: int, w: World, run: seq<Event>, v: World)
    requires Inv(w) && AgesOk(ttl, w) && TimelyLeads(ttl, w, run, v)
    ensures Inv(v) && AgesOk(ttl, v)
    decreases |run|
  {
    if run != [] {
      EventKeepsInv(w, run[0]);
      TimelyEventKeepsAges(ttl, w, run[0], Do(w, run[0]));
      TimelyRunKeepsAges(ttl, Do(w, run[0]), run[1..], v);
    }
  }

  /** With one common time to live and every record extended only before it expires, no commit of any
      run crosses an expiry: each one that has a base extends the commit just before it. */
  lemma TimelyWritesExtend(ttl: int, w: World, i: nat)
    requires TimelyReached(ttl, w) && i < |w.log|
    ensures !Crosses(w, i)
    ensures w.log[i].base.Some? ==> i > 0 && w.log[i].base == Some(i - 1) && Follows(w.log[i - 1].value, w.log[i].value)
    ensures w.log[i].base.None? ==> w.log[i].value.revision == 0
  {
    var now, run :| TimelyLeads(ttl, Initial(w.kind, w.id, now), run, w);
    TimelyRunKeepsAges(ttl, Initial(w.kind, w.id, now), run, w);
    assert AgeOk(ttl, w, i) && CommitOk(w, i);
    if w.log[i].base.Some? {
      var b := w.log[i].base.value;
      GenerationsAscend(w, b, i - 1);
      RevisionsCount(w, b, i - 1);
    }
  }

  lemma {:induction false} TimelyLeadsLeads(ttl: int, w: World, run: seq<Event>, v: World)
    requires TimelyLeads(ttl, w, run, v)
    ensures Leads(w, run, v)
    decreases |run|
  {
    if run != [] {
      TimelyLeadsLeads(ttl, Do(w, run[0]), run[1..], v);
    }
  }

  /** A run that owns a record which has not expired and whose revision is the stored one. */
  predicate LiveOwner(w: World, r: nat) {
    && r in w.runs && w.runs[r].Owner? && w.runs[r].index < |w.log|
    && Expected(w.store, Some(w.log[w.runs[r].index].value.revision))
    && w.now < w.log[w.runs[r].index].value.expiresAt
  }

  /** With the guard, what a run and the store can see is enough: at most one owner has the stored
      revision and an unexpired record, and what it holds is what is stored. */
  lemma OneLiveWriter(ttl: int, w: World, a: nat, b: nat)
    requires TimelyReached(ttl, w) && LiveOwner(w, a) && LiveOwner(w, b)
    ensures a == b && w.store == Some(w.log[w.runs[a].index].value)
  {
    var now, run :| TimelyLeads(ttl, Initial(w.kind, w.id, now), run, w);
    TimelyRunKeepsAges(ttl, Initial(w.kind, w.id, now), run, w);
    TimelyLeadsLeads(ttl, Initial(w.kind, w.id, now), run, w);
    assert RunOk(w, a, w.runs[a]) && RunOk(w, b, w.runs[b]);
    assert AgeOk(ttl, w, w.runs[a].index) && AgeOk(ttl, w, w.runs[b].index);
    assert CommitOk(w, w.runs[a].index) && CommitOk(w, w.runs[b].index);
    OneWriter(w, a, b);
  }

  // ---------------------------------------------------------------- the guard is needed

  ghost predicate CanReach(w: World, v: World) {
    exists run :: Leads(w, run, v)
  }

  lemma ReachOn(w: World, v: World, e: Event, u: World)
    requires CanReach(w, v) && Enabled(v, e) && u == Do(v, e)
    ensures CanReach(w, u)
  {
    var run :| Leads(w, run, v);
    LeadsOneMore(w, run, v, e);
    assert Leads(w, run + [e], u);
  }

  /** Run `q` owns a new record at revision `n`, while run `r` still holds commit `i` of an earlier
      generation. */
  ghost predicate Overtaken(w: World, r: nat, s: RunState, i: nat, c: Commit, q: nat, cfg: Config, who: Caller,
                            n: nat) {
    && q != r && r in w.runs && w.runs[r] == s && i < |w.log| && w.log[i] == c && c.generation < w.generation
    && |w.log| > 0 && w.store == Some(w.log[|w.log| - 1].value) && w.log[|w.log| - 1].writer == q
    && q in w.runs && w.runs[q] == Owner(cfg, |w.log| - 1, w.now)
    && var x := w.store.value;
    && x.revision == n && x.expiresAt == w.now + cfg.ttl && !x.sideEffect
    && x.tenantId == who.tenantId && x.userId == who.userId
  }

  /** Where no record is stored, a run that found none creates one. */
  lemma RecordCreated(w: World, q: nat, cfg: Config, who: Caller, v: World)
    requires w.store.None? && cfg.ttl > 0 && q in w.runs && w.runs[q] == Fetched(cfg, "", who, None, w.now)
    requires var c := Created(cfg, w.id, "", who, w.now);
      v == w.(store := Some(c), log := w.log + [Commit(c, q, w.generation, None)],
              runs := w.runs[q := Owner(cfg, |w.log|, w.now)])
    ensures Enabled(w, Start(q, w.now)) && v == Do(w, Start(q, w.now))
  {
    CeilIsPositive(cfg.ttl);
  }

  lemma NewRecord(w: World, r: nat, q: nat, cfg: Config, who: Caller) returns (v: World)
    requires Inv(w) && CanCommit(w, r) && w.store == Some(w.log[w.runs[r].index].value)
    requires w.store.value.expiresAt <= w.now && q !in w.runs && cfg.ttl > 0
    ensures CanReach(w, v) && v.now == w.now && v.kind == w.kind
    ensures Overtaken(v, r, w.runs[r], w.runs[r].index, w.log[w.runs[r].index], q, cfg, who, 0)
  {
    assert Leads(w, [], w);
    var u1 := Do(w, Expire);
    ReachOn(w, w, Expire, u1);
    var u2 := Do(u1, Fetch(q, cfg, "", who));
    ReachOn(w, u1, Fetch(q, cfg, "", who), u2);
    var c := Created(cfg, w.id, "", who, w.now);
    v := u2.(store := Some(c), log := u2.log + [Commit(c, q, u2.generation, None)],
             runs := u2.runs[q := Owner(cfg, |u2.log|, w.now)]);
    RecordCreated(u2, q, cfg, who, v);
    ReachOn(w, u2, Start(q, w.now), v);
    assert CommitOk(w, w.runs[r].index);
  }

  lemma {:induction false} NewRecordAdvances(w: World, u: World, r: nat, s: RunState, i: nat, c: Commit, q: nat,
                                             cfg: Config,
                                             who: Caller, n: nat, m: nat) returns (v: World)
    requires CanReach(w, u) && cfg.ttl > 0 && n <= m && Overtaken(u, r, s, i, c, q, cfg, who, n)
    ensures CanReach(w, v) && v.now == u.now && v.kind == u.kind && Overtaken(v, r, s, i, c, q, cfg, who, m)
    decreases m - n
  {
    if n == m {
      v := u;
    } else {
      var e := Progress(q, [], false, u.now, u.now);
      CeilIsPositive(cfg.ttl);
      var next := Do(u, e);
      ReachOn(w, u, e, next);
      v := NewRecordAdvances(w, next, r, s, i, c, q, cfg, who, n + 1, m);
    }
  }

  /** The last commit of `v` crossed an expiry: it was written by run `r` at time `at` over a record that
      run `q` owns for `who`. */
  ghost predicate TakesOver(v: World, r: nat, q: nat, who: Caller, at: int) {
    && |v.log| >= 2 && Crosses(v, |v.log| - 1) && v.log[|v.log| - 1].writer == r
    && v.log[|v.log| - 1].value.updatedAt == at
    && var before := v.log[|v.log| - 2];
    && before.writer == q && before.value.tenantId == who.tenantId && before.value.userId == who.userId
  }

  lemma CrossesAt(w: World, r: nat, q: nat, cfg: Config, who: Caller, at: int) returns (v: World)
    requires Reached(w) && CanCommit(w, r) && w.now >= w.log[w.runs[r].index].value.expiresAt
    requires q !in w.runs && cfg.ttl > 0 && w.runs[r].since <= at <= w.now
    requires w.kind == Redis ==> w.now < at + w.runs[r].cfg.ttl
    ensures CanReach(w, v) && TakesOver(v, r, q, who, at) && v.log[|v.log| - 1].base == Some(w.runs[r].index)
    ensures w.log[w.runs[r].index].value == v.log[w.runs[r].index].value
  {
    ReachedIsOk(w);
    OneWriter(w, r, r);
    var s := w.runs[r];
    var c := w.log[s.index];
    var u := NewRecord(w, r, q, cfg, who);
    u := NewRecordAdvances(w, u, r, s, s.index, c, q, cfg, who, 0, c.value.revision);
    assert RunOk(w, r, s);
    var e := Complete(r, Outcome("DONE", "", []), at);
    if w.kind == Redis {
      CeilIsPositive(at + s.cfg.ttl - w.now);
    }
    v := Do(u, e);
    ReachOn(w, u, e, v);
  }

  /** Whenever a run still holds the stored record at or after its expiry, it can go on to commit over a
      record of anybody else, in either store: the record expires, another run creates a new one and
      brings it to the same revision, and the old run completes. */
  lemma LateRunCanCross(w: World, r: nat, q: nat, cfg: Config, who: Caller)
    requires Reached(w) && CanCommit(w, r) && w.now >= w.log[w.runs[r].index].value.expiresAt
    requires q !in w.runs && cfg.ttl > 0
    ensures exists v :: CanReach(w, v) && TakesOver(v, r, q, who, w.now)
  {
    ReachedIsOk(w);
    assert RunOk(w, r, w.runs[r]);
    var v := CrossesAt(w, r, q, cfg, who, w.now);
  }

  /** It does not help that the run compares its own clock with the expiry of the record it holds before
      it calls the store: it read the clock in time, and crosses all the same. */
  lemma CallersCheckIsNotEnough(w: World, r: nat, q: nat, cfg: Config, who: Caller, at: int)
    requires Reached(w) && CanCommit(w, r) && w.now >= w.log[w.runs[r].index].value.expiresAt
    requires q !in w.runs && cfg.ttl > 0
    requires w.runs[r].since <= at < w.log[w.runs[r].index].value.expiresAt
    requires w.kind == Redis ==> w.now < at + w.runs[r].cfg.ttl
    ensures exists v :: CanReach(w, v) && TakesOver(v, r, q, who, at)
  {
    var v := CrossesAt(w, r, q, cfg, who, at);
  }

  // ---------------------------------------------------------------- concrete runs

  const SOME_CONFIG := Config(10, 5, "worker")
  const ALICE := Caller("a", "alice", None, false)
  const BOB := Caller("b", "bob", None, false)

  lemma ReachedNext(w: World, e: Event) returns (v: World)
    requires Reached(w) && Enabled(w, e)
    ensures v == Do(w, e) && Reached(v)
  {
    v := Do(w, e);
    var now, run :| Leads(Initial(w.kind, w.id, now), run, w);
    LeadsOneMore(Initial(w.kind, w.id, now), run, w, e);
    assert Leads(Initial(v.kind, v.id, now), run + [e], v);
  }

  lemma ReachedFirst(kind: Kind) returns (w: World)
    ensures w == Initial(kind, "s", 0) && Reached(w)
  {
    w := Initial(kind, "s", 0);
    assert Leads(Initial(w.kind, w.id, 0), [], w);
  }

  /** The memory store accepts progress reported after the expiry of the record, which the validator
      would refuse. */
  lemma MemoryStoresInvalidCheckpoint()
    ensures exists w :: Reached(w) && |w.log| == 2 && !Valid(w.log[1].value)
  {
    var w := ReachedFirst(Memory);
    w := ReachedNext(w, Fetch(0, SOME_CONFIG, "goal", ALICE));
    w := ReachedNext(w, Start(0, 0));
    w := ReachedNext(w, Tick(10));
    w := ReachedNext(w, Progress(0, [], false, 10, 10));
  }

  /** A run of Alice's is still under way when her record expires. */
  lemma ExpiredUnderARun(kind: Kind) returns (w: World)
    ensures Reached(w)
    ensures w == World(kind, "s", 10, None, 1, [Commit(Created(SOME_CONFIG, "s", "goal", ALICE, 0), 0, 0, None)],
                       map[0 := Owner(SOME_CONFIG, 0, 0)], map[0 := ALICE])
  {
    CeilIsPositive(SOME_CONFIG.ttl);
    w := ReachedFirst(kind);
    w := ReachedNext(w, Fetch(0, SOME_CONFIG, "goal", ALICE));
    w := ReachedNext(w, Start(0, 0));
    w := ReachedNext(w, Tick(10));
    w := ReachedNext(w, Expire);
  }

  /** After an expiry a run that still holds the old record can be accepted on top of a new one that
      belongs to another user, in either store: revisions of different generations coincide, and a
      completion renews the expiry. */
  lemma ExpiryLetsOldRunCommit(kind: Kind)
    ensures exists w ::
              && Reached(w) && w.kind == kind && |w.log| == 3 && Crosses(w, 2)
              && !SameSession(w.log[1].value, w.log[2].value)
  {
    CeilIsPositive(SOME_CONFIG.ttl);
    var w := ExpiredUnderARun(kind);
    w := ReachedNext(w, Fetch(1, SOME_CONFIG, "goal", BOB));
    w := ReachedNext(w, Start(1, 10));
    w := ReachedNext(w, Complete(0, Outcome("DONE", "", []), 10));
  }

  /** The same with a caller that checks before it calls: at 9 the record it holds lives until 10, and the
      write lands at 10. The record it lands on has not expired either, so a store that looks at the
      expiry of the stored record would let it pass as well. */
  lemma CheckedRunCrosses(kind: Kind)
    ensures exists w ::
              && Reached(w) && w.kind == kind && |w.log| == 3 && Crosses(w, 2)
              && !SameSession(w.log[1].value, w.log[2].value)
              && w.log[2].base == Some(0) && w.log[2].value.updatedAt < w.log[0].value.expiresAt
              && w.now < w.log[1].value.expiresAt
  {
    CeilIsPositive(SOME_CONFIG.ttl);
    CeilIsPositive(SOME_CONFIG.ttl - 1);
    var w := ExpiredUnderARun(kind);
    w := ReachedNext(w, Fetch(1, SOME_CONFIG, "goal", BOB));
    w := ReachedNext(w, Start(1, 10));
    w := ReachedNext(w, Complete(0, Outcome("DONE", "", []), 9));
  }
}
