/** Durable DAG recovery: one executor session over the central versioned checkpoint.

    The pure functions say what each critical section does to a session; class `DagRecovery`
    performs them against a `CheckpointStore` that other sessions may change at every await. */
module Recovery {
  import opened DagTypes

  /** Operation keys: "node:<attempt>:<task>", "synthesis:<attempt>", and the planner, critique and
      replan keys. */
  datatype Key = Node(attempt: nat, taskId: string) | Synthesis(attempt: nat) | Step(name: string)

  /** A digest is modelled by the value it digests (SHA-256 taken as injective). */
  datatype Fingerprint =
    | NodeInput(goal: string, taskId: string, description: string,
                deps: seq<(string, Version)>, capabilities: seq<string>)
    | SynthesisInput(goal: string, results: seq<TaskResult>, versions: seq<Version>)
    | StepInput(input: string)

  datatype Value = NodeValue(result: TaskResult) | ReplyValue(reply: Reply) | StepValue(text: string)

  datatype Status = Running | Done

  datatype Operation = Operation(
    fingerprint: Fingerprint, version: Version, status: Status, reusable: bool, result: Option<Value>)

  datatype CheckpointState = CheckpointState(
    binding: string, deadline: int, modelCalls: nat, reservedTokens: nat, operations: map<Key, Operation>)

  datatype Error =
    | SessionFailed | Unavailable | DeadlineExceeded | BudgetExceeded | CapacityExceeded
    | AckMismatch | BindingMismatch | Cancelled

  /** The executor's local copy; `failure` is set once a save ended without a good acknowledgement. */
  datatype Session = Session(state: CheckpointState, revision: nat, failure: Option<Error>)

  const MAX_OPERATIONS: nat := 256

  function FreshState(binding: string, deadline: int): CheckpointState {
    CheckpointState(binding, deadline, 0, 0, map[])
  }

  /** What a save writes on top of the previous state. */
  datatype SaveOp =
    | Create
    | Reserve(tokens: nat)
    | Begin(key: Key, fingerprint: Fingerprint, version: Version)
    | Finish(key: Key, version: Version, value: Value, reusable: bool)

  predicate OpAllowed(op: SaveOp, s: CheckpointState, maxCalls: nat, maxTokens: nat) {
    match op
    case Create => false
    case Reserve(t) => 0 < t && s.modelCalls < maxCalls && s.reservedTokens + t <= maxTokens
    case Begin(k, _, _) => k in s.operations || |s.operations| < MAX_OPERATIONS
    case Finish(_, _, _, _) => true
  }

  /** The entry a session holds is found by its version: a newer entry under the key is left alone. */
  function ApplyOp(op: SaveOp, s: CheckpointState): (r: CheckpointState) {
    match op
    case Create => s
    case Reserve(t) =>
      s.(modelCalls := s.modelCalls + 1, reservedTokens := s.reservedTokens + t)
    case Begin(k, f, v) => s.(operations := s.operations[k := Operation(f, v, Running, false, None)])
    case Finish(k, v, x, reusable) =>
      if k in s.operations && s.operations[k].version == v then
        s.(operations := s.operations[k := s.operations[k].(status := Done, reusable := reusable, result := Some(x))])
      else s
  }

  function EnsureActive(s: Session, now: int): Option<Error> {
    match s.failure
    case Some(Unavailable) => Some(Unavailable)
    case Some(_) => Some(SessionFailed)
    case None => if now >= s.state.deadline then Some(DeadlineExceeded) else None
  }

  /** Admission of one model call under the session lock, before the save. */
  function ReserveLocally(s: Session, now: int, tokens: int, maxCalls: nat, maxTokens: nat): Result<Session, Error> {
    match EnsureActive(s, now)
    case Some(e) => Failure(e)
    case None =>
      if tokens <= 0 || s.state.modelCalls >= maxCalls || s.state.reservedTokens + tokens > maxTokens then
        Failure(BudgetExceeded)
      else
        Success(s.(state := ApplyOp(Reserve(tokens), s.state)))
  }

  datatype Decision = Reuse(value: Value, version: Version) | Start(session: Session) | Refuse(error: Error)

  predicate ReusableEntry(s: CheckpointState, key: Key, f: Fingerprint) {
    && key in s.operations
    && s.operations[key].fingerprint == f
    && s.operations[key].status == Done
    && s.operations[key].reusable
    && s.operations[key].result.Some?
  }

  /** The first critical section of `run`: reuse, refuse, or record a new RUNNING version. */
  function DecideRun(s: Session, now: int, key: Key, f: Fingerprint, version: Version): Decision {
    match EnsureActive(s, now)
    case Some(e) => Refuse(e)
    case None =>
      if ReusableEntry(s.state, key, f) then
        Reuse(s.state.operations[key].result.value, s.state.operations[key].version)
      else if key !in s.state.operations && |s.state.operations| >= MAX_OPERATIONS then
        Refuse(CapacityExceeded)
      else
        Start(s.(state := ApplyOp(Begin(key, f, version), s.state)))
  }

  /** The second critical section of `run`; it mutates the entry before any liveness check. */
  function FinishLocally(s: Session, key: Key, version: Version, value: Value, reusable: bool): Session {
    s.(state := ApplyOp(Finish(key, version, value, reusable), s.state))
  }

  datatype SaveReply = Acknowledged(revision: nat, state: CheckpointState) | Lost(error: Error)

  /** The effect of a save's answer on the session. */
  function AfterReply(s: Session, reply: SaveReply): Session {
    match reply
    case Lost(e) => s.(failure := Some(e))
    case Acknowledged(revision, state) =>
      if revision != s.revision + 1 || state != s.state then s.(failure := Some(AckMismatch))
      else s.(revision := revision)
  }

  /** Only the exact acknowledgement, the next revision with the very state that was sent, advances a
      session; any other answer closes it where it is. */
  lemma OnlyExactAnswerAdvances(s: Session, reply: SaveReply)
    requires s.failure.None?
    ensures reply == Acknowledged(s.revision + 1, s.state) ==> AfterReply(s, reply) == s.(revision := s.revision + 1)
    ensures reply != Acknowledged(s.revision + 1, s.state) ==>
              var r := AfterReply(s, reply);
              && r.failure.Some? && r.state == s.state && r.revision == s.revision
              && (forall now :: EnsureActive(r, now).Some?)
  {
  }

  /** Counters never go down and the fixed fields never change. */
  lemma OpsKeepFixedFields(op: SaveOp, s: CheckpointState, maxCalls: nat, maxTokens: nat)
    requires OpAllowed(op, s, maxCalls, maxTokens)
    ensures var r := ApplyOp(op, s);
            && r.binding == s.binding && r.deadline == s.deadline
            && s.modelCalls <= r.modelCalls && s.reservedTokens <= r.reservedTokens
            && (s.modelCalls <= maxCalls ==> r.modelCalls <= maxCalls)
            && (s.reservedTokens <= maxTokens ==> r.reservedTokens <= maxTokens)
            && s.operations.Keys <= r.operations.Keys
            && (|s.operations| <= MAX_OPERATIONS ==> |r.operations| <= MAX_OPERATIONS)
  {
    var r := ApplyOp(op, s);
    match op {
      case Begin(k, f, v) =>
        if k in s.operations {
          assert r.operations.Keys == s.operations.Keys;
          assert |r.operations| == |s.operations|;
        }
      case Finish(k, v, x, reusable) =>
        assert r.operations.Keys == s.operations.Keys;
        assert |r.operations| == |s.operations|;
      case _ =>
    }
  }

  /** The central checkpoint: a versioned cell with an honest compare-and-set. `log` is the ghost
      history of every committed state. */
  class CheckpointStore {
    var revision: nat
    var state: Option<CheckpointState>
    ghost var log: seq<CheckpointState>

    ghost predicate Valid() reads this {
      && revision == |log|
      && state == (if log == [] then None else Some(log[|log| - 1]))
    }

    constructor ()
      ensures Valid() && log == []
    {
      revision, state, log := 0, None, [];
    }

    method Read() returns (r: nat, s: Option<CheckpointState>)
      requires Valid()
      ensures r == |log| && s == (if log == [] then None else Some(log[|log| - 1]))
    {
      r, s := revision, state;
    }

    /** Commits only when `expected` is the current revision. Whatever happened, the answer may be
        lost on the way back, and the store may also refuse (lease fencing, outage). */
    method Save(expected: nat, s: CheckpointState) returns (reply: SaveReply)
      requires Valid()
      modifies this
      ensures Valid()
      ensures log == old(log) || (expected == |old(log)| && log == old(log) + [s])
      ensures reply.Acknowledged? ==> log == old(log) + [s] && reply.revision == expected + 1 && reply.state == s
    {
      var refused: bool := *;
      var lost: bool := *;
      if refused || expected != revision {
        var e: Error := *;
        return Lost(e);
      }
      revision, state := revision + 1, Some(s);
      log := log + [s];
      if lost {
        var e: Error := *;
        return Lost(e);
      }
      reply := Acknowledged(revision, s);
    }

    /** What other sessions may do while one session is suspended: commit any number of states. */
    method OtherSessions()
      requires Valid()
      modifies this
      ensures Valid() && old(log) <= log
    {
      var commits: nat := *;
      while commits > 0
        invariant Valid() && old(log) <= log
      {
        var s: CheckpointState := *;
        revision, state := revision + 1, Some(s);
        log := log + [s];
        commits := commits - 1;
      }
    }
  }

  class DagRecovery {
    const gateway: CheckpointStore
    var state: CheckpointState
    var revision: nat
    var failed: bool
    var failure: Option<Error>
    var resumed: bool

    ghost predicate Valid() reads this, gateway {
      gateway.Valid() && (failed <==> failure.Some?)
    }

    function View(): Session reads this {
      Session(state, revision, failure)
    }

    /** Revision and state are those of one commit of the central store. */
    ghost predicate Synced() reads this, gateway {
      0 < revision <= |gateway.log| && gateway.log[revision - 1] == state
    }

    constructor (gateway: CheckpointStore, revision: nat, state: CheckpointState)
      requires gateway.Valid()
      ensures Valid() && this.gateway == gateway && View() == Session(state, revision, None) && !resumed
    {
      this.gateway, this.state, this.revision := gateway, state, revision;
      failed, failure, resumed := false, None, false;
    }

    /** A new task fixes its deadline; a resumed one keeps the committed binding and deadline. */
    static method Open(gateway: CheckpointStore, binding: string, now: int, milliseconds: int, later: int)
      returns (r: Result<DagRecovery, Error>)
      requires gateway.Valid() && now <= later
      modifies gateway
      ensures gateway.Valid() && old(gateway.log) <= gateway.log
      ensures r.Success? ==>
                var s := r.value;
                && fresh(s) && s.Valid() && s.gateway == gateway && !s.failed && s.Synced()
                && s.state.binding == binding && later < s.state.deadline
                && (s.resumed ==> 0 < s.revision && |old(gateway.log)| <= s.revision)
                && (!s.resumed ==> s.revision == 1 && s.state == FreshState(binding, now + milliseconds))
      ensures old(gateway.log) != [] && r.Success? ==> r.value.resumed
      ensures old(gateway.log) != [] && r.Failure? ==>
                exists i :: |old(gateway.log)| - 1 <= i < |gateway.log|
                            && if gateway.log[i].binding != binding then r.error == BindingMismatch
                               else gateway.log[i].deadline <= later && r.error == DeadlineExceeded
    {
      gateway.OtherSessions();
      var rev, found := gateway.Read();
      var resumed := found.Some?;
      var current: CheckpointState;
      if resumed {
        current := found.value;
      } else {
        current := FreshState(binding, now + milliseconds);
        gateway.OtherSessions();
        var reply := gateway.Save(0, current);
        if reply.Lost? {
          return Failure(reply.error);
        }
        rev, current := reply.revision, reply.state;
      }
      assert gateway.log[rev - 1] == current;
      if current.binding != binding {
        return Failure(BindingMismatch);
      }
      var recovery := new DagRecovery(gateway, rev, current);
      recovery.resumed := resumed;
      var inactive := EnsureActive(recovery.View(), later);
      if inactive.Some? {
        return Failure(inactive.value);
      }
      return Success(recovery);
    }

    /** The session after a save attempt from `local`, which holds what is to be written. */
    ghost predicate SaveOutcome(local: Session, now: int, r: Option<Error>) reads this, gateway {
      if EnsureActive(local, now).Some? then
        View() == local && r == EnsureActive(local, now)
      else if r.None? then
        && View() == local.(revision := local.revision + 1)
        && Synced()
      else
        && View() == local.(failure := View().failure)
        && View().failure.Some?
    }

    /** Any answer other than the expected acknowledgement closes the session for good. */
    method Save(now: int) returns (r: Option<Error>)
      requires Valid()
      modifies this`revision, this`failed, this`failure, gateway
      ensures Valid() && old(gateway.log) <= gateway.log
      ensures SaveOutcome(old(View()), now, r)
      ensures EnsureActive(old(View()), now).Some? ==> gateway.log == old(gateway.log)
      ensures old(revision) < |old(gateway.log)| ==> r.Some?
      ensures !old(failed) && now < state.deadline ==> (r.Some? <==> failed) && failure == r
    {
      r := EnsureActive(View(), now);
      if r.Some? {
        return;
      }
      gateway.OtherSessions();
      var reply := gateway.Save(revision, state);
      var next := AfterReply(View(), reply);
      revision, failure := next.revision, next.failure;
      failed := failure.Some?;
      r := failure;
    }

    /** A grant means the reservation is committed; nothing is ever refunded. */
    method Reserve(now: int, later: int, tokens: int, maxCalls: nat, maxTokens: nat) returns (r: Option<Error>)
      requires Valid() && now <= later
      modifies this`state, this`revision, this`failed, this`failure, gateway
      ensures Valid() && old(gateway.log) <= gateway.log
      ensures match ReserveLocally(old(View()), now, tokens, maxCalls, maxTokens)
              case Failure(e) => r == Some(e) && View() == old(View()) && gateway.log == old(gateway.log)
              case Success(local) => SaveOutcome(local, later, r)
      ensures r.None? ==> && Synced() && state.modelCalls == old(state.modelCalls) + 1 <= maxCalls
                          && state.reservedTokens == old(state.reservedTokens) + tokens <= maxTokens
      // Refused before anything is written exactly in these cases, in this order.
      ensures old(failed) ==>
                r == Some(if old(failure) == Some(Unavailable) then Unavailable else SessionFailed)
                && View() == old(View()) && gateway.log == old(gateway.log)
      ensures !old(failed) && old(state.deadline) <= now ==>
                r == Some(DeadlineExceeded) && View() == old(View()) && gateway.log == old(gateway.log)
      ensures !old(failed) && now < old(state.deadline)
              && (tokens <= 0 || maxCalls <= old(state.modelCalls)
                  || maxTokens < old(state.reservedTokens) + tokens) ==>
                r == Some(BudgetExceeded) && View() == old(View()) && gateway.log == old(gateway.log)
      // Every other failure is one of the save, and the local charge stays.
      ensures !old(failed) && now < old(state.deadline) && 0 < tokens && old(state.modelCalls) < maxCalls
              && old(state.reservedTokens) + tokens <= maxTokens ==>
                && state == old(state).(modelCalls := old(state.modelCalls) + 1,
                                        reservedTokens := old(state.reservedTokens) + tokens)
                && (r.Some? ==>
                      || (old(state.deadline) <= later && r == Some(DeadlineExceeded) && !failed)
                      || (failed && failure == r))
    {
      var admitted := ReserveLocally(View(), now, tokens, maxCalls, maxTokens);
      if admitted.Failure? {
        return Some(admitted.error);
      }
      state := state.(modelCalls := state.modelCalls + 1, reservedTokens := state.reservedTokens + tokens);
      r := Save(later);
    }

    /** `run` up to the invocation: either a stored result, or a committed RUNNING entry. */
    method BeginRun(now: int, later: int, key: Key, f: Fingerprint, version: Version)
      returns (r: Result<Option<Value>, Error>)
      requires Valid() && now <= later
      modifies this`state, this`revision, this`failed, this`failure, gateway
      ensures Valid() && old(gateway.log) <= gateway.log
      ensures match DecideRun(old(View()), now, key, f, version)
              case Refuse(e) => r == Failure(e) && View() == old(View()) && gateway.log == old(gateway.log)
              case Reuse(x, _) => r == Success(Some(x)) && View() == old(View()) && gateway.log == old(gateway.log)
              case Start(local) =>
                && !(r.Success? && r.value.Some?)
                && SaveOutcome(local, later, if r.Failure? then Some(r.error) else None)
      ensures r == Success(None) ==>
                && Synced()
                && state.operations == old(state.operations)[key := Operation(f, version, Running, false, None)]
      // A stored DONE result of the same input is handed out, and nothing else is.
      ensures !old(failed) && now < old(state.deadline) && key in old(state.operations) ==>
                forall v, x :: old(state.operations)[key] == Operation(f, v, Done, true, Some(x)) ==>
                  r == Success(Some(x)) && View() == old(View()) && gateway.log == old(gateway.log)
      ensures r.Success? && r.value.Some? ==>
                && !old(failed) && now < old(state.deadline) && key in old(state.operations)
                && var entry := old(state.operations)[key];
                entry == Operation(f, entry.version, Done, true, r.value)
      // What is refused before anything is written.
      ensures old(failed) ==>
                r == Failure(if old(failure) == Some(Unavailable) then Unavailable else SessionFailed)
                && View() == old(View()) && gateway.log == old(gateway.log)
      ensures !old(failed) && old(state.deadline) <= now ==>
                r == Failure(DeadlineExceeded) && View() == old(View()) && gateway.log == old(gateway.log)
      ensures !old(failed) && now < old(state.deadline)
              && key !in old(state.operations) && |old(state.operations)| >= 256 ==>
                r == Failure(CapacityExceeded) && View() == old(View()) && gateway.log == old(gateway.log)
      // Every other failure is one of the save.
      ensures !old(failed) && now < old(state.deadline) && r.Failure? ==>
                || (key !in old(state.operations) && |old(state.operations)| >= 256)
                || (old(state.deadline) <= later && r.error == DeadlineExceeded && !failed)
                || (failed && failure == Some(r.error))
    {
      var inactive := EnsureActive(View(), now);
      if inactive.Some? {
        return Failure(inactive.value);
      }
      if key in state.operations {
        var previous := state.operations[key];
        if previous.fingerprint == f && previous.status == Done && previous.reusable && previous.result.Some? {
          return Success(Some(previous.result.value));
        }
      }
      if key !in state.operations && |state.operations| >= MAX_OPERATIONS {
        return Failure(CapacityExceeded);
      }
      var entry := Operation(f, version, Running, false, None);
      state := state.(operations := state.operations[key := entry]);
      var saved := Save(later);
      if saved.Some? {
        return Failure(saved.value);
      }
      return Success(None);
    }

    /** `run` after the invocation: a result is handed out only once its DONE entry is committed. */
    method FinishRun(now: int, key: Key, version: Version, value: Value, reusable: bool) returns (r: Option<Error>)
      requires Valid()
      modifies this`state, this`revision, this`failed, this`failure, gateway
      ensures Valid() && old(gateway.log) <= gateway.log
      ensures SaveOutcome(FinishLocally(old(View()), key, version, value, reusable), now, r)
      ensures key in old(state.operations) && old(state.operations)[key].version == version ==>
                var entry := Operation(old(state.operations)[key].fingerprint, version, Done, reusable, Some(value));
                && state == old(state).(operations := old(state.operations)[key := entry])
                && (r.None? ==> Synced())
      ensures key !in old(state.operations) || old(state.operations)[key].version != version ==> state == old(state)
      ensures !old(failed) && now < old(state.deadline) ==> (r.Some? <==> failed) && failure == r
    {
      if key in state.operations && state.operations[key].version == version {
        var entry := state.operations[key].(status := Done, reusable := reusable, result := Some(value));
        state := state.(operations := state.operations[key := entry]);
      }
      r := Save(now);
    }
  }
}
