/** Resumable agent sessions: the checkpoint, its revisioned stores, and the steps of one run.

    Times are microseconds. The digests of goal and idempotency key are modelled by the texts. */
module AgentSession {
  import opened DagTypes

  datatype Status = Ready | Running | Paused | Succeeded | Failed | Cancelled

  predicate Terminal(s: Status) {
    s == Succeeded || s == Failed || s == Cancelled
  }

  datatype Checkpoint = Checkpoint(
    sessionId: string, revision: nat, tenantId: string, userId: string, goal: string, status: Status,
    steps: seq<string>, finalAnswer: Option<string>, stopReason: Option<string>, error: Option<string>,
    sideEffect: bool, key: Option<string>, leaseOwner: Option<string>, leaseExpires: Option<int>,
    createdAt: int, updatedAt: int, expiresAt: int)

  /** The model validator of the checkpoint. */
  predicate Valid(c: Checkpoint) {
    && c.createdAt <= c.updatedAt < c.expiresAt
    && (c.sideEffect ==> c.key.Some?)
    && (c.leaseOwner.Some? <==> c.leaseExpires.Some?)
  }

  /** The caller: identity, idempotency key, and whether a fresh confirmation grant covers it. */
  datatype Caller = Caller(tenantId: string, userId: string, key: Option<string>, confirmed: bool)

  datatype Config = Config(ttl: int, lease: int, owner: string)

  datatype Error = NotFound | Active | GoalMismatch | ConfirmationRequired | Conflict

  // ---------------------------------------------------------------- what a run writes

  function Created(cfg: Config, id: string, goal: string, who: Caller, at: int): Checkpoint {
    Checkpoint(id, 0, who.tenantId, who.userId, goal, Running, [], None, None, None, false, who.key,
               Some(cfg.owner), Some(at + cfg.lease), at, at, at + cfg.ttl)
  }

  function ResumeError(c: Checkpoint, goal: string, who: Caller, at: int): Option<Error> {
    if c.tenantId != who.tenantId || c.userId != who.userId then Some(NotFound)
    else if c.goal != goal then Some(GoalMismatch)
    else if c.status == Running && c.leaseExpires.Some? && c.leaseExpires.value > at then Some(Active)
    else if c.sideEffect && !Terminal(c.status) && (who.key != c.key || !who.confirmed) then Some(ConfirmationRequired)
    else None
  }

  function Resumed(cfg: Config, c: Checkpoint, at: int): Checkpoint {
    c.(revision := c.revision + 1, status := Running, leaseOwner := Some(cfg.owner),
       leaseExpires := Some(at + cfg.lease),
       updatedAt := at, expiresAt := at + cfg.ttl, error := None)
  }

  /** Steps are redacted and truncated before they are stored; what matters here is their number. */
  function SafeSteps(steps: seq<string>): seq<string> {
    if |steps| <= 256 then steps else steps[..256]
  }

  function Progressed(cfg: Config, c: Checkpoint, steps: seq<string>, sideEffect: bool, at: int,
                      leaseAt: int): Checkpoint {
    c.(revision := c.revision + 1, steps := SafeSteps(steps), sideEffect := c.sideEffect || sideEffect,
       updatedAt := at, leaseExpires := Some(leaseAt + cfg.lease))
  }

  datatype Outcome = Outcome(stopReason: string, answer: string, steps: seq<string>)

  function Completed(cfg: Config, c: Checkpoint, x: Outcome, at: int): Checkpoint {
    var ok := x.stopReason == "DONE";
    c.(revision := c.revision + 1, status := if ok then Succeeded else Paused, steps := SafeSteps(x.steps),
       finalAnswer := Some(if |x.answer| <= 100_000 then x.answer else x.answer[..100_000]),
       stopReason := Some(if |x.stopReason| <= 128 then x.stopReason else x.stopReason[..128]),
       error := if ok then None else Some("agent execution did not complete"),
       leaseOwner := None, leaseExpires := None, updatedAt := at, expiresAt := at + cfg.ttl)
  }

  /** The fields no commit may change. */
  predicate SameSession(a: Checkpoint, b: Checkpoint) {
    && a.sessionId == b.sessionId && a.tenantId == b.tenantId && a.userId == b.userId && a.goal == b.goal
    && a.key == b.key && a.createdAt == b.createdAt
  }

  // ---------------------------------------------------------------- stores

  datatype Kind = Memory | Redis

  const MICROS: int := 1_000_000

  /** `math.ceil` of a duration in seconds. */
  function CeilSeconds(micros: int): int {
    -((-micros) / MICROS)
  }

  lemma CeilIsPositive(micros: int)
    ensures CeilSeconds(micros) > 0 <==> micros > 0
  {
  }

  /** The revision test of both stores: None means the key must be absent. */
  predicate Expected(value: Option<Checkpoint>, expected: Option<nat>) {
    match expected
    case None => value.None?
    case Some(r) => value.Some? && value.value.revision == r
  }

  /** Redis additionally refuses to write a value whose time to live is not positive. */
  predicate Accepts(kind: Kind, value: Option<Checkpoint>, c: Checkpoint, expected: Option<nat>, now: int) {
    (kind == Redis ==> CeilSeconds(c.expiresAt - now) > 0) && Expected(value, expected)
  }

  class SessionStore {
    const kind: Kind
    var values: map<string, Checkpoint>

    function Find(id: string): Option<Checkpoint> reads this {
      if id in values then Some(values[id]) else None
    }

    constructor (kind: Kind)
      ensures this.kind == kind && values == map[]
    {
      this.kind, values := kind, map[];
    }

    /** The in-memory store drops an expired record when it is read; Redis expires keys by itself. */
    method Get(id: string, now: int) returns (r: Option<Checkpoint>)
      modifies this
      ensures kind == Memory ==>
                var expired := id in old(values) && old(values[id]).expiresAt <= now;
                && r == (if expired then None else old(Find(id)))
                && values == (if expired then old(values) - {id} else old(values))
      ensures kind == Redis ==> r == old(Find(id)) && values == old(values)
    {
      if kind == Memory && id in values && values[id].expiresAt <= now {
        values := values - {id};
        return None;
      }
      return Find(id);
    }

    method CompareAndSet(c: Checkpoint, expected: Option<nat>, now: int) returns (ok: bool)
      modifies this
      ensures ok == Accepts(kind, old(Find(c.sessionId)), c, expected, now)
      ensures ok <==>
                && (kind == Redis ==> now < c.expiresAt)
                && match expected
                   case None => c.sessionId !in old(values)
                   case Some(n) => c.sessionId in old(values) && old(values)[c.sessionId].revision == n
      ensures values == if ok then old(values)[c.sessionId := c] else old(values)
    {
      CeilIsPositive(c.expiresAt - now);
      if kind == Redis && CeilSeconds(c.expiresAt - now) <= 0 {
        return false;
      }
      var current := Find(c.sessionId);
      if expected.None? {
        if current.Some? {
          return false;
        }
      } else if current.None? || current.value.revision != expected.value {
        return false;
      }
      values := values[c.sessionId := c];
      return true;
    }
  }

  // ---------------------------------------------------------------- one run

  predicate Owns(who: Caller, c: Checkpoint) {
    who.tenantId == c.tenantId && who.userId == c.userId
  }

  /** Another run holds the record: it is running under a lease that has not expired. */
  predicate HeldByAnother(c: Checkpoint, at: int) {
    c.status == Running && c.leaseExpires.Some? && at < c.leaseExpires.value
  }

  predicate Finished(c: Checkpoint) {
    c.status in {Succeeded, Failed, Cancelled}
  }

  /** Going on after a side effect needs the original key and a fresh confirmation. */
  predicate NeedsConsent(c: Checkpoint, who: Caller) {
    c.sideEffect && !Finished(c) && !(who.key == c.key && who.confirmed)
  }

  /** A run in progress; `current` is the checkpoint it wrote last. */
  class SessionRun {
    const cfg: Config
    const store: SessionStore
    var current: Checkpoint

    constructor (cfg: Config, store: SessionStore, current: Checkpoint)
      ensures this.cfg == cfg && this.store == store && this.current == current
    {
      this.cfg, this.store, this.current := cfg, store, current;
    }

    /** `run` up to the hand-over to the runner. `found` is what the store returned before other runs
        could act; the answer is either a finished checkpoint or a run that owns its revision. */
    static method Start(cfg: Config, store: SessionStore, id: string, goal: string, who: Caller,
                        found: Option<Checkpoint>, at: int, now: int)
      returns (r: Result<Checkpoint, Error>, run: SessionRun?)
      requires at <= now && (found.Some? ==> found.value.sessionId == id)
      modifies store
      ensures run != null ==> fresh(run) && run.cfg == cfg && run.store == store && r == Success(run.current)
      ensures match found
              case None =>
                var c := Created(cfg, id, goal, who, at);
                var ok := Accepts(store.kind, old(store.Find(id)), c, None, now);
                && r == (if ok then Success(c) else Failure(Conflict)) && (run != null <==> ok)
                && store.values == (if ok then old(store.values)[id := c] else old(store.values))
              case Some(c) =>
                if ResumeError(c, goal, who, at).Some? then
                  r == Failure(ResumeError(c, goal, who, at).value) && run == null && store.values == old(store.values)
                else if Terminal(c.status) then r == Success(c) && run == null && store.values == old(store.values)
                else
                  var next := Resumed(cfg, c, at);
                  var ok := Accepts(store.kind, old(store.Find(id)), next, Some(c.revision), now);
                  && r == (if ok then Success(next) else Failure(Conflict)) && (run != null <==> ok)
                  && store.values == (if ok then old(store.values)[id := next] else old(store.values))
      // Who may have a found record: each error exactly in its case, checked in this order.
      ensures found.Some? ==>
                var c := found.value;
                && (r == Failure(NotFound) <==> !Owns(who, c))
                && (r == Failure(GoalMismatch) <==> Owns(who, c) && goal != c.goal)
                && (r == Failure(Active) <==> Owns(who, c) && goal == c.goal && HeldByAnother(c, at))
                && (r == Failure(ConfirmationRequired) <==>
                      Owns(who, c) && goal == c.goal && !HeldByAnother(c, at) && NeedsConsent(c, who))
                && (r.Failure? && r != Failure(Conflict) ==> store.values == old(store.values))
      // Otherwise a finished record is handed out as it is, and an unfinished one is taken over if it is
      // still stored at that revision.
      ensures found.Some? ==>
                var c := found.value;
                Owns(who, c) && goal == c.goal && !HeldByAnother(c, at) && !NeedsConsent(c, who) ==>
                if Finished(c) then r == Success(c) && run == null && store.values == old(store.values)
                else
                  var kept := store.kind == Redis ==> now < at + cfg.ttl;
                  var same := id in old(store.values) && old(store.values)[id].revision == c.revision;
                  if kept && same then
                    && r.Success? && run != null && store.values == old(store.values)[id := r.value]
                    && SameSession(c, r.value) && r.value.revision == c.revision + 1 && r.value.status == Running
                    && r.value.leaseOwner == Some(cfg.owner) && r.value.leaseExpires == Some(at + cfg.lease)
                    && r.value.updatedAt == at && r.value.expiresAt == at + cfg.ttl
                    && r.value.sideEffect == c.sideEffect && r.value.steps == c.steps && r.value.error == None
                  else r == Failure(Conflict) && run == null && store.values == old(store.values)
      // Without a record a new one is created for the caller, unless one has appeared.
      ensures found.None? ==>
                if id !in old(store.values) && (store.kind == Redis ==> now < at + cfg.ttl) then
                  && r.Success? && run != null && store.values == old(store.values)[id := r.value]
                  && Owns(who, r.value) && r.value.goal == goal && r.value.key == who.key
                  && r.value.sessionId == id && r.value.revision == 0 && r.value.status == Running
                  && r.value.leaseOwner == Some(cfg.owner) && r.value.leaseExpires == Some(at + cfg.lease)
                  && r.value.createdAt == r.value.updatedAt == at && r.value.expiresAt == at + cfg.ttl
                  && !r.value.sideEffect && r.value.steps == []
                else r == Failure(Conflict) && run == null && store.values == old(store.values)
    {
      CeilIsPositive(at + cfg.ttl - now);
      run := null;
      if found.None? {
        var c := Created(cfg, id, goal, who, at);
        var ok := store.CompareAndSet(c, None, now);
        if !ok {
          return Failure(Conflict), null;
        }
        run := new SessionRun(cfg, store, c);
        return Success(c), run;
      }
      var c := found.value;
      var refused := ResumeError(c, goal, who, at);
      if refused.Some? {
        return Failure(refused.value), null;
      }
      if Terminal(c.status) {
        return Success(c), null;
      }
      var next := Resumed(cfg, c, at);
      var ok := store.CompareAndSet(next, Some(c.revision), now);
      if !ok {
        return Failure(Conflict), null;
      }
      run := new SessionRun(cfg, store, next);
      return Success(next), run;
    }

    /** Reading a session without running it: only its owner finds it. */
    static method Show(store: SessionStore, id: string, who: Caller, now: int) returns (r: Result<Checkpoint, Error>)
      modifies store
      ensures var expired := store.kind == Memory && id in old(store.values) && old(store.values)[id].expiresAt <= now;
              if id in old(store.values) && !expired && Owns(who, old(store.values)[id])
              then r == Success(old(store.values)[id]) else r == Failure(NotFound)
      ensures forall x :: x in old(store.values) && x != id ==>
                x in store.values && store.values[x] == old(store.values)[x]
    {
      var found := store.Get(id, now);
      if found.None? || found.value.tenantId != who.tenantId || found.value.userId != who.userId {
        return Failure(NotFound);
      }
      return Success(found.value);
    }

    method PersistProgress(steps: seq<string>, sideEffect: bool, at: int, leaseAt: int, now: int)
      returns (error: Option<Error>)
      requires at <= leaseAt <= now
      modifies this`current, store
      ensures var next := Progressed(cfg, old(current), steps, sideEffect, at, leaseAt);
              var ok := Accepts(store.kind, old(store.Find(current.sessionId)), next, Some(old(current.revision)), now);
              if next.sideEffect && next.key.None? then
                error == Some(ConfirmationRequired) && current == old(current) && store.values == old(store.values)
              else if ok then
                error == None && current == next && store.values == old(store.values)[next.sessionId := next]
              else
                error == Some(Conflict) && current == old(current) && store.values == old(store.values)
      // Side effects are never forgotten, and without a key never reported; the expiry stays.
      ensures error == Some(ConfirmationRequired) <==>
                (old(current).sideEffect || sideEffect) && old(current).key.None?
      ensures error == None ==>
                && SameSession(old(current), current) && current.revision == old(current).revision + 1
                && current.status == old(current).status
                && current.sideEffect == (old(current).sideEffect || sideEffect)
                && current.updatedAt == at && current.expiresAt == old(current).expiresAt
                && current.leaseExpires == Some(leaseAt + cfg.lease)
                && |current.steps| == (if |steps| <= 256 then |steps| else 256) && current.steps <= steps
      ensures error == Some(Conflict) ==>
                || (store.kind == Redis && old(current).expiresAt <= now)
                || old(current).sessionId !in store.values
                || store.values[old(current).sessionId].revision != old(current).revision
    {
      CeilIsPositive(current.expiresAt - now);
      var next := Progressed(cfg, current, steps, sideEffect, at, leaseAt);
      if next.sideEffect && next.key.None? {
        return Some(ConfirmationRequired);
      }
      var ok := store.CompareAndSet(next, Some(current.revision), now);
      if !ok {
        return Some(Conflict);
      }
      current := next;
      return None;
    }

    method Complete(x: Outcome, at: int, now: int) returns (r: Result<Checkpoint, Error>)
      requires at <= now
      modifies this`current, store
      ensures var next := Completed(cfg, old(current), x, at);
              var ok := Accepts(store.kind, old(store.Find(current.sessionId)), next, Some(old(current.revision)), now);
              && r == (if ok then Success(next) else Failure(Conflict))
              && store.values == (if ok then old(store.values)[next.sessionId := next] else old(store.values))
      // Done is success, anything else leaves the session to be resumed; the lease is given up.
      ensures r.Success? ==>
                && SameSession(old(current), r.value) && r.value.revision == old(current).revision + 1
                && r.value.status == (if x.stopReason == "DONE" then Succeeded else Paused)
                && (r.value.error.None? <==> x.stopReason == "DONE")
                && r.value.sideEffect == old(current).sideEffect
                && r.value.leaseOwner == None && r.value.leaseExpires == None
                && r.value.updatedAt == at && r.value.expiresAt == at + cfg.ttl
                && r.value.finalAnswer.Some? && r.value.finalAnswer.value <= x.answer
                && (|x.answer| <= 100_000 ==> r.value.finalAnswer.value == x.answer)
                && |r.value.steps| == (if |x.steps| <= 256 then |x.steps| else 256) && r.value.steps <= x.steps
      ensures r.Failure? ==>
                || (store.kind == Redis && at + cfg.ttl <= now)
                || old(current).sessionId !in store.values
                || store.values[old(current).sessionId].revision != old(current).revision
    {
      CeilIsPositive(at + cfg.ttl - now);
      var next := Completed(cfg, current, x, at);
      var ok := store.CompareAndSet(next, Some(current.revision), now);
      if !ok {
        return Failure(Conflict);
      }
      return Success(next);
    }
  }
}
