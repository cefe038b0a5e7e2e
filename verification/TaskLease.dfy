/** Asynchronous tasks under lease epochs: the central gateway, and the manager of one worker. */
module TaskLease {
  import opened DagTypes

  datatype Status = Pending | Running | Succeeded | Failed | Cancelled

  predicate Terminal(s: Status) {
    s == Succeeded || s == Failed || s == Cancelled
  }

  datatype CentralTask = CentralTask(
    status: Status, owner: Option<string>, expires: Option<int>, epoch: nat,
    result: Option<string>, error: Option<string>)

  const NEW_TASK := CentralTask(Pending, None, None, 0, None, None)

  // ---------------------------------------------------------------- gateway semantics

  /** Without an epoch: take a free or expired lease, opening a new epoch. With one: renew it. */
  function Lease(t: CentralTask, worker: string, seconds: int, epoch: Option<nat>, now: int): CentralTask {
    if Terminal(t.status) then t
    else
      match epoch
      case None =>
        if t.owner.Some? && (t.expires.None? || t.expires.value > now) then t
        else t.(status := Running, owner := Some(worker), expires := Some(now + seconds), epoch := t.epoch + 1)
      case Some(e) =>
        if t.owner != Some(worker) || t.epoch != e || t.expires.None? || t.expires.value <= now then t
        else t.(status := Running, expires := Some(now + seconds))
  }

  /** A status update counts only from the owner of the current epoch of an unfinished task. */
  function UpdateStatus(t: CentralTask, status: Status, result: Option<string>, error: Option<string>, worker: string,
                        epoch: nat): CentralTask {
    if Terminal(t.status) || t.owner != Some(worker) || t.epoch != epoch then t
    else
      t.(status := status, result := result, error := error,
         owner := if Terminal(status) then None else Some(worker),
         expires := if Terminal(status) then None else t.expires)
  }

  function Cancel(t: CentralTask): CentralTask {
    if Terminal(t.status) then t
    else t.(status := Cancelled, error := Some("cancelled by user"), owner := None, expires := None)
  }

  predicate Finished(t: CentralTask) {
    t.status in {Succeeded, Failed, Cancelled}
  }

  /** Somebody holds the lease: it has an owner and has not expired. */
  predicate Held(t: CentralTask, now: int) {
    t.owner.Some? && (t.expires.Some? ==> now < t.expires.value)
  }

  class TaskGateway {
    var tasks: map<string, CentralTask>

    constructor ()
      ensures tasks == map[]
    {
      tasks := map[];
    }

    method Create(id: string) returns (t: CentralTask)
      modifies this
      ensures tasks == old(tasks)[id := NEW_TASK] && t == NEW_TASK
    {
      t := NEW_TASK;
      tasks := tasks[id := t];
    }

    method TryLease(id: string, worker: string, seconds: int, epoch: Option<nat>, now: int) returns (t: CentralTask)
      requires id in tasks
      modifies this
      ensures t == Lease(old(tasks[id]), worker, seconds, epoch, now) && tasks == old(tasks)[id := t]
      // A finished task and a lease that somebody holds stay as they are for a newcomer.
      ensures var before := old(tasks[id]);
              Finished(before) || (epoch.None? && Held(before, now))
              || (epoch.Some? && !(Held(before, now) && before.expires.Some? && before.owner == Some(worker)
                                   && before.epoch == epoch.value)) ==>
                t == before
      // A free or expired lease goes to whoever asks without an epoch, under the next one.
      ensures var before := old(tasks[id]);
              !Finished(before) && epoch.None? && !Held(before, now) ==>
                && t.owner == Some(worker) && t.epoch == before.epoch + 1 && t.expires == Some(now + seconds)
                && t.status == Running && t.result == before.result && t.error == before.error
      // Its holder renews it by naming the epoch.
      ensures var before := old(tasks[id]);
              !Finished(before) && epoch == Some(before.epoch) && before.owner == Some(worker) && Held(before, now)
              && before.expires.Some? ==>
                && t.owner == before.owner && t.epoch == before.epoch && t.expires == Some(now + seconds)
                && t.status == Running && t.result == before.result && t.error == before.error
    {
      t := tasks[id];
      if !Terminal(t.status) {
        if epoch.None? {
          if !(t.owner.Some? && (t.expires.None? || t.expires.value > now)) {
            t := t.(status := Running, owner := Some(worker), expires := Some(now + seconds), epoch := t.epoch + 1);
          }
        } else if t.owner == Some(worker) && t.epoch == epoch.value && t.expires.Some? && t.expires.value > now {
          t := t.(status := Running, expires := Some(now + seconds));
        }
      }
      tasks := tasks[id := t];
    }

    method Update(id: string, status: Status, result: Option<string>, error: Option<string>, worker: string,
                  epoch: nat) returns (t: CentralTask)
      requires id in tasks
      modifies this
      ensures t == UpdateStatus(old(tasks[id]), status, result, error, worker, epoch) && tasks == old(tasks)[id := t]
      ensures var before := old(tasks[id]);
              if !Finished(before) && before.owner == Some(worker) && before.epoch == epoch then
                && t.status == status && t.result == result && t.error == error && t.epoch == epoch
                && (if status in {Succeeded, Failed, Cancelled} then t.owner.None? && t.expires.None?
                    else t.owner == before.owner && t.expires == before.expires)
              else t == before
    {
      t := tasks[id];
      if !Terminal(t.status) && t.owner == Some(worker) && t.epoch == epoch {
        t := t.(status := status, result := result, error := error);
        if Terminal(status) {
          t := t.(owner := None, expires := None);
        }
      }
      tasks := tasks[id := t];
    }

    method CancelTask(id: string) returns (cancelled: bool)
      modifies this
      ensures cancelled <==> id in old(tasks) && !Terminal(old(tasks)[id].status)
      ensures tasks == if cancelled then old(tasks)[id := Cancel(old(tasks)[id])] else old(tasks)
      ensures cancelled <==> id in old(tasks) && !Finished(old(tasks)[id])
      ensures cancelled ==>
                && tasks[id].status == Cancelled && tasks[id].error == Some("cancelled by user")
                && tasks[id].owner.None? && tasks[id].expires.None?
                && tasks[id].epoch == old(tasks)[id].epoch && tasks[id].result == old(tasks)[id].result
    {
      if id !in tasks || Terminal(tasks[id].status) {
        return false;
      }
      tasks := tasks[id := Cancel(tasks[id])];
      return true;
    }

    /** What other workers and users may do while a caller is suspended. */
    method OtherClients()
      modifies this
      ensures old(tasks).Keys <= tasks.Keys
      ensures forall x :: x in old(tasks) && Terminal(old(tasks)[x].status) ==> tasks[x] == old(tasks)[x]
    {
      var steps: nat := *;
      while steps > 0
        invariant old(tasks).Keys <= tasks.Keys
        invariant forall x :: x in old(tasks) && Terminal(old(tasks)[x].status) ==> tasks[x] == old(tasks)[x]
      {
        var id: string := *;
        var worker: string := *;
        var epoch: Option<nat> := *;
        var seconds: int, now: int, e: nat := *, *, *;
        var status: Status, result: Option<string>, error: Option<string> := *, *, *;
        var choice: nat := *;
        if id !in tasks {
          var created := Create(id);
        } else if choice == 0 {
          var leased := TryLease(id, worker, seconds, epoch, now);
        } else if choice == 1 {
          var updated := Update(id, status, result, error, worker, e);
        } else {
          var cancelled := CancelTask(id);
        }
        steps := steps - 1;
      }
    }
  }

  // ---------------------------------------------------------------- one worker

  class ExecutionHandle {
    const taskId: string
    const epoch: nat
    var stop: bool

    constructor (taskId: string, epoch: nat)
      ensures this.taskId == taskId && this.epoch == epoch && !stop
    {
      this.taskId, this.epoch, stop := taskId, epoch, false;
    }
  }

  datatype Error =
    | Disabled | Unsupported | TokenTooShort | CapacityExhausted | LeaseNotAcquired | LeaseRaised | NotFound | Rejected

  /** Where submitted work runs: in this process, in a worker that claims it, or this is such a worker. */
  datatype Role = Inline | Api | Worker

  /** A lease request may raise before or after it took effect. */
  datatype LeaseCall = Answers | RaisesBefore | RaisesAfter

  /** What a submission brings: whether its kind is known, whether a durable run would accept it, and the
      remaining lifetime of the caller's token. */
  datatype Request = Request(kindKnown: bool, durable: bool, token: Option<int>)

  class AsyncTaskManager {
    const gateway: TaskGateway
    const worker: string
    const role: Role
    const maxInflight: nat
    const maxConcurrent: nat
    const leaseSeconds: int
    const minimumLifetime: int
    var handles: map<string, ExecutionHandle>
    var closing: bool

    constructor (gateway: TaskGateway, worker: string, role: Role, maxInflight: nat, maxConcurrent: nat,
                 leaseSeconds: int,
                 minimumLifetime: int)
      ensures this.gateway == gateway && this.worker == worker && this.role == role && this.maxInflight == maxInflight
      ensures this.maxConcurrent == maxConcurrent && this.leaseSeconds == leaseSeconds
      ensures this.minimumLifetime == minimumLifetime
      ensures handles == map[] && !closing
    {
      this.gateway, this.worker, this.role := gateway, worker, role;
      this.maxInflight, this.maxConcurrent, this.leaseSeconds := maxInflight, maxConcurrent, leaseSeconds;
      this.minimumLifetime := minimumLifetime;
      handles, closing := map[], false;
    }

    /** The token outlives the safety margin, or never expires. */
    predicate TokenOk(token: Option<int>) {
      token.Some? ==> token.value > minimumLifetime
    }

    /** What else may happen while a call of this manager waits for the gateway: other clients act, other
        submissions register handles, runs end, and shutdown may begin. */
    method Meanwhile(id: string)
      modifies this, gateway
      ensures old(gateway.tasks).Keys <= gateway.tasks.Keys
      ensures forall x :: x in old(gateway.tasks) && Terminal(old(gateway.tasks)[x].status) ==>
                gateway.tasks[x] == old(gateway.tasks)[x]
      ensures id !in old(handles) ==> id !in handles
      ensures |old(handles)| <= maxInflight ==> |handles| <= maxInflight
    {
      gateway.OtherClients();
      var steps: nat := *;
      while steps > 0
        modifies this
        invariant id !in old(handles) ==> id !in handles
        invariant |old(handles)| <= maxInflight ==> |handles| <= maxInflight
      {
        var other: string := *;
        var ends: bool, epoch: nat := *, *;
        if ends {
          handles := handles - {other};
        } else if other != id && other !in handles && !closing && |handles| < maxInflight {
          var handle := new ExecutionHandle(other, epoch);
          handles := handles[other := handle];
        }
        steps := steps - 1;
      }
      var shutdown: bool := *;
      closing := closing || shutdown;
    }

    /** A handle is registered only for a lease the gateway granted to this worker, and never above the
        cap, whatever happens in between; a submission that fails leaves no handle and no unfinished
        task; with workers elsewhere the task is only created. */
    method Submit(id: string, request: Request, call: LeaseCall, now: int)
      returns (r: Result<Option<ExecutionHandle>, Error>, ghost granted: CentralTask)
      requires id !in gateway.tasks && id !in handles
      modifies this, gateway
      ensures |old(handles)| <= maxInflight ==> |handles| <= maxInflight
      ensures old(closing) || !request.kindKnown || role == Worker || (role == Api && !request.durable)
              || (role == Inline
                  && ((request.token.Some? && request.token.value <= minimumLifetime)
                      || |old(handles)| >= maxInflight)) ==>
                r.Failure? && gateway.tasks == old(gateway.tasks) && handles == old(handles)
      ensures r.Failure? ==> id !in handles && (id in gateway.tasks ==> Terminal(gateway.tasks[id].status))
      ensures r.Success? && r.value.Some? ==>
                && role == Inline && call == Answers && fresh(r.value.value)
                && id in handles && handles[id] == r.value.value && r.value.value.taskId == id && !r.value.value.stop
                && granted.owner == Some(worker) && granted.epoch == r.value.value.epoch > 0
                && !Terminal(granted.status)
      ensures r.Failure? ==>
                || old(closing) || !request.kindKnown || role == Worker || (role == Api && !request.durable)
                || (request.token.Some? && request.token.value <= minimumLifetime) || |old(handles)| >= maxInflight
                || (call != Answers && r.error == LeaseRaised)
                || (granted.owner != Some(worker) && r.error == LeaseNotAcquired)
                || (granted.epoch == 0 && r.error == LeaseNotAcquired)
                || (Finished(granted) && r.error == LeaseNotAcquired)
                || ((closing || |handles| >= maxInflight) && r.error == CapacityExhausted)
      ensures r.Success? && r.value.None? ==>
                role == Api && handles == old(handles) && gateway.tasks == old(gateway.tasks)[id := NEW_TASK]
    {
      granted := NEW_TASK;
      if closing {
        return Failure(Disabled), granted;
      }
      if !request.kindKnown || role == Worker {
        return Failure(Unsupported), granted;
      }
      if role == Api {
        if !request.durable {
          return Failure(Unsupported), granted;
        }
        var pending := gateway.Create(id);
        return Success(None), granted;
      }
      if !TokenOk(request.token) {
        return Failure(TokenTooShort), granted;
      }
      if |handles| >= maxInflight {
        return Failure(CapacityExhausted), granted;
      }
      var created := gateway.Create(id);
      Meanwhile(id);
      var leased := created;
      if call != RaisesBefore {
        leased := gateway.TryLease(id, worker, leaseSeconds, None, now);
      }
      if call != Answers {
        Meanwhile(id);
        var cancelled := gateway.CancelTask(id);
        return Failure(LeaseRaised), granted;
      }
      granted := leased;
      Meanwhile(id);
      if leased.owner != Some(worker) || leased.epoch == 0 || Terminal(leased.status) {
        var cancelled := gateway.CancelTask(id);
        return Failure(LeaseNotAcquired), granted;
      }
      if closing || |handles| >= maxInflight {
        var cancelled := gateway.CancelTask(id);
        return Failure(CapacityExhausted), granted;
      }
      var handle := new ExecutionHandle(id, leased.epoch);
      handles := handles[id := handle];
      return Success(Some(handle)), granted;
    }

    /** Taking over a claimed task needs a token that lives long enough, a free slot, no handle for the
        task, and a lease in this worker's name. A refusal leaves the lease to expire. */
    method Adopt(id: string, t: CentralTask, token: Option<int>) returns (r: Result<ExecutionHandle, Error>)
      modifies this`handles
      ensures r.Success? <==>
                && (token.Some? ==> minimumLifetime < token.value)
                && !closing && |old(handles)| < maxConcurrent && id !in old(handles)
                && t.owner == Some(worker) && t.epoch > 0 && !Finished(t)
      ensures r.Success? ==>
                && fresh(r.value) && handles == old(handles)[id := r.value]
                && r.value.taskId == id && r.value.epoch == t.epoch && !r.value.stop
      ensures r.Failure? ==> handles == old(handles)
    {
      if !TokenOk(token) {
        return Failure(TokenTooShort);
      }
      if closing || |handles| >= maxConcurrent || id in handles {
        return Failure(CapacityExhausted);
      }
      if t.owner != Some(worker) || t.epoch == 0 || Terminal(t.status) {
        return Failure(LeaseNotAcquired);
      }
      var handle := new ExecutionHandle(id, t.epoch);
      handles := handles[id := handle];
      return Success(handle);
    }

    /** A user cancel answers whether the task is cancelled, by this call or by another just before, and
        stops the local handle exactly then. Tasks of other tenants and kinds are not found. */
    method CancelByUser(id: string, sameTenant: bool, agentKind: bool) returns (r: Result<bool, Error>)
      requires forall x :: x in handles ==> handles[x].taskId == x
      modifies gateway, if id in handles then {handles[id]} else {}
      ensures r.Failure? <==>
                id !in old(gateway.tasks) || !sameTenant || !agentKind || Terminal(old(gateway.tasks)[id].status)
      ensures r.Failure? ==> gateway.tasks == old(gateway.tasks)
      ensures r.Success? ==> id in gateway.tasks && Terminal(gateway.tasks[id].status)
      ensures r.Success? ==> (r.value <==> gateway.tasks[id].status == Cancelled)
      ensures id in handles ==> handles[id].stop == (old(handles[id].stop) || (r.Success? && r.value))
    {
      if id !in gateway.tasks || !sameTenant || !agentKind || Terminal(gateway.tasks[id].status) {
        return Failure(NotFound);
      }
      gateway.OtherClients();
      var cancelled := gateway.CancelTask(id);
      if !cancelled {
        gateway.OtherClients();
        cancelled := gateway.tasks[id].status == Cancelled;
      }
      if cancelled && id in handles {
        var handle := handles[id];
        handle.stop := true;
      }
      return Success(cancelled);
    }

    /** One heartbeat: losing the lease, the epoch or the task stops the handle, and so does a request
        that raises. */
    method Heartbeat(handle: ExecutionHandle, call: LeaseCall, now: int)
      requires handle.taskId in gateway.tasks
      modifies gateway, handle
      ensures var t := Lease(old(gateway.tasks)[handle.taskId], worker, leaseSeconds, Some(handle.epoch), now);
              && gateway.tasks == (if call == RaisesBefore then old(gateway.tasks)
                                   else old(gateway.tasks)[handle.taskId := t])
              && (handle.stop <==> old(handle.stop) || call != Answers
                                   || Terminal(t.status) || t.owner != Some(worker) || t.epoch != handle.epoch)
      // A lease this worker still holds is renewed, and nothing but losing it or a raising call stops the handle.
      ensures var before := old(gateway.tasks)[handle.taskId];
              var mine := !Finished(before) && before.owner == Some(worker) && before.epoch == handle.epoch;
              && (mine && call == Answers ==> handle.stop == old(handle.stop))
              && (!mine || call != Answers ==> handle.stop)
              && (mine && call != RaisesBefore && before.expires.Some? && now < before.expires.value ==>
                    gateway.tasks[handle.taskId].expires == Some(now + leaseSeconds))
    {
      if call == RaisesBefore {
        handle.stop := true;
        return;
      }
      var t := gateway.TryLease(handle.taskId, worker, leaseSeconds, Some(handle.epoch), now);
      if call == RaisesAfter || Terminal(t.status) || t.owner != Some(worker) || t.epoch != handle.epoch {
        handle.stop := true;
      }
    }

    /** A stopped handle never reports success. */
    method CompleteOnce(handle: ExecutionHandle, status: Status, result: Option<string>, error: Option<string>)
      returns (r: Result<CentralTask, Error>)
      requires handle.taskId in gateway.tasks
      modifies gateway
      ensures handle.stop && status == Succeeded ==>
                gateway.tasks == old(gateway.tasks) && r == Success(gateway.tasks[handle.taskId])
      ensures !(handle.stop && status == Succeeded) ==>
                var t := UpdateStatus(old(gateway.tasks)[handle.taskId], status, result, error, worker, handle.epoch);
                && gateway.tasks == old(gateway.tasks)[handle.taskId := t]
                && r == if t.status != status && !Terminal(t.status) then Failure(Rejected) else Success(t)
      // The holder of the current epoch gets its report recorded; a stale report leaves the task alone.
      ensures !(handle.stop && status == Succeeded) ==>
                var before := old(gateway.tasks)[handle.taskId];
                if !Finished(before) && before.owner == Some(worker) && before.epoch == handle.epoch then
                  && r.Success? && gateway.tasks[handle.taskId] == r.value
                  && r.value.status == status && r.value.result == result && r.value.error == error
                else
                  && gateway.tasks == old(gateway.tasks)
                  && (r.Failure? <==> !Finished(before) && before.status != status)
    {
      if handle.stop && status == Succeeded {
        return Success(gateway.tasks[handle.taskId]);
      }
      var updated := gateway.Update(handle.taskId, status, result, error, worker, handle.epoch);
      if updated.status != status && !Terminal(updated.status) {
        return Failure(Rejected);
      }
      return Success(updated);
    }
  }
}
