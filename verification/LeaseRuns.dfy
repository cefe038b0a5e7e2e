/** One asynchronous task seen by all workers, over every interleaving of claims, heartbeats, user
    cancels, takeovers and completions. Status updates travel and may arrive late, or repeatedly. */
module LeaseRuns {
  import opened DagTypes
  import opened TaskLease

  /** Where a handle is in `_run`: working, holding a result, waiting for the answer to its report of
      success or of failure, or finished. */
  datatype Phase = Working | HasResult(result: string) | Succeeding | Failing | Over

  /** How far a handle has come with its reports. */
  function Progress(p: Phase): nat {
    match p
    case Working => 0
    case HasResult(_) => 0
    case Succeeding => 1
    case Failing => 2
    case Over => 3
  }

  datatype Handle = Handle(worker: string, epoch: nat, stop: bool, phase: Phase)

  /** A status update under way, with the state of its handle when it was sent. */
  datatype Update = Update(handle: nat, worker: string, epoch: nat, status: Status, result: Option<string>,
                           stopped: bool)

  /** A terminal transition of the central task: a user cancel, or an update. */
  datatype Ending = ByUser | ByUpdate(update: Update)

  /** What the gateway answered to a worker's request for the lease. */
  datatype Answer = Answer(worker: string, task: CentralTask)

  datatype World = World(
    now: int, task: CentralTask, handles: map<nat, Handle>, answers: seq<Answer>, sent: seq<Update>,
    endings: seq<Ending>, holders: map<nat, string>)

  datatype Event =
    | Tick(ms: nat)
    | Claim(worker: string, seconds: int)
    | Register(handle: nat, answer: nat)
    | Heartbeat(handle: nat, seconds: int)
    | Stop(handle: nat)
    | Abandon(handle: nat)
    | WorkDone(handle: nat, result: string)
    | ReportSuccess(handle: nat)
    | ReportFailure(handle: nat, timedOut: bool)
    | Arrive(index: nat)
    | UserCancel

  predicate Live(w: World, h: nat) {
    h in w.handles && w.handles[h].phase != Over
  }

  /** The registry of a worker holds at most one handle for the task. */
  ghost predicate Registered(w: World, worker: string) {
    exists h :: h in w.handles && w.handles[h].worker == worker && w.handles[h].phase != Over
  }

  /** An answer that grants the lease to the one who asked. */
  predicate Mine(a: Answer) {
    a.task.owner == Some(a.worker) && a.task.epoch > 0 && !Terminal(a.task.status)
  }

  ghost predicate Enabled(w: World, e: Event) {
    match e
    case Tick(_) => true
    case Claim(_, _) => true
    case Register(h, i) =>
      h !in w.handles && i < |w.answers| && Mine(w.answers[i]) && !Registered(w, w.answers[i].worker)
    case Heartbeat(h, _) => Live(w, h) && !w.handles[h].stop
    case Stop(h) => h in w.handles
    case Abandon(h) => Live(w, h)
    case WorkDone(h, _) => Live(w, h) && w.handles[h].phase == Working
    case ReportSuccess(h) => Live(w, h) && w.handles[h].phase.HasResult?
    case ReportFailure(h, _) => Live(w, h) && w.handles[h].phase != Failing
    case Arrive(i) => i < |w.sent|
    case UserCancel => true
  }

  /** The task after an event at the gateway, recording a terminal transition. */
  function WithTask(w: World, t: CentralTask, ending: Ending): World {
    w.(task := t, endings := if Terminal(t.status) && !Terminal(w.task.status) then w.endings + [ending] else w.endings)
  }

  /** A report is sent. A report of success that raises is followed by one of failure; after either the
      handle ends by `Abandon`. */
  function Send(w: World, h: nat, status: Status, result: Option<string>): World
    requires h in w.handles
  {
    var x := w.handles[h];
    w.(handles := w.handles[h := x.(phase := if status == Succeeded then Succeeding else Failing)],
       sent := w.sent + [Update(h, x.worker, x.epoch, status, result, x.stop)])
  }

  /** A request for the lease. Its answer may be lost, refused for want of a token or a slot, or used
      later, when the lease has passed on. */
  function Claimed(w: World, worker: string, seconds: int): World {
    var t := Lease(w.task, worker, seconds, None, w.now);
    w.(task := t, holders := if t.epoch > w.task.epoch then w.holders[t.epoch := worker] else w.holders,
       answers := w.answers + [Answer(worker, t)])
  }

  ghost function Do(w: World, e: Event): World
    requires Enabled(w, e)
  {
    match e
    case Tick(ms) => w.(now := w.now + ms)
    case Claim(worker, seconds) => Claimed(w, worker, seconds)
    case Register(h, i) =>
      w.(handles := w.handles[h := Handle(w.answers[i].worker, w.answers[i].task.epoch, false, Working)])
    case Heartbeat(h, seconds) =>
      var x := w.handles[h];
      var t := Lease(w.task, x.worker, seconds, Some(x.epoch), w.now);
      var lost := Terminal(t.status) || t.owner != Some(x.worker) || t.epoch != x.epoch;
      w.(task := t, handles := w.handles[h := x.(stop := x.stop || lost)])
    case Stop(h) => w.(handles := w.handles[h := w.handles[h].(stop := true)])
    case Abandon(h) => w.(handles := w.handles[h := w.handles[h].(phase := Over)])
    case WorkDone(h, result) => w.(handles := w.handles[h := w.handles[h].(phase := HasResult(result))])
    case ReportSuccess(h) =>
      if w.handles[h].stop then w.(handles := w.handles[h := w.handles[h].(phase := Over)])
      else Send(w, h, Succeeded, Some(w.handles[h].phase.result))
    case ReportFailure(h, timedOut) =>
      var v := if timedOut then w.(handles := w.handles[h := w.handles[h].(stop := true)]) else w;
      Send(v, h, Failed, None)
    case Arrive(i) =>
      var u := w.sent[i];
      WithTask(w, UpdateStatus(w.task, u.status, u.result, None, u.worker, u.epoch), ByUpdate(u))
    case UserCancel => WithTask(w, Cancel(w.task), ByUser)
  }

  function Initial(now: int): World {
    World(now, NEW_TASK, map[], [], [], [], map[])
  }

  ghost predicate Leads(w: World, run: seq<Event>, v: World)
    decreases |run|
  {
    if run == [] then w == v
    else Enabled(w, run[0]) && Leads(Do(w, run[0]), run[1..], v)
  }

  // ---------------------------------------------------------------- invariant

  /** Every epoch opened so far has one holder. */
  ghost predicate HoldersOk(w: World) {
    && (forall e :: e in w.holders <==> 1 <= e <= w.task.epoch)
    && (w.task.owner.Some? ==> w.task.epoch > 0 && w.holders[w.task.epoch] == w.task.owner.value)
  }

  ghost predicate HandleOk(w: World, h: nat) {
    h in w.handles ==>
      && 1 <= w.handles[h].epoch <= w.task.epoch
      && w.handles[h].epoch in w.holders && w.holders[w.handles[h].epoch] == w.handles[h].worker
  }

  ghost predicate HandlesOk(w: World) {
    && (forall h {:trigger HandleOk(w, h)} :: HandleOk(w, h))
    && (forall g, h :: Live(w, g) && Live(w, h) && w.handles[g].worker == w.handles[h].worker ==> g == h)
  }

  /** An answer names the holder of its epoch. */
  ghost predicate AnswerOk(w: World, a: Answer) {
    a.task.owner.Some? ==>
      1 <= a.task.epoch <= w.task.epoch && a.task.epoch in w.holders && w.holders[a.task.epoch] == a.task.owner.value
  }

  ghost predicate AnswersOk(w: World) {
    forall i {:trigger AnswerOk(w, w.answers[i])} :: 0 <= i < |w.answers| ==> AnswerOk(w, w.answers[i])
  }

  lemma AnswersStayOk(w: World, v: World)
    requires AnswersOk(w) && v.answers == w.answers && w.task.epoch <= v.task.epoch
    requires forall e :: e in w.holders ==> e in v.holders && v.holders[e] == w.holders[e]
    ensures AnswersOk(v)
  {
    forall i | 0 <= i < |v.answers|
      ensures AnswerOk(v, v.answers[i])
    {
      assert AnswerOk(w, w.answers[i]);
    }
  }

  /** A handle reports success at most once and failure at most once, and never success after it was
      stopped. */
  ghost predicate SentOk(w: World, i: nat)
    requires i < |w.sent|
  {
    var u := w.sent[i];
    && u.handle in w.handles
    && w.handles[u.handle].worker == u.worker && w.handles[u.handle].epoch == u.epoch
    && Terminal(u.status) && u.status != Cancelled
    && (u.status == Succeeded ==> !u.stopped)
    && Progress(w.handles[u.handle].phase) >= (if u.status == Succeeded then 1 else 2)
    && (forall j :: 0 <= j < |w.sent| && w.sent[j].handle == u.handle && w.sent[j].status == u.status ==> j == i)
  }

  ghost predicate AllSentOk(w: World) {
    forall i {:trigger SentOk(w, i)} :: 0 <= i < |w.sent| ==> SentOk(w, i)
  }

  /** The task is finished exactly if it ended once, and its fields are those of that ending. */
  ghost predicate EndingsOk(w: World) {
    && |w.endings| <= 1
    && (Terminal(w.task.status) <==> |w.endings| == 1)
    && (|w.endings| == 1 ==>
          match w.endings[0]
          case ByUser => w.task.status == Cancelled
          case ByUpdate(u) =>
            && u in w.sent && w.task.status == u.status && w.task.result == u.result
            && w.task.epoch == u.epoch && u.epoch in w.holders && w.holders[u.epoch] == u.worker)
  }

  ghost predicate Inv(w: World) {
    var ok :=
      HoldersOk(w) && HandlesOk(w) && AnswersOk(w) && AllSentOk(w) && EndingsOk(w);
    ok
  }

  lemma ClaimOk(w: World, worker: string, seconds: int)
    requires Inv(w)
    ensures Inv(Claimed(w, worker, seconds))
  {
    var v := Claimed(w, worker, seconds);
    assert HoldersOk(v);
    forall g
      ensures HandleOk(v, g)
    {
      assert HandleOk(w, g);
    }
    forall i | 0 <= i < |v.answers|
      ensures AnswerOk(v, v.answers[i])
    {
      assert i < |w.answers| ==> AnswerOk(w, w.answers[i]);
    }
    forall i | 0 <= i < |v.sent|
      ensures SentOk(v, i)
    {
      assert SentOk(w, i);
    }
    assert forall a :: Live(v, a) ==> Live(w, a);
  }

  lemma RegisterOk(w: World, h: nat, i: nat, v: World)
    requires Inv(w) && Enabled(w, Register(h, i)) && v == Do(w, Register(h, i))
    ensures Inv(v)
  {
    assert AnswerOk(w, w.answers[i]);
    AnswersStayOk(w, v);
    forall g
      ensures HandleOk(v, g)
    {
      assert HandleOk(w, g);
    }
    forall j | 0 <= j < |v.sent|
      ensures SentOk(v, j)
    {
      assert SentOk(w, j);
    }
    forall a, b | Live(v, a) && Live(v, b) && v.handles[a].worker == v.handles[b].worker
      ensures a == b
    {
      assert a != h ==> Live(w, a);
      assert b != h ==> Live(w, b);
    }
  }

  /** Events that change at most one existing handle and the time of the lease. */
  lemma HandleStepOk(w: World, v: World, h: nat)
    requires Inv(w) && h in w.handles && h in v.handles
    requires v == w.(now := v.now, task := w.task.(status := v.task.status, expires := v.task.expires),
                     handles := w.handles[h := v.handles[h]])
    requires Terminal(v.task.status) <==> Terminal(w.task.status)
    requires Terminal(w.task.status) ==> v.task.status == w.task.status
    requires v.handles[h].worker == w.handles[h].worker && v.handles[h].epoch == w.handles[h].epoch
    requires Progress(w.handles[h].phase) <= Progress(v.handles[h].phase)
    ensures Inv(v)
  {
    AnswersStayOk(w, v);
    forall g
      ensures HandleOk(v, g)
    {
      assert HandleOk(w, g);
    }
    forall i | 0 <= i < |v.sent|
      ensures SentOk(v, i)
    {
      assert SentOk(w, i);
    }
    forall a, b | Live(v, a) && Live(v, b) && v.handles[a].worker == v.handles[b].worker
      ensures a == b
    {
      assert Live(w, a) && Live(w, b);
    }
  }

  lemma SendOk(w: World, h: nat, status: Status, result: Option<string>)
    requires Inv(w) && Live(w, h) && Terminal(status) && status != Cancelled
    requires status == Succeeded ==> !w.handles[h].stop
    requires Progress(w.handles[h].phase) < (if status == Succeeded then 1 else 2)
    ensures Inv(Send(w, h, status, result))
  {
    var v := Send(w, h, status, result);
    AnswersStayOk(w, v);
    forall g
      ensures HandleOk(v, g)
    {
      assert HandleOk(w, g);
    }
    forall i | 0 <= i < |w.sent|
      ensures w.sent[i].handle == h ==> w.sent[i].status != status
    {
      assert SentOk(w, i);
    }
    forall i | 0 <= i < |v.sent|
      ensures SentOk(v, i)
    {
      assert i < |w.sent| ==> SentOk(w, i);
    }
    forall a, b | Live(v, a) && Live(v, b) && v.handles[a].worker == v.handles[b].worker
      ensures a == b
    {
      assert Live(w, a) && Live(w, b);
    }
  }

  lemma GatewayStepOk(w: World, t: CentralTask, ending: Ending)
    requires Inv(w) && t.epoch == w.task.epoch && (t.owner == w.task.owner || t.owner.None?)
    requires Terminal(w.task.status) ==> t == w.task
    requires !Terminal(w.task.status) && Terminal(t.status) ==>
               match ending
               case ByUser => t.status == Cancelled
               case ByUpdate(u) =>
                 && u in w.sent && t.status == u.status && t.result == u.result
                 && t.epoch == u.epoch && w.task.owner == Some(u.worker)
    ensures Inv(WithTask(w, t, ending))
  {
    var v := WithTask(w, t, ending);
    AnswersStayOk(w, v);
    forall g
      ensures HandleOk(v, g)
    {
      assert HandleOk(w, g);
    }
    forall i | 0 <= i < |v.sent|
      ensures SentOk(v, i)
    {
      assert SentOk(w, i);
    }
    assert forall a :: Live(v, a) ==> Live(w, a);
  }

  lemma EventKeepsInv(w: World, e: Event)
    requires Inv(w) && Enabled(w, e)
    ensures Inv(Do(w, e))
  {
    var v := Do(w, e);
    match e
    case Tick(_) =>
      AnswersStayOk(w, v);
      forall g
        ensures HandleOk(v, g)
      {
        assert HandleOk(w, g);
      }
      forall i | 0 <= i < |v.sent|
        ensures SentOk(v, i)
      {
        assert SentOk(w, i);
      }
      assert forall a :: Live(v, a) ==> Live(w, a);
    case Claim(worker, seconds) => ClaimOk(w, worker, seconds);
    case Register(h, i) => RegisterOk(w, h, i, v);
    case Heartbeat(h, _) => HandleStepOk(w, v, h);
    case Stop(h) => HandleStepOk(w, v, h);
    case Abandon(h) => HandleStepOk(w, v, h);
    case WorkDone(h, _) => HandleStepOk(w, v, h);
    case ReportSuccess(h) =>
      if w.handles[h].stop {
        HandleStepOk(w, v, h);
      } else {
        SendOk(w, h, Succeeded, Some(w.handles[h].phase.result));
      }
    case ReportFailure(h, timedOut) =>
      var u := if timedOut then w.(handles := w.handles[h := w.handles[h].(stop := true)]) else w;
      if timedOut {
        HandleStepOk(w, u, h);
      }
      SendOk(u, h, Failed, None);
    case Arrive(i) =>
      assert SentOk(w, i);
      var u := w.sent[i];
      GatewayStepOk(w, UpdateStatus(w.task, u.status, u.result, None, u.worker, u.epoch), ByUpdate(u));
    case UserCancel => GatewayStepOk(w, Cancel(w.task), ByUser);
  }

  lemma {:induction false} RunKeepsInv(w: World, run: seq<Event>, v: World)
    requires Inv(w) && Leads(w, run, v)
    ensures Inv(v)
    decreases |run|
  {
    if run != [] {
      EventKeepsInv(w, run[0]);
      RunKeepsInv(Do(w, run[0]), run[1..], v);
    }
  }

  // ---------------------------------------------------------------- theorems

  ghost predicate Reached(w: World) {
    exists now, run :: Leads(Initial(now), run, w)
  }

  lemma ReachedIsOk(w: World)
    requires Reached(w)
    ensures Inv(w)
  {
    var now, run :| Leads(Initial(now), run, w);
    RunKeepsInv(Initial(now), run, w);
  }

  /** A task ends at most once, by a user cancel or by an update of the one holder of the epoch in
      which it ended; the result it keeps is the one that update carried. */
  lemma EndsOnceByHolder(w: World)
    requires Reached(w)
    ensures |w.endings| <= 1 && (Terminal(w.task.status) <==> |w.endings| == 1)
    ensures |w.endings| == 1 && w.endings[0].ByUpdate? ==>
              var u := w.endings[0].update;
              && u in w.sent && u.epoch == w.task.epoch && u.epoch in w.holders && w.holders[u.epoch] == u.worker
              && w.task.status == u.status && w.task.result == u.result
    ensures |w.endings| == 1 && w.endings[0].ByUser? ==> w.task.status == Cancelled
  {
    ReachedIsOk(w);
  }

  /** A finished task never changes again. */
  lemma {:induction false} FinishedForever(w: World, run: seq<Event>, v: World)
    requires Terminal(w.task.status) && Leads(w, run, v)
    ensures v.task == w.task && v.endings == w.endings
    decreases |run|
  {
    if run != [] {
      FinishedForever(Do(w, run[0]), run[1..], v);
    }
  }

  /** Updates of an earlier epoch, or of another worker, change nothing when they arrive. */
  lemma StaleUpdatesAreIgnored(w: World, i: nat)
    requires Reached(w) && i < |w.sent| && (w.sent[i].epoch < w.task.epoch || w.task.owner != Some(w.sent[i].worker))
    ensures Do(w, Arrive(i)) == w
  {
    ReachedIsOk(w);
    assert SentOk(w, i);
  }

  /** A handle reports success at most once, and then had not been stopped; after that report raised it
      may report failure, also at most once. */
  lemma ReportsOnce(w: World, i: nat, j: nat)
    requires Reached(w) && i < |w.sent| && j < |w.sent|
    requires w.sent[i].handle == w.sent[j].handle && w.sent[i].status == w.sent[j].status
    ensures i == j && (w.sent[i].status == Succeeded || w.sent[i].status == Failed)
    ensures w.sent[i].status == Succeeded ==> !w.sent[i].stopped
  {
    ReachedIsOk(w);
    assert SentOk(w, i);
  }

  /** Of all handles at most one is in the position to finish the task. */
  predicate CanFinish(w: World, h: nat) {
    Live(w, h) && w.task.owner == Some(w.handles[h].worker) && w.task.epoch == w.handles[h].epoch
  }

  lemma OneFinisher(w: World, g: nat, h: nat)
    requires Reached(w) && CanFinish(w, g) && CanFinish(w, h)
    ensures g == h
  {
    ReachedIsOk(w);
  }

  /** Nobody steals a lease: while it is held, a request of any worker is answered with the task as it is,
      and no step opens an epoch or changes the owner of an unfinished task; once it is free or expired,
      whoever asks first gets the next epoch. */
  lemma NoStealing(w: World, e: Event)
    requires Reached(w) && Enabled(w, e) && !Finished(w.task)
    ensures var t := Do(w, e).task;
            if Held(w.task, w.now) then
              && t.epoch == w.task.epoch && (Finished(t) || t.owner == w.task.owner)
              && (e.Claim? ==> t == w.task)
            else
              && (t.epoch == w.task.epoch || (e.Claim? && t.epoch == w.task.epoch + 1))
              && (e.Claim? ==> t.owner == Some(e.worker) && t.epoch == w.task.epoch + 1)
  {
    ReachedIsOk(w);
    if e.Arrive? {
      assert SentOk(w, e.index);
    }
  }

  /** Epochs only grow, and the holder of an epoch never changes. */
  lemma {:induction false} EpochsGrow(w: World, run: seq<Event>, v: World)
    requires Inv(w) && Leads(w, run, v)
    ensures w.task.epoch <= v.task.epoch
    ensures forall e :: e in w.holders ==> e in v.holders && v.holders[e] == w.holders[e]
    decreases |run|
  {
    if run != [] {
      EventKeepsInv(w, run[0]);
      EpochsGrow(Do(w, run[0]), run[1..], v);
    }
  }

  /** A stopped handle stays stopped and sends no success report in any continuation. */
  lemma {:induction false} StoppedNeverSucceeds(w: World, run: seq<Event>, v: World, h: nat)
    requires Inv(w) && Leads(w, run, v) && h in w.handles && w.handles[h].stop
    ensures h in v.handles && v.handles[h].stop
    ensures |w.sent| <= |v.sent|
    ensures forall i :: |w.sent| <= i < |v.sent| && v.sent[i].handle == h ==> v.sent[i].status != Succeeded
    decreases |run|
  {
    if run != [] {
      var u := Do(w, run[0]);
      EventKeepsInv(w, run[0]);
      StoppedNeverSucceeds(u, run[1..], v, h);
      SentGrows(w, run[0]);
      SentGrowsAll(u, run[1..], v);
    }
  }

  lemma SentGrows(w: World, e: Event)
    requires Enabled(w, e)
    ensures w.sent <= Do(w, e).sent
  {
  }

  lemma {:induction false} SentGrowsAll(w: World, run: seq<Event>, v: World)
    requires Leads(w, run, v)
    ensures w.sent <= v.sent
    decreases |run|
  {
    if run != [] {
      SentGrows(w, run[0]);
      SentGrowsAll(Do(w, run[0]), run[1..], v);
    }
  }
}
