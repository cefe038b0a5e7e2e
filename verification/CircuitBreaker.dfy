/** The guard of one HTTP dependency: a bulkhead and a circuit breaker with a single probe. */
module CircuitBreaker {

  datatype Policy = Policy(maxConcurrent: int, threshold: int, recovery: real)

  /** What the settings guarantee. */
  predicate PolicyOk(p: Policy) {
    p.maxConcurrent >= 1 && p.threshold >= 1 && p.recovery > 0.0
  }

  datatype Circuit = Circuit(failures: nat, openUntil: real, probeActive: bool, inflight: int)

  datatype Admission = Admitted(probe: bool) | Rejected(reason: string)

  /** How the body of a lease ends. */
  datatype Ending = DeadlineSpent | Returned | TimedOut | TransportError | Raised | Cancelled

  /** The flag a lease ends with: its user may have marked it, and each handler of the lease but that of
      cancellation marks it too. */
  predicate LeaseFailed(ending: Ending, marked: bool) {
    marked || !(ending == Returned || ending == Cancelled)
  }

  function Enter(p: Policy, c: Circuit, now: real): (Admission, Circuit) {
    var probe := c.openUntil > 0.0;
    if c.openUntil > now || (probe && c.probeActive) then (Rejected("circuit_open"), c)
    else if c.inflight >= p.maxConcurrent then (Rejected("bulkhead_full"), c)
    else (Admitted(probe), c.(inflight := c.inflight + 1, probeActive := c.probeActive || probe))
  }

  function Leave(p: Policy, c: Circuit, failed: bool, probe: bool, now: real): Circuit {
    var left := c.(inflight := if c.inflight - 1 > 0 then c.inflight - 1 else 0,
                   probeActive := c.probeActive && !probe);
    if !failed then left.(failures := 0, openUntil := 0.0)
    else left.(failures := c.failures + 1,
               openUntil := if c.failures + 1 >= p.threshold then now + p.recovery else c.openUntil)
  }

  class HttpDependencyGuard {
    const policy: Policy
    var failures: nat
    var openUntil: real
    var probeActive: bool
    var inflight: int

    function View(): Circuit reads this {
      Circuit(failures, openUntil, probeActive, inflight)
    }

    constructor (policy: Policy)
      ensures this.policy == policy && View() == Circuit(0, 0.0, false, 0)
    {
      this.policy := policy;
      failures, openUntil, probeActive, inflight := 0, 0.0, false, 0;
    }

    method EnterCircuit(now: real) returns (admission: Admission)
      modifies this
      ensures (admission, View()) == Enter(policy, old(View()), now)
    {
      if openUntil > now {
        return Rejected("circuit_open");
      }
      var probe := openUntil > 0.0;
      if probe && probeActive {
        return Rejected("circuit_open");
      }
      if inflight >= policy.maxConcurrent {
        return Rejected("bulkhead_full");
      }
      inflight := inflight + 1;
      if probe {
        probeActive := true;
      }
      return Admitted(probe);
    }

    method LeaveCircuit(failed: bool, probe: bool, now: real)
      modifies this
      ensures View() == Leave(policy, old(View()), failed, probe, now)
    {
      inflight := if inflight - 1 > 0 then inflight - 1 else 0;
      if probe {
        probeActive := false;
      }
      if failed {
        failures := failures + 1;
        if failures >= policy.threshold {
          openUntil := now + policy.recovery;
        }
        return;
      }
      failures := 0;
      openUntil := 0.0;
    }
  }

  // ---------------------------------------------------------------- whole histories

  /** A lease that ended: how, whether its user had marked it, and when. */
  datatype Past = Past(ending: Ending, marked: bool, at: real)

  /** What counts against the dependency: a deadline spent, a timeout, a transport error, any other
      exception, or a mark. A return or a cancellation without a mark does not. */
  predicate Counts(l: Past) {
    l.marked || l.ending in {DeadlineSpent, TimedOut, TransportError, Raised}
  }

  /** The guard, every call it ever admitted (marked when a probe), those still out, and the
      leases that ended, oldest first. */
  datatype World = World(circuit: Circuit, admitted: seq<bool>, leases: set<nat>, past: seq<Past>)

  datatype Event = Call(now: real) | Done(lease: nat, ending: Ending, marked: bool, at: real)

  const START := World(Circuit(0, 0.0, false, 0), [], {}, [])

  /** The clock is never negative; it need not be monotone. */
  predicate Enabled(w: World, e: Event) {
    match e
    case Call(now) => now >= 0.0
    case Done(lease, _, _, at) => at >= 0.0 && lease in w.leases && lease < |w.admitted|
  }

  function Do(p: Policy, w: World, e: Event): World
    requires Enabled(w, e)
  {
    match e
    case Call(now) =>
      var (admission, circuit) := Enter(p, w.circuit, now);
      match admission {
        case Rejected(_) => w
        case Admitted(probe) =>
          World(circuit, w.admitted + [probe], w.leases + {|w.admitted|}, w.past)
      }
    case Done(lease, ending, marked, at) =>
      var failed := LeaseFailed(ending, marked);
      World(Leave(p, w.circuit, failed, w.admitted[lease], at), w.admitted, w.leases - {lease},
            w.past + [Past(ending, marked, at)])
  }

  ghost predicate Leads(p: Policy, w: World, events: seq<Event>, v: World)
    decreases |events|
  {
    if events == [] then w == v
    else Enabled(w, events[0]) && Leads(p, Do(p, w, events[0]), events[1..], v)
  }

  /** The last `n` leases to end all count as failed. */
  predicate LastFailed(past: seq<Past>, n: int) {
    0 <= n <= |past| && forall i :: |past| - n <= i < |past| ==> Counts(past[i])
  }

  /** A probe is out. */
  ghost predicate Probing(w: World) {
    exists id :: id in w.leases && IsProbe(w, id)
  }

  predicate IsProbe(w: World, id: nat) {
    id < |w.admitted| && w.admitted[id]
  }

  /** The circuit as its history determines it. */
  ghost predicate Inv(p: Policy, w: World) {
    && PolicyOk(p)
    && var c := w.circuit;
    && (forall n: int :: 0 <= n ==> (LastFailed(w.past, n) <==> n <= c.failures))
    && (c.failures >= p.threshold ==>
          w.past != [] && c.openUntil == w.past[|w.past| - 1].at + p.recovery && c.openUntil > 0.0)
    && (c.failures < p.threshold ==> c.openUntil == 0.0)
    && (forall id :: id in w.leases ==> id < |w.admitted|)
    && c.inflight == |w.leases| <= p.maxConcurrent
    && (c.probeActive <==> Probing(w))
    && (forall i, j :: i in w.leases && j in w.leases && IsProbe(w, i) && IsProbe(w, j) ==> i == j)
  }

  lemma StartHolds(p: Policy)
    requires PolicyOk(p)
    ensures Inv(p, START)
  {
  }

  lemma LastFailedSnoc(past: seq<Past>, last: Past, n: int)
    requires 0 <= n
    ensures LastFailed(past + [last], n) <==> n == 0 || (Counts(last) && LastFailed(past, n - 1))
  {
    var longer := past + [last];
    if n > 0 && Counts(last) && LastFailed(past, n - 1) {
      forall i | |longer| - n <= i < |longer|
        ensures Counts(longer[i])
      {
        assert i < |past| ==> longer[i] == past[i];
      }
    }
    if n > 0 && LastFailed(longer, n) {
      assert Counts(longer[|past|]);
      forall i | |past| - (n - 1) <= i < |past|
        ensures Counts(past[i])
      {
        assert longer[i] == past[i];
      }
    }
  }

  lemma CallKeepsInv(p: Policy, w: World, now: real, v: World)
    requires Inv(p, w) && Enabled(w, Call(now)) && v == Do(p, w, Call(now))
    ensures Inv(p, v)
  {
    var admission := Enter(p, w.circuit, now).0;
    if admission.Admitted? {
      var id := |w.admitted|;
      assert id !in w.leases;
      forall i: nat | i < id
        ensures IsProbe(v, i) <==> IsProbe(w, i)
      {
      }
      assert IsProbe(v, id) <==> admission.probe;
      if Probing(w) {
        var i :| i in w.leases && IsProbe(w, i);
        assert i in v.leases && IsProbe(v, i);
      }
      if Probing(v) {
        var i :| i in v.leases && IsProbe(v, i);
        assert i != id ==> i in w.leases && IsProbe(w, i);
        assert i == id ==> v.leases == w.leases + {id};
      }
      assert id in v.leases;
    }
  }

  lemma DoneKeepsInv(p: Policy, w: World, e: Event, v: World)
    requires Inv(p, w) && e.Done? && Enabled(w, e) && v == Do(p, w, e)
    ensures Inv(p, v)
  {
    var last := Past(e.ending, e.marked, e.at);
    forall n: int | 0 <= n
      ensures LastFailed(v.past, n) <==> n <= v.circuit.failures
    {
      LastFailedSnoc(w.past, last, n);
      assert n > 0 ==> (LastFailed(w.past, n - 1) <==> n - 1 <= w.circuit.failures);
    }
    assert |v.leases| == |w.leases| - 1;
    ProbeAfterDone(p, w, e, v);
  }

  lemma ProbeAfterDone(p: Policy, w: World, e: Event, v: World)
    requires Inv(p, w) && e.Done? && Enabled(w, e) && v == Do(p, w, e)
    ensures v.circuit.probeActive <==> Probing(v)
    ensures forall i, j :: i in v.leases && j in v.leases && IsProbe(v, i) && IsProbe(v, j) ==> i == j
  {
    assert forall i: nat :: IsProbe(v, i) <==> IsProbe(w, i);
    if Probing(w) {
      var i :| i in w.leases && IsProbe(w, i);
      assert i != e.lease ==> i in v.leases && IsProbe(v, i);
      if i == e.lease {
        assert IsProbe(w, e.lease);
      }
    }
    if Probing(v) {
      var i :| i in v.leases && IsProbe(v, i);
      assert i in w.leases && IsProbe(w, i) && i != e.lease;
      assert !IsProbe(w, e.lease);
    }
  }

  lemma StepKeepsInv(p: Policy, w: World, e: Event)
    requires Inv(p, w) && Enabled(w, e)
    ensures Inv(p, Do(p, w, e))
  {
    if e.Call? {
      CallKeepsInv(p, w, e.now, Do(p, w, e));
    } else {
      DoneKeepsInv(p, w, e, Do(p, w, e));
    }
  }

  lemma {:induction false} RunKeepsInv(p: Policy, w: World, events: seq<Event>, v: World)
    requires Inv(p, w) && Leads(p, w, events, v)
    ensures Inv(p, v)
    decreases |events|
  {
    if events != [] {
      StepKeepsInv(p, w, events[0]);
      RunKeepsInv(p, Do(p, w, events[0]), events[1..], v);
    }
  }

  // ---------------------------------------------------------------- the promises

  ghost predicate Reached(p: Policy, w: World) {
    PolicyOk(p) && exists events :: Leads(p, START, events, w)
  }

  lemma ReachedHolds(p: Policy, w: World)
    requires Reached(p, w)
    ensures Inv(p, w)
  {
    var events :| Leads(p, START, events, w);
    StartHolds(p);
    RunKeepsInv(p, START, events, w);
  }

  /** The circuit is open exactly while the last `threshold` leases to end all count as failed, told
      from how they ended. */
  lemma OpenAfterFailures(p: Policy, w: World)
    requires Reached(p, w)
    ensures w.circuit.openUntil > 0.0 <==> w.circuit.failures >= p.threshold
    ensures w.circuit.openUntil > 0.0 <==> LastFailed(w.past, p.threshold)
    ensures w.circuit.openUntil > 0.0 ==> w.circuit.openUntil == w.past[|w.past| - 1].at + p.recovery
  {
    ReachedHolds(p, w);
  }

  /** The bulkhead counts exactly the leases that are out, so the clamp at zero never acts. */
  lemma Bulkhead(p: Policy, w: World)
    requires Reached(p, w)
    ensures w.circuit.inflight == |w.leases| <= p.maxConcurrent
    ensures forall e :: Enabled(w, e) && e.Done? ==> Do(p, w, e).circuit.inflight == w.circuit.inflight - 1
  {
    ReachedHolds(p, w);
  }

  /** At most one probe is out, and the flag says whether one is. */
  lemma SingleProbe(p: Policy, w: World)
    requires Reached(p, w)
    ensures w.circuit.probeActive <==> Probing(w)
    ensures forall i, j :: i in w.leases && j in w.leases && IsProbe(w, i) && IsProbe(w, j) ==> i == j
  {
    ReachedHolds(p, w);
  }

  /** The decision on a call, told from history alone: refused while the last `threshold` leases all
      failed and either the recovery time since the last one has not passed or a probe is out; then
      refused when the bulkhead is full; otherwise admitted, as a probe iff those leases failed. */
  lemma DecisionFromHistory(p: Policy, w: World, now: real)
    requires Reached(p, w) && now >= 0.0
    ensures var open := LastFailed(w.past, p.threshold);
            Enter(p, w.circuit, now).0 ==
              if open && (now < w.past[|w.past| - 1].at + p.recovery || Probing(w)) then Rejected("circuit_open")
              else if |w.leases| == p.maxConcurrent then Rejected("bulkhead_full")
              else Admitted(open)
  {
    ReachedHolds(p, w);
    assert LastFailed(w.past, p.threshold) <==> p.threshold <= w.circuit.failures;
  }

  /** Once open, the circuit stays open until a lease ends without failure, and every call admitted
      in between is a probe. */
  lemma {:induction false} OnlyProbesWhileOpen(p: Policy, w: World, events: seq<Event>, v: World)
    requires Inv(p, w) && Leads(p, w, events, v) && w.circuit.openUntil > 0.0
    requires forall i :: |w.past| <= i < |v.past| ==> Counts(v.past[i])
    ensures v.circuit.openUntil > 0.0
    ensures |w.admitted| <= |v.admitted| && forall id :: |w.admitted| <= id < |v.admitted| ==> IsProbe(v, id)
    decreases |events|
  {
    if events != [] {
      var u := Do(p, w, events[0]);
      StepKeepsInv(p, w, events[0]);
      HistoryGrows(p, u, events[1..], v);
      assert events[0].Done? ==> u.past[|w.past|] == v.past[|w.past|];
      OnlyProbesWhileOpen(p, u, events[1..], v);
      forall id | |w.admitted| <= id < |u.admitted|
        ensures IsProbe(v, id)
      {
        assert u.admitted[id] == v.admitted[id];
      }
    }
  }

  lemma {:induction false} HistoryGrows(p: Policy, w: World, events: seq<Event>, v: World)
    requires Leads(p, w, events, v)
    ensures w.past <= v.past && w.admitted <= v.admitted
    decreases |events|
  {
    if events != [] {
      HistoryGrows(p, Do(p, w, events[0]), events[1..], v);
    }
  }

  /** A lease that returned or was cancelled without a mark closes the circuit, whatever is still out;
      any other one counts, and while the circuit is open prolongs it. */
  lemma SuccessCloses(p: Policy, w: World, e: Event)
    requires Reached(p, w) && Enabled(w, e) && e.Done?
    ensures var v := Do(p, w, e);
            && v.past == w.past + [Past(e.ending, e.marked, e.at)]
            && if !e.marked && e.ending in {Returned, Cancelled} then
                 v.circuit.failures == 0 && !(v.circuit.openUntil > 0.0)
               else
                 && v.circuit.failures == w.circuit.failures + 1
                 && (v.circuit.openUntil > 0.0 <==> v.circuit.failures >= p.threshold)
                 && (v.circuit.openUntil > 0.0 ==> v.circuit.openUntil == e.at + p.recovery)
  {
    ReachedHolds(p, w);
    StepKeepsInv(p, w, e);
  }

  /** The breaker never wedges: with nothing out, a late enough call is admitted. */
  lemma Recovers(p: Policy, w: World)
    requires Reached(p, w) && w.leases == {}
    ensures forall now :: now >= 0.0 && now >= w.circuit.openUntil ==> Enter(p, w.circuit, now).0.Admitted?
  {
    ReachedHolds(p, w);
  }
}
