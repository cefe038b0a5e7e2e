/** The barrier-free scheduler: a node starts as soon as its dependencies are done, in whatever order
    nodes happen to complete. */
module Scheduler {
  import opened DagTypes
  import opened TaskGraph

  datatype Node = Node(id: string, upstream: set<string>)

  datatype RunError<+E> = CannotProgress | Raised(id: string, error: E)

  datatype Event<+R> = Submitted(id: string, upstream: map<string, R>) | Completed(id: string, result: R)

  type Execute<!R, !E> = (string, map<string, R>) -> Result<R, E>

  predicate DistinctNodes(nodes: seq<Node>) {
    forall i, j :: 0 <= i < j < |nodes| ==> nodes[i].id != nodes[j].id
  }

  function NodeIds(nodes: seq<Node>): set<string> {
    set i | 0 <= i < |nodes| :: nodes[i].id
  }

  function Restrict<R>(m: map<string, R>, s: set<string>): map<string, R> {
    map d | d in s && d in m :: m[d]
  }

  /** Every result present was computed from the results of exactly its node's dependencies. */
  ghost predicate Consistent<R, E>(nodes: seq<Node>, execute: Execute<R, E>, m: map<string, R>) {
    && m.Keys <= NodeIds(nodes)
    && forall i {:trigger nodes[i]} :: 0 <= i < |nodes| && nodes[i].id in m ==> Justified(nodes[i], execute, m)
  }

  ghost predicate Justified<R, E>(n: Node, execute: Execute<R, E>, m: map<string, R>)
    requires n.id in m
  {
    n.upstream <= m.Keys && execute(n.id, Restrict(m, n.upstream)) == Success(m[n.id])
  }

  ghost predicate Evaluates<R, E>(nodes: seq<Node>, execute: Execute<R, E>, m: map<string, R>) {
    Consistent(nodes, execute, m) && m.Keys == NodeIds(nodes)
  }

  /** Every dependency is a node of smaller rank: the graph is acyclic and closed. */
  ghost predicate Ranked(nodes: seq<Node>, rank: map<string, nat>) {
    forall i {:trigger nodes[i]} :: 0 <= i < |nodes| ==>
      && nodes[i].id in rank
      && nodes[i].upstream <= NodeIds(nodes)
      && forall d :: d in nodes[i].upstream ==> d in rank && rank[d] < rank[nodes[i].id]
  }

  // ---------------------------------------------------------------- traces

  function SubmittedIn<R>(trace: seq<Event<R>>): set<string> {
    if trace == [] then {}
    else
      var before, last := SubmittedIn(trace[..|trace| - 1]), trace[|trace| - 1];
      if last.Submitted? then before + {last.id} else before
  }

  function CompletedIn<R>(trace: seq<Event<R>>): map<string, R> {
    if trace == [] then map[]
    else
      var before, last := CompletedIn(trace[..|trace| - 1]), trace[|trace| - 1];
      if last.Completed? then before[last.id := last.result] else before
  }

  /** A submission is the first of its node, comes after all its dependencies completed, and carries
      exactly their results; a completion follows the submission and reports what `execute` made of it. */
  ghost predicate TraceOk<R(!new), E>(nodes: seq<Node>, execute: Execute<R, E>, trace: seq<Event<R>>) {
    trace != [] ==>
      var before, last := trace[..|trace| - 1], trace[|trace| - 1];
      && TraceOk(nodes, execute, before)
      && match last
         case Submitted(id, up) =>
           && id !in SubmittedIn(before)
           && exists i :: 0 <= i < |nodes| && nodes[i].id == id
                && nodes[i].upstream <= CompletedIn(before).Keys
                && up == Restrict(CompletedIn(before), nodes[i].upstream)
         case Completed(id, x) =>
           && id in SubmittedIn(before) && id !in CompletedIn(before)
           && exists up :: Submitted(id, up) in before && execute(id, up) == Success(x)
  }

  lemma AppendSubmitted<R(!new), E>(nodes: seq<Node>, execute: Execute<R, E>, trace: seq<Event<R>>, i: nat)
    requires TraceOk(nodes, execute, trace) && i < |nodes| && nodes[i].id !in SubmittedIn(trace)
    requires nodes[i].upstream <= CompletedIn(trace).Keys
    ensures var more := trace + [Submitted(nodes[i].id, Restrict(CompletedIn(trace), nodes[i].upstream))];
            && TraceOk(nodes, execute, more)
            && SubmittedIn(more) == SubmittedIn(trace) + {nodes[i].id}
            && CompletedIn(more) == CompletedIn(trace)
  {
    var more := trace + [Submitted(nodes[i].id, Restrict(CompletedIn(trace), nodes[i].upstream))];
    assert more[..|more| - 1] == trace;
  }

  lemma AppendCompleted<R(!new), E>(nodes: seq<Node>, execute: Execute<R, E>, trace: seq<Event<R>>, id: string,
                                    up: map<string, R>, x: R)
    requires TraceOk(nodes, execute, trace) && id in SubmittedIn(trace) && id !in CompletedIn(trace)
    requires Submitted(id, up) in trace && execute(id, up) == Success(x)
    ensures var more := trace + [Completed(id, x)];
            && TraceOk(nodes, execute, more)
            && SubmittedIn(more) == SubmittedIn(trace)
            && CompletedIn(more) == CompletedIn(trace)[id := x]
  {
    var more: seq<Event<R>> := trace + [Completed(id, x)];
    assert more[..|more| - 1] == trace;
  }

  // ---------------------------------------------------------------- the loop

  /** The loop variables with the ghost history: `pending` maps running nodes to their arguments. */
  datatype Round<+R> = Round(
    results: map<string, R>, submitted: set<string>, pending: map<string, map<string, R>>,
    trace: seq<Event<R>>, rank: map<string, nat>)

  function Submit<R>(s: Round<R>, n: Node): Round<R> {
    var up := Restrict(s.results, n.upstream);
    s.(submitted := s.submitted + {n.id}, pending := s.pending[n.id := up], trace := s.trace + [Submitted(n.id, up)])
  }

  function Complete<R>(s: Round<R>, id: string, x: R): Round<R> {
    s.(results := s.results[id := x], pending := s.pending - {id},
       trace := s.trace + [Completed(id, x)], rank := s.rank[id := |s.results|])
  }

  /** Submitted work is finished or running. */
  ghost predicate Accounted<R>(nodes: seq<Node>, s: Round<R>) {
    && s.submitted == s.results.Keys + s.pending.Keys && s.results.Keys !! s.pending.Keys
    && s.submitted <= NodeIds(nodes)
  }

  /** The trace tells the same story as the loop variables. */
  ghost predicate Recorded<R(!new), E>(nodes: seq<Node>, execute: Execute<R, E>, s: Round<R>) {
    TraceOk(nodes, execute, s.trace) && SubmittedIn(s.trace) == s.submitted && CompletedIn(s.trace) == s.results
  }

  /** Completion order ranks the finished nodes. */
  ghost predicate Ordered<R>(nodes: seq<Node>, results: map<string, R>, rank: map<string, nat>) {
    && rank.Keys == results.Keys
    && (forall id :: id in results ==> rank[id] < |results|)
    && (forall i {:trigger nodes[i]} :: 0 <= i < |nodes| && nodes[i].id in results ==>
          forall d :: d in nodes[i].upstream ==> d in rank && rank[d] < rank[nodes[i].id])
  }

  ghost predicate AllPendingOk<R>(nodes: seq<Node>, s: Round<R>) {
    forall id {:trigger s.pending[id]} :: id in s.pending ==> PendingOk(nodes, s, id, s.pending[id])
  }

  /** Running work was submitted with the results its dependencies still have. */
  ghost predicate PendingOk<R>(nodes: seq<Node>, s: Round<R>, id: string, up: map<string, R>) {
    && Submitted(id, up) in s.trace
    && exists i :: 0 <= i < |nodes| && nodes[i].id == id && nodes[i].upstream <= s.results.Keys
         && up == Restrict(s.results, nodes[i].upstream)
  }

  ghost predicate RoundOk<R(!new), E>(nodes: seq<Node>, execute: Execute<R, E>, s: Round<R>) {
    && Consistent(nodes, execute, s.results)
    && Accounted(nodes, s)
    && AllPendingOk(nodes, s)
    && Recorded(nodes, execute, s)
    && Ordered(nodes, s.results, s.rank)
  }

  lemma PendingStaysOk<R>(nodes: seq<Node>, s: Round<R>, t: Round<R>, id: string, up: map<string, R>)
    requires PendingOk(nodes, s, id, up)
    requires s.trace <= t.trace && forall d :: d in s.results ==> d in t.results && t.results[d] == s.results[d]
    ensures PendingOk(nodes, t, id, up)
  {
    var i :| 0 <= i < |nodes| && nodes[i].id == id && nodes[i].upstream <= s.results.Keys
             && up == Restrict(s.results, nodes[i].upstream);
    assert Restrict(t.results, nodes[i].upstream) == Restrict(s.results, nodes[i].upstream);
  }

  lemma SubmitPending<R>(nodes: seq<Node>, s: Round<R>, i: nat)
    requires AllPendingOk(nodes, s) && i < |nodes| && nodes[i].upstream <= s.results.Keys
    ensures AllPendingOk(nodes, Submit(s, nodes[i]))
  {
    var t := Submit(s, nodes[i]);
    var up := Restrict(s.results, nodes[i].upstream);
    assert t.trace[|s.trace|] == Submitted(nodes[i].id, up);
    forall id | id in t.pending
      ensures PendingOk(nodes, t, id, t.pending[id])
    {
      if id != nodes[i].id {
        assert PendingOk(nodes, s, id, s.pending[id]);
        PendingStaysOk(nodes, s, t, id, s.pending[id]);
      }
    }
  }

  lemma SubmitKeepsRound<R(!new), E>(nodes: seq<Node>, execute: Execute<R, E>, s: Round<R>, i: nat)
    requires RoundOk(nodes, execute, s)
    requires i < |nodes| && nodes[i].id !in s.submitted && nodes[i].upstream <= s.results.Keys
    ensures RoundOk(nodes, execute, Submit(s, nodes[i]))
  {
    var t := Submit(s, nodes[i]);
    assert Recorded(nodes, execute, t) by {
      AppendSubmitted(nodes, execute, s.trace, i);
    }
    assert AllPendingOk(nodes, t) by {
      SubmitPending(nodes, s, i);
    }
    assert Accounted(nodes, t) by {
      SubmitAccounted(nodes, s, i);
    }
  }

  lemma GrowConsistent<R(!new), E>(nodes: seq<Node>, execute: Execute<R, E>, m: map<string, R>, i: nat, x: R)
    requires DistinctNodes(nodes) && Consistent(nodes, execute, m)
    requires i < |nodes| && nodes[i].id !in m && nodes[i].upstream <= m.Keys
    requires execute(nodes[i].id, Restrict(m, nodes[i].upstream)) == Success(x)
    ensures Consistent(nodes, execute, m[nodes[i].id := x])
  {
    var more := m[nodes[i].id := x];
    forall j | 0 <= j < |nodes| && nodes[j].id in more
      ensures Justified(nodes[j], execute, more)
    {
      assert nodes[j].id in m ==> Justified(nodes[j], execute, m);
      assert Restrict(more, nodes[j].upstream) == Restrict(m, nodes[j].upstream);
    }
  }

  lemma CompletePending<R>(nodes: seq<Node>, s: Round<R>, id: string, x: R)
    requires AllPendingOk(nodes, s) && id !in s.results
    ensures AllPendingOk(nodes, Complete(s, id, x))
  {
    var t := Complete(s, id, x);
    forall other | other in t.pending
      ensures PendingOk(nodes, t, other, t.pending[other])
    {
      assert PendingOk(nodes, s, other, s.pending[other]);
      PendingStaysOk(nodes, s, t, other, s.pending[other]);
    }
  }

  lemma KeysAfterUpdate<V>(m: map<string, V>, id: string, x: V)
    ensures m[id := x].Keys == m.Keys + {id}
    ensures id !in m ==> |m[id := x]| == |m| + 1
  {
    var n := m[id := x];
    assert n.Keys == m.Keys + {id};
    assert |n| == |n.Keys| && |m| == |m.Keys|;
  }

  lemma KeysAfterRemoval<V>(m: map<string, V>, id: string)
    ensures (m - {id}).Keys == m.Keys - {id}
  {
  }

  lemma CompleteAccounted<R>(nodes: seq<Node>, s: Round<R>, id: string, x: R)
    requires Accounted(nodes, s) && id in s.pending
    ensures Accounted(nodes, Complete(s, id, x))
    ensures |Complete(s, id, x).results| == |s.results| + 1
  {
    KeysAfterUpdate(s.results, id, x);
    KeysAfterRemoval(s.pending, id);
    Moved(s.submitted, s.results.Keys, s.pending.Keys, id);
  }

  lemma Moved(all: set<string>, finished: set<string>, running: set<string>, id: string)
    requires all == finished + running && finished !! running && id in running
    ensures all == (finished + {id}) + (running - {id}) && (finished + {id}) !! (running - {id})
  {
  }

  lemma SubmitAccounted<R>(nodes: seq<Node>, s: Round<R>, i: nat)
    requires Accounted(nodes, s) && i < |nodes| && nodes[i].id !in s.submitted
    ensures Accounted(nodes, Submit(s, nodes[i]))
  {
    KeysAfterUpdate(s.pending, nodes[i].id, Restrict(s.results, nodes[i].upstream));
    Joined(s.submitted, s.results.Keys, s.pending.Keys, nodes[i].id);
    assert nodes[i].id in NodeIds(nodes);
  }

  lemma Joined(all: set<string>, finished: set<string>, running: set<string>, id: string)
    requires all == finished + running && finished !! running && id !in all
    ensures all + {id} == finished + (running + {id}) && finished !! (running + {id})
  {
  }

  lemma RankGrows<R>(nodes: seq<Node>, results: map<string, R>, rank: map<string, nat>, i: nat, x: R)
    requires DistinctNodes(nodes) && i < |nodes| && nodes[i].id !in results && nodes[i].upstream <= results.Keys
    requires Ordered(nodes, results, rank)
    ensures Ordered(nodes, results[nodes[i].id := x], rank[nodes[i].id := |results|])
  {
    var after, ranks := results[nodes[i].id := x], rank[nodes[i].id := |results|];
    KeysAfterUpdate(results, nodes[i].id, x);
    KeysAfterUpdate(rank, nodes[i].id, |results|);
    forall j | 0 <= j < |nodes| && nodes[j].id in after
      ensures forall d :: d in nodes[j].upstream ==> d in ranks && ranks[d] < ranks[nodes[j].id]
    {
      assert j != i ==> nodes[j].id in results;
    }
  }

  /** The results after one more completion are consistent and ordered. */
  lemma CompleteResults<R(!new), E>(nodes: seq<Node>, execute: Execute<R, E>, s: Round<R>, id: string, x: R,
                                    t: Round<R>)
    requires DistinctNodes(nodes) && Consistent(nodes, execute, s.results) && Ordered(nodes, s.results, s.rank)
    requires id in s.pending && id !in s.results && PendingOk(nodes, s, id, s.pending[id])
    requires execute(id, s.pending[id]) == Success(x) && t == Complete(s, id, x)
    ensures Consistent(nodes, execute, t.results) && Ordered(nodes, t.results, t.rank)
  {
    var i :| 0 <= i < |nodes| && nodes[i].id == id && nodes[i].upstream <= s.results.Keys
             && s.pending[id] == Restrict(s.results, nodes[i].upstream);
    GrowConsistent(nodes, execute, s.results, i, x);
    RankGrows(nodes, s.results, s.rank, i, x);
  }

  lemma CompleteKeepsRound<R(!new), E>(nodes: seq<Node>, execute: Execute<R, E>, s: Round<R>, id: string, x: R)
    requires DistinctNodes(nodes) && RoundOk(nodes, execute, s)
    requires id in s.pending && execute(id, s.pending[id]) == Success(x)
    ensures RoundOk(nodes, execute, Complete(s, id, x))
    ensures |Complete(s, id, x).results| == |s.results| + 1
    ensures Complete(s, id, x).pending.Keys == s.pending.Keys - {id}
  {
    KeysAfterRemoval(s.pending, id);
    var t := Complete(s, id, x);
    assert PendingOk(nodes, s, id, s.pending[id]);
    CompleteResults(nodes, execute, s, id, x, t);
    assert Recorded(nodes, execute, t) by {
      AppendCompleted(nodes, execute, s.trace, id, s.pending[id], x);
    }
    assert AllPendingOk(nodes, t) by {
      CompletePending(nodes, s, id, x);
    }
    CompleteAccounted(nodes, s, id, x);
  }

  lemma WaitsForAnother(nodes: seq<Node>, finished: set<string>, rank: map<string, nat>, i: nat) returns (j: nat)
    requires Ranked(nodes, rank) && i < |nodes| && !(nodes[i].upstream <= finished)
    ensures j < |nodes| && nodes[j].id !in finished && rank[nodes[j].id] < rank[nodes[i].id]
  {
    var d :| d in nodes[i].upstream && d !in finished;
    j :| 0 <= j < |nodes| && nodes[j].id == d;
  }

  /** A round without running work has a node that waits for itself: no ranking exists. */
  lemma {:induction false} StuckHasNoRank(nodes: seq<Node>, finished: set<string>, rank: map<string, nat>, i: nat)
    requires Ranked(nodes, rank) && i < |nodes| && nodes[i].id !in finished
    requires forall j {:trigger nodes[j]} :: 0 <= j < |nodes| && nodes[j].id !in finished ==>
              !(nodes[j].upstream <= finished)
    ensures false
    decreases rank[nodes[i].id]
  {
    var j := WaitsForAnother(nodes, finished, rank, i);
    StuckHasNoRank(nodes, finished, rank, j);
  }

  lemma {:induction false} NodeIdsCount(nodes: seq<Node>)
    requires DistinctNodes(nodes)
    ensures |NodeIds(nodes)| == |nodes|
  {
    if nodes != [] {
      var rest := nodes[..|nodes| - 1];
      NodeIdsCount(rest);
      LastNodeId(nodes);
    }
  }

  lemma LastNodeId(nodes: seq<Node>)
    requires DistinctNodes(nodes) && nodes != []
    ensures var rest, id := nodes[..|nodes| - 1], nodes[|nodes| - 1].id;
            NodeIds(nodes) == NodeIds(rest) + {id} && id !in NodeIds(rest)
  {
    var rest, id := nodes[..|nodes| - 1], nodes[|nodes| - 1].id;
    forall x
      ensures x in NodeIds(nodes) <==> x in NodeIds(rest) || x == id
    {
      if i :| 0 <= i < |nodes| && nodes[i].id == x {
        assert i < |rest| ==> rest[i].id == x;
      }
      if i :| 0 <= i < |rest| && rest[i].id == x {
        assert nodes[i].id == x;
      }
    }
  }

  lemma StuckMeansCyclic<R>(nodes: seq<Node>, s: Round<R>)
    requires DistinctNodes(nodes) && Accounted(nodes, s) && s.pending == map[] && |s.results| < |nodes|
    requires NoneReady(nodes, |nodes|, s)
    ensures forall rank :: !Ranked(nodes, rank)
  {
    var results := s.results;
    NodeIdsCount(nodes);
    forall j | 0 <= j < |nodes| && nodes[j].id !in results
      ensures !(nodes[j].upstream <= results.Keys)
    {
      assert NotReady(nodes[j], s);
    }
    assert |results.Keys| == |results|;
    if NodeIds(nodes) <= results.Keys {
      SubsetSize(NodeIds(nodes), results.Keys);
    }
    var id :| id in NodeIds(nodes) && id !in results;
    var i :| 0 <= i < |nodes| && nodes[i].id == id;
    forall rank | Ranked(nodes, rank)
      ensures false
    {
      StuckHasNoRank(nodes, results.Keys, rank, i);
    }
  }

  lemma AllResultsEvaluate<R(!new), E>(nodes: seq<Node>, execute: Execute<R, E>, s: Round<R>)
    requires DistinctNodes(nodes) && RoundOk(nodes, execute, s) && |s.results| >= |nodes|
    ensures Evaluates(nodes, execute, s.results) && Ranked(nodes, s.rank)
    ensures SubmittedIn(s.trace) == NodeIds(nodes) && CompletedIn(s.trace) == s.results && s.pending == map[]
  {
    NodeIdsCount(nodes);
    assert |s.results.Keys| == |s.results|;
    SubsetSize(s.results.Keys, NodeIds(nodes));
    assert forall id :: id in s.pending ==> id in s.submitted;
    forall i | 0 <= i < |nodes|
      ensures nodes[i].id in s.results && nodes[i].upstream <= s.results.Keys
    {
      assert nodes[i].id in NodeIds(nodes);
      assert Justified(nodes[i], execute, s.results);
    }
  }

  /** An error a node raises from results that are already established. */
  ghost predicate RaisedBy<R, E>(nodes: seq<Node>, execute: Execute<R, E>, m: map<string, R>, id: string, error: E) {
    && Consistent(nodes, execute, m)
    && exists i :: 0 <= i < |nodes| && nodes[i].id == id && nodes[i].upstream <= m.Keys
         && execute(id, Restrict(m, nodes[i].upstream)) == Failure(error)
  }

  /** The node is submitted already, or a dependency of it is not finished. */
  predicate NotReady<R>(n: Node, s: Round<R>) {
    n.id in s.submitted || !(n.upstream <= s.results.Keys)
  }

  /** None of the first `n` nodes can be submitted. */
  ghost predicate NoneReady<R>(nodes: seq<Node>, n: nat, s: Round<R>)
    requires n <= |nodes|
  {
    forall j :: 0 <= j < n ==> NotReady(nodes[j], s)
  }

  lemma SubmittedIsNotReady<R>(nodes: seq<Node>, i: nat, s: Round<R>, t: Round<R>)
    requires i < |nodes| && NoneReady(nodes, i, s)
    requires if NotReady(nodes[i], s) then t == s else t == Submit(s, nodes[i])
    ensures NoneReady(nodes, i + 1, t)
  {
    forall j | 0 <= j < i + 1
      ensures NotReady(nodes[j], t)
    {
      assert j < i ==> NotReady(nodes[j], s);
    }
  }

  /** One pass over the nodes: everything ready is submitted. */
  method SubmitReady<R(!new), E>(nodes: seq<Node>, execute: Execute<R, E>, s: Round<R>) returns (t: Round<R>)
    requires RoundOk(nodes, execute, s)
    ensures RoundOk(nodes, execute, t) && t.results == s.results
    ensures NoneReady(nodes, |nodes|, t)
  {
    t := s;
    for i := 0 to |nodes|
      invariant RoundOk(nodes, execute, t) && t.results == s.results
      invariant NoneReady(nodes, i, t)
    {
      ghost var before := t;
      if !NotReady(nodes[i], t) {
        SubmitKeepsRound(nodes, execute, t, i);
        t := Submit(t, nodes[i]);
      }
      SubmittedIsNotReady(nodes, i, before, t);
    }
  }

  /** Taking one finished piece of work out of the running ones. */
  method CollectOne<R(!new), E>(nodes: seq<Node>, execute: Execute<R, E>, s: Round<R>, id: string)
    returns (t: Round<R>, error: Option<RunError<E>>)
    requires DistinctNodes(nodes) && RoundOk(nodes, execute, s) && id in s.pending
    ensures RoundOk(nodes, execute, t)
    ensures error.None? ==> |t.results| == |s.results| + 1 && t.pending.Keys == s.pending.Keys - {id}
    ensures error.Some? ==>
              error.value.Raised? && t == s && RaisedBy(nodes, execute, t.results, error.value.id, error.value.error)
  {
    var x := execute(id, s.pending[id]);
    match x
    case Failure(e) =>
      assert PendingOk(nodes, s, id, s.pending[id]);
      return s, Some(Raised(id, e));
    case Success(value) =>
      CompleteKeepsRound(nodes, execute, s, id, value);
      return Complete(s, id, value), None;
  }

  lemma Without(a: set<string>, b: set<string>, id: string)
    requires a <= b && id in a
    ensures a - {id} <= b - {id} && a - {id} < a
  {
  }

  /** Collecting a batch of finished work; the first error found stops the run. */
  method Collect<R(!new), E>(nodes: seq<Node>, execute: Execute<R, E>, s: Round<R>, batch: set<string>)
    returns (t: Round<R>, error: Option<RunError<E>>)
    requires DistinctNodes(nodes) && RoundOk(nodes, execute, s) && batch <= s.pending.Keys && batch != {}
    ensures RoundOk(nodes, execute, t)
    ensures error.None? ==> |t.results| > |s.results|
    ensures error.Some? ==>
              error.value.Raised? && RaisedBy(nodes, execute, t.results, error.value.id, error.value.error)
  {
    t, error := s, None;
    var done := batch;
    while done != {}
      invariant RoundOk(nodes, execute, t) && done <= t.pending.Keys
      invariant |t.results| >= |s.results| && (done == {} ==> |t.results| > |s.results|)
      invariant error.None?
      decreases done
    {
      var id :| id in done;
      Without(done, t.pending.Keys, id);
      t, error := CollectOne(nodes, execute, t, id);
      if error.Some? {
        return;
      }
      done := done - {id};
    }
  }

  /** The loop with nondeterministic completion; work still pending at the end is cancelled.

      Success evaluates every node; "cannot make progress" is raised only if the graph has no ranking;
      an error raised by a node is one `execute` gives for results already established. */
  method RunReady<R(!new), E(!new)>(nodes: seq<Node>, execute: Execute<R, E>)
    returns (r: Result<map<string, R>, RunError<E>>, end: Round<R>)
    requires DistinctNodes(nodes)
    ensures TraceOk(nodes, execute, end.trace)
    ensures r.Success? ==>
              && r.value == end.results == CompletedIn(end.trace)
              && Evaluates(nodes, execute, r.value) && Ranked(nodes, end.rank)
              && SubmittedIn(end.trace) == NodeIds(nodes) && end.pending == map[]
    ensures r.Failure? && r.error.CannotProgress? ==> end.pending == map[] && forall any :: !Ranked(nodes, any)
    ensures r.Failure? && r.error.Raised? ==>
              RaisedBy(nodes, execute, CompletedIn(end.trace), r.error.id, r.error.error)
  {
    end := Round(map[], {}, map[], [], map[]);
    while |end.results| < |nodes|
      invariant RoundOk(nodes, execute, end)
      decreases |nodes| - |end.results|
    {
      end := SubmitReady(nodes, execute, end);
      if end.pending == map[] {
        StuckMeansCyclic(nodes, end);
        return Failure(CannotProgress), end;
      }
      var batch := SomeFinished(end.pending);
      var error: Option<RunError<E>>;
      end, error := Collect(nodes, execute, end, batch);
      if error.Some? {
        return Failure(error.value), end;
      }
    }
    AllResultsEvaluate(nodes, execute, end);
    return Success(end.results), end;
  }

  /** `asyncio.wait(..., FIRST_COMPLETED)`: any non-empty part of the running work. */
  method SomeFinished<R>(pending: map<string, R>) returns (done: set<string>)
    requires pending != map[]
    ensures done != {} && done <= pending.Keys
  {
    var first :| first in pending.Keys;
    var others: set<string> := *;
    done := {first} + (others * pending.Keys);
  }

  // ---------------------------------------------------------------- confluence

  /** In a ranked graph two evaluations agree on every node. */
  lemma {:induction false} EvaluationIsUnique<R, E>(nodes: seq<Node>, execute: Execute<R, E>, rank: map<string, nat>,
                                                    a: map<string, R>, b: map<string, R>, i: nat)
    requires Ranked(nodes, rank) && Evaluates(nodes, execute, a) && Evaluates(nodes, execute, b) && i < |nodes|
    ensures nodes[i].id in a && nodes[i].id in b && a[nodes[i].id] == b[nodes[i].id]
    decreases rank[nodes[i].id]
  {
    assert nodes[i].id in NodeIds(nodes);
    assert Justified(nodes[i], execute, a) && Justified(nodes[i], execute, b);
    forall d | d in nodes[i].upstream
      ensures a[d] == b[d]
    {
      var j :| 0 <= j < |nodes| && nodes[j].id == d;
      EvaluationIsUnique(nodes, execute, rank, a, b, j);
    }
    assert Restrict(a, nodes[i].upstream) == Restrict(b, nodes[i].upstream);
  }

  /** The scheduler graph of a plan whose dependencies are all known. */
  function NodesOf(tasks: seq<Task>): seq<Node> {
    seq(|tasks|, i requires 0 <= i < |tasks| => Node(tasks[i].id, set d | d in tasks[i].dependsOn))
  }

  /** The same for any plan: a task waits for the dependencies that are tasks of the plan. */
  function KnownNodesOf(tasks: seq<Task>): seq<Node> {
    seq(|tasks|, i requires 0 <= i < |tasks| => Node(tasks[i].id, KnownDeps(tasks, tasks[i])))
  }

  lemma NodesAreKnown(tasks: seq<Task>)
    requires AllDepsKnown(tasks)
    ensures KnownNodesOf(tasks) == NodesOf(tasks)
  {
    forall i | 0 <= i < |tasks|
      ensures KnownDeps(tasks, tasks[i]) == set d | d in tasks[i].dependsOn
    {
      forall d | d in tasks[i].dependsOn
        ensures d in KnownDeps(tasks, tasks[i])
      {
        var h :| 0 <= h < |tasks[i].dependsOn| && tasks[i].dependsOn[h] == d;
      }
    }
  }

  /** Level-by-level execution: every task of a level sees the results of the levels before it. */
  function RunLevel<R, E>(level: seq<Task>, execute: Execute<R, E>, seen: map<string, R>): Result<map<string, R>, E> {
    if level == [] then Success(seen)
    else
      var t := level[|level| - 1];
      match RunLevel(level[..|level| - 1], execute, seen)
      case Failure(e) => Failure(e)
      case Success(m) =>
        match execute(t.id, Restrict(seen, set d | d in t.dependsOn))
        case Failure(e) => Failure(e)
        case Success(x) => Success(m[t.id := x])
  }

  function RunLevels<R, E>(levels: seq<seq<Task>>, execute: Execute<R, E>): Result<map<string, R>, E> {
    if levels == [] then Success(map[])
    else
      match RunLevels(levels[..|levels| - 1], execute)
      case Failure(e) => Failure(e)
      case Success(seen) => RunLevel(levels[|levels| - 1], execute, seen)
  }

  /** Results of exactly the tasks in the first `n` levels. */
  ghost predicate Covers<R>(tasks: seq<Task>, levels: seq<seq<Task>>, n: nat, m: map<string, R>)
    requires n <= |levels|
  {
    forall id :: id in m <==> exists k, t :: 0 <= k < n && t in levels[k] && t.id == id
  }

  lemma LevelMember(tasks: seq<Task>, levels: seq<seq<Task>>, k: nat, t: Task)
    requires Levelled(tasks, levels) && k < |levels| && t in levels[k]
    ensures t in tasks && t.id in Ids(tasks)
  {
    AtDepthMembers(tasks, tasks, k, t);
    var i :| 0 <= i < |tasks| && tasks[i] == t;
  }

  /** When a level starts, the results its tasks need are there; names that are not in the plan never
      have one. */
  lemma DepsAreSeen<R>(tasks: seq<Task>, levels: seq<seq<Task>>, n: nat, m: map<string, R>, t: Task)
    requires DistinctIds(tasks) && Levelled(tasks, levels)
    requires n < |levels| && t in levels[n] && Covers(tasks, levels, n, m)
    ensures KnownDeps(tasks, t) <= m.Keys
    ensures Restrict(m, set d | d in t.dependsOn) == Restrict(m, KnownDeps(tasks, t))
  {
    LevelMember(tasks, levels, n, t);
    forall d | d in KnownDeps(tasks, t)
      ensures d in m
    {
      var j :| 0 <= j < |tasks| && tasks[j].id == d;
      var k := LevelOfTask(tasks, levels, tasks[j]);
      DepsAreLower(tasks, levels, t, tasks[j], k, n);
    }
    forall d | d in t.dependsOn && d in m
      ensures d in KnownDeps(tasks, t)
    {
      var k, u :| 0 <= k < n && u in levels[k] && u.id == d;
      LevelMember(tasks, levels, k, u);
      var h :| 0 <= h < |t.dependsOn| && t.dependsOn[h] == d;
    }
  }

  /** Later results do not change what a task with all its dependencies seen is given. */
  lemma SameArguments<R>(seen: map<string, R>, m: map<string, R>, up: set<string>)
    requires forall id :: id in seen ==> id in m && m[id] == seen[id]
    requires forall d :: d in up ==> d in seen
    ensures Restrict(m, up) == Restrict(seen, up) && up <= m.Keys
  {
  }

  lemma NodeOfTask(tasks: seq<Task>, levels: seq<seq<Task>>, n: nat, t: Task) returns (i: nat)
    requires Levelled(tasks, levels) && n < |levels| && t in levels[n]
    ensures i < |tasks| && KnownNodesOf(tasks)[i] == Node(t.id, KnownDeps(tasks, t))
  {
    LevelMember(tasks, levels, n, t);
    i :| 0 <= i < |tasks| && tasks[i] == t;
  }

  /** One more task of a level joins the results. */
  lemma LevelStep<R(!new), E>(tasks: seq<Task>, levels: seq<seq<Task>>, n: nat, execute: Execute<R, E>,
                              seen: map<string, R>, m: map<string, R>, t: Task, x: R)
    requires DistinctIds(tasks) && Levelled(tasks, levels) && n < |levels| && t in levels[n]
    requires Covers(tasks, levels, n, seen) && (forall id :: id in seen ==> id in m && m[id] == seen[id])
    requires Consistent(KnownNodesOf(tasks), execute, m)
    requires execute(t.id, Restrict(seen, set d | d in t.dependsOn)) == Success(x)
    ensures Consistent(KnownNodesOf(tasks), execute, m[t.id := x])
    ensures t.id in m ==> m[t.id] == x
  {
    var up := KnownDeps(tasks, t);
    DepsAreSeen(tasks, levels, n, seen, t);
    SameArguments(seen, m, up);
    var i := NodeOfTask(tasks, levels, n, t);
    KnownNodesAreDistinct(tasks);
    if t.id !in m {
      GrowConsistent(KnownNodesOf(tasks), execute, m, i, x);
    } else {
      assert Justified(KnownNodesOf(tasks)[i], execute, m);
      assert m[t.id := x] == m;
    }
  }

  /** Results of the earlier levels and of the first `p` tasks of this one. */
  ghost predicate LevelKeys<R>(level: seq<Task>, p: nat, seen: map<string, R>, m: map<string, R>)
    requires p <= |level|
  {
    && (forall id :: id in seen ==> id in m && m[id] == seen[id])
    && (forall id :: id in m <==> id in seen || exists q :: 0 <= q < p && level[q].id == id)
  }

  lemma LevelKeysStep<R>(level: seq<Task>, p: nat, seen: map<string, R>, m: map<string, R>, x: R)
    requires p < |level| && LevelKeys(level, p, seen, m)
    requires level[p].id in m ==> m[level[p].id] == x
    ensures LevelKeys(level, p + 1, seen, m[level[p].id := x])
  {
    var n := m[level[p].id := x];
    forall id
      ensures id in n <==> id in seen || exists q :: 0 <= q < p + 1 && level[q].id == id
    {
      if id in n && id !in m {
        assert level[p].id == id;
      }
    }
  }

  lemma {:induction false} LevelIsConsistent<R(!new), E>(tasks: seq<Task>, levels: seq<seq<Task>>, n: nat,
                                                         execute: Execute<R, E>, seen: map<string, R>, p: nat)
    requires DistinctIds(tasks) && Levelled(tasks, levels) && n < |levels| && p <= |levels[n]|
    requires Consistent(KnownNodesOf(tasks), execute, seen) && Covers(tasks, levels, n, seen)
    requires RunLevel(levels[n][..p], execute, seen).Success?
    ensures var m := RunLevel(levels[n][..p], execute, seen).value;
            Consistent(KnownNodesOf(tasks), execute, m) && LevelKeys(levels[n], p, seen, m)
    decreases p
  {
    if p > 0 {
      var level := levels[n];
      var t := level[p - 1];
      assert level[..p][..p - 1] == level[..p - 1] && level[..p][p - 1] == t;
      LevelIsConsistent(tasks, levels, n, execute, seen, p - 1);
      var m := RunLevel(level[..p - 1], execute, seen).value;
      var x := execute(t.id, Restrict(seen, set d | d in t.dependsOn)).value;
      LevelStep(tasks, levels, n, execute, seen, m, t, x);
      LevelKeysStep(level, p - 1, seen, m, x);
    }
  }

  lemma NodesAreDistinct(tasks: seq<Task>)
    requires DistinctIds(tasks)
    ensures DistinctNodes(NodesOf(tasks)) && NodeIds(NodesOf(tasks)) == Ids(tasks)
  {
    var nodes := NodesOf(tasks);
    assert forall i :: 0 <= i < |tasks| ==> nodes[i].id == tasks[i].id;
  }

  lemma KnownNodesAreDistinct(tasks: seq<Task>)
    requires DistinctIds(tasks)
    ensures DistinctNodes(KnownNodesOf(tasks)) && NodeIds(KnownNodesOf(tasks)) == Ids(tasks)
  {
    var nodes := KnownNodesOf(tasks);
    assert forall i :: 0 <= i < |tasks| ==> nodes[i].id == tasks[i].id;
  }

  lemma CoversMore<R>(tasks: seq<Task>, levels: seq<seq<Task>>, n: nat, seen: map<string, R>, m: map<string, R>)
    requires n < |levels| && Covers(tasks, levels, n, seen) && LevelKeys(levels[n], |levels[n]|, seen, m)
    ensures Covers(tasks, levels, n + 1, m)
  {
    var level := levels[n];
    forall id
      ensures id in m <==> exists k, t :: 0 <= k < n + 1 && t in levels[k] && t.id == id
    {
      if id in m && id !in seen {
        var q :| 0 <= q < |level| && level[q].id == id;
        assert level[q] in levels[n];
      }
      if k, t :| 0 <= k < n + 1 && t in levels[k] && t.id == id {
        if k == n {
          var q :| 0 <= q < |level| && level[q] == t;
        }
      }
    }
  }

  lemma {:induction false} LevelsAreConsistent<R(!new), E>(tasks: seq<Task>, levels: seq<seq<Task>>, n: nat,
                                                           execute: Execute<R, E>)
    requires DistinctIds(tasks) && Levelled(tasks, levels) && n <= |levels|
    requires RunLevels(levels[..n], execute).Success?
    ensures var m := RunLevels(levels[..n], execute).value;
            Consistent(KnownNodesOf(tasks), execute, m) && Covers(tasks, levels, n, m)
    decreases n
  {
    if n > 0 {
      assert levels[..n][..n - 1] == levels[..n - 1] && levels[..n][n - 1] == levels[n - 1];
      LevelsAreConsistent(tasks, levels, n - 1, execute);
      var seen := RunLevels(levels[..n - 1], execute).value;
      var level := levels[n - 1];
      assert level[..|level|] == level;
      LevelIsConsistent(tasks, levels, n - 1, execute, seen, |level|);
      CoversMore(tasks, levels, n - 1, seen, RunLevels(levels[..n], execute).value);
    }
  }

  lemma AllLevelsCoverAll<R>(tasks: seq<Task>, levels: seq<seq<Task>>, m: map<string, R>)
    requires Levelled(tasks, levels) && Covers(tasks, levels, |levels|, m)
    ensures m.Keys == Ids(tasks)
  {
    forall id
      ensures id in m <==> id in Ids(tasks)
    {
      if id in Ids(tasks) {
        var i :| 0 <= i < |tasks| && tasks[i].id == id;
        var k := LevelOfTask(tasks, levels, tasks[i]);
      }
      if id in m {
        var k, t :| 0 <= k < |levels| && t in levels[k] && t.id == id;
        LevelMember(tasks, levels, k, t);
      }
    }
  }

  /** A finished level-by-level run evaluates the plan, whether or not its dependencies are all known. */
  lemma LevelsEvaluateKnown<R(!new), E>(tasks: seq<Task>, levels: seq<seq<Task>>, execute: Execute<R, E>)
    requires DistinctIds(tasks) && Levelled(tasks, levels) && RunLevels(levels, execute).Success?
    ensures Evaluates(KnownNodesOf(tasks), execute, RunLevels(levels, execute).value)
  {
    assert levels[..|levels|] == levels;
    LevelsAreConsistent(tasks, levels, |levels|, execute);
    AllLevelsCoverAll(tasks, levels, RunLevels(levels, execute).value);
    KnownNodesAreDistinct(tasks);
  }

  lemma LevelsEvaluate<R(!new), E>(tasks: seq<Task>, levels: seq<seq<Task>>, execute: Execute<R, E>)
    requires DistinctIds(tasks) && AllDepsKnown(tasks) && Levelled(tasks, levels) && RunLevels(levels, execute).Success?
    ensures Evaluates(NodesOf(tasks), execute, RunLevels(levels, execute).value)
  {
    LevelsEvaluateKnown(tasks, levels, execute);
    NodesAreKnown(tasks);
  }

  /** Levels rank a plan without unknown dependencies, so the scheduler never gets stuck on it. */
  lemma LevelsRank(tasks: seq<Task>, levels: seq<seq<Task>>) returns (rank: map<string, nat>)
    requires DistinctIds(tasks) && AllDepsKnown(tasks) && Levelled(tasks, levels)
    ensures Ranked(NodesOf(tasks), rank)
  {
    var nodes := NodesOf(tasks);
    NodesAreDistinct(tasks);
    rank := map id | id in Ids(tasks) :: RankOf(tasks, id);
    forall i | 0 <= i < |nodes|
      ensures nodes[i].id in rank && nodes[i].upstream <= NodeIds(nodes)
      ensures forall d :: d in nodes[i].upstream ==> d in rank && rank[d] < rank[nodes[i].id]
    {
      forall d | d in nodes[i].upstream
        ensures d in rank && rank[d] < rank[nodes[i].id]
      {
        assert d in tasks[i].dependsOn;
        var j :| 0 <= j < |tasks| && tasks[j].id == d;
        var k := LevelOfTask(tasks, levels, tasks[j]);
        var l := LevelOfTask(tasks, levels, tasks[i]);
        var h :| 0 <= h < |tasks[i].dependsOn| && tasks[i].dependsOn[h] == d;
        DepsAreLower(tasks, levels, tasks[i], tasks[j], k, l);
        RankIsDepth(tasks, levels, tasks[j], k);
        RankIsDepth(tasks, levels, tasks[i], l);
      }
    }
  }

  ghost function RankOf(tasks: seq<Task>, id: string): nat {
    if exists k: nat :: Depth(tasks, id, k) then var k: nat :| Depth(tasks, id, k); k else 0
  }

  lemma RankIsDepth(tasks: seq<Task>, levels: seq<seq<Task>>, t: Task, k: nat)
    requires Levelled(tasks, levels) && k < |levels| && t in levels[k]
    ensures RankOf(tasks, t.id) == k
  {
    AtDepthMembers(tasks, tasks, k, t);
    DepthIsUnique(tasks, t.id, k, RankOf(tasks, t.id));
  }

  /** Confluence: whatever the completion order was, a finished evaluation of a validated and levelled
      plan is the level-by-level one. */
  lemma ConfluentWithLevels<R(!new), E>(tasks: seq<Task>, levels: seq<seq<Task>>, execute: Execute<R, E>,
                                        m: map<string, R>)
    requires DistinctIds(tasks) && AllDepsKnown(tasks) && Levelled(tasks, levels)
    requires Evaluates(NodesOf(tasks), execute, m) && RunLevels(levels, execute).Success?
    ensures RunLevels(levels, execute) == Success(m)
  {
    LevelsEvaluate(tasks, levels, execute);
    var rank := LevelsRank(tasks, levels);
    SameEvaluation(NodesOf(tasks), execute, rank, m, RunLevels(levels, execute).value);
  }

  lemma SameEvaluation<R(!new), E>(nodes: seq<Node>, execute: Execute<R, E>, rank: map<string, nat>, m: map<string, R>,
                                   n: map<string, R>)
    requires Ranked(nodes, rank) && Evaluates(nodes, execute, m) && Evaluates(nodes, execute, n)
    ensures m == n
  {
    forall id | id in m
      ensures m[id] == n[id]
    {
      var i :| 0 <= i < |nodes| && nodes[i].id == id;
      EvaluationIsUnique(nodes, execute, rank, m, n, i);
    }
  }

  /** On a validated and levelled plan with an `execute` that never fails, every schedule ends with the
      level-by-level results: no progress error, no cancelled work. */
  method RunPlan<R(!new), E(!new)>(tasks: seq<Task>, levels: seq<seq<Task>>, execute: Execute<R, E>)
    returns (r: Result<map<string, R>, RunError<E>>)
    requires DistinctIds(tasks) && AllDepsKnown(tasks) && Levelled(tasks, levels)
    ensures r.Failure? ==>
              r.error.Raised? && exists m :: RaisedBy(NodesOf(tasks), execute, m, r.error.id, r.error.error)
    ensures (forall id, up :: execute(id, up).Success?) ==> r.Success?
    ensures r.Success? ==> Evaluates(NodesOf(tasks), execute, r.value)
    ensures r.Success? && RunLevels(levels, execute).Success? ==> RunLevels(levels, execute) == Success(r.value)
  {
    NodesAreDistinct(tasks);
    ghost var rank := LevelsRank(tasks, levels);
    var end: Round<R>;
    r, end := RunReady(NodesOf(tasks), execute);
    if r.Success? && RunLevels(levels, execute).Success? {
      ConfluentWithLevels(tasks, levels, execute, r.value);
    }
  }

  /** A level fails with an error that `execute` gives for one of its tasks. */
  lemma {:induction false} LevelFails<R, E>(level: seq<Task>, execute: Execute<R, E>, seen: map<string, R>)
    returns (t: Task, up: map<string, R>)
    requires RunLevel(level, execute, seen).Failure?
    ensures t in level && execute(t.id, up) == Failure(RunLevel(level, execute, seen).error)
  {
    if RunLevel(level[..|level| - 1], execute, seen).Failure? {
      t, up := LevelFails(level[..|level| - 1], execute, seen);
    } else {
      t := level[|level| - 1];
      up := Restrict(seen, set d | d in t.dependsOn);
    }
  }

  /** Level-by-level execution never fails when `execute` never does. */
  lemma {:induction false} LevelsSucceed<R, E>(levels: seq<seq<Task>>, execute: Execute<R, E>)
    requires forall id, up :: execute(id, up).Success?
    ensures RunLevels(levels, execute).Success?
  {
    if levels != [] {
      LevelsSucceed(levels[..|levels| - 1], execute);
      LevelSucceeds(levels[|levels| - 1], execute, RunLevels(levels[..|levels| - 1], execute).value);
    }
  }

  lemma {:induction false} LevelSucceeds<R, E>(level: seq<Task>, execute: Execute<R, E>, seen: map<string, R>)
    requires forall id, up :: execute(id, up).Success?
    ensures RunLevel(level, execute, seen).Success?
  {
    if level != [] {
      LevelSucceeds(level[..|level| - 1], execute, seen);
    }
  }
}
