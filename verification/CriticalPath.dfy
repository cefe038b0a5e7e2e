/** The critical path of one attempt: the heaviest dependency chain of a registered graph. */
module CriticalPath {
  import opened DagTypes
  import opened TaskGraph

  /** A node with its dependencies, in registration order. */
  datatype Entry = Entry(id: string, deps: seq<string>)

  datatype Path = Path(nodes: seq<string>, executionMs: real, complete: bool)

  datatype Score = Score(ms: real, chain: seq<string>)

  predicate DistinctEntries(g: seq<Entry>) {
    forall i, j :: 0 <= i < j < |g| ==> g[i].id != g[j].id
  }

  /** Dependencies on nodes of the graph are registered before their dependents. */
  predicate InOrder(g: seq<Entry>) {
    forall i, j :: 0 <= i < |g| && 0 <= j < |g| && g[j].id in g[i].deps ==> j < i
  }

  /** A missing record counts as no time. */
  function Time(times: map<string, real>, id: string): real {
    if id in times then times[id] else 0.0
  }

  function Weight(times: map<string, real>, c: seq<string>): real {
    if c == [] then 0.0 else Weight(times, c[..|c| - 1]) + Time(times, c[|c| - 1])
  }

  ghost predicate DependsOn(g: seq<Entry>, id: string, d: string) {
    exists i :: 0 <= i < |g| && g[i].id == id && d in g[i].deps
  }

  ghost predicate InGraph(g: seq<Entry>, id: string) {
    exists i :: 0 <= i < |g| && g[i].id == id
  }

  /** Nodes of the graph, each a dependency of the next. */
  ghost predicate DependencyChain(g: seq<Entry>, c: seq<string>) {
    && c != []
    && (forall i :: 0 <= i < |c| ==> InGraph(g, c[i]))
    && (forall i :: 0 <= i < |c| - 1 ==> DependsOn(g, c[i + 1], c[i]))
  }

  /** The heaviest chain that ends at `id`. */
  ghost predicate Heaviest(g: seq<Entry>, times: map<string, real>, id: string, s: Score) {
    && DependencyChain(g, s.chain) && s.chain[|s.chain| - 1] == id
    && s.ms == Weight(times, s.chain) && s.ms >= 0.0
    && forall c :: DependencyChain(g, c) && c[|c| - 1] == id ==> Weight(times, c) <= s.ms
  }

  predicate Nonnegative(times: map<string, real>) {
    forall id :: id in times ==> times[id] >= 0.0
  }

  /** The first `n` nodes have scores, and every score is that of a heaviest chain. */
  ghost predicate Scored(g: seq<Entry>, times: map<string, real>, n: nat, scores: map<string, Score>) {
    && n <= |g|
    && (forall j :: 0 <= j < n ==> g[j].id in scores)
    && forall d {:trigger Heaviest(g, times, d, scores[d])} :: d in scores ==> Heaviest(g, times, d, scores[d])
  }

  lemma OneMoreScore(g: seq<Entry>, times: map<string, real>, n: nat, scores: map<string, Score>, s: Score)
    requires Scored(g, times, n, scores) && n < |g| && Heaviest(g, times, g[n].id, s)
    ensures Scored(g, times, n + 1, scores[g[n].id := s])
  {
    var more := scores[g[n].id := s];
    forall d | d in more
      ensures Heaviest(g, times, d, more[d])
    {
      assert d != g[n].id ==> Heaviest(g, times, d, scores[d]);
    }
  }

  lemma ScoresAreNonnegative(g: seq<Entry>, times: map<string, real>, n: nat, scores: map<string, Score>)
    requires Scored(g, times, n, scores)
    ensures forall d :: d in scores ==> scores[d].ms >= 0.0
  {
    forall d | d in scores
      ensures scores[d].ms >= 0.0
    {
      assert Heaviest(g, times, d, scores[d]);
    }
  }

  /** `max(..., default=(0.0, []))` over the scored dependencies, the first one winning a tie. */
  method BestDependency(deps: seq<string>, scores: map<string, Score>) returns (best: Score)
    requires forall d :: d in scores ==> scores[d].ms >= 0.0
    ensures best.ms >= 0.0
    ensures (forall d :: d in deps ==> d !in scores) ==> best == Score(0.0, [])
    ensures (exists d :: d in deps && d in scores) ==>
              exists i :: 0 <= i < |deps| && deps[i] in scores && best == scores[deps[i]]
    ensures forall d :: d in deps && d in scores ==> scores[d].ms <= best.ms
  {
    best := Score(0.0, []);
    var found := false;
    for i := 0 to |deps|
      invariant best.ms >= 0.0
      invariant found <==> exists j :: 0 <= j < i && deps[j] in scores
      invariant !found ==> best == Score(0.0, [])
      invariant found ==> exists j :: 0 <= j < i && deps[j] in scores && best == scores[deps[j]]
      invariant forall j :: 0 <= j < i && deps[j] in scores ==> scores[deps[j]].ms <= best.ms
    {
      if deps[i] in scores && (!found || scores[deps[i]].ms > best.ms) {
        best, found := scores[deps[i]], true;
      }
    }
  }

  lemma ChainInit(g: seq<Entry>, c: seq<string>)
    requires DependencyChain(g, c) && |c| > 1
    ensures DependencyChain(g, c[..|c| - 1]) && DependsOn(g, c[|c| - 1], c[|c| - 2])
  {
    var d := c[..|c| - 1];
    forall i | 0 <= i < |d| - 1
      ensures DependsOn(g, d[i + 1], d[i])
    {
      assert DependsOn(g, c[i + 1], c[i]);
    }
    assert DependsOn(g, c[(|c| - 2) + 1], c[|c| - 2]);
  }

  lemma ExtendDependencyChain(g: seq<Entry>, c: seq<string>, id: string)
    requires InGraph(g, id) && (c != [] ==> DependencyChain(g, c) && DependsOn(g, id, c[|c| - 1]))
    ensures DependencyChain(g, c + [id])
  {
    var e := c + [id];
    forall i | 0 <= i < |e| - 1
      ensures DependsOn(g, e[i + 1], e[i])
    {
      if i < |c| - 1 {
        assert DependsOn(g, c[i + 1], c[i]);
      }
    }
  }

  /** The recurrence behind the scores. */
  lemma ScoreIsHeaviest(g: seq<Entry>, times: map<string, real>, scores: map<string, Score>, n: nat, best: Score,
                        s: Score)
    requires DistinctEntries(g) && InOrder(g) && Scored(g, times, n, scores) && n < |g| && Nonnegative(times)
    requires forall d :: d in g[n].deps && d in scores ==> scores[d].ms <= best.ms
    requires best == Score(0.0, []) || exists i ::
              0 <= i < |g[n].deps| && g[n].deps[i] in scores && best == scores[g[n].deps[i]]
    requires best.ms >= 0.0 && s == Score(best.ms + Time(times, g[n].id), best.chain + [g[n].id])
    ensures Heaviest(g, times, g[n].id, s)
  {
    var id := g[n].id;
    if best != Score(0.0, []) {
      var i :| 0 <= i < |g[n].deps| && g[n].deps[i] in scores && best == scores[g[n].deps[i]];
      assert Heaviest(g, times, g[n].deps[i], best);
    }
    ExtendDependencyChain(g, best.chain, id);
    assert (best.chain + [id])[..|best.chain|] == best.chain;
    forall c | DependencyChain(g, c) && c[|c| - 1] == id
      ensures Weight(times, c) <= best.ms + Time(times, id)
    {
      NothingHeavier(g, times, scores, n, best.ms, c);
    }
  }

  lemma NothingHeavier(g: seq<Entry>, times: map<string, real>, scores: map<string, Score>, n: nat, ms: real,
                       c: seq<string>)
    requires DistinctEntries(g) && InOrder(g) && Scored(g, times, n, scores) && n < |g| && ms >= 0.0
    requires forall d :: d in g[n].deps && d in scores ==> scores[d].ms <= ms
    requires DependencyChain(g, c) && c[|c| - 1] == g[n].id
    ensures Weight(times, c) <= ms + Time(times, g[n].id)
  {
    if |c| > 1 {
      ChainInit(g, c);
      var d := c[|c| - 2];
      var i :| 0 <= i < |g| && g[i].id == g[n].id && d in g[i].deps;
      assert i == n;
      var j := ChainEndIsNode(g, c[..|c| - 1]);
      assert Heaviest(g, times, d, scores[d]);
    } else {
      assert c[..0] == [];
    }
  }

  lemma ChainEndIsNode(g: seq<Entry>, c: seq<string>) returns (i: nat)
    requires DependencyChain(g, c)
    ensures i < |g| && g[i].id == c[|c| - 1]
  {
    assert InGraph(g, c[|c| - 1]);
    i :| 0 <= i < |g| && g[i].id == c[|c| - 1];
  }

  /** The first `n` nodes all have a time. */
  predicate Timed(g: seq<Entry>, times: map<string, real>, n: nat) {
    n <= |g| && forall i :: 0 <= i < n ==> g[i].id in times
  }

  lemma TimedStep(g: seq<Entry>, times: map<string, real>, n: nat)
    requires n < |g|
    ensures Timed(g, times, n + 1) <==> Timed(g, times, n) && g[n].id in times
  {
  }

  /** `scores[node]` for every node, in registration order. */
  method ScoreAll(g: seq<Entry>, times: map<string, real>) returns (scores: map<string, Score>, complete: bool)
    requires DistinctEntries(g) && InOrder(g) && Nonnegative(times)
    ensures Scored(g, times, |g|, scores)
    ensures complete <==> Timed(g, times, |g|)
  {
    scores, complete := map[], true;
    for n := 0 to |g|
      invariant Scored(g, times, n, scores)
      invariant complete <==> Timed(g, times, n)
    {
      TimedStep(g, times, n);
      complete := complete && g[n].id in times;
      ScoresAreNonnegative(g, times, n, scores);
      var best := BestDependency(g[n].deps, scores);
      var score := Score(best.ms + Time(times, g[n].id), best.chain + [g[n].id]);
      ScoreIsHeaviest(g, times, scores, n, best, score);
      OneMoreScore(g, times, n, scores, score);
      scores := scores[g[n].id := score];
    }
  }

  /** A real dependency chain, its duration the sum of its nodes' times, and no chain is heavier. */
  method CriticalPathOf(g: seq<Entry>, times: map<string, real>) returns (r: Path)
    requires DistinctEntries(g) && InOrder(g) && Nonnegative(times)
    ensures g == [] ==> r == Path([], 0.0, true)
    ensures g != [] ==> DependencyChain(g, r.nodes)
    ensures r.executionMs == Weight(times, r.nodes)
    ensures forall c :: DependencyChain(g, c) ==> Weight(times, c) <= r.executionMs
    ensures r.complete <==> Timed(g, times, |g|)
  {
    var scores, complete := ScoreAll(g, times);
    var best := Score(0.0, []);
    for n := 0 to |g|
      invariant n == 0 ==> best == Score(0.0, [])
      invariant n > 0 ==> exists j :: 0 <= j < n && best == scores[g[j].id]
      invariant forall j :: 0 <= j < n ==> scores[g[j].id].ms <= best.ms
    {
      if n == 0 || scores[g[n].id].ms > best.ms {
        best := scores[g[n].id];
      }
    }
    forall c | DependencyChain(g, c)
      ensures Weight(times, c) <= best.ms
    {
      var i := ChainEndIsNode(g, c);
      assert Heaviest(g, times, g[i].id, scores[g[i].id]);
    }
    if g != [] {
      var j :| 0 <= j < |g| && best == scores[g[j].id];
      assert Heaviest(g, times, g[j].id, best);
    }
    r := Path(best.chain, best.ms, complete);
  }

  // ---------------------------------------------------------------- registration

  function EntriesOf(level: seq<Task>): seq<Entry> {
    seq(|level|, i requires 0 <= i < |level| => Entry(level[i].id, level[i].dependsOn))
  }

  /** The mapping an attempt registers: its levels one after the other. */
  function Registered(levels: seq<seq<Task>>): seq<Entry> {
    if levels == [] then [] else Registered(levels[..|levels| - 1]) + EntriesOf(levels[|levels| - 1])
  }

  lemma {:induction false} EntryHasLevel(levels: seq<seq<Task>>, i: nat) returns (k: nat, t: Task)
    requires i < |Registered(levels)|
    ensures k < |levels| && t in levels[k] && Registered(levels)[i] == Entry(t.id, t.dependsOn)
    ensures i >= |Registered(levels[..k])| && i < |Registered(levels[..k + 1])|
    decreases |levels|
  {
    var before, last := levels[..|levels| - 1], levels[|levels| - 1];
    if i < |Registered(before)| {
      k, t := EntryHasLevel(before, i);
      assert before[..k] == levels[..k] && before[..k + 1] == levels[..k + 1];
    } else {
      k, t := |levels| - 1, last[i - |Registered(before)|];
      assert levels[..k + 1] == levels;
    }
  }

  lemma {:induction false} RegisteredGrows(levels: seq<seq<Task>>, j: nat, k: nat)
    requires j <= k <= |levels|
    ensures |Registered(levels[..j])| <= |Registered(levels[..k])|
    decreases k
  {
    if j < k {
      RegisteredGrows(levels, j, k - 1);
      assert levels[..k][..k - 1] == levels[..k - 1];
    }
  }

  lemma LevelHasNoRepeats(tasks: seq<Task>, levels: seq<seq<Task>>, k: nat)
    requires DistinctIds(tasks) && Levelled(tasks, levels) && k < |levels|
    ensures DistinctIds(levels[k])
  {
    AtDepthDistinct(tasks, tasks, k);
  }

  /** What a levelled plan registers has distinct nodes, each after its dependencies. */
  lemma LevelsRegisterInOrder(tasks: seq<Task>, levels: seq<seq<Task>>)
    requires DistinctIds(tasks) && Levelled(tasks, levels)
    ensures DistinctEntries(Registered(levels)) && InOrder(Registered(levels))
  {
    var g := Registered(levels);
    forall i, j | 0 <= i < j < |g|
      ensures g[i].id != g[j].id
    {
      DifferentPlaces(tasks, levels, i, j);
    }
    forall i, j | 0 <= i < |g| && 0 <= j < |g| && g[j].id in g[i].deps
      ensures j < i
    {
      var k, t := EntryHasLevel(levels, i);
      var l, u := EntryHasLevel(levels, j);
      AtDepthMembers(tasks, tasks, k, t);
      AtDepthMembers(tasks, tasks, l, u);
      var h :| 0 <= h < |t.dependsOn| && t.dependsOn[h] == u.id;
      assert u.id in Ids(tasks) by {
        var m :| 0 <= m < |tasks| && tasks[m] == u;
      }
      DepsAreLower(tasks, levels, t, u, l, k);
      RegisteredGrows(levels, l + 1, k);
    }
  }

  lemma DifferentPlaces(tasks: seq<Task>, levels: seq<seq<Task>>, i: nat, j: nat)
    requires DistinctIds(tasks) && Levelled(tasks, levels) && i < j < |Registered(levels)|
    ensures Registered(levels)[i].id != Registered(levels)[j].id
  {
    var g := Registered(levels);
    var k, t := EntryHasLevel(levels, i);
    var l, u := EntryHasLevel(levels, j);
    if t.id == u.id {
      AtDepthMembers(tasks, tasks, k, t);
      AtDepthMembers(tasks, tasks, l, u);
      DepthIsUnique(tasks, t.id, k, l);
      LevelHasNoRepeats(tasks, levels, k);
      LevelPositions(levels, k, i);
      LevelPositions(levels, k, j);
      RegisteredGrows(levels, k, k);
    }
  }

  /** Inside its level an entry sits at its offset. */
  lemma {:induction false} LevelPositions(levels: seq<seq<Task>>, k: nat, i: nat)
    requires k < |levels| && |Registered(levels[..k])| <= i < |Registered(levels[..k + 1])|
    ensures i < |Registered(levels)| && i - |Registered(levels[..k])| < |levels[k]|
    ensures Registered(levels)[i].id == levels[k][i - |Registered(levels[..k])|].id
    decreases |levels|
  {
    var before := levels[..|levels| - 1];
    if k < |levels| - 1 {
      assert before[..k] == levels[..k] && before[..k + 1] == levels[..k + 1];
      LevelPositions(before, k, i);
    } else {
      assert levels[..k + 1] == levels;
    }
  }
}
