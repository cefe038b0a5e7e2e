/** Task graphs: validation, topological levels, and what a level means. */
module TaskGraph {
  import opened DagTypes
  import opened Text

  datatype DagError =
    | TasksRequired | TooManyTasks | IdRequired | DescriptionRequired | DuplicateId | UnknownDependency | Cycle

  function Ids(tasks: seq<Task>): set<string> {
    set i | 0 <= i < |tasks| :: tasks[i].id
  }

  predicate DistinctIds(tasks: seq<Task>) {
    forall i, j :: 0 <= i < j < |tasks| ==> tasks[i].id != tasks[j].id
  }

  /** Dependencies on tasks of the graph; unknown ones do not order anything. */
  function KnownDeps(tasks: seq<Task>, t: Task): set<string> {
    set i | 0 <= i < |t.dependsOn| && t.dependsOn[i] in Ids(tasks) :: t.dependsOn[i]
  }

  /** `d` is a known dependency of the task named `id`. */
  ghost predicate Edge(tasks: seq<Task>, d: string, id: string) {
    exists i :: 0 <= i < |tasks| && tasks[i].id == id && d in KnownDeps(tasks, tasks[i])
  }

  /** A dependency chain: every element is a known dependency of the next. */
  ghost predicate Chain(tasks: seq<Task>, c: seq<string>) {
    && c != []
    && (forall i :: 0 <= i < |c| ==> c[i] in Ids(tasks))
    && (forall i :: 0 <= i < |c| - 1 ==> Edge(tasks, c[i], c[i + 1]))
  }

  ghost predicate ChainTo(tasks: seq<Task>, c: seq<string>, id: string) {
    Chain(tasks, c) && c[|c| - 1] == id
  }

  ghost predicate Cyclic(tasks: seq<Task>) {
    exists c :: Chain(tasks, c) && |c| >= 2 && c[0] == c[|c| - 1]
  }

  /** No chain ending at `id` has more than `k` elements. */
  ghost predicate Within(tasks: seq<Task>, id: string, k: nat) {
    forall c :: ChainTo(tasks, c, id) ==> |c| <= k
  }

  /** The longest chain ending at `id` has exactly `k` elements before it. */
  ghost predicate Depth(tasks: seq<Task>, id: string, k: nat) {
    Within(tasks, id, k + 1) && exists c :: ChainTo(tasks, c, id) && |c| == k + 1
  }

  /** The tasks at depth `k`, in input order. */
  ghost function AtDepth(tasks: seq<Task>, among: seq<Task>, k: nat): seq<Task> {
    if among == [] then []
    else
      var rest := AtDepth(tasks, among[..|among| - 1], k);
      var last := among[|among| - 1];
      if Depth(tasks, last.id, k) then rest + [last] else rest
  }

  // ---------------------------------------------------------------- chains

  lemma EdgeIsKnown(tasks: seq<Task>, t: Task, d: string)
    requires DistinctIds(tasks) && t in tasks
    ensures Edge(tasks, d, t.id) <==> d in KnownDeps(tasks, t)
  {
    var i :| 0 <= i < |tasks| && tasks[i] == t;
    forall j | 0 <= j < |tasks| && tasks[j].id == t.id
      ensures j == i
    {
    }
  }

  lemma ExtendChain(tasks: seq<Task>, c: seq<string>, d: string, id: string)
    requires ChainTo(tasks, c, d) && Edge(tasks, d, id) && id in Ids(tasks)
    ensures ChainTo(tasks, c + [id], id)
  {
    var e := c + [id];
    forall i | 0 <= i < |e| - 1
      ensures Edge(tasks, e[i], e[i + 1])
    {
      if i < |c| - 1 {
        assert Edge(tasks, c[i], c[i + 1]);
      }
    }
  }

  lemma ChainPrefix(tasks: seq<Task>, c: seq<string>, n: nat)
    requires Chain(tasks, c) && 1 <= n <= |c|
    ensures ChainTo(tasks, c[..n], c[n - 1])
  {
    forall i | 0 <= i < n - 1
      ensures Edge(tasks, c[..n][i], c[..n][i + 1])
    {
      assert Edge(tasks, c[i], c[i + 1]);
    }
  }

  lemma ChainSlice(tasks: seq<Task>, c: seq<string>, m: nat, n: nat)
    requires Chain(tasks, c) && m < n <= |c|
    ensures Chain(tasks, c[m..n])
  {
    forall i | 0 <= i < n - m - 1
      ensures Edge(tasks, c[m..n][i], c[m..n][i + 1])
    {
      assert Edge(tasks, c[m + i], c[(m + i) + 1]);
    }
  }

  /** Pigeonhole: a sequence over a set that is longer than the set repeats an element. */
  lemma {:induction false} Repeats(c: seq<string>, s: set<string>) returns (i: nat, j: nat)
    requires forall k :: 0 <= k < |c| ==> c[k] in s
    requires |c| > |s|
    ensures i < j < |c| && c[i] == c[j]
    decreases |s|
  {
    var last := |c| - 1;
    if k :| 0 <= k < last && c[k] == c[last] {
      return k, last;
    }
    i, j := Repeats(c[..last], s - {c[last]});
  }

  lemma LongChainIsCyclic(tasks: seq<Task>, c: seq<string>)
    requires Chain(tasks, c) && |c| > |Ids(tasks)|
    ensures Cyclic(tasks)
  {
    var i, j := Repeats(c, Ids(tasks));
    ChainSlice(tasks, c, i, j + 1);
    ClosedChainIsCyclic(tasks, c[i..j + 1]);
  }

  lemma ClosedChainIsCyclic(tasks: seq<Task>, c: seq<string>)
    requires Chain(tasks, c) && |c| >= 2 && c[0] == c[|c| - 1]
    ensures Cyclic(tasks)
  {
  }

  /** Going round a cycle gives chains of every length. */
  lemma {:induction false} CycleUnrolls(tasks: seq<Task>, c: seq<string>, n: nat) returns (long: seq<string>)
    requires Chain(tasks, c) && |c| >= 2 && c[0] == c[|c| - 1]
    ensures ChainTo(tasks, long, c[0]) && |long| > n
    decreases n
  {
    if n == 0 {
      return c;
    }
    var short := CycleUnrolls(tasks, c, n - 1);
    long := short + c[1..];
    forall i | 0 <= i < |long| - 1
      ensures Edge(tasks, long[i], long[i + 1])
    {
      if i < |short| - 1 {
        assert Edge(tasks, short[i], short[i + 1]);
      } else {
        assert Edge(tasks, c[i - |short| + 1], c[(i - |short| + 1) + 1]);
      }
    }
  }

  // ---------------------------------------------------------------- levels

  /** The comprehension that builds one level. */
  function Ready(tasks: seq<Task>, among: seq<Task>, processed: set<string>): (r: seq<Task>)
    ensures forall t :: t in r <==> t in among && t.id !in processed && KnownDeps(tasks, t) <= processed
  {
    if among == [] then []
    else
      var rest := Ready(tasks, among[..|among| - 1], processed);
      var last := among[|among| - 1];
      if last.id !in processed && KnownDeps(tasks, last) <= processed then rest + [last] else rest
  }

  /** The processed set before round `k`, by its meaning. */
  ghost predicate Processed(tasks: seq<Task>, processed: set<string>, k: nat) {
    forall id :: id in processed <==> id in Ids(tasks) && Within(tasks, id, k)
  }

  lemma WithinMeansDepsWithin(tasks: seq<Task>, t: Task, k: nat)
    requires DistinctIds(tasks) && t in tasks
    ensures Within(tasks, t.id, k + 1) <==> forall d :: d in KnownDeps(tasks, t) ==> Within(tasks, d, k)
  {
    if Within(tasks, t.id, k + 1) {
      forall d, c | d in KnownDeps(tasks, t) && ChainTo(tasks, c, d)
        ensures |c| <= k
      {
        EdgeIsKnown(tasks, t, d);
        ExtendChain(tasks, c, d, t.id);
      }
    }
    if forall d :: d in KnownDeps(tasks, t) ==> Within(tasks, d, k) {
      forall c | ChainTo(tasks, c, t.id)
        ensures |c| <= k + 1
      {
        if |c| > 1 {
          var d := c[|c| - 2];
          assert Edge(tasks, c[|c| - 2], c[(|c| - 2) + 1]);
          EdgeIsKnown(tasks, t, d);
          ChainPrefix(tasks, c, |c| - 1);
        }
      }
    }
  }

  lemma IdsOfSome(tasks: seq<Task>, some: seq<Task>)
    requires forall t :: t in some ==> t in tasks
    ensures Ids(some) <= Ids(tasks)
  {
    forall id | id in Ids(some)
      ensures id in Ids(tasks)
    {
      var j :| 0 <= j < |some| && some[j].id == id;
      assert some[j] in tasks;
    }
  }

  lemma RoundProcesses(tasks: seq<Task>, processed: set<string>, k: nat)
    requires DistinctIds(tasks) && Processed(tasks, processed, k)
    ensures Processed(tasks, processed + Ids(Ready(tasks, tasks, processed)), k + 1)
  {
    var level := Ready(tasks, tasks, processed);
    var after := processed + Ids(level);
    IdsOfSome(tasks, level);
    forall id
      ensures id in after <==> id in Ids(tasks) && Within(tasks, id, k + 1)
    {
      if id in Ids(tasks) {
        var i :| 0 <= i < |tasks| && tasks[i].id == id;
        WithinMeansDepsWithin(tasks, tasks[i], k);
        assert KnownDeps(tasks, tasks[i]) <= Ids(tasks);
        if Within(tasks, id, k + 1) && id !in processed {
          assert tasks[i] in level;
        }
        if id in Ids(level) {
          var j :| 0 <= j < |level| && level[j].id == id;
          assert level[j] in tasks;
          var h :| 0 <= h < |tasks| && tasks[h] == level[j];
          assert h == i;
        }
      }
    }
  }

  lemma DepthIsRound(tasks: seq<Task>, t: Task, processed: set<string>, k: nat)
    requires DistinctIds(tasks) && t in tasks && Processed(tasks, processed, k)
    ensures Depth(tasks, t.id, k) <==> t.id !in processed && KnownDeps(tasks, t) <= processed
  {
    WithinMeansDepsWithin(tasks, t, k);
    assert t.id in Ids(tasks);
    if t.id !in processed && Within(tasks, t.id, k + 1) {
      var c :| ChainTo(tasks, c, t.id) && |c| > k;
    }
  }

  /** One round collects exactly the tasks of its depth, in input order. */
  lemma {:induction false} ReadyIsAtDepth(tasks: seq<Task>, among: seq<Task>, processed: set<string>, k: nat)
    requires DistinctIds(tasks) && Processed(tasks, processed, k) && (forall t :: t in among ==> t in tasks)
    ensures Ready(tasks, among, processed) == AtDepth(tasks, among, k)
  {
    if among != [] {
      ReadyIsAtDepth(tasks, among[..|among| - 1], processed, k);
      DepthIsRound(tasks, among[|among| - 1], processed, k);
    }
  }

  lemma LastId(tasks: seq<Task>)
    requires DistinctIds(tasks) && tasks != []
    ensures var rest, id := tasks[..|tasks| - 1], tasks[|tasks| - 1].id;
            Ids(tasks) == Ids(rest) + {id} && id !in Ids(rest)
  {
    var rest, id := tasks[..|tasks| - 1], tasks[|tasks| - 1].id;
    forall x
      ensures x in Ids(tasks) <==> x in Ids(rest) || x == id
    {
      if i :| 0 <= i < |tasks| && tasks[i].id == x {
        assert i < |rest| ==> rest[i].id == x;
      }
      if i :| 0 <= i < |rest| && rest[i].id == x {
        assert tasks[i].id == x;
      }
    }
  }

  lemma {:induction false} DistinctIdsCount(tasks: seq<Task>)
    requires DistinctIds(tasks)
    ensures |Ids(tasks)| == |tasks|
  {
    if tasks != [] {
      DistinctIdsCount(tasks[..|tasks| - 1]);
      LastId(tasks);
    }
  }

  /** A stuck round means a chain longer than the graph, hence a cycle. */
  lemma StuckIsCyclic(tasks: seq<Task>, processed: set<string>, k: nat)
    requires DistinctIds(tasks) && Processed(tasks, processed, k)
    requires Ready(tasks, tasks, processed) == [] && |processed| < |tasks|
    ensures Cyclic(tasks)
  {
    var n := |Ids(tasks)| + k;
    StuckStays(tasks, processed, k, n);
    DistinctIdsCount(tasks);
    assert processed <= Ids(tasks);
    if Ids(tasks) <= processed {
      SubsetSize(Ids(tasks), processed);
    }
    var id :| id in Ids(tasks) && id !in processed;
    var c :| ChainTo(tasks, c, id) && |c| > n;
    LongChainIsCyclic(tasks, c);
  }

  lemma {:induction false} StuckStays(tasks: seq<Task>, processed: set<string>, k: nat, n: nat)
    requires DistinctIds(tasks) && Processed(tasks, processed, k) && k <= n
    requires Ready(tasks, tasks, processed) == []
    ensures Processed(tasks, processed, n)
    decreases n - k
  {
    if k < n {
      RoundProcesses(tasks, processed, k);
      assert processed + Ids([]) == processed;
      StuckStays(tasks, processed, k + 1, n);
    }
  }

  lemma FinishedIsAcyclic(tasks: seq<Task>, processed: set<string>, k: nat)
    requires Processed(tasks, processed, k) && Ids(tasks) <= processed
    ensures !Cyclic(tasks)
  {
    if Cyclic(tasks) {
      var c :| Chain(tasks, c) && |c| >= 2 && c[0] == c[|c| - 1];
      assert Within(tasks, c[0], k);
      var long := CycleUnrolls(tasks, c, k);
    }
  }

  ghost predicate LevelsByDepth(tasks: seq<Task>, levels: seq<seq<Task>>) {
    forall k {:trigger levels[k]} :: 0 <= k < |levels| ==> levels[k] == AtDepth(tasks, tasks, k) && levels[k] != []
  }

  /** What a levelling means: level k holds exactly the tasks whose longest known-dependency chain has
      k predecessors, in input order, and every task is in some level. */
  ghost predicate Levelled(tasks: seq<Task>, levels: seq<seq<Task>>) {
    && LevelsByDepth(tasks, levels)
    && (forall id :: id in Ids(tasks) ==> Within(tasks, id, |levels|))
  }

  /** Fails exactly on a cycle among known dependencies; otherwise levels by longest chain. */
  method TopologicalLevels(tasks: seq<Task>) returns (r: Result<seq<seq<Task>>, DagError>)
    requires DistinctIds(tasks)
    ensures r.Failure? <==> Cyclic(tasks)
    ensures r.Failure? ==> r.error == Cycle
    ensures r.Success? ==> Levelled(tasks, r.value)
  {
    var levels: seq<seq<Task>> := [];
    var processed: set<string> := {};
    NothingWithinZero(tasks);
    while |processed| < |tasks|
      invariant Processed(tasks, processed, |levels|) && processed <= Ids(tasks)
      invariant LevelsByDepth(tasks, levels)
      decreases Ids(tasks) - processed
    {
      var level := Ready(tasks, tasks, processed);
      if level == [] {
        StuckIsCyclic(tasks, processed, |levels|);
        return Failure(Cycle);
      }
      RoundAdvances(tasks, processed, |levels|);
      AddLevel(tasks, levels, level);
      levels := levels + [level];
      processed := processed + Ids(level);
    }
    AllProcessed(tasks, processed);
    FinishedIsAcyclic(tasks, processed, |levels|);
    FinishedIsLevelled(tasks, processed, levels);
    return Success(levels);
  }

  lemma NothingWithinZero(tasks: seq<Task>)
    ensures Processed(tasks, {}, 0)
  {
    forall id | id in Ids(tasks)
      ensures !Within(tasks, id, 0)
    {
      assert ChainTo(tasks, [id], id);
    }
  }

  lemma AddLevel(tasks: seq<Task>, levels: seq<seq<Task>>, level: seq<Task>)
    requires LevelsByDepth(tasks, levels) && level == AtDepth(tasks, tasks, |levels|) && level != []
    ensures LevelsByDepth(tasks, levels + [level])
  {
  }

  lemma FinishedIsLevelled(tasks: seq<Task>, processed: set<string>, levels: seq<seq<Task>>)
    requires Processed(tasks, processed, |levels|) && Ids(tasks) <= processed && LevelsByDepth(tasks, levels)
    ensures Levelled(tasks, levels)
  {
  }

  lemma RoundAdvances(tasks: seq<Task>, processed: set<string>, k: nat)
    requires DistinctIds(tasks) && Processed(tasks, processed, k) && processed <= Ids(tasks)
    requires Ready(tasks, tasks, processed) != []
    ensures var level := Ready(tasks, tasks, processed);
            && level == AtDepth(tasks, tasks, k)
            && Processed(tasks, processed + Ids(level), k + 1)
            && processed < processed + Ids(level) <= Ids(tasks)
  {
    var level := Ready(tasks, tasks, processed);
    ReadyIsAtDepth(tasks, tasks, processed, k);
    RoundProcesses(tasks, processed, k);
    IdsOfSome(tasks, level);
    assert level[0] in level && level[0].id in Ids(level);
  }

  lemma SubsetSize(a: set<string>, b: set<string>)
    requires a <= b
    ensures |a| <= |b|
    ensures |a| == |b| ==> a == b
  {
    assert b == (b - a) + a;
    assert |b| == |b - a| + |a|;
  }

  lemma AllProcessed(tasks: seq<Task>, processed: set<string>)
    requires DistinctIds(tasks) && processed <= Ids(tasks) && |processed| >= |tasks|
    ensures Ids(tasks) <= processed
  {
    DistinctIdsCount(tasks);
    SubsetSize(processed, Ids(tasks));
  }

  // ---------------------------------------------------------------- what a levelling gives its users

  lemma {:induction false} AtDepthMembers(tasks: seq<Task>, among: seq<Task>, k: nat, t: Task)
    ensures t in AtDepth(tasks, among, k) <==> t in among && Depth(tasks, t.id, k)
  {
    if among != [] {
      AtDepthMembers(tasks, among[..|among| - 1], k, t);
      assert t in among <==> t in among[..|among| - 1] || t == among[|among| - 1];
    }
  }

  lemma {:induction false} AtDepthDistinct(tasks: seq<Task>, among: seq<Task>, k: nat)
    requires DistinctIds(among)
    ensures DistinctIds(AtDepth(tasks, among, k))
  {
    if among != [] {
      var init := among[..|among| - 1];
      AtDepthDistinct(tasks, init, k);
      var rest := AtDepth(tasks, init, k);
      forall i | 0 <= i < |rest|
        ensures rest[i].id != among[|among| - 1].id
      {
        AtDepthMembers(tasks, init, k, rest[i]);
        var h :| 0 <= h < |init| && init[h] == rest[i];
      }
    }
  }

  lemma DepthIsUnique(tasks: seq<Task>, id: string, j: nat, k: nat)
    requires Depth(tasks, id, j) && Depth(tasks, id, k)
    ensures j == k
  {
    var a :| ChainTo(tasks, a, id) && |a| == j + 1;
    var b :| ChainTo(tasks, b, id) && |b| == k + 1;
    assert |a| <= k + 1 && |b| <= j + 1;
  }

  lemma {:induction false} FindDepth(tasks: seq<Task>, id: string, n: nat) returns (k: nat)
    requires id in Ids(tasks) && Within(tasks, id, n)
    ensures k < n && Depth(tasks, id, k)
  {
    assert ChainTo(tasks, [id], id);
    if n > 1 && Within(tasks, id, n - 1) {
      k := FindDepth(tasks, id, n - 1);
    } else {
      k := n - 1;
    }
  }

  /** Every task is in exactly one level. */
  lemma LevelOfTask(tasks: seq<Task>, levels: seq<seq<Task>>, t: Task) returns (k: nat)
    requires Levelled(tasks, levels) && t in tasks
    ensures k < |levels| && t in levels[k]
    ensures forall j :: 0 <= j < |levels| && t in levels[j] ==> j == k
  {
    assert t.id in Ids(tasks);
    k := FindDepth(tasks, t.id, |levels|);
    AtDepthMembers(tasks, tasks, k, t);
    forall j | 0 <= j < |levels| && t in levels[j]
      ensures j == k
    {
      AtDepthMembers(tasks, tasks, j, t);
      DepthIsUnique(tasks, t.id, j, k);
    }
  }

  /** Known dependencies lie in strictly lower levels. */
  lemma DepsAreLower(tasks: seq<Task>, levels: seq<seq<Task>>, t: Task, u: Task, j: nat, k: nat)
    requires DistinctIds(tasks) && Levelled(tasks, levels)
    requires j < |levels| && k < |levels| && u in levels[j] && t in levels[k] && u.id in KnownDeps(tasks, t)
    ensures j < k
  {
    AtDepthMembers(tasks, tasks, j, u);
    AtDepthMembers(tasks, tasks, k, t);
    var c :| ChainTo(tasks, c, u.id) && |c| == j + 1;
    EdgeIsKnown(tasks, t, u.id);
    ExtendChain(tasks, c, u.id, t.id);
  }

  // ---------------------------------------------------------------- validation

  /** A task as received: every field may be missing. */
  datatype RawTask = RawTask(id: Option<string>, description: Option<string>, dependsOn: Option<seq<string>>)

  function TextOf(s: Option<string>): string {
    match s
    case None => ""
    case Some(x) => Strip(x)
  }

  function Normalize(t: RawTask): Task {
    Task(TextOf(t.id), TextOf(t.description), match t.dependsOn case None => [] case Some(d) => d)
  }

  function NormalizeAll(tasks: seq<RawTask>): seq<Task> {
    seq(|tasks|, i requires 0 <= i < |tasks| => Normalize(tasks[i]))
  }

  predicate AllDepsKnown(tasks: seq<Task>) {
    forall i :: 0 <= i < |tasks| ==> forall d :: d in tasks[i].dependsOn ==> d in Ids(tasks)
  }

  predicate AllNamed(tasks: seq<Task>) {
    forall i :: 0 <= i < |tasks| ==> tasks[i].id != "" && tasks[i].description != ""
  }

  predicate Acceptable(tasks: seq<RawTask>, maxTasks: nat, optimized: bool) {
    var normalized := NormalizeAll(tasks);
    && 0 < |tasks| <= maxTasks
    && AllNamed(normalized) && DistinctIds(normalized)
    && (optimized ==> AllDepsKnown(normalized))
  }

  lemma Admit(tasks: seq<Task>, t: Task)
    requires AllNamed(tasks) && DistinctIds(tasks) && t.id !in Ids(tasks) && t.id != "" && t.description != ""
    ensures AllNamed(tasks + [t]) && DistinctIds(tasks + [t]) && Ids(tasks + [t]) == Ids(tasks) + {t.id}
  {
    var more := tasks + [t];
    forall id
      ensures id in Ids(more) <==> id in Ids(tasks) + {t.id}
    {
      if id in Ids(tasks) {
        var i :| 0 <= i < |tasks| && tasks[i].id == id;
        assert more[i].id == id;
      }
      assert more[|tasks|].id == t.id;
    }
  }

  /** The task has the trimmed identifier and description of the request, and its dependencies. */
  predicate ReadFrom(raw: RawTask, t: Task) {
    && raw.id.Some? && t.id == Strip(raw.id.value)
    && raw.description.Some? && t.description == Strip(raw.description.value)
    && t.dependsOn == (if raw.dependsOn.Some? then raw.dependsOn.value else [])
  }

  /** An accepted plan is the request read task by task: nothing is added, dropped or moved. */
  lemma AcceptedAreRead(raw: seq<RawTask>, maxTasks: nat, optimized: bool)
    requires Acceptable(raw, maxTasks, optimized)
    ensures |NormalizeAll(raw)| == |raw| && forall i :: 0 <= i < |raw| ==> ReadFrom(raw[i], NormalizeAll(raw)[i])
  {
    var tasks := NormalizeAll(raw);
    forall i | 0 <= i < |raw|
      ensures ReadFrom(raw[i], tasks[i])
    {
      assert tasks[i].id != "" && tasks[i].description != "";
    }
  }

  /** A task without a named identifier or description never passes. */
  lemma BlankIsRefused(raw: seq<RawTask>, i: nat, maxTasks: nat, optimized: bool)
    requires i < |raw|
    requires raw[i].id.None? || Blank(raw[i].id.value) || raw[i].description.None? || Blank(raw[i].description.value)
    ensures !Acceptable(raw, maxTasks, optimized)
  {
    var tasks := NormalizeAll(raw);
    if raw[i].id.Some? {
      var b, a := StripMeaning(raw[i].id.value);
    }
    if raw[i].description.Some? {
      var b, a := StripMeaning(raw[i].description.value);
    }
    assert tasks[i].id == "" || tasks[i].description == "";
  }

  lemma NotDistinct(tasks: seq<Task>, n: nat)
    requires n < |tasks| && tasks[n].id in Ids(tasks[..n])
    ensures !DistinctIds(tasks)
  {
    var j :| 0 <= j < n && tasks[..n][j].id == tasks[n].id;
    assert tasks[j].id == tasks[n].id;
  }

  /** Whether some dependency names no task. */
  method SomeUnknown(tasks: seq<Task>) returns (unknown: bool)
    ensures unknown <==> !AllDepsKnown(tasks)
  {
    var ids := Ids(tasks);
    for n := 0 to |tasks|
      invariant forall i :: 0 <= i < n ==> forall d :: d in tasks[i].dependsOn ==> d in ids
    {
      if exists d :: d in tasks[n].dependsOn && d !in ids {
        return true;
      }
    }
    return false;
  }

  /** Accepts exactly the well-formed requests, and keeps every task in place. */
  method ValidateAndNormalize(tasks: seq<RawTask>, maxTasks: nat, optimized: bool)
    returns (r: Result<seq<Task>, DagError>)
    ensures r.Success? <==> Acceptable(tasks, maxTasks, optimized)
    ensures r.Success? ==> r.value == NormalizeAll(tasks)
    ensures r.Failure? ==>
              match r.error
              case TasksRequired => tasks == []
              case TooManyTasks => |tasks| > maxTasks
              case IdRequired => exists i :: 0 <= i < |tasks| && NormalizeAll(tasks)[i].id == ""
              case DescriptionRequired => exists i :: 0 <= i < |tasks| && NormalizeAll(tasks)[i].description == ""
              case DuplicateId => !DistinctIds(NormalizeAll(tasks))
              case UnknownDependency => optimized && !AllDepsKnown(NormalizeAll(tasks))
              case Cycle => false
  {
    if tasks == [] {
      return Failure(TasksRequired);
    }
    if |tasks| > maxTasks {
      return Failure(TooManyTasks);
    }
    ghost var all := NormalizeAll(tasks);
    var ids: set<string> := {};
    var normalized: seq<Task> := [];
    for n := 0 to |tasks|
      invariant normalized == all[..n]
      invariant ids == Ids(normalized)
      invariant AllNamed(normalized) && DistinctIds(normalized)
    {
      var t := Normalize(tasks[n]);
      assert t == all[n];
      if t.id == "" {
        return Failure(IdRequired);
      }
      if t.description == "" {
        return Failure(DescriptionRequired);
      }
      if t.id in ids {
        NotDistinct(all, n);
        return Failure(DuplicateId);
      }
      Admit(normalized, t);
      ids := ids + {t.id};
      normalized := normalized + [t];
    }
    assert normalized == all;
    if optimized {
      var unknown := SomeUnknown(normalized);
      if unknown {
        return Failure(UnknownDependency);
      }
    }
    return Success(normalized);
  }

  // ---------------------------------------------------------------- tasks by name

  function TaskNamed(tasks: seq<Task>, id: string): Option<Task> {
    if tasks == [] then None
    else if tasks[|tasks| - 1].id == id then Some(tasks[|tasks| - 1])
    else TaskNamed(tasks[..|tasks| - 1], id)
  }

  lemma {:induction false} TaskNamedFinds(tasks: seq<Task>, t: Task)
    requires DistinctIds(tasks) && t in tasks
    ensures TaskNamed(tasks, t.id) == Some(t)
  {
    if tasks[|tasks| - 1].id != t.id {
      TaskNamedFinds(tasks[..|tasks| - 1], t);
    } else {
      var i :| 0 <= i < |tasks| && tasks[i] == t;
    }
  }

  lemma {:induction false} TaskNamedIsMember(tasks: seq<Task>, id: string)
    ensures TaskNamed(tasks, id).Some? ==> TaskNamed(tasks, id).value in tasks && TaskNamed(tasks, id).value.id == id
  {
    if tasks != [] && tasks[|tasks| - 1].id != id {
      TaskNamedIsMember(tasks[..|tasks| - 1], id);
    }
  }
}
