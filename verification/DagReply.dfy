/** Replies of the DAG service and the checks the shadow evaluation runs on them. */
module DagReply {
  import opened DagTypes
  import opened TaskGraph

  type Score = x: real | 0.0 <= x <= 1.0 witness 0.0

  datatype Critique = Critique(correctness: Score, completeness: Score, clarity: Score, mainIssue: string)

  type Weight = x: real | 0.0 <= x witness 0.0

  datatype Weights = Weights(correctness: Weight, completeness: Weight, clarity: Weight)

  datatype Attempt = Attempt(
    n: int, levels: seq<seq<string>>, taskResults: seq<TaskResult>, synthesis: Reply,
    critique: Option<Critique>, aggregate: Option<real>)

  datatype DagReply = DagReply(
    goal: string, levels: seq<seq<string>>, taskResults: seq<TaskResult>, synthesis: Reply,
    attempts: seq<Attempt>, accepted: bool)

  // ---------------------------------------------------------------- quality

  function Aggregate(c: Critique, w: Weights): real {
    var total := w.correctness + w.completeness + w.clarity;
    if total <= 0.0 then (c.correctness + c.completeness + c.clarity) / 3.0
    else WeightedMean(w.correctness, w.completeness, w.clarity, c.correctness, c.completeness, c.clarity)
  }

  function WeightedMean(a: real, b: real, c: real, x: real, y: real, z: real): real
    requires a + b + c > 0.0
  {
    (a * x + b * y + c * z) / (a + b + c)
  }

  function Least(c: Critique): real {
    var m := if c.correctness < c.completeness then c.correctness else c.completeness;
    if m < c.clarity then m else c.clarity
  }

  function Greatest(c: Critique): real {
    var m := if c.correctness > c.completeness then c.correctness else c.completeness;
    if m > c.clarity then m else c.clarity
  }

  lemma Scale(w: real, x: real, y: real)
    requires 0.0 <= w && x <= y
    ensures w * x <= w * y
  {
  }

  lemma ScaleStrict(w: real, x: real, y: real)
    requires 0.0 < w && x < y
    ensures w * x < w * y
  {
  }

  lemma Distribute(a: real, b: real, c: real, x: real)
    ensures (a + b + c) * x == a * x + b * x + c * x
  {
  }

  lemma QuotientBetween(sum: real, total: real, low: real, high: real)
    requires total > 0.0 && total * low <= sum <= total * high
    ensures low <= sum / total <= high
  {
    var q := sum / total;
    assert total * q == sum;
    if q < low {
      ScaleStrict(total, q, low);
    }
    if high < q {
      ScaleStrict(total, high, q);
    }
  }

  lemma WeightedMeanBetween(a: real, b: real, c: real, x: real, y: real, z: real, low: real, high: real)
    requires 0.0 <= a && 0.0 <= b && 0.0 <= c && a + b + c > 0.0
    requires low <= x <= high && low <= y <= high && low <= z <= high
    ensures low <= WeightedMean(a, b, c, x, y, z) <= high
  {
    WeightedSumAbove(a, b, c, x, y, z, low);
    WeightedSumBelow(a, b, c, x, y, z, high);
    QuotientBetween(a * x + b * y + c * z, a + b + c, low, high);
  }

  lemma WeightedSumAbove(a: real, b: real, c: real, x: real, y: real, z: real, low: real)
    requires 0.0 <= a && 0.0 <= b && 0.0 <= c && low <= x && low <= y && low <= z
    ensures (a + b + c) * low <= a * x + b * y + c * z
  {
    Scale(a, low, x);
    Scale(b, low, y);
    Scale(c, low, z);
    Distribute(a, b, c, low);
  }

  lemma WeightedSumBelow(a: real, b: real, c: real, x: real, y: real, z: real, high: real)
    requires 0.0 <= a && 0.0 <= b && 0.0 <= c && x <= high && y <= high && z <= high
    ensures a * x + b * y + c * z <= (a + b + c) * high
  {
    Scale(a, x, high);
    Scale(b, y, high);
    Scale(c, z, high);
    Distribute(a, b, c, high);
  }

  /** The aggregate lies between the smallest and the largest score. */
  lemma AggregateIsBetween(c: Critique, w: Weights)
    ensures Least(c) <= Aggregate(c, w) <= Greatest(c)
    ensures 0.0 <= Aggregate(c, w) <= 1.0
  {
    var low, high := Least(c), Greatest(c);
    var x: real, y: real, z: real := c.correctness, c.completeness, c.clarity;
    var a: real, b: real, d: real := w.correctness, w.completeness, w.clarity;
    if a + b + d > 0.0 {
      WeightedMeanBetween(a, b, d, x, y, z, low, high);
    }
  }

  /** The mean of the three scores by their weights, or the plain mean if no weight is positive. */
  ghost predicate IsMean(value: real, c: Critique, w: Weights) {
    if w.correctness + w.completeness + w.clarity > 0.0 then
      value * (w.correctness + w.completeness + w.clarity)
      == w.correctness * c.correctness + w.completeness * c.completeness + w.clarity * c.clarity
    else value * 3.0 == c.correctness + c.completeness + c.clarity
  }

  lemma QuotientTimes(sum: real, total: real)
    requires total > 0.0
    ensures sum / total * total == sum
  {
  }

  lemma AggregateIsMean(c: Critique, w: Weights)
    ensures IsMean(Aggregate(c, w), c, w)
  {
    var total := w.correctness + w.completeness + w.clarity;
    if total > 0.0 {
      QuotientTimes(w.correctness * c.correctness + w.completeness * c.completeness + w.clarity * c.clarity, total);
    }
  }

  /** So a score without weight does not count, and one that alone has weight is the aggregate. */
  lemma AggregateByWeight(c: Critique, d: Critique, w: Weights)
    requires w.correctness + w.completeness + w.clarity > 0.0
    requires w.correctness > 0.0 ==> c.correctness == d.correctness
    requires w.completeness > 0.0 ==> c.completeness == d.completeness
    requires w.clarity > 0.0 ==> c.clarity == d.clarity
    ensures Aggregate(c, w) == Aggregate(d, w)
    ensures w.completeness == 0.0 && w.clarity == 0.0 ==> Aggregate(c, w) == c.correctness
    ensures w.correctness == 0.0 && w.clarity == 0.0 ==> Aggregate(c, w) == c.completeness
    ensures w.correctness == 0.0 && w.completeness == 0.0 ==> Aggregate(c, w) == c.clarity
  {
    assert w.correctness * c.correctness == w.correctness * d.correctness;
    assert w.completeness * c.completeness == w.completeness * d.completeness;
    assert w.clarity * c.clarity == w.clarity * d.clarity;
    if w.completeness == 0.0 && w.clarity == 0.0 {
      SoleWeight(w.correctness, c.correctness);
    }
    if w.correctness == 0.0 && w.clarity == 0.0 {
      SoleWeight(w.completeness, c.completeness);
    }
    if w.correctness == 0.0 && w.completeness == 0.0 {
      SoleWeight(w.clarity, c.clarity);
    }
  }

  lemma SoleWeight(w: real, x: real)
    requires w > 0.0
    ensures w * x / w == x
  {
  }

  // ---------------------------------------------------------------- topology check

  function Flatten(levels: seq<seq<string>>): seq<string> {
    if levels == [] then [] else Flatten(levels[..|levels| - 1]) + levels[|levels| - 1]
  }

  predicate Distinct(s: seq<string>) {
    forall i, j :: 0 <= i < j < |s| ==> s[i] != s[j]
  }

  /** The index a mapping over the levels gives an identifier: that of its last occurrence. */
  function LevelIndex(levels: seq<seq<string>>, id: string): Option<nat> {
    if levels == [] then None
    else if id in levels[|levels| - 1] then Some(|levels| - 1)
    else LevelIndex(levels[..|levels| - 1], id)
  }

  function ResultIds(results: seq<TaskResult>): seq<string> {
    seq(|results|, i requires 0 <= i < |results| => results[i].taskId)
  }

  predicate DependsUpward(levels: seq<seq<string>>, r: TaskResult) {
    forall d :: d in r.dependsOn ==>
      LevelIndex(levels, d).None? ||
      (LevelIndex(levels, r.taskId).Some? && LevelIndex(levels, d).value < LevelIndex(levels, r.taskId).value)
  }

  predicate ValidTopology(reply: DagReply) {
    var ids := ResultIds(reply.taskResults);
    && ids != [] && |ids| <= 6 && Distinct(ids) && ids == Flatten(reply.levels)
    && forall i :: 0 <= i < |reply.taskResults| ==> DependsUpward(reply.levels, reply.taskResults[i])
  }

  // ---------------------------------------------------------------- attempts check

  predicate AttemptOk(a: Attempt, n: int) {
    a.n == n && a.critique.Some? && a.aggregate.Some? && 0.0 <= a.aggregate.value <= 1.0
  }

  ghost predicate AttemptsValid(reply: DagReply) {
    && reply.attempts != []
    && (forall i :: 0 <= i < |reply.attempts| ==> AttemptOk(reply.attempts[i], i + 1))
    && var final := reply.attempts[|reply.attempts| - 1];
    && final.levels == reply.levels && final.taskResults == reply.taskResults && final.synthesis == reply.synthesis
  }

  method ValidAttempts(reply: DagReply) returns (ok: bool)
    ensures ok <==> AttemptsValid(reply)
  {
    if reply.attempts == [] {
      return false;
    }
    for i := 0 to |reply.attempts|
      invariant forall j :: 0 <= j < i ==> AttemptOk(reply.attempts[j], j + 1)
    {
      var attempt := reply.attempts[i];
      if attempt.n != i + 1 || attempt.critique.None? || attempt.aggregate.None?
         || !(0.0 <= attempt.aggregate.value <= 1.0) {
        return false;
      }
    }
    var final := reply.attempts[|reply.attempts| - 1];
    return final.levels == reply.levels && final.taskResults == reply.taskResults && final.synthesis == reply.synthesis;
  }

  // ---------------------------------------------------------------- levelled results pass

  function IdsOf(level: seq<Task>): seq<string> {
    seq(|level|, i requires 0 <= i < |level| => level[i].id)
  }

  function LevelIds(levels: seq<seq<Task>>): seq<seq<string>> {
    seq(|levels|, i requires 0 <= i < |levels| => IdsOf(levels[i]))
  }

  function FlatTasks(levels: seq<seq<Task>>): seq<Task> {
    if levels == [] then [] else FlatTasks(levels[..|levels| - 1]) + levels[|levels| - 1]
  }

  /** One result per task, in level order, carrying the task's identity. */
  ghost predicate ResultsFit(levels: seq<seq<Task>>, results: seq<TaskResult>) {
    && |results| == |FlatTasks(levels)|
    && forall i :: 0 <= i < |results| ==>
         && results[i].taskId == FlatTasks(levels)[i].id
         && results[i].dependsOn == FlatTasks(levels)[i].dependsOn
  }

  lemma {:induction false} FlatIds(levels: seq<seq<Task>>)
    ensures Flatten(LevelIds(levels)) == IdsOf(FlatTasks(levels))
  {
    if levels != [] {
      var before := levels[..|levels| - 1];
      FlatIds(before);
      assert LevelIds(levels)[..|levels| - 1] == LevelIds(before);
      assert IdsOf(FlatTasks(levels)) == IdsOf(FlatTasks(before)) + IdsOf(levels[|levels| - 1]);
    }
  }

  lemma {:induction false} FlatMember(levels: seq<seq<Task>>, t: Task)
    ensures t in FlatTasks(levels) <==> exists k :: 0 <= k < |levels| && t in levels[k]
  {
    if levels != [] {
      var before := levels[..|levels| - 1];
      FlatMember(before, t);
      if k :| 0 <= k < |levels| && t in levels[k] {
        assert k < |before| ==> t in before[k];
      }
      if k :| 0 <= k < |before| && t in before[k] {
        assert t in levels[k];
      }
    }
  }

  lemma {:induction false} LevelIndexFinds(levels: seq<seq<string>>, id: string)
    ensures match LevelIndex(levels, id)
            case None => forall k :: 0 <= k < |levels| ==> id !in levels[k]
            case Some(k) => k < |levels| && id in levels[k]
  {
    if levels != [] && id !in levels[|levels| - 1] {
      LevelIndexFinds(levels[..|levels| - 1], id);
      assert forall k :: 0 <= k < |levels| - 1 ==> levels[k] == levels[..|levels| - 1][k];
    }
  }

  /** A task's level is the one the topology check computes for its identifier. */
  lemma LevelIndexIsLevel(tasks: seq<Task>, levels: seq<seq<Task>>, id: string)
    requires DistinctIds(tasks) && Levelled(tasks, levels)
    ensures match LevelIndex(LevelIds(levels), id)
            case None => id !in Ids(tasks)
            case Some(k) => k < |levels| && exists t :: t in levels[k] && t.id == id
  {
    if id in Ids(tasks) {
      IdIsInSomeLevel(tasks, levels, id);
    }
    LevelIndexFinds(LevelIds(levels), id);
    if LevelIndex(LevelIds(levels), id).Some? {
      var k := LevelIndex(LevelIds(levels), id).value;
      var i :| 0 <= i < |levels[k]| && IdsOf(levels[k])[i] == id;
      assert levels[k][i] in levels[k];
    }
  }

  lemma IdIsInSomeLevel(tasks: seq<Task>, levels: seq<seq<Task>>, id: string)
    requires Levelled(tasks, levels) && id in Ids(tasks)
    ensures exists k :: 0 <= k < |LevelIds(levels)| && id in LevelIds(levels)[k]
  {
    var i :| 0 <= i < |tasks| && tasks[i].id == id;
    var k := LevelOfTask(tasks, levels, tasks[i]);
    var j :| 0 <= j < |levels[k]| && levels[k][j] == tasks[i];
    assert IdsOf(levels[k])[j] == id;
    assert id in LevelIds(levels)[k];
  }

  lemma DependenciesPointUpward(tasks: seq<Task>, levels: seq<seq<Task>>, k: nat, t: Task, r: TaskResult)
    requires DistinctIds(tasks) && Levelled(tasks, levels) && k < |levels| && t in levels[k]
    requires r.taskId == t.id && r.dependsOn == t.dependsOn
    ensures DependsUpward(LevelIds(levels), r)
  {
    AtDepthMembers(tasks, tasks, k, t);
    LevelIndexIsLevel(tasks, levels, t.id);
    forall d | d in r.dependsOn && LevelIndex(LevelIds(levels), d).Some?
      ensures LevelIndex(LevelIds(levels), t.id).Some?
      ensures LevelIndex(LevelIds(levels), d).value < LevelIndex(LevelIds(levels), t.id).value
    {
      LevelIndexIsLevel(tasks, levels, d);
      var j := LevelIndex(LevelIds(levels), d).value;
      var u :| u in levels[j] && u.id == d;
      AtDepthMembers(tasks, tasks, j, u);
      var h :| 0 <= h < |t.dependsOn| && t.dependsOn[h] == d;
      var m :| 0 <= m < |tasks| && tasks[m] == u;
      var n :| 0 <= n < |tasks| && tasks[n] == t;
      assert tasks[n].id in Ids(tasks);
      var l := LevelIndex(LevelIds(levels), t.id).value;
      var v :| v in levels[l] && v.id == t.id;
      AtDepthMembers(tasks, tasks, l, v);
      DepthIsUnique(tasks, t.id, k, l);
      DepsAreLower(tasks, levels, t, u, j, k);
    }
  }

  /** Tasks of different levels have different identifiers. */
  lemma LevelsAreDisjoint(tasks: seq<Task>, levels: seq<seq<Task>>, j: nat, k: nat, t: Task, u: Task)
    requires DistinctIds(tasks) && Levelled(tasks, levels) && j < k < |levels| && t in levels[j] && u in levels[k]
    ensures t.id != u.id
  {
    AtDepthMembers(tasks, tasks, j, t);
    AtDepthMembers(tasks, tasks, k, u);
    if t.id == u.id {
      DepthIsUnique(tasks, t.id, j, k);
    }
  }

  lemma DistinctAppend(a: seq<Task>, b: seq<Task>)
    requires DistinctIds(a) && DistinctIds(b)
    requires forall i, j :: 0 <= i < |a| && 0 <= j < |b| ==> a[i].id != b[j].id
    ensures DistinctIds(a + b)
  {
  }

  lemma FlatSnoc(levels: seq<seq<Task>>, n: nat)
    requires n < |levels|
    ensures FlatTasks(levels[..n + 1]) == FlatTasks(levels[..n]) + levels[n]
  {
    assert levels[..n + 1][..n] == levels[..n];
  }

  lemma FoundBefore(levels: seq<seq<Task>>, n: nat, t: Task) returns (k: nat)
    requires n <= |levels| && t in FlatTasks(levels[..n])
    ensures k < n && t in levels[k]
  {
    FlatMember(levels[..n], t);
    k :| 0 <= k < |levels[..n]| && t in levels[..n][k];
  }

  /** A level repeats no task of the levels before it. */
  lemma LevelIsNew(tasks: seq<Task>, levels: seq<seq<Task>>, n: nat, before: seq<Task>)
    requires DistinctIds(tasks) && Levelled(tasks, levels) && n < |levels| && before == FlatTasks(levels[..n])
    ensures forall i, j :: 0 <= i < |before| && 0 <= j < |levels[n]| ==> before[i].id != levels[n][j].id
  {
    forall i, j | 0 <= i < |before| && 0 <= j < |levels[n]|
      ensures before[i].id != levels[n][j].id
    {
      var k := FoundBefore(levels, n, before[i]);
      LevelsAreDisjoint(tasks, levels, k, n, before[i], levels[n][j]);
    }
  }

  lemma {:induction false} FlatDistinct(tasks: seq<Task>, levels: seq<seq<Task>>, n: nat)
    requires DistinctIds(tasks) && Levelled(tasks, levels) && n <= |levels|
    ensures DistinctIds(FlatTasks(levels[..n]))
    decreases n
  {
    if n > 0 {
      FlatDistinct(tasks, levels, n - 1);
      AtDepthDistinct(tasks, tasks, n - 1);
      var before := FlatTasks(levels[..n - 1]);
      LevelIsNew(tasks, levels, n - 1, before);
      DistinctAppend(before, levels[n - 1]);
      FlatSnoc(levels, n - 1);
    }
  }

  /** Results in level order of a plan of at most six tasks pass the topology check. */
  lemma LevelledResultsAreValid(tasks: seq<Task>, levels: seq<seq<Task>>, reply: DagReply)
    requires DistinctIds(tasks) && tasks != [] && Levelled(tasks, levels)
    requires reply.levels == LevelIds(levels) && ResultsFit(levels, reply.taskResults)
    requires |reply.taskResults| <= 6
    ensures ValidTopology(reply)
  {
    var flat := FlatTasks(levels);
    FlatIds(levels);
    assert ResultIds(reply.taskResults) == IdsOf(flat);
    assert levels[..|levels|] == levels;
    FlatDistinct(tasks, levels, |levels|);
    var k0 := LevelOfTask(tasks, levels, tasks[0]);
    FlatMember(levels, tasks[0]);
    forall i | 0 <= i < |reply.taskResults|
      ensures DependsUpward(reply.levels, reply.taskResults[i])
    {
      FlatMember(levels, flat[i]);
      var k :| 0 <= k < |levels| && flat[i] in levels[k];
      DependenciesPointUpward(tasks, levels, k, flat[i], reply.taskResults[i]);
    }
  }
}
