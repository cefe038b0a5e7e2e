/** The replan cache of one DAG call: the latest successful result of each node, keyed by the
    versions of its upstream results. */
module ResultReuse {
  import opened DagTypes

  /** What the fingerprint digests (SHA-256 taken as injective). */
  datatype Input = Input(goal: string, taskId: string, description: string, deps: seq<(string, Version)>)

  datatype Entry = Entry(input: Input, version: Version, expiresAt: real, result: TaskResult)

  datatype Cache = Cache(ttl: real, entries: map<string, Entry>, ineligible: map<string, string>)

  const REUSABLE_EVIDENCE_TOOLS: set<string> := {"rag_search", "schema_explore"}

  /** No step used a tool that must be read afresh. */
  predicate OnlyReusableTools(r: TaskResult) {
    forall i :: 0 <= i < |r.reply.actions| && r.reply.actions[i] != "" ==> r.reply.actions[i] in REUSABLE_EVIDENCE_TOOLS
  }

  predicate Eligible(ttl: real, r: TaskResult) {
    ttl > 0.0 && Succeeded(r) && OnlyReusableTools(r)
  }

  function Lookup(c: Cache, taskId: string, input: Input, now: real): Option<(TaskResult, Version)> {
    if taskId !in c.entries || c.entries[taskId].input != input || now >= c.entries[taskId].expiresAt then None
    else Some((c.entries[taskId].result, c.entries[taskId].version))
  }

  function Recorded(c: Cache, taskId: string, input: Input, r: TaskResult, version: Version, now: real): Cache {
    if Eligible(c.ttl, r) then
      c.(entries := c.entries[taskId := Entry(input, version, now + c.ttl, r)], ineligible := c.ineligible - {taskId})
    else
      var reason := if !Succeeded(r) then "previous_failed"
                    else if c.ttl > 0.0 then "non_reusable_tools" else "reuse_disabled";
      c.(entries := c.entries - {taskId}, ineligible := c.ineligible[taskId := reason])
  }

  function ReasonFor(c: Cache, taskId: string, input: Input, now: real): string {
    if c.ttl <= 0.0 then "reuse_disabled"
    else if taskId !in c.entries then (if taskId in c.ineligible then c.ineligible[taskId] else "no_reusable_result")
    else if c.entries[taskId].input != input then "reuse_input_changed"
    else if now >= c.entries[taskId].expiresAt then "reuse_expired"
    else "replan_reused"
  }

  /** A node is either cached or known to be ineligible, never both; only eligible results are kept. */
  ghost predicate CacheOk(c: Cache) {
    && c.entries.Keys !! c.ineligible.Keys
    && forall t :: t in c.entries ==> Eligible(c.ttl, c.entries[t].result)
  }

  lemma RecordedKeepsOk(c: Cache, taskId: string, input: Input, r: TaskResult, version: Version, now: real)
    requires CacheOk(c)
    ensures CacheOk(Recorded(c, taskId, input, r, version, now))
  {
  }

  /** The diagnostic reason and the decision never disagree. */
  lemma ReasonMatchesDecision(c: Cache, taskId: string, input: Input, now: real)
    requires CacheOk(c)
    requires forall t :: t in c.ineligible ==> c.ineligible[t] != "replan_reused"
    ensures ReasonFor(c, taskId, input, now) == "replan_reused" <==> Lookup(c, taskId, input, now).Some?
  {
    if taskId in c.entries {
      assert Eligible(c.ttl, c.entries[taskId].result);
    }
  }

  /** What a recording answers afterwards: the same input within the TTL if eligible, nothing if not,
      and nothing changes for other nodes. */
  lemma RecordThenLookup(c: Cache, taskId: string, input: Input, r: TaskResult, version: Version, now: real,
                         other: string, asked: Input, later: real)
    ensures var d := Recorded(c, taskId, input, r, version, now);
            Lookup(d, other, asked, later) ==
              if other != taskId then Lookup(c, other, asked, later)
              else if Eligible(c.ttl, r) && asked == input && later < now + c.ttl then Some((r, version))
              else None
  {
  }

  /** Only the two evidence tools may have been used. */
  predicate EvidenceOnly(r: TaskResult) {
    forall i :: 0 <= i < |r.reply.actions| ==> r.reply.actions[i] in {"", "rag_search", "schema_explore"}
  }

  /** When a result recorded now is found later: it ended DONE, used no tool but the two for evidence, is
      asked for with the same goal, task and upstream versions, and its time has not run out. */
  lemma FoundAgain(c: Cache, taskId: string, input: Input, r: TaskResult, version: Version, now: real, asked: Input,
                   later: real)
    ensures var d := Recorded(c, taskId, input, r, version, now);
            Lookup(d, taskId, asked, later) == Some((r, version)) <==>
            && c.ttl > 0.0 && r.reply.stopReason == "DONE" && EvidenceOnly(r)
            && asked.goal == input.goal && asked.taskId == input.taskId && asked.description == input.description
            && asked.deps == input.deps && later < now + c.ttl
    ensures Lookup(Recorded(c, taskId, input, r, version, now), taskId, asked, later) in {None, Some((r, version))}
  {
    assert OnlyReusableTools(r) <==> EvidenceOnly(r) by {
      if OnlyReusableTools(r) {
        forall i | 0 <= i < |r.reply.actions|
          ensures r.reply.actions[i] in {"", "rag_search", "schema_explore"}
        {
        }
      }
    }
  }

  class DagResultReuse {
    const ttl: real
    var entries: map<string, Entry>
    var ineligible: map<string, string>

    function View(): Cache reads this {
      Cache(ttl, entries, ineligible)
    }

    ghost predicate Valid() reads this {
      CacheOk(View())
    }

    constructor (ttlSeconds: real)
      ensures Valid() && View() == Cache(ttlSeconds, map[], map[])
    {
      ttl, entries, ineligible := ttlSeconds, map[], map[];
    }

    method Get(taskId: string, input: Input, now: real) returns (r: Option<(TaskResult, Version)>)
      requires Valid()
      ensures r == Lookup(View(), taskId, input, now)
      ensures r.Some? ==> Succeeded(r.value.0) && OnlyReusableTools(r.value.0)
    {
      if taskId !in entries {
        return None;
      }
      var entry := entries[taskId];
      if entry.input != input || now >= entry.expiresAt {
        return None;
      }
      assert Eligible(ttl, entry.result);
      return Some((entry.result, entry.version));
    }

    method Record(taskId: string, input: Input, result: TaskResult, version: Version, now: real)
      requires Valid()
      modifies this
      ensures Valid() && View() == Recorded(old(View()), taskId, input, result, version, now)
    {
      RecordedKeepsOk(View(), taskId, input, result, version, now);
      if ttl > 0.0 && result.reply.stopReason == "DONE" && OnlyReusableTools(result) {
        ineligible := ineligible - {taskId};
        entries := entries[taskId := Entry(input, version, now + ttl, result)];
      } else {
        var reason := if result.reply.stopReason != "DONE" then "previous_failed"
                      else if ttl > 0.0 then "non_reusable_tools" else "reuse_disabled";
        ineligible := ineligible[taskId := reason];
        entries := entries - {taskId};
      }
    }
  }
}
