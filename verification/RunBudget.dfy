/** The budget of one DAG execution: counters shared by all its coroutines, scopes that nest without
    resetting them, and the gate in front of each model call. */
module RunBudget {
  import opened DagTypes
  import Recovery

  datatype Limits = Limits(maxModelCalls: int, maxReservedTokens: int)

  datatype Budget = Budget(modelCalls: nat, reservedTokens: nat, exhausted: bool)

  const FRESH := Budget(0, 0, false)

  predicate Grants(l: Limits, b: Budget, tokens: int) {
    !b.exhausted && 0 < tokens && b.modelCalls < l.maxModelCalls && b.reservedTokens + tokens <= l.maxReservedTokens
  }

  /** A refusal sticks. */
  function AfterReserve(l: Limits, b: Budget, tokens: int): Budget {
    if Grants(l, b, tokens) then Budget(b.modelCalls + 1, b.reservedTokens + tokens, false) else b.(exhausted := true)
  }

  class DagRunBudget {
    const limits: Limits
    const owner: string
    var modelCalls: nat
    var reservedTokens: nat
    var exhausted: bool

    function View(): Budget reads this {
      Budget(modelCalls, reservedTokens, exhausted)
    }

    constructor (limits: Limits, owner: string)
      ensures View() == FRESH && this.limits == limits && this.owner == owner
    {
      this.limits, this.owner := limits, owner;
      modelCalls, reservedTokens, exhausted := 0, 0, false;
    }

    method Reserve(tokens: int) returns (granted: bool)
      modifies this
      ensures granted <==> Grants(limits, old(View()), tokens)
      ensures View() == AfterReserve(limits, old(View()), tokens)
    {
      if exhausted {
        return false;
      }
      if tokens <= 0 || modelCalls >= limits.maxModelCalls || reservedTokens + tokens > limits.maxReservedTokens {
        exhausted := true;
        return false;
      }
      modelCalls := modelCalls + 1;
      reservedTokens := reservedTokens + tokens;
      granted := true;
    }
  }

  function Sum(tokens: seq<int>): int {
    if tokens == [] then 0 else tokens[0] + Sum(tokens[1..])
  }

  lemma {:induction false} SumConcat(a: seq<int>, b: seq<int>)
    ensures Sum(a + b) == Sum(a) + Sum(b)
  {
    if a == [] {
      assert a + b == b;
    } else {
      SumConcat(a[1..], b);
      assert (a + b)[1..] == a[1..] + b;
    }
  }

  /** The budget after a sequence of reservations, granted or refused. */
  function Replay(l: Limits, requests: seq<int>): Budget {
    if requests == [] then FRESH
    else AfterReserve(l, Replay(l, requests[..|requests| - 1]), requests[|requests| - 1])
  }

  predicate Fits(l: Limits, requests: seq<int>) {
    && (forall i :: 0 <= i < |requests| ==> requests[i] > 0)
    && |requests| <= l.maxModelCalls && Sum(requests) <= l.maxReservedTokens
  }

  lemma {:induction false} ReplayMeaning(l: Limits, requests: seq<int>)
    requires l.maxModelCalls >= 0 && l.maxReservedTokens >= 0
    ensures Replay(l, requests).exhausted <==> !Fits(l, requests)
    ensures Fits(l, requests) ==>
              var b := Replay(l, requests); b.modelCalls == |requests| && b.reservedTokens == Sum(requests)
  {
    if requests != [] {
      var before, last := requests[..|requests| - 1], requests[|requests| - 1];
      ReplayMeaning(l, before);
      assert requests == before + [last];
      SumConcat(before, [last]);
      assert Sum([last]) == last + Sum([]);
    }
  }

  /** A reservation is granted exactly when it and everything asked before it fit the limits together:
      after one refusal nothing is granted any more, however small. */
  lemma GrantedWhileAllFit(l: Limits, requests: seq<int>, tokens: int)
    requires l.maxModelCalls >= 0 && l.maxReservedTokens >= 0
    ensures Grants(l, Replay(l, requests), tokens) <==> Fits(l, requests + [tokens])
  {
    ReplayMeaning(l, requests + [tokens]);
    ReplayMeaning(l, requests);
    assert (requests + [tokens])[..|requests|] == requests;
  }

  // ---------------------------------------------------------------- the gate

  const TEMPLATE_TOKENS := 4096
  const MEDIA_TOKENS := 16384

  /** Input bytes, the output limit, and fixed reserves. */
  function CallTokens(encodedBytes: nat, outputLimit: int): nat {
    encodedBytes + (if outputLimit > 1 then outputLimit else 1) + TEMPLATE_TOKENS + MEDIA_TOKENS
  }

  class Provider {
    ghost var calls: seq<nat>

    constructor ()
      ensures calls == []
    {
      calls := [];
    }

    method Call(ghost tokens: nat)
      modifies this
      ensures calls == old(calls) + [tokens]
    {
      calls := calls + [tokens];
    }
  }

  /** Local reservation, then the durable one, then the provider. The call is made exactly when all
      that apply are granted; a local refusal leaves the checkpoint alone, a durable refusal leaves
      the local charge. */
  method DagBudgetedCall(budget: DagRunBudget?, recovery: Recovery.DagRecovery?, provider: Provider,
                         encodedBytes: nat, outputLimit: int, now: int, later: int)
    returns (called: bool)
    requires now <= later
    requires recovery != null ==> recovery.Valid()
    requires budget != null ==> budget.limits.maxModelCalls >= 0 && budget.limits.maxReservedTokens >= 0
    modifies budget, provider, recovery, if recovery == null then {} else {recovery.gateway}
    ensures recovery != null ==> recovery.Valid() && old(recovery.gateway.log) <= recovery.gateway.log
    ensures called ==> provider.calls == old(provider.calls) + [CallTokens(encodedBytes, outputLimit)]
    ensures !called ==> provider.calls == old(provider.calls)
    ensures budget == null ==> called
    // What one call reserves: its input bytes, at least one token of output, and the fixed reserves.
    ensures called ==>
              provider.calls[|old(provider.calls)|]
              == encodedBytes + (if outputLimit > 1 then outputLimit else 1) + 4096 + 16384
    // A call granted locally is refused only by a checkpoint that is failed, expired or at its limits, or
    // by a save that did not succeed.
    ensures budget != null && recovery != null && !called
            && Grants(budget.limits, old(budget.View()), CallTokens(encodedBytes, outputLimit)) ==>
              || recovery.failed || recovery.state.deadline <= later
              || budget.limits.maxModelCalls <= old(recovery.state.modelCalls)
              || budget.limits.maxReservedTokens
                 < old(recovery.state.reservedTokens) + CallTokens(encodedBytes, outputLimit)
    ensures budget != null ==>
              var tokens := CallTokens(encodedBytes, outputLimit);
              && budget.View() == AfterReserve(budget.limits, old(budget.View()), tokens)
              && (called ==> Grants(budget.limits, old(budget.View()), tokens))
              && (called && recovery != null ==>
                    && recovery.Synced()
                    && recovery.state.modelCalls == old(recovery.state.modelCalls) + 1 <= budget.limits.maxModelCalls
                    && recovery.state.reservedTokens == old(recovery.state.reservedTokens) + tokens
                    && recovery.state.reservedTokens <= budget.limits.maxReservedTokens)
              && (recovery == null && Grants(budget.limits, old(budget.View()), tokens) ==> called)
    ensures recovery != null ==>
              budget == null || !Grants(budget.limits, old(budget.View()), CallTokens(encodedBytes, outputLimit)) ==>
              recovery.View() == old(recovery.View()) && recovery.gateway.log == old(recovery.gateway.log)
  {
    var tokens := CallTokens(encodedBytes, outputLimit);
    if budget != null {
      var granted := budget.Reserve(tokens);
      if !granted {
        return false;
      }
      if recovery != null {
        var refused := recovery.Reserve(now, later, tokens, budget.limits.maxModelCalls,
                                        budget.limits.maxReservedTokens);
        if refused.Some? {
          return false;
        }
      }
    }
    provider.Call(tokens);
    called := true;
  }

  // ---------------------------------------------------------------- scopes and coroutines

  /** What the coroutines of a request do: gated calls, scopes, adapters that turn an exception into a
      result, and new coroutines that share the scope they are created in. */
  datatype Action =
    | ModelCall(tokens: int)
    | Scope(owner: string, limits: Limits, body: Actions)
    | Attempt(body: Actions)
    | Spawn(body: Actions)

  datatype Actions = Nil | Cons(head: Action, tail: Actions)

  /** What a coroutine still has to do. */
  datatype Code = Stop | Next(head: Action, rest: Code) | CloseScope(rest: Code) | EndAttempt(rest: Code)

  function Then(actions: Actions, rest: Code): Code {
    match actions
    case Nil => rest
    case Cons(head, tail) => Next(head, Then(tail, rest))
  }

  /** Where an exception is caught. */
  function Unwind(code: Code): Option<Code> {
    match code
    case Stop => None
    case Next(_, rest) => Unwind(rest)
    case CloseScope(rest) => Unwind(rest)
    case EndAttempt(rest) => Some(rest)
  }

  /** A gated call waits for the durable reservation after the local one was granted, and is then made. */
  datatype Coroutine =
    | Running(code: Code)
    | Paying(tokens: int, code: Code)
    | Issuing(tokens: int, code: Code)
    | Returned
    | Failed

  function Raise(code: Code): Coroutine {
    match Unwind(code)
    case None => Failed
    case Some(rest) => Running(rest)
  }

  /** An outermost scope: its owner, limits and budget, and the coroutines in it, the first being the one
      that opened it. */
  datatype Pool = Pool(owner: string, limits: Limits, budget: Budget, coroutines: seq<Coroutine>, calls: seq<int>)

  /** Whose turn it is, with the answer of a durable reservation if that is what it waits for. */
  datatype Turn = Go(index: nat, durableGrants: bool) | Cancel(index: nat)

  function Opened(owner: string, limits: Limits, body: Actions): Pool {
    Pool(owner, limits, FRESH, [Running(Then(body, Stop))], [])
  }

  /** How the scope ends when its opening coroutine has: it raises if that one failed, and also if the
      budget refused anything. */
  predicate ScopeRaises(w: Pool)
    requires w.coroutines != []
  {
    w.coroutines[0].Failed? || w.budget.exhausted
  }

  function Perform(w: Pool, i: nat, action: Action, rest: Code): Pool
    requires i < |w.coroutines|
  {
    match action
    case ModelCall(tokens) =>
      var next := if Grants(w.limits, w.budget, tokens) then Paying(tokens, rest) else Raise(rest);
      w.(budget := AfterReserve(w.limits, w.budget, tokens), coroutines := w.coroutines[i := next])
    case Scope(owner, _, body) =>
      var next := if owner != w.owner || w.budget.exhausted then Raise(rest) else Running(Then(body, CloseScope(rest)));
      w.(coroutines := w.coroutines[i := next])
    case Attempt(body) => w.(coroutines := w.coroutines[i := Running(Then(body, EndAttempt(rest)))])
    case Spawn(body) => w.(coroutines := w.coroutines[i := Running(rest)] + [Running(Then(body, Stop))])
  }

  function Take(w: Pool, t: Turn): Pool
    requires t.index < |w.coroutines|
  {
    var i := t.index;
    if t.Cancel? then
      w.(coroutines := w.coroutines[i := if w.coroutines[i].Returned? then Returned else Failed])
    else
      match w.coroutines[i]
      case Returned => w
      case Failed => w
      case Paying(tokens, rest) =>
        w.(coroutines := w.coroutines[i := if t.durableGrants then Issuing(tokens, rest) else Raise(rest)])
      case Issuing(tokens, rest) =>
        w.(calls := w.calls + [tokens], coroutines := w.coroutines[i := Running(rest)])
      case Running(code) =>
        match code {
          case Stop => w.(coroutines := w.coroutines[i := Returned])
          case EndAttempt(rest) => w.(coroutines := w.coroutines[i := Running(rest)])
          case CloseScope(rest) =>
            w.(coroutines := w.coroutines[i := if w.budget.exhausted then Raise(rest) else Running(rest)])
          case Next(action, rest) => Perform(w, i, action, rest)
        }
  }

  /** Any interleaving. */
  ghost predicate Leads(w: Pool, turns: seq<Turn>, v: Pool)
    decreases |turns|
  {
    if turns == [] then w == v
    else turns[0].index < |w.coroutines| && Leads(Take(w, turns[0]), turns[1..], v)
  }

  // ---------------------------------------------------------------- what any interleaving keeps

  /** Tokens granted to a call that is not made yet. */
  function Granted(c: Coroutine): int {
    if c.Paying? || c.Issuing? then c.tokens else 0
  }

  function One(c: Coroutine): nat {
    if c.Paying? || c.Issuing? then 1 else 0
  }

  function PendingTokens(cs: seq<Coroutine>): int {
    if cs == [] then 0 else PendingTokens(cs[..|cs| - 1]) + Granted(cs[|cs| - 1])
  }

  function PendingCalls(cs: seq<Coroutine>): nat {
    if cs == [] then 0 else PendingCalls(cs[..|cs| - 1]) + One(cs[|cs| - 1])
  }

  lemma {:induction false} PendingUpdate(cs: seq<Coroutine>, i: nat, c: Coroutine)
    requires i < |cs|
    ensures PendingTokens(cs[i := c]) == PendingTokens(cs) - Granted(cs[i]) + Granted(c)
    ensures PendingCalls(cs[i := c]) == PendingCalls(cs) - One(cs[i]) + One(c)
    decreases |cs|
  {
    var n := |cs| - 1;
    if i < n {
      PendingUpdate(cs[..n], i, c);
      assert cs[i := c][..n] == cs[..n][i := c];
    } else {
      assert cs[i := c][..n] == cs[..n];
    }
  }

  lemma PendingMore(cs: seq<Coroutine>, c: Coroutine)
    ensures PendingTokens(cs + [c]) == PendingTokens(cs) + Granted(c)
    ensures PendingCalls(cs + [c]) == PendingCalls(cs) + One(c)
  {
    assert (cs + [c])[..|cs|] == cs;
  }

  lemma {:induction false} PendingIsPositive(cs: seq<Coroutine>)
    requires forall i :: 0 <= i < |cs| ==> Granted(cs[i]) >= 0
    ensures PendingTokens(cs) >= 0
  {
    if cs != [] {
      PendingIsPositive(cs[..|cs| - 1]);
    }
  }

  predicate WithinLimits(l: Limits, b: Budget) {
    b.modelCalls <= l.maxModelCalls && b.reservedTokens <= l.maxReservedTokens
  }

  /** Calls made or granted are paid for by the counters, and the counters are within the limits. */
  ghost predicate Charged(w: Pool) {
    && WithinLimits(w.limits, w.budget)
    && (forall i :: 0 <= i < |w.coroutines| ==> Granted(w.coroutines[i]) >= 0)
    && |w.calls| + PendingCalls(w.coroutines) <= w.budget.modelCalls
    && Sum(w.calls) + PendingTokens(w.coroutines) <= w.budget.reservedTokens
  }

  lemma ReplacedIsCharged(w: Pool, i: nat, c: Coroutine, v: Pool)
    requires Charged(w) && i < |w.coroutines| && Granted(c) >= 0 && v.limits == w.limits
    requires v.coroutines == w.coroutines[i := c]
    requires WithinLimits(v.limits, v.budget)
    requires |v.calls| + One(c) - One(w.coroutines[i]) - |w.calls| <= v.budget.modelCalls - w.budget.modelCalls
    requires Sum(v.calls) + Granted(c) - Granted(w.coroutines[i]) - Sum(w.calls)
             <= v.budget.reservedTokens - w.budget.reservedTokens
    ensures Charged(v)
  {
    PendingUpdate(w.coroutines, i, c);
  }

  lemma SpawnedIsCharged(w: Pool, c: Coroutine, v: Pool)
    requires Charged(w) && Granted(c) == 0 && One(c) == 0 && v == w.(coroutines := w.coroutines + [c])
    ensures Charged(v)
  {
    PendingMore(w.coroutines, c);
  }

  lemma TurnKeepsCharged(w: Pool, t: Turn)
    requires Charged(w) && t.index < |w.coroutines|
    ensures Charged(Take(w, t)) && Take(w, t).limits == w.limits
  {
    var i, v := t.index, Take(w, t);
    var c := w.coroutines[i];
    if c.Issuing? && t.Go? {
      SumConcat(w.calls, [c.tokens]);
      assert Sum([c.tokens]) == c.tokens + Sum([]);
    }
    if c.Running? && t.Go? && c.code.Next? && c.code.head.Spawn? {
      var u := w.(coroutines := w.coroutines[i := Running(c.code.rest)]);
      ReplacedIsCharged(w, i, Running(c.code.rest), u);
      SpawnedIsCharged(u, Running(Then(c.code.head.body, Stop)), v);
    } else if v != w {
      ReplacedIsCharged(w, i, v.coroutines[i], v);
    }
  }

  lemma {:induction false} ActionsAreCharged(w: Pool, turns: seq<Turn>, v: Pool)
    requires Charged(w) && Leads(w, turns, v)
    ensures Charged(v) && v.limits == w.limits
    decreases |turns|
  {
    if turns != [] {
      TurnKeepsCharged(w, turns[0]);
      ActionsAreCharged(Take(w, turns[0]), turns[1..], v);
    }
  }

  /** Everything done in an outermost scope, by any number of coroutines in any interleaving, through any
      nesting of scopes and adapters, stays within that scope's own limits. */
  lemma ScopeStaysWithinLimits(owner: string, limits: Limits, body: Actions, turns: seq<Turn>, v: Pool)
    requires limits.maxModelCalls >= 0 && limits.maxReservedTokens >= 0
    requires Leads(Opened(owner, limits, body), turns, v)
    ensures |v.calls| <= limits.maxModelCalls && Sum(v.calls) <= limits.maxReservedTokens
  {
    var w := Opened(owner, limits, body);
    PendingMore([], w.coroutines[0]);
    assert [] + w.coroutines == w.coroutines;
    ActionsAreCharged(w, turns, v);
    PendingIsPositive(v.coroutines);
  }

  predicate Spawning(w: Pool, t: Turn)
    requires t.index < |w.coroutines|
  {
    var c := w.coroutines[t.index];
    c.Running? && t.Go? && c.code.Next? && c.code.head.Spawn?
  }

  lemma RefusedSpawn(w: Pool, t: Turn, v: Pool)
    requires t.index < |w.coroutines| && Spawning(w, t) && v == Take(w, t)
    ensures v.budget == w.budget && |v.coroutines| >= |w.coroutines| && v.calls == w.calls
    ensures PendingCalls(v.coroutines) == PendingCalls(w.coroutines)
  {
    var i, c := t.index, w.coroutines[t.index];
    PendingUpdate(w.coroutines, i, Running(c.code.rest));
    PendingMore(w.coroutines[i := Running(c.code.rest)], Running(Then(c.code.head.body, Stop)));
  }

  /** Any other turn of a refused run changes one coroutine, and a call made is one granted before. */
  lemma RefusedMove(w: Pool, t: Turn, v: Pool)
    requires w.budget.exhausted && t.index < |w.coroutines| && !Spawning(w, t) && v == Take(w, t)
    ensures v.budget == w.budget && |v.coroutines| == |w.coroutines|
    ensures v.coroutines == w.coroutines[t.index := v.coroutines[t.index]]
    ensures |v.calls| + One(v.coroutines[t.index]) <= |w.calls| + One(w.coroutines[t.index])
  {
  }

  lemma RefusedTurn(w: Pool, t: Turn, v: Pool)
    requires w.budget.exhausted && t.index < |w.coroutines| && v == Take(w, t)
    ensures v.budget == w.budget && |v.coroutines| >= |w.coroutines|
    ensures |v.calls| + PendingCalls(v.coroutines) <= |w.calls| + PendingCalls(w.coroutines)
  {
    if Spawning(w, t) {
      RefusedSpawn(w, t, v);
    } else {
      RefusedMove(w, t, v);
      PendingUpdate(w.coroutines, t.index, v.coroutines[t.index]);
    }
  }

  /** Fail closed: once the budget refused anything, no further reservation is granted in the scope, the
      only calls still to come were granted before, and the scope raises, even if every exception inside
      is swallowed. */
  lemma {:induction false} RefusalSurvivesAdapters(w: Pool, turns: seq<Turn>, v: Pool)
    requires w.budget.exhausted && w.coroutines != [] && Leads(w, turns, v)
    ensures v.budget == w.budget && v.coroutines != [] && ScopeRaises(v)
    ensures |v.calls| + PendingCalls(v.coroutines) <= |w.calls| + PendingCalls(w.coroutines)
    decreases |turns|
  {
    if turns != [] {
      RefusedTurn(w, turns[0], Take(w, turns[0]));
      RefusalSurvivesAdapters(Take(w, turns[0]), turns[1..], v);
    }
  }

  // ---------------------------------------------------------------- nested scopes

  /** A scope inside another one is entered only by the same owner and before any refusal; otherwise it
      raises where it stands. Its own limits never count. */
  lemma ScopeIsEntered(w: Pool, i: nat, owner: string, limits: Limits, body: Actions, rest: Code, grants: bool)
    requires i < |w.coroutines| && w.coroutines[i] == Running(Next(Scope(owner, limits, body), rest))
    ensures var v := Take(w, Go(i, grants));
            && v.budget == w.budget && v.limits == w.limits && v.calls == w.calls
            && v.coroutines == w.coroutines[i := v.coroutines[i]]
            && if owner == w.owner && !w.budget.exhausted then
                 v.coroutines[i] == Running(Then(body, CloseScope(rest)))
               else v.coroutines[i] == Raise(rest)
  {
  }

  /** All scopes inside belong to the owner. */
  predicate OwnActions(owner: string, actions: Actions) {
    match actions
    case Nil => true
    case Cons(head, tail) => OwnAction(owner, head) && OwnActions(owner, tail)
  }

  predicate OwnAction(owner: string, action: Action) {
    match action
    case ModelCall(_) => true
    case Scope(o, _, body) => o == owner && OwnActions(owner, body)
    case Attempt(body) => OwnActions(owner, body)
    case Spawn(body) => OwnActions(owner, body)
  }

  predicate OwnCode(owner: string, code: Code) {
    match code
    case Stop => true
    case Next(head, rest) => OwnAction(owner, head) && OwnCode(owner, rest)
    case CloseScope(rest) => OwnCode(owner, rest)
    case EndAttempt(rest) => OwnCode(owner, rest)
  }

  predicate OwnCoroutine(owner: string, c: Coroutine) {
    c.Returned? || c.Failed? || OwnCode(owner, c.code)
  }

  ghost predicate Own(w: Pool) {
    forall i :: 0 <= i < |w.coroutines| ==> OwnCoroutine(w.owner, w.coroutines[i])
  }

  function Append(a: Actions, b: Actions): Actions {
    match a
    case Nil => b
    case Cons(head, tail) => Cons(head, Append(tail, b))
  }

  /** The same actions without nested scopes. */
  function Unscoped(actions: Actions): Actions {
    match actions
    case Nil => Nil
    case Cons(ModelCall(tokens), tail) => Cons(ModelCall(tokens), Unscoped(tail))
    case Cons(Scope(_, _, body), tail) => Append(Unscoped(body), Unscoped(tail))
    case Cons(Attempt(body), tail) => Cons(Attempt(Unscoped(body)), Unscoped(tail))
    case Cons(Spawn(body), tail) => Cons(Spawn(Unscoped(body)), Unscoped(tail))
  }

  function UnscopedCode(code: Code): Code {
    match code
    case Stop => Stop
    case CloseScope(rest) => UnscopedCode(rest)
    case EndAttempt(rest) => EndAttempt(UnscopedCode(rest))
    case Next(ModelCall(tokens), rest) => Next(ModelCall(tokens), UnscopedCode(rest))
    case Next(Scope(_, _, body), rest) => Then(Unscoped(body), UnscopedCode(rest))
    case Next(Attempt(body), rest) => Next(Attempt(Unscoped(body)), UnscopedCode(rest))
    case Next(Spawn(body), rest) => Next(Spawn(Unscoped(body)), UnscopedCode(rest))
  }

  function UnscopedCoroutine(c: Coroutine): Coroutine {
    match c
    case Running(code) => Running(UnscopedCode(code))
    case Paying(tokens, code) => Paying(tokens, UnscopedCode(code))
    case Issuing(tokens, code) => Issuing(tokens, UnscopedCode(code))
    case Returned => Returned
    case Failed => Failed
  }

  function UnscopedPool(w: Pool): Pool {
    w.(coroutines := seq(|w.coroutines|, i requires 0 <= i < |w.coroutines| => UnscopedCoroutine(w.coroutines[i])))
  }

  lemma {:induction false} ThenAppend(a: Actions, b: Actions, rest: Code)
    ensures Then(Append(a, b), rest) == Then(a, Then(b, rest))
    decreases a
  {
    match a
    case Nil =>
    case Cons(_, tail) => ThenAppend(tail, b, rest);
  }

  lemma {:induction false} UnscopedThen(actions: Actions, rest: Code)
    ensures UnscopedCode(Then(actions, rest)) == Then(Unscoped(actions), UnscopedCode(rest))
    decreases actions
  {
    match actions
    case Nil =>
    case Cons(head, tail) =>
      UnscopedThen(tail, rest);
      if head.Scope? {
        ThenAppend(Unscoped(head.body), Unscoped(tail), UnscopedCode(rest));
      }
  }

  lemma {:induction false} UnwindThen(actions: Actions, rest: Code)
    ensures Unwind(Then(actions, rest)) == Unwind(rest)
    decreases actions
  {
    match actions
    case Nil =>
    case Cons(_, tail) => UnwindThen(tail, rest);
  }

  /** An exception is caught at the same place. */
  lemma {:induction false} UnscopedRaise(code: Code)
    ensures Raise(UnscopedCode(code)) == UnscopedCoroutine(Raise(code))
    decreases code
  {
    match code
    case Stop =>
    case CloseScope(rest) => UnscopedRaise(rest);
    case EndAttempt(rest) =>
    case Next(head, rest) =>
      UnscopedRaise(rest);
      if head.Scope? {
        UnwindThen(Unscoped(head.body), UnscopedCode(rest));
      }
  }

  lemma {:induction false} OwnThen(owner: string, actions: Actions, rest: Code)
    requires OwnActions(owner, actions) && OwnCode(owner, rest)
    ensures OwnCode(owner, Then(actions, rest))
    decreases actions
  {
    match actions
    case Nil =>
    case Cons(_, tail) => OwnThen(owner, tail, rest);
  }

  lemma {:induction false} OwnRaise(owner: string, code: Code)
    requires OwnCode(owner, code)
    ensures OwnCoroutine(owner, Raise(code))
    decreases code
  {
    match code
    case Next(_, rest) => OwnRaise(owner, rest);
    case CloseScope(rest) => OwnRaise(owner, rest);
    case _ =>
  }

  /** Opening or closing a scope is no turn at all once scopes are left out. */
  predicate ScopeTurn(w: Pool, t: Turn)
    requires t.index < |w.coroutines|
  {
    var c := w.coroutines[t.index];
    t.Go? && c.Running? && (c.code.CloseScope? || (c.code.Next? && c.code.head.Scope?))
  }

  lemma OwnTurn(w: Pool, t: Turn)
    requires Own(w) && t.index < |w.coroutines|
    ensures Own(Take(w, t)) && Take(w, t).owner == w.owner
  {
    var c := w.coroutines[t.index];
    assert OwnCoroutine(w.owner, c);
    if !c.Returned? && !c.Failed? {
      OwnRaise(w.owner, c.code);
      if c.code.Next? {
        OwnRaise(w.owner, c.code.rest);
        match c.code.head {
          case Scope(_, _, body) => OwnThen(w.owner, body, CloseScope(c.code.rest));
          case Attempt(body) => OwnThen(w.owner, body, EndAttempt(c.code.rest));
          case Spawn(body) => OwnThen(w.owner, body, Stop);
          case _ =>
        }
      }
      if c.code.CloseScope? {
        OwnRaise(w.owner, c.code.rest);
      }
    }
  }

  lemma UnscopedTurn(w: Pool, t: Turn)
    requires Own(w) && t.index < |w.coroutines| && !Take(w, t).budget.exhausted
    ensures UnscopedPool(Take(w, t)) == if ScopeTurn(w, t) then UnscopedPool(w) else Take(UnscopedPool(w), t)
  {
    var i, u, v := t.index, UnscopedPool(w), Take(w, t);
    var c := w.coroutines[i];
    assert OwnCoroutine(w.owner, c) && u.coroutines[i] == UnscopedCoroutine(c);
    if !c.Returned? && !c.Failed? {
      UnscopedRaise(c.code);
      if c.Running? && c.code.Next? {
        UnscopedRaise(c.code.rest);
        match c.code.head {
          case Scope(_, _, body) => UnscopedThen(body, CloseScope(c.code.rest));
          case Attempt(body) => UnscopedThen(body, EndAttempt(c.code.rest));
          case Spawn(body) => UnscopedThen(body, Stop);
          case _ =>
        }
      }
    }
    var expected := if ScopeTurn(w, t) then u else Take(u, t);
    assert |UnscopedPool(v).coroutines| == |expected.coroutines|;
    assert UnscopedPool(v).coroutines == expected.coroutines;
  }

  /** A nested scope of the same owner is its body: as long as nothing is refused, every run is a run of
      the same coroutines without their nested scopes, whatever limits those name. */
  lemma {:induction false} NestedScopeIsItsBody(w: Pool, turns: seq<Turn>, v: Pool) returns (others: seq<Turn>)
    requires Own(w) && Leads(w, turns, v) && !v.budget.exhausted
    ensures Leads(UnscopedPool(w), others, UnscopedPool(v))
    decreases |turns|
  {
    if turns == [] {
      others := [];
    } else {
      var t := turns[0];
      var u := Take(w, t);
      OwnTurn(w, t);
      var rest := NestedScopeIsItsBody(u, turns[1..], v);
      if u.budget.exhausted {
        StaysExhausted(u, turns[1..], v);
      }
      UnscopedTurn(w, t);
      others := if ScopeTurn(w, t) then rest else [t] + rest;
      assert !ScopeTurn(w, t) ==> others[0] == t && others[1..] == rest;
    }
  }

  lemma {:induction false} StaysExhausted(w: Pool, turns: seq<Turn>, v: Pool)
    requires w.budget.exhausted && Leads(w, turns, v)
    ensures v.budget.exhausted
    decreases |turns|
  {
    if turns != [] {
      StaysExhausted(Take(w, turns[0]), turns[1..], v);
    }
  }
}
