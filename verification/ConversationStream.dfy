/** The conversation stream: the producer that turns provider chunks into tokens, the event
    generator that numbers them, and the validator of the event contract. */
module ConversationStream {
  import opened DagTypes

  const MAX_OUTPUT_CHARS := 65536

  // ---------------------------------------------------------------- the provider

  datatype Block = TextBlock(text: string) | OtherBlock

  datatype Finish = Interrupted | Completed | Unfinished

  datatype Chunk = Chunk(content: seq<Block>, isLast: bool, finish: Finish)

  /** How a model call goes: it may raise, answer without streaming, or stream some chunks and then
      end or break; closing the stream may raise too. */
  datatype Provider =
    | CallRaises
    | NotAStream
    | Stream(chunks: seq<Chunk>, breaks: bool, closeRaises: bool)

  /** The text blocks of a chunk, joined. */
  function TextOf(content: seq<Block>): string {
    if content == [] then ""
    else (if content[0].TextBlock? then content[0].text else "") + TextOf(content[1..])
  }

  /** The text of a chunk is that of its text blocks in order; other blocks say nothing. */
  lemma {:induction false} TextOfBlocks(a: seq<Block>, b: seq<Block>)
    ensures TextOf(a + b) == TextOf(a) + TextOf(b)
    ensures forall text :: TextOf([TextBlock(text)]) == text
    ensures TextOf([OtherBlock]) == ""
  {
    if a == [] {
      assert a + b == b;
    } else {
      TextOfBlocks(a[1..], b);
      assert (a + b)[1..] == a[1..] + b;
    }
  }

  function Concat(tokens: seq<string>): string {
    if tokens == [] then "" else Concat(tokens[..|tokens| - 1]) + tokens[|tokens| - 1]
  }

  lemma ConcatSnoc(tokens: seq<string>, token: string)
    ensures Concat(tokens + [token]) == Concat(tokens) + token
  {
    assert (tokens + [token])[..|tokens|] == tokens;
  }

  // ---------------------------------------------------------------- what is promised

  /** The text of the first chunks, as the increments they are. */
  function Increments(chunks: seq<Chunk>, n: nat): string
    requires n <= |chunks|
  {
    if n == 0 then "" else Increments(chunks, n - 1) + TextOf(chunks[n - 1].content)
  }

  /** An increment that can be passed on. */
  predicate Passes(chunks: seq<Chunk>, k: nat)
    requires k < |chunks|
  {
    !chunks[k].isLast && !chunks[k].finish.Interrupted? && |Increments(chunks, k + 1)| <= MAX_OUTPUT_CHARS
  }

  /** A complete answer ends at chunk `n`: increments up to there, then a completed final snapshot
      that extends what they said, of acceptable size. */
  predicate EndsWell(chunks: seq<Chunk>, n: nat) {
    && n < |chunks|
    && (forall k :: 0 <= k < n ==> Passes(chunks, k))
    && chunks[n].isLast && chunks[n].finish.Completed?
    && Increments(chunks, n) <= TextOf(chunks[n].content)
    && 1 <= |TextOf(chunks[n].content)| <= MAX_OUTPUT_CHARS
  }

  /** At most one chunk can be that ending. */
  lemma EndingIsUnique(chunks: seq<Chunk>, m: nat, n: nat)
    requires EndsWell(chunks, m) && EndsWell(chunks, n)
    ensures m == n
  {
    assert m < n ==> Passes(chunks, m);
    assert n < m ==> Passes(chunks, n);
  }

  /** A complete answer ends at `n` and closing the stream raises nothing. */
  predicate Succeeds(p: Provider, n: nat) {
    p.Stream? && !p.closeRaises && EndsWell(p.chunks, n)
  }

  ghost predicate Answers(p: Provider, reply: string) {
    exists n: nat :: Succeeds(p, n) && reply == TextOf(p.chunks[n].content)
  }

  lemma AnswerIsUnique(p: Provider, reply: string, other: string)
    requires Answers(p, reply) && Answers(p, other)
    ensures reply == other
    ensures 1 <= |reply| <= MAX_OUTPUT_CHARS
  {
    var m: nat :| Succeeds(p, m) && reply == TextOf(p.chunks[m].content);
    var n: nat :| Succeeds(p, n) && other == TextOf(p.chunks[n].content);
    EndingIsUnique(p.chunks, m, n);
  }

  /** What holds of the tokens already yielded, whatever happens next. */
  ghost predicate TokensOk(tokens: seq<string>) {
    (forall i :: 0 <= i < |tokens| ==> tokens[i] != "") && |Concat(tokens)| <= MAX_OUTPUT_CHARS
  }

  /** The tokens spell the first `n` increments, or the last snapshot that extends them. */
  ghost predicate Spelled(chunks: seq<Chunk>, n: nat, tokens: seq<string>) {
    && n <= |chunks|
    && (|| Concat(tokens) == Increments(chunks, n)
        || (n < |chunks| && chunks[n].isLast && Increments(chunks, n) <= Concat(tokens) == TextOf(chunks[n].content)))
  }

  /** The loop's progress: `n` chunks passed on. */
  ghost predicate Streaming(chunks: seq<Chunk>, n: nat, tokens: seq<string>) {
    && n <= |chunks|
    && (forall k :: 0 <= k < n ==> Passes(chunks, k))
    && TokensOk(tokens) && Concat(tokens) == Increments(chunks, n)
  }

  lemma NextToken(tokens: seq<string>, text: string, next: seq<string>)
    requires TokensOk(tokens) && |Concat(tokens) + text| <= MAX_OUTPUT_CHARS
    requires next == if text != "" then tokens + [text] else tokens
    ensures TokensOk(next) && Concat(next) == Concat(tokens) + text
  {
    if text != "" {
      ConcatSnoc(tokens, text);
      assert forall i :: 0 <= i < |next| ==> next[i] == if i < |tokens| then tokens[i] else text;
    } else {
      assert Concat(tokens) + text == Concat(tokens);
    }
  }

  /** Once a chunk neither passes nor ends the answer, or no chunk is left, there is no answer. */
  lemma NoAnswer(p: Provider, n: nat)
    requires p.Stream? && n <= |p.chunks| && (forall k :: 0 <= k < n ==> Passes(p.chunks, k))
    requires n < |p.chunks| ==> !Passes(p.chunks, n) && !Succeeds(p, n)
    ensures forall reply :: !Answers(p, reply)
  {
    forall m: nat | m < n
      ensures !Succeeds(p, m)
    {
      assert Passes(p.chunks, m);
    }
    forall m: nat | n < m
      ensures !Succeeds(p, m)
    {
      assert n < |p.chunks| ==> !Passes(p.chunks, n);
    }
  }

  /** The producer. It succeeds exactly when there is an answer, and then its tokens spell it;
      otherwise they are what the provider said so far. */
  method Produce(p: Provider) returns (tokens: seq<string>, ok: bool)
    ensures TokensOk(tokens)
    ensures ok ==> Answers(p, Concat(tokens))
    ensures !ok ==> forall reply :: !Answers(p, reply)
    ensures if p.Stream? then exists n: nat :: Spelled(p.chunks, n, tokens) else tokens == []
  {
    tokens, ok := [], false;
    if !p.Stream? {
      return;
    }
    var chunks, count, finished, n := p.chunks, 0, false, 0;
    while n < |chunks|
      invariant 0 <= n && Streaming(chunks, n, tokens) && count == |Concat(tokens)| && !finished
    {
      var chunk := chunks[n];
      if chunk.finish.Interrupted? {
        NoAnswer(p, n);
        assert Spelled(chunks, n, tokens);
        return;
      }
      var text := TextOf(chunk.content);
      if chunk.isLast {
        var previous := Concat(tokens);
        if !(previous <= text) {
          NoAnswer(p, n);
          assert Spelled(chunks, n, tokens);
          return;
        }
        text := text[|previous|..];
        assert previous + text == TextOf(chunk.content);
      }
      count := count + |text|;
      if count > MAX_OUTPUT_CHARS {
        NoAnswer(p, n);
        assert Spelled(chunks, n, tokens);
        return;
      }
      ghost var before := tokens;
      if text != "" {
        tokens := tokens + [text];
      }
      NextToken(before, text, tokens);
      if chunk.isLast {
        finished := chunk.finish.Completed?;
        assert Spelled(chunks, n, tokens);
        if !finished || count == 0 || p.closeRaises {
          NoAnswer(p, n);
          return;
        }
        assert Succeeds(p, n);
        ok := true;
        return;
      }
      assert Passes(chunks, n);
      n := n + 1;
    }
    NoAnswer(p, n);
    assert Spelled(chunks, n, tokens);
  }

  /** The whole answer at once; nothing is returned when the stream fails. */
  method Generate(p: Provider) returns (reply: Option<string>)
    ensures forall r :: reply == Some(r) <==> Answers(p, r)
  {
    var tokens, ok := Produce(p);
    reply := if ok then Some(Concat(tokens)) else None;
    forall r | Answers(p, r) && ok
      ensures r == Concat(tokens)
    {
      AnswerIsUnique(p, r, Concat(tokens));
    }
  }

  // ---------------------------------------------------------------- events

  /** A field of an event as a mapping gives it; Python's `True` is not a number here. */
  datatype Field = Absent | Truth(truth: bool) | Number(number: real) | Text(text: string) | OtherField

  datatype Event = Event(sequence: Field, kind: Field, data: Field)

  const STREAM_FAILED := "CONVERSATION_STREAM_FAILED"

  function Plain(sequence: nat, kind: string, data: string): Event {
    Event(Number(sequence as real), Text(kind), Text(data))
  }

  /** Token events followed by one terminal event, numbered from zero. */
  function Transcript(tokens: seq<string>, terminal: string, data: string): seq<Event> {
    seq(|tokens|, i requires 0 <= i < |tokens| => Plain(i, "token", tokens[i])) + [Plain(|tokens|, terminal, data)]
  }

  /** The contract of an event stream. */
  predicate Legal(e: Event, position: nat, last: bool) {
    && e.sequence == Number(position as real)
    && e.data.Text?
    && if last then (e.kind == Text("done") && e.data.text == "") || (e.kind == Text("error") && e.data.text != "")
       else e.kind == Text("token") && e.data.text != ""
  }

  predicate Contract(events: seq<Event>) {
    events != [] && forall i :: 0 <= i < |events| ==> Legal(events[i], i, i == |events| - 1)
  }

  /** The event generator: every run meets the contract, and it ends with `done` exactly when the
      provider gave a complete answer, which the token events then spell. */
  method Events(p: Provider) returns (events: seq<Event>, ghost tokens: seq<string>)
    ensures Contract(events)
    ensures || (events == Transcript(tokens, "done", "") && Answers(p, Concat(tokens)))
            || (events == Transcript(tokens, "error", STREAM_FAILED) && forall reply :: !Answers(p, reply))
  {
    var texts, ok := Produce(p);
    tokens := texts;
    events := [];
    var sequence := 0;
    while sequence < |texts|
      invariant 0 <= sequence <= |texts|
      invariant |events| == sequence && forall i :: 0 <= i < sequence ==> events[i] == Plain(i, "token", texts[i])
    {
      events := events + [Plain(sequence, "token", texts[sequence])];
      sequence := sequence + 1;
    }
    if ok {
      events := events + [Plain(sequence, "done", "")];
      assert events == Transcript(tokens, "done", "");
    } else {
      events := events + [Plain(sequence, "error", STREAM_FAILED)];
      assert events == Transcript(tokens, "error", STREAM_FAILED);
    }
  }

  // ---------------------------------------------------------------- the validator

  datatype Violation =
    | NoEvents
    | BadSequence(position: nat)
    | UnsupportedType
    | DataNotText
    | AfterTerminal
    | EmptyToken
    | TerminalNotLast
    | DoneWithData
    | ErrorWithoutData
    | NoTerminal

  /** The validator accepts exactly the streams that meet the contract. Its check for an event
      after the terminal one is never the check that fails. */
  method Validate(events: seq<Event>) returns (violation: Option<Violation>)
    ensures violation.None? <==> Contract(events)
    ensures violation != Some(AfterTerminal)
    ensures violation.Some? && violation.value.BadSequence? ==>
              var i := violation.value.position;
              i < |events| && events[i].sequence != Number(i as real) && forall k :: 0 <= k < i ==>
                    Legal(events[k], k, false)
  {
    if |events| == 0 {
      return Some(NoEvents);
    }
    var terminalSeen := false;
    for expected := 0 to |events|
      invariant forall k :: 0 <= k < expected ==> Legal(events[k], k, terminalSeen && k == |events| - 1)
      invariant terminalSeen ==> expected == |events|
    {
      var event := events[expected];
      if event.sequence != Number(expected as real) {
        return Some(BadSequence(expected));
      }
      if event.kind !in {Text("token"), Text("done"), Text("error")} {
        return Some(UnsupportedType);
      }
      if !event.data.Text? {
        return Some(DataNotText);
      }
      if terminalSeen {
        return Some(AfterTerminal);
      }
      if event.kind == Text("token") {
        if event.data.text == "" {
          return Some(EmptyToken);
        }
        continue;
      }
      terminalSeen := true;
      if expected != |events| - 1 {
        return Some(TerminalNotLast);
      }
      if event.kind == Text("done") && event.data.text != "" {
        return Some(DoneWithData);
      }
      if event.kind == Text("error") && event.data.text == "" {
        return Some(ErrorWithoutData);
      }
    }
    if !terminalSeen {
      assert Legal(events[|events| - 1], |events| - 1, false);
      assert "token"[0] != "done"[0] && "token"[0] != "error"[0];
      return Some(NoTerminal);
    }
    return None;
  }

  /** A stream that meets the contract reads back as its tokens and its ending. */
  lemma ContractReadsBack(events: seq<Event>) returns (tokens: seq<string>, terminal: string, data: string)
    requires Contract(events)
    ensures events == Transcript(tokens, terminal, data) && terminal in {"done", "error"}
    ensures (terminal == "done") == (data == "") && forall i :: 0 <= i < |tokens| ==> tokens[i] != ""
  {
    var n := |events| - 1;
    assert Legal(events[n], n, true);
    tokens := seq(n, i requires 0 <= i < n => assert Legal(events[i], i, false); events[i].data.text);
    terminal, data := events[n].kind.text, events[n].data.text;
    forall i | 0 <= i < |events|
      ensures events[i] == Transcript(tokens, terminal, data)[i]
    {
      assert Legal(events[i], i, i == n);
    }
  }
}
