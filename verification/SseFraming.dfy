/** The incremental re-framer of task event streams: however the text arrives in chunks, the frames
    are those of the whole text. Event streams end a block at a blank line (section 9.2.6 of the
    WHATWG HTML Standard). */
module SseFraming {
  import opened DagTypes
  import opened Text

  const CRLF2: string := "\r\n\r\n"
  const LF2: string := "\n\n"
  const CR2: string := "\r\r"

  // ---------------------------------------------------------------- boundaries

  predicate Matches(text: string, i: nat, marker: string) {
    i + |marker| <= |text| && text[i..i + |marker|] == marker
  }

  /** `str.find`: the leftmost place of a marker, from `i` on. */
  function Find(text: string, marker: string, i: nat): (r: Option<nat>)
    requires i <= |text|
    ensures r.None? ==> forall j :: i <= j <= |text| ==> !Matches(text, j, marker)
    ensures r.Some? ==> i <= r.value && Matches(text, r.value, marker)
    ensures r.Some? ==> forall j :: i <= j < r.value ==> !Matches(text, j, marker)
    decreases |text| - i
  {
    if Matches(text, i, marker) then Some(i)
    else if i == |text| then None
    else Find(text, marker, i + 1)
  }

  datatype Boundary = Boundary(index: nat, width: nat)

  /** The smaller of two candidates, ordered by place and then by width. */
  function Earlier(a: Option<Boundary>, b: Option<Boundary>): Option<Boundary> {
    if a.None? then b
    else if b.None? then a
    else if a.value.index < b.value.index || (a.value.index == b.value.index && a.value.width <= b.value.width) then a
    else b
  }

  function Candidate(text: string, marker: string): Option<Boundary> {
    match Find(text, marker, 0)
    case None => None
    case Some(i) => Some(Boundary(i, |marker|))
  }

  function FrameBoundary(text: string): Option<Boundary> {
    Earlier(Earlier(Candidate(text, CRLF2), Candidate(text, LF2)), Candidate(text, CR2))
  }

  /** A blank-line marker of that width starts at that place. */
  predicate MarkerAt(text: string, b: Boundary) {
    || (b.width == 4 && Matches(text, b.index, CRLF2))
    || (b.width == 2 && (Matches(text, b.index, LF2) || Matches(text, b.index, CR2)))
  }

  /** A marker of width 2 repeats a character; inside the wide one neighbours differ. */
  lemma MarkerCharacters(text: string, b: Boundary)
    requires MarkerAt(text, b)
    ensures b.index + b.width <= |text| && b.width in {2, 4}
    ensures b.width == 2 ==> text[b.index] == text[b.index + 1]
    ensures b.width == 4 ==> forall k :: b.index <= k < b.index + 3 ==> text[k] != text[k + 1]
  {
    var marker := text[b.index..b.index + b.width];
    if b.width == 4 {
      assert marker == CRLF2;
      assert text[b.index] == marker[0] == '\r' && text[b.index + 1] == marker[1] == '\n';
      assert text[b.index + 2] == marker[2] == '\r' && text[b.index + 3] == marker[3] == '\n';
    } else {
      assert text[b.index] == marker[0] == marker[1] == text[b.index + 1];
    }
  }

  lemma OneMarkerAtAPlace(text: string, b: Boundary, c: Boundary)
    requires MarkerAt(text, b) && MarkerAt(text, c) && b.index == c.index
    ensures b == c
  {
    MarkerCharacters(text, b);
    MarkerCharacters(text, c);
  }

  lemma CandidateMeaning(text: string, marker: string, width: nat)
    requires |marker| == width > 0
    ensures match Candidate(text, marker)
            case None => forall i :: !Matches(text, i, marker)
            case Some(b) =>
              b.width == width && Matches(text, b.index, marker) && forall i ::
                    Matches(text, i, marker) ==> b.index <= i
  {
  }

  /** The boundary is the leftmost marker; there is never more than one at a place. */
  lemma BoundaryMeaning(text: string)
    ensures match FrameBoundary(text)
            case None => forall b :: !MarkerAt(text, b)
            case Some(b) => MarkerAt(text, b) && forall c :: MarkerAt(text, c) ==> b.index < c.index || c == b
  {
    CandidateMeaning(text, CRLF2, 4);
    CandidateMeaning(text, LF2, 2);
    CandidateMeaning(text, CR2, 2);
    if FrameBoundary(text).Some? {
      var b := FrameBoundary(text).value;
      forall c | MarkerAt(text, c) && c.index == b.index
        ensures c == b
      {
        OneMarkerAtAPlace(text, b, c);
      }
    }
  }

  lemma LeftmostIsBoundary(text: string, b: Boundary)
    requires MarkerAt(text, b) && forall c :: MarkerAt(text, c) ==> b.index <= c.index
    ensures FrameBoundary(text) == Some(b)
  {
    BoundaryMeaning(text);
  }

  lemma MatchesPrefix(a: string, b: string, i: nat, marker: string)
    requires i + |marker| <= |a|
    ensures Matches(a, i, marker) <==> Matches(a + b, i, marker)
  {
    assert (a + b)[i..i + |marker|] == a[i..i + |marker|];
  }

  /** A boundary found in a prefix stays the boundary whatever text follows: no marker that starts
      earlier can be completed later. */
  lemma BoundaryIsStable(a: string, b: string)
    requires FrameBoundary(a).Some?
    ensures FrameBoundary(a + b) == FrameBoundary(a)
  {
    BoundaryMeaning(a);
    var m := FrameBoundary(a).value;
    var text := a + b;
    MarkerInPrefix(a, b, m);
    forall c | MarkerAt(text, c)
      ensures m.index <= c.index
    {
      if c.index + c.width <= |a| {
        MarkerInPrefix(a, b, c);
      } else if c.index < m.index {
        NoLongerMarkerBefore(text, m, c);
      }
    }
    LeftmostIsBoundary(text, m);
  }

  lemma MarkerInPrefix(a: string, b: string, m: Boundary)
    requires m.index + m.width <= |a|
    ensures MarkerAt(a, m) <==> MarkerAt(a + b, m)
  {
    if m.width == 4 {
      MatchesPrefix(a, b, m.index, CRLF2);
    } else if m.width == 2 {
      MatchesPrefix(a, b, m.index, LF2);
      MatchesPrefix(a, b, m.index, CR2);
    }
  }

  /** Markers overlap only if the later one also ends later. */
  lemma NoLongerMarkerBefore(text: string, m: Boundary, c: Boundary)
    requires MarkerAt(text, m) && MarkerAt(text, c) && c.index < m.index
    ensures c.index + c.width < m.index + m.width
  {
    MarkerCharacters(text, m);
    MarkerCharacters(text, c);
  }

  // ---------------------------------------------------------------- the frames of a whole text

  /** The text after a boundary. */
  function After(text: string, b: Boundary): (r: string)
    requires MarkerAt(text, b)
    ensures |r| < |text|
  {
    text[b.index + b.width..]
  }

  /** Complete frames of a text, in order. */
  function Complete(text: string): seq<string>
    decreases |text|
  {
    BoundaryMeaning(text);
    match FrameBoundary(text)
    case None => []
    case Some(b) => [text[..b.index]] + Complete(After(text, b))
  }

  /** What is left after the last boundary. */
  function Rest(text: string): string
    decreases |text|
  {
    BoundaryMeaning(text);
    match FrameBoundary(text)
    case None => text
    case Some(b) => Rest(After(text, b))
  }

  /** One step of framing, without looking at how the boundary is found. */
  lemma FrameStep(frame: string, b: Boundary, tail: string, text: string)
    requires MarkerAt(text, b) && FrameBoundary(text) == Some(b)
    requires frame == text[..b.index] && tail == text[b.index + b.width..]
    ensures Complete(text) == [frame] + Complete(tail)
    ensures Rest(text) == Rest(tail)
    ensures |tail| < |text|
  {
  }

  lemma NoFrame(text: string)
    requires FrameBoundary(text).None?
    ensures Complete(text) == [] && Rest(text) == text
  {
  }

  /** The same step seen from a text that continues. */
  lemma FrameStepOfPrefix(a: string, b: string, m: Boundary)
    requires MarkerAt(a, m) && FrameBoundary(a) == Some(m)
    ensures Complete(a + b) == [a[..m.index]] + Complete(a[m.index + m.width..] + b)
    ensures Rest(a + b) == Rest(a[m.index + m.width..] + b)
  {
    BoundaryIsStable(a, b);
    MarkerInPrefix(a, b, m);
    assert (a + b)[..m.index] == a[..m.index];
    assert (a + b)[m.index + m.width..] == a[m.index + m.width..] + b;
    FrameStep(a[..m.index], m, a[m.index + m.width..] + b, a + b);
  }

  /** Framing a prefix first and continuing with what it left over gives the same frames. */
  lemma {:induction false} FramesOfPrefix(a: string, b: string)
    ensures Complete(a + b) == Complete(a) + Complete(Rest(a) + b)
    ensures Rest(a + b) == Rest(Rest(a) + b)
    decreases |a|
  {
    BoundaryMeaning(a);
    if FrameBoundary(a).None? {
      NoFrame(a);
      assert [] + Complete(a + b) == Complete(a + b);
    } else {
      var m := FrameBoundary(a).value;
      var frame, tail := a[..m.index], a[m.index + m.width..];
      FrameStep(frame, m, tail, a);
      FrameStepOfPrefix(a, b, m);
      FramesOfPrefix(tail, b);
      Regroup(frame, Complete(tail), Complete(Rest(tail) + b));
    }
  }

  lemma Regroup(first: string, middle: seq<string>, last: seq<string>)
    ensures [first] + (middle + last) == ([first] + middle) + last
  {
  }

  lemma {:induction false} RestHasNoBoundary(text: string)
    ensures FrameBoundary(Rest(text)).None?
    decreases |text|
  {
    BoundaryMeaning(text);
    match FrameBoundary(text)
    case None => NoFrame(text);
    case Some(b) =>
      FrameStep(text[..b.index], b, After(text, b), text);
      RestHasNoBoundary(After(text, b));
  }

  /** Frames with the markers that closed them, written out again. */
  function Join(frames: seq<string>, markers: seq<string>, rest: string): string
    requires |frames| == |markers|
  {
    if frames == [] then rest else (frames[0] + markers[0]) + Join(frames[1..], markers[1..], rest)
  }

  /** A frame that runs up to the leftmost marker of what it starts. */
  predicate Closed(frame: string, marker: string) {
    marker in {CRLF2, LF2, CR2} && FrameBoundary(frame + marker) == Some(Boundary(|frame|, |marker|))
  }

  ghost predicate Splits(frames: seq<string>, markers: seq<string>, rest: string) {
    && |frames| == |markers|
    && FrameBoundary(rest).None?
    && forall i :: 0 <= i < |frames| ==> Closed(frames[i], markers[i])
  }

  /** Framing loses nothing but the markers. */
  lemma {:induction false} FramesSplitText(text: string) returns (markers: seq<string>)
    ensures Splits(Complete(text), markers, Rest(text))
    ensures Join(Complete(text), markers, Rest(text)) == text
    decreases |text|
  {
    BoundaryMeaning(text);
    if FrameBoundary(text).None? {
      NoFrame(text);
      markers := [];
    } else {
      var b := FrameBoundary(text).value;
      var frame, marker, tail := text[..b.index], text[b.index..b.index + b.width], text[b.index + b.width..];
      assert text == (frame + marker) + tail;
      FrameStep(frame, b, tail, text);
      FirstIsClosed(frame, marker, tail);
      var more := FramesSplitText(tail);
      markers := [marker] + more;
      SplitStep(frame, marker, Complete(tail), more, Rest(tail));
    }
  }

  lemma SplitStep(frame: string, marker: string, frames: seq<string>, markers: seq<string>, rest: string)
    requires Closed(frame, marker) && Splits(frames, markers, rest)
    ensures Splits([frame] + frames, [marker] + markers, rest)
    ensures Join([frame] + frames, [marker] + markers, rest) == (frame + marker) + Join(frames, markers, rest)
  {
    var fs, ms := [frame] + frames, [marker] + markers;
    assert fs[1..] == frames && ms[1..] == markers;
    forall i | 0 <= i < |fs|
      ensures Closed(fs[i], ms[i])
    {
      assert i > 0 ==> fs[i] == frames[i - 1] && ms[i] == markers[i - 1];
    }
  }

  lemma FirstIsClosed(frame: string, marker: string, tail: string)
    requires FrameBoundary((frame + marker) + tail) == Some(Boundary(|frame|, |marker|))
    ensures Closed(frame, marker)
  {
    var head, b := frame + marker, Boundary(|frame|, |marker|);
    BoundaryMeaning(head + tail);
    MarkerInPrefix(head, tail, b);
    forall c | MarkerAt(head, c)
      ensures b.index <= c.index
    {
      MarkerCharacters(head, c);
      MarkerInPrefix(head, tail, c);
    }
    LeftmostIsBoundary(head, b);
    assert marker == head[b.index..b.index + b.width];
  }

  /** Splitting at leftmost markers is unique, so it is what framing computes. */
  lemma {:induction false} SplitIsUnique(frames: seq<string>, markers: seq<string>, rest: string)
    requires Splits(frames, markers, rest)
    ensures Complete(Join(frames, markers, rest)) == frames && Rest(Join(frames, markers, rest)) == rest
    decreases |frames|
  {
    if frames == [] {
      NoFrame(rest);
    } else {
      assert Closed(frames[0], markers[0]);
      SplitIsUnique(frames[1..], markers[1..], rest);
      JoinStep(frames[0], markers[0], Join(frames[1..], markers[1..], rest));
      assert frames == [frames[0]] + frames[1..];
    }
  }

  lemma JoinStep(frame: string, marker: string, tail: string)
    requires Closed(frame, marker)
    ensures Complete((frame + marker) + tail) == [frame] + Complete(tail)
    ensures Rest((frame + marker) + tail) == Rest(tail)
  {
    var head, b := frame + marker, Boundary(|frame|, |marker|);
    assert MarkerAt(head, b) by { BoundaryMeaning(head); }
    assert head[..|frame|] == frame;
    assert head[|frame| + |marker|..] + tail == tail;
    FrameStepOfPrefix(head, tail, b);
  }

  // ---------------------------------------------------------------- the stream

  /** What the projection of one frame yields: nothing, an event, or an exception. */
  datatype Projection = Skip | Emit(event: string) | Fail

  type Project = string -> Projection

  const STREAM_FAILED: string :=
    "event: error\ndata: {\"error\":\"agent task stream failed\",\"code\":\"AGENT_TASK_STREAM_FAILED\"}\n\n"

  /** Projected events up to the first failing frame. */
  function Emitted(frames: seq<string>, project: Project): seq<string> {
    if frames == [] then []
    else
      match project(frames[0])
      case Skip => Emitted(frames[1..], project)
      case Emit(e) => [e] + Emitted(frames[1..], project)
      case Fail => []
  }

  predicate AllProject(frames: seq<string>, project: Project) {
    forall i :: 0 <= i < |frames| ==> project(frames[i]) != Fail
  }

  lemma AllProjectConcat(a: seq<string>, b: seq<string>, project: Project)
    ensures AllProject(a + b, project) <==> AllProject(a, project) && AllProject(b, project)
  {
    if AllProject(a + b, project) {
      forall i | 0 <= i < |a| ensures project(a[i]) != Fail {
        assert (a + b)[i] == a[i];
      }
      forall i | 0 <= i < |b| ensures project(b[i]) != Fail {
        assert (a + b)[|a| + i] == b[i];
      }
    }
  }

  lemma {:induction false} EmittedConcat(a: seq<string>, b: seq<string>, project: Project)
    ensures Emitted(a + b, project) == Emitted(a,
                                               project) + (if AllProject(a, project) then Emitted(b, project) else [])
  {
    if a == [] {
      assert a + b == b;
    } else {
      EmittedConcat(a[1..], b, project);
      assert (a + b)[1..] == a[1..] + b && (a + b)[0] == a[0];
      assert [a[0]] + a[1..] == a;
      AllProjectConcat([a[0]], a[1..], project);
      assert AllProject([a[0]], project) <==> project(a[0]) != Fail;
      if project(a[0]).Emit? && AllProject(a, project) {
        Regroup(project(a[0]).event, Emitted(a[1..], project), Emitted(b, project));
      }
    }
  }

  function OfOne(frame: string, project: Project): seq<string> {
    if project(frame).Emit? then [project(frame).event] else []
  }

  lemma EmittedSnoc(taken: seq<string>, frame: string, project: Project)
    requires AllProject(taken, project)
    ensures Emitted(taken + [frame], project) == Emitted(taken, project) + OfOne(frame, project)
    ensures AllProject(taken + [frame], project) <==> project(frame) != Fail
  {
    EmittedConcat(taken, [frame], project);
    AllProjectConcat(taken, [frame], project);
  }

  /** The output for a whole text: its frames and a non-blank tail, or, when a frame or the upstream
      fails, what was projected before and one error event. */
  function Output(text: string, upstreamFails: bool, project: Project): seq<string> {
    var frames := Complete(text) + (if !upstreamFails && !Blank(Rest(text)) then [Rest(text)] else []);
    Emitted(frames, project) + (if upstreamFails || !AllProject(frames, project) then [STREAM_FAILED] else [])
  }

  /** Without failures the output is that of the one way to split the text at leftmost markers, with the
      tail counted as a frame unless it is blank. */
  lemma OutputFromSplit(frames: seq<string>, markers: seq<string>, rest: string, project: Project)
    requires Splits(frames, markers, rest)
    requires AllProject(frames, project) && (Blank(rest) || project(rest) != Fail)
    ensures Output(Join(frames, markers, rest), false, project)
            == Emitted(frames, project) + (if Blank(rest) then [] else OfOne(rest, project))
  {
    SplitIsUnique(frames, markers, rest);
    TailStep(Join(frames, markers, rest), Emitted(frames, project), rest, project);
  }

  function Concat(chunks: seq<string>): string {
    if chunks == [] then "" else Concat(chunks[..|chunks| - 1]) + chunks[|chunks| - 1]
  }

  /** The inner loop's progress: the frames of the buffer are those taken and those still there. */
  ghost predicate Draining(buffer: string, taken: seq<string>, rest: string, events: seq<string>, project: Project) {
    && Complete(buffer) == taken + Complete(rest) && Rest(buffer) == Rest(rest)
    && AllProject(taken, project) && events == Emitted(taken, project)
  }

  lemma DrainStep(buffer: string, taken: seq<string>, rest: string, events: seq<string>, project: Project, b: Boundary,
                  frame: string, next: string)
    requires Draining(buffer, taken, rest, events, project)
    requires FrameBoundary(rest) == Some(b) && MarkerAt(rest, b)
    requires frame == rest[..b.index] && next == rest[b.index + b.width..]
    ensures Complete(buffer) == (taken + [frame]) + Complete(next)
    ensures project(frame) != Fail ==> Draining(buffer, taken + [frame], next, events + OfOne(frame, project), project)
    ensures |next| < |rest|
  {
    FrameStep(frame, b, next, rest);
    EmittedSnoc(taken, frame, project);
    MoveOver(taken, frame, Complete(next));
  }

  lemma MoveOver(taken: seq<string>, frame: string, later: seq<string>)
    ensures taken + ([frame] + later) == (taken + [frame]) + later
  {
  }

  lemma DrainFails(taken: seq<string>, frame: string, later: seq<string>, project: Project)
    requires AllProject(taken, project) && project(frame) == Fail
    ensures !AllProject((taken + [frame]) + later, project)
    ensures Emitted((taken + [frame]) + later, project) == Emitted(taken, project)
  {
    EmittedSnoc(taken, frame, project);
    EmittedConcat(taken + [frame], later, project);
    AllProjectConcat(taken + [frame], later, project);
  }

  lemma DrainEnd(buffer: string, taken: seq<string>, rest: string, events: seq<string>, project: Project)
    requires Draining(buffer, taken, rest, events, project) && FrameBoundary(rest).None?
    ensures AllProject(Complete(buffer), project)
    ensures events == Emitted(Complete(buffer), project) && rest == Rest(buffer)
  {
    NoFrame(rest);
    assert taken + [] == taken;
  }

  /** The inner loop: takes complete frames off the buffer. */
  method Drain(buffer: string, project: Project) returns (events: seq<string>, rest: string, failed: bool)
    ensures failed <==> !AllProject(Complete(buffer), project)
    ensures events == Emitted(Complete(buffer), project)
    ensures !failed ==> rest == Rest(buffer)
  {
    events, rest, failed := [], buffer, false;
    ghost var taken: seq<string> := [];
    assert [] + Complete(buffer) == Complete(buffer);
    while true
      invariant Draining(buffer, taken, rest, events, project)
      invariant !failed
      decreases |rest|
    {
      var boundary := FrameBoundary(rest);
      if boundary.None? {
        DrainEnd(buffer, taken, rest, events, project);
        return;
      }
      BoundaryMeaning(rest);
      var frame, next := rest[..boundary.value.index], rest[boundary.value.index + boundary.value.width..];
      DrainStep(buffer, taken, rest, events, project, boundary.value, frame, next);
      rest := next;
      match project(frame) {
        case Fail =>
          DrainFails(taken, frame, Complete(rest), project);
          failed := true;
          return;
        case Skip =>
          assert events + [] == events;
        case Emit(e) =>
          events := events + [e];
      }
      taken := taken + [frame];
    }
  }

  /** The outer loop's progress after some text. */
  ghost predicate Projected(seen: string, out: seq<string>, buffer: string, project: Project) {
    && AllProject(Complete(seen), project)
    && out == Emitted(Complete(seen), project)
    && buffer == Rest(seen)
  }

  lemma ChunkStep(seen: string, out: seq<string>, buffer: string, chunk: string, project: Project)
    requires Projected(seen, out, buffer, project)
    ensures Emitted(Complete(seen + chunk), project) == out + Emitted(Complete(buffer + chunk), project)
    ensures AllProject(Complete(seen + chunk), project) <==> AllProject(Complete(buffer + chunk), project)
    ensures Rest(seen + chunk) == Rest(buffer + chunk)
  {
    FramesOfPrefix(seen, chunk);
    EmittedConcat(Complete(seen), Complete(buffer + chunk), project);
    AllProjectConcat(Complete(seen), Complete(buffer + chunk), project);
  }

  lemma ConcatStep(chunks: seq<string>, n: nat)
    requires n < |chunks|
    ensures Concat(chunks[..n + 1]) == Concat(chunks[..n]) + chunks[n]
  {
    assert chunks[..n + 1][..n] == chunks[..n];
  }

  /** The end of the stream: the tail is projected like a frame unless it is blank. */
  lemma TailStep(text: string, out: seq<string>, tail: string, project: Project)
    requires Projected(text, out, tail, project)
    ensures Blank(tail) ==> Output(text, false, project) == out
    ensures !Blank(tail) && project(tail) != Fail ==> Output(text, false, project) == out + OfOne(tail, project)
    ensures !Blank(tail) && project(tail) == Fail ==> Output(text, false, project) == out + [STREAM_FAILED]
    ensures Output(text, true, project) == out + [STREAM_FAILED]
  {
    assert Complete(text) + [] == Complete(text);
    EmittedSnoc(Complete(text), tail, project);
    assert out + OfOne(tail, project) + [] == out + OfOne(tail, project) && out + [] == out;
  }

  /** Chunking independence: the output depends only on the concatenated text. */
  method ProjectTaskEvents(chunks: seq<string>, upstreamFails: bool, project: Project) returns (out: seq<string>)
    ensures out == Output(Concat(chunks), upstreamFails, project)
  {
    out := [];
    var buffer := "";
    NoFrame("");
    for n := 0 to |chunks|
      invariant Projected(Concat(chunks[..n]), out, buffer, project)
    {
      ChunkStep(Concat(chunks[..n]), out, buffer, chunks[n], project);
      ConcatStep(chunks, n);
      var events, rest, failed := Drain(buffer + chunks[n], project);
      out := out + events;
      if failed {
        FailedOutput(chunks, n + 1, upstreamFails, project);
        out := out + [STREAM_FAILED];
        return;
      }
      buffer := rest;
    }
    assert chunks[..|chunks|] == chunks;
    TailStep(Concat(chunks), out, buffer, project);
    if upstreamFails {
      out := out + [STREAM_FAILED];
      return;
    }
    if !Blank(buffer) {
      match project(buffer) {
        case Fail =>
          out := out + [STREAM_FAILED];
        case Skip =>
          assert out + [] == out;
        case Emit(e) =>
          out := out + [e];
      }
    }
  }

  /** Once a frame of a prefix fails, the rest of the text does not matter. */
  lemma {:induction false} FailedOutput(chunks: seq<string>, n: nat, upstreamFails: bool, project: Project)
    requires n <= |chunks| && !AllProject(Complete(Concat(chunks[..n])), project)
    ensures Output(Concat(chunks), upstreamFails, project)
            == Emitted(Complete(Concat(chunks[..n])), project) + [STREAM_FAILED]
    decreases |chunks| - n
  {
    var seen := Concat(chunks[..n]);
    if n == |chunks| {
      assert chunks[..n] == chunks;
      var tail := if !upstreamFails && !Blank(Rest(seen)) then [Rest(seen)] else [];
      EmittedConcat(Complete(seen), tail, project);
      AllProjectConcat(Complete(seen), tail, project);
    } else {
      ConcatStep(chunks, n);
      FramesOfPrefix(seen, chunks[n]);
      var more := Complete(Rest(seen) + chunks[n]);
      EmittedConcat(Complete(seen), more, project);
      AllProjectConcat(Complete(seen), more, project);
      FailedOutput(chunks, n + 1, upstreamFails, project);
    }
  }
}
