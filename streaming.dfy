/** The event loop of `ChatCompletionStream` in the HTTP adapters (compatible,
    ai360, openai, hyperbolic, cloudflare). Each adapter receives chunks from
    the upstream stream until it returns, turning each receive into zero, one
    or two events for the caller. The five loops differ in how ids are
    prefixed, whether usage is copied, and how the end of the stream is
    signalled. */
module Streaming {
  import opened Canonical
  import opened Classifier
  import opened Strings

  datatype Adapter = Compatible | Ai360 | OpenAi | Hyperbolic | Cloudflare

  /** A chunk as the upstream client library decodes it. */
  datatype Chunk = Chunk(id: string, choices: seq<Choice>, usage: Option<Usage>)

  /** What the library returns at the end of the stream along with `io.EOF`. */
  const EmptyChunk: Chunk := Chunk("", [], None)

  /** One result of `stream.Recv()`: a chunk, `io.EOF`, or another error. */
  datatype Recv = Received(chunk: Chunk) | Ended | Failed(err: UpstreamError)

  /** A receive together with the clock reading taken after it. */
  datatype Reading = Reading(recv: Recv, at: int)

  /** The clock at the start of the call (`now`) and once the stream was
      opened (`duration`). */
  datatype Clock = Clock(start: int, connected: int)

  /** How the loop stopped: it returned, it panicked (the worker pool recovers
      the panic silently), or the modelled receives ran out while it still
      waited for more. */
  datatype StreamEnd = Returned | Panicked | AwaitingInput

  /** What one receive does to the loop. */
  datatype Step = Continue(event: Response) | Finish(events: seq<Response>) | Crash

  predicate PrefixesIds(a: Adapter) {
    a == Compatible || a == Hyperbolic || a == Cloudflare
  }

  predicate CopiesUsage(a: Adapter) {
    a == Ai360 || a == OpenAi
  }

  /** Whether the adapter follows the final chunk with a separate `io.EOF` event. */
  predicate SendsEofEvent(a: Adapter) {
    a == Compatible || a == Ai360
  }

  function ConnTime(clk: Clock): int {
    clk.connected - clk.start
  }

  /** The event for a chunk: id, choices and usage as the adapter copies them,
      with ai360 forcing `stop` on a chunk with usage and openai synthesising
      a `stop` choice when usage comes without choices. Timing is filled in at
      the reading's clock. */
  function ChunkStep(a: Adapter, clk: Clock, c: Chunk, eof: bool, at: int): Step {
    var ct := ConnTime(clk);
    var id := if PrefixesIds(a) then CompletionIdPrefix + c.id else c.id;
    var usage := if CopiesUsage(a) then c.usage else None;
    if a == Ai360 && c.usage.Some? && |c.choices| == 0 then Crash
    else
      var choices :=
        if a == Ai360 && c.usage.Some? then c.choices[0 := c.choices[0].(finishReason := Stop)]
        else if a == OpenAi && c.usage.Some? && |c.choices| == 0 then [EmptyStopChoice]
        else c.choices;
      if a == OpenAi then
        var event := Response(id, choices, usage, ct, at - clk.connected, at - clk.start, None);
        if eof then Finish([event.(error := Some(EndOfStream))]) else Continue(event)
      else if !eof && |choices| == 0 then Crash
      else if eof || choices[0].finishReason == Stop then
        var final := Response(id, if |choices| == 0 then [EmptyStopChoice] else choices, usage,
                              ct, at - clk.connected, at - clk.start, None);
        if SendsEofEvent(a) then Finish([final, ErrorEvent(EndOfStream, ct, at - clk.connected, at - clk.start)])
        else Finish([final])
      else Continue(Response(id, choices, usage, ct, at - clk.connected, at - clk.start, None))
  }

  /** What one reading does: a receive error ends the loop with one event
      carrying that error unclassified; `io.EOF` is handled like an empty chunk. */
  function StepOf(a: Adapter, clk: Clock, rd: Reading): Step {
    match rd.recv
    case Failed(e) => Finish([ErrorEvent(Raw(e), ConnTime(clk), rd.at - clk.connected, rd.at - clk.start)])
    case Ended => ChunkStep(a, clk, EmptyChunk, true, rd.at)
    case Received(c) => ChunkStep(a, clk, c, false, rd.at)
  }

  /** The events the loop sends for a sequence of readings, and how it stops. */
  function Run(a: Adapter, clk: Clock, rds: seq<Reading>): (seq<Response>, StreamEnd)
    decreases |rds|
  {
    if |rds| == 0 then ([], AwaitingInput)
    else Then(StepOf(a, clk, rds[0]), Run(a, clk, rds[1..]))
  }

  /** What an iteration's step makes of the rest of the run: a crash sends
      nothing more, a finish sends its last events, and a continuation sends
      its event before the rest. */
  function Then(step: Step, rest: (seq<Response>, StreamEnd)): (seq<Response>, StreamEnd) {
    match step
    case Crash => ([], Panicked)
    case Finish(es) => (es, Returned)
    case Continue(e) => ([e] + rest.0, rest.1)
  }

  /** The run from reading `k` on is its step followed by the run after it. */
  lemma RunAt(a: Adapter, clk: Clock, rds: seq<Reading>, k: nat)
    requires k < |rds|
    ensures Run(a, clk, rds[k..]) == Then(StepOf(a, clk, rds[k]), Run(a, clk, rds[k + 1..]))
  {
    assert rds[k..][0] == rds[k];
    assert rds[k..][1..] == rds[k + 1..];
  }

  /** One iteration of the worker loop: build the response from what `Recv`
      returned, decide whether the stream is finished, and say what to send. */
  method HandleReading(a: Adapter, clk: Clock, reading: Reading) returns (step: Step)
    ensures step == StepOf(a, clk, reading)
  {
    var connTime := clk.connected - clk.start;
    var now := reading.at;
    if reading.recv.Failed? {
      return Finish([ErrorEvent(Raw(reading.recv.err), connTime, now - clk.connected, now - clk.start)]);
    }
    var eof := reading.recv.Ended?;
    var chunk := if eof then EmptyChunk else reading.recv.chunk;
    step := HandleChunk(a, clk, chunk, eof, now);
  }

  /** The part of an iteration after a successful `Recv` (or `io.EOF`, with
      an empty chunk). */
  method HandleChunk(a: Adapter, clk: Clock, chunk: Chunk, eof: bool, now: int) returns (step: Step)
    ensures step == ChunkStep(a, clk, chunk, eof, now)
  {
    var connTime := clk.connected - clk.start;
    var response := Response(if PrefixesIds(a) then CompletionIdPrefix + chunk.id else chunk.id,
                             chunk.choices, None, connTime, 0, 0, None);
    if CopiesUsage(a) && chunk.usage.Some? {
      response := response.(usage := chunk.usage);
      if a == Ai360 {
        if |response.choices| == 0 {
          return Crash;
        }
        response := response.(choices := response.choices[0 := response.choices[0].(finishReason := Stop)]);
      } else if |response.choices| == 0 {
        response := response.(choices := [EmptyStopChoice]);
      }
    }
    var finished: bool;
    if a == OpenAi {
      finished := eof;
    } else if eof {
      finished := true;
    } else if |response.choices| == 0 {
      return Crash;
    } else {
      finished := response.choices[0].finishReason == Stop;
    }
    response := response.(duration := now - clk.connected, totalTime := now - clk.start);
    if !finished {
      return Continue(response);
    }
    if a == OpenAi {
      return Finish([response.(error := Some(EndOfStream))]);
    }
    if |response.choices| == 0 {
      response := response.(choices := [EmptyStopChoice]);
    }
    if SendsEofEvent(a) {
      step := Finish([response, ErrorEvent(EndOfStream, connTime, now - clk.connected, now - clk.start)]);
    } else {
      step := Finish([response]);
    }
  }

  /** A run preceded by events already sent. */
  function After(sent: seq<Response>, run: (seq<Response>, StreamEnd)): (seq<Response>, StreamEnd) {
    (sent + run.0, run.1)
  }

  /** The worker loop: receive and send until an iteration says to stop.
      Returns the events sent and how the loop stopped. */
  method ForwardStream(a: Adapter, clk: Clock, readings: seq<Reading>) returns (sent: seq<Response>, end: StreamEnd)
    ensures (sent, end) == Run(a, clk, readings)
  {
    sent := [];
    var k := 0;
    assert readings[k..] == readings;
    assert sent + Run(a, clk, readings).0 == Run(a, clk, readings).0;
    while k < |readings|
      invariant 0 <= k <= |readings|
      invariant Run(a, clk, readings) == After(sent, Run(a, clk, readings[k..]))
    {
      var done;
      done, sent, end := ForwardOne(a, clk, readings, k, sent);
      if done {
        return;
      }
      k := k + 1;
    }
    assert readings[k..] == [];
    assert sent + [] == sent;
    return sent, AwaitingInput;
  }

  /** One iteration of the worker loop: handle reading `k` and send what it
      says; `done` when the loop returns after it. */
  method ForwardOne(a: Adapter, clk: Clock, readings: seq<Reading>, k: nat, sent: seq<Response>)
    returns (done: bool, sent': seq<Response>, end: StreamEnd)
    requires k < |readings|
    requires Run(a, clk, readings) == After(sent, Run(a, clk, readings[k..]))
    ensures done ==> (sent', end) == Run(a, clk, readings)
    ensures !done ==> Run(a, clk, readings) == After(sent', Run(a, clk, readings[k + 1..]))
  {
    var step := HandleReading(a, clk, readings[k]);
    RunAt(a, clk, readings, k);
    match step {
      case Crash =>
        assert sent + [] == sent;
        return true, sent, Panicked;
      case Finish(events) =>
        return true, sent + events, Returned;
      case Continue(event) =>
        ghost var rest := Run(a, clk, readings[k + 1..]);
        assert sent + ([event] + rest.0) == (sent + [event]) + rest.0;
        return false, sent + [event], AwaitingInput;
    }
  }

  /** The error table the adapter's `apiErrorHandler` applies. */
  function Classify(a: Adapter, e: UpstreamError): SdkError {
    if a == Ai360 then Ai360Style(e) else OpenAiStyle(e)
  }

  /** The result of `ChatCompletionStream`: either the call fails before any
      worker starts, with the classified error, or the worker runs. */
  datatype StreamCall = Refused(err: SdkError) | Streamed(events: seq<Response>, end: StreamEnd)

  /** Opening the stream: a failure to open is classified by the adapter's
      table and no event is ever sent; otherwise the worker forwards the
      readings. */
  function ChatCompletionStream(a: Adapter, clk: Clock, openFailure: Option<UpstreamError>, rds: seq<Reading>)
    : (r: StreamCall)
    ensures openFailure.Some? <==> r.Refused?
    ensures r.Refused? ==> r.err == Classify(a, openFailure.value)
    ensures r.Streamed? ==> (r.events, r.end) == Run(a, clk, rds)
  {
    match openFailure
    case Some(e) => Refused(Classify(a, e))
    case None =>
      var run := Run(a, clk, rds);
      Streamed(run.0, run.1)
  }

  // ---------------------------------------------------------------------
  // Properties of the loop

  /** Every event is timed against the same two clock readings: the
      connection time is fixed, and the total is connection plus duration. */
  predicate WellTimed(clk: Clock, e: Response) {
    e.connTime == ConnTime(clk) && e.totalTime == e.connTime + e.duration
  }

  /** What every event of the adapter satisfies: timing, usage only where
      the adapter copies it, and the completion id prefix where it adds one. */
  predicate EventShape(a: Adapter, clk: Clock, e: Response) {
    WellTimed(clk, e) &&
    (!CopiesUsage(a) ==> e.usage.None?) &&
    (PrefixesIds(a) && e.error.None? ==> StartsWith(e.id, CompletionIdPrefix))
  }

  lemma StepEventShape(a: Adapter, clk: Clock, rd: Reading)
    ensures StepOf(a, clk, rd).Continue? ==> EventShape(a, clk, StepOf(a, clk, rd).event)
    ensures StepOf(a, clk, rd).Finish? ==>
            forall e | e in StepOf(a, clk, rd).events :: EventShape(a, clk, e)
  {
    match rd.recv
    case Failed(e) =>
    case Ended =>
      ChunkStepShape(a, clk, EmptyChunk, true, rd.at);
    case Received(c) =>
      ChunkStepShape(a, clk, c, false, rd.at);
  }

  lemma ChunkStepShape(a: Adapter, clk: Clock, c: Chunk, eof: bool, at: int)
    ensures var s := ChunkStep(a, clk, c, eof, at);
            (s.Continue? ==> EventShape(a, clk, s.event)) &&
            (s.Finish? ==> forall e | e in s.events :: EventShape(a, clk, e))
  {
    var id := if PrefixesIds(a) then CompletionIdPrefix + c.id else c.id;
    var usage := if CopiesUsage(a) then c.usage else None;
    assert PrefixesIds(a) ==> StartsWith(id, CompletionIdPrefix) by {
      if PrefixesIds(a) {
        assert id[..|CompletionIdPrefix|] == CompletionIdPrefix;
      }
    }
  }

  /** All events of a stream have the adapter's event shape. */
  lemma {:induction false} RunEventShape(a: Adapter, clk: Clock, rds: seq<Reading>)
    ensures forall e | e in Run(a, clk, rds).0 :: EventShape(a, clk, e)
    decreases |rds|
  {
    if |rds| > 0 {
      StepEventShape(a, clk, rds[0]);
      if StepOf(a, clk, rds[0]).Continue? {
        RunEventShape(a, clk, rds[1..]);
      }
    }
  }

  /** Every event of one reading is timed at that reading. */
  lemma StepDuration(a: Adapter, clk: Clock, rd: Reading)
    ensures StepOf(a, clk, rd).Continue? ==> StepOf(a, clk, rd).event.duration == rd.at - clk.connected
    ensures StepOf(a, clk, rd).Finish? ==>
            forall e | e in StepOf(a, clk, rd).events :: e.duration == rd.at - clk.connected
  {
  }

  predicate Nondecreasing(rds: seq<Reading>) {
    forall i, j | 0 <= i < j < |rds| :: rds[i].at <= rds[j].at
  }

  /** No event is timed before the first reading. */
  lemma {:induction false} RunDurationsFrom(a: Adapter, clk: Clock, rds: seq<Reading>, lo: int)
    requires forall i | 0 <= i < |rds| :: lo <= rds[i].at
    ensures forall e | e in Run(a, clk, rds).0 :: lo - clk.connected <= e.duration
    decreases |rds|
  {
    if |rds| > 0 {
      StepDuration(a, clk, rds[0]);
      if StepOf(a, clk, rds[0]).Continue? {
        RunDurationsFrom(a, clk, rds[1..], lo);
      }
    }
  }

  /** When the clock does not run backwards, the durations reported to the
      caller never decrease from one event to the next. */
  lemma {:induction false} RunDurationsMonotone(a: Adapter, clk: Clock, rds: seq<Reading>)
    requires Nondecreasing(rds)
    ensures DurationsNondecreasing(Run(a, clk, rds).0)
    decreases |rds|
  {
    if |rds| > 0 {
      StepDuration(a, clk, rds[0]);
      match StepOf(a, clk, rds[0])
      case Crash =>
      case Finish(es) =>
        UniformDurations(es, rds[0].at - clk.connected);
      case Continue(ev) =>
        RunDurationsMonotone(a, clk, rds[1..]);
        RunDurationsFrom(a, clk, rds[1..], rds[0].at);
        ConsDurations(ev, Run(a, clk, rds[1..]).0);
    }
  }

  /** Event durations never decrease along `es`. */
  predicate DurationsNondecreasing(es: seq<Response>) {
    forall i, j | 0 <= i < j < |es| :: es[i].duration <= es[j].duration
  }

  lemma UniformDurations(es: seq<Response>, d: int)
    requires forall e | e in es :: e.duration == d
    ensures DurationsNondecreasing(es)
  {
    forall i, j | 0 <= i < j < |es| ensures es[i].duration <= es[j].duration {
      assert es[i] in es && es[j] in es;
    }
  }

  lemma ConsDurations(ev: Response, rest: seq<Response>)
    requires DurationsNondecreasing(rest)
    requires forall e | e in rest :: ev.duration <= e.duration
    ensures DurationsNondecreasing([ev] + rest)
  {
    var es := [ev] + rest;
    forall i, j | 0 <= i < j < |es| ensures es[i].duration <= es[j].duration {
      assert es[j] == rest[j - 1] && rest[j - 1] in rest;
      if i > 0 {
        assert es[i] == rest[i - 1];
      }
    }
  }

  /** A chunk event that ends the stream: no error and a first choice that
      says `stop`. */
  predicate StopEvent(e: Response) {
    e.error.None? && |e.choices| >= 1 && e.choices[0].finishReason == Stop
  }

  /** The events of the iteration that returns: a receive failure is one
      event with the raw error; otherwise compatible and ai360 send the stop
      chunk then an `io.EOF` event, hyperbolic and cloudflare send the stop
      chunk alone, and openai sends one event carrying `io.EOF` itself. */
  predicate FinalEvents(a: Adapter, fs: seq<Response>) {
    (|fs| == 1 && fs[0].error.Some? && fs[0].error.value.Raw?) ||
    (match a
     case Compatible => |fs| == 2 && StopEvent(fs[0]) && fs[1].error == Some(EndOfStream) && fs[1].choices == []
     case Ai360 => |fs| == 2 && StopEvent(fs[0]) && fs[1].error == Some(EndOfStream) && fs[1].choices == []
     case Hyperbolic => |fs| == 1 && StopEvent(fs[0])
     case Cloudflare => |fs| == 1 && StopEvent(fs[0])
     case OpenAi => |fs| == 1 && fs[0].error == Some(EndOfStream))
  }

  lemma StepFinalEvents(a: Adapter, clk: Clock, rd: Reading)
    ensures StepOf(a, clk, rd).Finish? ==> FinalEvents(a, StepOf(a, clk, rd).events)
    ensures StepOf(a, clk, rd).Continue? ==> StepOf(a, clk, rd).event.error.None?
  {
  }

  /** How a stream ends. Events before the last iteration never carry an
      error; if the loop returned, the events of its last iteration have the
      adapter's final shape; if it panicked or still waits, no event carries
      an error, so the caller never learns that the stream is over. The
      out-parameter `n` is the number of events sent before the last
      iteration. */
  lemma {:induction false} RunEnds(a: Adapter, clk: Clock, rds: seq<Reading>) returns (n: nat)
    ensures var (es, end) := Run(a, clk, rds);
            n <= |es| &&
            (forall i | 0 <= i < n :: es[i].error.None?) &&
            (end == Returned ==> n < |es| && FinalEvents(a, es[n..])) &&
            (end != Returned ==> n == |es|)
    decreases |rds|
  {
    if |rds| == 0 {
      n := 0;
    } else {
      StepFinalEvents(a, clk, rds[0]);
      match StepOf(a, clk, rds[0])
      case Crash =>
        n := 0;
      case Finish(fs) =>
        n := 0;
        assert Run(a, clk, rds).0[0..] == fs;
      case Continue(e) =>
        var m := RunEnds(a, clk, rds[1..]);
        n := m + 1;
        ConsEnds(e, Run(a, clk, rds[1..]).0, m);
    }
  }

  /** An error-free event in front of a run keeps its error-free prefix
      error-free and its last iteration's events in place. */
  lemma ConsEnds(e: Response, rest: seq<Response>, m: nat)
    requires m <= |rest| && e.error.None?
    requires forall i | 0 <= i < m :: rest[i].error.None?
    ensures var es := [e] + rest;
            (forall i | 0 <= i < m + 1 :: es[i].error.None?) && es[m + 1..] == rest[m..]
  {
    var es := [e] + rest;
    forall i | 0 <= i < m + 1
      ensures es[i].error.None?
    {
      if i > 0 {
        assert es[i] == rest[i - 1];
      }
    }
    assert es[m + 1..] == rest[m..];
  }

  /** Hyperbolic and cloudflare never send an `io.EOF` event: a caller that
      waits for one waits forever. */
  lemma {:induction false} NoEofEvent(a: Adapter, clk: Clock, rds: seq<Reading>)
    requires a == Hyperbolic || a == Cloudflare
    ensures forall e | e in Run(a, clk, rds).0 :: e.error != Some(EndOfStream)
    decreases |rds|
  {
    if |rds| > 0 {
      StepFinalEvents(a, clk, rds[0]);
      if StepOf(a, clk, rds[0]).Continue? {
        NoEofEvent(a, clk, rds[1..]);
      }
    }
  }

  /** Exactly the chunks without choices crash the loop, except in openai,
      which never indexes the first choice. `io.EOF` never crashes it. */
  lemma StepCrashes(a: Adapter, clk: Clock, rd: Reading)
    ensures StepOf(a, clk, rd).Crash? <==>
            a != OpenAi && rd.recv.Received? && |rd.recv.chunk.choices| == 0
  {
  }

  /** The openai loop never panics. */
  lemma {:induction false} OpenAiNeverPanics(clk: Clock, rds: seq<Reading>)
    ensures Run(OpenAi, clk, rds).1 != Panicked
    decreases |rds|
  {
    if |rds| > 0 {
      StepCrashes(OpenAi, clk, rds[0]);
      if StepOf(OpenAi, clk, rds[0]).Continue? {
        OpenAiNeverPanics(clk, rds[1..]);
      }
    }
  }

  /** In openai only `io.EOF` or a receive failure ends the loop: a chunk,
      even one whose choice says `stop`, is forwarded and the loop goes on. */
  lemma OpenAiChunksContinue(clk: Clock, c: Chunk, at: int)
    ensures StepOf(OpenAi, clk, Reading(Received(c), at)).Continue?
    ensures var e := StepOf(OpenAi, clk, Reading(Received(c), at)).event;
            e.id == c.id && e.usage == c.usage &&
            e.choices == (if c.usage.Some? && |c.choices| == 0 then [EmptyStopChoice] else c.choices)
  {
  }

  /** In ai360 a chunk with usage ends the stream: its first choice is forced
      to `stop`, the other choices are kept, the usage is copied, and the
      `io.EOF` event follows. */
  lemma Ai360UsageEndsStream(clk: Clock, c: Chunk, at: int)
    requires c.usage.Some? && |c.choices| >= 1
    ensures var s := StepOf(Ai360, clk, Reading(Received(c), at));
            s.Finish? && |s.events| == 2 &&
            s.events[0].usage == c.usage && s.events[0].id == c.id &&
            |s.events[0].choices| == |c.choices| &&
            s.events[0].choices[0] == c.choices[0].(finishReason := Stop) &&
            s.events[0].choices[1..] == c.choices[1..] &&
            s.events[1].error == Some(EndOfStream)
  {
    var s := StepOf(Ai360, clk, Reading(Received(c), at));
    assert s.events[0].choices == c.choices[0 := c.choices[0].(finishReason := Stop)];
  }

  /** The stream ends at `io.EOF` with a synthesised `stop` choice in the
      adapters that index the first choice, and with `io.EOF` on the event
      itself in openai. */
  lemma EndedStep(a: Adapter, clk: Clock, at: int)
    ensures var s := StepOf(a, clk, Reading(Ended, at));
            s.Finish? &&
            (a != OpenAi ==> s.events[0].choices == [EmptyStopChoice] && s.events[0].error.None?) &&
            (a == OpenAi ==> s.events == [Response("", [], None, ConnTime(clk), at - clk.connected, at - clk.start, Some(EndOfStream))])
  {
  }

  /** A receive error is forwarded as it is, not through the adapter's
      error table, and ends the loop. */
  lemma FailureStep(a: Adapter, clk: Clock, err: UpstreamError, at: int)
    ensures StepOf(a, clk, Reading(Failed(err), at)) ==
            Finish([Response("", [], None, ConnTime(clk), at - clk.connected, at - clk.start, Some(Raw(err)))])
  {
  }
}
