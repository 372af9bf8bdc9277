/** The two loops of the xfyun adapter that read WebSocket frames: the
    non-streaming one accumulates the answer's text until the frame with
    status 2, the streaming one sends one event per frame. */
module XfyunFrames {
  import opened Canonical
  import opened Classifier
  import opened Streaming

  datatype FrameText = FrameText(role: string, content: string)

  /** A decoded frame: header code, status and session id; the choice's
      sequence number and texts; the usage when present. */
  datatype Frame = Frame(code: int, status: int, sid: string, choiceSeq: int, text: seq<FrameText>, usage: Option<Usage>)

  /** One `ReadMessage` followed by decoding: a read error other than
      `io.EOF`, bytes that are not a frame (with the decoder's error text), or
      a frame. A read that returns
      `io.EOF` is not fatal: its bytes are decoded all the same, so it
      arrives as `Undecodable` or `Decoded`. */
  datatype WsRead = ReadFailed(err: UpstreamError) | Undecodable(message: string, decodeError: string) | Decoded(frame: Frame)

  /** A read with the clock reading taken after it. */
  datatype FrameReading = FrameReading(read: WsRead, at: int)

  /** The status of the last frame of an answer. */
  const LastFrameStatus: int := 2

  /** The error for a frame whose code is not 0, given the frame's JSON text. */
  function FrameError(f: Frame, encode: Frame -> string): SdkError {
    XfyunStyle(f.code, encode(f))
  }

  /** The error for bytes that do not decode as a frame: the message, then
      the decoder's own error text. */
  function UndecodableError(message: string, decodeError: string): SdkError {
    Described("message: " + message + ", error: " + decodeError)
  }

  // ---------------------------------------------------------------------
  // Non-streaming

  /** Where the non-streaming loop stops: at the last frame with the text
      gathered and the latest usage seen, at an error, at a frame with no text
      (indexing it panics), or still reading. */
  datatype Collected =
    | Finished(last: Frame, role: string, content: string, usage: Option<Usage>)
    | Stopped(err: SdkError)
    | Crashed
    | StillReading

  /** The loop decodes every frame into the same record, so usage read from
      an earlier frame stays until a later frame carries its own. */
  function Collect(received: seq<WsRead>, content: string, usage: Option<Usage>, encode: Frame -> string): Collected
    decreases |received|
  {
    if |received| == 0 then StillReading
    else
      match received[0]
      case ReadFailed(e) => Stopped(Raw(e))
      case Undecodable(m, de) => Stopped(UndecodableError(m, de))
      case Decoded(f) =>
        if f.code != 0 then Stopped(FrameError(f, encode))
        else if |f.text| == 0 then Crashed
        else
          var c := content + f.text[0].content;
          var u := if f.usage.Some? then f.usage else usage;
          if f.status == LastFrameStatus then Finished(f, f.text[0].role, c, u) else Collect(received[1..], c, u, encode)
  }

  /** The loop of `ChatCompletion`. */
  method CollectFrames(received: seq<WsRead>, encode: Frame -> string) returns (r: Collected)
    ensures r == Collect(received, "", None, encode)
  {
    var responseContent := "";
    var usage: Option<Usage> := None;
    var k := 0;
    while k < |received|
      invariant 0 <= k <= |received|
      invariant Collect(received, "", None, encode) == Collect(received[k..], responseContent, usage, encode)
    {
      assert received[k..][0] == received[k];
      assert received[k..][1..] == received[k + 1..];
      match received[k] {
        case ReadFailed(e) =>
          return Stopped(Raw(e));
        case Undecodable(m, de) =>
          return Stopped(UndecodableError(m, de));
        case Decoded(f) =>
          if f.code != 0 {
            return Stopped(FrameError(f, encode));
          }
          if |f.text| == 0 {
            return Crashed;
          }
          responseContent := responseContent + f.text[0].content;
          if f.usage.Some? {
            usage := f.usage;
          }
          if f.status == LastFrameStatus {
            return Finished(f, f.text[0].role, responseContent, usage);
          }
      }
      k := k + 1;
    }
    return StillReading;
  }

  /** The answer of `ChatCompletion`, or its error. The usage is dereferenced
      without a check, so an answer during which no frame carried usage
      panics. */
  datatype Completion = Answered(response: Response) | CompletionFailed(err: SdkError) | CompletionPanicked | CompletionPending

  function Complete(c: Collected, clk: Clock, doneAt: int, returnedAt: int): (r: Completion)
    ensures r.Answered? <==> c.Finished? && c.usage.Some?
    ensures r.CompletionPanicked? <==> c.Crashed? || (c.Finished? && c.usage.None?)
    ensures r.CompletionFailed? <==> c.Stopped?
  {
    match c
    case Stopped(e) => CompletionFailed(e)
    case Crashed => CompletionPanicked
    case StillReading => CompletionPending
    case Finished(f, role, content, usage) =>
      if usage.None? then CompletionPanicked
      else Answered(Response(CompletionIdPrefix + f.sid, [Choice(f.choiceSeq, Delta(role, content), Unset)],
                             usage, ConnTime(clk), doneAt - clk.connected, returnedAt - clk.start, None))
  }

  /** The loop stops with an answer only at an error-free frame of status 2
      that has text, whose first text gives the role; usage seen on an
      earlier frame is never lost. */
  lemma {:induction false} CollectFinishedFrame(received: seq<WsRead>, content: string, usage: Option<Usage>,
                                                encode: Frame -> string)
    requires Collect(received, content, usage, encode).Finished?
    ensures var c := Collect(received, content, usage, encode);
            c.last.code == 0 && c.last.status == LastFrameStatus && |c.last.text| > 0 &&
            c.role == c.last.text[0].role && (usage.Some? ==> c.usage.Some?)
    decreases |received|
  {
    var f := received[0].frame;
    if f.status != LastFrameStatus {
      var u := if f.usage.Some? then f.usage else usage;
      CollectFinishedFrame(received[1..], content + f.text[0].content, u, encode);
    }
  }

  /** The answer of `ChatCompletion` after the loop finishes: it panics iff
      no frame carried usage; otherwise its id is `chatcmpl-` and the last
      frame's session id, its one choice carries the last frame's sequence
      number and role with the concatenation of every streamed delta, and
      its usage is the latest one read. */
  lemma CompletedAnswer(clk: Clock, rds: seq<FrameReading>, encode: Frame -> string, doneAt: int, returnedAt: int)
    requires Collect(ReadsOf(rds), "", None, encode).Finished?
    ensures var c := Collect(ReadsOf(rds), "", None, encode);
            var r := Complete(c, clk, doneAt, returnedAt);
            (r == CompletionPanicked <==> c.usage.None?) &&
            (r.Answered? ==>
               |c.last.text| > 0 &&
               r.response.id == CompletionIdPrefix + c.last.sid &&
               r.response.choices ==
                 [Choice(c.last.choiceSeq, Delta(c.last.text[0].role, Contents(FrameRun(clk, rds, encode).0)), Unset)] &&
               r.response.usage == c.usage && r.response.error.None? &&
               r.response.connTime == ConnTime(clk))
  {
    CollectFinishedFrame(ReadsOf(rds), "", None, encode);
    LoopsAgreeOnContent(clk, rds, "", None, encode);
    assert "" + Contents(FrameRun(clk, rds, encode).0) == Contents(FrameRun(clk, rds, encode).0);
  }

  // ---------------------------------------------------------------------
  // Streaming

  /** One iteration of the streaming loop. */
  function FrameStep(clk: Clock, rd: FrameReading, encode: Frame -> string): Step {
    var ct := ConnTime(clk);
    var d := rd.at - clk.connected;
    var tt := rd.at - clk.start;
    match rd.read
    case ReadFailed(e) => Finish([ErrorEvent(Raw(e), ct, d, tt)])
    case Undecodable(m, de) => Finish([ErrorEvent(UndecodableError(m, de), ct, d, tt)])
    case Decoded(f) =>
      if f.code != 0 then Finish([ErrorEvent(FrameError(f, encode), ct, d, tt)])
      else if |f.text| == 0 then Crash
      else
        var delta := Delta(f.text[0].role, f.text[0].content);
        if f.status == LastFrameStatus then
          Finish([Response(CompletionIdPrefix + f.sid, [Choice(f.choiceSeq, delta, Stop)], f.usage, ct, d, tt, None),
                  ErrorEvent(EndOfStream, ct, d, tt)])
        else Continue(Response(CompletionIdPrefix + f.sid, [Choice(f.choiceSeq, delta, Unset)], f.usage, ct, d, tt, None))
  }

  function FrameRun(clk: Clock, rds: seq<FrameReading>, encode: Frame -> string): (seq<Response>, StreamEnd)
    decreases |rds|
  {
    if |rds| == 0 then ([], AwaitingInput)
    else
      match FrameStep(clk, rds[0], encode)
      case Crash => ([], Panicked)
      case Finish(es) => (es, Returned)
      case Continue(e) =>
        var rest := FrameRun(clk, rds[1..], encode);
        ([e] + rest.0, rest.1)
  }

  /** The worker of `ChatCompletionStream`. */
  method ForwardFrames(clk: Clock, rds: seq<FrameReading>, encode: Frame -> string)
    returns (sent: seq<Response>, end: StreamEnd)
    ensures (sent, end) == FrameRun(clk, rds, encode)
  {
    sent := [];
    var k := 0;
    assert rds[k..] == rds;
    while k < |rds|
      invariant 0 <= k <= |rds|
      invariant FrameRun(clk, rds, encode).0 == sent + FrameRun(clk, rds[k..], encode).0
      invariant FrameRun(clk, rds, encode).1 == FrameRun(clk, rds[k..], encode).1
    {
      assert rds[k..][0] == rds[k];
      assert rds[k..][1..] == rds[k + 1..];
      var step := HandleFrame(clk, rds[k], encode);
      match step {
        case Crash =>
          assert sent + [] == sent;
          return sent, Panicked;
        case Finish(events) =>
          return sent + events, Returned;
        case Continue(event) =>
          assert sent + ([event] + FrameRun(clk, rds[k + 1..], encode).0) ==
                 (sent + [event]) + FrameRun(clk, rds[k + 1..], encode).0;
          sent := sent + [event];
      }
      k := k + 1;
    }
    assert rds[k..] == [];
    assert sent + [] == sent;
    return sent, AwaitingInput;
  }

  /** One iteration of the worker: the events for one read, and whether the
      loop returns after them. */
  method HandleFrame(clk: Clock, rd: FrameReading, encode: Frame -> string) returns (step: Step)
    ensures step == FrameStep(clk, rd, encode)
  {
    var connTime := clk.connected - clk.start;
    var now := rd.at;
    match rd.read {
      case ReadFailed(e) =>
        return Finish([ErrorEvent(Raw(e), connTime, now - clk.connected, now - clk.start)]);
      case Undecodable(m, de) =>
        return Finish([ErrorEvent(UndecodableError(m, de), connTime, now - clk.connected, now - clk.start)]);
      case Decoded(f) =>
        if f.code != 0 {
          return Finish([ErrorEvent(FrameError(f, encode), connTime, now - clk.connected, now - clk.start)]);
        }
        if |f.text| == 0 {
          return Crash;
        }
        var response := Response(CompletionIdPrefix + f.sid, [Choice(f.choiceSeq, Delta(f.text[0].role, f.text[0].content), Unset)],
                                 None, connTime, 0, 0, None);
        if f.usage.Some? {
          response := response.(usage := f.usage);
        }
        response := response.(duration := now - clk.connected, totalTime := now - clk.start);
        if f.status == LastFrameStatus {
          response := response.(choices := [response.choices[0].(finishReason := Stop)]);
          return Finish([response, ErrorEvent(EndOfStream, connTime, now - clk.connected, now - clk.start)]);
        }
        return Continue(response);
    }
  }

  // ---------------------------------------------------------------------
  // Properties

  /** The text of the events: each event's first choice's content in order. */
  function Contents(es: seq<Response>): string
    decreases |es|
  {
    if |es| == 0 then ""
    else (if |es[0].choices| > 0 then es[0].choices[0].delta.content else "") + Contents(es[1..])
  }

  function ReadsOf(rds: seq<FrameReading>): (r: seq<WsRead>)
    ensures |r| == |rds|
  {
    seq(|rds|, i requires 0 <= i < |rds| => rds[i].read)
  }

  /** The two loops stop for the same reason on the same frames: the
      answer is complete exactly when the stream ends with `io.EOF`, an error
      ends both with the same error, and a panic or running out of frames
      happens in both. */
  lemma {:induction false} LoopsStopAlike(clk: Clock, rds: seq<FrameReading>, acc: string, usage: Option<Usage>,
                                          encode: Frame -> string)
    ensures var c := Collect(ReadsOf(rds), acc, usage, encode);
            var (es, end) := FrameRun(clk, rds, encode);
            (c.Finished? <==> end == Returned && |es| > 0 && es[|es| - 1].error == Some(EndOfStream)) &&
            (c.Stopped? <==> end == Returned && |es| > 0 && es[|es| - 1].error != Some(EndOfStream)) &&
            (c.Stopped? ==> es[|es| - 1].error == Some(c.err)) &&
            (c.Crashed? <==> end == Panicked) &&
            (c.StillReading? <==> end == AwaitingInput)
    decreases |rds|
  {
    if |rds| > 0 {
      var got := ReadsOf(rds);
      assert got[0] == rds[0].read;
      assert ReadsOf(rds[1..]) == got[1..];
      var s := FrameStep(clk, rds[0], encode);
      if s.Continue? {
        var f := rds[0].read.frame;
        var u := if f.usage.Some? then f.usage else usage;
        LoopsStopAlike(clk, rds[1..], acc + f.text[0].content, u, encode);
        var rest := FrameRun(clk, rds[1..], encode).0;
        var es := FrameRun(clk, rds, encode).0;
        assert es == [s.event] + rest;
        if |rest| > 0 {
          assert es[|es| - 1] == rest[|rest| - 1];
        }
      }
    }
  }

  /** The answer's text is the text of the stream's events, in order. */
  lemma {:induction false} LoopsAgreeOnContent(clk: Clock, rds: seq<FrameReading>, acc: string, usage: Option<Usage>,
                                               encode: Frame -> string)
    requires Collect(ReadsOf(rds), acc, usage, encode).Finished?
    ensures Collect(ReadsOf(rds), acc, usage, encode).content == acc + Contents(FrameRun(clk, rds, encode).0)
    decreases |rds|
  {
    var got := ReadsOf(rds);
    assert got[0] == rds[0].read;
    assert ReadsOf(rds[1..]) == got[1..];
    var f := rds[0].read.frame;
    var es := FrameRun(clk, rds, encode).0;
    if f.status == LastFrameStatus {
      assert es == FrameStep(clk, rds[0], encode).events;
      assert Contents(es[1..]) == "" by {
        assert es[1..][1..] == [];
      }
    } else {
      var u := if f.usage.Some? then f.usage else usage;
      LoopsAgreeOnContent(clk, rds[1..], acc + f.text[0].content, u, encode);
      var rest := FrameRun(clk, rds[1..], encode).0;
      assert es == [FrameStep(clk, rds[0], encode).event] + rest;
      assert es[1..] == rest;
    }
  }

  /** How the stream ends: every event but the last iteration's is a content
      event with one choice and no error; the loop returns after exactly one
      error event, or after a `stop` event followed by exactly one `io.EOF`
      event. */
  predicate ContentEvent(e: Response) {
    e.error.None? && |e.choices| == 1 && StartsWithPrefix(e.id)
  }

  predicate StartsWithPrefix(id: string) {
    |CompletionIdPrefix| <= |id| && id[..|CompletionIdPrefix|] == CompletionIdPrefix
  }

  predicate FinalFrameEvents(fs: seq<Response>) {
    (|fs| == 1 && fs[0].error.Some? && fs[0].error != Some(EndOfStream)) ||
    (|fs| == 2 && ContentEvent(fs[0]) && fs[0].choices[0].finishReason == Stop &&
     fs[1].error == Some(EndOfStream) && fs[1].choices == [])
  }

  lemma {:induction false} FrameRunEnds(clk: Clock, rds: seq<FrameReading>, encode: Frame -> string) returns (n: nat)
    ensures var (es, end) := FrameRun(clk, rds, encode);
            n <= |es| &&
            (forall i | 0 <= i < n :: ContentEvent(es[i]) && es[i].choices[0].finishReason == Unset) &&
            (end == Returned ==> FinalFrameEvents(es[n..])) &&
            (end != Returned ==> n == |es|)
    decreases |rds|
  {
    if |rds| == 0 {
      n := 0;
    } else {
      var s := FrameStep(clk, rds[0], encode);
      match s
      case Crash =>
        n := 0;
      case Finish(fs) =>
        n := 0;
        assert FrameRun(clk, rds, encode).0[0..] == fs;
        if |fs| == 2 {
          assert (CompletionIdPrefix + rds[0].read.frame.sid)[..|CompletionIdPrefix|] == CompletionIdPrefix;
        }
      case Continue(e) =>
        var m := FrameRunEnds(clk, rds[1..], encode);
        n := m + 1;
        var rest := FrameRun(clk, rds[1..], encode).0;
        var es := FrameRun(clk, rds, encode).0;
        assert (CompletionIdPrefix + rds[0].read.frame.sid)[..|CompletionIdPrefix|] == CompletionIdPrefix;
        assert es == [e] + rest;
        assert es[n..] == rest[m..];
        forall i | 0 <= i < n
          ensures ContentEvent(es[i]) && es[i].choices[0].finishReason == Unset
        {
          if i > 0 {
            assert es[i] == rest[i - 1];
          }
        }
    }
  }

  /** Every event of the xfyun stream is timed like the HTTP adapters'. */
  lemma {:induction false} FrameRunTiming(clk: Clock, rds: seq<FrameReading>, encode: Frame -> string)
    ensures forall e | e in FrameRun(clk, rds, encode).0 :: WellTimed(clk, e)
    decreases |rds|
  {
    if |rds| > 0 && FrameStep(clk, rds[0], encode).Continue? {
      FrameRunTiming(clk, rds[1..], encode);
    }
  }
}
