/** The body of `main` (main.py:130-189): the container's output is read line by line,
    accepted lines are buffered as log events, every full buffer of ten is pushed with
    the sequence token the previous push returned, the drain pass is added to what is
    left and pushed once, and the container is stopped and removed on the way out. */
module Pump {
  import opened Wrappers
  import opened Events
  import opened Sink

  /** `if len(log_events) >= 10`: the buffer size at which the live loop pushes. */
  const BatchSize: nat := 10

  /** The container's output as the pump sees it. `stream` is what the live log stream
      yields; when `streamFails` holds, the stream raises a Docker `APIError` after that.
      `drain` is what the second, non-streaming `logs()` read returns, or `None` when
      that read raises a Docker `APIError`. */
  datatype LogSource = LogSource(stream: seq<string>, streamFails: bool, drain: Option<seq<string>>)

  /** One call of `push_log_events` made by the pump: the batch, the token it was
      given, and what the call did. */
  datatype PushCall = PushCall(batch: seq<LogEvent>, token: Option<string>, outcome: Push)

  /** How the pump ends. `PushStalled` means the script of answers ran out while a push
      was still retrying: the run had not ended yet, and the model stops observing it
      there, inside that push. */
  datatype Exit = Finished | DockerApiError | PushRaised | PushStalled | SetupFailed

  /** The push returned a token (its answer was not an escaping exception). */
  predicate Completes(call: PushCall) {
    call.outcome.result.Returned?
  }

  /** The exit caused by a push that did not return. */
  function Abort(result: PushResult): (exit: Exit)
    requires !result.Returned?
    ensures exit == PushRaised || exit == PushStalled
  {
    if result.Raised? then PushRaised else PushStalled
  }

  /** All events handed to `push_log_events`, batch after batch. */
  function Pushed(calls: seq<PushCall>): seq<LogEvent>
    decreases |calls|
  {
    if calls == [] then [] else Pushed(calls[..|calls| - 1]) + calls[|calls| - 1].batch
  }

  /** The value of `sequence_token` after a push: what it returned, or, when an
      exception escaped, the token it was given. */
  function HeldAfter(call: PushCall): Option<string> {
    if Completes(call) then call.outcome.result.token else call.token
  }

  /** `sequence_token` before the `i`-th push: `None` before the first. */
  function TokenBefore(calls: seq<PushCall>, i: nat): Option<string>
    requires i <= |calls|
  {
    if i == 0 then None else HeldAfter(calls[i - 1])
  }

  /** The service's answers not yet consumed before the `i`-th push. */
  function ScriptBefore(calls: seq<PushCall>, script: seq<Response>, i: nat): seq<Response>
    requires i <= |calls|
  {
    if i == 0 then script else calls[i - 1].outcome.rest
  }

  /** The `i`-th push was given the token the previous one left, was answered from the
      answers the previous one left, and, unless it is the last, returned. */
  ghost predicate ChainedAt(calls: seq<PushCall>, group: string, stream: string, script: seq<Response>, i: nat)
    requires i < |calls|
  {
    && calls[i].token == TokenBefore(calls, i)
    && calls[i].outcome == PushLogEvents(group, stream, calls[i].batch, calls[i].token, ScriptBefore(calls, script, i))
    && (i + 1 < |calls| ==> Completes(calls[i]))
  }

  /** The pushes form one chain: a single cursor and a single script of answers are
      threaded through them in order. */
  ghost predicate Chained(calls: seq<PushCall>, group: string, stream: string, script: seq<Response>) {
    forall i :: 0 <= i < |calls| ==> ChainedAt(calls, group, stream, script, i)
  }

  /** The live pushes followed by the final push, if one was made. */
  function Calls(streamed: seq<PushCall>, final: Option<PushCall>): seq<PushCall> {
    streamed + if final.Some? then [final.value] else []
  }

  /** What a run of the pump did. `streamed` are the pushes made in the live loop,
      `consumed` the number of live lines read, `final` the push after the drain pass. */
  ghost predicate Session(group: string, stream: string, source: LogSource, clock: nat -> Instant,
                          script: seq<Response>, streamed: seq<PushCall>, consumed: nat,
                          final: Option<PushCall>, exit: Exit)
  {
    && consumed <= |source.stream|
    && Chained(Calls(streamed, final), group, stream, script)
    // every live push carries a full buffer, and they are the accepted events in order
    && (forall i :: 0 <= i < |streamed| ==> |streamed[i].batch| == BatchSize)
    && (var live := Stamp(Messages(source.stream[..consumed]), clock, 0);
        && BatchSize * |streamed| <= |live|
        && Pushed(streamed) == live[..BatchSize * |streamed|]
        && if streamed != [] && !Completes(streamed[|streamed| - 1]) then
             // a live push raised or stalled: nothing happens after it
             && final == None
             && Pushed(streamed) == live
             && exit == Abort(streamed[|streamed| - 1].outcome.result)
           else
             // the whole stream was read, and fewer than a full buffer is left
             && consumed == |source.stream|
             && |live| < BatchSize * |streamed| + BatchSize
             && if source.streamFails || source.drain.None? then
                  final == None && exit == DockerApiError
                else
                  // the leftover buffer, extended by the drain pass, is pushed once if not empty
                  var leftover := live[BatchSize * |streamed|..] + Stamp(Messages(source.drain.value), clock, |live|);
                  && (final.Some? <==> leftover != [])
                  && (final.Some? ==> final.value.batch == leftover)
                  && exit == if final.Some? && !Completes(final.value) then Abort(final.value.outcome.result) else Finished)
  }

  lemma ChainedSnoc(calls: seq<PushCall>, group: string, stream: string, script: seq<Response>, c: PushCall)
    requires Chained(calls, group, stream, script)
    requires calls == [] || Completes(calls[|calls| - 1])
    requires c.token == TokenBefore(calls, |calls|)
    requires c.outcome == PushLogEvents(group, stream, c.batch, c.token, ScriptBefore(calls, script, |calls|))
    ensures Chained(calls + [c], group, stream, script)
  {
    var cs := calls + [c];
    forall i | 0 <= i < |cs| ensures ChainedAt(cs, group, stream, script, i) {
      if i < |calls| {
        assert ChainedAt(calls, group, stream, script, i);
        assert cs[i] == calls[i];
        if i > 0 { assert cs[i - 1] == calls[i - 1]; }
      } else {
        assert cs[i] == c;
        if i > 0 { assert cs[i - 1] == calls[i - 1]; }
      }
    }
  }

  lemma PushedSnoc(calls: seq<PushCall>, c: PushCall)
    ensures Pushed(calls + [c]) == Pushed(calls) + c.batch
  {
    assert (calls + [c])[..|calls|] == calls;
  }

  lemma MessagesStep(lines: seq<string>, n: nat)
    requires n < |lines|
    ensures Messages(lines[..n + 1]) == Messages(lines[..n]) + if Strip(lines[n]) == [] then [] else [Strip(lines[n])]
  {
    assert lines[..n + 1][..n] == lines[..n];
  }

  lemma StampSnoc(ms: seq<string>, m: string, clock: nat -> Instant)
    ensures Stamp(ms + [m], clock, 0) == Stamp(ms, clock, 0) + [LogEvent(clock(|ms|), m)]
  {
    StampAppend(ms, [m], clock, 0);
    assert Stamp([m], clock, |ms|) == [LogEvent(clock(|ms|), m)];
  }

  /** The state of the live loop after `consumed` lines: the pushes made so far carry
      full buffers, they and the buffer hold the accepted events in order, `accepted`
      clock readings were taken, and the token and the answers left are those the last
      push left. */
  ghost predicate Streaming(group: string, stream: string, source: LogSource, clock: nat -> Instant,
                            script: seq<Response>, streamed: seq<PushCall>, consumed: nat,
                            logEvents: seq<LogEvent>, accepted: nat, sequenceToken: Option<string>,
                            answers: seq<Response>, exit: Exit)
  {
    && consumed <= |source.stream|
    && Pushed(streamed) + logEvents == Stamp(Messages(source.stream[..consumed]), clock, 0)
    && accepted == |Pushed(streamed)| + |logEvents|
    && |Pushed(streamed)| == BatchSize * |streamed|
    && (forall i :: 0 <= i < |streamed| ==> |streamed[i].batch| == BatchSize)
    && |logEvents| < BatchSize
    && Chained(streamed, group, stream, script)
    && sequenceToken == TokenBefore(streamed, |streamed|)
    && answers == ScriptBefore(streamed, script, |streamed|)
    && (exit == Finished <==> streamed == [] || Completes(streamed[|streamed| - 1]))
    && (exit != Finished ==> exit == Abort(streamed[|streamed| - 1].outcome.result) && logEvents == [])
  }

  lemma StreamingStart(group: string, stream: string, source: LogSource, clock: nat -> Instant, script: seq<Response>)
    ensures Streaming(group, stream, source, clock, script, [], 0, [], 0, None, script, Finished)
  {
    assert source.stream[..0] == [];
  }

  /** A blank line changes nothing but the count of lines read. */
  lemma StreamingSkip(group: string, stream: string, source: LogSource, clock: nat -> Instant,
                      script: seq<Response>, streamed: seq<PushCall>, consumed: nat,
                      logEvents: seq<LogEvent>, accepted: nat, sequenceToken: Option<string>,
                      answers: seq<Response>)
    requires Streaming(group, stream, source, clock, script, streamed, consumed, logEvents, accepted, sequenceToken, answers, Finished)
    requires consumed < |source.stream| && Strip(source.stream[consumed]) == []
    ensures Streaming(group, stream, source, clock, script, streamed, consumed + 1, logEvents, accepted, sequenceToken, answers, Finished)
  {
    MessagesStep(source.stream, consumed);
    var ms := Messages(source.stream[..consumed]);
    assert ms + [] == ms;
  }

  /** Buffering the next accepted line keeps the pushed events followed by the buffer
      equal to the events of the lines read so far. */
  lemma BufferedEvents(source: LogSource, clock: nat -> Instant, pushed: seq<LogEvent>, consumed: nat,
                       logEvents: seq<LogEvent>, accepted: nat)
    requires consumed < |source.stream| && Strip(source.stream[consumed]) != []
    requires pushed + logEvents == Stamp(Messages(source.stream[..consumed]), clock, 0)
    requires accepted == |pushed| + |logEvents|
    ensures pushed + (logEvents + [LogEvent(clock(accepted), Strip(source.stream[consumed]))])
            == Stamp(Messages(source.stream[..consumed + 1]), clock, 0)
  {
    var m := Strip(source.stream[consumed]);
    var event := LogEvent(clock(accepted), m);
    var ms := Messages(source.stream[..consumed]);
    MessagesStep(source.stream, consumed);
    assert Messages(source.stream[..consumed + 1]) == ms + [m];
    StampSnoc(ms, m, clock);
  }

  /** An accepted line that leaves the buffer short of ten is stamped with the next clock
      reading and buffered. */
  lemma StreamingAccept(group: string, stream: string, source: LogSource, clock: nat -> Instant,
                        script: seq<Response>, streamed: seq<PushCall>, consumed: nat,
                        logEvents: seq<LogEvent>, accepted: nat, sequenceToken: Option<string>,
                        answers: seq<Response>)
    requires Streaming(group, stream, source, clock, script, streamed, consumed, logEvents, accepted, sequenceToken, answers, Finished)
    requires consumed < |source.stream| && Strip(source.stream[consumed]) != []
    requires |logEvents| + 1 < BatchSize
    ensures Streaming(group, stream, source, clock, script, streamed, consumed + 1,
                      logEvents + [LogEvent(clock(accepted), Strip(source.stream[consumed]))], accepted + 1,
                      sequenceToken, answers, Finished)
  {
    BufferedEvents(source, clock, Pushed(streamed), consumed, logEvents, accepted);
  }

  /** An accepted line that fills the buffer: the full buffer is pushed with the current
      token against the answers left, and the buffer is emptied; the token becomes what
      the push returned. */
  lemma StreamingPush(group: string, stream: string, source: LogSource, clock: nat -> Instant,
                      script: seq<Response>, streamed: seq<PushCall>, consumed: nat,
                      logEvents: seq<LogEvent>, accepted: nat, sequenceToken: Option<string>,
                      answers: seq<Response>, call: PushCall)
    requires Streaming(group, stream, source, clock, script, streamed, consumed, logEvents, accepted, sequenceToken, answers, Finished)
    requires consumed < |source.stream| && Strip(source.stream[consumed]) != []
    requires |logEvents| + 1 == BatchSize
    requires call.batch == logEvents + [LogEvent(clock(accepted), Strip(source.stream[consumed]))]
    requires call.token == sequenceToken
    requires call.outcome == PushLogEvents(group, stream, call.batch, sequenceToken, answers)
    ensures Streaming(group, stream, source, clock, script, streamed + [call], consumed + 1, [], accepted + 1,
                      HeldAfter(call), call.outcome.rest, if Completes(call) then Finished else Abort(call.outcome.result))
  {
    BufferedEvents(source, clock, Pushed(streamed), consumed, logEvents, accepted);
    ChainedSnoc(streamed, group, stream, script, call);
    PushedSnoc(streamed, call);
    var cs := streamed + [call];
    assert Pushed(cs) + [] == Pushed(cs);
    forall i | 0 <= i < |cs| ensures |cs[i].batch| == BatchSize {
      if i < |streamed| { assert cs[i] == streamed[i]; }
    }
    assert cs[|cs| - 1] == call;
  }

  /** The variables of the live loop: the pushes made, the buffer, the clock readings
      taken, `sequence_token`, the answers left, and how the loop stands. */
  datatype Loop = Loop(streamed: seq<PushCall>, logEvents: seq<LogEvent>, accepted: nat,
                       sequenceToken: Option<string>, answers: seq<Response>, exit: Exit)

  /** One pass of the live loop's body over `line`: a blank line changes nothing; an
      accepted line is stamped and buffered, and a buffer that reaches ten is pushed with
      the current token and emptied. Once a push has not returned, the loop has been left
      and nothing changes any more. */
  function ReadLine(group: string, stream: string, clock: nat -> Instant, st: Loop, line: string): Loop
  {
    var message := Strip(line);
    if st.exit != Finished || message == [] then st
    else
      var logEvents := st.logEvents + [LogEvent(clock(st.accepted), message)];
      if |logEvents| >= BatchSize then
        var p := PushLogEvents(group, stream, logEvents, st.sequenceToken, st.answers);
        Loop(st.streamed + [PushCall(logEvents, st.sequenceToken, p)], [], st.accepted + 1,
             if p.result.Returned? then p.result.token else st.sequenceToken, p.rest,
             if p.result.Returned? then Finished else Abort(p.result))
      else st.(logEvents := logEvents, accepted := st.accepted + 1)
  }

  /** The live loop's variables after the body has run over the first `n` lines. */
  function Live(group: string, stream: string, source: LogSource, clock: nat -> Instant,
                script: seq<Response>, n: nat): Loop
    requires n <= |source.stream|
  {
    if n == 0 then Loop([], [], 0, None, script, Finished)
    else ReadLine(group, stream, clock, Live(group, stream, source, clock, script, n - 1), source.stream[n - 1])
  }

  /** One pass of the live loop's body keeps the loop's invariant. */
  lemma StreamingStep(group: string, stream: string, source: LogSource, clock: nat -> Instant,
                      script: seq<Response>, st: Loop, consumed: nat)
    requires Streaming(group, stream, source, clock, script, st.streamed, consumed, st.logEvents, st.accepted,
                       st.sequenceToken, st.answers, Finished)
    requires st.exit == Finished && consumed < |source.stream|
    ensures var next := ReadLine(group, stream, clock, st, source.stream[consumed]);
      Streaming(group, stream, source, clock, script, next.streamed, consumed + 1, next.logEvents, next.accepted,
                next.sequenceToken, next.answers, next.exit)
  {
    var message := Strip(source.stream[consumed]);
    if message == [] {
      StreamingSkip(group, stream, source, clock, script, st.streamed, consumed, st.logEvents, st.accepted, st.sequenceToken, st.answers);
    } else if |st.logEvents| + 1 >= BatchSize {
      var batch := st.logEvents + [LogEvent(clock(st.accepted), message)];
      var call := PushCall(batch, st.sequenceToken, PushLogEvents(group, stream, batch, st.sequenceToken, st.answers));
      StreamingPush(group, stream, source, clock, script, st.streamed, consumed, st.logEvents, st.accepted, st.sequenceToken, st.answers, call);
    } else {
      StreamingAccept(group, stream, source, clock, script, st.streamed, consumed, st.logEvents, st.accepted, st.sequenceToken, st.answers);
    }
  }

  /** The live loop keeps its invariant for as long as it reads: the state after `n`
      lines, the last of them read while no push had failed, satisfies `Streaming`. */
  lemma {:induction false} LiveStreaming(group: string, stream: string, source: LogSource, clock: nat -> Instant,
                                         script: seq<Response>, n: nat)
    requires n <= |source.stream|
    requires n == 0 || Live(group, stream, source, clock, script, n - 1).exit == Finished
    ensures var st := Live(group, stream, source, clock, script, n);
      Streaming(group, stream, source, clock, script, st.streamed, n, st.logEvents, st.accepted,
                st.sequenceToken, st.answers, st.exit)
  {
    if n == 0 {
      StreamingStart(group, stream, source, clock, script);
    } else {
      var prev := Live(group, stream, source, clock, script, n - 1);
      if n - 1 > 0 {
        var before := Live(group, stream, source, clock, script, n - 2);
        assert before.exit != Finished ==> prev == before;
      }
      LiveStreaming(group, stream, source, clock, script, n - 1);
      StreamingStep(group, stream, source, clock, script, prev, n - 1);
    }
  }

  /** The loop's variables, known to be the state after the lines read, satisfy its invariant. */
  lemma LoopInvariant(group: string, stream: string, source: LogSource, clock: nat -> Instant,
                      script: seq<Response>, streamed: seq<PushCall>, consumed: nat,
                      logEvents: seq<LogEvent>, accepted: nat, sequenceToken: Option<string>,
                      answers: seq<Response>, exit: Exit)
    requires consumed <= |source.stream|
    requires consumed == 0 || Live(group, stream, source, clock, script, consumed - 1).exit == Finished
    requires Loop(streamed, logEvents, accepted, sequenceToken, answers, exit)
             == Live(group, stream, source, clock, script, consumed)
    ensures Streaming(group, stream, source, clock, script, streamed, consumed, logEvents, accepted, sequenceToken, answers, exit)
  {
    LiveStreaming(group, stream, source, clock, script, consumed);
    var st := Live(group, stream, source, clock, script, consumed);
    assert streamed == st.streamed && logEvents == st.logEvents && answers == st.answers;
  }

  /** The session left by a live push that raised or stalled. */
  lemma SessionAborted(group: string, stream: string, source: LogSource, clock: nat -> Instant,
                       script: seq<Response>, streamed: seq<PushCall>, consumed: nat,
                       logEvents: seq<LogEvent>, accepted: nat, sequenceToken: Option<string>,
                       answers: seq<Response>, exit: Exit)
    requires Streaming(group, stream, source, clock, script, streamed, consumed, logEvents, accepted, sequenceToken, answers, exit)
    requires exit != Finished
    ensures Session(group, stream, source, clock, script, streamed, consumed, None, exit)
  {
    assert Calls(streamed, None) == streamed;
    assert Pushed(streamed) + [] == Pushed(streamed);
  }

  /** The session left when the live stream or the drain read raised a Docker `APIError`. */
  lemma SessionApiError(group: string, stream: string, source: LogSource, clock: nat -> Instant,
                        script: seq<Response>, streamed: seq<PushCall>,
                        logEvents: seq<LogEvent>, accepted: nat, sequenceToken: Option<string>,
                        answers: seq<Response>)
    requires Streaming(group, stream, source, clock, script, streamed, |source.stream|, logEvents, accepted, sequenceToken, answers, Finished)
    requires source.streamFails || source.drain.None?
    ensures Session(group, stream, source, clock, script, streamed, |source.stream|, None, DockerApiError)
  {
    assert Calls(streamed, None) == streamed;
    var live := Stamp(Messages(source.stream[..|source.stream|]), clock, 0);
    assert Pushed(streamed) == live[..BatchSize * |streamed|];
  }

  /** The session after the drain pass: the buffer, extended by the drained events, is
      pushed once if it is not empty. */
  lemma SessionDrained(group: string, stream: string, source: LogSource, clock: nat -> Instant,
                       script: seq<Response>, streamed: seq<PushCall>,
                       logEvents: seq<LogEvent>, accepted: nat, sequenceToken: Option<string>,
                       answers: seq<Response>, final: Option<PushCall>, exit: Exit)
    requires Streaming(group, stream, source, clock, script, streamed, |source.stream|, logEvents, accepted, sequenceToken, answers, Finished)
    requires !source.streamFails && source.drain.Some?
    requires var last := logEvents + Stamp(Messages(source.drain.value), clock, accepted);
      && (final.Some? <==> last != [])
      && (final.Some? ==> final.value == PushCall(last, sequenceToken, PushLogEvents(group, stream, last, sequenceToken, answers)))
      && exit == if final.Some? && !Completes(final.value) then Abort(final.value.outcome.result) else Finished
    ensures Session(group, stream, source, clock, script, streamed, |source.stream|, final, exit)
  {
    var live := Stamp(Messages(source.stream[..|source.stream|]), clock, 0);
    var k := BatchSize * |streamed|;
    assert Pushed(streamed) + logEvents == live;
    assert Pushed(streamed) == live[..k];
    assert logEvents == live[k..];
    assert accepted == |live|;
    var leftover := live[k..] + Stamp(Messages(source.drain.value), clock, |live|);
    assert leftover == logEvents + Stamp(Messages(source.drain.value), clock, accepted);
    assert streamed == [] || Completes(streamed[|streamed| - 1]);
    if final.Some? {
      ChainedSnoc(streamed, group, stream, script, final.value);
      assert Calls(streamed, final) == streamed + [final.value];
    } else {
      assert Calls(streamed, final) == streamed;
    }
  }

  /** The pump (main.py:135-181): the live loop over the stream, the drain pass and the
      final push, against the service's answers in `script`. Nothing is timed: the
      `n`-th accepted line is stamped with `clock(n)`. */
  method Pump(group: string, stream: string, source: LogSource, clock: nat -> Instant, script: seq<Response>)
    returns (streamed: seq<PushCall>, consumed: nat, final: Option<PushCall>, exit: Exit)
    ensures Session(group, stream, source, clock, script, streamed, consumed, final, exit)
  {
    var logEvents: seq<LogEvent> := [];
    var sequenceToken: Option<string> := None;
    var answers := script;
    var accepted: nat := 0;  // clock readings taken so far
    streamed, consumed, final, exit := [], 0, None, Finished;
    while consumed < |source.stream| && exit == Finished
      invariant consumed <= |source.stream|
      invariant Loop(streamed, logEvents, accepted, sequenceToken, answers, exit)
                == Live(group, stream, source, clock, script, consumed)
      invariant consumed == 0 || Live(group, stream, source, clock, script, consumed - 1).exit == Finished
      decreases |source.stream| - consumed
    {
      assert Live(group, stream, source, clock, script, consumed).exit == Finished;
      var message := Strip(source.stream[consumed]);
      if message != "" {
        logEvents := logEvents + [LogEvent(clock(accepted), message)];
        accepted := accepted + 1;
        if |logEvents| >= BatchSize {
          var p := PushLogEvents(group, stream, logEvents, sequenceToken, answers);
          streamed := streamed + [PushCall(logEvents, sequenceToken, p)];
          logEvents := [];
          answers := p.rest;
          if p.result.Returned? {
            sequenceToken := p.result.token;
          } else {
            exit := Abort(p.result);
          }
        }
      }
      consumed := consumed + 1;
    }
    LoopInvariant(group, stream, source, clock, script, streamed, consumed, logEvents, accepted, sequenceToken, answers, exit);
    if exit != Finished {
      // a raising push leaves the try block from inside the loop; a stalled one has not ended
      SessionAborted(group, stream, source, clock, script, streamed, consumed, logEvents, accepted, sequenceToken, answers, exit);
      return;
    }
    if source.streamFails || source.drain.None? {
      exit := DockerApiError;
      SessionApiError(group, stream, source, clock, script, streamed, logEvents, accepted, sequenceToken, answers);
      return;
    }
    var remaining := logEvents + Stamp(Messages(source.drain.value), clock, accepted);
    if |remaining| > 0 {
      var p := PushLogEvents(group, stream, remaining, sequenceToken, answers);
      final := Some(PushCall(remaining, sequenceToken, p));
      if !p.result.Returned? {
        exit := Abort(p.result);
      }
    }
    SessionDrained(group, stream, source, clock, script, streamed, logEvents, accepted, sequenceToken, answers, final, exit);
  }

  /** A run that finishes normally read the whole stream without a Docker error, every
      push it made returned, and the pushes together carry every accepted line of the
      stream followed by every accepted line of the drain pass, each once, in order,
      stamped with consecutive clock readings: nothing is lost, duplicated or reordered. */
  lemma FinishedPushesEverything(group: string, stream: string, source: LogSource, clock: nat -> Instant,
                                 script: seq<Response>, streamed: seq<PushCall>, consumed: nat,
                                 final: Option<PushCall>, exit: Exit)
    requires Session(group, stream, source, clock, script, streamed, consumed, final, exit)
    requires exit == Finished
    ensures consumed == |source.stream| && !source.streamFails && source.drain.Some?
    ensures forall i :: 0 <= i < |Calls(streamed, final)| ==> Completes(Calls(streamed, final)[i])
    ensures Pushed(Calls(streamed, final)) == Stamp(Messages(source.stream) + Messages(source.drain.value), clock, 0)
  {
    FinishedFacts(group, stream, source, clock, script, streamed, consumed, final, exit);
    var calls := Calls(streamed, final);
    var ms, ds := Messages(source.stream), Messages(source.drain.value);
    var live := Stamp(ms, clock, 0);
    assert |live| == |ms|;
    var rest := Stamp(ds, clock, |ms|);
    StampAppend(ms, ds, clock, 0);
    var k := BatchSize * |streamed|;
    RejoinSplit(live, k, rest);
    if final.Some? {
      assert calls == streamed + [final.value];
      ChainCompletes(calls, group, stream, script);
      PushedSnoc(streamed, final.value);
      assert Pushed(calls) == live[..k] + (live[k..] + rest);
    } else {
      assert calls == streamed;
      ChainCompletes(calls, group, stream, script);
      assert Pushed(calls) == live[..k];
    }
  }

  /** What the session predicate says about a run that finished normally, taken apart. */
  lemma FinishedFacts(group: string, stream: string, source: LogSource, clock: nat -> Instant,
                      script: seq<Response>, streamed: seq<PushCall>, consumed: nat,
                      final: Option<PushCall>, exit: Exit)
    requires Session(group, stream, source, clock, script, streamed, consumed, final, exit)
    requires exit == Finished
    ensures consumed == |source.stream| && !source.streamFails && source.drain.Some?
    ensures Chained(Calls(streamed, final), group, stream, script)
    ensures streamed == [] || Completes(streamed[|streamed| - 1])
    ensures var live := Stamp(Messages(source.stream), clock, 0);
      var k := BatchSize * |streamed|;
      && k <= |live|
      && Pushed(streamed) == live[..k]
      && var leftover := live[k..] + Stamp(Messages(source.drain.value), clock, |live|);
         && (final.Some? <==> leftover != [])
         && (final.Some? ==> final.value.batch == leftover && Completes(final.value))
  {
    assert source.stream[..consumed] == source.stream;
  }

  /** In a chain whose last push returned, every push returned. */
  lemma ChainCompletes(calls: seq<PushCall>, group: string, stream: string, script: seq<Response>)
    requires Chained(calls, group, stream, script)
    requires calls == [] || Completes(calls[|calls| - 1])
    ensures forall i :: 0 <= i < |calls| ==> Completes(calls[i])
  {
    forall i | 0 <= i < |calls| ensures Completes(calls[i]) {
      assert ChainedAt(calls, group, stream, script, i);
    }
  }

  /** Cutting a sequence at `k` and gluing the halves back, then appending `rest`. */
  lemma RejoinSplit<T>(s: seq<T>, k: nat, rest: seq<T>)
    requires k <= |s|
    ensures s[..k] + (s[k..] + rest) == s + rest
    ensures s[k..] + rest == [] ==> s[..k] == s + rest
  {
    assert s[..k] + s[k..] == s;
  }

  /** Cursor threading: each push after the first was given exactly the token the push
      before it returned. That is the service's next token when the previous push
      succeeded, and the previous push's own token when it failed with another client
      error. The first push is given no token, so its requests carry no `sequenceToken`. */
  lemma CursorThreading(calls: seq<PushCall>, group: string, stream: string, script: seq<Response>, i: nat)
    requires Chained(calls, group, stream, script)
    requires i + 1 < |calls| && |calls[i].batch| > 0
    ensures calls[0].token == None
    ensures forall r :: r in calls[0].outcome.requests ==> r.sequenceToken == None
    ensures calls[i].outcome.result.Returned? && calls[i + 1].token == calls[i].outcome.result.token
    ensures var answers := ScriptBefore(calls, script, i);
      var k := ThrottleRun(answers);
      && k < |answers|
      && calls[i + 1].token == if answers[k].Success? then Some(answers[k].nextSequenceToken) else calls[i].token
  {
    assert ChainedAt(calls, group, stream, script, 0);
    assert ChainedAt(calls, group, stream, script, i);
    assert ChainedAt(calls, group, stream, script, i + 1);
    if |calls[0].batch| > 0 {
      PushAttempts(group, stream, calls[0].batch, calls[0].token, script);
    }
    PushAttempts(group, stream, calls[i].batch, calls[i].token, ScriptBefore(calls, script, i));
  }

  /** Against a service that accepts every push, the `i`-th push is answered by the
      `i`-th answer, at the first attempt, and returns that answer's next token; it was
      given the token the answer before it carried, or none when it is the first. */
  lemma {:induction false} AlwaysAccepting(calls: seq<PushCall>, group: string, stream: string,
                                           script: seq<Response>, i: nat)
    requires Chained(calls, group, stream, script)
    requires forall j :: 0 <= j < |script| ==> script[j].Success?
    requires forall j :: 0 <= j < |calls| ==> |calls[j].batch| > 0
    requires i < |calls| && i < |script|
    ensures ScriptBefore(calls, script, i) == script[i..]
    ensures calls[i].token == if i == 0 then None else Some(script[i - 1].nextSequenceToken)
    ensures calls[i].outcome.result == Returned(Some(script[i].nextSequenceToken))
    ensures |calls[i].outcome.requests| == 1 && calls[i].outcome.waits == 0
    decreases i
  {
    assert ChainedAt(calls, group, stream, script, i);
    if i > 0 {
      AlwaysAccepting(calls, group, stream, script, i - 1);
      var before := script[i - 1..];
      assert ChainedAt(calls, group, stream, script, i - 1);
      PushAttempts(group, stream, calls[i - 1].batch, calls[i - 1].token, before);
      assert ThrottleRun(before) == 0;
      assert calls[i - 1].outcome.rest == before[1..] == script[i..];
    }
    assert script[i..][0] == script[i];
    PushAttempts(group, stream, calls[i].batch, calls[i].token, script[i..]);
  }

  /** An example run: 25 lines, none blank, an empty drain pass, and a service that
      accepts three pushes with next tokens `a`, `b` and `c`. The pump makes two live
      pushes of ten events, the first with no token and the second with `a`, and one
      final push of the remaining five events with `b`, which returns `c`. */
  lemma TwentyFiveLines(group: string, stream: string, source: LogSource, clock: nat -> Instant,
                        a: string, b: string, c: string, streamed: seq<PushCall>, consumed: nat,
                        final: Option<PushCall>, exit: Exit)
    requires |source.stream| == 25 && forall i :: 0 <= i < 25 ==> !Blank(source.stream[i])
    requires !source.streamFails && source.drain == Some([])
    requires Session(group, stream, source, clock, [Success(a), Success(b), Success(c)], streamed, consumed, final, exit)
    ensures exit == Finished && consumed == 25
    ensures |streamed| == 2 && |streamed[0].batch| == 10 && |streamed[1].batch| == 10
    ensures streamed[0].token == None && streamed[1].token == Some(a)
    ensures final.Some? && |final.value.batch| == 5 && final.value.token == Some(b)
    ensures final.value.outcome.result == Returned(Some(c))
  {
    var script := [Success(a), Success(b), Success(c)];
    var calls := Calls(streamed, final);
    SessionShape(group, stream, source, clock, script, streamed, consumed, final, exit);
    assert |streamed| <= 2;
    if streamed != [] {
      AlwaysAccepting(calls, group, stream, script, |streamed| - 1);
      assert calls[|streamed| - 1] == streamed[|streamed| - 1];
    }
    AllAccepted(source.stream);
    assert source.stream[..consumed] == source.stream;
    assert |streamed| == 2;
    assert Messages([]) == [];
    assert |calls| == 3;
    AlwaysAccepting(calls, group, stream, script, 0);
    AlwaysAccepting(calls, group, stream, script, 1);
    AlwaysAccepting(calls, group, stream, script, 2);
    assert calls[2] == final.value;
  }

  lemma AllAccepted(lines: seq<string>)
    requires forall i :: 0 <= i < |lines| ==> !Blank(lines[i])
    ensures |Messages(lines)| == |lines|
  {
    NonBlankLinesAllKept(lines);
  }

  /** What the session predicate says about the sizes of a run, taken apart: every push
      carries events, at most one push per ten accepted lines is made live, and a run
      whose live pushes all returned read the whole stream and left less than ten. */
  lemma SessionShape(group: string, stream: string, source: LogSource, clock: nat -> Instant,
                     script: seq<Response>, streamed: seq<PushCall>, consumed: nat,
                     final: Option<PushCall>, exit: Exit)
    requires Session(group, stream, source, clock, script, streamed, consumed, final, exit)
    ensures Chained(Calls(streamed, final), group, stream, script)
    ensures forall j :: 0 <= j < |Calls(streamed, final)| ==> |Calls(streamed, final)[j].batch| > 0
    ensures forall j :: 0 <= j < |streamed| ==> |streamed[j].batch| == BatchSize
    ensures BatchSize * |streamed| <= consumed <= |source.stream|
    ensures (streamed == [] || Completes(streamed[|streamed| - 1])) ==>
      var live := Stamp(Messages(source.stream[..consumed]), clock, 0);
      && consumed == |source.stream|
      && |live| < BatchSize * |streamed| + BatchSize
      && BatchSize * |streamed| <= |live|
      && (!source.streamFails && source.drain.Some? ==>
            var leftover := live[BatchSize * |streamed|..] + Stamp(Messages(source.drain.value), clock, |live|);
            && (final.Some? <==> leftover != [])
            && (final.Some? ==> final.value.batch == leftover)
            && exit == if final.Some? && !Completes(final.value) then Abort(final.value.outcome.result) else Finished)
  {
    var calls := Calls(streamed, final);
    forall j | 0 <= j < |calls| ensures |calls[j].batch| > 0 {
      if j < |streamed| { assert calls[j] == streamed[j]; }
    }
  }

  /** The final push is not bounded by the batch size: with an empty live stream and a
      drain pass of `n` non-blank lines, the single push carries all `n` events. */
  lemma DrainOverfillsBatch(group: string, stream: string, source: LogSource, clock: nat -> Instant,
                            script: seq<Response>, streamed: seq<PushCall>, consumed: nat,
                            final: Option<PushCall>, exit: Exit)
    requires source.stream == [] && !source.streamFails && source.drain.Some?
    requires forall i :: 0 <= i < |source.drain.value| ==> !Blank(source.drain.value[i])
    requires Session(group, stream, source, clock, script, streamed, consumed, final, exit)
    ensures streamed == [] && consumed == 0
    ensures final.Some? <==> |source.drain.value| > 0
    ensures final.Some? ==> |final.value.batch| == |source.drain.value|
  {
    NonBlankLinesAllKept(source.drain.value);
    assert source.stream[..consumed] == [];
    assert Messages([]) == [];
  }
}
