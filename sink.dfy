/** `push_log_events` (main.py:69-111): one batch appended to a CloudWatch log stream
    under a sequence token, retried while the service throttles. The service is a
    finite script of answers, one consumed per `put_log_events` attempt. */
module Sink {
  import opened Wrappers
  import opened Events

  /** What the service does with one `put_log_events` attempt. */
  datatype Response =
    | Success(nextSequenceToken: string)  // a response carrying the next sequence token
    | Throttling                          // a ClientError whose code is ThrottlingException
    | OtherClientError                    // any other ClientError
    | Fault                               // an exception that is not a ClientError

  /** The keyword arguments of one `put_log_events` call; `sequenceToken` is `None`
      when the keyword is not passed at all. */
  datatype Request = Request(
    logGroupName: string,
    logStreamName: string,
    logEvents: seq<LogEvent>,
    sequenceToken: Option<string>)

  /** How a `push_log_events` call ends: it returns a token, an exception escapes it, or
      the script ran out while it was still retrying. `Stalled` says only that the call
      had not ended when the answers given to the model ran out; the model does not say
      how it ends after that. */
  datatype PushResult = Returned(token: Option<string>) | Raised | Stalled

  /** One `push_log_events` call: how it ended, the attempts it sent, the backoff waits
      it took (`time.sleep(2)` each), and the answers left for later calls. */
  datatype Push = Push(result: PushResult, requests: seq<Request>, waits: nat, rest: seq<Response>)

  /** `if sequence_token: kwargs['sequenceToken'] = sequence_token`: the token is sent
      only when it is truthy, that is, present and not the empty string. */
  function SentToken(token: Option<string>): (sent: Option<string>)
    ensures sent.Some? <==> token.Some? && token.value != ""
    ensures sent.Some? ==> sent == token
  {
    if token.Some? && token.value != "" then token else None
  }

  /** The number of leading throttling answers in a script. */
  function ThrottleRun(script: seq<Response>): (k: nat)
    ensures k <= |script|
    ensures forall i :: 0 <= i < k ==> script[i].Throttling?
    ensures k < |script| ==> !script[k].Throttling?
    decreases |script|
  {
    if |script| > 0 && script[0].Throttling? then 1 + ThrottleRun(script[1..]) else 0
  }

  /** How an answer other than throttling settles a push made with `token`: a success
      returns the service's next token, another ClientError returns `token` itself, and
      anything else escapes as an exception. */
  function Settle(answer: Response, token: Option<string>): PushResult
    requires !answer.Throttling?
  {
    if answer.Success? then Returned(Some(answer.nextSequenceToken))
    else if answer.OtherClientError? then Returned(token)
    else Raised
  }

  /** `push_log_events(client, group, stream, events, token)` against the answers in
      `script`. An empty batch returns `token` and contacts nobody. Otherwise the call
      sends the same request until an answer other than throttling arrives, waiting once
      after each throttling answer, and that answer settles it (`PushAttempts`). */
  function PushLogEvents(group: string, stream: string, events: seq<LogEvent>, token: Option<string>,
                         script: seq<Response>): (p: Push)
    ensures |events| == 0 ==> p == Push(Returned(token), [], 0, script)
    ensures |p.rest| <= |script|
    decreases |script|
  {
    if |events| == 0 then Push(Returned(token), [], 0, script)
    else if |script| == 0 then Push(Stalled, [], 0, [])
    else
      var request := Request(group, stream, events, SentToken(token));
      match script[0]
      case Success(next) => Push(Returned(Some(next)), [request], 0, script[1..])
      case Throttling =>
        var retry := PushLogEvents(group, stream, events, token, script[1..]);
        Push(retry.result, [request] + retry.requests, retry.waits + 1, retry.rest)
      case OtherClientError => Push(Returned(token), [request], 0, script[1..])
      case Fault => Push(Raised, [request], 0, script[1..])
  }

  /** What one push of a non-empty batch does, in terms of the run of throttling answers
      it meets first: it waits once per throttling answer, it sends the same request
      (same group, stream and events, the token as `SentToken` passes it) once per
      throttling answer and once more for the answer that settles it, that answer
      decides the result, and the answers after it are left for later pushes. When the
      script runs out first, the push had not ended yet. */
  lemma {:induction false} PushAttempts(group: string, stream: string, events: seq<LogEvent>,
                                        token: Option<string>, script: seq<Response>)
    requires |events| > 0
    ensures var p := PushLogEvents(group, stream, events, token, script);
      var k := ThrottleRun(script);
      && p.waits == k
      && |p.requests| == (if k < |script| then k + 1 else k)
      && (forall i :: 0 <= i < |p.requests| ==>
            p.requests[i] == Request(group, stream, events, SentToken(token)))
      && p.result == (if k < |script| then Settle(script[k], token) else Stalled)
      && p.rest == (if k < |script| then script[k + 1..] else [])
    decreases |script|
  {
    if |script| > 0 && script[0].Throttling? {
      PushAttempts(group, stream, events, token, script[1..]);
      var retry := PushLogEvents(group, stream, events, token, script[1..]);
      var p := PushLogEvents(group, stream, events, token, script);
      assert p.requests == [Request(group, stream, events, SentToken(token))] + retry.requests;
      var k := ThrottleRun(script[1..]);
      if k < |script[1..]| {
        assert script[1..][k] == script[k + 1];
        assert script[1..][k + 1..] == script[k + 2..];
      }
    }
  }

  /** Every request a push sends carries the batch it was given, and carries a
      `sequenceToken` exactly when the token it was given is truthy (present and not the
      empty string), and then that very token: the first push, given `None`, sends none. */
  lemma {:induction false} PushSendsToken(group: string, stream: string, events: seq<LogEvent>, token: Option<string>,
                                        script: seq<Response>)
    ensures forall r :: r in PushLogEvents(group, stream, events, token, script).requests ==>
      && r.logGroupName == group && r.logStreamName == stream && r.logEvents == events
      && (r.sequenceToken.Some? <==> token.Some? && token.value != "")
      && (r.sequenceToken.Some? ==> r.sequenceToken == token)
  {
    if |events| > 0 {
      PushAttempts(group, stream, events, token, script);
    }
  }

  /** `k` throttling answers in a row. */
  function Throttles(k: nat): (s: seq<Response>)
    ensures |s| == k && forall i :: 0 <= i < k ==> s[i] == Throttling
  {
    seq(k, _ => Throttling)
  }

  lemma {:induction false} ThrottleRunAfterThrottles(k: nat, answer: Response, rest: seq<Response>)
    requires !answer.Throttling?
    ensures ThrottleRun(Throttles(k) + [answer] + rest) == k
    decreases k
  {
    var s := Throttles(k) + [answer] + rest;
    if k > 0 {
      assert s[1..] == Throttles(k - 1) + [answer] + rest;
      ThrottleRunAfterThrottles(k - 1, answer, rest);
    }
  }

  /** The throttling scenario: when the service throttles `k` times and then gives an
      answer of another kind, the batch is sent `k + 1` times, each time with the same
      group, stream, events and token, `k` backoff waits happen, that answer settles the
      call, and the answers after it are left untouched. In particular `k` throttles and
      then a success return the success's token; `k` throttles and then another
      ClientError return the token the call was given. */
  lemma ThrottledThenSettled(group: string, stream: string, events: seq<LogEvent>, token: Option<string>,
                             k: nat, answer: Response, rest: seq<Response>)
    requires |events| > 0 && !answer.Throttling?
    ensures var p := PushLogEvents(group, stream, events, token, Throttles(k) + [answer] + rest);
      && p.waits == k
      && |p.requests| == k + 1
      && (forall i :: 0 <= i <= k ==> p.requests[i] == Request(group, stream, events, SentToken(token)))
      && p.result == (if answer.Success? then Returned(Some(answer.nextSequenceToken))
                      else if answer.OtherClientError? then Returned(token)
                      else Raised)
      && p.rest == rest
  {
    var script := Throttles(k) + [answer] + rest;
    ThrottleRunAfterThrottles(k, answer, rest);
    PushAttempts(group, stream, events, token, script);
    assert script[k] == answer;
    assert script[k + 1..] == rest;
  }
}
