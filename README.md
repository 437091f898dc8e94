# Docker-to-CloudWatch log shipper, modelled in Dafny

The program runs a Docker container. It reads the container's output line by line and
ships the lines to an AWS CloudWatch Logs stream. Each line is stripped of surrounding
whitespace, and blank lines are dropped. Each remaining line becomes a log event
stamped with the current time. The events are buffered and pushed ten at a time with
`put_log_events`, which is ordered by a sequence token: each push is given the token the
previous push returned. A push that the service throttles is retried with the same
batch and token after a pause. A push that fails with any other client error gives up
and returns the token it was given. When the live stream ends, a second, non-streaming
read of the container's logs (the drain pass) adds its lines to what is left in the
buffer, and that remainder is pushed once. A `finally` block then stops and removes
the container.

The model has four modules:

- `Events` (events.dfy) has the line filter. It models Python's `str.strip` and
  `str.isspace`, the messages a run of lines yields, and the stamping of messages with
  clock readings.
- `Sink` (sink.dfy) has `push_log_events`. It is a recursive function over a finite
  script of service answers, one answer consumed per attempt.
- `Pump` (pump.dfy) has the live loop, the drain pass and the final push. It is an
  imperative method whose loop invariant ties its variables (the pushes made, the
  `log_events` buffer, `sequence_token`, the answers left) to `Live`, a reference
  function that runs the loop body over the lines read so far. Lemmas prove that `Live`
  keeps the loop's invariant, and the method is proved against the `Session`
  predicate. The predicate relates every push made, with its batch, its token and its
  outcome, to the input lines and the script.
- `Shipper` (shipper.dfy) has the set-up and the cleanup of `main`. The container is a
  class with a ghost record of its `stop()` and `remove()` calls.

Inputs the real program reads from the outside world are parameters:

- The container's output is a `LogSource`. It holds the lines the live stream yields,
  whether the stream then raises a Docker `APIError`, and the drain pass's lines or
  `None` when that read raises.
- The wall clock is a function `clock` from the ordinal of an accepted line to an
  abstract `Instant`. The clock is read once per accepted line.
- CloudWatch is the `script` of answers. A script that runs out while a push is still
  being throttled ends the run as `PushStalled`: the run had not ended at that point,
  and the model says nothing about what happens after it.
- Set-up is a `Setup`: the replies to `create_log_group` and `create_log_stream`, and
  whether the container starts.

## Model

| member | source | states |
|---|---|---|
| Events.TrimStartSpec | main.py:150 | the leading-whitespace removal of `strip()`: the result is a suffix of the input, everything cut off is whitespace, and the result does not start with whitespace |
| Events.TrimEndSpec | main.py:150 | the trailing-whitespace removal of `strip()`: the result is a prefix, everything cut off is whitespace, and the result does not end with whitespace |
| Events.StripSpec | main.py:150-151 | `line.strip()` is empty exactly when the line is all whitespace, so `if message` rejects exactly the blank lines; a non-empty result starts and ends with a non-space character |
| Events.StripIsInfix | main.py:150 | what `strip()` keeps is a contiguous piece of the line, with only whitespace before and after it |
| Events.StripPadded | main.py:150 | any message with non-space ends, padded with whitespace on either side, strips back to exactly that message |
| Events.StripIdempotent | main.py:150 | stripping an already stripped message changes nothing |
| Events.Messages | main.py:149-156 | a run of lines yields at most one message per line |
| Events.MessagesStripped | main.py:150-156 | every message is non-empty and already stripped: stripping it again gives it back |
| Events.MessagesOfLine | main.py:150-151 | a single line yields a message exactly when it is not blank, and the message is its stripped text |
| Events.MessagesAppend | main.py:149-175 | the messages of two runs of lines are the first run's messages followed by the second's, so the live loop and the drain pass apply one filter in arrival order |
| Events.BlankLinesYieldNothing | main.py:151 | lines that are all blank yield no event |
| Events.NonBlankLinesAllKept | main.py:150-156 | when no line is blank, every line yields one message, its stripped text, in order; this is checked against the reference `Events.StripAll` |
| Events.StampAppend | main.py:152-155 | stamping two runs of messages one after the other continues the clock numbering where the first run stopped |
| Sink.PushSendsToken | main.py:92-99 | every request a push sends names the given group and stream and carries the given batch; it carries a `sequenceToken` exactly when the given token is truthy (present and non-empty), and then that same token, so `None` and `""` are never sent |
| Sink.ThrottleRun | main.py:104-108 | the number of throttling answers the push meets before anything else: all answers before it throttle, and the one at it does not |
| Sink.PushLogEvents | main.py:89-90 | an empty batch returns the given token, sends nothing, waits for nothing and leaves every answer for later; no push consumes more answers than there are |
| Sink.PushAttempts | main.py:92-111 | for a non-empty batch, the same request (same group, stream and events, token sent per `SentToken`) is sent once per throttling answer plus once more for the answer that settles it. It waits once per throttling answer. A success returns its `nextSequenceToken`, another client error returns the given token, and another exception escapes. The answers after the settling one are left for later calls |
| Sink.ThrottledThenSettled | main.py:101-111 | `k` throttles followed by another answer: `k + 1` identical requests and `k` waits. A success returns its next token, another client error returns the input token, and the answers after it are untouched; with `k = 0`, a non-throttling error is not retried |
| Pump.Abort | main.py:159-166 | a push that did not return ends the run as raised or stalled |
| Pump.BufferedEvents | main.py:150-156 | when the line just read strips to a non-empty message, appending the event that pairs the next clock reading (`clock(accepted)`) with that message keeps "events already pushed, then the buffer" equal to the stamped messages of every line read so far, this one included |
| Pump.LiveStreaming | main.py:149-166 | the state the live loop's body reaches after each line read, as long as no push failed before it, keeps the loop's invariant: the pushes so far carry ten events each and, followed by the buffer, are the accepted events in order; fewer than ten are buffered; each push was given the token and the answers the previous one left |
| Pump.Pump | main.py:135-181 | `Session` holds of the run. Every live push carries exactly ten events, and the live pushes are the accepted events in order. The buffer holds fewer than ten events when the stream ends. Each push is given the token the previous push left, and is answered from the answers the previous push left. A Docker `APIError` ends the run with no final push. Otherwise the remainder plus the drain pass's events is pushed once, exactly when it is not empty. A push that raises or stalls ends the run |
| Pump.ChainedSnoc | main.py:159-166 | appending a push given the previous push's token and remaining answers keeps the chain of pushes threaded |
| Pump.PushedSnoc | main.py:156-166 | the events pushed after one more push are the earlier ones followed by that push's batch |
| Pump.FinishedPushesEverything | main.py:135-181 | a run that finishes normally read the whole stream without an `APIError`, and every push returned. The pushes together carry the stream's messages followed by the drain pass's messages, each once, in order, with consecutive clock readings |
| Pump.FinishedFacts | main.py:168-181 | a finished run: the whole stream was read, the last live push returned, and the final push, when one is made, carries exactly the remainder plus the drain pass and returned |
| Pump.ChainCompletes | main.py:159-166 | in a chain of pushes whose last push returned, every push returned |
| Pump.CursorThreading | main.py:136-166 | the first push is given no token and sends none. Every later push is given exactly what the previous push returned: the service's next token after a success, and the previous push's own token after another client error |
| Pump.AlwaysAccepting | main.py:159-166 | against a service that accepts every push, push `i` is settled by answer `i` at the first attempt and returns its token; it was given the token of answer `i - 1`, or none for the first |
| Pump.SessionShape | main.py:149-181 | every push carries events. There are at most `consumed / 10` live pushes. When the live pushes all returned, the whole stream was read, fewer than ten events were left, and the final push is made exactly when the remainder plus the drain pass is non-empty |
| Pump.AllAccepted | main.py:150-156 | a stream with no blank line yields as many events as lines |
| Pump.TwentyFiveLines | main.py:135-181 | 25 non-blank lines, an empty drain pass and a service answering three successes `a`, `b`, `c`. The run makes two live pushes of ten, given no token and then `a`, and a final push of five given `b` that returns `c` |
| Pump.DrainOverfillsBatch | main.py:168-181 | the final push is not limited to ten: with no live lines and `n` non-blank drained lines, it is made exactly when `n > 0` and carries all `n` events |
| Shipper.Container.constructor | main.py:139-145 | a new container has had no `stop()` or `remove()` call |
| Shipper.Container.Stop | main.py:188 | records one `stop()` call |
| Shipper.Container.Remove | main.py:189 | records one `remove()` call |
| Shipper.Ship | main.py:130-196 | a container exists exactly when the log group and stream are provided (created or already existing) and the container starts. Without one, nothing is pushed. With one, `Session` holds and the container is stopped then removed exactly once each, on a normal exit, an `APIError` or a raising push. A run that stalls inside a retrying push has made no container call yet |

## Left out

- Argument parsing (main.py:199-210), the logger and every `logger` call: input plumbing and output only.
- Building the boto3 and Docker clients and `containers.run` (main.py:123-145): foreign calls, reduced to the `Setup.containerStarts` flag.
- `create_log_group` and `create_log_stream` (main.py:38-66): their only logic, tolerating an existing resource, is the `Shipper.Provided` predicate over a given reply.
- UTF-8 decoding (main.py:150, 172): lines are already strings.
- The float wall-clock timestamps (main.py:153, 171): timestamps are abstract `Instant`s, so the model does not say whether CloudWatch accepts their unit.
- `time.sleep(2)` (main.py:107): the model counts the backoff waits and does not model elapsed time.
- Sink.PushLogEvents: every throttling retry is a nested call made inside the `except ClientError` handler (main.py:104-108), so a long enough run of throttles exceeds Python's recursion limit and raises `RecursionError`. That is not a `ClientError`, so it escapes the push and the pump; the `finally` block (main.py:186-189) stops and removes the container and the outer `except Exception` (main.py:195-196) logs it. The model has no depth bound: it allows any number of throttles in a row, and a push whose script of answers runs out while throttled is reported as `Stalled`, with no property about how that run ends.
- Sink.PushLogEvents: a success response without a `nextSequenceToken` key (a `KeyError`) is not modelled; a success always carries a token.
- Sink.PushLogEvents: every non-`ClientError` exception is one `Fault` answer, so the model does not tell them apart.
- The relation between the drain pass and the lines already streamed depends on Docker's log transport. The drain pass is a separate given sequence, and the model does not claim the two are disjoint.
- The drain read, if taken literally from docker-py, where a non-streaming `logs()` call returns one `bytes` object: iterating it gives integers, on which `.decode` would fail. The model follows the evidently intended reading, where the drain pass yields lines.
- Shipper.Ship: an exception raised by `stop()` or `remove()` themselves is not modelled.
- The outer exception handlers (main.py:191-196) only log. The model reports the cause as an `Exit` value instead.
