# EventSourceClient: a verified model of the server-sent-events client

`EventSourceClient` is a C# client for server-sent events. It is built from a URL and an
optional `EventSourceExtraOptions` record, which supplies headers, a payload, an HTTP method, a debug flag and
a retry bound. It does three things in order:

1. It connects with retries. An attempt that throws, or whose response has a status outside 200..299, is followed by a
   fixed two-second delay, unless it was the last attempt permitted; then its exception propagates.
2. Each attempt builds a request from every configured header except the one keyed exactly
   `"Content-Type"`. The request has a JSON body when the payload is not empty.
3. It reads the response body line by line and publishes one "message" event for every block of `data:` lines
   that a blank line ends. It publishes its lifecycle (`Connecting`, `Open`, `Closed`) to `StateChanged`
   subscribers.

The model is split into modules that follow this structure:

- `Wrappers`: `Option`. It stands in for C#'s nullable references and for `??`.
- `Seqs`: associativity of sequence concatenation, which the proofs use to regroup logs and buffers.
- `Strings`: `Char.IsWhiteSpace`, `String.Trim` and `StartsWith` over `seq<char>`, with lemmas about what `Trim`
  removes.
- `Dtos`: `ReadyState` (with the enum's underlying values), `CustomEventArgs`, the options record
  (`ExtraOptions`) and its default value (`DefaultOptions`).
- `Requests`: the header filter and the request built by one attempt. `BuildRequest` is the imperative loop that
  adds the filtered headers one by one. It is proved equal to the value `RequestFor`.
- `Connection`: the connect-with-retry loop, `Connect`. The transport is an oracle `send: nat -> Outcome` that
  gives the outcome of each attempt. `ConnectResult`, `AttemptCount` and `DelayCount` are the reference
  definitions. `Connect` is proved to compute them, and the lemmas state what they mean: the number of attempts,
  the number of delays and the propagated exception.
- `Decoder`: the line decoder as a pure left fold, `Step`/`Feed`/`Decode`, with lemmas about it:
  - events come out in stream order, one per block that holds a data line and is ended by any white-space-only line;
  - the joined buffer is what gets trimmed;
  - an unterminated block is dropped;
  - the decoder is proved on the bodies used by the unit tests.
- `Client`:
  - the constructor's defaulting, `EffectiveSettings`;
  - the class `EventSourceClient`, with the mutable `readyState` field and ghost logs of the notifications
    published, the requests sent and the delays taken;
  - `SetReadyState` and `OnEventReceived`;
  - `Stream`, which runs `Connect`, then the reading loop `ReadBody`;
  - the reference run `StreamRun`, which `Stream` is proved to follow, and lemmas about every run's lifecycle
    and published events.

Where the code and its surrounding description differ, the model follows the code:

- `Closed` is published only when streaming ends normally. `SetReadyState(ReadyState.Closed)` is the method's last
  statement, not part of a `finally` block. So a run whose attempts all fail stays in `Connecting`, and a cancelled
  run stays in `Open`.
- Each data line's remainder after the five characters of `data:` is appended with a line terminator. Only the
  joined buffer is trimmed, not each line.
- `MaxRetries` is not bounded below. Zero or a negative value sends no request, and a run then goes straight from
  `Connecting` to `Closed`.
- The options record initialises `Method` to `"GET"`, although its comment says "GET" unless a payload is
  provided. So the constructor's `"POST"` fallback applies only when `Method` is explicitly null
  (`PayloadAloneKeepsGet`).

## Model

| member | source | states |
|---|---|---|
| Strings.TrimShape | src/VDG_EventSourceClient/EventSourceClient/EventSourceClient.cs:166 | `Trim(s)` is a contiguous slice of `s`, and everything before and after it is white space |
| Strings.TrimEndsWithoutWhiteSpace | src/VDG_EventSourceClient/EventSourceClient/EventSourceClient.cs:166 | a trimmed string neither starts nor ends with white space |
| Strings.TrimEmptyIffAllWhiteSpace | src/VDG_EventSourceClient/EventSourceClient/EventSourceClient.cs:164 | a line trims to `""` exactly when every character is white space |
| Strings.TrimIgnoresNewline | src/VDG_EventSourceClient/EventSourceClient/EventSourceClient.cs:162-166 | the terminator `AppendLine` adds after the last data line never reaches the event data |
| Requests.FilterHeaders | src/VDG_EventSourceClient/EventSourceClient/EventSourceClient.cs:110 | a header passes the filter if and only if it is configured and its key is not exactly "Content-Type"; nothing is added |
| Requests.FilterHeadersAppend | src/VDG_EventSourceClient/EventSourceClient/EventSourceClient.cs:110-113 | the filter keeps enumeration order: filtering a concatenation is concatenating the filtered parts |
| Requests.FilterKeepsOtherHeaders | src/VDG_EventSourceClient/EventSourceClient/EventSourceClient.cs:110-113 | with no "Content-Type" entry, every configured header passes the filter, in order |
| Requests.OnlyExactContentTypeKeyIsDropped | src/VDG_EventSourceClient/EventSourceClient/EventSourceClient.cs:110 | the comparison is exact and case-sensitive, so "content-type" passes the filter and "Content-Type" does not |
| Requests.RequestFor | src/VDG_EventSourceClient/EventSourceClient/EventSourceClient.cs:109-119 | the request has the configured method and URL and exactly the filtered headers; it has content if and only if the payload is non-empty, and the content holds the payload unchanged |
| Requests.BuildRequest | src/VDG_EventSourceClient/EventSourceClient/EventSourceClient.cs:109-119 | the header loop and the content branch build exactly `RequestFor`'s request |
| Requests.PostWithContentTypeHeader | src/VDG_EventSourceClient/Tests/EventSourceClientTests/UnitTest1.cs:119-150 | a POST with a payload and only a "Content-Type" header builds a request with no header and the payload as a JSON body |
| Connection.FailureOf | src/VDG_EventSourceClient/EventSourceClient/EventSourceClient.cs:132-134 | an attempt fails if and only if it throws or its status is outside 200..299; the exception is the thrown one or a status failure carrying the status code |
| Connection.FirstSuccess | src/VDG_EventSourceClient/EventSourceClient/EventSourceClient.cs:105-144 | the result is the least successful attempt in range, with every earlier one failing; none means all in range fail |
| Connection.AttemptCount | src/VDG_EventSourceClient/EventSourceClient/EventSourceClient.cs:105 | never more attempts than `maxRetries`, and none when it is zero or less |
| Connection.Connect | src/VDG_EventSourceClient/EventSourceClient/EventSourceClient.cs:101-144 | the loop ends with `ConnectResult`, sends `AttemptCount` requests, each equal to `RequestFor`'s, and takes `DelayCount` delays |
| Connection.FirstSuccessIs | src/VDG_EventSourceClient/EventSourceClient/EventSourceClient.cs:135 | when attempts before `k` fail and `k` succeeds, `k` is the first success |
| Connection.NoSuccess | src/VDG_EventSourceClient/EventSourceClient/EventSourceClient.cs:140-141 | when every attempt in range fails there is no first success |
| Connection.RetryUntilSuccess | src/VDG_EventSourceClient/Tests/EventSourceClientTests/UnitTest1.cs:153-176 | attempts `0..k-1` fail and attempt `k` succeeds: exactly `k+1` attempts and `k` delays, and attempt `k`'s response is streamed |
| Connection.AllAttemptsFail | src/VDG_EventSourceClient/EventSourceClient/EventSourceClient.cs:137-142 | all `maxRetries >= 1` attempts fail: exactly `maxRetries` attempts and `maxRetries - 1` delays, and the last attempt's exception propagates |
| Connection.NoAttemptsWithoutRetries | src/VDG_EventSourceClient/EventSourceClient/EventSourceClient.cs:105 | with `maxRetries <= 0` no request is sent, no delay is taken and there is no response |
| Connection.ConnectedMeansSuccess | src/VDG_EventSourceClient/EventSourceClient/EventSourceClient.cs:134-135 | a response that reaches streaming has a success status and is the response of one permitted attempt |
| Decoder.BlankIffTrimmedEmpty | src/VDG_EventSourceClient/EventSourceClient/EventSourceClient.cs:164 | the decoder's blank-line test is exactly the source's trim-to-empty test |
| Decoder.FeedAppend | src/VDG_EventSourceClient/EventSourceClient/EventSourceClient.cs:154-174 | the decoder is a left fold: reading `xs` and then `ys` is reading `xs + ys` |
| Decoder.FeedKeepsEvents | src/VDG_EventSourceClient/EventSourceClient/EventSourceClient.cs:172 | events are only ever appended, so an emitted event is never withdrawn or reordered |
| Decoder.FeedKeepsChunk | src/VDG_EventSourceClient/EventSourceClient/EventSourceClient.cs:160-167 | the buffer after some lines does not depend on the events emitted before them |
| Decoder.DecodePrefix | src/VDG_EventSourceClient/EventSourceClient/EventSourceClient.cs:154-174 | the events of a prefix of the body are a prefix of the body's events |
| Decoder.FeedEmitsMessages | src/VDG_EventSourceClient/EventSourceClient/EventSourceClient.cs:172 | every event emitted has type "message", some data, and no id or retry |
| Decoder.DecodedEventsAreMessages | src/VDG_EventSourceClient/EventSourceClient/EventSourceClient.cs:172 | whatever the body, including `event:`, `id:` or `retry:` lines, every event is typed "message", with no id or retry |
| Decoder.DataLineIsNotBlank | src/VDG_EventSourceClient/EventSourceClient/EventSourceClient.cs:160-164 | a data line is never taken for a blank line |
| Decoder.AccumulatedNonEmptyIffData | src/VDG_EventSourceClient/EventSourceClient/EventSourceClient.cs:162 | what a block feeds into the buffer is non-empty exactly when it holds a data line, even a bare "data:" |
| Decoder.StepNonBlank | src/VDG_EventSourceClient/EventSourceClient/EventSourceClient.cs:160-163 | a non-blank line only appends its contribution to the buffer and emits nothing |
| Decoder.FeedNonBlank | src/VDG_EventSourceClient/EventSourceClient/EventSourceClient.cs:154-174 | lines without a blank one emit nothing and append their data remainders, in order, to the buffer |
| Decoder.DecodeDropsUnterminatedBlock | src/VDG_EventSourceClient/EventSourceClient/EventSourceClient.cs:154-177 | a block not terminated by a blank line before the end of the body yields no event |
| Decoder.FeedBlock | src/VDG_EventSourceClient/EventSourceClient/EventSourceClient.cs:160-167 | one block and the white-space-only line that ends it, from an empty buffer, emit that block's event (none for a block without data) and leave the buffer cleared |
| Decoder.FeedBlocks | src/VDG_EventSourceClient/EventSourceClient/EventSourceClient.cs:154-174 | blocks each ended by any white-space-only line yield their events in stream order, after those already emitted, with the buffer empty at the end |
| Decoder.DecodeBlocks | src/VDG_EventSourceClient/EventSourceClient/EventSourceClient.cs:154-174 | a body of blocks, each ended by any white-space-only line, decodes to one event per block holding a data line, in order; blocks without data yield nothing |
| Decoder.DecodeTwoBlocks | src/VDG_EventSourceClient/EventSourceClient/EventSourceClient.cs:154-174 | two blocks, each ended by any white-space-only line, yield the first block's events and then the second's |
| Decoder.SingleDataLine | src/VDG_EventSourceClient/EventSourceClient/EventSourceClient.cs:160-172 | one data line and a blank line yield exactly one "message" event whose data is the trimmed remainder |
| Decoder.EmptyDataLineEmitsEmptyEvent | src/VDG_EventSourceClient/EventSourceClient/EventSourceClient.cs:162-166 | a bare "data:" line still makes the buffer non-empty, so it yields one event with empty data |
| Decoder.SpacedDataLine | src/VDG_EventSourceClient/Tests/EventSourceClientTests/UnitTest1.cs:49-62 | "data: " followed by JSON text and a blank line yields one event whose data is the JSON text |
| Decoder.BlockOfEventAndData | src/VDG_EventSourceClient/Tests/EventSourceClientTests/UnitTest1.cs:95-96 | an "event:" line and a data line form a block whose only event carries the data, the "event:" line being ignored |
| Decoder.TwoBlocksBody | src/VDG_EventSourceClient/Tests/EventSourceClientTests/UnitTest1.cs:95-114 | the two-block body of the test yields exactly two events, in order, with the two JSON texts as data |
| Decoder.TwoDataLines | src/VDG_EventSourceClient/EventSourceClient/EventSourceClient.cs:162-166 | the remainders of a two-line block ended by any blank line are joined by a newline and only the joined text is trimmed |
| Client.EffectiveSettings | src/VDG_EventSourceClient/EventSourceClient/EventSourceClient.cs:31-35 | null options give empty headers, an empty payload, "GET", no debug and 3 retries; given options, each set header list, payload and method is stored unchanged, a null one falls back to empty headers, an empty payload, and "GET" or (with a non-empty payload) "POST"; the method is "POST" exactly when it is set to "POST" or is null with a non-empty payload; debug and the retry bound are taken unchanged |
| Client.NullOptionsMatchDefaults | src/VDG_EventSourceClient/EventSourceClient/DTOs/EventSourceExtraOptions.cs:5-9 | null options and a default-constructed options record configure the same client |
| Client.PayloadAloneKeepsGet | src/VDG_EventSourceClient/EventSourceClient/DTOs/EventSourceExtraOptions.cs:7 | a record that sets only a payload keeps the method "GET" |
| Client.MaxRetriesUnchecked | src/VDG_EventSourceClient/EventSourceClient/EventSourceClient.cs:35 | a zero or negative `MaxRetries` reaches the loop unchanged, so no request is sent and no response is streamed |
| Client.EventSourceClient.constructor | src/VDG_EventSourceClient/EventSourceClient/EventSourceClient.cs:26-36 | the fields hold `EffectiveSettings(options)`, the state starts at `Initializing` and nothing has been published or sent |
| Client.EventSourceClient.SetReadyState | src/VDG_EventSourceClient/EventSourceClient/EventSourceClient.cs:48-52 | the state is set and exactly that state is published once, after everything published before |
| Client.EventSourceClient.OnEventReceived | src/VDG_EventSourceClient/EventSourceClient/EventSourceClient.cs:38-41 | exactly that event is published once, after everything published before |
| Client.EventSourceClient.Stream | src/VDG_EventSourceClient/EventSourceClient/EventSourceClient.cs:99-178 | the notifications appended, the final state and how the call ends are those of `StreamRun`; the requests sent are `AttemptCount` copies of `RequestFor`'s request; `DelayCount` delays are taken |
| Client.EventSourceClient.ReadBody | src/VDG_EventSourceClient/EventSourceClient/EventSourceClient.cs:153-174 | the loop publishes, in order, exactly `Decode` of the lines read before the end or the cancellation, and reports whether the cancellation check threw |
| Client.PublishedOnlyEvents | src/VDG_EventSourceClient/EventSourceClient/EventSourceClient.cs:63-71 | forwarding events publishes exactly those events, in order, and no state change |
| Client.PossibleLifecycles | src/VDG_EventSourceClient/EventSourceClient/DTOs/ReadyState.cs:3-9 | each of the four lifecycles a run can publish starts at `Connecting` and moves strictly forward in the enum's values |
| Client.StreamStates | src/VDG_EventSourceClient/EventSourceClient/EventSourceClient.cs:101-177 | a run publishes `Connecting` when all attempts fail, `Connecting, Closed` when none is permitted, `Connecting, Open` when cancelled while reading, and `Connecting, Open, Closed` otherwise |
| Client.StreamMovesForward | src/VDG_EventSourceClient/EventSourceClient/EventSourceClient.cs:101-177 | in every run the published states start at `Connecting`, strictly increase, never include `Initializing`, and end with the state the client is left in |
| Client.StreamPublishesDecodedEvents | src/VDG_EventSourceClient/EventSourceClient/EventSourceClient.cs:63-71 | the events a run publishes are exactly the decoded events of the lines read from the successful response, and none when no response was streamed |
| Client.SuccessfulStream | src/VDG_EventSourceClient/EventSourceClient/EventSourceClient.cs:101-177 | after a first success with no cancellation, the trace is `Connecting`, `Open`, every decoded event, `Closed`, and the call completes |
| Client.ExhaustedStream | src/VDG_EventSourceClient/Tests/EventSourceClientTests/UnitTest1.cs:82-90 | when every attempt fails, only `Connecting` is published, no event is published, the state stays `Connecting` and the last attempt's exception propagates |
| Client.NoAttemptStream | src/VDG_EventSourceClient/EventSourceClient/EventSourceClient.cs:147 | with `maxRetries <= 0`, the trace is `Connecting`, `Closed` and the call completes |
| Client.CancelledStream | src/VDG_EventSourceClient/EventSourceClient/EventSourceClient.cs:156 | a cancellation found before line `n` publishes the events of the first `n` lines, leaves the state `Open` and propagates the cancellation |
| Client.SingleEventStream | src/VDG_EventSourceClient/Tests/EventSourceClientTests/UnitTest1.cs:49-78 | the test's single-event body publishes `Connecting`, `Open`, one "message" event carrying the JSON text, then `Closed` |

## Left out

- HTTP transport: `SendAsync`, `EnsureSuccessStatusCode` and `ReadAsStreamAsync` are an oracle. It gives each attempt's outcome, and a response body that `StreamReader` has already split into lines. UTF-8 decoding and the `\n`/`\r`/`\r\n` line splitting are library behaviour.
- Construction of `HttpMethod` and `Uri` is not validated. The exceptions these throw on a malformed method or URL are not modelled.
- `TryAddWithoutValidation` adds every filtered header. The model does not capture that it silently refuses content headers, whatever their case, such as "content-type" or "Content-Length". So a header that passes the filter is not necessarily sent.
- `StartsWith("data:")` is compared character by character. Culture-sensitive comparison is not modelled.
- `AppendLine` appends `"\n"`. `Environment.NewLine` is `"\r\n"` on Windows, which the trimming of the joined buffer hides only at its end.
- A null line from `ReadLineAsync` before the end of the stream does not occur for a line-split body. So the `continue` branch is not modelled.
- Client.EventSourceClient.Stream: the header dictionary is copied into the client when it is constructed. The source keeps the caller's dictionary object and enumerates it again on every attempt, so a change made to it after construction, for example during a retry delay, reaches later requests. The model does not capture that aliasing, and states every request of a run to be the same.
- Client.EventSourceClient.ReadBody: the body is a finite sequence of lines that always reads successfully. A read that throws after `Open`, such as a dropped connection, is not modelled. The source propagates that exception, stays `Open` and keeps the events already published.
- Async execution, `Task.Delay` timing and the clock are left out. A delay is counted in `delaysTaken`.
- Client.EventSourceClient.Stream: cancellation is observed only at the check before each line read. Cancellation inside `SendAsync`, `Task.Delay` or `ReadAsStreamAsync` is not modelled.
- Logging and the debug flag only produce log output. The flag is stored, and nothing else about it is modelled.
- Subscribers to `EventReceived` and `StateChanged` are a ghost log of notifications rather than arbitrary callbacks. A callback that throws or re-enters the client is not modelled.
- `GetAsyncEnumerator` delivers the same events, in the same order, as `Stream` publishes them. It is not modelled separately.
- The header dictionary is a sequence in enumeration order. Duplicate keys, which a dictionary excludes, are not ruled out.
- `Dispose` is called by the tests but is not defined by the client class, so it is not modelled.
- The sample server and the sample program are demonstrations built on I/O and are not part of this model.
