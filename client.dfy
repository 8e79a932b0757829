/**
 * The client itself: the constructor's option defaulting, the published
 * lifecycle (`SetReadyState`, `OnEventReceived`) and `Stream`, which runs
 * the connect phase and then the reading loop over the response body.
 *
 * Subscribers are modelled by the ghost log `notifications`: every state
 * change and every event, in the order they are published.
 */
module Client {
  import opened Wrappers
  import opened Strings
  import opened Dtos
  import opened Requests
  import opened Connection
  import opened Decoder
  import opened Seqs

  /** The effective configuration the constructor stores in its read-only fields. */
  datatype Settings = Settings(
    headers: seq<Header>,
    payload: string,
    httpMethod: string,
    debug: bool,
    maxRetries: Int32)

  /** The `?.` / `??` defaulting of the constructor. */
  function EffectiveSettings(options: Option<ExtraOptions>): (s: Settings)
    ensures options.None? ==> s == Settings([], "", "GET", false, 3)
    ensures s.httpMethod == "POST" <==>
              options.Some? && (options.value.httpMethod == Some("POST")
                                || (options.value.httpMethod.None? && options.value.payload.Some?
                                    && options.value.payload.value != ""))
    ensures options.Some? ==> s.maxRetries == options.value.maxRetries && s.debug == options.value.debug
    ensures options.Some? && options.value.headers.Some? ==> s.headers == options.value.headers.value
    ensures options.Some? && options.value.headers.None? ==> s.headers == []
    ensures options.Some? && options.value.payload.Some? ==> s.payload == options.value.payload.value
    ensures options.Some? && options.value.payload.None? ==> s.payload == ""
    ensures options.Some? && options.value.httpMethod.Some? ==> s.httpMethod == options.value.httpMethod.value
    ensures options.Some? && options.value.httpMethod.None? ==>
              s.httpMethod == (if s.payload == "" then "GET" else "POST")
  {
    match options
    case None => Settings([], "", "GET", false, 3)
    case Some(o) =>
      var payload := o.payload.GetOr("");
      Settings(o.headers.GetOr([]), payload,
               o.httpMethod.GetOr(if payload == "" then "GET" else "POST"),
               o.debug, o.maxRetries)
  }

  /** Passing no options and passing `new EventSourceExtraOptions()` configure the same client. */
  lemma NullOptionsMatchDefaults()
    ensures EffectiveSettings(None) == EffectiveSettings(Some(DefaultOptions()))
    ensures EffectiveSettings(None) == Settings([], "", "GET", false, 3)
  {
  }

  /** Setting only a payload keeps the record's "GET": the "POST" fallback needs a null method. */
  lemma PayloadAloneKeepsGet(payload: string)
    ensures EffectiveSettings(Some(DefaultOptions().(payload := Some(payload)))).httpMethod == "GET"
  {
  }

  /**
   * Zero or negative `MaxRetries` reach the retry loop unchanged, which
   * then sends no request and streams nothing.
   */
  lemma MaxRetriesUnchecked(o: ExtraOptions, send: Transport)
    requires o.maxRetries <= 0
    ensures var bound := EffectiveSettings(Some(o)).maxRetries as int;
            && ConnectResult(send, bound) == NoResponse
            && AttemptCount(send, bound) == 0
  {
    NoAttemptsWithoutRetries(send, o.maxRetries as int);
  }

  /** What subscribers are told, in order. */
  datatype Notification = StateChanged(state: ReadyState) | EventReceived(args: CustomEventArgs)

  /** One `EventReceived` per event, in order. */
  function Published(events: seq<CustomEventArgs>): seq<Notification>
    decreases |events|
  {
    if events == [] then []
    else Published(events[..|events| - 1]) + [EventReceived(events[|events| - 1])]
  }

  /** The states among `ns`, in order. */
  function States(ns: seq<Notification>): seq<ReadyState>
    decreases |ns|
  {
    if ns == [] then []
    else States(ns[..|ns| - 1]) + (if ns[|ns| - 1].StateChanged? then [ns[|ns| - 1].state] else [])
  }

  /** The events among `ns`, in order. */
  function Events(ns: seq<Notification>): seq<CustomEventArgs>
    decreases |ns|
  {
    if ns == [] then []
    else Events(ns[..|ns| - 1]) + (if ns[|ns| - 1].EventReceived? then [ns[|ns| - 1].args] else [])
  }

  /** How a call of `Stream` ends: normally, or by propagating an exception. */
  datatype Completion = Completed | Faulted(error: Exception)

  /** The notifications, the final state and the completion of one call of `Stream`. */
  datatype Run = Run(notifications: seq<Notification>, finalState: ReadyState, completion: Completion)

  /**
   * Cancellation: `cancelAt == Some(n)` means the token is found cancelled
   * by the check before reading line `n` and by every later check.
   */
  predicate CancelledWhileReading(body: seq<string>, cancelAt: Option<nat>) {
    cancelAt.Some? && cancelAt.value < |body|
  }

  /** The number of lines read before the loop ends or the cancellation check throws. */
  function LinesRead(body: seq<string>, cancelAt: Option<nat>): (n: nat)
    ensures n <= |body|
  {
    if CancelledWhileReading(body, cancelAt) then cancelAt.value else |body|
  }

  /** The reference run of `Stream` for a transport and a cancellation point. */
  function StreamRun(maxRetries: int, send: Transport, cancelAt: Option<nat>): Run {
    match ConnectResult(send, maxRetries)
    case Raised(e) =>
      Run([StateChanged(Connecting)], Connecting, Faulted(e))
    case NoResponse =>
      Run([StateChanged(Connecting), StateChanged(Closed)], Closed, Completed)
    case Connected(response) =>
      var read := Published(Decode(response.body[..LinesRead(response.body, cancelAt)]));
      if CancelledWhileReading(response.body, cancelAt) then
        Run([StateChanged(Connecting), StateChanged(Open)] + read, Open, Faulted(OperationCanceled))
      else
        Run([StateChanged(Connecting), StateChanged(Open)] + read + [StateChanged(Closed)], Closed, Completed)
  }

  /** `n` copies of the request. */
  function Repeated(r: Request, n: nat): seq<Request> {
    seq(n, _ => r)
  }

  class EventSourceClient {
    const url: string
    const headers: seq<Header>
    const payload: string
    const httpMethod: string
    const debug: bool
    const maxRetries: Int32

    var readyState: ReadyState

    /** Everything published to `StateChanged` and `EventReceived` subscribers. */
    ghost var notifications: seq<Notification>
    /** Every request handed to the transport. */
    ghost var requestsSent: seq<Request>
    /** The number of retry delays of `RetryDelayMs` taken. */
    ghost var delaysTaken: nat

    constructor (url: string, options: Option<ExtraOptions>)
      ensures this.url == url
      ensures Settings(headers, payload, httpMethod, debug, maxRetries) == EffectiveSettings(options)
      ensures readyState == Initializing
      ensures notifications == [] && requestsSent == [] && delaysTaken == 0
    {
      var s := EffectiveSettings(options);
      this.url := url;
      headers := s.headers;
      payload := s.payload;
      httpMethod := s.httpMethod;
      debug := s.debug;
      maxRetries := s.maxRetries;
      readyState := Initializing;
      notifications, requestsSent, delaysTaken := [], [], 0;
    }

    /** Records the new state and publishes it. */
    method SetReadyState(state: ReadyState)
      modifies this`readyState, this`notifications
      ensures readyState == state
      ensures notifications == old(notifications) + [StateChanged(state)]
    {
      readyState := state;
      notifications := notifications + [StateChanged(state)];
    }

    /** Publishes one event. */
    method OnEventReceived(e: CustomEventArgs)
      modifies this`notifications
      ensures notifications == old(notifications) + [EventReceived(e)]
    {
      notifications := notifications + [EventReceived(e)];
    }

    /**
     * Streams once: `send` answers the connection attempts and
     * `cancelAt` says from which line check on the token is cancelled.
     */
    method Stream(send: Transport, cancelAt: Option<nat>) returns (completion: Completion)
      modifies this
      ensures var run := StreamRun(maxRetries as int, send, cancelAt);
              && notifications == old(notifications) + run.notifications
              && readyState == run.finalState
              && completion == run.completion
      ensures requestsSent == old(requestsSent)
                              + Repeated(RequestFor(httpMethod, url, headers, payload),
                                         AttemptCount(send, maxRetries as int))
      ensures delaysTaken == old(delaysTaken) + DelayCount(send, maxRetries as int)
    {
      ghost var before := notifications;
      SetReadyState(Connecting);
      var outcome, sent, delays := Connect(httpMethod, url, headers, payload, maxRetries as int, send);
      AllSame(sent, RequestFor(httpMethod, url, headers, payload));
      requestsSent := requestsSent + sent;
      delaysTaken := delaysTaken + delays;
      match outcome {
        case Raised(e) =>
          completion := Faulted(e);
          return;
        case NoResponse =>
          ConcatAssoc(before, [StateChanged(Connecting)], [StateChanged(Closed)]);
        case Connected(response) =>
          SetReadyState(Open);
          var cancelled := ReadBody(response.body, cancelAt);
          ghost var events := Published(Decode(response.body[..LinesRead(response.body, cancelAt)]));
          RunShape(before, events);
          if cancelled {
            completion := Faulted(OperationCanceled);
            return;
          }
      }
      SetReadyState(Closed);
      completion := Completed;
    }

    /**
     * The reading loop: checks the token before each line, decodes the
     * line and publishes each event as soon as its block is complete.
     * Returns whether the cancellation check threw.
     */
    method ReadBody(lines: seq<string>, cancelAt: Option<nat>) returns (cancelled: bool)
      modifies this`notifications
      ensures cancelled == CancelledWhileReading(lines, cancelAt)
      ensures notifications == old(notifications) + Published(Decode(lines[..LinesRead(lines, cancelAt)]))
    {
      var chunk := "";
      ghost var emitted: seq<CustomEventArgs> := [];
      var i := 0;
      while i < |lines|
        invariant 0 <= i <= |lines|
        invariant cancelAt.None? || i <= cancelAt.value
        invariant Feed(Initial, lines[..i]) == DecoderState(chunk, emitted)
        invariant notifications == old(notifications) + Published(emitted)
      {
        if cancelAt.Some? && cancelAt.value <= i {
          return true;
        }
        var line := lines[i];
        assert lines[..i + 1] == lines[..i] + [line];
        FeedAppend(Initial, lines[..i], [line]);
        i := i + 1;
        if StartsWith(line, DataPrefix) {
          chunk := chunk + (line[|DataPrefix|..] + "\n");
        } else if Trim(line) == "" && |chunk| > 0 {
          BlankIffTrimmedEmpty(line);
          var data := Trim(chunk);
          chunk := "";
          PublishedSnoc(emitted, Message(data));
          ConcatAssoc(old(notifications), Published(emitted), [EventReceived(Message(data))]);
          emitted := emitted + [Message(data)];
          OnEventReceived(Message(data));
        } else {
          BlankIffTrimmedEmpty(line);
        }
      }
      assert lines[..i] == lines;
      return false;
    }
  }

  lemma AllSame(rs: seq<Request>, r: Request)
    requires forall i :: 0 <= i < |rs| ==> rs[i] == r
    ensures rs == Repeated(r, |rs|)
  {
  }

  lemma PublishedSnoc(es: seq<CustomEventArgs>, e: CustomEventArgs)
    ensures Published(es + [e]) == Published(es) + [EventReceived(e)]
  {
    assert (es + [e])[..|es|] == es;
  }

  /** Regrouping of the notifications of a run that reached `Open`. */
  lemma RunShape(before: seq<Notification>, events: seq<Notification>)
    ensures before + [StateChanged(Connecting)] + [StateChanged(Open)] + events
            == before + ([StateChanged(Connecting), StateChanged(Open)] + events)
    ensures before + [StateChanged(Connecting)] + [StateChanged(Open)] + events + [StateChanged(Closed)]
            == before + ([StateChanged(Connecting), StateChanged(Open)] + events + [StateChanged(Closed)])
  {
    ConcatAssoc(before, [StateChanged(Connecting)], [StateChanged(Open)]);
    ConcatAssoc(before, [StateChanged(Connecting), StateChanged(Open)], events);
    ConcatAssoc(before, [StateChanged(Connecting), StateChanged(Open)] + events, [StateChanged(Closed)]);
  }

  lemma {:induction false} StatesAppend(a: seq<Notification>, b: seq<Notification>)
    ensures States(a + b) == States(a) + States(b)
    decreases |b|
  {
    if b == [] {
      assert a + b == a;
    } else {
      var c := b[..|b| - 1];
      assert (a + b)[..|a + b| - 1] == a + c;
      StatesAppend(a, c);
      ConcatAssoc(States(a), States(c), if b[|b| - 1].StateChanged? then [b[|b| - 1].state] else []);
    }
  }

  lemma {:induction false} EventsAppend(a: seq<Notification>, b: seq<Notification>)
    ensures Events(a + b) == Events(a) + Events(b)
    decreases |b|
  {
    if b == [] {
      assert a + b == a;
    } else {
      var c := b[..|b| - 1];
      assert (a + b)[..|a + b| - 1] == a + c;
      EventsAppend(a, c);
      ConcatAssoc(Events(a), Events(c), if b[|b| - 1].EventReceived? then [b[|b| - 1].args] else []);
    }
  }

  /** Publishing events tells subscribers exactly those events and no state change. */
  lemma {:induction false} PublishedOnlyEvents(es: seq<CustomEventArgs>)
    ensures Events(Published(es)) == es
    ensures States(Published(es)) == []
    decreases |es|
  {
    if es != [] {
      var init := es[..|es| - 1];
      PublishedOnlyEvents(init);
      StatesAppend(Published(init), [EventReceived(es[|es| - 1])]);
      EventsAppend(Published(init), [EventReceived(es[|es| - 1])]);
      assert [EventReceived(es[|es| - 1])][..0] == [];
      assert init + [es[|es| - 1]] == es;
    }
  }

  /**
   * The lifecycle as published: it starts at `Connecting`, every change
   * moves strictly forward, `Initializing` is never announced and the last
   * announced state is the state the client is left in.
   */
  predicate MovesForward(states: seq<ReadyState>, final: ReadyState) {
    && |states| > 0
    && states[0] == Connecting
    && (forall i, j :: 0 <= i < j < |states| ==> states[i].Value() < states[j].Value())
    && states[|states| - 1] == final
  }

  /** The states and the events of one run, separated. */
  lemma {:induction false} RunParts(before: seq<Notification>, events: seq<CustomEventArgs>, after: seq<Notification>)
    requires forall i :: 0 <= i < |before| ==> before[i].StateChanged?
    requires forall i :: 0 <= i < |after| ==> after[i].StateChanged?
    ensures States(before + Published(events) + after) == States(before) + States(after)
    ensures Events(before + Published(events) + after) == events
  {
    PublishedOnlyEvents(events);
    StatesAppend(before + Published(events), after);
    StatesAppend(before, Published(events));
    EventsAppend(before + Published(events), after);
    EventsAppend(before, Published(events));
    OnlyStates(before);
    OnlyStates(after);
  }

  /** A log of state changes only holds no event. */
  lemma {:induction false} OnlyStates(ns: seq<Notification>)
    requires forall i :: 0 <= i < |ns| ==> ns[i].StateChanged?
    ensures Events(ns) == []
    decreases |ns|
  {
    if ns != [] {
      OnlyStates(ns[..|ns| - 1]);
    }
  }

  lemma StatesOfPair(s: ReadyState, t: ReadyState)
    ensures States([StateChanged(s)]) == [s]
    ensures States([StateChanged(s), StateChanged(t)]) == [s, t]
    ensures Events([StateChanged(s)]) == [] && Events([StateChanged(s), StateChanged(t)]) == []
  {
    assert [StateChanged(s), StateChanged(t)][..1] == [StateChanged(s)];
    assert [StateChanged(s)][..0] == [];
  }

  /** The four lifecycles a run can publish all move forward. */
  lemma PossibleLifecycles()
    ensures MovesForward([Connecting], Connecting)
    ensures MovesForward([Connecting, Closed], Closed)
    ensures MovesForward([Connecting, Open], Open)
    ensures MovesForward([Connecting, Open, Closed], Closed)
  {
  }

  /** The states a run publishes, by how the connect phase and the reading loop end. */
  lemma StreamStates(maxRetries: int, send: Transport, cancelAt: Option<nat>)
    ensures var run := StreamRun(maxRetries, send, cancelAt);
            States(run.notifications)
            == match ConnectResult(send, maxRetries)
               case Raised(_) => [Connecting]
               case NoResponse => [Connecting, Closed]
               case Connected(response) =>
                 if CancelledWhileReading(response.body, cancelAt) then [Connecting, Open]
                 else [Connecting, Open, Closed]
  {
    var run := StreamRun(maxRetries, send, cancelAt);
    match ConnectResult(send, maxRetries)
    case Raised(e) =>
      StatesOfPair(Connecting, Connecting);
    case NoResponse =>
      StatesOfPair(Connecting, Closed);
    case Connected(response) =>
      var events := Decode(response.body[..LinesRead(response.body, cancelAt)]);
      var opening := [StateChanged(Connecting), StateChanged(Open)];
      StatesOfPair(Connecting, Open);
      if CancelledWhileReading(response.body, cancelAt) {
        RunParts(opening, events, []);
        assert opening + Published(events) + [] == run.notifications;
      } else {
        RunParts(opening, events, [StateChanged(Closed)]);
      }
  }

  /** Every run of `Stream` publishes a lifecycle that moves forward. */
  lemma StreamMovesForward(maxRetries: int, send: Transport, cancelAt: Option<nat>)
    ensures var run := StreamRun(maxRetries, send, cancelAt);
            MovesForward(States(run.notifications), run.finalState)
  {
    StreamStates(maxRetries, send, cancelAt);
    PossibleLifecycles();
  }

  /** The events a run decodes: those of the lines read from the streamed response, if any. */
  function DecodedByRun(maxRetries: int, send: Transport, cancelAt: Option<nat>): seq<CustomEventArgs> {
    match ConnectResult(send, maxRetries)
    case Connected(response) => Decode(response.body[..LinesRead(response.body, cancelAt)])
    case _ => []
  }

  /**
   * The events published by a run are exactly the decoded blocks that were
   * complete before the stream ended or the token was found cancelled.
   */
  lemma StreamPublishesDecodedEvents(maxRetries: int, send: Transport, cancelAt: Option<nat>)
    ensures Events(StreamRun(maxRetries, send, cancelAt).notifications) == DecodedByRun(maxRetries, send, cancelAt)
  {
    var run := StreamRun(maxRetries, send, cancelAt);
    match ConnectResult(send, maxRetries)
    case Raised(e) =>
      StatesOfPair(Connecting, Connecting);
    case NoResponse =>
      StatesOfPair(Connecting, Closed);
    case Connected(response) =>
      var events := Decode(response.body[..LinesRead(response.body, cancelAt)]);
      var opening := [StateChanged(Connecting), StateChanged(Open)];
      if CancelledWhileReading(response.body, cancelAt) {
        RunParts(opening, events, []);
        assert opening + Published(events) + [] == run.notifications;
      } else {
        RunParts(opening, events, [StateChanged(Closed)]);
      }
  }

  /**
   * Attempt `k` is the first to succeed and nothing cancels: the client
   * opens, publishes every event of that response's body and closes.
   */
  lemma SuccessfulStream(maxRetries: int, send: Transport, k: nat)
    requires k < maxRetries && Succeeds(send(k))
    requires forall i :: 0 <= i < k ==> !Succeeds(send(i))
    ensures StreamRun(maxRetries, send, None)
            == Run([StateChanged(Connecting), StateChanged(Open)] + Published(Decode(send(k).response.body))
                     + [StateChanged(Closed)],
                   Closed, Completed)
  {
    RetryUntilSuccess(send, maxRetries, k);
    assert send(k).response.body[..|send(k).response.body|] == send(k).response.body;
  }

  /**
   * Every attempt fails: the exception of the last attempt propagates and
   * the client stays `Connecting`, with neither `Open` nor `Closed` published.
   */
  lemma ExhaustedStream(maxRetries: int, send: Transport, cancelAt: Option<nat>)
    requires maxRetries >= 1
    requires forall i :: 0 <= i < maxRetries ==> !Succeeds(send(i))
    ensures StreamRun(maxRetries, send, cancelAt)
            == Run([StateChanged(Connecting)], Connecting, Faulted(FailureOf(send(maxRetries - 1)).value))
  {
    AllAttemptsFail(send, maxRetries);
  }

  /** With no attempt allowed the client goes straight from `Connecting` to `Closed`. */
  lemma NoAttemptStream(maxRetries: int, send: Transport, cancelAt: Option<nat>)
    requires maxRetries <= 0
    ensures StreamRun(maxRetries, send, cancelAt)
            == Run([StateChanged(Connecting), StateChanged(Closed)], Closed, Completed)
  {
    NoAttemptsWithoutRetries(send, maxRetries);
  }

  /**
   * Cancellation found before line `n`: the events of the blocks completed
   * in the first `n` lines are published, `OperationCanceledException`
   * propagates and the client stays `Open`.
   */
  lemma CancelledStream(maxRetries: int, send: Transport, n: nat)
    requires ConnectResult(send, maxRetries).Connected?
    requires n < |ConnectResult(send, maxRetries).response.body|
    ensures StreamRun(maxRetries, send, Some(n))
            == Run([StateChanged(Connecting), StateChanged(Open)]
                     + Published(Decode(ConnectResult(send, maxRetries).response.body[..n])),
                   Open, Faulted(OperationCanceled))
  {
  }

  /**
   * The first attempt answers with a success and the body
   * "data: json" then a blank line: subscribers see `Connecting`, `Open`,
   * one "message" event carrying `json`, then `Closed`.
   */
  lemma SingleEventStream(maxRetries: int, send: Transport, json: string, blank: string)
    requires maxRetries >= 1 && Succeeds(send(0))
    requires send(0).response.body == ["data: " + json, blank] && IsBlank(blank)
    requires json != [] && !IsWhiteSpace(json[0]) && !IsWhiteSpace(json[|json| - 1])
    ensures StreamRun(maxRetries, send, None).notifications
            == [StateChanged(Connecting), StateChanged(Open), EventReceived(Message(json)), StateChanged(Closed)]
  {
    SuccessfulStream(maxRetries, send, 0);
    SpacedDataLine(json, blank);
    PublishedSnoc([], Message(json));
  }
}
