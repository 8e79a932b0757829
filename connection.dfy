/**
 * The connect-with-retry loop of `StreamEvents`. Each attempt builds the
 * request, hands it to the transport and checks the status code; a failure
 * is followed by a fixed delay unless it was the last permitted attempt, in
 * which case its exception propagates.
 *
 * The transport is an oracle: `send(i)` is the outcome of attempt `i`
 * (counting from 0), either a thrown exception or a response.
 */
module Connection {
  import opened Wrappers
  import opened Dtos
  import opened Requests

  /** The fixed pause between attempts, `TimeSpan.FromSeconds(2)`, in milliseconds. */
  const RetryDelayMs: nat := 2000

  /** The exceptions the client can propagate. */
  datatype Exception =
    | TransportError(message: string)     // whatever `SendAsync` throws
    | UnsuccessfulStatus(statusCode: int) // thrown by `EnsureSuccessStatusCode`
    | OperationCanceled                   // thrown by `ThrowIfCancellationRequested`

  /** A response: its status code and its body, already split into lines. */
  datatype Response = Response(statusCode: int, body: seq<string>)

  /** What one call of `SendAsync` does. */
  datatype Outcome = Threw(error: Exception) | Responded(response: Response)

  type Transport = nat -> Outcome

  /** `HttpResponseMessage.IsSuccessStatusCode`. */
  predicate IsSuccessStatusCode(statusCode: int) {
    200 <= statusCode <= 299
  }

  /** The attempt went through: a response whose status is a success. */
  predicate Succeeds(o: Outcome) {
    o.Responded? && IsSuccessStatusCode(o.response.statusCode)
  }

  /** The exception the `try` block of one attempt ends with, if any. */
  function FailureOf(o: Outcome): (r: Option<Exception>)
    ensures r.None? <==> Succeeds(o)
    ensures o.Threw? ==> r == Some(o.error)
    ensures o.Responded? && r.Some? ==> r.value == UnsuccessfulStatus(o.response.statusCode)
  {
    match o
    case Threw(e) => Some(e)
    case Responded(resp) =>
      if IsSuccessStatusCode(resp.statusCode) then None else Some(UnsuccessfulStatus(resp.statusCode))
  }

  /** The first attempt in `from..bound` that succeeds, if any. */
  function FirstSuccess(send: Transport, from: nat, bound: int): (r: Option<nat>)
    ensures r.Some? ==> from <= r.value < bound && Succeeds(send(r.value))
    ensures r.Some? ==> forall i :: from <= i < r.value ==> !Succeeds(send(i))
    ensures r.None? ==> forall i :: from <= i < bound ==> !Succeeds(send(i))
    decreases bound - from
  {
    if bound <= from then None
    else if Succeeds(send(from)) then Some(from)
    else FirstSuccess(send, from + 1, bound)
  }

  /** How the connect phase ends. */
  datatype ConnectOutcome =
    | Connected(response: Response) // `response` holds a successful response
    | NoResponse                    // the loop never ran: `response` stays null
    | Raised(error: Exception)      // the last permitted attempt failed

  /** The reference result of the connect phase for `maxRetries` permitted attempts. */
  function ConnectResult(send: Transport, maxRetries: int): ConnectOutcome {
    if maxRetries <= 0 then NoResponse
    else match FirstSuccess(send, 0, maxRetries)
      case Some(k) => Connected(send(k).response)
      case None => Raised(FailureOf(send(maxRetries - 1)).value)
  }

  /** The number of attempts, that is of requests handed to the transport. */
  function AttemptCount(send: Transport, maxRetries: int): (n: nat)
    ensures n <= if maxRetries <= 0 then 0 else maxRetries
  {
    if maxRetries <= 0 then 0
    else match FirstSuccess(send, 0, maxRetries)
      case Some(k) => k + 1
      case None => maxRetries
  }

  /** The number of delays: one after every attempt but the last. */
  function DelayCount(send: Transport, maxRetries: int): nat {
    var n := AttemptCount(send, maxRetries);
    if n == 0 then 0 else n - 1
  }

  /**
   * The retry loop. `sent` lists the requests handed to the transport, in
   * order, and `delays` counts the pauses of `RetryDelayMs` taken.
   */
  method Connect(httpMethod: string, url: string, headers: seq<Header>, payload: string,
                 maxRetries: int, send: Transport)
    returns (result: ConnectOutcome, sent: seq<Request>, delays: nat)
    ensures result == ConnectResult(send, maxRetries)
    ensures |sent| == AttemptCount(send, maxRetries)
    ensures forall i :: 0 <= i < |sent| ==> sent[i] == RequestFor(httpMethod, url, headers, payload)
    ensures delays == DelayCount(send, maxRetries)
  {
    var response: Option<Response> := None;
    var attempt := 0;
    sent, delays := [], 0;
    while attempt < maxRetries
      invariant attempt == |sent| && (attempt == 0 || attempt < maxRetries)
      invariant delays == attempt
      invariant forall i :: 0 <= i < |sent| ==> sent[i] == RequestFor(httpMethod, url, headers, payload)
      invariant forall i :: 0 <= i < attempt ==> !Succeeds(send(i))
      invariant attempt == 0 ==> response.None?
    {
      var request := BuildRequest(httpMethod, url, headers, payload);
      sent := sent + [request];
      var outcome := send(attempt);
      var failure: Option<Exception>;
      match outcome {
        case Threw(e) =>
          failure := Some(e);
        case Responded(r) =>
          response := Some(r);
          failure := FailureOf(outcome);
      }
      if failure.None? {
        FirstSuccessIs(send, maxRetries, attempt);
        break;
      }
      attempt := attempt + 1;
      if attempt >= maxRetries {
        NoSuccess(send, maxRetries);
        result := Raised(failure.value);
        return;
      }
      delays := delays + 1;
    }
    result := if response.Some? then Connected(response.value) else NoResponse;
  }

  /** When attempts `0..k-1` fail and attempt `k` succeeds, the first success is `k`. */
  lemma FirstSuccessIs(send: Transport, bound: int, k: nat)
    requires k < bound && Succeeds(send(k))
    requires forall i :: 0 <= i < k ==> !Succeeds(send(i))
    ensures FirstSuccess(send, 0, bound) == Some(k)
  {
  }

  /** When every attempt below `bound` fails, there is no first success. */
  lemma NoSuccess(send: Transport, bound: int)
    requires forall i :: 0 <= i < bound ==> !Succeeds(send(i))
    ensures FirstSuccess(send, 0, bound) == None
  {
  }

  /**
   * Attempts `0..k-1` fail and attempt `k`, within the bound, succeeds:
   * exactly `k + 1` attempts and `k` delays happen, and the response of
   * attempt `k` is streamed.
   */
  lemma RetryUntilSuccess(send: Transport, maxRetries: int, k: nat)
    requires k < maxRetries && Succeeds(send(k))
    requires forall i :: 0 <= i < k ==> !Succeeds(send(i))
    ensures ConnectResult(send, maxRetries) == Connected(send(k).response)
    ensures AttemptCount(send, maxRetries) == k + 1
    ensures DelayCount(send, maxRetries) == k
  {
    FirstSuccessIs(send, maxRetries, k);
  }

  /**
   * Every one of `maxRetries >= 1` attempts fails: all of them are made,
   * with a delay between two attempts and none after the last, and the
   * last attempt's exception propagates.
   */
  lemma AllAttemptsFail(send: Transport, maxRetries: int)
    requires maxRetries >= 1
    requires forall i :: 0 <= i < maxRetries ==> !Succeeds(send(i))
    ensures ConnectResult(send, maxRetries) == Raised(FailureOf(send(maxRetries - 1)).value)
    ensures AttemptCount(send, maxRetries) == maxRetries
    ensures DelayCount(send, maxRetries) == maxRetries - 1
  {
    NoSuccess(send, maxRetries);
  }

  /** A bound of zero or less sends nothing and leaves `response` null. */
  lemma NoAttemptsWithoutRetries(send: Transport, maxRetries: int)
    requires maxRetries <= 0
    ensures ConnectResult(send, maxRetries) == NoResponse
    ensures AttemptCount(send, maxRetries) == 0 && DelayCount(send, maxRetries) == 0
  {
  }

  /** A connect phase that ends with a response ends with a successful one. */
  lemma {:induction false} ConnectedMeansSuccess(send: Transport, maxRetries: int)
    requires ConnectResult(send, maxRetries).Connected?
    ensures IsSuccessStatusCode(ConnectResult(send, maxRetries).response.statusCode)
    ensures exists k :: 0 <= k < maxRetries && send(k) == Responded(ConnectResult(send, maxRetries).response)
  {
    var k := FirstSuccess(send, 0, maxRetries).value;
    assert send(k) == Responded(ConnectResult(send, maxRetries).response);
  }
}
