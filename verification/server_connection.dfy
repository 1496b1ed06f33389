/**
 * Serving one accepted connection: the protocol engine (HTTP/1 or HTTP/2)
 * is chosen once from the connection's protocol, every request that reaches
 * the service is counted on the connection and gets a fresh request id, and
 * the connection is raced against an ordered list of timers, each timer that
 * fires first asking the engine for a graceful shutdown.
 *
 * hyper's engines are reduced to the number of graceful-shutdown requests
 * they have received, and the outcome of each `tokio::select!` race (the
 * engine finished, or the timer fired) is the oracle `race`, indexed by loop
 * iteration.
 */
module ServerConnection {
  import opened Types
  import opened Config
  import opened Connection

  /** A per-request identifier, used for log correlation. */
  datatype RequestID = RequestID(value: nat)

  /** The request as hyper hands it to the service. */
  datatype HyperRequest = HyperRequest(httpMethod: string, uri: string)

  /** The request as the request handlers see it. */
  datatype HttpRequest = HttpRequest(connectionId: ConnectionID, requestId: RequestID, hyperRequest: HyperRequest)

  /** A response produced by a request handler. */
  datatype HttpResponse = HttpResponse(status: nat, body: string)

  /**
   * The error type of the service. The source uses `Infallible`, which has no
   * values; this stand-in has one, and the contracts say it never occurs.
   */
  datatype ServiceError = ServiceError

  /** The outcome of driving a hyper connection to completion (`hyper::Result<()>`). */
  datatype ConnResult = ConnOk | ConnErr(message: string)

  /** One poll of a future. */
  datatype PollResult = Pending | Ready(result: ConnResult)

  /** Who won one `tokio::select!` race: the connection future or the timer. */
  datatype RaceOutcome = ConnectionFinished(result: ConnResult) | TimerFired

  /** The source of request ids: an incrementing counter. */
  class RequestIDFactory {
    var nextId: nat
    /** The ids handed out so far. */
    ghost var issued: set<nat>

    ghost predicate Valid()
      reads this
    {
      forall id :: id in issued ==> id < nextId
    }

    constructor ()
      ensures Valid() && issued == {}
    {
      nextId := 0;
      issued := {};
    }

    /** Draws a request id never handed out before. */
    method NewRequestId() returns (id: RequestID)
      requires Valid()
      modifies this
      ensures Valid()
      ensures id.value == old(nextId) && id.value !in old(issued)
      ensures nextId == old(nextId) + 1 && issued == old(issued) + {id.value}
    {
      id := RequestID(nextId);
      issued := issued + {nextId};
      nextId := nextId + 1;
    }
  }

  /** hyper's HTTP/1 connection, reduced to the graceful-shutdown requests it has had. */
  datatype Http1Connection = Http1Connection(gracefulShutdownRequests: nat) {
    function GracefulShutdown(): Http1Connection {
      Http1Connection(gracefulShutdownRequests + 1)
    }
  }

  /** hyper's HTTP/2 connection, reduced to the graceful-shutdown requests it has had. */
  datatype Http2Connection = Http2Connection(gracefulShutdownRequests: nat) {
    function GracefulShutdown(): Http2Connection {
      Http2Connection(gracefulShutdownRequests + 1)
    }
  }

  /** The connection being served, tagged with its protocol engine. */
  datatype WrappedHyperConnection = H1(h1Conn: Http1Connection) | H2(h2Conn: Http2Connection) {

    /** The graceful-shutdown requests the engine inside has received. */
    function ShutdownRequests(): nat {
      match this
      case H1(c) => c.gracefulShutdownRequests
      case H2(c) => c.gracefulShutdownRequests
    }

    /**
     * Polls the engine inside: an HTTP/1 connection is polled by hyper's
     * HTTP/1 engine, an HTTP/2 connection by its HTTP/2 engine.
     */
    function Poll(pollH1: Http1Connection -> PollResult, pollH2: Http2Connection -> PollResult): (p: PollResult)
      ensures H1? ==> p == pollH1(h1Conn)
      ensures H2? ==> p == pollH2(h2Conn)
    {
      match this
      case H1(c) => pollH1(c)
      case H2(c) => pollH2(c)
    }

    /**
     * Asks the engine inside for a graceful shutdown. The protocol engine
     * stays the same and receives exactly one more request.
     */
    function GracefulShutdown(): (w: WrappedHyperConnection)
      ensures w.H1? <==> H1?
      ensures w.ShutdownRequests() == ShutdownRequests() + 1
    {
      match this
      case H1(c) => H1(c.GracefulShutdown())
      case H2(c) => H2(c.GracefulShutdown())
    }
  }

  /** The connection hyper builds for a protocol: HTTP/1 for `Http1`, HTTP/2 for `Http2`. */
  function ServeConnection(protocol: ServerProtocol): (w: WrappedHyperConnection)
    ensures w.H1? <==> protocol == Http1
    ensures w.ShutdownRequests() == 0
  {
    match protocol
    case Http1 => H1(Http1Connection(0))
    case Http2 => H2(Http2Connection(0))
  }

  /** A connection after `n` graceful-shutdown requests. */
  function AfterShutdowns(w: WrappedHyperConnection, n: nat): WrappedHyperConnection {
    if n == 0 then w else AfterShutdowns(w, n - 1).GracefulShutdown()
  }

  /**
   * However many graceful shutdowns have been requested, the connection still
   * wraps its protocol's engine, which has received exactly that many.
   */
  lemma {:induction false} ShutdownsKeepEngine(protocol: ServerProtocol, n: nat)
    ensures AfterShutdowns(ServeConnection(protocol), n)
         == if protocol == Http1 then H1(Http1Connection(n)) else H2(Http2Connection(n))
  {
    if n > 0 {
      ShutdownsKeepEngine(protocol, n - 1);
    }
  }

  /**
   * The variant is fixed once the connection is built: however many graceful
   * shutdowns have been requested, polling still goes to the engine of the
   * connection's protocol.
   */
  lemma DispatchFixedAtConstruction(protocol: ServerProtocol, n: nat,
      pollH1: Http1Connection -> PollResult, pollH2: Http2Connection -> PollResult)
    ensures AfterShutdowns(ServeConnection(protocol), n).Poll(pollH1, pollH2)
         == if protocol == Http1 then pollH1(Http1Connection(n)) else pollH2(Http2Connection(n))
  {
    ShutdownsKeepEngine(protocol, n);
  }

  /** What the timeout loop did: the timers that fired, in order, and how the connection ended. */
  datatype Escalation = Escalation(firedTimers: seq<Duration>, completion: Option<ConnResult>)

  /**
   * The timeout loop from iteration `i` on. Each timer that fires before the
   * connection finishes causes one graceful-shutdown request and the next
   * iteration; the connection finishing (successfully or not) ends the loop;
   * when the timers run out the loop ends without the connection finishing.
   */
  function EscalateFrom(durations: seq<Duration>, race: nat -> RaceOutcome, i: nat): (e: Escalation)
    requires i <= |durations|
    ensures i + |e.firedTimers| <= |durations|
    ensures e.firedTimers == durations[i..i + |e.firedTimers|]
    ensures forall k :: i <= k < i + |e.firedTimers| ==> race(k) == TimerFired
    ensures e.completion.Some? ==>
      i + |e.firedTimers| < |durations| && race(i + |e.firedTimers|) == ConnectionFinished(e.completion.value)
    ensures e.completion.None? ==> i + |e.firedTimers| == |durations|
    decreases |durations| - i
  {
    if i == |durations| then Escalation([], None)
    else
      match race(i)
      case ConnectionFinished(result) => Escalation([], Some(result))
      case TimerFired =>
        var rest := EscalateFrom(durations, race, i + 1);
        Escalation([durations[i]] + rest.firedTimers, rest.completion)
  }

  /**
   * The whole timeout loop over `durations`: the timers that fired are a
   * prefix of the list, each of them won its race, and a completion is the
   * outcome of the race right after the last fired timer.
   */
  function Escalate(durations: seq<Duration>, race: nat -> RaceOutcome): (e: Escalation)
    ensures |e.firedTimers| <= |durations| && e.firedTimers == durations[..|e.firedTimers|]
    ensures forall k :: 0 <= k < |e.firedTimers| ==> race(k) == TimerFired
    ensures e.completion.Some? ==>
      |e.firedTimers| < |durations| && race(|e.firedTimers|) == ConnectionFinished(e.completion.value)
    ensures e.completion.None? ==> e.firedTimers == durations
  {
    EscalateFrom(durations, race, 0)
  }

  /**
   * After `i` timers have fired, the loop has requested one shutdown per
   * fired timer and goes on as the loop from iteration `i` does.
   */
  lemma {:induction false} EscalateAfterTimers(durations: seq<Duration>, race: nat -> RaceOutcome, i: nat)
    requires i <= |durations|
    requires forall k :: 0 <= k < i ==> race(k) == TimerFired
    ensures EscalateFrom(durations, race, 0)
         == Escalation(durations[..i] + EscalateFrom(durations, race, i).firedTimers,
                       EscalateFrom(durations, race, i).completion)
  {
    if i > 0 {
      EscalateAfterTimers(durations, race, i - 1);
      var rest := EscalateFrom(durations, race, i);
      assert race(i - 1) == TimerFired;
      assert EscalateFrom(durations, race, i - 1) == Escalation([durations[i - 1]] + rest.firedTimers, rest.completion);
      assert durations[..i - 1] + ([durations[i - 1]] + rest.firedTimers) == durations[..i] + rest.firedTimers by {
        assert durations[..i] == durations[..i - 1] + [durations[i - 1]];
      }
    }
  }

  /**
   * The loop runs at most one iteration per timer: the iterations are the
   * fired timers plus, if the connection finished, the one it finished in.
   */
  lemma AtMostOneIterationPerTimer(durations: seq<Duration>, race: nat -> RaceOutcome)
    ensures var e := Escalate(durations, race);
      |e.firedTimers| + (if e.completion.Some? then 1 else 0) <= |durations|
  {
  }

  /**
   * A connection that does not finish in any iteration the loop runs gets one
   * graceful-shutdown request per timer, in the order of the timers, and is
   * then left without waiting.
   */
  lemma NeverFinishingConnectionGetsEveryShutdown(durations: seq<Duration>, race: nat -> RaceOutcome)
    requires forall k: nat :: k < |durations| ==> race(k) == TimerFired
    ensures Escalate(durations, race) == Escalation(durations, None)
  {
    assert durations[0..|durations|] == durations;
  }

  /**
   * Once the connection finishes no further shutdown is requested: the fired
   * timers are exactly those of the iterations before the one it finished in.
   */
  lemma {:induction false} NoShutdownAfterCompletion(durations: seq<Duration>, race: nat -> RaceOutcome, k: nat)
    requires k < |durations| && race(k).ConnectionFinished?
    requires forall j :: 0 <= j < k ==> race(j) == TimerFired
    ensures Escalate(durations, race) == Escalation(durations[..k], Some(race(k).result))
  {
  }

  /**
   * The two-stage policy of a connection handler built from `config`:
   * finished in the first stage, no shutdown; finished in the second, one
   * shutdown after the maximum lifetime; never finished, a shutdown after the
   * maximum lifetime and another after the graceful-shutdown timeout.
   */
  lemma TwoStageEscalation(config: ServerConfiguration, race: nat -> RaceOutcome)
    ensures var e := Escalate([config.connectionMaxLifetime, config.connectionGracefulShutdownTimeout], race);
      match (race(0), race(1))
      case (ConnectionFinished(r), _) => e == Escalation([], Some(r))
      case (TimerFired, ConnectionFinished(r)) => e == Escalation([config.connectionMaxLifetime], Some(r))
      case (TimerFired, TimerFired) =>
        e == Escalation([config.connectionMaxLifetime, config.connectionGracefulShutdownTimeout], None)
  {
  }

  /** Serves connections: hands requests to the request handler and applies the timeout policy. */
  class ConnectionHandler {
    const requestHandler: HttpRequest -> HttpResponse
    const requestIdFactory: RequestIDFactory
    const connectionTimeoutDurations: seq<Duration>

    /** The timers are the maximum lifetime followed by the graceful-shutdown timeout. */
    constructor (requestHandler: HttpRequest -> HttpResponse, requestIdFactory: RequestIDFactory,
                 serverConfiguration: ServerConfiguration)
      ensures connectionTimeoutDurations == [serverConfiguration.connectionMaxLifetime,
                                             serverConfiguration.connectionGracefulShutdownTimeout]
      ensures this.requestHandler == requestHandler && this.requestIdFactory == requestIdFactory
    {
      this.requestHandler := requestHandler;
      this.requestIdFactory := requestIdFactory;
      connectionTimeoutDurations := [serverConfiguration.connectionMaxLifetime,
                                     serverConfiguration.connectionGracefulShutdownTimeout];
    }

    /**
     * Handles one request: the request handler's response, always as a
     * success, for the request tagged with its connection and request ids.
     */
    function HandleRequest(connectionId: ConnectionID, requestId: RequestID, hyperRequest: HyperRequest)
      : (r: Result<HttpResponse, ServiceError>)
      ensures r.Ok?
      ensures r.value == requestHandler(HttpRequest(connectionId, requestId, hyperRequest))
    {
      var httpRequest := HttpRequest(connectionId, requestId, hyperRequest);
      Ok(requestHandler(httpRequest))
    }

    /**
     * The service hyper calls for each request on `connection`: counts the
     * request once, draws one fresh request id and handles the request.
     */
    method Service(connection: ConnectionGuard, hyperRequest: HyperRequest)
      returns (r: Result<HttpResponse, ServiceError>)
      requires requestIdFactory.Valid()
      modifies connection, requestIdFactory
      ensures requestIdFactory.Valid()
      ensures connection.numRequests == old(connection.numRequests) + 1
      ensures requestIdFactory.nextId == old(requestIdFactory.nextId) + 1
      ensures old(requestIdFactory.nextId) !in old(requestIdFactory.issued)
      ensures requestIdFactory.issued == old(requestIdFactory.issued) + {old(requestIdFactory.nextId)}
      ensures r == HandleRequest(connection.id, RequestID(old(requestIdFactory.nextId)), hyperRequest)
    {
      connection.IncrementNumRequests();
      var requestId := requestIdFactory.NewRequestId();
      r := HandleRequest(connection.id, requestId, hyperRequest);
    }

    /**
     * Serves `connection` under the timeout policy: builds the engine for its
     * protocol, then races it against each timer in turn. The timers that
     * fired and the way the connection ended are those of `Escalate`, and the
     * engine has received one graceful-shutdown request per fired timer.
     */
    method HandleConnection(connection: ConnectionGuard, race: nat -> RaceOutcome)
      returns (wrappedConn: WrappedHyperConnection, escalation: Escalation)
      ensures escalation == Escalate(connectionTimeoutDurations, race)
      ensures wrappedConn == AfterShutdowns(ServeConnection(connection.serverProtocol), |escalation.firedTimers|)
    {
      var durations := connectionTimeoutDurations;
      var initialConn := ServeConnection(connection.serverProtocol);
      wrappedConn := initialConn;
      var fired: seq<Duration> := [];
      var completion: Option<ConnResult> := None;
      for iter := 0 to |durations|
        invariant fired == durations[..iter] && completion.None?
        invariant forall k :: 0 <= k < iter ==> race(k) == TimerFired
        invariant wrappedConn == AfterShutdowns(initialConn, iter)
      {
        var sleepDuration := durations[iter];
        match race(iter)
        case ConnectionFinished(result) =>
          EscalateAfterTimers(durations, race, iter);
          completion := Some(result);
          break;
        case TimerFired =>
          wrappedConn := wrappedConn.GracefulShutdown();
          fired := fired + [sleepDuration];
      }
      if completion.None? {
        EscalateAfterTimers(durations, race, |durations|);
      }
      escalation := Escalation(fired, completion);
    }
  }
}
