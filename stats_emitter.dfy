/**
 * The stats emitter: for every request it is told about, it starts a clock,
 * wires a fire-once completion action to the response's `finish` and
 * `close` signals, and, on the first of them, reports the bytes the request
 * read and wrote on its (possibly shared) connection, moves the
 * connection's checkpoint, and publishes one stats record.
 */
module RequestStats {
  import opened Wrappers
  import opened ByteAccounting
  import opened CompletionGate

  /** Header maps are carried, never interpreted. */
  type Headers = map<string, string>

  /** Identity of a subscribed listener function. */
  type ListenerId = nat

  /** The optional listener argument: only a function is subscribed. */
  datatype ListenerArg = Function(id: ListenerId) | NotAFunction

  /** The parts of an incoming request the recorder reads. */
  datatype Request = Request(httpMethod: string, url: string, headers: Headers, connection: Connection)

  datatype ReqStats = ReqStats(bytes: int, headers: Headers, httpMethod: string, path: string)
  datatype ResStats = ResStats(bytes: int, headers: Headers, status: int)

  /** The record published once per request; `time` is in ticks of an abstract clock. */
  datatype Stats = Stats(ok: bool, time: nat, req: ReqStats, res: ResStats)

  /**
   * A transport connection, shared by all requests sent over it. The
   * transport grows the counters; the recorders own the checkpoint.
   */
  class Connection {
    var bytesRead: nat
    var bytesWritten: nat
    /** The counters when the last request on this connection completed; None before the first. */
    var requestStats: Option<Counters>
    /** The counters at each completion so far, oldest first. */
    ghost var readings: seq<Counters>

    ghost predicate Valid()
      reads this
    {
      && requestStats == CheckpointAfter(readings)
      && Monotone(readings)
      && (requestStats.Some? ==> NoDecrease(requestStats.value, Current()))
    }

    function Current(): Counters
      reads this
    {
      Counters(bytesRead, bytesWritten)
    }

    constructor ()
      ensures Valid()
      ensures bytesRead == 0 && bytesWritten == 0
      ensures requestStats == None && readings == []
    {
      bytesRead, bytesWritten := 0, 0;
      requestStats := None;
      readings := [];
    }

    /** The transport reads and writes more bytes; the counters only grow. */
    method Transfer(read: nat, written: nat)
      requires Valid()
      modifies this`bytesRead, this`bytesWritten
      ensures Valid()
      ensures bytesRead == old(bytesRead) + read && bytesWritten == old(bytesWritten) + written
    {
      bytesRead := bytesRead + read;
      bytesWritten := bytesWritten + written;
    }
    /**
     * The byte accounting of a completing request: returns the counters
     * minus the checkpoint (zero when there is none), then overwrites the
     * checkpoint with the counters.
     */
    method Checkpoint() returns (d: Delta)
      requires Valid()
      modifies this`requestStats, this`readings
      ensures Valid()
      ensures d == DeltaSince(old(requestStats), Current())
      ensures d.read >= 0 && d.written >= 0
      ensures requestStats == Some(Current())
      ensures readings == old(readings) + [Current()]
      ensures d == Deltas(readings)[|readings| - 1]
      ensures Total(Deltas(readings)) == Delta(bytesRead, bytesWritten)
      ensures forall r :: r in Deltas(readings) ==> r.read >= 0 && r.written >= 0
    {
      var bytesReadPreviously := if requestStats.Some? then requestStats.value.bytesRead else 0;
      var bytesWrittenPreviously := if requestStats.Some? then requestStats.value.bytesWritten else 0;
      d := Delta(bytesRead - bytesReadPreviously, bytesWritten - bytesWrittenPreviously);

      CompletionStep(readings, Current());
      requestStats := Some(Counters(bytesRead, bytesWritten));
      readings := readings + [Current()];
    }
  }

  /** The response side: what the application has sent so far. */
  class Response {
    var statusCode: int
    /** The headers already sent, as parsed from the response; empty before the head is written. */
    var headers: Headers

    constructor ()
      ensures statusCode == 200 && headers == map[]
    {
      statusCode, headers := 200, map[];
    }

    /** The application writes the response head. */
    method WriteHead(status: int, sent: Headers)
      modifies this
      ensures statusCode == status && headers == sent
    {
      statusCode, headers := status, sent;
    }
  }

  /** A server as far as the emitter is concerned: the emitters listening to its request events. */
  class HttpServer {
    var requestHandlers: seq<StatsEmitter>

    constructor ()
      ensures requestHandlers == []
    {
      requestHandlers := [];
    }
  }

  class StatsEmitter {
    /** Listeners subscribed to the `stats` event, in subscription order. */
    var listeners: seq<ListenerId>
    /** Every stats record emitted so far, in order. */
    var published: seq<Stats>

    constructor ()
      ensures listeners == [] && published == []
    {
      listeners, published := [], [];
    }

    /** Subscribes the listener to `stats` if and only if it is a function. */
    method Attach(listener: ListenerArg)
      modifies this`listeners
      ensures listener.Function? ==> listeners == old(listeners) + [listener.id]
      ensures listener.NotAFunction? ==> listeners == old(listeners)
    {
      if listener.Function? {
        listeners := listeners + [listener.id];
      }
    }

    /** Emits a record on the `stats` event. */
    method Publish(s: Stats)
      modifies this`published
      ensures published == old(published) + [s]
    {
      published := published + [s];
    }

    /**
     * Starts recording one request: subscribes the optional listener and
     * returns a fresh recorder whose clock started at `now` and which has
     * not fired.
     */
    method Record(req: Request, res: Response, onStats: ListenerArg, now: nat) returns (r: Recorder)
      modifies this`listeners
      ensures fresh(r)
      ensures r.emitter == this && r.req == req && r.res == res && r.start == now && !r.fired
      ensures onStats.Function? ==> listeners == old(listeners) + [onStats.id]
      ensures onStats.NotAFunction? ==> listeners == old(listeners)
    {
      Attach(onStats);
      r := new Recorder(this, req, res, now);
    }

    /** Subscribes the optional listener and listens to every request the server dispatches. */
    method Serve(server: HttpServer, onStats: ListenerArg)
      modifies this`listeners, server
      ensures server.requestHandlers == old(server.requestHandlers) + [this]
      ensures onStats.Function? ==> listeners == old(listeners) + [onStats.id]
      ensures onStats.NotAFunction? ==> listeners == old(listeners)
    {
      Attach(onStats);
      server.requestHandlers := server.requestHandlers + [this];
    }

    /**
     * A request dispatched by a served server: recorded with no listener of
     * its own, by a recorder created for this request alone.
     */
    method OnServerRequest(req: Request, res: Response, now: nat) returns (r: Recorder)
      modifies this`listeners
      ensures fresh(r)
      ensures r.emitter == this && r.req == req && r.res == res && r.start == now && !r.fired
      ensures listeners == old(listeners)
    {
      r := Record(req, res, NotAFunction, now);
    }
  }

  /** The state of one request between its start and its first terminal signal. */
  class Recorder {
    const emitter: StatsEmitter
    const req: Request
    const res: Response
    /** Clock reading when the request was observed. */
    const start: nat
    /** Whether the completion action has already run. */
    var fired: bool

    constructor (emitter: StatsEmitter, req: Request, res: Response, start: nat)
      ensures this.emitter == emitter && this.req == req && this.res == res && this.start == start
      ensures !fired
    {
      this.emitter, this.req, this.res, this.start := emitter, req, res, start;
      fired := false;
    }

    /**
     * The record is the latest of the connection's reported deltas, and all
     * deltas reported on the connection add up to its counters.
     */
    ghost predicate ReportedLast(conn: Connection, s: Stats)
      reads conn
    {
      && conn.readings != []
      && Deltas(conn.readings)[|conn.readings| - 1] == Delta(s.req.bytes, s.res.bytes)
      && Total(Deltas(conn.readings)) == Delta(conn.bytesRead, conn.bytesWritten)
    }

    /**
     * What the first terminal signal does: the record carries `ok`, the time
     * since the start, the bytes since the connection's checkpoint and the
     * request's and response's fields as they are now; the checkpoint moves
     * to the counters, which themselves stay put, and the record is
     * published.
     */
    ghost predicate FirstCompletion(ok: bool, now: nat, s: Option<Stats>,
                                    checkpoint: Option<Counters>, readings: seq<Counters>, published: seq<Stats>)
      requires start <= now
      reads this, req.connection, res, emitter
    {
      var conn := req.connection;
      var d := DeltaSince(checkpoint, conn.Current());
      && s == Some(Stats(ok, now - start,
                         ReqStats(d.read, req.headers, req.httpMethod, req.url),
                         ResStats(d.written, res.headers, res.statusCode)))
      && conn.requestStats == Some(conn.Current())
      && conn.readings == readings + [conn.Current()]
      && emitter.published == published + [s.value]
    }

    /**
     * The fire-once completion action. The first call measures the elapsed
     * time, reports the bytes since the connection's checkpoint, moves the
     * checkpoint to the current counters and publishes the record; every
     * later call does nothing at all.
     */
    method Complete(ok: bool, now: nat) returns (s: Option<Stats>)
      requires start <= now
      requires req.connection.Valid()
      modifies this`fired, req.connection`requestStats, req.connection`readings, emitter`published
      ensures fired
      ensures req.connection.Valid()
      ensures (if s.Some? then [s.value.ok] else []) == Admitted(old(fired), [ok])
      ensures old(fired) ==> s.None? && unchanged(req.connection) && unchanged(emitter)
      ensures !old(fired) ==> FirstCompletion(ok, now, s, old(req.connection.requestStats), old(req.connection.readings), old(emitter.published))
      ensures !old(fired) ==> ReportedLast(req.connection, s.value)
      ensures !old(fired) ==> s.value.req.bytes >= 0 && s.value.res.bytes >= 0
    {
      if fired {
        return None;
      }
      fired := true;
      var d := req.connection.Checkpoint();
      var stats := Stats(ok, now - start,
                         ReqStats(d.read, req.headers, req.httpMethod, req.url),
                         ResStats(d.written, res.headers, res.statusCode));
      emitter.Publish(stats);
      s := Some(stats);
    }

    /** The response finished: completes with ok = true unless already completed. */
    method OnFinish(now: nat) returns (s: Option<Stats>)
      requires start <= now
      requires req.connection.Valid()
      modifies this`fired, req.connection`requestStats, req.connection`readings, emitter`published
      ensures fired && req.connection.Valid()
      ensures !old(fired) ==> FirstCompletion(true, now, s, old(req.connection.requestStats), old(req.connection.readings), old(emitter.published))
      ensures old(fired) ==> s.None? && unchanged(req.connection) && unchanged(emitter)
    {
      s := Complete(true, now);
    }

    /** The connection closed: completes with ok = false unless already completed. */
    method OnClose(now: nat) returns (s: Option<Stats>)
      requires start <= now
      requires req.connection.Valid()
      modifies this`fired, req.connection`requestStats, req.connection`readings, emitter`published
      ensures fired && req.connection.Valid()
      ensures !old(fired) ==> FirstCompletion(false, now, s, old(req.connection.requestStats), old(req.connection.readings), old(emitter.published))
      ensures old(fired) ==> s.None? && unchanged(req.connection) && unchanged(emitter)
    {
      s := Complete(false, now);
    }
  }
}
