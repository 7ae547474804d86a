/**
 * Client programs over the emitter, one per end-to-end behaviour its test
 * suite checks, proved from the contracts of the emitter alone.
 */
module Scenarios {
  import opened Wrappers
  import opened ByteAccounting
  import opened RequestStats

  /**
   * A request that completes normally after `delay` ticks, after which the
   * connection also closes: exactly one record is published, with ok set,
   * the elapsed time, the request's fields and the response status.
   */
  method FinishThenClose(h: Headers, read: nat, written: nat, delay: nat, sent: Headers)
    returns (s: Stats, published: seq<Stats>)
    ensures published == [s]
    ensures s.ok && s.time == delay
    ensures s.req == ReqStats(read, h, "PUT", "/")
    ensures s.res == ResStats(written, sent, 200)
  {
    var conn := new Connection();
    var emitter := new StatsEmitter();
    var res := new Response();
    var r := emitter.Record(Request("PUT", "/", h, conn), res, Function(1), 0);
    conn.Transfer(read, written);
    res.WriteHead(200, sent);
    var finished := r.OnFinish(delay);
    var closed := r.OnClose(delay + 1);
    assert closed.None?;
    s := finished.value;
    published := emitter.published;
  }

  /**
   * The server destroys the request before writing a response: the record
   * says not ok, counts the request bytes, and has no response bytes and no
   * response headers.
   */
  method DestroyedBeforeResponse(h: Headers, read: nat, now: nat) returns (s: Stats)
    ensures !s.ok && s.time == now
    ensures s.req == ReqStats(read, h, "PUT", "/")
    ensures s.res == ResStats(0, map[], 200)
  {
    var conn := new Connection();
    var emitter := new StatsEmitter();
    var server := new HttpServer();
    emitter.Serve(server, Function(1));
    var res := new Response();
    var r := emitter.OnServerRequest(Request("PUT", "/", h, conn), res, 0);
    conn.Transfer(read, 0);
    assert r.req.connection == conn && conn.requestStats == None;
    assert DeltaSince(None, conn.Current()) == Delta(read, 0);
    var closed := r.OnClose(now);
    s := closed.value;
  }

  /**
   * One request served on a connection that sits at its checkpoint (or has
   * carried nothing yet): the record reports exactly the bytes this request
   * moved, and the connection's checkpoint moves to its new totals.
   */
  method ServeOne(emitter: StatsEmitter, conn: Connection, h: Headers, read: nat, written: nat, now: nat)
    returns (s: Stats)
    requires conn.Valid()
    requires conn.requestStats.None? ==> conn.bytesRead == 0 && conn.bytesWritten == 0
    requires conn.requestStats.Some? ==> conn.requestStats.value == conn.Current()
    modifies conn`bytesRead, conn`bytesWritten, conn`requestStats, conn`readings
    modifies emitter`listeners, emitter`published
    ensures conn.Valid() && conn.requestStats == Some(conn.Current())
    ensures conn.bytesRead == old(conn.bytesRead) + read
    ensures conn.bytesWritten == old(conn.bytesWritten) + written
    ensures s.ok && s.req.bytes == read && s.res.bytes == written
  {
    var res := new Response();
    var r := emitter.OnServerRequest(Request("PUT", "/", h, conn), res, now);
    ghost var checkpoint := conn.requestStats;
    conn.Transfer(read, written);
    assert r.req.connection == conn && conn.requestStats == checkpoint;
    if checkpoint.Some? {
      assert checkpoint.value.bytesRead + read == conn.bytesRead;
      assert checkpoint.value.bytesWritten + written == conn.bytesWritten;
    }
    assert DeltaSince(checkpoint, conn.Current()) == Delta(read, written);
    var finished := r.OnFinish(now);
    s := finished.value;
  }

  /**
   * Two requests one after another on one keep-alive connection: each
   * reports its own bytes, not the connection's totals, and together they
   * account for every byte the connection read and wrote.
   */
  method KeepAlive(h: Headers, read1: nat, written1: nat, read2: nat, written2: nat)
    returns (first: Stats, second: Stats, totalRead: nat, totalWritten: nat)
    ensures first.req.bytes == read1 && first.res.bytes == written1
    ensures second.req.bytes == read2 && second.res.bytes == written2
    ensures first.req.bytes + second.req.bytes == totalRead
    ensures first.res.bytes + second.res.bytes == totalWritten
  {
    var conn := new Connection();
    var emitter := new StatsEmitter();
    var server := new HttpServer();
    emitter.Serve(server, Function(1));
    first := ServeOne(emitter, conn, h, read1, written1, 0);
    second := ServeOne(emitter, conn, h, read2, written2, 2);
    totalRead, totalWritten := conn.bytesRead, conn.bytesWritten;
  }
}
