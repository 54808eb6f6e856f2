/**
  TunnelEmitter: the writable stream that carries one HTTP exchange over
  the shared socket. Outbound, each body chunk and the end of the request
  body are emitted on the exchange's own names; inbound, four closures
  subscribed on the exchange's response names replay the peer's response
  onto the local HTTP response, and cleanup ends that response and drops
  the four subscriptions.
 */
module Tunnel {
  import opened Wrappers
  import opened Names
  import opened Wire
  import opened Registry
  import opened SocketLog
  import opened Exchange
  import opened Transport
  import opened Http

  /** Why build fails: the peer did not acknowledge the handshake. */
  datatype HandshakeFailure = NotAcknowledged

  class TunnelEmitter {
    const crypto: Crypto
    const reqPayload: ReqPayload
    const socket: Socket
    const res: Response

    /** The exchange id every per-exchange name of this emitter carries. */
    function Id(): string {
      reqPayload.id
    }

    constructor (crypto: Crypto, reqPayload: ReqPayload, socket: Socket, res: Response)
      ensures this.crypto == crypto && this.reqPayload == reqPayload
      ensures this.socket == socket && this.res == res
    {
      this.crypto := crypto;
      this.reqPayload := reqPayload;
      this.socket := socket;
      this.res := res;
    }

    /**
      build: subscribes the four response closures, then sends the
      encrypted request descriptor on the handshake name and waits for the
      acknowledgement. The subscriptions are made before the handshake and
      stay in place whether or not it is acknowledged.
     */
    static method Build(crypto: Crypto, reqPayload: ReqPayload, socket: Socket, res: Response, acked: bool)
      returns (r: Result<TunnelEmitter, HandshakeFailure>)
      modifies socket
      ensures socket.listeners == AfterSetup(old(socket.listeners), reqPayload.id)
      ensures socket.log == old(socket.log) + SetupOps(reqPayload.id)
                            + [EmittedWithAck(InitName, Text(crypto.encrypt(reqPayload)))]
      ensures r.Success? <==> acked
      ensures r.Success? ==>
        && fresh(r.value)
        && r.value.crypto == crypto && r.value.reqPayload == reqPayload
        && r.value.socket == socket && r.value.res == res
      ensures r.Failure? ==> r.error == NotAcknowledged
    {
      var emitter := new TunnelEmitter(crypto, reqPayload, socket, res);
      emitter.SetupResponseListeners();
      var ok := socket.EmitWithAck(InitName, Text(crypto.encrypt(reqPayload)), acked);
      if ok {
        r := Success(emitter);
      } else {
        r := Failure(NotAcknowledged);
      }
    }

    /**
      One whole request as the HTTP server drives the stream: build with the
      handshake acknowledged, `_write` once per body chunk in order, then
      `_final`. The socket receives exactly `OutboundCalls`, so by
      `OutboundStream` it is sent the encrypted descriptor on the handshake
      name, the chunks unchanged and in order on the chunk name, one empty
      string on the end name, and nothing on any other name.
     */
    static method SendRequest(crypto: Crypto, reqPayload: ReqPayload, socket: Socket, res: Response,
                              chunks: seq<seq<Byte>>)
      returns (e: TunnelEmitter, callbacks: nat)
      modifies socket
      ensures e.socket == socket && e.res == res && e.reqPayload == reqPayload && e.crypto == crypto
      ensures socket.listeners == AfterSetup(old(socket.listeners), reqPayload.id)
      ensures socket.log == old(socket.log) + OutboundCalls(reqPayload.id, Text(crypto.encrypt(reqPayload)), chunks)
      ensures callbacks == |chunks| + 1
      ensures forall name ::
                Sent(socket.log, name) == Sent(old(socket.log), name) + (
                  if name == InitName then [Text(crypto.encrypt(reqPayload))]
                  else if name == EventName(RequestChunk, reqPayload.id) then AsBytes(chunks)
                  else if name == EventName(RequestEnd, reqPayload.id) then [Text("")]
                  else [])
    {
      var id, init := reqPayload.id, Text(crypto.encrypt(reqPayload));
      var log0 := socket.log;
      var r := Build(crypto, reqPayload, socket, res, true);
      e := r.value;
      var log1 := socket.log;
      callbacks := 0;
      var i := 0;
      while i < |chunks|
        invariant 0 <= i <= |chunks|
        invariant socket.listeners == AfterSetup(old(socket.listeners), id)
        invariant socket.log == log1 + ChunkEmits(id, chunks[..i])
        invariant callbacks == i
      {
        var cb := e.Write(chunks[i]);
        ChunkEmitsSnoc(id, chunks, i);
        callbacks, i := callbacks + cb, i + 1;
      }
      assert chunks[..i] == chunks;
      var cb := e.Final();
      callbacks := callbacks + cb;
      OutboundCallsSplit(log0, id, init, chunks);
      forall name
        ensures Sent(socket.log, name) == Sent(log0, name) + (
          if name == InitName then [init]
          else if name == EventName(RequestChunk, id) then AsBytes(chunks)
          else if name == EventName(RequestEnd, id) then [Text("")]
          else [])
      {
        OutboundStream(log0, id, init, chunks, name);
      }
    }

    /**
      Two emitters sharing one socket, their `_write` calls interleaved in
      the order `ws` gives: the socket receives exactly `WriteEmits(ws)`, and
      each exchange's request chunk name carries exactly its own chunks,
      unchanged and in the order they were written.
     */
    static method WriteInterleaved(ea: TunnelEmitter, eb: TunnelEmitter, ws: seq<WriteCall>) returns (callbacks: nat)
      requires ea.socket == eb.socket
      requires forall i :: 0 <= i < |ws| ==> ws[i].id == ea.Id() || ws[i].id == eb.Id()
      modifies ea.socket
      ensures ea.socket.listeners == old(ea.socket.listeners)
      ensures ea.socket.log == old(ea.socket.log) + WriteEmits(ws)
      ensures callbacks == |ws|
      ensures forall id ::
                Sent(ea.socket.log, EventName(RequestChunk, id)) ==
                Sent(old(ea.socket.log), EventName(RequestChunk, id)) + WrittenBy(ws, id)
    {
      var socket := ea.socket;
      var log0 := socket.log;
      callbacks := 0;
      var i := 0;
      while i < |ws|
        invariant 0 <= i <= |ws|
        invariant socket.listeners == old(socket.listeners)
        invariant socket.log == log0 + WriteEmits(ws[..i])
        invariant callbacks == i
      {
        var cb;
        if ws[i].id == ea.Id() {
          cb := ea.Write(ws[i].chunk);
        } else {
          cb := eb.Write(ws[i].chunk);
        }
        assert ws[..i + 1][..i] == ws[..i];
        callbacks, i := callbacks + cb, i + 1;
      }
      assert ws[..i] == ws;
      forall id
        ensures Sent(socket.log, EventName(RequestChunk, id)) == Sent(log0, EventName(RequestChunk, id)) + WrittenBy(ws, id)
      {
        InterleavedWrites(log0, ws, id);
      }
    }

    /** _write: emits the chunk unchanged on the request chunk name, then calls back once. */
    method Write(chunk: seq<Byte>) returns (callbacks: nat)
      modifies socket
      ensures socket.listeners == old(socket.listeners)
      ensures socket.log == old(socket.log) + [Emitted(EventName(RequestChunk, Id()), Bytes(chunk))]
      ensures callbacks == 1
    {
      socket.Emit(EventName(RequestChunk, Id()), Bytes(chunk));
      callbacks := 1;
    }

    /** _final: emits an empty string on the request end name, then calls back once. */
    method Final() returns (callbacks: nat)
      modifies socket
      ensures socket.listeners == old(socket.listeners)
      ensures socket.log == old(socket.log) + [Emitted(EventName(RequestEnd, Id()), Text(""))]
      ensures callbacks == 1
    {
      socket.Emit(EventName(RequestEnd, Id()), Text(""));
      callbacks := 1;
    }

    /**
      _destroy: with an error, cleans up and returns without calling back;
      without one, only calls back.
     */
    method Destroy(hasError: bool) returns (callbacks: nat)
      modifies socket, res
      ensures hasError ==>
        && callbacks == 0
        && res.Snapshot() == old(res.Snapshot()).(ends := old(res.ends) + 1)
        && socket.listeners == AfterCleanup(old(socket.listeners), Id())
        && socket.log == old(socket.log) + CleanupOps(Id())
      ensures !hasError ==>
        && callbacks == 1
        && res.Snapshot() == old(res.Snapshot())
        && socket.listeners == old(socket.listeners) && socket.log == old(socket.log)
    {
      if hasError {
        Cleanup();
        callbacks := 0;
        return;
      }
      callbacks := 1;
    }

    /** setupResponseListenners: the headers, chunk, end and error closures, subscribed in that order. */
    method SetupResponseListeners()
      modifies socket
      ensures socket.listeners == AfterSetup(old(socket.listeners), Id())
      ensures socket.log == old(socket.log) + SetupOps(Id())
    {
      socket.AddListener(EventName(ResponseHeaders, Id()), Handler(ResponseHeaders, Id()));
      socket.AddListener(EventName(ResponseChunk, Id()), Handler(ResponseChunk, Id()));
      socket.AddListener(EventName(ResponseEnd, Id()), Handler(ResponseEnd, Id()));
      socket.AddListener(EventName(ResponseError, Id()), Handler(ResponseError, Id()));
    }

    /** The headers closure: decrypts the descriptor and writes its status (200 when absent or zero) and headers. */
    method OnResponseHeaders(p: Payload)
      modifies res
      ensures res.Snapshot() == Respond(old(res.Snapshot()), crypto, ResponseHeaders, p)
      ensures res.head.Some? && res.head.value.status != 0
    {
      var rp := crypto.decrypt(p);
      res.WriteHead(StatusOrDefault(rp.statusCode), rp.headers);
    }

    /** The error closure: status 500, then cleanup. */
    method OnResponseError()
      modifies socket, res
      ensures res.Snapshot() == old(res.Snapshot()).(statusCode := 500, ends := old(res.ends) + 1)
      ensures socket.listeners == AfterCleanup(old(socket.listeners), Id())
      ensures socket.log == old(socket.log) + CleanupOps(Id())
    {
      res.SetStatus(500);
      Cleanup();
    }

    /** The chunk closure: writes the chunk to the response as it came. */
    method OnResponseChunk(p: Payload)
      modifies res
      ensures res.Snapshot() == old(res.Snapshot()).(body := old(res.body) + [p])
    {
      res.Write(p);
    }

    /** The end closure: cleanup. */
    method OnResponseEnd()
      modifies socket, res
      ensures res.Snapshot() == old(res.Snapshot()).(ends := old(res.ends) + 1)
      ensures socket.listeners == AfterCleanup(old(socket.listeners), Id())
      ensures socket.log == old(socket.log) + CleanupOps(Id())
    {
      Cleanup();
    }

    /**
      The socket running this emitter's closure for channel `c` on payload
      `p`: the response and the registry change exactly as `Exchange.Fire`
      says a handler of this exchange changes them.
     */
    method Handle(c: Channel, p: Payload)
      requires IsResponse(c)
      modifies socket, res
      ensures res.Snapshot() == Respond(old(res.Snapshot()), crypto, c, p)
      ensures socket.listeners == TableAfter(old(socket.listeners), c, Id())
      ensures socket.log == old(socket.log) + if c == ResponseEnd || c == ResponseError then CleanupOps(Id()) else []
    {
      match c
      case ResponseHeaders => OnResponseHeaders(p);
      case ResponseChunk => OnResponseChunk(p);
      case ResponseEnd => OnResponseEnd();
      case ResponseError => OnResponseError();
    }

    /**
      cleanup: ends the response, then removes every listener of the
      headers, error, chunk and end names. Nothing records that it already
      ran: each call ends the response once more.
     */
    method Cleanup()
      modifies socket, res
      ensures res.Snapshot() == old(res.Snapshot()).(ends := old(res.ends) + 1)
      ensures socket.listeners == AfterCleanup(old(socket.listeners), Id())
      ensures socket.log == old(socket.log) + CleanupOps(Id())
    {
      res.End();
      socket.RemoveListeners(EventName(ResponseHeaders, Id()));
      socket.RemoveListeners(EventName(ResponseError, Id()));
      socket.RemoveListeners(EventName(ResponseChunk, Id()));
      socket.RemoveListeners(EventName(ResponseEnd, Id()));
    }
  }
}
