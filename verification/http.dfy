/**
  The HTTP server response the emitter writes to, reduced to what the
  emitter does with it: assign statusCode, call writeHead, write and end.
 */
module Http {
  import opened Wrappers
  import opened Wire
  import opened Exchange

  class Response {
    var statusCode: int
    var head: Option<Head>
    var body: seq<Payload>
    var ends: nat

    /** The response's state as a value. */
    function Snapshot(): Sink
      reads this
    {
      Sink(statusCode, head, body, ends)
    }

    constructor ()
      ensures Snapshot() == FRESH_SINK
    {
      statusCode, head, body, ends := 200, None, [], 0;
    }

    method WriteHead(status: int, headers: Headers)
      modifies this
      ensures Snapshot() == old(Snapshot()).(head := Some(Head(status, headers)))
    {
      head := Some(Head(status, headers));
    }

    method SetStatus(code: int)
      modifies this
      ensures Snapshot() == old(Snapshot()).(statusCode := code)
    {
      statusCode := code;
    }

    method Write(p: Payload)
      modifies this
      ensures Snapshot() == old(Snapshot()).(body := old(body) + [p])
    {
      body := body + [p];
    }

    method End()
      modifies this
      ensures Snapshot() == old(Snapshot()).(ends := old(ends) + 1)
    {
      ends := ends + 1;
    }
  }
}
