/**
  The socket's call log: every subscribe, unsubscribe and emit an emitter
  issues, in order, and what was sent on a given name.
 */
module SocketLog {
  import opened Names
  import opened Wire
  import opened Registry

  datatype Op =
    | Subscribed(name: Name, handler: Handler)
    | Unsubscribed(name: Name)
    | Emitted(name: Name, payload: Payload)
    | EmittedWithAck(name: Name, payload: Payload)

  /** What one call sends on `name`: its payload when it is an emit on that name, else nothing. */
  function SentBy(op: Op, name: Name): seq<Payload> {
    match op
    case Emitted(n, p) => if n == name then [p] else []
    case EmittedWithAck(n, p) => if n == name then [p] else []
    case _ => []
  }

  /** The payloads emitted on `name`, in emit order. */
  function Sent(log: seq<Op>, name: Name): seq<Payload> {
    if log == [] then [] else Sent(log[..|log| - 1], name) + SentBy(log[|log| - 1], name)
  }

  /** The calls setupResponseListenners makes: one subscription per response channel, headers first. */
  function SetupOps(id: string): (ops: seq<Op>)
    ensures |ops| == 4
    ensures forall i :: 0 <= i < |ops| ==>
      && ops[i].Subscribed? && ops[i].handler.owner == id && IsResponse(ops[i].handler.channel)
      && ops[i].name == EventName(ops[i].handler.channel, id)
    ensures forall c :: IsResponse(c) ==> Subscribed(EventName(c, id), Handler(c, id)) in ops
  {
    [Subscribed(EventName(ResponseHeaders, id), Handler(ResponseHeaders, id)),
     Subscribed(EventName(ResponseChunk, id), Handler(ResponseChunk, id)),
     Subscribed(EventName(ResponseEnd, id), Handler(ResponseEnd, id)),
     Subscribed(EventName(ResponseError, id), Handler(ResponseError, id))]
  }

  /** The calls cleanup makes on the socket: one removal per response channel, headers first and end last. */
  function CleanupOps(id: string): (ops: seq<Op>)
    ensures |ops| == 4
    ensures forall i :: 0 <= i < |ops| ==> ops[i].Unsubscribed? && ops[i].name in ResponseNames(id)
    ensures forall c :: IsResponse(c) ==> Unsubscribed(EventName(c, id)) in ops
  {
    [Unsubscribed(EventName(ResponseHeaders, id)), Unsubscribed(EventName(ResponseError, id)),
     Unsubscribed(EventName(ResponseChunk, id)), Unsubscribed(EventName(ResponseEnd, id))]
  }

  /** The emits a run of `_write` calls produces, one per chunk. */
  function ChunkEmits(id: string, chunks: seq<seq<Byte>>): (ops: seq<Op>)
    ensures |ops| == |chunks|
    ensures forall i :: 0 <= i < |chunks| ==> ops[i] == Emitted(EventName(RequestChunk, id), Bytes(chunks[i]))
  {
    seq(|chunks|, i requires 0 <= i < |chunks| => Emitted(EventName(RequestChunk, id), Bytes(chunks[i])))
  }

  function AsBytes(chunks: seq<seq<Byte>>): (ps: seq<Payload>)
    ensures |ps| == |chunks| && forall i :: 0 <= i < |chunks| ==> ps[i] == Bytes(chunks[i])
  {
    seq(|chunks|, i requires 0 <= i < |chunks| => Bytes(chunks[i]))
  }

  /** What was sent on a name over two consecutive stretches of the log is what was sent over each. */
  lemma {:induction false} SentSplits(a: seq<Op>, b: seq<Op>, name: Name)
    ensures Sent(a + b, name) == Sent(a, name) + Sent(b, name)
    decreases |b|
  {
    if b == [] {
      assert a + b == a;
    } else {
      var b' := b[..|b| - 1];
      assert (a + b)[..|a + b| - 1] == a + b';
      assert (a + b)[|a + b| - 1] == b[|b| - 1];
      SentSplits(a, b', name);
      var last := SentBy(b[|b| - 1], name);
      assert Sent(a + b, name) == Sent(a + b', name) + last;
      assert Sent(b, name) == Sent(b', name) + last;
      assert (Sent(a, name) + Sent(b', name)) + last == Sent(a, name) + (Sent(b', name) + last);
    }
  }

  /** Subscriptions and removals send nothing. */
  lemma {:induction false} ListenerOpsSendNothing(log: seq<Op>, name: Name)
    requires forall i :: 0 <= i < |log| ==> log[i].Subscribed? || log[i].Unsubscribed?
    ensures Sent(log, name) == []
    decreases |log|
  {
    if log != [] {
      ListenerOpsSendNothing(log[..|log| - 1], name);
    }
  }

  /**
    A run of writes sends its chunks unchanged and in order on the request
    chunk channel of its own exchange, and sends nothing on any other name.
   */
  lemma {:induction false} WritesArriveInOrder(log: seq<Op>, id: string, chunks: seq<seq<Byte>>, name: Name)
    ensures Sent(log + ChunkEmits(id, chunks), name) ==
      Sent(log, name) + (if name == EventName(RequestChunk, id) then AsBytes(chunks) else [])
    decreases |chunks|
  {
    if chunks == [] {
      assert log + ChunkEmits(id, chunks) == log;
      assert AsBytes(chunks) == [];
    } else {
      var front, last := chunks[..|chunks| - 1], chunks[|chunks| - 1];
      var op := Emitted(EventName(RequestChunk, id), Bytes(last));
      assert ChunkEmits(id, chunks) == ChunkEmits(id, front) + [op];
      assert log + ChunkEmits(id, chunks) == (log + ChunkEmits(id, front)) + [op];
      SentSnoc(log + ChunkEmits(id, front), op, name);
      WritesArriveInOrder(log, id, front, name);
      if name == EventName(RequestChunk, id) {
        assert AsBytes(chunks) == AsBytes(front) + [Bytes(last)];
        assert (Sent(log, name) + AsBytes(front)) + [Bytes(last)] == Sent(log, name) + (AsBytes(front) + [Bytes(last)]);
      } else {
        assert Sent(log, name) + [] == Sent(log, name);
      }
    }
  }

  lemma SentSnoc(log: seq<Op>, op: Op, name: Name)
    ensures Sent(log + [op], name) == Sent(log, name) + SentBy(op, name)
  {
    assert (log + [op])[..|log + [op]| - 1] == log;
  }

  /** setupResponseListenners and cleanup emit nothing. */
  lemma {:induction false} ListenerCallsSendNothing(log: seq<Op>, id: string, name: Name)
    ensures Sent(log + SetupOps(id), name) == Sent(log, name)
    ensures Sent(log + CleanupOps(id), name) == Sent(log, name)
  {
    SentSplits(log, SetupOps(id), name);
    ListenerOpsSendNothing(SetupOps(id), name);
    SentSplits(log, CleanupOps(id), name);
    ListenerOpsSendNothing(CleanupOps(id), name);
    assert Sent(log, name) + [] == Sent(log, name);
  }

  /** The calls build, a run of `_write`s and `_final` make on the socket, in that order. */
  function OutboundCalls(id: string, init: Payload, chunks: seq<seq<Byte>>): (ops: seq<Op>)
    ensures |ops| == |chunks| + 6
    ensures ops[..4] == SetupOps(id)
    ensures forall i :: 0 <= i < |ops| ==> (ops[i].EmittedWithAck? <==> i == 4)
    ensures ops[4] == EmittedWithAck(InitName, init)
    ensures ops[|ops| - 1] == Emitted(EventName(RequestEnd, id), Text(""))
  {
    SetupOps(id) + [EmittedWithAck(InitName, init)] + ChunkEmits(id, chunks)
      + [Emitted(EventName(RequestEnd, id), Text(""))]
  }

  lemma ChunkEmitsSnoc(id: string, chunks: seq<seq<Byte>>, i: nat)
    requires i < |chunks|
    ensures ChunkEmits(id, chunks[..i + 1]) == ChunkEmits(id, chunks[..i]) + [Emitted(EventName(RequestChunk, id), Bytes(chunks[i]))]
  {
  }

  lemma OutboundCallsSplit(log: seq<Op>, id: string, init: Payload, chunks: seq<seq<Byte>>)
    ensures log + OutboundCalls(id, init, chunks)
         == (log + SetupOps(id) + [EmittedWithAck(InitName, init)]) + ChunkEmits(id, chunks)
            + [Emitted(EventName(RequestEnd, id), Text(""))]
  {
  }

  /** A `_write` of `chunk` by the emitter of exchange `id`. */
  datatype WriteCall = WriteCall(id: string, chunk: seq<Byte>)

  /** The emits a run of writes by the emitters sharing one socket produces, in call order. */
  function WriteEmits(ws: seq<WriteCall>): seq<Op>
    decreases |ws|
  {
    if ws == [] then []
    else WriteEmits(ws[..|ws| - 1]) + [Emitted(EventName(RequestChunk, ws[|ws| - 1].id), Bytes(ws[|ws| - 1].chunk))]
  }

  /** The chunks the emitter of exchange `id` wrote in `ws`, in call order. */
  function WrittenBy(ws: seq<WriteCall>, id: string): seq<Payload>
    decreases |ws|
  {
    if ws == [] then []
    else WrittenBy(ws[..|ws| - 1], id) + (if ws[|ws| - 1].id == id then [Bytes(ws[|ws| - 1].chunk)] else [])
  }

  /**
    Several emitters writing on one socket, their writes interleaved in any
    order: each exchange's request chunk name carries exactly that
    exchange's own chunks, unchanged and in the order they were written.
   */
  lemma {:induction false} InterleavedWrites(log: seq<Op>, ws: seq<WriteCall>, id: string)
    ensures Sent(log + WriteEmits(ws), EventName(RequestChunk, id)) ==
      Sent(log, EventName(RequestChunk, id)) + WrittenBy(ws, id)
    decreases |ws|
  {
    var name := EventName(RequestChunk, id);
    if ws == [] {
      assert log + WriteEmits(ws) == log;
    } else {
      var front, last := ws[..|ws| - 1], ws[|ws| - 1];
      var op := Emitted(EventName(RequestChunk, last.id), Bytes(last.chunk));
      assert log + WriteEmits(ws) == (log + WriteEmits(front)) + [op];
      SentSnoc(log + WriteEmits(front), op, name);
      InterleavedWrites(log, front, id);
      assert SentBy(op, name) == if last.id == id then [Bytes(last.chunk)] else [];
    }
  }

  /**
    What one exchange sends: the encrypted descriptor once on the shared
    handshake name, its body chunks unchanged and in order on its own
    chunk name, one empty string on its own end name, and nothing on any
    other name.
   */
  lemma {:induction false} OutboundStream(log: seq<Op>, id: string, init: Payload, chunks: seq<seq<Byte>>, name: Name)
    ensures Sent(log + OutboundCalls(id, init, chunks), name) == Sent(log, name) +
      if name == InitName then [init]
      else if name == EventName(RequestChunk, id) then AsBytes(chunks)
      else if name == EventName(RequestEnd, id) then [Text("")]
      else []
  {
    var ack := EmittedWithAck(InitName, init);
    var fin := Emitted(EventName(RequestEnd, id), Text(""));
    var l1 := log + SetupOps(id);
    var l2 := l1 + [ack];
    var l3 := l2 + ChunkEmits(id, chunks);
    assert log + OutboundCalls(id, init, chunks) == l3 + [fin];
    var s0 := Sent(log, name);
    var chunked := if name == EventName(RequestChunk, id) then AsBytes(chunks) else [];
    assert Sent(l2, name) == s0 + SentBy(ack, name) by {
      ListenerCallsSendNothing(log, id, name);
      SentSnoc(l1, ack, name);
    }
    assert Sent(l3, name) == Sent(l2, name) + chunked by {
      WritesArriveInOrder(l2, id, chunks, name);
    }
    assert Sent(l3 + [fin], name) == Sent(l3, name) + SentBy(fin, name) by {
      SentSnoc(l3, fin, name);
    }
    if name == InitName {
      assert Sent(l3 + [fin], name) == s0 + [init] + [] + [];
    } else if name == EventName(RequestChunk, id) {
      assert Sent(l3 + [fin], name) == s0 + [] + AsBytes(chunks) + [];
    } else if name == EventName(RequestEnd, id) {
      assert Sent(l3 + [fin], name) == s0 + [] + [] + [Text("")];
    } else {
      assert Sent(l3 + [fin], name) == s0 + [] + [] + [];
    }
  }
}
