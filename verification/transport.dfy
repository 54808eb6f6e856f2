/**
  The socket port the emitter talks to, as far as the emitter can observe
  it: a listener registry it adds to and removes from, and a log of the
  calls made on it. Delivery of inbound events is the socket library's
  own business and is modelled on values by `Exchange.Dispatch`.
 */
module Transport {
  import opened Names
  import opened Wire
  import opened Registry
  import opened SocketLog

  class Socket {
    var listeners: Table
    var log: seq<Op>

    constructor ()
      ensures listeners == map[] && log == []
    {
      listeners := map[];
      log := [];
    }

    /** addListenner: `h` is appended to the handlers of `name`. */
    method AddListener(name: Name, h: Handler)
      modifies this
      ensures listeners == Subscribe(old(listeners), name, h)
      ensures log == old(log) + [Subscribed(name, h)]
    {
      listeners := Subscribe(listeners, name, h);
      log := log + [Subscribed(name, h)];
    }

    /** removeListenners: every handler of `name` is dropped. */
    method RemoveListeners(name: Name)
      modifies this
      ensures listeners == Unsubscribe(old(listeners), name)
      ensures log == old(log) + [Unsubscribed(name)]
    {
      listeners := Unsubscribe(listeners, name);
      log := log + [Unsubscribed(name)];
    }

    /** emit: fire and forget. */
    method Emit(name: Name, p: Payload)
      modifies this
      ensures listeners == old(listeners)
      ensures log == old(log) + [Emitted(name, p)]
    {
      log := log + [Emitted(name, p)];
    }

    /** emitWithAck: the peer's acknowledgement, or its absence, is the parameter `acked`. */
    method EmitWithAck(name: Name, p: Payload, acked: bool) returns (ok: bool)
      modifies this
      ensures ok == acked
      ensures listeners == old(listeners)
      ensures log == old(log) + [EmittedWithAck(name, p)]
    {
      log := log + [EmittedWithAck(name, p)];
      ok := acked;
    }
  }
}
