/**
  The socket's listener registry: event name to the handlers subscribed to
  it, in subscription order. A handler is identified by the channel it
  serves and the id of the exchange whose closure it is.
 */
module Registry {
  import opened Names

  datatype Handler = Handler(channel: Channel, owner: string)

  type Table = map<Name, seq<Handler>>

  /** The handlers an event named `name` reaches. */
  function Listeners(t: Table, name: Name): seq<Handler> {
    if name in t then t[name] else []
  }

  /** Adds `h` after the handlers already subscribed to `name`. */
  function Subscribe(t: Table, name: Name, h: Handler): (r: Table)
    ensures Listeners(r, name) == Listeners(t, name) + [h]
    ensures r.Keys == t.Keys + {name}
    ensures forall n :: n != name ==> Listeners(r, n) == Listeners(t, n)
  {
    t[name := Listeners(t, name) + [h]]
  }

  /** Removes every handler subscribed to `name`. */
  function Unsubscribe(t: Table, name: Name): (r: Table)
    ensures Listeners(r, name) == []
    ensures r.Keys == t.Keys - {name}
    ensures forall n :: n != name ==> Listeners(r, n) == Listeners(t, n)
  {
    t - {name}
  }

  /**
    The registry after an emitter for exchange `id` has set up its four
    response listeners: headers, chunk, end and error, in that order.
   */
  function AfterSetup(t: Table, id: string): (r: Table)
    ensures r.Keys == t.Keys + ResponseNames(id)
  {
    var t1 := Subscribe(t, EventName(ResponseHeaders, id), Handler(ResponseHeaders, id));
    var t2 := Subscribe(t1, EventName(ResponseChunk, id), Handler(ResponseChunk, id));
    var t3 := Subscribe(t2, EventName(ResponseEnd, id), Handler(ResponseEnd, id));
    Subscribe(t3, EventName(ResponseError, id), Handler(ResponseError, id))
  }

  /**
    The registry after an emitter for exchange `id` has cleaned up: every
    listener of its headers, error, chunk and end names removed, in that
    order.
   */
  function AfterCleanup(t: Table, id: string): (r: Table)
    ensures r.Keys == t.Keys - ResponseNames(id)
  {
    var t1 := Unsubscribe(t, EventName(ResponseHeaders, id));
    var t2 := Unsubscribe(t1, EventName(ResponseError, id));
    var t3 := Unsubscribe(t2, EventName(ResponseChunk, id));
    Unsubscribe(t3, EventName(ResponseEnd, id))
  }

  /**
    Setup subscribes exactly one handler of exchange `id` on each of its four
    response names, and leaves every other name as it was.
   */
  lemma {:induction false} SetupRegistersFour(t: Table, id: string)
    ensures AfterSetup(t, id).Keys == t.Keys + ResponseNames(id)
    ensures forall c :: IsResponse(c) ==>
      Listeners(AfterSetup(t, id), EventName(c, id)) == Listeners(t, EventName(c, id)) + [Handler(c, id)]
    ensures forall n :: n !in ResponseNames(id) ==> Listeners(AfterSetup(t, id), n) == Listeners(t, n)
  {
    var t1 := Subscribe(t, EventName(ResponseHeaders, id), Handler(ResponseHeaders, id));
    var t2 := Subscribe(t1, EventName(ResponseChunk, id), Handler(ResponseChunk, id));
    var t3 := Subscribe(t2, EventName(ResponseEnd, id), Handler(ResponseEnd, id));
    var r := Subscribe(t3, EventName(ResponseError, id), Handler(ResponseError, id));
    forall c | IsResponse(c)
      ensures Listeners(r, EventName(c, id)) == Listeners(t, EventName(c, id)) + [Handler(c, id)]
    {
      var n := EventName(c, id);
      match c
      case ResponseHeaders =>
        assert Listeners(r, n) == Listeners(t3, n) == Listeners(t2, n) == Listeners(t1, n);
      case ResponseChunk =>
        assert Listeners(r, n) == Listeners(t3, n) == Listeners(t2, n) && Listeners(t1, n) == Listeners(t, n);
      case ResponseEnd =>
        assert Listeners(r, n) == Listeners(t3, n) && Listeners(t2, n) == Listeners(t1, n) == Listeners(t, n);
      case ResponseError =>
        assert Listeners(t3, n) == Listeners(t2, n) == Listeners(t1, n) == Listeners(t, n);
    }
  }

  /**
    Cleanup removes exactly the four response names of exchange `id`;
    every other entry, including those of other exchanges, is untouched,
    and afterwards an event on any of the four reaches no handler.
   */
  lemma {:induction false} CleanupRemovesFour(t: Table, id: string)
    ensures AfterCleanup(t, id) == t - ResponseNames(id)
    ensures forall c :: IsResponse(c) ==> Listeners(AfterCleanup(t, id), EventName(c, id)) == []
    ensures forall n :: n !in ResponseNames(id) ==> Listeners(AfterCleanup(t, id), n) == Listeners(t, n)
  {
    var r, u := AfterCleanup(t, id), t - ResponseNames(id);
    forall n | n in r ensures r[n] == u[n] {
      assert r[n] == t[n];
    }
    SameEntries(r, u);
  }

  /**
    Setup and cleanup are symmetric: when exchange `id` has no listeners
    yet, cleaning up after setting up gives back the registry unchanged.
   */
  lemma {:induction false} CleanupUndoesSetup(t: Table, id: string)
    requires ResponseNames(id) !! t.Keys
    ensures AfterCleanup(AfterSetup(t, id), id) == t
  {
    SetupRegistersFour(t, id);
    var s := AfterSetup(t, id);
    CleanupRemovesFour(s, id);
    var r := AfterCleanup(s, id);
    forall n | n in r ensures r[n] == t[n] {
      assert n !in ResponseNames(id);
      assert Listeners(r, n) == Listeners(s, n) == Listeners(t, n);
    }
    SameEntries(r, t);
  }

  lemma SameEntries<K, V>(a: map<K, V>, b: map<K, V>)
    requires a.Keys == b.Keys
    requires forall k :: k in a ==> a[k] == b[k]
    ensures a == b
  {
  }

  /**
    Every handler sits under the name built from its own channel and
    exchange id, and only response channels have handlers.
   */
  ghost predicate WellKeyed(t: Table) {
    forall n, h :: n in t && h in t[n] ==> IsResponse(h.channel) && n == EventName(h.channel, h.owner)
  }

  lemma {:induction false} SetupKeepsWellKeyed(t: Table, id: string)
    requires WellKeyed(t)
    ensures WellKeyed(AfterSetup(t, id))
  {
    var t1 := Subscribe(t, EventName(ResponseHeaders, id), Handler(ResponseHeaders, id));
    var t2 := Subscribe(t1, EventName(ResponseChunk, id), Handler(ResponseChunk, id));
    var t3 := Subscribe(t2, EventName(ResponseEnd, id), Handler(ResponseEnd, id));
    SubscribeKeepsWellKeyed(t, Handler(ResponseHeaders, id));
    SubscribeKeepsWellKeyed(t1, Handler(ResponseChunk, id));
    SubscribeKeepsWellKeyed(t2, Handler(ResponseEnd, id));
    SubscribeKeepsWellKeyed(t3, Handler(ResponseError, id));
  }

  /** Subscribing a response handler under its own name keeps the registry well keyed. */
  lemma {:induction false} SubscribeKeepsWellKeyed(t: Table, h: Handler)
    requires WellKeyed(t)
    requires IsResponse(h.channel)
    ensures WellKeyed(Subscribe(t, EventName(h.channel, h.owner), h))
  {
    var n0 := EventName(h.channel, h.owner);
    var r := Subscribe(t, n0, h);
    forall n: Name, h': Handler | n in r && h' in r[n]
      ensures IsResponse(h'.channel) && n == EventName(h'.channel, h'.owner)
    {
      if n == n0 {
        assert r[n] == Listeners(t, n0) + [h];
        if h' != h {
          assert h' in Listeners(t, n0);
        }
      } else {
        assert r[n] == Listeners(t, n);
      }
    }
  }

  lemma {:induction false} CleanupKeepsWellKeyed(t: Table, id: string)
    requires WellKeyed(t)
    ensures WellKeyed(AfterCleanup(t, id))
  {
    CleanupRemovesFour(t, id);
  }

  /**
    No cross-delivery: in a well-keyed registry an event named for channel
    `c` of exchange `id` reaches only exchange `id`'s handler for `c`.
   */
  lemma {:induction false} NoCrossDelivery(t: Table, c: Channel, id: string, h: Handler)
    requires WellKeyed(t)
    requires h in Listeners(t, EventName(c, id))
    ensures h == Handler(c, id)
  {
  }

  /**
    Running cleanup again changes nothing more in the registry: the second
    run finds none of the four names.
   */
  lemma {:induction false} CleanupIsIdempotent(t: Table, id: string)
    ensures AfterCleanup(AfterCleanup(t, id), id) == AfterCleanup(t, id)
  {
    var once := AfterCleanup(t, id);
    CleanupRemovesFour(t, id);
    CleanupRemovesFour(once, id);
    var twice := AfterCleanup(once, id);
    forall n | n in twice ensures twice[n] == once[n] {
      assert Listeners(twice, n) == Listeners(once, n);
    }
    SameEntries(twice, once);
  }
}
