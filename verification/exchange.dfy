/**
  The inbound side as values. The socket delivers an event by running, in
  subscription order, every handler registered on the event's name; each
  handler is one of an emitter's four closures and acts on that emitter's
  response and on the registry. A world holds the registry and the
  response of every exchange, keyed by exchange id.
 */
module Exchange {
  import opened Wrappers
  import opened Names
  import opened Wire
  import opened Registry

  /** The arguments of a writeHead call. */
  datatype Head = Head(status: int, headers: Headers)

  /**
    What a response has recorded: the value last assigned directly to its
    statusCode (the status writeHead is given is kept in `head` only), its
    writeHead call, its write calls in order and the number of end calls.
   */
  datatype Sink = Sink(statusCode: int, head: Option<Head>, body: seq<Payload>, ends: nat)

  /** A response as the HTTP server hands it over: status 200, nothing written. */
  const FRESH_SINK: Sink := Sink(200, None, [], 0)

  /** The status the headers closure writes: the peer's status code unless it is absent or zero, else 200. */
  function StatusOrDefault(code: Option<int>): (r: int)
    ensures r != 0
    ensures code.None? || code.value == 0 ==> r == 200
    ensures code.Some? && code.value != 0 ==> r == code.value
  {
    match code
    case Some(c) => if c != 0 then c else 200
    case None => 200
  }

  /** What the closure serving channel `c` does to its own response when it receives `p`. */
  function Respond(s: Sink, crypto: Crypto, c: Channel, p: Payload): (r: Sink)
    ensures r.body == s.body + (if c == ResponseChunk then [p] else [])
    ensures r.ends == s.ends + (if c == ResponseEnd || c == ResponseError then 1 else 0)
    ensures r.statusCode == (if c == ResponseError then 500 else s.statusCode)
    ensures c == ResponseHeaders ==> r.head.Some? && r.head.value.status != 0
    ensures c != ResponseHeaders ==> r.head == s.head
  {
    match c
    case ResponseHeaders =>
      var rp := crypto.decrypt(p);
      s.(head := Some(Head(StatusOrDefault(rp.statusCode), rp.headers)))
    case ResponseChunk => s.(body := s.body + [p])
    case ResponseEnd => s.(ends := s.ends + 1)
    case ResponseError => s.(statusCode := 500, ends := s.ends + 1)
    case _ => s
  }

  /** What it does to the registry: the two terminal closures run cleanup for their exchange. */
  function TableAfter(t: Table, c: Channel, id: string): (r: Table)
    ensures r.Keys == if c == ResponseEnd || c == ResponseError then t.Keys - ResponseNames(id) else t.Keys
  {
    if c == ResponseEnd || c == ResponseError then AfterCleanup(t, id) else t
  }

  datatype World = World(table: Table, sinks: map<string, Sink>)

  /** Runs one handler. A handler whose exchange has no response does nothing. */
  function Fire(w: World, crypto: Crypto, h: Handler, p: Payload): (r: World)
    ensures forall id :: id != h.owner ==> (id in r.sinks <==> id in w.sinks)
    ensures forall id :: id != h.owner && id in w.sinks ==> r.sinks[id] == w.sinks[id]
    ensures r.table == w.table || r.table == AfterCleanup(w.table, h.owner)
    ensures r.sinks.Keys == w.sinks.Keys && r.table.Keys <= w.table.Keys
  {
    if h.owner in w.sinks then
      World(TableAfter(w.table, h.channel, h.owner),
            w.sinks[h.owner := Respond(w.sinks[h.owner], crypto, h.channel, p)])
    else w
  }

  /** Runs the handlers `hs` one after the other on the same payload. */
  function FireAll(w: World, crypto: Crypto, hs: seq<Handler>, p: Payload): (r: World)
    ensures r.sinks.Keys == w.sinks.Keys && r.table.Keys <= w.table.Keys
    decreases |hs|
  {
    if hs == [] then w else FireAll(Fire(w, crypto, hs[0], p), crypto, hs[1..], p)
  }

  /**
    The socket delivers `ev` to the handlers registered on its name when it
    arrives. An event nobody listens to is dropped; delivery never adds a
    listener, nor a response.
   */
  function Dispatch(w: World, crypto: Crypto, ev: Event): (r: World)
    ensures Listeners(w.table, ev.name) == [] ==> r == w
    ensures r.sinks.Keys == w.sinks.Keys && r.table.Keys <= w.table.Keys
  {
    FireAll(w, crypto, Listeners(w.table, ev.name), ev.payload)
  }

  /** The socket delivers `evs` in arrival order. */
  function Replay(w: World, crypto: Crypto, evs: seq<Event>): (r: World)
    ensures r.sinks.Keys == w.sinks.Keys && r.table.Keys <= w.table.Keys
    decreases |evs|
  {
    if evs == [] then w else Replay(Dispatch(w, crypto, evs[0]), crypto, evs[1..])
  }

  /** Running handlers only ever removes listeners: each name keeps its handlers or loses them all. */
  lemma {:induction false} FireAllOnlyRemoves(w: World, crypto: Crypto, hs: seq<Handler>, p: Payload)
    ensures forall n :: Listeners(FireAll(w, crypto, hs, p).table, n) == Listeners(w.table, n)
                     || Listeners(FireAll(w, crypto, hs, p).table, n) == []
    decreases |hs|
  {
    if hs != [] {
      CleanupRemovesFour(w.table, hs[0].owner);
      FireAllOnlyRemoves(Fire(w, crypto, hs[0], p), crypto, hs[1..], p);
    }
  }

  /** Delivering an event adds no listener: each name keeps its handlers or loses them all. */
  lemma {:induction false} DispatchOnlyRemoves(w: World, crypto: Crypto, ev: Event)
    ensures forall n :: Listeners(Dispatch(w, crypto, ev).table, n) == Listeners(w.table, n)
                     || Listeners(Dispatch(w, crypto, ev).table, n) == []
  {
    FireAllOnlyRemoves(w, crypto, Listeners(w.table, ev.name), ev.payload);
  }

  /** Delivering a run of events adds no listener: each name keeps its handlers or loses them all. */
  lemma {:induction false} ReplayOnlyRemoves(w: World, crypto: Crypto, evs: seq<Event>)
    ensures forall n :: Listeners(Replay(w, crypto, evs).table, n) == Listeners(w.table, n)
                     || Listeners(Replay(w, crypto, evs).table, n) == []
    decreases |evs|
  {
    if evs != [] {
      DispatchOnlyRemoves(w, crypto, evs[0]);
      ReplayOnlyRemoves(Dispatch(w, crypto, evs[0]), crypto, evs[1..]);
    }
  }

  /** The world right after exchange `id` was built with response `s`. */
  function Opened(w: World, id: string, s: Sink): World {
    World(AfterSetup(w.table, id), w.sinks[id := s])
  }

  lemma FireAllSingle(w: World, crypto: Crypto, h: Handler, p: Payload)
    ensures FireAll(w, crypto, [h], p) == Fire(w, crypto, h, p)
  {
    assert [h][1..] == [];
  }

  lemma UpdateTwice<K, V>(m: map<K, V>, k: K, v1: V, v2: V)
    ensures m[k := v1][k := v2] == m[k := v2]
  {
  }

  lemma ReplayOne(w: World, crypto: Crypto, e: Event)
    ensures Replay(w, crypto, [e]) == Dispatch(w, crypto, e)
  {
    assert [e][1..] == [];
  }

  lemma ReplayPair(w: World, crypto: Crypto, e1: Event, e2: Event)
    ensures Replay(w, crypto, [e1, e2]) == Dispatch(Dispatch(w, crypto, e1), crypto, e2)
  {
    assert [e1, e2][1..] == [e2];
    ReplayOne(Dispatch(w, crypto, e1), crypto, e2);
  }

  // ---------------------------------------------------------------------------
  // No cross-delivery

  /** From `w` to `r`, exchange `b`'s response and the listeners on every one of `b`'s names stayed as they were. */
  ghost predicate Unaffected(w: World, r: World, b: string) {
    && (b in r.sinks <==> b in w.sinks)
    && (b in w.sinks ==> r.sinks[b] == w.sinks[b])
    && forall c :: Listeners(r.table, EventName(c, b)) == Listeners(w.table, EventName(c, b))
  }

  lemma {:induction false} FireAllFrame(w: World, crypto: Crypto, hs: seq<Handler>, p: Payload, b: string)
    requires forall h :: h in hs ==> h.owner != b
    ensures Unaffected(w, FireAll(w, crypto, hs, p), b)
    decreases |hs|
  {
    if hs != [] {
      var w' := Fire(w, crypto, hs[0], p);
      assert Unaffected(w, w', b) by {
        assert hs[0] in hs;
        CleanupRemovesFour(w.table, hs[0].owner);
      }
      assert forall h :: h in hs[1..] ==> h in hs;
      FireAllFrame(w', crypto, hs[1..], p, b);
    }
  }

  /**
    An event that is not named for exchange `b` changes neither `b`'s
    response nor the listeners on any of `b`'s names.
   */
  lemma {:induction false} DispatchLeavesOthers(w: World, crypto: Crypto, ev: Event, b: string)
    requires WellKeyed(w.table)
    requires ev.name !in ResponseNames(b)
    ensures Unaffected(w, Dispatch(w, crypto, ev), b)
  {
    var hs := Listeners(w.table, ev.name);
    forall h | h in hs ensures h.owner != b {
      assert ev.name == EventName(h.channel, h.owner) && IsResponse(h.channel);
    }
    FireAllFrame(w, crypto, hs, ev.payload, b);
  }

  /**
    An event named for exchange `a` changes neither the response of any
    other exchange `b` nor the listeners on any of `b`'s names.
   */
  lemma {:induction false} DispatchStaysWithinExchange(w: World, crypto: Crypto, c: Channel, a: string, p: Payload, b: string)
    requires WellKeyed(w.table)
    requires a != b
    ensures Unaffected(w, Dispatch(w, crypto, Event(EventName(c, a), p)), b)
  {
    DispatchLeavesOthers(w, crypto, Event(EventName(c, a), p), b);
  }

  lemma {:induction false} FireAllKeepsWellKeyed(w: World, crypto: Crypto, hs: seq<Handler>, p: Payload)
    requires WellKeyed(w.table)
    ensures WellKeyed(FireAll(w, crypto, hs, p).table)
    decreases |hs|
  {
    if hs != [] {
      CleanupKeepsWellKeyed(w.table, hs[0].owner);
      FireAllKeepsWellKeyed(Fire(w, crypto, hs[0], p), crypto, hs[1..], p);
    }
  }

  /** Delivering an event keeps every handler filed under its own channel and exchange id. */
  lemma {:induction false} DispatchKeepsWellKeyed(w: World, crypto: Crypto, ev: Event)
    requires WellKeyed(w.table)
    ensures WellKeyed(Dispatch(w, crypto, ev).table)
  {
    FireAllKeepsWellKeyed(w, crypto, Listeners(w.table, ev.name), ev.payload);
  }

  /**
    No cross-delivery over a whole run: when none of `evs` is named for
    exchange `b`, delivering them all, however other exchanges' events
    interleave, leaves `b`'s response and `b`'s listeners as they were, and
    the registry stays well keyed.
   */
  lemma {:induction false} ReplayLeavesOthers(w: World, crypto: Crypto, evs: seq<Event>, b: string)
    requires WellKeyed(w.table)
    requires forall i :: 0 <= i < |evs| ==> evs[i].name !in ResponseNames(b)
    ensures var r := Replay(w, crypto, evs);
      WellKeyed(r.table) && Unaffected(w, r, b)
    decreases |evs|
  {
    if evs != [] {
      var w' := Dispatch(w, crypto, evs[0]);
      DispatchLeavesOthers(w, crypto, evs[0], b);
      DispatchKeepsWellKeyed(w, crypto, evs[0]);
      assert forall i :: 0 <= i < |evs[1..]| ==> evs[1..][i] == evs[i + 1];
      ReplayLeavesOthers(w', crypto, evs[1..], b);
    }
  }

  // ---------------------------------------------------------------------------
  // Body order

  /** Exchange `id` is open: its chunk channel has exactly its own chunk closure. */
  ghost predicate Tracking(w: World, id: string) {
    && WellKeyed(w.table)
    && id in w.sinks
    && Listeners(w.table, EventName(ResponseChunk, id)) == [Handler(ResponseChunk, id)]
  }

  /** The payloads of the events of `evs` named for exchange `id`'s response chunk channel, in order. */
  function ChunksFor(evs: seq<Event>, id: string): seq<Payload>
    decreases |evs|
  {
    if evs == [] then []
    else (if evs[0].name == EventName(ResponseChunk, id) then [evs[0].payload] else []) + ChunksFor(evs[1..], id)
  }

  /** No event of `evs` is a terminal event of exchange `id`. */
  ghost predicate NoTerminal(evs: seq<Event>, id: string) {
    forall i :: 0 <= i < |evs| ==>
      evs[i].name != EventName(ResponseEnd, id) && evs[i].name != EventName(ResponseError, id)
  }

  lemma {:induction false} FireKeepsTracking(w: World, crypto: Crypto, h: Handler, p: Payload, a: string)
    requires Tracking(w, a)
    requires h != Handler(ResponseChunk, a) && h != Handler(ResponseEnd, a) && h != Handler(ResponseError, a)
    ensures var r := Fire(w, crypto, h, p);
      Tracking(r, a) && r.sinks[a].body == w.sinks[a].body
  {
    var r := Fire(w, crypto, h, p);
    if r.table != w.table {
      CleanupKeepsWellKeyed(w.table, h.owner);
      CleanupRemovesFour(w.table, h.owner);
      assert h.owner != a;
    }
  }

  lemma {:induction false} FireAllKeepsTracking(w: World, crypto: Crypto, hs: seq<Handler>, p: Payload, a: string)
    requires Tracking(w, a)
    requires forall h :: h in hs ==>
      h != Handler(ResponseChunk, a) && h != Handler(ResponseEnd, a) && h != Handler(ResponseError, a)
    ensures var r := FireAll(w, crypto, hs, p);
      Tracking(r, a) && r.sinks[a].body == w.sinks[a].body
    decreases |hs|
  {
    if hs != [] {
      assert hs[0] in hs;
      FireKeepsTracking(w, crypto, hs[0], p, a);
      assert forall h :: h in hs[1..] ==> h in hs;
      FireAllKeepsTracking(Fire(w, crypto, hs[0], p), crypto, hs[1..], p, a);
    }
  }

  /**
    One delivered event that is not terminal for exchange `a` keeps `a`
    open and appends to `a`'s body exactly the payload of a chunk event
    named for `a`, and nothing otherwise.
   */
  lemma {:induction false} DispatchKeepsTracking(w: World, crypto: Crypto, ev: Event, a: string)
    requires Tracking(w, a)
    requires ev.name != EventName(ResponseEnd, a) && ev.name != EventName(ResponseError, a)
    ensures var r := Dispatch(w, crypto, ev);
      && Tracking(r, a)
      && r.sinks[a].body == w.sinks[a].body + (if ev.name == EventName(ResponseChunk, a) then [ev.payload] else [])
  {
    var hs := Listeners(w.table, ev.name);
    if ev.name == EventName(ResponseChunk, a) {
      FireAllSingle(w, crypto, Handler(ResponseChunk, a), ev.payload);
    } else {
      forall h | h in hs
        ensures h != Handler(ResponseChunk, a) && h != Handler(ResponseEnd, a) && h != Handler(ResponseError, a)
      {
        assert ev.name == EventName(h.channel, h.owner);
      }
      FireAllKeepsTracking(w, crypto, hs, p := ev.payload, a := a);
      assert w.sinks[a].body + [] == w.sinks[a].body;
    }
  }

  /**
    Chunk order is preserved: as long as no terminal event of exchange `a`
    arrives, `a`'s response body grows by exactly the chunk events named
    for `a`, in arrival order, whatever other exchanges' events are
    interleaved with them.
   */
  lemma {:induction false} ReplayCollectsChunks(w: World, crypto: Crypto, evs: seq<Event>, a: string)
    requires Tracking(w, a)
    requires NoTerminal(evs, a)
    ensures var r := Replay(w, crypto, evs);
      Tracking(r, a) && r.sinks[a].body == w.sinks[a].body + ChunksFor(evs, a)
    decreases |evs|
  {
    if evs != [] {
      DispatchKeepsTracking(w, crypto, evs[0], a);
      var w' := Dispatch(w, crypto, evs[0]);
      assert NoTerminal(evs[1..], a) by {
        forall i | 0 <= i < |evs[1..]|
          ensures evs[1..][i].name != EventName(ResponseEnd, a) && evs[1..][i].name != EventName(ResponseError, a)
        {
          assert evs[1..][i] == evs[i + 1];
        }
      }
      ReplayCollectsChunks(w', crypto, evs[1..], a);
    }
  }

  /** Building an exchange whose id is not in use opens it. */
  lemma {:induction false} OpenedIsTracking(w: World, id: string, s: Sink)
    requires WellKeyed(w.table)
    requires ResponseNames(id) !! w.table.Keys
    ensures Tracking(Opened(w, id, s), id)
  {
    SetupOpensChunk(w.table, id);
  }

  /** Setup on a well-keyed registry that does not use `id` yet leaves it well keyed, with `id`'s own chunk closure alone on its chunk name. */
  lemma {:induction false} SetupOpensChunk(t: Table, id: string)
    requires WellKeyed(t)
    requires ResponseNames(id) !! t.Keys
    ensures WellKeyed(AfterSetup(t, id))
    ensures Listeners(AfterSetup(t, id), EventName(ResponseChunk, id)) == [Handler(ResponseChunk, id)]
    ensures AfterSetup(t, id).Keys == t.Keys + ResponseNames(id)
  {
    SetupKeepsWellKeyed(t, id);
    SetupRegistersFour(t, id);
    assert EventName(ResponseChunk, id) in ResponseNames(id);
  }

  // ---------------------------------------------------------------------------
  // Terminal events

  /**
    A terminal event reaching an open exchange's closure ends the response
    once (the error closure first sets status 500) and removes exactly the
    exchange's four response names from the registry.
   */
  lemma {:induction false} TerminalTearsDown(w: World, crypto: Crypto, c: Channel, a: string, p: Payload)
    requires c == ResponseEnd || c == ResponseError
    requires a in w.sinks
    requires Listeners(w.table, EventName(c, a)) == [Handler(c, a)]
    ensures var r := Dispatch(w, crypto, Event(EventName(c, a), p));
      && r.table == w.table - ResponseNames(a)
      && r.sinks == w.sinks[a := w.sinks[a].(
           ends := w.sinks[a].ends + 1,
           statusCode := if c == ResponseError then 500 else w.sinks[a].statusCode)]
  {
    CleanupRemovesFour(w.table, a);
    FireAllSingle(w, crypto, Handler(c, a), p);
  }

  /**
    After a terminal event has torn an exchange down, any later event on
    any of its four response names reaches no handler and changes nothing:
    a second end, or an end after an error, is absorbed.
   */
  lemma {:induction false} LateEventIsAbsorbed(w: World, crypto: Crypto, c: Channel, a: string, p: Payload,
                                               c': Channel, p': Payload)
    requires c == ResponseEnd || c == ResponseError
    requires IsResponse(c')
    requires a in w.sinks
    requires Listeners(w.table, EventName(c, a)) == [Handler(c, a)]
    ensures var r := Dispatch(w, crypto, Event(EventName(c, a), p));
      Dispatch(r, crypto, Event(EventName(c', a), p')) == r
  {
    TerminalTearsDown(w, crypto, c, a, p);
    CleanupRemovesFour(w.table, a);
  }

  // ---------------------------------------------------------------------------
  // Whole exchanges

  /**
    A GET with an empty body: the peer answers headers carrying status 200
    (or no status, or 0) and no headers, then end. The response records
    status 200 and no headers, no body write and one end, and the registry
    is back to what it was before the exchange was built.
   */
  lemma {:induction false} HeadersThenEnd(t: Table, sinks: map<string, Sink>, crypto: Crypto, a: string, p: Payload)
    requires ResponseNames(a) !! t.Keys
    requires crypto.decrypt(p).headers == []
    requires crypto.decrypt(p).statusCode in {None, Some(0), Some(200)}
    ensures Replay(Opened(World(t, sinks), a, FRESH_SINK), crypto,
                   [Event(EventName(ResponseHeaders, a), p), Event(EventName(ResponseEnd, a), Text(""))])
         == World(t, sinks[a := Sink(200, Some(Head(200, [])), [], 1)])
  {
    OpenedMeetsScenario(t, a);
    HeadersThenEndOn(AfterSetup(t, a), t, sinks, crypto, a, p);
  }

  /**
    The peer reports an error before any headers: the response records
    status 500, no writeHead, no body write and one end, and the registry
    is back to what it was before the exchange was built.
   */
  lemma {:induction false} ErrorBeforeHeaders(t: Table, sinks: map<string, Sink>, crypto: Crypto, a: string, p: Payload)
    requires ResponseNames(a) !! t.Keys
    ensures Replay(Opened(World(t, sinks), a, FRESH_SINK), crypto, [Event(EventName(ResponseError, a), p)])
         == World(t, sinks[a := Sink(500, None, [], 1)])
  {
    OpenedMeetsScenario(t, a);
    ErrorBeforeHeadersOn(AfterSetup(t, a), t, sinks, crypto, a, p);
  }

  /** Right after setup, each response name has just the exchange's own closure, and cleanup restores `t`. */
  lemma {:induction false} OpenedMeetsScenario(t: Table, a: string)
    requires ResponseNames(a) !! t.Keys
    ensures forall c :: IsResponse(c) ==> Listeners(AfterSetup(t, a), EventName(c, a)) == [Handler(c, a)]
    ensures AfterSetup(t, a) - ResponseNames(a) == t
  {
    assert AfterSetup(t, a) - ResponseNames(a) == t by {
      CleanupRemovesFour(AfterSetup(t, a), a);
      CleanupUndoesSetup(t, a);
    }
    forall c | IsResponse(c) ensures Listeners(AfterSetup(t, a), EventName(c, a)) == [Handler(c, a)] {
      assert Listeners(t, EventName(c, a)) == [] by {
        assert EventName(c, a) in ResponseNames(a);
      }
      SetupRegistersFour(t, a);
    }
  }

  lemma {:induction false} HeadersThenEndOn(s: Table, t: Table, sinks: map<string, Sink>, crypto: Crypto, a: string, p: Payload)
    requires forall c :: IsResponse(c) ==> Listeners(s, EventName(c, a)) == [Handler(c, a)]
    requires s - ResponseNames(a) == t
    requires crypto.decrypt(p).headers == []
    requires crypto.decrypt(p).statusCode in {None, Some(0), Some(200)}
    ensures Replay(World(s, sinks[a := FRESH_SINK]), crypto,
                   [Event(EventName(ResponseHeaders, a), p), Event(EventName(ResponseEnd, a), Text(""))])
         == World(t, sinks[a := Sink(200, Some(Head(200, [])), [], 1)])
  {
    var e1, e2 := Event(EventName(ResponseHeaders, a), p), Event(EventName(ResponseEnd, a), Text(""));
    var headed := Sink(200, Some(Head(200, [])), [], 0);
    assert FRESH_SINK.(head := Some(Head(200, []))) == headed;
    assert headed.(ends := headed.ends + 1, statusCode := headed.statusCode) == Sink(200, Some(Head(200, [])), [], 1);
    var w0 := World(s, sinks[a := FRESH_SINK]);
    HeadersReachOpenSink(s, sinks, crypto, a, FRESH_SINK, p);
    assert IsResponse(ResponseEnd);
    TerminalReachesOpenSink(s, sinks, crypto, ResponseEnd, a, headed, Text(""));
    ReplayPair(w0, crypto, e1, e2);
  }

  lemma {:induction false} ErrorBeforeHeadersOn(s: Table, t: Table, sinks: map<string, Sink>, crypto: Crypto, a: string, p: Payload)
    requires Listeners(s, EventName(ResponseError, a)) == [Handler(ResponseError, a)]
    requires s - ResponseNames(a) == t
    ensures Replay(World(s, sinks[a := FRESH_SINK]), crypto, [Event(EventName(ResponseError, a), p)])
         == World(t, sinks[a := Sink(500, None, [], 1)])
  {
    var w, e := World(s, sinks[a := FRESH_SINK]), Event(EventName(ResponseError, a), p);
    assert Replay(w, crypto, [e]) == Dispatch(w, crypto, e) by {
      ReplayOne(w, crypto, e);
    }
    assert Dispatch(w, crypto, e) == World(s - ResponseNames(a), sinks[a := Sink(500, None, [], 1)]) by {
      assert FRESH_SINK.(ends := FRESH_SINK.ends + 1, statusCode := 500) == Sink(500, None, [], 1);
      TerminalReachesOpenSink(s, sinks, crypto, ResponseError, a, FRESH_SINK, p);
    }
  }

  lemma HeadersReachOpenSink(t: Table, sinks: map<string, Sink>, crypto: Crypto, a: string, s: Sink, p: Payload)
    requires Listeners(t, EventName(ResponseHeaders, a)) == [Handler(ResponseHeaders, a)]
    ensures var rp := crypto.decrypt(p);
      Dispatch(World(t, sinks[a := s]), crypto, Event(EventName(ResponseHeaders, a), p))
        == World(t, sinks[a := s.(head := Some(Head(StatusOrDefault(rp.statusCode), rp.headers)))])
  {
    FireAllSingle(World(t, sinks[a := s]), crypto, Handler(ResponseHeaders, a), p);
    UpdateTwice(sinks, a, s, Respond(s, crypto, ResponseHeaders, p));
  }

  lemma TerminalReachesOpenSink(t: Table, sinks: map<string, Sink>, crypto: Crypto, c: Channel, a: string, s: Sink, p: Payload)
    requires c == ResponseEnd || c == ResponseError
    requires Listeners(t, EventName(c, a)) == [Handler(c, a)]
    ensures Dispatch(World(t, sinks[a := s]), crypto, Event(EventName(c, a), p))
         == World(t - ResponseNames(a),
                  sinks[a := s.(ends := s.ends + 1, statusCode := if c == ResponseError then 500 else s.statusCode)])
  {
    TerminalTearsDown(World(t, sinks[a := s]), crypto, c, a, p);
    UpdateTwice(sinks, a, s, Respond(s, crypto, c, p));
  }

  /**
    Two open exchanges `a` and `b` whose chunk events arrive interleaved
    as a1, b1, a2, b2: `a`'s response receives [a1, a2] and `b`'s receives
    [b1, b2], each in order.
   */
  lemma {:induction false} InterleavedChunks(t: Table, sinks: map<string, Sink>, crypto: Crypto, a: string, b: string,
                                             a1: Payload, a2: Payload, b1: Payload, b2: Payload)
    requires a != b
    requires WellKeyed(t)
    requires ResponseNames(a) !! t.Keys && ResponseNames(b) !! t.Keys
    ensures var w := World(AfterSetup(AfterSetup(t, a), b), sinks[a := FRESH_SINK][b := FRESH_SINK]);
      var r := Replay(w, crypto, Interleaving(a, b, a1, a2, b1, b2));
      && a in r.sinks && r.sinks[a].body == [a1, a2]
      && b in r.sinks && r.sinks[b].body == [b1, b2]
  {
    var w := World(AfterSetup(AfterSetup(t, a), b), sinks[a := FRESH_SINK][b := FRESH_SINK]);
    var evs := Interleaving(a, b, a1, a2, b1, b2);
    assert Tracking(w, a) && Tracking(w, b) && w.sinks[a] == FRESH_SINK && w.sinks[b] == FRESH_SINK by {
      BothOpen(t, sinks, a, b);
    }
    assert NoTerminal(evs, a) && NoTerminal(evs, b) by {
      InterleavingHasNoTerminal(a, b, a1, a2, b1, b2, a);
      InterleavingHasNoTerminal(a, b, a1, a2, b1, b2, b);
    }
    assert ChunksFor(evs, a) == [a1, a2] && ChunksFor(evs, b) == [b1, b2] by {
      InterleavingChunksFor(a, b, a1, a2, b1, b2);
    }
    ReplayCollectsChunks(w, crypto, evs, a);
    ReplayCollectsChunks(w, crypto, evs, b);
  }

  /** Opening `a` and then `b` on a registry that uses neither leaves both open with fresh responses. */
  lemma {:induction false} BothOpen(t: Table, sinks: map<string, Sink>, a: string, b: string)
    requires a != b
    requires WellKeyed(t)
    requires ResponseNames(a) !! t.Keys && ResponseNames(b) !! t.Keys
    ensures var w := World(AfterSetup(AfterSetup(t, a), b), sinks[a := FRESH_SINK][b := FRESH_SINK]);
      Tracking(w, a) && Tracking(w, b) && w.sinks[a] == FRESH_SINK && w.sinks[b] == FRESH_SINK
  {
    var t2 := AfterSetup(AfterSetup(t, a), b);
    BothSetUp(t, a, b);
    FreshPair(sinks, a, b);
    TrackingOnTable(t2, sinks[a := FRESH_SINK][b := FRESH_SINK], a);
    TrackingOnTable(t2, sinks[a := FRESH_SINK][b := FRESH_SINK], b);
  }

  lemma FreshPair(sinks: map<string, Sink>, a: string, b: string)
    requires a != b
    ensures a in sinks[a := FRESH_SINK][b := FRESH_SINK] && sinks[a := FRESH_SINK][b := FRESH_SINK][a] == FRESH_SINK
    ensures b in sinks[a := FRESH_SINK][b := FRESH_SINK] && sinks[a := FRESH_SINK][b := FRESH_SINK][b] == FRESH_SINK
  {
  }

  lemma TrackingOnTable(t: Table, sinks: map<string, Sink>, a: string)
    requires WellKeyed(t)
    requires Listeners(t, EventName(ResponseChunk, a)) == [Handler(ResponseChunk, a)]
    requires a in sinks
    ensures Tracking(World(t, sinks), a)
  {
  }

  /** Setting up `a` and then `b` on a registry that uses neither gives each its own chunk listener. */
  lemma {:induction false} BothSetUp(t: Table, a: string, b: string)
    requires a != b
    requires WellKeyed(t)
    requires ResponseNames(a) !! t.Keys && ResponseNames(b) !! t.Keys
    ensures var t2 := AfterSetup(AfterSetup(t, a), b);
      && WellKeyed(t2)
      && Listeners(t2, EventName(ResponseChunk, a)) == [Handler(ResponseChunk, a)]
      && Listeners(t2, EventName(ResponseChunk, b)) == [Handler(ResponseChunk, b)]
  {
    var t1 := AfterSetup(t, a);
    SetupOpensChunk(t, a);
    assert ResponseNames(b) !! t1.Keys by {
      ResponseNamesDisjoint(a, b);
    }
    SetupOpensChunk(t1, b);
    SetupKeepsChunkListener(t1, b, a);
  }

  /** Setting up another exchange, whose names are not in use, keeps the registry well keyed and an open exchange's chunk listener as it was. */
  lemma {:induction false} SetupKeepsChunkListener(t: Table, id: string, a: string)
    requires WellKeyed(t)
    requires Listeners(t, EventName(ResponseChunk, a)) == [Handler(ResponseChunk, a)]
    requires a != id
    requires ResponseNames(id) !! t.Keys
    ensures WellKeyed(AfterSetup(t, id))
    ensures Listeners(AfterSetup(t, id), EventName(ResponseChunk, a)) == [Handler(ResponseChunk, a)]
  {
    assert Listeners(AfterSetup(t, id), EventName(ResponseChunk, a)) == Listeners(t, EventName(ResponseChunk, a)) by {
      assert EventName(ResponseChunk, a) in ResponseNames(a);
      SetupRegistersFour(t, id);
    }
    SetupKeepsWellKeyed(t, id);
  }

  /** Chunk events named for `a` and `b` arriving as a1, b1, a2, b2. */
  function Interleaving(a: string, b: string, a1: Payload, a2: Payload, b1: Payload, b2: Payload): seq<Event> {
    var ka, kb := EventName(ResponseChunk, a), EventName(ResponseChunk, b);
    [Event(ka, a1), Event(kb, b1), Event(ka, a2), Event(kb, b2)]
  }

  lemma ChunksForCons(e: Event, rest: seq<Event>, id: string)
    ensures ChunksFor([e] + rest, id)
         == (if e.name == EventName(ResponseChunk, id) then [e.payload] else []) + ChunksFor(rest, id)
  {
    assert ([e] + rest)[1..] == rest;
  }

  lemma {:induction false} InterleavingChunksFor(a: string, b: string, a1: Payload, a2: Payload, b1: Payload, b2: Payload)
    requires a != b
    ensures ChunksFor(Interleaving(a, b, a1, a2, b1, b2), a) == [a1, a2]
    ensures ChunksFor(Interleaving(a, b, a1, a2, b1, b2), b) == [b1, b2]
  {
    var ka, kb := EventName(ResponseChunk, a), EventName(ResponseChunk, b);
    var e1, e2, e3, e4 := Event(ka, a1), Event(kb, b1), Event(ka, a2), Event(kb, b2);
    assert Interleaving(a, b, a1, a2, b1, b2) == [e1] + ([e2] + ([e3] + ([e4] + [])));
    ChunksForCons(e4, [], a);
    ChunksForCons(e3, [e4] + [], a);
    ChunksForCons(e2, [e3] + ([e4] + []), a);
    ChunksForCons(e1, [e2] + ([e3] + ([e4] + [])), a);
    ChunksForCons(e4, [], b);
    ChunksForCons(e3, [e4] + [], b);
    ChunksForCons(e2, [e3] + ([e4] + []), b);
    ChunksForCons(e1, [e2] + ([e3] + ([e4] + [])), b);
  }

  lemma {:induction false} InterleavingHasNoTerminal(a: string, b: string, a1: Payload, a2: Payload, b1: Payload, b2: Payload, x: string)
    ensures NoTerminal(Interleaving(a, b, a1, a2, b1, b2), x)
  {
    var evs := Interleaving(a, b, a1, a2, b1, b2);
    forall i | 0 <= i < |evs|
      ensures evs[i].name != EventName(ResponseEnd, x) && evs[i].name != EventName(ResponseError, x)
    {
      var id := if i % 2 == 0 then a else b;
      assert evs[i].name == EventName(ResponseChunk, id);
    }
  }
}
