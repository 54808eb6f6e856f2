/**
  Event names of the tunnel protocol. Every per-exchange event name is a
  fixed prefix followed by the exchange id; the handshake uses one shared
  name without an id.
 */
module Names {

  /** The per-exchange channels: two outbound (request body), four inbound (response). */
  datatype Channel =
    | RequestChunk
    | RequestEnd
    | ResponseHeaders
    | ResponseChunk
    | ResponseEnd
    | ResponseError

  /** The shared channel of the acknowledged handshake. */
  const INIT_CHANNEL: string := "http-request-init"

  /** The four inbound channels, on which the emitter listens. */
  predicate IsResponse(c: Channel) {
    c.ResponseHeaders? || c.ResponseChunk? || c.ResponseEnd? || c.ResponseError?
  }

  function Prefix(c: Channel): string {
    match c
    case RequestChunk => "http-request-chunk-"
    case RequestEnd => "http-request-end-"
    case ResponseHeaders => "http-response-headers-"
    case ResponseChunk => "http-response-chunk-"
    case ResponseEnd => "http-response-end-"
    case ResponseError => "http-response-error-"
  }

  /**
    The names the emitter uses on the socket: the shared handshake name and,
    for each exchange, one name per channel. The socket itself keys its
    listeners by the names' spellings; `SpellingInjective` shows that
    keying by `Name` instead identifies exactly the same listeners.
   */
  datatype Name = InitName | EventName(channel: Channel, id: string)

  /** The string a name is sent and subscribed under: the prefix, then the id verbatim. */
  function Spelling(n: Name): (s: string)
    ensures |s| >= 17 && s[..5] == "http-"
    ensures n.InitName? ==> s == INIT_CHANNEL
    ensures n.EventName? ==> |s| == |Prefix(n.channel)| + |n.id| && s[|s| - |n.id|..] == n.id
  {
    match n
    case InitName => INIT_CHANNEL
    case EventName(c, id) => Prefix(c) + id
  }

  /** The four inbound event names of exchange `id`. */
  function ResponseNames(id: string): set<Name> {
    {EventName(ResponseHeaders, id), EventName(ResponseChunk, id),
     EventName(ResponseEnd, id), EventName(ResponseError, id)}
  }

  /** A position at which the prefixes of two different channels differ. */
  function DivergeAt(c1: Channel, c2: Channel): nat {
    if IsResponse(c1) != IsResponse(c2) then 7
    else if !IsResponse(c1) then 13
    else if c1 in {ResponseEnd, ResponseError} && c2 in {ResponseEnd, ResponseError} then 15
    else 14
  }

  lemma PrefixesDiverge(c1: Channel, c2: Channel)
    requires c1 != c2
    ensures DivergeAt(c1, c2) < |Prefix(c1)| && DivergeAt(c1, c2) < |Prefix(c2)|
    ensures Prefix(c1)[DivergeAt(c1, c2)] != Prefix(c2)[DivergeAt(c1, c2)]
  {
    match c1
    case RequestChunk =>
    case RequestEnd =>
    case ResponseHeaders =>
    case ResponseChunk =>
    case ResponseEnd =>
    case ResponseError =>
  }

  /**
    Spellings are injective: two names are spelled alike exactly when they
    are the same name. In particular the handshake name is no exchange's
    name, and two event names coincide only when both the channel and the
    exchange id do, so events of one exchange never reach the listeners of
    another and channels never mix.
   */
  lemma {:induction false} SpellingInjective(n1: Name, n2: Name)
    ensures Spelling(n1) == Spelling(n2) <==> n1 == n2
  {
    match (n1, n2)
    case (InitName, InitName) =>
    case (InitName, EventName(c, id)) => InitIsNoEventName(c, id);
    case (EventName(c, id), InitName) => InitIsNoEventName(c, id);
    case (EventName(c1, id1), EventName(c2, id2)) =>
      if c1 != c2 {
        PrefixesDiverge(c1, c2);
        var i := DivergeAt(c1, c2);
        assert Spelling(n1)[i] == Prefix(c1)[i];
        assert Spelling(n2)[i] == Prefix(c2)[i];
      } else if Spelling(n1) == Spelling(n2) {
        assert id1 == Spelling(n1)[|Prefix(c1)|..];
        assert id2 == Spelling(n2)[|Prefix(c2)|..];
      }
  }

  lemma {:induction false} InitIsNoEventName(c: Channel, id: string)
    ensures Spelling(EventName(c, id)) != INIT_CHANNEL
  {
    var i := if IsResponse(c) then 7 else 13;
    assert Spelling(EventName(c, id))[i] == Prefix(c)[i];
    assert Prefix(c)[i] != INIT_CHANNEL[i];
  }

  /** Every response name of exchange `id` carries `id` and a response channel. */
  lemma ResponseNamesOf(id: string, n: Name)
    requires n in ResponseNames(id)
    ensures n.EventName? && n.id == id && IsResponse(n.channel)
  {
  }

  /** The inbound names of two different exchanges are disjoint. */
  lemma {:induction false} ResponseNamesDisjoint(id: string, other: string)
    requires id != other
    ensures ResponseNames(id) !! ResponseNames(other)
  {
    forall n | n in ResponseNames(id) ensures n !in ResponseNames(other) {
      ResponseNamesOf(id, n);
      if n in ResponseNames(other) {
        ResponseNamesOf(other, n);
      }
    }
  }
}
