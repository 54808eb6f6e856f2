/**
  Values that travel over the shared socket: raw body chunks, the encrypted
  request and response descriptors, and inbound events.
 */
module Wire {
  import opened Wrappers
  import opened Names

  newtype Byte = x: int | 0 <= x < 256

  /** What one emit carries: a body chunk (a Buffer) or a string. */
  datatype Payload = Bytes(data: seq<Byte>) | Text(text: string)

  /** Header name/value pairs, in insertion order. */
  type Headers = seq<(string, string)>

  /** The request descriptor shipped, encrypted, with the handshake. */
  datatype ReqPayload = ReqPayload(id: string, verb: string, url: string, headers: Headers)

  /** The response descriptor the peer sends, encrypted, on the headers channel. */
  datatype ResPayload = ResPayload(statusCode: Option<int>, headers: Headers)

  /**
    The crypto adapter. Its two operations are arbitrary total functions:
    nothing is assumed about them, in particular no round trip.
   */
  datatype Crypto = Crypto(encrypt: ReqPayload -> string, decrypt: Payload -> ResPayload)

  /** An inbound event as the socket receives it. */
  datatype Event = Event(name: Name, payload: Payload)
}
