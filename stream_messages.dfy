/** Values shared by the whole stream transport: bytes and chunks, Java's 32-bit
    `int` arithmetic, the messages the activity hands to the messaging transport,
    and the record of each send together with whether it threw. */
module StreamMessages {

  /** A Java `byte`, taken as its unsigned value; payloads are only copied, never interpreted. */
  newtype byte = x: int | 0 <= x < 256

  /** One audio chunk: the payload of a stream-data message. */
  type Chunk = seq<byte>

  const TwoTo31: int := 0x8000_0000
  const TwoTo32: int := 0x1_0000_0000

  /** Java `int`. */
  newtype int32 = x: int | -0x8000_0000 <= x < 0x8000_0000

  /** The value a Java `int` expression whose mathematical value is `x` evaluates to:
      two's-complement wrap-around modulo 2^32. */
  function Wrap32(x: int): (r: int32)
    ensures (r as int - x) % TwoTo32 == 0
    ensures -TwoTo31 <= x < TwoTo31 ==> r as int == x
  {
    var m := x % TwoTo32;
    if m < TwoTo31 then m as int32 else (m - TwoTo32) as int32
  }

  /** The content type every stream of the activity is created with. */
  const ContentType: string := "audio/L16"

  /** The outbound messages of the device-stream protocol. The device id that every
      send also carries is the same for the whole session and is not modelled. */
  datatype Message =
    | StreamCreate(streamId: string, contentType: string)
    | StreamData(streamId: string, sequenceNumber: int, data: Chunk)
    | StreamDataRequest(streamId: string, sequenceNumber: int)

  /** One call of a transport send: the message, and whether the call returned
      normally (`accepted`) or threw a messaging exception. */
  datatype Outbound = Outbound(msg: Message, accepted: bool)

  /** The messages of a send record, whatever their outcome. */
  function Messages(log: seq<Outbound>): (ms: seq<Message>)
    ensures |ms| == |log|
    ensures forall i :: 0 <= i < |log| ==> ms[i] == log[i].msg
  {
    seq(|log|, i requires 0 <= i < |log| => log[i].msg)
  }
}
