/** The two acknowledgement handlers' proceed-or-stop decisions. */
module Acks {

  /** Outcome reported by the server for a device registration. */
  datatype RegistrationAckState = AlreadyRegistered | NewRegistration | RegistrationError

  /** Outcome reported by the server for a stream-create request. */
  datatype DeviceStreamAckState = StreamCreated | StreamExists | StreamFailed

  /** Stream-create acknowledgement: the stream it is about and the outcome. */
  datatype DeviceStreamAck = DeviceStreamAck(streamId: string, state: DeviceStreamAckState)

  /** Whether a registration acknowledgement makes the activity request a new stream:
      both a fresh and an existing registration proceed, an error does not. */
  function CreatesStream(state: RegistrationAckState): (proceed: bool)
    ensures proceed <==> state in {AlreadyRegistered, NewRegistration}
    ensures !proceed <==> state.RegistrationError?
  {
    state != RegistrationError
  }

  /** Whether a stream-create acknowledgement makes the activity start streaming:
      a newly created and an already existing stream proceed, a failure does not. */
  function StartsStreaming(state: DeviceStreamAckState): (proceed: bool)
    ensures proceed <==> state in {StreamCreated, StreamExists}
    ensures !proceed <==> state.StreamFailed?
  {
    state != StreamFailed
  }
}
