/** The streaming-audio activity: it reacts to the registration acknowledgement by
    asking for a stream, to the stream acknowledgement by recording and pushing
    chunks, then starts playback and pulls the chunks back one by one into the
    speaker writer. */
module StreamingAudio {
  import opened StreamMessages
  import opened Acks
  import opened Setup
  import opened PushLoop
  import opened PullLoop
  import opened Speaker

  /** What the device and the transport supply to one streaming run: the two audio
      properties (absent when the device does not report them), the passes of the
      wall-clock-bounded recording loop, and the outcome of the send that asks for
      chunk 0 when playback starts. */
  datatype Environment = Environment(
    sampleRateProperty: Option,
    framesPerBufferProperty: Option,
    ticks: seq<Tick>,
    firstRequestAccepted: bool)

  /** A device property, already parsed to a Java `int`, or missing. */
  datatype Option = None | Some(value: int32)

  /** How a stream acknowledgement's handling ends. */
  datatype Exit =
    | Ignored            // the acknowledgement reported failure
    | MissingProperty    // an audio property was missing: returned before recording
    | NegativeArraySize  // a negative buffer size or read count: the allocation threw
    | PlaybackStarted    // recorded, pushed, and started pulling for playback

  class StreamingAudioExample {
    var sampleRate: int32
    var bufferSize: int32
    var speaker: AudioTrack?
    var sequenceNumber: int
    var buffer: SpeakerWriter?
    /** Every call made on the transport's send operations, in order, with its outcome. */
    var sent: seq<Outbound>

    constructor ()
      ensures sampleRate == 0 && bufferSize == 0 && sequenceNumber == 0
      ensures speaker == null && buffer == null && sent == []
    {
      sampleRate, bufferSize, sequenceNumber := 0, 0, 0;
      speaker, buffer := null, null;
      sent := [];
    }

    /** The pull side's state, as the pull specification sees it. */
    ghost function PullView(): PullState
      reads this, buffer
      requires buffer != null
    {
      PullState(sequenceNumber, buffer.chunks, sent)
    }

    /** The speaker, the writer and the pull counter are untouched. */
    twostate predicate PlaybackUnchanged()
      reads this
    {
      speaker == old(speaker) && buffer == old(buffer) && sequenceNumber == old(sequenceNumber)
    }

    /** The full effect of streaming for `streamId` in `env`, ending with `exit`. */
    twostate predicate Streamed(streamId: string, env: Environment, exit: Exit)
      reads this, speaker, buffer
    {
      match env.sampleRateProperty
      case None =>
        exit == MissingProperty && unchanged(this)
      case Some(rate) =>
        sampleRate == rate &&
        match env.framesPerBufferProperty
        case None =>
          exit == MissingProperty && bufferSize == old(bufferSize) && sent == old(sent)
          && PlaybackUnchanged()
        case Some(frames) =>
          bufferSize == BufferSize(frames) &&
          if bufferSize < 0 then
            exit == NegativeArraySize && sent == old(sent) && PlaybackUnchanged()
          else
            var n := Recorded(env.ticks);
            var pushes := Pushes(streamId, 0, env.ticks[..n], bufferSize as nat);
            if n < |env.ticks| then
              exit == NegativeArraySize && sent == old(sent) + pushes && PlaybackUnchanged()
            else
              exit == PlaybackStarted
              && sent == old(sent) + pushes + [Outbound(StreamDataRequest(streamId, 0), env.firstRequestAccepted)]
              && sequenceNumber == 0
              && speaker != null && fresh(speaker) && buffer != null && fresh(buffer)
              && speaker.sampleRate == rate && speaker.capacity == PlaybackCapacity(bufferSize)
              && speaker.events == [] && buffer.speaker == speaker
              && buffer.chunks == [] && buffer.taken == 0
    }

    /** A call of one of the transport's send operations. */
    method Send(msg: Message, accepted: bool)
      modifies this`sent
      ensures sent == old(sent) + [Outbound(msg, accepted)]
    {
      sent := sent + [Outbound(msg, accepted)];
    }

    /** `handleRegistrationAck`: request a stream, named `newStreamId`, unless the
        registration failed. */
    method HandleRegistrationAck(state: RegistrationAckState, newStreamId: string, accepted: bool)
      modifies this`sent
      ensures sent == old(sent) +
                      (if CreatesStream(state) then [Outbound(StreamCreate(newStreamId, ContentType), accepted)]
                       else [])
    {
      if state != RegistrationError {
        CreateStream(newStreamId, accepted);
      }
    }

    /** `createStream`: a stream-create request for a fresh id; a failed send is only logged. */
    method CreateStream(newStreamId: string, accepted: bool)
      modifies this`sent
      ensures sent == old(sent) + [Outbound(StreamCreate(newStreamId, ContentType), accepted)]
    {
      Send(StreamCreate(newStreamId, ContentType), accepted);
    }

    /** `handleDeviceStreamAck`: stream under the acknowledged id unless creation failed. */
    method HandleDeviceStreamAck(ack: DeviceStreamAck, env: Environment) returns (exit: Exit)
      modifies this
      ensures !StartsStreaming(ack.state) ==> exit == Ignored && unchanged(this)
      ensures StartsStreaming(ack.state) ==> Streamed(ack.streamId, env, exit)
    {
      if ack.state != StreamFailed {
        exit := StartStreaming(ack.streamId, env);
      } else {
        exit := Ignored;
      }
    }

    /** `startStreaming`: read the audio properties, record and push one chunk per pass
        of the recording loop, numbered from 0, then start playback. */
    method StartStreaming(streamId: string, env: Environment) returns (exit: Exit)
      modifies this
      ensures Streamed(streamId, env, exit)
    {
      if env.sampleRateProperty.None? {
        return MissingProperty;
      }
      sampleRate := env.sampleRateProperty.value;
      if env.framesPerBufferProperty.None? {
        return MissingProperty;
      }
      bufferSize := BufferSize(env.framesPerBufferProperty.value);
      if bufferSize < 0 {
        return NegativeArraySize;
      }
      var scratch := new byte[bufferSize as int];
      // The recorder is created and started here and released after the loop;
      // those device calls are not part of this model.
      var completed := PushChunks(streamId, scratch, env.ticks);
      if !completed {
        return NegativeArraySize;
      }
      StartPlayback(streamId, env.firstRequestAccepted);
      exit := PlaybackStarted;
    }

    /** The recording loop of `startStreaming`: per pass, read into the scratch buffer,
        copy the bytes read into a chunk of their own and push it under the next
        sequence number, counting the chunk whether or not its send threw. A negative
        read count makes the chunk allocation throw, ending the loop (`completed` false). */
    method PushChunks(streamId: string, scratch: array<byte>, ticks: seq<Tick>) returns (completed: bool)
      modifies this`sent, scratch
      ensures completed == (Recorded(ticks) == |ticks|)
      ensures sent == old(sent) + Pushes(streamId, 0, ticks[..Recorded(ticks)], scratch.Length)
    {
      var seqNum := 0;
      var i := 0;
      while i < |ticks|
        invariant 0 <= i <= |ticks| && i <= Recorded(ticks)
        invariant seqNum == i
        invariant sent == old(sent) + Pushes(streamId, 0, ticks[..i], scratch.Length)
      {
        var chunkSize := Read(scratch, ticks[i].read);
        if chunkSize < 0 {
          return false;
        }
        var chunk := new byte[chunkSize];
        forall k | 0 <= k < chunkSize {
          chunk[k] := scratch[k];
        }
        assert chunk[..] == Captured(ticks[i].read.bytes, scratch.Length) by {
          assert chunk[..] == scratch[..chunkSize];
        }
        Send(StreamData(streamId, seqNum, chunk[..]), ticks[i].sendAccepted);
        PushesSnoc(streamId, 0, ticks[..i], ticks[i], scratch.Length);
        assert ticks[..i + 1] == ticks[..i] + [ticks[i]];
        seqNum := seqNum + 1;
        i := i + 1;
      }
      assert ticks[..i] == ticks;
      completed := true;
    }

    /** `startPlayback`: a new track holding seven buffers, a new writer over it,
        the counter reset to 0, and a request for chunk 0. */
    method StartPlayback(streamId: string, accepted: bool)
      modifies this
      ensures sampleRate == old(sampleRate) && bufferSize == old(bufferSize)
      ensures sequenceNumber == 0
      ensures sent == old(sent) + [Outbound(StreamDataRequest(streamId, 0), accepted)]
      ensures speaker != null && fresh(speaker) && buffer != null && fresh(buffer)
      ensures speaker.sampleRate == sampleRate && speaker.capacity == PlaybackCapacity(bufferSize)
      ensures speaker.events == [] && buffer.speaker == speaker
      ensures buffer.chunks == [] && buffer.taken == 0
      ensures PullView() == Begin(old(sent), streamId, accepted)
    {
      speaker := new AudioTrack(sampleRate, PlaybackCapacity(bufferSize));
      sequenceNumber := 0;
      buffer := new SpeakerWriter(speaker);
      Send(StreamDataRequest(streamId, sequenceNumber), accepted);
    }

    /** `handleReceivedDeviceStreamData`: queue a non-empty chunk and ask for the next
        number at once; an empty chunk changes nothing. Before the first playback start
        there is no writer: a non-empty chunk then dereferences the missing writer and
        the handler throws (`threw`) before counting or requesting anything. */
    method HandleReceivedDeviceStreamData(data: DeviceStreamData, accepted: bool) returns (threw: bool)
      modifies this`sequenceNumber, this`sent, buffer
      ensures threw <==> (buffer == null && |data.data| > 0)
      ensures buffer != null ==> PullView() == Receive(old(PullView()), Delivery(data, accepted))
      ensures buffer != null ==> buffer.taken == old(buffer.taken)
      ensures buffer == null ==> sequenceNumber == old(sequenceNumber) && sent == old(sent)
    {
      var chunk := data.data;
      if |chunk| > 0 {
        if buffer == null {
          return true;
        }
        buffer.AddData(sequenceNumber, chunk);
        sequenceNumber := sequenceNumber + 1;
        Send(StreamDataRequest(data.streamId, sequenceNumber), accepted);
      }
      threw := false;
    }
  }

  /** Every chunk a run pushes belongs to the acknowledged stream and is numbered by
      its position in the run, so the numbers the transport sees are 0, 1, 2, ...,
      and each payload is the front of the scratch buffer the read just filled. */
  lemma {:induction false} PushedInOrder(streamId: string, ticks: seq<Tick>, len: nat)
    requires AllRead(ticks)
    ensures |Pushes(streamId, 0, ticks, len)| == |ticks|
    ensures forall i :: 0 <= i < |ticks| ==>
              Pushes(streamId, 0, ticks, len)[i].msg.StreamData? &&
              Pushes(streamId, 0, ticks, len)[i].msg.sequenceNumber == i &&
              Pushes(streamId, 0, ticks, len)[i].msg.streamId == streamId &&
              |Pushes(streamId, 0, ticks, len)[i].msg.data| <= len
  {
    if ticks == [] {
      assert Pushes(streamId, 0, ticks, len) == [];
    } else {
      PushesAt(streamId, 0, ticks, len, 0);
    }
    forall i | 0 <= i < |ticks|
      ensures Pushes(streamId, 0, ticks, len)[i].msg.StreamData?
      ensures Pushes(streamId, 0, ticks, len)[i].msg.sequenceNumber == i
      ensures Pushes(streamId, 0, ticks, len)[i].msg.streamId == streamId
      ensures |Pushes(streamId, 0, ticks, len)[i].msg.data| <= len
    {
      PushesAt(streamId, 0, ticks, len, i);
    }
  }

  /** From the receive path to the loudspeaker: the chunks that arrive after playback
      starts reach the track in arrival order, empty arrivals contributing nothing,
      and when the writer has drained them all the track has been told to play once
      per chunk after the seventh. */
  lemma ArrivalsPlayedInOrder(sent: seq<Outbound>, streamId: string, accepted: bool, ds: seq<Delivery>)
    ensures Written(Playback(0, ReceiveAll(Begin(sent, streamId, accepted), ds).queued))
            == Payloads(NonEmpty(ds))
    ensures PlayCount(Playback(0, ReceiveAll(Begin(sent, streamId, accepted), ds).queued))
            == if |NonEmpty(ds)| <= BufferSizeInChunks then 0 else |NonEmpty(ds)| - BufferSizeInChunks
  {
    var b := Begin(sent, streamId, accepted);
    EmptyArrivalsIgnored(b, ds);
    ReceiveAllNonEmpty(b, NonEmpty(ds));
    var q := ReceiveAll(b, ds).queued;
    assert q == Payloads(NonEmpty(ds));
    PlaybackWritesInOrder(0, q);
    PlaybackPlayCount(0, q);
  }
}
