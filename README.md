# Device-stream transport of the streaming-audio example

This project models the device-stream transport of the SiteWhere Android streaming-audio
activity (`StreamingAudioExample`) in Dafny. The activity goes through these steps:

1. When the device's registration is acknowledged, it asks the server for a new audio
   stream, unless the registration failed.
2. When the stream is acknowledged, it reads the device's two audio properties. Then it
   records from the microphone for a bounded time and pushes each captured chunk to the
   stream, numbering the chunks 0, 1, 2, …
3. After recording it starts playback. It creates a speaker track and a speaker writer,
   resets its pull counter to 0 and asks for chunk 0.
4. Each non-empty chunk that arrives is queued for the speaker, and the activity asks
   for the next number at once. An empty chunk ends the stream and is ignored.
5. The speaker writer drains its queue in FIFO order into the track. It calls `play`
   only after more than `BUFFER_SIZE_IN_CHUNKS` (7) chunks have been written.

Modules:

- `StreamMessages` (`stream_messages.dfy`): bytes and chunks, Java `int` arithmetic
  with explicit 32-bit wrap-around, the outbound protocol messages, and the record of
  each transport send together with whether it threw.
- `Acks` (`acks.dfy`): the acknowledgement states and the two proceed-or-stop decisions.
- `Setup` (`setup.dfy`): the recording buffer size and the playback track capacity.
- `PushLoop` (`push_loop.dfy`): microphone reads, the chunk copied out of the scratch
  buffer, and the specification `Pushes` of the sends the recording loop makes.
- `PullLoop` (`pull_loop.dfy`): the specification `Receive`/`ReceiveAll` of the pull
  side (counter, queue, requests) and its properties.
- `Speaker` (`speaker.dfy`): the track as the list of `write`/`play` calls made on it,
  the speaker writer as a class with its queue, and the specification `Playback` of
  what the writer does to the track.
- `StreamingAudio` (`streaming_audio.dfy`): the activity as a class whose handlers
  update its fields in place and are proved against the specifications above, plus
  end-to-end lemmas.

Every call of a transport send is recorded in the activity's `sent` field as
`Outbound(msg, accepted)`. `accepted == false` stands for the send throwing
`SiteWhereMessagingException`. The environment supplies the outcome of each send, the
result of each microphone read (one `Tick` per pass of the wall-clock loop) and the two
audio properties.

Behaviour of the code worth noting:

- Playback starts on the 8th chunk written: the test is `seq > 7`, made after the
  counter has been incremented (StreamingAudioExample.java:430-435).
- A pull request whose send throws is not retried; the counter has already advanced
  (StreamingAudioExample.java:389-397).
- An empty chunk is simply ignored: no request follows it and nothing else changes
  (StreamingAudioExample.java:386-398).
- A non-empty chunk that arrives before the first playback start throws a
  `NullPointerException` on the missing speaker writer, before counting or requesting
  anything (StreamingAudioExample.java:389).
- A failed stream-create send is only logged (StreamingAudioExample.java:264-269).

## Model

| member | source | states |
|---|---|---|
| `Acks.CreatesStream` | StreamingAudioExample/src/com/sitewhere/android/streaming/example/StreamingAudioExample.java:239-257 | stream creation proceeds exactly for `ALREADY_REGISTERED` and `NEW_REGISTRATION`, never for `REGISTRATION_ERROR` |
| `Acks.StartsStreaming` | StreamingAudioExample/src/com/sitewhere/android/streaming/example/StreamingAudioExample.java:280-298 | streaming proceeds exactly for `STREAM_CREATED` and `STREAM_EXISTS`, never for `STREAM_FAILED` |
| `StreamingAudio.StreamingAudioExample.HandleRegistrationAck` | StreamingAudioExample/src/com/sitewhere/android/streaming/example/StreamingAudioExample.java:239-257 | one stream-create request (fresh id, content type `audio/L16`) is sent iff `CreatesStream(state)`, and nothing else is sent |
| `StreamingAudio.StreamingAudioExample.CreateStream` | StreamingAudioExample/src/com/sitewhere/android/streaming/example/StreamingAudioExample.java:263-270 | exactly one stream-create send; a throwing send changes nothing else |
| `StreamingAudio.StreamingAudioExample.HandleDeviceStreamAck` | StreamingAudioExample/src/com/sitewhere/android/streaming/example/StreamingAudioExample.java:280-299 | a failed ack changes nothing; any other ack streams under the ack's own `streamId`, with the full effect `Streamed` |
| `StreamingAudio.StreamingAudioExample.StartStreaming` | StreamingAudioExample/src/com/sitewhere/android/streaming/example/StreamingAudioExample.java:306-355 | missing sample rate: nothing changes; missing frames-per-buffer: only `sampleRate` is set; negative `bufferSize`: no send; otherwise the sends are `Pushes` of the successful reads, then playback starts, unless a read failed first |
| `StreamingAudio.StreamingAudioExample.PushChunks` | StreamingAudioExample/src/com/sitewhere/android/streaming/example/StreamingAudioExample.java:336-348 | the loop sends exactly `Pushes(streamId, 0, …)` of the passes before the first failed read, and completes iff no read failed |
| `PushLoop.Read` | StreamingAudioExample/src/com/sitewhere/android/streaming/example/StreamingAudioExample.java:339 | a read overwrites only the front of the scratch buffer with at most its length in bytes and returns that count, or returns a negative code and writes nothing |
| `PushLoop.Captured` | StreamingAudioExample/src/com/sitewhere/android/streaming/example/StreamingAudioExample.java:339-341 | the chunk copied out is a prefix of what the device delivered, no longer than the buffer, and all of it when it fits |
| `PushLoop.Recorded` | StreamingAudioExample/src/com/sitewhere/android/streaming/example/StreamingAudioExample.java:338-341 | the number of passes before the first failed read: all earlier reads succeeded and the next one (if any) failed |
| `PushLoop.PushesAt` | StreamingAudioExample/src/com/sitewhere/android/streaming/example/StreamingAudioExample.java:337-347 | one send per pass; the i-th send carries sequence number `first + i` and the i-th captured chunk |
| `PushLoop.PushesSnoc` | StreamingAudioExample/src/com/sitewhere/android/streaming/example/StreamingAudioExample.java:338-348 | one more pass appends exactly one send, numbered after all earlier sends |
| `PushLoop.PushesIgnoreSendOutcome` | StreamingAudioExample/src/com/sitewhere/android/streaming/example/StreamingAudioExample.java:342-347 | the messages sent depend only on what was read: a throwing send neither stops the loop nor holds back the counter |
| `StreamingAudio.PushedInOrder` | StreamingAudioExample/src/com/sitewhere/android/streaming/example/StreamingAudioExample.java:337-343 | the pushed sequence numbers are exactly 0, 1, …, n-1 for the acknowledged stream, and no payload is longer than the buffer |
| `Setup.BufferSize` | StreamingAudioExample/src/com/sitewhere/android/streaming/example/StreamingAudioExample.java:320-324 | `bufferSize` is frames-per-buffer times 16 modulo 2^32 as a Java `int`, and the plain product whenever that fits |
| `Setup.PlaybackCapacity` | StreamingAudioExample/src/com/sitewhere/android/streaming/example/StreamingAudioExample.java:363-364 | the track capacity is `bufferSize * 7` modulo 2^32 as a Java `int`, and the plain product whenever that fits |
| `Setup.SizesWithoutWrap` | StreamingAudioExample/src/com/sitewhere/android/streaming/example/StreamingAudioExample.java:324-364 | for frames-per-buffer up to 19173961, `bufferSize` is 16 times it and the capacity is 112 times it, i.e. seven buffers |
| `Setup.BufferSizeWrapsNegative` | StreamingAudioExample/src/com/sitewhere/android/streaming/example/StreamingAudioExample.java:324-328 | for every Java `int` frames-per-buffer value, `bufferSize` wraps negative (so the buffer allocation fails) exactly when the value modulo 2^28 is at least 2^27 |
| `StreamingAudio.StreamingAudioExample.StartPlayback` | StreamingAudioExample/src/com/sitewhere/android/streaming/example/StreamingAudioExample.java:362-374 | a fresh track (sample rate, seven-buffer capacity) and a fresh empty writer over it, counter 0, and one request for chunk 0 |
| `PullLoop.BeginAwaitsZero` | StreamingAudioExample/src/com/sitewhere/android/streaming/example/StreamingAudioExample.java:365-370 | after playback starts, the counter is 0 and the last send is the request for chunk 0 |
| `StreamingAudio.StreamingAudioExample.HandleReceivedDeviceStreamData` | StreamingAudioExample/src/com/sitewhere/android/streaming/example/StreamingAudioExample.java:385-398 | with a speaker writer, counter, queue and sends change exactly as `Receive` says and the writer's own counter is untouched; without one, a non-empty chunk throws (`threw`) and an empty one is ignored, both changing nothing |
| `PullLoop.ReceiveAllNonEmpty` | StreamingAudioExample/src/com/sitewhere/android/streaming/example/StreamingAudioExample.java:387-397 | data-carrying arrivals are queued in order; the counter rises by one each; arrival i is followed by exactly one request, for `start + 1 + i`, whether or not an earlier send threw |
| `PullLoop.EmptyArrivalsIgnored` | StreamingAudioExample/src/com/sitewhere/android/streaming/example/StreamingAudioExample.java:386-398 | empty arrivals change neither counter, queue nor sends: the outcome is that of the data-carrying arrivals alone |
| `PullLoop.ReceiveAllKeepsAwaiting` | StreamingAudioExample/src/com/sitewhere/android/streaming/example/StreamingAudioExample.java:389-394 | whatever arrives, the most recent request is always for the current counter value |
| `PullLoop.ReceiveAllExtends` | StreamingAudioExample/src/com/sitewhere/android/streaming/example/StreamingAudioExample.java:385-398 | arrivals only append to the queue and the sends, and the counter never decreases |
| `PullLoop.RequestsAreConsecutive` | StreamingAudioExample/src/com/sitewhere/android/streaming/example/StreamingAudioExample.java:365-398 | after playback starts, for any mix of data-carrying and empty arrivals, the pull side appends one request per data-carrying arrival plus the initial one, and the k-th of them asks for number k: none is requested twice or skipped |
| `PullLoop.DrainStream` | StreamingAudioExample/src/com/sitewhere/android/streaming/example/StreamingAudioExample.java:365-398 | against a server that answers request k with stored chunk k and then with an empty chunk: the queue holds the stored chunks in order, the counter is n, earlier sends are kept and are followed by the request for 0 and then for 1..n only, and the final empty answer sends nothing, so n + 1 is never requested |
| `Speaker.SpeakerWriter.AddData` | StreamingAudioExample/src/com/sitewhere/android/streaming/example/StreamingAudioExample.java:414-421 | the chunk is appended at the tail; the sequence number argument is not stored |
| `Speaker.SpeakerWriter.Step` | StreamingAudioExample/src/com/sitewhere/android/streaming/example/StreamingAudioExample.java:426-435 | one pass takes the head chunk, writes it, and calls `play` iff the new count exceeds 7; on an empty queue nothing happens |
| `Speaker.SpeakerWriter.Run` | StreamingAudioExample/src/com/sitewhere/android/streaming/example/StreamingAudioExample.java:424-440 | bounded passes drain the queue from the head, and the track receives `Playback` of the taken chunks |
| `Speaker.PlaybackSnoc` | StreamingAudioExample/src/com/sitewhere/android/streaming/example/StreamingAudioExample.java:430-435 | the k-th chunk's write is followed by `play` exactly when k > 7 |
| `Speaker.PlaybackWritesInOrder` | StreamingAudioExample/src/com/sitewhere/android/streaming/example/StreamingAudioExample.java:428-429 | FIFO: the track is written exactly the chunks taken, in queue order |
| `Speaker.PlaybackPlayCount` | StreamingAudioExample/src/com/sitewhere/android/streaming/example/StreamingAudioExample.java:433-435 | a fresh writer calls `play` zero times for its first 7 chunks and once per chunk after that |
| `StreamingAudio.ArrivalsPlayedInOrder` | StreamingAudioExample/src/com/sitewhere/android/streaming/example/StreamingAudioExample.java:389-434 | the non-empty chunks that arrive after playback starts reach the track in arrival order; `play` is called max(0, n - 7) times |

## Left out

- Preference and wizard wiring (`onCreate`, `initConnectivityWizard`, `onWizardComplete`), menus, `onDestroy`, connection callbacks and the service-class getters. These are platform plumbing with no stream logic.
- `changeBackground`: UI colour parsing plus an acknowledgement send, unrelated to the stream.
- The map/sensor example fragment, the messaging exception class and the preferences constant. The exception appears only as the `accepted == false` outcome of a send.
- The protobuf/MQTT sends and receives of the activity's superclass, which is not part of this model. Sends are opaque calls whose outcome comes from the environment. The device id every send carries is constant and is not modelled.
- Creating, starting and releasing `AudioRecord`. A read is a given `ReadResult`. A device-side failure of the `AudioRecord` or `AudioTrack` constructor (for example a zero buffer size) is not modelled.
- The 10-second wall-clock bound. It becomes a finite list of loop passes (`Tick`s).
- `UUID.randomUUID()`: the fresh stream id is a parameter.
- `Integer.parseInt`: properties arrive already parsed as Java `int`s. A non-numeric property, which would throw `NumberFormatException`, is not modelled.
- Java `long` overflow of `seqNum`, `sequenceNumber` and the writer's counter after 2^63 chunks: these counters are unbounded integers in the model.
- Concurrency. This covers the executor thread, the blocking and interruption of `put`/`take` on the `LinkedBlockingDeque`, and the interleaving of the receive callback with the writer's loop. The writer's infinite loop is modelled one pass at a time (`Step`) or as a bounded number of passes (`Run`). A `take` on an empty queue is a pass that does nothing.
- The writer reads the activity's `speaker` field on every pass. A second `startPlayback` would redirect an older writer to the new track. The model gives each writer a fixed track instead.
- The number of bytes `AudioTrack.write` reports, which is only logged, and all logging.
