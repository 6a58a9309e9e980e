/** The recording side of the stream: what each read of the microphone yields, the
    chunk the push loop copies out of the scratch buffer, and the sends the loop
    makes, numbered 0, 1, 2, ... whatever their outcome. */
module PushLoop {
  import opened StreamMessages

  /** A negative status code returned by a failed microphone read. */
  type ErrorCode = x: int | x < 0 witness -1

  /** The result of one microphone read: the bytes the device delivered, or an error code. */
  datatype ReadResult = Samples(bytes: Chunk) | ReadError(code: ErrorCode)

  /** One pass of the wall-clock-bounded recording loop: what the read returned, and
      whether the send of the chunk then returned normally. */
  datatype Tick = Tick(read: ReadResult, sendAccepted: bool)

  /** The chunk a read of at most `len` bytes yields when the device has `bytes` ready:
      a read never fills more than the requested length. */
  function Captured(bytes: Chunk, len: nat): (chunk: Chunk)
    ensures |chunk| <= len && chunk <= bytes
    ensures |bytes| <= len ==> chunk == bytes
    ensures |bytes| >= len ==> |chunk| == len
  {
    if |bytes| <= len then bytes else bytes[..len]
  }

  /** The microphone read into the scratch buffer (the device's side of `read`):
      the captured bytes overwrite the front of `buffer`, the rest keeps its old
      contents, and the count is the number of bytes written; a failed read
      returns its negative code and writes nothing. */
  method Read(buffer: array<byte>, result: ReadResult) returns (count: int)
    modifies buffer
    ensures result.ReadError? ==> count == result.code && buffer[..] == old(buffer[..])
    ensures result.Samples? ==>
              count == |Captured(result.bytes, buffer.Length)| &&
              buffer[..count] == Captured(result.bytes, buffer.Length) &&
              buffer[count..] == old(buffer[count..])
  {
    match result
    case ReadError(code) =>
      count := code;
    case Samples(bytes) =>
      var chunk := Captured(bytes, buffer.Length);
      count := |chunk|;
      forall k | 0 <= k < count {
        buffer[k] := chunk[k];
      }
  }

  /** Number of loop passes that read successfully before the first failed read. */
  function Recorded(ticks: seq<Tick>): (n: nat)
    ensures n <= |ticks|
    ensures forall j :: 0 <= j < n ==> ticks[j].read.Samples?
    ensures n < |ticks| ==> ticks[n].read.ReadError?
  {
    if ticks == [] || ticks[0].read.ReadError? then 0 else 1 + Recorded(ticks[1..])
  }

  /** Whether every pass of `ticks` read successfully. */
  predicate AllRead(ticks: seq<Tick>)
  {
    forall j :: 0 <= j < |ticks| ==> ticks[j].read.Samples?
  }

  /** The sends of the push loop for `ticks`, the first numbered `first`, reading into
      a buffer of `len` bytes. */
  function Pushes(streamId: string, first: int, ticks: seq<Tick>, len: nat): seq<Outbound>
    requires AllRead(ticks)
    decreases |ticks|
  {
    if ticks == [] then []
    else
      [Outbound(StreamData(streamId, first, Captured(ticks[0].read.bytes, len)), ticks[0].sendAccepted)]
      + Pushes(streamId, first + 1, ticks[1..], len)
  }

  /** The i-th send of the push loop carries sequence number `first + i` and the
      chunk of the i-th read, and there is exactly one send per pass: the numbers
      are consecutive, with no gap and no repeat. */
  lemma {:induction false} PushesAt(streamId: string, first: int, ticks: seq<Tick>, len: nat, i: nat)
    requires AllRead(ticks) && i < |ticks|
    decreases |ticks|
    ensures |Pushes(streamId, first, ticks, len)| == |ticks|
    ensures Pushes(streamId, first, ticks, len)[i] ==
            Outbound(StreamData(streamId, first + i, Captured(ticks[i].read.bytes, len)), ticks[i].sendAccepted)
  {
    if i == 0 {
      if |ticks| > 1 {
        PushesAt(streamId, first + 1, ticks[1..], len, 0);
      }
    } else {
      PushesAt(streamId, first + 1, ticks[1..], len, i - 1);
    }
  }

  /** Appending a pass appends exactly one send, numbered after all earlier ones. */
  lemma {:induction false} PushesSnoc(streamId: string, first: int, ticks: seq<Tick>, t: Tick, len: nat)
    requires AllRead(ticks) && t.read.Samples?
    decreases |ticks|
    ensures AllRead(ticks + [t])
    ensures Pushes(streamId, first, ticks + [t], len) ==
            Pushes(streamId, first, ticks, len) +
            [Outbound(StreamData(streamId, first + |ticks|, Captured(t.read.bytes, len)), t.sendAccepted)]
  {
    if ticks != [] {
      assert (ticks + [t])[1..] == ticks[1..] + [t];
      PushesSnoc(streamId, first + 1, ticks[1..], t, len);
    }
  }

  /** A failed send does not stop the loop or hold back the counter: the messages
      sent depend only on what was read, never on which sends threw. */
  lemma {:induction false} PushesIgnoreSendOutcome(streamId: string, first: int, ticks: seq<Tick>, other: seq<Tick>, len: nat)
    requires AllRead(ticks) && |other| == |ticks|
    requires forall j :: 0 <= j < |ticks| ==> other[j].read == ticks[j].read
    decreases |ticks|
    ensures AllRead(other)
    ensures Messages(Pushes(streamId, first, ticks, len)) == Messages(Pushes(streamId, first, other, len))
  {
    if ticks != [] {
      PushesIgnoreSendOutcome(streamId, first + 1, ticks[1..], other[1..], len);
    }
  }
}
