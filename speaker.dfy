/** The playback side: the speaker track, seen as the sequence of calls made on it,
    and the writer that hands queued chunks to it, holding back `play` until more
    than `BufferSizeInChunks` chunks have been written. */
module Speaker {
  import opened StreamMessages
  import opened Setup

  /** A call made on the playback track. */
  datatype TrackEvent = Write(chunk: Chunk) | Play

  /** The calls the writer makes on the track for the chunks `cs`, taken in order,
      when `taken` chunks have already been written. */
  function Playback(taken: int, cs: seq<Chunk>): seq<TrackEvent>
    decreases |cs|
  {
    if cs == [] then []
    else
      [Write(cs[0])] + (if taken + 1 > BufferSizeInChunks then [Play] else [])
      + Playback(taken + 1, cs[1..])
  }

  /** The chunks written to the track, in the order of the calls. */
  function Written(events: seq<TrackEvent>): (cs: seq<Chunk>)
    ensures |cs| <= |events|
  {
    if events == [] then []
    else (if events[0].Write? then [events[0].chunk] else []) + Written(events[1..])
  }

  /** The number of `play` calls among the events. */
  function PlayCount(events: seq<TrackEvent>): (n: nat)
    ensures n <= |events|
  {
    if events == [] then 0
    else (if events[0].Play? then 1 else 0) + PlayCount(events[1..])
  }

  lemma {:induction false} WrittenAppend(a: seq<TrackEvent>, b: seq<TrackEvent>)
    ensures Written(a + b) == Written(a) + Written(b)
    ensures PlayCount(a + b) == PlayCount(a) + PlayCount(b)
  {
    if a != [] {
      assert (a + b)[1..] == a[1..] + b;
      WrittenAppend(a[1..], b);
    } else {
      assert a + b == b;
    }
  }

  /** Warm-up gate, one chunk at a time: writing one more chunk appends its write,
      followed by `play` exactly when it is the chunk numbered above
      `BufferSizeInChunks` (the 8th onwards when counting from a fresh writer). */
  lemma {:induction false} PlaybackSnoc(taken: int, cs: seq<Chunk>, c: Chunk)
    decreases |cs|
    ensures Playback(taken, cs + [c]) ==
            Playback(taken, cs) + [Write(c)]
            + (if taken + |cs| + 1 > BufferSizeInChunks then [Play] else [])
  {
    if cs != [] {
      assert (cs + [c])[1..] == cs[1..] + [c];
      PlaybackSnoc(taken + 1, cs[1..], c);
    }
  }

  /** FIFO: the track receives exactly the chunks taken, in the order they were taken. */
  lemma {:induction false} PlaybackWritesInOrder(taken: int, cs: seq<Chunk>)
    decreases |cs|
    ensures Written(Playback(taken, cs)) == cs
  {
    if cs != [] {
      var head := [Write(cs[0])] + (if taken + 1 > BufferSizeInChunks then [Play] else []);
      WrittenAppend(head, Playback(taken + 1, cs[1..]));
      WrittenAppend([Write(cs[0])], if taken + 1 > BufferSizeInChunks then [Play] else []);
      PlaybackWritesInOrder(taken + 1, cs[1..]);
    }
  }

  /** Warm-up gate, overall: after writing `cs` on top of `taken` earlier chunks, the
      writer has called `play` once for each chunk numbered above `BufferSizeInChunks`
      and for no other; a fresh writer (`taken` 0) plays nothing for its first seven. */
  lemma {:induction false} PlaybackPlayCount(taken: nat, cs: seq<Chunk>)
    decreases |cs|
    ensures PlayCount(Playback(taken, cs)) ==
            (if taken + |cs| <= BufferSizeInChunks then 0
             else if taken >= BufferSizeInChunks then |cs|
             else taken + |cs| - BufferSizeInChunks)
  {
    if cs != [] {
      var head := [Write(cs[0])] + (if taken + 1 > BufferSizeInChunks then [Play] else []);
      WrittenAppend(head, Playback(taken + 1, cs[1..]));
      WrittenAppend([Write(cs[0])], if taken + 1 > BufferSizeInChunks then [Play] else []);
      PlaybackPlayCount(taken + 1, cs[1..]);
    }
  }

  /** The speaker track: a device, recorded as the calls made on it. */
  class AudioTrack {
    const sampleRate: int32
    const capacity: int32
    var events: seq<TrackEvent>

    constructor (sampleRate: int32, capacity: int32)
      ensures this.sampleRate == sampleRate && this.capacity == capacity
      ensures events == []
    {
      this.sampleRate := sampleRate;
      this.capacity := capacity;
      events := [];
    }

    /** `write(chunk, 0, chunk.length)`. */
    method Write(chunk: Chunk)
      modifies this
      ensures events == old(events) + [TrackEvent.Write(chunk)]
    {
      events := events + [TrackEvent.Write(chunk)];
    }

    /** `play()`. */
    method Play()
      modifies this
      ensures events == old(events) + [TrackEvent.Play]
    {
      events := events + [TrackEvent.Play];
    }
  }

  /** The speaker writer: a FIFO of chunks filled by the receive path and drained into
      the track by the writer's loop. `taken` is the loop's own counter of chunks
      written so far, kept here because the loop is run one pass at a time. */
  class SpeakerWriter {
    var chunks: seq<Chunk>
    var taken: nat
    const speaker: AudioTrack

    constructor (speaker: AudioTrack)
      ensures this.speaker == speaker
      ensures chunks == [] && taken == 0
    {
      this.speaker := speaker;
      chunks := [];
      taken := 0;
    }

    /** `addData(seq, data)`: appends the chunk at the tail; `seq` is only logged. */
    method AddData(seqNo: int, data: Chunk)
      modifies this`chunks
      ensures chunks == old(chunks) + [data]
    {
      chunks := chunks + [data];
    }

    /** One pass of the writer's loop: take the head chunk, write it to the track,
        count it, and call `play` once more than `BufferSizeInChunks` chunks have been
        written. On an empty queue the take blocks: nothing happens and `took` is false. */
    method Step() returns (took: bool)
      modifies this, speaker
      ensures took == (old(chunks) != [])
      ensures took ==> chunks == old(chunks)[1..] && taken == old(taken) + 1
      ensures took ==> speaker.events == old(speaker.events) + [Write(old(chunks)[0])]
                       + (if taken > BufferSizeInChunks then [Play] else [])
      ensures !took ==> chunks == old(chunks) && taken == old(taken)
                        && speaker.events == old(speaker.events)
    {
      if chunks == [] {
        return false;
      }
      var chunk := chunks[0];
      chunks := chunks[1..];
      speaker.Write(chunk);
      taken := taken + 1;
      if taken > BufferSizeInChunks {
        speaker.Play();
      }
      took := true;
    }

    /** At most `passes` passes of the writer's loop, stopping where the take would
        block. The track receives the taken chunks in queue order, with `play` after
        each one numbered above `BufferSizeInChunks`. */
    method Run(passes: nat) returns (ran: nat)
      modifies this, speaker
      ensures ran <= passes && ran <= |old(chunks)|
      ensures ran < passes ==> ran == |old(chunks)|
      ensures chunks == old(chunks)[ran..] && taken == old(taken) + ran
      ensures speaker.events == old(speaker.events) + Playback(old(taken), old(chunks)[..ran])
    {
      ran := 0;
      while ran < passes && chunks != []
        invariant ran <= passes && ran <= |old(chunks)|
        invariant chunks == old(chunks)[ran..] && taken == old(taken) + ran
        invariant speaker.events == old(speaker.events) + Playback(old(taken), old(chunks)[..ran])
      {
        var c := chunks[0];
        var took := Step();
        PlaybackSnoc(old(taken), old(chunks)[..ran], c);
        assert old(chunks)[..ran + 1] == old(chunks)[..ran] + [c];
        ran := ran + 1;
      }
    }
  }
}
