/** The pull side of the stream: after playback starts, the activity asks for chunk 0;
    every non-empty chunk that arrives is queued for the speaker and the next number
    is asked for at once; an empty chunk is the end of the stream and is ignored. */
module PullLoop {
  import opened StreamMessages

  /** Stream data delivered by the transport. */
  datatype DeviceStreamData = DeviceStreamData(streamId: string, data: Chunk)

  /** One arrival of stream data, with the outcome of the request send that the
      handler makes after it (unused when the handler sends nothing). */
  datatype Delivery = Delivery(response: DeviceStreamData, requestAccepted: bool)

  /** What the pull side changes: the activity's `sequenceNumber`, the speaker
      writer's queue and the record of sends. */
  datatype PullState = PullState(sequenceNumber: int, queued: seq<Chunk>, sent: seq<Outbound>)

  /** The state right after playback starts: counter 0, an empty queue, and a
      request for chunk 0 appended to the sends. */
  function Begin(sent: seq<Outbound>, streamId: string, accepted: bool): PullState
  {
    PullState(0, [], sent + [Outbound(StreamDataRequest(streamId, 0), accepted)])
  }

  /** The handler's effect for one arrival. */
  function Receive(s: PullState, d: Delivery): PullState
  {
    if |d.response.data| > 0 then
      var next := s.sequenceNumber + 1;
      PullState(next, s.queued + [d.response.data],
                s.sent + [Outbound(StreamDataRequest(d.response.streamId, next), d.requestAccepted)])
    else
      s
  }

  /** The handler's effect for a series of arrivals, in arrival order. */
  function ReceiveAll(s: PullState, ds: seq<Delivery>): PullState
    decreases |ds|
  {
    if ds == [] then s else ReceiveAll(Receive(s, ds[0]), ds[1..])
  }

  /** The arrivals that carry data. */
  function NonEmpty(ds: seq<Delivery>): (r: seq<Delivery>)
    ensures |r| <= |ds|
    ensures forall i :: 0 <= i < |r| ==> |r[i].response.data| > 0
    ensures forall d :: d in r <==> d in ds && |d.response.data| > 0
  {
    if ds == [] then []
    else (if |ds[0].response.data| > 0 then [ds[0]] else []) + NonEmpty(ds[1..])
  }

  /** The payloads of a series of arrivals. */
  function Payloads(ds: seq<Delivery>): (cs: seq<Chunk>)
    ensures |cs| == |ds|
    ensures forall i :: 0 <= i < |ds| ==> cs[i] == ds[i].response.data
  {
    seq(|ds|, i requires 0 <= i < |ds| => ds[i].response.data)
  }

  /** The last send is a request for the chunk numbered `sequenceNumber`: exactly the
      chunk the next arrival is taken to be. */
  predicate Awaiting(s: PullState)
  {
    |s.sent| > 0 && s.sent[|s.sent| - 1].msg.StreamDataRequest?
    && s.sent[|s.sent| - 1].msg.sequenceNumber == s.sequenceNumber
  }

  /** Playback start leaves the pull side awaiting chunk 0. */
  lemma BeginAwaitsZero(sent: seq<Outbound>, streamId: string, accepted: bool)
    ensures Awaiting(Begin(sent, streamId, accepted))
    ensures Begin(sent, streamId, accepted).sequenceNumber == 0
  {
  }

  /** Request-response affinity: however the arrivals go, the most recent request is
      always for the number the next arrival will be counted against. */
  lemma {:induction false} ReceiveAllKeepsAwaiting(s: PullState, ds: seq<Delivery>)
    requires Awaiting(s)
    decreases |ds|
    ensures Awaiting(ReceiveAll(s, ds))
  {
    if ds != [] {
      ReceiveAllKeepsAwaiting(Receive(s, ds[0]), ds[1..]);
    }
  }

  /** An arrival never removes anything: earlier sends and queued chunks stay as they
      were, and the counter never goes down. */
  lemma {:induction false} ReceiveAllExtends(s: PullState, ds: seq<Delivery>)
    decreases |ds|
    ensures ReceiveAll(s, ds).sequenceNumber >= s.sequenceNumber
    ensures s.queued <= ReceiveAll(s, ds).queued
    ensures s.sent <= ReceiveAll(s, ds).sent
  {
    if ds != [] {
      ReceiveAllExtends(Receive(s, ds[0]), ds[1..]);
    }
  }

  /** A run of data-carrying arrivals: each one is queued in arrival order, the counter
      goes up by one per arrival, and the i-th arrival is followed by exactly one
      request, for the number after the previous one, whether or not the previous
      request's send threw. */
  lemma ReceiveAllNonEmpty(s: PullState, ds: seq<Delivery>)
    requires forall i :: 0 <= i < |ds| ==> |ds[i].response.data| > 0
    ensures ReceiveAll(s, ds).sequenceNumber == s.sequenceNumber + |ds|
    ensures ReceiveAll(s, ds).queued == s.queued + Payloads(ds)
    ensures |ReceiveAll(s, ds).sent| == |s.sent| + |ds|
    ensures ReceiveAll(s, ds).sent[..|s.sent|] == s.sent
    ensures forall i :: 0 <= i < |ds| ==>
              ReceiveAll(s, ds).sent[|s.sent| + i] ==
              Outbound(StreamDataRequest(ds[i].response.streamId, s.sequenceNumber + 1 + i), ds[i].requestAccepted)
  {
    NonEmptyCountsAndQueue(s, ds);
    NonEmptyRequests(s, ds);
  }

  /** The counter and queue part of `ReceiveAllNonEmpty`. */
  lemma {:induction false} NonEmptyCountsAndQueue(s: PullState, ds: seq<Delivery>)
    requires forall i :: 0 <= i < |ds| ==> |ds[i].response.data| > 0
    decreases |ds|
    ensures ReceiveAll(s, ds).sequenceNumber == s.sequenceNumber + |ds|
    ensures ReceiveAll(s, ds).queued == s.queued + Payloads(ds)
  {
    if ds != [] {
      var s1 := Receive(s, ds[0]);
      assert s1.queued == s.queued + [ds[0].response.data];
      NonEmptyCountsAndQueue(s1, ds[1..]);
      assert ReceiveAll(s, ds) == ReceiveAll(s1, ds[1..]);
      assert Payloads(ds) == [ds[0].response.data] + Payloads(ds[1..]);
      assert s1.queued + Payloads(ds[1..]) == s.queued + Payloads(ds);
    } else {
      assert s.queued + Payloads(ds) == s.queued;
    }
  }

  /** The sends part of `ReceiveAllNonEmpty`. */
  lemma {:induction false} NonEmptyRequests(s: PullState, ds: seq<Delivery>)
    requires forall i :: 0 <= i < |ds| ==> |ds[i].response.data| > 0
    decreases |ds|
    ensures |ReceiveAll(s, ds).sent| == |s.sent| + |ds|
    ensures ReceiveAll(s, ds).sent[..|s.sent|] == s.sent
    ensures forall i :: 0 <= i < |ds| ==>
              ReceiveAll(s, ds).sent[|s.sent| + i] ==
              Outbound(StreamDataRequest(ds[i].response.streamId, s.sequenceNumber + 1 + i), ds[i].requestAccepted)
  {
    if ds != [] {
      var s1 := Receive(s, ds[0]);
      NonEmptyRequests(s1, ds[1..]);
      var r := ReceiveAll(s, ds);
      assert r == ReceiveAll(s1, ds[1..]);
      assert r.sent[..|s1.sent|] == s1.sent;
      assert r.sent[..|s.sent|] == r.sent[..|s1.sent|][..|s.sent|];
      forall i | 0 <= i < |ds|
        ensures r.sent[|s.sent| + i] ==
                Outbound(StreamDataRequest(ds[i].response.streamId, s.sequenceNumber + 1 + i), ds[i].requestAccepted)
      {
        if i > 0 {
          assert r.sent[|s1.sent| + (i - 1)] == r.sent[|s.sent| + i];
        } else {
          assert r.sent[|s.sent|] == r.sent[..|s1.sent|][|s.sent|];
        }
      }
    }
  }

  /** End of stream is a no-op: arrivals without data change neither the counter, the
      queue nor the sends, so the outcome is that of the data-carrying arrivals alone. */
  lemma {:induction false} EmptyArrivalsIgnored(s: PullState, ds: seq<Delivery>)
    decreases |ds|
    ensures ReceiveAll(s, ds) == ReceiveAll(s, NonEmpty(ds))
  {
    if ds != [] {
      EmptyArrivalsIgnored(Receive(s, ds[0]), ds[1..]);
      if |ds[0].response.data| > 0 {
        assert NonEmpty(ds) == [ds[0]] + NonEmpty(ds[1..]);
        assert ([ds[0]] + NonEmpty(ds[1..]))[1..] == NonEmpty(ds[1..]);
      } else {
        assert NonEmpty(ds) == NonEmpty(ds[1..]);
      }
    }
  }

  /** After playback starts, whatever mix of data-carrying and empty arrivals follows,
      the sends made by the pull side are one request per data-carrying arrival plus
      the initial one, numbered exactly 0, 1, ..., k: no number is requested twice and
      none is skipped. */
  lemma RequestsAreConsecutive(sent: seq<Outbound>, streamId: string, first: bool, ds: seq<Delivery>)
    ensures |ReceiveAll(Begin(sent, streamId, first), ds).sent| == |sent| + 1 + |NonEmpty(ds)|
    ensures ReceiveAll(Begin(sent, streamId, first), ds).sent[..|sent|] == sent
    ensures forall k :: |sent| <= k <= |sent| + |NonEmpty(ds)| ==>
              ReceiveAll(Begin(sent, streamId, first), ds).sent[k].msg.StreamDataRequest? &&
              ReceiveAll(Begin(sent, streamId, first), ds).sent[k].msg.sequenceNumber == k - |sent|
  {
    var b := Begin(sent, streamId, first);
    var nd := NonEmpty(ds);
    EmptyArrivalsIgnored(b, ds);
    RequestsFollowBegin(b, nd, sent, streamId, first);
  }

  /** The same, for arrivals that all carry data. */
  lemma RequestsFollowBegin(b: PullState, nd: seq<Delivery>, sent: seq<Outbound>, streamId: string, first: bool)
    requires b == Begin(sent, streamId, first)
    requires forall i :: 0 <= i < |nd| ==> |nd[i].response.data| > 0
    ensures |ReceiveAll(b, nd).sent| == |sent| + 1 + |nd|
    ensures ReceiveAll(b, nd).sent[..|sent|] == sent
    ensures forall k :: |sent| <= k <= |sent| + |nd| ==>
              ReceiveAll(b, nd).sent[k].msg.StreamDataRequest? &&
              ReceiveAll(b, nd).sent[k].msg.sequenceNumber == k - |sent|
  {
    ReceiveAllNonEmpty(b, nd);
    var r := ReceiveAll(b, nd);
    assert r.sent[..|sent|] == r.sent[..|b.sent|][..|sent|];
    forall k | |sent| <= k <= |sent| + |nd|
      ensures r.sent[k].msg.StreamDataRequest? && r.sent[k].msg.sequenceNumber == k - |sent|
    {
      if k == |sent| {
        assert b.sent[|sent|] == Outbound(StreamDataRequest(streamId, 0), first);
        assert r.sent[k] == r.sent[..|b.sent|][k];
      } else {
        var i := k - |sent| - 1;
        assert 0 <= i < |nd|;
        assert r.sent[|b.sent| + i] == r.sent[k];
        assert r.sent[|b.sent| + i] ==
               Outbound(StreamDataRequest(nd[i].response.streamId, b.sequenceNumber + 1 + i), nd[i].requestAccepted);
      }
    }
  }

  /** A whole pull session against a server that answers request k with the stored
      chunk k and, past the end, with an empty chunk: the queue ends up holding the
      stored chunks in order, the requests are for 0, 1, ..., n and nothing else, and
      the empty answer sends nothing, so no request for n + 1 is ever made. */
  lemma DrainStream(sent: seq<Outbound>, streamId: string, first: bool, stored: seq<Delivery>, last: Delivery)
    requires forall i :: 0 <= i < |stored| ==> |stored[i].response.data| > 0
    requires |last.response.data| == 0
    ensures ReceiveAll(Begin(sent, streamId, first), stored + [last]).queued == Payloads(stored)
    ensures ReceiveAll(Begin(sent, streamId, first), stored + [last]).sequenceNumber == |stored|
    ensures |ReceiveAll(Begin(sent, streamId, first), stored + [last]).sent| == |sent| + 1 + |stored|
    ensures ReceiveAll(Begin(sent, streamId, first), stored + [last]).sent[..|sent| + 1] ==
            sent + [Outbound(StreamDataRequest(streamId, 0), first)]
    ensures forall i :: 0 <= i < |stored| ==>
              ReceiveAll(Begin(sent, streamId, first), stored + [last]).sent[|sent| + 1 + i].msg ==
              StreamDataRequest(stored[i].response.streamId, i + 1)
    ensures ReceiveAll(Begin(sent, streamId, first), stored + [last]) ==
            ReceiveAll(Begin(sent, streamId, first), stored)
  {
    var b := Begin(sent, streamId, first);
    ReceiveAllNonEmpty(b, stored);
    ReceiveAllExtends(b, stored + [last]);
    ReceiveAllAppend(b, stored, [last]);
    assert ReceiveAll(ReceiveAll(b, stored), [last]) == ReceiveAll(b, stored);
  }

  lemma {:induction false} ReceiveAllAppend(s: PullState, ds: seq<Delivery>, es: seq<Delivery>)
    decreases |ds|
    ensures ReceiveAll(s, ds + es) == ReceiveAll(ReceiveAll(s, ds), es)
  {
    if ds != [] {
      assert (ds + es)[1..] == ds[1..] + es;
      ReceiveAllAppend(Receive(s, ds[0]), ds[1..], es);
    } else {
      assert ds + es == es;
    }
  }
}
