/** The device engine's table and wire, updated in place. */
module DeviceLoop {
  import opened Bytes
  import opened Wire
  import opened DeviceEngine

  /** `chunked`: every reply is cut by a loop, empty pieces are dropped. */
  method ChunkAll(replies: seq<Data>, max: nat) returns (parts: seq<Data>)
    requires max > 0
    ensures parts == Chunked(replies, max)
    ensures Flatten(parts) == Flatten(replies) && forall p :: p in parts ==> 0 < |p| <= max
  {
    parts := [];
    for i := 0 to |replies|
      invariant parts + Chunked(replies[i..], max) == Chunked(replies, max)
    {
      var b := replies[i];
      var cut: seq<Data> := [];
      while |b| > max
        invariant cut + Pieces(b, max) == Pieces(replies[i], max)
        decreases |b|
      {
        assert Pieces(b, max) == [b[..max]] + Pieces(b[max..], max);
        cut := cut + [b[..max]];
        b := b[max..];
      }
      cut := cut + [b];
      assert cut == Pieces(replies[i], max);
      var kept := Keep(cut);
      assert replies[i..][0] == replies[i] && replies[i..][1..] == replies[i + 1..];
      Regrouped(parts, kept, Chunked(replies[i + 1..], max));
      parts := parts + kept;
    }
    ChunkedIsWhole(replies, max);
  }

  method Keep(parts: seq<Data>) returns (kept: seq<Data>)
    ensures kept == NonEmpty(parts)
  {
    kept := [];
    for i := 0 to |parts|
      invariant kept + NonEmpty(parts[i..]) == NonEmpty(parts)
    {
      assert parts[i..][1..] == parts[i + 1..];
      if parts[i] != [] {
        kept := kept + [parts[i]];
      }
    }
  }

  class Engine {
    var streams: Streams
    var nextId: u32
    var sent: seq<Message>
    const maxPayload: nat

    constructor (maxPayload: nat)
      ensures streams == map[] && nextId == 100 && sent == [] && this.maxPayload == maxPayload
    {
      streams, nextId, sent := map[], 100, [];
      this.maxPayload := maxPayload;
    }

    method PumpOut(id: u32, finished: bool)
      requires id in streams
      modifies `streams, `sent
      ensures var h := Pump(old(streams), id, finished); streams == h.streams && sent == old(sent) + h.replies
      ensures old(sent) <= sent
      ensures Pumped(old(streams), id, old(streams)[id], finished, streams, sent[|old(sent)|..])
    {
      ghost var before, at := streams, streams[id];
      assert before[id := at] == before;
      PumpIs(before, id, at, finished);
      var stream := streams[id];
      if stream.inFlight {
        return;
      }
      if stream.queue != [] {
        streams := streams[id := stream.(queue := stream.queue[1..], inFlight := true)];
        sent := sent + [Message(Write, id, stream.host, stream.queue[0])];
        return;
      }
      if finished {
        streams := streams - {id};
        sent := sent + [Empty(Close, id, stream.host)];
      }
    }

    /** One turn of the loop; ids are drawn from 100 upwards. */
    method HandleMessage(msg: Message, choice: Choice)
      requires maxPayload > 0 && nextId < U32_MAX
      modifies this
      ensures var h := Handle(old(streams), msg, old(nextId), choice, maxPayload);
              streams == h.streams && sent == old(sent) + h.replies
      ensures old(sent) <= sent
      ensures |sent| <= |old(sent)| + 2
      ensures msg.command.Open? ==>
                sent[..|old(sent)| + 1] == old(sent) + [if choice.accept then Message(Okay, old(nextId), msg.arg0, [])
                                                        else Message(Close, 0, msg.arg0, [])]
      ensures msg.command.Write? && msg.arg1 in old(streams) ==>
                sent[..|old(sent)| + 1] == old(sent) + [Message(Okay, msg.arg1, msg.arg0, [])]
      ensures nextId == old(nextId) + if msg.command.Open? && choice.accept then 1 else 0
    {
      var hostId, devId := msg.arg0, msg.arg1;
      match msg.command {
        case Open =>
          if choice.accept {
            var id := nextId;
            nextId := nextId + 1;
            sent := sent + [Empty(Okay, id, hostId)];
            var queue := ChunkAll(choice.replies, maxPayload);
            streams := streams[id := DevStream(hostId, queue, false)];
            PumpOut(id, choice.finished);
          } else {
            sent := sent + [Empty(Close, 0, hostId)];
          }
        case Write =>
          if devId in streams {
            sent := sent + [Empty(Okay, devId, hostId)];
            var parts := ChunkAll(choice.replies, maxPayload);
            streams := streams[devId := streams[devId].(queue := streams[devId].queue + parts)];
            PumpOut(devId, choice.finished);
          }
        case Okay =>
          if devId in streams {
            streams := streams[devId := streams[devId].(inFlight := false)];
            PumpOut(devId, choice.finished);
          }
        case Close => streams := streams - {devId};
        case _ =>
      }
    }
  }
}
