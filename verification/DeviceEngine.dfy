/** The device's stream engine: what it does with one message from the host. The service handlers
    are left open: `Choice` says whether the service is known, which replies the handler produced
    and whether it reports itself finished. */
module DeviceEngine {
  import opened Bytes
  import opened Wire

  datatype DevStream = DevStream(host: u32, queue: seq<Data>, inFlight: bool)

  type Streams = map<u32, DevStream>

  datatype Choice = Choice(accept: bool, replies: seq<Data>, finished: bool)

  /** One reply cut into pieces of at most `max` bytes. */
  function Pieces(b: Data, max: nat): seq<Data>
    requires max > 0
  {
    if |b| > max then [b[..max]] + Pieces(b[max..], max) else [b]
  }

  function NonEmpty(parts: seq<Data>): seq<Data> {
    if parts == [] then []
    else if parts[0] == [] then NonEmpty(parts[1..])
    else [parts[0]] + NonEmpty(parts[1..])
  }

  function Chunked(replies: seq<Data>, max: nat): seq<Data>
    requires max > 0
  {
    if replies == [] then []
    else NonEmpty(Pieces(replies[0], max)) + Chunked(replies[1..], max)
  }

  datatype Handled = Handled(streams: Streams, replies: seq<Message>)

  function Pump(streams: Streams, id: u32, finished: bool): Handled
    requires id in streams
  {
    var s := streams[id];
    if s.inFlight then Handled(streams, [])
    else if s.queue != [] then
      Handled(streams[id := s.(queue := s.queue[1..], inFlight := true)],
              [Message(Write, id, s.host, s.queue[0])])
    else if finished then Handled(streams - {id}, [Empty(Close, id, s.host)])
    else Handled(streams, [])
  }

  /** One turn of the engine's loop. `newId` is the id it gives to an accepted stream. */
  function Handle(streams: Streams, msg: Message, newId: u32, choice: Choice, max: nat): Handled
    requires max > 0
  {
    var hostId, devId := msg.arg0, msg.arg1;
    match msg.command
    case Open =>
      if choice.accept then
        var added := streams[newId := DevStream(hostId, Chunked(choice.replies, max), false)];
        var pumped := Pump(added, newId, choice.finished);
        Handled(pumped.streams, [Empty(Okay, newId, hostId)] + pumped.replies)
      else Handled(streams, [Empty(Close, 0, hostId)])
    case Write =>
      if devId in streams then
        var s := streams[devId];
        var queued := streams[devId := s.(queue := s.queue + Chunked(choice.replies, max))];
        var pumped := Pump(queued, devId, choice.finished);
        Handled(pumped.streams, [Empty(Okay, devId, hostId)] + pumped.replies)
      else Handled(streams, [])
    case Okay =>
      if devId in streams then
        Pump(streams[devId := streams[devId].(inFlight := false)], devId, choice.finished)
      else Handled(streams, [])
    case Close => Handled(streams - {devId}, [])
    case _ => Handled(streams, [])
  }

  /** The end of a turn on stream `id`, whose entry is `at` by then: nothing is sent while a WRTE is in
      flight; else the next chunk; else, when the service has finished, CLSE, and the stream goes. */
  predicate Pumped(streams: Streams, id: u32, at: DevStream, finished: bool, after: Streams, sent: seq<Message>) {
    if !at.inFlight && at.queue != [] then
      && sent == [Message(Write, id, at.host, at.queue[0])]
      && after == streams[id := DevStream(at.host, at.queue[1..], true)]
    else if !at.inFlight && finished then sent == [Message(Close, id, at.host, [])] && after == streams - {id}
    else sent == [] && after == streams[id := at]
  }

  /** A turn, message by message: OPEN is answered with OKAY or refused with CLSE from 0; a WRTE is
      acknowledged before its replies are queued; OKAY ends the flight of a WRTE; CLSE ends the stream.
      What is addressed to no stream of the device is ignored. */
  lemma TurnIs(streams: Streams, msg: Message, newId: u32, choice: Choice, max: nat)
    requires max > 0
    ensures var h, host, id := Handle(streams, msg, newId, choice, max), msg.arg0, msg.arg1;
            match msg.command
            case Open =>
              if !choice.accept then h == Handled(streams, [Message(Close, 0, host, [])])
              else
                && |h.replies| > 0 && h.replies[0] == Message(Okay, newId, host, [])
                && Pumped(streams, newId, DevStream(host, Chunked(choice.replies, max), false), choice.finished,
                          h.streams, h.replies[1..])
            case Write =>
              if id !in streams then h == Handled(streams, [])
              else
                var at := streams[id].(queue := streams[id].queue + Chunked(choice.replies, max));
                && |h.replies| > 0 && h.replies[0] == Message(Okay, id, host, [])
                && Pumped(streams, id, at, choice.finished, h.streams, h.replies[1..])
            case Okay =>
              if id !in streams then h == Handled(streams, [])
              else Pumped(streams, id, streams[id].(inFlight := false), choice.finished, h.streams, h.replies)
            case Close => h == Handled(streams - {id}, [])
            case _ => h == Handled(streams, [])
  {
    if msg.command.Open? && choice.accept {
      PumpIs(streams, newId, DevStream(msg.arg0, Chunked(choice.replies, max), false), choice.finished);
    } else if msg.command.Write? && msg.arg1 in streams {
      var s := streams[msg.arg1];
      PumpIs(streams, msg.arg1, s.(queue := s.queue + Chunked(choice.replies, max)), choice.finished);
    } else if msg.command.Okay? && msg.arg1 in streams {
      PumpIs(streams, msg.arg1, streams[msg.arg1].(inFlight := false), choice.finished);
    }
  }

  lemma PumpIs(streams: Streams, id: u32, at: DevStream, finished: bool)
    ensures var h := Pump(streams[id := at], id, finished);
            Pumped(streams, id, at, finished, h.streams, h.replies)
  {
    var added := streams[id := at];
    if !at.inFlight && at.queue != [] {
      var next := at.(queue := at.queue[1..], inFlight := true);
      assert added[id := next] == streams[id := next];
    } else if !at.inFlight && finished {
      assert added - {id} == streams - {id};
    }
  }

  /** Cutting replies up loses nothing, and every piece is non-empty and within the limit. */
  lemma {:induction false} PiecesAreWhole(b: Data, max: nat)
    requires max > 0
    ensures Flatten(NonEmpty(Pieces(b, max))) == b
    ensures forall p :: p in NonEmpty(Pieces(b, max)) ==> 0 < |p| <= max
    decreases |b|
  {
    if |b| > max {
      PiecesAreWhole(b[max..], max);
      assert Pieces(b, max)[1..] == Pieces(b[max..], max);
      assert b == b[..max] + b[max..];
      assert NonEmpty(Pieces(b, max))[1..] == NonEmpty(Pieces(b[max..], max));
    } else if b != [] {
      assert NonEmpty([b]) == [b];
      assert Flatten([b]) == b + Flatten([]);
    }
  }

  /** The pieces of one reply: as large as allowed, but for the last. */
  lemma {:induction false} PiecesAreFull(b: Data, max: nat)
    requires max > 0
    ensures var ps := Pieces(b, max);
            && |ps| > 0 && |ps[|ps| - 1]| <= max && (b != [] ==> ps[|ps| - 1] != [])
            && forall k :: 0 <= k < |ps| - 1 ==> |ps[k]| == max
    ensures b != [] ==> NonEmpty(Pieces(b, max)) == Pieces(b, max)
    decreases |b|
  {
    if |b| > max {
      PiecesAreFull(b[max..], max);
      assert Pieces(b, max)[1..] == Pieces(b[max..], max);
      assert [b[..max]] + Pieces(b[max..], max) == Pieces(b, max);
    } else if b != [] {
      assert NonEmpty([b]) == [b] + NonEmpty([]);
    }
  }

  lemma {:induction false} ChunkedIsWhole(replies: seq<Data>, max: nat)
    requires max > 0
    ensures Flatten(Chunked(replies, max)) == Flatten(replies)
    ensures forall p :: p in Chunked(replies, max) ==> 0 < |p| <= max
    ensures replies != [] && replies[0] != [] ==>
              Chunked(replies, max) == Pieces(replies[0], max) + Chunked(replies[1..], max)
  {
    if replies != [] {
      PiecesAreFull(replies[0], max);
      PiecesAreWhole(replies[0], max);
      ChunkedIsWhole(replies[1..], max);
      FlattenAppend(NonEmpty(Pieces(replies[0], max)), Chunked(replies[1..], max));
    }
  }
}
