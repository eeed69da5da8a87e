/** What holds of every stream in every state a session can get into. */
module SessionTheorems {
  import opened Bytes
  import opened Wire
  import opened StreamIds
  import opened StreamModel
  import opened StreamMachine
  import opened StreamInvariant
  import opened SessionSystem
  import opened SessionInvariant
  import opened SessionProjection
  import DeviceEngine

  lemma StreamInv(s: System, cfg: Config, i: u32)
    requires Sane(cfg) && Reachable(s, cfg) && i in s.streams
    ensures var l := Project(s, i);
            RecInv(i, ToDevice(l), l.toHost, l.devs, l.writerUp, l.readerUp, s.streams[i], cfg.maxPayload)
  {
    ReachableGood(s, cfg);
    assert Inv(i, Project(s, i), cfg);
  }

  predicate HeardBy(s: System, i: u32) {
    i in s.streams && s.streams[i].registered && s.streams[i].view.sender && s.streams[i].view.receiver
  }

  /** All the reader ever posts is a CLSE for a WRTE that nobody hears, under the two ids of that WRTE.
      It stops on OPEN and STLS, and on such a CLSE that the writer cannot take. */
  lemma ReaderPosts(s: System, cfg: Config)
    requires Sane(cfg) && Can(s, ReaderDispatches)
    ensures var m, s' := s.toHost[0], Step(s, ReaderDispatches, cfg);
            var unheard := m.command.Write? && !HeardBy(s, m.arg1);
            && s'.outbox == s.outbox + (if unheard && s.writerUp then [Message(Close, m.arg1, m.arg0, [])] else [])
            && (s'.readerUp <==> !m.command.Open? && !m.command.StartTls? && (unheard ==> s.writerUp))
            && s'.writerUp == s.writerUp && s'.toHost == s.toHost[1..] && s'.toDevice == s.toDevice
  {
  }

  /** What a message that does not stop the reader does to the stream it is addressed to, and that it
      does nothing to any other. */
  lemma ReaderEffects(s: System, cfg: Config, i: u32)
    requires Sane(cfg) && Can(s, ReaderDispatches) && i in s.streams && Step(s, ReaderDispatches, cfg).readerUp
    ensures var m := s.toHost[0];
            var r, r' := s.streams[i], Step(s, ReaderDispatches, cfg).streams[i];
            && r'.owner == r.owner && r'.outcome == r.outcome
            && if m.arg1 != i || !r.registered then r'.view == r.view && r'.registered == r.registered
               else
                 && r'.registered == !m.command.Close?
                 && r'.view.acks == r.view.acks + (if m.command.Okay? then 1 else 0)
                 && r'.view.remote == (if m.command.Okay? && r.view.remote == 0 then m.arg0 else r.view.remote)
                 && r'.view.closed == (r.view.closed || m.command.Close?)
                 && r'.view.sender == (r.view.sender && !m.command.Close?) && r'.view.receiver == r.view.receiver
                 && r'.view.permit == (r.view.permit || m.command.Okay? || m.command.Close?)
                 && r'.view.queue == r.view.queue + if m.command.Write? && HeardBy(s, i) then [m.payload] else []
  {
  }

  /** When the reader stops it takes every stream out of the registry, closed and woken. */
  lemma ReaderStopped(s: System, cfg: Config, i: u32)
    requires Sane(cfg) && Can(s, ReaderDispatches) && i in s.streams && !Step(s, ReaderDispatches, cfg).readerUp
    ensures var r, r' := s.streams[i], Step(s, ReaderDispatches, cfg).streams[i];
            && !r'.registered && r'.view.queue == r.view.queue && r'.view.acks == r.view.acks
            && (r.registered ==> r'.view.closed && !r'.view.sender && r'.view.permit)
            && (!r.registered ==> r'.view == r.view)
  {
  }

  /** The WRTEs of stream `i` that the device has not acknowledged to the host. */
  function Unacknowledged(s: System, i: u32): nat {
    var l := Project(s, i);
    Count(ToDevice(l), Write) + Count(l.toHost, Okay)
  }

  /** Flow control towards the device: at most one WRTE without its OKAY anywhere between the two
      ends, and none while no `send` runs on an open stream. */
  lemma OneWriteInFlight(s: System, cfg: Config, i: u32)
    requires Sane(cfg) && Reachable(s, cfg) && i in s.streams
    ensures Unacknowledged(s, i) <= 1
    ensures s.streams[i].owner.Idle? && !s.streams[i].view.closed ==> Unacknowledged(s, i) == 0
  {
    StreamInv(s, cfg, i);
  }

  /** Back-pressure: payloads on the wire to us, payloads not yet taken by the caller, and
      acknowledgements the device has not seen are together at most one per stream. */
  lemma OnePayloadBuffered(s: System, cfg: Config, i: u32)
    requires Sane(cfg) && Reachable(s, cfg) && i in s.streams
    ensures var l := Project(s, i);
            Count(l.toHost, Write) + |s.streams[i].view.queue| + Count(ToDevice(l), Okay) <= 1
  {
    StreamInv(s, cfg, i);
  }

  /** The bytes a device handler has received are a prefix of those passed to `send`. */
  lemma DeviceReceivesPrefix(s: System, cfg: Config, i: u32)
    requires Sane(cfg) && Reachable(s, cfg) && i in s.streams
    ensures s.streams[i].log.accepted <= s.streams[i].log.offered
  {
    StreamInv(s, cfg, i);
  }

  /** When a wait ends in `send` returning Ok, the handler has received every byte passed to `send`
      so far. */
  lemma SendOkMeansReceived(s: System, cfg: Config, i: u32)
    requires Sane(cfg) && Reachable(s, cfg) && Can(s, OwnerCall(i, Wake))
    ensures var r := Step(s, OwnerCall(i, Wake), cfg).streams[i];
            s.streams[i].owner.Writing? && r.owner.Idle? && r.outcome == Sent ==> r.log.accepted == r.log.offered
  {
    StreamInv(s, cfg, i);
  }

  /** What `recv` returned and what still waits in the queue are, in order, the payloads delivered,
      and these are a prefix of what the device's service produced. */
  lemma CallerReceivesInOrder(s: System, cfg: Config, i: u32)
    requires Sane(cfg) && Reachable(s, cfg) && i in s.streams && !s.streams[i].owner.Gone? && s.writerUp
    ensures var r := s.streams[i];
            r.log.handed + r.view.queue == r.log.delivered <= r.log.produced
  {
    StreamInv(s, cfg, i);
  }

  /** End of stream after the device's CLSE: `recv` returns `None` only when the caller has been
      handed everything the service produced. */
  lemma EndOfStreamMeansAll(s: System, cfg: Config, i: u32)
    requires Sane(cfg) && Reachable(s, cfg) && s.writerUp && Can(s, OwnerCall(i, Recv)) && s.streams[i].log.ended
    ensures var r := Step(s, OwnerCall(i, Recv), cfg).streams[i];
            r.outcome == EndOfStream ==> r.log.handed == r.log.produced
  {
    StreamInv(s, cfg, i);
  }

  /** `recv` loses the chunk it took exactly when the stream is open and the writer is gone. */
  lemma RecvLosesChunk(s: System, cfg: Config, i: u32)
    requires Sane(cfg) && Can(s, OwnerCall(i, Recv)) && s.streams[i].view.queue != []
    ensures var r, r' := s.streams[i], Step(s, OwnerCall(i, Recv), cfg).streams[i];
            && r'.log.taken == r.log.taken + [r.view.queue[0]]
            && (r'.log.handed == r.log.handed <==> Usable(r.view) && !s.writerUp)
            && (r'.log.handed == r.log.handed + [r.view.queue[0]] <==> !Usable(r.view) || s.writerUp)
  {
  }

  /** The language of an owner: OPEN (WRTE | OKAY)* CLSE?, every message after OPEN carrying the
      one remote id, every WRTE non-empty and within the limit, the WRTEs together a prefix of the
      data passed to `send`. */
  lemma OwnerSpeaksProtocol(s: System, cfg: Config, i: u32)
    requires Sane(cfg) && Reachable(s, cfg) && i in s.streams
    ensures var r := s.streams[i];
            && Trace(i, r.log.posts, r.log.posted, r.view.remote, r.view.closed, r.owner.Gone?, cfg.maxPayload)
            && Flatten(Writes(r.log.posts)) <= r.log.offered
  {
    StreamInv(s, cfg, i);
  }

  /** For the first `2^32 - 1` streams of a session the drawn id is never in use. */
  lemma FreshWhileUnderLimit(s: System, cfg: Config)
    requires Sane(cfg) && Reachable(s, cfg) && s.opens < IDS
    ensures Reusable(Project(s, IdOf(s.opens)))
  {
    ReachableGood(s, cfg);
    var i := IdOf(s.opens);
    forall k | 0 <= k < s.opens ensures IdOf(k) != i {
      FirstIdsDiffer(k, s.opens);
    }
    assert Inv(i, Project(s, i), cfg);
  }
}
