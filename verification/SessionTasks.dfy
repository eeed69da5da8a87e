/** The reader task and the owner's calls over the shared objects. While an owner awaits, the reader
    takes the next of the messages that will arrive (`inbound`); the writer is the outbox and a flag
    that says whether it still accepts messages. */
module SessionTasks {
  import opened Bytes
  import opened Wire
  import opened StreamModel
  import opened StreamMachine
  import opened StreamInvariant
  import opened OwnerStretches
  import opened Registry
  import opened StreamIds

  datatype OpenResult = InvalidName | OpenWriterGone | ServiceRefused | OpenParked | StreamOpened(stream: StreamState)

  /** One stream under one message that the reader takes; a stopping reader closes every stream. */
  function EntryAfter(e: Entry, id: u32, msg: Message, stops: bool): Entry {
    var e' := if msg.arg1 == id then Dispatch(e, msg).entry else e;
    if stops then CloseEntry(e') else e'
  }

  /** The reader's step in the step system is the same. */
  lemma ReaderAgrees(r: Rec, msg: Message, writerUp: bool)
    ensures var (rec, posts, stops) := ReaderStep(Some(r), msg, writerUp);
            && rec.Some?
            && Entry(rec.value.view, rec.value.registered)
               == EntryAfter(Entry(r.view, r.registered), msg.arg1, msg, stops)
            && posts == if writerUp then Dispatch(Entry(r.view, r.registered), msg).replies else []
  {
  }

  /** Under a run of messages, on the last of which the reader may stop. */
  function EntryAfterAll(e: Entry, id: u32, msgs: seq<Message>, stopped: bool): Entry {
    if msgs == [] then e
    else
      var n := |msgs| - 1;
      EntryAfter(EntryAfterAll(e, id, msgs[..n], false), id, msgs[n], stopped)
  }

  /** What an owner can tell two states apart by. */
  datatype Snapshot = Snapshot(entry: Entry, inbound: seq<Message>, outbox: seq<Message>, nextId: u32,
    writerUp: bool, readerUp: bool)

  /** What may have happened between `a` and `b` while an owner awaited and the reader took `n`
      messages: nothing but those messages, a consumed wake-up, and CLSE replies. */
  predicate Awaited(a: Snapshot, b: Snapshot, id: u32, n: nat) {
    && n <= |a.inbound| && b.inbound == a.inbound[n..]
    && b.nextId == a.nextId && b.writerUp == a.writerUp && (b.readerUp ==> a.readerUp)
    && a.outbox <= b.outbox && OnlyCloses(b.outbox[|a.outbox|..])
    && Settled(b.entry) == Settled(EntryAfterAll(a.entry, id, a.inbound[..n], b.readerUp != a.readerUp))
  }

  /** What the first `n` messages that arrive during the wait of `open_stream` decide. */
  predicate OpenDecided(a: Snapshot, readerUp: bool, id: u32, n: nat, p: Option<OpenProgress>) {
    && n <= |a.inbound|
    && var v := EntryAfterAll(a.entry, id, a.inbound[..n], readerUp != a.readerUp).view;
       && (p == Some(OpenSucceeds) <==> v.acks > 0 && v.remote != 0)
       && (p == Some(OpenRefused) <==> (v.acks > 0 && v.remote == 0) || (v.acks == 0 && v.closed))
  }

  class Session {
    const registry: Registry
    const maxPayload: nat
    var outbox: seq<Message>
    var inbound: seq<Message>
    var writerUp: bool
    var readerUp: bool

    constructor (maxPayload: nat, inbound: seq<Message>)
      ensures fresh(registry) && registry.Valid() && registry.streams == map[]
      ensures this.maxPayload == maxPayload && this.inbound == inbound
      ensures outbox == [] && writerUp && readerUp
    {
      registry := new Registry();
      this.maxPayload, this.inbound := maxPayload, inbound;
      outbox, writerUp, readerUp := [], true, true;
    }

    /** Whether a message can be posted; false is the error of a closed outbox. */
    method Post(msg: Message) returns (ok: bool)
      modifies `outbox
      ensures ok == writerUp
      ensures outbox == old(outbox) + if ok then [msg] else []
    {
      ok := writerUp;
      if ok {
        outbox := outbox + [msg];
      }
    }

    /** `dispatch`: false is an error, on which the reader stops. */
    method DispatchMessage(msg: Message) returns (ok: bool)
      requires registry.Valid()
      modifies registry, registry.streams.Values, `outbox
      ensures registry.Valid() && registry.nextId == old(registry.nextId)
      ensures var d := Dispatch(old(registry.EntryOf(msg.arg1)), msg);
              && ok == (!d.stop && (d.replies == [] || writerUp))
              && outbox == old(outbox) + (if writerUp then d.replies else [])
              && registry.streams ==
                   (if d.entry.registered || msg.arg1 !in old(registry.streams) then old(registry.streams)
                    else old(registry.streams) - {msg.arg1})
              && (msg.arg1 in old(registry.streams) ==> old(registry.streams)[msg.arg1].View() == d.entry.view)
      ensures forall i :: i in old(registry.streams) && i != msg.arg1 ==>
                old(registry.streams)[i].View() == old(registry.streams[i].View())
      // what is posted, and which messages stop the reader
      ensures msg.command.Write? && !old(registry.Hears(msg.arg1)) ==>
                && ok == writerUp
                && outbox == old(outbox) + if writerUp then [Message(Close, msg.arg1, msg.arg0, [])] else []
      ensures msg.command.Write? && old(registry.Hears(msg.arg1)) ==> ok && outbox == old(outbox)
      ensures !msg.command.Write? ==>
                outbox == old(outbox) && ok == !(msg.command.Open? || msg.command.StartTls?)
      // what becomes of the registry and of the stream addressed
      ensures registry.streams == old(registry.streams) - if msg.command.Close? then {msg.arg1} else {}
      ensures msg.arg1 in old(registry.streams) ==>
                var st := old(registry.streams)[msg.arg1];
                && st.acks == old(st.acks) + (if msg.command.Okay? then 1 else 0)
                && st.remoteId == (if msg.command.Okay? && old(st.remoteId) == 0 then msg.arg0 else old(st.remoteId))
                && st.closed == (old(st.closed) || msg.command.Close?)
                && st.sender == (old(st.sender) && !msg.command.Close?) && st.receiver == old(st.receiver)
                && st.permit == (old(st.permit) || msg.command.Okay? || msg.command.Close?)
                && st.queue == old(st.queue) +
                     if msg.command.Write? && old(registry.Hears(msg.arg1)) then [msg.payload] else []
    {
      var remoteId, localId := msg.arg0, msg.arg1;
      ok := true;
      match msg.command {
        case Okay =>
          var stream := registry.Get(localId);
          if stream != null {
            stream.Ack(remoteId);
          }
        case Write =>
          var stream := registry.Get(localId);
          var heard := false;
          if stream != null {
            heard := stream.Deliver(msg.payload);
          }
          if !heard {
            ok := Post(Empty(Close, localId, remoteId));
          }
        case Close =>
          var stream := registry.Remove(localId);
          if stream != null {
            stream.MarkClosed();
          }
        case StartTls => ok := false;
        case Open => ok := false;
        case _ =>
      }
    }

    /** `st` is what the registry maps its id to, if it maps it to anything. */
    ghost predicate Holds(st: StreamState)
      reads registry
    {
      st.localId in registry.streams ==> registry.streams[st.localId] == st
    }

    ghost function StateEntry(st: StreamState): Entry
      reads registry, st
    {
      Entry(st.View(), st.localId in registry.streams)
    }

    /** `dispatch` as one stream sees it. */
    method DispatchSeen(msg: Message, ghost st: StreamState) returns (ok: bool)
      requires registry.Valid() && Holds(st)
      modifies registry, registry.streams.Values, `outbox
      ensures registry.Valid() && Holds(st) && registry.nextId == old(registry.nextId)
      ensures registry.streams.Values <= old(registry.streams.Values)
      ensures StateEntry(st) ==
              if msg.arg1 == st.localId then Dispatch(old(StateEntry(st)), msg).entry else old(StateEntry(st))
      ensures var d := Dispatch(old(registry.EntryOf(msg.arg1)), msg);
              && ok == (!d.stop && (d.replies == [] || writerUp))
              && outbox == old(outbox) + (if writerUp then d.replies else [])
    {
      ok := DispatchMessage(msg);
    }

    /** One turn of `read_loop`. */
    method Read(ghost st: StreamState)
      requires registry.Valid() && Holds(st) && readerUp && inbound != []
      modifies this, registry, registry.streams.Values
      ensures registry.Valid() && Holds(st) && registry.nextId == old(registry.nextId)
      ensures registry.streams.Values <= old(registry.streams.Values)
      ensures inbound == old(inbound)[1..] && writerUp == old(writerUp)
      ensures StateEntry(st) == EntryAfter(old(StateEntry(st)), st.localId, old(inbound)[0], !readerUp)
      ensures var d := Dispatch(old(registry.EntryOf(inbound[0].arg1)), old(inbound)[0]);
              && readerUp == (!d.stop && (d.replies == [] || writerUp))
              && outbox == old(outbox) + (if writerUp then d.replies else [])
      ensures !readerUp ==> registry.streams == map[]
    {
      var msg := inbound[0];
      inbound := inbound[1..];
      var ok := DispatchSeen(msg, st);
      if !ok {
        readerUp := false;
        registry.CloseAll();
      }
    }

    ghost function Snap(st: StreamState): Snapshot
      reads this, registry, st
    {
      Snapshot(StateEntry(st), inbound, outbox, registry.nextId, writerUp, readerUp)
    }

    /** The reader takes a message while the owner awaits. Whatever changes the acknowledgements or
        closes the stream also stores a wake-up. */
    method ReadMeanwhile(st: StreamState, ghost first: Snapshot, ghost n: nat)
      requires registry.Valid() && Holds(st) && Awaited(first, Snap(st), st.localId, n)
      requires readerUp && inbound != [] && !st.permit
      modifies this, registry, registry.streams.Values
      ensures registry.Valid() && Holds(st) && registry.streams.Values <= old(registry.streams.Values)
      ensures Awaited(first, Snap(st), st.localId, n + 1) && |inbound| == old(|inbound|) - 1
      ensures !st.permit ==> st.closed == old(st.closed) && st.acks == old(st.acks)
      ensures st.acks >= old(st.acks)
    {
      ghost var last := Snap(st);
      Read(st);
      assert outbox + [] == outbox && last.outbox + [] == last.outbox;
      AwaitedOn(first, last, Snap(st), st.localId, n);
    }

    /** `notified().await` up to the wake-up: the reader runs until one is stored. False if no message
        is left to cause one. */
    method Sleep(st: StreamState) returns (woken: bool, ghost n: nat)
      requires registry.Valid() && Holds(st)
      modifies this, registry, registry.streams.Values, st
      ensures registry.Valid() && Holds(st) && registry.streams.Values <= old(registry.streams.Values)
      ensures Awaited(old(Snap(st)), Snap(st), st.localId, n)
      ensures woken == st.permit && st.acks >= old(st.acks)
      ensures !woken ==> st.closed == old(st.closed) && st.acks == old(st.acks) && (inbound == [] || !readerUp)
      ensures (n == 0 ==> readerUp == old(readerUp)) && (n > 0 ==> old(readerUp))
      ensures |inbound| < old(|inbound|) || (|inbound| == old(|inbound|) && st.permit == old(st.permit))
    {
      n := 0;
      ghost var first := Snap(st);
      while !st.permit
        invariant registry.Valid() && Holds(st) && registry.streams.Values <= old(registry.streams.Values)
        invariant Awaited(first, Snap(st), st.localId, n)
        invariant (n == 0 ==> readerUp == first.readerUp) && (n > 0 ==> first.readerUp)
        invariant !st.permit ==> st.closed == first.entry.view.closed && st.acks == first.entry.view.acks
        invariant st.acks >= first.entry.view.acks
        invariant |inbound| < |first.inbound| || (|inbound| == |first.inbound| && st.permit == first.entry.view.permit)
        decreases |inbound|
      {
        if inbound == [] || !readerUp {
          return false, n;
        }
        ReadMeanwhile(st, first, n);
        n := n + 1;
      }
      return true, n;
    }

    /** `wait_ack` up to its next await: the counter, then the flag; a wake-up stored before is
        consumed, and both are looked at again. */
    method Poll(st: StreamState, seen: nat) returns (w: Wait)
      modifies st`permit
      ensures w == if st.acks > seen then Acked else if st.closed then Closed else Parked
      ensures st.View() == if w.Parked? then Park(old(st.View())) else old(st.View())
    {
      while true
        invariant st.View() == old(st.View()) || (st.View() == Park(old(st.View())) && st.acks <= seen && !st.closed)
        decreases st.permit
      {
        if st.acks > seen {
          return Acked;
        }
        if st.closed {
          return Closed;
        }
        if !st.permit {
          return Parked;
        }
        st.permit := false;
      }
    }

    /** `wait_ack` from a wake-up on. */
    method PollWoken(st: StreamState, seen: nat) returns (w: Wait)
      requires st.permit
      modifies st`permit
      ensures w == if st.acks > seen then Acked else if st.closed then Closed else Parked
      ensures st.View() == Park(old(st.View()))
    {
      st.permit := false;
      w := Poll(st, seen);
    }

    /** One turn of the loop of `wait_ack`, from a park to the next look. */
    method SleepAndPoll(st: StreamState, seen: nat) returns (w: Wait, woken: bool, ghost n: nat)
      requires registry.Valid() && Holds(st) && !st.permit && st.acks <= seen && !st.closed
      modifies this, registry, registry.streams.Values, st
      ensures registry.Valid() && Holds(st) && registry.streams.Values <= old(registry.streams.Values)
      ensures Awaited(old(Snap(st)), Snap(st), st.localId, n) && !st.permit
      ensures w == if st.acks > seen then Acked else if st.closed then Closed else Parked
      ensures !woken ==> w.Parked? && (inbound == [] || !readerUp)
      ensures woken ==> |inbound| < old(|inbound|)
      ensures (n == 0 ==> readerUp == old(readerUp)) && (n > 0 ==> old(readerUp))
    {
      ghost var first := Snap(st);
      woken, n := Sleep(st);
      if !woken {
        return Parked, woken, n;
      }
      ghost var woke := Snap(st);
      w := PollWoken(st, seen);
      AwaitedConsumes(first, woke, Snap(st), st.localId, n);
    }

    /** The same after `n` messages of the wait. */
    method WaitTurn(st: StreamState, seen: nat, ghost first: Snapshot, ghost n: nat)
      returns (w: Wait, woken: bool, ghost total: nat)
      requires registry.Valid() && Holds(st) && !st.permit && st.acks <= seen && !st.closed
      requires Awaited(first, Snap(st), st.localId, n)
      modifies this, registry, registry.streams.Values, st
      ensures registry.Valid() && Holds(st) && registry.streams.Values <= old(registry.streams.Values)
      ensures Awaited(first, Snap(st), st.localId, total) && !st.permit
      ensures w == if st.acks > seen then Acked else if st.closed then Closed else Parked
      ensures !woken ==> w.Parked? && (inbound == [] || !readerUp)
      ensures woken ==> |inbound| < old(|inbound|)
    {
      ghost var last := Snap(st);
      ghost var m;
      w, woken, m := SleepAndPoll(st, seen);
      AwaitedJoins(first, last, Snap(st), st.localId, n, m);
      total := n + m;
    }

    /** `wait_ack`. `Parked` says that no message is left to wake the owner. */
    method WaitAck(st: StreamState, seen: nat) returns (w: Wait, ghost n: nat)
      requires registry.Valid() && Holds(st)
      modifies this, registry, registry.streams.Values, st
      ensures registry.Valid() && Holds(st) && registry.streams.Values <= old(registry.streams.Values)
      ensures Awaited(old(Snap(st)), Snap(st), st.localId, n)
      ensures w.Acked? <==> st.acks > seen
      ensures w.Closed? <==> st.acks <= seen && st.closed
      ensures w.Parked? ==> !st.permit && (inbound == [] || !readerUp)
    {
      n := 0;
      ghost var first := Snap(st);
      w := Poll(st, seen);
      AwaitedNothing(first, Snap(st), st.localId);
      while w.Parked?
        invariant registry.Valid() && Holds(st) && registry.streams.Values <= old(registry.streams.Values)
        invariant Awaited(first, Snap(st), st.localId, n)
        invariant w == if st.acks > seen then Acked else if st.closed then Closed else Parked
        invariant w.Parked? ==> !st.permit
        decreases |inbound|
      {
        var woken;
        w, woken, n := WaitTurn(st, seen, first, n);
        if !woken {
          return;
        }
      }
    }

    /** `Stream::ids`. */
    method Ids(st: StreamState) returns (remote: u32)
      ensures remote == if st.closed then 0 else st.remoteId
    {
      remote := if st.closed then 0 else st.remoteId;
    }

    /** `write_chunk` up to its wait: the two ids, the counter as it is now, the WRTE. */
    method StartChunk(st: StreamState, chunk: Data) returns (failure: SendResult, seen: nat)
      modifies `outbox
      ensures failure == if !Usable(st.View()) then SendStreamClosed else if !writerUp then SendWriterGone else SendOk
      ensures outbox == old(outbox) +
                        if failure.SendOk? then [Message(Write, st.localId, st.remoteId, chunk)] else []
      ensures seen == st.acks
    {
      seen := st.acks;
      var remote := Ids(st);
      if remote == 0 {
        return SendStreamClosed, seen;
      }
      var ok := Post(Message(Write, st.localId, remote, chunk));
      failure := if ok then SendOk else SendWriterGone;
    }

    /** `write_chunk`: the chunk is posted under the two ids, and Ok means a further acknowledgement. */
    method WriteChunk(st: StreamState, chunk: Data) returns (r: SendResult)
      requires registry.Valid() && Holds(st)
      modifies this, registry, registry.streams.Values, st
      ensures registry.Valid() && Holds(st) && registry.streams.Values <= old(registry.streams.Values)
      ensures writerUp == old(writerUp)
      ensures !Usable(old(st.View())) ==> r == SendStreamClosed && outbox == old(outbox)
      ensures Usable(old(st.View())) && !writerUp ==> r == SendWriterGone && outbox == old(outbox)
      ensures Usable(old(st.View())) && writerUp ==>
                && old(outbox) + [Message(Write, st.localId, old(st.remoteId), chunk)] <= outbox
                && OnlyCloses(outbox[|old(outbox)| + 1..])
                && (r == SendOk <==> st.acks > old(st.acks))
                && (r == SendStreamClosed <==> st.acks <= old(st.acks) && st.closed)
                && (r == SendParked ==> !st.permit && (inbound == [] || !readerUp))
                && r != SendWriterGone
    {
      var seen;
      r, seen := StartChunk(st, chunk);
      if !r.SendOk? {
        return;
      }
      var w, _ := WaitAck(st, seen);
      match w {
        case Acked => r := SendOk;
        case Closed => r := SendStreamClosed;
        case Parked => r := SendParked;
      }
    }

    /** The loop of `send` up to its next await, which is that of the next chunk's `write_chunk`. */
    method SendOn(st: StreamState, rest: Data) returns (p: SendProgress)
      requires maxPayload > 0
      modifies st`permit, `outbox
      ensures SendTied(st.localId, rest, writerUp, maxPayload, p,
                       old(StateEntry(st)), old(outbox), StateEntry(st), outbox)
    {
      ghost var e, o := StateEntry(st), outbox;
      if rest == [] {
        p := SendDone(SendOk);
      } else {
        var take := Min(|rest|, maxPayload);
        var failure, seen := StartChunk(st, rest[..take]);
        if failure.SendOk? {
          var _ := Poll(st, seen);
          p := SendWaits(seen, rest[take..]);
        } else {
          p := SendDone(failure);
        }
      }
      SendTies(st.localId, rest, writerUp, maxPayload, p, e, o, StateEntry(st), outbox);
    }

    /** `send` from a wake-up on, up to its next await. */
    method SendWoken(st: StreamState, seen: nat, rest: Data) returns (p: SendProgress)
      requires maxPayload > 0 && st.permit
      modifies st`permit, `outbox
      ensures WokenTied(st.localId, seen, rest, writerUp, maxPayload, p,
                        old(StateEntry(st)), old(outbox), StateEntry(st), outbox)
    {
      ghost var e, o := StateEntry(st), outbox;
      var w := PollWoken(st, seen);
      ghost var polled := StateEntry(st);
      match w {
        case Acked => p := SendOn(st, rest);
        case Closed => p := SendDone(SendStreamClosed);
        case Parked => p := SendWaits(seen, rest);
      }
      WokenTies(st.localId, seen, rest, writerUp, maxPayload, p, e, o, polled, StateEntry(st), outbox);
    }

    /** One turn of `send`, from a park to the next; `k` bytes in `c` chunks have left before it. */
    method SendTurn(st: StreamState, seen: nat, rest: Data,
                    ghost before: seq<Message>, ghost data: Data, ghost k: nat, ghost c: nat)
      returns (p: SendProgress, ghost k': nat, ghost c': nat)
      requires registry.Valid() && Holds(st) && maxPayload > 0 && !st.permit && writerUp && seen <= st.acks
      requires SentSoFar(before, outbox, data, k, c, st.localId, maxPayload) && rest == data[k..]
      modifies this, registry, registry.streams.Values, st
      ensures registry.Valid() && Holds(st) && registry.streams.Values <= old(registry.streams.Values)
      ensures writerUp && SentSoFar(before, outbox, data, k', c', st.localId, maxPayload) && c <= c'
      ensures p.SendWaits? ==>
                && |inbound| < old(|inbound|) && !st.permit && p.rest == data[k'..]
                && (if c' == c then p.seen == seen else c' == c + 1 && p.seen > seen) && p.seen <= st.acks
      ensures p.SendDone? ==>
                && (p.result.SendOk? ==> k' == |data| && c' == c && st.acks > seen)
                && (p.result.SendStreamClosed? ==> !Usable(st.View()))
                && !p.result.SendWriterGone?
                && (p.result.SendParked? ==> !st.permit && (inbound == [] || !readerUp))
    {
      k', c' := k, c;
      ghost var slept := outbox;
      var woken, _ := Sleep(st);
      SentReplies(before, slept, outbox, data, k, c, st.localId, maxPayload);
      if !woken {
        return SendDone(SendParked), k', c';
      }
      ghost var woke, posted := StateEntry(st), outbox;
      p := SendWoken(st, seen, rest);
      WokenShows(st.localId, seen, rest, writerUp, maxPayload, p, woke, posted, StateEntry(st), outbox);
      if woke.view.acks > seen {
        SendShows(st.localId, rest, writerUp, maxPayload, p, Settled(woke), posted, StateEntry(st), outbox);
        k', c' := SentBy(before, posted, outbox, data, k, c, rest, p, st.localId, maxPayload);
      }
    }

    /** `send`: `data` leaves in order, in `c` non-empty WRTEs of at most `maxPayload` bytes; how many
        bytes have left when it ends early is `k`. Ok means that all have left and every chunk has been
        acknowledged. */
    method Send(st: StreamState, data: Data) returns (r: SendResult, ghost k: nat, ghost c: nat)
      requires registry.Valid() && Holds(st) && maxPayload > 0
      modifies this, registry, registry.streams.Values, st
      ensures registry.Valid() && Holds(st) && registry.streams.Values <= old(registry.streams.Values)
      ensures SentSoFar(old(outbox), outbox, data, k, c, st.localId, maxPayload)
      ensures r == SendOk ==> k == |data| && st.acks >= old(st.acks) + c
      ensures r == SendStreamClosed ==> !Usable(st.View())
      ensures r == SendWriterGone <==> data != [] && Usable(old(st.View())) && !old(writerUp)
      ensures r == SendParked ==> !st.permit && (inbound == [] || !readerUp)
      ensures data != [] && !Usable(old(st.View())) ==> r == SendStreamClosed
      ensures data == [] || !Usable(old(st.View())) || !old(writerUp) ==> outbox == old(outbox)
    {
      ghost var before, e := outbox, StateEntry(st);
      var p := SendOn(st, data);
      SentNothing(before, data, st.localId, maxPayload);
      SendShows(st.localId, data, writerUp, maxPayload, p, e, before, StateEntry(st), outbox);
      k, c := SentBy(before, before, outbox, data, 0, 0, data, p, st.localId, maxPayload);
      if p.SendDone? {
        return p.result, k, c;
      }
      while p.SendWaits?
        invariant registry.Valid() && Holds(st) && registry.streams.Values <= old(registry.streams.Values)
        invariant writerUp && SentSoFar(before, outbox, data, k, c, st.localId, maxPayload)
        invariant p.SendWaits? ==>
                    !st.permit && p.rest == data[k..] && c > 0 && old(st.acks) + c - 1 <= p.seen <= st.acks
        invariant p.SendDone? ==>
                    && (p.result.SendOk? ==> k == |data| && st.acks >= old(st.acks) + c)
                    && (p.result.SendStreamClosed? ==> !Usable(st.View()))
                    && !p.result.SendWriterGone?
                    && (p.result.SendParked? ==> !st.permit && (inbound == [] || !readerUp))
        decreases if p.SendWaits? then 1 + |inbound| else 0
      {
        p, k, c := SendTurn(st, p.seen, p.rest, before, data, k, c);
      }
      r := p.result;
    }

    /** `recv` on a queue that is not empty or has lost its sender. */
    method RecvChunk(st: StreamState) returns (r: Option<Data>, ok: bool)
      requires st.queue != [] || !st.sender
      modifies st`queue, `outbox
      ensures RecvTied(st.localId, writerUp, r, ok, old(StateEntry(st)), old(outbox), StateEntry(st), outbox)
      ensures old(st.queue) == [] ==> ok && r == None && outbox == old(outbox) && st.queue == []
      ensures old(st.queue) != [] ==>
                && st.queue == old(st.queue)[1..]
                && (ok <==> !Usable(st.View()) || writerUp)
                && (ok ==> r == Some(old(st.queue)[0]))
                && outbox == old(outbox) +
                     if Usable(st.View()) && writerUp then [Empty(Okay, st.localId, st.remoteId)] else []
    {
      r, ok := None, true;
      if st.queue == [] {
        return;
      }
      var chunk := st.queue[0];
      st.queue := st.queue[1..];
      var remote := Ids(st);
      if remote != 0 {
        ok := Post(Empty(Okay, st.localId, remote));
      }
      if ok {
        r := Some(chunk);
      }
    }

    /** `close_now`: closes once, leaves the registry, tells the device if the writer still runs. */
    method CloseNow(st: StreamState)
      requires registry.Valid() && Holds(st)
      modifies st, registry, `outbox
      ensures registry.Valid() && Holds(st)
      ensures CloseTied(st.localId, writerUp, old(StateEntry(st)), old(outbox), StateEntry(st), outbox)
      ensures old(st.closed) ==> unchanged(st) && unchanged(registry) && outbox == old(outbox)
      ensures !old(st.closed) ==>
                && st.View() == CloseView(old(st.View()))
                && registry.streams == old(registry.streams) - {st.localId}
                && outbox == old(outbox) + if writerUp then [Empty(Close, st.localId, st.remoteId)] else []
    {
      if st.closed {
        return;
      }
      var remote := st.remoteId;
      st.MarkClosed();
      var _ := registry.Remove(st.localId);
      var _ := Post(Empty(Close, st.localId, remote));
    }

    /** A stream is dropped: closed, and with it the receiving half of its queue. */
    method Drop(st: StreamState)
      requires registry.Valid() && Holds(st)
      modifies st, registry, `outbox
      ensures registry.Valid() && Holds(st)
      ensures DropTied(st.localId, writerUp, maxPayload, old(StateEntry(st)), old(outbox), StateEntry(st), outbox)
    {
      CloseNow(st);
      st.receiver := false;
      st.queue := [];
    }

    /** `open_stream` up to its wait: the stream is registered and its OPEN posted; if that fails the
        entry stays behind. */
    method StartOpen(service: Data, ghost k: nat) returns (st: StreamState, posted: bool)
      requires registry.Valid() && registry.nextId == CounterAfter(k)
      modifies registry, `outbox
      ensures registry.Valid() && fresh(st) && st.localId == IdOf(k)
      ensures registry.nextId == CounterAfter(k + 1) && registry.streams == old(registry.streams)[IdOf(k) := st]
      ensures var (r, posts) := StreamModel.OpenStream(IdOf(k), service, writerUp);
              && Stretched((r, posts), old(outbox), StateEntry(st), outbox)
              && (if posted then r.owner == Opening else r.outcome == OpenDisconnected)
    {
      st := registry.Register(k);
      posted := Post(Message(Open, st.localId, 0, service + [0]));
      if !posted {
        st.receiver := false;
      }
    }

    /** `open_stream` from a wake-up on. */
    method OpenWoken(st: StreamState) returns (p: OpenProgress)
      requires registry.Valid() && Holds(st) && st.permit
      modifies st, registry
      ensures registry.Valid() && Holds(st) && registry.nextId == old(registry.nextId)
      ensures registry.streams == if p.OpenRefused? then old(registry.streams) - {st.localId} else old(registry.streams)
      ensures OpenTied(st.localId, writerUp, maxPayload, p, old(StateEntry(st)), outbox, StateEntry(st), outbox)
    {
      ghost var e := StateEntry(st);
      var w := PollWoken(st, 0);
      if w.Closed? || (w.Acked? && st.remoteId == 0) {
        var _ := registry.Remove(st.localId);
        st.receiver := false;
        st.queue := [];
        p := OpenRefused;
      } else {
        p := if w.Acked? then OpenSucceeds else OpenWaits;
      }
      OpenTies(st.localId, writerUp, maxPayload, p, e, outbox, StateEntry(st), outbox);
    }

    /** One turn of the wait of `open_stream`, from a park to the next; none if nothing wakes it. */
    method OpenTurn(st: StreamState, ghost first: Snapshot, ghost n: nat)
      returns (p: Option<OpenProgress>, ghost m: nat)
      requires registry.Valid() && Holds(st) && Awaited(first, Snap(st), st.localId, n)
      requires !st.permit && st.acks == 0 && !st.closed
      modifies this, registry, registry.streams.Values, st
      ensures registry.Valid() && Holds(st) && registry.streams.Values <= old(registry.streams.Values)
      ensures registry.nextId == first.nextId && first.outbox <= outbox
      ensures OpenDecided(first, readerUp, st.localId, n + m, p)
      ensures p == Some(OpenSucceeds) ==> st.acks > 0 && st.remoteId != 0
      ensures p == Some(OpenRefused) ==> st.localId !in registry.streams
      ensures p == Some(OpenWaits) ==>
                && Awaited(first, Snap(st), st.localId, n + m) && !st.permit && st.acks == 0 && !st.closed
                && |inbound| < old(|inbound|)
    {
      ghost var last := Snap(st);
      var woken;
      woken, m := Sleep(st);
      AwaitedJoins(first, last, Snap(st), st.localId, n, m);
      if !woken {
        return None, m;
      }
      ghost var woke := Snap(st);
      var q := OpenWoken(st);
      OpenShows(st.localId, writerUp, maxPayload, q, woke.entry, outbox, StateEntry(st), outbox);
      if q.OpenWaits? {
        AwaitedConsumes(first, woke, Snap(st), st.localId, n + m);
      }
      p := Some(q);
    }

    /** The wait of `open_stream`; none if no message is left to end it. */
    method OpenWait(st: StreamState) returns (p: Option<OpenProgress>, ghost n: nat)
      requires registry.Valid() && Holds(st) && !st.permit && st.acks == 0 && !st.closed
      modifies this, registry, registry.streams.Values, st
      ensures registry.Valid() && Holds(st)
      ensures registry.nextId == old(registry.nextId) && old(outbox) <= outbox
      ensures p != Some(OpenWaits) && OpenDecided(old(Snap(st)), readerUp, st.localId, n, p)
      ensures p == Some(OpenSucceeds) ==> st.acks > 0 && st.remoteId != 0
      ensures p == Some(OpenRefused) ==> st.localId !in registry.streams
    {
      n := 0;
      ghost var first := Snap(st);
      AwaitedNothing(first, first, st.localId);
      while true
        invariant registry.Valid() && Holds(st) && registry.streams.Values <= old(registry.streams.Values)
        invariant Awaited(first, Snap(st), st.localId, n) && !st.permit && st.acks == 0 && !st.closed
        decreases |inbound|
      {
        ghost var m;
        p, m := OpenTurn(st, first, n);
        n := n + m;
        if p != Some(OpenWaits) {
          return;
        }
      }
    }

    /** `open_stream` for registration `k` of the session. The first `n` messages that arrive decide:
        a stream comes back exactly when an OKAY among them has brought a remote id, and a refused
        stream has left the registry. */
    method OpenStream(service: Data, ghost k: nat) returns (r: OpenResult, ghost n: nat)
      requires registry.Valid() && registry.nextId == CounterAfter(k)
      modifies this, registry, registry.streams.Values
      ensures registry.Valid()
      ensures r == InvalidName <==> 0 in service
      ensures 0 in service ==> outbox == old(outbox) && unchanged(registry)
      ensures 0 !in service ==> registry.nextId == CounterAfter(k + 1)
      ensures 0 !in service && old(writerUp) ==>
                old(outbox) + [Message(Open, IdOf(k), 0, service + [0])] <= outbox && r != OpenWriterGone
      ensures 0 !in service && !old(writerUp) ==>
                r == OpenWriterGone && outbox == old(outbox) && IdOf(k) in registry.streams
      ensures 0 !in service && old(writerUp) ==>
                && n <= |old(inbound)|
                && var stopped := readerUp != old(readerUp);
                   var v := EntryAfterAll(Entry(FRESH_VIEW, true), IdOf(k), old(inbound)[..n], stopped).view;
                   && (r.StreamOpened? <==> v.acks > 0 && v.remote != 0)
                   && (r.ServiceRefused? <==> (v.acks > 0 && v.remote == 0) || (v.acks == 0 && v.closed))
      ensures r.StreamOpened? ==>
                fresh(r.stream) && r.stream.localId == IdOf(k) && r.stream.remoteId != 0 && r.stream.acks > 0
      ensures r.ServiceRefused? ==> IdOf(k) !in registry.streams
    {
      n := 0;
      if 0 in service {
        return InvalidName, n;
      }
      var st, posted := StartOpen(service, k);
      if !posted {
        return OpenWriterGone, n;
      }
      var p;
      p, n := OpenWait(st);
      match p {
        case None => r := OpenParked;
        case Some(end) => r := if end.OpenSucceeds? then StreamOpened(st) else ServiceRefused;
      }
    }
  }

  /** The chunk of a stretch, if it posted one, is the next piece of the data. */
  lemma SentBy(a: seq<Message>, b: seq<Message>, b': seq<Message>, data: Data, k: nat, c: nat, rest: Data,
               p: SendProgress, id: u32, max: nat) returns (k': nat, c': nat)
    requires max > 0 && SentSoFar(a, b, data, k, c, id, max) && rest == data[k..]
    requires p.SendDone? ==> b' == b
    requires p.SendWaits? ==>
               var take := Min(|rest|, max);
               && rest != [] && p.rest == rest[take..]
               && exists remote: u32 :: remote != 0 && b' == b + [Message(Write, id, remote, rest[..take])]
    ensures SentSoFar(a, b', data, k', c', id, max)
    ensures p.SendDone? ==> k' == k && c' == c
    ensures p.SendWaits? ==> c' == c + 1 && p.rest == data[k'..]
  {
    k', c' := k, c;
    if p.SendWaits? {
      var take := Min(|rest|, max);
      var remote: u32 :| remote != 0 && b' == b + [Message(Write, id, remote, rest[..take])];
      var msg := Message(Write, id, remote, rest[..take]);
      assert msg.payload == data[k..k + |msg.payload|];
      SentChunk(a, b, msg, data, k, c, id, max);
      k', c' := k + take, c + 1;
    }
  }

  function WithPermit(e: Entry, permit: bool): Entry {
    e.(view := e.view.(permit := permit))
  }

  lemma DispatchSettled(e: Entry, permit: bool, msg: Message)
    ensures Settled(Dispatch(WithPermit(e, permit), msg).entry) == Settled(Dispatch(e, msg).entry)
  {
    match msg.command {
      case Okay =>
      case Write =>
      case Close =>
      case _ =>
    }
  }

  /** A stored wake-up makes no difference to what a message does. */
  lemma SettledAgrees(e: Entry, f: Entry, id: u32, msg: Message, stops: bool)
    requires Settled(e) == Settled(f)
    ensures Settled(EntryAfter(e, id, msg, stops)) == Settled(EntryAfter(f, id, msg, stops))
  {
    assert f == WithPermit(e, f.view.permit) by {
      assert Settled(e).view == e.view.(permit := false) && Settled(f).view == f.view.(permit := false);
    }
    DispatchSettled(e, f.view.permit, msg);
  }

  /** One more turn of the reader. */
  lemma AwaitedOn(a: Snapshot, b: Snapshot, c: Snapshot, id: u32, n: nat)
    requires Awaited(a, b, id, n) && b.readerUp && b.inbound != []
    requires c.inbound == b.inbound[1..] && c.writerUp == b.writerUp && c.nextId == b.nextId
    requires c.entry == EntryAfter(b.entry, id, b.inbound[0], !c.readerUp)
    requires c.outbox == b.outbox || c.outbox == b.outbox + [Empty(Close, b.inbound[0].arg1, b.inbound[0].arg0)]
    ensures Awaited(a, c, id, n + 1)
  {
    assert a.inbound[..n + 1][..n] == a.inbound[..n];
    SettledAgrees(b.entry, EntryAfterAll(a.entry, id, a.inbound[..n], false), id, b.inbound[0], !c.readerUp);
  }

  lemma {:induction false} SettledAgreesAll(e: Entry, f: Entry, id: u32, msgs: seq<Message>, stopped: bool)
    requires Settled(e) == Settled(f)
    ensures Settled(EntryAfterAll(e, id, msgs, stopped)) == Settled(EntryAfterAll(f, id, msgs, stopped))
    decreases |msgs|
  {
    if msgs != [] {
      var k := |msgs| - 1;
      SettledAgreesAll(e, f, id, msgs[..k], false);
      SettledAgrees(EntryAfterAll(e, id, msgs[..k], false), EntryAfterAll(f, id, msgs[..k], false), id, msgs[k],
                    stopped);
    }
  }

  lemma {:induction false} EntryAfterJoin(e: Entry, id: u32, a: seq<Message>, b: seq<Message>, stopped: bool)
    requires b != [] || !stopped
    ensures EntryAfterAll(e, id, a + b, stopped) == EntryAfterAll(EntryAfterAll(e, id, a, false), id, b, stopped)
    decreases |b|
  {
    if b == [] {
      assert a + b == a;
    } else {
      var k := |b| - 1;
      EntryAfterJoin(e, id, a, b[..k], false);
      assert (a + b)[..|a + b| - 1] == a + b[..k];
    }
  }

  lemma AwaitedNothing(a: Snapshot, b: Snapshot, id: u32)
    requires b == a.(entry := b.entry) && Settled(b.entry) == Settled(a.entry)
    ensures Awaited(a, b, id, 0)
  {
    assert a.inbound[0..] == a.inbound && a.inbound[..0] == [] && a.outbox[|a.outbox|..] == [];
  }

  /** A wake-up is consumed. */
  lemma AwaitedConsumes(a: Snapshot, b: Snapshot, c: Snapshot, id: u32, n: nat)
    requires Awaited(a, b, id, n) && c == b.(entry := c.entry) && Settled(c.entry) == Settled(b.entry)
    ensures Awaited(a, c, id, n)
  {
  }

  /** Two waits in a row are one. */
  lemma AwaitedJoins(a: Snapshot, b: Snapshot, c: Snapshot, id: u32, n: nat, m: nat)
    requires Awaited(a, b, id, n) && Awaited(b, c, id, m) && (m == 0 ==> c.readerUp == b.readerUp)
    requires m > 0 ==> b.readerUp
    ensures Awaited(a, c, id, n + m)
  {
    var x, y := a.inbound[..n], b.inbound[..m];
    assert a.inbound[..n + m] == x + y;
    assert c.outbox[|a.outbox|..] == b.outbox[|a.outbox|..] + c.outbox[|b.outbox|..];
    SettledAgreesAll(b.entry, EntryAfterAll(a.entry, id, x, b.readerUp != a.readerUp), id, y, c.readerUp != b.readerUp);
    if m == 0 {
      assert x + y == x;
    } else {
      EntryAfterJoin(a.entry, id, x, y, c.readerUp != b.readerUp);
    }
  }
}
