/** The shared per-stream state and the registry, as the objects the tasks update in place. Each
    method is one stretch between two awaits, stated with the functions of `StreamModel`. */
module Registry {
  import opened Bytes
  import opened Wire
  import opened StreamModel
  import opened StreamIds

  class StreamState {
    const localId: u32
    var remoteId: u32
    var closed: bool
    var acks: nat
    var permit: bool
    var sender: bool
    var receiver: bool
    var queue: seq<Data>

    constructor (id: u32)
      ensures localId == id && View() == FRESH_VIEW
    {
      localId := id;
      remoteId, closed, acks, permit, sender, receiver, queue := 0, false, 0, false, true, true, [];
    }

    function View(): StreamView
      reads this
    {
      StreamView(remoteId, closed, acks, permit, sender, receiver, queue)
    }

    method Ack(remote: u32)
      modifies this
      ensures View() == AckView(old(View()), remote)
      ensures remoteId == (if old(remoteId) == 0 then remote else old(remoteId)) && acks == old(acks) + 1 && permit
      ensures closed == old(closed) && sender == old(sender) && receiver == old(receiver) && queue == old(queue)
    {
      if remoteId == 0 {
        remoteId := remote;
      }
      acks := acks + 1;
      NotifyOne();
    }

    method NotifyOne()
      modifies `permit
      ensures permit
    {
      permit := true;
    }

    method MarkClosed()
      modifies this
      ensures View() == CloseView(old(View()))
      ensures closed && !sender && permit
      ensures remoteId == old(remoteId) && acks == old(acks) && receiver == old(receiver) && queue == old(queue)
    {
      closed := true;
      sender := false;
      NotifyOne();
    }

    method Deliver(data: Data) returns (heard: bool)
      modifies this
      ensures heard == Listening(old(View()))
      ensures View() == DeliverView(old(View()), data)
      ensures heard == (old(sender) && old(receiver))
      ensures queue == old(queue) + if heard then [data] else []
      ensures remoteId == old(remoteId) && closed == old(closed) && acks == old(acks) && permit == old(permit)
      ensures sender == old(sender) && receiver == old(receiver)
    {
      heard := sender && receiver;
      if heard {
        queue := queue + [data];
      }
    }
  }

  class Registry {
    var streams: map<u32, StreamState>
    var nextId: u32

    constructor ()
      ensures streams == map[] && nextId == CounterAfter(0) && Valid()
    {
      streams, nextId := map[], 1;
    }

    /** Keys are the local ids, so that no two entries are one stream. */
    ghost predicate Valid()
      reads this
    {
      forall i :: i in streams ==> streams[i].localId == i
    }

    /** The entry of a local id; `FRESH_VIEW` stands for no stream at all. */
    ghost function EntryOf(i: u32): Entry
      reads this, streams.Values
    {
      if i in streams then Entry(streams[i].View(), true) else Entry(FRESH_VIEW, false)
    }

    /** Somebody listens to payloads for a local id: it is registered and both halves of the queue
        are there. */
    ghost predicate Hears(i: u32)
      reads this, streams.Values
    {
      i in streams && streams[i].sender && streams[i].receiver
    }

    /** Registration `k` returns id `IdOf(k)` and a fresh stream; whatever the id mapped to before
        is no longer reachable through the registry. */
    method Register(ghost k: nat) returns (state: StreamState)
      requires Valid() && nextId == CounterAfter(k)
      modifies this
      ensures Valid() && fresh(state) && state.View() == FRESH_VIEW
      ensures state.localId == IdOf(k) && nextId == CounterAfter(k + 1)
      ensures streams == old(streams)[IdOf(k) := state]
    {
      DrawsIdOf(k);
      var localId := nextId;
      nextId := FetchAdd(nextId);
      if localId == 0 {
        localId := nextId;
        nextId := FetchAdd(nextId);
      }
      state := new StreamState(localId);
      streams := streams[localId := state];
    }

    method Get(i: u32) returns (state: StreamState?)
      ensures state == if i in streams then streams[i] else null
    {
      state := if i in streams then streams[i] else null;
    }

    method Remove(i: u32) returns (state: StreamState?)
      requires Valid()
      modifies this
      ensures Valid() && nextId == old(nextId)
      ensures state == if i in old(streams) then old(streams)[i] else null
      ensures streams == old(streams) - {i}
    {
      state := if i in streams then streams[i] else null;
      streams := streams - {i};
    }

    /** Empties the registry and closes every stream that was in it. */
    method CloseAll()
      requires Valid()
      modifies this, streams.Values
      ensures Valid() && streams == map[] && nextId == old(nextId)
      ensures forall st :: st in old(streams.Values) ==> st.View() == CloseView(old(st.View()))
    {
      var rest := streams.Values;
      streams := map[];
      while rest != {}
        invariant rest <= old(streams.Values) && streams == map[] && nextId == old(nextId)
        invariant forall st :: st in old(streams.Values) ==>
                    st.View() == if st in rest then old(st.View()) else CloseView(old(st.View()))
        decreases rest
      {
        var st :| st in rest;
        st.MarkClosed();
        rest := rest - {st};
      }
    }
  }
}
