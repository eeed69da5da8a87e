/** One multiplexed stream as a value: what the reader task does to it on a message from the
    device, and what its owner does between two awaits. The heap classes in `Registry` and the
    step system in `StreamMachine` are both stated with these functions. */
module StreamModel {
  import opened Bytes
  import opened Wire

  /** `sender` is the registry's half of the payload queue (dropped on close), `receiver` the
      owner's half (dropped with the stream); `permit` is the stored `notify_one`. */
  datatype StreamView = StreamView(
    remote: u32, closed: bool, acks: nat, permit: bool,
    sender: bool, receiver: bool, queue: seq<Data>)

  const FRESH_VIEW := StreamView(0, false, 0, false, true, true, [])

  function AckView(v: StreamView, remote: u32): StreamView {
    v.(remote := if v.remote == 0 then remote else v.remote, acks := v.acks + 1, permit := true)
  }

  function CloseView(v: StreamView): StreamView {
    v.(closed := true, sender := false, permit := true)
  }

  predicate Listening(v: StreamView) {
    v.sender && v.receiver
  }

  function DeliverView(v: StreamView, data: Data): StreamView {
    if Listening(v) then v.(queue := v.queue + [data]) else v
  }

  /** `wait_ack` parks: a permit left over from an earlier wake-up is consumed by the first poll,
      the state is re-checked, and the second poll parks. */
  function Park(v: StreamView): StreamView {
    v.(permit := false)
  }

  /** A stream and whether the registry still maps its local id to it. */
  datatype Entry = Entry(view: StreamView, registered: bool)

  /** `Registry::close_all` on one stream. */
  function CloseEntry(e: Entry): Entry {
    if e.registered then Entry(CloseView(e.view), false) else e
  }

  /** The reader task on one message: the addressed stream afterwards, the messages it posts, and
      whether the reader stops. */
  datatype Dispatched = Dispatched(entry: Entry, replies: seq<Message>, stop: bool)

  function Dispatch(e: Entry, msg: Message): Dispatched {
    match msg.command
    case Okay =>
      Dispatched(if e.registered then e.(view := AckView(e.view, msg.arg0)) else e, [], false)
    case Write =>
      if e.registered && Listening(e.view) then
        Dispatched(e.(view := DeliverView(e.view, msg.payload)), [], false)
      else
        Dispatched(e, [Empty(Close, msg.arg1, msg.arg0)], false)
    case Close =>
      Dispatched(if e.registered then Entry(CloseView(e.view), false) else e, [], false)
    case StartTls => Dispatched(e, [], true)
    case Open => Dispatched(e, [], true)
    case _ => Dispatched(e, [], false)
  }

  /** What the owner of a stream is doing: parked in `open_stream`, holding the stream with nothing
      running, parked in `send` with `rest` still to be cut into chunks, or without a stream. */
  datatype Owner = Opening | Idle | Writing(seen: nat, rest: Data) | Gone

  /** Result of the owner's last completed call or woken wait. */
  datatype Outcome =
    | Pending | Opened | Refused | OpenDisconnected
    | Sent | SendClosed | SendDisconnected
    | Received(chunk: Data) | EndOfStream | RecvDisconnected | ClosedByUs

  datatype Call = Send(data: Data) | Recv | CloseStream | DropStream | Wake

  /** History of one stream, read only by the properties. */
  datatype Log = Log(
    posts: seq<Message>,      // what the owner posted
    offered: Data,            // the arguments of all `send` calls
    posted: Data,             // the payload bytes of its WRTEs
    acked: nat,               // how often `write_chunk` returned Ok
    delivered: seq<Data>,     // payloads the reader queued
    taken: seq<Data>,         // payloads `recv` took from the queue
    handed: seq<Data>,        // payloads `recv` returned
    ended: bool,              // the device's CLSE closed the stream
    deviceId: u32,            // the id the device gave the stream, 0 before that
    accepted: Data,           // bytes the device's handler received
    produced: seq<Data>,      // chunks the device queued for us
    emitted: seq<Data>)       // chunks the device sent to us

  const FRESH_LOG := Log([], [], [], 0, [], [], [], false, 0, [], [], [])

  datatype Rec = Rec(view: StreamView, registered: bool, owner: Owner, outcome: Outcome, log: Log)

  predicate Blocked(r: Rec) {
    r.owner.Opening? || r.owner.Writing?
  }

  function Seen(r: Rec): nat {
    if r.owner.Writing? then r.owner.seen else 0
  }

  /** `Stream::ids` succeeds. */
  predicate Usable(v: StreamView) {
    !v.closed && v.remote != 0
  }

  /** `Session::open_stream` up to its await. */
  function OpenStream(id: u32, service: Data, writerUp: bool): (Rec, seq<Message>)
  {
    var open := Message(Open, id, 0, service + [0]);
    if writerUp then
      (Rec(FRESH_VIEW, true, Opening, Pending, FRESH_LOG.(posts := [open])), [open])
    else
      (Rec(FRESH_VIEW.(receiver := false), true, Gone, OpenDisconnected, FRESH_LOG), [])
  }

  function Posting(r: Rec, msg: Message): Rec {
    r.(log := r.log.(posts := r.log.posts + [msg]))
  }

  /** The loop of `Stream::send` up to its next await: cut off a chunk, post it, park. */
  function SendRest(id: u32, r: Rec, rest: Data, writerUp: bool, max: nat): (Rec, seq<Message>)
  {
    if rest == [] then (r.(owner := Idle, outcome := Sent), [])
    else if !Usable(r.view) then (r.(owner := Idle, outcome := SendClosed), [])
    else if !writerUp then (r.(owner := Idle, outcome := SendDisconnected), [])
    else
      var take := Min(|rest|, max);
      var msg := Message(Write, id, r.view.remote, rest[..take]);
      var posted := Posting(r, msg);
      (posted.(owner := Writing(r.view.acks, rest[take..]), view := Park(r.view), outcome := Pending,
               log := posted.log.(posted := r.log.posted + rest[..take])), [msg])
  }

  /** `wait_ack` after a wake-up, and what its caller does until the next await. */
  function Woken(id: u32, r: Rec, writerUp: bool, max: nat): (Rec, seq<Message>)
    requires Blocked(r)
  {
    var v := Park(r.view);
    if v.acks > Seen(r) then
      match r.owner
      case Opening =>
        if v.remote == 0 then (LeaveRefused(r), [])
        else (r.(view := v, owner := Idle, outcome := Opened), [])
      case Writing(_, rest) =>
        SendRest(id, r.(view := v, log := r.log.(acked := r.log.acked + 1)), rest, writerUp, max)
    else if v.closed then
      if r.owner.Opening? then (LeaveRefused(r), [])
      else (r.(view := v, owner := Idle, outcome := SendClosed), [])
    else
      (r.(view := v), [])
  }

  /** The error path of `open_stream` after its wait. */
  function LeaveRefused(r: Rec): Rec {
    r.(view := r.view.(permit := false, receiver := false, queue := []), registered := false,
       owner := Gone, outcome := Refused)
  }

  /** `Stream::close_now`. */
  function CloseNow(id: u32, r: Rec, writerUp: bool): (Rec, seq<Message>) {
    if r.view.closed then (r, [])
    else
      var closed := r.(view := CloseView(r.view), registered := false);
      var msg := Empty(Close, id, r.view.remote);
      if writerUp then (Posting(closed, msg), [msg]) else (closed, [])
  }

  function Receive(id: u32, r: Rec, writerUp: bool): (Rec, seq<Message>) {
    if r.view.queue == [] then (r.(outcome := EndOfStream), [])
    else
      var chunk := r.view.queue[0];
      var r' := r.(view := r.view.(queue := r.view.queue[1..]),
                   log := r.log.(taken := r.log.taken + [chunk]));
      var msg := Empty(Okay, id, r.view.remote);
      if Usable(r.view) && !writerUp then (r'.(outcome := RecvDisconnected), [])
      else
        var done := r'.(outcome := Received(chunk),
                        log := r'.log.(handed := r.log.handed + [chunk]));
        if Usable(r.view) then (Posting(done, msg), [msg]) else (done, [])
  }

  /** A call the owner can make, or a wake-up it can take, without blocking. */
  predicate CanCall(r: Rec, c: Call) {
    match c
    case Wake => Blocked(r) && r.view.permit
    case Recv => r.owner.Idle? && (r.view.queue != [] || !r.view.sender)
    case _ => r.owner.Idle?
  }

  function OwnerStep(id: u32, r: Rec, c: Call, writerUp: bool, max: nat): (Rec, seq<Message>)
    requires CanCall(r, c)
  {
    match c
    case Send(data) =>
      SendRest(id, r.(log := r.log.(offered := r.log.offered + data)), data, writerUp, max)
    case Recv => Receive(id, r, writerUp)
    case CloseStream =>
      var (r', posts) := CloseNow(id, r, writerUp);
      (r'.(outcome := ClosedByUs), posts)
    case DropStream =>
      var (r', posts) := CloseNow(id, r, writerUp);
      (r'.(view := r'.view.(receiver := false, queue := []), owner := Gone, outcome := ClosedByUs), posts)
    case Wake => Woken(id, r, writerUp, max)
  }
}
