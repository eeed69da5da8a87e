/** The stretches of an owner between two awaits: what a method did to a stream and the outbox, tied to
    the function of `StreamModel` that the step system runs. */
module OwnerStretches {
  import opened Bytes
  import opened Wire
  import opened StreamModel
  import opened StreamMachine
  import opened StreamInvariant

  datatype Wait = Acked | Closed | Parked

  datatype SendResult = SendOk | SendStreamClosed | SendWriterGone | SendParked

  /** Everything but the stored wake-up. */
  function Settled(e: Entry): Entry {
    e.(view := Park(e.view))
  }

  /** Where `send` is after a stretch: done, or waiting beyond `seen` with `rest` still to be sent. */
  datatype SendProgress = SendDone(result: SendResult) | SendWaits(seen: nat, rest: Data)

  predicate SendAgrees(p: SendProgress, y: Rec) {
    match p
    case SendWaits(seen, rest) => y.owner == Writing(seen, rest)
    case SendDone(r) =>
      y.owner.Idle? && y.outcome == match r
                                    case SendOk => Sent
                                    case SendStreamClosed => SendClosed
                                    case SendWriterGone => SendDisconnected
                                    case SendParked => Pending
  }

  /** Where `open_stream` is after a stretch. */
  datatype OpenProgress = OpenWaits | OpenSucceeds | OpenRefused

  predicate OpenAgrees(p: OpenProgress, y: Rec) {
    match p
    case OpenWaits => y.owner.Opening?
    case OpenSucceeds => y.owner.Idle? && y.outcome == Opened
    case OpenRefused => y.owner.Gone? && y.outcome == Refused
  }

  /** The step of a record that agrees with the stream before: the stream and the outbox after. */
  predicate Stretched(step: (Rec, seq<Message>), o: seq<Message>, e': Entry, o': seq<Message>) {
    e' == Entry(step.0.view, step.0.registered) && o' == o + step.1
  }

  /** The stretch of `send` from `rest` on is that of `SendRest`. */
  ghost predicate SendTied(id: u32, rest: Data, up: bool, max: nat, p: SendProgress,
                           e: Entry, o: seq<Message>, e': Entry, o': seq<Message>) {
    forall x: Rec :: x.view == e.view && x.registered == e.registered ==>
      var step := SendRest(id, x, rest, up, max);
      Stretched(step, o, e', o') && SendAgrees(p, step.0)
  }

  /** The stretch of `send` after a wake-up is that of `Woken`. */
  ghost predicate WokenTied(id: u32, seen: nat, rest: Data, up: bool, max: nat, p: SendProgress,
                            e: Entry, o: seq<Message>, e': Entry, o': seq<Message>) {
    forall x: Rec :: x.view == e.view && x.registered == e.registered && x.owner == Writing(seen, rest) ==>
      var step := Woken(id, x, up, max);
      Stretched(step, o, e', o') && SendAgrees(p, step.0)
  }

  lemma SendTies(id: u32, rest: Data, up: bool, max: nat, p: SendProgress,
                 e: Entry, o: seq<Message>, e': Entry, o': seq<Message>)
    requires max > 0
    requires rest == [] ==> p == SendDone(SendOk) && e' == e && o' == o
    requires rest != [] && !Usable(e.view) ==> p == SendDone(SendStreamClosed) && e' == e && o' == o
    requires rest != [] && Usable(e.view) && !up ==> p == SendDone(SendWriterGone) && e' == e && o' == o
    requires rest != [] && Usable(e.view) && up ==>
               var take := Min(|rest|, max);
               && p == SendWaits(e.view.acks, rest[take..]) && e' == Settled(e)
               && o' == o + [Message(Write, id, e.view.remote, rest[..take])]
    ensures SendTied(id, rest, up, max, p, e, o, e', o')
  {
    assert o + [] == o;
  }

  lemma WokenTies(id: u32, seen: nat, rest: Data, up: bool, max: nat, p: SendProgress,
                  e: Entry, o: seq<Message>, polled: Entry, e': Entry, o': seq<Message>)
    requires polled == Settled(e)
    requires e.view.acks > seen ==> SendTied(id, rest, up, max, p, polled, o, e', o')
    requires e.view.acks <= seen ==> e' == polled && o' == o
    requires e.view.acks <= seen ==> p == if e.view.closed then SendDone(SendStreamClosed) else SendWaits(seen, rest)
    ensures WokenTied(id, seen, rest, up, max, p, e, o, e', o')
  {
    assert o + [] == o;
  }

  /** What a tie says of the stream and the outbox. */
  lemma SendShows(id: u32, rest: Data, up: bool, max: nat, p: SendProgress,
                  e: Entry, o: seq<Message>, e': Entry, o': seq<Message>)
    requires max > 0 && SendTied(id, rest, up, max, p, e, o, e', o')
    ensures Settled(e') == Settled(e)
    ensures p.SendDone? ==>
              && o' == o
              && p.result == (if rest == [] then SendOk
                              else if !Usable(e.view) then SendStreamClosed
                              else SendWriterGone)
              && (rest != [] && Usable(e.view) ==> !up)
    ensures p.SendWaits? ==>
              var take := Min(|rest|, max);
              && rest != [] && Usable(e.view) && up && p.seen == e.view.acks && p.rest == rest[take..]
              && o' == o + [Message(Write, id, e.view.remote, rest[..take])] && !e'.view.permit
  {
    var x := Rec(e.view, e.registered, Idle, Pending, FRESH_LOG);
    var step := SendRest(id, x, rest, up, max);
    assert Stretched(step, o, e', o') && SendAgrees(p, step.0);
    assert o + [] == o;
  }

  lemma WokenSends(id: u32, seen: nat, rest: Data, up: bool, max: nat, p: SendProgress,
                   e: Entry, o: seq<Message>, e': Entry, o': seq<Message>, x: Rec)
    requires max > 0 && WokenTied(id, seen, rest, up, max, p, e, o, e', o') && e.view.acks > seen
    requires x.view == Settled(e).view && x.registered == e.registered
    ensures var step := SendRest(id, x, rest, up, max); Stretched(step, o, e', o') && SendAgrees(p, step.0)
  {
    var y := x.(view := e.view, owner := Writing(seen, rest));
    var woken := Woken(id, y, up, max);
    assert Stretched(woken, o, e', o') && SendAgrees(p, woken.0);
  }

  /** After a wake-up: nothing happened, or the stream was closed, or the next chunk's stretch ran. */
  lemma WokenShows(id: u32, seen: nat, rest: Data, up: bool, max: nat, p: SendProgress,
                   e: Entry, o: seq<Message>, e': Entry, o': seq<Message>)
    requires max > 0 && WokenTied(id, seen, rest, up, max, p, e, o, e', o')
    ensures e.view.acks > seen ==> SendTied(id, rest, up, max, p, Settled(e), o, e', o')
    ensures e.view.acks <= seen ==>
              && o' == o && e' == Settled(e)
              && p == if e.view.closed then SendDone(SendStreamClosed) else SendWaits(seen, rest)
  {
    if e.view.acks > seen {
      forall x: Rec | x.view == Settled(e).view && x.registered == e.registered
        ensures var step := SendRest(id, x, rest, up, max); Stretched(step, o, e', o') && SendAgrees(p, step.0)
      {
        WokenSends(id, seen, rest, up, max, p, e, o, e', o', x);
      }
    } else {
      var x := Rec(e.view, e.registered, Writing(seen, rest), Pending, FRESH_LOG);
      var step := Woken(id, x, up, max);
      assert Stretched(step, o, e', o') && SendAgrees(p, step.0);
      assert o + [] == o;
    }
  }

  /** The stretch of `open_stream` after a wake-up is that of `Woken`. */
  ghost predicate OpenTied(id: u32, up: bool, max: nat, p: OpenProgress,
                           e: Entry, o: seq<Message>, e': Entry, o': seq<Message>) {
    forall x: Rec :: x.view == e.view && x.registered == e.registered && x.owner == Opening ==>
      var step := Woken(id, x, up, max);
      Stretched(step, o, e', o') && OpenAgrees(p, step.0)
  }

  lemma OpenTies(id: u32, up: bool, max: nat, p: OpenProgress, e: Entry, o: seq<Message>, e': Entry, o': seq<Message>)
    requires o' == o
    requires var v := Park(e.view);
             if e.view.acks > 0 && e.view.remote != 0 then p == OpenSucceeds && e' == e.(view := v)
             else if e.view.acks > 0 || e.view.closed then
               p == OpenRefused && e' == Entry(v.(receiver := false, queue := []), false)
             else p == OpenWaits && e' == e.(view := v)
    ensures OpenTied(id, up, max, p, e, o, e', o')
  {
    assert o + [] == o;
  }

  lemma OpenShows(id: u32, up: bool, max: nat, p: OpenProgress, e: Entry, o: seq<Message>, e': Entry, o': seq<Message>)
    requires OpenTied(id, up, max, p, e, o, e', o')
    ensures p.OpenSucceeds? <==> e.view.acks > 0 && e.view.remote != 0
    ensures p.OpenRefused? <==> (e.view.acks > 0 && e.view.remote == 0) || (e.view.acks == 0 && e.view.closed)
    ensures !p.OpenRefused? ==> e' == Settled(e)
  {
    var x := Rec(e.view, e.registered, Opening, Pending, FRESH_LOG);
    var step := Woken(id, x, up, max);
    assert Stretched(step, o, e', o') && OpenAgrees(p, step.0);
  }

  /** The stretch of `recv` is that of `Receive`. */
  ghost predicate RecvTied(id: u32, up: bool, r: Option<Data>, ok: bool,
                           e: Entry, o: seq<Message>, e': Entry, o': seq<Message>) {
    forall x: Rec :: x.view == e.view && x.registered == e.registered ==>
      var step := Receive(id, x, up);
      && Stretched(step, o, e', o')
      && step.0.outcome == if !ok then RecvDisconnected else if r.Some? then Received(r.value) else EndOfStream
  }

  /** The stretches of `close_now`, and of a stream that is dropped. */
  ghost predicate CloseTied(id: u32, up: bool, e: Entry, o: seq<Message>, e': Entry, o': seq<Message>) {
    forall x: Rec :: x.view == e.view && x.registered == e.registered ==> Stretched(CloseNow(id, x, up), o, e', o')
  }

  ghost predicate DropTied(id: u32, up: bool, max: nat, e: Entry, o: seq<Message>, e': Entry, o': seq<Message>) {
    forall x: Rec :: x.view == e.view && x.registered == e.registered && x.owner == Idle ==>
      Stretched(OwnerStep(id, x, DropStream, up, max), o, e', o')
  }

  /** Messages the reader posts are CLSEs. */
  predicate OnlyCloses(ms: seq<Message>) {
    forall m :: m in ms ==> m.command.Close?
  }

  lemma NoWrites(ms: seq<Message>)
    requires OnlyCloses(ms)
    ensures Writes(ms) == []
  {
    if ms != [] {
      assert ms[0] in ms;
      assert OnlyCloses(ms[1..]);
      NoWrites(ms[1..]);
    }
  }

  /** `k` bytes are `c` chunks, of which only the last may be smaller than `max`, and only if it is the
      last of all `n` bytes. */
  predicate Cut(n: nat, k: nat, c: nat, max: nat) {
    k <= n && (if c == 0 then k == 0 else (c - 1) * max < k <= c * max) && (k == n || k == c * max)
  }

  lemma CutNext(n: nat, k: nat, c: nat, max: nat)
    requires max > 0 && Cut(n, k, c, max) && k < n
    ensures Cut(n, k + Min(n - k, max), c + 1, max)
  {
    assert (c + 1) * max == c * max + max;
    assert k == c * max;
  }

  /** What one call of `send` has posted between `a` and `b`: `c` chunks that make up `data[..k]`, and
      replies of the reader. */
  predicate SentSoFar(a: seq<Message>, b: seq<Message>, data: Data, k: nat, c: nat, id: u32, max: nat) {
    && a <= b && Cut(|data|, k, c, max)
    && |Writes(b[|a|..])| == c && Flatten(Writes(b[|a|..])) == data[..k]
    && forall m :: m in b[|a|..] ==>
         m.command.Close? || (m.command.Write? && m.arg0 == id && m.arg1 != 0 && 0 < |m.payload| <= max)
  }

  lemma SentNothing(a: seq<Message>, data: Data, id: u32, max: nat)
    ensures SentSoFar(a, a, data, 0, 0, id, max)
  {
    assert a[|a|..] == [];
  }

  lemma OneWrite(msg: Message)
    requires msg.command.Write?
    ensures Writes([msg]) == [msg.payload] && Flatten(Writes([msg])) == msg.payload
  {
    assert [msg][1..] == [] && [msg.payload][1..] == [];
  }

  lemma SentChunk(a: seq<Message>, b: seq<Message>, msg: Message, data: Data, k: nat, c: nat, id: u32, max: nat)
    requires SentSoFar(a, b, data, k, c, id, max)
    requires msg.command.Write? && msg.arg0 == id && msg.arg1 != 0
    requires max > 0 && k < |data| && |msg.payload| == Min(|data| - k, max) && msg.payload == data[k..k + |msg.payload|]
    ensures SentSoFar(a, b + [msg], data, k + |msg.payload|, c + 1, id, max)
  {
    CutNext(|data|, k, c, max);
    assert (b + [msg])[|a|..] == b[|a|..] + [msg];
    WritesAppend(b[|a|..], [msg]);
    OneWrite(msg);
    FlattenAppend(Writes(b[|a|..]), Writes([msg]));
    assert data[..k + |msg.payload|] == data[..k] + data[k..k + |msg.payload|];
  }

  lemma SentReplies(a: seq<Message>, b: seq<Message>, b': seq<Message>, data: Data, k: nat, c: nat, id: u32, max: nat)
    requires SentSoFar(a, b, data, k, c, id, max) && b <= b' && OnlyCloses(b'[|b|..])
    ensures SentSoFar(a, b', data, k, c, id, max)
  {
    assert b'[|a|..] == b[|a|..] + b'[|b|..];
    WritesAppend(b[|a|..], b'[|b|..]);
    NoWrites(b'[|b|..]);
    assert Writes(b[|a|..]) + [] == Writes(b[|a|..]);
  }
}
