/** `StreamState::{ack, mark_closed, wait_ack}` with every atomic load, store, counter update and
    notification a step of its own. Task 0 is the reader, the only one that acknowledges; any task
    may close the stream (the reader on CLSE, others through `close_all`). */
module AtomicWait {
  import opened Bytes

  datatype Task =
    | Resting
    | AckLoad(remote: u32) | AckStore(remote: u32) | AckCount | CloseStore | CloseTake | Notifying

  /** `Loaded` has read the counter and not yet the flag; `Parked` polls the notification. */
  datatype Owner = Checking | Loaded | Parked | Returned(acked: bool)

  datatype State = State(
    remote: u32, acks: nat, closed: bool, sender: bool, permit: bool,
    tasks: map<nat, Task>, owner: Owner, seen: nat)

  datatype Move =
    | OwnerMoves
    | TaskMoves(task: nat)
    | AckCalled(remote: u32)
    | CloseCalled(task: nat)

  predicate Able(s: State, m: Move) {
    match m
    case OwnerMoves => !s.owner.Returned? && (s.owner.Parked? ==> s.permit)
    case TaskMoves(t) => t in s.tasks && !s.tasks[t].Resting?
    case AckCalled(remote) => 0 in s.tasks && s.tasks[0].Resting? && remote != 0
    case CloseCalled(t) => t in s.tasks && s.tasks[t].Resting?
  }

  function OwnerMove(s: State): State {
    match s.owner
    case Checking => s.(owner := if s.acks > s.seen then Returned(true) else Loaded)
    case Loaded => s.(owner := if s.closed then Returned(false) else Parked)
    case Parked => s.(owner := Checking, permit := false)
    case Returned(_) => s
  }

  function TaskMove(s: State, t: nat): State
    requires t in s.tasks
  {
    match s.tasks[t]
    case Resting => s
    case AckLoad(r) => s.(tasks := s.tasks[t := if s.remote == 0 then AckStore(r) else AckCount])
    case AckStore(r) => s.(remote := r, tasks := s.tasks[t := AckCount])
    case AckCount => s.(acks := s.acks + 1, tasks := s.tasks[t := Notifying])
    case CloseStore => s.(closed := true, tasks := s.tasks[t := CloseTake])
    case CloseTake => s.(sender := false, tasks := s.tasks[t := Notifying])
    case Notifying => s.(permit := true, tasks := s.tasks[t := Resting])
  }

  function Apply(s: State, m: Move): State
    requires Able(s, m)
  {
    match m
    case OwnerMoves => OwnerMove(s)
    case TaskMoves(t) => TaskMove(s, t)
    case AckCalled(remote) => s.(tasks := s.tasks[0 := AckLoad(remote)])
    case CloseCalled(t) => s.(tasks := s.tasks[t := CloseStore])
  }

  predicate Plays(s: State, ms: seq<Move>)
    decreases |ms|
  {
    ms == [] || (Able(s, ms[0]) && Plays(Apply(s, ms[0]), ms[1..]))
  }

  function Play(s: State, ms: seq<Move>): State
    requires Plays(s, ms)
    decreases |ms|
  {
    if ms == [] then s else Play(Apply(s, ms[0]), ms[1..])
  }

  /** `wait_ack(seen)` may be called in any state of the flag, a permit left over from earlier wake-ups,
      and the other tasks; `seen` is 0 or what the counter was before. */
  predicate Called(s: State) {
    s.owner == Checking && s.seen <= s.acks
  }

  /** Some task is between its update and its notification. */
  predicate NotifyDue(s: State) {
    exists t :: t in s.tasks && (s.tasks[t].Notifying? || s.tasks[t].CloseTake?)
  }

  predicate Guarded(s: State) {
    && (s.owner.Loaded? || s.owner.Parked? ==> s.acks > s.seen ==> s.permit || NotifyDue(s))
    && (s.owner.Parked? ==> s.closed ==> s.permit || NotifyDue(s))
    && (s.owner.Returned? && s.owner.acked ==> s.acks > s.seen)
    && (s.owner.Returned? && !s.owner.acked ==> s.closed)
  }

  /** A task that moves leaves every other task's notification due. */
  lemma DueStays(s: State, t: nat)
    requires t in s.tasks && NotifyDue(s)
    ensures var s' := TaskMove(s, t); s'.permit || NotifyDue(s')
  {
    var s' := TaskMove(s, t);
    var u :| u in s.tasks && (s.tasks[u].Notifying? || s.tasks[u].CloseTake?);
    if !s.tasks[t].Notifying? {
      assert u in s'.tasks && (s'.tasks[u].Notifying? || s'.tasks[u].CloseTake?);
    }
  }

  lemma MoveKeepsGuard(s: State, m: Move)
    requires Guarded(s) && Able(s, m)
    ensures Guarded(Apply(s, m))
  {
    var s' := Apply(s, m);
    match m {
      case OwnerMoves => assert s'.tasks == s.tasks;
      case TaskMoves(t) =>
        if NotifyDue(s) {
          DueStays(s, t);
        }
        if s.tasks[t].AckCount? || s.tasks[t].CloseStore? {
          assert t in s'.tasks && (s'.tasks[t].Notifying? || s'.tasks[t].CloseTake?);
        }
      case AckCalled(remote) => CallKeepsDue(s, 0, AckLoad(remote));
      case CloseCalled(t) => CallKeepsDue(s, t, CloseStore);
    }
  }

  lemma CallKeepsDue(s: State, t: nat, task: Task)
    requires t in s.tasks && s.tasks[t].Resting?
    ensures NotifyDue(s) ==> NotifyDue(s.(tasks := s.tasks[t := task]))
  {
    if NotifyDue(s) {
      var u :| u in s.tasks && (s.tasks[u].Notifying? || s.tasks[u].CloseTake?);
      var s' := s.(tasks := s.tasks[t := task]);
      assert u in s'.tasks && (s'.tasks[u].Notifying? || s'.tasks[u].CloseTake?);
    }
  }

  lemma {:induction false} PlayKeepsGuard(s: State, ms: seq<Move>)
    requires Guarded(s) && Plays(s, ms)
    ensures Guarded(Play(s, ms))
    decreases |ms|
  {
    if ms != [] {
      MoveKeepsGuard(s, ms[0]);
      PlayKeepsGuard(Apply(s, ms[0]), ms[1..]);
    }
  }

  /** No lost wake-up: an owner parked without a permit, while no task is between its update and its
      notification, has nothing to be woken for. */
  lemma NoLostWakeup(s: State, ms: seq<Move>)
    requires Called(s) && Plays(s, ms)
    ensures var s' := Play(s, ms);
            s'.owner.Parked? && !s'.permit && !NotifyDue(s') ==> s'.acks <= s'.seen && !s'.closed
  {
    PlayKeepsGuard(s, ms);
  }

  /** The owner on its own, as far as it gets in `n` steps. */
  function Alone(s: State, n: nat): State
    decreases n
  {
    if n == 0 || !Able(s, OwnerMoves) then s else Alone(OwnerMove(s), n - 1)
  }

  /** Once every notification has been given, an acknowledged or closed wait returns within five
      steps of its owner. */
  lemma WaitReturns(s: State, ms: seq<Move>)
    requires Called(s) && Plays(s, ms)
    ensures var s' := Play(s, ms);
            (s'.acks > s'.seen || s'.closed) && !NotifyDue(s') ==> Alone(s', 5).owner.Returned?
  {
    PlayKeepsGuard(s, ms);
    var s' := Play(s, ms);
    if (s'.acks > s'.seen || s'.closed) && !NotifyDue(s') {
      ReturnsAlone(s');
    }
  }

  lemma ReturnsAlone(s: State)
    requires Guarded(s) && !NotifyDue(s) && (s.acks > s.seen || s.closed)
    ensures Alone(s, 5).owner.Returned?
  {
    ChecksOut(s, 2);
    if s.owner.Loaded? && !s.closed {
      var parked := OwnerMove(s);
      assert Alone(s, 5) == Alone(parked, 4);
      var checking := OwnerMove(parked);
      assert Alone(parked, 4) == Alone(checking, 3);
      assert Alone(checking, 3) == Alone(OwnerMove(checking), 2);
    } else if s.owner.Parked? {
      var checking := OwnerMove(s);
      assert Alone(s, 5) == Alone(checking, 4);
      var loaded := OwnerMove(checking);
      assert Alone(checking, 4) == Alone(loaded, 3);
      assert Alone(loaded, 3) == if Able(loaded, OwnerMoves) then Alone(OwnerMove(loaded), 2) else loaded;
    } else if s.owner.Checking? {
      var loaded := OwnerMove(s);
      assert Alone(s, 5) == Alone(loaded, 4);
      assert Alone(loaded, 4) == if Able(loaded, OwnerMoves) then Alone(OwnerMove(loaded), 3) else loaded;
    } else if s.owner.Loaded? {
      assert Alone(s, 5) == Alone(OwnerMove(s), 4);
    }
  }

  lemma ChecksOut(s: State, n: nat)
    ensures s.owner.Returned? ==> forall k: nat :: Alone(s, k) == s
  {
  }

  /** The state after the first `k` moves of a run. */
  function At(s: State, ms: seq<Move>, k: nat): State
    requires Plays(s, ms) && k <= |ms|
    decreases k
  {
    if k == 0 then s else At(Apply(s, ms[0]), ms[1..], k - 1)
  }

  lemma {:induction false} AtNext(s: State, ms: seq<Move>, k: nat)
    requires Plays(s, ms) && k < |ms|
    ensures Able(At(s, ms, k), ms[k]) && At(s, ms, k + 1) == Apply(At(s, ms, k), ms[k])
    decreases k
  {
    if k > 0 {
      AtNext(Apply(s, ms[0]), ms[1..], k - 1);
    }
  }

  lemma {:induction false} AtEnd(s: State, ms: seq<Move>)
    requires Plays(s, ms)
    ensures At(s, ms, |ms|) == Play(s, ms)
    decreases |ms|
  {
    if ms != [] {
      AtEnd(Apply(s, ms[0]), ms[1..]);
    }
  }

  /** Move `k` is the owner's load of the counter; move `k` is its load of the flag. */
  predicate LoadsCounter(s: State, ms: seq<Move>, k: nat)
    requires Plays(s, ms)
  {
    k < |ms| && ms[k].OwnerMoves? && At(s, ms, k).owner.Checking?
  }

  predicate LoadsFlag(s: State, ms: seq<Move>, k: nat)
    requires Plays(s, ms)
  {
    k < |ms| && ms[k].OwnerMoves? && At(s, ms, k).owner.Loaded?
  }

  /** Move `k` counts an acknowledgement. */
  predicate Counts(s: State, ms: seq<Move>, k: nat)
    requires Plays(s, ms)
  {
    && k < |ms|
    && match ms[k]
       case TaskMoves(t) => var tasks := At(s, ms, k).tasks; t in tasks && tasks[t].AckCount?
       case _ => false
  }

  /** The look that loads the flag at `n` loaded the counter at `j`. */
  predicate OneLook(s: State, ms: seq<Move>, j: nat, n: nat)
    requires Plays(s, ms)
  {
    j < n && LoadsCounter(s, ms, j) && LoadsFlag(s, ms, n) && forall i :: j < i < n ==> !LoadsCounter(s, ms, i)
  }

  lemma CounterMoves(s: State, ms: seq<Move>, k: nat)
    requires Plays(s, ms) && k < |ms|
    ensures At(s, ms, k + 1).acks == At(s, ms, k).acks + if Counts(s, ms, k) then 1 else 0
    ensures At(s, ms, k + 1).seen == At(s, ms, k).seen
  {
    AtNext(s, ms, k);
  }

  /** From move `j` on to `n` the counter grows exactly if a move counts. */
  lemma {:induction false} CountedBetween(s: State, ms: seq<Move>, j: nat, n: nat)
    requires Plays(s, ms) && j <= n <= |ms|
    ensures At(s, ms, j).acks <= At(s, ms, n).acks && At(s, ms, j).seen == At(s, ms, n).seen
    ensures At(s, ms, j).acks < At(s, ms, n).acks <==> exists k :: j <= k < n && Counts(s, ms, k)
    decreases n - j
  {
    if j < n {
      CountedBetween(s, ms, j, n - 1);
      CounterMoves(s, ms, n - 1);
      if Counts(s, ms, n - 1) {
        assert j <= n - 1 < n && Counts(s, ms, n - 1);
      }
    }
  }

  /** An owner that is about to load the flag loaded the counter before, and it was not beyond `seen`. */
  lemma {:induction false} LookStarts(s: State, ms: seq<Move>, n: nat) returns (j: nat)
    requires Plays(s, ms) && Called(s) && n <= |ms| && At(s, ms, n).owner.Loaded?
    ensures j < n && LoadsCounter(s, ms, j) && At(s, ms, j).acks <= At(s, ms, j).seen
    ensures forall i :: j < i < n ==> !LoadsCounter(s, ms, i)
    ensures forall i :: j < i <= n ==> At(s, ms, i).owner.Loaded?
    decreases n
  {
    assert n > 0;
    AtNext(s, ms, n - 1);
    if At(s, ms, n - 1).owner.Loaded? {
      j := LookStarts(s, ms, n - 1);
    } else {
      j := n - 1;
    }
  }

  /** Exactly which waits report "closed" although an acknowledgement has been counted: the flag is
      set when it is loaded, and the counter was counted up between the two loads of that look. */
  lemma ClosedDespiteAck(s: State, ms: seq<Move>, n: nat)
    requires Called(s) && Plays(s, ms) && LoadsFlag(s, ms, n)
    ensures exists j: nat :: OneLook(s, ms, j, n)
    ensures var s' := At(s, ms, n + 1);
            s'.owner == Returned(false) && s'.acks > s'.seen
            <==> At(s, ms, n).closed && exists j: nat, k: nat :: OneLook(s, ms, j, n) && j < k < n && Counts(s, ms, k)
  {
    var j := LookStarts(s, ms, n);
    assert OneLook(s, ms, j, n);
    AtNext(s, ms, n);
    CountedBetween(s, ms, 0, j);
    CountedBetween(s, ms, j, n);
    assert !Counts(s, ms, j);
    if j': nat, k: nat :| OneLook(s, ms, j', n) && j' < k < n && Counts(s, ms, k) {
      assert j' == j;
    }
    if At(s, ms, n).acks > At(s, ms, n).seen {
      var k :| j <= k < n && Counts(s, ms, k);
      assert OneLook(s, ms, j, n) && j < k < n && Counts(s, ms, k);
    }
  }

  /** If no acknowledgement is ever counted within a look, "OKAY then CLSE" reads as acknowledged: no
      wait reports "closed" with the counter beyond `seen`. */
  lemma NoAckWithinALook(s: State, ms: seq<Move>, n: nat)
    requires Called(s) && Plays(s, ms) && LoadsFlag(s, ms, n)
    requires forall k :: 0 <= k < n && Counts(s, ms, k) ==> !At(s, ms, k).owner.Loaded?
    ensures At(s, ms, n + 1).owner == Returned(false) ==> At(s, ms, n + 1).acks <= At(s, ms, n + 1).seen
  {
    var j := LookStarts(s, ms, n);
    AtNext(s, ms, n);
    CountedBetween(s, ms, j, n);
    assert !Counts(s, ms, j);
  }

  /** A new stream whose opening waits for its first acknowledgement. */
  function Opening(remote: u32, acks: nat, closed: bool, sender: bool, permit: bool, reader: Task,
                   owner: Owner): State {
    State(remote, acks, closed, sender, permit, map[0 := reader], owner, 0)
  }

  /** Both loads of one look, with the reader's OKAY and its CLSE in between. */
  function StraddleMove(k: nat): Move {
    if k == 0 || k == 10 then OwnerMoves
    else if k == 1 then AckCalled(7)
    else if k == 6 then CloseCalled(0)
    else TaskMoves(0)
  }

  function StraddleState(k: nat): State {
    if k == 0 then Opening(0, 0, false, true, false, Resting, Checking)
    else if k == 1 then Opening(0, 0, false, true, false, Resting, Loaded)
    else if k == 2 then Opening(0, 0, false, true, false, AckLoad(7), Loaded)
    else if k == 3 then Opening(0, 0, false, true, false, AckStore(7), Loaded)
    else if k == 4 then Opening(7, 0, false, true, false, AckCount, Loaded)
    else if k == 5 then Opening(7, 1, false, true, false, Notifying, Loaded)
    else if k == 6 then Opening(7, 1, false, true, true, Resting, Loaded)
    else if k == 7 then Opening(7, 1, false, true, true, CloseStore, Loaded)
    else if k == 8 then Opening(7, 1, true, true, true, CloseTake, Loaded)
    else if k == 9 then Opening(7, 1, true, false, true, Notifying, Loaded)
    else if k == 10 then Opening(7, 1, true, false, true, Resting, Loaded)
    else Opening(7, 1, true, false, true, Resting, Returned(false))
  }

  function StraddleFrom(k: nat): seq<Move>
    requires k <= 11
    decreases 11 - k
  {
    if k == 11 then [] else [StraddleMove(k)] + StraddleFrom(k + 1)
  }

  lemma StraddleStep(k: nat)
    requires k < 11
    ensures Able(StraddleState(k), StraddleMove(k))
    ensures Apply(StraddleState(k), StraddleMove(k)) == StraddleState(k + 1)
  {
    var s, s' := StraddleState(k), StraddleState(k + 1);
    assert s.tasks[0 := s'.tasks[0]] == s'.tasks;
  }

  lemma {:induction false} StraddlePlays(k: nat)
    requires k <= 11
    ensures Plays(StraddleState(k), StraddleFrom(k)) && Play(StraddleState(k), StraddleFrom(k)) == StraddleState(11)
    decreases 11 - k
  {
    if k < 11 {
      StraddleStep(k);
      StraddlePlays(k + 1);
      assert StraddleFrom(k)[1..] == StraddleFrom(k + 1);
    }
  }

  /** At this granularity OKAY then CLSE can read as a refusal: on a new stream the OKAY is dispatched
      completely before the CLSE, and the wait of `open_stream` still reports that the stream closed
      first. */
  lemma OkayThenCloseCanRace()
    ensures var s := StraddleState(0);
            && Called(s) && s.remote == s.acks == s.seen == 0 && !s.closed && s.sender && !s.permit
            && Plays(s, StraddleFrom(0))
            && Play(s, StraddleFrom(0)).owner == Returned(false)
            && Play(s, StraddleFrom(0)).acks > s.seen && Play(s, StraddleFrom(0)).remote != 0
  {
    StraddlePlays(0);
  }

  /** Without a step of another task between its two loads, a look reports "closed" only if no
      acknowledgement has been counted. */
  lemma UninterruptedLook(s: State)
    requires s.owner.Checking?
    ensures var s' := Alone(s, 2);
            && (s'.owner == Returned(true) <==> s.acks > s.seen)
            && (s'.owner == Returned(false) <==> s.acks <= s.seen && s.closed)
  {
    assert Alone(s, 2) == Alone(OwnerMove(s), 1);
    assert Alone(OwnerMove(s), 1) ==
           if Able(OwnerMove(s), OwnerMoves) then Alone(OwnerMove(OwnerMove(s)), 0) else OwnerMove(s);
  }

  /** The remote id is published before the first acknowledgement is counted. */
  predicate Published(s: State) {
    && (s.acks > 0 ==> s.remote != 0)
    && (forall t :: t in s.tasks && t != 0 ==> !s.tasks[t].AckLoad? && !s.tasks[t].AckStore? && !s.tasks[t].AckCount?)
    && (0 in s.tasks ==>
          match s.tasks[0]
          case AckLoad(r) => r != 0
          case AckStore(r) => r != 0 && s.remote == 0
          case AckCount => s.remote != 0
          case _ => true)
  }

  lemma MoveKeepsPublished(s: State, m: Move)
    requires Published(s) && Able(s, m)
    ensures Published(Apply(s, m)) && (s.remote != 0 ==> Apply(s, m).remote == s.remote)
  {
    match m {
      case TaskMoves(t) => TaskKeepsPublished(s, t);
      case _ =>
    }
  }

  lemma TaskKeepsPublished(s: State, t: nat)
    requires Published(s) && Able(s, TaskMoves(t))
    ensures Published(TaskMove(s, t)) && (s.remote != 0 ==> TaskMove(s, t).remote == s.remote)
  {
  }

  lemma {:induction false} PlayKeepsPublished(s: State, ms: seq<Move>)
    requires Published(s) && Plays(s, ms)
    ensures Published(Play(s, ms))
    ensures s.remote != 0 ==> Play(s, ms).remote == s.remote
    decreases |ms|
  {
    if ms != [] {
      MoveKeepsPublished(s, ms[0]);
      PlayKeepsPublished(Apply(s, ms[0]), ms[1..]);
    }
  }

  /** `open_stream`: a wait that returns true has a remote id to go on with. */
  lemma OpenSeesRemote(s: State, ms: seq<Move>)
    requires Called(s) && Published(s) && Plays(s, ms)
    ensures var s' := Play(s, ms); s'.owner == Returned(true) ==> s'.remote != 0
  {
    PlayKeepsGuard(s, ms);
    PlayKeepsPublished(s, ms);
  }
}
