/** The live messages of a queue are what replay makes of its records. */
module Recovery {
  import opened Types
  import opened Sequences
  import opened Delivery
  import opened RingBuffer
  import Wal

  /** Replay's view of the queue after at most one more record. */
  function Written(messages: seq<Message>, records: seq<Record>): seq<Message>
    requires |records| <= 1
  {
    if records == [] then messages else Wal.OrEmpty(Wal.QueueEffect(Some(messages), records[0]))
  }

  /** (A) and (B) for a single move. */
  ghost predicate FairMove(st: Store, mv: Move)
    requires Possible(st, mv)
  {
    && HasRoom(st, mv)
    && match mv
       case Accept(m) => forall i :: 0 <= i < |Live(st)| ==> Live(st)[i].id != m.id
       case GiveBack(i, d) => st.inflight[i].message == d.message
       case PushBack(_) => false
       case _ => true
  }

  /** How a move changes the list of live messages, `n` of which are in flight. */
  function LiveAfter(live: seq<Message>, n: nat, mv: Move): seq<Message>
    requires mv.AckAt? || mv.GiveBack? || mv.BuryAt? || mv.RequeueAt? ==> mv.i < |live|
    requires mv.BuryHead? ==> n < |live|
  {
    match mv
    case Stay => live
    case Accept(m) => live + [m]
    case AckAt(i) => RemoveAt(live, i)
    case ReserveHead(_) => live
    case GiveBack(i, d) => RemoveAt(live, i) + [d.message]
    case PushBack(d) => live + [d.message]
    case BuryHead => RemoveAt(live, n)
    case BuryAt(i) => RemoveAt(live, i)
    case RequeueAt(i) => RemoveAt(live, i) + [Retried(live[i])]
  }

  lemma LiveDrop(st: Store, i: nat)
    requires i < |st.inflight|
    ensures MessagesIn(RemoveAt(st.inflight, i)) + st.queue == RemoveAt(Live(st), i)
  {
    assert MessagesIn(RemoveAt(st.inflight, i)) == RemoveAt(MessagesIn(st.inflight), i);
    RemoveAtConcat(MessagesIn(st.inflight), st.queue, i);
  }

  lemma LiveShift(st: Store, mv: Move)
    requires Possible(st, mv) && HasRoom(st, mv)
    ensures Live(Shift(st, mv)) == LiveAfter(Live(st), |st.inflight|, mv)
  {
    match mv
    case AckAt(i) => LiveDrop(st, i);
    case GiveBack(i, d) => LiveDrop(st, i);
    case BuryAt(i) => LiveDrop(st, i);
    case RequeueAt(i) => LiveDrop(st, i);
    case ReserveHead(e) =>
      assert MessagesIn(st.inflight + [e]) == MessagesIn(st.inflight) + [e.message];
      assert st.queue == [e.message] + st.queue[1..];
    case BuryHead => RemoveAtConcat(MessagesIn(st.inflight), st.queue, |st.inflight|);
    case _ =>
  }

  /** Where in the live messages the one stands that a logged move takes away. */
  function Taken(st: Store, mv: Move): (r: Option<nat>)
    requires Possible(st, mv)
    ensures r.Some? ==> r.value < |Live(st)|
  {
    match mv
    case AckAt(i) => Some(i)
    case BuryAt(i) => Some(i)
    case RequeueAt(i) => Some(i)
    case BuryHead => Some(|st.inflight|)
    case _ => None
  }

  /**
    Every move but a cancellation changes the live messages as replay changes its list on reading the
    move's record, exactly when no other live message has the id of the one taken away.
   */
  lemma LiveFollowsLogIff(name: string, st: Store, mv: Move)
    requires Possible(st, mv) && HasRoom(st, mv) && !mv.GiveBack? && !mv.PushBack?
    ensures Live(Shift(st, mv)) == Written(Live(st), Log(name, st, mv)) <==>
            (Taken(st, mv).Some? ==> Wal.Alone(Live(st), Taken(st, mv).value))
  {
    LiveShift(st, mv);
    if Taken(st, mv).Some? {
      var i := Taken(st, mv).value;
      Wal.WithoutIsRemoveAtIff(Live(st), i);
      WrittenTaken(name, st, mv);
      if mv.RequeueAt? {
        SameTail(Wal.Without(Live(st), Live(st)[i].id), RemoveAt(Live(st), i), Retried(Live(st)[i]));
      }
    }
  }

  lemma WrittenTaken(name: string, st: Store, mv: Move)
    requires Possible(st, mv) && Taken(st, mv).Some?
    ensures var m := Live(st)[Taken(st, mv).value];
            Written(Live(st), Log(name, st, mv)) ==
            Wal.Without(Live(st), m.id) + if mv.RequeueAt? then [Retried(m)] else []
  {
    var m := Live(st)[Taken(st, mv).value];
    assert Wal.Without(Live(st), m.id) + [] == Wal.Without(Live(st), m.id);
  }

  lemma SameTail<T>(a: seq<T>, b: seq<T>, x: T)
    ensures a + [x] == b + [x] <==> a == b
  {
    if a + [x] == b + [x] {
      assert a == (a + [x])[..|a|] && b == (b + [x])[..|b|];
    }
  }

  /** The step takes a message out of the live ones under an id that another of them has: its record will take both. */
  ghost predicate Forgets(s: QueueState, a: Step)
    requires Enabled(s, a)
  {
    var at := Taken(s.store, MoveOf(s, a));
    at.Some? && !Wal.Alone(Live(s.store), at.value)
  }

  /** Whatever ids clients choose, a step that is no cancellation keeps replay equal to memory exactly when it is not such a step. */
  lemma ReplayStepIff(s: QueueState, a: Step)
    requires Bounded(s) && Enabled(s, a) && !a.Cancel?
    ensures Live(Apply(s, a).store) == Written(Live(s.store), Emit(s, a)) <==> !Forgets(s, a)
  {
    RoomToPush(s, a);
    NoGiveBack(s, a);
    LiveFollowsLogIff(s.name, s.store, MoveOf(s, a));
  }

  lemma NoGiveBack(s: QueueState, a: Step)
    requires Enabled(s, a) && !a.Cancel?
    ensures !MoveOf(s, a).GiveBack? && !MoveOf(s, a).PushBack?
  {
  }

  /** Replay's view after more records, starting from `messages`. */
  function Rewritten(messages: seq<Message>, records: seq<Record>): seq<Message>
    decreases |records|
  {
    if records == [] then messages else Rewritten(Written(messages, [records[0]]), records[1..])
  }

  lemma RewrittenFirst(messages: seq<Message>, first: seq<Record>, rest: seq<Record>)
    requires |first| <= 1
    ensures Rewritten(messages, first + rest) == Rewritten(Written(messages, first), rest)
  {
    if first == [] {
      assert first + rest == rest;
    } else {
      assert first == [first[0]] && (first + rest)[1..] == rest;
    }
  }

  ghost predicate Remembers(s: QueueState, steps: seq<Step>)
    requires IsRun(s, steps)
    decreases |steps|
  {
    steps == [] || (!steps[0].Cancel? && !Forgets(s, steps[0]) && Remembers(Apply(s, steps[0]), steps[1..]))
  }

  /** So in every run of such steps, with ids repeated or not, the live messages are what replay makes of the records written. */
  lemma {:induction false} RunFollowsLog(s: QueueState, steps: seq<Step>)
    requires Bounded(s) && IsRun(s, steps) && Remembers(s, steps)
    ensures Live(After(s, steps).store) == Rewritten(Live(s.store), Emitted(s, steps))
    decreases |steps|
  {
    if steps != [] {
      var t := Apply(s, steps[0]);
      ReplayStepIff(s, steps[0]);
      BoundedStep(s, steps[0]);
      RunFollowsLog(t, steps[1..]);
      RewrittenFirst(Live(s.store), Emit(s, steps[0]), Emitted(t, steps[1..]));
    }
  }

  lemma LiveFollowsLog(name: string, st: Store, mv: Move)
    requires Possible(st, mv) && HasRoom(st, mv) && !mv.GiveBack? && !mv.PushBack? && Wal.DistinctIds(Live(st))
    ensures Live(Shift(st, mv)) == Written(Live(st), Log(name, st, mv))
  {
    LiveFollowsLogIff(name, st, mv);
  }

  // ---------------------------------------------------------------- cancellation

  /** The waiting message that a push with no free slot overwrites. */
  function Overwritten(st: Store): Message
    requires 0 < st.capacity <= |st.queue|
  {
    st.queue[Offset(|st.queue|, st.capacity)]
  }

  lemma OverwriteBag(queue: seq<Message>, capacity: nat, m: Message)
    requires 0 < capacity <= |queue|
    ensures multiset(Pushed(queue, capacity, m)) + multiset{queue[Offset(|queue|, capacity)]} ==
            multiset(queue) + multiset{m} + multiset{NO_MESSAGE}
  {
  }

  lemma LiveGivenBack(st: Store, i: nat, d: Delivery)
    requires i < |st.inflight| && st.inflight[i].message == d.message && 0 < st.capacity <= |st.queue|
    ensures multiset(Live(Shift(st, GiveBack(i, d)))) + multiset{Overwritten(st)} == multiset(Live(st)) + multiset{NO_MESSAGE}
  {
    assert MessagesIn(RemoveAt(st.inflight, i)) == RemoveAt(MessagesIn(st.inflight), i);
    var flight := MessagesIn(st.inflight);
    RemoveAtBag(flight, i);
    OverwriteBag(st.queue, st.capacity, d.message);
    Exchanged(multiset(RemoveAt(flight, i)), multiset(flight), multiset(Pushed(st.queue, st.capacity, d.message)),
              multiset(st.queue), d.message, Overwritten(st), NO_MESSAGE);
  }

  lemma Exchanged<T>(a': multiset<T>, a: multiset<T>, b': multiset<T>, b: multiset<T>, m: T, x: T, y: T)
    requires a == a' + multiset{m} && b' + multiset{x} == b + multiset{m} + multiset{y}
    ensures (a' + b') + multiset{x} == (a + b) + multiset{y}
  {
    assert (a' + b') + multiset{x} == a' + (b' + multiset{x});
  }

  /** A cancelled reservation writes nothing, and only reorders the live messages exactly when it overwrites none of them. */
  lemma GiveBackReordersIff(name: string, st: Store, i: nat, d: Delivery)
    requires i < |st.inflight| && st.inflight[i].message == d.message && st.capacity > 0
    ensures Log(name, st, GiveBack(i, d)) == []
    ensures multiset(Live(Shift(st, GiveBack(i, d)))) == multiset(Live(st)) <==>
            |st.queue| < st.capacity || Overwritten(st) == NO_MESSAGE
  {
    if |st.queue| < st.capacity {
      LiveShift(st, GiveBack(i, d));
      RemoveAtBag(Live(st), i);
    } else {
      LiveGivenBack(st, i, d);
      Swapped(multiset(Live(Shift(st, GiveBack(i, d)))), multiset(Live(st)), Overwritten(st), NO_MESSAGE);
    }
  }

  lemma Swapped<T>(a: multiset<T>, b: multiset<T>, x: T, y: T)
    requires a + multiset{x} == b + multiset{y}
    ensures a == b <==> x == y
  {
    if x == y {
      assert a == (a + multiset{x}) - multiset{x} == (b + multiset{y}) - multiset{y} == b;
    } else {
      assert (a + multiset{x})[x] == a[x] + 1 && (b + multiset{y})[x] == b[x];
    }
  }

  /** It keeps their order exactly when it was the last of them. */
  lemma GiveBackOrderIff(st: Store, i: nat, d: Delivery)
    requires i < |st.inflight| && st.inflight[i].message == d.message && |st.queue| < st.capacity && Wal.DistinctIds(Live(st))
    ensures Live(Shift(st, GiveBack(i, d))) == Live(st) <==> i == |Live(st)| - 1
  {
    var live := Live(st);
    LiveShift(st, GiveBack(i, d));
    if i < |live| - 1 {
      assert (RemoveAt(live, i) + [d.message])[i] == live[i + 1];
    }
  }

  // ---------------------------------------------------------------- agreement

  lemma DistinctAfter(live: seq<Message>, n: nat, mv: Move)
    requires mv.AckAt? || mv.BuryAt? || mv.RequeueAt? ==> mv.i < |live|
    requires mv.BuryHead? ==> n < |live|
    requires mv.Accept? ==> forall i :: 0 <= i < |live| ==> live[i].id != mv.message.id
    requires !mv.GiveBack? && !mv.PushBack? && Wal.DistinctIds(live)
    ensures Wal.DistinctIds(LiveAfter(live, n, mv))
  {
  }

  /**
    What replay holds for the queue, `r`, against memory: the same messages with the same retry counts,
    and in the same order as long as no reservation has been cancelled.
   */
  ghost predicate AgreesWithLog(s: QueueState, r: seq<Message>) {
    && Wal.DistinctIds(Live(s.store))
    && multiset(r) == multiset(Live(s.store))
    && (!s.cancelled ==> r == Live(s.store))
  }

  lemma WrittenSameBag(a: seq<Message>, b: seq<Message>, records: seq<Record>)
    requires |records| <= 1 && multiset(a) == multiset(b)
    ensures multiset(Written(a, records)) == multiset(Written(b, records))
  {
    if records != [] {
      match records[0]
      case Requeued(_, _, id) => Wal.WithoutSameBag(a, b, id);
      case Acknowledged(_, _, id) => Wal.WithoutSameBag(a, b, id);
      case DeadLettered(_, id) => Wal.WithoutSameBag(a, b, id);
      case _ =>
    }
  }

  lemma FairStepMove(s: QueueState, a: Step)
    requires Shape(s) && Bounded(s) && Enabled(s, a) && Fair(s, a)
    ensures FairMove(s.store, MoveOf(s, a))
  {
    RoomToPush(s, a);
  }

  lemma CancelledStep(s: QueueState, a: Step)
    requires Enabled(s, a)
    ensures Apply(s, a).cancelled == (s.cancelled || a.Cancel?)
    ensures MoveOf(s, a).GiveBack? ==> a.Cancel?
  {
  }

  /** Memory and log stay in agreement over a step, whether or not its append succeeded. */
  lemma AgreementStep(s: QueueState, a: Step, r: seq<Message>)
    requires Shape(s) && Bounded(s) && AgreesWithLog(s, r) && Enabled(s, a) && Fair(s, a)
    ensures AgreesWithLog(Apply(s, a), Written(r, Emit(s, a)))
  {
    var mv := MoveOf(s, a);
    FairStepMove(s, a);
    CancelledStep(s, a);
    if mv.GiveBack? {
      GiveBackReordersIff(s.name, s.store, mv.i, mv.delivery);
      Wal.DistinctIdsSameBag(Live(s.store), Live(Apply(s, a).store));
    } else {
      LiveShift(s.store, mv);
      DistinctAfter(Live(s.store), |s.store.inflight|, mv);
      LiveFollowsLog(s.name, s.store, mv);
      WrittenSameBag(r, Live(s.store), Log(s.name, s.store, mv));
    }
  }

  // ---------------------------------------------------------------- after deletion

  /** A queue that `CloseIfEmpty` has closed. */
  predicate Gone(s: QueueState) {
    s.closed && s.store.queue == [] && s.store.inflight == []
  }

  /** Such a queue stays as it is exactly until a reservation that was still held is cancelled onto it. */
  lemma GoneStepIff(s: QueueState, a: Step)
    requires Gone(s) && Enabled(s, a)
    ensures Emit(s, a) == [] && (Gone(Apply(s, a)) <==> !a.Cancel?)
  {
  }

  /** Whoever still holds a reference to a closed empty queue, without such a cancellation no run of it writes another record. */
  lemma {:induction false} GoneRun(s: QueueState, steps: seq<Step>)
    requires Gone(s) && IsRun(s, steps) && forall i :: 0 <= i < |steps| ==> !steps[i].Cancel?
    ensures Gone(After(s, steps)) && Emitted(s, steps) == []
    decreases |steps|
  {
    if steps != [] {
      GoneStepIff(s, steps[0]);
      GoneRun(Apply(s, steps[0]), steps[1..]);
    }
  }
}
