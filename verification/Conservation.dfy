/** Conservation of messages. */
module Conservation {
  import opened Types
  import opened Sequences
  import opened Delivery
  import opened RingBuffer
  import opened Recovery

  /** A message without its retry count: what stays the same from acceptance on. */
  function Strip(m: Message): Message {
    m.(retry := 0)
  }

  /** Two messages are the same up to redelivery exactly when everything but their retry counts agrees. */
  lemma StripIff(a: Message, b: Message)
    ensures Strip(a) == Strip(b) <==> a.id == b.id && a.payload == b.payload && a.timestamp == b.timestamp && a.expiryAt == b.expiryAt
  {
  }

  function StripAll(messages: seq<Message>): (r: seq<Message>)
    ensures |r| == |messages|
    ensures forall i :: 0 <= i < |r| ==> r[i] == Strip(messages[i])
  {
    seq(|messages|, i requires 0 <= i < |messages| => Strip(messages[i]))
  }

  ghost function Bag(messages: seq<Message>): (r: multiset<Message>)
    ensures |r| == |messages|
  {
    multiset(StripAll(messages))
  }

  lemma BagConcat(a: seq<Message>, b: seq<Message>)
    ensures Bag(a + b) == Bag(a) + Bag(b)
  {
    assert StripAll(a + b) == StripAll(a) + StripAll(b);
  }

  lemma BagSingle(m: Message)
    ensures Bag([m]) == multiset{Strip(m)}
  {
    assert StripAll([m]) == [Strip(m)];
  }

  lemma BagRemoveAt(messages: seq<Message>, i: nat)
    requires i < |messages|
    ensures Bag(messages) == Bag(RemoveAt(messages, i)) + multiset{Strip(messages[i])}
  {
    assert StripAll(RemoveAt(messages, i)) == RemoveAt(StripAll(messages), i);
    RemoveAtBag(StripAll(messages), i);
  }

  /**
    Every accepted message is queued, in flight, acked or dead-lettered, as many times as it was
    accepted, and the counters count those places.
   */
  ghost predicate Conserved(st: Store) {
    && Bag(st.accepted) == Bag(Live(st)) + Bag(st.acked) + Bag(st.dead)
    && st.producedCount == |st.accepted| && st.ackedCount == |st.acked| && st.deadletteredCount == |st.dead|
  }

  /** The messages a move takes out of the live ones, and those it adds to them. */
  function Leaves(st: Store, mv: Move): seq<Message>
    requires Possible(st, mv)
  {
    match mv
    case AckAt(i) => [st.inflight[i].message]
    case BuryAt(i) => [st.inflight[i].message]
    case BuryHead => [st.queue[0]]
    case _ => []
  }

  function Enters(mv: Move): seq<Message> {
    match mv
    case Accept(m) => [m]
    case PushBack(d) => [d.message]
    case _ => []
  }

  lemma BagLiveShift(st: Store, mv: Move)
    requires Possible(st, mv) && HasRoom(st, mv)
    requires mv.GiveBack? ==> mv.delivery.message == st.inflight[mv.i].message
    ensures Bag(Live(Shift(st, mv))) + Bag(Leaves(st, mv)) == Bag(Live(st)) + Bag(Enters(mv))
  {
    var live := Live(st);
    LiveShift(st, mv);
    assert Bag([]) == multiset{};
    match mv
    case Stay =>
    case ReserveHead(_) =>
    case Accept(m) => BagConcat(live, [m]);
    case PushBack(d) => BagConcat(live, [d.message]);
    case AckAt(i) => BagMoved(live, i, live[i]);
    case BuryAt(i) => BagMoved(live, i, live[i]);
    case BuryHead => BagMoved(live, |st.inflight|, st.queue[0]);
    case GiveBack(i, d) => BagMoved(live, i, d.message);
    case RequeueAt(i) => BagMoved(live, i, Retried(live[i]));
  }

  lemma BagMoved(live: seq<Message>, i: nat, m: Message)
    requires i < |live| && Strip(live[i]) == Strip(m)
    ensures Bag(RemoveAt(live, i)) + Bag([m]) == Bag(live) == Bag(RemoveAt(live, i) + [m])
  {
    BagRemoveAt(live, i);
    BagSingle(m);
    BagConcat(RemoveAt(live, i), [m]);
  }

  /** Every message move that finds room, a cancellation of a delivery still in flight included, conserves messages. */
  lemma ConservedShift(st: Store, mv: Move)
    requires Conserved(st) && Possible(st, mv) && HasRoom(st, mv) && !mv.PushBack?
    requires mv.GiveBack? ==> mv.delivery.message == st.inflight[mv.i].message
    ensures Conserved(Shift(st, mv))
  {
    BagLiveShift(st, mv);
    if mv.AckAt? {
      ConservedAcked(st, mv.i);
    } else if mv.BuryAt? || mv.BuryHead? {
      ConservedBuried(st, mv);
    } else {
      ConservedEntered(st, mv);
    }
  }

  lemma ConservedAcked(st: Store, i: nat)
    requires Conserved(st) && i < |st.inflight|
    requires Bag(Live(Shift(st, AckAt(i)))) + Bag([st.inflight[i].message]) == Bag(Live(st)) + Bag([])
    ensures Conserved(Shift(st, AckAt(i)))
  {
    var m := st.inflight[i].message;
    assert [m] + [] == [m];
    Unchanged(st.dead);
    Unchanged(st.accepted);
    ConservedKept(st, Shift(st, AckAt(i)), [], [m], []);
  }

  lemma ConservedBuried(st: Store, mv: Move)
    requires Conserved(st) && Possible(st, mv) && (mv.BuryAt? || mv.BuryHead?)
    requires Bag(Live(Shift(st, mv))) + Bag(Leaves(st, mv)) == Bag(Live(st)) + Bag([])
    ensures Conserved(Shift(st, mv))
  {
    assert [] + Leaves(st, mv) == Leaves(st, mv);
    Unchanged(st.acked);
    Unchanged(st.accepted);
    ConservedKept(st, Shift(st, mv), [], [], Leaves(st, mv));
  }

  lemma ConservedEntered(st: Store, mv: Move)
    requires Conserved(st) && Possible(st, mv) && !mv.AckAt? && !mv.BuryAt? && !mv.BuryHead? && !mv.PushBack?
    requires Bag(Live(Shift(st, mv))) + Bag([]) == Bag(Live(st)) + Bag(Enters(mv))
    ensures Conserved(Shift(st, mv))
  {
    Unchanged(st.acked);
    Unchanged(st.dead);
    Unchanged(st.accepted);
    assert [] + Enters(mv) == Enters(mv);
    ConservedKept(st, Shift(st, mv), Enters(mv), [], []);
  }

  lemma Unchanged(messages: seq<Message>)
    ensures messages + [] == messages
  {
  }

  lemma ConservedKept(st: Store, next: Store, entering: seq<Message>, toAcked: seq<Message>, toDead: seq<Message>)
    requires Conserved(st) && Bag(Live(next)) + Bag(toAcked + toDead) == Bag(Live(st)) + Bag(entering)
    requires next.accepted == st.accepted + entering && next.producedCount == st.producedCount + |entering|
    requires next.acked == st.acked + toAcked && next.ackedCount == st.ackedCount + |toAcked|
    requires next.dead == st.dead + toDead && next.deadletteredCount == st.deadletteredCount + |toDead|
    ensures Conserved(next)
  {
    BalanceKept(st.accepted, Live(st), st.acked, st.dead, entering, toAcked, toDead, Live(next));
  }

  lemma BalanceKept(accepted: seq<Message>, live: seq<Message>, acked: seq<Message>, dead: seq<Message>,
                    entering: seq<Message>, toAcked: seq<Message>, toDead: seq<Message>, live': seq<Message>)
    requires Bag(accepted) == Bag(live) + Bag(acked) + Bag(dead)
    requires Bag(live') + Bag(toAcked + toDead) == Bag(live) + Bag(entering)
    ensures Bag(accepted + entering) == Bag(live') + Bag(acked + toAcked) + Bag(dead + toDead)
  {
    BagConcat(accepted, entering);
    BagConcat(toAcked, toDead);
    BagConcat(acked, toAcked);
    BagConcat(dead, toDead);
    Rebalance(Bag(live), Bag(acked), Bag(dead), Bag(entering), Bag(toAcked), Bag(toDead), Bag(live'));
  }

  /** What enters the live bag and what leaves it for the acked and dead bags keep the total. */
  lemma Rebalance<T>(live: multiset<T>, acked: multiset<T>, dead: multiset<T>,
                     entering: multiset<T>, toAcked: multiset<T>, toDead: multiset<T>, live': multiset<T>)
    requires live' + (toAcked + toDead) == live + entering
    ensures live + acked + dead + entering == live' + (acked + toAcked) + (dead + toDead)
  {
    forall x ensures (live + acked + dead + entering)[x] == (live' + (acked + toAcked) + (dead + toDead))[x] {
      assert (live' + (toAcked + toDead))[x] == (live + entering)[x];
    }
  }

  lemma PushBackDuplicates(st: Store, d: Delivery)
    requires Conserved(st)
    ensures !Conserved(Shift(st, PushBack(d)))
  {
    var next := Shift(st, PushBack(d));
    assert |Bag(st.accepted)| == |Bag(Live(st))| + |Bag(st.acked)| + |Bag(st.dead)|;
    assert |Bag(next.accepted)| < |Bag(Live(next)) + Bag(next.acked) + Bag(next.dead)|;
  }

  /** Stripping respects bags. */
  lemma {:induction false} BagSame(a: seq<Message>, b: seq<Message>)
    requires multiset(a) == multiset(b)
    ensures Bag(a) == Bag(b)
    decreases |a|
  {
    if a == [] {
      assert |multiset(b)| == 0;
    } else {
      assert a[0] in multiset(b);
      var j :| 0 <= j < |b| && b[j] == a[0];
      RemoveAtBag(a, 0);
      RemoveAtBag(b, j);
      Swapped(multiset(RemoveAt(a, 0)), multiset(RemoveAt(b, j)), a[0], a[0]);
      BagSame(RemoveAt(a, 0), RemoveAt(b, j));
      BagRemoveAt(a, 0);
      BagRemoveAt(b, j);
    }
  }

  lemma BagSnoc(messages: seq<Message>, m: Message)
    ensures Bag(messages + [m]) == Bag(messages) + multiset{Strip(m)}
  {
    BagConcat(messages, [m]);
    BagSingle(m);
  }

  lemma BagGivenBack(st: Store, i: nat, d: Delivery)
    requires i < |st.inflight| && st.inflight[i].message == d.message && 0 < st.capacity <= |st.queue|
    ensures Bag(Live(Shift(st, GiveBack(i, d)))) + multiset{Strip(Overwritten(st))} == Bag(Live(st)) + multiset{NO_MESSAGE}
  {
    var live, next := Live(st), Live(Shift(st, GiveBack(i, d)));
    LiveGivenBack(st, i, d);
    BagSame(next + [Overwritten(st)], live + [NO_MESSAGE]);
    BagSnoc(next, Overwritten(st));
    BagSnoc(live, NO_MESSAGE);
  }

  /** Given back to a full buffer, a delivery takes the place of a waiting message, which is gone unless it was empty itself. */
  lemma GiveBackFullIff(st: Store, i: nat, d: Delivery)
    requires Conserved(st) && i < |st.inflight| && st.inflight[i].message == d.message && 0 < st.capacity <= |st.queue|
    ensures Conserved(Shift(st, GiveBack(i, d))) <==> Strip(Overwritten(st)) == NO_MESSAGE
  {
    var next := Shift(st, GiveBack(i, d));
    BagGivenBack(st, i, d);
    Swapped(Bag(Live(next)), Bag(Live(st)), Strip(Overwritten(st)), NO_MESSAGE);
    SameSum(Bag(Live(next)), Bag(Live(st)), Bag(st.acked) + Bag(st.dead));
    assert Bag(Live(st)) + Bag(st.acked) + Bag(st.dead) == Bag(Live(st)) + (Bag(st.acked) + Bag(st.dead));
    assert Bag(Live(next)) + Bag(st.acked) + Bag(st.dead) == Bag(Live(next)) + (Bag(st.acked) + Bag(st.dead));
  }

  lemma SameSum<T>(a: multiset<T>, b: multiset<T>, c: multiset<T>)
    ensures a + c == b + c <==> a == b
  {
    if a + c == b + c {
      assert a == (a + c) - c && b == (b + c) - c;
    }
  }

  /**
    A cancelled reservation conserves messages exactly when its token is still in flight and the push finds a
    free slot, or overwrites nothing but an empty message.
   */
  lemma CancelConservesIff(s: QueueState)
    requires Shape(s) && Conserved(s.store) && Enabled(s, Cancel)
    ensures Conserved(Apply(s, Cancel).store) <==>
            && InFlight(s.store, s.distributor.delivery.token)
            && (|s.store.queue| < s.store.capacity || Strip(Overwritten(s.store)) == NO_MESSAGE)
  {
    var d := s.distributor.delivery;
    var i := IndexOf(s.store.inflight, d.token);
    if !InFlight(s.store, d.token) {
      PushBackDuplicates(s.store, d);
    } else if |s.store.queue| < s.store.capacity {
      ConservedShift(s.store, GiveBack(i, d));
    } else {
      GiveBackFullIff(s.store, i, d);
    }
  }

  /** Where every waiting message has an id, as published ones do: exactly when (B) holds. */
  lemma CancelConservesIffSafe(s: QueueState)
    requires Shape(s) && Conserved(s.store) && Enabled(s, Cancel)
    requires forall i :: 0 <= i < |s.store.queue| ==> s.store.queue[i].id != ""
    ensures Conserved(Apply(s, Cancel).store) <==> SafeCancel(s, Cancel)
  {
    CancelConservesIff(s);
  }

  // ---------------------------------------------------------------- lineage

  /** `m` is `origin` redelivered some number of times, within the retry limit. */
  predicate Descends(m: Message, origin: Message, maxRetries: int) {
    && Strip(m) == Strip(origin) && origin.retry <= m.retry
    && m.retry <= (if origin.retry > maxRetries then origin.retry else maxRetries)
  }

  ghost predicate HasOrigin(st: Store, m: Message, maxRetries: int) {
    exists origin :: origin in st.accepted && Descends(m, origin, maxRetries)
  }

  /** Every message anywhere in the queue descends from an accepted one. */
  ghost predicate Lineage(st: Store, maxRetries: int) {
    forall m :: m in Live(st) || m in st.acked || m in st.dead ==> HasOrigin(st, m, maxRetries)
  }

  lemma LineageShift(st: Store, mv: Move, maxRetries: int)
    requires Lineage(st, maxRetries) && Possible(st, mv) && HasRoom(st, mv) && !mv.PushBack?
    requires mv.GiveBack? ==> mv.delivery.message == st.inflight[mv.i].message
    requires mv.RequeueAt? ==> st.inflight[mv.i].message.retry < maxRetries
    ensures Lineage(Shift(st, mv), maxRetries)
  {
    var next := Shift(st, mv);
    forall m | m in Live(next) || m in next.acked || m in next.dead
      ensures HasOrigin(next, m, maxRetries)
    {
      if mv.Accept? && m == mv.message {
        assert m in next.accepted && Descends(m, m, maxRetries);
      } else if mv.RequeueAt? && m == Retried(st.inflight[mv.i].message) {
        var was := st.inflight[mv.i].message;
        assert was == Live(st)[mv.i] && was in Live(st) && HasOrigin(st, was, maxRetries);
        var origin :| origin in st.accepted && Descends(was, origin, maxRetries);
        assert Descends(m, origin, maxRetries) && origin in next.accepted;
      } else {
        WasThere(st, mv, m);
        var origin :| origin in st.accepted && Descends(m, origin, maxRetries);
        assert origin in next.accepted;
      }
    }
  }

  lemma WasThere(st: Store, mv: Move, m: Message)
    requires Possible(st, mv) && HasRoom(st, mv) && !mv.PushBack?
    requires mv.GiveBack? ==> mv.delivery.message == st.inflight[mv.i].message
    requires var next := Shift(st, mv); m in Live(next) || m in next.acked || m in next.dead
    requires mv.Accept? ==> m != mv.message
    requires mv.RequeueAt? ==> m != Retried(st.inflight[mv.i].message)
    ensures m in Live(st) || m in st.acked || m in st.dead
  {
    LiveShift(st, mv);
    var next := Shift(st, mv);
    if m in next.acked && m !in st.acked {
      assert m == Live(st)[mv.i];
    } else if m in next.dead && m !in st.dead {
      assert m == Live(st)[if mv.BuryHead? then |st.inflight| else mv.i];
    }
  }

  // ---------------------------------------------------------------- over runs

  ghost predicate Sound(s: QueueState) {
    Shape(s) && Bounded(s) && Conserved(s.store) && Lineage(s.store, s.cfg.maxRetries)
  }

  /** (B) for a single move, and the retry limit. */
  predicate SafeMove(st: Store, mv: Move, maxRetries: int)
    requires Possible(st, mv)
  {
    && HasRoom(st, mv) && !mv.PushBack?
    && (mv.GiveBack? ==> mv.delivery.message == st.inflight[mv.i].message)
    && (mv.RequeueAt? ==> st.inflight[mv.i].message.retry < maxRetries)
  }

  lemma SafeMoveOf(s: QueueState, a: Step)
    requires Shape(s) && Bounded(s) && Enabled(s, a) && SafeCancel(s, a)
    ensures SafeMove(s.store, MoveOf(s, a), s.cfg.maxRetries)
  {
    RoomToPush(s, a);
  }

  lemma SoundStep(s: QueueState, a: Step)
    requires Sound(s) && Enabled(s, a) && Orderly(s, a)
    ensures Sound(Apply(s, a))
  {
    ShapeStep(s, a);
    BoundedStep(s, a);
    SafeMoveOf(s, a);
    ConservedShift(s.store, MoveOf(s, a));
    LineageShift(s.store, MoveOf(s, a), s.cfg.maxRetries);
  }

  lemma SoundStart(name: string, cfg: Config, capacity: nat, messages: seq<Message>)
    requires |messages| <= capacity
    ensures Sound(Start(name, cfg, capacity, messages))
  {
    StartShape(name, cfg, capacity, messages);
    ConservedStart(capacity, messages);
    LineageStart(capacity, messages, cfg.maxRetries);
  }

  lemma ConservedStart(capacity: nat, messages: seq<Message>)
    ensures Conserved(EmptyStore(capacity, messages))
  {
    assert Live(EmptyStore(capacity, messages)) == messages;
    assert Bag([]) == multiset{};
  }

  lemma LineageStart(capacity: nat, messages: seq<Message>, maxRetries: int)
    ensures Lineage(EmptyStore(capacity, messages), maxRetries)
  {
    var st := EmptyStore(capacity, messages);
    assert Live(st) == messages;
    forall m | m in Live(st) || m in st.acked || m in st.dead
      ensures HasOrigin(st, m, maxRetries)
    {
      assert Descends(m, m, maxRetries);
    }
  }

  lemma {:induction false} SoundRun(s: QueueState, steps: seq<Step>)
    requires Sound(s) && IsRun(s, steps) && OrderlyRun(s, steps)
    ensures Sound(After(s, steps)) && After(s, steps).cfg == s.cfg
    decreases |steps|
  {
    if steps != [] {
      SoundStep(s, steps[0]);
      SoundRun(Apply(s, steps[0]), steps[1..]);
    }
  }

  /**
    In every run from a fresh or recovered queue: the counters balance, every accepted message is
    accounted for, and no retry count exceeds the larger of the limit and the published one.
   */
  lemma ConservationOverRuns(name: string, cfg: Config, capacity: nat, messages: seq<Message>, steps: seq<Step>)
    requires |messages| <= capacity
    requires IsRun(Start(name, cfg, capacity, messages), steps)
    requires OrderlyRun(Start(name, cfg, capacity, messages), steps)
    ensures
      var st := After(Start(name, cfg, capacity, messages), steps).store;
      && st.producedCount == |st.queue| + |st.inflight| + st.ackedCount + st.deadletteredCount
      && Bag(st.accepted) == Bag(MessagesIn(st.inflight)) + Bag(st.queue) + Bag(st.acked) + Bag(st.dead)
      && Lineage(st, cfg.maxRetries)
  {
    SoundStart(name, cfg, capacity, messages);
    SoundRun(Start(name, cfg, capacity, messages), steps);
    var st := After(Start(name, cfg, capacity, messages), steps).store;
    BagConcat(MessagesIn(st.inflight), st.queue);
  }

  /** When accepted messages are pairwise different, each one is in exactly one place exactly once. */
  lemma ExactlyOnePlace(st: Store, m: Message)
    requires Conserved(st) && m in st.accepted
    requires Distinct(StripAll(st.accepted))
    ensures Bag(MessagesIn(st.inflight))[Strip(m)] + Bag(st.queue)[Strip(m)]
            + Bag(st.acked)[Strip(m)] + Bag(st.dead)[Strip(m)] == 1
  {
    BagConcat(MessagesIn(st.inflight), st.queue);
    DistinctBag(StripAll(st.accepted));
    var i :| 0 <= i < |st.accepted| && st.accepted[i] == m;
    assert StripAll(st.accepted)[i] == Strip(m);
    assert Strip(m) in Bag(st.accepted);
  }
}
