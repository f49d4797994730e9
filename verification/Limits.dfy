/** Where the guarantees end: short runs into the states in which they fail. The exact conditions stand with the guarantees. */
module Limits {
  import opened Types
  import opened Delivery
  import opened RingBuffer
  import Conservation
  import Prefetch
  import Recovery
  import Redelivery
  import RoundRobin
  import Signalling
  import Topic
  import Wal

  // ---------------------------------------------------------------- routing

  lemma HashSegmentExample()
    ensures Topic.Means(["a", "#"], ["a", "#", "b"]) && !Topic.LoopMatch(["a", "#"], ["a", "#", "b"])
  {
    assert ["a", "#"][1..] == ["#"] && ["a", "#", "b"][1..] == ["#", "b"];
    Topic.MeansEverything(["#", "b"]);
    assert ["#"][1..] == [] && ["#", "b"][1..] == ["b"];
  }

  // ---------------------------------------------------------------- short runs

  const PLAIN := Message("m", "payload", 0, 0, None)
  const OTHER := Message("n", "payload", 0, 0, None)
  const FLEETING := Message("m", "payload", 0, 0, Some(1))

  /** `steps` is a run from `s` to `t` that writes `log`; it is orderly, and if `fair` is set it is fair. */
  ghost predicate Goes(s: QueueState, steps: seq<Step>, t: QueueState, log: seq<Record>, fair: bool) {
    && IsRun(s, steps) && OrderlyRun(s, steps) && (fair ==> FairRun(s, steps))
    && After(s, steps) == t && Emitted(s, steps) == log
  }

  lemma Begin(s: QueueState, fair: bool) returns (steps: seq<Step>)
    ensures Goes(s, steps, s, [], fair)
  {
    steps := [];
  }

  /** The run with one more step. */
  lemma Then(s: QueueState, steps: seq<Step>, t: QueueState, log: seq<Record>, fair: bool, a: Step) returns (more: seq<Step>)
    requires Goes(s, steps, t, log, fair) && Enabled(t, a) && Orderly(t, a) && (fair ==> Fair(t, a))
    ensures Goes(s, more, Apply(t, a), log + Emit(t, a), fair)
  {
    more := steps + [a];
    RunSnoc(s, steps, a);
    EmittedSnoc(s, steps, a);
    OrderlySnoc(s, steps, a);
    if fair {
      FairSnoc(s, steps, a);
    }
  }

  /** The run with one more step that writes nothing, to a state known in full. */
  lemma ThenTo(s: QueueState, steps: seq<Step>, t: QueueState, log: seq<Record>, fair: bool, a: Step, u: QueueState) returns (more: seq<Step>)
    requires Goes(s, steps, t, log, fair) && Enabled(t, a) && Orderly(t, a) && (fair ==> Fair(t, a))
    requires Apply(t, a) == u && Emit(t, a) == []
    ensures Goes(s, more, u, log, fair)
  {
    more := Then(s, steps, t, log, fair, a);
    assert log + [] == log;
  }

  // ---------------------------------------------------------------- the first reservation

  /** A queue with work and a wakeup pending, and no consumer yet. */
  predicate Idle(s: QueueState) {
    && s.order == [] && s.unacked == map[] && s.cursor == 0 && s.notify && s.distributor == Parked && !s.closed && s.sleeping == 0
    && s.store.inflight == [] && s.store.queue != [] && !Expired(s.store.queue[0], 0) && s.cfg.prefetch == 1
  }

  /** The same queue with consumer `c` subscribed and the distributor awake. */
  function Attended(s: QueueState): QueueState {
    s.(order := ["c"], unacked := map["c" := 0], notify := false, distributor := Draining)
  }

  /** And with the first message reserved for `c`. */
  function Reserved(s: QueueState): QueueState
    requires s.store.queue != []
  {
    var m := s.store.queue[0];
    Attended(s).(store := s.store.(queue := s.store.queue[1..], inflight := [Entry("t", m, "c", 0)]),
                 unacked := map["c" := 1], distributor := Holding(Delivery(m, "t", "c")))
  }

  lemma CanServe(s: QueueState)
    requires s.order == ["c"] && "c" in s.unacked
    ensures AnyEligible(s) <==> s.unacked["c"] < s.cfg.prefetch
  {
    assert s.order[0] == "c";
    if s.unacked["c"] < s.cfg.prefetch {
      assert RoundRobin.Eligible(s.unacked, s.cfg.prefetch, s.order[0]);
    }
  }

  lemma Attend(s: QueueState)
    requires Idle(s)
    ensures Enabled(s, Subscribe("c", 0)) && Enabled(Apply(s, Subscribe("c", 0)), Wake)
    ensures Apply(Apply(s, Subscribe("c", 0)), Wake) == Attended(s)
  {
    assert [] + ["c"] == ["c"];
  }

  lemma ServeFirst(s: QueueState)
    requires Idle(s)
    ensures Enabled(Attended(s), Reserve("t", 0, 0)) && Fair(Attended(s), Reserve("t", 0, 0))
    ensures Apply(Attended(s), Reserve("t", 0, 0)) == Reserved(s) && Emit(Attended(s), Reserve("t", 0, 0)) == []
  {
    var t := Attended(s);
    CanServe(t);
    assert Chosen(t) == "c";
    assert Bump(t.unacked, "c", 1) == map["c" := 1];
    assert [] + [Entry("t", s.store.queue[0], "c", 0)] == [Entry("t", s.store.queue[0], "c", 0)];
  }

  lemma Quiet(s: QueueState)
    requires Idle(s)
    ensures Emit(s, Subscribe("c", 0)) == [] && Emit(Apply(s, Subscribe("c", 0)), Wake) == []
  {
  }

  /** A run to an idle queue goes on to subscribe `c` and reserve the first message for it. */
  lemma ReserveFirst(s: QueueState, steps: seq<Step>, t: QueueState, log: seq<Record>, fair: bool) returns (more: seq<Step>)
    requires Goes(s, steps, t, log, fair) && Idle(t)
    ensures Goes(s, more, Reserved(t), log, fair)
  {
    Attend(t);
    Quiet(t);
    ServeFirst(t);
    more := ThenTo(s, steps, t, log, fair, Subscribe("c", 0), Apply(t, Subscribe("c", 0)));
    more := ThenTo(s, more, Apply(t, Subscribe("c", 0)), log, fair, Wake, Attended(t));
    more := ThenTo(s, more, Attended(t), log, fair, Reserve("t", 0, 0), Reserved(t));
  }

  lemma Opening(s: QueueState) returns (steps: seq<Step>)
    requires Idle(s)
    ensures Goes(s, steps, Reserved(s), [], true)
  {
    steps := Begin(s, true);
    steps := ReserveFirst(s, steps, s, [], true);
  }

  /** Two messages waiting, and a prefetch limit of one. */
  function TwoWaiting(maxRetries: int): QueueState {
    Start("q", Config(10, maxRetries, 3, 1), 3, [PLAIN, OTHER])
  }

  function Busy(maxRetries: int): QueueState {
    Reserved(TwoWaiting(maxRetries))
  }

  lemma BusyStore(maxRetries: int)
    ensures Busy(maxRetries).store.queue == [OTHER] && Busy(maxRetries).store.inflight == [Entry("t", PLAIN, "c", 0)]
    ensures IndexOf(Busy(maxRetries).store.inflight, "t") == 0
  {
    assert [PLAIN, OTHER][1..] == [OTHER];
  }

  // ---------------------------------------------------------------- lost wakeups

  lemma ParkBusy()
    ensures var s := Busy(0);
            && Enabled(s, Send) && Apply(s, Send) == s.(distributor := Draining) && Emit(s, Send) == []
            && Enabled(Apply(s, Send), Park(0, false)) && Emit(Apply(s, Send), Park(0, false)) == []
            && Apply(Apply(s, Send), Park(0, false)) == s.(distributor := Parked)
  {
    var s := Busy(0);
    assert Apply(s, Send) == s.(distributor := Draining);
    CanServe(Apply(s, Send));
  }

  lemma BuryLosesWakeup(s: QueueState)
    requires s == Busy(0).(distributor := Parked)
    ensures Enabled(s, TimeOut("t", 11, true))
    ensures !Signalling.NoLostWakeup(Apply(s, TimeOut("t", 11, true)))
  {
    BusyStore(0);
    assert MoveOf(s, TimeOut("t", 11, true)) == BuryAt(0);
    CanServe(Apply(s, TimeOut("t", 11, true)));
  }

  /** The retry-exhausted branch of the timeout sweep can leave the distributor asleep in front of work it could do. */
  lemma LostWakeupRun() returns (steps: seq<Step>)
    ensures IsRun(TwoWaiting(0), steps) && FairRun(TwoWaiting(0), steps)
    ensures !Signalling.NoLostWakeup(After(TwoWaiting(0), steps))
  {
    var s := TwoWaiting(0);
    steps := Opening(s);
    ParkBusy();
    steps := ThenTo(s, steps, Busy(0), [], true, Send, Busy(0).(distributor := Draining));
    steps := ThenTo(s, steps, Busy(0).(distributor := Draining), [], true, Park(0, false), Busy(0).(distributor := Parked));
    BuryLosesWakeup(Busy(0).(distributor := Parked));
    steps := Then(s, steps, Busy(0).(distributor := Parked), [], true, TimeOut("t", 11, true));
  }

  /** So can a failed append in the expiry sweep, whose error sends the distributor back to wait. */
  lemma FailedSweepRun() returns (steps: seq<Step>)
    ensures IsRun(Expiring(), steps) && FairRun(Expiring(), steps) && !Signalling.NoLostWakeup(After(Expiring(), steps))
  {
    var s := Expiring();
    Attend(s);
    Quiet(s);
    ParkOnError(Attended(s));
    steps := Begin(s, true);
    steps := ThenTo(s, steps, s, [], true, Subscribe("c", 0), Apply(s, Subscribe("c", 0)));
    steps := ThenTo(s, steps, Apply(s, Subscribe("c", 0)), [], true, Wake, Attended(s));
    steps := Then(s, steps, Attended(s), [], true, Park(1, true));
  }

  lemma ParkOnError(s: QueueState)
    requires s == Attended(Expiring())
    ensures Enabled(s, Park(1, true)) && !Signalling.NoLostWakeup(Apply(s, Park(1, true)))
  {
    CanServe(Apply(s, Park(1, true)));
  }

  // ---------------------------------------------------------------- a message delivered twice, and one lost

  lemma TimeOutHeld()
    ensures var s, a := Busy(1), TimeOut("t", 11, true);
            && Enabled(s, a) && Apply(s, a).store == Shift(s.store, RequeueAt(0))
            && !InFlight(Apply(s, a).store, "t") && Apply(s, a).distributor == s.distributor
  {
    BusyStore(1);
    assert Apply(Busy(1), TimeOut("t", 11, true)).store.inflight == [];
  }

  lemma BusyConserved()
    ensures Conservation.Conserved(Shift(Busy(1).store, RequeueAt(0)))
  {
    var st, e := EmptyStore(3, [PLAIN, OTHER]), Entry("t", PLAIN, "c", 0);
    Conservation.ConservedStart(3, [PLAIN, OTHER]);
    Conservation.ConservedShift(st, ReserveHead(e));
    assert [] + [e] == [e];
    assert Shift(st, ReserveHead(e)) == Busy(1).store;
    Conservation.ConservedShift(Busy(1).store, RequeueAt(0));
  }

  lemma CancelDuplicates(s: QueueState, d: Delivery)
    requires s.distributor == Holding(d) && !InFlight(s.store, d.token) && Conservation.Conserved(s.store)
    ensures Enabled(s, Cancel) && !Conservation.Conserved(Apply(s, Cancel).store)
  {
    Conservation.PushBackDuplicates(s.store, d);
  }

  /** A reservation timed out between its reservation and its cancellation ends up in the queue twice. */
  lemma DuplicateRun() returns (steps: seq<Step>)
    ensures IsRun(TwoWaiting(1), steps) && FairRun(TwoWaiting(1), steps)
    ensures Conservation.Conserved(After(TwoWaiting(1), steps).store) && Enabled(After(TwoWaiting(1), steps), Cancel)
    ensures !Conservation.Conserved(Apply(After(TwoWaiting(1), steps), Cancel).store)
  {
    var s := TwoWaiting(1);
    steps := Opening(s);
    TimeOutHeld();
    BusyConserved();
    CancelDuplicates(Apply(Busy(1), TimeOut("t", 11, true)), Delivery(PLAIN, "t", "c"));
    steps := Then(s, steps, Busy(1), [], true, TimeOut("t", 11, true));
  }

  /** One message in a buffer with one slot. */
  function OneSlot(): QueueState {
    Start("q", Config(10, 0, 1, 1), 1, [PLAIN])
  }

  lemma SlotTaken()
    ensures var s, a := Reserved(OneSlot()), Publish(false, OTHER, true);
            && Enabled(s, a) && Fair(s, a) && Apply(s, a).distributor == s.distributor
            && Apply(s, a).store == Shift(s.store, Accept(OTHER))
            && Apply(s, a).store.queue == [OTHER] && Apply(s, a).store.inflight == [Entry("t", PLAIN, "c", 0)]
  {
    var s := Reserved(OneSlot());
    assert [PLAIN][1..] == [];
    assert Live(s.store) == [PLAIN];
  }

  lemma SlotTakenConserved()
    ensures Conservation.Conserved(Shift(Reserved(OneSlot()).store, Accept(OTHER)))
  {
    var st, e := EmptyStore(1, [PLAIN]), Entry("t", PLAIN, "c", 0);
    Conservation.ConservedStart(1, [PLAIN]);
    Conservation.ConservedShift(st, ReserveHead(e));
    assert [] + [e] == [e];
    assert Shift(st, ReserveHead(e)) == Reserved(OneSlot()).store;
    Conservation.ConservedShift(Reserved(OneSlot()).store, Accept(OTHER));
  }

  lemma CancelOnFull(s: QueueState)
    requires s.store.queue == [OTHER] && s.store.inflight == [Entry("t", PLAIN, "c", 0)] && s.store.capacity == 1
    requires s.distributor == Holding(Delivery(PLAIN, "t", "c"))
    ensures Full(s) && Enabled(s, Cancel) && InFlight(s.store, "t") && MoveOf(s, Cancel) == GiveBack(0, Delivery(PLAIN, "t", "c"))
    ensures Live(s.store) == [PLAIN, OTHER] && Live(Apply(s, Cancel).store) == [PLAIN, NO_MESSAGE]
  {
    assert IndexOf(s.store.inflight, "t") == 0;
    assert Offset(1, 1) == 0;
    assert [OTHER][0 := PLAIN] + [NO_MESSAGE] == [PLAIN, NO_MESSAGE];
    assert MessagesIn(s.store.inflight) == [PLAIN] && [PLAIN] + [OTHER] == [PLAIN, OTHER];
  }

  lemma CancelLoses(s: QueueState)
    requires s.store.queue == [OTHER] && s.store.inflight == [Entry("t", PLAIN, "c", 0)] && s.store.capacity == 1
    requires s.distributor == Holding(Delivery(PLAIN, "t", "c")) && Conservation.Conserved(s.store)
    ensures Enabled(s, Cancel) && !Conservation.Conserved(Apply(s, Cancel).store)
  {
    CancelOnFull(s);
    assert Offset(1, 1) == 0;
    Conservation.GiveBackFullIff(s.store, 0, Delivery(PLAIN, "t", "c"));
  }

  /**
    The slot a reservation frees can be taken before the reservation is cancelled. The push then
    overwrites a message that was accepted and logged, and leaves an empty one behind.
   */
  lemma FullCancelRun() returns (steps: seq<Step>)
    ensures IsRun(OneSlot(), steps) && FairRun(OneSlot(), steps)
    ensures var s := After(OneSlot(), steps);
            && Conservation.Conserved(s.store) && Enabled(s, Cancel) && InFlight(s.store, "t") && Full(s)
            && Live(s.store) == [PLAIN, OTHER] && Live(Apply(s, Cancel).store) == [PLAIN, NO_MESSAGE]
            && !Conservation.Conserved(Apply(s, Cancel).store)
  {
    var s := OneSlot();
    steps := Opening(s);
    SlotTaken();
    SlotTakenConserved();
    var t := Apply(Reserved(s), Publish(false, OTHER, true));
    CancelOnFull(t);
    CancelLoses(t);
    steps := Then(s, steps, Reserved(s), [], true, Publish(false, OTHER, true));
  }

  // ---------------------------------------------------------------- a negative retry count

  /** A client can publish a negative retry count, and have the message redelivered beyond the limit: here once, with a limit of zero. */
  lemma NegativeRetryRun() returns (steps: seq<Step>)
    ensures IsRun(Overdrawn(), steps) && FairRun(Overdrawn(), steps) && Overdrawn().cfg.maxRetries == 0
    ensures After(Overdrawn(), steps).store.redeliveredCount == 1 && After(Overdrawn(), steps).store.producedCount == 1
    ensures !Redelivery.RedeliveryBound(After(Overdrawn(), steps).store, 0)
  {
    var s := Overdrawn();
    var steps0 := Begin(s, true);
    PublishFirst(s);
    steps := Then(s, steps0, s, [], true, Publish(false, DEBTOR, true));
    var t := Apply(s, Publish(false, DEBTOR, true));
    steps := ReserveFirst(s, steps, t, [] + Emit(s, Publish(false, DEBTOR, true)), true);
    RedeliverDebtor(t);
    steps := Then(s, steps, Reserved(t), [] + Emit(s, Publish(false, DEBTOR, true)), true, TimeOut("t", 11, true));
  }

  const DEBTOR := Message("m", "payload", 0, -1, None)

  function Overdrawn(): QueueState {
    Start("q", Config(10, 0, 3, 1), 3, [])
  }

  lemma PublishFirst(s: QueueState)
    requires s == Overdrawn()
    ensures var a := Publish(false, DEBTOR, true);
            && Enabled(s, a) && Fair(s, a) && Idle(Apply(s, a)) && Apply(s, a).store == EmptyStore(3, [DEBTOR])
            && Apply(s, a).cfg == s.cfg
  {
    assert Live(s.store) == [];
    assert [] + [DEBTOR] == [DEBTOR];
  }

  lemma RedeliverDebtor(t: QueueState)
    requires Idle(t) && t.store == EmptyStore(3, [DEBTOR]) && t.cfg == Overdrawn().cfg
    ensures var s, a := Reserved(t), TimeOut("t", 11, true);
            && Enabled(s, a) && Fair(s, a)
            && Apply(s, a).store.redeliveredCount == 1 && Apply(s, a).store.producedCount == 1
  {
    var s, a := Reserved(t), TimeOut("t", 11, true);
    assert [DEBTOR][1..] == [];
    assert IndexOf(s.store.inflight, "t") == 0;
    assert MoveOf(s, a) == RequeueAt(0);
  }

  // ---------------------------------------------------------------- repeated message ids

  function NothingYet(): QueueState {
    Start("q", Config(10, 0, 3, 1), 3, [])
  }

  /** The queue after the same message has been published twice. */
  function SameTwice(): QueueState {
    NothingYet().(store := EmptyStore(3, [PLAIN, PLAIN]))
  }

  lemma PublishOne(messages: seq<Message>)
    requires |messages| < 3
    ensures var s, a := NothingYet().(store := EmptyStore(3, messages)), Publish(false, PLAIN, true);
            && Enabled(s, a) && Orderly(s, a) && Apply(s, a) == NothingYet().(store := EmptyStore(3, messages + [PLAIN]))
            && Emit(s, a) == [Published("q", PLAIN, "m")]
  {
  }

  lemma PublishTwice() returns (steps: seq<Step>)
    ensures Goes(NothingYet(), steps, SameTwice(), [Published("q", PLAIN, "m"), Published("q", PLAIN, "m")], false)
  {
    var s, p := NothingYet(), Published("q", PLAIN, "m");
    assert [] + [PLAIN] == [PLAIN] && [PLAIN] + [PLAIN] == [PLAIN, PLAIN];
    assert [] + [p] == [p] && [p] + [p] == [p, p];
    steps := Begin(s, false);
    PublishOne([]);
    steps := Then(s, steps, s, [], false, Publish(false, PLAIN, true));
    PublishOne([PLAIN]);
    steps := Then(s, steps, s.(store := EmptyStore(3, [PLAIN])), [p], false, Publish(false, PLAIN, true));
  }

  lemma AckHeld(s: QueueState, m: Message)
    requires s.store.inflight == [Entry("t", m, "c", 0)]
    ensures var a := Ack("t", true);
            && Emit(s, a) == [Acknowledged(s.name, m, m.id)] && Live(Apply(s, a).store) == s.store.queue
  {
    assert IndexOf(s.store.inflight, "t") == 0;
    assert Apply(s, Ack("t", true)).store.inflight == [] && MessagesIn([]) + s.store.queue == s.store.queue;
  }

  lemma ReplayTwice(q: string, m: Message)
    ensures Wal.ReplayQueue(q, [Published(q, m, m.id), Published(q, m, m.id), Acknowledged(q, m, m.id)]) == Some([])
  {
    var p, a := Published(q, m, m.id), Acknowledged(q, m, m.id);
    Wal.ReplayQueueSnoc(q, [], p);
    assert [] + [p] == [p] && [] + [m] == [m];
    Wal.ReplayQueueSnoc(q, [p], p);
    assert [p] + [p] == [p, p] && [m] + [m] == [m, m];
    Wal.ReplayQueueSnoc(q, [p, p], a);
    assert [p, p] + [a] == [p, p, a];
    assert [m, m][1..] == [m] && [m][1..] == [];
    assert Wal.Without([m], m.id) == [] && Wal.Without([m, m], m.id) == Wal.Without([m], m.id);
  }

  /** With the same id published twice, acknowledging one copy makes replay forget both: the queue still holds one. */
  lemma RepeatedIdRun() returns (steps: seq<Step>)
    ensures IsRun(NothingYet(), steps) && OrderlyRun(NothingYet(), steps)
    ensures Live(After(NothingYet(), steps).store) == [PLAIN]
    ensures Wal.ReplayQueue("q", Emitted(NothingYet(), steps)) == Some([])
  {
    var s, p, a := NothingYet(), Published("q", PLAIN, "m"), Acknowledged("q", PLAIN, "m");
    steps := PublishTwice();
    steps := ReserveFirst(s, steps, SameTwice(), [p, p], false);
    AckHeld(Reserved(SameTwice()), PLAIN);
    assert [PLAIN, PLAIN][1..] == [PLAIN];
    steps := Then(s, steps, Reserved(SameTwice()), [p, p], false, Ack("t", true));
    assert [p, p] + [a] == [p, p, a];
    ReplayTwice("q", PLAIN);
  }

  // ---------------------------------------------------------------- a deleted queue that comes back

  function Expiring(): QueueState {
    Start("q", Config(10, 0, 3, 1), 3, [FLEETING])
  }

  /** The last message of the queue is in flight, its retries are used up, and the distributor still holds it. */
  predicate LastHeld(s: QueueState, m: Message) {
    && s.store.queue == [] && s.store.inflight == [Entry("t", m, "c", 0)] && s.store.capacity > 0 && !s.closed
    && s.distributor == Holding(Delivery(m, "t", "c")) && s.cfg.ackTimeout == 10 && m.retry >= s.cfg.maxRetries
  }

  lemma BuryHeld(s: QueueState, m: Message)
    requires LastHeld(s, m)
    ensures var a := TimeOut("t", 11, true);
            && Enabled(s, a) && Emit(s, a) == [DeadLettered(s.name, m.id)]
            && Apply(s, a).store.queue == [] && Apply(s, a).store.inflight == [] && Apply(s, a).store.capacity == s.store.capacity
            && Apply(s, a).distributor == s.distributor && Apply(s, a).name == s.name
  {
    assert IndexOf(s.store.inflight, "t") == 0;
    assert MoveOf(s, TimeOut("t", 11, true)) == BuryAt(0);
  }

  lemma CloseEmpty(s: QueueState)
    requires s.store.queue == [] && s.store.inflight == []
    ensures Apply(s, CloseIfEmpty) == CloseAll(s) && Recovery.Gone(CloseAll(s)) && Emit(s, CloseIfEmpty) == []
  {
  }

  lemma CancelOntoGone(s: QueueState, m: Message)
    requires Recovery.Gone(s) && s.distributor == Holding(Delivery(m, "t", "c")) && s.store.capacity > 0 && Expired(m, 11)
    ensures Enabled(s, Cancel) && Enabled(Apply(s, Cancel), ExpireHead(11, true))
    ensures Emit(Apply(s, Cancel), ExpireHead(11, true)) == [DeadLettered(s.name, m.id)]
  {
    assert Apply(s, Cancel).store.queue == [m];
  }

  lemma BuryAndClose(s: QueueState, steps: seq<Step>, t: QueueState, m: Message) returns (more: seq<Step>, u: QueueState)
    requires Goes(s, steps, t, [], true) && LastHeld(t, m)
    ensures Goes(s, more, u, [DeadLettered(t.name, m.id)], true)
    ensures Recovery.Gone(u) && u.distributor == t.distributor && u.store.capacity == t.store.capacity && u.name == t.name
  {
    var d := [DeadLettered(t.name, m.id)];
    assert [] + d == d;
    BuryHeld(t, m);
    more := Then(s, steps, t, [], true, TimeOut("t", 11, true));
    u := Apply(t, TimeOut("t", 11, true));
    CloseEmpty(u);
    more := ThenTo(s, more, u, d, true, CloseIfEmpty, CloseAll(u));
    u := CloseAll(u);
  }

  /**
    A reservation still held when its message is buried and its queue closed and deleted goes back to the
    queue when it is cancelled. If it then expires, its record comes after the deletion's.
   */
  lemma ResurrectRun() returns (steps: seq<Step>)
    ensures IsRun(Expiring(), steps) && FairRun(Expiring(), steps)
    ensures var s := After(Expiring(), steps);
            && Recovery.Gone(s) && Enabled(s, Cancel) && Enabled(Apply(s, Cancel), ExpireHead(11, true))
            && Emit(Apply(s, Cancel), ExpireHead(11, true)) == [DeadLettered("q", "m")]
  {
    steps := Opening(Expiring());
    assert [FLEETING][1..] == [];
    var u;
    steps, u := BuryAndClose(Expiring(), steps, Reserved(Expiring()), FLEETING);
    CancelOntoGone(u, FLEETING);
  }

  /** Replay then has the queue again, whatever came before. */
  lemma LateRecordRevives(log: seq<Record>, q: string, id: string)
    ensures Wal.ReplayQueue(q, log + [QueueDeleted(q)]) == None
    ensures Wal.ReplayQueue(q, log + [QueueDeleted(q)] + [DeadLettered(q, id)]) == Some([])
  {
    Wal.ReplayQueueSnoc(q, log, QueueDeleted(q));
    Wal.ReplayQueueSnoc(q, log + [QueueDeleted(q)], DeadLettered(q, id));
  }

  // ---------------------------------------------------------------- more than the prefetch limit

  /** The consumer has left, and it is back with a count of zero. */
  function Left(): QueueState {
    Busy(0).(distributor := Draining, unacked := map[], order := [], cursor := 0)
  }

  function Back(): QueueState {
    Busy(0).(distributor := Draining, unacked := map["c" := 0], notify := true)
  }

  lemma ComeBack()
    ensures Apply(Busy(0).(distributor := Draining), Unsubscribe("c")) == Left() && Emit(Busy(0).(distributor := Draining), Unsubscribe("c")) == []
    ensures Apply(Left(), Subscribe("c", 0)) == Back() && Emit(Left(), Subscribe("c", 0)) == []
  {
    var s := Busy(0);
    assert OrderWithout(["c"], "c") == [] && s.unacked - {"c"} == map[] && [] + ["c"] == ["c"];
  }

  lemma SecondDelivery()
    ensures var s := Back();
            && Enabled(s, Reserve("u", 0, 0)) && Fair(s, Reserve("u", 0, 0))
            && Apply(s, Reserve("u", 0, 0)).store.inflight == [Entry("t", PLAIN, "c", 0), Entry("u", OTHER, "c", 0)]
  {
    var s := Back();
    BusyStore(0);
    CanServe(s);
    assert Chosen(s) == "c";
    assert IndexOf(s.store.inflight, "u") == 1;
  }

  /** A consumer that comes back under its old id while a delivery is in flight can hold more than its limit. */
  lemma StaleIdRun() returns (steps: seq<Step>)
    ensures IsRun(TwoWaiting(0), steps) && FairRun(TwoWaiting(0), steps)
    ensures Prefetch.HeldBy(After(TwoWaiting(0), steps).store.inflight, "c") == 2 && TwoWaiting(0).cfg.prefetch == 1
  {
    var s := TwoWaiting(0);
    steps := Opening(s);
    ParkBusy();
    steps := ThenTo(s, steps, Busy(0), [], true, Send, Busy(0).(distributor := Draining));
    ComeBack();
    steps := ThenTo(s, steps, Busy(0).(distributor := Draining), [], true, Unsubscribe("c"), Left());
    steps := ThenTo(s, steps, Left(), [], true, Subscribe("c", 0), Back());
    SecondDelivery();
    steps := Then(s, steps, Back(), [], true, Reserve("u", 0, 0));
    BothHeld();
  }

  lemma BothHeld()
    ensures Prefetch.HeldBy([Entry("t", PLAIN, "c", 0), Entry("u", OTHER, "c", 0)], "c") == 2
  {
    assert [Entry("t", PLAIN, "c", 0), Entry("u", OTHER, "c", 0)][1..] == [Entry("u", OTHER, "c", 0)];
    assert Prefetch.HeldBy([Entry("u", OTHER, "c", 0)], "c") == 1;
  }

  // ---------------------------------------------------------------- a stranded publisher

  /** A woken publisher whose append fails takes its wakeup with it: the other one sleeps on next to a free slot. */
  lemma StrandedRun() returns (steps: seq<Step>)
    ensures var s0 := Start("q", Config(10, 0, 1, 1), 1, [FLEETING]);
            IsRun(s0, steps) && FairRun(s0, steps) && !Signalling.Unstranded(After(s0, steps))
  {
    var s0 := Start("q", Config(10, 0, 1, 1), 1, [FLEETING]);
    var sleep, leave := Publish(false, OTHER, true), Publish(true, OTHER, false);
    steps := Begin(s0, true);
    SleepOnFull(s0);
    steps := ThenTo(s0, steps, s0, [], true, sleep, s0.(sleeping := 1));
    SleepOnFull(s0.(sleeping := 1));
    var s2 := s0.(sleeping := 2);
    steps := ThenTo(s0, steps, s0.(sleeping := 1), [], true, sleep, s2);
    LeaveStrands(s2);
    steps := Then(s0, steps, s2, [], true, ExpireHead(1, true));
    steps := Then(s0, steps, Apply(s2, ExpireHead(1, true)), [] + Emit(s2, ExpireHead(1, true)), true, leave);
  }

  lemma SleepOnFull(s: QueueState)
    requires s.store.queue == [FLEETING] && s.store.inflight == [] && s.store.capacity == 1 && !s.closed
    ensures var a := Publish(false, OTHER, true); Enabled(s, a) && Fair(s, a) && Apply(s, a) == s.(sleeping := s.sleeping + 1) && Emit(s, a) == []
  {
    assert Live(s.store) == [FLEETING];
  }

  lemma LeaveStrands(s: QueueState)
    requires s.store.queue == [FLEETING] && s.store.inflight == [] && s.store.capacity == 1 && !s.closed
    requires s.sleeping == 2 && s.woken == 0
    ensures var a, b := ExpireHead(1, true), Publish(true, OTHER, false);
            && Enabled(s, a) && Fair(s, a) && Enabled(Apply(s, a), b) && Fair(Apply(s, a), b)
            && !Signalling.Unstranded(Apply(Apply(s, a), b))
  {
    var t := Apply(s, ExpireHead(1, true));
    assert t.store.queue == [] && t.sleeping == 1 && t.woken == 1;
    assert Live(t.store) == [];
  }
}
