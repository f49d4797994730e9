/** Runs of the broker, from an empty log, into states in which log and memory part or a restart fails. */
module BrokerLimits {
  import opened Types
  import opened Delivery
  import opened Broker
  import opened BrokerQueues
  import opened BrokerKnown
  import opened BrokerTopology
  import BrokerRuns
  import Exchange
  import Limits
  import Recovery
  import Topic
  import Wal

  /** A crash right after a queue's deletion is logged leaves a log the broker can start from exactly when no logged exchange still binds the queue. */
  lemma CrashMidDeleteIff(b: BrokerState, name: string)
    requires Known(b) && TopologyOk(b) && QueueDeletable(b, name)
    ensures BootOk(Wal.Replay(b.log + [QueueDeleted(name)])) <==>
            forall e :: e in b.exchanges && e != DEFAULT_EXCHANGE ==> !HasBinding(b.exchanges[e].bindings, "", name)
  {
    var st := Wal.Replay(b.log + [QueueDeleted(name)]);
    RestartPossible(b);
    assert st.exchanges == Wal.Replay(b.log).exchanges && st.pending == Wal.Replay(b.log).pending - {name} by {
      assert (b.log + [QueueDeleted(name)])[..|b.log|] == b.log;
    }
    forall e ensures e in st.exchanges <==> e in b.exchanges && e != DEFAULT_EXCHANGE
             ensures e in st.exchanges ==> st.exchanges[e] == b.exchanges[e]
    {
      assert ExchangeOk(b, e);
      Wal.ReplayExchangeAgrees(e, b.log);
    }
    forall e | e in st.exchanges
      ensures ExchangeBootOk(st, e) <==> !HasBinding(st.exchanges[e].bindings, "", name)
    {
      assert ExchangeBootOk(Wal.Replay(b.log), e);
    }
  }

  /** A broker in good order, reached by `steps` from the empty log. */
  ghost predicate Reaches(cfg: Config, steps: seq<BrokerStep>, b: BrokerState) {
    && Visits([], Wal.Replay([]).exchanges) && IsBrokerRun(Boot(cfg, [], [], map[]), steps)
    && FairSteps(Boot(cfg, [], [], map[]), steps)
    && AfterAll(Boot(cfg, [], [], map[]), steps) == b && QueuesOk(b) && TopologyOk(b)
  }

  lemma FirstStart(cfg: Config) returns (steps: seq<BrokerStep>, b: BrokerState)
    ensures Reaches(cfg, steps, b)
    ensures b.queues.Keys == {DEFAULT_QUEUE} && b.exchanges.Keys == {DEFAULT_EXCHANGE} && !b.closed
    ensures b.cfg == cfg && b.detached == [] && b.issued == map[]
  {
    BrokerRuns.EmptyLogStarts();
    steps, b := [], Boot(cfg, [], [], map[]);
    BootQueues(cfg, [], [], map[]);
    BootTopology(cfg, [], [], map[]);
  }

  lemma {:induction false} FairStepsSnoc(b: BrokerState, steps: seq<BrokerStep>, a: BrokerStep)
    requires IsBrokerRun(b, steps) && FairSteps(b, steps) && CanStep(AfterAll(b, steps), a) && FairStep(AfterAll(b, steps), a)
    requires IsBrokerRun(b, steps + [a])
    ensures FairSteps(b, steps + [a])
    decreases |steps|
  {
    if steps == [] {
      assert steps + [a] == [a] && [a][1..] == [];
    } else {
      assert (steps + [a])[1..] == steps[1..] + [a];
      FairStepsSnoc(Next(b, steps[0]), steps[1..], a);
    }
  }

  lemma Onward(cfg: Config, steps: seq<BrokerStep>, b: BrokerState, a: BrokerStep) returns (more: seq<BrokerStep>)
    requires Reaches(cfg, steps, b) && CanStep(b, a) && FairStep(b, a) && !Diverges(b, a)
    ensures Reaches(cfg, more, Next(b, a))
  {
    var start := Boot(cfg, [], [], map[]);
    more := steps + [a];
    BrokerRunSnoc(start, steps, a);
    FairStepsSnoc(start, steps, a);
    QueuesOkStep(b, a);
    TopologyStepIff(b, a);
  }

  const Q := "q"
  const X := "x"
  const K := "k"

  lemma KeyValid()
    ensures Topic.ValidBindingKey(K) && ValidName(Q) && ValidExchangeName(X) && ValidExchangeType(Exchange.DIRECT)
  {
    Topic.WordIsValidKey(K);
  }

  /** A broker with a queue `q` and an exchange `x`. */
  ghost predicate Set(b: BrokerState) {
    && Q in b.queues && b.queues[Q].store.queue == [] && b.queues[Q].store.inflight == []
    && b.exchanges.Keys == {DEFAULT_EXCHANGE, X}
  }

  lemma WithQueue(cfg: Config) returns (steps: seq<BrokerStep>, b: BrokerState)
    ensures Reaches(cfg, steps, b) && Q in b.queues && b.queues[Q].store == EmptyStore(b.queues[Q].store.capacity, [])
    ensures b.exchanges.Keys == {DEFAULT_EXCHANGE}
  {
    KeyValid();
    steps, b := FirstStart(cfg);
    steps := Onward(cfg, steps, b, CreateQueue(Q, true));
    b := Next(b, CreateQueue(Q, true));
  }

  lemma AddExchange(b: BrokerState)
    requires X !in b.exchanges
    ensures Next(b, CreateExchange(X, Exchange.DIRECT, true)) ==
            b.(exchanges := b.exchanges[X := ExchangeState(Exchange.DIRECT, [])], log := b.log + [ExchangeCreated(X, Exchange.DIRECT)])
  {
    KeyValid();
  }

  lemma SetUp(cfg: Config) returns (steps: seq<BrokerStep>, b: BrokerState)
    ensures Reaches(cfg, steps, b) && Set(b) && b.exchanges[X] == ExchangeState(Exchange.DIRECT, [])
  {
    steps, b := WithQueue(cfg);
    AddExchange(b);
    steps := Onward(cfg, steps, b, CreateExchange(X, Exchange.DIRECT, true));
    b := Next(b, CreateExchange(X, Exchange.DIRECT, true));
  }

  lemma Bound(cfg: Config) returns (steps: seq<BrokerStep>, b: BrokerState)
    ensures Reaches(cfg, steps, b) && Set(b) && b.exchanges[X].bindings == [Binding(Q, K)]
  {
    KeyValid();
    steps, b := SetUp(cfg);
    assert [] + [Binding(Q, K)] == [Binding(Q, K)];
    steps := Onward(cfg, steps, b, Bind(X, Q, K, true));
    b := Next(b, Bind(X, Q, K, true));
  }

  /** A bind whose record is not written leaves a binding in memory that the log does not have. */
  lemma FailedBindRun(cfg: Config) returns (steps: seq<BrokerStep>, b: BrokerState)
    ensures Reaches(cfg, steps, b) && CanStep(b, Bind(X, Q, K, false)) && !TopologyOk(Next(b, Bind(X, Q, K, false)))
  {
    KeyValid();
    steps, b := SetUp(cfg);
    TopologyStepIff(b, Bind(X, Q, K, false));
  }

  lemma HoldsBinding(b: BrokerState)
    requires Set(b) && b.exchanges[X].bindings == [Binding(Q, K)]
    ensures HasBinding(b.exchanges[X].bindings, K, Q) && HasBinding(b.exchanges[X].bindings, "", Q)
    ensures QueueDeletable(b, Q) && CanStop(b.exchanges, [], X, Q)
  {
    assert Binding(Q, K) in b.exchanges[X].bindings;
    assert Wal.Unbinds(Binding(Q, K), K, Q) && Wal.Unbinds(Binding(Q, K), "", Q);
  }

  /** An unbind whose record is not written leaves a binding in the log that memory no longer has. */
  lemma FailedUnbindRun(cfg: Config) returns (steps: seq<BrokerStep>, b: BrokerState)
    ensures Reaches(cfg, steps, b) && CanStep(b, Unbind(X, Q, K, false)) && !TopologyOk(Next(b, Unbind(X, Q, K, false)))
  {
    steps, b := Bound(cfg);
    HoldsBinding(b);
    TopologyStepIff(b, Unbind(X, Q, K, false));
  }

  /** So does a deletion stopped by a failed unbind record. */
  lemma InterruptedRun(cfg: Config) returns (steps: seq<BrokerStep>, b: BrokerState)
    ensures Reaches(cfg, steps, b) && CanStep(b, InterruptDelete(Q, [], X)) && !TopologyOk(Next(b, InterruptDelete(Q, [], X)))
  {
    steps, b := Bound(cfg);
    HoldsBinding(b);
    TopologyStepIff(b, InterruptDelete(Q, [], X));
  }

  /** A crash after the first record of a deletion: the next start is refused. */
  lemma CrashMidDeleteRun(cfg: Config) returns (steps: seq<BrokerStep>, b: BrokerState)
    ensures Reaches(cfg, steps, b) && QueueDeletable(b, Q) && !BootOk(Wal.Replay(b.log + [QueueDeleted(Q)]))
  {
    steps, b := Bound(cfg);
    HoldsBinding(b);
    OkIsKnown(b);
    CrashMidDeleteIff(b, Q);
  }

  // ---------------------------------------------------------------- a deleted queue that comes back

  const CFG := Config(10, 0, 3, 1)

  /** A broker on the way to the resurrection: one queue beside the default one, nothing deleted, and `s` its state. */
  ghost predicate Serving(steps: seq<BrokerStep>, b: BrokerState, s: QueueState) {
    && Reaches(CFG, steps, b) && Q in b.queues && b.queues[Q] == s && b.exchanges.Keys == {DEFAULT_EXCHANGE}
    && b.detached == [] && b.issued == map[]
  }

  lemma CreateForm(b: BrokerState)
    requires QueueCreatable(b, Q)
    ensures Next(b, CreateQueue(Q, true)) == b.(queues := b.queues[Q := NewQueue(Q, b.cfg, [])], log := b.log + [QueueCreated(Q)])
  {
  }

  lemma NewlyServing() returns (steps: seq<BrokerStep>, b: BrokerState)
    ensures Serving(steps, b, NewQueue(Q, CFG, []))
  {
    hide Next, TopologyOk, QueuesOk, IsBrokerRun, NewQueue;
    KeyValid();
    steps, b := FirstStart(CFG);
    CreateForm(b);
    steps := Onward(CFG, steps, b, CreateQueue(Q, true));
    b := Next(b, CreateQueue(Q, true));
  }

  lemma QueueStepForm(b: BrokerState, q: string, step: Step)
    requires CanStep(b, AtQueue(q, step))
    ensures var c := Next(b, AtQueue(q, step));
            && c.queues == b.queues[q := Apply(b.queues[q], step)] && c.exchanges == b.exchanges && c.detached == b.detached
            && (!step.Reserve? ==> c.issued == b.issued)
  {
    DistributorStep(b.queues[q], step);
  }

  /** A fair step at the queue that reserves nothing. */
  lemma ServeOn(steps: seq<BrokerStep>, b: BrokerState, s: QueueState, step: Step) returns (more: seq<BrokerStep>, c: BrokerState)
    requires Serving(steps, b, s) && Enabled(s, step) && Fair(s, step) && !step.Reserve?
    ensures Serving(more, c, Apply(s, step))
  {
    hide Next, TopologyOk, QueuesOk, IsBrokerRun;
    QueueStepForm(b, Q, step);
    more := Onward(CFG, steps, b, AtQueue(Q, step));
    c := Next(b, AtQueue(Q, step));
  }

  lemma FirstMessage(s: QueueState)
    requires s == NewQueue(Q, CFG, [])
    ensures var a := Publish(false, Limits.FLEETING, true);
            && Enabled(s, a) && Fair(s, a) && Limits.Idle(Apply(s, a)) && Apply(s, a).store == EmptyStore(3, [Limits.FLEETING])
            && Apply(s, a).cfg == CFG && Apply(s, a).name == Q
  {
    assert Live(s.store) == [];
    assert [] + [Limits.FLEETING] == [Limits.FLEETING];
  }

  /** The queue with its only message published and a consumer attended to. */
  lemma Attended() returns (steps: seq<BrokerStep>, b: BrokerState, s: QueueState)
    ensures Limits.Idle(s) && s.store == EmptyStore(3, [Limits.FLEETING]) && s.cfg == CFG && s.name == Q
    ensures Serving(steps, b, Limits.Attended(s))
  {
    hide Serving;
    steps, b := NewlyServing();
    s := NewQueue(Q, CFG, []);
    FirstMessage(s);
    steps, b := ServeOn(steps, b, s, Publish(false, Limits.FLEETING, true));
    s := Apply(s, Publish(false, Limits.FLEETING, true));
    Limits.Attend(s);
    steps, b := ServeOn(steps, b, s, Subscribe("c", 0));
    steps, b := ServeOn(steps, b, Apply(s, Subscribe("c", 0)), Wake);
  }

  /** The state of the queue once its message has been reserved and buried: empty, with the reservation still held. */
  ghost predicate Emptied(s: QueueState) {
    && s.store.queue == [] && s.store.inflight == [] && s.store.capacity > 0 && s.name == Q
    && s.distributor == Holding(Delivery(Limits.FLEETING, "t", "c"))
  }

  /** A broker in good order whose queue `q` is in state `s`. */
  ghost predicate Holds(steps: seq<BrokerStep>, b: BrokerState, s: QueueState) {
    && Reaches(CFG, steps, b) && Q in b.queues && b.queues[Q] == s && b.exchanges.Keys == {DEFAULT_EXCHANGE} && b.detached == []
  }

  lemma ReserveOn(steps: seq<BrokerStep>, b: BrokerState, s: QueueState, step: Step) returns (more: seq<BrokerStep>, c: BrokerState)
    requires Serving(steps, b, s) && Enabled(s, step) && Fair(s, step)
    ensures Holds(more, c, Apply(s, step))
  {
    hide Next, TopologyOk, QueuesOk, IsBrokerRun;
    QueueStepForm(b, Q, step);
    more := Onward(CFG, steps, b, AtQueue(Q, step));
    c := Next(b, AtQueue(Q, step));
  }

  lemma HoldOn(steps: seq<BrokerStep>, b: BrokerState, s: QueueState, step: Step) returns (more: seq<BrokerStep>, c: BrokerState)
    requires Holds(steps, b, s) && Enabled(s, step) && Fair(s, step) && !step.Reserve?
    ensures Holds(more, c, Apply(s, step))
  {
    hide Next, TopologyOk, QueuesOk, IsBrokerRun;
    QueueStepForm(b, Q, step);
    more := Onward(CFG, steps, b, AtQueue(Q, step));
    c := Next(b, AtQueue(Q, step));
  }

  lemma ReservedAndBuried() returns (steps: seq<BrokerStep>, b: BrokerState, s: QueueState)
    ensures Holds(steps, b, s) && Emptied(s)
  {
    hide Serving, Holds;
    steps, b, s := Attended();
    Limits.ServeFirst(s);
    steps, b := ReserveOn(steps, b, Limits.Attended(s), Reserve("t", 0, 0));
    s := Limits.Reserved(s);
    assert [Limits.FLEETING][1..] == [];
    Limits.BuryHeld(s, Limits.FLEETING);
    steps, b := HoldOn(steps, b, s, TimeOut("t", 11, true));
    s := Apply(s, TimeOut("t", 11, true));
  }

  lemma DeleteForm(b: BrokerState)
    requires Q in b.queues && Emptied(b.queues[Q]) && b.exchanges.Keys == {DEFAULT_EXCHANGE} && b.detached == []
    ensures CanStep(b, DeleteQueue(Q, true, [DEFAULT_EXCHANGE]))
    ensures var c := Next(b, DeleteQueue(Q, true, [DEFAULT_EXCHANGE])); Q !in c.queues && c.detached == [CloseAll(b.queues[Q])]
  {
    assert [] + [CloseAll(b.queues[Q])] == [CloseAll(b.queues[Q])];
  }

  /** A run from the empty log to the deletion of a queue whose distributor still holds a reservation. */
  lemma DeletedWhileHolding() returns (steps: seq<BrokerStep>, b: BrokerState)
    ensures Reaches(CFG, steps, b) && Q !in b.queues && |b.detached| == 1
    ensures Recovery.Gone(b.detached[0]) && b.detached[0].name == Q && b.detached[0].store.capacity > 0
    ensures b.detached[0].distributor == Holding(Delivery(Limits.FLEETING, "t", "c"))
  {
    hide Next, TopologyOk, QueuesOk, IsBrokerRun;
    var s;
    steps, b, s := ReservedAndBuried();
    DeleteForm(b);
    var a := DeleteQueue(Q, true, [DEFAULT_EXCHANGE]);
    steps := Onward(CFG, steps, b, a);
    b := Next(b, a);
  }

  lemma LateForm(b: BrokerState, step: Step)
    requires |b.detached| == 1 && Enabled(b.detached[0], step)
    ensures CanStep(b, AtDetached(0, step))
    ensures var c := Next(b, AtDetached(0, step));
            c.queues == b.queues && c.detached == [Apply(b.detached[0], step)] && Appended(b, AtDetached(0, step)) == Emit(b.detached[0], step)
  {
    assert b.detached[0 := Apply(b.detached[0], step)] == [Apply(b.detached[0], step)];
  }

  /**
    The whole run: a queue is deleted while its distributor holds a reservation; the reservation is cancelled onto the deleted
    queue and expires there; and the log then knows a queue that does not exist, which the next start creates.
   */
  lemma ResurrectedRun() returns (steps: seq<BrokerStep>)
    ensures Visits([], Wal.Replay([]).exchanges) && IsBrokerRun(Boot(CFG, [], [], map[]), steps)
    ensures var b := AfterAll(Boot(CFG, [], [], map[]), steps);
            Q !in b.queues && Q in Wal.Replay(b.log).pending && |b.detached| == 1 && b.detached[0].name == Q
  {
    var b;
    steps, b := DeletedWhileHolding();
    var late, expire := AtDetached(0, Cancel), AtDetached(0, ExpireHead(11, true));
    Limits.CancelOntoGone(b.detached[0], Limits.FLEETING);
    LateForm(b, Cancel);
    var c := Next(b, late);
    LateForm(c, ExpireHead(11, true));
    KnownAfter(c, expire, Q);
    Wal.ReplayQueueAgrees(Q, Next(c, expire).log);
    BrokerRunSnoc(Boot(CFG, [], [], map[]), steps, late);
    BrokerRunSnoc(Boot(CFG, [], [], map[]), steps + [late], expire);
    steps := steps + [late] + [expire];
  }
}
