/** The broker's guarantees over every run, with restarts and crashes anywhere. */
module BrokerRuns {
  import opened Types
  import opened Delivery
  import opened Recovery
  import opened Broker
  import opened BrokerQueues
  import opened BrokerKnown
  import opened BrokerTopology
  import opened BrokerTokens
  import Redelivery
  import Exchange
  import Wal

  lemma {:induction false} QueuesOkRun(b: BrokerState, steps: seq<BrokerStep>)
    requires QueuesOk(b) && IsBrokerRun(b, steps) && FairSteps(b, steps)
    ensures QueuesOk(AfterAll(b, steps))
    decreases |steps|
  {
    if steps != [] {
      QueuesOkStep(b, steps[0]);
      QueuesOkRun(Next(b, steps[0]), steps[1..]);
    }
  }

  lemma {:induction false} TokensRun(b: BrokerState, steps: seq<BrokerStep>)
    requires TokensOk(b) && IsBrokerRun(b, steps) && DrawsFreshSteps(b, steps)
    ensures TokensOk(AfterAll(b, steps))
    decreases |steps|
  {
    if steps != [] {
      TokensStep(b, steps[0]);
      TokensRun(Next(b, steps[0]), steps[1..]);
    }
  }

  lemma {:induction false} KnownRun(b: BrokerState, steps: seq<BrokerStep>)
    requires Known(b) && IsBrokerRun(b, steps)
    ensures Known(AfterAll(b, steps))
    decreases |steps|
  {
    if steps != [] {
      KnownStep(b, steps[0]);
      KnownRun(Next(b, steps[0]), steps[1..]);
    }
  }

  /** No reservation held by a deleted queue is cancelled. */
  predicate NoLateCancel(steps: seq<BrokerStep>) {
    forall i :: 0 <= i < |steps| && steps[i].AtDetached? ==> !steps[i].step.Cancel?
  }

  lemma {:induction false} OnlyKnownRun(b: BrokerState, steps: seq<BrokerStep>)
    requires Known(b) && OnlyKnown(b) && AllGone(b) && IsBrokerRun(b, steps) && NoLateCancel(steps)
    ensures OnlyKnown(AfterAll(b, steps))
    decreases |steps|
  {
    if steps != [] {
      KnownStep(b, steps[0]);
      OnlyKnownIff(b, steps[0]);
      AllGoneIff(b, steps[0]);
      if steps[0].AtDetached? {
        GoneStepIff(b.detached[steps[0].index], steps[0].step);
      }
      OnlyKnownRun(Next(b, steps[0]), steps[1..]);
    }
  }

  /**
    In every run from a start, whatever ids clients choose: the log knows every queue there is, the default one aside;
    and as long as no reservation held by a deleted queue is cancelled, it knows no other, so replay resurrects none.
   */
  lemma QueuesAreKnown(cfg: Config, log: seq<Record>, visiting: seq<string>, steps: seq<BrokerStep>, q: string)
    requires Visits(visiting, Wal.Replay(log).exchanges) && IsBrokerRun(Boot(cfg, log, visiting, map[]), steps)
    ensures
      var b := AfterAll(Boot(cfg, log, visiting, map[]), steps);
      && (q in b.queues && q != DEFAULT_QUEUE ==> q in Wal.Replay(b.log).pending)
      && (NoLateCancel(steps) && q in Wal.Replay(b.log).pending ==> q in b.queues)
  {
    var b0 := Boot(cfg, log, visiting, map[]);
    BootIsKnown(cfg, log, visiting, map[]);
    KnownRun(b0, steps);
    if NoLateCancel(steps) {
      OnlyKnownRun(b0, steps);
    }
    var b := AfterAll(b0, steps);
    assert KnownAt(b.queues, b.log, q);
    Wal.ReplayQueueAgrees(q, b.log);
  }

  /** No step of the run parts log and memory. */
  ghost predicate KeepsMirror(b: BrokerState, steps: seq<BrokerStep>)
    requires IsBrokerRun(b, steps)
    decreases |steps|
  {
    steps == [] || (!Diverges(b, steps[0]) && KeepsMirror(Next(b, steps[0]), steps[1..]))
  }

  lemma {:induction false} TopologyRun(b: BrokerState, steps: seq<BrokerStep>)
    requires TopologyOk(b) && IsBrokerRun(b, steps) && KeepsMirror(b, steps)
    ensures TopologyOk(AfterAll(b, steps))
    decreases |steps|
  {
    if steps != [] {
      TopologyStepIff(b, steps[0]);
      TopologyRun(Next(b, steps[0]), steps[1..]);
    }
  }

  /** A log the broker can be started from: the empty one, and by `OkIsRecoverable` any log the broker has written. */
  ghost predicate Startable(log: seq<Record>, visiting: seq<string>) {
    QueuesRecoverable(log) && Visits(visiting, Wal.Replay(log).exchanges) && BootOk(Wal.Replay(log))
  }

  lemma EmptyLogStarts()
    ensures Startable([], [])
  {
  }

  /**
    Recovery in every run, across any number of restarts, even with failed appends: what the log replays to
    for a queue is, message for message and with the same retry counts, what the queue holds queued or in
    flight; and it is in reservation order followed by queue order if no reservation was cancelled since the last start.
   */
  lemma ReplayIsMemory(cfg: Config, log: seq<Record>, visiting: seq<string>, steps: seq<BrokerStep>, q: string)
    requires Startable(log, visiting)
    requires IsBrokerRun(Boot(cfg, log, visiting, map[]), steps) && FairSteps(Boot(cfg, log, visiting, map[]), steps)
    ensures
      var b := AfterAll(Boot(cfg, log, visiting, map[]), steps);
      var recovered := Wal.Lookup(Wal.Replay(b.log).pending, q);
      && (recovered.Some? ==> q in b.queues)
      && (q in b.queues && q != DEFAULT_QUEUE ==> recovered.Some?)
      && (q in b.queues ==>
            && multiset(Wal.OrEmpty(recovered)) == multiset(Live(b.queues[q].store))
            && (!b.queues[q].cancelled ==> Wal.OrEmpty(recovered) == Live(b.queues[q].store)))
  {
    BootQueues(cfg, log, visiting, map[]);
    QueuesOkRun(Boot(cfg, log, visiting, map[]), steps);
    var b := AfterAll(Boot(cfg, log, visiting, map[]), steps);
    assert QueueOk(b, q);
    Wal.ReplayQueueAgrees(q, b.log);
  }

  /**
    Crash safety at every point of a queue step: with any part of the step's record written, a restart
    gives the queue the messages it held just before the step or just after it, and no other queue changes.
   */
  lemma CrashDuringStep(b: BrokerState, q: string, step: Step, n: nat, visiting: seq<string>, x: string)
    requires QueuesOk(b) && CanStep(b, AtQueue(q, step)) && FairStep(b, AtQueue(q, step))
    requires n <= |Emit(b.queues[q], step)| && x in b.queues
    requires Visits(visiting, Wal.Replay(b.log + Emit(b.queues[q], step)[..n]).exchanges)
    ensures
      var c := Boot(b.cfg, b.log + Emit(b.queues[q], step)[..n], visiting, b.issued);
      && QueuesOk(c) && x in c.queues && c.queues[x].store.inflight == []
      && (multiset(c.queues[x].store.queue) == multiset(Live(b.queues[x].store)) ||
          multiset(c.queues[x].store.queue) == multiset(Live(Next(b, AtQueue(q, step)).queues[x].store)))
      && (x != q ==> multiset(c.queues[x].store.queue) == multiset(Live(b.queues[x].store)))
  {
    var records, after := Emit(b.queues[q], step), Next(b, AtQueue(q, step));
    QueuesOkStep(b, AtQueue(q, step));
    if n == 0 {
      assert b.log + records[..n] == b.log;
      RecoversTo(b, visiting, x);
    } else {
      assert n == |records| && records[..n] == records;
      RecoversTo(after, visiting, x);
    }
  }

  /** Restarting a broker in good order gives each queue exactly its live messages. */
  lemma RecoversTo(b: BrokerState, visiting: seq<string>, x: string)
    requires QueuesOk(b) && Visits(visiting, Wal.Replay(b.log).exchanges) && x in b.queues
    ensures
      var c := Boot(b.cfg, b.log, visiting, b.issued);
      && QueuesOk(c) && x in c.queues && c.queues[x].store.inflight == []
      && multiset(c.queues[x].store.queue) == multiset(Live(b.queues[x].store))
      && (!b.queues[x].cancelled ==> c.queues[x].store.queue == Live(b.queues[x].store))
  {
    OkIsRecoverable(b);
    BootQueues(b.cfg, b.log, visiting, b.issued);
    BootQueue(b.cfg, b.log, visiting, b.issued, x);
    assert QueueOk(b, x);
    Wal.ReplayQueueAgrees(x, b.log);
  }

  lemma MentionsSameBag(a: seq<Message>, b: seq<Message>, id: string)
    requires multiset(a) == multiset(b) && Wal.Mentions(a, id)
    ensures Wal.Mentions(b, id)
  {
    var i :| 0 <= i < |a| && a[i].id == id;
    assert a[i] in multiset(b);
    var j :| 0 <= j < |b| && b[j] == a[i];
  }

  /**
    No accepted publish is lost and no acked message comes back: in a broker in good order, memory holds a message
    id if the log brought it and nothing later removed it, and does not if the log removed it and nothing later brought it.
   */
  lemma Durable(b: BrokerState, q: string, k: nat, id: string)
    requires QueuesOk(b) && q in b.queues && k < |b.log|
    ensures Wal.Brings(b.log[k], q, id) && (forall j :: k < j < |b.log| ==> !Wal.Removes(b.log[j], q, id)) ==>
              Wal.Mentions(Live(b.queues[q].store), id)
    ensures Wal.Removes(b.log[k], q, id) && (forall j :: k < j < |b.log| ==> !Wal.Brings(b.log[j], q, id)) ==>
              !Wal.Mentions(Live(b.queues[q].store), id)
  {
    var live, recovered := Live(b.queues[q].store), Wal.OrEmpty(Wal.ReplayQueue(q, b.log));
    assert QueueOk(b, q);
    if Wal.Brings(b.log[k], q, id) && forall j :: k < j < |b.log| ==> !Wal.Removes(b.log[j], q, id) {
      Wal.PublishedSurvives(q, b.log, k, id);
      MentionsSameBag(recovered, live, id);
    }
    if Wal.Removes(b.log[k], q, id) && (forall j :: k < j < |b.log| ==> !Wal.Brings(b.log[j], q, id)) && Wal.Mentions(live, id) {
      MentionsSameBag(live, recovered, id);
      Wal.RemovedStaysGone(q, b.log, k, id);
    }
  }

  /** Recovered messages carry the retry counts they had, so the redelivery bound starts afresh from good messages. */
  lemma RecoveredNonNegative(b: BrokerState, x: string)
    requires QueuesOk(b) && x in b.queues
    requires Redelivery.AllNonNegative(Live(b.queues[x].store))
    ensures Redelivery.AllNonNegative(Wal.OrEmpty(Wal.Lookup(Wal.Replay(b.log).pending, x)))
  {
    assert QueueOk(b, x);
    Wal.ReplayQueueAgrees(x, b.log);
    var live, recovered := Live(b.queues[x].store), Wal.OrEmpty(Wal.ReplayQueue(x, b.log));
    forall i | 0 <= i < |recovered| ensures recovered[i].retry >= 0 {
      assert recovered[i] in multiset(live);
      var j :| 0 <= j < |live| && live[j] == recovered[i];
    }
  }

  /**
    At every operation boundary the log replays each exchange to its exact type and ordered bindings, every binding is to a
    queue there is, and a restart completes. Message ids, tokens and cancellations have no part in it.
   */
  lemma TopologyIsReplayed(cfg: Config, log: seq<Record>, visiting: seq<string>, steps: seq<BrokerStep>, e: string)
    requires Visits(visiting, Wal.Replay(log).exchanges) && BootOk(Wal.Replay(log))
    requires IsBrokerRun(Boot(cfg, log, visiting, map[]), steps) && KeepsMirror(Boot(cfg, log, visiting, map[]), steps)
    ensures
      var b := AfterAll(Boot(cfg, log, visiting, map[]), steps);
      && (e != DEFAULT_EXCHANGE ==> Wal.Lookup(Wal.Replay(b.log).exchanges, e) == Wal.Lookup(b.exchanges, e))
      && BootOk(Wal.Replay(b.log))
      && (e in b.exchanges ==> BindingsOk(b.exchanges[e].bindings, b.queues.Keys))
  {
    var b0 := Boot(cfg, log, visiting, map[]);
    BootTopology(cfg, log, visiting, map[]);
    TopologyRun(b0, steps);
    BootIsKnown(cfg, log, visiting, map[]);
    KnownRun(b0, steps);
    var b := AfterAll(b0, steps);
    assert ExchangeOk(b, e);
    Wal.ReplayExchangeAgrees(e, b.log);
    RestartPossible(b);
  }

  /** With bindings in good order, an exchange names each queue as often as the queue has matching bindings, and only queues that exist. */
  lemma RoutesReachQueues(b: BrokerState, e: string, key: string, q: string)
    requires TopologyOk(b) && e in b.exchanges
    ensures
      var x := b.exchanges[e];
      && multiset(Exchange.Routes(x.exchangeType, x.bindings, key))[q] == |Exchange.Matching(x.exchangeType, x.bindings, key, q)|
      && (q in Exchange.Routes(x.exchangeType, x.bindings, key) ==> q in b.queues)
  {
    assert ExchangeOk(b, e);
    var x := b.exchanges[e];
    Exchange.RoutesCount(x.exchangeType, x.bindings, key, q);
    if q in Exchange.Routes(x.exchangeType, x.bindings, key) {
      assert multiset(Exchange.Routes(x.exchangeType, x.bindings, key))[q] > 0;
      assert Exchange.Matching(x.exchangeType, x.bindings, key, q) != {};
    }
  }

  // ---------------------------------------------------------------- tokens

  lemma {:induction false} RetiredRun(b: BrokerState, steps: seq<BrokerStep>, t: string)
    requires Retired(b, t) && IsBrokerRun(b, steps) && DrawsFreshSteps(b, steps)
    ensures Retired(AfterAll(b, steps), t)
    decreases |steps|
  {
    if steps != [] {
      RetiredStep(b, steps[0], t);
      RetiredRun(Next(b, steps[0]), steps[1..], t);
    }
  }

  /** A token that was acked successfully is never in flight again, in any queue, after any further run with restarts. */
  lemma AckedAtMostOnce(b: BrokerState, q: string, t: string, steps: seq<BrokerStep>)
    requires TokensOk(b) && Held(b, t, q)
    requires CanStep(b, AtQueue(q, Ack(t, true)))
    requires var c := Next(b, AtQueue(q, Ack(t, true))); IsBrokerRun(c, steps) && DrawsFreshSteps(c, steps)
    ensures forall x :: !Held(AfterAll(Next(b, AtQueue(q, Ack(t, true))), steps), t, x)
  {
    AckRetires(b, q, t);
    RetiredRun(Next(b, AtQueue(q, Ack(t, true))), steps, t);
  }

  /** The owner found for a token stays the only queue that can ack it, however long the broker waits before acking. */
  lemma OwnerStable(b: BrokerState, steps: seq<BrokerStep>, t: string, q: string, x: string)
    requires TokensOk(b) && !b.tokensCleared && t in b.owners && b.owners[t] == q
    requires IsBrokerRun(b, steps) && DrawsFreshSteps(b, steps) && Held(AfterAll(b, steps), t, x)
    ensures x == q
  {
    assert TokenOk(b, t, q);
    IssuedRun(b, steps, t);
    TokensRun(b, steps);
    assert TokenOk(AfterAll(b, steps), t, x);
  }

  lemma {:induction false} IssuedRun(b: BrokerState, steps: seq<BrokerStep>, t: string)
    requires t in b.issued && IsBrokerRun(b, steps) && DrawsFreshSteps(b, steps)
    ensures t in AfterAll(b, steps).issued && AfterAll(b, steps).issued[t] == b.issued[t]
    decreases |steps|
  {
    if steps != [] {
      IssuedGrows(b, steps[0], t);
      IssuedRun(Next(b, steps[0]), steps[1..], t);
    }
  }

  /** In every run from a start in which tokens are drawn fresh, the token table is exact. */
  lemma TokensAreOwned(cfg: Config, log: seq<Record>, visiting: seq<string>, issued: map<string, string>, steps: seq<BrokerStep>)
    requires Visits(visiting, Wal.Replay(log).exchanges) && IsBrokerRun(Boot(cfg, log, visiting, issued), steps)
    requires DrawsFreshSteps(Boot(cfg, log, visiting, issued), steps)
    ensures TokensOk(AfterAll(Boot(cfg, log, visiting, issued), steps))
  {
    BootTokens(cfg, log, visiting, issued);
    TokensRun(Boot(cfg, log, visiting, issued), steps);
  }
}
