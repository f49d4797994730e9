/** Which queues there are, in memory and in the log. No result here depends on ids, tokens or cancellations. */
module BrokerKnown {
  import opened Types
  import opened Delivery
  import opened Broker
  import opened BrokerQueues
  import Wal

  /** The log knows every queue but perhaps the default one, and queues log by their own names. */
  ghost predicate KnownAt(queues: map<string, QueueState>, log: seq<Record>, q: string) {
    q in queues ==> queues[q].name == q && (q == DEFAULT_QUEUE || Wal.ReplayQueue(q, log).Some?)
  }

  ghost predicate Known(b: BrokerState) {
    DEFAULT_QUEUE in b.queues && forall q :: KnownAt(b.queues, b.log, q)
  }

  /** And it knows no others. */
  ghost predicate OnlyKnown(b: BrokerState) {
    forall q :: Wal.ReplayQueue(q, b.log).Some? ==> q in b.queues
  }

  lemma OkIsKnown(b: BrokerState)
    requires QueuesOk(b)
    ensures Known(b) && OnlyKnown(b)
  {
    forall q ensures KnownAt(b.queues, b.log, q) && (Wal.ReplayQueue(q, b.log).Some? ==> q in b.queues) {
      assert QueueOk(b, q);
    }
  }

  /** A message record never makes replay forget a queue, and makes it know only the queue it names. */
  lemma KnownAfterEmit(s: QueueState, step: Step, log: seq<Record>, q: string)
    requires Enabled(s, step)
    ensures Wal.ReplayQueue(q, log + Emit(s, step)).Some? <==>
            Wal.ReplayQueue(q, log).Some? || (Emit(s, step) != [] && q == s.name)
  {
    ReplayAfterEmit(s, step, log, q);
    if Emit(s, step) != [] {
      EffectOfMessageRecord(s, step, Wal.ReplayQueue(q, log));
    }
  }

  lemma KnownAfterTopology(log: seq<Record>, records: seq<Record>, q: string)
    requires OnlyTopology(records)
    ensures Wal.ReplayQueue(q, log + records) == Wal.ReplayQueue(q, log)
  {
    Wal.ReplayQueueAppend(q, log, records);
  }

  /** Which queues replay knows after a step. */
  lemma KnownAfter(b: BrokerState, a: BrokerStep, q: string)
    requires CanStep(b, a)
    ensures Wal.ReplayQueue(q, Next(b, a).log).Some? <==>
            match a
            case AtQueue(x, step) => Wal.ReplayQueue(q, b.log).Some? || (Appended(b, a) != [] && q == b.queues[x].name)
            case AtDetached(i, step) => Wal.ReplayQueue(q, b.log).Some? || (Appended(b, a) != [] && q == b.detached[i].name)
            case CreateQueue(name, appended) => Wal.ReplayQueue(q, b.log).Some? || (QueueCreatable(b, name) && appended && q == name)
            case DeleteQueue(name, appended, _) => Wal.ReplayQueue(q, b.log).Some? && !(QueueDeletable(b, name) && appended && q == name)
            case InterruptDelete(name, _, _) => Wal.ReplayQueue(q, b.log).Some? && !(QueueDeletable(b, name) && q == name)
            case _ => Wal.ReplayQueue(q, b.log).Some?
  {
    assert b.log + [] == b.log;
    match a
    case AtQueue(x, step) => KnownAfterEmit(b.queues[x], step, b.log, q);
    case AtDetached(i, step) => KnownAfterEmit(b.detached[i], step, b.log, q);
    case CreateQueue(name, appended) => Wal.ReplayQueueSnoc(q, b.log, QueueCreated(name));
    case DeleteQueue(name, _, visiting) => ReplayAfterDelete(b.exchanges, visiting, name, b.log, q);
    case InterruptDelete(name, visited, _) => ReplayAfterDelete(b.exchanges, visited, name, b.log, q);
    case Restart(visiting) => ReplayAfterRelog(b.log, visiting, q);
    case _ => OtherRecords(b, a); KnownAfterTopology(b.log, Appended(b, a), q);
  }

  /** Which queues there are after a step. */
  lemma QueuesAfter(b: BrokerState, a: BrokerStep, q: string)
    requires CanStep(b, a) && !a.Restart?
    ensures q in Next(b, a).queues <==>
            match a
            case CreateQueue(name, appended) => q in b.queues || (QueueCreatable(b, name) && appended && q == name)
            case DeleteQueue(name, appended, _) => q in b.queues && !(QueueDeletable(b, name) && appended && q == name)
            case InterruptDelete(name, _, _) => q in b.queues && !(QueueDeletable(b, name) && q == name)
            case _ => q in b.queues
  {
  }

  lemma NamesAfter(b: BrokerState, a: BrokerStep, q: string)
    requires CanStep(b, a) && !a.Restart? && q in Next(b, a).queues
    requires q in b.queues ==> b.queues[q].name == q
    ensures Next(b, a).queues[q].name == q
  {
  }

  lemma BootKnown(cfg: Config, log: seq<Record>, visiting: seq<string>, issued: map<string, string>, q: string)
    requires Visits(visiting, Wal.Replay(log).exchanges)
    ensures KnownAt(Boot(cfg, log, visiting, issued).queues, Boot(cfg, log, visiting, issued).log, q)
    ensures Wal.ReplayQueue(q, Boot(cfg, log, visiting, issued).log).Some? ==> q in Boot(cfg, log, visiting, issued).queues
  {
    ReplayAfterRelog(log, visiting, q);
    Wal.ReplayQueueAgrees(q, log);
  }

  lemma BootIsKnown(cfg: Config, log: seq<Record>, visiting: seq<string>, issued: map<string, string>)
    requires Visits(visiting, Wal.Replay(log).exchanges)
    ensures Known(Boot(cfg, log, visiting, issued)) && OnlyKnown(Boot(cfg, log, visiting, issued))
  {
    forall q ensures KnownAt(Boot(cfg, log, visiting, issued).queues, Boot(cfg, log, visiting, issued).log, q)
             ensures Wal.ReplayQueue(q, Boot(cfg, log, visiting, issued).log).Some? ==> q in Boot(cfg, log, visiting, issued).queues {
      BootKnown(cfg, log, visiting, issued, q);
    }
  }

  /** Every step of the broker keeps every queue known to the log, whatever ids clients choose and whatever is cancelled. */
  lemma KnownStep(b: BrokerState, a: BrokerStep)
    requires Known(b) && CanStep(b, a)
    ensures Known(Next(b, a))
  {
    if a.Restart? {
      BootIsKnown(b.cfg, b.log, a.visiting, b.issued);
    } else {
      QueuesAfter(b, a, DEFAULT_QUEUE);
      forall q ensures KnownAt(Next(b, a).queues, Next(b, a).log, q) {
        assert KnownAt(b.queues, b.log, q);
        KnownAfter(b, a, q);
        QueuesAfter(b, a, q);
        if q in Next(b, a).queues {
          NamesAfter(b, a, q);
        }
      }
    }
  }

  /** A record of a deleted queue, while no queue of its name exists. */
  ghost predicate Resurrects(b: BrokerState, a: BrokerStep)
    requires CanStep(b, a)
  {
    a.AtDetached? && Appended(b, a) != [] && b.detached[a.index].name !in b.queues
  }

  /** Every step keeps the log from knowing a queue that does not exist, exactly when it is not such a record. */
  lemma OnlyKnownIff(b: BrokerState, a: BrokerStep)
    requires Known(b) && OnlyKnown(b) && CanStep(b, a)
    ensures OnlyKnown(Next(b, a)) <==> !Resurrects(b, a)
  {
    if a.Restart? {
      BootIsKnown(b.cfg, b.log, a.visiting, b.issued);
    } else if Resurrects(b, a) {
      var q := b.detached[a.index].name;
      KnownAfter(b, a, q);
      QueuesAfter(b, a, q);
    } else {
      forall q | Wal.ReplayQueue(q, Next(b, a).log).Some? ensures q in Next(b, a).queues {
        KnownAfter(b, a, q);
        QueuesAfter(b, a, q);
        assert a.AtQueue? ==> KnownAt(b.queues, b.log, a.queue);
      }
    }
  }
}
