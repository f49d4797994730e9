/** In every run of the broker, across restarts, each queue's memory is what replay makes of the shared log. */
module BrokerQueues {
  import opened Types
  import opened Sequences
  import opened Delivery
  import opened Recovery
  import opened Broker
  import Wal

  /** One queue's memory against its replay: `s` is the queue, if it exists, and `r` what replay has for it, if anything. */
  ghost predicate Consistent(q: string, s: Option<QueueState>, r: Option<seq<Message>>) {
    && (s.Some? ==> s.value.name == q && Shape(s.value) && Bounded(s.value) && AgreesWithLog(s.value, Wal.OrEmpty(r)))
    && (r.Some? ==> s.Some?)
    && (s.Some? && r.None? ==> q == DEFAULT_QUEUE)
  }

  ghost predicate QueueAt(queues: map<string, QueueState>, log: seq<Record>, q: string) {
    Consistent(q, Wal.Lookup(queues, q), Wal.ReplayQueue(q, log))
  }

  ghost predicate QueueOk(b: BrokerState, q: string) {
    QueueAt(b.queues, b.log, q)
  }

  /** No deleted queue has come back to life. */
  ghost predicate AllGone(b: BrokerState) {
    forall i :: 0 <= i < |b.detached| ==> Gone(b.detached[i])
  }

  /** Memory and log agree on every queue, and on which queues there are; only the default queue may exist without a record. */
  ghost predicate QueuesOk(b: BrokerState) {
    DEFAULT_QUEUE in b.queues && AllGone(b) && forall q :: QueueOk(b, q)
  }

  /** Records that no queue's replay depends on. */
  ghost predicate OnlyTopology(records: seq<Record>) {
    forall i, q :: 0 <= i < |records| ==> !Wal.ConcernsQueue(q, records[i])
  }

  lemma TopologyKeepsQueue(b: BrokerState, c: BrokerState, records: seq<Record>, q: string)
    requires QueueOk(b, q) && OnlyTopology(records)
    requires c.queues == b.queues && c.log == b.log + records
    ensures QueueOk(c, q)
  {
    Wal.ReplayQueueAppend(q, b.log, records);
  }

  lemma {:induction false} UnbindRecordsTopology(exchanges: map<string, ExchangeState>, visiting: seq<string>, queue: string)
    requires forall e :: e in visiting ==> e in exchanges
    ensures OnlyTopology(UnbindRecords(exchanges, visiting, queue))
  {
    if visiting != [] {
      UnbindRecordsTopology(exchanges, visiting[1..], queue);
    }
  }

  lemma {:induction false} RelogTopology(exchanges: map<string, ExchangeState>, visiting: seq<string>)
    requires forall e :: e in visiting ==> e in exchanges
    ensures OnlyTopology(Relog(exchanges, visiting))
  {
    if visiting != [] {
      RelogTopology(exchanges, visiting[1..]);
    }
  }

  // ---------------------------------------------------------------- steps of one queue

  lemma EmitConcerns(s: QueueState, step: Step, q: string)
    requires Enabled(s, step) && Emit(s, step) != []
    ensures Wal.ConcernsQueue(q, Emit(s, step)[0]) <==> q == s.name
  {
  }

  /** A message record has the same effect whether or not the log already knew the queue. */
  lemma EffectOfMessageRecord(s: QueueState, step: Step, cur: Option<seq<Message>>)
    requires Enabled(s, step) && Emit(s, step) != []
    ensures Wal.QueueEffect(cur, Emit(s, step)[0]) == Some(Written(Wal.OrEmpty(cur), Emit(s, step)))
  {
  }

  lemma ConsistentStep(q: string, s: QueueState, r: Option<seq<Message>>, step: Step)
    requires Consistent(q, Some(s), r) && Enabled(s, step) && Fair(s, step)
    ensures Consistent(q, Some(Apply(s, step)), if Emit(s, step) == [] then r else Wal.QueueEffect(r, Emit(s, step)[0]))
  {
    ShapeStep(s, step);
    BoundedStep(s, step);
    AgreementStep(s, step, Wal.OrEmpty(r));
    if Emit(s, step) != [] {
      EffectOfMessageRecord(s, step, r);
    }
  }

  lemma ReplayAfterEmit(s: QueueState, step: Step, log: seq<Record>, x: string)
    requires Enabled(s, step)
    ensures Wal.ReplayQueue(x, log + Emit(s, step)) ==
            if x == s.name && Emit(s, step) != [] then Wal.QueueEffect(Wal.ReplayQueue(x, log), Emit(s, step)[0])
            else Wal.ReplayQueue(x, log)
  {
    var records := Emit(s, step);
    if records == [] {
      assert log + records == log;
    } else {
      assert records == [records[0]];
      Wal.ReplayQueueSnoc(x, log, records[0]);
      EmitConcerns(s, step, x);
    }
  }

  lemma AtQueueOk(b: BrokerState, q: string, step: Step, x: string)
    requires QueueOk(b, x) && QueueOk(b, q) && CanStep(b, AtQueue(q, step)) && FairStep(b, AtQueue(q, step))
    ensures QueueOk(Next(b, AtQueue(q, step)), x)
  {
    StepAt(b.queues, b.log, q, step, x);
  }

  lemma StepAt(queues: map<string, QueueState>, log: seq<Record>, q: string, step: Step, x: string)
    requires QueueAt(queues, log, x) && QueueAt(queues, log, q)
    requires q in queues && Enabled(queues[q], step) && Fair(queues[q], step)
    ensures QueueAt(queues[q := Apply(queues[q], step)], log + Emit(queues[q], step), x)
  {
    ReplayAfterEmit(queues[q], step, log, x);
    if x == q {
      ConsistentStep(q, queues[q], Wal.ReplayQueue(q, log), step);
    }
  }

  // ---------------------------------------------------------------- steps of the broker

  lemma NewQueueOk(name: string, cfg: Config, messages: seq<Message>)
    requires Wal.DistinctIds(messages)
    ensures var s := NewQueue(name, cfg, messages); s.name == name && Shape(s) && Bounded(s) && AgreesWithLog(s, messages)
  {
    StartShape(name, cfg, Capacity(cfg, messages), messages);
    assert Live(NewQueue(name, cfg, messages).store) == messages;
  }

  lemma CreateQueueOk(b: BrokerState, name: string, appended: bool, x: string)
    requires QueueOk(b, x)
    ensures QueueOk(Next(b, CreateQueue(name, appended)), x)
  {
    if QueueCreatable(b, name) && appended {
      Wal.ReplayQueueSnoc(x, b.log, QueueCreated(name));
      NewQueueOk(name, b.cfg, []);
    }
  }

  lemma CloseAllOk(s: QueueState, r: seq<Message>)
    requires Shape(s) && AgreesWithLog(s, r)
    ensures Shape(CloseAll(s)) && AgreesWithLog(CloseAll(s), r)
  {
  }

  lemma DeleteQueueOk(b: BrokerState, name: string, appended: bool, visiting: seq<string>, x: string)
    requires QueueOk(b, x) && Visits(visiting, b.exchanges)
    ensures QueueOk(Next(b, DeleteQueue(name, appended, visiting)), x)
  {
    if QueueDeletable(b, name) {
      DeletedAt(b.queues, b.exchanges, visiting, name, b.log, x);
      ClosedAt(b.queues, name, b.log, x);
    }
  }

  /** A deletion stopped part way has removed the queue and logged it, whatever is left bound. */
  lemma InterruptDeleteOk(b: BrokerState, name: string, visited: seq<string>, failed: string, x: string)
    requires QueueOk(b, x) && CanStop(b.exchanges, visited, failed, name)
    ensures QueueOk(Next(b, InterruptDelete(name, visited, failed)), x)
  {
    if QueueDeletable(b, name) {
      DeletedAt(b.queues, b.exchanges, visited, name, b.log, x);
    }
  }

  lemma ClosedAt(queues: map<string, QueueState>, name: string, log: seq<Record>, x: string)
    requires QueueAt(queues, log, x) && name in queues
    ensures QueueAt(queues[name := CloseAll(queues[name])], log, x)
  {
    if x == name {
      CloseAllOk(queues[x], Wal.OrEmpty(Wal.ReplayQueue(x, log)));
    }
  }

  lemma DeletedAt(queues: map<string, QueueState>, exchanges: map<string, ExchangeState>, visiting: seq<string>,
                  name: string, log: seq<Record>, x: string)
    requires QueueAt(queues, log, x) && forall e :: e in visiting ==> e in exchanges
    ensures QueueAt(queues - {name}, log + ([QueueDeleted(name)] + UnbindRecords(exchanges, visiting, name)), x)
  {
    ReplayAfterDelete(exchanges, visiting, name, log, x);
  }

  lemma ReplayAfterDelete(exchanges: map<string, ExchangeState>, visiting: seq<string>, name: string, log: seq<Record>, x: string)
    requires forall e :: e in visiting ==> e in exchanges
    ensures Wal.ReplayQueue(x, log + ([QueueDeleted(name)] + UnbindRecords(exchanges, visiting, name))) ==
            if x == name then None else Wal.ReplayQueue(x, log)
  {
    var records := UnbindRecords(exchanges, visiting, name);
    UnbindRecordsTopology(exchanges, visiting, name);
    ConcatAssociative(log, [QueueDeleted(name)], records);
    Wal.ReplayQueueSnoc(x, log, QueueDeleted(name));
    Wal.ReplayQueueAppend(x, log + [QueueDeleted(name)], records);
  }

  /** What a restart needs of the log to rebuild the queues. */
  ghost predicate QueuesRecoverable(log: seq<Record>) {
    forall q :: Wal.DistinctIds(Wal.OrEmpty(Wal.ReplayQueue(q, log)))
  }

  lemma BootQueue(cfg: Config, log: seq<Record>, visiting: seq<string>, issued: map<string, string>, x: string)
    requires Visits(visiting, Wal.Replay(log).exchanges)
    requires Wal.DistinctIds(Wal.OrEmpty(Wal.ReplayQueue(x, log)))
    ensures QueueOk(Boot(cfg, log, visiting, issued), x)
    ensures Wal.ReplayQueue(x, Boot(cfg, log, visiting, issued).log) == Wal.ReplayQueue(x, log)
    ensures x in Boot(cfg, log, visiting, issued).queues ==>
              Boot(cfg, log, visiting, issued).queues[x] == NewQueue(x, cfg, Wal.OrEmpty(Wal.ReplayQueue(x, log)))
  {
    ReplayAfterRelog(log, visiting, x);
    Wal.ReplayQueueAgrees(x, log);
    NewQueueOk(x, cfg, Wal.OrEmpty(Wal.ReplayQueue(x, log)));
  }

  lemma ReplayAfterRelog(log: seq<Record>, visiting: seq<string>, x: string)
    requires Visits(visiting, Wal.Replay(log).exchanges)
    ensures Wal.ReplayQueue(x, log + Relog(Wal.Replay(log).exchanges, visiting) + [DEFAULT_BOUND]) == Wal.ReplayQueue(x, log)
  {
    var records := Relog(Wal.Replay(log).exchanges, visiting);
    RelogTopology(Wal.Replay(log).exchanges, visiting);
    Wal.ReplayQueueAppend(x, log, records);
    Wal.ReplayQueueSnoc(x, log + records, DEFAULT_BOUND);
  }

  lemma BootQueues(cfg: Config, log: seq<Record>, visiting: seq<string>, issued: map<string, string>)
    requires Visits(visiting, Wal.Replay(log).exchanges) && QueuesRecoverable(log)
    ensures QueuesOk(Boot(cfg, log, visiting, issued))
  {
    forall q ensures QueueOk(Boot(cfg, log, visiting, issued), q) {
      BootQueue(cfg, log, visiting, issued, q);
    }
  }

  lemma OkIsRecoverable(b: BrokerState)
    requires QueuesOk(b)
    ensures QueuesRecoverable(b.log)
  {
    forall q ensures Wal.DistinctIds(Wal.OrEmpty(Wal.ReplayQueue(q, b.log))) {
      assert QueueOk(b, q);
      if q in b.queues {
        Wal.DistinctIdsSameBag(Live(b.queues[q].store), Wal.OrEmpty(Wal.ReplayQueue(q, b.log)));
      }
    }
  }

  predicate TouchesNoQueue(a: BrokerStep) {
    a.CreateExchange? || a.DeleteExchange? || a.Bind? || a.Unbind? || a.BeginShutdown? || a.ClearTokens?
  }

  lemma OtherRecords(b: BrokerState, a: BrokerStep)
    requires CanStep(b, a) && TouchesNoQueue(a)
    ensures OnlyTopology(Appended(b, a))
  {
  }

  lemma OtherQueues(b: BrokerState, a: BrokerStep)
    requires CanStep(b, a) && TouchesNoQueue(a)
    ensures Next(b, a).queues == b.queues
  {
  }

  lemma OtherStepOk(b: BrokerState, a: BrokerStep, x: string)
    requires QueueOk(b, x) && CanStep(b, a) && TouchesNoQueue(a)
    ensures QueueOk(Next(b, a), x)
  {
    OtherRecords(b, a);
    OtherQueues(b, a);
    TopologyKeepsQueue(b, Next(b, a), Appended(b, a), x);
  }

  // ---------------------------------------------------------------- deleted queues

  /** A deleted queue comes back to life exactly when a reservation it held is cancelled. */
  lemma AllGoneIff(b: BrokerState, a: BrokerStep)
    requires AllGone(b) && CanStep(b, a)
    ensures AllGone(Next(b, a)) <==> !(a.AtDetached? && a.step.Cancel?)
  {
    if a.AtDetached? {
      GoneStepIff(b.detached[a.index], a.step);
      DetachedStep(b, a.index, a.step);
      assert Next(b, a).detached[a.index] == Apply(b.detached[a.index], a.step);
    } else {
      NewlyDetached(b, a);
    }
  }

  lemma DetachedStep(b: BrokerState, i: nat, step: Step)
    requires CanStep(b, AtDetached(i, step))
    ensures Next(b, AtDetached(i, step)).detached == b.detached[i := Apply(b.detached[i], step)]
    ensures Next(b, AtDetached(i, step)).queues == b.queues
  {
  }

  lemma NewlyDetached(b: BrokerState, a: BrokerStep)
    requires CanStep(b, a) && !a.AtDetached?
    ensures var d := Next(b, a).detached;
            d == b.detached || d == [] || (exists s :: d == b.detached + [s] && Gone(s))
  {
    if a.DeleteQueue? || a.InterruptDelete? {
      if QueueDeletable(b, a.name) {
        assert Gone(CloseAll(b.queues[a.name]));
      }
    }
  }

  /** Under (B) nothing is cancelled onto a deleted queue. */
  lemma DetachedFair(b: BrokerState, i: nat, step: Step)
    requires AllGone(b) && CanStep(b, AtDetached(i, step)) && SafeCancel(b.detached[i], step)
    ensures !step.Cancel? && Appended(b, AtDetached(i, step)) == []
  {
    GoneStepIff(b.detached[i], step);
  }

  lemma AtDetachedOk(b: BrokerState, i: nat, step: Step, x: string)
    requires QueueOk(b, x) && AllGone(b) && CanStep(b, AtDetached(i, step)) && SafeCancel(b.detached[i], step)
    ensures QueueOk(Next(b, AtDetached(i, step)), x)
  {
    DetachedFair(b, i, step);
    DetachedStep(b, i, step);
    assert b.log + [] == b.log;
  }

  lemma QueuesOkStep(b: BrokerState, a: BrokerStep)
    requires QueuesOk(b) && CanStep(b, a) && FairStep(b, a)
    ensures QueuesOk(Next(b, a))
  {
    AllGoneIff(b, a);
    if a.AtDetached? {
      DetachedFair(b, a.index, a.step);
    }
    if a.Restart? {
      OkIsRecoverable(b);
      BootQueues(b.cfg, b.log, a.visiting, b.issued);
    } else {
      forall x ensures QueueOk(Next(b, a), x) {
        assert QueueOk(b, x);
        match a
        case AtQueue(q, step) => assert QueueOk(b, q); AtQueueOk(b, q, step, x);
        case CreateQueue(name, appended) => CreateQueueOk(b, name, appended, x);
        case DeleteQueue(name, appended, visiting) => DeleteQueueOk(b, name, appended, visiting, x);
        case AtDetached(i, step) => AtDetachedOk(b, i, step, x);
        case InterruptDelete(name, visited, failed) => InterruptDeleteOk(b, name, visited, failed, x);
        case _ => OtherStepOk(b, a, x);
      }
    }
  }
}
