/** The broker's table of queues: runtimes by name, sharing one log and one clock and nothing else. */
module QueueTables {
  import opened Types
  import opened Delivery
  import opened QueueRuntimes
  import Broker
  import Parts
  import StepForms
  import Wal

  /** The runtime is in order and stands for state `s`. */
  ghost predicate Stands(r: QueueRuntime, s: QueueState)
    reads r, r.ring, r.ring.items, r.manager
  {
    r.Valid() && r.View() == s
  }

  /** No two queues share a part. */
  ghost predicate Apart(runtimes: map<string, QueueRuntime>) {
    forall p, q :: p in runtimes && q in runtimes && p != q ==>
      && runtimes[p] != runtimes[q] && runtimes[p].ring != runtimes[q].ring
      && runtimes[p].ring.items != runtimes[q].ring.items && runtimes[p].manager != runtimes[q].manager
  }

  method CloseOne(runtime: QueueRuntime, ghost s: QueueState) returns (empty: bool)
    requires Stands(runtime, s)
    modifies runtime
    ensures empty <==> s.store.queue == [] && s.store.inflight == []
    ensures Stands(runtime, if empty then CloseAll(s) else s)
  {
    StepForms.CloseStep(s);
    empty := runtime.CloseIfEmpty();
  }

  method ShutOne(runtime: QueueRuntime, ghost s: QueueState)
    requires Stands(runtime, s)
    modifies runtime
    ensures Stands(runtime, CloseAll(s))
  {
    StepForms.ShutdownStep(s);
    runtime.Shutdown();
  }

  method AckOne(runtime: QueueRuntime, ghost s: QueueState, token: string) returns (r: AckResult)
    requires Stands(runtime, s)
    modifies runtime, runtime.wal, runtime.manager
    ensures r == InvalidAckToken <==> !InFlight(s.store, token)
    ensures var a := Step.Ack(token, r != AckFailed);
            && Enabled(s, a) && Stands(runtime, Apply(s, a)) && runtime.wal.records == old(runtime.wal.records) + Emit(s, a)
            && runtime.wal.attempts == old(runtime.wal.attempts) + Tries(s, a)
  {
    r := runtime.Ack(token);
  }

  method PublishOne(runtime: QueueRuntime, ghost s: QueueState, wasAsleep: bool, payload: Message, ttl: int)
    returns (r: PublishResult, message: Message)
    requires Stands(runtime, s) && (wasAsleep ==> s.woken > 0)
    modifies runtime, runtime.wal, runtime.clock, runtime.ring, runtime.ring.items
    ensures old(runtime.clock.now) <= runtime.clock.now == message.timestamp
    ensures IsStamp(message, payload, ttl, message.timestamp, message.id)
    ensures r == BrokerClosed <==> s.closed
    ensures r == Blocked <==> !s.closed && Full(s)
    ensures var a := Step.Publish(wasAsleep, message, r != PublishFailed);
            && Enabled(s, a) && Stands(runtime, Apply(s, a))
            && runtime.wal.records == old(runtime.wal.records) + Emit(s, a)
            && runtime.wal.attempts == old(runtime.wal.attempts) + Tries(s, a)
  {
    var freshId: string := *;
    r := runtime.Publish(wasAsleep, payload, ttl, freshId);
    message := Stamped(payload, ttl, runtime.clock.now, freshId);
    StampedIsStamp(payload, ttl, runtime.clock.now, freshId);
  }

  method MakeOne(name: string, cfg: Config, wal: Wal.FileWal, clock: Parts.Clock, messages: seq<Message>) returns (runtime: QueueRuntime)
    ensures fresh(runtime) && fresh(runtime.ring) && fresh(runtime.ring.items) && fresh(runtime.manager)
    ensures runtime.name == name && runtime.cfg == cfg && runtime.wal == wal && runtime.clock == clock
    ensures Stands(runtime, Broker.NewQueue(name, cfg, messages))
  {
    runtime := new QueueRuntime(name, cfg, wal, clock, Broker.Capacity(cfg, messages), messages);
  }

  /** One queue took step `a`. */
  ghost predicate Took(before: map<string, QueueState>, after: map<string, QueueState>, name: string, a: Step) {
    name in before && Enabled(before[name], a) && after == before[name := Apply(before[name], a)]
  }

  /** And the log was asked for what the step asks, and grew by its record. */
  ghost predicate Wrote(before: map<string, QueueState>, name: string, a: Step, log: seq<Record>, longer: seq<Record>,
                        made: seq<Attempt>, more: seq<Attempt>) {
    && name in before && Enabled(before[name], a)
    && longer == log + Emit(before[name], a) && more == made + Tries(before[name], a)
  }

  lemma ApartWith(runtimes: map<string, QueueRuntime>, name: string, r: QueueRuntime)
    requires Apart(runtimes)
    requires forall q :: q in runtimes ==>
               r != runtimes[q] && r.ring != runtimes[q].ring && r.ring.items != runtimes[q].ring.items && r.manager != runtimes[q].manager
    ensures Apart(runtimes[name := r])
  {
  }

  class QueueTable {
    const cfg: Config
    const wal: Wal.FileWal
    const clock: Parts.Clock
    var runtimes: map<string, QueueRuntime>
    /** The states of the delivery machine that the runtimes stand for. */
    ghost var queues: map<string, QueueState>

    ghost var repr: set<object>

    /** Queue `q` has its own name, the table's configuration, log and clock, and parts the table knows. */
    ghost predicate Belongs(q: string)
      reads this
    {
      q in runtimes ==>
        var r := runtimes[q];
        r.name == q && r.cfg == cfg && r.wal == wal && r.clock == clock && r in repr && r.ring in repr && r.ring.items in repr && r.manager in repr
    }

    ghost predicate Valid()
      reads this, repr
    {
      && Apart(runtimes) && queues.Keys == runtimes.Keys && this !in repr && wal !in repr && clock !in repr
      && (forall q :: q in runtimes ==> Belongs(q) && Stands(runtimes[q], queues[q]))
    }

    constructor (cfg: Config, wal: Wal.FileWal, clock: Parts.Clock)
      ensures Valid() && queues == map[] && repr == {}
      ensures this.cfg == cfg && this.wal == wal && this.clock == clock
    {
      this.cfg, this.wal, this.clock, runtimes, queues, repr := cfg, wal, clock, map[], map[], {};
    }

    /** A change to the parts of one queue leaves the others as they were. */
    twostate lemma OthersStand(name: string)
      requires old(Valid()) && name in runtimes && unchanged(this)
      requires unchanged(repr - {runtimes[name], runtimes[name].ring, runtimes[name].ring.items, runtimes[name].manager})
      ensures ValidBut(name)
    {
      hide Stands;
      forall q | q in runtimes && q != name ensures Stands(runtimes[q], queues[q]) {
        assert old(Belongs(q)) && old(Stands(runtimes[q], queues[q]));
      }
      assert forall q :: q in runtimes ==> old(Belongs(q));
    }

    /** The table is in order but for the recorded state of queue `name`. */
    ghost predicate ValidBut(name: string)
      reads this, repr
    {
      && Apart(runtimes) && queues.Keys == runtimes.Keys && this !in repr && wal !in repr && clock !in repr
      && (forall q :: q in runtimes ==> Belongs(q))
      && (forall q :: q in runtimes && q != name ==> Stands(runtimes[q], queues[q]))
    }

    /** Records the state queue `name` has come to. */
    ghost method Note(name: string, s: QueueState)
      requires name in runtimes && ValidBut(name) && Stands(runtimes[name], s)
      modifies this`queues
      ensures Valid() && queues == old(queues)[name := s]
    {
      hide Stands;
      queues := queues[name := s];
      forall q | q in runtimes ensures Belongs(q) && Stands(runtimes[q], queues[q]) {
        assert old(Belongs(q));
      }
    }

    function Has(name: string): (r: bool)
      requires Valid()
      reads this, repr
      ensures r == (name in queues)
    {
      name in runtimes
    }

    function Names(): (r: set<string>)
      requires Valid()
      reads this, repr
      ensures r == queues.Keys
    {
      runtimes.Keys
    }

    /** A new queue with the given messages, and room for them. */
    method Add(name: string, messages: seq<Message>)
      requires Valid() && !Has(name)
      modifies this
      ensures Valid() && queues == old(queues)[name := Broker.NewQueue(name, cfg, messages)] && fresh(repr - old(repr))
    {
      hide Stands, Broker.NewQueue;
      var runtime := MakeOne(name, cfg, wal, clock, messages);
      Enter(runtime, Broker.NewQueue(name, cfg, messages));
    }

    method Enter(runtime: QueueRuntime, ghost s: QueueState)
      requires Valid() && !Has(runtime.name) && Stands(runtime, s)
      requires runtime.cfg == cfg && runtime.wal == wal && runtime.clock == clock
      requires runtime !in repr && runtime.ring !in repr && runtime.ring.items !in repr && runtime.manager !in repr
      modifies this
      ensures Valid() && queues == old(queues)[runtime.name := s]
      ensures repr == old(repr) + {runtime, runtime.ring, runtime.ring.items, runtime.manager}
    {
      hide Stands, Apart;
      StaysApart(runtime);
      assert forall q :: q in runtimes ==> Belongs(q);
      runtimes, queues := runtimes[runtime.name := runtime], queues[runtime.name := s];
      repr := repr + {runtime, runtime.ring, runtime.ring.items, runtime.manager};
    }

    lemma StaysApart(runtime: QueueRuntime)
      requires Valid() && !Has(runtime.name)
      requires runtime !in repr && runtime.ring !in repr && runtime.ring.items !in repr && runtime.manager !in repr
      ensures Apart(runtimes[runtime.name := runtime])
    {
      hide Stands;
      assert forall q :: q in runtimes ==> Belongs(q);
      ApartWith(runtimes, runtime.name, runtime);
    }

    method Remove(name: string)
      requires Valid()
      modifies this
      ensures Valid() && queues == old(queues) - {name} && repr == old(repr)
    {
      hide Stands, Apply, Emit, Tries, Enabled, Broker.NewQueue, IsStamp;
      runtimes, queues := runtimes - {name}, queues - {name};
    }

    /** Closes the queue if it is empty, and leaves it as it is otherwise. */
    method CloseIfEmpty(name: string) returns (empty: bool)
      requires Valid() && Has(name)
      modifies this`queues, repr
      ensures Valid()
      ensures empty <==> old(queues)[name].store.queue == [] && old(queues)[name].store.inflight == []
      ensures queues == old(queues)[name := if empty then CloseAll(old(queues)[name]) else old(queues)[name]]
    {
      hide Stands, Apply, Emit, Tries, Enabled, Broker.NewQueue, IsStamp;
      assert Belongs(name);
      empty := CloseOne(runtimes[name], queues[name]);
      OthersStand(name);
      Note(name, if empty then CloseAll(queues[name]) else queues[name]);
    }

    method Shutdown(name: string)
      requires Valid() && Has(name)
      modifies this`queues, repr
      ensures Valid() && queues == old(queues)[name := CloseAll(old(queues)[name])]
    {
      hide Stands, Apply, Emit, Tries, Enabled, Broker.NewQueue, IsStamp;
      assert Belongs(name);
      ShutOne(runtimes[name], queues[name]);
      OthersStand(name);
      Note(name, CloseAll(queues[name]));
    }

    method Ack(name: string, token: string) returns (r: AckResult)
      requires Valid() && Has(name)
      modifies this`queues, wal, repr
      ensures Valid()
      ensures r == InvalidAckToken <==> !InFlight(old(queues)[name].store, token)
      ensures Took(old(queues), queues, name, Step.Ack(token, r != AckFailed))
      ensures Wrote(old(queues), name, Step.Ack(token, r != AckFailed), old(wal.records), wal.records, old(wal.attempts), wal.attempts)
    {
      hide Stands, Apply, Emit, Tries, Enabled, Broker.NewQueue, IsStamp;
      assert Belongs(name);
      r := AckOne(runtimes[name], queues[name], token);
      OthersStand(name);
      Note(name, Apply(queues[name], Step.Ack(token, r != AckFailed)));
    }

    /** One pass of a publisher at the queue, first or after it had slept there. */
    method Publish(name: string, wasAsleep: bool, payload: Message, ttl: int) returns (r: PublishResult, message: Message)
      requires Valid() && Has(name) && (wasAsleep ==> queues[name].woken > 0)
      modifies this`queues, wal, clock, repr
      ensures Valid() && old(clock.now) <= clock.now == message.timestamp && IsStamp(message, payload, ttl, message.timestamp, message.id)
      ensures r == BrokerClosed <==> old(queues)[name].closed
      ensures r == Blocked <==> !old(queues)[name].closed && Full(old(queues)[name])
      ensures Took(old(queues), queues, name, Step.Publish(wasAsleep, message, r != PublishFailed))
      ensures Wrote(old(queues), name, Step.Publish(wasAsleep, message, r != PublishFailed),
                    old(wal.records), wal.records, old(wal.attempts), wal.attempts)
    {
      hide Stands, Apply, Emit, Tries, Enabled, Broker.NewQueue, IsStamp;
      assert Belongs(name);
      r, message := PublishOne(runtimes[name], queues[name], wasAsleep, payload, ttl);
      OthersStand(name);
      Note(name, Apply(queues[name], Step.Publish(wasAsleep, message, r != PublishFailed)));
    }
  }
}
