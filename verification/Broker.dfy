/**
  The whole broker as a state machine over one shared log: queues, exchanges, token ownership and restart.

  Queue steps are those of module `Delivery`. A restart replays the log, as does the first start.
 */
module Broker {
  import opened Types
  import opened Sequences
  import opened Delivery
  import Exchange
  import Topic
  import Wal

  datatype BrokerState = BrokerState(
    cfg: Config,
    queues: map<string, QueueState>,
    exchanges: map<string, ExchangeState>,
    owners: map<string, string>,   // ack token to the name of the queue that owns it
    closed: bool,
    tokensCleared: bool,           // shutdown has emptied `owners`
    log: seq<Record>,
    issued: map<string, string>,   // history: which queue issued each token, ever
    detached: seq<QueueState>)     // deleted queues, to which a publisher or a distributor may still refer

  datatype BrokerStep =
    | AtQueue(queue: string, step: Step)
    | AtDetached(index: nat, step: Step)
    | CreateQueue(name: string, appended: bool)
    | DeleteQueue(name: string, appended: bool, visiting: seq<string>)
    | InterruptDelete(name: string, visited: seq<string>, failed: string)   // stopped by a failed unbind record
    | CreateExchange(name: string, exchangeType: string, appended: bool)
    | DeleteExchange(name: string, appended: bool)
    | Bind(exchange: string, queue: string, key: string, appended: bool)
    | Unbind(exchange: string, queue: string, key: string, appended: bool)
    | BeginShutdown
    | ClearTokens
    | Restart(visiting: seq<string>)

  // ---------------------------------------------------------------- validation

  predicate ValidName(name: string) { 0 < |name| <= 255 }

  predicate ValidExchangeName(name: string) { ValidName(name) && name != DEFAULT_EXCHANGE }

  predicate ValidExchangeType(t: string) {
    t == Exchange.DIRECT || t == Exchange.FANOUT || t == Exchange.TOPIC
  }

  predicate HasBinding(bindings: seq<Binding>, key: string, queue: string) {
    exists b :: b in bindings && Wal.Unbinds(b, key, queue)
  }

  /** A map iteration visits every key once, in some order. */
  ghost predicate Visits<V>(visiting: seq<string>, m: map<string, V>) {
    Distinct(visiting) && forall x :: x in visiting <==> x in m
  }

  function Capacity(cfg: Config, messages: seq<Message>): (r: nat)
    ensures r >= cfg.queueSize && r >= |messages| && (r == cfg.queueSize || r == |messages|)
  {
    if cfg.queueSize > |messages| then cfg.queueSize else |messages|
  }

  function NewQueue(name: string, cfg: Config, messages: seq<Message>): QueueState {
    Start(name, cfg, Capacity(cfg, messages), messages)
  }

  // ---------------------------------------------------------------- restart

  const DEFAULT_BINDING := Binding(DEFAULT_QUEUE, DEFAULT_QUEUE)

  /** What `NewBroker` needs of the recovered state to complete: every exchange and binding passes the checks made when it is recreated. */
  ghost predicate BootOk(st: Wal.RecoveredState) {
    forall e :: e in st.exchanges ==> ExchangeBootOk(st, e)
  }

  ghost predicate ExchangeBootOk(st: Wal.RecoveredState, e: string)
    requires e in st.exchanges
  {
    && ValidExchangeName(e) && ValidExchangeType(st.exchanges[e].exchangeType)
    && BindingsOk(st.exchanges[e].bindings, st.pending.Keys + {DEFAULT_QUEUE})
  }

  /** No binding twice, every key valid, every queue known. */
  ghost predicate BindingsOk(bindings: seq<Binding>, queues: set<string>) {
    && Distinct(bindings)
    && forall b :: b in bindings ==> Topic.ValidBindingKey(b.bindingKey) && b.queueName in queues
  }

  function Binds(e: string, bindings: seq<Binding>): (r: seq<Record>)
    ensures |r| == |bindings|
    ensures forall i :: 0 <= i < |r| ==> r[i] == QueueBinded(e, bindings[i].queueName, bindings[i].bindingKey)
  {
    seq(|bindings|, i requires 0 <= i < |bindings| => QueueBinded(e, bindings[i].queueName, bindings[i].bindingKey))
  }

  /** The records a restart writes while it recreates the exchanges in the order it visits them. */
  function Relog(exchanges: map<string, ExchangeState>, visiting: seq<string>): seq<Record>
    requires forall e :: e in visiting ==> e in exchanges
  {
    if visiting == [] then []
    else
      var e := visiting[0];
      [ExchangeCreated(e, exchanges[e].exchangeType)] + Binds(e, exchanges[e].bindings) + Relog(exchanges, visiting[1..])
  }

  function RecoveredQueues(cfg: Config, pending: map<string, seq<Message>>): map<string, QueueState> {
    map q | q in pending.Keys + {DEFAULT_QUEUE} :: NewQueue(q, cfg, Wal.MessagesOf(pending, q))
  }

  const DEFAULT_BOUND := QueueBinded(DEFAULT_EXCHANGE, DEFAULT_QUEUE, DEFAULT_QUEUE)

  ghost function Boot(cfg: Config, log: seq<Record>, visiting: seq<string>, issued: map<string, string>): BrokerState
    requires Visits(visiting, Wal.Replay(log).exchanges)
  {
    var st := Wal.Replay(log);
    BrokerState(cfg, RecoveredQueues(cfg, st.pending),
                st.exchanges[DEFAULT_EXCHANGE := ExchangeState(Exchange.DIRECT, [DEFAULT_BINDING])],
                map[], false, false,
                log + Relog(st.exchanges, visiting) + [DEFAULT_BOUND], issued, [])
  }

  // ---------------------------------------------------------------- steps

  ghost predicate CanStep(b: BrokerState, a: BrokerStep) {
    match a
    case AtQueue(q, step) => q in b.queues && Enabled(b.queues[q], step)
    case AtDetached(i, step) => i < |b.detached| && Enabled(b.detached[i], step)
    case DeleteQueue(_, _, visiting) => Visits(visiting, b.exchanges)
    case InterruptDelete(name, visited, failed) => CanStop(b.exchanges, visited, failed, name)
    case Restart(visiting) => Visits(visiting, Wal.Replay(b.log).exchanges) && BootOk(Wal.Replay(b.log))
    case _ => true
  }

  /** The token table after a message move in queue `q`. */
  function OwnersAfter(owners: map<string, string>, q: string, st: Store, mv: Move): map<string, string>
    requires Possible(st, mv)
  {
    match mv
    case ReserveHead(e) => owners[e.token := q]
    case AckAt(i) => owners - {st.inflight[i].token}
    case BuryAt(i) => owners - {st.inflight[i].token}
    case RequeueAt(i) => owners - {st.inflight[i].token}
    case GiveBack(i, _) => owners - {st.inflight[i].token}
    case PushBack(d) => owners - {d.token}
    case _ => owners
  }

  function UnbindRecord(x: ExchangeState, e: string, queue: string): seq<Record> {
    if HasBinding(x.bindings, "", queue) then [QueueUnbinded(e, queue, "")] else []
  }

  function UnbindRecords(exchanges: map<string, ExchangeState>, visiting: seq<string>, queue: string): seq<Record>
    requires forall e :: e in visiting ==> e in exchanges
  {
    if visiting == [] then []
    else
      UnbindRecord(exchanges[visiting[0]], visiting[0], queue) + UnbindRecords(exchanges, visiting[1..], queue)
  }

  function UnbindAll(exchanges: map<string, ExchangeState>, queue: string): map<string, ExchangeState> {
    map e | e in exchanges :: exchanges[e].(bindings := Wal.Unbound(exchanges[e].bindings, "", queue))
  }

  /** The exchanges part way through a deletion, with those in `kept` not reached. */
  function PartlyUnbound(exchanges: map<string, ExchangeState>, kept: set<string>, queue: string): map<string, ExchangeState> {
    map e | e in exchanges ::
      if e in kept then exchanges[e] else exchanges[e].(bindings := Wal.Unbound(exchanges[e].bindings, "", queue))
  }

  /** A deletion that has visited some exchanges can stop at another that binds the queue, when that one's record is not written. */
  ghost predicate CanStop(exchanges: map<string, ExchangeState>, visited: seq<string>, failed: string, queue: string) {
    && Distinct(visited) && (forall e :: e in visited ==> e in exchanges)
    && failed in exchanges && failed !in visited && HasBinding(exchanges[failed].bindings, "", queue)
  }

  function Unreached(exchanges: map<string, ExchangeState>, visited: seq<string>, failed: string): set<string> {
    set e | e in exchanges && e !in visited && e != failed
  }

  /** The records a step appends. */
  ghost function Appended(b: BrokerState, a: BrokerStep): seq<Record>
    requires CanStep(b, a)
  {
    match a
    case AtQueue(q, step) => Emit(b.queues[q], step)
    case AtDetached(i, step) => Emit(b.detached[i], step)
    case CreateQueue(name, appended) => if QueueCreatable(b, name) && appended then [QueueCreated(name)] else []
    case DeleteQueue(name, appended, visiting) =>
      if QueueDeletable(b, name) && appended then [QueueDeleted(name)] + UnbindRecords(b.exchanges, visiting, name) else []
    case InterruptDelete(name, visited, _) =>
      if QueueDeletable(b, name) then [QueueDeleted(name)] + UnbindRecords(b.exchanges, visited, name) else []
    case CreateExchange(name, t, appended) =>
      if ExchangeCreatable(b, name, t) && appended then [ExchangeCreated(name, t)] else []
    case DeleteExchange(name, appended) => if ExchangeDeletable(b, name) && appended then [ExchangeDeleted(name)] else []
    case Bind(e, q, k, appended) => if Bindable(b, e, q, k) && appended then [QueueBinded(e, q, k)] else []
    case Unbind(e, q, k, appended) => if Unbindable(b, e, q, k) && appended then [QueueUnbinded(e, q, k)] else []
    case Restart(visiting) => Relog(Wal.Replay(b.log).exchanges, visiting) + [DEFAULT_BOUND]
    case _ => []
  }

  predicate QueueCreatable(b: BrokerState, name: string) {
    ValidName(name) && !b.closed && name !in b.queues
  }

  predicate QueueDeletable(b: BrokerState, name: string) {
    && name != DEFAULT_QUEUE && name in b.queues
    && b.queues[name].store.queue == [] && b.queues[name].store.inflight == []
  }

  predicate ExchangeCreatable(b: BrokerState, name: string, t: string) {
    ValidExchangeName(name) && ValidExchangeType(t) && name !in b.exchanges
  }

  predicate ExchangeDeletable(b: BrokerState, name: string) {
    ValidExchangeName(name) && name in b.exchanges && b.exchanges[name].bindings == []
  }

  predicate Bindable(b: BrokerState, e: string, q: string, k: string) {
    Topic.ValidBindingKey(k) && e in b.exchanges && q in b.queues && Binding(q, k) !in b.exchanges[e].bindings
  }

  predicate Unbindable(b: BrokerState, e: string, q: string, k: string) {
    e in b.exchanges && q in b.queues && HasBinding(b.exchanges[e].bindings, k, q)
  }

  ghost function Next(b: BrokerState, a: BrokerStep): (r: BrokerState)
    requires CanStep(b, a)
    ensures r.log == b.log + Appended(b, a)
  {
    match a
    case AtQueue(q, step) =>
      var mv := MoveOf(b.queues[q], step);
      b.(queues := b.queues[q := Apply(b.queues[q], step)],
         owners := OwnersAfter(b.owners, q, b.queues[q].store, mv),
         issued := if mv.ReserveHead? then b.issued[mv.entry.token := q] else b.issued,
         log := b.log + Appended(b, a))
    case AtDetached(i, step) =>
      var s, mv := b.detached[i], MoveOf(b.detached[i], step);
      b.(detached := b.detached[i := Apply(s, step)],
         owners := OwnersAfter(b.owners, s.name, s.store, mv),
         issued := if mv.ReserveHead? then b.issued[mv.entry.token := s.name] else b.issued,
         log := b.log + Appended(b, a))
    case CreateQueue(name, appended) =>
      if !QueueCreatable(b, name) || !appended then b
      else b.(queues := b.queues[name := NewQueue(name, b.cfg, [])], log := b.log + Appended(b, a))
    case DeleteQueue(name, appended, visiting) =>
      if !QueueDeletable(b, name) then b
      else if !appended then b.(queues := b.queues[name := CloseAll(b.queues[name])])   // closed, but still there
      else b.(queues := b.queues - {name}, detached := b.detached + [CloseAll(b.queues[name])],
              exchanges := UnbindAll(b.exchanges, name),
              owners := map t | t in b.owners && b.owners[t] != name :: b.owners[t], log := b.log + Appended(b, a))
    case InterruptDelete(name, visited, failed) =>   // unbound in memory: the visited exchanges and the one that failed
      if !QueueDeletable(b, name) then b
      else b.(queues := b.queues - {name}, detached := b.detached + [CloseAll(b.queues[name])],
              exchanges := PartlyUnbound(b.exchanges, Unreached(b.exchanges, visited, failed), name), log := b.log + Appended(b, a))
    case CreateExchange(name, t, appended) =>
      if !ExchangeCreatable(b, name, t) || !appended then b
      else b.(exchanges := b.exchanges[name := ExchangeState(t, [])], log := b.log + Appended(b, a))
    case DeleteExchange(name, appended) =>
      if !ExchangeDeletable(b, name) || !appended then b
      else b.(exchanges := b.exchanges - {name}, log := b.log + Appended(b, a))
    case Bind(e, q, k, appended) =>
      if !Bindable(b, e, q, k) then b
      else
        var x := b.exchanges[e];
        b.(exchanges := b.exchanges[e := x.(bindings := x.bindings + [Binding(q, k)])], log := b.log + Appended(b, a))
    case Unbind(e, q, k, appended) =>
      if !Unbindable(b, e, q, k) then b
      else
        var x := b.exchanges[e];
        b.(exchanges := b.exchanges[e := x.(bindings := Wal.Unbound(x.bindings, k, q))], log := b.log + Appended(b, a))
    case BeginShutdown => b.(closed := true)
    case ClearTokens => if b.closed then b.(owners := map[], tokensCleared := true) else b
    case Restart(visiting) => Boot(b.cfg, b.log, visiting, b.issued)
  }

  /** From `b` the step leads to `c`. */
  ghost predicate Leads(b: BrokerState, a: BrokerStep, c: BrokerState) {
    CanStep(b, a) && c == Next(b, a)
  }

  /** Appends that all succeed, in order. */
  function Granted(records: seq<Record>): (r: seq<Attempt>)
    ensures |r| == |records| && forall i :: 0 <= i < |r| ==> r[i] == Attempt(records[i], true)
  {
    seq(|records|, i requires 0 <= i < |records| => Attempt(records[i], true))
  }

  /** The append of a registry operation that is not refused. */
  function Once(asked: bool, record: Record, ok: bool): seq<Attempt> {
    if asked then [Attempt(record, ok)] else []
  }

  /** The appends a step asks of the log, with their outcomes. */
  ghost function BrokerTries(b: BrokerState, a: BrokerStep): seq<Attempt>
    requires CanStep(b, a)
  {
    match a
    case AtQueue(q, step) => Tries(b.queues[q], step)
    case AtDetached(i, step) => Tries(b.detached[i], step)
    case CreateQueue(name, ok) => Once(QueueCreatable(b, name), QueueCreated(name), ok)
    case DeleteQueue(name, ok, visiting) =>
      Once(QueueDeletable(b, name), QueueDeleted(name), ok)
      + if QueueDeletable(b, name) && ok then Granted(UnbindRecords(b.exchanges, visiting, name)) else []
    case InterruptDelete(name, visited, failed) =>
      if !QueueDeletable(b, name) then []
      else
        [Attempt(QueueDeleted(name), true)] + Granted(UnbindRecords(b.exchanges, visited, name))
        + [Attempt(QueueUnbinded(failed, name, ""), false)]
    case CreateExchange(name, t, ok) => Once(ExchangeCreatable(b, name, t), ExchangeCreated(name, t), ok)
    case DeleteExchange(name, ok) => Once(ExchangeDeletable(b, name), ExchangeDeleted(name), ok)
    case Bind(e, q, k, ok) => Once(Bindable(b, e, q, k), QueueBinded(e, q, k), ok)
    case Unbind(e, q, k, ok) => Once(Unbindable(b, e, q, k), QueueUnbinded(e, q, k), ok)
    case Restart(_) => Granted(Appended(b, a))
    case _ => []
  }

  lemma {:induction false} SuccessesOfGranted(records: seq<Record>)
    ensures Successes(Granted(records)) == records
  {
    if records != [] {
      assert Granted(records)[1..] == Granted(records[1..]);
      SuccessesOfGranted(records[1..]);
    }
  }

  lemma SuccessesOfOnce(asked: bool, record: Record, ok: bool)
    ensures Successes(Once(asked, record, ok)) == if asked && ok then [record] else []
  {
    assert [Attempt(record, ok)][1..] == [];
  }

  /** Every step of the broker writes exactly what it asked to write and was granted, in order. */
  lemma AppendedAreSuccesses(b: BrokerState, a: BrokerStep)
    requires CanStep(b, a)
    ensures Appended(b, a) == Successes(BrokerTries(b, a))
  {
    match a
    case AtQueue(q, step) => EmitIsSuccess(b.queues[q], step);
    case AtDetached(i, step) => EmitIsSuccess(b.detached[i], step);
    case CreateQueue(name, ok) => SuccessesOfOnce(QueueCreatable(b, name), QueueCreated(name), ok);
    case DeleteQueue(name, ok, visiting) =>
      var more := if QueueDeletable(b, name) && ok then Granted(UnbindRecords(b.exchanges, visiting, name)) else [];
      SuccessesOfOnce(QueueDeletable(b, name), QueueDeleted(name), ok);
      SuccessesConcat(Once(QueueDeletable(b, name), QueueDeleted(name), ok), more);
      SuccessesOfGranted(UnbindRecords(b.exchanges, visiting, name));
    case InterruptDelete(name, visited, failed) =>
      var first, middle, last := [Attempt(QueueDeleted(name), true)], Granted(UnbindRecords(b.exchanges, visited, name)),
        [Attempt(QueueUnbinded(failed, name, ""), false)];
      SuccessesConcat(first, middle);
      SuccessesConcat(first + middle, last);
      SuccessesOfGranted(UnbindRecords(b.exchanges, visited, name));
      assert first[1..] == [] && last[1..] == [];
    case CreateExchange(name, t, ok) => SuccessesOfOnce(ExchangeCreatable(b, name, t), ExchangeCreated(name, t), ok);
    case DeleteExchange(name, ok) => SuccessesOfOnce(ExchangeDeletable(b, name), ExchangeDeleted(name), ok);
    case Bind(e, q, k, ok) => SuccessesOfOnce(Bindable(b, e, q, k), QueueBinded(e, q, k), ok);
    case Unbind(e, q, k, ok) => SuccessesOfOnce(Unbindable(b, e, q, k), QueueUnbinded(e, q, k), ok);
    case Restart(_) => SuccessesOfGranted(Appended(b, a));
    case _ =>
  }

  // ---------------------------------------------------------------- assumptions

  /** The token half of (A), over the whole history. */
  predicate DrawsFresh(b: BrokerState, a: BrokerStep) {
    (a.AtQueue? || a.AtDetached?) && a.step.Reserve? ==> a.step.token !in b.issued
  }

  /** (B) at every queue, deleted ones included. */
  ghost predicate CancelsSafely(b: BrokerState, a: BrokerStep)
    requires CanStep(b, a)
  {
    && (a.AtQueue? ==> SafeCancel(b.queues[a.queue], a.step))
    && (a.AtDetached? ==> SafeCancel(b.detached[a.index], a.step))
  }

  /** (A) and (B) at every queue. */
  ghost predicate FairStep(b: BrokerState, a: BrokerStep)
    requires CanStep(b, a)
  {
    && DrawsFresh(b, a)
    && (a.AtQueue? ==> Fair(b.queues[a.queue], a.step))
    && (a.AtDetached? ==> Fair(b.detached[a.index], a.step))
  }

  // ---------------------------------------------------------------- runs

  ghost predicate IsBrokerRun(b: BrokerState, steps: seq<BrokerStep>)
    decreases |steps|
  {
    steps == [] || (CanStep(b, steps[0]) && IsBrokerRun(Next(b, steps[0]), steps[1..]))
  }

  ghost function AfterAll(b: BrokerState, steps: seq<BrokerStep>): BrokerState
    requires IsBrokerRun(b, steps)
    decreases |steps|
  {
    if steps == [] then b else AfterAll(Next(b, steps[0]), steps[1..])
  }

  ghost predicate DrawsFreshSteps(b: BrokerState, steps: seq<BrokerStep>)
    requires IsBrokerRun(b, steps)
    decreases |steps|
  {
    steps == [] || (DrawsFresh(b, steps[0]) && DrawsFreshSteps(Next(b, steps[0]), steps[1..]))
  }

  ghost predicate CancelsSafelySteps(b: BrokerState, steps: seq<BrokerStep>)
    requires IsBrokerRun(b, steps)
    decreases |steps|
  {
    steps == [] || (CancelsSafely(b, steps[0]) && CancelsSafelySteps(Next(b, steps[0]), steps[1..]))
  }

  ghost predicate FairSteps(b: BrokerState, steps: seq<BrokerStep>)
    requires IsBrokerRun(b, steps)
    decreases |steps|
  {
    steps == [] || (FairStep(b, steps[0]) && FairSteps(Next(b, steps[0]), steps[1..]))
  }

  lemma {:induction false} BrokerRunSnoc(b: BrokerState, steps: seq<BrokerStep>, a: BrokerStep)
    requires IsBrokerRun(b, steps) && CanStep(AfterAll(b, steps), a)
    ensures IsBrokerRun(b, steps + [a])
    ensures AfterAll(b, steps + [a]) == Next(AfterAll(b, steps), a)
    decreases |steps|
  {
    if steps == [] {
      assert steps + [a] == [a] && [a][1..] == [];
    } else {
      assert (steps + [a])[1..] == steps[1..] + [a];
      BrokerRunSnoc(Next(b, steps[0]), steps[1..], a);
    }
  }
}
