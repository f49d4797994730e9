/**
  One queue's delivery protocol as a state machine.

  A step is what happens under one holding of the queue's lock, except that the expiry sweep and the
  timeout sweep are cut into one step per message, so that what holds after every step also
  holds in the middle of a sweep. Every step moves at most one message; `Move` names the ways a
  message can move, `Shift` moves it and `Log` gives the record written for it.
 */
module Delivery {
  import opened Types
  import opened Sequences
  import opened RoundRobin
  import opened RingBuffer

  /** One in-flight delivery. */
  datatype Entry = Entry(token: string, message: Message, consumer: string, deliveredAt: Time)

  /**
    Where the messages are, with the counters. `capacity` is that of the ring buffer that holds `queue`,
    and `inflight` lists the in-flight table in reservation order.
    `accepted` and `acked` are history: every message taken in and every message acknowledged.
   */
  datatype Store = Store(
    capacity: nat, queue: seq<Message>, inflight: seq<Entry>, dead: seq<Message>,
    accepted: seq<Message>, acked: seq<Message>,
    producedCount: nat, ackedCount: nat, redeliveredCount: nat, deadletteredCount: nat)

  datatype Delivery = Delivery(message: Message, token: string, consumer: string)

  /** Where the queue's one distributor stands. */
  datatype Distributor =
    | Parked                        // waiting on the one-slot wakeup channel
    | Draining                      // about to try another reservation
    | Holding(delivery: Delivery)   // between a reservation and its send or cancel
    | Stopped

  datatype QueueState = QueueState(
    name: string, cfg: Config, closed: bool, store: Store,
    unacked: map<string, int>, order: seq<string>, cursor: nat,
    notify: bool, distributor: Distributor,
    sleeping: nat,     // publishers asleep on the condition variable
    woken: nat,        // publishers signalled that have not run yet
    cancelled: bool)   // history: whether a reservation has been cancelled

  datatype Step =
    | Publish(wasAsleep: bool, message: Message, appended: bool)
    | Ack(token: string, appended: bool)
    | Wake
    | Reserve(token: string, checkedAt: Time, now: Time)
    | Park(now: Time, appendFailed: bool)
    | Send
    | Cancel
    | Stop
    | ExpireHead(now: Time, appended: bool)
    | TimeOut(token: string, now: Time, appended: bool)
    | Subscribe(id: string, count: int)
    | Unsubscribe(id: string)
    | CloseIfEmpty
    | Shutdown

  datatype Move =
    | Stay
    | Accept(message: Message)
    | AckAt(i: nat)
    | ReserveHead(entry: Entry)
    | GiveBack(i: nat, delivery: Delivery)   // a cancelled reservation that is still in flight
    | PushBack(delivery: Delivery)           // a cancelled reservation that is not: it is pushed all the same
    | BuryHead
    | BuryAt(i: nat)
    | RequeueAt(i: nat)

  // ---------------------------------------------------------------- messages

  function MessagesIn(entries: seq<Entry>): (r: seq<Message>)
    ensures |r| == |entries|
    ensures forall i :: 0 <= i < |entries| ==> r[i] == entries[i].message
  {
    seq(|entries|, i requires 0 <= i < |entries| => entries[i].message)
  }

  /** What the queue still owes its consumers: in-flight messages in reservation order, then the queued ones. */
  function Live(st: Store): seq<Message> {
    MessagesIn(st.inflight) + st.queue
  }

  function IndexOf(entries: seq<Entry>, token: string): (i: nat)
    ensures i <= |entries|
    ensures i < |entries| ==> entries[i].token == token
    ensures forall j :: 0 <= j < i ==> entries[j].token != token
  {
    if entries == [] || entries[0].token == token then 0 else 1 + IndexOf(entries[1..], token)
  }

  predicate InFlight(st: Store, token: string) {
    IndexOf(st.inflight, token) < |st.inflight|
  }

  predicate Expired(m: Message, now: Time) {
    m.expiryAt.Some? && now >= m.expiryAt.value
  }

  function Retried(m: Message): Message {
    m.(retry := m.retry + 1)
  }

  function EmptyStore(capacity: nat, messages: seq<Message>): Store {
    Store(capacity, messages, [], [], messages, [], |messages|, 0, 0, 0)
  }

  predicate Possible(st: Store, mv: Move) {
    match mv
    case AckAt(i) => i < |st.inflight|
    case ReserveHead(e) => st.queue != [] && e.message == st.queue[0]
    case GiveBack(i, _) => i < |st.inflight|
    case BuryHead => st.queue != []
    case BuryAt(i) => i < |st.inflight|
    case RequeueAt(i) => i < |st.inflight|
    case _ => true
  }

  function Shift(st: Store, mv: Move): (r: Store)
    requires Possible(st, mv)
    ensures r.capacity == st.capacity
  {
    match mv
    case Stay => st
    case Accept(m) =>
      st.(queue := Pushed(st.queue, st.capacity, m), accepted := st.accepted + [m], producedCount := st.producedCount + 1)
    case AckAt(i) =>
      st.(inflight := RemoveAt(st.inflight, i), acked := st.acked + [st.inflight[i].message],
          ackedCount := st.ackedCount + 1)
    case ReserveHead(e) => st.(queue := st.queue[1..], inflight := st.inflight + [e])
    case GiveBack(i, d) => st.(inflight := RemoveAt(st.inflight, i), queue := Pushed(st.queue, st.capacity, d.message))
    case PushBack(d) => st.(queue := Pushed(st.queue, st.capacity, d.message))
    case BuryHead =>
      st.(queue := st.queue[1..], dead := st.dead + [st.queue[0]], deadletteredCount := st.deadletteredCount + 1)
    case BuryAt(i) =>
      st.(inflight := RemoveAt(st.inflight, i), dead := st.dead + [st.inflight[i].message],
          deadletteredCount := st.deadletteredCount + 1)
    case RequeueAt(i) =>
      st.(inflight := RemoveAt(st.inflight, i),
          queue := Pushed(st.queue, st.capacity, Retried(st.inflight[i].message)),
          redeliveredCount := st.redeliveredCount + 1)
  }

  /** The record appended before the move is made in memory. */
  function Log(name: string, st: Store, mv: Move): (r: seq<Record>)
    requires Possible(st, mv)
    ensures |r| <= 1
  {
    match mv
    case Accept(m) => [Published(name, m, m.id)]
    case AckAt(i) => [Acknowledged(name, st.inflight[i].message, st.inflight[i].message.id)]
    case BuryHead => [DeadLettered(name, st.queue[0].id)]
    case BuryAt(i) => [DeadLettered(name, st.inflight[i].message.id)]
    case RequeueAt(i) => [Requeued(name, Retried(st.inflight[i].message), st.inflight[i].message.id)]
    case _ => []
  }

  /** The consumer whose unacked count goes down, or up, with the move. */
  function Charge(unacked: map<string, int>, st: Store, mv: Move): (r: map<string, int>)
    requires Possible(st, mv)
    ensures r.Keys == unacked.Keys
  {
    match mv
    case AckAt(i) => Bump(unacked, st.inflight[i].consumer, -1)
    case BuryAt(i) => Bump(unacked, st.inflight[i].consumer, -1)
    case RequeueAt(i) => Bump(unacked, st.inflight[i].consumer, -1)
    case GiveBack(_, d) => Bump(unacked, d.consumer, -1)
    case ReserveHead(e) => Bump(unacked, e.consumer, 1)
    case _ => unacked
  }

  function Bump(unacked: map<string, int>, id: string, delta: int): map<string, int> {
    if id in unacked then unacked[id := unacked[id] + delta] else unacked
  }

  /** Moves that push a message onto the ring buffer. */
  predicate Pushes(mv: Move) {
    mv.Accept? || mv.RequeueAt? || mv.GiveBack? || mv.PushBack?
  }

  /** A push finds a free slot. The code looks for one before it accepts or requeues a message, but not before it gives one back. */
  predicate HasRoom(st: Store, mv: Move) {
    Pushes(mv) ==> |st.queue| < st.capacity
  }

  /** Moves that wake the distributor. `BuryAt` does not. */
  predicate Notifies(mv: Move) {
    mv.Accept? || mv.AckAt? || mv.RequeueAt? || mv.GiveBack? || mv.PushBack?
  }

  /** Moves that signal one sleeping publisher. */
  predicate Signals(mv: Move) {
    mv.ReserveHead? || mv.BuryHead? || mv.GiveBack? || mv.PushBack?
  }

  // ---------------------------------------------------------------- steps

  function Start(name: string, cfg: Config, capacity: nat, messages: seq<Message>): QueueState {
    QueueState(name, cfg, false, EmptyStore(capacity, messages), map[], [], 0, true, Parked, 0, 0, false)
  }

  predicate Full(s: QueueState) { |s.store.queue| == s.store.capacity }

  predicate AnyEligible(s: QueueState) {
    exists i :: 0 <= i < |s.order| && Eligible(s.unacked, s.cfg.prefetch, s.order[i])
  }

  predicate Enabled(s: QueueState, a: Step) {
    match a
    case Publish(wasAsleep, _, _) => wasAsleep ==> s.woken > 0
    case Wake => s.distributor.Parked? && s.notify
    case Reserve(_, checkedAt, _) =>
      && s.distributor.Draining? && s.store.queue != [] && !Expired(s.store.queue[0], checkedAt)
      && s.cursor < |s.order| && AnyEligible(s)
    case Park(now, appendFailed) =>
      && s.distributor.Draining?
      && if appendFailed then s.store.queue != [] && Expired(s.store.queue[0], now)
         else s.store.queue == [] || (!Expired(s.store.queue[0], now) && !AnyEligible(s))
    case Send => s.distributor.Holding?
    case Cancel => s.distributor.Holding?
    case Stop => s.distributor.Parked? && s.closed
    case ExpireHead(now, _) => s.store.queue != [] && Expired(s.store.queue[0], now)
    case TimeOut(token, now, _) =>
      && !s.closed && InFlight(s.store, token)
      && now - s.store.inflight[IndexOf(s.store.inflight, token)].deliveredAt > s.cfg.ackTimeout
    case _ => true
  }

  /** The session a reservation goes to. */
  function Chosen(s: QueueState): (id: string)
    requires s.cursor < |s.order| && AnyEligible(s)
    ensures id in s.order && Eligible(s.unacked, s.cfg.prefetch, id)
  {
    SelectNoneIff(s.order, s.unacked, s.cfg.prefetch, s.cursor);
    s.order[Select(s.order, s.unacked, s.cfg.prefetch, s.cursor).value]
  }

  /** The message move a step makes. */
  function MoveOf(s: QueueState, a: Step): (mv: Move)
    requires Enabled(s, a)
    ensures Possible(s.store, mv)
  {
    match a
    case Publish(_, m, appended) =>
      if s.closed || Full(s) || !appended then Stay else Accept(m)
    case Ack(token, appended) =>
      if InFlight(s.store, token) && appended then AckAt(IndexOf(s.store.inflight, token)) else Stay
    case Reserve(token, _, now) =>
      ReserveHead(Entry(token, s.store.queue[0], Chosen(s), now))
    case Cancel =>
      var d := s.distributor.delivery;
      if InFlight(s.store, d.token) then GiveBack(IndexOf(s.store.inflight, d.token), d) else PushBack(d)
    case ExpireHead(_, appended) => if appended then BuryHead else Stay
    case TimeOut(token, _, appended) =>
      var i := IndexOf(s.store.inflight, token);
      if Full(s) || !appended then Stay
      else if s.store.inflight[i].message.retry >= s.cfg.maxRetries then BuryAt(i)
      else RequeueAt(i)
    case _ => Stay
  }

  /** A message move with the bookkeeping that goes with it. */
  function Settle(s: QueueState, mv: Move): QueueState
    requires Possible(s.store, mv)
  {
    var t := s.(store := Shift(s.store, mv), unacked := Charge(s.unacked, s.store, mv), notify := s.notify || Notifies(mv));
    if Signals(mv) && s.sleeping > 0 then t.(sleeping := s.sleeping - 1, woken := s.woken + 1) else t
  }

  function CloseAll(s: QueueState): QueueState {
    s.(closed := true, unacked := map[], order := [], cursor := 0, woken := s.woken + s.sleeping, sleeping := 0)
  }

  /** The order with the session `id` taken out and the others where they were. */
  function OrderWithout(order: seq<string>, id: string): (r: seq<string>)
    ensures forall x :: x in r <==> x in order && x != id
    ensures Distinct(order) ==> Distinct(r)
    ensures |r| <= |order|
  {
    if order == [] then []
    else
      var rest := OrderWithout(order[1..], id);
      assert order == [order[0]] + order[1..];
      assert Distinct(order) ==> Distinct(order[1..]) && order[0] !in order[1..];
      if order[0] == id then rest else [order[0]] + rest
  }

  lemma {:induction false} OrderWithoutAbsent(order: seq<string>, id: string)
    requires id !in order
    ensures OrderWithout(order, id) == order
  {
    if order != [] {
      assert order[0] in order;
      OrderWithoutAbsent(order[1..], id);
    }
  }

  lemma {:induction false} OrderWithoutIsRemoveAt(order: seq<string>, i: nat)
    requires Distinct(order) && i < |order|
    ensures OrderWithout(order, order[i]) == RemoveAt(order, i)
  {
    if i == 0 {
      OrderWithoutAbsent(order[1..], order[0]);
    } else {
      OrderWithoutIsRemoveAt(order[1..], i - 1);
      assert RemoveAt(order, i) == [order[0]] + RemoveAt(order[1..], i - 1);
    }
  }

  /** The cursor brought back into an order of `n` sessions. */
  function Refit(cursor: nat, n: nat): (r: nat)
    ensures if n == 0 then r == 0 else r < n
  {
    if n == 0 then 0 else cursor % n
  }

  /** What a step does besides moving a message; `t` is the state after the move. */
  function Control(s: QueueState, t: QueueState, a: Step): QueueState
    requires Enabled(s, a)
  {
    match a
    case Publish(wasAsleep, _, _) =>
      t.(woken := if wasAsleep && t.woken > 0 then t.woken - 1 else t.woken,
         sleeping := if !s.closed && Full(s) then t.sleeping + 1 else t.sleeping)
    case Ack(_, _) => t
    case Wake => t.(notify := false, distributor := Draining)
    case Reserve(token, _, _) =>
      t.(cursor := CursorAfter(s.order, s.unacked, s.cfg.prefetch, s.cursor),
         distributor := Holding(Delivery(s.store.queue[0], token, Chosen(s))))
    case Park(_, _) => t.(distributor := Parked)
    case Send => t.(distributor := Draining)
    case Cancel => t.(distributor := Draining, cancelled := true)
    case Stop => t.(distributor := Stopped)
    case ExpireHead(_, _) => t
    case TimeOut(_, _, _) => t
    case Subscribe(id, count) =>
      if s.closed || id in s.unacked then t
      else t.(unacked := s.unacked[id := count], order := s.order + [id], notify := true)
    case Unsubscribe(id) =>
      if id !in s.unacked then t
      else
        var order := OrderWithout(s.order, id);
        t.(unacked := s.unacked - {id}, order := order, cursor := Refit(s.cursor, |order|))
    case CloseIfEmpty => if s.store.queue != [] || s.store.inflight != [] then t else CloseAll(t)
    case Shutdown => CloseAll(t)
  }

  function Apply(s: QueueState, a: Step): (r: QueueState)
    requires Enabled(s, a)
    ensures r.store == Shift(s.store, MoveOf(s, a))
    ensures r.name == s.name && r.cfg == s.cfg
  {
    Control(s, Settle(s, MoveOf(s, a)), a)
  }

  function Emit(s: QueueState, a: Step): (r: seq<Record>)
    requires Enabled(s, a)
    ensures |r| <= 1
  {
    Log(s.name, s.store, MoveOf(s, a))
  }

  /** The append a step asks of the log, and the outcome it reports; a step that writes nothing asks for none. */
  function Tries(s: QueueState, a: Step): (r: seq<Attempt>)
    requires Enabled(s, a)
    ensures |r| <= 1
  {
    match a
    case Publish(_, m, ok) => if s.closed || Full(s) then [] else [Attempt(Published(s.name, m, m.id), ok)]
    case Ack(token, ok) =>
      if !InFlight(s.store, token) then []
      else
        var m := s.store.inflight[IndexOf(s.store.inflight, token)].message;
        [Attempt(Acknowledged(s.name, m, m.id), ok)]
    case ExpireHead(_, ok) => [Attempt(DeadLettered(s.name, s.store.queue[0].id), ok)]
    case TimeOut(token, _, ok) =>
      var m := s.store.inflight[IndexOf(s.store.inflight, token)].message;
      if Full(s) then []
      else if m.retry >= s.cfg.maxRetries then [Attempt(DeadLettered(s.name, m.id), ok)]
      else [Attempt(Requeued(s.name, m.(retry := m.retry + 1), m.id), ok)]
    case _ => []
  }

  /** The records of the attempts that succeeded, in order. */
  function Successes(attempts: seq<Attempt>): seq<Record> {
    if attempts == [] then []
    else (if attempts[0].ok then [attempts[0].record] else []) + Successes(attempts[1..])
  }

  /** A step writes exactly what it asked to write, if that succeeded. */
  lemma EmitIsSuccess(s: QueueState, a: Step)
    requires Enabled(s, a)
    ensures Emit(s, a) == Successes(Tries(s, a))
  {
    assert forall x: Attempt :: [x][1..] == [];
  }

  // ---------------------------------------------------------------- runs

  /** A run is a sequence of enabled steps. */
  predicate IsRun(s: QueueState, steps: seq<Step>)
    decreases |steps|
  {
    steps == [] || (Enabled(s, steps[0]) && IsRun(Apply(s, steps[0]), steps[1..]))
  }

  function After(s: QueueState, steps: seq<Step>): QueueState
    requires IsRun(s, steps)
    decreases |steps|
  {
    if steps == [] then s else After(Apply(s, steps[0]), steps[1..])
  }

  function Emitted(s: QueueState, steps: seq<Step>): seq<Record>
    requires IsRun(s, steps)
    decreases |steps|
  {
    if steps == [] then [] else Emit(s, steps[0]) + Emitted(Apply(s, steps[0]), steps[1..])
  }

  function Tried(s: QueueState, steps: seq<Step>): seq<Attempt>
    requires IsRun(s, steps)
    decreases |steps|
  {
    if steps == [] then [] else Tries(s, steps[0]) + Tried(Apply(s, steps[0]), steps[1..])
  }

  lemma {:induction false} RunSnoc(s: QueueState, steps: seq<Step>, a: Step)
    requires IsRun(s, steps) && Enabled(After(s, steps), a)
    ensures IsRun(s, steps + [a])
    ensures After(s, steps + [a]) == Apply(After(s, steps), a)
    decreases |steps|
  {
    if steps == [] {
      assert steps + [a] == [a] && [a][1..] == [];
    } else {
      assert (steps + [a])[1..] == steps[1..] + [a];
      RunSnoc(Apply(s, steps[0]), steps[1..], a);
    }
  }

  lemma {:induction false} EmittedSnoc(s: QueueState, steps: seq<Step>, a: Step)
    requires IsRun(s, steps) && Enabled(After(s, steps), a) && IsRun(s, steps + [a])
    ensures Emitted(s, steps + [a]) == Emitted(s, steps) + Emit(After(s, steps), a)
    decreases |steps|
  {
    if steps == [] {
      assert steps + [a] == [a] && [a][1..] == [];
    } else {
      var t, rest := Apply(s, steps[0]), steps[1..];
      assert (steps + [a])[1..] == rest + [a];
      EmittedSnoc(t, rest, a);
      ConcatAssociative(Emit(s, steps[0]), Emitted(t, rest), Emit(After(t, rest), a));
    }
  }

  lemma {:induction false} TriedSnoc(s: QueueState, steps: seq<Step>, a: Step)
    requires IsRun(s, steps) && Enabled(After(s, steps), a) && IsRun(s, steps + [a])
    ensures Tried(s, steps + [a]) == Tried(s, steps) + Tries(After(s, steps), a)
    decreases |steps|
  {
    if steps == [] {
      assert steps + [a] == [a] && [a][1..] == [];
    } else {
      var t, rest := Apply(s, steps[0]), steps[1..];
      assert (steps + [a])[1..] == rest + [a];
      TriedSnoc(t, rest, a);
      ConcatAssociative(Tries(s, steps[0]), Tried(t, rest), Tries(After(t, rest), a));
    }
  }

  /** One more step of a run whose records extend `log` and whose appends extend `made`. */
  lemma RunExtends(s: QueueState, steps: seq<Step>, a: Step, log: seq<Record>, made: seq<Attempt>)
    requires IsRun(s, steps) && Enabled(After(s, steps), a)
    ensures IsRun(s, steps + [a]) && After(s, steps + [a]) == Apply(After(s, steps), a)
    ensures log + Emitted(s, steps) + Emit(After(s, steps), a) == log + Emitted(s, steps + [a])
    ensures made + Tried(s, steps) + Tries(After(s, steps), a) == made + Tried(s, steps + [a])
  {
    hide Apply, Emit, Tries, Enabled, IsRun, After, Emitted, Tried;
    RunSnoc(s, steps, a);
    EmittedSnoc(s, steps, a);
    TriedSnoc(s, steps, a);
    ConcatAssociative(log, Emitted(s, steps), Emit(After(s, steps), a));
    ConcatAssociative(made, Tried(s, steps), Tries(After(s, steps), a));
  }

  lemma {:induction false} SuccessesConcat(a: seq<Attempt>, b: seq<Attempt>)
    ensures Successes(a + b) == Successes(a) + Successes(b)
  {
    if a == [] {
      assert a + b == b;
    } else {
      assert (a + b)[1..] == a[1..] + b;
      SuccessesConcat(a[1..], b);
    }
  }

  /** In every run the records written are exactly those of the appends that succeeded, in order. */
  lemma {:induction false} EmittedAreSuccesses(s: QueueState, steps: seq<Step>)
    requires IsRun(s, steps)
    ensures Emitted(s, steps) == Successes(Tried(s, steps))
    decreases |steps|
  {
    if steps != [] {
      EmitIsSuccess(s, steps[0]);
      EmittedAreSuccesses(Apply(s, steps[0]), steps[1..]);
      SuccessesConcat(Tries(s, steps[0]), Tried(Apply(s, steps[0]), steps[1..]));
    }
  }

  // ---------------------------------------------------------------- standing assumptions

  /** (A) for tokens: a reservation draws a token that is not in flight. */
  predicate FreshToken(s: QueueState, a: Step) {
    a.Reserve? ==> !InFlight(s.store, a.token)
  }

  /** (A) for messages: a published message carries an id that no live message has. */
  predicate FreshId(s: QueueState, a: Step) {
    a.Publish? ==> forall i :: 0 <= i < |Live(s.store)| ==> Live(s.store)[i].id != a.message.id
  }

  /** (B): a cancelled reservation is still in flight, and finds a free slot to go back to. */
  predicate SafeCancel(s: QueueState, a: Step) {
    a.Cancel? ==> s.distributor.Holding? && InFlight(s.store, s.distributor.delivery.token) && |s.store.queue| < s.store.capacity
  }

  /** What conservation needs of a step. */
  predicate Orderly(s: QueueState, a: Step) {
    FreshToken(s, a) && SafeCancel(s, a)
  }

  /** What recovery needs of a step. */
  predicate Fair(s: QueueState, a: Step) {
    Orderly(s, a) && FreshId(s, a)
  }

  predicate FreshTokens(s: QueueState, steps: seq<Step>)
    requires IsRun(s, steps)
    decreases |steps|
  {
    steps == [] || (FreshToken(s, steps[0]) && FreshTokens(Apply(s, steps[0]), steps[1..]))
  }

  predicate OrderlyRun(s: QueueState, steps: seq<Step>)
    requires IsRun(s, steps)
    decreases |steps|
  {
    steps == [] || (Orderly(s, steps[0]) && OrderlyRun(Apply(s, steps[0]), steps[1..]))
  }

  predicate FairRun(s: QueueState, steps: seq<Step>)
    requires IsRun(s, steps)
    decreases |steps|
  {
    steps == [] || (Fair(s, steps[0]) && FairRun(Apply(s, steps[0]), steps[1..]))
  }

  lemma {:induction false} FairIsOrderly(s: QueueState, steps: seq<Step>)
    requires IsRun(s, steps) && FairRun(s, steps)
    ensures OrderlyRun(s, steps)
    decreases |steps|
  {
    if steps != [] {
      FairIsOrderly(Apply(s, steps[0]), steps[1..]);
    }
  }

  lemma {:induction false} FreshTokensSnoc(s: QueueState, steps: seq<Step>, a: Step)
    requires IsRun(s, steps) && FreshTokens(s, steps) && Enabled(After(s, steps), a) && FreshToken(After(s, steps), a)
    requires IsRun(s, steps + [a])
    ensures FreshTokens(s, steps + [a])
    decreases |steps|
  {
    if steps == [] {
      assert steps + [a] == [a] && [a][1..] == [];
    } else {
      assert (steps + [a])[1..] == steps[1..] + [a];
      FreshTokensSnoc(Apply(s, steps[0]), steps[1..], a);
    }
  }

  lemma {:induction false} OrderlySnoc(s: QueueState, steps: seq<Step>, a: Step)
    requires IsRun(s, steps) && OrderlyRun(s, steps) && Enabled(After(s, steps), a) && Orderly(After(s, steps), a)
    requires IsRun(s, steps + [a])
    ensures OrderlyRun(s, steps + [a])
    decreases |steps|
  {
    if steps == [] {
      assert steps + [a] == [a] && [a][1..] == [];
    } else {
      assert (steps + [a])[1..] == steps[1..] + [a];
      OrderlySnoc(Apply(s, steps[0]), steps[1..], a);
    }
  }

  lemma {:induction false} FairSnoc(s: QueueState, steps: seq<Step>, a: Step)
    requires IsRun(s, steps) && FairRun(s, steps) && Enabled(After(s, steps), a) && Fair(After(s, steps), a)
    requires IsRun(s, steps + [a])
    ensures FairRun(s, steps + [a])
    decreases |steps|
  {
    if steps == [] {
      assert steps + [a] == [a] && [a][1..] == [];
    } else {
      assert (steps + [a])[1..] == steps[1..] + [a];
      FairSnoc(Apply(s, steps[0]), steps[1..], a);
    }
  }

  // ---------------------------------------------------------------- shape of reachable states

  ghost predicate DistinctTokens(entries: seq<Entry>) {
    forall i, j :: 0 <= i < j < |entries| ==> entries[i].token != entries[j].token
  }

  ghost predicate HeldMatches(inflight: seq<Entry>, d: Delivery) {
    forall i :: 0 <= i < |inflight| && inflight[i].token == d.token ==>
      inflight[i].message == d.message && inflight[i].consumer == d.consumer
  }

  /** Tokens identify in-flight entries, and the held delivery is the entry under its token. */
  ghost predicate TokenShape(inflight: seq<Entry>, distributor: Distributor) {
    && DistinctTokens(inflight)
    && (distributor.Holding? ==> HeldMatches(inflight, distributor.delivery))
  }

  /** The round-robin order lists each subscribed session once and the cursor points into it. */
  ghost predicate MemberShape(unacked: map<string, int>, order: seq<string>, cursor: nat) {
    && Distinct(order) && (forall x :: x in order <==> x in unacked)
    && (if order == [] then cursor == 0 else cursor < |order|)
  }

  /** The structural invariant: the tables agree, nothing comes out of a buffer without slots, a closed queue has no sleepers and no sessions. */
  ghost predicate Shape(s: QueueState) {
    && TokenShape(s.store.inflight, s.distributor)
    && MemberShape(s.unacked, s.order, s.cursor)
    && (s.store.capacity == 0 ==> s.store.queue == [] && !s.distributor.Holding?)
    && (s.closed ==> s.sleeping == 0 && s.unacked == map[])
  }

  lemma StartShape(name: string, cfg: Config, capacity: nat, messages: seq<Message>)
    requires |messages| <= capacity
    ensures Shape(Start(name, cfg, capacity, messages)) && Bounded(Start(name, cfg, capacity, messages))
  {
  }

  lemma {:induction false} NotInFlight(entries: seq<Entry>, token: string)
    ensures IndexOf(entries, token) == |entries| <==>
            forall i :: 0 <= i < |entries| ==> entries[i].token != token
  {
  }

  lemma TokensShift(st: Store, mv: Move)
    requires DistinctTokens(st.inflight) && Possible(st, mv)
    requires mv.ReserveHead? ==> !InFlight(st, mv.entry.token)
    ensures DistinctTokens(Shift(st, mv).inflight)
  {
    if mv.ReserveHead? {
      NotInFlight(st.inflight, mv.entry.token);
    }
  }

  lemma HeldShift(st: Store, mv: Move, d: Delivery)
    requires HeldMatches(st.inflight, d) && Possible(st, mv) && !mv.ReserveHead?
    ensures HeldMatches(Shift(st, mv).inflight, d)
  {
  }

  lemma TokenShapeStep(s: QueueState, a: Step)
    requires TokenShape(s.store.inflight, s.distributor) && Enabled(s, a) && FreshToken(s, a)
    ensures TokenShape(Apply(s, a).store.inflight, Apply(s, a).distributor)
  {
    TokensShift(s.store, MoveOf(s, a));
    DistributorStep(s, a);
    if a.Reserve? {
      NotInFlight(s.store.inflight, a.token);
    } else if s.distributor.Holding? {
      HeldShift(s.store, MoveOf(s, a), s.distributor.delivery);
    }
  }

  /** A delivery is held only from its reservation on, until it is sent or cancelled. */
  lemma DistributorStep(s: QueueState, a: Step)
    requires Enabled(s, a)
    ensures MoveOf(s, a).ReserveHead? <==> a.Reserve?
    ensures a.Reserve? ==>
              var e := MoveOf(s, a).entry;
              e.token == a.token && Apply(s, a).distributor == Holding(Delivery(e.message, e.token, e.consumer))
    ensures !a.Reserve? && Apply(s, a).distributor.Holding? ==> Apply(s, a).distributor == s.distributor
  {
  }

  lemma MemberShapeStep(s: QueueState, a: Step)
    requires MemberShape(s.unacked, s.order, s.cursor) && Enabled(s, a)
    ensures MemberShape(Apply(s, a).unacked, Apply(s, a).order, Apply(s, a).cursor)
  {
    var r := Apply(s, a);
    match a
    case Subscribe(id, count) =>
    case Unsubscribe(id) => UnsubscribeShape(s, id);
    case _ =>
  }

  lemma UnsubscribeShape(s: QueueState, id: string)
    requires MemberShape(s.unacked, s.order, s.cursor)
    ensures var r := Apply(s, Unsubscribe(id)); MemberShape(r.unacked, r.order, r.cursor)
  {
  }

  lemma ShapeStep(s: QueueState, a: Step)
    requires Shape(s) && Enabled(s, a) && FreshToken(s, a)
    ensures Shape(Apply(s, a))
  {
    TokenShapeStep(s, a);
    MemberShapeStep(s, a);
    DistributorStep(s, a);
  }

  // ---------------------------------------------------------------- room in the buffer

  /** The buffer has not been pushed past its capacity. */
  predicate Bounded(s: QueueState) {
    |s.store.queue| <= s.store.capacity
  }

  /** While the buffer is within its capacity, only a cancelled reservation can find it full. */
  lemma RoomToPush(s: QueueState, a: Step)
    requires Bounded(s) && Enabled(s, a) && SafeCancel(s, a)
    ensures HasRoom(s.store, MoveOf(s, a))
  {
  }

  lemma BoundedStep(s: QueueState, a: Step)
    requires Bounded(s) && Enabled(s, a) && SafeCancel(s, a)
    ensures Bounded(Apply(s, a))
  {
    RoomToPush(s, a);
  }
}
