/** The queue runtime: each method is one holding of the queue's lock and takes the steps its contract names. */
module QueueRuntimes {
  import opened Types
  import opened Sequences
  import opened RoundRobin
  import opened Delivery
  import opened StepForms
  import opened Parts
  import opened RingBuffer
  import Wal

  datatype PublishResult = Accepted | Blocked | BrokerClosed | PublishFailed
  datatype AckResult = Acked | InvalidAckToken | AckFailed

  /** `tokens` lists the in-flight table's keys, each once. */
  ghost predicate Lists(tokens: seq<string>, deliveries: map<string, InFlightMessage>) {
    Distinct(tokens) && forall t :: t in tokens <==> t in deliveries
  }

  function EntryOf(token: string, m: InFlightMessage): Entry {
    Entry(token, m.message, m.consumer, m.deliveredAt)
  }

  ghost function Table(tokens: seq<string>, deliveries: map<string, InFlightMessage>): (r: seq<Entry>)
    requires Lists(tokens, deliveries)
    ensures |r| == |tokens|
    ensures forall i :: 0 <= i < |r| ==> r[i] == EntryOf(tokens[i], deliveries[tokens[i]])
  {
    seq(|tokens|, i requires 0 <= i < |tokens| && Lists(tokens, deliveries) => EntryOf(tokens[i], deliveries[tokens[i]]))
  }

  lemma TableIndex(tokens: seq<string>, deliveries: map<string, InFlightMessage>, token: string)
    requires Lists(tokens, deliveries)
    ensures IndexOf(Table(tokens, deliveries), token) < |tokens| <==> token in deliveries
    ensures token in deliveries ==> tokens[IndexOf(Table(tokens, deliveries), token)] == token
  {
    NotInFlight(Table(tokens, deliveries), token);
    if token in deliveries {
      var i :| 0 <= i < |tokens| && tokens[i] == token;
      assert Table(tokens, deliveries)[i].token == token;
    }
  }

  lemma TableRemove(tokens: seq<string>, deliveries: map<string, InFlightMessage>, i: nat)
    requires Lists(tokens, deliveries) && i < |tokens|
    ensures Lists(RemoveAt(tokens, i), deliveries - {tokens[i]})
    ensures Table(RemoveAt(tokens, i), deliveries - {tokens[i]}) == RemoveAt(Table(tokens, deliveries), i)
  {
    forall t ensures t in RemoveAt(tokens, i) <==> t in deliveries - {tokens[i]} {
      if t in deliveries && t != tokens[i] {
        var j :| 0 <= j < |tokens| && tokens[j] == t;
        assert RemoveAt(tokens, i)[if j < i then j else j - 1] == t;
      }
    }
  }

  lemma TableEmpty(tokens: seq<string>, deliveries: map<string, InFlightMessage>)
    requires Lists(tokens, deliveries)
    ensures |deliveries| == 0 <==> |tokens| == 0
  {
    if |tokens| > 0 {
      assert tokens[0] in deliveries;
    }
  }

  lemma TableAdd(tokens: seq<string>, deliveries: map<string, InFlightMessage>, token: string, m: InFlightMessage)
    requires Lists(tokens, deliveries) && token !in deliveries
    ensures Lists(tokens + [token], deliveries[token := m])
    ensures Table(tokens + [token], deliveries[token := m]) == Table(tokens, deliveries) + [EntryOf(token, m)]
  {
  }

  /** The message as it is logged and queued: id and timestamp filled in, and an expiry when a TTL was given. */
  function Stamped(message: Message, ttl: int, now: Time, freshId: string): Message {
    message.(id := if message.id == "" then freshId else message.id,
             timestamp := now,
             expiryAt := if ttl > 0 then Some(now + ttl) else message.expiryAt)
  }

  /**
    `m` is what a publish of `request` puts on the queue: the same payload and retry count, its own id or else the fresh one, the time
    of the publish, and with a TTL an expiry that much later.
   */
  ghost predicate IsStamp(m: Message, request: Message, ttl: int, now: Time, freshId: string) {
    && m.payload == request.payload && m.retry == request.retry && m.timestamp == now
    && m.id == (if request.id != "" then request.id else freshId)
    && (if ttl > 0 then forall t :: Expired(m, t) <==> t >= now + ttl else m.expiryAt == request.expiryAt)
  }

  lemma StampedIsStamp(request: Message, ttl: int, now: Time, freshId: string)
    ensures IsStamp(Stamped(request, ttl, now, freshId), request, ttl, now, freshId)
  {
  }

  /** The records of an expiry sweep over `messages`. */
  function Burials(name: string, messages: seq<Message>): (r: seq<Record>)
    ensures |r| == |messages|
    ensures forall i :: 0 <= i < |r| ==> r[i] == DeadLettered(name, messages[i].id)
  {
    seq(|messages|, i requires 0 <= i < |messages| => DeadLettered(name, messages[i].id))
  }

  /** The steps of an expiry sweep that found the head expired at each of `times`. */
  function Sweep(times: seq<Time>): (r: seq<Step>)
    ensures |r| == |times|
  {
    seq(|times|, i requires 0 <= i < |times| => Step.ExpireHead(times[i], true))
  }

  /** The message has an expiry and the clock has reached it. */
  predicate PastExpiry(m: Message, now: Time) {
    match m.expiryAt
    case None => false
    case Some(t) => t <= now
  }

  /** The step on which a sweep that failed to write a record ended. */
  function Ending(ok: bool, now: Time): seq<Step> {
    if ok then [] else [Step.ExpireHead(now, false)]
  }

  lemma SweepSnoc(times: seq<Time>, now: Time)
    ensures Sweep(times) + [Step.ExpireHead(now, true)] == Sweep(times + [now])
  {
  }

  /** The steps time out exactly the given deliveries, in order. */
  ghost predicate TimesOutEach(steps: seq<Step>, items: seq<Delivery>) {
    |steps| == |items| && forall i :: 0 <= i < |items| ==> steps[i].TimeOut? && steps[i].token == items[i].token
  }

  lemma TimesOutSnoc(steps: seq<Step>, items: seq<Delivery>, n: nat, a: Step)
    requires n < |items| && TimesOutEach(steps, items[..n]) && a.TimeOut? && a.token == items[n].token
    ensures TimesOutEach(steps + [a], items[..n + 1])
  {
  }

  ghost predicate DistinctDeliveries(items: seq<Delivery>) {
    forall i, j :: 0 <= i < j < |items| ==> items[i].token != items[j].token
  }

  ghost predicate AllReport(deliveries: map<string, InFlightMessage>, items: seq<Delivery>, now: Time, timeout: int) {
    forall i :: 0 <= i < |items| ==> Reports(deliveries, items[i], now, timeout)
  }

  lemma ReportsKept(before: map<string, InFlightMessage>, after: map<string, InFlightMessage>,
                    items: seq<Delivery>, n: nat, now: Time, timeout: int)
    requires n < |items| && DistinctDeliveries(items) && AllReport(before, items[n..], now, timeout)
    requires after == before || after == before - {items[n].token}
    ensures AllReport(after, items[n + 1..], now, timeout)
  {
    var rest := items[n + 1..];
    forall i | 0 <= i < |rest| ensures Reports(after, rest[i], now, timeout) {
      assert rest[i] == items[n..][i + 1];
    }
  }

  /** The sweep touches nothing but the queue, the dead letters and the publishers it signals. */
  ghost predicate Quiet(s: QueueState, t: QueueState) {
    && t.store.inflight == s.store.inflight && t.unacked == s.unacked && t.order == s.order && t.cursor == s.cursor
    && t.notify == s.notify && t.distributor == s.distributor && t.closed == s.closed
  }

  lemma ExpireStep(s: QueueState, now: Time)
    requires Enabled(s, Step.ExpireHead(now, true))
    ensures var t := Apply(s, Step.ExpireHead(now, true));
            && Quiet(s, t) && t.name == s.name && s.store.queue != [] && Expired(s.store.queue[0], now)
            && t.store.queue == s.store.queue[1..] && t.store.dead == s.store.dead + [s.store.queue[0]]
    ensures Emit(s, Step.ExpireHead(now, true)) == [DeadLettered(s.name, s.store.queue[0].id)]
  {
    HeadStep(s, now, true);
  }

  /** The first messages of the queue were expired when they were looked at, in order. */
  ghost predicate AllExpired(queue: seq<Message>, times: seq<Time>) {
    |times| <= |queue| && forall i :: 0 <= i < |times| ==> Expired(queue[i], times[i])
  }

  lemma Unstep(queue: seq<Message>, times: seq<Time>)
    requires times != [] && queue != [] && Expired(queue[0], times[0]) && AllExpired(queue[1..], times[1..])
    ensures AllExpired(queue, times)
    ensures queue[1..][|times[1..]|..] == queue[|times|..]
    ensures queue[..|times|] == [queue[0]] + queue[1..][..|times[1..]|]
  {
    forall i | 0 <= i < |times| ensures Expired(queue[i], times[i]) {
      if i > 0 {
        assert queue[i] == queue[1..][i - 1] && times[i] == times[1..][i - 1];
      }
    }
  }

  lemma SweepHead(times: seq<Time>)
    requires times != []
    ensures Sweep(times)[0] == Step.ExpireHead(times[0], true) && Sweep(times)[1..] == Sweep(times[1..])
  {
  }

  lemma {:induction false} SweepQuiet(s: QueueState, times: seq<Time>)
    requires IsRun(s, Sweep(times))
    ensures Quiet(s, After(s, Sweep(times)))
    decreases |times|
  {
    if times != [] {
      SweepHead(times);
      ExpireStep(s, times[0]);
      SweepQuiet(Apply(s, Sweep(times)[0]), times[1..]);
    }
  }

  /** A sweep of `n` steps moves the first `n` messages, in order, each expired when it was looked at. */
  lemma {:induction false} SweepEffect(s: QueueState, times: seq<Time>)
    requires IsRun(s, Sweep(times))
    ensures AllExpired(s.store.queue, times)
    ensures After(s, Sweep(times)).store.queue == s.store.queue[|times|..]
    ensures After(s, Sweep(times)).store.dead == s.store.dead + s.store.queue[..|times|]
    decreases |times|
  {
    if times != [] {
      SweepHead(times);
      ExpireStep(s, times[0]);
      SweepEffect(Apply(s, Sweep(times)[0]), times[1..]);
      Unstep(s.store.queue, times);
    }
  }

  /** A failed append at the end of a sweep changes nothing else; and it is the only append of the sweep that failed. */
  lemma SweepEnds(s: QueueState, times: seq<Time>, ok: bool, now: Time)
    requires IsRun(s, Sweep(times)) && IsRun(s, Sweep(times) + Ending(ok, now))
    ensures After(s, Sweep(times) + Ending(ok, now)) == After(s, Sweep(times))
    ensures Emitted(s, Sweep(times) + Ending(ok, now)) == Emitted(s, Sweep(times))
    ensures ok <==> forall i :: 0 <= i < |Tried(s, Sweep(times) + Ending(ok, now))| ==> Tried(s, Sweep(times) + Ending(ok, now))[i].ok
    ensures !ok ==> After(s, Sweep(times)).store.queue != [] && Tried(s, Sweep(times) + Ending(ok, now)) ==
                    Tried(s, Sweep(times)) + [Attempt(DeadLettered(After(s, Sweep(times)).name, After(s, Sweep(times)).store.queue[0].id), false)]
  {
    SweepSucceeds(s, times);
    if ok {
      assert Sweep(times) + [] == Sweep(times);
    } else {
      hide Apply, Emit, Tries, Enabled;
      var a, t := Step.ExpireHead(now, false), After(s, Sweep(times));
      LastEnabled(s, Sweep(times), a);
      EnabledHead(t, now);
      HeadStep(t, now, false);
      RunSnoc(s, Sweep(times), a);
      EmittedSnoc(s, Sweep(times), a);
      TriedSnoc(s, Sweep(times), a);
      var tried := Tried(s, Sweep(times) + [a]);
      assert tried[|tried| - 1] == Attempt(DeadLettered(t.name, t.store.queue[0].id), false);
    }
  }

  /** Everything appended between `before` and `after` was written. */
  ghost predicate AllWritten(before: seq<Attempt>, after: seq<Attempt>) {
    before <= after && forall i :: |before| <= i < |after| ==> after[i].ok
  }

  lemma AllWrittenIff(before: seq<Attempt>, more: seq<Attempt>)
    ensures AllWritten(before, before + more) <==> forall i :: 0 <= i < |more| ==> more[i].ok
  {
    if AllWritten(before, before + more) {
      forall i | 0 <= i < |more| ensures more[i].ok {
        assert (before + more)[|before| + i] == more[i];
      }
    }
  }

  lemma AllWrittenThrough(a: seq<Attempt>, b: seq<Attempt>, c: seq<Attempt>)
    requires a <= b <= c
    ensures AllWritten(a, c) <==> AllWritten(a, b) && AllWritten(b, c)
  {
    if AllWritten(a, c) {
      forall i | |a| <= i < |b| ensures b[i].ok {
        assert c[i] == b[i];
      }
    }
  }

  lemma LongPast(queue: seq<Message>, times: seq<Time>, now: Time)
    requires AllExpired(queue, times) && forall i :: 0 <= i < |times| ==> times[i] <= now
    ensures forall i :: 0 <= i < |times| ==> PastExpiry(queue[i], now)
  {
  }

  /** All that a sweep does, whether or not a failed append ended it. */
  lemma SweepSummary(s: QueueState, times: seq<Time>, ok: bool, now: Time, made: seq<Attempt>)
    requires IsRun(s, Sweep(times)) && IsRun(s, Sweep(times) + Ending(ok, now)) && forall i :: 0 <= i < |times| ==> times[i] <= now
    ensures |times| <= |s.store.queue| && forall i :: 0 <= i < |times| ==> PastExpiry(s.store.queue[i], now)
    ensures
      var t := After(s, Sweep(times) + Ending(ok, now));
      && Quiet(s, t) && t.store.queue == s.store.queue[|times|..] && t.store.dead == s.store.dead + s.store.queue[..|times|]
      && Emitted(s, Sweep(times) + Ending(ok, now)) == Burials(s.name, s.store.queue[..|times|])
      && (ok <==> AllWritten(made, made + Tried(s, Sweep(times) + Ending(ok, now))))
      && (!ok ==> |times| < |s.store.queue| && Tried(s, Sweep(times) + Ending(ok, now)) ==
                  Tried(s, Sweep(times)) + [Attempt(DeadLettered(s.name, s.store.queue[|times|].id), false)])
  {
    hide After, Tried, Emitted, IsRun, Quiet, AllWritten;
    SweepEnds(s, times, ok, now);
    SweepEffect(s, times);
    SweepQuiet(s, times);
    SweepName(s, times);
    SweepRecords(s, times);
    LongPast(s.store.queue, times, now);
    AllWrittenIff(made, Tried(s, Sweep(times) + Ending(ok, now)));
  }

  lemma {:induction false} SweepName(s: QueueState, times: seq<Time>)
    requires IsRun(s, Sweep(times))
    ensures After(s, Sweep(times)).name == s.name
    decreases |times|
  {
    if times != [] {
      SweepHead(times);
      SweepName(Apply(s, Sweep(times)[0]), times[1..]);
    }
  }

  lemma EnabledHead(s: QueueState, now: Time)
    requires Enabled(s, Step.ExpireHead(now, false))
    ensures s.store.queue != []
  {
  }

  lemma {:induction false} LastEnabled(s: QueueState, steps: seq<Step>, a: Step)
    requires IsRun(s, steps) && IsRun(s, steps + [a])
    ensures Enabled(After(s, steps), a)
    decreases |steps|
  {
    if steps == [] {
      assert steps + [a] == [a];
    } else {
      assert (steps + [a])[1..] == steps[1..] + [a];
      LastEnabled(Apply(s, steps[0]), steps[1..], a);
    }
  }

  lemma {:induction false} SweepSucceeds(s: QueueState, times: seq<Time>)
    requires IsRun(s, Sweep(times))
    ensures forall i :: 0 <= i < |Tried(s, Sweep(times))| ==> Tried(s, Sweep(times))[i].ok
    decreases |times|
  {
    if times != [] {
      SweepHead(times);
      HeadStep(s, times[0], true);
      SweepSucceeds(Apply(s, Sweep(times)[0]), times[1..]);
    }
  }

  lemma BurialsCons(name: string, m: Message, rest: seq<Message>)
    ensures Burials(name, [m] + rest) == [DeadLettered(name, m.id)] + Burials(name, rest)
  {
  }

  /** The sweep writes one record for each message it moves. */
  lemma {:induction false} SweepRecords(s: QueueState, times: seq<Time>)
    requires IsRun(s, Sweep(times)) && |times| <= |s.store.queue|
    ensures Emitted(s, Sweep(times)) == Burials(s.name, s.store.queue[..|times|])
    decreases |times|
  {
    if times != [] {
      SweepHead(times);
      var queue := s.store.queue;
      ExpireStep(s, times[0]);
      SweepRecords(Apply(s, Sweep(times)[0]), times[1..]);
      assert queue[..|times|] == [queue[0]] + queue[1..][..|times[1..]|];
      BurialsCons(s.name, queue[0], queue[1..][..|times[1..]|]);
    }
  }

  /**
    The distributor's one-slot channel and the condition variable publishers wait on: how many sleep, how
    many were signalled and have not run.
   */
  datatype Wakeups = Wakeups(notify: bool, sleeping: nat, woken: nat)

  function Signalled(w: Wakeups): Wakeups {
    if w.sleeping > 0 then w.(sleeping := w.sleeping - 1, woken := w.woken + 1) else w
  }

  /** The subscribed sessions' unacked counts, their round-robin order and its cursor. */
  datatype Consumers = Consumers(unacked: map<string, int>, order: seq<string>, next: nat)

  datatype Counters = Counters(produced: nat, acked: nat, redelivered: nat, deadlettered: nat)

  /** Specification-only state: the distributor's position, the reservation order and the history. */
  datatype Trace = Trace(distributor: Distributor, tokens: seq<string>, accepted: seq<Message>, acked: seq<Message>, cancelled: bool)

  class QueueRuntime {
    const name: string
    const cfg: Config
    const wal: Wal.FileWal
    const clock: Clock
    const ring: RingBufferQueue
    const manager: Manager
    var closed: bool
    var deadLetterQueue: seq<Message>
    var consumers: Consumers
    var wakeups: Wakeups
    var counters: Counters
    ghost var trace: Trace

    ghost predicate Valid()
      reads this, ring, ring.items, manager
    {
      && ring.Valid()
      && Lists(trace.tokens, manager.deliveries)
      && MemberShape(consumers.unacked, consumers.order, consumers.next)
      && (trace.distributor.Holding? ==> ring.items.Length > 0)
    }

    /** The state of the delivery machine this object stands for. */
    ghost function View(): QueueState
      reads this, ring, ring.items, manager
      requires Valid()
    {
      QueueState(name, cfg, closed,
                 Store(ring.items.Length, ring.contents, Table(trace.tokens, manager.deliveries), deadLetterQueue, trace.accepted, trace.acked,
                       counters.produced, counters.acked, counters.redelivered, counters.deadlettered),
                 consumers.unacked, consumers.order, consumers.next, wakeups.notify, trace.distributor,
                 wakeups.sleeping, wakeups.woken, trace.cancelled)
    }

    /** From the old state to this one the queue took step `a`, asked the log for what that step asks, and the log grew by its record. */
    twostate predicate Stepped(a: Step)
      reads this, wal, ring, ring.items, manager
      requires old(Valid()) && Valid()
    {
      && Enabled(old(View()), a) && View() == Apply(old(View()), a)
      && wal.records == old(wal.records) + Emit(old(View()), a)
      && wal.attempts == old(wal.attempts) + Tries(old(View()), a)
    }

    /** From the old state to this one the queue took `steps` in order. */
    twostate predicate Ran(steps: seq<Step>)
      reads this, wal, ring, ring.items, manager
      requires old(Valid()) && Valid()
    {
      && IsRun(old(View()), steps) && View() == After(old(View()), steps)
      && wal.records == old(wal.records) + Emitted(old(View()), steps)
      && wal.attempts == old(wal.attempts) + Tried(old(View()), steps)
    }

    /** The queue has taken `steps` from `start`, and the log has grown from `log` and `made` by their records and appends. */
    ghost predicate Reached(start: QueueState, log: seq<Record>, made: seq<Attempt>, steps: seq<Step>)
      reads this, wal, ring, ring.items, manager
      requires Valid()
    {
      && IsRun(start, steps) && View() == After(start, steps)
      && wal.records == log + Emitted(start, steps) && wal.attempts == made + Tried(start, steps)
    }

    constructor (name: string, cfg: Config, wal: Wal.FileWal, clock: Clock, capacity: nat, messages: seq<Message>)
      requires |messages| <= capacity
      ensures Valid() && fresh(ring) && fresh(ring.items) && fresh(manager)
      ensures this.name == name && this.cfg == cfg && this.wal == wal && this.clock == clock
      ensures View() == Start(name, cfg, capacity, messages)
    {
      this.name, this.cfg, this.wal, this.clock := name, cfg, wal, clock;
      ring := new RingBufferQueue(capacity);
      manager := new Manager();
      closed, deadLetterQueue, consumers := false, [], Consumers(map[], [], 0);
      wakeups, counters := Wakeups(true, 0, 0), Counters(0, 0, 0, 0);
      trace := Trace(Parked, [], messages, [], false);
      new;
      for i := 0 to |messages|
        invariant ring.Valid() && ring.contents == messages[..i] && counters == Counters(i, 0, 0, 0)
        invariant fresh(ring) && fresh(ring.items) && fresh(manager) && manager.deliveries == map[]
        modifies this`counters, ring, ring.items
      {
        ring.Push(messages[i]);
        counters := counters.(produced := counters.produced + 1);
      }
      assert messages[..|messages|] == messages;
    }

    // -------------------------------------------------------------- publishing

    /** Logs the message and then queues it, on an open queue that is not full. */
    method Admit(stamped: Message) returns (ok: bool)
      requires Valid() && !closed && ring.size != ring.items.Length
      modifies this, wal, ring, ring.items
      ensures Valid()
      ensures ok ==> View() == old(View()).(store := Shift(old(View()).store, Accept(stamped)), notify := true)
      ensures !ok ==> View() == old(View())
      ensures wal.records == old(wal.records) + if ok then [Published(name, stamped, stamped.id)] else []
      ensures wal.attempts == old(wal.attempts) + [Attempt(Published(name, stamped, stamped.id), ok)]
    {
      ok := wal.Append(Published(name, stamped, stamped.id));
      if ok {
        ring.Push(stamped);
        counters := counters.(produced := counters.produced + 1);
        wakeups := wakeups.(notify := true);
        trace := trace.(accepted := trace.accepted + [stamped]);
      }
    }

    /**
      One pass of a publisher through the lock, first or after being woken: it goes to sleep on a
      full queue, is refused by a closed one, and otherwise logs its message and then queues it.
     */
    method Publish(wasAsleep: bool, message: Message, ttl: int, freshId: string) returns (r: PublishResult)
      requires Valid() && (wasAsleep ==> wakeups.woken > 0)
      modifies this, wal, clock, ring, ring.items
      ensures Valid() && clock.now >= old(clock.now)
      ensures r == BrokerClosed <==> old(closed)
      ensures r == Blocked <==> !old(closed) && old(Full(View()))
      ensures Stepped(Step.Publish(wasAsleep, Stamped(message, ttl, clock.now, freshId), r != PublishFailed))
      ensures r == Accepted || r == PublishFailed ==>
                exists m :: IsStamp(m, message, ttl, clock.now, freshId)
                  && wal.attempts == old(wal.attempts) + [Attempt(Published(name, m, m.id), r == Accepted)]
                  && (r == Accepted ==> trace.accepted == old(trace.accepted) + [m])
      ensures r == Blocked || r == BrokerClosed ==> wal.attempts == old(wal.attempts)
    {
      ghost var before := View();
      if wasAsleep {
        Resume();
      }
      r := Offer(message, ttl, freshId);
      PublishStep(before, wasAsleep, Stamped(message, ttl, clock.now, freshId), r != PublishFailed);
      StampedIsStamp(message, ttl, clock.now, freshId);
    }

    /** A woken publisher gets the lock back. */
    method Resume()
      requires Valid() && wakeups.woken > 0
      modifies this`wakeups
      ensures Valid() && View() == old(View()).(woken := old(View()).woken - 1)
    {
      wakeups := wakeups.(woken := wakeups.woken - 1);
    }

    /** What a publisher does once it has the lock. */
    method Offer(message: Message, ttl: int, freshId: string) returns (r: PublishResult)
      requires Valid()
      modifies this, wal, clock, ring, ring.items
      ensures Valid() && clock.now >= old(clock.now)
      ensures r == BrokerClosed <==> old(closed)
      ensures r == Blocked <==> !old(closed) && old(Full(View()))
      ensures var s, m := old(View()), Stamped(message, ttl, clock.now, freshId);
              View() == match r
                        case Accepted => s.(store := Shift(s.store, Accept(m)), notify := true)
                        case Blocked => s.(sleeping := s.sleeping + 1)
                        case _ => s
      ensures wal.records == old(wal.records) +
                if r == Accepted then var m := Stamped(message, ttl, clock.now, freshId); [Published(name, m, m.id)] else []
      ensures wal.attempts == old(wal.attempts) +
                if r == Accepted || r == PublishFailed then
                  var m := Stamped(message, ttl, clock.now, freshId); [Attempt(Published(name, m, m.id), r == Accepted)]
                else []
    {
      if closed {
        return BrokerClosed;
      }
      if ring.Size() == ring.Capacity() {
        wakeups := wakeups.(sleeping := wakeups.sleeping + 1);
        return Blocked;
      }
      var now := clock.Read();
      var ok := Admit(Stamped(message, ttl, now, freshId));
      return if ok then Accepted else PublishFailed;
    }

    // -------------------------------------------------------------- acknowledgement

    /** Takes a delivery out of the in-flight table and gives its consumer the unit of prefetch back. */
    method Forget(token: string, consumer: string)
      requires Valid() && token in manager.deliveries
      modifies this`trace, this`consumers, manager
      ensures Valid() && manager.deliveries == old(manager.deliveries) - {token}
      ensures var s, i := old(View()), old(IndexOf(View().store.inflight, token));
              View() == s.(store := s.store.(inflight := RemoveAt(s.store.inflight, i)), unacked := Bump(s.unacked, consumer, -1))
    {
      ghost var i := IndexOf(View().store.inflight, token);
      ghost var tokens, table := RemoveAt(trace.tokens, i), RemoveAt(View().store.inflight, i);
      assert Lists(tokens, manager.deliveries - {token}) && Table(tokens, manager.deliveries - {token}) == table by {
        TableIndex(trace.tokens, manager.deliveries, token);
        TableRemove(trace.tokens, manager.deliveries, i);
      }
      var _ := manager.Remove(token);
      trace := trace.(tokens := tokens);
      Uncharge(consumer);
    }

    /** A consumer that is still subscribed gets a unit of prefetch back. */
    method Uncharge(consumer: string)
      requires Valid()
      modifies this`consumers
      ensures Valid() && View() == old(View()).(unacked := Bump(old(View()).unacked, consumer, -1))
    {
      if consumer in consumers.unacked {
        consumers := consumers.(unacked := consumers.unacked[consumer := consumers.unacked[consumer] - 1]);
      }
    }

    method Ack(token: string) returns (r: AckResult)
      requires Valid()
      modifies this, wal, manager
      ensures Valid()
      ensures r == InvalidAckToken <==> !old(InFlight(View().store, token))
      ensures Stepped(Step.Ack(token, r != AckFailed))
      ensures r == InvalidAckToken <==> token !in old(manager.deliveries)
      ensures r == InvalidAckToken ==> wal.attempts == old(wal.attempts)
      ensures r != InvalidAckToken ==>
                var m := old(manager.deliveries)[token].message;
                wal.attempts == old(wal.attempts) + [Attempt(Acknowledged(name, m, m.id), r == Acked)]
      ensures manager.deliveries == if r == Acked then old(manager.deliveries) - {token} else old(manager.deliveries)
    {
      TableIndex(trace.tokens, manager.deliveries, token);
      AckStep(View(), token, false);
      AckStep(View(), token, true);
      var entry := manager.Get(token);
      if entry.None? {
        return InvalidAckToken;
      }
      var m := entry.value;
      var ok := wal.Append(Acknowledged(name, m.message, m.message.id));
      if !ok {
        return AckFailed;
      }
      Complete(token, m);
      return Acked;
    }

    /** The memory half of an acknowledgement, once its record is in the log. */
    method Complete(token: string, m: InFlightMessage)
      requires Valid() && token in manager.deliveries && manager.deliveries[token] == m
      modifies this, manager
      ensures Valid() && manager.deliveries == old(manager.deliveries) - {token}
      ensures InFlight(old(View()).store, token)
      ensures View() == Settle(old(View()), AckAt(IndexOf(old(View()).store.inflight, token)))
    {
      TableIndex(trace.tokens, manager.deliveries, token);
      AckSettles(View(), IndexOf(View().store.inflight, token));
      Forget(token, m.consumer);
      CountAcked(m.message);
    }

    method CountAcked(message: Message)
      requires Valid()
      modifies this`counters, this`trace, this`wakeups
      ensures Valid()
      ensures var s := old(View());
              View() == s.(store := s.store.(acked := s.store.acked + [message], ackedCount := s.store.ackedCount + 1), notify := true)
    {
      counters := counters.(acked := counters.acked + 1);
      trace := trace.(acked := trace.acked + [message]);
      wakeups := wakeups.(notify := true);
    }

    // -------------------------------------------------------------- sessions

    method Subscribe(id: string, unackedCount: int) returns (ok: bool)
      requires Valid()
      modifies this
      ensures Valid()
      ensures ok == !old(closed)
      ensures Stepped(Step.Subscribe(id, unackedCount))
      ensures if ok && id !in old(consumers.unacked) then
                && wakeups.notify
                && consumers == Consumers(old(consumers.unacked)[id := unackedCount], old(consumers.order) + [id], old(consumers.next))
              else consumers == old(consumers) && wakeups == old(wakeups)
    {
      if closed {
        return false;
      }
      if id !in consumers.unacked {
        consumers := Consumers(consumers.unacked[id := unackedCount], consumers.order + [id], consumers.next);
        wakeups := wakeups.(notify := true);
      }
      return true;
    }

    method Unsubscribe(id: string)
      requires Valid()
      modifies this
      ensures Valid()
      ensures Stepped(Step.Unsubscribe(id))
      ensures id !in old(consumers.unacked) ==> consumers == old(consumers)
      ensures id in old(consumers.unacked) ==>
                && consumers.unacked == old(consumers.unacked) - {id}
                && (exists i :: 0 <= i < |old(consumers.order)| && old(consumers.order)[i] == id && consumers.order == RemoveAt(old(consumers.order), i))
                && consumers.next == if |consumers.order| == 0 then 0 else old(consumers.next) % |consumers.order|
    {
      hide Apply, Emit, Tries, OrderWithout;
      UnsubscribeStep(View(), id);
      UnsubscribeShape(View(), id);
      if id in consumers.unacked {
        ghost var i :| 0 <= i < |consumers.order| && consumers.order[i] == id;
        OrderWithoutIsRemoveAt(consumers.order, i);
        var order := OrderWithout(consumers.order, id);
        consumers := Consumers(consumers.unacked - {id}, order, Refit(consumers.next, |order|));
      }
    }

    /** The cyclic scan for an eligible session, starting at the cursor; the cursor always points into the order. */
    method NextSession() returns (r: Option<string>)
      requires Valid()
      modifies this`consumers
      ensures Valid() && consumers == old(consumers).(next := consumers.next)
      ensures consumers.order == [] ==> r == None && consumers == old(consumers)
      ensures r.Some? ==> r.value in consumers.unacked && consumers.unacked[r.value] < cfg.prefetch
      ensures r.None? ==> consumers == old(consumers) && forall id :: id in consumers.unacked ==> consumers.unacked[id] >= cfg.prefetch
      ensures consumers.order != [] ==>
                && consumers.next == CursorAfter(consumers.order, consumers.unacked, cfg.prefetch, old(consumers.next))
                && match Select(consumers.order, consumers.unacked, cfg.prefetch, old(consumers.next))
                   case None => r == None
                   case Some(i) => r == Some(consumers.order[i])
    {
      var order, unacked, n := consumers.order, consumers.unacked, |consumers.order|;
      if n == 0 {
        return None;
      }
      var current := consumers.next;
      ghost var d := 0;
      while true
        invariant 0 <= d < n && NoneBefore(order, unacked, cfg.prefetch, current, d)
        invariant consumers == old(consumers).(next := Wrap(current + d, n))
        decreases n - d
      {
        var id := order[consumers.next];
        assert id in order && id in unacked;
        Advance(consumers.next, n);
        consumers := consumers.(next := (consumers.next + 1) % n);
        if unacked[id] < cfg.prefetch {
          ScanFound(order, unacked, cfg.prefetch, current, d);
          return Some(id);
        }
        ScanPassed(order, unacked, cfg.prefetch, current, d);
        if consumers.next == current {
          SelectNoneIff(order, unacked, cfg.prefetch, current);
          forall id | id in unacked ensures unacked[id] >= cfg.prefetch {
            assert id in order;
            var i :| 0 <= i < n && order[i] == id;
            assert !Eligible(unacked, cfg.prefetch, order[i]);
          }
          return None;
        }
        d := d + 1;
      }
    }

    /** The same choice in the machine's terms. */
    method ChooseSession() returns (r: Option<string>)
      requires Valid() && consumers.order != []
      modifies this`consumers
      ensures Valid() && r.Some? == AnyEligible(old(View()))
      ensures r.Some? ==> r.value == Chosen(old(View())) && r.value in consumers.unacked
      ensures View() == old(View()).(cursor := CursorAfter(old(View()).order, old(View()).unacked, cfg.prefetch, old(View()).cursor))
      ensures r.None? ==> View() == old(View())
    {
      SelectNoneIff(consumers.order, consumers.unacked, cfg.prefetch, consumers.next);
      r := NextSession();
      assert r.Some? ==> r.value in consumers.order;
    }

    // -------------------------------------------------------------- closing

    method CloseAllSessions()
      requires Valid()
      modifies this`closed, this`consumers, this`wakeups
      ensures Valid() && View() == CloseAll(old(View()))
    {
      closed := true;
      consumers := Consumers(map[], [], 0);
      wakeups := wakeups.(sleeping := 0, woken := wakeups.woken + wakeups.sleeping);
    }

    method Shutdown()
      requires Valid()
      modifies this
      ensures Valid()
      ensures Stepped(Step.Shutdown)
      ensures closed && consumers == Consumers(map[], [], 0)
      ensures wakeups == old(wakeups).(sleeping := 0, woken := old(wakeups.woken) + old(wakeups.sleeping))
      ensures ring.contents == old(ring.contents) && manager.deliveries == old(manager.deliveries)
    {
      CloseAllSessions();
    }

    method CloseIfEmpty() returns (done: bool)
      requires Valid()
      modifies this
      ensures Valid()
      ensures done <==> old(View().store.queue == [] && View().store.inflight == [])
      ensures Stepped(Step.CloseIfEmpty)
      ensures if done then
                && closed && consumers == Consumers(map[], [], 0)
                && wakeups == old(wakeups).(sleeping := 0, woken := old(wakeups.woken) + old(wakeups.sleeping))
              else closed == old(closed) && consumers == old(consumers) && wakeups == old(wakeups)
    {
      done := ring.Size() == 0 && |manager.deliveries| == 0;
      TableEmpty(trace.tokens, manager.deliveries);
      if done {
        CloseAllSessions();
      }
    }

    // -------------------------------------------------------------- expiry

    /** The memory half of dead-lettering the head of the queue. */
    method BuryOldest()
      requires Valid() && ring.size > 0
      modifies this, ring, ring.items
      ensures Valid() && View() == Settle(old(View()), BuryHead)
    {
      var message := TakeHead();
      Bury(message);
    }

    /** Pops the oldest message and signals a sleeping publisher that there is room. */
    method TakeHead() returns (message: Message)
      requires Valid() && ring.size > 0
      modifies this`wakeups, ring, ring.items
      ensures Valid() && message == old(ring.contents)[0]
      ensures var s := old(View());
              View() == HeadTaken(s)
    {
      message := ring.Pop();
      wakeups := Signalled(wakeups);
    }

    /** Looks at the head of the queue and dead-letters it if it has expired. */
    method ExpireOne() returns (expired: bool, ok: bool)
      requires Valid() && ring.size > 0
      modifies this, wal, clock, ring, ring.items
      ensures Valid() && clock.now >= old(clock.now)
      ensures expired <==> Expired(old(ring.contents)[0], clock.now)
      ensures expired ==> Stepped(Step.ExpireHead(clock.now, ok))
      ensures expired && ok ==> ring.size < old(ring.size)
      ensures !expired || !ok ==> View() == old(View()) && wal.records == old(wal.records)
      ensures expired ==> wal.attempts == old(wal.attempts) + [Attempt(DeadLettered(name, old(ring.contents)[0].id), ok)]
      ensures !expired ==> wal.attempts == old(wal.attempts)
    {
      hide Apply, Emit, Tries;
      ok := false;
      var message := ring.Peek();
      var now := clock.Read();
      expired := Expired(message, now);
      if expired {
        HeadStep(View(), now, true);
        HeadStep(View(), now, false);
        ok := wal.Append(DeadLettered(name, message.id));
        if ok {
          BuryOldest();
        }
      }
    }

    /**
      The expiry sweep. It moves to the dead-letter queue, in order and with one record each, exactly the
      longest prefix of the queue that has expired by the time of its last look at the clock; a failed
      append ends it cleanly after the messages already moved.
     */
    method DeadLetterExpiredMessages() returns (ok: bool, moved: nat, ghost steps: seq<Step>)
      requires Valid()
      modifies this, wal, clock, ring, ring.items
      ensures Valid() && Ran(steps) && clock.now >= old(clock.now)
      ensures moved <= |old(ring.contents)| && ring.contents == old(ring.contents)[moved..]
      ensures deadLetterQueue == old(deadLetterQueue) + old(ring.contents)[..moved]
      ensures forall i :: 0 <= i < moved ==> PastExpiry(old(ring.contents)[i], clock.now)
      ensures ring.contents != [] ==> (ok <==> !PastExpiry(ring.contents[0], clock.now))
      ensures ring.contents == [] ==> ok
      ensures wal.records == old(wal.records) + Burials(name, old(ring.contents)[..moved])
      ensures ok <==> AllWritten(old(wal.attempts), wal.attempts)
      ensures !ok ==> wal.attempts != [] && wal.attempts[|wal.attempts| - 1] == Attempt(DeadLettered(name, ring.contents[0].id), false)
      ensures Quiet(old(View()), View())
    {
      ghost var start := View();
      ghost var times: seq<Time>;
      hide After, Tried, Emitted, IsRun, Quiet, AllWritten, Sweep;
      ok, moved, times := SweepLoop();
      steps := Sweep(times) + Ending(ok, clock.now);
      SweepSummary(start, times, ok, clock.now, old(wal.attempts));
    }

    method SweepLoop() returns (ok: bool, moved: nat, ghost times: seq<Time>)
      requires Valid()
      modifies this, wal, clock, ring, ring.items
      ensures Valid() && Ran(Sweep(times) + Ending(ok, clock.now)) && IsRun(old(View()), Sweep(times)) && clock.now >= old(clock.now)
      ensures moved == |times| && forall i :: 0 <= i < moved ==> times[i] <= clock.now
      ensures if ring.contents == [] then ok else ok <==> !Expired(ring.contents[0], clock.now)
    {
      ok, moved, times := true, 0, [];
      ghost var start, log, made := View(), wal.records, wal.attempts;
      assert Sweep(times) + Ending(true, clock.now) == Sweep(times);
      while ring.Size() > 0
        invariant ok && Valid() && clock.now >= old(clock.now)
        invariant moved == |times| && forall i :: 0 <= i < moved ==> times[i] <= clock.now
        invariant Reached(start, log, made, Sweep(times))
        decreases ring.size
      {
        var expired, done := ExpireNext(start, log, made, times);
        if !expired || !done {
          ok := !expired;
          break;
        }
        times, moved := times + [clock.now], moved + 1;
      }
      assert Sweep(times) + Ending(true, clock.now) == Sweep(times);
    }

    /** One turn of the sweep, after it has moved the messages found expired at `times`. */
    method ExpireNext(ghost start: QueueState, ghost log: seq<Record>, ghost made: seq<Attempt>, ghost times: seq<Time>)
      returns (expired: bool, ok: bool)
      requires Valid() && ring.size > 0 && Reached(start, log, made, Sweep(times))
      modifies this, wal, clock, ring, ring.items
      ensures Valid() && clock.now >= old(clock.now)
      ensures expired <==> Expired(old(ring.contents)[0], clock.now)
      ensures !expired || !ok ==> ring.contents == old(ring.contents) && IsRun(start, Sweep(times))
      ensures !expired ==> Reached(start, log, made, Sweep(times))
      ensures expired && !ok ==> Reached(start, log, made, Sweep(times) + Ending(false, clock.now))
      ensures expired && ok ==> ring.size < old(ring.size) && Reached(start, log, made, Sweep(times + [clock.now]))
    {
      expired, ok := ExpireOne();
      if expired {
        RunExtends(start, Sweep(times), Step.ExpireHead(clock.now, ok), log, made);
        SweepSnoc(times, clock.now);
      }
    }

    // -------------------------------------------------------------- reservation

    /** Enters a delivery in the in-flight table and charges it to its consumer. */
    method Register(token: string, message: Message, consumer: string, now: Time)
      requires Valid() && token !in manager.deliveries && consumer in consumers.unacked
      modifies this`trace, this`consumers, manager
      ensures Valid()
      ensures var s, e := old(View()), Entry(token, message, consumer, now);
              View() == s.(store := s.store.(inflight := s.store.inflight + [e]), unacked := Bump(s.unacked, consumer, 1))
    {
      TableAdd(trace.tokens, manager.deliveries, token, InFlightMessage(message, consumer, now));
      manager.Add(token, message, consumer, now);
      trace := trace.(tokens := trace.tokens + [token]);
      consumers := consumers.(unacked := consumers.unacked[consumer := consumers.unacked[consumer] + 1]);
    }

    /** The memory half of a reservation for the session `id` the round robin has just chosen. */
    method Hand(token: string, id: string, now: Time) returns (d: Delivery)
      requires Valid() && ring.size > 0 && token !in manager.deliveries && id in consumers.unacked
      modifies this, ring, ring.items, manager
      ensures Valid() && d == Delivery(old(ring.contents)[0], token, id)
      ensures var e := Entry(token, old(ring.contents)[0], id, now);
              View() == Settle(old(View()), ReserveHead(e)).(distributor := Holding(d))
    {
      ReserveSettles(View(), Entry(token, ring.contents[0], id, now));
      var message := TakeHead();
      Register(token, message, id, now);
      d := Delivery(message, token, id);
      trace := trace.(distributor := Holding(d));
    }

    /** The choice of a session after the sweep; with nothing to deliver, or nobody to deliver to, the distributor parks. */
    method AttemptReserve(token: string, swept: bool) returns (r: Option<Delivery>, ghost a: Step)
      requires Valid() && trace.distributor == Draining && token !in manager.deliveries
      requires if ring.contents == [] then swept else swept <==> !Expired(ring.contents[0], clock.now)
      modifies this, clock, ring, ring.items, manager
      ensures Valid() && Stepped(a) && clock.now >= old(clock.now)
      ensures match r
              case None => a == Step.Park(old(clock.now), !swept)
              case Some(d) => a == Step.Reserve(token, old(clock.now), clock.now) && d.token == token && d.message == old(ring.contents)[0]
    {
      hide Apply, Emit, Tries;
      ghost var before := View();
      a := Step.Park(clock.now, !swept);
      var chosen := None;
      if swept && ring.Size() > 0 && |consumers.order| > 0 {
        chosen := ChooseSession();
      }
      if chosen.None? {
        ParkIdle(a);
        return None, a;
      }
      ghost var checkedAt := clock.now;
      var d := Deliver(token, chosen.value, before);
      return Some(d), Step.Reserve(token, checkedAt, clock.now);
    }

    /** Completes the reservation begun in state `s` once the round robin has moved on to `id`. */
    method Deliver(token: string, id: string, ghost s: QueueState) returns (d: Delivery)
      requires Valid() && token !in manager.deliveries && id in consumers.unacked
      requires Enabled(s, Step.Reserve(token, clock.now, clock.now)) && id == Chosen(s)
      requires View() == s.(cursor := CursorAfter(s.order, s.unacked, s.cfg.prefetch, s.cursor))
      modifies this, clock, ring, ring.items, manager
      ensures Valid() && clock.now >= old(clock.now) && d == Delivery(s.store.queue[0], token, id)
      ensures Enabled(s, Step.Reserve(token, old(clock.now), clock.now))
      ensures View() == Apply(s, Step.Reserve(token, old(clock.now), clock.now))
      ensures Emit(s, Step.Reserve(token, old(clock.now), clock.now)) == [] && Tries(s, Step.Reserve(token, old(clock.now), clock.now)) == []
    {
      var now := clock.Read();
      ReserveStep(s, token, old(clock.now), now);
      d := Hand(token, id, now);
    }

    method ParkIdle(ghost a: Step)
      requires Valid() && a.Park? && Enabled(View(), a)
      modifies this`trace
      ensures Valid() && View() == Apply(old(View()), a) && Emit(old(View()), a) == [] && Tries(old(View()), a) == []
    {
      trace := trace.(distributor := Parked);
    }

    /** One reservation attempt of the distributor: sweep, choose, hand over; or go back to waiting. */
    method ReserveDelivery(token: string) returns (r: Option<Delivery>, ghost steps: seq<Step>, ghost checkedAt: Time)
      requires Valid() && trace.distributor == Draining && token !in manager.deliveries
      modifies this, wal, clock, ring, ring.items, manager
      ensures Valid() && Ran(steps) && steps != [] && checkedAt >= old(clock.now)
      ensures match r
              case None =>
                steps[|steps| - 1].Park? && (steps[|steps| - 1].appendFailed <==> !AllWritten(old(wal.attempts), wal.attempts))
              case Some(d) =>
                && steps[|steps| - 1] == Step.Reserve(token, checkedAt, clock.now)
                && d.token == token && !PastExpiry(d.message, checkedAt)
    {
      hide After, Tried, Emitted, IsRun, AllWritten, Burials;
      var ok, _, swept := DeadLetterExpiredMessages();
      checkedAt := clock.now;
      ghost var a: Step;
      r, a := AttemptNext(token, ok, old(View()), old(wal.records), old(wal.attempts), swept);
      steps := swept + [a];
    }

    /** The attempt after the `steps` of the sweep. */
    method AttemptNext(token: string, swept: bool, ghost start: QueueState, ghost log: seq<Record>, ghost made: seq<Attempt>, ghost steps: seq<Step>)
      returns (r: Option<Delivery>, ghost a: Step)
      requires Valid() && trace.distributor == Draining && token !in manager.deliveries && Reached(start, log, made, steps)
      requires if ring.contents == [] then swept else swept <==> !Expired(ring.contents[0], clock.now)
      modifies this, clock, ring, ring.items, manager
      ensures Valid() && Reached(start, log, made, steps + [a])
      ensures match r
              case None => a == Step.Park(old(clock.now), !swept)
              case Some(d) => a == Step.Reserve(token, old(clock.now), clock.now) && d.token == token && !Expired(d.message, old(clock.now))
    {
      r, a := AttemptReserve(token, swept);
      RunExtends(start, steps, a, log, made);
    }

    /** The distributor takes the wakeup out of the channel. */
    method ReceiveWakeup()
      requires Valid() && trace.distributor == Parked && wakeups.notify
      modifies this
      ensures Valid() && Stepped(Step.Wake) && wakeups == old(wakeups).(notify := false) && trace.distributor == Draining
    {
      wakeups := wakeups.(notify := false);
      trace := trace.(distributor := Draining);
    }

    /** Puts a reservation back in the buffer, in flight or not and whether or not there is a free slot. */
    method CancelReservation(d: Delivery)
      requires Valid() && trace.distributor == Holding(d)
      modifies this, ring, ring.items, manager
      ensures Valid() && Stepped(Step.Cancel)
      ensures ring.contents == Pushed(old(ring.contents), ring.items.Length, d.message) && wakeups.notify
      ensures manager.deliveries == old(manager.deliveries) - {d.token}
    {
      hide Apply, Emit, Returned, Bump, Settle;
      CancelStep(View(), d);
      TableIndex(trace.tokens, manager.deliveries, d.token);
      if d.token in manager.deliveries {
        Forget(d.token, d.consumer);
      }
      PushReturned(d.message);
    }

    method PushReturned(message: Message)
      requires Valid() && ring.items.Length > 0
      modifies this, ring, ring.items
      ensures Valid() && ring.contents == Pushed(old(ring.contents), ring.items.Length, message) && wakeups.notify
      ensures View() == Returned(old(View()), message)
    {
      ring.Push(message);
      wakeups := Signalled(wakeups).(notify := true);
      trace := trace.(distributor := Draining, cancelled := true);
    }

    // -------------------------------------------------------------- timeouts

    /** One overdue delivery of the timeout sweep: skipped on a full queue, buried when its retries are used up, else requeued. */
    method TimeOutOne(item: Delivery, now: Time) returns (ok: bool)
      requires Valid() && !closed && Reports(manager.deliveries, item, now, cfg.ackTimeout)
      modifies this, wal, ring, ring.items, manager
      ensures Valid() && !closed
      ensures manager.deliveries == old(manager.deliveries) || manager.deliveries == old(manager.deliveries) - {item.token}
      ensures Stepped(Step.TimeOut(item.token, now, ok))
      ensures if old(ring.size) == ring.items.Length then ok && wal.attempts == old(wal.attempts)
              else if item.message.retry >= cfg.maxRetries then
                wal.attempts == old(wal.attempts) + [Attempt(DeadLettered(name, item.message.id), ok)]
              else
                wal.attempts == old(wal.attempts)
                  + [Attempt(Requeued(name, item.message.(retry := item.message.retry + 1), item.message.id), ok)]
    {
      hide Apply, Emit, Tries;
      TableIndex(trace.tokens, manager.deliveries, item.token);
      assert View().store.inflight[IndexOf(View().store.inflight, item.token)].message == item.message;
      if ring.Size() == ring.Capacity() {
        TimeOutStep(View(), item.token, now, true);
        return true;
      }
      ok := GiveUpOrRetry(item, now);
    }

    /** An overdue delivery on a queue that is not full. */
    method GiveUpOrRetry(item: Delivery, now: Time) returns (ok: bool)
      requires Valid() && !closed && ring.size != ring.items.Length && Reports(manager.deliveries, item, now, cfg.ackTimeout)
      requires Enabled(View(), Step.TimeOut(item.token, now, true)) && Enabled(View(), Step.TimeOut(item.token, now, false))
      requires View().store.inflight[IndexOf(View().store.inflight, item.token)].message == item.message
      modifies this, wal, ring, ring.items, manager
      ensures Valid() && !closed
      ensures manager.deliveries == old(manager.deliveries) || manager.deliveries == old(manager.deliveries) - {item.token}
      ensures Stepped(Step.TimeOut(item.token, now, ok))
      ensures wal.attempts == old(wal.attempts) +
                if item.message.retry >= cfg.maxRetries then [Attempt(DeadLettered(name, item.message.id), ok)]
                else [Attempt(Requeued(name, item.message.(retry := item.message.retry + 1), item.message.id), ok)]
    {
      if item.message.retry >= cfg.maxRetries {
        ok := GiveUp(item, now);
      } else {
        ok := Retry(item, now);
      }
    }

    /** An overdue delivery whose retries are used up. */
    method GiveUp(item: Delivery, now: Time) returns (ok: bool)
      requires Valid() && !closed && ring.size != ring.items.Length && Reports(manager.deliveries, item, now, cfg.ackTimeout)
      requires Enabled(View(), Step.TimeOut(item.token, now, true)) && Enabled(View(), Step.TimeOut(item.token, now, false))
      requires View().store.inflight[IndexOf(View().store.inflight, item.token)].message == item.message && item.message.retry >= cfg.maxRetries
      modifies this, wal, ring, ring.items, manager
      ensures Valid() && !closed
      ensures manager.deliveries == old(manager.deliveries) || manager.deliveries == old(manager.deliveries) - {item.token}
      ensures Stepped(Step.TimeOut(item.token, now, ok))
      ensures wal.attempts == old(wal.attempts) + [Attempt(DeadLettered(name, item.message.id), ok)]
    {
      hide Apply, Emit, Tries, Settle;
      ok := wal.Append(DeadLettered(name, item.message.id));
      TimeOutStep(old(View()), item.token, now, ok);
      if ok {
        BuryInFlight(item);
      }
    }

    /** An overdue delivery that gets another try. */
    method Retry(item: Delivery, now: Time) returns (ok: bool)
      requires Valid() && !closed && ring.size != ring.items.Length && Reports(manager.deliveries, item, now, cfg.ackTimeout)
      requires Enabled(View(), Step.TimeOut(item.token, now, true)) && Enabled(View(), Step.TimeOut(item.token, now, false))
      requires View().store.inflight[IndexOf(View().store.inflight, item.token)].message == item.message && item.message.retry < cfg.maxRetries
      modifies this, wal, ring, ring.items, manager
      ensures Valid() && !closed
      ensures manager.deliveries == old(manager.deliveries) || manager.deliveries == old(manager.deliveries) - {item.token}
      ensures Stepped(Step.TimeOut(item.token, now, ok))
      ensures wal.attempts == old(wal.attempts) + [Attempt(Requeued(name, Retried(item.message), item.message.id), ok)]
    {
      hide Apply, Emit, Tries, Settle;
      ok := wal.Append(Requeued(name, Retried(item.message), item.message.id));
      TimeOutStep(old(View()), item.token, now, ok);
      if ok {
        Requeue(item);
      }
    }

    method BuryInFlight(item: Delivery)
      requires Valid() && item.token in manager.deliveries
      requires manager.deliveries[item.token].message == item.message
      requires manager.deliveries[item.token].consumer == item.consumer
      modifies this, manager
      ensures Valid() && closed == old(closed) && manager.deliveries == old(manager.deliveries) - {item.token}
      ensures InFlight(old(View()).store, item.token)
      ensures View() == Settle(old(View()), BuryAt(IndexOf(old(View()).store.inflight, item.token)))
    {
      TableIndex(trace.tokens, manager.deliveries, item.token);
      ghost var before, i := View(), IndexOf(View().store.inflight, item.token);
      Bury(item.message);
      Forget(item.token, item.consumer);
      assert View().store == Shift(before.store, BuryAt(i));
    }

    /** Adds a message to the dead-letter queue. */
    method Bury(message: Message)
      requires Valid()
      modifies this`deadLetterQueue, this`counters
      ensures Valid()
      ensures var s := old(View());
              View() == s.(store := s.store.(dead := s.store.dead + [message], deadletteredCount := s.store.deadletteredCount + 1))
    {
      deadLetterQueue := deadLetterQueue + [message];
      counters := counters.(deadlettered := counters.deadlettered + 1);
    }

    method Requeue(item: Delivery)
      requires Valid() && item.token in manager.deliveries && ring.items.Length > 0
      requires manager.deliveries[item.token].message == item.message
      requires manager.deliveries[item.token].consumer == item.consumer
      modifies this, ring, ring.items, manager
      ensures Valid() && closed == old(closed) && manager.deliveries == old(manager.deliveries) - {item.token}
      ensures InFlight(old(View()).store, item.token)
      ensures View() == Settle(old(View()), RequeueAt(IndexOf(old(View()).store.inflight, item.token)))
    {
      TableIndex(trace.tokens, manager.deliveries, item.token);
      ghost var before, i := View(), IndexOf(View().store.inflight, item.token);
      PushRetried(item.message);
      Forget(item.token, item.consumer);
      assert View().store == Shift(before.store, RequeueAt(i));
    }

    method PushRetried(message: Message)
      requires Valid() && ring.items.Length > 0
      modifies this, ring, ring.items
      ensures Valid() && closed == old(closed)
      ensures var s := old(View());
              View() == s.(store := s.store.(queue := Pushed(s.store.queue, s.store.capacity, Retried(message)),
                                             redeliveredCount := s.store.redeliveredCount + 1), notify := true)
    {
      ring.Push(Retried(message));
      counters := counters.(redelivered := counters.redelivered + 1);
      wakeups := wakeups.(notify := true);
    }

    /** The timeout sweep: one step for each overdue delivery, each exactly once, in whatever order the table yields them. */
    method ProcessExpiredMessages() returns (items: seq<Delivery>, now: Time, ghost steps: seq<Step>)
      requires Valid()
      modifies this, wal, clock, ring, ring.items, manager
      ensures Valid() && Ran(steps) && TimesOutEach(steps, items) && clock.now >= old(clock.now) && now == clock.now
      ensures old(closed) ==> items == []
      ensures forall i, j :: 0 <= i < j < |items| ==> items[i].token != items[j].token
      ensures !old(closed) ==> forall t :: Listed(items, t) <==> Enabled(old(View()), Step.TimeOut(t, now, true))
      ensures !old(closed) ==> forall t :: t in old(manager.deliveries) ==>
                (Listed(items, t) <==> now - old(manager.deliveries)[t].deliveredAt > cfg.ackTimeout)
    {
      items, steps, now := [], [], clock.now;
      if closed {
        return;
      }
      ghost var before, tokens, table := View(), trace.tokens, manager.deliveries;
      now := clock.Read();
      items := manager.Expired(now, cfg.ackTimeout);
      forall t ensures Listed(items, t) <==> Enabled(before, Step.TimeOut(t, now, true)) {
        TableIndex(tokens, table, t);
      }
      steps := TimeOutAll(items, now);
    }

    method TimeOutAll(items: seq<Delivery>, now: Time) returns (ghost steps: seq<Step>)
      requires Valid() && !closed && DistinctDeliveries(items) && AllReport(manager.deliveries, items, now, cfg.ackTimeout)
      modifies this, wal, ring, ring.items, manager
      ensures Valid() && Ran(steps) && TimesOutEach(steps, items)
    {
      steps := [];
      ghost var start, log, made := View(), wal.records, wal.attempts;
      assert items[0..] == items && items[..|items|] == items;
      for n := 0 to |items|
        invariant Valid() && !closed
        invariant TimesOutEach(steps, items[..n])
        invariant AllReport(manager.deliveries, items[n..], now, cfg.ackTimeout)
        invariant Reached(start, log, made, steps)
      {
        ghost var table := manager.deliveries;
        assert items[n..][0] == items[n];
        ghost var a := TimeOutNext(items[n], now, start, log, made, steps);
        ReportsKept(table, manager.deliveries, items, n, now, cfg.ackTimeout);
        TimesOutSnoc(steps, items, n, a);
        steps := steps + [a];
      }
    }

    /** One turn of the timeout sweep, after `steps`. */
    method TimeOutNext(item: Delivery, now: Time, ghost start: QueueState, ghost log: seq<Record>, ghost made: seq<Attempt>,
                       ghost steps: seq<Step>)
      returns (ghost a: Step)
      requires Valid() && !closed && Reports(manager.deliveries, item, now, cfg.ackTimeout) && Reached(start, log, made, steps)
      modifies this, wal, ring, ring.items, manager
      ensures Valid() && !closed && a.TimeOut? && a.token == item.token && Reached(start, log, made, steps + [a])
      ensures manager.deliveries == old(manager.deliveries) || manager.deliveries == old(manager.deliveries) - {item.token}
    {
      var ok := TimeOutOne(item, now);
      a := Step.TimeOut(item.token, now, ok);
      RunExtends(start, steps, a, log, made);
    }
  }
}
