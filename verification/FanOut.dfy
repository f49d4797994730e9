/** The publish fan-out: the copies of one payload sent to the queues an exchange names, as a run of the broker. */
module FanOut {
  import opened Types
  import opened Delivery
  import opened Broker
  import BrokerRuns
  import BrokerTopology
  import Exchange
  import QueueRuntimes
  import StepForms

  /** A copy accepted by a queue, at once or after the publisher had slept there. */
  datatype Sent = Sent(queue: string, message: Message, wasAsleep: bool)

  function Targets(sent: seq<Sent>): (r: seq<string>)
    ensures |r| == |sent| && forall i :: 0 <= i < |r| ==> r[i] == sent[i].queue
  {
    seq(|sent|, i requires 0 <= i < |sent| => sent[i].queue)
  }

  function Publication(s: Sent): BrokerStep {
    AtQueue(s.queue, Step.Publish(s.wasAsleep, s.message, true))
  }

  function Publications(sent: seq<Sent>): (r: seq<BrokerStep>)
    ensures |r| == |sent|
  {
    seq(|sent|, i requires 0 <= i < |sent| => Publication(sent[i]))
  }

  /** Whether a publisher that looks the queue up finds it. */
  predicate Reachable(b: BrokerState, queue: string) {
    !b.closed && queue in b.queues
  }

  /** Whether a publisher's pass at the queue can happen; one that slept there does not look the queue up again. */
  predicate CanPass(b: BrokerState, queue: string, wasAsleep: bool) {
    if wasAsleep then queue in b.queues && b.queues[queue].woken > 0 else Reachable(b, queue)
  }

  /** Whether the pass ends with the message accepted, if its record is written. */
  predicate Open(b: BrokerState, queue: string, wasAsleep: bool) {
    CanPass(b, queue, wasAsleep) && !b.queues[queue].closed && !Full(b.queues[queue])
  }

  /** The copies can be published one after the other, each accepted. */
  ghost predicate CanSend(b: BrokerState, sent: seq<Sent>)
    decreases |sent|, 0
  {
    sent == [] ||
    (CanSend(b, sent[..|sent| - 1]) && Open(Fanned(b, sent[..|sent| - 1]), sent[|sent| - 1].queue, sent[|sent| - 1].wasAsleep))
  }

  /** The broker after publishing them. */
  ghost function Fanned(b: BrokerState, sent: seq<Sent>): BrokerState
    requires CanSend(b, sent)
    decreases |sent|, 1
  {
    if sent == [] then b else Next(Fanned(b, sent[..|sent| - 1]), Publication(sent[|sent| - 1]))
  }

  lemma FannedSnoc(b: BrokerState, sent: seq<Sent>, s: Sent)
    requires CanSend(b, sent) && Open(Fanned(b, sent), s.queue, s.wasAsleep)
    ensures CanSend(b, sent + [s]) && Fanned(b, sent + [s]) == Next(Fanned(b, sent), Publication(s))
  {
    assert (sent + [s])[..|sent|] == sent;
  }

  /** The appends asked for while publishing them. */
  ghost function FannedTries(b: BrokerState, sent: seq<Sent>): seq<Attempt>
    requires CanSend(b, sent)
    decreases |sent|
  {
    if sent == [] then []
    else FannedTries(b, sent[..|sent| - 1]) + BrokerTries(Fanned(b, sent[..|sent| - 1]), Publication(sent[|sent| - 1]))
  }

  lemma FannedTriesSnoc(b: BrokerState, sent: seq<Sent>, s: Sent, made: seq<Attempt>)
    requires CanSend(b, sent) && Open(Fanned(b, sent), s.queue, s.wasAsleep) && CanSend(b, sent + [s])
    ensures made + FannedTries(b, sent + [s]) == made + FannedTries(b, sent) + BrokerTries(Fanned(b, sent), Publication(s))
  {
    assert (sent + [s])[..|sent|] == sent;
  }

  /** The copies sent went to the first of the queues named, and have brought the broker from `start` to `now`. */
  ghost predicate Progress(start: BrokerState, now: BrokerState, sent: seq<Sent>, names: seq<string>) {
    Targets(sent) <= names && CanSend(start, sent) && now == Fanned(start, sent)
  }

  lemma NothingSent(start: BrokerState, names: seq<string>)
    ensures Progress(start, start, [], names) && FannedTries(start, []) == []
  {
  }

  lemma ProgressSnoc(start: BrokerState, now: BrokerState, sent: seq<Sent>, names: seq<string>, message: Message, wasAsleep: bool)
    requires Progress(start, now, sent, names) && |sent| < |names| && Open(now, names[|sent|], wasAsleep)
    ensures var s := Sent(names[|sent|], message, wasAsleep); Progress(start, Next(now, Publication(s)), sent + [s], names)
  {
    var s := Sent(names[|sent|], message, wasAsleep);
    FannedSnoc(start, sent, s);
    PrefixSnoc(sent, names, s);
  }

  lemma PrefixSnoc(sent: seq<Sent>, names: seq<string>, s: Sent)
    requires Targets(sent) <= names && |sent| < |names| && s.queue == names[|sent|]
    ensures Targets(sent + [s]) <= names
  {
    SentSnoc(sent, s);
    assert names[..|sent| + 1] == names[..|sent|] + [names[|sent|]];
  }

  /** A fan-out is the run of the broker that takes its publish steps in order. */
  lemma {:induction false} FannedIsRun(b: BrokerState, sent: seq<Sent>)
    requires CanSend(b, sent)
    ensures IsBrokerRun(b, Publications(sent)) && Fanned(b, sent) == AfterAll(b, Publications(sent))
    decreases |sent|
  {
    if sent != [] {
      var init, last := sent[..|sent| - 1], sent[|sent| - 1];
      FannedIsRun(b, init);
      PublicationsSnoc(sent);
      BrokerRunSnoc(b, Publications(init), Publication(last));
    }
  }

  lemma PublicationsSnoc(sent: seq<Sent>)
    requires sent != []
    ensures Publications(sent) == Publications(sent[..|sent| - 1]) + [Publication(sent[|sent| - 1])]
  {
  }

  // ---------------------------------------------------------------- how a fan-out ends

  datatype Ending =
    | AllSent       // every queue named has its copy
    | Unreachable   // the next queue does not exist, or the broker is closed
    | Waiting       // the publisher has gone to sleep at the next queue
    | QueueClosed   // the next queue is closed
    | NotLogged     // the next copy's record was not written

  /** Why the fan-out stopped at queue `q` in state `mid`, and the pass it made there, which leaves the broker as `now`. */
  ghost predicate Ends(mid: BrokerState, now: BrokerState, r: Ending, q: string, wasAsleep: bool, m: Message) {
    match r
    case AllSent => now == mid
    case Unreachable => now == mid && !wasAsleep && !Reachable(mid, q)
    case Waiting =>
      && CanPass(mid, q, wasAsleep) && !mid.queues[q].closed && Full(mid.queues[q])
      && now == Next(mid, AtQueue(q, Step.Publish(wasAsleep, m, true)))
    case QueueClosed =>
      && CanPass(mid, q, wasAsleep) && mid.queues[q].closed
      && now == Next(mid, AtQueue(q, Step.Publish(wasAsleep, m, true)))
    case NotLogged =>
      && Open(mid, q, wasAsleep)
      && now == Next(mid, AtQueue(q, Step.Publish(wasAsleep, m, false)))
  }

  /** The append asked for on that pass. */
  ghost function EndTries(mid: BrokerState, r: Ending, q: string, wasAsleep: bool, m: Message): seq<Attempt> {
    if r == NotLogged && q in mid.queues then [Attempt(Published(mid.queues[q].name, m, m.id), false)] else []
  }

  // ---------------------------------------------------------------- messages

  /** `m` is the payload with its id kept, or a new one if it had none, and the time and expiry of a publish filled in. */
  ghost predicate IsStamp(m: Message, payload: Message, ttl: int) {
    QueueRuntimes.IsStamp(m, payload, ttl, m.timestamp, m.id)
  }

  ghost predicate AllStamped(sent: seq<Sent>, payload: Message, ttl: int, start: Time, end: Time) {
    forall i :: 0 <= i < |sent| ==> start <= sent[i].message.timestamp <= end && IsStamp(sent[i].message, payload, ttl)
  }

  lemma StampedSnoc(sent: seq<Sent>, s: Sent, payload: Message, ttl: int, start: Time, end: Time)
    requires exists e :: e <= end && AllStamped(sent, payload, ttl, start, e)
    requires start <= s.message.timestamp <= end && IsStamp(s.message, payload, ttl)
    ensures AllStamped(sent + [s], payload, ttl, start, end)
  {
  }

  /** The messages sent to `q`, in order. */
  function SentTo(sent: seq<Sent>, q: string): seq<Message> {
    if sent == [] then []
    else
      SentTo(sent[..|sent| - 1], q) + if sent[|sent| - 1].queue == q then [sent[|sent| - 1].message] else []
  }

  lemma SentSnoc(sent: seq<Sent>, s: Sent)
    ensures Targets(sent + [s]) == Targets(sent) + [s.queue]
    ensures forall q :: SentTo(sent + [s], q) == SentTo(sent, q) + if s.queue == q then [s.message] else []
  {
    assert (sent + [s])[..|sent|] == sent;
  }

  lemma {:induction false} SentToCount(sent: seq<Sent>, q: string)
    ensures |SentTo(sent, q)| == multiset(Targets(sent))[q]
  {
    if sent != [] {
      var init, last := sent[..|sent| - 1], sent[|sent| - 1];
      SentToCount(init, q);
      assert sent == init + [last];
      SentSnoc(init, last);
    }
  }

  // ---------------------------------------------------------------- what a fan-out does

  /** The records of a fan-out, under the names the queues log by. */
  function SentRecords(queues: map<string, QueueState>, sent: seq<Sent>): (r: seq<Record>)
    requires forall i :: 0 <= i < |sent| ==> sent[i].queue in queues
    ensures |r| == |sent|
  {
    seq(|sent|, i requires 0 <= i < |sent| && sent[i].queue in queues =>
      Published(queues[sent[i].queue].name, sent[i].message, sent[i].message.id))
  }

  /** One publish changes its own queue only, and there the buffer, the counters, the history and the wakeups. */
  lemma PublicationEffect(b: BrokerState, s: Sent)
    requires Open(b, s.queue, s.wasAsleep)
    ensures
      var t, c := b.queues[s.queue], Next(b, Publication(s));
      && c == b.(queues := b.queues[s.queue := t.(store := Shift(t.store, Accept(s.message)), notify := true,
                                                  woken := if s.wasAsleep then t.woken - 1 else t.woken)],
                 log := b.log + [Published(t.name, s.message, s.message.id)])
  {
    StepForms.PublishStep(b.queues[s.queue], s.wasAsleep, s.message, true);
  }

  /** Nothing but the queue's buffer, counters, history and wakeups has changed. */
  ghost predicate SameBesides(s: QueueState, t: QueueState) {
    && t.name == s.name && t.store.inflight == s.store.inflight && t.store.dead == s.store.dead && t.store.acked == s.store.acked
    && t.store.capacity == s.store.capacity && t == s.(store := t.store, notify := t.notify, woken := t.woken)
  }

  /** `c` is `b` with one more record for each copy, in order, and nothing changed but the queues the copies reached. */
  ghost predicate LoggedOnce(b: BrokerState, c: BrokerState, sent: seq<Sent>) {
    && (forall i :: 0 <= i < |sent| ==> sent[i].queue in b.queues)
    && c.log == b.log + SentRecords(b.queues, sent) && c == b.(queues := c.queues, log := c.log)
    && c.queues.Keys == b.queues.Keys && forall q :: q in b.queues ==> SameBesides(b.queues[q], c.queues[q])
  }

  lemma LoggedSnoc(b: BrokerState, c: BrokerState, sent: seq<Sent>, s: Sent)
    requires LoggedOnce(b, c, sent) && Open(c, s.queue, s.wasAsleep)
    ensures LoggedOnce(b, Next(c, Publication(s)), sent + [s])
  {
    PublicationEffect(c, s);
    RecordsSnoc(b.queues, sent, s, b.log);
    assert SameBesides(b.queues[s.queue], c.queues[s.queue]);
  }

  lemma LoggedNone(b: BrokerState)
    ensures LoggedOnce(b, b, [])
  {
    assert b.log + SentRecords(b.queues, []) == b.log;
  }

  /** A fan-out asks for one append for each copy, and all succeed. */
  lemma {:induction false} FannedAsks(b: BrokerState, sent: seq<Sent>)
    requires CanSend(b, sent)
    ensures LoggedOnce(b, Fanned(b, sent), sent) && forall i :: 0 <= i < |sent| ==> sent[i].queue in b.queues
    ensures FannedTries(b, sent) == Granted(SentRecords(b.queues, sent))
    decreases |sent|
  {
    hide Next, LoggedOnce, BrokerTries, SentRecords;
    FannedLog(b, sent);
    SentAreKnown(b, Fanned(b, sent), sent);
    if sent == [] {
      assert SentRecords(b.queues, sent) == [];
    } else {
      var init, last := sent[..|sent| - 1], sent[|sent| - 1];
      FannedAsks(b, init);
      SentAreKnown(b, Fanned(b, init), init);
      assert sent == init + [last];
      NameKept(b, Fanned(b, init), init, last.queue);
      AsksOne(Fanned(b, init), last);
      GrantedSnoc(b.queues, init, last);
    }
  }

  lemma NameKept(b: BrokerState, c: BrokerState, sent: seq<Sent>, q: string)
    requires LoggedOnce(b, c, sent) && q in c.queues
    ensures q in b.queues && c.queues[q].name == b.queues[q].name
  {
    assert SameBesides(b.queues[q], c.queues[q]);
  }

  lemma AsksOne(c: BrokerState, s: Sent)
    requires Open(c, s.queue, s.wasAsleep)
    ensures BrokerTries(c, Publication(s)) == [Attempt(Published(c.queues[s.queue].name, s.message, s.message.id), true)]
  {
  }

  lemma SentAreKnown(b: BrokerState, c: BrokerState, sent: seq<Sent>)
    requires LoggedOnce(b, c, sent)
    ensures forall i :: 0 <= i < |sent| ==> sent[i].queue in b.queues
  {
  }

  lemma GrantedSnoc(queues: map<string, QueueState>, sent: seq<Sent>, s: Sent)
    requires s.queue in queues && forall i :: 0 <= i < |sent| ==> sent[i].queue in queues
    ensures forall i :: 0 <= i < |sent + [s]| ==> (sent + [s])[i].queue in queues
    ensures Granted(SentRecords(queues, sent + [s])) ==
            Granted(SentRecords(queues, sent)) + [Attempt(Published(queues[s.queue].name, s.message, s.message.id), true)]
  {
  }

  lemma {:induction false} FannedLog(b: BrokerState, sent: seq<Sent>)
    requires CanSend(b, sent)
    ensures LoggedOnce(b, Fanned(b, sent), sent)
    decreases |sent|
  {
    hide Next, LoggedOnce;
    if sent == [] {
      LoggedNone(b);
    } else {
      var init, last := sent[..|sent| - 1], sent[|sent| - 1];
      FannedLog(b, init);
      assert sent == init + [last];
      LoggedSnoc(b, Fanned(b, init), init, last);
    }
  }

  lemma RecordsSnoc(queues: map<string, QueueState>, sent: seq<Sent>, s: Sent, log: seq<Record>)
    requires s.queue in queues && forall i :: 0 <= i < |sent| ==> sent[i].queue in queues
    ensures forall i :: 0 <= i < |sent + [s]| ==> (sent + [s])[i].queue in queues
    ensures log + SentRecords(queues, sent + [s]) ==
            log + SentRecords(queues, sent) + [Published(queues[s.queue].name, s.message, s.message.id)]
  {
  }

  ghost predicate AllBounded(queues: map<string, QueueState>) {
    forall q :: q in queues ==> Bounded(queues[q])
  }

  /** Every queue holds what it held, followed by what was sent to it. */
  ghost predicate Grown(before: map<string, QueueState>, after: map<string, QueueState>, sent: seq<Sent>) {
    && after.Keys == before.Keys
    && forall q :: q in after ==> after[q].store.queue == before[q].store.queue + SentTo(sent, q)
  }

  /** One more message at the tail of one queue. */
  ghost predicate OneMore(before: map<string, QueueState>, after: map<string, QueueState>, s: Sent) {
    && after.Keys == before.Keys
    && forall q :: q in before ==>
         after[q].store.queue == before[q].store.queue + if q == s.queue then [s.message] else []
  }

  lemma GrownOn(start: map<string, QueueState>, before: map<string, QueueState>, after: map<string, QueueState>, sent: seq<Sent>, s: Sent)
    requires Grown(start, before, sent) && OneMore(before, after, s)
    ensures Grown(start, after, sent + [s])
  {
    forall q | q in after ensures after[q].store.queue == start[q].store.queue + SentTo(sent + [s], q) {
      SentSnoc(sent, s);
    }
  }

  lemma GrownSnoc(start: map<string, QueueState>, c: BrokerState, sent: seq<Sent>, s: Sent)
    requires Grown(start, c.queues, sent) && AllBounded(c.queues) && Open(c, s.queue, s.wasAsleep)
    ensures Grown(start, Next(c, Publication(s)).queues, sent + [s]) && AllBounded(Next(c, Publication(s)).queues)
  {
    PublicationKeys(c, s);
    forall q | q in c.queues
      ensures Bounded(Next(c, Publication(s)).queues[q])
      ensures Next(c, Publication(s)).queues[q].store.queue == c.queues[q].store.queue + if q == s.queue then [s.message] else []
    {
      Arrives(c, s, q);
    }
    GrownOn(start, c.queues, Next(c, Publication(s)).queues, sent, s);
  }

  lemma PublicationKeys(c: BrokerState, s: Sent)
    requires Open(c, s.queue, s.wasAsleep)
    ensures Next(c, Publication(s)).queues.Keys == c.queues.Keys
  {
  }

  lemma Arrives(c: BrokerState, s: Sent, q: string)
    requires Open(c, s.queue, s.wasAsleep) && q in c.queues && Bounded(c.queues[q])
    ensures var t := Next(c, Publication(s)).queues;
            && q in t && Bounded(t[q])
            && t[q].store.queue == c.queues[q].store.queue + if q == s.queue then [s.message] else []
  {
    PublicationEffect(c, s);
  }

  lemma GrownNone(queues: map<string, QueueState>)
    ensures Grown(queues, queues, [])
  {
  }

  /** Where no buffer has been pushed past its capacity, a fan-out adds to each queue exactly what it sends there, in order. */
  lemma {:induction false} FannedGrows(b: BrokerState, sent: seq<Sent>)
    requires CanSend(b, sent) && AllBounded(b.queues)
    ensures Grown(b.queues, Fanned(b, sent).queues, sent) && AllBounded(Fanned(b, sent).queues)
    decreases |sent|
  {
    hide Next, Grown, AllBounded;
    if sent == [] {
      GrownNone(b.queues);
    } else {
      var init, last := sent[..|sent| - 1], sent[|sent| - 1];
      FannedGrows(b, init);
      assert sent == init + [last];
      GrownSnoc(b.queues, Fanned(b, init), init, last);
    }
  }

  /** A publish that sent every copy gives each queue, at its tail, as many as it has bindings that match. */
  lemma CopiesMatchBindings(b: BrokerState, exchange: string, routingKey: string, sent: seq<Sent>, q: string)
    requires AllBounded(b.queues) && BrokerTopology.TopologyOk(b) && exchange in b.exchanges && CanSend(b, sent)
    requires Targets(sent) == Exchange.Routes(b.exchanges[exchange].exchangeType, b.exchanges[exchange].bindings, routingKey)
    ensures |SentTo(sent, q)| ==
            |Exchange.Matching(b.exchanges[exchange].exchangeType, b.exchanges[exchange].bindings, routingKey, q)|
    ensures SentTo(sent, q) != [] ==> q in b.queues
    ensures q in b.queues ==>
              q in Fanned(b, sent).queues && Fanned(b, sent).queues[q].store.queue == b.queues[q].store.queue + SentTo(sent, q)
  {
    SentToCount(sent, q);
    BrokerRuns.RoutesReachQueues(b, exchange, routingKey, q);
    FannedGrows(b, sent);
  }
}
