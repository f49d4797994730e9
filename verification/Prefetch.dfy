/** The prefetch limit: unacked counters against the in-flight table. */
module Prefetch {
  import opened Types
  import opened Sequences
  import opened Delivery

  /** How many in-flight deliveries carry the consumer's id. */
  function HeldBy(entries: seq<Entry>, id: string): nat {
    if entries == [] then 0
    else (if entries[0].consumer == id then 1 else 0) + HeldBy(entries[1..], id)
  }

  lemma {:induction false} HeldByConcat(a: seq<Entry>, b: seq<Entry>, id: string)
    ensures HeldBy(a + b, id) == HeldBy(a, id) + HeldBy(b, id)
  {
    if a == [] {
      assert a + b == b;
    } else {
      assert (a + b)[1..] == a[1..] + b;
      HeldByConcat(a[1..], b, id);
    }
  }

  lemma HeldByRemoveAt(entries: seq<Entry>, i: nat, id: string)
    requires i < |entries|
    ensures HeldBy(entries, id) ==
            HeldBy(RemoveAt(entries, i), id) + if entries[i].consumer == id then 1 else 0
  {
    var tail := entries[i + 1..];
    assert entries == entries[..i] + ([entries[i]] + tail);
    HeldByConcat(entries[..i], [entries[i]] + tail, id);
    HeldByConcat([entries[i]], tail, id);
    HeldByConcat(entries[..i], tail, id);
  }

  /** The change a move makes to the number of deliveries `id` holds. */
  function Delta(st: Store, mv: Move, id: string): int
    requires Possible(st, mv)
  {
    match mv
    case AckAt(i) => if st.inflight[i].consumer == id then -1 else 0
    case BuryAt(i) => if st.inflight[i].consumer == id then -1 else 0
    case RequeueAt(i) => if st.inflight[i].consumer == id then -1 else 0
    case GiveBack(i, _) => if st.inflight[i].consumer == id then -1 else 0
    case ReserveHead(e) => if e.consumer == id then 1 else 0
    case _ => 0
  }

  lemma HeldByShift(st: Store, mv: Move, id: string)
    requires Possible(st, mv)
    ensures HeldBy(Shift(st, mv).inflight, id) == HeldBy(st.inflight, id) + Delta(st, mv, id)
  {
    if mv.AckAt? || mv.BuryAt? || mv.RequeueAt? || mv.GiveBack? {
      HeldByRemoveAt(st.inflight, mv.i, id);
    } else if mv.ReserveHead? {
      HeldByConcat(st.inflight, [mv.entry], id);
    }
  }

  /** A subscribed session's counter moves with the deliveries it holds. */
  lemma ChargeFollows(unacked: map<string, int>, st: Store, mv: Move, id: string)
    requires Possible(st, mv) && id in unacked
    requires mv.GiveBack? ==> st.inflight[mv.i].consumer == mv.delivery.consumer
    ensures Charge(unacked, st, mv)[id] == unacked[id] + Delta(st, mv, id)
  {
  }

  /** No session's counter exceeds the deliveries in flight under its id. */
  ghost predicate CountsWithin(s: QueueState) {
    forall id :: id in s.unacked ==> s.unacked[id] <= HeldBy(s.store.inflight, id)
  }

  /** Counters are exact, and no id, subscribed or not, holds more than the prefetch limit. */
  ghost predicate PrefetchExact(s: QueueState) {
    forall id :: Within(s, id)
  }

  ghost predicate Within(s: QueueState, id: string) {
    && (id in s.unacked ==> s.unacked[id] == HeldBy(s.store.inflight, id))
    && (HeldBy(s.store.inflight, id) == 0 || HeldBy(s.store.inflight, id) <= s.cfg.prefetch)
  }

  /** A session arrives with nothing charged to it. */
  predicate FreshSession(a: Step) {
    a.Subscribe? ==> a.count == 0
  }

  /** No id is subscribed again while deliveries under it are in flight. */
  predicate NoStaleId(s: QueueState, a: Step) {
    a.Subscribe? && !s.closed && a.id !in s.unacked ==> HeldBy(s.store.inflight, a.id) == 0
  }

  lemma NewCounter(s: QueueState, a: Step, id: string)
    requires Enabled(s, a) && id in Apply(s, a).unacked && id !in s.unacked
    ensures a.Subscribe? && a.id == id && !s.closed && Apply(s, a).unacked[id] == a.count
  {
  }

  /** What a step does to one id's counter. */
  lemma CounterStep(s: QueueState, a: Step, id: string)
    requires Shape(s) && Enabled(s, a) && id in Apply(s, a).unacked
    ensures Apply(s, a).unacked[id] ==
            if id in s.unacked then s.unacked[id] + Delta(s.store, MoveOf(s, a), id) else a.count
    ensures id !in s.unacked ==> a == Subscribe(id, a.count) && !s.closed
  {
    var mv := MoveOf(s, a);
    if id in s.unacked {
      ChargeFollows(s.unacked, s.store, mv, id);
    } else {
      NewCounter(s, a, id);
    }
  }

  lemma CountsWithinStep(s: QueueState, a: Step)
    requires Shape(s) && CountsWithin(s) && Enabled(s, a) && FreshSession(a)
    ensures CountsWithin(Apply(s, a))
  {
    forall id | id in Apply(s, a).unacked
      ensures Apply(s, a).unacked[id] <= HeldBy(Apply(s, a).store.inflight, id)
    {
      CounterStep(s, a, id);
      HeldByShift(s.store, MoveOf(s, a), id);
    }
  }

  lemma ReservesForEligible(s: QueueState, a: Step, id: string)
    requires Shape(s) && Enabled(s, a) && Delta(s.store, MoveOf(s, a), id) == 1
    ensures id in s.unacked && s.unacked[id] < s.cfg.prefetch
  {
  }

  lemma PrefetchExactStep(s: QueueState, a: Step)
    requires Shape(s) && PrefetchExact(s) && Enabled(s, a) && FreshSession(a) && NoStaleId(s, a)
    ensures PrefetchExact(Apply(s, a))
  {
    forall id ensures Within(Apply(s, a), id) {
      assert Within(s, id);
      HeldByShift(s.store, MoveOf(s, a), id);
      if id in Apply(s, a).unacked {
        CounterStep(s, a, id);
      }
      if Delta(s.store, MoveOf(s, a), id) == 1 {
        ReservesForEligible(s, a, id);
      }
    }
  }

  /** Subscribing a fresh session keeps the counters exact just when nothing is in flight under its id. */
  lemma SubscribeExactIff(s: QueueState, id: string)
    requires Shape(s) && PrefetchExact(s) && !s.closed && id !in s.unacked
    ensures PrefetchExact(Apply(s, Subscribe(id, 0))) <==> HeldBy(s.store.inflight, id) == 0
  {
    var r := Apply(s, Subscribe(id, 0));
    if HeldBy(s.store.inflight, id) == 0 {
      PrefetchExactStep(s, Subscribe(id, 0));
    } else {
      assert !Within(r, id);
    }
  }

  // ---------------------------------------------------------------- over runs

  predicate FreshRun(steps: seq<Step>) {
    forall i :: 0 <= i < |steps| ==> FreshSession(steps[i])
  }

  /** In every run of fresh sessions, even with ids subscribed again, no counter exceeds the deliveries under its id. */
  lemma {:induction false} CountsWithinRun(s: QueueState, steps: seq<Step>)
    requires Shape(s) && CountsWithin(s) && IsRun(s, steps) && FreshTokens(s, steps) && FreshRun(steps)
    ensures CountsWithin(After(s, steps))
    decreases |steps|
  {
    if steps != [] {
      ShapeStep(s, steps[0]);
      CountsWithinStep(s, steps[0]);
      CountsWithinRun(Apply(s, steps[0]), steps[1..]);
    }
  }

  predicate TidyRun(s: QueueState, steps: seq<Step>)
    requires IsRun(s, steps)
    decreases |steps|
  {
    steps == [] ||
    (FreshSession(steps[0]) && NoStaleId(s, steps[0]) && TidyRun(Apply(s, steps[0]), steps[1..]))
  }

  lemma {:induction false} PrefetchRun(s: QueueState, steps: seq<Step>)
    requires Shape(s) && PrefetchExact(s) && IsRun(s, steps) && FreshTokens(s, steps) && TidyRun(s, steps)
    ensures PrefetchExact(After(s, steps)) && After(s, steps).cfg == s.cfg
    decreases |steps|
  {
    if steps != [] {
      ShapeStep(s, steps[0]);
      PrefetchExactStep(s, steps[0]);
      PrefetchRun(Apply(s, steps[0]), steps[1..]);
    }
  }

  /** In every run without stale ids, no consumer ever has more than `prefetch` deliveries in flight. */
  lemma PrefetchLimit(name: string, cfg: Config, capacity: nat, messages: seq<Message>, steps: seq<Step>, id: string)
    requires |messages| <= capacity && cfg.prefetch >= 0
    requires IsRun(Start(name, cfg, capacity, messages), steps)
    requires FreshTokens(Start(name, cfg, capacity, messages), steps)
    requires TidyRun(Start(name, cfg, capacity, messages), steps)
    ensures HeldBy(After(Start(name, cfg, capacity, messages), steps).store.inflight, id) <= cfg.prefetch
  {
    var s := Start(name, cfg, capacity, messages);
    StartShape(name, cfg, capacity, messages);
    assert PrefetchExact(s);
    PrefetchRun(s, steps);
    assert Within(After(s, steps), id);
  }
}
