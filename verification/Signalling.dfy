/** No lost wakeups: the distributor's one-slot channel and the publishers' condition variable. */
module Signalling {
  import opened Types
  import opened RoundRobin
  import opened Delivery

  // ---------------------------------------------------------------- the distributor

  /** A parked distributor with nothing in its channel has nothing it could deliver. */
  ghost predicate NoLostWakeup(s: QueueState) {
    s.distributor.Parked? && !s.notify ==> s.store.queue == [] || !AnyEligible(s)
  }

  /**
    The two ways a wakeup is lost: a retry-exhausted delivery frees the last unit of a consumer's
    prefetch allowance while work is waiting, and a failed append in the expiry sweep parks the
    distributor in front of a queue it could still serve.
   */
  predicate LosesWakeup(s: QueueState, a: Step)
    requires Enabled(s, a)
  {
    match a
    case TimeOut(token, _, _) =>
      var e := s.store.inflight[IndexOf(s.store.inflight, token)];
      && MoveOf(s, a).BuryAt?
      && s.distributor.Parked? && !s.notify && s.store.queue != []
      && e.consumer in s.unacked && s.unacked[e.consumer] == s.cfg.prefetch
    case Park(_, appendFailed) => appendFailed && !s.notify && AnyEligible(s)
    case _ => false
  }

  lemma EligibleId(s: QueueState, id: string)
    requires Shape(s) && Eligible(s.unacked, s.cfg.prefetch, id)
    ensures AnyEligible(s)
  {
    assert id in s.order;
  }

  /** A move that does not notify leaves nobody eligible who was not, except by freeing a full consumer. */
  lemma QuietMove(s: QueueState, mv: Move)
    requires Shape(s) && Possible(s.store, mv) && !Notifies(mv) && !mv.ReserveHead?
    requires AnyEligible(Settle(s, mv)) && !AnyEligible(s)
    ensures mv.BuryAt?
    ensures s.store.inflight[mv.i].consumer in s.unacked
    ensures s.unacked[s.store.inflight[mv.i].consumer] == s.cfg.prefetch
  {
    var t := Settle(s, mv);
    var i :| 0 <= i < |t.order| && Eligible(t.unacked, t.cfg.prefetch, t.order[i]);
    assert !Eligible(s.unacked, s.cfg.prefetch, s.order[i]);
  }

  lemma ExhaustedIff(s: QueueState, a: Step)
    requires Shape(s) && NoLostWakeup(s) && Enabled(s, a) && a.TimeOut?
    ensures NoLostWakeup(Apply(s, a)) <==> !LosesWakeup(s, a)
  {
    var mv := MoveOf(s, a);
    var r := Apply(s, a);
    assert r == Settle(s, mv);
    if !Notifies(mv) && s.distributor.Parked? && !s.notify && s.store.queue != [] {
      assert !AnyEligible(s);
      if AnyEligible(r) {
        QuietMove(s, mv);
      } else if LosesWakeup(s, a) {
        var id := s.store.inflight[mv.i].consumer;
        assert id in s.order;
        assert Eligible(r.unacked, r.cfg.prefetch, id);
        assert false;
      }
    }
  }

  lemma SessionStepQuiet(s: QueueState, a: Step)
    requires Shape(s) && Enabled(s, a)
    requires a.Unsubscribe? || a.CloseIfEmpty? || a.Shutdown?
    requires AnyEligible(Apply(s, a))
    ensures AnyEligible(s)
  {
    var r := Apply(s, a);
    var i :| 0 <= i < |r.order| && Eligible(r.unacked, r.cfg.prefetch, r.order[i]);
    EligibleId(s, r.order[i]);
  }

  lemma SessionStepKeeps(s: QueueState, a: Step)
    requires Shape(s) && NoLostWakeup(s) && Enabled(s, a)
    requires a.Unsubscribe? || a.CloseIfEmpty? || a.Shutdown?
    ensures NoLostWakeup(Apply(s, a))
  {
    if AnyEligible(Apply(s, a)) {
      SessionStepQuiet(s, a);
    }
  }

  lemma OtherStepKeeps(s: QueueState, a: Step)
    requires NoLostWakeup(s) && Enabled(s, a)
    requires !(a.TimeOut? || a.Unsubscribe? || a.CloseIfEmpty? || a.Shutdown? || a.Park?)
    ensures NoLostWakeup(Apply(s, a))
  {
  }

  /** Every step keeps the property exactly when it is not one of the two that lose a wakeup. */
  lemma NoLostWakeupIff(s: QueueState, a: Step)
    requires Shape(s) && NoLostWakeup(s) && Enabled(s, a)
    ensures NoLostWakeup(Apply(s, a)) <==> !LosesWakeup(s, a)
  {
    if a.TimeOut? {
      ExhaustedIff(s, a);
    } else if a.Unsubscribe? || a.CloseIfEmpty? || a.Shutdown? {
      SessionStepKeeps(s, a);
    } else if !a.Park? {
      OtherStepKeeps(s, a);
    }
  }

  predicate NoLossRun(s: QueueState, steps: seq<Step>)
    requires IsRun(s, steps)
    decreases |steps|
  {
    steps == [] || (!LosesWakeup(s, steps[0]) && NoLossRun(Apply(s, steps[0]), steps[1..]))
  }

  lemma {:induction false} WakeupRun(s: QueueState, steps: seq<Step>)
    requires Shape(s) && NoLostWakeup(s) && IsRun(s, steps) && FreshTokens(s, steps) && NoLossRun(s, steps)
    ensures NoLostWakeup(After(s, steps))
    decreases |steps|
  {
    if steps != [] {
      ShapeStep(s, steps[0]);
      NoLostWakeupIff(s, steps[0]);
      WakeupRun(Apply(s, steps[0]), steps[1..]);
    }
  }

  /** From a fresh or recovered queue, a parked and unnotified distributor never faces work it could do. */
  lemma DistributorNeverSleepsOnWork(name: string, cfg: Config, capacity: nat, messages: seq<Message>, steps: seq<Step>)
    requires |messages| <= capacity
    requires IsRun(Start(name, cfg, capacity, messages), steps)
    requires FreshTokens(Start(name, cfg, capacity, messages), steps)
    requires NoLossRun(Start(name, cfg, capacity, messages), steps)
    ensures NoLostWakeup(After(Start(name, cfg, capacity, messages), steps))
  {
    StartShape(name, cfg, capacity, messages);
    WakeupRun(Start(name, cfg, capacity, messages), steps);
  }

  // ---------------------------------------------------------------- publishers

  /** While a publisher sleeps, every free slot is spoken for by a publisher already signalled; a closed queue has no sleepers. */
  ghost predicate Unstranded(s: QueueState) {
    && (s.closed ==> s.sleeping == 0)
    && (!s.closed && s.sleeping > 0 ==> s.store.capacity - |s.store.queue| <= s.woken)
  }

  /** A signalled publisher whose append fails leaves without using, or passing on, the slot it was signalled for. */
  predicate Strands(s: QueueState, a: Step) {
    && a.Publish? && a.wasAsleep && !a.appended
    && !s.closed && !Full(s) && s.sleeping > 0 && s.store.capacity - |s.store.queue| == s.woken
  }

  lemma SlotsAfter(st: Store, mv: Move)
    requires Possible(st, mv)
    ensures |Shift(st, mv).queue| >= |st.queue| - if mv.ReserveHead? || mv.BuryHead? then 1 else 0
    ensures |Shift(st, mv).queue| == |st.queue| + 1 <==> mv.Accept? || mv.GiveBack? || mv.PushBack? || mv.RequeueAt?
  {
  }

  lemma UnstrandedIff(s: QueueState, a: Step)
    requires Shape(s) && Unstranded(s) && Enabled(s, a)
    ensures Unstranded(Apply(s, a)) <==> !Strands(s, a)
  {
    SlotsAfter(s.store, MoveOf(s, a));
  }

  predicate NoStrandRun(s: QueueState, steps: seq<Step>)
    requires IsRun(s, steps)
    decreases |steps|
  {
    steps == [] || (!Strands(s, steps[0]) && NoStrandRun(Apply(s, steps[0]), steps[1..]))
  }

  lemma {:induction false} UnstrandedRun(s: QueueState, steps: seq<Step>)
    requires Shape(s) && Unstranded(s) && IsRun(s, steps) && FreshTokens(s, steps) && NoStrandRun(s, steps)
    ensures Unstranded(After(s, steps))
    decreases |steps|
  {
    if steps != [] {
      ShapeStep(s, steps[0]);
      UnstrandedIff(s, steps[0]);
      UnstrandedRun(Apply(s, steps[0]), steps[1..]);
    }
  }

  lemma PublishersNeverStranded(name: string, cfg: Config, capacity: nat, messages: seq<Message>, steps: seq<Step>)
    requires |messages| <= capacity
    requires IsRun(Start(name, cfg, capacity, messages), steps)
    requires FreshTokens(Start(name, cfg, capacity, messages), steps)
    requires NoStrandRun(Start(name, cfg, capacity, messages), steps)
    ensures Unstranded(After(Start(name, cfg, capacity, messages), steps))
  {
    StartShape(name, cfg, capacity, messages);
    UnstrandedRun(Start(name, cfg, capacity, messages), steps);
  }
}
