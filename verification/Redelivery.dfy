/** The bound on redeliveries. */
module Redelivery {
  import opened Types
  import opened Sequences
  import opened Delivery
  import opened Recovery
  import opened Conservation

  /** Redeliveries a message may still get. */
  function Allowance(m: Message, maxRetries: int): nat {
    if m.retry < maxRetries then maxRetries - m.retry else 0
  }

  function Budget(messages: seq<Message>, maxRetries: int): nat {
    if messages == [] then 0 else Allowance(messages[0], maxRetries) + Budget(messages[1..], maxRetries)
  }

  lemma {:induction false} BudgetConcat(a: seq<Message>, b: seq<Message>, maxRetries: int)
    ensures Budget(a + b, maxRetries) == Budget(a, maxRetries) + Budget(b, maxRetries)
  {
    if a == [] {
      assert a + b == b;
    } else {
      assert (a + b)[1..] == a[1..] + b;
      BudgetConcat(a[1..], b, maxRetries);
    }
  }

  lemma BudgetRemoveAt(messages: seq<Message>, i: nat, maxRetries: int)
    requires i < |messages|
    ensures Budget(messages, maxRetries) == Budget(RemoveAt(messages, i), maxRetries) + Allowance(messages[i], maxRetries)
  {
    var tail := messages[i + 1..];
    assert messages == messages[..i] + ([messages[i]] + tail);
    BudgetConcat(messages[..i], [messages[i]] + tail, maxRetries);
    BudgetConcat([messages[i]], tail, maxRetries);
    BudgetConcat(messages[..i], tail, maxRetries);
  }

  lemma BudgetSnoc(messages: seq<Message>, m: Message, maxRetries: int)
    ensures Budget(messages + [m], maxRetries) == Budget(messages, maxRetries) + Allowance(m, maxRetries)
  {
    BudgetConcat(messages, [m], maxRetries);
  }

  /**
    Every redelivery allowed to an accepted message has been made, is still allowed, or was left unused
    when the message was acked or dead-lettered.
   */
  ghost predicate Accounted(st: Store, maxRetries: int) {
    st.redeliveredCount + Budget(Live(st), maxRetries) + Budget(st.acked, maxRetries) + Budget(st.dead, maxRetries)
    == Budget(st.accepted, maxRetries)
  }

  /** How a move changes the budget of the live messages: a requeue spends one unit, and the rest comes in or goes out with a message. */
  function BudgetChange(live: seq<Message>, n: nat, mv: Move, maxRetries: int): int
    requires mv.AckAt? || mv.BuryAt? ==> mv.i < |live|
    requires mv.BuryHead? ==> n < |live|
  {
    match mv
    case Accept(m) => Allowance(m, maxRetries)
    case AckAt(i) => 0 - Allowance(live[i], maxRetries)
    case BuryAt(i) => 0 - Allowance(live[i], maxRetries)
    case BuryHead => 0 - Allowance(live[n], maxRetries)
    case RequeueAt(_) => -1
    case _ => 0
  }

  lemma BudgetAfter(live: seq<Message>, n: nat, mv: Move, maxRetries: int)
    requires mv.AckAt? || mv.GiveBack? || mv.BuryAt? || mv.RequeueAt? ==> mv.i < |live|
    requires mv.BuryHead? ==> n < |live|
    requires mv.GiveBack? ==> mv.delivery.message == live[mv.i]
    requires mv.RequeueAt? ==> live[mv.i].retry < maxRetries
    requires !mv.PushBack?
    ensures Budget(LiveAfter(live, n, mv), maxRetries) == Budget(live, maxRetries) + BudgetChange(live, n, mv, maxRetries)
  {
    match mv
    case Accept(m) => BudgetSnoc(live, m, maxRetries);
    case BuryHead => BudgetRemoveAt(live, n, maxRetries);
    case AckAt(i) => BudgetRemoveAt(live, i, maxRetries);
    case BuryAt(i) => BudgetRemoveAt(live, i, maxRetries);
    case GiveBack(i, d) =>
      BudgetRemoveAt(live, i, maxRetries);
      BudgetSnoc(RemoveAt(live, i), live[i], maxRetries);
    case RequeueAt(i) =>
      BudgetRemoveAt(live, i, maxRetries);
      BudgetSnoc(RemoveAt(live, i), Retried(live[i]), maxRetries);
    case _ =>
  }

  /** Every safe move keeps the account, for any limit and any published retry count. */
  lemma AccountedShift(st: Store, mv: Move, maxRetries: int)
    requires Accounted(st, maxRetries) && Possible(st, mv) && SafeMove(st, mv, maxRetries)
    ensures Accounted(Shift(st, mv), maxRetries)
  {
    LiveShift(st, mv);
    BudgetAfter(Live(st), |st.inflight|, mv, maxRetries);
    match mv
    case Accept(m) => BudgetSnoc(st.accepted, m, maxRetries);
    case AckAt(i) => BudgetSnoc(st.acked, st.inflight[i].message, maxRetries);
    case BuryAt(i) => BudgetSnoc(st.dead, st.inflight[i].message, maxRetries);
    case BuryHead => BudgetSnoc(st.dead, st.queue[0], maxRetries);
    case _ =>
  }

  lemma {:induction false} AccountedRun(s: QueueState, steps: seq<Step>)
    requires Shape(s) && Bounded(s) && Accounted(s.store, s.cfg.maxRetries) && IsRun(s, steps) && OrderlyRun(s, steps)
    ensures Accounted(After(s, steps).store, s.cfg.maxRetries)
    decreases |steps|
  {
    if steps != [] {
      ShapeStep(s, steps[0]);
      BoundedStep(s, steps[0]);
      SafeMoveOf(s, steps[0]);
      AccountedShift(s.store, MoveOf(s, steps[0]), s.cfg.maxRetries);
      AccountedRun(Apply(s, steps[0]), steps[1..]);
    }
  }

  /** In every run from a fresh or recovered queue, whatever retry counts clients publish, redeliveries stay within what the accepted messages allow. */
  lemma RedeliveriesAccounted(name: string, cfg: Config, capacity: nat, messages: seq<Message>, steps: seq<Step>)
    requires |messages| <= capacity
    requires IsRun(Start(name, cfg, capacity, messages), steps)
    requires OrderlyRun(Start(name, cfg, capacity, messages), steps)
    ensures
      var st := After(Start(name, cfg, capacity, messages), steps).store;
      && Accounted(st, cfg.maxRetries)
      && st.redeliveredCount + Budget(Live(st), cfg.maxRetries) <= Budget(st.accepted, cfg.maxRetries)
  {
    StartShape(name, cfg, capacity, messages);
    assert Live(EmptyStore(capacity, messages)) == messages;
    AccountedRun(Start(name, cfg, capacity, messages), steps);
  }

  // ---------------------------------------------------------------- the bound by the number of messages

  /** Redeliveries made plus redeliveries still allowed are at most `maxRetries` for each accepted message. */
  ghost predicate RedeliveryBound(st: Store, maxRetries: int) {
    st.redeliveredCount + Budget(Live(st), maxRetries) <= maxRetries * st.producedCount
  }

  /** (D) for messages. */
  predicate AllNonNegative(messages: seq<Message>) {
    forall i :: 0 <= i < |messages| ==> messages[i].retry >= 0
  }

  predicate NonNegativeRun(steps: seq<Step>) {
    forall i :: 0 <= i < |steps| && steps[i].Publish? ==> steps[i].message.retry >= 0
  }

  lemma {:induction false} BudgetWithin(messages: seq<Message>, maxRetries: int)
    requires maxRetries >= 0 && AllNonNegative(messages)
    ensures Budget(messages, maxRetries) <= maxRetries * |messages|
  {
    if messages != [] {
      BudgetWithin(messages[1..], maxRetries);
      assert maxRetries * |messages| == maxRetries + maxRetries * |messages[1..]|;
    }
  }

  lemma {:induction false} AcceptedNonNegative(s: QueueState, steps: seq<Step>)
    requires AllNonNegative(s.store.accepted) && IsRun(s, steps) && NonNegativeRun(steps)
    ensures AllNonNegative(After(s, steps).store.accepted)
    decreases |steps|
  {
    if steps != [] {
      AcceptedNonNegative(Apply(s, steps[0]), steps[1..]);
    }
  }

  /** Under (D), in every run, redeliveries are bounded by the limit times the number of messages, and no live retry count is negative. */
  lemma RedeliveriesBounded(name: string, cfg: Config, capacity: nat, messages: seq<Message>, steps: seq<Step>)
    requires |messages| <= capacity && cfg.maxRetries >= 0 && AllNonNegative(messages) && NonNegativeRun(steps)
    requires IsRun(Start(name, cfg, capacity, messages), steps)
    requires OrderlyRun(Start(name, cfg, capacity, messages), steps)
    ensures
      var st := After(Start(name, cfg, capacity, messages), steps).store;
      RedeliveryBound(st, cfg.maxRetries) && AllNonNegative(Live(st))
  {
    var s := Start(name, cfg, capacity, messages);
    var st := After(s, steps).store;
    RedeliveriesAccounted(name, cfg, capacity, messages, steps);
    AcceptedNonNegative(s, steps);
    BudgetWithin(st.accepted, cfg.maxRetries);
    SoundStart(name, cfg, capacity, messages);
    SoundRun(s, steps);
    forall i | 0 <= i < |Live(st)| ensures Live(st)[i].retry >= 0 {
      assert Live(st)[i] in Live(st) && HasOrigin(st, Live(st)[i], cfg.maxRetries);
    }
  }

  /** And (D) is what it takes: a first publish meets the bound exactly when neither its retry count nor the limit is negative. */
  lemma FirstPublishBoundIff(name: string, cfg: Config, capacity: nat, m: Message)
    requires capacity > 0
    ensures RedeliveryBound(Apply(Start(name, cfg, capacity, []), Publish(false, m, true)).store, cfg.maxRetries) <==>
            cfg.maxRetries >= 0 && m.retry >= 0
  {
    var st := Apply(Start(name, cfg, capacity, []), Publish(false, m, true)).store;
    assert st.queue == [m] && Live(st) == [m];
    assert Budget([m], cfg.maxRetries) == Allowance(m, cfg.maxRetries);
  }
}
