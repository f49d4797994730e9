/** Each queue of a broker run as a run of the delivery machine, so that what holds of every queue run holds of every queue of the broker. */
module BrokerLives {
  import opened Types
  import opened Delivery
  import opened Broker
  import opened BrokerTokens
  import BrokerQueues
  import Conservation
  import Prefetch
  import Redelivery
  import Signalling
  import Wal

  /** What a queue was started with, at its creation or the last start of the broker, and the steps it has taken since. */
  datatype Life = Life(messages: seq<Message>, steps: seq<Step>)

  function Born(q: string, cfg: Config, life: Life): QueueState {
    NewQueue(q, cfg, life.messages)
  }

  ghost predicate Lived(q: string, cfg: Config, life: Life, s: QueueState) {
    IsRun(Born(q, cfg, life), life.steps) && After(Born(q, cfg, life), life.steps) == s
  }

  /** `lives` tells how each queue of the broker came to be as it is. */
  ghost predicate LivesOk(b: BrokerState, lives: map<string, Life>) {
    LivesIn(b.queues, b.cfg, lives)
  }

  ghost predicate LivesIn(queues: map<string, QueueState>, cfg: Config, lives: map<string, Life>) {
    lives.Keys == queues.Keys && forall q :: q in queues ==> Lived(q, cfg, lives[q], queues[q])
  }

  function Grow(life: Life, step: Step): Life {
    life.(steps := life.steps + [step])
  }

  ghost function NextLives(b: BrokerState, a: BrokerStep, lives: map<string, Life>): map<string, Life>
    requires LivesOk(b, lives) && CanStep(b, a)
  {
    match a
    case AtQueue(q, step) => lives[q := Grow(lives[q], step)]
    case CreateQueue(name, appended) => if QueueCreatable(b, name) && appended then lives[name := Life([], [])] else lives
    case DeleteQueue(name, appended, _) =>
      if !QueueDeletable(b, name) then lives
      else if appended then lives - {name}
      else lives[name := Grow(lives[name], CloseIfEmpty)]
    case InterruptDelete(name, _, _) => if QueueDeletable(b, name) then lives - {name} else lives
    case Restart(_) => map q | q in Wal.Replay(b.log).pending.Keys + {DEFAULT_QUEUE} :: Life(Wal.MessagesOf(Wal.Replay(b.log).pending, q), [])
    case _ => lives
  }

  lemma LivedOn(q: string, cfg: Config, life: Life, s: QueueState, step: Step)
    requires Lived(q, cfg, life, s) && Enabled(s, step)
    ensures Lived(q, cfg, Grow(life, step), Apply(s, step))
  {
    RunSnoc(Born(q, cfg, life), life.steps, step);
  }

  lemma ClosedByStep(s: QueueState)
    requires s.store.queue == [] && s.store.inflight == []
    ensures Apply(s, CloseIfEmpty) == CloseAll(s)
  {
  }

  lemma LivesAtQueue(queues: map<string, QueueState>, cfg: Config, lives: map<string, Life>, q: string, step: Step)
    requires LivesIn(queues, cfg, lives) && q in queues && Enabled(queues[q], step)
    ensures LivesIn(queues[q := Apply(queues[q], step)], cfg, lives[q := Grow(lives[q], step)])
  {
    LivedOn(q, cfg, lives[q], queues[q], step);
  }

  lemma LivesCreated(queues: map<string, QueueState>, cfg: Config, lives: map<string, Life>, q: string)
    requires LivesIn(queues, cfg, lives)
    ensures LivesIn(queues[q := NewQueue(q, cfg, [])], cfg, lives[q := Life([], [])])
  {
  }

  lemma LivesDeleted(queues: map<string, QueueState>, cfg: Config, lives: map<string, Life>, q: string)
    requires LivesIn(queues, cfg, lives)
    ensures LivesIn(queues - {q}, cfg, lives - {q})
  {
  }

  lemma LivesBooted(cfg: Config, pending: map<string, seq<Message>>)
    ensures LivesIn(RecoveredQueues(cfg, pending), cfg,
                    map q | q in pending.Keys + {DEFAULT_QUEUE} :: Life(Wal.MessagesOf(pending, q), []))
  {
  }

  lemma LivesUnchanged(b: BrokerState, a: BrokerStep, lives: map<string, Life>)
    requires LivesOk(b, lives) && CanStep(b, a)
    requires BrokerQueues.TouchesNoQueue(a) || a.AtDetached?
    ensures Next(b, a).queues == b.queues && NextLives(b, a, lives) == lives
  {
    if a.AtDetached? {
      BrokerQueues.DetachedStep(b, a.index, a.step);
    } else {
      BrokerQueues.OtherQueues(b, a);
    }
  }

  lemma ConfigStays(b: BrokerState, a: BrokerStep)
    requires CanStep(b, a)
    ensures Next(b, a).cfg == b.cfg
  {
  }

  lemma LivesQueueSteps(b: BrokerState, a: BrokerStep, lives: map<string, Life>)
    requires LivesOk(b, lives) && CanStep(b, a) && (a.CreateQueue? || a.DeleteQueue? || a.InterruptDelete?)
    ensures LivesOk(Next(b, a), NextLives(b, a, lives))
  {
    if a.CreateQueue? {
      LivesCreated(b.queues, b.cfg, lives, a.name);
    } else {
      LivesDeleted(b.queues, b.cfg, lives, a.name);
      if QueueDeletable(b, a.name) {
        ClosedByStep(b.queues[a.name]);
        LivesAtQueue(b.queues, b.cfg, lives, a.name, CloseIfEmpty);
      }
    }
  }

  /** Every step of the broker extends the life of the queue it is about, and of no other. */
  lemma LivesStep(b: BrokerState, a: BrokerStep, lives: map<string, Life>)
    requires LivesOk(b, lives) && CanStep(b, a)
    ensures LivesOk(Next(b, a), NextLives(b, a, lives))
  {
    if a.AtQueue? {
      LivesAtQueue(b.queues, b.cfg, lives, a.queue, a.step);
    } else if a.Restart? {
      LivesBooted(b.cfg, Wal.Replay(b.log).pending);
    } else if a.CreateQueue? || a.DeleteQueue? || a.InterruptDelete? {
      LivesQueueSteps(b, a, lives);
    } else {
      ConfigStays(b, a);
      LivesUnchanged(b, a, lives);
    }
  }

  ghost function LivesAfter(b: BrokerState, steps: seq<BrokerStep>, lives: map<string, Life>): (r: map<string, Life>)
    requires LivesOk(b, lives) && IsBrokerRun(b, steps)
    ensures LivesOk(AfterAll(b, steps), r)
    decreases |steps|
  {
    if steps == [] then lives
    else
      LivesStep(b, steps[0], lives);
      LivesAfter(Next(b, steps[0]), steps[1..], NextLives(b, steps[0], lives))
  }

  ghost function FirstLives(cfg: Config, log: seq<Record>, visiting: seq<string>): (r: map<string, Life>)
    requires Visits(visiting, Wal.Replay(log).exchanges)
    ensures LivesOk(Boot(cfg, log, visiting, map[]), r)
  {
    map q | q in Wal.Replay(log).pending.Keys + {DEFAULT_QUEUE} :: Life(Wal.MessagesOf(Wal.Replay(log).pending, q), [])
  }

  // ---------------------------------------------------------------- lives under the standing assumptions

  /** Every token of the life was fresh when it was drawn, and if `safe` is set every cancellation was safe. */
  ghost predicate Proper(q: string, cfg: Config, life: Life, safe: bool) {
    && IsRun(Born(q, cfg, life), life.steps) && FreshTokens(Born(q, cfg, life), life.steps)
    && (safe ==> OrderlyRun(Born(q, cfg, life), life.steps))
  }

  ghost predicate AllProper(cfg: Config, lives: map<string, Life>, safe: bool) {
    forall q :: q in lives ==> Proper(q, cfg, lives[q], safe)
  }

  lemma ProperOn(q: string, cfg: Config, life: Life, s: QueueState, step: Step, safe: bool)
    requires Lived(q, cfg, life, s) && Proper(q, cfg, life, safe)
    requires Enabled(s, step) && FreshToken(s, step) && (safe ==> SafeCancel(s, step))
    ensures Proper(q, cfg, Grow(life, step), safe)
  {
    RunSnoc(Born(q, cfg, life), life.steps, step);
    FreshTokensSnoc(Born(q, cfg, life), life.steps, step);
    if safe {
      OrderlySnoc(Born(q, cfg, life), life.steps, step);
    }
  }

  /** A token never issued before is in flight in no queue. */
  lemma FreshHere(b: BrokerState, q: string, step: Step)
    requires TokensOk(b) && CanStep(b, AtQueue(q, step)) && DrawsFresh(b, AtQueue(q, step))
    ensures FreshToken(b.queues[q], step)
  {
    if step.Reserve? {
      assert TokenOk(b, step.token, q);
    }
  }

  lemma ProperStep(b: BrokerState, a: BrokerStep, lives: map<string, Life>, safe: bool)
    requires LivesOk(b, lives) && AllProper(b.cfg, lives, safe) && TokensOk(b)
    requires CanStep(b, a) && DrawsFresh(b, a) && (safe ==> CancelsSafely(b, a))
    ensures AllProper(b.cfg, NextLives(b, a, lives), safe)
  {
    if a.AtQueue? {
      FreshHere(b, a.queue, a.step);
      ProperOn(a.queue, b.cfg, lives[a.queue], b.queues[a.queue], a.step, safe);
    } else if a.DeleteQueue? && QueueDeletable(b, a.name) {
      ProperOn(a.name, b.cfg, lives[a.name], b.queues[a.name], CloseIfEmpty, safe);
    }
  }

  lemma {:induction false} ProperRun(b: BrokerState, steps: seq<BrokerStep>, lives: map<string, Life>, safe: bool)
    requires LivesOk(b, lives) && AllProper(b.cfg, lives, safe) && TokensOk(b)
    requires IsBrokerRun(b, steps) && DrawsFreshSteps(b, steps) && (safe ==> CancelsSafelySteps(b, steps))
    ensures AllProper(b.cfg, LivesAfter(b, steps, lives), safe)
    decreases |steps|
  {
    if steps != [] {
      LivesStep(b, steps[0], lives);
      ProperStep(b, steps[0], lives, safe);
      TokensStep(b, steps[0]);
      ConfigStays(b, steps[0]);
      ProperRun(Next(b, steps[0]), steps[1..], NextLives(b, steps[0], lives), safe);
    }
  }

  lemma {:induction false} ConfigRun(b: BrokerState, steps: seq<BrokerStep>)
    requires IsBrokerRun(b, steps)
    ensures AfterAll(b, steps).cfg == b.cfg
    decreases |steps|
  {
    if steps != [] {
      ConfigStays(b, steps[0]);
      ConfigRun(Next(b, steps[0]), steps[1..]);
    }
  }

  /** The life of queue `q` at the end of a run from a start. */
  ghost function LifeOf(cfg: Config, log: seq<Record>, visiting: seq<string>, steps: seq<BrokerStep>, q: string): Life
    requires Visits(visiting, Wal.Replay(log).exchanges) && IsBrokerRun(Boot(cfg, log, visiting, map[]), steps)
    requires q in AfterAll(Boot(cfg, log, visiting, map[]), steps).queues
  {
    LivesAfter(Boot(cfg, log, visiting, map[]), steps, FirstLives(cfg, log, visiting))[q]
  }

  /**
    Every queue of every broker run, across restarts, is a queue of the delivery machine run from its creation or the last start:
    with fresh tokens if the broker draws fresh ones, and with safe cancellations if the broker's are.
   */
  lemma QueueIsRun(cfg: Config, log: seq<Record>, visiting: seq<string>, steps: seq<BrokerStep>, q: string, safe: bool)
    requires Visits(visiting, Wal.Replay(log).exchanges) && IsBrokerRun(Boot(cfg, log, visiting, map[]), steps)
    requires DrawsFreshSteps(Boot(cfg, log, visiting, map[]), steps)
    requires safe ==> CancelsSafelySteps(Boot(cfg, log, visiting, map[]), steps)
    requires q in AfterAll(Boot(cfg, log, visiting, map[]), steps).queues
    ensures
      var s, life := AfterAll(Boot(cfg, log, visiting, map[]), steps).queues[q], LifeOf(cfg, log, visiting, steps, q);
      Lived(q, cfg, life, s) && Proper(q, cfg, life, safe)
  {
    var b := Boot(cfg, log, visiting, map[]);
    BootTokens(cfg, log, visiting, map[]);
    ConfigRun(b, steps);
    ProperRun(b, steps, FirstLives(cfg, log, visiting), safe);
  }

  // ---------------------------------------------------------------- the queue results in the broker

  /** Conservation and the account of redeliveries, in every queue of every broker run under (B) and fresh tokens. */
  lemma QueuesConserve(cfg: Config, log: seq<Record>, visiting: seq<string>, steps: seq<BrokerStep>, q: string)
    requires Visits(visiting, Wal.Replay(log).exchanges) && IsBrokerRun(Boot(cfg, log, visiting, map[]), steps)
    requires DrawsFreshSteps(Boot(cfg, log, visiting, map[]), steps) && CancelsSafelySteps(Boot(cfg, log, visiting, map[]), steps)
    requires q in AfterAll(Boot(cfg, log, visiting, map[]), steps).queues
    ensures
      var s := AfterAll(Boot(cfg, log, visiting, map[]), steps).queues[q];
      Conservation.Sound(s) && Redelivery.Accounted(s.store, cfg.maxRetries)
  {
    QueueIsRun(cfg, log, visiting, steps, q, true);
    var life := LifeOf(cfg, log, visiting, steps, q);
    Conservation.SoundStart(q, cfg, Capacity(cfg, life.messages), life.messages);
    Conservation.SoundRun(Born(q, cfg, life), life.steps);
    Redelivery.RedeliveriesAccounted(q, cfg, Capacity(cfg, life.messages), life.messages, life.steps);
  }

  /** The prefetch limit, in every queue of every broker run with fresh tokens, if no session id was reused over its deliveries. */
  lemma QueuesPrefetch(cfg: Config, log: seq<Record>, visiting: seq<string>, steps: seq<BrokerStep>, q: string, id: string)
    requires Visits(visiting, Wal.Replay(log).exchanges) && IsBrokerRun(Boot(cfg, log, visiting, map[]), steps)
    requires DrawsFreshSteps(Boot(cfg, log, visiting, map[]), steps) && cfg.prefetch >= 0
    requires q in AfterAll(Boot(cfg, log, visiting, map[]), steps).queues
    requires var life := LifeOf(cfg, log, visiting, steps, q);
             IsRun(Born(q, cfg, life), life.steps) && Prefetch.TidyRun(Born(q, cfg, life), life.steps)
    ensures Prefetch.HeldBy(AfterAll(Boot(cfg, log, visiting, map[]), steps).queues[q].store.inflight, id) <= cfg.prefetch
  {
    QueueIsRun(cfg, log, visiting, steps, q, false);
    var life := LifeOf(cfg, log, visiting, steps, q);
    Prefetch.PrefetchLimit(q, cfg, Capacity(cfg, life.messages), life.messages, life.steps, id);
  }

  /** No distributor of a broker run sleeps on work, unless its queue took one of the two steps that lose a wakeup. */
  lemma QueuesAwake(cfg: Config, log: seq<Record>, visiting: seq<string>, steps: seq<BrokerStep>, q: string)
    requires Visits(visiting, Wal.Replay(log).exchanges) && IsBrokerRun(Boot(cfg, log, visiting, map[]), steps)
    requires DrawsFreshSteps(Boot(cfg, log, visiting, map[]), steps)
    requires q in AfterAll(Boot(cfg, log, visiting, map[]), steps).queues
    requires var life := LifeOf(cfg, log, visiting, steps, q);
             IsRun(Born(q, cfg, life), life.steps) && Signalling.NoLossRun(Born(q, cfg, life), life.steps)
    ensures Signalling.NoLostWakeup(AfterAll(Boot(cfg, log, visiting, map[]), steps).queues[q])
  {
    QueueIsRun(cfg, log, visiting, steps, q, false);
    var life := LifeOf(cfg, log, visiting, steps, q);
    Signalling.DistributorNeverSleepsOnWork(q, cfg, Capacity(cfg, life.messages), life.messages, life.steps);
  }

  /** No publisher of a broker run is stranded, unless its queue took the step that strands one. */
  lemma QueuesUnstranded(cfg: Config, log: seq<Record>, visiting: seq<string>, steps: seq<BrokerStep>, q: string)
    requires Visits(visiting, Wal.Replay(log).exchanges) && IsBrokerRun(Boot(cfg, log, visiting, map[]), steps)
    requires DrawsFreshSteps(Boot(cfg, log, visiting, map[]), steps)
    requires q in AfterAll(Boot(cfg, log, visiting, map[]), steps).queues
    requires var life := LifeOf(cfg, log, visiting, steps, q);
             IsRun(Born(q, cfg, life), life.steps) && Signalling.NoStrandRun(Born(q, cfg, life), life.steps)
    ensures Signalling.Unstranded(AfterAll(Boot(cfg, log, visiting, map[]), steps).queues[q])
  {
    QueueIsRun(cfg, log, visiting, steps, q, false);
    var life := LifeOf(cfg, log, visiting, steps, q);
    Signalling.PublishersNeverStranded(q, cfg, Capacity(cfg, life.messages), life.messages, life.steps);
  }
}
