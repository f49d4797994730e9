/** Exchanges and bindings: memory against replay, binding integrity, and restart. */
module BrokerTopology {
  import opened Types
  import opened Sequences
  import opened Delivery
  import opened Broker
  import opened BrokerKnown
  import BrokerQueues
  import Topic
  import Wal

  /** An exchange that passes every check made on the way to it, bound to known queues only and to none twice. */
  ghost predicate WellFormed(e: string, x: ExchangeState, queues: set<string>) {
    && (e == DEFAULT_EXCHANGE || ValidExchangeName(e))
    && ValidExchangeType(x.exchangeType) && BindingsOk(x.bindings, queues)
  }

  /** One exchange's memory `x` against its replay `r`; the default exchange is never in the log's replay. */
  ghost predicate Mirrors(e: string, x: Option<ExchangeState>, r: Option<ExchangeState>, queues: set<string>) {
    && (if e == DEFAULT_EXCHANGE then x.Some? && r.None? else x == r)
    && (x.Some? ==> WellFormed(e, x.value, queues))
  }

  ghost predicate ExchangeAt(exchanges: map<string, ExchangeState>, log: seq<Record>, queues: set<string>, e: string) {
    Mirrors(e, Wal.Lookup(exchanges, e), Wal.ReplayExchange(e, log), queues)
  }

  ghost predicate ExchangeOk(b: BrokerState, e: string) {
    ExchangeAt(b.exchanges, b.log, b.queues.Keys, e)
  }

  ghost predicate TopologyOk(b: BrokerState) {
    forall e :: ExchangeOk(b, e)
  }

  // ---------------------------------------------------------------- bindings

  lemma {:induction false} UnboundDistinct(bindings: seq<Binding>, key: string, queue: string)
    requires Distinct(bindings)
    ensures Distinct(Wal.Unbound(bindings, key, queue))
  {
    if bindings != [] {
      assert bindings == [bindings[0]] + bindings[1..];
      assert bindings[0] !in bindings[1..];
      UnboundDistinct(bindings[1..], key, queue);
    }
  }

  lemma BindingsOkUnbound(bindings: seq<Binding>, key: string, queue: string, queues: set<string>)
    requires BindingsOk(bindings, queues)
    ensures BindingsOk(Wal.Unbound(bindings, key, queue), queues)
    ensures key == "" ==> BindingsOk(Wal.Unbound(bindings, key, queue), queues - {queue})
  {
    UnboundDistinct(bindings, key, queue);
  }

  /** After the unbind records of a deletion, every visited exchange's replay has lost the queue's bindings. */
  lemma {:induction false} ReplayAfterUnbinds(
    e: string, log: seq<Record>, exchanges: map<string, ExchangeState>, visiting: seq<string>, queue: string)
    requires Distinct(visiting) && forall x :: x in visiting ==> x in exchanges
    requires e in visiting && Wal.ReplayExchange(e, log).Some? ==> Wal.ReplayExchange(e, log).value == exchanges[e]
    ensures
      var before := Wal.ReplayExchange(e, log);
      Wal.ReplayExchange(e, log + UnbindRecords(exchanges, visiting, queue)) ==
      if e in visiting && before.Some? then Some(before.value.(bindings := Wal.Unbound(before.value.bindings, "", queue)))
      else before
    decreases |visiting|
  {
    if visiting == [] {
      assert log + UnbindRecords(exchanges, visiting, queue) == log;
    } else {
      var first, rest := visiting[0], visiting[1..];
      var here := UnbindRecord(exchanges[first], first, queue);
      assert first !in rest;
      assert visiting == [first] + rest;
      assert log + UnbindRecords(exchanges, visiting, queue) == (log + here) + UnbindRecords(exchanges, rest, queue);
      if here == [] {
        assert log + here == log;
        Wal.UnboundAbsent(exchanges[first].bindings, "", queue);
      } else {
        Wal.ReplayExchangeSnoc(e, log, here[0]);
      }
      if e == first {
        UnbindsConcernVisited(e, exchanges, rest, queue);
        Wal.ReplayExchangeAppend(e, log + here, UnbindRecords(exchanges, rest, queue));
      } else {
        ReplayAfterUnbinds(e, log + here, exchanges, rest, queue);
      }
    }
  }

  lemma {:induction false} UnbindsConcernVisited(e: string, exchanges: map<string, ExchangeState>, visiting: seq<string>, queue: string)
    requires e !in visiting && forall x :: x in visiting ==> x in exchanges
    ensures forall i :: 0 <= i < |UnbindRecords(exchanges, visiting, queue)| ==>
              !Wal.ConcernsExchange(e, UnbindRecords(exchanges, visiting, queue)[i])
    decreases |visiting|
  {
    if visiting != [] {
      assert visiting == [visiting[0]] + visiting[1..];
      UnbindsConcernVisited(e, exchanges, visiting[1..], queue);
    }
  }

  // ---------------------------------------------------------------- the records of a restart

  lemma BindsSnoc(e: string, bindings: seq<Binding>, j: nat, log: seq<Record>)
    requires j < |bindings|
    ensures bindings[..j + 1] == bindings[..j] + [Binding(bindings[j].queueName, bindings[j].bindingKey)]
    ensures log + Binds(e, bindings[..j + 1]) ==
            log + Binds(e, bindings[..j]) + [QueueBinded(e, bindings[j].queueName, bindings[j].bindingKey)]
  {
  }

  lemma ReplayBind(e: string, log: seq<Record>, t: string, done: seq<Binding>, b: Binding)
    requires Wal.ReplayExchange(e, log) == Some(ExchangeState(t, done))
    ensures Wal.ReplayExchange(e, log + [QueueBinded(e, b.queueName, b.bindingKey)]) ==
            Some(ExchangeState(t, done + [Binding(b.queueName, b.bindingKey)]))
  {
    Wal.ReplayExchangeSnoc(e, log, QueueBinded(e, b.queueName, b.bindingKey));
  }

  lemma {:induction false} ReplayBinds(e: string, log: seq<Record>, t: string, bindings: seq<Binding>, n: nat)
    requires Wal.ReplayExchange(e, log) == Some(ExchangeState(t, [])) && n <= |bindings|
    ensures Wal.ReplayExchange(e, log + Binds(e, bindings[..n])) == Some(ExchangeState(t, bindings[..n]))
  {
    if n == 0 {
      assert bindings[..n] == [] && log + Binds(e, bindings[..n]) == log;
    } else {
      ReplayBinds(e, log, t, bindings, n - 1);
      BindsSnoc(e, bindings, n - 1, log);
      ReplayBind(e, log + Binds(e, bindings[..n - 1]), t, bindings[..n - 1], bindings[n - 1]);
    }
  }

  lemma RelogSame(e: string, log: seq<Record>, x: ExchangeState)
    ensures Wal.ReplayExchange(e, log + [ExchangeCreated(e, x.exchangeType)] + Binds(e, x.bindings)) == Some(x)
  {
    Wal.ReplayExchangeSnoc(e, log, ExchangeCreated(e, x.exchangeType));
    ReplayBinds(e, log + [ExchangeCreated(e, x.exchangeType)], x.exchangeType, x.bindings, |x.bindings|);
    assert x.bindings[..|x.bindings|] == x.bindings;
  }

  lemma RelogOther(e: string, log: seq<Record>, first: string, x: ExchangeState)
    requires e != first
    ensures Wal.ReplayExchange(e, log + [ExchangeCreated(first, x.exchangeType)] + Binds(first, x.bindings)) == Wal.ReplayExchange(e, log)
  {
    Wal.ReplayExchangeSnoc(e, log, ExchangeCreated(first, x.exchangeType));
    Wal.ReplayExchangeAppend(e, log + [ExchangeCreated(first, x.exchangeType)], Binds(first, x.bindings));
  }

  lemma RelogUnfold(log: seq<Record>, exchanges: map<string, ExchangeState>, visiting: seq<string>)
    requires visiting != [] && forall x :: x in visiting ==> x in exchanges
    ensures var e := visiting[0];
            log + Relog(exchanges, visiting) ==
            log + [ExchangeCreated(e, exchanges[e].exchangeType)] + Binds(e, exchanges[e].bindings) + Relog(exchanges, visiting[1..])
  {
  }

  lemma {:induction false} ReplayRelog(e: string, log: seq<Record>, exchanges: map<string, ExchangeState>, visiting: seq<string>)
    requires Distinct(visiting) && forall x :: x in visiting ==> x in exchanges
    ensures Wal.ReplayExchange(e, log + Relog(exchanges, visiting)) ==
            if e in visiting then Some(exchanges[e]) else Wal.ReplayExchange(e, log)
    decreases |visiting|
  {
    if visiting == [] {
      assert log + Relog(exchanges, visiting) == log;
    } else {
      var first, rest := visiting[0], visiting[1..];
      assert visiting == [first] + rest && first !in rest;
      RelogUnfold(log, exchanges, visiting);
      if e == first {
        RelogSame(e, log, exchanges[e]);
      } else {
        RelogOther(e, log, first, exchanges[first]);
      }
      ReplayRelog(e, log + [ExchangeCreated(first, exchanges[first].exchangeType)] + Binds(first, exchanges[first].bindings), exchanges, rest);
    }
  }

  /** A restart's own records leave what every exchange replays to as it was. */
  lemma ReplayAfterBoot(log: seq<Record>, visiting: seq<string>, e: string)
    requires Visits(visiting, Wal.Replay(log).exchanges)
    requires Wal.ReplayExchange(DEFAULT_EXCHANGE, log).None?
    ensures Wal.ReplayExchange(e, log + Relog(Wal.Replay(log).exchanges, visiting) + [DEFAULT_BOUND]) == Wal.ReplayExchange(e, log)
  {
    var st := Wal.Replay(log);
    Wal.ReplayExchangeAgrees(e, log);
    ReplayRelog(e, log, st.exchanges, visiting);
    Wal.ReplayExchangeSnoc(e, log + Relog(st.exchanges, visiting), DEFAULT_BOUND);
  }

  lemma DefaultKeyValid()
    ensures Topic.ValidBindingKey(DEFAULT_QUEUE)
  {
    Topic.WordIsValidKey(DEFAULT_QUEUE);
  }

  lemma DefaultBindingOk(queues: set<string>)
    requires DEFAULT_QUEUE in queues
    ensures BindingsOk([DEFAULT_BINDING], queues)
  {
    DefaultKeyValid();
  }

  lemma BootNoDefault(log: seq<Record>)
    requires BootOk(Wal.Replay(log))
    ensures Wal.ReplayExchange(DEFAULT_EXCHANGE, log).None?
  {
    Wal.ReplayExchangeAgrees(DEFAULT_EXCHANGE, log);
  }

  /** A completed restart rebuilds the logged topology, and the longer log it leaves still replays to it. */
  lemma BootTopology(cfg: Config, log: seq<Record>, visiting: seq<string>, issued: map<string, string>)
    requires Visits(visiting, Wal.Replay(log).exchanges) && BootOk(Wal.Replay(log))
    ensures TopologyOk(Boot(cfg, log, visiting, issued))
  {
    var st, c := Wal.Replay(log), Boot(cfg, log, visiting, issued);
    BootNoDefault(log);
    forall e ensures ExchangeOk(c, e) {
      Wal.ReplayExchangeAgrees(e, log);
      ReplayAfterBoot(log, visiting, e);
      assert c.queues.Keys == st.pending.Keys + {DEFAULT_QUEUE};
      if e == DEFAULT_EXCHANGE {
        DefaultBindingOk(c.queues.Keys);
      } else if e in st.exchanges {
        assert ExchangeBootOk(st, e);
      }
    }
  }

  /** Restart is idempotent: the log after a completed restart recovers exactly what the log before it did. */
  lemma RestartIdempotent(cfg: Config, log: seq<Record>, visiting: seq<string>, issued: map<string, string>)
    requires Visits(visiting, Wal.Replay(log).exchanges) && BootOk(Wal.Replay(log))
    ensures Wal.Replay(Boot(cfg, log, visiting, issued).log) == Wal.Replay(log)
  {
    var longer := Boot(cfg, log, visiting, issued).log;
    var before, after := Wal.Replay(log), Wal.Replay(longer);
    BootNoDefault(log);
    forall q ensures Wal.Lookup(after.pending, q) == Wal.Lookup(before.pending, q) {
      Wal.ReplayQueueAgrees(q, log);
      Wal.ReplayQueueAgrees(q, longer);
      BrokerQueues.ReplayAfterRelog(log, visiting, q);
    }
    forall e ensures Wal.Lookup(after.exchanges, e) == Wal.Lookup(before.exchanges, e) {
      Wal.ReplayExchangeAgrees(e, log);
      Wal.ReplayExchangeAgrees(e, longer);
      ReplayAfterBoot(log, visiting, e);
    }
    SameLookups(before.pending, after.pending);
    SameLookups(before.exchanges, after.exchanges);
  }

  lemma SameLookups<V>(a: map<string, V>, b: map<string, V>)
    requires forall k :: Wal.Lookup(a, k) == Wal.Lookup(b, k)
    ensures a == b
  {
    assert forall k :: k in a ==> Wal.Lookup(a, k) == Wal.Lookup(b, k);
    assert forall k :: k in b ==> Wal.Lookup(a, k) == Wal.Lookup(b, k);
  }

  /** From any broker whose queues the log knows and whose exchanges it mirrors, a restart completes. */
  lemma RestartPossible(b: BrokerState)
    requires Known(b) && TopologyOk(b)
    ensures BootOk(Wal.Replay(b.log))
  {
    var st := Wal.Replay(b.log);
    assert b.queues.Keys <= st.pending.Keys + {DEFAULT_QUEUE} by {
      forall q | q in b.queues ensures q in st.pending || q == DEFAULT_QUEUE {
        assert KnownAt(b.queues, b.log, q);
        Wal.ReplayQueueAgrees(q, b.log);
      }
    }
    forall e | e in st.exchanges ensures ExchangeBootOk(st, e) {
      assert ExchangeOk(b, e);
      Wal.ReplayExchangeAgrees(e, b.log);
    }
  }

  // ---------------------------------------------------------------- steps

  lemma MirrorsMoreQueues(e: string, x: Option<ExchangeState>, r: Option<ExchangeState>, queues: set<string>, more: set<string>)
    requires Mirrors(e, x, r, queues) && queues <= more
    ensures Mirrors(e, x, r, more)
  {
  }

  /** Steps that touch neither an exchange nor a record about one. */
  lemma QueueStepTopology(b: BrokerState, a: BrokerStep, e: string)
    requires ExchangeOk(b, e) && CanStep(b, a)
    requires a.AtQueue? || a.AtDetached? || a.CreateQueue? || a.BeginShutdown? || a.ClearTokens?
    ensures ExchangeOk(Next(b, a), e)
  {
    Wal.ReplayExchangeAppend(e, b.log, Appended(b, a));
    MirrorsMoreQueues(e, Wal.Lookup(b.exchanges, e), Wal.ReplayExchange(e, b.log), b.queues.Keys, Next(b, a).queues.Keys);
  }

  lemma DeleteQueueTopology(b: BrokerState, name: string, appended: bool, visiting: seq<string>, e: string)
    requires ExchangeOk(b, e) && Visits(visiting, b.exchanges)
    ensures ExchangeOk(Next(b, DeleteQueue(name, appended, visiting)), e)
  {
    if QueueDeletable(b, name) && appended {
      UnbindAllIsPartly(b.exchanges, name);
      DeletionMirrored(b.exchanges, b.log, b.queues.Keys, visiting, {}, name, e);
      assert b.queues.Keys - {name} == (b.queues - {name}).Keys;
    } else if QueueDeletable(b, name) {
      assert b.queues[name := CloseAll(b.queues[name])].Keys == b.queues.Keys;
    }
  }

  lemma UnbindAllIsPartly(exchanges: map<string, ExchangeState>, name: string)
    ensures UnbindAll(exchanges, name) == PartlyUnbound(exchanges, {}, name)
  {
  }

  /** A deletion, complete or not, keeps a logged exchange that it has visited, or that does not bind the queue. */
  lemma DeletionMirrored(exchanges: map<string, ExchangeState>, log: seq<Record>, queues: set<string>,
                  visited: seq<string>, kept: set<string>, name: string, e: string)
    requires ExchangeAt(exchanges, log, queues, e)
    requires Distinct(visited) && forall x :: x in visited ==> x in exchanges
    requires e in exchanges && e != DEFAULT_EXCHANGE ==> (e in visited <==> e !in kept)
    requires e in exchanges && e in kept ==> !HasBinding(exchanges[e].bindings, "", name)
    ensures ExchangeAt(PartlyUnbound(exchanges, kept, name), log + ([QueueDeleted(name)] + UnbindRecords(exchanges, visited, name)),
                       queues - {name}, e)
  {
    DeletedReplay(e, log, exchanges, visited, name);
    MirrorsUnbound(e, Wal.Lookup(exchanges, e), Wal.ReplayExchange(e, log), queues, name);
    if e in exchanges && e in kept {
      Wal.UnboundAbsent(exchanges[e].bindings, "", name);
    }
  }

  function WithoutKey(x: Option<ExchangeState>, key: string, queue: string): Option<ExchangeState> {
    if x.None? then None else Some(x.value.(bindings := Wal.Unbound(x.value.bindings, key, queue)))
  }

  function WithoutQueue(x: Option<ExchangeState>, queue: string): Option<ExchangeState> {
    WithoutKey(x, "", queue)
  }

  lemma MirrorsUnbind(e: string, x: Option<ExchangeState>, r: Option<ExchangeState>, queues: set<string>, key: string, queue: string)
    requires Mirrors(e, x, r, queues)
    ensures Mirrors(e, WithoutKey(x, key, queue), WithoutKey(r, key, queue), queues)
  {
    if x.Some? {
      BindingsOkUnbound(x.value.bindings, key, queue, queues);
    }
  }

  lemma MirrorsUnbound(e: string, x: Option<ExchangeState>, r: Option<ExchangeState>, queues: set<string>, name: string)
    requires Mirrors(e, x, r, queues)
    ensures Mirrors(e, WithoutQueue(x, name), WithoutQueue(r, name), queues - {name})
  {
    if x.Some? {
      BindingsOkUnbound(x.value.bindings, "", name, queues);
    }
  }

  lemma DeletedReplay(e: string, log: seq<Record>, exchanges: map<string, ExchangeState>, visited: seq<string>, name: string)
    requires Distinct(visited) && forall x :: x in visited ==> x in exchanges
    requires if e == DEFAULT_EXCHANGE then Wal.ReplayExchange(e, log).None? else Wal.Lookup(exchanges, e) == Wal.ReplayExchange(e, log)
    ensures Wal.ReplayExchange(e, log + ([QueueDeleted(name)] + UnbindRecords(exchanges, visited, name))) ==
            if e in visited then WithoutQueue(Wal.ReplayExchange(e, log), name) else Wal.ReplayExchange(e, log)
  {
    ConcatAssociative(log, [QueueDeleted(name)], UnbindRecords(exchanges, visited, name));
    Wal.ReplayExchangeSnoc(e, log, QueueDeleted(name));
    ReplayAfterUnbinds(e, log + [QueueDeleted(name)], exchanges, visited, name);
  }

  lemma CreateExchangeTopology(b: BrokerState, name: string, kind: string, appended: bool, e: string)
    requires ExchangeOk(b, e)
    ensures ExchangeOk(Next(b, CreateExchange(name, kind, appended)), e)
  {
    Wal.ReplayExchangeSnoc(e, b.log, ExchangeCreated(name, kind));
  }

  lemma DeleteExchangeTopology(b: BrokerState, name: string, appended: bool, e: string)
    requires ExchangeOk(b, e)
    ensures ExchangeOk(Next(b, DeleteExchange(name, appended)), e)
  {
    Wal.ReplayExchangeSnoc(e, b.log, ExchangeDeleted(name));
  }

  lemma BindTopology(b: BrokerState, x: string, q: string, k: string, e: string)
    requires ExchangeOk(b, e)
    ensures ExchangeOk(Next(b, Bind(x, q, k, true)), e)
  {
    if Bindable(b, x, q, k) {
      BoundAt(b.exchanges, b.log, b.queues.Keys, x, q, k, e);
    }
  }

  lemma BoundAt(exchanges: map<string, ExchangeState>, log: seq<Record>, queues: set<string>, x: string, q: string, k: string, e: string)
    requires ExchangeAt(exchanges, log, queues, e) && x in exchanges && q in queues
    requires Topic.ValidBindingKey(k) && Binding(q, k) !in exchanges[x].bindings
    ensures ExchangeAt(exchanges[x := exchanges[x].(bindings := exchanges[x].bindings + [Binding(q, k)])],
                       log + [QueueBinded(x, q, k)], queues, e)
  {
    Wal.ReplayExchangeSnoc(e, log, QueueBinded(x, q, k));
  }

  lemma UnbindTopology(b: BrokerState, x: string, q: string, k: string, e: string)
    requires ExchangeOk(b, e)
    ensures ExchangeOk(Next(b, Unbind(x, q, k, true)), e)
  {
    if Unbindable(b, x, q, k) {
      UnboundAt(b.exchanges, b.log, b.queues.Keys, x, q, k, e);
    }
  }

  lemma UnboundAt(exchanges: map<string, ExchangeState>, log: seq<Record>, queues: set<string>, x: string, q: string, k: string, e: string)
    requires ExchangeAt(exchanges, log, queues, e) && x in exchanges
    ensures ExchangeAt(exchanges[x := exchanges[x].(bindings := Wal.Unbound(exchanges[x].bindings, k, q))],
                       log + [QueueUnbinded(x, q, k)], queues, e)
  {
    Wal.ReplayExchangeSnoc(e, log, QueueUnbinded(x, q, k));
    MirrorsUnbind(e, Wal.Lookup(exchanges, e), Wal.ReplayExchange(e, log), queues, k, q);
  }

  // ---------------------------------------------------------------- when log and memory part

  /**
    Bindings change in memory before the log. The steps that part the two: a bind or an unbind whose record is not
    written, on an exchange the log knows; and a deletion stopped at such an exchange, or before another that
    still binds the deleted queue.
   */
  ghost predicate Diverges(b: BrokerState, a: BrokerStep)
    requires CanStep(b, a)
  {
    match a
    case Bind(e, q, k, appended) => !appended && Bindable(b, e, q, k) && e != DEFAULT_EXCHANGE
    case Unbind(e, q, k, appended) => !appended && Unbindable(b, e, q, k) && e != DEFAULT_EXCHANGE
    case InterruptDelete(name, visited, failed) =>
      QueueDeletable(b, name) && (failed != DEFAULT_EXCHANGE || LeftBound(b.exchanges, visited, failed, name))
    case _ => false
  }

  ghost predicate LeftBound(exchanges: map<string, ExchangeState>, visited: seq<string>, failed: string, name: string) {
    exists e :: e in Unreached(exchanges, visited, failed) && HasBinding(exchanges[e].bindings, "", name)
  }

  lemma FailedBindIff(b: BrokerState, x: string, q: string, k: string)
    requires TopologyOk(b) && Bindable(b, x, q, k)
    ensures TopologyOk(Next(b, Bind(x, q, k, false))) <==> x == DEFAULT_EXCHANGE
  {
    var c := Next(b, Bind(x, q, k, false));
    assert c.log == b.log && ExchangeOk(b, x);
    if x == DEFAULT_EXCHANGE {
      forall e ensures ExchangeOk(c, e) {
        assert ExchangeOk(b, e);
      }
    } else {
      assert c.exchanges[x].bindings != b.exchanges[x].bindings;
      assert !ExchangeOk(c, x);
    }
  }

  lemma FailedUnbindIff(b: BrokerState, x: string, q: string, k: string)
    requires TopologyOk(b) && Unbindable(b, x, q, k)
    ensures TopologyOk(Next(b, Unbind(x, q, k, false))) <==> x == DEFAULT_EXCHANGE
  {
    var c := Next(b, Unbind(x, q, k, false));
    assert c.log == b.log && ExchangeOk(b, x);
    BindingsOkUnbound(b.exchanges[x].bindings, k, q, b.queues.Keys);
    if x == DEFAULT_EXCHANGE {
      forall e ensures ExchangeOk(c, e) {
        assert ExchangeOk(b, e);
      }
    } else {
      var y :| y in b.exchanges[x].bindings && Wal.Unbinds(y, k, q);
      assert y !in c.exchanges[x].bindings;
      assert !ExchangeOk(c, x);
    }
  }

  lemma InterruptedIff(b: BrokerState, name: string, visited: seq<string>, failed: string)
    requires TopologyOk(b) && QueueDeletable(b, name) && CanStop(b.exchanges, visited, failed, name)
    ensures TopologyOk(Next(b, InterruptDelete(name, visited, failed))) <==>
            failed == DEFAULT_EXCHANGE && !LeftBound(b.exchanges, visited, failed, name)
  {
    var c, kept := Next(b, InterruptDelete(name, visited, failed)), Unreached(b.exchanges, visited, failed);
    assert c.queues.Keys == b.queues.Keys - {name};
    if failed != DEFAULT_EXCHANGE {
      assert ExchangeOk(b, failed);
      StoppedBefore(b.exchanges, b.log, b.queues.Keys, visited, kept, name, failed);
      assert !ExchangeOk(c, failed);
    } else if LeftBound(b.exchanges, visited, failed, name) {
      var e :| e in kept && HasBinding(b.exchanges[e].bindings, "", name);
      assert c.exchanges[e] == b.exchanges[e];
      assert !ExchangeOk(c, e);
    } else {
      forall e ensures ExchangeOk(c, e) {
        assert ExchangeOk(b, e);
        DeletionMirrored(b.exchanges, b.log, b.queues.Keys, visited, kept, name, e);
      }
    }
  }

  /** An exchange unbound in memory only. */
  lemma StoppedBefore(exchanges: map<string, ExchangeState>, log: seq<Record>, queues: set<string>,
                      visited: seq<string>, kept: set<string>, name: string, e: string)
    requires ExchangeAt(exchanges, log, queues, e) && e != DEFAULT_EXCHANGE && CanStop(exchanges, visited, e, name) && e !in kept
    ensures !ExchangeAt(PartlyUnbound(exchanges, kept, name), log + ([QueueDeleted(name)] + UnbindRecords(exchanges, visited, name)),
                        queues - {name}, e)
  {
    DeletedReplay(e, log, exchanges, visited, name);
    var y :| y in exchanges[e].bindings && Wal.Unbinds(y, "", name);
    assert y !in PartlyUnbound(exchanges, kept, name)[e].bindings;
  }

  /** Steps of the broker that write what they do to the exchanges. */
  lemma LoggedStep(b: BrokerState, a: BrokerStep)
    requires TopologyOk(b) && CanStep(b, a) && !a.InterruptDelete?
    requires a.Bind? || a.Unbind? ==> a.appended
    ensures TopologyOk(Next(b, a))
  {
    if a.Restart? {
      BootTopology(b.cfg, b.log, a.visiting, b.issued);
    } else {
      forall e ensures ExchangeOk(Next(b, a), e) {
        assert ExchangeOk(b, e);
        match a
        case AtQueue(_, _) => QueueStepTopology(b, a, e);
        case AtDetached(_, _) => QueueStepTopology(b, a, e);
        case CreateQueue(_, _) => QueueStepTopology(b, a, e);
        case BeginShutdown => QueueStepTopology(b, a, e);
        case ClearTokens => QueueStepTopology(b, a, e);
        case DeleteQueue(name, appended, visiting) => DeleteQueueTopology(b, name, appended, visiting, e);
        case CreateExchange(name, kind, appended) => CreateExchangeTopology(b, name, kind, appended, e);
        case DeleteExchange(name, appended) => DeleteExchangeTopology(b, name, appended, e);
        case Bind(x, q, k, _) => BindTopology(b, x, q, k, e);
        case Unbind(x, q, k, _) => UnbindTopology(b, x, q, k, e);
      }
    }
  }

  /** Every step of the broker keeps log and memory together exactly when it is not one of those that part them. */
  lemma TopologyStepIff(b: BrokerState, a: BrokerStep)
    requires TopologyOk(b) && CanStep(b, a)
    ensures TopologyOk(Next(b, a)) <==> !Diverges(b, a)
  {
    match a
    case Bind(x, q, k, false) => if Bindable(b, x, q, k) { FailedBindIff(b, x, q, k); }
    case Unbind(x, q, k, false) => if Unbindable(b, x, q, k) { FailedUnbindIff(b, x, q, k); }
    case InterruptDelete(name, visited, failed) => if QueueDeletable(b, name) { InterruptedIff(b, name, visited, failed); }
    case _ => LoggedStep(b, a);
  }
}
