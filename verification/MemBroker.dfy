/** The in-memory broker: registry operations, the publish fan-out and the start from a log. */
module MemBroker {
  import opened Types
  import opened Sequences
  import opened Delivery
  import opened Broker
  import opened FanOut
  import BrokerTopology
  import Exchange
  import Parts
  import StepForms
  import opened QueueTables
  import Runtime = QueueRuntimes
  import Topic
  import Wal

  datatype Outcome = Done | Refused | AppendFailed | Interrupted

  lemma StopsAt(before: map<string, ExchangeState>, visited: seq<string>, rest: set<string>, failed: string)
    requires rest <= before.Keys && forall e :: e in visited <==> e in before && e !in rest
    ensures rest - {failed} == Unreached(before, visited, failed)
  {
  }

  lemma PartlyUnboundStep(exchanges: map<string, ExchangeState>, rest: set<string>, e: string, queue: string)
    requires e in rest && rest <= exchanges.Keys
    ensures PartlyUnbound(exchanges, rest, queue)[e := exchanges[e].(bindings := Wal.Unbound(exchanges[e].bindings, "", queue))]
            == PartlyUnbound(exchanges, rest - {e}, queue)
    ensures e in PartlyUnbound(exchanges, rest, queue) && PartlyUnbound(exchanges, rest, queue)[e] == exchanges[e]
  {
  }

  lemma PartlyUnboundEnds(exchanges: map<string, ExchangeState>, queue: string)
    ensures PartlyUnbound(exchanges, exchanges.Keys, queue) == exchanges
    ensures PartlyUnbound(exchanges, {}, queue) == UnbindAll(exchanges, queue)
  {
  }

  lemma {:induction false} UnbindRecordsSnoc(exchanges: map<string, ExchangeState>, visited: seq<string>, e: string, queue: string)
    requires e in exchanges && forall x :: x in visited ==> x in exchanges
    ensures UnbindRecords(exchanges, visited + [e], queue) ==
            UnbindRecords(exchanges, visited, queue) + UnbindRecord(exchanges[e], e, queue)
    decreases |visited|
  {
    if visited == [] {
      assert visited + [e] == [e] && [e][1..] == [];
    } else {
      assert (visited + [e])[1..] == visited[1..] + [e] && (visited + [e])[0] == visited[0];
      UnbindRecordsSnoc(exchanges, visited[1..], e, queue);
      ConcatAssociative(UnbindRecord(exchanges[visited[0]], visited[0], queue),
                        UnbindRecords(exchanges, visited[1..], queue), UnbindRecord(exchanges[e], e, queue));
    }
  }

  lemma UnbindRecordsExtend(log: seq<Record>, exchanges: map<string, ExchangeState>, visited: seq<string>, e: string, queue: string)
    requires e in exchanges && forall x :: x in visited ==> x in exchanges
    ensures log + UnbindRecords(exchanges, visited + [e], queue) ==
            log + UnbindRecords(exchanges, visited, queue) + UnbindRecord(exchanges[e], e, queue)
  {
    UnbindRecordsSnoc(exchanges, visited, e, queue);
    ConcatAssociative(log, UnbindRecords(exchanges, visited, queue), UnbindRecord(exchanges[e], e, queue));
  }

  lemma UnbindTriesExtend(made: seq<Attempt>, exchanges: map<string, ExchangeState>, visited: seq<string>, e: string, queue: string)
    requires e in exchanges && forall x :: x in visited ==> x in exchanges
    ensures made + Granted(UnbindRecords(exchanges, visited + [e], queue)) ==
            made + Granted(UnbindRecords(exchanges, visited, queue))
            + Once(HasBinding(exchanges[e].bindings, "", queue), QueueUnbinded(e, queue, ""), true)
  {
    UnbindRecordsSnoc(exchanges, visited, e, queue);
  }

  lemma {:induction false} RelogSnoc(exchanges: map<string, ExchangeState>, visited: seq<string>, e: string)
    requires e in exchanges && forall x :: x in visited ==> x in exchanges
    ensures Relog(exchanges, visited + [e]) ==
            Relog(exchanges, visited) + [ExchangeCreated(e, exchanges[e].exchangeType)] + Binds(e, exchanges[e].bindings)
    decreases |visited|
  {
    if visited == [] {
      assert visited + [e] == [e] && [e][1..] == [];
    } else {
      assert (visited + [e])[1..] == visited[1..] + [e];
      RelogSnoc(exchanges, visited[1..], e);
    }
  }

  lemma RelogExtends(log: seq<Record>, exchanges: map<string, ExchangeState>, visited: seq<string>, e: string)
    requires e in exchanges && forall x :: x in visited ==> x in exchanges
    ensures log + Relog(exchanges, visited + [e]) ==
            log + Relog(exchanges, visited) + [ExchangeCreated(e, exchanges[e].exchangeType)] + Binds(e, exchanges[e].bindings)
  {
    RelogSnoc(exchanges, visited, e);
  }

  /** A publisher's pass at a queue, as a step of the broker. */
  lemma PublishTook(b: BrokerState, queue: string, a: Step, queues: map<string, QueueState>, log: seq<Record>,
                    made: seq<Attempt>, more: seq<Attempt>)
    requires a.Publish? && Took(b.queues, queues, queue, a) && Wrote(b.queues, queue, a, b.log, log, made, more)
    ensures CanStep(b, AtQueue(queue, a)) && Next(b, AtQueue(queue, a)) == b.(queues := queues, log := log)
    ensures more == made + BrokerTries(b, AtQueue(queue, a))
  {
  }

  /** An acknowledgement at a queue, as a step of the broker. */
  lemma AckTook(b: BrokerState, queue: string, token: string, ok: bool, queues: map<string, QueueState>, log: seq<Record>,
                made: seq<Attempt>, more: seq<Attempt>)
    requires Took(b.queues, queues, queue, Step.Ack(token, ok)) && Wrote(b.queues, queue, Step.Ack(token, ok), b.log, log, made, more)
    ensures CanStep(b, AtQueue(queue, Step.Ack(token, ok))) && more == made + BrokerTries(b, AtQueue(queue, Step.Ack(token, ok)))
    ensures if InFlight(b.queues[queue].store, token) then
              Next(b, AtQueue(queue, Step.Ack(token, ok))) ==
              b.(queues := queues, log := log, owners := if ok then b.owners - {token} else b.owners)
            else queues == b.queues && log == b.log && more == made
  {
    StepForms.AckStep(b.queues[queue], token, ok);
  }

  /** A deletion that does not get past its own record. */
  lemma DeleteStays(b: BrokerState, name: string, appended: bool, visiting: seq<string>)
    requires Visits(visiting, b.exchanges) && (QueueDeletable(b, name) ==> !appended)
    ensures Leads(b, BrokerStep.DeleteQueue(name, appended, visiting),
                  if QueueDeletable(b, name) then b.(queues := b.queues[name := CloseAll(b.queues[name])]) else b)
    ensures BrokerTries(b, BrokerStep.DeleteQueue(name, appended, visiting)) ==
            if QueueDeletable(b, name) then [Attempt(QueueDeleted(name), false)] else []
  {
  }

  /** A deletion that does. */
  lemma DeleteGoes(b: BrokerState, name: string, visiting: seq<string>)
    requires Visits(visiting, b.exchanges) && QueueDeletable(b, name)
    ensures Leads(b, BrokerStep.DeleteQueue(name, true, visiting),
                  b.(queues := b.queues - {name}, detached := b.detached + [CloseAll(b.queues[name])],
                     exchanges := UnbindAll(b.exchanges, name), owners := map t | t in b.owners && b.owners[t] != name :: b.owners[t],
                     log := b.log + ([QueueDeleted(name)] + UnbindRecords(b.exchanges, visiting, name))))
    ensures BrokerTries(b, BrokerStep.DeleteQueue(name, true, visiting)) ==
            [Attempt(QueueDeleted(name), true)] + Granted(UnbindRecords(b.exchanges, visiting, name))
  {
  }

  /** And one that is stopped on the way. */
  lemma DeleteStops(b: BrokerState, name: string, visited: seq<string>, failed: string)
    requires CanStop(b.exchanges, visited, failed, name) && QueueDeletable(b, name)
    ensures Leads(b, BrokerStep.InterruptDelete(name, visited, failed),
                  b.(queues := b.queues - {name}, detached := b.detached + [CloseAll(b.queues[name])],
                     exchanges := PartlyUnbound(b.exchanges, Unreached(b.exchanges, visited, failed), name),
                     log := b.log + ([QueueDeleted(name)] + UnbindRecords(b.exchanges, visited, name))))
    ensures BrokerTries(b, BrokerStep.InterruptDelete(name, visited, failed)) ==
            [Attempt(QueueDeleted(name), true)] + Granted(UnbindRecords(b.exchanges, visited, name))
            + [Attempt(QueueUnbinded(failed, name, ""), false)]
  {
  }

  /** The queues with those in `visited` shut down. */
  ghost function ShutIn(queues: map<string, QueueState>, visited: seq<string>): map<string, QueueState> {
    map q | q in queues :: if q in visited then CloseAll(queues[q]) else queues[q]
  }

  lemma ShutInSnoc(queues: map<string, QueueState>, visited: seq<string>, q: string)
    requires q in queues && q !in visited
    ensures ShutIn(queues, visited)[q := CloseAll(queues[q])] == ShutIn(queues, visited + [q])
  {
  }

  /** The steps of a shutdown. */
  function Shutting(visited: seq<string>): seq<BrokerStep> {
    [BeginShutdown] + ShutSteps(visited) + [ClearTokens]
  }

  function ShutSteps(visited: seq<string>): (r: seq<BrokerStep>)
    ensures |r| == |visited|
  {
    seq(|visited|, i requires 0 <= i < |visited| => AtQueue(visited[i], Step.Shutdown))
  }

  lemma ShutStepForm(b: BrokerState, q: string)
    requires q in b.queues
    ensures Leads(b, AtQueue(q, Step.Shutdown), b.(queues := b.queues[q := CloseAll(b.queues[q])]))
  {
    StepForms.ShutdownStep(b.queues[q]);
    assert b.log + [] == b.log;
  }

  lemma BeginForm(b: BrokerState)
    ensures Leads(b, BeginShutdown, b.(closed := true))
  {
    assert b.log + [] == b.log;
  }

  lemma ClearForm(b: BrokerState)
    requires b.closed
    ensures Leads(b, ClearTokens, b.(owners := map[], tokensCleared := true))
  {
    assert b.log + [] == b.log;
  }

  lemma ShutNone(queues: map<string, QueueState>)
    ensures ShutIn(queues, []) == queues
  {
  }

  lemma {:induction false} ShuttingPart(b: BrokerState, visited: seq<string>)
    requires Distinct(visited) && forall q :: q in visited ==> q in b.queues
    ensures IsBrokerRun(b, [BeginShutdown] + ShutSteps(visited))
    ensures AfterAll(b, [BeginShutdown] + ShutSteps(visited)) == b.(closed := true, queues := ShutIn(b.queues, visited))
    decreases |visited|
  {
    hide Next, ShutIn;
    if visited == [] {
      BeginForm(b);
      ShutNone(b.queues);
      assert [BeginShutdown] + ShutSteps(visited) == [] + [BeginShutdown];
      BrokerRunSnoc(b, [], BeginShutdown);
    } else {
      var init, q := visited[..|visited| - 1], visited[|visited| - 1];
      assert visited == init + [q];
      ShuttingPart(b, init);
      var mid := b.(closed := true, queues := ShutIn(b.queues, init));
      ShutInAt(b.queues, init, q);
      ShutStepForm(mid, q);
      ShutInSnoc(b.queues, init, q);
      BrokerRunSnoc(b, [BeginShutdown] + ShutSteps(init), AtQueue(q, Step.Shutdown));
      assert [BeginShutdown] + ShutSteps(visited) == [BeginShutdown] + ShutSteps(init) + [AtQueue(q, Step.Shutdown)];
    }
  }

  lemma ShutInAt(queues: map<string, QueueState>, visited: seq<string>, q: string)
    requires q in queues && q !in visited
    ensures q in ShutIn(queues, visited) && ShutIn(queues, visited)[q] == queues[q]
  {
  }

  lemma ShuttingIsRun(b: BrokerState, visited: seq<string>)
    requires Distinct(visited) && forall q :: q in visited ==> q in b.queues
    ensures IsBrokerRun(b, Shutting(visited))
    ensures AfterAll(b, Shutting(visited)) ==
            b.(closed := true, queues := ShutIn(b.queues, visited), owners := map[], tokensCleared := true)
  {
    hide Next, ShutIn;
    ShuttingPart(b, visited);
    ClearForm(b.(closed := true, queues := ShutIn(b.queues, visited)));
    BrokerRunSnoc(b, [BeginShutdown] + ShutSteps(visited), ClearTokens);
  }

  /** A closed broker stays closed and creates no queue until it is started again. */
  lemma ClosedBrokerStep(b: BrokerState, a: BrokerStep)
    requires b.closed && CanStep(b, a) && !a.Restart?
    ensures Next(b, a).closed && Next(b, a).queues.Keys <= b.queues.Keys
  {
  }

  /** The append of a registry operation, by its outcome. */
  function Asked(r: Outcome, record: Record): seq<Attempt> {
    match r
    case Refused => []
    case Done => [Attempt(record, true)]
    case _ => [Attempt(record, false)]
  }

  class InMemoryBroker {
    const cfg: Config
    const wal: Wal.FileWal
    const clock: Parts.Clock
    const table: QueueTable
    var exchanges: map<string, ExchangeState>
    var tokenOwners: map<string, string>
    var closed: bool
    ghost var detached: seq<QueueState>
    ghost var tokensCleared: bool
    ghost var issued: map<string, string>

    ghost predicate Valid()
      reads this, table, table.repr
    {
      && table.Valid() && table.cfg == cfg && table.wal == wal && table.clock == clock
      && this !in table.repr && table !in table.repr && wal !in table.repr && clock !in table.repr
    }

    ghost function View(): BrokerState
      reads this, wal, table
    {
      BrokerState(cfg, table.queues, exchanges, tokenOwners, closed, tokensCleared, wal.records, issued, detached)
    }

    /** From the old state to this one the broker took step `a` and asked the log for exactly what that step asks. */
    twostate predicate Did(a: BrokerStep)
      reads this, wal, table
    {
      Leads(old(View()), a, View()) && wal.attempts == old(wal.attempts) + BrokerTries(old(View()), a)
    }

    constructor (table: QueueTable)
      requires table.Valid()
      ensures Valid() && this.table == table && cfg == table.cfg && wal == table.wal
      ensures exchanges == map[DEFAULT_EXCHANGE := ExchangeState(Exchange.DIRECT, [])]
      ensures tokenOwners == map[] && !closed && !tokensCleared && issued == map[] && detached == []
    {
      this.cfg, this.wal, this.clock, this.table := table.cfg, table.wal, table.clock, table;
      exchanges := map[DEFAULT_EXCHANGE := ExchangeState(Exchange.DIRECT, [])];
      tokenOwners, closed, tokensCleared, issued, detached := map[], false, false, map[], [];
    }

    method CreateQueue(name: string) returns (r: Outcome)
      requires Valid()
      modifies this, wal, table
      ensures Valid() && fresh(table.repr - old(table.repr))
      ensures r == Done || r == Refused || r == AppendFailed
      ensures r == Refused <==> name == "" || |name| > 255 || old(closed) || name in old(table.queues)
      ensures wal.attempts == old(wal.attempts) + Asked(r, QueueCreated(name))
      ensures Did(BrokerStep.CreateQueue(name, r != AppendFailed))
    {
      hide QueueTable.Valid;
      if !ValidName(name) || closed || table.Has(name) {
        return Refused;
      }
      var ok := wal.Append(QueueCreated(name));
      if !ok {
        return AppendFailed;
      }
      table.Add(name, []);
      return Done;
    }

    method CreateExchange(name: string, exchangeType: string) returns (r: Outcome)
      requires Valid()
      modifies this`exchanges, wal
      ensures Valid()
      ensures r == Refused <==>
                || name == "" || |name| > 255 || name == "default" || name in old(exchanges)
                || !(exchangeType == "direct" || exchangeType == "fanout" || exchangeType == "topic")
      ensures wal.attempts == old(wal.attempts) + Asked(r, ExchangeCreated(name, exchangeType))
      ensures r == Done || r == Refused || r == AppendFailed
      ensures Did(BrokerStep.CreateExchange(name, exchangeType, r != AppendFailed))
    {
      hide QueueTable.Valid;
      if !ValidExchangeName(name) || !ValidExchangeType(exchangeType) || name in exchanges {
        return Refused;
      }
      var ok := wal.Append(ExchangeCreated(name, exchangeType));
      if !ok {
        return AppendFailed;
      }
      exchanges := exchanges[name := ExchangeState(exchangeType, [])];
      return Done;
    }

    method DeleteExchange(name: string) returns (r: Outcome)
      requires Valid()
      modifies this`exchanges, wal
      ensures Valid()
      ensures r == Done || r == Refused || r == AppendFailed
      ensures r == Refused <==>
                name == "" || |name| > 255 || name == "default" || name !in old(exchanges) || old(exchanges)[name].bindings != []
      ensures wal.attempts == old(wal.attempts) + Asked(r, ExchangeDeleted(name))
      ensures Did(BrokerStep.DeleteExchange(name, r != AppendFailed))
    {
      hide QueueTable.Valid;
      if !ValidExchangeName(name) || name !in exchanges || |exchanges[name].bindings| > 0 {
        return Refused;
      }
      var ok := wal.Append(ExchangeDeleted(name));
      if !ok {
        return AppendFailed;
      }
      exchanges := exchanges - {name};
      return Done;
    }

    /** Binds in memory first and logs afterwards; a failed append leaves the binding in memory only. */
    method BindQueue(exchange: string, queue: string, key: string) returns (r: Outcome)
      requires Valid()
      modifies this`exchanges, wal
      ensures Valid()
      ensures r == Refused <==>
                || !Topic.ValidBindingKey(key) || exchange !in old(exchanges) || queue !in old(table.queues)
                || Binding(queue, key) in old(exchanges)[exchange].bindings
      ensures wal.attempts == old(wal.attempts) + Asked(r, QueueBinded(exchange, queue, key))
      ensures r == Done || r == Refused || r == AppendFailed
      ensures Did(BrokerStep.Bind(exchange, queue, key, r != AppendFailed))
    {
      hide QueueTable.Valid;
      var valid := Topic.ValidateBindingKey(key);
      if !valid || exchange !in exchanges || !table.Has(queue) || Binding(queue, key) in exchanges[exchange].bindings {
        return Refused;
      }
      var x := exchanges[exchange];
      exchanges := exchanges[exchange := x.(bindings := x.bindings + [Binding(queue, key)])];
      var ok := wal.Append(QueueBinded(exchange, queue, key));
      return if ok then Done else AppendFailed;
    }

    method UnbindQueue(exchange: string, queue: string, key: string) returns (r: Outcome)
      requires Valid()
      modifies this`exchanges, wal
      ensures Valid()
      ensures r == Done || r == Refused || r == AppendFailed
      ensures r == Refused <==>
                || exchange !in old(exchanges) || queue !in old(table.queues)
                || forall b :: b in old(exchanges)[exchange].bindings ==> !(b.queueName == queue && (key == "" || b.bindingKey == key))
      ensures wal.attempts == old(wal.attempts) + Asked(r, QueueUnbinded(exchange, queue, key))
      ensures Did(BrokerStep.Unbind(exchange, queue, key, r != AppendFailed))
    {
      hide QueueTable.Valid;
      if exchange !in exchanges || !table.Has(queue) || !HasBinding(exchanges[exchange].bindings, key, queue) {
        return Refused;
      }
      var x := exchanges[exchange];
      var kept := Wal.RemoveBindings(x.bindings, key, queue);
      exchanges := exchanges[exchange := x.(bindings := kept)];
      var ok := wal.Append(QueueUnbinded(exchange, queue, key));
      return if ok then Done else AppendFailed;
    }

    // -------------------------------------------------------------- deletion

    /**
      Deletes an empty queue: closes it, logs the deletion, then unbinds it from every exchange in whatever
      order the table yields them. A failed append on the way leaves the deletion interrupted.
     */
    method DeleteQueue(name: string) returns (r: Outcome, ghost visiting: seq<string>, ghost failed: string)
      requires Valid()
      modifies this, wal, table, table.repr
      ensures Valid() && table.repr == old(table.repr)
      ensures r == Refused <==>
                || name == "default" || name !in old(table.queues)
                || old(table.queues)[name].store.queue != [] || old(table.queues)[name].store.inflight != []
      ensures r != Interrupted ==> Did(BrokerStep.DeleteQueue(name, r != AppendFailed, visiting))
      ensures r == Interrupted ==> Did(BrokerStep.InterruptDelete(name, visiting, failed))
    {
      hide QueueTable.Valid, Leads;
      ghost var before := View();
      failed := "";
      visiting := Enumerate(exchanges.Keys);
      if name == DEFAULT_QUEUE || !table.Has(name) {
        DeleteStays(before, name, true, visiting);
        return Refused, visiting, failed;
      }
      var empty := table.CloseIfEmpty(name);
      if !empty {
        assert table.queues == before.queues;
        DeleteStays(before, name, true, visiting);
        return Refused, visiting, failed;
      }
      r, visiting, failed := LogDelete(name, before);
    }

    /** The deletion of queue `name`, which has just been closed; `before` is the broker as it was before that. */
    method LogDelete(name: string, ghost before: BrokerState) returns (r: Outcome, ghost visiting: seq<string>, ghost failed: string)
      requires Valid() && QueueDeletable(before, name)
      requires View() == before.(queues := before.queues[name := CloseAll(before.queues[name])])
      modifies this, wal, table
      ensures Valid() && table.repr == old(table.repr) && r != Refused
      ensures r != Interrupted ==>
                && Leads(before, BrokerStep.DeleteQueue(name, r != AppendFailed, visiting), View())
                && wal.attempts == old(wal.attempts) + BrokerTries(before, BrokerStep.DeleteQueue(name, r != AppendFailed, visiting))
      ensures r == Interrupted ==>
                && Leads(before, BrokerStep.InterruptDelete(name, visiting, failed), View())
                && wal.attempts == old(wal.attempts) + BrokerTries(before, BrokerStep.InterruptDelete(name, visiting, failed))
    {
      hide QueueTable.Valid, Leads, BrokerTries, UnbindRecords;
      failed := "";
      visiting := Enumerate(exchanges.Keys);
      var ok := wal.Append(QueueDeleted(name));
      if !ok {
        DeleteStays(before, name, false, visiting);
        return AppendFailed, visiting, failed;
      }
      r, visiting, failed := Dismantle(name);
      assert table.queues == before.queues - {name};
      ConcatAssociative(before.log, [QueueDeleted(name)], UnbindRecords(before.exchanges, visiting, name));
      ghost var first, unbound := [Attempt(QueueDeleted(name), true)], Granted(UnbindRecords(before.exchanges, visiting, name));
      ConcatAssociative(old(wal.attempts), first, unbound);
      if r == Done {
        DeleteGoes(before, name, visiting);
      } else {
        ConcatAssociative(old(wal.attempts), first + unbound, [Attempt(QueueUnbinded(failed, name, ""), false)]);
        DeleteStops(before, name, visiting, failed);
      }
    }

    /** The rest of a deletion once its record is in the log. */
    method Dismantle(name: string) returns (r: Outcome, ghost visiting: seq<string>, ghost failed: string)
      requires Valid() && table.Has(name)
      modifies this, wal, table
      ensures Valid() && table.repr == old(table.repr)
      ensures r == Done || r == Interrupted
      ensures table.queues == old(table.queues) - {name} && detached == old(detached) + [old(table.queues)[name]]
      ensures closed == old(closed) && tokensCleared == old(tokensCleared) && issued == old(issued)
      ensures forall e :: e in visiting ==> e in old(exchanges)
      ensures wal.records == old(wal.records) + UnbindRecords(old(exchanges), visiting, name)
      ensures wal.attempts == old(wal.attempts) + Granted(UnbindRecords(old(exchanges), visiting, name))
                              + if r == Interrupted then [Attempt(QueueUnbinded(failed, name, ""), false)] else []
      ensures r == Interrupted ==>
                && CanStop(old(exchanges), visiting, failed, name) && tokenOwners == old(tokenOwners)
                && exchanges == PartlyUnbound(old(exchanges), Unreached(old(exchanges), visiting, failed), name)
      ensures r == Done ==>
                && Visits(visiting, old(exchanges)) && exchanges == UnbindAll(old(exchanges), name)
                && tokenOwners == map t | t in old(tokenOwners) && old(tokenOwners)[t] != name :: old(tokenOwners)[t]
    {
      hide QueueTable.Valid;
      detached := detached + [table.queues[name]];
      table.Remove(name);
      r, visiting, failed := UnbindEverywhere(name);
      if r == Done {
        tokenOwners := map t | t in tokenOwners && tokenOwners[t] != name :: tokenOwners[t];
      }
    }

    method UnbindEverywhere(name: string) returns (r: Outcome, ghost visited: seq<string>, ghost failed: string)
      requires Valid()
      modifies this`exchanges, wal
      ensures Valid()
      ensures r == Done || r == Interrupted
      ensures forall e :: e in visited ==> e in old(exchanges)
      ensures wal.records == old(wal.records) + UnbindRecords(old(exchanges), visited, name)
      ensures wal.attempts == old(wal.attempts) + Granted(UnbindRecords(old(exchanges), visited, name))
                              + if r == Interrupted then [Attempt(QueueUnbinded(failed, name, ""), false)] else []
      ensures r == Done ==> Visits(visited, old(exchanges)) && exchanges == UnbindAll(old(exchanges), name)
      ensures r == Interrupted ==>
                && CanStop(old(exchanges), visited, failed, name)
                && exchanges == PartlyUnbound(old(exchanges), Unreached(old(exchanges), visited, failed), name)
    {
      hide QueueTable.Valid, PartlyUnbound;
      visited, failed := [], "";
      var rest := exchanges.Keys;
      ghost var before, log, made := exchanges, wal.records, wal.attempts;
      PartlyUnboundEnds(before, name);
      while rest != {}
        invariant Valid() && rest <= before.Keys && Distinct(visited)
        invariant forall e :: e in visited <==> e in before && e !in rest
        invariant exchanges == PartlyUnbound(before, rest, name)
        invariant wal.records == log + UnbindRecords(before, visited, name)
        invariant wal.attempts == made + Granted(UnbindRecords(before, visited, name))
        decreases rest
      {
        var e :| e in rest;
        UnbindRecordsExtend(log, before, visited, e, name);
        UnbindTriesExtend(made, before, visited, e, name);
        PartlyUnboundStep(before, rest, e, name);
        var ok := UnbindOne(e, name);
        if !ok {
          StopsAt(before, visited, rest, e);
          return Interrupted, visited, e;
        }
        rest := rest - {e};
        visited := visited + [e];
      }
      return Done, visited, failed;
    }

    method UnbindOne(e: string, name: string) returns (ok: bool)
      requires Valid() && e in exchanges
      modifies this`exchanges, wal
      ensures Valid()
      ensures var x := old(exchanges)[e];
              exchanges == old(exchanges)[e := x.(bindings := Wal.Unbound(x.bindings, "", name))]
      ensures wal.records == old(wal.records) + if ok then UnbindRecord(old(exchanges)[e], e, name) else []
      ensures !ok ==> HasBinding(old(exchanges)[e].bindings, "", name)
      ensures wal.attempts == old(wal.attempts) + Once(HasBinding(old(exchanges)[e].bindings, "", name), QueueUnbinded(e, name, ""), ok)
    {
      hide QueueTable.Valid;
      ok := true;
      var x := exchanges[e];
      if HasBinding(x.bindings, "", name) {
        var kept := Wal.RemoveBindings(x.bindings, "", name);
        exchanges := exchanges[e := x.(bindings := kept)];
        ok := wal.Append(QueueUnbinded(e, name, ""));
      } else {
        Wal.UnboundAbsent(x.bindings, "", name);
      }
    }

    // -------------------------------------------------------------- acknowledgement

    /** Finds the queue that owns the token and acknowledges there; a token nobody owns is refused. */
    method Ack(token: string) returns (r: Outcome)
      requires Valid()
      modifies this, wal, table, table.repr
      ensures Valid() && table.repr == old(table.repr)
      ensures r == Refused <==>
                !(token in old(tokenOwners) && old(tokenOwners)[token] in old(table.queues)
                  && InFlight(old(table.queues)[old(tokenOwners)[token]].store, token))
      ensures r == Refused ==> View() == old(View())
      ensures r == Refused ==> wal.attempts == old(wal.attempts)
      ensures r != Refused ==>
                && (r == Done || r == AppendFailed)
                && Did(AtQueue(old(tokenOwners)[token], Step.Ack(token, r == Done)))
    {
      hide QueueTable.Valid;
      if token !in tokenOwners || !table.Has(tokenOwners[token]) {
        return Refused;
      }
      var owner := tokenOwners[token];
      ghost var before := View();
      var result := table.Ack(owner, token);
      AckTook(before, owner, token, result != Runtime.AckFailed, table.queues, wal.records, old(wal.attempts), wal.attempts);
      if result == Runtime.Acked {
        tokenOwners := tokenOwners - {token};
      }
      return match result case Acked => Done case InvalidAckToken => Refused case AckFailed => AppendFailed;
    }

    // -------------------------------------------------------------- the publish fan-out

    /** One pass of a publisher at a queue: accepted, put to sleep, refused by a closed queue, or not logged. */
    method PassAt(queue: string, wasAsleep: bool, payload: Message, ttl: int) returns (r: Runtime.PublishResult, message: Message)
      requires Valid() && table.Has(queue) && (wasAsleep ==> table.queues[queue].woken > 0)
      modifies wal, clock, table`queues, table.repr
      ensures Valid() && old(clock.now) <= clock.now == message.timestamp && IsStamp(message, payload, ttl)
      ensures r == Runtime.BrokerClosed <==> old(table.queues)[queue].closed
      ensures r == Runtime.Blocked <==> !old(table.queues)[queue].closed && Full(old(table.queues)[queue])
      ensures Did(AtQueue(queue, Step.Publish(wasAsleep, message, r != Runtime.PublishFailed)))
    {
      hide QueueTable.Valid;
      ghost var before := View();
      r, message := table.Publish(queue, wasAsleep, payload, ttl);
      PublishTook(before, queue, Step.Publish(wasAsleep, message, r != Runtime.PublishFailed), table.queues, wal.records,
                  old(wal.attempts), wal.attempts);
    }

    /**
      Publishes to each queue named, once for each time it is named, in order; a publisher that slept at the first of them goes
      on from there. What happens is exactly the publish steps of the copies sent, and the pass on which the fan-out ended.
     */
    method SendAll(names: seq<string>, wasAsleep: bool, payload: Message, ttl: int)
      returns (r: Ending, sent: seq<Sent>, ghost last: Message)
      requires Valid() && (wasAsleep ==> names != [] && CanPass(View(), names[0], true))
      modifies wal, clock, table`queues, table.repr
      ensures Valid() && clock.now >= old(clock.now)
      ensures Targets(sent) <= names && (r == AllSent <==> |sent| == |names|)
      ensures CanSend(old(View()), sent)
      ensures Ends(Fanned(old(View()), sent), View(), r, if |sent| < |names| then names[|sent|] else "", wasAsleep && sent == [], last)
      ensures AllStamped(sent, payload, ttl, old(clock.now), clock.now)
      ensures wal.attempts == old(wal.attempts) + FannedTries(old(View()), sent)
                + EndTries(Fanned(old(View()), sent), r, if |sent| < |names| then names[|sent|] else "", wasAsleep && sent == [], last)
    {
      hide QueueTable.Valid, Next, BrokerTries, Fanned, FannedTries, CanSend;
      NothingSent(View(), names);
      sent, last := [], payload;
      ghost var start, made := View(), wal.attempts;
      for i := 0 to |names|
        invariant Valid() && clock.now >= old(clock.now) && |sent| == i && Progress(start, View(), sent, names)
        invariant wal.attempts == made + FannedTries(start, sent)
        invariant i == 0 ==> View() == start
        invariant AllStamped(sent, payload, ttl, old(clock.now), clock.now)
      {
        var asleep := wasAsleep && i == 0;
        var ending, message := SendNext(names, asleep, payload, ttl, start, made, sent);
        if ending != AllSent {
          return ending, sent, message;
        }
        StampedSnoc(sent, Sent(names[i], message, asleep), payload, ttl, old(clock.now), clock.now);
        sent := sent + [Sent(names[i], message, asleep)];
      }
      return AllSent, sent, last;
    }

    /** The next copy of a fan-out, or the pass on which it ends. */
    method SendNext(names: seq<string>, wasAsleep: bool, payload: Message, ttl: int, ghost start: BrokerState, ghost made: seq<Attempt>, sent: seq<Sent>)
      returns (r: Ending, message: Message)
      requires Valid() && |sent| < |names| && Progress(start, View(), sent, names) && wal.attempts == made + FannedTries(start, sent)
      requires wasAsleep ==> CanPass(View(), names[|sent|], true)
      modifies wal, clock, table`queues, table.repr
      ensures Valid() && clock.now >= old(clock.now)
      ensures r == AllSent ==>
                && old(clock.now) <= message.timestamp <= clock.now && IsStamp(message, payload, ttl)
                && Progress(start, View(), sent + [Sent(names[|sent|], message, wasAsleep)], names)
                && wal.attempts == made + FannedTries(start, sent + [Sent(names[|sent|], message, wasAsleep)])
      ensures r != AllSent ==>
                && Ends(Fanned(start, sent), View(), r, names[|sent|], wasAsleep, message)
                && wal.attempts == made + FannedTries(start, sent) + EndTries(Fanned(start, sent), r, names[|sent|], wasAsleep, message)
    {
      hide QueueTable.Valid, Next, CanSend;
      var queue := names[|sent|];
      if !wasAsleep && (closed || !table.Has(queue)) {
        return Unreachable, payload;
      }
      ghost var now := View();
      var result;
      result, message := PassAt(queue, wasAsleep, payload, ttl);
      PassAsks(now, queue, wasAsleep, message, result);
      if result == Runtime.Accepted {
        ProgressSnoc(start, now, sent, names, message, wasAsleep);
        FannedTriesSnoc(start, sent, Sent(queue, message, wasAsleep), made);
      }
      return Verdict(result), message;
    }

    /** Routes a payload and publishes it to every queue the exchange names. */
    method Publish(exchange: string, routingKey: string, payload: Message, ttl: int)
      returns (r: PublishOutcome, sent: seq<Sent>, ghost last: Message)
      requires Valid()
      modifies wal, clock, table`queues, table.repr
      ensures Valid() && clock.now >= old(clock.now)
      ensures r == ExchangeNotFound <==> exchange !in exchanges
      ensures !r.Ended? ==> sent == [] && View() == old(View())
      ensures exchange in exchanges ==>
                var names := Exchange.Routes(exchanges[exchange].exchangeType, exchanges[exchange].bindings, routingKey);
                && Targets(sent) <= names && (r == NoRoute <==> names == []) && (r == Ended(AllSent) <==> names != [] && Targets(sent) == names)
                && CanSend(old(View()), sent)
                && (r.Ended? ==>
                      Ends(Fanned(old(View()), sent), View(), r.ending, if |sent| < |names| then names[|sent|] else "", false, last))
      ensures AllStamped(sent, payload, ttl, old(clock.now), clock.now)
      ensures !r.Ended? ==> wal.attempts == old(wal.attempts)
      ensures r.Ended? ==>
                var names := Exchange.Routes(exchanges[exchange].exchangeType, exchanges[exchange].bindings, routingKey);
                wal.attempts == old(wal.attempts) + FannedTries(old(View()), sent)
                  + EndTries(Fanned(old(View()), sent), r.ending, if |sent| < |names| then names[|sent|] else "", false, last)
    {
      hide QueueTable.Valid;
      sent, last := [], payload;
      if exchange !in exchanges {
        return ExchangeNotFound, sent, last;
      }
      var names := Exchange.Routes(exchanges[exchange].exchangeType, exchanges[exchange].bindings, routingKey);
      if |names| == 0 {
        return NoRoute, sent, last;
      }
      var ending: Ending;
      ending, sent, last := SendAll(names, false, payload, ttl);
      return Ended(ending), sent, last;
    }

    // -------------------------------------------------------------- shutdown

    /**
      Closes the broker, shuts every queue down in whatever order the table yields them, and forgets every token. A broker
      that is closed already is left as it is.
     */
    method Shutdown() returns (ghost visited: seq<string>)
      requires Valid()
      modifies this`closed, this`tokenOwners, this`tokensCleared, table`queues, table.repr
      ensures Valid() && closed && wal.records == old(wal.records) && exchanges == old(exchanges)
      ensures old(closed) ==> View() == old(View())
      ensures !old(closed) ==>
                && Visits(visited, old(table.queues)) && IsBrokerRun(old(View()), Shutting(visited))
                && View() == AfterAll(old(View()), Shutting(visited))
                && tokenOwners == map[] && table.queues.Keys == old(table.queues).Keys
                && forall q :: q in table.queues ==> table.queues[q] == CloseAll(old(table.queues)[q])
    {
      hide QueueTable.Valid;
      visited := [];
      if closed {
        return;
      }
      ghost var start, queues := View(), table.queues;
      closed := true;
      visited := ShutQueues();
      tokenOwners, tokensCleared := map[], true;
      ShuttingIsRun(start, visited);
    }

    method ShutQueues() returns (ghost visited: seq<string>)
      requires Valid()
      modifies table`queues, table.repr
      ensures Valid() && Visits(visited, old(table.queues)) && table.queues == ShutIn(old(table.queues), visited)
    {
      hide QueueTable.Valid;
      visited := [];
      ghost var queues := table.queues;
      var rest := table.Names();
      while rest != {}
        invariant Valid() && Distinct(visited) && rest <= queues.Keys && table.queues == ShutIn(queues, visited)
        invariant forall q :: q in visited <==> q in queues && q !in rest
        decreases rest
      {
        var q :| q in rest;
        table.Shutdown(q);
        ShutInSnoc(queues, visited, q);
        rest := rest - {q};
        visited := visited + [q];
      }
    }

    // -------------------------------------------------------------- start from a log

    /** Recreates one recovered exchange with its bindings, through the same checks and records as a client's requests. */
    method RestoreExchange(e: string, x: ExchangeState) returns (r: Outcome)
      requires Valid() && (e in exchanges ==> e == DEFAULT_EXCHANGE)
      modifies this`exchanges, wal
      ensures Valid()
      ensures r == Done || r == Refused || r == AppendFailed
      ensures old(wal.attempts) <= wal.attempts && (r == AppendFailed <==> !Runtime.AllWritten(old(wal.attempts), wal.attempts))
      ensures r == Done ==>
                && View() == old(View()).(exchanges := old(exchanges)[e := x], log := wal.records)
                && wal.records == old(wal.records) + [ExchangeCreated(e, x.exchangeType)] + Binds(e, x.bindings)
                && ValidExchangeName(e) && ValidExchangeType(x.exchangeType) && BindingsOk(x.bindings, table.queues.Keys)
      ensures r == Refused ==>
                !(ValidExchangeName(e) && ValidExchangeType(x.exchangeType) && BindingsOk(x.bindings, table.queues.Keys))
    {
      hide QueueTable.Valid;
      r := CreateExchange(e, x.exchangeType);
      AskedWritten(old(wal.attempts), r, ExchangeCreated(e, x.exchangeType));
      if r != Done {
        return;
      }
      ghost var made := wal.attempts;
      r := RestoreBindings(e, x);
      Runtime.AllWrittenThrough(old(wal.attempts), made, wal.attempts);
    }

    /** Recreates the bindings of an exchange that has just been created. */
    method RestoreBindings(e: string, x: ExchangeState) returns (r: Outcome)
      requires Valid() && e in exchanges && exchanges[e] == ExchangeState(x.exchangeType, [])
      modifies this`exchanges, wal
      ensures Valid()
      ensures r == Done || r == Refused || r == AppendFailed
      ensures old(wal.attempts) <= wal.attempts && (r == AppendFailed <==> !Runtime.AllWritten(old(wal.attempts), wal.attempts))
      ensures r == Done ==>
                && View() == old(View()).(exchanges := old(exchanges)[e := x], log := wal.records)
                && wal.records == old(wal.records) + Binds(e, x.bindings) && BindingsOk(x.bindings, table.queues.Keys)
      ensures r == Refused ==> !BindingsOk(x.bindings, table.queues.Keys)
    {
      hide QueueTable.Valid;
      r := Done;
      ghost var start := View();
      for j := 0 to |x.bindings|
        invariant Valid() && r == Done && Runtime.AllWritten(old(wal.attempts), wal.attempts)
        invariant View() == start.(exchanges := start.exchanges[e := ExchangeState(x.exchangeType, x.bindings[..j])], log := wal.records)
        invariant wal.records == start.log + Binds(e, x.bindings[..j])
        invariant BindingsOk(x.bindings[..j], table.queues.Keys)
      {
        var b := x.bindings[j];
        ghost var made := wal.attempts;
        r := RestoreBinding(e, b);
        AskedWritten(made, r, QueueBinded(e, b.queueName, b.bindingKey));
        Runtime.AllWrittenThrough(old(wal.attempts), made, wal.attempts);
        if r != Done {
          if r == Refused {
            RefusedBinding(x.bindings, j, table.queues.Keys);
          }
          return;
        }
        BrokerTopology.BindsSnoc(e, x.bindings, j, start.log);
        BindingsOkSnoc(x.bindings, j, table.queues.Keys);
      }
      assert x.bindings[..|x.bindings|] == x.bindings;
    }

    /** One of those bindings, with what `BindQueue` does spelled out. */
    method RestoreBinding(e: string, b: Binding) returns (r: Outcome)
      requires Valid() && e in exchanges
      modifies this`exchanges, wal
      ensures Valid()
      ensures r == Done || r == Refused || r == AppendFailed
      ensures r == Refused <==>
                !(Topic.ValidBindingKey(b.bindingKey) && b.queueName in table.queues && b !in old(exchanges)[e].bindings)
      ensures wal.attempts == old(wal.attempts) + Asked(r, QueueBinded(e, b.queueName, b.bindingKey))
      ensures r == Done ==>
                && wal.records == old(wal.records) + [QueueBinded(e, b.queueName, b.bindingKey)]
                && View() == old(View()).(
                     exchanges := old(exchanges)[e := old(exchanges)[e].(bindings := old(exchanges)[e].bindings + [b])],
                     log := wal.records)
    {
      hide QueueTable.Valid;
      assert b == Binding(b.queueName, b.bindingKey);
      r := BindQueue(e, b.queueName, b.bindingKey);
    }
  }

  lemma AskedWritten(made: seq<Attempt>, r: Outcome, record: Record)
    requires r == Done || r == Refused || r == AppendFailed
    ensures r == AppendFailed <==> !Runtime.AllWritten(made, made + Asked(r, record))
  {
    var asked := Asked(r, record);
    assert r == AppendFailed ==> !asked[0].ok;
    Runtime.AllWrittenIff(made, asked);
  }

  lemma BindingsOkSnoc(bindings: seq<Binding>, j: nat, queues: set<string>)
    requires j < |bindings| && BindingsOk(bindings[..j], queues)
    requires Topic.ValidBindingKey(bindings[j].bindingKey) && bindings[j].queueName in queues && bindings[j] !in bindings[..j]
    ensures BindingsOk(bindings[..j + 1], queues)
  {
    assert bindings[..j + 1] == bindings[..j] + [bindings[j]];
  }

  lemma RefusedBinding(bindings: seq<Binding>, j: nat, queues: set<string>)
    requires j < |bindings|
    requires !Topic.ValidBindingKey(bindings[j].bindingKey) || bindings[j].queueName !in queues || bindings[j] in bindings[..j]
    ensures !BindingsOk(bindings, queues)
  {
    assert bindings[j] in bindings;
  }

  /** The append asked for on a pass, by its result. */
  lemma PassAsks(b: BrokerState, queue: string, wasAsleep: bool, m: Message, r: Runtime.PublishResult)
    requires CanStep(b, AtQueue(queue, Step.Publish(wasAsleep, m, r != Runtime.PublishFailed)))
    requires r == Runtime.BrokerClosed <==> b.queues[queue].closed
    requires r == Runtime.Blocked <==> !b.queues[queue].closed && Full(b.queues[queue])
    ensures r != Runtime.Accepted ==>
              BrokerTries(b, AtQueue(queue, Step.Publish(wasAsleep, m, r != Runtime.PublishFailed))) ==
              EndTries(b, Verdict(r), queue, wasAsleep, m)
  {
  }

  datatype PublishOutcome = ExchangeNotFound | NoRoute | Ended(ending: Ending)

  /** How a pass that did not end in acceptance ends the fan-out. */
  function Verdict(r: Runtime.PublishResult): Ending {
    match r
    case Accepted => AllSent
    case Blocked => Waiting
    case BrokerClosed => QueueClosed
    case PublishFailed => NotLogged
  }

  /** The queues recovered from a log, with the default queue added if it was not among them. */
  method RebuildQueues(table: QueueTable, pending: map<string, seq<Message>>)
    requires table.Valid() && table.queues == map[]
    modifies table
    ensures table.Valid() && table.queues == RecoveredQueues(table.cfg, pending) && fresh(table.repr - old(table.repr))
  {
    hide QueueTable.Valid;
    var rest := pending.Keys;
    while rest != {}
      invariant table.Valid() && rest <= pending.Keys && fresh(table.repr - old(table.repr))
      invariant table.queues == map q | q in pending && q !in rest :: NewQueue(q, table.cfg, pending[q])
      decreases rest
    {
      var q :| q in rest;
      table.Add(q, pending[q]);
      rest := rest - {q};
    }
    if !table.Has(DEFAULT_QUEUE) {
      table.Add(DEFAULT_QUEUE, []);
    }
  }

  /** The exchanges of a starting broker once those in `visited` have been recreated. */
  ghost function Restored(exchanges: map<string, ExchangeState>, visited: seq<string>): map<string, ExchangeState>
    requires forall e :: e in visited ==> e in exchanges
  {
    (map e | e in visited :: exchanges[e])[DEFAULT_EXCHANGE := ExchangeState(Exchange.DIRECT, [])]
  }

  lemma RestoredSnoc(exchanges: map<string, ExchangeState>, visited: seq<string>, e: string)
    requires e in exchanges && e != DEFAULT_EXCHANGE && forall x :: x in visited ==> x in exchanges
    ensures Restored(exchanges, visited + [e]) == Restored(exchanges, visited)[e := exchanges[e]]
  {
    assert forall x :: x in visited + [e] <==> x in visited || x == e;
  }

  lemma RestoredAll(exchanges: map<string, ExchangeState>, visited: seq<string>, x: ExchangeState)
    requires Visits(visited, exchanges)
    ensures Restored(exchanges, visited)[DEFAULT_EXCHANGE := x] == exchanges[DEFAULT_EXCHANGE := x]
  {
  }

  /** Recreates the recovered exchanges in whatever order the table yields them. */
  method RestoreAll(b: InMemoryBroker, st: Wal.RecoveredState) returns (r: Outcome, ghost visited: seq<string>)
    requires b.Valid() && b.exchanges == map[DEFAULT_EXCHANGE := ExchangeState(Exchange.DIRECT, [])]
    requires b.table.queues.Keys == st.pending.Keys + {DEFAULT_QUEUE}
    modifies b`exchanges, b.wal
    ensures b.Valid()
    ensures r == Done || r == Refused || r == AppendFailed
    ensures old(b.wal.attempts) <= b.wal.attempts && (r == AppendFailed <==> !Runtime.AllWritten(old(b.wal.attempts), b.wal.attempts))
    ensures r == Refused ==> !BootOk(st)
    ensures r == Done ==>
              && Visits(visited, st.exchanges) && BootOk(st)
              && b.View() == old(b.View()).(exchanges := Restored(st.exchanges, visited), log := b.wal.records)
              && b.wal.records == old(b.wal.records) + Relog(st.exchanges, visited)
  {
    hide QueueTable.Valid;
    visited, r := [], Done;
    var rest := st.exchanges.Keys;
    ghost var start := b.View();
    assert b.exchanges == Restored(st.exchanges, []);
    while rest != {}
      invariant b.Valid() && r == Done && rest <= st.exchanges.Keys && Distinct(visited)
      invariant forall e :: e in visited <==> e in st.exchanges && e !in rest
      invariant forall e :: e in visited ==> ExchangeBootOk(st, e)
      invariant b.View() == start.(exchanges := Restored(st.exchanges, visited), log := b.wal.records)
      invariant b.wal.records == start.log + Relog(st.exchanges, visited) && Runtime.AllWritten(old(b.wal.attempts), b.wal.attempts)
      decreases rest
    {
      var e :| e in rest;
      ghost var made := b.wal.attempts;
      r := b.RestoreExchange(e, st.exchanges[e]);
      Runtime.AllWrittenThrough(old(b.wal.attempts), made, b.wal.attempts);
      if r != Done {
        if r == Refused {
          assert !ExchangeBootOk(st, e);
        }
        return;
      }
      RelogExtends(start.log, st.exchanges, visited, e);
      RestoredSnoc(st.exchanges, visited, e);
      assert ExchangeBootOk(st, e);
      rest := rest - {e};
      visited := visited + [e];
    }
  }

  lemma DefaultBindable(b: BrokerState)
    requires DEFAULT_EXCHANGE in b.exchanges && b.exchanges[DEFAULT_EXCHANGE].bindings == [] && DEFAULT_QUEUE in b.queues
    ensures Bindable(b, DEFAULT_EXCHANGE, DEFAULT_QUEUE, DEFAULT_QUEUE)
  {
    BrokerTopology.DefaultKeyValid();
  }

  lemma BindForm(b: BrokerState, e: string, q: string, k: string)
    requires Bindable(b, e, q, k)
    ensures Next(b, BrokerStep.Bind(e, q, k, true)) ==
            b.(exchanges := b.exchanges[e := b.exchanges[e].(bindings := b.exchanges[e].bindings + [Binding(q, k)])],
               log := b.log + [QueueBinded(e, q, k)])
  {
  }

  lemma DefaultBound(b: BrokerState)
    requires DEFAULT_EXCHANGE in b.exchanges && b.exchanges[DEFAULT_EXCHANGE] == ExchangeState(Exchange.DIRECT, [])
    requires DEFAULT_QUEUE in b.queues
    ensures Bindable(b, DEFAULT_EXCHANGE, DEFAULT_QUEUE, DEFAULT_QUEUE)
    ensures Next(b, BrokerStep.Bind(DEFAULT_EXCHANGE, DEFAULT_QUEUE, DEFAULT_QUEUE, true)) ==
            b.(exchanges := b.exchanges[DEFAULT_EXCHANGE := ExchangeState(Exchange.DIRECT, [DEFAULT_BINDING])],
               log := b.log + [DEFAULT_BOUND])
  {
    hide Next, Bindable;
    DefaultBindable(b);
    BindForm(b, DEFAULT_EXCHANGE, DEFAULT_QUEUE, DEFAULT_QUEUE);
    assert [] + [DEFAULT_BINDING] == [DEFAULT_BINDING];
  }

  method BindDefault(b: InMemoryBroker, ghost exchanges: map<string, ExchangeState>, ghost visited: seq<string>) returns (r: Outcome)
    requires forall e :: e in visited ==> e in exchanges
    requires b.Valid() && b.exchanges == Restored(exchanges, visited) && DEFAULT_QUEUE in b.table.queues
    modifies b`exchanges, b.wal
    ensures b.Valid()
    ensures r == Done || r == AppendFailed
    ensures b.wal.attempts == old(b.wal.attempts) + Asked(r, DEFAULT_BOUND)
    ensures r == Done ==>
              && b.wal.records == old(b.wal.records) + [DEFAULT_BOUND]
              && b.View() == old(b.View()).(
                   exchanges := Restored(exchanges, visited)[DEFAULT_EXCHANGE := ExchangeState(Exchange.DIRECT, [DEFAULT_BINDING])],
                   log := b.wal.records)
  {
    hide QueueTable.Valid;
    DefaultBound(b.View());
    r := b.BindQueue(DEFAULT_EXCHANGE, DEFAULT_QUEUE, DEFAULT_QUEUE);
  }

  /**
    Starts a broker from a log. If it completes it rebuilds the recovered state; it is refused only when the recovered
    state holds an exchange or binding that its own checks refuse; otherwise an append has failed.
   */
  method NewBroker(cfg: Config, wal: Wal.FileWal, clock: Parts.Clock) returns (b: InMemoryBroker, r: Outcome, ghost visiting: seq<string>)
    modifies wal
    ensures b.Valid() && (r == Done || r == Refused || r == AppendFailed)
    ensures old(wal.attempts) <= wal.attempts && (r == AppendFailed <==> !Runtime.AllWritten(old(wal.attempts), wal.attempts))
    ensures r == Refused ==> !BootOk(Wal.Replay(old(wal.records)))
    ensures r == Done ==>
              && BootOk(Wal.Replay(old(wal.records))) && Visits(visiting, Wal.Replay(old(wal.records)).exchanges)
              && b.View() == Boot(cfg, old(wal.records), visiting, map[])
  {
    hide QueueTable.Valid;
    var st := wal.Load();
    var table := new QueueTable(cfg, wal, clock);
    RebuildQueues(table, st.pending);
    b := new InMemoryBroker(table);
    r, visiting := RestoreAll(b, st);
    if r != Done {
      return;
    }
    ghost var made := wal.attempts;
    r := BindDefault(b, st.exchanges, visiting);
    AskedWritten(made, r, DEFAULT_BOUND);
    Runtime.AllWrittenThrough(old(wal.attempts), made, wal.attempts);
    RestoredAll(st.exchanges, visiting, ExchangeState(Exchange.DIRECT, [DEFAULT_BINDING]));
  }

  /** Some order in which a map iteration could visit the keys. */
  lemma Enumerate(keys: set<string>) returns (order: seq<string>)
    ensures Distinct(order) && forall x :: x in order <==> x in keys
    decreases keys
  {
    if keys == {} {
      order := [];
    } else {
      var x :| x in keys;
      order := Enumerate(keys - {x});
      order := order + [x];
    }
  }
}
