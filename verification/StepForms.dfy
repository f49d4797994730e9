/**
  Branches of `Delivery.Apply` and `Delivery.Settle` read back one at a time, in the terms the queue runtime's
  methods work in. These lemmas say nothing new about the machine; they let each method meet it on one branch only.
 */
module StepForms {
  import opened Types
  import opened Sequences
  import opened RoundRobin
  import opened Delivery

  /** The oldest message taken out, with the signal to a sleeping publisher. */
  function HeadTaken(s: QueueState): QueueState
    requires s.store.queue != []
  {
    var t := s.(store := s.store.(queue := s.store.queue[1..]));
    if s.sleeping > 0 then t.(sleeping := s.sleeping - 1, woken := s.woken + 1) else t
  }

  lemma ReserveSettles(s: QueueState, e: Entry)
    requires s.store.queue != [] && e.message == s.store.queue[0]
    ensures var t := HeadTaken(s);
            Settle(s, ReserveHead(e)) ==
            t.(store := t.store.(inflight := t.store.inflight + [e]), unacked := Bump(s.unacked, e.consumer, 1))
  {
    var t := HeadTaken(s);
    assert Shift(s.store, ReserveHead(e)) == t.store.(inflight := t.store.inflight + [e]);
    if s.sleeping > 0 {
      assert t.sleeping == s.sleeping - 1;
    }
  }

  lemma AckSettles(s: QueueState, i: nat)
    requires i < |s.store.inflight|
    ensures var e := s.store.inflight[i];
            Settle(s, AckAt(i)) ==
            s.(store := s.store.(inflight := RemoveAt(s.store.inflight, i), acked := s.store.acked + [e.message],
                                 ackedCount := s.store.ackedCount + 1),
               unacked := Bump(s.unacked, e.consumer, -1), notify := true)
  {
  }

  lemma ReserveStep(s: QueueState, token: string, checkedAt: Time, now: Time)
    requires Enabled(s, Step.Reserve(token, checkedAt, now))
    ensures
      var e := Entry(token, s.store.queue[0], Chosen(s), now);
      var moved := s.(cursor := CursorAfter(s.order, s.unacked, s.cfg.prefetch, s.cursor));
      && Apply(s, Step.Reserve(token, checkedAt, now)) ==
         Settle(moved, ReserveHead(e)).(distributor := Holding(Delivery(e.message, token, e.consumer)))
      && Emit(s, Step.Reserve(token, checkedAt, now)) == [] && Tries(s, Step.Reserve(token, checkedAt, now)) == []
  {
  }

  /** A publisher's pass on a queue that is closed or full, and on one with room. */
  lemma PublishStep(s: QueueState, wasAsleep: bool, m: Message, ok: bool)
    requires Enabled(s, Step.Publish(wasAsleep, m, ok))
    ensures
      var a := Step.Publish(wasAsleep, m, ok);
      var t := s.(woken := if wasAsleep then s.woken - 1 else s.woken);
      && Tries(s, a) == (if s.closed || Full(s) then [] else [Attempt(Published(s.name, m, m.id), ok)])
      && if s.closed || Full(s) || !ok then
        Apply(s, a) == (if !s.closed && Full(s) then t.(sleeping := t.sleeping + 1) else t) && Emit(s, a) == []
      else
        Apply(s, a) == t.(store := Shift(s.store, Accept(m)), notify := true) && Emit(s, a) == [Published(s.name, m, m.id)]
  {
  }

  lemma TimeOutStep(s: QueueState, token: string, now: Time, ok: bool)
    requires Enabled(s, Step.TimeOut(token, now, ok))
    ensures
      var a, i := Step.TimeOut(token, now, ok), IndexOf(s.store.inflight, token);
      var m := s.store.inflight[i].message;
      && Tries(s, a) == (if Full(s) then []
                         else if m.retry >= s.cfg.maxRetries then [Attempt(DeadLettered(s.name, m.id), ok)]
                         else [Attempt(Requeued(s.name, Retried(m), m.id), ok)])
      && if Full(s) || !ok then Apply(s, a) == s && Emit(s, a) == []
      else if m.retry >= s.cfg.maxRetries then
        Apply(s, a) == Settle(s, BuryAt(i)) && Emit(s, a) == [DeadLettered(s.name, m.id)]
      else
        Apply(s, a) == Settle(s, RequeueAt(i)) && Emit(s, a) == [Requeued(s.name, Retried(m), m.id)]
  {
  }

  lemma AckStep(s: QueueState, token: string, ok: bool)
    ensures
      var i := IndexOf(s.store.inflight, token);
      && Tries(s, Step.Ack(token, ok)) ==
         (if i == |s.store.inflight| then []
          else [Attempt(Acknowledged(s.name, s.store.inflight[i].message, s.store.inflight[i].message.id), ok)])
      && if i < |s.store.inflight| && ok then
        && Apply(s, Step.Ack(token, ok)) == Settle(s, AckAt(i))
        && Emit(s, Step.Ack(token, ok)) == [Acknowledged(s.name, s.store.inflight[i].message, s.store.inflight[i].message.id)]
      else
        Apply(s, Step.Ack(token, ok)) == s && Emit(s, Step.Ack(token, ok)) == []
  {
  }

  lemma UnsubscribeStep(s: QueueState, id: string)
    ensures Emit(s, Step.Unsubscribe(id)) == [] && Tries(s, Step.Unsubscribe(id)) == []
    ensures
      Apply(s, Step.Unsubscribe(id)) ==
      if id !in s.unacked then s
      else
        var order := OrderWithout(s.order, id);
        s.(unacked := s.unacked - {id}, order := order, cursor := Refit(s.cursor, |order|))
  {
  }

  /** A message put back at the tail by a cancelled reservation. */
  function Returned(s: QueueState, message: Message): QueueState {
    Settle(s, PushBack(Delivery(message, "", ""))).(distributor := Draining, cancelled := true)
  }

  lemma CancelStep(s: QueueState, d: Delivery)
    requires Enabled(s, Step.Cancel) && s.distributor == Holding(d)
    ensures
      var i := IndexOf(s.store.inflight, d.token);
      && Emit(s, Step.Cancel) == []
      && Apply(s, Step.Cancel) ==
         if i == |s.store.inflight| then Returned(s, d.message)
         else Returned(s.(store := s.store.(inflight := RemoveAt(s.store.inflight, i)), unacked := Bump(s.unacked, d.consumer, -1)), d.message)
  {
  }

  lemma CloseStep(s: QueueState)
    ensures Emit(s, Step.CloseIfEmpty) == []
    ensures Apply(s, Step.CloseIfEmpty) == if s.store.queue == [] && s.store.inflight == [] then CloseAll(s) else s
  {
  }

  lemma ShutdownStep(s: QueueState)
    ensures Apply(s, Step.Shutdown) == CloseAll(s) && Emit(s, Step.Shutdown) == [] && Tries(s, Step.Shutdown) == []
  {
  }

  lemma HeadStep(s: QueueState, now: Time, ok: bool)
    requires Enabled(s, Step.ExpireHead(now, ok))
    ensures Apply(s, Step.ExpireHead(now, ok)) == if ok then Settle(s, BuryHead) else s
    ensures Emit(s, Step.ExpireHead(now, ok)) == if ok then [DeadLettered(s.name, s.store.queue[0].id)] else []
    ensures Tries(s, Step.ExpireHead(now, ok)) == [Attempt(DeadLettered(s.name, s.store.queue[0].id), ok)]
  {
  }
}
