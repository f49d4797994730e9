/** Token ownership: the broker's token table against the queues' in-flight tables. */
module BrokerTokens {
  import opened Types
  import opened Sequences
  import opened Delivery
  import opened Broker
  import Wal

  predicate Held(b: BrokerState, t: string, q: string) {
    q in b.queues && InFlight(b.queues[q].store, t)
  }

  ghost predicate TokenOk(b: BrokerState, t: string, q: string) {
    && (Held(b, t, q) ==> t in b.issued && b.issued[t] == q)
    && (!b.tokensCleared ==> ((t in b.owners && b.owners[t] == q) <==> Held(b, t, q)))
  }

  /** Issued at some time and in flight nowhere now. */
  ghost predicate Retired(b: BrokerState, t: string) {
    t in b.issued && forall q :: !Held(b, t, q)
  }

  /** In one queue tokens are unique, and the delivery its distributor holds was issued there. */
  ghost predicate HolderOk(s: QueueState, q: string, issued: map<string, string>) {
    && DistinctTokens(s.store.inflight)
    && (s.distributor.Holding? ==> s.distributor.delivery.token in issued && issued[s.distributor.delivery.token] == q)
  }

  /** A deleted queue has nothing in flight and nobody to deliver to; a delivery it still holds is in flight nowhere. */
  ghost predicate DetachedOk(b: BrokerState, s: QueueState) {
    && s.closed && s.order == [] && s.store.inflight == []
    && (s.distributor.Holding? ==> Retired(b, s.distributor.delivery.token))
  }

  /**
    Until shutdown clears it, the token table is exactly the disjoint union of the queues' in-flight tokens, mapped to
    their owners; and the queues are in a state to keep it so.
   */
  ghost predicate TokensOk(b: BrokerState) {
    && (forall t, q :: TokenOk(b, t, q))
    && (forall q :: q in b.queues ==> HolderOk(b.queues[q], q, b.issued))
    && (forall i :: 0 <= i < |b.detached| ==> DetachedOk(b, b.detached[i]))
  }

  /** The token a move takes out of the in-flight table, if any. */
  function TokenLeaving(st: Store, mv: Move): Option<string>
    requires Possible(st, mv)
  {
    match mv
    case AckAt(i) => Some(st.inflight[i].token)
    case BuryAt(i) => Some(st.inflight[i].token)
    case RequeueAt(i) => Some(st.inflight[i].token)
    case GiveBack(i, _) => Some(st.inflight[i].token)
    case _ => None
  }

  predicate HasToken(entries: seq<Entry>, t: string) {
    IndexOf(entries, t) < |entries|
  }

  lemma HasTokenRemoveAt(entries: seq<Entry>, i: nat, t: string)
    requires DistinctTokens(entries) && i < |entries|
    ensures HasToken(RemoveAt(entries, i), t) <==> HasToken(entries, t) && t != entries[i].token
  {
    var next := RemoveAt(entries, i);
    NotInFlight(entries, t);
    NotInFlight(next, t);
    if HasToken(entries, t) && t != entries[i].token {
      var k := IndexOf(entries, t);
      assert next[if k < i then k else k - 1].token == t;
    }
  }

  lemma HasTokenSnoc(entries: seq<Entry>, e: Entry, t: string)
    ensures HasToken(entries + [e], t) <==> HasToken(entries, t) || t == e.token
  {
    NotInFlight(entries, t);
    NotInFlight(entries + [e], t);
    assert (entries + [e])[|entries|] == e;
    if HasToken(entries, t) {
      assert (entries + [e])[IndexOf(entries, t)].token == t;
    }
  }

  lemma InFlightShift(st: Store, mv: Move, t: string)
    requires DistinctTokens(st.inflight) && Possible(st, mv)
    ensures InFlight(Shift(st, mv), t) <==>
            (mv.ReserveHead? && mv.entry.token == t) || (InFlight(st, t) && TokenLeaving(st, mv) != Some(t))
  {
    if mv.ReserveHead? {
      HasTokenSnoc(st.inflight, mv.entry, t);
    } else if mv.AckAt? || mv.BuryAt? || mv.RequeueAt? || mv.GiveBack? {
      HasTokenRemoveAt(st.inflight, mv.i, t);
    }
  }

  lemma OwnersFollow(owners: map<string, string>, q: string, st: Store, mv: Move, t: string)
    requires Possible(st, mv)
    ensures Wal.Lookup(OwnersAfter(owners, q, st, mv), t) ==
            if mv.ReserveHead? && mv.entry.token == t then Some(q)
            else if TokenLeaving(st, mv) == Some(t) || (mv.PushBack? && mv.delivery.token == t) then None
            else Wal.Lookup(owners, t)
  {
  }

  lemma LeavingIsHeld(st: Store, mv: Move)
    requires Possible(st, mv) && TokenLeaving(st, mv).Some?
    ensures InFlight(st, TokenLeaving(st, mv).value)
  {
    NotInFlight(st.inflight, TokenLeaving(st, mv).value);
  }

  // ---------------------------------------------------------------- steps of one queue

  /** A reservation's token is new, and a delivery pushed back without being in flight was issued by this queue. */
  lemma TokenOfMove(b: BrokerState, q: string, step: Step)
    requires TokensOk(b) && CanStep(b, AtQueue(q, step)) && DrawsFresh(b, AtQueue(q, step))
    ensures
      var s, mv := b.queues[q], MoveOf(b.queues[q], step);
      && (mv.ReserveHead? ==> mv.entry.token !in b.issued && !InFlight(s.store, mv.entry.token))
      && (mv.PushBack? ==> !InFlight(s.store, mv.delivery.token) && mv.delivery.token in b.issued && b.issued[mv.delivery.token] == q)
  {
    var s, mv := b.queues[q], MoveOf(b.queues[q], step);
    assert HolderOk(s, q, b.issued);
    DistributorStep(s, step);
    if mv.ReserveHead? {
      assert TokenOk(b, mv.entry.token, q);
    }
  }

  lemma AtQueueForm(b: BrokerState, q: string, step: Step)
    requires CanStep(b, AtQueue(q, step))
    ensures var mv, c := MoveOf(b.queues[q], step), Next(b, AtQueue(q, step));
            && c.owners == OwnersAfter(b.owners, q, b.queues[q].store, mv) && c.tokensCleared == b.tokensCleared
            && c.issued == if mv.ReserveHead? then b.issued[mv.entry.token := q] else b.issued
  {
  }

  lemma AtQueueTokens(b: BrokerState, q0: string, step: Step, t: string, q: string)
    requires TokensOk(b) && CanStep(b, AtQueue(q0, step)) && DrawsFresh(b, AtQueue(q0, step))
    ensures TokenOk(Next(b, AtQueue(q0, step)), t, q)
  {
    hide Next, OwnersAfter, Shift, MoveOf;
    var s, mv := b.queues[q0], MoveOf(b.queues[q0], step);
    TokenOfMove(b, q0, step);
    AtQueueForm(b, q0, step);
    assert HolderOk(s, q0, b.issued) && TokenOk(b, t, q) && TokenOk(b, t, q0);
    InFlightShift(s.store, mv, t);
    OwnersFollow(b.owners, q0, s.store, mv, t);
    if TokenLeaving(s.store, mv).Some? {
      LeavingIsHeld(s.store, mv);
    }
    HeldAfter(b, q0, step, t, q);
  }

  lemma HeldAfter(b: BrokerState, q0: string, step: Step, t: string, q: string)
    requires CanStep(b, AtQueue(q0, step))
    ensures Held(Next(b, AtQueue(q0, step)), t, q) ==
            if q == q0 then InFlight(Shift(b.queues[q0].store, MoveOf(b.queues[q0], step)), t) else Held(b, t, q)
  {
  }

  lemma HolderStep(s: QueueState, q: string, issued: map<string, string>, step: Step)
    requires HolderOk(s, q, issued) && Enabled(s, step) && FreshToken(s, step)
    ensures HolderOk(Apply(s, step), q, if step.Reserve? then issued[step.token := q] else issued)
  {
    DistributorStep(s, step);
    TokensShift(s.store, MoveOf(s, step));
  }

  lemma HolderOther(s: QueueState, q: string, issued: map<string, string>, t: string, x: string)
    requires HolderOk(s, q, issued) && t !in issued
    ensures HolderOk(s, q, issued[t := x])
  {
  }

  lemma AtQueueHolders(b: BrokerState, q0: string, step: Step, q: string)
    requires TokensOk(b) && CanStep(b, AtQueue(q0, step)) && DrawsFresh(b, AtQueue(q0, step)) && q in b.queues
    ensures HolderOk(Next(b, AtQueue(q0, step)).queues[q], q, Next(b, AtQueue(q0, step)).issued)
  {
    TokenOfMove(b, q0, step);
    DistributorStep(b.queues[q0], step);
    assert HolderOk(b.queues[q0], q0, b.issued) && HolderOk(b.queues[q], q, b.issued);
    if q == q0 {
      HolderStep(b.queues[q], q, b.issued, step);
    } else if step.Reserve? {
      HolderOther(b.queues[q], q, b.issued, step.token, q0);
    }
  }

  // ---------------------------------------------------------------- retired tokens

  lemma StaysOut(st: Store, mv: Move, t: string)
    requires Possible(st, mv) && !InFlight(st, t) && (mv.ReserveHead? ==> mv.entry.token != t)
    ensures !InFlight(Shift(st, mv), t)
  {
    NotInFlight(st.inflight, t);
    NotInFlight(Shift(st, mv).inflight, t);
  }

  /** No other step but a restart puts a token in flight or takes one out; a queue is deleted only when it holds none. */
  lemma HeldUnchanged(b: BrokerState, a: BrokerStep, t: string, q: string)
    requires CanStep(b, a) && !a.AtQueue? && !a.Restart?
    ensures Held(Next(b, a), t, q) == Held(b, t, q)
  {
    if a.DeleteQueue? {
      HeldAfterDelete(b, a.name, a.appended, a.visiting, t, q);
    }
  }

  lemma HeldAfterDelete(b: BrokerState, name: string, appended: bool, visiting: seq<string>, t: string, q: string)
    requires CanStep(b, DeleteQueue(name, appended, visiting))
    ensures Held(Next(b, DeleteQueue(name, appended, visiting)), t, q) == Held(b, t, q)
  {
  }

  lemma IssuedGrows(b: BrokerState, a: BrokerStep, t: string)
    requires t in b.issued && CanStep(b, a) && DrawsFresh(b, a)
    ensures t in Next(b, a).issued && Next(b, a).issued[t] == b.issued[t]
  {
    if a.AtQueue? {
      DistributorStep(b.queues[a.queue], a.step);
    } else if a.AtDetached? {
      DistributorStep(b.detached[a.index], a.step);
    }
  }

  lemma RetiredAtQueue(b: BrokerState, q0: string, step: Step, t: string, q: string)
    requires Retired(b, t) && CanStep(b, AtQueue(q0, step)) && DrawsFresh(b, AtQueue(q0, step))
    ensures !Held(Next(b, AtQueue(q0, step)), t, q)
  {
    assert !Held(b, t, q0) && !Held(b, t, q);
    DistributorStep(b.queues[q0], step);
    StaysOut(b.queues[q0].store, MoveOf(b.queues[q0], step), t);
    HeldAfter(b, q0, step, t, q);
  }

  /** A retired token stays retired, so whatever queue a later ack reaches, it is refused there. */
  lemma RetiredStep(b: BrokerState, a: BrokerStep, t: string)
    requires Retired(b, t) && CanStep(b, a) && DrawsFresh(b, a)
    ensures Retired(Next(b, a), t)
  {
    IssuedGrows(b, a, t);
    forall q ensures !Held(Next(b, a), t, q) {
      assert !Held(b, t, q);
      if a.AtQueue? {
        RetiredAtQueue(b, a.queue, a.step, t, q);
      } else if !a.Restart? {
        HeldUnchanged(b, a, t, q);
      }
    }
  }

  // ---------------------------------------------------------------- deleted queues

  /** With nothing in flight and nobody to deliver to, a closed queue can only push a held delivery back and bury it. */
  lemma DetachedMove(b: BrokerState, s: QueueState, step: Step)
    requires DetachedOk(b, s) && Enabled(s, step)
    ensures !step.Reserve? && Apply(s, step).closed && Apply(s, step).order == [] && Apply(s, step).store.inflight == []
    ensures Apply(s, step).distributor.Holding? ==> Apply(s, step).distributor == s.distributor
    ensures var mv := MoveOf(s, step);
            && TokenLeaving(s.store, mv) == None && !mv.ReserveHead?
            && (mv.PushBack? ==> s.distributor.Holding? && mv.delivery == s.distributor.delivery)
  {
  }

  lemma AtDetachedTokens(b: BrokerState, i: nat, step: Step, t: string, q: string)
    requires TokensOk(b) && CanStep(b, AtDetached(i, step))
    ensures TokenOk(Next(b, AtDetached(i, step)), t, q)
  {
    var s := b.detached[i];
    assert TokenOk(b, t, q) && DetachedOk(b, s);
    DetachedMove(b, s, step);
    OwnersFollow(b.owners, s.name, s.store, MoveOf(s, step), t);
    HeldUnchanged(b, AtDetached(i, step), t, q);
  }

  lemma DetachedKept(b: BrokerState, a: BrokerStep, s: QueueState)
    requires DetachedOk(b, s) && CanStep(b, a) && DrawsFresh(b, a)
    ensures DetachedOk(Next(b, a), s)
  {
    if s.distributor.Holding? {
      RetiredStep(b, a, s.distributor.delivery.token);
    }
  }

  lemma DetachedStepOk(b: BrokerState, i: nat, step: Step)
    requires TokensOk(b) && CanStep(b, AtDetached(i, step)) && DrawsFresh(b, AtDetached(i, step))
    ensures DetachedOk(Next(b, AtDetached(i, step)), Apply(b.detached[i], step))
  {
    assert DetachedOk(b, b.detached[i]);
    DetachedMove(b, b.detached[i], step);
    DetachedKept(b, AtDetached(i, step), b.detached[i]);
  }

  /** A queue that is deleted has nothing in flight, and no other queue can have what it holds. */
  lemma HeldIsRetired(b: BrokerState, name: string)
    requires TokensOk(b) && QueueDeletable(b, name)
    ensures DetachedOk(b, CloseAll(b.queues[name]))
  {
    var s := b.queues[name];
    assert HolderOk(s, name, b.issued);
    if s.distributor.Holding? {
      var t := s.distributor.delivery.token;
      forall q ensures !Held(b, t, q) {
        assert TokenOk(b, t, q);
      }
    }
  }

  /** The deleted queues after a step that is not one of their own: the same, perhaps one more, or none. */
  lemma DetachedAfter(b: BrokerState, a: BrokerStep, i: nat)
    requires TokensOk(b) && CanStep(b, a) && !a.AtDetached? && i < |Next(b, a).detached|
    ensures DetachedOk(b, Next(b, a).detached[i])
  {
    if i < |b.detached| {
      assert DetachedOk(b, b.detached[i]);
    }
    if (a.DeleteQueue? || a.InterruptDelete?) && QueueDeletable(b, a.name) {
      HeldIsRetired(b, a.name);
    }
  }

  lemma AllDetached(b: BrokerState, a: BrokerStep, i: nat)
    requires TokensOk(b) && CanStep(b, a) && DrawsFresh(b, a) && i < |Next(b, a).detached|
    ensures DetachedOk(Next(b, a), Next(b, a).detached[i])
  {
    if a.AtDetached? {
      if i == a.index {
        DetachedStepOk(b, i, a.step);
      } else {
        assert DetachedOk(b, b.detached[i]);
        DetachedKept(b, a, b.detached[i]);
      }
    } else {
      DetachedAfter(b, a, i);
      DetachedKept(b, a, Next(b, a).detached[i]);
    }
  }

  // ---------------------------------------------------------------- steps of the broker

  lemma OtherTokens(b: BrokerState, a: BrokerStep, t: string, q: string)
    requires TokensOk(b) && CanStep(b, a) && !a.AtQueue? && !a.AtDetached? && !a.Restart?
    ensures TokenOk(Next(b, a), t, q)
  {
    assert TokenOk(b, t, q);
    HeldUnchanged(b, a, t, q);
  }

  lemma OtherHolders(b: BrokerState, a: BrokerStep, q: string)
    requires TokensOk(b) && CanStep(b, a) && DrawsFresh(b, a) && !a.AtQueue? && !a.Restart? && q in Next(b, a).queues
    ensures HolderOk(Next(b, a).queues[q], q, Next(b, a).issued)
  {
    assert q in b.queues ==> HolderOk(b.queues[q], q, b.issued);
    if a.AtDetached? {
      assert DetachedOk(b, b.detached[a.index]);
      DetachedMove(b, b.detached[a.index], a.step);
    }
  }

  lemma BootTokens(cfg: Config, log: seq<Record>, visiting: seq<string>, issued: map<string, string>)
    requires Visits(visiting, Wal.Replay(log).exchanges)
    ensures TokensOk(Boot(cfg, log, visiting, issued))
  {
  }

  /** Every step of the broker keeps the token table, whatever ids clients choose and whenever reservations are cancelled. */
  lemma TokensStep(b: BrokerState, a: BrokerStep)
    requires TokensOk(b) && CanStep(b, a) && DrawsFresh(b, a)
    ensures TokensOk(Next(b, a))
  {
    if a.Restart? {
      BootTokens(b.cfg, b.log, a.visiting, b.issued);
    } else {
      forall t, q ensures TokenOk(Next(b, a), t, q) {
        match a
        case AtQueue(x, step) => AtQueueTokens(b, x, step, t, q);
        case AtDetached(i, step) => AtDetachedTokens(b, i, step, t, q);
        case _ => OtherTokens(b, a, t, q);
      }
      forall q | q in Next(b, a).queues ensures HolderOk(Next(b, a).queues[q], q, Next(b, a).issued) {
        if a.AtQueue? {
          AtQueueHolders(b, a.queue, a.step, q);
        } else {
          OtherHolders(b, a, q);
        }
      }
      forall i | 0 <= i < |Next(b, a).detached| ensures DetachedOk(Next(b, a), Next(b, a).detached[i]) {
        AllDetached(b, a, i);
      }
    }
  }

  /** A successful ack retires its token, and only the queue that issued the token can make it. */
  lemma AckRetires(b: BrokerState, q: string, t: string)
    requires TokensOk(b) && Held(b, t, q)
    ensures t in b.issued && b.issued[t] == q && CanStep(b, AtQueue(q, Ack(t, true)))
    ensures Retired(Next(b, AtQueue(q, Ack(t, true))), t)
  {
    var a := AtQueue(q, Ack(t, true));
    assert TokenOk(b, t, q) && HolderOk(b.queues[q], q, b.issued);
    forall x ensures !Held(Next(b, a), t, x) {
      assert TokenOk(b, t, x);
      HeldAfter(b, q, a.step, t, x);
      InFlightShift(b.queues[q].store, MoveOf(b.queues[q], a.step), t);
    }
  }
}
