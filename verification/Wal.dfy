/**
  The write-ahead log as a sequence of records, and its replay.

  `Replay` is what `Load` computes over the whole shared log. `ReplayQueue` and
  `ReplayExchange` are what one queue or one exchange sees of it.
 */
module Wal {
  import opened Types
  import opened Sequences

  datatype RecoveredState = RecoveredState(
    pending: map<string, seq<Message>>,
    exchanges: map<string, ExchangeState>)

  function Lookup<K, V>(m: map<K, V>, k: K): Option<V> {
    if k in m then Some(m[k]) else None
  }

  function MessagesOf(pending: map<string, seq<Message>>, queue: string): seq<Message> {
    if queue in pending then pending[queue] else []
  }

  /** The messages whose id is not `id`, in order. */
  function Without(messages: seq<Message>, id: string): (r: seq<Message>) {
    if messages == [] then []
    else if messages[0].id == id then Without(messages[1..], id)
    else [messages[0]] + Without(messages[1..], id)
  }

  /** Whether an unbind of `key` and `queue` removes `b`; the empty key stands for every key. */
  predicate Unbinds(b: Binding, key: string, queue: string) {
    b.queueName == queue && (key == "" || b.bindingKey == key)
  }

  function Unbound(bindings: seq<Binding>, key: string, queue: string): (r: seq<Binding>)
    ensures forall b :: b in r <==> b in bindings && !Unbinds(b, key, queue)
    ensures |r| <= |bindings|
  {
    if bindings == [] then []
    else
      var rest := Unbound(bindings[1..], key, queue);
      assert bindings == [bindings[0]] + bindings[1..];
      if Unbinds(bindings[0], key, queue) then rest else [bindings[0]] + rest
  }

  function ApplyRecord(st: RecoveredState, r: Record): RecoveredState {
    match r
    case Legacy(m) =>
      st.(pending := st.pending[DEFAULT_QUEUE := MessagesOf(st.pending, DEFAULT_QUEUE) + [m]])
    case QueueCreated(q) =>
      if q in st.pending then st else st.(pending := st.pending[q := []])
    case Published(q, m, _) =>
      st.(pending := st.pending[q := MessagesOf(st.pending, q) + [m]])
    case Requeued(q, m, id) =>
      st.(pending := st.pending[q := Without(MessagesOf(st.pending, q), id) + [m]])
    case Acknowledged(q, _, id) =>
      st.(pending := st.pending[q := Without(MessagesOf(st.pending, q), id)])
    case DeadLettered(q, id) =>
      st.(pending := st.pending[q := Without(MessagesOf(st.pending, q), id)])
    case QueueDeleted(q) =>
      st.(pending := st.pending - {q})
    case QueueBinded(e, q, k) =>
      if e !in st.exchanges then st
      else st.(exchanges := st.exchanges[e := st.exchanges[e].(bindings := st.exchanges[e].bindings + [Binding(q, k)])])
    case QueueUnbinded(e, q, k) =>
      if e !in st.exchanges then st
      else st.(exchanges := st.exchanges[e := st.exchanges[e].(bindings := Unbound(st.exchanges[e].bindings, k, q))])
    case ExchangeCreated(e, t) =>
      st.(exchanges := st.exchanges[e := ExchangeState(t, [])])
    case ExchangeDeleted(e) =>
      st.(exchanges := st.exchanges - {e})
  }

  function Replay(log: seq<Record>): RecoveredState {
    if log == [] then RecoveredState(map[], map[])
    else ApplyRecord(Replay(log[..|log| - 1]), log[|log| - 1])
  }

  // ---------------------------------------------------------------- the log file

  method RemoveMessage(messages: seq<Message>, id: string) returns (r: seq<Message>)
    ensures r == Without(messages, id)
  {
    r := [];
    for i := 0 to |messages|
      invariant r == Without(messages[..i], id)
    {
      WithoutConcat(messages[..i], [messages[i]], id);
      assert messages[..i + 1] == messages[..i] + [messages[i]];
      if messages[i].id != id {
        r := r + [messages[i]];
      }
    }
    assert messages[..|messages|] == messages;
  }

  method RemoveBindings(bindings: seq<Binding>, key: string, queue: string) returns (r: seq<Binding>)
    ensures r == Unbound(bindings, key, queue)
    ensures forall b :: b in r <==> b in bindings && !(b.queueName == queue && (key == "" || b.bindingKey == key))
  {
    r := [];
    for i := 0 to |bindings|
      invariant r == Unbound(bindings[..i], key, queue)
    {
      UnboundConcat(bindings[..i], [bindings[i]], key, queue);
      assert bindings[..i + 1] == bindings[..i] + [bindings[i]];
      if bindings[i].queueName != queue || (key != "" && bindings[i].bindingKey != key) {
        r := r + [bindings[i]];
      }
    }
    assert bindings[..|bindings|] == bindings;
  }

  class FileWal {
    var records: seq<Record>
    var closed: bool
    /** History: every append asked for, and its outcome. */
    ghost var attempts: seq<Attempt>

    constructor (existing: seq<Record>)
      ensures records == existing && !closed && attempts == []
    {
      records, closed, attempts := existing, false, [];
    }

    /** The write or the sync may fail; a failed append leaves the log as it was. */
    method Append(record: Record) returns (ok: bool)
      modifies this`records, this`attempts
      ensures old(closed) ==> !ok
      ensures attempts == old(attempts) + [Attempt(record, ok)]
      ensures records == if ok then old(records) + [record] else old(records)
    {
      ok := *;
      if closed {
        ok := false;
      }
      attempts := attempts + [Attempt(record, ok)];
      if ok {
        records := records + [record];
      }
    }

    method Close()
      modifies this`closed
      ensures closed
    {
      closed := true;
    }

    method Load() returns (state: RecoveredState)
      ensures state == Replay(records)
    {
      var pending: map<string, seq<Message>>, exchanges: map<string, ExchangeState> := map[], map[];
      for i := 0 to |records|
        invariant RecoveredState(pending, exchanges) == Replay(records[..i])
      {
        var record := records[i];
        assert records[..i + 1][..i] == records[..i];
        match record {
          case Legacy(m) =>
            pending := pending[DEFAULT_QUEUE := MessagesOf(pending, DEFAULT_QUEUE) + [m]];
          case QueueCreated(q) =>
            if q !in pending {
              pending := pending[q := []];
            }
          case Published(q, m, _) =>
            pending := pending[q := MessagesOf(pending, q) + [m]];
          case Requeued(q, m, id) =>
            var kept := RemoveMessage(MessagesOf(pending, q), id);
            pending := pending[q := kept + [m]];
          case Acknowledged(q, _, id) =>
            var kept := RemoveMessage(MessagesOf(pending, q), id);
            pending := pending[q := kept];
          case DeadLettered(q, id) =>
            var kept := RemoveMessage(MessagesOf(pending, q), id);
            pending := pending[q := kept];
          case QueueDeleted(q) =>
            pending := pending - {q};
          case QueueBinded(e, q, k) =>
            if e in exchanges {
              var x := exchanges[e];
              exchanges := exchanges[e := x.(bindings := x.bindings + [Binding(q, k)])];
            }
          case QueueUnbinded(e, q, k) =>
            if e in exchanges {
              var x := exchanges[e];
              var kept := RemoveBindings(x.bindings, k, q);
              exchanges := exchanges[e := x.(bindings := kept)];
            }
          case ExchangeCreated(e, t) =>
            exchanges := exchanges[e := ExchangeState(t, [])];
          case ExchangeDeleted(e) =>
            exchanges := exchanges - {e};
        }
      }
      assert records[..|records|] == records;
      state := RecoveredState(pending, exchanges);
    }
  }

  // ---------------------------------------------------------------- one queue's view

  /** Whether `r` can change what replay holds for queue `q`. */
  predicate ConcernsQueue(q: string, r: Record) {
    match r
    case Legacy(_) => q == DEFAULT_QUEUE
    case QueueCreated(x) => x == q
    case QueueDeleted(x) => x == q
    case Published(x, _, _) => x == q
    case Requeued(x, _, _) => x == q
    case Acknowledged(x, _, _) => x == q
    case DeadLettered(x, _) => x == q
    case _ => false
  }

  function OnlyQueue(q: string, log: seq<Record>): seq<Record> {
    if log == [] then []
    else
      var rest := OnlyQueue(q, log[..|log| - 1]);
      if ConcernsQueue(q, log[|log| - 1]) then rest + [log[|log| - 1]] else rest
  }

  function OrEmpty(messages: Option<seq<Message>>): seq<Message> {
    if messages.Some? then messages.value else []
  }

  /** The effect of one of `q`'s own records on `q`'s messages. */
  function QueueEffect(cur: Option<seq<Message>>, r: Record): Option<seq<Message>> {
    match r
    case Legacy(m) => Some(OrEmpty(cur) + [m])
    case QueueCreated(_) => Some(OrEmpty(cur))
    case QueueDeleted(_) => None
    case Published(_, m, _) => Some(OrEmpty(cur) + [m])
    case Requeued(_, m, id) => Some(Without(OrEmpty(cur), id) + [m])
    case Acknowledged(_, _, id) => Some(Without(OrEmpty(cur), id))
    case DeadLettered(_, id) => Some(Without(OrEmpty(cur), id))
    case _ => cur
  }

  function ReplayQueue(q: string, log: seq<Record>): Option<seq<Message>> {
    if log == [] then None
    else
      var before := ReplayQueue(q, log[..|log| - 1]);
      if ConcernsQueue(q, log[|log| - 1]) then QueueEffect(before, log[|log| - 1]) else before
  }

  lemma {:induction false} ReplayQueueAgrees(q: string, log: seq<Record>)
    ensures Lookup(Replay(log).pending, q) == ReplayQueue(q, log)
  {
    if log != [] {
      ReplayQueueAgrees(q, log[..|log| - 1]);
    }
  }

  lemma {:induction false} ReplayQueueOnly(q: string, log: seq<Record>)
    ensures ReplayQueue(q, OnlyQueue(q, log)) == ReplayQueue(q, log)
  {
    if log != [] {
      var last := log[|log| - 1];
      var rest := OnlyQueue(q, log[..|log| - 1]);
      ReplayQueueOnly(q, log[..|log| - 1]);
      if ConcernsQueue(q, last) {
        assert (rest + [last])[..|rest|] == rest;
      }
    }
  }

  /** For every log, a queue recovers the same messages from the shared log as from its own records alone. */
  lemma SharedLogNonInterference(q: string, log: seq<Record>)
    ensures Lookup(Replay(log).pending, q) == Lookup(Replay(OnlyQueue(q, log)).pending, q)
  {
    ReplayQueueAgrees(q, log);
    ReplayQueueAgrees(q, OnlyQueue(q, log));
    ReplayQueueOnly(q, log);
  }

  /** Replaying a longer log continues from the shorter one. */
  lemma {:induction false} ReplayQueueAppend(q: string, log: seq<Record>, more: seq<Record>)
    requires forall i :: 0 <= i < |more| ==> !ConcernsQueue(q, more[i])
    ensures ReplayQueue(q, log + more) == ReplayQueue(q, log)
  {
    if more == [] {
      assert log + more == log;
    } else {
      var init := more[..|more| - 1];
      assert (log + more)[..|log + more| - 1] == log + init;
      ReplayQueueAppend(q, log, init);
    }
  }

  lemma ReplayQueueSnoc(q: string, log: seq<Record>, r: Record)
    ensures ReplayQueue(q, log + [r]) ==
            if ConcernsQueue(q, r) then QueueEffect(ReplayQueue(q, log), r) else ReplayQueue(q, log)
  {
    assert (log + [r])[..|log|] == log;
  }

  // ---------------------------------------------------------------- one exchange's view

  predicate ConcernsExchange(e: string, r: Record) {
    match r
    case ExchangeCreated(x, _) => x == e
    case ExchangeDeleted(x) => x == e
    case QueueBinded(x, _, _) => x == e
    case QueueUnbinded(x, _, _) => x == e
    case _ => false
  }

  function ExchangeEffect(cur: Option<ExchangeState>, r: Record): Option<ExchangeState> {
    match r
    case ExchangeCreated(_, t) => Some(ExchangeState(t, []))
    case ExchangeDeleted(_) => None
    case QueueBinded(_, q, k) =>
      if cur.None? then None else Some(cur.value.(bindings := cur.value.bindings + [Binding(q, k)]))
    case QueueUnbinded(_, q, k) =>
      if cur.None? then None else Some(cur.value.(bindings := Unbound(cur.value.bindings, k, q)))
    case _ => cur
  }

  function ReplayExchange(e: string, log: seq<Record>): Option<ExchangeState> {
    if log == [] then None
    else
      var before := ReplayExchange(e, log[..|log| - 1]);
      if ConcernsExchange(e, log[|log| - 1]) then ExchangeEffect(before, log[|log| - 1]) else before
  }

  lemma {:induction false} ReplayExchangeAgrees(e: string, log: seq<Record>)
    ensures Lookup(Replay(log).exchanges, e) == ReplayExchange(e, log)
  {
    if log != [] {
      ReplayExchangeAgrees(e, log[..|log| - 1]);
    }
  }

  lemma ReplayExchangeSnoc(e: string, log: seq<Record>, r: Record)
    ensures ReplayExchange(e, log + [r]) ==
            if ConcernsExchange(e, r) then ExchangeEffect(ReplayExchange(e, log), r) else ReplayExchange(e, log)
  {
    assert (log + [r])[..|log|] == log;
  }

  lemma {:induction false} ReplayExchangeAppend(e: string, log: seq<Record>, more: seq<Record>)
    requires forall i :: 0 <= i < |more| ==> !ConcernsExchange(e, more[i])
    ensures ReplayExchange(e, log + more) == ReplayExchange(e, log)
  {
    if more == [] {
      assert log + more == log;
    } else {
      var init := more[..|more| - 1];
      assert (log + more)[..|log + more| - 1] == log + init;
      ReplayExchangeAppend(e, log, init);
    }
  }

  // ---------------------------------------------------------------- removal by id

  lemma {:induction false} WithoutConcat(a: seq<Message>, b: seq<Message>, id: string)
    ensures Without(a + b, id) == Without(a, id) + Without(b, id)
  {
    if a == [] {
      assert a + b == b;
    } else {
      assert (a + b)[1..] == a[1..] + b;
      WithoutConcat(a[1..], b, id);
    }
  }

  lemma {:induction false} UnboundConcat(a: seq<Binding>, b: seq<Binding>, key: string, queue: string)
    ensures Unbound(a + b, key, queue) == Unbound(a, key, queue) + Unbound(b, key, queue)
  {
    if a == [] {
      assert a + b == b;
    } else {
      assert (a + b)[1..] == a[1..] + b;
      UnboundConcat(a[1..], b, key, queue);
    }
  }

  lemma {:induction false} UnboundAbsent(bindings: seq<Binding>, key: string, queue: string)
    requires forall b :: b in bindings ==> !Unbinds(b, key, queue)
    ensures Unbound(bindings, key, queue) == bindings
  {
    if bindings != [] {
      assert bindings[0] in bindings;
      UnboundAbsent(bindings[1..], key, queue);
    }
  }

  /** Removal by id keeps exactly the occurrences of the messages with another id. */
  lemma {:induction false} WithoutBag(messages: seq<Message>, id: string, m: Message)
    ensures multiset(Without(messages, id))[m] == if m.id == id then 0 else multiset(messages)[m]
  {
    if messages != [] {
      WithoutBag(messages[1..], id, m);
      assert messages == [messages[0]] + messages[1..];
    }
  }

  lemma WithoutSameBag(a: seq<Message>, b: seq<Message>, id: string)
    requires multiset(a) == multiset(b)
    ensures multiset(Without(a, id)) == multiset(Without(b, id))
  {
    forall m ensures multiset(Without(a, id))[m] == multiset(Without(b, id))[m] {
      WithoutBag(a, id, m);
      WithoutBag(b, id, m);
    }
  }

  ghost predicate DistinctIds(messages: seq<Message>) {
    forall i, j :: 0 <= i < j < |messages| ==> messages[i].id != messages[j].id
  }

  lemma {:induction false} WithoutAbsent(messages: seq<Message>, id: string)
    requires forall i :: 0 <= i < |messages| ==> messages[i].id != id
    ensures Without(messages, id) == messages
  {
    if messages != [] {
      WithoutAbsent(messages[1..], id);
    }
  }

  /** No other message has the id of the one at `i`. */
  ghost predicate Alone(messages: seq<Message>, i: nat)
    requires i < |messages|
  {
    forall j :: 0 <= j < |messages| && j != i ==> messages[j].id != messages[i].id
  }

  lemma {:induction false} WithoutShorter(messages: seq<Message>, id: string)
    ensures |Without(messages, id)| <= |messages|
    ensures (exists i :: 0 <= i < |messages| && messages[i].id == id) ==> |Without(messages, id)| < |messages|
  {
    if messages != [] {
      WithoutShorter(messages[1..], id);
      if messages[0].id != id && exists i :: 0 <= i < |messages| && messages[i].id == id {
        var i :| 0 <= i < |messages| && messages[i].id == id;
        assert messages[1..][i - 1].id == id;
      }
    }
  }

  lemma WithoutAround(before: seq<Message>, m: Message, after: seq<Message>)
    ensures Without(before + ([m] + after), m.id) == Without(before, m.id) + Without(after, m.id)
  {
    WithoutConcat(before, [m] + after, m.id);
    WithoutConcat([m], after, m.id);
    assert Without([m], m.id) == [];
  }

  ghost predicate Free(messages: seq<Message>, id: string) {
    forall i :: 0 <= i < |messages| ==> messages[i].id != id
  }

  lemma AloneIff(messages: seq<Message>, before: seq<Message>, m: Message, after: seq<Message>)
    requires messages == before + ([m] + after)
    ensures Alone(messages, |before|) <==> Free(before, m.id) && Free(after, m.id)
  {
    var i := |before|;
    if Alone(messages, i) {
      forall j | 0 <= j < |before| ensures before[j].id != m.id {
        assert messages[j] == before[j];
      }
      forall j | 0 <= j < |after| ensures after[j].id != m.id {
        assert messages[i + 1 + j] == after[j];
      }
    } else {
      var j :| 0 <= j < |messages| && j != i && messages[j].id == m.id;
      assert if j < i then before[j].id == m.id else after[j - i - 1].id == m.id;
    }
  }

  lemma WithoutRest(messages: seq<Message>, before: seq<Message>, m: Message, after: seq<Message>)
    requires messages == before + ([m] + after)
    ensures Without(messages, m.id) == before + after <==> Alone(messages, |before|)
  {
    AloneIff(messages, before, m, after);
    WithoutAround(before, m, after);
    if Free(before, m.id) && Free(after, m.id) {
      WithoutAbsent(before, m.id);
      WithoutAbsent(after, m.id);
    } else {
      WithoutShorter(before, m.id);
      WithoutShorter(after, m.id);
    }
  }

  /** Removal by id removes the one message meant, and keeps the others in order, exactly when no other has its id. */
  lemma WithoutIsRemoveAtIff(messages: seq<Message>, i: nat)
    requires i < |messages|
    ensures Without(messages, messages[i].id) == RemoveAt(messages, i) <==> Alone(messages, i)
  {
    SplitAt(messages, i);
    WithoutRest(messages, messages[..i], messages[i], messages[i + 1..]);
  }

  /** Distinct ids survive any reordering. */
  lemma DistinctIdsSameBag(a: seq<Message>, b: seq<Message>)
    requires multiset(a) == multiset(b) && DistinctIds(a)
    ensures DistinctIds(b)
  {
    DistinctBag(a);
    DistinctBag(b);
    forall i, j | 0 <= i < j < |b| ensures b[i].id != b[j].id {
      assert b[i] in multiset(a) && b[j] in multiset(a);
      var k :| 0 <= k < |a| && a[k] == b[i];
      var l :| 0 <= l < |a| && a[l] == b[j];
      assert b[i] != b[j] && k != l;
    }
  }

  // ---------------------------------------------------------------- durability

  predicate Mentions(messages: seq<Message>, id: string) {
    exists i :: 0 <= i < |messages| && messages[i].id == id
  }

  /** Records that can take the message `id` out of queue `q`. */
  predicate Removes(r: Record, q: string, id: string) {
    match r
    case Acknowledged(x, _, d) => x == q && d == id
    case DeadLettered(x, d) => x == q && d == id
    case QueueDeleted(x) => x == q
    case Requeued(x, m, d) => x == q && d == id && m.id != id
    case _ => false
  }

  /** Records that can put a message with this id into queue `q`. */
  predicate Brings(r: Record, q: string, id: string) {
    match r
    case Published(x, m, _) => x == q && m.id == id
    case Requeued(x, m, _) => x == q && m.id == id
    case Legacy(m) => q == DEFAULT_QUEUE && m.id == id
    case _ => false
  }

  lemma {:induction false} WithoutMentions(messages: seq<Message>, gone: string, id: string)
    ensures Mentions(Without(messages, gone), id) <==> Mentions(messages, id) && id != gone
  {
    if messages != [] {
      WithoutMentions(messages[1..], gone, id);
      var rest := Without(messages[1..], gone);
      MentionsCons(messages[0], messages[1..], id);
      MentionsCons(messages[0], rest, id);
      assert messages == [messages[0]] + messages[1..];
    }
  }

  lemma MentionsCons(m: Message, rest: seq<Message>, id: string)
    ensures Mentions([m] + rest, id) <==> m.id == id || Mentions(rest, id)
  {
    if Mentions(rest, id) {
      var i :| 0 <= i < |rest| && rest[i].id == id;
      assert ([m] + rest)[i + 1].id == id;
    }
    assert ([m] + rest)[0] == m;
  }

  lemma MentionsSnoc(messages: seq<Message>, m: Message, id: string)
    ensures Mentions(messages + [m], id) <==> Mentions(messages, id) || m.id == id
  {
    assert (messages + [m])[|messages|] == m;
    if Mentions(messages, id) {
      var i :| 0 <= i < |messages| && messages[i].id == id;
      assert (messages + [m])[i].id == id;
    }
  }

  /** What one record does to the presence of an id in its queue. */
  lemma EffectOnId(q: string, cur: Option<seq<Message>>, r: Record, id: string)
    requires ConcernsQueue(q, r)
    ensures Mentions(OrEmpty(QueueEffect(cur, r)), id) <==>
            Brings(r, q, id) || (Mentions(OrEmpty(cur), id) && !Removes(r, q, id))
  {
    var messages := OrEmpty(cur);
    match r
    case Legacy(m) => MentionsSnoc(messages, m, id);
    case Published(_, m, _) => MentionsSnoc(messages, m, id);
    case Requeued(_, m, d) =>
      WithoutMentions(messages, d, id);
      MentionsSnoc(Without(messages, d), m, id);
    case Acknowledged(_, _, d) => WithoutMentions(messages, d, id);
    case DeadLettered(_, d) => WithoutMentions(messages, d, id);
    case _ =>
  }

  /** A message once brought to a queue is recovered as long as no later record removes it. */
  lemma {:induction false} PublishedSurvives(q: string, log: seq<Record>, k: nat, id: string)
    requires k < |log| && Brings(log[k], q, id)
    requires forall j :: k < j < |log| ==> !Removes(log[j], q, id)
    ensures Mentions(OrEmpty(ReplayQueue(q, log)), id)
    decreases |log|
  {
    var init, last := log[..|log| - 1], log[|log| - 1];
    if k < |log| - 1 {
      PublishedSurvives(q, init, k, id);
    }
    if ConcernsQueue(q, last) {
      EffectOnId(q, ReplayQueue(q, init), last, id);
    }
  }

  /** A message once removed from a queue is not recovered again unless a later record brings its id back. */
  lemma {:induction false} RemovedStaysGone(q: string, log: seq<Record>, k: nat, id: string)
    requires k < |log| && Removes(log[k], q, id)
    requires forall j :: k < j < |log| ==> !Brings(log[j], q, id)
    ensures !Mentions(OrEmpty(ReplayQueue(q, log)), id)
    decreases |log|
  {
    var init, last := log[..|log| - 1], log[|log| - 1];
    if k < |log| - 1 {
      RemovedStaysGone(q, init, k, id);
    }
    if ConcernsQueue(q, last) {
      EffectOnId(q, ReplayQueue(q, init), last, id);
    }
  }
}
