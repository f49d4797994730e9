/** The broker's value types: messages, bindings and write-ahead-log records. */
module Types {

  datatype Option<+T> = None | Some(value: T)

  const DEFAULT_QUEUE := "default"
  const DEFAULT_EXCHANGE := "default"

  /** Time is a count of clock ticks; `expiryAt` is `None` for a message without a TTL. */
  type Time = int

  datatype Message = Message(id: string, payload: string, timestamp: Time, retry: int, expiryAt: Option<Time>)

  datatype Binding = Binding(queueName: string, bindingKey: string)

  /** The state of one exchange: its type and its bindings in the order they were made. */
  datatype ExchangeState = ExchangeState(exchangeType: string, bindings: seq<Binding>)

  /** `Legacy` is a log line without a type: a bare message of the default queue. */
  datatype Record =
    | Legacy(message: Message)
    | QueueCreated(queue: string)
    | QueueDeleted(queue: string)
    | Published(queue: string, message: Message, messageId: string)
    | Requeued(queue: string, message: Message, messageId: string)
    | Acknowledged(queue: string, message: Message, messageId: string)
    | DeadLettered(queue: string, messageId: string)
    | ExchangeCreated(exchange: string, exchangeType: string)
    | ExchangeDeleted(exchange: string)
    | QueueBinded(exchange: string, queue: string, bindingKey: string)
    | QueueUnbinded(exchange: string, queue: string, bindingKey: string)

  /** One append to the log, and whether it succeeded. */
  datatype Attempt = Attempt(record: Record, ok: bool)

  datatype Config = Config(ackTimeout: int, maxRetries: int, queueSize: int, prefetch: int)
}

/** Sequence facts shared by the other modules. */
module Sequences {

  ghost predicate Distinct<T>(s: seq<T>) {
    forall i, j :: 0 <= i < j < |s| ==> s[i] != s[j]
  }

  function RemoveAt<T>(s: seq<T>, i: nat): (r: seq<T>)
    requires i < |s|
    ensures |r| == |s| - 1
  {
    s[..i] + s[i + 1..]
  }

  lemma ConcatAssociative<T>(a: seq<T>, b: seq<T>, c: seq<T>)
    ensures a + (b + c) == a + b + c
  {
  }

  lemma SplitAt<T>(s: seq<T>, i: nat)
    requires i < |s|
    ensures s == s[..i] + ([s[i]] + s[i + 1..])
  {
  }

  lemma RemoveAtBag<T>(s: seq<T>, i: nat)
    requires i < |s|
    ensures multiset(s) == multiset(RemoveAt(s, i)) + multiset{s[i]}
  {
    assert s == s[..i] + [s[i]] + s[i + 1..];
  }

  lemma RemoveAtConcat<T>(a: seq<T>, b: seq<T>, i: nat)
    requires i < |a| + |b|
    ensures RemoveAt(a + b, i) == if i < |a| then RemoveAt(a, i) + b else a + RemoveAt(b, i - |a|)
  {
    if i < |a| {
      assert RemoveAt(a + b, i) == RemoveAt(a, i) + b;
    } else {
      assert RemoveAt(a + b, i) == a + RemoveAt(b, i - |a|);
    }
  }

  /** Distinctness is a property of the bag of elements. */
  lemma DistinctBag<T>(s: seq<T>)
    ensures Distinct(s) <==> forall x :: multiset(s)[x] <= 1
  {
    if Distinct(s) {
      forall x ensures multiset(s)[x] <= 1 {
        if x in s {
          var i :| 0 <= i < |s| && s[i] == x;
          RemoveAtBag(s, i);
          assert x !in RemoveAt(s, i);
        }
      }
    } else {
      var i, j :| 0 <= i < j < |s| && s[i] == s[j];
      RemoveAtBag(s, i);
      assert RemoveAt(s, i)[j - 1] == s[j];
      assert multiset(s)[s[i]] >= 2;
    }
  }
}
