/** Exchanges: their bindings and the queues they route a key to. */
module Exchange {
  import opened Types
  import opened Sequences
  import Topic
  import Wal

  const DIRECT := "direct"
  const FANOUT := "fanout"
  const TOPIC := "topic"

  /** Whether an exchange of the given type sends `routingKey` to a binding; an unknown type is a direct exchange. */
  predicate Matches(exchangeType: string, bindingKey: string, routingKey: string) {
    if exchangeType == FANOUT then true
    else if exchangeType == TOPIC then Topic.LoopMatch(Topic.Split(bindingKey), Topic.Split(routingKey))
    else bindingKey == routingKey
  }

  /** The queues of the matching bindings, in binding order. */
  function Routes(exchangeType: string, bindings: seq<Binding>, routingKey: string): seq<string> {
    if bindings == [] then []
    else
      var last := bindings[|bindings| - 1];
      Routes(exchangeType, bindings[..|bindings| - 1], routingKey)
      + if Matches(exchangeType, last.bindingKey, routingKey) then [last.queueName] else []
  }

  /** The bindings that send `routingKey` to `queue`. */
  ghost function Matching(exchangeType: string, bindings: seq<Binding>, routingKey: string, queue: string): set<Binding> {
    set b | b in bindings && b.queueName == queue && Matches(exchangeType, b.bindingKey, routingKey)
  }

  lemma MatchingSnoc(exchangeType: string, init: seq<Binding>, last: Binding, routingKey: string, queue: string)
    requires last !in init
    ensures |Matching(exchangeType, init + [last], routingKey, queue)| ==
            |Matching(exchangeType, init, routingKey, queue)|
            + if last.queueName == queue && Matches(exchangeType, last.bindingKey, routingKey) then 1 else 0
  {
    var before := Matching(exchangeType, init, routingKey, queue);
    var now := Matching(exchangeType, init + [last], routingKey, queue);
    if last.queueName == queue && Matches(exchangeType, last.bindingKey, routingKey) {
      assert now == before + {last};
    } else {
      assert now == before;
    }
  }

  /** With no binding twice, a queue is named as often as it has matching bindings. */
  lemma {:induction false} RoutesCount(exchangeType: string, bindings: seq<Binding>, routingKey: string, queue: string)
    requires Distinct(bindings)
    ensures multiset(Routes(exchangeType, bindings, routingKey))[queue] == |Matching(exchangeType, bindings, routingKey, queue)|
  {
    if bindings == [] {
      assert Matching(exchangeType, bindings, routingKey, queue) == {};
    } else {
      var init, last := bindings[..|bindings| - 1], bindings[|bindings| - 1];
      RoutesCount(exchangeType, init, routingKey, queue);
      assert bindings == init + [last];
      MatchingSnoc(exchangeType, init, last, routingKey, queue);
    }
  }

  /** A fanout exchange names the queue of every binding, in order, whatever the key. */
  lemma {:induction false} FanoutReachesAll(bindings: seq<Binding>, routingKey: string)
    ensures |Routes(FANOUT, bindings, routingKey)| == |bindings|
    ensures forall i :: 0 <= i < |bindings| ==> Routes(FANOUT, bindings, routingKey)[i] == bindings[i].queueName
  {
    if bindings != [] {
      FanoutReachesAll(bindings[..|bindings| - 1], routingKey);
    }
  }

  /** A direct exchange names the queues of the bindings whose key is the routing key, and a topic exchange of those whose pattern means it. */
  lemma {:induction false} RoutesMeaning(exchangeType: string, bindings: seq<Binding>, routingKey: string, queue: string)
    requires exchangeType == "direct" ||
             (exchangeType == "topic" && "#" !in Topic.Split(routingKey) && forall b :: b in bindings ==> Topic.HashLast(Topic.Split(b.bindingKey)))
    ensures queue in Routes(exchangeType, bindings, routingKey) <==>
            exists b :: b in bindings && b.queueName == queue &&
              if exchangeType == "direct" then b.bindingKey == routingKey
              else Topic.Means(Topic.Split(b.bindingKey), Topic.Split(routingKey))
  {
    if bindings != [] {
      var init, last := bindings[..|bindings| - 1], bindings[|bindings| - 1];
      assert bindings == init + [last];
      RoutesMeaning(exchangeType, init, routingKey, queue);
      if exchangeType == "topic" {
        Topic.MatchCorrect(last.bindingKey, routingKey);
      }
    }
  }

  /** A topic exchange whose keys carry no wildcard routes like a direct exchange. */
  lemma {:induction false} PlainTopicIsDirect(bindings: seq<Binding>, routingKey: string)
    requires forall b :: b in bindings ==> "*" !in Topic.Split(b.bindingKey) && "#" !in Topic.Split(b.bindingKey)
    ensures Routes(TOPIC, bindings, routingKey) == Routes(DIRECT, bindings, routingKey)
  {
    if bindings != [] {
      var last := bindings[|bindings| - 1];
      assert last in bindings;
      PlainTopicIsDirect(bindings[..|bindings| - 1], routingKey);
      Topic.PlainKeyMatchesItself(last.bindingKey, routingKey);
    }
  }

  class BaseExchange {
    const exchangeType: string
    var bindings: seq<Binding>

    constructor (exchangeType: string)
      ensures this.exchangeType == exchangeType && bindings == []
    {
      this.exchangeType, bindings := exchangeType, [];
    }

    method CheckBindingExists(bindingKey: string, queueName: string) returns (found: bool)
      ensures found <==> Binding(queueName, bindingKey) in bindings
    {
      for i := 0 to |bindings|
        invariant Binding(queueName, bindingKey) !in bindings[..i]
      {
        if bindings[i].bindingKey == bindingKey && bindings[i].queueName == queueName {
          assert bindings[i] == Binding(queueName, bindingKey);
          return true;
        }
      }
      return false;
    }

    method HasBinding(bindingKey: string, queueName: string) returns (found: bool)
      ensures found <==> exists b :: b in bindings && Wal.Unbinds(b, bindingKey, queueName)
    {
      for i := 0 to |bindings|
        invariant forall b :: b in bindings[..i] ==> !Wal.Unbinds(b, bindingKey, queueName)
      {
        if bindings[i].queueName == queueName && (bindingKey == "" || bindings[i].bindingKey == bindingKey) {
          assert bindings[i] in bindings && Wal.Unbinds(bindings[i], bindingKey, queueName);
          return true;
        }
      }
      return false;
    }

    /** Adds a binding at the end unless it is there already, and so never holds one twice. */
    method Bind(bindingKey: string, queueName: string) returns (ok: bool)
      modifies this
      ensures ok <==> Binding(queueName, bindingKey) !in old(bindings)
      ensures bindings == if ok then old(bindings) + [Binding(queueName, bindingKey)] else old(bindings)
      ensures old(Distinct(bindings)) ==> Distinct(bindings)
    {
      var exists_ := CheckBindingExists(bindingKey, queueName);
      if exists_ {
        return false;
      }
      bindings := bindings + [Binding(queueName, bindingKey)];
      return true;
    }

    method Unbind(bindingKey: string, queueName: string) returns (ok: bool)
      modifies this
      ensures ok <==> exists b :: b in old(bindings) && Wal.Unbinds(b, bindingKey, queueName)
      ensures bindings == Wal.Unbound(old(bindings), bindingKey, queueName)
    {
      ok := HasBinding(bindingKey, queueName);
      if !ok {
        Wal.UnboundAbsent(bindings, bindingKey, queueName);
        return;
      }
      bindings := Wal.RemoveBindings(bindings, bindingKey, queueName);
    }

    method Route(routingKey: string) returns (queues: seq<string>)
      ensures queues == Routes(exchangeType, bindings, routingKey)
    {
      queues := [];
      for i := 0 to |bindings|
        invariant queues == Routes(exchangeType, bindings[..i], routingKey)
      {
        var b := bindings[i];
        var matched := true;
        if exchangeType == TOPIC {
          matched := Topic.Match(b.bindingKey, routingKey);
        } else if exchangeType != FANOUT {
          matched := b.bindingKey == routingKey;
        }
        assert bindings[..i + 1][..i] == bindings[..i];
        if matched {
          queues := queues + [b.queueName];
        }
      }
      assert bindings[..|bindings|] == bindings;
    }
  }
}
