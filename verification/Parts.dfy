/** The clock and the in-flight manager. */
module Parts {
  import opened Types
  import opened Delivery

  /** A clock that never runs backwards. */
  class Clock {
    var now: Time

    constructor () {
      now := 0;
    }

    method Read() returns (t: Time)
      modifies this
      ensures t == now && now >= old(now)
    {
      var elapsed: int := *;
      if elapsed > 0 {
        now := now + elapsed;
      }
      t := now;
    }
  }

  datatype InFlightMessage = InFlightMessage(message: Message, consumer: string, deliveredAt: Time)

  predicate Overdue(deliveries: map<string, InFlightMessage>, token: string, now: Time, timeout: int) {
    token in deliveries && now - deliveries[token].deliveredAt > timeout
  }

  /** Whether `d` repeats the table's overdue entry under its token. */
  predicate Reports(deliveries: map<string, InFlightMessage>, d: Delivery, now: Time, timeout: int) {
    && Overdue(deliveries, d.token, now, timeout)
    && d.message == deliveries[d.token].message && d.consumer == deliveries[d.token].consumer
  }

  ghost predicate Listed(items: seq<Delivery>, token: string) {
    exists i :: 0 <= i < |items| && items[i].token == token
  }

  class Manager {
    var deliveries: map<string, InFlightMessage>

    constructor ()
      ensures deliveries == map[]
    {
      deliveries := map[];
    }

    method Add(token: string, message: Message, consumer: string, now: Time)
      modifies this
      ensures deliveries == old(deliveries)[token := InFlightMessage(message, consumer, now)]
    {
      deliveries := deliveries[token := InFlightMessage(message, consumer, now)];
    }

    method Get(token: string) returns (r: Option<InFlightMessage>)
      ensures r == if token in deliveries then Some(deliveries[token]) else None
    {
      r := if token in deliveries then Some(deliveries[token]) else None;
    }

    method Remove(token: string) returns (r: Option<InFlightMessage>)
      modifies this
      ensures r == if token in old(deliveries) then Some(old(deliveries)[token]) else None
      ensures deliveries == old(deliveries) - {token}
    {
      if token !in deliveries {
        r := None;
      } else {
        r := Some(deliveries[token]);
        deliveries := deliveries - {token};
      }
    }

    /** The overdue deliveries, each once, in whatever order the table yields them. */
    method Expired(now: Time, timeout: int) returns (r: seq<Delivery>)
      ensures forall i, j :: 0 <= i < j < |r| ==> r[i].token != r[j].token
      ensures forall i :: 0 <= i < |r| ==> Reports(deliveries, r[i], now, timeout)
      ensures forall t :: Overdue(deliveries, t, now, timeout) ==> Listed(r, t)
      ensures forall t :: Listed(r, t) ==> t in deliveries
      ensures forall t :: t in deliveries ==> (Listed(r, t) <==> now - deliveries[t].deliveredAt > timeout)
      ensures forall i :: 0 <= i < |r| && r[i].token in deliveries ==>
                r[i] == Delivery(deliveries[r[i].token].message, r[i].token, deliveries[r[i].token].consumer)
    {
      r := [];
      var rest := deliveries.Keys;
      while rest != {}
        invariant rest <= deliveries.Keys
        invariant forall i, j :: 0 <= i < j < |r| ==> r[i].token != r[j].token
        invariant forall i :: 0 <= i < |r| ==> r[i].token !in rest && Reports(deliveries, r[i], now, timeout)
        invariant forall t :: Overdue(deliveries, t, now, timeout) ==> t in rest || Listed(r, t)
        decreases |rest|
      {
        var token :| token in rest;
        rest := rest - {token};
        ghost var before := r;
        if now - deliveries[token].deliveredAt > timeout {
          r := r + [Delivery(deliveries[token].message, token, deliveries[token].consumer)];
          assert r[|before|].token == token && Listed(r, token);
        }
        assert forall i :: 0 <= i < |before| ==> r[i] == before[i];
        forall t | Listed(before, t) ensures Listed(r, t) {
          var i :| 0 <= i < |before| && before[i].token == t;
          assert r[i].token == t;
        }
      }
    }
  }
}
