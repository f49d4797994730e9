/** The choice of the next consumer session: first eligible in cyclic order from a cursor. */
module RoundRobin {
  import opened Types

  /** A session may take another delivery while its unacked count is below the prefetch limit. */
  predicate Eligible(unacked: map<string, int>, prefetch: int, id: string) {
    id in unacked && unacked[id] < prefetch
  }

  function Wrap(i: nat, n: nat): nat
    requires i < 2 * n
  {
    if i < n then i else i - n
  }

  /** Whether the session at distance `k` from the cursor is eligible. */
  predicate EligibleAt(order: seq<string>, unacked: map<string, int>, prefetch: int, cursor: nat, k: nat)
    requires cursor < |order| && k < |order|
  {
    Eligible(unacked, prefetch, order[Wrap(cursor + k, |order|)])
  }

  /** The least distance `k >= d` from the cursor at which an eligible session stands. */
  function FirstEligible(order: seq<string>, unacked: map<string, int>, prefetch: int, cursor: nat, d: nat): (r: Option<nat>)
    requires cursor < |order| && d <= |order|
    ensures r.Some? ==> d <= r.value < |order| && EligibleAt(order, unacked, prefetch, cursor, r.value)
    ensures forall k :: d <= k < (if r.Some? then r.value else |order|) ==>
              !EligibleAt(order, unacked, prefetch, cursor, k)
    decreases |order| - d
  {
    if d == |order| then None
    else if EligibleAt(order, unacked, prefetch, cursor, d) then Some(d)
    else FirstEligible(order, unacked, prefetch, cursor, d + 1)
  }

  /** The index of the chosen session, if any session is eligible. */
  function Select(order: seq<string>, unacked: map<string, int>, prefetch: int, cursor: nat): (r: Option<nat>)
    requires cursor < |order|
    ensures r.Some? ==> r.value < |order| && Eligible(unacked, prefetch, order[r.value])
  {
    match FirstEligible(order, unacked, prefetch, cursor, 0)
    case None => None
    case Some(k) => Some(Wrap(cursor + k, |order|))
  }

  /** Where the cursor stands after a selection; it does not move when nobody is eligible. */
  function CursorAfter(order: seq<string>, unacked: map<string, int>, prefetch: int, cursor: nat): (r: nat)
    requires cursor < |order|
    ensures r < |order|
  {
    match Select(order, unacked, prefetch, cursor)
    case None => cursor
    case Some(i) => Wrap(i + 1, |order|)
  }

  /** How far the cursor has to travel to reach index `i`. */
  function Distance(cursor: nat, i: nat, n: nat): nat
    requires cursor < n && i < n
  {
    if cursor <= i then i - cursor else i + n - cursor
  }

  /** The scan has passed over the sessions at distances below `d`. */
  ghost predicate NoneBefore(order: seq<string>, unacked: map<string, int>, prefetch: int, cursor: nat, d: nat)
    requires cursor < |order| && d <= |order|
  {
    forall k :: 0 <= k < d ==> !EligibleAt(order, unacked, prefetch, cursor, k)
  }

  lemma ScanFound(order: seq<string>, unacked: map<string, int>, prefetch: int, cursor: nat, d: nat)
    requires cursor < |order| && d < |order| && NoneBefore(order, unacked, prefetch, cursor, d)
    requires Eligible(unacked, prefetch, order[Wrap(cursor + d, |order|)])
    ensures Select(order, unacked, prefetch, cursor) == Some(Wrap(cursor + d, |order|))
    ensures CursorAfter(order, unacked, prefetch, cursor) == Wrap(Wrap(cursor + d, |order|) + 1, |order|)
  {
    assert EligibleAt(order, unacked, prefetch, cursor, d);
    assert FirstEligible(order, unacked, prefetch, cursor, 0) == Some(d);
  }

  lemma ScanPassed(order: seq<string>, unacked: map<string, int>, prefetch: int, cursor: nat, d: nat)
    requires cursor < |order| && d < |order| && NoneBefore(order, unacked, prefetch, cursor, d)
    requires !Eligible(unacked, prefetch, order[Wrap(cursor + d, |order|)])
    ensures NoneBefore(order, unacked, prefetch, cursor, d + 1)
    ensures d + 1 == |order| <==> Wrap(Wrap(cursor + d, |order|) + 1, |order|) == cursor
    ensures d + 1 < |order| ==> Wrap(Wrap(cursor + d, |order|) + 1, |order|) == Wrap(cursor + d + 1, |order|)
    ensures d + 1 == |order| ==>
              Select(order, unacked, prefetch, cursor) == None && CursorAfter(order, unacked, prefetch, cursor) == cursor
  {
  }

  /** Nothing is selected exactly when nobody is eligible. */
  lemma SelectNoneIff(order: seq<string>, unacked: map<string, int>, prefetch: int, cursor: nat)
    requires cursor < |order|
    ensures Select(order, unacked, prefetch, cursor).None? <==>
            forall i :: 0 <= i < |order| ==> !Eligible(unacked, prefetch, order[i])
  {
    forall i | 0 <= i < |order|
      ensures Eligible(unacked, prefetch, order[i]) == EligibleAt(order, unacked, prefetch, cursor, Distance(cursor, i, |order|))
    {}
  }

  /** An eligible session that was passed over is strictly nearer to the cursor afterwards. */
  lemma SelectionApproaches(order: seq<string>, unacked: map<string, int>, prefetch: int, cursor: nat, target: nat)
    requires cursor < |order| && target < |order|
    requires Eligible(unacked, prefetch, order[target])
    ensures Select(order, unacked, prefetch, cursor).Some?
    ensures Select(order, unacked, prefetch, cursor).value == target ||
            Distance(CursorAfter(order, unacked, prefetch, cursor), target, |order|) < Distance(cursor, target, |order|)
  {
    var n := |order|;
    var d := Distance(cursor, target, n);
    assert EligibleAt(order, unacked, prefetch, cursor, d);
    var k := FirstEligible(order, unacked, prefetch, cursor, 0);
    assert k.Some? && k.value <= d;
  }
}
