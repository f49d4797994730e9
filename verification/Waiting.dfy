/** Fairness among consumers in runs of the delivery machine. */
module Waiting {
  import opened RoundRobin
  import opened Delivery

  /** Nobody joins or leaves in the run, and every reservation finds `id` eligible. */
  predicate StaysEligible(s: QueueState, steps: seq<Step>, id: string)
    requires IsRun(s, steps)
    decreases |steps|
  {
    steps == [] ||
    (&& Apply(s, steps[0]).order == s.order
     && (steps[0].Reserve? ==> Eligible(s.unacked, s.cfg.prefetch, id))
     && StaysEligible(Apply(s, steps[0]), steps[1..], id))
  }

  /** Some reservation of the run is for `id`. */
  predicate Serves(s: QueueState, steps: seq<Step>, id: string)
    requires IsRun(s, steps)
    decreases |steps|
  {
    steps != [] && ((steps[0].Reserve? && Chosen(s) == id) || Serves(Apply(s, steps[0]), steps[1..], id))
  }

  function Reservations(steps: seq<Step>): nat {
    if steps == [] then 0 else (if steps[0].Reserve? then 1 else 0) + Reservations(steps[1..])
  }

  lemma CursorStays(s: QueueState, a: Step)
    requires MemberShape(s.unacked, s.order, s.cursor) && s.order != [] && Enabled(s, a)
    requires Apply(s, a).order == s.order && !a.Reserve?
    ensures Apply(s, a).cursor == s.cursor
  {
  }

  lemma CursorApproaches(s: QueueState, a: Step, target: nat)
    requires s.cursor < |s.order| && target < |s.order| && Enabled(s, a) && a.Reserve?
    requires Eligible(s.unacked, s.cfg.prefetch, s.order[target]) && Chosen(s) != s.order[target]
    ensures Apply(s, a).order == s.order && Apply(s, a).cursor < |s.order|
    ensures Distance(Apply(s, a).cursor, target, |s.order|) < Distance(s.cursor, target, |s.order|)
  {
    SelectionApproaches(s.order, s.unacked, s.cfg.prefetch, s.cursor, target);
  }

  /** Every reservation that passes `order[target]` over brings the cursor nearer to it. */
  lemma {:induction false} PassedOver(s: QueueState, steps: seq<Step>, target: nat)
    requires MemberShape(s.unacked, s.order, s.cursor) && target < |s.order| && IsRun(s, steps)
    requires StaysEligible(s, steps, s.order[target]) && !Serves(s, steps, s.order[target])
    ensures Reservations(steps) <= Distance(s.cursor, target, |s.order|)
    decreases |steps|
  {
    if steps != [] {
      MemberShapeStep(s, steps[0]);
      if steps[0].Reserve? {
        CursorApproaches(s, steps[0], target);
      } else {
        CursorStays(s, steps[0]);
      }
      PassedOver(Apply(s, steps[0]), steps[1..], target);
    }
  }

  /** In every run with unchanged membership, a session that is eligible at as many reservations as there are sessions gets one of them. */
  lemma ServedInTurn(s: QueueState, steps: seq<Step>, id: string)
    requires MemberShape(s.unacked, s.order, s.cursor) && id in s.order && IsRun(s, steps)
    requires StaysEligible(s, steps, id) && Reservations(steps) >= |s.order|
    ensures Serves(s, steps, id)
  {
    var target :| 0 <= target < |s.order| && s.order[target] == id;
    if !Serves(s, steps, id) {
      PassedOver(s, steps, target);
      assert false;
    }
  }
}
