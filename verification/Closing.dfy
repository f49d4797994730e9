/** What shutting a queue down does, and that nothing undoes it. */
module Closing {
  import opened Types
  import opened Delivery

  /** A queue that has been shut down: closed for good, with nobody to deliver to. */
  predicate Shut(s: QueueState) {
    s.closed && s.unacked == map[] && s.order == []
  }

  lemma ShutdownShuts(s: QueueState)
    ensures var t := Apply(s, Shutdown);
            Shut(t) && t.sleeping == 0 && t.woken == s.woken + s.sleeping && t.store == s.store && Emit(s, Shutdown) == []
  {
  }

  /** Nothing opens it again: a step accepts, reserves and subscribes nothing, and writes no message record but of a burial or an ack. */
  lemma ShutStep(s: QueueState, a: Step)
    requires Shut(s) && Enabled(s, a)
    ensures Shut(Apply(s, a)) && !a.Reserve?
    ensures Apply(s, a).store.accepted == s.store.accepted && Apply(s, a).store.redeliveredCount == s.store.redeliveredCount
    ensures |Apply(s, a).store.inflight| <= |s.store.inflight|
    ensures forall r :: r in Emit(s, a) ==> r.Acknowledged? || r.DeadLettered?
  {
  }

  lemma {:induction false} ShutRun(s: QueueState, steps: seq<Step>)
    requires Shut(s) && IsRun(s, steps)
    ensures Shut(After(s, steps)) && forall i :: 0 <= i < |steps| ==> !steps[i].Reserve?
    ensures After(s, steps).store.accepted == s.store.accepted && |After(s, steps).store.inflight| <= |s.store.inflight|
    ensures forall r :: r in Emitted(s, steps) ==> r.Acknowledged? || r.DeadLettered?
    decreases |steps|
  {
    if steps != [] {
      ShutStep(s, steps[0]);
      ShutRun(Apply(s, steps[0]), steps[1..]);
    }
  }

  /** No step opens a closed queue. */
  lemma ClosedStays(s: QueueState, a: Step)
    requires s.closed && Enabled(s, a)
    ensures Apply(s, a).closed
  {
  }

  /** A distributor stops only at a closed queue, and once stopped it neither wakes, reserves, sends, cancels nor parks again. */
  lemma StopStep(s: QueueState, a: Step)
    requires Enabled(s, a)
    ensures a.Stop? ==> s.closed && Apply(s, a).distributor == Stopped
    ensures s.distributor == Stopped ==> Apply(s, a).distributor == Stopped && !(a.Wake? || a.Reserve? || a.Park? || a.Send? || a.Cancel?)
  {
  }

  lemma {:induction false} StoppedRun(s: QueueState, steps: seq<Step>)
    requires s.distributor == Stopped && IsRun(s, steps)
    ensures After(s, steps).distributor == Stopped
    ensures forall i :: 0 <= i < |steps| ==> !(steps[i].Wake? || steps[i].Reserve? || steps[i].Park? || steps[i].Send? || steps[i].Cancel?)
    decreases |steps|
  {
    if steps != [] {
      StopStep(s, steps[0]);
      StoppedRun(Apply(s, steps[0]), steps[1..]);
    }
  }
}
