/**
  The safety guard of a Node Agent: it feeds the service manager's watchdog only as far as the
  accounting lease reaches, stops Xray before the lease runs out, and lets the watchdog kill the
  unit when an expired lease cannot be fenced. Times are milliseconds.
*/
module LeaseGuard {
  import opened HubLease

  const EARLY_FENCE := 10_000
  const MARGIN := 1_000

  /** What went to the service manager, with the facts at the moment it was sent. */
  datatype Signal =
    | KeepAlive(at: int, span: int, running: bool, required: bool, deadline: int)
    | Kill(at: int)

  /** The clock as one tick reads it, in order, and what the outside world answers. */
  datatype World = World(
    atEntry: int, atNear: int, atFeed: int, atFeedClock: int, atBusy: int,
    atGate: int, atPause: int, atPaused: int, atFinal: int, atFailure: int,
    locked: bool, leaseAtLock: Lease, runningAtLock: bool,
    feedRaises: bool, stopRaises: bool, tripWritten: bool, lastRaises: bool)

  predicate InOrder(w: World) {
    w.atEntry <= w.atNear <= w.atFeed <= w.atFeedClock <= w.atBusy
    && w.atFeedClock <= w.atGate <= w.atPause <= w.atPaused <= w.atFinal <= w.atFailure
  }

  /** A running core whose required lease is in its last ten seconds. */
  predicate Near(l: Lease, running: bool, w: World) {
    l.required && Allowed(l, w.atEntry) && running && l.deadline - w.atNear <= EARLY_FENCE
  }

  function Min(a: int, b: int): int { if a < b then a else b }

  /** A keepalive sent for a running core under a required lease ends a second before the lease. */
  predicate Bounded(s: Signal) {
    s.KeepAlive? && s.running && s.required ==> s.at + s.span + 1_000 <= s.deadline && s.at + 10_000 < s.deadline
  }

  class Guard {
    var lease: Lease
    var running: bool
    var wants: bool
    const enabled: bool
    const seconds: nat
    var signals: seq<Signal>

    constructor (lease: Lease, running: bool, enabled: bool, seconds: nat)
      ensures this.lease == lease && this.running == running && signals == []
      ensures this.enabled == enabled && this.seconds == seconds
    {
      this.lease, this.running, this.wants := lease, running, running;
      this.enabled, this.seconds := enabled, seconds;
      signals := [];
    }

    method Send(at: int, span: int)
      modifies this`signals
      ensures signals ==
              old(signals) + [KeepAlive(at, if span < 1 then 1 else span, running, lease.required, lease.deadline)]
    {
      signals := signals + [KeepAlive(at, if span < 1 then 1 else span, running, lease.required, lease.deadline)];
    }

    /** `notify`: bounded by the lease when given one that is required, unbounded otherwise. */
    method Notify(bounded: bool, clock: int) returns (fed: bool)
      modifies this`signals
      ensures old(signals) <= signals
      ensures !enabled ==> signals == old(signals) && !fed
      ensures forall s :: s in signals[|old(signals)|..] ==> s.KeepAlive? && s.at == clock
      ensures (bounded || !running) ==> forall s :: s in signals[|old(signals)|..] ==> Bounded(s)
      ensures fed <==> enabled && (bounded && lease.required ==> lease.deadline - clock > 10_000)
      ensures fed ==>
                var left := lease.deadline - clock - 1_000;
                var reach := if bounded && lease.required && left < seconds then left else seconds;
                signals == old(signals)
                           + [KeepAlive(clock, if reach < 1 then 1 else reach, running, lease.required, lease.deadline)]
      ensures !fed ==> signals == old(signals)
    {
      if !enabled { return false; }
      if bounded && lease.required {
        var remaining := lease.deadline - clock;
        if remaining <= EARLY_FENCE { return false; }
        Send(clock, Min(seconds, remaining - MARGIN));
        return true;
      }
      Send(clock, seconds);
      fed := true;
    }

    method Trigger(at: int)
      modifies this`signals
      ensures signals == old(signals) + [Kill(at)]
    {
      signals := signals + [Kill(at)];
    }

    /**
      `pause_expired_lease`: stop a core whose lease is over or, with an early fence, nearly over.
      The stop is not a manual one, and it happens even when the final sample fails. Starting is
      blocked from then on exactly when the trip could be written.
    */
    method Pause(early: int, clock: int, stopRaises: bool, written: bool) returns (ok: bool)
      modifies this`lease, this`running, this`wants
      ensures var remaining := old(lease.deadline) - clock;
              var due := old(lease.required) && (remaining <= 0 || (early > 0 && remaining <= early));
              && (!due ==> ok && lease == old(lease) && running == old(running) && wants == old(wants))
              && (due ==> !wants && running == (old(running) && stopRaises))
              && (due && old(running) ==> (ok <==> !stopRaises && (old(lease.tripRecorded) || written)))
              && (due && !old(running) ==> ok && lease == old(lease))
              && lease == (if due && old(running) && ok then Tripped(old(lease)) else old(lease))
    {
      if !lease.required { return true; }
      var remaining := lease.deadline - clock;
      if remaining > 0 && (early <= 0 || remaining > early) { return true; }
      wants := false;
      if !running { return true; }
      if stopRaises { return false; }
      running := false;
      if lease.tripRecorded { assert lease == Tripped(lease); return true; }
      if !written { return false; }
      lease := Tripped(lease);
      ok := true;
    }

    /** The part of a tick under the engine lock; `near` and `fed` are what the part before it found. */
    method Fence(w: World, near: bool, fed: bool) returns (lastLook: int)
      requires InOrder(w)
      modifies this`lease, this`running, this`wants, this`signals
      ensures old(signals) <= signals && forall s :: s in signals[|old(signals)|..] ==> Bounded(s)
      ensures lease.required && !Allowed(lease, lastLook) && running ==> Kill(lastLook) in signals[|old(signals)|..]
      ensures old(lease.required && !Allowed(lease, w.atGate)) && !w.stopRaises ==> !running
      ensures near && old(running && lease.required && lease.deadline - w.atPause <= 10_000) && !w.stopRaises ==>
                !running && lease == old(lease).(tripRecorded := w.tripWritten || old(lease.tripRecorded))
      ensures enabled && !old(running) && !w.lastRaises ==>
                signals == old(signals) + [KeepAlive(w.atFinal, if seconds < 1 then 1 else seconds, false,
                                                     lease.required, lease.deadline)]
    {
      var ok := true;
      if lease.required && !Allowed(lease, w.atGate) {
        ok := Pause(0, w.atPause, w.stopRaises, w.tripWritten);
      } else if near && Allowed(lease, w.atGate) && running {
        ok := Pause(EARLY_FENCE, w.atPause, w.stopRaises, w.tripWritten);
      }
      if ok {
        lastLook := w.atPaused;
        if lease.required && !Allowed(lease, w.atPaused) && running {
          Trigger(w.atPaused);
          assert signals[|signals| - 1] == Kill(w.atPaused);
          return;
        }
        if w.lastRaises {
          ok := false;
        } else if !running {
          var _ := Notify(false, w.atFinal);
        } else if !fed {
          var _ := Notify(true, w.atFinal);
        }
      }
      if !ok {
        lastLook := w.atFailure;
        if lease.required && !Allowed(lease, w.atFailure) && running {
          Trigger(w.atFailure);
          assert signals[|signals| - 1] == Kill(w.atFailure);
        }
      }
    }

    /** The first keepalive of the tick is the only step that can end it early. */
    predicate FeedFails(w: World)
      reads this`lease, this`running
    {
      w.feedRaises && Allowed(lease, w.atFeed) && !Near(lease, running, w)
    }

    /**
      One tick. If it gets the engine lock, then at its last look at the clock an expired required
      lease means that Xray is down or the unit is being killed; every keepalive is bounded; and a
      near-expiry fence leaves the core down, and able to start again exactly when its trip could not be
      written and the lease still runs.
    */
    method Tick(w: World) returns (lastLook: int)
      requires InOrder(w)
      modifies this`lease, this`running, this`wants, this`signals
      ensures old(signals) <= signals && forall s :: s in signals[|old(signals)|..] ==> Bounded(s)
      ensures w.locked && !old(FeedFails(w)) ==>
                (lease.required && !Allowed(lease, lastLook) && running ==> Kill(lastLook) in signals[|old(signals)|..])
      ensures w.locked && !old(FeedFails(w)) ==>
                (w.leaseAtLock.required && !Allowed(w.leaseAtLock, w.atGate) && !w.stopRaises ==> !running)
      ensures w.locked && w.runningAtLock && w.leaseAtLock == old(lease) && !w.stopRaises
              && old(lease.required && running && w.atEntry < lease.deadline <= w.atNear + 10_000) ==>
                !running && forall t :: MayStart(lease, t) <==>
                                          !w.tripWritten && !old(lease.tripRecorded) && t < old(lease.deadline)
      ensures enabled && !w.feedRaises && old(lease.required ==> lease.deadline > w.atFeedClock + 10_000) ==>
                |signals| > |old(signals)| && signals[|old(signals)|].KeepAlive?
                && signals[|old(signals)|].at == w.atFeedClock
      ensures enabled && w.locked && !old(FeedFails(w)) && !w.runningAtLock && !w.lastRaises ==>
                signals != [] && signals[|signals| - 1].KeepAlive? && signals[|signals| - 1].at == w.atFinal
    {
      lastLook := w.atEntry;
      var near := Near(lease, running, w);
      var fed := false;
      if Allowed(lease, w.atFeed) && !near {
        if w.feedRaises { return; }
        fed := Notify(true, w.atFeedClock);
      }
      if !w.locked {
        if lease.required && !Allowed(lease, w.atBusy) {
          if running { Trigger(w.atBusy); } else { var _ := Notify(false, w.atBusy); }
        }
        return w.atBusy;
      }
      lease, running := w.leaseAtLock, w.runningAtLock;
      lastLook := Fence(w, near, fed);
    }
  }
}
