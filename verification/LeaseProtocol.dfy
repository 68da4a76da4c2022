/**
  The accounting lease between Agent and Hub over a network that loses, delays, duplicates and
  reorders: the Hub acknowledges only challenges of snapshots it has imported.
*/
module LeaseProtocol {
  import opened HubLease

  /**
    `issued` remembers when the Agent made each challenge, `imported` which snapshots the Hub has
    durably imported, `grants` what the Hub ever sent, `granted` what the Agent ever accepted.
  */
  datatype Sys = Sys(now: int, lease: Lease, snapshots: set<nat>, imported: set<nat>, grants: set<Body>,
                     issued: map<nat, int>, granted: seq<nat>)

  datatype Step =
    | Tick(later: int)
    | Snapshot(token: nat)
    | Import(token: nat)
    | Acknowledge(body: Body)
    | Renew(body: Body, held: Held)
    | Trip
    | Reboot(configured: bool)

  predicate Initial(s: Sys) {
    (exists required :: s.lease == Booted(required))
    && s.snapshots == {} && s.imported == {} && s.grants == {} && s.issued == map[] && s.granted == []
  }

  predicate Enabled(s: Sys, step: Step) {
    match step
    case Tick(later) => s.now <= later
    case Snapshot(token) => token !in s.issued
    case Import(token) => token in s.snapshots
    case Acknowledge(body) => body.challenge in s.imported
    case Renew(body, _) => body in s.grants
    case Trip => true
    case Reboot(_) => true
  }

  function Next(s: Sys, step: Step): Sys {
    match step
    case Tick(later) => s.(now := later)
    case Snapshot(token) =>
      s.(lease := Issue(s.lease, s.now, token), snapshots := s.snapshots + {token}, issued := s.issued[token := s.now])
    case Import(token) => s.(imported := s.imported + {token})
    case Acknowledge(body) => s.(grants := s.grants + {body})
    case Renew(body, held) =>
      s.(lease := Renewed(s.lease, body, held, s.now),
         granted := if Judge(s.lease, body, held, s.now) == Granted then s.granted + [body.challenge] else s.granted)
    case Trip => s.(lease := Tripped(s.lease))
    case Reboot(configured) => s.(lease := Booted(s.lease.required || configured))
  }

  ghost predicate Run(states: seq<Sys>, steps: seq<Step>) {
    && |states| == |steps| + 1
    && Initial(states[0])
    && forall i :: 0 <= i < |steps| ==> Enabled(states[i], steps[i]) && states[i + 1] == Next(states[i], steps[i])
  }

  predicate Inv(s: Sys) {
    && Ordered(s.lease, s.now)
    && s.imported <= s.snapshots && s.snapshots == s.issued.Keys
    && (forall c :: c in s.lease.pending ==>
        c.token in s.issued && s.issued[c.token] == c.issued && c.token !in s.granted)
    && (forall b :: b in s.grants ==> b.challenge in s.imported)
    && (forall t :: t in s.issued ==> s.issued[t] <= s.now)
    && (s.lease.accepted.Some? ==>
          var t := s.lease.accepted.value.challenge;
          t in s.imported && s.lease.deadline == s.issued[t] + LEASE)
    && (forall i :: 0 <= i < |s.granted| ==> s.granted[i] in s.issued)
    && (forall i, j :: 0 <= i < j < |s.granted| ==> s.granted[i] != s.granted[j])
  }

  lemma SnapshotKeeps(s: Sys, token: nat)
    requires Inv(s) && token !in s.issued
    ensures Inv(Next(s, Snapshot(token)))
  {
    IssueOrdered(s.lease, s.now, token);
    var t := Next(s, Snapshot(token));
    forall c | c in t.lease.pending
      ensures c.token in t.issued && t.issued[c.token] == c.issued && c.token !in t.granted
    {
      if c.token != token {
        assert c in Trimmed(Fresh(s.lease.pending, s.now));
        assert c in s.lease.pending;
      }
    }
  }

  lemma RenewKeeps(s: Sys, body: Body, held: Held)
    requires Inv(s) && body in s.grants
    ensures Inv(Next(s, Renew(body, held)))
  {
    RenewalRules(s.lease, body, held, s.now);
    if Judge(s.lease, body, held, s.now) == Granted {
      var c := Find(s.lease.pending, body.challenge).value;
      assert c in s.lease.pending;
    }
  }

  lemma StepKeeps(s: Sys, step: Step)
    requires Inv(s) && Enabled(s, step)
    ensures Inv(Next(s, step))
  {
    match step
    case Snapshot(token) => SnapshotKeeps(s, token);
    case Renew(body, held) => RenewKeeps(s, body, held);
    case _ =>
  }

  lemma {:induction false} RunInvariant(states: seq<Sys>, steps: seq<Step>, n: nat)
    requires Run(states, steps) && n < |states|
    ensures Inv(states[n])
    decreases n
  {
    if n > 0 {
      RunInvariant(states, steps, n - 1);
      StepKeeps(states[n - 1], steps[n - 1]);
    }
  }

  /**
    Bounded unaccounted running: whenever a required lease permits Xray, the Hub has already
    imported the traffic snapshot whose challenge was made less than sixty seconds ago.
  */
  lemma BoundedAuthority(states: seq<Sys>, steps: seq<Step>, n: nat)
    requires Run(states, steps) && n < |states|
    requires states[n].lease.required && Allowed(states[n].lease, states[n].now) && states[n].now >= 0
    ensures var s := states[n];
            s.lease.accepted.Some?
            && var t := s.lease.accepted.value.challenge;
               t in s.imported && t in s.issued && 0 <= s.now - s.issued[t] < LEASE
    ensures |states[n].lease.pending| <= PENDING_LIMIT
  {
    RunInvariant(states, steps, n);
  }

  /** Over a whole run, across restarts too, no challenge grants twice. */
  lemma OneGrantPerChallenge(states: seq<Sys>, steps: seq<Step>, n: nat, i: nat, j: nat)
    requires Run(states, steps) && n < |states| && i < j < |states[n].granted|
    ensures states[n].granted[i] != states[n].granted[j]
  {
    RunInvariant(states, steps, n);
  }

  /** A snapshot is taken, imported and acknowledged, and the acknowledgement reaches the Agent at time `later`. */
  function Round(s: Sys, body: Body, held: Held, later: int): Sys {
    var imported := Next(Next(s, Snapshot(body.challenge)), Import(body.challenge));
    Next(Next(Next(imported, Acknowledge(body)), Tick(later)), Renew(body, held))
  }

  /**
    Progress: from any reachable state, tripped or not, one round that takes at most half a minute, on the basis the
    Agent holds, is granted, and Xray may be started until a minute after the snapshot.
  */
  lemma OneRoundGrants(states: seq<Sys>, steps: seq<Step>, n: nat, body: Body, held: Held, later: int)
    requires Run(states, steps) && n < |states| && body.challenge !in states[n].issued && SameBasis(body, held)
    requires states[n].now <= later <= states[n].now + 30_000
    ensures var t := Round(states[n], body, held, later);
            && t.granted == states[n].granted + [body.challenge]
            && t.lease.required && t.lease.deadline == states[n].now + 60_000
            && forall time :: later <= time < states[n].now + 60_000 ==> MayStart(t.lease, time)
  {
    RunInvariant(states, steps, n);
    var s := states[n];
    IssuedThenGranted(s.lease, s.now, body, held, later);
  }

  /** Within one Agent process deadlines only move forward, and only a counted grant moves them. */
  lemma DeadlineForward(states: seq<Sys>, steps: seq<Step>, n: nat)
    requires Run(states, steps) && n < |steps| && !steps[n].Reboot?
    ensures states[n].lease.accepted.Some? ==> states[n].lease.deadline <= states[n + 1].lease.deadline
    ensures states[n].granted == states[n + 1].granted ==> states[n].lease.deadline == states[n + 1].lease.deadline
  {
    RunInvariant(states, steps, n);
    assert states[n + 1] == Next(states[n], steps[n]);
    if steps[n].Renew? {
      RenewalRules(states[n].lease, steps[n].body, steps[n].held, states[n].now);
    }
  }

  /** The enforcement latch never comes off. */
  lemma {:induction false} RequiredForGood(states: seq<Sys>, steps: seq<Step>, m: nat, n: nat)
    requires Run(states, steps) && m <= n < |states| && states[m].lease.required
    ensures states[n].lease.required
    decreases n - m
  {
    if m < n {
      RequiredForGood(states, steps, m, n - 1);
      assert states[n] == Next(states[n - 1], steps[n - 1]);
    }
  }

  predicate NoGrant(states: seq<Sys>, m: nat, n: nat)
    requires m <= n < |states|
  {
    states[m].granted == states[n].granted
  }

  /** The grant history only grows. */
  lemma {:induction false} GrantsGrow(states: seq<Sys>, steps: seq<Step>, m: nat, n: nat)
    requires Run(states, steps) && m <= n < |states|
    ensures states[m].granted <= states[n].granted
    decreases n - m
  {
    if m < n {
      GrantsGrow(states, steps, m, n - 1);
      assert states[n] == Next(states[n - 1], steps[n - 1]);
    }
  }

  /** Nothing permits a start of a required lease: it is tripped, or has never been granted in this process. */
  predicate Blocked(l: Lease) { l.required && (l.tripRecorded || l.accepted.None?) }

  lemma BlockedMayNotStart(s: Sys)
    requires Inv(s) && Blocked(s.lease) && s.now >= 0
    ensures !MayStart(s.lease, s.now)
  {
  }

  lemma BlockedStep(s: Sys, step: Step)
    requires Enabled(s, step) && Blocked(s.lease) && Next(s, step).granted == s.granted
    ensures Blocked(Next(s, step).lease)
  {
  }

  /**
    After a recorded trip, or an Agent restart under a required lease, no start is permitted until
    the Agent accepts a new grant, whatever else happens in between.
  */
  lemma {:induction false} BlockedUntilGrant(states: seq<Sys>, steps: seq<Step>, m: nat, n: nat)
    requires Run(states, steps) && m <= n < |states| && Blocked(states[m].lease) && NoGrant(states, m, n)
    ensures Blocked(states[n].lease) && (states[n].now >= 0 ==> !MayStart(states[n].lease, states[n].now))
    decreases n - m
  {
    if m < n {
      GrantsGrow(states, steps, m, n - 1);
      GrantsGrow(states, steps, n - 1, n);
      BlockedUntilGrant(states, steps, m, n - 1);
      BlockedStep(states[n - 1], steps[n - 1]);
    }
    RunInvariant(states, steps, n);
    if states[n].now >= 0 { BlockedMayNotStart(states[n]); }
  }

  /** And the grant that lifts a trip within the same process names a challenge made no earlier than the fenced one. */
  lemma TripLiftedByNewer(states: seq<Sys>, steps: seq<Step>, n: nat)
    requires Run(states, steps) && n < |steps| && states[n].lease.tripRecorded && !states[n + 1].lease.tripRecorded
    requires !steps[n].Reboot?
    ensures states[n + 1].lease.lastSequence > states[n].lease.lastSequence
    ensures states[n].lease.accepted.Some? ==>
              states[n + 1].lease.accepted.Some?
              && states[n + 1].lease.accepted.value.challenge != states[n].lease.accepted.value.challenge
              && states[n].lease.deadline <= states[n + 1].lease.deadline
  {
    RunInvariant(states, steps, n);
    assert states[n + 1] == Next(states[n], steps[n]);
    RenewalRules(states[n].lease, steps[n].body, steps[n].held, states[n].now);
  }
}
