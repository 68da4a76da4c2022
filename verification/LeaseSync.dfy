/**
  The Hub's renewal of a Node's accounting lease: a challenge is acknowledged only after its
  traffic snapshot is durably imported and accounted and the Node has acknowledged the current
  configuration; a challenge that grew too old is replaced at most twice.
*/
module LeaseSync {
  import opened Wrappers

  const MAX_AGE := 18_000
  const MAX_REFRESHES := 2

  /** A snapshot as `sync_traffic` returns it, after its import committed. */
  datatype Traffic = Traffic(challenge: Option<nat>, ignored: int, restored: int, ambiguous: bool, charged: bool)

  datatype State = State(revision: nat, hash: nat, control: nat)

  /** What the Node or the transport answers to an acknowledgement. */
  datatype Answer = Valid | NotValid | OldChallenge | OtherFailure

  /** The world during round `i`: policy check, state check, age of the challenge, answer, next snapshot. */
  datatype Round = Round(policyOk: bool, state: Option<State>, age: Option<int>, answer: Answer, next: Option<Traffic>)

  datatype Sent = Sent(snapshot: nat, challenge: nat, state: State)

  /** No traffic of unknown identities, and none that two ledgers both claim. */
  predicate Accounted(t: Traffic) {
    0 <= t.ignored == t.restored && (t.restored > 0 ==> !t.ambiguous)
  }

  /** Snapshot `i` of the exchange; the first is the caller's. */
  function SnapshotAt(first: Traffic, world: nat -> Round, i: nat): Option<Traffic> {
    if i == 0 then Some(first) else world(i - 1).next
  }

  /** The latest round up to `i` at which the policy had to be verified afresh. */
  function LastCharge(first: Traffic, world: nat -> Round, i: nat): (r: nat)
    ensures r <= i
  {
    if i == 0 then 0
    else
      var t := SnapshotAt(first, world, i);
      if t.Some? && t.value.charged then i else LastCharge(first, world, i - 1)
  }

  /**
    An acknowledgement may leave the Hub only so: its challenge belongs to an imported, accounted
    snapshot that is not known to be older than eighteen seconds, the policy held after the last
    import that charged anything, and the Node had acknowledged the state it names.
  */
  predicate Justified(first: Traffic, world: nat -> Round, s: Sent) {
    var t := SnapshotAt(first, world, s.snapshot);
    && t.Some? && t.value.challenge == Some(s.challenge) && Accounted(t.value)
    && world(s.snapshot).state == Some(s.state)
    && (world(s.snapshot).age.None? || 0 <= world(s.snapshot).age.value <= MAX_AGE)
    && world(LastCharge(first, world, s.snapshot)).policyOk
  }

  /** The acknowledgements sent so far: all justified, each of a newer snapshot, all before snapshot `n`. */
  predicate SentSoFar(first: Traffic, world: nat -> Round, sent: seq<Sent>, n: nat) {
    && (forall i :: 0 <= i < |sent| ==> Justified(first, world, sent[i]) && sent[i].snapshot < n)
    && (forall i, j :: 0 <= i < j < |sent| ==> sent[i].snapshot < sent[j].snapshot)
  }

  lemma OneMoreSent(first: Traffic, world: nat -> Round, sent: seq<Sent>, s: Sent)
    requires SentSoFar(first, world, sent, s.snapshot) && Justified(first, world, s)
    ensures SentSoFar(first, world, sent + [s], s.snapshot + 1)
  {
    var all := sent + [s];
    forall i | 0 <= i < |all| ensures Justified(first, world, all[i]) && all[i].snapshot < s.snapshot + 1 {
      if i < |sent| { assert all[i] == sent[i]; }
    }
    forall i, j | 0 <= i < j < |all| ensures all[i].snapshot < all[j].snapshot {
      assert all[i] == sent[i];
      if j < |sent| { assert all[j] == sent[j]; }
    }
  }

  // ---------------------------------------------------------------- exactly when the lease is renewed

  /** The snapshot of this round may be acknowledged: its age is unknown, or at most eighteen seconds. */
  predicate Timely(r: Round) { r.age.Some? ==> 0 <= r.age.value <= 18_000 }

  /** The round asks for a newer snapshot: its own has grown too old, here or on the way. */
  predicate Refreshed(r: Round) {
    (r.age.Some? && r.age.value > 18_000) || (Timely(r) && r.answer == OldChallenge)
  }

  /** The round ends in a usable newer snapshot of a Node that has acknowledged its state. */
  predicate GoesOn(world: nat -> Round, n: nat) {
    && Refreshed(world(n)) && world(n + 1).state.Some?
    && var t := world(n).next;
       t.Some? && t.value.challenge.Some? && Accounted(t.value) && (t.value.charged ==> world(n + 1).policyOk)
  }

  /**
    The exchange comes to round `k`: every snapshot so far was usable and every earlier one had grown too old, the
    policy held at the start and after every import that charged anything, and the Node had acknowledged its state.
  */
  predicate Reached(first: Traffic, world: nat -> Round, k: nat) {
    && world(k).state.Some?
    && (k == 0 ==> world(0).policyOk && first.challenge.Some? && Accounted(first))
    && (k > 0 ==> Reached(first, world, k - 1) && GoesOn(world, k - 1))
  }

  /** Within two refreshes the exchange comes to a timely snapshot whose acknowledgement the Node accepts. */
  ghost predicate Renewable(first: Traffic, world: nat -> Round) {
    exists k: nat :: k <= 2 && Reached(first, world, k) && Timely(world(k)) && world(k).answer == Valid
  }

  lemma {:induction false} ReachedBefore(first: Traffic, world: nat -> Round, j: nat, k: nat)
    requires Reached(first, world, k) && j <= k
    ensures Reached(first, world, j) && (j < k ==> Refreshed(world(j)))
    decreases k
  {
    if j < k { ReachedBefore(first, world, j, k - 1); }
  }

  /** A round the exchange comes to has an accounted snapshot and a policy check after the last import that charged. */
  lemma {:induction false} ReachedJustifies(first: Traffic, world: nat -> Round, k: nat)
    requires Reached(first, world, k)
    ensures var t := SnapshotAt(first, world, k); t.Some? && t.value.challenge.Some? && Accounted(t.value)
    ensures world(LastCharge(first, world, k)).policyOk
    decreases k
  {
    if k > 0 { ReachedJustifies(first, world, k - 1); }
  }

  /** So a timely round may send its acknowledgement. */
  lemma SendNow(first: Traffic, world: nat -> Round, sent: seq<Sent>, n: nat, traffic: Traffic, state: State)
    requires SentSoFar(first, world, sent, n) && Reached(first, world, n) && Timely(world(n))
    requires SnapshotAt(first, world, n) == Some(traffic) && traffic.challenge.Some? && world(n).state == Some(state)
    ensures SentSoFar(first, world, sent + [Sent(n, traffic.challenge.value, state)], n + 1)
  {
    ReachedJustifies(first, world, n);
    OneMoreSent(first, world, sent, Sent(n, traffic.challenge.value, state));
  }

  /** Where an exchange stops without a valid answer, there is none to be had. */
  lemma StopsAt(first: Traffic, world: nat -> Round, n: nat)
    requires Reached(first, world, n) && !(Timely(world(n)) && world(n).answer == Valid)
    requires n >= 2 || !Reached(first, world, n + 1)
    ensures !Renewable(first, world)
  {
    forall k: nat | k <= 2 && Reached(first, world, k)
      ensures !(Timely(world(k)) && world(k).answer == Valid)
    {
      if k < n { ReachedBefore(first, world, k, n); }
      if n < k { ReachedBefore(first, world, n + 1, k); }
    }
  }

  /** A valid answer renews, and without one the exchange ends unless it comes to another round. */
  lemma Settles(first: Traffic, world: nat -> Round, n: nat)
    requires Reached(first, world, n) && n <= 2
    ensures Timely(world(n)) && world(n).answer == Valid ==> Renewable(first, world)
    ensures !(Timely(world(n)) && world(n).answer == Valid) && (n == 2 || !GoesOn(world, n)) ==>
              !Renewable(first, world)
    ensures GoesOn(world, n) ==> Reached(first, world, n + 1)
  {
    if !(Timely(world(n)) && world(n).answer == Valid) && (n == 2 || !GoesOn(world, n)) {
      StopsAt(first, world, n);
    }
  }

  lemma NeverStarts(first: Traffic, world: nat -> Round)
    requires !Reached(first, world, 0)
    ensures !Renewable(first, world)
  {
    forall k: nat | Reached(first, world, k) ensures false { ReachedBefore(first, world, 0, k); }
  }

  datatype Outcome = Unsupported | Withheld | Leased

  /** An acknowledgement of a timely snapshot, refused for its age if it was sent before round `n`. */
  predicate AnswerTo(world: nat -> Round, s: Sent, n: nat) {
    s.snapshot <= n && Timely(world(s.snapshot)) && (s.snapshot < n ==> world(s.snapshot).answer == OldChallenge)
  }

  lemma SentAnswer(first: Traffic, world: nat -> Round, sent: seq<Sent>, i: nat, n: nat)
    requires SentSoFar(first, world, sent, n + 1) && Reached(first, world, n) && i < |sent|
    ensures AnswerTo(world, sent[i], n)
  {
    assert Justified(first, world, sent[i]);
    ReachedBefore(first, world, sent[i].snapshot, n);
  }

  /** The rounds of an exchange whose first snapshot is usable. */
  method Exchange(first: Traffic, world: nat -> Round) returns (leased: bool, sent: seq<Sent>, refreshes: nat)
    requires Reached(first, world, 0)
    ensures refreshes <= MAX_REFRESHES && |sent| <= refreshes + 1
    ensures SentSoFar(first, world, sent, refreshes + 1)
    ensures leased ==> sent != [] && sent[|sent| - 1].snapshot == refreshes
    ensures Reached(first, world, refreshes)
    ensures leased <==> Timely(world(refreshes)) && world(refreshes).answer == Valid
    ensures !leased ==> refreshes == MAX_REFRESHES || !GoesOn(world, refreshes)
  {
    leased, sent, refreshes := false, [], 0;
    var traffic, state := first, world(0).state.value;
    while true
      invariant refreshes <= MAX_REFRESHES && |sent| <= refreshes && !leased
      invariant SnapshotAt(first, world, refreshes) == Some(traffic) && traffic.challenge.Some?
      invariant world(refreshes).state == Some(state) && Reached(first, world, refreshes)
      invariant SentSoFar(first, world, sent, refreshes)
      decreases MAX_REFRESHES - refreshes
    {
      var age := world(refreshes).age;
      if age.Some? && age.value < 0 { break; }
      var stale := age.Some? && age.value > MAX_AGE;
      if stale && refreshes >= MAX_REFRESHES { break; }
      if !stale {
        SendNow(first, world, sent, refreshes, traffic, state);
        sent := sent + [Sent(refreshes, traffic.challenge.value, state)];
        leased := world(refreshes).answer == Valid;
        if world(refreshes).answer != OldChallenge || refreshes >= MAX_REFRESHES { break; }
      }
      var next := world(refreshes).next;
      if next.None? || next.value.challenge.None? || !Accounted(next.value) { break; }
      if next.value.charged && !world(refreshes + 1).policyOk { break; }
      if world(refreshes + 1).state.None? { break; }
      refreshes := refreshes + 1;
      traffic := next.value;
      state := world(refreshes).state.value;
    }
  }

  method RenewAccountingLease(first: Traffic, world: nat -> Round)
    returns (outcome: Outcome, sent: seq<Sent>, refreshes: nat)
    ensures refreshes <= MAX_REFRESHES && |sent| <= refreshes + 1
    ensures SentSoFar(first, world, sent, refreshes + 1)
    ensures forall i :: 0 <= i < |sent| - 1 ==> world(sent[i].snapshot).answer == OldChallenge
    ensures outcome == Unsupported <==> first.challenge.None?
    ensures outcome == Leased <==> sent != [] && world(sent[|sent| - 1].snapshot).answer == Valid
    ensures outcome == Leased <==> Renewable(first, world)
  {
    sent, refreshes := [], 0;
    if !Reached(first, world, 0) { NeverStarts(first, world); }
    if first.challenge.None? { return Unsupported, sent, refreshes; }
    if !Accounted(first) || !world(0).policyOk || world(0).state.None? { return Withheld, sent, refreshes; }
    var leased;
    leased, sent, refreshes := Exchange(first, world);
    Settles(first, world, refreshes);
    forall i | 0 <= i < |sent| ensures AnswerTo(world, sent[i], refreshes) {
      SentAnswer(first, world, sent, i, refreshes);
    }
    outcome := if leased then Leased else Withheld;
  }
}
