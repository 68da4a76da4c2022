/**
  The accounting lease of a Node Agent: challenges handed out with traffic snapshots, and grants
  that name one of them. Times are milliseconds of a clock that never goes back.
*/
module HubLease {
  import opened Wrappers

  const LEASE := 60_000
  const CHALLENGE := 30_000
  const PENDING_LIMIT := 64

  datatype Challenge = Challenge(token: nat, issued: int, sequence: nat)

  /** An acknowledgement: the challenge and the configuration and command the Hub accounted under. */
  datatype Body = Body(challenge: nat, revision: nat, hash: nat, control: nat)

  /** What the Agent holds when an acknowledgement arrives. */
  datatype Held = Held(revision: nat, hash: nat, faulty: bool, control: nat)

  /** `required` is a durable latch; everything else is gone after a restart. */
  datatype Lease = Lease(required: bool, pending: seq<Challenge>, deadline: int, sequence: nat,
                         lastSequence: nat, accepted: Option<Body>, tripRecorded: bool)

  function Booted(required: bool): Lease { Lease(required, [], 0, 0, 0, None, false) }

  predicate Allowed(l: Lease, now: int) { !l.required || now < l.deadline }

  /** The start guard of the engine. */
  predicate MayStart(l: Lease, now: int) { Allowed(l, now) && !l.tripRecorded }

  function Fresh(pending: seq<Challenge>, now: int): (r: seq<Challenge>)
    ensures |r| <= |pending| && forall c :: c in r <==> c in pending && now - c.issued <= CHALLENGE
  {
    if pending == [] then []
    else if now - pending[0].issued <= CHALLENGE then [pending[0]] + Fresh(pending[1..], now)
    else Fresh(pending[1..], now)
  }

  /** Room for one more: the oldest go first. */
  function Trimmed(pending: seq<Challenge>): seq<Challenge> {
    if |pending| < PENDING_LIMIT then pending else pending[|pending| - PENDING_LIMIT + 1..]
  }

  function After(pending: seq<Challenge>, sequence: nat): (r: seq<Challenge>)
    ensures |r| <= |pending| && forall c :: c in r <==> c in pending && c.sequence > sequence
  {
    if pending == [] then []
    else if pending[0].sequence > sequence then [pending[0]] + After(pending[1..], sequence)
    else After(pending[1..], sequence)
  }

  function Issue(l: Lease, now: int, token: nat): Lease {
    l.(pending := Trimmed(Fresh(l.pending, now)) + [Challenge(token, now, l.sequence + 1)], sequence := l.sequence + 1)
  }

  function Find(pending: seq<Challenge>, token: nat): (r: Option<Challenge>)
    ensures r.Some? ==> r.value in pending && r.value.token == token
    ensures r.None? ==> forall c :: c in pending ==> c.token != token
  {
    if pending == [] then None
    else if pending[0].token == token then Some(pending[0])
    else Find(pending[1..], token)
  }

  predicate Matches(b: Body, h: Held) {
    b.revision >= 1 && b.revision == h.revision && b.hash == h.hash && !h.faulty && b.control == h.control
  }

  datatype Verdict = Rejected | Duplicate | Granted

  function Judge(l: Lease, b: Body, h: Held, now: int): Verdict {
    if !Matches(b, h) then Rejected
    else if l.accepted.Some? && l.accepted.value.challenge == b.challenge then
      if l.accepted.value == b then Duplicate else Rejected
    else
      var c := Find(l.pending, b.challenge);
      if c.None? || c.value.sequence <= l.lastSequence || now - c.value.issued > CHALLENGE || c.value.issued > now
      then Rejected else Granted
  }

  function Renewed(l: Lease, b: Body, h: Held, now: int): Lease {
    if Judge(l, b, h, now) != Granted then l
    else
      var c := Find(l.pending, b.challenge).value;
      l.(required := true, deadline := c.issued + LEASE, lastSequence := c.sequence, accepted := Some(b),
         tripRecorded := false, pending := After(l.pending, c.sequence))
  }

  function Tripped(l: Lease): Lease { l.(tripRecorded := true) }

  // ---------------------------------------------------------------- shape of the challenge table

  predicate Before(a: Challenge, b: Challenge) {
    a.sequence < b.sequence && a.issued <= b.issued && a.token != b.token
  }

  predicate Rising(p: seq<Challenge>) { forall i, j :: 0 <= i < j < |p| ==> Before(p[i], p[j]) }

  predicate Pending(l: Lease, c: Challenge, now: int) {
    && 0 < c.sequence <= l.sequence && c.issued <= now
    && (l.accepted.Some? ==> l.lastSequence < c.sequence && l.deadline - LEASE <= c.issued)
  }

  /** Numbers rise, times never fall, tokens differ, and the last grant lies before everything pending. */
  predicate Ordered(l: Lease, now: int) {
    && |l.pending| <= PENDING_LIMIT
    && Rising(l.pending)
    && (forall c :: c in l.pending ==> Pending(l, c, now))
    && (l.accepted.Some? ==> l.deadline - LEASE <= now)
    && (l.accepted.None? ==> l.deadline == 0 && l.lastSequence == 0)
    && l.lastSequence <= l.sequence
  }

  lemma RisingCons(x: Challenge, rest: seq<Challenge>)
    requires Rising(rest) && forall d :: d in rest ==> Before(x, d)
    ensures Rising([x] + rest)
  {
    var p := [x] + rest;
    forall i, j | 0 <= i < j < |p|
      ensures Before(p[i], p[j])
    {
      assert p[j] == rest[j - 1];
      if i > 0 { assert p[i] == rest[i - 1]; }
    }
  }

  lemma RisingSnoc(rest: seq<Challenge>, x: Challenge)
    requires Rising(rest) && forall d :: d in rest ==> Before(d, x)
    ensures Rising(rest + [x])
  {
    var p := rest + [x];
    forall i, j | 0 <= i < j < |p|
      ensures Before(p[i], p[j])
    {
      assert p[i] == rest[i];
      if j < |rest| { assert p[j] == rest[j]; }
    }
  }

  lemma RisingTail(p: seq<Challenge>, k: nat)
    requires Rising(p) && k <= |p|
    ensures Rising(p[k..])
    ensures forall c :: c in p[k..] ==> c in p
  {
    forall i, j | 0 <= i < j < |p[k..]|
      ensures Before(p[k..][i], p[k..][j])
    {
      assert p[k..][i] == p[k + i] && p[k..][j] == p[k + j];
    }
  }

  lemma FirstBefore(p: seq<Challenge>, d: Challenge)
    requires Rising(p) && p != [] && d in p[1..]
    ensures Before(p[0], d)
  {
    var j :| 0 <= j < |p[1..]| && p[1..][j] == d;
    assert p[j + 1] == d;
  }

  lemma {:induction false} FreshRising(p: seq<Challenge>, now: int)
    requires Rising(p)
    ensures Rising(Fresh(p, now))
    decreases |p|
  {
    if p != [] {
      RisingTail(p, 1);
      FreshRising(p[1..], now);
      var rest := Fresh(p[1..], now);
      forall d | d in rest ensures Before(p[0], d) { FirstBefore(p, d); }
      RisingCons(p[0], rest);
    }
  }

  lemma {:induction false} AfterRising(p: seq<Challenge>, sequence: nat)
    requires Rising(p)
    ensures Rising(After(p, sequence))
    decreases |p|
  {
    if p != [] {
      RisingTail(p, 1);
      AfterRising(p[1..], sequence);
      var rest := After(p[1..], sequence);
      forall d | d in rest ensures Before(p[0], d) { FirstBefore(p, d); }
      RisingCons(p[0], rest);
    }
  }

  /** A new challenge keeps the table ordered and within its bound. */
  lemma IssueOrdered(l: Lease, now: int, token: nat)
    requires Ordered(l, now) && forall c :: c in l.pending ==> c.token != token
    ensures Ordered(Issue(l, now, token), now)
    ensures forall c :: c in Issue(l, now, token).pending ==>
            c in l.pending || c == Challenge(token, now, l.sequence + 1)
  {
    var young := Fresh(l.pending, now);
    FreshRising(l.pending, now);
    var kept := Trimmed(young);
    RisingTail(young, |young| - |kept|);
    var made := Challenge(token, now, l.sequence + 1);
    forall c | c in kept
      ensures c in l.pending && Before(c, made)
    {
      assert c in young && c in l.pending;
    }
    RisingSnoc(kept, made);
  }

  lemma OnlyLaterPending(p: seq<Challenge>, c: Challenge, d: Challenge)
    requires Rising(p) && c in p && d in p && d.sequence > c.sequence
    ensures Before(c, d)
  {
    var i :| 0 <= i < |p| && p[i] == c;
    var j :| 0 <= j < |p| && p[j] == d;
  }

  /**
    A grant names a pending challenge newer than every granted one, its deadline is that challenge's
    issue time plus a minute and never earlier than before, and the challenge cannot grant again.
    Anything else leaves the lease untouched.
  */
  lemma RenewalRules(l: Lease, b: Body, h: Held, now: int)
    requires Ordered(l, now)
    ensures var r := Renewed(l, b, h, now);
            && Ordered(r, now)
            && (Judge(l, b, h, now) != Granted ==> r == l)
            && (Judge(l, b, h, now) == Granted ==>
                  && (exists c :: c in l.pending && c.token == b.challenge && r.deadline == c.issued + LEASE
                                  && now - c.issued <= CHALLENGE && c.sequence > l.lastSequence)
                  && (l.accepted.Some? ==> l.deadline <= r.deadline)
                  && now < r.deadline && !r.tripRecorded && r.required && r.accepted == Some(b)
                  && forall c :: c in r.pending ==> c.token != b.challenge)
  {
    if Judge(l, b, h, now) == Granted {
      var c := Find(l.pending, b.challenge).value;
      AfterRising(l.pending, c.sequence);
      var r := Renewed(l, b, h, now);
      assert Pending(l, c, now);
      forall d | d in r.pending
        ensures d.token != b.challenge && Pending(r, d, now)
      {
        assert Pending(l, d, now);
        OnlyLaterPending(l.pending, c, d);
      }
    }
  }

  // ---------------------------------------------------------------- exactly when authority is given

  /** The Hub accounted under what the Agent holds, and the Agent holds no error. */
  predicate SameBasis(b: Body, h: Held) {
    1 <= b.revision == h.revision && b.hash == h.hash && b.control == h.control && !h.faulty
  }

  /** `c` is the challenge `b` names, newer than the last grant and at most half a minute old. */
  predicate Answers(l: Lease, b: Body, c: Challenge, now: int) {
    && c in l.pending && c.token == b.challenge && c.sequence > l.lastSequence
    && 0 <= now - c.issued <= 30_000
    && !(l.accepted.Some? && l.accepted.value.challenge == b.challenge)
  }

  lemma TokenOnce(p: seq<Challenge>, c: Challenge, d: Challenge)
    requires Rising(p) && c in p && d in p && c.token == d.token
    ensures c == d
  {
    var i :| 0 <= i < |p| && p[i] == c;
    var j :| 0 <= j < |p| && p[j] == d;
    if i < j { assert Before(p[i], p[j]); } else if j < i { assert Before(p[j], p[i]); }
  }

  /**
    An acknowledgement grants if and only if it answers such a challenge on the same basis, and the lease then
    runs to a minute after the issue of that challenge, with starts allowed until then. The repetition of the
    accepted acknowledgement is known as such, and everything else is rejected.
  */
  lemma RenewalExactly(l: Lease, b: Body, h: Held, now: int)
    requires Ordered(l, now)
    ensures Judge(l, b, h, now) == Granted <==> SameBasis(b, h) && exists c :: Answers(l, b, c, now)
    ensures Judge(l, b, h, now) == Duplicate <==> SameBasis(b, h) && l.accepted == Some(b)
    ensures forall c :: Judge(l, b, h, now) == Granted && Answers(l, b, c, now) ==>
              var r := Renewed(l, b, h, now);
              && r == Lease(true, r.pending, c.issued + 60_000, l.sequence, c.sequence, Some(b), false)
              && (forall d :: d in r.pending <==> d in l.pending && d.sequence > c.sequence)
              && (forall t :: now <= t < c.issued + 60_000 ==> MayStart(r, t))
  {
    var found := Find(l.pending, b.challenge);
    if Judge(l, b, h, now) == Granted { assert Answers(l, b, found.value, now); }
    forall c | Answers(l, b, c, now)
      ensures found == Some(c)
    {
      TokenOnce(l.pending, c, found.value);
    }
  }

  /** What is still valid is the newer end of the table. */
  lemma {:induction false} FreshSuffix(p: seq<Challenge>, now: int)
    requires Rising(p)
    ensures var k := |p| - |Fresh(p, now)|;
            && Fresh(p, now) == p[k..]
            && (forall i :: 0 <= i < |p| ==> (now - p[i].issued <= 30_000 <==> k <= i))
    decreases |p|
  {
    if p != [] {
      RisingTail(p, 1);
      FreshSuffix(p[1..], now);
      forall i | 0 <= i < |p[1..]| ensures p[1..][i] == p[i + 1] {}
      if now - p[0].issued <= 30_000 {
        forall i | 0 <= i < |p[1..]|
          ensures now - p[1..][i].issued <= 30_000
        {
          assert Before(p[0], p[i + 1]);
        }
        assert Fresh(p[1..], now) == p[1..];
      } else {
        forall i | 0 < i < |p| ensures p[i] == p[1..][i - 1] {}
      }
    }
  }

  /**
    A challenge is handed out in every case: the new one comes last, under the next number. Of those before it
    exactly the ones at most half a minute old and among the sixty-three newest stay, in their order.
  */
  lemma IssueExactly(l: Lease, now: int, token: nat)
    requires Ordered(l, now)
    ensures var r := Issue(l, now, token);
            && r == l.(pending := r.pending, sequence := l.sequence + 1)
            && r.pending != [] && r.pending[|r.pending| - 1] == Challenge(token, now, l.sequence + 1)
            && exists k :: 0 <= k <= |l.pending| && r.pending[..|r.pending| - 1] == l.pending[k..]
                           && forall i :: 0 <= i < |l.pending| ==>
                                (k <= i <==> now - l.pending[i].issued <= 30_000 && |l.pending| - 63 <= i)
  {
    FreshSuffix(l.pending, now);
    var young := Fresh(l.pending, now);
    var kept := Trimmed(young);
    var k := |l.pending| - |kept|;
    assert kept == l.pending[k..];
    assert Issue(l, now, token).pending[..|kept|] == l.pending[k..];
  }

  /** A challenge just handed out grants to its acknowledgement, as long as that comes within half a minute. */
  lemma IssuedThenGranted(l: Lease, now: int, b: Body, h: Held, later: int)
    requires Ordered(l, now) && now <= later <= now + 30_000 && SameBasis(b, h)
    requires forall c :: c in l.pending ==> c.token != b.challenge
    requires l.accepted.Some? ==> l.accepted.value.challenge != b.challenge
    ensures var told := Issue(l, now, b.challenge);
            var r := Renewed(told, b, h, later);
            && Judge(told, b, h, later) == Granted
            && r.required && r.deadline == now + 60_000
            && forall t :: later <= t < now + 60_000 ==> MayStart(r, t)
  {
    var told := Issue(l, now, b.challenge);
    IssueOrdered(l, now, b.challenge);
    IssueExactly(l, now, b.challenge);
    var c := Challenge(b.challenge, now, l.sequence + 1);
    assert c in told.pending;
    assert Answers(told, b, c, later);
    assert Ordered(told, later);
    RenewalExactly(told, b, h, later);
  }

  // ---------------------------------------------------------------- the lease object

  class AccountingLease {
    var required: bool
    var pending: seq<Challenge>
    var deadline: int
    var sequence: nat
    var lastSequence: nat
    var accepted: Option<Body>
    var tripRecorded: bool

    /** A restarted Agent has the latch and no authority. */
    constructor (stored: bool, configured: bool)
      ensures Value() == Booted(stored || configured)
    {
      required := stored || configured;
      pending, deadline, sequence, lastSequence, accepted, tripRecorded := [], 0, 0, 0, None, false;
    }

    function Value(): Lease
      reads this
    {
      Lease(required, pending, deadline, sequence, lastSequence, accepted, tripRecorded)
    }

    method DropExpired(now: int) returns (kept: seq<Challenge>)
      ensures kept == Fresh(pending, now)
    {
      var i := 0;
      kept := [];
      while i < |pending|
        invariant 0 <= i <= |pending|
        invariant kept + Fresh(pending[i..], now) == Fresh(pending, now)
      {
        assert pending[i..][0] == pending[i] && pending[i..][1..] == pending[i + 1..];
        if now - pending[i].issued <= CHALLENGE { kept := kept + [pending[i]]; }
        i := i + 1;
      }
    }

    method MakeRoom(young: seq<Challenge>) returns (kept: seq<Challenge>)
      ensures kept == Trimmed(young)
    {
      kept := young;
      ghost var k := 0;
      while |kept| >= PENDING_LIMIT
        invariant 0 <= k <= |young| && kept == young[k..]
        invariant k > 0 ==> |kept| >= PENDING_LIMIT - 1
        decreases |kept|
      {
        kept, k := kept[1..], k + 1;
      }
    }

    method IssueChallenge(now: int, token: nat)
      modifies this`pending, this`sequence
      ensures Value() == Issue(old(Value()), now, token)
      ensures sequence == old(sequence) + 1 && pending != []
      ensures pending[|pending| - 1] == Challenge(token, now, sequence) && |pending| <= 64
      ensures forall c :: c in pending[..|pending| - 1] ==> c in old(pending) && now - c.issued <= 30_000
    {
      var young := DropExpired(now);
      var kept := MakeRoom(young);
      sequence := sequence + 1;
      pending := kept + [Challenge(token, now, sequence)];
    }

    /** `latched` says whether the write of the durable latch, made before the first grant, succeeded. */
    method Renew(b: Body, h: Held, now: int, latched: bool) returns (v: Option<Verdict>)
      modifies this
      ensures v == if Judge(old(Value()), b, h, now) == Granted && !old(required) && !latched then None
                   else Some(Judge(old(Value()), b, h, now))
      ensures Value() == if v == Some(Granted) then Renewed(old(Value()), b, h, now) else old(Value())
      ensures Ordered(old(Value()), now) ==>
                && (v == Some(Granted) <==>
                      (old(required) || latched) && SameBasis(b, h) && exists c :: Answers(old(Value()), b, c, now))
                && (v == Some(Duplicate) <==> SameBasis(b, h) && old(accepted) == Some(b))
                && (v == Some(Granted) ==>
                      forall c :: Answers(old(Value()), b, c, now) ==> deadline == c.issued + 60_000)
    {
      if Ordered(Value(), now) { RenewalExactly(Value(), b, h, now); }
      if !Matches(b, h) { return Some(Rejected); }
      if accepted.Some? && accepted.value.challenge == b.challenge {
        return Some(if accepted.value == b then Duplicate else Rejected);
      }
      var c := Find(pending, b.challenge);
      if c.None? || c.value.sequence <= lastSequence || now - c.value.issued > CHALLENGE || c.value.issued > now {
        return Some(Rejected);
      }
      if !required {
        if !latched { return None; }
        required := true;
      }
      deadline := c.value.issued + LEASE;
      lastSequence := c.value.sequence;
      accepted := Some(b);
      tripRecorded := false;
      pending := After(pending, c.value.sequence);
      v := Some(Granted);
    }

    /** The trip is written to the database before the flag that blocks starts is set. */
    method RecordTrip(written: bool) returns (ok: bool)
      modifies this`tripRecorded
      ensures ok <==> old(tripRecorded) || written
      ensures Value() == if ok then Tripped(old(Value())) else old(Value())
    {
      if tripRecorded { return true; }
      if !written { return false; }
      tripRecorded := true;
      ok := true;
    }
  }
}
