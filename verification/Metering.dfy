/**
  From the counters of the Xray process to the charged ledger: samples are added to a client's row,
  the row is charged against a baseline, resets zero the row, deletion moves it to a tombstone. Both
  directions are counted separately. One client's life is followed through every crash; the objects
  at the end hold many clients.
*/
module Metering {
  import opened Counters
  import opened Wrappers

  predicate Le(a: Pair, b: Pair) { a.up <= b.up && a.down <= b.down }

  function Sub(a: Pair, b: Pair): Pair
    requires Le(b, a)
  {
    Pair(a.up - b.up, a.down - b.down)
  }

  /** A counter that went down started again from zero. */
  function Grown(before: nat, now: nat): nat { if now >= before then now - before else now }

  function Delta(before: Pair, now: Pair): Pair { Pair(Grown(before.up, now.up), Grown(before.down, now.down)) }

  // ---------------------------------------------------------------- charging one record

  datatype Entry = Entry(id: nat, bytes: Pair)

  /** The part of a client's metadata that charging reads and writes. */
  datatype Baseline = Baseline(last: Pair, initialized: bool, seq_: nat)

  datatype Account = Account(base: Baseline, ledger: seq<Entry>)

  predicate Overflows(r: Pair, remote: nat) { r.up + r.down > MAX_INT || r.up + r.down + remote > MAX_INT }

  /** One transaction: ledger row and baseline advance together, or nothing does. */
  function Charged(a: Account, r: Pair): Account {
    var d := Delta(a.base.last, r);
    var ledger := if d != ZERO then a.ledger + [Entry(a.base.seq_ + 1, d)] else a.ledger;
    if r != a.base.last || !a.base.initialized then Account(Baseline(r, true, a.base.seq_ + 1), ledger)
    else Account(a.base, ledger)
  }

  function Total(ledger: seq<Entry>): Pair
    decreases |ledger|
  {
    if ledger == [] then ZERO else Add(Total(ledger[..|ledger| - 1]), ledger[|ledger| - 1].bytes)
  }

  predicate Numbered(a: Account) {
    && (forall i :: 0 <= i < |a.ledger| ==> 0 < a.ledger[i].id <= a.base.seq_)
    && (forall i, j :: 0 <= i < j < |a.ledger| ==> a.ledger[i].id < a.ledger[j].id)
  }

  lemma TotalAppend(ledger: seq<Entry>, e: Entry)
    ensures Total(ledger + [e]) == Add(Total(ledger), e.bytes)
  {
    assert (ledger + [e])[..|ledger|] == ledger;
  }

  lemma NumberedAppend(a: Account, r: Pair)
    requires Numbered(a)
    ensures Numbered(Charged(a, r))
  {
  }

  lemma DeltaZeroIffSame(before: Pair, now: Pair)
    ensures Delta(now, now) == ZERO
    ensures Delta(before, now) != ZERO ==> before != now
  {
  }

  /** A charge adds exactly the growth since the baseline and moves the baseline there. */
  lemma ChargeAddsGrowth(a: Account, r: Pair)
    requires Numbered(a)
    ensures Total(Charged(a, r).ledger) == Add(Total(a.ledger), Delta(a.base.last, r))
    ensures Charged(a, r).base.last == r && Numbered(Charged(a, r))
  {
    var d := Delta(a.base.last, r);
    NumberedAppend(a, r);
    if d != ZERO {
      TotalAppend(a.ledger, Entry(a.base.seq_ + 1, d));
    } else {
      AddNothing(Total(a.ledger));
    }
  }

  lemma AddNothing(p: Pair)
    ensures Add(p, ZERO) == p
  {
  }

  /** Charging the same record again changes nothing. */
  lemma ChargeOnce(a: Account, r: Pair)
    ensures Charged(Charged(a, r), r) == Charged(a, r)
  {
    var b := Charged(a, r);
    DeltaZeroIffSame(a.base.last, r);
    assert b.base.last == r && b.base.initialized && Delta(r, r) == ZERO;
  }

  // ---------------------------------------------------------------- the life of one client

  /** Where a reset or deletion in progress stands; a crash or failure forgets it. */
  datatype Work = Quiet | Holding(final: Pair) | Settled | TombSettled

  /**
    `proc` and `last` belong to the running Xray process, `seen` and `work` to the manager process,
    the rest is durable. `counted` and `sampled` remember all bytes the core counted and all bytes
    that reached the row; `broken` remembers that a reset was cut between its transactions.
  */
  datatype Meter = Meter(proc: Pair, last: Pair, row: Option<Pair>, tomb: Option<Pair>, account: Account, policy: bool,
                         seen: Option<Pair>, work: Work, counted: Pair, sampled: Pair, broken: bool)

  /**
    A reset samples a running core first and is refused if that fails; a stopped core is not sampled.
    A deletion goes ahead even when its sample fails.
  */
  datatype Step =
    | Traffic(bytes: Pair)
    | Respawn
    | Collect
    | Observe
    | ChargeSeen(remote: nat)
    | ResetCore(running: bool)
    | ResetCharge(remote: nat)
    | ResetZero
    | DeleteCore(sampled: bool)
    | ChargeTomb(remote: nat)
    | DeletePolicy
    | Fail
    | Crash

  predicate Enabled(m: Meter, step: Step) {
    match step
    case Observe => m.row.Some? && m.work == Quiet
    case ChargeSeen(_) => m.seen.Some? && m.work == Quiet
    case ResetCore(_) => m.row.Some? && m.work == Quiet
    case ResetCharge(_) => m.work.Holding?
    case ResetZero => m.work == Settled
    case DeleteCore(_) => m.row.Some? && m.work == Quiet
    case ChargeTomb(_) => m.row.None? && m.tomb.Some? && m.work == Quiet
    case DeletePolicy => m.work == TombSettled
    case _ => true
  }

  function Collected(m: Meter): Meter {
    var d := Delta(m.last, m.proc);
    if m.row.None? then m.(last := m.proc)
    else m.(last := m.proc, row := Some(Add(m.row.value, d)), sampled := Add(m.sampled, d))
  }

  function Recharged(m: Meter, r: Pair): Meter {
    if m.policy then m.(account := Charged(m.account, r)) else m
  }

  predicate Refuses(m: Meter, r: Pair, remote: nat) { m.policy && Overflows(r, remote) }

  function Dropped(m: Meter): Meter {
    m.(work := Quiet, seen := None, broken := m.broken || m.work.Holding? || m.work.Settled?)
  }

  function Next(m: Meter, step: Step): Meter
    requires Enabled(m, step)
  {
    match step
    case Traffic(bytes) => m.(proc := Add(m.proc, bytes), counted := Add(m.counted, bytes))
    case Respawn => m.(proc := ZERO, last := ZERO)
    case Collect => Collected(m)
    case Observe => m.(seen := m.row)
    case ChargeSeen(remote) => if Refuses(m, m.seen.value, remote) then Dropped(m) else Recharged(m, m.seen.value)
    case ResetCore(running) =>
      var c := if running then Collected(m) else m;
      c.(row := Some(ZERO), work := Holding(c.row.value), seen := None)
    case ResetCharge(remote) =>
      if Refuses(m, m.work.final, remote) then Dropped(m) else Recharged(m, m.work.final).(work := Settled)
    case ResetZero => m.(account := m.account.(base := m.account.base.(last := ZERO)), work := Quiet)
    case DeleteCore(sampled) =>
      var c := if sampled then Collected(m) else m;
      c.(row := None, tomb := c.row, seen := None)
    case ChargeTomb(remote) =>
      if Refuses(m, m.tomb.value, remote) then Dropped(m) else Recharged(m, m.tomb.value).(work := TombSettled)
    case DeletePolicy => m.(policy := false, work := Quiet)
    case Fail => Dropped(m)
    case Crash => Dropped(m).(proc := ZERO, last := ZERO)
  }

  predicate Initial(m: Meter) {
    && m.proc == ZERO && m.last == ZERO && m.row == Some(ZERO) && m.tomb.None? && m.policy && m.seen.None?
       && m.work == Quiet
    && m.account == Account(Baseline(ZERO, false, 0), []) && m.counted == ZERO && m.sampled == ZERO && !m.broken
  }

  /** What the client has in store, in its row or in its tombstone. */
  function Stored(m: Meter): Pair {
    if m.row.Some? then m.row.value else if m.tomb.Some? then m.tomb.value else ZERO
  }

  function LatestSeen(m: Meter): Pair { if m.seen.Some? then m.seen.value else Stored(m) }

  /**
    One direction while nothing is in progress: either the baseline is behind what was seen and the
    ledger covers the rest, or, after a cut reset, even charging all that is stored stays covered.
  */
  predicate Covered(total: nat, base: nat, seen: nat, stored: nat, sampled: nat) {
    seen <= stored && (total + stored <= sampled || (base <= seen && total + stored - base <= sampled))
  }

  /** The ledger never runs ahead of the samples. */
  predicate Bounded(m: Meter) {
    var total, base, stored := Total(m.account.ledger), m.account.base.last, Stored(m);
    match m.work
    case Holding(final) => Le(Add(Add(total, Delta(base, final)), stored), m.sampled)
    case Settled => Le(Add(total, stored), m.sampled)
    case _ => Covered(total.up, base.up, LatestSeen(m).up, stored.up, m.sampled.up)
              && Covered(total.down, base.down, LatestSeen(m).down, stored.down, m.sampled.down)
  }

  /** Without a cut reset, ledger and uncharged part add up to the samples exactly. */
  predicate Exact(m: Meter) {
    var total, base, stored := Total(m.account.ledger), m.account.base.last, Stored(m);
    match m.work
    case Holding(final) => Le(base, final) && Add(Add(total, Sub(final, base)), stored) == m.sampled
    case Settled => Add(total, stored) == m.sampled
    case _ => Le(base, LatestSeen(m)) && Le(base, stored) && Add(total, Sub(stored, base)) == m.sampled
  }

  predicate Shape(m: Meter) {
    && Numbered(m.account)
    && Le(m.last, m.proc) && Le(Add(m.sampled, Sub(m.proc, m.last)), m.counted)
    && (m.seen.Some? ==> m.row.Some? && m.work == Quiet && Le(m.seen.value, m.row.value))
    && (m.work.Holding? || m.work.Settled? ==> m.row.Some?)
    && (m.row.None? ==> m.tomb.Some?)
    && (!m.policy || m.work == TombSettled ==> m.row.None? && m.account.base.last == m.tomb.value)
  }

  predicate Inv(m: Meter) { Shape(m) && Bounded(m) && (!m.broken ==> Exact(m)) }

  lemma CollectShape(m: Meter)
    requires Shape(m)
    ensures Shape(Collected(m))
    ensures m.row.Some? ==> Stored(Collected(m)) == Add(Stored(m), Sub(m.proc, m.last))
                            && Collected(m).sampled == Add(m.sampled, Sub(m.proc, m.last))
    ensures m.row.None? ==> Stored(Collected(m)) == Stored(m) && Collected(m).sampled == m.sampled
  {
  }

  lemma CollectBounded(m: Meter)
    requires Shape(m) && Bounded(m)
    ensures Bounded(Collected(m))
  {
    CollectShape(m);
    var c := Collected(m);
    if !m.work.Holding? && !m.work.Settled? {
      var total, base := Total(m.account.ledger), m.account.base.last;
      assert m.seen.Some? ==> LatestSeen(c) == LatestSeen(m);
      assert Covered(total.up, base.up, LatestSeen(c).up, Stored(c).up, c.sampled.up);
      assert Covered(total.down, base.down, LatestSeen(c).down, Stored(c).down, c.sampled.down);
    }
  }

  lemma CollectExact(m: Meter)
    requires Shape(m) && Exact(m)
    ensures Exact(Collected(m))
  {
    CollectShape(m);
  }

  lemma CollectKeeps(m: Meter)
    requires Inv(m)
    ensures Inv(Collected(m))
    ensures Collected(m).work == m.work && Collected(m).seen == m.seen
  {
    CollectShape(m);
    CollectBounded(m);
    if !m.broken { CollectExact(m); }
  }

  lemma CoveredAfterCharge(total: nat, base: nat, seen: nat, stored: nat, sampled: nat)
    requires Covered(total, base, seen, stored, sampled)
    ensures Covered(total + Grown(base, seen), seen, seen, stored, sampled)
  {
  }

  lemma ChargeBounded(m: Meter, r: Pair)
    requires Shape(m) && Bounded(m) && m.seen == Some(r)
    ensures Bounded(Recharged(m, r))
  {
    var total, base, stored := Total(m.account.ledger), m.account.base.last, Stored(m);
    ChargeAddsGrowth(m.account, r);
    CoveredAfterCharge(total.up, base.up, r.up, stored.up, m.sampled.up);
    CoveredAfterCharge(total.down, base.down, r.down, stored.down, m.sampled.down);
  }

  lemma ChargeExact(m: Meter, r: Pair)
    requires Shape(m) && Exact(m) && m.seen == Some(r)
    ensures Exact(Recharged(m, r))
  {
    if m.policy {
      var total, base, stored := Total(m.account.ledger), m.account.base.last, Stored(m);
      var after := Charged(m.account, r);
      ChargeAddsGrowth(m.account, r);
      assert Delta(base, r) == Sub(r, base);
      assert Total(after.ledger) == Add(total, Sub(r, base));
      assert Recharged(m, r) == m.(account := after);
    }
  }

  lemma ChargeShape(m: Meter, r: Pair)
    requires Shape(m) && m.seen == Some(r)
    ensures Shape(Recharged(m, r))
  {
    ChargeAddsGrowth(m.account, r);
  }

  lemma ChargeSeenKeeps(m: Meter, remote: nat)
    requires Inv(m) && Enabled(m, ChargeSeen(remote))
    ensures Inv(Next(m, ChargeSeen(remote)))
  {
    var r := m.seen.value;
    if Refuses(m, r, remote) {
      DropKeeps(m);
    } else {
      ChargeShape(m, r);
      ChargeBounded(m, r);
      if !m.broken { ChargeExact(m, r); }
    }
  }

  lemma ResetCoreKeeps(m: Meter, running: bool)
    requires Inv(m) && Enabled(m, ResetCore(running))
    ensures Inv(Next(m, ResetCore(running)))
  {
    CollectKeeps(m);
    var c := if running then Collected(m) else m;
    assert Bounded(c) && Stored(c) == c.row.value;
  }

  lemma ResetChargeKeeps(m: Meter, remote: nat)
    requires Inv(m) && Enabled(m, ResetCharge(remote))
    ensures Inv(Next(m, ResetCharge(remote)))
  {
    ChargeAddsGrowth(m.account, m.work.final);
  }

  lemma DeleteCoreKeeps(m: Meter, sampled: bool)
    requires Inv(m) && Enabled(m, DeleteCore(sampled))
    ensures Inv(Next(m, DeleteCore(sampled)))
  {
    CollectKeeps(m);
    var c := if sampled then Collected(m) else m;
    assert Stored(Next(m, DeleteCore(sampled))) == Stored(c);
  }

  lemma TombBounded(m: Meter)
    requires Shape(m) && Bounded(m) && m.row.None? && m.work == Quiet
    ensures Bounded(Recharged(m, m.tomb.value).(work := TombSettled))
  {
    var total, base, r := Total(m.account.ledger), m.account.base.last, m.tomb.value;
    ChargeAddsGrowth(m.account, r);
    CoveredAfterCharge(total.up, base.up, r.up, r.up, m.sampled.up);
    CoveredAfterCharge(total.down, base.down, r.down, r.down, m.sampled.down);
  }

  lemma TombExact(m: Meter)
    requires Shape(m) && Exact(m) && m.row.None? && m.work == Quiet
    ensures Exact(Recharged(m, m.tomb.value).(work := TombSettled))
  {
    if m.policy {
      var total, base, r := Total(m.account.ledger), m.account.base.last, m.tomb.value;
      var after := Charged(m.account, r);
      ChargeAddsGrowth(m.account, r);
      assert Delta(base, r) == Sub(r, base);
      assert Total(after.ledger) == Add(total, Sub(r, base)) && Sub(r, r) == ZERO;
      assert Recharged(m, r) == m.(account := after);
    }
  }

  lemma TombShape(m: Meter)
    requires Shape(m) && m.row.None? && m.work == Quiet
    ensures Shape(Recharged(m, m.tomb.value).(work := TombSettled))
  {
    ChargeAddsGrowth(m.account, m.tomb.value);
  }

  lemma ChargeTombKeeps(m: Meter, remote: nat)
    requires Inv(m) && Enabled(m, ChargeTomb(remote))
    ensures Inv(Next(m, ChargeTomb(remote)))
  {
    if Refuses(m, m.tomb.value, remote) {
      DropKeeps(m);
    } else {
      TombShape(m);
      TombBounded(m);
      if !m.broken { TombExact(m); }
    }
  }

  lemma DropKeeps(m: Meter)
    requires Inv(m)
    ensures Inv(Dropped(m))
  {
  }

  lemma TrafficKeeps(m: Meter, bytes: Pair)
    requires Inv(m)
    ensures Inv(Next(m, Traffic(bytes)))
  {
  }

  lemma RespawnKeeps(m: Meter)
    requires Inv(m)
    ensures Inv(m.(proc := ZERO, last := ZERO))
  {
  }

  lemma ObserveKeeps(m: Meter)
    requires Inv(m) && Enabled(m, Observe)
    ensures Inv(Next(m, Observe))
  {
  }

  lemma ResetZeroKeeps(m: Meter)
    requires Inv(m) && Enabled(m, ResetZero)
    ensures Inv(Next(m, ResetZero))
  {
  }

  lemma DeletePolicyKeeps(m: Meter)
    requires Inv(m) && Enabled(m, DeletePolicy)
    ensures Inv(Next(m, DeletePolicy))
  {
  }

  lemma CrashKeeps(m: Meter)
    requires Inv(m)
    ensures Inv(Next(m, Crash))
  {
    DropKeeps(m);
    RespawnKeeps(Dropped(m));
  }

  lemma StepKeeps(m: Meter, step: Step)
    requires Inv(m) && Enabled(m, step)
    ensures Inv(Next(m, step))
  {
    match step
    case Traffic(bytes) => TrafficKeeps(m, bytes);
    case Respawn => RespawnKeeps(m);
    case Collect => CollectKeeps(m);
    case Observe => ObserveKeeps(m);
    case ChargeSeen(remote) => ChargeSeenKeeps(m, remote);
    case ResetCore(running) => ResetCoreKeeps(m, running);
    case ResetCharge(remote) => ResetChargeKeeps(m, remote);
    case ResetZero => ResetZeroKeeps(m);
    case DeleteCore(sampled) => DeleteCoreKeeps(m, sampled);
    case ChargeTomb(remote) => ChargeTombKeeps(m, remote);
    case DeletePolicy => DeletePolicyKeeps(m);
    case Fail => DropKeeps(m);
    case Crash => CrashKeeps(m);
  }

  ghost predicate Run(states: seq<Meter>, steps: seq<Step>) {
    && |states| == |steps| + 1
    && Initial(states[0])
    && forall i :: 0 <= i < |steps| ==> Enabled(states[i], steps[i]) && states[i + 1] == Next(states[i], steps[i])
  }

  lemma StartsInvariant(m: Meter)
    requires Initial(m)
    ensures Inv(m)
  {
  }

  lemma InvPromises(t: Meter)
    requires Inv(t)
    ensures Le(Total(t.account.ledger), t.sampled) && Le(t.sampled, t.counted)
    ensures forall i, j :: 0 <= i < j < |t.account.ledger| ==> t.account.ledger[i].id < t.account.ledger[j].id
    ensures !t.broken && t.work == Quiet ==>
              Le(t.account.base.last, Stored(t))
              && Add(Total(t.account.ledger), Sub(Stored(t), t.account.base.last)) == t.sampled
  {
  }

  lemma InvDeleted(t: Meter)
    requires Inv(t) && !t.policy
    ensures t.row.None? && t.tomb.Some? && t.account.base.last == t.tomb.value
    ensures !t.broken ==> Total(t.account.ledger) == t.sampled
  {
    assert Stored(t) == t.tomb.value && !t.work.Holding? && !t.work.Settled?;
    if !t.broken {
      var total := Total(t.account.ledger);
      assert Exact(t);
      assert Sub(t.tomb.value, t.account.base.last) == ZERO;
      assert Add(total, ZERO) == total;
    }
  }

  lemma {:induction false} RunInvariant(states: seq<Meter>, steps: seq<Step>, n: nat)
    requires Run(states, steps) && n < |states|
    ensures Inv(states[n])
    decreases n
  {
    if n == 0 {
      StartsInvariant(states[0]);
    } else {
      RunInvariant(states, steps, n - 1);
      StepKeeps(states[n - 1], steps[n - 1]);
    }
  }

  // ---------------------------------------------------------------- what is promised

  /**
    Conservation. Over any run of traffic, samples, Xray restarts, charges, resets, deletion steps,
    failures and crashes, the ledger never exceeds what was sampled, which never exceeds what the
    core counted, so no byte is charged twice; and its event numbers differ. As long as no reset was
    cut between its transactions, ledger and uncharged row delta add up to the samples exactly.
  */
  lemma Conservation(states: seq<Meter>, steps: seq<Step>, n: nat)
    requires Run(states, steps) && n < |states|
    ensures var t := states[n];
            && Le(Total(t.account.ledger), t.sampled) && Le(t.sampled, t.counted)
            && (forall i, j :: 0 <= i < j < |t.account.ledger| ==> t.account.ledger[i].id < t.account.ledger[j].id)
            && (!t.broken && t.work == Quiet ==>
                  Le(t.account.base.last, Stored(t))
                  && Add(Total(t.account.ledger), Sub(Stored(t), t.account.base.last)) == t.sampled)
  {
    RunInvariant(states, steps, n);
    InvPromises(states[n]);
  }

  /**
    Deletion. Whatever was cut and repeated on the way, once the policy row is gone the tombstone has
    been charged into the baseline; with no cut reset every sampled byte is in the ledger, once.
  */
  lemma DeletionChargesFinalBytes(states: seq<Meter>, steps: seq<Step>, n: nat)
    requires Run(states, steps) && n < |states| && !states[n].policy
    ensures var t := states[n];
            && t.row.None? && t.tomb.Some? && t.account.base.last == t.tomb.value
            && (!t.broken ==> Total(t.account.ledger) == t.sampled)
  {
    RunInvariant(states, steps, n);
    InvDeleted(states[n]);
  }

  lemma DeletedStep(m: Meter, step: Step)
    requires Inv(m) && !m.policy && Enabled(m, step)
    ensures Next(m, step).account == m.account && !Next(m, step).policy
  {
  }

  /** After that the ledger never changes again, however often the deletion is retried. */
  lemma {:induction false} DeletedIsFinal(states: seq<Meter>, steps: seq<Step>, m: nat, n: nat)
    requires Run(states, steps) && m <= n < |states| && !states[m].policy
    ensures states[n].account == states[m].account && !states[n].policy
    decreases n - m
  {
    if m < n {
      DeletedIsFinal(states, steps, m, n - 1);
      RunInvariant(states, steps, n - 1);
      DeletedStep(states[n - 1], steps[n - 1]);
    }
  }

  /** From any state in which the core row is gone, one undisturbed retry finishes the charge. */
  lemma DeletionRetryFinishes(m: Meter, remote: nat)
    requires Shape(m) && m.row.None? && m.policy && m.work == Quiet && !Refuses(m, m.tomb.value, remote)
    ensures var a := Next(m, ChargeTomb(remote));
            && Enabled(a, DeletePolicy)
            && var t := Next(a, DeletePolicy);
               !t.policy && t.work == Quiet
               && Total(t.account.ledger) == Add(Total(m.account.ledger), Delta(m.account.base.last, m.tomb.value))
  {
    var r := m.tomb.value;
    ChargeAddsGrowth(m.account, r);
    assert Next(m, ChargeTomb(remote)) == m.(account := Charged(m.account, r), work := TombSettled);
  }

  // ---------------------------------------------------------------- a reset that is cut

  /** Steps that neither charge nor begin or continue a reset or deletion. */
  predicate Idle(step: Step) {
    step.Traffic? || step.Respawn? || step.Collect? || step.Observe? || step.Fail? || step.Crash?
  }

  ghost predicate Path(states: seq<Meter>, steps: seq<Step>) {
    && |states| == |steps| + 1
    && forall i :: 0 <= i < |steps| ==> Enabled(states[i], steps[i]) && states[i + 1] == Next(states[i], steps[i])
  }

  /** The account is as it was, and everything sampled since lies in the row. */
  predicate Gathered(h: Meter, u: Meter) {
    && u.account == h.account && u.policy == h.policy && h.row.Some? && u.row.Some? && Le(u.last, u.proc)
    && Add(u.sampled, h.row.value) == Add(h.sampled, u.row.value)
  }

  lemma IdleStep(h: Meter, u: Meter, step: Step)
    requires Gathered(h, u) && Idle(step) && Enabled(u, step)
    ensures Gathered(h, Next(u, step))
  {
  }

  lemma {:induction false} IdlePath(states: seq<Meter>, steps: seq<Step>, n: nat)
    requires Path(states, steps) && n < |states| && Gathered(states[0], states[0])
    requires forall i :: 0 <= i < |steps| ==> Idle(steps[i])
    ensures Gathered(states[0], states[n])
    decreases n
  {
    if n > 0 {
      IdlePath(states, steps, n - 1);
      IdleStep(states[0], states[n - 1], steps[n - 1]);
    }
  }

  /** The next charge: look at the row, then charge what was seen. */
  function ChargeNow(u: Meter, remote: nat): Meter
    requires Enabled(u, Observe)
  {
    Next(Next(u, Observe), ChargeSeen(remote))
  }

  lemma ChargeNowTotal(u: Meter, remote: nat)
    requires Enabled(u, Observe) && u.policy && Numbered(u.account) && !Refuses(u, u.row.value, remote)
    ensures var v := ChargeNow(u, remote);
            && Total(v.account.ledger) == Add(Total(u.account.ledger), Delta(u.account.base.last, u.row.value))
            && v == u.(seen := u.row, account := Charged(u.account, u.row.value))
            && v.account.base.last == u.row.value
  {
    ChargeAddsGrowth(u.account, u.row.value);
  }

  /** One direction: whether a charge at `r` makes up for a baseline `base` that belongs to `row` zeroed bytes. */
  predicate MadeUp(base: nat, row: nat, r: nat) { row == 0 || (base == row && r < base) }

  /**
    A reset cut after the row was zeroed and before its bytes were charged. However the cut falls and
    whatever is sampled before the next charge, that charge, at row `r`, brings the ledger up to the samples
    if and only if there was nothing to lose, or all of it had been charged and the row is still below the
    old baseline, so that it is taken for a restarted counter.
  */
  lemma CutBeforeCharge(m: Meter, running: bool, states: seq<Meter>, steps: seq<Step>, remote: nat)
    requires Inv(m) && !m.broken && m.work == Quiet && m.row.Some?
    requires Path(states, steps) && states[0] == Next(m, ResetCore(running)) && states[|steps|].work == Quiet
    requires forall i :: 0 <= i < |steps| ==> Idle(steps[i])
    requires states[|steps|].row.Some? ==> !Refuses(states[|steps|], states[|steps|].row.value, remote)
    ensures var u, base, row := states[|steps|], m.account.base.last, states[0].work.final;
            && u.row.Some?
            && var v := ChargeNow(u, remote);
               var total, r := Total(v.account.ledger), u.row.value;
               (total.up == v.sampled.up <==> MadeUp(base.up, row.up, r.up))
               && (total.down == v.sampled.down <==> MadeUp(base.down, row.down, r.down))
  {
    var h, u := states[0], states[|steps|];
    ResetCoreKeeps(m, running);
    assert Exact(h) && h.account == m.account;
    IdlePath(states, steps, |steps|);
    ChargeNowTotal(u, remote);
  }

  /**
    A reset cut after its bytes were charged and before the baseline was zeroed: the next charge brings
    the ledger up to the samples if and only if the baseline is zero or the row is still below it.
  */
  lemma CutAfterCharge(h: Meter, states: seq<Meter>, steps: seq<Step>, remote: nat)
    requires Inv(h) && !h.broken && h.work == Settled
    requires Path(states, steps) && states[0] == h && states[|steps|].work == Quiet
    requires forall i :: 0 <= i < |steps| ==> Idle(steps[i])
    requires states[|steps|].row.Some? ==> !Refuses(states[|steps|], states[|steps|].row.value, remote)
    ensures var u, final := states[|steps|], h.account.base.last;
            && u.row.Some?
            && var v := ChargeNow(u, remote);
               var total, r := Total(v.account.ledger), u.row.value;
               (total.up == v.sampled.up <==> MadeUp(final.up, final.up, r.up))
               && (total.down == v.sampled.down <==> MadeUp(final.down, final.down, r.down))
  {
    var u := states[|steps|];
    assert Exact(h);
    IdlePath(states, steps, |steps|);
    ChargeNowTotal(u, remote);
  }

  /** The baseline is behind what will be charged next, so that charges add what is missing from it and no more. */
  predicate InStep(m: Meter) {
    var base := m.account.base.last;
    match m.work
    case Holding(final) => Le(base, final)
    case Settled => true
    case _ => Le(base, LatestSeen(m)) && Le(base, Stored(m))
  }

  /** What the ledger has, and what the records still to be charged will bring. */
  function Expected(m: Meter): Pair
    requires InStep(m)
  {
    var total, base := Total(m.account.ledger), m.account.base.last;
    match m.work
    case Holding(final) => Add(Add(total, Sub(final, base)), Stored(m))
    case Settled => Add(total, Stored(m))
    case _ => Add(total, Sub(Stored(m), base))
  }

  /** After the next charge the baseline is in step again. */
  lemma InStepAfterCharge(u: Meter, remote: nat)
    requires Enabled(u, Observe) && u.policy && Numbered(u.account) && !Refuses(u, u.row.value, remote)
    ensures var v := ChargeNow(u, remote); InStep(v) && Expected(v) == Total(v.account.ledger)
  {
    ChargeNowTotal(u, remote);
    var v := ChargeNow(u, remote);
    assert Stored(v) == u.row.value && Sub(u.row.value, u.row.value) == ZERO;
    AddNothing(Total(v.account.ledger));
  }

  /** The step cuts a reset between its transactions. */
  predicate Cuts(m: Meter, step: Step) {
    (m.work.Holding? || m.work.Settled?)
    && (step.Fail? || step.Crash? || (step.ResetCharge? && m.work.Holding? && Refuses(m, m.work.final, step.remote)))
  }

  /** The samples stay as far ahead of what will be charged as they were. */
  predicate SameLoss(m: Meter, t: Meter)
    requires InStep(m)
  {
    InStep(t) && Add(Expected(t), m.sampled) == Add(Expected(m), t.sampled)
  }

  lemma LossAtCollect(m: Meter)
    requires Shape(m) && InStep(m)
    ensures SameLoss(m, Collected(m)) && Shape(Collected(m))
  {
    CollectShape(m);
  }

  lemma Regroup(total: Pair, base: Pair, r: Pair, stored: Pair)
    requires Le(base, r) && Le(r, stored)
    ensures Le(base, stored) && Add(Add(total, Sub(r, base)), Sub(stored, r)) == Add(total, Sub(stored, base))
  {
  }

  /** An account that has taken up the growth to `r`, and its meter with nothing else changed. */
  lemma LossAtAccount(m: Meter, t: Meter, r: Pair)
    requires InStep(m) && m.work == Quiet && r == LatestSeen(m) && Le(r, Stored(m))
    requires t == m.(account := t.account, work := t.work)
    requires t.work == Quiet || (t.work == TombSettled && m.row.None?)
    requires t.account.base.last == r
    requires Total(t.account.ledger) == Add(Total(m.account.ledger), Sub(r, m.account.base.last))
    ensures SameLoss(m, t)
  {
    assert Stored(t) == Stored(m) && LatestSeen(t) == LatestSeen(m) && t.sampled == m.sampled;
    Regroup(Total(m.account.ledger), m.account.base.last, r, Stored(m));
    assert InStep(t) && Expected(t) == Expected(m);
  }

  lemma LossAtSettled(m: Meter, after: Account)
    requires InStep(m) && m.work.Holding?
    requires Total(after.ledger) == Add(Total(m.account.ledger), Sub(m.work.final, m.account.base.last))
    ensures SameLoss(m, m.(account := after, work := Settled))
  {
  }

  /** Growth in step with the baseline is a plain difference. */
  lemma ChargedTotal(a: Account, r: Pair)
    requires Numbered(a) && Le(a.base.last, r)
    ensures Total(Charged(a, r).ledger) == Add(Total(a.ledger), Sub(r, a.base.last))
    ensures Charged(a, r).base.last == r
  {
    ChargeAddsGrowth(a, r);
    assert Delta(a.base.last, r) == Sub(r, a.base.last);
  }

  lemma LossAtCharge(m: Meter, r: Pair)
    requires Shape(m) && InStep(m) && m.work == Quiet && m.policy
    requires m.seen == Some(r) || (m.row.None? && m.tomb == Some(r))
    ensures SameLoss(m, Recharged(m, r))
    ensures m.row.None? ==> SameLoss(m, Recharged(m, r).(work := TombSettled))
  {
    assert r == LatestSeen(m) && Le(r, Stored(m));
    ChargedTotal(m.account, r);
    LossAtAccount(m, Recharged(m, r), r);
    if m.row.None? { LossAtAccount(m, Recharged(m, r).(work := TombSettled), r); }
  }

  lemma LossAtResetCharge(m: Meter)
    requires Shape(m) && InStep(m) && m.work.Holding? && m.policy
    ensures SameLoss(m, Recharged(m, m.work.final).(work := Settled))
  {
    ChargedTotal(m.account, m.work.final);
    LossAtSettled(m, Charged(m.account, m.work.final));
  }

  /** Zeroing the row or moving it away only moves what is stored. */
  lemma LossAtMove(c: Meter, step: Step)
    requires Shape(c) && InStep(c) && (step == ResetCore(false) || step == DeleteCore(false)) && Enabled(c, step)
    ensures SameLoss(c, Next(c, step))
  {
    var total := Total(c.account.ledger);
    if step.ResetCore? { AddNothing(Add(total, Sub(c.row.value, c.account.base.last))); }
  }

  predicate Plain(step: Step) {
    step.Traffic? || step.Respawn? || step.Observe? || step.ResetZero? || step.DeletePolicy?
    || step.Fail? || step.Crash?
  }

  lemma LossAtPlain(m: Meter, step: Step)
    requires Shape(m) && InStep(m) && Enabled(m, step) && !Cuts(m, step) && Plain(step)
    ensures SameLoss(m, Next(m, step))
  {
  }

  lemma LossAtRefusal(m: Meter)
    requires Shape(m) && InStep(m) && !m.work.Holding? && !m.work.Settled?
    ensures SameLoss(m, Dropped(m))
  {
  }

  lemma LossAtReset(m: Meter, running: bool)
    requires Shape(m) && InStep(m) && Enabled(m, ResetCore(running))
    ensures SameLoss(m, Next(m, ResetCore(running)))
  {
    var c := if running then Collected(m) else m;
    LossAtCollect(m);
    LossAtMove(c, ResetCore(false));
    assert Next(m, ResetCore(running)) == Next(c, ResetCore(false));
    LossTransitive(m, c, Next(c, ResetCore(false)));
  }

  lemma LossAtDelete(m: Meter, sampled: bool)
    requires Shape(m) && InStep(m) && Enabled(m, DeleteCore(sampled))
    ensures SameLoss(m, Next(m, DeleteCore(sampled)))
  {
    var c := if sampled then Collected(m) else m;
    LossAtCollect(m);
    LossAtMove(c, DeleteCore(false));
    assert Next(m, DeleteCore(sampled)) == Next(c, DeleteCore(false));
    LossTransitive(m, c, Next(c, DeleteCore(false)));
  }

  lemma LossTransitive(m: Meter, c: Meter, t: Meter)
    requires InStep(m) && SameLoss(m, c) && SameLoss(c, t)
    ensures SameLoss(m, t)
  {
  }

  /** Without a policy row the tombstone is in the baseline already. */
  lemma AlreadyCharged(m: Meter)
    requires Shape(m) && InStep(m) && !m.policy && m.work == Quiet
    ensures SameLoss(m, m.(work := TombSettled))
  {
  }

  /**
    What a cut reset lost is lost for good: once the baseline is in step, no sample, charge, reset or
    deletion step that is not cut itself changes how far the samples are ahead of what will be charged.
  */
  lemma LossIsPermanent(m: Meter, step: Step)
    requires Shape(m) && InStep(m) && Enabled(m, step) && !Cuts(m, step)
    ensures SameLoss(m, Next(m, step))
  {
    match step
    case Collect => LossAtCollect(m);
    case ChargeSeen(remote) =>
      if Refuses(m, m.seen.value, remote) { LossAtRefusal(m); } else if m.policy { LossAtCharge(m, m.seen.value); }
    case ResetCore(running) => LossAtReset(m, running);
    case ResetCharge(_) => LossAtResetCharge(m);
    case DeleteCore(sampled) => LossAtDelete(m, sampled);
    case ChargeTomb(remote) =>
      if Refuses(m, m.tomb.value, remote) {
        LossAtRefusal(m);
      } else if m.policy {
        LossAtCharge(m, m.tomb.value);
      } else {
        AlreadyCharged(m);
      }
    case _ => LossAtPlain(m, step);
  }

  /** Bytes arrive, are sampled and charged at once. */
  function UsedAndCharged(m: Meter, bytes: Pair): Meter
    requires m.row.Some? && m.work == Quiet
  {
    ChargeNow(Next(Next(m, Traffic(bytes)), Collect), 0)
  }

  lemma UsedAndChargedTotal(m: Meter, bytes: Pair)
    requires m.row.Some? && m.work == Quiet && m.policy && m.last == m.proc && Numbered(m.account)
    requires !Overflows(Add(m.row.value, bytes), 0)
    ensures var v, r := UsedAndCharged(m, bytes), Add(m.row.value, bytes);
            && v.row == Some(r) && v.sampled == Add(m.sampled, bytes) && v.last == v.proc
            && v.work == Quiet && v.policy && v.account == Charged(m.account, r)
            && Total(v.account.ledger) == Add(Total(m.account.ledger), Delta(m.account.base.last, r))
  {
    var u := Next(Next(m, Traffic(bytes)), Collect);
    assert Delta(m.last, Add(m.proc, bytes)) == bytes;
    assert u.row == Some(Add(m.row.value, bytes));
    ChargeNowTotal(u, 0);
  }

  /**
    Such a cut, from a fresh client: `a` bytes are used and charged, the row is zeroed, the reset is cut, and
    `b` more bytes are used and charged. If `b` is no less than `a`, the ledger has `b` bytes of the `a + b`.
  */
  lemma CutResetLosesBytes(m: Meter, a: nat, b: nat)
    requires Initial(m) && 0 < a <= b <= MAX_INT
    ensures var charged := UsedAndCharged(m, Pair(a, 0));
            var cut := Next(Next(charged, ResetCore(false)), Fail);
            var later := UsedAndCharged(cut, Pair(b, 0));
            && Total(cut.account.ledger) == cut.sampled == Pair(a, 0)
            && later.sampled == Pair(a + b, 0) && Total(later.account.ledger) == Pair(b, 0)
  {
    var charged := UsedAndCharged(m, Pair(a, 0));
    UsedAndChargedTotal(m, Pair(a, 0));
    ChargeAddsGrowth(m.account, Pair(a, 0));
    var cut := Next(Next(charged, ResetCore(false)), Fail);
    UsedAndChargedTotal(cut, Pair(b, 0));
    assert Delta(Pair(a, 0), Pair(b, 0)) == Pair(b - a, 0);
  }

  // ---------------------------------------------------------------- nothing is left uncharged

  predicate Restarts(step: Step) { step.Respawn? || step.Crash? }

  lemma NothingLostStep(m: Meter, step: Step)
    requires Shape(m) && Enabled(m, step) && !Restarts(step) && Next(m, step).row.Some?
    requires Add(m.sampled, Sub(m.proc, m.last)) == m.counted
    ensures m.row.Some?
    ensures var t := Next(m, step); Le(t.last, t.proc) && Add(t.sampled, Sub(t.proc, t.last)) == t.counted
  {
    CollectShape(m);
  }

  /** Until the core restarts, only what a live client's counter has beyond the last sample has not been sampled. */
  lemma {:induction false} NothingLost(states: seq<Meter>, steps: seq<Step>, n: nat)
    requires Run(states, steps) && n < |states| && states[n].row.Some?
    requires forall i :: 0 <= i < n ==> !Restarts(steps[i])
    ensures Le(states[n].last, states[n].proc)
    ensures Add(states[n].sampled, Sub(states[n].proc, states[n].last)) == states[n].counted
    decreases n
  {
    if n > 0 {
      RunInvariant(states, steps, n - 1);
      assert states[n] == Next(states[n - 1], steps[n - 1]);
      NothingLost(states, steps, n - 1);
      NothingLostStep(states[n - 1], steps[n - 1]);
    }
  }

  /**
    Every byte is charged: from any reachable state of a live client, with no reset cut and the core not restarted
    so far, one sample and one charge bring the ledger up to all bytes the core ever counted.
  */
  lemma EverythingCharged(states: seq<Meter>, steps: seq<Step>, n: nat, remote: nat)
    requires Run(states, steps) && n < |states| && states[n].row.Some? && states[n].work == Quiet && !states[n].broken
    requires forall i :: 0 <= i < n ==> !Restarts(steps[i])
    requires var row := Collected(states[n]).row.value; row.up + row.down + remote <= 0x7FFF_FFFF_FFFF_FFFF
    ensures Total(ChargeNow(Next(states[n], Collect), remote).account.ledger) == states[n].counted
  {
    RunInvariant(states, steps, n);
    NothingLost(states, steps, n);
    SampledAll(states[n]);
    CollectKeeps(states[n]);
    CaughtUp(Next(states[n], Collect), remote);
  }

  lemma SampledAll(m: Meter)
    requires Shape(m) && m.row.Some? && Add(m.sampled, Sub(m.proc, m.last)) == m.counted
    ensures Collected(m).sampled == Collected(m).counted
  {
    CollectShape(m);
  }

  /** A charge of what the row holds now leaves no sample uncharged. */
  lemma {:induction false} CaughtUp(u: Meter, remote: nat)
    requires Inv(u) && u.row.Some? && u.work == Quiet && !u.broken
    requires u.row.value.up + u.row.value.down + remote <= 0x7FFF_FFFF_FFFF_FFFF
    ensures Total(ChargeNow(u, remote).account.ledger) == u.sampled
  {
    var base, row := u.account.base.last, u.row.value;
    ChargeNowTotal(u, remote);
    assert Le(base, row) && Add(Total(u.account.ledger), Sub(row, base)) == u.sampled by { assert Exact(u); }
    assert Delta(base, row) == Sub(row, base);
  }

  // ---------------------------------------------------------------- the objects, for all clients

  function SampleOf(last: map<nat, Pair>, e: nat): Pair { if e in last then last[e] else ZERO }

  /** Every reported client's row grows by what its counter grew since the last sample. */
  function CollectedRows(rows: map<nat, Pair>, last: map<nat, Pair>, samples: map<nat, Pair>): map<nat, Pair> {
    map e | e in rows :: if e in samples then Add(rows[e], Delta(SampleOf(last, e), samples[e])) else rows[e]
  }

  /** Rows and sample memory after a query; only a running core that could be read changes them. */
  function AfterSample(rows: map<nat, Pair>, last: map<nat, Pair>, running: bool, samples: Option<map<nat, Pair>>)
    : (map<nat, Pair>, map<nat, Pair>)
  {
    if running && samples.Some? then (CollectedRows(rows, last, samples.value), last + samples.value) else (rows, last)
  }

  /** The engine's tables and memory show client `e` as the meter `m` has it. */
  predicate Shows(m: Meter, e: nat, rows: map<nat, Pair>, tombs: map<nat, Pair>, last: map<nat, Pair>) {
    m.row == Lookup(rows, e) && m.tomb == Lookup(tombs, e) && m.last == SampleOf(last, e)
  }

  /** What the running core reports of `e`; a client it leaves out has not moved since the last sample. */
  predicate Reports(m: Meter, e: nat, samples: map<nat, Pair>) {
    if e in samples then samples[e] == m.proc else m.proc == m.last
  }

  /**
    Sample, reset and deletion of the engine that holds all clients are, for each client, the steps of
    its own meter; the reset hands out exactly what the meter's reset holds.
  */
  lemma EngineFollowsMeter(m: Meter, e: nat, rows: map<nat, Pair>, tombs: map<nat, Pair>, last: map<nat, Pair>,
                           samples: map<nat, Pair>)
    requires Shape(m) && Shows(m, e, rows, tombs, last) && Reports(m, e, samples)
    ensures Shows(m, e, AfterSample(rows, last, true, None).0, tombs, AfterSample(rows, last, true, None).1)
    ensures Shows(m, e, AfterSample(rows, last, false, Some(samples)).0, tombs,
                  AfterSample(rows, last, false, Some(samples)).1)
    ensures var (after, memory) := AfterSample(rows, last, true, Some(samples));
            && Shows(Next(m, Collect), e, after, tombs, memory)
            && (m.row.Some? && m.work == Quiet ==>
                  && Shows(Next(m, ResetCore(true)), e, after[e := ZERO], tombs, memory)
                  && Next(m, ResetCore(true)).work == Holding(after[e])
                  && Shows(Next(m, DeleteCore(true)), e, after - {e}, tombs[e := after[e]], memory)
                  && Shows(Next(m, ResetCore(false)), e, rows[e := ZERO], tombs, last)
                  && Shows(Next(m, DeleteCore(false)), e, rows - {e}, tombs[e := rows[e]], last))
  {
    DeltaZeroIffSame(m.last, m.proc);
    if m.row.Some? { AddNothing(m.row.value); }
  }

  // ---------------------------------------------------------------- the engine over whole runs

  /** What the engine keeps of all clients. */
  datatype Engine = Engine(running: bool, rows: map<nat, Pair>, tombs: map<nat, Pair>, last: map<nat, Pair>)

  /** What can happen to it; an absent sample is a query that cannot be read. */
  datatype Happening =
    | Used(bytes: Pair)
    | Spawned
    | Died
    | Queried(samples: Option<map<nat, Pair>>)
    | ResetOf(client: nat, samples: Option<map<nat, Pair>>)
    | DeleteOf(client: nat, samples: Option<map<nat, Pair>>)
    | Managed(step: Step)
    | Crashed

  function Sampled(g: Engine, samples: Option<map<nat, Pair>>): Engine {
    var (rows, last) := AfterSample(g.rows, g.last, g.running, samples);
    g.(rows := rows, last := last)
  }

  function EngineAfter(g: Engine, h: Happening): Engine {
    match h
    case Used(_) => g
    case Spawned => g.(running := true, last := map[])
    case Died => g.(running := false)
    case Queried(samples) => Sampled(g, samples)
    case ResetOf(c, samples) =>
      var s := Sampled(g, samples);
      if (!g.running || samples.Some?) && c in s.rows then s.(rows := s.rows[c := ZERO]) else s
    case DeleteOf(c, samples) =>
      var s := Sampled(g, samples);
      s.(rows := s.rows - {c}, tombs := if c in s.rows then s.tombs[c := s.rows[c]] else s.tombs)
    case Managed(_) => g
    case Crashed => g.(running := false, last := map[])
  }

  /** A stopped core or an unreadable query leaves rows and sample memory alone, and a reset undone. */
  lemma UnreadableQuery(g: Engine, c: nat, samples: Option<map<nat, Pair>>)
    requires !g.running || samples.None?
    ensures EngineAfter(g, Queried(samples)) == g
    ensures g.running ==> EngineAfter(g, ResetOf(c, samples)) == g
    ensures var d := EngineAfter(g, DeleteOf(c, samples));
            && d.last == g.last && d.rows == g.rows - {c}
            && d.tombs == if c in g.rows then g.tombs[c := g.rows[c]] else g.tombs
  {
  }

  /** The steps of the manager's own transactions, which the engine does not see. */
  predicate OfManager(step: Step) {
    || step.Observe? || step.ChargeSeen? || step.ResetCharge? || step.ResetZero? || step.ChargeTomb?
    || step.DeletePolicy? || step.Fail?
  }

  /** The step of client `e`'s meter, if the happening is one for it. */
  function StepOf(m: Meter, g: Engine, e: nat, h: Happening): Option<Step> {
    match h
    case Used(bytes) => Some(Traffic(bytes))
    case Spawned => Some(Respawn)
    case Died => None
    case Queried(samples) => if g.running && samples.Some? then Some(Collect) else None
    case ResetOf(c, samples) =>
      if g.running && samples.None? then None
      else if c == e && m.row.Some? then Some(ResetCore(g.running))
      else if g.running then Some(Collect)
      else None
    case DeleteOf(c, samples) =>
      if c == e && m.row.Some? then Some(DeleteCore(g.running && samples.Some?))
      else if g.running && samples.Some? then Some(Collect)
      else None
    case Managed(step) => Some(step)
    case Crashed => Some(Crash)
  }

  function MeterAfter(m: Meter, g: Engine, e: nat, h: Happening): Meter
    requires Possible(m, g, e, h)
  {
    var step := StepOf(m, g, e, h);
    if step.Some? then Next(m, step.value) else m
  }

  predicate Truthful(m: Meter, g: Engine, e: nat, samples: Option<map<nat, Pair>>) {
    g.running && samples.Some? ==> Reports(m, e, samples.value)
  }

  /** Only a running core counts, samples tell what it counted, and one reset or deletion of `e` is done at a time. */
  predicate Possible(m: Meter, g: Engine, e: nat, h: Happening) {
    match h
    case Used(_) => g.running
    case Queried(samples) => Truthful(m, g, e, samples)
    case ResetOf(c, samples) => Truthful(m, g, e, samples) && (c == e && m.row.Some? ==> m.work == Quiet)
    case DeleteOf(c, samples) => Truthful(m, g, e, samples) && (c == e && m.row.Some? ==> m.work == Quiet)
    case Managed(step) => OfManager(step) && Enabled(m, step)
    case _ => true
  }

  /** A query, readable or not, is a sample of the client's meter, or nothing. */
  lemma QueryFollows(m: Meter, g: Engine, e: nat, samples: Option<map<nat, Pair>>)
    requires Shape(m) && Shows(m, e, g.rows, g.tombs, g.last) && Truthful(m, g, e, samples)
    ensures var t, b := if g.running && samples.Some? then Next(m, Collect) else m, EngineAfter(g, Queried(samples));
            Shows(t, e, b.rows, b.tombs, b.last)
  {
    if g.running && samples.Some? { EngineFollowsMeter(m, e, g.rows, g.tombs, g.last, samples.value); }
  }

  lemma ResetFollows(m: Meter, g: Engine, e: nat, h: Happening)
    requires Shape(m) && Shows(m, e, g.rows, g.tombs, g.last) && Possible(m, g, e, h) && h.ResetOf?
    ensures var t, b := MeterAfter(m, g, e, h), EngineAfter(g, h); Shows(t, e, b.rows, b.tombs, b.last)
  {
    QueryFollows(m, g, e, h.samples);
    if g.running && h.samples.Some? { EngineFollowsMeter(m, e, g.rows, g.tombs, g.last, h.samples.value); }
  }

  lemma DeleteFollows(m: Meter, g: Engine, e: nat, h: Happening)
    requires Shape(m) && Shows(m, e, g.rows, g.tombs, g.last) && Possible(m, g, e, h) && h.DeleteOf?
    ensures var t, b := MeterAfter(m, g, e, h), EngineAfter(g, h); Shows(t, e, b.rows, b.tombs, b.last)
  {
    QueryFollows(m, g, e, h.samples);
    if g.running && h.samples.Some? { EngineFollowsMeter(m, e, g.rows, g.tombs, g.last, h.samples.value); }
  }

  /** Whatever happens to the engine, for each client it is a step of that client's meter, or nothing. */
  lemma HappeningFollows(m: Meter, g: Engine, e: nat, h: Happening)
    requires Shape(m) && Shows(m, e, g.rows, g.tombs, g.last) && Possible(m, g, e, h)
    ensures var t, b := MeterAfter(m, g, e, h), EngineAfter(g, h); Shows(t, e, b.rows, b.tombs, b.last)
    ensures var step := StepOf(m, g, e, h); step.Some? ==> Enabled(m, step.value)
  {
    match h
    case Queried(samples) => QueryFollows(m, g, e, samples);
    case ResetOf(_, _) => ResetFollows(m, g, e, h);
    case DeleteOf(_, _) => DeleteFollows(m, g, e, h);
    case _ =>
  }

  /** A life of the engine, seen from client `e`. */
  ghost predicate Life(gs: seq<Engine>, ms: seq<Meter>, hs: seq<Happening>, e: nat) {
    && |gs| == |ms| == |hs| + 1
    && Initial(ms[0]) && Shows(ms[0], e, gs[0].rows, gs[0].tombs, gs[0].last)
    && forall i :: 0 <= i < |hs| ==>
         && Possible(ms[i], gs[i], e, hs[i])
         && gs[i + 1] == EngineAfter(gs[i], hs[i]) && ms[i + 1] == MeterAfter(ms[i], gs[i], e, hs[i])
  }

  lemma {:induction false} LifeInvariant(gs: seq<Engine>, ms: seq<Meter>, hs: seq<Happening>, e: nat, n: nat)
    requires Life(gs, ms, hs, e) && n < |ms|
    ensures Inv(ms[n]) && Shows(ms[n], e, gs[n].rows, gs[n].tombs, gs[n].last)
    decreases n
  {
    if n == 0 {
      StartsInvariant(ms[0]);
    } else {
      LifeInvariant(gs, ms, hs, e, n - 1);
      HappeningFollows(ms[n - 1], gs[n - 1], e, hs[n - 1]);
      var step := StepOf(ms[n - 1], gs[n - 1], e, hs[n - 1]);
      if step.Some? { StepKeeps(ms[n - 1], step.value); }
    }
  }

  /**
    Conservation through the engine. Over any sequence of use, readable and unreadable queries, process starts and
    deaths, resets and deletions of any client, charges and crashes, the engine shows each client as its meter has
    it, so that the ledger never exceeds the samples nor the samples the bytes counted, and without a cut reset
    ledger and uncharged part of the engine's own row add up to the samples.
  */
  lemma EngineConserves(gs: seq<Engine>, ms: seq<Meter>, hs: seq<Happening>, e: nat, n: nat)
    requires Life(gs, ms, hs, e) && n < |ms|
    ensures var t := ms[n];
            && t.row == Lookup(gs[n].rows, e) && t.tomb == Lookup(gs[n].tombs, e)
            && Le(Total(t.account.ledger), t.sampled) && Le(t.sampled, t.counted)
            && (!t.broken && t.work == Quiet && e in gs[n].rows ==>
                  && Le(t.account.base.last, gs[n].rows[e])
                  && Add(Total(t.account.ledger), Sub(gs[n].rows[e], t.account.base.last)) == t.sampled)
  {
    LifeInvariant(gs, ms, hs, e, n);
    InvPromises(ms[n]);
  }

  /** A charge of one client is its meter's charge, refused on the same records, and touches no other account. */
  lemma ChargeFollowsMeter(m: Meter, e: nat, f: nat, accounts: map<nat, Account>, r: Pair, remote: nat)
    requires e in accounts && accounts[e] == m.account && m.policy
    ensures Refuses(m, r, remote) <==> Overflows(r, remote)
    ensures accounts[e := Charged(accounts[e], r)][e] == Recharged(m, r).account
    ensures f in accounts && f != e ==> accounts[e := Charged(accounts[e], r)][f] == accounts[f]
  {
  }

  class CoreEngine {
    var running: bool
    var rows: map<nat, Pair>
    var tombs: map<nat, Pair>
    var lastSamples: map<nat, Pair>

    constructor ()
      ensures !running && rows == map[] && tombs == map[] && lastSamples == map[]
    {
      running, rows, tombs, lastSamples := false, map[], map[], map[];
    }

    function Value(): Engine
      reads this
    {
      Engine(running, rows, tombs, lastSamples)
    }

    /** A new process counts from zero, so the memory of the old one is dropped. */
    method Spawn()
      modifies this`running, this`lastSamples
      ensures running && lastSamples == map[]
      ensures Value() == EngineAfter(old(Value()), Spawned)
    {
      lastSamples := map[];
      running := true;
    }

    /** One transaction over all reported clients; a query that cannot be read changes nothing. */
    method CollectStats(samples: Option<map<nat, Pair>>, strict: bool) returns (ok: bool)
      modifies this`rows, this`lastSamples
      ensures ok <==> !old(running) || samples.Some? || !strict
      ensures Value() == EngineAfter(old(Value()), Queried(samples))
      ensures !running || samples.None? ==> rows == old(rows) && lastSamples == old(lastSamples)
      ensures running && samples.Some? ==>
                && rows.Keys == old(rows).Keys && lastSamples == old(lastSamples) + samples.value
                && forall e :: e in rows ==>
                     rows[e] == if e in samples.value
                                then Add(old(rows)[e], Delta(SampleOf(old(lastSamples), e), samples.value[e]))
                                else old(rows)[e]
    {
      if !running { return true; }
      if samples.None? { return !strict; }
      var table, todo := rows, samples.value.Keys;
      while todo != {}
        invariant todo <= samples.value.Keys && table.Keys == rows.Keys
        invariant forall e :: e in rows ==>
                    table[e] == if e in samples.value && e !in todo
                                then Add(rows[e], Delta(SampleOf(lastSamples, e), samples.value[e])) else rows[e]
        decreases todo
      {
        var e :| e in todo;
        if e in table { table := table[e := Add(table[e], Delta(SampleOf(lastSamples, e), samples.value[e]))]; }
        todo := todo - {e};
      }
      assert table == CollectedRows(rows, lastSamples, samples.value);
      rows := table;
      lastSamples := lastSamples + samples.value;
      ok := true;
    }

    /** Zeroes the row and hands out what it held; the memory of the process counters stays. */
    method Reset(e: nat, samples: Option<map<nat, Pair>>) returns (final: Option<Pair>, ok: bool)
      modifies this`rows, this`lastSamples
      ensures ok <==> !old(running) || samples.Some?
      ensures Value() == EngineAfter(old(Value()), ResetOf(e, samples))
      ensures ok ==> final == Lookup(EngineAfter(old(Value()), Queried(samples)).rows, e)
      ensures !ok ==> final.None?
      ensures !running || samples.None? ==>
                && lastSamples == old(lastSamples)
                && rows == if !running && e in old(rows) then old(rows)[e := ZERO] else old(rows)
    {
      final := None;
      ok := CollectStats(samples, running);
      if !ok { return; }
      final := Lookup(rows, e);
      if e in rows { rows := rows[e := ZERO]; }
    }

    /** Moves the row to its tombstone in one transaction; a failing sample does not stop it. */
    method Delete(e: nat, samples: Option<map<nat, Pair>>) returns (final: Option<Pair>)
      modifies this`rows, this`tombs, this`lastSamples
      ensures Value() == EngineAfter(old(Value()), DeleteOf(e, samples))
      ensures final == Lookup(EngineAfter(old(Value()), Queried(samples)).rows, e)
      ensures !running || samples.None? ==>
                && lastSamples == old(lastSamples) && rows == old(rows) - {e}
                && tombs == if e in old(rows) then old(tombs)[e := old(rows)[e]] else old(tombs)
    {
      var _ := CollectStats(samples, false);
      final := Lookup(rows, e);
      if e in rows { tombs := tombs[e := rows[e]]; }
      rows := rows - {e};
    }
  }

  class Manager {
    var policies: set<nat>
    var accounts: map<nat, Account>

    constructor (policies: set<nat>)
      ensures this.policies == policies && accounts.Keys == policies
      ensures forall e :: e in policies ==> accounts[e] == Account(Baseline(ZERO, false, 0), [])
    {
      this.policies := policies;
      accounts := map e | e in policies :: Account(Baseline(ZERO, false, 0), []);
    }

    /** `_charge_snapshot`: nothing for a client without policy, refused on overflow, otherwise one transaction. */
    method ChargeSnapshot(e: nat, r: Pair, remote: nat) returns (ok: bool)
      requires e in accounts
      modifies this`accounts
      ensures ok <==> r.up + r.down + (if e in policies then remote else 0) <= 0x7FFF_FFFF_FFFF_FFFF
      ensures accounts
              == if ok && e in policies then old(accounts)[e := Charged(old(accounts)[e], r)] else old(accounts)
    {
      if r.up + r.down > MAX_INT { return false; }
      var base := accounts[e].base;
      var du := if r.up >= base.last.up then r.up - base.last.up else r.up;
      var dd := if r.down >= base.last.down then r.down - base.last.down else r.down;
      if e !in policies { return true; }
      if r.up + r.down + remote > MAX_INT { return false; }
      var changed := r != base.last || !base.initialized;
      if !(du > 0 || dd > 0 || changed) {
        assert Charged(accounts[e], r) == accounts[e];
        assert accounts == accounts[e := accounts[e]];
        return true;
      }
      var next := accounts[e];
      var seq_ := base.seq_ + 1;
      if du > 0 || dd > 0 { next := next.(ledger := next.ledger + [Entry(seq_, Pair(du, dd))]); }
      if changed { next := next.(base := Baseline(r, true, seq_)); }
      accounts := accounts[e := next];
      ok := true;
    }
  }
}
