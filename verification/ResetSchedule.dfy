/**
  The traffic reset schedule of `Manager`: deadlines of interval resets on a fixed grid, and
  the monthly deadline with its day clamped to the month, in UTC. Times are whole seconds since
  the epoch.
*/
module ResetSchedule {
  import opened Wrappers

  datatype Mode = Hourly | Daily | Weekly | Interval | Monthly
  datatype Spec = Spec(mode: Mode, days: nat, day: int)

  const DAY := 86400

  function PeriodSeconds(spec: Spec): nat {
    match spec.mode
    case Hourly => 3600
    case Daily => DAY
    case Weekly => 604800
    case Interval => spec.days * DAY
    case Monthly => 0
  }

  // ---------------------------------------------------------------- interval resets

  function NextInterval(deadline: int, now: int, period: nat): int
    requires period > 0
  {
    deadline + ((now - deadline) / period + 1) * period
  }

  lemma DivisionBounds(x: int, period: nat)
    requires period > 0
    ensures x / period * period <= x < (x / period + 1) * period
  {
  }

  lemma ProductOrder(a: int, b: int, period: nat)
    requires a < b
    ensures (a + 1) * period <= b * period
  {
    assert (b - a - 1) * period >= 0;
    assert b * period == (b - a - 1) * period + (a + 1) * period;
  }

  lemma QuotientUnique(x: int, period: nat, q: int)
    requires period > 0 && q * period <= x < (q + 1) * period
    ensures x / period == q
  {
    DivisionBounds(x, period);
    if x / period < q {
      ProductOrder(x / period, q, period);
    }
    if q < x / period {
      ProductOrder(q, x / period, period);
    }
  }

  /** The next deadline is the one point of the original grid after now and within a period of it. */
  lemma NextIntervalIsUnique(deadline: int, now: int, period: nat, k: int)
    requires period > 0
    ensures now < NextInterval(deadline, now, period) <= now + period
    ensures now < deadline + k * period <= now + period <==>
            deadline + k * period == NextInterval(deadline, now, period)
  {
    DivisionBounds(now - deadline, period);
    var q := (now - deadline) / period;
    assert (q + 1) * period == q * period + period;
    if now < deadline + k * period <= now + period {
      assert (k - 1) * period == k * period - period;
      QuotientUnique(now - deadline, period, k - 1);
    }
  }

  /** Which period of the grid through `origin` a time lies in. */
  function GridPeriod(origin: int, t: int, period: nat): int
    requires period > 0
  {
    (t - origin) / period
  }

  lemma {:induction false} QuotientMonotone(x: int, y: int, period: nat)
    requires period > 0 && x <= y
    ensures x / period <= y / period
  {
    DivisionBounds(x, period);
    DivisionBounds(y, period);
    if y / period < x / period {
      ProductOrder(y / period, x / period, period);
    }
  }

  /** A completed reset moves the deadline to the grid point that opens the period after the one of `done`. */
  lemma NextOpensPeriod(origin: int, deadline: int, g: int, done: int, period: nat)
    requires period > 0 && deadline == origin + g * period && deadline <= done
    ensures GridPeriod(origin, done, period) >= g
    ensures NextInterval(deadline, done, period) == origin + (GridPeriod(origin, done, period) + 1) * period
  {
    var q := (done - deadline) / period;
    DivisionBounds(done - deadline, period);
    assert (g + q) * period == g * period + q * period && (g + q + 1) * period == (g + q) * period + period;
    QuotientUnique(done - origin, period, g + q);
    assert (q + 1) * period == q * period + period;
  }

  lemma InLaterPeriod(origin: int, g: int, t: int, period: nat)
    requires period > 0 && origin + g * period <= t
    ensures GridPeriod(origin, t, period) >= g
  {
    MultipleRemainder(g, period);
    QuotientMonotone(g * period, t - origin, period);
    QuotientUnique(g * period, period, g);
  }

  lemma MultipleRemainder(k: int, period: nat)
    requires period > 0
    ensures k * period % period == 0 && k * period < (k + 1) * period
  {
    assert (k + 1) * period == k * period + period;
    QuotientUnique(k * period, period, k);
  }

  // ---------------------------------------------------------------- the calendar

  const EPOCH := 1970 * 12

  predicate IsLeap(year: int) { year % 4 == 0 && (year % 100 != 0 || year % 400 == 0) }

  /** Days in month `m`, counted as twelve times the year plus a month number from zero. */
  function MonthLength(m: int): (days: int)
    ensures 28 <= days <= 31
  {
    var k := m % 12;
    if k == 1 then (if IsLeap(m / 12) then 29 else 28)
    else if k == 3 || k == 5 || k == 8 || k == 10 then 30
    else 31
  }

  /** The months of every year, from January. */
  lemma MonthsOfYear(y: int, k: int)
    requires 0 <= k < 12
    ensures MonthLength(y * 12 + k)
            == [31, if y % 4 == 0 && (y % 100 != 0 || y % 400 == 0) then 29 else 28,
                31, 30, 31, 30, 31, 31, 30, 31, 30, 31][k]
  {
    MonthOfYear(y, k);
  }

  /** Midnight of the first day of month `m`. */
  function MonthStart(m: int): int
    requires m >= EPOCH
    decreases m
  {
    if m == EPOCH then 0 else MonthStart(m - 1) + MonthLength(m - 1) * DAY
  }

  lemma MonthStep(m: int)
    requires m >= EPOCH
    ensures MonthStart(m + 1) == MonthStart(m) + MonthLength(m) * DAY
  {
  }

  lemma {:induction false} MonthStartIncreases(a: int, b: int)
    requires EPOCH <= a <= b
    ensures MonthStart(a) <= MonthStart(b)
    decreases b - a
  {
    if a < b {
      MonthStep(b - 1);
      MonthStartIncreases(a, b - 1);
    }
  }

  lemma MonthOfYear(y: int, k: int)
    requires 0 <= k < 12
    ensures (y * 12 + k) % 12 == k && (y * 12 + k) / 12 == y
  {
  }

  lemma HalfYear(y: int)
    requires y >= 1970
    ensures MonthStart(y * 12 + 6) == MonthStart(y * 12) + DAY * (if IsLeap(y) then 182 else 181)
  {
    var m := y * 12;
    MonthOfYear(y, 0); MonthOfYear(y, 1); MonthOfYear(y, 2); MonthOfYear(y, 3); MonthOfYear(y, 4); MonthOfYear(y, 5);
    MonthStep(m); MonthStep(m + 1); MonthStep(m + 2); MonthStep(m + 3); MonthStep(m + 4); MonthStep(m + 5);
  }

  lemma YearLength(y: int)
    requires y >= 1970
    ensures MonthStart(y * 12 + 12) == MonthStart(y * 12) + DAY * (if IsLeap(y) then 366 else 365)
  {
    var m := y * 12;
    HalfYear(y);
    MonthOfYear(y, 6); MonthOfYear(y, 7); MonthOfYear(y, 8); MonthOfYear(y, 9); MonthOfYear(y, 10); MonthOfYear(y, 11);
    MonthStep(m + 6); MonthStep(m + 7); MonthStep(m + 8); MonthStep(m + 9); MonthStep(m + 10); MonthStep(m + 11);
  }

  /** Leap days before a year. */
  function LeapDays(year: int): int { (year - 1) / 4 - (year - 1) / 100 + (year - 1) / 400 }

  lemma FourStep(y: int)
    ensures y / 4 - (y - 1) / 4 == if y % 4 == 0 then 1 else 0
  {
  }

  lemma HundredStep(y: int)
    ensures y / 100 - (y - 1) / 100 == if y % 100 == 0 then 1 else 0
  {
  }

  lemma FourHundredStep(y: int)
    ensures y / 400 - (y - 1) / 400 == if y % 400 == 0 then 1 else 0
  {
    var q, r := (y - 1) / 400, (y - 1) % 400;
    assert y == 400 * q + (r + 1) && 0 <= r < 400;
    if r == 399 {
      assert y == 400 * (q + 1);
    }
  }

  lemma CenturiesAreFourths(y: int)
    ensures y % 100 == 0 ==> y % 4 == 0
  {
    if y % 100 == 0 { assert y == 4 * (25 * (y / 100)); }
  }

  lemma FourCenturiesAreCenturies(y: int)
    ensures y % 400 == 0 ==> y % 100 == 0
  {
    if y % 400 == 0 { assert y == 100 * (4 * (y / 400)); }
  }

  lemma LeapDayStep(y: int)
    ensures LeapDays(y + 1) == LeapDays(y) + (if IsLeap(y) then 1 else 0)
  {
    FourStep(y);
    HundredStep(y);
    FourHundredStep(y);
    CenturiesAreFourths(y);
    FourCenturiesAreCenturies(y);
  }

  /** The month table agrees with the Gregorian day count of the start of every year. */
  lemma {:induction false} YearStartIsGregorian(year: int)
    requires year >= 1970
    ensures MonthStart(year * 12) == DAY * (365 * (year - 1970) + LeapDays(year) - LeapDays(1970))
    decreases year
  {
    if year > 1970 {
      var y := year - 1;
      YearStartIsGregorian(y);
      YearLength(y);
      LeapDayStep(y);
      assert year * 12 == y * 12 + 12;
    }
  }

  function MonthFrom(m: int, now: int): (r: int)
    requires m >= EPOCH && MonthStart(m) <= now
    ensures r >= m && MonthStart(r) <= now < MonthStart(r + 1)
    decreases now - MonthStart(m)
  {
    MonthStep(m);
    if now < MonthStart(m + 1) then m else MonthFrom(m + 1, now)
  }

  /** The calendar month `now` lies in. */
  function MonthOf(now: nat): (r: int)
    ensures r >= EPOCH && MonthStart(r) <= now < MonthStart(r + 1)
  {
    MonthFrom(EPOCH, now)
  }

  // ---------------------------------------------------------------- monthly resets

  function ClampedDay(m: int, day: int): (d: int)
    ensures 1 <= d <= MonthLength(m)
  {
    var wanted := if day < 1 then 1 else day;
    if wanted < MonthLength(m) then wanted else MonthLength(m)
  }

  /** Midnight of the reset day of month `m`. */
  function Candidate(m: int, day: int): int
    requires m >= EPOCH
  {
    MonthStart(m) + (ClampedDay(m, day) - 1) * DAY
  }

  lemma CandidateInMonth(m: int, day: int)
    requires m >= EPOCH
    ensures MonthStart(m) <= Candidate(m, day) < MonthStart(m + 1)
  {
    MonthStep(m);
  }

  /** Midnight of the wanted day, or of the nearest day the month has. */
  lemma ResetDay(m: int, day: int)
    requires m >= EPOCH
    ensures day < 1 ==> Candidate(m, day) == MonthStart(m)
    ensures 1 <= day <= MonthLength(m) ==> Candidate(m, day) == MonthStart(m) + (day - 1) * 86400
    ensures day > MonthLength(m) ==> Candidate(m, day) == MonthStart(m) + (MonthLength(m) - 1) * 86400
  {
  }

  function MonthlyNext(day: int, now: nat): int {
    var m := MonthOf(now);
    if Candidate(m, day) > now then Candidate(m, day) else Candidate(m + 1, day)
  }

  lemma CandidatesRise(m: int, n: int, day: int)
    requires EPOCH <= m < n
    ensures Candidate(m, day) < Candidate(n, day)
  {
    CandidateInMonth(m, day);
    CandidateInMonth(n, day);
    MonthStartIncreases(m + 1, n);
  }

  /** The monthly deadline is the earliest clamped-day midnight after now. */
  lemma MonthlyNextIsEarliest(day: int, now: nat, m: int)
    requires m >= EPOCH
    ensures MonthlyNext(day, now) > now
    ensures Candidate(m, day) > now ==> MonthlyNext(day, now) <= Candidate(m, day)
    ensures exists k :: k >= EPOCH && MonthlyNext(day, now) == Candidate(k, day)
  {
    var current := MonthOf(now);
    CandidateInMonth(current + 1, day);
    if m < current {
      CandidateInMonth(m, day);
      MonthStartIncreases(m + 1, current);
    } else if m > current {
      CandidatesRise(current, m, day);
      if m > current + 1 { CandidatesRise(current + 1, m, day); }
    }
  }

  /**
    The search of at most fourteen months: it returns the deadline in the first or the second
    round, so the failure after the loop is never reached.
  */
  method MonthlyNextAt(day: int, now: nat) returns (at: Option<int>, rounds: nat)
    ensures at == Some(MonthlyNext(day, now))
    ensures 1 <= rounds <= 2
  {
    ghost var current := MonthOf(now);
    var year, month := MonthOf(now) / 12, MonthOf(now) % 12 + 1;
    rounds := 0;
    CandidateInMonth(current + 1, day);
    while rounds < 14
      invariant 1 <= month <= 12 && year * 12 + month - 1 == current + rounds && rounds <= 1
      invariant rounds == 1 ==> Candidate(current, day) <= now
    {
      rounds := rounds + 1;
      var candidate := Candidate(year * 12 + month - 1, day);
      if candidate > now { return Some(candidate), rounds; }
      month := month + 1;
      if month > 12 { month, year := 1, year + 1; }
    }
    at := None;
  }

  // ---------------------------------------------------------------- the cycle table

  datatype Cycle = Cycle(spec: Spec, nextAt: int, completed: nat, cap: nat)
  datatype Client = Client(wanted: Option<Spec>, cap: nat, idle: bool)

  predicate Schedulable(spec: Spec) { spec.mode.Monthly? || PeriodSeconds(spec) > 0 }

  function InitialAt(spec: Spec, now: nat): int {
    if spec.mode.Monthly? then MonthlyNext(spec.day, now) else now + PeriodSeconds(spec)
  }

  predicate Fresh(row: Option<Cycle>, c: Client) {
    c.wanted.Some? && (row.None? || row.value.spec != c.wanted.value)
  }

  /** The row of one client after a scheduling pass. */
  function Rescheduled(row: Option<Cycle>, c: Client, now: nat): Option<Cycle> {
    if c.wanted.None? then None
    else if Fresh(row, c) then Some(Cycle(c.wanted.value, InitialAt(c.wanted.value, now), 0, c.cap))
    else Some(row.value.(cap := c.cap))
  }

  /** A pass asks for a reset exactly of an idle client whose kept deadline has passed below its cap. */
  predicate Due(row: Option<Cycle>, c: Client, now: nat) {
    && c.wanted.Some? && !Fresh(row, c) && c.idle
    && row.value.nextAt <= now && (c.cap == 0 || row.value.completed < c.cap)
  }

  /** A completed reset moves a passed deadline on, and leaves one that has not passed alone. */
  function Completed(c: Cycle, now: nat): Cycle
    requires Schedulable(c.spec)
  {
    if c.nextAt > now then c
    else
      var next := if c.spec.mode.Monthly? then MonthlyNext(c.spec.day, now)
                  else NextInterval(c.nextAt, now, PeriodSeconds(c.spec));
      c.(nextAt := next, completed := c.completed + 1)
  }

  /** What one pass does to one client: what becomes of its row, and whether a reset is asked for. */
  lemma PassExactly(row: Option<Cycle>, c: Client, now: nat)
    ensures c.wanted.None? ==> Rescheduled(row, c, now) == None
    ensures c.wanted.Some? && (row.None? || row.value.spec != c.wanted.value) ==>
              && Rescheduled(row, c, now).Some?
              && var r := Rescheduled(row, c, now).value;
                 && r.spec == c.wanted.value && r.completed == 0 && r.cap == c.cap
                 && (r.spec.mode.Hourly? ==> r.nextAt == now + 3600)
                 && (r.spec.mode.Daily? ==> r.nextAt == now + 86400)
                 && (r.spec.mode.Weekly? ==> r.nextAt == now + 604800)
                 && (r.spec.mode.Interval? ==> r.nextAt == now + r.spec.days * 86400)
                 && (r.spec.mode.Monthly? ==> r.nextAt == MonthlyNext(r.spec.day, now))
    ensures row.Some? && c.wanted == Some(row.value.spec) ==>
              Rescheduled(row, c, now) == Some(Cycle(row.value.spec, row.value.nextAt, row.value.completed, c.cap))
    ensures Due(row, c, now) <==>
              && row.Some? && c.wanted == Some(row.value.spec) && c.idle && row.value.nextAt <= now
              && (c.cap == 0 || row.value.completed < c.cap)
    ensures c.wanted.Some? ==>
              (Schedulable(c.wanted.value) <==> !(c.wanted.value.mode.Interval? && c.wanted.value.days == 0))
  {
  }

  /**
    After completion the deadline lies in the future, on the same grid and at most one period away,
    so the same period cannot ask again.
  */
  lemma CompletedIsNotDue(c: Cycle, client: Client, now: nat)
    requires Schedulable(c.spec) && c.nextAt <= now
    ensures Completed(c, now).nextAt > now
    ensures Completed(c, now) == Cycle(c.spec, Completed(c, now).nextAt, c.completed + 1, c.cap)
    ensures c.spec.mode.Monthly? ==> Completed(c, now).nextAt == MonthlyNext(c.spec.day, now)
    ensures !Due(Some(Completed(c, now)), client, now)
    ensures !c.spec.mode.Monthly? ==>
              && Completed(c, now).nextAt <= now + PeriodSeconds(c.spec)
              && (Completed(c, now).nextAt - c.nextAt) % PeriodSeconds(c.spec) == 0
  {
    if c.spec.mode.Monthly? {
      MonthlyNextIsEarliest(c.spec.day, now, EPOCH);
    } else {
      OnGrid(c.nextAt, now, PeriodSeconds(c.spec));
    }
  }

  lemma OnGrid(deadline: int, now: int, period: nat)
    requires period > 0
    ensures now < NextInterval(deadline, now, period) <= now + period
    ensures (NextInterval(deadline, now, period) - deadline) % period == 0
  {
    NextIntervalIsUnique(deadline, now, period, 0);
    var k := (now - deadline) / period + 1;
    assert NextInterval(deadline, now, period) - deadline == k * period;
    MultipleRemainder(k, period);
  }

  // ---------------------------------------------------------------- the resets of one client

  /** One scheduling pass over the client as it is then, and when a reset asked for by it completed. */
  datatype Visit = Visit(at: nat, done: nat, client: Client)

  /** The wanted schedule stays the one of the row; a reset completes no earlier than it was asked for. */
  predicate Kept(visits: seq<Visit>, spec: Spec) {
    forall v :: v in visits ==> v.at <= v.done && v.client.wanted == Some(spec)
  }

  /** The visits whose pass asks for a reset, each completed before the next pass that finds the client idle. */
  function Fired(row: Cycle, visits: seq<Visit>): seq<Visit>
    requires Schedulable(row.spec) && Kept(visits, row.spec)
    decreases |visits|
  {
    if visits == [] then []
    else
      var v := visits[0];
      var kept := Rescheduled(Some(row), v.client, v.at).value;
      if Due(Some(row), v.client, v.at) then [v] + Fired(Completed(kept, v.done), visits[1..])
      else Fired(kept, visits[1..])
  }

  /** A pass that finds the client idle after its deadline, with no cap, asks for a reset, unless one before it did. */
  lemma {:induction false} PassedDeadlineFires(row: Cycle, visits: seq<Visit>, k: nat)
    requires Schedulable(row.spec) && Kept(visits, row.spec) && k < |visits|
    requires row.nextAt <= visits[k].at && visits[k].client.idle && visits[k].client.cap == 0
    ensures Fired(row, visits) != [] && exists i :: 0 <= i <= k && Fired(row, visits)[0] == visits[i]
    decreases k
  {
    var v := visits[0];
    PassExactly(Some(row), v.client, v.at);
    if !Due(Some(row), v.client, v.at) {
      assert v.client.wanted == Some(row.spec);
      var kept := Rescheduled(Some(row), v.client, v.at).value;
      assert visits[1..][k - 1] == visits[k];
      PassedDeadlineFires(kept, visits[1..], k - 1);
      var i :| 0 <= i <= k - 1 && Fired(kept, visits[1..])[0] == visits[1..][i];
      assert visits[1..][i] == visits[i + 1];
    } else {
      assert Fired(row, visits)[0] == visits[0];
    }
  }

  /** All from period `g` on, and no two in the same period. */
  predicate OnePerPeriod(fired: seq<Visit>, origin: int, g: int, period: nat)
    requires period > 0
  {
    && (forall i :: 0 <= i < |fired| ==> GridPeriod(origin, fired[i].at, period) >= g)
    && (forall i, j :: 0 <= i < j < |fired| ==>
        GridPeriod(origin, fired[i].done, period) < GridPeriod(origin, fired[j].at, period))
  }

  lemma OneMore(v: Visit, later: seq<Visit>, origin: int, g: int, h: int, period: nat)
    requires period > 0 && OnePerPeriod(later, origin, h, period) && g <= h
    requires g <= GridPeriod(origin, v.at, period) && GridPeriod(origin, v.done, period) < h
    ensures OnePerPeriod([v] + later, origin, g, period)
  {
    var fired := [v] + later;
    forall i | 0 <= i < |fired| ensures GridPeriod(origin, fired[i].at, period) >= g {
      if i > 0 { assert fired[i] == later[i - 1]; }
    }
    forall i, j | 0 <= i < j < |fired|
      ensures GridPeriod(origin, fired[i].done, period) < GridPeriod(origin, fired[j].at, period)
    {
      assert fired[j] == later[j - 1];
      if i > 0 { assert fired[i] == later[i - 1]; }
    }
  }

  /**
    However late and however often an interval schedule is looked at, however long a reset takes, and
    whatever the cap does, no two automatic resets fall into the same period of the original grid, so
    periods that were missed collapse into one reset.
  */
  lemma {:induction false} OneResetPerPeriod(origin: int, row: Cycle, g: int, visits: seq<Visit>)
    requires Schedulable(row.spec) && !row.spec.mode.Monthly? && Kept(visits, row.spec)
    requires row.nextAt == origin + g * PeriodSeconds(row.spec)
    ensures OnePerPeriod(Fired(row, visits), origin, g, PeriodSeconds(row.spec))
    decreases |visits|
  {
    if visits != [] {
      var v, rest, period := visits[0], visits[1..], PeriodSeconds(row.spec);
      var kept := Rescheduled(Some(row), v.client, v.at).value;
      if Due(Some(row), v.client, v.at) {
        InLaterPeriod(origin, g, v.at, period);
        NextOpensPeriod(origin, row.nextAt, g, v.done, period);
        var h := GridPeriod(origin, v.done, period) + 1;
        OneResetPerPeriod(origin, Completed(kept, v.done), h, rest);
        OneMore(v, Fired(Completed(kept, v.done), rest), origin, g, h, period);
      } else {
        OneResetPerPeriod(origin, kept, g, rest);
      }
    }
  }

  /** All from `from` on, and each only after the reset day that follows the one before. */
  predicate OnePerMonth(fired: seq<Visit>, day: int, from: int) {
    && (forall i :: 0 <= i < |fired| ==> from <= fired[i].at)
    && (forall i, j :: 0 <= i < j < |fired| ==> MonthlyNext(day, fired[i].done) <= fired[j].at)
  }

  lemma OneMoreMonth(v: Visit, later: seq<Visit>, day: int, from: int)
    requires OnePerMonth(later, day, MonthlyNext(day, v.done)) && from <= v.at <= MonthlyNext(day, v.done)
    ensures OnePerMonth([v] + later, day, from)
  {
    var fired := [v] + later;
    forall i | 0 <= i < |fired| ensures from <= fired[i].at {
      if i > 0 { assert fired[i] == later[i - 1]; }
    }
    forall i, j | 0 <= i < j < |fired| ensures MonthlyNext(day, fired[i].done) <= fired[j].at {
      assert fired[j] == later[j - 1];
      if i > 0 { assert fired[i] == later[i - 1]; }
    }
  }

  /** A monthly client is reset at most once between two reset days. */
  lemma {:induction false} OneResetPerMonth(row: Cycle, visits: seq<Visit>)
    requires row.spec.mode.Monthly? && Kept(visits, row.spec)
    ensures OnePerMonth(Fired(row, visits), row.spec.day, row.nextAt)
    decreases |visits|
  {
    if visits != [] {
      var v, rest := visits[0], visits[1..];
      var kept := Rescheduled(Some(row), v.client, v.at).value;
      if Due(Some(row), v.client, v.at) {
        MonthlyNextIsEarliest(row.spec.day, v.done, EPOCH);
        OneResetPerMonth(Completed(kept, v.done), rest);
        OneMoreMonth(v, Fired(Completed(kept, v.done), rest), row.spec.day, row.nextAt);
      } else {
        OneResetPerMonth(kept, rest);
      }
    }
  }

  /** Under a fixed cap no more resets are asked for than it leaves. */
  lemma {:induction false} CapRespected(row: Cycle, visits: seq<Visit>, cap: nat)
    requires Schedulable(row.spec) && Kept(visits, row.spec) && row.completed <= cap && cap > 0
    requires forall v :: v in visits ==> v.client.cap == cap
    ensures |Fired(row, visits)| <= cap - row.completed
    decreases |visits|
  {
    if visits != [] {
      var v := visits[0];
      var kept := Rescheduled(Some(row), v.client, v.at).value;
      CapRespected(if Due(Some(row), v.client, v.at) then Completed(kept, v.done) else kept, visits[1..], cap);
    }
  }

  class Scheduler {
    var clients: map<nat, Client>
    var cycles: map<nat, Cycle>
    /** Clients for which a reset operation has been written. */
    var asked: set<nat>

    constructor (clients: map<nat, Client>)
      ensures this.clients == clients && cycles == map[] && asked == {}
    {
      this.clients, cycles, asked := clients, map[], {};
    }

    /** One transaction over all clients: an impossible schedule rolls the whole pass back. */
    method ScheduleCycles(now: nat) returns (ok: bool)
      modifies this`cycles, this`asked
      ensures ok <==> forall e :: e in clients && Fresh(Lookup(old(cycles), e), clients[e]) ==>
              Schedulable(clients[e].wanted.value)
      ensures !ok ==> cycles == old(cycles) && asked == old(asked)
      ensures ok ==> forall e :: e in clients ==>
              Lookup(cycles, e) == Rescheduled(Lookup(old(cycles), e), clients[e], now)
      ensures ok ==> forall e :: e !in clients ==> Lookup(cycles, e) == Lookup(old(cycles), e)
      ensures ok ==> asked == old(asked) + set e | e in clients && Due(Lookup(old(cycles), e), clients[e], now)
    {
      var rows, marks := cycles, asked;
      var todo := clients.Keys;
      while todo != {}
        invariant todo <= clients.Keys
        invariant forall e :: e in clients && e !in todo ==>
                  Lookup(rows, e) == Rescheduled(Lookup(cycles, e), clients[e], now)
        invariant forall e :: e !in clients || e in todo ==> Lookup(rows, e) == Lookup(cycles, e)
        invariant forall e :: e in clients.Keys - todo && Fresh(Lookup(cycles, e), clients[e]) ==>
                  Schedulable(clients[e].wanted.value)
        invariant marks == asked + set e | e in clients.Keys - todo && Due(Lookup(cycles, e), clients[e], now)
        decreases todo
      {
        var e :| e in todo;
        var c, row := clients[e], Lookup(rows, e);
        if c.wanted.None? {
          rows := rows - {e};
        } else if Fresh(row, c) {
          if !Schedulable(c.wanted.value) { return false; }
          rows := rows[e := Cycle(c.wanted.value, InitialAt(c.wanted.value, now), 0, c.cap)];
        } else {
          rows := rows[e := row.value.(cap := c.cap)];
          if !(c.cap > 0 && row.value.completed >= c.cap) && row.value.nextAt <= now && c.idle {
            marks := marks + {e};
          }
        }
        todo := todo - {e};
      }
      cycles, asked := rows, marks;
      ok := true;
    }

    method CompleteCycle(e: nat, now: nat) returns (ok: bool)
      modifies this`cycles
      ensures ok <==> e !in old(cycles) || old(cycles)[e].nextAt > now || Schedulable(old(cycles)[e].spec)
      ensures cycles == if ok && e in old(cycles) && old(cycles)[e].nextAt <= now
                        then old(cycles)[e := Completed(old(cycles)[e], now)] else old(cycles)
    {
      if e !in cycles || cycles[e].nextAt > now { return true; }
      var row := cycles[e];
      var next;
      if row.spec.mode.Monthly? {
        var at, _ := MonthlyNextAt(row.spec.day, now);
        next := at.value;
      } else {
        var period := PeriodSeconds(row.spec);
        if period <= 0 { return false; }
        next := row.nextAt + ((now - row.nextAt) / period + 1) * period;
      }
      cycles := cycles[e := row.(nextAt := next, completed := row.completed + 1)];
      ok := true;
    }
  }
}
