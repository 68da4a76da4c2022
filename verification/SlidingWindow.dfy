/**
  `Guard.observe`: a limiter on the number of distinct source addresses a client uses within a
  sliding time window. Verified direct sources on a single node; addresses are normalized
  values with the text order the query sorts by.
*/
module SlidingWindow {
  import opened Wrappers

  type IP = nat
  datatype Who = Who(client: nat, ip: IP)
  datatype Row = Row(first: int, last: int, granted: bool)
  datatype Jailed = Jailed(jail: nat, ip: IP)

  const RETENTION := 86400

  /** One observation: the client's jail and current limit, and what the ban executor would do. */
  datatype Event = Event(client: nat, ip: IP, now: int, limit: nat, jail: nat, ban: Option<nat>)

  datatype Decision = Banned | Allow | Violation

  datatype Grant = Grant(client: nat, ip: IP, at: int)

  /** The tables, plus the allow decisions made so far. */
  datatype State = State(rows: map<Who, Row>, bans: map<Jailed, int>, allowed: seq<Grant>)

  // ---------------------------------------------------------------- the query

  function Leases(rows: map<Who, Row>, client: nat, now: int, window: nat): set<IP> {
    set w | w in rows && w.client == client && rows[w].granted && rows[w].last > now - window :: w.ip
  }

  predicate Older(rows: map<Who, Row>, client: nat, a: IP, b: IP) {
    Who(client, a) in rows && Who(client, b) in rows &&
    (rows[Who(client, a)].first < rows[Who(client, b)].first
     || (rows[Who(client, a)].first == rows[Who(client, b)].first && a < b))
  }

  /** The leases that precede `ip` in the order "first seen, then address". */
  function Ahead(rows: map<Who, Row>, client: nat, leases: set<IP>, ip: IP): set<IP> {
    set y | y in leases && Older(rows, client, y, ip)
  }

  /** The first `limit` leases in that order; all of them without a limit. */
  function Active(rows: map<Who, Row>, client: nat, now: int, window: nat, limit: nat): set<IP> {
    var leases := Leases(rows, client, now, window);
    if limit == 0 then leases else set ip | ip in leases && |Ahead(rows, client, leases, ip)| < limit
  }

  function Granted(rows: map<Who, Row>, e: Event, window: nat): bool {
    var active := Active(rows, e.client, e.now, window, e.limit);
    e.limit == 0 || e.ip in active || |active| < e.limit
  }

  function Upsert(rows: map<Who, Row>, e: Event, granted: bool): map<Who, Row> {
    var w := Who(e.client, e.ip);
    rows[w := Row(if w in rows then rows[w].first else e.now, e.now, granted)]
  }

  function Horizon(window: nat): int { if RETENTION < window * 2 then window * 2 else RETENTION }

  function Prune(rows: map<Who, Row>, now: int, window: nat): map<Who, Row> {
    map w | w in rows && rows[w].last >= now - Horizon(window) :: rows[w]
  }

  predicate ActiveBan(bans: map<Jailed, int>, e: Event) {
    Jailed(e.jail, e.ip) in bans && bans[Jailed(e.jail, e.ip)] > e.now
  }

  function Judge(s: State, e: Event, window: nat): Decision {
    if ActiveBan(s.bans, e) then Banned else if Granted(s.rows, e, window) then Allow else Violation
  }

  function Observe(s: State, e: Event, window: nat): State {
    match Judge(s, e, window)
    case Banned => s
    case Allow =>
      s.(rows := Prune(Upsert(s.rows, e, true), e.now, window), allowed := s.allowed + [Grant(e.client, e.ip, e.now)])
    case Violation =>
      s.(rows := Prune(Upsert(s.rows, e, false), e.now, window),
         bans := if e.ban.Some? then s.bans[Jailed(e.jail, e.ip) := e.now + e.ban.value] else s.bans)
  }

  function Run(s: State, events: seq<Event>, window: nat): State
    decreases |events|
  {
    if events == [] then s else Run(Observe(s, events[0], window), events[1..], window)
  }

  // ---------------------------------------------------------------- ranks

  lemma NewestExists(rows: map<Who, Row>, client: nat, s: set<IP>) returns (m: IP)
    requires s != {} && forall x :: x in s ==> Who(client, x) in rows
    ensures m in s && forall x :: x in s && x != m ==> Older(rows, client, x, m)
    decreases |s|
  {
    var x :| x in s;
    if s == {x} {
      m := x;
    } else {
      var rest := s - {x};
      m := NewestExists(rows, client, rest);
      if Older(rows, client, m, x) {
        forall y | y in s && y != x ensures Older(rows, client, y, x) {
          if y != m { assert y in rest && Older(rows, client, y, m); }
        }
        m := x;
      }
    }
  }

  /** Exactly `k` members of a finite set have fewer than `k` members ahead of them. */
  lemma {:induction false} RankCount(rows: map<Who, Row>, client: nat, s: set<IP>, k: nat)
    requires k <= |s| && forall x :: x in s ==> Who(client, x) in rows
    ensures |set x | x in s && |Ahead(rows, client, s, x)| < k| == k
    decreases |s|
  {
    var low := set x | x in s && |Ahead(rows, client, s, x)| < k;
    if s == {} {
      assert low == {};
    } else {
      var m := NewestExists(rows, client, s);
      var rest := s - {m};
      assert Ahead(rows, client, s, m) == rest;
      forall x | x in rest ensures Ahead(rows, client, s, x) == Ahead(rows, client, rest, x) {
        assert Older(rows, client, x, m);
      }
      if k == |s| {
        forall x | x in s ensures |Ahead(rows, client, s, x)| < k {
          Subset(Ahead(rows, client, s, x), s - {x});
        }
        assert low == s;
      } else {
        RankCount(rows, client, rest, k);
        assert low == set x | x in rest && |Ahead(rows, client, rest, x)| < k;
      }
    }
  }

  lemma Subset<T>(a: set<T>, b: set<T>)
    requires a <= b
    ensures |a| <= |b|
  {
    assert b == a + (b - a);
  }

  /** The active set is the `limit` oldest leases: no more, and all of them while there is room. */
  lemma ActiveSize(rows: map<Who, Row>, client: nat, now: int, window: nat, limit: nat)
    requires limit > 0
    ensures |Active(rows, client, now, window, limit)| <= limit
    ensures |Active(rows, client, now, window, limit)| < limit
            ==> Active(rows, client, now, window, limit) == Leases(rows, client, now, window)
    ensures |Leases(rows, client, now, window)| <= limit
            ==> Active(rows, client, now, window, limit) == Leases(rows, client, now, window)
  {
    var leases := Leases(rows, client, now, window);
    var active := Active(rows, client, now, window, limit);
    if |leases| <= limit {
      forall x | x in leases ensures x in active {
        Subset(Ahead(rows, client, leases, x), leases - {x});
      }
      assert active == leases;
    } else {
      RankCount(rows, client, leases, limit);
      assert active == set x | x in leases && |Ahead(rows, client, leases, x)| < limit;
    }
  }

  // ---------------------------------------------------------------- the invariant of a run

  predicate Recent(g: Grant, client: nat, now: int, window: nat) {
    g.client == client && g.at > now - window
  }

  /** Every address allowed within the window is an active lease that is at least that fresh. */
  ghost predicate Holds(s: State, client: nat, now: int, window: nat, limit: nat) {
    && (forall g :: g in s.allowed ==> g.at <= now)
    && (forall g :: g in s.allowed && Recent(g, client, now, window) ==>
          && Who(client, g.ip) in s.rows
          && s.rows[Who(client, g.ip)].last >= g.at
          && g.ip in Active(s.rows, client, now, window, limit))
  }

  lemma StaysActive(rows: map<Who, Row>, rows': map<Who, Row>, client: nat, now: int, now': int, window: nat,
                    limit: nat, ip: IP)
    requires limit > 0 && ip in Active(rows, client, now, window, limit)
    requires ip in Leases(rows', client, now', window)
             && Leases(rows', client, now', window) <= Leases(rows, client, now, window)
    requires forall x :: x in Leases(rows', client, now', window) ==>
               Who(client, x) in rows && Who(client, x) in rows'
                 && rows'[Who(client, x)].first == rows[Who(client, x)].first
    ensures ip in Active(rows', client, now', window, limit)
  {
    Subset(Ahead(rows', client, Leases(rows', client, now', window), ip),
           Ahead(rows, client, Leases(rows, client, now, window), ip));
  }

  lemma TimePasses(s: State, client: nat, now: int, now': int, window: nat, limit: nat)
    requires limit > 0 && now <= now' && Holds(s, client, now, window, limit)
    ensures Holds(s, client, now', window, limit)
  {
    forall g | g in s.allowed && Recent(g, client, now', window)
      ensures g.ip in Active(s.rows, client, now', window, limit)
    {
      assert Recent(g, client, now, window);
      StaysActive(s.rows, s.rows, client, now, now', window, limit, g.ip);
    }
  }

  lemma LeasesAfter(rows: map<Who, Row>, e: Event, granted: bool, client: nat, window: nat)
    requires window > 0
    ensures var rows' := Prune(Upsert(rows, e, granted), e.now, window);
            && Leases(rows', client, e.now, window)
               == (if client != e.client then Leases(rows, client, e.now, window)
                   else if granted then Leases(rows, client, e.now, window) + {e.ip}
                   else Leases(rows, client, e.now, window) - {e.ip})
            && forall x :: x in Leases(rows, client, e.now, window) && Who(client, x) in rows' ==>
                 rows'[Who(client, x)].first == rows[Who(client, x)].first
                 && rows'[Who(client, x)].last >= if client == e.client && x == e.ip then e.now
                    else rows[Who(client, x)].last
  {
    var up := Upsert(rows, e, granted);
    var rows' := Prune(up, e.now, window);
    var w := Who(e.client, e.ip);
    assert up[w].last == e.now && up[w].granted == granted;
    assert w in rows';
    forall x | x in Leases(rows, client, e.now, window) && Who(client, x) != w
      ensures Who(client, x) in rows' && x in Leases(rows', client, e.now, window)
    {
      assert up[Who(client, x)] == rows[Who(client, x)];
    }
    forall x | x in Leases(rows', client, e.now, window) && Who(client, x) != w
      ensures x in Leases(rows, client, e.now, window)
    {
      assert Who(client, x) in up && up[Who(client, x)] == rows[Who(client, x)];
    }
    if granted && client == e.client { assert w in rows' && rows'[w].granted; }
  }

  /** A newcomer is granted only into free room, so then every lease is active. */
  lemma NewcomerFits(rows: map<Who, Row>, e: Event, client: nat, window: nat, limit: nat)
    requires limit > 0 && window > 0 && e.client == client && e.limit == limit
    requires Granted(rows, e, window) && e.ip !in Active(rows, client, e.now, window, limit)
    ensures var rows' := Prune(Upsert(rows, e, true), e.now, window);
            Active(rows', client, e.now, window, limit) == Leases(rows, client, e.now, window) + {e.ip}
  {
    var rows' := Prune(Upsert(rows, e, true), e.now, window);
    LeasesAfter(rows, e, true, client, window);
    ActiveSize(rows, client, e.now, window, limit);
    var before := Leases(rows, client, e.now, window);
    assert |before| < limit;
    assert |before + {e.ip}| <= limit;
    ActiveSize(rows', client, e.now, window, limit);
  }

  /** Anyone else displaces nobody: what was active and is not the refused address stays active. */
  lemma NobodyDisplaced(rows: map<Who, Row>, e: Event, granted: bool, client: nat, window: nat, limit: nat, ip: IP)
    requires limit > 0 && window > 0 && ip in Active(rows, client, e.now, window, limit)
    requires e.client == client && granted ==> e.ip in Active(rows, client, e.now, window, limit)
    requires e.client == client && !granted ==> ip != e.ip
    ensures ip in Active(Prune(Upsert(rows, e, granted), e.now, window), client, e.now, window, limit)
  {
    LeasesAfter(rows, e, granted, client, window);
    StaysActive(rows, Prune(Upsert(rows, e, granted), e.now, window), client, e.now, e.now, window, limit, ip);
  }

  lemma ObserveKeeps(s: State, e: Event, client: nat, window: nat, limit: nat)
    requires limit > 0 && window > 0 && Holds(s, client, e.now, window, limit)
    requires e.client == client ==> e.limit == limit
    ensures Holds(Observe(s, e, window), client, e.now, window, limit)
    ensures e.client == client && (exists g :: g in s.allowed && Recent(g, client, e.now, window) && g.ip == e.ip)
            ==> Judge(s, e, window) != Violation
  {
    if !ActiveBan(s.bans, e) {
      var granted := Granted(s.rows, e, window);
      var rows' := Prune(Upsert(s.rows, e, granted), e.now, window);
      LeasesAfter(s.rows, e, granted, client, window);
      var newcomer := e.client == client && granted && e.ip !in Active(s.rows, client, e.now, window, limit);
      if newcomer { NewcomerFits(s.rows, e, client, window, limit); }
      forall ip | ip in Active(s.rows, client, e.now, window, limit) && !(e.client == client && !granted && ip == e.ip)
        ensures ip in Active(rows', client, e.now, window, limit)
      {
        if !newcomer { NobodyDisplaced(s.rows, e, granted, client, window, limit, ip); }
      }
      FreshRow(s, e, granted, client, window, limit);
    }
  }

  /** The rows of earlier grants only get fresher, and a new grant's row is as fresh as can be. */
  lemma FreshRow(s: State, e: Event, granted: bool, client: nat, window: nat, limit: nat)
    requires limit > 0 && window > 0 && Holds(s, client, e.now, window, limit)
    ensures var rows' := Prune(Upsert(s.rows, e, granted), e.now, window);
            && Who(e.client, e.ip) in rows' && rows'[Who(e.client, e.ip)].last == e.now
            && forall g :: g in s.allowed && Recent(g, client, e.now, window) ==>
                 Who(client, g.ip) in rows' && rows'[Who(client, g.ip)].last >= g.at
  {
    var up := Upsert(s.rows, e, granted);
    assert up[Who(e.client, e.ip)].last == e.now;
    forall g | g in s.allowed && Recent(g, client, e.now, window)
      ensures Who(client, g.ip) in up && up[Who(client, g.ip)].last >= g.at
    {
      if Who(client, g.ip) != Who(e.client, e.ip) { assert up[Who(client, g.ip)] == s.rows[Who(client, g.ip)]; }
    }
  }

  // ---------------------------------------------------------------- the limiter's theorem

  /** The distinct addresses allowed for `client` in the window of this length that ends at `end`. */
  function AllowedIn(allowed: seq<Grant>, client: nat, end: int, window: nat): set<IP> {
    set g | g in allowed && g.client == client && end - window < g.at <= end :: g.ip
  }

  ghost predicate Bounded(s: State, client: nat, window: nat, limit: nat) {
    forall end: int :: |AllowedIn(s.allowed, client, end, window)| <= limit
  }

  ghost predicate Ordered(events: seq<Event>, start: int) {
    && (forall i :: 0 <= i < |events| ==> start <= events[i].now)
    && (forall i, j :: 0 <= i < j < |events| ==> events[i].now <= events[j].now)
  }

  ghost predicate FixedLimit(events: seq<Event>, client: nat, limit: nat) {
    forall i :: 0 <= i < |events| && events[i].client == client ==> events[i].limit == limit
  }

  lemma ObserveKeepsBound(s: State, e: Event, client: nat, window: nat, limit: nat)
    requires limit > 0 && window > 0 && Holds(s, client, e.now, window, limit) && Bounded(s, client, window, limit)
    requires e.client == client ==> e.limit == limit
    ensures Bounded(Observe(s, e, window), client, window, limit)
  {
    var s' := Observe(s, e, window);
    ObserveKeeps(s, e, client, window, limit);
    ActiveSize(s'.rows, client, e.now, window, limit);
    forall end: int ensures |AllowedIn(s'.allowed, client, end, window)| <= limit {
      if e.now <= end {
        forall ip | ip in AllowedIn(s'.allowed, client, end, window)
          ensures ip in Active(s'.rows, client, e.now, window, limit)
        {
          var g :| g in s'.allowed && g.client == client && end - window < g.at <= end && g.ip == ip;
          assert Recent(g, client, e.now, window);
        }
        Subset(AllowedIn(s'.allowed, client, end, window), Active(s'.rows, client, e.now, window, limit));
      } else {
        assert AllowedIn(s'.allowed, client, end, window) == AllowedIn(s.allowed, client, end, window);
      }
    }
  }

  lemma {:induction false} RunKeeps(s: State, events: seq<Event>, start: int, client: nat, window: nat, limit: nat)
    requires limit > 0 && window > 0 && Ordered(events, start) && FixedLimit(events, client, limit)
    requires Holds(s, client, start, window, limit) && Bounded(s, client, window, limit)
    ensures Bounded(Run(s, events, window), client, window, limit)
    decreases |events|
  {
    if events != [] {
      var e := events[0];
      TimePasses(s, client, start, e.now, window, limit);
      ObserveKeeps(s, e, client, window, limit);
      ObserveKeepsBound(s, e, client, window, limit);
      RunKeeps(Observe(s, e, window), events[1..], e.now, client, window, limit);
    }
  }

  /**
    From any table at all, in particular one built under a higher limit, the decisions made
    from now on allow at most `limit` distinct addresses in every window.
  */
  lemma WindowLimit(rows: map<Who, Row>, bans: map<Jailed, int>, events: seq<Event>, start: int,
                    client: nat, window: nat, limit: nat)
    requires limit > 0 && window > 0 && Ordered(events, start) && FixedLimit(events, client, limit)
    ensures forall end: int ::
              |AllowedIn(Run(State(rows, bans, []), events, window).allowed, client, end, window)| <= limit
  {
    var s := State(rows, bans, []);
    forall end: int ensures |AllowedIn(s.allowed, client, end, window)| <= limit {
      assert AllowedIn(s.allowed, client, end, window) == {};
    }
    RunKeeps(s, events, start, client, window, limit);
  }

  lemma {:induction false} RunHolds(s: State, events: seq<Event>, start: int, end: int, client: nat, window: nat,
                                    limit: nat)
    requires limit > 0 && window > 0 && Ordered(events, start) && FixedLimit(events, client, limit) && start <= end
    requires forall i :: 0 <= i < |events| ==> events[i].now <= end
    requires Holds(s, client, start, window, limit)
    ensures Holds(Run(s, events, window), client, end, window, limit)
    decreases |events|
  {
    if events == [] {
      TimePasses(s, client, start, end, window, limit);
    } else {
      var e := events[0];
      TimePasses(s, client, start, e.now, window, limit);
      ObserveKeeps(s, e, client, window, limit);
      RunHolds(Observe(s, e, window), events[1..], e.now, end, client, window, limit);
    }
  }

  /**
    An address that was allowed less than a window ago is never judged a violation, whatever
    other addresses did in between: it is allowed again, or meets a ban imposed elsewhere.
  */
  lemma RenewingAddressIsNeverDisplaced(rows: map<Who, Row>, bans: map<Jailed, int>, events: seq<Event>, start: int,
                                        next: Event, window: nat, g: Grant)
    requires next.limit > 0 && window > 0
    requires Ordered(events, start) && FixedLimit(events, next.client, next.limit) && start <= next.now
    requires forall i :: 0 <= i < |events| ==> events[i].now <= next.now
    requires g in Run(State(rows, bans, []), events, window).allowed
    requires g.client == next.client && g.ip == next.ip && next.now < g.at + window
    ensures var s := Run(State(rows, bans, []), events, window);
            Judge(s, next, window) == if ActiveBan(s.bans, next) then Banned else Allow
  {
    var s := Run(State(rows, bans, []), events, window);
    RunHolds(State(rows, bans, []), events, start, next.now, next.client, window, next.limit);
    assert Recent(g, next.client, next.now, window);
  }

  // ---------------------------------------------------------------- exactly what is answered and kept

  /** Seen before `b`, or at the same time with a lower address. */
  predicate Earlier(a: Row, ip: IP, b: Row, iq: IP) { a.first < b.first || (a.first == b.first && ip < iq) }

  /**
    A banned address is turned away. Otherwise an address is allowed exactly when there is no limit, when fewer
    addresses than the limit hold a lease, or when it holds one itself and fewer than the limit came earlier.
  */
  lemma AnswerExactly(s: State, e: Event, window: nat)
    ensures Judge(s, e, window) == Banned <==> Jailed(e.jail, e.ip) in s.bans && e.now < s.bans[Jailed(e.jail, e.ip)]
    ensures var me := Who(e.client, e.ip);
            var leases := set w | w in s.rows && w.client == e.client && s.rows[w].granted
                                  && s.rows[w].last > e.now - window :: w.ip;
            Judge(s, e, window) != Banned ==>
              (Judge(s, e, window) == Allow <==>
                 || e.limit == 0
                 || |leases| < e.limit
                 || (e.ip in leases
                     && |set y | y in leases && Earlier(s.rows[Who(e.client, y)], y, s.rows[me], e.ip)| < e.limit))
  {
    var leases := Leases(s.rows, e.client, e.now, window);
    if e.limit > 0 { ActiveSize(s.rows, e.client, e.now, window, e.limit); }
    if e.ip in leases {
      assert Ahead(s.rows, e.client, leases, e.ip)
          == set y | y in leases && Earlier(s.rows[Who(e.client, y)], y, s.rows[Who(e.client, e.ip)], e.ip);
    }
  }

  /**
    A banned address leaves no trace. Any other has its row renewed, under the time it was first seen, with the answer
    given; an answer that violates the limit starts the ban the executor accepted; rows not renewed for a day, or for
    two windows if that is longer, are dropped, and no other row changes.
  */
  lemma EffectExactly(s: State, e: Event, window: nat)
    ensures var t, d, me := Observe(s, e, window), Judge(s, e, window), Who(e.client, e.ip);
            && (d == Banned ==> t == s)
            && t.allowed == (if d == Allow then s.allowed + [Grant(e.client, e.ip, e.now)] else s.allowed)
            && t.bans == (if d == Violation && e.ban.Some? then s.bans[Jailed(e.jail, e.ip) := e.now + e.ban.value]
                          else s.bans)
            && (d != Banned ==>
                  && me in t.rows
                  && t.rows[me] == Row(if me in s.rows then s.rows[me].first else e.now, e.now, d == Allow)
                  && (forall w :: w in t.rows && w != me ==> w in s.rows && t.rows[w] == s.rows[w])
                  && (forall w :: w in s.rows && w != me ==>
                        (w in t.rows <==> s.rows[w].last >= e.now - 86400 || s.rows[w].last >= e.now - 2 * window)))
  {
    var granted := Granted(s.rows, e, window);
    var up := Upsert(s.rows, e, granted);
    assert forall w :: w in s.rows && w != Who(e.client, e.ip) ==> w in up && up[w] == s.rows[w];
    assert Horizon(window) >= 86400 && Horizon(window) >= 2 * window;
    assert Who(e.client, e.ip) in Prune(up, e.now, window);
  }

  /** Every lease was granted by an allow decision at the time of its last renewal. */
  ghost predicate Earned(s: State) {
    forall w :: w in s.rows && s.rows[w].granted ==> Grant(w.client, w.ip, s.rows[w].last) in s.allowed
  }

  lemma ObserveEarns(s: State, e: Event, window: nat)
    requires Earned(s)
    ensures Earned(Observe(s, e, window))
  {
    EffectExactly(s, e, window);
    var t := Observe(s, e, window);
    if Judge(s, e, window) == Allow {
      assert t.allowed[|s.allowed|] == Grant(e.client, e.ip, e.now);
    }
  }

  lemma {:induction false} RunEarns(s: State, events: seq<Event>, start: int, end: int, window: nat)
    requires Earned(s) && Ordered(events, start) && start <= end
    requires forall i :: 0 <= i < |events| ==> events[i].now <= end
    requires forall g :: g in s.allowed ==> g.at <= end
    ensures Earned(Run(s, events, window))
    ensures forall g :: g in Run(s, events, window).allowed ==> g.at <= end
    decreases |events|
  {
    if events != [] {
      ObserveEarns(s, events[0], window);
      EffectExactly(s, events[0], window);
      RunEarns(Observe(s, events[0], window), events[1..], events[0].now, end, window);
    }
  }

  lemma EarnedRoom(s: State, e: Event, window: nat)
    requires Earned(s) && forall g :: g in s.allowed ==> g.at <= e.now
    requires |AllowedIn(s.allowed, e.client, e.now, window)| < e.limit
    ensures Granted(s.rows, e, window)
  {
    var leases := Leases(s.rows, e.client, e.now, window);
    forall ip | ip in leases
      ensures ip in AllowedIn(s.allowed, e.client, e.now, window)
    {
      assert Grant(e.client, ip, s.rows[Who(e.client, ip)].last) in s.allowed;
    }
    Subset(leases, AllowedIn(s.allowed, e.client, e.now, window));
    Subset(Active(s.rows, e.client, e.now, window, e.limit), leases);
  }

  /**
    The limit is used up to the last address: from empty tables, as long as fewer than `limit` addresses of the client
    were allowed within the last window, the next address is allowed, whichever it is, unless it is banned.
  */
  lemma RoomMeansAllowed(events: seq<Event>, start: int, next: Event, window: nat)
    requires Ordered(events, start) && start <= next.now
    requires forall i :: 0 <= i < |events| ==> events[i].now <= next.now
    requires var s := Run(State(map[], map[], []), events, window);
             |AllowedIn(s.allowed, next.client, next.now, window)| < next.limit
    ensures var s := Run(State(map[], map[], []), events, window);
            Judge(s, next, window) == if ActiveBan(s.bans, next) then Banned else Allow
  {
    RunEarns(State(map[], map[], []), events, start, next.now, window);
    EarnedRoom(Run(State(map[], map[], []), events, window), next, window);
  }

  // ---------------------------------------------------------------- the guard

  class Guard {
    const window: nat
    var rows: map<Who, Row>
    var bans: map<Jailed, int>
    ghost var allowed: seq<Grant>

    ghost function View(): State
      reads this
    {
      State(rows, bans, allowed)
    }

    constructor (window: nat)
      ensures View() == State(map[], map[], []) && this.window == window
    {
      this.window := window;
      rows, bans, allowed := map[], map[], [];
    }

    /** The lookup: the oldest leases up to the limit, and whether the address is or may be among them. */
    method Lookup(e: Event) returns (granted: bool)
      ensures granted == Granted(rows, e, window)
    {
      var leases := Leases(rows, e.client, e.now, window);
      var active :=
        if e.limit == 0 then leases
        else set ip | ip in leases && |Ahead(rows, e.client, leases, ip)| < e.limit;
      assert active == Active(rows, e.client, e.now, window, e.limit);
      granted := e.limit == 0 || e.ip in active || |active| < e.limit;
    }

    /** Lookup, decision, upsert and pruning are one transaction; a ban is recorded only once accepted. */
    method ObserveSource(e: Event) returns (d: Decision)
      modifies this
      ensures d == Judge(old(View()), e, window)
      ensures View() == Observe(old(View()), e, window)
    {
      if ActiveBan(bans, e) { return Banned; }
      var granted := Lookup(e);
      rows := Prune(Upsert(rows, e, granted), e.now, window);
      if granted {
        allowed := allowed + [Grant(e.client, e.ip, e.now)];
        return Allow;
      }
      if e.ban.Some? { bans := bans[Jailed(e.jail, e.ip) := e.now + e.ban.value]; }
      d := Violation;
    }
  }
}
