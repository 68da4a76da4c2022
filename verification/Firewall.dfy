/**
  `NftFirewall.dispatch`: the broker's lease map mirrors a kernel set whose elements expire by
  themselves. Each nft command may succeed, be refused, or take effect without the broker
  learning of it; a read may fail. Time moves between calls and not inside one.
*/
module Firewall {
  datatype Elem = Elem(ip: nat, port: nat)
  type Expiries = map<Elem, int>

  /** `Lost`: the command took effect but was reported as failed (it ran into its timeout). */
  datatype Write = Done | Rejected | Lost
  /** A read reports presence, or returns a failure code whatever is in the set, or raises. */
  datatype Read = Truthful | Unreadable | Raised

  datatype Config = Config(runtimeUpdates: bool, directVerified: bool, maxBan: int, guarded: set<nat>)

  /** The kernel set, and the broker's own memory of it. */
  datatype Broker = Broker(kernel: Expiries, leases: Expiries, ports: set<nat>, ready: bool)

  /** What the world answers during one call. */
  datatype Outside = Outside(gets: map<Elem, Read>, deletes: map<Elem, Write>, command: Write, listed: bool)

  const CAPACITY := 100000
  const PORT_LIMIT := 512

  function ReadOf(out: Outside, e: Elem): Read { if e in out.gets then out.gets[e] else Truthful }

  function WriteOf(out: Outside, e: Elem): Write { if e in out.deletes then out.deletes[e] else Done }

  // ---------------------------------------------------------------- what may hold of a broker

  predicate Live(kernel: Expiries, e: Elem, now: int) { e in kernel && kernel[e] > now }

  /** The element is live, and its read is going to report it absent. */
  predicate Misread(kernel: Expiries, e: Elem, out: Outside, now: int) {
    ReadOf(out, e).Unreadable? && Live(kernel, e, now)
  }

  predicate Leased(b: Broker, e: Elem) {
    e in b.leases && e in b.kernel && b.leases[e] == b.kernel[e]
  }

  /** No protected port is approved or blocked, and no element outlives the longest ban. */
  ghost predicate Safe(c: Config, b: Broker, now: int) {
    && b.ports !! c.guarded
    && forall e :: Live(b.kernel, e, now) ==> e.port !in c.guarded && b.kernel[e] <= now + c.maxBan
  }

  /** Every live element is on an approved port. */
  ghost predicate PortsApproved(b: Broker, now: int) {
    forall e :: Live(b.kernel, e, now) ==> e.port in b.ports
  }

  /** Every live element is in the lease map with the same expiry. */
  ghost predicate LeasesAgree(b: Broker, now: int) {
    forall e :: Live(b.kernel, e, now) ==> Leased(b, e)
  }

  ghost predicate Mirror(b: Broker, now: int) { PortsApproved(b, now) && LeasesAgree(b, now) }

  /** The mirror, except perhaps for elements that expire by `last`. */
  ghost predicate MirrorBeyond(b: Broker, now: int, last: int) {
    forall e :: Live(b.kernel, e, now) && b.kernel[e] > last ==> Leased(b, e) && e.port in b.ports
  }

  lemma MirrorIsBeyondNow(b: Broker, now: int, last: int)
    requires last <= now
    ensures MirrorBeyond(b, now, last) <==> Mirror(b, now)
  {
    if MirrorBeyond(b, now, last) {
      forall e | Live(b.kernel, e, now) ensures Leased(b, e) && e.port in b.ports {}
    }
  }

  // ---------------------------------------------------------------- releasing elements

  datatype Release = Release(kernel: Expiries, leases: Expiries, aborted: bool)

  /** Read the element; delete it if it was reported; forget the lease unless something raised. */
  function ReleaseOne(kernel: Expiries, leases: Expiries, e: Elem, out: Outside, now: int): Release {
    var read, write := ReadOf(out, e), WriteOf(out, e);
    if read.Raised? then Release(kernel, leases, true)
    else if read.Unreadable? || !Live(kernel, e, now) then Release(kernel, leases - {e}, false)
    else match write
      case Done => Release(kernel - {e}, leases - {e}, false)
      case Rejected => Release(kernel, leases, true)
      case Lost => Release(kernel - {e}, leases, true)
  }

  /** One after the other, up to the first that raises. */
  function ReleaseAll(kernel: Expiries, leases: Expiries, walk: seq<Elem>, out: Outside, now: int): Release
    decreases |walk|
  {
    if walk == [] then Release(kernel, leases, false)
    else
      var before := ReleaseAll(kernel, leases, walk[..|walk| - 1], out, now);
      if before.aborted then before else ReleaseOne(before.kernel, before.leases, walk[|walk| - 1], out, now)
  }

  predicate NoRepeats(walk: seq<Elem>) { forall i, j :: 0 <= i < j < |walk| ==> walk[i] != walk[j] }

  /** No element before the last one raised. */
  predicate NeverRaised(kernel: Expiries, leases: Expiries, walk: seq<Elem>, out: Outside, now: int) {
    forall n :: 0 <= n < |walk| ==> !ReleaseAll(kernel, leases, walk[..n], out, now).aborted
  }

  lemma WalkExtends(kernel: Expiries, leases: Expiries, walk: seq<Elem>, e: Elem, out: Outside, now: int)
    requires e !in walk && NoRepeats(walk) && NeverRaised(kernel, leases, walk, out, now)
    requires !ReleaseAll(kernel, leases, walk, out, now).aborted
    ensures NoRepeats(walk + [e]) && NeverRaised(kernel, leases, walk + [e], out, now)
    ensures var before := ReleaseAll(kernel, leases, walk, out, now);
            ReleaseAll(kernel, leases, walk + [e], out, now) == ReleaseOne(before.kernel, before.leases, e, out, now)
  {
    var longer := walk + [e];
    assert longer[..|longer| - 1] == walk;
    forall n | 0 <= n < |longer| ensures !ReleaseAll(kernel, leases, longer[..n], out, now).aborted {
      assert n < |walk| ==> longer[..n] == walk[..n];
    }
  }

  /** The walk went through distinct elements of `todo`, stopped where it raised, and otherwise saw all. */
  ghost predicate Walks(b: Broker, walk: seq<Elem>, todo: set<Elem>, out: Outside, now: int) {
    && NoRepeats(walk) && (forall e :: e in walk ==> e in todo)
    && NeverRaised(b.kernel, b.leases, walk, out, now)
    && (!ReleaseAll(b.kernel, b.leases, walk, out, now).aborted ==> forall e :: e in todo ==> e in walk)
  }

  /**
    What a walk leaves: elements outside it are untouched; those inside it lose their lease and stay
    live exactly when misread; an aborted walk only ever drops the lease of a live element by misreading it.
  */
  ghost predicate Released(kernel: Expiries, leases: Expiries, r: Release, walk: seq<Elem>, out: Outside, now: int) {
    && (forall e :: e in r.kernel ==> e in kernel && r.kernel[e] == kernel[e])
    && (forall e :: e in r.leases ==> e in leases && r.leases[e] == leases[e])
    && (forall e :: e !in walk ==> (e in kernel <==> e in r.kernel) && (e in leases <==> e in r.leases))
    && (forall e :: e in walk && Misread(kernel, e, out, now) ==> e in r.kernel && e !in r.leases)
    && (forall e :: e in walk && Live(r.kernel, e, now) && e in leases && e !in r.leases ==>
        Misread(kernel, e, out, now))
    && (!r.aborted ==> forall e :: e in walk && Live(r.kernel, e, now) ==> Misread(kernel, e, out, now))
  }

  lemma {:induction false} WalkReleases(kernel: Expiries, leases: Expiries, walk: seq<Elem>, out: Outside, now: int)
    requires NoRepeats(walk)
    requires NeverRaised(kernel, leases, walk, out, now)
    ensures Released(kernel, leases, ReleaseAll(kernel, leases, walk, out, now), walk, out, now)
    decreases |walk|
  {
    if walk != [] {
      var n := |walk| - 1;
      var init, e := walk[..n], walk[n];
      forall k | 0 <= k < |init| ensures !ReleaseAll(kernel, leases, init[..k], out, now).aborted {
        assert init[..k] == walk[..k];
      }
      WalkReleases(kernel, leases, init, out, now);
      assert e !in init && forall x :: x in walk <==> x in init || x == e;
      LastReleases(kernel, leases, ReleaseAll(kernel, leases, init, out, now), init, e, out, now);
      assert walk == init + [e];
    }
  }

  lemma LastReleases(kernel: Expiries, leases: Expiries, before: Release, init: seq<Elem>, e: Elem, out: Outside,
                     now: int)
    requires e !in init && !before.aborted && Released(kernel, leases, before, init, out, now)
    ensures Released(kernel, leases, ReleaseOne(before.kernel, before.leases, e, out, now), init + [e], out, now)
  {
    var r := ReleaseOne(before.kernel, before.leases, e, out, now);
    OthersUntouched(before.kernel, before.leases, e, out, now);
    assert Live(before.kernel, e, now) <==> Live(kernel, e, now);
    forall x | x in init + [e] && Misread(kernel, x, out, now) ensures x in r.kernel && x !in r.leases {
      assert x in init || x == e;
    }
    forall x | x in init + [e] && Live(r.kernel, x, now)
      ensures x in leases && x !in r.leases ==> Misread(kernel, x, out, now)
      ensures !r.aborted ==> Misread(kernel, x, out, now)
    {
      assert x in init || x == e;
    }
  }

  lemma OthersUntouched(kernel: Expiries, leases: Expiries, e: Elem, out: Outside, now: int)
    ensures var r := ReleaseOne(kernel, leases, e, out, now);
            && (forall x :: x in r.kernel ==> x in kernel && r.kernel[x] == kernel[x])
            && (forall x :: x in r.leases ==> x in leases && r.leases[x] == leases[x])
            && (forall x :: x != e ==> (x in r.kernel <==> x in kernel) && (x in r.leases <==> x in leases))
            && (Misread(kernel, e, out, now) ==> e in r.kernel && e !in r.leases)
            && (Live(r.kernel, e, now) && (!r.aborted || (e in leases && e !in r.leases)) ==>
                Misread(kernel, e, out, now))
  {
  }

  // ---------------------------------------------------------------- the dispatches, on values

  function Purge(leases: Expiries, now: int): Expiries {
    map e | e in leases && leases[e] > now :: leases[e]
  }

  /** The whole table is replaced by an empty one. */
  function Bootstrapped(b: Broker, out: Outside): (Broker, bool) {
    if out.command.Rejected? then (b, false)
    else if out.command.Lost? then (b.(kernel := map[]), false)
    else (b.(kernel := map[], leases := map[], ready := true), true)
  }

  function Statused(b: Broker, out: Outside, now: int): (Broker, bool) {
    if !b.ready || !out.listed then (b, false) else (b.(leases := Purge(b.leases, now)), true)
  }

  function Cleared(b: Broker, out: Outside): (Broker, bool) {
    if !b.ready || out.command.Rejected? then (b, false)
    else if out.command.Lost? then (b.(kernel := map[]), false)
    else (b.(kernel := map[], leases := map[]), true)
  }

  predicate Approved(c: Config, b: Broker, ports: set<nat>, seconds: int) {
    b.ready && c.directVerified && ports != {} && |ports| <= PORT_LIMIT && ports <= b.ports && ports !! c.guarded
    && 10 <= seconds <= c.maxBan
  }

  /** Elements of `ip` on the requested ports that carry no lease. */
  function Requested(ip: nat, ports: set<nat>, leases: Expiries): set<Elem> {
    set p | p in ports && Elem(ip, p) !in leases :: Elem(ip, p)
  }

  /** Adding an element the set already has leaves its timeout alone. */
  function AddAll(kernel: Expiries, elems: set<Elem>, now: int, expiry: int): Expiries {
    map e | e in kernel.Keys + elems :: if e in elems && !Live(kernel, e, now) then expiry else kernel[e]
  }

  function Banned(c: Config, b: Broker, ip: nat, ports: set<nat>, seconds: int, out: Outside, now: int)
    : (Broker, bool)
  {
    if !Approved(c, b, ports, seconds) then (b, false)
    else
      var purged := b.(leases := Purge(b.leases, now));
      var elems := Requested(ip, ports, purged.leases);
      if |purged.leases| + |ports| > CAPACITY then (purged, false)
      else if elems == {} then (purged, true)
      else match out.command
        case Rejected => (purged, false)
        case Lost => (purged.(kernel := AddAll(b.kernel, elems, now, now + seconds)), false)
        case Done => (purged.(kernel := AddAll(b.kernel, elems, now, now + seconds),
                              leases := purged.leases + map e | e in elems :: now + seconds), true)
  }

  function Targets(ip: nat, ports: set<nat>): set<Elem> { set p | p in ports :: Elem(ip, p) }

  /** `walk` is the order in which the approved ports came up. */
  function Unbanned(b: Broker, walk: seq<Elem>, out: Outside, now: int): (Broker, bool) {
    if !b.ready then (b, false)
    else
      var r := ReleaseAll(b.kernel, b.leases, walk, out, now);
      var after := b.(kernel := r.kernel, leases := r.leases);
      if r.aborted then (after, false) else Statused(after, out, now)
  }

  predicate Replaceable(c: Config, b: Broker, ports: set<nat>) {
    b.ready && c.runtimeUpdates && |ports| <= PORT_LIMIT && ports !! c.guarded
  }

  function Removed(b: Broker, ports: set<nat>): set<Elem> { set e | e in b.leases && e.port in b.ports - ports }

  /** `walk` is the order in which the leases of removed ports came up. */
  function PortsSet(c: Config, b: Broker, ports: set<nat>, walk: seq<Elem>, out: Outside, now: int): (Broker, bool) {
    if !Replaceable(c, b, ports) then (b, false)
    else
      var r := ReleaseAll(b.kernel, b.leases, walk, out, now);
      var after := b.(kernel := r.kernel, leases := r.leases);
      if r.aborted then (after, false) else (after.(ports := ports), true)
  }

  // ---------------------------------------------------------------- what a successful call promises

  /**
    A successful clear or bootstrap restores the mirror from any state at all.
  */
  lemma EmptyingRestores(c: Config, b: Broker, out: Outside, now: int)
    requires b.ports !! c.guarded
    ensures Bootstrapped(b, out).1 ==> Mirror(Bootstrapped(b, out).0, now) && Safe(c, Bootstrapped(b, out).0, now)
    ensures Cleared(b, out).1 ==> Mirror(Cleared(b, out).0, now) && Safe(c, Cleared(b, out).0, now)
  {
  }

  /**
    After a successful unban an element of the address is still live exactly when it was misread or was
    never on an approved port. So none remains if and only if neither was the case.
  */
  lemma UnbanExactly(b: Broker, ip: nat, walk: seq<Elem>, out: Outside, now: int)
    requires Walks(b, walk, Targets(ip, b.ports), out, now) && Unbanned(b, walk, out, now).1
    ensures var t := Unbanned(b, walk, out, now).0;
            && (forall e: Elem :: e.ip == ip ==>
                  (Live(t.kernel, e, now) <==>
                   Live(b.kernel, e, now) && (e.port !in b.ports || Misread(b.kernel, e, out, now))))
            && (forall e: Elem :: e.ip != ip ==> (e in t.kernel <==> e in b.kernel))
            && (forall e: Elem :: e in t.kernel ==> e in b.kernel && t.kernel[e] == b.kernel[e])
  {
    WalkReleases(b.kernel, b.leases, walk, out, now);
    var t := Unbanned(b, walk, out, now).0;
    forall e: Elem | e.ip == ip
      ensures Live(t.kernel, e, now) <==>
              Live(b.kernel, e, now) && (e.port !in b.ports || Misread(b.kernel, e, out, now))
    {
      assert e in walk <==> e.port in b.ports;
    }
  }

  /**
    After a successful replacement of the approved ports, no live element is on another port if and
    only if every live one outside the new ports was leased, on a port being removed, and not misread.
  */
  lemma SetPortsExactly(c: Config, b: Broker, ports: set<nat>, walk: seq<Elem>, out: Outside, now: int)
    requires Walks(b, walk, Removed(b, ports), out, now) && PortsSet(c, b, ports, walk, out, now).1
    ensures var t := PortsSet(c, b, ports, walk, out, now).0;
            && t.ports == ports
            && (PortsApproved(t, now) <==>
                  forall e :: Live(b.kernel, e, now) && e.port !in ports ==>
                    e in b.leases && e.port in b.ports && !Misread(b.kernel, e, out, now))
            && (forall e: Elem :: e.port in ports ==>
                (e in t.kernel <==> e in b.kernel) && (e in t.leases <==> e in b.leases))
  {
    WalkReleases(b.kernel, b.leases, walk, out, now);
    var t := PortsSet(c, b, ports, walk, out, now).0;
    forall e: Elem
      ensures e in walk <==> e in Removed(b, ports)
    {
    }
    if PortsApproved(t, now) {
      forall e | Live(b.kernel, e, now) && e.port !in ports
        ensures e in b.leases && e.port in b.ports && !Misread(b.kernel, e, out, now)
      {
        assert !Live(t.kernel, e, now);
      }
    }
  }

  /** A ban, repeated or not, leaves the expiry of every live element alone and blocks only its own address. */
  lemma BanExtendsNothing(c: Config, b: Broker, ip: nat, ports: set<nat>, seconds: int, out: Outside, now: int)
    ensures var t := Banned(c, b, ip, ports, seconds, out, now).0;
            && (forall e :: Live(b.kernel, e, now) ==> Live(t.kernel, e, now) && t.kernel[e] == b.kernel[e])
            && (forall e :: Live(t.kernel, e, now) && !Live(b.kernel, e, now) ==>
                  e.ip == ip && e.port in ports && t.kernel[e] == now + seconds)
  {
  }

  /** The lease of `e` has not run out. */
  predicate Held(b: Broker, e: Elem, now: int) { e in b.leases && b.leases[e] > now }

  predicate BanAllowed(c: Config, b: Broker, ports: set<nat>, seconds: int) {
    && b.ready && c.directVerified && 10 <= seconds <= c.maxBan
    && ports != {} && |ports| <= 512 && ports <= b.ports && ports !! c.guarded
  }

  lemma HeldLeases(b: Broker, ip: nat, ports: set<nat>, now: int)
    ensures forall e :: e in Purge(b.leases, now) <==> Held(b, e, now)
    ensures forall e :: e in Purge(b.leases, now) ==> Purge(b.leases, now)[e] == b.leases[e]
    ensures forall e: Elem :: e in Requested(ip, ports, Purge(b.leases, now)) <==>
                      e.ip == ip && e.port in ports && !Held(b, e, now)
    ensures (forall p :: p in ports ==> Held(b, Elem(ip, p), now)) <==> Requested(ip, ports, Purge(b.leases, now)) == {}
  {
    forall e: Elem | e.ip == ip && e.port in ports && !Held(b, e, now)
      ensures e in Requested(ip, ports, Purge(b.leases, now))
    {
      assert e == Elem(ip, e.port);
    }
  }

  /**
    A ban is accepted exactly when it may be made, fits the table, and the command for what is not leased yet is
    carried out. One that is not carried out leaves the set alone.
  */
  lemma BanAccepted(c: Config, b: Broker, ip: nat, ports: set<nat>, seconds: int, out: Outside, now: int)
    ensures Banned(c, b, ip, ports, seconds, out, now).1 <==>
              && BanAllowed(c, b, ports, seconds)
              && |map e | e in b.leases && b.leases[e] > now :: b.leases[e]| + |ports| <= 100_000
              && ((forall p :: p in ports ==> Held(b, Elem(ip, p), now)) || out.command == Done)
    ensures !Banned(c, b, ip, ports, seconds, out, now).1 && out.command != Lost ==>
              Banned(c, b, ip, ports, seconds, out, now).0.kernel == b.kernel
  {
    HeldLeases(b, ip, ports, now);
    assert Purge(b.leases, now) == map e | e in b.leases && b.leases[e] > now :: b.leases[e];
  }

  /**
    After an accepted ban every asked element that had no lease has one, is live in the kernel set, and expires after
    the seconds asked for unless it was live before; nothing else in the set or among the valid leases changes.
  */
  lemma BanBlocks(c: Config, b: Broker, ip: nat, ports: set<nat>, seconds: int, out: Outside, now: int, e: Elem)
    ensures var (t, ok) := Banned(c, b, ip, ports, seconds, out, now);
            var unheld := e.ip == ip && e.port in ports && !Held(b, e, now);
            && (ok && unheld ==>
                  && e in t.leases && t.leases[e] == now + seconds && Live(t.kernel, e, now)
                  && t.kernel[e] == if Live(b.kernel, e, now) then b.kernel[e] else now + seconds)
            && (ok && !unheld ==>
                  && (e in t.kernel <==> e in b.kernel) && (e in b.kernel ==> t.kernel[e] == b.kernel[e])
                  && (e in t.leases <==> Held(b, e, now)) && (Held(b, e, now) ==> t.leases[e] == b.leases[e]))
  {
    var purged := Purge(b.leases, now);
    HeldLeases(b, ip, ports, now);
    BannedTables(c, b, ip, ports, seconds, out, now);
    Added(b.kernel, purged, Requested(ip, ports, purged), now, now + seconds, e);
  }

  lemma BannedTables(c: Config, b: Broker, ip: nat, ports: set<nat>, seconds: int, out: Outside, now: int)
    ensures var (t, ok) := Banned(c, b, ip, ports, seconds, out, now);
            var purged := Purge(b.leases, now);
            var elems := Requested(ip, ports, purged);
            ok ==>
              && seconds >= 10
              && (elems == {} ==> t.kernel == b.kernel && t.leases == purged)
              && (elems != {} ==>
                    && t.kernel == AddAll(b.kernel, elems, now, now + seconds)
                    && t.leases == purged + map x | x in elems :: now + seconds)
  {
  }

  lemma Added(kernel: Expiries, leases: Expiries, elems: set<Elem>, now: int, expiry: int, e: Elem)
    ensures var set_, held := AddAll(kernel, elems, now, expiry), leases + map x | x in elems :: expiry;
            && (e in elems ==>
                  && e in held && held[e] == expiry
                  && e in set_ && set_[e] == if Live(kernel, e, now) then kernel[e] else expiry)
            && (e !in elems ==>
                  && (e in set_ <==> e in kernel) && (e in kernel ==> set_[e] == kernel[e])
                  && (e in held <==> e in leases) && (e in leases ==> held[e] == leases[e]))
  {
  }

  /** Releasing the element raises: its read does, or it is found and its deletion is not carried out. */
  predicate Raises(kernel: Expiries, e: Elem, out: Outside, now: int) {
    ReadOf(out, e) == Raised || (ReadOf(out, e) == Truthful && Live(kernel, e, now) && WriteOf(out, e) != Done)
  }

  lemma {:induction false} WalkAborts(kernel: Expiries, leases: Expiries, walk: seq<Elem>, out: Outside, now: int)
    requires NoRepeats(walk) && NeverRaised(kernel, leases, walk, out, now)
    ensures ReleaseAll(kernel, leases, walk, out, now).aborted <==> exists e :: e in walk && Raises(kernel, e, out, now)
    decreases |walk|
  {
    if walk != [] {
      var n := |walk| - 1;
      var init, e := walk[..n], walk[n];
      forall k | 0 <= k < |init| ensures !ReleaseAll(kernel, leases, init[..k], out, now).aborted {
        assert init[..k] == walk[..k];
      }
      WalkAborts(kernel, leases, init, out, now);
      WalkReleases(kernel, leases, init, out, now);
      var before := ReleaseAll(kernel, leases, init, out, now);
      assert !before.aborted && e !in init;
      assert Live(before.kernel, e, now) <==> Live(kernel, e, now);
      assert forall x :: x in walk <==> x in init || x == e;
    }
  }

  /** An unban succeeds exactly when the broker is ready, no release raises and the table can be listed. */
  lemma UnbanSucceeds(b: Broker, ip: nat, walk: seq<Elem>, out: Outside, now: int)
    requires Walks(b, walk, Targets(ip, b.ports), out, now)
    ensures Unbanned(b, walk, out, now).1 <==>
              b.ready && out.listed && forall p :: p in b.ports ==> !Raises(b.kernel, Elem(ip, p), out, now)
    ensures Unbanned(b, walk, out, now).1 ==>
              var t := Unbanned(b, walk, out, now).0;
              forall e :: e in t.leases <==> Held(b, e, now) && !(e.ip == ip && e.port in b.ports)
  {
    WalkAborts(b.kernel, b.leases, walk, out, now);
    WalkReleases(b.kernel, b.leases, walk, out, now);
    forall p | p in b.ports ensures Elem(ip, p) in Targets(ip, b.ports) {}
    if b.ready && !ReleaseAll(b.kernel, b.leases, walk, out, now).aborted {
      WalkForgets(b.kernel, b.leases, walk, out, now);
      forall e | e in walk ensures e.ip == ip && e.port in b.ports {}
    }
  }

  /** A walk that raises nowhere forgets exactly the leases it went through. */
  lemma {:induction false} WalkForgets(kernel: Expiries, leases: Expiries, walk: seq<Elem>, out: Outside, now: int)
    requires !ReleaseAll(kernel, leases, walk, out, now).aborted
    ensures var left := ReleaseAll(kernel, leases, walk, out, now).leases;
            && (forall e :: e in left <==> e in leases && e !in walk)
            && (forall e :: e in left ==> left[e] == leases[e])
    decreases |walk|
  {
    if walk != [] {
      var n := |walk| - 1;
      WalkForgets(kernel, leases, walk[..n], out, now);
      assert forall x :: x in walk <==> x in walk[..n] || x == walk[n];
    }
  }

  /**
    New ports are taken exactly when they may be set at run time and no release of a lease on a removed port raises;
    then exactly those leases are gone.
  */
  lemma SetPortsSucceeds(c: Config, b: Broker, ports: set<nat>, walk: seq<Elem>, out: Outside, now: int)
    requires Walks(b, walk, Removed(b, ports), out, now)
    ensures PortsSet(c, b, ports, walk, out, now).1 <==>
              && b.ready && c.runtimeUpdates && |ports| <= 512 && ports !! c.guarded
              && forall e :: e in b.leases && e.port in b.ports && e.port !in ports ==> !Raises(b.kernel, e, out, now)
    ensures PortsSet(c, b, ports, walk, out, now).1 ==>
              var t := PortsSet(c, b, ports, walk, out, now).0;
              && t.ports == ports
              && forall e :: e in t.leases <==> e in b.leases && (e.port in ports || e.port !in b.ports)
  {
    WalkAborts(b.kernel, b.leases, walk, out, now);
    forall e | e in b.leases && e.port in b.ports && e.port !in ports ensures e in Removed(b, ports) {}
    forall e | e in walk ensures e in b.leases && e.port in b.ports && e.port !in ports {
      assert e in Removed(b, ports);
    }
    if PortsSet(c, b, ports, walk, out, now).1 { WalkForgets(b.kernel, b.leases, walk, out, now); }
  }

  /** Bootstrap asks only that its command is carried out; clearing and listing also that the broker is ready. */
  lemma PlainCallsExactly(b: Broker, out: Outside, now: int)
    ensures Bootstrapped(b, out).1 <==> out.command == Done
    ensures Bootstrapped(b, out).1 ==> Bootstrapped(b, out).0 == Broker(map[], map[], b.ports, true)
    ensures Cleared(b, out).1 <==> b.ready && out.command == Done
    ensures Cleared(b, out).1 ==> Cleared(b, out).0 == Broker(map[], map[], b.ports, true)
    ensures Statused(b, out, now).1 <==> b.ready && out.listed
    ensures Statused(b, out, now).1 ==>
              Statused(b, out, now).0 == b.(leases := map e | e in b.leases && b.leases[e] > now :: b.leases[e])
  {
  }

  const OPEN := Config(true, true, 3600, {22})
  const WELL := Outside(map[], map[], Done, true)
  const TIMED_OUT := Outside(map[], map[], Lost, true)

  /** Such an input: a ban is reported as failed but took effect; then its port is given up and stays blocked. */
  lemma LostBanOutlivesItsPort()
    ensures var b := Broker(map[], map[], {80}, true);
            var banned := Banned(OPEN, b, 7, {80}, 600, TIMED_OUT, 0).0;
            && Mirror(b, 0) && !Banned(OPEN, b, 7, {80}, 600, TIMED_OUT, 0).1
            && Walks(banned, [], Removed(banned, {}), WELL, 1)
            && PortsSet(OPEN, banned, {}, [], WELL, 1).1
            && Live(PortsSet(OPEN, banned, {}, [], WELL, 1).0.kernel, Elem(7, 80), 1)
  {
    var b := Broker(map[], map[], {80}, true);
    assert Purge(b.leases, 0) == map[];
    assert Elem(7, 80) in Requested(7, {80}, map[]);
    var elems := Requested(7, {80}, map[]);
    var banned := Banned(OPEN, b, 7, {80}, 600, TIMED_OUT, 0).0;
    assert banned == b.(kernel := AddAll(map[], elems, 0, 600));
    assert banned.kernel[Elem(7, 80)] == 600;
  }

  // ---------------------------------------------------------------- runs

  datatype Call =
    | CallBootstrap
    | CallStatus
    | CallClear
    | CallBan(ip: nat, ports: set<nat>, seconds: int)
    | CallUnban(ip: nat, walk: seq<Elem>)
    | CallSetPorts(ports: set<nat>, walk: seq<Elem>)

  datatype Step = Step(call: Call, out: Outside, now: int)

  /** The walk of an accepted call is one the broker may take. */
  ghost predicate Enabled(c: Config, b: Broker, s: Step) {
    match s.call
    case CallUnban(ip, walk) => b.ready ==> Walks(b, walk, Targets(ip, b.ports), s.out, s.now)
    case CallSetPorts(ports, walk) => Replaceable(c, b, ports) ==> Walks(b, walk, Removed(b, ports), s.out, s.now)
    case _ => true
  }

  function Dispatch(c: Config, b: Broker, s: Step): (Broker, bool) {
    match s.call
    case CallBootstrap => Bootstrapped(b, s.out)
    case CallStatus => Statused(b, s.out, s.now)
    case CallClear => Cleared(b, s.out)
    case CallBan(ip, ports, seconds) => Banned(c, b, ip, ports, seconds, s.out, s.now)
    case CallUnban(_, walk) => Unbanned(b, walk, s.out, s.now)
    case CallSetPorts(ports, walk) => PortsSet(c, b, ports, walk, s.out, s.now)
  }

  /** The call adds elements without learning of it, or takes a live element for an absent one. */
  predicate Faulty(c: Config, b: Broker, s: Step) {
    match s.call
    case CallBan(ip, ports, seconds) =>
      var purged := Purge(b.leases, s.now);
      Approved(c, b, ports, seconds) && |purged| + |ports| <= CAPACITY && Requested(ip, ports, purged) != {}
        && s.out.command.Lost?
    case CallUnban(_, walk) => b.ready && exists e :: e in walk && Misread(b.kernel, e, s.out, s.now)
    case CallSetPorts(ports, walk) =>
      Replaceable(c, b, ports) && exists e :: e in walk && Misread(b.kernel, e, s.out, s.now)
    case _ => false
  }

  /** `states[i]` is the broker before step `i`; expiry is what the later clock of a step sees. */
  ghost predicate Run(c: Config, states: seq<Broker>, steps: seq<Step>) {
    && |states| == |steps| + 1
    && states[0].ports !! c.guarded && !states[0].ready
    && (forall i, j :: 0 <= i < j < |steps| ==> steps[i].now <= steps[j].now)
    && forall i :: 0 <= i < |steps| ==>
       Enabled(c, states[i], steps[i]) && states[i + 1] == Dispatch(c, states[i], steps[i]).0
  }

  lemma ReleaseKeepsBeyond(b: Broker, walk: seq<Elem>, todo: set<Elem>, out: Outside, now: int, last: int)
    requires Walks(b, walk, todo, out, now) && MirrorBeyond(b, now, last)
    requires forall e :: e in walk ==> !Misread(b.kernel, e, out, now)
    ensures var r := ReleaseAll(b.kernel, b.leases, walk, out, now);
            MirrorBeyond(b.(kernel := r.kernel, leases := r.leases), now, last)
  {
    WalkReleases(b.kernel, b.leases, walk, out, now);
  }

  lemma BanKeepsBeyond(c: Config, b: Broker, ip: nat, ports: set<nat>, seconds: int, out: Outside, now: int, last: int)
    requires MirrorBeyond(b, now, last) && !Faulty(c, b, Step(CallBan(ip, ports, seconds), out, now))
    ensures MirrorBeyond(Banned(c, b, ip, ports, seconds, out, now).0, now, last)
  {
    var t := Banned(c, b, ip, ports, seconds, out, now).0;
    var elems := Requested(ip, ports, Purge(b.leases, now));
    if Approved(c, b, ports, seconds) {
      forall e | Live(t.kernel, e, now) && t.kernel[e] > last
        ensures Leased(t, e) && e.port in t.ports
      {
        if e in elems {
          assert e !in b.leases || b.leases[e] <= now;
        }
      }
    }
  }

  lemma SetPortsKeepsBeyond(c: Config, b: Broker, ports: set<nat>, walk: seq<Elem>, out: Outside, now: int, last: int)
    requires Replaceable(c, b, ports) ==> Walks(b, walk, Removed(b, ports), out, now)
    requires MirrorBeyond(b, now, last)
    requires !Faulty(c, b, Step(CallSetPorts(ports, walk), out, now))
    ensures MirrorBeyond(PortsSet(c, b, ports, walk, out, now).0, now, last)
  {
    if Replaceable(c, b, ports) {
      ReleaseKeepsBeyond(b, walk, Removed(b, ports), out, now, last);
      WalkReleases(b.kernel, b.leases, walk, out, now);
      var t := PortsSet(c, b, ports, walk, out, now).0;
      if t.ports != b.ports {
        forall e | Live(t.kernel, e, now) && t.kernel[e] > last
          ensures e.port in ports
        {
          assert Live(b.kernel, e, now) && Leased(b, e);
          assert e in Removed(b, ports) <==> e.port !in ports;
        }
      }
    }
  }

  /** A call that is not faulty keeps the mirror, and its repair by expiry, going. */
  lemma StepKeepsBeyond(c: Config, b: Broker, s: Step, last: int)
    requires Enabled(c, b, s) && MirrorBeyond(b, s.now, last) && !Faulty(c, b, s)
    ensures MirrorBeyond(Dispatch(c, b, s).0, s.now, last)
  {
    match s.call
    case CallBan(ip, ports, seconds) => BanKeepsBeyond(c, b, ip, ports, seconds, s.out, s.now, last);
    case CallUnban(ip, walk) =>
      if b.ready { ReleaseKeepsBeyond(b, walk, Targets(ip, b.ports), s.out, s.now, last); }
    case CallSetPorts(ports, walk) => SetPortsKeepsBeyond(c, b, ports, walk, s.out, s.now, last);
    case _ =>
  }

  /** A faulty call always breaks the agreement: it leaves a live element without a lease. */
  lemma FaultBreaksMirror(c: Config, b: Broker, s: Step)
    requires Enabled(c, b, s) && Faulty(c, b, s)
    ensures !LeasesAgree(Dispatch(c, b, s).0, s.now)
  {
    var t := Dispatch(c, b, s).0;
    match s.call
    case CallBan(ip, ports, seconds) =>
      var e :| e in Requested(ip, ports, Purge(b.leases, s.now));
      assert Live(t.kernel, e, s.now) && e !in t.leases;
    case CallUnban(ip, walk) =>
      WalkReleases(b.kernel, b.leases, walk, s.out, s.now);
      var e :| e in walk && Misread(b.kernel, e, s.out, s.now);
      assert Live(t.kernel, e, s.now) && e !in t.leases;
    case CallSetPorts(ports, walk) =>
      WalkReleases(b.kernel, b.leases, walk, s.out, s.now);
      var e :| e in walk && Misread(b.kernel, e, s.out, s.now);
      assert Live(t.kernel, e, s.now) && e !in t.leases;
    case _ =>
  }

  /** One call keeps the mirror if and only if it is not faulty. */
  lemma StepMirrorsExactly(c: Config, b: Broker, s: Step)
    requires Enabled(c, b, s) && Mirror(b, s.now)
    ensures Mirror(Dispatch(c, b, s).0, s.now) <==> !Faulty(c, b, s)
  {
    MirrorIsBeyondNow(b, s.now, s.now);
    MirrorIsBeyondNow(Dispatch(c, b, s).0, s.now, s.now);
    if Faulty(c, b, s) { FaultBreaksMirror(c, b, s); } else { StepKeepsBeyond(c, b, s, s.now); }
  }

  lemma TimeKeeps(c: Config, b: Broker, now: int, later: int, last: int)
    requires now <= later
    ensures MirrorBeyond(b, now, last) ==> MirrorBeyond(b, later, last)
    ensures Safe(c, b, now) ==> Safe(c, b, later)
  {
    forall e | Live(b.kernel, e, later) ensures Live(b.kernel, e, now) {}
  }

  lemma ReleaseOnlyShrinks(b: Broker, walk: seq<Elem>, todo: set<Elem>, out: Outside, now: int)
    requires Walks(b, walk, todo, out, now)
    ensures var r := ReleaseAll(b.kernel, b.leases, walk, out, now);
            forall e :: e in r.kernel ==> e in b.kernel && r.kernel[e] == b.kernel[e]
  {
    WalkReleases(b.kernel, b.leases, walk, out, now);
  }

  /** Faults and all, no call blocks a protected port or for longer than allowed. */
  lemma StepKeepsSafe(c: Config, b: Broker, s: Step)
    requires Enabled(c, b, s) && b.ports !! c.guarded && (b.ready ==> Safe(c, b, s.now))
    ensures var t := Dispatch(c, b, s).0; t.ports !! c.guarded && (t.ready ==> Safe(c, t, s.now))
  {
    match s.call
    case CallUnban(ip, walk) =>
      if b.ready { ReleaseOnlyShrinks(b, walk, Targets(ip, b.ports), s.out, s.now); }
    case CallSetPorts(ports, walk) =>
      if Replaceable(c, b, ports) { ReleaseOnlyShrinks(b, walk, Removed(b, ports), s.out, s.now); }
    case _ =>
  }

  lemma {:induction false} RunSafe(c: Config, states: seq<Broker>, steps: seq<Step>, n: nat)
    requires Run(c, states, steps) && n < |steps|
    ensures states[n].ports !! c.guarded && (states[n].ready ==> Safe(c, states[n], steps[n].now))
    decreases n
  {
    if n > 0 {
      RunSafe(c, states, steps, n - 1);
      StepKeepsSafe(c, states[n - 1], steps[n - 1]);
      TimeKeeps(c, states[n], steps[n - 1].now, steps[n].now, 0);
    }
  }

  /**
    Across every dispatch, repetition, expiry and failed command: once the broker is ready, no live
    element is ever on a protected port, none outlives the longest ban, and no protected port is approved.
  */
  lemma NeverProtected(c: Config, states: seq<Broker>, steps: seq<Step>, n: nat)
    requires Run(c, states, steps) && n < |steps| && states[n].ready
    ensures Safe(c, states[n], steps[n].now) && Safe(c, states[n + 1], steps[n].now)
  {
    RunSafe(c, states, steps, n);
    StepKeepsSafe(c, states[n], steps[n]);
    ReadyStays(c, states[n], steps[n]);
  }

  lemma ReadyStays(c: Config, b: Broker, s: Step)
    requires b.ready
    ensures Dispatch(c, b, s).0.ready
  {
  }

  predicate NoFault(c: Config, states: seq<Broker>, steps: seq<Step>, m: nat, n: nat)
    requires m <= n <= |steps| < |states|
  {
    forall i :: m <= i < n ==> !Faulty(c, states[i], steps[i])
  }

  lemma {:induction false} RunKeepsBeyond(c: Config, states: seq<Broker>, steps: seq<Step>, m: nat, n: nat, last: int)
    requires Run(c, states, steps) && m <= n < |steps| && NoFault(c, states, steps, m, n)
    requires MirrorBeyond(states[m], steps[m].now, last)
    ensures MirrorBeyond(states[n], steps[n].now, last)
    decreases n - m
  {
    if m < n {
      RunKeepsBeyond(c, states, steps, m, n - 1, last);
      StepKeepsBeyond(c, states[n - 1], steps[n - 1], last);
      TimeKeeps(c, states[n], steps[n - 1].now, steps[n].now, last);
    }
  }

  /** The call does not give the element up. */
  predicate Spares(b: Broker, call: Call, e: Elem) {
    match call
    case CallBootstrap => false
    case CallClear => false
    case CallUnban(ip, _) => e.ip != ip || e.port !in b.ports
    case CallSetPorts(ports, _) => e.port in ports || e.port !in b.ports || e !in b.leases
    case _ => true
  }

  lemma SparedStays(c: Config, b: Broker, s: Step, e: Elem)
    requires Enabled(c, b, s) && Spares(b, s.call, e) && Live(b.kernel, e, s.now)
    ensures var t := Dispatch(c, b, s).0; e in t.kernel && t.kernel[e] == b.kernel[e]
  {
    match s.call
    case CallBan(ip, ports, seconds) => BanExtendsNothing(c, b, ip, ports, seconds, s.out, s.now);
    case CallUnban(ip, walk) =>
      if b.ready { WalkReleases(b.kernel, b.leases, walk, s.out, s.now); }
    case CallSetPorts(ports, walk) =>
      if Replaceable(c, b, ports) { WalkReleases(b.kernel, b.leases, walk, s.out, s.now); }
    case _ =>
  }

  /** An element once blocked stays blocked to the end of its time, through every call that does not give it up. */
  lemma {:induction false} BanLasts(c: Config, states: seq<Broker>, steps: seq<Step>, m: nat, n: nat, e: Elem)
    requires Run(c, states, steps) && m <= n < |steps| && e in states[m].kernel && states[m].kernel[e] > steps[n].now
    requires forall i :: m <= i < n ==> Spares(states[i], steps[i].call, e)
    ensures Live(states[n].kernel, e, steps[n].now) && states[n].kernel[e] == states[m].kernel[e]
    decreases n - m
  {
    if m < n {
      BanLasts(c, states, steps, m, n - 1, e);
      SparedStays(c, states[n - 1], steps[n - 1], e);
    }
  }

  /** Between faults the mirror stands: through expiry, repeated bans, refused commands and aborted calls. */
  lemma MirrorBetweenFaults(c: Config, states: seq<Broker>, steps: seq<Step>, m: nat, n: nat)
    requires Run(c, states, steps) && m <= n < |steps| && NoFault(c, states, steps, m, n)
    requires Mirror(states[m], steps[m].now)
    ensures Mirror(states[n], steps[n].now)
  {
    MirrorIsBeyondNow(states[m], steps[m].now, steps[m].now);
    RunKeepsBeyond(c, states, steps, m, n, steps[m].now);
    MirrorIsBeyondNow(states[n], steps[n].now, steps[m].now);
  }

  /** After a fault it repairs itself: by the time of the longest ban later every stray element has expired. */
  lemma MirrorHeals(c: Config, states: seq<Broker>, steps: seq<Step>, m: nat, n: nat)
    requires Run(c, states, steps) && m <= n < |steps| && NoFault(c, states, steps, m, n)
    requires states[m].ready && steps[n].now >= steps[m].now + c.maxBan
    ensures Mirror(states[n], steps[n].now)
  {
    var last := steps[m].now + c.maxBan;
    RunSafe(c, states, steps, m);
    assert MirrorBeyond(states[m], steps[m].now, last);
    RunKeepsBeyond(c, states, steps, m, n, last);
    MirrorIsBeyondNow(states[n], steps[n].now, last);
  }

  // ---------------------------------------------------------------- the broker

  class NftFirewall {
    const config: Config
    var leases: Expiries
    var runtimePorts: set<nat>
    var ready: bool
    /** The nftables set itself, outside the broker's memory. */
    var kernel: Expiries

    /** A new broker knows nothing of what an earlier one left in the kernel. */
    constructor (config: Config, ports: set<nat>, kernel: Expiries)
      ensures this.config == config && Value() == Broker(kernel, map[], ports, false)
    {
      this.config := config;
      leases, runtimePorts, ready, this.kernel := map[], ports, false, kernel;
    }

    function Value(): Broker
      reads this
    {
      Broker(kernel, leases, runtimePorts, ready)
    }

    method Bootstrap(out: Outside) returns (ok: bool)
      modifies this`leases, this`kernel, this`ready
      ensures (Value(), ok) == Bootstrapped(old(Value()), out)
    {
      if out.command.Rejected? { return false; }
      kernel := map[];
      if out.command.Lost? { return false; }
      ready := true;
      leases := map[];
      ok := true;
    }

    method Status(out: Outside, now: int) returns (ok: bool)
      modifies this`leases
      ensures (Value(), ok) == Statused(old(Value()), out, now)
    {
      if !ready || !out.listed { return false; }
      leases := map e | e in leases && leases[e] > now :: leases[e];
      ok := true;
    }

    method Clear(out: Outside) returns (ok: bool)
      modifies this`leases, this`kernel
      ensures (Value(), ok) == Cleared(old(Value()), out)
    {
      if !ready || out.command.Rejected? { return false; }
      kernel := map[];
      if out.command.Lost? { return false; }
      leases := map[];
      ok := true;
    }

    method Ban(ip: nat, ports: set<nat>, seconds: int, out: Outside, now: int) returns (ok: bool)
      modifies this`leases, this`kernel
      ensures (Value(), ok) == Banned(config, old(Value()), ip, ports, seconds, out, now)
    {
      if !Approved(config, Value(), ports, seconds) { return false; }
      leases := Purge(leases, now);
      if |leases| + |ports| > CAPACITY { return false; }
      var elems := Requested(ip, ports, leases);
      if elems == {} { return true; }
      if out.command.Rejected? { return false; }
      kernel := AddAll(kernel, elems, now, now + seconds);
      if out.command.Lost? { return false; }
      leases := leases + map e | e in elems :: now + seconds;
      ok := true;
    }

    method ReleaseElement(e: Elem, out: Outside, now: int) returns (aborted: bool)
      modifies this`leases, this`kernel
      ensures Release(kernel, leases, aborted) == ReleaseOne(old(kernel), old(leases), e, out, now)
    {
      var read, write := ReadOf(out, e), WriteOf(out, e);
      if read.Raised? { return true; }
      if read.Truthful? && Live(kernel, e, now) {
        if write.Rejected? { return true; }
        kernel := kernel - {e};
        if write.Lost? { return true; }
      }
      leases := leases - {e};
      aborted := false;
    }

    /** Release the elements in some order, up to the first that raises. */
    method ReleaseEach(todo: set<Elem>, out: Outside, now: int) returns (aborted: bool, walk: seq<Elem>)
      modifies this`leases, this`kernel
      ensures Release(kernel, leases, aborted) == ReleaseAll(old(kernel), old(leases), walk, out, now)
      ensures Walks(old(Value()), walk, todo, out, now)
    {
      var left := todo;
      walk := [];
      aborted := false;
      while left != {}
        invariant left <= todo && (forall e :: e in walk <==> e in todo - left)
        invariant Release(kernel, leases, false) == ReleaseAll(old(kernel), old(leases), walk, out, now)
        invariant NoRepeats(walk) && NeverRaised(old(kernel), old(leases), walk, out, now)
        decreases left
      {
        var e :| e in left;
        WalkExtends(old(kernel), old(leases), walk, e, out, now);
        aborted := ReleaseElement(e, out, now);
        walk := walk + [e];
        if aborted { return; }
        left := left - {e};
      }
    }

    /** Every element of the address on an approved port, then a look at the table itself. */
    method Unban(ip: nat, out: Outside, now: int) returns (ok: bool, walk: seq<Elem>)
      modifies this`leases, this`kernel
      ensures Walks(old(Value()), walk, Targets(ip, old(runtimePorts)), out, now) || !ready
      ensures (Value(), ok) == Unbanned(old(Value()), walk, out, now)
    {
      walk := [];
      if !ready { return false, []; }
      var aborted;
      aborted, walk := ReleaseEach(Targets(ip, runtimePorts), out, now);
      if aborted { return false, walk; }
      ok := Status(out, now);
    }

    /** The leases of removed ports first, then the new ports; the table itself is not looked at. */
    method SetPorts(ports: set<nat>, out: Outside, now: int) returns (ok: bool, walk: seq<Elem>)
      modifies this`leases, this`kernel, this`runtimePorts
      ensures Walks(old(Value()), walk, Removed(old(Value()), ports), out, now)
              || !Replaceable(config, old(Value()), ports)
      ensures (Value(), ok) == PortsSet(config, old(Value()), ports, walk, out, now)
    {
      if !Replaceable(config, Value(), ports) { return false, []; }
      var aborted;
      aborted, walk := ReleaseEach(Removed(Value(), ports), out, now);
      if aborted { return false, walk; }
      runtimePorts := ports;
      ok := true;
    }
  }
}
