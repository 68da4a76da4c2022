/**
  Volume credit of representatives: what their clients may use together is bounded by what was
  granted. Every operation is a transaction that may run inside another one, on savepoints.
*/
module ResellerCredit {
  import opened Wrappers

  const MAX_UNITS: int := 1_000_000

  datatype OwnerRow = OwnerRow(volume: nat, unlimited: nat, spent: nat, maxClients: nat, disabled: bool)
  datatype ClientRow = ClientRow(owner: nat, limitIp: nat, quota: nat, manual: bool, expires: nat)
  datatype Event = Event(owner: nat, volume: int, units: int)

  /** `resellers` are the owners whose login role is reseller. */
  datatype Db = Db(owners: map<nat, OwnerRow>, clients: map<nat, ClientRow>,
                   resellers: set<nat>, events: map<nat, Event>)

  datatype Actor = Actor(reseller: bool, permitted: bool)

  /** What charging unlimited time answers; a denial may come after it wrote something. */
  datatype Bill = Debit(units: nat) | Deny(written: nat)

  datatype Edit = Edit(limitIp: Option<int>, quota: Option<int>, manual: Option<bool>, expires: Option<int>)

  // ---------------------------------------------------------------- allocated volume

  function Share(c: ClientRow, owner: nat): nat { if c.owner == owner then c.quota else 0 }

  ghost function Allocated(clients: map<nat, ClientRow>, owner: nat): nat
    decreases |clients|
  {
    if clients == map[] then 0
    else
      var k :| k in clients;
      assert |clients - {k}| < |clients| by { Removed(clients, k); }
      Share(clients[k], owner) + Allocated(clients - {k}, owner)
  }

  lemma Removed(clients: map<nat, ClientRow>, k: nat)
    requires k in clients
    ensures |clients - {k}| == |clients| - 1
  {
    assert (clients - {k}).Keys == clients.Keys - {k};
    assert |(clients - {k}).Keys| == |clients - {k}| && |clients.Keys| == |clients|;
  }

  lemma {:induction false} AllocatedSplit(clients: map<nat, ClientRow>, owner: nat, k: nat)
    requires k in clients
    ensures Allocated(clients, owner) == Share(clients[k], owner) + Allocated(clients - {k}, owner)
    decreases |clients|
  {
    var p :| p in clients && Allocated(clients, owner) == Share(clients[p], owner) + Allocated(clients - {p}, owner);
    if p != k {
      Removed(clients, p);
      Removed(clients, k);
      AllocatedSplit(clients - {p}, owner, k);
      AllocatedSplit(clients - {k}, owner, p);
      assert clients - {p} - {k} == clients - {k} - {p};
    }
  }

  lemma AllocatedWith(clients: map<nat, ClientRow>, owner: nat, k: nat, row: ClientRow)
    ensures Allocated(clients[k := row], owner) == Share(row, owner) + Allocated(clients - {k}, owner)
  {
    AllocatedSplit(clients[k := row], owner, k);
    assert clients[k := row] - {k} == clients - {k};
  }

  // ---------------------------------------------------------------- the operations

  predicate Within(x: int, top: nat) { 0 <= x <= top }

  predicate Enforced(s: Db, owner: nat, a: Actor) { owner in s.resellers || a.reseller }

  function Billed(s: Db, owner: nat, units: nat): Db {
    if owner in s.owners then
      s.(owners := s.owners[owner := s.owners[owner].(spent := s.owners[owner].spent + units)]) else s
  }

  function Count(clients: map<nat, ClientRow>, owner: nat): nat { |set k | k in clients && clients[k].owner == owner| }

  ghost function RegisterOwner(s: Db, a: Actor, owner: nat, volume: Option<int>, unlimited: Option<int>,
                               maxClients: int): Option<Db> {
    var old_ := if owner in s.owners then s.owners[owner] else OwnerRow(0, 0, 0, 0, false);
    var v := if volume.Some? then volume.value else old_.volume;
    var u := if unlimited.Some? then unlimited.value else old_.unlimited;
    if !a.permitted || !Within(maxClients, MAX_UNITS) then None
    else if (volume.Some? && !Within(v, MAX_INT)) || (unlimited.Some? && !Within(u, MAX_UNITS)) then None
    else if Enforced(s, owner, a) && (v < Allocated(s.clients, owner) || u < old_.spent) then None
    else if maxClients > 0 && Count(s.clients, owner) > maxClients then None
    else Some(s.(owners := s.owners[owner := old_.(volume := v, unlimited := u, maxClients := maxClients)]))
  }

  ghost function RegisterClient(s: Db, a: Actor, id: nat, owner: nat, limitIp: int, quota: int, expires: int,
                                bill: Bill): Option<Db> {
    if !a.permitted || !Within(limitIp, 1000) || !Within(quota, MAX_INT) || !Within(expires, MAX_INT) then None
    else if owner !in s.owners || s.owners[owner].disabled then None
    else
      var r := s.owners[owner];
      if r.maxClients > 0 && Count(s.clients, owner) >= r.maxClients then None
      else if Enforced(s, owner, a) && quota > 0 && Allocated(s.clients, owner) + quota > r.volume then None
      else if bill.Deny? || id in s.clients then None
      else
        var row := ClientRow(owner, limitIp, quota, false, expires);
        Some(Billed(s, owner, bill.units).(clients := s.clients[id := row]))
  }

  predicate ValidEdit(e: Edit) {
    && (e.limitIp.Some? ==> Within(e.limitIp.value, 1000))
    && (e.quota.Some? ==> Within(e.quota.value, MAX_INT))
    && (e.expires.Some? ==> Within(e.expires.value, MAX_INT))
  }

  function Edited(c: ClientRow, e: Edit): ClientRow
    requires ValidEdit(e)
  {
    ClientRow(c.owner,
              if e.limitIp.Some? then e.limitIp.value else c.limitIp,
              if e.quota.Some? then e.quota.value else c.quota,
              if e.manual.Some? then e.manual.value else c.manual,
              if e.expires.Some? then e.expires.value else c.expires)
  }

  predicate Billable(c: ClientRow, d: ClientRow) {
    c.limitIp != d.limitIp || c.quota != d.quota || c.expires != d.expires
  }

  ghost function EditClient(s: Db, a: Actor, id: nat, e: Edit, bill: Bill): Option<Db> {
    if id !in s.clients || !a.permitted || !ValidEdit(e) then None
    else
      var c := s.clients[id];
      var d := Edited(c, e);
      if e.quota.Some? && Enforced(s, c.owner, a)
         && (c.owner !in s.owners
             || (d.quota > 0 && Allocated(s.clients - {id}, c.owner) + d.quota > s.owners[c.owner].volume)) then None
      else if !Billable(c, d) then Some(s.(clients := s.clients[id := d]))
      else if bill.Deny? then None
      else Some(Billed(s, c.owner, bill.units).(clients := s.clients[id := d]))
  }

  function DeleteClient(s: Db, a: Actor, id: nat): Option<Db> {
    if id !in s.clients || !a.permitted then None else Some(s.(clients := s.clients - {id}))
  }

  datatype Adjusted = Rejected | Repeated | Done(db: Db)

  ghost function Adjust(s: Db, a: Actor, owner: nat, volume: int, units: int, event: nat): Adjusted {
    if !a.permitted || !(-MAX_INT <= volume <= MAX_INT) || !(-MAX_UNITS <= units <= MAX_UNITS)
      || (volume == 0 && units == 0) then Rejected
    else if event in s.events then (if s.events[event] == Event(owner, volume, units) then Repeated else Rejected)
    else if owner !in s.owners || owner !in s.resellers then Rejected
    else
      var r := s.owners[owner];
      var v, u := r.volume + volume, r.unlimited + units;
      if !Within(v, MAX_INT) || !Within(u, MAX_UNITS) || v < Allocated(s.clients, owner) || u < r.spent then Rejected
      else Done(s.(events := s.events[event := Event(owner, volume, units)],
                   owners := s.owners[owner := r.(volume := v, unlimited := u)]))
  }

  // ---------------------------------------------------------------- exactly when an operation succeeds

  /** Time charged to an owner, who need not have a row. */
  predicate SpentBy(s: Db, t: Db, owner: nat, units: nat) {
    && t.owners.Keys == s.owners.Keys && t.resellers == s.resellers && t.events == s.events
    && forall o :: o in s.owners ==>
         t.owners[o] == if o == owner then s.owners[o].(spent := s.owners[o].spent + units) else s.owners[o]
  }

  /** The limits an owner row is given, and the credit it must leave: what is sold and what is spent stay covered. */
  lemma OwnerExactly(s: Db, a: Actor, owner: nat, volume: Option<int>, unlimited: Option<int>, maxClients: int)
    ensures var was := if owner in s.owners then s.owners[owner] else OwnerRow(0, 0, 0, 0, false);
            var v := if volume.Some? then volume.value else was.volume;
            var u := if unlimited.Some? then unlimited.value else was.unlimited;
            var r := RegisterOwner(s, a, owner, volume, unlimited, maxClients);
            && (r.Some? <==>
                  && a.permitted && 0 <= maxClients <= 1_000_000
                  && (volume.Some? ==> 0 <= v <= 0x7FFF_FFFF_FFFF_FFFF)
                  && (unlimited.Some? ==> 0 <= u <= 1_000_000)
                  && (owner in s.resellers || a.reseller ==> Allocated(s.clients, owner) <= v && was.spent <= u)
                  && (maxClients == 0 || |set k | k in s.clients && s.clients[k].owner == owner| <= maxClients))
            && (r.Some? ==>
                  && r.value == s.(owners := r.value.owners) && owner in r.value.owners
                  && r.value.owners == s.owners[owner := r.value.owners[owner]]
                  && r.value.owners[owner] == OwnerRow(v, u, was.spent, maxClients, was.disabled))
  {
  }

  /** A client is sold within the credit that is left afterwards, at the price charged, and nothing else changes. */
  lemma ClientExactly(s: Db, a: Actor, id: nat, owner: nat, limitIp: int, quota: int, expires: int, bill: Bill)
    ensures var r := RegisterClient(s, a, id, owner, limitIp, quota, expires, bill);
            && (r.Some? <==>
                  && a.permitted && 0 <= limitIp <= 1000
                  && 0 <= quota <= 0x7FFF_FFFF_FFFF_FFFF && 0 <= expires <= 0x7FFF_FFFF_FFFF_FFFF
                  && owner in s.owners && !s.owners[owner].disabled && id !in s.clients && bill.Debit?
                  && (s.owners[owner].maxClients == 0
                      || |set k | k in s.clients && s.clients[k].owner == owner| < s.owners[owner].maxClients)
                  && ((owner in s.resellers || a.reseller) && quota > 0 ==>
                        Allocated(s.clients[id := ClientRow(owner, limitIp, quota, false, expires)], owner)
                        <= s.owners[owner].volume))
            && (r.Some? ==>
                  && SpentBy(s, r.value, owner, bill.units)
                  && r.value.clients == s.clients[id := ClientRow(owner, limitIp, quota, false, expires)])
  {
    if 0 <= limitIp && 0 <= quota && 0 <= expires {
      AllocatedWith(s.clients, owner, id, ClientRow(owner, limitIp, quota, false, expires));
      if id !in s.clients { assert s.clients - {id} == s.clients; }
    }
  }

  /**
    An edit that names a quota must fit the credit as it will be after the edit; one that changes the address limit,
    the quota or the expiry is charged. What is not named stays.
  */
  lemma EditExactly(s: Db, a: Actor, id: nat, e: Edit, bill: Bill)
    requires id in s.clients && ValidEdit(e)
    ensures var c, d := s.clients[id], Edited(s.clients[id], e);
            var priced := c.limitIp != d.limitIp || c.quota != d.quota || c.expires != d.expires;
            var r := EditClient(s, a, id, e, bill);
            && (r.Some? <==>
                  && a.permitted && (priced ==> bill.Debit?)
                  && (e.quota.Some? && (c.owner in s.resellers || a.reseller) ==>
                        c.owner in s.owners
                        && (d.quota == 0 || Allocated(s.clients[id := d], c.owner) <= s.owners[c.owner].volume)))
            && (r.Some? ==>
                  && SpentBy(s, r.value, c.owner, if priced then bill.units else 0)
                  && r.value.clients == s.clients[id := d])
    ensures var c, d := s.clients[id], Edited(s.clients[id], e);
            && d.owner == c.owner
            && d.limitIp == (if e.limitIp.Some? then e.limitIp.value else c.limitIp)
            && d.quota == (if e.quota.Some? then e.quota.value else c.quota)
            && d.manual == (if e.manual.Some? then e.manual.value else c.manual)
            && d.expires == (if e.expires.Some? then e.expires.value else c.expires)
  {
    AllocatedWith(s.clients, s.clients[id].owner, id, Edited(s.clients[id], e));
  }

  /** An edit is refused for an unknown client and for values out of these ranges; a deletion only asks permission. */
  lemma RefusedOutright(s: Db, a: Actor, id: nat, e: Edit, bill: Bill)
    ensures ValidEdit(e) <==>
              && (e.limitIp.Some? ==> 0 <= e.limitIp.value <= 1000)
              && (e.quota.Some? ==> 0 <= e.quota.value <= 0x7FFF_FFFF_FFFF_FFFF)
              && (e.expires.Some? ==> 0 <= e.expires.value <= 0x7FFF_FFFF_FFFF_FFFF)
    ensures id !in s.clients || !ValidEdit(e) ==> EditClient(s, a, id, e, bill).None?
    ensures DeleteClient(s, a, id).Some? <==> id in s.clients && a.permitted
    ensures DeleteClient(s, a, id).Some? ==> DeleteClient(s, a, id).value == s.(clients := s.clients - {id})
  {
  }

  /**
    An adjustment takes effect exactly when its event is new, the owner is a reseller with a row, the amounts are in
    range and not both zero, and what is sold and spent stays covered. It moves the credit by just these amounts.
  */
  lemma AdjustExactly(s: Db, a: Actor, owner: nat, volume: int, units: int, event: nat)
    ensures var r := Adjust(s, a, owner, volume, units, event);
            var valid := && a.permitted && (volume != 0 || units != 0)
                         && -0x7FFF_FFFF_FFFF_FFFF <= volume <= 0x7FFF_FFFF_FFFF_FFFF
                         && -1_000_000 <= units <= 1_000_000;
            && (r.Repeated? <==> valid && event in s.events && s.events[event] == Event(owner, volume, units))
            && (r.Done? <==>
                  && valid && event !in s.events && owner in s.owners && owner in s.resellers
                  && Allocated(s.clients, owner) <= s.owners[owner].volume + volume <= 0x7FFF_FFFF_FFFF_FFFF
                  && s.owners[owner].spent <= s.owners[owner].unlimited + units <= 1_000_000)
            && (r.Done? ==>
                  && r.db.clients == s.clients && r.db.resellers == s.resellers
                  && r.db.events == s.events[event := Event(owner, volume, units)]
                  && r.db.owners == s.owners[owner := r.db.owners[owner]]
                  && r.db.owners[owner] == s.owners[owner].(volume := s.owners[owner].volume + volume,
                                                            unlimited := s.owners[owner].unlimited + units))
  {
  }

  // ---------------------------------------------------------------- bulk edits

  /** One row of a bulk request; `wellFormed` stands for the shape checks of the row itself. */
  datatype Row = Row(id: nat, edit: Edit, wellFormed: bool, bill: Bill)

  ghost function EditRow(s: Db, a: Actor, row: Row, seen: set<nat>): Option<Db> {
    if row.id in seen || !row.wellFormed then None else EditClient(s, a, row.id, row.edit, row.bill)
  }

  /** The state after the rows in order, and the ids an error was reported for. */
  ghost function Bulk(s: Db, a: Actor, rows: seq<Row>, seen: set<nat>): (Db, set<nat>)
    decreases |rows|
  {
    if rows == [] then (s, {})
    else
      var one := EditRow(s, a, rows[0], seen);
      var rest := Bulk(if one.Some? then one.value else s, a, rows[1..], seen + {rows[0].id});
      (rest.0, if one.Some? then rest.1 else rest.1 + {rows[0].id})
  }

  // ---------------------------------------------------------------- never oversold

  datatype Op =
    | OpRegisterOwner(a: Actor, owner: nat, volume: Option<int>, unlimited: Option<int>, maxClients: int)
    | OpRegisterClient(a: Actor, id: nat, owner: nat, limitIp: int, quota: int, expires: int, bill: Bill)
    | OpEdit(a: Actor, id: nat, edit: Edit, bill: Bill)
    | OpBulk(a: Actor, rows: seq<Row>)
    | OpDelete(a: Actor, id: nat)
    | OpAdjust(a: Actor, owner: nat, volumeDelta: int, units: int, event: nat)

  function OrSame(s: Db, r: Option<Db>): Db { if r.Some? then r.value else s }

  ghost function Next(s: Db, op: Op): Db {
    match op
    case OpRegisterOwner(a, owner, v, u, m) => OrSame(s, RegisterOwner(s, a, owner, v, u, m))
    case OpRegisterClient(a, id, owner, limitIp, quota, expires, bill) =>
      OrSame(s, RegisterClient(s, a, id, owner, limitIp, quota, expires, bill))
    case OpEdit(a, id, e, bill) => OrSame(s, EditClient(s, a, id, e, bill))
    case OpBulk(a, rows) => Bulk(s, a, rows, {}).0
    case OpDelete(a, id) => OrSame(s, DeleteClient(s, a, id))
    case OpAdjust(a, owner, v, u, event) => var r := Adjust(s, a, owner, v, u, event); if r.Done? then r.db else s
  }

  ghost predicate Sound(s: Db) {
    forall o :: o in s.resellers && o in s.owners ==> Allocated(s.clients, o) <= s.owners[o].volume
  }

  /** Every client belongs to an owner with a row, which registration demands. */
  predicate Owned(s: Db) { forall k :: k in s.clients ==> s.clients[k].owner in s.owners }

  ghost predicate Good(s: Db) { Sound(s) && Owned(s) }

  lemma BilledKeeps(s: Db, owner: nat, units: nat)
    ensures var t := Billed(s, owner, units);
            && t.clients == s.clients && t.resellers == s.resellers && t.events == s.events
               && t.owners.Keys == s.owners.Keys
            && forall o :: o in s.owners ==> t.owners[o].volume == s.owners[o].volume
  {
  }

  lemma RegisterOwnerKeeps(s: Db, a: Actor, owner: nat, volume: Option<int>, unlimited: Option<int>, maxClients: int)
    requires Good(s)
    ensures Good(OrSame(s, RegisterOwner(s, a, owner, volume, unlimited, maxClients)))
  {
  }

  lemma RegisterClientKeeps(s: Db, a: Actor, id: nat, owner: nat, limitIp: int, quota: int, expires: int, bill: Bill)
    requires Good(s)
    ensures Good(OrSame(s, RegisterClient(s, a, id, owner, limitIp, quota, expires, bill)))
  {
    var r := RegisterClient(s, a, id, owner, limitIp, quota, expires, bill);
    if r.Some? {
      BilledKeeps(s, owner, bill.units);
      assert s.clients - {id} == s.clients;
      forall o | o in r.value.resellers && o in r.value.owners
        ensures Allocated(r.value.clients, o) <= r.value.owners[o].volume
      {
        AllocatedWith(s.clients, o, id, ClientRow(owner, limitIp, quota, false, expires));
      }
    }
  }

  lemma EditKeeps(s: Db, a: Actor, id: nat, e: Edit, bill: Bill)
    requires Good(s)
    ensures Good(OrSame(s, EditClient(s, a, id, e, bill)))
    ensures var t := OrSame(s, EditClient(s, a, id, e, bill));
            t.resellers == s.resellers && t.events == s.events && t.clients.Keys == s.clients.Keys
  {
    var r := EditClient(s, a, id, e, bill);
    if r.Some? {
      var c, d := s.clients[id], Edited(s.clients[id], e);
      if bill.Debit? { BilledKeeps(s, c.owner, bill.units); }
      forall o | o in r.value.resellers && o in r.value.owners
        ensures Allocated(r.value.clients, o) <= r.value.owners[o].volume
      {
        AllocatedWith(s.clients, o, id, d);
        AllocatedSplit(s.clients, o, id);
      }
    }
  }

  lemma {:induction false} BulkKeeps(s: Db, a: Actor, rows: seq<Row>, seen: set<nat>)
    requires Good(s)
    ensures Good(Bulk(s, a, rows, seen).0)
    ensures Bulk(s, a, rows, seen).0.resellers == s.resellers && Bulk(s, a, rows, seen).0.events == s.events
    decreases |rows|
  {
    if rows != [] {
      var one := EditRow(s, a, rows[0], seen);
      EditKeeps(s, a, rows[0].id, rows[0].edit, rows[0].bill);
      BulkKeeps(if one.Some? then one.value else s, a, rows[1..], seen + {rows[0].id});
    }
  }

  lemma DeleteKeeps(s: Db, a: Actor, id: nat)
    requires Good(s)
    ensures Good(OrSame(s, DeleteClient(s, a, id)))
  {
    if id in s.clients {
      forall o | o in s.resellers && o in s.owners
        ensures Allocated(s.clients - {id}, o) <= s.owners[o].volume
      {
        AllocatedSplit(s.clients, o, id);
      }
    }
  }

  lemma NextKeeps(s: Db, op: Op)
    requires Good(s)
    ensures Good(Next(s, op)) && Next(s, op).resellers == s.resellers
    ensures forall k :: k in s.events ==> k in Next(s, op).events && Next(s, op).events[k] == s.events[k]
  {
    match op
    case OpRegisterOwner(a, owner, v, u, m) => RegisterOwnerKeeps(s, a, owner, v, u, m);
    case OpRegisterClient(a, id, owner, limitIp, quota, expires, bill) =>
      RegisterClientKeeps(s, a, id, owner, limitIp, quota, expires, bill);
    case OpEdit(a, id, e, bill) => EditKeeps(s, a, id, e, bill);
    case OpBulk(a, rows) => BulkKeeps(s, a, rows, {});
    case OpDelete(a, id) => DeleteKeeps(s, a, id);
    case OpAdjust(a, owner, v, u, event) =>
  }

  ghost function Run(s: Db, ops: seq<Op>): Db
    decreases |ops|
  {
    if ops == [] then s else Run(Next(s, ops[0]), ops[1..])
  }

  /**
    Over any sequence of owner and client registrations, edits, bulk edits, deletions and credit
    adjustments, by any actors, the client quotas of every reseller stay within its volume credit.
  */
  lemma {:induction false} NeverOversold(s: Db, ops: seq<Op>)
    requires Good(s)
    ensures Good(Run(s, ops))
    ensures forall k :: k in s.events ==> k in Run(s, ops).events && Run(s, ops).events[k] == s.events[k]
    decreases |ops|
  {
    if ops != [] {
      NextKeeps(s, ops[0]);
      NeverOversold(Next(s, ops[0]), ops[1..]);
    }
  }

  // ---------------------------------------------------------------- idempotent adjustments

  /** An adjustment that took effect is answered as a repetition for ever and changes nothing again. */
  lemma {:induction false} AdjustOnce(s: Db, a: Actor, owner: nat, volume: int, units: int, event: nat, ops: seq<Op>)
    requires Good(s) && Adjust(s, a, owner, volume, units, event).Done?
    ensures var t := Run(Adjust(s, a, owner, volume, units, event).db, ops);
            Adjust(t, a, owner, volume, units, event) == Repeated
            && Next(t, OpAdjust(a, owner, volume, units, event)) == t
  {
    NextKeeps(s, OpAdjust(a, owner, volume, units, event));
    NeverOversold(Adjust(s, a, owner, volume, units, event).db, ops);
  }

  /** The volume granted to the owner by the events that these operations record. */
  ghost function Granted(s: Db, ops: seq<Op>, owner: nat): int
    decreases |ops|
  {
    if ops == [] then 0
    else
      var recorded := ops[0].OpAdjust? && ops[0].owner == owner && ops[0].event !in s.events
                      && ops[0].event in Next(s, ops[0]).events;
      (if recorded then ops[0].volumeDelta else 0) + Granted(Next(s, ops[0]), ops[1..], owner)
  }

  lemma CreditStep(s: Db, op: Op, owner: nat)
    requires Good(s) && owner in s.owners && !(op.OpRegisterOwner? && op.owner == owner)
    ensures owner in Next(s, op).owners
    ensures Next(s, op).owners[owner].volume == s.owners[owner].volume + Granted(s, [op], owner)
  {
    assert [op][1..] == [];
    match op
    case OpEdit(a, id, e, bill) => EditKeepsCredit(s, a, id, e, bill, owner);
    case OpBulk(a, rows) => BulkKeepsCredit(s, a, rows, {}, owner);
    case OpAdjust(a, o, v, u, event) => AdjustExactly(s, a, o, v, u, event);
    case OpRegisterClient(a, id, o, limitIp, quota, expires, bill) =>
      BilledKeeps(s, o, if bill.Debit? then bill.units else 0);
    case _ =>
  }

  lemma EditKeepsCredit(s: Db, a: Actor, id: nat, e: Edit, bill: Bill, owner: nat)
    requires owner in s.owners
    ensures var t := OrSame(s, EditClient(s, a, id, e, bill));
            owner in t.owners && t.owners[owner].volume == s.owners[owner].volume
  {
    if id in s.clients && ValidEdit(e) { EditExactly(s, a, id, e, bill); }
  }

  lemma {:induction false} BulkKeepsCredit(s: Db, a: Actor, rows: seq<Row>, seen: set<nat>, owner: nat)
    requires owner in s.owners
    ensures var t := Bulk(s, a, rows, seen).0; owner in t.owners && t.owners[owner].volume == s.owners[owner].volume
    decreases |rows|
  {
    if rows != [] {
      var one := EditRow(s, a, rows[0], seen);
      EditKeepsCredit(s, a, rows[0].id, rows[0].edit, rows[0].bill, owner);
      BulkKeepsCredit(if one.Some? then one.value else s, a, rows[1..], seen + {rows[0].id}, owner);
    }
  }

  /**
    As long as an owner's own row is not registered anew, its credit is what it was plus the sum of the adjustments
    recorded for it: every recorded event counts, once, and nothing else does.
  */
  lemma {:induction false} CreditIsGranted(s: Db, ops: seq<Op>, owner: nat)
    requires Good(s) && owner in s.owners
    requires forall i :: 0 <= i < |ops| ==> !(ops[i].OpRegisterOwner? && ops[i].owner == owner)
    ensures owner in Run(s, ops).owners
    ensures Run(s, ops).owners[owner].volume == s.owners[owner].volume + Granted(s, ops, owner)
    decreases |ops|
  {
    if ops != [] {
      NextKeeps(s, ops[0]);
      CreditStep(s, ops[0], owner);
      CreditIsGranted(Next(s, ops[0]), ops[1..], owner);
      assert Granted(Next(s, ops[0]), [], owner) == 0 && [ops[0]][1..] == [];
    }
  }

  // ---------------------------------------------------------------- bulk means one by one

  /** The rows a bulk edit accepts, in order. */
  ghost function Accepted(s: Db, a: Actor, rows: seq<Row>, seen: set<nat>): seq<Row>
    decreases |rows|
  {
    if rows == [] then []
    else
      var one := EditRow(s, a, rows[0], seen);
      var rest := Accepted(if one.Some? then one.value else s, a, rows[1..], seen + {rows[0].id});
      if one.Some? then [rows[0]] + rest else rest
  }

  /** The same edits as separate calls, each of which must succeed. */
  ghost function OneByOne(s: Db, a: Actor, rows: seq<Row>): Option<Db>
    decreases |rows|
  {
    if rows == [] then Some(s)
    else
      var one := EditClient(s, a, rows[0].id, rows[0].edit, rows[0].bill);
      if one.None? then None else OneByOne(one.value, a, rows[1..])
  }

  /** A bulk edit is its accepted rows as single edits, all of them succeeding; rejected rows leave no trace. */
  lemma {:induction false} BulkIsOneByOne(s: Db, a: Actor, rows: seq<Row>, seen: set<nat>)
    ensures OneByOne(s, a, Accepted(s, a, rows, seen)) == Some(Bulk(s, a, rows, seen).0)
    decreases |rows|
  {
    if rows != [] {
      var one := EditRow(s, a, rows[0], seen);
      var next := if one.Some? then one.value else s;
      var rest := Accepted(next, a, rows[1..], seen + {rows[0].id});
      BulkIsOneByOne(next, a, rows[1..], seen + {rows[0].id});
      if one.Some? {
        assert ([rows[0]] + rest)[1..] == rest;
      }
    }
  }

  predicate Distinct(rows: seq<Row>) { forall i, j :: 0 <= i < j < |rows| ==> rows[i].id != rows[j].id }

  /** With distinct ids an error is reported for exactly the rows that were not applied. */
  lemma {:induction false} ErrorsAreRejections(s: Db, a: Actor, rows: seq<Row>, seen: set<nat>, row: Row)
    requires Distinct(rows) && row in rows
    ensures row.id in Bulk(s, a, rows, seen).1 <==> row !in Accepted(s, a, rows, seen)
    decreases |rows|
  {
    var one := EditRow(s, a, rows[0], seen);
    var next := if one.Some? then one.value else s;
    var rest := rows[1..];
    AcceptedAreRows(next, a, rest, seen + {rows[0].id});
    if row == rows[0] {
      assert forall r :: r in rest ==> r.id != row.id;
    } else {
      assert row in rest && row.id != rows[0].id;
      assert Distinct(rest);
      ErrorsAreRejections(next, a, rest, seen + {rows[0].id}, row);
    }
  }

  lemma {:induction false} AcceptedAreRows(s: Db, a: Actor, rows: seq<Row>, seen: set<nat>)
    ensures forall r :: r in Accepted(s, a, rows, seen) ==> r in rows
    ensures forall id :: id in Bulk(s, a, rows, seen).1 ==> exists r :: r in rows && r.id == id
    decreases |rows|
  {
    if rows != [] {
      var one := EditRow(s, a, rows[0], seen);
      var next := if one.Some? then one.value else s;
      AcceptedAreRows(next, a, rows[1..], seen + {rows[0].id});
      forall id | id in Bulk(s, a, rows, seen).1
        ensures exists r :: r in rows && r.id == id
      {
        if id == rows[0].id {
          assert rows[0] in rows;
        } else {
          assert id in Bulk(next, a, rows[1..], seen + {rows[0].id}).1;
          var r :| r in rows[1..] && r.id == id;
          assert r in rows;
        }
      }
    }
  }

  function Occurrences(rows: seq<Row>, id: nat): nat
    decreases |rows|
  {
    if rows == [] then 0 else (if rows[0].id == id then 1 else 0) + Occurrences(rows[1..], id)
  }

  /** The first row with this id, in the state it is reached in, is an edit that succeeds. */
  ghost predicate FirstSucceeds(s: Db, a: Actor, rows: seq<Row>, seen: set<nat>, id: nat)
    decreases |rows|
  {
    rows != []
    && var one := EditRow(s, a, rows[0], seen);
       if rows[0].id == id
       then id !in seen && rows[0].wellFormed && EditClient(s, a, id, rows[0].edit, rows[0].bill).Some?
       else FirstSucceeds(if one.Some? then one.value else s, a, rows[1..], seen + {rows[0].id}, id)
  }

  /** An id seen before is never accepted again, and every row of it is an error. */
  lemma {:induction false} SeenIsRejected(s: Db, a: Actor, rows: seq<Row>, seen: set<nat>, id: nat)
    requires id in seen
    ensures forall r :: r in Accepted(s, a, rows, seen) ==> r.id != id
    ensures id in Bulk(s, a, rows, seen).1 <==> Occurrences(rows, id) > 0
    decreases |rows|
  {
    if rows != [] {
      var one := EditRow(s, a, rows[0], seen);
      SeenIsRejected(if one.Some? then one.value else s, a, rows[1..], seen + {rows[0].id}, id);
    }
  }

  /**
    For every id of a bulk edit: one of its rows is applied exactly when the first is, and an error is
    reported for it exactly when it occurs, unless its only row is applied.
  */
  lemma {:induction false} ErrorsExactly(s: Db, a: Actor, rows: seq<Row>, seen: set<nat>, id: nat)
    requires id !in seen
    ensures (exists r :: r in Accepted(s, a, rows, seen) && r.id == id) <==> FirstSucceeds(s, a, rows, seen, id)
    ensures id in Bulk(s, a, rows, seen).1 <==>
              Occurrences(rows, id) > 0 && !(FirstSucceeds(s, a, rows, seen, id) && Occurrences(rows, id) == 1)
    decreases |rows|
  {
    if rows != [] {
      var one := EditRow(s, a, rows[0], seen);
      var next := if one.Some? then one.value else s;
      var later := Accepted(next, a, rows[1..], seen + {rows[0].id});
      if rows[0].id == id {
        SeenIsRejected(next, a, rows[1..], seen + {id}, id);
        if one.Some? { assert rows[0] in Accepted(s, a, rows, seen); }
      } else {
        ErrorsExactly(next, a, rows[1..], seen + {rows[0].id}, id);
        assert forall r: Row :: r.id == id ==> (r in Accepted(s, a, rows, seen) <==> r in later);
      }
    }
  }

  /** An error is reported for an id that was applied if and only if its first row succeeded and the id occurs again. */
  lemma DuplicateReportsAppliedRow(s: Db, a: Actor, rows: seq<Row>, id: nat)
    ensures id in Bulk(s, a, rows, {}).1 && (exists r :: r in Accepted(s, a, rows, {}) && r.id == id)
            <==> FirstSucceeds(s, a, rows, {}, id) && Occurrences(rows, id) > 1
  {
    ErrorsExactly(s, a, rows, {}, id);
    FirstOccurs(s, a, rows, {}, id);
  }

  lemma {:induction false} FirstOccurs(s: Db, a: Actor, rows: seq<Row>, seen: set<nat>, id: nat)
    ensures FirstSucceeds(s, a, rows, seen, id) ==> Occurrences(rows, id) > 0
    decreases |rows|
  {
    if rows != [] {
      var one := EditRow(s, a, rows[0], seen);
      FirstOccurs(if one.Some? then one.value else s, a, rows[1..], seen + {rows[0].id}, id);
    }
  }

  /** Such a request: one client twice, its limit raised by the first row; the second is refused as a repetition. */
  lemma DuplicateExample()
    ensures var s := Db(map[], map[1 := ClientRow(9, 1, 0, false, 0)], {}, map[]);
            var row := Row(1, Edit(Some(2), None, None, None), true, Debit(0));
            var (t, errors) := Bulk(s, Actor(false, true), [row, row], {});
            1 in errors && exists r :: r in Accepted(s, Actor(false, true), [row, row], {}) && r.id == 1
  {
    var s := Db(map[], map[1 := ClientRow(9, 1, 0, false, 0)], {}, map[]);
    var row := Row(1, Edit(Some(2), None, None, None), true, Debit(0));
    assert EditClient(s, Actor(false, true), 1, row.edit, row.bill).Some?;
    assert [row, row][1..] == [row];
    assert Occurrences([row], 1) == 1 + Occurrences([row][1..], 1);
    DuplicateReportsAppliedRow(s, Actor(false, true), [row, row], 1);
  }

  // ---------------------------------------------------------------- the store, on savepoints

  class Store {
    var db: Db
    /** Outer to inner: the state each open transaction or savepoint would go back to. */
    var saved: seq<Db>

    constructor (db: Db)
      ensures this.db == db && saved == []
    {
      this.db, saved := db, [];
    }

    method Begin()
      modifies this`saved
      ensures saved == old(saved) + [db]
    {
      saved := saved + [db];
    }

    method Commit()
      requires saved != []
      modifies this`saved
      ensures saved == old(saved)[..|old(saved)| - 1]
    {
      saved := saved[..|saved| - 1];
    }

    method RollBack()
      requires saved != []
      modifies this
      ensures db == old(saved)[|old(saved)| - 1] && saved == old(saved)[..|old(saved)| - 1]
    {
      db := saved[|saved| - 1];
      saved := saved[..|saved| - 1];
    }

    /** The sum over an owner's clients, leaving one out if asked. */
    method Allocation(owner: nat, exclude: Option<nat>) returns (volume: nat)
      ensures volume == Allocated(if exclude.Some? then db.clients - {exclude.value} else db.clients, owner)
    {
      var rest := if exclude.Some? then db.clients - {exclude.value} else db.clients;
      ghost var all := rest;
      volume := 0;
      while rest != map[]
        invariant volume + Allocated(rest, owner) == Allocated(all, owner)
        decreases |rest|
      {
        var k :| k in rest;
        AllocatedSplit(rest, owner, k);
        Removed(rest, k);
        volume := volume + Share(rest[k], owner);
        rest := rest - {k};
      }
    }

    /** Charging unlimited time writes first and may refuse afterwards. */
    method ChargeTime(owner: nat, bill: Bill) returns (ok: bool)
      modifies this`db
      ensures ok <==> bill.Debit?
      ensures db == Billed(old(db), owner, if bill.Debit? then bill.units else bill.written)
    {
      db := Billed(db, owner, if bill.Debit? then bill.units else bill.written);
      ok := bill.Debit?;
    }

    method EditBody(a: Actor, id: nat, e: Edit, bill: Bill) returns (ok: bool)
      modifies this`db
      ensures ok <==> EditClient(old(db), a, id, e, bill).Some?
      ensures ok ==> Some(db) == EditClient(old(db), a, id, e, bill)
    {
      if id !in db.clients || !a.permitted || !ValidEdit(e) { return false; }
      var c, d := db.clients[id], Edited(db.clients[id], e);
      if e.quota.Some? && Enforced(db, c.owner, a) {
        if c.owner !in db.owners { return false; }
        var others := Allocation(c.owner, Some(id));
        if d.quota > 0 && others + d.quota > db.owners[c.owner].volume { return false; }
      }
      if Billable(c, d) {
        var paid := ChargeTime(c.owner, bill);
        if !paid { return false; }
      }
      db := db.(clients := db.clients[id := d]);
      ok := true;
    }

    /** A refused edit leaves nothing behind, even what was written before the refusal. */
    method Edit(a: Actor, id: nat, e: Edit, bill: Bill) returns (ok: bool)
      modifies this
      ensures saved == old(saved)
      ensures ok <==> EditClient(old(db), a, id, e, bill).Some?
      ensures db == OrSame(old(db), EditClient(old(db), a, id, e, bill))
    {
      Begin();
      ok := EditBody(a, id, e, bill);
      if ok { Commit(); } else { RollBack(); }
    }

    /** Best effort per row, one outer transaction. */
    method EditMany(a: Actor, rows: seq<Row>) returns (errors: set<nat>)
      modifies this
      ensures saved == old(saved)
      ensures (db, errors) == Bulk(old(db), a, rows, {})
    {
      Begin();
      errors := {};
      var seen, i := {}, 0;
      assert rows[0..] == rows;
      while i < |rows|
        invariant 0 <= i <= |rows| && saved == old(saved) + [old(db)]
        invariant Bulk(db, a, rows[i..], seen).0 == Bulk(old(db), a, rows, {}).0
        invariant errors + Bulk(db, a, rows[i..], seen).1 == Bulk(old(db), a, rows, {}).1
      {
        var row := rows[i];
        assert rows[i..][0] == row && rows[i..][1..] == rows[i + 1..];
        var ok := false;
        if row.id !in seen && row.wellFormed { ok := Edit(a, row.id, row.edit, row.bill); }
        if !ok { errors := errors + {row.id}; }
        seen := seen + {row.id};
        i := i + 1;
      }
      Commit();
    }

    method EnrolOwner(a: Actor, owner: nat, volume: Option<int>, unlimited: Option<int>,
                      maxClients: int) returns (ok: bool)
      modifies this
      ensures saved == old(saved)
      ensures ok <==> RegisterOwner(old(db), a, owner, volume, unlimited, maxClients).Some?
      ensures db == OrSame(old(db), RegisterOwner(old(db), a, owner, volume, unlimited, maxClients))
    {
      if !a.permitted || !Within(maxClients, MAX_UNITS) { return false; }
      Begin();
      var before := if owner in db.owners then db.owners[owner] else OwnerRow(0, 0, 0, 0, false);
      var v := if volume.Some? then volume.value else before.volume;
      var u := if unlimited.Some? then unlimited.value else before.unlimited;
      var sold := Allocation(owner, None);
      if (volume.Some? && !Within(v, MAX_INT)) || (unlimited.Some? && !Within(u, MAX_UNITS))
         || (Enforced(db, owner, a) && (v < sold || u < before.spent))
         || (maxClients > 0 && Count(db.clients, owner) > maxClients) {
        RollBack();
        return false;
      }
      db := db.(owners := db.owners[owner := before.(volume := v, unlimited := u, maxClients := maxClients)]);
      Commit();
      ok := true;
    }

    method EnrolClient(a: Actor, id: nat, owner: nat, limitIp: int, quota: int, expires: int,
                       bill: Bill) returns (ok: bool)
      modifies this
      ensures saved == old(saved)
      ensures ok <==> RegisterClient(old(db), a, id, owner, limitIp, quota, expires, bill).Some?
      ensures db == OrSame(old(db), RegisterClient(old(db), a, id, owner, limitIp, quota, expires, bill))
    {
      if !a.permitted || !Within(limitIp, 1000) || !Within(quota, MAX_INT)
        || !Within(expires, MAX_INT) { return false; }
      Begin();
      if owner !in db.owners || db.owners[owner].disabled { RollBack(); return false; }
      var r := db.owners[owner];
      if r.maxClients > 0 && Count(db.clients, owner) >= r.maxClients { RollBack(); return false; }
      if Enforced(db, owner, a) {
        var sold := Allocation(owner, None);
        if quota > 0 && sold + quota > r.volume { RollBack(); return false; }
      }
      var paid := ChargeTime(owner, bill);
      if !paid || id in db.clients { RollBack(); return false; }
      db := db.(clients := db.clients[id := ClientRow(owner, limitIp, quota, false, expires)]);
      Commit();
      ok := true;
    }

    method AdjustCredit(a: Actor, owner: nat, volume: int, units: int, event: nat) returns (applied: Option<bool>)
      modifies this
      ensures saved == old(saved)
      ensures var r := Adjust(old(db), a, owner, volume, units, event);
              && applied == (if r.Rejected? then None else Some(r.Done?))
              && db == if r.Done? then r.db else old(db)
    {
      if !a.permitted || !(-MAX_INT <= volume <= MAX_INT) || !(-MAX_UNITS <= units <= MAX_UNITS)
        || (volume == 0 && units == 0) {
        return None;
      }
      Begin();
      if event in db.events {
        Commit();
        return if db.events[event] == Event(owner, volume, units) then Some(false) else None;
      }
      if owner !in db.owners || owner !in db.resellers { RollBack(); return None; }
      var r := db.owners[owner];
      var v, u := r.volume + volume, r.unlimited + units;
      var sold := Allocation(owner, None);
      if !Within(v, MAX_INT) || !Within(u, MAX_UNITS) || v < sold || u < r.spent { RollBack(); return None; }
      db := db.(events := db.events[event := Event(owner, volume, units)]);
      db := db.(owners := db.owners[owner := r.(volume := v, unlimited := u)]);
      Commit();
      applied := Some(true);
    }
  }
}
