/**
  The Hub's side of ordered run control: one slot per Node, the latest intent wins, and only the
  exact pending identity can be acknowledged.
*/
module NodeCommands {
  import opened Wrappers
  import opened NodeAgent

  datatype Row = Row(command: Command, applied: nat, lastError: string)

  predicate IsPending(row: Row) { row.command.revision != row.applied }

  datatype Recorded = Kept(row: Row) | Fresh(row: Row) | Exhausted

  function Record(slot: Option<Row>, action: Action, freshId: nat): Recorded {
    if slot.Some? && slot.value.command.action == action && IsPending(slot.value) then Kept(slot.value)
    else
      var revision := if slot.Some? then slot.value.command.revision + 1 else 1;
      if revision >= REVISION_LIMIT then Exhausted
      else Fresh(Row(Command(revision, freshId, action), if slot.Some? then slot.value.applied else 0, ""))
  }

  /** The operator's `action` is already what the Node is asked for and has not answered. */
  predicate AsksFor(slot: Option<Row>, action: Action) {
    slot.Some? && slot.value.command.action == action && slot.value.command.revision != slot.value.applied
  }

  /**
    The latest intent wins. Unless the revisions are used up, the slot then asks for exactly this action; it
    keeps its identity only if that very action was already unanswered, and takes the next revision and the
    fresh id otherwise, whatever was being asked for before.
  */
  lemma RecordedIntent(slot: Option<Row>, action: Action, freshId: nat)
    requires slot.Some? ==> slot.value.applied <= slot.value.command.revision
    ensures var result := Record(slot, action, freshId);
            && (result.Exhausted? <==>
                  slot.Some? && !AsksFor(slot, action) && slot.value.command.revision >= 0x7FFF_FFFF_FFFF_FFFF)
            && (!result.Exhausted? ==> AsksFor(Some(result.row), action))
            && (AsksFor(slot, action) ==> Some(result.row) == slot)
            && (!AsksFor(slot, action) && !result.Exhausted? ==>
                  && result.row.command.revision == (if slot.Some? then slot.value.command.revision else 0) + 1
                  && result.row.command.id == freshId
                  && result.row.applied == (if slot.Some? then slot.value.applied else 0)
                  && result.row.lastError == "")
  {
  }

  /** The reply must name the exact command, claim it applied, and show the commanded state. */
  predicate Accepts(sent: Command, reply: Reply) {
    reply.Ack? && reply.command == sent && reply.applied && reply.running == Expected(sent.action)
  }

  predicate SameIdentity(row: Row, c: Command) { row.command.revision == c.revision && row.command.id == c.id }

  /** The row after the answer to `sent` came in; `row` may have moved on since it was sent. */
  function Answered(row: Row, sent: Command, reply: Reply, error: string): Row {
    if Accepts(sent, reply) then
      if SameIdentity(row, sent) then row.(applied := sent.revision, lastError := "") else row
    else if SameIdentity(row, sent) && IsPending(row) then row.(lastError := error)
    else row
  }

  class Register {
    var rows: map<nat, Row>

    constructor ()
      ensures rows == map[]
    {
      rows := map[];
    }

    method RecordIntent(node: nat, action: Action, freshId: nat) returns (ok: bool)
      modifies this
      ensures var result := Record(if node in old(rows) then Some(old(rows)[node]) else None, action, freshId);
              && ok == !result.Exhausted?
              && rows == if ok then old(rows)[node := result.row] else old(rows)
      ensures ok ==> node in rows && rows[node].command.action == action && rows - {node} == old(rows) - {node}
      ensures AsksFor(Lookup(old(rows), node), action) ==> ok && rows == old(rows)
      ensures !AsksFor(Lookup(old(rows), node), action) ==>
                (ok <==> node !in old(rows) || old(rows)[node].command.revision < 0x7FFF_FFFF_FFFF_FFFF)
      ensures ok && !AsksFor(Lookup(old(rows), node), action) ==>
                && rows[node].command.revision
                   == (if node in old(rows) then old(rows)[node].command.revision else 0) + 1
                && rows[node].command.id == freshId
    {
      if node in rows && rows[node].command.action == action && rows[node].command.revision != rows[node].applied {
        assert rows == rows[node := rows[node]];
        return true;
      }
      var revision := if node in rows then rows[node].command.revision + 1 else 1;
      if revision >= REVISION_LIMIT { return false; }
      var applied := if node in rows then rows[node].applied else 0;
      rows := rows[node := Row(Command(revision, freshId, action), applied, "")];
      ok := true;
    }

    method HandleReply(node: nat, sent: Command, reply: Reply, error: string) returns (accepted: bool)
      modifies this
      ensures node !in old(rows) ==> rows == old(rows) && !accepted
      ensures node in old(rows) ==> rows == old(rows)[node := Answered(old(rows)[node], sent, reply, error)]
      ensures accepted <==> node in old(rows) && SameIdentity(old(rows)[node], sent) && Accepts(sent, reply)
      ensures accepted <==>
                && node in old(rows)
                && old(rows)[node].command.revision == sent.revision && old(rows)[node].command.id == sent.id
                && reply.Ack? && reply.applied && reply.command == sent && (reply.running <==> sent.action != Stop)
      ensures accepted ==> rows[node] == Row(old(rows)[node].command, sent.revision, "")
      ensures !accepted && node in old(rows) ==>
                rows[node].command == old(rows)[node].command && rows[node].applied == old(rows)[node].applied
    {
      if node !in rows { return false; }
      var row := rows[node];
      accepted := false;
      if !Accepts(sent, reply) {
        if SameIdentity(row, sent) && IsPending(row) { row := row.(lastError := error); }
      } else if SameIdentity(row, sent) {
        row := row.(applied := sent.revision, lastError := "");
        accepted := true;
      }
      rows := rows[node := row];
    }
  }
}
