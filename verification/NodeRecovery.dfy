/**
  Recovery of a Hub restored from a stale backup: the operator reviews the Agent's checkpoint, the
  Hub numbers one Stop above both histories, the Agent carries it out only against the reviewed
  checkpoint, and the Hub renumbers its configuration once that Stop is verified.
*/
module NodeRecovery {
  import opened Wrappers
  import opened NodeAgent
  import opened NodeCommands
  import opened DesiredState
  import D = DurableStop

  datatype Checkpoint = Checkpoint(command: Option<Command>, revision: nat, payload: Option<Payload>)

  function CheckpointOf(n: Node): Checkpoint {
    Checkpoint(if n.agent.receipt.Some? then Some(n.agent.receipt.value.command) else None,
               n.applied.revision, n.applied.payload)
  }

  function Revision(c: Option<Command>): nat { if c.Some? then c.value.revision else 0 }

  // ---------------------------------------------------------------- the Agent's conditional Stop

  /** The Agent holds what was reviewed, or already holds this very Stop. */
  predicate StillReviewed(n: Node, stop: Command, expected: Checkpoint) {
    var now := CheckpointOf(n);
    && now.revision == expected.revision && now.payload == expected.payload
    && (now.command == Some(stop) || now.command == expected.command)
  }

  predicate WellNumbered(stop: Command, expected: Checkpoint) {
    stop.action == Stop && Revision(expected.command) < stop.revision < REVISION_LIMIT
    && (expected.command.Some? ==> expected.command.value.id != stop.id)
  }

  function RecoveryStop(n: Node, stop: Command, expected: Checkpoint, e: Env): (Node, Reply) {
    if stop.revision <= Revision(expected.command) || !StillReviewed(n, stop, expected) then (n, Error)
    else var (a, reply) := OrderedCommand(n.agent, stop, e); (n.(agent := a), reply)
  }

  function RecoveryStopCrash(n: Node, stop: Command, expected: Checkpoint, cut: Cut, e: Env, lease: bool): Node {
    if stop.revision <= Revision(expected.command) || !StillReviewed(n, stop, expected)
    then n.(agent := Boot(n.agent, lease))
    else n.(agent := Boot(Interrupted(n.agent, stop, cut, e), lease))
  }

  /**
    The Stop becomes the Agent's command exactly when the reviewed checkpoint, or this very Stop, is
    still there; otherwise nothing at all changes. In particular no later command is ever undone.
  */
  lemma StopTakesEffectIffReviewed(n: Node, stop: Command, expected: Checkpoint, e: Env)
    requires WellNumbered(stop, expected)
    ensures var t := RecoveryStop(n, stop, expected, e).0;
            var now := CheckpointOf(n);
            var reviewed := now == expected || now == Checkpoint(Some(stop), expected.revision, expected.payload);
            && (reviewed <==>
                  t.agent.receipt.Some? && t.agent.receipt.value.command == stop
                  && t.applied.revision == expected.revision && t.applied.payload == expected.payload)
            && (!reviewed ==> t == n && RecoveryStop(n, stop, expected, e).1 == Error)
            && (Revision(CheckpointOf(n).command) > stop.revision ==> t == n)
  {
  }

  // ---------------------------------------------------------------- the Hub's side

  datatype HubConfig = HubConfig(revision: nat, payload: Payload, applied: nat)

  /** What the review fingerprint covers on the Hub. */
  datatype Local = Local(binding: nat, enabled: bool, command: Option<Command>, commandApplied: nat, config: HubConfig)

  datatype Journal = Journal(stop: Command, expected: Checkpoint, mark: Local, complete: bool, rebased: nat)
  datatype Hub = Hub(local: Local, journal: Option<Journal>)

  function Max(a: nat, b: nat): nat { if a < b then b else a }

  /** The two histories disagree, so the ordinary delivery could not make progress or would lie. */
  predicate Needed(h: Hub, seen: Checkpoint) {
    var l := h.local;
    || (h.journal.Some? && !h.journal.value.complete)
    || Revision(seen.command) > Revision(l.command)
    || (Revision(seen.command) == Revision(l.command) && seen.command != l.command)
    || l.commandApplied > Revision(seen.command)
    || seen.revision > l.config.revision
    || (seen.revision == l.config.revision && seen.payload != Some(l.config.payload))
    || l.config.applied > seen.revision
  }

  predicate NumbersSpent(h: Hub, seen: Checkpoint) {
    Max(Max(Revision(h.local.command), Revision(seen.command)),
        Max(h.local.config.revision, seen.revision)) + 1 >= REVISION_LIMIT
  }

  /**
    Recovery is called for exactly when one was begun and not finished, or ordinary delivery is stuck: the Agent would
    refuse the Hub's command, or its configuration, or the Hub has an acknowledgement of what the Agent does not hold.
  */
  lemma NeededExactly(h: Hub, n: Node)
    requires h.local.command.Some? && 0 < h.local.command.value.revision < REVISION_LIMIT
    requires h.local.config.revision >= 1
    requires n.agent.receipt.Some? && n.agent.receipt.value.command.id == h.local.command.value.id ==>
               n.agent.receipt.value.command.revision >= h.local.command.value.revision
    ensures var l := h.local;
            Needed(h, CheckpointOf(n)) <==>
              || (h.journal.Some? && !h.journal.value.complete)
              || Judge(n.agent.receipt, l.command.value) == Refuse
              || Admit(n.applied, Envelope(l.config.revision, l.config.payload), true) == Rejected
              || l.commandApplied > (if n.agent.receipt.Some? then n.agent.receipt.value.command.revision else 0)
              || l.config.applied > n.applied.revision
  {
    JudgeExactly(n.agent.receipt, h.local.command.value);
  }

  /** There is a number above both histories unless one of the four in use is the last there is. */
  lemma NumbersSpentExactly(h: Hub, seen: Checkpoint)
    ensures NumbersSpent(h, seen) <==>
              || Revision(h.local.command) >= 0x7FFF_FFFF_FFFF_FFFF || Revision(seen.command) >= 0x7FFF_FFFF_FFFF_FFFF
              || h.local.config.revision >= 0x7FFF_FFFF_FFFF_FFFF || seen.revision >= 0x7FFF_FFFF_FFFF_FFFF
  {
  }

  /** One transaction: the Stop above both histories, the Node disabled, the journal row. */
  function Begun(h: Hub, seen: Checkpoint, freshId: nat): Hub {
    var stop := Command(Max(Revision(h.local.command), Revision(seen.command)) + 1, freshId, Stop);
    var l := h.local.(enabled := false, command := Some(stop), commandApplied := 0);
    Hub(l, Some(Journal(stop, seen, l, false, 0)))
  }

  predicate Unmoved(h: Hub) {
    h.journal.Some? && !h.journal.value.complete && h.local == h.journal.value.mark && !h.local.enabled
  }

  /** What the second, independent look at the Agent must show. */
  datatype Doc = Doc(checkpoint: Checkpoint, running: bool, manualStop: bool, effective: bool)

  predicate Verifies(j: Journal, doc: Doc) {
    && doc.checkpoint == Checkpoint(Some(j.stop), j.expected.revision, j.expected.payload)
    && !doc.running && doc.manualStop && !doc.effective
  }

  function Rebased(h: Hub): nat
    requires h.journal.Some?
  {
    Max(h.local.config.revision, h.journal.value.expected.revision) + 1
  }

  function Completed(h: Hub, newPayload: Payload): Hub
    requires h.journal.Some?
  {
    var l := h.local.(config := HubConfig(Rebased(h), newPayload, 0), commandApplied := Revision(h.local.command));
    Hub(l, Some(h.journal.value.(complete := true, rebased := Rebased(h))))
  }

  /** The journal as the Hub object runs it. */
  class Recovery {
    var local: Local
    var journal: Option<Journal>

    constructor (h: Hub)
      ensures Value() == h
    {
      local, journal := h.local, h.journal;
    }

    function Value(): Hub
      reads this
    {
      Hub(local, journal)
    }

    /** `reviewed` is the local state and checkpoint the operator confirmed. */
    method Begin(reviewed: (Local, Checkpoint), seen: Checkpoint, freshId: nat) returns (ok: bool)
      modifies this
      ensures ok <==> Needed(old(Value()), seen) && !NumbersSpent(old(Value()), seen) && reviewed == (old(local), seen)
      ensures Value() == if ok then Begun(old(Value()), seen, freshId) else old(Value())
      ensures ok ==>
                && journal.Some? && !journal.value.complete && journal.value.expected == seen && !local.enabled
                && local.command == Some(journal.value.stop) && local.commandApplied == 0 && local == journal.value.mark
                && journal.value.stop.action == Stop && journal.value.stop.id == freshId
                && Revision(old(local).command) < journal.value.stop.revision
                && Revision(seen.command) < journal.value.stop.revision
    {
      if NumbersSpent(Value(), seen) || !Needed(Value(), seen) || reviewed != (local, seen) { return false; }
      var ahead := Revision(local.command) < Revision(seen.command);
      var revision := 1 + if ahead then Revision(seen.command) else Revision(local.command);
      var stop := Command(revision, freshId, Stop);
      local := local.(command := Some(stop), commandApplied := 0);
      local := local.(enabled := false);
      journal := Some(Journal(stop, seen, local, false, 0));
      ok := true;
    }

    method Complete(reply: Reply, doc: Doc, newPayload: Payload) returns (ok: bool)
      modifies this
      ensures ok <==>
                && old(journal).Some? && !old(journal).value.complete
                && old(local) == old(journal).value.mark && !old(local).enabled
                && Accepts(old(journal).value.stop, reply)
                && doc.checkpoint.command == Some(old(journal).value.stop)
                && doc.checkpoint.revision == old(journal).value.expected.revision
                && doc.checkpoint.payload == old(journal).value.expected.payload
                && !doc.running && doc.manualStop && !doc.effective
                && old(local).config.revision < 0x7FFF_FFFF_FFFF_FFFF
                && old(journal).value.expected.revision < 0x7FFF_FFFF_FFFF_FFFF
      ensures Value() == if ok then Completed(old(Value()), newPayload) else old(Value())
      ensures ok ==>
                && journal.value.complete && local.commandApplied == Revision(local.command)
                && local.config == HubConfig(journal.value.rebased, newPayload, 0)
                && old(local).config.revision < journal.value.rebased
                && journal.value.expected.revision < journal.value.rebased
    {
      if journal.None? || journal.value.complete || local != journal.value.mark || local.enabled { return false; }
      if !Accepts(journal.value.stop, reply) || !Verifies(journal.value, doc) { return false; }
      var expected := journal.value.expected.revision;
      var revision := (if local.config.revision < expected then expected else local.config.revision) + 1;
      if revision >= REVISION_LIMIT { return false; }
      local := local.(config := HubConfig(revision, newPayload, 0));
      local := local.(commandApplied := Revision(local.command));
      journal := Some(journal.value.(complete := true, rebased := revision));
      ok := true;
    }
  }

  // ---------------------------------------------------------------- runs of a recovery

  /**
    `lost` are the requests of the forgotten Hub history that may still arrive, any number of times;
    replies and state documents may arrive late as well.
  */
  datatype Sys = Sys(hub: Hub, node: Node, lostCommands: set<Command>, lostStates: set<Envelope>,
                     replies: set<Reply>, docs: set<Doc>)

  datatype Step =
    | AgentMoves(step: D.Step)
    | StopArrives(env: Env)
    | StopCutShort(cut: Cut, env: Env, lease: bool)
    | AgentRead(lease: bool)
    | HubDisturbed(after: Local)
    | HubCompletes(reply: Reply, doc: Doc, newPayload: Payload)

  predicate Enabled(s: Sys, step: Step) {
    match step
    case AgentMoves(move) =>
      (D.Command(move).Some? ==> D.Command(move).value in s.lostCommands)
      && (move.Desire? || move.DesireCrash? ==> move.envelope in s.lostStates)
    case HubDisturbed(_) => s.hub.journal.Some? && !s.hub.journal.value.complete
    case HubCompletes(reply, doc, _) =>
      && Unmoved(s.hub) && reply in s.replies && doc in s.docs
      && Accepts(s.hub.journal.value.stop, reply) && Verifies(s.hub.journal.value, doc)
      && Rebased(s.hub) < REVISION_LIMIT
    case _ => s.hub.journal.Some?
  }

  function Next(s: Sys, step: Step): Sys
    requires Enabled(s, step)
  {
    match step
    case AgentMoves(move) => s.(node := D.Next(s.node, move))
    case StopArrives(env) =>
      var j := s.hub.journal.value;
      var (node, reply) := RecoveryStop(s.node, j.stop, j.expected, env);
      s.(node := node, replies := s.replies + {reply})
    case StopCutShort(cut, env, lease) =>
      var j := s.hub.journal.value;
      s.(node := RecoveryStopCrash(s.node, j.stop, j.expected, cut, env, lease))
    case AgentRead(lease) =>
      var a := s.node.agent;
      s.(docs := s.docs + {Doc(CheckpointOf(s.node), a.running, ManualStop(a), Effective(a, lease))})
    case HubDisturbed(after) => s.(hub := s.hub.(local := after))
    case HubCompletes(_, _, newPayload) => s.(hub := Completed(s.hub, newPayload))
  }

  /** The recovery number lies above everything the lost history can still deliver. */
  predicate LostBelow(s: Sys, stop: nat, config: nat) {
    (forall c :: c in s.lostCommands ==> c.revision < stop) && (forall e :: e in s.lostStates ==> e.revision <= config)
  }

  /** Where a run begins: just after the Hub's transaction, the Agent within what the lost history allows. */
  predicate Start(s: Sys, before: Hub, seen: Checkpoint, freshId: nat) {
    && s.hub == Begun(before, seen, freshId) && !NumbersSpent(before, seen)
    && (seen.command.Some? ==> seen.command.value.id != freshId)
    && s.replies == {} && s.docs == {}
    && LostBelow(s, s.hub.journal.value.stop.revision, Max(before.local.config.revision, seen.revision))
    && (s.node.agent.receipt.Some? ==> s.node.agent.receipt.value.command.revision < s.hub.journal.value.stop.revision)
    && s.node.applied.revision <= Max(before.local.config.revision, seen.revision)
  }

  predicate StopDone(s: Sys) {
    && s.hub.journal.Some?
    && s.node.agent.receipt == Some(Receipt(s.hub.journal.value.stop, Applied))
    && D.Stopped(s.node.agent)
  }

  predicate Inv(s: Sys, before: Hub, seen: Checkpoint) {
    && s.hub.journal.Some?
    && var j := s.hub.journal.value;
       var bound := Max(before.local.config.revision, seen.revision);
    && j.expected == seen && WellNumbered(j.stop, seen)
    && j.stop.revision == Max(Revision(before.local.command), Revision(seen.command)) + 1
    && j.mark.command == Some(j.stop) && j.mark.config == before.local.config
    && LostBelow(s, j.stop.revision, bound) && s.node.applied.revision <= bound
    && (s.node.agent.receipt.Some? ==>
          s.node.agent.receipt.value.command.revision < j.stop.revision || s.node.agent.receipt.value.command == j.stop)
    && (s.node.agent.receipt == Some(Receipt(j.stop, Applied)) ==> D.Stopped(s.node.agent))
    && (forall k :: k in s.replies && Accepts(j.stop, k) ==> StopDone(s))
    && (j.complete ==>
        StopDone(s) && s.hub.local.command == Some(j.stop) && s.hub.local.commandApplied == j.stop.revision
                       && s.hub.local.config.revision == bound + 1 && j.rebased == bound + 1 && !s.hub.local.enabled)
  }

  lemma MoveKeeps(n: Node, move: D.Step, stop: Command, bound: nat)
    requires stop.action == Stop
    requires D.Command(move).Some? ==> D.Command(move).value.revision < stop.revision
    requires move.Desire? || move.DesireCrash? ==> move.envelope.revision <= bound
    requires n.applied.revision <= bound
    requires n.agent.receipt.Some? ==>
             n.agent.receipt.value.command.revision < stop.revision || n.agent.receipt.value.command == stop
    requires n.agent.receipt == Some(Receipt(stop, Applied)) ==> D.Stopped(n.agent)
    ensures var t := D.Next(n, move);
            && t.applied.revision <= bound
            && (t.agent.receipt.Some? ==>
                t.agent.receipt.value.command.revision < stop.revision || t.agent.receipt.value.command == stop)
            && (n.agent.receipt == Some(Receipt(stop, Applied)) ==>
                t.agent.receipt == n.agent.receipt && D.Stopped(t.agent))
            && (t.agent.receipt == Some(Receipt(stop, Applied)) ==> n.agent.receipt == t.agent.receipt)
  {
    MoveReceipt(n, move);
    if n.agent.receipt == Some(Receipt(stop, Applied)) {
      D.StepKeepsStop(n, move, stop.revision);
    }
    if move.Desire? { ApplyAdvances(n, move.envelope, move.world); }
    if move.DesireCrash? { CrashKeeps(n, move.envelope, move.world, move.applyCut, move.lease); }
  }

  /** Only an ordered command that is not refused touches the receipt. */
  lemma MoveReceipt(n: Node, move: D.Step)
    ensures var t := D.Next(n, move);
            || t.agent.receipt == n.agent.receipt
            || (D.Command(move).Some? && Judge(n.agent.receipt, D.Command(move).value) == Execute
                && t.agent.receipt.Some? && t.agent.receipt.value.command == D.Command(move).value)
  {
    match move
    case Ordered(c, e) => OrderedReceipt(n.agent, c, e);
    case OrderedCrash(c, cut, e, lease) => InterruptedReceipt(n.agent, c, cut, e);
    case Legacy(action, e) => CommandKeepsReceipt(n.agent, action, e);
    case Desire(e, x) => ApplyKeepsReceipt(n, e, x);
    case DesireCrash(e, x, cut, lease) => CrashKeeps(n, e, x, cut, lease);
    case _ =>
  }

  lemma StopKeeps(n: Node, stop: Command, seen: Checkpoint, e: Env)
    requires WellNumbered(stop, seen)
    requires n.agent.receipt == Some(Receipt(stop, Applied)) ==> D.Stopped(n.agent)
    ensures var (t, reply) := RecoveryStop(n, stop, seen, e);
            && t.applied == n.applied
            && (t.agent.receipt == n.agent.receipt || (t.agent.receipt.Some? && t.agent.receipt.value.command == stop))
            && (n.agent.receipt == Some(Receipt(stop, Applied)) ==> t.agent.receipt == n.agent.receipt)
            && (t.agent.receipt == Some(Receipt(stop, Applied)) ==> D.Stopped(t.agent))
            && (Accepts(stop, reply) ==> t.agent.receipt == Some(Receipt(stop, Applied)))
  {
    OrderedReceipt(n.agent, stop, e);
    if Judge(n.agent.receipt, stop) == Execute
      && OrderedCommand(n.agent, stop, e).0.receipt == Some(Receipt(stop, Applied)) {
      D.AppliedStopStops(n.agent, stop, e);
    }
  }

  lemma StopCutKeeps(n: Node, stop: Command, seen: Checkpoint, cut: Cut, e: Env, lease: bool)
    requires WellNumbered(stop, seen)
    requires n.agent.receipt == Some(Receipt(stop, Applied)) ==> D.Stopped(n.agent)
    ensures var t := RecoveryStopCrash(n, stop, seen, cut, e, lease);
            && t.applied == n.applied
            && (t.agent.receipt == n.agent.receipt || (t.agent.receipt.Some? && t.agent.receipt.value.command == stop))
            && (n.agent.receipt == Some(Receipt(stop, Applied)) ==> t.agent.receipt == n.agent.receipt)
            && (t.agent.receipt == Some(Receipt(stop, Applied)) ==> D.Stopped(t.agent))
  {
    InterruptedReceipt(n.agent, stop, cut, e);
  }

  lemma StepKeeps(s: Sys, step: Step, before: Hub, seen: Checkpoint)
    requires Inv(s, before, seen) && Enabled(s, step)
    ensures Inv(Next(s, step), before, seen)
  {
    var j := s.hub.journal.value;
    match step
    case AgentMoves(move) =>
      MoveKeeps(s.node, move, j.stop, Max(before.local.config.revision, seen.revision));
    case StopArrives(env) => StopKeeps(s.node, j.stop, seen, env);
    case StopCutShort(cut, env, lease) => StopCutKeeps(s.node, j.stop, seen, cut, env, lease);
    case AgentRead(_) =>
    case HubDisturbed(_) =>
    case HubCompletes(reply, _, _) =>
      assert Accepts(j.stop, reply) && reply in s.replies;
  }

  ghost predicate Run(states: seq<Sys>, steps: seq<Step>, before: Hub, seen: Checkpoint, freshId: nat) {
    && |states| == |steps| + 1
    && Start(states[0], before, seen, freshId)
    && forall i :: 0 <= i < |steps| ==> Enabled(states[i], steps[i]) && states[i + 1] == Next(states[i], steps[i])
  }

  lemma {:induction false} RunInvariant(states: seq<Sys>, steps: seq<Step>, before: Hub, seen: Checkpoint,
                                        freshId: nat, n: nat)
    requires Run(states, steps, before, seen, freshId) && n < |states|
    ensures Inv(states[n], before, seen)
    decreases n
  {
    if n > 0 {
      RunInvariant(states, steps, before, seen, freshId, n - 1);
      StepKeeps(states[n - 1], steps[n - 1], before, seen);
    }
  }

  /**
    When the journal shows the recovery as complete, Hub and Agent hold the same applied Stop,
    numbered above both histories, the Agent is stopped for good, the Node is disabled, and the
    configuration the Hub will offer next is numbered above everything either side has.
  */
  lemma RecoveryAgrees(states: seq<Sys>, steps: seq<Step>, before: Hub, seen: Checkpoint, freshId: nat, n: nat)
    requires Run(states, steps, before, seen, freshId) && n < |states|
    requires states[n].hub.journal.Some? && states[n].hub.journal.value.complete
    ensures var s := states[n];
            var stop := s.hub.journal.value.stop;
            && s.hub.local.command == Some(stop) && s.hub.local.commandApplied == stop.revision
            && s.node.agent.receipt == Some(Receipt(stop, Applied))
            && D.Stopped(s.node.agent) && !s.hub.local.enabled
            && stop.revision > Revision(before.local.command) && stop.revision > Revision(seen.command)
            && s.hub.local.config.revision > before.local.config.revision
            && s.hub.local.config.revision > s.node.applied.revision
  {
    RunInvariant(states, steps, before, seen, freshId, n);
  }

  /** A Stop that reaches the reviewed Agent, or the Agent that has it already, is carried out and acknowledged. */
  lemma StopCarriedOut(n: Node, stop: Command, seen: Checkpoint, e: Env)
    requires WellNumbered(stop, seen) && StillReviewed(n, stop, seen) && e.statsOk
    requires n.agent.receipt == Some(Receipt(stop, Applied)) ==> D.Stopped(n.agent)
    ensures var (t, reply) := RecoveryStop(n, stop, seen, e);
            && t.applied == n.applied && t.agent.receipt == Some(Receipt(stop, Applied)) && D.Stopped(t.agent)
            && Accepts(stop, reply)
  {
    JudgeExactly(n.agent.receipt, stop);
    StopKeeps(n, stop, seen, e);
    if Judge(n.agent.receipt, stop) == Execute { CommandExactly(Begin(n.agent, stop), Stop, e); }
  }

  /**
    From any reachable state in which nothing moved on the Hub and the Agent still has the reviewed checkpoint, or the
    Stop itself, one undisturbed round completes the recovery: the Stop, the second look, and the Hub's transaction.
  */
  lemma OneRoundRecovers(states: seq<Sys>, steps: seq<Step>, before: Hub, seen: Checkpoint, freshId: nat, n: nat,
                         env: Env, lease: bool, newPayload: Payload)
    requires Run(states, steps, before, seen, freshId) && n < |states| && env.statsOk
    requires states[n].hub.journal.Some? && !states[n].hub.journal.value.complete
    requires states[n].hub.local == states[n].hub.journal.value.mark && !states[n].hub.local.enabled
    requires var j, now := states[n].hub.journal.value, CheckpointOf(states[n].node);
             now == j.expected || now == Checkpoint(Some(j.stop), j.expected.revision, j.expected.payload)
    ensures var s := states[n];
            var read := Next(Next(s, StopArrives(env)), AgentRead(lease));
            var reply := RecoveryStop(s.node, s.hub.journal.value.stop, s.hub.journal.value.expected, env).1;
            var doc := Doc(CheckpointOf(read.node), read.node.agent.running, ManualStop(read.node.agent),
                           Effective(read.node.agent, lease));
            && Enabled(read, HubCompletes(reply, doc, newPayload))
            && Next(read, HubCompletes(reply, doc, newPayload)).hub.journal.value.complete
  {
    RunInvariant(states, steps, before, seen, freshId, n);
    var s := states[n];
    StopCarriedOut(s.node, s.hub.journal.value.stop, seen, env);
    assert !NumbersSpent(before, seen) by { assert Start(states[0], before, seen, freshId); }
    assert s.hub.local.config == before.local.config;
  }

  /** The assumption is needed: a lost Start numbered above the recovery Stop undoes it unless the engine refuses it. */
  lemma LostStartAboveUndoes(n: Node, stop: Command, start: Command, e: Env)
    requires n.agent.receipt == Some(Receipt(stop, Applied)) && stop.action == Stop && D.Stopped(n.agent)
    requires start.action != Stop && stop.revision < start.revision < REVISION_LIMIT && start.id != stop.id
    ensures D.Stopped(OrderedCommand(n.agent, start, e).0) <==> !D.EngineAnswers(e)
  {
    D.LaterStart(n.agent, start, e);
  }
}
