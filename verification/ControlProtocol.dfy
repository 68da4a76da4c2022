/**
  Ordered run control over a network that loses, delays, duplicates and reorders, with an Agent
  that may crash between any two commits. Messages stay in `requests` and `replies` for ever, so
  any of them may arrive again at any time.
*/
module ControlProtocol {
  import opened Wrappers
  import opened NodeAgent
  import opened NodeCommands

  /** One execution the Agent began; `applied` when its receipt was committed as applied. */
  datatype Exec = Exec(command: Command, applied: bool)

  datatype Sys = Sys(
    slot: Option<Row>,
    agent: Agent,
    requests: set<Command>,
    replies: set<Reply>,
    recorded: map<nat, Command>,  // history: what the Hub recorded under each revision
    log: seq<Exec>)               // history: what the Agent began to execute

  datatype Step =
    | HubRecord(action: Action, freshId: nat)
    | HubSend
    | HubReply(sent: Command, reply: Reply, error: string)
    | AgentReceive(request: Command, env: Env)
    | AgentCrash(request: Command, cut: Cut, env: Env, lease: bool)
    | AgentOther(after: Agent)

  predicate Initial(s: Sys) {
    s.slot.None? && s.agent.receipt.None? && s.requests == {} && s.replies == {} && s.recorded == map[] && s.log == []
  }

  /** What makes a step possible: messages come from the network, and identities are fresh. */
  predicate Enabled(s: Sys, step: Step) {
    match step
    case HubRecord(_, freshId) => forall r :: r in s.recorded ==> s.recorded[r].id != freshId
    case HubSend => s.slot.Some? && IsPending(s.slot.value)
    case HubReply(sent, reply, _) => s.slot.Some? && sent in s.requests && (reply.Error? || reply in s.replies)
    case AgentReceive(request, _) => request in s.requests
    case AgentCrash(request, _, _, _) => request in s.requests
    case AgentOther(after) => after.receipt == s.agent.receipt
  }

  function Logged(s: Sys, c: Command, after: Agent): seq<Exec> {
    if Judge(s.agent.receipt, c) == Execute
    then s.log + [Exec(c, after.receipt.Some? && after.receipt.value.phase == Applied)]
    else s.log
  }

  function Next(s: Sys, step: Step): Sys
    requires Enabled(s, step)
  {
    match step
    case HubRecord(action, freshId) =>
      var result := Record(s.slot, action, freshId);
      if result.Fresh? then
        s.(slot := Some(result.row), recorded := s.recorded[result.row.command.revision := result.row.command])
      else s
    case HubSend => s.(requests := s.requests + {s.slot.value.command})
    case HubReply(sent, reply, error) => s.(slot := Some(Answered(s.slot.value, sent, reply, error)))
    case AgentReceive(request, env) =>
      var (after, reply) := OrderedCommand(s.agent, request, env);
      s.(agent := after, replies := s.replies + {reply}, log := Logged(s, request, after))
    case AgentCrash(request, cut, env, lease) =>
      var after := Boot(Interrupted(s.agent, request, cut, env), lease);
      s.(agent := after, log := Logged(s, request, after))
    case AgentOther(after) => s.(agent := after)
  }

  ghost predicate Run(states: seq<Sys>, steps: seq<Step>) {
    && |states| == |steps| + 1
    && Initial(states[0])
    && forall i :: 0 <= i < |steps| ==> Enabled(states[i], steps[i]) && states[i + 1] == Next(states[i], steps[i])
  }

  // ---------------------------------------------------------------- the invariant

  predicate Known(s: Sys, c: Command) { c.revision in s.recorded && s.recorded[c.revision] == c }

  predicate HubInv(s: Sys) {
    && (s.slot.None? ==> s.recorded == map[])
    && (s.slot.Some? ==> Known(s, s.slot.value.command))
    && (forall r :: r in s.recorded ==>
          s.slot.Some? && 0 < r <= s.slot.value.command.revision && r < REVISION_LIMIT && s.recorded[r].revision == r)
    && (forall r, q :: r in s.recorded && q in s.recorded && s.recorded[r].id == s.recorded[q].id ==> r == q)
    && (forall c :: c in s.requests ==> Known(s, c))
  }

  /** The receipt is the last logged execution. */
  predicate LogInv(s: Sys) {
    && (s.log == [] <==> s.agent.receipt.None?)
    && (s.log != [] ==>
          var last := s.log[|s.log| - 1];
          last.command == s.agent.receipt.value.command && last.applied == (s.agent.receipt.value.phase == Applied))
    && (forall i :: 0 <= i < |s.log| ==> Known(s, s.log[i].command))
  }

  predicate Ordered(log: seq<Exec>) {
    forall i, j :: 0 <= i < j < |log| ==>
      log[i].command.revision <= log[j].command.revision
      && (log[i].applied ==> log[i].command.revision < log[j].command.revision)
  }

  /** The receipt proves that revision `r` was applied: it is past it, or is it and applied. */
  predicate Past(a: Agent, r: nat) {
    a.receipt.Some? && r <= a.receipt.value.command.revision
    && (r == a.receipt.value.command.revision ==> a.receipt.value.phase == Applied)
  }

  predicate AckInv(s: Sys) {
    && (forall k :: k in s.replies && k.Ack? && k.applied ==> Past(s.agent, k.command.revision))
    && (s.slot.Some? && s.slot.value.applied > 0 ==> Past(s.agent, s.slot.value.applied))
  }

  predicate Inv(s: Sys) { HubInv(s) && LogInv(s) && Ordered(s.log) && AckInv(s) }

  lemma JudgeKeepsOrder(s: Sys, c: Command)
    requires Inv(s) && c in s.requests
    ensures Judge(s.agent.receipt, c) == Execute && s.agent.receipt.Some? ==>
              s.agent.receipt.value.command.revision <= c.revision
              && (s.agent.receipt.value.phase == Applied ==> s.agent.receipt.value.command.revision < c.revision)
  {
  }

  /** An execution, completed or cut short, keeps the invariant as long as its receipt is the logged one. */
  lemma ExecutionKeeps(s: Sys, c: Command, after: Agent, t: Sys)
    requires Inv(s) && c in s.requests && Judge(s.agent.receipt, c) == Execute
    requires after.receipt.Some? && after.receipt.value.command == c
    requires t == s.(agent := after, log := Logged(s, c, after))
    ensures Inv(t)
  {
    JudgeKeepsOrder(s, c);
    var n := |s.log|;
    assert t.log == s.log + [Exec(c, after.receipt.value.phase == Applied)];
    forall i, j | 0 <= i < j < |t.log|
      ensures t.log[i].command.revision <= t.log[j].command.revision
              && (t.log[i].applied ==> t.log[i].command.revision < t.log[j].command.revision)
    {
      if j == n {
        assert s.log[i].command.revision <= s.log[n - 1].command.revision;
      } else {
        assert t.log[i] == s.log[i] && t.log[j] == s.log[j];
      }
    }
    forall r: nat | Past(s.agent, r)
      ensures Past(after, r)
    {
    }
  }

  lemma RecordKeeps(s: Sys, action: Action, freshId: nat)
    requires Inv(s) && Enabled(s, HubRecord(action, freshId))
    ensures Inv(Next(s, HubRecord(action, freshId)))
  {
    var result := Record(s.slot, action, freshId);
    if result.Fresh? {
      var t := Next(s, HubRecord(action, freshId));
      var revision := result.row.command.revision;
      assert revision !in s.recorded;
      assert forall c: Command :: Known(s, c) ==> Known(t, c);
      assert AckInv(t);
    }
  }

  lemma ReplyKeeps(s: Sys, sent: Command, reply: Reply, error: string)
    requires Inv(s) && Enabled(s, HubReply(sent, reply, error))
    ensures Inv(Next(s, HubReply(sent, reply, error)))
  {
    assert Known(s, sent);
  }

  lemma ReplyAdded(s: Sys, reply: Reply)
    requires Inv(s) && (reply.Ack? && reply.applied ==> s.agent.receipt == Some(Receipt(reply.command, Applied)))
    ensures Inv(s.(replies := s.replies + {reply}))
  {
  }

  lemma ReceiveKeeps(s: Sys, request: Command, env: Env)
    requires Inv(s) && Enabled(s, AgentReceive(request, env))
    ensures Inv(Next(s, AgentReceive(request, env)))
  {
    var (after, reply) := OrderedCommand(s.agent, request, env);
    var t := s.(agent := after, log := Logged(s, request, after));
    OrderedReceipt(s.agent, request, env);
    if Judge(s.agent.receipt, request) == Execute {
      ExecutionKeeps(s, request, after, t);
    }
    ReplyAdded(t, reply);
    assert Next(s, AgentReceive(request, env)) == t.(replies := s.replies + {reply});
  }

  lemma CrashKeeps(s: Sys, request: Command, cut: Cut, env: Env, lease: bool)
    requires Inv(s) && Enabled(s, AgentCrash(request, cut, env, lease))
    ensures Inv(Next(s, AgentCrash(request, cut, env, lease)))
  {
    var after := Boot(Interrupted(s.agent, request, cut, env), lease);
    InterruptedReceipt(s.agent, request, cut, env);
    if Judge(s.agent.receipt, request) == Execute {
      assert after.receipt == Some(Receipt(request, Pending));
      ExecutionKeeps(s, request, after, Next(s, AgentCrash(request, cut, env, lease)));
    }
  }

  lemma StepKeeps(s: Sys, step: Step)
    requires Inv(s) && Enabled(s, step)
    ensures Inv(Next(s, step))
  {
    match step
    case HubRecord(action, freshId) => RecordKeeps(s, action, freshId);
    case HubSend =>
    case HubReply(sent, reply, error) => ReplyKeeps(s, sent, reply, error);
    case AgentReceive(request, env) => ReceiveKeeps(s, request, env);
    case AgentCrash(request, cut, env, lease) => CrashKeeps(s, request, cut, env, lease);
    case AgentOther(after) =>
  }

  lemma {:induction false} RunInvariant(states: seq<Sys>, steps: seq<Step>, n: nat)
    requires Run(states, steps) && n < |states|
    ensures Inv(states[n])
    decreases n
  {
    if n > 0 {
      RunInvariant(states, steps, n - 1);
      StepKeeps(states[n - 1], steps[n - 1]);
    }
  }

  // ---------------------------------------------------------------- agreement

  /**
    In every reachable state: executions never go back in revision, what ran under a revision is
    the one command the Hub recorded for it, an applied revision never runs again, and when the
    Hub shows its command as applied the Agent's receipt is exactly that command, applied.
  */
  lemma Agreement(states: seq<Sys>, steps: seq<Step>, n: nat)
    requires Run(states, steps) && n < |states|
    ensures var s := states[n];
            && Ordered(s.log)
            && (forall i :: 0 <= i < |s.log| ==> Known(s, s.log[i].command))
            && (s.slot.Some? && !IsPending(s.slot.value) ==>
                  s.agent.receipt == Some(Receipt(s.slot.value.command, Applied)))
  {
    RunInvariant(states, steps, n);
  }

  /** What the Hub recorded under a revision is never changed. */
  lemma {:induction false} RecordedForGood(states: seq<Sys>, steps: seq<Step>, m: nat, n: nat, r: nat)
    requires Run(states, steps) && m <= n < |states| && r in states[m].recorded
    ensures r in states[n].recorded && states[n].recorded[r] == states[m].recorded[r]
    decreases n - m
  {
    if m < n {
      RecordedForGood(states, steps, m, n - 1, r);
      RunInvariant(states, steps, n - 1);
      assert states[n] == Next(states[n - 1], steps[n - 1]);
    }
  }

  /**
    The latest intent wins over runs. From a recorded intent to the next one the slot holds that action: under the
    identity it had if the action was already unanswered, and under the next revision and the fresh id otherwise.
    The one intent that is refused comes after the last revision there is, and then the slot stays what it was.
  */
  lemma {:induction false} LatestIntentWins(states: seq<Sys>, steps: seq<Step>, m: nat, n: nat)
    requires Run(states, steps) && m < n < |states|
    requires steps[m].HubRecord? && forall k :: m < k < n ==> !steps[k].HubRecord?
    ensures states[n].slot.Some?
    ensures var was, action := states[m].slot, steps[m].action;
            var row := states[n].slot.value;
            if was.Some? && was.value.command.action == action && was.value.command.revision != was.value.applied then
              row.command == was.value.command && (n == m + 1 ==> row == was.value)
            else if was.Some? && was.value.command.revision == 0x7FFF_FFFF_FFFF_FFFF then
              row.command == was.value.command && (n == m + 1 ==> row == was.value)
            else
              && row.command.revision == (if was.Some? then was.value.command.revision + 1 else 1)
              && row.command.id == steps[m].freshId && row.command.action == action
              && (n == m + 1 ==> row.command.revision != row.applied)
    decreases n - m
  {
    assert states[n] == Next(states[n - 1], steps[n - 1]);
    if m + 1 < n {
      LatestIntentWins(states, steps, m, n - 1);
      CommandHeld(states[n - 1], steps[n - 1]);
    } else {
      RunInvariant(states, steps, m);
      if states[m].slot.Some? { AppliedBehind(states, steps, m); }
      RecordedIntent(states[m].slot, steps[m].action, steps[m].freshId);
    }
  }

  /** Nothing but a recorded intent moves the slot to another command. */
  lemma CommandHeld(s: Sys, step: Step)
    requires Enabled(s, step) && !step.HubRecord? && s.slot.Some?
    ensures var t := Next(s, step); t.slot.Some? && t.slot.value.command == s.slot.value.command
  {
  }

  /** No revision is acknowledged that was never recorded. */
  lemma {:induction false} AppliedBehind(states: seq<Sys>, steps: seq<Step>, n: nat)
    requires Run(states, steps) && n < |states| && states[n].slot.Some?
    ensures states[n].slot.value.applied <= states[n].slot.value.command.revision
  {
    RunInvariant(states, steps, n);
    var s := states[n];
    if s.slot.value.applied > 0 {
      assert Past(s.agent, s.slot.value.applied);
      assert Known(s, s.log[|s.log| - 1].command);
    }
  }

  /** The Agent's two conflict refusals are never taken: one revision has one identity. */
  lemma NoIdentityConflict(states: seq<Sys>, steps: seq<Step>, n: nat, c: Command)
    requires Run(states, steps) && n < |states| && c in states[n].requests && states[n].agent.receipt.Some?
    ensures var held := states[n].agent.receipt.value.command;
            (c.revision == held.revision <==> c.id == held.id) && (c.revision == held.revision ==> c == held)
  {
    RunInvariant(states, steps, n);
    var s := states[n];
    assert Known(s, s.log[|s.log| - 1].command);
  }

  /** An Agent and a process that cooperate throughout one call. */
  predicate Willing(e: Env) {
    && e.leaseAtCheck && e.leaseAtSpawn && e.built && e.valid && e.statsOk && e.portFree
    && e.spawns && e.survives && e.aliveAtResult && e.aliveAtReply
  }

  /** The command was applied and its reply lost, and the core has left the commanded state since. */
  predicate LeftApplied(a: Agent, c: Command) {
    a.receipt == Some(Receipt(c, Applied)) && a.running != Expected(c.action)
  }

  /** The Hub sends its pending command, the Agent handles it, the reply arrives. */
  function Delivered(s: Sys, env: Env): Sys
    requires s.slot.Some? && IsPending(s.slot.value)
  {
    var c := s.slot.value.command;
    var sent := Next(s, HubSend);
    Next(Next(sent, AgentReceive(c, env)), HubReply(c, OrderedCommand(sent.agent, c, env).1, ""))
  }

  predicate Settled(s: Sys) {
    s.slot.Some? && !IsPending(s.slot.value) && s.agent.receipt == Some(Receipt(s.slot.value.command, Applied))
  }

  /**
    One undisturbed delivery settles any reachable pending command on both sides, if and only if the
    Agent is not left with the command applied and its core out of the commanded state. In that one case
    the repetition is answered from the receipt, which no longer tells the truth about the core.
  */
  lemma UndisturbedDelivery(states: seq<Sys>, steps: seq<Step>, n: nat, env: Env)
    requires Run(states, steps) && n < |states|
    requires states[n].slot.Some? && IsPending(states[n].slot.value) && Willing(env)
    ensures Settled(Delivered(states[n], env)) <==> !LeftApplied(states[n].agent, states[n].slot.value.command)
  {
    RunInvariant(states, steps, n);
    var c := states[n].slot.value.command;
    StepKeeps(states[n], HubSend);
    JudgePending(Next(states[n], HubSend), c);
    if Judge(states[n].agent.receipt, c) == Execute { WillingExecution(states[n].agent, c, env); }
  }

  lemma WillingExecution(a: Agent, c: Command, env: Env)
    requires Willing(env) && Judge(a.receipt, c) == Execute
    ensures var (b, reply) := OrderedCommand(a, c, env);
            b.receipt == Some(Receipt(c, Applied)) && Accepts(c, reply)
  {
  }

  /** No environment at all helps there: the replay touches nothing and is not accepted. */
  lemma LeftAppliedStays(states: seq<Sys>, steps: seq<Step>, n: nat, env: Env)
    requires Run(states, steps) && n < |states|
    requires states[n].slot.Some? && IsPending(states[n].slot.value)
    requires states[n].slot.value.command.action != Stop && LeftApplied(states[n].agent, states[n].slot.value.command)
    ensures var t := Delivered(states[n], env);
            IsPending(t.slot.value) && LeftApplied(t.agent, t.slot.value.command)
  {
    RunInvariant(states, steps, n);
    var c := states[n].slot.value.command;
    StepKeeps(states[n], HubSend);
    JudgePending(Next(states[n], HubSend), c);
  }

  const IDLE := Agent(None, None, true, false, false, None)
  const WILLING := Env(true, true, true, true, true, 0, true, true, true, true, true, true, true, true)
  const START := Command(1, 7, Start)

  /** Such a run: a Start is applied, its reply is lost, and the process dies. */
  lemma LostReplyThenDeath()
    ensures exists states: seq<Sys>, steps: seq<Step> ::
              Run(states, steps) && |states| == 5
              && states[4].slot.Some? && IsPending(states[4].slot.value)
                 && LeftApplied(states[4].agent, states[4].slot.value.command)
  {
    var s0 := Sys(None, IDLE, {}, {}, map[], []);
    var s1 := Next(s0, HubRecord(Start, 7));
    var s2 := Next(s1, HubSend);
    assert s1.slot == Some(Row(START, 0, ""));
    assert START in s2.requests;
    WillingExecution(IDLE, START, WILLING);
    var s3 := Next(s2, AgentReceive(START, WILLING));
    assert s3.agent.receipt == Some(Receipt(START, Applied));
    var dead := s3.agent.(running := false);
    var s4 := Next(s3, AgentOther(dead));
    var states := [s0, s1, s2, s3, s4];
    var steps := [HubRecord(Start, 7), HubSend, AgentReceive(START, WILLING), AgentOther(dead)];
    assert Run(states, steps);
    assert LeftApplied(states[4].agent, states[4].slot.value.command);
  }

  /** The pending command is never refused as stale. */
  lemma JudgePending(s: Sys, c: Command)
    requires Inv(s) && s.slot.Some? && s.slot.value.command == c && c in s.requests
    ensures Judge(s.agent.receipt, c) != Refuse
  {
    if s.agent.receipt.Some? {
      assert Known(s, s.log[|s.log| - 1].command);
    }
  }
}
