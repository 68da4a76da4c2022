/** An applied ordered Stop is durable: nothing but a later ordered Start or Restart runs Xray again. */
module DurableStop {
  import opened Counters
  import opened Wrappers
  import opened NodeAgent
  import opened DesiredState

  datatype Step =
    | Ordered(command: Command, env: Env)
    | OrderedCrash(command: Command, cut: Cut, env: Env, lease: bool)
    | Legacy(action: Action, env: Env)
    | Desire(envelope: Envelope, world: World)
    | DesireCrash(envelope: Envelope, world: World, applyCut: ApplyCut, lease: bool)
    | Maintain(expired: bool, settled: bool, env: Env, delta: map<nat, Pair>)
    | LeaseFence
    | LeaseGranted(expired: bool, env: Env)
    | Restart(lease: bool)
    | ProcessDies

  /** Maintenance: reconcile the intent, then start a wanted core. */
  function Maintained(a: Agent, expired: bool, settled: bool, e: Env): Agent {
    Flush(Reconcile(a, expired, e), settled, e)
  }

  /** A renewed lease reconciles, then starts the core if the intent allows it. */
  function Granted(a: Agent, expired: bool, e: Env): Agent {
    var b := Reconcile(a, expired, e);
    if Effective(b, e.leaseAtCheck) && (!b.running || b.appliedHash != Some(e.hash))
    then EngineApply(b, true, false, e).0 else b
  }

  /** The engine and the lease answer well throughout. */
  predicate Cooperative(e: Env) {
    && e.leaseAtEntry && e.leaseAtCheck && e.leaseAtSpawn && e.built && e.valid && e.statsOk && e.portFree
    && e.spawns && e.survives && e.aliveAtResult
  }

  /**
    Convergence: from any state at all, one undisturbed pass of maintenance, or one renewed lease, has the core up with
    the current configuration if and only if that is what was durably intended.
  */
  lemma MaintenanceConverges(a: Agent, settled: bool, e: Env)
    requires Cooperative(e) && (a.running || settled)
    ensures Maintained(a, false, settled, e).running == Intended(a) == Maintained(a, false, settled, e).wants
    ensures Granted(a, false, e).running == Intended(a) == Granted(a, false, e).wants
    ensures Intended(a) ==>
              && Maintained(a, false, settled, e).appliedHash == Some(e.hash)
              && Granted(a, false, e).appliedHash == Some(e.hash)
  {
    ReconcileExactly(a, false, e);
    FlushExactly(Reconcile(a, false, e), settled, e);
    StartExactly(Reconcile(a, false, e), false, e);
  }

  function Next(n: Node, step: Step): Node {
    match step
    case Ordered(c, e) => n.(agent := OrderedCommand(n.agent, c, e).0)
    case OrderedCrash(c, cut, e, lease) => n.(agent := Boot(Interrupted(n.agent, c, cut, e), lease))
    case Legacy(action, e) => n.(agent := LegacyCommand(n.agent, action, e).0)
    case Desire(envelope, x) => Apply(n, envelope, x).0
    case DesireCrash(envelope, x, cut, lease) => ApplyInterrupted(n, envelope, x, cut, lease)
    case Maintain(expired, settled, e, delta) =>
      n.(agent := Maintained(n.agent, expired, settled, e), tables := Sampled(n.tables, delta))
    case LeaseFence => n.(agent := Paused(n.agent))
    case LeaseGranted(expired, e) => n.(agent := Granted(n.agent, expired, e))
    case Restart(lease) => n.(agent := Boot(n.agent, lease))
    case ProcessDies => n.(agent := n.agent.(running := false))
  }

  function Command(step: Step): Option<Command> {
    match step
    case Ordered(c, _) => Some(c)
    case OrderedCrash(c, _, _, _) => Some(c)
    case _ => None
  }

  /** Paused for good: the core is down, nobody wants it, and the durable intent says so. */
  predicate Stopped(a: Agent) {
    a.receipt.Some? && ManualStop(a) && !a.running && !a.wants
  }

  /** The accepted command is the Stop numbered `r`, or a Stop after it. */
  predicate HoldsStop(a: Agent, r: nat) {
    a.receipt.Some? && a.receipt.value.command.action == Stop && r <= a.receipt.value.command.revision
  }

  /** An applied ordered Stop leaves the Agent stopped. */
  lemma AppliedStopStops(a: Agent, c: NodeAgent.Command, e: Env)
    requires c.action == Stop && Judge(a.receipt, c) == Execute
    requires OrderedCommand(a, c, e).0.receipt == Some(Receipt(c, Applied))
    ensures Stopped(OrderedCommand(a, c, e).0) && HoldsStop(OrderedCommand(a, c, e).0, c.revision)
  {
  }

  /**
    Even a Stop whose final traffic sample failed is durable intent: it is retried, never undone; and so is one cut
    by a crash any time after its intent was written.
  */
  lemma FailedStopIsStillIntended(a: Agent, c: NodeAgent.Command, e: Env, cut: Cut, lease: bool)
    requires c.action == Stop && Judge(a.receipt, c) == Execute
    ensures ManualStop(OrderedCommand(a, c, e).0) && !OrderedCommand(a, c, e).0.wants
    ensures cut != AfterReceipt ==>
              var b := Boot(Interrupted(a, c, cut, e), lease); ManualStop(b) && !b.wants && !b.running
  {
  }

  predicate StartsNothingNewer(step: Step, r: nat) {
    Command(step).Some? ==> Command(step).value.action == Stop || Command(step).value.revision <= r
  }

  lemma OrderedKeeps(a: Agent, c: NodeAgent.Command, e: Env, cut: Cut, lease: bool, r: nat)
    requires Stopped(a) && HoldsStop(a, r) && (c.action == Stop || c.revision <= r)
    ensures Stopped(OrderedCommand(a, c, e).0) && HoldsStop(OrderedCommand(a, c, e).0, r)
    ensures Stopped(Boot(Interrupted(a, c, cut, e), lease)) && HoldsStop(Boot(Interrupted(a, c, cut, e), lease), r)
  {
    if Judge(a.receipt, c) == Execute {
      assert c.action == Stop;
    }
  }

  /** A core that is down and unwanted stays so through the rollback of a node that was so before. */
  lemma RollbackKeepsStop(n: Node, now: Node, snap: Option<Node>, x: World)
    requires Stopped(n.agent) && Stopped(now.agent) && (snap.Some? ==> ManualStop(snap.value.agent))
    ensures Stopped(RolledBack(n, now, snap, x).0.agent)
  {
  }

  lemma StagesKeepStop(n: Node, e: Envelope, x: World)
    requires Stopped(n.agent)
    ensures Stopped(Reconciled(n, x).agent)
    ensures !WillRun(n, e.payload, x) && Quiesced(n, e.payload, x).1
    ensures Stopped(Quiesced(n, e.payload, x).0.agent)
    ensures forall q: Node :: Launched(q, false, x).0 == q && Replaced(q, e.payload).agent == q.agent
  {
  }

  lemma DesireKeeps(n: Node, e: Envelope, x: World)
    requires Stopped(n.agent)
    ensures Stopped(Apply(n, e, x).0.agent) && Apply(n, e, x).0.agent.receipt == n.agent.receipt
  {
    ApplyKeepsReceipt(n, e, x);
    StagesKeepStop(n, e, x);
    if Admit(n.applied, e, x.staged) == Proceed {
      var quiet := Quiesced(n, e.payload, x).0;
      RollbackKeepsStop(n, quiet, Some(quiet), x);
      RollbackKeepsStop(n, Replaced(quiet, e.payload), Some(quiet), x);
    }
  }

  lemma MaintenanceKeeps(a: Agent, expired: bool, settled: bool, e: Env)
    requires Stopped(a)
    ensures Stopped(Maintained(a, expired, settled, e)) && Maintained(a, expired, settled, e).receipt == a.receipt
    ensures Stopped(Granted(a, expired, e)) && Granted(a, expired, e).receipt == a.receipt
  {
  }

  lemma StepKeepsStop(n: Node, step: Step, r: nat)
    requires Stopped(n.agent) && HoldsStop(n.agent, r) && StartsNothingNewer(step, r)
    ensures Stopped(Next(n, step).agent) && HoldsStop(Next(n, step).agent, r)
  {
    match step
    case Ordered(c, e) => OrderedKeeps(n.agent, c, e, AfterReceipt, false, r);
    case OrderedCrash(c, cut, e, lease) => OrderedKeeps(n.agent, c, e, cut, lease, r);
    case Legacy(action, e) =>
    case Desire(envelope, x) => DesireKeeps(n, envelope, x);
    case DesireCrash(envelope, x, cut, lease) => CrashKeeps(n, envelope, x, cut, lease);
    case Maintain(expired, settled, e, _) => MaintenanceKeeps(n.agent, expired, settled, e);
    case LeaseFence =>
    case LeaseGranted(expired, e) => MaintenanceKeeps(n.agent, expired, true, e);
    case Restart(lease) =>
    case ProcessDies =>
  }

  function Run(n: Node, steps: seq<Step>): Node
    decreases |steps|
  {
    if steps == [] then n else Run(Next(n, steps[0]), steps[1..])
  }

  /**
    Once the ordered Stop `r` is applied, no interleaving of desired states (applied, rolled back or
    cut by a crash), maintenance, lease grants and fences, legacy calls, delayed or newer Stops,
    delayed older Starts and Agent restarts has Xray running or wanted, as long as no ordered Start
    or Restart numbered above `r` is delivered. The statement covers every prefix of the run.
  */
  lemma {:induction false} StopIsDurable(n: Node, steps: seq<Step>, r: nat)
    requires Stopped(n.agent) && HoldsStop(n.agent, r)
    requires forall i :: 0 <= i < |steps| ==> StartsNothingNewer(steps[i], r)
    ensures forall k :: 0 <= k <= |steps| ==>
            Stopped(Run(n, steps[..k]).agent) && HoldsStop(Run(n, steps[..k]).agent, r)
    decreases |steps|
  {
    if steps != [] {
      var m := Next(n, steps[0]);
      StepKeepsStop(n, steps[0], r);
      StopIsDurable(m, steps[1..], r);
      forall k | 0 < k <= |steps|
        ensures Stopped(Run(n, steps[..k]).agent) && HoldsStop(Run(n, steps[..k]).agent, r)
      {
        assert steps[..k][1..] == steps[1..][..k - 1];
      }
    }
  }

  /** Every check a Start meets from a stopped core passes, up to the spawn itself. */
  predicate EngineAnswers(e: Env) {
    e.leaseAtCheck && e.built && e.valid && e.portFree && e.leaseAtSpawn && e.spawns
  }

  /** A later accepted Start ends the stop if and only if it gets as far as a spawned process. */
  lemma LaterStart(a: Agent, c: NodeAgent.Command, e: Env)
    requires Stopped(a) && c.action != Stop && Judge(a.receipt, c) == Execute
    ensures Stopped(OrderedCommand(a, c, e).0) <==> !EngineAnswers(e)
  {
  }

  /**
    A Start cut by a crash keeps the stop if and only if it was cut before its intent was written, or
    refused before that, or cut after the refusal had taken the intent back.
  */
  lemma CrashedStart(a: Agent, c: NodeAgent.Command, cut: Cut, e: Env, lease: bool)
    requires Stopped(a) && c.action != Stop && Judge(a.receipt, c) == Execute
    ensures var kept := cut == AfterReceipt || !e.leaseAtCheck || (cut == AfterEffect && !EngineAnswers(e));
            && (Stopped(Boot(Interrupted(a, c, cut, e), true)) <==> kept)
            && (ManualStop(Boot(Interrupted(a, c, cut, e), lease)) <==> kept)
  {
  }

  const COLD := Env(true, true, true, true, true, 0, false, true, true, true, true, true, true, true)
  const HALTED :=
    Agent(Some(Receipt(NodeAgent.Command(1, 1, Stop), Applied)), Some(Control(true, true)), true, false, false, None)

  /**
    Such a Start: its configuration is invalid, so the engine would refuse it, but the crash comes
    before the refusal.
  */
  lemma CrashedStartExample()
    ensures var c := NodeAgent.Command(2, 2, Start);
            && Stopped(HALTED) && Stopped(OrderedCommand(HALTED, c, COLD).0)
            && !Stopped(Boot(Interrupted(HALTED, c, AfterIntent, COLD), true))
            && Boot(Interrupted(HALTED, c, AfterIntent, COLD), true).wants
  {
    var c := NodeAgent.Command(2, 2, Start);
    LaterStart(HALTED, c, COLD);
    CrashedStart(HALTED, c, AfterIntent, COLD, true);
  }

  /**
    A Start whose process dies right after it came up is recorded as failed, yet its durable
    intent stays "run": the stop it followed is gone and maintenance will start the core. A failed
    Start keeps the stop if and only if the engine refused it before that.
  */
  lemma FailedStartCanEndStop(a: Agent, c: NodeAgent.Command, e: Env)
    requires Stopped(a) && c.action != Stop && Judge(a.receipt, c) == Execute
    ensures var b := OrderedCommand(a, c, e).0;
            && (b.receipt == Some(Receipt(c, Phase.Failed)) <==> !(EngineAnswers(e) && e.survives && e.aliveAtResult))
            && (EngineAnswers(e) ==> b.control == Some(Control(true, false)) && Effective(b, true))
            && (!EngineAnswers(e) ==> ManualStop(b) && !Effective(b, true))
  {
  }

  // ---------------------------------------------------------------- revisions over the same runs

  /** No step of the Agent moves the applied revision back or gives it another payload. */
  lemma StepAdvances(n: Node, step: Step)
    ensures Advances(n.applied, Next(n, step).applied)
  {
    match step
    case Desire(envelope, x) => ApplyAdvances(n, envelope, x);
    case DesireCrash(envelope, x, cut, lease) => CrashKeeps(n, envelope, x, cut, lease);
    case _ =>
  }

  /** So over any run, with crashes inside applies and commands, the revision never decreases and keeps its payload. */
  lemma {:induction false} RevisionMonotone(n: Node, steps: seq<Step>)
    ensures Advances(n.applied, Run(n, steps).applied)
    decreases |steps|
  {
    if steps != [] {
      StepAdvances(n, steps[0]);
      RevisionMonotone(Next(n, steps[0]), steps[1..]);
    }
  }
}
