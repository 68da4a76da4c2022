/**
  The run control of a Node Agent: the high-water receipt of ordered Hub commands, the durable
  run intent, and the engine that owns the Xray process. Every transaction is one step; a crash
  may fall after any of them and leaves exactly the durable part.
*/
module NodeAgent {
  import opened Wrappers

  datatype Action = Start | Stop | Restart
  datatype Command = Command(revision: nat, id: nat, action: Action)
  datatype Phase = Pending | Applied | Failed
  datatype Receipt = Receipt(command: Command, phase: Phase)
  datatype Control = Control(desired: bool, manualStop: bool)

  /** `receipt` and `control` are durable; the rest dies with the Agent process. */
  datatype Agent = Agent(
    receipt: Option<Receipt>,
    control: Option<Control>,
    autostart: bool,
    running: bool,
    wants: bool,
    appliedHash: Option<nat>)

  /**
    What the outside world answers during one call, in the order the code asks. The lease answers
    stand for "the lease allows running and no trip is recorded" at each place that asks.
  */
  datatype Env = Env(
    leaseAtEntry: bool, leaseAtCheck: bool, leaseAtSpawn: bool, leaseAtRespawn: bool,
    built: bool, hash: nat, valid: bool, statsOk: bool, portFree: bool,
    spawns: bool, respawns: bool, survives: bool, aliveAtResult: bool, aliveAtReply: bool)

  datatype Reply = Error | Ack(command: Command, applied: bool, running: bool, duplicate: bool)

  function Desired(a: Agent): bool { if a.control.Some? then a.control.value.desired else a.autostart }

  function ManualStop(a: Agent): bool { a.control.Some? && a.control.value.manualStop }

  function Effective(a: Agent, lease: bool): bool { Desired(a) && !ManualStop(a) && lease }

  function Observed(a: Agent, alive: bool): Agent { a.(running := a.running && alive) }

  // ---------------------------------------------------------------- the engine

  /** The old process, if any, is down: start the new generation, or put the previous one back. */
  function Relaunched(a: Agent, start: bool, e: Env): (Agent, bool) {
    if !(start || a.running || a.wants) then (a.(appliedHash := None, wants := false), true)
    else if e.leaseAtSpawn && e.spawns then
      var up := a.(running := e.survives, wants := e.survives,
                   appliedHash := if e.survives then Some(e.hash) else None);
      (Observed(up, e.aliveAtResult), true)
    else
      var back := a.running && e.leaseAtRespawn && e.respawns;
      (a.(running := back, appliedHash := if back then a.appliedHash else None), false)
  }

  /** `CoreEngine.apply`: nothing to do, nothing possible, or a relaunch. */
  function EngineApply(a: Agent, start: bool, force: bool, e: Env): (Agent, bool) {
    if !e.built then (a, false)
    else if !force && a.running && a.appliedHash == Some(e.hash) then (Observed(a, e.aliveAtResult), true)
    else if !e.valid || (a.running && !e.statsOk) || (!a.running && !e.portFree) then (a, false)
    else Relaunched(a, start, e)
  }

  /** `CoreEngine.command('stop')`: refused when the final traffic sample of a running core fails. */
  function EngineStop(a: Agent, e: Env): (Agent, bool) {
    if a.running && !e.statsOk then (a, false)
    else (a.(running := false, wants := false, appliedHash := None), true)
  }

  /** Maintenance: start a wanted core again, unless it was started a moment ago. */
  function Flush(a: Agent, settled: bool, e: Env): Agent {
    if !a.wants || (!a.running && !settled) then a else EngineApply(a, true, false, e).0
  }

  // ---------------------------------------------------------------- run commands

  /** The durable intent a command writes before it touches Xray. */
  function Intent(a: Agent, action: Action): Agent {
    if action == Stop then a.(control := Some(Control(Desired(a), true)), wants := false)
    else a.(control := Some(Control(true, false)))
  }

  function CommandLocked(a: Agent, action: Action, e: Env): (Agent, bool) {
    if action == Stop then EngineStop(Intent(a, action), e)
    else if !e.leaseAtCheck then (a, false)
    else
      var (b, ok) := EngineApply(Intent(a, action), true, action == Restart, e);
      if ok then (b, true)
      else (b.(control := Some(Control(Desired(a), ManualStop(a))), wants := Effective(a, e.leaseAtEntry)), false)
  }

  /** The legacy endpoint is closed as soon as the first ordered command was accepted. */
  function LegacyCommand(a: Agent, action: Action, e: Env): (Agent, bool) {
    if a.receipt.Some? then (a, false) else CommandLocked(a, action, e)
  }

  datatype Verdict = Execute | Replay | Refuse

  function Judge(receipt: Option<Receipt>, c: Command): Verdict {
    if !(0 < c.revision < REVISION_LIMIT) then Refuse
    else if receipt.None? then Execute
    else
      var previous := receipt.value.command;
      if c.revision < previous.revision then Refuse
      else if c.revision == previous.revision then
        if c.id != previous.id || c.action != previous.action then Refuse
        else if receipt.value.phase == Applied then Replay
        else Execute
      else if c.id == previous.id then Refuse
      else Execute
  }

  function Begin(a: Agent, c: Command): Agent { a.(receipt := Some(Receipt(c, Pending))) }

  function Finish(a: Agent, c: Command, phase: Phase): Agent { a.(receipt := Some(Receipt(c, phase))) }

  function Expected(action: Action): bool { action != Stop }

  function AckOf(a: Agent, duplicate: bool): Reply
    requires a.receipt.Some?
  {
    var r := a.receipt.value;
    Ack(r.command, r.phase == Applied && a.running == Expected(r.command.action), a.running, duplicate)
  }

  function Executed(a: Agent, c: Command, e: Env): (Agent, bool) {
    var (b, ok) := CommandLocked(Begin(a, c), c.action, e);
    var reached := ok && b.running == Expected(c.action);
    (Finish(b, c, if reached then Applied else Failed), reached)
  }

  function OrderedCommand(a: Agent, c: Command, e: Env): (Agent, Reply) {
    match Judge(a.receipt, c)
    case Refuse => (a, Error)
    case Replay => var b := Observed(a, e.aliveAtReply); (b, AckOf(b, true))
    case Execute =>
      var (b, reached) := Executed(a, c, e);
      if !reached then (b, Error)
      else var d := Observed(b, e.aliveAtReply); (d, AckOf(d, false))
  }

  // ---------------------------------------------------------------- crashes and restarts

  /** Where an ordered command can be cut: each point follows a commit or an effect on Xray. */
  datatype Cut = AfterReceipt | AfterIntent | AfterEffect

  /** A restarted Agent owns no process and reads its intent back. */
  function Boot(a: Agent, lease: bool): Agent {
    a.(running := false, appliedHash := None, wants := Effective(a, lease))
  }

  function Interrupted(a: Agent, c: Command, cut: Cut, e: Env): Agent {
    if Judge(a.receipt, c) != Execute then a
    else
      var b := Begin(a, c);
      if cut == AfterReceipt || (c.action != Stop && !e.leaseAtCheck) then b
      else if cut == AfterIntent then Intent(b, c.action)
      else CommandLocked(b, c.action, e).0
  }

  /** `reconcile_control`: recompute the wish; an expired lease pauses, an unwanted core is stopped. */
  function Reconcile(a: Agent, expired: bool, e: Env): Agent {
    var b := a.(wants := Effective(a, e.leaseAtEntry));
    if expired then Paused(b)
    else if !b.wants && b.running then EngineStop(b, e).0
    else b
  }

  /** The lease fence stops Xray whether or not the final sample could be taken. */
  function Paused(a: Agent): Agent {
    if a.running then a.(running := false, wants := false, appliedHash := None) else a.(wants := false)
  }

  /** The engine and the run intent never touch the receipt. */
  lemma CommandKeepsReceipt(a: Agent, action: Action, e: Env)
    ensures CommandLocked(a, action, e).0.receipt == a.receipt
  {
  }

  /** Only an executed command becomes the receipt, applied exactly when the reply may say so. */
  lemma OrderedReceipt(a: Agent, c: Command, e: Env)
    ensures var (b, reply) := OrderedCommand(a, c, e);
            && (Judge(a.receipt, c) == Execute ==>
                b.receipt.Some? && b.receipt.value.command == c && b.receipt.value.phase != Pending)
            && (Judge(a.receipt, c) != Execute ==> b.receipt == a.receipt)
            && (reply.Ack? ==> b.receipt.Some? && b.receipt.value.command == c == reply.command)
            && (reply.Ack? && reply.applied ==> b.receipt.value.phase == Applied)
            && (Judge(a.receipt, c) == Execute ==>
                  var (ran, ok) := CommandLocked(Begin(a, c), c.action, e);
                  b.receipt.value.phase == Applied <==> ok && (ran.running <==> c.action != Stop))
  {
    if Judge(a.receipt, c) == Execute {
      CommandKeepsReceipt(Begin(a, c), c.action, e);
    }
  }

  // ---------------------------------------------------------------- exactly what each call comes to

  /** The run intent the operator last left, which is all that decides whether the core should be up. */
  predicate Intended(a: Agent) {
    if a.control.Some? then a.control.value.desired && !a.control.value.manualStop else a.autostart
  }

  /** The core is up and runs this very configuration. */
  predicate Runs(a: Agent, hash: nat) { a.running && a.appliedHash == Some(hash) }

  /** Everything a new generation needs, up to the process itself. */
  predicate Launches(a: Agent, e: Env) {
    e.built && e.valid && (if a.running then e.statsOk else e.portFree) && e.leaseAtSpawn && e.spawns
  }

  /**
    Starting the core succeeds exactly when it runs this configuration already and is not forced, or a new process
    can be launched; the core is then the new generation. A refusal before the old process went down changes nothing,
    and one after it puts the old process back if it ran and can be started again.
  */
  lemma StartExactly(a: Agent, force: bool, e: Env)
    ensures var (b, ok) := EngineApply(a, true, force, e);
            var kept := e.built && Runs(a, e.hash) && !force;
            && (ok <==> kept || Launches(a, e))
            && b.receipt == a.receipt && b.control == a.control && b.autostart == a.autostart
            && (kept ==> b == a.(running := e.aliveAtResult))
            && (ok && !kept ==>
                  && (b.running <==> e.survives && e.aliveAtResult) && (b.wants <==> e.survives)
                  && b.appliedHash == if e.survives then Some(e.hash) else None)
            && (!ok && (!e.built || !e.valid || !(if a.running then e.statsOk else e.portFree)) ==> b == a)
            && (!ok && e.built && e.valid && (if a.running then e.statsOk else e.portFree) ==>
                  && (b.running <==> a.running && e.leaseAtRespawn && e.respawns) && b.wants == a.wants
                  && b.appliedHash == if b.running then a.appliedHash else None)
  {
  }

  /**
    A run command. A Stop is written down whatever follows, and takes the core down unless its last traffic cannot be
    sampled. A Start or Restart is written down exactly when it succeeds; only a Restart replaces a core that runs
    the wanted configuration already. The legacy endpoint does the same until the first ordered command.
  */
  lemma CommandExactly(a: Agent, action: Action, e: Env)
    ensures var (b, ok) := CommandLocked(a, action, e);
            var desired := if a.control.Some? then a.control.value.desired else a.autostart;
            var paused := a.control.Some? && a.control.value.manualStop;
            && (action == Stop ==>
                  && (ok <==> !a.running || e.statsOk)
                  && b == a.(control := Some(Control(desired, true)), wants := false,
                             running := a.running && !e.statsOk,
                             appliedHash := if ok then None else a.appliedHash))
            && (action != Stop ==>
                  && (ok <==> e.leaseAtCheck
                              && ((e.built && action == Start && Runs(a, e.hash)) || Launches(a, e)))
                  && (ok ==> b.control == Some(Control(true, false)))
                  && (!ok && e.leaseAtCheck ==>
                        b.control == Some(Control(desired, paused)) && b.wants == (Intended(a) && e.leaseAtEntry))
                  && (!e.leaseAtCheck ==> b == a))
    ensures a.receipt.None? ==> LegacyCommand(a, action, e) == CommandLocked(a, action, e)
    ensures a.receipt.Some? ==> LegacyCommand(a, action, e) == (a, false)
  {
    StartExactly(Intent(a, action), action == Restart, e);
  }

  /** A newer command under a new id is executed, and so is the unfinished one again; the applied one is replayed. */
  lemma JudgeExactly(receipt: Option<Receipt>, c: Command)
    ensures Judge(receipt, c) == Replay <==>
              0 < c.revision <= 0x7FFF_FFFF_FFFF_FFFF && receipt == Some(Receipt(c, Applied))
    ensures Judge(receipt, c) == Execute <==>
              && 0 < c.revision <= 0x7FFF_FFFF_FFFF_FFFF
              && (receipt.Some? ==>
                    || (receipt.value.command.revision < c.revision && receipt.value.command.id != c.id)
                    || (receipt.value.command == c && receipt.value.phase != Applied))
  {
  }

  /**
    Reconciliation wishes for the core exactly what was intended while the lease allows it, and takes an unwanted core
    down: at once when the lease expired, and otherwise unless its last traffic cannot be sampled.
  */
  lemma ReconcileExactly(a: Agent, expired: bool, e: Env)
    ensures var b := Reconcile(a, expired, e);
            && b.receipt == a.receipt && b.control == a.control && b.autostart == a.autostart
            && (b.wants <==> Intended(a) && e.leaseAtEntry && !expired)
            && (b.running <==> a.running && !expired && (b.wants || !e.statsOk))
            && b.appliedHash == if a.running && !b.running then None else a.appliedHash
    ensures var b := Boot(a, e.leaseAtEntry);
            b == a.(running := false, appliedHash := None, wants := Intended(a) && e.leaseAtEntry)
  {
  }

  /** Maintenance leaves an unwanted core alone, and a dead one that was started a moment ago; any other it starts. */
  lemma FlushExactly(a: Agent, settled: bool, e: Env)
    ensures !a.wants || (!a.running && !settled) ==> Flush(a, settled, e) == a
    ensures a.wants && (a.running || settled) && (Launches(a, e) || (e.built && Runs(a, e.hash)))
            && e.survives && e.aliveAtResult ==>
              Runs(Flush(a, settled, e), e.hash) && Flush(a, settled, e).wants
  {
    StartExactly(a, false, e);
  }

  /** A cut command is the receipt, still pending, as soon as it was accepted. */
  lemma InterruptedReceipt(a: Agent, c: Command, cut: Cut, e: Env)
    ensures Interrupted(a, c, cut, e).receipt
            == if Judge(a.receipt, c) == Execute then Some(Receipt(c, Pending)) else a.receipt
  {
    if Judge(a.receipt, c) == Execute {
      CommandKeepsReceipt(Begin(a, c), c.action, e);
    }
  }

  // ---------------------------------------------------------------- the runtime object

  class NodeRuntime {
    var receipt: Option<Receipt>
    var control: Option<Control>
    const autostart: bool
    var running: bool
    var wants: bool
    var appliedHash: Option<nat>

    constructor (receipt: Option<Receipt>, control: Option<Control>, autostart: bool, lease: bool)
      ensures Value() == Boot(Agent(receipt, control, autostart, false, false, None), lease)
    {
      this.receipt, this.control, this.autostart := receipt, control, autostart;
      running, appliedHash := false, None;
      wants := (if control.Some? then control.value.desired else autostart)
               && !(control.Some? && control.value.manualStop) && lease;
    }

    function Value(): Agent
      reads this
    {
      Agent(receipt, control, autostart, running, wants, appliedHash)
    }

    method Relaunch(start: bool, e: Env) returns (ok: bool)
      modifies this`running, this`wants, this`appliedHash
      ensures Value() == Relaunched(old(Value()), start, e).0
      ensures ok == Relaunched(old(Value()), start, e).1
    {
      var oldHash, was := appliedHash, running;
      running := false;
      if start || was || wants {
        if !(e.leaseAtSpawn && e.spawns) {
          if was && e.leaseAtRespawn && e.respawns { running := true; }
          appliedHash := if running then oldHash else None;
          return false;
        }
        running := e.survives;
      }
      appliedHash := if running then Some(e.hash) else None;
      wants := running;
      running := running && e.aliveAtResult;
      ok := true;
    }

    method Apply(start: bool, force: bool, e: Env) returns (ok: bool)
      modifies this`running, this`wants, this`appliedHash
      ensures Value() == EngineApply(old(Value()), start, force, e).0
      ensures ok == EngineApply(old(Value()), start, force, e).1
    {
      if !e.built { return false; }
      if !force && running && appliedHash == Some(e.hash) {
        running := e.aliveAtResult;
        return true;
      }
      if !e.valid { return false; }
      if running && !e.statsOk { return false; }
      if !running && !e.portFree { return false; }
      ok := Relaunch(start, e);
    }

    method StopCore(e: Env) returns (ok: bool)
      modifies this`running, this`wants, this`appliedHash
      ensures Value() == EngineStop(old(Value()), e).0
      ensures ok == EngineStop(old(Value()), e).1
    {
      if running && !e.statsOk { return false; }
      wants := false;
      running := false;
      appliedHash := None;
      ok := true;
    }

    /** A Stop is a durable pause first; the process follows. */
    method RunStop(e: Env) returns (ok: bool)
      modifies this`control, this`running, this`wants, this`appliedHash
      ensures Value() == CommandLocked(old(Value()), Stop, e).0
      ensures ok == CommandLocked(old(Value()), Stop, e).1
    {
      control := Some(Control(Desired(Value()), true));
      wants := false;
      assert Value() == Intent(old(Value()), Stop);
      ok := StopCore(e);
    }

    /** Start and Restart write the intent first and take it back if the engine refuses. */
    method RunStart(action: Action, e: Env) returns (ok: bool)
      requires action != Stop
      modifies this`control, this`running, this`wants, this`appliedHash
      ensures Value() == CommandLocked(old(Value()), action, e).0
      ensures ok == CommandLocked(old(Value()), action, e).1
    {
      ghost var before := Value();
      var desired, manual := Desired(Value()), ManualStop(Value());
      var effective := Effective(Value(), e.leaseAtEntry);
      if !e.leaseAtCheck { return false; }
      control := Some(Control(true, false));
      assert Value() == Intent(before, action);
      ok := Apply(true, action == Restart, e);
      assert Value() == EngineApply(Intent(before, action), true, action == Restart, e).0;
      if !ok {
        control := Some(Control(desired, manual));
        wants := effective;
      }
    }

    method RunCommand(action: Action, e: Env) returns (ok: bool)
      modifies this`control, this`running, this`wants, this`appliedHash
      ensures Value() == CommandLocked(old(Value()), action, e).0
      ensures ok == CommandLocked(old(Value()), action, e).1
    {
      if action == Stop { ok := RunStop(e); } else { ok := RunStart(action, e); }
    }

    /** The accepted part of an ordered command: receipt first, then Xray, then the outcome. */
    method Execute(c: Command, e: Env) returns (reached: bool)
      modifies this
      ensures Value() == Executed(old(Value()), c, e).0
      ensures reached == Executed(old(Value()), c, e).1
    {
      receipt := Some(Receipt(c, Pending));
      ghost var begun := Value();
      assert begun == Begin(old(Value()), c);
      var ok := RunCommand(c.action, e);
      ghost var ran := Value();
      assert ran == CommandLocked(begun, c.action, e).0;
      reached := ok && running == Expected(c.action);
      receipt := Some(Receipt(c, if reached then Applied else Failed));
      assert Value() == Finish(ran, c, if reached then Applied else Failed);
    }

    method Ordered(c: Command, e: Env) returns (reply: Reply)
      modifies this
      ensures Value() == OrderedCommand(old(Value()), c, e).0
      ensures reply == OrderedCommand(old(Value()), c, e).1
    {
      if !(0 < c.revision < REVISION_LIMIT) { return Error; }
      if receipt.Some? {
        var previous := receipt.value.command;
        if c.revision < previous.revision { return Error; }
        if c.revision == previous.revision {
          if c.id != previous.id || c.action != previous.action { return Error; }
          if receipt.value.phase == Applied {
            running := running && e.aliveAtReply;
            return AckOf(Value(), true);
          }
        } else if c.id == previous.id {
          return Error;
        }
      }
      assert Judge(receipt, c) == Verdict.Execute;
      var reached := Execute(c, e);
      if !reached { return Error; }
      running := running && e.aliveAtReply;
      reply := AckOf(Value(), false);
    }

    method ReconcileControl(expired: bool, e: Env)
      modifies this`running, this`wants, this`appliedHash
      ensures Value() == Reconcile(old(Value()), expired, e)
    {
      wants := false;
      var wanted := Effective(Value(), e.leaseAtEntry);
      wants := wanted;
      if expired {
        wants := false;
        if running { running, appliedHash := false, None; }
      } else if !wanted && running {
        var _ := StopCore(e);
      }
    }

    method FlushCore(settled: bool, e: Env)
      modifies this`running, this`wants, this`appliedHash
      ensures Value() == Flush(old(Value()), settled, e)
    {
      if !wants { return; }
      if !running && !settled { return; }
      var _ := Apply(true, false, e);
    }
  }
}
