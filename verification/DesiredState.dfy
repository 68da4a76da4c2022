/**
  Versioned desired state on a Node Agent: stop or checkpoint the old generation, snapshot it,
  replace its rows, start the new one, record the revision; on any failure put the snapshot and
  the previous process back. A payload stands for its own digest.
*/
module DesiredState {
  import opened Counters
  import opened Wrappers
  import opened NodeAgent

  datatype Payload = Payload(desiredRunning: bool, clients: set<nat>, content: nat, runtime: nat)
  datatype Envelope = Envelope(revision: nat, payload: Payload)

  /** The replaced tables: cumulative counters per client, the other rows, and what they compile to. */
  datatype Tables = Tables(counters: map<nat, Pair>, seen: map<nat, nat>, content: nat, runtime: nat)
  datatype AppliedState = AppliedState(revision: nat, payload: Option<Payload>, error: string)
  datatype Node = Node(agent: Agent, tables: Tables, applied: AppliedState)

  datatype World = World(
    lease: bool, staged: bool, expired: bool,
    stop: Env, stopDelta: map<nat, Pair>,
    guardOk: bool, filesOk: bool, rowsOk: bool,
    start: Env, startDelta: map<nat, Pair>, validates: bool, finalOk: bool,
    restoreOk: bool, guardBack: bool, back: Env, backDelta: map<nat, Pair>, detail: string)

  // ---------------------------------------------------------------- the metered engine

  /** A sample adds what the core counted to the rows that exist. */
  function Sampled(t: Tables, delta: map<nat, Pair>): Tables {
    t.(counters := map c | c in t.counters :: Add(t.counters[c], if c in delta then delta[c] else ZERO))
  }

  predicate ApplySamples(a: Agent, force: bool, e: Env) {
    a.running && e.built && (force || a.appliedHash != Some(e.hash)) && e.valid && e.statsOk
  }

  function EngineStart(n: Node, e: Env, delta: map<nat, Pair>): (Node, bool) {
    var here := e.(hash := n.tables.runtime);
    var (a, ok) := EngineApply(n.agent, true, false, here);
    (n.(agent := a, tables := if ApplySamples(n.agent, false, here) then Sampled(n.tables, delta) else n.tables), ok)
  }

  function EngineHalt(n: Node, e: Env, delta: map<nat, Pair>): (Node, bool) {
    var (a, ok) := EngineStop(n.agent, e);
    (n.(agent := a, tables := if n.agent.running && e.statsOk then Sampled(n.tables, delta) else n.tables), ok)
  }

  function Reconciled(n: Node, x: World): Node {
    var b := Reconcile(n.agent, x.expired, x.stop);
    n.(agent := b, tables := if n.agent.running && !b.running && x.stop.statsOk then Sampled(n.tables, x.stopDelta)
                             else n.tables)
  }

  // ---------------------------------------------------------------- the stages of an apply

  datatype Admission = Rejected | Unchanged | Proceed

  function Admit(applied: AppliedState, e: Envelope, staged: bool): Admission {
    if e.revision < 1 || e.revision < applied.revision then Rejected
    else if e.revision == applied.revision && applied.payload != Some(e.payload) then Rejected
    else if e.revision == applied.revision && applied.error == "" then Unchanged
    else if staged then Proceed
    else Rejected
  }

  /** Accepted ordered control owns the running intent; a snapshot may set it only before that. */
  function Wish(n: Node, p: Payload): bool {
    if n.agent.receipt.Some? then Desired(n.agent) else p.desiredRunning
  }

  predicate WillRun(n: Node, p: Payload, x: World) { Wish(n, p) && !ManualStop(n.agent) && x.lease }

  /** Only metadata changed: same executable configuration, same clients, core stays up. */
  predicate Keeps(n: Node, p: Payload, x: World) {
    WillRun(n, p, x) && n.agent.running && n.agent.appliedHash == Some(p.runtime) && n.tables.counters.Keys == p.clients
  }

  /** The final metering of the old generation. */
  function Quiesced(n: Node, p: Payload, x: World): (Node, bool) {
    if Keeps(n, p, x) then
      if x.stop.statsOk then (n.(tables := Sampled(n.tables, x.stopDelta)), true) else (n, false)
    else EngineHalt(n, x.stop, x.stopDelta)
  }

  function Replaced(n: Node, p: Payload): Node {
    var stale := n.tables.counters.Keys - p.clients;
    n.(tables := Tables(
         map c | c in p.clients :: if c in n.tables.counters then n.tables.counters[c] else ZERO,
         n.tables.seen - stale, p.content, p.runtime))
  }

  function Launched(n: Node, willRun: bool, x: World): (Node, bool) {
    if willRun then EngineStart(n, x.start, x.startDelta) else (n, x.validates)
  }

  function Committed(n: Node, e: Envelope, wish: bool, manual: bool): Node {
    n.(agent := n.agent.(control := Some(Control(wish, manual))),
       applied := AppliedState(e.revision, Some(e.payload), ""))
  }

  function Restored(now: Node, snap: Node): Node {
    now.(tables := snap.tables, applied := snap.applied, agent := now.agent.(control := snap.agent.control))
  }

  /** The snapshot goes back if there is one and the write succeeds. */
  function PutBack(now: Node, snap: Option<Node>, x: World): Node {
    if snap.Some? && x.restoreOk then Restored(now, snap.value) else now
  }

  /** The core that was running before comes back, or what runs now goes down; either may meter. */
  function RollbackCore(n: Node, rows: Node, x: World): (Node, bool) {
    if n.agent.running then EngineStart(rows, x.back, x.backDelta) else EngineHalt(rows, x.back, x.backDelta)
  }

  /** The failure path: rows, then the core, then the recorded error. */
  function RolledBack(n: Node, now: Node, snap: Option<Node>, x: World): (Node, bool) {
    var (core, ok) := RollbackCore(n, PutBack(now, snap, x), x);
    var settled := if ok then core.(agent := core.agent.(wants := n.agent.wants)) else core;
    (settled.(applied := settled.applied.(error := x.detail)), (snap.None? || x.restoreOk) && x.guardBack && ok)
  }

  datatype Outcome = Refused | Same | Done | Undone(clean: bool)

  function Finished(n: Node, e: Envelope, x: World): (Node, Outcome)
    requires Quiesced(n, e.payload, x).1
  {
    var snap := Quiesced(n, e.payload, x).0;
    if !x.guardOk || !x.filesOk || !x.rowsOk then
      var (b, clean) := RolledBack(n, snap, Some(snap), x); (b, Undone(clean))
    else
      var (up, ok) := Launched(Replaced(snap, e.payload), WillRun(n, e.payload, x), x);
      if !ok || !x.finalOk then
        var (b, clean) := RolledBack(n, up, Some(snap), x); (b, Undone(clean))
      else (Committed(up, e, Wish(n, e.payload), ManualStop(n.agent)), Done)
  }

  function Apply(n: Node, e: Envelope, x: World): (Node, Outcome) {
    match Admit(n.applied, e, x.staged)
    case Rejected => (n, Refused)
    case Unchanged => (Reconciled(n, x), Same)
    case Proceed =>
      var (quiet, ok) := Quiesced(n, e.payload, x);
      if !ok then var (b, clean) := RolledBack(n, quiet, None, x); (b, Undone(clean))
      else Finished(n, e, x)
  }

  // ---------------------------------------------------------------- revisions

  /** The applied revision never decreases, and a revision keeps its payload. */
  predicate Advances(a: AppliedState, b: AppliedState) {
    a.revision <= b.revision && (a.revision == b.revision ==> a.payload == b.payload)
  }

  lemma RollbackKeepsRevision(n: Node, now: Node, snap: Option<Node>, x: World)
    requires snap.Some? ==> snap.value.applied == now.applied
    ensures RolledBack(n, now, snap, x).0.applied == now.applied.(error := x.detail)
  {
  }

  lemma StagesKeepRevision(n: Node, p: Payload, x: World, willRun: bool)
    ensures Quiesced(n, p, x).0.applied == n.applied
    ensures Replaced(n, p).applied == n.applied
    ensures Launched(n, willRun, x).0.applied == n.applied
  {
  }

  /** Whatever happens inside, an apply records exactly its own revision or leaves revision and payload alone. */
  lemma ApplyAdvances(n: Node, e: Envelope, x: World)
    ensures Advances(n.applied, Apply(n, e, x).0.applied)
    ensures Apply(n, e, x).1 == Done ==> Apply(n, e, x).0.applied == AppliedState(e.revision, Some(e.payload), "")
    ensures Apply(n, e, x).1 != Done ==>
              Apply(n, e, x).0.applied.revision == n.applied.revision
                && Apply(n, e, x).0.applied.payload == n.applied.payload
  {
    if Admit(n.applied, e, x.staged) == Proceed {
      var (quiet, ok) := Quiesced(n, e.payload, x);
      StagesKeepRevision(n, e.payload, x, false);
      if !ok {
        RollbackKeepsRevision(n, quiet, None, x);
      } else {
        var rows := Replaced(quiet, e.payload);
        StagesKeepRevision(quiet, e.payload, x, false);
        StagesKeepRevision(rows, e.payload, x, WillRun(n, e.payload, x));
        RollbackKeepsRevision(n, quiet, Some(quiet), x);
        RollbackKeepsRevision(n, Launched(rows, WillRun(n, e.payload, x), x).0, Some(quiet), x);
      }
    }
  }

  // ---------------------------------------------------------------- counters on success

  function FinalSample(n: Node, c: nat, x: World): Pair {
    if n.agent.running && c in x.stopDelta then x.stopDelta[c] else ZERO
  }

  /**
    After a successful apply the stored rows are exactly the payload's, and every client of both
    generations has its old counter plus the old generation's final sample, whether the core was
    restarted or kept running; new clients start from zero, and what was seen of dropped ones is gone.
  */
  lemma SuccessKeepsCounters(n: Node, e: Envelope, x: World)
    requires Apply(n, e, x).1 == Done
    ensures var t := Apply(n, e, x).0.tables;
            && t.counters.Keys == e.payload.clients
            && t.content == e.payload.content && t.runtime == e.payload.runtime
            && t.seen == n.tables.seen - (n.tables.counters.Keys - e.payload.clients)
            && forall c :: c in e.payload.clients ==>
                 t.counters[c] ==
                   (if c in n.tables.counters then Add(n.tables.counters[c], FinalSample(n, c, x)) else ZERO)
  {
    var snap := Quiesced(n, e.payload, x).0;
    QuiescedSample(n, e.payload, x);
    var rows := Replaced(snap, e.payload);
    assert rows.tables.counters.Keys == e.payload.clients;
    LaunchDoesNotSample(n, e, x);
  }

  lemma QuiescedSample(n: Node, p: Payload, x: World)
    requires Quiesced(n, p, x).1
    ensures var q := Quiesced(n, p, x).0;
            && q.tables.counters.Keys == n.tables.counters.Keys
            && (forall c :: c in n.tables.counters ==>
                q.tables.counters[c] == Add(n.tables.counters[c], FinalSample(n, c, x)))
            && q.tables.seen == n.tables.seen && q.tables.content == n.tables.content
               && q.tables.runtime == n.tables.runtime
            && q.applied == n.applied && q.agent.control == n.agent.control && q.agent.receipt == n.agent.receipt
  {
  }

  /** Starting the new generation meters nothing: the core is down, or already runs exactly it. */
  lemma LaunchDoesNotSample(n: Node, e: Envelope, x: World)
    requires Quiesced(n, e.payload, x).1
    ensures var rows := Replaced(Quiesced(n, e.payload, x).0, e.payload);
            Launched(rows, WillRun(n, e.payload, x), x).0.tables == rows.tables
  {
  }

  // ---------------------------------------------------------------- failure

  /** The node as it stood when the old generation was last metered. */
  function OldGeneration(n: Node, p: Payload, x: World): Node { Quiesced(n, p, x).0 }

  /** The core the rollback finds running, if any, is the one the failed apply had brought up. */
  function AtRollback(n: Node, e: Envelope, x: World): Node {
    var (quiet, ok) := Quiesced(n, e.payload, x);
    if !ok then quiet
    else if !x.guardOk || !x.filesOk || !x.rowsOk then quiet
    else Launched(Replaced(quiet, e.payload), WillRun(n, e.payload, x), x).0
  }

  function SnapshotOf(n: Node, e: Envelope, x: World): Option<Node> {
    var (quiet, ok) := Quiesced(n, e.payload, x);
    if ok then Some(quiet) else None
  }

  /** The rows the rollback puts its core on: the snapshot's, unless they could not be written back. */
  function RollbackRows(n: Node, e: Envelope, x: World): Node {
    PutBack(AtRollback(n, e, x), SnapshotOf(n, e, x), x)
  }

  /** Putting the old core back meters a running core that is not already the stored generation. */
  predicate RollbackMeters(n: Node, e: Envelope, x: World) {
    var rows := RollbackRows(n, e, x);
    && rows.agent.running && x.back.statsOk
    && (n.agent.running ==> rows.agent.appliedHash != Some(rows.tables.runtime) && x.back.built && x.back.valid)
  }

  /** The rows the rollback works on: the snapshot's, or those of a generation never replaced. */
  lemma RollbackOutcome(n: Node, now: Node, snap: Option<Node>, x: World)
    requires RolledBack(n, now, snap, x).1
    requires snap.None? ==> now == n
    ensures var t := RolledBack(n, now, snap, x).0;
            var rows := if snap.Some? then snap.value else n;
            && t.tables == (if now.agent.running && x.back.statsOk
                               && (n.agent.running ==>
                                   now.agent.appliedHash != Some(rows.tables.runtime) && x.back.built && x.back.valid)
                            then Sampled(rows.tables, x.backDelta) else rows.tables)
            && t.applied == rows.applied.(error := x.detail)
            && t.agent.control == rows.agent.control && t.agent.receipt == now.agent.receipt
            && t.agent.wants == n.agent.wants
  {
  }

  lemma HaltFailureChangesNothing(n: Node, p: Payload, x: World)
    requires !Quiesced(n, p, x).1
    ensures Quiesced(n, p, x).0 == n
  {
  }

  lemma LaunchKeepsReceipt(n: Node, willRun: bool, x: World)
    ensures Launched(n, willRun, x).0.agent.receipt == n.agent.receipt
  {
  }

  /**
    A failed apply whose rollback met no error leaves the old generation exactly as it was last
    metered, with its revision and intent; if the rollback had to take down a core that does not
    run the stored rows, what that core counted is added to them, and nothing else differs.
  */
  lemma FailureRestores(n: Node, e: Envelope, x: World)
    requires Apply(n, e, x).1 == Undone(true)
    ensures var kept := OldGeneration(n, e.payload, x);
            var t := Apply(n, e, x).0;
            && t.tables == (if RollbackMeters(n, e, x) then Sampled(kept.tables, x.backDelta) else kept.tables)
            && t.applied == n.applied.(error := x.detail)
            && t.agent.control == n.agent.control && t.agent.receipt == n.agent.receipt
            && t.agent.wants == n.agent.wants
  {
    var (quiet, ok) := Quiesced(n, e.payload, x);
    if !ok {
      HaltFailureChangesNothing(n, e.payload, x);
      RollbackOutcome(n, quiet, None, x);
    } else {
      QuiescedSample(n, e.payload, x);
      LaunchKeepsReceipt(Replaced(quiet, e.payload), WillRun(n, e.payload, x), x);
      assert AtRollback(n, e, x).agent.receipt == n.agent.receipt;
      RollbackOutcome(n, AtRollback(n, e, x), Some(quiet), x);
    }
  }

  /** A launch that fails leaves a running core only where one was running already, with its configuration. */
  lemma FailedLaunch(n: Node, willRun: bool, x: World)
    requires !Launched(n, willRun, x).1
    ensures var a := Launched(n, willRun, x).0.agent; a.running ==>
            n.agent.running && a.appliedHash == n.agent.appliedHash
  {
  }

  lemma QuiescedCore(n: Node, p: Payload, x: World)
    ensures var a := Quiesced(n, p, x).0.agent; a.running ==> n.agent.running && a.appliedHash == n.agent.appliedHash
  {
  }

  /** Without a failing final write, a rollback that starts from a core running its stored rows adds nothing. */
  lemma CleanRestore(n: Node, e: Envelope, x: World)
    requires Apply(n, e, x).1 == Undone(true)
    requires x.finalOk && (n.agent.running ==> n.agent.appliedHash == Some(n.tables.runtime))
    ensures Apply(n, e, x).0.tables == OldGeneration(n, e.payload, x).tables
  {
    FailureRestores(n, e, x);
    var (quiet, ok) := Quiesced(n, e.payload, x);
    QuiescedCore(n, e.payload, x);
    var rows := Replaced(quiet, e.payload);
    if ok && x.guardOk && x.filesOk && x.rowsOk {
      FailedLaunch(rows, WillRun(n, e.payload, x), x);
    }
    assert !RollbackMeters(n, e, x);
  }

  /** A final write that fails after the new core came up adds that core's bytes to the restored rows. */
  lemma LateFailureAddsBytes(n: Node, e: Envelope, x: World, c: nat)
    requires Apply(n, e, x).1 == Undone(true) && RollbackMeters(n, e, x)
    requires c in n.tables.counters && c in x.backDelta && x.backDelta[c] != ZERO
    ensures Apply(n, e, x).0.tables != OldGeneration(n, e.payload, x).tables
  {
    FailureRestores(n, e, x);
    var kept := OldGeneration(n, e.payload, x).tables;
    assert kept.counters.Keys == n.tables.counters.Keys by {
      if Quiesced(n, e.payload, x).1 {
        QuiescedSample(n, e.payload, x);
      } else {
        HaltFailureChangesNothing(n, e.payload, x);
      }
    }
    assert Sampled(kept, x.backDelta).counters[c] != kept.counters[c];
  }

  const WILLING := Env(true, true, true, true, true, 0, true, true, true, true, true, true, true, true)
  const OLD_NODE := Node(Agent(None, None, true, true, true, Some(1)),
                         Tables(map[5 := ZERO], map[], 1, 1), AppliedState(1, None, ""))
  const NEW_STATE := Envelope(2, Payload(true, {5}, 2, 2))
  const DISK_FULL := World(true, true, false, WILLING, map[], true, true, true, WILLING, map[], true, false,
                           true, true, WILLING, map[5 := Pair(7, 0)], "disk")

  /** Such an input: the new core counted seven bytes for a kept client before the final write failed. */
  lemma LateFailureExample()
    ensures Apply(OLD_NODE, NEW_STATE, DISK_FULL).1 == Undone(true)
    ensures Apply(OLD_NODE, NEW_STATE, DISK_FULL).0.tables
            != OldGeneration(OLD_NODE, NEW_STATE.payload, DISK_FULL).tables
  {
    var quiet := Quiesced(OLD_NODE, NEW_STATE.payload, DISK_FULL).0;
    assert !quiet.agent.running && Admit(OLD_NODE.applied, NEW_STATE, true) == Proceed;
    var up := Launched(Replaced(quiet, NEW_STATE.payload), true, DISK_FULL).0;
    assert up.agent.running && up.agent.appliedHash == Some(2);
    assert up == AtRollback(OLD_NODE, NEW_STATE, DISK_FULL);
    LateFailureAddsBytes(OLD_NODE, NEW_STATE, DISK_FULL, 5);
  }

  lemma EngineKeepsReceipt(n: Node, e: Env, delta: map<nat, Pair>)
    ensures EngineStart(n, e, delta).0.agent.receipt == n.agent.receipt
    ensures EngineHalt(n, e, delta).0.agent.receipt == n.agent.receipt
  {
  }

  lemma RollbackKeepsReceipt(n: Node, now: Node, snap: Option<Node>, x: World)
    ensures RolledBack(n, now, snap, x).0.agent.receipt == now.agent.receipt
  {
    EngineKeepsReceipt(PutBack(now, snap, x), x.back, x.backDelta);
  }

  /** Configuration never touches the command receipt. */
  lemma ApplyKeepsReceipt(n: Node, e: Envelope, x: World)
    ensures Apply(n, e, x).0.agent.receipt == n.agent.receipt
  {
    if Admit(n.applied, e, x.staged) == Proceed {
      var (quiet, ok) := Quiesced(n, e.payload, x);
      LaunchKeepsReceipt(Replaced(quiet, e.payload), WillRun(n, e.payload, x), x);
      RollbackKeepsReceipt(n, AtRollback(n, e, x), if ok then Some(quiet) else None, x);
      if ok { QuiescedSample(n, e.payload, x); } else { HaltFailureChangesNothing(n, e.payload, x); }
    }
  }

  // ---------------------------------------------------------------- exactly when an apply succeeds

  /**
    An envelope is taken up exactly when its revision is newer, or is the present one again after a failure; the
    present one is otherwise known, and no revision is taken up with another payload.
  */
  lemma AdmitExactly(applied: AppliedState, e: Envelope, staged: bool)
    ensures Admit(applied, e, staged) == Unchanged <==>
              1 <= e.revision == applied.revision && applied.payload == Some(e.payload) && applied.error == ""
    ensures Admit(applied, e, staged) == Proceed <==>
              && staged && 1 <= e.revision
              && (applied.revision < e.revision
                  || (applied.revision == e.revision && applied.payload == Some(e.payload) && applied.error != ""))
  {
  }

  /** The run intent after a successful apply: ordered control keeps its own, otherwise the snapshot's is taken over. */
  predicate IntentAfter(a: Agent, wanted: bool, b: Agent) {
    b.control == Some(Control(
      if a.receipt.Some? then (if a.control.Some? then a.control.value.desired else a.autostart) else wanted,
      a.control.Some? && a.control.value.manualStop))
  }

  /** The core is to be up: the intent says so, no stop holds, and the lease allows it. */
  predicate Upcoming(a: Agent, wanted: bool, lease: bool) {
    && lease && !(a.control.Some? && a.control.value.manualStop)
    && (if a.receipt.Some? then (if a.control.Some? then a.control.value.desired else a.autostart) else wanted)
  }

  /** The core stays up: it runs the configuration of the new state and the clients are the same. */
  predicate StaysUp(n: Node, p: Payload, lease: bool) {
    Upcoming(n.agent, p.desiredRunning, lease) && Runs(n.agent, p.runtime) && n.tables.counters.Keys == p.clients
  }

  /**
    An admitted state is applied exactly when the old generation could be metered, every write succeeds, and the
    new generation can be brought up, or validates if it is not to run. Then the intent is as above, and the core
    is up exactly when it is to be and its process survives.
  */
  lemma DoneExactly(n: Node, e: Envelope, x: World)
    requires Admit(n.applied, e, x.staged) == Proceed
    ensures var p, s := e.payload, x.start;
            Apply(n, e, x).1 == Done <==>
              && (n.agent.running ==> x.stop.statsOk) && x.guardOk && x.filesOk && x.rowsOk && x.finalOk
              && (if !Upcoming(n.agent, p.desiredRunning, x.lease) then x.validates
                  else s.built && (StaysUp(n, p, x.lease) || (s.valid && s.portFree && s.leaseAtSpawn && s.spawns)))
    ensures Apply(n, e, x).1 == Done ==>
              var p, a := e.payload, Apply(n, e, x).0.agent;
              && IntentAfter(n.agent, p.desiredRunning, a)
              && (a.running <==> Upcoming(n.agent, p.desiredRunning, x.lease) && x.start.aliveAtResult
                                 && (StaysUp(n, p, x.lease) || x.start.survives))
              && (a.running ==> a.appliedHash == Some(p.runtime))
  {
    QuiescedWhen(n, e.payload, x);
    var (quiet, ok) := Quiesced(n, e.payload, x);
    if ok { StartExactly(quiet.agent, false, x.start.(hash := e.payload.runtime)); }
  }

  /**
    A failed apply is cleanly undone exactly when the rows went back if they had to, the guard did, and the core
    command of the rollback succeeded; with a process that survives, the core is then up exactly if it was before.
  */
  lemma UndoneExactly(n: Node, e: Envelope, x: World)
    requires Apply(n, e, x).1.Undone?
    ensures var now, back := AtRollback(n, e, x).agent, x.back.(hash := RollbackRows(n, e, x).tables.runtime);
            && (Apply(n, e, x).1.clean <==>
                  && ((n.agent.running ==> x.stop.statsOk) ==> x.restoreOk) && x.guardBack
                  && (if n.agent.running then (back.built && Runs(now, back.hash)) || Launches(now, back)
                      else now.running ==> back.statsOk))
            && (Apply(n, e, x).1.clean && back.survives && back.aliveAtResult ==>
                  Apply(n, e, x).0.agent.running == n.agent.running)
  {
    QuiescedWhen(n, e.payload, x);
    var rows := RollbackRows(n, e, x);
    assert rows.agent.running == AtRollback(n, e, x).agent.running
        && rows.agent.appliedHash == AtRollback(n, e, x).agent.appliedHash;
    StartExactly(rows.agent, false, x.back.(hash := rows.tables.runtime));
  }

  // ---------------------------------------------------------------- crashes inside an apply

  /** Each cut follows a commit or an effect on Xray; the last two lie on the failure path. */
  datatype ApplyCut = AfterMetering | AfterRows | AfterLaunch | AfterRestore | AfterRollbackCore

  /** Everything before the new rows succeeded, so the apply reached them. */
  predicate ReachesRows(n: Node, e: Envelope, x: World) {
    && Admit(n.applied, e, x.staged) == Proceed && (n.agent.running ==> x.stop.statsOk)
    && x.guardOk && x.filesOk && x.rowsOk
  }

  predicate Fails(n: Node, e: Envelope, x: World) { Apply(n, e, x).1.Undone? }

  predicate OnFailurePath(n: Node, e: Envelope, x: World, cut: ApplyCut) {
    Fails(n, e, x) && (cut == AfterRestore || cut == AfterRollbackCore)
  }

  /** The node at a cut; a cut the apply does not come to is the last one before it that it does. */
  function CutNode(n: Node, e: Envelope, x: World, cut: ApplyCut): Node {
    if Admit(n.applied, e, x.staged) != Proceed then n
    else if OnFailurePath(n, e, x, cut) then
      if cut == AfterRestore then RollbackRows(n, e, x) else RollbackCore(n, RollbackRows(n, e, x), x).0
    else
      var quiet := Quiesced(n, e.payload, x).0;
      if !ReachesRows(n, e, x) || cut == AfterMetering then quiet
      else if cut == AfterRows then Replaced(quiet, e.payload)
      else Launched(Replaced(quiet, e.payload), WillRun(n, e.payload, x), x).0
  }

  /** What an Agent killed inside an apply finds when it comes back. */
  function ApplyInterrupted(n: Node, e: Envelope, x: World, cut: ApplyCut, lease: bool): Node {
    var found := CutNode(n, e, x, cut);
    found.(agent := Boot(found.agent, lease))
  }

  lemma QuiescedWhen(n: Node, p: Payload, x: World)
    ensures Quiesced(n, p, x).1 <==> (n.agent.running ==> x.stop.statsOk)
  {
  }

  lemma RollbackCoreRows(n: Node, e: Envelope, x: World)
    ensures var rows, core := RollbackRows(n, e, x), RollbackCore(n, RollbackRows(n, e, x), x).0;
            && core.tables == (if RollbackMeters(n, e, x) then Sampled(rows.tables, x.backDelta) else rows.tables)
            && core.applied == rows.applied && core.agent.control == rows.agent.control
            && core.agent.receipt == rows.agent.receipt
  {
  }

  /** What a cut leaves of the durable state beside the rows. */
  lemma CutKeepsIntent(n: Node, e: Envelope, x: World, cut: ApplyCut)
    ensures var t := CutNode(n, e, x, cut);
            t.applied == n.applied && t.agent.control == n.agent.control && t.agent.receipt == n.agent.receipt
  {
    if Admit(n.applied, e, x.staged) == Proceed {
      RollbackRowsIntent(n, e, x);
      RollbackCoreRows(n, e, x);
      QuiescedWhen(n, e.payload, x);
      if Quiesced(n, e.payload, x).1 {
        QuiescedSample(n, e.payload, x);
        LaunchKeepsIntent(Replaced(Quiesced(n, e.payload, x).0, e.payload), WillRun(n, e.payload, x), x);
      } else {
        HaltFailureChangesNothing(n, e.payload, x);
      }
    }
  }

  lemma LaunchKeepsIntent(n: Node, willRun: bool, x: World)
    ensures var t := Launched(n, willRun, x).0;
            t.applied == n.applied && t.agent.control == n.agent.control && t.agent.receipt == n.agent.receipt
  {
  }

  lemma RollbackRowsIntent(n: Node, e: Envelope, x: World)
    ensures var t := RollbackRows(n, e, x);
            t.applied == n.applied && t.agent.control == n.agent.control && t.agent.receipt == n.agent.receipt
  {
    if Quiesced(n, e.payload, x).1 {
      QuiescedSample(n, e.payload, x);
      LaunchKeepsIntent(Replaced(Quiesced(n, e.payload, x).0, e.payload), WillRun(n, e.payload, x), x);
    } else {
      HaltFailureChangesNothing(n, e.payload, x);
    }
  }

  /** What the rows of a cut have counted for a client, before the rollback's own core command. */
  function CountedBy(n: Node, e: Envelope, c: nat, x: World): Pair
    requires c in n.tables.counters
  {
    if Admit(n.applied, e, x.staged) == Proceed && Quiesced(n, e.payload, x).1
    then Add(n.tables.counters[c], FinalSample(n, c, x)) else n.tables.counters[c]
  }

  lemma RowsCount(n: Node, e: Envelope, x: World, c: nat)
    requires Admit(n.applied, e, x.staged) == Proceed && c in n.tables.counters
    ensures var quiet, rows := Quiesced(n, e.payload, x).0, RollbackRows(n, e, x);
            && (c in quiet.tables.counters ==> quiet.tables.counters[c] == CountedBy(n, e, c, x))
            && (c in rows.tables.counters ==> rows.tables.counters[c] == CountedBy(n, e, c, x))
    ensures Quiesced(n, e.payload, x).1 && c in e.payload.clients ==>
              var rows := Replaced(Quiesced(n, e.payload, x).0, e.payload);
              && rows.tables.counters[c] == CountedBy(n, e, c, x)
              && Launched(rows, WillRun(n, e.payload, x), x).0.tables == rows.tables
  {
    if Quiesced(n, e.payload, x).1 {
      QuiescedSample(n, e.payload, x);
      LaunchDoesNotSample(n, e, x);
    } else {
      HaltFailureChangesNothing(n, e.payload, x);
    }
  }

  function RollbackSample(n: Node, e: Envelope, x: World, cut: ApplyCut, c: nat): Pair {
    if cut == AfterRollbackCore && Fails(n, e, x) && RollbackMeters(n, e, x) && c in x.backDelta
    then x.backDelta[c] else ZERO
  }

  /**
    A crash anywhere inside an apply keeps the revision, the intent and the receipt. Every client of both
    generations has its counter plus the old generation's final sample, once that was taken, plus what the
    rollback's core command metered, once it did.
  */
  lemma CrashKeeps(n: Node, e: Envelope, x: World, cut: ApplyCut, lease: bool)
    ensures var t := ApplyInterrupted(n, e, x, cut, lease);
            && t.applied == n.applied && t.agent.control == n.agent.control && t.agent.receipt == n.agent.receipt
            && forall c :: c in n.tables.counters && c in t.tables.counters ==>
                 t.tables.counters[c] == Add(CountedBy(n, e, c, x), RollbackSample(n, e, x, cut, c))
  {
    CutKeepsIntent(n, e, x, cut);
    var t := CutNode(n, e, x, cut);
    forall c | c in n.tables.counters && c in t.tables.counters
      ensures t.tables.counters[c] == Add(CountedBy(n, e, c, x), RollbackSample(n, e, x, cut, c))
    {
      CutCounts(n, e, x, cut, c);
    }
  }

  /** The rollback's core command adds its sample to whatever rows it finds. */
  lemma RollbackCounts(n: Node, e: Envelope, x: World, cut: ApplyCut, c: nat)
    requires Admit(n.applied, e, x.staged) == Proceed && OnFailurePath(n, e, x, cut)
    requires c in n.tables.counters && c in CutNode(n, e, x, cut).tables.counters
    ensures CutNode(n, e, x, cut).tables.counters[c] == Add(CountedBy(n, e, c, x), RollbackSample(n, e, x, cut, c))
  {
    RowsCount(n, e, x, c);
    RollbackCoreRows(n, e, x);
    var before := RollbackRows(n, e, x).tables;
    assert c in before.counters && before.counters[c] == CountedBy(n, e, c, x);
    AddZero(before.counters[c]);
  }

  lemma AddZero(p: Pair)
    ensures Add(p, ZERO) == p
  {
  }

  /** Before any rollback a cut finds the rows as last metered, old or new. */
  lemma ForwardCounts(n: Node, e: Envelope, x: World, cut: ApplyCut, c: nat)
    requires Admit(n.applied, e, x.staged) == Proceed && !OnFailurePath(n, e, x, cut)
    requires c in n.tables.counters && c in CutNode(n, e, x, cut).tables.counters
    ensures CutNode(n, e, x, cut).tables.counters[c] == CountedBy(n, e, c, x)
  {
    QuiescedWhen(n, e.payload, x);
    RowsCount(n, e, x, c);
    var quiet := Quiesced(n, e.payload, x).0;
    if ReachesRows(n, e, x) && cut != AfterMetering {
      assert Replaced(quiet, e.payload).tables.counters.Keys == e.payload.clients;
      assert CutNode(n, e, x, cut).tables == Replaced(quiet, e.payload).tables;
    }
  }

  lemma CutCounts(n: Node, e: Envelope, x: World, cut: ApplyCut, c: nat)
    requires c in n.tables.counters && c in CutNode(n, e, x, cut).tables.counters
    ensures CutNode(n, e, x, cut).tables.counters[c] == Add(CountedBy(n, e, c, x), RollbackSample(n, e, x, cut, c))
  {
    if Admit(n.applied, e, x.staged) == Proceed && OnFailurePath(n, e, x, cut) {
      RollbackCounts(n, e, x, cut, c);
    } else {
      AddZero(CountedBy(n, e, c, x));
      if Admit(n.applied, e, x.staged) == Proceed { ForwardCounts(n, e, x, cut, c); }
    }
  }

  /**
    The cut after the rollback's core command can add bytes: the late failure again, killed before it
    records the error.
  */
  lemma CrashInRollbackExample()
    ensures var t := ApplyInterrupted(OLD_NODE, NEW_STATE, DISK_FULL, AfterRollbackCore, true);
            t.tables == Apply(OLD_NODE, NEW_STATE, DISK_FULL).0.tables
            && t.tables != OldGeneration(OLD_NODE, NEW_STATE.payload, DISK_FULL).tables
  {
    LateFailureExample();
    FailureRestores(OLD_NODE, NEW_STATE, DISK_FULL);
    RollbackCoreRows(OLD_NODE, NEW_STATE, DISK_FULL);
  }

  /** A rollback has put the old rows back. */
  predicate BackAgain(n: Node, e: Envelope, x: World, cut: ApplyCut) { OnFailurePath(n, e, x, cut) && x.restoreOk }

  /**
    The rows and the revision are two transactions. A crash leaves the new rows under the old revision
    if and only if it falls after the rows were written and before a rollback put the old ones back.
  */
  lemma CrashMixesExactly(n: Node, e: Envelope, x: World, cut: ApplyCut, lease: bool)
    requires n.tables.content != e.payload.content
    ensures var t := ApplyInterrupted(n, e, x, cut, lease);
            && t.applied == n.applied
            && (t.tables.content != n.tables.content <==>
                  ReachesRows(n, e, x) && cut != AfterMetering && !BackAgain(n, e, x, cut))
  {
    CutKeepsIntent(n, e, x, cut);
    CutContent(n, e, x, cut);
  }

  lemma CutContent(n: Node, e: Envelope, x: World, cut: ApplyCut)
    ensures CutNode(n, e, x, cut).tables.content ==
            if ReachesRows(n, e, x) && cut != AfterMetering && !BackAgain(n, e, x, cut)
            then e.payload.content else n.tables.content
  {
    QuiescedWhen(n, e.payload, x);
    RollbackCoreRows(n, e, x);
    if Quiesced(n, e.payload, x).1 {
      QuiescedSample(n, e.payload, x);
      LaunchDoesNotSample(n, e, x);
    } else {
      HaltFailureChangesNothing(n, e.payload, x);
    }
  }

  /** Offering the old state again does not repair it: it is answered as unchanged. */
  lemma CrashCanMixGenerations(n: Node, e: Envelope, x: World, cut: ApplyCut, again: World, lease: bool)
    requires ReachesRows(n, e, x) && cut != AfterMetering && !BackAgain(n, e, x, cut)
    requires n.applied.error == "" && n.applied.payload.Some? && n.applied.revision >= 1
    ensures var t := ApplyInterrupted(n, e, x, cut, lease);
            var offered := Apply(t, Envelope(n.applied.revision, n.applied.payload.value), again);
            t.tables.content == e.payload.content && offered.1 == Same && offered.0.tables.content == e.payload.content
  {
    CutKeepsIntent(n, e, x, cut);
    CutContent(n, e, x, cut);
  }

  const OLD_PAYLOAD := Payload(true, {5}, 1, 1)

  /** Such a crash: generation two's rows under revision one, and revision one offered again changes nothing. */
  lemma MixedGenerationsExample()
    ensures var n := OLD_NODE.(applied := AppliedState(1, Some(OLD_PAYLOAD), ""));
            var t := ApplyInterrupted(n, NEW_STATE, DISK_FULL, AfterRows, true);
            && t.applied == n.applied && t.tables.content == 2 && n.tables.content == 1
            && Apply(t, Envelope(1, OLD_PAYLOAD), DISK_FULL).1 == Same
  {
    var n := OLD_NODE.(applied := AppliedState(1, Some(OLD_PAYLOAD), ""));
    CrashCanMixGenerations(n, NEW_STATE, DISK_FULL, AfterRows, DISK_FULL, true);
    CrashMixesExactly(n, NEW_STATE, DISK_FULL, AfterRows, true);
  }

  // ---------------------------------------------------------------- the apply itself

  class StateStore {
    var agent: Agent
    var tables: Tables
    var applied: AppliedState

    constructor (n: Node)
      ensures Value() == n
    {
      agent, tables, applied := n.agent, n.tables, n.applied;
    }

    function Value(): Node
      reads this
    {
      Node(agent, tables, applied)
    }

    /** One transaction: drop all rows, insert the payload's, carrying counters over by identity. */
    method ReplaceRows(p: Payload)
      modifies this`tables
      ensures Value() == Replaced(old(Value()), p)
    {
      var counters, todo := tables.counters, p.clients;
      var rows: map<nat, Pair> := map[];
      while todo != {}
        invariant todo <= p.clients && rows.Keys == p.clients - todo
        invariant forall c :: c in rows ==> rows[c] == if c in counters then counters[c] else ZERO
        decreases todo
      {
        var c :| c in todo;
        rows := rows[c := if c in counters then counters[c] else ZERO];
        todo := todo - {c};
      }
      tables := Tables(rows, tables.seen - (counters.Keys - p.clients), p.content, p.runtime);
    }

    method StartCore(e: Env, delta: map<nat, Pair>) returns (ok: bool)
      modifies this`agent, this`tables
      ensures Value() == EngineStart(old(Value()), e, delta).0
      ensures ok == EngineStart(old(Value()), e, delta).1
    {
      var here := e.(hash := tables.runtime);
      if ApplySamples(agent, false, here) { tables := Sampled(tables, delta); }
      var (a, started) := EngineApply(agent, true, false, here);
      agent := a;
      ok := started;
    }

    method StopCore(e: Env, delta: map<nat, Pair>) returns (ok: bool)
      modifies this`agent, this`tables
      ensures Value() == EngineHalt(old(Value()), e, delta).0
      ensures ok == EngineHalt(old(Value()), e, delta).1
    {
      if agent.running && e.statsOk { tables := Sampled(tables, delta); }
      var (a, stopped) := EngineStop(agent, e);
      agent := a;
      ok := stopped;
    }

    method Quiesce(p: Payload, x: World) returns (ok: bool)
      modifies this`agent, this`tables
      ensures Value() == Quiesced(old(Value()), p, x).0
      ensures ok == Quiesced(old(Value()), p, x).1
    {
      if Keeps(Value(), p, x) {
        if !x.stop.statsOk { return false; }
        tables := Sampled(tables, x.stopDelta);
        ok := true;
      } else {
        ok := StopCore(x.stop, x.stopDelta);
      }
    }

    method RollBack(before: Node, snap: Option<Node>, x: World) returns (clean: bool)
      modifies this
      ensures Value() == RolledBack(before, old(Value()), snap, x).0
      ensures clean == RolledBack(before, old(Value()), snap, x).1
    {
      clean := x.guardBack;
      if snap.Some? {
        if x.restoreOk {
          tables, applied, agent := snap.value.tables, snap.value.applied, agent.(control := snap.value.agent.control);
        } else {
          clean := false;
        }
      }
      ghost var rows := Value();
      assert rows == PutBack(old(Value()), snap, x);
      var ok;
      if before.agent.running { ok := StartCore(x.back, x.backDelta); } else { ok := StopCore(x.back, x.backDelta); }
      assert (Value(), ok) == RollbackCore(before, rows, x);
      if ok { agent := agent.(wants := before.agent.wants); } else { clean := false; }
      applied := applied.(error := x.detail);
    }

    method Replace(e: Envelope, willRun: bool, x: World) returns (ok: bool)
      modifies this`agent, this`tables
      ensures Value() == Launched(Replaced(old(Value()), e.payload), willRun, x).0
      ensures ok == Launched(Replaced(old(Value()), e.payload), willRun, x).1
    {
      ReplaceRows(e.payload);
      if willRun { ok := StartCore(x.start, x.startDelta); } else { ok := x.validates; }
    }

    /** The part of an apply that changes state, after the envelope was admitted. */
    method ReplaceGeneration(e: Envelope, x: World) returns (outcome: Outcome)
      requires Admit(applied, e, x.staged) == Proceed
      modifies this
      ensures Value() == Apply(old(Value()), e, x).0
      ensures outcome == Apply(old(Value()), e, x).1
    {
      var before, wish, manual := Value(), Wish(Value(), e.payload), ManualStop(agent);
      var willRun := wish && !manual && x.lease;
      var clean;
      var ok := Quiesce(e.payload, x);
      if !ok {
        clean := RollBack(before, None, x);
        return Undone(clean);
      }
      var snap := Value();
      if !x.guardOk || !x.filesOk || !x.rowsOk {
        clean := RollBack(before, Some(snap), x);
        return Undone(clean);
      }
      ok := Replace(e, willRun, x);
      if !ok || !x.finalOk {
        clean := RollBack(before, Some(snap), x);
        return Undone(clean);
      }
      agent := agent.(control := Some(Control(wish, manual)));
      applied := AppliedState(e.revision, Some(e.payload), "");
      outcome := Done;
    }

    method ApplyState(e: Envelope, x: World) returns (outcome: Outcome)
      modifies this
      ensures Value() == Apply(old(Value()), e, x).0
      ensures outcome == Apply(old(Value()), e, x).1
    {
      if e.revision < 1 || e.revision < applied.revision { return Refused; }
      if e.revision == applied.revision {
        if applied.payload != Some(e.payload) { return Refused; }
        if applied.error == "" {
          var after := Reconciled(Value(), x);
          agent, tables := after.agent, after.tables;
          return Same;
        }
      }
      if !x.staged { return Refused; }
      outcome := ReplaceGeneration(e, x);
    }
  }
}
