/**
  First enrolment of a Node and its withdrawal. The journal holds the bootstrap token, the candidate
  that shall replace it, and after a cancellation the disposal token that revokes both. Retries and
  cancellations may overlap; each takes the next operation number and so fences the ones before it,
  but a request already past its last check may still leave at any time and arrive at any time.
*/
module NodePairing {
  import opened Wrappers

  datatype Row = Row(bootstrap: nat, candidate: nat, disposal: Option<nat>, revision: nat, rotating: bool,
                     cancelling: bool)

  datatype Outcome = Paired(token: nat) | Withdrawn | Discarded

  /** The journal row until the attempt is decided, then its one receipt. */
  datatype Attempt = Open(row: Row) | Closed(outcome: Outcome)

  /** What an operation remembers of the row it started from. */
  datatype Ticket = Ticket(revision: nat, cancelling: bool)

  predicate Current(a: Attempt, t: Ticket) {
    a.Open? && a.row.revision == t.revision && a.row.cancelling == t.cancelling
  }

  predicate MayRetry(a: Attempt) { a.Open? && !a.row.cancelling && a.row.revision < REVISION_LIMIT - 2 }

  predicate MayWithdraw(a: Attempt) {
    a.Open? && !a.row.rotating && !a.row.cancelling && a.row.revision < REVISION_LIMIT - 2
  }

  predicate MayCancel(a: Attempt) { a.Open? && a.row.rotating && a.row.revision < REVISION_LIMIT - 2 }

  function Fenced(row: Row): Row { row.(revision := row.revision + 1) }

  function Cancelling(row: Row, freshToken: nat): Row {
    row.(revision := row.revision + 1, cancelling := true,
         disposal := if row.disposal.Some? then row.disposal else Some(freshToken))
  }

  /** The Hub's journal; every method is one transaction. */
  class PairingJournal {
    var attempt: Attempt

    constructor (bootstrap: nat, candidate: nat)
      ensures attempt == Open(Row(bootstrap, candidate, None, 0, false, false))
    {
      attempt := Open(Row(bootstrap, candidate, None, 0, false, false));
    }

    method StartRetry() returns (ticket: Option<Ticket>)
      modifies this
      ensures ticket.Some? <==>
                old(attempt).Open? && !old(attempt).row.cancelling && old(attempt).row.revision < 0x7FFF_FFFF_FFFF_FFFE
      ensures attempt == if ticket.Some? then Open(Fenced(old(attempt).row)) else old(attempt)
      ensures ticket.Some? ==> Current(attempt, ticket.value) && ticket.value.revision > old(attempt).row.revision
    {
      if attempt.Closed? || attempt.row.cancelling || attempt.row.revision >= REVISION_LIMIT - 2 { return None; }
      attempt := Open(attempt.row.(revision := attempt.row.revision + 1));
      ticket := Some(Ticket(attempt.row.revision, false));
    }

    method MarkRotating(ticket: Ticket) returns (ok: bool)
      modifies this
      ensures ok <==> Current(old(attempt), ticket)
      ensures attempt == if ok then Open(old(attempt).row.(rotating := true)) else old(attempt)
    {
      if !Current(attempt, ticket) { return false; }
      attempt := Open(attempt.row.(rotating := true));
      ok := true;
    }

    method Finish(ticket: Ticket) returns (ok: bool)
      modifies this
      ensures ok <==>
                && old(attempt).Open? && old(attempt).row.revision == ticket.revision
                && !old(attempt).row.cancelling && !ticket.cancelling
      ensures attempt == if ok then Closed(Paired(old(attempt).row.candidate)) else old(attempt)
    {
      if !Current(attempt, ticket) || attempt.row.cancelling { return false; }
      attempt := Closed(Paired(attempt.row.candidate));
      ok := true;
    }

    /** Withdraws at once what never reached the rotation boundary; otherwise opens the cancellation. */
    method Cancel(freshToken: nat) returns (ticket: Option<Ticket>)
      modifies this
      ensures attempt == if MayWithdraw(old(attempt)) then Closed(Withdrawn)
                         else if MayCancel(old(attempt)) then Open(Cancelling(old(attempt).row, freshToken))
                         else old(attempt)
      ensures attempt == Closed(Withdrawn) <==>
                || old(attempt) == Closed(Withdrawn)
                || (old(attempt).Open? && !old(attempt).row.rotating && !old(attempt).row.cancelling
                    && old(attempt).row.revision < 0x7FFF_FFFF_FFFF_FFFE)
      ensures ticket.Some? <==>
                old(attempt).Open? && old(attempt).row.rotating && old(attempt).row.revision < 0x7FFF_FFFF_FFFF_FFFE
      ensures ticket.Some? ==> Current(attempt, ticket.value) && ticket.value.cancelling
    {
      if attempt.Closed? || attempt.row.revision >= REVISION_LIMIT - 2 { return None; }
      if !attempt.row.rotating && !attempt.row.cancelling {
        attempt := Closed(Withdrawn);
        return None;
      }
      if !attempt.row.rotating { return None; }
      var row := attempt.row;
      if row.disposal.None? { row := row.(disposal := Some(freshToken)); }
      row := row.(cancelling := true, revision := row.revision + 1);
      attempt := Open(row);
      ticket := Some(Ticket(row.revision, true));
    }

    method FinishCancel(ticket: Ticket) returns (ok: bool)
      modifies this
      ensures ok <==>
                && old(attempt).Open? && old(attempt).row.revision == ticket.revision
                && old(attempt).row.cancelling == ticket.cancelling
      ensures attempt == if ok then Closed(Discarded) else old(attempt)
    {
      if !Current(attempt, ticket) { return false; }
      attempt := Closed(Discarded);
      ok := true;
    }
  }

  datatype Answer = Accepted | Unauthorized | Failed

  /** Tries the saved credentials newest first; only a proven 401 lets it go on to an older one. */
  method FindCredential(credentials: seq<nat>, probe: nat -> Answer) returns (found: Option<nat>)
    ensures found.Some? ==>
            exists i :: 0 <= i < |credentials| && credentials[i] == found.value && probe(found.value) == Accepted
                              && forall j :: 0 <= j < i ==> probe(credentials[j]) == Unauthorized
    ensures found.None? <==> forall i :: 0 <= i < |credentials| && probe(credentials[i]) == Accepted ==>
                               exists j :: 0 <= j < i && probe(credentials[j]) == Failed
  {
    var i := 0;
    while i < |credentials|
      invariant 0 <= i <= |credentials|
      invariant forall j :: 0 <= j < i ==> probe(credentials[j]) == Unauthorized
    {
      match probe(credentials[i])
      case Failed => return None;
      case Unauthorized => i := i + 1;
      case Accepted => return Some(credentials[i]);
    }
    found := None;
  }

  // ---------------------------------------------------------------- the distributed attempt

  /** What an operation has established; the stages of a cancellation follow those of a retry. */
  datatype Stage =
    | Started | BootstrapWorks | Announced | CandidateWorks
    | Found(token: nat) | Revoked | Idle | CandidateRefused | BothRefused | Ready

  datatype Worker = Worker(ticket: Ticket, stage: Stage)

  datatype Request = Rotate(auth: nat, value: nat) | GoIdle(auth: nat)

  /** The Agent's token, and whether it is durably paused. */
  datatype Agent = Agent(token: nat, idle: bool)

  /** `disposal` remembers the revoking token after the journal row is gone. */
  datatype Sys = Sys(attempt: Attempt, bootstrap: nat, candidate: nat, disposal: Option<nat>,
                     agent: Agent, sent: set<Request>, workers: map<nat, Worker>)

  datatype Step =
    | StartRetry(worker: nat)
    | ProbeBootstrap(worker: nat)
    | ProbeCandidate(worker: nat)
    | Announce(worker: nat)
    | SendCandidate(worker: nat)
    | Finish(worker: nat)
    | Withdraw
    | StartCancel(worker: nat, freshToken: nat)
    | Search(worker: nat, token: nat)
    | SendDisposal(worker: nat)
    | ProbeDisposal(worker: nat)
    | SendIdle(worker: nat)
    | ProbeRefusal(worker: nat)
    | FinishCancel(worker: nat)
    | Deliver(request: Request, admitted: bool)

  predicate At(s: Sys, w: nat, stage: Stage) { w in s.workers && s.workers[w].stage == stage }

  predicate CancelsWith(s: Sys, w: nat) { w in s.workers && s.workers[w].ticket.cancelling && s.disposal.Some? }

  predicate Enabled(s: Sys, step: Step) {
    match step
    case StartRetry(_) => MayRetry(s.attempt)
    case ProbeBootstrap(w) => At(s, w, Started) && !s.workers[w].ticket.cancelling
    case ProbeCandidate(w) => w in s.workers && !s.workers[w].ticket.cancelling
    case Announce(w) => At(s, w, BootstrapWorks) && Current(s.attempt, s.workers[w].ticket)
    case SendCandidate(w) => At(s, w, Announced)
    case Finish(w) => At(s, w, CandidateWorks) && Current(s.attempt, s.workers[w].ticket)
    case Withdraw => MayWithdraw(s.attempt)
    case StartCancel(_, freshToken) =>
      MayCancel(s.attempt) && freshToken !in {s.bootstrap, s.candidate}
    case Search(w, token) =>
      CancelsWith(s, w) && At(s, w, Started) && token in {s.disposal.value, s.candidate, s.bootstrap}
    case SendDisposal(w) => CancelsWith(s, w) && s.workers[w].stage.Found?
      && s.workers[w].stage.token != s.disposal.value
    case ProbeDisposal(w) => CancelsWith(s, w)
    case SendIdle(w) => CancelsWith(s, w) && At(s, w, Revoked)
    case ProbeRefusal(w) => CancelsWith(s, w) && (At(s, w, Idle) || At(s, w, CandidateRefused))
    case FinishCancel(w) => CancelsWith(s, w) && At(s, w, Ready) && Current(s.attempt, s.workers[w].ticket)
    case Deliver(request, _) => request in s.sent
  }

  function Advance(s: Sys, w: nat, stage: Stage): Sys
    requires w in s.workers
  {
    s.(workers := s.workers[w := s.workers[w].(stage := stage)])
  }

  /** A look at the Agent under the disposal token: revoked, and idle if it is paused by then. */
  function AfterDisposalProbe(s: Sys, w: nat): Stage
    requires w in s.workers
  {
    if !s.agent.idle then Revoked
    else if s.workers[w].stage == BothRefused || s.workers[w].stage == Ready then Ready
    else if s.workers[w].stage == CandidateRefused then CandidateRefused
    else Idle
  }

  function Delivered(a: Agent, r: Request): Agent {
    if r.auth != a.token then a
    else match r
      case Rotate(_, value) => a.(token := value)
      case GoIdle(_) => a.(idle := true)
  }

  function Next(s: Sys, step: Step): Sys
    requires Enabled(s, step)
  {
    match step
    case StartRetry(w) =>
      var row := Fenced(s.attempt.row);
      s.(attempt := Open(row), workers := s.workers[w := Worker(Ticket(row.revision, false), Started)])
    case ProbeBootstrap(w) => if s.agent.token == s.bootstrap then Advance(s, w, BootstrapWorks) else s
    case ProbeCandidate(w) => if s.agent.token == s.candidate then Advance(s, w, CandidateWorks) else s
    case Announce(w) => Advance(s, w, Announced).(attempt := Open(s.attempt.row.(rotating := true)))
    case SendCandidate(_) => s.(sent := s.sent + {Rotate(s.bootstrap, s.candidate)})
    case Finish(_) => s.(attempt := Closed(Paired(s.candidate)))
    case Withdraw => s.(attempt := Closed(Withdrawn))
    case StartCancel(w, freshToken) =>
      var row := Cancelling(s.attempt.row, freshToken);
      s.(attempt := Open(row), disposal := row.disposal,
         workers := s.workers[w := Worker(Ticket(row.revision, true), Started)])
    case Search(w, token) => if s.agent.token == token then Advance(s, w, Found(token)) else s
    case SendDisposal(w) => s.(sent := s.sent + {Rotate(s.workers[w].stage.token, s.disposal.value)})
    case ProbeDisposal(w) => if s.agent.token == s.disposal.value then Advance(s, w, AfterDisposalProbe(s, w)) else s
    case SendIdle(_) => s.(sent := s.sent + {GoIdle(s.disposal.value)})
    case ProbeRefusal(w) =>
      if s.workers[w].stage == Idle && s.agent.token != s.candidate then Advance(s, w, CandidateRefused)
      else if s.workers[w].stage == CandidateRefused && s.agent.token != s.bootstrap then Advance(s, w, BothRefused)
      else s
    case FinishCancel(_) => s.(attempt := Closed(Discarded))
    case Deliver(request, admitted) => if admitted then s.(agent := Delivered(s.agent, request)) else s
  }

  predicate Initial(s: Sys) {
    && s.bootstrap != s.candidate && s.disposal.None?
    && s.attempt == Open(Row(s.bootstrap, s.candidate, None, 0, false, false))
    && s.agent == Agent(s.bootstrap, s.agent.idle) && s.sent == {} && s.workers == map[]
  }

  // ---------------------------------------------------------------- the invariant

  predicate Tokens(s: Sys) {
    && s.bootstrap != s.candidate
    && (s.disposal.Some? ==> s.disposal.value !in {s.bootstrap, s.candidate})
    && (s.attempt.Open? ==> s.attempt.row.bootstrap == s.bootstrap && s.attempt.row.candidate == s.candidate
                            && s.attempt.row.disposal == s.disposal && (s.attempt.row.cancelling <==> s.disposal.Some?)
                            && (s.attempt.row.cancelling ==> s.attempt.row.rotating))
  }

  /** Requests only ever move the Agent forward: bootstrap, candidate, disposal. */
  predicate Forward(s: Sys, r: Request) {
    match r
    case Rotate(auth, value) =>
      || (auth == s.bootstrap && value == s.candidate)
      || (s.disposal.Some? && auth in {s.bootstrap, s.candidate} && value == s.disposal.value)
    case GoIdle(auth) => s.disposal.Some? && auth == s.disposal.value
  }

  predicate BeforeBoundary(s: Sys) {
    && s.sent == {} && s.agent.token == s.bootstrap && s.disposal.None?
    && forall w :: w in s.workers ==> s.workers[w].stage == Started || s.workers[w].stage == BootstrapWorks
  }

  predicate WorkerInv(s: Sys, k: Worker) {
    && (k.ticket.cancelling ==> s.disposal.Some?)
    && (!k.ticket.cancelling ==>
        k.stage.Started? || k.stage.BootstrapWorks? || k.stage.Announced? || k.stage.CandidateWorks?)
    && (k.ticket.cancelling ==> !k.stage.BootstrapWorks? && !k.stage.Announced? && !k.stage.CandidateWorks?)
    && (k.stage.CandidateWorks? ==> s.agent.token != s.bootstrap)
    && (k.stage.Found? ==> s.disposal.Some? && k.stage.token in {s.disposal.value, s.candidate, s.bootstrap})
    && (k.ticket.cancelling && !k.stage.Started? && !k.stage.Found? ==> s.agent.token == s.disposal.value)
    && (k.stage.Idle? || k.stage.CandidateRefused? || k.stage.BothRefused? || k.stage.Ready? ==> s.agent.idle)
  }

  predicate OutcomeInv(s: Sys) {
    match s.attempt
    case Open(row) => !row.rotating ==> BeforeBoundary(s)
    case Closed(Paired(token)) => token == s.candidate && s.agent.token == s.candidate && s.disposal.None?
    case Closed(Withdrawn) => BeforeBoundary(s)
    case Closed(Discarded) => s.disposal.Some? && s.agent == Agent(s.disposal.value, true)
  }

  predicate Inv(s: Sys) {
    && Tokens(s) && OutcomeInv(s)
    && s.agent.token in {s.bootstrap, s.candidate} + (if s.disposal.Some? then {s.disposal.value} else {})
    && (forall r :: r in s.sent ==> Forward(s, r))
    && (forall w :: w in s.workers ==> WorkerInv(s, s.workers[w]))
  }

  lemma DeliverKeeps(s: Sys, r: Request, admitted: bool)
    requires Inv(s) && r in s.sent
    ensures Inv(Next(s, Deliver(r, admitted)))
  {
    assert Forward(s, r);
  }

  lemma CancelStartKeeps(s: Sys, w: nat, freshToken: nat)
    requires Inv(s) && Enabled(s, StartCancel(w, freshToken))
    ensures Inv(Next(s, StartCancel(w, freshToken)))
  {
    var t := Next(s, StartCancel(w, freshToken));
    assert forall r :: Forward(s, r) ==> Forward(t, r);
    assert forall k :: k in s.workers ==> WorkerInv(s, s.workers[k]);
  }

  lemma WorkerStepKeeps(s: Sys, step: Step)
    requires Inv(s) && Enabled(s, step)
    requires step.ProbeBootstrap? || step.ProbeCandidate? || step.Announce? || step.Search? || step.ProbeDisposal?
             || step.ProbeRefusal?
    ensures Inv(Next(s, step))
  {
    assert WorkerInv(s, s.workers[step.worker]);
  }

  lemma StepKeeps(s: Sys, step: Step)
    requires Inv(s) && Enabled(s, step)
    ensures Inv(Next(s, step))
  {
    match step
    case Deliver(r, admitted) => DeliverKeeps(s, r, admitted);
    case StartCancel(w, freshToken) => CancelStartKeeps(s, w, freshToken);
    case StartRetry(_) =>
    case SendCandidate(w) => assert WorkerInv(s, s.workers[w]);
    case Finish(w) => assert WorkerInv(s, s.workers[w]);
    case Withdraw =>
    case SendDisposal(w) => assert WorkerInv(s, s.workers[w]);
    case SendIdle(w) => assert WorkerInv(s, s.workers[w]);
    case FinishCancel(w) => assert WorkerInv(s, s.workers[w]);
    case _ => WorkerStepKeeps(s, step);
  }

  ghost predicate Run(states: seq<Sys>, steps: seq<Step>) {
    && |states| == |steps| + 1
    && Initial(states[0])
    && forall i :: 0 <= i < |steps| ==> Enabled(states[i], steps[i]) && states[i + 1] == Next(states[i], steps[i])
  }

  lemma {:induction false} RunInvariant(states: seq<Sys>, steps: seq<Step>, n: nat)
    requires Run(states, steps) && n < |states|
    ensures Inv(states[n])
    decreases n
  {
    if n > 0 {
      RunInvariant(states, steps, n - 1);
      StepKeeps(states[n - 1], steps[n - 1]);
    }
  }

  // ---------------------------------------------------------------- outcomes

  /** No request in flight can still change the Agent's credential. */
  predicate Settled(s: Sys) { forall r :: r in s.sent && r.Rotate? ==> r.auth != s.agent.token }

  /**
    The outcome on record is true of the Agent: paired, it holds the registered candidate; withdrawn,
    no rotate was ever sent and it still holds its bootstrap token; discarded, it holds the disposal
    token, is durably idle, and nothing in flight can be accepted. Until then its token is in the
    journal.
  */
  lemma OutcomeMatchesAgent(states: seq<Sys>, steps: seq<Step>, n: nat)
    requires Run(states, steps) && n < |states|
    ensures var s := states[n];
            match s.attempt
            case Open(row) =>
              s.agent.token in {row.bootstrap, row.candidate}
                               + (if row.disposal.Some? then {row.disposal.value} else {})
              && (!row.rotating ==> s.sent == {} && s.agent.token == row.bootstrap)
            case Closed(Paired(token)) => s.agent.token == token == s.candidate && Settled(s)
            case Closed(Withdrawn) => s.sent == {} && s.agent.token == s.bootstrap
            case Closed(Discarded) => s.disposal.Some? && s.agent == Agent(s.disposal.value, true) && Settled(s)
                                      && s.agent.token !in {s.bootstrap, s.candidate}
  {
    RunInvariant(states, steps, n);
    var s := states[n];
    if s.attempt.Closed? {
      assert forall r :: r in s.sent ==> Forward(s, r);
    }
  }

  lemma ClosedStep(s: Sys, step: Step)
    requires Inv(s) && Enabled(s, step) && s.attempt.Closed?
    ensures Next(s, step).attempt == s.attempt && Next(s, step).agent.token == s.agent.token
  {
    match step
    case Deliver(r, admitted) => assert Forward(s, r);
    case Finish(w) =>
    case _ =>
  }

  /** An attempt is decided once; after that the Agent's credential does not move either. */
  lemma {:induction false} OutcomeIsFinal(states: seq<Sys>, steps: seq<Step>, m: nat, n: nat)
    requires Run(states, steps) && m <= n < |states| && states[m].attempt.Closed?
    ensures states[n].attempt == states[m].attempt && states[n].agent.token == states[m].agent.token
    decreases n - m
  {
    if m < n {
      OutcomeIsFinal(states, steps, m, n - 1);
      RunInvariant(states, steps, n - 1);
      ClosedStep(states[n - 1], steps[n - 1]);
    }
  }

  // ---------------------------------------------------------------- progress

  /** A retry nobody interferes with, from an Agent that admits its rotation. */
  ghost function UndisturbedRetry(s: Sys, w: nat): Sys
    requires Inv(s) && MayRetry(s.attempt)
  {
    StepKeeps(s, StartRetry(w));
    var a := Next(s, StartRetry(w));
    var b := Next(a, ProbeCandidate(w));
    if At(b, w, CandidateWorks) then Next(b, Finish(w))
    else
      var c := Next(b, ProbeBootstrap(w));
      var d := Next(c, Announce(w));
      var e := Next(d, SendCandidate(w));
      var f := Next(e, Deliver(Rotate(s.bootstrap, s.candidate), true));
      Next(Next(f, ProbeCandidate(w)), Finish(w))
  }

  /**
    Every reachable undecided attempt can be ended as long as its operation numbers last: it can be retried unless a
    cancellation was begun, withdrawn exactly before the rotation boundary, and cancelled exactly after it.
  */
  lemma OpenAttemptEnds(states: seq<Sys>, steps: seq<Step>, n: nat)
    requires Run(states, steps) && n < |states| && states[n].attempt.Open?
    requires states[n].attempt.row.revision < 0x7FFF_FFFF_FFFF_FFFE
    ensures var row := states[n].attempt.row;
            && (MayRetry(states[n].attempt) <==> !row.cancelling)
            && (MayWithdraw(states[n].attempt) <==> !row.rotating)
            && (MayCancel(states[n].attempt) <==> row.rotating)
    ensures !states[n].attempt.row.rotating ==>
              && Enabled(states[n], Withdraw)
              && Next(states[n], Withdraw) == states[n].(attempt := Closed(Withdrawn))
  {
    RunInvariant(states, steps, n);
    assert Tokens(states[n]);
  }

  /** It pairs the Node from any reachable open attempt that is not being cancelled. */
  lemma OneRetryPairs(states: seq<Sys>, steps: seq<Step>, n: nat, w: nat)
    requires Run(states, steps) && n < |states| && states[n].attempt.Open? && !states[n].attempt.row.cancelling
    requires states[n].attempt.row.revision < 0x7FFF_FFFF_FFFF_FFFE
    ensures Inv(states[n]) && MayRetry(states[n].attempt)
    ensures var t := UndisturbedRetry(states[n], w);
            t.attempt == Closed(Paired(t.candidate)) && t.agent.token == t.candidate
  {
    RunInvariant(states, steps, n);
  }

  /** The cancellation of worker `w` is in progress and nothing but the worker's stage and the Agent differs. */
  ghost predicate SameCancel(s: Sys, t: Sys, w: nat) {
    && t.attempt == s.attempt && t.disposal == s.disposal && t.candidate == s.candidate && t.bootstrap == s.bootstrap
    && w in s.workers && w in t.workers && t.workers[w].ticket == s.workers[w].ticket
  }

  /** Find the Agent's token among the saved ones and replace it by the disposal token. */
  ghost function Revoking(s: Sys, w: nat): (t: Sys)
    requires CancelsWith(s, w) && At(s, w, Started) && s.agent.token in {s.disposal.value, s.candidate, s.bootstrap}
    ensures SameCancel(s, t, w) && t.agent == s.agent.(token := s.disposal.value)
    ensures At(t, w, if t.agent.idle then Idle else Revoked)
  {
    var a := Next(s, Search(w, s.agent.token));
    var b := if a.agent.token == s.disposal.value then a
             else Next(Next(a, SendDisposal(w)), Deliver(Rotate(s.agent.token, s.disposal.value), true));
    Next(b, ProbeDisposal(w))
  }

  ghost function Idling(s: Sys, w: nat): (t: Sys)
    requires CancelsWith(s, w) && s.agent.token == s.disposal.value && At(s, w, if s.agent.idle then Idle else Revoked)
    ensures SameCancel(s, t, w) && t.agent == Agent(s.disposal.value, true) && At(t, w, Idle)
  {
    if s.agent.idle then s
    else Next(Next(Next(s, SendIdle(w)), Deliver(GoIdle(s.disposal.value), true)), ProbeDisposal(w))
  }

  /** See both older tokens refused, then look at the idle Agent once more. */
  ghost function Verifying(s: Sys, w: nat): (t: Sys)
    requires CancelsWith(s, w) && At(s, w, Idle) && s.agent == Agent(s.disposal.value, true)
    requires s.disposal.value !in {s.bootstrap, s.candidate}
    ensures SameCancel(s, t, w) && t.agent == s.agent && At(t, w, Ready)
  {
    Next(Next(Next(s, ProbeRefusal(w)), ProbeRefusal(w)), ProbeDisposal(w))
  }

  /** A cancellation nobody interferes with: find the token, revoke it, idle, verify, release. */
  ghost function UndisturbedCancel(s: Sys, w: nat, freshToken: nat): (t: Sys)
    requires Inv(s) && Enabled(s, StartCancel(w, freshToken))
    ensures t.attempt == Closed(Discarded) && t.disposal.Some? && t.agent == Agent(t.disposal.value, true)
  {
    CancelStartKeeps(s, w, freshToken);
    var a := Next(s, StartCancel(w, freshToken));
    Next(Verifying(Idling(Revoking(a, w), w), w), FinishCancel(w))
  }

  /** It discards any reachable open attempt that passed the rotation boundary. */
  lemma OneCancelDiscards(states: seq<Sys>, steps: seq<Step>, n: nat, w: nat, freshToken: nat)
    requires Run(states, steps) && n < |states| && states[n].attempt.Open? && states[n].attempt.row.rotating
    requires states[n].attempt.row.revision < 0x7FFF_FFFF_FFFF_FFFE
    requires freshToken != states[n].bootstrap && freshToken != states[n].candidate
    ensures Inv(states[n]) && Enabled(states[n], StartCancel(w, freshToken))
    ensures UndisturbedCancel(states[n], w, freshToken).attempt == Closed(Discarded)
  {
    RunInvariant(states, steps, n);
  }
}
