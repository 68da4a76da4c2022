/**
  Rotation of the bearer token of one Node binding. The Hub journals each handoff before it sends
  the new token under the old one; requests may be delayed, duplicated and reordered without bound,
  retries may overlap, and any of them may die at any point. Tokens are opaque values.
*/
module CredentialHandoff {
  import opened Wrappers

  datatype Phase = Pending | Rotating | Completed
  datatype Row = Row(original: nat, candidate: nat, revision: nat, phase: Phase)
  datatype Hub = Hub(registered: nat, rows: seq<Row>)

  predicate Open(h: Hub) { h.rows != [] && h.rows[|h.rows| - 1].phase != Completed }

  function Last(h: Hub): Row
    requires h.rows != []
  {
    h.rows[|h.rows| - 1]
  }

  predicate Used(h: Hub, token: nat) {
    exists i :: 0 <= i < |h.rows| && (h.rows[i].candidate == token || h.rows[i].original == token)
  }

  // ---------------------------------------------------------------- the two objects

  /** The Agent's side: reauthenticate under the rotation lock, then replace. */
  function Rotated(token: nat, auth: nat, value: nat): nat { if auth == token then value else token }

  class AgentToken {
    var token: nat

    constructor (token: nat)
      ensures this.token == token
    {
      this.token := token;
    }

    method Rotate(auth: nat, value: nat) returns (ok: bool)
      modifies this
      ensures token == Rotated(old(token), auth, value)
      ensures ok <==> auth == old(token)
    {
      if auth != token { return false; }
      token := value;
      ok := true;
    }
  }

  datatype Begun = Started | Resumed | AlreadyCurrent | Refused

  function BeginVerdict(h: Hub, candidate: nat): Begun {
    if Open(h) then (if Last(h).candidate == candidate then Resumed else Refused)
    else if h.registered == candidate then
      (if h.rows != [] && Last(h).candidate == candidate then AlreadyCurrent else Refused)
    else if Used(h, candidate) then Refused
    else Started
  }

  function BeginHandoff(h: Hub, candidate: nat): Hub {
    if BeginVerdict(h, candidate) != Started then h
    else h.(rows := h.rows + [Row(h.registered, candidate, 0, Pending)])
  }

  /** The newest attempt is not finished. */
  predicate Underway(rows: seq<Row>) { rows != [] && rows[|rows| - 1].phase != Completed }

  /** The token has never been part of this binding. */
  predicate NeverSeen(registered: nat, rows: seq<Row>, token: nat) {
    token != registered && forall i :: 0 <= i < |rows| ==> rows[i].original != token && rows[i].candidate != token
  }

  /**
    What a request to hand off comes to: an attempt under way is resumed for its own candidate only; otherwise any
    token never seen before starts an attempt from the registered one, however many came before.
  */
  lemma BeginExactly(h: Hub, candidate: nat)
    ensures BeginVerdict(h, candidate) == Started <==>
              !Underway(h.rows) && NeverSeen(h.registered, h.rows, candidate)
    ensures BeginVerdict(h, candidate) == Resumed <==>
              Underway(h.rows) && h.rows[|h.rows| - 1].candidate == candidate
    ensures BeginVerdict(h, candidate) == AlreadyCurrent <==>
              h.rows != [] && !Underway(h.rows) && h.rows[|h.rows| - 1].candidate == candidate == h.registered
    ensures BeginHandoff(h, candidate) ==
            if !Underway(h.rows) && NeverSeen(h.registered, h.rows, candidate)
            then Hub(h.registered, h.rows + [Row(h.registered, candidate, 0, Pending)]) else h
  {
  }

  /** What a worker must find unchanged at every step it takes on the journal. */
  predicate Current(h: Hub, row: nat, revision: nat) {
    row < |h.rows| && h.rows[row].phase != Completed && h.rows[row].revision == revision
    && h.registered == h.rows[row].original
  }

  function Fence(h: Hub, row: nat): Hub
    requires row < |h.rows|
  {
    h.(rows := h.rows[row := h.rows[row].(revision := h.rows[row].revision + 1)])
  }

  function Marked(h: Hub, row: nat): Hub
    requires row < |h.rows|
  {
    h.(rows := h.rows[row := h.rows[row].(phase := Rotating)])
  }

  function Published(h: Hub, row: nat): Hub
    requires row < |h.rows|
  {
    Hub(h.rows[row].candidate, h.rows[row := h.rows[row].(phase := Completed)])
  }

  class Journal {
    var registered: nat
    var rows: seq<Row>

    constructor (registered: nat)
      ensures Value() == Hub(registered, [])
    {
      this.registered, rows := registered, [];
    }

    function Value(): Hub
      reads this
    {
      Hub(registered, rows)
    }

    method Begin(candidate: nat) returns (v: Begun)
      modifies this`rows
      ensures v == BeginVerdict(old(Value()), candidate)
      ensures Value() == BeginHandoff(old(Value()), candidate)
      ensures v == Started <==> !Underway(old(rows)) && NeverSeen(registered, old(rows), candidate)
      ensures v == Resumed <==> Underway(old(rows)) && old(rows)[|old(rows)| - 1].candidate == candidate
      ensures rows == if v == Started then old(rows) + [Row(registered, candidate, 0, Pending)] else old(rows)
    {
      var n := |rows|;
      if n > 0 && rows[n - 1].phase != Completed {
        return if rows[n - 1].candidate == candidate then Resumed else Refused;
      }
      if registered == candidate {
        return if n > 0 && rows[n - 1].candidate == candidate then AlreadyCurrent else Refused;
      }
      var i := 0;
      while i < n
        invariant 0 <= i <= n
        invariant forall j :: 0 <= j < i ==> rows[j].candidate != candidate && rows[j].original != candidate
      {
        if rows[i].candidate == candidate || rows[i].original == candidate { return Refused; }
        i := i + 1;
      }
      rows := rows + [Row(registered, candidate, 0, Pending)];
      v := Started;
    }

    /** Takes the next operation number; every older worker is fenced off from then on. */
    method StartRetry(row: nat) returns (revision: Option<nat>)
      requires row < |rows|
      modifies this`rows
      ensures var h := old(Value());
              var allowed := h.rows[row].phase != Completed && h.rows[row].revision < 0x7FFF_FFFF_FFFF_FFFE
                             && h.registered == h.rows[row].original;
              && (revision.Some? <==> allowed)
              && Value() == (if allowed then Fence(h, row) else h)
              && (allowed ==> Current(Value(), row, revision.value) && forall r: nat :: r < revision.value ==>
                  !Current(Value(), row, r))
    {
      if rows[row].phase == Completed || rows[row].revision >= REVISION_LIMIT - 2 || registered != rows[row].original {
        return None;
      }
      rows := rows[row := rows[row].(revision := rows[row].revision + 1)];
      revision := Some(rows[row].revision);
    }

    method MarkRotating(row: nat, revision: nat) returns (ok: bool)
      modifies this`rows
      ensures ok <==> Current(old(Value()), row, revision)
      ensures ok <==>
                && row < |old(rows)| && old(rows)[row].phase != Completed
                && old(rows)[row].revision == revision && old(registered) == old(rows)[row].original
      ensures Value() == if ok then Marked(old(Value()), row) else old(Value())
    {
      if !Current(Value(), row, revision) { return false; }
      rows := rows[row := rows[row].(phase := Rotating)];
      ok := true;
    }

    method Finish(row: nat, revision: nat) returns (ok: bool)
      modifies this
      ensures ok <==> Current(old(Value()), row, revision)
      ensures ok <==>
                && row < |old(rows)| && old(rows)[row].phase != Completed
                && old(rows)[row].revision == revision && old(registered) == old(rows)[row].original
      ensures Value() == if ok then Published(old(Value()), row) else old(Value())
    {
      if !Current(Value(), row, revision) { return false; }
      registered := rows[row].candidate;
      rows := rows[row := rows[row].(phase := Completed)];
      ok := true;
    }
  }

  // ---------------------------------------------------------------- the distributed handoff

  /** What one retry has established so far. */
  datatype Stage = Fenced | OriginalWorks | Announced | CandidateWorks
  datatype Worker = Worker(row: nat, revision: nat, stage: Stage)
  datatype Rotate = Rotate(auth: nat, value: nat)

  /** Every rotate ever sent stays in `sent` and may reach the Agent at any later time, repeatedly. */
  datatype Sys = Sys(hub: Hub, agent: nat, sent: set<Rotate>, workers: map<nat, Worker>)

  datatype Step =
    | Begin(candidate: nat)
    | Retry(worker: nat)
    | ProbeCandidate(worker: nat)
    | ProbeOriginal(worker: nat)
    | Announce(worker: nat)
    | Send(worker: nat)
    | Deliver(rotate: Rotate)
    | Finish(worker: nat)

  predicate Enabled(s: Sys, step: Step) {
    match step
    case Begin(_) => true
    case Retry(_) => Open(s.hub) && s.hub.registered == Last(s.hub).original
      && Last(s.hub).revision < REVISION_LIMIT - 2
    case ProbeCandidate(w) => w in s.workers
    case ProbeOriginal(w) => w in s.workers && s.workers[w].stage == Fenced
    case Announce(w) =>
      w in s.workers && s.workers[w].stage == OriginalWorks && Current(s.hub, s.workers[w].row, s.workers[w].revision)
    case Send(w) =>
      w in s.workers && s.workers[w].stage == Announced && Current(s.hub, s.workers[w].row, s.workers[w].revision)
    case Deliver(rotate) => rotate in s.sent
    case Finish(w) =>
      w in s.workers && s.workers[w].stage == CandidateWorks && Current(s.hub, s.workers[w].row, s.workers[w].revision)
  }

  /** A probe establishes something only if the token it carries is the Agent's at that moment. */
  function Probed(s: Sys, w: nat, token: nat, stage: Stage): Sys
    requires w in s.workers
  {
    if s.agent == token then s.(workers := s.workers[w := s.workers[w].(stage := stage)]) else s
  }

  function RowOf(s: Sys, w: nat): Row
    requires w in s.workers && s.workers[w].row < |s.hub.rows|
  {
    s.hub.rows[s.workers[w].row]
  }

  function Next(s: Sys, step: Step): Sys
    requires Enabled(s, step) && WorkersKnown(s)
  {
    match step
    case Begin(candidate) => s.(hub := BeginHandoff(s.hub, candidate))
    case Retry(w) =>
      var row := |s.hub.rows| - 1;
      s.(hub := Fence(s.hub, row), workers := s.workers[w := Worker(row, s.hub.rows[row].revision + 1, Fenced)])
    case ProbeCandidate(w) => Probed(s, w, RowOf(s, w).candidate, CandidateWorks)
    case ProbeOriginal(w) => Probed(s, w, RowOf(s, w).original, OriginalWorks)
    case Announce(w) =>
      s.(hub := Marked(s.hub, s.workers[w].row), workers := s.workers[w := s.workers[w].(stage := Announced)])
    case Send(w) => s.(sent := s.sent + {Rotate(RowOf(s, w).original, RowOf(s, w).candidate)})
    case Deliver(rotate) => s.(agent := Rotated(s.agent, rotate.auth, rotate.value))
    case Finish(w) => s.(hub := Published(s.hub, s.workers[w].row))
  }

  predicate WorkersKnown(s: Sys) { forall w :: w in s.workers ==> s.workers[w].row < |s.hub.rows| }

  /**
    A registered Node before its first handoff. Rotates that brought it there may still be under way: each
    replaces a token that is no longer in force by another one.
  */
  predicate Initial(s: Sys) {
    && s.hub.rows == [] && s.agent == s.hub.registered && s.workers == map[]
    && forall m :: m in s.sent ==> m.auth != s.agent && m.auth != m.value
  }

  /** Each handoff continues where the one before it ended, with a token never seen before. */
  predicate Chain(h: Hub) {
    var n := |h.rows|;
    && (forall i :: 0 <= i < n - 1 ==> h.rows[i].phase == Completed && h.rows[i].candidate == h.rows[i + 1].original)
    && (forall i :: 0 <= i < n ==> h.rows[i].candidate != h.rows[i].original)
    && (forall i, j :: 0 <= i < j < n ==>
        h.rows[i].original != h.rows[j].original && h.rows[i].original != h.rows[j].candidate
                                          && h.rows[i].candidate != h.rows[j].candidate)
    && (n > 0 ==> h.registered == if Open(h) then Last(h).original else Last(h).candidate)
  }

  /** The Agent's token is the registered one, or the candidate of a handoff that was announced. */
  predicate InJournal(s: Sys) {
    s.agent == s.hub.registered || (Open(s.hub) && Last(s.hub).phase == Rotating && s.agent == Last(s.hub).candidate)
  }

  predicate FromRow(h: Hub, m: Rotate, i: nat) {
    i < |h.rows| && m == Rotate(h.rows[i].original, h.rows[i].candidate) && h.rows[i].phase != Pending
  }

  /** The rotate is none of this journal's: the token it starts from is neither registered nor in any row. */
  predicate Foreign(h: Hub, m: Rotate) {
    && m.auth != h.registered && m.auth != m.value
    && forall i :: 0 <= i < |h.rows| ==> h.rows[i].original != m.auth && h.rows[i].candidate != m.auth
  }

  ghost predicate Explained(h: Hub, m: Rotate) { Foreign(h, m) || exists i: nat :: FromRow(h, m, i) }

  /** A new handoff does not take a token that a rotate from before the journal would start from. */
  predicate Clean(s: Sys, step: Step) {
    step.Begin? && BeginVerdict(s.hub, step.candidate) == Started ==>
      forall m :: m in s.sent && Foreign(s.hub, m) ==> m.auth != step.candidate
  }

  ghost predicate Inv(s: Sys) {
    && Chain(s.hub) && InJournal(s) && WorkersKnown(s)
    && (forall m :: m in s.sent ==> Explained(s.hub, m))
    && (forall w :: w in s.workers && s.workers[w].stage == CandidateWorks && s.workers[w].row == |s.hub.rows| - 1
           ==> s.agent == Last(s.hub).candidate)
    && (forall w :: w in s.workers && s.workers[w].stage == Announced ==> s.hub.rows[s.workers[w].row].phase != Pending)
  }

  lemma BeginKeeps(s: Sys, candidate: nat)
    requires Inv(s) && Clean(s, Begin(candidate))
    ensures Inv(Next(s, Begin(candidate)))
  {
    var t := Next(s, Begin(candidate));
    if BeginVerdict(s.hub, candidate) == Started {
      var n := |s.hub.rows|;
      forall i | 0 <= i < n
        ensures s.hub.rows[i].original != candidate && s.hub.rows[i].candidate != candidate
      {
      }
      forall i | 0 <= i < n
        ensures s.hub.rows[i].original != s.hub.registered
                && (i < n - 1 ==> s.hub.rows[i].candidate != s.hub.registered)
      {
      }
      SentSurvives(s, t);
    }
  }

  /** A row keeps its tokens and never goes back to pending, so a sent rotate stays explained. */
  lemma SentSurvives(s: Sys, t: Sys)
    requires forall m :: m in s.sent ==> Explained(s.hub, m)
    requires forall m :: m in s.sent && Foreign(s.hub, m) ==> Foreign(t.hub, m)
    requires |s.hub.rows| <= |t.hub.rows|
    requires forall i :: 0 <= i < |s.hub.rows| ==>
               t.hub.rows[i].original == s.hub.rows[i].original && t.hub.rows[i].candidate == s.hub.rows[i].candidate
               && (s.hub.rows[i].phase != Pending ==> t.hub.rows[i].phase != Pending)
    ensures forall m :: m in s.sent ==> Explained(t.hub, m)
  {
    forall m | m in s.sent
      ensures Explained(t.hub, m)
    {
      if !Foreign(s.hub, m) {
        var i: nat :| FromRow(s.hub, m, i);
        assert FromRow(t.hub, m, i);
      }
    }
  }

  lemma RetryKeeps(s: Sys, w: nat)
    requires Inv(s) && Enabled(s, Retry(w))
    ensures Inv(Next(s, Retry(w)))
  {
    SentSurvives(s, Next(s, Retry(w)));
  }

  lemma AnnounceKeeps(s: Sys, w: nat)
    requires Inv(s) && Enabled(s, Announce(w))
    ensures Inv(Next(s, Announce(w)))
  {
    SentSurvives(s, Next(s, Announce(w)));
  }

  lemma SendKeeps(s: Sys, w: nat)
    requires Inv(s) && Enabled(s, Send(w))
    ensures Inv(Next(s, Send(w)))
  {
    var m := Rotate(RowOf(s, w).original, RowOf(s, w).candidate);
    assert FromRow(s.hub, m, s.workers[w].row);
  }

  lemma FinishKeeps(s: Sys, w: nat)
    requires Inv(s) && Enabled(s, Finish(w))
    ensures Inv(Next(s, Finish(w)))
  {
    var row := s.workers[w].row;
    assert row == |s.hub.rows| - 1;
    SentSurvives(s, Next(s, Finish(w)));
  }

  /** A delivered rotate is accepted only if it belongs to the open handoff. */
  lemma AcceptedIsOpen(s: Sys, m: Rotate)
    requires Inv(s) && m in s.sent && m.auth == s.agent
    ensures Open(s.hub) && m == Rotate(Last(s.hub).original, Last(s.hub).candidate) && Last(s.hub).phase == Rotating
  {
    var i: nat :| FromRow(s.hub, m, i);
    assert i == |s.hub.rows| - 1;
  }

  lemma DeliverKeeps(s: Sys, m: Rotate)
    requires Inv(s) && Enabled(s, Deliver(m))
    ensures Inv(Next(s, Deliver(m)))
  {
    if m.auth == s.agent {
      AcceptedIsOpen(s, m);
    }
  }

  lemma StepKeeps(s: Sys, step: Step)
    requires Inv(s) && Enabled(s, step) && Clean(s, step)
    ensures Inv(Next(s, step))
  {
    match step
    case Begin(candidate) => BeginKeeps(s, candidate);
    case Retry(w) => RetryKeeps(s, w);
    case ProbeCandidate(w) =>
    case ProbeOriginal(w) =>
    case Announce(w) => AnnounceKeeps(s, w);
    case Send(w) => SendKeeps(s, w);
    case Deliver(m) => DeliverKeeps(s, m);
    case Finish(w) => FinishKeeps(s, w);
  }

  ghost predicate Path(states: seq<Sys>, steps: seq<Step>) {
    && |states| == |steps| + 1
    && forall i :: 0 <= i < |steps| ==>
         Enabled(states[i], steps[i]) && WorkersKnown(states[i]) && states[i + 1] == Next(states[i], steps[i])
  }

  ghost predicate Run(states: seq<Sys>, steps: seq<Step>) {
    Path(states, steps) && Initial(states[0]) && forall i :: 0 <= i < |steps| ==> Clean(states[i], steps[i])
  }

  lemma {:induction false} RunInvariant(states: seq<Sys>, steps: seq<Step>, n: nat)
    requires Run(states, steps) && n < |states|
    ensures Inv(states[n])
    decreases n
  {
    if n > 0 {
      RunInvariant(states, steps, n - 1);
      StepKeeps(states[n - 1], steps[n - 1]);
    }
  }

  /**
    No lock-out, whatever is still under way when the journal begins, as long as no handoff takes a token
    that such a rotate starts from: in every reachable state the Hub has the Agent's token on record, as the registered
    one or as the announced candidate; once no handoff is open the two sides hold the same token.
  */
  lemma NeverLockedOut(states: seq<Sys>, steps: seq<Step>, n: nat)
    requires Run(states, steps) && n < |states|
    ensures var s := states[n];
            && (s.agent == s.hub.registered || (Open(s.hub) && s.agent == Last(s.hub).candidate))
            && (!Open(s.hub) ==> s.agent == s.hub.registered)
            && (Open(s.hub) && Last(s.hub).phase == Pending ==> s.agent == s.hub.registered)
  {
    RunInvariant(states, steps, n);
  }

  /** A rotate of a completed handoff is refused, however late it arrives. */
  lemma StaleRotateRefused(states: seq<Sys>, steps: seq<Step>, n: nat, m: Rotate)
    requires Run(states, steps) && n < |states| && m in states[n].sent
    requires !(Open(states[n].hub) && m.value == Last(states[n].hub).candidate)
    ensures m.auth != states[n].agent
  {
    RunInvariant(states, steps, n);
    if m.auth == states[n].agent {
      AcceptedIsOpen(states[n], m);
    }
  }

  /** Publishing a candidate happens only when the Agent already answers to it. */
  lemma CompletionAgrees(states: seq<Sys>, steps: seq<Step>, n: nat)
    requires Run(states, steps) && n < |steps| && steps[n].Finish?
    ensures !Open(states[n + 1].hub)
    ensures states[n + 1].agent == states[n + 1].hub.registered == Last(states[n].hub).candidate
  {
    RunInvariant(states, steps, n);
    assert states[n].workers[steps[n].worker].row == |states[n].hub.rows| - 1;
  }

  // ---------------------------------------------------------------- what a rotate from before can do

  /** The Agent answers to a token that is neither registered nor in an open handoff. */
  predicate LockedOut(s: Sys) {
    s.agent != s.hub.registered && !(Open(s.hub) && s.agent == Last(s.hub).candidate)
  }

  predicate OneHandoff(steps: seq<Step>, c: nat) {
    steps != [] && steps[0] == Begin(c) && forall i :: 0 < i < |steps| ==> !steps[i].Begin?
  }

  ghost predicate CanLockOut(s: Sys, c: nat) {
    exists states: seq<Sys>, steps: seq<Step> ::
      Path(states, steps) && states[0] == s && OneHandoff(steps, c) && LockedOut(states[|steps|])
  }

  predicate ForeignFrom(s: Sys, c: nat) {
    exists m :: m in s.sent && Foreign(s.hub, m) && m.auth == c
  }

  lemma {:induction false} CleanPath(states: seq<Sys>, steps: seq<Step>, c: nat, n: nat)
    requires Path(states, steps) && n < |states| && OneHandoff(steps, c)
    requires Inv(states[0]) && !ForeignFrom(states[0], c)
    ensures Inv(states[n])
    decreases n
  {
    if n > 0 {
      CleanPath(states, steps, c, n - 1);
      StepKeeps(states[n - 1], steps[n - 1]);
    }
  }

  lemma Extend(states: seq<Sys>, steps: seq<Step>, step: Step) returns (longer: seq<Sys>, more: seq<Step>)
    requires Path(states, steps) && Enabled(states[|steps|], step) && WorkersKnown(states[|steps|])
    ensures Path(longer, more) && more == steps + [step] && longer[0] == states[0]
    ensures longer[|more|] == Next(states[|steps|], step)
  {
    longer, more := states + [Next(states[|steps|], step)], steps + [step];
    forall i | 0 <= i < |more|
      ensures Enabled(longer[i], more[i]) && WorkersKnown(longer[i]) && longer[i + 1] == Next(longer[i], more[i])
    {
      if i < |steps| { assert more[i] == steps[i] && longer[i] == states[i] && longer[i + 1] == states[i + 1]; }
    }
  }

  /** A handoff to `c` begun and taken up by worker 0, nothing else happening. */
  lemma HandoffFenced(s: Sys, c: nat) returns (states: seq<Sys>, steps: seq<Step>)
    requires Inv(s) && BeginVerdict(s.hub, c) == Started
    ensures Path(states, steps) && states[0] == s && OneHandoff(steps, c)
    ensures states[|steps|] == s.(hub := s.hub.(rows := s.hub.rows + [Row(s.hub.registered, c, 1, Pending)]),
                                  workers := s.workers[0 := Worker(|s.hub.rows|, 1, Fenced)])
    ensures WorkersKnown(states[|steps|])
  {
    states, steps := Extend([s], [], Begin(c));
    var begun := states[|steps|];
    assert begun == s.(hub := s.hub.(rows := s.hub.rows + [Row(s.hub.registered, c, 0, Pending)]));
    states, steps := Extend(states, steps, Retry(0));
    assert states[|steps|].hub.rows == s.hub.rows + [Row(s.hub.registered, c, 1, Pending)];
    assert states[|steps|].workers == s.workers[0 := Worker(|s.hub.rows|, 1, Fenced)];
  }

  /** It is found to need the rotation: the candidate is refused and the original accepted. */
  lemma HandoffNeeded(s: Sys, c: nat) returns (states: seq<Sys>, steps: seq<Step>)
    requires Inv(s) && BeginVerdict(s.hub, c) == Started
    ensures Path(states, steps) && states[0] == s && OneHandoff(steps, c)
    ensures states[|steps|] == s.(hub := s.hub.(rows := s.hub.rows + [Row(s.hub.registered, c, 1, Pending)]),
                                  workers := s.workers[0 := Worker(|s.hub.rows|, 1, OriginalWorks)])
    ensures WorkersKnown(states[|steps|])
  {
    states, steps := HandoffFenced(s, c);
    var fenced := states[|steps|];
    states, steps := Extend(states, steps, ProbeCandidate(0));
    assert states[|steps|] == fenced;
    states, steps := Extend(states, steps, ProbeOriginal(0));
    assert states[|steps|].workers == s.workers[0 := Worker(|s.hub.rows|, 1, OriginalWorks)];
  }

  /** The rotation announced and sent. */
  lemma HandoffSent(s: Sys, c: nat) returns (states: seq<Sys>, steps: seq<Step>)
    requires Inv(s) && BeginVerdict(s.hub, c) == Started
    ensures Path(states, steps) && states[0] == s && OneHandoff(steps, c)
    ensures states[|steps|] == Sys(s.hub.(rows := s.hub.rows + [Row(s.hub.registered, c, 1, Rotating)]), s.agent,
                                   s.sent + {Rotate(s.agent, c)}, s.workers[0 := Worker(|s.hub.rows|, 1, Announced)])
    ensures WorkersKnown(states[|steps|])
  {
    states, steps := HandoffNeeded(s, c);
    states, steps := Extend(states, steps, Announce(0));
    assert states[|steps|].hub.rows == s.hub.rows + [Row(s.hub.registered, c, 1, Rotating)];
    assert states[|steps|].workers == s.workers[0 := Worker(|s.hub.rows|, 1, Announced)];
    states, steps := Extend(states, steps, Send(0));
  }

  /** And from there to its completion. */
  lemma HandoffCompletes(s: Sys, c: nat) returns (states: seq<Sys>, steps: seq<Step>)
    requires Inv(s) && BeginVerdict(s.hub, c) == Started
    ensures Path(states, steps) && states[0] == s && OneHandoff(steps, c)
    ensures var t := states[|steps|];
            !Open(t.hub) && t.hub.registered == t.agent == c && s.sent <= t.sent && WorkersKnown(t)
  {
    states, steps := HandoffSent(s, c);
    states, steps := Extend(states, steps, Deliver(Rotate(s.agent, c)));
    states, steps := Extend(states, steps, ProbeCandidate(0));
    states, steps := Extend(states, steps, Finish(0));
  }

  /**
    A handoff to `c` can be followed by a lock-out if and only if a rotate from before the journal, still
    under way, starts from `c`. The journal cannot see that: it refuses only tokens of its own rows. The
    Agent admits such a rotate as long as it is still fresh.
  */
  lemma LockOutExactly(s: Sys, c: nat)
    requires Inv(s) && BeginVerdict(s.hub, c) == Started
    ensures CanLockOut(s, c) <==> ForeignFrom(s, c)
  {
    if ForeignFrom(s, c) {
      var m :| m in s.sent && Foreign(s.hub, m) && m.auth == c;
      var states, steps := HandoffCompletes(s, c);
      states, steps := Extend(states, steps, Deliver(m));
      assert LockedOut(states[|steps|]);
    }
    if CanLockOut(s, c) && !ForeignFrom(s, c) {
      var states: seq<Sys>, steps: seq<Step> :|
        Path(states, steps) && states[0] == s && OneHandoff(steps, c) && LockedOut(states[|steps|]);
      CleanPath(states, steps, c, |steps|);
      assert false;
    }
  }

  /** Such a Node: paired from token 7 to token 1, the rotate of the pairing delayed, then handed off to 7 again. */
  lemma PairingRotateLocksOut()
    ensures var s := Sys(Hub(1, []), 1, {Rotate(7, 1)}, map[]);
            Initial(s) && BeginVerdict(s.hub, 7) == Started && CanLockOut(s, 7)
  {
    var s := Sys(Hub(1, []), 1, {Rotate(7, 1)}, map[]);
    assert Foreign(s.hub, Rotate(7, 1));
    LockOutExactly(s, 7);
  }

  // ---------------------------------------------------------------- recovery

  /** Worker `w` is current on the open handoff. */
  ghost predicate Owns(s: Sys, w: nat) {
    && Inv(s) && w in s.workers && Open(s.hub) && s.workers[w].row == |s.hub.rows| - 1
    && Current(s.hub, s.workers[w].row, s.workers[w].revision)
  }

  function OpenRotate(h: Hub): Rotate
    requires h.rows != []
  {
    Rotate(Last(h).original, Last(h).candidate)
  }

  /** The candidate is refused, so the original is in force. */
  ghost function Recognized(s: Sys, w: nat): (t: Sys)
    requires Owns(s, w) && s.workers[w].stage == Fenced && s.agent == Last(s.hub).original
    ensures Owns(t, w) && t.workers[w].stage == OriginalWorks && t.hub == s.hub && t.agent == s.agent
  {
    StepKeeps(s, ProbeOriginal(w));
    Next(s, ProbeOriginal(w))
  }

  /** The rotation is announced and sent. */
  ghost function Offering(s: Sys, w: nat): (t: Sys)
    requires Owns(s, w) && s.workers[w].stage == OriginalWorks
    ensures Owns(t, w) && OpenRotate(t.hub) == OpenRotate(s.hub) && OpenRotate(t.hub) in t.sent && t.agent == s.agent
  {
    AnnounceKeeps(s, w);
    var d := Next(s, Announce(w));
    SendKeeps(d, w);
    Next(d, Send(w))
  }

  /** The rotation arrives, and the candidate is seen to work. */
  ghost function RotatingOver(s: Sys, w: nat): (t: Sys)
    requires Owns(s, w) && OpenRotate(s.hub) in s.sent && s.agent == Last(s.hub).original
    ensures Owns(t, w) && t.workers[w].stage == CandidateWorks && t.hub == s.hub
  {
    DeliverKeeps(s, OpenRotate(s.hub));
    var f := Next(s, Deliver(OpenRotate(s.hub)));
    StepKeeps(f, ProbeCandidate(w));
    Next(f, ProbeCandidate(w))
  }

  /** Take the next operation number and see which of the two tokens the Agent has. */
  ghost function Looking(s: Sys, w: nat): (t: Sys)
    requires Inv(s) && Enabled(s, Retry(w))
    ensures Owns(t, w) && Last(t.hub).candidate == Last(s.hub).candidate
    ensures if t.agent == Last(t.hub).candidate then t.workers[w].stage == CandidateWorks
            else t.workers[w].stage == Fenced && t.agent == Last(t.hub).original
  {
    RetryKeeps(s, w);
    var a := Next(s, Retry(w));
    StepKeeps(a, ProbeCandidate(w));
    Next(a, ProbeCandidate(w))
  }

  /** One retry by `w` whose requests all reach the Agent and come back, with nobody interfering. */
  ghost function UndisturbedRetry(s: Sys, w: nat): Sys
    requires Inv(s) && Enabled(s, Retry(w))
  {
    var b := Looking(s, w);
    Next(if b.agent == Last(b.hub).candidate then b else RotatingOver(Offering(Recognized(b, w), w), w), Finish(w))
  }

  lemma RetryCompletes(s: Sys, w: nat)
    requires Inv(s) && Underway(s.hub.rows) && s.hub.rows[|s.hub.rows| - 1].revision < 0x7FFF_FFFF_FFFF_FFFE
    ensures Enabled(s, Retry(w))
    ensures var t := UndisturbedRetry(s, w);
            !Underway(t.hub.rows) && t.hub.registered == t.agent == s.hub.rows[|s.hub.rows| - 1].candidate
  {
    var b := Looking(s, w);
    FinishAgrees(if b.agent == Last(b.hub).candidate then b else RotatingOver(Offering(Recognized(b, w), w), w), w);
  }

  /**
    From any reachable open handoff, as long as its operation numbers last, one undisturbed retry completes it with
    both sides on the candidate.
  */
  lemma OneRetryCompletes(states: seq<Sys>, steps: seq<Step>, n: nat, w: nat)
    requires Run(states, steps) && n < |states| && Underway(states[n].hub.rows)
    requires states[n].hub.rows[|states[n].hub.rows| - 1].revision < 0x7FFF_FFFF_FFFF_FFFE
    ensures Inv(states[n]) && Enabled(states[n], Retry(w))
    ensures var t := UndisturbedRetry(states[n], w);
            && !Underway(t.hub.rows)
            && t.hub.registered == t.agent == states[n].hub.rows[|states[n].hub.rows| - 1].candidate
  {
    RunInvariant(states, steps, n);
    RetryCompletes(states[n], w);
  }

  /**
    Tokens can be handed off again and again: from any reachable state with no attempt under way, a token never seen
    before starts exactly one pending attempt from the registered token, and one undisturbed retry completes it,
    unless a rotate from before the journal starts from that token.
  */
  lemma NextHandoffCompletes(states: seq<Sys>, steps: seq<Step>, n: nat, w: nat, c: nat)
    requires Run(states, steps) && n < |states| && !Underway(states[n].hub.rows)
    requires NeverSeen(states[n].hub.registered, states[n].hub.rows, c)
    ensures Inv(states[n])
    ensures Next(states[n], Begin(c)) == states[n].(hub := Hub(states[n].hub.registered,
              states[n].hub.rows + [Row(states[n].hub.registered, c, 0, Pending)]))
    ensures !ForeignFrom(states[n], c) ==>
              var b := Next(states[n], Begin(c));
              && Inv(b) && Enabled(b, Retry(w))
              && var t := UndisturbedRetry(b, w); !Underway(t.hub.rows) && t.hub.registered == t.agent == c
  {
    RunInvariant(states, steps, n);
    BeginExactly(states[n].hub, c);
    if !ForeignFrom(states[n], c) {
      BeginKeeps(states[n], c);
      RetryCompletes(Next(states[n], Begin(c)), w);
    }
  }

  /** An attempt under way is resumed for its own candidate and for no other; neither changes anything. */
  lemma OpenHandoffResumes(states: seq<Sys>, steps: seq<Step>, n: nat, c: nat)
    requires Run(states, steps) && n < |states| && Underway(states[n].hub.rows)
    ensures Inv(states[n]) && Next(states[n], Begin(c)) == states[n]
    ensures BeginVerdict(states[n].hub, c) ==
            if c == states[n].hub.rows[|states[n].hub.rows| - 1].candidate then Resumed else Refused
  {
    RunInvariant(states, steps, n);
    BeginExactly(states[n].hub, c);
  }

  lemma FinishAgrees(s: Sys, w: nat)
    requires Owns(s, w) && s.workers[w].stage == CandidateWorks
    ensures var t := Next(s, Finish(w)); !Open(t.hub) && t.hub.registered == t.agent == Last(s.hub).candidate
  {
  }

  // ---------------------------------------------------------------- why tokens may not be reused

  /**
    Without the refusal of used tokens the guarantee is false: after 1 to 2 and back to 1, the first
    rotate, delivered once more, moves the Agent to a token that no open handoff knows.
  */
  lemma ReuseWouldLockOut(s: Sys)
    requires s.hub == Hub(1, [Row(1, 2, 1, Completed), Row(2, 1, 1, Completed)])
    requires s.agent == 1 && s.sent == {Rotate(1, 2), Rotate(2, 1)} && s.workers == map[]
    ensures var t := Next(s, Deliver(Rotate(1, 2)));
            t.agent != t.hub.registered && !Open(t.hub)
    ensures Used(Hub(2, [Row(1, 2, 1, Completed)]), 1)
  {
    assert [Row(1, 2, 1, Completed)][0].original == 1;
  }
}
