/**
  The life cycle of relay routes: configure, enable, disable and delete, with synchronizations
  that may fail. The route graph that may be live on the Nodes stays acyclic.
*/
module RelayGraph {
  import opened RelayRoutes

  datatype Row = Row(exit: nat, enabled: bool, phase: Phase)
  datatype Edge = Edge(from: nat, to: nat)

  /**
    The route table, and the routes whose source Node may be running them: those enabled now
    and those enabled earlier whose disable the source has not acknowledged.
  */
  datatype Table = Table(rows: map<Key, Row>, live: set<Key>)

  // ---------------------------------------------------------------- the walk in `validate`

  /** The edges `validate` collects: every other route that is enabled or not plainly disabled. */
  function OtherEdges(rows: map<Key, Row>, key: Key): set<Edge> {
    set k | k in rows && k != key && (rows[k].enabled || rows[k].phase != Disabled) :: Edge(k.node, rows[k].exit)
  }

  ghost predicate Within(edges: set<Edge>, nodes: set<nat>) {
    forall e :: e in edges ==> e.from in nodes && e.to in nodes
  }

  /** The recursive walk: true where it raises "must not form a cycle". */
  predicate Walk(edges: set<Edge>, node: nat, path: set<nat>, ghost nodes: set<nat>)
    requires Within(edges, nodes) && node in nodes && path <= nodes
    decreases |nodes - path|
  {
    if node in path then true
    else
      assert nodes - (path + {node}) < nodes - path by { assert node in nodes - path; }
      SmallerSet(nodes - (path + {node}), nodes - path);
      exists e :: e in edges && e.from == node && Walk(edges, e.to, path + {node}, nodes)
  }

  lemma SmallerSet<T>(a: set<T>, b: set<T>)
    requires a < b
    ensures |a| < |b|
  {
    assert b == a + (b - a);
    assert |b| == |a| + |b - a|;
    var x :| x in b - a;
  }

  function Nodes(edges: set<Edge>): set<nat> {
    (set e | e in edges :: e.from) + (set e | e in edges :: e.to)
  }

  ghost predicate IsPath(edges: set<Edge>, p: seq<nat>) {
    |p| > 0 && forall i :: 0 <= i < |p| - 1 ==> Edge(p[i], p[i + 1]) in edges
  }

  /** A path whose last node was visited before: a cycle reachable from its first node. */
  ghost predicate Lasso(edges: set<Edge>, p: seq<nat>) {
    IsPath(edges, p) && p[|p| - 1] in p[..|p| - 1]
  }

  ghost predicate CycleReachable(edges: set<Edge>, source: nat) {
    exists p :: Lasso(edges, p) && p[0] == source
  }

  ghost predicate IsCycle(edges: set<Edge>, p: seq<nat>) {
    |p| > 1 && IsPath(edges, p) && p[0] == p[|p| - 1]
  }

  ghost predicate Acyclic(edges: set<Edge>) {
    forall p :: !IsCycle(edges, p)
  }

  function Elems(p: seq<nat>): set<nat> { set x | x in p }

  lemma {:induction false} WalkSound(edges: set<Edge>, node: nat, trail: seq<nat>, nodes: set<nat>)
    requires Within(edges, nodes) && node in nodes && Elems(trail) <= nodes
    requires IsPath(edges, trail + [node]) && Walk(edges, node, Elems(trail), nodes)
    ensures exists p :: Lasso(edges, p) && p[0] == (trail + [node])[0]
    decreases |nodes - Elems(trail)|
  {
    var here := trail + [node];
    if node in trail {
      assert here[..|here| - 1] == trail;
      assert Lasso(edges, here);
    } else {
      assert Elems(here) == Elems(trail) + {node};
      assert nodes - Elems(here) < nodes - Elems(trail) by { assert node in nodes - Elems(trail); }
      SmallerSet(nodes - Elems(here), nodes - Elems(trail));
      var e :| e in edges && e.from == node && Walk(edges, e.to, Elems(trail) + {node}, nodes);
      assert e == Edge(node, e.to);
      WalkSound(edges, e.to, here, nodes);
    }
  }

  lemma {:induction false} WalkComplete(edges: set<Edge>, p: seq<nat>, i: nat, nodes: set<nat>)
    requires Within(edges, nodes) && Lasso(edges, p) && i < |p| && Elems(p) <= nodes
    ensures Elems(p[..i]) <= nodes && p[i] in nodes && Walk(edges, p[i], Elems(p[..i]), nodes)
    decreases |p| - i
  {
    assert forall x :: x in p[..i] ==> x in Elems(p);
    assert p[i] in Elems(p);
    if p[i] !in Elems(p[..i]) {
      assert i < |p| - 1;
      WalkComplete(edges, p, i + 1, nodes);
      assert p[..i + 1] == p[..i] + [p[i]];
      assert Elems(p[..i + 1]) == Elems(p[..i]) + {p[i]};
      assert Edge(p[i], p[i + 1]) in edges && Edge(p[i], p[i + 1]).from == p[i];
    }
  }

  /** The walk from `source` terminates, and raises exactly when a cycle is reachable from it. */
  lemma WalkRejectsExactly(edges: set<Edge>, source: nat, nodes: set<nat>)
    requires Within(edges, nodes) && source in nodes
    ensures Walk(edges, source, {}, nodes) <==> CycleReachable(edges, source)
  {
    if Walk(edges, source, {}, nodes) {
      assert Elems([]) == {};
      assert [] + [source] == [source];
      WalkSound(edges, source, [], nodes);
    }
    if CycleReachable(edges, source) {
      var p :| Lasso(edges, p) && p[0] == source;
      forall x | x in p ensures x in nodes { PathWithin(edges, p, x, nodes); }
      WalkComplete(edges, p, 0, nodes);
      assert Elems(p[..0]) == {};
    }
  }

  lemma PathWithin(edges: set<Edge>, p: seq<nat>, x: nat, nodes: set<nat>)
    requires Within(edges, nodes) && IsPath(edges, p) && p[0] in nodes && x in p
    ensures x in nodes
  {
    var i :| 0 <= i < |p| && p[i] == x;
    if i > 0 { assert Edge(p[i - 1], p[i]) in edges; }
  }

  // ---------------------------------------------------------------- adding one checked edge

  /** A cycle walked from its i-th node, and once more to that node. */
  lemma RotatedCycle(edges: set<Edge>, p: seq<nat>, i: nat)
    requires IsCycle(edges, p) && i < |p| - 1
    ensures var q := p[i..] + p[1..i + 1]; Lasso(edges, q) && q[0] == p[i]
  {
    var q := p[i..] + p[1..i + 1];
    assert q[0] == p[i] && q[|q| - 1] == p[i];
    forall j | 0 <= j < |q| - 1 ensures Edge(q[j], q[j + 1]) in edges {
      var k := if j < |p| - 1 - i then i + j else j - (|p| - 1 - i);
      assert q[j] == p[k] && q[j + 1] == p[k + 1];
      assert Edge(p[k], p[k + 1]) in edges;
    }
    assert q[..|q| - 1][0] == q[|q| - 1];
  }

  lemma MoreEdges(less: set<Edge>, more: set<Edge>, p: seq<nat>)
    requires less <= more && Lasso(less, p)
    ensures Lasso(more, p)
  {
  }

  /**
    Checking from the new edge's source is enough for the whole graph: if the graph was acyclic
    and no cycle is reachable from that source in a graph containing it, it stays acyclic.
  */
  lemma CheckedEdgeKeepsAcyclic(graph: set<Edge>, checked: set<Edge>, e: Edge)
    requires Acyclic(graph) && graph + {e} <= checked && !CycleReachable(checked, e.from)
    ensures Acyclic(graph + {e})
  {
    forall p | IsCycle(graph + {e}, p) ensures false {
      if forall i :: 0 <= i < |p| - 1 ==> Edge(p[i], p[i + 1]) in graph {
        assert IsCycle(graph, p);
      } else {
        var i :| 0 <= i < |p| - 1 && Edge(p[i], p[i + 1]) !in graph;
        assert Edge(p[i], p[i + 1]) in graph + {e};
        RotatedCycle(graph + {e}, p, i);
        MoreEdges(graph + {e}, checked, p[i..] + p[1..i + 1]);
      }
    }
  }

  lemma FewerEdgesStayAcyclic(less: set<Edge>, more: set<Edge>)
    requires less <= more && Acyclic(more)
    ensures Acyclic(less)
  {
    forall p | IsCycle(less, p) ensures false { assert IsCycle(more, p); }
  }

  // ---------------------------------------------------------------- the operations

  /** Outcomes of the checks and of each synchronization inside one call. */
  datatype Outside = Outside(valid: bool, preflight: bool, exitAck: bool, sourceAck: bool)

  ghost predicate CycleFree(rows: map<Key, Row>, key: Key, exit: nat) {
    !CycleReachable(OtherEdges(rows, key) + {Edge(key.node, exit)}, key.node)
  }

  ghost predicate Accepts(rows: map<Key, Row>, key: Key, exit: nat, valid: bool) {
    key.node != exit && valid && CycleFree(rows, key, exit)
  }

  ghost function Configure(t: Table, key: Key, exit: nat, out: Outside): Table {
    if key in t.rows && (t.rows[key].enabled || t.rows[key].phase != Disabled) then t
    else if !Accepts(t.rows, key, exit, out.valid) then t
    else t.(rows := t.rows[key := if key in t.rows then t.rows[key].(exit := exit) else Row(exit, false, Disabled)])
  }

  ghost function Enable(t: Table, key: Key, out: Outside): Table {
    if key !in t.rows || t.rows[key].phase == Deleting || t.rows[key].phase == Disabling then t
    else if !Accepts(t.rows, key, t.rows[key].exit, out.valid) || !out.preflight || !out.exitAck then t
    else Table(t.rows[key := t.rows[key].(enabled := true, phase := if out.sourceAck then Enabled else Enabling)],
               t.live + {key})
  }

  ghost function Disable(t: Table, key: Key, out: Outside): Table {
    if key !in t.rows || t.rows[key].phase == Deleting then t
    else Table(t.rows[key := t.rows[key].(enabled := false, phase := if out.sourceAck then Disabled else Disabling)],
               if out.sourceAck then t.live - {key} else t.live)
  }

  ghost function Delete(t: Table, key: Key, out: Outside): Table {
    if key !in t.rows || t.rows[key].enabled || (t.rows[key].phase != Disabled && t.rows[key].phase != Deleting) then t
    else if out.exitAck then t.(rows := t.rows - {key})
    else t.(rows := t.rows[key := t.rows[key].(enabled := false, phase := Deleting)])
  }

  datatype Op = DoConfigure(key: Key, exit: nat) | DoEnable(key: Key) | DoDisable(key: Key) | DoDelete(key: Key)

  ghost function Step(t: Table, op: Op, out: Outside): Table {
    match op
    case DoConfigure(k, exit) => Configure(t, k, exit, out)
    case DoEnable(k) => Enable(t, k, out)
    case DoDisable(k) => Disable(t, k, out)
    case DoDelete(k) => Delete(t, k, out)
  }

  ghost function Run(t: Table, ops: seq<(Op, Outside)>): Table
    decreases |ops|
  {
    if ops == [] then t else Run(Step(t, ops[0].0, ops[0].1), ops[1..])
  }

  function LiveEdges(t: Table): set<Edge> {
    set k | k in t.live && k in t.rows :: Edge(k.node, t.rows[k].exit)
  }

  /** A live route is in the table and counted by `validate`; the live graph has no cycle. */
  ghost predicate Good(t: Table) {
    && (forall k :: k in t.live ==> k in t.rows && (t.rows[k].enabled || t.rows[k].phase == Disabling))
    && (forall k :: k in t.rows && t.rows[k].enabled ==> t.rows[k].phase == Enabling || t.rows[k].phase == Enabled)
    && (forall k :: k in t.rows && !t.rows[k].enabled ==> t.rows[k].phase != Enabling && t.rows[k].phase != Enabled)
    && (forall k :: k in t.rows && t.rows[k].enabled ==> k in t.live)
    && Acyclic(LiveEdges(t))
  }

  lemma EnableKeepsGood(t: Table, key: Key, out: Outside)
    requires Good(t)
    ensures Good(Enable(t, key, out))
  {
    var t' := Enable(t, key, out);
    if t' != t {
      var e := Edge(key.node, t.rows[key].exit);
      var graph := LiveEdges(t.(live := t.live - {key}));
      FewerEdgesStayAcyclic(graph, LiveEdges(t));
      assert graph <= OtherEdges(t.rows, key) by {
        forall k | k in t.live - {key} && k in t.rows ensures Edge(k.node, t.rows[k].exit) in OtherEdges(t.rows, key) {}
      }
      CheckedEdgeKeepsAcyclic(graph, OtherEdges(t.rows, key) + {e}, e);
      assert LiveEdges(t') == graph + {e} by {
        forall k | k in t'.live && k in t'.rows ensures Edge(k.node, t'.rows[k].exit) in graph + {e} {
          if k != key { assert k in t.live - {key}; }
        }
        assert key in t'.live && key in t'.rows;
        forall d | d in graph ensures d in LiveEdges(t') {
          var k :| k in t.live - {key} && k in t.rows && d == Edge(k.node, t.rows[k].exit);
          assert k in t'.live && k in t'.rows && t'.rows[k] == t.rows[k];
        }
      }
    }
  }

  lemma QuietStepKeepsGood(t: Table, op: Op, out: Outside)
    requires Good(t) && !op.DoEnable?
    ensures Good(Step(t, op, out))
  {
    var t' := Step(t, op, out);
    forall d | d in LiveEdges(t') ensures d in LiveEdges(t) {
      var k :| k in t'.live && k in t'.rows && d == Edge(k.node, t'.rows[k].exit);
      assert k in t.live && k in t.rows && t.rows[k].exit == t'.rows[k].exit;
    }
    FewerEdgesStayAcyclic(LiveEdges(t'), LiveEdges(t));
  }

  /** In every reachable table, whatever synchronizations failed, the possibly live routes form no cycle. */
  lemma {:induction false} LiveGraphAcyclicOverRuns(t: Table, ops: seq<(Op, Outside)>)
    requires Good(t)
    ensures Good(Run(t, ops)) && Acyclic(LiveEdges(Run(t, ops)))
    decreases |ops|
  {
    if ops != [] {
      if ops[0].0.DoEnable? {
        EnableKeepsGood(t, ops[0].0.key, ops[0].1);
      } else {
        QuietStepKeepsGood(t, ops[0].0, ops[0].1);
      }
      LiveGraphAcyclicOverRuns(Step(t, ops[0].0, ops[0].1), ops[1..]);
    }
  }

  lemma EmptyTableIsGood()
    ensures Good(Table(map[], {}))
  {
    forall p ensures !IsCycle(LiveEdges(Table(map[], {})), p) {
      if |p| > 1 { assert Edge(p[0], p[0 + 1]) !in LiveEdges(Table(map[], {})); }
    }
  }

  // ---------------------------------------------------------------- exactly what each operation does

  lemma OtherEdgesExactly(rows: map<Key, Row>, key: Key, e: Edge)
    ensures e in OtherEdges(rows, key) <==>
              exists k :: k in rows && k != key && !(rows[k].phase == Disabled && !rows[k].enabled)
                          && e == Edge(k.node, rows[k].exit)
  {
  }

  /** A route that closes no cycle with the others that count passes the check. */
  lemma AcyclicIsAccepted(rows: map<Key, Row>, key: Key, exit: nat, valid: bool)
    requires Acyclic(OtherEdges(rows, key) + {Edge(key.node, exit)}) && key.node != exit && valid
    ensures Accepts(rows, key, exit, valid)
  {
    var edges := OtherEdges(rows, key) + {Edge(key.node, exit)};
    forall p | Lasso(edges, p)
      ensures false
    {
      var n := |p| - 1;
      var i :| 0 <= i < |p[..n]| && p[..n][i] == p[n];
      var q := p[i..];
      forall j | 0 <= j < |q| - 1 ensures Edge(q[j], q[j + 1]) in edges {
        assert q[j] == p[i + j] && q[j + 1] == p[i + j + 1];
      }
      assert IsCycle(edges, q);
    }
  }

  /**
    Enabling takes effect exactly for a route that is neither being disabled nor deleted, leads to another Node, passes
    the outside checks, closes no cycle with the routes that count, and whose exit is ready; disabling for any route
    not being deleted. Whether the source acknowledged decides the phase, and when a disabled route stops being live.
  */
  lemma ToggleExactly(t: Table, key: Key, out: Outside)
    ensures var row := if key in t.rows then t.rows[key] else Row(0, false, Disabled);
            Enable(t, key, out)
            == if && key in t.rows && row.phase != Deleting && row.phase != Disabling
                  && key.node != row.exit && out.valid && out.preflight && out.exitAck
                  && !CycleReachable(OtherEdges(t.rows, key) + {Edge(key.node, row.exit)}, key.node)
               then Table(t.rows[key := Row(row.exit, true, if out.sourceAck then Enabled else Enabling)],
                          t.live + {key})
               else t
    ensures var row := if key in t.rows then t.rows[key] else Row(0, false, Disabled);
            Disable(t, key, out)
            == if key !in t.rows || row.phase == Deleting then t
               else if out.sourceAck then Table(t.rows[key := Row(row.exit, false, Disabled)], t.live - {key})
               else Table(t.rows[key := Row(row.exit, false, Disabling)], t.live)
  {
  }

  /**
    A route is configured exactly when there is none or it is plainly disabled, and it leads to another Node, passes
    the outside checks and closes no cycle; it is deleted exactly when it is disabled and its exit let go of it, and
    marked for deletion when only the latter is missing.
  */
  lemma ConfigureAndDeleteExactly(t: Table, key: Key, exit: nat, out: Outside)
    ensures Configure(t, key, exit, out)
            == if && (key !in t.rows || (!t.rows[key].enabled && t.rows[key].phase == Disabled))
                  && key.node != exit && out.valid
                  && !CycleReachable(OtherEdges(t.rows, key) + {Edge(key.node, exit)}, key.node)
               then t.(rows := t.rows[key := Row(exit, false, Disabled)]) else t
    ensures var ready := key in t.rows && !t.rows[key].enabled
                         && (t.rows[key].phase == Disabled || t.rows[key].phase == Deleting);
            Delete(t, key, out)
            == if !ready then t
               else if out.exitAck then t.(rows := t.rows - {key})
               else t.(rows := t.rows[key := Row(t.rows[key].exit, false, Deleting)])
  {
  }

  ghost predicate DisableClosesCountedCycle(t: Table, key: Key, out: Outside, other: Key, node: nat) {
    && Good(t) && Acyclic(OtherEdges(t.rows, other)) && other !in t.rows
    && CycleReachable(OtherEdges(Disable(t, key, out).rows, other), node)
  }

  /**
    The edge set `validate` itself uses is larger and need not stay acyclic: disabling a route
    that was never enabled makes it count as an edge until the source acknowledges. Here a good
    table without any counted cycle gets one from a single unacknowledged disable.
  */
  lemma CountedEdgesMayCycle()
    ensures exists t: Table, key: Key, out: Outside, other: Key, node: nat ::
              DisableClosesCountedCycle(t, key, out, other, node)
  {
    var ab, ba, other := Key(1, 1), Key(2, 1), Key(9, 9);
    var t := Table(map[ab := Row(2, true, Enabled), ba := Row(1, false, Disabled)], {ab});
    var out := Outside(true, true, true, false);
    OneEdgeIsAcyclic(1, 2);
    assert LiveEdges(t) == {Edge(1, 2)} && OtherEdges(t.rows, other) == {Edge(1, 2)} by {
      assert ab in t.rows && ba in t.rows;
    }
    var t' := Disable(t, ba, out);
    assert t'.rows[ab] == Row(2, true, Enabled) && t'.rows[ba] == Row(1, false, Disabling);
    var counted := OtherEdges(t'.rows, other);
    assert Edge(1, 2) in counted && Edge(2, 1) in counted;
    var p := [1, 2, 1];
    assert p[..|p| - 1] == [1, 2];
    assert IsPath(counted, p);
    assert Lasso(counted, p) && p[0] == 1;
    assert Good(t) && DisableClosesCountedCycle(t, ba, out, other, 1);
  }

  /**
    What such a cycle costs: a route whose exit reaches a counted cycle is neither configured nor
    enabled, whatever else holds, until the cycle is gone from the counted edges.
  */
  lemma CountedCycleRefuses(t: Table, key: Key, exit: nat, out: Outside)
    requires CycleReachable(OtherEdges(t.rows, key), exit)
    ensures Configure(t, key, exit, out) == t
    ensures key in t.rows && t.rows[key].exit == exit ==> Enable(t, key, out) == t
  {
    var edges := OtherEdges(t.rows, key);
    var p :| Lasso(edges, p) && p[0] == exit;
    var q := [key.node] + p;
    var all := edges + {Edge(key.node, exit)};
    assert forall i :: 0 < i < |q| ==> q[i] == p[i - 1];
    forall i | 0 <= i < |q| - 1 ensures Edge(q[i], q[i + 1]) in all {
      if i > 0 { assert Edge(p[i - 1], p[i - 1 + 1]) in edges; }
    }
    assert q[..|q| - 1] == [key.node] + p[..|p| - 1];
    assert Lasso(all, q) && q[0] == key.node;
  }

  lemma OneEdgeIsAcyclic(a: nat, b: nat)
    requires a != b
    ensures Acyclic({Edge(a, b)})
  {
    forall p | |p| > 1 && IsPath({Edge(a, b)}, p) ensures p[0] != p[|p| - 1] {
      assert Edge(p[0], p[0 + 1]) == Edge(a, b);
      assert Edge(p[|p| - 2], p[|p| - 2 + 1]) == Edge(a, b);
    }
  }

  // ---------------------------------------------------------------- the coordinator

  /** `NodeRelay`: its `node_relays` rows, and which routes a source Node may be running. */
  class NodeRelay {
    var rows: map<Key, Row>
    ghost var live: set<Key>

    ghost function State(): Table
      reads this
    {
      Table(rows, live)
    }

    constructor ()
      ensures State() == Table(map[], {}) && Good(State())
    {
      rows, live := map[], {};
      new;
      EmptyTableIsGood();
    }

    method Validate(key: Key, exit: nat, valid: bool) returns (ok: bool)
      ensures ok <==> Accepts(rows, key, exit, valid)
    {
      if key.node == exit || !valid { return false; }
      var edges := OtherEdges(rows, key) + {Edge(key.node, exit)};
      ghost var nodes := Nodes(edges);
      assert Edge(key.node, exit) in edges;
      WalkRejectsExactly(edges, key.node, nodes);
      ok := !Walk(edges, key.node, {}, nodes);
    }

    method SetState(key: Key, enabled: bool, phase: Phase)
      requires key in rows
      modifies this`rows
      ensures rows == old(rows)[key := old(rows)[key].(enabled := enabled, phase := phase)]
    {
      rows := rows[key := rows[key].(enabled := enabled, phase := phase)];
    }

    method ConfigureRoute(key: Key, exit: nat, out: Outside) returns (ok: bool)
      requires Good(State())
      modifies this
      ensures State() == Configure(old(State()), key, exit, out) && Good(State())
      ensures ok ==> key in rows && rows[key].exit == exit && !rows[key].enabled
      ensures ok <==>
                && (key !in old(rows) || (!old(rows)[key].enabled && old(rows)[key].phase == Disabled))
                && key.node != exit && out.valid
                && !CycleReachable(OtherEdges(old(rows), key) + {Edge(key.node, exit)}, key.node)
    {
      QuietStepKeepsGood(State(), DoConfigure(key, exit), out);
      if key in rows && (rows[key].enabled || rows[key].phase != Disabled) { return false; }
      ok := Validate(key, exit, out.valid);
      if ok {
        rows := rows[key := if key in rows then rows[key].(exit := exit) else Row(exit, false, Disabled)];
      }
    }

    /** The new state is written before the source is told, and again once it has acknowledged. */
    method Toggle(key: Key, enabled: bool, out: Outside) returns (ok: bool)
      requires Good(State())
      modifies this
      ensures State() == Step(old(State()), if enabled then DoEnable(key) else DoDisable(key), out) && Good(State())
      ensures ok ==>
                && key in rows && rows[key].phase == (if enabled then Enabled else Disabled)
                && (key in live <==> enabled)
      ensures ok <==>
                && key in old(rows) && old(rows)[key].phase != Deleting && out.sourceAck
                && (enabled ==>
                      && old(rows)[key].phase != Disabling && key.node != old(rows)[key].exit
                      && out.valid && out.preflight && out.exitAck
                      && !CycleReachable(OtherEdges(old(rows), key) + {Edge(key.node, old(rows)[key].exit)}, key.node))
    {
      if enabled { EnableKeepsGood(State(), key, out); } else { QuietStepKeepsGood(State(), DoDisable(key), out); }
      if key !in rows || rows[key].phase == Deleting { return false; }
      if enabled {
        if rows[key].phase == Disabling { return false; }
        var accepted := Validate(key, rows[key].exit, out.valid);
        if !accepted || !out.preflight || !out.exitAck { return false; }
      }
      SetState(key, enabled, if enabled then Enabling else Disabling);
      if enabled { live := live + {key}; }
      if !out.sourceAck { return false; }
      SetState(key, enabled, if enabled then Enabled else Disabled);
      if !enabled { live := live - {key}; }
      ok := true;
    }

    method DeleteRoute(key: Key, out: Outside) returns (ok: bool)
      requires Good(State())
      modifies this
      ensures State() == Delete(old(State()), key, out) && Good(State())
      ensures ok ==> key !in rows && key !in live
      ensures ok <==>
                && key in old(rows) && !old(rows)[key].enabled && out.exitAck
                && (old(rows)[key].phase == Disabled || old(rows)[key].phase == Deleting)
    {
      QuietStepKeepsGood(State(), DoDelete(key), out);
      if key !in rows || rows[key].enabled
        || (rows[key].phase != Disabled && rows[key].phase != Deleting) { return false; }
      SetState(key, false, Deleting);
      if !out.exitAck { return false; }
      rows := rows - {key};
      ok := true;
    }
  }
}
