/**
  The route compiler: `NodeRelay.compile` rewrites a first-match routing table on the Hub,
  and `CoreEngine.build_config` on the Node then drops Traffic Matrix rules of another scope
  and widens every inbound tag to the shadow (tunnel) listeners of that inbound.

  Both are functions on rule lists. Their meaning is the outbound a packet is sent to by the
  first rule that matches it.
*/
module RelayCompiler {
  import opened RelayRoutes
  import opened Wrappers

  // ---------------------------------------------------------------- data model

  /** A listener tag: an inbound's own tag, or the tag of its tunnel shadow. */
  datatype InTag = Named(name: string) | Shadow(id: nat, port: nat)

  /** A user name on a Node: a mirrored customer, or the synthetic user of one relay route. */
  datatype User = Customer(name: string) | Bridge(identity: nat)

  /** An outbound tag. The two relay forms stand for the reserved `dark-relay-` namespace. */
  datatype OutTag = Plain(name: string) | RelayTo(route: Key) | RelayExit(route: Key)

  datatype RuleTag = Matrix | Policy(base: OutTag, index: nat) | CatchAll(base: OutTag) | Ordinary

  /**
    A routing rule. `facts` stands for every condition the compiler never looks at (domain,
    address, network, ...): the rule needs all of them to hold of the packet.
  */
  datatype Rule = Rule(users: Option<seq<User>>, inbounds: Option<seq<InTag>>,
                       localPort: Option<set<nat>>, facts: set<nat>,
                       target: Option<OutTag>, balancer: Option<nat>, tag: RuleTag)

  datatype Packet = Packet(user: User, inbound: InTag, localPort: nat, facts: set<nat>)

  datatype Protocol = Blackhole | Freedom | Vless | Wireguard
  datatype Outbound = Outbound(tag: OutTag, protocol: Protocol)

  /** An inbound as deployed on the Node: its tag, direct port and optional tunnel port. */
  datatype Listener = Listener(id: nat, tag: string, port: nat, tunnel: Option<nat>)

  datatype Route = Route(source: Key, exitNode: nat, exitInbound: nat, identity: nat,
                         enabled: bool, phase: Phase)

  /**
    What the compiler asks the rest of the Hub: the inbounds it knows, the routes whose source
    inbound is still assigned and enabled, and the routes whose destination is usable.
  */
  datatype Env = Env(node: nat, inbounds: map<nat, Listener>, sourceOk: set<Key>, exitOk: set<Key>)

  datatype Sections = Sections(outbounds: seq<Outbound>, rules: seq<Rule>)
  datatype Compiled = Refused | Compiled(sections: Sections)

  // ---------------------------------------------------------------- first-match meaning

  predicate Matches(r: Rule, p: Packet) {
    && (r.users.Some? ==> p.user in r.users.value)
    && (r.inbounds.Some? ==> p.inbound in r.inbounds.value)
    && (r.localPort.Some? ==> p.localPort in r.localPort.value)
    && r.facts <= p.facts
  }

  function FirstMatch(rules: seq<Rule>, p: Packet): (r: Option<Rule>) {
    if rules == [] then None
    else if Matches(rules[0], p) then Some(rules[0])
    else FirstMatch(rules[1..], p)
  }

  /** Where a packet goes: no rule, a named outbound, or a balancer. */
  datatype Decision = NoRule | Sent(tag: OutTag) | Balanced(balancer: Option<nat>)

  function TargetOf(r: Rule): Decision {
    if r.target.Some? then Sent(r.target.value) else Balanced(r.balancer)
  }

  function Decide(rules: seq<Rule>, p: Packet): Decision {
    match FirstMatch(rules, p)
    case None => NoRule
    case Some(r) => TargetOf(r)
  }

  // ---------------------------------------------------------------- CoreEngine.build_config

  function ShadowsOf(listeners: seq<Listener>, name: string): seq<InTag> {
    if listeners == [] then []
    else
      var l := listeners[0];
      (if l.tag == name && l.tunnel.Some? then [Shadow(l.id, l.tunnel.value)] else [])
      + ShadowsOf(listeners[1..], name)
  }

  function AppendMissing(tags: seq<InTag>, more: seq<InTag>): seq<InTag>
    decreases |more|
  {
    if more == [] then tags
    else AppendMissing(if more[0] in tags then tags else tags + [more[0]], more[1..])
  }

  function ExpandTags(expanded: seq<InTag>, todo: seq<InTag>, listeners: seq<Listener>): seq<InTag>
    decreases |todo|
  {
    if todo == [] then expanded
    else
      var shadows := if todo[0].Named? then ShadowsOf(listeners, todo[0].name) else [];
      ExpandTags(AppendMissing(expanded, shadows), todo[1..], listeners)
  }

  /** Widen one rule to the shadow listeners of the inbounds it names. */
  function Widen(r: Rule, listeners: seq<Listener>): Rule {
    if r.inbounds.None? then r
    else r.(inbounds := Some(ExpandTags(r.inbounds.value, r.inbounds.value, listeners)))
  }

  /** Traffic Matrix rules name their listener exactly and are not widened. */
  function Expand(rules: seq<Rule>, listeners: seq<Listener>): seq<Rule> {
    if rules == [] then []
    else [if rules[0].tag.Matrix? then rules[0] else Widen(rules[0], listeners)] + Expand(rules[1..], listeners)
  }

  /** The same table with Traffic Matrix rules widened as well. */
  function ExpandAll(rules: seq<Rule>, listeners: seq<Listener>): seq<Rule> {
    if rules == [] then [] else [Widen(rules[0], listeners)] + ExpandAll(rules[1..], listeners)
  }

  /** A Node regenerates matrix rules from its own, empty, table: those it was sent are dropped. */
  function DropMatrix(rules: seq<Rule>): seq<Rule> {
    if rules == [] then []
    else (if rules[0].tag.Matrix? then [] else [rules[0]]) + DropMatrix(rules[1..])
  }

  function NodeRules(rules: seq<Rule>, listeners: seq<Listener>): seq<Rule> {
    Expand(DropMatrix(rules), listeners)
  }

  // ---------------------------------------------------------------- NodeRelay.compile

  /** The single key a scoped copy is narrowed on. */
  datatype Scope = ByUser(user: User) | ByInbound(tags: seq<InTag>, inbound: Listener)

  function Common<T(==,!new)>(values: seq<T>, current: Option<seq<T>>): (r: seq<T>)
    ensures forall v :: v in r <==> v in values && (current.None? || v in current.value)
  {
    if values == [] then []
    else (if current.None? || values[0] in current.value then [values[0]] else []) + Common(values[1..], current)
  }

  function BlockedTags(outbounds: seq<Outbound>): set<OutTag> {
    set o | o in outbounds && o.protocol.Blackhole? :: o.tag
  }

  /** Does the original rule keep any traffic of this scope? */
  predicate Overlaps(r: Rule, scope: Scope) {
    match scope
    case ByUser(u) => Common([u], r.users) != []
    case ByInbound(tags, _) => Common(tags, r.inbounds) != []
  }

  function Narrow(r: Rule, scope: Scope): Rule {
    match scope
    case ByUser(u) => r.(users := Some(Common([u], r.users)))
    case ByInbound(tags, ib) =>
      var n := r.(inbounds := Some(Common(tags, r.inbounds)));
      if r.tag.Matrix? && n.inbounds == Some([Named(ib.tag)]) then n.(localPort := Some({ib.port})) else n
  }

  function Redirect(n: Rule, selected: OutTag, blocked: set<OutTag>): Rule {
    if n.target.Some? && n.target.value in blocked then n
    else n.(balancer := None, target := Some(selected))
  }

  function Copy(r: Rule, scope: Scope, selected: OutTag, blocked: set<OutTag>, index: nat): Rule {
    Redirect(Narrow(r, scope), selected, blocked).(tag := Policy(selected, index))
  }

  function ScopedPolicies(rules: seq<Rule>, scope: Scope, selected: OutTag, blocked: set<OutTag>,
                          index: nat): seq<Rule> {
    if rules == [] then []
    else if !Overlaps(rules[0], scope) then ScopedPolicies(rules[1..], scope, selected, blocked, index)
    else [Copy(rules[0], scope, selected, blocked, index)]
         + ScopedPolicies(rules[1..], scope, selected, blocked, index + 1)
  }

  predicate ExitHere(row: Route, env: Env) {
    row.exitNode == env.node && row.phase != Deleting && row.source in env.exitOk
  }

  /** An unusable exit here ends the work on the row. */
  predicate SourceHere(row: Route, env: Env) {
    && !(row.exitNode == env.node && row.phase != Deleting && row.source !in env.exitOk)
    && row.source.node == env.node && row.enabled && row.source.inbound in env.inbounds
  }

  predicate Relevant(row: Route, env: Env) {
    row.exitNode == env.node || (row.source.node == env.node && row.enabled)
  }

  function Tags(ib: Listener): seq<InTag> {
    [Named(ib.tag)] + (if ib.tunnel.Some? then [Shadow(ib.id, ib.tunnel.value)] else [])
  }

  function ExitRules(row: Route, env: Env, rules: seq<Rule>, blocked: set<OutTag>): seq<Rule> {
    var tag := RelayExit(row.source);
    ScopedPolicies(rules, ByUser(Bridge(row.identity)), tag, blocked, 0)
    + [Rule(Some([Bridge(row.identity)]), None, None, {}, Some(tag), None, CatchAll(tag))]
  }

  function IngressRules(row: Route, env: Env, rules: seq<Rule>, blocked: set<OutTag>): seq<Rule>
    requires SourceHere(row, env)
  {
    var ib := env.inbounds[row.source.inbound];
    var tag := RelayTo(row.source);
    ScopedPolicies(rules, ByInbound(Tags(ib), ib), tag, blocked, 0)
    + [Rule(None, Some([Named(ib.tag)]), None, {}, Some(tag), None, CatchAll(tag))]
  }

  function RouteOutbounds(row: Route, env: Env): seq<Outbound> {
    (if ExitHere(row, env) then [Outbound(RelayExit(row.source), Freedom)] else [])
    + (if SourceHere(row, env)
       then [Outbound(RelayTo(row.source),
                      if row.source in env.sourceOk && row.source in env.exitOk then Vless else Blackhole)]
       else [])
  }

  function AllExitRules(rows: seq<Route>, env: Env, rules: seq<Rule>, blocked: set<OutTag>): seq<Rule> {
    if rows == [] then []
    else (if ExitHere(rows[0], env) then ExitRules(rows[0], env, rules, blocked) else [])
         + AllExitRules(rows[1..], env, rules, blocked)
  }

  function AllIngressRules(rows: seq<Route>, env: Env, rules: seq<Rule>, blocked: set<OutTag>): seq<Rule> {
    if rows == [] then []
    else (if SourceHere(rows[0], env) then IngressRules(rows[0], env, rules, blocked) else [])
         + AllIngressRules(rows[1..], env, rules, blocked)
  }

  function AllOutbounds(rows: seq<Route>, env: Env): seq<Outbound> {
    if rows == [] then [] else RouteOutbounds(rows[0], env) + AllOutbounds(rows[1..], env)
  }

  function Compile(rows: seq<Route>, env: Env, s: Sections): Compiled {
    if forall i :: 0 <= i < |rows| ==> !Relevant(rows[i], env) then Compiled(s)
    else if exists o :: o in s.outbounds && !o.tag.Plain? then Refused
    else
      var blocked := BlockedTags(s.outbounds);
      Compiled(Sections(s.outbounds + AllOutbounds(rows, env),
                        AllExitRules(rows, env, s.rules, blocked)
                        + AllIngressRules(rows, env, s.rules, blocked) + s.rules))
  }

  // ---------------------------------------------------------------- what callers may rely on

  /** The Hub's inbound table: keys, tags and tunnel ports never collide. */
  ghost predicate GoodEnv(env: Env, listeners: seq<Listener>) {
    && (forall i :: i in env.inbounds ==>
        env.inbounds[i].id == i && env.inbounds[i].tunnel != Some(env.inbounds[i].port))
    && (forall i, j :: i in env.inbounds && j in env.inbounds && env.inbounds[i].tag == env.inbounds[j].tag ==> i == j)
    && (forall k :: 0 <= k < |listeners| ==>
        listeners[k].id in env.inbounds && env.inbounds[listeners[k].id] == listeners[k])
  }

  /** Source inbound and bridge identity are unique columns of the route table, and a route leads to another Node. */
  ghost predicate GoodRows(rows: seq<Route>) {
    && (forall i :: 0 <= i < |rows| ==> rows[i].source.node != rows[i].exitNode)
    && forall i, j :: 0 <= i < j < |rows| ==> rows[i].source != rows[j].source && rows[i].identity != rows[j].identity
  }

  /** Generated matrix rules carry no local port of their own. */
  ghost predicate PlainMatrix(rules: seq<Rule>) {
    forall r :: r in rules && r.tag.Matrix? ==> r.localPort.None?
  }

  /** A packet that really arrived on one of the two listeners of `ib`. */
  predicate Arrives(p: Packet, ib: Listener) {
    || (p.inbound == Named(ib.tag) && p.localPort == ib.port)
    || (ib.tunnel.Some? && p.inbound == Shadow(ib.id, ib.tunnel.value) && p.localPort == ib.tunnel.value)
  }

  /** One of the two listeners of `ib`. */
  predicate ListensFor(ib: Listener, t: InTag) {
    t == Named(ib.tag) || (ib.tunnel.Some? && t == Shadow(ib.id, ib.tunnel.value))
  }

  /** The meaning of a narrowed table: explicit blocks stay, everything else is redirected. */
  function Overridden(d: Decision, selected: OutTag, blocked: set<OutTag>): Decision {
    if d.Sent? && d.tag in blocked then d else Sent(selected)
  }

  // ---------------------------------------------------------------- list lemmas

  lemma {:induction false} FirstMatchConcat(a: seq<Rule>, b: seq<Rule>, p: Packet)
    ensures FirstMatch(a + b, p) == if FirstMatch(a, p).Some? then FirstMatch(a, p) else FirstMatch(b, p)
  {
    if a == [] {
      assert a + b == b;
    } else {
      assert (a + b)[1..] == a[1..] + b;
      FirstMatchConcat(a[1..], b, p);
    }
  }

  lemma {:induction false} DropMatrixConcat(a: seq<Rule>, b: seq<Rule>)
    ensures DropMatrix(a + b) == DropMatrix(a) + DropMatrix(b)
  {
    if a == [] {
      assert a + b == b;
    } else {
      assert (a + b)[1..] == a[1..] + b;
      DropMatrixConcat(a[1..], b);
    }
  }

  lemma {:induction false} ExpandConcat(a: seq<Rule>, b: seq<Rule>, ls: seq<Listener>)
    ensures Expand(a + b, ls) == Expand(a, ls) + Expand(b, ls)
  {
    if a == [] {
      assert a + b == b;
    } else {
      assert (a + b)[1..] == a[1..] + b;
      ExpandConcat(a[1..], b, ls);
    }
  }

  lemma NodeRulesConcat(a: seq<Rule>, b: seq<Rule>, ls: seq<Listener>)
    ensures NodeRules(a + b, ls) == NodeRules(a, ls) + NodeRules(b, ls)
  {
    DropMatrixConcat(a, b);
    ExpandConcat(DropMatrix(a), DropMatrix(b), ls);
  }

  lemma NodeRulesFirst(r: Rule, rest: seq<Rule>, ls: seq<Listener>)
    requires !r.tag.Matrix?
    ensures NodeRules([r] + rest, ls) == [Widen(r, ls)] + NodeRules(rest, ls)
  {
    assert ([r] + rest)[1..] == rest;
    assert ([r] + DropMatrix(rest))[1..] == DropMatrix(rest);
  }

  lemma {:induction false} InAppendMissing(tags: seq<InTag>, more: seq<InTag>, t: InTag)
    ensures t in AppendMissing(tags, more) <==> t in tags || t in more
    decreases |more|
  {
    if more != [] {
      var next := if more[0] in tags then tags else tags + [more[0]];
      InAppendMissing(next, more[1..], t);
      assert t in more <==> t == more[0] || t in more[1..];
    }
  }

  ghost predicate AddsShadow(n: InTag, ls: seq<Listener>, t: InTag) {
    n.Named? && t in ShadowsOf(ls, n.name)
  }

  lemma {:induction false} InExpandTags(done: seq<InTag>, todo: seq<InTag>, ls: seq<Listener>, t: InTag)
    ensures t in ExpandTags(done, todo, ls) <==> t in done || exists n :: n in todo && AddsShadow(n, ls, t)
    decreases |todo|
  {
    if todo != [] {
      var shadows := if todo[0].Named? then ShadowsOf(ls, todo[0].name) else [];
      InAppendMissing(done, shadows, t);
      InExpandTags(AppendMissing(done, shadows), todo[1..], ls, t);
      assert forall n :: n in todo <==> n == todo[0] || n in todo[1..];
      assert AddsShadow(todo[0], ls, t) <==> t in shadows;
    }
  }

  lemma {:induction false} InShadowsOf(ls: seq<Listener>, name: string, t: InTag)
    ensures t in ShadowsOf(ls, name) <==>
            exists k :: 0 <= k < |ls| && ls[k].tag == name && ls[k].tunnel.Some?
              && t == Shadow(ls[k].id, ls[k].tunnel.value)
  {
    if ls != [] {
      InShadowsOf(ls[1..], name, t);
      if t in ShadowsOf(ls[1..], name) {
        var k :| 0 <= k < |ls[1..]| && ls[1..][k].tag == name && ls[1..][k].tunnel.Some?
          && t == Shadow(ls[1..][k].id, ls[1..][k].tunnel.value);
        assert ls[k + 1] == ls[1..][k];
      }
      if k :| 0 <= k < |ls| && ls[k].tag == name && ls[k].tunnel.Some? && t == Shadow(ls[k].id, ls[k].tunnel.value) {
        if k > 0 { assert ls[1..][k - 1] == ls[k]; }
      }
    }
  }

  /** Widening a tag list adds exactly the shadow of each named, deployed inbound. */
  lemma WidenedTags(tags: seq<InTag>, env: Env, ls: seq<Listener>, t: InTag)
    requires GoodEnv(env, ls)
    ensures t.Named? ==> (t in ExpandTags(tags, tags, ls) <==> t in tags)
    ensures t.Shadow? ==>
              (t in ExpandTags(tags, tags, ls) <==>
               t in tags
               || (exists k ::
                     0 <= k < |ls| && ls[k].id == t.id && ls[k].tunnel == Some(t.port) && Named(ls[k].tag) in tags))
  {
    InExpandTags(tags, tags, ls, t);
    forall n | n in tags && n.Named?
      ensures AddsShadow(n, ls, t) <==>
              exists k :: 0 <= k < |ls| && ls[k].tag == n.name && ls[k].tunnel.Some?
                && t == Shadow(ls[k].id, ls[k].tunnel.value)
    {
      InShadowsOf(ls, n.name, t);
    }
    if t.Shadow? {
      if k :| 0 <= k < |ls| && ls[k].id == t.id && ls[k].tunnel == Some(t.port) && Named(ls[k].tag) in tags {
        assert AddsShadow(Named(ls[k].tag), ls, t) by { InShadowsOf(ls, ls[k].tag, t); }
      }
    }
  }

  // ---------------------------------------------------------------- one scoped copy

  function ExpandOne(r: Rule, ls: seq<Listener>): Rule {
    if r.tag.Matrix? then r else Widen(r, ls)
  }

  /** For the listeners of one inbound, widening asks only for the inbound's own tag. */
  lemma WidenedHere(tags: seq<InTag>, ib: Listener, env: Env, ls: seq<Listener>, p: Packet)
    requires GoodEnv(env, ls) && ib in ls && Arrives(p, ib)
    ensures p.inbound in ExpandTags(tags, tags, ls) <==> p.inbound in tags || Named(ib.tag) in tags
    ensures p.inbound in Tags(ib) && Named(ib.tag) in Tags(ib)
  {
    WidenedTags(tags, env, ls, p.inbound);
    var k :| 0 <= k < |ls| && ls[k] == ib;
    assert Named(ib.tag) == Tags(ib)[0];
    if ib.tunnel.Some? { assert Shadow(ib.id, ib.tunnel.value) == Tags(ib)[1]; }
  }

  /** On a relayed inbound a copy applies exactly when the rule it was copied from applies. */
  lemma InboundCopy(r: Rule, ib: Listener, env: Env, ls: seq<Listener>, p: Packet)
    requires GoodEnv(env, ls) && ib in ls && Arrives(p, ib)
    requires r.tag.Matrix? ==> r.localPort.None?
    ensures Matches(ExpandOne(r, ls), p) <==>
            Overlaps(r, ByInbound(Tags(ib), ib)) && Matches(Widen(Narrow(r, ByInbound(Tags(ib), ib)), ls), p)
  {
    var common := Common(Tags(ib), r.inbounds);
    WidenedHere(common, ib, env, ls, p);
    if r.inbounds.Some? { WidenedHere(r.inbounds.value, ib, env, ls, p); }
    if r.tag.Matrix? {
      if common == [Named(ib.tag)] {
        assert Named(ib.tag) in common;
        assert p.inbound.Shadow? ==> p.inbound !in common && p.localPort != ib.port;
        assert p.inbound.Named? ==> p.localPort == ib.port;
      } else if p.inbound !in common && Named(ib.tag) in common {
        OnlyNamed(common, ib, r.inbounds);
      }
    }
  }

  /** The tags a copy keeps are in the inbound's own order, so a lone own tag is that singleton. */
  lemma OnlyNamed(common: seq<InTag>, ib: Listener, current: Option<seq<InTag>>)
    requires common == Common(Tags(ib), current) && Named(ib.tag) in common
    requires ib.tunnel.Some? ==> Shadow(ib.id, ib.tunnel.value) !in common
    ensures common == [Named(ib.tag)]
  {
    assert Tags(ib)[0] == Named(ib.tag);
    var rest := Common(Tags(ib)[1..], current);
    assert common == [Named(ib.tag)] + rest;
    if ib.tunnel.Some? {
      var shadow := Shadow(ib.id, ib.tunnel.value);
      assert Tags(ib)[1..] == [shadow];
      assert shadow in Tags(ib);
      assert !(current.None? || shadow in current.value);
      assert Common([shadow][1..], current) == [];
      assert rest == [];
    }
  }

  /** No copy applies to a packet that did not arrive on the scoped inbound. */
  lemma InboundCopyElsewhere(r: Rule, ib: Listener, env: Env, ls: seq<Listener>, p: Packet)
    requires GoodEnv(env, ls) && ib.id in env.inbounds && env.inbounds[ib.id] == ib && p.inbound !in Tags(ib)
    ensures !Matches(Widen(Narrow(r, ByInbound(Tags(ib), ib)), ls), p)
    ensures p.inbound !in ExpandTags([Named(ib.tag)], [Named(ib.tag)], ls)
  {
    WidenedTags(Common(Tags(ib), r.inbounds), env, ls, p.inbound);
    WidenedTags([Named(ib.tag)], env, ls, p.inbound);
    assert Named(ib.tag) == Tags(ib)[0];
    if ib.tunnel.Some? { assert Shadow(ib.id, ib.tunnel.value) == Tags(ib)[1]; }
  }

  // ---------------------------------------------------------------- whole scoped tables

  lemma FirstMatchStep(r: Rule, rest: seq<Rule>, p: Packet)
    ensures FirstMatch([r] + rest, p) == if Matches(r, p) then Some(r) else FirstMatch(rest, p)
  {
    assert ([r] + rest)[1..] == rest;
  }

  /** Redirection changes where a copy sends its packets and not which packets it takes. */
  lemma CopyMeaning(r: Rule, scope: Scope, selected: OutTag, blocked: set<OutTag>, index: nat, ls: seq<Listener>,
                    p: Packet)
    ensures Matches(Widen(Copy(r, scope, selected, blocked, index), ls), p) <==> Matches(Widen(Narrow(r, scope), ls), p)
    ensures TargetOf(Widen(Copy(r, scope, selected, blocked, index), ls)) == Overridden(TargetOf(r), selected, blocked)
    ensures TargetOf(ExpandOne(r, ls)) == TargetOf(r) && TargetOf(Widen(r, ls)) == TargetOf(r)
  {
  }

  /** `copies` decides as `table` does, with everything but the blocks sent to `selected`. */
  ghost predicate Follows(copies: seq<Rule>, table: seq<Rule>, selected: OutTag, blocked: set<OutTag>, p: Packet) {
    && (FirstMatch(copies, p).Some? <==> FirstMatch(table, p).Some?)
    && (FirstMatch(copies, p).Some? ==> Decide(copies, p) == Overridden(Decide(table, p), selected, blocked))
  }

  lemma {:induction false} InboundPolicies(rules: seq<Rule>, ib: Listener, selected: OutTag, blocked: set<OutTag>,
                                           index: nat,
                                           env: Env, ls: seq<Listener>, p: Packet)
    requires GoodEnv(env, ls) && ib in ls && Arrives(p, ib) && PlainMatrix(rules)
    ensures Follows(NodeRules(ScopedPolicies(rules, ByInbound(Tags(ib), ib), selected, blocked, index), ls),
                    Expand(rules, ls), selected, blocked, p)
  {
    if rules != [] {
      var scope := ByInbound(Tags(ib), ib);
      var kept := Overlaps(rules[0], scope);
      var next := if kept then index + 1 else index;
      InboundPolicies(rules[1..], ib, selected, blocked, next, env, ls, p);
      InboundCopy(rules[0], ib, env, ls, p);
      FirstMatchStep(ExpandOne(rules[0], ls), Expand(rules[1..], ls), p);
      if kept {
        var rest := ScopedPolicies(rules[1..], scope, selected, blocked, next);
        CopyMeaning(rules[0], scope, selected, blocked, index, ls, p);
        NodeRulesFirst(Copy(rules[0], scope, selected, blocked, index), rest, ls);
        FirstMatchStep(Widen(Copy(rules[0], scope, selected, blocked, index), ls), NodeRules(rest, ls), p);
      }
    }
  }

  lemma {:induction false} InboundPoliciesElsewhere(rules: seq<Rule>, ib: Listener, selected: OutTag,
                                                    blocked: set<OutTag>, index: nat,
                                                    env: Env, ls: seq<Listener>, p: Packet)
    requires GoodEnv(env, ls) && ib.id in env.inbounds && env.inbounds[ib.id] == ib && p.inbound !in Tags(ib)
    ensures FirstMatch(NodeRules(ScopedPolicies(rules, ByInbound(Tags(ib), ib), selected, blocked, index), ls), p).None?
  {
    if rules != [] {
      var scope := ByInbound(Tags(ib), ib);
      if Overlaps(rules[0], scope) {
        InboundCopyElsewhere(rules[0], ib, env, ls, p);
        var rest := ScopedPolicies(rules[1..], scope, selected, blocked, index + 1);
        CopyMeaning(rules[0], scope, selected, blocked, index, ls, p);
        NodeRulesFirst(Copy(rules[0], scope, selected, blocked, index), rest, ls);
        FirstMatchStep(Widen(Copy(rules[0], scope, selected, blocked, index), ls), NodeRules(rest, ls), p);
        InboundPoliciesElsewhere(rules[1..], ib, selected, blocked, index + 1, env, ls, p);
      } else {
        InboundPoliciesElsewhere(rules[1..], ib, selected, blocked, index, env, ls, p);
      }
    }
  }

  lemma {:induction false} UserPolicies(rules: seq<Rule>, user: User, selected: OutTag, blocked: set<OutTag>,
                                        index: nat,
                                        ls: seq<Listener>, p: Packet)
    ensures var copies := NodeRules(ScopedPolicies(rules, ByUser(user), selected, blocked, index), ls);
            if p.user == user then Follows(copies, ExpandAll(rules, ls), selected, blocked, p)
              else FirstMatch(copies, p).None?
  {
    if rules != [] {
      var scope := ByUser(user);
      var common := Common([user], rules[0].users);
      var kept := Overlaps(rules[0], scope);
      var next := if kept then index + 1 else index;
      UserPolicies(rules[1..], user, selected, blocked, next, ls, p);
      FirstMatchStep(Widen(rules[0], ls), ExpandAll(rules[1..], ls), p);
      assert kept ==> common[0] in common;
      assert user in [user];
      assert user in common <==> kept;
      if kept {
        var rest := ScopedPolicies(rules[1..], scope, selected, blocked, next);
        CopyMeaning(rules[0], scope, selected, blocked, index, ls, p);
        NodeRulesFirst(Copy(rules[0], scope, selected, blocked, index), rest, ls);
        FirstMatchStep(Widen(Copy(rules[0], scope, selected, blocked, index), ls), NodeRules(rest, ls), p);
      }
    }
  }

  // ---------------------------------------------------------------- one route

  lemma IngressMeaning(row: Route, env: Env, rules: seq<Rule>, blocked: set<OutTag>, ls: seq<Listener>, p: Packet)
    requires GoodEnv(env, ls) && PlainMatrix(rules) && SourceHere(row, env)
    ensures var ib := env.inbounds[row.source.inbound];
            && (ib in ls && Arrives(p, ib) ==>
                  && FirstMatch(NodeRules(IngressRules(row, env, rules, blocked), ls), p).Some?
                  && Decide(NodeRules(IngressRules(row, env, rules, blocked), ls), p)
                     == Overridden(Decide(Expand(rules, ls), p), RelayTo(row.source), blocked))
            && (p.inbound !in Tags(ib) ==> FirstMatch(NodeRules(IngressRules(row, env, rules, blocked), ls), p).None?)
  {
    var ib := env.inbounds[row.source.inbound];
    var tag := RelayTo(row.source);
    var copies := ScopedPolicies(rules, ByInbound(Tags(ib), ib), tag, blocked, 0);
    var last := Rule(None, Some([Named(ib.tag)]), None, {}, Some(tag), None, CatchAll(tag));
    NodeRulesConcat(copies, [last], ls);
    FirstMatchConcat(NodeRules(copies, ls), NodeRules([last], ls), p);
    NodeRulesFirst(last, [], ls);
    assert [last] + [] == [last];
    if ib in ls && Arrives(p, ib) {
      InboundPolicies(rules, ib, tag, blocked, 0, env, ls, p);
      var k :| 0 <= k < |ls| && ls[k] == ib;
      WidenedTags([Named(ib.tag)], env, ls, p.inbound);
    }
    if p.inbound !in Tags(ib) {
      InboundPoliciesElsewhere(rules, ib, tag, blocked, 0, env, ls, p);
      InboundCopyElsewhere(last, ib, env, ls, p);
    }
  }

  lemma ExitMeaning(row: Route, env: Env, rules: seq<Rule>, blocked: set<OutTag>, ls: seq<Listener>, p: Packet)
    ensures p.user == Bridge(row.identity) ==>
              && FirstMatch(NodeRules(ExitRules(row, env, rules, blocked), ls), p).Some?
              && Decide(NodeRules(ExitRules(row, env, rules, blocked), ls), p)
                 == Overridden(Decide(ExpandAll(rules, ls), p), RelayExit(row.source), blocked)
    ensures p.user != Bridge(row.identity) ==> FirstMatch(NodeRules(ExitRules(row, env, rules, blocked), ls), p).None?
  {
    var tag := RelayExit(row.source);
    var copies := ScopedPolicies(rules, ByUser(Bridge(row.identity)), tag, blocked, 0);
    var last := Rule(Some([Bridge(row.identity)]), None, None, {}, Some(tag), None, CatchAll(tag));
    NodeRulesConcat(copies, [last], ls);
    FirstMatchConcat(NodeRules(copies, ls), NodeRules([last], ls), p);
    NodeRulesFirst(last, [], ls);
    assert [last] + [] == [last];
    UserPolicies(rules, Bridge(row.identity), tag, blocked, 0, ls, p);
    assert Bridge(row.identity) in [Bridge(row.identity)];
  }

  // ---------------------------------------------------------------- all routes

  lemma {:induction false} IngressRowsMeaning(rows: seq<Route>, at: nat, env: Env, rules: seq<Rule>,
                                              blocked: set<OutTag>,
                                              ls: seq<Listener>, p: Packet)
    requires GoodEnv(env, ls) && PlainMatrix(rules) && GoodRows(rows)
    requires at < |rows| && SourceHere(rows[at], env)
    requires env.inbounds[rows[at].source.inbound] in ls && Arrives(p, env.inbounds[rows[at].source.inbound])
    ensures FirstMatch(NodeRules(AllIngressRules(rows, env, rules, blocked), ls), p).Some?
    ensures Decide(NodeRules(AllIngressRules(rows, env, rules, blocked), ls), p)
            == Overridden(Decide(Expand(rules, ls), p), RelayTo(rows[at].source), blocked)
    decreases at
  {
    var head := if SourceHere(rows[0], env) then IngressRules(rows[0], env, rules, blocked) else [];
    var tail := AllIngressRules(rows[1..], env, rules, blocked);
    NodeRulesConcat(head, tail, ls);
    FirstMatchConcat(NodeRules(head, ls), NodeRules(tail, ls), p);
    if at == 0 {
      IngressMeaning(rows[0], env, rules, blocked, ls, p);
    } else {
      if SourceHere(rows[0], env) {
        assert rows[0].source != rows[at].source;
        IngressMeaning(rows[0], env, rules, blocked, ls, p);
      }
      IngressRowsMeaning(rows[1..], at - 1, env, rules, blocked, ls, p);
    }
  }

  lemma {:induction false} IngressRowsElsewhere(rows: seq<Route>, env: Env, rules: seq<Rule>, blocked: set<OutTag>,
                                                ls: seq<Listener>, p: Packet)
    requires GoodEnv(env, ls) && PlainMatrix(rules)
    requires forall i :: 0 <= i < |rows| && SourceHere(rows[i], env) ==>
             p.inbound !in Tags(env.inbounds[rows[i].source.inbound])
    ensures FirstMatch(NodeRules(AllIngressRules(rows, env, rules, blocked), ls), p).None?
  {
    if rows != [] {
      var head := if SourceHere(rows[0], env) then IngressRules(rows[0], env, rules, blocked) else [];
      var tail := AllIngressRules(rows[1..], env, rules, blocked);
      NodeRulesConcat(head, tail, ls);
      FirstMatchConcat(NodeRules(head, ls), NodeRules(tail, ls), p);
      if SourceHere(rows[0], env) { IngressMeaning(rows[0], env, rules, blocked, ls, p); }
      IngressRowsElsewhere(rows[1..], env, rules, blocked, ls, p);
    }
  }

  lemma {:induction false} ExitRowsMeaning(rows: seq<Route>, at: nat, env: Env, rules: seq<Rule>, blocked: set<OutTag>,
                                           ls: seq<Listener>, p: Packet)
    requires GoodRows(rows) && at < |rows| && ExitHere(rows[at], env) && p.user == Bridge(rows[at].identity)
    ensures FirstMatch(NodeRules(AllExitRules(rows, env, rules, blocked), ls), p).Some?
    ensures Decide(NodeRules(AllExitRules(rows, env, rules, blocked), ls), p)
            == Overridden(Decide(ExpandAll(rules, ls), p), RelayExit(rows[at].source), blocked)
    decreases at
  {
    var head := if ExitHere(rows[0], env) then ExitRules(rows[0], env, rules, blocked) else [];
    var tail := AllExitRules(rows[1..], env, rules, blocked);
    NodeRulesConcat(head, tail, ls);
    FirstMatchConcat(NodeRules(head, ls), NodeRules(tail, ls), p);
    ExitMeaning(rows[0], env, rules, blocked, ls, p);
    if at != 0 {
      assert rows[0].identity != rows[at].identity;
      ExitRowsMeaning(rows[1..], at - 1, env, rules, blocked, ls, p);
    }
  }

  lemma {:induction false} ExitRowsElsewhere(rows: seq<Route>, env: Env, rules: seq<Rule>, blocked: set<OutTag>,
                                             ls: seq<Listener>, p: Packet)
    requires forall i :: 0 <= i < |rows| && ExitHere(rows[i], env) ==> p.user != Bridge(rows[i].identity)
    ensures FirstMatch(NodeRules(AllExitRules(rows, env, rules, blocked), ls), p).None?
  {
    if rows != [] {
      var head := if ExitHere(rows[0], env) then ExitRules(rows[0], env, rules, blocked) else [];
      var tail := AllExitRules(rows[1..], env, rules, blocked);
      NodeRulesConcat(head, tail, ls);
      FirstMatchConcat(NodeRules(head, ls), NodeRules(tail, ls), p);
      ExitMeaning(rows[0], env, rules, blocked, ls, p);
      ExitRowsElsewhere(rows[1..], env, rules, blocked, ls, p);
    }
  }

  // ---------------------------------------------------------------- the compiler's theorems

  /** The compiled table tries exit rules, then ingress rules, then the original rules. */
  lemma CompiledInOrder(rows: seq<Route>, env: Env, s: Sections, ls: seq<Listener>, p: Packet)
    requires Compile(rows, env, s).Compiled?
    ensures var blocked := BlockedTags(s.outbounds);
            var exits := NodeRules(AllExitRules(rows, env, s.rules, blocked), ls);
            var ingress := NodeRules(AllIngressRules(rows, env, s.rules, blocked), ls);
            var own := NodeRules(s.rules, ls);
            FirstMatch(NodeRules(Compile(rows, env, s).sections.rules, ls), p)
            == if FirstMatch(exits, p).Some? then FirstMatch(exits, p)
               else if FirstMatch(ingress, p).Some? then FirstMatch(ingress, p) else FirstMatch(own, p)
  {
    var blocked := BlockedTags(s.outbounds);
    var exits := AllExitRules(rows, env, s.rules, blocked);
    var ingress := AllIngressRules(rows, env, s.rules, blocked);
    if forall i :: 0 <= i < |rows| ==> !Relevant(rows[i], env) {
      NothingRelevant(rows, env, s.rules, blocked);
    } else {
      NodeRulesConcat(exits + ingress, s.rules, ls);
      NodeRulesConcat(exits, ingress, ls);
      FirstMatchConcat(NodeRules(exits, ls) + NodeRules(ingress, ls), NodeRules(s.rules, ls), p);
      FirstMatchConcat(NodeRules(exits, ls), NodeRules(ingress, ls), p);
    }
  }

  lemma {:induction false} NothingRelevant(rows: seq<Route>, env: Env, rules: seq<Rule>, blocked: set<OutTag>)
    requires forall i :: 0 <= i < |rows| ==> !Relevant(rows[i], env)
    ensures AllExitRules(rows, env, rules, blocked) == [] && AllIngressRules(rows, env, rules, blocked) == []
    ensures AllOutbounds(rows, env) == []
  {
    if rows != [] { NothingRelevant(rows[1..], env, rules, blocked); }
  }

  /** The packet is of no bridge user whose route ends at a usable inbound of this Node. */
  ghost predicate NoBridge(rows: seq<Route>, env: Env, p: Packet) {
    forall i ::
      0 <= i < |rows| && rows[i].exitNode == env.node && rows[i].phase != Deleting && rows[i].source in env.exitOk ==>
        p.user != Bridge(rows[i].identity)
  }

  /** A decision that drops the packet. */
  ghost predicate Blocks(outbounds: seq<Outbound>, d: Decision) {
    d.Sent? && exists o :: o in outbounds && o.tag == d.tag && o.protocol == Blackhole
  }

  lemma OverriddenMeaning(d: Decision, selected: OutTag, outbounds: seq<Outbound>)
    ensures Overridden(d, selected, BlockedTags(outbounds)) == if Blocks(outbounds, d) then d else Sent(selected)
  {
  }

  /** Something of the route table concerns this Node: a route that ends here, or an enabled one that starts here. */
  ghost predicate Concerned(rows: seq<Route>, env: Env) {
    exists i :: 0 <= i < |rows|
                && (rows[i].exitNode == env.node || (rows[i].source.node == env.node && rows[i].enabled))
  }

  /**
    Compilation is refused exactly when there is something to compile and an outbound already has a reserved tag.
    Otherwise the Node's own outbounds stay first and its own rules last, and they are all there is when no route
    concerns the Node.
  */
  lemma CompileRefusesExactly(rows: seq<Route>, env: Env, s: Sections)
    ensures Compile(rows, env, s).Refused? <==>
              Concerned(rows, env) && exists o :: o in s.outbounds && (o.tag.RelayTo? || o.tag.RelayExit?)
    ensures !Concerned(rows, env) ==> Compile(rows, env, s) == Compiled(s)
    ensures Compile(rows, env, s).Compiled? ==>
              var out := Compile(rows, env, s).sections;
              && s.outbounds <= out.outbounds
              && |s.rules| <= |out.rules| && out.rules[|out.rules| - |s.rules|..] == s.rules
  {
    if Concerned(rows, env) {
      var i :|
        0 <= i < |rows| && (rows[i].exitNode == env.node || (rows[i].source.node == env.node && rows[i].enabled));
      assert Relevant(rows[i], env);
    }
  }

  ghost predicate ExitOutbound(row: Route, env: Env, o: Outbound) {
    && row.exitNode == env.node && row.phase != Deleting && row.source in env.exitOk
    && o == Outbound(RelayExit(row.source), Freedom)
  }

  ghost predicate RelayOutbound(row: Route, env: Env, o: Outbound) {
    && !(row.exitNode == env.node && row.phase != Deleting && row.source !in env.exitOk)
    && row.source.node == env.node && row.enabled && row.source.inbound in env.inbounds
    && o == Outbound(RelayTo(row.source),
                     if row.source in env.sourceOk && row.source in env.exitOk then Vless else Blackhole)
  }

  lemma {:induction false} RouteOutboundsExactly(rows: seq<Route>, env: Env, o: Outbound)
    ensures o in AllOutbounds(rows, env) <==>
              exists i :: 0 <= i < |rows| && (ExitOutbound(rows[i], env, o) || RelayOutbound(rows[i], env, o))
  {
    if rows != [] {
      RouteOutboundsExactly(rows[1..], env, o);
      assert o in RouteOutbounds(rows[0], env) <==> ExitOutbound(rows[0], env, o) || RelayOutbound(rows[0], env, o) by {
        assert ExitHere(rows[0], env) ==>
            RouteOutbounds(rows[0], env)[0] == Outbound(RelayExit(rows[0].source), Freedom);
        var all := RouteOutbounds(rows[0], env);
        if SourceHere(rows[0], env) { assert all[|all| - 1].tag == RelayTo(rows[0].source); }
      }
      if o in AllOutbounds(rows[1..], env) {
        var i :| 0 <= i < |rows[1..]| && (ExitOutbound(rows[1..][i], env, o) || RelayOutbound(rows[1..][i], env, o));
        assert rows[i + 1] == rows[1..][i];
      }
      if i :| 0 <= i < |rows| && (ExitOutbound(rows[i], env, o) || RelayOutbound(rows[i], env, o)) {
        if i > 0 { assert rows[1..][i - 1] == rows[i]; }
      }
    }
  }

  /**
    The outbounds of the compiled table: the Node's own, a freedom outbound for every usable route that ends here,
    and for every enabled route that starts here a VLESS one, or a blackhole when either end is unusable.
  */
  lemma CompiledOutbounds(rows: seq<Route>, env: Env, s: Sections, o: Outbound)
    requires Compile(rows, env, s).Compiled?
    ensures o in Compile(rows, env, s).sections.outbounds <==>
              o in s.outbounds
              || exists i :: 0 <= i < |rows| && (ExitOutbound(rows[i], env, o) || RelayOutbound(rows[i], env, o))
  {
    RouteOutboundsExactly(rows, env, o);
    if forall i :: 0 <= i < |rows| ==> !Relevant(rows[i], env) {
      NothingRelevant(rows, env, [], {});
    }
  }

  /**
    A packet on either listener of a relayed inbound (and not of a bridge user) goes to the
    blackhole that blocked it before, and otherwise to exactly its relay outbound. What blocked
    it before is read off the table the Hub compiled, matrix rules included.
  */
  lemma RelayedTraffic(rows: seq<Route>, at: nat, env: Env, s: Sections, ls: seq<Listener>, p: Packet)
    requires GoodEnv(env, ls) && GoodRows(rows) && PlainMatrix(s.rules)
    requires at < |rows| && rows[at].source.node == env.node && rows[at].enabled && NoBridge(rows, env, p)
    requires rows[at].source.inbound in env.inbounds
    requires env.inbounds[rows[at].source.inbound] in ls && Arrives(p, env.inbounds[rows[at].source.inbound])
    requires Compile(rows, env, s).Compiled?
    ensures var before := Decide(Expand(s.rules, ls), p);
            Decide(NodeRules(Compile(rows, env, s).sections.rules, ls), p)
            == if Blocks(s.outbounds, before) then before else Sent(RelayTo(rows[at].source))
  {
    OverriddenMeaning(Decide(Expand(s.rules, ls), p), RelayTo(rows[at].source), s.outbounds);
    var blocked := BlockedTags(s.outbounds);
    CompiledInOrder(rows, env, s, ls, p);
    ExitRowsElsewhere(rows, env, s.rules, blocked, ls, p);
    IngressRowsMeaning(rows, at, env, s.rules, blocked, ls, p);
  }

  /**
    A bridge user ends at its own exit, or at a blackhole, whatever inbound it came through and
    even if that inbound is relayed itself. Its blocks are those of the table with matrix rules
    widened to the shadow listeners as well. What is not blocked leaves the Node: there is an outbound
    of the exit's tag, and every one of that tag is a freedom outbound.
  */
  lemma BridgeTraffic(rows: seq<Route>, at: nat, env: Env, s: Sections, ls: seq<Listener>, p: Packet)
    requires GoodRows(rows) && at < |rows| && p.user == Bridge(rows[at].identity)
    requires rows[at].exitNode == env.node && rows[at].phase != Deleting && rows[at].source in env.exitOk
    requires Compile(rows, env, s).Compiled?
    ensures var before := Decide(ExpandAll(s.rules, ls), p);
            Decide(NodeRules(Compile(rows, env, s).sections.rules, ls), p)
            == if Blocks(s.outbounds, before) then before else Sent(RelayExit(rows[at].source))
    ensures var out := Compile(rows, env, s).sections;
            && Outbound(RelayExit(rows[at].source), Freedom) in out.outbounds
            && forall o :: o in out.outbounds && o.tag == RelayExit(rows[at].source) ==> o.protocol == Freedom
  {
    CompiledInOrder(rows, env, s, ls, p);
    ExitRowsMeaning(rows, at, env, s.rules, BlockedTags(s.outbounds), ls, p);
    OverriddenMeaning(Decide(ExpandAll(s.rules, ls), p), RelayExit(rows[at].source), s.outbounds);
    var mine := Outbound(RelayExit(rows[at].source), Freedom);
    assert ExitOutbound(rows[at], env, mine);
    CompiledOutbounds(rows, env, s, mine);
    CompileRefusesExactly(rows, env, s);
    forall o | o in Compile(rows, env, s).sections.outbounds && o.tag == RelayExit(rows[at].source)
      ensures o.protocol == Freedom
    {
      CompiledOutbounds(rows, env, s, o);
    }
  }

  /** All other packets are routed by the Node as they were before compilation. */
  lemma OtherTraffic(rows: seq<Route>, env: Env, s: Sections, ls: seq<Listener>, p: Packet)
    requires GoodEnv(env, ls) && PlainMatrix(s.rules) && NoBridge(rows, env, p)
    requires forall i :: 0 <= i < |rows| && rows[i].source.node == env.node && rows[i].enabled
                         && rows[i].source.inbound in env.inbounds ==>
                           !ListensFor(env.inbounds[rows[i].source.inbound], p.inbound)
    requires Compile(rows, env, s).Compiled?
    ensures Decide(NodeRules(Compile(rows, env, s).sections.rules, ls), p) == Decide(NodeRules(s.rules, ls), p)
  {
    var blocked := BlockedTags(s.outbounds);
    CompiledInOrder(rows, env, s, ls, p);
    ExitRowsElsewhere(rows, env, s.rules, blocked, ls, p);
    IngressRowsElsewhere(rows, env, s.rules, blocked, ls, p);
  }

  /**
    Relayed traffic never leaves the Node unencrypted, and leaves it whenever it can: some outbound carries the
    tag it is sent to, and every such outbound is a blackhole if the packet was blocked before, VLESS if both ends
    of the route are usable, and a blackhole otherwise.
  */
  lemma RelayedTrafficNeverDirect(rows: seq<Route>, at: nat, env: Env, s: Sections, ls: seq<Listener>, p: Packet)
    requires GoodEnv(env, ls) && GoodRows(rows) && PlainMatrix(s.rules)
    requires at < |rows| && rows[at].source.node == env.node && rows[at].enabled && NoBridge(rows, env, p)
    requires rows[at].source.inbound in env.inbounds
    requires env.inbounds[rows[at].source.inbound] in ls && Arrives(p, env.inbounds[rows[at].source.inbound])
    requires Compile(rows, env, s).Compiled?
    requires forall a, b :: a in s.outbounds && b in s.outbounds && a.tag == b.tag ==> a.protocol == b.protocol
    ensures var out := Compile(rows, env, s).sections;
            var d := Decide(NodeRules(out.rules, ls), p);
            var usable := rows[at].source in env.sourceOk && rows[at].source in env.exitOk;
            var dropped := Blocks(s.outbounds, Decide(Expand(s.rules, ls), p));
            && d.Sent?
            && (exists q :: q in out.outbounds && q.tag == d.tag)
            && forall o :: o in out.outbounds && o.tag == d.tag ==>
                 o.protocol == if usable && !dropped then Vless else Blackhole
  {
    RelayedTraffic(rows, at, env, s, ls, p);
    CompileRefusesExactly(rows, env, s);
    var out := Compile(rows, env, s).sections;
    var d := Decide(NodeRules(out.rules, ls), p);
    var mine := Outbound(RelayTo(rows[at].source),
                         if rows[at].source in env.sourceOk && rows[at].source in env.exitOk then Vless else Blackhole);
    assert RelayOutbound(rows[at], env, mine);
    CompiledOutbounds(rows, env, s, mine);
    forall o | o in out.outbounds && o.tag == d.tag
      ensures o in s.outbounds || (exists i :: 0 <= i < |rows| && RelayOutbound(rows[i], env, o))
    {
      CompiledOutbounds(rows, env, s, o);
    }
  }

  // ---------------------------------------------------------------- matrix rules on their way to a Node

  const ADS: nat := 1

  /** An advertisement block of the direct listener of one inbound. */
  const DIRECT_ADBLOCK: Rule := Rule(None, Some([Named("in")]), None, {ADS}, Some(Plain("block")), None, Matrix)

  lemma {:induction false} NodeRunsNoMatrixRule(rules: seq<Rule>, ls: seq<Listener>, p: Packet)
    ensures FirstMatch(NodeRules(rules, ls), p).Some? ==> !FirstMatch(NodeRules(rules, ls), p).value.tag.Matrix?
  {
    if rules != [] {
      NodeRunsNoMatrixRule(rules[1..], ls, p);
      if !rules[0].tag.Matrix? {
        assert rules == [rules[0]] + rules[1..];
        NodeRulesFirst(rules[0], rules[1..], ls);
        FirstMatchStep(Widen(rules[0], ls), NodeRules(rules[1..], ls), p);
      } else {
        assert DropMatrix(rules) == DropMatrix(rules[1..]);
      }
    }
  }

  /**
    On its way to the Node a matrix rule is lost. The Node's table decides a packet by the same rule as
    the table the Hub compiled if and only if that rule is not a matrix rule.
  */
  lemma {:induction false} NodeAgreesExactlyOffMatrix(rules: seq<Rule>, ls: seq<Listener>, p: Packet)
    ensures var hub, node := FirstMatch(Expand(rules, ls), p), FirstMatch(NodeRules(rules, ls), p);
            node == hub <==> !(hub.Some? && hub.value.tag.Matrix?)
  {
    if rules != [] {
      NodeAgreesExactlyOffMatrix(rules[1..], ls, p);
      NodeRunsNoMatrixRule(rules, ls, p);
      assert rules == [rules[0]] + rules[1..];
      FirstMatchStep(ExpandOne(rules[0], ls), Expand(rules[1..], ls), p);
      if !rules[0].tag.Matrix? {
        NodeRulesFirst(rules[0], rules[1..], ls);
        FirstMatchStep(Widen(rules[0], ls), NodeRules(rules[1..], ls), p);
      } else {
        assert DropMatrix(rules) == DropMatrix(rules[1..]);
      }
    }
  }

  /** Such a packet: blocked by the table the Hub compiled and by no rule of the table the Node runs. */
  lemma NodeLosesMatrixRules()
    ensures exists ls: seq<Listener>, p: Packet ::
              Decide(Expand([DIRECT_ADBLOCK], ls), p) == Sent(Plain("block"))
                && Decide(NodeRules([DIRECT_ADBLOCK], ls), p) == NoRule
  {
    var p := Packet(Customer("c"), Named("in"), 443, {ADS});
    var ls := [Listener(1, "in", 443, None)];
    assert Expand([DIRECT_ADBLOCK], ls) == [DIRECT_ADBLOCK];
    assert Named("in") in [Named("in")];
    assert DropMatrix([DIRECT_ADBLOCK]) == [];
    assert Decide(Expand([DIRECT_ADBLOCK], ls), p) == Sent(Plain("block"));
    assert Decide(NodeRules([DIRECT_ADBLOCK], ls), p) == NoRule;
  }

  // ---------------------------------------------------------------- bridge users and matrix rules

  /** The index of the first rule that matches, or the length of the table. */
  function FirstIndex(rules: seq<Rule>, p: Packet): (i: nat)
    ensures i <= |rules| && (i < |rules| ==> Matches(rules[i], p))
    ensures forall j :: 0 <= j < i ==> !Matches(rules[j], p)
    ensures FirstMatch(rules, p) == if i < |rules| then Some(rules[i]) else None
  {
    if rules == [] || Matches(rules[0], p) then 0 else FirstIndex(rules[1..], p) + 1
  }

  /** A matrix rule of an inbound's own listener, met by a packet on the tunnel shadow of that inbound. */
  ghost predicate MeetsOwnShadow(r: Rule, ls: seq<Listener>, p: Packet) {
    && r.tag.Matrix? && r.inbounds.Some? && p.inbound.Shadow? && p.inbound !in r.inbounds.value
    && (exists k :: 0 <= k < |ls| && ls[k].id == p.inbound.id && ls[k].tunnel == Some(p.inbound.port)
                    && Named(ls[k].tag) in r.inbounds.value)
    && (r.users.Some? ==> p.user in r.users.value)
    && (r.localPort.Some? ==> p.localPort in r.localPort.value)
    && r.facts <= p.facts
  }

  lemma {:induction false} ExpandedAt(rules: seq<Rule>, ls: seq<Listener>, i: nat)
    ensures |ExpandAll(rules, ls)| == |Expand(rules, ls)| == |rules|
    ensures i < |rules| ==>
            ExpandAll(rules, ls)[i] == Widen(rules[i], ls) && Expand(rules, ls)[i] == ExpandOne(rules[i], ls)
  {
    if rules != [] {
      ExpandedAt(rules[1..], ls, if i == 0 then 0 else i - 1);
    }
  }

  /** Widening a matrix rule makes it match more exactly for packets on its inbound's own shadow. */
  lemma WideningReaches(r: Rule, env: Env, ls: seq<Listener>, p: Packet)
    requires GoodEnv(env, ls)
    ensures Matches(ExpandOne(r, ls), p) ==> Matches(Widen(r, ls), p)
    ensures Matches(Widen(r, ls), p) && !Matches(ExpandOne(r, ls), p) <==> MeetsOwnShadow(r, ls, p)
  {
    if r.inbounds.Some? { WidenedTags(r.inbounds.value, env, ls, p.inbound); }
  }

  /**
    The table whose blocks bridge users meet (matrix rules widened) decides a packet by the same rule as
    the table the Hub compiled if and only if its deciding rule is not a matrix rule met on its own shadow.
  */
  lemma WideningMatrixExactly(rules: seq<Rule>, env: Env, ls: seq<Listener>, p: Packet)
    requires GoodEnv(env, ls)
    ensures var i := FirstIndex(ExpandAll(rules, ls), p);
            && (i == FirstIndex(Expand(rules, ls), p) <==> !(i < |rules| && MeetsOwnShadow(rules[i], ls, p)))
            && (i == FirstIndex(Expand(rules, ls), p) ==>
                Decide(ExpandAll(rules, ls), p) == Decide(Expand(rules, ls), p))
  {
    var i, j := FirstIndex(ExpandAll(rules, ls), p), FirstIndex(Expand(rules, ls), p);
    ExpandedAt(rules, ls, i);
    ExpandedAt(rules, ls, j);
    if i < |rules| { WideningReaches(rules[i], env, ls, p); }
    if j < |rules| { WideningReaches(rules[j], env, ls, p); }
  }

  /**
    On a direct listener widening matrix rules changes nothing, so bridge users there meet exactly the
    Hub's blocks.
  */
  lemma WideningMatrixOnlyMattersOnShadows(rules: seq<Rule>, env: Env, ls: seq<Listener>, p: Packet)
    requires GoodEnv(env, ls) && p.inbound.Named?
    ensures Decide(ExpandAll(rules, ls), p) == Decide(Expand(rules, ls), p)
  {
    WideningMatrixExactly(rules, env, ls, p);
  }

  const FORWARDED := Packet(Bridge(5), Shadow(1, 8443), 8443, {ADS})
  const TUNNELLED := Listener(1, "in", 443, Some(8443))

  /** Widened, the direct block reaches the tunnel listener; as the Hub compiled it, it does not. */
  lemma DirectBlockOnShadow(env: Env)
    requires GoodEnv(env, [TUNNELLED])
    ensures Decide(Expand([DIRECT_ADBLOCK], [TUNNELLED]), FORWARDED) == NoRule
    ensures Decide(ExpandAll([DIRECT_ADBLOCK], [TUNNELLED]), FORWARDED) == Sent(Plain("block"))
  {
    var ls := [TUNNELLED];
    assert ExpandAll([DIRECT_ADBLOCK], ls) == [Widen(DIRECT_ADBLOCK, ls)];
    assert Expand([DIRECT_ADBLOCK], ls) == [DIRECT_ADBLOCK];
    WidenedTags([Named("in")], env, ls, Shadow(1, 8443));
    assert ls[0].id == 1 && ls[0].tunnel == Some(8443) && Named(ls[0].tag) in [Named("in")];
    assert Shadow(1, 8443) !in [Named("in")];
    assert !Matches(DIRECT_ADBLOCK, FORWARDED);
    FirstMatchStep(DIRECT_ADBLOCK, [], FORWARDED);
    assert [DIRECT_ADBLOCK] + [] == [DIRECT_ADBLOCK];
  }

  /** A packet that really arrived, that the Hub's table blocks nowhere, and that the Node blocks. */
  ghost predicate BlockedOnArrival(rows: seq<Route>, env: Env, s: Sections, ls: seq<Listener>, p: Packet) {
    && |ls| == 1 && Arrives(p, ls[0]) && GoodEnv(env, ls) && GoodRows(rows) && PlainMatrix(s.rules)
    && Compile(rows, env, s).Compiled?
    && Decide(Expand(s.rules, ls), p) == NoRule
    && Decide(NodeRules(Compile(rows, env, s).sections.rules, ls), p) == Sent(Plain("block"))
  }

  lemma {:induction false} BlockedForBridgeUser(row: Route, env: Env, s: Sections, ls: seq<Listener>, p: Packet)
    requires |ls| == 1 && Arrives(p, ls[0]) && GoodEnv(env, ls) && PlainMatrix(s.rules)
    requires row.exitNode == env.node && row.phase != Deleting && row.source in env.exitOk
    requires row.source.node != env.node
    requires p.user == Bridge(row.identity) && forall o :: o in s.outbounds ==> o.tag.Plain?
    requires Decide(Expand(s.rules, ls), p) == NoRule && Decide(ExpandAll(s.rules, ls), p) == Sent(Plain("block"))
    requires Blocks(s.outbounds, Sent(Plain("block")))
    ensures BlockedOnArrival([row], env, s, ls, p)
  {
    CompileRefusesExactly([row], env, s);
    BridgeTraffic([row], 0, env, s, ls, p);
  }

  lemma {:induction false} ForwardedIsBlocked(row: Route, env: Env, s: Sections, ls: seq<Listener>)
    requires row == Route(Key(7, 1), 9, 1, 5, true, Enabled) && ls == [TUNNELLED]
    requires env == Env(9, map[1 := TUNNELLED], {Key(7, 1)}, {Key(7, 1)})
    requires s == Sections([Outbound(Plain("block"), Blackhole)], [DIRECT_ADBLOCK])
    ensures BlockedOnArrival([row], env, s, ls, FORWARDED)
  {
    DirectBlockOnShadow(env);
    assert s.outbounds[0] in s.outbounds;
    BlockedForBridgeUser(row, env, s, ls, FORWARDED);
  }

  /**
    The copies made for bridge users carry no local port, so a direct matrix rule does reach the tunnel
    shadow for them: this bridge packet, which arrived on the tunnel listener, is blocked although neither
    the table the Hub compiled nor the Node's own table blocks it there. A source Node dials the direct
    port of its exit, so only a forwarder between that address and the tunnel port delivers such a packet.
  */
  lemma {:induction false} BridgeUserMeetsDirectMatrixRuleOnShadow()
    ensures exists rows: seq<Route>, env: Env, s: Sections, ls: seq<Listener>, p: Packet ::
              BlockedOnArrival(rows, env, s, ls, p)
  {
    var row := Route(Key(7, 1), 9, 1, 5, true, Enabled);
    var env := Env(9, map[1 := TUNNELLED], {Key(7, 1)}, {Key(7, 1)});
    var s := Sections([Outbound(Plain("block"), Blackhole)], [DIRECT_ADBLOCK]);
    ForwardedIsBlocked(row, env, s, [TUNNELLED]);
  }
}
