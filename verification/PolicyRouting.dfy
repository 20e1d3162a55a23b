/**
 Policy routing: the `ip rule` database in order of preference, the routing
 tables it points into, what the compiler's `ip` commands do to them, and which
 tables a marked packet is looked up in.
 */
module PolicyRouting {
  import opened Bytes
  import opened Netfilter
  import opened RuleConfig

  /** One route of a table; no network is the default route. */
  datatype Route = Route(isLocal: bool, net: Option<Net>, dev: string)

  datatype IpRule = IpRule(pref: nat, fwmark: Option<Mark>, table: string)

  /** One family's routing state.  Tables without routes are not there. */
  datatype Routing = Routing(rules: seq<IpRule>, tables: map<string, seq<Route>>)

  datatype IpCmd =
    | RuleAdd(rule: IpRule)
    | RuleDel(rule: IpRule)
    | RouteAdd(table: string, route: Route)
    | RouteDel(table: string, route: Route)
    | RouteReplace(table: string, route: Route)
    | RouteFlush(table: string)
    | RuleShow(pref: nat)
    | RouteShow(table: string)

  const TPROXY_RULE := IpRule(100, Some(FWMARK), "2024")
  const BYPASS_RULE := IpRule(98, Some(TUN_BYPASS), "main")
  const ROUTE_RULE := IpRule(99, Some(TUN_ROUTE), "2025")
  const LOCAL_DEFAULT := Route(true, None, "lo")

  // ----- the kernel's side -----

  function Routes(s: Routing, table: string): seq<Route> {
    if table in s.tables then s.tables[table] else []
  }

  function WithRoutes(s: Routing, table: string, routes: seq<Route>): Routing {
    s.(tables := if routes == [] then s.tables - {table} else s.tables[table := routes])
  }

  /** A new rule goes behind the rules of its preference. */
  function Added(rules: seq<IpRule>, r: IpRule): seq<IpRule> {
    if rules == [] || r.pref < rules[0].pref then [r] + rules else [rules[0]] + Added(rules[1..], r)
  }

  function Removed(rules: seq<IpRule>, r: IpRule): seq<IpRule> {
    if rules == [] then [] else if rules[0] == r then rules[1..] else [rules[0]] + Removed(rules[1..], r)
  }

  function NoRoute(routes: seq<Route>, r: Route): seq<Route> {
    if routes == [] then [] else if routes[0] == r then routes[1..] else [routes[0]] + NoRoute(routes[1..], r)
  }

  /** Replacing a route drops the one to the same network first. */
  function NotTo(routes: seq<Route>, net: Option<Net>): seq<Route> {
    if routes == [] then [] else (if routes[0].net == net then [] else [routes[0]]) + NotTo(routes[1..], net)
  }

  /** One command: the new state, or nothing if it is refused. */
  function Ip(refused: set<IpCmd>, s: Routing, cmd: IpCmd): Option<Routing> {
    if cmd in refused then None else
      match cmd
      case RuleAdd(r) => if r in s.rules then None else Some(s.(rules := Added(s.rules, r)))
      case RuleDel(r) => if r in s.rules then Some(s.(rules := Removed(s.rules, r))) else None
      case RouteAdd(t, r) => if r in Routes(s, t) then None else Some(WithRoutes(s, t, Routes(s, t) + [r]))
      case RouteDel(t, r) => if r in Routes(s, t) then Some(WithRoutes(s, t, NoRoute(Routes(s, t), r))) else None
      case RouteReplace(t, r) => Some(WithRoutes(s, t, NotTo(Routes(s, t), r.net) + [r]))
      case RouteFlush(t) => Some(WithRoutes(s, t, []))
      case RuleShow(_) => Some(s)
      case RouteShow(_) => Some(s)
  }

  function Ignored(refused: set<IpCmd>, s: Routing, cmd: IpCmd): Routing {
    match Ip(refused, s, cmd) case None => s case Some(n) => n
  }

  // ----- the compiler's helpers -----

  datatype Done = Done(state: Routing, ok: bool)

  /** A listed rule counts if it has the mark and its table's name begins like ours. */
  predicate RuleExists(refused: set<IpCmd>, s: Routing, r: IpRule) {
    RuleShow(r.pref) !in refused && exists q | q in s.rules :: q.pref == r.pref && q.fwmark == r.fwmark && r.table <= q.table
  }

  predicate RouteExists(refused: set<IpCmd>, s: Routing, table: string, r: Route) {
    RouteShow(table) !in refused && r in Routes(s, table)
  }

  function Required(refused: set<IpCmd>, s: Routing, cmd: IpCmd): Done {
    match Ip(refused, s, cmd) case None => Done(s, false) case Some(n) => Done(n, true)
  }

  function EnsureRule(refused: set<IpCmd>, s: Routing, r: IpRule): Done {
    if RuleExists(refused, s, r) then Done(s, true) else Required(refused, s, RuleAdd(r))
  }

  function DelRuleIfExists(refused: set<IpCmd>, s: Routing, r: IpRule): Routing {
    if RuleExists(refused, s, r) then Ignored(refused, s, RuleDel(r)) else s
  }

  function SetupTproxy(refused: set<IpCmd>, s: Routing): Done {
    var a := EnsureRule(refused, s, TPROXY_RULE);
    if !a.ok then a
    else if RouteExists(refused, a.state, "2024", LOCAL_DEFAULT) then a
    else Required(refused, a.state, RouteAdd("2024", LOCAL_DEFAULT))
  }

  function CleanupTproxy(refused: set<IpCmd>, s: Routing): Routing {
    var a := DelRuleIfExists(refused, s, TPROXY_RULE);
    var b := if RouteExists(refused, a, "2024", LOCAL_DEFAULT) then Ignored(refused, a, RouteDel("2024", LOCAL_DEFAULT)) else a;
    Ignored(refused, b, RouteFlush("2024"))
  }

  function ApplyTun(refused: set<IpCmd>, s: Routing, dev: string): Done {
    var a := EnsureRule(refused, s, BYPASS_RULE);
    if !a.ok then a else
      var b := EnsureRule(refused, a.state, ROUTE_RULE);
      if !b.ok then b else Required(refused, b.state, RouteReplace("2025", Route(false, None, dev)))
  }

  function CleanupTun(refused: set<IpCmd>, s: Routing): Routing {
    var a := DelRuleIfExists(refused, s, BYPASS_RULE);
    var b := DelRuleIfExists(refused, a, ROUTE_RULE);
    Ignored(refused, b, RouteFlush("2025"))
  }

  // ----- the commands, issued one by one -----

  class PolicyRouter {
    var state: Routing
    const refused: set<IpCmd>

    constructor (state: Routing, refused: set<IpCmd>)
      ensures this.state == state && this.refused == refused
    {
      this.state := state;
      this.refused := refused;
    }

    method IpRequired(cmd: IpCmd) returns (ok: bool)
      modifies this
      ensures Done(state, ok) == Required(refused, old(state), cmd)
    {
      match Ip(refused, state, cmd) {
        case None => ok := false;
        case Some(n) => state := n; ok := true;
      }
    }

    method IpIgnore(cmd: IpCmd)
      modifies this
      ensures state == Ignored(refused, old(state), cmd)
    {
      var _ := IpRequired(cmd);
    }

    /** The listing is scanned line by line; a listing that fails holds nothing. */
    method IpRuleExists(r: IpRule) returns (found: bool)
      ensures found == RuleExists(refused, state, r)
    {
      found := false;
      if RuleShow(r.pref) in refused {
        return;
      }
      for i := 0 to |state.rules|
        invariant found == exists q | q in state.rules[..i] :: q.pref == r.pref && q.fwmark == r.fwmark && r.table <= q.table
      {
        var q := state.rules[i];
        assert state.rules[..i + 1] == state.rules[..i] + [q];
        found := found || (q.pref == r.pref && q.fwmark == r.fwmark && r.table <= q.table);
      }
      assert state.rules[..|state.rules|] == state.rules;
    }

    method EnsureIpRule(r: IpRule) returns (ok: bool)
      modifies this
      ensures Done(state, ok) == EnsureRule(refused, old(state), r)
    {
      var found := IpRuleExists(r);
      if found {
        return true;
      }
      ok := IpRequired(RuleAdd(r));
    }

    method DelIpRuleIfExists(r: IpRule)
      modifies this
      ensures state == DelRuleIfExists(refused, old(state), r)
    {
      var found := IpRuleExists(r);
      if found {
        IpIgnore(RuleDel(r));
      }
    }

    method LocalDefaultExists(table: string) returns (found: bool)
      ensures found == RouteExists(refused, state, table, LOCAL_DEFAULT)
    {
      found := RouteShow(table) !in refused && LOCAL_DEFAULT in Routes(state, table);
    }

    method SetupTproxyPolicyRouting() returns (ok: bool)
      modifies this
      ensures Done(state, ok) == SetupTproxy(refused, old(state))
      ensures ok && Free(old(state), {100}, "2024") ==> Routes(state, "2024") == [Route(true, None, "lo")]
    {
      hide Free, Added, Sorted;
      if Free(state, {100}, "2024") && SetupTproxy(refused, state).ok {
        TproxySet(refused, state);
      }
      ok := EnsureIpRule(TPROXY_RULE);
      if !ok {
        return;
      }
      var found := LocalDefaultExists("2024");
      if !found {
        ok := IpRequired(RouteAdd("2024", LOCAL_DEFAULT));
      }
    }

    method CleanupTproxyPolicyRouting()
      modifies this
      ensures state == CleanupTproxy(refused, old(state))
    {
      DelIpRuleIfExists(TPROXY_RULE);
      var found := LocalDefaultExists("2024");
      if found {
        IpIgnore(RouteDel("2024", LOCAL_DEFAULT));
      }
      IpIgnore(RouteFlush("2024"));
    }

    method ApplyTunRouteRules(dev: string) returns (ok: bool)
      modifies this
      ensures Done(state, ok) == ApplyTun(refused, old(state), dev)
      ensures ok ==> forall q ::
        (q in Routes(state, "2025") <==> q == Route(false, None, dev) || (q in Routes(old(state), "2025") && q.net != None))
    {
      forall q | ApplyTun(refused, state, dev).ok
        ensures q in Routes(ApplyTun(refused, state, dev).state, "2025")
          <==> q == Route(false, None, dev) || (q in Routes(state, "2025") && q.net != None)
      {
        TunReplaces(refused, state, dev, q);
      }
      ok := EnsureIpRule(BYPASS_RULE);
      if ok {
        ok := EnsureIpRule(ROUTE_RULE);
      }
      if ok {
        ok := IpRequired(RouteReplace("2025", Route(false, None, dev)));
      }
    }

    method CleanupTunRouteRules()
      modifies this
      ensures state == CleanupTun(refused, old(state))
    {
      DelIpRuleIfExists(BYPASS_RULE);
      DelIpRuleIfExists(ROUTE_RULE);
      IpIgnore(RouteFlush("2025"));
    }
  }

  // ----- cleanup undoes setup -----

  lemma {:induction false} RemovedAdded(rules: seq<IpRule>, r: IpRule)
    requires r !in rules
    ensures Removed(Added(rules, r), r) == rules && r in Added(rules, r)
    decreases |rules|
  {
    if rules != [] && rules[0].pref <= r.pref {
      RemovedAdded(rules[1..], r);
      var more := Added(rules[1..], r);
      assert ([rules[0]] + more)[1..] == more;
      assert r in [rules[0]] + more;
    } else {
      assert ([r] + rules)[1..] == rules;
    }
  }

  lemma {:induction false} AddedOnly(rules: seq<IpRule>, r: IpRule, q: IpRule)
    ensures q in Added(rules, r) <==> q == r || q in rules
    decreases |rules|
  {
    if rules != [] && rules[0].pref <= r.pref {
      AddedOnly(rules[1..], r, q);
      assert q in rules <==> q == rules[0] || q in rules[1..];
    }
  }

  /** Adding two rules commutes with taking the first of them away. */
  lemma {:induction false} RemovedBetween(rules: seq<IpRule>, r: IpRule, q: IpRule)
    requires r !in rules && q != r && r.pref < q.pref
    ensures Removed(Added(Added(rules, r), q), r) == Added(rules, q)
    decreases |rules|
  {
    if rules != [] && rules[0].pref <= r.pref {
      RemovedBetween(rules[1..], r, q);
      var one := Added(rules[1..], r);
      assert ([rules[0]] + one)[1..] == one;
      var two := Added(one, q);
      assert ([rules[0]] + two)[1..] == two;
    } else {
      assert ([r] + rules)[1..] == rules;
      assert ([r] + Added(rules, q))[1..] == Added(rules, q);
    }
  }

  lemma {:induction false} RemovedAbsent(rules: seq<IpRule>, r: IpRule)
    requires r !in rules
    ensures Removed(rules, r) == rules
    decreases |rules|
  {
    if rules != [] {
      RemovedAbsent(rules[1..], r);
    }
  }

  lemma DelMeans(s: Routing, r: IpRule)
    ensures DelRuleIfExists({}, s, r) == s.(rules := Removed(s.rules, r))
  {
    if r !in s.rules {
      RemovedAbsent(s.rules, r);
    }
  }

  lemma EnsureMeans(refused: set<IpCmd>, s: Routing, r: IpRule)
    requires r !in s.rules
    ensures var e := EnsureRule(refused, s, r).state; e == s || e == s.(rules := Added(s.rules, r))
  {
  }

  /** However one table came to be filled, flushing it empties just that table. */
  lemma FlushMeans(s: Routing, t: string)
    ensures Ignored({}, s, RouteFlush(t)) == s.(tables := s.tables - {t})
    ensures forall routes :: WithRoutes(s, t, routes).tables - {t} == s.tables - {t}
    ensures t !in s.tables ==> s.tables - {t} == s.tables
  {
  }

  lemma CleanupTproxyMeans(s: Routing)
    ensures CleanupTproxy({}, s) == Routing(Removed(s.rules, TPROXY_RULE), s.tables - {"2024"})
  {
    hide DelRuleIfExists, Removed;
    DelMeans(s, TPROXY_RULE);
    var a := DelRuleIfExists({}, s, TPROXY_RULE);
    FlushMeans(a, "2024");
    FlushMeans(Ignored({}, a, RouteDel("2024", LOCAL_DEFAULT)), "2024");
  }

  lemma SetupTproxyMeans(refused: set<IpCmd>, s: Routing)
    requires TPROXY_RULE !in s.rules
    ensures var v := SetupTproxy(refused, s).state;
      (v.rules == s.rules || v.rules == Added(s.rules, TPROXY_RULE)) && v.tables - {"2024"} == s.tables - {"2024"}
  {
    hide EnsureRule;
    EnsureMeans(refused, s, TPROXY_RULE);
    FlushMeans(EnsureRule(refused, s, TPROXY_RULE).state, "2024");
  }

  /** Setting up the TPROXY routes, however far it gets, is undone by a cleanup
      whose commands are carried out. */
  lemma TproxyRoutesUndone(refused: set<IpCmd>, s: Routing)
    requires TPROXY_RULE !in s.rules && "2024" !in s.tables
    ensures CleanupTproxy({}, SetupTproxy(refused, s).state) == s
  {
    hide SetupTproxy, CleanupTproxy;
    SetupTproxyMeans(refused, s);
    CleanupTproxyMeans(SetupTproxy(refused, s).state);
    RemovedAdded(s.rules, TPROXY_RULE);
    RemovedAbsent(s.rules, TPROXY_RULE);
    FlushMeans(s, "2024");
  }

  lemma CleanupTunMeans(s: Routing)
    ensures CleanupTun({}, s) == Routing(Removed(Removed(s.rules, BYPASS_RULE), ROUTE_RULE), s.tables - {"2025"})
  {
    hide DelRuleIfExists, Removed;
    DelMeans(s, BYPASS_RULE);
    var a := DelRuleIfExists({}, s, BYPASS_RULE);
    DelMeans(a, ROUTE_RULE);
    FlushMeans(DelRuleIfExists({}, a, ROUTE_RULE), "2025");
  }

  /** Which of the two rules were added. */
  predicate TunRulesAdded(were: seq<IpRule>, now: seq<IpRule>) {
    || now == were
    || now == Added(were, BYPASS_RULE)
    || now == Added(were, ROUTE_RULE)
    || now == Added(Added(were, BYPASS_RULE), ROUTE_RULE)
  }

  lemma ApplyTunMeans(refused: set<IpCmd>, s: Routing, dev: string)
    requires BYPASS_RULE !in s.rules && ROUTE_RULE !in s.rules
    ensures var v := ApplyTun(refused, s, dev).state;
      TunRulesAdded(s.rules, v.rules) && v.tables - {"2025"} == s.tables - {"2025"}
  {
    hide EnsureRule, Added;
    EnsureMeans(refused, s, BYPASS_RULE);
    var a := EnsureRule(refused, s, BYPASS_RULE).state;
    AddedOnly(s.rules, BYPASS_RULE, ROUTE_RULE);
    EnsureMeans(refused, a, ROUTE_RULE);
    FlushMeans(EnsureRule(refused, a, ROUTE_RULE).state, "2025");
  }

  /** The same for the TUN routes. */
  lemma TunRoutesUndone(refused: set<IpCmd>, s: Routing, dev: string)
    requires BYPASS_RULE !in s.rules && ROUTE_RULE !in s.rules && "2025" !in s.tables
    ensures CleanupTun({}, ApplyTun(refused, s, dev).state) == s
  {
    hide ApplyTun, CleanupTun, Added, Removed;
    ApplyTunMeans(refused, s, dev);
    CleanupTunMeans(ApplyTun(refused, s, dev).state);
    RemovedAdded(s.rules, BYPASS_RULE);
    RemovedAdded(s.rules, ROUTE_RULE);
    RemovedAbsent(s.rules, BYPASS_RULE);
    RemovedAbsent(s.rules, ROUTE_RULE);
    RemovedBetween(s.rules, BYPASS_RULE, ROUTE_RULE);
    AddedOnly(s.rules, ROUTE_RULE, BYPASS_RULE);
    if BYPASS_RULE !in Added(s.rules, ROUTE_RULE) {
      RemovedAbsent(Added(s.rules, ROUTE_RULE), BYPASS_RULE);
    }
    FlushMeans(s, "2025");
  }

  // ----- looking a packet up -----

  predicate Selects(r: IpRule, m: bv32) { r.fwmark.Some? ==> MarkIs(m, r.fwmark.value) }

  predicate HasRoute(s: Routing, table: string, dst: nat) {
    exists r | r in Routes(s, table) :: r.net.Some? ==> InNet(r.net.value, dst)
  }

  /** The tables a packet is looked up in, up to the first with a route. */
  function Consulted(s: Routing, rules: seq<IpRule>, m: bv32, dst: nat): seq<string> {
    if rules == [] then []
    else if !Selects(rules[0], m) then Consulted(s, rules[1..], m, dst)
    else if HasRoute(s, rules[0].table, dst) then [rules[0].table]
    else [rules[0].table] + Consulted(s, rules[1..], m, dst)
  }

  /** A rule before the compiler's own settles the packet. */
  predicate SettledBefore(s: Routing, rules: seq<IpRule>, m: bv32, dst: nat) {
    exists r | r in rules :: r.pref <= 98 && Selects(r, m) && HasRoute(s, r.table, dst)
  }

  predicate Sorted(rules: seq<IpRule>) { forall i, j :: 0 <= i < j < |rules| ==> rules[i].pref <= rules[j].pref }

  /** A packet that no rule of the list leads to a table is not looked up there. */
  lemma {:induction false} NotConsulted(s: Routing, rules: seq<IpRule>, m: bv32, dst: nat, t: string)
    requires forall r :: r in rules && r.table == t ==> !Selects(r, m)
    ensures t !in Consulted(s, rules, m, dst)
    decreases |rules|
  {
    if rules != [] {
      assert rules[0] in rules && forall r :: r in rules[1..] ==> r in rules;
      NotConsulted(s, rules[1..], m, dst, t);
    }
  }

  lemma {:induction false} SortedAdded(rules: seq<IpRule>, r: IpRule)
    requires Sorted(rules)
    ensures Sorted(Added(rules, r))
    decreases |rules|
  {
    if rules != [] && rules[0].pref <= r.pref {
      SortedAdded(rules[1..], r);
      forall q | q in Added(rules[1..], r) ensures rules[0].pref <= q.pref {
        AddedOnly(rules[1..], r, q);
      }
    }
  }

  lemma SortedTail(rules: seq<IpRule>)
    requires Sorted(rules) && rules != []
    ensures Sorted(rules[1..]) && forall r :: r in rules[1..] ==> rules[0].pref <= r.pref
  {
  }

  /** In a sorted list, a table only one rule leads to is consulted exactly if that
      rule selects the packet and no selecting rule before it has a route. */
  lemma {:induction false} ConsultedExactly(s: Routing, rules: seq<IpRule>, m: bv32, dst: nat, own: IpRule)
    requires Sorted(rules) && own in rules
    requires forall r :: r in rules && r != own ==> r.table != own.table && r.pref != own.pref
    ensures own.table in Consulted(s, rules, m, dst)
      <==> Selects(own, m) && !(exists r | r in rules :: r.pref < own.pref && Selects(r, m) && HasRoute(s, r.table, dst))
    decreases |rules|
  {
    hide Selects, HasRoute;
    var first, rest := rules[0], rules[1..];
    assert forall r :: r in rules <==> r == first || r in rest;
    SortedTail(rules);
    hide Sorted;
    if first == own {
      if !Selects(own, m) {
        if own in rest {
          ConsultedExactly(s, rest, m, dst, own);
        } else {
          NotConsulted(s, rest, m, dst, own.table);
        }
      }
    } else {
      assert own in rest;
      ConsultedExactly(s, rest, m, dst, own);
    }
  }

  /** Both TUN rules are in place, next to rules of other preferences and tables. */
  predicate TunRouted(before: Routing, s: Routing) {
    && Sorted(before.rules)
    && (forall r :: r in before.rules ==> r.pref != 98 && r.pref != 99 && r.table != "2025")
    && s.rules == Added(Added(before.rules, BYPASS_RULE), ROUTE_RULE)
  }

  lemma TunRulesAre(before: Routing, s: Routing, q: IpRule)
    requires TunRouted(before, s)
    ensures q in s.rules <==> q in before.rules || q == BYPASS_RULE || q == ROUTE_RULE
    ensures Sorted(s.rules)
  {
    var one := Added(before.rules, BYPASS_RULE);
    AddedOnly(before.rules, BYPASS_RULE, q);
    AddedOnly(one, ROUTE_RULE, q);
    SortedAdded(before.rules, BYPASS_RULE);
    SortedAdded(one, ROUTE_RULE);
  }

  /** Table 2025 is consulted exactly for packets with both mark bits that neither
      an earlier rule nor the main table has a route for: the rule at preference 98
      only asks for bit 25, so it catches route-marked packets too. */
  lemma RouteTableExactly(before: Routing, s: Routing, m: bv32, dst: nat)
    requires TunRouted(before, s)
    ensures "2025" in Consulted(s, s.rules, m, dst)
      <==> MarkIs(m, TUN_ROUTE) && !SettledBefore(s, before.rules, m, dst) && !HasRoute(s, "main", dst)
  {
    forall q: IpRule ensures (q in s.rules <==> q in before.rules || q == BYPASS_RULE || q == ROUTE_RULE) && Sorted(s.rules) {
      TunRulesAre(before, s, q);
    }
    ConsultedExactly(s, s.rules, m, dst, ROUTE_RULE);
    RouteMarkReadsBypass(m);
    assert BYPASS_RULE.pref < ROUTE_RULE.pref && BYPASS_RULE in s.rules;
  }

  lemma RouteMarkReadsBypass(m: bv32)
    ensures MarkIs(m, TUN_ROUTE) ==> MarkIs(m, TUN_BYPASS)
  {
  }

  /** So a packet with only the bypass mark never reaches table 2025. */
  lemma BypassNeverRouted(before: Routing, s: Routing, m: bv32, dst: nat)
    requires TunRouted(before, s) && m & 0x1000000 == 0
    ensures "2025" !in Consulted(s, s.rules, m, dst)
  {
    RouteTableExactly(before, s, m, dst);
    NoBit24(m);
  }

  lemma NoBit24(m: bv32)
    requires m & 0x1000000 == 0
    ensures !MarkIs(m, TUN_ROUTE)
  {
  }

  /** Applying the TUN routes to a state without them gives such a state, if it succeeds. */
  lemma ApplyTunRoutes(refused: set<IpCmd>, s: Routing, dev: string)
    requires Sorted(s.rules) && forall r :: r in s.rules ==> r.pref != 98 && r.pref != 99 && r.table != "2025"
    ensures ApplyTun(refused, s, dev).ok ==> TunRouted(s, ApplyTun(refused, s, dev).state)
  {
    var one := Added(s.rules, BYPASS_RULE);
    forall q ensures q in one <==> q == BYPASS_RULE || q in s.rules {
      AddedOnly(s.rules, BYPASS_RULE, q);
    }
  }

  // ----- where a look-up ends -----

  /** The table that has the packet's route. */
  function Found(s: Routing, rules: seq<IpRule>, m: bv32, dst: nat): Option<string> {
    if rules == [] then None
    else if Selects(rules[0], m) && HasRoute(s, rules[0].table, dst) then Some(rules[0].table)
    else Found(s, rules[1..], m, dst)
  }

  /** A rule of a lower preference has a route for the packet. */
  predicate SettledBelow(s: Routing, rules: seq<IpRule>, pref: nat, m: bv32, dst: nat) {
    exists r | r in rules :: r.pref < pref && Selects(r, m) && HasRoute(s, r.table, dst)
  }

  lemma SettledFirst(s: Routing, rules: seq<IpRule>, pref: nat, m: bv32, dst: nat)
    requires rules != []
    ensures SettledBelow(s, rules, pref, m, dst)
       <==> (rules[0].pref < pref && Selects(rules[0], m) && HasRoute(s, rules[0].table, dst))
            || SettledBelow(s, rules[1..], pref, m, dst)
  {
    hide Selects, HasRoute;
    assert forall r :: r in rules <==> r == rules[0] || r in rules[1..];
  }

  lemma {:induction false} FoundElsewhere(s: Routing, rules: seq<IpRule>, m: bv32, dst: nat, t: string)
    requires forall r | r in rules :: r.table != t
    ensures Found(s, rules, m, dst) != Some(t)
    decreases |rules|
  {
    hide Selects, HasRoute;
    if rules != [] {
      assert rules[0] in rules && forall r :: r in rules[1..] ==> r in rules;
      FoundElsewhere(s, rules[1..], m, dst, t);
    }
  }

  lemma {:induction false} NoneBelow(s: Routing, rules: seq<IpRule>, pref: nat, m: bv32, dst: nat)
    requires forall r | r in rules :: r.pref >= pref
    ensures !SettledBelow(s, rules, pref, m, dst)
  {
  }

  /** A table only one rule leads to, with a route for every packet, answers exactly the
      packets the rule selects that no rule before it settles. */
  lemma {:induction false} FoundExactly(s: Routing, rules: seq<IpRule>, m: bv32, dst: nat, own: IpRule)
    requires Sorted(rules) && own in rules && HasRoute(s, own.table, dst)
    requires forall r | r in rules :: r != own ==> r.table != own.table && r.pref != own.pref
    ensures Found(s, rules, m, dst) == Some(own.table) <==> Selects(own, m) && !SettledBelow(s, rules, own.pref, m, dst)
    decreases |rules|
  {
    hide Selects, HasRoute;
    var first, rest := rules[0], rules[1..];
    assert forall r :: r in rules <==> r == first || r in rest;
    SortedTail(rules);
    SettledFirst(s, rules, own.pref, m, dst);
    hide Sorted, SettledBelow;
    if first == own {
      NoneBelow(s, rest, own.pref, m, dst);
      if !Selects(own, m) {
        if own in rest {
          FoundExactly(s, rest, m, dst, own);
        } else {
          FoundElsewhere(s, rest, m, dst, own.table);
        }
      }
    } else {
      FoundExactly(s, rest, m, dst, own);
    }
  }

  // ----- TPROXY packets -----

  /** Preference and table are not in use yet. */
  predicate Free(s: Routing, prefs: set<nat>, table: string) {
    Sorted(s.rules) && table !in s.tables && forall r | r in s.rules :: r.pref !in prefs && r.table != table
  }

  lemma SameRoutes(s: Routing, v: Routing, table: string, rules: seq<IpRule>, pref: nat, m: bv32, dst: nat)
    requires v.tables - {table} == s.tables - {table} && forall r | r in rules :: r.table != table
    ensures SettledBelow(v, rules, pref, m, dst) == SettledBelow(s, rules, pref, m, dst)
    ensures forall t :: t != table ==> Routes(v, t) == Routes(s, t)
  {
    forall t | t != table ensures Routes(v, t) == Routes(s, t) {
      assert t in v.tables <==> t in v.tables - {table};
      assert t in s.tables <==> t in s.tables - {table};
      assert t in s.tables ==> (v.tables - {table})[t] == (s.tables - {table})[t];
    }
    hide Selects;
  }

  lemma SettledWith(s: Routing, rules: seq<IpRule>, own: IpRule, pref: nat, m: bv32, dst: nat)
    ensures SettledBelow(s, Added(rules, own), pref, m, dst)
       <==> SettledBelow(s, rules, pref, m, dst) || (own.pref < pref && Selects(own, m) && HasRoute(s, own.table, dst))
  {
    hide Selects, HasRoute;
    forall q: IpRule ensures q in Added(rules, own) <==> q == own || q in rules {
      AddedOnly(rules, own, q);
    }
  }

  lemma DefaultRoutes(s: Routing, table: string, dst: nat)
    requires exists r | r in Routes(s, table) :: r.net == None
    ensures HasRoute(s, table, dst)
  {
  }

  lemma TproxySet(refused: set<IpCmd>, s: Routing)
    requires Free(s, {100}, "2024") && SetupTproxy(refused, s).ok
    ensures var v := SetupTproxy(refused, s).state;
      v.rules == Added(s.rules, TPROXY_RULE) && Routes(v, "2024") == [Route(true, None, "lo")]
      && v.tables - {"2024"} == s.tables - {"2024"}
  {
    hide Added, Sorted;
  }

  /** A setup that succeeds delivers packets with bit 24 to this host: they, and no
      others, are answered by table 2024, unless a rule of a lower preference settles
      them, and all that table holds is the local default route. */
  lemma TproxyDelivers(refused: set<IpCmd>, s: Routing, m: bv32, dst: nat)
    requires Free(s, {100}, "2024") && SetupTproxy(refused, s).ok
    ensures var v := SetupTproxy(refused, s).state;
      && Routes(v, "2024") == [Route(true, None, "lo")]
      && (Found(v, v.rules, m, dst) == Some("2024")
          <==> m & 0x1000000 == 0x1000000 && !SettledBelow(s, s.rules, 100, m, dst))
  {
    var v := SetupTproxy(refused, s).state;
    TproxySet(refused, s);
    assert MarkIs(m, Mark(0x1000000, 0x1000000)) == (m & 0x1000000 == 0x1000000);
    hide SetupTproxy, HasRoute, Added, MarkIs;
    forall q: IpRule ensures q in v.rules <==> q == TPROXY_RULE || q in s.rules {
      AddedOnly(s.rules, TPROXY_RULE, q);
    }
    SortedAdded(s.rules, TPROXY_RULE);
    assert LOCAL_DEFAULT in Routes(v, "2024");
    DefaultRoutes(v, "2024", dst);
    hide Sorted, SettledBelow;
    FoundExactly(v, v.rules, m, dst, TPROXY_RULE);
    SettledWith(v, s.rules, TPROXY_RULE, 100, m, dst);
    SameRoutes(s, v, "2024", s.rules, 100, m, dst);
  }

  // ----- TUN packets -----

  lemma TunSet(refused: set<IpCmd>, s: Routing, dev: string)
    requires Free(s, {98, 99}, "2025") && ApplyTun(refused, s, dev).ok
    ensures var v := ApplyTun(refused, s, dev).state;
      TunRouted(s, v) && Routes(v, "2025") == [Route(false, None, dev)] && v.tables - {"2025"} == s.tables - {"2025"}
  {
    ApplyTunRoutes(refused, s, dev);
    hide Added, Sorted, TunRouted, EnsureRule;
    EnsureKeepsTables(refused, s, BYPASS_RULE);
    EnsureKeepsTables(refused, EnsureRule(refused, s, BYPASS_RULE).state, ROUTE_RULE);
    assert NotTo([], None) == [] && [] + [Route(false, None, dev)] == [Route(false, None, dev)];
  }

  lemma EnsureKeepsTables(refused: set<IpCmd>, s: Routing, r: IpRule)
    ensures EnsureRule(refused, s, r).state.tables == s.tables
  {
    hide Added;
  }

  lemma {:induction false} OneDefault(routes: seq<Route>)
    ensures forall q :: q in NotTo(routes, None) <==> q in routes && q.net != None
    decreases |routes|
  {
    if routes != [] {
      OneDefault(routes[1..]);
    }
  }

  /** Over whatever routes table 2025 held, a setup that succeeds leaves one default in
      it, and the routes to networks as they were. */
  lemma TunReplaces(refused: set<IpCmd>, s: Routing, dev: string, q: Route)
    requires ApplyTun(refused, s, dev).ok
    ensures q in Routes(ApplyTun(refused, s, dev).state, "2025")
       <==> q == Route(false, None, dev) || (q in Routes(s, "2025") && q.net != None)
  {
    hide Added, EnsureRule;
    EnsureKeepsTables(refused, s, BYPASS_RULE);
    EnsureKeepsTables(refused, EnsureRule(refused, s, BYPASS_RULE).state, ROUTE_RULE);
    OneDefault(Routes(s, "2025"));
  }

  lemma TunRuleBits(m: bv32)
    ensures Selects(ROUTE_RULE, m) == (m & 0x3000000 == 0x3000000)
    ensures Selects(ROUTE_RULE, m) ==> Selects(BYPASS_RULE, m)
  {
    hide MarkIs;
    MarkMeans(m, 0x3000000, 0x3000000);
    RouteMarkReadsBypass(m);
  }

  lemma TunSettled(s: Routing, v: Routing, m: bv32, dst: nat)
    requires TunRouted(s, v) && v.tables - {"2025"} == s.tables - {"2025"}
    ensures SettledBelow(v, v.rules, 99, m, dst)
       <==> SettledBelow(s, s.rules, 98, m, dst) || (Selects(BYPASS_RULE, m) && HasRoute(s, "main", dst))
  {
    SameRoutes(s, v, "2025", s.rules, 98, m, dst);
    assert HasRoute(v, "main", dst) == HasRoute(s, "main", dst);
    BelowBoth(v, s.rules, m, dst);
    hide HasRoute, Selects, SettledBelow, Added, Sorted;
    SettledWith(v, Added(s.rules, BYPASS_RULE), ROUTE_RULE, 99, m, dst);
    SettledWith(v, s.rules, BYPASS_RULE, 99, m, dst);
  }

  /** A TUN setup that succeeds sends packets with bits 24 and 25 to the device: they,
      and no others, are answered by table 2025, unless main or a rule of a lower
      preference has a route. */
  lemma TunDelivers(refused: set<IpCmd>, s: Routing, dev: string, m: bv32, dst: nat)
    requires Free(s, {98, 99}, "2025") && ApplyTun(refused, s, dev).ok
    ensures var v := ApplyTun(refused, s, dev).state;
      && Routes(v, "2025") == [Route(false, None, dev)]
      && (Found(v, v.rules, m, dst) == Some("2025")
          <==> m & 0x3000000 == 0x3000000 && !SettledBelow(s, s.rules, 98, m, dst) && !HasRoute(s, "main", dst))
  {
    var v := ApplyTun(refused, s, dev).state;
    TunSet(refused, s, dev);
    TunRuleBits(m);
    TunSettled(s, v, m, dst);
    assert Route(false, None, dev) in Routes(v, "2025");
    DefaultRoutes(v, "2025", dst);
    forall q: IpRule ensures (q in v.rules <==> q in s.rules || q == BYPASS_RULE || q == ROUTE_RULE) && Sorted(v.rules) {
      TunRulesAre(s, v, q);
    }
    hide ApplyTun, HasRoute, Added, Selects, Sorted, SettledBelow;
    FoundExactly(v, v.rules, m, dst, ROUTE_RULE);
  }

  /** The bypass mark sends a packet to main before that. */
  lemma BypassFindsMain(refused: set<IpCmd>, s: Routing, dev: string, m: bv32, dst: nat)
    requires Free(s, {98, 99}, "2025") && ApplyTun(refused, s, dev).ok
    requires m & 0x2000000 == 0x2000000 && HasRoute(s, "main", dst) && !SettledBelow(s, s.rules, 98, m, dst)
    ensures var v := ApplyTun(refused, s, dev).state; Found(v, v.rules, m, dst) == Some("main")
  {
    var v := ApplyTun(refused, s, dev).state;
    TunSet(refused, s, dev);
    SameRoutes(s, v, "2025", s.rules, 98, m, dst);
    assert Selects(BYPASS_RULE, m) && HasRoute(v, "main", dst);
    forall q: IpRule ensures (q in v.rules <==> q in s.rules || q == BYPASS_RULE || q == ROUTE_RULE) && Sorted(v.rules) {
      TunRulesAre(s, v, q);
    }
    hide ApplyTun, HasRoute, Added, Selects, Sorted;
    FoundAtLeast(v, v.rules, m, dst, BYPASS_RULE);
  }

  /** A rule that selects the packet and has a route decides, if none before it does. */
  lemma {:induction false} FoundAtLeast(s: Routing, rules: seq<IpRule>, m: bv32, dst: nat, own: IpRule)
    requires Sorted(rules) && own in rules && Selects(own, m) && HasRoute(s, own.table, dst)
    requires forall r | r in rules :: r != own && r.pref <= own.pref ==> !(Selects(r, m) && HasRoute(s, r.table, dst))
    ensures Found(s, rules, m, dst) == Some(own.table)
    decreases |rules|
  {
    hide Selects, HasRoute;
    if rules[0] != own {
      SortedTail(rules);
      assert rules[0] in rules && forall r :: r in rules[1..] ==> r in rules;
      assert own in rules[1..];
      FoundAtLeast(s, rules[1..], m, dst, own);
    }
  }

  lemma BelowBoth(s: Routing, rules: seq<IpRule>, m: bv32, dst: nat)
    requires forall r | r in rules :: r.pref != 98
    ensures SettledBelow(s, rules, 99, m, dst) == SettledBelow(s, rules, 98, m, dst)
  {
    hide Selects, HasRoute;
  }
}
