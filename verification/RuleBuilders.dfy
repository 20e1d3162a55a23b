/**
 The builders as the source writes them: loops over interfaces, addresses, MACs
 and IDs that issue one operation after the other.  Each is proved to issue
 exactly the script of RuleScripts, or, when a required operation fails, a
 beginning of it: the error return behind every call is the `failed` latch, once
 it is set nothing more is issued.  The operations go to a rule manager, whose
 state and results say what fails.
 */
module RuleBuilders {
  import opened Bytes
  import opened Netfilter
  import opened Batching
  import opened RuleConfig
  import opened RuleScripts
  import opened SessionTeardown
  import opened SetupSuccess
  import opened Teardown
  import opened TeardownModes

  // ----- joining scripts -----

  lemma Joined(s: seq<Step>, a: seq<Step>, b: seq<Step>)
    ensures s + a + b == s + (a + b)
  {
  }

  lemma Onwards(s: seq<Step>, f: Family, t: TableName, chain: string, now: seq<Rule>, later: seq<Rule>)
    ensures s + Appends(f, t, chain, now) + Appends(f, t, chain, later) == s + Appends(f, t, chain, now + later)
  {
    AppendsConcat(f, t, chain, now, later);
    Joined(s, Appends(f, t, chain, now), Appends(f, t, chain, later));
  }

  /** The next of a list of rules, and the end of the list. */
  lemma NextRule(s: seq<Step>, f: Family, t: TableName, chain: string, rules: seq<Rule>, i: nat)
    requires i < |rules|
    ensures s + Appends(f, t, chain, rules[i..]) == s + Appends(f, t, chain, [rules[i]]) + Appends(f, t, chain, rules[i + 1..])
  {
    assert rules[i..] == [rules[i]] + rules[i + 1..];
    hide Appends;
    Onwards(s, f, t, chain, [rules[i]], rules[i + 1..]);
  }

  lemma LastRule(s: seq<Step>, f: Family, t: TableName, chain: string, rules: seq<Rule>)
    ensures rules[0..] == rules && s + Appends(f, t, chain, rules[|rules|..]) == s
  {
  }

  /** The table the rules of an action live in. */
  function Home(action: Action): TableName { if action == ActRedirect then Nat else Mangle }

  function LocalIpSteps(c: Config, k: Capabilities, f: Family, t: TableName, built: set<TableName>): seq<Step> {
    if t in built then [] else LocalIpSetup(c, k, f, t)
  }

  function AllPerfJumps(c: Config, targets: seq<string>): seq<Rule> {
    if targets == [] then [] else PerfJumps(c, targets[0]) + AllPerfJumps(c, targets[1..])
  }

  function TunFakeIpRules(c: Config, f: Family): seq<Rule> {
    if FakeIp(c, f) == None then [] else MarkReturn(TUN_ROUTE, Rule(Return, dst := FakeIp(c, f)))
  }

  lemma TwoJumps(c: Config, a: string, b: string)
    ensures AllPerfJumps(c, [a, b]) == PerfJumps(c, a) + PerfJumps(c, b)
  {
    hide PerfJumps;
    assert [a, b][1..] == [b] && [b][1..] == [];
    assert AllPerfJumps(c, [b]) == PerfJumps(c, b) + AllPerfJumps(c, []);
    assert PerfJumps(c, b) + [] == PerfJumps(c, b);
  }

  function PerfIfSetup(c: Config, f: Family, chain: string): seq<Step> {
    One(f, Mangle, EnsureChain(chain)) + Appends(f, Mangle, chain, PerfIfRules(c))
  }

  lemma FastExternalSplit(c: Config, k: Capabilities, f: Family)
    requires PerformanceChain(c, k)
    ensures TproxyExternalSetup(c, k, f) == One(f, Mangle, EnsureChain(EXTERNAL)) + PerfDestSetup(c, k, f, TP_PRE_IP)
      + PerfIfSetup(c, f, TP_PRE_IF)
      + Appends(f, Mangle, EXTERNAL, PerfExternalRules(c, k, f)) + One(f, Mangle, EnsureJump("PREROUTING", EXTERNAL))
  {
    var a := One(f, Mangle, EnsureChain(EXTERNAL)) + PerfDestSetup(c, k, f, TP_PRE_IP);
    var b := One(f, Mangle, EnsureChain(TP_PRE_IF));
    hide One, PerfDestSetup, Appends, PerfIfRules, PerfExternalRules;
    Joined(a, b, Appends(f, Mangle, TP_PRE_IF, PerfIfRules(c)));
  }

  lemma PerfExternalSplit(c: Config, k: Capabilities, f: Family)
    ensures PerfExternalRules(c, k, f)
         == ExternalPrefix(c, k, f, ActTproxy) + AllPerfJumps(c, [TP_PRE_IP, TP_PRE_IF]) + ConnmarkSets(c) + ConnmarkDispatches(c)
  {
    TwoJumps(c, TP_PRE_IP, TP_PRE_IF);
    var a, b := ExternalPrefix(c, k, f, ActTproxy), AllPerfJumps(c, [TP_PRE_IP, TP_PRE_IF]);
    var d, e := ConnmarkSets(c), ConnmarkDispatches(c);
    hide ExternalPrefix, AllPerfJumps, ConnmarkSets, ConnmarkDispatches, PerfJumps;
    assert a + (b + d + e) == a + b + d + e;
  }

  lemma PerfLocalSplit(c: Config, k: Capabilities, x: Context, f: Family)
    ensures PerfLocalRules(c, k, x, f) == ReplyBypass(c, k) + FakeIp6Rules(c, f, ActMark)
      + CnipForceLocalRules(c, k, x, f, LOCAL, ActMark) + AllPerfJumps(c, [TP_OUT_IP, TP_OUT_APP])
      + MangleDnsRules(c, ActMark) + ConnmarkSets(c) + ConnmarkMarks(c)
  {
    TwoJumps(c, TP_OUT_IP, TP_OUT_APP);
    var head := ReplyBypass(c, k) + FakeIp6Rules(c, f, ActMark) + CnipForceLocalRules(c, k, x, f, LOCAL, ActMark);
    hide ReplyBypass, FakeIp6Rules, CnipForceLocalRules, PerfJumps, MangleDnsRules, ConnmarkSets, ConnmarkMarks, AllPerfJumps;
    assert head + PerfJumps(c, TP_OUT_IP) + PerfJumps(c, TP_OUT_APP) == head + (PerfJumps(c, TP_OUT_IP) + PerfJumps(c, TP_OUT_APP));
  }

  lemma FastLocalSplit(c: Config, k: Capabilities, x: Context, f: Family)
    ensures FastLocalSteps(c, k, x, f) == PerfDestSetup(c, k, f, TP_OUT_IP)
      + (One(f, Mangle, EnsureChain(TP_OUT_APP)) + Appends(f, Mangle, TP_OUT_APP, PerfAppRules(c, x, f)))
      + Appends(f, Mangle, LOCAL, PerfLocalRules(c, k, x, f))
  {
    hide One, PerfDestSetup, Appends, PerfAppRules, PerfLocalRules;
    Joined(PerfDestSetup(c, k, f, TP_OUT_IP), One(f, Mangle, EnsureChain(TP_OUT_APP)),
            Appends(f, Mangle, TP_OUT_APP, PerfAppRules(c, x, f)));
  }

  lemma TunInterfaceParts(c: Config)
    ensures !c.macFilter ==> TunInterfaceRules(c) == TunBlockedRules(c.blockedIfs)
    ensures c.macFilter ==> TunInterfaceRules(c) == TunBlockedRules(c.blockedIfs) + TunHotspotsRules(c, c.hotspotIfs) + [BypassMarked()]
  {
    hide TunBlockedRules, TunHotspotsRules, BypassMarked;
    var a, b, d := TunBlockedRules(c.blockedIfs), TunHotspotsRules(c, c.hotspotIfs), [BypassMarked()];
    assert a + (b + d) == a + b + d;
  }

  lemma FourJoined(a: seq<Step>, b: seq<Step>, d: seq<Step>, e: seq<Step>)
    ensures a + (b + d + e) == a + b + d + e
  {
  }

  lemma StartTproxyParts(c: Config, k: Capabilities, x: Context, f: Family)
    ensures !TproxySupported(k, f) ==> StartTproxy(c, k, x, f) == []
    ensures TproxySupported(k, f) ==>
      StartTproxy(c, k, x, f) == TproxyRouting(f)
        + (TproxyExternalSetup(c, k, f) + TproxyLocalSetup(c, k, x, f) + DivertSetup(c, k, f) + QuicSetup(c, f)
           + (if c.mode != Enhance then LoopbackRejectSetup(x, f, c.tproxyPort) else [])
           + DnsNatSetup(c, k, x, f) + FakeIpIcmpSetup(c, f))
    ensures LoopbackRejectSetup(x, f, c.tproxyPort) == One(f, Filter, EnsureFirst("OUTPUT", LoopbackRejects(x, f, c.tproxyPort)))
  {
    hide TproxyRouting, TproxyExternalSetup, TproxyLocalSetup, DivertSetup, QuicSetup, DnsNatSetup, FakeIpIcmpSetup, One, LoopbackRejects;
  }

  lemma StartTunParts(c: Config, k: Capabilities, x: Context, f: Family)
    ensures var pre, out := TunPreChain(f), TunOutChain(f);
      RuleScripts.StartTunBypass(c, k, x, f)
        == One(f, Mangle, EnsureChain(pre)) + One(f, Mangle, EnsureChain(out)) + Appends(f, Mangle, pre, TunPreRules(c, k, f))
           + One(f, Mangle, AppendFirst(out, CoreBypassVariants(x))) + Appends(f, Mangle, out, TunOutRules(c, k, x, f))
           + One(f, Mangle, EnsureJump("PREROUTING", pre)) + One(f, Mangle, EnsureJump("OUTPUT", out)) + TunRouting(f)
  {
    hide TunTables, TunRouting, One, Appends, TunPreRules, TunOutRules, CoreBypassVariants, TunPreChain, TunOutChain;
    TunTablesParts(c, k, x, f);
  }

  lemma AttemptsNotNeeded(f: Family, t: TableName, op: Op)
    requires op.EnsureFirst? || op.AppendFirst?
    ensures !Needed(Step(f, t, op))
  {
  }

  lemma StopTunParts(f: Family)
    ensures var pre, out := TunPreChain(f), TunOutChain(f);
      RuleScripts.StopTunBypass(f)
        == IpCleanup(f)
           + (One(f, Mangle, DelRule("PREROUTING", Rule(Jump(pre)))) + One(f, Mangle, DelRule("OUTPUT", Rule(Jump(out))))
              + (One(f, Mangle, CleanupChain(pre)) + One(f, Mangle, CleanupChain(out))))
  {
    hide TunPreChain, TunOutChain, IpCleanup;
    var pre, out := TunPreChain(f), TunOutChain(f);
    assert Cleanups(f, Mangle, [pre, out]) == One(f, Mangle, CleanupChain(pre)) + One(f, Mangle, CleanupChain(out));
  }

  // ----- what the writer keeps -----

  lemma {:induction false} RunSnoc(refused: set<Rule>, h: Held, steps: seq<Step>, s: Step)
    ensures var o := PerformOf(refused, RunOf(refused, h, steps), s);
      && RunOf(refused, h, steps + [s]) == o.held
      && OksOf(refused, h, steps + [s]) == OksOf(refused, h, steps) + [o.ok]
    decreases |steps|
  {
    hide PerformOf;
    if steps == [] {
      assert steps + [s] == [s] && [s][1..] == [];
    } else {
      var o := PerformOf(refused, h, steps[0]);
      assert (steps + [s])[1..] == steps[1..] + [s];
      RunSnoc(refused, o.held, steps[1..], s);
    }
  }

  /** The manager has gone through what was issued, which is the script up to the first failure. */
  ghost predicate Follows(refused: set<Rule>, start: Held, held: Held, issued: seq<Step>, script: seq<Step>, failed: bool) {
    && held == RunOf(refused, start, issued)
    && issued <= script
    && (!failed ==> issued == script && NeededOk(issued, OksOf(refused, start, issued)))
  }

  lemma FollowsOn(refused: set<Rule>, start: Held, held: Held, issued: seq<Step>, s: Step, script: seq<Step>)
    requires Follows(refused, start, held, issued, script, false)
    ensures var o := PerformOf(refused, held, s);
      && Follows(refused, start, o.held, issued + [s], script + [s], true)
      && (o.ok || !Needed(s) ==> Follows(refused, start, o.held, issued + [s], script + [s], false))
  {
    hide PerformOf, Needed;
    RunSnoc(refused, start, issued, s);
  }

  lemma FollowsNot(refused: set<Rule>, start: Held, held: Held, issued: seq<Step>, script: seq<Step>, s: Step)
    requires Follows(refused, start, held, issued, script, true)
    ensures Follows(refused, start, held, issued, script + [s], true)
  {
    hide RunOf;
  }

  ghost predicate Going(w: RuleWriter)
    reads w, w.manager
  {
    && w.manager.Valid() && w.behind <= w.issued
    && Follows(w.manager.refused, w.start, w.manager.State(), w.issued, w.script, w.failed)
  }

  class RuleWriter {
    const c: Config
    const k: Capabilities
    const x: Context
    const f: Family
    const manager: RuleManager
    ghost const start: Held
    /** What the manager has been asked to do. */
    ghost var issued: seq<Step>
    /** What it had been asked to do when the present half of the setup began. */
    ghost var behind: seq<Step>
    var failed: bool
    /** The tables whose local-IP chain has been built. */
    var built: set<TableName>
    ghost var script: seq<Step>

    ghost predicate Valid()
      reads this, manager
    {
      Going(this)
    }

    constructor (c: Config, k: Capabilities, x: Context, f: Family, manager: RuleManager)
      requires manager.Valid()
      ensures Valid() && script == [] && built == {} && !failed && behind == [] && start == manager.State()
      ensures this.c == c && this.k == k && this.x == x && this.f == f && this.manager == manager
    {
      this.c, this.k, this.x, this.f, this.manager := c, k, x, f, manager;
      start := manager.State();
      issued, behind, failed, built, script := [], [], false, {}, [];
    }

    // ----- single operations -----

    /** An operation whose failure ends the setup. */
    method Require(t: TableName, op: Op)
      requires Valid()
      modifies this`issued, this`failed, this`script, manager
      ensures Valid() && script == old(script) + One(f, t, op)
      ensures old(failed) ==> failed && manager.State() == old(manager.State())
    {
      ghost var s, was, before := Step(f, t, op), script, manager.State();
      script := script + [Step(f, t, op)];
      if failed {
        FollowsNot(manager.refused, start, before, issued, was, s);
      } else {
        FollowsOn(manager.refused, start, before, issued, s, was);
        hide Follows, PerformOf;
        var ok := manager.Perform(Step(f, t, op));
        issued := issued + [s];
        failed := !ok;
      }
    }

    /** An operation whose failure is ignored. */
    method Try(t: TableName, op: Op)
      requires Valid() && !Needed(Step(f, t, op))
      modifies this`issued, this`script, manager
      ensures Valid() && script == old(script) + One(f, t, op)
      ensures failed ==> manager.State() == old(manager.State())
    {
      ghost var s, was, before := Step(f, t, op), script, manager.State();
      script := script + [Step(f, t, op)];
      if failed {
        FollowsNot(manager.refused, start, before, issued, was, s);
      } else {
        FollowsOn(manager.refused, start, before, issued, s, was);
        hide Follows, PerformOf;
        var _ := manager.Perform(Step(f, t, op));
        issued := issued + [s];
      }
    }

    method Fail()
      requires Valid()
      modifies this`failed
      ensures Valid() && failed
    {
      failed := true;
    }

    /** A command of `ip` the setup cannot do without.  What it does is for PolicyRouting;
        here it flushes, and may fail behind a flush that worked. */
    method RequireIp()
      requires Valid()
      modifies this`issued, this`failed, this`script, manager
      ensures Valid() && script == old(script) + One(f, Filter, Sync(true))
    {
      Require(Filter, Sync(true));
      var refused := *;
      if refused {
        Fail();
      }
    }

    /** A rule or route is looked up and, where it is not found, added. */
    method EnsureByIp()
      requires Valid()
      modifies this`issued, this`failed, this`script, manager
      ensures Valid() && script == old(script) + IpEnsured(f)
    {
      Joined(script, One(f, Filter, Sync(false)), One(f, Filter, Sync(true)));
      Try(Filter, Sync(false));
      RequireIp();
    }

    method SetupTproxyPolicyRouting()
      requires Valid()
      modifies this`issued, this`failed, this`script, manager
      ensures Valid() && script == old(script) + TproxyRouting(f)
    {
      hide IpEnsured;
      Joined(script, IpEnsured(f), IpEnsured(f));
      EnsureByIp();
      EnsureByIp();
    }

    method ApplyTunRouteRules()
      requires Valid()
      modifies this`issued, this`failed, this`script, manager
      ensures Valid() && script == old(script) + TunRouting(f)
    {
      hide IpEnsured;
      Joined(script, IpEnsured(f), IpEnsured(f));
      Joined(script, IpEnsured(f) + IpEnsured(f), One(f, Filter, Sync(true)));
      EnsureByIp();
      EnsureByIp();
      RequireIp();
    }

    /** Rules and routes are taken away whatever comes of it. */
    method CleanupByIp()
      requires Valid()
      modifies this`issued, this`script, manager
      ensures Valid() && script == old(script) + IpCleanup(f)
    {
      ghost var s, sync := script, One(f, Filter, Sync(false));
      Try(Filter, Sync(false));
      Try(Filter, Sync(false));
      Joined(s, sync, sync);
      Try(Filter, Sync(false));
      Joined(s, sync + sync, sync);
    }

    method Append(t: TableName, chain: string, r: Rule)
      requires Valid()
      modifies this`issued, this`failed, this`script, manager
      ensures Valid() && script == old(script) + Appends(f, t, chain, [r])
    {
      Require(t, EnsureAppend(chain, r));
      assert One(f, t, EnsureAppend(chain, r)) == Appends(f, t, chain, [r]);
    }

    /** Append the rule if the flag is set. */
    method AppendWhen(b: bool, t: TableName, chain: string, r: Rule)
      requires Valid()
      modifies this`issued, this`failed, this`script, manager
      ensures Valid() && script == old(script) + Appends(f, t, chain, When(b, [r]))
    {
      if b {
        Append(t, chain, r);
      }
    }

    method AppendReturns(t: TableName, chain: string, nets: seq<Net>)
      requires Valid()
      modifies this`issued, this`failed, this`script, manager
      ensures Valid() && script == old(script) + Appends(f, t, chain, SubnetReturns(nets))
    {
      hide *;
      ghost var rules := SubnetReturns(nets);
      LastRule(script, f, t, chain, rules);
      for i := 0 to |nets|
        invariant Valid()
        invariant script + Appends(f, t, chain, rules[i..]) == old(script) + Appends(f, t, chain, rules)
      {
        NextRule(script, f, t, chain, rules, i);
        Append(t, chain, Rule(Return, dst := Some(nets[i])));
      }
      LastRule(script, f, t, chain, rules);
    }

    method AppendIfaces(t: TableName, chain: string, target: Target)
      requires Valid()
      modifies this`issued, this`failed, this`script, manager
      ensures Valid() && script == old(script) + Appends(f, t, chain, IfaceRules(c.blockedIfs, target))
    {
      hide *;
      ghost var rules := IfaceRules(c.blockedIfs, target);
      LastRule(script, f, t, chain, rules);
      for i := 0 to |c.blockedIfs|
        invariant Valid()
        invariant script + Appends(f, t, chain, rules[i..]) == old(script) + Appends(f, t, chain, rules)
      {
        NextRule(script, f, t, chain, rules, i);
        Append(t, chain, Rule(target, inIf := Some(c.blockedIfs[i])));
      }
      LastRule(script, f, t, chain, rules);
    }

    method AppendMacs(t: TableName, chain: string, iface: string, target: Target)
      requires Valid()
      modifies this`issued, this`failed, this`script, manager
      ensures Valid() && script == old(script) + Appends(f, t, chain, MacTargets(iface, c.macs, target))
    {
      hide *;
      ghost var rules := MacTargets(iface, c.macs, target);
      LastRule(script, f, t, chain, rules);
      for i := 0 to |c.macs|
        invariant Valid()
        invariant script + Appends(f, t, chain, rules[i..]) == old(script) + Appends(f, t, chain, rules)
      {
        NextRule(script, f, t, chain, rules, i);
        Append(t, chain, Rule(target, inIf := Some(iface), mac := Some(c.macs[i])));
      }
      LastRule(script, f, t, chain, rules);
    }

    method AppendUids(t: TableName, chain: string, uids: seq<nat>, target: Target)
      requires Valid()
      modifies this`issued, this`failed, this`script, manager
      ensures Valid() && script == old(script) + Appends(f, t, chain, UidRules(uids, target))
    {
      hide *;
      ghost var rules := UidRules(uids, target);
      LastRule(script, f, t, chain, rules);
      for i := 0 to |uids|
        invariant Valid()
        invariant script + Appends(f, t, chain, rules[i..]) == old(script) + Appends(f, t, chain, rules)
      {
        NextRule(script, f, t, chain, rules, i);
        Append(t, chain, UidRule(uids[i], target));
      }
      LastRule(script, f, t, chain, rules);
    }

    method AppendGids(t: TableName, chain: string, target: Target)
      requires Valid()
      modifies this`issued, this`failed, this`script, manager
      ensures Valid() && script == old(script) + Appends(f, t, chain, GidRules(x.gids, target))
    {
      hide *;
      ghost var rules := GidRules(x.gids, target);
      LastRule(script, f, t, chain, rules);
      for i := 0 to |x.gids|
        invariant Valid()
        invariant script + Appends(f, t, chain, rules[i..]) == old(script) + Appends(f, t, chain, rules)
      {
        NextRule(script, f, t, chain, rules, i);
        Append(t, chain, GidRule(x.gids[i], target));
      }
      LastRule(script, f, t, chain, rules);
    }

    // ----- the external chains -----

    /** A dispatch rule, for the protocols the action has one for. */
    method AppendExternalProtocolRule(action: Action, chain: string, p: Proto, iface: string, mac: Option<string>)
      requires Valid()
      modifies this`issued, this`failed, this`script, manager
      ensures Valid() && script == old(script) + Appends(f, Home(action), chain, ExternalProtocolRule(c, action, p, iface, mac))
    {
      var base := Rule(Return, proto := Is(p), inIf := Some(iface), mac := mac);
      match action {
        case ActRedirect =>
          if p != Tcp || !c.proxyTcp {
            return;
          }
          Append(Nat, chain, RedirectRule(c, base));
        case ActTproxy =>
          if p == Tcp {
            if !c.proxyTcp || c.mode == Enhance {
              return;
            }
          } else if !c.proxyUdp {
            return;
          }
          Append(Mangle, chain, TproxyRule(c, base));
        case ActMark =>
      }
    }

    method AppendExternalBoth(action: Action, chain: string, iface: string, mac: Option<string>)
      requires Valid()
      modifies this`issued, this`failed, this`script, manager
      ensures Valid() && script == old(script) + Appends(f, Home(action), chain, ExternalBoth(c, action, iface, mac))
    {
      Onwards(script, f, Home(action), chain, ExternalProtocolRule(c, action, Tcp, iface, mac),
              ExternalProtocolRule(c, action, Udp, iface, mac));
      AppendExternalProtocolRule(action, chain, Tcp, iface, mac);
      AppendExternalProtocolRule(action, chain, Udp, iface, mac);
    }

    method ApplyExternalLoopbackRule(action: Action, chain: string)
      requires Valid()
      modifies this`issued, this`failed, this`script, manager
      ensures Valid() && script == old(script) + Appends(f, Home(action), chain, ExternalLoopbackRules(c, action))
    {
      match action {
        case ActRedirect => AppendExternalProtocolRule(action, chain, Tcp, "lo", None);
        case ActTproxy => AppendExternalBoth(action, chain, "lo", None);
        case ActMark =>
      }
    }

    method ApplyExternalAllRules(action: Action, chain: string)
      requires Valid()
      modifies this`issued, this`failed, this`script, manager
      ensures Valid() && script == old(script) + Appends(f, Home(action), chain, ExternalAllRules(c, action))
    {
      var tcp, udp := Rule(Return, proto := Is(Tcp)), Rule(Return, proto := Is(Udp));
      match action {
        case ActRedirect => AppendWhen(c.proxyTcp, Nat, chain, RedirectRule(c, tcp));
        case ActTproxy =>
          Onwards(script, f, Mangle, chain, When(TcpInMangle(c), [TproxyRule(c, tcp)]),
                  When(c.proxyUdp, [TproxyRule(c, udp)]));
          AppendWhen(c.mode != Enhance && c.proxyTcp, Mangle, chain, TproxyRule(c, tcp));
          AppendWhen(c.proxyUdp, Mangle, chain, TproxyRule(c, udp));
        case ActMark =>
      }
    }

    /** A listed MAC leaves before its interface is dispatched. */
    method AppendMacReturn(action: Action, chain: string, iface: string, mac: string)
      requires Valid()
      modifies this`issued, this`failed, this`script, manager
      ensures Valid() && script == old(script) + Appends(f, Home(action), chain, MacReturn(c, action, iface, mac))
    {
      var base := Rule(Return, inIf := Some(iface), mac := Some(mac));
      match action {
        case ActRedirect => Append(Nat, chain, base);
        case ActTproxy =>
          Onwards(script, f, Mangle, chain, When(TcpInMangle(c), [base.(proto := Is(Tcp))]),
                  When(c.proxyUdp, [base.(proto := Is(Udp))]));
          AppendWhen(c.mode != Enhance && c.proxyTcp, Mangle, chain, base.(proto := Is(Tcp)));
          AppendWhen(c.proxyUdp, Mangle, chain, base.(proto := Is(Udp)));
        case ActMark =>
      }
    }

    method AppendMacDispatches(action: Action, chain: string, iface: string)
      requires Valid()
      modifies this`issued, this`failed, this`script, manager
      ensures Valid() && script == old(script) + Appends(f, Home(action), chain, MacDispatches(c, action, iface, c.macs))
    {
      ghost var t := Home(action);
      for i := 0 to |c.macs|
        invariant Valid()
        invariant script + Appends(f, t, chain, MacDispatches(c, action, iface, c.macs[i..]))
               == old(script) + Appends(f, t, chain, MacDispatches(c, action, iface, c.macs))
      {
        assert c.macs[i..][1..] == c.macs[i + 1..];
        Onwards(script, f, t, chain, ExternalBoth(c, action, iface, Some(c.macs[i])),
                MacDispatches(c, action, iface, c.macs[i + 1..]));
        AppendExternalBoth(action, chain, iface, Some(c.macs[i]));
      }
    }

    method AppendMacReturns(action: Action, chain: string, iface: string)
      requires Valid()
      modifies this`issued, this`failed, this`script, manager
      ensures Valid() && script == old(script) + Appends(f, Home(action), chain, MacReturns(c, action, iface, c.macs))
    {
      ghost var t := Home(action);
      for i := 0 to |c.macs|
        invariant Valid()
        invariant script + Appends(f, t, chain, MacReturns(c, action, iface, c.macs[i..]))
               == old(script) + Appends(f, t, chain, MacReturns(c, action, iface, c.macs))
      {
        assert c.macs[i..][1..] == c.macs[i + 1..];
        Onwards(script, f, t, chain, MacReturn(c, action, iface, c.macs[i]), MacReturns(c, action, iface, c.macs[i + 1..]));
        AppendMacReturn(action, chain, iface, c.macs[i]);
      }
    }

    method AppendHotspot(action: Action, chain: string, iface: string)
      requires Valid()
      modifies this`issued, this`failed, this`script, manager
      ensures Valid() && script == old(script) + Appends(f, Home(action), chain, HotspotRules(c, action, iface))
    {
      if c.macWhitelist {
        AppendMacDispatches(action, chain, iface);
      } else {
        Onwards(script, f, Home(action), chain, MacReturns(c, action, iface, c.macs), ExternalBoth(c, action, iface, None));
        AppendMacReturns(action, chain, iface);
        AppendExternalBoth(action, chain, iface, None);
      }
    }

    method ApplyExternalApRules(action: Action, chain: string)
      requires Valid()
      modifies this`issued, this`failed, this`script, manager
      ensures Valid() && script == old(script) + Appends(f, Home(action), chain, ExternalApRules(c, action))
    {
      if !c.macFilter {
        ApplyExternalAllRules(action, chain);
        return;
      }
      ghost var s, t := script, Home(action);
      for i := 0 to |c.hotspotIfs|
        invariant Valid()
        invariant script + Appends(f, t, chain, HotspotsRules(c, action, c.hotspotIfs[i..]))
               == s + Appends(f, t, chain, HotspotsRules(c, action, c.hotspotIfs))
      {
        assert c.hotspotIfs[i..][1..] == c.hotspotIfs[i + 1..];
        Onwards(script, f, t, chain, HotspotRules(c, action, c.hotspotIfs[i]),
                HotspotsRules(c, action, c.hotspotIfs[i + 1..]));
        AppendHotspot(action, chain, c.hotspotIfs[i]);
      }
    }

    // ----- bypassed destinations -----

    /** Accept all but DNS over UDP, then all that is not UDP. */
    method AppendPerfBypassTarget(t: TableName, chain: string, base: Rule)
      requires Valid()
      modifies this`issued, this`failed, this`script, manager
      ensures Valid() && script == old(script) + Appends(f, t, chain, AcceptPair(base))
    {
      var udp := base.(target := Accept, proto := Is(Udp), dport := NotPort(53));
      var rest := base.(target := Accept, proto := IsNot(Udp));
      Onwards(script, f, t, chain, [udp], [rest]);
      Append(t, chain, udp);
      Append(t, chain, rest);
    }

    method AppendAcceptPairs(t: TableName, chain: string, nets: seq<Net>)
      requires Valid()
      modifies this`issued, this`failed, this`script, manager
      ensures Valid() && script == old(script) + Appends(f, t, chain, AcceptPairs(nets))
    {
      for i := 0 to |nets|
        invariant Valid()
        invariant script + Appends(f, t, chain, AcceptPairs(nets[i..]))
               == old(script) + Appends(f, t, chain, AcceptPairs(nets))
      {
        ghost var pair := AcceptPair(Rule(Accept, dst := Some(nets[i])));
        assert nets[i..][1..] == nets[i + 1..];
        Onwards(script, f, t, chain, pair, AcceptPairs(nets[i + 1..]));
        AppendPerfBypassTarget(t, chain, Rule(Accept, dst := Some(nets[i])));
      }
    }

    /** Built once in each table. */
    method EnsureLocalIpChain(t: TableName)
      requires Valid()
      modifies this`issued, this`failed, this`built, this`script, manager
      ensures Valid() && script == old(script) + LocalIpSteps(c, k, f, t, old(built)) && built == old(built) + {t}
    {
      if t in built {
        return;
      }
      built := built + {t};
      Require(t, Rebuild(LocalIpChain(f), LocalCidrs(c, f), RestoringOf(k, f, t)));
    }

    method AppendCommonBypassRules(t: TableName, chain: string)
      requires Valid()
      modifies this`issued, this`failed, this`built, this`script, manager
      ensures Valid() && built == old(built) + {t}
      ensures script == old(script) + LocalIpSteps(c, k, f, t, old(built))
        + Appends(f, t, chain, CommonBypassRules(c, k, f, chain))
    {
      EnsureLocalIpChain(t);
      ghost var s := script;
      AppendReturns(t, chain, Subnets(c, f));
      var cn := CnipMatch(c, k, f, chain);
      if cn.Some? {
        Append(t, chain, Rule(Return, ext := cn.value));
      }
      ghost var a, b := SubnetReturns(Subnets(c, f)), CnipRule(c, k, f, chain, Return);
      assert cn.None? ==> Appends(f, t, chain, b) == [];
      Onwards(s, f, t, chain, a, b);
      Append(t, chain, Rule(Jump(LocalIpChain(f))));
      Onwards(s, f, t, chain, a + b, [Rule(Jump(LocalIpChain(f)))]);
    }

    // ----- the fast chains -----

    /** Both attempts are made; a kernel that refuses one loses that rule only. */
    method AppendPerfAddrtypeTarget(chain: string)
      requires Valid()
      modifies this`issued, this`failed, this`script, manager
      ensures Valid() && script == old(script) + Attempts(f, Mangle, chain, PerfAddrtypeRules(k))
    {
      if !k.addrtype {
        return;
      }
      ghost var s := script;
      var base := Rule(Accept, dstLocal := true);
      var udp, rest := base.(proto := Is(Udp), dport := NotPort(53)), base.(proto := IsNot(Udp));
      Try(Mangle, AppendFirst(chain, [udp]));
      Try(Mangle, AppendFirst(chain, [rest]));
      assert PerfAddrtypeRules(k) == [udp, rest];
      assert Attempts(f, Mangle, chain, [udp, rest]) == One(f, Mangle, AppendFirst(chain, [udp])) + One(f, Mangle, AppendFirst(chain, [rest]));
      Joined(s, One(f, Mangle, AppendFirst(chain, [udp])), One(f, Mangle, AppendFirst(chain, [rest])));
    }

    method AppendPerfBypassRules(chain: string)
      requires Valid()
      modifies this`issued, this`failed, this`script, manager
      ensures Valid() && script == old(script) + Appends(f, Mangle, chain, PerfBypassRules(c, k, f, chain))
    {
      ghost var s := script;
      AppendAcceptPairs(Mangle, chain, Subnets(c, f));
      var cn := CnipMatch(c, k, f, chain);
      if cn.Some? {
        AppendPerfBypassTarget(Mangle, chain, Rule(Accept, ext := cn.value));
      }
      ghost var pair := if cn.Some? then AcceptPair(Rule(Accept, ext := cn.value)) else [];
      assert cn.None? ==> Appends(f, Mangle, chain, pair) == [];
      Onwards(s, f, Mangle, chain, AcceptPairs(Subnets(c, f)), pair);
    }

    method SetupPerfDestChain(chain: string)
      requires Valid()
      modifies this`issued, this`failed, this`script, manager
      ensures Valid() && script == old(script) + PerfDestSetup(c, k, f, chain)
    {
      ghost var s, a := script, One(f, Mangle, EnsureChain(chain));
      ghost var b := Appends(f, Mangle, chain, PerfBypassRules(c, k, f, chain));
      ghost var d := Attempts(f, Mangle, chain, PerfAddrtypeRules(k));
      hide Appends, Attempts, PerfBypassRules, PerfAddrtypeRules;
      Require(Mangle, EnsureChain(chain));
      AppendPerfBypassRules(chain);
      Joined(s, a, b);
      AppendPerfAddrtypeTarget(chain);
      Joined(s, a + b, d);
      AppendPerfLoopback(chain);
      Joined(s, a + b + d, Appends(f, Mangle, chain, PerfLoopbackRules(c, f)));
    }

    method AppendPerfLoopback(chain: string)
      requires Valid()
      modifies this`issued, this`failed, this`script, manager
      ensures Valid() && script == old(script) + Appends(f, Mangle, chain, PerfLoopbackRules(c, f))
    {
      if LoopbackNet(f) !in Subnets(c, f) {
        AppendPerfBypassTarget(Mangle, chain, Rule(Accept, dst := Some(LoopbackNet(f))));
      }
    }

    method AppendPerfHotspot(chain: string, iface: string)
      requires Valid()
      modifies this`issued, this`failed, this`script, manager
      ensures Valid() && script == old(script) + Appends(f, Mangle, chain, PerfHotspotRules(c, iface))
    {
      ghost var s := script;
      if c.macWhitelist {
        AppendMacs(Mangle, chain, iface, Return);
        Append(Mangle, chain, Rule(Accept, inIf := Some(iface)));
        Onwards(s, f, Mangle, chain, MacTargets(iface, c.macs, Return), [Rule(Accept, inIf := Some(iface))]);
      } else {
        AppendMacs(Mangle, chain, iface, Accept);
        Append(Mangle, chain, Rule(Return, inIf := Some(iface)));
        Onwards(s, f, Mangle, chain, MacTargets(iface, c.macs, Accept), [Rule(Return, inIf := Some(iface))]);
      }
    }

    method AppendPerfHotspots(chain: string)
      requires Valid()
      modifies this`issued, this`failed, this`script, manager
      ensures Valid() && script == old(script) + Appends(f, Mangle, chain, PerfHotspotsRules(c, c.hotspotIfs))
    {
      for i := 0 to |c.hotspotIfs|
        invariant Valid()
        invariant script + Appends(f, Mangle, chain, PerfHotspotsRules(c, c.hotspotIfs[i..]))
               == old(script) + Appends(f, Mangle, chain, PerfHotspotsRules(c, c.hotspotIfs))
      {
        assert c.hotspotIfs[i..][1..] == c.hotspotIfs[i + 1..];
        Onwards(script, f, Mangle, chain, PerfHotspotRules(c, c.hotspotIfs[i]), PerfHotspotsRules(c, c.hotspotIfs[i + 1..]));
        AppendPerfHotspot(chain, c.hotspotIfs[i]);
      }
    }

    method SetupPerfPreIfChain(chain: string)
      requires Valid()
      modifies this`issued, this`failed, this`script, manager
      ensures Valid() && script == old(script) + PerfIfSetup(c, f, chain)
    {
      ghost var s, a := script, One(f, Mangle, EnsureChain(chain));
      ghost var ifs, lo := IfaceRules(c.blockedIfs, Accept), [Rule(Return, inIf := Some("lo"))];
      ghost var hot, last := PerfHotspotsRules(c, c.hotspotIfs), [Rule(Accept)];
      hide IfaceRules, PerfHotspotsRules;
      Require(Mangle, EnsureChain(chain));
      AppendIfaces(Mangle, chain, Accept);
      Append(Mangle, chain, Rule(Return, inIf := Some("lo")));
      Onwards(s + a, f, Mangle, chain, ifs, lo);
      if !c.macFilter {
        Append(Mangle, chain, Rule(Return));
        Onwards(s + a, f, Mangle, chain, ifs + lo, [Rule(Return)]);
        Joined(s, a, Appends(f, Mangle, chain, PerfIfRules(c)));
        return;
      }
      AppendPerfHotspots(chain);
      Onwards(s + a, f, Mangle, chain, ifs + lo, hot);
      Append(Mangle, chain, Rule(Accept));
      Onwards(s + a, f, Mangle, chain, ifs + lo + hot, last);
      assert ifs + lo + hot + last == ifs + lo + (hot + last);
      Joined(s, a, Appends(f, Mangle, chain, PerfIfRules(c)));
    }

    method AppendPerfBlacklist(chain: string)
      requires Valid() && c.proxyMode == Blacklist
      modifies this`issued, this`failed, this`script, manager
      ensures Valid() && script == old(script) + Appends(f, Mangle, chain, PerfAppRules(c, x, f))
    {
      ghost var s := script;
      ghost var uids := if AppEbpfActive(c, x, f) then [AppRule(f, Accept)] else UidRules(x.uids, Accept);
      if AppEbpfActive(c, x, f) {
        Append(Mangle, chain, AppRule(f, Accept));
      } else {
        AppendUids(Mangle, chain, x.uids, Accept);
      }
      AppendGids(Mangle, chain, Accept);
      Onwards(s, f, Mangle, chain, uids, GidRules(x.gids, Accept));
    }

    /** The flag says whether there was anything to list. */
    method AppendPerfWhitelist(chain: string)
      requires Valid() && c.proxyMode == Whitelist
      modifies this`issued, this`failed, this`script, manager
      ensures Valid() && script == old(script) + Appends(f, Mangle, chain, PerfAppRules(c, x, f))
    {
      ghost var s := script;
      ghost var uids := if AppEbpfActive(c, x, f) then [AppRule(f, Return)] else UidRules(x.uids, Return);
      ghost var system, gids := When(x.uids != [], UidRules([0, 1052], Return)), GidRules(x.gids, Return);
      var hasWhitelist := false;
      if AppEbpfActive(c, x, f) {
        hasWhitelist := true;
        Append(Mangle, chain, AppRule(f, Return));
      } else {
        hasWhitelist := x.uids != [];
        AppendUids(Mangle, chain, x.uids, Return);
      }
      if x.uids != [] {
        AppendUids(Mangle, chain, [0, 1052], Return);
      }
      assert x.uids == [] ==> Appends(f, Mangle, chain, system) == [];
      Onwards(s, f, Mangle, chain, uids, system);
      hasWhitelist := hasWhitelist || x.gids != [];
      AppendGids(Mangle, chain, Return);
      Onwards(s, f, Mangle, chain, uids + system, gids);
      AppendWhen(hasWhitelist, Mangle, chain, Rule(Accept));
      Onwards(s, f, Mangle, chain, uids + system + gids, When(hasWhitelist, [Rule(Accept)]));
    }

    method SetupPerfOutAppChain(chain: string)
      requires Valid()
      modifies this`issued, this`failed, this`script, manager
      ensures Valid() && script == old(script) + One(f, Mangle, EnsureChain(chain))
        + Appends(f, Mangle, chain, PerfAppRules(c, x, f))
    {
      ghost var s := script;
      Require(Mangle, EnsureChain(chain));
      match c.proxyMode {
        case Core => assert Appends(f, Mangle, chain, PerfAppRules(c, x, f)) == [];
        case Blacklist => AppendPerfBlacklist(chain);
        case Whitelist => AppendPerfWhitelist(chain);
      }
      Joined(s, One(f, Mangle, EnsureChain(chain)), Appends(f, Mangle, chain, PerfAppRules(c, x, f)));
    }

    method AddPerfChainJumps(parent: string, targets: seq<string>)
      requires Valid()
      modifies this`issued, this`failed, this`script, manager
      ensures Valid() && script == old(script) + Appends(f, Mangle, parent, AllPerfJumps(c, targets))
    {
      for i := 0 to |targets|
        invariant Valid()
        invariant script + Appends(f, Mangle, parent, AllPerfJumps(c, targets[i..]))
               == old(script) + Appends(f, Mangle, parent, AllPerfJumps(c, targets))
      {
        ghost var s, target := script, targets[i];
        assert targets[i..][1..] == targets[i + 1..];
        Onwards(s, f, Mangle, parent, PerfJumps(c, target), AllPerfJumps(c, targets[i + 1..]));
        Onwards(s, f, Mangle, parent, When(TcpInMangle(c), [SynJump(target)]), When(c.proxyUdp, [OpeningJump(target)]));
        AppendWhen(c.proxyTcp && c.mode != Enhance, Mangle, parent, SynJump(targets[i]));
        AppendWhen(c.proxyUdp, Mangle, parent, OpeningJump(targets[i]));
      }
    }

    method AppendConnmarkRules(chain: string)
      requires Valid()
      modifies this`issued, this`failed, this`script, manager
      ensures Valid() && script == old(script) + Appends(f, Mangle, chain, ConnmarkSets(c))
    {
      var tcp := Rule(SetConnMark(FWMARK), proto := Is(Tcp), opening := true);
      var udp := Rule(SetConnMark(FWMARK), proto := Is(Udp), opening := true);
      Onwards(script, f, Mangle, chain, When(TcpInMangle(c), [tcp]), When(c.proxyUdp, [udp]));
      AppendWhen(c.mode != Enhance && c.proxyTcp, Mangle, chain, tcp);
      AppendWhen(c.proxyUdp, Mangle, chain, udp);
    }

    // ----- the local chains -----

    method ReplyBypassRules(t: TableName, chain: string)
      requires Valid()
      modifies this`issued, this`failed, this`script, manager
      ensures Valid() && script == old(script) + Appends(f, t, chain, ReplyBypass(c, k))
    {
      if !ConntrackEnabled(c, k) {
        return;
      }
      Append(t, chain, Rule(Return, reply := true));
    }

    /** One protocol of the local policy, with whatever owner or program match `base` has. */
    method AppendLocalProtocolRule(action: Action, chain: string, p: Proto, base: Rule)
      requires Valid() && (p == Tcp || p == Udp)
      modifies this`issued, this`failed, this`script, manager
      ensures Valid() && script == old(script) + Appends(f, Home(action), chain, LocalProtocolRule(c, action, p, base))
    {
      if (p == Tcp && !c.proxyTcp) || (p == Udp && !c.proxyUdp) {
        return;
      }
      var r := base.(proto := Is(p));
      match action {
        case ActRedirect =>
          if p != Tcp {
            return;
          }
          Append(Nat, chain, RedirectRule(c, r));
        case ActMark =>
          if p == Tcp && c.mode == Enhance {
            return;
          }
          Append(Mangle, chain, MarkRule(FWMARK, r));
        case ActTproxy =>
      }
    }

    method AppendLocalBoth(action: Action, chain: string, base: Rule)
      requires Valid()
      modifies this`issued, this`failed, this`script, manager
      ensures Valid() && script == old(script) + Appends(f, Home(action), chain, LocalBoth(c, action, base))
    {
      Onwards(script, f, Home(action), chain, LocalProtocolRule(c, action, Tcp, base),
              LocalProtocolRule(c, action, Udp, base));
      AppendLocalProtocolRule(action, chain, Tcp, base);
      AppendLocalProtocolRule(action, chain, Udp, base);
    }

    method AppendLocalUids(action: Action, chain: string, uids: seq<nat>)
      requires Valid()
      modifies this`issued, this`failed, this`script, manager
      ensures Valid() && script == old(script) + Appends(f, Home(action), chain, LocalUids(c, action, uids))
    {
      ghost var t := Home(action);
      for i := 0 to |uids|
        invariant Valid()
        invariant script + Appends(f, t, chain, LocalUids(c, action, uids[i..]))
               == old(script) + Appends(f, t, chain, LocalUids(c, action, uids))
      {
        assert uids[i..][1..] == uids[i + 1..];
        Onwards(script, f, t, chain, LocalBoth(c, action, UidRule(uids[i], Return)), LocalUids(c, action, uids[i + 1..]));
        AppendLocalBoth(action, chain, UidRule(uids[i], Return));
      }
    }

    method AppendLocalGids(action: Action, chain: string)
      requires Valid()
      modifies this`issued, this`failed, this`script, manager
      ensures Valid() && script == old(script) + Appends(f, Home(action), chain, LocalGids(c, action, x.gids))
    {
      ghost var t := Home(action);
      for i := 0 to |x.gids|
        invariant Valid()
        invariant script + Appends(f, t, chain, LocalGids(c, action, x.gids[i..]))
               == old(script) + Appends(f, t, chain, LocalGids(c, action, x.gids))
      {
        assert x.gids[i..][1..] == x.gids[i + 1..];
        Onwards(script, f, t, chain, LocalBoth(c, action, GidRule(x.gids[i], Return)), LocalGids(c, action, x.gids[i + 1..]));
        AppendLocalBoth(action, chain, GidRule(x.gids[i], Return));
      }
    }

    method ApplyLocalProxyRules(action: Action, chain: string)
      requires Valid()
      modifies this`issued, this`failed, this`script, manager
      ensures Valid() && script == old(script) + Appends(f, Home(action), chain, LocalProxyRules(c, x, f, action))
    {
      ghost var s := script;
      var t := Home(action);
      hide LocalBoth, LocalUids, LocalGids, UidRules, GidRules;
      match c.proxyMode {
        case Core => AppendLocalBoth(action, chain, Rule(Return));
        case Blacklist =>
          ghost var uids := if AppEbpfActive(c, x, f) then [AppRule(f, Return)] else UidRules(x.uids, Return);
          if AppEbpfActive(c, x, f) {
            Append(t, chain, AppRule(f, Return));
          } else {
            AppendUids(t, chain, x.uids, Return);
          }
          AppendGids(t, chain, Return);
          Onwards(s, f, t, chain, uids, GidRules(x.gids, Return));
          AppendLocalBoth(action, chain, Rule(Return));
          Onwards(s, f, t, chain, uids + GidRules(x.gids, Return), LocalBoth(c, action, Rule(Return)));
        case Whitelist =>
          if x.uids == [] && x.gids == [] {
            AppendLocalBoth(action, chain, Rule(Return));
            return;
          }
          ghost var uids := if AppEbpfActive(c, x, f) then LocalBoth(c, action, AppRule(f, Return)) else LocalUids(c, action, x.uids);
          if AppEbpfActive(c, x, f) {
            AppendLocalBoth(action, chain, AppRule(f, Return));
          } else {
            AppendLocalUids(action, chain, x.uids);
          }
          AppendLocalUids(action, chain, [0, 1052]);
          Onwards(s, f, t, chain, uids, LocalUids(c, action, [0, 1052]));
          AppendLocalGids(action, chain);
          Onwards(s, f, t, chain, uids + LocalUids(c, action, [0, 1052]), LocalGids(c, action, x.gids));
      }
    }

    method AppendMarkReturn(chain: string, m: Mark, base: Rule)
      requires Valid()
      modifies this`issued, this`failed, this`script, manager
      ensures Valid() && script == old(script) + Appends(f, Mangle, chain, MarkReturn(m, base))
    {
      Onwards(script, f, Mangle, chain, [MarkRule(m, base)], [base.(target := Return)]);
      Append(Mangle, chain, MarkRule(m, base));
      Append(Mangle, chain, base.(target := Return));
    }

    method AppendForceRules(action: Action, chain: string, base: Rule)
      requires Valid()
      modifies this`issued, this`failed, this`script, manager
      ensures Valid() && script == old(script) + Appends(f, Home(action), chain, ForceRules(c, action, base))
    {
      var tcp, udp := base.(proto := Is(Tcp)), base.(proto := Is(Udp));
      match action {
        case ActRedirect => AppendWhen(c.proxyTcp, Nat, chain, RedirectRule(c, tcp));
        case ActMark =>
          ghost var a, b := When(TcpInMangle(c), MarkReturn(FWMARK, tcp)), When(c.proxyUdp, MarkReturn(FWMARK, udp));
          Onwards(script, f, Mangle, chain, a, b);
          if c.mode != Enhance && c.proxyTcp {
            AppendMarkReturn(chain, FWMARK, tcp);
          }
          if c.proxyUdp {
            AppendMarkReturn(chain, FWMARK, udp);
          }
        case ActTproxy =>
      }
    }

    method AppendCnipForceLocal(action: Action, chain: string)
      requires Valid()
      modifies this`issued, this`failed, this`script, manager
      ensures Valid() && script == old(script) + Appends(f, Home(action), chain, CnipForceLocalRules(c, k, x, f, chain, action))
    {
      if !c.bypassCn || x.forceUids == [] || !CnipEnabled(c, k, f) {
        return;
      }
      if c.cnipMode == ByEbpf {
        AppendForceRules(action, chain, Rule(Return, ext := Pinned(ForcePin(f))));
        return;
      }
      var e := CnipMatch(c, k, f, chain).value;
      ghost var t := Home(action);
      for i := 0 to |x.forceUids|
        invariant Valid()
        invariant script + Appends(f, t, chain, ForceUidRules(c, action, e, x.forceUids[i..]))
               == old(script) + Appends(f, t, chain, ForceUidRules(c, action, e, x.forceUids))
      {
        assert x.forceUids[i..][1..] == x.forceUids[i + 1..];
        Onwards(script, f, t, chain, ForceRules(c, action, UidRule(x.forceUids[i], Return).(ext := e)),
                ForceUidRules(c, action, e, x.forceUids[i + 1..]));
        AppendForceRules(action, chain, UidRule(x.forceUids[i], Return).(ext := e));
      }
    }

    // ----- DNS -----

    method AppendDnsReturns(chain: string)
      requires Valid()
      modifies this`issued, this`failed, this`script, manager
      ensures Valid() && script == old(script)
        + Appends(f, Mangle, chain, When(c.mode != Enhance && c.dnsTcp, [DnsBase(Tcp)]) + When(c.dnsUdp, [DnsBase(Udp)]))
    {
      Onwards(script, f, Mangle, chain, When(c.mode != Enhance && c.dnsTcp, [DnsBase(Tcp)]), When(c.dnsUdp, [DnsBase(Udp)]));
      AppendWhen(c.mode != Enhance && c.dnsTcp, Mangle, chain, DnsBase(Tcp));
      AppendWhen(c.dnsUdp, Mangle, chain, DnsBase(Udp));
    }

    method AppendDnsTproxies(chain: string)
      requires Valid()
      modifies this`issued, this`failed, this`script, manager
      ensures Valid() && script == old(script)
        + Appends(f, Mangle, chain, When(TcpInMangle(c) && c.dnsTcp, [TproxyRule(c, DnsBase(Tcp))])
          + When(c.dnsUdp && c.proxyUdp, [TproxyRule(c, DnsBase(Udp))]))
    {
      Onwards(script, f, Mangle, chain, When(TcpInMangle(c) && c.dnsTcp, [TproxyRule(c, DnsBase(Tcp))]),
              When(c.dnsUdp && c.proxyUdp, [TproxyRule(c, DnsBase(Udp))]));
      AppendWhen(c.mode != Enhance && c.dnsTcp && c.proxyTcp, Mangle, chain, TproxyRule(c, DnsBase(Tcp)));
      AppendWhen(c.dnsUdp && c.proxyUdp, Mangle, chain, TproxyRule(c, DnsBase(Udp)));
    }

    method AppendDnsMarks(chain: string)
      requires Valid()
      modifies this`issued, this`failed, this`script, manager
      ensures Valid() && script == old(script)
        + Appends(f, Mangle, chain, When(TcpInMangle(c) && c.dnsTcp, [MarkRule(FWMARK, DnsBase(Tcp))])
          + When(c.dnsUdp && c.proxyUdp, [MarkRule(FWMARK, DnsBase(Udp))]))
    {
      Onwards(script, f, Mangle, chain, When(TcpInMangle(c) && c.dnsTcp, [MarkRule(FWMARK, DnsBase(Tcp))]),
              When(c.dnsUdp && c.proxyUdp, [MarkRule(FWMARK, DnsBase(Udp))]));
      AppendWhen(c.mode != Enhance && c.dnsTcp && c.proxyTcp, Mangle, chain, MarkRule(FWMARK, DnsBase(Tcp)));
      AppendWhen(c.dnsUdp && c.proxyUdp, Mangle, chain, MarkRule(FWMARK, DnsBase(Udp)));
    }

    method ApplyMangleDnsRules(action: Action, chain: string)
      requires Valid()
      modifies this`issued, this`failed, this`script, manager
      ensures Valid() && script == old(script) + Appends(f, Mangle, chain, MangleDnsRules(c, action))
    {
      if c.dnsMode != DnsTproxy || DnsToMihomo(c) {
        AppendDnsReturns(chain);
        return;
      }
      match action {
        case ActTproxy => AppendDnsTproxies(chain);
        case ActMark => AppendDnsMarks(chain);
        case ActRedirect =>
      }
    }

    method ApplyFakeIp6Rules(action: Action, chain: string)
      requires Valid()
      modifies this`issued, this`failed, this`script, manager
      ensures Valid() && script == old(script) + Appends(f, Mangle, chain, FakeIp6Rules(c, f, action))
    {
      if f != V6 || c.fakeIp6 == None || c.coreName != "mihomo" {
        return;
      }
      var tcp, udp := Rule(Return, proto := Is(Tcp), dst := c.fakeIp6), Rule(Return, proto := Is(Udp), dst := c.fakeIp6);
      match action {
        case ActTproxy =>
          Onwards(script, f, Mangle, chain, When(TcpInMangle(c), [TproxyRule(c, tcp)]),
                  When(c.proxyUdp, [TproxyRule(c, udp)]));
          AppendWhen(c.mode != Enhance && c.proxyTcp, Mangle, chain, TproxyRule(c, tcp));
          AppendWhen(c.proxyUdp, Mangle, chain, TproxyRule(c, udp));
        case ActMark =>
          Onwards(script, f, Mangle, chain, When(TcpInMangle(c), [MarkRule(FWMARK, tcp)]),
                  When(c.proxyUdp, [MarkRule(FWMARK, udp)]));
          AppendWhen(c.mode != Enhance && c.proxyTcp, Mangle, chain, MarkRule(FWMARK, tcp));
          AppendWhen(c.proxyUdp, Mangle, chain, MarkRule(FWMARK, udp));
        case ActRedirect =>
      }
    }

    method AppendBlockedReturns(chain: string, inbound: bool)
      requires Valid()
      modifies this`issued, this`failed, this`script, manager
      ensures Valid() && script == old(script)
        + Appends(f, Nat, chain, When(inbound && f == V4, IfaceRules(c.blockedIfs, Return)))
    {
      if inbound && f == V4 {
        AppendIfaces(Nat, chain, Return);
      }
    }

    method AppendDnsNatRules(chain: string, hijack: bool, inbound: bool)
      requires Valid() && (!hijack ==> inbound)
      modifies this`issued, this`failed, this`script, manager
      ensures Valid() && script == old(script)
        + Appends(f, Nat, chain, if hijack then DnsHijackRules(c, f, inbound) else DnsForwardRules(c, f))
    {
      ghost var s, ifs := script, When(inbound && f == V4, IfaceRules(c.blockedIfs, Return));
      var tcp, udp := DnsBase(Tcp).(target := Redirect(c.dnsPort)), DnsBase(Udp).(target := Redirect(c.dnsPort));
      assert hijack ==> DnsHijackRules(c, f, inbound) == ifs + When(c.dnsTcp, [tcp]) + When(c.dnsUdp, [udp]);
      assert !hijack ==> DnsForwardRules(c, f) == ifs + When(c.dnsUdp, [udp]);
      hide *;
      AppendBlockedReturns(chain, inbound);
      if hijack {
        AppendWhen(c.dnsTcp, Nat, chain, tcp);
        Onwards(s, f, Nat, chain, ifs, When(c.dnsTcp, [tcp]));
        AppendWhen(c.dnsUdp, Nat, chain, udp);
        Onwards(s, f, Nat, chain, ifs + When(c.dnsTcp, [tcp]), When(c.dnsUdp, [udp]));
      } else {
        AppendWhen(c.dnsUdp, Nat, chain, udp);
        Onwards(s, f, Nat, chain, ifs, When(c.dnsUdp, [udp]));
      }
    }

    method SetupNatDnsChain()
      requires Valid()
      modifies this`issued, this`failed, this`script, manager
      ensures Valid() && script == old(script) + DnsHijackSetup(c, x, f)
    {
      ghost var s := script;
      var pre, out := HijackPre(f), HijackOut(f);
      ghost var p1, p2 := One(f, Nat, EnsureChain(pre)), One(f, Nat, EnsureChain(out));
      ghost var p3, p5 := Appends(f, Nat, pre, DnsHijackRules(c, f, true)), Appends(f, Nat, out, DnsHijackRules(c, f, false));
      ghost var p4 := One(f, Nat, InsertFirst(out, CoreBypassVariants(x), None));
      ghost var p6, p7 := One(f, Nat, EnsureJump("PREROUTING", pre)), One(f, Nat, EnsureJump("OUTPUT", out));
      hide DnsHijackRules, CoreBypassVariants, HijackPre, HijackOut, Appends;
      Require(Nat, EnsureChain(pre));
      Require(Nat, EnsureChain(out));
      Joined(s, p1, p2);
      AppendDnsNatRules(pre, true, true);
      Joined(s, p1 + p2, p3);
      Try(Nat, InsertFirst(out, CoreBypassVariants(x), None));
      Joined(s, p1 + p2 + p3, p4);
      AppendDnsNatRules(out, true, false);
      Joined(s, p1 + p2 + p3 + p4, p5);
      Require(Nat, EnsureJump("PREROUTING", pre));
      Joined(s, p1 + p2 + p3 + p4 + p5, p6);
      Require(Nat, EnsureJump("OUTPUT", out));
      Joined(s, p1 + p2 + p3 + p4 + p5 + p6, p7);
    }

    method SetupNatDnsForwardChain()
      requires Valid()
      modifies this`issued, this`failed, this`script, manager
      ensures Valid() && script == old(script) + DnsForwardSetup(c, x, f)
    {
      ghost var s := script;
      var chain := ForwardPre(f);
      ghost var p1, p2 := One(f, Nat, EnsureChain(chain)), One(f, Nat, InsertFirst(chain, CoreBypassVariants(x), None));
      ghost var p3, p4 := Appends(f, Nat, chain, DnsForwardRules(c, f)), One(f, Nat, EnsureJump("OUTPUT", chain));
      hide DnsForwardRules, CoreBypassVariants, ForwardPre, Appends;
      Require(Nat, EnsureChain(chain));
      Try(Nat, InsertFirst(chain, CoreBypassVariants(x), None));
      Joined(s, p1, p2);
      AppendDnsNatRules(chain, false, true);
      Joined(s, p1 + p2, p3);
      Require(Nat, EnsureJump("OUTPUT", chain));
      Joined(s, p1 + p2 + p3, p4);
    }

    method EnsureDnsNatHijack()
      requires Valid()
      modifies this`issued, this`failed, this`script, manager
      ensures Valid() && script == old(script) + DnsNatSetup(c, k, x, f)
    {
      if c.dnsMode != DnsRedirect && !DnsToMihomo(c) {
        return;
      }
      if f == V6 && !k.ip6Nat {
        return;
      }
      if c.dnsMode == DnsRedirect {
        SetupNatDnsChain();
      } else {
        SetupNatDnsForwardChain();
      }
    }

    // ----- TUN -----

    method AppendTunHotspot(chain: string, iface: string)
      requires Valid()
      modifies this`issued, this`failed, this`script, manager
      ensures Valid() && script == old(script) + Appends(f, Mangle, chain, TunHotspotRules(c, iface))
    {
      ghost var s, base := script, Rule(Return, inIf := Some(iface));
      if c.macWhitelist {
        AppendMacs(Mangle, chain, iface, SetMark(TUN_ROUTE));
        AppendMarkReturn(chain, TUN_BYPASS, Rule(Return, inIf := Some(iface)));
        Onwards(s, f, Mangle, chain, MacTargets(iface, c.macs, SetMark(TUN_ROUTE)), MarkReturn(TUN_BYPASS, base));
      } else {
        for i := 0 to |c.macs|
          invariant Valid()
          invariant script + Appends(f, Mangle, chain, TunMacReturns(iface, c.macs[i..]))
                 == s + Appends(f, Mangle, chain, TunMacReturns(iface, c.macs))
        {
          assert c.macs[i..][1..] == c.macs[i + 1..];
          ghost var r := Rule(Return, inIf := Some(iface), mac := Some(c.macs[i]));
          Onwards(script, f, Mangle, chain, MarkReturn(TUN_BYPASS, r), TunMacReturns(iface, c.macs[i + 1..]));
          AppendMarkReturn(chain, TUN_BYPASS, Rule(Return, inIf := Some(iface), mac := Some(c.macs[i])));
        }
        Append(Mangle, chain, Rule(SetMark(TUN_ROUTE), inIf := Some(iface)));
        Onwards(s, f, Mangle, chain, TunMacReturns(iface, c.macs), [Rule(SetMark(TUN_ROUTE), inIf := Some(iface))]);
      }
    }

    method AppendTunHotspots(chain: string)
      requires Valid()
      modifies this`issued, this`failed, this`script, manager
      ensures Valid() && script == old(script) + Appends(f, Mangle, chain, TunHotspotsRules(c, c.hotspotIfs))
    {
      for i := 0 to |c.hotspotIfs|
        invariant Valid()
        invariant script + Appends(f, Mangle, chain, TunHotspotsRules(c, c.hotspotIfs[i..]))
               == old(script) + Appends(f, Mangle, chain, TunHotspotsRules(c, c.hotspotIfs))
      {
        assert c.hotspotIfs[i..][1..] == c.hotspotIfs[i + 1..];
        Onwards(script, f, Mangle, chain, TunHotspotRules(c, c.hotspotIfs[i]), TunHotspotsRules(c, c.hotspotIfs[i + 1..]));
        AppendTunHotspot(chain, c.hotspotIfs[i]);
      }
    }

    method AppendTunBlocked(chain: string)
      requires Valid()
      modifies this`issued, this`failed, this`script, manager
      ensures Valid() && script == old(script) + Appends(f, Mangle, chain, TunBlockedRules(c.blockedIfs))
    {
      for i := 0 to |c.blockedIfs|
        invariant Valid()
        invariant script + Appends(f, Mangle, chain, TunBlockedRules(c.blockedIfs[i..]))
               == old(script) + Appends(f, Mangle, chain, TunBlockedRules(c.blockedIfs))
      {
        assert c.blockedIfs[i..][1..] == c.blockedIfs[i + 1..];
        ghost var r := Rule(Return, inIf := Some(c.blockedIfs[i]));
        Onwards(script, f, Mangle, chain, MarkReturn(TUN_BYPASS, r), TunBlockedRules(c.blockedIfs[i + 1..]));
        AppendMarkReturn(chain, TUN_BYPASS, Rule(Return, inIf := Some(c.blockedIfs[i])));
      }
    }

    method AppendTunInterfacePolicy(chain: string)
      requires Valid()
      modifies this`issued, this`failed, this`script, manager
      ensures Valid() && script == old(script) + Appends(f, Mangle, chain, TunInterfaceRules(c))
    {
      ghost var s, blocked, hot := script, TunBlockedRules(c.blockedIfs), TunHotspotsRules(c, c.hotspotIfs);
      TunInterfaceParts(c);
      hide *;
      AppendTunBlocked(chain);
      if !c.macFilter {
        return;
      }
      AppendTunHotspots(chain);
      Onwards(s, f, Mangle, chain, blocked, hot);
      Append(Mangle, chain, BypassMarked());
      Onwards(s, f, Mangle, chain, blocked + hot, [BypassMarked()]);
    }

    method AppendTunDnsRules(chain: string)
      requires Valid()
      modifies this`issued, this`failed, this`script, manager
      ensures Valid() && script == old(script) + Appends(f, Mangle, chain, TunDnsRules(c))
    {
      if c.dnsMode == DnsDisable {
        return;
      }
      Onwards(script, f, Mangle, chain, When(c.dnsTcp, MarkReturn(TUN_ROUTE, DnsBase(Tcp))),
              When(c.dnsUdp, MarkReturn(TUN_ROUTE, DnsBase(Udp))));
      if c.dnsTcp {
        AppendMarkReturn(chain, TUN_ROUTE, DnsBase(Tcp));
      }
      if c.dnsUdp {
        AppendMarkReturn(chain, TUN_ROUTE, DnsBase(Udp));
      }
    }

    method AppendTunFakeIpRoute(chain: string)
      requires Valid()
      modifies this`issued, this`failed, this`script, manager
      ensures Valid() && script == old(script) + Appends(f, Mangle, chain, TunFakeIpRules(c, f))
    {
      if FakeIp(c, f) == None {
        return;
      }
      AppendMarkReturn(chain, TUN_ROUTE, Rule(Return, dst := FakeIp(c, f)));
    }

    method AppendCnipMark(chain: string)
      requires Valid()
      modifies this`issued, this`failed, this`script, manager
      ensures Valid() && script == old(script) + Appends(f, Mangle, chain, CnipRule(c, k, f, chain, SetMark(TUN_BYPASS)))
    {
      var cn := CnipMatch(c, k, f, chain);
      if cn.Some? {
        Append(Mangle, chain, Rule(SetMark(TUN_BYPASS), ext := cn.value));
      }
    }

    method AppendTunDestinationRules(chain: string)
      requires Valid()
      modifies this`issued, this`failed, this`script, manager
      ensures Valid() && script == old(script) + Appends(f, Mangle, chain, TunDestinationRules(c, k, f, chain))
    {
      ghost var s, fake, nets := script, TunFakeIpRules(c, f), SubnetReturns(Subnets(c, f));
      ghost var cn, last := CnipRule(c, k, f, chain, SetMark(TUN_BYPASS)), Rule(SetMark(TUN_ROUTE));
      assert TunDestinationRules(c, k, f, chain) == fake + nets + cn + [BypassMarked(), last];
      assert [BypassMarked()] + [last] == [BypassMarked(), last];
      hide *;
      AppendTunFakeIpRoute(chain);
      AppendReturns(Mangle, chain, Subnets(c, f));
      Onwards(s, f, Mangle, chain, fake, nets);
      AppendCnipMark(chain);
      Onwards(s, f, Mangle, chain, fake + nets, cn);
      Onwards(script, f, Mangle, chain, [BypassMarked()], [last]);
      Append(Mangle, chain, BypassMarked());
      Append(Mangle, chain, Rule(SetMark(TUN_ROUTE)));
      Onwards(s, f, Mangle, chain, fake + nets + cn, [BypassMarked(), last]);
    }

    /** The flag says whether there was anything to list. */
    method AppendTunProxyModeRules(chain: string)
      requires Valid()
      modifies this`issued, this`failed, this`script, manager
      ensures Valid() && script == old(script) + Appends(f, Mangle, chain, TunProxyModeRules(c, x))
    {
      ghost var s := script;
      match c.proxyMode {
        case Core =>
        case Blacklist =>
          AppendUids(Mangle, chain, x.uids, Return);
          AppendGids(Mangle, chain, Return);
          Onwards(s, f, Mangle, chain, UidRules(x.uids, Return), GidRules(x.gids, Return));
        case Whitelist =>
          ghost var uids, gids := UidRules(x.uids, SetMark(TUN_ROUTE)), GidRules(x.gids, SetMark(TUN_ROUTE));
          var hasList := false;
          AppendUids(Mangle, chain, x.uids, SetMark(TUN_ROUTE));
          hasList := hasList || x.uids != [];
          AppendGids(Mangle, chain, SetMark(TUN_ROUTE));
          hasList := hasList || x.gids != [];
          Onwards(s, f, Mangle, chain, uids, gids);
          AppendWhen(hasList, Mangle, chain, Rule(Return));
          Onwards(s, f, Mangle, chain, uids + gids, When(hasList, [Rule(Return)]));
      }
    }

    method AppendTunForce(chain: string, base: Rule)
      requires Valid()
      modifies this`issued, this`failed, this`script, manager
      ensures Valid() && script == old(script) + Appends(f, Mangle, chain, TunForceRules(c, base))
    {
      var tcp, udp := base.(proto := Is(Tcp)), base.(proto := Is(Udp));
      Onwards(script, f, Mangle, chain, When(c.proxyTcp, MarkReturn(TUN_ROUTE, tcp)),
              When(c.proxyUdp, MarkReturn(TUN_ROUTE, udp)));
      if c.proxyTcp {
        AppendMarkReturn(chain, TUN_ROUTE, tcp);
      }
      if c.proxyUdp {
        AppendMarkReturn(chain, TUN_ROUTE, udp);
      }
    }

    method AppendCnipForceTun(chain: string)
      requires Valid()
      modifies this`issued, this`failed, this`script, manager
      ensures Valid() && script == old(script) + Appends(f, Mangle, chain, CnipForceTunRules(c, k, x, f, chain))
    {
      if !c.bypassCn || x.forceUids == [] || !CnipEnabled(c, k, f) {
        return;
      }
      if c.cnipMode == ByEbpf {
        AppendTunForce(chain, Rule(Return, ext := Pinned(ForcePin(f))));
        return;
      }
      var e := CnipMatch(c, k, f, chain).value;
      for i := 0 to |x.forceUids|
        invariant Valid()
        invariant script + Appends(f, Mangle, chain, TunForceUidRules(c, e, x.forceUids[i..]))
               == old(script) + Appends(f, Mangle, chain, TunForceUidRules(c, e, x.forceUids))
      {
        assert x.forceUids[i..][1..] == x.forceUids[i + 1..];
        Onwards(script, f, Mangle, chain, TunForceRules(c, UidRule(x.forceUids[i], Return).(ext := e)),
                TunForceUidRules(c, e, x.forceUids[i + 1..]));
        AppendTunForce(chain, UidRule(x.forceUids[i], Return).(ext := e));
      }
    }

    method AppendTunPre(chain: string)
      requires Valid() && chain == TunPreChain(f)
      modifies this`issued, this`failed, this`script, manager
      ensures Valid() && script == old(script) + Appends(f, Mangle, chain, TunPreRules(c, k, f))
    {
      ghost var s, own := script, [Rule(Return, inIf := Some(c.tunDevice))];
      assert chain == TunPreChain(f);
      hide TunInterfaceRules, TunDnsRules, TunDestinationRules, TunPreChain;
      Append(Mangle, chain, Rule(Return, inIf := Some(c.tunDevice)));
      AppendTunInterfacePolicy(chain);
      Onwards(s, f, Mangle, chain, own, TunInterfaceRules(c));
      AppendTunDnsRules(chain);
      Onwards(s, f, Mangle, chain, own + TunInterfaceRules(c), TunDnsRules(c));
      AppendTunDestinationRules(chain);
      Onwards(s, f, Mangle, chain, own + TunInterfaceRules(c) + TunDnsRules(c), TunDestinationRules(c, k, f, chain));
    }

    method AppendTunOut(chain: string)
      requires Valid() && chain == TunOutChain(f)
      modifies this`issued, this`failed, this`script, manager
      ensures Valid() && script == old(script) + Appends(f, Mangle, chain, TunOutRules(c, k, x, f))
    {
      ghost var s, dns, force := script, TunDnsRules(c), CnipForceTunRules(c, k, x, f, chain);
      assert chain == TunOutChain(f);
      hide TunDnsRules, CnipForceTunRules, TunProxyModeRules, TunDestinationRules, TunOutChain;
      AppendTunDnsRules(chain);
      AppendCnipForceTun(chain);
      Onwards(s, f, Mangle, chain, dns, force);
      AppendTunProxyModeRules(chain);
      Onwards(s, f, Mangle, chain, dns + force, TunProxyModeRules(c, x));
      AppendTunDestinationRules(chain);
      Onwards(s, f, Mangle, chain, dns + force + TunProxyModeRules(c, x), TunDestinationRules(c, k, f, chain));
    }

    // ----- setups -----

    method SetupLocalChainCommon(t: TableName)
      requires Valid()
      modifies this`issued, this`failed, this`script, manager
      ensures Valid() && script == old(script) + LocalChainStart(x, f, t)
    {
      ghost var s := script;
      Require(t, EnsureChain(LOCAL));
      Try(t, InsertFirst(LOCAL, CoreBypassVariants(x), Some(Rule(Return, mark := Some(FWMARK)))));
      Joined(s, One(f, t, EnsureChain(LOCAL)),
              One(f, t, InsertFirst(LOCAL, CoreBypassVariants(x), Some(Rule(Return, mark := Some(FWMARK))))));
    }

    method AppendExternalPrefix()
      requires Valid()
      modifies this`issued, this`failed, this`script, manager
      ensures Valid() && script == old(script) + Appends(f, Mangle, EXTERNAL, ExternalPrefix(c, k, f, ActTproxy))
    {
      ghost var s := script;
      ghost var r1 := ReplyBypass(c, k);
      ghost var r2 := MangleDnsRules(c, ActTproxy);
      ghost var r3 := FakeIp6Rules(c, f, ActTproxy);
      hide ReplyBypass, MangleDnsRules, FakeIp6Rules, Appends;
      ReplyBypassRules(Mangle, EXTERNAL);
      ApplyMangleDnsRules(ActTproxy, EXTERNAL);
      Onwards(s, f, Mangle, EXTERNAL, r1, r2);
      ApplyFakeIp6Rules(ActTproxy, EXTERNAL);
      Onwards(s, f, Mangle, EXTERNAL, r1 + r2, r3);
    }

    /** The body every external chain shares; the local-IP chain it jumps to comes first. */
    method AppendExternalBody(action: Action)
      requires Valid() && action != ActMark
      modifies this`issued, this`failed, this`built, this`script, manager
      ensures Valid() && built == old(built) + {Home(action)}
      ensures script == old(script) + LocalIpSteps(c, k, f, Home(action), old(built))
        + Appends(f, Home(action), EXTERNAL, ExternalBody(c, k, f, action))
    {
      hide ExternalLoopbackRules, ExternalApRules, CommonBypassRules, IfaceRules, Appends, LocalIpSteps;
      var t := Home(action);
      ghost var s := script + LocalIpSteps(c, k, f, t, built);
      ghost var r1, r2 := CommonBypassRules(c, k, f, EXTERNAL), IfaceRules(c.blockedIfs, Return);
      ghost var r3, r4 := ExternalLoopbackRules(c, action), ExternalApRules(c, action);
      AppendCommonBypassRules(t, EXTERNAL);
      AppendIfaces(t, EXTERNAL, Return);
      Onwards(s, f, t, EXTERNAL, r1, r2);
      ApplyExternalLoopbackRule(action, EXTERNAL);
      Onwards(s, f, t, EXTERNAL, r1 + r2, r3);
      ApplyExternalApRules(action, EXTERNAL);
      Onwards(s, f, t, EXTERNAL, r1 + r2 + r3, r4);
    }

    method SetupRedirectExternalChain()
      requires Valid() && built == {}
      modifies this`issued, this`failed, this`built, this`script, manager
      ensures Valid() && built == {Nat} && script == old(script) + RedirectExternalSetup(c, k, x, f)
    {
      ghost var s := script;
      ghost var p1 := One(f, Nat, EnsureChain(EXTERNAL));
      ghost var p2 := Appends(f, Nat, EXTERNAL, ReplyBypass(c, k));
      ghost var p3 := DnsNatSetup(c, k, x, f);
      ghost var p4 := LocalIpSetup(c, k, f, Nat);
      ghost var p5 := Appends(f, Nat, EXTERNAL, ExternalBody(c, k, f, ActRedirect));
      ghost var p6 := One(f, Nat, EnsureJump("PREROUTING", EXTERNAL));
      assert LocalIpSteps(c, k, f, Nat, {}) == p4 && Home(ActRedirect) == Nat && {} + {Nat} == {Nat};
      assert RedirectExternalSetup(c, k, x, f) == p1 + p2 + p3 + p4 + p5 + p6;
      hide *;
      Require(Nat, EnsureChain(EXTERNAL));
      ReplyBypassRules(Nat, EXTERNAL);
      Joined(s, p1, p2);
      EnsureDnsNatHijack();
      Joined(s, p1 + p2, p3);
      AppendExternalBody(ActRedirect);
      Joined(s, p1 + p2 + p3, p4);
      Joined(s, p1 + p2 + p3 + p4, p5);
      Require(Nat, EnsureJump("PREROUTING", EXTERNAL));
      Joined(s, p1 + p2 + p3 + p4 + p5, p6);
    }

    method AppendRedirectLocal()
      requires Valid() && Nat in built
      modifies this`issued, this`failed, this`built, this`script, manager
      ensures Valid() && built == old(built)
      ensures script == old(script) + Appends(f, Nat, LOCAL, RedirectLocalRules(c, k, x, f))
    {
      ghost var s, r1, r2 := script, ReplyBypass(c, k), CnipForceLocalRules(c, k, x, f, LOCAL, ActRedirect);
      ghost var r3, r4 := CommonBypassRules(c, k, f, LOCAL), LocalProxyRules(c, x, f, ActRedirect);
      assert LocalIpSteps(c, k, f, Nat, built) == [] && built + {Nat} == built && Home(ActRedirect) == Nat;
      assert RedirectLocalRules(c, k, x, f) == r1 + r2 + r3 + r4;
      hide *;
      ReplyBypassRules(Nat, LOCAL);
      AppendCnipForceLocal(ActRedirect, LOCAL);
      Onwards(s, f, Nat, LOCAL, r1, r2);
      assert script + [] == script;
      AppendCommonBypassRules(Nat, LOCAL);
      Onwards(s, f, Nat, LOCAL, r1 + r2, r3);
      ApplyLocalProxyRules(ActRedirect, LOCAL);
      Onwards(s, f, Nat, LOCAL, r1 + r2 + r3, r4);
    }

    method SetupRedirectLocalChain()
      requires Valid() && Nat in built
      modifies this`issued, this`failed, this`built, this`script, manager
      ensures Valid() && built == old(built) && script == old(script) + RedirectLocalSetup(c, k, x, f)
    {
      ghost var s := script;
      ghost var p1 := LocalChainStart(x, f, Nat);
      ghost var p2 := Appends(f, Nat, LOCAL, RedirectLocalRules(c, k, x, f));
      ghost var p3 := One(f, Nat, EnsureJump("OUTPUT", LOCAL));
      assert RedirectLocalSetup(c, k, x, f) == p1 + p2 + p3;
      hide *;
      SetupLocalChainCommon(Nat);
      AppendRedirectLocal();
      Joined(s, p1, p2);
      Require(Nat, EnsureJump("OUTPUT", LOCAL));
      Joined(s, p1 + p2, p3);
    }

    method StartRedirect()
      requires Valid() && built == {}
      modifies this`issued, this`failed, this`built, this`script, manager
      ensures Valid() && script == old(script) + RuleScripts.StartRedirect(c, k, x, f)
      ensures built <= old(built) + {Nat}
    {
      if f == V6 && !k.ip6Nat {
        return;
      }
      ghost var s, a, b := script, RedirectExternalSetup(c, k, x, f), RedirectLocalSetup(c, k, x, f);
      hide RedirectExternalSetup, RedirectLocalSetup, LoopbackRejects;
      SetupRedirectExternalChain();
      SetupRedirectLocalChain();
      Joined(s, a, b);
      Try(Filter, EnsureFirst("OUTPUT", LoopbackRejects(x, f, c.redirPort)));
      Joined(s, a + b, LoopbackRejectSetup(x, f, c.redirPort));
    }

    method AppendConnmarkDispatches()
      requires Valid()
      modifies this`issued, this`failed, this`script, manager
      ensures Valid() && script == old(script) + Appends(f, Mangle, EXTERNAL, ConnmarkDispatches(c))
    {
      Onwards(script, f, Mangle, EXTERNAL, When(TcpInMangle(c), [TproxyRule(c, Connmarked(Tcp))]),
              When(c.proxyUdp, [TproxyRule(c, Connmarked(Udp))]));
      AppendWhen(c.mode != Enhance && c.proxyTcp, Mangle, EXTERNAL, TproxyRule(c, Connmarked(Tcp)));
      AppendWhen(c.proxyUdp, Mangle, EXTERNAL, TproxyRule(c, Connmarked(Udp)));
    }

    method AppendConnmarkMarks()
      requires Valid()
      modifies this`issued, this`failed, this`script, manager
      ensures Valid() && script == old(script) + Appends(f, Mangle, LOCAL, ConnmarkMarks(c))
    {
      Onwards(script, f, Mangle, LOCAL, When(TcpInMangle(c), [MarkRule(FWMARK, Connmarked(Tcp))]),
              When(c.proxyUdp, [MarkRule(FWMARK, Connmarked(Udp))]));
      AppendWhen(c.mode != Enhance && c.proxyTcp, Mangle, LOCAL, MarkRule(FWMARK, Connmarked(Tcp)));
      AppendWhen(c.proxyUdp, Mangle, LOCAL, MarkRule(FWMARK, Connmarked(Udp)));
    }

    method AppendPerfExternal()
      requires Valid()
      modifies this`issued, this`failed, this`script, manager
      ensures Valid() && script == old(script) + Appends(f, Mangle, EXTERNAL, PerfExternalRules(c, k, f))
    {
      ghost var s, r1, r2 := script, ExternalPrefix(c, k, f, ActTproxy), AllPerfJumps(c, [TP_PRE_IP, TP_PRE_IF]);
      ghost var r3, r4 := ConnmarkSets(c), ConnmarkDispatches(c);
      PerfExternalSplit(c, k, f);
      hide *;
      AppendExternalPrefix();
      AddPerfChainJumps(EXTERNAL, [TP_PRE_IP, TP_PRE_IF]);
      Onwards(s, f, Mangle, EXTERNAL, r1, r2);
      AppendConnmarkRules(EXTERNAL);
      Onwards(s, f, Mangle, EXTERNAL, r1 + r2, r3);
      AppendConnmarkDispatches();
      Onwards(s, f, Mangle, EXTERNAL, r1 + r2 + r3, r4);
    }

    method SetupTproxyPerfExternalChain()
      requires Valid() && PerformanceChain(c, k)
      modifies this`issued, this`failed, this`script, manager
      ensures Valid() && script == old(script) + TproxyExternalSetup(c, k, f)
    {
      hide *;
      ghost var s := script;
      FastExternalSplit(c, k, f);
      ghost var p1 := One(f, Mangle, EnsureChain(EXTERNAL));
      ghost var p2 := PerfDestSetup(c, k, f, TP_PRE_IP);
      ghost var p3 := PerfIfSetup(c, f, TP_PRE_IF);
      ghost var p4 := Appends(f, Mangle, EXTERNAL, PerfExternalRules(c, k, f));
      ghost var p5 := One(f, Mangle, EnsureJump("PREROUTING", EXTERNAL));
      Require(Mangle, EnsureChain(EXTERNAL));
      SetupPerfDestChain(TP_PRE_IP);
      Joined(s, p1, p2);
      SetupPerfPreIfChain(TP_PRE_IF);
      Joined(s, p1 + p2, p3);
      AppendPerfExternal();
      Joined(s, p1 + p2 + p3, p4);
      Require(Mangle, EnsureJump("PREROUTING", EXTERNAL));
      Joined(s, p1 + p2 + p3 + p4, p5);
    }

    method SetupTproxyStandardExternalChain()
      requires Valid() && !PerformanceChain(c, k) && Mangle !in built
      modifies this`issued, this`failed, this`built, this`script, manager
      ensures Valid() && built == old(built) + {Mangle} && script == old(script) + TproxyExternalSetup(c, k, f)
    {
      ghost var s := script;
      ghost var p1 := One(f, Mangle, EnsureChain(EXTERNAL));
      ghost var p2 := Appends(f, Mangle, EXTERNAL, ExternalPrefix(c, k, f, ActTproxy));
      ghost var p3 := LocalIpSetup(c, k, f, Mangle);
      ghost var p4 := Appends(f, Mangle, EXTERNAL, ExternalBody(c, k, f, ActTproxy));
      ghost var p5 := One(f, Mangle, EnsureJump("PREROUTING", EXTERNAL));
      assert LocalIpSteps(c, k, f, Mangle, built) == p3 && Home(ActTproxy) == Mangle;
      SlowExternalParts(c, k, f);
      hide *;
      Require(Mangle, EnsureChain(EXTERNAL));
      AppendExternalPrefix();
      Joined(s, p1, p2);
      AppendExternalBody(ActTproxy);
      Joined(s, p1 + p2, p3);
      Joined(s, p1 + p2 + p3, p4);
      Require(Mangle, EnsureJump("PREROUTING", EXTERNAL));
      Joined(s, p1 + p2 + p3 + p4, p5);
    }

    method SetupTproxyExternalChain()
      requires Valid() && Mangle !in built
      modifies this`issued, this`failed, this`built, this`script, manager
      ensures Valid() && script == old(script) + TproxyExternalSetup(c, k, f)
      ensures !PerformanceChain(c, k) ==> Mangle in built
    {
      if PerformanceChain(c, k) {
        SetupTproxyPerfExternalChain();
      } else {
        SetupTproxyStandardExternalChain();
      }
    }

    method AppendPerfLocal()
      requires Valid()
      modifies this`issued, this`failed, this`script, manager
      ensures Valid() && script == old(script) + Appends(f, Mangle, LOCAL, PerfLocalRules(c, k, x, f))
    {
      ghost var s, r1, r2 := script, ReplyBypass(c, k), FakeIp6Rules(c, f, ActMark);
      ghost var r3, r4 := CnipForceLocalRules(c, k, x, f, LOCAL, ActMark), AllPerfJumps(c, [TP_OUT_IP, TP_OUT_APP]);
      ghost var r5, r6, r7 := MangleDnsRules(c, ActMark), ConnmarkSets(c), ConnmarkMarks(c);
      assert Home(ActMark) == Mangle;
      PerfLocalSplit(c, k, x, f);
      hide *;
      ReplyBypassRules(Mangle, LOCAL);
      ApplyFakeIp6Rules(ActMark, LOCAL);
      Onwards(s, f, Mangle, LOCAL, r1, r2);
      AppendCnipForceLocal(ActMark, LOCAL);
      Onwards(s, f, Mangle, LOCAL, r1 + r2, r3);
      AddPerfChainJumps(LOCAL, [TP_OUT_IP, TP_OUT_APP]);
      Onwards(s, f, Mangle, LOCAL, r1 + r2 + r3, r4);
      ApplyMangleDnsRules(ActMark, LOCAL);
      Onwards(s, f, Mangle, LOCAL, r1 + r2 + r3 + r4, r5);
      AppendConnmarkRules(LOCAL);
      Onwards(s, f, Mangle, LOCAL, r1 + r2 + r3 + r4 + r5, r6);
      AppendConnmarkMarks();
      Onwards(s, f, Mangle, LOCAL, r1 + r2 + r3 + r4 + r5 + r6, r7);
    }

    method SetupTproxyPerfLocalChain()
      requires Valid() && PerformanceChain(c, k)
      modifies this`issued, this`failed, this`script, manager
      ensures Valid() && script == old(script) + TproxyLocalSetup(c, k, x, f)
    {
      hide *;
      ghost var s, p1, jump := script, LocalChainStart(x, f, Mangle), One(f, Mangle, EnsureJump("OUTPUT", LOCAL));
      ghost var p2 := PerfDestSetup(c, k, f, TP_OUT_IP);
      ghost var p3 := One(f, Mangle, EnsureChain(TP_OUT_APP)) + Appends(f, Mangle, TP_OUT_APP, PerfAppRules(c, x, f));
      ghost var p4 := Appends(f, Mangle, LOCAL, PerfLocalRules(c, k, x, f));
      LocalSetupSplit(c, k, x, f);
      FastLocalSplit(c, k, x, f);
      FourJoined(p1, p2, p3, p4);
      SetupLocalChainCommon(Mangle);
      SetupPerfDestChain(TP_OUT_IP);
      Joined(s, p1, p2);
      SetupPerfOutAppChain(TP_OUT_APP);
      Joined(s, p1 + p2, p3);
      AppendPerfLocal();
      Joined(s, p1 + p2 + p3, p4);
      Require(Mangle, EnsureJump("OUTPUT", LOCAL));
      Joined(s, p1 + p2 + p3 + p4, jump);
    }

    method AppendTproxyLocalFront()
      requires Valid()
      modifies this`issued, this`failed, this`script, manager
      ensures Valid() && script == old(script) + Appends(f, Mangle, LOCAL, ReplyBypass(c, k) + MangleDnsRules(c, ActMark)
                                                         + FakeIp6Rules(c, f, ActMark) + CnipForceLocalRules(c, k, x, f, LOCAL, ActMark))
    {
      ghost var s, r1, r2, r3 := script, ReplyBypass(c, k), MangleDnsRules(c, ActMark), FakeIp6Rules(c, f, ActMark);
      ghost var r4 := CnipForceLocalRules(c, k, x, f, LOCAL, ActMark);
      assert Home(ActMark) == Mangle;
      hide *;
      ReplyBypassRules(Mangle, LOCAL);
      ApplyMangleDnsRules(ActMark, LOCAL);
      Onwards(s, f, Mangle, LOCAL, r1, r2);
      ApplyFakeIp6Rules(ActMark, LOCAL);
      Onwards(s, f, Mangle, LOCAL, r1 + r2, r3);
      AppendCnipForceLocal(ActMark, LOCAL);
      Onwards(s, f, Mangle, LOCAL, r1 + r2 + r3, r4);
    }

    method AppendTproxyLocal()
      requires Valid() && Mangle in built
      modifies this`issued, this`failed, this`built, this`script, manager
      ensures Valid() && script == old(script) + Appends(f, Mangle, LOCAL, TproxyLocalRules(c, k, x, f))
    {
      ghost var s, r1, r2, r3 := script, ReplyBypass(c, k), MangleDnsRules(c, ActMark), FakeIp6Rules(c, f, ActMark);
      ghost var r4, r5 := CnipForceLocalRules(c, k, x, f, LOCAL, ActMark), CommonBypassRules(c, k, f, LOCAL);
      ghost var r6 := LocalProxyRules(c, x, f, ActMark);
      assert LocalIpSteps(c, k, f, Mangle, built) == [] && Home(ActMark) == Mangle;
      assert TproxyLocalRules(c, k, x, f) == r1 + r2 + r3 + r4 + r5 + r6;
      hide *;
      AppendTproxyLocalFront();
      assert script + [] == script;
      AppendCommonBypassRules(Mangle, LOCAL);
      Onwards(s, f, Mangle, LOCAL, r1 + r2 + r3 + r4, r5);
      ApplyLocalProxyRules(ActMark, LOCAL);
      Onwards(s, f, Mangle, LOCAL, r1 + r2 + r3 + r4 + r5, r6);
    }

    method SetupTproxyLocalChain()
      requires Valid() && (!PerformanceChain(c, k) ==> Mangle in built)
      modifies this`issued, this`failed, this`built, this`script, manager
      ensures Valid() && script == old(script) + TproxyLocalSetup(c, k, x, f)
    {
      if PerformanceChain(c, k) {
        SetupTproxyPerfLocalChain();
        return;
      }
      ghost var s, p1, jump := script, LocalChainStart(x, f, Mangle), One(f, Mangle, EnsureJump("OUTPUT", LOCAL));
      ghost var p2 := Appends(f, Mangle, LOCAL, TproxyLocalRules(c, k, x, f));
      LocalSetupSplit(c, k, x, f);
      hide *;
      SetupLocalChainCommon(Mangle);
      AppendTproxyLocal();
      Joined(s, p1, p2);
      Require(Mangle, EnsureJump("OUTPUT", LOCAL));
      Joined(s, p1 + p2, jump);
    }

    method CleanupDivert()
      requires Valid()
      modifies this`issued, this`failed, this`script, manager
      ensures Valid() && script == old(script) + DivertCleanup(f)
    {
      ghost var s, a := script, One(f, Mangle, DelRule("PREROUTING", DivertJump()));
      ghost var b := One(f, Mangle, DelRule("PREROUTING", LegacyDivertJump()));
      Try(Mangle, DelRule("PREROUTING", DivertJump()));
      Try(Mangle, DelRule("PREROUTING", LegacyDivertJump()));
      Joined(s, a, b);
      Try(Mangle, CleanupChain(DIVERT));
      Joined(s, a + b, One(f, Mangle, CleanupChain(DIVERT)));
    }

    method SetupDivertChain()
      requires Valid()
      modifies this`issued, this`failed, this`script, manager
      ensures Valid() && script == old(script) + DivertSetup(c, k, f)
    {
      if c.mode == Enhance || !k.socketMatch || !PerformanceChain(c, k) {
        CleanupDivert();
        return;
      }
      ghost var s, a := script, One(f, Mangle, EnsureChain(DIVERT));
      ghost var b := Appends(f, Mangle, DIVERT, [Rule(SetMark(FWMARK)), Rule(Accept)]);
      Require(Mangle, EnsureChain(DIVERT));
      Onwards(script, f, Mangle, DIVERT, [Rule(SetMark(FWMARK))], [Rule(Accept)]);
      assert [Rule(SetMark(FWMARK))] + [Rule(Accept)] == [Rule(SetMark(FWMARK)), Rule(Accept)];
      Append(Mangle, DIVERT, Rule(SetMark(FWMARK)));
      Append(Mangle, DIVERT, Rule(Accept));
      Joined(s, a, b);
      Try(Mangle, EnsureInsert("PREROUTING", DivertJump()));
      Joined(s, a + b, One(f, Mangle, EnsureInsert("PREROUTING", DivertJump())));
    }

    /** Either rule may fail without the other. */
    method ApplyQuicBlockRules()
      requires Valid()
      modifies this`issued, this`failed, this`script, manager
      ensures Valid() && script == old(script) + QuicSetup(c, f)
    {
      if !c.quicDisabled || !c.proxyUdp {
        return;
      }
      BuiltinsAreNotCustom("OUTPUT");
      hide IsBoxCustomChain, Follows;
      ghost var s, a := script, One(f, Filter, EnsureAppend("OUTPUT", QuicReject(443)));
      ghost var b := One(f, Filter, EnsureAppend("OUTPUT", QuicReject(80)));
      Try(Filter, EnsureAppend("OUTPUT", QuicReject(443)));
      Try(Filter, EnsureAppend("OUTPUT", QuicReject(80)));
      assert Appends(f, Filter, "OUTPUT", [QuicReject(443), QuicReject(80)]) == a + b;
      Joined(s, a, b);
    }

    method SetupFakeIpIcmpRules()
      requires Valid()
      modifies this`issued, this`failed, this`script, manager
      ensures Valid() && script == old(script) + FakeIpIcmpSetup(c, f)
    {
      if f != V4 || c.fakeIp4 == None || (c.coreName != "mihomo" && c.coreName != "sing-box") {
        return;
      }
      ghost var s, r := script, FakeIpIcmp(c.fakeIp4.value);
      Try(Nat, EnsureInsert("OUTPUT", FakeIpIcmp(c.fakeIp4.value)));
      Try(Nat, EnsureInsert("PREROUTING", FakeIpIcmp(c.fakeIp4.value)));
      Joined(s, One(f, Nat, EnsureInsert("OUTPUT", r)), One(f, Nat, EnsureInsert("PREROUTING", r)));
    }

    method Forward()
      requires Valid()
      modifies this`issued, this`failed, this`script, manager
      ensures Valid() && script == old(script) + ForwardSetup(c, f)
    {
      ghost var s, rules := script, ForwardRules(c);
      Try(Filter, EnsureInsert("FORWARD", ForwardRules(c)[0]));
      Try(Filter, EnsureInsert("FORWARD", ForwardRules(c)[1]));
      Joined(s, One(f, Filter, EnsureInsert("FORWARD", rules[0])), One(f, Filter, EnsureInsert("FORWARD", rules[1])));
    }

    /** The policy routing goes in front. */
    method StartTproxy()
      requires Valid() && Mangle !in built
      modifies this`issued, this`failed, this`built, this`script, manager
      ensures Valid() && script == old(script) + RuleScripts.StartTproxy(c, k, x, f)
    {
      hide *;
      StartTproxyParts(c, k, x, f);
      if !TproxySupported(k, f) {
        Fail();
        return;
      }
      ghost var s0 := script;
      SetupTproxyPolicyRouting();
      ghost var s, p1, p2 := script, TproxyExternalSetup(c, k, f), TproxyLocalSetup(c, k, x, f);
      ghost var p3, p4 := DivertSetup(c, k, f), QuicSetup(c, f);
      ghost var p5 := if c.mode != Enhance then LoopbackRejectSetup(x, f, c.tproxyPort) else [];
      ghost var p6, p7 := DnsNatSetup(c, k, x, f), FakeIpIcmpSetup(c, f);
      SetupTproxyExternalChain();
      SetupTproxyLocalChain();
      Joined(s, p1, p2);
      SetupDivertChain();
      Joined(s, p1 + p2, p3);
      ApplyQuicBlockRules();
      Joined(s, p1 + p2 + p3, p4);
      if c.mode != Enhance {
        AttemptsNotNeeded(f, Filter, EnsureFirst("OUTPUT", LoopbackRejects(x, f, c.tproxyPort)));
        Try(Filter, EnsureFirst("OUTPUT", LoopbackRejects(x, f, c.tproxyPort)));
      } else {
        assert script + [] == script;
      }
      Joined(s, p1 + p2 + p3 + p4, p5);
      EnsureDnsNatHijack();
      Joined(s, p1 + p2 + p3 + p4 + p5, p6);
      SetupFakeIpIcmpRules();
      Joined(s, p1 + p2 + p3 + p4 + p5 + p6, p7);
      Joined(s0, TproxyRouting(f), p1 + p2 + p3 + p4 + p5 + p6 + p7);
    }

    /** Here it comes last. */
    method StartTunBypass()
      requires Valid()
      modifies this`issued, this`failed, this`script, manager
      ensures Valid() && script == old(script) + RuleScripts.StartTunBypass(c, k, x, f)
    {
      hide *;
      ghost var s := script;
      var pre, out := TunPreChain(f), TunOutChain(f);
      ghost var p1, p2 := One(f, Mangle, EnsureChain(pre)), One(f, Mangle, EnsureChain(out));
      ghost var p3, p5 := Appends(f, Mangle, pre, TunPreRules(c, k, f)), Appends(f, Mangle, out, TunOutRules(c, k, x, f));
      ghost var p4 := One(f, Mangle, AppendFirst(out, CoreBypassVariants(x)));
      ghost var p6, p7 := One(f, Mangle, EnsureJump("PREROUTING", pre)), One(f, Mangle, EnsureJump("OUTPUT", out));
      StartTunParts(c, k, x, f);
      Require(Mangle, EnsureChain(pre));
      Require(Mangle, EnsureChain(out));
      Joined(s, p1, p2);
      AppendTunPre(pre);
      Joined(s, p1 + p2, p3);
      AttemptsNotNeeded(f, Mangle, AppendFirst(out, CoreBypassVariants(x)));
      Try(Mangle, AppendFirst(out, CoreBypassVariants(x)));
      Joined(s, p1 + p2 + p3, p4);
      AppendTunOut(out);
      Joined(s, p1 + p2 + p3 + p4, p5);
      Require(Mangle, EnsureJump("PREROUTING", pre));
      Joined(s, p1 + p2 + p3 + p4 + p5, p6);
      Require(Mangle, EnsureJump("OUTPUT", out));
      Joined(s, p1 + p2 + p3 + p4 + p5 + p6, p7);
      ApplyTunRouteRules();
      Joined(s, p1 + p2 + p3 + p4 + p5 + p6 + p7, TunRouting(f));
    }

    method StopTunBypass()
      requires Valid()
      modifies this`issued, this`failed, this`script, manager
      ensures Valid() && script == old(script) + RuleScripts.StopTunBypass(f)
    {
      ghost var s0 := script;
      CleanupByIp();
      ghost var s := script;
      var pre, out := TunPreChain(f), TunOutChain(f);
      ghost var p1 := One(f, Mangle, DelRule("PREROUTING", Rule(Jump(pre))));
      ghost var p2 := One(f, Mangle, DelRule("OUTPUT", Rule(Jump(out))));
      ghost var p3, p4 := One(f, Mangle, CleanupChain(pre)), One(f, Mangle, CleanupChain(out));
      StopTunParts(f);
      hide *;
      Try(Mangle, DelRule("PREROUTING", Rule(Jump(pre))));
      Try(Mangle, DelRule("OUTPUT", Rule(Jump(out))));
      Joined(s, p1, p2);
      Joined(script, p3, p4);
      Try(Mangle, CleanupChain(pre));
      Try(Mangle, CleanupChain(out));
      Joined(s, p1 + p2, p3 + p4);
      Joined(s0, IpCleanup(f), p1 + p2 + (p3 + p4));
    }

    /**
     One family of an apply: whatever the mode, settings, capabilities and lists, the
     operations issued are the mode's script, or its beginning up to the first
     required operation that failed.  Enhance mode stops early where its redirect
     half fails.
     */
    method ApplyFamily() returns (early: bool)
      requires Valid() && script == [] && built == {} && behind == []
      modifies this, manager
      ensures Valid() && script == (if early then RuleScripts.StartRedirect(c, k, x, f) else ModeSetup(c, k, x, f))
      ensures early ==> c.mode == Enhance && failed
      ensures !early && c.mode == Enhance ==> RuleScripts.StartRedirect(c, k, x, f) <= issued
    {
      hide RuleScripts.StartRedirect, RuleScripts.StartTproxy, RuleScripts.StartTunBypass, RuleScripts.StopTunBypass, ForwardSetup;
      hide Appends, One, RunOf, NeededOk;
      early := false;
      match c.mode {
        case RedirectOnly => StartRedirect();
        case TproxyOnly => StartTproxy();
        case Mixed =>
          Forward();
          StartRedirect();
        case Enhance =>
          StartRedirect();
          if failed {
            return true;
          }
          behind := issued;
          StartTproxy();
        case Tun =>
          Forward();
          if TunManaged(c) {
            StartTunBypass();
          } else {
            StopTunBypass();
          }
        case Ebpf =>
      }
    }
  }
}
