/**
 The DNS chains of nat: what a setup leaves in them, and what that does to a packet.
 */
module DnsPolicy {
  import opened Bytes
  import opened Netfilter
  import opened Batching
  import opened RuleConfig
  import opened RuleScripts
  import opened ChainContents
  import opened ExternalPolicy
  import opened LocalPolicy
  import opened SetupContents
  import opened InstalledPolicy
  import opened TeardownModes
  import opened Hooks
  import opened SetupHooks
  import Intent

  // ----- what the chains hold -----

  /** The rules of the chain a built-in chain leads to. */
  function DnsContent(refused: set<Rule>, c: Config, x: Context, f: Family, ch: string): seq<Rule> {
    var core := Variant(refused, CoreBypassVariants(x));
    if c.dnsMode != DnsRedirect then core + DnsForwardRules(c, f)
    else if ch == "PREROUTING" then DnsHijackRules(c, f, true)
    else core + DnsHijackRules(c, f, false)
  }

  predicate DnsChain(d: string, f: Family) { d == HijackPre(f) || d == HijackOut(f) || d == ForwardPre(f) }

  lemma DnsChainName(d: string, f: Family)
    requires DnsChain(d, f)
    ensures d != "PREROUTING" && d != "OUTPUT" && d != EXTERNAL && d != LOCAL && d != LocalIpChain(f) && d != DIVERT
    ensures IsBoxCustomChain(d)
  {
  }

  lemma DnsChainNames(f: Family)
    ensures HijackPre(f) != HijackOut(f)
    ensures HijackPre(f) != "PREROUTING" && HijackPre(f) != "OUTPUT" && HijackOut(f) != "PREROUTING" && HijackOut(f) != "OUTPUT"
    ensures ForwardPre(f) != "OUTPUT"
  {
  }

  /** The owner variants in front of an empty chain. */
  lemma CoreFronted(refused: set<Rule>, x: Context, f: Family, d: string)
    ensures Makes(refused, One(f, Nat, InsertFirst(d, CoreBypassVariants(x), None)), f, Nat, d, Some([]),
                  Some(Variant(refused, CoreBypassVariants(x))))
  {
    var s := Step(f, Nat, InsertFirst(d, CoreBypassVariants(x), None));
    var core := Variant(refused, CoreBypassVariants(x));
    hide CoreBypassVariants, Variant;
    assert [s][1..] == [] && Written(refused, [s][1..], Nat, d, Some(core)) == Some(core);
    assert core + [] == core && Builds(s, f, Nat, d);
  }

  lemma HijackPreMade(refused: set<Rule>, c: Config, x: Context, f: Family, h: Option<seq<Rule>>)
    ensures Makes(refused, DnsHijackSetup(c, x, f), f, Nat, HijackPre(f), h, Some(DnsHijackRules(c, f, true)))
  {
    var pre, out, rules := HijackPre(f), HijackOut(f), DnsHijackRules(c, f, true);
    var a, b, d := One(f, Nat, EnsureChain(pre)), One(f, Nat, EnsureChain(out)), Appends(f, Nat, pre, rules);
    var e, g := One(f, Nat, InsertFirst(out, CoreBypassVariants(x), None)), Appends(f, Nat, out, DnsHijackRules(c, f, false));
    var i, j := One(f, Nat, EnsureJump("PREROUTING", pre)), One(f, Nat, EnsureJump("OUTPUT", out));
    DnsChainNames(f);
    HijackParts(c, x, f);
    OneAside(f, Nat, EnsureChain(out), Nat, pre);
    OneAside(f, Nat, InsertFirst(out, CoreBypassVariants(x), None), Nat, pre);
    OneAside(f, Nat, EnsureJump("PREROUTING", pre), Nat, pre);
    OneAside(f, Nat, EnsureJump("OUTPUT", out), Nat, pre);
    hide *;
    AppendsAside(f, Nat, out, DnsHijackRules(c, f, false), Nat, pre);
    MadeEmpty(refused, f, Nat, pre, h);
    ThenAside(refused, a, b, f, Nat, pre, h, Some([]));
    MadeLonger(refused, f, Nat, pre, rules, []);
    assert [] + rules == rules;
    Then(refused, a + b, d, f, Nat, pre, h, Some([]), Some(rules));
    ThenAside(refused, a + b + d, e, f, Nat, pre, h, Some(rules));
    ThenAside(refused, a + b + d + e, g, f, Nat, pre, h, Some(rules));
    ThenAside(refused, a + b + d + e + g, i, f, Nat, pre, h, Some(rules));
    ThenAside(refused, a + b + d + e + g + i, j, f, Nat, pre, h, Some(rules));
  }

  lemma HijackOutMade(refused: set<Rule>, c: Config, x: Context, f: Family, h: Option<seq<Rule>>)
    ensures Makes(refused, DnsHijackSetup(c, x, f), f, Nat, HijackOut(f), h,
                  Some(Variant(refused, CoreBypassVariants(x)) + DnsHijackRules(c, f, false)))
  {
    var pre, out, core, rules := HijackPre(f), HijackOut(f), Variant(refused, CoreBypassVariants(x)), DnsHijackRules(c, f, false);
    var a, b, d := One(f, Nat, EnsureChain(pre)), One(f, Nat, EnsureChain(out)), Appends(f, Nat, pre, DnsHijackRules(c, f, true));
    var e, g := One(f, Nat, InsertFirst(out, CoreBypassVariants(x), None)), Appends(f, Nat, out, rules);
    var i, j := One(f, Nat, EnsureJump("PREROUTING", pre)), One(f, Nat, EnsureJump("OUTPUT", out));
    DnsChainNames(f);
    HijackParts(c, x, f);
    OneAside(f, Nat, EnsureChain(pre), Nat, out);
    OneAside(f, Nat, EnsureJump("PREROUTING", pre), Nat, out);
    OneAside(f, Nat, EnsureJump("OUTPUT", out), Nat, out);
    hide *;
    AppendsAside(f, Nat, pre, DnsHijackRules(c, f, true), Nat, out);
    MadeEmpty(refused, f, Nat, out, h);
    AsideThen(refused, a, b, f, Nat, out, h, Some([]));
    ThenAside(refused, a + b, d, f, Nat, out, h, Some([]));
    CoreFronted(refused, x, f, out);
    Then(refused, a + b + d, e, f, Nat, out, h, Some([]), Some(core));
    MadeLonger(refused, f, Nat, out, rules, core);
    Then(refused, a + b + d + e, g, f, Nat, out, h, Some(core), Some(core + rules));
    ThenAside(refused, a + b + d + e + g, i, f, Nat, out, h, Some(core + rules));
    ThenAside(refused, a + b + d + e + g + i, j, f, Nat, out, h, Some(core + rules));
  }

  lemma ForwardPreMade(refused: set<Rule>, c: Config, x: Context, f: Family, h: Option<seq<Rule>>)
    ensures Makes(refused, DnsForwardSetup(c, x, f), f, Nat, ForwardPre(f), h,
                  Some(Variant(refused, CoreBypassVariants(x)) + DnsForwardRules(c, f)))
  {
    var pre, core, rules := ForwardPre(f), Variant(refused, CoreBypassVariants(x)), DnsForwardRules(c, f);
    var a, b := One(f, Nat, EnsureChain(pre)), One(f, Nat, InsertFirst(pre, CoreBypassVariants(x), None));
    var d, e := Appends(f, Nat, pre, rules), One(f, Nat, EnsureJump("OUTPUT", pre));
    assert DnsForwardSetup(c, x, f) == a + b + d + e by {
      hide ForwardPre, Appends, One, CoreBypassVariants, DnsForwardRules;
    }
    DnsChainNames(f);
    OneAside(f, Nat, EnsureJump("OUTPUT", pre), Nat, pre);
    hide *;
    MadeEmpty(refused, f, Nat, pre, h);
    CoreFronted(refused, x, f, pre);
    Then(refused, a, b, f, Nat, pre, h, Some([]), Some(core));
    MadeLonger(refused, f, Nat, pre, rules, core);
    Then(refused, a + b, d, f, Nat, pre, h, Some(core), Some(core + rules));
    ThenAside(refused, a + b + d, e, f, Nat, pre, h, Some(core + rules));
  }

  lemma DnsMade(refused: set<Rule>, c: Config, k: Capabilities, x: Context, f: Family, ch: string, h: Option<seq<Rule>>)
    requires IsHook(ch) && DnsHook(c, k, f, ch).Some?
    ensures Makes(refused, DnsNatSetup(c, k, x, f), f, Nat, DnsHook(c, k, f, ch).value, h, Some(DnsContent(refused, c, x, f, ch)))
  {
    hide Makes, DnsHijackSetup, DnsForwardSetup, DnsHijackRules, DnsForwardRules, CoreBypassVariants, Variant, HijackPre, HijackOut, ForwardPre;
    HijackPreMade(refused, c, x, f, h);
    HijackOutMade(refused, c, x, f, h);
    ForwardPreMade(refused, c, x, f, h);
  }

  // ----- through the modes -----

  lemma HookIsDns(c: Config, k: Capabilities, f: Family, ch: string)
    requires DnsHook(c, k, f, ch).Some?
    ensures DnsChain(DnsHook(c, k, f, ch).value, f)
  {
    hide HijackPre, HijackOut, ForwardPre;
  }

  lemma ExternalMakesDns(refused: set<Rule>, c: Config, k: Capabilities, x: Context, f: Family, d: string,
                         h: Option<seq<Rule>>, made: Option<seq<Rule>>)
    requires DnsChain(d, f) && Makes(refused, DnsNatSetup(c, k, x, f), f, Nat, d, h, made)
    ensures Makes(refused, RedirectExternalSetup(c, k, x, f), f, Nat, d, h, made)
  {
    var first, dns := Appends(f, Nat, EXTERNAL, ReplyBypass(c, k)), DnsNatSetup(c, k, x, f);
    var local, more := LocalIpSetup(c, k, f, Nat), Appends(f, Nat, EXTERNAL, ExternalBody(c, k, f, ActRedirect));
    var create, jump := One(f, Nat, EnsureChain(EXTERNAL)), One(f, Nat, EnsureJump("PREROUTING", EXTERNAL));
    hide *;
    DnsChainName(d, f);
    DnsBesideExternal(f, d);
    ExternalShape(c, k, x, f);
    AppendsAside(f, Nat, EXTERNAL, ReplyBypass(c, k), Nat, d);
    AppendsAside(f, Nat, EXTERNAL, ExternalBody(c, k, f, ActRedirect), Nat, d);
    LocalIpAside(c, k, f, Nat, Nat, d);
    AsideBoth(local, more, f, Nat, d);
    AsideThen(refused, first, dns, f, Nat, d, h, made);
    ThenAside(refused, first + dns, local + more, f, Nat, d, h, made);
    AsideThen(refused, create, first + dns + (local + more), f, Nat, d, h, made);
    ThenAside(refused, create + (first + dns + (local + more)), jump, f, Nat, d, h, made);
  }

  lemma DnsBesideExternal(f: Family, d: string)
    requires d != EXTERNAL && d != "PREROUTING"
    ensures Aside(One(f, Nat, EnsureChain(EXTERNAL)), f, Nat, d) && Aside(One(f, Nat, EnsureJump("PREROUTING", EXTERNAL)), f, Nat, d)
  {
  }

  lemma RedirectMakesDns(refused: set<Rule>, c: Config, k: Capabilities, x: Context, f: Family, d: string,
                         h: Option<seq<Rule>>, made: Option<seq<Rule>>)
    requires RedirectSupported(k, f) && DnsChain(d, f) && Makes(refused, DnsNatSetup(c, k, x, f), f, Nat, d, h, made)
    ensures Makes(refused, StartRedirect(c, k, x, f), f, Nat, d, h, made)
  {
    var a, b, e := RedirectExternalSetup(c, k, x, f), RedirectLocalSetup(c, k, x, f), LoopbackRejectSetup(x, f, c.redirPort);
    assert StartRedirect(c, k, x, f) == a + b + e;
    hide *;
    DnsChainName(d, f);
    ExternalMakesDns(refused, c, k, x, f, d, h, made);
    RedirectLocalLeaves(c, k, x, f, d);
    FilterAside(c, x, f, Nat, d);
    ThenAside(refused, a, b, f, Nat, d, h, made);
    ThenAside(refused, a + b, e, f, Nat, d, h, made);
  }

  lemma IcmpAside(c: Config, f: Family, d: string)
    requires d != "PREROUTING" && d != "OUTPUT"
    ensures Aside(FakeIpIcmpSetup(c, f), f, Nat, d)
  {
    hide FakeIpIcmp;
  }

  lemma TproxyMakesDns(refused: set<Rule>, c: Config, k: Capabilities, x: Context, f: Family, d: string,
                       h: Option<seq<Rule>>, made: Option<seq<Rule>>)
    requires TproxySupported(k, f) && DnsChain(d, f) && Makes(refused, DnsNatSetup(c, k, x, f), f, Nat, d, h, made)
    ensures Makes(refused, StartTproxy(c, k, x, f), f, Nat, d, h, made)
  {
    var a, b := TproxyExternalSetup(c, k, f), TproxyLocalSetup(c, k, x, f);
    var e, q, n, i := DivertSetup(c, k, f), QuicSetup(c, f), DnsNatSetup(c, k, x, f), FakeIpIcmpSetup(c, f);
    var r := if c.mode != Enhance then LoopbackRejectSetup(x, f, c.tproxyPort) else [];
    assert TproxyRest(c, k, x, f) == e + q + r + n + i;
    DnsChainName(d, f);
    hide *;
    StartTproxySplit(c, k, x, f);
    RoutingAside(f, Nat, d);
    TproxyExternalNat(c, k, f, d);
    TproxyLocalNat(c, k, x, f, d);
    AsideBoth(a, b, f, Nat, d);
    DivertOffNat(c, k, f, d);
    FilterAside(c, x, f, Nat, d);
    NothingAside(f, Nat, d);
    IcmpAside(c, f, d);
    AsideBoth(e, q, f, Nat, d);
    AsideBoth(e + q, r, f, Nat, d);
    AsideThen(refused, e + q + r, n, f, Nat, d, h, made);
    ThenAside(refused, e + q + r + n, i, f, Nat, d, h, made);
    AsideThen(refused, a + b, TproxyRest(c, k, x, f), f, Nat, d, h, made);
    AsideThen(refused, TproxyRouting(f), a + b + TproxyRest(c, k, x, f), f, Nat, d, h, made);
  }

  lemma EnhanceMakesDns(refused: set<Rule>, c: Config, k: Capabilities, x: Context, f: Family, ch: string, h: Option<seq<Rule>>)
    requires c.mode == Enhance && RedirectSupported(k, f) && IsHook(ch) && DnsHook(c, k, f, ch).Some?
    ensures Makes(refused, ModeSetup(c, k, x, f), f, Nat, DnsHook(c, k, f, ch).value, h, Some(DnsContent(refused, c, x, f, ch)))
  {
    var d, made := DnsHook(c, k, f, ch).value, Some(DnsContent(refused, c, x, f, ch));
    assert RedirectMode(c);
    assert !TproxySupported(k, f) ==> StartTproxy(c, k, x, f) == [];
    hide *;
    RedirectModes(c, k, x, f);
    HookIsDns(c, k, f, ch);
    DnsMade(refused, c, k, x, f, ch, h);
    DnsMade(refused, c, k, x, f, ch, made);
    RedirectMakesDns(refused, c, k, x, f, d, h, made);
    if TproxySupported(k, f) {
      TproxyMakesDns(refused, c, k, x, f, d, made, made);
      Then(refused, StartRedirect(c, k, x, f), StartTproxy(c, k, x, f), f, Nat, d, h, made, made);
    } else {
      NothingAside(f, Nat, d);
      ThenAside(refused, StartRedirect(c, k, x, f), StartTproxy(c, k, x, f), f, Nat, d, h, made);
    }
  }

  lemma HookSupports(c: Config, k: Capabilities, f: Family, ch: string)
    requires DnsHook(c, k, f, ch).Some?
    ensures RedirectSupported(k, f)
  {
    hide HijackPre, HijackOut, ForwardPre;
  }

  lemma RedirectModeMakesDns(refused: set<Rule>, c: Config, k: Capabilities, x: Context, f: Family, d: string,
                             h: Option<seq<Rule>>, made: Option<seq<Rule>>)
    requires (c.mode == RedirectOnly || c.mode == Mixed) && RedirectSupported(k, f) && DnsChain(d, f)
    requires Makes(refused, DnsNatSetup(c, k, x, f), f, Nat, d, h, made)
    ensures Makes(refused, ModeSetup(c, k, x, f), f, Nat, d, h, made)
  {
    assert RedirectMode(c);
    hide *;
    RedirectModes(c, k, x, f);
    RedirectMakesDns(refused, c, k, x, f, d, h, made);
    if c.mode == Mixed {
      FilterAside(c, x, f, Nat, d);
      AsideThen(refused, ForwardSetup(c, f), StartRedirect(c, k, x, f), f, Nat, d, h, made);
    }
  }

  lemma OneStartMakesDns(refused: set<Rule>, c: Config, k: Capabilities, x: Context, f: Family, ch: string, h: Option<seq<Rule>>)
    requires c.mode != Enhance && IsHook(ch) && DnsHook(c, k, f, ch).Some? && (StartsRedirect(c, k, f) || StartsTproxy(c, k, f))
    ensures Makes(refused, ModeSetup(c, k, x, f), f, Nat, DnsHook(c, k, f, ch).value, h, Some(DnsContent(refused, c, x, f, ch)))
  {
    var d, made := DnsHook(c, k, f, ch).value, Some(DnsContent(refused, c, x, f, ch));
    StartsOne(c, k, x, f);
    hide *;
    HookSupports(c, k, f, ch);
    HookIsDns(c, k, f, ch);
    DnsMade(refused, c, k, x, f, ch, h);
    if c.mode == TproxyOnly {
      TproxyMakesDns(refused, c, k, x, f, d, h, made);
    } else {
      RedirectModeMakesDns(refused, c, k, x, f, d, h, made);
    }
  }

  lemma StartsOne(c: Config, k: Capabilities, x: Context, f: Family)
    requires c.mode != Enhance && (StartsRedirect(c, k, f) || StartsTproxy(c, k, f))
    ensures c.mode == RedirectOnly || c.mode == Mixed || c.mode == TproxyOnly
    ensures c.mode == TproxyOnly ==> TproxySupported(k, f) && ModeSetup(c, k, x, f) == StartTproxy(c, k, x, f)
  {
    hide StartTproxy;
  }

  /** In every mode with DNS in nat the chains end up alike, however often they are made. */
  lemma DnsModeMade(refused: set<Rule>, c: Config, k: Capabilities, x: Context, f: Family, ch: string, h: Option<seq<Rule>>)
    requires IsHook(ch) && DnsHook(c, k, f, ch).Some? && (StartsRedirect(c, k, f) || StartsTproxy(c, k, f))
    ensures Makes(refused, ModeSetup(c, k, x, f), f, Nat, DnsHook(c, k, f, ch).value, h, Some(DnsContent(refused, c, x, f, ch)))
  {
    hide *;
    HookSupports(c, k, f, ch);
    if c.mode == Enhance {
      EnhanceMakesDns(refused, c, k, x, f, ch, h);
    } else {
      OneStartMakesDns(refused, c, k, x, f, ch, h);
    }
  }

  /** So the kernel holds them. */
  lemma DnsInstalled(refused: set<Rule>, w: World, c: Config, k: Capabilities, x: Context, f: Family, ch: string)
    requires IsHook(ch) && DnsHook(c, k, f, ch).Some? && (StartsRedirect(c, k, f) || StartsTproxy(c, k, f))
    requires Ran(refused, w, f, Nat, ModeSetup(c, k, x, f))
    ensures var chains, d := ChainsAfter(refused, w, f, Nat, ModeSetup(c, k, x, f)), DnsHook(c, k, f, ch).value;
      d in chains && chains[d] == DnsContent(refused, c, x, f, ch)
  {
    var d := DnsHook(c, k, f, ch).value;
    assert IsBoxCustomChain(d) by {
      HookIsDns(c, k, f, ch);
      DnsChainName(d, f);
    }
    hide *;
    DnsModeMade(refused, c, k, x, f, ch, Holding(w, f, Nat, d));
    ChainMade(refused, w, f, Nat, ModeSetup(c, k, x, f), d, DnsContent(refused, c, x, f, ch));
  }

  // ----- what they do -----

  lemma VariantMatches(env: Env, refused: set<Rule>, x: Context, p: Packet)
    ensures (exists r | r in Variant(refused, CoreBypassVariants(x)) :: Matches(env, r, p)) <==> Intent.ByOwner(refused, x, p)
  {
    var both, uid := Rule(Return, uid := Some(x.boxUid), gid := Some(x.boxGid)), Rule(Return, uid := Some(x.boxUid));
    var gid := Rule(Return, gid := Some(x.boxGid));
    assert CoreBypassVariants(x) == [both, uid, gid] && [both, uid, gid][1..] == [uid, gid] && [uid, gid][1..] == [gid] && [gid][1..] == [];
    assert Matches(env, both, p) == (p.uid == x.boxUid && p.gid == x.boxGid);
    assert Matches(env, uid, p) == (p.uid == x.boxUid) && Matches(env, gid, p) == (p.gid == x.boxGid);
    hide Matches, CoreBypassVariants;
    var taken := if both !in refused then [both] else if uid !in refused then [uid] else if gid !in refused then [gid] else [];
    assert Variant(refused, [gid]) == if gid !in refused then [gid] else [];
    assert Variant(refused, [uid, gid]) == if uid !in refused then [uid] else Variant(refused, [gid]);
    assert Variant(refused, [both, uid, gid]) == taken;
    if taken != [] {
      assert taken[0] in taken && forall r :: r in taken ==> r == taken[0];
    }
  }

  lemma VariantMeans(env: Env, chains: Chains, d: nat, refused: set<Rule>, x: Context, p: Packet)
    ensures Traverse(env, chains, d, Variant(refused, CoreBypassVariants(x)), p) == if Intent.ByOwner(refused, x, p) then Back(p) else Fell(p)
  {
    var rules := Variant(refused, CoreBypassVariants(x));
    assert forall r :: r in rules ==> r.target == Return by {
      assert forall r :: r in CoreBypassVariants(x) ==> r.target == Return;
    }
    VariantMatches(env, refused, x, p);
    hide CoreBypassVariants, Variant, Matches, Intent.ByOwner;
    TraverseReturns(env, chains, d, rules, p);
  }

  lemma RedirectRuleMeans(env: Env, chains: Chains, d: nat, on: bool, q: Proto, port: nat, p: Packet)
    ensures Traverse(env, chains, d, When(on, [DnsBase(q).(target := Redirect(port))]), p)
         == if on && p.proto == q && p.dport == 53 then Redirected(port) else Fell(p)
  {
    NothingFalls(env, chains, d, p);
    var r := DnsBase(q).(target := Redirect(port));
    assert [r][1..] == [] && Matches(env, r, p) == (p.proto == q && p.dport == 53);
  }

  lemma BlockedMeans(env: Env, chains: Chains, d: nat, on: bool, c: Config, p: Packet)
    ensures Traverse(env, chains, d, When(on, IfaceRules(c.blockedIfs, Return)), p)
         == if on && Intent.OnInterface(c.blockedIfs, p) then Back(p) else Fell(p)
  {
    NothingFalls(env, chains, d, p);
    IfaceRulesMean(env, chains, d, c.blockedIfs, p);
    hide IfaceRules, IfMatches;
    assert AnyIface(c.blockedIfs, p.inIf) == Intent.OnInterface(c.blockedIfs, p);
  }

  lemma HijackMeans(env: Env, chains: Chains, d: nat, c: Config, f: Family, inbound: bool, p: Packet)
    ensures var o := Traverse(env, chains, d, DnsHijackRules(c, f, inbound), p);
      if Intent.Query(c, p) && !(inbound && f == V4 && Intent.OnInterface(c.blockedIfs, p)) then o == Redirected(c.dnsPort)
      else o == Fell(p) || o == Back(p)
  {
    var a := When(inbound && f == V4, IfaceRules(c.blockedIfs, Return));
    var b, e := When(c.dnsTcp, [DnsBase(Tcp).(target := Redirect(c.dnsPort))]), When(c.dnsUdp, [DnsBase(Udp).(target := Redirect(c.dnsPort))]);
    assert DnsHijackRules(c, f, inbound) == a + b + e;
    hide When, DnsBase, IfaceRules, DnsHijackRules, Intent.OnInterface;
    TraverseAppend(env, chains, d, a + b, e, p);
    TraverseAppend(env, chains, d, a, b, p);
    BlockedMeans(env, chains, d, inbound && f == V4, c, p);
    RedirectRuleMeans(env, chains, d, c.dnsTcp, Tcp, c.dnsPort, p);
    RedirectRuleMeans(env, chains, d, c.dnsUdp, Udp, c.dnsPort, p);
  }

  lemma ForwardMeans(env: Env, chains: Chains, d: nat, c: Config, f: Family, p: Packet)
    ensures var o := Traverse(env, chains, d, DnsForwardRules(c, f), p);
      if Intent.QueryOverUdp(p) && c.dnsUdp && !(f == V4 && Intent.OnInterface(c.blockedIfs, p)) then o == Redirected(c.dnsPort)
      else o == Fell(p) || o == Back(p)
  {
    var a, b := When(f == V4, IfaceRules(c.blockedIfs, Return)), When(c.dnsUdp, [DnsBase(Udp).(target := Redirect(c.dnsPort))]);
    assert DnsForwardRules(c, f) == a + b;
    hide When, DnsBase, IfaceRules, DnsForwardRules, Intent.OnInterface;
    TraverseAppend(env, chains, d, a, b, p);
    BlockedMeans(env, chains, d, f == V4, c, p);
    RedirectRuleMeans(env, chains, d, c.dnsUdp, Udp, c.dnsPort, p);
  }

  /** The query is one the chain is for. */
  predicate QueryFor(refused: set<Rule>, c: Config, x: Context, f: Family, ch: string, p: Packet) {
    if c.dnsMode != DnsRedirect then
      !Intent.ByOwner(refused, x, p) && Intent.QueryOverUdp(p) && c.dnsUdp && !(f == V4 && Intent.OnInterface(c.blockedIfs, p))
    else if ch == "PREROUTING" then Intent.Query(c, p) && !(f == V4 && Intent.OnInterface(c.blockedIfs, p))
    else !Intent.ByOwner(refused, x, p) && Intent.Query(c, p)
  }

  lemma DnsContentMeans(env: Env, chains: Chains, d: nat, refused: set<Rule>, c: Config, x: Context, f: Family, ch: string, p: Packet)
    ensures var o := Traverse(env, chains, d, DnsContent(refused, c, x, f, ch), p);
      if QueryFor(refused, c, x, f, ch, p) then o == Redirected(c.dnsPort) else o == Fell(p) || o == Back(p)
  {
    var core := Variant(refused, CoreBypassVariants(x));
    VariantMeans(env, chains, d, refused, x, p);
    HijackMeans(env, chains, d, c, f, true, p);
    HijackMeans(env, chains, d, c, f, false, p);
    ForwardMeans(env, chains, d, c, f, p);
    hide Variant, CoreBypassVariants, DnsHijackRules, DnsForwardRules, Intent.ByOwner, Intent.OnInterface, Intent.Query;
    TraverseAppend(env, chains, d, core, DnsHijackRules(c, f, false), p);
    TraverseAppend(env, chains, d, core, DnsForwardRules(c, f), p);
  }

  // ----- at a built-in chain -----

  /** A jump at the head of a chain. */
  lemma Enters(env: Env, chains: Chains, d: nat, target: string, rest: seq<Rule>, p: Packet)
    requires d > 0 && target in chains
    ensures Traverse(env, chains, d, [Rule(Jump(target))] + rest, p)
         == var o := Traverse(env, chains, d - 1, chains[target], p);
            if Passes(o) then Traverse(env, chains, d, rest, o.p) else o
  {
    var rules := [Rule(Jump(target))] + rest;
    assert rules[0] == Rule(Jump(target)) && rules[1..] == rest && Matches(env, rules[0], p);
  }

  /** Behind the jump to the DNS chain come the rules that were there. */
  lemma DnsAtHook(env: Env, chains: Chains, d: nat, refused: set<Rule>, c: Config, k: Capabilities, x: Context, f: Family, ch: string,
                  was: seq<Rule>, p: Packet)
    requires d > 0 && Jumpless(was) && IsHook(ch)
    requires DnsHook(c, k, f, ch).Some? ==>
      DnsHook(c, k, f, ch).value in chains && chains[DnsHook(c, k, f, ch).value] == DnsContent(refused, c, x, f, ch)
    ensures Traverse(env, chains, d, WithDns(c, k, f, ch, was), p)
         == if DnsHook(c, k, f, ch).Some? && QueryFor(refused, c, x, f, ch, p) then Redirected(c.dnsPort) else Traverse(env, chains, d, was, p)
  {
    hide *;
    DnsFront(c, k, f, ch, was);
    if DnsHook(c, k, f, ch).Some? {
      var target := DnsHook(c, k, f, ch).value;
      Enters(env, chains, d, target, was, p);
      DnsContentMeans(env, chains, d - 1, refused, c, x, f, ch, p);
      OutcomesPass(p);
    }
  }

  lemma DnsFront(c: Config, k: Capabilities, f: Family, ch: string, was: seq<Rule>)
    requires Jumpless(was)
    ensures WithDns(c, k, f, ch, was)
         == match DnsHook(c, k, f, ch) case None => was case Some(target) => [Rule(Jump(target))] + was
  {
    if DnsHook(c, k, f, ch).Some? {
      HookIsDns(c, k, f, ch);
      DnsChainName(DnsHook(c, k, f, ch).value, f);
    }
    hide IsBoxCustomChain, DnsHook, DnsChain;
  }

  lemma OutcomesPass(p: Packet)
    ensures Passes(Fell(p)) && Passes(Back(p)) && !Passes(Accepted(p)) && forall n: nat :: !Passes(Redirected(n))
  {
  }
}
