/**
 What the external (forwarded-traffic) chains of TPROXY mean: a policy over the
 destination, the ingress interface and the MAC.  The standard chain and the
 fast chain are both characterised by it, which shows where they agree, where
 they do not, and that the fast chain treats a whole flow like its first packet.
 */
module ExternalPolicy {
  import opened Bytes
  import opened Netfilter
  import opened Batching
  import opened RuleConfig
  import opened RuleScripts

  // ----- the policy -----

  predicate InAny(nets: seq<Net>, a: nat) { exists n | n in nets :: InNet(n, a) }

  predicate CnDestination(env: Env, c: Config, k: Capabilities, f: Family, chain: string, p: Packet) {
    match CnipMatch(c, k, f, chain) case None => false case Some(e) => ExtMatches(env, e, p)
  }

  predicate AnyIface(ifaces: seq<string>, name: string) { exists i | i in ifaces :: IfMatches(i, name) }

  /** A listed MAC on a listed interface, or an unlisted one when the list is a blacklist. */
  predicate HotspotAllows(c: Config, p: Packet) {
    AnyIface(c.hotspotIfs, p.inIf) && (p.mac in c.macs <==> c.macWhitelist)
  }

  predicate IngressAllowed(c: Config, p: Packet) {
    !AnyIface(c.blockedIfs, p.inIf) && (p.inIf == "lo" || !c.macFilter || HotspotAllows(c, p))
  }

  predicate ProtoEnabled(c: Config, p: Packet) {
    (p.proto == Tcp && TcpInMangle(c)) || (p.proto == Udp && c.proxyUdp)
  }

  /** Local-IP and fast bypass rules leave DNS over UDP alone. */
  predicate DnsOverUdp(p: Packet) { p.proto == Udp && p.dport == 53 }

  predicate Bypassed(env: Env, c: Config, k: Capabilities, f: Family, chain: string, p: Packet) {
    InAny(Subnets(c, f), p.dst) || CnDestination(env, c, k, f, chain, p)
  }

  /** The rule of a pair for packets like this one. */
  function PairRule(net: Net, p: Packet): Rule { AcceptPair(Rule(Accept, dst := Some(net)))[if p.proto == Udp then 0 else 1] }

  /** Networks whose rule for such packets the kernel takes. */
  predicate InAnyTaken(refused: set<Rule>, nets: seq<Net>, p: Packet) {
    exists n | n in nets :: InNet(n, p.dst) && PairRule(n, p) !in refused
  }

  /** One of the host's own networks, as far as its rules were taken. */
  predicate LocalHit(refused: set<Rule>, c: Config, f: Family, p: Packet) {
    InAnyTaken(refused, LocalCidrs(c, f), p) && !DnsOverUdp(p)
  }

  lemma LocalHitUnrefused(refused: set<Rule>, c: Config, f: Family, p: Packet)
    ensures LocalHit(refused, c, f, p) ==> InAny(LocalCidrs(c, f), p.dst)
    ensures (forall n | n in LocalCidrs(c, f) :: PairRule(n, p) !in refused) ==>
      LocalHit(refused, c, f, p) == (InAny(LocalCidrs(c, f), p.dst) && !DnsOverUdp(p))
  {
    hide InNet, PairRule;
  }

  /** The protocols an action handles, and what it does to a packet. */
  predicate Enabled(c: Config, action: Action, p: Packet) {
    match action
    case ActTproxy => ProtoEnabled(c, p)
    case ActRedirect => p.proto == Tcp && c.proxyTcp
    case ActMark => false
  }

  function Dispatch(c: Config, action: Action, p: Packet): Outcome {
    match action
    case ActTproxy => Tproxied(c.tproxyPort, p.(mark := SetXmark(p.mark, FWMARK)))
    case ActRedirect => Redirected(c.redirPort)
    case ActMark => Fell(p)
  }

  /** A packet is either dispatched or left exactly as it came. */
  predicate Decided(o: Outcome, c: Config, action: Action, p: Packet, yes: bool) {
    if yes then o == Dispatch(c, action, p) else o == Fell(p) || o == Back(p) || o == Accepted(p)
  }

  /** Nor is it accepted. */
  predicate Settled(o: Outcome, c: Config, action: Action, p: Packet, yes: bool) {
    if yes then o == Dispatch(c, action, p) else o == Fell(p) || o == Back(p)
  }

  // ----- traversing lists of rules -----

  /** A list of RETURN rules returns exactly the packets some rule matches. */
  lemma {:induction false} TraverseReturns(env: Env, chains: Chains, d: nat, rules: seq<Rule>, p: Packet)
    requires forall r :: r in rules ==> r.target == Return
    ensures Traverse(env, chains, d, rules, p) == if exists r | r in rules :: Matches(env, r, p) then Back(p) else Fell(p)
    decreases |rules|
  {
    if rules != [] {
      assert rules[0] in rules && forall r :: r in rules ==> r == rules[0] || r in rules[1..];
      TraverseReturns(env, chains, d, rules[1..], p);
    }
  }

  lemma {:induction false} TraverseAccepts(env: Env, chains: Chains, d: nat, rules: seq<Rule>, p: Packet)
    requires forall r :: r in rules ==> r.target == Accept
    ensures Traverse(env, chains, d, rules, p) == if exists r | r in rules :: Matches(env, r, p) then Accepted(p) else Fell(p)
    decreases |rules|
  {
    if rules != [] {
      assert rules[0] in rules && forall r :: r in rules ==> r == rules[0] || r in rules[1..];
      TraverseAccepts(env, chains, d, rules[1..], p);
    }
  }

  lemma SubnetReturnsMeans(env: Env, chains: Chains, d: nat, nets: seq<Net>, p: Packet)
    ensures Traverse(env, chains, d, SubnetReturns(nets), p) == if InAny(nets, p.dst) then Back(p) else Fell(p)
  {
    var rules := SubnetReturns(nets);
    TraverseReturns(env, chains, d, rules, p);
    if InAny(nets, p.dst) {
      var n :| n in nets && InNet(n, p.dst);
      var i :| 0 <= i < |nets| && nets[i] == n;
      assert rules[i] in rules && Matches(env, rules[i], p);
    }
  }

  lemma IfaceRulesMean(env: Env, chains: Chains, d: nat, ifaces: seq<string>, p: Packet)
    ensures Traverse(env, chains, d, IfaceRules(ifaces, Return), p) == if AnyIface(ifaces, p.inIf) then Back(p) else Fell(p)
    ensures Traverse(env, chains, d, IfaceRules(ifaces, Accept), p) == if AnyIface(ifaces, p.inIf) then Accepted(p) else Fell(p)
  {
    var back, gone := IfaceRules(ifaces, Return), IfaceRules(ifaces, Accept);
    TraverseReturns(env, chains, d, back, p);
    TraverseAccepts(env, chains, d, gone, p);
    if AnyIface(ifaces, p.inIf) {
      var n :| n in ifaces && IfMatches(n, p.inIf);
      var i :| 0 <= i < |ifaces| && ifaces[i] == n;
      assert back[i] in back && Matches(env, back[i], p);
      assert gone[i] in gone && Matches(env, gone[i], p);
    }
  }

  /** The two rules of a bypass pair accept all their base matches but DNS over UDP. */
  lemma {:induction false} AcceptPairsMean(env: Env, chains: Chains, d: nat, nets: seq<Net>, p: Packet)
    ensures Traverse(env, chains, d, AcceptPairs(nets), p)
         == if InAny(nets, p.dst) && !DnsOverUdp(p) then Accepted(p) else Fell(p)
  {
    if nets != [] {
      AcceptPairsMean(env, chains, d, nets[1..], p);
      AcceptPairMeans(env, chains, d, Rule(Accept, dst := Some(nets[0])), p);
      TraverseAppend(env, chains, d, AcceptPair(Rule(Accept, dst := Some(nets[0]))), AcceptPairs(nets[1..]), p);
      assert forall n :: n in nets ==> n == nets[0] || n in nets[1..];
      assert InAny(nets, p.dst) == (InNet(nets[0], p.dst) || InAny(nets[1..], p.dst));
    }
  }

  predicate OnlyDestination(r: Rule) {
    r == Rule(Accept, dst := r.dst, ext := r.ext, dstLocal := r.dstLocal)
  }

  lemma AcceptPairMeans(env: Env, chains: Chains, d: nat, base: Rule, p: Packet)
    requires OnlyDestination(base)
    ensures Traverse(env, chains, d, AcceptPair(base), p)
         == if Matches(env, base, p) && !DnsOverUdp(p) then Accepted(p) else Fell(p)
  {
    var two := AcceptPair(base);
    assert two[1..] == [two[1]] && two[1..][1..] == [];
    assert Traverse(env, chains, d, [], p) == Fell(p);
    assert Traverse(env, chains, d, [two[1]], p) == if Matches(env, two[1], p) then Accepted(p) else Fell(p);
  }

  // ----- the standard chain -----

  predicate HoldsLocal(chains: Chains, refused: set<Rule>, c: Config, f: Family) {
    LocalIpChain(f) in chains && chains[LocalIpChain(f)] == Kept(refused, AcceptPairs(LocalCidrs(c, f)))
  }

  lemma {:induction false} KeptConcat(refused: set<Rule>, a: seq<Rule>, b: seq<Rule>)
    ensures Kept(refused, a + b) == Kept(refused, a) + Kept(refused, b)
    decreases |a|
  {
    if a == [] {
      assert a + b == b;
    } else {
      assert (a + b)[1..] == a[1..] + b;
      KeptConcat(refused, a[1..], b);
    }
  }

  lemma KeptPairMeans(env: Env, chains: Chains, d: nat, refused: set<Rule>, net: Net, p: Packet)
    ensures Traverse(env, chains, d, Kept(refused, AcceptPair(Rule(Accept, dst := Some(net)))), p)
         == if !DnsOverUdp(p) && InNet(net, p.dst) && PairRule(net, p) !in refused then Accepted(p) else Fell(p)
  {
    var pair := AcceptPair(Rule(Accept, dst := Some(net)));
    var rules := Kept(refused, pair);
    TraverseAccepts(env, chains, d, rules, p);
    assert pair[1..] == [pair[1]] && Kept(refused, pair[1..]) == if pair[1] in refused then [] else [pair[1]];
    assert forall r :: r in rules <==> (r == pair[0] || r == pair[1]) && r !in refused;
    assert Matches(env, pair[0], p) == (InNet(net, p.dst) && p.proto == Udp && p.dport != 53);
    assert Matches(env, pair[1], p) == (InNet(net, p.dst) && p.proto != Udp);
  }

  /** The chain of the host's own networks, as far as the kernel took it. */
  lemma {:induction false} KeptPairsMean(env: Env, chains: Chains, d: nat, refused: set<Rule>, nets: seq<Net>, p: Packet)
    ensures Traverse(env, chains, d, Kept(refused, AcceptPairs(nets)), p)
         == if InAnyTaken(refused, nets, p) && !DnsOverUdp(p) then Accepted(p) else Fell(p)
    decreases |nets|
  {
    hide InNet, PairRule, DnsOverUdp, Matches;
    if nets != [] {
      var pair := AcceptPair(Rule(Accept, dst := Some(nets[0])));
      KeptPairsMean(env, chains, d, refused, nets[1..], p);
      KeptPairMeans(env, chains, d, refused, nets[0], p);
      KeptConcat(refused, pair, AcceptPairs(nets[1..]));
      TraverseAppend(env, chains, d, Kept(refused, pair), Kept(refused, AcceptPairs(nets[1..])), p);
      assert forall n :: n in nets ==> n == nets[0] || n in nets[1..];
    }
  }

  lemma CnipRuleMeans(env: Env, chains: Chains, d: nat, c: Config, k: Capabilities, f: Family, chain: string, p: Packet)
    ensures Traverse(env, chains, d, CnipRule(c, k, f, chain, Return), p)
         == if CnDestination(env, c, k, f, chain, p) then Back(p) else Fell(p)
  {
    TraverseReturns(env, chains, d, CnipRule(c, k, f, chain, Return), p);
    match CnipMatch(c, k, f, chain)
    case None =>
    case Some(e) =>
      var r := Rule(Return, ext := e);
      assert r in CnipRule(c, k, f, chain, Return);
      assert Matches(env, r, p) == ExtMatches(env, e, p);
  }

  lemma CommonBypassMeans(env: Env, chains: Chains, d: nat, refused: set<Rule>, c: Config, k: Capabilities, f: Family, chain: string, p: Packet)
    requires d > 0 && HoldsLocal(chains, refused, c, f)
    ensures Traverse(env, chains, d, CommonBypassRules(c, k, f, chain), p)
         == if Bypassed(env, c, k, f, chain, p) then Back(p) else if LocalHit(refused, c, f, p) then Accepted(p) else Fell(p)
  {
    hide SubnetReturns, CnipRule, CnDestination, InAny, InAnyTaken, DnsOverUdp, AcceptPairs, Kept, LocalIpChain;
    var subnets, cn, local := SubnetReturns(Subnets(c, f)), CnipRule(c, k, f, chain, Return), [Rule(Jump(LocalIpChain(f)))];
    TraverseAppend(env, chains, d, subnets + cn, local, p);
    TraverseAppend(env, chains, d, subnets, cn, p);
    SubnetReturnsMeans(env, chains, d, Subnets(c, f), p);
    CnipRuleMeans(env, chains, d, c, k, f, chain, p);
    KeptPairsMean(env, chains, d - 1, refused, LocalCidrs(c, f), p);
    assert local[1..] == [] && Traverse(env, chains, d, [], p) == Fell(p);
  }

  predicate IngressMatches(iface: string, mac: Option<string>, p: Packet) {
    IfMatches(iface, p.inIf) && (mac.Some? ==> p.mac == mac.value)
  }

  lemma ExternalProtocolMeans(env: Env, chains: Chains, d: nat, c: Config, action: Action, q: Proto, iface: string,
                              mac: Option<string>, p: Packet)
    requires q == Tcp || q == Udp
    ensures Traverse(env, chains, d, ExternalProtocolRule(c, action, q, iface, mac), p)
         == if p.proto == q && Enabled(c, action, p) && IngressMatches(iface, mac, p) then Dispatch(c, action, p) else Fell(p)
  {
    var rules := ExternalProtocolRule(c, action, q, iface, mac);
    if rules != [] {
      assert rules[1..] == [] && Traverse(env, chains, d, [], p) == Fell(p);
      assert Matches(env, rules[0], p) == (p.proto == q && IngressMatches(iface, mac, p));
    }
  }

  lemma ExternalBothMeans(env: Env, chains: Chains, d: nat, c: Config, action: Action, iface: string, mac: Option<string>, p: Packet)
    ensures Traverse(env, chains, d, ExternalBoth(c, action, iface, mac), p)
         == if Enabled(c, action, p) && IngressMatches(iface, mac, p) then Dispatch(c, action, p) else Fell(p)
  {
    TraverseAppend(env, chains, d, ExternalProtocolRule(c, action, Tcp, iface, mac),
                   ExternalProtocolRule(c, action, Udp, iface, mac), p);
    ExternalProtocolMeans(env, chains, d, c, action, Tcp, iface, mac, p);
    ExternalProtocolMeans(env, chains, d, c, action, Udp, iface, mac, p);
  }

  lemma {:induction false} MacDispatchesMean(env: Env, chains: Chains, d: nat, c: Config, action: Action, iface: string,
                                             macs: seq<string>, p: Packet)
    ensures Traverse(env, chains, d, MacDispatches(c, action, iface, macs), p)
         == if Enabled(c, action, p) && IfMatches(iface, p.inIf) && p.mac in macs then Dispatch(c, action, p) else Fell(p)
  {
    if macs != [] {
      TraverseAppend(env, chains, d, ExternalBoth(c, action, iface, Some(macs[0])), MacDispatches(c, action, iface, macs[1..]), p);
      ExternalBothMeans(env, chains, d, c, action, iface, Some(macs[0]), p);
      MacDispatchesMean(env, chains, d, c, action, iface, macs[1..], p);
    }
  }

  /** A blacklisted MAC leaves the chain, at least when its protocol would be dispatched. */
  lemma {:induction false} MacReturnsMean(env: Env, chains: Chains, d: nat, c: Config, action: Action, iface: string,
                                          macs: seq<string>, p: Packet)
    ensures var o := Traverse(env, chains, d, MacReturns(c, action, iface, macs), p);
      (o == Fell(p) || o == Back(p)) && (o == Back(p) ==> IfMatches(iface, p.inIf) && p.mac in macs)
    ensures Enabled(c, action, p) && IfMatches(iface, p.inIf) && p.mac in macs ==>
      Traverse(env, chains, d, MacReturns(c, action, iface, macs), p) == Back(p)
  {
    if macs != [] {
      var head := MacReturn(c, action, iface, macs[0]);
      TraverseAppend(env, chains, d, head, MacReturns(c, action, iface, macs[1..]), p);
      TraverseReturns(env, chains, d, head, p);
      MacReturnMatches(env, c, action, iface, macs[0], p);
      MacReturnsMean(env, chains, d, c, action, iface, macs[1..], p);
    }
  }

  lemma MacReturnMatches(env: Env, c: Config, action: Action, iface: string, mac: string, p: Packet)
    ensures forall r :: r in MacReturn(c, action, iface, mac) && Matches(env, r, p) ==>
      IfMatches(iface, p.inIf) && p.mac == mac
    ensures Enabled(c, action, p) && IfMatches(iface, p.inIf) && p.mac == mac ==>
      exists r | r in MacReturn(c, action, iface, mac) :: Matches(env, r, p)
  {
    var base := Rule(Return, inIf := Some(iface), mac := Some(mac));
    var r := if action == ActRedirect then base else base.(proto := Is(p.proto));
    if Enabled(c, action, p) && IfMatches(iface, p.inIf) && p.mac == mac {
      assert r in MacReturn(c, action, iface, mac) && Matches(env, r, p);
    }
  }

  lemma HotspotRulesMean(env: Env, chains: Chains, d: nat, c: Config, action: Action, iface: string, p: Packet)
    requires action != ActMark
    ensures Settled(Traverse(env, chains, d, HotspotRules(c, action, iface), p), c, action, p,
                    Enabled(c, action, p) && IfMatches(iface, p.inIf) && (p.mac in c.macs <==> c.macWhitelist))
    ensures !IfMatches(iface, p.inIf) ==> Traverse(env, chains, d, HotspotRules(c, action, iface), p) == Fell(p)
  {
    if c.macWhitelist {
      MacDispatchesMean(env, chains, d, c, action, iface, c.macs, p);
    } else {
      TraverseAppend(env, chains, d, MacReturns(c, action, iface, c.macs), ExternalBoth(c, action, iface, None), p);
      MacReturnsMean(env, chains, d, c, action, iface, c.macs, p);
      ExternalBothMeans(env, chains, d, c, action, iface, None, p);
    }
  }

  lemma {:induction false} HotspotsRulesMean(env: Env, chains: Chains, d: nat, c: Config, action: Action,
                                             ifaces: seq<string>, p: Packet)
    requires action != ActMark
    ensures Settled(Traverse(env, chains, d, HotspotsRules(c, action, ifaces), p), c, action, p,
                    Enabled(c, action, p) && AnyIface(ifaces, p.inIf) && (p.mac in c.macs <==> c.macWhitelist))
  {
    if ifaces != [] {
      TraverseAppend(env, chains, d, HotspotRules(c, action, ifaces[0]), HotspotsRules(c, action, ifaces[1..]), p);
      HotspotRulesMean(env, chains, d, c, action, ifaces[0], p);
      HotspotsRulesMean(env, chains, d, c, action, ifaces[1..], p);
      assert AnyIface(ifaces, p.inIf) == (IfMatches(ifaces[0], p.inIf) || AnyIface(ifaces[1..], p.inIf)) by {
        assert forall i :: i in ifaces ==> i == ifaces[0] || i in ifaces[1..];
      }
    }
  }

  lemma ExternalAllMeans(env: Env, chains: Chains, d: nat, c: Config, action: Action, p: Packet)
    ensures Traverse(env, chains, d, ExternalAllRules(c, action), p)
         == if Enabled(c, action, p) then Dispatch(c, action, p) else Fell(p)
  {
    var rules := ExternalAllRules(c, action);
    assert Traverse(env, chains, d, [], p) == Fell(p);
    if rules != [] {
      assert Matches(env, rules[0], p) == ProtoMatches(rules[0].proto, p.proto);
      if |rules| == 2 {
        assert rules[1..] == [rules[1]] && rules[1..][1..] == [];
        assert Matches(env, rules[1], p) == ProtoMatches(rules[1].proto, p.proto);
      } else {
        assert rules[1..] == [];
      }
    }
  }

  lemma ExternalLoopbackMeans(env: Env, chains: Chains, d: nat, c: Config, action: Action, p: Packet)
    ensures Traverse(env, chains, d, ExternalLoopbackRules(c, action), p)
         == if Enabled(c, action, p) && p.inIf == "lo" then Dispatch(c, action, p) else Fell(p)
  {
    ExternalBothMeans(env, chains, d, c, action, "lo", None, p);
    ExternalProtocolMeans(env, chains, d, c, action, Tcp, "lo", None, p);
  }

  /** Everything behind the destination checks: interface and MAC policy. */
  lemma IngressRulesMean(env: Env, chains: Chains, d: nat, c: Config, action: Action, p: Packet)
    requires action != ActMark
    ensures Settled(Traverse(env, chains, d,
                             IfaceRules(c.blockedIfs, Return) + (ExternalLoopbackRules(c, action) + ExternalApRules(c, action)), p),
                    c, action, p, Enabled(c, action, p) && IngressAllowed(c, p))
  {
    hide IfaceRules, ExternalLoopbackRules, HotspotsRules, ExternalAllRules;
    var blocked, lo, ap := IfaceRules(c.blockedIfs, Return), ExternalLoopbackRules(c, action), ExternalApRules(c, action);
    TraverseAppend(env, chains, d, blocked, lo + ap, p);
    TraverseAppend(env, chains, d, lo, ap, p);
    IfaceRulesMean(env, chains, d, c.blockedIfs, p);
    ExternalLoopbackMeans(env, chains, d, c, action, p);
    HotspotsRulesMean(env, chains, d, c, action, c.hotspotIfs, p);
    ExternalAllMeans(env, chains, d, c, action, p);
  }

  /** What the standard chain dispatches, for TPROXY and for REDIRECT. */
  predicate StandardPolicy(env: Env, refused: set<Rule>, c: Config, k: Capabilities, f: Family, action: Action, p: Packet) {
    Enabled(c, action, p) && !Bypassed(env, c, k, f, EXTERNAL, p) && !LocalHit(refused, c, f, p) && IngressAllowed(c, p)
  }

  lemma StandardExternalMeans(env: Env, chains: Chains, d: nat, refused: set<Rule>, c: Config, k: Capabilities, f: Family, action: Action, p: Packet)
    requires d > 0 && HoldsLocal(chains, refused, c, f) && action != ActMark
    ensures var o := Traverse(env, chains, d, ExternalBody(c, k, f, action), p);
      && Decided(o, c, action, p, StandardPolicy(env, refused, c, k, f, action, p))
      && (o.Accepted? <==> !Bypassed(env, c, k, f, EXTERNAL, p) && LocalHit(refused, c, f, p))
  {
    hide CommonBypassRules, IfaceRules, ExternalLoopbackRules, ExternalApRules, IngressAllowed, Bypassed, LocalHit;
    var bypass := CommonBypassRules(c, k, f, EXTERNAL);
    var rest := IfaceRules(c.blockedIfs, Return) + (ExternalLoopbackRules(c, action) + ExternalApRules(c, action));
    assert ExternalBody(c, k, f, action) == bypass + rest;
    TraverseAppend(env, chains, d, bypass, rest, p);
    CommonBypassMeans(env, chains, d, refused, c, k, f, EXTERNAL, p);
    IngressRulesMean(env, chains, d, c, action, p);
  }
}
