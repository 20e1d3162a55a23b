/**
 The fast external chain: two side chains accept what must not be proxied, what
 passes both is marked on its connection, and every packet of a marked
 connection is dispatched.  It is compared with the standard chain packet by
 packet, and followed over whole runs of a flow.
 */
module FastPolicy {
  import opened Bytes
  import opened Netfilter
  import opened Batching
  import opened RuleConfig
  import opened RuleScripts
  import opened ExternalPolicy

  // ----- the side chains -----

  /** The address-type rules are attempts, so any of them may be missing. */
  ghost predicate HoldsFast(chains: Chains, c: Config, k: Capabilities, f: Family) {
    && TP_PRE_IP in chains
    && TP_PRE_IF in chains
    && (exists taken :: DestChain(chains[TP_PRE_IP], c, k, f, TP_PRE_IP, taken))
    && chains[TP_PRE_IF] == PerfIfRules(c)
  }

  predicate DestChain(rules: seq<Rule>, c: Config, k: Capabilities, f: Family, chain: string, taken: seq<Rule>) {
    && (forall r :: r in taken ==> r in PerfAddrtypeRules(k))
    && rules == PerfBypassRules(c, k, f, chain) + taken + PerfLoopbackRules(c, f)
  }

  /** Destinations only the fast chain leaves alone. */
  predicate OwnDestination(f: Family, p: Packet) { p.dstLocal || InNet(LoopbackNet(f), p.dst) }

  lemma PerfBypassMeans(env: Env, chains: Chains, d: nat, c: Config, k: Capabilities, f: Family, chain: string, p: Packet)
    ensures Traverse(env, chains, d, PerfBypassRules(c, k, f, chain), p)
         == if Bypassed(env, c, k, f, chain, p) && !DnsOverUdp(p) then Accepted(p) else Fell(p)
  {
    var cn := match CnipMatch(c, k, f, chain) case None => [] case Some(e) => AcceptPair(Rule(Accept, ext := e));
    TraverseAppend(env, chains, d, AcceptPairs(Subnets(c, f)), cn, p);
    AcceptPairsMean(env, chains, d, Subnets(c, f), p);
    match CnipMatch(c, k, f, chain)
    case None =>
    case Some(e) => AcceptPairMeans(env, chains, d, Rule(Accept, ext := e), p);
  }

  lemma LoopbackMeans(env: Env, chains: Chains, d: nat, c: Config, f: Family, p: Packet)
    ensures var o := Traverse(env, chains, d, PerfLoopbackRules(c, f), p);
      if InNet(LoopbackNet(f), p.dst) && !DnsOverUdp(p) && LoopbackNet(f) !in Subnets(c, f) then o == Accepted(p) else o == Fell(p)
  {
    if LoopbackNet(f) !in Subnets(c, f) {
      AcceptPairMeans(env, chains, d, Rule(Accept, dst := Some(LoopbackNet(f))), p);
    }
  }

  /** The address-type rule for packets like this one. */
  function AddrtypeFor(p: Packet): Rule { AcceptPair(Rule(Accept, dstLocal := true))[if p.proto == Udp then 0 else 1] }

  /** Destinations the destination chain, as it was installed, knows as the host's own. */
  predicate OwnAccepted(chain: seq<Rule>, f: Family, p: Packet) {
    InNet(LoopbackNet(f), p.dst) || (p.dstLocal && AddrtypeFor(p) in chain)
  }

  lemma AddrtypeMeans(env: Env, chains: Chains, d: nat, k: Capabilities, taken: seq<Rule>, p: Packet)
    requires forall r :: r in taken ==> r in PerfAddrtypeRules(k)
    ensures Traverse(env, chains, d, taken, p)
         == if p.dstLocal && !DnsOverUdp(p) && AddrtypeFor(p) in taken then Accepted(p) else Fell(p)
  {
    hide PerfAddrtypeRules, Matches, AddrtypeFor;
    TraverseAccepts(env, chains, d, taken, p) by { AddrtypeMatches(env, k, p); }
    AddrtypeMatches(env, k, p);
    if p.dstLocal && !DnsOverUdp(p) && AddrtypeFor(p) in taken {
      assert Matches(env, AddrtypeFor(p), p);
    }
  }

  lemma AddrtypeMatches(env: Env, k: Capabilities, p: Packet)
    ensures forall r :: r in PerfAddrtypeRules(k) ==>
      r.target == Accept && (Matches(env, r, p) <==> p.dstLocal && !DnsOverUdp(p) && r == AddrtypeFor(p))
  {
    var pair := AcceptPair(Rule(Accept, dstLocal := true));
    assert Matches(env, pair[0], p) <==> p.dstLocal && p.proto == Udp && p.dport != 53;
    assert Matches(env, pair[1], p) <==> p.dstLocal && p.proto != Udp;
    assert forall r :: r in PerfAddrtypeRules(k) ==> r == pair[0] || r == pair[1];
  }

  lemma {:induction false} PairsNotLocal(nets: seq<Net>)
    ensures forall r :: r in AcceptPairs(nets) ==> !r.dstLocal
    decreases |nets|
  {
    if nets != [] {
      PairsNotLocal(nets[1..]);
    }
  }

  /** Only attempts ask for the type of an address. */
  lemma OthersNotLocal(c: Config, k: Capabilities, f: Family, chain: string, r: Rule)
    requires r in PerfBypassRules(c, k, f, chain) || r in PerfLoopbackRules(c, f)
    ensures !r.dstLocal
  {
    PairsNotLocal(Subnets(c, f));
  }

  /** A destination chain accepts bypassed packets other than DNS over UDP, and
      beyond those exactly packets to the host itself as far as it knows them. */
  lemma DestRulesMean(env: Env, chains: Chains, d: nat, c: Config, k: Capabilities, f: Family, chain: string,
                      rules: seq<Rule>, taken: seq<Rule>, p: Packet)
    requires DestChain(rules, c, k, f, chain, taken)
    ensures Traverse(env, chains, d, rules, p)
         == if !DnsOverUdp(p) && (Bypassed(env, c, k, f, chain, p) || OwnAccepted(rules, f, p)) then Accepted(p) else Fell(p)
  {
    hide PerfAddrtypeRules, PerfLoopbackRules, LoopbackNet;
    var bypass, loopback := PerfBypassRules(c, k, f, chain), PerfLoopbackRules(c, f);
    TraverseAppend(env, chains, d, bypass + taken, loopback, p);
    TraverseAppend(env, chains, d, bypass, taken, p);
    PerfBypassMeans(env, chains, d, c, k, f, chain, p);
    AddrtypeMeans(env, chains, d, k, taken, p);
    LoopbackMeans(env, chains, d, c, f, p);
    ListedLoopback(env, c, k, f, chain, p);
    TakenInChain(c, k, f, chain, rules, taken, p);
    hide PerfBypassRules, Bypassed, AddrtypeFor, DestChain;
  }

  lemma DestChainMeans(env: Env, chains: Chains, d: nat, c: Config, k: Capabilities, f: Family, p: Packet)
    requires HoldsFast(chains, c, k, f)
    ensures Traverse(env, chains, d, chains[TP_PRE_IP], p)
         == if !DnsOverUdp(p) && (Bypassed(env, c, k, f, TP_PRE_IP, p) || OwnAccepted(chains[TP_PRE_IP], f, p))
            then Accepted(p) else Fell(p)
  {
    hide DestChain, Bypassed, OwnAccepted;
    var taken :| DestChain(chains[TP_PRE_IP], c, k, f, TP_PRE_IP, taken);
    DestRulesMean(env, chains, d, c, k, f, TP_PRE_IP, chains[TP_PRE_IP], taken, p);
  }

  lemma TakenInChain(c: Config, k: Capabilities, f: Family, chain: string, rules: seq<Rule>, taken: seq<Rule>, p: Packet)
    requires DestChain(rules, c, k, f, chain, taken)
    ensures AddrtypeFor(p) in rules <==> AddrtypeFor(p) in taken
  {
    hide PerfBypassRules, PerfLoopbackRules, PerfAddrtypeRules;
    if AddrtypeFor(p) in rules && AddrtypeFor(p) !in taken {
      OthersNotLocal(c, k, f, chain, AddrtypeFor(p));
    }
  }

  /** A loopback network that is listed is bypassed. */
  lemma ListedLoopback(env: Env, c: Config, k: Capabilities, f: Family, chain: string, p: Packet)
    ensures LoopbackNet(f) in Subnets(c, f) && InNet(LoopbackNet(f), p.dst) ==> Bypassed(env, c, k, f, chain, p)
  {
  }

  lemma MacTargetsMean(env: Env, chains: Chains, d: nat, iface: string, macs: seq<string>, p: Packet)
    ensures Traverse(env, chains, d, MacTargets(iface, macs, Return), p)
         == if IfMatches(iface, p.inIf) && p.mac in macs then Back(p) else Fell(p)
    ensures Traverse(env, chains, d, MacTargets(iface, macs, Accept), p)
         == if IfMatches(iface, p.inIf) && p.mac in macs then Accepted(p) else Fell(p)
  {
    var back, gone := MacTargets(iface, macs, Return), MacTargets(iface, macs, Accept);
    TraverseReturns(env, chains, d, back, p);
    TraverseAccepts(env, chains, d, gone, p);
    if IfMatches(iface, p.inIf) && p.mac in macs {
      var i :| 0 <= i < |macs| && macs[i] == p.mac;
      assert back[i] in back && Matches(env, back[i], p);
      assert gone[i] in gone && Matches(env, gone[i], p);
    }
  }

  lemma OneMeans(env: Env, chains: Chains, d: nat, r: Rule, p: Packet)
    requires r.target == Accept || r.target == Return
    ensures Traverse(env, chains, d, [r], p)
         == if !Matches(env, r, p) then Fell(p) else if r.target == Accept then Accepted(p) else Back(p)
  {
    assert [r][1..] == [] && Traverse(env, chains, d, [], p) == Fell(p);
  }

  lemma PerfHotspotMeans(env: Env, chains: Chains, d: nat, c: Config, iface: string, p: Packet)
    ensures Traverse(env, chains, d, PerfHotspotRules(c, iface), p)
         == if !IfMatches(iface, p.inIf) then Fell(p) else if p.mac in c.macs <==> c.macWhitelist then Back(p) else Accepted(p)
  {
    var listed := MacTargets(iface, c.macs, if c.macWhitelist then Return else Accept);
    var rest := Rule(if c.macWhitelist then Accept else Return, inIf := Some(iface));
    TraverseAppend(env, chains, d, listed, [rest], p);
    MacTargetsMean(env, chains, d, iface, c.macs, p);
    OneMeans(env, chains, d, rest, p);
    assert PerfHotspotRules(c, iface) == listed + [rest];
  }

  lemma {:induction false} PerfHotspotsMean(env: Env, chains: Chains, d: nat, c: Config, ifaces: seq<string>, p: Packet)
    ensures Traverse(env, chains, d, PerfHotspotsRules(c, ifaces), p)
         == if !AnyIface(ifaces, p.inIf) then Fell(p) else if p.mac in c.macs <==> c.macWhitelist then Back(p) else Accepted(p)
  {
    if ifaces != [] {
      TraverseAppend(env, chains, d, PerfHotspotRules(c, ifaces[0]), PerfHotspotsRules(c, ifaces[1..]), p);
      PerfHotspotMeans(env, chains, d, c, ifaces[0], p);
      PerfHotspotsMean(env, chains, d, c, ifaces[1..], p);
      assert AnyIface(ifaces, p.inIf) == (IfMatches(ifaces[0], p.inIf) || AnyIface(ifaces[1..], p.inIf)) by {
        assert forall i :: i in ifaces ==> i == ifaces[0] || i in ifaces[1..];
      }
    }
  }

  /** The interface chain accepts exactly what the ingress policy forbids. */
  lemma IfChainMeans(env: Env, chains: Chains, d: nat, c: Config, p: Packet)
    ensures Traverse(env, chains, d, PerfIfRules(c), p) == if IngressAllowed(c, p) then Back(p) else Accepted(p)
  {
    hide IfaceRules, PerfHotspotsRules, AnyIface;
    var lo := Rule(Return, inIf := Some("lo"));
    var blocked := IfaceRules(c.blockedIfs, Accept);
    var hotspots := PerfHotspotsRules(c, c.hotspotIfs);
    var tail := if c.macFilter then hotspots + [Rule(Accept)] else [Rule(Return)];
    TraverseAppend(env, chains, d, blocked + [lo], tail, p);
    TraverseAppend(env, chains, d, blocked, [lo], p);
    IfaceRulesMean(env, chains, d, c.blockedIfs, p);
    OneMeans(env, chains, d, lo, p);
    assert Matches(env, lo, p) == (p.inIf == "lo");
    TraverseAppend(env, chains, d, hotspots, [Rule(Accept)], p);
    PerfHotspotsMean(env, chains, d, c, c.hotspotIfs, p);
    OneMeans(env, chains, d, Rule(Accept), p);
    OneMeans(env, chains, d, Rule(Return), p);
  }

  // ----- the fast chain -----

  /** The packets the jumps of the fast chain send through the side chains. */
  predicate Opens(p: Packet) { if p.proto == Tcp then p.syn else p.state == New || p.state == Related }

  predicate Opening(p: Packet) { p.state == New || p.state == Related }

  function DestAccepts(env: Env, chains: Chains, d: nat, p: Packet): bool
    requires d > 0 && TP_PRE_IP in chains
  {
    Traverse(env, chains, d - 1, chains[TP_PRE_IP], p).Accepted?
  }

  function Connmark(p: Packet): Packet { p.(connmark := SetXmark(p.connmark, FWMARK)) }

  lemma ConnmarkBit(m: bv32)
    ensures MarkIs(SetXmark(m, FWMARK), FWMARK)
    ensures SetXmark(SetXmark(m, FWMARK), FWMARK) == SetXmark(m, FWMARK)
  {
  }

  /** Two rules, one per enabled protocol: the one for the packet's protocol decides. */
  lemma JumpsMean(env: Env, chains: Chains, d: nat, c: Config, chain: string, p: Packet)
    requires d > 0 && chain in chains
    requires var o := Traverse(env, chains, d - 1, chains[chain], p); Passes(o) ==> o.p == p
    ensures var o := Traverse(env, chains, d - 1, chains[chain], p);
      Traverse(env, chains, d, PerfJumps(c, chain), p) == if ProtoEnabled(c, p) && Opens(p) && !Passes(o) then o else Fell(p)
  {
    var tcp, udp := When(TcpInMangle(c), [SynJump(chain)]), When(c.proxyUdp, [OpeningJump(chain)]);
    TraverseAppend(env, chains, d, tcp, udp, p);
    assert Traverse(env, chains, d, [], p) == Fell(p);
    assert [SynJump(chain)][1..] == [] && [OpeningJump(chain)][1..] == [];
  }

  lemma ConnmarkSetsMean(env: Env, chains: Chains, d: nat, c: Config, p: Packet)
    ensures Traverse(env, chains, d, ConnmarkSets(c), p) == Fell(if ProtoEnabled(c, p) && Opening(p) then Connmark(p) else p)
  {
    var tcp := When(TcpInMangle(c), [Rule(SetConnMark(FWMARK), proto := Is(Tcp), opening := true)]);
    var udp := When(c.proxyUdp, [Rule(SetConnMark(FWMARK), proto := Is(Udp), opening := true)]);
    TraverseAppend(env, chains, d, tcp, udp, p);
    forall q: Packet ensures Traverse(env, chains, d, [], q) == Fell(q) {}
    assert [Rule(SetConnMark(FWMARK), proto := Is(Tcp), opening := true)][1..] == [];
    assert [Rule(SetConnMark(FWMARK), proto := Is(Udp), opening := true)][1..] == [];
  }

  lemma ConnmarkDispatchesMean(env: Env, chains: Chains, d: nat, c: Config, p: Packet)
    ensures Traverse(env, chains, d, ConnmarkDispatches(c), p)
         == if ProtoEnabled(c, p) && MarkIs(p.connmark, FWMARK) then Dispatch(c, ActTproxy, p) else Fell(p)
  {
    var tcp := When(TcpInMangle(c), [TproxyRule(c, Connmarked(Tcp))]);
    var udp := When(c.proxyUdp, [TproxyRule(c, Connmarked(Udp))]);
    TraverseAppend(env, chains, d, tcp, udp, p);
    assert Traverse(env, chains, d, [], p) == Fell(p);
    assert [TproxyRule(c, Connmarked(Tcp))][1..] == [] && [TproxyRule(c, Connmarked(Udp))][1..] == [];
  }

  /** What the fast chain does with any packet at all, its connection mark included. */
  function FastVerdict(env: Env, chains: Chains, d: nat, c: Config, p: Packet): Outcome
    requires d > 0 && TP_PRE_IP in chains
  {
    if !ProtoEnabled(c, p) then Fell(p)
    else if Opens(p) && (DestAccepts(env, chains, d, p) || !IngressAllowed(c, p)) then Accepted(p)
    else
      var q := if Opening(p) then Connmark(p) else p;
      if MarkIs(q.connmark, FWMARK) then Dispatch(c, ActTproxy, q) else Fell(q)
  }

  lemma FastBodyMeans(env: Env, chains: Chains, d: nat, c: Config, k: Capabilities, f: Family, p: Packet)
    requires d > 0 && HoldsFast(chains, c, k, f)
    ensures Traverse(env, chains, d, PerfExternalBody(c), p) == FastVerdict(env, chains, d, c, p)
  {
    hide PerfJumps, ConnmarkSets, ConnmarkDispatches, ProtoEnabled, IngressAllowed, Bypassed, OwnDestination, DestChain;
    hide MarkIs, SetXmark, PerfIfRules;
    var ip, ifs, sets, ends := PerfJumps(c, TP_PRE_IP), PerfJumps(c, TP_PRE_IF), ConnmarkSets(c), ConnmarkDispatches(c);
    TraverseAppend(env, chains, d, ip + ifs + sets, ends, p);
    TraverseAppend(env, chains, d, ip + ifs, sets, p);
    TraverseAppend(env, chains, d, ip, ifs, p);
    DestChainMeans(env, chains, d - 1, c, k, f, p);
    IfChainMeans(env, chains, d - 1, c, p);
    JumpsMean(env, chains, d, c, TP_PRE_IP, p);
    JumpsMean(env, chains, d, c, TP_PRE_IF, p);
    ConnmarkSetsMean(env, chains, d, c, p);
    var q := if ProtoEnabled(c, p) && Opening(p) then Connmark(p) else p;
    ConnmarkDispatchesMean(env, chains, d, c, q);
    ProtoOfMarked(c, p);
  }

  lemma ProtoOfMarked(c: Config, p: Packet)
    ensures ProtoEnabled(c, Connmark(p)) == ProtoEnabled(c, p)
  {
  }

  // ----- agreement with the standard chain -----

  /** The first packet of a flow: a TCP SYN, or any packet of a new or related
      UDP flow.  The prefix both chains share handles some of them. */
  predicate FirstPacket(p: Packet) { Opening(p) && (p.proto == Tcp ==> p.syn) }

  function Prefix(env: Env, chains: Chains, d: nat, c: Config, k: Capabilities, f: Family, p: Packet): Outcome {
    Traverse(env, chains, d, ExternalPrefix(c, k, f, ActTproxy), p)
  }

  function Standard(env: Env, chains: Chains, d: nat, c: Config, k: Capabilities, f: Family, p: Packet): Outcome {
    Traverse(env, chains, d, TproxyExternalRules(c, k, f), p)
  }

  function Fast(env: Env, chains: Chains, d: nat, c: Config, k: Capabilities, f: Family, p: Packet): Outcome {
    Traverse(env, chains, d, PerfExternalRules(c, k, f), p)
  }

  /** Rules that only read what all packets of a flow share, and change nothing. */
  predicate Blind(r: Rule) {
    && (r.target == Return || r.target == Accept || r.target.Tproxy?)
    && !r.syn && !r.opening && r.mark == None && r.connmark == None && r.outIf == None && r.gid == None && !r.socket
  }

  predicate AllBlind(rules: seq<Rule>) { forall r :: r in rules ==> Blind(r) }

  predicate SameFlow(p: Packet, q: Packet) {
    && p.proto == q.proto && p.inIf == q.inIf && p.dst == q.dst && p.dport == q.dport && p.reply == q.reply
    && p.mac == q.mac && p.uid == q.uid && p.dstLocal == q.dstLocal
  }

  /** Two packets leave a list of rules the same way, their connection marks untouched. */
  predicate Alike(a: Outcome, b: Outcome, p: Packet, q: Packet) {
    || (a == Fell(p) && b == Fell(q))
    || (a == Back(p) && b == Back(q))
    || (a == Accepted(p) && b == Accepted(q))
    || (a.Tproxied? && b.Tproxied? && a.p.connmark == p.connmark && b.p.connmark == q.connmark)
  }

  lemma {:induction false} BlindAlike(env: Env, chains: Chains, d: nat, rules: seq<Rule>, p: Packet, q: Packet)
    requires AllBlind(rules) && SameFlow(p, q)
    ensures Alike(Traverse(env, chains, d, rules, p), Traverse(env, chains, d, rules, q), p, q)
  {
    if rules != [] {
      assert Blind(rules[0]);
      assert Matches(env, rules[0], p) == Matches(env, rules[0], q);
      BlindAlike(env, chains, d, rules[1..], p, q);
    }
  }

  lemma PrefixBlind(c: Config, k: Capabilities, f: Family)
    ensures AllBlind(ExternalPrefix(c, k, f, ActTproxy))
  {
    assert AllBlind(ReplyBypass(c, k)) && AllBlind(MangleDnsRules(c, ActTproxy)) && AllBlind(FakeIp6Rules(c, f, ActTproxy));
  }

  lemma {:induction false} AcceptPairsBlind(nets: seq<Net>)
    ensures AllBlind(AcceptPairs(nets))
  {
    if nets != [] {
      AcceptPairsBlind(nets[1..]);
      assert AllBlind(AcceptPair(Rule(Accept, dst := Some(nets[0]))));
    }
  }

  lemma DestChainBlind(rules: seq<Rule>, c: Config, k: Capabilities, f: Family, chain: string, taken: seq<Rule>)
    requires DestChain(rules, c, k, f, chain, taken)
    ensures AllBlind(rules)
  {
    AcceptPairsBlind(Subnets(c, f));
    assert AllBlind(PerfBypassRules(c, k, f, chain));
    RestBlind(c, k, f);
    hide PerfBypassRules, PerfAddrtypeRules, PerfLoopbackRules;
  }

  lemma RestBlind(c: Config, k: Capabilities, f: Family)
    ensures AllBlind(PerfAddrtypeRules(k)) && AllBlind(PerfLoopbackRules(c, f))
  {
  }

  /** Whichever copy of the CIDR program, a destination is tested the same way
      in the external chain and in the destination chain. */
  lemma SameProgram(env: Env, c: Config, k: Capabilities, f: Family, p: Packet)
    ensures Bypassed(env, c, k, f, TP_PRE_IP, p) == Bypassed(env, c, k, f, EXTERNAL, p)
  {
    var s := TP_PRE_IP;
    assert Contains(s[6..], "_PRE_");
    assert Contains(s[5..], "_PRE_") && Contains(s[4..], "_PRE_") && Contains(s[3..], "_PRE_");
    assert Contains(s[2..], "_PRE_") && Contains(s[1..], "_PRE_") && Contains(s, "_PRE_");
    assert CnipMatch(c, k, f, TP_PRE_IP) == CnipMatch(c, k, f, EXTERNAL);
  }

  lemma StandardMeans(env: Env, chains: Chains, d: nat, refused: set<Rule>, c: Config, k: Capabilities, f: Family, p: Packet)
    requires d > 0 && HoldsLocal(chains, refused, c, f)
    ensures var a := Prefix(env, chains, d, c, k, f, p);
      Standard(env, chains, d, c, k, f, p).Tproxied? == (a.Tproxied? || (a.Fell? && StandardPolicy(env, refused, c, k, f, ActTproxy, p)))
  {
    hide ExternalPrefix, ExternalBody, StandardPolicy;
    var a, b := ExternalPrefix(c, k, f, ActTproxy), ExternalBody(c, k, f, ActTproxy);
    assert TproxyExternalRules(c, k, f) == a + b;
    TraverseAppend(env, chains, d, a, b, p);
    PrefixBlind(c, k, f);
    BlindAlike(env, chains, d, a, p, p);
    StandardExternalMeans(env, chains, d, refused, c, k, f, ActTproxy, p);
  }

  lemma FastMeans(env: Env, chains: Chains, d: nat, c: Config, k: Capabilities, f: Family, p: Packet)
    requires d > 0 && HoldsFast(chains, c, k, f)
    ensures var a := Prefix(env, chains, d, c, k, f, p);
      Alike(a, a, p, p) && Fast(env, chains, d, c, k, f, p) == if a.Fell? then FastVerdict(env, chains, d, c, p) else a
  {
    hide ExternalPrefix, PerfExternalBody, FastVerdict, HoldsFast;
    var a, b := ExternalPrefix(c, k, f, ActTproxy), PerfExternalBody(c);
    assert PerfExternalRules(c, k, f) == a + b;
    TraverseAppend(env, chains, d, a, b, p);
    PrefixBlind(c, k, f);
    BlindAlike(env, chains, d, a, p, p);
    FastBodyMeans(env, chains, d, c, k, f, p);
  }

  /** Where the chains part on first packets: DNS over UDP to a bypassed
      destination, and destinations only one chain knows as the host's own. */
  predicate Differ(env: Env, chain: seq<Rule>, refused: set<Rule>, c: Config, k: Capabilities, f: Family, p: Packet) {
    if DnsOverUdp(p) then Bypassed(env, c, k, f, EXTERNAL, p)
    else !Bypassed(env, c, k, f, EXTERNAL, p) && LocalHit(refused, c, f, p) != OwnAccepted(chain, f, p)
  }

  lemma DestAcceptsMeans(env: Env, chains: Chains, d: nat, c: Config, k: Capabilities, f: Family, p: Packet)
    requires d > 0 && HoldsFast(chains, c, k, f)
    ensures DestAccepts(env, chains, d, p)
         == (!DnsOverUdp(p) && (Bypassed(env, c, k, f, EXTERNAL, p) || OwnAccepted(chains[TP_PRE_IP], f, p)))
    ensures OwnAccepted(chains[TP_PRE_IP], f, p) ==> OwnDestination(f, p)
  {
    hide Bypassed, DnsOverUdp;
    SameProgram(env, c, k, f, p);
    DestChainMeans(env, chains, d - 1, c, k, f, p);
  }

  lemma FastFirstMeans(env: Env, chains: Chains, d: nat, c: Config, k: Capabilities, f: Family, p: Packet)
    requires d > 0 && HoldsFast(chains, c, k, f) && FirstPacket(p)
    ensures var a := Prefix(env, chains, d, c, k, f, p);
      Fast(env, chains, d, c, k, f, p).Tproxied?
        == (a.Tproxied? || (a.Fell? && ProtoEnabled(c, p) && !DestAccepts(env, chains, d, p) && IngressAllowed(c, p)))
  {
    hide Prefix, Fast, IngressAllowed, DestAccepts, HoldsFast, SetXmark;
    FastMeans(env, chains, d, c, k, f, p);
    ConnmarkBit(p.connmark);
    assert MarkIs(Connmark(p).connmark, FWMARK);
  }

  /** Both chains dispatch the same first packets exactly where they do not differ. */
  lemma FirstPacketsCompared(env: Env, chains: Chains, d: nat, refused: set<Rule>, c: Config, k: Capabilities, f: Family, p: Packet)
    requires d > 0 && HoldsLocal(chains, refused, c, f) && HoldsFast(chains, c, k, f) && FirstPacket(p)
    ensures (Fast(env, chains, d, c, k, f, p).Tproxied? == Standard(env, chains, d, c, k, f, p).Tproxied?)
         == !(Prefix(env, chains, d, c, k, f, p).Fell? && ProtoEnabled(c, p) && IngressAllowed(c, p)
              && Differ(env, chains[TP_PRE_IP], refused, c, k, f, p))
  {
    hide Prefix, Standard, Fast, Bypassed, IngressAllowed, DestAccepts, HoldsFast, HoldsLocal, OwnAccepted, InAny;
    StandardMeans(env, chains, d, refused, c, k, f, p);
    FastFirstMeans(env, chains, d, c, k, f, p);
    DestAcceptsMeans(env, chains, d, c, k, f, p);
  }

  /** Settings that proxy both protocols, leave DNS alone and bypass 10.0.0.0/8. */
  function Plainest(c: Config): Config {
    c.(mode := TproxyOnly, proxyTcp := true, proxyUdp := true, dnsTcp := false, dnsUdp := false, bypassCn := false,
       blockedIfs := [], macFilter := false, subnets4 := [Net(0x0a00_0000, 8, 32)], localCidrs4 := [])
  }

  lemma PlainestMeans(env: Env, chains: Chains, d: nat, c: Config, k: Capabilities, p: Packet)
    requires !p.reply
    ensures Prefix(env, chains, d, Plainest(c), k, V4, p).Fell? && IngressAllowed(Plainest(c), p)
    ensures p.proto == Tcp || p.proto == Udp ==> ProtoEnabled(Plainest(c), p)
    ensures Bypassed(env, Plainest(c), k, V4, EXTERNAL, p) == InNet(Net(0x0a00_0000, 8, 32), p.dst)
    ensures LocalCidrs(Plainest(c), V4) == []
  {
    var s := Plainest(c);
    assert MangleDnsRules(s, ActTproxy) == [] && FakeIp6Rules(s, V4, ActTproxy) == [];
    assert ExternalPrefix(s, k, V4, ActTproxy) == ReplyBypass(s, k);
    if ConntrackEnabled(s, k) {
      OneMeans(env, chains, d, Rule(Return, reply := true), p);
    }
    assert Subnets(s, V4) == [Net(0x0a00_0000, 8, 32)];
    assert Subnets(s, V4)[0] in Subnets(s, V4);
  }

  lemma Pow2Of24()
    ensures Pow2(24) == 0x100_0000
  {
    assert Pow2(12) == 4096;
    assert Pow2(16) == 16 * Pow2(12);
    assert Pow2(20) == 16 * Pow2(16);
    assert Pow2(24) == 16 * Pow2(20);
  }

  /** A DNS query over UDP to 10.0.0.1 goes to the proxy by the fast chain only. */
  lemma DnsToBypassedDiffers(env: Env, chains: Chains, d: nat, refused: set<Rule>, c: Config, k: Capabilities, p: Packet)
    requires d > 0 && HoldsLocal(chains, refused, Plainest(c), V4) && HoldsFast(chains, Plainest(c), k, V4)
    requires p.proto == Udp && p.dport == 53 && p.state == New && !p.reply && p.dst == 0x0a00_0001
    ensures Fast(env, chains, d, Plainest(c), k, V4, p).Tproxied? && !Standard(env, chains, d, Plainest(c), k, V4, p).Tproxied?
  {
    Pow2Of24();
    PlainestMeans(env, chains, d, c, k, p);
    hide Prefix, Standard, Fast, Bypassed, IngressAllowed, DestAccepts, HoldsFast, HoldsLocal, Plainest, Pow2;
    StandardMeans(env, chains, d, refused, Plainest(c), k, V4, p);
    FastFirstMeans(env, chains, d, Plainest(c), k, V4, p);
    DestAcceptsMeans(env, chains, d, Plainest(c), k, V4, p);
  }

  lemma LoopbackAccepted(env: Env, chains: Chains, d: nat, c: Config, k: Capabilities, p: Packet)
    requires d > 0 && HoldsFast(chains, Plainest(c), k, V4)
    requires p.proto == Tcp && p.syn && p.dport == 80 && p.state == New && !p.reply && p.dst == 0x7f00_0001
    ensures !Fast(env, chains, d, Plainest(c), k, V4, p).Tproxied?
  {
    PlainestMeans(env, chains, d, c, k, p);
    assert InNet(LoopbackNet(V4), p.dst) by {
      Pow2Of24();
    }
    hide Prefix, Fast, Bypassed, IngressAllowed, DestAccepts, HoldsFast, Plainest, Pow2, InNet;
    FastFirstMeans(env, chains, d, Plainest(c), k, V4, p);
    DestAcceptsMeans(env, chains, d, Plainest(c), k, V4, p);
  }

  lemma LoopbackDispatched(env: Env, chains: Chains, d: nat, refused: set<Rule>, c: Config, k: Capabilities, p: Packet)
    requires d > 0 && HoldsLocal(chains, refused, Plainest(c), V4)
    requires p.proto == Tcp && p.syn && p.dport == 80 && p.state == New && !p.reply && p.dst == 0x7f00_0001
    ensures Standard(env, chains, d, Plainest(c), k, V4, p).Tproxied?
  {
    PlainestMeans(env, chains, d, c, k, p);
    assert !InNet(Net(0x0a00_0000, 8, 32), p.dst) by {
      Pow2Of24();
    }
    hide Prefix, Standard, Bypassed, IngressAllowed, HoldsLocal, Plainest, Pow2, InNet;
    StandardMeans(env, chains, d, refused, Plainest(c), k, V4, p);
  }

  /** A TCP SYN to port 80 of 127.0.0.1 goes to the proxy by the standard chain only. */
  lemma LoopbackDiffers(env: Env, chains: Chains, d: nat, refused: set<Rule>, c: Config, k: Capabilities, p: Packet)
    requires d > 0 && HoldsLocal(chains, refused, Plainest(c), V4) && HoldsFast(chains, Plainest(c), k, V4)
    requires p.proto == Tcp && p.syn && p.dport == 80 && p.state == New && !p.reply && p.dst == 0x7f00_0001
    ensures !Fast(env, chains, d, Plainest(c), k, V4, p).Tproxied? && Standard(env, chains, d, Plainest(c), k, V4, p).Tproxied?
  {
    hide *;
    LoopbackAccepted(env, chains, d, c, k, p);
    LoopbackDispatched(env, chains, d, refused, c, k, p);
  }

  /** In particular they agree on first packets to foreign destinations that are not DNS over UDP. */
  lemma FastAgreesWithStandard(env: Env, chains: Chains, d: nat, refused: set<Rule>, c: Config, k: Capabilities, f: Family, p: Packet)
    requires d > 0 && HoldsLocal(chains, refused, c, f) && HoldsFast(chains, c, k, f) && FirstPacket(p)
    requires !OwnDestination(f, p) && !InAny(LocalCidrs(c, f), p.dst) && !DnsOverUdp(p)
    ensures Fast(env, chains, d, c, k, f, p).Tproxied? == Standard(env, chains, d, c, k, f, p).Tproxied?
  {
    hide Prefix, Standard, Fast, Bypassed, IngressAllowed, DestAccepts, HoldsFast, HoldsLocal, OwnDestination, InAny, OwnAccepted, LocalHit;
    LocalHitUnrefused(refused, c, f, p);
    FirstPacketsCompared(env, chains, d, refused, c, k, f, p);
    DestAcceptsMeans(env, chains, d, c, k, f, p);
  }

  // ----- in front of the chain -----

  /** Setups that divert TCP packets of sockets that exist to them. */
  predicate Diverts(c: Config, k: Capabilities) { c.mode != Enhance && k.socketMatch && PerformanceChain(c, k) }

  /** The start of PREROUTING once a setup has put its jumps in front. */
  function Entry(c: Config, k: Capabilities): seq<Rule> { When(Diverts(c, k), [DivertJump()]) + [Rule(Jump(EXTERNAL))] }

  ghost predicate HoldsEntry(chains: Chains, c: Config, k: Capabilities, f: Family) {
    && HoldsFast(chains, c, k, f)
    && EXTERNAL in chains && chains[EXTERNAL] == PerfExternalRules(c, k, f)
    && (Diverts(c, k) ==> DIVERT in chains && chains[DIVERT] == [Rule(SetMark(FWMARK)), Rule(Accept)])
  }

  predicate ToSocket(c: Config, k: Capabilities, p: Packet) { Diverts(c, k) && p.proto == Tcp && p.socket }

  lemma DivertMeans(env: Env, chains: Chains, d: nat, p: Packet)
    ensures Traverse(env, chains, d, [Rule(SetMark(FWMARK)), Rule(Accept)], p) == Accepted(p.(mark := SetXmark(p.mark, FWMARK)))
  {
    hide SetXmark;
    var marking := [Rule(SetMark(FWMARK)), Rule(Accept)];
    assert marking[1..] == [Rule(Accept)];
  }

  /** A rule that jumps, and the packets it takes there. */
  lemma JumpMeans(env: Env, chains: Chains, d: nat, r: Rule, p: Packet)
    requires d > 0 && r.target.Jump? && r.target.chain in chains
    ensures Traverse(env, chains, d, [r], p)
         == if !Matches(env, r, p) then Fell(p)
            else var o := Traverse(env, chains, d - 1, chains[r.target.chain], p); if Passes(o) then Fell(o.p) else o
  {
    hide Matches;
    assert [r][1..] == [];
    forall q: Packet ensures Traverse(env, chains, d, [], q) == Fell(q) {}
  }

  lemma TraverseEmpty(env: Env, chains: Chains, d: nat, p: Packet)
    ensures Traverse(env, chains, d, [], p) == Fell(p)
  {
  }

  lemma EntryRules(env: Env, c: Config, k: Capabilities, p: Packet)
    ensures Entry(c, k) == (if Diverts(c, k) then [DivertJump()] else []) + [Rule(Jump(EXTERNAL))]
    ensures DivertJump().target == Jump(DIVERT) && Matches(env, Rule(Jump(EXTERNAL)), p)
    ensures ToSocket(c, k, p) == (Diverts(c, k) && Matches(env, DivertJump(), p))
  {
  }

  lemma EntryChains(env: Env, chains: Chains, d: nat, c: Config, k: Capabilities, f: Family, p: Packet)
    requires HoldsEntry(chains, c, k, f)
    ensures EXTERNAL in chains && Fast(env, chains, d, c, k, f, p) == Traverse(env, chains, d, chains[EXTERNAL], p)
    ensures Diverts(c, k) ==> DIVERT in chains && chains[DIVERT] == [Rule(SetMark(FWMARK)), Rule(Accept)]
  {
    hide HoldsFast, PerfExternalRules, Traverse;
  }

  lemma AcceptedStops(p: Packet)
    ensures !Passes(Accepted(p))
  {
  }

  /** A packet of an existing transparent socket is marked for it and accepted, any
      other meets the external chain. */
  lemma EntryMeans(env: Env, chains: Chains, d: nat, c: Config, k: Capabilities, f: Family, p: Packet)
    requires d > 0 && HoldsEntry(chains, c, k, f)
    ensures Traverse(env, chains, d, Entry(c, k), p)
         == if ToSocket(c, k, p) then Accepted(p.(mark := SetXmark(p.mark, FWMARK)))
            else var o := Fast(env, chains, d - 1, c, k, f, p); if Passes(o) then Fell(o.p) else o
  {
    var divert, external := DivertJump(), Rule(Jump(EXTERNAL));
    hide *;
    EntryRules(env, c, k, p);
    EntryChains(env, chains, d - 1, c, k, f, p);
    TraverseAppend(env, chains, d, if Diverts(c, k) then [divert] else [], [external], p);
    JumpMeans(env, chains, d, external, p);
    if Diverts(c, k) {
      JumpMeans(env, chains, d, divert, p);
      DivertMeans(env, chains, d - 1, p);
      assert Passes(Accepted(p.(mark := SetXmark(p.mark, FWMARK)))) == false by { AcceptedStops(p.(mark := SetXmark(p.mark, FWMARK))); }
    } else {
      TraverseEmpty(env, chains, d, p);
    }
  }

  // ----- runs of a flow -----

  function MarkAfter(o: Outcome, m: bv32): bv32 {
    match o
    case Fell(p) => p.connmark
    case Back(p) => p.connmark
    case Accepted(p) => p.connmark
    case Tproxied(_, p) => p.connmark
    case _ => m
  }

  /** The verdicts on successive packets of one connection, whose mark conntrack carries. */
  function FlowRun(env: Env, chains: Chains, d: nat, rules: seq<Rule>, packets: seq<Packet>, m: bv32): (s: seq<Outcome>)
    ensures |s| == |packets|
  {
    if packets == [] then [] else
      var o := Traverse(env, chains, d, rules, packets[0].(connmark := m));
      [o] + FlowRun(env, chains, d, rules, packets[1..], MarkAfter(o, m))
  }

  /** Packets of one external flow: the original direction keeps its addresses,
      ports, interface and MAC, and its TCP packets open a connection only as SYN. */
  predicate OneFlow(first: Packet, packets: seq<Packet>) {
    forall p :: p in packets && !p.reply ==> SameFlow(first, p) && (p.proto == Tcp && Opening(p) ==> p.syn)
  }

  /** The bit is set exactly on connections whose first packet was dispatched by it. */
  predicate Carries(env: Env, chains: Chains, d: nat, c: Config, k: Capabilities, f: Family, first: Packet, m: bv32)
    requires d > 0 && TP_PRE_IP in chains
  {
    Prefix(env, chains, d, c, k, f, first).Fell? && ProtoEnabled(c, first) ==>
      (MarkIs(m, FWMARK) <==> !DestAccepts(env, chains, d, first) && IngressAllowed(c, first))
  }

  lemma ReplyReturns(env: Env, chains: Chains, d: nat, c: Config, k: Capabilities, f: Family, p: Packet)
    requires PerformanceChain(c, k) && p.reply
    ensures Fast(env, chains, d, c, k, f, p) == Back(p)
  {
    var r := Rule(Return, reply := true);
    var rules := PerfExternalRules(c, k, f);
    assert ReplyBypass(c, k) == [r];
    assert rules[0] == r && Matches(env, r, p);
  }

  lemma SameFlowAlike(env: Env, chains: Chains, d: nat, c: Config, k: Capabilities, f: Family, p: Packet, q: Packet)
    requires d > 0 && HoldsFast(chains, c, k, f) && SameFlow(p, q)
    ensures Alike(Prefix(env, chains, d, c, k, f, p), Prefix(env, chains, d, c, k, f, q), p, q)
    ensures DestAccepts(env, chains, d, p) == DestAccepts(env, chains, d, q)
    ensures IngressAllowed(c, p) == IngressAllowed(c, q) && ProtoEnabled(c, p) == ProtoEnabled(c, q)
  {
    PrefixBlind(c, k, f);
    BlindAlike(env, chains, d, ExternalPrefix(c, k, f, ActTproxy), p, q);
    var taken :| DestChain(chains[TP_PRE_IP], c, k, f, TP_PRE_IP, taken);
    DestChainBlind(chains[TP_PRE_IP], c, k, f, TP_PRE_IP, taken);
    BlindAlike(env, chains, d - 1, chains[TP_PRE_IP], p, q);
  }

  /** One packet of the original direction keeps the bit as it is and gets the
      first packet's verdict. */
  lemma FlowStep(env: Env, chains: Chains, d: nat, c: Config, k: Capabilities, f: Family, first: Packet, p: Packet)
    requires d > 0 && HoldsFast(chains, c, k, f)
    requires SameFlow(first, p) && (p.proto == Tcp && Opening(p) ==> p.syn)
    requires (FirstPacket(p) && !MarkIs(p.connmark, FWMARK)) || Carries(env, chains, d, c, k, f, first, p.connmark)
    ensures var o := Fast(env, chains, d, c, k, f, p);
      && o.Tproxied? == Dispatches(env, chains, d, c, k, f, first)
      && Carries(env, chains, d, c, k, f, first, MarkAfter(o, p.connmark))
  {
    hide Prefix, Fast, IngressAllowed, DestAccepts, HoldsFast, SetXmark;
    FastMeans(env, chains, d, c, k, f, p);
    SameFlowAlike(env, chains, d, c, k, f, first, p);
    ConnmarkBit(p.connmark);
    assert MarkIs(Connmark(p).connmark, FWMARK);
  }

  /** Whether the fast chain dispatches a flow, read off its first packet. */
  predicate Dispatches(env: Env, chains: Chains, d: nat, c: Config, k: Capabilities, f: Family, first: Packet)
    requires d > 0 && TP_PRE_IP in chains
  {
    var a := Prefix(env, chains, d, c, k, f, first);
    a.Tproxied? || (a.Fell? && ProtoEnabled(c, first) && !DestAccepts(env, chains, d, first) && IngressAllowed(c, first))
  }

  /** What one packet of a flow meets: its socket, or the verdict on the first packet. */
  predicate Fate(c: Config, k: Capabilities, p: Packet, o: Outcome, dispatched: bool) {
    if ToSocket(c, k, p) then o.Accepted? && MarkIs(o.p.mark, FWMARK) else o.Tproxied? == (!p.reply && dispatched)
  }

  lemma EntryFate(env: Env, chains: Chains, d: nat, c: Config, k: Capabilities, f: Family, p: Packet, dispatched: bool)
    requires d > 0 && HoldsEntry(chains, c, k, f)
    requires ToSocket(c, k, p) || Fast(env, chains, d - 1, c, k, f, p).Tproxied? == (!p.reply && dispatched)
    ensures var o := Traverse(env, chains, d, Entry(c, k), p);
      && Fate(c, k, p, o, dispatched)
      && MarkAfter(o, p.connmark) == if ToSocket(c, k, p) then p.connmark else MarkAfter(Fast(env, chains, d - 1, c, k, f, p), p.connmark)
  {
    EntryMeans(env, chains, d, c, k, f, p);
    ConnmarkBit(p.mark);
    hide Fast, HoldsEntry, Entry, SetXmark, ToSocket, Traverse;
  }

  lemma FlowStarts(env: Env, chains: Chains, d: nat, c: Config, k: Capabilities, f: Family,
                   first: Packet, packets: seq<Packet>, m: bv32)
    requires PerformanceChain(c, k) && d > 1 && HoldsEntry(chains, c, k, f)
    requires packets != [] && packets[0] == first && !first.reply && FirstPacket(first) && !MarkIs(m, FWMARK)
    requires OneFlow(first, packets) && !ToSocket(c, k, first)
    ensures var o, dispatched := Traverse(env, chains, d, Entry(c, k), first.(connmark := m)), Dispatches(env, chains, d - 1, c, k, f, first);
      && o.Tproxied? == dispatched && Fate(c, k, first.(connmark := m), o, dispatched)
      && Carries(env, chains, d - 1, c, k, f, first, MarkAfter(o, m))
  {
    assert TP_PRE_IP in chains;
    hide Entry, SetXmark, Carries, Dispatches, PerformanceChain, FirstPacket, MarkIs, ToSocket, HoldsFast, Traverse;
    var p := first.(connmark := m);
    assert SameFlow(first, first) && SameFlow(first, p) && first in packets;
    FirstStays(c, k, first, m);
    FlowStep(env, chains, d - 1, c, k, f, first, p);
    EntryFate(env, chains, d, c, k, f, p, Dispatches(env, chains, d - 1, c, k, f, first));
  }

  /** Flow consistency: of a connection that starts unmarked and without a socket,
      all original-direction packets have the verdict of the first, but for those
      handed to the socket the proxy has opened for it; replies are never dispatched. */
  lemma FlowConsistent(env: Env, chains: Chains, d: nat, c: Config, k: Capabilities, f: Family,
                       first: Packet, packets: seq<Packet>, m: bv32)
    requires PerformanceChain(c, k) && d > 1 && HoldsEntry(chains, c, k, f)
    requires packets != [] && packets[0] == first && !first.reply && FirstPacket(first) && !MarkIs(m, FWMARK)
    requires OneFlow(first, packets) && !ToSocket(c, k, first)
    ensures var run := FlowRun(env, chains, d, Entry(c, k), packets, m);
      && run[0].Tproxied? == Dispatches(env, chains, d - 1, c, k, f, first)
      && forall i :: 0 <= i < |packets| ==> Fate(c, k, packets[i], run[i], run[0].Tproxied?)
  {
    var p, dispatched := first.(connmark := m), Dispatches(env, chains, d - 1, c, k, f, first);
    var o := Traverse(env, chains, d, Entry(c, k), p);
    hide *;
    FlowStarts(env, chains, d, c, k, f, first, packets, m);
    TailFlow(first, packets);
    FlowGoesOn(env, chains, d, c, k, f, first, packets[1..], MarkAfter(o, m));
    FlowIndex(env, chains, d, Entry(c, k), packets, m);
    FateStays(c, k, first, m, o, dispatched);
    FatesJoined(c, k, packets, FlowRun(env, chains, d, Entry(c, k), packets, m), dispatched);
    FatesEach(c, k, packets, FlowRun(env, chains, d, Entry(c, k), packets, m), dispatched);
  }

  lemma FatesEach(c: Config, k: Capabilities, packets: seq<Packet>, run: seq<Outcome>, dispatched: bool)
    requires Fates(c, k, packets, run, dispatched)
    ensures |run| == |packets| && forall i :: 0 <= i < |packets| ==> Fate(c, k, packets[i], run[i], dispatched)
  {
  }

  lemma TailFlow(first: Packet, packets: seq<Packet>)
    requires OneFlow(first, packets) && packets != []
    ensures OneFlow(first, packets[1..])
  {
    assert forall q :: q in packets[1..] ==> q in packets;
  }

  lemma FlowIndex(env: Env, chains: Chains, d: nat, rules: seq<Rule>, packets: seq<Packet>, m: bv32)
    requires packets != []
    ensures var run, o := FlowRun(env, chains, d, rules, packets, m), Traverse(env, chains, d, rules, packets[0].(connmark := m));
      run[0] == o && run[1..] == FlowRun(env, chains, d, rules, packets[1..], MarkAfter(o, m))
  {
  }

  lemma FirstStays(c: Config, k: Capabilities, first: Packet, m: bv32)
    ensures FirstPacket(first.(connmark := m)) == FirstPacket(first) && ToSocket(c, k, first.(connmark := m)) == ToSocket(c, k, first)
  {
  }

  lemma FateStays(c: Config, k: Capabilities, p: Packet, m: bv32, o: Outcome, dispatched: bool)
    ensures Fate(c, k, p.(connmark := m), o, dispatched) == Fate(c, k, p, o, dispatched)
  {
  }

  ghost predicate Fates(c: Config, k: Capabilities, packets: seq<Packet>, run: seq<Outcome>, dispatched: bool) {
    |run| == |packets| && forall i :: 0 <= i < |packets| ==> Fate(c, k, packets[i], run[i], dispatched)
  }

  lemma FatesJoined(c: Config, k: Capabilities, packets: seq<Packet>, run: seq<Outcome>, dispatched: bool)
    requires packets != [] && run != [] && Fate(c, k, packets[0], run[0], dispatched) && Fates(c, k, packets[1..], run[1..], dispatched)
    ensures Fates(c, k, packets, run, dispatched)
  {
    hide Fate;
    forall i | 0 <= i < |packets| ensures Fate(c, k, packets[i], run[i], dispatched) {
      if i > 0 {
        assert packets[1..][i - 1] == packets[i] && run[1..][i - 1] == run[i];
      }
    }
  }

  lemma {:induction false} FlowGoesOn(env: Env, chains: Chains, d: nat, c: Config, k: Capabilities, f: Family,
                                      first: Packet, packets: seq<Packet>, m: bv32)
    requires PerformanceChain(c, k) && d > 1 && HoldsEntry(chains, c, k, f)
    requires OneFlow(first, packets) && Carries(env, chains, d - 1, c, k, f, first, m)
    ensures Fates(c, k, packets, FlowRun(env, chains, d, Entry(c, k), packets, m), Dispatches(env, chains, d - 1, c, k, f, first))
    decreases |packets|
  {
    if packets != [] {
      var dispatched := Dispatches(env, chains, d - 1, c, k, f, first);
      var p := packets[0].(connmark := m);
      var o := Traverse(env, chains, d, Entry(c, k), p);
      GoesOnStep(env, chains, d, c, k, f, first, packets, m);
      hide *;
      TailFlow(first, packets);
      FlowGoesOn(env, chains, d, c, k, f, first, packets[1..], MarkAfter(o, m));
      FlowIndex(env, chains, d, Entry(c, k), packets, m);
      FateStays(c, k, packets[0], m, o, dispatched);
      FatesJoined(c, k, packets, FlowRun(env, chains, d, Entry(c, k), packets, m), dispatched);
    } else {
      hide Fate;
      assert FlowRun(env, chains, d, Entry(c, k), packets, m) == [];
    }
  }

  lemma GoesOnStep(env: Env, chains: Chains, d: nat, c: Config, k: Capabilities, f: Family, first: Packet, packets: seq<Packet>, m: bv32)
    requires PerformanceChain(c, k) && d > 1 && HoldsEntry(chains, c, k, f) && packets != []
    requires OneFlow(first, packets) && Carries(env, chains, d - 1, c, k, f, first, m)
    ensures var p := packets[0].(connmark := m);
      var o := Traverse(env, chains, d, Entry(c, k), p);
      Fate(c, k, p, o, Dispatches(env, chains, d - 1, c, k, f, first)) && Carries(env, chains, d - 1, c, k, f, first, MarkAfter(o, m))
  {
    assert TP_PRE_IP in chains;
    hide PerfExternalRules, Entry, SetXmark, HoldsFast, Carries, Dispatches, PerformanceChain, ToSocket, Fate, Traverse;
    var p := packets[0].(connmark := m);
    assert packets[0] in packets;
    if p.reply {
      ReplyReturns(env, chains, d - 1, c, k, f, p);
    } else {
      assert SameFlow(first, p);
      FlowStep(env, chains, d - 1, c, k, f, first, p);
    }
    EntryFate(env, chains, d, c, k, f, p, Dispatches(env, chains, d - 1, c, k, f, first));
  }
}
