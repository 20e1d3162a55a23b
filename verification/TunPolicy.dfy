/**
 What the TUN chains mean: they leave a packet plain, mark it to bypass the TUN
 device, or mark it to be routed there.
 */
module TunPolicy {
  import opened Bytes
  import opened Netfilter
  import opened RuleConfig
  import opened RuleScripts
  import opened ExternalPolicy
  import opened LocalPolicy

  datatype TunMark = Plain | Bypass | Route

  function WithMark(p: Packet, t: TunMark): Packet {
    match t
    case Plain => p
    case Bypass => p.(mark := SetXmark(p.mark, TUN_BYPASS))
    case Route => p.(mark := SetXmark(p.mark, TUN_ROUTE))
  }

  /** Bits 24 and 25 of a mark. */
  predicate Bit24(m: bv32) { m & 0x1000000 != 0 }

  predicate Bit25(m: bv32) { m & 0x2000000 != 0 }

  predicate Unmarked(p: Packet) { !Bit24(p.mark) && !Bit25(p.mark) }

  // ----- mark arithmetic -----

  lemma RouteThenBypass(m: bv32)
    ensures SetXmark(SetXmark(m, TUN_ROUTE), TUN_BYPASS) == SetXmark(m, TUN_ROUTE)
  {
  }

  lemma BypassThenRoute(m: bv32)
    ensures SetXmark(SetXmark(m, TUN_BYPASS), TUN_ROUTE) == SetXmark(m, TUN_ROUTE)
  {
  }

  lemma SameTwice(m: bv32)
    ensures SetXmark(SetXmark(m, TUN_ROUTE), TUN_ROUTE) == SetXmark(m, TUN_ROUTE)
    ensures SetXmark(SetXmark(m, TUN_BYPASS), TUN_BYPASS) == SetXmark(m, TUN_BYPASS)
  {
  }

  lemma RouteReads(m: bv32)
    ensures MarkIs(SetXmark(m, TUN_ROUTE), TUN_BYPASS)
    ensures Bit24(SetXmark(m, TUN_ROUTE)) && Bit25(SetXmark(m, TUN_ROUTE))
  {
  }

  lemma BypassReads(m: bv32)
    ensures MarkIs(SetXmark(m, TUN_BYPASS), TUN_BYPASS)
    ensures Bit25(SetXmark(m, TUN_BYPASS)) && Bit24(SetXmark(m, TUN_BYPASS)) == Bit24(m)
  {
  }

  lemma ReadsBit25(m: bv32)
    ensures MarkIs(m, TUN_BYPASS) == Bit25(m)
  {
  }

  /** A route mark absorbs a bypass mark, whichever comes first; both read as bypass. */
  lemma MarksCombine(m: bv32)
    ensures SetXmark(SetXmark(m, TUN_ROUTE), TUN_BYPASS) == SetXmark(m, TUN_ROUTE)
    ensures SetXmark(SetXmark(m, TUN_BYPASS), TUN_ROUTE) == SetXmark(m, TUN_ROUTE)
    ensures SetXmark(SetXmark(m, TUN_ROUTE), TUN_ROUTE) == SetXmark(m, TUN_ROUTE)
    ensures SetXmark(SetXmark(m, TUN_BYPASS), TUN_BYPASS) == SetXmark(m, TUN_BYPASS)
    ensures MarkIs(SetXmark(m, TUN_ROUTE), TUN_BYPASS) && MarkIs(SetXmark(m, TUN_BYPASS), TUN_BYPASS)
  {
    hide SetXmark, MarkIs, Bit24, Bit25;
    RouteThenBypass(m);
    BypassThenRoute(m);
    SameTwice(m);
    RouteReads(m);
    BypassReads(m);
  }

  lemma BitsOfMarks(m: bv32)
    ensures Bit24(SetXmark(m, TUN_ROUTE)) && Bit25(SetXmark(m, TUN_ROUTE))
    ensures Bit25(SetXmark(m, TUN_BYPASS)) && Bit24(SetXmark(m, TUN_BYPASS)) == Bit24(m)
    ensures MarkIs(m, TUN_BYPASS) == Bit25(m)
  {
    hide SetXmark, MarkIs, Bit24, Bit25;
    RouteReads(m);
    BypassReads(m);
    ReadsBit25(m);
  }

  /** The three marks can be told apart on a packet that came unmarked. */
  lemma MarkBits(p: Packet, t: TunMark)
    requires Unmarked(p)
    ensures Bit24(WithMark(p, t).mark) == (t == Route)
    ensures Bit25(WithMark(p, t).mark) == (t != Plain)
  {
    BitsOfMarks(p.mark);
  }

  // ----- bit 24 never stands alone -----

  predicate TunTarget(t: Target) { t == Return || t == SetMark(TUN_BYPASS) || t == SetMark(TUN_ROUTE) }

  predicate TunRules(rules: seq<Rule>) { forall r | r in rules :: TunTarget(r.target) }

  predicate NotAlone(m: bv32) { Bit24(m) ==> Bit25(m) }

  lemma SetKeepsPair(m: bv32)
    requires NotAlone(m)
    ensures NotAlone(SetXmark(m, TUN_BYPASS)) && NotAlone(SetXmark(m, TUN_ROUTE))
  {
    BitsOfMarks(m);
  }

  /** However a list of TUN rules is left, bit 24 comes with bit 25. */
  lemma {:induction false} PairKept(env: Env, chains: Chains, d: nat, rules: seq<Rule>, p: Packet)
    requires TunRules(rules) && NotAlone(p.mark)
    ensures var o := Traverse(env, chains, d, rules, p); Passes(o) && NotAlone(o.p.mark)
    decreases |rules|
  {
    hide SetXmark, NotAlone, Matches;
    if rules != [] {
      assert TunTarget(rules[0].target);
      SetKeepsPair(p.mark);
      PairKept(env, chains, d, rules[1..], p);
      PairKept(env, chains, d, rules[1..], p.(mark := SetXmark(p.mark, TUN_BYPASS)));
      PairKept(env, chains, d, rules[1..], p.(mark := SetXmark(p.mark, TUN_ROUTE)));
    }
  }

  // ----- the policy -----

  predicate TunDns(c: Config, p: Packet) {
    c.dnsMode != DnsDisable && p.dport == 53 && ((p.proto == Tcp && c.dnsTcp) || (p.proto == Udp && c.dnsUdp))
  }

  predicate InFakeIp(c: Config, f: Family, p: Packet) { FakeIp(c, f).Some? && InNet(FakeIp(c, f).value, p.dst) }

  function DestinationMark(env: Env, c: Config, k: Capabilities, f: Family, chain: string, p: Packet): TunMark {
    if InFakeIp(c, f, p) then Route
    else if InAny(Subnets(c, f), p.dst) then Plain
    else if CnDestination(env, c, k, f, chain, p) then Bypass
    else Route
  }

  /** Forwarded packets. */
  function TunPreMark(env: Env, c: Config, k: Capabilities, f: Family, p: Packet): TunMark {
    if IfMatches(c.tunDevice, p.inIf) then Plain
    else if AnyIface(c.blockedIfs, p.inIf) then Bypass
    else if c.macFilter && AnyIface(c.hotspotIfs, p.inIf) then (if p.mac in c.macs <==> c.macWhitelist then Route else Bypass)
    else if TunDns(c, p) then Route
    else DestinationMark(env, c, k, f, TunPreChain(f), p)
  }

  predicate TunProto(c: Config, p: Packet) { (p.proto == Tcp && c.proxyTcp) || (p.proto == Udp && c.proxyUdp) }

  predicate TunForced(env: Env, c: Config, k: Capabilities, x: Context, f: Family, p: Packet) {
    && TunProto(c, p) && c.bypassCn && x.forceUids != [] && CnipEnabled(c, k, f)
    && (if c.cnipMode == ByEbpf then env.matches(ForcePin(f), p.dst, p.uid)
        else CnDestination(env, c, k, f, TunOutChain(f), p) && p.uid in x.forceUids)
  }

  predicate Listed(x: Context, p: Packet) { p.uid in x.uids || p.gid in x.gids }

  /** Packets of the host itself. */
  function TunOutMark(env: Env, c: Config, k: Capabilities, x: Context, f: Family, p: Packet): TunMark {
    if TunDns(c, p) || TunForced(env, c, k, x, f, p) then Route
    else if c.proxyMode == Blacklist && Listed(x, p) then Plain
    else if c.proxyMode == Whitelist && (x.uids != [] || x.gids != []) then (if Listed(x, p) then Route else Plain)
    else DestinationMark(env, c, k, f, TunOutChain(f), p)
  }

  // ----- the rules -----

  /** A rule without marks in its match sees a marked packet like the plain one. */
  predicate MarkBlind(r: Rule) { r.mark == None }

  lemma BlindToMarks(env: Env, r: Rule, p: Packet, t: TunMark)
    requires MarkBlind(r)
    ensures Matches(env, r, WithMark(p, t)) == Matches(env, r, p)
  {
  }

  lemma MarkReturnIs(env: Env, chains: Chains, d: nat, t: TunMark, m: Mark, base: Rule, p: Packet)
    requires MarkBlind(base) && base.target == Return && t != Plain && m == (if t == Bypass then TUN_BYPASS else TUN_ROUTE)
    ensures Traverse(env, chains, d, MarkReturn(m, base), p) == if Matches(env, base, p) then Back(WithMark(p, t)) else Fell(p)
  {
    var two := MarkReturn(m, base);
    assert two[1..] == [two[1]] && two[1..][1..] == [];
    assert two[1] == base && Matches(env, two[0], p) == Matches(env, base, p);
    hide Matches, SetXmark;
    BlindToMarks(env, base, p, t);
    NothingFalls(env, chains, d, p);
  }

  lemma {:induction false} TunBlockedMean(env: Env, chains: Chains, d: nat, ifaces: seq<string>, p: Packet)
    ensures Traverse(env, chains, d, TunBlockedRules(ifaces), p)
         == if AnyIface(ifaces, p.inIf) then Back(WithMark(p, Bypass)) else Fell(p)
    decreases |ifaces|
  {
    hide SetXmark;
    if ifaces != [] {
      var base := Rule(Return, inIf := Some(ifaces[0]));
      TraverseAppend(env, chains, d, MarkReturn(TUN_BYPASS, base), TunBlockedRules(ifaces[1..]), p);
      MarkReturnIs(env, chains, d, Bypass, TUN_BYPASS, base, p);
      assert Matches(env, base, p) == IfMatches(ifaces[0], p.inIf);
      TunBlockedMean(env, chains, d, ifaces[1..], p);
      assert forall i :: i in ifaces ==> i == ifaces[0] || i in ifaces[1..];
    }
  }

  lemma {:induction false} TunMacReturnsMean(env: Env, chains: Chains, d: nat, iface: string, macs: seq<string>, p: Packet)
    ensures Traverse(env, chains, d, TunMacReturns(iface, macs), p)
         == if IfMatches(iface, p.inIf) && p.mac in macs then Back(WithMark(p, Bypass)) else Fell(p)
    decreases |macs|
  {
    hide SetXmark;
    if macs != [] {
      var base := Rule(Return, inIf := Some(iface), mac := Some(macs[0]));
      TraverseAppend(env, chains, d, MarkReturn(TUN_BYPASS, base), TunMacReturns(iface, macs[1..]), p);
      MarkReturnIs(env, chains, d, Bypass, TUN_BYPASS, base, p);
      assert Matches(env, base, p) == (IfMatches(iface, p.inIf) && p.mac == macs[0]);
      TunMacReturnsMean(env, chains, d, iface, macs[1..], p);
    }
  }

  /** Rules that only mark: any match marks, and marking twice is marking once. */
  lemma {:induction false} RouteRulesMean(env: Env, chains: Chains, d: nat, rules: seq<Rule>, p: Packet)
    requires forall r :: r in rules ==> r.target == SetMark(TUN_ROUTE) && MarkBlind(r)
    ensures Traverse(env, chains, d, rules, p)
         == Fell(if exists r | r in rules :: Matches(env, r, p) then WithMark(p, Route) else p)
    decreases |rules|
  {
    hide Matches, SetXmark;
    if rules != [] {
      assert rules[0] in rules && forall r :: r in rules ==> r == rules[0] || r in rules[1..];
      RouteRulesMean(env, chains, d, rules[1..], p);
      if Matches(env, rules[0], p) {
        RouteRulesMean(env, chains, d, rules[1..], WithMark(p, Route));
        MarksCombine(p.mark);
      }
    }
  }

  lemma MacRoutesMean(env: Env, chains: Chains, d: nat, iface: string, macs: seq<string>, p: Packet)
    ensures Traverse(env, chains, d, MacTargets(iface, macs, SetMark(TUN_ROUTE)), p)
         == Fell(if IfMatches(iface, p.inIf) && p.mac in macs then WithMark(p, Route) else p)
  {
    var rules := MacTargets(iface, macs, SetMark(TUN_ROUTE));
    RouteRulesMean(env, chains, d, rules, p);
    if IfMatches(iface, p.inIf) && p.mac in macs {
      var i :| 0 <= i < |macs| && macs[i] == p.mac;
      assert rules[i] in rules && Matches(env, rules[i], p);
    }
  }

  lemma IfaceMatches(env: Env, r: Rule, iface: string, p: Packet)
    requires r == Rule(r.target, inIf := Some(iface))
    ensures Matches(env, r, p) == IfMatches(iface, p.inIf)
  {
  }

  lemma MarkOnInterface(env: Env, chains: Chains, d: nat, iface: string, m: Mark, p: Packet)
    ensures Traverse(env, chains, d, [Rule(SetMark(m), inIf := Some(iface))], p)
         == Fell(if IfMatches(iface, p.inIf) then p.(mark := SetXmark(p.mark, m)) else p)
  {
    hide SetXmark;
    var r := Rule(SetMark(m), inIf := Some(iface));
    assert [r][1..] == [];
    IfaceMatches(env, r, iface, p);
    NothingFalls(env, chains, d, p);
    NothingFalls(env, chains, d, p.(mark := SetXmark(p.mark, m)));
  }

  lemma WhitelistedHotspot(env: Env, chains: Chains, d: nat, c: Config, iface: string, q: Packet)
    requires c.macWhitelist
    ensures Traverse(env, chains, d, TunHotspotRules(c, iface), q)
         == if !IfMatches(iface, q.inIf) then Fell(q)
            else Back(WithMark(if q.mac in c.macs then WithMark(q, Route) else q, Bypass))
  {
    var base := Rule(Return, inIf := Some(iface));
    var marked := if IfMatches(iface, q.inIf) && q.mac in c.macs then WithMark(q, Route) else q;
    hide SetXmark, Matches, IfMatches, MarkReturn, MacTargets;
    TraverseAppend(env, chains, d, MacTargets(iface, c.macs, SetMark(TUN_ROUTE)), MarkReturn(TUN_BYPASS, base), q);
    MacRoutesMean(env, chains, d, iface, c.macs, q);
    MarkReturnIs(env, chains, d, Bypass, TUN_BYPASS, base, marked);
    IfaceMatches(env, base, iface, marked);
  }

  lemma BlacklistedHotspot(env: Env, chains: Chains, d: nat, c: Config, iface: string, q: Packet)
    requires !c.macWhitelist
    ensures Traverse(env, chains, d, TunHotspotRules(c, iface), q)
         == if !IfMatches(iface, q.inIf) then Fell(q)
            else if q.mac in c.macs then Back(WithMark(q, Bypass)) else Fell(WithMark(q, Route))
  {
    var r := Rule(SetMark(TUN_ROUTE), inIf := Some(iface));
    assert WithMark(q, Route) == q.(mark := SetXmark(q.mark, TUN_ROUTE));
    hide SetXmark, Matches, IfMatches, TunMacReturns, WithMark;
    TraverseAppend(env, chains, d, TunMacReturns(iface, c.macs), [r], q);
    TunMacReturnsMean(env, chains, d, iface, c.macs, q);
    MarkOnInterface(env, chains, d, iface, TUN_ROUTE, q);
  }

  /** A hotspot interface decides its packets at once, except that under a
      blacklist an unlisted MAC goes on with the route mark. */
  lemma TunHotspotMeans(env: Env, chains: Chains, d: nat, c: Config, iface: string, p: Packet, t: TunMark)
    requires t == Plain || t == Route
    ensures Traverse(env, chains, d, TunHotspotRules(c, iface), WithMark(p, t))
         == if !IfMatches(iface, p.inIf) then Fell(WithMark(p, t))
            else if c.macWhitelist then Back(WithMark(p, if t == Route || p.mac in c.macs then Route else Bypass))
            else if p.mac in c.macs then Back(WithMark(WithMark(p, t), Bypass)) else Fell(WithMark(p, Route))
  {
    hide SetXmark, TunHotspotRules, IfMatches;
    MarksCombine(p.mark);
    if c.macWhitelist {
      WhitelistedHotspot(env, chains, d, c, iface, WithMark(p, t));
    } else {
      BlacklistedHotspot(env, chains, d, c, iface, WithMark(p, t));
    }
  }

  lemma {:induction false} TunHotspotsMean(env: Env, chains: Chains, d: nat, c: Config, ifaces: seq<string>, p: Packet, t: TunMark)
    requires t == Plain || (t == Route && !c.macWhitelist && p.mac !in c.macs)
    ensures Traverse(env, chains, d, TunHotspotsRules(c, ifaces), WithMark(p, t))
         == if !AnyIface(ifaces, p.inIf) then Fell(WithMark(p, t))
            else if c.macWhitelist then Back(WithMark(p, if p.mac in c.macs then Route else Bypass))
            else if p.mac in c.macs then Back(WithMark(p, Bypass)) else Fell(WithMark(p, Route))
    decreases |ifaces|
  {
    hide SetXmark, TunHotspotRules;
    if ifaces != [] {
      assert AnyIface(ifaces, p.inIf) == (IfMatches(ifaces[0], p.inIf) || AnyIface(ifaces[1..], p.inIf)) by {
        assert forall i :: i in ifaces ==> i == ifaces[0] || i in ifaces[1..];
      }
      TraverseAppend(env, chains, d, TunHotspotRules(c, ifaces[0]), TunHotspotsRules(c, ifaces[1..]), WithMark(p, t));
      TunHotspotMeans(env, chains, d, c, ifaces[0], p, t);
      TunHotspotsMean(env, chains, d, c, ifaces[1..], p, t);
      if !c.macWhitelist && p.mac !in c.macs {
        TunHotspotsMean(env, chains, d, c, ifaces[1..], p, Route);
      }
    }
  }

  /** The early return of whatever already carries bit 25. */
  lemma BypassMarkedMeans(env: Env, chains: Chains, d: nat, p: Packet, t: TunMark)
    requires Unmarked(p)
    ensures Traverse(env, chains, d, [BypassMarked()], WithMark(p, t)) == if t == Plain then Fell(p) else Back(WithMark(p, t))
  {
    hide SetXmark, MarkIs;
    var q := WithMark(p, t);
    MarkBits(p, t);
    ReadsBit25(q.mark);
    assert Matches(env, BypassMarked(), q) == MarkIs(q.mark, TUN_BYPASS);
    assert [BypassMarked()][1..] == [];
    NothingFalls(env, chains, d, q);
  }

  lemma TunInterfaceMeans(env: Env, chains: Chains, d: nat, c: Config, p: Packet)
    requires Unmarked(p)
    ensures Traverse(env, chains, d, TunInterfaceRules(c), p)
         == if AnyIface(c.blockedIfs, p.inIf) then Back(WithMark(p, Bypass))
            else if c.macFilter && AnyIface(c.hotspotIfs, p.inIf)
            then Back(WithMark(p, if p.mac in c.macs <==> c.macWhitelist then Route else Bypass))
            else Fell(p)
  {
    hide SetXmark, TunBlockedRules, TunHotspotsRules, Matches, Unmarked;
    var hotspots := TunHotspotsRules(c, c.hotspotIfs);
    TraverseAppend(env, chains, d, TunBlockedRules(c.blockedIfs), When(c.macFilter, hotspots + [BypassMarked()]), p);
    TunBlockedMean(env, chains, d, c.blockedIfs, p);
    TraverseAppend(env, chains, d, hotspots, [BypassMarked()], p);
    TunHotspotsMean(env, chains, d, c, c.hotspotIfs, p, Plain);
    BypassMarkedMeans(env, chains, d, p, Plain);
    BypassMarkedMeans(env, chains, d, p, Route);
    NothingFalls(env, chains, d, p);
  }

  lemma TunDnsMeans(env: Env, chains: Chains, d: nat, c: Config, p: Packet)
    ensures Traverse(env, chains, d, TunDnsRules(c), p) == if TunDns(c, p) then Back(WithMark(p, Route)) else Fell(p)
  {
    NothingFalls(env, chains, d, p);
    var tcp, udp := MarkReturn(TUN_ROUTE, DnsBase(Tcp)), MarkReturn(TUN_ROUTE, DnsBase(Udp));
    assert Matches(env, DnsBase(Tcp), p) == (p.proto == Tcp && p.dport == 53);
    assert Matches(env, DnsBase(Udp), p) == (p.proto == Udp && p.dport == 53);
    hide SetXmark, Matches;
    TraverseAppend(env, chains, d, When(c.dnsTcp, tcp), When(c.dnsUdp, udp), p);
    MarkReturnIs(env, chains, d, Route, TUN_ROUTE, DnsBase(Tcp), p);
    MarkReturnIs(env, chains, d, Route, TUN_ROUTE, DnsBase(Udp), p);
  }

  /** Behind the fake-IP and subnet rules: CN destinations bypass, the rest is routed. */
  lemma TunCnMeans(env: Env, chains: Chains, d: nat, c: Config, k: Capabilities, f: Family, chain: string, p: Packet)
    requires Unmarked(p)
    ensures var o := Traverse(env, chains, d, CnipRule(c, k, f, chain, SetMark(TUN_BYPASS)) + [BypassMarked(), Rule(SetMark(TUN_ROUTE))], p);
      o == if CnDestination(env, c, k, f, chain, p) then Back(WithMark(p, Bypass)) else Fell(WithMark(p, Route))
  {
    var cn := CnipRule(c, k, f, chain, SetMark(TUN_BYPASS));
    var rest := [BypassMarked(), Rule(SetMark(TUN_ROUTE))];
    var last := Rule(SetMark(TUN_ROUTE));
    assert rest == [BypassMarked()] + [last];
    var q := if CnDestination(env, c, k, f, chain, p) then WithMark(p, Bypass) else p;
    assert Traverse(env, chains, d, cn, p) == Fell(q) by { TunCnMarks(env, chains, d, c, k, f, chain, p); }
    assert Matches(env, last, p) && [last][1..] == [];
    hide SetXmark, Matches;
    TraverseAppend(env, chains, d, cn, rest, p);
    TraverseAppend(env, chains, d, [BypassMarked()], [last], q);
    BypassMarkedMeans(env, chains, d, p, Plain);
    BypassMarkedMeans(env, chains, d, p, Bypass);
    NothingFalls(env, chains, d, WithMark(p, Route));
  }

  lemma TunCnMarks(env: Env, chains: Chains, d: nat, c: Config, k: Capabilities, f: Family, chain: string, p: Packet)
    ensures Traverse(env, chains, d, CnipRule(c, k, f, chain, SetMark(TUN_BYPASS)), p)
         == Fell(if CnDestination(env, c, k, f, chain, p) then WithMark(p, Bypass) else p)
  {
    hide SetXmark, CnipMatch;
    NothingFalls(env, chains, d, p);
    match CnipMatch(c, k, f, chain)
    case None =>
    case Some(e) =>
      var r := Rule(SetMark(TUN_BYPASS), ext := e);
      assert Matches(env, r, p) == ExtMatches(env, e, p);
      assert CnipRule(c, k, f, chain, SetMark(TUN_BYPASS)) == [r] && [r][1..] == [];
      NothingFalls(env, chains, d, WithMark(p, Bypass));
  }

  lemma TunDestinationMeans(env: Env, chains: Chains, d: nat, c: Config, k: Capabilities, f: Family, chain: string, p: Packet)
    requires Unmarked(p)
    ensures var o := Traverse(env, chains, d, TunDestinationRules(c, k, f, chain), p);
      Passes(o) && o.p == WithMark(p, DestinationMark(env, c, k, f, chain, p))
  {
    var base := Rule(Return, dst := FakeIp(c, f));
    var fake := if FakeIp(c, f) == None then [] else MarkReturn(TUN_ROUTE, base);
    var nets := SubnetReturns(Subnets(c, f));
    var rest := CnipRule(c, k, f, chain, SetMark(TUN_BYPASS)) + [BypassMarked(), Rule(SetMark(TUN_ROUTE))];
    assert TunDestinationRules(c, k, f, chain) == fake + (nets + rest);
    assert FakeIp(c, f).Some? ==> Matches(env, base, p) == InFakeIp(c, f, p);
    hide SetXmark, Matches, CnipRule, SubnetReturns, Unmarked;
    TraverseAppend(env, chains, d, fake, nets + rest, p);
    TraverseAppend(env, chains, d, nets, rest, p);
    NothingFalls(env, chains, d, p);
    if FakeIp(c, f).Some? {
      MarkReturnIs(env, chains, d, Route, TUN_ROUTE, base, p);
    }
    SubnetReturnsMeans(env, chains, d, Subnets(c, f), p);
    TunCnMeans(env, chains, d, c, k, f, chain, p);
  }

  /** Forwarded packets leave with exactly the mark the policy gives them. */
  lemma TunPreMeans(env: Env, chains: Chains, d: nat, c: Config, k: Capabilities, f: Family, p: Packet)
    requires Unmarked(p)
    ensures var o := Traverse(env, chains, d, TunPreRules(c, k, f), p);
      Passes(o) && o.p == WithMark(p, TunPreMark(env, c, k, f, p))
  {
    var own := Rule(Return, inIf := Some(c.tunDevice));
    IfaceMatches(env, own, c.tunDevice, p);
    assert [own][1..] == [];
    hide SetXmark, Matches, TunInterfaceRules, TunDnsRules, TunDestinationRules, Unmarked;
    var ifs, dns, dest := TunInterfaceRules(c), TunDnsRules(c), TunDestinationRules(c, k, f, TunPreChain(f));
    TraverseAppend(env, chains, d, [own] + ifs + dns, dest, p);
    TraverseAppend(env, chains, d, [own] + ifs, dns, p);
    TraverseAppend(env, chains, d, [own], ifs, p);
    NothingFalls(env, chains, d, p);
    TunInterfaceMeans(env, chains, d, c, p);
    TunDnsMeans(env, chains, d, c, p);
    TunDestinationMeans(env, chains, d, c, k, f, TunPreChain(f), p);
  }

  // ----- the host's own packets -----

  lemma TunForceMeans(env: Env, chains: Chains, d: nat, c: Config, base: Rule, p: Packet)
    requires OwnerOnly(base)
    ensures Traverse(env, chains, d, TunForceRules(c, base), p)
         == if TunProto(c, p) && Matches(env, base, p) then Back(WithMark(p, Route)) else Fell(p)
  {
    var tcp, udp := base.(proto := Is(Tcp)), base.(proto := Is(Udp));
    assert Matches(env, tcp, p) == (p.proto == Tcp && Matches(env, base, p));
    assert Matches(env, udp, p) == (p.proto == Udp && Matches(env, base, p));
    hide SetXmark, Matches;
    TraverseAppend(env, chains, d, When(c.proxyTcp, MarkReturn(TUN_ROUTE, tcp)), When(c.proxyUdp, MarkReturn(TUN_ROUTE, udp)), p);
    MarkReturnIs(env, chains, d, Route, TUN_ROUTE, tcp, p);
    MarkReturnIs(env, chains, d, Route, TUN_ROUTE, udp, p);
    NothingFalls(env, chains, d, p);
  }

  lemma {:induction false} TunForceUidsMean(env: Env, chains: Chains, d: nat, c: Config, e: Ext, uids: seq<nat>, p: Packet)
    ensures Traverse(env, chains, d, TunForceUidRules(c, e, uids), p)
         == if TunProto(c, p) && ExtMatches(env, e, p) && p.uid in uids then Back(WithMark(p, Route)) else Fell(p)
    decreases |uids|
  {
    hide SetXmark;
    if uids != [] {
      var base := UidRule(uids[0], Return).(ext := e);
      TraverseAppend(env, chains, d, TunForceRules(c, base), TunForceUidRules(c, e, uids[1..]), p);
      TunForceMeans(env, chains, d, c, base, p);
      assert Matches(env, base, p) == (p.uid == uids[0] && ExtMatches(env, e, p));
      TunForceUidsMean(env, chains, d, c, e, uids[1..], p);
    }
  }

  lemma TunCnipForceMeans(env: Env, chains: Chains, d: nat, c: Config, k: Capabilities, x: Context, f: Family, p: Packet)
    ensures Traverse(env, chains, d, CnipForceTunRules(c, k, x, f, TunOutChain(f)), p)
         == if TunForced(env, c, k, x, f, p) then Back(WithMark(p, Route)) else Fell(p)
  {
    hide TunProto, SetXmark;
    NothingFalls(env, chains, d, p);
    if c.bypassCn && x.forceUids != [] && CnipEnabled(c, k, f) {
      if c.cnipMode == ByEbpf {
        var base := Rule(Return, ext := Pinned(ForcePin(f)));
        TunForceMeans(env, chains, d, c, base, p);
        assert Matches(env, base, p) == env.matches(ForcePin(f), p.dst, p.uid);
      } else {
        TunForceUidsMean(env, chains, d, c, CnipMatch(c, k, f, TunOutChain(f)).value, x.forceUids, p);
      }
    }
  }

  lemma IdRoutesMean(env: Env, chains: Chains, d: nat, x: Context, p: Packet)
    ensures Traverse(env, chains, d, UidRules(x.uids, SetMark(TUN_ROUTE)) + GidRules(x.gids, SetMark(TUN_ROUTE)), p)
         == Fell(if Listed(x, p) then WithMark(p, Route) else p)
  {
    var uids, gids := UidRules(x.uids, SetMark(TUN_ROUTE)), GidRules(x.gids, SetMark(TUN_ROUTE));
    RouteRulesMean(env, chains, d, uids + gids, p);
    assert forall r :: r in uids + gids && Matches(env, r, p) ==> Listed(x, p);
    if p.uid in x.uids {
      var i :| 0 <= i < |x.uids| && x.uids[i] == p.uid;
      assert uids[i] in uids + gids && Matches(env, uids[i], p);
    } else if p.gid in x.gids {
      var i :| 0 <= i < |x.gids| && x.gids[i] == p.gid;
      assert gids[i] in uids + gids && Matches(env, gids[i], p);
    }
  }

  lemma BlacklistLeaves(env: Env, chains: Chains, d: nat, x: Context, p: Packet)
    ensures Traverse(env, chains, d, UidRules(x.uids, Return) + GidRules(x.gids, Return), p)
         == if Listed(x, p) then Back(p) else Fell(p)
  {
    hide UidRules, GidRules;
    TraverseAppend(env, chains, d, UidRules(x.uids, Return), GidRules(x.gids, Return), p);
    UidRulesMean(env, chains, d, x.uids, p);
    GidRulesMean(env, chains, d, x.gids, p);
  }

  lemma ReturnAlone(env: Env, chains: Chains, d: nat, p: Packet)
    ensures Traverse(env, chains, d, [Rule(Return)], p) == Back(p)
  {
    assert Matches(env, Rule(Return), p) && [Rule(Return)][1..] == [];
  }

  lemma TunProxyModeMeans(env: Env, chains: Chains, d: nat, c: Config, x: Context, p: Packet)
    ensures Traverse(env, chains, d, TunProxyModeRules(c, x), p)
         == if c.proxyMode == Blacklist && Listed(x, p) then Back(p)
            else if c.proxyMode == Whitelist && (x.uids != [] || x.gids != [])
            then Back(WithMark(p, if Listed(x, p) then Route else Plain))
            else Fell(p)
  {
    assert x.uids == [] && x.gids == [] ==> !Listed(x, p);
    hide SetXmark, UidRules, GidRules, Matches, Listed;
    match c.proxyMode
    case Core => NothingFalls(env, chains, d, p);
    case Blacklist => BlacklistLeaves(env, chains, d, x, p);
    case Whitelist =>
      var marks := UidRules(x.uids, SetMark(TUN_ROUTE)) + GidRules(x.gids, SetMark(TUN_ROUTE));
      var end := When(x.uids != [] || x.gids != [], [Rule(Return)]);
      var q := WithMark(p, if Listed(x, p) then Route else Plain);
      TraverseAppend(env, chains, d, marks, end, p);
      IdRoutesMean(env, chains, d, x, p);
      ReturnAlone(env, chains, d, q);
      NothingFalls(env, chains, d, q);
  }

  /** The host's own packets leave with exactly the mark the policy gives them. */
  lemma TunOutMeans(env: Env, chains: Chains, d: nat, c: Config, k: Capabilities, x: Context, f: Family, p: Packet)
    requires Unmarked(p)
    ensures var o := Traverse(env, chains, d, TunOutRules(c, k, x, f), p);
      Passes(o) && o.p == WithMark(p, TunOutMark(env, c, k, x, f, p))
  {
    hide SetXmark, Matches, TunDnsRules, CnipForceTunRules, TunProxyModeRules, TunDestinationRules, Unmarked, TunForced, Listed;
    hide DestinationMark, TunDns;
    var dns, force := TunDnsRules(c), CnipForceTunRules(c, k, x, f, TunOutChain(f));
    var mode, dest := TunProxyModeRules(c, x), TunDestinationRules(c, k, f, TunOutChain(f));
    TraverseAppend(env, chains, d, dns + force + mode, dest, p);
    TraverseAppend(env, chains, d, dns + force, mode, p);
    TraverseAppend(env, chains, d, dns, force, p);
    TunDnsMeans(env, chains, d, c, p);
    TunCnipForceMeans(env, chains, d, c, k, x, f, p);
    TunProxyModeMeans(env, chains, d, c, x, p);
    TunDestinationMeans(env, chains, d, c, k, f, TunOutChain(f), p);
  }

  /** A whitelisted MAC on a hotspot interface is routed although the next rule
      marks its interface to bypass. */
  lemma WhitelistedMacRouted(env: Env, chains: Chains, d: nat, c: Config, k: Capabilities, f: Family, p: Packet)
    requires Unmarked(p) && c.macFilter && c.macWhitelist && p.mac in c.macs && AnyIface(c.hotspotIfs, p.inIf)
    requires !IfMatches(c.tunDevice, p.inIf) && !AnyIface(c.blockedIfs, p.inIf)
    ensures var o := Traverse(env, chains, d, TunPreRules(c, k, f), p);
      Passes(o) && Bit24(o.p.mark) && Bit25(o.p.mark)
  {
    TunPreMeans(env, chains, d, c, k, f, p);
    MarkBits(p, Route);
  }
}
