/**
 What the chain for the host's own traffic means: which packets leave it marked
 for the proxy, or redirected, given the proxy mode, the selected IDs and the
 bypassed destinations.
 */
module LocalPolicy {
  import opened Bytes
  import opened Netfilter
  import opened Batching
  import opened RuleConfig
  import opened RuleScripts
  import opened ExternalPolicy

  // ----- the policy -----

  /** Whose packets are proxied.  IDs 0 and 1052 go with every whitelist. */
  predicate Selected(c: Config, x: Context, p: Packet) {
    match c.proxyMode
    case Core => true
    case Blacklist => p.uid !in x.uids && p.gid !in x.gids
    case Whitelist =>
      (x.uids == [] && x.gids == []) || p.uid in x.uids || p.uid == 0 || p.uid == 1052 || p.gid in x.gids
  }

  predicate LocalEnabled(c: Config, action: Action, p: Packet) {
    match action
    case ActRedirect => p.proto == Tcp && c.proxyTcp
    case ActMark => ProtoEnabled(c, p)
    case ActTproxy => false
  }

  function Marked(p: Packet): Packet { p.(mark := SetXmark(p.mark, FWMARK)) }

  /** What the chain does to a packet it proxies; marking goes on behind it. */
  function Proxied(c: Config, action: Action, p: Packet): Outcome {
    if action == ActRedirect then Redirected(c.redirPort) else Fell(Marked(p))
  }

  /** The app-UID program of the family answers as the list it was loaded with. */
  predicate AppAgrees(env: Env, c: Config, x: Context, f: Family, p: Packet) {
    AppEbpfActive(c, x, f) ==> (env.matches(AppPin(f), p.dst, p.uid) <==> p.uid in x.uids)
  }

  lemma MarkedTwice(p: Packet)
    ensures Marked(Marked(p)) == Marked(p)
    ensures MarkIs(Marked(p).mark, FWMARK)
  {
    var m := p.mark;
    assert SetXmark(SetXmark(m, FWMARK), FWMARK) == SetXmark(m, FWMARK);
  }

  // ----- one rule, then lists of them -----

  predicate OwnerOnly(r: Rule) { r == Rule(Return, uid := r.uid, gid := r.gid, ext := r.ext) }

  lemma NothingFalls(env: Env, chains: Chains, d: nat, p: Packet)
    ensures Traverse(env, chains, d, [], p) == Fell(p)
  {
  }

  lemma LocalProtocolMeans(env: Env, chains: Chains, d: nat, c: Config, action: Action, q: Proto, base: Rule, p: Packet)
    requires (q == Tcp || q == Udp) && OwnerOnly(base) && action != ActTproxy
    ensures Traverse(env, chains, d, LocalProtocolRule(c, action, q, base), p)
         == if p.proto == q && LocalEnabled(c, action, p) && Matches(env, base, p) then Proxied(c, action, p) else Fell(p)
  {
    var rules := LocalProtocolRule(c, action, q, base);
    if rules != [] {
      assert rules[1..] == [];
      NothingFalls(env, chains, d, p);
      NothingFalls(env, chains, d, Marked(p));
      assert Matches(env, rules[0], p) == (p.proto == q && Matches(env, base, p));
    }
  }

  lemma LocalBothMeans(env: Env, chains: Chains, d: nat, c: Config, action: Action, base: Rule, p: Packet)
    requires OwnerOnly(base) && action != ActTproxy
    ensures Traverse(env, chains, d, LocalBoth(c, action, base), p)
         == if LocalEnabled(c, action, p) && Matches(env, base, p) then Proxied(c, action, p) else Fell(p)
  {
    hide Matches;
    var tcp, udp := LocalProtocolRule(c, action, Tcp, base), LocalProtocolRule(c, action, Udp, base);
    TraverseAppend(env, chains, d, tcp, udp, p);
    LocalProtocolMeans(env, chains, d, c, action, Tcp, base, p);
    LocalProtocolMeans(env, chains, d, c, action, Udp, base, p);
    LocalProtocolMeans(env, chains, d, c, action, Udp, base, Marked(p));
  }

  lemma {:induction false} LocalUidsMean(env: Env, chains: Chains, d: nat, c: Config, action: Action, uids: seq<nat>, p: Packet)
    requires action != ActTproxy
    ensures Traverse(env, chains, d, LocalUids(c, action, uids), p)
         == if LocalEnabled(c, action, p) && p.uid in uids then Proxied(c, action, p) else Fell(p)
    decreases |uids|
  {
    if uids != [] {
      var base := UidRule(uids[0], Return);
      assert Matches(env, base, p) == (p.uid == uids[0]);
      TraverseAppend(env, chains, d, LocalBoth(c, action, base), LocalUids(c, action, uids[1..]), p);
      LocalBothMeans(env, chains, d, c, action, base, p);
      LocalUidsMean(env, chains, d, c, action, uids[1..], p);
      LocalUidsMean(env, chains, d, c, action, uids[1..], Marked(p));
      MarkedTwice(p);
    }
  }

  lemma {:induction false} LocalGidsMean(env: Env, chains: Chains, d: nat, c: Config, action: Action, gids: seq<nat>, p: Packet)
    requires action != ActTproxy
    ensures Traverse(env, chains, d, LocalGids(c, action, gids), p)
         == if LocalEnabled(c, action, p) && p.gid in gids then Proxied(c, action, p) else Fell(p)
    decreases |gids|
  {
    if gids != [] {
      var base := GidRule(gids[0], Return);
      assert Matches(env, base, p) == (p.gid == gids[0]);
      TraverseAppend(env, chains, d, LocalBoth(c, action, base), LocalGids(c, action, gids[1..]), p);
      LocalBothMeans(env, chains, d, c, action, base, p);
      LocalGidsMean(env, chains, d, c, action, gids[1..], p);
      LocalGidsMean(env, chains, d, c, action, gids[1..], Marked(p));
      MarkedTwice(p);
    }
  }

  /** Rules that end a list of IDs: RETURN or ACCEPT for any of them. */
  lemma UidRulesMean(env: Env, chains: Chains, d: nat, uids: seq<nat>, p: Packet)
    ensures Traverse(env, chains, d, UidRules(uids, Return), p) == if p.uid in uids then Back(p) else Fell(p)
    ensures Traverse(env, chains, d, UidRules(uids, Accept), p) == if p.uid in uids then Accepted(p) else Fell(p)
  {
    var back, gone := UidRules(uids, Return), UidRules(uids, Accept);
    TraverseReturns(env, chains, d, back, p);
    TraverseAccepts(env, chains, d, gone, p);
    if p.uid in uids {
      var i :| 0 <= i < |uids| && uids[i] == p.uid;
      assert back[i] in back && Matches(env, back[i], p);
      assert gone[i] in gone && Matches(env, gone[i], p);
    }
  }

  lemma GidRulesMean(env: Env, chains: Chains, d: nat, gids: seq<nat>, p: Packet)
    ensures Traverse(env, chains, d, GidRules(gids, Return), p) == if p.gid in gids then Back(p) else Fell(p)
    ensures Traverse(env, chains, d, GidRules(gids, Accept), p) == if p.gid in gids then Accepted(p) else Fell(p)
  {
    var back, gone := GidRules(gids, Return), GidRules(gids, Accept);
    TraverseReturns(env, chains, d, back, p);
    TraverseAccepts(env, chains, d, gone, p);
    if p.gid in gids {
      var i :| 0 <= i < |gids| && gids[i] == p.gid;
      assert back[i] in back && Matches(env, back[i], p);
      assert gone[i] in gone && Matches(env, gone[i], p);
    }
  }

  lemma AppRuleMeans(env: Env, chains: Chains, d: nat, c: Config, x: Context, f: Family, p: Packet)
    requires AppAgrees(env, c, x, f, p) && AppEbpfActive(c, x, f)
    ensures Matches(env, AppRule(f, Return), p) == (p.uid in x.uids)
    ensures Traverse(env, chains, d, [AppRule(f, Return)], p) == if p.uid in x.uids then Back(p) else Fell(p)
    ensures Traverse(env, chains, d, [AppRule(f, Accept)], p) == if p.uid in x.uids then Accepted(p) else Fell(p)
  {
    NothingFalls(env, chains, d, p);
    assert [AppRule(f, Return)][1..] == [] && [AppRule(f, Accept)][1..] == [];
  }

  // ----- the local proxy rules -----

  /** The selected UIDs, by owner rules or by one program rule. */
  function WhitelistUids(c: Config, x: Context, f: Family, action: Action): seq<Rule> {
    if AppEbpfActive(c, x, f) then LocalBoth(c, action, AppRule(f, Return)) else LocalUids(c, action, x.uids)
  }

  function BlacklistUids(c: Config, x: Context, f: Family): seq<Rule> {
    if AppEbpfActive(c, x, f) then [AppRule(f, Return)] else UidRules(x.uids, Return)
  }

  lemma WhitelistUidsMean(env: Env, chains: Chains, d: nat, c: Config, x: Context, f: Family, action: Action, p: Packet)
    requires AppAgrees(env, c, x, f, p) && action != ActTproxy
    ensures Traverse(env, chains, d, WhitelistUids(c, x, f, action), p)
         == if LocalEnabled(c, action, p) && p.uid in x.uids then Proxied(c, action, p) else Fell(p)
  {
    hide LocalEnabled, LocalBoth, LocalUids;
    if AppEbpfActive(c, x, f) {
      AppRuleMeans(env, chains, d, c, x, f, p);
      LocalBothMeans(env, chains, d, c, action, AppRule(f, Return), p);
    } else {
      LocalUidsMean(env, chains, d, c, action, x.uids, p);
    }
  }

  lemma WhitelistMeans(env: Env, chains: Chains, d: nat, c: Config, x: Context, f: Family, action: Action, p: Packet)
    requires AppAgrees(env, c, x, f, p) && action != ActTproxy
    ensures var rules := WhitelistUids(c, x, f, action) + LocalUids(c, action, [0, 1052]) + LocalGids(c, action, x.gids);
      Traverse(env, chains, d, rules, p)
        == if LocalEnabled(c, action, p) && (p.uid in x.uids || p.uid in [0, 1052] || p.gid in x.gids)
           then Proxied(c, action, p) else Fell(p)
  {
    hide WhitelistUids, LocalUids, LocalGids, SetXmark;
    var uids, system, gids := WhitelistUids(c, x, f, action), LocalUids(c, action, [0, 1052]), LocalGids(c, action, x.gids);
    TraverseAppend(env, chains, d, uids + system, gids, p);
    TraverseAppend(env, chains, d, uids, system, p);
    WhitelistUidsMean(env, chains, d, c, x, f, action, p);
    LocalUidsMean(env, chains, d, c, action, [0, 1052], p);
    LocalUidsMean(env, chains, d, c, action, [0, 1052], Marked(p));
    LocalGidsMean(env, chains, d, c, action, x.gids, p);
    LocalGidsMean(env, chains, d, c, action, x.gids, Marked(p));
    MarkedTwice(p);
  }

  /** The rules mean the policy: a packet is proxied exactly if it is selected and
      its protocol is handled; otherwise it leaves as it came. */
  lemma LocalProxyMeans(env: Env, chains: Chains, d: nat, c: Config, x: Context, f: Family, action: Action, p: Packet)
    requires AppAgrees(env, c, x, f, p) && action != ActTproxy
    ensures var o := Traverse(env, chains, d, LocalProxyRules(c, x, f, action), p);
      if Selected(c, x, p) && LocalEnabled(c, action, p) then o == Proxied(c, action, p) else o == Fell(p) || o == Back(p)
  {
    hide LocalUids, LocalGids, LocalBoth, UidRules, GidRules, WhitelistUids, LocalEnabled, SetXmark;
    LocalBothMeans(env, chains, d, c, action, Rule(Return), p);
    assert Matches(env, Rule(Return), p);
    match c.proxyMode
    case Core =>
    case Blacklist =>
      var uids := BlacklistUids(c, x, f);
      TraverseAppend(env, chains, d, uids + GidRules(x.gids, Return), LocalBoth(c, action, Rule(Return)), p);
      TraverseAppend(env, chains, d, uids, GidRules(x.gids, Return), p);
      if AppEbpfActive(c, x, f) {
        AppRuleMeans(env, chains, d, c, x, f, p);
      }
      UidRulesMean(env, chains, d, x.uids, p);
      GidRulesMean(env, chains, d, x.gids, p);
    case Whitelist =>
      WhitelistMeans(env, chains, d, c, x, f, action, p);
      if x.uids != [] || x.gids != [] {
        assert LocalProxyRules(c, x, f, action)
          == WhitelistUids(c, x, f, action) + LocalUids(c, action, [0, 1052]) + LocalGids(c, action, x.gids) by {
          SplitWhitelist(c, x, f, action);
        }
      }
  }

  lemma SplitWhitelist(c: Config, x: Context, f: Family, action: Action)
    requires c.proxyMode == Whitelist && (x.uids != [] || x.gids != [])
    ensures LocalProxyRules(c, x, f, action)
         == WhitelistUids(c, x, f, action) + LocalUids(c, action, [0, 1052]) + LocalGids(c, action, x.gids)
  {
  }

  /** Owner rules and the program treat every packet alike. */
  lemma OwnerAndProgramAgree(env: Env, chains: Chains, d: nat, c: Config, x: Context, y: Context, f: Family, action: Action, p: Packet)
    requires AppAgrees(env, c, x, f, p) && AppAgrees(env, c, y, f, p) && action != ActTproxy
    requires y.uids == x.uids && y.gids == x.gids
    ensures var a, b := Traverse(env, chains, d, LocalProxyRules(c, x, f, action), p),
                        Traverse(env, chains, d, LocalProxyRules(c, y, f, action), p);
      a == b || (Passes(a) && Passes(b) && a.p == p && b.p == p)
  {
    LocalProxyMeans(env, chains, d, c, x, f, action, p);
    LocalProxyMeans(env, chains, d, c, y, f, action, p);
  }

  /** TCP is never marked in enhance mode, and nothing but TCP is ever redirected. */
  lemma LocalLimits(env: Env, chains: Chains, d: nat, c: Config, x: Context, f: Family, p: Packet)
    requires AppAgrees(env, c, x, f, p)
    ensures c.mode == Enhance && p.proto == Tcp ==>
      var o := Traverse(env, chains, d, LocalProxyRules(c, x, f, ActMark), p); Passes(o) && o.p == p
    ensures p.proto != Tcp ==>
      var o := Traverse(env, chains, d, LocalProxyRules(c, x, f, ActRedirect), p); Passes(o) && o.p == p
  {
    LocalProxyMeans(env, chains, d, c, x, f, ActMark, p);
    LocalProxyMeans(env, chains, d, c, x, f, ActRedirect, p);
  }

  // ----- the fast counterpart -----

  /** Who passes the fast app chain: the system IDs only join a list of UIDs. */
  predicate FastSelected(c: Config, x: Context, p: Packet) {
    match c.proxyMode
    case Core => true
    case Blacklist => p.uid !in x.uids && p.gid !in x.gids
    case Whitelist =>
      || (x.uids == [] && x.gids == [])
      || p.uid in x.uids
      || (x.uids != [] && (p.uid == 0 || p.uid == 1052))
      || p.gid in x.gids
  }

  lemma PerfBlacklistMeans(env: Env, chains: Chains, d: nat, c: Config, x: Context, f: Family, p: Packet)
    requires AppAgrees(env, c, x, f, p) && c.proxyMode == Blacklist
    ensures Traverse(env, chains, d, PerfAppRules(c, x, f), p) == if FastSelected(c, x, p) then Fell(p) else Accepted(p)
  {
    hide UidRules, GidRules;
    var uids := if AppEbpfActive(c, x, f) then [AppRule(f, Accept)] else UidRules(x.uids, Accept);
    TraverseAppend(env, chains, d, uids, GidRules(x.gids, Accept), p);
    if AppEbpfActive(c, x, f) {
      AppRuleMeans(env, chains, d, c, x, f, p);
    }
    UidRulesMean(env, chains, d, x.uids, p);
    GidRulesMean(env, chains, d, x.gids, p);
  }

  lemma AcceptAlone(env: Env, chains: Chains, d: nat, p: Packet)
    ensures Traverse(env, chains, d, [Rule(Accept)], p) == Accepted(p)
  {
    assert Matches(env, Rule(Accept), p) && [Rule(Accept)][1..] == [];
  }

  lemma PerfWhitelistMeans(env: Env, chains: Chains, d: nat, c: Config, x: Context, f: Family, p: Packet)
    requires AppAgrees(env, c, x, f, p) && c.proxyMode == Whitelist
    ensures var o := Traverse(env, chains, d, PerfAppRules(c, x, f), p);
      if FastSelected(c, x, p) then o == Fell(p) || o == Back(p) else o == Accepted(p)
  {
    hide UidRules, GidRules, Matches, AppAgrees, AppEbpfActive;
    var uids := if AppEbpfActive(c, x, f) then [AppRule(f, Return)] else UidRules(x.uids, Return);
    var system := When(x.uids != [], UidRules([0, 1052], Return));
    var gids := GidRules(x.gids, Return);
    var end := When(x.uids != [] || x.gids != [], [Rule(Accept)]);
    TraverseAppend(env, chains, d, uids + system + gids, end, p);
    TraverseAppend(env, chains, d, uids + system, gids, p);
    TraverseAppend(env, chains, d, uids, system, p);
    if AppEbpfActive(c, x, f) {
      AppRuleMeans(env, chains, d, c, x, f, p);
    }
    UidRulesMean(env, chains, d, x.uids, p);
    UidRulesMean(env, chains, d, [0, 1052], p);
    GidRulesMean(env, chains, d, x.gids, p);
    NothingFalls(env, chains, d, p);
    AcceptAlone(env, chains, d, p);
  }

  /** The fast app chain accepts, unproxied, exactly the packets it does not select. */
  lemma PerfAppMeans(env: Env, chains: Chains, d: nat, c: Config, x: Context, f: Family, p: Packet)
    requires AppAgrees(env, c, x, f, p)
    ensures var o := Traverse(env, chains, d, PerfAppRules(c, x, f), p);
      if FastSelected(c, x, p) then o == Fell(p) || o == Back(p) else o == Accepted(p)
  {
    match c.proxyMode
    case Core =>
    case Blacklist => PerfBlacklistMeans(env, chains, d, c, x, f, p);
    case Whitelist => PerfWhitelistMeans(env, chains, d, c, x, f, p);
  }

  /** Packets of the system IDs, where a whitelist names GIDs alone and not theirs. */
  predicate SystemLeftOut(c: Config, x: Context, p: Packet) {
    c.proxyMode == Whitelist && x.uids == [] && x.gids != [] && p.uid in [0, 1052] && p.gid !in x.gids
  }

  /** It selects as the standard rules do, except that a whitelist of GIDs alone
      leaves out the system IDs. */
  lemma SelectionsCompared(c: Config, x: Context, p: Packet)
    ensures FastSelected(c, x, p) != Selected(c, x, p) <==> SystemLeftOut(c, x, p)
    ensures FastSelected(c, x, p) ==> Selected(c, x, p)
  {
    assert p.uid in [0, 1052] <==> p.uid == 0 || p.uid == 1052;
    assert x.gids == [] ==> p.gid !in x.gids;
  }

  /** Root, under a whitelist of one GID alone: proxied by the standard rules only. */
  lemma RootForgotten(c: Config, x: Context, p: Packet)
    requires c.proxyMode == Whitelist && x.uids == [] && x.gids == [3003] && p.uid == 0 && p.gid == 0
    ensures Selected(c, x, p) && !FastSelected(c, x, p)
  {
    SelectionsCompared(c, x, p);
  }

  // ----- the whole chain of the host's own traffic -----

  /** DNS left to others, and DNS sent to the proxy. */
  predicate DnsReturned(c: Config, p: Packet) {
    && (c.dnsMode != DnsTproxy || DnsToMihomo(c)) && p.dport == 53
    && ((p.proto == Tcp && c.mode != Enhance && c.dnsTcp) || (p.proto == Udp && c.dnsUdp))
  }

  predicate DnsMarked(c: Config, p: Packet) {
    && c.dnsMode == DnsTproxy && !DnsToMihomo(c) && p.dport == 53 && ProtoEnabled(c, p)
    && (if p.proto == Tcp then c.dnsTcp else c.dnsUdp)
  }

  predicate FakeIpMarked(c: Config, f: Family, p: Packet) {
    f == V6 && c.coreName == "mihomo" && c.fakeIp6.Some? && InNet(c.fakeIp6.value, p.dst) && ProtoEnabled(c, p)
  }

  /** Apps proxied even towards CN destinations. */
  predicate ForcedHit(env: Env, c: Config, k: Capabilities, x: Context, f: Family, p: Packet) {
    && c.bypassCn && x.forceUids != [] && CnipEnabled(c, k, f)
    && (if c.cnipMode == ByEbpf then env.matches(ForcePin(f), p.dst, p.uid)
        else CnDestination(env, c, k, f, LOCAL, p) && p.uid in x.forceUids)
  }

  function MarkedIf(yes: bool, p: Packet): Packet { if yes then Marked(p) else p }

  lemma MarkRuleMeans(env: Env, chains: Chains, d: nat, on: bool, r: Rule, p: Packet)
    ensures Traverse(env, chains, d, When(on, [MarkRule(FWMARK, r)]), p) == Fell(MarkedIf(on && Matches(env, r, p), p))
  {
    NothingFalls(env, chains, d, p);
    NothingFalls(env, chains, d, Marked(p));
    assert [MarkRule(FWMARK, r)][1..] == [];
    assert Matches(env, MarkRule(FWMARK, r), p) == Matches(env, r, p);
  }

  lemma MarkRulesMean(env: Env, chains: Chains, d: nat, tcp: bool, udp: bool, base: Rule, p: Packet)
    requires base == Rule(Return, dst := base.dst, dport := base.dport)
    ensures var rules := When(tcp, [MarkRule(FWMARK, base.(proto := Is(Tcp)))]) + When(udp, [MarkRule(FWMARK, base.(proto := Is(Udp)))]);
      Traverse(env, chains, d, rules, p)
        == Fell(MarkedIf(Matches(env, base, p) && ((p.proto == Tcp && tcp) || (p.proto == Udp && udp)), p))
  {
    var a, b := base.(proto := Is(Tcp)), base.(proto := Is(Udp));
    var q := MarkedIf(tcp && Matches(env, a, p), p);
    assert Matches(env, a, p) == (p.proto == Tcp && Matches(env, base, p));
    assert Matches(env, b, q) == (p.proto == Udp && Matches(env, base, p));
    hide Matches, MarkRule, SetXmark;
    TraverseAppend(env, chains, d, When(tcp, [MarkRule(FWMARK, a)]), When(udp, [MarkRule(FWMARK, b)]), p);
    MarkRuleMeans(env, chains, d, tcp, a, p);
    MarkRuleMeans(env, chains, d, udp, b, q);
  }

  /** Queries left to others return, whatever the chain does with the rest. */
  lemma ReturnedQueries(env: Env, chains: Chains, d: nat, c: Config, action: Action, p: Packet)
    requires c.dnsMode != DnsTproxy || DnsToMihomo(c)
    ensures Traverse(env, chains, d, MangleDnsRules(c, action), p) == if DnsReturned(c, p) then Back(p) else Fell(p)
  {
    var rules := MangleDnsRules(c, action);
    TraverseReturns(env, chains, d, rules, p);
    if DnsReturned(c, p) {
      var r := DnsBase(p.proto);
      assert r in rules && Matches(env, r, p);
    }
  }

  lemma MangleDnsMeans(env: Env, chains: Chains, d: nat, c: Config, p: Packet)
    ensures Traverse(env, chains, d, MangleDnsRules(c, ActMark), p)
         == if DnsReturned(c, p) then Back(p) else Fell(MarkedIf(DnsMarked(c, p), p))
  {
    var base := Rule(Return, dport := Port(53));
    assert Matches(env, base, p) == (p.dport == 53);
    hide Matches, Marked;
    if c.dnsMode != DnsTproxy || DnsToMihomo(c) {
      ReturnedQueries(env, chains, d, c, ActMark, p);
    } else {
      MarkRulesMean(env, chains, d, TcpInMangle(c) && c.dnsTcp, c.dnsUdp && c.proxyUdp, base, p);
    }
  }

  lemma FakeIp6Means(env: Env, chains: Chains, d: nat, c: Config, f: Family, p: Packet)
    ensures Traverse(env, chains, d, FakeIp6Rules(c, f, ActMark), p) == Fell(MarkedIf(FakeIpMarked(c, f, p), p))
  {
    NothingFalls(env, chains, d, p);
    if f == V6 && c.fakeIp6.Some? && c.coreName == "mihomo" {
      MarkRulesMean(env, chains, d, TcpInMangle(c), c.proxyUdp, Rule(Return, dst := c.fakeIp6), p);
    }
  }

  lemma MarkReturnMeans(env: Env, chains: Chains, d: nat, base: Rule, p: Packet)
    requires OwnerAndProto(base)
    ensures Traverse(env, chains, d, MarkReturn(FWMARK, base), p) == if Matches(env, base, p) then Back(Marked(p)) else Fell(p)
  {
    var two := MarkReturn(FWMARK, base);
    assert two[1..] == [two[1]] && two[1..][1..] == [];
    NothingFalls(env, chains, d, p);
    assert Matches(env, two[0], p) == Matches(env, base, p) == Matches(env, two[1], p) == Matches(env, two[1], Marked(p));
  }

  predicate OwnerAndProto(r: Rule) { r == Rule(Return, proto := r.proto, uid := r.uid, gid := r.gid, ext := r.ext) }

  lemma ForceMeans(env: Env, chains: Chains, d: nat, c: Config, base: Rule, p: Packet)
    requires OwnerOnly(base)
    ensures Traverse(env, chains, d, ForceRules(c, ActMark, base), p)
         == if ProtoEnabled(c, p) && Matches(env, base, p) then Back(Marked(p)) else Fell(p)
  {
    var tcp, udp := base.(proto := Is(Tcp)), base.(proto := Is(Udp));
    TraverseAppend(env, chains, d, When(TcpInMangle(c), MarkReturn(FWMARK, tcp)), When(c.proxyUdp, MarkReturn(FWMARK, udp)), p);
    MarkReturnMeans(env, chains, d, tcp, p);
    MarkReturnMeans(env, chains, d, udp, p);
    NothingFalls(env, chains, d, p);
    assert Matches(env, tcp, p) == (p.proto == Tcp && Matches(env, base, p));
    assert Matches(env, udp, p) == (p.proto == Udp && Matches(env, base, p));
  }

  lemma {:induction false} ForceUidsMean(env: Env, chains: Chains, d: nat, c: Config, e: Ext, uids: seq<nat>, p: Packet)
    ensures Traverse(env, chains, d, ForceUidRules(c, ActMark, e, uids), p)
         == if ProtoEnabled(c, p) && ExtMatches(env, e, p) && p.uid in uids then Back(Marked(p)) else Fell(p)
    decreases |uids|
  {
    if uids != [] {
      var base := UidRule(uids[0], Return).(ext := e);
      TraverseAppend(env, chains, d, ForceRules(c, ActMark, base), ForceUidRules(c, ActMark, e, uids[1..]), p);
      ForceMeans(env, chains, d, c, base, p);
      assert Matches(env, base, p) == (p.uid == uids[0] && ExtMatches(env, e, p));
      ForceUidsMean(env, chains, d, c, e, uids[1..], p);
    }
  }

  lemma CnipForceMeans(env: Env, chains: Chains, d: nat, c: Config, k: Capabilities, x: Context, f: Family, p: Packet)
    ensures Traverse(env, chains, d, CnipForceLocalRules(c, k, x, f, LOCAL, ActMark), p)
         == if ProtoEnabled(c, p) && ForcedHit(env, c, k, x, f, p) then Back(Marked(p)) else Fell(p)
  {
    hide ProtoEnabled;
    NothingFalls(env, chains, d, p);
    if c.bypassCn && x.forceUids != [] && CnipEnabled(c, k, f) {
      if c.cnipMode == ByEbpf {
        var base := Rule(Return, ext := Pinned(ForcePin(f)));
        ForceMeans(env, chains, d, c, base, p);
        assert Matches(env, base, p) == env.matches(ForcePin(f), p.dst, p.uid);
      } else {
        ForceUidsMean(env, chains, d, c, CnipMatch(c, k, f, LOCAL).value, x.forceUids, p);
      }
    }
  }

  /** What the rules behind the core's own bypass do: the outcome is a marked
      packet exactly if this holds, and otherwise the packet as it came. */
  predicate LocalMarked(env: Env, refused: set<Rule>, c: Config, k: Capabilities, x: Context, f: Family, p: Packet) {
    && !(p.reply && ConntrackEnabled(c, k))
    && !DnsReturned(c, p)
    && (DnsMarked(c, p) || FakeIpMarked(c, f, p)
        || (ProtoEnabled(c, p)
            && (ForcedHit(env, c, k, x, f, p)
                || (!Bypassed(env, c, k, f, LOCAL, p) && !LocalHit(refused, c, f, p) && Selected(c, x, p)))))
  }

  predicate LeavesMarked(o: Outcome, p: Packet, yes: bool) {
    (o.Fell? || o.Back? || o.Accepted?) && o.p == MarkedIf(yes, p)
  }

  predicate LeavesAs(o: Outcome, p: Packet, yes: bool, accepted: bool) { LeavesMarked(o, p, yes) && o.Accepted? == accepted }

  /** What the chain of the host's own networks accepts. */
  predicate OwnHit(env: Env, refused: set<Rule>, c: Config, k: Capabilities, f: Family, p: Packet) {
    !Bypassed(env, c, k, f, LOCAL, p) && LocalHit(refused, c, f, p)
  }

  /** The local policy behind DNS, fake IP and forced apps. */
  lemma LocalTailMeans(env: Env, chains: Chains, d: nat, refused: set<Rule>, c: Config, k: Capabilities, x: Context, f: Family, p: Packet)
    requires d > 0 && HoldsLocal(chains, refused, c, f) && AppAgrees(env, c, x, f, p)
    ensures LeavesAs(Traverse(env, chains, d, CommonBypassRules(c, k, f, LOCAL) + LocalProxyRules(c, x, f, ActMark), p), p,
                     ProtoEnabled(c, p) && !Bypassed(env, c, k, f, LOCAL, p) && !LocalHit(refused, c, f, p) && Selected(c, x, p),
                     OwnHit(env, refused, c, k, f, p))
  {
    hide CommonBypassRules, LocalProxyRules, Bypassed, LocalHit, Selected, ProtoEnabled, SetXmark;
    TraverseAppend(env, chains, d, CommonBypassRules(c, k, f, LOCAL), LocalProxyRules(c, x, f, ActMark), p);
    CommonBypassMeans(env, chains, d, refused, c, k, f, LOCAL, p);
    LocalProxyMeans(env, chains, d, c, x, f, ActMark, p);
  }

  /** The predicates of the policy do not look at the mark. */
  lemma MarkUnseen(env: Env, refused: set<Rule>, c: Config, k: Capabilities, x: Context, f: Family, p: Packet)
    ensures FakeIpMarked(c, f, Marked(p)) == FakeIpMarked(c, f, p)
    ensures ProtoEnabled(c, Marked(p)) == ProtoEnabled(c, p)
    ensures ForcedHit(env, c, k, x, f, Marked(p)) == ForcedHit(env, c, k, x, f, p)
    ensures Bypassed(env, c, k, f, LOCAL, Marked(p)) == Bypassed(env, c, k, f, LOCAL, p)
    ensures LocalHit(refused, c, f, Marked(p)) == LocalHit(refused, c, f, p)
    ensures Selected(c, x, Marked(p)) == Selected(c, x, p)
    ensures AppAgrees(env, c, x, f, Marked(p)) == AppAgrees(env, c, x, f, p)
  {
    hide InNet;
  }

  lemma ForcedTailMeans(env: Env, chains: Chains, d: nat, refused: set<Rule>, c: Config, k: Capabilities, x: Context, f: Family, p: Packet)
    requires d > 0 && HoldsLocal(chains, refused, c, f) && AppAgrees(env, c, x, f, p)
    ensures var rules := CnipForceLocalRules(c, k, x, f, LOCAL, ActMark)
                         + (CommonBypassRules(c, k, f, LOCAL) + LocalProxyRules(c, x, f, ActMark));
      LeavesAs(Traverse(env, chains, d, rules, p), p,
               ProtoEnabled(c, p) && (ForcedHit(env, c, k, x, f, p)
                 || (!Bypassed(env, c, k, f, LOCAL, p) && !LocalHit(refused, c, f, p) && Selected(c, x, p))),
               !(ProtoEnabled(c, p) && ForcedHit(env, c, k, x, f, p)) && OwnHit(env, refused, c, k, f, p))
  {
    hide CommonBypassRules, LocalProxyRules, CnipForceLocalRules, Bypassed, LocalHit, Selected, ProtoEnabled, ForcedHit, SetXmark;
    TraverseAppend(env, chains, d, CnipForceLocalRules(c, k, x, f, LOCAL, ActMark),
                   CommonBypassRules(c, k, f, LOCAL) + LocalProxyRules(c, x, f, ActMark), p);
    CnipForceMeans(env, chains, d, c, k, x, f, p);
    LocalTailMeans(env, chains, d, refused, c, k, x, f, p);
  }

  lemma FakeTailMeans(env: Env, chains: Chains, d: nat, refused: set<Rule>, c: Config, k: Capabilities, x: Context, f: Family, p: Packet)
    requires d > 0 && HoldsLocal(chains, refused, c, f) && AppAgrees(env, c, x, f, p)
    ensures var rules := FakeIp6Rules(c, f, ActMark) + (CnipForceLocalRules(c, k, x, f, LOCAL, ActMark)
                         + (CommonBypassRules(c, k, f, LOCAL) + LocalProxyRules(c, x, f, ActMark)));
      LeavesAs(Traverse(env, chains, d, rules, p), p,
               FakeIpMarked(c, f, p) || (ProtoEnabled(c, p) && (ForcedHit(env, c, k, x, f, p)
                 || (!Bypassed(env, c, k, f, LOCAL, p) && !LocalHit(refused, c, f, p) && Selected(c, x, p)))),
               !(ProtoEnabled(c, p) && ForcedHit(env, c, k, x, f, p)) && OwnHit(env, refused, c, k, f, p))
  {
    hide CommonBypassRules, LocalProxyRules, CnipForceLocalRules, FakeIp6Rules, Bypassed, LocalHit, Selected, ProtoEnabled;
    hide ForcedHit, SetXmark, FakeIpMarked, AppAgrees, HoldsLocal;
    TraverseAppend(env, chains, d, FakeIp6Rules(c, f, ActMark), CnipForceLocalRules(c, k, x, f, LOCAL, ActMark)
                   + (CommonBypassRules(c, k, f, LOCAL) + LocalProxyRules(c, x, f, ActMark)), p);
    FakeIp6Means(env, chains, d, c, f, p);
    MarkUnseen(env, refused, c, k, x, f, p);
    MarkedTwice(p);
    ForcedTailMeans(env, chains, d, refused, c, k, x, f, MarkedIf(FakeIpMarked(c, f, p), p));
  }

  lemma DnsTailMeans(env: Env, chains: Chains, d: nat, refused: set<Rule>, c: Config, k: Capabilities, x: Context, f: Family, p: Packet)
    requires d > 0 && HoldsLocal(chains, refused, c, f) && AppAgrees(env, c, x, f, p)
    ensures var rules := MangleDnsRules(c, ActMark) + (FakeIp6Rules(c, f, ActMark) + (CnipForceLocalRules(c, k, x, f, LOCAL, ActMark)
                         + (CommonBypassRules(c, k, f, LOCAL) + LocalProxyRules(c, x, f, ActMark))));
      LeavesAs(Traverse(env, chains, d, rules, p), p,
               !DnsReturned(c, p) && (DnsMarked(c, p) || FakeIpMarked(c, f, p) || (ProtoEnabled(c, p) && (ForcedHit(env, c, k, x, f, p)
                 || (!Bypassed(env, c, k, f, LOCAL, p) && !LocalHit(refused, c, f, p) && Selected(c, x, p))))),
               !DnsReturned(c, p) && !(ProtoEnabled(c, p) && ForcedHit(env, c, k, x, f, p)) && OwnHit(env, refused, c, k, f, p))
  {
    hide CommonBypassRules, LocalProxyRules, CnipForceLocalRules, FakeIp6Rules, MangleDnsRules, Bypassed, LocalHit, Selected;
    hide ProtoEnabled, ForcedHit, SetXmark, FakeIpMarked, AppAgrees, HoldsLocal, DnsReturned, DnsMarked;
    TraverseAppend(env, chains, d, MangleDnsRules(c, ActMark), FakeIp6Rules(c, f, ActMark)
                   + (CnipForceLocalRules(c, k, x, f, LOCAL, ActMark)
                      + (CommonBypassRules(c, k, f, LOCAL) + LocalProxyRules(c, x, f, ActMark))), p);
    MangleDnsMeans(env, chains, d, c, p);
    MarkUnseen(env, refused, c, k, x, f, p);
    MarkedTwice(p);
    FakeTailMeans(env, chains, d, refused, c, k, x, f, MarkedIf(DnsMarked(c, p), p));
  }

  lemma SplitLocal(c: Config, k: Capabilities, x: Context, f: Family)
    ensures TproxyLocalRules(c, k, x, f)
         == ReplyBypass(c, k) + (MangleDnsRules(c, ActMark) + (FakeIp6Rules(c, f, ActMark)
            + (CnipForceLocalRules(c, k, x, f, LOCAL, ActMark) + (CommonBypassRules(c, k, f, LOCAL) + LocalProxyRules(c, x, f, ActMark)))))
  {
    hide CommonBypassRules, LocalProxyRules, CnipForceLocalRules, FakeIp6Rules, MangleDnsRules, ReplyBypass;
  }

  lemma ReplyMeans(env: Env, chains: Chains, d: nat, c: Config, k: Capabilities, p: Packet)
    ensures Traverse(env, chains, d, ReplyBypass(c, k), p) == if p.reply && ConntrackEnabled(c, k) then Back(p) else Fell(p)
  {
    TraverseReturns(env, chains, d, ReplyBypass(c, k), p);
    var r := Rule(Return, reply := true);
    if ConntrackEnabled(c, k) {
      assert r in ReplyBypass(c, k) && Matches(env, r, p) == p.reply;
    }
  }

  /** Every packet of the host's own traffic leaves the chain with the proxy mark
      added exactly if the policy says so, and is otherwise unchanged. */
  lemma LocalChainMeans(env: Env, chains: Chains, d: nat, refused: set<Rule>, c: Config, k: Capabilities, x: Context, f: Family, p: Packet)
    requires d > 0 && HoldsLocal(chains, refused, c, f) && AppAgrees(env, c, x, f, p)
    ensures LeavesMarked(Traverse(env, chains, d, TproxyLocalRules(c, k, x, f), p), p, LocalMarked(env, refused, c, k, x, f, p))
    ensures Traverse(env, chains, d, TproxyLocalRules(c, k, x, f), p).Accepted?
       <==> !DnsReturned(c, p) && LocalAccepted(env, refused, c, k, x, f, ActMark, p)
  {
    hide CommonBypassRules, LocalProxyRules, CnipForceLocalRules, FakeIp6Rules, MangleDnsRules, ReplyBypass, Bypassed, LocalHit;
    hide TproxyLocalRules, Selected, ProtoEnabled, ForcedHit, SetXmark, FakeIpMarked, AppAgrees, HoldsLocal, DnsReturned, DnsMarked;
    SplitLocal(c, k, x, f);
    TraverseAppend(env, chains, d, ReplyBypass(c, k), MangleDnsRules(c, ActMark) + (FakeIp6Rules(c, f, ActMark)
                   + (CnipForceLocalRules(c, k, x, f, LOCAL, ActMark)
                      + (CommonBypassRules(c, k, f, LOCAL) + LocalProxyRules(c, x, f, ActMark)))), p);
    ReplyMeans(env, chains, d, c, k, p);
    DnsTailMeans(env, chains, d, refused, c, k, x, f, p);
  }

  // ----- the same for REDIRECT -----

  lemma ForceRedirectMeans(env: Env, chains: Chains, d: nat, c: Config, base: Rule, p: Packet)
    requires OwnerOnly(base)
    ensures Traverse(env, chains, d, ForceRules(c, ActRedirect, base), p)
         == if LocalEnabled(c, ActRedirect, p) && Matches(env, base, p) then Redirected(c.redirPort) else Fell(p)
  {
    NothingFalls(env, chains, d, p);
    var r := RedirectRule(c, base.(proto := Is(Tcp)));
    assert [r][1..] == [];
    assert Matches(env, r, p) == (p.proto == Tcp && Matches(env, base, p));
  }

  lemma {:induction false} ForceUidsRedirect(env: Env, chains: Chains, d: nat, c: Config, e: Ext, uids: seq<nat>, p: Packet)
    ensures Traverse(env, chains, d, ForceUidRules(c, ActRedirect, e, uids), p)
         == if LocalEnabled(c, ActRedirect, p) && ExtMatches(env, e, p) && p.uid in uids then Redirected(c.redirPort) else Fell(p)
    decreases |uids|
  {
    if uids != [] {
      var base := UidRule(uids[0], Return).(ext := e);
      TraverseAppend(env, chains, d, ForceRules(c, ActRedirect, base), ForceUidRules(c, ActRedirect, e, uids[1..]), p);
      ForceRedirectMeans(env, chains, d, c, base, p);
      assert Matches(env, base, p) == (p.uid == uids[0] && ExtMatches(env, e, p));
      ForceUidsRedirect(env, chains, d, c, e, uids[1..], p);
    }
  }

  lemma CnipForceRedirect(env: Env, chains: Chains, d: nat, c: Config, k: Capabilities, x: Context, f: Family, p: Packet)
    ensures Traverse(env, chains, d, CnipForceLocalRules(c, k, x, f, LOCAL, ActRedirect), p)
         == if LocalEnabled(c, ActRedirect, p) && ForcedHit(env, c, k, x, f, p) then Redirected(c.redirPort) else Fell(p)
  {
    hide LocalEnabled;
    NothingFalls(env, chains, d, p);
    if c.bypassCn && x.forceUids != [] && CnipEnabled(c, k, f) {
      if c.cnipMode == ByEbpf {
        var base := Rule(Return, ext := Pinned(ForcePin(f)));
        ForceRedirectMeans(env, chains, d, c, base, p);
        assert Matches(env, base, p) == env.matches(ForcePin(f), p.dst, p.uid);
      } else {
        ForceUidsRedirect(env, chains, d, c, CnipMatch(c, k, f, LOCAL).value, x.forceUids, p);
      }
    }
  }

  predicate LocalRedirected(env: Env, refused: set<Rule>, c: Config, k: Capabilities, x: Context, f: Family, p: Packet) {
    && !(p.reply && ConntrackEnabled(c, k))
    && LocalEnabled(c, ActRedirect, p)
    && (ForcedHit(env, c, k, x, f, p)
        || (!Bypassed(env, c, k, f, LOCAL, p) && !LocalHit(refused, c, f, p) && Selected(c, x, p)))
  }

  /** Packets to the host's own networks end at the chain that accepts them. */
  predicate LocalAccepted(env: Env, refused: set<Rule>, c: Config, k: Capabilities, x: Context, f: Family, action: Action, p: Packet) {
    && !(p.reply && ConntrackEnabled(c, k)) && !(LocalEnabled(c, action, p) && ForcedHit(env, c, k, x, f, p))
    && !Bypassed(env, c, k, f, LOCAL, p) && LocalHit(refused, c, f, p)
  }

  /** A packet of the host is redirected exactly if the policy says so, and
      otherwise leaves as it came. */
  lemma RedirectLocalMeans(env: Env, chains: Chains, d: nat, refused: set<Rule>, c: Config, k: Capabilities, x: Context, f: Family, p: Packet)
    requires d > 0 && HoldsLocal(chains, refused, c, f) && AppAgrees(env, c, x, f, p)
    ensures var o := Traverse(env, chains, d, RedirectLocalRules(c, k, x, f), p);
      if LocalRedirected(env, refused, c, k, x, f, p) then o == Redirected(c.redirPort)
      else if LocalAccepted(env, refused, c, k, x, f, ActRedirect, p) then o == Accepted(p)
      else o == Fell(p) || o == Back(p)
  {
    hide ReplyBypass, CnipForceLocalRules, CommonBypassRules, LocalProxyRules, Bypassed, LocalHit, Selected, ForcedHit, LocalEnabled;
    hide HoldsLocal, AppAgrees;
    var a, b := ReplyBypass(c, k), CnipForceLocalRules(c, k, x, f, LOCAL, ActRedirect);
    var m, e := CommonBypassRules(c, k, f, LOCAL), LocalProxyRules(c, x, f, ActRedirect);
    TraverseAppend(env, chains, d, a + b + m, e, p);
    TraverseAppend(env, chains, d, a + b, m, p);
    TraverseAppend(env, chains, d, a, b, p);
    ReplyMeans(env, chains, d, c, k, p);
    CnipForceRedirect(env, chains, d, c, k, x, f, p);
    CommonBypassMeans(env, chains, d, refused, c, k, f, LOCAL, p);
    LocalProxyMeans(env, chains, d, c, x, f, ActRedirect, p);
  }
}
