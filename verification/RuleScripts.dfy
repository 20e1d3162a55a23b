/**
 The command sequences of the rule compiler: for each builder the rules it
 appends to a chain, and for each setup and teardown function the operations it
 issues, in the source's order.
 */
module RuleScripts {
  import opened Bytes
  import opened Netfilter
  import opened Batching
  import opened RuleConfig

  function Appends(f: Family, t: TableName, chain: string, rules: seq<Rule>): (s: seq<Step>)
    ensures |s| == |rules|
    ensures forall i :: 0 <= i < |rules| ==> s[i] == Step(f, t, EnsureAppend(chain, rules[i]))
  {
    seq(|rules|, i requires 0 <= i < |rules| => Step(f, t, EnsureAppend(chain, rules[i])))
  }

  function Attempts(f: Family, t: TableName, chain: string, rules: seq<Rule>): (s: seq<Step>)
    ensures |s| == |rules|
    ensures forall i :: 0 <= i < |rules| ==> s[i] == Step(f, t, AppendFirst(chain, [rules[i]]))
  {
    seq(|rules|, i requires 0 <= i < |rules| => Step(f, t, AppendFirst(chain, [rules[i]])))
  }

  lemma AppendsConcat(f: Family, t: TableName, chain: string, a: seq<Rule>, b: seq<Rule>)
    ensures Appends(f, t, chain, a + b) == Appends(f, t, chain, a) + Appends(f, t, chain, b)
  {
  }

  function When(b: bool, rules: seq<Rule>): seq<Rule> { if b then rules else [] }

  // ----- rules of dispatch -----

  function RedirectRule(c: Config, base: Rule): Rule { base.(target := Redirect(c.redirPort)) }

  function TproxyRule(c: Config, base: Rule): Rule { base.(target := Tproxy(c.tproxyPort, FWMARK)) }

  function MarkRule(m: Mark, base: Rule): Rule { base.(target := SetMark(m)) }

  /** Mark, then return: two rules with one match. */
  function MarkReturn(m: Mark, base: Rule): (s: seq<Rule>)
    ensures NoJumps(s)
  { [MarkRule(m, base), base.(target := Return)] }

  function CoreBypassVariants(x: Context): (s: seq<Rule>)
    ensures NoJumps(s)
  {
    [ Rule(Return, uid := Some(x.boxUid), gid := Some(x.boxGid)),
      Rule(Return, uid := Some(x.boxUid)),
      Rule(Return, gid := Some(x.boxGid)) ]
  }

  function ReplyBypass(c: Config, k: Capabilities): (s: seq<Rule>)
    ensures NoJumps(s)
  {
    When(ConntrackEnabled(c, k), [Rule(Return, reply := true)])
  }

  predicate TcpInMangle(c: Config) { c.mode != Enhance && c.proxyTcp }

  // ----- DNS in mangle -----

  function DnsBase(p: Proto): Rule { Rule(Return, proto := Is(p), dport := Port(53)) }

  function MangleDnsRules(c: Config, action: Action): (s: seq<Rule>)
    ensures NoJumps(s)
  {
    if c.dnsMode != DnsTproxy || DnsToMihomo(c) then
      When(c.mode != Enhance && c.dnsTcp, [DnsBase(Tcp)]) + When(c.dnsUdp, [DnsBase(Udp)])
    else
      match action
      case ActTproxy =>
        When(TcpInMangle(c) && c.dnsTcp, [TproxyRule(c, DnsBase(Tcp))])
          + When(c.dnsUdp && c.proxyUdp, [TproxyRule(c, DnsBase(Udp))])
      case ActMark =>
        When(TcpInMangle(c) && c.dnsTcp, [MarkRule(FWMARK, DnsBase(Tcp))])
          + When(c.dnsUdp && c.proxyUdp, [MarkRule(FWMARK, DnsBase(Udp))])
      case ActRedirect => []
  }

  function FakeIp6Rules(c: Config, f: Family, action: Action): (s: seq<Rule>)
    ensures NoJumps(s)
  {
    if f != V6 || c.fakeIp6 == None || c.coreName != "mihomo" then [] else
      var tcp := Rule(Return, proto := Is(Tcp), dst := c.fakeIp6);
      var udp := Rule(Return, proto := Is(Udp), dst := c.fakeIp6);
      match action
      case ActTproxy => When(TcpInMangle(c), [TproxyRule(c, tcp)]) + When(c.proxyUdp, [TproxyRule(c, udp)])
      case ActMark => When(TcpInMangle(c), [MarkRule(FWMARK, tcp)]) + When(c.proxyUdp, [MarkRule(FWMARK, udp)])
      case ActRedirect => []
  }

  // ----- bypassed destinations -----

  function SubnetReturns(nets: seq<Net>): (s: seq<Rule>)
    ensures |s| == |nets| && forall i :: 0 <= i < |nets| ==> s[i] == Rule(Return, dst := Some(nets[i]))
    ensures NoJumps(s)
  {
    seq(|nets|, i requires 0 <= i < |nets| => Rule(Return, dst := Some(nets[i])))
  }

  function CnipRule(c: Config, k: Capabilities, f: Family, chain: string, target: Target): seq<Rule> {
    match CnipMatch(c, k, f, chain) case None => [] case Some(e) => [Rule(target, ext := e)]
  }

  function CommonBypassRules(c: Config, k: Capabilities, f: Family, chain: string): seq<Rule> {
    SubnetReturns(Subnets(c, f)) + CnipRule(c, k, f, chain, Return) + [Rule(Jump(LocalIpChain(f)))]
  }

  function PerfBypassRules(c: Config, k: Capabilities, f: Family, chain: string): (s: seq<Rule>)
    ensures NoJumps(s)
  {
    AcceptPairs(Subnets(c, f))
      + (match CnipMatch(c, k, f, chain) case None => [] case Some(e) => AcceptPair(Rule(Accept, ext := e)))
  }

  function PerfAddrtypeRules(k: Capabilities): (s: seq<Rule>)
    ensures NoJumps(s)
  { When(k.addrtype, AcceptPair(Rule(Accept, dstLocal := true))) }

  function PerfLoopbackRules(c: Config, f: Family): (s: seq<Rule>)
    ensures NoJumps(s)
  {
    When(LoopbackNet(f) !in Subnets(c, f), AcceptPair(Rule(Accept, dst := Some(LoopbackNet(f)))))
  }

  // ----- ingress interfaces -----

  function IfaceRules(ifaces: seq<string>, target: Target): (s: seq<Rule>)
    ensures |s| == |ifaces| && forall i :: 0 <= i < |ifaces| ==> s[i] == Rule(target, inIf := Some(ifaces[i]))
  {
    seq(|ifaces|, i requires 0 <= i < |ifaces| => Rule(target, inIf := Some(ifaces[i])))
  }

  /** The dispatch rule for one protocol and interface, where the action has one. */
  function ExternalProtocolRule(c: Config, action: Action, p: Proto, iface: string, mac: Option<string>): (s: seq<Rule>)
    ensures NoJumps(s)
  {
    var base := Rule(Return, proto := Is(p), inIf := Some(iface), mac := mac);
    match action
    case ActRedirect => When(p == Tcp && c.proxyTcp, [RedirectRule(c, base)])
    case ActTproxy => When(if p == Tcp then TcpInMangle(c) else c.proxyUdp, [TproxyRule(c, base)])
    case ActMark => []
  }

  function ExternalBoth(c: Config, action: Action, iface: string, mac: Option<string>): (s: seq<Rule>)
    ensures NoJumps(s)
  {
    ExternalProtocolRule(c, action, Tcp, iface, mac) + ExternalProtocolRule(c, action, Udp, iface, mac)
  }

  function ExternalLoopbackRules(c: Config, action: Action): (s: seq<Rule>)
    ensures NoJumps(s)
  {
    match action
    case ActRedirect => ExternalProtocolRule(c, action, Tcp, "lo", None)
    case ActTproxy => ExternalBoth(c, action, "lo", None)
    case ActMark => []
  }

  function ExternalAllRules(c: Config, action: Action): (s: seq<Rule>)
    ensures NoJumps(s)
  {
    var tcp, udp := Rule(Return, proto := Is(Tcp)), Rule(Return, proto := Is(Udp));
    match action
    case ActRedirect => When(c.proxyTcp, [RedirectRule(c, tcp)])
    case ActTproxy => When(TcpInMangle(c), [TproxyRule(c, tcp)]) + When(c.proxyUdp, [TproxyRule(c, udp)])
    case ActMark => []
  }

  /** Blacklisted MACs leave before the interface is dispatched. */
  function MacReturn(c: Config, action: Action, iface: string, mac: string): (s: seq<Rule>)
    ensures NoJumps(s)
  {
    var base := Rule(Return, inIf := Some(iface), mac := Some(mac));
    match action
    case ActRedirect => [base]
    case ActTproxy => When(TcpInMangle(c), [base.(proto := Is(Tcp))]) + When(c.proxyUdp, [base.(proto := Is(Udp))])
    case ActMark => []
  }

  function MacReturns(c: Config, action: Action, iface: string, macs: seq<string>): (s: seq<Rule>)
    ensures NoJumps(s)
  {
    if macs == [] then [] else MacReturn(c, action, iface, macs[0]) + MacReturns(c, action, iface, macs[1..])
  }

  function MacDispatches(c: Config, action: Action, iface: string, macs: seq<string>): (s: seq<Rule>)
    ensures NoJumps(s)
  {
    if macs == [] then [] else ExternalBoth(c, action, iface, Some(macs[0])) + MacDispatches(c, action, iface, macs[1..])
  }

  function HotspotRules(c: Config, action: Action, iface: string): (s: seq<Rule>)
    ensures NoJumps(s)
  {
    if c.macWhitelist then MacDispatches(c, action, iface, c.macs)
    else MacReturns(c, action, iface, c.macs) + ExternalBoth(c, action, iface, None)
  }

  function HotspotsRules(c: Config, action: Action, ifaces: seq<string>): (s: seq<Rule>)
    ensures NoJumps(s)
  {
    if ifaces == [] then [] else HotspotRules(c, action, ifaces[0]) + HotspotsRules(c, action, ifaces[1..])
  }

  function ExternalApRules(c: Config, action: Action): (s: seq<Rule>)
    ensures NoJumps(s)
  {
    if c.macFilter then HotspotsRules(c, action, c.hotspotIfs) else ExternalAllRules(c, action)
  }

  function MacTargets(iface: string, macs: seq<string>, target: Target): (s: seq<Rule>)
    ensures |s| == |macs|
    ensures forall i :: 0 <= i < |macs| ==> s[i] == Rule(target, inIf := Some(iface), mac := Some(macs[i]))
  {
    seq(|macs|, i requires 0 <= i < |macs| => Rule(target, inIf := Some(iface), mac := Some(macs[i])))
  }

  function PerfHotspotRules(c: Config, iface: string): (s: seq<Rule>)
    ensures NoJumps(s)
  {
    if c.macWhitelist then MacTargets(iface, c.macs, Return) + [Rule(Accept, inIf := Some(iface))]
    else MacTargets(iface, c.macs, Accept) + [Rule(Return, inIf := Some(iface))]
  }

  function PerfHotspotsRules(c: Config, ifaces: seq<string>): (s: seq<Rule>)
    ensures NoJumps(s)
  {
    if ifaces == [] then [] else PerfHotspotRules(c, ifaces[0]) + PerfHotspotsRules(c, ifaces[1..])
  }

  function PerfIfRules(c: Config): (s: seq<Rule>)
    ensures NoJumps(s)
  {
    IfaceRules(c.blockedIfs, Accept) + [Rule(Return, inIf := Some("lo"))]
      + if c.macFilter then PerfHotspotsRules(c, c.hotspotIfs) + [Rule(Accept)] else [Rule(Return)]
  }

  // ----- the external chain, standard and fast -----

  function ExternalPrefix(c: Config, k: Capabilities, f: Family, action: Action): (s: seq<Rule>)
    ensures NoJumps(s)
  {
    ReplyBypass(c, k) + MangleDnsRules(c, action) + FakeIp6Rules(c, f, action)
  }

  /** What every external chain decides by destination and ingress interface. */
  function ExternalBody(c: Config, k: Capabilities, f: Family, action: Action): seq<Rule> {
    CommonBypassRules(c, k, f, EXTERNAL) + IfaceRules(c.blockedIfs, Return)
      + ExternalLoopbackRules(c, action) + ExternalApRules(c, action)
  }

  function TproxyExternalRules(c: Config, k: Capabilities, f: Family): seq<Rule> {
    ExternalPrefix(c, k, f, ActTproxy) + ExternalBody(c, k, f, ActTproxy)
  }

  function SynJump(chain: string): Rule { Rule(Jump(chain), proto := Is(Tcp), syn := true) }

  function OpeningJump(chain: string): Rule { Rule(Jump(chain), proto := Is(Udp), opening := true) }

  function PerfJumps(c: Config, chain: string): seq<Rule> {
    When(TcpInMangle(c), [SynJump(chain)]) + When(c.proxyUdp, [OpeningJump(chain)])
  }

  function ConnmarkSets(c: Config): (s: seq<Rule>)
    ensures NoJumps(s)
  {
    When(TcpInMangle(c), [Rule(SetConnMark(FWMARK), proto := Is(Tcp), opening := true)])
      + When(c.proxyUdp, [Rule(SetConnMark(FWMARK), proto := Is(Udp), opening := true)])
  }

  function Connmarked(p: Proto): Rule { Rule(Return, proto := Is(p), connmark := Some(FWMARK)) }

  function ConnmarkDispatches(c: Config): (s: seq<Rule>)
    ensures NoJumps(s)
  {
    When(TcpInMangle(c), [TproxyRule(c, Connmarked(Tcp))]) + When(c.proxyUdp, [TproxyRule(c, Connmarked(Udp))])
  }

  function PerfExternalBody(c: Config): seq<Rule> {
    PerfJumps(c, TP_PRE_IP) + PerfJumps(c, TP_PRE_IF) + ConnmarkSets(c) + ConnmarkDispatches(c)
  }

  function PerfExternalRules(c: Config, k: Capabilities, f: Family): seq<Rule> {
    ExternalPrefix(c, k, f, ActTproxy) + PerfExternalBody(c)
  }

  // ----- the local chain -----

  /** One rule of the local policy: by protocol, with an owner or program match in `base`. */
  function LocalProtocolRule(c: Config, action: Action, p: Proto, base: Rule): (s: seq<Rule>)
    ensures NoJumps(s)
  {
    var r := base.(proto := Is(p));
    if (if p == Tcp then !c.proxyTcp else !c.proxyUdp) then [] else
      match action
      case ActRedirect => When(p == Tcp, [RedirectRule(c, r)])
      case ActMark => When(!(p == Tcp && c.mode == Enhance), [MarkRule(FWMARK, r)])
      case ActTproxy => []
  }

  function LocalBoth(c: Config, action: Action, base: Rule): (s: seq<Rule>)
    ensures NoJumps(s)
  {
    LocalProtocolRule(c, action, Tcp, base) + LocalProtocolRule(c, action, Udp, base)
  }

  function UidRule(uid: nat, target: Target): Rule { Rule(target, uid := Some(uid)) }

  function GidRule(gid: nat, target: Target): Rule { Rule(target, gid := Some(gid)) }

  function UidRules(uids: seq<nat>, target: Target): (s: seq<Rule>)
    ensures |s| == |uids| && forall i :: 0 <= i < |uids| ==> s[i] == UidRule(uids[i], target)
  {
    seq(|uids|, i requires 0 <= i < |uids| => UidRule(uids[i], target))
  }

  function GidRules(gids: seq<nat>, target: Target): (s: seq<Rule>)
    ensures |s| == |gids| && forall i :: 0 <= i < |gids| ==> s[i] == GidRule(gids[i], target)
  {
    seq(|gids|, i requires 0 <= i < |gids| => GidRule(gids[i], target))
  }

  function LocalUids(c: Config, action: Action, uids: seq<nat>): (s: seq<Rule>)
    ensures NoJumps(s)
  {
    if uids == [] then [] else LocalBoth(c, action, UidRule(uids[0], Return)) + LocalUids(c, action, uids[1..])
  }

  function LocalGids(c: Config, action: Action, gids: seq<nat>): (s: seq<Rule>)
    ensures NoJumps(s)
  {
    if gids == [] then [] else LocalBoth(c, action, GidRule(gids[0], Return)) + LocalGids(c, action, gids[1..])
  }

  function AppRule(f: Family, target: Target): Rule { Rule(target, ext := Pinned(AppPin(f))) }

  function LocalProxyRules(c: Config, x: Context, f: Family, action: Action): (s: seq<Rule>)
    ensures NoJumps(s)
  {
    match c.proxyMode
    case Core => LocalBoth(c, action, Rule(Return))
    case Blacklist =>
      (if AppEbpfActive(c, x, f) then [AppRule(f, Return)] else UidRules(x.uids, Return))
        + GidRules(x.gids, Return) + LocalBoth(c, action, Rule(Return))
    case Whitelist =>
      if x.uids == [] && x.gids == [] then LocalBoth(c, action, Rule(Return))
      else
        (if AppEbpfActive(c, x, f) then LocalBoth(c, action, AppRule(f, Return)) else LocalUids(c, action, x.uids))
          + LocalUids(c, action, [0, 1052]) + LocalGids(c, action, x.gids)
  }

  /** The fast counterpart: ACCEPT leaves unproxied, RETURN goes on to be marked. */
  function PerfAppRules(c: Config, x: Context, f: Family): (s: seq<Rule>)
    ensures NoJumps(s)
  {
    match c.proxyMode
    case Core => []
    case Blacklist =>
      (if AppEbpfActive(c, x, f) then [AppRule(f, Accept)] else UidRules(x.uids, Accept)) + GidRules(x.gids, Accept)
    case Whitelist =>
      (if AppEbpfActive(c, x, f) then [AppRule(f, Return)] else UidRules(x.uids, Return))
        + When(x.uids != [], UidRules([0, 1052], Return))
        + GidRules(x.gids, Return)
        + When(x.uids != [] || x.gids != [], [Rule(Accept)])
  }

  /** Selected apps are proxied even towards CN destinations. */
  function ForceRules(c: Config, action: Action, base: Rule): (s: seq<Rule>)
    ensures NoJumps(s)
  {
    match action
    case ActRedirect => When(c.proxyTcp, [RedirectRule(c, base.(proto := Is(Tcp)))])
    case ActMark =>
      When(TcpInMangle(c), MarkReturn(FWMARK, base.(proto := Is(Tcp))))
        + When(c.proxyUdp, MarkReturn(FWMARK, base.(proto := Is(Udp))))
    case ActTproxy => []
  }

  function ForceUidRules(c: Config, action: Action, e: Ext, uids: seq<nat>): (s: seq<Rule>)
    ensures NoJumps(s)
  {
    if uids == [] then []
    else ForceRules(c, action, UidRule(uids[0], Return).(ext := e)) + ForceUidRules(c, action, e, uids[1..])
  }

  function CnipForceLocalRules(c: Config, k: Capabilities, x: Context, f: Family, chain: string, action: Action): (s: seq<Rule>)
    ensures NoJumps(s)
  {
    if !c.bypassCn || x.forceUids == [] || !CnipEnabled(c, k, f) then []
    else if c.cnipMode == ByEbpf then ForceRules(c, action, Rule(Return, ext := Pinned(ForcePin(f))))
    else ForceUidRules(c, action, CnipMatch(c, k, f, chain).value, x.forceUids)
  }

  // ----- TUN -----

  function BypassMarked(): Rule { Rule(Return, mark := Some(TUN_BYPASS)) }

  function TunBlockedRules(ifaces: seq<string>): (s: seq<Rule>)
    ensures NoJumps(s)
  {
    if ifaces == [] then [] else MarkReturn(TUN_BYPASS, Rule(Return, inIf := Some(ifaces[0]))) + TunBlockedRules(ifaces[1..])
  }

  function TunMacReturns(iface: string, macs: seq<string>): (s: seq<Rule>)
    ensures NoJumps(s)
  {
    if macs == [] then []
    else MarkReturn(TUN_BYPASS, Rule(Return, inIf := Some(iface), mac := Some(macs[0]))) + TunMacReturns(iface, macs[1..])
  }

  function TunHotspotRules(c: Config, iface: string): (s: seq<Rule>)
    ensures NoJumps(s)
  {
    if c.macWhitelist then
      MacTargets(iface, c.macs, SetMark(TUN_ROUTE)) + MarkReturn(TUN_BYPASS, Rule(Return, inIf := Some(iface)))
    else
      TunMacReturns(iface, c.macs) + [Rule(SetMark(TUN_ROUTE), inIf := Some(iface))]
  }

  function TunHotspotsRules(c: Config, ifaces: seq<string>): (s: seq<Rule>)
    ensures NoJumps(s)
  {
    if ifaces == [] then [] else TunHotspotRules(c, ifaces[0]) + TunHotspotsRules(c, ifaces[1..])
  }

  function TunInterfaceRules(c: Config): (s: seq<Rule>)
    ensures NoJumps(s)
  {
    TunBlockedRules(c.blockedIfs)
      + When(c.macFilter, TunHotspotsRules(c, c.hotspotIfs) + [BypassMarked()])
  }

  function TunDnsRules(c: Config): (s: seq<Rule>)
    ensures NoJumps(s)
  {
    When(c.dnsMode != DnsDisable,
      When(c.dnsTcp, MarkReturn(TUN_ROUTE, DnsBase(Tcp))) + When(c.dnsUdp, MarkReturn(TUN_ROUTE, DnsBase(Udp))))
  }

  function FakeIp(c: Config, f: Family): Option<Net> { if f == V4 then c.fakeIp4 else c.fakeIp6 }

  function TunDestinationRules(c: Config, k: Capabilities, f: Family, chain: string): (s: seq<Rule>)
    ensures NoJumps(s)
  {
    (if FakeIp(c, f) == None then [] else MarkReturn(TUN_ROUTE, Rule(Return, dst := FakeIp(c, f))))
      + SubnetReturns(Subnets(c, f))
      + CnipRule(c, k, f, chain, SetMark(TUN_BYPASS))
      + [BypassMarked(), Rule(SetMark(TUN_ROUTE))]
  }

  function TunProxyModeRules(c: Config, x: Context): (s: seq<Rule>)
    ensures NoJumps(s)
  {
    match c.proxyMode
    case Core => []
    case Blacklist => UidRules(x.uids, Return) + GidRules(x.gids, Return)
    case Whitelist =>
      UidRules(x.uids, SetMark(TUN_ROUTE)) + GidRules(x.gids, SetMark(TUN_ROUTE))
        + When(x.uids != [] || x.gids != [], [Rule(Return)])
  }

  function TunForceRules(c: Config, base: Rule): (s: seq<Rule>)
    ensures NoJumps(s)
  {
    When(c.proxyTcp, MarkReturn(TUN_ROUTE, base.(proto := Is(Tcp))))
      + When(c.proxyUdp, MarkReturn(TUN_ROUTE, base.(proto := Is(Udp))))
  }

  function TunForceUidRules(c: Config, e: Ext, uids: seq<nat>): (s: seq<Rule>)
    ensures NoJumps(s)
  {
    if uids == [] then [] else TunForceRules(c, UidRule(uids[0], Return).(ext := e)) + TunForceUidRules(c, e, uids[1..])
  }

  function CnipForceTunRules(c: Config, k: Capabilities, x: Context, f: Family, chain: string): (s: seq<Rule>)
    ensures NoJumps(s)
  {
    if !c.bypassCn || x.forceUids == [] || !CnipEnabled(c, k, f) then []
    else if c.cnipMode == ByEbpf then TunForceRules(c, Rule(Return, ext := Pinned(ForcePin(f))))
    else TunForceUidRules(c, CnipMatch(c, k, f, chain).value, x.forceUids)
  }

  function TunPreRules(c: Config, k: Capabilities, f: Family): (s: seq<Rule>)
    ensures NoJumps(s)
  {
    [Rule(Return, inIf := Some(c.tunDevice))] + TunInterfaceRules(c) + TunDnsRules(c)
      + TunDestinationRules(c, k, f, TunPreChain(f))
  }

  /** Behind the core-bypass rule. */
  function TunOutRules(c: Config, k: Capabilities, x: Context, f: Family): (s: seq<Rule>)
    ensures NoJumps(s)
  {
    TunDnsRules(c) + CnipForceTunRules(c, k, x, f, TunOutChain(f)) + TunProxyModeRules(c, x)
      + TunDestinationRules(c, k, f, TunOutChain(f))
  }

  // ----- setup, as the operations issued -----

  function One(f: Family, t: TableName, op: Op): seq<Step> { [Step(f, t, op)] }

  /** How the restore of a local-IP chain will go. */
  function RestoringOf(k: Capabilities, f: Family, t: TableName): Restoring {
    if !RestoreSupported(k, f) then Unsupported else if (f, t) in k.restoreFaults then Failing else Working
  }

  function LocalIpSetup(c: Config, k: Capabilities, f: Family, t: TableName): seq<Step> {
    One(f, t, Rebuild(LocalIpChain(f), LocalCidrs(c, f), RestoringOf(k, f, t)))
  }

  /** A policy rule or route: it is looked up, and added if it is not found.  Either
      command flushes first; behind a flush that worked another does nothing. */
  function IpEnsured(f: Family): seq<Step> { One(f, Filter, Sync(false)) + One(f, Filter, Sync(true)) }

  /** Each of these commands is allowed to fail. */
  function IpCleanup(f: Family): seq<Step> { One(f, Filter, Sync(false)) + One(f, Filter, Sync(false)) + One(f, Filter, Sync(false)) }

  /** A rule and a route. */
  function TproxyRouting(f: Family): seq<Step> { IpEnsured(f) + IpEnsured(f) }

  /** Two rules, and a route that is set without looking. */
  function TunRouting(f: Family): seq<Step> { IpEnsured(f) + IpEnsured(f) + One(f, Filter, Sync(true)) }

  function LocalChainStart(x: Context, f: Family, t: TableName): seq<Step> {
    One(f, t, EnsureChain(LOCAL))
      + One(f, t, InsertFirst(LOCAL, CoreBypassVariants(x), Some(Rule(Return, mark := Some(FWMARK)))))
  }

  function DnsHijackRules(c: Config, f: Family, inbound: bool): (s: seq<Rule>)
    ensures NoJumps(s)
  {
    When(inbound && f == V4, IfaceRules(c.blockedIfs, Return))
      + When(c.dnsTcp, [DnsBase(Tcp).(target := Redirect(c.dnsPort))])
      + When(c.dnsUdp, [DnsBase(Udp).(target := Redirect(c.dnsPort))])
  }

  function DnsForwardRules(c: Config, f: Family): (s: seq<Rule>)
    ensures NoJumps(s)
  {
    When(f == V4, IfaceRules(c.blockedIfs, Return)) + When(c.dnsUdp, [DnsBase(Udp).(target := Redirect(c.dnsPort))])
  }

  function DnsHijackSetup(c: Config, x: Context, f: Family): seq<Step> {
    var pre, out := HijackPre(f), HijackOut(f);
    One(f, Nat, EnsureChain(pre)) + One(f, Nat, EnsureChain(out))
      + Appends(f, Nat, pre, DnsHijackRules(c, f, true))
      + One(f, Nat, InsertFirst(out, CoreBypassVariants(x), None))
      + Appends(f, Nat, out, DnsHijackRules(c, f, false))
      + One(f, Nat, EnsureJump("PREROUTING", pre)) + One(f, Nat, EnsureJump("OUTPUT", out))
  }

  function DnsForwardSetup(c: Config, x: Context, f: Family): seq<Step> {
    One(f, Nat, EnsureChain(ForwardPre(f)))
      + One(f, Nat, InsertFirst(ForwardPre(f), CoreBypassVariants(x), None))
      + Appends(f, Nat, ForwardPre(f), DnsForwardRules(c, f))
      + One(f, Nat, EnsureJump("OUTPUT", ForwardPre(f)))
  }

  function DnsNatSetup(c: Config, k: Capabilities, x: Context, f: Family): seq<Step> {
    if (c.dnsMode != DnsRedirect && !DnsToMihomo(c)) || (f == V6 && !k.ip6Nat) then []
    else if c.dnsMode == DnsRedirect then DnsHijackSetup(c, x, f)
    else DnsForwardSetup(c, x, f)
  }

  function RedirectExternalSetup(c: Config, k: Capabilities, x: Context, f: Family): seq<Step> {
    One(f, Nat, EnsureChain(EXTERNAL))
      + Appends(f, Nat, EXTERNAL, ReplyBypass(c, k))
      + DnsNatSetup(c, k, x, f)
      + LocalIpSetup(c, k, f, Nat)
      + Appends(f, Nat, EXTERNAL, ExternalBody(c, k, f, ActRedirect))
      + One(f, Nat, EnsureJump("PREROUTING", EXTERNAL))
  }

  function RedirectLocalRules(c: Config, k: Capabilities, x: Context, f: Family): seq<Rule> {
    ReplyBypass(c, k) + CnipForceLocalRules(c, k, x, f, LOCAL, ActRedirect) + CommonBypassRules(c, k, f, LOCAL)
      + LocalProxyRules(c, x, f, ActRedirect)
  }

  /** The local-IP chain of the table is already there from the external setup. */
  function RedirectLocalSetup(c: Config, k: Capabilities, x: Context, f: Family): seq<Step> {
    LocalChainStart(x, f, Nat)
      + Appends(f, Nat, LOCAL, RedirectLocalRules(c, k, x, f))
      + One(f, Nat, EnsureJump("OUTPUT", LOCAL))
  }

  function LoopbackRejects(x: Context, f: Family, port: nat): (s: seq<Rule>)
    ensures NoJumps(s)
  {
    var base := Rule(Reject, proto := Is(Tcp), dst := Some(LoopbackHost(f)), dport := Port(port));
    [ base.(uid := Some(x.boxUid), gid := Some(x.boxGid)), base.(uid := Some(x.boxUid)), base.(gid := Some(x.boxGid)) ]
  }

  function LoopbackRejectSetup(x: Context, f: Family, port: nat): seq<Step> {
    One(f, Filter, EnsureFirst("OUTPUT", LoopbackRejects(x, f, port)))
  }

  function StartRedirect(c: Config, k: Capabilities, x: Context, f: Family): seq<Step> {
    if f == V6 && !k.ip6Nat then [] else
      RedirectExternalSetup(c, k, x, f) + RedirectLocalSetup(c, k, x, f) + LoopbackRejectSetup(x, f, c.redirPort)
  }

  /** The address-type rules are attempts: a kernel without the match skips them. */
  function PerfDestSetup(c: Config, k: Capabilities, f: Family, chain: string): seq<Step> {
    One(f, Mangle, EnsureChain(chain))
      + Appends(f, Mangle, chain, PerfBypassRules(c, k, f, chain))
      + Attempts(f, Mangle, chain, PerfAddrtypeRules(k))
      + Appends(f, Mangle, chain, PerfLoopbackRules(c, f))
  }

  function TproxyExternalSetup(c: Config, k: Capabilities, f: Family): seq<Step> {
    if PerformanceChain(c, k) then
      One(f, Mangle, EnsureChain(EXTERNAL))
        + PerfDestSetup(c, k, f, TP_PRE_IP)
        + One(f, Mangle, EnsureChain(TP_PRE_IF)) + Appends(f, Mangle, TP_PRE_IF, PerfIfRules(c))
        + Appends(f, Mangle, EXTERNAL, PerfExternalRules(c, k, f))
        + One(f, Mangle, EnsureJump("PREROUTING", EXTERNAL))
    else
      One(f, Mangle, EnsureChain(EXTERNAL))
        + Appends(f, Mangle, EXTERNAL, ExternalPrefix(c, k, f, ActTproxy))
        + LocalIpSetup(c, k, f, Mangle)
        + Appends(f, Mangle, EXTERNAL, ExternalBody(c, k, f, ActTproxy))
        + One(f, Mangle, EnsureJump("PREROUTING", EXTERNAL))
  }

  function ConnmarkMarks(c: Config): (s: seq<Rule>)
    ensures NoJumps(s)
  {
    When(TcpInMangle(c), [MarkRule(FWMARK, Connmarked(Tcp))]) + When(c.proxyUdp, [MarkRule(FWMARK, Connmarked(Udp))])
  }

  function PerfLocalRules(c: Config, k: Capabilities, x: Context, f: Family): seq<Rule> {
    ReplyBypass(c, k) + FakeIp6Rules(c, f, ActMark) + CnipForceLocalRules(c, k, x, f, LOCAL, ActMark)
      + PerfJumps(c, TP_OUT_IP) + PerfJumps(c, TP_OUT_APP) + MangleDnsRules(c, ActMark)
      + ConnmarkSets(c) + ConnmarkMarks(c)
  }

  function TproxyLocalRules(c: Config, k: Capabilities, x: Context, f: Family): seq<Rule> {
    ReplyBypass(c, k) + MangleDnsRules(c, ActMark) + FakeIp6Rules(c, f, ActMark)
      + CnipForceLocalRules(c, k, x, f, LOCAL, ActMark) + CommonBypassRules(c, k, f, LOCAL)
      + LocalProxyRules(c, x, f, ActMark)
  }

  function TproxyLocalSetup(c: Config, k: Capabilities, x: Context, f: Family): seq<Step> {
    LocalChainStart(x, f, Mangle)
      + (if PerformanceChain(c, k) then
           PerfDestSetup(c, k, f, TP_OUT_IP)
             + One(f, Mangle, EnsureChain(TP_OUT_APP)) + Appends(f, Mangle, TP_OUT_APP, PerfAppRules(c, x, f))
             + Appends(f, Mangle, LOCAL, PerfLocalRules(c, k, x, f))
         else Appends(f, Mangle, LOCAL, TproxyLocalRules(c, k, x, f)))
      + One(f, Mangle, EnsureJump("OUTPUT", LOCAL))
  }

  function DivertJump(): Rule { Rule(Jump(DIVERT), proto := Is(Tcp), socket := true) }

  function DivertSetup(c: Config, k: Capabilities, f: Family): seq<Step> {
    if c.mode == Enhance || !k.socketMatch || !PerformanceChain(c, k) then DivertCleanup(f)
    else
      One(f, Mangle, EnsureChain(DIVERT))
        + Appends(f, Mangle, DIVERT, [Rule(SetMark(FWMARK)), Rule(Accept)])
        + One(f, Mangle, EnsureInsert("PREROUTING", DivertJump()))
  }

  /** The second form, without the transparent option, is what older versions left. */
  function DivertCleanup(f: Family): seq<Step> {
    One(f, Mangle, DelRule("PREROUTING", DivertJump()))
      + One(f, Mangle, DelRule("PREROUTING", LegacyDivertJump()))
      + One(f, Mangle, CleanupChain(DIVERT))
  }

  function LegacyDivertJump(): Rule { Rule(Jump(DIVERT), proto := Is(Tcp), ext := Legacy("socket")) }

  function QuicReject(port: nat): Rule { Rule(Reject, proto := Is(Udp), dport := Port(port)) }

  function QuicSetup(c: Config, f: Family): seq<Step> {
    if c.quicDisabled && c.proxyUdp then Appends(f, Filter, "OUTPUT", [QuicReject(443), QuicReject(80)]) else []
  }

  function FakeIpIcmp(net: Net): Rule { Rule(Dnat("127.0.0.1"), proto := Is(Icmp), dst := Some(net)) }

  function FakeIpIcmpSetup(c: Config, f: Family): seq<Step> {
    if f != V4 || c.fakeIp4 == None || c.coreName !in {"mihomo", "sing-box"} then []
    else
      One(f, Nat, EnsureInsert("OUTPUT", FakeIpIcmp(c.fakeIp4.value)))
        + One(f, Nat, EnsureInsert("PREROUTING", FakeIpIcmp(c.fakeIp4.value)))
  }

  predicate TproxySupported(k: Capabilities, f: Family) { if f == V4 then k.tproxy4 else k.tproxy6 }

  function StartTproxy(c: Config, k: Capabilities, x: Context, f: Family): seq<Step> {
    if !TproxySupported(k, f) then [] else TproxyRouting(f) + TproxyTables(c, k, x, f)
  }

  function TproxyTables(c: Config, k: Capabilities, x: Context, f: Family): seq<Step> {
    TproxyExternalSetup(c, k, f) + TproxyLocalSetup(c, k, x, f) + DivertSetup(c, k, f) + QuicSetup(c, f)
      + (if c.mode != Enhance then LoopbackRejectSetup(x, f, c.tproxyPort) else [])
      + DnsNatSetup(c, k, x, f) + FakeIpIcmpSetup(c, f)
  }

  function ForwardRules(c: Config): seq<Rule> {
    [Rule(Accept, inIf := Some(c.tunDevice)), Rule(Accept, outIf := Some(c.tunDevice))]
  }

  function ForwardSetup(c: Config, f: Family): seq<Step> {
    One(f, Filter, EnsureInsert("FORWARD", ForwardRules(c)[0])) + One(f, Filter, EnsureInsert("FORWARD", ForwardRules(c)[1]))
  }

  function ForwardCleanup(c: Config, f: Family): seq<Step> {
    One(f, Filter, DelRule("FORWARD", ForwardRules(c)[0])) + One(f, Filter, DelRule("FORWARD", ForwardRules(c)[1]))
  }

  function StartTunBypass(c: Config, k: Capabilities, x: Context, f: Family): seq<Step> {
    TunTables(c, k, x, f) + TunRouting(f)
  }

  function TunTables(c: Config, k: Capabilities, x: Context, f: Family): seq<Step> {
    var pre, out := TunPreChain(f), TunOutChain(f);
    One(f, Mangle, EnsureChain(pre)) + One(f, Mangle, EnsureChain(out))
      + Appends(f, Mangle, pre, TunPreRules(c, k, f))
      + One(f, Mangle, AppendFirst(out, CoreBypassVariants(x)))
      + Appends(f, Mangle, out, TunOutRules(c, k, x, f))
      + One(f, Mangle, EnsureJump("PREROUTING", pre)) + One(f, Mangle, EnsureJump("OUTPUT", out))
  }

  // ----- teardown -----

  function DelJump(f: Family, t: TableName, parent: string, target: string): seq<Step> {
    One(f, t, DelRule(parent, Rule(Jump(target))))
  }

  function DelRules(f: Family, t: TableName, chain: string, rules: seq<Rule>): (s: seq<Step>)
    ensures |s| == |rules| && forall i :: 0 <= i < |rules| ==> s[i] == Step(f, t, DelRule(chain, rules[i]))
  {
    seq(|rules|, i requires 0 <= i < |rules| => Step(f, t, DelRule(chain, rules[i])))
  }

  function Cleanups(f: Family, t: TableName, chains: seq<string>): (s: seq<Step>)
    ensures |s| == |chains| && forall i :: 0 <= i < |chains| ==> s[i] == Step(f, t, CleanupChain(chains[i]))
  {
    seq(|chains|, i requires 0 <= i < |chains| => Step(f, t, CleanupChain(chains[i])))
  }

  /** The two fixed owner forms besides the probed one. */
  function FixedLoopbackRejects(f: Family, port: nat): seq<Rule> {
    var base := Rule(Reject, proto := Is(Tcp), dst := Some(LoopbackHost(f)), dport := Port(port));
    [base.(ext := Legacy("uid-owner 0:3005")), base.(uid := Some(0), gid := Some(3005))]
  }

  function LoopbackRejectCleanup(x: Context, f: Family, port: nat): seq<Step> {
    DelRules(f, Filter, "OUTPUT", LoopbackRejects(x, f, port) + FixedLoopbackRejects(f, port))
  }

  function ExternalCleanup(f: Family, t: TableName): seq<Step> {
    DelJump(f, t, "PREROUTING", EXTERNAL) + One(f, t, CleanupChain(EXTERNAL))
  }

  function LocalCleanup(f: Family, t: TableName): seq<Step> {
    DelJump(f, t, "OUTPUT", LOCAL) + One(f, t, CleanupChain(LOCAL)) + One(f, t, CleanupChain(LocalIpChain(f)))
  }

  function DnsChainCleanup(f: Family, chain: string): seq<Step> {
    DelJump(f, Nat, "PREROUTING", chain) + DelJump(f, Nat, "OUTPUT", chain) + One(f, Nat, CleanupChain(chain))
  }

  function DnsNatCleanup(k: Capabilities, f: Family): seq<Step> {
    if f == V6 && !k.ip6Nat then [] else
      DnsChainCleanup(f, HijackPre(f)) + DnsChainCleanup(f, HijackOut(f))
        + DnsChainCleanup(f, ForwardPre(f)) + DnsChainCleanup(f, ForwardOut(f))
  }

  function StopRedirect(c: Config, k: Capabilities, x: Context, f: Family): seq<Step> {
    LoopbackRejectCleanup(x, f, c.redirPort) + ExternalCleanup(f, Nat) + LocalCleanup(f, Nat)
      + Cleanups(f, Nat, ["BOX_RD_PRE_IP", "BOX_RD_PRE_IF", "BOX_RD_OUT_IP", "BOX_RD_OUT_APP"])
      + DnsNatCleanup(k, f)
  }

  function QuicCleanup(f: Family): seq<Step> {
    DelRules(f, Filter, "OUTPUT", [LegacyQuicReject(), QuicReject(443), QuicReject(80)])
  }

  function LegacyQuicReject(): Rule { Rule(Reject, proto := Is(Udp), ext := Legacy("multiport 443,80")) }

  function FakeIpIcmpCleanup(c: Config, f: Family): seq<Step> {
    if f != V4 || c.fakeIp4 == None then [] else
      var r := FakeIpIcmp(c.fakeIp4.value);
      DelRules(f, Nat, "OUTPUT", [r, r]) + DelRules(f, Nat, "PREROUTING", [r, r])
  }

  function StopTproxy(c: Config, k: Capabilities, x: Context, f: Family): seq<Step> {
    IpCleanup(f) + StopTproxyTables(c, k, x, f)
  }

  function StopTproxyTables(c: Config, k: Capabilities, x: Context, f: Family): seq<Step> {
    ExternalCleanup(f, Mangle) + LocalCleanup(f, Mangle)
      + Cleanups(f, Mangle, [TP_PRE_IP, TP_PRE_IF, TP_OUT_IP, TP_OUT_APP])
      + DivertCleanup(f) + QuicCleanup(f) + LoopbackRejectCleanup(x, f, c.tproxyPort)
      + FakeIpIcmpCleanup(c, f) + DnsNatCleanup(k, f)
  }

  function StopTunBypass(f: Family): seq<Step> { IpCleanup(f) + StopTunTables(f) }

  function StopTunTables(f: Family): seq<Step> {
    DelJump(f, Mangle, "PREROUTING", TunPreChain(f)) + DelJump(f, Mangle, "OUTPUT", TunOutChain(f))
      + Cleanups(f, Mangle, [TunPreChain(f), TunOutChain(f)])
  }
}
