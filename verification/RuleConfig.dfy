/** The configuration, capabilities and context the rule compiler works from,
    and the names and marks it uses. */
module RuleConfig {
  import opened Bytes
  import opened Netfilter

  datatype NetworkMode = Tun | TproxyOnly | Ebpf | RedirectOnly | Mixed | Enhance

  datatype ProxyMode = Core | Blacklist | Whitelist

  datatype CnipMode = ByIpset | ByEbpf

  /** The DNS hijack mode; every value but `redirect` and `disable` is the third. */
  datatype DnsMode = DnsRedirect | DnsDisable | DnsTproxy

  datatype Action = ActRedirect | ActTproxy | ActMark

  /** Settings, with the lists already normalised: addresses as networks, MACs
      validated and lower-cased, IDs numeric. */
  datatype Config = Config(
    mode: NetworkMode,
    proxyMode: ProxyMode,
    coreName: string,
    tproxyPort: nat,
    redirPort: nat,
    dnsPort: nat,
    tunDevice: string,
    ipv6: bool,
    proxyTcp: bool,
    proxyUdp: bool,
    dnsMode: DnsMode,
    dnsTcp: bool,
    dnsUdp: bool,
    dnsForward: bool,
    quicDisabled: bool,
    performance: bool,
    bypassCn: bool,
    bypassCn4: bool,
    bypassCn6: bool,
    cnipMode: CnipMode,
    fakeIp4: Option<Net>,
    fakeIp6: Option<Net>,
    blockedIfs: seq<string>,
    hotspotIfs: seq<string>,
    macFilter: bool,
    macWhitelist: bool,
    macs: seq<string>,
    subnets4: seq<Net>,
    subnets6: seq<Net>,
    localCidrs4: seq<Net>,
    localCidrs6: seq<Net>)

  /** What the kernel and its tools can do; `restoreFaults` are the tables where a
      restore of the local-IP chain fails for reasons of its own. */
  datatype Capabilities = Capabilities(
    tproxy4: bool,
    tproxy6: bool,
    socketMatch: bool,
    socketTransparent: bool,
    addrtype: bool,
    conntrackMatch: bool,
    connmarkMatch: bool,
    connmarkTarget: bool,
    ipset: bool,
    bpfMatch: bool,
    ip6Nat: bool,
    restore4: bool,
    restore6: bool,
    restoreFaults: set<(Family, TableName)>)

  /** Who runs the core and which IDs are selected; `appPinned` says whether the
      app-UID program of a family is pinned. */
  datatype Context = Context(
    boxUid: nat,
    boxGid: nat,
    uids: seq<nat>,
    gids: seq<nat>,
    forceUids: seq<nat>,
    appPinned4: bool,
    appPinned6: bool)

  const FWMARK := Mark(0x1000000, 0x1000000)
  const TUN_BYPASS := Mark(0x2000000, 0x2000000)
  const TUN_ROUTE := Mark(0x3000000, 0x3000000)

  // ----- names -----

  const EXTERNAL := "BOX_EXTERNAL"
  const LOCAL := "BOX_LOCAL"
  const TP_PRE_IP := "BOX_TP_PRE_IP"
  const TP_PRE_IF := "BOX_TP_PRE_IF"
  const TP_OUT_IP := "BOX_TP_OUT_IP"
  const TP_OUT_APP := "BOX_TP_OUT_APP"
  const DIVERT := "DIVERT"

  function LocalIpChain(f: Family): string { if f == V4 then "LOCAL_IP_V4" else "LOCAL_IP_V6" }

  function TunPreChain(f: Family): string { if f == V4 then "BOX_TUN_BYPASS_PRE" else "BOX_TUN_BYPASS6_PRE" }

  function TunOutChain(f: Family): string { if f == V4 then "BOX_TUN_BYPASS_OUT" else "BOX_TUN_BYPASS6_OUT" }

  function HijackPre(f: Family): string { if f == V4 then "NAT_DNS_HIJACK" else "NAT_DNS_HIJACK6" }

  function HijackOut(f: Family): string { if f == V4 then "NAT_DNS_HIJACK_OUT" else "NAT_DNS_HIJACK6_OUT" }

  function ForwardPre(f: Family): string { if f == V4 then "NAT_DNS_FORWARD" else "NAT_DNS_FORWARD6" }

  function ForwardOut(f: Family): string { if f == V4 then "NAT_DNS_FORWARD_OUT" else "NAT_DNS_FORWARD6_OUT" }

  // ----- lists by family -----

  function Subnets(c: Config, f: Family): seq<Net> { if f == V4 then c.subnets4 else c.subnets6 }

  predicate RestoreSupported(k: Capabilities, f: Family) { if f == V4 then k.restore4 else k.restore6 }

  function LocalCidrs(c: Config, f: Family): seq<Net> { if f == V4 then c.localCidrs4 else c.localCidrs6 }

  function LoopbackNet(f: Family): Net { if f == V4 then Net(0x7f00_0000, 8, 32) else Net(1, 128, 128) }

  function LoopbackHost(f: Family): Net { if f == V4 then Net(0x7f00_0001, 32, 32) else Net(1, 128, 128) }

  // ----- predicates on the configuration -----

  predicate ConntrackEnabled(c: Config, k: Capabilities) { c.performance && k.conntrackMatch }

  predicate ConnmarkEnabled(c: Config, k: Capabilities) {
    c.performance && k.conntrackMatch && k.connmarkMatch && k.connmarkTarget
  }

  predicate PerformanceChain(c: Config, k: Capabilities) {
    && ConnmarkEnabled(c, k)
    && (c.mode != Enhance ==> k.socketTransparent)
    && (c.mode == Enhance ==> c.proxyUdp)
  }

  predicate DnsToMihomo(c: Config) {
    c.dnsForward && c.coreName == "mihomo" && c.dnsMode == DnsTproxy
  }

  predicate CnipForFamily(c: Config, f: Family) {
    c.bypassCn && (if f == V4 then c.bypassCn4 else c.ipv6 && c.bypassCn6)
  }

  predicate CnipEnabled(c: Config, k: Capabilities, f: Family) {
    CnipForFamily(c, f) && (if c.cnipMode == ByIpset then k.ipset else k.bpfMatch)
  }

  predicate AppEbpfRequested(c: Config, x: Context) {
    c.performance && x.uids != [] && c.proxyMode != Core
  }

  predicate AppEbpfActive(c: Config, x: Context, f: Family) {
    AppEbpfRequested(c, x) && (if f == V4 then x.appPinned4 else x.appPinned6)
  }

  predicate EndsWith(s: string, t: string) { |t| <= |s| && s[|s| - |t|..] == t }

  predicate Contains(s: string, t: string) {
    t <= s || (s != [] && Contains(s[1..], t))
  }

  /** Chains traversed before routing use the ingress copy of the CIDR program. */
  predicate UsesPreroutingProgram(chain: string) {
    chain in {"BOX_EXTERNAL", "BOX_TUN_BYPASS_PRE", "BOX_TUN_BYPASS6_PRE"}
      || Contains(chain, "_PRE_") || EndsWith(chain, "_PRE")
  }

  function CnipPin(f: Family, chain: string): string {
    if f == V4
    then if UsesPreroutingProgram(chain) then "/sys/fs/bpf/box/box_cidr_pre4" else "/sys/fs/bpf/box/box_cidr_out4"
    else if UsesPreroutingProgram(chain) then "/sys/fs/bpf/box/box_cidr_pre6" else "/sys/fs/bpf/box/box_cidr_out6"
  }

  function ForcePin(f: Family): string {
    if f == V4 then "/sys/fs/bpf/box/box_force_out4" else "/sys/fs/bpf/box/box_force_out6"
  }

  function AppPin(f: Family): string {
    if f == V4 then "/sys/fs/bpf/box/box_uid_out4" else "/sys/fs/bpf/box/box_uid_out6"
  }

  /** The match a CN destination is tested with in a chain, if it is tested. */
  function CnipMatch(c: Config, k: Capabilities, f: Family, chain: string): Option<Ext> {
    if !CnipEnabled(c, k, f) then None
    else if c.cnipMode == ByIpset then Some(IpSet(if f == V4 then "cnip" else "cnip6"))
    else Some(Pinned(CnipPin(f, chain)))
  }

}
