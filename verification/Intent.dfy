/**
 What the modes are for, in the terms of the settings alone: which packets are
 redirected, handed to the transparent proxy, marked, rejected or left to go on.
 Nothing here is shared with the rule compiler but the settings and the packets.
 */
module Intent {
  import opened Bytes
  import opened Netfilter
  import opened RuleConfig

  /** What happens at a built-in chain: an end, or what goes on to the rules of others. */
  datatype Fate = Ends(o: Outcome) | GoesOn(p: Packet)

  // ----- destinations -----

  predicate InList(nets: seq<Net>, a: nat) { exists n | n in nets :: InNet(n, a) }

  predicate CnTested(c: Config, k: Capabilities, f: Family) {
    && c.bypassCn
    && (if f == V4 then c.bypassCn4 else c.ipv6 && c.bypassCn6)
    && (if c.cnipMode == ByIpset then k.ipset else k.bpfMatch)
  }

  /** A CN destination, asked of the set or of the program for the direction. */
  predicate ToCn(env: Env, c: Config, k: Capabilities, f: Family, ingress: bool, p: Packet) {
    CnTested(c, k, f) &&
    if c.cnipMode == ByIpset then env.inSet(if f == V4 then "cnip" else "cnip6", p.dst)
    else if f == V4 then env.matches(if ingress then "/sys/fs/bpf/box/box_cidr_pre4" else "/sys/fs/bpf/box/box_cidr_out4", p.dst, p.uid)
    else env.matches(if ingress then "/sys/fs/bpf/box/box_cidr_pre6" else "/sys/fs/bpf/box/box_cidr_out6", p.dst, p.uid)
  }

  /** Listed networks and CN destinations are not proxied. */
  predicate Spared(env: Env, c: Config, k: Capabilities, f: Family, ingress: bool, p: Packet) {
    InList(if f == V4 then c.subnets4 else c.subnets6, p.dst) || ToCn(env, c, k, f, ingress, p)
  }

  predicate QueryOverUdp(p: Packet) { p.proto == Udp && p.dport == 53 }

  /** The rule that lets packets like this one to a network of the host pass. */
  function OwnNetRule(net: Net, p: Packet): Rule {
    if p.proto == Udp then Rule(Accept, proto := Is(Udp), dport := NotPort(53), dst := Some(net))
    else Rule(Accept, proto := IsNot(Udp), dst := Some(net))
  }

  /** A network of the host whose rule the kernel took; queries over UDP are not let pass. */
  predicate OwnNet(refused: set<Rule>, c: Config, f: Family, p: Packet) {
    && !QueryOverUdp(p)
    && exists n | n in (if f == V4 then c.localCidrs4 else c.localCidrs6) :: InNet(n, p.dst) && OwnNetRule(n, p) !in refused
  }

  // ----- senders -----

  predicate OnInterface(ifaces: seq<string>, p: Packet) { exists i | i in ifaces :: IfMatches(i, p.inIf) }

  predicate Admitted(c: Config, p: Packet) {
    && !OnInterface(c.blockedIfs, p)
    && (p.inIf == "lo" || !c.macFilter || (OnInterface(c.hotspotIfs, p) && (p.mac in c.macs <==> c.macWhitelist)))
  }

  predicate Replies(c: Config, k: Capabilities, p: Packet) { c.performance && k.conntrackMatch && p.reply }

  predicate Chosen(c: Config, x: Context, p: Packet) {
    match c.proxyMode
    case Core => true
    case Blacklist => p.uid !in x.uids && p.gid !in x.gids
    case Whitelist =>
      (x.uids == [] && x.gids == []) || p.uid in x.uids || p.uid == 0 || p.uid == 1052 || p.gid in x.gids
  }

  /** The core's own packets, by the first owner match the kernel takes. */
  predicate ByOwner(refused: set<Rule>, x: Context, p: Packet) {
    if Rule(Return, uid := Some(x.boxUid), gid := Some(x.boxGid)) !in refused then p.uid == x.boxUid && p.gid == x.boxGid
    else if Rule(Return, uid := Some(x.boxUid)) !in refused then p.uid == x.boxUid
    else Rule(Return, gid := Some(x.boxGid)) !in refused && p.gid == x.boxGid
  }

  predicate NoOwner(refused: set<Rule>, x: Context) {
    && Rule(Return, uid := Some(x.boxUid), gid := Some(x.boxGid)) in refused
    && Rule(Return, uid := Some(x.boxUid)) in refused && Rule(Return, gid := Some(x.boxGid)) in refused
  }

  /** Where there is no owner match, the chains of the host go by bit 24 of the mark. */
  predicate FromCore(refused: set<Rule>, x: Context, p: Packet) {
    || ByOwner(refused, x, p)
    || (NoOwner(refused, x) && Rule(Return, mark := Some(Mark(0x1000000, 0x1000000))) !in refused && p.mark & 0x1000000 == 0x1000000)
  }

  /** Apps proxied even towards CN destinations. */
  predicate Forced(env: Env, c: Config, k: Capabilities, x: Context, f: Family, p: Packet) {
    && x.forceUids != [] && CnTested(c, k, f)
    && (if c.cnipMode == ByEbpf
        then env.matches(if f == V4 then "/sys/fs/bpf/box/box_force_out4" else "/sys/fs/bpf/box/box_force_out6", p.dst, p.uid)
        else env.inSet(if f == V4 then "cnip" else "cnip6", p.dst) && p.uid in x.forceUids)
  }

  /** The pinned program of the family answers as the list of UIDs, where it is asked. */
  predicate AppsAnswer(env: Env, c: Config, x: Context, f: Family, p: Packet) {
    c.performance && x.uids != [] && c.proxyMode != Core && (if f == V4 then x.appPinned4 else x.appPinned6) ==>
      (env.matches(if f == V4 then "/sys/fs/bpf/box/box_uid_out4" else "/sys/fs/bpf/box/box_uid_out6", p.dst, p.uid)
       <==> p.uid in x.uids)
  }

  // ----- DNS -----

  /** A query over a protocol whose DNS is to be taken. */
  predicate Query(c: Config, p: Packet) {
    p.dport == 53 && ((p.proto == Tcp && c.dnsTcp) || (p.proto == Udp && c.dnsUdp))
  }

  predicate DnsByMihomo(c: Config) { c.dnsForward && c.coreName == "mihomo" && c.dnsMode == DnsTproxy }

  predicate Redirecting(c: Config, k: Capabilities, f: Family) {
    c.mode in {RedirectOnly, Mixed, Enhance} && (f == V4 || k.ip6Nat)
  }

  predicate Tproxying(c: Config, k: Capabilities, f: Family) {
    c.mode in {TproxyOnly, Enhance} && (if f == V4 then k.tproxy4 else k.tproxy6)
  }

  predicate DnsInNat(c: Config, k: Capabilities, f: Family) {
    (f == V4 || k.ip6Nat) && (Redirecting(c, k, f) || Tproxying(c, k, f))
  }

  /** Queries of others, taken from every interface that is not blocked. */
  predicate QueryTaken(c: Config, k: Capabilities, f: Family, p: Packet) {
    DnsInNat(c, k, f) && c.dnsMode == DnsRedirect && Query(c, p) && !(f == V4 && OnInterface(c.blockedIfs, p))
  }

  /** Queries of the host itself, the core's excepted; where mihomo forwards DNS only
      those over UDP, and these with the list of interfaces too. */
  predicate OwnQueryTaken(refused: set<Rule>, c: Config, k: Capabilities, x: Context, f: Family, p: Packet) {
    DnsInNat(c, k, f) && !ByOwner(refused, x, p) &&
    if c.dnsMode == DnsRedirect then Query(c, p)
    else DnsByMihomo(c) && QueryOverUdp(p) && c.dnsUdp && !(f == V4 && OnInterface(c.blockedIfs, p))
  }

  // ----- nat -----

  /** Pings to fake addresses are answered on the spot, if the kernel takes the rule. */
  predicate PingAnswered(refused: set<Rule>, c: Config, k: Capabilities, f: Family, p: Packet) {
    && Tproxying(c, k, f) && f == V4 && c.fakeIp4.Some? && c.coreName in {"mihomo", "sing-box"}
    && Rule(Dnat("127.0.0.1"), proto := Is(Icmp), dst := c.fakeIp4) !in refused
    && p.proto == Icmp && InNet(c.fakeIp4.value, p.dst)
  }

  function QueryFate(c: Config, taken: bool, p: Packet): Fate { if taken then Ends(Redirected(c.dnsPort)) else GoesOn(p) }

  /** Packets of others, at PREROUTING of nat. */
  function NatIn(env: Env, refused: set<Rule>, c: Config, k: Capabilities, f: Family, p: Packet): Fate {
    var dns := QueryFate(c, QueryTaken(c, k, f, p), p);
    if PingAnswered(refused, c, k, f, p) then Ends(Dnatted("127.0.0.1"))
    else if !Redirecting(c, k, f) || Replies(c, k, p) || Spared(env, c, k, f, true, p) then dns
    else if OwnNet(refused, c, f, p) then Ends(Accepted(p))
    else if p.proto == Tcp && c.proxyTcp && Admitted(c, p) then Ends(Redirected(c.redirPort))
    else dns
  }

  /** Packets of the host, at OUTPUT of nat. */
  function NatOut(env: Env, refused: set<Rule>, c: Config, k: Capabilities, x: Context, f: Family, p: Packet): Fate {
    var dns := QueryFate(c, OwnQueryTaken(refused, c, k, x, f, p), p);
    if PingAnswered(refused, c, k, f, p) then Ends(Dnatted("127.0.0.1"))
    else if !Redirecting(c, k, f) || FromCore(refused, x, p) || Replies(c, k, p) then dns
    else if p.proto == Tcp && c.proxyTcp && Forced(env, c, k, x, f, p) then Ends(Redirected(c.redirPort))
    else if Spared(env, c, k, f, false, p) then dns
    else if OwnNet(refused, c, f, p) then Ends(Accepted(p))
    else if p.proto == Tcp && c.proxyTcp && Chosen(c, x, p) then Ends(Redirected(c.redirPort))
    else dns
  }

  // ----- mangle, with TPROXY -----

  predicate Handled(c: Config, p: Packet) {
    (p.proto == Tcp && c.mode != Enhance && c.proxyTcp) || (p.proto == Udp && c.proxyUdp)
  }

  /** Queries that mangle leaves to nat or to nobody. */
  predicate QueryLeft(c: Config, p: Packet) {
    && (c.dnsMode != DnsTproxy || DnsByMihomo(c)) && p.dport == 53
    && ((p.proto == Tcp && c.mode != Enhance && c.dnsTcp) || (p.proto == Udp && c.dnsUdp))
  }

  predicate QueryHandled(c: Config, p: Packet) {
    c.dnsMode == DnsTproxy && !DnsByMihomo(c) && Query(c, p) && Handled(c, p)
  }

  predicate FakeHandled(c: Config, f: Family, p: Packet) {
    f == V6 && c.coreName == "mihomo" && c.fakeIp6.Some? && InNet(c.fakeIp6.value, p.dst) && Handled(c, p)
  }

  function ToProxy(c: Config, p: Packet): Fate { Ends(Tproxied(c.tproxyPort, p.(mark := (p.mark & !0x1000000) ^ 0x1000000))) }

  /** Packets of others, at PREROUTING of mangle, by the standard chain. */
  function MangleIn(env: Env, refused: set<Rule>, c: Config, k: Capabilities, f: Family, p: Packet): Fate {
    if Replies(c, k, p) || QueryLeft(c, p) then GoesOn(p)
    else if QueryHandled(c, p) || FakeHandled(c, f, p) then ToProxy(c, p)
    else if Spared(env, c, k, f, true, p) then GoesOn(p)
    else if OwnNet(refused, c, f, p) then Ends(Accepted(p))
    else if Handled(c, p) && Admitted(c, p) then ToProxy(c, p)
    else GoesOn(p)
  }

  function WithBit24(p: Packet): Packet { p.(mark := (p.mark & !0x1000000) ^ 0x1000000) }

  /** Packets of the host, at OUTPUT of mangle: bit 24 sends them to the proxy. */
  function MangleOut(env: Env, refused: set<Rule>, c: Config, k: Capabilities, x: Context, f: Family, p: Packet): Fate {
    if FromCore(refused, x, p) || Replies(c, k, p) || QueryLeft(c, p) then GoesOn(p)
    else
      var q := if QueryHandled(c, p) || FakeHandled(c, f, p) then WithBit24(p) else p;
      if Handled(c, p) && Forced(env, c, k, x, f, p) then GoesOn(WithBit24(p))
      else if Spared(env, c, k, f, false, p) then GoesOn(q)
      else if OwnNet(refused, c, f, p) then Ends(Accepted(q))
      else if Handled(c, p) && Chosen(c, x, p) then GoesOn(WithBit24(p))
      else GoesOn(q)
  }

  // ----- mangle, by the fast chains -----

  /** The fast chains are used where the connection can carry the mark. */
  predicate Fast(c: Config, k: Capabilities) {
    && c.performance && k.conntrackMatch && k.connmarkMatch && k.connmarkTarget
    && (if c.mode == Enhance then c.proxyUdp else k.socketTransparent)
  }

  /** Packets of a transparent socket are left to it. */
  predicate OwnSocket(c: Config, k: Capabilities, p: Packet) {
    c.mode != Enhance && k.socketMatch && Fast(c, k) && p.proto == Tcp && p.socket
  }

  /** The rule that sees to it; the kernel is expected to take it. */
  function SocketRule(): Rule { Rule(Jump("DIVERT"), proto := Is(Tcp), socket := true) }

  /** The rule by which packets like this one to an address of the host are let pass. */
  function OwnAddressRule(p: Packet): Rule {
    if p.proto == Udp then Rule(Accept, proto := Is(Udp), dport := NotPort(53), dstLocal := true)
    else Rule(Accept, proto := IsNot(Udp), dstLocal := true)
  }

  /** Loopback, and addresses of the host where the kernel can tell them. */
  predicate OwnAddress(refused: set<Rule>, k: Capabilities, f: Family, p: Packet) {
    || InNet(if f == V4 then Net(0x7f00_0000, 8, 32) else Net(1, 128, 128), p.dst)
    || (k.addrtype && p.dstLocal && OwnAddressRule(p) !in refused)
  }

  /** Destinations the fast chains leave alone, queries over UDP excepted. */
  predicate FastSpared(env: Env, refused: set<Rule>, c: Config, k: Capabilities, f: Family, ingress: bool, p: Packet) {
    !QueryOverUdp(p) && (Spared(env, c, k, f, ingress, p) || OwnAddress(refused, k, f, p))
  }

  /** The first packet of a flow of others goes to the proxy. */
  predicate FastIn(env: Env, refused: set<Rule>, c: Config, k: Capabilities, f: Family, p: Packet) {
    && !Replies(c, k, p) && !QueryLeft(c, p)
    && (QueryHandled(c, p) || FakeHandled(c, f, p)
        || (Handled(c, p) && !FastSpared(env, refused, c, k, f, true, p) && Admitted(c, p)))
  }

  predicate FastChosen(c: Config, x: Context, p: Packet) {
    match c.proxyMode
    case Core => true
    case Blacklist => p.uid !in x.uids && p.gid !in x.gids
    case Whitelist =>
      || (x.uids == [] && x.gids == [])
      || p.uid in x.uids || p.gid in x.gids
      || (x.uids != [] && (p.uid == 0 || p.uid == 1052))
  }

  /** The first packet of a flow of the host is marked for the proxy. */
  predicate FastOut(env: Env, refused: set<Rule>, c: Config, k: Capabilities, x: Context, f: Family, p: Packet) {
    && !FromCore(refused, x, p) && !Replies(c, k, p)
    && (FakeHandled(c, f, p)
        || (Handled(c, p)
            && (Forced(env, c, k, x, f, p)
                || (!FastSpared(env, refused, c, k, f, false, p) && FastChosen(c, x, p) && !QueryLeft(c, p)))))
  }

  // ----- mangle, with TUN -----

  predicate QueryRouted(c: Config, p: Packet) { c.dnsMode != DnsDisable && Query(c, p) }

  function FakeNet(c: Config, f: Family): Option<Net> { if f == V4 then c.fakeIp4 else c.fakeIp6 }

  /** Bits 24 and 25 send a packet to the TUN device. */
  function Routed(p: Packet): Packet { p.(mark := (p.mark & !0x3000000) ^ 0x3000000) }

  /** Bit 25 alone keeps it away from there. */
  function Bypassing(p: Packet): Packet { p.(mark := (p.mark & !0x2000000) ^ 0x2000000) }

  function ByDestination(env: Env, c: Config, k: Capabilities, f: Family, ingress: bool, p: Packet): Packet {
    if FakeNet(c, f).Some? && InNet(FakeNet(c, f).value, p.dst) then Routed(p)
    else if InList(if f == V4 then c.subnets4 else c.subnets6, p.dst) then p
    else if ToCn(env, c, k, f, ingress, p) then Bypassing(p)
    else Routed(p)
  }

  /** Packets of others. */
  function TunIn(env: Env, c: Config, k: Capabilities, f: Family, p: Packet): Packet {
    if IfMatches(c.tunDevice, p.inIf) then p
    else if OnInterface(c.blockedIfs, p) then Bypassing(p)
    else if c.macFilter && OnInterface(c.hotspotIfs, p) then (if p.mac in c.macs <==> c.macWhitelist then Routed(p) else Bypassing(p))
    else if QueryRouted(c, p) then Routed(p)
    else ByDestination(env, c, k, f, true, p)
  }

  /** Packets of the host. */
  function TunOut(env: Env, refused: set<Rule>, c: Config, k: Capabilities, x: Context, f: Family, p: Packet): Packet {
    var listed := p.uid in x.uids || p.gid in x.gids;
    if ByOwner(refused, x, p) then p
    else if QueryRouted(c, p) then Routed(p)
    else if ((p.proto == Tcp && c.proxyTcp) || (p.proto == Udp && c.proxyUdp)) && Forced(env, c, k, x, f, p) then Routed(p)
    else if c.proxyMode == Blacklist && listed then p
    else if c.proxyMode == Whitelist && (x.uids != [] || x.gids != []) then (if listed then Routed(p) else p)
    else ByDestination(env, c, k, f, false, p)
  }

  // ----- filter -----

  /** QUIC of the host is rejected on the ports the kernel takes a rule for. */
  predicate QuicRejected(refused: set<Rule>, c: Config, k: Capabilities, f: Family, p: Packet) {
    && Tproxying(c, k, f) && c.quicDisabled && c.proxyUdp && p.proto == Udp
    && ((p.dport == 443 && Rule(Reject, proto := Is(Udp), dport := Port(443)) !in refused)
        || (p.dport == 80 && Rule(Reject, proto := Is(Udp), dport := Port(80)) !in refused))
  }

  /** The core may not connect to a port of its own on the loopback address. */
  predicate LoopRejected(refused: set<Rule>, x: Context, f: Family, port: nat, p: Packet) {
    var home := if f == V4 then Net(0x7f00_0001, 32, 32) else Net(1, 128, 128);
    var r := Rule(Reject, proto := Is(Tcp), dst := Some(home), dport := Port(port));
    && p.proto == Tcp && p.dport == port && InNet(home, p.dst)
    && (if r.(uid := Some(x.boxUid), gid := Some(x.boxGid)) !in refused then p.uid == x.boxUid && p.gid == x.boxGid
        else if r.(uid := Some(x.boxUid)) !in refused then p.uid == x.boxUid
        else r.(gid := Some(x.boxGid)) !in refused && p.gid == x.boxGid)
  }

  predicate RejectedOut(refused: set<Rule>, c: Config, k: Capabilities, x: Context, f: Family, p: Packet) {
    || QuicRejected(refused, c, k, f, p)
    || (Redirecting(c, k, f) && LoopRejected(refused, x, f, c.redirPort, p))
    || (Tproxying(c, k, f) && c.mode != Enhance && LoopRejected(refused, x, f, c.tproxyPort, p))
  }

  /** Forwarding to and from the TUN device is let pass, if the kernel takes the rules. */
  predicate ForwardAccepted(refused: set<Rule>, c: Config, p: Packet) {
    || (Rule(Accept, outIf := Some(c.tunDevice)) !in refused && IfMatches(c.tunDevice, p.outIf))
    || (Rule(Accept, inIf := Some(c.tunDevice)) !in refused && IfMatches(c.tunDevice, p.inIf))
  }
}
