/**
 The fast chain for the host's own traffic: side chains for destinations and apps,
 the DNS rules behind them, and the connection mark that stands for their verdict.
 It is compared with the standard chain on first packets and followed over flows.
 */
module FastLocal {
  import opened Bytes
  import opened Netfilter
  import opened Batching
  import opened RuleConfig
  import opened RuleScripts
  import opened ExternalPolicy
  import opened FastPolicy
  import opened LocalPolicy

  ghost predicate HoldsFastLocal(chains: Chains, c: Config, k: Capabilities, x: Context, f: Family) {
    && TP_OUT_IP in chains
    && TP_OUT_APP in chains
    && (exists taken :: DestChain(chains[TP_OUT_IP], c, k, f, TP_OUT_IP, taken))
    && chains[TP_OUT_APP] == PerfAppRules(c, x, f)
  }

  // ----- one packet -----

  /** What the two side chains accept: bypassed and own destinations, but for DNS
      over UDP, and apps that are not selected.  `dest` is the destination chain. */
  predicate LeftAlone(env: Env, dest: seq<Rule>, c: Config, k: Capabilities, x: Context, f: Family, p: Packet) {
    || (!DnsOverUdp(p) && (Bypassed(env, c, k, f, TP_OUT_IP, p) || OwnAccepted(dest, f, p)))
    || !FastSelected(c, x, p)
  }

  /** What the chain does with any packet, its connection mark included. */
  function FastLocalVerdict(env: Env, dest: seq<Rule>, c: Config, k: Capabilities, x: Context, f: Family, p: Packet): Outcome {
    var q := MarkedIf(FakeIpMarked(c, f, p), p);
    if p.reply && ConntrackEnabled(c, k) then Back(p)
    else if ProtoEnabled(c, p) && ForcedHit(env, c, k, x, f, p) then Back(Marked(p))
    else if ProtoEnabled(c, p) && Opens(p) && LeftAlone(env, dest, c, k, x, f, p) then Accepted(q)
    else if DnsReturned(c, p) then Back(q)
    else
      var r := MarkedIf(DnsMarked(c, p), q);
      var s := if ProtoEnabled(c, p) && Opening(p) then Connmark(r) else r;
      Fell(MarkedIf(ProtoEnabled(c, p) && MarkIs(s.connmark, FWMARK), s))
  }

  lemma ConnmarkMarksMean(env: Env, chains: Chains, d: nat, c: Config, p: Packet)
    ensures Traverse(env, chains, d, ConnmarkMarks(c), p) == Fell(MarkedIf(ProtoEnabled(c, p) && MarkIs(p.connmark, FWMARK), p))
  {
    var q := MarkedIf(TcpInMangle(c) && Matches(env, Connmarked(Tcp), p), p);
    assert Matches(env, Connmarked(Tcp), p) == (p.proto == Tcp && MarkIs(p.connmark, FWMARK));
    assert Matches(env, Connmarked(Udp), q) == (p.proto == Udp && MarkIs(p.connmark, FWMARK));
    hide Matches, MarkRule, SetXmark, MarkIs;
    TraverseAppend(env, chains, d, When(TcpInMangle(c), [MarkRule(FWMARK, Connmarked(Tcp))]),
                   When(c.proxyUdp, [MarkRule(FWMARK, Connmarked(Udp))]), p);
    MarkRuleMeans(env, chains, d, TcpInMangle(c), Connmarked(Tcp), p);
    MarkRuleMeans(env, chains, d, c.proxyUdp, Connmarked(Udp), q);
  }

  /** The side chains, entered by opening packets of enabled protocols. */
  lemma SideChainsMean(env: Env, chains: Chains, d: nat, c: Config, k: Capabilities, x: Context, f: Family, p: Packet)
    requires d > 0 && HoldsFastLocal(chains, c, k, x, f) && AppAgrees(env, c, x, f, p)
    ensures Traverse(env, chains, d, PerfJumps(c, TP_OUT_IP) + PerfJumps(c, TP_OUT_APP), p)
         == if ProtoEnabled(c, p) && Opens(p) && LeftAlone(env, chains[TP_OUT_IP], c, k, x, f, p) then Accepted(p) else Fell(p)
  {
    hide PerfJumps, ProtoEnabled, Bypassed, OwnAccepted, DestChain, FastSelected, AppAgrees, PerfAppRules, DnsOverUdp, Opens;
    var taken :| DestChain(chains[TP_OUT_IP], c, k, f, TP_OUT_IP, taken);
    DestRulesMean(env, chains, d - 1, c, k, f, TP_OUT_IP, chains[TP_OUT_IP], taken, p);
    PerfAppMeans(env, chains, d - 1, c, x, f, p);
    TraverseAppend(env, chains, d, PerfJumps(c, TP_OUT_IP), PerfJumps(c, TP_OUT_APP), p);
    JumpsMean(env, chains, d, c, TP_OUT_IP, p);
    JumpsMean(env, chains, d, c, TP_OUT_APP, p);
  }

  /** None of the questions asked looks at the marks. */
  lemma MarksUnseen(env: Env, dest: seq<Rule>, c: Config, k: Capabilities, x: Context, f: Family, p: Packet, q: Packet)
    requires q == p.(mark := q.mark, connmark := q.connmark)
    ensures LeftAlone(env, dest, c, k, x, f, q) == LeftAlone(env, dest, c, k, x, f, p)
    ensures DnsReturned(c, q) == DnsReturned(c, p) && DnsMarked(c, q) == DnsMarked(c, p) && FakeIpMarked(c, f, q) == FakeIpMarked(c, f, p)
    ensures ProtoEnabled(c, q) == ProtoEnabled(c, p) && ForcedHit(env, c, k, x, f, q) == ForcedHit(env, c, k, x, f, p)
    ensures Opens(q) == Opens(p) && Opening(q) == Opening(p) && AppAgrees(env, c, x, f, q) == AppAgrees(env, c, x, f, p)
  {
    hide InNet;
  }

  lemma MarkedIsMarks(yes: bool, p: Packet)
    ensures var q := MarkedIf(yes, p); q == p.(mark := q.mark, connmark := q.connmark)
    ensures var q := Connmark(p); q == p.(mark := q.mark, connmark := q.connmark)
  {
  }

  /** From the DNS rules on. */
  lemma BehindSideChains(env: Env, chains: Chains, d: nat, c: Config, p: Packet)
    ensures Traverse(env, chains, d, MangleDnsRules(c, ActMark) + ConnmarkSets(c) + ConnmarkMarks(c), p)
         == if DnsReturned(c, p) then Back(p) else
              var r := MarkedIf(DnsMarked(c, p), p);
              var s := if ProtoEnabled(c, p) && Opening(p) then Connmark(r) else r;
              Fell(MarkedIf(ProtoEnabled(c, p) && MarkIs(s.connmark, FWMARK), s))
  {
    hide MangleDnsRules, ConnmarkSets, ConnmarkMarks, DnsReturned, DnsMarked, SetXmark, MarkIs;
    var a, b, e := MangleDnsRules(c, ActMark), ConnmarkSets(c), ConnmarkMarks(c);
    TraverseAppend(env, chains, d, a + b, e, p);
    TraverseAppend(env, chains, d, a, b, p);
    MangleDnsMeans(env, chains, d, c, p);
    var r := MarkedIf(DnsMarked(c, p), p);
    ConnmarkSetsMean(env, chains, d, c, r);
    ConnmarkMarksMean(env, chains, d, c, if ProtoEnabled(c, r) && Opening(r) then Connmark(r) else r);
  }

  lemma FastLocalSplit(c: Config, k: Capabilities, x: Context, f: Family)
    ensures PerfLocalRules(c, k, x, f)
         == ReplyBypass(c, k) + (FakeIp6Rules(c, f, ActMark) + (CnipForceLocalRules(c, k, x, f, LOCAL, ActMark)
            + ((PerfJumps(c, TP_OUT_IP) + PerfJumps(c, TP_OUT_APP)) + (MangleDnsRules(c, ActMark) + ConnmarkSets(c) + ConnmarkMarks(c)))))
  {
    hide ReplyBypass, FakeIp6Rules, CnipForceLocalRules, PerfJumps, MangleDnsRules, ConnmarkSets, ConnmarkMarks;
  }

  lemma SideTailMeans(env: Env, chains: Chains, d: nat, c: Config, k: Capabilities, x: Context, f: Family, p: Packet)
    requires d > 0 && HoldsFastLocal(chains, c, k, x, f) && AppAgrees(env, c, x, f, p)
    ensures var sides := PerfJumps(c, TP_OUT_IP) + PerfJumps(c, TP_OUT_APP);
      var behind := MangleDnsRules(c, ActMark) + ConnmarkSets(c) + ConnmarkMarks(c);
      Traverse(env, chains, d, sides + behind, p)
        == if ProtoEnabled(c, p) && Opens(p) && LeftAlone(env, chains[TP_OUT_IP], c, k, x, f, p) then Accepted(p)
           else Traverse(env, chains, d, behind, p)
  {
    hide PerfJumps, ProtoEnabled, LeftAlone, Opens, AppAgrees, MangleDnsRules, ConnmarkSets, ConnmarkMarks;
    var sides := PerfJumps(c, TP_OUT_IP) + PerfJumps(c, TP_OUT_APP);
    var behind := MangleDnsRules(c, ActMark) + ConnmarkSets(c) + ConnmarkMarks(c);
    TraverseAppend(env, chains, d, sides, behind, p);
    SideChainsMean(env, chains, d, c, k, x, f, p);
  }

  /** The whole fast chain on every packet. */
  lemma FastLocalMeans(env: Env, chains: Chains, d: nat, c: Config, k: Capabilities, x: Context, f: Family, p: Packet)
    requires d > 0 && HoldsFastLocal(chains, c, k, x, f) && AppAgrees(env, c, x, f, p)
    ensures Traverse(env, chains, d, PerfLocalRules(c, k, x, f), p) == FastLocalVerdict(env, chains[TP_OUT_IP], c, k, x, f, p)
  {
    var q := MarkedIf(FakeIpMarked(c, f, p), p);
    var sides := PerfJumps(c, TP_OUT_IP) + PerfJumps(c, TP_OUT_APP);
    var behind := MangleDnsRules(c, ActMark) + ConnmarkSets(c) + ConnmarkMarks(c);
    var force := CnipForceLocalRules(c, k, x, f, LOCAL, ActMark);
    MarkedTwice(p);
    MarkedIsMarks(FakeIpMarked(c, f, p), p);
    assert TP_OUT_IP in chains;
    hide ReplyBypass, FakeIp6Rules, CnipForceLocalRules, PerfJumps, MangleDnsRules, ConnmarkSets, ConnmarkMarks, PerfLocalRules;
    hide FakeIpMarked, ProtoEnabled, ForcedHit, LeftAlone, DnsReturned, DnsMarked, SetXmark, MarkIs, Opens, Opening, AppAgrees, HoldsFastLocal;
    FastLocalSplit(c, k, x, f);
    MarksUnseen(env, chains[TP_OUT_IP], c, k, x, f, p, q);
    TraverseAppend(env, chains, d, ReplyBypass(c, k), FakeIp6Rules(c, f, ActMark) + (force + (sides + behind)), p);
    TraverseAppend(env, chains, d, FakeIp6Rules(c, f, ActMark), force + (sides + behind), p);
    TraverseAppend(env, chains, d, force, sides + behind, q);
    ReplyMeans(env, chains, d, c, k, p);
    FakeIp6Means(env, chains, d, c, f, p);
    CnipForceMeans(env, chains, d, c, k, x, f, q);
    SideTailMeans(env, chains, d, c, k, x, f, q);
    BehindSideChains(env, chains, d, c, q);
  }

  // ----- first packets, compared with the standard chain -----

  /** Whether a first packet leaves the fast chain with the proxy mark. */
  predicate FastLocalMarked(env: Env, dest: seq<Rule>, c: Config, k: Capabilities, x: Context, f: Family, p: Packet) {
    && !(p.reply && ConntrackEnabled(c, k))
    && (FakeIpMarked(c, f, p)
        || (ProtoEnabled(c, p) && (ForcedHit(env, c, k, x, f, p) || (!LeftAlone(env, dest, c, k, x, f, p) && !DnsReturned(c, p)))))
  }

  /** The mark with which a packet leaves a chain that marks or passes it. */
  predicate LeavesWith(o: Outcome, p: Packet, yes: bool) {
    (o.Fell? || o.Back? || o.Accepted?) && o.p.mark == MarkedIf(yes, p).mark
  }

  lemma OnlyEnabledMarked(c: Config, f: Family, p: Packet)
    ensures FakeIpMarked(c, f, p) || DnsMarked(c, p) ==> ProtoEnabled(c, p)
    ensures DnsMarked(c, p) ==> !DnsReturned(c, p)
    ensures ProtoEnabled(c, p) && FirstPacket(p) ==> Opens(p) && Opening(p)
  {
    hide InNet;
  }

  lemma ConnmarkMarked(p: Packet)
    ensures Connmark(Marked(p)) == Marked(Connmark(p)) && Connmark(p).mark == p.mark && Marked(p).connmark == p.connmark
    ensures MarkIs(Connmark(p).connmark, FWMARK)
  {
    ConnmarkBit(p.connmark);
  }

  lemma VerdictLeaves(env: Env, dest: seq<Rule>, c: Config, k: Capabilities, x: Context, f: Family, p: Packet)
    requires FirstPacket(p) && !MarkIs(p.connmark, FWMARK)
    ensures LeavesWith(FastLocalVerdict(env, dest, c, k, x, f, p), p, FastLocalMarked(env, dest, c, k, x, f, p))
  {
    OnlyEnabledMarked(c, f, p);
    MarkedTwice(p);
    ConnmarkMarked(p);
    ConnmarkMarked(Marked(p));
    hide FakeIpMarked, ProtoEnabled, ForcedHit, LeftAlone, DnsReturned, DnsMarked, MarkIs, SetXmark, Opens, Opening, FirstPacket;
    hide ConnmarkSets, Marked, Connmark, ConntrackEnabled;
  }

  lemma FirstLocalMeans(env: Env, chains: Chains, d: nat, c: Config, k: Capabilities, x: Context, f: Family, p: Packet)
    requires d > 0 && HoldsFastLocal(chains, c, k, x, f) && AppAgrees(env, c, x, f, p)
    requires FirstPacket(p) && !MarkIs(p.connmark, FWMARK)
    ensures LeavesWith(Traverse(env, chains, d, PerfLocalRules(c, k, x, f), p), p,
                       FastLocalMarked(env, chains[TP_OUT_IP], c, k, x, f, p))
  {
    hide *;
    FastLocalMeans(env, chains, d, c, k, x, f, p);
    DestPresent(chains, c, k, x, f);
    VerdictLeaves(env, chains[TP_OUT_IP], c, k, x, f, p);
  }

  lemma DestPresent(chains: Chains, c: Config, k: Capabilities, x: Context, f: Family)
    requires HoldsFastLocal(chains, c, k, x, f)
    ensures TP_OUT_IP in chains
  {
  }

  lemma {:induction false} NotContained(s: string, t: string)
    requires forall i :: 0 <= i <= |s| ==> !(t <= s[i..])
    ensures !Contains(s, t)
    decreases |s|
  {
    assert s[0..] == s;
    if s != [] {
      forall i | 0 <= i <= |s[1..]| ensures !(t <= s[1..][i..]) {
        assert s[1..][i..] == s[i + 1..];
      }
      NotContained(s[1..], t);
    }
  }

  lemma NoPrePart(s: string)
    requires forall i :: 0 <= i < |s| - 1 && s[i] == '_' ==> s[i + 1] != 'P'
    ensures !Contains(s, "_PRE_")
  {
    forall i | 0 <= i <= |s| ensures !("_PRE_" <= s[i..]) {
      if i < |s| - 1 {
        assert s[i..][0] == s[i] && s[i..][1] == s[i + 1];
      }
    }
    NotContained(s, "_PRE_");
  }

  lemma NoPreEnd(s: string)
    requires s != [] && s[|s| - 1] != 'E'
    ensures !EndsWith(s, "_PRE")
  {
    if |s| >= 4 {
      assert s[|s| - 4..][3] == s[|s| - 1];
    }
  }

  lemma NoPrerouting(s: string)
    requires s == TP_OUT_IP || s == LOCAL
    ensures !UsesPreroutingProgram(s)
  {
    assert s !in {"BOX_EXTERNAL", "BOX_TUN_BYPASS_PRE", "BOX_TUN_BYPASS6_PRE"} && s[|s| - 1] != 'E';
    assert forall i :: 0 <= i < |s| - 1 && s[i] == '_' ==> s[i + 1] != 'P';
    hide Contains, EndsWith;
    NoPrePart(s);
    NoPreEnd(s);
  }

  /** Whichever copy of the CIDR program, a destination is tested the same way. */
  lemma SameOutProgram(env: Env, c: Config, k: Capabilities, f: Family, p: Packet)
    ensures Bypassed(env, c, k, f, TP_OUT_IP, p) == Bypassed(env, c, k, f, LOCAL, p)
  {
    NoPrerouting(TP_OUT_IP);
    NoPrerouting(LOCAL);
    hide UsesPreroutingProgram;
    assert CnipMatch(c, k, f, TP_OUT_IP) == CnipMatch(c, k, f, LOCAL);
  }

  /**
   Where the two chains part on first packets.  The fast one has its DNS rules
   last: DNS left to others is marked all the same for fake addresses and forced
   apps, and DNS meant for the proxy is not marked where the side chains leave the
   packet alone.  DNS over UDP that no rule is about is bypassed by the standard
   chain only.  Beyond DNS they part on destinations only one of them knows as the
   host's own, and on system IDs only the standard chain selects.
   */
  predicate LocalsDiffer(env: Env, dest: seq<Rule>, refused: set<Rule>, c: Config, k: Capabilities, x: Context, f: Family, p: Packet) {
    var certain := FakeIpMarked(c, f, p) || ForcedHit(env, c, k, x, f, p);
    && !(p.reply && ConntrackEnabled(c, k)) && ProtoEnabled(c, p)
    && if DnsReturned(c, p) then certain
       else if certain then false
       else if DnsMarked(c, p) then LeftAlone(env, dest, c, k, x, f, p)
       else if DnsOverUdp(p) then
         if Bypassed(env, c, k, f, LOCAL, p) then FastSelected(c, x, p) else SystemLeftOut(c, x, p)
       else
         && !Bypassed(env, c, k, f, LOCAL, p)
         && if SystemLeftOut(c, x, p) then !LocalHit(refused, c, f, p)
            else Selected(c, x, p) && OwnAccepted(dest, f, p) != LocalHit(refused, c, f, p)
  }

  lemma HitsNoDns(refused: set<Rule>, c: Config, f: Family, p: Packet)
    ensures LocalHit(refused, c, f, p) ==> !DnsOverUdp(p)
  {
  }

  lemma FirstLocalsCompared(env: Env, dest: seq<Rule>, refused: set<Rule>, c: Config, k: Capabilities, x: Context, f: Family, p: Packet)
    requires FirstPacket(p)
    ensures (FastLocalMarked(env, dest, c, k, x, f, p) != LocalMarked(env, refused, c, k, x, f, p)) == LocalsDiffer(env, dest, refused, c, k, x, f, p)
  {
    OnlyEnabledMarked(c, f, p);
    SameOutProgram(env, c, k, f, p);
    SelectionsCompared(c, x, p);
    HitsNoDns(refused, c, f, p);
    hide FakeIpMarked, ProtoEnabled, ForcedHit, DnsReturned, DnsMarked, Bypassed, LocalHit, Selected, FirstPacket;
    hide FastSelected, SystemLeftOut, DnsOverUdp, OwnAccepted, ConntrackEnabled;
  }

  /** They agree on first packets that are not DNS, to foreign destinations, of apps
      both select or neither does. */
  lemma FastLocalAgrees(env: Env, dest: seq<Rule>, refused: set<Rule>, c: Config, k: Capabilities, x: Context, f: Family, p: Packet)
    requires FirstPacket(p) && p.dport != 53 && !OwnDestination(f, p) && !InAny(LocalCidrs(c, f), p.dst)
    requires FastSelected(c, x, p) == Selected(c, x, p)
    ensures FastLocalMarked(env, dest, c, k, x, f, p) == LocalMarked(env, refused, c, k, x, f, p)
  {
    FirstLocalsCompared(env, dest, refused, c, k, x, f, p);
    LocalHitUnrefused(refused, c, f, p);
    SelectionsCompared(c, x, p);
    assert !DnsReturned(c, p) && !DnsMarked(c, p) && !DnsOverUdp(p) && !OwnAccepted(dest, f, p);
    hide LocalHit, SystemLeftOut, FakeIpMarked, ProtoEnabled, ForcedHit, Bypassed, InAny, InNet, FirstPacket, Selected, FastSelected;
  }

  /** Settings under which DNS over UDP goes to the proxy but for one blacklisted UID. */
  predicate BlacklistsDns(c: Config, x: Context, uid: nat) {
    && c.proxyMode == Blacklist && uid in x.uids
    && c.dnsMode == DnsTproxy && !c.dnsForward && c.dnsUdp && c.proxyUdp && !c.bypassCn
  }

  lemma BlacklistedDns(env: Env, dest: seq<Rule>, c: Config, k: Capabilities, x: Context, p: Packet)
    requires BlacklistsDns(c, x, p.uid) && p.proto == Udp && p.dport == 53
    ensures !FakeIpMarked(c, V4, p) && !ForcedHit(env, c, k, x, V4, p) && DnsMarked(c, p) && !DnsReturned(c, p)
    ensures ProtoEnabled(c, p) && LeftAlone(env, dest, c, k, x, V4, p)
  {
    assert !FastSelected(c, x, p);
    hide Bypassed, OwnAccepted;
  }

  /** DNS over UDP of a blacklisted app, where DNS goes to the proxy: marked by the
      standard chain only. */
  lemma BlacklistedDnsDiffers(env: Env, dest: seq<Rule>, refused: set<Rule>, c: Config, k: Capabilities, x: Context, p: Packet)
    requires BlacklistsDns(c, x, p.uid) && p.proto == Udp && p.dport == 53 && p.state == New && !p.reply
    ensures LocalMarked(env, refused, c, k, x, V4, p) && !FastLocalMarked(env, dest, c, k, x, V4, p)
  {
    FirstLocalsCompared(env, dest, refused, c, k, x, V4, p);
    BlacklistedDns(env, dest, c, k, x, p);
    hide FakeIpMarked, ForcedHit, LeftAlone, DnsReturned, DnsMarked, ProtoEnabled, Bypassed;
  }

  // ----- runs of a flow -----

  /** A packet of the original direction of a flow of the host. */
  predicate InFlow(first: Packet, p: Packet) {
    SameFlow(first, p) && p.gid == first.gid && (p.proto == Tcp && Opening(p) ==> p.syn)
  }

  /** Packets of one flow of the host. */
  predicate OneLocalFlow(first: Packet, packets: seq<Packet>) {
    forall p :: p in packets && !p.reply ==> InFlow(first, p)
  }

  /** What is asked about a packet has one answer for the whole flow. */
  lemma LocalFlowAlike(env: Env, dest: seq<Rule>, c: Config, k: Capabilities, x: Context, f: Family, p: Packet, q: Packet)
    requires SameFlow(p, q) && p.gid == q.gid
    ensures LeftAlone(env, dest, c, k, x, f, q) == LeftAlone(env, dest, c, k, x, f, p)
    ensures DnsReturned(c, q) == DnsReturned(c, p) && DnsMarked(c, q) == DnsMarked(c, p) && FakeIpMarked(c, f, q) == FakeIpMarked(c, f, p)
    ensures ProtoEnabled(c, q) == ProtoEnabled(c, p) && ForcedHit(env, c, k, x, f, q) == ForcedHit(env, c, k, x, f, p)
    ensures AppAgrees(env, c, x, f, q) == AppAgrees(env, c, x, f, p)
  {
    hide InNet;
  }

  /** The connection mark stands for the side chains' verdict on the first packet. */
  predicate LocalCarries(env: Env, dest: seq<Rule>, c: Config, k: Capabilities, x: Context, f: Family, first: Packet, m: bv32) {
    ProtoEnabled(c, first) && !ForcedHit(env, c, k, x, f, first) ==>
      (MarkIs(m, FWMARK) <==> !LeftAlone(env, dest, c, k, x, f, first) && !DnsReturned(c, first))
  }

  /** Whether a packet of the flow is marked: as the first one, or by the DNS rules,
      which packets that do not open the flow meet past the side chains. */
  predicate FlowMarked(env: Env, dest: seq<Rule>, c: Config, k: Capabilities, x: Context, f: Family, first: Packet, p: Packet) {
    !p.reply && (FastLocalMarked(env, dest, c, k, x, f, first) || (DnsMarked(c, first) && !Opens(p)))
  }

  lemma OpeningIsOpens(c: Config, p: Packet)
    requires p.proto == Tcp && Opening(p) ==> p.syn
    ensures ProtoEnabled(c, p) && Opening(p) ==> Opens(p)
    ensures p.proto == Udp ==> Opens(p) == Opening(p)
  {
  }

  /** A packet that gets past the side chains, the DNS rules and the forced apps. */
  predicate Through(env: Env, dest: seq<Rule>, c: Config, k: Capabilities, x: Context, f: Family, p: Packet) {
    && !(p.reply && ConntrackEnabled(c, k)) && !(ProtoEnabled(c, p) && ForcedHit(env, c, k, x, f, p))
    && !(ProtoEnabled(c, p) && Opens(p) && LeftAlone(env, dest, c, k, x, f, p)) && !DnsReturned(c, p)
  }

  lemma VerdictShape(env: Env, dest: seq<Rule>, c: Config, k: Capabilities, x: Context, f: Family, p: Packet)
    ensures var o, enabled := FastLocalVerdict(env, dest, c, k, x, f, p), ProtoEnabled(c, p);
      && LeavesWith(o, p, !(p.reply && ConntrackEnabled(c, k))
                          && (FakeIpMarked(c, f, p) || (enabled && ForcedHit(env, c, k, x, f, p))
                              || (Through(env, dest, c, k, x, f, p)
                                  && (DnsMarked(c, p) || (enabled && (Opening(p) || MarkIs(p.connmark, FWMARK)))))))
      && MarkAfter(o, p.connmark)
           == if Through(env, dest, c, k, x, f, p) && enabled && Opening(p) then Connmark(p).connmark else p.connmark
  {
    MarkedTwice(p);
    ConnmarkMarked(p);
    ConnmarkMarked(Marked(p));
    hide FakeIpMarked, ProtoEnabled, ForcedHit, LeftAlone, DnsReturned, DnsMarked, MarkIs, SetXmark, Opens, Opening, ConntrackEnabled;
  }

  /** The connection mark, carried over or set again, stands for the side chains. */
  lemma MarkLogic(fake: bool, dns: bool, returned: bool, enabled: bool, forced: bool, left: bool, opens: bool, opening: bool, carried: bool)
    requires (fake || dns ==> enabled) && (dns ==> !returned) && (enabled && opening ==> opens)
    requires (opening && opens && !carried) || (enabled && !forced ==> (carried <==> !left && !returned))
      || (!enabled && !carried)
    ensures var through := !(enabled && forced) && !(enabled && opens && left) && !returned;
      && (fake || (enabled && forced) || (through && (dns || (enabled && (opening || carried)))))
           == (fake || (enabled && (forced || (!left && !returned))) || (dns && !opens))
      && (enabled && !forced ==> ((through && enabled && opening) || carried <==> !left && !returned))
  {
  }

  lemma FlowFacts(env: Env, dest: seq<Rule>, c: Config, k: Capabilities, x: Context, f: Family, first: Packet, p: Packet)
    requires !first.reply && InFlow(first, p)
    requires (FirstPacket(p) && !MarkIs(p.connmark, FWMARK)) || LocalCarries(env, dest, c, k, x, f, first, p.connmark)
    ensures var fake, dns, returned, enabled := FakeIpMarked(c, f, p), DnsMarked(c, p), DnsReturned(c, p), ProtoEnabled(c, p);
      var forced, left, carried := ForcedHit(env, c, k, x, f, p), LeftAlone(env, dest, c, k, x, f, p), MarkIs(p.connmark, FWMARK);
      && !p.reply && (fake || dns ==> enabled) && (dns ==> !returned) && (enabled && Opening(p) ==> Opens(p))
      && ((Opening(p) && Opens(p) && !carried) || (enabled && !forced ==> (carried <==> !left && !returned)) || (!enabled && !carried))
  {
    LocalFlowAlike(env, dest, c, k, x, f, first, p);
    OnlyEnabledMarked(c, f, p);
    OpeningIsOpens(c, p);
    assert FirstPacket(p) ==> Opening(p);
    hide FakeIpMarked, ProtoEnabled, ForcedHit, LeftAlone, DnsReturned, DnsMarked, MarkIs, Opens, Opening, FirstPacket;
  }

  lemma FlowMeans(env: Env, dest: seq<Rule>, c: Config, k: Capabilities, x: Context, f: Family, first: Packet, p: Packet)
    requires !first.reply && !p.reply && InFlow(first, p)
    ensures FlowMarked(env, dest, c, k, x, f, first, p)
         == (FakeIpMarked(c, f, p)
             || (ProtoEnabled(c, p) && (ForcedHit(env, c, k, x, f, p) || (!LeftAlone(env, dest, c, k, x, f, p) && !DnsReturned(c, p))))
             || (DnsMarked(c, p) && !Opens(p)))
    ensures forall m ::
      (LocalCarries(env, dest, c, k, x, f, first, m)
         == (ProtoEnabled(c, p) && !ForcedHit(env, c, k, x, f, p) ==>
              (MarkIs(m, FWMARK) <==> !LeftAlone(env, dest, c, k, x, f, p) && !DnsReturned(c, p))))
  {
    LocalFlowAlike(env, dest, c, k, x, f, first, p);
    hide FakeIpMarked, ProtoEnabled, ForcedHit, LeftAlone, DnsReturned, DnsMarked, MarkIs, Opens, Opening;
  }

  lemma VerdictMarks(env: Env, dest: seq<Rule>, c: Config, k: Capabilities, x: Context, f: Family, first: Packet, p: Packet)
    requires !first.reply && InFlow(first, p)
    requires (FirstPacket(p) && !MarkIs(p.connmark, FWMARK)) || LocalCarries(env, dest, c, k, x, f, first, p.connmark)
    ensures var o := FastLocalVerdict(env, dest, c, k, x, f, p);
      LeavesWith(o, p, FlowMarked(env, dest, c, k, x, f, first, p)) && LocalCarries(env, dest, c, k, x, f, first, MarkAfter(o, p.connmark))
  {
    hide *;
    FlowFacts(env, dest, c, k, x, f, first, p);
    FlowMeans(env, dest, c, k, x, f, first, p);
    ConnmarkMarked(p);
    VerdictThrough(env, dest, c, k, x, f, p);
    MarkLogic(FakeIpMarked(c, f, p), DnsMarked(c, p), DnsReturned(c, p), ProtoEnabled(c, p), ForcedHit(env, c, k, x, f, p),
              LeftAlone(env, dest, c, k, x, f, p), Opens(p), Opening(p), MarkIs(p.connmark, FWMARK));
  }

  /** The shape of the verdict on packets of the original direction. */
  lemma VerdictThrough(env: Env, dest: seq<Rule>, c: Config, k: Capabilities, x: Context, f: Family, p: Packet)
    requires !p.reply
    ensures var o, enabled, forced := FastLocalVerdict(env, dest, c, k, x, f, p), ProtoEnabled(c, p), ForcedHit(env, c, k, x, f, p);
      var through := !(enabled && forced) && !(enabled && Opens(p) && LeftAlone(env, dest, c, k, x, f, p)) && !DnsReturned(c, p);
      && LeavesWith(o, p, FakeIpMarked(c, f, p) || (enabled && forced)
                          || (through && (DnsMarked(c, p) || (enabled && (Opening(p) || MarkIs(p.connmark, FWMARK))))))
      && MarkAfter(o, p.connmark) == if through && enabled && Opening(p) then Connmark(p).connmark else p.connmark
  {
    VerdictShape(env, dest, c, k, x, f, p);
    hide FastLocalVerdict, FakeIpMarked, ProtoEnabled, ForcedHit, LeftAlone, DnsReturned, DnsMarked, MarkIs, Opens, Opening;
    hide ConntrackEnabled, Connmark, LeavesWith, MarkAfter;
  }

  lemma LocalFlowStep(env: Env, chains: Chains, d: nat, c: Config, k: Capabilities, x: Context, f: Family, first: Packet, p: Packet)
    requires d > 0 && HoldsFastLocal(chains, c, k, x, f) && AppAgrees(env, c, x, f, first) && !first.reply
    requires InFlow(first, p)
    requires (FirstPacket(p) && !MarkIs(p.connmark, FWMARK)) || LocalCarries(env, chains[TP_OUT_IP], c, k, x, f, first, p.connmark)
    ensures var o := Traverse(env, chains, d, PerfLocalRules(c, k, x, f), p);
      && LeavesWith(o, p, FlowMarked(env, chains[TP_OUT_IP], c, k, x, f, first, p))
      && LocalCarries(env, chains[TP_OUT_IP], c, k, x, f, first, MarkAfter(o, p.connmark))
  {
    assert TP_OUT_IP in chains && SameFlow(first, p) && p.gid == first.gid;
    hide *;
    LocalFlowAlike(env, chains[TP_OUT_IP], c, k, x, f, first, p);
    FastLocalMeans(env, chains, d, c, k, x, f, p);
    VerdictMarks(env, chains[TP_OUT_IP], c, k, x, f, first, p);
  }

  lemma LocalReplyPasses(env: Env, chains: Chains, d: nat, c: Config, k: Capabilities, x: Context, f: Family, p: Packet)
    requires PerformanceChain(c, k) && p.reply
    ensures Traverse(env, chains, d, PerfLocalRules(c, k, x, f), p) == Back(p)
  {
    FastLocalSplit(c, k, x, f);
    hide FakeIp6Rules, CnipForceLocalRules, PerfJumps, MangleDnsRules, ConnmarkSets, ConnmarkMarks, PerfLocalRules;
    TraverseAppend(env, chains, d, ReplyBypass(c, k), FakeIp6Rules(c, f, ActMark) + (CnipForceLocalRules(c, k, x, f, LOCAL, ActMark)
      + ((PerfJumps(c, TP_OUT_IP) + PerfJumps(c, TP_OUT_APP)) + (MangleDnsRules(c, ActMark) + ConnmarkSets(c) + ConnmarkMarks(c)))), p);
    ReplyMeans(env, chains, d, c, k, p);
  }

  lemma LocalStep(env: Env, chains: Chains, d: nat, c: Config, k: Capabilities, x: Context, f: Family,
                  first: Packet, q: Packet, m: bv32)
    requires PerformanceChain(c, k) && d > 0 && HoldsFastLocal(chains, c, k, x, f) && AppAgrees(env, c, x, f, first) && !first.reply
    requires !q.reply ==> InFlow(first, q)
    requires (!q.reply && FirstPacket(q) && !MarkIs(m, FWMARK)) || LocalCarries(env, chains[TP_OUT_IP], c, k, x, f, first, m)
    ensures var o := Traverse(env, chains, d, PerfLocalRules(c, k, x, f), q.(connmark := m));
      && LeavesWith(o, q, FlowMarked(env, chains[TP_OUT_IP], c, k, x, f, first, q))
      && LocalCarries(env, chains[TP_OUT_IP], c, k, x, f, first, MarkAfter(o, m))
  {
    var p := q.(connmark := m);
    WithConnmark(env, chains[TP_OUT_IP], c, k, x, f, first, q, m);
    hide *;
    if q.reply {
      LocalReplyPasses(env, chains, d, c, k, x, f, p);
      ReplyUnmarked(env, chains[TP_OUT_IP], c, k, x, f, first, p);
    } else {
      LocalFlowStep(env, chains, d, c, k, x, f, first, p);
    }
  }

  /** Nothing that is said of a packet of a flow depends on its connection mark. */
  lemma WithConnmark(env: Env, dest: seq<Rule>, c: Config, k: Capabilities, x: Context, f: Family, first: Packet, q: Packet, m: bv32)
    ensures var p := q.(connmark := m);
      && FirstPacket(p) == FirstPacket(q) && InFlow(first, p) == InFlow(first, q)
      && FlowMarked(env, dest, c, k, x, f, first, p) == FlowMarked(env, dest, c, k, x, f, first, q)
      && (forall o, yes :: LeavesWith(o, p, yes) == LeavesWith(o, q, yes))
  {
    hide FastLocalMarked, DnsMarked, SetXmark;
  }

  lemma ReplyUnmarked(env: Env, dest: seq<Rule>, c: Config, k: Capabilities, x: Context, f: Family, first: Packet, p: Packet)
    requires p.reply
    ensures LeavesWith(Back(p), p, FlowMarked(env, dest, c, k, x, f, first, p)) && MarkAfter(Back(p), p.connmark) == p.connmark
  {
    hide FastLocalMarked, DnsMarked;
  }

  /**
   A flow of the host that starts unmarked: every packet of its original direction
   is marked like the first one, except that where DNS goes to the proxy later
   packets are marked even if the side chains left the first one alone.
   */
  lemma {:induction false} LocalFlowExactly(env: Env, chains: Chains, d: nat, c: Config, k: Capabilities, x: Context, f: Family,
                                            first: Packet, packets: seq<Packet>, m: bv32)
    requires PerformanceChain(c, k) && d > 0 && HoldsFastLocal(chains, c, k, x, f) && AppAgrees(env, c, x, f, first) && !first.reply
    requires OneLocalFlow(first, packets)
    requires (packets != [] && packets[0] == first && FirstPacket(first) && !MarkIs(m, FWMARK))
          || LocalCarries(env, chains[TP_OUT_IP], c, k, x, f, first, m)
    ensures var run := FlowRun(env, chains, d, PerfLocalRules(c, k, x, f), packets, m);
      forall i :: 0 <= i < |packets| ==>
        LeavesWith(run[i], packets[i], FlowMarked(env, chains[TP_OUT_IP], c, k, x, f, first, packets[i]))
    decreases |packets|
  {
    if packets != [] {
      assert packets[0] in packets;
      assert TP_OUT_IP in chains;
      var rules := PerfLocalRules(c, k, x, f);
      var o := Traverse(env, chains, d, rules, packets[0].(connmark := m));
      LocalStep(env, chains, d, c, k, x, f, first, packets[0], m);
      LocalTail(first, packets);
      hide *;
      LocalFlowExactly(env, chains, d, c, k, x, f, first, packets[1..], MarkAfter(o, m));
      FlowIndex(env, chains, d, rules, packets, m);
    }
  }

  lemma LocalTail(first: Packet, packets: seq<Packet>)
    requires OneLocalFlow(first, packets) && packets != []
    ensures OneLocalFlow(first, packets[1..])
  {
    assert forall q :: q in packets[1..] ==> q in packets;
  }

  /** So the verdict on a flow can change exactly where DNS meant for the proxy is
      left alone by the side chains: its first packet is not marked, one that does
      not open the flow is. */
  lemma LocalFlowWavers(env: Env, dest: seq<Rule>, c: Config, k: Capabilities, x: Context, f: Family, first: Packet, p: Packet)
    requires FirstPacket(first) && !first.reply && !p.reply && !Opens(p)
    ensures FlowMarked(env, dest, c, k, x, f, first, p) != FlowMarked(env, dest, c, k, x, f, first, first)
      <==> DnsMarked(c, first) && LeftAlone(env, dest, c, k, x, f, first)
           && !FakeIpMarked(c, f, first) && !ForcedHit(env, c, k, x, f, first)
  {
    OnlyEnabledMarked(c, f, first);
    hide FakeIpMarked, ProtoEnabled, ForcedHit, LeftAlone, DnsReturned, DnsMarked, FirstPacket, Opens;
  }

  /** Such a UID's DNS flow: its first query stays unmarked, the next one, on the
      established connection, is marked. */
  lemma BlacklistedFlowWavers(env: Env, chains: Chains, d: nat, c: Config, k: Capabilities, x: Context, first: Packet, m: bv32)
    requires PerformanceChain(c, k) && d > 0 && HoldsFastLocal(chains, c, k, x, V4) && AppAgrees(env, c, x, V4, first)
    requires BlacklistsDns(c, x, first.uid) && !MarkIs(m, FWMARK)
    requires first.proto == Udp && first.dport == 53 && first.state == New && !first.reply
    ensures var next := first.(state := Established);
      var run := FlowRun(env, chains, d, PerfLocalRules(c, k, x, V4), [first, next], m);
      LeavesWith(run[0], first, false) && LeavesWith(run[1], next, true)
  {
    var next := first.(state := Established);
    var packets := [first, next];
    assert TP_OUT_IP in chains && FirstPacket(first) && !Opens(next);
    assert OneLocalFlow(first, packets) && packets[0] == first && packets[1] == next;
    BlacklistedDns(env, chains[TP_OUT_IP], c, k, x, first);
    LocalFlowWavers(env, chains[TP_OUT_IP], c, k, x, V4, first, next);
    hide *;
    LocalFlowExactly(env, chains, d, c, k, x, V4, first, packets, m);
    FlowUnmarked(env, chains[TP_OUT_IP], c, k, x, V4, first);
  }

  lemma FlowUnmarked(env: Env, dest: seq<Rule>, c: Config, k: Capabilities, x: Context, f: Family, first: Packet)
    requires LeftAlone(env, dest, c, k, x, f, first) && !FakeIpMarked(c, f, first) && !ForcedHit(env, c, k, x, f, first)
    requires FirstPacket(first) && DnsMarked(c, first)
    ensures !FlowMarked(env, dest, c, k, x, f, first, first)
  {
    OnlyEnabledMarked(c, f, first);
    hide FakeIpMarked, ProtoEnabled, ForcedHit, LeftAlone, DnsReturned, DnsMarked, FirstPacket, Opens;
  }
}
