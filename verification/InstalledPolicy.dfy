/**
 From the commands to the packets: after a mode's setup has run on any tables,
 without the kernel turning a command of the compiler's own chains down, packets
 that enter those chains are treated by the stated policies.
 */
module InstalledPolicy {
  import opened Bytes
  import opened Netfilter
  import opened Batching
  import opened RuleConfig
  import opened RuleScripts
  import opened ChainContents
  import opened ExternalPolicy
  import opened FastPolicy
  import opened FastLocal
  import opened LocalPolicy
  import opened TunPolicy
  import opened TeardownModes
  import opened SetupContents

  // ----- modes -----

  predicate TproxyMode(c: Config) { c.mode == TproxyOnly || c.mode == Enhance }

  predicate RedirectMode(c: Config) { c.mode == RedirectOnly || c.mode == Mixed || c.mode == Enhance }

  lemma StartRedirectAside(c: Config, k: Capabilities, x: Context, f: Family, d: string)
    ensures Aside(StartRedirect(c, k, x, f), f, Mangle, d)
  {
    hide DnsNatSetup, ReplyBypass, ExternalBody, RedirectLocalRules, CoreBypassVariants, LoopbackRejects;
    DnsAsideMangle(c, k, x, f, d);
    RedirectExternalAside(c, k, x, f, d);
    RedirectLocalAside(c, k, x, f, d);
  }

  lemma RedirectExternalAside(c: Config, k: Capabilities, x: Context, f: Family, d: string)
    ensures Aside(RedirectExternalSetup(c, k, x, f), f, Mangle, d)
  {
    hide DnsNatSetup, ReplyBypass, ExternalBody;
    DnsAsideMangle(c, k, x, f, d);
  }

  lemma RedirectLocalAside(c: Config, k: Capabilities, x: Context, f: Family, d: string)
    ensures Aside(RedirectLocalSetup(c, k, x, f), f, Mangle, d)
  {
    hide RedirectLocalRules, CoreBypassVariants;
  }

  /** In both modes a chain of the mangle table ends up as the TPROXY start makes it. */
  lemma TproxyModeMade(refused: set<Rule>, c: Config, k: Capabilities, x: Context, f: Family, d: string,
                       h: Option<seq<Rule>>, made: Option<seq<Rule>>)
    requires TproxyMode(c) && Makes(refused, StartTproxy(c, k, x, f), f, Mangle, d, h, made)
    ensures Makes(refused, ModeSetup(c, k, x, f), f, Mangle, d, h, made)
  {
    hide Makes, Aside, StartTproxy, StartRedirect;
    StartRedirectAside(c, k, x, f, d);
    AsideThen(refused, StartRedirect(c, k, x, f), StartTproxy(c, k, x, f), f, Mangle, d, h, made);
  }

  // ----- TPROXY, standard chains -----

  lemma StandardInstalled(refused: set<Rule>, w: World, c: Config, k: Capabilities, x: Context, f: Family)
    requires TproxyMode(c) && TproxySupported(k, f) && !PerformanceChain(c, k)
    requires Ran(refused, w, f, Mangle, ModeSetup(c, k, x, f))
    ensures var chains := ChainsAfter(refused, w, f, Mangle, ModeSetup(c, k, x, f));
      && HoldsLocal(chains, refused, c, f)
      && EXTERNAL in chains && chains[EXTERNAL] == TproxyExternalRules(c, k, f)
      && LOCAL in chains && chains[LOCAL] == CoreRules(refused, x) + TproxyLocalRules(c, k, x, f)
  {
    assert IsBoxCustomChain(EXTERNAL) && IsBoxCustomChain(LOCAL) && IsBoxCustomChain(LocalIpChain(f));
    hide Makes, Ran, ModeSetup, StartTproxy, TproxyExternalSetup, TproxyLocalSetup, IsBoxCustomChain, CoreRules;
    hide TproxyExternalRules, TproxyLocalRules, LocalIpChain, AcceptPairs, Kept, ChainsAfter, PerformanceChain;
    var steps := ModeSetup(c, k, x, f);
    var h := Holding(w, f, Mangle, EXTERNAL);
    StandardExternalMade(refused, c, k, f, h);
    ExternalSideMade(refused, c, k, x, f, EXTERNAL, h, Some(TproxyExternalRules(c, k, f)));
    TproxyModeMade(refused, c, k, x, f, EXTERNAL, h, Some(TproxyExternalRules(c, k, f)));
    ChainMade(refused, w, f, Mangle, steps, EXTERNAL, TproxyExternalRules(c, k, f));
    var i := Holding(w, f, Mangle, LocalIpChain(f));
    var pairs := LocalRules(refused, c, f);
    StandardLocalIpMade(refused, c, k, f, i);
    ExternalSideMade(refused, c, k, x, f, LocalIpChain(f), i, Some(pairs));
    TproxyModeMade(refused, c, k, x, f, LocalIpChain(f), i, Some(pairs));
    ChainMade(refused, w, f, Mangle, steps, LocalIpChain(f), pairs);
    var j := Holding(w, f, Mangle, LOCAL);
    var local := CoreRules(refused, x) + TproxyLocalRules(c, k, x, f);
    StandardLocalMade(refused, c, k, x, f, j);
    LocalSideMade(refused, c, k, x, f, LOCAL, j, Some(local));
    TproxyModeMade(refused, c, k, x, f, LOCAL, j, Some(local));
    ChainMade(refused, w, f, Mangle, steps, LOCAL, local);
  }

  /** The core's own packets, as the installed bypass recognises them. */
  predicate CoreOwned(env: Env, refused: set<Rule>, x: Context, p: Packet) {
    exists r | r in CoreRules(refused, x) :: Matches(env, r, p)
  }

  lemma CoreReturns(env: Env, chains: Chains, d: nat, refused: set<Rule>, x: Context, p: Packet)
    ensures Traverse(env, chains, d, CoreRules(refused, x), p) == if CoreOwned(env, refused, x, p) then Back(p) else Fell(p)
  {
    assert forall r :: r in CoreRules(refused, x) ==> r.target == Return by {
      var fallback := Rule(Return, mark := Some(FWMARK));
      assert forall r :: r in CoreBypassVariants(x) ==> r.target == Return;
      assert forall r :: r in CoreRules(refused, x) ==> r in CoreBypassVariants(x) || r == fallback;
    }
    TraverseReturns(env, chains, d, CoreRules(refused, x), p);
  }

  /** A packet that enters the installed chains is dispatched, or marked, exactly by policy. */
  lemma StandardTproxyPolicy(refused: set<Rule>, w: World, c: Config, k: Capabilities, x: Context, f: Family,
                             env: Env, d: nat, p: Packet)
    requires TproxyMode(c) && TproxySupported(k, f) && !PerformanceChain(c, k)
    requires Ran(refused, w, f, Mangle, ModeSetup(c, k, x, f)) && d > 0 && AppAgrees(env, c, x, f, p)
    ensures var chains := ChainsAfter(refused, w, f, Mangle, ModeSetup(c, k, x, f));
      && EXTERNAL in chains && LOCAL in chains
      && Traverse(env, chains, d, chains[EXTERNAL], p).Tproxied?
         == (Prefix(env, chains, d, c, k, f, p).Tproxied?
             || (Prefix(env, chains, d, c, k, f, p).Fell? && StandardPolicy(env, refused, c, k, f, ActTproxy, p)))
      && LeavesMarked(Traverse(env, chains, d, chains[LOCAL], p), p,
                      !CoreOwned(env, refused, x, p) && LocalMarked(env, refused, c, k, x, f, p))
  {
    hide Ran, ModeSetup, CoreRules, TproxyLocalRules, ChainsAfter, PerformanceChain, AppAgrees, LocalMarked, HoldsLocal;
    hide StandardPolicy, Prefix;
    var chains := ChainsAfter(refused, w, f, Mangle, ModeSetup(c, k, x, f));
    StandardInstalled(refused, w, c, k, x, f);
    StandardMeans(env, chains, d, refused, c, k, f, p);
    TraverseAppend(env, chains, d, CoreRules(refused, x), TproxyLocalRules(c, k, x, f), p);
    CoreReturns(env, chains, d, refused, x, p);
    LocalChainMeans(env, chains, d, refused, c, k, x, f, p);
  }

  // ----- TPROXY, fast chains -----

  lemma SideInstalled(refused: set<Rule>, w: World, c: Config, k: Capabilities, x: Context, f: Family, d: string, rules: seq<Rule>)
    requires TproxyMode(c) && Ran(refused, w, f, Mangle, ModeSetup(c, k, x, f)) && IsBoxCustomChain(d)
    requires Makes(refused, StartTproxy(c, k, x, f), f, Mangle, d, Holding(w, f, Mangle, d), Some(rules))
    ensures var chains := ChainsAfter(refused, w, f, Mangle, ModeSetup(c, k, x, f)); d in chains && chains[d] == rules
  {
    hide *;
    TproxyModeMade(refused, c, k, x, f, d, Holding(w, f, Mangle, d), Some(rules));
    ChainMade(refused, w, f, Mangle, ModeSetup(c, k, x, f), d, rules);
  }

  lemma FastInstalled(refused: set<Rule>, w: World, c: Config, k: Capabilities, x: Context, f: Family)
    requires TproxyMode(c) && TproxySupported(k, f) && PerformanceChain(c, k)
    requires Ran(refused, w, f, Mangle, ModeSetup(c, k, x, f))
    ensures var chains := ChainsAfter(refused, w, f, Mangle, ModeSetup(c, k, x, f));
      HoldsFast(chains, c, k, f) && EXTERNAL in chains && chains[EXTERNAL] == PerfExternalRules(c, k, f)
  {
    var h, i, j := Holding(w, f, Mangle, EXTERNAL), Holding(w, f, Mangle, TP_PRE_IP), Holding(w, f, Mangle, TP_PRE_IF);
    PreNames();
    hide Makes, Ran, ModeSetup, StartTproxy, TproxyExternalSetup, IsBoxCustomChain, TproxyMode, TproxySupported;
    hide PerfExternalRules, DestRules, PerfIfRules, ChainsAfter, PerformanceChain, DestChain;
    FastExternalMade(refused, c, k, f, h);
    ExternalSideMade(refused, c, k, x, f, EXTERNAL, h, Some(PerfExternalRules(c, k, f)));
    SideInstalled(refused, w, c, k, x, f, EXTERNAL, PerfExternalRules(c, k, f));
    FastDestMade(refused, c, k, f, i);
    ExternalSideMade(refused, c, k, x, f, TP_PRE_IP, i, Some(DestRules(refused, c, k, f, TP_PRE_IP)));
    SideInstalled(refused, w, c, k, x, f, TP_PRE_IP, DestRules(refused, c, k, f, TP_PRE_IP));
    FastIfMade(refused, c, k, f, j);
    ExternalSideMade(refused, c, k, x, f, TP_PRE_IF, j, Some(PerfIfRules(c)));
    SideInstalled(refused, w, c, k, x, f, TP_PRE_IF, PerfIfRules(c));
    DestIs(refused, c, k, f, TP_PRE_IP);
  }

  lemma PreNames()
    ensures IsBoxCustomChain(EXTERNAL) && IsBoxCustomChain(TP_PRE_IP) && IsBoxCustomChain(TP_PRE_IF)
  {
  }

  lemma DivertMade(refused: set<Rule>, c: Config, k: Capabilities, f: Family, h: Option<seq<Rule>>)
    requires Diverts(c, k)
    ensures Makes(refused, DivertSetup(c, k, f), f, Mangle, DIVERT, h, Some([Rule(SetMark(FWMARK)), Rule(Accept)]))
  {
    var rules := [Rule(SetMark(FWMARK)), Rule(Accept)];
    var jump := One(f, Mangle, EnsureInsert("PREROUTING", DivertJump()));
    OneAside(f, Mangle, EnsureInsert("PREROUTING", DivertJump()), Mangle, DIVERT);
    hide Makes, Aside, PerformanceChain, Appends;
    MadeOf(refused, f, Mangle, DIVERT, rules, h);
    ThenAside(refused, One(f, Mangle, EnsureChain(DIVERT)) + Appends(f, Mangle, DIVERT, rules), jump, f, Mangle, DIVERT, h, Some(rules));
  }

  lemma DestBesideDivert(c: Config, k: Capabilities, f: Family)
    ensures Aside(PerfDestSetup(c, k, f, TP_PRE_IP), f, Mangle, DIVERT) && Aside(PerfDestSetup(c, k, f, TP_OUT_IP), f, Mangle, DIVERT)
  {
    hide PerfBypassRules, PerfAddrtypeRules, PerfLoopbackRules;
  }

  lemma ExternalBesideDivert(c: Config, k: Capabilities, f: Family)
    ensures Aside(TproxyExternalSetup(c, k, f), f, Mangle, DIVERT)
  {
    hide PerfIfRules, PerfExternalRules, ExternalPrefix, ExternalBody, AcceptPairs, PerformanceChain;
    DestBesideDivert(c, k, f);
    hide PerfDestSetup;
  }

  lemma LocalBesideDivert(c: Config, k: Capabilities, x: Context, f: Family)
    ensures Aside(TproxyLocalSetup(c, k, x, f), f, Mangle, DIVERT)
  {
    hide PerfAppRules, PerfLocalRules, TproxyLocalRules, CoreBypassVariants, PerformanceChain;
    DestBesideDivert(c, k, f);
    hide PerfDestSetup;
  }

  lemma BesideDivert(c: Config, k: Capabilities, x: Context, f: Family)
    ensures Aside(TproxyExternalSetup(c, k, f), f, Mangle, DIVERT) && Aside(TproxyLocalSetup(c, k, x, f), f, Mangle, DIVERT)
  {
    hide *;
    ExternalBesideDivert(c, k, f);
    LocalBesideDivert(c, k, x, f);
  }

  /** What a TPROXY start issues behind its divert chain. */
  function BehindDivert(c: Config, k: Capabilities, x: Context, f: Family): seq<Step> {
    QuicSetup(c, f) + (if c.mode != Enhance then LoopbackRejectSetup(x, f, c.tproxyPort) else [])
      + DnsNatSetup(c, k, x, f) + FakeIpIcmpSetup(c, f)
  }

  lemma BehindDivertAside(c: Config, k: Capabilities, x: Context, f: Family)
    ensures Aside(BehindDivert(c, k, x, f), f, Mangle, DIVERT)
    ensures TproxyRest(c, k, x, f) == DivertSetup(c, k, f) + BehindDivert(c, k, x, f)
  {
    hide DivertSetup, QuicSetup, LoopbackRejectSetup, DnsNatSetup, FakeIpIcmpSetup;
    OtherTablesAside(c, x, f, DIVERT);
    FilterAside(c, x, f, Mangle, DIVERT);
    DnsAsideMangle(c, k, x, f, DIVERT);
    var q, n, i := QuicSetup(c, f), DnsNatSetup(c, k, x, f), FakeIpIcmpSetup(c, f);
    var r := if c.mode != Enhance then LoopbackRejectSetup(x, f, c.tproxyPort) else [];
    var d := DivertSetup(c, k, f);
    assert d + q + r + n + i == d + (q + r + n + i);
  }

  lemma DivertInstalled(refused: set<Rule>, w: World, c: Config, k: Capabilities, x: Context, f: Family)
    requires TproxyMode(c) && TproxySupported(k, f) && Diverts(c, k)
    requires Ran(refused, w, f, Mangle, ModeSetup(c, k, x, f))
    ensures var chains := ChainsAfter(refused, w, f, Mangle, ModeSetup(c, k, x, f));
      DIVERT in chains && chains[DIVERT] == [Rule(SetMark(FWMARK)), Rule(Accept)]
  {
    var rules := [Rule(SetMark(FWMARK)), Rule(Accept)];
    var h, made := Holding(w, f, Mangle, DIVERT), Some(rules);
    var a, b := TproxyExternalSetup(c, k, f), TproxyLocalSetup(c, k, x, f);
    assert IsBoxCustomChain(DIVERT);
    hide *;
    DivertMade(refused, c, k, f, h);
    BesideDivert(c, k, x, f);
    BehindDivertAside(c, k, x, f);
    ThenAside(refused, DivertSetup(c, k, f), BehindDivert(c, k, x, f), f, Mangle, DIVERT, h, made);
    AsideBoth(a, b, f, Mangle, DIVERT);
    AsideThen(refused, a + b, TproxyRest(c, k, x, f), f, Mangle, DIVERT, h, made);
    StartTproxyMade(refused, c, k, x, f, DIVERT, h, made);
    TproxyModeMade(refused, c, k, x, f, DIVERT, h, made);
    ChainMade(refused, w, f, Mangle, ModeSetup(c, k, x, f), DIVERT, rules);
  }

  /** Every flow that enters the installed fast chains, behind the divert chain where
      there is one, is treated like its first packet or handed to its socket. */
  lemma FastFlowsConsistent(refused: set<Rule>, w: World, c: Config, k: Capabilities, x: Context, f: Family,
                            env: Env, d: nat, first: Packet, packets: seq<Packet>, m: bv32)
    requires TproxyMode(c) && TproxySupported(k, f) && PerformanceChain(c, k)
    requires Ran(refused, w, f, Mangle, ModeSetup(c, k, x, f)) && d > 1
    requires packets != [] && packets[0] == first && !first.reply && FirstPacket(first) && !MarkIs(m, FWMARK)
    requires OneFlow(first, packets) && !ToSocket(c, k, first)
    ensures var chains := ChainsAfter(refused, w, f, Mangle, ModeSetup(c, k, x, f));
      && HoldsEntry(chains, c, k, f)
      && var run := FlowRun(env, chains, d, Entry(c, k), packets, m);
         && run[0].Tproxied? == Dispatches(env, chains, d - 1, c, k, f, first)
         && forall i :: 0 <= i < |packets| ==> Fate(c, k, packets[i], run[i], run[0].Tproxied?)
  {
    hide Ran, ModeSetup, ChainsAfter, PerfExternalRules, FlowRun, OneFlow, FirstPacket, HoldsFast, Diverts, ToSocket, Dispatches, Entry, Fate;
    FastInstalled(refused, w, c, k, x, f);
    if Diverts(c, k) {
      DivertInstalled(refused, w, c, k, x, f);
    }
    FlowConsistent(env, ChainsAfter(refused, w, f, Mangle, ModeSetup(c, k, x, f)), d, c, k, f, first, packets, m);
  }

  // ----- TPROXY, the fast local chain -----

  lemma OutNames()
    ensures TP_OUT_IP != LOCAL && TP_OUT_APP != LOCAL && TP_OUT_IP != TP_OUT_APP && TP_OUT_IP != "OUTPUT" && TP_OUT_APP != "OUTPUT"
    ensures IsBoxCustomChain(LOCAL) && IsBoxCustomChain(TP_OUT_IP) && IsBoxCustomChain(TP_OUT_APP)
  {
  }

  function OutAppSetup(c: Config, x: Context, f: Family): seq<Step> {
    One(f, Mangle, EnsureChain(TP_OUT_APP)) + Appends(f, Mangle, TP_OUT_APP, PerfAppRules(c, x, f))
  }

  lemma FastLocalParts(c: Config, k: Capabilities, x: Context, f: Family)
    requires PerformanceChain(c, k)
    ensures TproxyLocalSetup(c, k, x, f)
         == LocalChainStart(x, f, Mangle)
            + (PerfDestSetup(c, k, f, TP_OUT_IP) + OutAppSetup(c, x, f) + Appends(f, Mangle, LOCAL, PerfLocalRules(c, k, x, f)))
            + One(f, Mangle, EnsureJump("OUTPUT", LOCAL))
  {
    LocalSetupSplit(c, k, x, f);
    hide LocalChainStart, PerfDestSetup, Appends, One, PerfAppRules, PerfLocalRules, TproxyLocalSetup;
    var a, b, d := PerfDestSetup(c, k, f, TP_OUT_IP), One(f, Mangle, EnsureChain(TP_OUT_APP)), Appends(f, Mangle, TP_OUT_APP, PerfAppRules(c, x, f));
    assert a + b + d == a + (b + d);
  }

  lemma FastLocalMade(refused: set<Rule>, c: Config, k: Capabilities, x: Context, f: Family, h: Option<seq<Rule>>)
    requires PerformanceChain(c, k)
    ensures Makes(refused, TproxyLocalSetup(c, k, x, f), f, Mangle, LOCAL, h, Some(CoreRules(refused, x) + PerfLocalRules(c, k, x, f)))
  {
    var dest, app := PerfDestSetup(c, k, f, TP_OUT_IP), OutAppSetup(c, x, f);
    OutNames();
    AppendsAside(f, Mangle, TP_OUT_APP, PerfAppRules(c, x, f), Mangle, LOCAL);
    hide Makes, Aside, CoreRules, LocalChainStart, PerfLocalRules, PerfDestSetup, TproxyLocalSetup, Appends;
    FastLocalParts(c, k, x, f);
    PerfDestAside(c, k, f, TP_OUT_IP, LOCAL);
    AsideBoth(dest, app, f, Mangle, LOCAL);
    LocalChainMade(refused, x, f, Mangle, dest + app, PerfLocalRules(c, k, x, f), h);
  }

  /** Either side chain, from the part that makes it. */
  lemma OutSideMade(refused: set<Rule>, c: Config, k: Capabilities, x: Context, f: Family, d: string,
                    h: Option<seq<Rule>>, made: Option<seq<Rule>>)
    requires PerformanceChain(c, k) && (d == TP_OUT_IP || d == TP_OUT_APP)
    requires if d == TP_OUT_IP then Makes(refused, PerfDestSetup(c, k, f, TP_OUT_IP), f, Mangle, d, h, made)
             else Makes(refused, OutAppSetup(c, x, f), f, Mangle, d, h, made)
    ensures Makes(refused, TproxyLocalSetup(c, k, x, f), f, Mangle, d, h, made)
  {
    var start, dest, app := LocalChainStart(x, f, Mangle), PerfDestSetup(c, k, f, TP_OUT_IP), OutAppSetup(c, x, f);
    var main, jump := Appends(f, Mangle, LOCAL, PerfLocalRules(c, k, x, f)), One(f, Mangle, EnsureJump("OUTPUT", LOCAL));
    OutNames();
    if d == TP_OUT_IP {
      AppendsAside(f, Mangle, TP_OUT_APP, PerfAppRules(c, x, f), Mangle, d);
    }
    hide *;
    FastLocalParts(c, k, x, f);
    LocalStartAside(x, f, Mangle, Mangle, d);
    AppendsAside(f, Mangle, LOCAL, PerfLocalRules(c, k, x, f), Mangle, d);
    JumpAside(f, d);
    if d == TP_OUT_IP {
      ThenAside(refused, dest, app, f, Mangle, d, h, made);
    } else {
      PerfDestAside(c, k, f, TP_OUT_IP, d);
      AsideThen(refused, dest, app, f, Mangle, d, h, made);
    }
    ThenAside(refused, dest + app, main, f, Mangle, d, h, made);
    AsideThen(refused, start, dest + app + main, f, Mangle, d, h, made);
    ThenAside(refused, start + (dest + app + main), jump, f, Mangle, d, h, made);
  }

  lemma OutAppMade(refused: set<Rule>, c: Config, x: Context, f: Family, h: Option<seq<Rule>>)
    ensures Makes(refused, OutAppSetup(c, x, f), f, Mangle, TP_OUT_APP, h, Some(PerfAppRules(c, x, f)))
  {
    hide Makes, Appends, One, PerfAppRules;
    MadeOf(refused, f, Mangle, TP_OUT_APP, PerfAppRules(c, x, f), h);
  }

  lemma FastLocalMainInstalled(refused: set<Rule>, w: World, c: Config, k: Capabilities, x: Context, f: Family)
    requires TproxyMode(c) && TproxySupported(k, f) && PerformanceChain(c, k)
    requires Ran(refused, w, f, Mangle, ModeSetup(c, k, x, f))
    ensures var chains := ChainsAfter(refused, w, f, Mangle, ModeSetup(c, k, x, f));
      LOCAL in chains && chains[LOCAL] == CoreRules(refused, x) + PerfLocalRules(c, k, x, f)
  {
    var local := CoreRules(refused, x) + PerfLocalRules(c, k, x, f);
    OutNames();
    hide *;
    FastLocalMade(refused, c, k, x, f, Holding(w, f, Mangle, LOCAL));
    LocalSideMade(refused, c, k, x, f, LOCAL, Holding(w, f, Mangle, LOCAL), Some(local));
    SideInstalled(refused, w, c, k, x, f, LOCAL, local);
  }

  lemma OutSideInstalled(refused: set<Rule>, w: World, c: Config, k: Capabilities, x: Context, f: Family, d: string, rules: seq<Rule>)
    requires TproxyMode(c) && TproxySupported(k, f) && PerformanceChain(c, k) && d in {TP_OUT_IP, TP_OUT_APP}
    requires Ran(refused, w, f, Mangle, ModeSetup(c, k, x, f))
    requires if d == TP_OUT_IP then Makes(refused, PerfDestSetup(c, k, f, TP_OUT_IP), f, Mangle, d, Holding(w, f, Mangle, d), Some(rules))
             else Makes(refused, OutAppSetup(c, x, f), f, Mangle, d, Holding(w, f, Mangle, d), Some(rules))
    ensures var chains := ChainsAfter(refused, w, f, Mangle, ModeSetup(c, k, x, f)); d in chains && chains[d] == rules
  {
    OutNames();
    hide *;
    OutSideMade(refused, c, k, x, f, d, Holding(w, f, Mangle, d), Some(rules));
    LocalSideMade(refused, c, k, x, f, d, Holding(w, f, Mangle, d), Some(rules));
    SideInstalled(refused, w, c, k, x, f, d, rules);
  }

  lemma OutDestInstalled(refused: set<Rule>, w: World, c: Config, k: Capabilities, x: Context, f: Family)
    requires TproxyMode(c) && TproxySupported(k, f) && PerformanceChain(c, k)
    requires Ran(refused, w, f, Mangle, ModeSetup(c, k, x, f))
    ensures var chains := ChainsAfter(refused, w, f, Mangle, ModeSetup(c, k, x, f));
      TP_OUT_IP in chains && chains[TP_OUT_IP] == DestRules(refused, c, k, f, TP_OUT_IP)
  {
    OutNames();
    hide *;
    PerfDestMade(refused, c, k, f, TP_OUT_IP, Holding(w, f, Mangle, TP_OUT_IP));
    OutSideInstalled(refused, w, c, k, x, f, TP_OUT_IP, DestRules(refused, c, k, f, TP_OUT_IP));
  }

  lemma OutAppInstalled(refused: set<Rule>, w: World, c: Config, k: Capabilities, x: Context, f: Family)
    requires TproxyMode(c) && TproxySupported(k, f) && PerformanceChain(c, k)
    requires Ran(refused, w, f, Mangle, ModeSetup(c, k, x, f))
    ensures var chains := ChainsAfter(refused, w, f, Mangle, ModeSetup(c, k, x, f));
      TP_OUT_APP in chains && chains[TP_OUT_APP] == PerfAppRules(c, x, f)
  {
    OutNames();
    hide *;
    OutAppMade(refused, c, x, f, Holding(w, f, Mangle, TP_OUT_APP));
    OutSideInstalled(refused, w, c, k, x, f, TP_OUT_APP, PerfAppRules(c, x, f));
  }

  lemma FastLocalHeld(chains: Chains, dest: seq<Rule>, taken: seq<Rule>, c: Config, k: Capabilities, x: Context, f: Family)
    requires TP_OUT_IP in chains && chains[TP_OUT_IP] == dest && DestChain(dest, c, k, f, TP_OUT_IP, taken)
    requires TP_OUT_APP in chains && chains[TP_OUT_APP] == PerfAppRules(c, x, f)
    ensures HoldsFastLocal(chains, c, k, x, f)
  {
    hide DestChain, PerfAppRules;
  }

  lemma FastLocalInstalled(refused: set<Rule>, w: World, c: Config, k: Capabilities, x: Context, f: Family)
    requires TproxyMode(c) && TproxySupported(k, f) && PerformanceChain(c, k)
    requires Ran(refused, w, f, Mangle, ModeSetup(c, k, x, f))
    ensures var chains := ChainsAfter(refused, w, f, Mangle, ModeSetup(c, k, x, f));
      HoldsFastLocal(chains, c, k, x, f) && LOCAL in chains && chains[LOCAL] == CoreRules(refused, x) + PerfLocalRules(c, k, x, f)
  {
    hide *;
    FastLocalMainInstalled(refused, w, c, k, x, f);
    OutDestInstalled(refused, w, c, k, x, f);
    OutAppInstalled(refused, w, c, k, x, f);
    DestIs(refused, c, k, f, TP_OUT_IP);
    FastLocalHeld(ChainsAfter(refused, w, f, Mangle, ModeSetup(c, k, x, f)), DestRules(refused, c, k, f, TP_OUT_IP),
                  Taken(refused, PerfAddrtypeRules(k)), c, k, x, f);
  }

  /** The first packet of a flow of the host leaves the installed fast chain with the
      mark exactly if it is not the core's own and the fast policy says so. */
  lemma FastLocalPolicy(refused: set<Rule>, w: World, c: Config, k: Capabilities, x: Context, f: Family,
                        env: Env, d: nat, p: Packet)
    requires TproxyMode(c) && TproxySupported(k, f) && PerformanceChain(c, k)
    requires Ran(refused, w, f, Mangle, ModeSetup(c, k, x, f)) && d > 0 && AppAgrees(env, c, x, f, p)
    requires FirstPacket(p) && !MarkIs(p.connmark, FWMARK)
    ensures var chains := ChainsAfter(refused, w, f, Mangle, ModeSetup(c, k, x, f));
      && LOCAL in chains && TP_OUT_IP in chains
      && LeavesWith(Traverse(env, chains, d, chains[LOCAL], p), p,
                    !CoreOwned(env, refused, x, p) && FastLocalMarked(env, chains[TP_OUT_IP], c, k, x, f, p))
  {
    hide Ran, ModeSetup, CoreRules, PerfLocalRules, ChainsAfter, PerformanceChain, AppAgrees, FastLocalMarked, FirstPacket, MarkIs, SetXmark;
    var chains := ChainsAfter(refused, w, f, Mangle, ModeSetup(c, k, x, f));
    FastLocalInstalled(refused, w, c, k, x, f);
    TraverseAppend(env, chains, d, CoreRules(refused, x), PerfLocalRules(c, k, x, f), p);
    CoreReturns(env, chains, d, refused, x, p);
    FirstLocalMeans(env, chains, d, c, k, x, f, p);
  }

  // ----- REDIRECT -----

  predicate RedirectSupported(k: Capabilities, f: Family) { f == V4 || k.ip6Nat }

  lemma RedirectExternalMade(refused: set<Rule>, c: Config, k: Capabilities, x: Context, f: Family, h: Option<seq<Rule>>)
    ensures Makes(refused, RedirectExternalSetup(c, k, x, f), f, Nat, EXTERNAL, h,
                  Some(ReplyBypass(c, k) + ExternalBody(c, k, f, ActRedirect)))
  {
    var a, b := ReplyBypass(c, k), ExternalBody(c, k, f, ActRedirect);
    var first := One(f, Nat, EnsureChain(EXTERNAL)) + Appends(f, Nat, EXTERNAL, a);
    var dns, local, main := DnsNatSetup(c, k, x, f), LocalIpSetup(c, k, f, Nat), Appends(f, Nat, EXTERNAL, b);
    var jump := One(f, Nat, EnsureJump("PREROUTING", EXTERNAL));
    assert LocalIpChain(f) != EXTERNAL && MainChain(EXTERNAL, f);
    LocalIpAside(c, k, f, Nat, Nat, EXTERNAL);
    OneAside(f, Nat, EnsureJump("PREROUTING", EXTERNAL), Nat, EXTERNAL);
    hide Makes, Aside, ReplyBypass, ExternalBody, DnsNatSetup, LocalIpSetup, Appends;
    MadeOf(refused, f, Nat, EXTERNAL, a, h);
    DnsAside(c, k, x, f, Nat, EXTERNAL);
    ThenAside(refused, first, dns, f, Nat, EXTERNAL, h, Some(a));
    ThenAside(refused, first + dns, local, f, Nat, EXTERNAL, h, Some(a));
    MadeLonger(refused, f, Nat, EXTERNAL, b, a);
    Then(refused, first + dns + local, main, f, Nat, EXTERNAL, h, Some(a), Some(a + b));
    ThenAside(refused, first + dns + local + main, jump, f, Nat, EXTERNAL, h, Some(a + b));
  }

  lemma RedirectLocalIpMade(refused: set<Rule>, c: Config, k: Capabilities, x: Context, f: Family, h: Option<seq<Rule>>)
    ensures Makes(refused, RedirectExternalSetup(c, k, x, f), f, Nat, LocalIpChain(f), h, Some(LocalRules(refused, c, f)))
  {
    var d, made := LocalIpChain(f), Some(LocalRules(refused, c, f));
    var a, b := ReplyBypass(c, k), ExternalBody(c, k, f, ActRedirect);
    var first := One(f, Nat, EnsureChain(EXTERNAL)) + Appends(f, Nat, EXTERNAL, a);
    var dns, local, main := DnsNatSetup(c, k, x, f), LocalIpSetup(c, k, f, Nat), Appends(f, Nat, EXTERNAL, b);
    var jump := One(f, Nat, EnsureJump("PREROUTING", EXTERNAL));
    assert d != EXTERNAL && d != "PREROUTING" && MainChain(d, f);
    LocalIpMade(refused, c, k, f, Nat, h);
    AppendsAside(f, Nat, EXTERNAL, a, Nat, d);
    AppendsAside(f, Nat, EXTERNAL, b, Nat, d);
    OneAside(f, Nat, EnsureJump("PREROUTING", EXTERNAL), Nat, d);
    hide Makes, Aside, ReplyBypass, ExternalBody, DnsNatSetup, LocalIpSetup, Appends, LocalIpChain, LocalRules;
    DnsAside(c, k, x, f, Nat, d);
    AsideBoth(first, dns, f, Nat, d);
    AsideThen(refused, first + dns, local, f, Nat, d, h, made);
    ThenAside(refused, first + dns + local, main, f, Nat, d, h, made);
    ThenAside(refused, first + dns + local + main, jump, f, Nat, d, h, made);
  }

  lemma RedirectLocalMade(refused: set<Rule>, c: Config, k: Capabilities, x: Context, f: Family, h: Option<seq<Rule>>)
    ensures Makes(refused, RedirectLocalSetup(c, k, x, f), f, Nat, LOCAL, h,
                  Some(CoreRules(refused, x) + RedirectLocalRules(c, k, x, f)))
  {
    var rules := RedirectLocalRules(c, k, x, f);
    hide Makes, RedirectLocalRules, CoreRules, LocalChainStart;
    assert [] + Appends(f, Nat, LOCAL, rules) == Appends(f, Nat, LOCAL, rules);
    LocalChainMade(refused, x, f, Nat, [], rules, h);
  }

  lemma RedirectAsides(c: Config, k: Capabilities, x: Context, f: Family, d: string)
    requires MainChain(d, f)
    ensures d == LOCAL ==> Aside(RedirectExternalSetup(c, k, x, f), f, Nat, d)
    ensures d != LOCAL ==> Aside(RedirectLocalSetup(c, k, x, f), f, Nat, d)
    ensures Aside(LoopbackRejectSetup(x, f, c.redirPort), f, Nat, d) && Aside(ForwardSetup(c, f), f, Nat, d)
    ensures Aside(StartTproxy(c, k, x, f), f, Nat, d)
  {
    FilterAside(c, x, f, Nat, d);
    TproxyAsideNat(c, k, x, f, d);
    if d == LOCAL {
      RedirectExternalLeavesLocal(c, k, x, f);
    } else {
      RedirectLocalLeaves(c, k, x, f, d);
    }
  }

  lemma FilterAside(c: Config, x: Context, f: Family, t: TableName, d: string)
    requires t != Filter
    ensures Aside(LoopbackRejectSetup(x, f, c.redirPort), f, t, d) && Aside(ForwardSetup(c, f), f, t, d)
    ensures Aside(LoopbackRejectSetup(x, f, c.tproxyPort), f, t, d) && Aside(QuicSetup(c, f), f, t, d)
  {
    hide LoopbackRejects;
  }

  lemma RedirectExternalLeavesLocal(c: Config, k: Capabilities, x: Context, f: Family)
    ensures Aside(RedirectExternalSetup(c, k, x, f), f, Nat, LOCAL)
  {
    var create, jump := One(f, Nat, EnsureChain(EXTERNAL)), One(f, Nat, EnsureJump("PREROUTING", EXTERNAL));
    var a, b := Appends(f, Nat, EXTERNAL, ReplyBypass(c, k)), Appends(f, Nat, EXTERNAL, ExternalBody(c, k, f, ActRedirect));
    var dns, local := DnsNatSetup(c, k, x, f), LocalIpSetup(c, k, f, Nat);
    assert MainChain(LOCAL, f) && LOCAL != EXTERNAL && LOCAL != LocalIpChain(f) && LOCAL != "PREROUTING";
    OneAside(f, Nat, EnsureChain(EXTERNAL), Nat, LOCAL);
    OneAside(f, Nat, EnsureJump("PREROUTING", EXTERNAL), Nat, LOCAL);
    hide Aside, DnsNatSetup, ReplyBypass, ExternalBody, LocalIpSetup, LocalIpChain, Appends;
    AppendsAside(f, Nat, EXTERNAL, ReplyBypass(c, k), Nat, LOCAL);
    AppendsAside(f, Nat, EXTERNAL, ExternalBody(c, k, f, ActRedirect), Nat, LOCAL);
    LocalIpAside(c, k, f, Nat, Nat, LOCAL);
    DnsAside(c, k, x, f, Nat, LOCAL);
    AsideBoth(create, a, f, Nat, LOCAL);
    AsideBoth(create + a, dns, f, Nat, LOCAL);
    AsideBoth(create + a + dns, local, f, Nat, LOCAL);
    AsideBoth(create + a + dns + local, b, f, Nat, LOCAL);
    AsideBoth(create + a + dns + local + b, jump, f, Nat, LOCAL);
  }

  lemma RedirectLocalLeaves(c: Config, k: Capabilities, x: Context, f: Family, d: string)
    requires d != LOCAL && d != "OUTPUT"
    ensures Aside(RedirectLocalSetup(c, k, x, f), f, Nat, d)
  {
    hide RedirectLocalRules, LocalChainStart;
    LocalStartAside(x, f, Nat, Nat, d);
  }

  lemma TproxyAsideNat(c: Config, k: Capabilities, x: Context, f: Family, d: string)
    requires MainChain(d, f)
    ensures Aside(StartTproxy(c, k, x, f), f, Nat, d)
  {
    assert d != "PREROUTING" && d != "OUTPUT";
    if TproxySupported(k, f) {
      StartTproxySplit(c, k, x, f);
      TproxyExternalNat(c, k, f, d);
      TproxyLocalNat(c, k, x, f, d);
      TproxyRestNat(c, k, x, f, d);
      RoutingAside(f, Nat, d);
      hide Aside, StartTproxy, TproxyRouting, TproxyExternalSetup, TproxyLocalSetup, TproxyRest, MainChain;
      var tables := TproxyExternalSetup(c, k, f) + TproxyLocalSetup(c, k, x, f);
      AsideBoth(TproxyExternalSetup(c, k, f), TproxyLocalSetup(c, k, x, f), f, Nat, d);
      AsideBoth(tables, TproxyRest(c, k, x, f), f, Nat, d);
      AsideBoth(TproxyRouting(f), tables + TproxyRest(c, k, x, f), f, Nat, d);
    }
  }

  lemma TproxyRestNat(c: Config, k: Capabilities, x: Context, f: Family, d: string)
    requires MainChain(d, f)
    ensures Aside(TproxyRest(c, k, x, f), f, Nat, d)
  {
    DnsAside(c, k, x, f, Nat, d);
    FilterAside(c, x, f, Nat, d);
    DivertAndIcmpAside(c, k, f, d);
    hide DnsNatSetup, LoopbackRejectSetup, DivertSetup, QuicSetup, FakeIpIcmpSetup, MainChain;
  }

  lemma DivertAndIcmpAside(c: Config, k: Capabilities, f: Family, d: string)
    requires MainChain(d, f)
    ensures Aside(DivertSetup(c, k, f), f, Nat, d) && Aside(FakeIpIcmpSetup(c, f), f, Nat, d)
  {
    assert d != "PREROUTING" && d != "OUTPUT";
    hide PerformanceChain, FakeIpIcmp;
  }

  lemma TproxyExternalNat(c: Config, k: Capabilities, f: Family, d: string)
    ensures Aside(TproxyExternalSetup(c, k, f), f, Nat, d)
  {
    hide PerfIfRules, PerfExternalRules, ExternalPrefix, ExternalBody, AcceptPairs, PerfBypassRules, PerfAddrtypeRules, PerfLoopbackRules;
    var dest := PerfDestSetup(c, k, f, TP_PRE_IP);
    assert Aside(dest, f, Nat, d);
    hide PerfDestSetup;
  }

  lemma TproxyLocalNat(c: Config, k: Capabilities, x: Context, f: Family, d: string)
    ensures Aside(TproxyLocalSetup(c, k, x, f), f, Nat, d)
  {
    hide PerfAppRules, PerfLocalRules, TproxyLocalRules, PerfBypassRules, PerfAddrtypeRules, PerfLoopbackRules, CoreBypassVariants;
    var dest := PerfDestSetup(c, k, f, TP_OUT_IP);
    assert Aside(dest, f, Nat, d);
    hide PerfDestSetup;
  }

  /** The redirect start by itself. */
  lemma StartRedirectMade(refused: set<Rule>, c: Config, k: Capabilities, x: Context, f: Family, d: string,
                          h: Option<seq<Rule>>, made: Option<seq<Rule>>)
    requires RedirectSupported(k, f) && MainChain(d, f)
    requires if d == LOCAL then Makes(refused, RedirectLocalSetup(c, k, x, f), f, Nat, d, h, made)
             else Makes(refused, RedirectExternalSetup(c, k, x, f), f, Nat, d, h, made)
    ensures Makes(refused, StartRedirect(c, k, x, f), f, Nat, d, h, made)
  {
    var a, b, e := RedirectExternalSetup(c, k, x, f), RedirectLocalSetup(c, k, x, f), LoopbackRejectSetup(x, f, c.redirPort);
    assert StartRedirect(c, k, x, f) == a + b + e;
    hide *;
    RedirectAsides(c, k, x, f, d);
    if d == LOCAL {
      AsideThen(refused, a, b, f, Nat, d, h, made);
    } else {
      ThenAside(refused, a, b, f, Nat, d, h, made);
    }
    ThenAside(refused, a + b, e, f, Nat, d, h, made);
  }

  lemma RedirectModes(c: Config, k: Capabilities, x: Context, f: Family)
    requires RedirectMode(c)
    ensures c.mode == RedirectOnly ==> ModeSetup(c, k, x, f) == StartRedirect(c, k, x, f)
    ensures c.mode == Mixed ==> ModeSetup(c, k, x, f) == ForwardSetup(c, f) + StartRedirect(c, k, x, f)
    ensures c.mode == Enhance ==> ModeSetup(c, k, x, f) == StartRedirect(c, k, x, f) + StartTproxy(c, k, x, f)
    ensures c.mode in {RedirectOnly, Mixed, Enhance}
  {
    hide StartRedirect, StartTproxy, ForwardSetup;
  }

  /** A main chain of the nat table ends up as the redirect start makes it, in every mode with one. */
  lemma RedirectModeMade(refused: set<Rule>, c: Config, k: Capabilities, x: Context, f: Family, d: string,
                         h: Option<seq<Rule>>, made: Option<seq<Rule>>)
    requires RedirectMode(c) && RedirectSupported(k, f) && MainChain(d, f)
    requires if d == LOCAL then Makes(refused, RedirectLocalSetup(c, k, x, f), f, Nat, d, h, made)
             else Makes(refused, RedirectExternalSetup(c, k, x, f), f, Nat, d, h, made)
    ensures Makes(refused, ModeSetup(c, k, x, f), f, Nat, d, h, made)
  {
    hide *;
    RedirectModes(c, k, x, f);
    RedirectAsides(c, k, x, f, d);
    StartRedirectMade(refused, c, k, x, f, d, h, made);
    if c.mode == Mixed {
      AsideThen(refused, ForwardSetup(c, f), StartRedirect(c, k, x, f), f, Nat, d, h, made);
    } else if c.mode == Enhance {
      ThenAside(refused, StartRedirect(c, k, x, f), StartTproxy(c, k, x, f), f, Nat, d, h, made);
    }
  }

  lemma RedirectInstalled(refused: set<Rule>, w: World, c: Config, k: Capabilities, x: Context, f: Family)
    requires RedirectMode(c) && RedirectSupported(k, f) && Ran(refused, w, f, Nat, ModeSetup(c, k, x, f))
    ensures var chains := ChainsAfter(refused, w, f, Nat, ModeSetup(c, k, x, f));
      && HoldsLocal(chains, refused, c, f)
      && EXTERNAL in chains && chains[EXTERNAL] == ReplyBypass(c, k) + ExternalBody(c, k, f, ActRedirect)
      && LOCAL in chains && chains[LOCAL] == CoreRules(refused, x) + RedirectLocalRules(c, k, x, f)
  {
    assert IsBoxCustomChain(EXTERNAL) && IsBoxCustomChain(LOCAL) && IsBoxCustomChain(LocalIpChain(f));
    assert LocalIpChain(f) != LOCAL && EXTERNAL != LOCAL;
    hide Makes, Ran, ModeSetup, IsBoxCustomChain, CoreRules, RedirectExternalSetup, RedirectLocalSetup;
    hide ReplyBypass, ExternalBody, RedirectLocalRules, LocalIpChain, AcceptPairs, Kept, ChainsAfter;
    var steps := ModeSetup(c, k, x, f);
    var h, i, j := Holding(w, f, Nat, EXTERNAL), Holding(w, f, Nat, LocalIpChain(f)), Holding(w, f, Nat, LOCAL);
    var external := ReplyBypass(c, k) + ExternalBody(c, k, f, ActRedirect);
    RedirectExternalMade(refused, c, k, x, f, h);
    RedirectModeMade(refused, c, k, x, f, EXTERNAL, h, Some(external));
    ChainMade(refused, w, f, Nat, steps, EXTERNAL, external);
    var pairs := LocalRules(refused, c, f);
    RedirectLocalIpMade(refused, c, k, x, f, i);
    RedirectModeMade(refused, c, k, x, f, LocalIpChain(f), i, Some(pairs));
    ChainMade(refused, w, f, Nat, steps, LocalIpChain(f), pairs);
    var local := CoreRules(refused, x) + RedirectLocalRules(c, k, x, f);
    RedirectLocalMade(refused, c, k, x, f, j);
    RedirectModeMade(refused, c, k, x, f, LOCAL, j, Some(local));
    ChainMade(refused, w, f, Nat, steps, LOCAL, local);
  }

  predicate Redirects(o: Outcome, c: Config, p: Packet, yes: bool) {
    if yes then o == Redirected(c.redirPort) else o == Fell(p) || o == Back(p) || o == Accepted(p)
  }

  /** A packet that enters the installed chains is redirected exactly by policy. */
  lemma RedirectPolicy(refused: set<Rule>, w: World, c: Config, k: Capabilities, x: Context, f: Family,
                       env: Env, d: nat, p: Packet)
    requires RedirectMode(c) && RedirectSupported(k, f) && Ran(refused, w, f, Nat, ModeSetup(c, k, x, f))
    requires d > 0 && AppAgrees(env, c, x, f, p)
    ensures var chains := ChainsAfter(refused, w, f, Nat, ModeSetup(c, k, x, f));
      && EXTERNAL in chains && LOCAL in chains
      && Redirects(Traverse(env, chains, d, chains[EXTERNAL], p), c, p,
                   !(p.reply && ConntrackEnabled(c, k)) && StandardPolicy(env, refused, c, k, f, ActRedirect, p))
      && Redirects(Traverse(env, chains, d, chains[LOCAL], p), c, p,
                   !CoreOwned(env, refused, x, p) && LocalRedirected(env, refused, c, k, x, f, p))
  {
    hide Ran, ModeSetup, CoreRules, RedirectLocalRules, ChainsAfter, AppAgrees, LocalRedirected, HoldsLocal, StandardPolicy;
    hide ReplyBypass, ExternalBody, ConntrackEnabled, RedirectMode, RedirectSupported;
    var chains := ChainsAfter(refused, w, f, Nat, ModeSetup(c, k, x, f));
    RedirectInstalled(refused, w, c, k, x, f);
    TraverseAppend(env, chains, d, ReplyBypass(c, k), ExternalBody(c, k, f, ActRedirect), p);
    ReplyMeans(env, chains, d, c, k, p);
    StandardExternalMeans(env, chains, d, refused, c, k, f, ActRedirect, p);
    TraverseAppend(env, chains, d, CoreRules(refused, x), RedirectLocalRules(c, k, x, f), p);
    CoreReturns(env, chains, d, refused, x, p);
    RedirectLocalMeans(env, chains, d, refused, c, k, x, f, p);
  }

  // ----- TUN -----

  lemma TunNames(f: Family)
    ensures TunPreChain(f) != TunOutChain(f)
    ensures TunPreChain(f) != "PREROUTING" && TunPreChain(f) != "OUTPUT"
    ensures TunOutChain(f) != "PREROUTING" && TunOutChain(f) != "OUTPUT"
  {
  }

  /** The bypass variants are appended, not inserted, and have no fallback. */
  lemma TunCoreMade(refused: set<Rule>, x: Context, f: Family, d: string)
    ensures Makes(refused, One(f, Mangle, AppendFirst(d, CoreBypassVariants(x))), f, Mangle, d, Some([]),
                  Some(Variant(refused, CoreBypassVariants(x))))
  {
    var try := Step(f, Mangle, AppendFirst(d, CoreBypassVariants(x)));
    var core := Variant(refused, CoreBypassVariants(x));
    hide CoreBypassVariants, Variant;
    assert [try][1..] == [] && Written(refused, [try][1..], Mangle, d, Some(core)) == Some(core);
    assert Builds(try, f, Mangle, d) && [] + core == core;
  }

  /** The steps behind the rules of the forward chain belong to other chains. */
  lemma TunRestAside(refused: set<Rule>, c: Config, k: Capabilities, x: Context, f: Family, head: seq<Step>,
                     h: Option<seq<Rule>>, made: Option<seq<Rule>>)
    requires Makes(refused, head, f, Mangle, TunPreChain(f), h, made)
    ensures var out := TunOutChain(f);
      Makes(refused,
            head + One(f, Mangle, AppendFirst(out, CoreBypassVariants(x))) + Appends(f, Mangle, out, TunOutRules(c, k, x, f))
            + One(f, Mangle, EnsureJump("PREROUTING", TunPreChain(f))) + One(f, Mangle, EnsureJump("OUTPUT", out)),
            f, Mangle, TunPreChain(f), h, made)
  {
    var pre, out := TunPreChain(f), TunOutChain(f);
    var core, own := One(f, Mangle, AppendFirst(out, CoreBypassVariants(x))), Appends(f, Mangle, out, TunOutRules(c, k, x, f));
    var before, behind := One(f, Mangle, EnsureJump("PREROUTING", pre)), One(f, Mangle, EnsureJump("OUTPUT", out));
    TunNames(f);
    OneAside(f, Mangle, AppendFirst(out, CoreBypassVariants(x)), Mangle, pre);
    OneAside(f, Mangle, EnsureJump("PREROUTING", pre), Mangle, pre);
    OneAside(f, Mangle, EnsureJump("OUTPUT", out), Mangle, pre);
    hide *;
    AppendsAside(f, Mangle, out, TunOutRules(c, k, x, f), Mangle, pre);
    ThenAside(refused, head, core, f, Mangle, pre, h, made);
    ThenAside(refused, head + core, own, f, Mangle, pre, h, made);
    ThenAside(refused, head + core + own, before, f, Mangle, pre, h, made);
    ThenAside(refused, head + core + own + before, behind, f, Mangle, pre, h, made);
  }

  lemma TunPreMade(refused: set<Rule>, c: Config, k: Capabilities, x: Context, f: Family, h: Option<seq<Rule>>)
    ensures Makes(refused, TunTables(c, k, x, f), f, Mangle, TunPreChain(f), h, Some(TunPreRules(c, k, f)))
  {
    var pre, out, a := TunPreChain(f), TunOutChain(f), TunPreRules(c, k, f);
    var s1, s2, s3 := One(f, Mangle, EnsureChain(pre)), One(f, Mangle, EnsureChain(out)), Appends(f, Mangle, pre, a);
    TunTablesParts(c, k, x, f);
    TunNames(f);
    OneAside(f, Mangle, EnsureChain(out), Mangle, pre);
    hide *;
    assert [] + a == a;
    MadeEmpty(refused, f, Mangle, pre, h);
    ThenAside(refused, s1, s2, f, Mangle, pre, h, Some([]));
    MadeLonger(refused, f, Mangle, pre, a, []);
    Then(refused, s1 + s2, s3, f, Mangle, pre, h, Some([]), Some(a));
    TunRestAside(refused, c, k, x, f, s1 + s2 + s3, h, Some(a));
  }

  lemma TunOutMade(refused: set<Rule>, c: Config, k: Capabilities, x: Context, f: Family, h: Option<seq<Rule>>)
    ensures Makes(refused, TunTables(c, k, x, f), f, Mangle, TunOutChain(f), h,
                  Some(Variant(refused, CoreBypassVariants(x)) + TunOutRules(c, k, x, f)))
  {
    var pre, out := TunPreChain(f), TunOutChain(f);
    var a, b := TunPreRules(c, k, f), TunOutRules(c, k, x, f);
    var core := Variant(refused, CoreBypassVariants(x));
    var s1, s2, s3 := One(f, Mangle, EnsureChain(pre)), One(f, Mangle, EnsureChain(out)), Appends(f, Mangle, pre, a);
    var s4, s5 := One(f, Mangle, AppendFirst(out, CoreBypassVariants(x))), Appends(f, Mangle, out, b);
    var s6, s7 := One(f, Mangle, EnsureJump("PREROUTING", pre)), One(f, Mangle, EnsureJump("OUTPUT", out));
    TunTablesParts(c, k, x, f);
    TunNames(f);
    OneAside(f, Mangle, EnsureChain(pre), Mangle, out);
    OneAside(f, Mangle, EnsureJump("PREROUTING", pre), Mangle, out);
    OneAside(f, Mangle, EnsureJump("OUTPUT", out), Mangle, out);
    hide *;
    AppendsAside(f, Mangle, pre, a, Mangle, out);
    MadeEmpty(refused, f, Mangle, out, h);
    AsideThen(refused, s1, s2, f, Mangle, out, h, Some([]));
    ThenAside(refused, s1 + s2, s3, f, Mangle, out, h, Some([]));
    TunCoreMade(refused, x, f, out);
    Then(refused, s1 + s2 + s3, s4, f, Mangle, out, h, Some([]), Some(core));
    MadeLonger(refused, f, Mangle, out, b, core);
    Then(refused, s1 + s2 + s3 + s4, s5, f, Mangle, out, h, Some(core), Some(core + b));
    ThenAside(refused, s1 + s2 + s3 + s4 + s5, s6, f, Mangle, out, h, Some(core + b));
    ThenAside(refused, s1 + s2 + s3 + s4 + s5 + s6, s7, f, Mangle, out, h, Some(core + b));
  }

  predicate TunCoreOwned(env: Env, refused: set<Rule>, x: Context, p: Packet) {
    exists r | r in Variant(refused, CoreBypassVariants(x)) :: Matches(env, r, p)
  }

  lemma TunChainsCustom(f: Family)
    ensures IsBoxCustomChain(TunPreChain(f)) && IsBoxCustomChain(TunOutChain(f))
  {
  }

  /** TUN mode makes a chain of the mangle table as its tables part does. */
  lemma TunModeMade(refused: set<Rule>, c: Config, k: Capabilities, x: Context, f: Family, d: string,
                    h: Option<seq<Rule>>, made: Option<seq<Rule>>)
    requires c.mode == Tun && TunManaged(c) && Makes(refused, TunTables(c, k, x, f), f, Mangle, d, h, made)
    ensures Makes(refused, ModeSetup(c, k, x, f), f, Mangle, d, h, made)
  {
    assert ModeSetup(c, k, x, f) == ForwardSetup(c, f) + (TunTables(c, k, x, f) + TunRouting(f));
    hide *;
    FilterAside(c, x, f, Mangle, d);
    RoutingAside(f, Mangle, d);
    ThenAside(refused, TunTables(c, k, x, f), TunRouting(f), f, Mangle, d, h, made);
    AsideThen(refused, ForwardSetup(c, f), TunTables(c, k, x, f) + TunRouting(f), f, Mangle, d, h, made);
  }

  lemma TunInstalled(refused: set<Rule>, w: World, c: Config, k: Capabilities, x: Context, f: Family)
    requires c.mode == Tun && TunManaged(c) && Ran(refused, w, f, Mangle, ModeSetup(c, k, x, f))
    ensures var chains := ChainsAfter(refused, w, f, Mangle, ModeSetup(c, k, x, f));
      && TunPreChain(f) in chains && chains[TunPreChain(f)] == TunPreRules(c, k, f)
      && TunOutChain(f) in chains
      && chains[TunOutChain(f)] == Variant(refused, CoreBypassVariants(x)) + TunOutRules(c, k, x, f)
  {
    var pre, out := TunPreChain(f), TunOutChain(f);
    var h, i := Holding(w, f, Mangle, pre), Holding(w, f, Mangle, out);
    var local := Variant(refused, CoreBypassVariants(x)) + TunOutRules(c, k, x, f);
    TunChainsCustom(f);
    hide *;
    TunPreMade(refused, c, k, x, f, h);
    TunOutMade(refused, c, k, x, f, i);
    TunModeMade(refused, c, k, x, f, pre, h, Some(TunPreRules(c, k, f)));
    TunModeMade(refused, c, k, x, f, out, i, Some(local));
    ChainMade(refused, w, f, Mangle, ModeSetup(c, k, x, f), pre, TunPreRules(c, k, f));
    ChainMade(refused, w, f, Mangle, ModeSetup(c, k, x, f), out, local);
  }

  /** An unmarked packet leaves the installed chains with exactly the mark of the policy. */
  lemma TunInstalledPolicy(refused: set<Rule>, w: World, c: Config, k: Capabilities, x: Context, f: Family,
                           env: Env, d: nat, p: Packet)
    requires c.mode == Tun && TunManaged(c) && Ran(refused, w, f, Mangle, ModeSetup(c, k, x, f)) && Unmarked(p)
    ensures var chains := ChainsAfter(refused, w, f, Mangle, ModeSetup(c, k, x, f));
      && TunPreChain(f) in chains && TunOutChain(f) in chains
      && var forwarded, own := Traverse(env, chains, d, chains[TunPreChain(f)], p), Traverse(env, chains, d, chains[TunOutChain(f)], p);
      && Passes(forwarded) && forwarded.p == WithMark(p, TunPreMark(env, c, k, f, p))
      && Passes(own)
      && own.p == WithMark(p, if TunCoreOwned(env, refused, x, p) then Plain else TunOutMark(env, c, k, x, f, p))
  {
    hide Ran, ModeSetup, TunPreRules, TunOutRules, TunPreChain, TunOutChain, ChainsAfter, TunManaged, Unmarked, Variant;
    hide TunPreMark, TunOutMark, SetXmark;
    var chains := ChainsAfter(refused, w, f, Mangle, ModeSetup(c, k, x, f));
    var core := Variant(refused, CoreBypassVariants(x));
    TunInstalled(refused, w, c, k, x, f);
    TunPreMeans(env, chains, d, c, k, f, p);
    TraverseAppend(env, chains, d, core, TunOutRules(c, k, x, f), p);
    assert forall r :: r in CoreBypassVariants(x) ==> r.target == Return;
    TraverseReturns(env, chains, d, core, p);
    TunOutMeans(env, chains, d, c, k, x, f, p);
  }
}
