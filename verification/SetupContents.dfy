/**
 What the setup scripts leave in their chains, and so what a packet meets after a
 setup the kernel accepts: the policies proved of the rule lists hold of the
 kernel's chains.
 */
module SetupContents {
  import opened Bytes
  import opened Netfilter
  import opened Batching
  import opened RuleConfig
  import opened RuleScripts
  import opened ChainContents
  import opened ExternalPolicy
  import opened FastPolicy
  import opened LocalPolicy
  import opened TunPolicy
  import opened TeardownModes

  // ----- parts of scripts -----

  /** Steps of the family that write other chains only. */
  predicate Aside(steps: seq<Step>, f: Family, t: TableName, c: string) {
    forall s | s in steps :: s.family == f && (s.table != t || ChainOf(s.op) != c)
  }

  /** A part, followed alone, builds the chain and takes it from `before` to `after`. */
  ghost predicate Makes(refused: set<Rule>, steps: seq<Step>, f: Family, t: TableName, c: string,
                        before: Option<seq<Rule>>, after: Option<seq<Rule>>) {
    BuildsAll(steps, f, t, c) && Written(refused, steps, t, c, before) == after
  }

  lemma AsideMakes(refused: set<Rule>, steps: seq<Step>, f: Family, t: TableName, c: string, h: Option<seq<Rule>>)
    requires Aside(steps, f, t, c)
    ensures Makes(refused, steps, f, t, c, h, h)
  {
    WrittenElsewhere(refused, steps, t, c, h);
  }

  lemma AsideBoth(a: seq<Step>, b: seq<Step>, f: Family, t: TableName, c: string)
    requires Aside(a, f, t, c) && Aside(b, f, t, c)
    ensures Aside(a + b, f, t, c)
  {
  }

  lemma Then(refused: set<Rule>, a: seq<Step>, b: seq<Step>, f: Family, t: TableName, c: string,
             before: Option<seq<Rule>>, middle: Option<seq<Rule>>, after: Option<seq<Rule>>)
    requires Makes(refused, a, f, t, c, before, middle) && Makes(refused, b, f, t, c, middle, after)
    ensures Makes(refused, a + b, f, t, c, before, after)
  {
    WrittenConcat(refused, a, b, t, c, before);
    assert forall s :: s in a + b ==> s in a || s in b;
  }

  /** A part aside, before or behind, changes nothing. */
  lemma ThenAside(refused: set<Rule>, a: seq<Step>, b: seq<Step>, f: Family, t: TableName, c: string,
                  before: Option<seq<Rule>>, after: Option<seq<Rule>>)
    requires Makes(refused, a, f, t, c, before, after) && Aside(b, f, t, c)
    ensures Makes(refused, a + b, f, t, c, before, after)
  {
    AsideMakes(refused, b, f, t, c, after);
    Then(refused, a, b, f, t, c, before, after, after);
  }

  lemma AsideThen(refused: set<Rule>, a: seq<Step>, b: seq<Step>, f: Family, t: TableName, c: string,
                  before: Option<seq<Rule>>, after: Option<seq<Rule>>)
    requires Aside(a, f, t, c) && Makes(refused, b, f, t, c, before, after)
    ensures Makes(refused, a + b, f, t, c, before, after)
  {
    AsideMakes(refused, a, f, t, c, before);
    Then(refused, a, b, f, t, c, before, before, after);
  }

  lemma MadeEmpty(refused: set<Rule>, f: Family, t: TableName, c: string, h: Option<seq<Rule>>)
    ensures Makes(refused, One(f, t, EnsureChain(c)), f, t, c, h, Some([]))
  {
    var s := Step(f, t, EnsureChain(c));
    assert One(f, t, EnsureChain(c)) == [s] && [s][1..] == [];
    assert Written(refused, [s][1..], t, c, Some([])) == Some([]);
  }

  lemma MadeLonger(refused: set<Rule>, f: Family, t: TableName, c: string, rules: seq<Rule>, held: seq<Rule>)
    ensures Makes(refused, Appends(f, t, c, rules), f, t, c, Some(held), Some(held + rules))
  {
    WrittenAppends(refused, f, t, c, rules, held);
  }

  lemma MadeOf(refused: set<Rule>, f: Family, t: TableName, c: string, rules: seq<Rule>, h: Option<seq<Rule>>)
    ensures Makes(refused, One(f, t, EnsureChain(c)) + Appends(f, t, c, rules), f, t, c, h, Some(rules))
  {
    MadeEmpty(refused, f, t, c, h);
    MadeLonger(refused, f, t, c, rules, []);
    assert [] + rules == rules;
    Then(refused, One(f, t, EnsureChain(c)), Appends(f, t, c, rules), f, t, c, h, Some([]), Some(rules));
  }

  lemma OneAside(f: Family, t: TableName, op: Op, u: TableName, c: string)
    requires u != t || c != ChainOf(op)
    ensures Aside(One(f, t, op), f, u, c)
  {
  }

  lemma JumpAside(f: Family, d: string)
    requires d != "OUTPUT"
    ensures Aside(One(f, Mangle, EnsureJump("OUTPUT", LOCAL)), f, Mangle, d)
  {
  }

  lemma AppendsAside(f: Family, t: TableName, d: string, rules: seq<Rule>, u: TableName, c: string)
    requires u != t || c != d
    ensures Aside(Appends(f, t, d, rules), f, u, c)
    ensures Aside(One(f, t, EnsureChain(d)) + Appends(f, t, d, rules), f, u, c)
  {
  }

  // ----- the parts the setups share -----

  /** What the kernel takes of the rules for the host's own networks. */
  function LocalRules(refused: set<Rule>, c: Config, f: Family): seq<Rule> { Kept(refused, AcceptPairs(LocalCidrs(c, f))) }

  lemma LocalIpMade(refused: set<Rule>, c: Config, k: Capabilities, f: Family, t: TableName, h: Option<seq<Rule>>)
    ensures Makes(refused, LocalIpSetup(c, k, f, t), f, t, LocalIpChain(f), h, Some(LocalRules(refused, c, f)))
  {
    hide Kept, AcceptPairs, RestoringOf;
    var s := LocalIpSetup(c, k, f, t)[0];
    var after := Some(LocalRules(refused, c, f));
    assert LocalIpSetup(c, k, f, t) == [s] && [s][1..] == [] && Written(refused, [s][1..], t, LocalIpChain(f), after) == after;
    assert Builds(s, f, t, LocalIpChain(f));
  }

  lemma LocalIpAside(c: Config, k: Capabilities, f: Family, t: TableName, u: TableName, d: string)
    requires u != t || d != LocalIpChain(f)
    ensures Aside(LocalIpSetup(c, k, f, t), f, u, d)
  {
  }

  predicate MainChain(c: string, f: Family) { c in {EXTERNAL, LOCAL, LocalIpChain(f)} }

  lemma DnsAside(c: Config, k: Capabilities, x: Context, f: Family, t: TableName, d: string)
    requires t != Nat || MainChain(d, f)
    ensures Aside(DnsNatSetup(c, k, x, f), f, t, d)
  {
    DnsHijackAside(c, x, f, t, d);
    DnsForwardAside(c, x, f, t, d);
  }

  lemma DnsHijackAside(c: Config, x: Context, f: Family, t: TableName, d: string)
    requires t != Nat || MainChain(d, f)
    ensures Aside(DnsHijackSetup(c, x, f), f, t, d)
  {
    var pre, out := HijackPre(f), HijackOut(f);
    assert t != Nat || (d != pre && d != out && d != "PREROUTING" && d != "OUTPUT");
    hide HijackPre, HijackOut;
    AppendsAside(f, Nat, pre, DnsHijackRules(c, f, true), t, d);
    AppendsAside(f, Nat, out, DnsHijackRules(c, f, false), t, d);
  }

  lemma DnsForwardAside(c: Config, x: Context, f: Family, t: TableName, d: string)
    requires t != Nat || MainChain(d, f)
    ensures Aside(DnsForwardSetup(c, x, f), f, t, d)
  {
    var pre := ForwardPre(f);
    assert t != Nat || (d != pre && d != "OUTPUT");
    hide ForwardPre;
    AppendsAside(f, Nat, pre, DnsForwardRules(c, f), t, d);
  }

  // ----- the standard TPROXY setup -----

  lemma StandardExternalMade(refused: set<Rule>, c: Config, k: Capabilities, f: Family, h: Option<seq<Rule>>)
    requires !PerformanceChain(c, k)
    ensures Makes(refused, TproxyExternalSetup(c, k, f), f, Mangle, EXTERNAL, h, Some(TproxyExternalRules(c, k, f)))
  {
    var a, b := ExternalPrefix(c, k, f, ActTproxy), ExternalBody(c, k, f, ActTproxy);
    var jump := One(f, Mangle, EnsureJump("PREROUTING", EXTERNAL));
    var first := One(f, Mangle, EnsureChain(EXTERNAL)) + Appends(f, Mangle, EXTERNAL, a);
    var local := LocalIpSetup(c, k, f, Mangle);
    assert LocalIpChain(f) != EXTERNAL;
    hide ExternalPrefix, ExternalBody, Makes, Aside, LocalIpSetup;
    MadeOf(refused, f, Mangle, EXTERNAL, a, h);
    LocalIpAside(c, k, f, Mangle, Mangle, EXTERNAL);
    ThenAside(refused, first, local, f, Mangle, EXTERNAL, h, Some(a));
    MadeLonger(refused, f, Mangle, EXTERNAL, b, a);
    Then(refused, first + local, Appends(f, Mangle, EXTERNAL, b), f, Mangle, EXTERNAL, h, Some(a), Some(a + b));
    OneAside(f, Mangle, EnsureJump("PREROUTING", EXTERNAL), Mangle, EXTERNAL);
    ThenAside(refused, first + local + Appends(f, Mangle, EXTERNAL, b), jump, f, Mangle, EXTERNAL, h, Some(a + b));
  }

  lemma StandardLocalIpMade(refused: set<Rule>, c: Config, k: Capabilities, f: Family, h: Option<seq<Rule>>)
    requires !PerformanceChain(c, k)
    ensures Makes(refused, TproxyExternalSetup(c, k, f), f, Mangle, LocalIpChain(f), h, Some(LocalRules(refused, c, f)))
  {
    var a, b := ExternalPrefix(c, k, f, ActTproxy), ExternalBody(c, k, f, ActTproxy);
    var d := LocalIpChain(f);
    var jump := One(f, Mangle, EnsureJump("PREROUTING", EXTERNAL));
    var first := One(f, Mangle, EnsureChain(EXTERNAL)) + Appends(f, Mangle, EXTERNAL, a);
    var local, more := LocalIpSetup(c, k, f, Mangle), Appends(f, Mangle, EXTERNAL, b);
    assert d != EXTERNAL && d != "PREROUTING";
    var made := Some(LocalRules(refused, c, f));
    hide ExternalPrefix, ExternalBody, Makes, Aside, LocalIpSetup, LocalRules;
    LocalIpMade(refused, c, k, f, Mangle, h);
    AppendsAside(f, Mangle, EXTERNAL, a, Mangle, d);
    AsideThen(refused, first, local, f, Mangle, d, h, made);
    AppendsAside(f, Mangle, EXTERNAL, b, Mangle, d);
    ThenAside(refused, first + local, more, f, Mangle, d, h, made);
    OneAside(f, Mangle, EnsureJump("PREROUTING", EXTERNAL), Mangle, d);
    ThenAside(refused, first + local + more, jump, f, Mangle, d, h, made);
  }

  /** What keeps the core's own packets out: the first owner rule the kernel takes,
      or a rule on the proxy mark. */
  function CoreRules(refused: set<Rule>, x: Context): seq<Rule> {
    Fronted(refused, CoreBypassVariants(x), Some(Rule(Return, mark := Some(FWMARK))), [])
  }

  lemma LocalStartMade(refused: set<Rule>, x: Context, f: Family, t: TableName, h: Option<seq<Rule>>)
    ensures Makes(refused, LocalChainStart(x, f, t), f, t, LOCAL, h, Some(CoreRules(refused, x)))
  {
    var s := Step(f, t, InsertFirst(LOCAL, CoreBypassVariants(x), Some(Rule(Return, mark := Some(FWMARK)))));
    var after := Some(CoreRules(refused, x));
    assert Makes(refused, [s], f, t, LOCAL, Some([]), after) by {
      assert [s][1..] == [] && Written(refused, [s][1..], t, LOCAL, after) == after;
      assert Builds(s, f, t, LOCAL);
    }
    MadeEmpty(refused, f, t, LOCAL, h);
    Then(refused, One(f, t, EnsureChain(LOCAL)), [s], f, t, LOCAL, h, Some([]), after);
  }

  /** A local chain: the core's bypass, the rules, and a jump nobody follows yet. */
  lemma LocalChainMade(refused: set<Rule>, x: Context, f: Family, t: TableName, between: seq<Step>, rules: seq<Rule>, h: Option<seq<Rule>>)
    requires Aside(between, f, t, LOCAL)
    ensures Makes(refused, LocalChainStart(x, f, t) + (between + Appends(f, t, LOCAL, rules)) + One(f, t, EnsureJump("OUTPUT", LOCAL)),
                  f, t, LOCAL, h, Some(CoreRules(refused, x) + rules))
  {
    var core := CoreRules(refused, x);
    hide Makes, Aside, CoreRules, LocalChainStart;
    LocalStartMade(refused, x, f, t, h);
    MadeLonger(refused, f, t, LOCAL, rules, core);
    AsideThen(refused, between, Appends(f, t, LOCAL, rules), f, t, LOCAL, Some(core), Some(core + rules));
    Then(refused, LocalChainStart(x, f, t), between + Appends(f, t, LOCAL, rules), f, t, LOCAL, h, Some(core), Some(core + rules));
    OneAside(f, t, EnsureJump("OUTPUT", LOCAL), t, LOCAL);
    ThenAside(refused, LocalChainStart(x, f, t) + (between + Appends(f, t, LOCAL, rules)), One(f, t, EnsureJump("OUTPUT", LOCAL)),
              f, t, LOCAL, h, Some(core + rules));
  }

  lemma StandardLocalMade(refused: set<Rule>, c: Config, k: Capabilities, x: Context, f: Family, h: Option<seq<Rule>>)
    requires !PerformanceChain(c, k)
    ensures Makes(refused, TproxyLocalSetup(c, k, x, f), f, Mangle, LOCAL, h, Some(CoreRules(refused, x) + TproxyLocalRules(c, k, x, f)))
  {
    hide Makes, CoreRules, LocalChainStart, TproxyLocalRules;
    var rules := TproxyLocalRules(c, k, x, f);
    assert [] + Appends(f, Mangle, LOCAL, rules) == Appends(f, Mangle, LOCAL, rules);
    LocalChainMade(refused, x, f, Mangle, [], rules, h);
  }

  lemma LocalStartAside(x: Context, f: Family, t: TableName, u: TableName, c: string)
    requires u != t || c != LOCAL
    ensures Aside(LocalChainStart(x, f, t), f, u, c)
  {
  }

  /** The local setup leaves the external side's chains alone. */
  lemma LocalNames(f: Family, d: string)
    requires d in {EXTERNAL, LocalIpChain(f), TP_PRE_IP, TP_PRE_IF}
    ensures d != LOCAL && d != TP_OUT_IP && d != TP_OUT_APP && d != "OUTPUT"
  {
  }

  lemma FastLocalAside(c: Config, k: Capabilities, x: Context, f: Family, d: string)
    requires d != LOCAL && d != TP_OUT_IP && d != TP_OUT_APP
    ensures Aside(FastLocalSteps(c, k, x, f), f, Mangle, d)
  {
    hide Aside, Appends, One, PerfDestSetup, PerfAppRules, PerfLocalRules;
    var dest, app := PerfDestSetup(c, k, f, TP_OUT_IP), One(f, Mangle, EnsureChain(TP_OUT_APP));
    var apps, fast := Appends(f, Mangle, TP_OUT_APP, PerfAppRules(c, x, f)), Appends(f, Mangle, LOCAL, PerfLocalRules(c, k, x, f));
    AppendsAside(f, Mangle, LOCAL, PerfLocalRules(c, k, x, f), Mangle, d);
    AppendsAside(f, Mangle, TP_OUT_APP, PerfAppRules(c, x, f), Mangle, d);
    OneAside(f, Mangle, EnsureChain(TP_OUT_APP), Mangle, d);
    PerfDestAside(c, k, f, TP_OUT_IP, d);
    AsideBoth(dest, app, f, Mangle, d);
    AsideBoth(dest + app, apps, f, Mangle, d);
    AsideBoth(dest + app + apps, fast, f, Mangle, d);
  }

  lemma LocalSetupAside(c: Config, k: Capabilities, x: Context, f: Family, d: string)
    requires d in {EXTERNAL, LocalIpChain(f), TP_PRE_IP, TP_PRE_IF}
    ensures Aside(TproxyLocalSetup(c, k, x, f), f, Mangle, d)
  {
    hide *;
    LocalNames(f, d);
    LocalSetupSplit(c, k, x, f);
    LocalStartAside(x, f, Mangle, Mangle, d);
    AppendsAside(f, Mangle, LOCAL, TproxyLocalRules(c, k, x, f), Mangle, d);
    FastLocalAside(c, k, x, f, d);
    JumpAside(f, d);
    var middle := if PerformanceChain(c, k) then FastLocalSteps(c, k, x, f) else Appends(f, Mangle, LOCAL, TproxyLocalRules(c, k, x, f));
    AsideBoth(LocalChainStart(x, f, Mangle), middle, f, Mangle, d);
    AsideBoth(LocalChainStart(x, f, Mangle) + middle, One(f, Mangle, EnsureJump("OUTPUT", LOCAL)), f, Mangle, d);
  }

  lemma PerfDestAside(c: Config, k: Capabilities, f: Family, chain: string, d: string)
    requires d != chain
    ensures Aside(PerfDestSetup(c, k, f, chain), f, Mangle, d)
  {
    hide PerfBypassRules, PerfAddrtypeRules, PerfLoopbackRules;
  }

  /** What follows the two main setups writes neither side's chains. */
  lemma TproxyRestAside(c: Config, k: Capabilities, x: Context, f: Family, d: string)
    requires MainChain(d, f) || d in {TP_PRE_IP, TP_PRE_IF, TP_OUT_IP, TP_OUT_APP}
    ensures Aside(DivertSetup(c, k, f), f, Mangle, d) && Aside(QuicSetup(c, f), f, Mangle, d)
    ensures Aside(LoopbackRejectSetup(x, f, c.tproxyPort), f, Mangle, d)
    ensures Aside(FakeIpIcmpSetup(c, f), f, Mangle, d)
  {
    assert d != DIVERT && d != "PREROUTING";
    hide *;
    DivertAside(c, k, f, d);
    OtherTablesAside(c, x, f, d);
  }

  lemma DivertAside(c: Config, k: Capabilities, f: Family, d: string)
    requires d != DIVERT && d != "PREROUTING"
    ensures Aside(DivertSetup(c, k, f), f, Mangle, d)
  {
    hide PerformanceChain;
  }

  lemma OtherTablesAside(c: Config, x: Context, f: Family, d: string)
    ensures Aside(QuicSetup(c, f), f, Mangle, d) && Aside(FakeIpIcmpSetup(c, f), f, Mangle, d)
    ensures Aside(LoopbackRejectSetup(x, f, c.tproxyPort), f, Mangle, d)
  {
    hide LoopbackRejects, FakeIpIcmp, QuicReject;
  }

  function TproxyRest(c: Config, k: Capabilities, x: Context, f: Family): seq<Step> {
    DivertSetup(c, k, f) + QuicSetup(c, f)
      + (if c.mode != Enhance then LoopbackRejectSetup(x, f, c.tproxyPort) else [])
      + DnsNatSetup(c, k, x, f) + FakeIpIcmpSetup(c, f)
  }

  lemma TproxyRestAsideAll(c: Config, k: Capabilities, x: Context, f: Family, d: string)
    requires MainChain(d, f) || d in {TP_PRE_IP, TP_PRE_IF, TP_OUT_IP, TP_OUT_APP}
    ensures Aside(TproxyRest(c, k, x, f), f, Mangle, d)
  {
    hide DivertSetup, QuicSetup, LoopbackRejectSetup, DnsNatSetup, FakeIpIcmpSetup;
    TproxyRestAside(c, k, x, f, d);
    DnsAsideMangle(c, k, x, f, d);
  }

  lemma DnsAsideMangle(c: Config, k: Capabilities, x: Context, f: Family, d: string)
    ensures Aside(DnsNatSetup(c, k, x, f), f, Mangle, d)
  {
    DnsAside(c, k, x, f, Mangle, d);
  }

  lemma StartTproxySplit(c: Config, k: Capabilities, x: Context, f: Family)
    requires TproxySupported(k, f)
    ensures StartTproxy(c, k, x, f)
         == TproxyRouting(f) + (TproxyExternalSetup(c, k, f) + TproxyLocalSetup(c, k, x, f) + TproxyRest(c, k, x, f))
  {
    hide TproxyRouting, TproxyExternalSetup, TproxyLocalSetup, DivertSetup, QuicSetup, LoopbackRejectSetup, DnsNatSetup, FakeIpIcmpSetup;
    var tail := if c.mode != Enhance then LoopbackRejectSetup(x, f, c.tproxyPort) else [];
    var a := TproxyExternalSetup(c, k, f) + TproxyLocalSetup(c, k, x, f);
    var d, q, n, i := DivertSetup(c, k, f), QuicSetup(c, f), DnsNatSetup(c, k, x, f), FakeIpIcmpSetup(c, f);
    assert a + (d + q + tail + n + i) == a + d + q + tail + n + i;
  }

  /** The commands of policy routing write no chain. */
  lemma RoutingAside(f: Family, t: TableName, d: string)
    requires t != Filter
    ensures Aside(TproxyRouting(f), f, t, d) && Aside(TunRouting(f), f, t, d)
  {
  }

  lemma StartTproxyMade(refused: set<Rule>, c: Config, k: Capabilities, x: Context, f: Family, d: string,
                        h: Option<seq<Rule>>, made: Option<seq<Rule>>)
    requires TproxySupported(k, f)
    requires Makes(refused, TproxyExternalSetup(c, k, f) + TproxyLocalSetup(c, k, x, f) + TproxyRest(c, k, x, f), f, Mangle, d, h, made)
    ensures Makes(refused, StartTproxy(c, k, x, f), f, Mangle, d, h, made)
  {
    hide *;
    StartTproxySplit(c, k, x, f);
    RoutingAside(f, Mangle, d);
    AsideThen(refused, TproxyRouting(f), TproxyExternalSetup(c, k, f) + TproxyLocalSetup(c, k, x, f) + TproxyRest(c, k, x, f),
              f, Mangle, d, h, made);
  }

  /** An external-side chain keeps what the external setup gave it. */
  lemma ExternalSideMade(refused: set<Rule>, c: Config, k: Capabilities, x: Context, f: Family, d: string,
                         h: Option<seq<Rule>>, made: Option<seq<Rule>>)
    requires TproxySupported(k, f) && d in {EXTERNAL, LocalIpChain(f), TP_PRE_IP, TP_PRE_IF}
    requires Makes(refused, TproxyExternalSetup(c, k, f), f, Mangle, d, h, made)
    ensures Makes(refused, StartTproxy(c, k, x, f), f, Mangle, d, h, made)
  {
    hide Makes, Aside, StartTproxy, TproxyExternalSetup, TproxyLocalSetup, TproxyRest;
    LocalSetupAside(c, k, x, f, d);
    TproxyRestAsideAll(c, k, x, f, d);
    ThenAside(refused, TproxyExternalSetup(c, k, f), TproxyLocalSetup(c, k, x, f), f, Mangle, d, h, made);
    ThenAside(refused, TproxyExternalSetup(c, k, f) + TproxyLocalSetup(c, k, x, f), TproxyRest(c, k, x, f), f, Mangle, d, h, made);
    StartTproxyMade(refused, c, k, x, f, d, h, made);
  }

  lemma ExternalSetupAside(c: Config, k: Capabilities, f: Family, d: string)
    requires d in {LOCAL, TP_OUT_IP, TP_OUT_APP}
    ensures Aside(TproxyExternalSetup(c, k, f), f, Mangle, d)
  {
    assert d != EXTERNAL && d != TP_PRE_IP && d != TP_PRE_IF && d != "PREROUTING" && d != LocalIpChain(f);
    var create, jump := One(f, Mangle, EnsureChain(EXTERNAL)), One(f, Mangle, EnsureJump("PREROUTING", EXTERNAL));
    OneAside(f, Mangle, EnsureChain(EXTERNAL), Mangle, d);
    OneAside(f, Mangle, EnsureJump("PREROUTING", EXTERNAL), Mangle, d);
    hide Aside, PerfIfRules, PerfExternalRules, ExternalPrefix, ExternalBody, LocalIpSetup, PerfDestSetup, LocalIpChain, Appends;
    if PerformanceChain(c, k) {
      var dest, ifs := PerfDestSetup(c, k, f, TP_PRE_IP), Appends(f, Mangle, TP_PRE_IF, PerfIfRules(c));
      var make, main := One(f, Mangle, EnsureChain(TP_PRE_IF)), Appends(f, Mangle, EXTERNAL, PerfExternalRules(c, k, f));
      PerfDestAside(c, k, f, TP_PRE_IP, d);
      OneAside(f, Mangle, EnsureChain(TP_PRE_IF), Mangle, d);
      AppendsAside(f, Mangle, TP_PRE_IF, PerfIfRules(c), Mangle, d);
      AppendsAside(f, Mangle, EXTERNAL, PerfExternalRules(c, k, f), Mangle, d);
      AsideBoth(create, dest, f, Mangle, d);
      AsideBoth(create + dest, make, f, Mangle, d);
      AsideBoth(create + dest + make, ifs, f, Mangle, d);
      AsideBoth(create + dest + make + ifs, main, f, Mangle, d);
      AsideBoth(create + dest + make + ifs + main, jump, f, Mangle, d);
    } else {
      var a, b := Appends(f, Mangle, EXTERNAL, ExternalPrefix(c, k, f, ActTproxy)), Appends(f, Mangle, EXTERNAL, ExternalBody(c, k, f, ActTproxy));
      var local := LocalIpSetup(c, k, f, Mangle);
      AppendsAside(f, Mangle, EXTERNAL, ExternalPrefix(c, k, f, ActTproxy), Mangle, d);
      AppendsAside(f, Mangle, EXTERNAL, ExternalBody(c, k, f, ActTproxy), Mangle, d);
      LocalIpAside(c, k, f, Mangle, Mangle, d);
      AsideBoth(create, a, f, Mangle, d);
      AsideBoth(create + a, local, f, Mangle, d);
      AsideBoth(create + a + local, b, f, Mangle, d);
      AsideBoth(create + a + local + b, jump, f, Mangle, d);
    }
  }

  lemma LocalSideMade(refused: set<Rule>, c: Config, k: Capabilities, x: Context, f: Family, d: string,
                      h: Option<seq<Rule>>, made: Option<seq<Rule>>)
    requires TproxySupported(k, f) && d in {LOCAL, TP_OUT_IP, TP_OUT_APP}
    requires Makes(refused, TproxyLocalSetup(c, k, x, f), f, Mangle, d, h, made)
    ensures Makes(refused, StartTproxy(c, k, x, f), f, Mangle, d, h, made)
  {
    hide Makes, Aside, StartTproxy, TproxyExternalSetup, TproxyLocalSetup, TproxyRest;
    ExternalSetupAside(c, k, f, d);
    TproxyRestAsideAll(c, k, x, f, d);
    AsideThen(refused, TproxyExternalSetup(c, k, f), TproxyLocalSetup(c, k, x, f), f, Mangle, d, h, made);
    ThenAside(refused, TproxyExternalSetup(c, k, f) + TproxyLocalSetup(c, k, x, f), TproxyRest(c, k, x, f), f, Mangle, d, h, made);
    StartTproxyMade(refused, c, k, x, f, d, h, made);
  }

  // ----- the fast TPROXY setup -----

  /** The attempts the kernel takes. */
  function Taken(refused: set<Rule>, rules: seq<Rule>): (s: seq<Rule>)
    ensures forall r :: r in s ==> r in rules
  {
    if rules == [] then [] else Variant(refused, [rules[0]]) + Taken(refused, rules[1..])
  }

  lemma MakesFirst(refused: set<Rule>, steps: seq<Step>, f: Family, t: TableName, c: string, h: Option<seq<Rule>>, made: Option<seq<Rule>>)
    requires steps != [] && Builds(steps[0], f, t, c) && Makes(refused, steps[1..], f, t, c, WrittenBy(refused, steps[0], t, c, h), made)
    ensures Makes(refused, steps, f, t, c, h, made)
  {
    hide Builds, WrittenBy;
    assert forall s :: s in steps ==> s == steps[0] || s in steps[1..];
  }

  lemma AttemptWrites(refused: set<Rule>, f: Family, t: TableName, c: string, r: Rule, held: seq<Rule>)
    requires NoJumps([r])
    ensures var s := Step(f, t, AppendFirst(c, [r]));
      Builds(s, f, t, c) && WrittenBy(refused, s, t, c, Some(held)) == Some(held + Variant(refused, [r]))
  {
  }

  lemma {:induction false} MadeByAttempts(refused: set<Rule>, f: Family, t: TableName, c: string, rules: seq<Rule>, held: seq<Rule>)
    requires NoJumps(rules)
    ensures Makes(refused, Attempts(f, t, c, rules), f, t, c, Some(held), Some(held + Taken(refused, rules)))
    decreases |rules|
  {
    var steps := Attempts(f, t, c, rules);
    if rules == [] {
      assert steps == [] && held + [] == held;
    } else {
      var next := held + Variant(refused, [rules[0]]);
      assert steps[1..] == Attempts(f, t, c, rules[1..]);
      assert steps[0] == Step(f, t, AppendFirst(c, [rules[0]])) && NoJumps([rules[0]]) && NoJumps(rules[1..]);
      assert next + Taken(refused, rules[1..]) == held + Taken(refused, rules);
      hide *;
      AttemptWrites(refused, f, t, c, rules[0], held);
      MadeByAttempts(refused, f, t, c, rules[1..], next);
      MakesFirst(refused, steps, f, t, c, Some(held), Some(held + Taken(refused, rules)));
    }
  }

  /** What a destination chain holds. */
  function DestRules(refused: set<Rule>, c: Config, k: Capabilities, f: Family, chain: string): seq<Rule> {
    PerfBypassRules(c, k, f, chain) + Taken(refused, PerfAddrtypeRules(k)) + PerfLoopbackRules(c, f)
  }

  lemma DestIs(refused: set<Rule>, c: Config, k: Capabilities, f: Family, chain: string)
    ensures DestChain(DestRules(refused, c, k, f, chain), c, k, f, chain, Taken(refused, PerfAddrtypeRules(k)))
  {
  }

  lemma PerfDestMade(refused: set<Rule>, c: Config, k: Capabilities, f: Family, chain: string, h: Option<seq<Rule>>)
    ensures Makes(refused, PerfDestSetup(c, k, f, chain), f, Mangle, chain, h, Some(DestRules(refused, c, k, f, chain)))
  {
    var a, b, e := PerfBypassRules(c, k, f, chain), PerfAddrtypeRules(k), PerfLoopbackRules(c, f);
    hide PerfBypassRules, PerfLoopbackRules, Makes;
    MadeOf(refused, f, Mangle, chain, a, h);
    MadeByAttempts(refused, f, Mangle, chain, b, a);
    var first := One(f, Mangle, EnsureChain(chain)) + Appends(f, Mangle, chain, a);
    Then(refused, first, Attempts(f, Mangle, chain, b), f, Mangle, chain, h, Some(a), Some(a + Taken(refused, b)));
    MadeLonger(refused, f, Mangle, chain, e, a + Taken(refused, b));
    Then(refused, first + Attempts(f, Mangle, chain, b), Appends(f, Mangle, chain, e), f, Mangle, chain, h,
         Some(a + Taken(refused, b)), Some(a + Taken(refused, b) + e));
  }

  lemma PreNamesApart()
    ensures EXTERNAL != TP_PRE_IP && EXTERNAL != TP_PRE_IF && TP_PRE_IP != TP_PRE_IF
    ensures EXTERNAL != "PREROUTING" && TP_PRE_IP != "PREROUTING" && TP_PRE_IF != "PREROUTING"
  {
  }

  lemma OneBeside(f: Family, d: string, c: string)
    requires d != c
    ensures Aside(One(f, Mangle, EnsureChain(d)), f, Mangle, c)
  {
  }

  lemma EntryBeside(f: Family, c: string)
    requires c != "PREROUTING"
    ensures Aside(One(f, Mangle, EnsureJump("PREROUTING", EXTERNAL)), f, Mangle, c)
  {
  }

  lemma FastExternalMade(refused: set<Rule>, c: Config, k: Capabilities, f: Family, h: Option<seq<Rule>>)
    requires PerformanceChain(c, k)
    ensures Makes(refused, TproxyExternalSetup(c, k, f), f, Mangle, EXTERNAL, h, Some(PerfExternalRules(c, k, f)))
  {
    hide *;
    var create, jump := One(f, Mangle, EnsureChain(EXTERNAL)), One(f, Mangle, EnsureJump("PREROUTING", EXTERNAL));
    var dest, ifs := PerfDestSetup(c, k, f, TP_PRE_IP), Appends(f, Mangle, TP_PRE_IF, PerfIfRules(c));
    var make, rules := One(f, Mangle, EnsureChain(TP_PRE_IF)), PerfExternalRules(c, k, f);
    var main, made := Appends(f, Mangle, EXTERNAL, rules), Some(rules);
    assert [] + rules == rules;
    FastExternalParts(c, k, f);
    PreNamesApart();
    MadeEmpty(refused, f, Mangle, EXTERNAL, h);
    PerfDestAside(c, k, f, TP_PRE_IP, EXTERNAL);
    ThenAside(refused, create, dest, f, Mangle, EXTERNAL, h, Some([]));
    OneBeside(f, TP_PRE_IF, EXTERNAL);
    ThenAside(refused, create + dest, make, f, Mangle, EXTERNAL, h, Some([]));
    AppendsAside(f, Mangle, TP_PRE_IF, PerfIfRules(c), Mangle, EXTERNAL);
    ThenAside(refused, create + dest + make, ifs, f, Mangle, EXTERNAL, h, Some([]));
    MadeLonger(refused, f, Mangle, EXTERNAL, rules, []);
    Then(refused, create + dest + make + ifs, main, f, Mangle, EXTERNAL, h, Some([]), made);
    EntryBeside(f, EXTERNAL);
    ThenAside(refused, create + dest + make + ifs + main, jump, f, Mangle, EXTERNAL, h, made);
  }

  lemma FastDestMade(refused: set<Rule>, c: Config, k: Capabilities, f: Family, h: Option<seq<Rule>>)
    requires PerformanceChain(c, k)
    ensures Makes(refused, TproxyExternalSetup(c, k, f), f, Mangle, TP_PRE_IP, h, Some(DestRules(refused, c, k, f, TP_PRE_IP)))
  {
    hide *;
    var create, jump := One(f, Mangle, EnsureChain(EXTERNAL)), One(f, Mangle, EnsureJump("PREROUTING", EXTERNAL));
    var dest, ifs := PerfDestSetup(c, k, f, TP_PRE_IP), Appends(f, Mangle, TP_PRE_IF, PerfIfRules(c));
    var make, main := One(f, Mangle, EnsureChain(TP_PRE_IF)), Appends(f, Mangle, EXTERNAL, PerfExternalRules(c, k, f));
    var d, made := TP_PRE_IP, Some(DestRules(refused, c, k, f, TP_PRE_IP));
    FastExternalParts(c, k, f);
    PreNamesApart();
    OneBeside(f, EXTERNAL, d);
    PerfDestMade(refused, c, k, f, d, h);
    AsideThen(refused, create, dest, f, Mangle, d, h, made);
    OneBeside(f, TP_PRE_IF, d);
    ThenAside(refused, create + dest, make, f, Mangle, d, h, made);
    AppendsAside(f, Mangle, TP_PRE_IF, PerfIfRules(c), Mangle, d);
    ThenAside(refused, create + dest + make, ifs, f, Mangle, d, h, made);
    AppendsAside(f, Mangle, EXTERNAL, PerfExternalRules(c, k, f), Mangle, d);
    ThenAside(refused, create + dest + make + ifs, main, f, Mangle, d, h, made);
    EntryBeside(f, d);
    ThenAside(refused, create + dest + make + ifs + main, jump, f, Mangle, d, h, made);
  }

  lemma FastIfMade(refused: set<Rule>, c: Config, k: Capabilities, f: Family, h: Option<seq<Rule>>)
    requires PerformanceChain(c, k)
    ensures Makes(refused, TproxyExternalSetup(c, k, f), f, Mangle, TP_PRE_IF, h, Some(PerfIfRules(c)))
  {
    hide *;
    var create, jump := One(f, Mangle, EnsureChain(EXTERNAL)), One(f, Mangle, EnsureJump("PREROUTING", EXTERNAL));
    var dest, rules := PerfDestSetup(c, k, f, TP_PRE_IP), PerfIfRules(c);
    var make, ifs := One(f, Mangle, EnsureChain(TP_PRE_IF)), Appends(f, Mangle, TP_PRE_IF, rules);
    var main := Appends(f, Mangle, EXTERNAL, PerfExternalRules(c, k, f));
    var d, made := TP_PRE_IF, Some(rules);
    assert [] + rules == rules;
    FastExternalParts(c, k, f);
    PreNamesApart();
    OneBeside(f, EXTERNAL, d);
    PerfDestAside(c, k, f, TP_PRE_IP, d);
    AsideBoth(create, dest, f, Mangle, d);
    MadeEmpty(refused, f, Mangle, d, h);
    AsideThen(refused, create + dest, make, f, Mangle, d, h, Some([]));
    MadeLonger(refused, f, Mangle, d, rules, []);
    Then(refused, create + dest + make, ifs, f, Mangle, d, h, Some([]), made);
    AppendsAside(f, Mangle, EXTERNAL, PerfExternalRules(c, k, f), Mangle, d);
    ThenAside(refused, create + dest + make + ifs, main, f, Mangle, d, h, made);
    EntryBeside(f, d);
    ThenAside(refused, create + dest + make + ifs + main, jump, f, Mangle, d, h, made);
  }

  // ----- what a packet meets -----

  /** A setup of TPROXY rules that ran to its end on tables of its family. */
  predicate Ran(refused: set<Rule>, w: World, f: Family, t: TableName, steps: seq<Step>) {
    HasTable(w, f, t) && Acceptable(refused, w, f, steps)
  }

  function ChainsAfter(refused: set<Rule>, w: World, f: Family, t: TableName, steps: seq<Step>): Chains
    requires Ran(refused, w, f, t, steps)
  {
    var v := DirectRun(refused, w, steps);
    if f in v && t in v[f] then v[f][t] else map[]
  }

  lemma ChainMade(refused: set<Rule>, w: World, f: Family, t: TableName, steps: seq<Step>, c: string, rules: seq<Rule>)
    requires Ran(refused, w, f, t, steps) && IsBoxCustomChain(c)
    requires Makes(refused, steps, f, t, c, Holding(w, f, t, c), Some(rules))
    ensures var chains := ChainsAfter(refused, w, f, t, steps); c in chains && chains[c] == rules
  {
    hide IsBoxCustomChain, Written, BuildsAll, Acceptable, DirectRun;
    RunWrites(refused, w, f, steps, t, c);
  }
}
