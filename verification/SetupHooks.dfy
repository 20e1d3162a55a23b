/**
 What each mode's setup puts in front of the built-in chains, and behind them.
 */
module SetupHooks {
  import opened Bytes
  import opened Netfilter
  import opened Batching
  import opened RuleConfig
  import opened RuleScripts
  import opened ChainContents
  import opened SetupContents
  import opened FastPolicy
  import opened InstalledPolicy
  import opened TeardownModes
  import opened SetupSuccess
  import opened Hooks

  // ----- DNS in nat -----

  /** The DNS chain a built-in chain of nat leads to. */
  function DnsHook(c: Config, k: Capabilities, f: Family, ch: string): Option<string> {
    if f == V6 && !k.ip6Nat then None
    else if c.dnsMode == DnsRedirect then Some(if ch == "PREROUTING" then HijackPre(f) else HijackOut(f))
    else if DnsToMihomo(c) && ch == "OUTPUT" then Some(ForwardPre(f))
    else None
  }

  function WithDns(c: Config, k: Capabilities, f: Family, ch: string, held: seq<Rule>): seq<Rule> {
    match DnsHook(c, k, f, ch) case None => held case Some(target) => WithJump(target, held)
  }

  predicate IsHook(ch: string) { ch == "PREROUTING" || ch == "OUTPUT" }

  lemma DnsNames(f: Family, ch: string)
    requires IsHook(ch)
    ensures ch != HijackPre(f) && ch != HijackOut(f) && ch != ForwardPre(f) && HijackPre(f) != HijackOut(f)
    ensures IsBoxCustomChain(HijackPre(f)) && IsBoxCustomChain(HijackOut(f)) && IsBoxCustomChain(ForwardPre(f))
    ensures !IsBoxCustomChain(ch)
    ensures EXTERNAL != HijackPre(f) && LOCAL != HijackOut(f) && LOCAL != ForwardPre(f)
  {
    assert IsBuiltin(ch);
    BuiltinsAreNotCustom(ch);
  }

  lemma Seven(a: seq<Step>, b: seq<Step>, d: seq<Step>, e: seq<Step>, g: seq<Step>, h: seq<Step>, i: seq<Step>)
    ensures a + b + d + e + g + h + i == a + (b + (d + e + g)) + h + i
    ensures a + b + d + e + g + h + i == a + (b + (d + e + g + h) + i)
  {
  }

  /** What fills the two chains. */
  function HijackFilling(c: Config, x: Context, f: Family): seq<Step> {
    Appends(f, Nat, HijackPre(f), DnsHijackRules(c, f, true))
      + One(f, Nat, InsertFirst(HijackOut(f), CoreBypassVariants(x), None))
      + Appends(f, Nat, HijackOut(f), DnsHijackRules(c, f, false))
  }

  lemma FillingAside(c: Config, x: Context, f: Family, ch: string)
    requires IsHook(ch)
    ensures Aside(HijackFilling(c, x, f), f, Nat, ch)
  {
    var pre, out := HijackPre(f), HijackOut(f);
    var d, e := Appends(f, Nat, pre, DnsHijackRules(c, f, true)), One(f, Nat, InsertFirst(out, CoreBypassVariants(x), None));
    var g := Appends(f, Nat, out, DnsHijackRules(c, f, false));
    assert HijackFilling(c, x, f) == d + e + g;
    hide *;
    DnsNames(f, ch);
    OneAside(f, Nat, InsertFirst(out, CoreBypassVariants(x), None), Nat, ch);
    AppendsAside(f, Nat, pre, DnsHijackRules(c, f, true), Nat, ch);
    AppendsAside(f, Nat, out, DnsHijackRules(c, f, false), Nat, ch);
    AsideBoth(d, e, f, Nat, ch);
    AsideBoth(d + e, g, f, Nat, ch);
  }

  lemma HijackAside(c: Config, x: Context, f: Family, ch: string)
    requires IsHook(ch)
    ensures Aside(HijackFilling(c, x, f), f, Nat, ch)
    ensures Aside(One(f, Nat, EnsureChain(HijackPre(f))), f, Nat, ch) && Aside(One(f, Nat, EnsureChain(HijackOut(f))), f, Nat, ch)
    ensures ch == "PREROUTING" ==> Aside(One(f, Nat, EnsureJump("OUTPUT", HijackOut(f))), f, Nat, ch)
    ensures ch == "OUTPUT" ==> Aside(One(f, Nat, EnsureJump("PREROUTING", HijackPre(f))), f, Nat, ch)
  {
    hide HijackPre, HijackOut, HijackFilling, Aside, One, IsBoxCustomChain, IsHook;
    DnsNames(f, ch);
    FillingAside(c, x, f, ch);
    OneAside(f, Nat, EnsureChain(HijackPre(f)), Nat, ch);
    OneAside(f, Nat, EnsureChain(HijackOut(f)), Nat, ch);
    if ch == "PREROUTING" {
      OneAside(f, Nat, EnsureJump("OUTPUT", HijackOut(f)), Nat, ch);
    }
    if ch == "OUTPUT" {
      OneAside(f, Nat, EnsureJump("PREROUTING", HijackPre(f)), Nat, ch);
    }
  }

  lemma HijackShape(c: Config, x: Context, f: Family)
    ensures var a, b := One(f, Nat, EnsureChain(HijackPre(f))), One(f, Nat, EnsureChain(HijackOut(f)));
      var h, i := One(f, Nat, EnsureJump("PREROUTING", HijackPre(f))), One(f, Nat, EnsureJump("OUTPUT", HijackOut(f)));
      var filling := HijackFilling(c, x, f);
      && DnsHijackSetup(c, x, f) == a + (b + filling) + h + i
      && DnsHijackSetup(c, x, f) == a + (b + (filling + h) + i)
  {
    hide One, Appends, DnsHijackRules, CoreBypassVariants, DnsHijackSetup, HijackPre, HijackOut;
    HijackParts(c, x, f);
    Seven(One(f, Nat, EnsureChain(HijackPre(f))), One(f, Nat, EnsureChain(HijackOut(f))),
          Appends(f, Nat, HijackPre(f), DnsHijackRules(c, f, true)),
          One(f, Nat, InsertFirst(HijackOut(f), CoreBypassVariants(x), None)),
          Appends(f, Nat, HijackOut(f), DnsHijackRules(c, f, false)),
          One(f, Nat, EnsureJump("PREROUTING", HijackPre(f))), One(f, Nat, EnsureJump("OUTPUT", HijackOut(f))));
  }

  lemma HijackPuts(refused: set<Rule>, c: Config, x: Context, f: Family, ch: string, held: seq<Rule>)
    requires IsHook(ch)
    ensures Puts(refused, f, DnsHijackSetup(c, x, f), Nat, ch, held,
                 WithJump(if ch == "PREROUTING" then HijackPre(f) else HijackOut(f), held))
  {
    var pre, out, filling := HijackPre(f), HijackOut(f), HijackFilling(c, x, f);
    var a, b := One(f, Nat, EnsureChain(pre)), One(f, Nat, EnsureChain(out));
    var h, i := One(f, Nat, EnsureJump("PREROUTING", pre)), One(f, Nat, EnsureJump("OUTPUT", out));
    hide *;
    DnsNames(f, ch);
    HijackShape(c, x, f);
    HijackAside(c, x, f, ch);
    if ch == "PREROUTING" {
      AsideBoth(b, filling, f, Nat, ch);
      AsidePuts(refused, f, b + filling, Nat, ch, held);
      MadeAndHooked(refused, f, pre, b + filling, Nat, ch, held, held);
      PutsThenAside(refused, f, a + (b + filling) + h, i, Nat, ch, held, WithJump(pre, held));
    } else {
      HookIs(ch);
      AsideBoth(filling, h, f, Nat, ch);
      AsidePuts(refused, f, filling + h, Nat, ch, held);
      MadeAndHooked(refused, f, out, filling + h, Nat, ch, held, held);
      AsideThenPuts(refused, f, a, b + (filling + h) + i, Nat, ch, held, WithJump(out, held));
    }
  }

  lemma HookIs(ch: string)
    requires IsHook(ch) && ch != "PREROUTING"
    ensures ch == "OUTPUT"
  {
  }

  function ForwardFilling(c: Config, x: Context, f: Family): seq<Step> {
    One(f, Nat, InsertFirst(ForwardPre(f), CoreBypassVariants(x), None)) + Appends(f, Nat, ForwardPre(f), DnsForwardRules(c, f))
  }

  lemma ForwardShape(c: Config, x: Context, f: Family)
    ensures DnsForwardSetup(c, x, f)
         == One(f, Nat, EnsureChain(ForwardPre(f))) + ForwardFilling(c, x, f) + One(f, Nat, EnsureJump("OUTPUT", ForwardPre(f)))
  {
    hide One, Appends, DnsForwardRules, CoreBypassVariants, ForwardPre;
    var a, b := One(f, Nat, EnsureChain(ForwardPre(f))), One(f, Nat, InsertFirst(ForwardPre(f), CoreBypassVariants(x), None));
    var d := Appends(f, Nat, ForwardPre(f), DnsForwardRules(c, f));
    assert a + b + d == a + (b + d);
  }

  lemma ForwardAside(c: Config, x: Context, f: Family, ch: string)
    requires IsHook(ch)
    ensures Aside(ForwardFilling(c, x, f), f, Nat, ch)
    ensures ch == "PREROUTING" ==> Aside(DnsForwardSetup(c, x, f), f, Nat, ch)
  {
    var pre := ForwardPre(f);
    var a, b := One(f, Nat, EnsureChain(pre)), One(f, Nat, InsertFirst(pre, CoreBypassVariants(x), None));
    var d, e := Appends(f, Nat, pre, DnsForwardRules(c, f)), One(f, Nat, EnsureJump("OUTPUT", pre));
    assert ForwardFilling(c, x, f) == b + d;
    ForwardShape(c, x, f);
    hide ForwardPre, ForwardFilling, DnsForwardSetup, Aside, One, Appends, IsBoxCustomChain, IsHook, DnsForwardRules;
    DnsNames(f, ch);
    OneAside(f, Nat, EnsureChain(pre), Nat, ch);
    OneAside(f, Nat, InsertFirst(pre, CoreBypassVariants(x), None), Nat, ch);
    AppendsAside(f, Nat, pre, DnsForwardRules(c, f), Nat, ch);
    AsideBoth(b, d, f, Nat, ch);
    if ch == "PREROUTING" {
      OneAside(f, Nat, EnsureJump("OUTPUT", pre), Nat, ch);
      AsideBoth(a, b + d, f, Nat, ch);
      AsideBoth(a + (b + d), e, f, Nat, ch);
    }
  }

  lemma ForwardPuts(refused: set<Rule>, c: Config, x: Context, f: Family, ch: string, held: seq<Rule>)
    requires IsHook(ch)
    ensures Puts(refused, f, DnsForwardSetup(c, x, f), Nat, ch, held, if ch == "OUTPUT" then WithJump(ForwardPre(f), held) else held)
  {
    hide *;
    DnsNames(f, ch);
    ForwardShape(c, x, f);
    ForwardAside(c, x, f, ch);
    if ch == "OUTPUT" {
      AsidePuts(refused, f, ForwardFilling(c, x, f), Nat, ch, held);
      MadeAndHooked(refused, f, ForwardPre(f), ForwardFilling(c, x, f), Nat, ch, held, held);
    } else {
      HookElse(ch);
      AsidePuts(refused, f, DnsForwardSetup(c, x, f), Nat, ch, held);
    }
  }

  lemma HookElse(ch: string)
    requires IsHook(ch) && ch != "OUTPUT"
    ensures ch == "PREROUTING"
  {
  }

  lemma DnsPuts(refused: set<Rule>, c: Config, k: Capabilities, x: Context, f: Family, ch: string, held: seq<Rule>)
    requires IsHook(ch)
    ensures Puts(refused, f, DnsNatSetup(c, k, x, f), Nat, ch, held, WithDns(c, k, f, ch, held))
  {
    hide Puts, DnsHijackSetup, DnsForwardSetup, WithJump, Aside;
    HijackPuts(refused, c, x, f, ch, held);
    ForwardPuts(refused, c, x, f, ch, held);
    assert Aside([], f, Nat, ch) by { NothingAside(f, Nat, ch); }
    AsidePuts(refused, f, [], Nat, ch, held);
  }

  lemma NothingAside(f: Family, t: TableName, ch: string)
    ensures Aside([], f, t, ch)
  {
  }

  // ----- the redirect start -----

  lemma MainNames(f: Family, ch: string)
    requires IsHook(ch)
    ensures ch != EXTERNAL && ch != LOCAL && ch != LocalIpChain(f) && ch != DIVERT
    ensures ch != TP_PRE_IP && ch != TP_PRE_IF && ch != TP_OUT_IP && ch != TP_OUT_APP
    ensures ch != TunPreChain(f) && ch != TunOutChain(f)
    ensures IsBoxCustomChain(EXTERNAL) && IsBoxCustomChain(LOCAL) && IsBoxCustomChain(DIVERT)
    ensures IsBoxCustomChain(TunPreChain(f)) && IsBoxCustomChain(TunOutChain(f))
  {
  }

  lemma EndsAside(f: Family, t: TableName, ch: string)
    requires IsHook(ch)
    ensures Aside(One(f, t, EnsureChain(EXTERNAL)), f, t, ch) && Aside(One(f, t, EnsureChain(LOCAL)), f, t, ch)
    ensures ch == "OUTPUT" ==> Aside(One(f, t, EnsureJump("PREROUTING", EXTERNAL)), f, t, ch)
    ensures ch == "PREROUTING" ==> Aside(One(f, t, EnsureJump("OUTPUT", LOCAL)), f, t, ch)
  {
    MainNames(f, ch);
  }

  lemma CoreAside(x: Context, f: Family, t: TableName, ch: string)
    requires IsHook(ch)
    ensures Aside(One(f, t, InsertFirst(LOCAL, CoreBypassVariants(x), Some(Rule(Return, mark := Some(FWMARK))))), f, t, ch)
  {
    MainNames(f, ch);
    hide CoreBypassVariants;
  }

  /** What fills the external chain of nat, in front of the DNS chains and behind. */
  lemma ExternalShape(c: Config, k: Capabilities, x: Context, f: Family)
    ensures RedirectExternalSetup(c, k, x, f)
         == One(f, Nat, EnsureChain(EXTERNAL))
            + (Appends(f, Nat, EXTERNAL, ReplyBypass(c, k)) + DnsNatSetup(c, k, x, f)
               + (LocalIpSetup(c, k, f, Nat) + Appends(f, Nat, EXTERNAL, ExternalBody(c, k, f, ActRedirect))))
            + One(f, Nat, EnsureJump("PREROUTING", EXTERNAL))
  {
    hide One, Appends, ReplyBypass, DnsNatSetup, LocalIpSetup, ExternalBody;
    var a, b, d := One(f, Nat, EnsureChain(EXTERNAL)), Appends(f, Nat, EXTERNAL, ReplyBypass(c, k)), DnsNatSetup(c, k, x, f);
    var e, g := LocalIpSetup(c, k, f, Nat), Appends(f, Nat, EXTERNAL, ExternalBody(c, k, f, ActRedirect));
    assert a + b + d + e + g == a + (b + d + (e + g));
  }

  lemma ExternalFillingPuts(refused: set<Rule>, c: Config, k: Capabilities, x: Context, f: Family, ch: string, held: seq<Rule>)
    requires IsHook(ch)
    ensures var filling := Appends(f, Nat, EXTERNAL, ReplyBypass(c, k)) + DnsNatSetup(c, k, x, f)
                           + (LocalIpSetup(c, k, f, Nat) + Appends(f, Nat, EXTERNAL, ExternalBody(c, k, f, ActRedirect)));
      Puts(refused, f, filling, Nat, ch, held, WithDns(c, k, f, ch, held))
  {
    var a, dns := Appends(f, Nat, EXTERNAL, ReplyBypass(c, k)), DnsNatSetup(c, k, x, f);
    var local, more := LocalIpSetup(c, k, f, Nat), Appends(f, Nat, EXTERNAL, ExternalBody(c, k, f, ActRedirect));
    hide *;
    MainNames(f, ch);
    AppendsAside(f, Nat, EXTERNAL, ReplyBypass(c, k), Nat, ch);
    AppendsAside(f, Nat, EXTERNAL, ExternalBody(c, k, f, ActRedirect), Nat, ch);
    LocalIpAside(c, k, f, Nat, Nat, ch);
    AsideBoth(local, more, f, Nat, ch);
    DnsPuts(refused, c, k, x, f, ch, held);
    AsideThenPuts(refused, f, a, dns, Nat, ch, held, WithDns(c, k, f, ch, held));
    PutsThenAside(refused, f, a + dns, local + more, Nat, ch, held, WithDns(c, k, f, ch, held));
  }

  lemma RedirectExternalPuts(refused: set<Rule>, c: Config, k: Capabilities, x: Context, f: Family, ch: string, held: seq<Rule>)
    requires IsHook(ch)
    ensures var dns := WithDns(c, k, f, ch, held);
      Puts(refused, f, RedirectExternalSetup(c, k, x, f), Nat, ch, held, if ch == "PREROUTING" then WithJump(EXTERNAL, dns) else dns)
  {
    var filling := Appends(f, Nat, EXTERNAL, ReplyBypass(c, k)) + DnsNatSetup(c, k, x, f)
                   + (LocalIpSetup(c, k, f, Nat) + Appends(f, Nat, EXTERNAL, ExternalBody(c, k, f, ActRedirect)));
    var made, jump := One(f, Nat, EnsureChain(EXTERNAL)), One(f, Nat, EnsureJump("PREROUTING", EXTERNAL));
    var dns := WithDns(c, k, f, ch, held);
    hide *;
    MainNames(f, ch);
    ExternalShape(c, k, x, f);
    ExternalFillingPuts(refused, c, k, x, f, ch, held);
    if ch == "PREROUTING" {
      MadeAndHooked(refused, f, EXTERNAL, filling, Nat, ch, held, dns);
    } else {
      HookIs(ch);
      EndsAside(f, Nat, ch);
      AsideThenPuts(refused, f, made, filling, Nat, ch, held, dns);
      PutsThenAside(refused, f, made + filling, jump, Nat, ch, held, dns);
    }
  }

  lemma LocalSideShape(x: Context, f: Family, t: TableName, filling: seq<Step>)
    ensures LocalChainStart(x, f, t) + filling
         == One(f, t, EnsureChain(LOCAL))
            + (One(f, t, InsertFirst(LOCAL, CoreBypassVariants(x), Some(Rule(Return, mark := Some(FWMARK))))) + filling)
  {
    hide One, CoreBypassVariants;
  }

  /** The host's own side: the chain made, begun with the core's bypass and hooked in. */
  lemma LocalSidePuts(refused: set<Rule>, x: Context, f: Family, t: TableName, filling: seq<Step>, ch: string, held: seq<Rule>)
    requires IsHook(ch) && Aside(filling, f, t, ch)
    ensures Puts(refused, f, LocalChainStart(x, f, t) + filling + One(f, t, EnsureJump("OUTPUT", LOCAL)), t, ch, held,
                 if ch == "OUTPUT" then WithJump(LOCAL, held) else held)
  {
    var made, jump := One(f, t, EnsureChain(LOCAL)), One(f, t, EnsureJump("OUTPUT", LOCAL));
    var core := One(f, t, InsertFirst(LOCAL, CoreBypassVariants(x), Some(Rule(Return, mark := Some(FWMARK)))));
    hide *;
    LocalSideShape(x, f, t, filling);
    CoreAside(x, f, t, ch);
    AsideBoth(core, filling, f, t, ch);
    if ch == "OUTPUT" {
      MainNames(f, ch);
      AsidePuts(refused, f, core + filling, t, ch, held);
      MadeAndHooked(refused, f, LOCAL, core + filling, t, ch, held, held);
    } else {
      HookElse(ch);
      EndsAside(f, t, ch);
      AsideBoth(made, core + filling, f, t, ch);
      AsideBoth(made + (core + filling), jump, f, t, ch);
      AsidePuts(refused, f, made + (core + filling) + jump, t, ch, held);
    }
  }

  /** What the redirect start leaves of a built-in chain of nat. */
  function WithRedirect(c: Config, k: Capabilities, f: Family, ch: string, held: seq<Rule>): seq<Rule> {
    WithJump(if ch == "PREROUTING" then EXTERNAL else LOCAL, WithDns(c, k, f, ch, held))
  }

  lemma StartRedirectPuts(refused: set<Rule>, c: Config, k: Capabilities, x: Context, f: Family, ch: string, held: seq<Rule>)
    requires IsHook(ch) && RedirectSupported(k, f)
    ensures Puts(refused, f, StartRedirect(c, k, x, f), Nat, ch, held, WithRedirect(c, k, f, ch, held))
  {
    var a, b, e := RedirectExternalSetup(c, k, x, f), RedirectLocalSetup(c, k, x, f), LoopbackRejectSetup(x, f, c.redirPort);
    var dns, main := WithDns(c, k, f, ch, held), Appends(f, Nat, LOCAL, RedirectLocalRules(c, k, x, f));
    var out := WithRedirect(c, k, f, ch, held);
    assert StartRedirect(c, k, x, f) == a + b + e;
    assert b == LocalChainStart(x, f, Nat) + main + One(f, Nat, EnsureJump("OUTPUT", LOCAL));
    assert out == WithJump(if ch == "PREROUTING" then EXTERNAL else LOCAL, dns);
    hide *;
    MainNames(f, ch);
    RedirectExternalPuts(refused, c, k, x, f, ch, held);
    AppendsAside(f, Nat, LOCAL, RedirectLocalRules(c, k, x, f), Nat, ch);
    FilterAside(c, x, f, Nat, ch);
    var middle := if ch == "PREROUTING" then WithJump(EXTERNAL, dns) else dns;
    LocalSidePuts(refused, x, f, Nat, main, ch, middle);
    if ch != "OUTPUT" {
      HookElse(ch);
    }
    PutsThen(refused, f, a, b, Nat, ch, held, middle, out);
    PutsThenAside(refused, f, a + b, e, Nat, ch, held, out);
  }

  // ----- the TPROXY start, in nat -----

  predicate AnswersIcmp(c: Config, f: Family) { f == V4 && c.fakeIp4.Some? && c.coreName in {"mihomo", "sing-box"} }

  /** The rule for fake addresses goes in front, if the kernel takes it. */
  function WithIcmp(refused: set<Rule>, c: Config, f: Family, held: seq<Rule>): seq<Rule> {
    if !AnswersIcmp(c, f) || FakeIpIcmp(c.fakeIp4.value) in held || FakeIpIcmp(c.fakeIp4.value) in refused then held
    else [FakeIpIcmp(c.fakeIp4.value)] + held
  }

  /** One operation on the chain itself. */
  lemma OnePuts(refused: set<Rule>, f: Family, t: TableName, op: Op, ch: string, held: seq<Rule>)
    requires Leads(Step(f, t, op), t, ch) == {}
    ensures Puts(refused, f, One(f, t, op), t, ch, held, HookedBy(refused, Step(f, t, op), t, ch, held))
  {
    var s := Step(f, t, op);
    assert One(f, t, op) == [s] && [s][1..] == [];
    assert HooksOf(refused, [s], t, ch, held) == HooksOf(refused, [], t, ch, HookedBy(refused, s, t, ch, held));
  }

  lemma IcmpPuts(refused: set<Rule>, c: Config, f: Family, ch: string, held: seq<Rule>)
    requires IsHook(ch)
    ensures Puts(refused, f, FakeIpIcmpSetup(c, f), Nat, ch, held, WithIcmp(refused, c, f, held))
  {
    if AnswersIcmp(c, f) {
      var r := FakeIpIcmp(c.fakeIp4.value);
      var a, b := One(f, Nat, EnsureInsert("OUTPUT", r)), One(f, Nat, EnsureInsert("PREROUTING", r));
      OnePuts(refused, f, Nat, EnsureInsert(ch, r), ch, held);
      hide Puts, One;
      if ch == "OUTPUT" {
        OneAside(f, Nat, EnsureInsert("PREROUTING", r), Nat, ch);
        PutsThenAside(refused, f, a, b, Nat, ch, held, WithIcmp(refused, c, f, held));
      } else {
        OneAside(f, Nat, EnsureInsert("OUTPUT", r), Nat, ch);
        AsideThenPuts(refused, f, a, b, Nat, ch, held, WithIcmp(refused, c, f, held));
      }
    } else {
      NothingAside(f, Nat, ch);
      AsidePuts(refused, f, [], Nat, ch, held);
    }
  }

  lemma DivertOffNat(c: Config, k: Capabilities, f: Family, ch: string)
    ensures Aside(DivertSetup(c, k, f), f, Nat, ch)
  {
    hide PerformanceChain;
  }

  /** What a TPROXY start leaves of a built-in chain of nat. */
  function WithTproxy(refused: set<Rule>, c: Config, k: Capabilities, f: Family, ch: string, held: seq<Rule>): seq<Rule> {
    WithIcmp(refused, c, f, WithDns(c, k, f, ch, held))
  }

  lemma TproxyRestPuts(refused: set<Rule>, c: Config, k: Capabilities, x: Context, f: Family, ch: string, held: seq<Rule>)
    requires IsHook(ch)
    ensures Puts(refused, f, TproxyRest(c, k, x, f), Nat, ch, held, WithTproxy(refused, c, k, f, ch, held))
  {
    var d, q, n, i := DivertSetup(c, k, f), QuicSetup(c, f), DnsNatSetup(c, k, x, f), FakeIpIcmpSetup(c, f);
    var r := if c.mode != Enhance then LoopbackRejectSetup(x, f, c.tproxyPort) else [];
    var dns := WithDns(c, k, f, ch, held);
    assert TproxyRest(c, k, x, f) == d + q + r + n + i;
    assert WithTproxy(refused, c, k, f, ch, held) == WithIcmp(refused, c, f, dns);
    hide *;
    DivertOffNat(c, k, f, ch);
    FilterAside(c, x, f, Nat, ch);
    NothingAside(f, Nat, ch);
    AsideBoth(d, q, f, Nat, ch);
    AsideBoth(d + q, r, f, Nat, ch);
    DnsPuts(refused, c, k, x, f, ch, held);
    AsideThenPuts(refused, f, d + q + r, n, Nat, ch, held, dns);
    IcmpPuts(refused, c, f, ch, dns);
    PutsThen(refused, f, d + q + r + n, i, Nat, ch, held, dns, WithIcmp(refused, c, f, dns));
  }

  lemma StartTproxyPuts(refused: set<Rule>, c: Config, k: Capabilities, x: Context, f: Family, ch: string, held: seq<Rule>)
    requires IsHook(ch) && TproxySupported(k, f)
    ensures Puts(refused, f, StartTproxy(c, k, x, f), Nat, ch, held, WithTproxy(refused, c, k, f, ch, held))
  {
    var a, b := TproxyExternalSetup(c, k, f), TproxyLocalSetup(c, k, x, f);
    hide *;
    StartTproxySplit(c, k, x, f);
    RoutingAside(f, Nat, ch);
    TproxyExternalNat(c, k, f, ch);
    TproxyLocalNat(c, k, x, f, ch);
    AsideBoth(a, b, f, Nat, ch);
    TproxyRestPuts(refused, c, k, x, f, ch, held);
    AsideThenPuts(refused, f, a + b, TproxyRest(c, k, x, f), Nat, ch, held, WithTproxy(refused, c, k, f, ch, held));
    AsideThenPuts(refused, f, TproxyRouting(f), a + b + TproxyRest(c, k, x, f), Nat, ch, held, WithTproxy(refused, c, k, f, ch, held));
  }

  // ----- the modes, in nat -----

  predicate StartsRedirect(c: Config, k: Capabilities, f: Family) { RedirectMode(c) && RedirectSupported(k, f) }

  predicate StartsTproxy(c: Config, k: Capabilities, f: Family) { TproxyMode(c) && TproxySupported(k, f) }

  /** A built-in chain of nat behind a mode's setup. */
  function NatHooks(refused: set<Rule>, c: Config, k: Capabilities, f: Family, ch: string, held: seq<Rule>): seq<Rule> {
    var one := if StartsRedirect(c, k, f) then WithRedirect(c, k, f, ch, held) else held;
    if StartsTproxy(c, k, f) then WithTproxy(refused, c, k, f, ch, one) else one
  }

  lemma HalfPuts(refused: set<Rule>, c: Config, k: Capabilities, x: Context, f: Family, ch: string, held: seq<Rule>)
    requires IsHook(ch)
    ensures Puts(refused, f, StartRedirect(c, k, x, f), Nat, ch, held,
                 if RedirectSupported(k, f) then WithRedirect(c, k, f, ch, held) else held)
    ensures Puts(refused, f, StartTproxy(c, k, x, f), Nat, ch, held,
                 if TproxySupported(k, f) then WithTproxy(refused, c, k, f, ch, held) else held)
  {
    assert !RedirectSupported(k, f) ==> StartRedirect(c, k, x, f) == [];
    assert !TproxySupported(k, f) ==> StartTproxy(c, k, x, f) == [];
    hide *;
    NothingAside(f, Nat, ch);
    AsidePuts(refused, f, [], Nat, ch, held);
    if RedirectSupported(k, f) {
      StartRedirectPuts(refused, c, k, x, f, ch, held);
    }
    if TproxySupported(k, f) {
      StartTproxyPuts(refused, c, k, x, f, ch, held);
    }
  }

  lemma RedirectNatPuts(refused: set<Rule>, c: Config, k: Capabilities, x: Context, f: Family, ch: string, held: seq<Rule>)
    requires IsHook(ch) && RedirectMode(c) && !TproxyMode(c)
    ensures Puts(refused, f, ModeSetup(c, k, x, f), Nat, ch, held,
                 if RedirectSupported(k, f) then WithRedirect(c, k, f, ch, held) else held)
  {
    var out := if RedirectSupported(k, f) then WithRedirect(c, k, f, ch, held) else held;
    assert c.mode == RedirectOnly || c.mode == Mixed;
    hide *;
    RedirectModes(c, k, x, f);
    HalfPuts(refused, c, k, x, f, ch, held);
    if c.mode == Mixed {
      FilterAside(c, x, f, Nat, ch);
      AsideThenPuts(refused, f, ForwardSetup(c, f), StartRedirect(c, k, x, f), Nat, ch, held, out);
    }
  }

  lemma EnhanceNatPuts(refused: set<Rule>, c: Config, k: Capabilities, x: Context, f: Family, ch: string, held: seq<Rule>)
    requires IsHook(ch) && c.mode == Enhance
    ensures var one := if RedirectSupported(k, f) then WithRedirect(c, k, f, ch, held) else held;
      Puts(refused, f, ModeSetup(c, k, x, f), Nat, ch, held,
           if TproxySupported(k, f) then WithTproxy(refused, c, k, f, ch, one) else one)
  {
    var one := if RedirectSupported(k, f) then WithRedirect(c, k, f, ch, held) else held;
    var two := if TproxySupported(k, f) then WithTproxy(refused, c, k, f, ch, one) else one;
    assert RedirectMode(c);
    hide *;
    RedirectModes(c, k, x, f);
    HalfPuts(refused, c, k, x, f, ch, held);
    HalfPuts(refused, c, k, x, f, ch, one);
    PutsThen(refused, f, StartRedirect(c, k, x, f), StartTproxy(c, k, x, f), Nat, ch, held, one, two);
  }

  lemma TproxyNatPuts(refused: set<Rule>, c: Config, k: Capabilities, x: Context, f: Family, ch: string, held: seq<Rule>)
    requires IsHook(ch) && c.mode == TproxyOnly
    ensures Puts(refused, f, ModeSetup(c, k, x, f), Nat, ch, held,
                 if TproxySupported(k, f) then WithTproxy(refused, c, k, f, ch, held) else held)
  {
    assert ModeSetup(c, k, x, f) == StartTproxy(c, k, x, f);
    hide *;
    HalfPuts(refused, c, k, x, f, ch, held);
  }

  lemma NatPuts(refused: set<Rule>, c: Config, k: Capabilities, x: Context, f: Family, ch: string, held: seq<Rule>)
    requires IsHook(ch) && (RedirectMode(c) || TproxyMode(c))
    ensures Puts(refused, f, ModeSetup(c, k, x, f), Nat, ch, held, NatHooks(refused, c, k, f, ch, held))
  {
    hide Puts, WithRedirect, WithTproxy, ModeSetup, IsHook, RedirectSupported, TproxySupported;
    match c.mode
    case RedirectOnly => RedirectNatPuts(refused, c, k, x, f, ch, held);
    case Mixed => RedirectNatPuts(refused, c, k, x, f, ch, held);
    case TproxyOnly => TproxyNatPuts(refused, c, k, x, f, ch, held);
    case Enhance => EnhanceNatPuts(refused, c, k, x, f, ch, held);
  }

  // ----- mangle -----

  predicate IsDivertHeld(refused: set<Rule>, held: seq<Rule>) { DivertJump() in held || DivertJump() in refused }

  /** The jump to the divert chain goes in front, if the kernel takes it. */
  function WithDivert(refused: set<Rule>, c: Config, k: Capabilities, held: seq<Rule>): seq<Rule> {
    if !Diverts(c, k) then Without(Without(held, DivertJump()), LegacyDivertJump())
    else if IsDivertHeld(refused, held) then held else [DivertJump()] + held
  }

  function MangleHooks(refused: set<Rule>, c: Config, k: Capabilities, ch: string, held: seq<Rule>): seq<Rule> {
    if ch == "PREROUTING" then WithDivert(refused, c, k, WithJump(EXTERNAL, held)) else WithJump(LOCAL, held)
  }

  lemma DivertStepPuts(refused: set<Rule>, f: Family, held: seq<Rule>, filling: seq<Step>)
    requires Aside(filling, f, Mangle, "PREROUTING")
    ensures Puts(refused, f, One(f, Mangle, EnsureChain(DIVERT)) + filling + One(f, Mangle, EnsureInsert("PREROUTING", DivertJump())),
                 Mangle, "PREROUTING", held, if IsDivertHeld(refused, held) then held else [DivertJump()] + held)
  {
    var t, c := Mangle, "PREROUTING";
    var made, jump := Step(f, t, EnsureChain(DIVERT)), Step(f, t, EnsureInsert(c, DivertJump()));
    assert One(f, t, EnsureChain(DIVERT)) + filling + One(f, t, EnsureInsert(c, DivertJump())) == [made] + (filling + [jump]);
    assert [jump][1..] == [] && Leads(jump, t, c) == {(t, DIVERT)};
    assert HooksOf(refused, [jump], t, c, held) == HooksOf(refused, [], t, c, HookedBy(refused, jump, t, c, held));
    assert Lands(f, [jump], {(t, DIVERT)}, t, c);
    assert IsBoxCustomChain(DIVERT);
    hide HookedBy, Leads, IsBoxCustomChain;
    AsidePuts(refused, f, filling, t, c, held);
    HooksConcat(refused, filling, [jump], t, c, held);
    LandsMore(f, filling, {}, {(t, DIVERT)}, t, c);
    LandsThen(f, filling, [jump], {(t, DIVERT)}, t, c);
    MakesChain(refused, f, DIVERT, t, c, held, filling + [jump]);
  }

  lemma DivertGonePuts(refused: set<Rule>, f: Family, held: seq<Rule>)
    ensures Puts(refused, f, DivertCleanup(f), Mangle, "PREROUTING", held, Without(Without(held, DivertJump()), LegacyDivertJump()))
  {
    var c := "PREROUTING";
    var a, b := One(f, Mangle, DelRule(c, DivertJump())), One(f, Mangle, DelRule(c, LegacyDivertJump()));
    var d := One(f, Mangle, CleanupChain(DIVERT));
    OnePuts(refused, f, Mangle, DelRule(c, DivertJump()), c, held);
    OnePuts(refused, f, Mangle, DelRule(c, LegacyDivertJump()), c, Without(held, DivertJump()));
    OneAside(f, Mangle, CleanupChain(DIVERT), Mangle, c);
    hide Puts, Without, DivertJump, LegacyDivertJump, One;
    var one := Without(held, DivertJump());
    PutsThen(refused, f, a, b, Mangle, c, held, one, Without(one, LegacyDivertJump()));
    PutsThenAside(refused, f, a + b, d, Mangle, c, held, Without(one, LegacyDivertJump()));
  }

  lemma DivertPuts(refused: set<Rule>, c: Config, k: Capabilities, f: Family, held: seq<Rule>)
    ensures Puts(refused, f, DivertSetup(c, k, f), Mangle, "PREROUTING", held, WithDivert(refused, c, k, held))
  {
    var filling := Appends(f, Mangle, DIVERT, [Rule(SetMark(FWMARK)), Rule(Accept)]);
    AppendsAside(f, Mangle, DIVERT, [Rule(SetMark(FWMARK)), Rule(Accept)], Mangle, "PREROUTING");
    hide Puts, PerformanceChain, Appends, One, DivertJump, LegacyDivertJump, Aside, Without, IsDivertHeld, DivertCleanup;
    DivertStepPuts(refused, f, held, filling);
    DivertGonePuts(refused, f, held);
  }

  lemma FastFillingAside(c: Config, k: Capabilities, f: Family, ch: string)
    requires IsHook(ch)
    ensures Aside(PerfDestSetup(c, k, f, TP_PRE_IP) + (One(f, Mangle, EnsureChain(TP_PRE_IF)) + Appends(f, Mangle, TP_PRE_IF, PerfIfRules(c)))
                  + Appends(f, Mangle, EXTERNAL, PerfExternalRules(c, k, f)), f, Mangle, ch)
  {
    hide *;
    MainNames(f, ch);
    PerfDestAside(c, k, f, TP_PRE_IP, ch);
    AppendsAside(f, Mangle, TP_PRE_IF, PerfIfRules(c), Mangle, ch);
    AppendsAside(f, Mangle, EXTERNAL, PerfExternalRules(c, k, f), Mangle, ch);
    AsideBoth(PerfDestSetup(c, k, f, TP_PRE_IP), One(f, Mangle, EnsureChain(TP_PRE_IF)) + Appends(f, Mangle, TP_PRE_IF, PerfIfRules(c)),
              f, Mangle, ch);
    AsideBoth(PerfDestSetup(c, k, f, TP_PRE_IP) + (One(f, Mangle, EnsureChain(TP_PRE_IF)) + Appends(f, Mangle, TP_PRE_IF, PerfIfRules(c))),
              Appends(f, Mangle, EXTERNAL, PerfExternalRules(c, k, f)), f, Mangle, ch);
  }

  lemma SlowFillingAside(c: Config, k: Capabilities, f: Family, ch: string)
    requires IsHook(ch)
    ensures Aside(Appends(f, Mangle, EXTERNAL, ExternalPrefix(c, k, f, ActTproxy)) + LocalIpSetup(c, k, f, Mangle)
                  + Appends(f, Mangle, EXTERNAL, ExternalBody(c, k, f, ActTproxy)), f, Mangle, ch)
  {
    var a, b := Appends(f, Mangle, EXTERNAL, ExternalPrefix(c, k, f, ActTproxy)), Appends(f, Mangle, EXTERNAL, ExternalBody(c, k, f, ActTproxy));
    hide *;
    MainNames(f, ch);
    AppendsAside(f, Mangle, EXTERNAL, ExternalPrefix(c, k, f, ActTproxy), Mangle, ch);
    AppendsAside(f, Mangle, EXTERNAL, ExternalBody(c, k, f, ActTproxy), Mangle, ch);
    LocalIpAside(c, k, f, Mangle, Mangle, ch);
    AsideBoth(a, LocalIpSetup(c, k, f, Mangle), f, Mangle, ch);
    AsideBoth(a + LocalIpSetup(c, k, f, Mangle), b, f, Mangle, ch);
  }

  /** The external setup, standard or fast, in one shape. */
  function ExternalFilling(c: Config, k: Capabilities, f: Family): seq<Step> {
    if PerformanceChain(c, k) then
      PerfDestSetup(c, k, f, TP_PRE_IP) + (One(f, Mangle, EnsureChain(TP_PRE_IF)) + Appends(f, Mangle, TP_PRE_IF, PerfIfRules(c)))
        + Appends(f, Mangle, EXTERNAL, PerfExternalRules(c, k, f))
    else
      Appends(f, Mangle, EXTERNAL, ExternalPrefix(c, k, f, ActTproxy)) + LocalIpSetup(c, k, f, Mangle)
        + Appends(f, Mangle, EXTERNAL, ExternalBody(c, k, f, ActTproxy))
  }

  lemma TproxyExternalShape(c: Config, k: Capabilities, f: Family)
    ensures TproxyExternalSetup(c, k, f)
         == One(f, Mangle, EnsureChain(EXTERNAL)) + ExternalFilling(c, k, f) + One(f, Mangle, EnsureJump("PREROUTING", EXTERNAL))
  {
    hide One, Appends, PerfDestSetup, PerfIfRules, PerfExternalRules, ExternalPrefix, LocalIpSetup, ExternalBody, PerformanceChain;
    var make := One(f, Mangle, EnsureChain(EXTERNAL));
    if PerformanceChain(c, k) {
      var d, i := PerfDestSetup(c, k, f, TP_PRE_IP), One(f, Mangle, EnsureChain(TP_PRE_IF));
      var j, m := Appends(f, Mangle, TP_PRE_IF, PerfIfRules(c)), Appends(f, Mangle, EXTERNAL, PerfExternalRules(c, k, f));
      assert make + d + i + j + m == make + (d + (i + j) + m);
    } else {
      var a, l := Appends(f, Mangle, EXTERNAL, ExternalPrefix(c, k, f, ActTproxy)), LocalIpSetup(c, k, f, Mangle);
      var b := Appends(f, Mangle, EXTERNAL, ExternalBody(c, k, f, ActTproxy));
      assert make + a + l + b == make + (a + l + b);
    }
  }

  lemma TproxyExternalPuts(refused: set<Rule>, c: Config, k: Capabilities, f: Family, ch: string, held: seq<Rule>)
    requires IsHook(ch)
    ensures Puts(refused, f, TproxyExternalSetup(c, k, f), Mangle, ch, held, if ch == "PREROUTING" then WithJump(EXTERNAL, held) else held)
  {
    var filling := ExternalFilling(c, k, f);
    var made, jump := One(f, Mangle, EnsureChain(EXTERNAL)), One(f, Mangle, EnsureJump("PREROUTING", EXTERNAL));
    assert Aside(filling, f, Mangle, ch) by {
      hide PerfDestSetup, Appends, One, LocalIpSetup, Aside;
      FastFillingAside(c, k, f, ch);
      SlowFillingAside(c, k, f, ch);
    }
    hide *;
    MainNames(f, ch);
    TproxyExternalShape(c, k, f);
    AsidePuts(refused, f, filling, Mangle, ch, held);
    if ch == "PREROUTING" {
      MadeAndHooked(refused, f, EXTERNAL, filling, Mangle, ch, held, held);
    } else {
      HookIs(ch);
      EndsAside(f, Mangle, ch);
      AsideThenPuts(refused, f, made, filling, Mangle, ch, held, held);
      PutsThenAside(refused, f, made + filling, jump, Mangle, ch, held, held);
    }
  }

  lemma TproxyLocalPuts(refused: set<Rule>, c: Config, k: Capabilities, x: Context, f: Family, ch: string, held: seq<Rule>)
    requires IsHook(ch)
    ensures Puts(refused, f, TproxyLocalSetup(c, k, x, f), Mangle, ch, held, if ch == "OUTPUT" then WithJump(LOCAL, held) else held)
  {
    hide *;
    MainNames(f, ch);
    LocalSetupSplit(c, k, x, f);
    AppendsAside(f, Mangle, LOCAL, TproxyLocalRules(c, k, x, f), Mangle, ch);
    FastLocalAside(c, k, x, f, ch);
    var middle := if PerformanceChain(c, k) then FastLocalSteps(c, k, x, f) else Appends(f, Mangle, LOCAL, TproxyLocalRules(c, k, x, f));
    LocalSidePuts(refused, x, f, Mangle, middle, ch, held);
  }

  lemma BehindDivertOff(c: Config, k: Capabilities, x: Context, f: Family, ch: string)
    ensures Aside(BehindDivert(c, k, x, f), f, Mangle, ch)
    ensures TproxyRest(c, k, x, f) == DivertSetup(c, k, f) + BehindDivert(c, k, x, f)
  {
    hide DivertSetup, QuicSetup, LoopbackRejectSetup, DnsNatSetup, FakeIpIcmpSetup;
    OtherTablesAside(c, x, f, ch);
    FilterAside(c, x, f, Mangle, ch);
    DnsAsideMangle(c, k, x, f, ch);
    BehindDivertAside(c, k, x, f);
  }

  lemma DivertOffOutput(c: Config, k: Capabilities, f: Family)
    ensures Aside(DivertSetup(c, k, f), f, Mangle, "OUTPUT")
  {
    DivertAside(c, k, f, "OUTPUT");
  }

  lemma MangleRestPuts(refused: set<Rule>, c: Config, k: Capabilities, x: Context, f: Family, ch: string, held: seq<Rule>)
    requires IsHook(ch)
    ensures Puts(refused, f, TproxyRest(c, k, x, f), Mangle, ch, held, if ch == "PREROUTING" then WithDivert(refused, c, k, held) else held)
  {
    var d, e := DivertSetup(c, k, f), BehindDivert(c, k, x, f);
    hide *;
    BehindDivertOff(c, k, x, f, ch);
    if ch == "PREROUTING" {
      DivertPuts(refused, c, k, f, held);
      PutsThenAside(refused, f, d, e, Mangle, ch, held, WithDivert(refused, c, k, held));
    } else {
      HookIs(ch);
      DivertOffOutput(c, k, f);
      AsideBoth(d, e, f, Mangle, ch);
      AsidePuts(refused, f, d + e, Mangle, ch, held);
    }
  }

  lemma TproxyManglePuts(refused: set<Rule>, c: Config, k: Capabilities, x: Context, f: Family, ch: string, held: seq<Rule>)
    requires IsHook(ch) && TproxySupported(k, f)
    ensures Puts(refused, f, StartTproxy(c, k, x, f), Mangle, ch, held, MangleHooks(refused, c, k, ch, held))
  {
    var a, b := TproxyExternalSetup(c, k, f), TproxyLocalSetup(c, k, x, f);
    var one := if ch == "PREROUTING" then WithJump(EXTERNAL, held) else held;
    var two := if ch == "OUTPUT" then WithJump(LOCAL, one) else one;
    var out := MangleHooks(refused, c, k, ch, held);
    assert out == if ch == "PREROUTING" then WithDivert(refused, c, k, two) else two by {
      if ch != "PREROUTING" {
        HookIs(ch);
      }
    }
    hide *;
    StartTproxySplit(c, k, x, f);
    RoutingAside(f, Mangle, ch);
    TproxyExternalPuts(refused, c, k, f, ch, held);
    TproxyLocalPuts(refused, c, k, x, f, ch, one);
    MangleRestPuts(refused, c, k, x, f, ch, two);
    PutsThen(refused, f, a, b, Mangle, ch, held, one, two);
    PutsThen(refused, f, a + b, TproxyRest(c, k, x, f), Mangle, ch, held, two, out);
    AsideThenPuts(refused, f, TproxyRouting(f), a + b + TproxyRest(c, k, x, f), Mangle, ch, held, out);
  }

  /** A TPROXY mode is its own start, behind the redirect start in enhance mode. */
  lemma TproxyModeIs(c: Config, k: Capabilities, x: Context, f: Family)
    requires TproxyMode(c)
    ensures ModeSetup(c, k, x, f) == (if c.mode == Enhance then StartRedirect(c, k, x, f) else []) + StartTproxy(c, k, x, f)
    ensures c.mode != Enhance ==> ModeSetup(c, k, x, f) == StartTproxy(c, k, x, f)
  {
    hide StartRedirect, StartTproxy;
  }

  /** The built-in chains of mangle behind a setup with TPROXY. */
  lemma ManglePuts(refused: set<Rule>, c: Config, k: Capabilities, x: Context, f: Family, ch: string, held: seq<Rule>)
    requires IsHook(ch) && TproxyMode(c) && TproxySupported(k, f)
    ensures Puts(refused, f, ModeSetup(c, k, x, f), Mangle, ch, held, MangleHooks(refused, c, k, ch, held))
  {
    hide *;
    TproxyModeIs(c, k, x, f);
    TproxyManglePuts(refused, c, k, x, f, ch, held);
    if c.mode == Enhance {
      StartRedirectAside(c, k, x, f, ch);
      AsideThenPuts(refused, f, StartRedirect(c, k, x, f), StartTproxy(c, k, x, f), Mangle, ch, held, MangleHooks(refused, c, k, ch, held));
    }
  }

  // ----- TUN -----

  function TunHooks(f: Family, ch: string, held: seq<Rule>): seq<Rule> {
    WithJump(if ch == "PREROUTING" then TunPreChain(f) else TunOutChain(f), held)
  }

  function TunFilling(c: Config, k: Capabilities, x: Context, f: Family): seq<Step> {
    Appends(f, Mangle, TunPreChain(f), TunPreRules(c, k, f)) + One(f, Mangle, AppendFirst(TunOutChain(f), CoreBypassVariants(x)))
      + Appends(f, Mangle, TunOutChain(f), TunOutRules(c, k, x, f))
  }

  lemma TunShape(c: Config, k: Capabilities, x: Context, f: Family)
    ensures var a, b := One(f, Mangle, EnsureChain(TunPreChain(f))), One(f, Mangle, EnsureChain(TunOutChain(f)));
      var h, i := One(f, Mangle, EnsureJump("PREROUTING", TunPreChain(f))), One(f, Mangle, EnsureJump("OUTPUT", TunOutChain(f)));
      var filling := TunFilling(c, k, x, f);
      && TunTables(c, k, x, f) == a + (b + filling) + h + i
      && TunTables(c, k, x, f) == a + (b + (filling + h) + i)
  {
    hide One, Appends, TunPreRules, TunOutRules, CoreBypassVariants, TunTables, TunPreChain, TunOutChain;
    TunTablesParts(c, k, x, f);
    Seven(One(f, Mangle, EnsureChain(TunPreChain(f))), One(f, Mangle, EnsureChain(TunOutChain(f))),
          Appends(f, Mangle, TunPreChain(f), TunPreRules(c, k, f)),
          One(f, Mangle, AppendFirst(TunOutChain(f), CoreBypassVariants(x))),
          Appends(f, Mangle, TunOutChain(f), TunOutRules(c, k, x, f)),
          One(f, Mangle, EnsureJump("PREROUTING", TunPreChain(f))), One(f, Mangle, EnsureJump("OUTPUT", TunOutChain(f))));
  }

  lemma TunFillingAside(c: Config, k: Capabilities, x: Context, f: Family, ch: string)
    requires IsHook(ch)
    ensures Aside(TunFilling(c, k, x, f), f, Mangle, ch)
  {
    var pre, out := TunPreChain(f), TunOutChain(f);
    var d, e := Appends(f, Mangle, pre, TunPreRules(c, k, f)), One(f, Mangle, AppendFirst(out, CoreBypassVariants(x)));
    var g := Appends(f, Mangle, out, TunOutRules(c, k, x, f));
    assert TunFilling(c, k, x, f) == d + e + g;
    hide TunFilling, Aside, TunPreChain, TunOutChain, Appends, One, IsBoxCustomChain, IsHook;
    MainNames(f, ch);
    OneAside(f, Mangle, AppendFirst(out, CoreBypassVariants(x)), Mangle, ch);
    AppendsAside(f, Mangle, pre, TunPreRules(c, k, f), Mangle, ch);
    AppendsAside(f, Mangle, out, TunOutRules(c, k, x, f), Mangle, ch);
    AsideBoth(d, e, f, Mangle, ch);
    AsideBoth(d + e, g, f, Mangle, ch);
  }

  lemma TunEndsAside(f: Family, ch: string)
    requires IsHook(ch)
    ensures Aside(One(f, Mangle, EnsureChain(TunPreChain(f))), f, Mangle, ch)
    ensures Aside(One(f, Mangle, EnsureChain(TunOutChain(f))), f, Mangle, ch)
    ensures ch == "PREROUTING" ==> Aside(One(f, Mangle, EnsureJump("OUTPUT", TunOutChain(f))), f, Mangle, ch)
    ensures ch == "OUTPUT" ==> Aside(One(f, Mangle, EnsureJump("PREROUTING", TunPreChain(f))), f, Mangle, ch)
  {
    hide TunPreChain, TunOutChain, IsBoxCustomChain, IsHook;
    MainNames(f, ch);
  }

  lemma TunTablesPuts(refused: set<Rule>, c: Config, k: Capabilities, x: Context, f: Family, ch: string, held: seq<Rule>)
    requires IsHook(ch)
    ensures Puts(refused, f, TunTables(c, k, x, f), Mangle, ch, held, TunHooks(f, ch, held))
  {
    var pre, out, filling := TunPreChain(f), TunOutChain(f), TunFilling(c, k, x, f);
    var a, b := One(f, Mangle, EnsureChain(pre)), One(f, Mangle, EnsureChain(out));
    var h, i := One(f, Mangle, EnsureJump("PREROUTING", pre)), One(f, Mangle, EnsureJump("OUTPUT", out));
    assert TunHooks(f, ch, held) == WithJump(if ch == "PREROUTING" then pre else out, held);
    hide *;
    MainNames(f, ch);
    TunShape(c, k, x, f);
    TunFillingAside(c, k, x, f, ch);
    TunEndsAside(f, ch);
    if ch == "PREROUTING" {
      AsideBoth(b, filling, f, Mangle, ch);
      AsidePuts(refused, f, b + filling, Mangle, ch, held);
      MadeAndHooked(refused, f, pre, b + filling, Mangle, ch, held, held);
      PutsThenAside(refused, f, a + (b + filling) + h, i, Mangle, ch, held, WithJump(pre, held));
    } else {
      HookIs(ch);
      AsideBoth(filling, h, f, Mangle, ch);
      AsidePuts(refused, f, filling + h, Mangle, ch, held);
      MadeAndHooked(refused, f, out, filling + h, Mangle, ch, held, held);
      AsideThenPuts(refused, f, a, b + (filling + h) + i, Mangle, ch, held, WithJump(out, held));
    }
  }

  lemma TunPuts(refused: set<Rule>, c: Config, k: Capabilities, x: Context, f: Family, ch: string, held: seq<Rule>)
    requires IsHook(ch) && c.mode == Tun && TunManaged(c)
    ensures Puts(refused, f, ModeSetup(c, k, x, f), Mangle, ch, held, TunHooks(f, ch, held))
  {
    assert ModeSetup(c, k, x, f) == ForwardSetup(c, f) + (TunTables(c, k, x, f) + TunRouting(f)) by {
      hide ForwardSetup, TunTables, TunRouting, TunManaged;
    }
    hide *;
    FilterAside(c, x, f, Mangle, ch);
    RoutingAside(f, Mangle, ch);
    TunTablesPuts(refused, c, k, x, f, ch, held);
    PutsThenAside(refused, f, TunTables(c, k, x, f), TunRouting(f), Mangle, ch, held, TunHooks(f, ch, held));
    AsideThenPuts(refused, f, ForwardSetup(c, f), TunTables(c, k, x, f) + TunRouting(f), Mangle, ch, held, TunHooks(f, ch, held));
  }

  // ----- filter -----

  function Fronting(refused: set<Rule>, r: Rule, held: seq<Rule>): seq<Rule> { if r in held || r in refused then held else [r] + held }

  function Backing(refused: set<Rule>, r: Rule, held: seq<Rule>): seq<Rule> { if r in held || r in refused then held else held + [r] }

  lemma RedirectExternalOff(c: Config, k: Capabilities, x: Context, f: Family, ch: string)
    ensures Aside(RedirectExternalSetup(c, k, x, f), f, Filter, ch)
  {
    var made, jump := One(f, Nat, EnsureChain(EXTERNAL)), One(f, Nat, EnsureJump("PREROUTING", EXTERNAL));
    var a, dns := Appends(f, Nat, EXTERNAL, ReplyBypass(c, k)), DnsNatSetup(c, k, x, f);
    var local, more := LocalIpSetup(c, k, f, Nat), Appends(f, Nat, EXTERNAL, ExternalBody(c, k, f, ActRedirect));
    hide *;
    ExternalShape(c, k, x, f);
    OneAside(f, Nat, EnsureChain(EXTERNAL), Filter, ch);
    OneAside(f, Nat, EnsureJump("PREROUTING", EXTERNAL), Filter, ch);
    AppendsAside(f, Nat, EXTERNAL, ReplyBypass(c, k), Filter, ch);
    AppendsAside(f, Nat, EXTERNAL, ExternalBody(c, k, f, ActRedirect), Filter, ch);
    LocalIpAside(c, k, f, Nat, Filter, ch);
    DnsAside(c, k, x, f, Filter, ch);
    AsideBoth(a, dns, f, Filter, ch);
    AsideBoth(local, more, f, Filter, ch);
    AsideBoth(a + dns, local + more, f, Filter, ch);
    AsideBoth(made, a + dns + (local + more), f, Filter, ch);
    AsideBoth(made + (a + dns + (local + more)), jump, f, Filter, ch);
  }

  lemma RedirectLocalOff(c: Config, k: Capabilities, x: Context, f: Family, ch: string)
    ensures Aside(RedirectLocalSetup(c, k, x, f), f, Filter, ch)
  {
    hide RedirectLocalRules, CoreBypassVariants;
  }

  lemma SmallPartsOff(c: Config, k: Capabilities, x: Context, f: Family, ch: string)
    ensures Aside(FakeIpIcmpSetup(c, f), f, Filter, ch) && Aside(DivertSetup(c, k, f), f, Filter, ch)
  {
    hide PerformanceChain, FakeIpIcmp;
  }

  lemma OtherTables(c: Config, k: Capabilities, x: Context, f: Family, ch: string)
    ensures Aside(RedirectExternalSetup(c, k, x, f), f, Filter, ch) && Aside(RedirectLocalSetup(c, k, x, f), f, Filter, ch)
    ensures Aside(DnsNatSetup(c, k, x, f), f, Filter, ch) && Aside(FakeIpIcmpSetup(c, f), f, Filter, ch)
    ensures Aside(DivertSetup(c, k, f), f, Filter, ch)
  {
    hide *;
    DnsAside(c, k, x, f, Filter, ch);
    RedirectExternalOff(c, k, x, f, ch);
    RedirectLocalOff(c, k, x, f, ch);
    SmallPartsOff(c, k, x, f, ch);
  }

  lemma TproxyExternalOff(c: Config, k: Capabilities, f: Family, ch: string)
    ensures Aside(TproxyExternalSetup(c, k, f), f, Filter, ch)
  {
    hide PerfIfRules, PerfExternalRules, ExternalPrefix, ExternalBody, AcceptPairs, PerfBypassRules, PerfAddrtypeRules, PerfLoopbackRules;
    var dest := PerfDestSetup(c, k, f, TP_PRE_IP);
    assert Aside(dest, f, Filter, ch);
    hide PerfDestSetup;
  }

  lemma TproxyLocalOff(c: Config, k: Capabilities, x: Context, f: Family, ch: string)
    ensures Aside(TproxyLocalSetup(c, k, x, f), f, Filter, ch)
  {
    hide PerfAppRules, PerfLocalRules, TproxyLocalRules, PerfBypassRules, PerfAddrtypeRules, PerfLoopbackRules, CoreBypassVariants;
    var dest := PerfDestSetup(c, k, f, TP_OUT_IP);
    assert Aside(dest, f, Filter, ch);
    hide PerfDestSetup;
  }

  lemma SyncsAside(f: Family, ch: string)
    requires ch != ""
    ensures Aside(TproxyRouting(f), f, Filter, ch) && Aside(TunRouting(f), f, Filter, ch)
  {
  }

  /** Rejecting the core's port to all but the core, as far as owners can be told. */
  function WithReject(refused: set<Rule>, x: Context, f: Family, port: nat, held: seq<Rule>): seq<Rule> {
    EnsuredIn(refused, LoopbackRejects(x, f, port), held)
  }

  lemma RejectPuts(refused: set<Rule>, x: Context, f: Family, port: nat, held: seq<Rule>)
    ensures Puts(refused, f, LoopbackRejectSetup(x, f, port), Filter, "OUTPUT", held, WithReject(refused, x, f, port, held))
  {
    hide LoopbackRejects, Puts;
    OnePuts(refused, f, Filter, EnsureFirst("OUTPUT", LoopbackRejects(x, f, port)), "OUTPUT", held);
  }

  function WithQuic(refused: set<Rule>, c: Config, held: seq<Rule>): seq<Rule> {
    if c.quicDisabled && c.proxyUdp then Backing(refused, QuicReject(80), Backing(refused, QuicReject(443), held)) else held
  }

  lemma QuicPuts(refused: set<Rule>, c: Config, f: Family, held: seq<Rule>)
    ensures Puts(refused, f, QuicSetup(c, f), Filter, "OUTPUT", held, WithQuic(refused, c, held))
  {
    var t, ch, a, b := Filter, "OUTPUT", QuicReject(443), QuicReject(80);
    var one := Backing(refused, a, held);
    OnePuts(refused, f, t, EnsureAppend(ch, a), ch, held);
    OnePuts(refused, f, t, EnsureAppend(ch, b), ch, one);
    assert Appends(f, t, ch, [a, b]) == One(f, t, EnsureAppend(ch, a)) + One(f, t, EnsureAppend(ch, b));
    hide Puts, Appends, One, QuicReject;
    NothingAside(f, t, ch);
    AsidePuts(refused, f, [], t, ch, held);
    PutsThen(refused, f, One(f, t, EnsureAppend(ch, a)), One(f, t, EnsureAppend(ch, b)), t, ch, held, one, Backing(refused, b, one));
  }

  lemma RedirectFilterPuts(refused: set<Rule>, c: Config, k: Capabilities, x: Context, f: Family, held: seq<Rule>)
    ensures Puts(refused, f, StartRedirect(c, k, x, f), Filter, "OUTPUT", held,
                 if RedirectSupported(k, f) then WithReject(refused, x, f, c.redirPort, held) else held)
  {
    var a, b, e := RedirectExternalSetup(c, k, x, f), RedirectLocalSetup(c, k, x, f), LoopbackRejectSetup(x, f, c.redirPort);
    assert StartRedirect(c, k, x, f) == if RedirectSupported(k, f) then a + b + e else [];
    hide *;
    NothingAside(f, Filter, "OUTPUT");
    AsidePuts(refused, f, [], Filter, "OUTPUT", held);
    OtherTables(c, k, x, f, "OUTPUT");
    AsideBoth(a, b, f, Filter, "OUTPUT");
    RejectPuts(refused, x, f, c.redirPort, held);
    AsideThenPuts(refused, f, a + b, e, Filter, "OUTPUT", held, WithReject(refused, x, f, c.redirPort, held));
  }

  function TproxyFilter(refused: set<Rule>, c: Config, x: Context, f: Family, held: seq<Rule>): seq<Rule> {
    var quic := WithQuic(refused, c, held);
    if c.mode != Enhance then WithReject(refused, x, f, c.tproxyPort, quic) else quic
  }

  lemma RestFilterPuts(refused: set<Rule>, c: Config, k: Capabilities, x: Context, f: Family, held: seq<Rule>)
    ensures Puts(refused, f, TproxyRest(c, k, x, f), Filter, "OUTPUT", held, TproxyFilter(refused, c, x, f, held))
  {
    var d, q, n, i := DivertSetup(c, k, f), QuicSetup(c, f), DnsNatSetup(c, k, x, f), FakeIpIcmpSetup(c, f);
    var r := if c.mode != Enhance then LoopbackRejectSetup(x, f, c.tproxyPort) else [];
    var quic, out := WithQuic(refused, c, held), TproxyFilter(refused, c, x, f, held);
    assert TproxyRest(c, k, x, f) == d + q + r + n + i;
    assert out == if c.mode != Enhance then WithReject(refused, x, f, c.tproxyPort, quic) else quic;
    hide *;
    var ch := "OUTPUT";
    OtherTables(c, k, x, f, ch);
    QuicPuts(refused, c, f, held);
    AsideThenPuts(refused, f, d, q, Filter, ch, held, quic);
    NothingAside(f, Filter, ch);
    AsidePuts(refused, f, [], Filter, ch, quic);
    RejectPuts(refused, x, f, c.tproxyPort, quic);
    PutsThen(refused, f, d + q, r, Filter, ch, held, quic, out);
    PutsThenAside(refused, f, d + q + r, n, Filter, ch, held, out);
    PutsThenAside(refused, f, d + q + r + n, i, Filter, ch, held, out);
  }

  lemma TproxyFilterPuts(refused: set<Rule>, c: Config, k: Capabilities, x: Context, f: Family, held: seq<Rule>)
    ensures Puts(refused, f, StartTproxy(c, k, x, f), Filter, "OUTPUT", held,
                 if TproxySupported(k, f) then TproxyFilter(refused, c, x, f, held) else held)
  {
    var a, b := TproxyExternalSetup(c, k, f), TproxyLocalSetup(c, k, x, f);
    assert !TproxySupported(k, f) ==> StartTproxy(c, k, x, f) == [];
    hide *;
    var ch, out := "OUTPUT", TproxyFilter(refused, c, x, f, held);
    if TproxySupported(k, f) {
      StartTproxySplit(c, k, x, f);
      SyncsAside(f, ch);
      TproxyExternalOff(c, k, f, ch);
      TproxyLocalOff(c, k, x, f, ch);
      AsideBoth(a, b, f, Filter, ch);
      RestFilterPuts(refused, c, k, x, f, held);
      AsideThenPuts(refused, f, a + b, TproxyRest(c, k, x, f), Filter, ch, held, out);
      AsideThenPuts(refused, f, TproxyRouting(f), a + b + TproxyRest(c, k, x, f), Filter, ch, held, out);
    } else {
      NothingAside(f, Filter, ch);
      AsidePuts(refused, f, [], Filter, ch, held);
    }
  }

  /** OUTPUT of filter behind a mode's setup. */
  function RejectHooks(refused: set<Rule>, c: Config, k: Capabilities, x: Context, f: Family, held: seq<Rule>): seq<Rule> {
    var one := if StartsRedirect(c, k, f) then WithReject(refused, x, f, c.redirPort, held) else held;
    if StartsTproxy(c, k, f) then TproxyFilter(refused, c, x, f, one) else one
  }

  lemma ForwardOff(c: Config, f: Family)
    ensures Aside(ForwardSetup(c, f), f, Filter, "OUTPUT")
  {
  }

  lemma EnhanceFilterPuts(refused: set<Rule>, c: Config, k: Capabilities, x: Context, f: Family, held: seq<Rule>)
    requires c.mode == Enhance
    ensures var one := if RedirectSupported(k, f) then WithReject(refused, x, f, c.redirPort, held) else held;
      Puts(refused, f, ModeSetup(c, k, x, f), Filter, "OUTPUT", held,
           if TproxySupported(k, f) then TproxyFilter(refused, c, x, f, one) else one)
  {
    var one := if RedirectSupported(k, f) then WithReject(refused, x, f, c.redirPort, held) else held;
    var two := if TproxySupported(k, f) then TproxyFilter(refused, c, x, f, one) else one;
    assert RedirectMode(c);
    hide *;
    RedirectModes(c, k, x, f);
    RedirectFilterPuts(refused, c, k, x, f, held);
    TproxyFilterPuts(refused, c, k, x, f, one);
    PutsThen(refused, f, StartRedirect(c, k, x, f), StartTproxy(c, k, x, f), Filter, "OUTPUT", held, one, two);
  }

  lemma MixedFilterPuts(refused: set<Rule>, c: Config, k: Capabilities, x: Context, f: Family, held: seq<Rule>)
    requires c.mode == RedirectOnly || c.mode == Mixed
    ensures Puts(refused, f, ModeSetup(c, k, x, f), Filter, "OUTPUT", held,
                 if RedirectSupported(k, f) then WithReject(refused, x, f, c.redirPort, held) else held)
  {
    var one := if RedirectSupported(k, f) then WithReject(refused, x, f, c.redirPort, held) else held;
    assert RedirectMode(c);
    hide *;
    RedirectModes(c, k, x, f);
    RedirectFilterPuts(refused, c, k, x, f, held);
    if c.mode == Mixed {
      ForwardOff(c, f);
      AsideThenPuts(refused, f, ForwardSetup(c, f), StartRedirect(c, k, x, f), Filter, "OUTPUT", held, one);
    }
  }

  lemma RejectsPut(refused: set<Rule>, c: Config, k: Capabilities, x: Context, f: Family, held: seq<Rule>)
    requires RedirectMode(c) || TproxyMode(c)
    ensures Puts(refused, f, ModeSetup(c, k, x, f), Filter, "OUTPUT", held, RejectHooks(refused, c, k, x, f, held))
  {
    assert c.mode == TproxyOnly ==> ModeSetup(c, k, x, f) == StartTproxy(c, k, x, f);
    hide Puts, WithReject, TproxyFilter, ModeSetup, StartTproxy, RedirectSupported, TproxySupported;
    match c.mode
    case RedirectOnly => MixedFilterPuts(refused, c, k, x, f, held);
    case Mixed => MixedFilterPuts(refused, c, k, x, f, held);
    case TproxyOnly => TproxyFilterPuts(refused, c, k, x, f, held);
    case Enhance => EnhanceFilterPuts(refused, c, k, x, f, held);
  }

  /** FORWARD of filter in the modes with a TUN device. */
  function ForwardHooks(refused: set<Rule>, c: Config, held: seq<Rule>): seq<Rule> {
    Fronting(refused, ForwardRules(c)[1], Fronting(refused, ForwardRules(c)[0], held))
  }

  lemma ForwardSetupPuts(refused: set<Rule>, c: Config, f: Family, held: seq<Rule>)
    ensures Puts(refused, f, ForwardSetup(c, f), Filter, "FORWARD", held, ForwardHooks(refused, c, held))
  {
    var ch, a, b := "FORWARD", ForwardRules(c)[0], ForwardRules(c)[1];
    var one := Fronting(refused, a, held);
    OnePuts(refused, f, Filter, EnsureInsert(ch, a), ch, held);
    OnePuts(refused, f, Filter, EnsureInsert(ch, b), ch, one);
    hide Puts, One, ForwardRules;
    PutsThen(refused, f, One(f, Filter, EnsureInsert(ch, a)), One(f, Filter, EnsureInsert(ch, b)), Filter, ch, held, one, Fronting(refused, b, one));
  }

  lemma RejectOffForward(x: Context, f: Family, port: nat)
    ensures Aside(LoopbackRejectSetup(x, f, port), f, Filter, "FORWARD")
  {
    hide LoopbackRejects;
  }

  lemma RedirectOffForward(c: Config, k: Capabilities, x: Context, f: Family)
    ensures Aside(StartRedirect(c, k, x, f), f, Filter, "FORWARD")
  {
    var a, b, e := RedirectExternalSetup(c, k, x, f), RedirectLocalSetup(c, k, x, f), LoopbackRejectSetup(x, f, c.redirPort);
    assert StartRedirect(c, k, x, f) == if RedirectSupported(k, f) then a + b + e else [];
    hide *;
    NothingAside(f, Filter, "FORWARD");
    OtherTables(c, k, x, f, "FORWARD");
    RejectOffForward(x, f, c.redirPort);
    AsideBoth(a, b, f, Filter, "FORWARD");
    AsideBoth(a + b, e, f, Filter, "FORWARD");
  }

  lemma TunTablesOff(c: Config, k: Capabilities, x: Context, f: Family)
    ensures Aside(TunTables(c, k, x, f), f, Filter, "FORWARD")
  {
    hide TunPreRules, TunOutRules, CoreBypassVariants;
  }

  lemma StopTunOff(f: Family)
    ensures Aside(StopTunBypass(f), f, Filter, "FORWARD")
  {
  }

  lemma TunOffForward(c: Config, k: Capabilities, x: Context, f: Family)
    ensures Aside(StartTunBypass(c, k, x, f), f, Filter, "FORWARD") && Aside(StopTunBypass(f), f, Filter, "FORWARD")
  {
    assert StartTunBypass(c, k, x, f) == TunTables(c, k, x, f) + TunRouting(f);
    hide *;
    SyncsAside(f, "FORWARD");
    TunTablesOff(c, k, x, f);
    StopTunOff(f);
    AsideBoth(TunTables(c, k, x, f), TunRouting(f), f, Filter, "FORWARD");
  }

  lemma ForwardPut(refused: set<Rule>, c: Config, k: Capabilities, x: Context, f: Family, held: seq<Rule>)
    requires c.mode == Mixed || c.mode == Tun
    ensures Puts(refused, f, ModeSetup(c, k, x, f), Filter, "FORWARD", held, ForwardHooks(refused, c, held))
  {
    var rest := if c.mode == Mixed then StartRedirect(c, k, x, f)
                else if TunManaged(c) then StartTunBypass(c, k, x, f) else StopTunBypass(f);
    assert ModeSetup(c, k, x, f) == ForwardSetup(c, f) + rest by {
      hide StartRedirect, StartTunBypass, StopTunBypass, ForwardSetup;
    }
    hide *;
    RedirectOffForward(c, k, x, f);
    TunOffForward(c, k, x, f);
    ForwardSetupPuts(refused, c, f, held);
    PutsThenAside(refused, f, ForwardSetup(c, f), rest, Filter, "FORWARD", held, ForwardHooks(refused, c, held));
  }
}
