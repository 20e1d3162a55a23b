/**
 When a setup succeeds.  With none of its hooks in place yet, the session of a mode's
 setup reports no failure exactly if the tables and built-in chains it works on are
 there and the kernel refuses none of the rules it must have: those it appends to
 chains of its own, the hooks, and, in a buffered session, those for the host's own
 networks, which an unbuffered one can do without.
 */
module SetupCondition {
  import opened Bytes
  import opened Netfilter
  import opened Batching
  import opened RuleConfig
  import opened RuleScripts
  import opened ChainContents
  import opened TeardownModes
  import opened Teardown
  import opened Sessions
  import opened SetupSuccess
  import opened SetupOutcome

  // ----- scripts whose hooks have somewhere to go -----

  /** The built-in chains that hooks are put in. */
  function HookPlaces(): set<Place> { {(Mangle, "PREROUTING"), (Mangle, "OUTPUT"), (Nat, "PREROUTING"), (Nat, "OUTPUT")} }

  /** Jumps are inserted in those, towards chains ensured before. */
  predicate Hooked(f: Family, steps: seq<Step>, used: set<Place>)
    decreases |steps|
  {
    steps == [] ||
    var s := steps[0];
    && (s.op.EnsureJump? ==> (s.table, s.op.chain) in HookPlaces() && (s.table, s.op.target) in used)
    && (s.op.Rebuild? ==> IsLocalIp(s.op.chain))
    && Hooked(f, steps[1..], used + Ensured(f, s))
  }

  /** Steps that insert no jump. */
  predicate Hookless(steps: seq<Step>) { forall s | s in steps :: !s.op.EnsureJump? && (s.op.Rebuild? ==> IsLocalIp(s.op.chain)) }

  lemma {:induction false} HooklessHooked(f: Family, steps: seq<Step>, used: set<Place>)
    requires Hookless(steps)
    ensures Hooked(f, steps, used)
    decreases |steps|
  {
    if steps != [] {
      assert steps[0] in steps && forall s :: s in steps[1..] ==> s in steps;
      HooklessHooked(f, steps[1..], used + Ensured(f, steps[0]));
    }
  }

  lemma {:induction false} HookedMore(f: Family, steps: seq<Step>, used: set<Place>, more: set<Place>)
    requires Hooked(f, steps, used) && used <= more
    ensures Hooked(f, steps, more)
    decreases |steps|
  {
    if steps != [] {
      HookedMore(f, steps[1..], used + Ensured(f, steps[0]), more + Ensured(f, steps[0]));
    }
  }

  lemma {:induction false} HookedConcat(f: Family, a: seq<Step>, b: seq<Step>, used: set<Place>)
    requires Hooked(f, a, used) && Hooked(f, b, used + EnsuredBy(f, a))
    ensures Hooked(f, a + b, used)
    decreases |a|
  {
    if a == [] {
      assert a + b == b && used + EnsuredBy(f, a) == used;
    } else {
      var e := Ensured(f, a[0]);
      assert (a + b)[1..] == a[1..] + b;
      assert used + EnsuredBy(f, a) == (used + e) + EnsuredBy(f, a[1..]);
      HookedConcat(f, a[1..], b, used + e);
    }
  }

  lemma HookedBoth(f: Family, a: seq<Step>, b: seq<Step>)
    requires Hooked(f, a, {}) && Hooked(f, b, {})
    ensures Hooked(f, a + b, {})
  {
    HookedMore(f, b, {}, {} + EnsuredBy(f, a));
    HookedConcat(f, a, b, {});
  }

  lemma HooklessBefore(f: Family, a: seq<Step>, b: seq<Step>)
    requires Hookless(a) && Hooked(f, b, {})
    ensures Hooked(f, a + b, {})
  {
    HooklessHooked(f, a, {});
    HookedBoth(f, a, b);
  }

  lemma HooklessBehind(f: Family, a: seq<Step>, b: seq<Step>)
    requires Hooked(f, a, {}) && Hookless(b)
    ensures Hooked(f, a + b, {})
  {
    HooklessHooked(f, b, {});
    HookedBoth(f, a, b);
  }

  lemma HooklessBoth(a: seq<Step>, b: seq<Step>)
    requires Hookless(a) && Hookless(b)
    ensures Hookless(a + b)
  {
  }

  lemma {:induction false} EnsuredMember(f: Family, steps: seq<Step>, t: TableName, c: string)
    requires Step(f, t, EnsureChain(c)) in steps && IsBoxCustomChain(c)
    ensures (t, c) in EnsuredBy(f, steps)
    decreases |steps|
  {
    hide IsBoxCustomChain;
    if steps[0] != Step(f, t, EnsureChain(c)) {
      assert Step(f, t, EnsureChain(c)) in steps[1..];
      EnsuredMember(f, steps[1..], t, c);
    }
  }

  /** A hook behind a part that makes the chain it leads to. */
  lemma HookBehind(f: Family, a: seq<Step>, t: TableName, c: string, target: string)
    requires Hooked(f, a, {}) && Step(f, t, EnsureChain(target)) in a && IsBoxCustomChain(target) && (t, c) in HookPlaces()
    ensures Hooked(f, a + One(f, t, EnsureJump(c, target)), {})
  {
    EnsuredMember(f, a, t, target);
    var used := {} + EnsuredBy(f, a);
    var hook := One(f, t, EnsureJump(c, target));
    assert Hooked(f, hook, used) by {
      assert hook[1..] == [] && Hooked(f, hook[1..], used + Ensured(f, hook[0]));
    }
    hide Hooked, EnsuredBy, IsBoxCustomChain;
    HookedConcat(f, a, hook, {});
  }

  // ----- the parts of the setups -----

  lemma AppendsHookless(f: Family, t: TableName, c: string, rules: seq<Rule>)
    ensures Hookless(Appends(f, t, c, rules)) && Hookless(Attempts(f, t, c, rules))
  {
  }

  lemma OneHookless(f: Family, t: TableName, op: Op)
    requires !op.EnsureJump? && !op.Rebuild?
    ensures Hookless(One(f, t, op)) && Hookless([])
  {
  }

  lemma OneInside(f: Family, t: TableName, op: Op)
    ensures Step(f, t, op) in One(f, t, op)
  {
    assert One(f, t, op)[0] == Step(f, t, op);
  }

  lemma Places()
    ensures forall t, c :: (t == Mangle || t == Nat) && (c == "PREROUTING" || c == "OUTPUT") ==> (t, c) in HookPlaces()
  {
  }

  lemma SmallHookless(c: Config, x: Context, f: Family)
    ensures Hookless(LoopbackRejectSetup(x, f, c.redirPort)) && Hookless(LoopbackRejectSetup(x, f, c.tproxyPort)) && Hookless([])
    ensures Hookless(QuicSetup(c, f)) && Hookless(FakeIpIcmpSetup(c, f)) && Hookless(ForwardSetup(c, f))
    ensures Hookless(TproxyRouting(f)) && Hookless(TunRouting(f)) && Hookless(StopTunBypass(f))
  {
    hide LoopbackRejects, FakeIpIcmp;
  }

  lemma PartsHookless(c: Config, k: Capabilities, f: Family, t: TableName, chain: string)
    ensures Hookless(LocalIpSetup(c, k, f, t)) && Hookless(PerfDestSetup(c, k, f, chain)) && Hookless(DivertSetup(c, k, f))
  {
    hide AcceptPairs, PerfBypassRules, PerfAddrtypeRules, PerfLoopbackRules, PerformanceChain;
  }

  lemma HijackHooked(c: Config, x: Context, f: Family)
    ensures Hooked(f, DnsHijackSetup(c, x, f), {})
  {
    var pre, out := HijackPre(f), HijackOut(f);
    var a, b, d := One(f, Nat, EnsureChain(pre)), One(f, Nat, EnsureChain(out)), Appends(f, Nat, pre, DnsHijackRules(c, f, true));
    var e, g := One(f, Nat, InsertFirst(out, CoreBypassVariants(x), None)), Appends(f, Nat, out, DnsHijackRules(c, f, false));
    var h, i := One(f, Nat, EnsureJump("PREROUTING", pre)), One(f, Nat, EnsureJump("OUTPUT", out));
    var body := a + b + d + e + g;
    hide *;
    HijackParts(c, x, f);
    OneInside(f, Nat, EnsureChain(pre));
    OneInside(f, Nat, EnsureChain(out));
    OneHookless(f, Nat, EnsureChain(pre));
    OneHookless(f, Nat, EnsureChain(out));
    OneHookless(f, Nat, InsertFirst(out, CoreBypassVariants(x), None));
    assert Step(f, Nat, EnsureChain(pre)) in body && Step(f, Nat, EnsureChain(out)) in body + h;
    Places();
    CustomNames(f);
    AppendsHookless(f, Nat, pre, DnsHijackRules(c, f, true));
    AppendsHookless(f, Nat, out, DnsHijackRules(c, f, false));
    HooklessBoth(a, b);
    HooklessBoth(a + b, d);
    HooklessBoth(a + b + d, e);
    HooklessBoth(a + b + d + e, g);
    HooklessHooked(f, body, {});
    HookBehind(f, body, Nat, "PREROUTING", pre);
    HookBehind(f, body + h, Nat, "OUTPUT", out);
  }

  lemma ForwardHooked(c: Config, x: Context, f: Family)
    ensures Hooked(f, DnsForwardSetup(c, x, f), {})
  {
    var pre := ForwardPre(f);
    var a, b := One(f, Nat, EnsureChain(pre)), One(f, Nat, InsertFirst(pre, CoreBypassVariants(x), None));
    var d, e := Appends(f, Nat, pre, DnsForwardRules(c, f)), One(f, Nat, EnsureJump("OUTPUT", pre));
    assert DnsForwardSetup(c, x, f) == a + b + d + e by {
      hide ForwardPre, Appends, One, CoreBypassVariants, DnsForwardRules;
    }
    hide *;
    OneInside(f, Nat, EnsureChain(pre));
    OneHookless(f, Nat, EnsureChain(pre));
    OneHookless(f, Nat, InsertFirst(pre, CoreBypassVariants(x), None));
    assert Step(f, Nat, EnsureChain(pre)) in a + b + d;
    Places();
    CustomNames(f);
    AppendsHookless(f, Nat, pre, DnsForwardRules(c, f));
    HooklessBoth(a, b);
    HooklessBoth(a + b, d);
    HooklessHooked(f, a + b + d, {});
    HookBehind(f, a + b + d, Nat, "OUTPUT", pre);
  }

  lemma DnsHooked(c: Config, k: Capabilities, x: Context, f: Family)
    ensures Hooked(f, DnsNatSetup(c, k, x, f), {})
  {
    hide DnsHijackSetup, DnsForwardSetup;
    HijackHooked(c, x, f);
    ForwardHooked(c, x, f);
  }

  /** An external chain: made first, filled, and hooked in last. */
  lemma ExternalHooked(f: Family, t: TableName, rest: seq<Step>)
    requires t == Mangle || t == Nat
    requires Hooked(f, rest, {})
    ensures Hooked(f, One(f, t, EnsureChain(EXTERNAL)) + rest + One(f, t, EnsureJump("PREROUTING", EXTERNAL)), {})
  {
    hide *;
    Places();
    CustomNames(f);
    OneHookless(f, t, EnsureChain(EXTERNAL));
    OneInside(f, t, EnsureChain(EXTERNAL));
    assert Step(f, t, EnsureChain(EXTERNAL)) in One(f, t, EnsureChain(EXTERNAL)) + rest;
    HooklessBefore(f, One(f, t, EnsureChain(EXTERNAL)), rest);
    HookBehind(f, One(f, t, EnsureChain(EXTERNAL)) + rest, t, "PREROUTING", EXTERNAL);
  }

  lemma RedirectExternalHooked(c: Config, k: Capabilities, x: Context, f: Family)
    ensures Hooked(f, RedirectExternalSetup(c, k, x, f), {})
  {
    hide *;
    RedirectExternalIs(c, k, x, f);
    var make, a, d := One(f, Nat, EnsureChain(EXTERNAL)), Appends(f, Nat, EXTERNAL, ReplyBypass(c, k)), DnsNatSetup(c, k, x, f);
    var e, g := LocalIpSetup(c, k, f, Nat), Appends(f, Nat, EXTERNAL, ExternalBody(c, k, f, ActRedirect));
    var hook := One(f, Nat, EnsureJump("PREROUTING", EXTERNAL));
    AppendsHookless(f, Nat, EXTERNAL, ReplyBypass(c, k));
    AppendsHookless(f, Nat, EXTERNAL, ExternalBody(c, k, f, ActRedirect));
    PartsHookless(c, k, f, Nat, EXTERNAL);
    DnsHooked(c, k, x, f);
    HooklessBefore(f, a, d);
    HooklessBehind(f, a + d, e);
    HooklessBehind(f, a + d + e, g);
    ExternalHooked(f, Nat, a + d + e + g);
    assert make + a + d + e + g + hook == make + (a + d + e + g) + hook;
  }

  lemma StartMakesLocal(x: Context, f: Family, t: TableName)
    ensures Step(f, t, EnsureChain(LOCAL)) in LocalChainStart(x, f, t) && Hookless(LocalChainStart(x, f, t))
  {
    hide CoreBypassVariants;
    assert LocalChainStart(x, f, t)[0] == Step(f, t, EnsureChain(LOCAL));
  }

  /** A local chain: made first, with what is between, and hooked in last. */
  lemma LocalHooked(x: Context, f: Family, t: TableName, rest: seq<Step>)
    requires (t == Mangle || t == Nat) && Hookless(rest)
    ensures Hooked(f, LocalChainStart(x, f, t) + rest + One(f, t, EnsureJump("OUTPUT", LOCAL)), {})
  {
    StartMakesLocal(x, f, t);
    hide *;
    Places();
    CustomNames(f);
    HooklessBoth(LocalChainStart(x, f, t), rest);
    HooklessHooked(f, LocalChainStart(x, f, t) + rest, {});
    assert Step(f, t, EnsureChain(LOCAL)) in LocalChainStart(x, f, t) + rest;
    HookBehind(f, LocalChainStart(x, f, t) + rest, t, "OUTPUT", LOCAL);
  }

  lemma StartRedirectHooked(c: Config, k: Capabilities, x: Context, f: Family)
    ensures Hooked(f, StartRedirect(c, k, x, f), {})
  {
    var a, b, e := RedirectExternalSetup(c, k, x, f), RedirectLocalSetup(c, k, x, f), LoopbackRejectSetup(x, f, c.redirPort);
    var main := Appends(f, Nat, LOCAL, RedirectLocalRules(c, k, x, f));
    assert b == LocalChainStart(x, f, Nat) + main + One(f, Nat, EnsureJump("OUTPUT", LOCAL));
    assert StartRedirect(c, k, x, f) == (if f == V6 && !k.ip6Nat then [] else a + b + e);
    hide *;
    SmallHookless(c, x, f);
    HooklessHooked(f, [], {});
    RedirectExternalHooked(c, k, x, f);
    AppendsHookless(f, Nat, LOCAL, RedirectLocalRules(c, k, x, f));
    LocalHooked(x, f, Nat, main);
    HookedBoth(f, a, b);
    HooklessBehind(f, a + b, e);
  }

  lemma FastExternalHooked(c: Config, k: Capabilities, f: Family)
    requires PerformanceChain(c, k)
    ensures Hooked(f, TproxyExternalSetup(c, k, f), {})
  {
    hide *;
    FastExternalParts(c, k, f);
    var make, d := One(f, Mangle, EnsureChain(EXTERNAL)), PerfDestSetup(c, k, f, TP_PRE_IP);
    var e, g := One(f, Mangle, EnsureChain(TP_PRE_IF)), Appends(f, Mangle, TP_PRE_IF, PerfIfRules(c));
    var h, hook := Appends(f, Mangle, EXTERNAL, PerfExternalRules(c, k, f)), One(f, Mangle, EnsureJump("PREROUTING", EXTERNAL));
    PartsHookless(c, k, f, Mangle, TP_PRE_IP);
    OneHookless(f, Mangle, EnsureChain(TP_PRE_IF));
    AppendsHookless(f, Mangle, TP_PRE_IF, PerfIfRules(c));
    AppendsHookless(f, Mangle, EXTERNAL, PerfExternalRules(c, k, f));
    HooklessBoth(d, e);
    HooklessBoth(d + e, g);
    HooklessBoth(d + e + g, h);
    HooklessHooked(f, d + e + g + h, {});
    ExternalHooked(f, Mangle, d + e + g + h);
    assert make + d + e + g + h + hook == make + (d + e + g + h) + hook;
  }

  lemma SlowExternalHooked(c: Config, k: Capabilities, f: Family)
    requires !PerformanceChain(c, k)
    ensures Hooked(f, TproxyExternalSetup(c, k, f), {})
  {
    var make, a := One(f, Mangle, EnsureChain(EXTERNAL)), Appends(f, Mangle, EXTERNAL, ExternalPrefix(c, k, f, ActTproxy));
    var e, g := LocalIpSetup(c, k, f, Mangle), Appends(f, Mangle, EXTERNAL, ExternalBody(c, k, f, ActTproxy));
    var hook := One(f, Mangle, EnsureJump("PREROUTING", EXTERNAL));
    hide *;
    SlowExternalParts(c, k, f);
    AppendsHookless(f, Mangle, EXTERNAL, ExternalPrefix(c, k, f, ActTproxy));
    AppendsHookless(f, Mangle, EXTERNAL, ExternalBody(c, k, f, ActTproxy));
    PartsHookless(c, k, f, Mangle, EXTERNAL);
    HooklessBoth(a, e);
    HooklessBoth(a + e, g);
    HooklessHooked(f, a + e + g, {});
    ExternalHooked(f, Mangle, a + e + g);
    assert make + a + e + g + hook == make + (a + e + g) + hook;
  }

  lemma FastLocalHookless(c: Config, k: Capabilities, x: Context, f: Family)
    ensures Hookless(FastLocalSteps(c, k, x, f))
  {
    var d, e := PerfDestSetup(c, k, f, TP_OUT_IP), One(f, Mangle, EnsureChain(TP_OUT_APP));
    var g, h := Appends(f, Mangle, TP_OUT_APP, PerfAppRules(c, x, f)), Appends(f, Mangle, LOCAL, PerfLocalRules(c, k, x, f));
    assert FastLocalSteps(c, k, x, f) == d + e + g + h;
    hide *;
    PartsHookless(c, k, f, Mangle, TP_OUT_IP);
    OneHookless(f, Mangle, EnsureChain(TP_OUT_APP));
    AppendsHookless(f, Mangle, TP_OUT_APP, PerfAppRules(c, x, f));
    AppendsHookless(f, Mangle, LOCAL, PerfLocalRules(c, k, x, f));
    HooklessBoth(d, e);
    HooklessBoth(d + e, g);
    HooklessBoth(d + e + g, h);
  }

  lemma TproxyLocalHooked(c: Config, k: Capabilities, x: Context, f: Family)
    ensures Hooked(f, TproxyLocalSetup(c, k, x, f), {})
  {
    hide *;
    LocalSetupSplit(c, k, x, f);
    FastLocalHookless(c, k, x, f);
    AppendsHookless(f, Mangle, LOCAL, TproxyLocalRules(c, k, x, f));
    LocalHooked(x, f, Mangle, if PerformanceChain(c, k) then FastLocalSteps(c, k, x, f) else Appends(f, Mangle, LOCAL, TproxyLocalRules(c, k, x, f)));
  }

  lemma TproxyTablesHooked(c: Config, k: Capabilities, x: Context, f: Family)
    ensures Hooked(f, TproxyTables(c, k, x, f), {})
  {
    var a, b, d, e := TproxyExternalSetup(c, k, f), TproxyLocalSetup(c, k, x, f), DivertSetup(c, k, f), QuicSetup(c, f);
    var g := if c.mode != Enhance then LoopbackRejectSetup(x, f, c.tproxyPort) else [];
    var h, i := DnsNatSetup(c, k, x, f), FakeIpIcmpSetup(c, f);
    assert TproxyTables(c, k, x, f) == a + b + d + e + g + h + i;
    hide *;
    if PerformanceChain(c, k) {
      FastExternalHooked(c, k, f);
    } else {
      SlowExternalHooked(c, k, f);
    }
    TproxyLocalHooked(c, k, x, f);
    PartsHookless(c, k, f, Mangle, EXTERNAL);
    SmallHookless(c, x, f);
    DnsHooked(c, k, x, f);
    HookedBoth(f, a, b);
    HooklessBehind(f, a + b, d);
    HooklessBehind(f, a + b + d, e);
    HooklessBehind(f, a + b + d + e, g);
    HookedBoth(f, a + b + d + e + g, h);
    HooklessBehind(f, a + b + d + e + g + h, i);
  }

  lemma TunTablesHooked(c: Config, k: Capabilities, x: Context, f: Family)
    ensures Hooked(f, TunTables(c, k, x, f), {})
  {
    var pre, out := TunPreChain(f), TunOutChain(f);
    var a, b := One(f, Mangle, EnsureChain(pre)), One(f, Mangle, EnsureChain(out));
    var d, e := Appends(f, Mangle, pre, TunPreRules(c, k, f)), One(f, Mangle, AppendFirst(out, CoreBypassVariants(x)));
    var g := Appends(f, Mangle, out, TunOutRules(c, k, x, f));
    var h, i := One(f, Mangle, EnsureJump("PREROUTING", pre)), One(f, Mangle, EnsureJump("OUTPUT", out));
    var body := a + b + d + e + g;
    hide *;
    TunTablesParts(c, k, x, f);
    OneInside(f, Mangle, EnsureChain(pre));
    OneInside(f, Mangle, EnsureChain(out));
    OneHookless(f, Mangle, EnsureChain(pre));
    OneHookless(f, Mangle, EnsureChain(out));
    OneHookless(f, Mangle, AppendFirst(out, CoreBypassVariants(x)));
    assert Step(f, Mangle, EnsureChain(pre)) in body && Step(f, Mangle, EnsureChain(out)) in body + h;
    Places();
    CustomNames(f);
    AppendsHookless(f, Mangle, pre, TunPreRules(c, k, f));
    AppendsHookless(f, Mangle, out, TunOutRules(c, k, x, f));
    HooklessBoth(a, b);
    HooklessBoth(a + b, d);
    HooklessBoth(a + b + d, e);
    HooklessBoth(a + b + d + e, g);
    HooklessHooked(f, body, {});
    HookBehind(f, body, Mangle, "PREROUTING", pre);
    HookBehind(f, body + h, Mangle, "OUTPUT", out);
  }

  lemma StartTproxyHooked(c: Config, k: Capabilities, x: Context, f: Family)
    ensures Hooked(f, StartTproxy(c, k, x, f), {})
  {
    assert StartTproxy(c, k, x, f) == if TproxySupported(k, f) then TproxyRouting(f) + TproxyTables(c, k, x, f) else [];
    hide *;
    SmallHookless(c, x, f);
    HooklessHooked(f, [], {});
    TproxyTablesHooked(c, k, x, f);
    HooklessBefore(f, TproxyRouting(f), TproxyTables(c, k, x, f));
  }

  lemma StartTunHooked(c: Config, k: Capabilities, x: Context, f: Family)
    ensures Hooked(f, StartTunBypass(c, k, x, f), {})
  {
    assert StartTunBypass(c, k, x, f) == TunTables(c, k, x, f) + TunRouting(f);
    hide *;
    SmallHookless(c, x, f);
    TunTablesHooked(c, k, x, f);
    HooklessBehind(f, TunTables(c, k, x, f), TunRouting(f));
  }

  lemma SetupHooked(c: Config, k: Capabilities, x: Context, f: Family)
    ensures Hooked(f, ModeSetup(c, k, x, f), {})
  {
    hide StartRedirect, StartTproxy, StartTunBypass, StopTunBypass, ForwardSetup, Hooked, Hookless, TunManaged;
    SmallHookless(c, x, f);
    HooklessHooked(f, [], {});
    HooklessHooked(f, ForwardSetup(c, f), {});
    HooklessHooked(f, StopTunBypass(f), {});
    StartRedirectHooked(c, k, x, f);
    StartTproxyHooked(c, k, x, f);
    StartTunHooked(c, k, x, f);
    HookedBoth(f, StartRedirect(c, k, x, f), StartTproxy(c, k, x, f));
    HookedBoth(f, ForwardSetup(c, f), StartRedirect(c, k, x, f));
    HookedBoth(f, ForwardSetup(c, f), StartTunBypass(c, k, x, f));
    HookedBoth(f, ForwardSetup(c, f), StopTunBypass(f));
  }

  // ----- what a setup needs of the kernel -----

  /** The kernel takes what the operation must have. */
  predicate Willing(refused: set<Rule>, buffered: bool, s: Step) {
    match s.op
    case EnsureAppend(c, r) => IsBoxCustomChain(c) ==> r !in refused
    case EnsureJump(_, target) => Rule(Jump(target)) !in refused
    case Rebuild(_, _, _) => buffered ==> Spared(refused, s.op)
    case _ => true
  }

  /** What the operation works on is there. */
  predicate Fits(w: World, f: Family, s: Step) {
    && (Needed(s) && !s.op.Sync? ==> HasTable(w, f, s.table))
    && (s.op.EnsureJump? ==> HasChain(w, f, s.table, s.op.chain))
  }

  /** The built-in chains that are there. */
  function HooksThere(w: World, f: Family): set<Place> { set p | p in HookPlaces() && HasChain(w, f, p.0, p.1) }

  /** The hook of a step is not in place. */
  predicate HookAbsent(w: World, s: Step) {
    s.op.EnsureJump? ==> !Checked(w, s.family, s.table, s.op.chain, Rule(Jump(s.op.target)))
  }

  /** A hook into a chain that is there, to a chain that is there, unless it is refused. */
  lemma JumpOk(refused: set<Rule>, w: World, f: Family, t: TableName, c: string, target: string)
    requires HasChain(w, f, t, c) && HasChain(w, f, t, target)
    ensures Rule(Jump(target)) !in refused ==> Direct(refused, w, f, t, EnsureJump(c, target)).ok
  {
  }

  /** The tables the operations need. */
  predicate TablesFit(w: World, f: Family, steps: seq<Step>) {
    forall s | s in steps :: Needed(s) && !s.op.Sync? ==> HasTable(w, f, s.table)
  }

  lemma TablesFitOn(refused: set<Rule>, w: World, f: Family, buffered: bool, used: set<Place>, s: Step, steps: seq<Step>)
    requires TablesFit(w, f, steps) && s.family == f
    ensures TablesFit(Sessional(refused, w, f, buffered, used, s).world, f, steps)
  {
    hide Direct, HasTable, Touched, Needed;
    forall q | q in steps && Needed(q) && !q.op.Sync? ensures HasTable(Sessional(refused, w, f, buffered, used, s).world, f, q.table) {
      TablesStay(refused, w, f, s.table, s.op, q.table);
    }
  }

  lemma EnsuredOk(refused: set<Rule>, w: World, f: Family, t: TableName, c: string)
    requires HasTable(w, f, t)
    ensures Direct(refused, w, f, t, EnsureChain(c)).ok
  {
    DirectEnsureChain(refused, w, f, t, c);
  }

  lemma RebuiltOk(refused: set<Rule>, w: World, f: Family, s: Step)
    requires HasTable(w, f, s.table) && s.op.Rebuild? && IsLocalIp(s.op.chain)
    ensures Direct(refused, w, f, s.table, s.op).ok
  {
    hide Kept, AcceptPairs, IsLocalIp;
  }

  /** One operation of a setup the kernel is willing to take. */
  lemma WillingStep(refused: set<Rule>, w: World, f: Family, buffered: bool, used: set<Place>, all: set<Place>, s: Step)
    requires GroundedStep(f, s, used, all) && Standing(w, f, used) && TablesFit(w, f, [s])
    requires (s.op.EnsureJump? ==> (s.table, s.op.chain) in used && (s.table, s.op.target) in used)
    requires (s.op.Rebuild? ==> IsLocalIp(s.op.chain)) && Willing(refused, buffered, s)
    ensures var e := Sessional(refused, w, f, buffered, used, s);
      (Touched(f, s) != {} ==> e.ok && (buffered ==> Spared(refused, s.op))) && (Needed(s) ==> e.ok)
  {
    hide IsBoxCustomChain, IsLocalIp, Direct, HookPlaces, AcceptPairs;
    assert s in [s];
    assert s.op.EnsureChain? || s.op.Rebuild? ==> s.table in TablesOf(w, f);
    match s.op
    case EnsureChain(c) => EnsuredOk(refused, w, f, s.table, c);
    case EnsureAppend(c, r) =>
      if Touched(f, s) != {} {
        GroundedOk(refused, w, f, used, all, s);
      }
    case EnsureJump(c, target) => JumpOk(refused, w, f, s.table, c, target);
    case Rebuild(_, _, _) => RebuiltOk(refused, w, f, s);
    case Sync(_) => SyncOk(refused, w, f, s.table, s.op);
    case _ =>
  }

  lemma SyncOk(refused: set<Rule>, w: World, f: Family, t: TableName, op: Op)
    requires op.Sync?
    ensures Direct(refused, w, f, t, op).ok
  {
  }

  /** What is needed has been reported as done, followed step by step. */
  lemma NeededFirst(s: Step, ok: bool, steps: seq<Step>, oks: seq<bool>)
    requires steps != [] && steps[0] == s
    ensures NeededOk(steps, [ok] + oks) <==> (Needed(s) ==> ok) && NeededOk(steps[1..], oks)
  {
    hide Needed;
    var all := [ok] + oks;
    if NeededOk(steps, all) {
      forall i | 0 <= i < |steps[1..]| && Needed(steps[1..][i]) ensures oks[i] {
        assert steps[1..][i] == steps[i + 1] && all[i + 1] == oks[i];
      }
    }
    if (Needed(s) ==> ok) && NeededOk(steps[1..], oks) {
      forall i | 0 <= i < |steps| && Needed(steps[i]) ensures all[i] {
        if i > 0 {
          assert steps[1..][i - 1] == steps[i] && all[i] == oks[i - 1];
        }
      }
    }
  }

  lemma {:induction false} WillingSession(refused: set<Rule>, w: World, f: Family, buffered: bool, used: set<Place>, all: set<Place>,
                                          steps: seq<Step>)
    requires Grounded(f, steps, used, all) && Hooked(f, steps, used) && used <= all
    requires Standing(w, f, used) && TablesFit(w, f, steps)
    requires forall s :: s in steps ==> Willing(refused, buffered, s) && (s.op.EnsureJump? ==> (s.table, s.op.chain) in used)
    ensures SessionAcceptable(refused, w, f, buffered, used, steps) && NeededOk(steps, SessionOks(refused, w, f, buffered, used, steps))
    decreases |steps|
  {
    if steps != [] {
      var s := steps[0];
      assert s in steps && forall q :: q in steps[1..] ==> q in steps;
      GroundedEnsures(f, s, used, all);
      hide GroundedStep, Sessional, Touched, Ensured, Willing, Spared, Standing, HasTable, HookPlaces, Needed, NeededOk, IsLocalIp;
      var e := Sessional(refused, w, f, buffered, used, s);
      WillingStep(refused, w, f, buffered, used, all, s);
      StandingOn(refused, w, f, buffered, used, all, s);
      assert TablesFit(w, f, [s]) && TablesFit(w, f, steps[1..]);
      TablesFitOn(refused, w, f, buffered, used, s, steps[1..]) by { GroundedFamily(f, s, used, all); }
      WillingSession(refused, e.world, f, buffered, used + Ensured(f, s), all, steps[1..]);
      NeededFirst(s, e.ok, steps, SessionOks(refused, e.world, f, buffered, used + Ensured(f, s), steps[1..]));
    }
  }

  lemma GroundedFamily(f: Family, s: Step, used: set<Place>, all: set<Place>)
    requires GroundedStep(f, s, used, all)
    ensures s.family == f
  {
  }

  // ----- the way back -----

  /** Either the chain is missing, or a refused rule is missing in it. */
  predicate Lacking(refused: set<Rule>, w: World, f: Family, t: TableName, c: string, o: Option<Rule>) {
    match o
    case None => !HasChain(w, f, t, c)
    case Some(r) => r in refused && !Checked(w, f, t, c, r)
  }

  predicate LackingIn(refused: set<Rule>, chains: Chains, c: string, o: Option<Rule>) {
    match o
    case None => c !in chains
    case Some(r) => r in refused && !Present(chains, c, r)
  }

  /** No command puts a refused rule in a chain, and only its own makes a chain. */
  lemma LackingIpt(refused: set<Rule>, chains: Chains, cmd: IptCmd, c: string, o: Option<Rule>)
    requires LackingIn(refused, chains, c, o) && Ipt(refused, chains, cmd).Some? && (o == None && cmd.NewChain? ==> cmd.chain != c)
    ensures LackingIn(refused, Ipt(refused, chains, cmd).value, c, o)
  {
    if cmd.Delete? && cmd.chain == c && o.Some? {
      WithoutOnly(chains[c], cmd.rule, o.value);
    }
    hide Referenced;
  }

  lemma {:induction false} WithoutOnly(rules: seq<Rule>, d: Rule, r: Rule)
    requires r !in rules
    ensures r !in Without(rules, d)
    decreases |rules|
  {
    if rules != [] {
      WithoutOnly(rules[1..], d, r);
    }
  }

  lemma LackingAt(refused: set<Rule>, w: World, f: Family, t: TableName, c: string, o: Option<Rule>)
    ensures f in w && t in w[f] ==> Lacking(refused, w, f, t, c, o) == LackingIn(refused, w[f][t], c, o)
  {
  }

  lemma LackingCommand(refused: set<Rule>, w: World, g: Family, u: TableName, cmd: IptCmd, f: Family, t: TableName, c: string, o: Option<Rule>)
    requires Lacking(refused, w, f, t, c, o) && (o == None && cmd.NewChain? ==> (g, u, cmd.chain) != (f, t, c))
    ensures Lacking(refused, Silently(refused, w, g, u, cmd), f, t, c, o)
    ensures Lacking(refused, Required(refused, w, g, u, cmd).world, f, t, c, o)
  {
    var v := Silently(refused, w, g, u, cmd);
    LackingAt(refused, w, f, t, c, o);
    LackingAt(refused, v, f, t, c, o);
    if g in w && u in w[g] && Ipt(refused, w[g][u], cmd).Some? {
      if g == f && u == t {
        LackingIpt(refused, w[g][u], cmd, c, o);
      }
      hide Ipt, LackingIn, Lacking;
      LackingBeside(refused, w, v, f, t, c, o);
    }
  }

  lemma LackingBeside(refused: set<Rule>, w: World, v: World, f: Family, t: TableName, c: string, o: Option<Rule>)
    requires Lacking(refused, w, f, t, c, o)
    ensures (f in w <==> f in v) && (f in w ==> ((t in w[f] <==> t in v[f]) && (t in w[f] ==> v[f][t] == w[f][t]))) ==>
      Lacking(refused, v, f, t, c, o)
  {
  }

  lemma {:induction false} LackingFirstTaken(refused: set<Rule>, w: World, g: Family, u: TableName, d: string, rules: seq<Rule>, front: bool,
                                             f: Family, t: TableName, c: string, o: Option<Rule>)
    requires Lacking(refused, w, f, t, c, o)
    ensures Lacking(refused, FirstTaken(refused, w, g, u, d, rules, front).world, f, t, c, o)
    decreases |rules|
  {
    hide Required, Lacking;
    if rules != [] {
      LackingCommand(refused, w, g, u, if front then Insert(d, rules[0]) else Append(d, rules[0]), f, t, c, o);
      LackingFirstTaken(refused, w, g, u, d, rules[1..], front, f, t, c, o);
    }
  }

  lemma {:induction false} LackingFirstEnsured(refused: set<Rule>, w: World, g: Family, u: TableName, d: string, rules: seq<Rule>,
                                               f: Family, t: TableName, c: string, o: Option<Rule>)
    requires Lacking(refused, w, f, t, c, o)
    ensures Lacking(refused, FirstEnsured(refused, w, g, u, d, rules).world, f, t, c, o)
    decreases |rules|
  {
    hide Required, Lacking, Checked;
    if rules != [] {
      LackingCommand(refused, w, g, u, Append(d, rules[0]), f, t, c, o);
      LackingFirstEnsured(refused, w, g, u, d, rules[1..], f, t, c, o);
    }
  }

  lemma LackingRebuild(refused: set<Rule>, w: World, g: Family, u: TableName, d: string, nets: seq<Net>,
                       f: Family, t: TableName, c: string, o: Option<Rule>)
    requires Lacking(refused, w, f, t, c, o) && u in TablesOf(w, g) && (o == None ==> (g, u, d) != (f, t, c))
    ensures Lacking(refused, WithTable(w, g, u, w[g][u][d := Kept(refused, AcceptPairs(nets))]), f, t, c, o)
  {
    hide AcceptPairs;
    assert o.Some? ==> o.value !in Kept(refused, AcceptPairs(nets));
    hide Kept;
  }

  /** The operation makes the chain. */
  predicate Making(s: Step, f: Family, t: TableName, c: string) {
    (s.op.EnsureChain? || s.op.Rebuild?) && (s.family, s.table, s.op.chain) == (f, t, c)
  }

  lemma LackingStep(refused: set<Rule>, w: World, s: Step, f: Family, t: TableName, c: string, o: Option<Rule>)
    requires Lacking(refused, w, f, t, c, o) && (o == None ==> !Making(s, f, t, c))
    ensures Lacking(refused, Direct(refused, w, s.family, s.table, s.op).world, f, t, c, o)
  {
    hide Required, Silently, Checked, Lacking, FirstTaken, FirstEnsured, IsBoxCustomChain, IsLocalIp, Kept, AcceptPairs, WithTable;
    var g, u := s.family, s.table;
    match s.op
    case EnsureChain(d) =>
      LackingCommand(refused, w, g, u, NewChain(d), f, t, c, o);
      LackingCommand(refused, Silently(refused, w, g, u, NewChain(d)), g, u, Flush(d), f, t, c, o);
    case EnsureAppend(d, q) => LackingCommand(refused, w, g, u, Append(d, q), f, t, c, o);
    case EnsureInsert(d, q) => LackingCommand(refused, w, g, u, Insert(d, q), f, t, c, o);
    case EnsureJump(d, target) => LackingCommand(refused, w, g, u, Insert(d, Rule(Jump(target))), f, t, c, o);
    case DelRule(d, q) => LackingCommand(refused, w, g, u, Delete(d, q), f, t, c, o);
    case CleanupChain(d) =>
      LackingCommand(refused, w, g, u, Flush(d), f, t, c, o);
      LackingCommand(refused, Silently(refused, w, g, u, Flush(d)), g, u, DeleteChain(d), f, t, c, o);
    case InsertFirst(d, rules, fallback) =>
      LackingFirstTaken(refused, w, g, u, d, rules, true, f, t, c, o);
      if fallback.Some? {
        LackingCommand(refused, w, g, u, Insert(d, fallback.value), f, t, c, o);
        LackingCommand(refused, FirstTaken(refused, w, g, u, d, rules, true).world, g, u, Insert(d, fallback.value), f, t, c, o);
      }
    case AppendFirst(d, rules) => LackingFirstTaken(refused, w, g, u, d, rules, false, f, t, c, o);
    case EnsureFirst(d, rules) => LackingFirstEnsured(refused, w, g, u, d, rules, f, t, c, o);
    case Rebuild(d, nets, _) =>
      if IsLocalIp(d) && u in TablesOf(w, g) {
        LackingRebuild(refused, w, g, u, d, nets, f, t, c, o);
      }
    case Sync(_) =>
  }

  lemma AppendedNeeds(refused: set<Rule>, w: World, f: Family, t: TableName, c: string, r: Rule)
    requires IsBoxCustomChain(c) && Direct(refused, w, f, t, EnsureAppend(c, r)).ok
    ensures r !in refused && HasTable(w, f, t)
  {
    hide IsBoxCustomChain;
  }

  lemma JumpedNeeds(refused: set<Rule>, w: World, f: Family, t: TableName, c: string, target: string)
    requires Direct(refused, w, f, t, EnsureJump(c, target)).ok
    ensures HasChain(w, f, t, c) && (!Checked(w, f, t, c, Rule(Jump(target))) ==> Rule(Jump(target)) !in refused)
  {
  }

  lemma MadeNeeds(refused: set<Rule>, w: World, f: Family, buffered: bool, used: set<Place>, s: Step)
    requires s.family == f && (s.op.EnsureChain? || s.op.Rebuild?) && Standing(w, f, used)
    requires Sessional(refused, w, f, buffered, used, s).ok
    ensures HasTable(w, f, s.table)
  {
    hide IsBoxCustomChain, IsLocalIp, Direct;
    if buffered && s.op.EnsureChain? && Ensured(f, s) != {} && Ensured(f, s) <= used {
      assert (s.table, s.op.chain) in Ensured(f, s);
      assert HasChain(w, f, s.table, s.op.chain);
    } else {
      MakingNeedsTable(refused, w, f, s);
    }
  }

  /** An operation that was accepted, and reported done where it is needed. */
  lemma AcceptedStep(refused: set<Rule>, w: World, f: Family, buffered: bool, used: set<Place>, s: Step)
    requires s.family == f && (s.op.Rebuild? ==> IsLocalIp(s.op.chain)) && Standing(w, f, used)
    requires var e := Sessional(refused, w, f, buffered, used, s);
      (Touched(f, s) != {} ==> e.ok && (buffered ==> Spared(refused, s.op))) && (Needed(s) ==> e.ok)
    requires s.op.EnsureJump? ==> Rule(Jump(s.op.target)) in refused ==> HookAbsent(w, s)
    ensures Willing(refused, buffered, s) && Fits(w, f, s)
  {
    hide IsBoxCustomChain, IsLocalIp, Direct, Checked, Spared, Standing;
    match s.op
    case EnsureChain(_) => MadeNeeds(refused, w, f, buffered, used, s);
    case Rebuild(_, _, _) => MadeNeeds(refused, w, f, buffered, used, s);
    case EnsureAppend(c, r) =>
      if IsBoxCustomChain(c) {
        AppendedNeeds(refused, w, f, s.table, c, r);
      }
    case EnsureJump(c, target) => JumpedNeeds(refused, w, f, s.table, c, target);
    case _ =>
  }

  ghost predicate StaysOut(refused: set<Rule>, w: World, steps: seq<Step>) {
    forall s | s in steps :: s.op.EnsureJump? && Rule(Jump(s.op.target)) in refused ==> HookAbsent(w, s)
  }

  lemma StaysOutOn(refused: set<Rule>, w: World, f: Family, buffered: bool, used: set<Place>, s: Step, steps: seq<Step>)
    requires StaysOut(refused, w, steps)
    ensures StaysOut(refused, Sessional(refused, w, f, buffered, used, s).world, steps)
  {
    hide Direct, Checked, Touched;
    var v := Sessional(refused, w, f, buffered, used, s).world;
    forall q | q in steps && q.op.EnsureJump? && Rule(Jump(q.op.target)) in refused ensures HookAbsent(v, q) {
      LackingStep(refused, w, s, q.family, q.table, q.op.chain, Some(Rule(Jump(q.op.target))));
    }
  }

  /** What a later operation finds there was there before, but for the chains made. */
  lemma FitsBefore(refused: set<Rule>, w: World, f: Family, buffered: bool, used: set<Place>, s: Step, q: Step)
    requires s.family == f && Fits(Sessional(refused, w, f, buffered, used, s).world, f, q)
    requires q.op.EnsureJump? ==> !Making(s, f, q.table, q.op.chain)
    ensures Fits(w, f, q)
  {
    hide Direct, Needed, Touched, HasChain;
    DirectKeys(refused, w, s, f);
    var v := Sessional(refused, w, f, buffered, used, s).world;
    SameKeys(v, w, f, q.table);
    if q.op.EnsureJump? && !HasChain(w, f, q.table, q.op.chain) {
      LackingStep(refused, w, s, f, q.table, q.op.chain, None);
    }
  }

  /** No step makes a built-in chain. */
  predicate MakesCustom(steps: seq<Step>) { forall s | s in steps :: s.op.EnsureChain? || s.op.Rebuild? ==> IsBoxCustomChain(s.op.chain) }

  lemma HookNotMade(f: Family, s: Step, q: Step)
    requires s.op.EnsureChain? || s.op.Rebuild? ==> IsBoxCustomChain(s.op.chain)
    requires q.op.EnsureJump? && (q.table, q.op.chain) in HookPlaces()
    ensures !Making(s, f, q.table, q.op.chain)
  {
    BuiltinsAreNotCustom("PREROUTING");
    BuiltinsAreNotCustom("OUTPUT");
    hide IsBoxCustomChain;
  }

  lemma {:induction false} HooksInPlaces(f: Family, steps: seq<Step>, used: set<Place>)
    requires Hooked(f, steps, used)
    ensures forall q :: q in steps && q.op.EnsureJump? ==> (q.table, q.op.chain) in HookPlaces()
    decreases |steps|
  {
    hide HookPlaces;
    if steps != [] {
      assert forall q :: q in steps <==> q == steps[0] || q in steps[1..];
      HooksInPlaces(f, steps[1..], used + Ensured(f, steps[0]));
    }
  }

  lemma {:induction false} AcceptedWilling(refused: set<Rule>, w: World, f: Family, buffered: bool, used: set<Place>, all: set<Place>,
                                           steps: seq<Step>)
    requires Hooked(f, steps, used) && Grounded(f, steps, used, all) && used <= all && Standing(w, f, used)
    requires StaysOut(refused, w, steps) && MakesCustom(steps)
    requires SessionAcceptable(refused, w, f, buffered, used, steps) && NeededOk(steps, SessionOks(refused, w, f, buffered, used, steps))
    ensures forall s :: s in steps ==> Willing(refused, buffered, s) && Fits(w, f, s)
    decreases |steps|
  {
    if steps != [] {
      var s := steps[0];
      assert s in steps && forall q :: q in steps <==> q == s || q in steps[1..];
      GroundedEnsures(f, s, used, all);
      GroundedFamily(f, s, used, all);
      HooksInPlaces(f, steps, used);
      hide Sessional, Touched, Ensured, Willing, Fits, Spared, HookPlaces, Needed, NeededOk, IsLocalIp, IsBoxCustomChain;
      hide HookAbsent, Standing, Making, GroundedStep;
      var e := Sessional(refused, w, f, buffered, used, s);
      NeededFirst(s, e.ok, steps, SessionOks(refused, e.world, f, buffered, used + Ensured(f, s), steps[1..]));
      AcceptedStep(refused, w, f, buffered, used, s);
      StaysOutOn(refused, w, f, buffered, used, s, steps[1..]);
      StandingOn(refused, w, f, buffered, used, all, s);
      AcceptedWilling(refused, e.world, f, buffered, used + Ensured(f, s), all, steps[1..]);
      forall q | q in steps[1..] ensures Fits(w, f, q) {
        if q.op.EnsureJump? {
          HookNotMade(f, s, q);
        }
        FitsBefore(refused, w, f, buffered, used, s, q);
      }
    }
  }

  // ----- the modes -----

  lemma SetupTame(c: Config, k: Capabilities, x: Context, f: Family)
    ensures Tame(f, ModeSetup(c, k, x, f), {})
  {
    hide ModeSetup, Regular;
    SetupRegular(c, k, x, f);
    TwiceAreDns(c, f);
    RegularIsTame(f, EnsuredTwice(c, f), ModeSetup(c, k, x, f), {});
  }

  /** A session reports no failure exactly if its semantics accepts it and reports none. */
  lemma ReportedIs(refused: set<Rule>, w: World, c: Config, k: Capabilities, x: Context, f: Family, buffered: bool)
    ensures var steps := ModeSetup(c, k, x, f);
      Reported(refused, w, c, k, x, f, buffered)
      <==> SessionAcceptable(refused, w, f, buffered, {}, steps) && NeededOk(steps, SessionOks(refused, w, f, buffered, {}, steps))
  {
    var steps, h := ModeSetup(c, k, x, f), Opened(w, f, buffered);
    OpenedSound(refused, w, f, buffered);
    hide ModeSetup, NeededOk, OksOf, RunOf, EndOf, Opened, SessionRun, SessionOks, SessionAcceptable, Sound, Meaning, Ledger, Tame;
    SetupTame(c, k, x, f);
    if Reported(refused, w, c, k, x, f, buffered) {
      ReportedMeans(refused, w, c, k, x, f, buffered);
    }
    if SessionAcceptable(refused, w, f, buffered, {}, steps) {
      RunMeans(refused, h, f, buffered, steps, {});
      EndMeans(refused, RunOf(refused, h, steps));
    }
  }

  lemma {:induction false} EnsuredCustom(f: Family, steps: seq<Step>)
    ensures forall p :: p in EnsuredBy(f, steps) ==> IsBoxCustomChain(p.1)
    decreases |steps|
  {
    if steps != [] {
      var s := steps[0];
      if s.op.Rebuild? && IsLocalIp(s.op.chain) {
        LocalIpIsCustom(s.op.chain);
      }
      hide IsBoxCustomChain, IsLocalIp;
      EnsuredCustom(f, steps[1..]);
    }
  }

  lemma HookPlacesApart(f: Family, steps: seq<Step>)
    ensures EnsuredBy(f, steps) * HookPlaces() == {}
  {
    EnsuredCustom(f, steps);
    BuiltinsAreNotCustom("PREROUTING");
    BuiltinsAreNotCustom("OUTPUT");
    hide IsBoxCustomChain, EnsuredBy;
  }

  lemma DeletesNoHookPlace(c: Config, k: Capabilities, f: Family)
    ensures Deletes(c, k, f) !! HookPlaces()
  {
    hide PerformanceChain, TunManaged;
  }

  lemma SetupMakesCustom(c: Config, k: Capabilities, x: Context, f: Family)
    ensures MakesCustom(ModeSetup(c, k, x, f))
  {
    hide *;
    SetupPermitted(c, k, x, f, ModeStop(c, k, x, f));
    StopsAreShaped(c, k, x, f);
    FootprintShaped(f, ModeStop(c, k, x, f));
    PermittedMakesCustom(f, Footprint(ModeStop(c, k, x, f)), ModeSetup(c, k, x, f));
  }

  lemma PermittedMakesCustom(f: Family, foot: Foot, steps: seq<Step>)
    requires Shaped(foot) && PermitsAll(f, foot, steps)
    ensures MakesCustom(steps)
  {
    hide IsBoxCustomChain, OwnRule;
    forall s | s in steps && (s.op.EnsureChain? || s.op.Rebuild?) ensures IsBoxCustomChain(s.op.chain) {
      assert (s.table, s.op.chain).1 == s.op.chain;
    }
  }

  /** Built-in chains counted among those there from the start. */
  lemma GroundedFromHooks(c: Config, k: Capabilities, x: Context, f: Family, there: set<Place>)
    requires there <= HookPlaces()
    ensures var steps := ModeSetup(c, k, x, f);
      Grounded(f, steps, there, EnsuredBy(f, steps) + HookPlaces()) && Hooked(f, steps, there) && EnsuredBy(f, steps) * there == {}
  {
    hide *;
    var steps, twice, gone := ModeSetup(c, k, x, f), EnsuredTwice(c, f), Deletes(c, k, f);
    SetupRegular(c, k, x, f);
    SetupAimed(c, k, x, f);
    SetupFamily(c, k, x, f);
    SetupHooked(c, k, x, f);
    DeletesOther(c, k, x, f);
    TwiceAreDns(c, f);
    HookPlacesApart(f, steps);
    DeletesNoHookPlace(c, k, f);
    assert there - {} == there;
    RegularMore(f, twice, steps, {}, there);
    AimedMore(f, steps, {}, there, gone);
    HookedMore(f, steps, {}, there);
    GroundedFrom(f, twice, steps, there, gone, EnsuredBy(f, steps) + HookPlaces());
  }

  /** What a script ensures of built-in chains is nothing, so they make no difference to a session. */
  lemma {:induction false} BesideHooks(refused: set<Rule>, w: World, f: Family, buffered: bool, used: set<Place>, more: set<Place>, steps: seq<Step>)
    requires EnsuredBy(f, steps) * more == {}
    ensures SessionAcceptable(refused, w, f, buffered, used + more, steps) == SessionAcceptable(refused, w, f, buffered, used, steps)
    ensures SessionOks(refused, w, f, buffered, used + more, steps) == SessionOks(refused, w, f, buffered, used, steps)
    decreases |steps|
  {
    if steps != [] {
      var s, e := steps[0], Ensured(f, steps[0]);
      assert e * more == {} && EnsuredBy(f, steps[1..]) * more == {};
      assert e <= used + more <==> e <= used;
      assert Sessional(refused, w, f, buffered, used + more, s) == Sessional(refused, w, f, buffered, used, s) by { hide Direct, Touched; }
      assert used + more + e == used + e + more;
      hide Sessional, Touched, Spared;
      BesideHooks(refused, Sessional(refused, w, f, buffered, used, s).world, f, buffered, used + e, more, steps[1..]);
    }
  }

  lemma HooksFit(w: World, f: Family, steps: seq<Step>)
    requires forall q :: q in steps && q.op.EnsureJump? ==> (q.table, q.op.chain) in HookPlaces()
    requires forall s :: s in steps ==> Fits(w, f, s)
    ensures forall s :: s in steps && s.op.EnsureJump? ==> (s.table, s.op.chain) in HooksThere(w, f)
    ensures TablesFit(w, f, steps)
  {
    hide HookPlaces, HasTable, HasChain, Needed;
  }

  lemma ThereStands(w: World, f: Family)
    ensures HooksThere(w, f) <= HookPlaces() && Standing(w, f, HooksThere(w, f))
  {
    hide HookPlaces, HasChain;
  }

  /** What a setup asks of the kernel and its tables. */
  ghost predicate Feasible(refused: set<Rule>, w: World, c: Config, k: Capabilities, x: Context, f: Family, buffered: bool) {
    forall s | s in ModeSetup(c, k, x, f) :: Willing(refused, buffered, s) && Fits(w, f, s)
  }

  ghost predicate Fresh(w: World, c: Config, k: Capabilities, x: Context, f: Family) {
    forall s | s in ModeSetup(c, k, x, f) :: HookAbsent(w, s)
  }

  lemma FeasibleAll(refused: set<Rule>, w: World, c: Config, k: Capabilities, x: Context, f: Family, buffered: bool)
    ensures Feasible(refused, w, c, k, x, f, buffered)
      <==> forall s :: s in ModeSetup(c, k, x, f) ==> Willing(refused, buffered, s) && Fits(w, f, s)
    ensures Fresh(w, c, k, x, f) ==> StaysOut(refused, w, ModeSetup(c, k, x, f))
  {
    hide ModeSetup, Willing, Fits, HookAbsent;
  }

  /**
   With none of its hooks in place, a setup reports no failure exactly if the tables
   and built-in chains it works on are there and the kernel takes every rule it must
   have.  Policy routing and the support for TPROXY are apart from this.
   */
  lemma ReportedExactly(refused: set<Rule>, w: World, c: Config, k: Capabilities, x: Context, f: Family, buffered: bool)
    requires Fresh(w, c, k, x, f)
    ensures Reported(refused, w, c, k, x, f, buffered) <==> Feasible(refused, w, c, k, x, f, buffered)
  {
    hide *;
    var steps, there := ModeSetup(c, k, x, f), HooksThere(w, f);
    var all := EnsuredBy(f, steps) + HookPlaces();
    FeasibleAll(refused, w, c, k, x, f, buffered);
    ReportedIs(refused, w, c, k, x, f, buffered);
    ThereStands(w, f);
    GroundedFromHooks(c, k, x, f, there);
    SetupMakesCustom(c, k, x, f);
    HooksInPlaces(f, steps, there);
    assert {} + there == there;
    BesideHooks(refused, w, f, buffered, {}, there, steps);
    if Reported(refused, w, c, k, x, f, buffered) {
      AcceptedWilling(refused, w, f, buffered, there, all, steps);
    }
    if Feasible(refused, w, c, k, x, f, buffered) {
      HooksFit(w, f, steps);
      WillingSession(refused, w, f, buffered, there, all, steps);
    }
  }

  /** A kernel that refuses nothing, with all its tables and built-in chains. */
  ghost predicate Furnished(w: World, f: Family) { (forall t: TableName :: HasTable(w, f, t)) && Standing(w, f, HookPlaces()) }

  /** There every setup of every mode goes through, and has installed the mode. */
  lemma UnrefusedInstalls(w: World, c: Config, k: Capabilities, x: Context, f: Family, buffered: bool)
    requires Furnished(w, f) && Fresh(w, c, k, x, f)
    ensures Reported({}, w, c, k, x, f, buffered)
    ensures Installed({}, w, EndOf({}, RunOf({}, Opened(w, f, buffered), ModeSetup(c, k, x, f))).held.kernel, c, k, x, f)
  {
    hide *;
    ReportedExactly({}, w, c, k, x, f, buffered);
    SetupHooked(c, k, x, f);
    HooksInPlaces(f, ModeSetup(c, k, x, f), {});
    FurnishedFits(w, f, ModeSetup(c, k, x, f), buffered);
    FeasibleAll({}, w, c, k, x, f, buffered);
    ReportedInstalls({}, w, c, k, x, f, buffered);
  }

  lemma FurnishedFits(w: World, f: Family, steps: seq<Step>, buffered: bool)
    requires Furnished(w, f) && forall q :: q in steps && q.op.EnsureJump? ==> (q.table, q.op.chain) in HookPlaces()
    ensures forall s :: s in steps ==> Willing({}, buffered, s) && Fits(w, f, s)
  {
    hide HookPlaces, HasTable, HasChain, Needed, AcceptPairs, IsBoxCustomChain;
  }

  // ----- empty tables -----

  function BuiltinChains(): Chains { map["PREROUTING" := [], "INPUT" := [], "FORWARD" := [], "OUTPUT" := [], "POSTROUTING" := []] }

  function BuiltinTables(): Tables { map[Filter := BuiltinChains(), Mangle := BuiltinChains(), Nat := BuiltinChains()] }

  /** The tables of both families with their built-in chains and no rule. */
  function EmptyWorld(): World { map[V4 := BuiltinTables(), V6 := BuiltinTables()] }

  lemma EmptyHas(f: Family, t: TableName)
    ensures f in EmptyWorld() && t in EmptyWorld()[f] && EmptyWorld()[f][t] == BuiltinChains()
  {
    assert EmptyWorld()[f] == BuiltinTables();
    assert BuiltinTables()[t] == BuiltinChains();
  }

  lemma EmptyIsFresh(c: Config, k: Capabilities, x: Context, f: Family)
    ensures Furnished(EmptyWorld(), f) && Fresh(EmptyWorld(), c, k, x, f)
  {
    hide ModeSetup, EmptyWorld;
    forall t: TableName ensures HasTable(EmptyWorld(), f, t) {
      EmptyHas(f, t);
    }
    forall t: TableName, ch | (t, ch) in HookPlaces() ensures HasChain(EmptyWorld(), f, t, ch) {
      EmptyHas(f, t);
    }
    forall s | s in ModeSetup(c, k, x, f) ensures HookAbsent(EmptyWorld(), s) {
      EmptyHas(s.family, s.table);
    }
  }

  /** The model's setups can succeed: on empty tables all of them do. */
  lemma EmptyInstalls(c: Config, k: Capabilities, x: Context, f: Family, buffered: bool)
    ensures Reported({}, EmptyWorld(), c, k, x, f, buffered)
    ensures Installed({}, EmptyWorld(), EndOf({}, RunOf({}, Opened(EmptyWorld(), f, buffered), ModeSetup(c, k, x, f))).held.kernel, c, k, x, f)
  {
    hide *;
    EmptyIsFresh(c, k, x, f);
    UnrefusedInstalls(EmptyWorld(), c, k, x, f, buffered);
  }

  // ----- a refused rule that only a buffered session notices -----

  /** Redirection of all TCP, without lists, where 10.0.0.0/8 is the host's own network. */
  function PlainRedirect(c: Config): Config {
    c.(mode := RedirectOnly, proxyMode := Core, dnsMode := DnsDisable, dnsForward := false, bypassCn := false, blockedIfs := [],
       macFilter := false, subnets4 := [], localCidrs4 := [Net(0x0a00_0000, 8, 32)])
  }

  /** The rule for all its packets but those over UDP. */
  function OwnNetRule(): Rule { NetPair(Net(0x0a00_0000, 8, 32))[1] }

  predicate AppendsNoAccept(steps: seq<Step>) { forall s | s in steps :: s.op.EnsureAppend? ==> s.op.rule.target != Accept }

  lemma NoAcceptBoth(a: seq<Step>, b: seq<Step>)
    requires AppendsNoAccept(a) && AppendsNoAccept(b)
    ensures AppendsNoAccept(a + b)
  {
  }

  lemma AppendsWithoutAccept(f: Family, t: TableName, c: string, rules: seq<Rule>)
    requires forall r :: r in rules ==> r.target != Accept
    ensures AppendsNoAccept(Appends(f, t, c, rules))
  {
  }

  lemma PlainExternalRules(c: Config, k: Capabilities)
    ensures forall r :: r in ReplyBypass(c, k) + ExternalBody(PlainRedirect(c), k, V4, ActRedirect) ==> r.target != Accept
  {
    var s := PlainRedirect(c);
    assert SubnetReturns(Subnets(s, V4)) == [] && CnipRule(s, k, V4, EXTERNAL, Return) == [] && IfaceRules(s.blockedIfs, Return) == [];
  }

  lemma PlainLocalRules(c: Config, k: Capabilities, x: Context)
    ensures forall r :: r in RedirectLocalRules(PlainRedirect(c), k, x, V4) ==> r.target != Accept
  {
    var s := PlainRedirect(c);
    assert SubnetReturns(Subnets(s, V4)) == [] && CnipRule(s, k, V4, LOCAL, Return) == [];
    assert CnipForceLocalRules(s, k, x, V4, LOCAL, ActRedirect) == [];
  }

  /** The small parts of the plain setup. */
  lemma PlainPieces(c: Config, k: Capabilities, x: Context)
    ensures var s := PlainRedirect(c);
      && DnsNatSetup(s, k, x, V4) == [] && AppendsNoAccept([]) && AppendsNoAccept(LocalIpSetup(s, k, V4, Nat))
      && AppendsNoAccept(One(V4, Nat, EnsureChain(EXTERNAL))) && AppendsNoAccept(One(V4, Nat, EnsureJump("PREROUTING", EXTERNAL)))
      && AppendsNoAccept(LocalChainStart(x, V4, Nat)) && AppendsNoAccept(One(V4, Nat, EnsureJump("OUTPUT", LOCAL)))
      && AppendsNoAccept(LoopbackRejectSetup(x, V4, s.redirPort))
    ensures Step(V4, Nat, Rebuild(LocalIpChain(V4), [Net(0x0a00_0000, 8, 32)], RestoringOf(k, V4, Nat)))
         in LocalIpSetup(PlainRedirect(c), k, V4, Nat)
  {
    hide CoreBypassVariants, LoopbackRejects, RestoringOf, AcceptPairs;
    var e := LocalIpSetup(PlainRedirect(c), k, V4, Nat);
    assert e[0] == Step(V4, Nat, Rebuild(LocalIpChain(V4), [Net(0x0a00_0000, 8, 32)], RestoringOf(k, V4, Nat)));
  }

  lemma PlainRules(c: Config, k: Capabilities, x: Context)
    ensures var s := PlainRedirect(c);
      ModeSetup(s, k, x, V4)
        == RedirectExternalSetup(s, k, x, V4)
           + (LocalChainStart(x, V4, Nat) + Appends(V4, Nat, LOCAL, RedirectLocalRules(s, k, x, V4)) + One(V4, Nat, EnsureJump("OUTPUT", LOCAL)))
           + LoopbackRejectSetup(x, V4, s.redirPort)
    ensures forall r :: r in ReplyBypass(PlainRedirect(c), k) ==> r.target != Accept
    ensures forall r :: r in ExternalBody(PlainRedirect(c), k, V4, ActRedirect) ==> r.target != Accept
    ensures forall r :: r in RedirectLocalRules(PlainRedirect(c), k, x, V4) ==> r.target != Accept
  {
    PlainExternalRules(c, k);
    PlainLocalRules(c, k, x);
    hide RedirectExternalSetup, LocalChainStart, Appends, RedirectLocalRules, LoopbackRejectSetup, ExternalBody;
  }

  lemma PlainAppends(c: Config, k: Capabilities, x: Context)
    ensures AppendsNoAccept(ModeSetup(PlainRedirect(c), k, x, V4))
    ensures Step(V4, Nat, Rebuild(LocalIpChain(V4), [Net(0x0a00_0000, 8, 32)], RestoringOf(k, V4, Nat))) in ModeSetup(PlainRedirect(c), k, x, V4)
  {
    var s := PlainRedirect(c);
    var make, a := One(V4, Nat, EnsureChain(EXTERNAL)), Appends(V4, Nat, EXTERNAL, ReplyBypass(s, k));
    var d, e := DnsNatSetup(s, k, x, V4), LocalIpSetup(s, k, V4, Nat);
    var g, h := Appends(V4, Nat, EXTERNAL, ExternalBody(s, k, V4, ActRedirect)), One(V4, Nat, EnsureJump("PREROUTING", EXTERNAL));
    var start, rules := LocalChainStart(x, V4, Nat), RedirectLocalRules(s, k, x, V4);
    var main, hook, reject := Appends(V4, Nat, LOCAL, rules), One(V4, Nat, EnsureJump("OUTPUT", LOCAL)), LoopbackRejectSetup(x, V4, s.redirPort);
    hide *;
    RedirectExternalIs(s, k, x, V4);
    PlainPieces(c, k, x);
    PlainRules(c, k, x);
    AppendsWithoutAccept(V4, Nat, EXTERNAL, ReplyBypass(s, k));
    AppendsWithoutAccept(V4, Nat, EXTERNAL, ExternalBody(s, k, V4, ActRedirect));
    AppendsWithoutAccept(V4, Nat, LOCAL, rules);
    NoAcceptBoth(make, a);
    NoAcceptBoth(make + a, d);
    NoAcceptBoth(make + a + d, e);
    NoAcceptBoth(make + a + d + e, g);
    NoAcceptBoth(make + a + d + e + g, h);
    NoAcceptBoth(start, main);
    NoAcceptBoth(start + main, hook);
    NoAcceptBoth(make + a + d + e + g + h, start + main + hook);
    NoAcceptBoth((make + a + d + e + g + h) + (start + main + hook), reject);
  }

  lemma PlainWilling(c: Config, k: Capabilities, x: Context)
    ensures forall s | s in ModeSetup(PlainRedirect(c), k, x, V4) :: Willing({OwnNetRule()}, false, s)
    ensures exists s | s in ModeSetup(PlainRedirect(c), k, x, V4) :: !Willing({OwnNetRule()}, true, s)
  {
    var nets := [Net(0x0a00_0000, 8, 32)];
    PlainAppends(c, k, x);
    assert OwnNetRule() in AcceptPairs(nets) by {
      assert AcceptPairs(nets) == NetPair(nets[0]) + AcceptPairs(nets[1..]) && NetPair(nets[0])[1] == OwnNetRule();
    }
    assert OwnNetRule().target == Accept;
    hide ModeSetup, AcceptPairs, OwnNetRule, RestoringOf, IsBoxCustomChain;
    assert !Willing({OwnNetRule()}, true, Step(V4, Nat, Rebuild(LocalIpChain(V4), nets, RestoringOf(k, V4, Nat))));
  }

  /** The kernel refuses one rule for the host's own network: a setup without a session
      reports success all the same, one in a session does not. */
  lemma RefusalTolerated(c: Config, k: Capabilities, x: Context)
    ensures var refused := {OwnNetRule()};
      && Reported(refused, EmptyWorld(), PlainRedirect(c), k, x, V4, false)
      && !Reported(refused, EmptyWorld(), PlainRedirect(c), k, x, V4, true)
  {
    hide *;
    var refused, w, s := {OwnNetRule()}, EmptyWorld(), PlainRedirect(c);
    EmptyIsFresh(s, k, x, V4);
    PlainWilling(c, k, x);
    SetupHooked(s, k, x, V4);
    HooksInPlaces(V4, ModeSetup(s, k, x, V4), {});
    FurnishedFits(w, V4, ModeSetup(s, k, x, V4), false);
    FeasibleAll(refused, w, s, k, x, V4, false);
    FeasibleAll(refused, w, s, k, x, V4, true);
    ReportedExactly(refused, w, s, k, x, V4, false);
    ReportedExactly(refused, w, s, k, x, V4, true);
  }
}
