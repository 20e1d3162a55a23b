/**
 Each mode's setup and the teardown that matches it: for every configuration,
 capability set and context the pair meets the conditions of TeardownUndoes.
 */
module TeardownModes {
  import opened Bytes
  import opened Netfilter
  import opened Batching
  import opened RuleConfig
  import opened RuleScripts
  import opened SessionTeardown
  import opened Teardown

  // ----- the modes -----

  predicate TunManaged(c: Config) { c.bypassCn || c.macFilter }

  /** What a family's apply issues in each mode. */
  function ModeSetup(c: Config, k: Capabilities, x: Context, f: Family): seq<Step> {
    match c.mode
    case RedirectOnly => StartRedirect(c, k, x, f)
    case TproxyOnly => StartTproxy(c, k, x, f)
    case Mixed => ForwardSetup(c, f) + StartRedirect(c, k, x, f)
    case Enhance => StartRedirect(c, k, x, f) + StartTproxy(c, k, x, f)
    case Tun => ForwardSetup(c, f) + if TunManaged(c) then StartTunBypass(c, k, x, f) else StopTunBypass(f)
    case Ebpf => []
  }

  /** The rule older versions used to shut DNS over IPv6. */
  function LegacyDnsDrop(): Rule { Rule(Drop, proto := Is(Udp), dport := Port(53)) }

  function LegacyCleanup(f: Family): seq<Step> {
    if f == V6 then DelRules(f, Filter, "OUTPUT", [LegacyDnsDrop()]) else []
  }

  function ModeStop(c: Config, k: Capabilities, x: Context, f: Family): seq<Step> {
    match c.mode
    case RedirectOnly => StopRedirect(c, k, x, f) + LegacyCleanup(f)
    case TproxyOnly => StopTproxy(c, k, x, f) + LegacyCleanup(f)
    case Mixed => StopRedirect(c, k, x, f) + ForwardCleanup(c, f) + LegacyCleanup(f)
    case Enhance => StopRedirect(c, k, x, f) + StopTproxy(c, k, x, f) + LegacyCleanup(f)
    case Tun => StopTunBypass(f) + ForwardCleanup(c, f) + LegacyCleanup(f)
    case Ebpf => []
  }

  /** The cleanup for an unknown mode. */
  function StopAll(c: Config, k: Capabilities, x: Context, f: Family): seq<Step> {
    StopRedirect(c, k, x, f) + StopTproxy(c, k, x, f) + StopTunBypass(f) + ForwardCleanup(c, f) + LegacyCleanup(f)
  }

  // ----- teardown scripts are clean -----

  /** The rules of built-in chains that enter a chain of the compiler. */
  function Parents(c: string): set<(string, Rule)> {
    var jump := Rule(Jump(c));
    if c in {EXTERNAL, TunPreChain(V4), TunPreChain(V6)} then {("PREROUTING", jump)}
    else if c in {LOCAL, TunOutChain(V4), TunOutChain(V6)} then {("OUTPUT", jump)}
    else if c == DIVERT then {("PREROUTING", DivertJump()), ("PREROUTING", LegacyDivertJump())}
    else if IsDnsChain(c) then {("PREROUTING", jump), ("OUTPUT", jump)}
    else {}
  }

  predicate IsDnsChain(c: string) {
    c in {HijackPre(V4), HijackPre(V6), HijackOut(V4), HijackOut(V6), ForwardPre(V4), ForwardPre(V6), ForwardOut(V4), ForwardOut(V6)}
  }

  ghost predicate Shaped(foot: Foot) {
    && (forall h :: h in foot.hooks && h.2.target.Jump? ==> (h.1, h.2) in Parents(h.2.target.chain))
    && (forall x :: x in foot.live ==> IsBoxCustomChain(x.1))
  }

  lemma BuiltinsAreNotCustom(c: string)
    requires IsBuiltin(c)
    ensures !IsBoxCustomChain(c)
  {
    assert "BOX_"[0] == 'B' && "AP_"[0] == 'A';
    assert "PREROUTING"[0] == 'P' && "INPUT"[0] == 'I' && "FORWARD"[0] == 'F' && "OUTPUT"[0] == 'O' && "POSTROUTING"[0] == 'P';
  }

  lemma {:induction false} AfterAllWithin(foot: Foot, steps: seq<Step>)
    ensures Within(AfterAll(foot, steps), foot)
    ensures Shaped(foot) ==> Shaped(AfterAll(foot, steps))
    decreases |steps|
  {
    if steps != [] {
      AfterAllWithin(After(foot, steps[0]), steps[1..]);
    }
  }

  lemma {:induction false} GoneAfter(foot: Foot, steps: seq<Step>, s: Step)
    requires s in steps
    ensures s.op.DelRule? ==> (s.table, s.op.chain, s.op.rule) !in AfterAll(foot, steps).hooks
    ensures s.op.CleanupChain? ==> (s.table, s.op.chain) !in AfterAll(foot, steps).live
    decreases |steps|
  {
    if steps[0] == s {
      AfterAllWithin(After(foot, s), steps[1..]);
    } else {
      GoneAfter(After(foot, steps[0]), steps[1..], s);
    }
  }

  lemma {:induction false} CleanConcat(foot: Foot, a: seq<Step>, b: seq<Step>)
    requires CleanAll(foot, a) && CleanAll(AfterAll(foot, a), b)
    ensures CleanAll(foot, a + b)
    ensures AfterAll(foot, a + b) == AfterAll(AfterAll(foot, a), b)
    decreases |a|
  {
    if a == [] {
      assert a + b == b;
    } else {
      assert (a + b)[1..] == a[1..] + b;
      CleanConcat(After(foot, a[0]), a[1..], b);
    }
  }

  /** A chain whose parents are gone, and behind its callers in the script. */
  lemma CleanupIsClean(foot: Foot, f: Family, t: TableName, c: string)
    requires Shaped(foot) && IsBoxCustomChain(c)
    requires forall p :: p in Parents(c) ==> (t, p.0, p.1) !in foot.hooks
    requires Edge(EXTERNAL, c) ==> (t, EXTERNAL) !in foot.live
    requires Edge(LOCAL, c) ==> (t, LOCAL) !in foot.live
    ensures Clean(foot, Step(f, t, CleanupChain(c)))
  {
    if IsBuiltin(c) {
      BuiltinsAreNotCustom(c);
    }
    forall h | h in HooksIn(foot, t) ensures h.1.target != Jump(c) {
      assert (t, h.0, h.1) in foot.hooks;
    }
    forall d | d in LiveIn(foot, t) ensures !Edge(d, c) {
      assert (t, d) in foot.live;
    }
  }

  lemma DelIsClean(foot: Foot, s: Step)
    requires Shaped(foot) && s.op.DelRule? && IsBuiltin(s.op.chain)
    ensures Clean(foot, s)
  {
    BuiltinsAreNotCustom(s.op.chain);
  }

  lemma {:induction false} DelsAreClean(foot: Foot, steps: seq<Step>)
    requires Shaped(foot) && forall s :: s in steps ==> s.op.DelRule? && IsBuiltin(s.op.chain)
    ensures CleanAll(foot, steps)
    decreases |steps|
  {
    if steps != [] {
      assert steps[0] in steps;
      DelIsClean(foot, steps[0]);
      assert forall s :: s in steps[1..] ==> s in steps;
      DelsAreClean(After(foot, steps[0]), steps[1..]);
    }
  }

  /** A chain cleaned right behind the deletion of all its parents. */
  lemma UnhookAndClean(foot: Foot, f: Family, t: TableName, dels: seq<Step>, c: string)
    requires Shaped(foot) && IsBoxCustomChain(c)
    requires forall s :: s in dels ==> s.op.DelRule? && IsBuiltin(s.op.chain)
    requires forall p :: p in Parents(c) ==> Step(f, t, DelRule(p.0, p.1)) in dels
    requires Edge(EXTERNAL, c) ==> (t, EXTERNAL) !in foot.live
    requires Edge(LOCAL, c) ==> (t, LOCAL) !in foot.live
    ensures CleanAll(foot, dels + One(f, t, CleanupChain(c)))
  {
    DelsAreClean(foot, dels);
    AfterAllWithin(foot, dels);
    var mid := AfterAll(foot, dels);
    forall p | p in Parents(c) ensures (t, p.0, p.1) !in mid.hooks {
      GoneAfter(foot, dels, Step(f, t, DelRule(p.0, p.1)));
    }
    CleanupIsClean(mid, f, t, c);
    CleanConcat(foot, dels, One(f, t, CleanupChain(c)));
  }

  lemma {:induction false} OrphansAreClean(foot: Foot, f: Family, t: TableName, chains: seq<string>)
    requires Shaped(foot) && (t, EXTERNAL) !in foot.live && (t, LOCAL) !in foot.live
    requires forall c :: c in chains ==> IsBoxCustomChain(c) && Parents(c) == {}
    ensures CleanAll(foot, Cleanups(f, t, chains))
    decreases |chains|
  {
    var steps := Cleanups(f, t, chains);
    if chains != [] {
      assert chains[0] in chains;
      CleanupIsClean(foot, f, t, chains[0]);
      assert steps[1..] == Cleanups(f, t, chains[1..]);
      OrphansAreClean(After(foot, steps[0]), f, t, chains[1..]);
    }
  }

  lemma ExternalCleans(foot: Foot, f: Family, t: TableName)
    requires Shaped(foot)
    ensures CleanAll(foot, ExternalCleanup(f, t)) && Shaped(AfterAll(foot, ExternalCleanup(f, t)))
    ensures (t, EXTERNAL) !in AfterAll(foot, ExternalCleanup(f, t)).live
  {
    UnhookAndClean(foot, f, t, DelJump(f, t, "PREROUTING", EXTERNAL), EXTERNAL);
    AfterAllWithin(foot, ExternalCleanup(f, t));
    GoneAfter(foot, ExternalCleanup(f, t), Step(f, t, CleanupChain(EXTERNAL)));
  }

  lemma LocalCleans(foot: Foot, f: Family, t: TableName)
    requires Shaped(foot) && (t, EXTERNAL) !in foot.live
    ensures CleanAll(foot, LocalCleanup(f, t))
  {
    var first := DelJump(f, t, "OUTPUT", LOCAL) + One(f, t, CleanupChain(LOCAL));
    UnhookAndClean(foot, f, t, DelJump(f, t, "OUTPUT", LOCAL), LOCAL);
    assert Step(f, t, CleanupChain(LOCAL)) in first;
    hide Clean, AfterAll, CleanAll;
    AfterAllWithin(foot, first);
    GoneAfter(foot, first, Step(f, t, CleanupChain(LOCAL)));
    LocalIpClean(AfterAll(foot, first), f, t);
    CleanConcat(foot, first, One(f, t, CleanupChain(LocalIpChain(f))));
  }

  lemma LocalIpClean(foot: Foot, f: Family, t: TableName)
    requires Shaped(foot) && (t, EXTERNAL) !in foot.live && (t, LOCAL) !in foot.live
    ensures CleanAll(foot, One(f, t, CleanupChain(LocalIpChain(f))))
  {
    CleanupIsClean(foot, f, t, LocalIpChain(f));
    hide Clean, Shaped;
    assert One(f, t, CleanupChain(LocalIpChain(f)))[1..] == [];
  }

  lemma ExternalLocalClean(foot: Foot, f: Family, t: TableName)
    requires Shaped(foot)
    ensures CleanAll(foot, ExternalCleanup(f, t) + LocalCleanup(f, t))
    ensures (t, EXTERNAL) !in AfterAll(foot, ExternalCleanup(f, t) + LocalCleanup(f, t)).live
    ensures (t, LOCAL) !in AfterAll(foot, ExternalCleanup(f, t) + LocalCleanup(f, t)).live
  {
    var ext, loc := ExternalCleanup(f, t), LocalCleanup(f, t);
    assert Step(f, t, CleanupChain(EXTERNAL)) in ext && Step(f, t, CleanupChain(LOCAL)) in loc;
    hide Shaped, CleanAll, AfterAll, ExternalCleanup, LocalCleanup;
    ExternalCleans(foot, f, t);
    LocalCleans(AfterAll(foot, ext), f, t);
    CleanConcat(foot, ext, loc);
    GoneAfter(foot, ext + loc, Step(f, t, CleanupChain(EXTERNAL)));
    GoneAfter(foot, ext + loc, Step(f, t, CleanupChain(LOCAL)));
  }

  lemma DnsChainClean(foot: Foot, f: Family, c: string)
    requires Shaped(foot) && IsDnsChain(c)
    ensures CleanAll(foot, DnsChainCleanup(f, c))
  {
    UnhookAndClean(foot, f, Nat, DelJump(f, Nat, "PREROUTING", c) + DelJump(f, Nat, "OUTPUT", c), c);
  }

  lemma DnsNatClean(foot: Foot, k: Capabilities, f: Family)
    requires Shaped(foot)
    ensures CleanAll(foot, DnsNatCleanup(k, f))
  {
    var a, b, c, d := DnsChainCleanup(f, HijackPre(f)), DnsChainCleanup(f, HijackOut(f)),
      DnsChainCleanup(f, ForwardPre(f)), DnsChainCleanup(f, ForwardOut(f));
    hide DnsChainCleanup, CleanAll, AfterAll;
    if DnsNatCleanup(k, f) != [] {
      DnsChainClean(foot, f, HijackPre(f));
      AfterAllWithin(foot, a);
      DnsChainClean(AfterAll(foot, a), f, HijackOut(f));
      CleanConcat(foot, a, b);
      AfterAllWithin(foot, a + b);
      DnsChainClean(AfterAll(foot, a + b), f, ForwardPre(f));
      CleanConcat(foot, a + b, c);
      AfterAllWithin(foot, a + b + c);
      DnsChainClean(AfterAll(foot, a + b + c), f, ForwardOut(f));
      CleanConcat(foot, a + b + c, d);
    } else {
      NothingIsClean(foot);
    }
  }

  /** Steps that leave the tables alone. */
  predicate OnlySyncs(f: Family, steps: seq<Step>) { forall s | s in steps :: s.family == f && s.op.Sync? }

  lemma RoutingSyncs(f: Family)
    ensures OnlySyncs(f, IpCleanup(f)) && OnlySyncs(f, TproxyRouting(f)) && OnlySyncs(f, TunRouting(f))
  {
  }

  lemma {:induction false} SyncsAreClean(foot: Foot, f: Family, steps: seq<Step>)
    requires OnlySyncs(f, steps)
    ensures CleanAll(foot, steps) && AfterAll(foot, steps) == foot
    decreases |steps|
  {
    if steps != [] {
      assert steps[0] in steps && forall s :: s in steps[1..] ==> s in steps;
      SyncsAreClean(foot, f, steps[1..]);
    }
  }

  /** A clean script behind the commands for policy routing. */
  lemma BehindIpClean(foot: Foot, f: Family, script: seq<Step>)
    requires CleanAll(foot, script)
    ensures CleanAll(foot, IpCleanup(f) + script) && AfterAll(foot, IpCleanup(f) + script) == AfterAll(foot, script)
  {
    hide CleanAll, AfterAll, OnlySyncs, IpCleanup;
    RoutingSyncs(f);
    SyncsAreClean(foot, f, IpCleanup(f));
    CleanConcat(foot, IpCleanup(f), script);
  }

  lemma NothingIsClean(foot: Foot)
    ensures CleanAll(foot, [])
  {
  }

  /** Two clean scripts in a row, the second clean whatever the first leaves. */
  lemma ThenClean(foot: Foot, a: seq<Step>, b: seq<Step>)
    requires Shaped(foot) && CleanAll(foot, a)
    requires Shaped(AfterAll(foot, a)) ==> CleanAll(AfterAll(foot, a), b)
    ensures CleanAll(foot, a + b)
    ensures AfterAll(foot, a + b) == AfterAll(AfterAll(foot, a), b) && Shaped(AfterAll(foot, a + b))
  {
    AfterAllWithin(foot, a);
    CleanConcat(foot, a, b);
    AfterAllWithin(foot, a + b);
  }

  const RD_CHAINS: seq<string> := ["BOX_RD_PRE_IP", "BOX_RD_PRE_IF", "BOX_RD_OUT_IP", "BOX_RD_OUT_APP"]
  const TP_CHAINS: seq<string> := [TP_PRE_IP, TP_PRE_IF, TP_OUT_IP, TP_OUT_APP]

  lemma PerfChainsAreOrphans()
    ensures forall c :: c in RD_CHAINS + TP_CHAINS ==> IsBoxCustomChain(c) && Parents(c) == {}
  {
  }

  lemma StopRedirectParts(c: Config, k: Capabilities, x: Context, f: Family)
    ensures StopRedirect(c, k, x, f)
         == LoopbackRejectCleanup(x, f, c.redirPort) + (ExternalCleanup(f, Nat) + LocalCleanup(f, Nat))
            + Cleanups(f, Nat, RD_CHAINS) + DnsNatCleanup(k, f)
  {
    hide LoopbackRejectCleanup, ExternalCleanup, LocalCleanup, Cleanups, DnsNatCleanup;
  }

  lemma RejectsAreDels(x: Context, f: Family, port: nat)
    ensures forall s :: s in LoopbackRejectCleanup(x, f, port) ==> s.op.DelRule? && IsBuiltin(s.op.chain)
  {
    hide LoopbackRejects, FixedLoopbackRejects;
  }

  lemma StopRedirectClean(foot: Foot, c: Config, k: Capabilities, x: Context, f: Family)
    requires Shaped(foot)
    ensures CleanAll(foot, StopRedirect(c, k, x, f))
  {
    var rejects, el := LoopbackRejectCleanup(x, f, c.redirPort), ExternalCleanup(f, Nat) + LocalCleanup(f, Nat);
    var perf, dns := Cleanups(f, Nat, RD_CHAINS), DnsNatCleanup(k, f);
    RejectsAreDels(x, f, c.redirPort);
    PerfChainsAreOrphans();
    hide *;
    StopRedirectParts(c, k, x, f);
    DelsAreClean(foot, rejects);
    AfterAllWithin(foot, rejects);
    var mid := AfterAll(foot, rejects);
    ExternalLocalClean(mid, f, Nat);
    AfterAllWithin(mid, el);
    ThenClean(foot, rejects, el);
    OrphansAreClean(AfterAll(mid, el), f, Nat, RD_CHAINS);
    ThenClean(foot, rejects + el, perf);
    AfterAllWithin(foot, rejects + el + perf);
    DnsNatClean(AfterAll(foot, rejects + el + perf), k, f);
    ThenClean(foot, rejects + el + perf, dns);
  }

  lemma DivertClean(foot: Foot, f: Family)
    requires Shaped(foot)
    ensures CleanAll(foot, DivertCleanup(f))
  {
    var dels := One(f, Mangle, DelRule("PREROUTING", DivertJump())) + One(f, Mangle, DelRule("PREROUTING", LegacyDivertJump()));
    UnhookAndClean(foot, f, Mangle, dels, DIVERT);
  }

  lemma TproxyRulesClean(foot: Foot, c: Config, x: Context, f: Family)
    requires Shaped(foot)
    ensures CleanAll(foot, QuicCleanup(f) + LoopbackRejectCleanup(x, f, c.tproxyPort) + FakeIpIcmpCleanup(c, f))
  {
    var rules := QuicCleanup(f) + LoopbackRejectCleanup(x, f, c.tproxyPort) + FakeIpIcmpCleanup(c, f);
    assert forall s :: s in rules ==> s.op.DelRule? && IsBuiltin(s.op.chain);
    DelsAreClean(foot, rules);
  }

  lemma TproxyChainsClean(foot: Foot, f: Family)
    requires Shaped(foot)
    ensures CleanAll(foot, ExternalCleanup(f, Mangle) + LocalCleanup(f, Mangle) + Cleanups(f, Mangle, TP_CHAINS) + DivertCleanup(f))
  {
    var el, perf, divert := ExternalCleanup(f, Mangle) + LocalCleanup(f, Mangle), Cleanups(f, Mangle, TP_CHAINS), DivertCleanup(f);
    PerfChainsAreOrphans();
    hide *;
    ExternalLocalClean(foot, f, Mangle);
    AfterAllWithin(foot, el);
    OrphansAreClean(AfterAll(foot, el), f, Mangle, TP_CHAINS);
    ThenClean(foot, el, perf);
    DivertClean(AfterAll(foot, el + perf), f);
    ThenClean(foot, el + perf, divert);
  }

  lemma StopTproxyParts(c: Config, k: Capabilities, x: Context, f: Family)
    ensures StopTproxyTables(c, k, x, f) ==
      (ExternalCleanup(f, Mangle) + LocalCleanup(f, Mangle) + Cleanups(f, Mangle, TP_CHAINS) + DivertCleanup(f))
      + ((QuicCleanup(f) + LoopbackRejectCleanup(x, f, c.tproxyPort) + FakeIpIcmpCleanup(c, f)) + DnsNatCleanup(k, f))
  {
    hide ExternalCleanup, LocalCleanup, Cleanups, DivertCleanup, QuicCleanup, LoopbackRejectCleanup, FakeIpIcmpCleanup, DnsNatCleanup;
  }

  lemma StopTproxyClean(foot: Foot, c: Config, k: Capabilities, x: Context, f: Family)
    requires Shaped(foot)
    ensures CleanAll(foot, StopTproxy(c, k, x, f))
  {
    var chains := ExternalCleanup(f, Mangle) + LocalCleanup(f, Mangle) + Cleanups(f, Mangle, TP_CHAINS) + DivertCleanup(f);
    var rules := QuicCleanup(f) + LoopbackRejectCleanup(x, f, c.tproxyPort) + FakeIpIcmpCleanup(c, f);
    hide *;
    StopTproxyParts(c, k, x, f);
    TproxyChainsClean(foot, f);
    AfterAllWithin(foot, chains);
    var mid := AfterAll(foot, chains);
    TproxyRulesClean(mid, c, x, f);
    AfterAllWithin(mid, rules);
    DnsNatClean(AfterAll(mid, rules), k, f);
    ThenClean(mid, rules, DnsNatCleanup(k, f));
    ThenClean(foot, chains, rules + DnsNatCleanup(k, f));
    BehindIpClean(foot, f, StopTproxyTables(c, k, x, f));
    StopTproxyIs(c, k, x, f);
  }

  lemma StopTproxyIs(c: Config, k: Capabilities, x: Context, f: Family)
    ensures StopTproxy(c, k, x, f) == IpCleanup(f) + StopTproxyTables(c, k, x, f)
  {
    hide IpCleanup, StopTproxyTables;
  }

  lemma StopTunClean(foot: Foot, f: Family)
    requires Shaped(foot)
    ensures CleanAll(foot, StopTunBypass(f))
  {
    StopTunTablesClean(foot, f);
    hide CleanAll, AfterAll, IpCleanup, StopTunTables;
    BehindIpClean(foot, f, StopTunTables(f));
  }

  lemma StopTunTablesClean(foot: Foot, f: Family)
    requires Shaped(foot)
    ensures CleanAll(foot, StopTunTables(f))
  {
    var pre, out := TunPreChain(f), TunOutChain(f);
    var dels := DelJump(f, Mangle, "PREROUTING", pre) + DelJump(f, Mangle, "OUTPUT", out);
    var first, last := dels + One(f, Mangle, CleanupChain(pre)), One(f, Mangle, CleanupChain(out));
    UnhookAndClean(foot, f, Mangle, dels, pre);
    assert StopTunTables(f) == first + last;
    assert Step(f, Mangle, DelRule("OUTPUT", Rule(Jump(out)))) in first;
    hide CleanAll, AfterAll, StopTunTables, TunPreChain, TunOutChain;
    AfterAllWithin(foot, first);
    GoneAfter(foot, first, Step(f, Mangle, DelRule("OUTPUT", Rule(Jump(out)))));
    TunOutClean(AfterAll(foot, first), f);
    CleanConcat(foot, first, last);
  }

  lemma TunOutClean(foot: Foot, f: Family)
    requires Shaped(foot) && (Mangle, "OUTPUT", Rule(Jump(TunOutChain(f)))) !in foot.hooks
    ensures CleanAll(foot, One(f, Mangle, CleanupChain(TunOutChain(f))))
  {
    CleanupIsClean(foot, f, Mangle, TunOutChain(f));
    hide Clean, Shaped;
    assert One(f, Mangle, CleanupChain(TunOutChain(f)))[1..] == [];
  }

  lemma RestClean(foot: Foot, c: Config, f: Family)
    requires Shaped(foot)
    ensures CleanAll(foot, ForwardCleanup(c, f)) && CleanAll(foot, LegacyCleanup(f))
    ensures CleanAll(foot, ForwardCleanup(c, f) + LegacyCleanup(f))
  {
    DelsAreClean(foot, ForwardCleanup(c, f));
    DelsAreClean(foot, LegacyCleanup(f));
    DelsAreClean(foot, ForwardCleanup(c, f) + LegacyCleanup(f));
  }

  lemma BothClean(foot: Foot, c: Config, k: Capabilities, x: Context, f: Family)
    requires Shaped(foot)
    ensures CleanAll(foot, StopRedirect(c, k, x, f) + StopTproxy(c, k, x, f))
  {
    hide *;
    StopRedirectClean(foot, c, k, x, f);
    AfterAllWithin(foot, StopRedirect(c, k, x, f));
    StopTproxyClean(AfterAll(foot, StopRedirect(c, k, x, f)), c, k, x, f);
    ThenClean(foot, StopRedirect(c, k, x, f), StopTproxy(c, k, x, f));
  }

  /** A clean script stays clean with the rule cleanups behind it. */
  lemma AndRestClean(foot: Foot, script: seq<Step>, c: Config, f: Family)
    requires Shaped(foot) && CleanAll(foot, script)
    ensures CleanAll(foot, script + LegacyCleanup(f))
    ensures CleanAll(foot, script + ForwardCleanup(c, f) + LegacyCleanup(f))
  {
    hide CleanAll, AfterAll, ForwardCleanup, LegacyCleanup, Shaped;
    AfterAllWithin(foot, script);
    RestClean(AfterAll(foot, script), c, f);
    ThenClean(foot, script, LegacyCleanup(f));
    ThenClean(foot, script, ForwardCleanup(c, f) + LegacyCleanup(f));
    assert script + ForwardCleanup(c, f) + LegacyCleanup(f) == script + (ForwardCleanup(c, f) + LegacyCleanup(f));
  }

  /** Every mode's teardown, and the one for an unknown mode, is clean. */
  lemma StopsAreClean(foot: Foot, c: Config, k: Capabilities, x: Context, f: Family)
    requires Shaped(foot)
    ensures CleanAll(foot, ModeStop(c, k, x, f)) && CleanAll(foot, StopAll(c, k, x, f))
  {
    hide CleanAll, AfterAll, StopRedirect, StopTproxy, StopTunBypass, ForwardCleanup, LegacyCleanup, Shaped;
    StopRedirectClean(foot, c, k, x, f);
    StopTproxyClean(foot, c, k, x, f);
    StopTunClean(foot, f);
    BothClean(foot, c, k, x, f);
    var both := StopRedirect(c, k, x, f) + StopTproxy(c, k, x, f);
    AfterAllWithin(foot, both);
    StopTunClean(AfterAll(foot, both), f);
    ThenClean(foot, both, StopTunBypass(f));
    AndRestClean(foot, StopRedirect(c, k, x, f), c, f);
    AndRestClean(foot, StopTproxy(c, k, x, f), c, f);
    AndRestClean(foot, StopTunBypass(f), c, f);
    AndRestClean(foot, both, c, f);
    AndRestClean(foot, both + StopTunBypass(f), c, f);
    NothingIsClean(foot);
  }

  // ----- what teardown scripts name -----

  predicate ShapedStep(f: Family, s: Step) {
    && s.family == f
    && (s.op.DelRule? || s.op.CleanupChain? || s.op.Sync?)
    && (s.op.DelRule? ==> IsBuiltin(s.op.chain) && (s.op.rule.target.Jump? ==> (s.op.chain, s.op.rule) in Parents(s.op.rule.target.chain)))
    && (s.op.CleanupChain? ==> IsBoxCustomChain(s.op.chain))
  }

  ghost predicate ShapedSteps(f: Family, steps: seq<Step>) { forall s :: s in steps ==> ShapedStep(f, s) }

  lemma FootprintShaped(f: Family, steps: seq<Step>)
    requires ShapedSteps(f, steps)
    ensures Shaped(Footprint(steps))
  {
  }

  lemma DnsChainShaped(f: Family, c: string)
    requires IsDnsChain(c)
    ensures ShapedSteps(f, DnsChainCleanup(f, c))
  {
  }

  lemma DnsNatShaped(k: Capabilities, f: Family)
    ensures ShapedSteps(f, DnsNatCleanup(k, f))
  {
    hide ShapedStep, DnsChainCleanup;
    DnsChainShaped(f, HijackPre(f));
    DnsChainShaped(f, HijackOut(f));
    DnsChainShaped(f, ForwardPre(f));
    DnsChainShaped(f, ForwardOut(f));
  }

  lemma ExternalLocalShaped(f: Family, t: TableName)
    ensures ShapedSteps(f, ExternalCleanup(f, t)) && ShapedSteps(f, LocalCleanup(f, t))
  {
  }

  lemma CleanupsShaped(f: Family, t: TableName, chains: seq<string>)
    requires forall c :: c in chains ==> IsBoxCustomChain(c)
    ensures ShapedSteps(f, Cleanups(f, t, chains))
  {
  }

  lemma DelRulesShaped(f: Family, t: TableName, chain: string, rules: seq<Rule>)
    requires IsBuiltin(chain) && NoJumps(rules)
    ensures ShapedSteps(f, DelRules(f, t, chain, rules))
  {
  }

  lemma StopRedirectShaped(c: Config, k: Capabilities, x: Context, f: Family)
    ensures ShapedSteps(f, StopRedirect(c, k, x, f))
  {
    DelRulesShaped(f, Filter, "OUTPUT", LoopbackRejects(x, f, c.redirPort) + FixedLoopbackRejects(f, c.redirPort));
    PerfChainsAreOrphans();
    hide ShapedStep, DelRules, ExternalCleanup, LocalCleanup, Cleanups, DnsNatCleanup, IsBoxCustomChain;
    ExternalLocalShaped(f, Nat);
    CleanupsShaped(f, Nat, RD_CHAINS);
    DnsNatShaped(k, f);
  }

  lemma SyncsShaped(f: Family)
    ensures ShapedSteps(f, IpCleanup(f))
  {
  }

  lemma StopTproxyShaped(c: Config, k: Capabilities, x: Context, f: Family)
    ensures ShapedSteps(f, StopTproxy(c, k, x, f))
  {
    SyncsShaped(f);
    StopTproxyTablesShaped(c, k, x, f);
    hide ShapedStep, IpCleanup, StopTproxyTables;
  }

  lemma StopTproxyTablesShaped(c: Config, k: Capabilities, x: Context, f: Family)
    ensures ShapedSteps(f, StopTproxyTables(c, k, x, f))
  {
    DelRulesShaped(f, Filter, "OUTPUT", LoopbackRejects(x, f, c.tproxyPort) + FixedLoopbackRejects(f, c.tproxyPort));
    assert ShapedSteps(f, DivertCleanup(f));
    assert ShapedSteps(f, QuicCleanup(f));
    assert ShapedSteps(f, FakeIpIcmpCleanup(c, f));
    PerfChainsAreOrphans();
    hide ShapedStep, DelRules, ExternalCleanup, LocalCleanup, Cleanups, DnsNatCleanup, IsBoxCustomChain, DivertCleanup,
      QuicCleanup, FakeIpIcmpCleanup;
    ExternalLocalShaped(f, Mangle);
    CleanupsShaped(f, Mangle, TP_CHAINS);
    DnsNatShaped(k, f);
  }

  lemma RestShaped(c: Config, f: Family)
    ensures ShapedSteps(f, StopTunBypass(f)) && ShapedSteps(f, ForwardCleanup(c, f)) && ShapedSteps(f, LegacyCleanup(f))
  {
  }

  lemma StopsAreShaped(c: Config, k: Capabilities, x: Context, f: Family)
    ensures ShapedSteps(f, ModeStop(c, k, x, f)) && ShapedSteps(f, StopAll(c, k, x, f))
  {
    hide ShapedStep, StopRedirect, StopTproxy, StopTunBypass, ForwardCleanup, LegacyCleanup;
    StopRedirectShaped(c, k, x, f);
    StopTproxyShaped(c, k, x, f);
    RestShaped(c, f);
  }

  // ----- setup only adds what the teardown names -----

  ghost predicate Includes(stop: seq<Step>, part: seq<Step>) { forall s :: s in part ==> s in stop }

  lemma Named(stop: seq<Step>, s: Step)
    requires s in stop
    ensures s.op.CleanupChain? ==> (s.table, s.op.chain) in Footprint(stop).live
    ensures s.op.DelRule? ==> (s.table, s.op.chain, s.op.rule) in Footprint(stop).hooks
  {
  }

  lemma BuiltinNotLive(f: Family, stop: seq<Step>, t: TableName, c: string)
    requires ShapedSteps(f, stop) && IsBuiltin(c)
    ensures (t, c) !in Footprint(stop).live
  {
    BuiltinsAreNotCustom(c);
    FootprintShaped(f, stop);
  }

  /** A chain the teardown removes may be created and filled with rules that keep to the known jumps. */
  lemma ChainPermitted(f: Family, stop: seq<Step>, t: TableName, c: string, rules: seq<Rule>)
    requires ShapedSteps(f, stop) && Step(f, t, CleanupChain(c)) in stop && EdgesOnly(c, rules)
    ensures PermitsAll(f, Footprint(stop), One(f, t, EnsureChain(c)))
    ensures PermitsAll(f, Footprint(stop), Appends(f, t, c, rules))
    ensures NoJumps(rules) ==> PermitsAll(f, Footprint(stop), Attempts(f, t, c, rules))
  {
    Named(stop, Step(f, t, CleanupChain(c)));
    var foot := Footprint(stop);
    assert IsBoxCustomChain(c) by { assert ShapedStep(f, Step(f, t, CleanupChain(c))); }
    hide Footprint, IsBoxCustomChain;
    forall s | s in Appends(f, t, c, rules) ensures s.family == f && Permits(foot, s) {
      assert s.op.rule in rules;
    }
    forall s | NoJumps(rules) && s in Attempts(f, t, c, rules) ensures s.family == f && Permits(foot, s) {
      var i :| 0 <= i < |rules| && s == Attempts(f, t, c, rules)[i];
      assert rules[i] in rules;
    }
  }

  lemma VariantsPermitted(f: Family, stop: seq<Step>, t: TableName, c: string, rules: seq<Rule>, fallback: Option<Rule>)
    requires Step(f, t, CleanupChain(c)) in stop && NoJumps(rules) && (fallback.Some? ==> !fallback.value.target.Jump?)
    ensures PermitsAll(f, Footprint(stop), One(f, t, InsertFirst(c, rules, fallback)))
    ensures PermitsAll(f, Footprint(stop), One(f, t, AppendFirst(c, rules)))
  {
    Named(stop, Step(f, t, CleanupChain(c)));
  }

  lemma JumpPermitted(f: Family, stop: seq<Step>, t: TableName, parent: string, c: string)
    requires ShapedSteps(f, stop) && IsBuiltin(parent) && Step(f, t, DelRule(parent, Rule(Jump(c)))) in stop
    ensures PermitsAll(f, Footprint(stop), One(f, t, EnsureJump(parent, c)))
  {
    Named(stop, Step(f, t, DelRule(parent, Rule(Jump(c)))));
    BuiltinNotLive(f, stop, t, parent);
  }

  lemma HookPermitted(f: Family, stop: seq<Step>, t: TableName, c: string, r: Rule)
    requires ShapedSteps(f, stop) && IsBuiltin(c) && Step(f, t, DelRule(c, r)) in stop
    ensures PermitsAll(f, Footprint(stop), One(f, t, EnsureInsert(c, r)))
    ensures PermitsAll(f, Footprint(stop), One(f, t, EnsureAppend(c, r)))
  {
    Named(stop, Step(f, t, DelRule(c, r)));
    BuiltinNotLive(f, stop, t, c);
    BuiltinsAreNotCustom(c);
  }

  lemma FirstPermitted(f: Family, stop: seq<Step>, t: TableName, c: string, rules: seq<Rule>)
    requires ShapedSteps(f, stop) && IsBuiltin(c) && NoJumps(rules)
    requires forall r :: r in rules ==> Step(f, t, DelRule(c, r)) in stop
    ensures PermitsAll(f, Footprint(stop), One(f, t, EnsureFirst(c, rules)))
  {
    forall r | r in rules ensures (t, c, r) in Footprint(stop).hooks {
      Named(stop, Step(f, t, DelRule(c, r)));
    }
    BuiltinNotLive(f, stop, t, c);
  }

  lemma NoJumpsKeep(c: string, rules: seq<Rule>)
    requires NoJumps(rules)
    ensures EdgesOnly(c, rules)
  {
  }

  lemma DnsChainPermitted(f: Family, stop: seq<Step>, c: string, rules: seq<Rule>, x: Context)
    requires ShapedSteps(f, stop) && Includes(stop, DnsChainCleanup(f, c)) && NoJumps(rules)
    ensures PermitsAll(f, Footprint(stop), One(f, Nat, EnsureChain(c)))
    ensures PermitsAll(f, Footprint(stop), Appends(f, Nat, c, rules))
    ensures PermitsAll(f, Footprint(stop), One(f, Nat, InsertFirst(c, CoreBypassVariants(x), None)))
    ensures PermitsAll(f, Footprint(stop), One(f, Nat, EnsureJump("PREROUTING", c)))
    ensures PermitsAll(f, Footprint(stop), One(f, Nat, EnsureJump("OUTPUT", c)))
  {
    var part := DnsChainCleanup(f, c);
    assert part[0] in part && part[1] in part && part[2] in part;
    NoJumpsKeep(c, rules);
    hide Footprint, ShapedSteps, PermitsAll, CoreBypassVariants;
    ChainPermitted(f, stop, Nat, c, rules);
    VariantsPermitted(f, stop, Nat, c, CoreBypassVariants(x), None);
    JumpPermitted(f, stop, Nat, "PREROUTING", c);
    JumpPermitted(f, stop, Nat, "OUTPUT", c);
  }

  lemma PermitsBoth(f: Family, foot: Foot, a: seq<Step>, b: seq<Step>)
    requires PermitsAll(f, foot, a) && PermitsAll(f, foot, b)
    ensures PermitsAll(f, foot, a + b)
  {
    hide Permits;
  }

  lemma DnsChainsIncluded(f: Family, stop: seq<Step>, k: Capabilities)
    requires Includes(stop, DnsNatCleanup(k, f)) && !(f == V6 && !k.ip6Nat)
    ensures Includes(stop, DnsChainCleanup(f, HijackPre(f))) && Includes(stop, DnsChainCleanup(f, HijackOut(f)))
    ensures Includes(stop, DnsChainCleanup(f, ForwardPre(f)))
  {
    hide DnsChainCleanup, HijackPre, HijackOut, ForwardPre, ForwardOut;
  }

  lemma DnsHijackPermitted(f: Family, stop: seq<Step>, c: Config, x: Context)
    requires ShapedSteps(f, stop)
    requires Includes(stop, DnsChainCleanup(f, HijackPre(f))) && Includes(stop, DnsChainCleanup(f, HijackOut(f)))
    ensures PermitsAll(f, Footprint(stop), DnsHijackSetup(c, x, f))
  {
    var pre, out, foot := HijackPre(f), HijackOut(f), Footprint(stop);
    var a, b := DnsHijackRules(c, f, true), DnsHijackRules(c, f, false);
    var s1, s2, s3 := One(f, Nat, EnsureChain(pre)), One(f, Nat, EnsureChain(out)), Appends(f, Nat, pre, a);
    var s4, s5 := One(f, Nat, InsertFirst(out, CoreBypassVariants(x), None)), Appends(f, Nat, out, b);
    var s6, s7 := One(f, Nat, EnsureJump("PREROUTING", pre)), One(f, Nat, EnsureJump("OUTPUT", out));
    assert DnsHijackSetup(c, x, f) == s1 + s2 + s3 + s4 + s5 + s6 + s7;
    hide *;
    DnsChainPermitted(f, stop, pre, a, x);
    DnsChainPermitted(f, stop, out, b, x);
    PermitsBoth(f, foot, s1, s2);
    PermitsBoth(f, foot, s1 + s2, s3);
    PermitsBoth(f, foot, s1 + s2 + s3, s4);
    PermitsBoth(f, foot, s1 + s2 + s3 + s4, s5);
    PermitsBoth(f, foot, s1 + s2 + s3 + s4 + s5, s6);
    PermitsBoth(f, foot, s1 + s2 + s3 + s4 + s5 + s6, s7);
  }

  lemma DnsForwardPermitted(f: Family, stop: seq<Step>, c: Config, x: Context)
    requires ShapedSteps(f, stop) && Includes(stop, DnsChainCleanup(f, ForwardPre(f)))
    ensures PermitsAll(f, Footprint(stop), DnsForwardSetup(c, x, f))
  {
    var pre, foot, rules := ForwardPre(f), Footprint(stop), DnsForwardRules(c, f);
    var s1, s2 := One(f, Nat, EnsureChain(pre)), One(f, Nat, InsertFirst(pre, CoreBypassVariants(x), None));
    var s3, s4 := Appends(f, Nat, pre, rules), One(f, Nat, EnsureJump("OUTPUT", pre));
    assert DnsForwardSetup(c, x, f) == s1 + s2 + s3 + s4;
    hide *;
    DnsChainPermitted(f, stop, pre, rules, x);
    PermitsBoth(f, foot, s1, s2);
    PermitsBoth(f, foot, s1 + s2, s3);
    PermitsBoth(f, foot, s1 + s2 + s3, s4);
  }

  lemma DnsNatPermitted(f: Family, stop: seq<Step>, c: Config, k: Capabilities, x: Context)
    requires ShapedSteps(f, stop) && Includes(stop, DnsNatCleanup(k, f))
    ensures PermitsAll(f, Footprint(stop), DnsNatSetup(c, k, x, f))
  {
    hide Footprint, ShapedSteps, Permits, Includes, DnsHijackSetup, DnsForwardSetup, DnsNatCleanup;
    if DnsNatSetup(c, k, x, f) != [] {
      DnsChainsIncluded(f, stop, k);
      DnsHijackPermitted(f, stop, c, x);
      DnsForwardPermitted(f, stop, c, x);
    }
  }

  lemma ExternalBodyEdges(c: Config, k: Capabilities, f: Family, action: Action)
    ensures EdgesOnly(EXTERNAL, ExternalBody(c, k, f, action))
  {
    assert NoJumps(CnipRule(c, k, f, EXTERNAL, Return));
    assert NoJumps(IfaceRules(c.blockedIfs, Return));
    hide CnipRule, SubnetReturns, IfaceRules, ExternalLoopbackRules, ExternalApRules;
  }

  lemma CommonBypassEdges(c: Config, k: Capabilities, f: Family)
    ensures EdgesOnly(LOCAL, CommonBypassRules(c, k, f, LOCAL))
  {
    assert NoJumps(CnipRule(c, k, f, LOCAL, Return));
    hide CnipRule, SubnetReturns;
  }

  lemma LocalRulesEdges(c: Config, k: Capabilities, x: Context, f: Family)
    ensures EdgesOnly(LOCAL, RedirectLocalRules(c, k, x, f)) && EdgesOnly(LOCAL, TproxyLocalRules(c, k, x, f))
  {
    CommonBypassEdges(c, k, f);
    hide CommonBypassRules, ReplyBypass, CnipForceLocalRules, LocalProxyRules, MangleDnsRules, FakeIp6Rules, Edge;
  }

  lemma PerfJumpEdges(c: Config)
    ensures EdgesOnly(EXTERNAL, PerfJumps(c, TP_PRE_IP) + PerfJumps(c, TP_PRE_IF))
    ensures EdgesOnly(LOCAL, PerfJumps(c, TP_OUT_IP) + PerfJumps(c, TP_OUT_APP))
  {
  }

  lemma PerfRulesEdges(c: Config, k: Capabilities, x: Context, f: Family)
    ensures EdgesOnly(LOCAL, PerfLocalRules(c, k, x, f)) && EdgesOnly(EXTERNAL, PerfExternalRules(c, k, f))
  {
    PerfJumpEdges(c);
    hide PerfJumps, ReplyBypass, CnipForceLocalRules, MangleDnsRules, FakeIp6Rules, ConnmarkSets, ConnmarkMarks,
      ExternalPrefix, ConnmarkDispatches, Edge;
  }

  /** What the cleanups of the external, local and local-IP chains name. */
  lemma MainChainsNamed(f: Family, stop: seq<Step>, t: TableName)
    requires Includes(stop, ExternalCleanup(f, t)) && Includes(stop, LocalCleanup(f, t))
    ensures Step(f, t, CleanupChain(EXTERNAL)) in stop && Step(f, t, DelRule("PREROUTING", Rule(Jump(EXTERNAL)))) in stop
    ensures Step(f, t, CleanupChain(LOCAL)) in stop && Step(f, t, DelRule("OUTPUT", Rule(Jump(LOCAL)))) in stop
    ensures Step(f, t, CleanupChain(LocalIpChain(f))) in stop
  {
    var e, l := ExternalCleanup(f, t), LocalCleanup(f, t);
    assert e[0] in e && e[1] in e && l[0] in l && l[1] in l && l[2] in l;
  }

  lemma SyncsPermitted(f: Family, foot: Foot, steps: seq<Step>)
    requires OnlySyncs(f, steps)
    ensures PermitsAll(f, foot, steps)
  {
  }

  lemma LocalIpPermitted(f: Family, stop: seq<Step>, t: TableName, c: Config, k: Capabilities)
    requires ShapedSteps(f, stop) && Step(f, t, CleanupChain(LocalIpChain(f))) in stop
    ensures PermitsAll(f, Footprint(stop), LocalIpSetup(c, k, f, t))
  {
    Named(stop, Step(f, t, CleanupChain(LocalIpChain(f))));
    hide Footprint, LocalIpChain, RestoringOf;
  }

  lemma LocalStartPermitted(f: Family, stop: seq<Step>, t: TableName, x: Context)
    requires ShapedSteps(f, stop) && Step(f, t, CleanupChain(LOCAL)) in stop
    ensures PermitsAll(f, Footprint(stop), LocalChainStart(x, f, t))
  {
    ChainPermitted(f, stop, t, LOCAL, []);
    VariantsPermitted(f, stop, t, LOCAL, CoreBypassVariants(x), Some(Rule(Return, mark := Some(FWMARK))));
  }

  lemma RejectsPermitted(f: Family, stop: seq<Step>, x: Context, port: nat)
    requires ShapedSteps(f, stop) && Includes(stop, LoopbackRejectCleanup(x, f, port))
    ensures PermitsAll(f, Footprint(stop), LoopbackRejectSetup(x, f, port))
  {
    var rules := LoopbackRejects(x, f, port);
    forall r | r in rules ensures Step(f, Filter, DelRule("OUTPUT", r)) in stop {
      var i :| 0 <= i < |rules| && rules[i] == r;
      assert LoopbackRejectCleanup(x, f, port)[i] in LoopbackRejectCleanup(x, f, port);
    }
    FirstPermitted(f, stop, Filter, "OUTPUT", rules);
  }

  lemma RedirectExternalPermitted(f: Family, stop: seq<Step>, c: Config, k: Capabilities, x: Context)
    requires ShapedSteps(f, stop) && Includes(stop, ExternalCleanup(f, Nat)) && Includes(stop, LocalCleanup(f, Nat))
    requires Includes(stop, DnsNatCleanup(k, f))
    ensures PermitsAll(f, Footprint(stop), RedirectExternalSetup(c, k, x, f))
  {
    MainChainsNamed(f, stop, Nat);
    ExternalBodyEdges(c, k, f, ActRedirect);
    NoJumpsKeep(EXTERNAL, ReplyBypass(c, k));
    hide Footprint, ShapedSteps, Permits, ReplyBypass, ExternalBody, DnsNatSetup, LocalIpSetup, DnsNatCleanup, Includes;
    ChainPermitted(f, stop, Nat, EXTERNAL, ReplyBypass(c, k));
    ChainPermitted(f, stop, Nat, EXTERNAL, ExternalBody(c, k, f, ActRedirect));
    DnsNatPermitted(f, stop, c, k, x);
    LocalIpPermitted(f, stop, Nat, c, k);
    JumpPermitted(f, stop, Nat, "PREROUTING", EXTERNAL);
  }

  lemma RedirectLocalPermitted(f: Family, stop: seq<Step>, c: Config, k: Capabilities, x: Context)
    requires ShapedSteps(f, stop) && Includes(stop, ExternalCleanup(f, Nat)) && Includes(stop, LocalCleanup(f, Nat))
    ensures PermitsAll(f, Footprint(stop), RedirectLocalSetup(c, k, x, f))
  {
    MainChainsNamed(f, stop, Nat);
    LocalRulesEdges(c, k, x, f);
    hide Footprint, ShapedSteps, Permits, RedirectLocalRules, LocalChainStart, Includes;
    LocalStartPermitted(f, stop, Nat, x);
    ChainPermitted(f, stop, Nat, LOCAL, RedirectLocalRules(c, k, x, f));
    JumpPermitted(f, stop, Nat, "OUTPUT", LOCAL);
  }

  lemma StopRedirectIncludes(c: Config, k: Capabilities, x: Context, f: Family)
    ensures var stop := StopRedirect(c, k, x, f);
      && Includes(stop, LoopbackRejectCleanup(x, f, c.redirPort)) && Includes(stop, ExternalCleanup(f, Nat))
      && Includes(stop, LocalCleanup(f, Nat)) && Includes(stop, DnsNatCleanup(k, f))
  {
  }

  lemma StartRedirectPermitted(f: Family, stop: seq<Step>, c: Config, k: Capabilities, x: Context)
    requires ShapedSteps(f, stop) && Includes(stop, StopRedirect(c, k, x, f))
    ensures PermitsAll(f, Footprint(stop), StartRedirect(c, k, x, f))
  {
    StopRedirectIncludes(c, k, x, f);
    hide Footprint, ShapedSteps, Permits, StopRedirect, RedirectExternalSetup, RedirectLocalSetup, LoopbackRejectSetup,
      ExternalCleanup, LocalCleanup, DnsNatCleanup, LoopbackRejectCleanup;
    RedirectExternalPermitted(f, stop, c, k, x);
    RedirectLocalPermitted(f, stop, c, k, x);
    RejectsPermitted(f, stop, x, c.redirPort);
  }

  lemma PerfDestPermitted(f: Family, stop: seq<Step>, c: Config, k: Capabilities, chain: string)
    requires ShapedSteps(f, stop) && Step(f, Mangle, CleanupChain(chain)) in stop
    ensures PermitsAll(f, Footprint(stop), PerfDestSetup(c, k, f, chain))
  {
    var a, b, l := PerfBypassRules(c, k, f, chain), PerfAddrtypeRules(k), PerfLoopbackRules(c, f);
    NoJumpsKeep(chain, a);
    NoJumpsKeep(chain, b);
    NoJumpsKeep(chain, l);
    hide Footprint, ShapedSteps, Permits, PerfBypassRules, PerfAddrtypeRules, PerfLoopbackRules;
    ChainPermitted(f, stop, Mangle, chain, a);
    ChainPermitted(f, stop, Mangle, chain, b);
    ChainPermitted(f, stop, Mangle, chain, l);
  }

  lemma PerfChainsNamed(f: Family, stop: seq<Step>, chain: string)
    requires Includes(stop, Cleanups(f, Mangle, TP_CHAINS)) && chain in TP_CHAINS
    ensures Step(f, Mangle, CleanupChain(chain)) in stop
  {
    var i :| 0 <= i < |TP_CHAINS| && TP_CHAINS[i] == chain;
    assert Cleanups(f, Mangle, TP_CHAINS)[i] in Cleanups(f, Mangle, TP_CHAINS);
  }

  lemma TproxyExternalPermitted(f: Family, stop: seq<Step>, c: Config, k: Capabilities)
    requires ShapedSteps(f, stop) && Includes(stop, ExternalCleanup(f, Mangle)) && Includes(stop, LocalCleanup(f, Mangle))
    requires Includes(stop, Cleanups(f, Mangle, TP_CHAINS)) && !PerformanceChain(c, k)
    ensures PermitsAll(f, Footprint(stop), TproxyExternalSetup(c, k, f))
  {
    MainChainsNamed(f, stop, Mangle);
    ExternalBodyEdges(c, k, f, ActTproxy);
    NoJumpsKeep(EXTERNAL, ExternalPrefix(c, k, f, ActTproxy));
    hide Footprint, ShapedSteps, Permits, ExternalPrefix, ExternalBody, LocalIpSetup, Includes, PerformanceChain;
    ChainPermitted(f, stop, Mangle, EXTERNAL, ExternalPrefix(c, k, f, ActTproxy));
    ChainPermitted(f, stop, Mangle, EXTERNAL, ExternalBody(c, k, f, ActTproxy));
    LocalIpPermitted(f, stop, Mangle, c, k);
    JumpPermitted(f, stop, Mangle, "PREROUTING", EXTERNAL);
  }

  lemma PerfExternalParts(c: Config, k: Capabilities, f: Family)
    requires PerformanceChain(c, k)
    ensures var create, dest := One(f, Mangle, EnsureChain(EXTERNAL)), PerfDestSetup(c, k, f, TP_PRE_IP);
      var ifs := One(f, Mangle, EnsureChain(TP_PRE_IF)) + Appends(f, Mangle, TP_PRE_IF, PerfIfRules(c));
      var fill := Appends(f, Mangle, EXTERNAL, PerfExternalRules(c, k, f)) + One(f, Mangle, EnsureJump("PREROUTING", EXTERNAL));
      TproxyExternalSetup(c, k, f) == create + dest + ifs + fill
  {
    hide One, Appends, PerfDestSetup, PerfIfRules, PerfExternalRules;
  }

  lemma PerfExternalPermitted(f: Family, stop: seq<Step>, c: Config, k: Capabilities)
    requires ShapedSteps(f, stop) && Includes(stop, ExternalCleanup(f, Mangle)) && Includes(stop, LocalCleanup(f, Mangle))
    requires Includes(stop, Cleanups(f, Mangle, TP_CHAINS)) && PerformanceChain(c, k)
    ensures PermitsAll(f, Footprint(stop), TproxyExternalSetup(c, k, f))
  {
    var foot := Footprint(stop);
    assert IsBuiltin("PREROUTING") && TP_PRE_IF in TP_CHAINS && TP_PRE_IP in TP_CHAINS;
    NoJumpsKeep(TP_PRE_IF, PerfIfRules(c));
    hide *;
    MainChainsNamed(f, stop, Mangle);
    PerfRulesEdges(c, k, Context(0, 0, [], [], [], false, false), f);
    PerfChainsNamed(f, stop, TP_PRE_IP);
    PerfChainsNamed(f, stop, TP_PRE_IF);
    JumpPermitted(f, stop, Mangle, "PREROUTING", EXTERNAL);
    PerfDestPermitted(f, stop, c, k, TP_PRE_IP);
    var create, dest := One(f, Mangle, EnsureChain(EXTERNAL)), PerfDestSetup(c, k, f, TP_PRE_IP);
    var ifs := One(f, Mangle, EnsureChain(TP_PRE_IF)) + Appends(f, Mangle, TP_PRE_IF, PerfIfRules(c));
    var fill := Appends(f, Mangle, EXTERNAL, PerfExternalRules(c, k, f)) + One(f, Mangle, EnsureJump("PREROUTING", EXTERNAL));
    PerfExternalParts(c, k, f);
    ChainPermitted(f, stop, Mangle, EXTERNAL, PerfExternalRules(c, k, f));
    ChainPermitted(f, stop, Mangle, TP_PRE_IF, PerfIfRules(c));
    PermitsBoth(f, foot, One(f, Mangle, EnsureChain(TP_PRE_IF)), Appends(f, Mangle, TP_PRE_IF, PerfIfRules(c)));
    PermitsBoth(f, foot, Appends(f, Mangle, EXTERNAL, PerfExternalRules(c, k, f)), One(f, Mangle, EnsureJump("PREROUTING", EXTERNAL)));
    PermitsBoth(f, foot, create, dest);
    PermitsBoth(f, foot, create + dest, ifs);
    PermitsBoth(f, foot, create + dest + ifs, fill);
  }

  function FastLocalSteps(c: Config, k: Capabilities, x: Context, f: Family): seq<Step> {
    PerfDestSetup(c, k, f, TP_OUT_IP)
      + One(f, Mangle, EnsureChain(TP_OUT_APP)) + Appends(f, Mangle, TP_OUT_APP, PerfAppRules(c, x, f))
      + Appends(f, Mangle, LOCAL, PerfLocalRules(c, k, x, f))
  }

  lemma SlowExternalParts(c: Config, k: Capabilities, f: Family)
    requires !PerformanceChain(c, k)
    ensures TproxyExternalSetup(c, k, f)
         == One(f, Mangle, EnsureChain(EXTERNAL)) + Appends(f, Mangle, EXTERNAL, ExternalPrefix(c, k, f, ActTproxy))
            + LocalIpSetup(c, k, f, Mangle) + Appends(f, Mangle, EXTERNAL, ExternalBody(c, k, f, ActTproxy))
            + One(f, Mangle, EnsureJump("PREROUTING", EXTERNAL))
  {
    hide One, Appends, LocalIpSetup, ExternalPrefix, ExternalBody;
  }

  lemma TunTablesParts(c: Config, k: Capabilities, x: Context, f: Family)
    ensures var pre, out := TunPreChain(f), TunOutChain(f);
      TunTables(c, k, x, f)
        == One(f, Mangle, EnsureChain(pre)) + One(f, Mangle, EnsureChain(out)) + Appends(f, Mangle, pre, TunPreRules(c, k, f))
           + One(f, Mangle, AppendFirst(out, CoreBypassVariants(x))) + Appends(f, Mangle, out, TunOutRules(c, k, x, f))
           + One(f, Mangle, EnsureJump("PREROUTING", pre)) + One(f, Mangle, EnsureJump("OUTPUT", out))
  {
    hide One, Appends, TunPreRules, TunOutRules, CoreBypassVariants, TunPreChain, TunOutChain;
  }

  lemma HijackParts(c: Config, x: Context, f: Family)
    ensures var pre, out := HijackPre(f), HijackOut(f);
      DnsHijackSetup(c, x, f)
        == One(f, Nat, EnsureChain(pre)) + One(f, Nat, EnsureChain(out)) + Appends(f, Nat, pre, DnsHijackRules(c, f, true))
           + One(f, Nat, InsertFirst(out, CoreBypassVariants(x), None)) + Appends(f, Nat, out, DnsHijackRules(c, f, false))
           + One(f, Nat, EnsureJump("PREROUTING", pre)) + One(f, Nat, EnsureJump("OUTPUT", out))
  {
    hide One, Appends, DnsHijackRules, CoreBypassVariants, HijackPre, HijackOut;
  }

  /** The fast external setup, part by part. */
  lemma FastExternalParts(c: Config, k: Capabilities, f: Family)
    requires PerformanceChain(c, k)
    ensures TproxyExternalSetup(c, k, f)
         == One(f, Mangle, EnsureChain(EXTERNAL)) + PerfDestSetup(c, k, f, TP_PRE_IP) + One(f, Mangle, EnsureChain(TP_PRE_IF))
            + Appends(f, Mangle, TP_PRE_IF, PerfIfRules(c)) + Appends(f, Mangle, EXTERNAL, PerfExternalRules(c, k, f))
            + One(f, Mangle, EnsureJump("PREROUTING", EXTERNAL))
  {
    hide PerfDestSetup, PerfIfRules, PerfExternalRules, Appends, One;
  }

  lemma LocalSetupSplit(c: Config, k: Capabilities, x: Context, f: Family)
    ensures TproxyLocalSetup(c, k, x, f) == LocalChainStart(x, f, Mangle)
      + (if PerformanceChain(c, k) then FastLocalSteps(c, k, x, f) else Appends(f, Mangle, LOCAL, TproxyLocalRules(c, k, x, f)))
      + One(f, Mangle, EnsureJump("OUTPUT", LOCAL))
  {
    hide LocalChainStart, PerformanceChain, PerfDestSetup, Appends, One, PerfAppRules, PerfLocalRules, TproxyLocalRules;
  }

  lemma FastLocalPermitted(f: Family, stop: seq<Step>, c: Config, k: Capabilities, x: Context)
    requires ShapedSteps(f, stop) && Includes(stop, Cleanups(f, Mangle, TP_CHAINS)) && Step(f, Mangle, CleanupChain(LOCAL)) in stop
    ensures PermitsAll(f, Footprint(stop), FastLocalSteps(c, k, x, f))
  {
    var foot, dest, app := Footprint(stop), PerfDestSetup(c, k, f, TP_OUT_IP), One(f, Mangle, EnsureChain(TP_OUT_APP));
    var apps, fast := Appends(f, Mangle, TP_OUT_APP, PerfAppRules(c, x, f)), Appends(f, Mangle, LOCAL, PerfLocalRules(c, k, x, f));
    assert TP_OUT_IP == TP_CHAINS[2] && TP_OUT_APP == TP_CHAINS[3];
    assert FastLocalSteps(c, k, x, f) == dest + app + apps + fast;
    assert NoJumps(PerfAppRules(c, x, f));
    hide *;
    PerfChainsNamed(f, stop, TP_OUT_IP);
    PerfChainsNamed(f, stop, TP_OUT_APP);
    PerfRulesEdges(c, k, x, f);
    NoJumpsKeep(TP_OUT_APP, PerfAppRules(c, x, f));
    PerfDestPermitted(f, stop, c, k, TP_OUT_IP);
    ChainPermitted(f, stop, Mangle, TP_OUT_APP, PerfAppRules(c, x, f));
    ChainPermitted(f, stop, Mangle, LOCAL, PerfLocalRules(c, k, x, f));
    PermitsBoth(f, foot, dest, app);
    PermitsBoth(f, foot, dest + app, apps);
    PermitsBoth(f, foot, dest + app + apps, fast);
  }

  lemma TproxyLocalPermitted(f: Family, stop: seq<Step>, c: Config, k: Capabilities, x: Context)
    requires ShapedSteps(f, stop) && Includes(stop, ExternalCleanup(f, Mangle)) && Includes(stop, LocalCleanup(f, Mangle))
    requires Includes(stop, Cleanups(f, Mangle, TP_CHAINS))
    ensures PermitsAll(f, Footprint(stop), TproxyLocalSetup(c, k, x, f))
  {
    assert IsBuiltin("OUTPUT");
    hide *;
    var foot, start, jump := Footprint(stop), LocalChainStart(x, f, Mangle), One(f, Mangle, EnsureJump("OUTPUT", LOCAL));
    var slow := Appends(f, Mangle, LOCAL, TproxyLocalRules(c, k, x, f));
    var middle := if PerformanceChain(c, k) then FastLocalSteps(c, k, x, f) else slow;
    MainChainsNamed(f, stop, Mangle);
    LocalRulesEdges(c, k, x, f);
    LocalSetupSplit(c, k, x, f);
    LocalStartPermitted(f, stop, Mangle, x);
    ChainPermitted(f, stop, Mangle, LOCAL, TproxyLocalRules(c, k, x, f));
    FastLocalPermitted(f, stop, c, k, x);
    JumpPermitted(f, stop, Mangle, "OUTPUT", LOCAL);
    PermitsBoth(f, foot, start, middle);
    PermitsBoth(f, foot, start + middle, jump);
  }

  lemma DivertNamed(f: Family, stop: seq<Step>)
    requires Includes(stop, DivertCleanup(f))
    ensures Step(f, Mangle, DelRule("PREROUTING", DivertJump())) in stop && Step(f, Mangle, CleanupChain(DIVERT)) in stop
    ensures Step(f, Mangle, DelRule("PREROUTING", LegacyDivertJump())) in stop
  {
    var part := DivertCleanup(f);
    assert part[0] in part && part[1] in part && part[2] in part;
  }

  lemma CleanupPermitted(f: Family, stop: seq<Step>, part: seq<Step>)
    requires ShapedSteps(f, stop) && Includes(stop, part)
    ensures PermitsAll(f, Footprint(stop), part)
  {
    hide IsBuiltin, IsBoxCustomChain, Parents;
    forall s | s in part ensures s.family == f && Permits(Footprint(stop), s) {
      assert ShapedStep(f, s);
      Named(stop, s);
      if s.op.DelRule? {
        BuiltinNotLive(f, stop, s.table, s.op.chain);
      }
    }
  }

  lemma DivertMade(f: Family, stop: seq<Step>)
    requires ShapedSteps(f, stop) && Includes(stop, DivertCleanup(f))
    ensures PermitsAll(f, Footprint(stop), One(f, Mangle, EnsureChain(DIVERT))
              + Appends(f, Mangle, DIVERT, [Rule(SetMark(FWMARK)), Rule(Accept)])
              + One(f, Mangle, EnsureInsert("PREROUTING", DivertJump())))
  {
    var rules, foot := [Rule(SetMark(FWMARK)), Rule(Accept)], Footprint(stop);
    assert IsBuiltin("PREROUTING") && NoJumps(rules);
    hide *;
    DivertNamed(f, stop);
    NoJumpsKeep(DIVERT, rules);
    ChainPermitted(f, stop, Mangle, DIVERT, rules);
    HookPermitted(f, stop, Mangle, "PREROUTING", DivertJump());
    PermitsBoth(f, foot, One(f, Mangle, EnsureChain(DIVERT)), Appends(f, Mangle, DIVERT, rules));
    PermitsBoth(f, foot, One(f, Mangle, EnsureChain(DIVERT)) + Appends(f, Mangle, DIVERT, rules),
                One(f, Mangle, EnsureInsert("PREROUTING", DivertJump())));
  }

  lemma DivertPermitted(f: Family, stop: seq<Step>, c: Config, k: Capabilities)
    requires ShapedSteps(f, stop) && Includes(stop, DivertCleanup(f))
    ensures PermitsAll(f, Footprint(stop), DivertSetup(c, k, f))
  {
    CleanupPermitted(f, stop, DivertCleanup(f));
    DivertMade(f, stop);
    hide PerformanceChain, DivertCleanup, PermitsAll, Appends, One, DivertJump, ShapedSteps, Footprint, Includes;
  }

  lemma QuicPermitted(f: Family, stop: seq<Step>, c: Config)
    requires ShapedSteps(f, stop) && Includes(stop, QuicCleanup(f))
    ensures PermitsAll(f, Footprint(stop), QuicSetup(c, f))
  {
    var part, two := QuicCleanup(f), Appends(f, Filter, "OUTPUT", [QuicReject(443), QuicReject(80)]);
    assert part[1] in part && part[2] in part;
    hide Footprint, ShapedSteps, Permits;
    HookPermitted(f, stop, Filter, "OUTPUT", QuicReject(443));
    HookPermitted(f, stop, Filter, "OUTPUT", QuicReject(80));
    assert two == One(f, Filter, EnsureAppend("OUTPUT", QuicReject(443))) + One(f, Filter, EnsureAppend("OUTPUT", QuicReject(80)));
  }

  lemma FakeIpIcmpPermitted(f: Family, stop: seq<Step>, c: Config)
    requires ShapedSteps(f, stop) && Includes(stop, FakeIpIcmpCleanup(c, f))
    ensures PermitsAll(f, Footprint(stop), FakeIpIcmpSetup(c, f))
  {
    if FakeIpIcmpSetup(c, f) != [] {
      var part, r := FakeIpIcmpCleanup(c, f), FakeIpIcmp(c.fakeIp4.value);
      assert part[0] in part && part[2] in part;
      hide Footprint, ShapedSteps, Permits;
      HookPermitted(f, stop, Nat, "OUTPUT", r);
      HookPermitted(f, stop, Nat, "PREROUTING", r);
    }
  }

  lemma StopTproxyIncludes(c: Config, k: Capabilities, x: Context, f: Family)
    ensures var stop := StopTproxy(c, k, x, f);
      && Includes(stop, LoopbackRejectCleanup(x, f, c.tproxyPort)) && Includes(stop, ExternalCleanup(f, Mangle))
      && Includes(stop, LocalCleanup(f, Mangle)) && Includes(stop, DnsNatCleanup(k, f)) && Includes(stop, DivertCleanup(f))
      && Includes(stop, QuicCleanup(f)) && Includes(stop, FakeIpIcmpCleanup(c, f)) && Includes(stop, Cleanups(f, Mangle, TP_CHAINS))
  {
    hide LoopbackRejectCleanup, ExternalCleanup, LocalCleanup, DnsNatCleanup, DivertCleanup, QuicCleanup, FakeIpIcmpCleanup, Cleanups,
      IpCleanup;
  }

  lemma StartTproxyPermitted(f: Family, stop: seq<Step>, c: Config, k: Capabilities, x: Context)
    requires ShapedSteps(f, stop) && Includes(stop, StopTproxy(c, k, x, f))
    ensures PermitsAll(f, Footprint(stop), StartTproxy(c, k, x, f))
  {
    StopTproxyIncludes(c, k, x, f);
    hide Footprint, ShapedSteps, Permits, StopTproxy, TproxyExternalSetup, TproxyLocalSetup, LoopbackRejectSetup, DivertSetup,
      QuicSetup, FakeIpIcmpSetup, DnsNatSetup, LoopbackRejectCleanup, ExternalCleanup, LocalCleanup, DnsNatCleanup, DivertCleanup,
      QuicCleanup, FakeIpIcmpCleanup, Cleanups, PerformanceChain, TproxyRouting, OnlySyncs;
    RoutingSyncs(f);
    SyncsPermitted(f, Footprint(stop), TproxyRouting(f));
    if PerformanceChain(c, k) {
      PerfExternalPermitted(f, stop, c, k);
    } else {
      TproxyExternalPermitted(f, stop, c, k);
    }
    TproxyLocalPermitted(f, stop, c, k, x);
    DivertPermitted(f, stop, c, k);
    QuicPermitted(f, stop, c);
    RejectsPermitted(f, stop, x, c.tproxyPort);
    DnsNatPermitted(f, stop, c, k, x);
    FakeIpIcmpPermitted(f, stop, c);
  }

  lemma ForwardPermitted(f: Family, stop: seq<Step>, c: Config)
    requires ShapedSteps(f, stop) && Includes(stop, ForwardCleanup(c, f))
    ensures PermitsAll(f, Footprint(stop), ForwardSetup(c, f))
  {
    var part := ForwardCleanup(c, f);
    assert part[0] in part && part[1] in part;
    hide Footprint, ShapedSteps, Permits;
    HookPermitted(f, stop, Filter, "FORWARD", ForwardRules(c)[0]);
    HookPermitted(f, stop, Filter, "FORWARD", ForwardRules(c)[1]);
  }

  lemma TunChainsNamed(f: Family, stop: seq<Step>)
    requires Includes(stop, StopTunBypass(f))
    ensures Step(f, Mangle, CleanupChain(TunPreChain(f))) in stop && Step(f, Mangle, CleanupChain(TunOutChain(f))) in stop
    ensures Step(f, Mangle, DelRule("PREROUTING", Rule(Jump(TunPreChain(f))))) in stop
    ensures Step(f, Mangle, DelRule("OUTPUT", Rule(Jump(TunOutChain(f))))) in stop
  {
    var part := StopTunTables(f);
    assert part[0] in part && part[1] in part && part[2] in part && part[3] in part;
    hide StopTunTables, IpCleanup;
    assert forall s :: s in part ==> s in StopTunBypass(f);
  }

  lemma TunSetupParts(c: Config, k: Capabilities, x: Context, f: Family)
    ensures var pre, out := TunPreChain(f), TunOutChain(f);
      var chains := One(f, Mangle, EnsureChain(pre)) + One(f, Mangle, EnsureChain(out));
      var fill := One(f, Mangle, AppendFirst(out, CoreBypassVariants(x))) + Appends(f, Mangle, out, TunOutRules(c, k, x, f));
      var jumps := One(f, Mangle, EnsureJump("PREROUTING", pre)) + One(f, Mangle, EnsureJump("OUTPUT", out));
      TunTables(c, k, x, f) == chains + Appends(f, Mangle, pre, TunPreRules(c, k, f)) + fill + jumps
  {
    hide One, Appends;
  }

  lemma TunPermitted(f: Family, stop: seq<Step>, c: Config, k: Capabilities, x: Context)
    requires ShapedSteps(f, stop) && Includes(stop, StopTunBypass(f))
    ensures PermitsAll(f, Footprint(stop), StartTunBypass(c, k, x, f))
  {
    TunTablesPermitted(f, stop, c, k, x);
    RoutingSyncs(f);
    hide PermitsAll, OnlySyncs, TunTables, TunRouting, Footprint;
    SyncsPermitted(f, Footprint(stop), TunRouting(f));
    PermitsBoth(f, Footprint(stop), TunTables(c, k, x, f), TunRouting(f));
  }

  lemma TunTablesPermitted(f: Family, stop: seq<Step>, c: Config, k: Capabilities, x: Context)
    requires ShapedSteps(f, stop) && Includes(stop, StopTunBypass(f))
    ensures PermitsAll(f, Footprint(stop), TunTables(c, k, x, f))
  {
    var pre, out, foot := TunPreChain(f), TunOutChain(f), Footprint(stop);
    TunChainsNamed(f, stop);
    NoJumpsKeep(pre, TunPreRules(c, k, f));
    NoJumpsKeep(out, TunOutRules(c, k, x, f));
    assert NoJumps(CoreBypassVariants(x));
    JumpPermitted(f, stop, Mangle, "PREROUTING", pre);
    JumpPermitted(f, stop, Mangle, "OUTPUT", out);
    hide *;
    ChainPermitted(f, stop, Mangle, pre, TunPreRules(c, k, f));
    ChainPermitted(f, stop, Mangle, out, TunOutRules(c, k, x, f));
    VariantsPermitted(f, stop, Mangle, out, CoreBypassVariants(x), None);
    TunSetupParts(c, k, x, f);
    var chains := One(f, Mangle, EnsureChain(pre)) + One(f, Mangle, EnsureChain(out));
    var fill := One(f, Mangle, AppendFirst(out, CoreBypassVariants(x))) + Appends(f, Mangle, out, TunOutRules(c, k, x, f));
    var jumps := One(f, Mangle, EnsureJump("PREROUTING", pre)) + One(f, Mangle, EnsureJump("OUTPUT", out));
    PermitsBoth(f, foot, One(f, Mangle, EnsureChain(pre)), One(f, Mangle, EnsureChain(out)));
    PermitsBoth(f, foot, One(f, Mangle, AppendFirst(out, CoreBypassVariants(x))), Appends(f, Mangle, out, TunOutRules(c, k, x, f)));
    PermitsBoth(f, foot, One(f, Mangle, EnsureJump("PREROUTING", pre)), One(f, Mangle, EnsureJump("OUTPUT", out)));
    PermitsBoth(f, foot, chains, Appends(f, Mangle, pre, TunPreRules(c, k, f)));
    PermitsBoth(f, foot, chains + Appends(f, Mangle, pre, TunPreRules(c, k, f)), fill);
    PermitsBoth(f, foot, chains + Appends(f, Mangle, pre, TunPreRules(c, k, f)) + fill, jumps);
  }

  /** Running the stop itself stays inside, too: TUN without managed routes does just that. */
  lemma StopTunPermitted(f: Family, stop: seq<Step>)
    requires ShapedSteps(f, stop) && Includes(stop, StopTunBypass(f))
    ensures PermitsAll(f, Footprint(stop), StopTunBypass(f))
  {
    forall s | s in StopTunBypass(f) ensures s.family == f && Permits(Footprint(stop), s) {
      Named(stop, s);
      if s.op.DelRule? {
        BuiltinNotLive(f, stop, s.table, s.op.chain);
      }
    }
  }

  // ----- the theorems -----

  lemma SetupPermitted(c: Config, k: Capabilities, x: Context, f: Family, stop: seq<Step>)
    requires stop == ModeStop(c, k, x, f) || stop == StopAll(c, k, x, f)
    ensures PermitsAll(f, Footprint(stop), ModeSetup(c, k, x, f))
  {
    StopsAreShaped(c, k, x, f);
    hide Footprint, ShapedSteps, Permits, StopRedirect, StopTproxy, StopTunBypass, ForwardCleanup, LegacyCleanup, StartRedirect,
      StartTproxy, StartTunBypass, ForwardSetup;
    if c.mode.RedirectOnly? || c.mode.Mixed? || c.mode.Enhance? {
      StartRedirectPermitted(f, stop, c, k, x);
    }
    if c.mode.TproxyOnly? || c.mode.Enhance? {
      StartTproxyPermitted(f, stop, c, k, x);
    }
    if c.mode.Mixed? || c.mode.Tun? {
      ForwardPermitted(f, stop, c);
    }
    if c.mode.Tun? {
      TunPermitted(f, stop, c, k, x);
      StopTunPermitted(f, stop);
    }
  }

  /** The operations an apply may issue for a family: those of its setup, and of the
      teardown it falls back on within the same session. */
  predicate Draws(c: Config, k: Capabilities, x: Context, f: Family, steps: seq<Step>) {
    forall s | s in steps :: s in ModeSetup(c, k, x, f) || s in ModeStop(c, k, x, f)
  }

  lemma StopWithin(c: Config, k: Capabilities, x: Context, f: Family)
    ensures Includes(StopAll(c, k, x, f), ModeStop(c, k, x, f)) && Includes(ModeStop(c, k, x, f), ModeStop(c, k, x, f))
  {
    hide StopRedirect, StopTproxy, StopTunBypass, ForwardCleanup, LegacyCleanup;
  }

  lemma DrawsPermitted(c: Config, k: Capabilities, x: Context, f: Family, stop: seq<Step>, steps: seq<Step>)
    requires stop == ModeStop(c, k, x, f) || stop == StopAll(c, k, x, f)
    requires Draws(c, k, x, f, steps)
    ensures PermitsAll(f, Footprint(stop), steps)
  {
    StopsAreShaped(c, k, x, f);
    StopWithin(c, k, x, f);
    SetupPermitted(c, k, x, f, stop);
    hide Permits, Footprint, ModeSetup, ModeStop, StopAll, ShapedSteps, Includes;
    CleanupPermitted(f, stop, ModeStop(c, k, x, f));
  }

  lemma StopsUndo(c: Config, k: Capabilities, x: Context, f: Family, stop: seq<Step>)
    requires stop == ModeStop(c, k, x, f) || stop == StopAll(c, k, x, f)
    ensures (forall s | s in stop :: s.family == f) && CleanAll(Footprint(stop), stop)
  {
    StopsAreShaped(c, k, x, f);
    FootprintShaped(f, stop);
    StopsAreClean(Footprint(stop), c, k, x, f);
    assert forall s :: s in stop ==> ShapedStep(f, s);
  }

  /**
   For every mode, configuration, capability set, context and family: from tables
   that hold nothing the teardown deletes, any session of operations of the setup
   and of its rollback, buffered or not, complete or cut short, with any operation
   skipped, any rule refused and any flush stopping half way, followed by the
   mode's teardown restores the tables exactly and meets no refused chain deletion.
   */
  lemma ModeTeardownUndoes(refused: set<Rule>, w: World, c: Config, k: Capabilities, x: Context, f: Family,
                           steps: seq<Step>, course: Course)
    requires Draws(c, k, x, f, steps) && |course.luck| == |steps|
    requires PristineWorld(w, f, Footprint(ModeStop(c, k, x, f)))
    ensures DirectRun(refused, Aftermath(w, f, steps, course), ModeStop(c, k, x, f)) == w
    ensures AllAccepted(refused, Aftermath(w, f, steps, course), ModeStop(c, k, x, f))
  {
    hide *;
    DrawsPermitted(c, k, x, f, ModeStop(c, k, x, f), steps);
    StopsUndo(c, k, x, f, ModeStop(c, k, x, f));
    TeardownUndoes(refused, w, f, steps, course, ModeStop(c, k, x, f));
  }

  /** The teardown for an unknown mode undoes every mode. */
  lemma StopAllUndoes(refused: set<Rule>, w: World, c: Config, k: Capabilities, x: Context, f: Family,
                      steps: seq<Step>, course: Course)
    requires Draws(c, k, x, f, steps) && |course.luck| == |steps|
    requires PristineWorld(w, f, Footprint(StopAll(c, k, x, f)))
    ensures DirectRun(refused, Aftermath(w, f, steps, course), StopAll(c, k, x, f)) == w
    ensures AllAccepted(refused, Aftermath(w, f, steps, course), StopAll(c, k, x, f))
  {
    hide *;
    DrawsPermitted(c, k, x, f, StopAll(c, k, x, f), steps);
    StopsUndo(c, k, x, f, StopAll(c, k, x, f));
    TeardownUndoes(refused, w, f, steps, course, StopAll(c, k, x, f));
  }

  /** In particular a session that ran to its end and was accepted, whichever chains
      it ensured twice. */
  lemma AcceptedSessionUndone(refused: set<Rule>, taken: set<Rule>, w: World, c: Config, k: Capabilities, x: Context, f: Family,
                              buffered: bool)
    requires PristineWorld(w, f, Footprint(ModeStop(c, k, x, f)))
    ensures var after := SessionRun(taken, w, f, buffered, {}, ModeSetup(c, k, x, f));
      DirectRun(refused, after, ModeStop(c, k, x, f)) == w && AllAccepted(refused, after, ModeStop(c, k, x, f))
  {
    SetupIsDrawn(c, k, x, f);
    hide *;
    var luck := SessionIsAttempt(taken, w, f, buffered, {}, ModeSetup(c, k, x, f));
    UnbufferedAftermath(w, f, ModeSetup(c, k, x, f), luck, taken);
    ModeTeardownUndoes(refused, w, c, k, x, f, ModeSetup(c, k, x, f), Course(false, luck, taken));
  }

  lemma SetupIsDrawn(c: Config, k: Capabilities, x: Context, f: Family)
    ensures Draws(c, k, x, f, ModeSetup(c, k, x, f))
  {
    hide ModeSetup, ModeStop;
  }
}
