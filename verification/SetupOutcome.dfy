/**
 What a setup leaves in the kernel, end to end: once its session has reported no
 failure, packets meet the chains of InstalledPolicy.  Only the nat chains that
 enhance mode ensures twice may hold other rules than the unbuffered run would
 leave, and no packet can tell.
 */
module SetupOutcome {
  import opened Bytes
  import opened Netfilter
  import opened Batching
  import opened RuleConfig
  import opened RuleScripts
  import opened ChainContents
  import opened ExternalPolicy
  import opened FastPolicy
  import opened LocalPolicy
  import opened TunPolicy
  import opened SetupContents
  import opened InstalledPolicy
  import opened TeardownModes
  import opened Sessions
  import opened SetupSuccess
  import opened DnsTwice

  /** Every packet fares the same in every chain, and by any rules that lead to them. */
  ghost predicate Alike(a: Chains, b: Chains) {
    && a.Keys == b.Keys
    && (forall env: Env, d: nat, rules: seq<Rule>, p: Packet {:trigger Traverse(env, a, d, rules, p)} ::
          Traverse(env, a, d, rules, p) == Traverse(env, b, d, rules, p))
    && forall env: Env, d: nat, c: string, p: Packet {:trigger Traverse(env, a, d, a[c], p)} ::
         c in a ==> Traverse(env, a, d, a[c], p) == Traverse(env, b, d, b[c], p)
  }

  /** All the mode's setup records was accepted, and the tables are those of the
      unbuffered run, up to what no packet can tell in `nat`. */
  ghost predicate Installed(refused: set<Rule>, w: World, v: World, c: Config, k: Capabilities, x: Context, f: Family) {
    var direct := DirectRun(refused, w, ModeSetup(c, k, x, f));
    && Acceptable(refused, w, f, ModeSetup(c, k, x, f))
    && forall t :: HasTable(v, f, t) == HasTable(direct, f, t)
         && (HasTable(v, f, t) ==> Alike(v[f][t], direct[f][t]) && (t != Nat || c.mode != Enhance ==> v[f][t] == direct[f][t]))
  }

  lemma SameInstalled(refused: set<Rule>, w: World, c: Config, k: Capabilities, x: Context, f: Family)
    requires Acceptable(refused, w, f, ModeSetup(c, k, x, f))
    ensures Installed(refused, w, DirectRun(refused, w, ModeSetup(c, k, x, f)), c, k, x, f)
  {
    hide Acceptable, DirectRun, ModeSetup;
  }

  // ----- enhance mode -----

  lemma {:induction false} AcceptableConcat(refused: set<Rule>, w: World, f: Family, a: seq<Step>, b: seq<Step>)
    ensures Acceptable(refused, w, f, a + b)
       <==> Acceptable(refused, w, f, a) && Acceptable(refused, DirectRun(refused, w, a), f, b)
    decreases |a|
  {
    hide Direct;
    if a == [] {
      assert a + b == b;
    } else {
      assert (a + b)[1..] == a[1..] + b;
      AcceptableConcat(refused, Direct(refused, w, a[0].family, a[0].table, a[0].op).world, f, a[1..], b);
    }
  }

  lemma FirstOfRedirect(c: Config, k: Capabilities, x: Context, f: Family)
    requires !(f == V6 && !k.ip6Nat)
    ensures StartRedirect(c, k, x, f) != [] && StartRedirect(c, k, x, f)[0] == Step(f, Nat, EnsureChain(EXTERNAL))
  {
    hide Appends, ReplyBypass, DnsNatSetup, LocalIpSetup, ExternalBody, RedirectLocalSetup, LoopbackRejectSetup;
  }

  /** The first command of the redirect half needs the table. */
  lemma NatFound(refused: set<Rule>, w: World, c: Config, k: Capabilities, x: Context, f: Family)
    requires !(f == V6 && !k.ip6Nat) && SessionAcceptable(refused, w, f, true, {}, StartRedirect(c, k, x, f))
    ensures HasTable(w, f, Nat)
  {
    var s := Step(f, Nat, EnsureChain(EXTERNAL));
    hide StartRedirect;
    FirstOfRedirect(c, k, x, f);
    assert IsBoxCustomChain(EXTERNAL);
    assert Sessional(refused, w, f, true, {}, s) == Direct(refused, w, f, Nat, EnsureChain(EXTERNAL));
  }

  lemma OnlyTproxy(refused: set<Rule>, w: World, c: Config, k: Capabilities, x: Context, f: Family)
    requires c.mode == Enhance && f == V6 && !k.ip6Nat && SessionAcceptable(refused, w, f, true, {}, ModeSetup(c, k, x, f))
    ensures SessionRun(refused, w, f, true, {}, ModeSetup(c, k, x, f)) == DirectRun(refused, w, ModeSetup(c, k, x, f))
    ensures Acceptable(refused, w, f, ModeSetup(c, k, x, f))
  {
    var steps := StartTproxy(c, k, x, f);
    assert ModeSetup(c, k, x, f) == [] + steps == steps;
    hide ModeSetup, StartTproxy;
    StartTproxyRegular(f, {}, c, k, x);
    RegularIsTame(f, {}, steps, {});
    OrderlyIsDirect(refused, w, f, true, {}, steps);
  }

  lemma BothHalves(refused: set<Rule>, w: World, c: Config, k: Capabilities, x: Context, f: Family)
    requires c.mode == Enhance && SessionAcceptable(refused, w, f, true, {}, ModeSetup(c, k, x, f))
    ensures SessionAcceptable(refused, w, f, true, {}, StartRedirect(c, k, x, f))
    ensures Acceptable(refused, w, f, StartRedirect(c, k, x, f))
  {
    var a := StartRedirect(c, k, x, f);
    hide ModeSetup, StartRedirect, StartTproxy, SessionAcceptable, Acceptable, SessionRun, DirectRun;
    EnhanceParts(c, k, x, f);
    SessionConcat(refused, w, f, {}, a, StartTproxy(c, k, x, f));
    StartRedirectRegular(f, {}, c, k, x);
    RegularIsTame(f, {}, a, {});
    OrderlyIsDirect(refused, w, f, true, {}, a);
  }

  lemma EnhanceAccepted(refused: set<Rule>, w: World, c: Config, k: Capabilities, x: Context, f: Family)
    requires c.mode == Enhance && HasTable(w, f, Nat) && SessionAcceptable(refused, w, f, true, {}, ModeSetup(c, k, x, f))
    ensures Acceptable(refused, w, f, ModeSetup(c, k, x, f))
  {
    hide *;
    BothHalves(refused, w, c, k, x, f);
    EnhanceTwins(refused, w, c, k, x, f);
    EnhanceParts(c, k, x, f);
    AcceptableConcat(refused, w, f, StartRedirect(c, k, x, f), StartTproxy(c, k, x, f));
  }

  /** Only `nat` holds chains ensured twice. */
  lemma TwinsElsewhere(a: World, b: World, f: Family, c: Config, k: Capabilities, x: Context, t: TableName)
    requires Twins(a, b, f, Loose(c, k, x, f))
    ensures HasTable(a, f, t) == HasTable(b, f, t)
    ensures t != Nat && HasTable(a, f, t) ==> a[f][t] == b[f][t]
  {
    hide Loose;
    if t != Nat && HasTable(a, f, t) {
      forall ch | ch in LooseIn(Loose(c, k, x, f), t) ensures false {
        LooseIsDns(c, k, x, f, (t, ch));
      }
    }
  }

  lemma EnhanceAlike(refused: set<Rule>, w: World, c: Config, k: Capabilities, x: Context, f: Family, t: TableName)
    requires c.mode == Enhance && HasTable(w, f, Nat) && SessionAcceptable(refused, w, f, true, {}, ModeSetup(c, k, x, f))
    ensures var a, b := SessionRun(refused, w, f, true, {}, ModeSetup(c, k, x, f)), DirectRun(refused, w, ModeSetup(c, k, x, f));
      && HasTable(a, f, t) == HasTable(b, f, t)
      && (HasTable(a, f, t) ==> Alike(a[f][t], b[f][t]) && (t != Nat ==> a[f][t] == b[f][t]))
  {
    var a, b := SessionRun(refused, w, f, true, {}, ModeSetup(c, k, x, f)), DirectRun(refused, w, ModeSetup(c, k, x, f));
    hide SessionRun, DirectRun, ModeSetup, SessionAcceptable, Twins, Loose, StartRedirect, StartTproxy, Stops;
    EnhanceTwins(refused, w, c, k, x, f);
    TwinsElsewhere(a, b, f, c, k, x, t);
    if HasTable(a, f, t) {
      var m, n := a[f][t], b[f][t];
      forall env: Env, d: nat, ch: string, p: Packet | ch in m
        ensures ch in n && Traverse(env, m, d, m[ch], p) == Traverse(env, n, d, n[ch], p)
      {
        EnhanceUndetectable(refused, w, c, k, x, f, env, t, d, m[ch], p);
      }
      forall env: Env, d: nat, rules: seq<Rule>, p: Packet ensures Traverse(env, m, d, rules, p) == Traverse(env, n, d, rules, p) {
        EnhanceUndetectable(refused, w, c, k, x, f, env, t, d, rules, p);
      }
      assert m.Keys == n.Keys by {
        var env: Env :| true;
        var p: Packet :| true;
        EnhanceUndetectable(refused, w, c, k, x, f, env, t, 0, [], p);
      }
    }
  }

  // ----- all modes -----

  lemma EnhanceInstalled(refused: set<Rule>, w: World, c: Config, k: Capabilities, x: Context, f: Family)
    requires c.mode == Enhance && SessionAcceptable(refused, w, f, true, {}, ModeSetup(c, k, x, f))
    ensures Installed(refused, w, SessionRun(refused, w, f, true, {}, ModeSetup(c, k, x, f)), c, k, x, f)
  {
    hide SessionRun, DirectRun, ModeSetup, SessionAcceptable, Acceptable, Alike, StartRedirect;
    if f == V6 && !k.ip6Nat {
      OnlyTproxy(refused, w, c, k, x, f);
      SameInstalled(refused, w, c, k, x, f);
    } else {
      BothHalves(refused, w, c, k, x, f);
      NatFound(refused, w, c, k, x, f);
      EnhanceAccepted(refused, w, c, k, x, f);
      var a, b := SessionRun(refused, w, f, true, {}, ModeSetup(c, k, x, f)), DirectRun(refused, w, ModeSetup(c, k, x, f));
      forall t
        ensures HasTable(a, f, t) == HasTable(b, f, t)
        ensures HasTable(a, f, t) ==> Alike(a[f][t], b[f][t]) && (t != Nat ==> a[f][t] == b[f][t])
      {
        EnhanceAlike(refused, w, c, k, x, f, t);
      }
    }
  }

  /** An accepted session installs what the unbuffered run would have installed. */
  lemma AcceptedInstalled(refused: set<Rule>, w: World, c: Config, k: Capabilities, x: Context, f: Family, buffered: bool)
    requires SessionAcceptable(refused, w, f, buffered, {}, ModeSetup(c, k, x, f))
    ensures Installed(refused, w, SessionRun(refused, w, f, buffered, {}, ModeSetup(c, k, x, f)), c, k, x, f)
  {
    hide *;
    if c.mode == Enhance && buffered {
      EnhanceInstalled(refused, w, c, k, x, f);
    } else {
      if c.mode == Enhance {
        OrderlyIsDirect(refused, w, f, false, {}, ModeSetup(c, k, x, f));
      } else {
        OtherModesExact(refused, w, c, k, x, f, buffered);
      }
      SameInstalled(refused, w, c, k, x, f);
    }
  }

  /** A setup that reports no failure has installed the mode. */
  lemma ReportedInstalls(refused: set<Rule>, w: World, c: Config, k: Capabilities, x: Context, f: Family, buffered: bool)
    requires Reported(refused, w, c, k, x, f, buffered)
    ensures Installed(refused, w, EndOf(refused, RunOf(refused, Opened(w, f, buffered), ModeSetup(c, k, x, f))).held.kernel, c, k, x, f)
  {
    hide *;
    ReportedMeans(refused, w, c, k, x, f, buffered);
    AcceptedInstalled(refused, w, c, k, x, f, buffered);
  }

  // ----- the tables a setup needs -----

  lemma RequiredKeys(refused: set<Rule>, w: World, g: Family, t: TableName, cmd: IptCmd, f: Family)
    ensures TablesOf(Required(refused, w, g, t, cmd).world, f).Keys == TablesOf(w, f).Keys
    ensures TablesOf(Silently(refused, w, g, t, cmd), f).Keys == TablesOf(w, f).Keys
  {
    hide Ipt;
  }

  lemma {:induction false} FirstTakenKeys(refused: set<Rule>, w: World, g: Family, t: TableName, c: string, rules: seq<Rule>,
                                          front: bool, f: Family)
    ensures TablesOf(FirstTaken(refused, w, g, t, c, rules, front).world, f).Keys == TablesOf(w, f).Keys
    decreases |rules|
  {
    hide Required;
    if rules != [] {
      var cmd := if front then Insert(c, rules[0]) else Append(c, rules[0]);
      RequiredKeys(refused, w, g, t, cmd, f);
      FirstTakenKeys(refused, w, g, t, c, rules[1..], front, f);
    }
  }

  lemma {:induction false} FirstEnsuredKeys(refused: set<Rule>, w: World, g: Family, t: TableName, c: string, rules: seq<Rule>, f: Family)
    ensures TablesOf(FirstEnsured(refused, w, g, t, c, rules).world, f).Keys == TablesOf(w, f).Keys
    decreases |rules|
  {
    hide Required, Checked;
    if rules != [] {
      RequiredKeys(refused, w, g, t, Append(c, rules[0]), f);
      FirstEnsuredKeys(refused, w, g, t, c, rules[1..], f);
    }
  }

  /** No operation makes or removes a table. */
  lemma DirectKeys(refused: set<Rule>, w: World, s: Step, f: Family)
    ensures TablesOf(Direct(refused, w, s.family, s.table, s.op).world, f).Keys == TablesOf(w, f).Keys
  {
    hide Required, Silently, TablesOf, Checked, FirstTaken, FirstEnsured, IsBoxCustomChain, IsLocalIp, Kept, AcceptPairs, WithTable;
    var g, t := s.family, s.table;
    match s.op
    case EnsureChain(c) =>
      RequiredKeys(refused, w, g, t, NewChain(c), f);
      RequiredKeys(refused, Silently(refused, w, g, t, NewChain(c)), g, t, Flush(c), f);
    case EnsureAppend(c, r) => RequiredKeys(refused, w, g, t, Append(c, r), f);
    case EnsureInsert(c, r) => RequiredKeys(refused, w, g, t, Insert(c, r), f);
    case EnsureJump(c, target) => RequiredKeys(refused, w, g, t, Insert(c, Rule(Jump(target))), f);
    case DelRule(c, r) => RequiredKeys(refused, w, g, t, Delete(c, r), f);
    case CleanupChain(c) =>
      RequiredKeys(refused, w, g, t, Flush(c), f);
      RequiredKeys(refused, Silently(refused, w, g, t, Flush(c)), g, t, DeleteChain(c), f);
    case InsertFirst(c, rules, fallback) =>
      FirstTakenKeys(refused, w, g, t, c, rules, true, f);
      if fallback.Some? {
        RequiredKeys(refused, FirstTaken(refused, w, g, t, c, rules, true).world, g, t, Insert(c, fallback.value), f);
        RequiredKeys(refused, w, g, t, Insert(c, fallback.value), f);
      }
    case AppendFirst(c, rules) => FirstTakenKeys(refused, w, g, t, c, rules, false, f);
    case EnsureFirst(c, rules) => FirstEnsuredKeys(refused, w, g, t, c, rules, f);
    case Rebuild(c, nets, _) =>
      if t in TablesOf(w, g) {
        ReplacedKeys(w, g, t, c, Kept(refused, AcceptPairs(nets)), f);
      }
    case Sync(_) =>
  }

  lemma ReplacedKeys(w: World, g: Family, t: TableName, c: string, rules: seq<Rule>, f: Family)
    requires t in TablesOf(w, g)
    ensures TablesOf(WithTable(w, g, t, w[g][t][c := rules]), f).Keys == TablesOf(w, f).Keys
  {
  }

  lemma EnsureNeeds(refused: set<Rule>, w: World, f: Family, s: Step)
    requires s.family == f && s.op.EnsureChain? && Direct(refused, w, s.family, s.table, s.op).ok
    ensures HasTable(w, f, s.table)
  {
    hide Ipt;
  }

  /** A table that an accepted run makes a chain in was there from the start. */
  lemma {:induction false} AcceptedNeeds(refused: set<Rule>, w: World, f: Family, steps: seq<Step>, s: Step)
    requires Acceptable(refused, w, f, steps) && s in steps && s.family == f && s.op.EnsureChain? && IsBoxCustomChain(s.op.chain)
    ensures HasTable(w, f, s.table)
    decreases |steps|
  {
    hide Direct, IsBoxCustomChain;
    if s == steps[0] {
      EnsureNeeds(refused, w, f, s);
    } else {
      assert s in steps[1..];
      AcceptedNeeds(refused, Direct(refused, w, steps[0].family, steps[0].table, steps[0].op).world, f, steps[1..], s);
      DirectKeys(refused, w, steps[0], f);
    }
  }

  lemma TproxyPart(c: Config, k: Capabilities, x: Context, f: Family)
    requires TproxyMode(c)
    ensures ModeSetup(c, k, x, f) == (if c.mode == Enhance then StartRedirect(c, k, x, f) else []) + StartTproxy(c, k, x, f)
  {
    hide StartRedirect, StartTproxy;
  }

  lemma TproxyMember(c: Config, k: Capabilities, x: Context, f: Family, s: Step)
    requires TproxyMode(c) && TproxySupported(k, f) && s in TproxyExternalSetup(c, k, f)
    ensures s in ModeSetup(c, k, x, f)
  {
    hide *;
    StartTproxySplit(c, k, x, f);
    TproxyPart(c, k, x, f);
    var e, rest := TproxyExternalSetup(c, k, f), TproxyLocalSetup(c, k, x, f);
    assert s in e + rest;
    assert s in e + rest + TproxyRest(c, k, x, f);
    assert s in StartTproxy(c, k, x, f);
  }

  lemma ExternalFirst(c: Config, k: Capabilities, f: Family)
    ensures Step(f, Mangle, EnsureChain(EXTERNAL)) in TproxyExternalSetup(c, k, f)
  {
    hide Appends, PerfDestSetup, LocalIpSetup, ExternalPrefix, ExternalBody, PerfIfRules, PerfExternalRules, PerformanceChain;
    assert One(f, Mangle, EnsureChain(EXTERNAL))[0] == Step(f, Mangle, EnsureChain(EXTERNAL));
  }

  lemma FirstOfRedirectMode(c: Config, k: Capabilities, x: Context, f: Family)
    requires RedirectMode(c) && RedirectSupported(k, f)
    ensures Step(f, Nat, EnsureChain(EXTERNAL)) in ModeSetup(c, k, x, f)
  {
    hide StartRedirect, StartTproxy, ForwardSetup;
    FirstOfRedirect(c, k, x, f);
    assert StartRedirect(c, k, x, f)[0] in StartRedirect(c, k, x, f);
  }

  lemma FirstOfTun(c: Config, k: Capabilities, x: Context, f: Family)
    requires c.mode == Tun && TunManaged(c)
    ensures Step(f, Mangle, EnsureChain(TunPreChain(f))) in ModeSetup(c, k, x, f)
  {
    hide Appends, TunPreRules, TunOutRules, TunRouting, ForwardSetup, TunManaged, CoreBypassVariants, TunPreChain, TunOutChain;
    var pre := TunPreChain(f);
    assert One(f, Mangle, EnsureChain(pre))[0] == Step(f, Mangle, EnsureChain(pre));
    assert Step(f, Mangle, EnsureChain(pre)) in TunTables(c, k, x, f);
    assert Step(f, Mangle, EnsureChain(pre)) in StartTunBypass(c, k, x, f);
  }

  lemma InstalledAccepted(refused: set<Rule>, w: World, v: World, c: Config, k: Capabilities, x: Context, f: Family)
    requires Installed(refused, w, v, c, k, x, f)
    ensures Acceptable(refused, w, f, ModeSetup(c, k, x, f))
  {
    hide Acceptable, ModeSetup, DirectRun, Alike, HasTable;
  }

  lemma MangleThere(refused: set<Rule>, w: World, v: World, c: Config, k: Capabilities, x: Context, f: Family)
    requires Installed(refused, w, v, c, k, x, f)
    requires (TproxyMode(c) && TproxySupported(k, f)) || (c.mode == Tun && TunManaged(c))
    ensures HasTable(w, f, Mangle)
  {
    hide *;
    var steps := ModeSetup(c, k, x, f);
    InstalledAccepted(refused, w, v, c, k, x, f);
    CustomNames(f);
    if c.mode == Tun && TunManaged(c) {
      FirstOfTun(c, k, x, f);
      AcceptedNeeds(refused, w, f, steps, Step(f, Mangle, EnsureChain(TunPreChain(f))));
    } else {
      ExternalFirst(c, k, f);
      TproxyMember(c, k, x, f, Step(f, Mangle, EnsureChain(EXTERNAL)));
      AcceptedNeeds(refused, w, f, steps, Step(f, Mangle, EnsureChain(EXTERNAL)));
    }
  }

  lemma NatThere(refused: set<Rule>, w: World, v: World, c: Config, k: Capabilities, x: Context, f: Family)
    requires Installed(refused, w, v, c, k, x, f) && RedirectMode(c) && RedirectSupported(k, f)
    ensures HasTable(w, f, Nat)
  {
    hide *;
    var steps := ModeSetup(c, k, x, f);
    InstalledAccepted(refused, w, v, c, k, x, f);
    CustomNames(f);
    FirstOfRedirectMode(c, k, x, f);
    AcceptedNeeds(refused, w, f, steps, Step(f, Nat, EnsureChain(EXTERNAL)));
  }

  // ----- what packets meet -----

  lemma MangleMet(refused: set<Rule>, w: World, v: World, c: Config, k: Capabilities, x: Context, f: Family)
    requires Installed(refused, w, v, c, k, x, f) && HasTable(w, f, Mangle)
    ensures Ran(refused, w, f, Mangle, ModeSetup(c, k, x, f)) && HasTable(v, f, Mangle)
    ensures v[f][Mangle] == ChainsAfter(refused, w, f, Mangle, ModeSetup(c, k, x, f))
  {
    hide ModeSetup, Acceptable, DirectRun, Alike;
    SetupFamily(c, k, x, f);
    RunKeepsTables(refused, w, f, ModeSetup(c, k, x, f), Mangle);
  }

  lemma NatMet(refused: set<Rule>, w: World, v: World, c: Config, k: Capabilities, x: Context, f: Family)
    requires Installed(refused, w, v, c, k, x, f) && HasTable(w, f, Nat)
    ensures Ran(refused, w, f, Nat, ModeSetup(c, k, x, f)) && HasTable(v, f, Nat)
    ensures Alike(v[f][Nat], ChainsAfter(refused, w, f, Nat, ModeSetup(c, k, x, f)))
  {
    hide ModeSetup, Acceptable, DirectRun, Alike;
    SetupFamily(c, k, x, f);
    RunKeepsTables(refused, w, f, ModeSetup(c, k, x, f), Nat);
  }

  /** The standard chains of a setup that went well dispatch, and mark, by policy. */
  lemma StandardOutcome(refused: set<Rule>, w: World, v: World, c: Config, k: Capabilities, x: Context, f: Family,
                        env: Env, d: nat, p: Packet)
    requires Installed(refused, w, v, c, k, x, f)
    requires TproxyMode(c) && TproxySupported(k, f) && !PerformanceChain(c, k) && d > 0 && AppAgrees(env, c, x, f, p)
    ensures HasTable(v, f, Mangle)
    ensures var chains := v[f][Mangle];
      && EXTERNAL in chains && LOCAL in chains
      && Traverse(env, chains, d, chains[EXTERNAL], p).Tproxied?
         == (Prefix(env, chains, d, c, k, f, p).Tproxied?
             || (Prefix(env, chains, d, c, k, f, p).Fell? && StandardPolicy(env, refused, c, k, f, ActTproxy, p)))
      && LeavesMarked(Traverse(env, chains, d, chains[LOCAL], p), p,
                      !CoreOwned(env, refused, x, p) && LocalMarked(env, refused, c, k, x, f, p))
  {
    hide *;
    MangleThere(refused, w, v, c, k, x, f);
    MangleMet(refused, w, v, c, k, x, f);
    StandardTproxyPolicy(refused, w, c, k, x, f, env, d, p);
  }

  /** Behind a setup of the fast chains that went well, flows are treated alike throughout. */
  lemma FlowOutcome(refused: set<Rule>, w: World, v: World, c: Config, k: Capabilities, x: Context, f: Family,
                    env: Env, d: nat, first: Packet, packets: seq<Packet>, m: bv32)
    requires Installed(refused, w, v, c, k, x, f)
    requires TproxyMode(c) && TproxySupported(k, f) && PerformanceChain(c, k) && d > 1
    requires packets != [] && packets[0] == first && !first.reply && FirstPacket(first) && !MarkIs(m, FWMARK)
    requires OneFlow(first, packets) && !ToSocket(c, k, first)
    ensures HasTable(v, f, Mangle)
    ensures var chains := v[f][Mangle];
      && HoldsEntry(chains, c, k, f)
      && var run := FlowRun(env, chains, d, Entry(c, k), packets, m);
         && run[0].Tproxied? == Dispatches(env, chains, d - 1, c, k, f, first)
         && forall i :: 0 <= i < |packets| ==> Fate(c, k, packets[i], run[i], run[0].Tproxied?)
  {
    hide *;
    MangleThere(refused, w, v, c, k, x, f);
    MangleMet(refused, w, v, c, k, x, f);
    FastFlowsConsistent(refused, w, c, k, x, f, env, d, first, packets, m);
  }

  /** The redirect chains of a setup that went well redirect by policy, those that a
      buffered enhance mode leaves as well. */
  lemma RedirectOutcome(refused: set<Rule>, w: World, v: World, c: Config, k: Capabilities, x: Context, f: Family,
                        env: Env, d: nat, p: Packet)
    requires Installed(refused, w, v, c, k, x, f)
    requires RedirectMode(c) && RedirectSupported(k, f) && d > 0 && AppAgrees(env, c, x, f, p)
    ensures HasTable(v, f, Nat)
    ensures var chains := v[f][Nat];
      && EXTERNAL in chains && LOCAL in chains
      && Redirects(Traverse(env, chains, d, chains[EXTERNAL], p), c, p,
                   !(p.reply && ConntrackEnabled(c, k)) && StandardPolicy(env, refused, c, k, f, ActRedirect, p))
      && Redirects(Traverse(env, chains, d, chains[LOCAL], p), c, p,
                   !CoreOwned(env, refused, x, p) && LocalRedirected(env, refused, c, k, x, f, p))
  {
    hide Installed, Ran, ChainsAfter, RedirectMode, RedirectSupported, AppAgrees, Redirects, ConntrackEnabled;
    hide StandardPolicy, CoreOwned, LocalRedirected, ModeSetup, Traverse;
    NatThere(refused, w, v, c, k, x, f);
    NatMet(refused, w, v, c, k, x, f);
    RedirectPolicy(refused, w, c, k, x, f, env, d, p);
    assert EXTERNAL in v[f][Nat] && LOCAL in v[f][Nat];
  }

  /** The TUN chains of a setup that went well mark by policy. */
  lemma TunOutcome(refused: set<Rule>, w: World, v: World, c: Config, k: Capabilities, x: Context, f: Family,
                   env: Env, d: nat, p: Packet)
    requires Installed(refused, w, v, c, k, x, f)
    requires c.mode == Tun && TunManaged(c) && Unmarked(p)
    ensures HasTable(v, f, Mangle)
    ensures var chains := v[f][Mangle];
      && TunPreChain(f) in chains && TunOutChain(f) in chains
      && var forwarded, own := Traverse(env, chains, d, chains[TunPreChain(f)], p), Traverse(env, chains, d, chains[TunOutChain(f)], p);
      && Passes(forwarded) && forwarded.p == WithMark(p, TunPreMark(env, c, k, f, p))
      && Passes(own)
      && own.p == WithMark(p, if TunCoreOwned(env, refused, x, p) then Plain else TunOutMark(env, c, k, x, f, p))
  {
    hide *;
    MangleThere(refused, w, v, c, k, x, f);
    MangleMet(refused, w, v, c, k, x, f);
    TunInstalledPolicy(refused, w, c, k, x, f, env, d, p);
  }
}
