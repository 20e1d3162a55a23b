/**
 From the built-in chains on: what a packet meets when it arrives at PREROUTING,
 OUTPUT or FORWARD behind a setup that reported no failure, on tables without jumps of
 the compiler's own.  It is what Intent says, and then the rules that were there.
 */
module Arrival {
  import opened Bytes
  import opened Netfilter
  import opened Batching
  import opened RuleConfig
  import opened RuleScripts
  import opened ChainContents
  import opened ExternalPolicy
  import opened FastPolicy
  import opened FastLocal
  import opened LocalPolicy
  import opened TunPolicy
  import opened SetupContents
  import opened InstalledPolicy
  import opened TeardownModes
  import opened SetupSuccess
  import opened SetupCondition
  import opened SetupOutcome
  import opened Hooks
  import opened SetupHooks
  import opened DnsPolicy
  import opened Agreement
  import Intent
  import PolicyRouting

  /** The kernel's tables behind a mode's setup in a session of its own. */
  function Behind(refused: set<Rule>, w: World, c: Config, k: Capabilities, x: Context, f: Family, buffered: bool): World {
    EndOf(refused, RunOf(refused, Opened(w, f, buffered), ModeSetup(c, k, x, f))).held.kernel
  }

  /** What comes of a packet whose fate is known, with the rules of others to go on to. */
  function Arrives(env: Env, chains: Chains, d: nat, fate: Intent.Fate, was: seq<Rule>): Outcome {
    match fate
    case Ends(o) => o
    case GoesOn(p) => Traverse(env, chains, d, was, p)
  }

  // ----- the chains of nat -----

  /** No rule of this kind is in place. */
  predicate Pingless(rules: seq<Rule>) { forall r | r in rules :: r.target != Dnat("127.0.0.1") }

  function MainOf(ch: string): string { if ch == "PREROUTING" then EXTERNAL else LOCAL }

  /** The hooks in front of what was there. */
  function NatFront(refused: set<Rule>, c: Config, k: Capabilities, f: Family, ch: string, was: seq<Rule>): seq<Rule> {
    (if StartsTproxy(c, k, f) && AnswersIcmp(c, f) && FakeIpIcmp(c.fakeIp4.value) !in refused then [FakeIpIcmp(c.fakeIp4.value)] else [])
      + ((if StartsRedirect(c, k, f) then [Rule(Jump(MainOf(ch)))] else [])
         + if StartsRedirect(c, k, f) || StartsTproxy(c, k, f) then WithDns(c, k, f, ch, was) else was)
  }

  lemma DnsOnce(c: Config, k: Capabilities, f: Family, ch: string, was: seq<Rule>)
    requires IsHook(ch) && Jumpless(was)
    ensures var dns := WithDns(c, k, f, ch, was);
      && Rule(Jump(MainOf(ch))) !in dns
      && WithDns(c, k, f, ch, dns) == dns && WithDns(c, k, f, ch, [Rule(Jump(MainOf(ch)))] + dns) == [Rule(Jump(MainOf(ch)))] + dns
  {
    MainNames(f, ch);
    if DnsHook(c, k, f, ch).Some? {
      HookIsDns(c, k, f, ch);
      DnsChainName(DnsHook(c, k, f, ch).value, f);
    }
    hide IsBoxCustomChain, DnsHook, IsHook, DnsChain;
  }

  lemma PingAbsent(refused: set<Rule>, c: Config, k: Capabilities, f: Family, ch: string, held: seq<Rule>)
    requires Pingless(held)
    ensures WithIcmp(refused, c, f, held)
         == (if AnswersIcmp(c, f) && FakeIpIcmp(c.fakeIp4.value) !in refused then [FakeIpIcmp(c.fakeIp4.value)] else []) + held
    ensures Pingless(WithDns(c, k, f, ch, held)) && Pingless([Rule(Jump(MainOf(ch)))] + held)
  {
    hide DnsHook;
    assert [] + held == held;
  }

  lemma NatFrontIs(refused: set<Rule>, c: Config, k: Capabilities, f: Family, ch: string, was: seq<Rule>)
    requires IsHook(ch) && Jumpless(was) && Pingless(was)
    ensures NatHooks(refused, c, k, f, ch, was) == NatFront(refused, c, k, f, ch, was)
  {
    var dns, jump := WithDns(c, k, f, ch, was), [Rule(Jump(MainOf(ch)))];
    DnsOnce(c, k, f, ch, was);
    PingAbsent(refused, c, k, f, ch, was);
    PingAbsent(refused, c, k, f, ch, dns);
    PingAbsent(refused, c, k, f, ch, jump + dns);
    assert [] + dns == dns && [] + (jump + dns) == jump + dns && [] + ([] + dns) == dns && [] + ([] + was) == was;
    assert WithRedirect(c, k, f, ch, was) == jump + dns;
    hide WithDns, WithIcmp, StartsRedirect, StartsTproxy, FakeIpIcmp, AnswersIcmp, Pingless, Jumpless, IsHook;
  }

  // ----- one packet at nat -----

  lemma PingMeans(env: Env, chains: Chains, d: nat, net: Net, rest: seq<Rule>, p: Packet)
    ensures Traverse(env, chains, d, [FakeIpIcmp(net)] + rest, p)
         == if p.proto == Icmp && InNet(net, p.dst) then Dnatted("127.0.0.1") else Traverse(env, chains, d, rest, p)
  {
    hide InNet;
    var rules := [FakeIpIcmp(net)] + rest;
    assert rules[0] == FakeIpIcmp(net) && rules[1..] == rest;
    assert Matches(env, rules[0], p) == (p.proto == Icmp && InNet(net, p.dst));
  }

  lemma StartsAgree(c: Config, k: Capabilities, f: Family)
    ensures StartsRedirect(c, k, f) == Intent.Redirecting(c, k, f)
    ensures StartsTproxy(c, k, f) == Intent.Tproxying(c, k, f)
  {
  }

  lemma PingAgrees(refused: set<Rule>, c: Config, k: Capabilities, f: Family, p: Packet)
    ensures (StartsTproxy(c, k, f) && AnswersIcmp(c, f) && FakeIpIcmp(c.fakeIp4.value) !in refused
             && p.proto == Icmp && InNet(c.fakeIp4.value, p.dst))
         == Intent.PingAnswered(refused, c, k, f, p)
  {
    StartsAgree(c, k, f);
    hide InNet, StartsTproxy, Intent.Tproxying;
  }

  /** Which queries a chain of nat is there for. */
  predicate QueryAt(refused: set<Rule>, c: Config, k: Capabilities, x: Context, f: Family, ch: string, p: Packet) {
    if ch == "PREROUTING" then Intent.QueryTaken(c, k, f, p) else Intent.OwnQueryTaken(refused, c, k, x, f, p)
  }

  lemma QueryAgrees(refused: set<Rule>, c: Config, k: Capabilities, x: Context, f: Family, ch: string, p: Packet)
    requires IsHook(ch)
    ensures ((StartsRedirect(c, k, f) || StartsTproxy(c, k, f)) && DnsHook(c, k, f, ch).Some? && QueryFor(refused, c, x, f, ch, p))
         == QueryAt(refused, c, k, x, f, ch, p)
  {
    StartsAgree(c, k, f);
    hide StartsRedirect, StartsTproxy, Intent.Redirecting, Intent.Tproxying, Intent.ByOwner, Intent.OnInterface, HijackPre, HijackOut, ForwardPre;
  }

  /** The chains of nat that packets are led to. */
  ghost predicate NatStands(chains: Chains, refused: set<Rule>, c: Config, k: Capabilities, x: Context, f: Family, ch: string) {
    && (StartsRedirect(c, k, f) ==>
          && HoldsLocal(chains, refused, c, f)
          && EXTERNAL in chains && chains[EXTERNAL] == ReplyBypass(c, k) + ExternalBody(c, k, f, ActRedirect)
          && LOCAL in chains && chains[LOCAL] == CoreRules(refused, x) + RedirectLocalRules(c, k, x, f))
    && (DnsHook(c, k, f, ch).Some? && (StartsRedirect(c, k, f) || StartsTproxy(c, k, f)) ==>
          && DnsHook(c, k, f, ch).value in chains
          && chains[DnsHook(c, k, f, ch).value] == DnsContent(refused, c, x, f, ch))
  }

  /** What the redirect chain for a direction does to a packet, before DNS. */
  function MainFate(env: Env, refused: set<Rule>, c: Config, k: Capabilities, x: Context, f: Family, ch: string, p: Packet): Intent.Fate {
    if ch == "PREROUTING" then
      if Intent.Replies(c, k, p) || Intent.Spared(env, c, k, f, true, p) then Intent.GoesOn(p)
      else if Intent.OwnNet(refused, c, f, p) then Intent.Ends(Accepted(p))
      else if p.proto == Tcp && c.proxyTcp && Intent.Admitted(c, p) then Intent.Ends(Redirected(c.redirPort))
      else Intent.GoesOn(p)
    else
      if Intent.FromCore(refused, x, p) || Intent.Replies(c, k, p) then Intent.GoesOn(p)
      else if p.proto == Tcp && c.proxyTcp && Intent.Forced(env, c, k, x, f, p) then Intent.Ends(Redirected(c.redirPort))
      else if Intent.Spared(env, c, k, f, false, p) then Intent.GoesOn(p)
      else if Intent.OwnNet(refused, c, f, p) then Intent.Ends(Accepted(p))
      else if p.proto == Tcp && c.proxyTcp && Intent.Chosen(c, x, p) then Intent.Ends(Redirected(c.redirPort))
      else Intent.GoesOn(p)
  }

  /** The outcome of a chain fits a fate. */
  predicate Meets(o: Outcome, fate: Intent.Fate) {
    match fate
    case Ends(e) => o == e && !Passes(e)
    case GoesOn(q) => Passes(o) && o.p == q
  }

  lemma RedirectInFate(env: Env, chains: Chains, d: nat, refused: set<Rule>, c: Config, k: Capabilities, x: Context, f: Family, p: Packet)
    requires d > 0 && HoldsLocal(chains, refused, c, f)
    ensures Meets(Traverse(env, chains, d, ReplyBypass(c, k) + ExternalBody(c, k, f, ActRedirect), p),
                 MainFate(env, refused, c, k, x, f, "PREROUTING", p))
  {
    hide ReplyBypass, ExternalBody, HoldsLocal, Bypassed, LocalHit, IngressAllowed, Intent.Spared, Intent.OwnNet, Intent.Admitted, Intent.Replies;
    TraverseAppend(env, chains, d, ReplyBypass(c, k), ExternalBody(c, k, f, ActRedirect), p);
    ReplyMeans(env, chains, d, c, k, p);
    StandardExternalMeans(env, chains, d, refused, c, k, f, ActRedirect, p);
    SelectedAgrees(c, k, x, p);
    ExternalIsIngress(f);
    SparedAgrees(env, c, k, f, EXTERNAL, p);
    OwnNetsAgree(refused, c, f, p);
    IngressAgrees(c, p);
  }

  lemma ExternalIsIngress(f: Family)
    ensures Ingress(EXTERNAL, f)
  {
  }

  lemma RedirectOutFate(env: Env, chains: Chains, d: nat, refused: set<Rule>, c: Config, k: Capabilities, x: Context, f: Family, p: Packet)
    requires d > 0 && HoldsLocal(chains, refused, c, f) && AppAgrees(env, c, x, f, p)
    ensures Meets(Traverse(env, chains, d, CoreRules(refused, x) + RedirectLocalRules(c, k, x, f), p),
                 MainFate(env, refused, c, k, x, f, "OUTPUT", p))
  {
    hide CoreRules, RedirectLocalRules, HoldsLocal, Bypassed, LocalHit, Selected, ForcedHit, CoreOwned, AppAgrees, ConntrackEnabled;
    hide Intent.Spared, Intent.OwnNet, Intent.Chosen, Intent.Forced, Intent.FromCore, Intent.Replies, LocalEnabled, Ingress, Egress;
    TraverseAppend(env, chains, d, CoreRules(refused, x), RedirectLocalRules(c, k, x, f), p);
    CoreReturns(env, chains, d, refused, x, p);
    RedirectLocalMeans(env, chains, d, refused, c, k, x, f, p);
    CoreAgrees(env, refused, x, p);
    SelectedAgrees(c, k, x, p);
    LocalIsEgress(f);
    SparedAgrees(env, c, k, f, LOCAL, p);
    ForcedAgrees(env, c, k, x, f, p);
    OwnNetsAgree(refused, c, f, p);
  }

  /** The redirect chain at the head of a built-in chain, and the DNS chain behind it. */
  lemma MainThenDns(env: Env, chains: Chains, d: nat, refused: set<Rule>, c: Config, k: Capabilities, x: Context, f: Family, ch: string,
                    was: seq<Rule>, p: Packet)
    requires d > 1 && IsHook(ch) && StartsRedirect(c, k, f) && NatStands(chains, refused, c, k, x, f, ch) && AppAgrees(env, c, x, f, p)
    ensures Traverse(env, chains, d, [Rule(Jump(MainOf(ch)))] + WithDns(c, k, f, ch, was), p)
         == match MainFate(env, refused, c, k, x, f, ch, p)
            case Ends(o) => o
            case GoesOn(_) => Traverse(env, chains, d, WithDns(c, k, f, ch, was), p)
  {
    if ch != "PREROUTING" {
      HookIs(ch);
    }
    hide MainFate, NatFront, WithDns, AppAgrees, StartsRedirect, CoreRules, RedirectLocalRules, ReplyBypass, ExternalBody, HoldsLocal, DnsHook;
    Enters(env, chains, d, MainOf(ch), WithDns(c, k, f, ch, was), p);
    MainGoesOn(env, refused, c, k, x, f, ch, p);
    if ch == "PREROUTING" {
      RedirectInFate(env, chains, d - 1, refused, c, k, x, f, p);
    } else {
      RedirectOutFate(env, chains, d - 1, refused, c, k, x, f, p);
    }
  }

  lemma MainGoesOn(env: Env, refused: set<Rule>, c: Config, k: Capabilities, x: Context, f: Family, ch: string, p: Packet)
    ensures MainFate(env, refused, c, k, x, f, ch, p).GoesOn? ==> MainFate(env, refused, c, k, x, f, ch, p) == Intent.GoesOn(p)
  {
    hide Intent.Replies, Intent.Spared, Intent.OwnNet, Intent.Admitted, Intent.FromCore, Intent.Forced, Intent.Chosen;
  }

  function NatFate(env: Env, refused: set<Rule>, c: Config, k: Capabilities, x: Context, f: Family, ch: string, p: Packet): Intent.Fate {
    if ch == "PREROUTING" then Intent.NatIn(env, refused, c, k, f, p) else Intent.NatOut(env, refused, c, k, x, f, p)
  }

  lemma NatFateIs(env: Env, refused: set<Rule>, c: Config, k: Capabilities, x: Context, f: Family, ch: string, p: Packet)
    ensures var dns := Intent.QueryFate(c, QueryAt(refused, c, k, x, f, ch, p), p);
      NatFate(env, refused, c, k, x, f, ch, p)
      == if Intent.PingAnswered(refused, c, k, f, p) then Intent.Ends(Dnatted("127.0.0.1"))
         else if !Intent.Redirecting(c, k, f) then dns
         else match MainFate(env, refused, c, k, x, f, ch, p)
              case Ends(o) => Intent.Ends(o)
              case GoesOn(_) => dns
  {
    hide Intent.Replies, Intent.Spared, Intent.OwnNet, Intent.Admitted, Intent.FromCore, Intent.Forced, Intent.Chosen;
    hide Intent.PingAnswered, Intent.Redirecting, Intent.QueryTaken, Intent.OwnQueryTaken;
  }

  /** Behind the rule for pings. */
  lemma BehindPing(env: Env, chains: Chains, d: nat, refused: set<Rule>, c: Config, k: Capabilities, x: Context, f: Family, ch: string,
                   was: seq<Rule>, p: Packet)
    requires d > 1 && IsHook(ch) && Jumpless(was) && NatStands(chains, refused, c, k, x, f, ch) && AppAgrees(env, c, x, f, p)
    ensures var rules := (if StartsRedirect(c, k, f) then [Rule(Jump(MainOf(ch)))] else [])
                         + if StartsRedirect(c, k, f) || StartsTproxy(c, k, f) then WithDns(c, k, f, ch, was) else was;
      var dns := Intent.QueryFate(c, QueryAt(refused, c, k, x, f, ch, p), p);
      Traverse(env, chains, d, rules, p)
      == if !StartsRedirect(c, k, f) then Arrives(env, chains, d, dns, was)
         else match MainFate(env, refused, c, k, x, f, ch, p)
              case Ends(o) => o
              case GoesOn(_) => Arrives(env, chains, d, dns, was)
  {
    var dns := WithDns(c, k, f, ch, was);
    assert [] + dns == dns && [] + was == was;
    hide WithDns, MainFate, QueryFor, QueryAt, AppAgrees, Jumpless, IsHook, StartsRedirect, StartsTproxy, DnsContent, HoldsLocal;
    QueryAgrees(refused, c, k, x, f, ch, p);
    if StartsRedirect(c, k, f) || StartsTproxy(c, k, f) {
      DnsAtHook(env, chains, d, refused, c, k, x, f, ch, was, p);
    }
    if StartsRedirect(c, k, f) {
      MainThenDns(env, chains, d, refused, c, k, x, f, ch, was, p);
    }
  }

  /** The whole of a built-in chain of nat. */
  lemma NatMeans(env: Env, chains: Chains, d: nat, refused: set<Rule>, c: Config, k: Capabilities, x: Context, f: Family, ch: string,
                 was: seq<Rule>, p: Packet)
    requires d > 1 && IsHook(ch) && Jumpless(was) && NatStands(chains, refused, c, k, x, f, ch) && AppAgrees(env, c, x, f, p)
    ensures Traverse(env, chains, d, NatFront(refused, c, k, f, ch, was), p)
         == Arrives(env, chains, d, NatFate(env, refused, c, k, x, f, ch, p), was)
  {
    var rest := (if StartsRedirect(c, k, f) then [Rule(Jump(MainOf(ch)))] else [])
                + if StartsRedirect(c, k, f) || StartsTproxy(c, k, f) then WithDns(c, k, f, ch, was) else was;
    var pings := StartsTproxy(c, k, f) && AnswersIcmp(c, f) && FakeIpIcmp(c.fakeIp4.value) !in refused;
    assert NatFront(refused, c, k, f, ch, was) == if pings then [FakeIpIcmp(c.fakeIp4.value)] + rest else [] + rest;
    assert [] + rest == rest;
    hide NatFront, NatFate, MainFate, QueryAt, WithDns, StartsRedirect, StartsTproxy, NatStands, AnswersIcmp, FakeIpIcmp, AppAgrees, InNet;
    hide Jumpless, IsHook;
    StartsAgree(c, k, f);
    BehindPing(env, chains, d, refused, c, k, x, f, ch, was, p);
    NatFateIs(env, refused, c, k, x, f, ch, p);
    PingAgrees(refused, c, k, f, p);
    if pings {
      PingMeans(env, chains, d, c.fakeIp4.value, rest, p);
    }
  }

  // ----- behind a setup -----

  lemma NatInstalled(refused: set<Rule>, w: World, c: Config, k: Capabilities, x: Context, f: Family, ch: string)
    requires IsHook(ch) && Ran(refused, w, f, Nat, ModeSetup(c, k, x, f))
    ensures NatStands(ChainsAfter(refused, w, f, Nat, ModeSetup(c, k, x, f)), refused, c, k, x, f, ch)
  {
    assert StartsRedirect(c, k, f) ==> RedirectMode(c) && RedirectSupported(k, f);
    hide Ran, ModeSetup, ChainsAfter, StartsRedirect, StartsTproxy, DnsContent, DnsHook, HoldsLocal, CoreRules, RedirectLocalRules;
    hide ReplyBypass, ExternalBody, IsHook, RedirectMode, RedirectSupported;
    if StartsRedirect(c, k, f) {
      RedirectInstalled(refused, w, c, k, x, f);
    }
    if DnsHook(c, k, f, ch).Some? && (StartsRedirect(c, k, f) || StartsTproxy(c, k, f)) {
      DnsInstalled(refused, w, c, k, x, f, ch);
    }
  }

  /** A built-in chain of the unbuffered run. */
  lemma HeldAfter(refused: set<Rule>, w: World, c: Config, k: Capabilities, x: Context, f: Family, t: TableName, ch: string, after: seq<Rule>)
    requires Ran(refused, w, f, t, ModeSetup(c, k, x, f))
    requires Holding(DirectRun(refused, w, ModeSetup(c, k, x, f)), f, t, ch) == Some(after)
    ensures var chains := ChainsAfter(refused, w, f, t, ModeSetup(c, k, x, f)); ch in chains && chains[ch] == after
  {
    hide DirectRun, ModeSetup, Acceptable;
  }

  lemma HookBuiltin(ch: string)
    requires IsHook(ch)
    ensures !IsBoxCustomChain(ch) && (Mangle, ch) in HookPlaces() && (Nat, ch) in HookPlaces()
  {
    assert IsBuiltin(ch);
    BuiltinsAreNotCustom(ch);
    hide IsBoxCustomChain;
  }

  lemma HasItsTable(w: World, f: Family, t: TableName, ch: string)
    requires HasChain(w, f, t, ch)
    ensures HasTable(w, f, t)
  {
  }

  lemma BareAt(w: World, f: Family, t: TableName, ch: string)
    requires Bare(w, f) && (t, ch) in HookPlaces() && HasChain(w, f, t, ch)
    ensures Jumpless(w[f][t][ch])
  {
    hide HookPlaces, Jumpless;
  }

  /** The conditions on modes and kernels, in the terms of the settings. */
  lemma ModesAgree(c: Config, k: Capabilities, f: Family)
    ensures (RedirectMode(c) || TproxyMode(c)) == (c.mode in {RedirectOnly, Mixed, TproxyOnly, Enhance})
    ensures (TproxyMode(c) && TproxySupported(k, f)) == Intent.Tproxying(c, k, f)
    ensures PerformanceChain(c, k) == Intent.Fast(c, k)
    ensures TunManaged(c) == (c.bypassCn || c.macFilter)
  {
  }

  lemma AppsAgree(env: Env, c: Config, x: Context, f: Family, p: Packet)
    ensures AppAgrees(env, c, x, f, p) == Intent.AppsAnswer(env, c, x, f, p)
  {
  }

  /** Packets that arrive at nat behind a setup with redirection, TPROXY or both are
      redirected, answered and accepted as intended, and otherwise meet the rules that
      were there. */
  lemma NatArrival(refused: set<Rule>, w: World, c: Config, k: Capabilities, x: Context, f: Family, buffered: bool,
                   ch: string, env: Env, d: nat, p: Packet)
    requires Reported(refused, w, c, k, x, f, buffered) && c.mode in {RedirectOnly, Mixed, TproxyOnly, Enhance} && IsHook(ch)
    requires HasChain(w, f, Nat, ch) && Bare(w, f) && Pingless(w[f][Nat][ch]) && d > 1 && Intent.AppsAnswer(env, c, x, f, p)
    ensures var v := Behind(refused, w, c, k, x, f, buffered);
      && HasChain(v, f, Nat, ch)
      && Traverse(env, v[f][Nat], d, v[f][Nat][ch], p)
         == Arrives(env, v[f][Nat], d, NatFate(env, refused, c, k, x, f, ch, p), w[f][Nat][ch])
  {
    var v, was := Behind(refused, w, c, k, x, f, buffered), w[f][Nat][ch];
    hide *;
    ModesAgree(c, k, f);
    AppsAgree(env, c, x, f, p);
    HookBuiltin(ch);
    HasItsTable(w, f, Nat, ch);
    BareAt(w, f, Nat, ch);
    ReportedIn(refused, w, c, k, x, f, buffered);
    NatMet(refused, w, v, c, k, x, f);
    var n := ChainsAfter(refused, w, f, Nat, ModeSetup(c, k, x, f));
    NatPuts(refused, c, k, x, f, ch, was);
    HooksHeld(refused, w, c, k, x, f, buffered, Nat, ch, NatHooks(refused, c, k, f, ch, was));
    HeldAfter(refused, w, c, k, x, f, Nat, ch, NatHooks(refused, c, k, f, ch, was));
    NatFrontIs(refused, c, k, f, ch, was);
    NatInstalled(refused, w, c, k, x, f, ch);
    NatMeans(env, n, d, refused, c, k, x, f, ch, was, p);
    AlikeArrives(env, v, f, n, d, ch, NatFate(env, refused, c, k, x, f, ch, p), was, p);
  }

  lemma ReportedIn(refused: set<Rule>, w: World, c: Config, k: Capabilities, x: Context, f: Family, buffered: bool)
    requires Reported(refused, w, c, k, x, f, buffered)
    ensures Installed(refused, w, Behind(refused, w, c, k, x, f, buffered), c, k, x, f)
  {
    hide Installed, Reported, EndOf, RunOf, Opened, ModeSetup;
    ReportedInstalls(refused, w, c, k, x, f, buffered);
  }

  /** Tables no packet can tell apart. */
  lemma AlikeArrives(env: Env, v: World, f: Family, n: Chains, d: nat, ch: string, fate: Intent.Fate, was: seq<Rule>, p: Packet)
    requires HasTable(v, f, Nat) && SetupOutcome.Alike(v[f][Nat], n) && ch in n
    requires Traverse(env, n, d, n[ch], p) == Arrives(env, n, d, fate, was)
    ensures HasChain(v, f, Nat, ch) && Traverse(env, v[f][Nat], d, v[f][Nat][ch], p) == Arrives(env, v[f][Nat], d, fate, was)
  {
    var m := v[f][Nat];
    assert ch in m;
    assert Traverse(env, m, d, m[ch], p) == Traverse(env, n, d, n[ch], p);
    if fate.GoesOn? {
      assert Traverse(env, m, d, was, fate.p) == Traverse(env, n, d, was, fate.p);
    }
    hide Traverse;
  }

  /** A built-in chain of the tables that are as the unbuffered run leaves them. */
  lemma FrontHeld(refused: set<Rule>, w: World, c: Config, k: Capabilities, x: Context, f: Family, buffered: bool,
                  t: TableName, ch: string, after: seq<Rule>)
    requires Reported(refused, w, c, k, x, f, buffered) && Bare(w, f) && t != Nat && HasChain(w, f, t, ch) && !IsBoxCustomChain(ch)
    requires Puts(refused, f, ModeSetup(c, k, x, f), t, ch, w[f][t][ch], after)
    ensures var v := Behind(refused, w, c, k, x, f, buffered);
      && HasChain(v, f, t, ch) && v[f][t][ch] == after
      && Ran(refused, w, f, t, ModeSetup(c, k, x, f)) && v[f][t] == ChainsAfter(refused, w, f, t, ModeSetup(c, k, x, f))
  {
    hide *;
    HasItsTable(w, f, t, ch);
    ReportedIn(refused, w, c, k, x, f, buffered);
    TableMet(refused, w, Behind(refused, w, c, k, x, f, buffered), c, k, x, f, t);
    HooksHeld(refused, w, c, k, x, f, buffered, t, ch, after);
    HeldAfter(refused, w, c, k, x, f, t, ch, after);
    ChainThere(Behind(refused, w, c, k, x, f, buffered), f, t, ch);
  }

  lemma TableMet(refused: set<Rule>, w: World, v: World, c: Config, k: Capabilities, x: Context, f: Family, t: TableName)
    requires Installed(refused, w, v, c, k, x, f) && HasTable(w, f, t) && t != Nat
    ensures Ran(refused, w, f, t, ModeSetup(c, k, x, f)) && HasTable(v, f, t)
    ensures v[f][t] == ChainsAfter(refused, w, f, t, ModeSetup(c, k, x, f))
  {
    hide ModeSetup, Acceptable, DirectRun, SetupOutcome.Alike;
    SetupFamily(c, k, x, f);
    RunKeepsTables(refused, w, f, ModeSetup(c, k, x, f), t);
  }

  lemma ChainThere(v: World, f: Family, t: TableName, ch: string)
    requires HasTable(v, f, t) && ch in v[f][t]
    ensures HasChain(v, f, t, ch)
  {
  }

  // ----- mangle, by the standard chains -----

  lemma TproxyRuleMeans(env: Env, chains: Chains, d: nat, on: bool, c: Config, r: Rule, p: Packet)
    ensures Traverse(env, chains, d, When(on, [TproxyRule(c, r)]), p)
         == if on && Matches(env, r, p) then Tproxied(c.tproxyPort, Marked(p)) else Fell(p)
  {
    NothingFalls(env, chains, d, p);
    assert [TproxyRule(c, r)][1..] == [] && Matches(env, TproxyRule(c, r), p) == Matches(env, r, p);
  }

  lemma TproxyRulesMean(env: Env, chains: Chains, d: nat, tcp: bool, udp: bool, c: Config, base: Rule, p: Packet)
    requires base == Rule(Return, dst := base.dst, dport := base.dport)
    ensures var rules := When(tcp, [TproxyRule(c, base.(proto := Is(Tcp)))]) + When(udp, [TproxyRule(c, base.(proto := Is(Udp)))]);
      Traverse(env, chains, d, rules, p)
        == if Matches(env, base, p) && ((p.proto == Tcp && tcp) || (p.proto == Udp && udp)) then Tproxied(c.tproxyPort, Marked(p)) else Fell(p)
  {
    var a, b := base.(proto := Is(Tcp)), base.(proto := Is(Udp));
    assert Matches(env, a, p) == (p.proto == Tcp && Matches(env, base, p));
    assert Matches(env, b, p) == (p.proto == Udp && Matches(env, base, p));
    hide Matches, TproxyRule, Marked;
    TraverseAppend(env, chains, d, When(tcp, [TproxyRule(c, a)]), When(udp, [TproxyRule(c, b)]), p);
    TproxyRuleMeans(env, chains, d, tcp, c, a, p);
    TproxyRuleMeans(env, chains, d, udp, c, b, p);
  }

  lemma QueriesTproxied(env: Env, chains: Chains, d: nat, c: Config, p: Packet)
    ensures Traverse(env, chains, d, MangleDnsRules(c, ActTproxy), p)
         == if DnsReturned(c, p) then Back(p) else if DnsMarked(c, p) then Tproxied(c.tproxyPort, Marked(p)) else Fell(p)
  {
    var base := Rule(Return, dport := Port(53));
    assert Matches(env, base, p) == (p.dport == 53);
    hide Matches, Marked;
    if c.dnsMode != DnsTproxy || DnsToMihomo(c) {
      ReturnedQueries(env, chains, d, c, ActTproxy, p);
    } else {
      TproxyRulesMean(env, chains, d, TcpInMangle(c) && c.dnsTcp, c.dnsUdp && c.proxyUdp, c, base, p);
    }
  }

  lemma FakesTproxied(env: Env, chains: Chains, d: nat, c: Config, f: Family, p: Packet)
    ensures Traverse(env, chains, d, FakeIp6Rules(c, f, ActTproxy), p)
         == if FakeIpMarked(c, f, p) then Tproxied(c.tproxyPort, Marked(p)) else Fell(p)
  {
    NothingFalls(env, chains, d, p);
    if f == V6 && c.fakeIp6.Some? && c.coreName == "mihomo" {
      var base := Rule(Return, dst := c.fakeIp6);
      hide InNet;
      assert Matches(env, base, p) == InNet(c.fakeIp6.value, p.dst);
      TproxyRulesMean(env, chains, d, TcpInMangle(c), c.proxyUdp, c, base, p);
    }
  }

  /** What both external chains begin with. */
  lemma PrefixMeans(env: Env, chains: Chains, d: nat, c: Config, k: Capabilities, f: Family, p: Packet)
    ensures Traverse(env, chains, d, ExternalPrefix(c, k, f, ActTproxy), p)
         == if Intent.Replies(c, k, p) || Intent.QueryLeft(c, p) then Back(p)
            else if Intent.QueryHandled(c, p) || Intent.FakeHandled(c, f, p) then Tproxied(c.tproxyPort, Intent.WithBit24(p))
            else Fell(p)
  {
    var a, b, e := ReplyBypass(c, k), MangleDnsRules(c, ActTproxy), FakeIp6Rules(c, f, ActTproxy);
    assert ExternalPrefix(c, k, f, ActTproxy) == a + b + e;
    SelectedAgrees(c, k, Context(0, 0, [], [], [], false, false), p);
    QueriesAgree(c, f, p);
    MarkAgrees(p);
    hide ReplyBypass, MangleDnsRules, FakeIp6Rules, ExternalPrefix, Intent.Replies, Intent.QueryLeft, Intent.QueryHandled, Intent.FakeHandled;
    hide DnsReturned, DnsMarked, FakeIpMarked, ConntrackEnabled, Marked, Intent.WithBit24, Selected, Intent.Chosen;
    TraverseAppend(env, chains, d, a + b, e, p);
    TraverseAppend(env, chains, d, a, b, p);
    ReplyMeans(env, chains, d, c, k, p);
    QueriesTproxied(env, chains, d, c, p);
    FakesTproxied(env, chains, d, c, f, p);
  }

  /** The rest of the standard external chain, by destination and interface. */
  function BodyFate(env: Env, refused: set<Rule>, c: Config, k: Capabilities, f: Family, p: Packet): Intent.Fate {
    if Intent.Spared(env, c, k, f, true, p) then Intent.GoesOn(p)
    else if Intent.OwnNet(refused, c, f, p) then Intent.Ends(Accepted(p))
    else if Intent.Handled(c, p) && Intent.Admitted(c, p) then Intent.ToProxy(c, p)
    else Intent.GoesOn(p)
  }

  lemma ProxyAgrees(c: Config, p: Packet)
    ensures Intent.ToProxy(c, p) == Intent.Ends(Dispatch(c, ActTproxy, p)) && Enabled(c, ActTproxy, p) == Intent.Handled(c, p)
    ensures Intent.ToProxy(c, p) == Intent.Ends(Tproxied(c.tproxyPort, Intent.WithBit24(p)))
  {
  }

  lemma BodyMeans(env: Env, chains: Chains, d: nat, refused: set<Rule>, c: Config, k: Capabilities, f: Family, p: Packet)
    requires d > 0 && HoldsLocal(chains, refused, c, f)
    ensures Meets(Traverse(env, chains, d, ExternalBody(c, k, f, ActTproxy), p), BodyFate(env, refused, c, k, f, p))
  {
    assert !Passes(Dispatch(c, ActTproxy, p));
    hide ExternalBody, HoldsLocal, Bypassed, LocalHit, IngressAllowed, Dispatch, Enabled;
    hide Intent.Spared, Intent.OwnNet, Intent.Admitted, Intent.Handled, Intent.ToProxy;
    StandardExternalMeans(env, chains, d, refused, c, k, f, ActTproxy, p);
    ProxyAgrees(c, p);
    ExternalIsIngress(f);
    SparedAgrees(env, c, k, f, EXTERNAL, p);
    OwnNetsAgree(refused, c, f, p);
    IngressAgrees(c, p);
  }

  lemma MangleInMeans(env: Env, chains: Chains, d: nat, refused: set<Rule>, c: Config, k: Capabilities, f: Family, p: Packet)
    requires d > 0 && HoldsLocal(chains, refused, c, f)
    ensures Meets(Traverse(env, chains, d, TproxyExternalRules(c, k, f), p), Intent.MangleIn(env, refused, c, k, f, p))
  {
    var a, b := ExternalPrefix(c, k, f, ActTproxy), ExternalBody(c, k, f, ActTproxy);
    assert TproxyExternalRules(c, k, f) == a + b;
    hide ExternalPrefix, ExternalBody, HoldsLocal, TproxyExternalRules, Intent.ToProxy, Intent.WithBit24;
    hide Intent.Spared, Intent.OwnNet, Intent.Admitted, Intent.Replies, Intent.QueryLeft, Intent.QueryHandled, Intent.FakeHandled, Intent.Handled;
    TraverseAppend(env, chains, d, a, b, p);
    PrefixMeans(env, chains, d, c, k, f, p);
    ProxyAgrees(c, p);
    BodyMeans(env, chains, d, refused, c, k, f, p);
  }

  lemma MangleOutIs(env: Env, refused: set<Rule>, c: Config, k: Capabilities, x: Context, f: Family, p: Packet)
    requires !Intent.FromCore(refused, x, p)
    ensures var fate, yes := Intent.MangleOut(env, refused, c, k, x, f, p), LocalMarked(env, refused, c, k, x, f, p);
      fate == if !DnsReturned(c, p) && LocalAccepted(env, refused, c, k, x, f, ActMark, p)
              then Intent.Ends(Accepted(MarkedIf(yes, p))) else Intent.GoesOn(MarkedIf(yes, p))
  {
    SelectedAgrees(c, k, x, p);
    MarkAgrees(p);
    QueriesAgree(c, f, p);
    LocalIsEgress(f);
    SparedAgrees(env, c, k, f, LOCAL, p);
    ForcedAgrees(env, c, k, x, f, p);
    OwnNetsAgree(refused, c, f, p);
    OnlyEnabledMarked(c, f, p);
    hide Bypassed, LocalHit, Selected, ForcedHit, Marked, ProtoEnabled, DnsReturned, DnsMarked, FakeIpMarked, ConntrackEnabled, Ingress, Egress;
    hide Intent.Spared, Intent.OwnNet, Intent.Chosen, Intent.Forced, Intent.FromCore, Intent.Replies, Intent.QueryLeft;
    hide Intent.QueryHandled, Intent.FakeHandled, Intent.Handled, Intent.WithBit24, LocalEnabled;
  }

  lemma MangleOutMeans(env: Env, chains: Chains, d: nat, refused: set<Rule>, c: Config, k: Capabilities, x: Context, f: Family, p: Packet)
    requires d > 0 && HoldsLocal(chains, refused, c, f) && AppAgrees(env, c, x, f, p)
    ensures Meets(Traverse(env, chains, d, CoreRules(refused, x) + TproxyLocalRules(c, k, x, f), p),
                  Intent.MangleOut(env, refused, c, k, x, f, p))
  {
    CoreAgrees(env, refused, x, p);
    assert Intent.FromCore(refused, x, p) ==> Intent.MangleOut(env, refused, c, k, x, f, p) == Intent.GoesOn(p);
    hide CoreRules, TproxyLocalRules, HoldsLocal, CoreOwned, AppAgrees, LocalMarked, LocalAccepted, DnsReturned, Marked;
    hide Intent.FromCore, Intent.MangleOut;
    TraverseAppend(env, chains, d, CoreRules(refused, x), TproxyLocalRules(c, k, x, f), p);
    CoreReturns(env, chains, d, refused, x, p);
    LocalChainMeans(env, chains, d, refused, c, k, x, f, p);
    if !Intent.FromCore(refused, x, p) {
      MangleOutIs(env, refused, c, k, x, f, p);
    }
  }

  function MangleFate(env: Env, refused: set<Rule>, c: Config, k: Capabilities, x: Context, f: Family, ch: string, p: Packet): Intent.Fate {
    if ch == "PREROUTING" then Intent.MangleIn(env, refused, c, k, f, p) else Intent.MangleOut(env, refused, c, k, x, f, p)
  }

  /** One jump at the head of what was there. */
  lemma MangleFrontIs(refused: set<Rule>, c: Config, k: Capabilities, ch: string, was: seq<Rule>)
    requires IsHook(ch) && Jumpless(was) && !Diverts(c, k)
    ensures MangleHooks(refused, c, k, ch, was) == [Rule(Jump(MainOf(ch)))] + was
  {
    MainNames(V4, ch);
    var held := [Rule(Jump(MainOf(ch)))] + was;
    assert DivertJump() !in held && LegacyDivertJump() !in held;
    assert WithJump(MainOf(ch), was) == held;
    hide IsBoxCustomChain, Jumpless, DivertJump, LegacyDivertJump, Diverts;
    WithoutAbsent(held, DivertJump());
    WithoutAbsent(held, LegacyDivertJump());
  }

  lemma MangleEnters(env: Env, chains: Chains, d: nat, target: string, fate: Intent.Fate, was: seq<Rule>, p: Packet)
    requires d > 0 && target in chains && Meets(Traverse(env, chains, d - 1, chains[target], p), fate)
    ensures Traverse(env, chains, d, [Rule(Jump(target))] + was, p) == Arrives(env, chains, d, fate, was)
  {
    Enters(env, chains, d, target, was, p);
    hide Traverse;
  }

  lemma SlowNotDiverted(c: Config, k: Capabilities)
    requires !PerformanceChain(c, k)
    ensures !Diverts(c, k)
  {
    hide PerformanceChain;
  }

  lemma MangleFateMeans(env: Env, chains: Chains, d: nat, refused: set<Rule>, c: Config, k: Capabilities, x: Context, f: Family,
                        ch: string, p: Packet)
    requires d > 0 && HoldsLocal(chains, refused, c, f) && AppAgrees(env, c, x, f, p) && IsHook(ch)
    requires EXTERNAL in chains && chains[EXTERNAL] == TproxyExternalRules(c, k, f)
    requires LOCAL in chains && chains[LOCAL] == CoreRules(refused, x) + TproxyLocalRules(c, k, x, f)
    ensures MainOf(ch) in chains
    ensures Meets(Traverse(env, chains, d, chains[MainOf(ch)], p), MangleFate(env, refused, c, k, x, f, ch, p))
  {
    if ch != "PREROUTING" {
      HookIs(ch);
    }
    hide Meets, HoldsLocal, AppAgrees, TproxyExternalRules, TproxyLocalRules, CoreRules, Intent.MangleIn, Intent.MangleOut;
    MangleInMeans(env, chains, d, refused, c, k, f, p);
    MangleOutMeans(env, chains, d, refused, c, k, x, f, p);
  }

  /** Packets that arrive at mangle behind a setup of the standard TPROXY chains go to
      the proxy, or leave with its mark, as intended, and then meet the rules that were
      there. */
  lemma MangleArrival(refused: set<Rule>, w: World, c: Config, k: Capabilities, x: Context, f: Family, buffered: bool,
                      ch: string, env: Env, d: nat, p: Packet)
    requires Reported(refused, w, c, k, x, f, buffered) && Intent.Tproxying(c, k, f) && !Intent.Fast(c, k)
    requires IsHook(ch) && HasChain(w, f, Mangle, ch) && Bare(w, f) && d > 1 && Intent.AppsAnswer(env, c, x, f, p)
    ensures var v := Behind(refused, w, c, k, x, f, buffered);
      && HasChain(v, f, Mangle, ch)
      && Traverse(env, v[f][Mangle], d, v[f][Mangle][ch], p)
         == Arrives(env, v[f][Mangle], d, MangleFate(env, refused, c, k, x, f, ch, p), w[f][Mangle][ch])
  {
    var was := w[f][Mangle][ch];
    hide *;
    ModesAgree(c, k, f);
    AppsAgree(env, c, x, f, p);
    HookBuiltin(ch);
    BareAt(w, f, Mangle, ch);
    ManglePuts(refused, c, k, x, f, ch, was);
    FrontHeld(refused, w, c, k, x, f, buffered, Mangle, ch, MangleHooks(refused, c, k, ch, was));
    var n := ChainsAfter(refused, w, f, Mangle, ModeSetup(c, k, x, f));
    SlowNotDiverted(c, k);
    MangleFrontIs(refused, c, k, ch, was);
    StandardInstalled(refused, w, c, k, x, f);
    MangleFateMeans(env, n, d - 1, refused, c, k, x, f, ch, p);
    MangleEnters(env, n, d, MainOf(ch), MangleFate(env, refused, c, k, x, f, ch, p), was, p);
  }

  // ----- mangle, by the TUN chains -----

  function TunFate(env: Env, refused: set<Rule>, c: Config, k: Capabilities, x: Context, f: Family, ch: string, p: Packet): Packet {
    if ch == "PREROUTING" then Intent.TunIn(env, c, k, f, p) else Intent.TunOut(env, refused, c, k, x, f, p)
  }

  lemma MarksAre(p: Packet)
    ensures WithMark(p, Route) == Intent.Routed(p) && WithMark(p, Bypass) == Intent.Bypassing(p) && WithMark(p, Plain) == p
  {
  }

  lemma TunNamesSides(f: Family)
    ensures Ingress(TunPreChain(f), f) && Egress(TunOutChain(f), f) && !Ingress(TunOutChain(f), f)
  {
  }

  lemma DestinationAgrees(env: Env, c: Config, k: Capabilities, f: Family, chain: string, p: Packet)
    requires Ingress(chain, f) || Egress(chain, f)
    ensures WithMark(p, DestinationMark(env, c, k, f, chain, p)) == Intent.ByDestination(env, c, k, f, Ingress(chain, f), p)
  {
    MarksAre(p);
    ListsAgree(c, f, p);
    CnAgrees(env, c, k, f, chain, p);
    hide InAny, Intent.InList, CnDestination, Intent.ToCn, WithMark, Intent.Routed, Intent.Bypassing, InNet, Ingress, Egress;
  }

  lemma TunInAgrees(env: Env, c: Config, k: Capabilities, f: Family, p: Packet)
    ensures WithMark(p, TunPreMark(env, c, k, f, p)) == Intent.TunIn(env, c, k, f, p)
  {
    assert TunDns(c, p) == Intent.QueryRouted(c, p);
    TunNamesSides(f);
    MarksAre(p);
    IngressAgrees(c, p);
    DestinationAgrees(env, c, k, f, TunPreChain(f), p);
    hide AnyIface, Intent.OnInterface, IfMatches, WithMark, Intent.Routed, Intent.Bypassing, DestinationMark, Intent.ByDestination;
    hide TunDns, Intent.QueryRouted, Ingress, Egress;
  }

  lemma TunForcedAgrees(env: Env, c: Config, k: Capabilities, x: Context, f: Family, p: Packet)
    ensures TunForced(env, c, k, x, f, p)
         == (((p.proto == Tcp && c.proxyTcp) || (p.proto == Udp && c.proxyUdp)) && Intent.Forced(env, c, k, x, f, p))
  {
    TunNamesSides(f);
    CnAgrees(env, c, k, f, TunOutChain(f), p);
    assert Intent.ToCn(env, c, k, f, false, p) && c.cnipMode == ByIpset ==> env.inSet(if f == V4 then "cnip" else "cnip6", p.dst);
    hide Ingress, Egress, CnDestination, CnipEnabled;
  }

  lemma TunOwnerAgrees(env: Env, refused: set<Rule>, x: Context, p: Packet)
    ensures TunCoreOwned(env, refused, x, p) == Intent.ByOwner(refused, x, p)
  {
    VariantMatches(env, refused, x, p);
    hide Variant, CoreBypassVariants, Matches, Intent.ByOwner;
  }

  lemma QueryRoutedIs(c: Config, p: Packet)
    ensures TunDns(c, p) == Intent.QueryRouted(c, p)
  {
  }

  lemma TunOutAgrees(env: Env, refused: set<Rule>, c: Config, k: Capabilities, x: Context, f: Family, p: Packet)
    ensures WithMark(p, if TunCoreOwned(env, refused, x, p) then Plain else TunOutMark(env, c, k, x, f, p))
         == Intent.TunOut(env, refused, c, k, x, f, p)
  {
    hide WithMark, Intent.Routed, Intent.Bypassing, DestinationMark, Intent.ByDestination, TunForced, Intent.Forced, Intent.ByOwner;
    hide TunDns, Intent.QueryRouted, Ingress, Egress, TunCoreOwned;
    QueryRoutedIs(c, p);
    TunNamesSides(f);
    MarksAre(p);
    TunOwnerAgrees(env, refused, x, p);
    TunForcedAgrees(env, c, k, x, f, p);
    DestinationAgrees(env, c, k, f, TunOutChain(f), p);
  }

  function TunTarget(f: Family, ch: string): string { if ch == "PREROUTING" then TunPreChain(f) else TunOutChain(f) }

  lemma TunMeets(refused: set<Rule>, w: World, c: Config, k: Capabilities, x: Context, f: Family, ch: string, env: Env, d: nat, p: Packet)
    requires c.mode == Tun && TunManaged(c) && Ran(refused, w, f, Mangle, ModeSetup(c, k, x, f)) && Unmarked(p) && IsHook(ch)
    ensures var chains := ChainsAfter(refused, w, f, Mangle, ModeSetup(c, k, x, f));
      && TunTarget(f, ch) in chains
      && Meets(Traverse(env, chains, d, chains[TunTarget(f, ch)], p), Intent.GoesOn(TunFate(env, refused, c, k, x, f, ch, p)))
  {
    hide Ran, ModeSetup, ChainsAfter, TunManaged, Unmarked, Intent.TunIn, Intent.TunOut, TunPreMark, TunOutMark, TunCoreOwned, WithMark, Traverse;
    hide TunPreChain, TunOutChain, IsHook;
    TunInstalledPolicy(refused, w, c, k, x, f, env, d, p);
    TunInAgrees(env, c, k, f, p);
    TunOutAgrees(env, refused, c, k, x, f, p);
  }

  lemma TunFrontIs(f: Family, ch: string, was: seq<Rule>)
    requires IsHook(ch) && Jumpless(was)
    ensures TunHooks(f, ch, was) == [Rule(Jump(TunTarget(f, ch)))] + was
  {
    MainNames(f, ch);
    hide IsBoxCustomChain, TunPreChain, TunOutChain;
  }

  lemma TunFrontHeld(refused: set<Rule>, w: World, c: Config, k: Capabilities, x: Context, f: Family, buffered: bool, ch: string)
    requires Reported(refused, w, c, k, x, f, buffered) && c.mode == Tun && TunManaged(c)
    requires IsHook(ch) && HasChain(w, f, Mangle, ch) && Bare(w, f)
    ensures var v := Behind(refused, w, c, k, x, f, buffered);
      && HasChain(v, f, Mangle, ch) && v[f][Mangle][ch] == [Rule(Jump(TunTarget(f, ch)))] + w[f][Mangle][ch]
      && Ran(refused, w, f, Mangle, ModeSetup(c, k, x, f)) && v[f][Mangle] == ChainsAfter(refused, w, f, Mangle, ModeSetup(c, k, x, f))
  {
    var was := w[f][Mangle][ch];
    hide *;
    HookBuiltin(ch);
    BareAt(w, f, Mangle, ch);
    TunPuts(refused, c, k, x, f, ch, was);
    FrontHeld(refused, w, c, k, x, f, buffered, Mangle, ch, TunHooks(f, ch, was));
    TunFrontIs(f, ch, was);
  }

  lemma TunMeetsRest(refused: set<Rule>, w: World, c: Config, k: Capabilities, x: Context, f: Family, ch: string, env: Env, d: nat,
                     was: seq<Rule>, p: Packet)
    requires c.mode == Tun && TunManaged(c) && Ran(refused, w, f, Mangle, ModeSetup(c, k, x, f)) && Unmarked(p) && IsHook(ch) && d > 0
    ensures var chains := ChainsAfter(refused, w, f, Mangle, ModeSetup(c, k, x, f));
      Traverse(env, chains, d, [Rule(Jump(TunTarget(f, ch)))] + was, p)
        == Traverse(env, chains, d, was, TunFate(env, refused, c, k, x, f, ch, p))
  {
    hide *;
    TunMeets(refused, w, c, k, x, f, ch, env, d - 1, p);
    var n := ChainsAfter(refused, w, f, Mangle, ModeSetup(c, k, x, f));
    MangleEnters(env, n, d, TunTarget(f, ch), Intent.GoesOn(TunFate(env, refused, c, k, x, f, ch, p)), was, p);
    GoingOn(env, n, d, TunFate(env, refused, c, k, x, f, ch, p), was);
  }

  /** An unmarked packet that arrives at mangle behind a TUN setup meets the rules that
      were there with the mark intended. */
  lemma TunArrival(refused: set<Rule>, w: World, c: Config, k: Capabilities, x: Context, f: Family, buffered: bool,
                   ch: string, env: Env, d: nat, p: Packet)
    requires Reported(refused, w, c, k, x, f, buffered) && c.mode == Tun && (c.bypassCn || c.macFilter)
    requires IsHook(ch) && HasChain(w, f, Mangle, ch) && Bare(w, f) && d > 0 && Unmarked(p)
    ensures var v := Behind(refused, w, c, k, x, f, buffered);
      && HasChain(v, f, Mangle, ch)
      && Traverse(env, v[f][Mangle], d, v[f][Mangle][ch], p)
         == Traverse(env, v[f][Mangle], d, w[f][Mangle][ch], TunFate(env, refused, c, k, x, f, ch, p))
  {
    var was := w[f][Mangle][ch];
    hide *;
    ModesAgree(c, k, f);
    TunFrontHeld(refused, w, c, k, x, f, buffered, ch);
    TunMeetsRest(refused, w, c, k, x, f, ch, env, d, was, p);
  }

  lemma GoingOn(env: Env, chains: Chains, d: nat, q: Packet, was: seq<Rule>)
    ensures Arrives(env, chains, d, Intent.GoesOn(q), was) == Traverse(env, chains, d, was, q)
  {
    hide Traverse;
  }

  // ----- mangle, by the fast chains -----

  /** The jumps of the fast chains in front, as far as the kernel takes them. */
  lemma FastFrontIs(refused: set<Rule>, c: Config, k: Capabilities, was: seq<Rule>)
    requires Jumpless(was) && (Diverts(c, k) ==> DivertJump() !in refused)
    ensures MangleHooks(refused, c, k, "PREROUTING", was) == Entry(c, k) + was
  {
    if Diverts(c, k) {
      MainNames(V4, "PREROUTING");
      var held := [Rule(Jump(EXTERNAL))] + was;
      assert DivertJump() !in held && WithJump(EXTERNAL, was) == held;
      assert [DivertJump()] + held == [DivertJump()] + [Rule(Jump(EXTERNAL))] + was;
    } else {
      MangleFrontIs(refused, c, k, "PREROUTING", was);
      assert [] + [Rule(Jump(EXTERNAL))] == [Rule(Jump(EXTERNAL))];
    }
  }

  lemma {:induction false} TakenIs(refused: set<Rule>, rules: seq<Rule>, r: Rule)
    ensures r in SetupContents.Taken(refused, rules) <==> r in rules && r !in refused
    decreases |rules|
  {
    if rules != [] {
      TakenIs(refused, rules[1..], r);
      assert [rules[0]][1..] == [];
      assert Variant(refused, [rules[0]]) == if rules[0] !in refused then [rules[0]] else [];
    }
  }

  lemma AddressesAgree(refused: set<Rule>, c: Config, k: Capabilities, f: Family, chain: string, p: Packet)
    ensures OwnAccepted(DestRules(refused, c, k, f, chain), f, p) == Intent.OwnAddress(refused, k, f, p)
  {
    var taken := SetupContents.Taken(refused, PerfAddrtypeRules(k));
    assert AddrtypeFor(p) == Intent.OwnAddressRule(p) && (AddrtypeFor(p) in PerfAddrtypeRules(k) <==> k.addrtype);
    hide PerfAddrtypeRules, AddrtypeFor, Intent.OwnAddressRule, InNet;
    TakenIs(refused, PerfAddrtypeRules(k), AddrtypeFor(p));
    DestIs(refused, c, k, f, chain);
    TakenInChain(c, k, f, chain, DestRules(refused, c, k, f, chain), taken, p);
  }

  lemma FastSparedAgrees(env: Env, refused: set<Rule>, c: Config, k: Capabilities, f: Family, chain: string, p: Packet)
    requires Ingress(chain, f) || Egress(chain, f)
    ensures (!DnsOverUdp(p) && (Bypassed(env, c, k, f, chain, p) || OwnAccepted(DestRules(refused, c, k, f, chain), f, p)))
         == Intent.FastSpared(env, refused, c, k, f, Ingress(chain, f), p)
  {
    hide OwnAccepted, DestRules, Intent.OwnAddress, Bypassed, Intent.Spared, Ingress, Egress;
    AddressesAgree(refused, c, k, f, chain, p);
    SparedAgrees(env, c, k, f, chain, p);
    ListsAgree(c, f, p);
  }

  /** The chains of the fast external side, and what its destination chain holds. */
  lemma FastDestInstalled(refused: set<Rule>, w: World, c: Config, k: Capabilities, x: Context, f: Family)
    requires TproxyMode(c) && TproxySupported(k, f) && PerformanceChain(c, k)
    requires Ran(refused, w, f, Mangle, ModeSetup(c, k, x, f))
    ensures var chains := ChainsAfter(refused, w, f, Mangle, ModeSetup(c, k, x, f));
      TP_PRE_IP in chains && chains[TP_PRE_IP] == DestRules(refused, c, k, f, TP_PRE_IP)
  {
    PreNames();
    var i := Holding(w, f, Mangle, TP_PRE_IP);
    hide *;
    FastDestMade(refused, c, k, f, i);
    PreIsExternalSide(f);
    ExternalSideMade(refused, c, k, x, f, TP_PRE_IP, i, Some(DestRules(refused, c, k, f, TP_PRE_IP)));
    SideInstalled(refused, w, c, k, x, f, TP_PRE_IP, DestRules(refused, c, k, f, TP_PRE_IP));
  }

  lemma PreIsExternalSide(f: Family)
    ensures TP_PRE_IP in {EXTERNAL, LocalIpChain(f), TP_PRE_IP, TP_PRE_IF}
    ensures Ingress(TP_PRE_IP, f) && Egress(TP_OUT_IP, f) && !Ingress(TP_OUT_IP, f)
  {
  }

  lemma DispatchesAgree(env: Env, chains: Chains, d: nat, refused: set<Rule>, c: Config, k: Capabilities, f: Family, p: Packet)
    requires d > 0 && HoldsFast(chains, c, k, f) && chains[TP_PRE_IP] == DestRules(refused, c, k, f, TP_PRE_IP)
    ensures Dispatches(env, chains, d, c, k, f, p) == Intent.FastIn(env, refused, c, k, f, p)
  {
    SelectedAgrees(c, k, Context(0, 0, [], [], [], false, false), p);
    PreIsExternalSide(f);
    hide ExternalPrefix, Bypassed, OwnAccepted, DestRules, HoldsFast, ProtoEnabled, IngressAllowed, Selected, Intent.WithBit24, Ingress, Egress;
    hide Intent.Replies, Intent.QueryLeft, Intent.QueryHandled, Intent.FakeHandled, Intent.Handled, Intent.Admitted, Intent.FastSpared, Intent.Chosen;
    PrefixMeans(env, chains, d, c, k, f, p);
    IngressAgrees(c, p);
    DestAcceptsMeans(env, chains, d, c, k, f, p);
    SameProgram(env, c, k, f, p);
    FastSparedAgrees(env, refused, c, k, f, TP_PRE_IP, p);
  }

  lemma FastEntryHeld(refused: set<Rule>, w: World, c: Config, k: Capabilities, x: Context, f: Family, buffered: bool)
    requires Reported(refused, w, c, k, x, f, buffered) && TproxyMode(c) && TproxySupported(k, f) && PerformanceChain(c, k)
    requires HasChain(w, f, Mangle, "PREROUTING") && Bare(w, f) && (Diverts(c, k) ==> DivertJump() !in refused)
    ensures var v := Behind(refused, w, c, k, x, f, buffered);
      && HasChain(v, f, Mangle, "PREROUTING") && v[f][Mangle]["PREROUTING"] == Entry(c, k) + w[f][Mangle]["PREROUTING"]
      && Ran(refused, w, f, Mangle, ModeSetup(c, k, x, f)) && v[f][Mangle] == ChainsAfter(refused, w, f, Mangle, ModeSetup(c, k, x, f))
  {
    var was := w[f][Mangle]["PREROUTING"];
    hide *;
    Preroutes();
    HookBuiltin("PREROUTING");
    BareAt(w, f, Mangle, "PREROUTING");
    ManglePuts(refused, c, k, x, f, "PREROUTING", was);
    FrontHeld(refused, w, c, k, x, f, buffered, Mangle, "PREROUTING", MangleHooks(refused, c, k, "PREROUTING", was));
    FastFrontIs(refused, c, k, was);
  }

  lemma Preroutes()
    ensures IsHook("PREROUTING") && IsHook("OUTPUT")
  {
  }

  /** The jumps in front, and then what was there. */
  lemma EntryThenRest(env: Env, chains: Chains, d: nat, c: Config, k: Capabilities, was: seq<Rule>, p: Packet)
    ensures var o := Traverse(env, chains, d, Entry(c, k), p);
      Traverse(env, chains, d, Entry(c, k) + was, p) == if o.Fell? then Traverse(env, chains, d, was, o.p) else o
  {
    TraverseAppend(env, chains, d, Entry(c, k), was, p);
  }

  lemma FastChainsHeld(refused: set<Rule>, w: World, c: Config, k: Capabilities, x: Context, f: Family)
    requires TproxyMode(c) && TproxySupported(k, f) && PerformanceChain(c, k)
    requires Ran(refused, w, f, Mangle, ModeSetup(c, k, x, f))
    ensures var chains := ChainsAfter(refused, w, f, Mangle, ModeSetup(c, k, x, f));
      HoldsFast(chains, c, k, f) && chains[TP_PRE_IP] == DestRules(refused, c, k, f, TP_PRE_IP)
  {
    hide *;
    FastInstalled(refused, w, c, k, x, f);
    FastDestInstalled(refused, w, c, k, x, f);
  }

  /** Packets of a flow, as the fast chains treat them: with the first, or as their socket's. */
  predicate Followed(c: Config, k: Capabilities, p: Packet, o: Outcome, first: bool) {
    if Intent.OwnSocket(c, k, p) then o.Accepted? && o.p.mark & 0x1000000 == 0x1000000
    else o.Tproxied? == (!p.reply && first)
  }

  lemma FateFollows(c: Config, k: Capabilities, p: Packet, o: Outcome, first: bool)
    requires Fate(c, k, p, o, first)
    ensures Followed(c, k, p, o, first)
  {
    ModesAgree(c, k, V4);
    hide PerformanceChain, Intent.Fast, MarkIs;
    if ToSocket(c, k, p) {
      MarkMeans(o.p.mark, 0x1000000, 0x1000000);
    }
  }

  lemma DivertsAgree(c: Config, k: Capabilities, p: Packet)
    ensures Diverts(c, k) ==> c.mode != Enhance && k.socketMatch
    ensures ToSocket(c, k, p) == Intent.OwnSocket(c, k, p)
    ensures DivertJump() == Intent.SocketRule()
  {
    ModesAgree(c, k, V4);
    hide PerformanceChain, Intent.Fast;
  }

  lemma Bit24Clear(m: bv32)
    requires m & 0x1000000 == 0
    ensures !MarkIs(m, FWMARK)
  {
  }

  /** A flow of others that arrives at mangle behind a setup of the fast chains: its first
      packet goes to the proxy as intended, every later one of its direction with it, or
      to the socket it belongs to; what the jumps let go meets the rules that were there. */
  lemma FlowArrival(refused: set<Rule>, w: World, c: Config, k: Capabilities, x: Context, f: Family, buffered: bool,
                    env: Env, d: nat, first: Packet, packets: seq<Packet>, m: bv32)
    requires Reported(refused, w, c, k, x, f, buffered) && Intent.Tproxying(c, k, f) && Intent.Fast(c, k) && d > 1
    requires HasChain(w, f, Mangle, "PREROUTING") && Bare(w, f) && Intent.SocketRule() !in refused
    requires packets != [] && packets[0] == first && !first.reply && FirstPacket(first) && m & 0x1000000 == 0
    requires OneFlow(first, packets) && !Intent.OwnSocket(c, k, first)
    ensures var v := Behind(refused, w, c, k, x, f, buffered);
      && HasChain(v, f, Mangle, "PREROUTING")
      && var chains, rules := v[f][Mangle], v[f][Mangle]["PREROUTING"];
         && (forall p :: var o := Traverse(env, chains, d, Entry(c, k), p);
               Traverse(env, chains, d, rules, p)
                 == if o.Fell? then Traverse(env, chains, d, w[f][Mangle]["PREROUTING"], o.p) else o)
         && var run := FlowRun(env, chains, d, Entry(c, k), packets, m);
            forall i :: 0 <= i < |packets| ==> Followed(c, k, packets[i], run[i], Intent.FastIn(env, refused, c, k, f, first))
  {
    var v, was := Behind(refused, w, c, k, x, f, buffered), w[f][Mangle]["PREROUTING"];
    hide *;
    ModesAgree(c, k, f);
    DivertsAgree(c, k, first);
    Bit24Clear(m);
    FastEntryHeld(refused, w, c, k, x, f, buffered);
    var n := ChainsAfter(refused, w, f, Mangle, ModeSetup(c, k, x, f));
    FlowHeld(refused, w, c, k, x, f, env, d, first, packets, m);
    forall p
      ensures var o := Traverse(env, n, d, Entry(c, k), p);
        Traverse(env, n, d, Entry(c, k) + was, p) == if o.Fell? then Traverse(env, n, d, was, o.p) else o
    {
      EntryThenRest(env, n, d, c, k, was, p);
    }
  }

  lemma FlowHeld(refused: set<Rule>, w: World, c: Config, k: Capabilities, x: Context, f: Family,
                 env: Env, d: nat, first: Packet, packets: seq<Packet>, m: bv32)
    requires TproxyMode(c) && TproxySupported(k, f) && PerformanceChain(c, k)
    requires Ran(refused, w, f, Mangle, ModeSetup(c, k, x, f)) && d > 1
    requires packets != [] && packets[0] == first && !first.reply && FirstPacket(first) && !MarkIs(m, FWMARK)
    requires OneFlow(first, packets) && !ToSocket(c, k, first)
    ensures var run := FlowRun(env, ChainsAfter(refused, w, f, Mangle, ModeSetup(c, k, x, f)), d, Entry(c, k), packets, m);
      forall i :: 0 <= i < |packets| ==> Followed(c, k, packets[i], run[i], Intent.FastIn(env, refused, c, k, f, first))
  {
    hide *;
    var n := ChainsAfter(refused, w, f, Mangle, ModeSetup(c, k, x, f));
    FastFlowsConsistent(refused, w, c, k, x, f, env, d, first, packets, m);
    FastChainsHeld(refused, w, c, k, x, f);
    DispatchesAgree(env, n, d - 1, refused, c, k, f, first);
    var run := FlowRun(env, n, d, Entry(c, k), packets, m);
    forall i | 0 <= i < |packets| ensures Followed(c, k, packets[i], run[i], Intent.FastIn(env, refused, c, k, f, first)) {
      FateFollows(c, k, packets[i], run[i], run[0].Tproxied?);
    }
  }

  lemma FastOutAgrees(env: Env, refused: set<Rule>, c: Config, k: Capabilities, x: Context, f: Family, p: Packet)
    ensures (!CoreOwned(env, refused, x, p) && FastLocalMarked(env, DestRules(refused, c, k, f, TP_OUT_IP), c, k, x, f, p))
         == Intent.FastOut(env, refused, c, k, x, f, p)
  {
    assert FastSelected(c, x, p) == Intent.FastChosen(c, x, p);
    PreIsExternalSide(f);
    hide CoreOwned, OwnAccepted, DestRules, ProtoEnabled, Bypassed, ForcedHit, FastSelected, DnsReturned, FakeIpMarked, ConntrackEnabled;
    hide Intent.FromCore, Intent.Replies, Intent.FakeHandled, Intent.Handled, Intent.Forced, Intent.FastSpared, Intent.FastChosen, Intent.QueryLeft;
    hide DnsMarked, Intent.QueryHandled, Selected, Intent.Chosen, Ingress, Egress, LocalEnabled;
    CoreAgrees(env, refused, x, p);
    SelectedAgrees(c, k, x, p);
    QueriesAgree(c, f, p);
    ForcedAgrees(env, c, k, x, f, p);
    FastSparedAgrees(env, refused, c, k, f, TP_OUT_IP, p);
  }

  lemma FastFrontHeld(refused: set<Rule>, w: World, c: Config, k: Capabilities, x: Context, f: Family, buffered: bool)
    requires Reported(refused, w, c, k, x, f, buffered) && TproxyMode(c) && TproxySupported(k, f)
    requires HasChain(w, f, Mangle, "OUTPUT") && Bare(w, f)
    ensures var v := Behind(refused, w, c, k, x, f, buffered);
      && HasChain(v, f, Mangle, "OUTPUT") && v[f][Mangle]["OUTPUT"] == [Rule(Jump(LOCAL))] + w[f][Mangle]["OUTPUT"]
      && Ran(refused, w, f, Mangle, ModeSetup(c, k, x, f)) && v[f][Mangle] == ChainsAfter(refused, w, f, Mangle, ModeSetup(c, k, x, f))
  {
    var was := w[f][Mangle]["OUTPUT"];
    hide *;
    Preroutes();
    HookBuiltin("OUTPUT");
    BareAt(w, f, Mangle, "OUTPUT");
    ManglePuts(refused, c, k, x, f, "OUTPUT", was);
    FrontHeld(refused, w, c, k, x, f, buffered, Mangle, "OUTPUT", MangleHooks(refused, c, k, "OUTPUT", was));
    LocalFront(refused, c, k, was);
  }

  lemma LocalFront(refused: set<Rule>, c: Config, k: Capabilities, was: seq<Rule>)
    requires Jumpless(was)
    ensures MangleHooks(refused, c, k, "OUTPUT", was) == [Rule(Jump(LOCAL))] + was
  {
    MainNames(V4, "OUTPUT");
    hide IsBoxCustomChain;
  }

  lemma FastLocalHolds(refused: set<Rule>, w: World, c: Config, k: Capabilities, x: Context, f: Family, env: Env, d: nat, p: Packet)
    requires TproxyMode(c) && TproxySupported(k, f) && PerformanceChain(c, k)
    requires Ran(refused, w, f, Mangle, ModeSetup(c, k, x, f)) && d > 0 && AppAgrees(env, c, x, f, p)
    requires FirstPacket(p) && !MarkIs(p.connmark, FWMARK)
    ensures var chains := ChainsAfter(refused, w, f, Mangle, ModeSetup(c, k, x, f));
      LOCAL in chains && LeavesWith(Traverse(env, chains, d, chains[LOCAL], p), p, Intent.FastOut(env, refused, c, k, x, f, p))
  {
    hide *;
    FastLocalPolicy(refused, w, c, k, x, f, env, d, p);
    OutDestInstalled(refused, w, c, k, x, f);
    FastOutAgrees(env, refused, c, k, x, f, p);
  }

  /** The mark a packet leaves with, added or as it was. */
  predicate LeavesMarkedAs(o: Outcome, p: Packet, yes: bool) {
    (o.Fell? || o.Back? || o.Accepted?) && o.p.mark == if yes then Intent.WithBit24(p).mark else p.mark
  }

  lemma LeavesAgree(o: Outcome, p: Packet, yes: bool)
    ensures LeavesWith(o, p, yes) == LeavesMarkedAs(o, p, yes)
  {
    MarkAgrees(p);
    hide Marked, Intent.WithBit24;
  }

  /** The first packet of a flow of the host leaves the fast chain with the mark exactly
      as intended, and meets the rules that were there unless it was let pass. */
  lemma OwnFlowArrival(refused: set<Rule>, w: World, c: Config, k: Capabilities, x: Context, f: Family, buffered: bool,
                       env: Env, d: nat, p: Packet)
    requires Reported(refused, w, c, k, x, f, buffered) && Intent.Tproxying(c, k, f) && Intent.Fast(c, k)
    requires HasChain(w, f, Mangle, "OUTPUT") && Bare(w, f) && d > 1 && Intent.AppsAnswer(env, c, x, f, p)
    requires FirstPacket(p) && p.connmark & 0x1000000 == 0
    ensures var v := Behind(refused, w, c, k, x, f, buffered);
      && HasChain(v, f, Mangle, "OUTPUT") && "BOX_LOCAL" in v[f][Mangle]
      && var chains := v[f][Mangle];
         var o := Traverse(env, chains, d - 1, chains["BOX_LOCAL"], p);
         && LeavesMarkedAs(o, p, Intent.FastOut(env, refused, c, k, x, f, p))
         && Traverse(env, chains, d, chains["OUTPUT"], p)
            == if Passes(o) then Traverse(env, chains, d, w[f][Mangle]["OUTPUT"], o.p) else o
  {
    var was := w[f][Mangle]["OUTPUT"];
    var n := "BOX_LOCAL";
    assert n == LOCAL;
    hide *;
    ModesAgree(c, k, f);
    AppsAgree(env, c, x, f, p);
    Bit24Clear(p.connmark);
    FastFrontHeld(refused, w, c, k, x, f, buffered);
    FastLocalHolds(refused, w, c, k, x, f, env, d - 1, p);
    var chains := ChainsAfter(refused, w, f, Mangle, ModeSetup(c, k, x, f));
    LeavesAgree(Traverse(env, chains, d - 1, chains[n], p), p, Intent.FastOut(env, refused, c, k, x, f, p));
    Enters(env, chains, d, LOCAL, was, p);
  }

  // ----- filter -----

  /** The rules on OUTPUT that are the compiler's own. */
  predicate IsQuicReject(r: Rule) {
    r == Rule(Reject, proto := Is(Udp), dport := Port(443)) || r == Rule(Reject, proto := Is(Udp), dport := Port(80))
  }

  predicate IsLoopReject(r: Rule) { r.target == Reject && r.proto == Is(Tcp) && r.dst.Some? && r.dport.Port? && (r.uid.Some? || r.gid.Some?) }

  /** None of them is in place. */
  predicate Rejectless(rules: seq<Rule>) { forall r | r in rules :: !IsQuicReject(r) && !IsLoopReject(r) }

  /** Rules that reject, behind what was there. */
  lemma {:induction false} TraverseRejects(env: Env, chains: Chains, d: nat, rules: seq<Rule>, p: Packet)
    requires forall r | r in rules :: r.target == Reject
    ensures Traverse(env, chains, d, rules, p) == if exists r | r in rules :: Matches(env, r, p) then Refused else Fell(p)
    decreases |rules|
  {
    if rules != [] {
      assert rules[0] in rules && forall r :: r in rules ==> r == rules[0] || r in rules[1..];
      TraverseRejects(env, chains, d, rules[1..], p);
    }
  }

  /** What is appended to OUTPUT: QUIC, and the ports of the core. */
  function QuicBack(refused: set<Rule>, c: Config): seq<Rule> {
    if c.quicDisabled && c.proxyUdp then
      (if QuicReject(443) !in refused then [QuicReject(443)] else []) + if QuicReject(80) !in refused then [QuicReject(80)] else []
    else []
  }

  function LoopBack(refused: set<Rule>, x: Context, f: Family, port: nat): seq<Rule> { Variant(refused, LoopbackRejects(x, f, port)) }

  lemma {:induction false} EnsuredBehind(refused: set<Rule>, rules: seq<Rule>, held: seq<Rule>)
    requires forall r | r in rules :: r !in held
    ensures EnsuredIn(refused, rules, held) == held + Variant(refused, rules)
    decreases |rules|
  {
    if rules == [] {
      assert held + [] == held;
    } else {
      EnsuredBehind(refused, rules[1..], held);
    }
  }

  lemma RejectShapes(x: Context, f: Family, port: nat)
    ensures forall r | r in LoopbackRejects(x, f, port) :: IsLoopReject(r) && !IsQuicReject(r)
    ensures IsQuicReject(QuicReject(443)) && IsQuicReject(QuicReject(80)) && QuicReject(443) != QuicReject(80)
    ensures forall r :: IsQuicReject(r) ==> !IsLoopReject(r) && r.target == Reject
  {
  }

  lemma LoopBehind(refused: set<Rule>, x: Context, f: Family, port: nat, held: seq<Rule>)
    requires forall r | r in held :: !IsLoopReject(r)
    ensures WithReject(refused, x, f, port, held) == held + LoopBack(refused, x, f, port)
    ensures forall r | r in LoopBack(refused, x, f, port) :: IsLoopReject(r) && !IsQuicReject(r)
  {
    RejectShapes(x, f, port);
    hide LoopbackRejects, Variant, IsLoopReject, IsQuicReject;
    EnsuredBehind(refused, LoopbackRejects(x, f, port), held);
  }

  lemma QuicBehind(refused: set<Rule>, c: Config, held: seq<Rule>)
    requires forall r | r in held :: !IsQuicReject(r)
    ensures WithQuic(refused, c, held) == held + QuicBack(refused, c)
    ensures forall r | r in QuicBack(refused, c) :: IsQuicReject(r) && !IsLoopReject(r)
  {
    RejectShapes(Context(0, 0, [], [], [], false, false), V4, 0);
    var a, b := QuicReject(443), QuicReject(80);
    assert a !in held && b !in held;
    hide QuicReject, IsQuicReject, IsLoopReject;
    var one := Backing(refused, a, held);
    assert one == held + if a !in refused then [a] else [];
    assert b !in one;
    assert Backing(refused, b, one) == one + if b !in refused then [b] else [];
  }

  /** What a TPROXY start appends to OUTPUT of filter. */
  function TproxyBack(refused: set<Rule>, c: Config, x: Context, f: Family): seq<Rule> {
    QuicBack(refused, c) + if c.mode != Enhance then LoopBack(refused, x, f, c.tproxyPort) else []
  }

  lemma TproxyBehind(refused: set<Rule>, c: Config, x: Context, f: Family, held: seq<Rule>)
    requires forall r | r in held :: !IsQuicReject(r) && (c.mode != Enhance ==> !IsLoopReject(r))
    ensures TproxyFilter(refused, c, x, f, held) == held + TproxyBack(refused, c, x, f)
    ensures forall r | r in TproxyBack(refused, c, x, f) :: IsQuicReject(r) || IsLoopReject(r)
  {
    hide IsQuicReject, IsLoopReject, QuicBack, LoopBack, WithQuic, WithReject;
    var quic := QuicBack(refused, c);
    QuicBehind(refused, c, held);
    if c.mode != Enhance {
      LoopBehind(refused, x, f, c.tproxyPort, held + quic);
      assert held + quic + LoopBack(refused, x, f, c.tproxyPort) == held + (quic + LoopBack(refused, x, f, c.tproxyPort));
    } else {
      assert quic + [] == quic;
    }
  }

  /** What a setup appends there. */
  function RejectBack(refused: set<Rule>, c: Config, k: Capabilities, x: Context, f: Family): seq<Rule> {
    (if StartsRedirect(c, k, f) then LoopBack(refused, x, f, c.redirPort) else [])
      + if StartsTproxy(c, k, f) then TproxyBack(refused, c, x, f) else []
  }

  lemma OneStart(c: Config, k: Capabilities, f: Family)
    ensures StartsRedirect(c, k, f) && StartsTproxy(c, k, f) ==> c.mode == Enhance
  {
  }

  lemma OwnRejects(r: Rule)
    requires IsQuicReject(r) || IsLoopReject(r)
    ensures r.target == Reject
  {
  }

  lemma RejectBackRejects(refused: set<Rule>, c: Config, k: Capabilities, x: Context, f: Family)
    ensures forall r | r in RejectBack(refused, c, k, x, f) :: r.target == Reject
  {
    hide StartsRedirect, StartsTproxy, LoopBack, TproxyBack, IsQuicReject, IsLoopReject;
    LoopBehind(refused, x, f, c.redirPort, []);
    TproxyBehind(refused, c, x, f, []);
    forall r | r in RejectBack(refused, c, k, x, f) ensures r.target == Reject {
      OwnRejects(r);
    }
  }

  lemma RedirectBehind(refused: set<Rule>, c: Config, k: Capabilities, x: Context, f: Family, was: seq<Rule>)
    requires Rejectless(was)
    ensures var one := if StartsRedirect(c, k, f) then was + LoopBack(refused, x, f, c.redirPort) else was;
      && one == (if StartsRedirect(c, k, f) then WithReject(refused, x, f, c.redirPort, was) else was)
      && (forall r | r in one :: !IsQuicReject(r)) && (!StartsRedirect(c, k, f) ==> forall r | r in one :: !IsLoopReject(r))
  {
    hide StartsRedirect, WithReject, LoopBack, IsQuicReject, IsLoopReject;
    LoopBehind(refused, x, f, c.redirPort, was);
  }

  lemma RejectsAre(refused: set<Rule>, c: Config, k: Capabilities, x: Context, f: Family, was: seq<Rule>)
    requires Rejectless(was)
    ensures RejectHooks(refused, c, k, x, f, was) == was + RejectBack(refused, c, k, x, f)
  {
    var redir, tproxy := LoopBack(refused, x, f, c.redirPort), TproxyBack(refused, c, x, f);
    OneStart(c, k, f);
    RedirectBehind(refused, c, k, x, f, was);
    hide StartsRedirect, StartsTproxy, WithReject, TproxyFilter, LoopBack, TproxyBack, IsQuicReject, IsLoopReject, Rejectless;
    Regroups(was, redir, tproxy);
    if StartsRedirect(c, k, f) {
      if StartsTproxy(c, k, f) {
        TproxyBehind(refused, c, x, f, was + redir);
      }
    } else if StartsTproxy(c, k, f) {
      TproxyBehind(refused, c, x, f, was);
    }
  }

  lemma Regroups(was: seq<Rule>, a: seq<Rule>, b: seq<Rule>)
    ensures was + a + b == was + (a + b) && was + a == was + (a + []) && was + b == was + ([] + b) && was == was + ([] + [])
  {
  }

  lemma LoopMatches(env: Env, refused: set<Rule>, x: Context, f: Family, port: nat, p: Packet)
    ensures (exists r | r in LoopBack(refused, x, f, port) :: Matches(env, r, p)) <==> Intent.LoopRejected(refused, x, f, port, p)
  {
    var base := Rule(Reject, proto := Is(Tcp), dst := Some(LoopbackHost(f)), dport := Port(port));
    var a, b, e := base.(uid := Some(x.boxUid), gid := Some(x.boxGid)), base.(uid := Some(x.boxUid)), base.(gid := Some(x.boxGid));
    assert LoopbackRejects(x, f, port) == [a, b, e] && [a, b, e][1..] == [b, e] && [b, e][1..] == [e] && [e][1..] == [];
    hide InNet;
    var at := p.proto == Tcp && p.dport == port && InNet(LoopbackHost(f), p.dst);
    assert Matches(env, a, p) == (at && p.uid == x.boxUid && p.gid == x.boxGid);
    assert Matches(env, b, p) == (at && p.uid == x.boxUid) && Matches(env, e, p) == (at && p.gid == x.boxGid);
    hide Matches, LoopbackRejects;
    assert Variant(refused, [e]) == if e !in refused then [e] else [];
    assert Variant(refused, [b, e]) == if b !in refused then [b] else Variant(refused, [e]);
    var taken := if a !in refused then [a] else if b !in refused then [b] else if e !in refused then [e] else [];
    assert Variant(refused, [a, b, e]) == taken;
    if taken != [] {
      assert taken[0] in taken && forall r :: r in taken ==> r == taken[0];
    }
  }

  lemma QuicMatches(env: Env, refused: set<Rule>, c: Config, k: Capabilities, f: Family, p: Packet)
    ensures (StartsTproxy(c, k, f) && exists r | r in QuicBack(refused, c) :: Matches(env, r, p)) <==> Intent.QuicRejected(refused, c, k, f, p)
  {
    var a, b := QuicReject(443), QuicReject(80);
    StartsAgree(c, k, f);
    assert Matches(env, a, p) == (p.proto == Udp && p.dport == 443) && Matches(env, b, p) == (p.proto == Udp && p.dport == 80);
    assert a == Rule(Reject, proto := Is(Udp), dport := Port(443)) && b == Rule(Reject, proto := Is(Udp), dport := Port(80));
    hide Matches, StartsTproxy, Intent.Tproxying, QuicReject;
    assert a in QuicBack(refused, c) <==> c.quicDisabled && c.proxyUdp && (a !in refused || (a == b && b !in refused));
    assert b in QuicBack(refused, c) <==> c.quicDisabled && c.proxyUdp && (b !in refused || (a == b && a !in refused));
    assert forall r :: r in QuicBack(refused, c) ==> r == a || r == b;
  }

  lemma RejectedMatches(env: Env, refused: set<Rule>, c: Config, k: Capabilities, x: Context, f: Family, p: Packet)
    ensures (exists r | r in RejectBack(refused, c, k, x, f) :: Matches(env, r, p)) <==> Intent.RejectedOut(refused, c, k, x, f, p)
  {
    var redir, tproxy, quic := LoopBack(refused, x, f, c.redirPort), LoopBack(refused, x, f, c.tproxyPort), QuicBack(refused, c);
    LoopMatches(env, refused, x, f, c.redirPort, p);
    LoopMatches(env, refused, x, f, c.tproxyPort, p);
    QuicMatches(env, refused, c, k, f, p);
    StartsAgree(c, k, f);
    hide LoopBack, QuicBack, Matches, StartsRedirect, StartsTproxy, Intent.LoopRejected, Intent.QuicRejected, Intent.Redirecting, Intent.Tproxying;
    assert TproxyBack(refused, c, x, f) == quic + if c.mode != Enhance then tproxy else [];
    hide TproxyBack;
    assert forall r :: r in RejectBack(refused, c, k, x, f) <==>
      (StartsRedirect(c, k, f) && r in redir) || (StartsTproxy(c, k, f) && (r in quic || (c.mode != Enhance && r in tproxy)));
    hide RejectBack;
  }

  lemma RejectBackMeans(env: Env, chains: Chains, d: nat, refused: set<Rule>, c: Config, k: Capabilities, x: Context, f: Family,
                        was: seq<Rule>, p: Packet)
    requires forall r | r in RejectBack(refused, c, k, x, f) :: r.target == Reject
    ensures var o := Traverse(env, chains, d, was, p);
      Traverse(env, chains, d, was + RejectBack(refused, c, k, x, f), p)
        == if o.Fell? && Intent.RejectedOut(refused, c, k, x, f, o.p) then Refused else o
  {
    hide RejectBack, Intent.RejectedOut, Matches;
    TraverseAppend(env, chains, d, was, RejectBack(refused, c, k, x, f), p);
    var o := Traverse(env, chains, d, was, p);
    if o.Fell? {
      TraverseRejects(env, chains, d, RejectBack(refused, c, k, x, f), o.p);
      RejectedMatches(env, refused, c, k, x, f, o.p);
    }
  }

  lemma FilterBuiltin(ch: string)
    requires ch == "OUTPUT" || ch == "FORWARD"
    ensures !IsBoxCustomChain(ch)
  {
    assert IsBuiltin(ch);
    BuiltinsAreNotCustom(ch);
    hide IsBoxCustomChain;
  }

  /** A packet of the host that the rules of others let go at OUTPUT of filter is
      rejected exactly as intended. */
  lemma RejectArrival(refused: set<Rule>, w: World, c: Config, k: Capabilities, x: Context, f: Family, buffered: bool,
                      env: Env, d: nat, p: Packet)
    requires Reported(refused, w, c, k, x, f, buffered) && c.mode in {RedirectOnly, Mixed, TproxyOnly, Enhance}
    requires HasChain(w, f, Filter, "OUTPUT") && Bare(w, f) && Rejectless(w[f][Filter]["OUTPUT"])
    ensures var v := Behind(refused, w, c, k, x, f, buffered);
      && HasChain(v, f, Filter, "OUTPUT")
      && var o := Traverse(env, v[f][Filter], d, w[f][Filter]["OUTPUT"], p);
         Traverse(env, v[f][Filter], d, v[f][Filter]["OUTPUT"], p)
           == if o.Fell? && Intent.RejectedOut(refused, c, k, x, f, o.p) then Refused else o
  {
    var was := w[f][Filter]["OUTPUT"];
    hide *;
    ModesAgree(c, k, f);
    FilterBuiltin("OUTPUT");
    RejectsPut(refused, c, k, x, f, was);
    FrontHeld(refused, w, c, k, x, f, buffered, Filter, "OUTPUT", RejectHooks(refused, c, k, x, f, was));
    RejectsAre(refused, c, k, x, f, was);
    RejectBackRejects(refused, c, k, x, f);
    RejectBackMeans(env, ChainsAfter(refused, w, f, Filter, ModeSetup(c, k, x, f)), d, refused, c, k, x, f, was, p);
  }

  // ----- forwarding -----

  lemma AcceptFront(env: Env, chains: Chains, d: nat, refused: set<Rule>, r: Rule, held: seq<Rule>, p: Packet)
    requires r.target == Accept && r !in held
    ensures Traverse(env, chains, d, Fronting(refused, r, held), p)
         == if r !in refused && Matches(env, r, p) then Accepted(p) else Traverse(env, chains, d, held, p)
  {
    var rules := [r] + held;
    assert rules[0] == r && rules[1..] == held;
  }

  /** Neither rule for the TUN device is in place. */
  predicate Forwardless(c: Config, rules: seq<Rule>) {
    Rule(Accept, inIf := Some(c.tunDevice)) !in rules && Rule(Accept, outIf := Some(c.tunDevice)) !in rules
  }

  lemma ForwardMeets(env: Env, chains: Chains, d: nat, refused: set<Rule>, c: Config, was: seq<Rule>, p: Packet)
    requires Forwardless(c, was)
    ensures Traverse(env, chains, d, ForwardHooks(refused, c, was), p)
         == if Intent.ForwardAccepted(refused, c, p) then Accepted(p) else Traverse(env, chains, d, was, p)
  {
    var a, b := Rule(Accept, inIf := Some(c.tunDevice)), Rule(Accept, outIf := Some(c.tunDevice));
    assert ForwardRules(c) == [a, b] && a != b;
    assert Matches(env, a, p) == IfMatches(c.tunDevice, p.inIf) && Matches(env, b, p) == IfMatches(c.tunDevice, p.outIf);
    hide IfMatches, Matches;
    AcceptFront(env, chains, d, refused, a, was, p);
    AcceptFront(env, chains, d, refused, b, Fronting(refused, a, was), p);
  }

  /** In the modes with a TUN device, packets from it and to it are let pass at FORWARD of
      filter, and all others meet the rules that were there. */
  lemma ForwardArrival(refused: set<Rule>, w: World, c: Config, k: Capabilities, x: Context, f: Family, buffered: bool,
                       env: Env, d: nat, p: Packet)
    requires Reported(refused, w, c, k, x, f, buffered) && (c.mode == Mixed || c.mode == Tun)
    requires HasChain(w, f, Filter, "FORWARD") && Bare(w, f) && Forwardless(c, w[f][Filter]["FORWARD"])
    ensures var v := Behind(refused, w, c, k, x, f, buffered);
      && HasChain(v, f, Filter, "FORWARD")
      && Traverse(env, v[f][Filter], d, v[f][Filter]["FORWARD"], p)
         == if Intent.ForwardAccepted(refused, c, p) then Accepted(p)
            else Traverse(env, v[f][Filter], d, w[f][Filter]["FORWARD"], p)
  {
    var was := w[f][Filter]["FORWARD"];
    hide *;
    FilterBuiltin("FORWARD");
    ForwardPut(refused, c, k, x, f, was);
    FrontHeld(refused, w, c, k, x, f, buffered, Filter, "FORWARD", ForwardHooks(refused, c, was));
    ForwardMeets(env, ChainsAfter(refused, w, f, Filter, ModeSetup(c, k, x, f)), d, refused, c, was, p);
  }

  // ----- on empty tables -----

  lemma EmptyHolds(f: Family, t: TableName, ch: string)
    requires ch in {"PREROUTING", "OUTPUT", "FORWARD"}
    ensures HasChain(EmptyWorld(), f, t, ch) && EmptyWorld()[f][t][ch] == [] && Bare(EmptyWorld(), f)
  {
    EmptyHas(f, t);
    forall u, b | (u, b) in HookPlaces() && HasChain(EmptyWorld(), f, u, b) ensures Jumpless(EmptyWorld()[f][u][b]) {
      EmptyHas(f, u);
    }
  }

  /** A packet for which no rule is left. */
  function Closing(fate: Intent.Fate): Outcome { match fate case Ends(o) => o case GoesOn(p) => Fell(p) }

  lemma ArrivesNowhere(env: Env, chains: Chains, d: nat, fate: Intent.Fate)
    ensures Arrives(env, chains, d, fate, []) == Closing(fate)
  {
  }

  /** From empty tables, whose kernel refuses nothing, every configuration with redirection
      or TPROXY does to every packet at nat what is intended, and nothing else. */
  lemma EmptyNat(c: Config, k: Capabilities, x: Context, f: Family, buffered: bool, ch: string, env: Env, d: nat, p: Packet)
    requires c.mode in {RedirectOnly, Mixed, TproxyOnly, Enhance} && IsHook(ch) && d > 1 && Intent.AppsAnswer(env, c, x, f, p)
    ensures var v := Behind({}, EmptyWorld(), c, k, x, f, buffered);
      HasChain(v, f, Nat, ch) && Traverse(env, v[f][Nat], d, v[f][Nat][ch], p) == Closing(NatFate(env, {}, c, k, x, f, ch, p))
  {
    assert ch in {"PREROUTING", "OUTPUT", "FORWARD"} && Pingless([]);
    hide *;
    EmptyHolds(f, Nat, ch);
    EmptyInstalls(c, k, x, f, buffered);
    NatArrival({}, EmptyWorld(), c, k, x, f, buffered, ch, env, d, p);
    ArrivesNowhere(env, Behind({}, EmptyWorld(), c, k, x, f, buffered)[f][Nat], d, NatFate(env, {}, c, k, x, f, ch, p));
  }

  // ----- delivery -----

  lemma MarkBitsAre(m: bv32)
    requires m & 0x3000000 == 0
    ensures ((m & !0x3000000) ^ 0x3000000) & 0x3000000 == 0x3000000
    ensures ((m & !0x2000000) ^ 0x2000000) & 0x3000000 == 0x2000000
  {
  }

  lemma ProxyBit(m: bv32)
    ensures ((m & !0x1000000) ^ 0x1000000) & 0x1000000 == 0x1000000
  {
  }

  /** Only the route mark has both bits. */
  lemma RoutedBits(p: Packet)
    requires p.mark & 0x3000000 == 0
    ensures Intent.Routed(p).mark & 0x3000000 == 0x3000000 && Intent.Bypassing(p).mark & 0x3000000 != 0x3000000
    ensures p.mark & 0x3000000 != 0x3000000 && Intent.Routed(p) != Intent.Bypassing(p) && Intent.Routed(p) != p
  {
    MarkBitsAre(p.mark);
  }

  lemma ThreeMarks(env: Env, refused: set<Rule>, c: Config, k: Capabilities, x: Context, f: Family, ch: string, p: Packet)
    ensures TunFate(env, refused, c, k, x, f, ch, p) in {p, Intent.Routed(p), Intent.Bypassing(p)}
  {
    hide Intent.Routed, Intent.Bypassing, Intent.InList, Intent.ToCn, Intent.OnInterface, Intent.Forced, Intent.ByOwner;
    hide Intent.QueryRouted, InNet, IfMatches;
  }

  /** Behind the chains and the routes of a TUN setup, a packet reaches the device exactly
      if it is meant to, and neither main nor a rule of a lower preference has its route. */
  lemma TunDelivery(env: Env, refused: set<Rule>, c: Config, k: Capabilities, x: Context, f: Family, ch: string, p: Packet,
                    commands: set<PolicyRouting.IpCmd>, s: PolicyRouting.Routing)
    requires p.mark & 0x3000000 == 0
    requires PolicyRouting.Free(s, {98, 99}, "2025") && PolicyRouting.ApplyTun(commands, s, c.tunDevice).ok
    ensures var v, q := PolicyRouting.ApplyTun(commands, s, c.tunDevice).state, TunFate(env, refused, c, k, x, f, ch, p);
      && PolicyRouting.Routes(v, "2025") == [PolicyRouting.Route(false, None, c.tunDevice)]
      && (PolicyRouting.Found(v, v.rules, q.mark, p.dst) == Some("2025")
          <==> q == Intent.Routed(p) && !PolicyRouting.SettledBelow(s, s.rules, 98, q.mark, p.dst)
               && !PolicyRouting.HasRoute(s, "main", p.dst))
  {
    var q := TunFate(env, refused, c, k, x, f, ch, p);
    hide *;
    ThreeMarks(env, refused, c, k, x, f, ch, p);
    RoutedBits(p);
    PolicyRouting.TunDelivers(commands, s, c.tunDevice, q.mark, p.dst);
  }

  /** A packet of the host marked for the proxy is delivered to this host by the routes of
      a TPROXY setup, unless a rule of a lower preference has its route. */
  lemma ProxyDelivery(p: Packet, commands: set<PolicyRouting.IpCmd>, s: PolicyRouting.Routing)
    requires PolicyRouting.Free(s, {100}, "2024") && PolicyRouting.SetupTproxy(commands, s).ok
    ensures var v, m := PolicyRouting.SetupTproxy(commands, s).state, Intent.WithBit24(p).mark;
      && PolicyRouting.Routes(v, "2024") == [PolicyRouting.Route(true, None, "lo")]
      && (PolicyRouting.Found(v, v.rules, m, p.dst) == Some("2024") <==> !PolicyRouting.SettledBelow(s, s.rules, 100, m, p.dst))
  {
    ProxyBit(p.mark);
    var m := Intent.WithBit24(p).mark;
    assert m & 0x1000000 == 0x1000000;
    hide *;
    PolicyRouting.TproxyDelivers(commands, s, m, p.dst);
  }
}
