/**
 Whole runs of apply, clear and renew.  The snapshot of the last successful apply
 decides what the next cleanup takes away.  As long as a failed apply finds no
 snapshot, or one whose cleanup covers its own mode, whatever chains and jumps of
 the compiler are installed are covered by what clear would select.
 */
module Lifecycle {
  import opened Bytes
  import opened Netfilter
  import opened Batching
  import opened RuleConfig
  import opened RuleScripts
  import opened ChainContents
  import opened SessionTeardown
  import opened Teardown
  import opened TeardownModes
  import opened Foreign

  // ----- which cleanup -----

  datatype CleanupMode = CleanNothing | CleanMode(mode: NetworkMode) | CleanEverything

  /** What a successful apply saves; an unreadable mode is none. */
  datatype Snapshot = Snapshot(
    mode: Option<NetworkMode>,
    coreName: string,
    ipv6: bool,
    dnsMode: DnsMode,
    tproxyPort: nat,
    redirPort: nat,
    tunDevice: string)

  function SnapshotOf(c: Config): Snapshot {
    Snapshot(Some(c.mode), c.coreName, c.ipv6, c.dnsMode, c.tproxyPort, c.redirPort, c.tunDevice)
  }

  function ModeForClear(s: Option<Snapshot>): CleanupMode {
    if s.Some? && s.value.mode.Some? then CleanMode(s.value.mode.value) else CleanEverything
  }

  /** `seen` says whether a scan of the tables found rules of the compiler. */
  function ModeForApply(s: Option<Snapshot>, c: Config, seen: bool): CleanupMode {
    match s
    case None => if seen then CleanEverything else CleanNothing
    case Some(q) => if q == SnapshotOf(c) then CleanMode(c.mode) else CleanEverything
  }

  function CleanupScript(m: CleanupMode, c: Config, k: Capabilities, x: Context, f: Family): seq<Step> {
    match m
    case CleanNothing => []
    case CleanMode(mode) => ModeStop(c.(mode := mode), k, x, f)
    case CleanEverything => StopAll(c, k, x, f)
  }

  // ----- what a cleanup takes away for certain -----

  function RedirectChains(k: Capabilities, f: Family): seq<Step> {
    ExternalCleanup(f, Nat) + LocalCleanup(f, Nat) + Cleanups(f, Nat, RD_CHAINS) + DnsNatCleanup(k, f)
  }

  function TproxyChains(k: Capabilities, f: Family): seq<Step> {
    ExternalCleanup(f, Mangle) + LocalCleanup(f, Mangle) + Cleanups(f, Mangle, TP_CHAINS) + DivertCleanup(f) + DnsNatCleanup(k, f)
  }

  /** The part of a cleanup that deletes chains and jumps; unlike the rest it does
      not depend on the settings of the day. */
  function ChainScript(m: CleanupMode, k: Capabilities, f: Family): seq<Step> {
    match m
    case CleanNothing => []
    case CleanMode(mode) => (
      match mode
      case RedirectOnly => RedirectChains(k, f)
      case TproxyOnly => TproxyChains(k, f)
      case Mixed => RedirectChains(k, f)
      case Enhance => RedirectChains(k, f) + TproxyChains(k, f)
      case Tun => StopTunTables(f)
      case Ebpf => [])
    case CleanEverything => RedirectChains(k, f) + TproxyChains(k, f) + StopTunTables(f)
  }

  function Cover(m: CleanupMode, k: Capabilities, f: Family): Foot { Footprint(ChainScript(m, k, f)) }

  /** Steps that delete a chain or a jump. */
  predicate Relevant(s: Step) { s.op.CleanupChain? || (s.op.DelRule? && s.op.rule.target.Jump?) }

  ghost predicate SameRelevant(a: seq<Step>, b: seq<Step>) {
    forall s :: Relevant(s) ==> (s in a <==> s in b)
  }

  lemma RejectsIrrelevant(x: Context, f: Family, port: nat)
    ensures forall s :: s in LoopbackRejectCleanup(x, f, port) ==> !Relevant(s)
  {
  }

  lemma RestIrrelevant(c: Config, f: Family)
    ensures forall s :: s in QuicCleanup(f) + FakeIpIcmpCleanup(c, f) + ForwardCleanup(c, f) + LegacyCleanup(f) ==> !Relevant(s)
  {
  }

  lemma RedirectRelevant(c: Config, k: Capabilities, x: Context, f: Family)
    ensures SameRelevant(StopRedirect(c, k, x, f), RedirectChains(k, f))
  {
    RejectsIrrelevant(x, f, c.redirPort);
    hide LoopbackRejectCleanup, ExternalCleanup, LocalCleanup, Cleanups, DnsNatCleanup, Relevant;
  }

  lemma TproxyRelevant(c: Config, k: Capabilities, x: Context, f: Family)
    ensures SameRelevant(StopTproxy(c, k, x, f), TproxyChains(k, f))
  {
    RejectsIrrelevant(x, f, c.tproxyPort);
    RestIrrelevant(c, f);
    SyncsIrrelevant(f);
    hide LoopbackRejectCleanup, ExternalCleanup, LocalCleanup, Cleanups, DnsNatCleanup, DivertCleanup, QuicCleanup, FakeIpIcmpCleanup;
    hide ForwardCleanup, LegacyCleanup, Relevant, IpCleanup;
  }

  lemma SyncsIrrelevant(f: Family)
    ensures forall s :: s in IpCleanup(f) ==> !Relevant(s)
  {
  }

  lemma RelevantBoth(a: seq<Step>, b: seq<Step>, p: seq<Step>, q: seq<Step>)
    requires SameRelevant(a, p) && SameRelevant(b, q)
    ensures SameRelevant(a + b, p + q)
  {
    hide Relevant;
  }

  /** Irrelevant steps behind a script do not matter. */
  lemma RelevantTail(a: seq<Step>, p: seq<Step>, tail: seq<Step>)
    requires SameRelevant(a, p) && forall s :: s in tail ==> !Relevant(s)
    ensures SameRelevant(a + tail, p)
  {
    hide Relevant;
  }

  lemma TunRelevant(f: Family)
    ensures SameRelevant(StopTunBypass(f), StopTunTables(f)) && SameRelevant([], [])
  {
    SyncsIrrelevant(f);
    hide IpCleanup, StopTunTables;
  }

  lemma CleanupRelevant(m: CleanupMode, c: Config, k: Capabilities, x: Context, f: Family)
    ensures SameRelevant(CleanupScript(m, c, k, x, f), ChainScript(m, k, f))
  {
    hide StopRedirect, StopTproxy, StopTunBypass, StopTunTables, ForwardCleanup, LegacyCleanup, RedirectChains, TproxyChains, Relevant;
    hide QuicCleanup, FakeIpIcmpCleanup, SameRelevant;
    var d := if m.CleanMode? then c.(mode := m.mode) else c;
    var r, t, u := StopRedirect(d, k, x, f), StopTproxy(d, k, x, f), StopTunBypass(f);
    var p, q, v := RedirectChains(k, f), TproxyChains(k, f), StopTunTables(f);
    var forwarding, legacy := ForwardCleanup(d, f), LegacyCleanup(f);
    RedirectRelevant(d, k, x, f);
    TproxyRelevant(d, k, x, f);
    RestIrrelevant(d, f);
    TunRelevant(f);
    RelevantTail(r, p, legacy);
    RelevantTail(t, q, legacy);
    RelevantTail(r, p, forwarding);
    RelevantTail(r + forwarding, p, legacy);
    RelevantBoth(r, t, p, q);
    RelevantTail(r + t, p + q, legacy);
    RelevantTail(u, v, forwarding);
    RelevantTail(u + forwarding, v, legacy);
    RelevantBoth(r + t, u, p + q, v);
    RelevantTail(r + t + u, p + q + v, forwarding);
    RelevantTail(r + t + u + forwarding, p + q + v, legacy);
  }

  lemma CleanupShaped(m: CleanupMode, c: Config, k: Capabilities, x: Context, f: Family)
    ensures ShapedSteps(f, CleanupScript(m, c, k, x, f))
  {
    hide StopRedirect, StopTproxy, StopTunBypass, ForwardCleanup, LegacyCleanup, ShapedStep;
    StopsAreShaped(if m.CleanMode? then c.(mode := m.mode) else c, k, x, f);
  }

  lemma FootprintNames(steps: seq<Step>, s: Step)
    requires s in steps
    ensures s.op.CleanupChain? ==> (s.table, s.op.chain) in Footprint(steps).live
    ensures s.op.DelRule? ==> (s.table, s.op.chain, s.op.rule) in Footprint(steps).hooks
  {
  }

  /** Steps of a cleanup are named by its cover, or plain. */
  lemma CleanupNamed(m: CleanupMode, c: Config, k: Capabilities, x: Context, f: Family, s: Step)
    requires s in CleanupScript(m, c, k, x, f)
    ensures s.family == f && (s.op.DelRule? || s.op.CleanupChain? || s.op.Sync?)
    ensures Relevant(s) || Plain(s) || s.op.Sync?
    ensures s.op.CleanupChain? ==> (s.table, s.op.chain) in Cover(m, k, f).live
    ensures s.op.DelRule? && Relevant(s) ==> (s.table, s.op.chain, s.op.rule) in Cover(m, k, f).hooks
  {
    CleanupShaped(m, c, k, x, f);
    CleanupRelevant(m, c, k, x, f);
    assert ShapedStep(f, s);
    hide CleanupScript, ChainScript, ShapedSteps, Footprint, IsBuiltin, IsBoxCustomChain, Parents;
    if Relevant(s) {
      FootprintNames(ChainScript(m, k, f), s);
    }
  }

  /** And everything the cover names is a step of the cleanup. */
  lemma CoverCleaned(m: CleanupMode, c: Config, k: Capabilities, x: Context, f: Family)
    ensures var steps := CleanupScript(m, c, k, x, f);
      && (forall p :: p in Cover(m, k, f).live ==> exists s :: s in steps && s.op.CleanupChain? && (s.table, s.op.chain) == p)
      && (forall h :: h in Cover(m, k, f).hooks ==>
            exists s :: s in steps && s.op.DelRule? && (s.table, s.op.chain, s.op.rule) == h)
  {
    ChainScriptRelevant(m, c, k, x, f);
    CleanupRelevant(m, c, k, x, f);
    hide CleanupScript, ChainScript, Relevant;
    var script := ChainScript(m, k, f);
    forall p | p in Cover(m, k, f).live
      ensures exists s :: s in CleanupScript(m, c, k, x, f) && s.op.CleanupChain? && (s.table, s.op.chain) == p
    {
      var s :| s in script && s.op.CleanupChain? && (s.table, s.op.chain) == p;
      assert s in CleanupScript(m, c, k, x, f);
    }
    forall h | h in Cover(m, k, f).hooks
      ensures exists s :: s in CleanupScript(m, c, k, x, f) && s.op.DelRule? && (s.table, s.op.chain, s.op.rule) == h
    {
      var s :| s in script && s.op.DelRule? && (s.table, s.op.chain, s.op.rule) == h;
      assert s in CleanupScript(m, c, k, x, f);
    }
  }

  lemma ChainScriptRelevant(m: CleanupMode, c: Config, k: Capabilities, x: Context, f: Family)
    ensures forall s :: s in ChainScript(m, k, f) ==> Relevant(s) && ShapedStep(f, s)
  {
    hide ExternalCleanup, LocalCleanup, Cleanups, DnsNatCleanup, DivertCleanup, StopTunTables, Relevant, ShapedStep;
    PerfChainsAreOrphans();
    ExternalLocalShaped(f, Nat);
    ExternalLocalShaped(f, Mangle);
    CleanupsShaped(f, Nat, RD_CHAINS);
    CleanupsShaped(f, Mangle, TP_CHAINS);
    DnsNatShaped(k, f);
    DivertShaped(f);
    RestShaped(c, f);
    PartsRelevant(k, f);
  }

  lemma DivertShaped(f: Family)
    ensures ShapedSteps(f, DivertCleanup(f))
  {
  }

  lemma PartsRelevant(k: Capabilities, f: Family)
    ensures forall s :: s in ExternalCleanup(f, Nat) + LocalCleanup(f, Nat) + Cleanups(f, Nat, RD_CHAINS) ==> Relevant(s)
    ensures forall s :: s in ExternalCleanup(f, Mangle) + LocalCleanup(f, Mangle) + Cleanups(f, Mangle, TP_CHAINS) ==> Relevant(s)
    ensures forall s :: s in DivertCleanup(f) ==> Relevant(s)
    ensures forall s :: s in DnsNatCleanup(k, f) ==> Relevant(s)
    ensures forall s :: s in StopTunTables(f) ==> Relevant(s)
  {
    hide HijackPre, HijackOut, ForwardPre, ForwardOut, TunPreChain, TunOutChain, LocalIpChain;
  }

  // ----- what is installed, and who answers for it -----

  /** The tables of a family are bare tables plus part of a footprint. */
  ghost predicate Owned(w: World, f: Family, foot: Foot) {
    exists base :: OwnedOver(base, w, f, foot)
  }

  ghost predicate OwnedOver(base: World, w: World, f: Family, foot: Foot) {
    BareWorld(base, f) && InsideWorld(base, w, f, foot)
  }

  lemma CoverJumps(m: CleanupMode, c: Config, k: Capabilities, x: Context, f: Family)
    ensures JumpsOnly(Cover(m, k, f)) && Shaped(Cover(m, k, f))
  {
    ChainScriptRelevant(m, c, k, x, f);
    ParentsCustom();
    var script := ChainScript(m, k, f);
    hide ChainScript, Parents, IsBuiltin, IsBoxCustomChain;
    forall h | h in Cover(m, k, f).hooks
      ensures h.2.target.Jump? && IsBuiltin(h.1) && (h.1, h.2) in Parents(h.2.target.chain) && IsBoxCustomChain(h.2.target.chain)
    {
      var s :| s in script && s.op.DelRule? && (s.table, s.op.chain, s.op.rule) == h;
      assert ShapedStep(f, s) && Relevant(s);
    }
    forall p | p in Cover(m, k, f).live ensures IsBoxCustomChain(p.1) {
      var s :| s in script && s.op.CleanupChain? && (s.table, s.op.chain) == p;
      assert ShapedStep(f, s);
    }
  }

  /** Only the compiler's chains have parents. */
  lemma ParentsCustom()
    ensures forall c, p :: p in Parents(c) ==> IsBoxCustomChain(c)
  {
  }

  lemma BarePristine(w: World, f: Family, foot: Foot)
    requires BareWorld(w, f) && JumpsOnly(foot)
    ensures PristineWorld(w, f, foot)
  {
    hide IsBoxCustomChain, IsBuiltin;
  }

  lemma BareOwned(w: World, f: Family, foot: Foot)
    requires BareWorld(w, f) && JumpsOnly(foot)
    ensures Owned(w, f, foot)
  {
    BarePristine(w, f, foot);
    InsideWorldStart(w, f, foot);
    assert OwnedOver(w, w, f, foot);
  }

  /** The same of the state of an open session, which has changed the tables of its family only. */
  ghost predicate HeldOwned(w0: World, h: Held, f: Family, foot: Foot) {
    exists base :: HeldOwnedOver(base, w0, h, f, foot)
  }

  ghost predicate HeldOwnedOver(base: World, w0: World, h: Held, f: Family, foot: Foot) {
    BareWorld(base, f) && HeldInside(base, h, f, foot) && f in w0 && f in h.kernel && h.kernel == w0[f := h.kernel[f]]
  }

  lemma OnlyKept(base: World, next: World, w0: World, h: Held, g: Held, f: Family, foot: Foot)
    requires HeldOwnedOver(base, w0, h, f, foot) && Rebased(base, next, g, f, foot)
    ensures HeldOwnedOver(next, w0, g, f, foot)
  {
    hide Bare, Inside, Recordable;
    var w, v := h.kernel, g.kernel;
    assert w == base[f := w[f]] && v == next[f := v[f]];
    assert base[f := next[f]][f := v[f]] == base[f := v[f]];
    assert w0[f := w[f]][f := v[f]] == w0[f := v[f]] && base[f := w[f]][f := v[f]] == base[f := v[f]];
  }

  /** One operation, permitted by the footprint or plain. */
  lemma OwnedStep(refused: set<Rule>, w0: World, h: Held, f: Family, foot: Foot, s: Step)
    requires HeldOwned(w0, h, f, foot) && JumpsOnly(foot) && s.family == f && (Permits(foot, s) || Plain(s))
    ensures HeldOwned(w0, PerformOf(refused, h, s).held, f, foot)
  {
    var base :| HeldOwnedOver(base, w0, h, f, foot);
    var next, g := base, PerformOf(refused, h, s).held;
    hide BareWorld, HeldInside, PerformOf, Permits, Plain, JumpsOnly, Rebased;
    if Permits(foot, s) {
      StepHeld(refused, base, h, f, foot, s);
      RebasedNowhere(base, g, f, foot);
    } else {
      next := PlainHeld(refused, base, h, f, foot, s);
    }
    OnlyKept(base, next, w0, h, g, f, foot);
  }

  predicate Answerable(f: Family, foot: Foot, steps: seq<Step>) {
    forall s | s in steps :: s.family == f && (Permits(foot, s) || Plain(s))
  }

  lemma {:induction false} OwnedFollowing(w0: World, h: Held, f: Family, foot: Foot, steps: seq<Step>, luck: seq<Luck>)
    requires HeldOwned(w0, h, f, foot) && JumpsOnly(foot) && |luck| == |steps| && Answerable(f, foot, steps)
    ensures HeldOwned(w0, Following(h, steps, luck), f, foot)
    decreases |steps|
  {
    hide HeldOwned, PerformOf, Permits, Plain, JumpsOnly;
    if steps != [] {
      var s := steps[0];
      assert s in steps && forall q :: q in steps[1..] ==> q in steps;
      var next := match luck[0] case Skipped => h case Tried(refused) => PerformOf(refused, h, s).held;
      if luck[0].Tried? {
        OwnedStep(luck[0].refused, w0, h, f, foot, s);
      }
      OwnedFollowing(w0, next, f, foot, steps[1..], luck[1..]);
    }
  }

  lemma OwnedOpened(w: World, f: Family, buffered: bool, foot: Foot)
    requires Owned(w, f, foot)
    ensures HeldOwned(w, Opened(w, f, buffered), f, foot)
  {
    hide Bare, Inside;
    var base :| OwnedOver(base, w, f, foot);
    OpenedHeld(base, w, f, buffered, foot);
    assert w[f := w[f]] == w;
    assert HeldOwnedOver(base, w, Opened(w, f, buffered), f, foot);
  }

  lemma OwnedEnd(refused: set<Rule>, w0: World, h: Held, f: Family, foot: Foot)
    requires HeldOwned(w0, h, f, foot)
    ensures var v := EndOf(refused, h).held.kernel; Owned(v, f, foot) && f in w0 && f in v && v == w0[f := v[f]]
  {
    var base :| HeldOwnedOver(base, w0, h, f, foot);
    var g := FlushOf(refused, h).held;
    hide FlushOf, Bare, Inside, Recordable;
    FlushInside(refused, base, h, f, foot);
    RebasedNowhere(base, g, f, foot);
    OnlyKept(base, base, w0, h, g, f, foot);
    assert OwnedOver(base, g.kernel, f, foot);
  }

  /** Whatever comes of a session of such operations, the footprint answers for it. */
  lemma OwnedAftermath(w: World, f: Family, foot: Foot, steps: seq<Step>, course: Course)
    requires Owned(w, f, foot) && JumpsOnly(foot) && |course.luck| == |steps| && Answerable(f, foot, steps)
    ensures var v := Aftermath(w, f, steps, course); Owned(v, f, foot) && f in w && f in v && v == w[f := v[f]]
  {
    hide HeldOwned, Owned, JumpsOnly, Answerable, Following, Opened, EndOf;
    OwnedOpened(w, f, course.buffered, foot);
    OwnedFollowing(w, Opened(w, f, course.buffered), f, foot, steps, course.luck);
    OwnedEnd(course.last, w, Following(Opened(w, f, course.buffered), steps, course.luck), f, foot);
  }

  // ----- a larger footprint -----

  lemma {:induction false} StrippedMore(x: seq<Rule>, c: string, hooks: set<(string, Rule)>, more: set<(string, Rule)>)
    requires hooks <= more && forall r :: r in x && (c, r) in more ==> (c, r) in hooks
    ensures Stripped(x, c, more) == Stripped(x, c, hooks)
  {
    if x != [] {
      assert forall r :: r in x[1..] ==> r in x;
      StrippedMore(x[1..], c, hooks, more);
    }
  }

  lemma InsideMore(a: Chains, b: Chains, live: set<string>, hooks: set<(string, Rule)>, live2: set<string>, hooks2: set<(string, Rule)>)
    requires Inside(a, b, live, hooks) && Pristine(a, live2, hooks2) && live <= live2 && hooks <= hooks2
    ensures Inside(a, b, live2, hooks2)
  {
    forall c | c in a ensures Stripped(b[c], c, hooks2) == a[c] {
      forall r | r in b[c] && (c, r) in hooks2 ensures (c, r) in hooks {
        if (c, r) !in hooks {
          StrippedMember(b[c], c, hooks, r);
        }
      }
      StrippedMore(b[c], c, hooks, hooks2);
    }
    forall c, r | c in a && (c, r) in hooks2 ensures AtMostOnce(b[c], r) {
      if (c, r) !in hooks {
        if r in b[c] {
          StrippedMember(b[c], c, hooks, r);
        }
        AbsentOnce(b[c], r);
      }
    }
  }

  lemma OwnedMore(w: World, f: Family, foot: Foot, more: Foot)
    requires Owned(w, f, foot) && JumpsOnly(more) && Within(foot, more)
    ensures Owned(w, f, more)
  {
    hide Inside, Pristine, Bare, JumpsOnly;
    var base :| OwnedOver(base, w, f, foot);
    BarePristine(base, f, more);
    forall t | t in base[f] ensures Inside(base[f][t], w[f][t], LiveIn(more, t), HooksIn(more, t)) {
      InsideMore(base[f][t], w[f][t], LiveIn(foot, t), HooksIn(foot, t), LiveIn(more, t), HooksIn(more, t));
    }
    assert OwnedOver(base, w, f, more);
  }

  // ----- a cleanup leaves nothing -----

  lemma {:induction false} CleanOwned(refused: set<Rule>, w: World, f: Family, foot: Foot, whole: Foot, steps: seq<Step>)
    requires Owned(w, f, foot) && JumpsOnly(whole) && Within(foot, whole) && CleanAll(foot, steps)
    requires forall s :: s in steps ==> Accounted(f, whole, s)
    ensures Owned(DirectRun(refused, w, steps), f, AfterAll(foot, steps)) && AllAccepted(refused, w, steps)
    decreases |steps|
  {
    hide Owned, Direct, Clean, JumpsOnly, CleanupAccepted, Accounted;
    if steps != [] {
      var s := steps[0];
      assert s in steps && Accounted(f, whole, s);
      CleanOwnedStep(refused, w, f, foot, whole, s);
      assert forall q :: q in steps[1..] ==> q in steps;
      AfterWithin(foot, whole, s);
      CleanOwned(refused, Direct(refused, w, f, s.table, s.op).world, f, After(foot, s), whole, steps[1..]);
    }
  }

  /** A step of a cleanup: a deletion the footprint names, or a plain one. */
  predicate Accounted(f: Family, whole: Foot, s: Step) {
    && s.family == f && (s.op.DelRule? || s.op.CleanupChain? || s.op.Sync?)
    && (s.op.CleanupChain? ==> (s.table, s.op.chain) in whole.live)
    && (s.op.DelRule? ==> Plain(s) || (s.table, s.op.chain, s.op.rule) in whole.hooks)
  }

  lemma AfterWithin(foot: Foot, whole: Foot, s: Step)
    requires Within(foot, whole) && Accounted(s.family, whole, s)
    ensures Within(After(foot, s), whole) && s.family == s.family
  {
  }

  lemma CleanOwnedStep(refused: set<Rule>, w: World, f: Family, foot: Foot, whole: Foot, s: Step)
    requires Owned(w, f, foot) && JumpsOnly(whole) && Within(foot, whole) && Clean(foot, s) && Accounted(f, whole, s)
    ensures s.family == f && Owned(Direct(refused, w, f, s.table, s.op).world, f, After(foot, s)) && CleanupAccepted(refused, w, s)
  {
    hide BareWorld, InsideWorld, Direct, Clean;
    var base :| OwnedOver(base, w, f, foot);
    var next := Direct(refused, w, f, s.table, s.op).world;
    if s.op.DelRule? && Plain(s) {
      LessJumps(foot, whole);
      PlainStep(refused, base, w, f, foot, s);
      BareStep(refused, base, f, s);
      assert After(foot, s) == foot;
      assert OwnedOver(Direct(refused, base, f, s.table, s.op).world, next, f, foot);
    } else {
      BarePristine(base, f, whole);
      CleanStep(refused, base, w, f, foot, whole, s);
      assert OwnedOver(base, next, f, After(foot, s));
    }
  }

  lemma LessJumps(foot: Foot, whole: Foot)
    requires JumpsOnly(whole) && Within(foot, whole)
    ensures JumpsOnly(foot)
  {
  }

  lemma NothingOwned(w: World, f: Family)
    requires Owned(w, f, Foot({}, {}))
    ensures BareWorld(w, f)
  {
    hide Bare, Inside;
    var base :| OwnedOver(base, w, f, Foot({}, {}));
    NothingLeftInWorld(base, w, f);
  }

  /** A cleanup of what its cover answers for leaves bare tables, and no chain
      deletion in it is refused. */
  lemma CleanupLeavesNone(refused: set<Rule>, w: World, m: CleanupMode, c: Config, k: Capabilities, x: Context, f: Family)
    requires Owned(w, f, Cover(m, k, f))
    ensures BareWorld(DirectRun(refused, w, CleanupScript(m, c, k, x, f)), f)
    ensures AllAccepted(refused, w, CleanupScript(m, c, k, x, f))
  {
    var foot, steps := Cover(m, k, f), CleanupScript(m, c, k, x, f);
    CoverJumps(m, c, k, x, f);
    ScriptIsClean(foot, m, c, k, x, f);
    CoverCleaned(m, c, k, x, f);
    hide Owned, Cover, CleanupScript, JumpsOnly, Shaped, BareWorld, CleanAll, AllAccepted, Relevant, Plain;
    forall s | s in steps ensures Accounted(f, foot, s) {
      CleanupNamed(m, c, k, x, f, s);
      RelevantDel(s);
    }
    assert Within(foot, foot);
    CleanOwned(refused, w, f, foot, foot, steps);
    AfterAllEmpty(foot, steps);
    NothingOwned(DirectRun(refused, w, steps), f);
  }

  lemma RelevantDel(s: Step)
    ensures s.op.CleanupChain? ==> Relevant(s)
  {
  }

  lemma ScriptIsClean(foot: Foot, m: CleanupMode, c: Config, k: Capabilities, x: Context, f: Family)
    requires Shaped(foot)
    ensures CleanAll(foot, CleanupScript(m, c, k, x, f))
  {
    StopsAreClean(foot, if m.CleanMode? then c.(mode := m.mode) else c, k, x, f);
    hide ModeStop, StopAll, Shaped;
  }

  // ----- an apply stays within its mode's cover -----

  lemma PermitsCover(foot: Foot, cover: Foot, s: Step)
    requires Permits(foot, s)
    requires forall p :: p in foot.live <==> p in cover.live
    requires forall h: Hook :: h.2.target.Jump? ==> (h in foot.hooks <==> h in cover.hooks)
    requires forall h :: h in foot.hooks ==> IsBuiltin(h.1)
    ensures Permits(cover, s) || Plain(s)
  {
    hide IsBuiltin, IsBoxCustomChain, Edge;
    var t := s.table;
    match s.op
    case EnsureAppend(c, r) => assert (t, c, r).2 == r && (t, c, r).1 == c;
    case EnsureInsert(c, r) => assert (t, c, r).2 == r && (t, c, r).1 == c;
    case EnsureJump(c, target) => assert (t, c, Rule(Jump(target))).2.target.Jump?;
    case DelRule(c, r) => assert (t, c, r).2 == r && (t, c, r).1 == c;
    case EnsureFirst(c, rules) =>
      if rules != [] {
        assert rules[0] in rules && (t, c, rules[0]) in foot.hooks && (t, c, rules[0]).1 == c;
      }
    case _ =>
  }

  lemma CoverOfStop(c: Config, k: Capabilities, x: Context, f: Family)
    ensures var foot, cover := Footprint(ModeStop(c, k, x, f)), Cover(CleanMode(c.mode), k, f);
      && (forall p :: p in foot.live <==> p in cover.live)
      && (forall h: Hook :: h.2.target.Jump? ==> (h in foot.hooks <==> h in cover.hooks))
      && (forall h :: h in foot.hooks ==> IsBuiltin(h.1))
  {
    var steps, script := ModeStop(c, k, x, f), ChainScript(CleanMode(c.mode), k, f);
    assert c.(mode := c.mode) == c && CleanupScript(CleanMode(c.mode), c, k, x, f) == steps;
    CleanupRelevant(CleanMode(c.mode), c, k, x, f);
    StopsAreShaped(c, k, x, f);
    hide ModeStop, ChainScript, IsBuiltin, IsBoxCustomChain, Parents;
    FootOfRelevant(steps, script);
    forall h | h in Footprint(steps).hooks ensures IsBuiltin(h.1) {
      var s :| s in steps && s.op.DelRule? && (s.table, s.op.chain, s.op.rule) == h;
      assert ShapedStep(f, s);
    }
  }

  lemma FootOfRelevant(a: seq<Step>, b: seq<Step>)
    requires SameRelevant(a, b)
    ensures forall p :: p in Footprint(a).live <==> p in Footprint(b).live
    ensures forall h: Hook :: h.2.target.Jump? ==> (h in Footprint(a).hooks <==> h in Footprint(b).hooks)
  {
    FootIn(a, b);
    FootIn(b, a);
  }

  lemma FootIn(a: seq<Step>, b: seq<Step>)
    requires SameRelevant(a, b)
    ensures forall p :: p in Footprint(a).live ==> p in Footprint(b).live
    ensures forall h: Hook :: h.2.target.Jump? && h in Footprint(a).hooks ==> h in Footprint(b).hooks
  {
    forall p | p in Footprint(a).live ensures p in Footprint(b).live {
      var s :| s in a && s.op.CleanupChain? && (s.table, s.op.chain) == p;
      assert Relevant(s) && s in b;
    }
    forall h: Hook | h.2.target.Jump? && h in Footprint(a).hooks ensures h in Footprint(b).hooks {
      var s :| s in a && s.op.DelRule? && (s.table, s.op.chain, s.op.rule) == h;
      assert Relevant(s) && s in b;
    }
  }

  lemma ApplyPermitted(c: Config, k: Capabilities, x: Context, f: Family, steps: seq<Step>)
    requires Draws(c, k, x, f, steps)
    ensures Answerable(f, Cover(CleanMode(c.mode), k, f), steps)
  {
    var stop, cover := ModeStop(c, k, x, f), Cover(CleanMode(c.mode), k, f);
    assert c.(mode := c.mode) == c && CleanupScript(CleanMode(c.mode), c, k, x, f) == stop;
    SetupPermitted(c, k, x, f, stop);
    CoverOfStop(c, k, x, f);
    hide ModeStop, ModeSetup, Cover, Permits, Plain, Footprint, Relevant, CleanupScript;
    forall s | s in steps ensures s.family == f && (Permits(cover, s) || Plain(s)) {
      if s in ModeSetup(c, k, x, f) {
        PermitsCover(Footprint(stop), cover, s);
      } else {
        CleanupNamed(CleanMode(c.mode), c, k, x, f, s);
        CoverJumps(CleanMode(c.mode), c, k, x, f);
        NamedPermitted(cover, s);
      }
    }
  }

  lemma NamedPermitted(cover: Foot, s: Step)
    requires JumpsOnly(cover) && (s.op.DelRule? || s.op.CleanupChain? || s.op.Sync?) && (Relevant(s) || Plain(s) || s.op.Sync?)
    requires s.op.CleanupChain? ==> (s.table, s.op.chain) in cover.live
    requires s.op.DelRule? && Relevant(s) ==> (s.table, s.op.chain, s.op.rule) in cover.hooks
    ensures Permits(cover, s) || Plain(s)
  {
    if s.op.DelRule? && Relevant(s) {
      assert (s.table, s.op.chain, s.op.rule).1 == s.op.chain;
      BuiltinsAreNotCustom(s.op.chain);
      assert (s.table, s.op.chain).1 == s.op.chain;
    }
  }

  // ----- the machine -----

  datatype Machine = Machine(world: World, snapshot: Option<Snapshot>)

  /** A scan that finds nothing is right; what else it takes for a rule of the compiler is open. */
  ghost predicate ScanIsRight(w: World, seen: bool) {
    !seen ==> BareWorld(w, V4) && BareWorld(w, V6)
  }

  function Cleaned(refused: set<Rule>, w: World, m: CleanupMode, c: Config, k: Capabilities, x: Context): World {
    DirectRun(refused, DirectRun(refused, w, CleanupScript(m, c, k, x, V4)), CleanupScript(m, c, k, x, V6))
  }

  /** What an apply does for one family: the operations it gets to, and how its session goes. */
  datatype Half = Half(steps: seq<Step>, course: Course)

  datatype Event =
    | Apply(c: Config, k: Capabilities, x: Context, seen: bool, refused: set<Rule>, four: Half, six: Half, ok: bool)
    | Clear(c: Config, k: Capabilities, x: Context, refused: set<Rule>, ok: bool)

  /** Operations of the mode's setup and of its rollback. */
  predicate HalfFits(c: Config, k: Capabilities, x: Context, f: Family, half: Half) {
    Draws(c, k, x, f, half.steps) && |half.course.luck| == |half.steps|
  }

  predicate WellFormed(e: Event) {
    e.Apply? ==> HalfFits(e.c, e.k, e.x, V4, e.four) && HalfFits(e.c, e.k, e.x, V6, e.six)
  }

  /** The tables after both sessions of an apply. */
  function Applied(w: World, c: Config, k: Capabilities, x: Context, four: Half, six: Half): World
    requires HalfFits(c, k, x, V4, four) && HalfFits(c, k, x, V6, six)
  {
    var v := Aftermath(w, V4, four.steps, four.course);
    if c.ipv6 then Aftermath(v, V6, six.steps, six.course) else v
  }

  /** An apply cleans up, then issues in each family's session any operations of its
      setup and rollback with any outcome, and saves its snapshot if it succeeds.  A
      clear cleans up and drops the snapshot; a renew is a clear and an apply. */
  function Next(m: Machine, e: Event): Machine
    requires WellFormed(e)
  {
    match e
    case Apply(c, k, x, seen, refused, four, six, ok) =>
      var clean := Cleaned(refused, m.world, ModeForApply(m.snapshot, c, seen), c, k, x);
      Machine(Applied(clean, c, k, x, four, six), if ok then Some(SnapshotOf(c)) else m.snapshot)
    case Clear(c, k, x, refused, ok) =>
      Machine(Cleaned(refused, m.world, ModeForClear(m.snapshot), c, k, x), if ok then None else m.snapshot)
  }

  /** The cleanup of one mode takes away all that another installs. */
  predicate ModeCovers(a: NetworkMode, b: NetworkMode) {
    || a == b || b == Ebpf
    || (a == Enhance && b in {RedirectOnly, Mixed, TproxyOnly})
    || (a in {RedirectOnly, Mixed} && b in {RedirectOnly, Mixed})
  }

  /** A failed apply finds no snapshot, or one that covers its mode. */
  predicate FailsCovered(s: Option<Snapshot>, c: Config) {
    match ModeForClear(s)
    case CleanMode(a) => ModeCovers(a, c.mode)
    case _ => true
  }

  /** The capability that matters is fixed, scans are right, and failed applies are covered. */
  ghost predicate Admissible(m: Machine, e: Event, nat6: bool) {
    && WellFormed(e) && e.k.ip6Nat == nat6
    && (e.Apply? ==> ScanIsRight(m.world, e.seen) && (!e.ok ==> FailsCovered(m.snapshot, e.c)))
  }

  /** What is installed is answered for by the cleanup clear would choose now. */
  ghost predicate AnsweredFor(m: Machine, k: Capabilities) {
    forall f :: Owned(m.world, f, Cover(ModeForClear(m.snapshot), k, f))
  }

  // ----- one family at a time -----

  lemma {:induction false} FirstTakenAside(refused: set<Rule>, w: World, g: Family, t: TableName, c: string, rules: seq<Rule>, front: bool, f: Family)
    requires f in w && f != g
    ensures var v := FirstTaken(refused, w, g, t, c, rules, front).world; f in v && v[f] == w[f]
    decreases |rules|
  {
    hide Ipt;
    if rules != [] {
      FirstTakenAside(refused, w, g, t, c, rules[1..], front, f);
    }
  }

  lemma {:induction false} FirstEnsuredAside(refused: set<Rule>, w: World, g: Family, t: TableName, c: string, rules: seq<Rule>, f: Family)
    requires f in w && f != g
    ensures var v := FirstEnsured(refused, w, g, t, c, rules).world; f in v && v[f] == w[f]
    decreases |rules|
  {
    hide Ipt, Checked;
    if rules != [] {
      FirstEnsuredAside(refused, w, g, t, c, rules[1..], f);
    }
  }

  predicate SameFamily(w: World, v: World, f: Family) { f in w && f in v && v[f] == w[f] }

  lemma CommandAside(refused: set<Rule>, w: World, g: Family, t: TableName, cmd: IptCmd, f: Family)
    requires f in w && f != g
    ensures SameFamily(w, Silently(refused, w, g, t, cmd), f) && SameFamily(w, Required(refused, w, g, t, cmd).world, f)
  {
    hide Ipt;
  }

  lemma StepAside(refused: set<Rule>, w: World, g: Family, t: TableName, op: Op, f: Family)
    requires f in w && f != g
    ensures SameFamily(w, Direct(refused, w, g, t, op).world, f)
  {
    hide Required, Silently, Checked, IsBoxCustomChain, FirstTaken, FirstEnsured, Kept, AcceptPairs, IsLocalIp;
    var c := ChainOf(op);
    match op
    case EnsureChain(_) =>
      CommandAside(refused, w, g, t, NewChain(c), f);
      CommandAside(refused, Silently(refused, w, g, t, NewChain(c)), g, t, Flush(c), f);
    case EnsureAppend(_, r) => CommandAside(refused, w, g, t, Append(c, r), f);
    case EnsureInsert(_, r) => CommandAside(refused, w, g, t, Insert(c, r), f);
    case EnsureJump(_, target) => CommandAside(refused, w, g, t, Insert(c, Rule(Jump(target))), f);
    case DelRule(_, r) => CommandAside(refused, w, g, t, Delete(c, r), f);
    case CleanupChain(_) =>
      CommandAside(refused, w, g, t, Flush(c), f);
      CommandAside(refused, Silently(refused, w, g, t, Flush(c)), g, t, DeleteChain(c), f);
    case InsertFirst(_, rules, fallback) =>
      FirstTakenAside(refused, w, g, t, c, rules, true, f);
      FirstTakenFails(refused, w, g, t, c, rules);
      if fallback.Some? {
        CommandAside(refused, w, g, t, Insert(c, fallback.value), f);
      }
    case AppendFirst(_, rules) => FirstTakenAside(refused, w, g, t, c, rules, false, f);
    case EnsureFirst(_, rules) => FirstEnsuredAside(refused, w, g, t, c, rules, f);
    case _ =>
  }

  lemma {:induction false} RunAside(refused: set<Rule>, w: World, g: Family, steps: seq<Step>, f: Family)
    requires f in w && f != g && forall s :: s in steps ==> s.family == g
    ensures SameFamily(w, DirectRun(refused, w, steps), f)
    decreases |steps|
  {
    hide Direct;
    if steps != [] {
      var s := steps[0];
      assert s in steps && s.family == g;
      StepAside(refused, w, g, s.table, s.op, f);
      assert forall q :: q in steps[1..] ==> q in steps;
      RunAside(refused, Direct(refused, w, g, s.table, s.op).world, g, steps[1..], f);
    }
  }

  lemma OwnedFrame(w: World, v: World, f: Family, foot: Foot)
    requires Owned(w, f, foot) && SameFamily(w, v, f)
    ensures Owned(v, f, foot)
  {
    hide Bare, Inside;
    var base :| OwnedOver(base, w, f, foot);
    var other := v[f := base[f]];
    assert v == other[f := v[f]];
    assert OwnedOver(other, v, f, foot);
  }

  lemma BareFrame(w: World, v: World, f: Family)
    requires BareWorld(w, f) && SameFamily(w, v, f)
    ensures BareWorld(v, f)
  {
    hide Bare;
  }

  lemma OwnedHasFamily(w: World, f: Family, foot: Foot)
    requires Owned(w, f, foot)
    ensures f in w
  {
  }

  lemma CleanupFamily(m: CleanupMode, c: Config, k: Capabilities, x: Context, f: Family)
    ensures forall s :: s in CleanupScript(m, c, k, x, f) ==> s.family == f
  {
    CleanupShaped(m, c, k, x, f);
    hide CleanupScript;
  }

  /** Both families' cleanups. */
  lemma CleanedBare(refused: set<Rule>, w: World, m: CleanupMode, c: Config, k: Capabilities, x: Context)
    requires forall f :: Owned(w, f, Cover(m, k, f))
    ensures BareWorld(Cleaned(refused, w, m, c, k, x), V4) && BareWorld(Cleaned(refused, w, m, c, k, x), V6)
    ensures var four, six := CleanupScript(m, c, k, x, V4), CleanupScript(m, c, k, x, V6);
      AllAccepted(refused, w, four) && AllAccepted(refused, DirectRun(refused, w, four), six)
  {
    hide Owned, Cover, CleanupScript, BareWorld, SameFamily, AllAccepted;
    var four, six := CleanupScript(m, c, k, x, V4), CleanupScript(m, c, k, x, V6);
    var v := DirectRun(refused, w, four);
    OwnedHasFamily(w, V6, Cover(m, k, V6));
    CleanupFamily(m, c, k, x, V4);
    CleanupFamily(m, c, k, x, V6);
    CleanupLeavesNone(refused, w, m, c, k, x, V4);
    RunAside(refused, w, V4, four, V6);
    OwnedFrame(w, v, V6, Cover(m, k, V6));
    CleanupLeavesNone(refused, v, m, c, k, x, V6);
    BareHasFamily(v, V4);
    RunAside(refused, v, V6, six, V4);
    BareFrame(v, DirectRun(refused, v, six), V4);
  }

  lemma BareHasFamily(w: World, f: Family)
    requires BareWorld(w, f)
    ensures f in w
  {
  }

  // ----- covers compared -----

  lemma CoverSame(m: CleanupMode, k: Capabilities, l: Capabilities, f: Family)
    requires k.ip6Nat == l.ip6Nat
    ensures Cover(m, k, f) == Cover(m, l, f)
  {
    assert DnsNatCleanup(k, f) == DnsNatCleanup(l, f);
    hide DnsNatCleanup, Footprint;
  }

  lemma CoverWithin(a: NetworkMode, b: NetworkMode, k: Capabilities, f: Family)
    requires ModeCovers(a, b)
    ensures Within(Cover(CleanMode(b), k, f), Cover(CleanMode(a), k, f))
  {
    hide RedirectChains, TproxyChains, StopTunBypass;
  }

  lemma CoverWithinAll(m: CleanupMode, k: Capabilities, f: Family)
    ensures Within(Cover(m, k, f), Cover(CleanEverything, k, f))
  {
    hide RedirectChains, TproxyChains, StopTunBypass;
  }

  // ----- the invariant -----

  /** The cleanup an apply chooses leaves bare tables. */
  lemma ApplyCleans(m: Machine, c: Config, k: Capabilities, x: Context, seen: bool, refused: set<Rule>)
    requires AnsweredFor(m, k) && ScanIsRight(m.world, seen)
    ensures var w := Cleaned(refused, m.world, ModeForApply(m.snapshot, c, seen), c, k, x); BareWorld(w, V4) && BareWorld(w, V6)
  {
    var mode := ModeForApply(m.snapshot, c, seen);
    if mode == CleanNothing {
      assert CleanupScript(mode, c, k, x, V4) == [] && CleanupScript(mode, c, k, x, V6) == [];
    } else {
      hide Owned, Cover, BareWorld, JumpsOnly, Within;
      forall f ensures Owned(m.world, f, Cover(mode, k, f)) {
        assert Owned(m.world, f, Cover(ModeForClear(m.snapshot), k, f));
        if mode == CleanEverything {
          CoverWithinAll(ModeForClear(m.snapshot), k, f);
          CoverJumps(mode, c, k, x, f);
          OwnedMore(m.world, f, Cover(ModeForClear(m.snapshot), k, f), Cover(mode, k, f));
        }
      }
      CleanedBare(refused, m.world, mode, c, k, x);
    }
  }

  lemma OtherFamily(w: World, v: World, f: Family, g: Family)
    requires f != g && g in w && f in w && f in v && v == w[f := v[f]]
    ensures SameFamily(w, v, g)
  {
  }

  /** One session of an apply. */
  lemma HalfCovered(w: World, c: Config, k: Capabilities, x: Context, f: Family, g: Family, half: Half, cover: Foot)
    requires HalfFits(c, k, x, f, half) && f != g
    requires Owned(w, f, Cover(CleanMode(c.mode), k, f)) && Owned(w, g, cover)
    ensures var v := Aftermath(w, f, half.steps, half.course); Owned(v, f, Cover(CleanMode(c.mode), k, f)) && Owned(v, g, cover)
  {
    hide Owned, Cover, JumpsOnly, Answerable, Aftermath, Draws, SameFamily;
    var own, v := Cover(CleanMode(c.mode), k, f), Aftermath(w, f, half.steps, half.course);
    ApplyPermitted(c, k, x, f, half.steps);
    CoverJumps(CleanMode(c.mode), c, k, x, f);
    OwnedAftermath(w, f, own, half.steps, half.course);
    OwnedHasFamily(w, g, cover);
    OtherFamily(w, v, f, g);
    OwnedFrame(w, v, g, cover);
  }

  /** From bare tables, whatever an apply gets done is covered by its mode. */
  lemma ApplyCovered(w: World, c: Config, k: Capabilities, x: Context, four: Half, six: Half)
    requires BareWorld(w, V4) && BareWorld(w, V6) && HalfFits(c, k, x, V4, four) && HalfFits(c, k, x, V6, six)
    ensures forall f :: Owned(Applied(w, c, k, x, four, six), f, Cover(CleanMode(c.mode), k, f))
  {
    assert |four.course.luck| == |four.steps|;
    hide Owned, Cover, BareWorld, JumpsOnly, HalfFits, Aftermath;
    var cover4, cover6 := Cover(CleanMode(c.mode), k, V4), Cover(CleanMode(c.mode), k, V6);
    CoverJumps(CleanMode(c.mode), c, k, x, V4);
    CoverJumps(CleanMode(c.mode), c, k, x, V6);
    BareOwned(w, V4, cover4);
    BareOwned(w, V6, cover6);
    HalfCovered(w, c, k, x, V4, V6, four, cover6);
    var v := Aftermath(w, V4, four.steps, four.course);
    HalfCovered(v, c, k, x, V6, V4, six, cover4);
    forall f ensures Owned(Applied(w, c, k, x, four, six), f, Cover(CleanMode(c.mode), k, f)) {
      if f == V4 {
      }
    }
  }

  /** The invariant only depends on whether the family has a nat table for IPv6. */
  lemma AnsweredSame(m: Machine, k: Capabilities, l: Capabilities)
    requires AnsweredFor(m, k) && k.ip6Nat == l.ip6Nat
    ensures AnsweredFor(m, l)
  {
    hide Owned, Cover;
    forall f ensures Owned(m.world, f, Cover(ModeForClear(m.snapshot), l, f)) {
      CoverSame(ModeForClear(m.snapshot), k, l, f);
      assert Owned(m.world, f, Cover(ModeForClear(m.snapshot), k, f));
    }
  }

  lemma BareAnswered(n: Machine, c: Config, k: Capabilities, x: Context)
    requires BareWorld(n.world, V4) && BareWorld(n.world, V6)
    ensures AnsweredFor(n, k)
  {
    hide Owned, Cover, BareWorld, JumpsOnly;
    forall f ensures Owned(n.world, f, Cover(ModeForClear(n.snapshot), k, f)) {
      CoverJumps(ModeForClear(n.snapshot), c, k, x, f);
      EitherFamily(n.world, f);
      BareOwned(n.world, f, Cover(ModeForClear(n.snapshot), k, f));
    }
  }

  lemma EitherFamily(w: World, f: Family)
    requires BareWorld(w, V4) && BareWorld(w, V6)
    ensures BareWorld(w, f)
  {
    hide BareWorld;
    if f != V4 {
      assert f == V6;
    }
  }

  lemma ClearAnswered(m: Machine, c: Config, k: Capabilities, x: Context, refused: set<Rule>, ok: bool)
    requires AnsweredFor(m, k)
    ensures AnsweredFor(Next(m, Clear(c, k, x, refused, ok)), k)
  {
    hide Owned, Cover, BareWorld, Cleaned;
    CleanedBare(refused, m.world, ModeForClear(m.snapshot), c, k, x);
    BareAnswered(Next(m, Clear(c, k, x, refused, ok)), c, k, x);
  }

  lemma ApplyAnswered(m: Machine, n: Machine, c: Config, k: Capabilities, x: Context, ok: bool)
    requires n.snapshot == (if ok then Some(SnapshotOf(c)) else m.snapshot) && (!ok ==> FailsCovered(m.snapshot, c))
    requires forall f :: Owned(n.world, f, Cover(CleanMode(c.mode), k, f))
    ensures AnsweredFor(n, k)
  {
    hide Owned, Cover, JumpsOnly, FailsCovered, ModeForClear;
    forall f ensures Owned(n.world, f, Cover(ModeForClear(n.snapshot), k, f)) {
      assert Owned(n.world, f, Cover(CleanMode(c.mode), k, f));
      CoverJumps(ModeForClear(n.snapshot), c, k, x, f);
      CoverAfter(m.snapshot, n.snapshot, c, ok, k, f);
      OwnedMore(n.world, f, Cover(CleanMode(c.mode), k, f), Cover(ModeForClear(n.snapshot), k, f));
    }
  }

  lemma NextAnswered(m: Machine, e: Event, k: Capabilities)
    requires AnsweredFor(m, k) && Admissible(m, e, k.ip6Nat)
    ensures AnsweredFor(Next(m, e), k)
  {
    hide AnsweredFor, Owned, Cover, Applied, Cleaned, ModeForApply, ModeForClear, FailsCovered, ScanIsRight, HalfFits;
    AnsweredSame(m, k, e.k);
    match e {
      case Clear(c, l, x, refused, ok) => ClearAnswered(m, c, l, x, refused, ok);
      case Apply(c, l, x, seen, refused, four, six, ok) =>
        ApplyCleans(m, c, l, x, seen, refused);
        ApplyCovered(Cleaned(refused, m.world, ModeForApply(m.snapshot, c, seen), c, l, x), c, l, x, four, six);
        ApplyAnswered(m, Next(m, e), c, l, x, ok);
    }
    AnsweredSame(Next(m, e), e.k, k);
  }

  lemma CoverAfter(was: Option<Snapshot>, now: Option<Snapshot>, c: Config, ok: bool, k: Capabilities, f: Family)
    requires now == (if ok then Some(SnapshotOf(c)) else was) && (!ok ==> FailsCovered(was, c))
    ensures Within(Cover(CleanMode(c.mode), k, f), Cover(ModeForClear(now), k, f))
  {
    hide Cover;
    if ok {
      CoverWithin(c.mode, c.mode, k, f);
    } else {
      match ModeForClear(was)
      case CleanMode(a) => CoverWithin(a, c.mode, k, f);
      case _ => CoverWithinAll(CleanMode(c.mode), k, f);
    }
  }

  function Run(m: Machine, events: seq<Event>): Machine
    requires forall e :: e in events ==> WellFormed(e)
    decreases |events|
  {
    if events == [] then m else
      assert events[0] in events;
      assert forall e :: e in events[1..] ==> e in events;
      Run(Next(m, events[0]), events[1..])
  }

  ghost predicate AllAdmissible(m: Machine, events: seq<Event>, nat6: bool)
    decreases |events|
  {
    events == [] || (Admissible(m, events[0], nat6) && AllAdmissible(Next(m, events[0]), events[1..], nat6))
  }

  /** Every run from bare tables without a snapshot keeps the invariant. */
  lemma {:induction false} RunAnswered(m: Machine, events: seq<Event>, k: Capabilities)
    requires AnsweredFor(m, k) && AllAdmissible(m, events, k.ip6Nat)
    requires forall e :: e in events ==> WellFormed(e)
    ensures AnsweredFor(Run(m, events), k)
    decreases |events|
  {
    hide Next, AnsweredFor, Admissible;
    if events != [] {
      assert events[0] in events && WellFormed(events[0]);
      NextAnswered(m, events[0], k);
      assert forall e :: e in events[1..] ==> e in events;
      RunAnswered(Next(m, events[0]), events[1..], k);
    }
  }

  lemma StartAnswered(w: World, c: Config, k: Capabilities, x: Context)
    requires BareWorld(w, V4) && BareWorld(w, V6)
    ensures AnsweredFor(Machine(w, None), k)
  {
    hide Cover, JumpsOnly, BareWorld;
    forall f ensures Owned(w, f, Cover(CleanEverything, k, f)) {
      CoverJumps(CleanEverything, c, k, x, f);
      if f == V4 { BareOwned(w, V4, Cover(CleanEverything, k, V4)); } else { BareOwned(w, V6, Cover(CleanEverything, k, V6)); }
    }
  }

  /** After any such run, a clear leaves neither a chain of the compiler nor a jump
      into one, and in neither family is one of its chain deletions refused. */
  lemma ClearLeavesNone(w: World, events: seq<Event>, c: Config, k: Capabilities, x: Context, refused: set<Rule>, ok: bool)
    requires BareWorld(w, V4) && BareWorld(w, V6)
    requires AllAdmissible(Machine(w, None), events, k.ip6Nat) && forall e :: e in events ==> WellFormed(e)
    ensures var m := Run(Machine(w, None), events);
      var n, mode := Next(m, Clear(c, k, x, refused, ok)), ModeForClear(m.snapshot);
      var four, six := CleanupScript(mode, c, k, x, V4), CleanupScript(mode, c, k, x, V6);
      && BareWorld(n.world, V4) && BareWorld(n.world, V6)
      && AllAccepted(refused, m.world, four) && AllAccepted(refused, DirectRun(refused, m.world, four), six)
  {
    StartAnswered(w, c, k, x);
    RunAnswered(Machine(w, None), events, k);
    var m := Run(Machine(w, None), events);
    hide Owned, Cover, BareWorld, CleanupScript, AllAccepted, Run;
    assert forall f :: Owned(m.world, f, Cover(ModeForClear(m.snapshot), k, f));
    CleanedBare(refused, m.world, ModeForClear(m.snapshot), c, k, x);
  }

  // ----- failed applies that escape -----

  /** The setup of a family carried out, unbuffered and with nothing refused. */
  function WholeSetup(c: Config, k: Capabilities, x: Context, f: Family): (half: Half)
    ensures HalfFits(c, k, x, f, half)
  {
    SetupIsDrawn(c, k, x, f);
    Half(ModeSetup(c, k, x, f), Steady(false, |ModeSetup(c, k, x, f)|, {}))
  }

  /** A family whose session got nothing done. */
  function Nothing(): Half { Half([], Steady(false, 0, {})) }

  predicate NeverCleans(steps: seq<Step>, f: Family, t: TableName, c: string) {
    forall s | s in steps :: s.family == f && !(s.op.CleanupChain? && s.table == t && s.op.chain == c)
  }

  lemma {:induction false} RunKept(refused: set<Rule>, w: World, f: Family, steps: seq<Step>, t: TableName, c: string)
    requires HasChain(w, f, t, c) && NeverCleans(steps, f, t, c)
    ensures HasChain(DirectRun(refused, w, steps), f, t, c)
    decreases |steps|
  {
    hide Direct, HasChain;
    if steps != [] {
      assert steps[0] in steps && forall q :: q in steps[1..] ==> q in steps;
      ChainKept(refused, w, f, steps[0], t, c);
      RunKept(refused, Direct(refused, w, f, steps[0].table, steps[0].op).world, f, steps[1..], t, c);
    }
  }

  /** A chain ensured along the way is there at the end. */
  lemma {:induction false} RunEnsures(refused: set<Rule>, w: World, f: Family, steps: seq<Step>, t: TableName, c: string)
    requires HasTable(w, f, t) && NeverCleans(steps, f, t, c) && Step(f, t, EnsureChain(c)) in steps
    ensures HasChain(DirectRun(refused, w, steps), f, t, c)
    decreases |steps|
  {
    hide Direct, HasChain, HasTable;
    var s := steps[0];
    assert s in steps && forall q :: q in steps[1..] ==> q in steps;
    if s == Step(f, t, EnsureChain(c)) {
      assert HasChain(Direct(refused, w, f, t, EnsureChain(c)).world, f, t, c) by { EnsureMakes(refused, w, f, t, c); }
      RunKept(refused, Direct(refused, w, f, s.table, s.op).world, f, steps[1..], t, c);
    } else {
      TablesStay(refused, w, f, s.table, s.op, t);
      RunEnsures(refused, Direct(refused, w, f, s.table, s.op).world, f, steps[1..], t, c);
    }
  }

  lemma EnsureMakes(refused: set<Rule>, w: World, f: Family, t: TableName, c: string)
    requires HasTable(w, f, t)
    ensures HasChain(Direct(refused, w, f, t, EnsureChain(c)).world, f, t, c)
  {
    DirectEnsureChain(refused, w, f, t, c);
  }

  lemma {:induction false} TriedRuns(refused: set<Rule>, w: World, steps: seq<Step>)
    ensures Attempt(w, steps, seq(|steps|, _ => Tried(refused))) == DirectRun(refused, w, steps)
    decreases |steps|
  {
    hide Direct;
    if steps != [] {
      assert seq(|steps|, _ => Tried(refused))[1..] == seq(|steps[1..]|, _ => Tried(refused));
      TriedRuns(refused, Direct(refused, w, steps[0].family, steps[0].table, steps[0].op).world, steps[1..]);
    }
  }

  lemma WholeSetupRuns(w: World, c: Config, k: Capabilities, x: Context)
    ensures var four := WholeSetup(c, k, x, V4); Aftermath(w, V4, four.steps, four.course) == DirectRun({}, w, ModeSetup(c, k, x, V4))
    ensures Aftermath(w, V6, [], Nothing().course) == w
  {
    var steps := ModeSetup(c, k, x, V4);
    UnbufferedAftermath(w, V4, steps, seq(|steps|, _ => Tried({})), {});
    TriedRuns({}, w, steps);
    UnbufferedAftermath(w, V6, [], seq(0, _ => Tried({})), {});
    hide ModeSetup, Aftermath;
    assert Nothing().course == Course(false, seq(0, _ => Tried({})), {});
  }

  /** The modes whose setup can be had on this device and configuration. */
  predicate CanStart(c: Config, k: Capabilities) {
    && (c.mode == TproxyOnly || c.mode == Enhance ==> k.tproxy4)
    && (c.mode == Tun ==> TunManaged(c))
  }

  /** A chain one mode installs and another's cleanup does not take away. */
  function Escapee(a: NetworkMode, b: NetworkMode): Chain {
    match b
    case Tun => (Mangle, TunPreChain(V4))
    case TproxyOnly => (Mangle, EXTERNAL)
    case Enhance => if a == RedirectOnly || a == Mixed then (Mangle, EXTERNAL) else (Nat, EXTERNAL)
    case _ => (Nat, EXTERNAL)
  }

  lemma EscapeeInstalled(a: NetworkMode, c: Config, k: Capabilities, x: Context)
    requires !ModeCovers(a, c.mode) && CanStart(c, k)
    ensures var p := Escapee(a, c.mode);
      Step(V4, p.0, EnsureChain(p.1)) in ModeSetup(c, k, x, V4) && NeverCleans(ModeSetup(c, k, x, V4), V4, p.0, p.1)
  {
    RedirectInstalls(c, k, x);
    TproxyInstalls(c, k, x);
    TunInstalls(c, k, x);
    ForwardKeeps(c);
    DivertIsOther();
    hide StartRedirect, StartTproxy, StartTunBypass, StopTunBypass, ForwardSetup, TunPreChain;
  }

  lemma DivertIsOther()
    ensures DIVERT != EXTERNAL && DIVERT != TunPreChain(V4)
  {
  }

  /** Steps of IPv4 that delete no chain but, in some cases, the divert chain. */
  predicate Keeps(steps: seq<Step>) { forall s | s in steps :: s.family == V4 && (s.op.CleanupChain? ==> s.op.chain == DIVERT) }

  lemma KeepsBoth(a: seq<Step>, b: seq<Step>)
    requires Keeps(a) && Keeps(b)
    ensures Keeps(a + b)
    ensures a != [] ==> (a + b)[0] == a[0]
  {
  }

  lemma AppendsKeep(t: TableName, c: string, rules: seq<Rule>)
    ensures Keeps(Appends(V4, t, c, rules)) && Keeps(Attempts(V4, t, c, rules))
  {
  }

  lemma OneKeeps(t: TableName, op: Op)
    requires !op.CleanupChain?
    ensures Keeps(One(V4, t, op)) && Keeps([])
  {
  }

  lemma ForwardKeeps(c: Config)
    ensures Keeps(ForwardSetup(c, V4))
  {
  }

  lemma DnsKeeps(c: Config, k: Capabilities, x: Context)
    ensures Keeps(DnsNatSetup(c, k, x, V4))
  {
    hide DnsHijackRules, DnsForwardRules, CoreBypassVariants, HijackPre, HijackOut, ForwardPre;
  }

  lemma RedirectExternalKeeps(c: Config, k: Capabilities, x: Context)
    ensures Keeps(RedirectExternalSetup(c, k, x, V4)) && RedirectExternalSetup(c, k, x, V4) != []
    ensures RedirectExternalSetup(c, k, x, V4)[0] == Step(V4, Nat, EnsureChain(EXTERNAL))
  {
    var a := One(V4, Nat, EnsureChain(EXTERNAL));
    var b, d := Appends(V4, Nat, EXTERNAL, ReplyBypass(c, k)), DnsNatSetup(c, k, x, V4);
    var e, g := LocalIpSetup(c, k, V4, Nat), Appends(V4, Nat, EXTERNAL, ExternalBody(c, k, V4, ActRedirect));
    var h := One(V4, Nat, EnsureJump("PREROUTING", EXTERNAL));
    hide Keeps, Appends, DnsNatSetup, ReplyBypass, ExternalBody, LocalIpChain, RestoringOf;
    OneKeeps(Nat, EnsureChain(EXTERNAL));
    OneKeeps(Nat, EnsureJump("PREROUTING", EXTERNAL));
    OneKeeps(Nat, Rebuild(LocalIpChain(V4), LocalCidrs(c, V4), RestoringOf(k, V4, Nat)));
    AppendsKeep(Nat, EXTERNAL, ReplyBypass(c, k));
    AppendsKeep(Nat, EXTERNAL, ExternalBody(c, k, V4, ActRedirect));
    DnsKeeps(c, k, x);
    KeepsBoth(a, b);
    KeepsBoth(a + b, d);
    KeepsBoth(a + b + d, e);
    KeepsBoth(a + b + d + e, g);
    KeepsBoth(a + b + d + e + g, h);
  }

  lemma RedirectLocalKeeps(c: Config, k: Capabilities, x: Context)
    ensures Keeps(RedirectLocalSetup(c, k, x, V4)) && Keeps(LoopbackRejectSetup(x, V4, c.redirPort))
    ensures Keeps(LoopbackRejectSetup(x, V4, c.tproxyPort))
  {
    hide RedirectLocalRules, CoreBypassVariants, LoopbackRejects;
  }

  lemma RedirectInstalls(c: Config, k: Capabilities, x: Context)
    ensures Step(V4, Nat, EnsureChain(EXTERNAL)) in StartRedirect(c, k, x, V4) && Keeps(StartRedirect(c, k, x, V4))
  {
    hide Keeps, RedirectExternalSetup, RedirectLocalSetup, LoopbackRejectSetup;
    var a, b, d := RedirectExternalSetup(c, k, x, V4), RedirectLocalSetup(c, k, x, V4), LoopbackRejectSetup(x, V4, c.redirPort);
    RedirectExternalKeeps(c, k, x);
    RedirectLocalKeeps(c, k, x);
    KeepsBoth(a, b);
    KeepsBoth(a + b, d);
    assert StartRedirect(c, k, x, V4)[0] == Step(V4, Nat, EnsureChain(EXTERNAL));
  }

  lemma PerfDestKeeps(c: Config, k: Capabilities, chain: string)
    ensures Keeps(PerfDestSetup(c, k, V4, chain))
  {
    hide PerfBypassRules, PerfAddrtypeRules, PerfLoopbackRules;
  }

  lemma TproxyExternalKeeps(c: Config, k: Capabilities, x: Context)
    ensures Keeps(TproxyExternalSetup(c, k, V4)) && TproxyExternalSetup(c, k, V4) != []
    ensures TproxyExternalSetup(c, k, V4)[0] == Step(V4, Mangle, EnsureChain(EXTERNAL))
  {
    var a, z := One(V4, Mangle, EnsureChain(EXTERNAL)), One(V4, Mangle, EnsureJump("PREROUTING", EXTERNAL));
    hide Keeps, Appends, PerformanceChain, PerfIfRules, PerfExternalRules, ExternalPrefix, ExternalBody, PerfDestSetup, LocalIpChain, RestoringOf;
    OneKeeps(Mangle, EnsureChain(EXTERNAL));
    OneKeeps(Mangle, EnsureJump("PREROUTING", EXTERNAL));
    if PerformanceChain(c, k) {
      var b, d := PerfDestSetup(c, k, V4, TP_PRE_IP), One(V4, Mangle, EnsureChain(TP_PRE_IF));
      var e, g := Appends(V4, Mangle, TP_PRE_IF, PerfIfRules(c)), Appends(V4, Mangle, EXTERNAL, PerfExternalRules(c, k, V4));
      PerfDestKeeps(c, k, TP_PRE_IP);
      OneKeeps(Mangle, EnsureChain(TP_PRE_IF));
      AppendsKeep(Mangle, TP_PRE_IF, PerfIfRules(c));
      AppendsKeep(Mangle, EXTERNAL, PerfExternalRules(c, k, V4));
      KeepsBoth(a, b);
      KeepsBoth(a + b, d);
      KeepsBoth(a + b + d, e);
      KeepsBoth(a + b + d + e, g);
      KeepsBoth(a + b + d + e + g, z);
    } else {
      var b, d := Appends(V4, Mangle, EXTERNAL, ExternalPrefix(c, k, V4, ActTproxy)), LocalIpSetup(c, k, V4, Mangle);
      var e := Appends(V4, Mangle, EXTERNAL, ExternalBody(c, k, V4, ActTproxy));
      AppendsKeep(Mangle, EXTERNAL, ExternalPrefix(c, k, V4, ActTproxy));
      AppendsKeep(Mangle, EXTERNAL, ExternalBody(c, k, V4, ActTproxy));
      OneKeeps(Mangle, Rebuild(LocalIpChain(V4), LocalCidrs(c, V4), RestoringOf(k, V4, Mangle)));
      KeepsBoth(a, b);
      KeepsBoth(a + b, d);
      KeepsBoth(a + b + d, e);
      KeepsBoth(a + b + d + e, z);
    }
  }

  lemma TproxyLocalKeeps(c: Config, k: Capabilities, x: Context)
    ensures Keeps(TproxyLocalSetup(c, k, x, V4))
  {
    hide Appends, PerformanceChain, PerfDestSetup, PerfAppRules, PerfLocalRules, TproxyLocalRules, CoreBypassVariants;
    PerfDestKeeps(c, k, TP_OUT_IP);
    AppendsKeep(Mangle, TP_OUT_APP, PerfAppRules(c, x, V4));
    AppendsKeep(Mangle, LOCAL, PerfLocalRules(c, k, x, V4));
    AppendsKeep(Mangle, LOCAL, TproxyLocalRules(c, k, x, V4));
  }

  lemma TproxyRestKeeps(c: Config, k: Capabilities)
    ensures Keeps(DivertSetup(c, k, V4)) && Keeps(QuicSetup(c, V4)) && Keeps(FakeIpIcmpSetup(c, V4))
  {
    hide PerformanceChain, FakeIpIcmp;
  }

  lemma RoutingKeeps()
    ensures Keeps(TproxyRouting(V4)) && Keeps(TunRouting(V4))
  {
  }

  lemma TproxyTablesKeep(c: Config, k: Capabilities, x: Context)
    ensures TproxyTables(c, k, x, V4) != [] && TproxyTables(c, k, x, V4)[0] == Step(V4, Mangle, EnsureChain(EXTERNAL))
    ensures Keeps(TproxyTables(c, k, x, V4))
  {
    hide Keeps, TproxyExternalSetup, TproxyLocalSetup, DivertSetup, QuicSetup, DnsNatSetup, FakeIpIcmpSetup, LoopbackRejectSetup;
    TproxyExternalKeeps(c, k, x);
    TproxyLocalKeeps(c, k, x);
    TproxyRestKeeps(c, k);
    RedirectLocalKeeps(c, k, x);
    DnsKeeps(c, k, x);
    OneKeeps(Nat, EnsureChain(EXTERNAL));
    var a, b, d, e := TproxyExternalSetup(c, k, V4), TproxyLocalSetup(c, k, x, V4), DivertSetup(c, k, V4), QuicSetup(c, V4);
    var g := if c.mode != Enhance then LoopbackRejectSetup(x, V4, c.tproxyPort) else [];
    var h, i := DnsNatSetup(c, k, x, V4), FakeIpIcmpSetup(c, V4);
    KeepsBoth(a, b);
    KeepsBoth(a + b, d);
    KeepsBoth(a + b + d, e);
    KeepsBoth(a + b + d + e, g);
    KeepsBoth(a + b + d + e + g, h);
    KeepsBoth(a + b + d + e + g + h, i);
    assert TproxyTables(c, k, x, V4) == a + b + d + e + g + h + i;
  }

  lemma TproxyInstalls(c: Config, k: Capabilities, x: Context)
    ensures k.tproxy4 ==> Step(V4, Mangle, EnsureChain(EXTERNAL)) in StartTproxy(c, k, x, V4)
    ensures Keeps(StartTproxy(c, k, x, V4))
  {
    hide Keeps, TproxyRouting, TproxyTables;
    RoutingKeeps();
    TproxyTablesKeep(c, k, x);
    OneKeeps(Nat, EnsureChain(EXTERNAL));
    KeepsBoth(TproxyRouting(V4), TproxyTables(c, k, x, V4));
    assert TproxyTables(c, k, x, V4)[0] in TproxyTables(c, k, x, V4);
  }

  lemma TunTablesKeep(c: Config, k: Capabilities, x: Context)
    ensures TunTables(c, k, x, V4) != [] && TunTables(c, k, x, V4)[0] == Step(V4, Mangle, EnsureChain(TunPreChain(V4)))
    ensures Keeps(TunTables(c, k, x, V4))
  {
    hide TunPreRules, TunOutRules, CoreBypassVariants;
  }

  lemma TunInstalls(c: Config, k: Capabilities, x: Context)
    ensures Step(V4, Mangle, EnsureChain(TunPreChain(V4))) in StartTunBypass(c, k, x, V4) && Keeps(StartTunBypass(c, k, x, V4))
  {
    hide Keeps, TunTables, TunRouting;
    RoutingKeeps();
    TunTablesKeep(c, k, x);
    KeepsBoth(TunTables(c, k, x, V4), TunRouting(V4));
    assert TunTables(c, k, x, V4)[0] in TunTables(c, k, x, V4);
  }

  lemma EscapeeNotCleaned(a: NetworkMode, b: NetworkMode, d: Config, k: Capabilities, y: Context)
    requires !ModeCovers(a, b)
    ensures var p := Escapee(a, b); NeverCleans(CleanupScript(CleanMode(a), d, k, y, V4), V4, p.0, p.1)
  {
    var p := Escapee(a, b);
    CleanupRelevant(CleanMode(a), d, k, y, V4);
    CleanupFamily(CleanMode(a), d, k, y, V4);
    NotInChainScript(a, b, k);
    hide CleanupScript, ChainScript;
  }

  predicate NeverDeletes(steps: seq<Step>, p: Chain) {
    forall s | s in steps && s.op.CleanupChain? :: (s.table, s.op.chain) != p
  }

  lemma DeletesBoth(a: seq<Step>, b: seq<Step>, p: Chain)
    requires NeverDeletes(a, p) && NeverDeletes(b, p)
    ensures NeverDeletes(a + b, p)
  {
  }

  lemma NotInChainScript(a: NetworkMode, b: NetworkMode, k: Capabilities)
    requires !ModeCovers(a, b)
    ensures NeverDeletes(ChainScript(CleanMode(a), k, V4), Escapee(a, b))
  {
    var p := Escapee(a, b);
    ChainScripts(k);
    EscapeePlaces(a, b);
    hide *;
    RedirectScope(k, p);
    TproxyScope(k, p);
    TunScope(p);
    match a
    case Enhance => DeletesBoth(RedirectChains(k, V4), TproxyChains(k, V4), p);
    case _ =>
  }

  /** Which chain escapes the cleanup of which mode. */
  lemma EscapeePlaces(a: NetworkMode, b: NetworkMode)
    requires !ModeCovers(a, b)
    ensures Escapee(a, b) in {(Nat, EXTERNAL), (Mangle, EXTERNAL), (Mangle, TunPreChain(V4))}
    ensures a in {RedirectOnly, Mixed, Enhance} ==> Escapee(a, b).0 == Mangle
    ensures a in {TproxyOnly, Enhance} ==> Escapee(a, b) != (Mangle, EXTERNAL)
    ensures a == Tun ==> Escapee(a, b) != (Mangle, TunPreChain(V4))
  {
  }

  lemma TunScope(p: Chain)
    requires p in {(Nat, EXTERNAL), (Mangle, EXTERNAL), (Mangle, TunPreChain(V4))}
    ensures p != (Mangle, TunPreChain(V4)) ==> NeverDeletes(StopTunTables(V4), p)
    ensures NeverDeletes([], p)
  {
  }

  lemma ChainScripts(k: Capabilities)
    ensures ChainScript(CleanMode(RedirectOnly), k, V4) == ChainScript(CleanMode(Mixed), k, V4) == RedirectChains(k, V4)
    ensures ChainScript(CleanMode(TproxyOnly), k, V4) == TproxyChains(k, V4)
    ensures ChainScript(CleanMode(Enhance), k, V4) == RedirectChains(k, V4) + TproxyChains(k, V4)
    ensures ChainScript(CleanMode(Tun), k, V4) == StopTunTables(V4) && ChainScript(CleanMode(Ebpf), k, V4) == []
  {
    hide RedirectChains, TproxyChains, StopTunTables;
  }

  lemma DnsScope(k: Capabilities, p: Chain)
    requires p in {(Nat, EXTERNAL), (Mangle, EXTERNAL), (Mangle, TunPreChain(V4))}
    ensures NeverDeletes(DnsNatCleanup(k, V4), p)
  {
    var a, b := DnsChainCleanup(V4, HijackPre(V4)), DnsChainCleanup(V4, HijackOut(V4));
    var d, e := DnsChainCleanup(V4, ForwardPre(V4)), DnsChainCleanup(V4, ForwardOut(V4));
    assert NeverDeletes(a, p) && NeverDeletes(b, p) && NeverDeletes(d, p) && NeverDeletes(e, p);
    hide DnsChainCleanup, NeverDeletes;
    DeletesBoth(a, b, p);
    DeletesBoth(a + b, d, p);
    DeletesBoth(a + b + d, e, p);
  }

  lemma MainScope(t: TableName, p: Chain)
    requires p.0 != t || p == (Mangle, TunPreChain(V4))
    ensures NeverDeletes(ExternalCleanup(V4, t), p) && NeverDeletes(LocalCleanup(V4, t), p)
    ensures NeverDeletes(Cleanups(V4, t, RD_CHAINS), p) && NeverDeletes(Cleanups(V4, t, TP_CHAINS), p)
  {
  }

  lemma DivertScope(p: Chain)
    requires p.1 in {EXTERNAL, TunPreChain(V4)}
    ensures NeverDeletes(DivertCleanup(V4), p)
  {
  }

  lemma RedirectScope(k: Capabilities, p: Chain)
    requires p in {(Nat, EXTERNAL), (Mangle, EXTERNAL), (Mangle, TunPreChain(V4))}
    ensures p.0 == Mangle ==> NeverDeletes(RedirectChains(k, V4), p)
  {
    if p.0 == Mangle {
      DnsScope(k, p);
      MainScope(Nat, p);
      hide NeverDeletes, ExternalCleanup, LocalCleanup, Cleanups, DnsNatCleanup;
      var a, b, d := ExternalCleanup(V4, Nat), LocalCleanup(V4, Nat), Cleanups(V4, Nat, RD_CHAINS);
      DeletesBoth(a, b, p);
      DeletesBoth(a + b, d, p);
      DeletesBoth(a + b + d, DnsNatCleanup(k, V4), p);
    }
  }

  lemma TproxyScope(k: Capabilities, p: Chain)
    requires p in {(Nat, EXTERNAL), (Mangle, EXTERNAL), (Mangle, TunPreChain(V4))}
    ensures p != (Mangle, EXTERNAL) ==> NeverDeletes(TproxyChains(k, V4), p)
  {
    if p != (Mangle, EXTERNAL) {
      DnsScope(k, p);
      MainScope(Mangle, p);
      DivertScope(p);
      hide NeverDeletes, ExternalCleanup, LocalCleanup, Cleanups, DnsNatCleanup, DivertCleanup;
      var a, b, d := ExternalCleanup(V4, Mangle), LocalCleanup(V4, Mangle), Cleanups(V4, Mangle, TP_CHAINS);
      DeletesBoth(a, b, p);
      DeletesBoth(a + b, d, p);
      DeletesBoth(a + b + d, DivertCleanup(V4), p);
      DeletesBoth(a + b + d + DivertCleanup(V4), DnsNatCleanup(k, V4), p);
    }
  }

  /** The kernel after the setup of IPv4 and a cleanup of another mode. */
  lemma ChainEscapes(clean: World, a: NetworkMode, c: Config, k: Capabilities, x: Context)
    requires !ModeCovers(a, c.mode) && CanStart(c, k) && HasTable(clean, V4, Nat) && HasTable(clean, V4, Mangle)
    ensures var p := Escapee(a, c.mode);
      var four := DirectRun({}, clean, ModeSetup(c, k, x, V4));
      HasChain(Cleaned({}, four, CleanMode(a), c, k, x), V4, p.0, p.1)
  {
    var p := Escapee(a, c.mode);
    var setup := ModeSetup(c, k, x, V4);
    var last, six := CleanupScript(CleanMode(a), c, k, x, V4), CleanupScript(CleanMode(a), c, k, x, V6);
    var four := DirectRun({}, clean, setup);
    EscapeeTable(a, c.mode);
    hide ModeSetup, CleanupScript, HasChain, HasTable, NeverCleans, Escapee, ModeCovers, CanStart, SameFamily;
    EscapeeInstalled(a, c, k, x);
    RunEnsures({}, clean, V4, setup, p.0, p.1);
    EscapeeNotCleaned(a, c.mode, c, k, x);
    RunKept({}, four, V4, last, p.0, p.1);
    CleanupFamily(CleanMode(a), c, k, x, V6);
    var v := DirectRun({}, four, last);
    ChainHasFamily(v, V4, p.0, p.1);
    RunAside({}, v, V6, six, V4);
    ChainFrame(v, DirectRun({}, v, six), V4, p.0, p.1);
  }

  /** A failed apply whose IPv4 half went through, over a snapshot that does not
      cover its mode: the next clear leaves one of its chains. */
  lemma FailedApplyEscapes(m: Machine, a: NetworkMode, c: Config, k: Capabilities, x: Context)
    requires m.snapshot.Some? && m.snapshot.value.mode == Some(a) && !ModeCovers(a, c.mode) && CanStart(c, k)
    requires HasTable(m.world, V4, Nat) && HasTable(m.world, V4, Mangle) && V6 in m.world
    ensures HalfFits(c, k, x, V6, Nothing())
    ensures var e := Apply(c, k, x, true, {}, WholeSetup(c, k, x, V4), Nothing(), false);
      !BareWorld(Next(Next(m, e), Clear(c, k, x, {}, true)).world, V4)
  {
    var setup := ModeSetup(c, k, x, V4);
    var clean := Cleaned({}, m.world, ModeForApply(m.snapshot, c, true), c, k, x);
    var four := DirectRun({}, clean, setup);
    WholeSetupRuns(clean, c, k, x);
    WholeSetupRuns(four, c, k, x);
    hide ModeSetup, ModeStop, HasChain, HasTable, ModeForApply, BareWorld, Cleaned, Escapee, ModeCovers, CanStart, Aftermath, WholeSetup;
    CleanedHasTables({}, m.world, ModeForApply(m.snapshot, c, true), c, k, x, Nat);
    CleanedHasTables({}, m.world, ModeForApply(m.snapshot, c, true), c, k, x, Mangle);
    ChainEscapes(clean, a, c, k, x);
    EscapeeCustom(a, c.mode);
    CustomNotBare(Cleaned({}, four, CleanMode(a), c, k, x), Escapee(a, c.mode).0, Escapee(a, c.mode).1);
  }

  lemma EscapeeTable(a: NetworkMode, b: NetworkMode)
    ensures Escapee(a, b).0 == Nat || Escapee(a, b).0 == Mangle
  {
  }

  lemma EscapeeCustom(a: NetworkMode, b: NetworkMode)
    ensures IsBoxCustomChain(Escapee(a, b).1)
  {
  }

  lemma ChainHasFamily(w: World, f: Family, t: TableName, c: string)
    requires HasChain(w, f, t, c)
    ensures f in w
  {
  }

  lemma ChainFrame(w: World, v: World, f: Family, t: TableName, c: string)
    requires HasChain(w, f, t, c) && SameFamily(w, v, f)
    ensures HasChain(v, f, t, c)
  {
  }

  lemma CustomNotBare(w: World, t: TableName, c: string)
    requires HasChain(w, V4, t, c) && IsBoxCustomChain(c)
    ensures !BareWorld(w, V4)
  {
    assert w[V4][t].Keys == w[V4][t].Keys;
  }

  lemma CleanedHasTables(refused: set<Rule>, w: World, m: CleanupMode, c: Config, k: Capabilities, x: Context, t: TableName)
    requires HasTable(w, V4, t) && V6 in w
    ensures HasTable(Cleaned(refused, w, m, c, k, x), V4, t)
  {
    var a, b := CleanupScript(m, c, k, x, V4), CleanupScript(m, c, k, x, V6);
    hide CleanupScript;
    CleanupFamily(m, c, k, x, V4);
    CleanupFamily(m, c, k, x, V6);
    RunKeepsTables(refused, w, V4, a, t);
    RunAside(refused, DirectRun(refused, w, a), V6, b, V4);
  }

  // ----- exactly when failures are cleared -----

  /** Whatever part of a failing apply got through, however its sessions went, the
      next clear takes it away. */
  ghost predicate AlwaysCleared(m: Machine, c: Config, k: Capabilities, x: Context) {
    forall four: Half, six: Half ::
      HalfFits(c, k, x, V4, four) && HalfFits(c, k, x, V6, six) ==> FailureCleared(m, c, k, x, four, six)
  }

  ghost predicate FailureCleared(m: Machine, c: Config, k: Capabilities, x: Context, four: Half, six: Half)
    requires HalfFits(c, k, x, V4, four) && HalfFits(c, k, x, V6, six)
  {
    var n := Next(Next(m, Apply(c, k, x, true, {}, four, six, false)), Clear(c, k, x, {}, true));
    BareWorld(n.world, V4) && BareWorld(n.world, V6)
  }

  /** With a snapshot in place, failed applies of a mode are always cleared exactly
      if the snapshot's cleanup covers that mode. */
  lemma FailuresClearedExactly(m: Machine, a: NetworkMode, c: Config, k: Capabilities, x: Context)
    requires AnsweredFor(m, k) && m.snapshot.Some? && m.snapshot.value.mode == Some(a) && CanStart(c, k)
    requires HasTable(m.world, V4, Nat) && HasTable(m.world, V4, Mangle) && V6 in m.world
    ensures AlwaysCleared(m, c, k, x) <==> ModeCovers(a, c.mode)
  {
    hide Next, AnsweredFor, Owned, Cover, BareWorld, HasTable, CanStart, HalfFits;
    if ModeCovers(a, c.mode) {
      forall four: Half, six: Half | HalfFits(c, k, x, V4, four) && HalfFits(c, k, x, V6, six)
        ensures FailureCleared(m, c, k, x, four, six)
      {
        var e := Apply(c, k, x, true, {}, four, six, false);
        NextAnswered(m, e, k);
        AnsweredCleared(Next(m, e), c, k, x);
      }
    } else {
      FailedApplyEscapes(m, a, c, k, x);
      assert !FailureCleared(m, c, k, x, WholeSetup(c, k, x, V4), Nothing());
    }
  }

  lemma AnsweredCleared(m: Machine, c: Config, k: Capabilities, x: Context)
    requires AnsweredFor(m, k)
    ensures var n := Next(m, Clear(c, k, x, {}, true)); BareWorld(n.world, V4) && BareWorld(n.world, V6)
  {
    hide Owned, Cover, BareWorld, Cleaned;
    CleanedBare({}, m.world, ModeForClear(m.snapshot), c, k, x);
  }
}
