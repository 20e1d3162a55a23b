/**
 An apply: each family's setup in a session of its own, undone within the session
 where it fails, as far as its mode does that.  The writer of RuleBuilders drives
 the manager; here its session is followed to the end.  A success has installed
 the mode; after a failure the mode's cleanup restores the tables.
 */
module Apply {
  import opened Bytes
  import opened Netfilter
  import opened Batching
  import opened RuleConfig
  import opened RuleScripts
  import opened SessionTeardown
  import opened Teardown
  import opened TeardownModes
  import opened Rollback
  import opened SetupSuccess
  import opened SetupOutcome
  import SetupCondition
  import opened RuleBuilders
  import opened Lifecycle

  // ----- one family -----

  /** What a failed setup takes away within its session: TPROXY over IPv6 beside
      redirection is left as it is, and so is a redirect half that enhance mode did
      not get through. */
  function Undoing(c: Config, k: Capabilities, x: Context, f: Family, early: bool): seq<Step> {
    match c.mode
    case RedirectOnly => StopRedirect(c, k, x, f)
    case TproxyOnly => StopTproxy(c, k, x, f)
    case Mixed => StopRedirect(c, k, x, f)
    case Enhance => if early || f == V6 then [] else StopRedirect(c, k, x, f) + StopTproxy(c, k, x, f)
    case Tun => StopTunBypass(f) + ForwardCleanup(c, f)
    case Ebpf => []
  }

  /** TPROXY over IPv6 is optional. */
  predicate Excused(c: Config, f: Family, early: bool) {
    f == V6 && (c.mode == TproxyOnly || (c.mode == Enhance && !early))
  }

  /** A family's session: the setup as far as it came, what undoes it, and the flush at the end. */
  ghost predicate Concluded(refused: set<Rule>, w: World, v: World, c: Config, k: Capabilities, x: Context, f: Family, buffered: bool,
                            issued: seq<Step>, whole: bool, early: bool, ok: bool) {
    var h := Opened(w, f, buffered);
    var o := EndOf(refused, RunOf(refused, h, issued + if whole then [] else Undoing(c, k, x, f, early)));
    && v == o.held.kernel
    && issued <= ModeSetup(c, k, x, f)
    && (whole ==> issued == ModeSetup(c, k, x, f) && NeededOk(issued, OksOf(refused, h, issued)))
    && (early ==> c.mode == Enhance && !whole && issued <= StartRedirect(c, k, x, f))
    && (!early && c.mode == Enhance ==> StartRedirect(c, k, x, f) <= issued)
    && ok == ((whole || Excused(c, f, early)) && o.ok)
  }

  lemma {:induction false} RunTogether(refused: set<Rule>, h: Held, a: seq<Step>, b: seq<Step>)
    ensures RunOf(refused, h, a + b) == RunOf(refused, RunOf(refused, h, a), b)
    decreases |a|
  {
    hide PerformOf;
    if a == [] {
      assert a + b == b;
    } else {
      assert (a + b)[1..] == a[1..] + b;
      RunTogether(refused, PerformOf(refused, h, a[0]).held, a[1..], b);
    }
  }

  lemma WholeInstalls(refused: set<Rule>, w: World, v: World, c: Config, k: Capabilities, x: Context, f: Family, buffered: bool,
                      issued: seq<Step>, early: bool)
    requires Concluded(refused, w, v, c, k, x, f, buffered, issued, true, early, true)
    ensures Installed(refused, w, v, c, k, x, f)
  {
    assert issued + [] == issued;
    hide ModeSetup, RunOf, EndOf, OksOf, NeededOk, Installed, Opened, StartRedirect;
    ReportedInstalls(refused, w, c, k, x, f, buffered);
  }

  lemma EnhanceStarts(c: Config, k: Capabilities, x: Context, f: Family)
    requires c.mode == Enhance
    ensures StartRedirect(c, k, x, f) <= ModeSetup(c, k, x, f)
  {
    assert ModeSetup(c, k, x, f) == StartRedirect(c, k, x, f) + StartTproxy(c, k, x, f) by {
      hide StartRedirect, StartTproxy;
    }
    hide *;
  }

  /** A setup that reports no failure is such a session. */
  lemma ReportedConcludes(refused: set<Rule>, w: World, c: Config, k: Capabilities, x: Context, f: Family, buffered: bool)
    requires Reported(refused, w, c, k, x, f, buffered)
    ensures var steps := ModeSetup(c, k, x, f);
      Concluded(refused, w, EndOf(refused, RunOf(refused, Opened(w, f, buffered), steps)).held.kernel, c, k, x, f, buffered, steps, true, false, true)
  {
    var steps := ModeSetup(c, k, x, f);
    if c.mode == Enhance {
      EnhanceStarts(c, k, x, f);
    }
    assert steps + [] == steps;
    hide ModeSetup, RunOf, EndOf, OksOf, NeededOk, StartRedirect, Opened, Undoing, Excused;
  }

  /** On empty tables and a kernel that refuses nothing every apply of a family gets there. */
  lemma EmptyConcludes(c: Config, k: Capabilities, x: Context, f: Family, buffered: bool)
    ensures var w, steps := SetupCondition.EmptyWorld(), ModeSetup(c, k, x, f);
      Concluded({}, w, EndOf({}, RunOf({}, Opened(w, f, buffered), steps)).held.kernel, c, k, x, f, buffered, steps, true, false, true)
  {
    hide *;
    SetupCondition.EmptyInstalls(c, k, x, f, buffered);
    ReportedConcludes({}, SetupCondition.EmptyWorld(), c, k, x, f, buffered);
  }

  lemma UndoingDrawn(c: Config, k: Capabilities, x: Context, f: Family, early: bool)
    ensures forall s :: s in Undoing(c, k, x, f, early) ==> s in ModeStop(c, k, x, f)
  {
    hide StopRedirect, StopTproxy, StopTunBypass, ForwardCleanup, LegacyCleanup;
  }

  /** What a session issued, as Lifecycle sees it. */
  ghost function Ended(refused: set<Rule>, c: Config, k: Capabilities, x: Context, f: Family, buffered: bool,
                       issued: seq<Step>, whole: bool, early: bool): Half {
    var steps := issued + if whole then [] else Undoing(c, k, x, f, early);
    Half(steps, Steady(buffered, |steps|, refused))
  }

  lemma ConcludedFits(refused: set<Rule>, w: World, v: World, c: Config, k: Capabilities, x: Context, f: Family, buffered: bool,
                      issued: seq<Step>, whole: bool, early: bool, ok: bool)
    requires Concluded(refused, w, v, c, k, x, f, buffered, issued, whole, early, ok)
    ensures var half := Ended(refused, c, k, x, f, buffered, issued, whole, early);
      HalfFits(c, k, x, f, half) && v == Aftermath(w, f, half.steps, half.course)
  {
    hide ModeSetup, ModeStop, RunOf, EndOf, OksOf, NeededOk, Opened, StartRedirect, Undoing, Aftermath;
    var steps := issued + if whole then [] else Undoing(c, k, x, f, early);
    UndoingDrawn(c, k, x, f, early);
    forall s | s in steps ensures s in ModeSetup(c, k, x, f) || s in ModeStop(c, k, x, f) {
      if s in issued {
        assert s in ModeSetup(c, k, x, f);
      }
    }
    SteadyIsSession(refused, w, f, buffered, steps);
  }

  /** However the session went, the mode's cleanup restores the tables. */
  lemma ConcludedCleared(refused: set<Rule>, w: World, v: World, c: Config, k: Capabilities, x: Context, f: Family, buffered: bool,
                         issued: seq<Step>, whole: bool, early: bool, ok: bool, taken: set<Rule>)
    requires Concluded(refused, w, v, c, k, x, f, buffered, issued, whole, early, ok)
    requires PristineWorld(w, f, Footprint(ModeStop(c, k, x, f)))
    ensures DirectRun(taken, v, ModeStop(c, k, x, f)) == w && AllAccepted(taken, v, ModeStop(c, k, x, f))
  {
    var half := Ended(refused, c, k, x, f, buffered, issued, whole, early);
    hide Concluded, Ended, Draws, ModeStop, Aftermath, PristineWorld, DirectRun, AllAccepted;
    ConcludedFits(refused, w, v, c, k, x, f, buffered, issued, whole, early, ok);
    ModeTeardownUndoes(taken, w, c, k, x, f, half.steps, half.course);
  }

  // ----- undone within the session -----

  /** The undoing covers the mode's setup. */
  predicate Undoes(c: Config, f: Family, early: bool) {
    c.mode.RedirectOnly? || c.mode.TproxyOnly? || c.mode.Tun? || (c.mode.Enhance? && !early && f == V4)
  }

  lemma UndoingShaped(c: Config, k: Capabilities, x: Context, f: Family, early: bool)
    ensures ShapedSteps(f, Undoing(c, k, x, f, early)) && Rollback.Cleanups(f, Undoing(c, k, x, f, early))
  {
    hide ModeStop, Undoing;
    StopsAreShaped(c, k, x, f);
    UndoingDrawn(c, k, x, f, early);
    StopCleanups(c, k, x, f);
  }

  lemma TunUndoingClean(foot: Foot, c: Config, f: Family)
    requires Shaped(foot)
    ensures CleanAll(foot, StopTunBypass(f) + ForwardCleanup(c, f))
  {
    hide *;
    StopTunClean(foot, f);
    AfterAllWithin(foot, StopTunBypass(f));
    RestClean(AfterAll(foot, StopTunBypass(f)), c, f);
    ThenClean(foot, StopTunBypass(f), ForwardCleanup(c, f));
  }

  lemma UndoingCleanAt(foot: Foot, c: Config, k: Capabilities, x: Context, f: Family, early: bool)
    requires Shaped(foot)
    ensures CleanAll(foot, Undoing(c, k, x, f, early))
  {
    hide CleanAll, Shaped, StopRedirect, StopTproxy, StopTunBypass, ForwardCleanup;
    StopRedirectClean(foot, c, k, x, f);
    StopTproxyClean(foot, c, k, x, f);
    BothClean(foot, c, k, x, f);
    TunUndoingClean(foot, c, f);
    NothingIsClean(foot);
  }

  lemma UndoingClean(c: Config, k: Capabilities, x: Context, f: Family, early: bool)
    ensures CleanAll(Footprint(Undoing(c, k, x, f, early)), Undoing(c, k, x, f, early))
  {
    hide *;
    UndoingShaped(c, k, x, f, early);
    FootprintShaped(f, Undoing(c, k, x, f, early));
    UndoingCleanAt(Footprint(Undoing(c, k, x, f, early)), c, k, x, f, early);
  }

  lemma SetupWithin(c: Config, k: Capabilities, x: Context, f: Family, early: bool)
    requires Undoes(c, f, early)
    ensures PermitsAll(f, Footprint(Undoing(c, k, x, f, early)), ModeSetup(c, k, x, f))
  {
    var stop := Undoing(c, k, x, f, early);
    UndoingShaped(c, k, x, f, early);
    hide Footprint, ShapedSteps, Permits, StopRedirect, StopTproxy, StopTunBypass, ForwardCleanup, StartRedirect,
      StartTproxy, StartTunBypass, ForwardSetup, Rollback.Cleanups;
    if c.mode.RedirectOnly? || c.mode.Enhance? {
      StartRedirectPermitted(f, stop, c, k, x);
    }
    if c.mode.TproxyOnly? || c.mode.Enhance? {
      StartTproxyPermitted(f, stop, c, k, x);
    }
    if c.mode.Tun? {
      ForwardPermitted(f, stop, c);
      TunPermitted(f, stop, c, k, x);
      StopTunPermitted(f, stop);
    }
  }

  /** A setup that failed is undone within its session exactly if its record is recoverable. */
  lemma FailureUndoneExactly(refused: set<Rule>, w: World, v: World, c: Config, k: Capabilities, x: Context, f: Family, buffered: bool,
                             issued: seq<Step>, early: bool, ok: bool)
    requires Concluded(refused, w, v, c, k, x, f, buffered, issued, false, early, ok) && Undoes(c, f, early)
    requires PristineWorld(w, f, Footprint(Undoing(c, k, x, f, early)))
    ensures v == w <==> Recoverable(refused, RunOf(refused, Opened(w, f, buffered), issued))
  {
    var stop, h0 := Undoing(c, k, x, f, early), Opened(w, f, buffered);
    assert v == EndOf(refused, RunOf(refused, h0, issued + stop)).held.kernel && issued <= ModeSetup(c, k, x, f);
    assert forall s :: s in issued ==> s in ModeSetup(c, k, x, f);
    hide *;
    RunTogether(refused, h0, issued, stop);
    SetupWithin(c, k, x, f, early);
    assert PermitsAll(f, Footprint(stop), issued);
    UndoingShaped(c, k, x, f, early);
    UndoingClean(c, k, x, f, early);
    InsideWorldStart(w, f, Footprint(stop));
    OpenedHeld(w, w, f, buffered, Footprint(stop));
    var luck := seq(|issued|, _ => Tried(refused));
    FollowingHeld(w, h0, f, Footprint(stop), issued, luck);
    SteadyRun(refused, h0, issued);
    RollbackRestoresExactly(refused, w, RunOf(refused, h0, issued), f, stop);
  }

  /** Where IPv6 TPROXY fails and the apply goes on, nothing of it is left. */
  lemma SkippedRestores(refused: set<Rule>, w: World, v: World, c: Config, k: Capabilities, x: Context, f: Family, buffered: bool,
                        issued: seq<Step>, early: bool)
    requires Concluded(refused, w, v, c, k, x, f, buffered, issued, false, early, true) && c.mode == TproxyOnly
    requires PristineWorld(w, f, Footprint(Undoing(c, k, x, f, early)))
    ensures v == w
  {
    var stop, h0 := Undoing(c, k, x, f, early), Opened(w, f, buffered);
    assert EndOf(refused, RunOf(refused, h0, issued + stop)).ok && issued <= ModeSetup(c, k, x, f);
    assert forall s :: s in issued ==> s in ModeSetup(c, k, x, f);
    assert Undoes(c, f, early);
    hide *;
    FailureUndoneExactly(refused, w, v, c, k, x, f, buffered, issued, early, true);
    RunTogether(refused, h0, issued, stop);
    SetupWithin(c, k, x, f, early);
    assert PermitsAll(f, Footprint(stop), issued);
    UndoingShaped(c, k, x, f, early);
    InsideWorldStart(w, f, Footprint(stop));
    OpenedHeld(w, w, f, buffered, Footprint(stop));
    FollowingHeld(w, h0, f, Footprint(stop), issued, seq(|issued|, _ => Tried(refused)));
    SteadyRun(refused, h0, issued);
    FlushedWasRecoverable(refused, w, RunOf(refused, h0, issued), f, Footprint(stop), stop);
  }

  // ----- the families apart -----

  ghost predicate Elsewhere(w: World, v: World, f: Family) { forall g | g != f :: (g in w <==> g in v) && (g in w ==> w[g] == v[g]) }

  /** A session of one family: it has left the other's tables as they were. */
  ghost predicate Confined(w: World, h: Held, f: Family) {
    Elsewhere(w, h.kernel, f) && (h.batch.Some? ==> h.batch.value.family == f)
  }

  lemma {:induction false} ConfinedFlushFrom(refused: set<Rule>, w0: World, w: World, b: RuleBatch, i: nat, f: Family)
    requires i <= 3 && Confined(w0, Held(w, Some(b)), f)
    ensures Confined(w0, FlushFrom(refused, w, b, i).held, f)
    decreases 3 - i
  {
    if i < 3 && !Idle(Pending(b, FLUSH_ORDER[i])) {
      var t := FLUSH_ORDER[i];
      var e := FlushedTable(refused, w, f, t, b.tables[t]);
      hide Reach, Declare, Restored, Done;
      ConfinedFlushFrom(refused, w0, e.world, Recording(b, t, Done(b.tables[t])), i + 1, f);
    } else if i < 3 {
      ConfinedFlushFrom(refused, w0, w, b, i + 1, f);
    }
  }

  lemma ConfinedFlush(refused: set<Rule>, w0: World, h: Held, f: Family)
    requires Confined(w0, h, f)
    ensures Confined(w0, FlushOf(refused, h).held, f)
  {
    hide FlushFrom, Elsewhere;
    if h.batch.Some? {
      ConfinedFlushFrom(refused, w0, h.kernel, h.batch.value, 0, f);
    }
  }

  lemma ConfinedWrite(refused: set<Rule>, w0: World, h: Held, f: Family, t: TableName, cmd: IptCmd)
    requires Confined(w0, h, f)
    ensures Confined(w0, h.(kernel := Silently(refused, h.kernel, f, t, cmd)), f)
    ensures Confined(w0, h.(kernel := Required(refused, h.kernel, f, t, cmd).world), f)
  {
    hide Ipt;
  }

  lemma ConfinedCommand(refused: set<Rule>, w0: World, h: Held, f: Family, t: TableName, cmd: IptCmd)
    requires Confined(w0, h, f)
    ensures Confined(w0, SilentOf(refused, h, f, t, cmd), f) && Confined(w0, OwnedOf(refused, h, f, t, cmd).held, f)
    ensures cmd.Append? || cmd.Insert? ==> Confined(w0, UnlessPresent(refused, h, f, t, cmd).held, f)
  {
    hide FlushOf, Confined, Silently, Required, Checked;
    var o := FlushOf(refused, h).held;
    ConfinedFlush(refused, w0, h, f);
    ConfinedWrite(refused, w0, o, f, t, cmd);
    ConfinedFlush(refused, w0, o, f);
    ConfinedWrite(refused, w0, FlushOf(refused, o).held, f, t, cmd);
  }

  lemma {:induction false} ConfinedFirstTaken(refused: set<Rule>, w0: World, h: Held, f: Family, t: TableName, c: string,
                                              rules: seq<Rule>, front: bool)
    requires Confined(w0, h, f)
    ensures Confined(w0, FirstTakenOf(refused, h, f, t, c, rules, front).held, f)
    decreases |rules|
  {
    hide Confined, OwnedOf;
    if rules != [] {
      var cmd := if front then Insert(c, rules[0]) else Append(c, rules[0]);
      ConfinedCommand(refused, w0, h, f, t, cmd);
      ConfinedFirstTaken(refused, w0, OwnedOf(refused, h, f, t, cmd).held, f, t, c, rules[1..], front);
    }
  }

  lemma {:induction false} ConfinedFirstEnsured(refused: set<Rule>, w0: World, h: Held, f: Family, t: TableName, c: string,
                                                rules: seq<Rule>)
    requires Confined(w0, h, f)
    ensures Confined(w0, FirstEnsuredOf(refused, h, f, t, c, rules).held, f)
    decreases |rules|
  {
    hide Confined, UnlessPresent;
    if rules != [] {
      ConfinedCommand(refused, w0, h, f, t, Append(c, rules[0]));
      ConfinedFirstEnsured(refused, w0, UnlessPresent(refused, h, f, t, Append(c, rules[0])).held, f, t, c, rules[1..]);
    }
  }

  lemma ConfinedNoted(w0: World, h: Held, f: Family, t: TableName, c: string, r: Rule)
    requires Confined(w0, h, f) && h.batch.Some?
    ensures Confined(w0, ChainRecorded(h, t, c), f) && Confined(w0, AppendRecordedIn(h, t, c, r), f)
  {
    hide Elsewhere;
  }

  lemma ConfinedEnsure(refused: set<Rule>, w0: World, h: Held, f: Family, t: TableName, c: string)
    requires Confined(w0, h, f)
    ensures Confined(w0, EnsureOf(refused, h, f, t, c).held, f)
  {
    hide Confined, SilentOf, OwnedOf, ChainRecorded, AppendRecordedIn, IsBoxCustomChain;
    if h.batch.Some? {
      ConfinedNoted(w0, h, f, t, c, Rule(Return));
    }
    ConfinedCommand(refused, w0, h, f, t, NewChain(c));
    ConfinedCommand(refused, w0, SilentOf(refused, h, f, t, NewChain(c)), f, t, Flush(c));
  }

  lemma ConfinedAppend(refused: set<Rule>, w0: World, h: Held, f: Family, t: TableName, c: string, r: Rule)
    requires Confined(w0, h, f)
    ensures Confined(w0, AppendOf(refused, h, f, t, c, r).held, f)
  {
    hide Confined, OwnedOf, UnlessPresent, ChainRecorded, AppendRecordedIn, IsBoxCustomChain;
    if h.batch.Some? {
      ConfinedNoted(w0, h, f, t, c, r);
    }
    ConfinedCommand(refused, w0, h, f, t, Append(c, r));
  }

  lemma {:induction false} ConfinedAppends(refused: set<Rule>, w0: World, h: Held, f: Family, t: TableName, c: string, rules: seq<Rule>)
    requires Confined(w0, h, f)
    ensures Confined(w0, AppendsOf(refused, h, f, t, c, rules), f)
    decreases |rules|
  {
    hide Confined, AppendOf;
    if rules != [] {
      ConfinedAppend(refused, w0, h, f, t, c, rules[0]);
      ConfinedAppends(refused, w0, AppendOf(refused, h, f, t, c, rules[0]).held, f, t, c, rules[1..]);
    }
  }

  lemma ConfinedRestore(refused: set<Rule>, w0: World, h: Held, f: Family, t: TableName, tb: TableBatch)
    requires Confined(w0, h, f)
    ensures Confined(w0, h.(kernel := FlushedTable(refused, h.kernel, f, t, tb).world), f)
  {
    hide Reach, Declare, Restored;
  }

  lemma ConfinedRebuild(refused: set<Rule>, w0: World, h: Held, f: Family, t: TableName, c: string, nets: seq<Net>, restoring: Restoring)
    requires Confined(w0, h, f)
    ensures Confined(w0, RebuildOf(refused, h, f, t, c, nets, restoring).held, f)
  {
    hide Confined, SilentOf, EnsureOf, AppendsOf, FlushedTable, AcceptPairs, IsLocalIp;
    var g := Prepared(refused, h, f, t, c, restoring);
    ConfinedCommand(refused, w0, h, f, t, NewChain(c));
    ConfinedRestore(refused, w0, g, f, t, Whole(c, nets));
    ConfinedEnsure(refused, w0, g, f, t, c);
    ConfinedAppends(refused, w0, EnsureOf(refused, g, f, t, c).held, f, t, c, AcceptPairs(nets));
  }

  lemma ConfinedStep(refused: set<Rule>, w0: World, h: Held, s: Step)
    requires Confined(w0, h, s.family)
    ensures Confined(w0, PerformOf(refused, h, s).held, s.family)
  {
    hide Confined, SilentOf, OwnedOf, UnlessPresent, FirstTakenOf, FirstEnsuredOf, EnsureOf, AppendOf, RebuildOf, FlushOf, IsBoxCustomChain;
    var f, t := s.family, s.table;
    match s.op
    case EnsureChain(c) => ConfinedEnsure(refused, w0, h, f, t, c);
    case EnsureAppend(c, r) => ConfinedAppend(refused, w0, h, f, t, c, r);
    case EnsureInsert(c, r) => ConfinedCommand(refused, w0, h, f, t, Insert(c, r));
    case EnsureJump(c, target) => ConfinedCommand(refused, w0, h, f, t, Insert(c, Rule(Jump(target))));
    case DelRule(c, r) => ConfinedCommand(refused, w0, h, f, t, Delete(c, r));
    case CleanupChain(c) =>
      ConfinedCommand(refused, w0, h, f, t, Flush(c));
      ConfinedCommand(refused, w0, SilentOf(refused, h, f, t, Flush(c)), f, t, DeleteChain(c));
    case InsertFirst(c, rules, fallback) =>
      ConfinedFirstTaken(refused, w0, h, f, t, c, rules, true);
      if fallback.Some? {
        ConfinedCommand(refused, w0, FirstTakenOf(refused, h, f, t, c, rules, true).held, f, t, Insert(c, fallback.value));
      }
    case AppendFirst(c, rules) => ConfinedFirstTaken(refused, w0, h, f, t, c, rules, false);
    case EnsureFirst(c, rules) => ConfinedFirstEnsured(refused, w0, h, f, t, c, rules);
    case Rebuild(c, nets, restoring) => ConfinedRebuild(refused, w0, h, f, t, c, nets, restoring);
    case Sync(_) => ConfinedFlush(refused, w0, h, f);
  }

  lemma {:induction false} ConfinedRun(refused: set<Rule>, w0: World, h: Held, f: Family, steps: seq<Step>)
    requires Confined(w0, h, f) && forall s :: s in steps ==> s.family == f
    ensures Confined(w0, RunOf(refused, h, steps), f)
    decreases |steps|
  {
    hide Confined, PerformOf;
    if steps != [] {
      assert steps[0] in steps && forall s :: s in steps[1..] ==> s in steps;
      ConfinedStep(refused, w0, h, steps[0]);
      ConfinedRun(refused, w0, PerformOf(refused, h, steps[0]).held, f, steps[1..]);
    }
  }

  /** A family's session leaves the other family's tables alone. */
  lemma ConcludedElsewhere(refused: set<Rule>, w: World, v: World, c: Config, k: Capabilities, x: Context, f: Family, buffered: bool,
                           issued: seq<Step>, whole: bool, early: bool, ok: bool)
    requires Concluded(refused, w, v, c, k, x, f, buffered, issued, whole, early, ok)
    ensures Elsewhere(w, v, f)
  {
    var steps := issued + if whole then [] else Undoing(c, k, x, f, early);
    hide ModeSetup, RunOf, FlushOf, OksOf, NeededOk, StartRedirect, Undoing;
    SetupFamily(c, k, x, f);
    UndoingShaped(c, k, x, f, early);
    assert forall s :: s in steps ==> s.family == f;
    ConfinedRun(refused, w, Opened(w, f, buffered), f, steps);
    ConfinedFlush(refused, w, RunOf(refused, Opened(w, f, buffered), steps), f);
  }

  lemma InstalledStays(refused: set<Rule>, w: World, v: World, u: World, c: Config, k: Capabilities, x: Context, f: Family, g: Family)
    requires Installed(refused, w, v, c, k, x, f) && f != g && Elsewhere(v, u, g)
    ensures Installed(refused, w, u, c, k, x, f)
  {
    hide ModeSetup, DirectRun, Acceptable, Alike;
  }

  // ----- the code -----

  lemma WriterWent(writer: RuleWriter)
    requires writer.Valid()
    ensures writer.manager.Valid() && writer.issued <= writer.script
    ensures writer.manager.State() == RunOf(writer.manager.refused, writer.start, writer.issued)
    ensures !writer.failed ==>
      writer.issued == writer.script && NeededOk(writer.issued, OksOf(writer.manager.refused, writer.start, writer.issued))
  {
    hide RunOf, OksOf, NeededOk;
  }

  lemma SessionOver(m: RuleManager, h: Held, flushed: bool)
    requires Turn(m.State(), flushed) == EndOf(m.refused, h)
    ensures m.batch == None && Turn(Held(m.kernel, None), flushed) == EndOf(m.refused, h)
  {
    hide FlushOf;
  }

  lemma RedirectFirst(c: Config, k: Capabilities, x: Context, f: Family)
    requires c.mode == Enhance
    ensures StartRedirect(c, k, x, f) <= ModeSetup(c, k, x, f)
  {
    hide StartRedirect, StartTproxy;
  }

  lemma Conclude(refused: set<Rule>, w: World, v: World, c: Config, k: Capabilities, x: Context, f: Family, buffered: bool,
                 issued: seq<Step>, whole: bool, early: bool, ok: bool, flushed: bool)
    requires var undo := if whole then [] else Undoing(c, k, x, f, early);
      Turn(Held(v, None), flushed) == EndOf(refused, RunOf(refused, Opened(w, f, buffered), issued + undo))
    requires issued <= (if early then StartRedirect(c, k, x, f) else ModeSetup(c, k, x, f))
    requires whole ==> issued == ModeSetup(c, k, x, f) && NeededOk(issued, OksOf(refused, Opened(w, f, buffered), issued))
    requires early ==> c.mode == Enhance && !whole
    requires !early && c.mode == Enhance ==> StartRedirect(c, k, x, f) <= issued
    requires ok == ((whole || Excused(c, f, early)) && flushed)
    ensures Concluded(refused, w, v, c, k, x, f, buffered, issued, whole, early, ok)
  {
    hide ModeSetup, RunOf, EndOf, OksOf, NeededOk, StartRedirect, Undoing, Excused;
    if early {
      RedirectFirst(c, k, x, f);
    }
  }

  lemma ConcludedMeans(refused: set<Rule>, w: World, v: World, c: Config, k: Capabilities, x: Context, f: Family, buffered: bool,
                       issued: seq<Step>, whole: bool, early: bool, ok: bool)
    requires Concluded(refused, w, v, c, k, x, f, buffered, issued, whole, early, ok)
    ensures ok && whole ==> Installed(refused, w, v, c, k, x, f)
    ensures ok && !whole ==> f == V6 && (c.mode == TproxyOnly || c.mode == Enhance)
    ensures ok && !whole && c.mode == TproxyOnly && PristineWorld(w, f, Footprint(StopTproxy(c, k, x, f))) ==> v == w
    ensures PristineWorld(w, f, Footprint(ModeStop(c, k, x, f))) ==> forall taken :: DirectRun(taken, v, ModeStop(c, k, x, f)) == w
  {
    assert ok && !whole ==> Excused(c, f, early);
    assert c.mode == TproxyOnly ==> Undoing(c, k, x, f, early) == StopTproxy(c, k, x, f);
    hide Concluded, Installed, PristineWorld, Footprint, StopTproxy, ModeStop, DirectRun, Undoing;
    if ok && whole {
      WholeInstalls(refused, w, v, c, k, x, f, buffered, issued, early);
    }
    if ok && !whole && c.mode == TproxyOnly && PristineWorld(w, f, Footprint(StopTproxy(c, k, x, f))) {
      SkippedRestores(refused, w, v, c, k, x, f, buffered, issued, early);
    }
    if PristineWorld(w, f, Footprint(ModeStop(c, k, x, f))) {
      forall taken ensures DirectRun(taken, v, ModeStop(c, k, x, f)) == w {
        ConcludedCleared(refused, w, v, c, k, x, f, buffered, issued, whole, early, ok, taken);
      }
    }
  }

  /**
   A family's session.  Where it succeeds with the whole setup, the mode is installed;
   where it succeeds without, TPROXY over IPv6 was given up and, if it was all there
   was to set up, nothing of it is left; and however it went, the mode's cleanup
   restores the tables.
   */
  method ApplySession(m: RuleManager, c: Config, k: Capabilities, x: Context, f: Family)
    returns (ok: bool, whole: bool, early: bool, ghost issued: seq<Step>)
    requires m.Valid() && m.batch == None
    modifies m
    ensures m.Valid() && m.batch == None
    ensures Concluded(m.refused, old(m.kernel), m.kernel, c, k, x, f, RestoreSupported(k, f), issued, whole, early, ok)
    ensures ok && whole ==> Installed(m.refused, old(m.kernel), m.kernel, c, k, x, f)
    ensures ok && !whole ==> f == V6 && (c.mode == TproxyOnly || c.mode == Enhance)
    ensures ok && !whole && c.mode == TproxyOnly && PristineWorld(old(m.kernel), f, Footprint(StopTproxy(c, k, x, f))) ==>
      m.kernel == old(m.kernel)
    ensures PristineWorld(old(m.kernel), f, Footprint(ModeStop(c, k, x, f))) ==>
      forall taken :: DirectRun(taken, m.kernel, ModeStop(c, k, x, f)) == old(m.kernel)
  {
    hide *;
    var restore := RestoreSupported(k, f);
    ghost var w, h := m.kernel, Opened(m.kernel, f, restore);
    m.BeginBatch(f, restore);
    var writer := new RuleWriter(c, k, x, f, m);
    early := writer.ApplyFamily();
    WriterWent(writer);
    whole := !writer.failed;
    issued := writer.issued;
    ghost var undo := if whole then [] else Undoing(c, k, x, f, early);
    RunTogether(m.refused, h, issued, undo);
    if !whole {
      var _ := m.RunSteps(Undoing(c, k, x, f, early));
    } else {
      assert issued + [] == issued;
    }
    var flushed := m.EndBatch();
    SessionOver(m, RunOf(m.refused, h, issued + undo), flushed);
    ok := (whole || Excused(c, f, early)) && flushed;
    Conclude(m.refused, w, m.kernel, c, k, x, f, restore, issued, whole, early, ok, flushed);
    ConcludedMeans(m.refused, w, m.kernel, c, k, x, f, restore, issued, whole, early, ok);
  }

  lemma NothingDone(c: Config, k: Capabilities, x: Context, w: World, f: Family)
    ensures HalfFits(c, k, x, f, Nothing()) && Aftermath(w, f, Nothing().steps, Nothing().course) == w
  {
  }

  lemma AppliedIs(w: World, c: Config, k: Capabilities, x: Context, four: Half, six: Half)
    requires HalfFits(c, k, x, V4, four) && HalfFits(c, k, x, V6, six)
    ensures var v := Aftermath(w, V4, four.steps, four.course);
      Applied(w, c, k, x, four, six) == if c.ipv6 then Aftermath(v, V6, six.steps, six.course) else v
  {
  }

  /** What the IPv6 session of an apply may leave. */
  ghost predicate SecondLeft(refused: set<Rule>, w: World, v: World, c: Config, k: Capabilities, x: Context, skipped: bool) {
    if skipped
    then c.mode == Enhance || (c.mode == TproxyOnly && (PristineWorld(w, V6, Footprint(StopTproxy(c, k, x, V6))) ==> v == w))
    else Installed(refused, w, v, c, k, x, V6)
  }

  lemma SecondIs(refused: set<Rule>, w: World, v: World, c: Config, k: Capabilities, x: Context, skipped: bool, ok: bool)
    requires ok && !skipped ==> Installed(refused, w, v, c, k, x, V6)
    requires ok && skipped ==> c.mode == TproxyOnly || c.mode == Enhance
    requires ok && skipped && c.mode == TproxyOnly && PristineWorld(w, V6, Footprint(StopTproxy(c, k, x, V6))) ==> v == w
    ensures ok ==> SecondLeft(refused, w, v, c, k, x, skipped)
  {
    hide Installed, PristineWorld, Footprint, StopTproxy;
  }

  /**
   Both families, one after the other.  The tables are those of an apply of Lifecycle;
   a success has installed the mode for IPv4, and for IPv6, where that is on, unless
   TPROXY was given up there.
   */
  method ApplyDualStack(m: RuleManager, c: Config, k: Capabilities, x: Context)
    returns (ok: bool, skipped: bool, ghost four: Half, ghost six: Half)
    requires m.Valid() && m.batch == None
    modifies m
    ensures m.Valid() && m.batch == None
    ensures HalfFits(c, k, x, V4, four) && HalfFits(c, k, x, V6, six) && m.kernel == Applied(old(m.kernel), c, k, x, four, six)
    ensures ok ==> Installed(m.refused, old(m.kernel), m.kernel, c, k, x, V4)
    ensures ok && c.ipv6 ==>
      SecondLeft(m.refused, Aftermath(old(m.kernel), V4, four.steps, four.course), m.kernel, c, k, x, skipped)
  {
    hide *;
    ghost var w, restore4, restore6 := m.kernel, RestoreSupported(k, V4), RestoreSupported(k, V6);
    var whole, early;
    ghost var issued;
    ok, whole, early, issued := ApplySession(m, c, k, x, V4);
    skipped := false;
    four, six := Ended(m.refused, c, k, x, V4, restore4, issued, whole, early), Nothing();
    ghost var v := m.kernel;
    ConcludedFits(m.refused, w, v, c, k, x, V4, restore4, issued, whole, early, ok);
    NothingDone(c, k, x, v, V6);
    AppliedIs(w, c, k, x, four, six);
    if ok && c.ipv6 {
      ok, whole, early, issued := ApplySession(m, c, k, x, V6);
      skipped := !whole;
      six := Ended(m.refused, c, k, x, V6, restore6, issued, whole, early);
      ConcludedFits(m.refused, v, m.kernel, c, k, x, V6, restore6, issued, whole, early, ok);
      AppliedIs(w, c, k, x, four, six);
      ConcludedElsewhere(m.refused, v, m.kernel, c, k, x, V6, restore6, issued, whole, early, ok);
      InstalledStays(m.refused, w, v, m.kernel, c, k, x, V4, V6);
      SecondIs(m.refused, v, m.kernel, c, k, x, skipped, ok);
    }
  }
}
