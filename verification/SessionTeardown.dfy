/**
 Teardown after sessions.  A setup runs as a batch session that the kernel may cut
 short anywhere: an operation may not be carried out, a flush may stop half way,
 its record is kept and tried again before every later command and once more at
 the end, and a failing setup is rolled back while its session is still open.
 Whatever comes of it stays within the footprint of the matching teardown, which
 therefore restores the tables exactly.
 */
module SessionTeardown {
  import opened Bytes
  import opened Netfilter
  import opened Batching
  import opened RuleConfig
  import opened Teardown

  // ----- a record within a footprint -----

  predicate Recordable(foot: Foot, t: TableName, tb: TableBatch) {
    && (forall c | c in tb.decls :: (t, c) in foot.live)
    && (forall a | a in tb.appends :: (t, a.0) in foot.live && OwnRule(foot, t, a.0, a.1))
  }

  /** The tables are `w0` plus part of the footprint, and so is what is still pending. */
  ghost predicate HeldInside(w0: World, h: Held, f: Family, foot: Foot) {
    && InsideWorld(w0, h.kernel, f, foot)
    && (h.batch.Some? ==> h.batch.value.family == f && forall t :: Recordable(foot, t, Pending(h.batch.value, t)))
  }

  lemma {:induction false} DeclareInside(a: Chains, b: Chains, live: set<string>, hooks: set<(string, Rule)>, decls: seq<string>)
    requires Inside(a, b, live, hooks) && forall c :: c in decls ==> c in live
    ensures Inside(a, Declare(b, decls), live, hooks)
    decreases |decls|
  {
    hide Inside;
    if decls != [] {
      OwnChainSet(a, b, live, hooks, decls[0], []);
      DeclareInside(a, b[decls[0] := []], live, hooks, decls[1..]);
    }
  }

  lemma {:induction false} ReachInside(refused: set<Rule>, a: Chains, b: Chains, live: set<string>, hooks: set<(string, Rule)>,
                                       appends: seq<(string, Rule)>)
    requires Inside(a, b, live, hooks) && forall x :: x in appends ==> x.0 in live && OwnRuleIn(live, hooks, x.0, x.1)
    ensures Inside(a, Reach(refused, b, appends), live, hooks)
    decreases |appends|
  {
    hide Inside, Ipt, OwnRuleIn;
    if appends != [] {
      var x := appends[0];
      assert x in appends && forall y :: y in appends[1..] ==> y in appends;
      TableRuleAdded(refused, a, b, live, hooks, x.0, x.1);
      ReachInside(refused, a, Ipt(refused, b, Append(x.0, x.1)).GetOr(b), live, hooks, appends[1..]);
    }
  }

  lemma RecordableHere(foot: Foot, t: TableName, tb: TableBatch)
    requires Recordable(foot, t, tb)
    ensures forall c :: c in tb.decls ==> c in LiveIn(foot, t)
    ensures forall x :: x in tb.appends ==> x.0 in LiveIn(foot, t) && OwnRuleIn(LiveIn(foot, t), HooksIn(foot, t), x.0, x.1)
  {
    hide Edge;
  }

  lemma FlushedTableInside(refused: set<Rule>, w0: World, w: World, f: Family, foot: Foot, t: TableName, tb: TableBatch)
    requires InsideWorld(w0, w, f, foot) && Recordable(foot, t, tb)
    ensures InsideWorld(w0, FlushedTable(refused, w, f, t, tb).world, f, foot)
  {
    if t in TablesOf(w, f) {
      hide Inside, Reach, Declare, Recordable, OwnRuleIn;
      RecordableHere(foot, t, tb);
      DeclareInside(w0[f][t], w[f][t], LiveIn(foot, t), HooksIn(foot, t), tb.decls);
      ReachInside(refused, w0[f][t], Declare(w[f][t], tb.decls), LiveIn(foot, t), HooksIn(foot, t), tb.appends);
      TableChanged(w0, w, f, foot, t, Reach(refused, Declare(w[f][t], tb.decls), tb.appends));
    }
  }

  lemma PendingRecorded(b: RuleBatch, t: TableName, tb: TableBatch)
    ensures forall u :: Pending(Recording(b, t, tb), u) == if u == t then tb else Pending(b, u)
  {
  }

  lemma HeldNext(w0: World, h: Held, f: Family, foot: Foot, w: World, t: TableName, tb: TableBatch)
    requires HeldInside(w0, h, f, foot) && h.batch.Some? && InsideWorld(w0, w, f, foot) && Recordable(foot, t, tb)
    ensures HeldInside(w0, Held(w, Some(Recording(h.batch.value, t, tb))), f, foot)
  {
    PendingRecorded(h.batch.value, t, tb);
    hide InsideWorld, Recordable, Pending;
  }

  lemma KernelInside(w0: World, h: Held, f: Family, foot: Foot, v0: World, w: World)
    requires HeldInside(w0, h, f, foot) && InsideWorld(v0, w, f, foot)
    ensures HeldInside(v0, h.(kernel := w), f, foot)
  {
    hide InsideWorld, Recordable;
  }

  lemma RecordHeld(w0: World, h: Held, f: Family, foot: Foot, t: TableName)
    requires HeldInside(w0, h, f, foot) && h.batch.Some?
    ensures h.batch.value.family == f && Recordable(foot, t, Pending(h.batch.value, t)) && Recordable(foot, t, Done(Pending(h.batch.value, t)))
    ensures InsideWorld(w0, h.kernel, f, foot)
  {
    hide OwnRule, InsideWorld;
  }

  /** One table of a flush, whether it succeeds or stops. */
  lemma FlushStepInside(refused: set<Rule>, w0: World, w: World, b: RuleBatch, t: TableName, f: Family, foot: Foot)
    requires HeldInside(w0, Held(w, Some(b)), f, foot)
    ensures var e := FlushedTable(refused, w, b.family, t, Pending(b, t));
      && HeldInside(w0, Held(e.world, Some(b)), f, foot)
      && HeldInside(w0, Held(e.world, Some(Recording(b, t, Done(Pending(b, t))))), f, foot)
  {
    hide *;
    var tb := Pending(b, t);
    var e := FlushedTable(refused, w, f, t, tb);
    RecordHeld(w0, Held(w, Some(b)), f, foot, t);
    FlushedTableInside(refused, w0, w, f, foot, t, tb);
    KernelInside(w0, Held(w, Some(b)), f, foot, w0, e.world);
    HeldNext(w0, Held(w, Some(b)), f, foot, e.world, t, Done(tb));
  }

  lemma {:induction false} FlushFromInside(refused: set<Rule>, w0: World, w: World, b: RuleBatch, i: nat, f: Family, foot: Foot)
    requires i <= 3 && HeldInside(w0, Held(w, Some(b)), f, foot)
    ensures HeldInside(w0, FlushFrom(refused, w, b, i).held, f, foot)
    decreases 3 - i
  {
    hide HeldInside, FlushedTable, Done, Recording;
    if i < 3 {
      var t := FLUSH_ORDER[i];
      if Idle(Pending(b, t)) {
        FlushFromInside(refused, w0, w, b, i + 1, f, foot);
      } else {
        FlushStepInside(refused, w0, w, b, t, f, foot);
        var e := FlushedTable(refused, w, b.family, t, b.tables[t]);
        if e.ok {
          FlushFromInside(refused, w0, e.world, Recording(b, t, Done(b.tables[t])), i + 1, f, foot);
        }
      }
    }
  }

  /** A flush stays inside, whether it succeeds or stops. */
  lemma FlushInside(refused: set<Rule>, w0: World, h: Held, f: Family, foot: Foot)
    requires HeldInside(w0, h, f, foot)
    ensures HeldInside(w0, FlushOf(refused, h).held, f, foot)
  {
    if h.batch.Some? {
      FlushFromInside(refused, w0, h.kernel, h.batch.value, 0, f, foot);
    }
  }

  lemma {:induction false} FlushedFromCalm(refused: set<Rule>, w: World, b: RuleBatch, i: nat)
    requires i <= 3 && FlushFrom(refused, w, b, i).ok && forall t :: !Later(t, i) ==> Idle(Pending(b, t))
    ensures Calm(FlushFrom(refused, w, b, i).held)
    decreases 3 - i
  {
    hide FlushedTable;
    if i == 3 {
      assert forall t :: t in b.tables ==> !Later(t, 3) && Pending(b, t) == b.tables[t];
    } else {
      var t := FLUSH_ORDER[i];
      assert Later(t, i) && !Later(t, i + 1) && forall u :: u != t ==> Later(u, i) == Later(u, i + 1);
      if Idle(Pending(b, t)) {
        FlushedFromCalm(refused, w, b, i + 1);
      } else {
        DoneMeans(b.tables[t]);
        PendingRecorded(b, t, Done(b.tables[t]));
        hide Done, Pending, Recording, Idle;
        FlushedFromCalm(refused, FlushedTable(refused, w, b.family, t, b.tables[t]).world, Recording(b, t, Done(b.tables[t])), i + 1);
      }
    }
  }

  /** A flush that succeeds leaves nothing pending. */
  lemma FlushedCalm(refused: set<Rule>, h: Held)
    requires FlushOf(refused, h).ok
    ensures Calm(FlushOf(refused, h).held)
  {
    if h.batch.Some? {
      assert forall t :: Later(t, 0);
      FlushedFromCalm(refused, h.kernel, h.batch.value, 0);
    }
  }

  // ----- commands of a session -----

  /** A command after a flush; where a required one is not run, the failed flush is all there is. */
  lemma CommandHeld(refused: set<Rule>, w0: World, h: Held, f: Family, foot: Foot, t: TableName, cmd: IptCmd)
    requires HeldInside(w0, h, f, foot)
    requires var o := FlushOf(refused, h).held; InsideWorld(w0, Silently(refused, o.kernel, f, t, cmd), f, foot)
    ensures HeldInside(w0, SilentOf(refused, h, f, t, cmd), f, foot) && HeldInside(w0, OwnedOf(refused, h, f, t, cmd).held, f, foot)
  {
    hide HeldInside, InsideWorld, Silently, Required, FlushOf;
    var o := FlushOf(refused, h).held;
    FlushInside(refused, w0, h, f, foot);
    KernelInside(w0, o, f, foot, w0, Silently(refused, o.kernel, f, t, cmd));
    RequiredIsSilent(refused, o.kernel, f, t, cmd);
  }

  lemma HeldHasInside(w0: World, h: Held, f: Family, foot: Foot)
    requires HeldInside(w0, h, f, foot)
    ensures InsideWorld(w0, h.kernel, f, foot)
  {
  }

  lemma ChainHeld(refused: set<Rule>, w0: World, h: Held, f: Family, foot: Foot, t: TableName, c: string)
    requires HeldInside(w0, h, f, foot) && (t, c) in foot.live
    ensures HeldInside(w0, SilentOf(refused, h, f, t, NewChain(c)), f, foot)
    ensures HeldInside(w0, SilentOf(refused, h, f, t, Flush(c)), f, foot)
    ensures HeldInside(w0, SilentOf(refused, h, f, t, DeleteChain(c)), f, foot)
    ensures HeldInside(w0, OwnedOf(refused, h, f, t, Flush(c)).held, f, foot)
  {
    hide *;
    var o := FlushOf(refused, h).held;
    FlushInside(refused, w0, h, f, foot);
    HeldHasInside(w0, o, f, foot);
    OwnChainTouched(refused, w0, o.kernel, f, foot, t, c);
    CommandHeld(refused, w0, h, f, foot, t, NewChain(c));
    CommandHeld(refused, w0, h, f, foot, t, Flush(c));
    CommandHeld(refused, w0, h, f, foot, t, DeleteChain(c));
  }

  lemma OwnRuleHeld(refused: set<Rule>, w0: World, h: Held, f: Family, foot: Foot, t: TableName, c: string, r: Rule)
    requires HeldInside(w0, h, f, foot) && (t, c) in foot.live && OwnRule(foot, t, c, r)
    ensures HeldInside(w0, OwnedOf(refused, h, f, t, Append(c, r)).held, f, foot)
    ensures HeldInside(w0, OwnedOf(refused, h, f, t, Insert(c, r)).held, f, foot)
  {
    hide *;
    var o := FlushOf(refused, h).held;
    FlushInside(refused, w0, h, f, foot);
    HeldHasInside(w0, o, f, foot);
    RuleAdded(refused, w0, o.kernel, f, foot, t, c, r);
    CommandHeld(refused, w0, h, f, foot, t, Append(c, r));
    CommandHeld(refused, w0, h, f, foot, t, Insert(c, r));
  }

  /** What a check and an addition come to: behind a failed flush a second one, which
      fails as well, so that a rule already there is never added again. */
  lemma UnlessPresentIs(refused: set<Rule>, h: Held, f: Family, t: TableName, cmd: IptCmd)
    requires cmd.Append? || cmd.Insert?
    ensures var o := FlushOf(refused, h);
      var w := o.held.kernel;
      UnlessPresent(refused, h, f, t, cmd).held
        == if !o.ok then FlushOf(refused, o.held).held
           else if Checked(w, f, t, cmd.chain, cmd.rule) then o.held
           else o.held.(kernel := Required(refused, w, f, t, cmd).world)
  {
    hide FlushOf, Required, Checked;
    var o := FlushOf(refused, h);
    if o.ok {
      FlushedCalm(refused, h);
      CalmFlush(refused, o.held);
    } else {
      FlushFailsAgain(refused, h);
    }
  }

  lemma UnlessPresentHeld(refused: set<Rule>, w0: World, h: Held, f: Family, foot: Foot, t: TableName, cmd: IptCmd)
    requires HeldInside(w0, h, f, foot) && (cmd.Append? || cmd.Insert?) && OwnRule(foot, t, cmd.chain, cmd.rule)
    ensures HeldInside(w0, UnlessPresent(refused, h, f, t, cmd).held, f, foot)
  {
    hide *;
    var o, c, r := FlushOf(refused, h), cmd.chain, cmd.rule;
    UnlessPresentIs(refused, h, f, t, cmd);
    FlushInside(refused, w0, h, f, foot);
    FlushInside(refused, w0, o.held, f, foot);
    if o.ok && !Checked(o.held.kernel, f, t, c, r) {
      HeldHasInside(w0, o.held, f, foot);
      RuleAdded(refused, w0, o.held.kernel, f, foot, t, c, r);
      RequiredIsSilent(refused, o.held.kernel, f, t, cmd);
      assert cmd == Append(c, r) || cmd == Insert(c, r);
      KernelInside(w0, o.held, f, foot, w0, Required(refused, o.held.kernel, f, t, cmd).world);
    }
  }

  lemma {:induction false} FirstTakenHeld(refused: set<Rule>, w0: World, h: Held, f: Family, foot: Foot, t: TableName,
                                          c: string, rules: seq<Rule>, front: bool)
    requires HeldInside(w0, h, f, foot) && (t, c) in foot.live && forall r | r in rules :: !r.target.Jump?
    ensures HeldInside(w0, FirstTakenOf(refused, h, f, t, c, rules, front).held, f, foot)
    decreases |rules|
  {
    hide HeldInside, OwnedOf;
    if rules != [] {
      assert rules[0] in rules;
      OwnRuleHeld(refused, w0, h, f, foot, t, c, rules[0]);
      var o := OwnedOf(refused, h, f, t, if front then Insert(c, rules[0]) else Append(c, rules[0])).held;
      FirstTakenHeld(refused, w0, o, f, foot, t, c, rules[1..], front);
    }
  }

  lemma {:induction false} FirstEnsuredHeld(refused: set<Rule>, w0: World, h: Held, f: Family, foot: Foot, t: TableName,
                                            c: string, rules: seq<Rule>)
    requires HeldInside(w0, h, f, foot) && forall r | r in rules :: OwnRule(foot, t, c, r)
    ensures HeldInside(w0, FirstEnsuredOf(refused, h, f, t, c, rules).held, f, foot)
    decreases |rules|
  {
    hide HeldInside, UnlessPresent, OwnRule;
    if rules != [] {
      assert rules[0] in rules;
      UnlessPresentHeld(refused, w0, h, f, foot, t, Append(c, rules[0]));
      FirstEnsuredHeld(refused, w0, UnlessPresent(refused, h, f, t, Append(c, rules[0])).held, f, foot, t, c, rules[1..]);
    }
  }

  lemma HookDeletedHeld(refused: set<Rule>, w0: World, h: Held, f: Family, foot: Foot, t: TableName, c: string, r: Rule)
    requires HeldInside(w0, h, f, foot) && (t, c) !in foot.live && (t, c, r) in foot.hooks
    ensures HeldInside(w0, SilentOf(refused, h, f, t, Delete(c, r)), f, foot)
  {
    hide *;
    var o := FlushOf(refused, h).held;
    FlushInside(refused, w0, h, f, foot);
    HeldHasInside(w0, o, f, foot);
    HookOnlyDeleted(refused, w0, o.kernel, f, foot, t, c, r);
    CommandHeld(refused, w0, h, f, foot, t, Delete(c, r));
  }

  lemma NotedHeld(w0: World, h: Held, f: Family, foot: Foot, t: TableName, c: string, r: Rule)
    requires HeldInside(w0, h, f, foot) && h.batch.Some? && (t, c) in foot.live
    ensures HeldInside(w0, ChainRecorded(h, t, c), f, foot)
    ensures OwnRule(foot, t, c, r) ==> HeldInside(w0, AppendRecordedIn(h, t, c, r), f, foot)
  {
    RecordHeld(w0, h, f, foot, t);
    RecordsMore(foot, t, Pending(h.batch.value, t), c, r);
    hide HeldInside, InsideWorld, OwnRule, Recordable, RecordChain, RecordAppend;
    HeldNext(w0, h, f, foot, h.kernel, t, RecordChain(Pending(h.batch.value, t), c));
    if OwnRule(foot, t, c, r) {
      HeldNext(w0, h, f, foot, h.kernel, t, RecordAppend(Pending(h.batch.value, t), c, r));
    }
  }

  lemma RecordsMore(foot: Foot, t: TableName, tb: TableBatch, c: string, r: Rule)
    requires Recordable(foot, t, tb) && (t, c) in foot.live
    ensures Recordable(foot, t, RecordChain(tb, c))
    ensures OwnRule(foot, t, c, r) ==> Recordable(foot, t, RecordAppend(tb, c, r))
  {
    hide OwnRule;
  }

  lemma EnsureHeld(refused: set<Rule>, w0: World, h: Held, f: Family, foot: Foot, t: TableName, c: string)
    requires HeldInside(w0, h, f, foot) && (t, c) in foot.live
    ensures HeldInside(w0, EnsureOf(refused, h, f, t, c).held, f, foot)
  {
    hide HeldInside, SilentOf, OwnedOf, ChainRecorded, IsBoxCustomChain;
    if h.batch.Some? {
      NotedHeld(w0, h, f, foot, t, c, Rule(Return));
    }
    ChainHeld(refused, w0, h, f, foot, t, c);
    ChainHeld(refused, w0, SilentOf(refused, h, f, t, NewChain(c)), f, foot, t, c);
  }

  lemma AppendHeld(refused: set<Rule>, w0: World, h: Held, f: Family, foot: Foot, t: TableName, c: string, r: Rule)
    requires HeldInside(w0, h, f, foot) && OwnRule(foot, t, c, r) && (IsBoxCustomChain(c) ==> (t, c) in foot.live)
    ensures HeldInside(w0, AppendOf(refused, h, f, t, c, r).held, f, foot)
  {
    hide HeldInside, OwnedOf, UnlessPresent, AppendRecordedIn, IsBoxCustomChain, OwnRule;
    UnlessPresentHeld(refused, w0, h, f, foot, t, Append(c, r));
    if (t, c) in foot.live {
      if h.batch.Some? {
        NotedHeld(w0, h, f, foot, t, c, r);
      }
      OwnRuleHeld(refused, w0, h, f, foot, t, c, r);
    }
  }

  lemma {:induction false} AppendsHeld(refused: set<Rule>, w0: World, h: Held, f: Family, foot: Foot, t: TableName, c: string,
                                       rules: seq<Rule>)
    requires HeldInside(w0, h, f, foot) && (t, c) in foot.live && NoJumps(rules)
    ensures HeldInside(w0, AppendsOf(refused, h, f, t, c, rules), f, foot)
    decreases |rules|
  {
    hide HeldInside, AppendOf, NoJumps;
    if rules != [] {
      NoJumpsHead(rules);
      AppendHeld(refused, w0, h, f, foot, t, c, rules[0]);
      AppendsHeld(refused, w0, AppendOf(refused, h, f, t, c, rules[0]).held, f, foot, t, c, rules[1..]);
    }
  }

  lemma WholeRecordable(foot: Foot, t: TableName, c: string, nets: seq<Net>)
    requires (t, c) in foot.live
    ensures Recordable(foot, t, Whole(c, nets))
  {
    hide AcceptPairs;
    forall a | a in Whole(c, nets).appends ensures a.0 == c && !a.1.target.Jump? {
      assert a.1 in AcceptPairs(nets);
    }
  }

  /** A rebuild, whichever way it goes. */
  lemma RebuildHeld(refused: set<Rule>, w0: World, h: Held, f: Family, foot: Foot, t: TableName, c: string, nets: seq<Net>,
                    restoring: Restoring)
    requires HeldInside(w0, h, f, foot) && (t, c) in foot.live
    ensures HeldInside(w0, RebuildOf(refused, h, f, t, c, nets, restoring).held, f, foot)
  {
    var g := Prepared(refused, h, f, t, c, restoring);
    hide HeldInside, SilentOf, FlushedTable, EnsureOf, AppendsOf, IsLocalIp, AcceptPairs;
    ChainHeld(refused, w0, h, f, foot, t, c);
    assert HeldInside(w0, g, f, foot);
    HeldHasInside(w0, g, f, foot);
    WholeRecordable(foot, t, c, nets);
    FlushedTableInside(refused, w0, g.kernel, f, foot, t, Whole(c, nets));
    KernelInside(w0, g, f, foot, w0, FlushedTable(refused, g.kernel, f, t, Whole(c, nets)).world);
    EnsureHeld(refused, w0, g, f, foot, t, c);
    AppendsHeld(refused, w0, EnsureOf(refused, g, f, t, c).held, f, foot, t, c, AcceptPairs(nets));
  }

  /** An operation the footprint permits, in a session in any state. */
  lemma StepHeld(refused: set<Rule>, w0: World, h: Held, f: Family, foot: Foot, s: Step)
    requires HeldInside(w0, h, f, foot) && s.family == f && Permits(foot, s)
    ensures HeldInside(w0, PerformOf(refused, h, s).held, f, foot)
  {
    hide HeldInside, SilentOf, EnsureOf, AppendOf, RebuildOf, UnlessPresent, FirstTakenOf, FirstEnsuredOf, FlushOf, IsBoxCustomChain;
    var t := s.table;
    match s.op
    case EnsureChain(c) => EnsureHeld(refused, w0, h, f, foot, t, c);
    case EnsureAppend(c, r) => AppendHeld(refused, w0, h, f, foot, t, c, r);
    case Rebuild(c, nets, restoring) => RebuildHeld(refused, w0, h, f, foot, t, c, nets, restoring);
    case Sync(_) => FlushInside(refused, w0, h, f, foot);
    case EnsureInsert(c, r) => UnlessPresentHeld(refused, w0, h, f, foot, t, Insert(c, r));
    case EnsureJump(c, target) => UnlessPresentHeld(refused, w0, h, f, foot, t, Insert(c, Rule(Jump(target))));
    case InsertFirst(c, rules, fallback) =>
      FirstTakenHeld(refused, w0, h, f, foot, t, c, rules, true);
      if fallback.Some? {
        UnlessPresentHeld(refused, w0, FirstTakenOf(refused, h, f, t, c, rules, true).held, f, foot, t, Insert(c, fallback.value));
      }
    case AppendFirst(c, rules) => FirstTakenHeld(refused, w0, h, f, foot, t, c, rules, false);
    case EnsureFirst(c, rules) => FirstEnsuredHeld(refused, w0, h, f, foot, t, c, rules);
    case DelRule(c, r) => HookDeletedHeld(refused, w0, h, f, foot, t, c, r);
    case CleanupChain(c) =>
      ChainHeld(refused, w0, h, f, foot, t, c);
      ChainHeld(refused, w0, SilentOf(refused, h, f, t, Flush(c)), f, foot, t, c);
  }

  // ----- how a session may go -----

  /** How one operation may go: not at all, or with an arbitrary set of rules the
      kernel refuses just then. */
  datatype Luck = Skipped | Tried(refused: set<Rule>)

  /** How a session may go: buffered or not, each operation, and the flush at its end. */
  datatype Course = Course(buffered: bool, luck: seq<Luck>, last: set<Rule>)

  function Following(h: Held, steps: seq<Step>, luck: seq<Luck>): Held
    requires |luck| == |steps|
    decreases |steps|
  {
    if steps == [] then h else
      Following(match luck[0] case Skipped => h case Tried(refused) => PerformOf(refused, h, steps[0]).held, steps[1..], luck[1..])
  }

  /** The tables a session leaves. */
  function Aftermath(w: World, f: Family, steps: seq<Step>, course: Course): World
    requires |course.luck| == |steps|
  {
    EndOf(course.last, Following(Opened(w, f, course.buffered), steps, course.luck)).held.kernel
  }

  lemma {:induction false} FollowingHeld(w0: World, h: Held, f: Family, foot: Foot, steps: seq<Step>, luck: seq<Luck>)
    requires HeldInside(w0, h, f, foot) && PermitsAll(f, foot, steps) && |luck| == |steps|
    ensures HeldInside(w0, Following(h, steps, luck), f, foot)
    decreases |steps|
  {
    hide HeldInside, PerformOf, Permits;
    if steps != [] {
      var s := steps[0];
      assert s in steps && forall x :: x in steps[1..] ==> x in steps;
      var next := match luck[0] case Skipped => h case Tried(refused) => PerformOf(refused, h, s).held;
      if luck[0].Tried? {
        StepHeld(luck[0].refused, w0, h, f, foot, s);
      }
      FollowingHeld(w0, next, f, foot, steps[1..], luck[1..]);
    }
  }

  lemma OpenedHeld(w0: World, w: World, f: Family, buffered: bool, foot: Foot)
    requires InsideWorld(w0, w, f, foot)
    ensures HeldInside(w0, Opened(w, f, buffered), f, foot)
  {
    hide InsideWorld;
  }

  lemma AftermathInside(w0: World, w: World, f: Family, foot: Foot, steps: seq<Step>, course: Course)
    requires InsideWorld(w0, w, f, foot) && PermitsAll(f, foot, steps) && |course.luck| == |steps|
    ensures InsideWorld(w0, Aftermath(w, f, steps, course), f, foot)
  {
    hide HeldInside, InsideWorld, PermitsAll, Following, Opened, FlushOf;
    var h := Opened(w, f, course.buffered);
    OpenedHeld(w0, w, f, course.buffered, foot);
    FollowingHeld(w0, h, f, foot, steps, course.luck);
    FlushInside(course.last, w0, Following(h, steps, course.luck), f, foot);
    HeldHasInside(w0, FlushOf(course.last, Following(h, steps, course.luck)).held, f, foot);
  }

  // ----- teardown undoes setup -----

  /** From within a footprint the teardown it belongs to leads back to the start. */
  lemma TeardownRestores(refused: set<Rule>, w0: World, w: World, f: Family, stop: seq<Step>)
    requires PristineWorld(w0, f, Footprint(stop)) && InsideWorld(w0, w, f, Footprint(stop))
    requires (forall s | s in stop :: s.family == f) && CleanAll(Footprint(stop), stop)
    ensures DirectRun(refused, w, stop) == w0 && AllAccepted(refused, w, stop)
  {
    var foot := Footprint(stop);
    CleanRun(refused, w0, w, f, foot, foot, stop);
    AfterAllEmpty(foot, stop);
    NothingLeftInWorld(w0, DirectRun(refused, w, stop), f);
  }

  /**
   Teardown undoes setup: start from tables holding nothing the teardown deletes,
   run as a session, buffered or not, any operations that only add what the teardown
   names or delete it, with any of them skipped, any rules refused on the way and
   any flush stopping half way, then run the teardown.  The tables are what they
   were, and no chain deletion was refused.
   */
  lemma TeardownUndoes(refused: set<Rule>, w: World, f: Family, steps: seq<Step>, course: Course, stop: seq<Step>)
    requires PristineWorld(w, f, Footprint(stop)) && |course.luck| == |steps|
    requires PermitsAll(f, Footprint(stop), steps)
    requires (forall s | s in stop :: s.family == f) && CleanAll(Footprint(stop), stop)
    ensures DirectRun(refused, Aftermath(w, f, steps, course), stop) == w
    ensures AllAccepted(refused, Aftermath(w, f, steps, course), stop)
  {
    InsideWorldStart(w, f, Footprint(stop));
    AftermathInside(w, w, f, Footprint(stop), steps, course);
    TeardownRestores(refused, w, Aftermath(w, f, steps, course), f, stop);
  }

  // ----- particular courses -----

  /** The course of a session that runs to its end on one kernel. */
  function Steady(buffered: bool, n: nat, refused: set<Rule>): (c: Course)
    ensures |c.luck| == n
  {
    Course(buffered, seq(n, _ => Tried(refused)), refused)
  }

  lemma {:induction false} SteadyRun(refused: set<Rule>, h: Held, steps: seq<Step>)
    ensures Following(h, steps, seq(|steps|, _ => Tried(refused))) == RunOf(refused, h, steps)
    decreases |steps|
  {
    hide PerformOf;
    if steps != [] {
      assert seq(|steps|, _ => Tried(refused))[1..] == seq(|steps[1..]|, _ => Tried(refused));
      SteadyRun(refused, PerformOf(refused, h, steps[0]).held, steps[1..]);
    }
  }

  /** That course is what the rule manager goes through. */
  lemma SteadyIsSession(refused: set<Rule>, w: World, f: Family, buffered: bool, steps: seq<Step>)
    ensures Aftermath(w, f, steps, Steady(buffered, |steps|, refused))
         == EndOf(refused, RunOf(refused, Opened(w, f, buffered), steps)).held.kernel
  {
    SteadyRun(refused, Opened(w, f, buffered), steps);
  }

  /** Unbuffered, each operation is carried out on the tables or not at all. */
  function Attempt(w: World, steps: seq<Step>, luck: seq<Luck>): World
    requires |luck| == |steps|
    decreases |steps|
  {
    if steps == [] then w else
      var s := steps[0];
      Attempt(match luck[0] case Skipped => w case Tried(refused) => Direct(refused, w, s.family, s.table, s.op).world, steps[1..], luck[1..])
  }

  lemma {:induction false} UnbufferedFollowing(w: World, steps: seq<Step>, luck: seq<Luck>)
    requires |luck| == |steps|
    ensures Following(Held(w, None), steps, luck) == Held(Attempt(w, steps, luck), None)
    decreases |steps|
  {
    hide PerformOf, Direct;
    if steps != [] {
      var s := steps[0];
      if luck[0].Tried? {
        CalmIsDirect(luck[0].refused, Held(w, None), s);
        UnbufferedFollowing(Direct(luck[0].refused, w, s.family, s.table, s.op).world, steps[1..], luck[1..]);
      } else {
        UnbufferedFollowing(w, steps[1..], luck[1..]);
      }
    }
  }

  lemma UnbufferedAftermath(w: World, f: Family, steps: seq<Step>, luck: seq<Luck>, last: set<Rule>)
    requires |luck| == |steps|
    ensures Aftermath(w, f, steps, Course(false, luck, last)) == Attempt(w, steps, luck)
  {
    UnbufferedFollowing(w, steps, luck);
  }

  /** A session whose record is accepted is an unbuffered run that leaves out the
      repeated ensures. */
  lemma {:induction false} SessionIsAttempt(refused: set<Rule>, w: World, f: Family, buffered: bool, used: set<Place>, steps: seq<Step>)
    returns (luck: seq<Luck>)
    ensures |luck| == |steps| && SessionRun(refused, w, f, buffered, used, steps) == Attempt(w, steps, luck)
    ensures forall i :: 0 <= i < |luck| ==> luck[i] == Tried(refused) || (luck[i] == Skipped && steps[i].op.EnsureChain?)
    decreases |steps|
  {
    hide Direct;
    if steps == [] {
      luck := [];
    } else {
      var s := steps[0];
      var dropped := buffered && s.op.EnsureChain? && Ensured(f, s) != {} && Ensured(f, s) <= used;
      var rest := SessionIsAttempt(refused, Sessional(refused, w, f, buffered, used, s).world, f, buffered, used + Ensured(f, s), steps[1..]);
      luck := [if dropped then Skipped else Tried(refused)] + rest;
      assert luck[1..] == rest;
    }
  }
}
