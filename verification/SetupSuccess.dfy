/**
 Setups that report success.  A rule the kernel refuses makes every later flush of
 its session fail, the one at the end included; and in the compiler's scripts a
 refused rule or a missing table is all that can go wrong with what a session
 records.  So where a session reports no failure, everything was accepted, and the
 tables treat every packet as those of the unbuffered run do.
 */
module SetupSuccess {
  import opened Bytes
  import opened Netfilter
  import opened Batching
  import opened RuleConfig
  import opened RuleScripts
  import opened ChainContents
  import opened Teardown
  import opened SessionTeardown
  import opened TeardownModes
  import opened Sessions

  // ----- records that cannot be flushed any more -----

  /** A table's record that no kernel with these refusals takes: the table is
      missing, or one of the rules is refused. */
  ghost predicate DoomedAt(refused: set<Rule>, h: Held, t: TableName) {
    && h.batch.Some? && !Idle(Pending(h.batch.value, t))
    && (t !in TablesOf(h.kernel, h.batch.value.family) || exists a :: a in Pending(h.batch.value, t).appends && a.1 in refused)
  }

  ghost predicate Doomed(refused: set<Rule>, h: Held) { exists t :: DoomedAt(refused, h, t) }

  lemma {:induction false} RefusedReplay(refused: set<Rule>, chains: Chains, appends: seq<(string, Rule)>, a: (string, Rule))
    requires a in appends && a.1 in refused
    ensures Replay(refused, chains, appends) == None
    decreases |appends|
  {
    var next := Ipt(refused, chains, Append(appends[0].0, appends[0].1));
    if next.Some? {
      assert a != appends[0] && appends == [appends[0]] + appends[1..];
      RefusedReplay(refused, next.value, appends[1..], a);
    }
  }

  lemma FlushedKeys(refused: set<Rule>, w: World, f: Family, t: TableName, tb: TableBatch)
    ensures TablesOf(FlushedTable(refused, w, f, t, tb).world, f).Keys == TablesOf(w, f).Keys
  {
    hide Reach, Declare, Restored;
  }

  lemma DoomedTable(refused: set<Rule>, w: World, b: RuleBatch, t: TableName)
    requires DoomedAt(refused, Held(w, Some(b)), t)
    ensures !FlushedTable(refused, w, b.family, t, Pending(b, t)).ok
  {
    if t in TablesOf(w, b.family) {
      var a :| a in Pending(b, t).appends && a.1 in refused;
      RefusedReplay(refused, Declare(w[b.family][t], Pending(b, t).decls), Pending(b, t).appends, a);
    }
  }

  /** Neither other records nor other tables can help. */
  lemma DoomedStays(refused: set<Rule>, h: Held, g: Held, t: TableName)
    requires DoomedAt(refused, h, t) && g.batch.Some? && g.batch.value.family == h.batch.value.family
    requires Pending(g.batch.value, t) == Pending(h.batch.value, t)
    requires TablesOf(g.kernel, h.batch.value.family).Keys == TablesOf(h.kernel, h.batch.value.family).Keys
    ensures DoomedAt(refused, g, t)
  {
    assert t in TablesOf(g.kernel, h.batch.value.family) <==> t in TablesOf(g.kernel, h.batch.value.family).Keys;
    hide Pending;
  }

  lemma {:induction false} DoomedFlushFrom(refused: set<Rule>, w: World, b: RuleBatch, i: nat, t: TableName)
    requires i <= 3 && DoomedAt(refused, Held(w, Some(b)), t) && Later(t, i)
    ensures !FlushFrom(refused, w, b, i).ok && DoomedAt(refused, FlushFrom(refused, w, b, i).held, t)
    decreases 3 - i
  {
    var u := FLUSH_ORDER[i];
    assert u == t || Later(t, i + 1);
    DoomedTable(refused, w, b, t);
    hide DoomedAt, FlushedTable, Done;
    if Idle(Pending(b, u)) {
      NotIdle(refused, w, b, t);
      DoomedFlushFrom(refused, w, b, i + 1, t);
    } else {
      var e, next := FlushedTable(refused, w, b.family, u, b.tables[u]), Recording(b, u, Done(b.tables[u]));
      FlushedKeys(refused, w, b.family, u, b.tables[u]);
      PendingRecorded(b, u, Done(b.tables[u]));
      if e.ok {
        DoomedStays(refused, Held(w, Some(b)), Held(e.world, Some(next)), t);
        DoomedFlushFrom(refused, e.world, next, i + 1, t);
      } else {
        DoomedStays(refused, Held(w, Some(b)), Held(e.world, Some(b)), t);
      }
    }
  }

  lemma NotIdle(refused: set<Rule>, w: World, b: RuleBatch, t: TableName)
    requires DoomedAt(refused, Held(w, Some(b)), t)
    ensures !Idle(Pending(b, t))
  {
  }

  lemma DoomedFlush(refused: set<Rule>, h: Held)
    requires Doomed(refused, h)
    ensures !FlushOf(refused, h).ok && Doomed(refused, FlushOf(refused, h).held)
  {
    var t :| DoomedAt(refused, h, t);
    assert Later(t, 0);
    hide DoomedAt;
    HasBatch(refused, h, t);
    DoomedFlushFrom(refused, h.kernel, h.batch.value, 0, t);
  }

  lemma HasBatch(refused: set<Rule>, h: Held, t: TableName)
    requires DoomedAt(refused, h, t)
    ensures h.batch.Some?
  {
  }

  lemma SilentKeys(refused: set<Rule>, w: World, g: Family, t: TableName, cmd: IptCmd, f: Family)
    ensures TablesOf(Silently(refused, w, g, t, cmd), f).Keys == TablesOf(w, f).Keys
  {
    hide Ipt;
  }

  lemma DoomedCommand(refused: set<Rule>, h: Held, f: Family, t: TableName, cmd: IptCmd)
    requires Doomed(refused, h)
    ensures Doomed(refused, SilentOf(refused, h, f, t, cmd))
    ensures var o := OwnedOf(refused, h, f, t, cmd); !o.ok && Doomed(refused, o.held)
    ensures cmd.Append? || cmd.Insert? ==> var o := UnlessPresent(refused, h, f, t, cmd); !o.ok && Doomed(refused, o.held)
  {
    var o := FlushOf(refused, h).held;
    DoomedFlush(refused, h);
    DoomedFlush(refused, o);
    var u :| DoomedAt(refused, o, u);
    SilentKeys(refused, o.kernel, f, t, cmd, o.batch.value.family);
    DoomedStays(refused, o, o.(kernel := Silently(refused, o.kernel, f, t, cmd)), u);
    hide FlushOf, DoomedAt, Silently, Checked, Required;
  }

  lemma {:induction false} DoomedFirstTaken(refused: set<Rule>, h: Held, f: Family, t: TableName, c: string, rules: seq<Rule>, front: bool)
    requires Doomed(refused, h)
    ensures var o := FirstTakenOf(refused, h, f, t, c, rules, front); !o.ok && Doomed(refused, o.held)
    decreases |rules|
  {
    hide Doomed, OwnedOf;
    if rules != [] {
      var cmd := if front then Insert(c, rules[0]) else Append(c, rules[0]);
      DoomedCommand(refused, h, f, t, cmd);
      DoomedFirstTaken(refused, OwnedOf(refused, h, f, t, cmd).held, f, t, c, rules[1..], front);
    }
  }

  lemma {:induction false} DoomedFirstEnsured(refused: set<Rule>, h: Held, f: Family, t: TableName, c: string, rules: seq<Rule>)
    requires Doomed(refused, h)
    ensures var o := FirstEnsuredOf(refused, h, f, t, c, rules); !o.ok && Doomed(refused, o.held)
    decreases |rules|
  {
    hide Doomed, UnlessPresent;
    if rules != [] {
      DoomedCommand(refused, h, f, t, Append(c, rules[0]));
      DoomedFirstEnsured(refused, UnlessPresent(refused, h, f, t, Append(c, rules[0])).held, f, t, c, rules[1..]);
    }
  }

  /** More of the same table does not help either. */
  lemma DoomedNoted(refused: set<Rule>, h: Held, t: TableName, c: string, r: Rule)
    requires Doomed(refused, h) && h.batch.Some?
    ensures Doomed(refused, ChainRecorded(h, t, c)) && Doomed(refused, AppendRecordedIn(h, t, c, r))
  {
    var u :| DoomedAt(refused, h, u);
    var b := h.batch.value;
    PendingRecorded(b, t, RecordChain(Pending(b, t), c));
    PendingRecorded(b, t, RecordAppend(Pending(b, t), c, r));
    assert DoomedAt(refused, ChainRecorded(h, t, c), u);
    assert DoomedAt(refused, AppendRecordedIn(h, t, c, r), u);
  }

  lemma {:induction false} DoomedAppends(refused: set<Rule>, h: Held, f: Family, t: TableName, c: string, rules: seq<Rule>)
    requires Doomed(refused, h)
    ensures Doomed(refused, AppendsOf(refused, h, f, t, c, rules))
    decreases |rules|
  {
    hide Doomed, AppendOf;
    if rules != [] {
      DoomedAppend(refused, h, f, t, c, rules[0]);
      DoomedAppends(refused, AppendOf(refused, h, f, t, c, rules[0]).held, f, t, c, rules[1..]);
    }
  }

  lemma DoomedAppend(refused: set<Rule>, h: Held, f: Family, t: TableName, c: string, r: Rule)
    requires Doomed(refused, h)
    ensures Doomed(refused, AppendOf(refused, h, f, t, c, r).held)
  {
    hide Doomed, UnlessPresent, OwnedOf, ChainRecorded, AppendRecordedIn, IsBoxCustomChain;
    if h.batch.Some? {
      DoomedNoted(refused, h, t, c, r);
    }
    DoomedCommand(refused, h, f, t, Append(c, r));
  }

  lemma DoomedEnsure(refused: set<Rule>, h: Held, f: Family, t: TableName, c: string)
    requires Doomed(refused, h)
    ensures Doomed(refused, EnsureOf(refused, h, f, t, c).held)
  {
    hide Doomed, SilentOf, OwnedOf, ChainRecorded, AppendRecordedIn, IsBoxCustomChain;
    if h.batch.Some? {
      DoomedNoted(refused, h, t, c, Rule(Return));
    }
    DoomedCommand(refused, h, f, t, NewChain(c));
    DoomedCommand(refused, SilentOf(refused, h, f, t, NewChain(c)), f, t, Flush(c));
  }

  /** A restore past the record leaves the record as it is. */
  lemma DoomedRestore(refused: set<Rule>, h: Held, f: Family, t: TableName, tb: TableBatch)
    requires Doomed(refused, h)
    ensures Doomed(refused, h.(kernel := FlushedTable(refused, h.kernel, f, t, tb).world))
  {
    var u :| DoomedAt(refused, h, u);
    var v := FlushedTable(refused, h.kernel, f, t, tb).world;
    var g := h.batch.value.family;
    FlushedKeys(refused, h.kernel, f, t, tb);
    assert TablesOf(v, g).Keys == TablesOf(h.kernel, g).Keys by {
      FlushedBeside(refused, h.kernel, f, t, tb, g);
    }
    DoomedStays(refused, h, h.(kernel := v), u);
  }

  lemma FlushedBeside(refused: set<Rule>, w: World, f: Family, t: TableName, tb: TableBatch, g: Family)
    ensures g != f ==> TablesOf(FlushedTable(refused, w, f, t, tb).world, g) == TablesOf(w, g)
  {
    hide Reach, Declare, Restored;
  }

  lemma DoomedRebuild(refused: set<Rule>, h: Held, f: Family, t: TableName, c: string, nets: seq<Net>, restoring: Restoring)
    requires Doomed(refused, h)
    ensures Doomed(refused, RebuildOf(refused, h, f, t, c, nets, restoring).held)
  {
    hide Doomed, SilentOf, EnsureOf, AppendsOf, FlushedTable, AcceptPairs, IsLocalIp;
    var g := Prepared(refused, h, f, t, c, restoring);
    DoomedCommand(refused, h, f, t, NewChain(c));
    DoomedRestore(refused, g, f, t, Whole(c, nets));
    DoomedEnsure(refused, g, f, t, c);
    DoomedAppends(refused, EnsureOf(refused, g, f, t, c).held, f, t, c, AcceptPairs(nets));
  }

  /** No operation of a session gets it out of this. */
  lemma DoomedStep(refused: set<Rule>, h: Held, s: Step)
    requires Doomed(refused, h)
    ensures Doomed(refused, PerformOf(refused, h, s).held)
  {
    hide Doomed, SilentOf, OwnedOf, UnlessPresent, FirstTakenOf, FirstEnsuredOf, EnsureOf, AppendOf, RebuildOf, FlushOf, IsBoxCustomChain;
    var f, t := s.family, s.table;
    match s.op
    case EnsureChain(c) => DoomedEnsure(refused, h, f, t, c);
    case EnsureAppend(c, r) => DoomedAppend(refused, h, f, t, c, r);
    case EnsureInsert(c, r) => DoomedCommand(refused, h, f, t, Insert(c, r));
    case EnsureJump(c, target) => DoomedCommand(refused, h, f, t, Insert(c, Rule(Jump(target))));
    case DelRule(c, r) => DoomedCommand(refused, h, f, t, Delete(c, r));
    case CleanupChain(c) =>
      DoomedCommand(refused, h, f, t, Flush(c));
      DoomedCommand(refused, SilentOf(refused, h, f, t, Flush(c)), f, t, DeleteChain(c));
    case InsertFirst(c, rules, fallback) =>
      DoomedFirstTaken(refused, h, f, t, c, rules, true);
      if fallback.Some? {
        DoomedCommand(refused, FirstTakenOf(refused, h, f, t, c, rules, true).held, f, t, Insert(c, fallback.value));
      }
    case AppendFirst(c, rules) => DoomedFirstTaken(refused, h, f, t, c, rules, false);
    case EnsureFirst(c, rules) => DoomedFirstEnsured(refused, h, f, t, c, rules);
    case Rebuild(c, nets, restoring) => DoomedRebuild(refused, h, f, t, c, nets, restoring);
    case Sync(_) => DoomedFlush(refused, h);
  }

  /** The flush at the end tells. */
  lemma {:induction false} DoomedRun(refused: set<Rule>, h: Held, steps: seq<Step>)
    requires Doomed(refused, h)
    ensures !EndOf(refused, RunOf(refused, h, steps)).ok
    decreases |steps|
  {
    hide Doomed, PerformOf, FlushOf;
    if steps == [] {
      DoomedFlush(refused, h);
    } else {
      DoomedStep(refused, h, steps[0]);
      DoomedRun(refused, PerformOf(refused, h, steps[0]).held, steps[1..]);
    }
  }

  // ----- scripts in which nothing else can go wrong -----

  /** Appends go to chains ensured before, their jumps lead to chains ensured before,
      local-IP chains are made once, and no chain ensured anywhere in the script is
      deleted. */
  predicate GroundedStep(f: Family, s: Step, used: set<Place>, all: set<Place>) {
    && s.family == f && Ensured(f, s) <= all
    && (s.op.EnsureAppend? && IsBoxCustomChain(s.op.chain) ==>
          (s.table, s.op.chain) in used && (s.op.rule.target.Jump? ==> (s.table, s.op.rule.target.chain) in used))
    && (IsLocalIp(ChainOf(s.op)) ==> Ensured(f, s) !! used)
    && (s.op.CleanupChain? ==> (s.table, s.op.chain) !in all)
  }

  predicate Grounded(f: Family, steps: seq<Step>, used: set<Place>, all: set<Place>)
    decreases |steps|
  {
    steps == [] || (GroundedStep(f, steps[0], used, all) && Grounded(f, steps[1..], used + Ensured(f, steps[0]), all))
  }

  /** The chains are all there. */
  ghost predicate Standing(w: World, f: Family, places: set<Place>) {
    forall t, c :: (t, c) in places ==> HasChain(w, f, t, c)
  }

  lemma GroundedTame(f: Family, s: Step, used: set<Place>, all: set<Place>)
    requires GroundedStep(f, s, used, all)
    ensures s.op.EnsureAppend? ==> Touched(f, s) <= used
    ensures IsLocalIp(ChainOf(s.op)) ==> Ensured(f, s) !! used
  {
    hide IsBoxCustomChain;
  }

  /** What is recorded is accepted unless its rule is refused or its table missing. */
  lemma GroundedOk(refused: set<Rule>, w: World, f: Family, used: set<Place>, all: set<Place>, s: Step)
    requires GroundedStep(f, s, used, all) && Standing(w, f, used) && Touched(f, s) != {}
    requires s.op.EnsureAppend? ==> s.op.rule !in refused
    requires s.op.EnsureChain? || s.op.Rebuild? ==> s.table in TablesOf(w, f)
    ensures Direct(refused, w, f, s.table, s.op).ok
  {
    hide IsBoxCustomChain, IsLocalIp, Kept, AcceptPairs;
    if s.op.Rebuild? {
    } else if s.op.EnsureChain? {
      DirectEnsureChain(refused, w, f, s.table, s.op.chain);
    } else {
      assert HasChain(w, f, s.table, s.op.chain);
    }
  }

  lemma StandingDirect(refused: set<Rule>, w: World, f: Family, used: set<Place>, all: set<Place>, s: Step)
    requires GroundedStep(f, s, used, all) && Standing(w, f, used) && used <= all
    requires Touched(f, s) != {} ==> Direct(refused, w, f, s.table, s.op).ok
    ensures Standing(Direct(refused, w, f, s.table, s.op).world, f, used + Ensured(f, s))
  {
    hide IsBoxCustomChain, IsLocalIp, Direct, HasChain;
    var v := Direct(refused, w, f, s.table, s.op).world;
    forall t, c | (t, c) in used + Ensured(f, s) ensures HasChain(v, f, t, c) {
      if (t, c) in used {
        ChainKept(refused, w, f, s, t, c);
      } else {
        MakingMakes(refused, w, f, s);
      }
    }
  }

  lemma StandingOn(refused: set<Rule>, w: World, f: Family, buffered: bool, used: set<Place>, all: set<Place>, s: Step)
    requires GroundedStep(f, s, used, all) && Standing(w, f, used) && used <= all
    requires var e := Sessional(refused, w, f, buffered, used, s); Touched(f, s) != {} ==> e.ok
    ensures Standing(Sessional(refused, w, f, buffered, used, s).world, f, used + Ensured(f, s))
  {
    hide IsBoxCustomChain, IsLocalIp, Direct, Standing;
    if !(buffered && s.op.EnsureChain? && Ensured(f, s) != {} && Ensured(f, s) <= used) {
      StandingDirect(refused, w, f, used, all, s);
    } else {
      assert used + Ensured(f, s) == used;
    }
  }

  lemma MakingMakes(refused: set<Rule>, w: World, f: Family, s: Step)
    requires (s.op.EnsureChain? || s.op.Rebuild?) && Direct(refused, w, f, s.table, s.op).ok
    ensures HasChain(Direct(refused, w, f, s.table, s.op).world, f, s.table, s.op.chain)
  {
    MakingNeedsTable(refused, w, f, s);
    if s.op.EnsureChain? {
      DirectEnsureChain(refused, w, f, s.table, s.op.chain);
    }
    hide Kept, AcceptPairs, IsLocalIp;
  }

  /** A refused rule or a missing table dooms the session. */
  lemma NotedDooms(refused: set<Rule>, h: Held, f: Family, used: set<Place>, s: Step)
    requires Ledger(f, true, h.batch, used) && Touched(f, s) != {} && !s.op.Rebuild?
    requires if s.op.EnsureAppend? then s.op.rule in refused
             else (s.table, s.op.chain) !in used && s.table !in TablesOf(h.kernel, f)
    ensures Doomed(refused, PerformOf(refused, h, s).held)
  {
    hide IsBoxCustomChain, FlushOf;
    var b, t := h.batch.value, s.table;
    PendingRecorded(b, t, RecordChain(Pending(b, t), s.op.chain));
    if s.op.EnsureAppend? {
      var tb := RecordAppend(Pending(b, t), s.op.chain, s.op.rule);
      PendingRecorded(b, t, tb);
      assert tb.appends[|tb.appends| - 1] in tb.appends;
    } else {
      assert FirstUse(Pending(b, t), s.op.chain);
    }
    assert DoomedAt(refused, PerformOf(refused, h, s).held, t);
  }

  /** Appends noted down, one of them with a refused rule. */
  lemma {:induction false} AppendsDoom(refused: set<Rule>, h: Held, f: Family, t: TableName, c: string, rules: seq<Rule>, r: Rule)
    requires Buffers(h, f) && IsBoxCustomChain(c) && r in rules && r in refused
    ensures Doomed(refused, AppendsOf(refused, h, f, t, c, rules))
    decreases |rules|
  {
    var g := AppendRecordedIn(h, t, c, rules[0]);
    assert AppendOf(refused, h, f, t, c, rules[0]).held == g && Buffers(g, f);
    if rules[0] == r {
      var b := h.batch.value;
      var tb := RecordAppend(Pending(b, t), c, r);
      PendingRecorded(b, t, tb);
      assert tb.appends[|tb.appends| - 1] in tb.appends;
      assert DoomedAt(refused, g, t);
      DoomedAppends(refused, g, f, t, c, rules[1..]);
    } else {
      hide Doomed, AppendOf;
      AppendsDoom(refused, g, f, t, c, rules[1..], r);
    }
  }

  /** What a refused rule or a missing table makes of a rebuild. */
  ghost predicate Hopeless(refused: set<Rule>, w: World, f: Family, t: TableName, nets: seq<Net>) {
    t !in TablesOf(w, f) || exists r :: r in AcceptPairs(nets) && r in refused
  }

  lemma RefillDooms(refused: set<Rule>, h: Held, f: Family, t: TableName, c: string, nets: seq<Net>)
    requires Buffers(h, f) && IsBoxCustomChain(c) && FirstUse(Pending(h.batch.value, t), c) && Hopeless(refused, h.kernel, f, t, nets)
    ensures Doomed(refused, RefillOf(refused, h, f, t, c, nets).held)
  {
    var b, g := h.batch.value, ChainRecorded(h, t, c);
    PendingRecorded(b, t, RecordChain(Pending(b, t), c));
    hide IsBoxCustomChain, AppendsOf, AcceptPairs;
    if t !in TablesOf(h.kernel, f) {
      assert DoomedAt(refused, g, t);
      DoomedAppends(refused, g, f, t, c, AcceptPairs(nets));
    } else {
      var r :| r in AcceptPairs(nets) && r in refused;
      AppendsDoom(refused, g, f, t, c, AcceptPairs(nets), r);
    }
  }

  /** Making the chain behind a flush leaves the session open and the chain unused. */
  lemma PreparedKeeps(refused: set<Rule>, h: Held, f: Family, t: TableName, c: string, restoring: Restoring)
    requires Sound(refused, h) && Buffers(h, f) && FirstUse(Pending(h.batch.value, t), c)
    ensures var g := Prepared(refused, h, f, t, c, restoring);
      && Buffers(g, f) && FirstUse(Pending(g.batch.value, t), c) && TablesOf(g.kernel, f).Keys == TablesOf(h.kernel, f).Keys
  {
    SoundFlush(refused, h);
    DrainTracks(h.batch.value);
    MeaningTables(refused, h, f);
    hide FlushOf, Meaning, Sound, Silently, FirstUse, Known, Drained;
    SettledParts(refused, h);
    SilentKeys(refused, Settled(refused, h).kernel, f, t, NewChain(c), f);
  }

  lemma SettledParts(refused: set<Rule>, h: Held)
    requires Sound(refused, h) && h.batch.Some?
    ensures Settled(refused, h) == Held(Meaning(refused, h), Some(Drained(h.batch.value)))
    ensures Drained(h.batch.value).family == h.batch.value.family
  {
    hide Meaning, Done;
  }

  lemma RebuildDooms(refused: set<Rule>, h: Held, f: Family, used: set<Place>, t: TableName, c: string, nets: seq<Net>, restoring: Restoring)
    requires Sound(refused, h) && Ledger(f, true, h.batch, used) && IsLocalIp(c) && (t, c) !in used
    requires Hopeless(refused, h.kernel, f, t, nets)
    ensures Doomed(refused, RebuildOf(refused, h, f, t, c, nets, restoring).held)
  {
    var g := Prepared(refused, h, f, t, c, restoring);
    LocalIpIsCustom(c);
    hide Sound, FirstUse, Known, Doomed, Prepared, FlushedTable, RefillOf, AcceptPairs, IsBoxCustomChain, IsLocalIp;
    PreparedKeeps(refused, h, f, t, c, restoring);
    SameKeys(g.kernel, h.kernel, f, t);
    WholeRestored(refused, g.kernel, f, t, c, nets);
    RefillDooms(refused, g, f, t, c, nets);
  }

  /** The next operation of a session that will succeed is accepted. */
  lemma AheadAccepted(refused: set<Rule>, h: Held, f: Family, steps: seq<Step>, used: set<Place>, all: set<Place>)
    requires steps != [] && Sound(refused, h) && Ledger(f, true, h.batch, used) && Grounded(f, steps, used, all)
    requires Standing(Meaning(refused, h), f, used) && EndOf(refused, RunOf(refused, h, steps)).ok
    ensures Touched(f, steps[0]) != {} ==>
      Sessional(refused, Meaning(refused, h), f, true, used, steps[0]).ok && Spared(refused, steps[0].op)
  {
    var s, w := steps[0], Meaning(refused, h);
    MeaningTables(refused, h, f);
    if Touched(f, s) != {} && s.op.Rebuild? {
      AheadRebuilt(refused, h, f, steps, used, all);
    } else if Touched(f, s) != {} && !(Ensured(f, s) != {} && Ensured(f, s) <= used) {
      NotedKinds(f, s, used);
      hide Direct, IsBoxCustomChain, IsLocalIp, Sound, Meaning, Ledger, EndOf, PerformOf, Standing, Ensured;
      if s.op.EnsureAppend? && s.op.rule in refused {
        NotedDooms(refused, h, f, used, s);
        DoomedRun(refused, PerformOf(refused, h, s).held, steps[1..]);
        assert false;
      } else if s.op.EnsureChain? && s.table !in TablesOf(w, f) {
        SameKeys(w, h.kernel, f, s.table);
        NotedDooms(refused, h, f, used, s);
        DoomedRun(refused, PerformOf(refused, h, s).held, steps[1..]);
        assert false;
      }
      GroundedOk(refused, w, f, used, all, s);
    }
  }

  lemma AheadRebuilt(refused: set<Rule>, h: Held, f: Family, steps: seq<Step>, used: set<Place>, all: set<Place>)
    requires steps != [] && steps[0].op.Rebuild? && Sound(refused, h) && Ledger(f, true, h.batch, used) && Grounded(f, steps, used, all)
    requires Touched(f, steps[0]) != {} && EndOf(refused, RunOf(refused, h, steps)).ok
    ensures Sessional(refused, Meaning(refused, h), f, true, used, steps[0]).ok && Spared(refused, steps[0].op)
  {
    var s, w := steps[0], Meaning(refused, h);
    assert s.family == f && IsLocalIp(s.op.chain) && (s.table, s.op.chain) in Ensured(f, s) && (s.table, s.op.chain) !in used;
    MeaningTables(refused, h, f);
    SameKeys(w, h.kernel, f, s.table);
    hide Sound, Meaning, Ledger, EndOf, RebuildOf, AcceptPairs, Kept, IsLocalIp, Ensured, Touched;
    if Hopeless(refused, h.kernel, f, s.table, s.op.nets) {
      RebuildDooms(refused, h, f, used, s.table, s.op.chain, s.op.nets, s.op.restoring);
      DoomedRun(refused, PerformOf(refused, h, s).held, steps[1..]);
      assert false;
    }
  }

  lemma SameKeys(w: World, v: World, f: Family, t: TableName)
    requires TablesOf(w, f).Keys == TablesOf(v, f).Keys
    ensures t in TablesOf(w, f) <==> t in TablesOf(v, f)
  {
    assert t in TablesOf(w, f).Keys <==> t in TablesOf(v, f).Keys;
  }

  lemma NotedKinds(f: Family, s: Step, used: set<Place>)
    requires Touched(f, s) != {} && !s.op.Rebuild? && !(Ensured(f, s) != {} && Ensured(f, s) <= used)
    ensures s.op.EnsureChain? || s.op.EnsureAppend?
    ensures s.op.EnsureChain? ==> (s.table, s.op.chain) !in used
  {
    hide IsBoxCustomChain;
  }

  /** A buffered session whose end reports success has been accepted throughout. */
  lemma {:induction false} SuccessAccepted(refused: set<Rule>, h: Held, f: Family, steps: seq<Step>, used: set<Place>, all: set<Place>)
    requires Sound(refused, h) && Ledger(f, true, h.batch, used) && Grounded(f, steps, used, all) && used <= all
    requires Standing(Meaning(refused, h), f, used) && EndOf(refused, RunOf(refused, h, steps)).ok
    ensures SessionAcceptable(refused, Meaning(refused, h), f, true, used, steps) && Tame(f, steps, used)
    decreases |steps|
  {
    if steps != [] {
      var s, w, o := steps[0], Meaning(refused, h), PerformOf(refused, h, steps[0]);
      AheadAccepted(refused, h, f, steps, used, all);
      GroundedTame(f, s, used, all);
      GroundedEnsures(f, s, used, all);
      hide Direct, Sound, Meaning, Ledger, EndOf, PerformOf, Standing, Ensured, Touched, Sessional, GroundedStep, AsRecorded, Agrees, Tracks;
      hide Spared, IsLocalIp;
      StandingOn(refused, w, f, true, used, all, s);
      AheadAgrees(refused, h, f, true, s, used);
      PerformMeans(refused, h, s);
      StepLedger(f, true, h.batch, o.held.batch, used, s);
      SuccessAccepted(refused, o.held, f, steps[1..], used + Ensured(f, s), all);
    }
  }

  lemma GroundedEnsures(f: Family, s: Step, used: set<Place>, all: set<Place>)
    requires GroundedStep(f, s, used, all) && used <= all
    ensures used + Ensured(f, s) <= all
  {
  }

  // ----- unbuffered sessions -----

  /** Operations whose failure a setup does not ignore. */
  predicate Needed(s: Step) {
    match s.op
    case EnsureAppend(c, _) => IsBoxCustomChain(c)
    case Sync(required) => required
    case _ => s.op.EnsureChain? || s.op.EnsureJump? || s.op.Rebuild?
  }

  predicate NeededOk(steps: seq<Step>, oks: seq<bool>) {
    |oks| == |steps| && forall i | 0 <= i < |steps| :: Needed(steps[i]) ==> oks[i]
  }

  lemma {:induction false} UnbufferedRun(refused: set<Rule>, w: World, steps: seq<Step>)
    ensures RunOf(refused, Held(w, None), steps) == Held(DirectRun(refused, w, steps), None)
    ensures OksOf(refused, Held(w, None), steps) == DirectOks(refused, w, steps)
    decreases |steps|
  {
    hide PerformOf, Direct;
    if steps != [] {
      CalmIsDirect(refused, Held(w, None), steps[0]);
      UnbufferedRun(refused, Direct(refused, w, steps[0].family, steps[0].table, steps[0].op).world, steps[1..]);
    }
  }

  lemma {:induction false} NeededAccepted(refused: set<Rule>, w: World, f: Family, steps: seq<Step>)
    requires NeededOk(steps, DirectOks(refused, w, steps))
    ensures Acceptable(refused, w, f, steps)
    decreases |steps|
  {
    hide Direct, IsBoxCustomChain;
    if steps != [] {
      var s := steps[0];
      var e := Direct(refused, w, s.family, s.table, s.op);
      var oks, rest := DirectOks(refused, w, steps), DirectOks(refused, e.world, steps[1..]);
      assert oks[1..] == rest && oks[0] == e.ok;
      forall i | 0 <= i < |steps[1..]| && Needed(steps[1..][i]) ensures rest[i] {
        assert steps[1..][i] == steps[i + 1] && oks[i + 1] == rest[i];
      }
      NeededAccepted(refused, e.world, f, steps[1..]);
    }
  }

  /**
   A session that reports success: no needed operation failed, nor did the flush at
   the end.  Then all of it was accepted, and the tables are those of the session
   semantics.
   */
  lemma SuccessMeans(refused: set<Rule>, w: World, f: Family, buffered: bool, steps: seq<Step>, all: set<Place>)
    requires Grounded(f, steps, {}, all)
    requires var h := Opened(w, f, buffered); NeededOk(steps, OksOf(refused, h, steps)) && EndOf(refused, RunOf(refused, h, steps)).ok
    ensures SessionAcceptable(refused, w, f, buffered, {}, steps)
    ensures EndOf(refused, RunOf(refused, Opened(w, f, buffered), steps)).held.kernel == SessionRun(refused, w, f, buffered, {}, steps)
  {
    var h := Opened(w, f, buffered);
    OpenedSound(refused, w, f, buffered);
    if buffered {
      assert Standing(w, f, {});
      hide *;
      SuccessAccepted(refused, h, f, steps, {}, all);
      RunMeans(refused, h, f, true, steps, {});
      EndMeans(refused, RunOf(refused, h, steps));
    } else {
      hide NeededOk, DirectOks, DirectRun, SessionRun, SessionAcceptable, Acceptable, RunOf, OksOf, Grounded;
      UnbufferedRun(refused, w, steps);
      NeededAccepted(refused, w, f, steps);
      OrderlyIsDirect(refused, w, f, false, {}, steps);
    }
  }

  /**
   A buffered session that ensures no chain twice succeeds at its end exactly if the
   unbuffered run would have been accepted and no rebuild meets a refused rule; and
   then its reports and its tables are those of the unbuffered run.  Of a refused
   local-IP rule the unbuffered run takes no notice.
   */
  lemma UnnoticedExactly(refused: set<Rule>, w: World, f: Family, steps: seq<Step>, all: set<Place>)
    requires Orderly(f, steps, {}) && Grounded(f, steps, {}, all)
    ensures var h := Opened(w, f, true);
      && (EndOf(refused, RunOf(refused, h, steps)).ok <==> Acceptable(refused, w, f, steps) && AllSpared(refused, f, steps))
      && (EndOf(refused, RunOf(refused, h, steps)).ok ==>
            OksOf(refused, h, steps) == DirectOks(refused, w, steps)
            && EndOf(refused, RunOf(refused, h, steps)).held == Held(DirectRun(refused, w, steps), None))
  {
    var h := Opened(w, f, true);
    OpenedSound(refused, w, f, true);
    OrderlyIsDirect(refused, w, f, true, {}, steps);
    assert Standing(w, f, {});
    hide *;
    BufferUnnoticedExactly(refused, w, f, steps);
    if EndOf(refused, RunOf(refused, h, steps)).ok {
      SuccessAccepted(refused, h, f, steps, {}, all);
    }
  }

  // ----- the compiler's scripts are grounded -----

  /** Appended jumps lead to chains ensured before; only chains of `gone` are deleted. */
  predicate Aimed(f: Family, steps: seq<Step>, used: set<Place>, gone: set<Place>)
    decreases |steps|
  {
    steps == [] ||
    var s := steps[0];
    && (s.op.EnsureAppend? && s.op.rule.target.Jump? ==> (s.table, s.op.rule.target.chain) in used)
    && (s.op.CleanupChain? ==> (s.table, s.op.chain) in gone)
    && Aimed(f, steps[1..], used + Ensured(f, s), gone)
  }

  /** Steps that append no jump. */
  predicate Straight(steps: seq<Step>, gone: set<Place>) {
    forall s | s in steps ::
      (s.op.EnsureAppend? ==> !s.op.rule.target.Jump?) && (s.op.CleanupChain? ==> (s.table, s.op.chain) in gone)
  }

  lemma {:induction false} StraightAimed(f: Family, steps: seq<Step>, used: set<Place>, gone: set<Place>)
    requires Straight(steps, gone)
    ensures Aimed(f, steps, used, gone)
    decreases |steps|
  {
    if steps != [] {
      assert steps[0] in steps && forall s :: s in steps[1..] ==> s in steps;
      StraightAimed(f, steps[1..], used + Ensured(f, steps[0]), gone);
    }
  }

  lemma {:induction false} AimedConcat(f: Family, a: seq<Step>, b: seq<Step>, used: set<Place>, gone: set<Place>)
    requires Aimed(f, a, used, gone) && Aimed(f, b, used + EnsuredBy(f, a), gone)
    ensures Aimed(f, a + b, used, gone)
    decreases |a|
  {
    if a == [] {
      assert a + b == b && used + EnsuredBy(f, a) == used;
    } else {
      var e := Ensured(f, a[0]);
      assert (a + b)[1..] == a[1..] + b;
      assert used + EnsuredBy(f, a) == (used + e) + EnsuredBy(f, a[1..]);
      AimedConcat(f, a[1..], b, used + e, gone);
    }
  }

  lemma {:induction false} AimedMore(f: Family, steps: seq<Step>, used: set<Place>, more: set<Place>, gone: set<Place>)
    requires Aimed(f, steps, used, gone) && used <= more
    ensures Aimed(f, steps, more, gone)
    decreases |steps|
  {
    if steps != [] {
      AimedMore(f, steps[1..], used + Ensured(f, steps[0]), more + Ensured(f, steps[0]), gone);
    }
  }

  /** Jumps in a list of rules lead to these chains. */
  predicate JumpsWithin(rules: seq<Rule>, targets: set<string>) {
    forall r | r in rules :: r.target.Jump? ==> r.target.chain in targets
  }

  lemma {:induction false} AppendsAimed(f: Family, t: TableName, c: string, rules: seq<Rule>, targets: set<string>,
                                        used: set<Place>, gone: set<Place>)
    requires JumpsWithin(rules, targets) && forall d :: d in targets ==> (t, d) in used
    ensures Aimed(f, Appends(f, t, c, rules), used, gone)
    decreases |rules|
  {
    var s := Appends(f, t, c, rules);
    if rules != [] {
      assert rules[0] in rules && forall r :: r in rules[1..] ==> r in rules;
      assert s[1..] == Appends(f, t, c, rules[1..]) && Ensured(f, s[0]) == {} && used + {} == used;
      AppendsAimed(f, t, c, rules[1..], targets, used, gone);
    }
  }

  /** Jumps appended behind a part that ensures where they lead. */
  lemma AimedThen(f: Family, a: seq<Step>, t: TableName, c: string, rules: seq<Rule>, targets: set<string>,
                  used: set<Place>, gone: set<Place>)
    requires Aimed(f, a, used, gone) && JumpsWithin(rules, targets)
    requires forall d :: d in targets ==> (t, d) in used + EnsuredBy(f, a)
    ensures Aimed(f, a + Appends(f, t, c, rules), used, gone)
  {
    hide Aimed, Appends;
    AppendsAimed(f, t, c, rules, targets, used + EnsuredBy(f, a), gone);
    AimedConcat(f, a, Appends(f, t, c, rules), used, gone);
  }

  lemma AndStraight(f: Family, a: seq<Step>, b: seq<Step>, used: set<Place>, gone: set<Place>)
    requires Aimed(f, a, used, gone) && Straight(b, gone)
    ensures Aimed(f, a + b, used, gone)
  {
    hide Aimed, Straight;
    StraightAimed(f, b, used + EnsuredBy(f, a), gone);
    AimedConcat(f, a, b, used, gone);
  }

  lemma StraightBoth(a: seq<Step>, b: seq<Step>, gone: set<Place>)
    requires Straight(a, gone) && Straight(b, gone)
    ensures Straight(a + b, gone)
  {
  }

  lemma AppendsStraight(f: Family, t: TableName, c: string, rules: seq<Rule>, gone: set<Place>)
    requires NoJumps(rules)
    ensures Straight(Appends(f, t, c, rules), gone) && Straight(One(f, t, EnsureChain(c)) + Appends(f, t, c, rules), gone)
  {
  }

  lemma OneStraight(f: Family, t: TableName, op: Op, gone: set<Place>)
    requires !op.EnsureAppend? && !op.CleanupChain?
    ensures Straight(One(f, t, op), gone)
  {
  }

  lemma AttemptsStraight(f: Family, t: TableName, c: string, rules: seq<Rule>, gone: set<Place>)
    ensures Straight(Attempts(f, t, c, rules), gone)
  {
  }

  lemma DnsStraight(c: Config, k: Capabilities, x: Context, f: Family, gone: set<Place>)
    ensures Straight(DnsNatSetup(c, k, x, f), gone)
  {
    hide DnsHijackRules, DnsForwardRules, CoreBypassVariants, HijackPre, HijackOut, ForwardPre;
  }

  lemma LocalStartStraight(x: Context, f: Family, t: TableName, gone: set<Place>)
    ensures Straight(LocalChainStart(x, f, t), gone)
  {
    hide CoreBypassVariants;
  }

  lemma RestStraight(c: Config, x: Context, f: Family, gone: set<Place>)
    ensures Straight(LoopbackRejectSetup(x, f, c.redirPort), gone) && Straight(LoopbackRejectSetup(x, f, c.tproxyPort), gone)
    ensures Straight(QuicSetup(c, f), gone) && Straight(FakeIpIcmpSetup(c, f), gone) && Straight(ForwardSetup(c, f), gone)
    ensures Straight(TproxyRouting(f), gone) && Straight(TunRouting(f), gone) && Straight([], gone)
  {
    hide LoopbackRejects, FakeIpIcmp;
  }

  lemma PerfDestStraight(c: Config, k: Capabilities, f: Family, chain: string, gone: set<Place>)
    ensures Straight(PerfDestSetup(c, k, f, chain), gone)
  {
    hide PerfBypassRules, PerfAddrtypeRules, PerfLoopbackRules, Straight, Appends, Attempts;
    AppendsStraight(f, Mangle, chain, PerfBypassRules(c, k, f, chain), gone);
    AttemptsStraight(f, Mangle, chain, PerfAddrtypeRules(k), gone);
    AppendsStraight(f, Mangle, chain, PerfLoopbackRules(c, f), gone);
    var a := One(f, Mangle, EnsureChain(chain)) + Appends(f, Mangle, chain, PerfBypassRules(c, k, f, chain));
    StraightBoth(a, Attempts(f, Mangle, chain, PerfAddrtypeRules(k)), gone);
    StraightBoth(a + Attempts(f, Mangle, chain, PerfAddrtypeRules(k)), Appends(f, Mangle, chain, PerfLoopbackRules(c, f)), gone);
  }

  // ----- where the lists jump -----

  lemma BypassJumps(c: Config, k: Capabilities, f: Family, chain: string)
    ensures JumpsWithin(CommonBypassRules(c, k, f, chain), {LocalIpChain(f)})
  {
    assert NoJumps(CnipRule(c, k, f, chain, Return));
    hide CnipRule, SubnetReturns, LocalIpChain;
  }

  lemma StandardJumps(c: Config, k: Capabilities, x: Context, f: Family, action: Action)
    ensures JumpsWithin(ExternalBody(c, k, f, action), {LocalIpChain(f)})
    ensures JumpsWithin(RedirectLocalRules(c, k, x, f), {LocalIpChain(f)})
    ensures JumpsWithin(TproxyLocalRules(c, k, x, f), {LocalIpChain(f)})
  {
    BypassJumps(c, k, f, EXTERNAL);
    BypassJumps(c, k, f, LOCAL);
    assert NoJumps(IfaceRules(c.blockedIfs, Return));
    hide CommonBypassRules, IfaceRules, ExternalLoopbackRules, ExternalApRules, ReplyBypass, CnipForceLocalRules, LocalProxyRules;
    hide MangleDnsRules, FakeIp6Rules, LocalIpChain;
  }

  lemma JumpsBoth(a: seq<Rule>, b: seq<Rule>, targets: set<string>)
    requires JumpsWithin(a, targets) && JumpsWithin(b, targets)
    ensures JumpsWithin(a + b, targets)
  {
  }

  lemma NoneWithin(a: seq<Rule>, targets: set<string>)
    requires NoJumps(a)
    ensures JumpsWithin(a, targets)
  {
  }

  /** The two side chains of a fast chain. */
  lemma SideJumps(c: Config, one: string, two: string)
    ensures JumpsWithin(PerfJumps(c, one) + PerfJumps(c, two), {one, two})
  {
  }

  lemma FastExternalJumps(c: Config, k: Capabilities, f: Family)
    ensures JumpsWithin(PerfExternalRules(c, k, f), {TP_PRE_IP, TP_PRE_IF})
  {
    var a, b := ExternalPrefix(c, k, f, ActTproxy), PerfJumps(c, TP_PRE_IP) + PerfJumps(c, TP_PRE_IF);
    var d, e, targets := ConnmarkSets(c), ConnmarkDispatches(c), {TP_PRE_IP, TP_PRE_IF};
    assert NoJumps(a) && NoJumps(d) && NoJumps(e);
    assert PerfExternalRules(c, k, f) == a + (b + d + e) by {
      hide ExternalPrefix, PerfJumps, ConnmarkSets, ConnmarkDispatches;
    }
    SideJumps(c, TP_PRE_IP, TP_PRE_IF);
    hide *;
    NoneWithin(a, targets);
    NoneWithin(d, targets);
    NoneWithin(e, targets);
    JumpsBoth(b, d, targets);
    JumpsBoth(b + d, e, targets);
    JumpsBoth(a, b + d + e, targets);
  }

  lemma FastLocalRulesParts(c: Config, k: Capabilities, x: Context, f: Family)
    ensures PerfLocalRules(c, k, x, f)
         == ReplyBypass(c, k) + FakeIp6Rules(c, f, ActMark) + CnipForceLocalRules(c, k, x, f, LOCAL, ActMark)
            + (PerfJumps(c, TP_OUT_IP) + PerfJumps(c, TP_OUT_APP)) + MangleDnsRules(c, ActMark) + ConnmarkSets(c) + ConnmarkMarks(c)
  {
    hide ReplyBypass, FakeIp6Rules, CnipForceLocalRules, PerfJumps, MangleDnsRules, ConnmarkSets, ConnmarkMarks;
    var a := ReplyBypass(c, k) + FakeIp6Rules(c, f, ActMark) + CnipForceLocalRules(c, k, x, f, LOCAL, ActMark);
    var b, d := PerfJumps(c, TP_OUT_IP), PerfJumps(c, TP_OUT_APP);
    assert a + b + d == a + (b + d);
  }

  lemma FastLocalJumps(c: Config, k: Capabilities, x: Context, f: Family)
    ensures JumpsWithin(PerfLocalRules(c, k, x, f), {TP_OUT_IP, TP_OUT_APP})
  {
    hide *;
    var a, b, d := ReplyBypass(c, k), FakeIp6Rules(c, f, ActMark), CnipForceLocalRules(c, k, x, f, LOCAL, ActMark);
    var sides := PerfJumps(c, TP_OUT_IP) + PerfJumps(c, TP_OUT_APP);
    var e, g, h := MangleDnsRules(c, ActMark), ConnmarkSets(c), ConnmarkMarks(c);
    var targets := {TP_OUT_IP, TP_OUT_APP};
    FastLocalRulesParts(c, k, x, f);
    SideJumps(c, TP_OUT_IP, TP_OUT_APP);
    NoneWithin(a, targets);
    NoneWithin(b, targets);
    NoneWithin(d, targets);
    NoneWithin(e, targets);
    NoneWithin(g, targets);
    NoneWithin(h, targets);
    JumpsBoth(a, b, targets);
    JumpsBoth(a + b, d, targets);
    JumpsBoth(a + b + d, sides, targets);
    JumpsBoth(a + b + d + sides, e, targets);
    JumpsBoth(a + b + d + sides + e, g, targets);
    JumpsBoth(a + b + d + sides + e + g, h, targets);
  }

  // ----- the parts -----

  /** The part of a setup that ensures one chain is among the chains it ensures. */
  lemma EnsuredAmong(f: Family, a: seq<Step>, b: seq<Step>)
    ensures EnsuredBy(f, a) <= EnsuredBy(f, a + b) && EnsuredBy(f, b) <= EnsuredBy(f, a + b)
  {
    EnsuredByConcat(f, a, b);
  }

  lemma LocalIpEnsured(c: Config, k: Capabilities, f: Family, t: TableName, gone: set<Place>)
    ensures EnsuredBy(f, LocalIpSetup(c, k, f, t)) == {(t, LocalIpChain(f))} && Straight(LocalIpSetup(c, k, f, t), gone)
  {
    LocalIpRegular(f, {}, c, k, t);
    hide LocalIpChain, RestoringOf;
  }

  lemma RedirectExternalAimed(c: Config, k: Capabilities, x: Context, f: Family, gone: set<Place>)
    ensures Aimed(f, RedirectExternalSetup(c, k, x, f), {}, gone)
    ensures (Nat, LocalIpChain(f)) in EnsuredBy(f, RedirectExternalSetup(c, k, x, f))
  {
    var a := One(f, Nat, EnsureChain(EXTERNAL)) + Appends(f, Nat, EXTERNAL, ReplyBypass(c, k));
    var d, e, body := DnsNatSetup(c, k, x, f), LocalIpSetup(c, k, f, Nat), ExternalBody(c, k, f, ActRedirect);
    var jump := One(f, Nat, EnsureJump("PREROUTING", EXTERNAL));
    assert RedirectExternalSetup(c, k, x, f) == a + d + e + Appends(f, Nat, EXTERNAL, body) + jump;
    assert NoJumps(ReplyBypass(c, k));
    hide *;
    AppendsStraight(f, Nat, EXTERNAL, ReplyBypass(c, k), gone);
    DnsStraight(c, k, x, f, gone);
    LocalIpEnsured(c, k, f, Nat, gone);
    StandardJumps(c, k, x, f, ActRedirect);
    OneStraight(f, Nat, EnsureJump("PREROUTING", EXTERNAL), gone);
    StraightBoth(a, d, gone);
    StraightBoth(a + d, e, gone);
    StraightAimed(f, a + d + e, {}, gone);
    EnsuredAmong(f, a + d, e);
    AimedThen(f, a + d + e, Nat, EXTERNAL, body, {LocalIpChain(f)}, {}, gone);
    EnsuredAmong(f, a + d + e, Appends(f, Nat, EXTERNAL, body));
    AndStraight(f, a + d + e + Appends(f, Nat, EXTERNAL, body), jump, {}, gone);
    EnsuredAmong(f, a + d + e + Appends(f, Nat, EXTERNAL, body), jump);
  }

  /** A local chain that jumps to the local-IP chain of its table. */
  lemma LocalAimed(x: Context, f: Family, t: TableName, rules: seq<Rule>, used: set<Place>, gone: set<Place>)
    requires JumpsWithin(rules, {LocalIpChain(f)}) && (t, LocalIpChain(f)) in used
    ensures Aimed(f, LocalChainStart(x, f, t) + Appends(f, t, LOCAL, rules) + One(f, t, EnsureJump("OUTPUT", LOCAL)), used, gone)
  {
    hide *;
    LocalStartStraight(x, f, t, gone);
    StraightAimed(f, LocalChainStart(x, f, t), used, gone);
    AimedThen(f, LocalChainStart(x, f, t), t, LOCAL, rules, {LocalIpChain(f)}, used, gone);
    OneStraight(f, t, EnsureJump("OUTPUT", LOCAL), gone);
    AndStraight(f, LocalChainStart(x, f, t) + Appends(f, t, LOCAL, rules), One(f, t, EnsureJump("OUTPUT", LOCAL)), used, gone);
  }

  lemma StartRedirectAimed(c: Config, k: Capabilities, x: Context, f: Family, gone: set<Place>)
    ensures Aimed(f, StartRedirect(c, k, x, f), {}, gone)
  {
    if !(f == V6 && !k.ip6Nat) {
      var a, b, e := RedirectExternalSetup(c, k, x, f), RedirectLocalSetup(c, k, x, f), LoopbackRejectSetup(x, f, c.redirPort);
      assert StartRedirect(c, k, x, f) == a + b + e;
      assert b == LocalChainStart(x, f, Nat) + Appends(f, Nat, LOCAL, RedirectLocalRules(c, k, x, f)) + One(f, Nat, EnsureJump("OUTPUT", LOCAL));
      hide *;
      RedirectExternalAimed(c, k, x, f, gone);
      StandardJumps(c, k, x, f, ActRedirect);
      assert {} + EnsuredBy(f, a) == EnsuredBy(f, a);
      LocalAimed(x, f, Nat, RedirectLocalRules(c, k, x, f), EnsuredBy(f, a), gone);
      AimedConcat(f, a, b, {}, gone);
      RestStraight(c, x, f, gone);
      AndStraight(f, a + b, e, {}, gone);
    } else {
      assert StartRedirect(c, k, x, f) == [];
    }
  }

  lemma PerfDestEnsured(c: Config, k: Capabilities, f: Family, chain: string)
    requires IsBoxCustomChain(chain)
    ensures EnsuredBy(f, PerfDestSetup(c, k, f, chain)) == {(Mangle, chain)}
  {
    PerfDestRegular(f, {}, c, k, chain);
  }

  lemma OneEnsured(f: Family, t: TableName, c: string)
    requires IsBoxCustomChain(c)
    ensures EnsuredBy(f, One(f, t, EnsureChain(c))) == {(t, c)}
  {
    EnsureRegular(f, {}, t, c);
  }

  /** A chain that jumps to two side chains made just before. */
  lemma SidesAimed(f: Family, t: TableName, a: seq<Step>, d: seq<Step>, e: seq<Step>, g: seq<Step>, one: string, two: string,
                   chain: string, rules: seq<Rule>, used: set<Place>, gone: set<Place>)
    requires Straight(a, gone) && Straight(d, gone) && Straight(e, gone) && Straight(g, gone)
    requires (t, one) in EnsuredBy(f, d) && (t, two) in EnsuredBy(f, e) && JumpsWithin(rules, {one, two})
    ensures Aimed(f, a + d + e + g + Appends(f, t, chain, rules), used, gone)
  {
    hide Straight, Aimed, EnsuredBy, JumpsWithin, Appends;
    StraightBoth(a, d, gone);
    StraightBoth(a + d, e, gone);
    StraightBoth(a + d + e, g, gone);
    StraightAimed(f, a + d + e + g, used, gone);
    EnsuredAmong(f, a, d);
    EnsuredAmong(f, a + d, e);
    EnsuredAmong(f, a + d + e, g);
    AimedThen(f, a + d + e + g, t, chain, rules, {one, two}, used, gone);
  }

  lemma FastExternalAimed(c: Config, k: Capabilities, f: Family, gone: set<Place>)
    requires PerformanceChain(c, k)
    ensures Aimed(f, TproxyExternalSetup(c, k, f), {}, gone)
  {
    var a, d := One(f, Mangle, EnsureChain(EXTERNAL)), PerfDestSetup(c, k, f, TP_PRE_IP);
    var e, g := One(f, Mangle, EnsureChain(TP_PRE_IF)), Appends(f, Mangle, TP_PRE_IF, PerfIfRules(c));
    var rules, jump := PerfExternalRules(c, k, f), One(f, Mangle, EnsureJump("PREROUTING", EXTERNAL));
    hide *;
    FastExternalParts(c, k, f);
    CustomNames(f);
    OneStraight(f, Mangle, EnsureChain(EXTERNAL), gone);
    PerfDestStraight(c, k, f, TP_PRE_IP, gone);
    OneStraight(f, Mangle, EnsureChain(TP_PRE_IF), gone);
    AppendsStraight(f, Mangle, TP_PRE_IF, PerfIfRules(c), gone);
    OneStraight(f, Mangle, EnsureJump("PREROUTING", EXTERNAL), gone);
    PerfDestEnsured(c, k, f, TP_PRE_IP);
    OneEnsured(f, Mangle, TP_PRE_IF);
    FastExternalJumps(c, k, f);
    SidesAimed(f, Mangle, a, d, e, g, TP_PRE_IP, TP_PRE_IF, EXTERNAL, rules, {}, gone);
    AndStraight(f, a + d + e + g + Appends(f, Mangle, EXTERNAL, rules), jump, {}, gone);
  }

  lemma SlowExternalAimed(c: Config, k: Capabilities, f: Family, gone: set<Place>)
    requires !PerformanceChain(c, k)
    ensures Aimed(f, TproxyExternalSetup(c, k, f), {}, gone)
    ensures (Mangle, LocalIpChain(f)) in EnsuredBy(f, TproxyExternalSetup(c, k, f))
  {
    var a := One(f, Mangle, EnsureChain(EXTERNAL)) + Appends(f, Mangle, EXTERNAL, ExternalPrefix(c, k, f, ActTproxy));
    var e, body := LocalIpSetup(c, k, f, Mangle), ExternalBody(c, k, f, ActTproxy);
    var main, jump := Appends(f, Mangle, EXTERNAL, body), One(f, Mangle, EnsureJump("PREROUTING", EXTERNAL));
    assert NoJumps(ExternalPrefix(c, k, f, ActTproxy));
    hide *;
    SlowExternalParts(c, k, f);
    AppendsStraight(f, Mangle, EXTERNAL, ExternalPrefix(c, k, f, ActTproxy), gone);
    LocalIpEnsured(c, k, f, Mangle, gone);
    StandardJumps(c, k, Context(0, 0, [], [], [], false, false), f, ActTproxy);
    OneStraight(f, Mangle, EnsureJump("PREROUTING", EXTERNAL), gone);
    StraightBoth(a, e, gone);
    StraightAimed(f, a + e, {}, gone);
    EnsuredAmong(f, a, e);
    AimedThen(f, a + e, Mangle, EXTERNAL, body, {LocalIpChain(f)}, {}, gone);
    EnsuredAmong(f, a + e, main);
    AndStraight(f, a + e + main, jump, {}, gone);
    EnsuredAmong(f, a + e + main, jump);
  }

  lemma FastLocalStepsAimed(c: Config, k: Capabilities, x: Context, f: Family, used: set<Place>, gone: set<Place>)
    ensures Aimed(f, FastLocalSteps(c, k, x, f), used, gone)
  {
    var d, e := PerfDestSetup(c, k, f, TP_OUT_IP), One(f, Mangle, EnsureChain(TP_OUT_APP));
    var g, rules := Appends(f, Mangle, TP_OUT_APP, PerfAppRules(c, x, f)), PerfLocalRules(c, k, x, f);
    assert FastLocalSteps(c, k, x, f) == d + e + g + Appends(f, Mangle, LOCAL, rules);
    assert NoJumps(PerfAppRules(c, x, f)) && Straight([], gone) && [] + d == d;
    CustomNames(f);
    hide *;
    PerfDestStraight(c, k, f, TP_OUT_IP, gone);
    OneStraight(f, Mangle, EnsureChain(TP_OUT_APP), gone);
    AppendsStraight(f, Mangle, TP_OUT_APP, PerfAppRules(c, x, f), gone);
    PerfDestEnsured(c, k, f, TP_OUT_IP);
    OneEnsured(f, Mangle, TP_OUT_APP);
    FastLocalJumps(c, k, x, f);
    SidesAimed(f, Mangle, [], d, e, g, TP_OUT_IP, TP_OUT_APP, LOCAL, rules, used, gone);
  }

  lemma TproxyLocalAimed(c: Config, k: Capabilities, x: Context, f: Family, used: set<Place>, gone: set<Place>)
    requires !PerformanceChain(c, k) ==> (Mangle, LocalIpChain(f)) in used
    ensures Aimed(f, TproxyLocalSetup(c, k, x, f), used, gone)
  {
    hide *;
    LocalSetupSplit(c, k, x, f);
    if PerformanceChain(c, k) {
      var start, fast, jump := LocalChainStart(x, f, Mangle), FastLocalSteps(c, k, x, f), One(f, Mangle, EnsureJump("OUTPUT", LOCAL));
      LocalStartStraight(x, f, Mangle, gone);
      StraightAimed(f, start, used, gone);
      FastLocalStepsAimed(c, k, x, f, used + EnsuredBy(f, start), gone);
      AimedConcat(f, start, fast, used, gone);
      OneStraight(f, Mangle, EnsureJump("OUTPUT", LOCAL), gone);
      AndStraight(f, start + fast, jump, used, gone);
    } else {
      StandardJumps(c, k, x, f, ActTproxy);
      LocalAimed(x, f, Mangle, TproxyLocalRules(c, k, x, f), used, gone);
    }
  }

  /** What a TPROXY start deletes: the divert chain, where it does not make it. */
  function Diverted(c: Config, k: Capabilities): set<Place> {
    if c.mode == Enhance || !k.socketMatch || !PerformanceChain(c, k) then {(Mangle, DIVERT)} else {}
  }

  lemma DivertStraight(c: Config, k: Capabilities, f: Family)
    ensures Straight(DivertSetup(c, k, f), Diverted(c, k))
  {
    hide PerformanceChain;
  }

  lemma StartTproxyAimed(c: Config, k: Capabilities, x: Context, f: Family)
    ensures Aimed(f, StartTproxy(c, k, x, f), {}, Diverted(c, k))
  {
    if TproxySupported(k, f) {
      var gone := Diverted(c, k);
      hide TproxyRouting, TproxyTables, Aimed, Straight, EnsuredBy, Diverted;
      RestStraight(c, x, f, gone);
      StraightAimed(f, TproxyRouting(f), {}, gone);
      TproxyTablesAimed(c, k, x, f);
      AimedMore(f, TproxyTables(c, k, x, f), {}, {} + EnsuredBy(f, TproxyRouting(f)), gone);
      AimedConcat(f, TproxyRouting(f), TproxyTables(c, k, x, f), {}, gone);
    } else {
      assert StartTproxy(c, k, x, f) == [];
    }
  }

  lemma TproxyTablesAimed(c: Config, k: Capabilities, x: Context, f: Family)
    ensures Aimed(f, TproxyTables(c, k, x, f), {}, Diverted(c, k))
  {
    var gone := Diverted(c, k);
    var a, b, d, e := TproxyExternalSetup(c, k, f), TproxyLocalSetup(c, k, x, f), DivertSetup(c, k, f), QuicSetup(c, f);
    var g := if c.mode != Enhance then LoopbackRejectSetup(x, f, c.tproxyPort) else [];
    var h, i := DnsNatSetup(c, k, x, f), FakeIpIcmpSetup(c, f);
    assert TproxyTables(c, k, x, f) == a + b + d + e + g + h + i;
    hide *;
    if PerformanceChain(c, k) {
      FastExternalAimed(c, k, f, gone);
    } else {
      SlowExternalAimed(c, k, f, gone);
    }
    TproxyLocalAimed(c, k, x, f, {} + EnsuredBy(f, a), gone);
    AimedConcat(f, a, b, {}, gone);
    DivertStraight(c, k, f);
    RestStraight(c, x, f, gone);
    DnsStraight(c, k, x, f, gone);
    AndStraight(f, a + b, d, {}, gone);
    AndStraight(f, a + b + d, e, {}, gone);
    AndStraight(f, a + b + d + e, g, {}, gone);
    AndStraight(f, a + b + d + e + g, h, {}, gone);
    AndStraight(f, a + b + d + e + g + h, i, {}, gone);
  }

  /** What a mode's setup may delete. */
  function Deletes(c: Config, k: Capabilities, f: Family): set<Place> {
    match c.mode
    case TproxyOnly => Diverted(c, k)
    case Enhance => Diverted(c, k)
    case Tun => if TunManaged(c) then {} else {(Mangle, TunPreChain(f)), (Mangle, TunOutChain(f))}
    case _ => {}
  }

  lemma TunStraight(c: Config, k: Capabilities, x: Context, f: Family, gone: set<Place>)
    ensures Straight(StartTunBypass(c, k, x, f), gone)
  {
    hide TunTables, TunRouting, Straight;
    RestStraight(c, x, f, gone);
    TunTablesStraight(c, k, x, f, gone);
    StraightBoth(TunTables(c, k, x, f), TunRouting(f), gone);
  }

  lemma TunTablesStraight(c: Config, k: Capabilities, x: Context, f: Family, gone: set<Place>)
    ensures Straight(TunTables(c, k, x, f), gone)
  {
    var pre, out := TunPreChain(f), TunOutChain(f);
    var a, b := One(f, Mangle, EnsureChain(pre)), One(f, Mangle, EnsureChain(out));
    var d, e := Appends(f, Mangle, pre, TunPreRules(c, k, f)), One(f, Mangle, AppendFirst(out, CoreBypassVariants(x)));
    var g := Appends(f, Mangle, out, TunOutRules(c, k, x, f));
    var h, i := One(f, Mangle, EnsureJump("PREROUTING", pre)), One(f, Mangle, EnsureJump("OUTPUT", out));
    assert NoJumps(TunPreRules(c, k, f)) && NoJumps(TunOutRules(c, k, x, f));
    hide *;
    TunTablesParts(c, k, x, f);
    OneStraight(f, Mangle, EnsureChain(pre), gone);
    OneStraight(f, Mangle, EnsureChain(out), gone);
    AppendsStraight(f, Mangle, pre, TunPreRules(c, k, f), gone);
    OneStraight(f, Mangle, AppendFirst(out, CoreBypassVariants(x)), gone);
    AppendsStraight(f, Mangle, out, TunOutRules(c, k, x, f), gone);
    OneStraight(f, Mangle, EnsureJump("PREROUTING", pre), gone);
    OneStraight(f, Mangle, EnsureJump("OUTPUT", out), gone);
    StraightBoth(a, b, gone);
    StraightBoth(a + b, d, gone);
    StraightBoth(a + b + d, e, gone);
    StraightBoth(a + b + d + e, g, gone);
    StraightBoth(a + b + d + e + g, h, gone);
    StraightBoth(a + b + d + e + g + h, i, gone);
  }

  lemma StopTunStraight(f: Family)
    ensures Straight(StopTunBypass(f), {(Mangle, TunPreChain(f)), (Mangle, TunOutChain(f))})
  {
    hide TunPreChain, TunOutChain;
  }

  lemma SetupAimed(c: Config, k: Capabilities, x: Context, f: Family)
    ensures Aimed(f, ModeSetup(c, k, x, f), {}, Deletes(c, k, f))
  {
    hide StartRedirect, StartTproxy, StartTunBypass, StopTunBypass, ForwardSetup, Aimed, Straight, EnsuredBy, Diverted, TunManaged;
    var gone := Deletes(c, k, f);
    RestStraight(c, x, f, gone);
    StraightAimed(f, ForwardSetup(c, f), {}, gone);
    StraightAimed(f, [], {}, gone);
    match c.mode
    case RedirectOnly => StartRedirectAimed(c, k, x, f, gone);
    case TproxyOnly => StartTproxyAimed(c, k, x, f);
    case Mixed =>
      StartRedirectAimed(c, k, x, f, gone);
      AimedMore(f, StartRedirect(c, k, x, f), {}, {} + EnsuredBy(f, ForwardSetup(c, f)), gone);
      AimedConcat(f, ForwardSetup(c, f), StartRedirect(c, k, x, f), {}, gone);
    case Enhance =>
      StartRedirectAimed(c, k, x, f, gone);
      StartTproxyAimed(c, k, x, f);
      AimedMore(f, StartTproxy(c, k, x, f), {}, {} + EnsuredBy(f, StartRedirect(c, k, x, f)), gone);
      AimedConcat(f, StartRedirect(c, k, x, f), StartTproxy(c, k, x, f), {}, gone);
    case Tun =>
      if TunManaged(c) {
        TunStraight(c, k, x, f, gone);
        StraightAimed(f, StartTunBypass(c, k, x, f), {}, gone);
        AimedMore(f, StartTunBypass(c, k, x, f), {}, {} + EnsuredBy(f, ForwardSetup(c, f)), gone);
        AimedConcat(f, ForwardSetup(c, f), StartTunBypass(c, k, x, f), {}, gone);
      } else {
        StopTunStraight(f);
        AndStraight(f, ForwardSetup(c, f), StopTunBypass(f), {}, gone);
      }
    case Ebpf =>
  }

  // ----- the modes -----

  lemma {:induction false} GroundedFrom(f: Family, twice: set<Place>, steps: seq<Step>, used: set<Place>, gone: set<Place>, all: set<Place>)
    requires Regular(f, twice, steps, used) && Aimed(f, steps, used, gone) && forall s :: s in steps ==> s.family == f
    requires EnsuredBy(f, steps) <= all && gone !! all && forall p :: p in twice ==> !IsLocalIp(p.1)
    ensures Grounded(f, steps, used, all)
    decreases |steps|
  {
    hide IsBoxCustomChain, IsLocalIp;
    if steps != [] {
      var s := steps[0];
      assert s in steps && forall q :: q in steps[1..] ==> q in steps;
      assert Ensured(f, s) <= all;
      GroundedFrom(f, twice, steps[1..], used + Ensured(f, s), gone, all);
    }
  }

  lemma DeletesOther(c: Config, k: Capabilities, x: Context, f: Family)
    ensures Deletes(c, k, f) !! EnsuredBy(f, ModeSetup(c, k, x, f))
  {
    PlacesApart(f);
    TablesApart(f);
    NatPlaces(f);
    StartTproxyRegular(f, DnsPlaces(f), c, k, x);
    StartRedirectRegular(f, DnsPlaces(f), c, k, x);
    DivertRegular(f, {}, c, k);
    hide StartRedirect, StartTproxy, StartTunBypass, StopTunBypass, ForwardSetup, Regular, EnsuredBy, MangleExternal, MangleLocal;
    hide DivertSetup, DnsNatSetup, NatExternal, NatLocal, DnsPlaces, TunManaged, PerformanceChain;
    match c.mode
    case TproxyOnly =>
    case Enhance => EnsuredByConcat(f, StartRedirect(c, k, x, f), StartTproxy(c, k, x, f));
    case Tun => TunDeletesOther(c, k, x, f);
    case _ =>
  }

  lemma NatPlaces(f: Family)
    ensures forall p :: p in NatExternal(f) + NatLocal() + DnsPlaces(f) ==> p.0 == Nat
    ensures (Mangle, DIVERT) in MangleDivert()
  {
  }

  lemma TunDeletesOther(c: Config, k: Capabilities, x: Context, f: Family)
    requires c.mode == Tun
    ensures Deletes(c, k, f) !! EnsuredBy(f, ModeSetup(c, k, x, f))
  {
    RestUnrecorded(f, c, x);
    hide StartTunBypass, StopTunBypass, ForwardSetup, TunManaged, Regular, EnsuredBy, Unrecorded;
    if !TunManaged(c) {
      UnrecordedRegular(f, {}, ForwardSetup(c, f), {});
      UnrecordedRegular(f, {}, StopTunBypass(f), {});
      EnsuredByConcat(f, ForwardSetup(c, f), StopTunBypass(f));
    }
  }

  lemma SetupFamily(c: Config, k: Capabilities, x: Context, f: Family)
    ensures forall s :: s in ModeSetup(c, k, x, f) ==> s.family == f
  {
    SetupPermitted(c, k, x, f, ModeStop(c, k, x, f));
    hide ModeSetup, ModeStop, Permits;
  }

  lemma TwiceAreDns(c: Config, f: Family)
    ensures forall p :: p in EnsuredTwice(c, f) ==> !IsLocalIp(p.1)
  {
  }

  /** Every mode's setup is grounded. */
  lemma SetupGrounded(c: Config, k: Capabilities, x: Context, f: Family)
    ensures Grounded(f, ModeSetup(c, k, x, f), {}, EnsuredBy(f, ModeSetup(c, k, x, f)))
  {
    hide *;
    SetupRegular(c, k, x, f);
    SetupAimed(c, k, x, f);
    SetupFamily(c, k, x, f);
    DeletesOther(c, k, x, f);
    TwiceAreDns(c, f);
    GroundedFrom(f, EnsuredTwice(c, f), ModeSetup(c, k, x, f), {}, Deletes(c, k, f), EnsuredBy(f, ModeSetup(c, k, x, f)));
  }

  /** A setup whose session reports no failure. */
  predicate Reported(refused: set<Rule>, w: World, c: Config, k: Capabilities, x: Context, f: Family, buffered: bool) {
    var h, steps := Opened(w, f, buffered), ModeSetup(c, k, x, f);
    NeededOk(steps, OksOf(refused, h, steps)) && EndOf(refused, RunOf(refused, h, steps)).ok
  }

  lemma ReportedMeans(refused: set<Rule>, w: World, c: Config, k: Capabilities, x: Context, f: Family, buffered: bool)
    requires Reported(refused, w, c, k, x, f, buffered)
    ensures SessionAcceptable(refused, w, f, buffered, {}, ModeSetup(c, k, x, f))
    ensures EndOf(refused, RunOf(refused, Opened(w, f, buffered), ModeSetup(c, k, x, f))).held.kernel
         == SessionRun(refused, w, f, buffered, {}, ModeSetup(c, k, x, f))
  {
    SetupGrounded(c, k, x, f);
    hide ModeSetup, NeededOk, OksOf, RunOf, EndOf, Opened, SessionRun, SessionAcceptable, Grounded, EnsuredBy;
    SuccessMeans(refused, w, f, buffered, ModeSetup(c, k, x, f), EnsuredBy(f, ModeSetup(c, k, x, f)));
  }
}
