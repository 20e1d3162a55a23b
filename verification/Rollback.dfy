/**
 The rollback of a setup that failed: its teardown runs while the session is still
 open, so every command of it first tries to flush what the setup has recorded,
 and the end of the session tries once more.  This restores the tables exactly if
 the record can be flushed, or if its flush stops at the very first command it
 has for some table.  In every other case the failed flush brings a chain back
 behind the rollback's last command; a teardown outside the session removes it.
 */
module Rollback {
  import opened Bytes
  import opened Netfilter
  import opened Batching
  import opened RuleConfig
  import opened RuleScripts
  import opened SessionTeardown
  import opened Teardown
  import opened TeardownModes

  // ----- where a flush stops -----

  /** The first table, from the `i`th on, whose record cannot be replayed. */
  function Blocked(refused: set<Rule>, w: World, b: RuleBatch, i: nat): (j: Option<nat>)
    requires i <= 3
    ensures j.Some? ==> i <= j.value < 3
    decreases 3 - i
  {
    if i == 3 then None else
      var t := FLUSH_ORDER[i];
      if Idle(Pending(b, t)) || FlushedTable(refused, w, b.family, t, Pending(b, t)).ok then Blocked(refused, w, b, i + 1) else Some(i)
  }

  /** The very first command of a replay is refused. */
  predicate Barren(refused: set<Rule>, tabs: Tables, t: TableName, tb: TableBatch) {
    t !in tabs || (tb.decls == [] && tb.appends != [] && !Takes(refused, tabs[t], tb.appends[0].0, tb.appends[0].1))
  }

  /** The record can be flushed, or the flush stops before it has done anything to its table. */
  predicate Recoverable(refused: set<Rule>, h: Held) {
    match h.batch
    case None => true
    case Some(b) =>
      match Blocked(refused, h.kernel, b, 0)
      case None => true
      case Some(i) => Barren(refused, TablesOf(h.kernel, b.family), FLUSH_ORDER[i], Pending(b, FLUSH_ORDER[i]))
  }

  /** A state behind a failed flush: nothing is pending for the tables before the
      `i`th, and the record of that one cannot be replayed. */
  ghost predicate Jammed(refused: set<Rule>, g: Held, i: nat) {
    && i < 3 && g.batch.Some? && !Idle(Pending(g.batch.value, FLUSH_ORDER[i]))
    && (forall j | 0 <= j < i :: Idle(Pending(g.batch.value, FLUSH_ORDER[j])))
    && !FlushedTable(refused, g.kernel, g.batch.value.family, FLUSH_ORDER[i], Pending(g.batch.value, FLUSH_ORDER[i])).ok
  }

  lemma {:induction false} BlockedSame(refused: set<Rule>, w: World, b: RuleBatch, v: World, d: RuleBatch, i: nat)
    requires i <= 3 && b.family == d.family
    requires forall j | i <= j < 3 :: Pending(b, FLUSH_ORDER[j]) == Pending(d, FLUSH_ORDER[j])
    requires forall j | i <= j < 3 ::
      FlushedTable(refused, w, b.family, FLUSH_ORDER[j], Pending(b, FLUSH_ORDER[j])).ok
        == FlushedTable(refused, v, b.family, FLUSH_ORDER[j], Pending(b, FLUSH_ORDER[j])).ok
    ensures Blocked(refused, w, b, i) == Blocked(refused, v, d, i)
    decreases 3 - i
  {
    hide FlushedTable;
    if i < 3 {
      BlockedSame(refused, w, b, v, d, i + 1);
    }
  }

  /** Flushing one table does not touch another. */
  lemma OtherTable(refused: set<Rule>, w: World, f: Family, t: TableName, tb: TableBatch, u: TableName, ub: TableBatch)
    requires t != u
    ensures var v := FlushedTable(refused, w, f, t, tb).world;
      && (u in TablesOf(v, f) <==> u in TablesOf(w, f)) && (u in TablesOf(w, f) ==> v[f][u] == w[f][u])
      && FlushedTable(refused, v, f, u, ub).ok == FlushedTable(refused, w, f, u, ub).ok
  {
    hide Reach, Declare, Restored;
  }

  /** A table, in two worlds. */
  predicate SameTable(w: World, v: World, f: Family, t: TableName) {
    (t in TablesOf(w, f) <==> t in TablesOf(v, f)) && (t in TablesOf(w, f) ==> w[f][t] == v[f][t])
  }

  lemma SameFlushed(refused: set<Rule>, w: World, v: World, f: Family, t: TableName, tb: TableBatch)
    requires SameTable(w, v, f, t)
    ensures SameTable(FlushedTable(refused, w, f, t, tb).world, FlushedTable(refused, v, f, t, tb).world, f, t)
    ensures FlushedTable(refused, w, f, t, tb).ok == FlushedTable(refused, v, f, t, tb).ok
  {
    hide Reach, Declare, Restored;
  }

  /** What `Blocked` says of a flush and its end. */
  ghost predicate Blocks(refused: set<Rule>, w: World, b: RuleBatch, o: Turn, s: Option<nat>) {
    && o.ok == s.None?
    && (s.Some? ==>
          && Jammed(refused, o.held, s.value) && o.held.batch.value.family == b.family
          && Pending(o.held.batch.value, FLUSH_ORDER[s.value]) == Pending(b, FLUSH_ORDER[s.value])
          && SameTable(o.held.kernel, FlushedTable(refused, w, b.family, FLUSH_ORDER[s.value], Pending(b, FLUSH_ORDER[s.value])).world,
                       b.family, FLUSH_ORDER[s.value]))
  }

  lemma BlocksLater(refused: set<Rule>, w: World, b: RuleBatch, i: nat, o: Turn, s: Option<nat>)
    requires i < 3 && (s.Some? ==> i < s.value < 3)
    requires var t := FLUSH_ORDER[i];
      Blocks(refused, FlushedTable(refused, w, b.family, t, Pending(b, t)).world, Recording(b, t, Done(Pending(b, t))), o, s)
    ensures Blocks(refused, w, b, o, s)
  {
    var t := FLUSH_ORDER[i];
    var v := FlushedTable(refused, w, b.family, t, Pending(b, t)).world;
    PendingRecorded(b, t, Done(Pending(b, t)));
    if s.Some? {
      var u := FLUSH_ORDER[s.value];
      OtherTable(refused, w, b.family, t, Pending(b, t), u, Pending(b, u));
      SameFlushed(refused, v, w, b.family, u, Pending(b, u));
      hide FlushedTable, Done, Recording, Pending;
    }
  }

  lemma BlockedPassed(refused: set<Rule>, w: World, b: RuleBatch, i: nat)
    requires i < 3
    ensures var t := FLUSH_ORDER[i];
      Blocked(refused, FlushedTable(refused, w, b.family, t, Pending(b, t)).world, Recording(b, t, Done(Pending(b, t))), i + 1)
        == Blocked(refused, w, b, i + 1)
  {
    var t := FLUSH_ORDER[i];
    var tb := Pending(b, t);
    PendingRecorded(b, t, Done(tb));
    var v := FlushedTable(refused, w, b.family, t, tb).world;
    forall u | u != t
      ensures FlushedTable(refused, w, b.family, u, Pending(b, u)).ok == FlushedTable(refused, v, b.family, u, Pending(b, u)).ok
    {
      OtherTable(refused, w, b.family, t, tb, u, Pending(b, u));
    }
    hide FlushedTable, Done, Pending;
    BlockedSame(refused, w, b, v, Recording(b, t, Done(tb)), i + 1);
  }

  lemma {:induction false} BlockedFlush(refused: set<Rule>, w: World, b: RuleBatch, i: nat)
    requires i <= 3 && forall j | 0 <= j < i :: Idle(Pending(b, FLUSH_ORDER[j]))
    ensures Blocks(refused, w, b, FlushFrom(refused, w, b, i), Blocked(refused, w, b, i))
    decreases 3 - i
  {
    if i < 3 {
      var t := FLUSH_ORDER[i];
      var e, next := FlushedTable(refused, w, b.family, t, Pending(b, t)), Recording(b, t, Done(Pending(b, t)));
      if Idle(Pending(b, t)) {
        hide FlushedTable, Blocks;
        BlockedFlush(refused, w, b, i + 1);
      } else if e.ok {
        DoneMeans(Pending(b, t));
        PendingRecorded(b, t, Done(Pending(b, t)));
        BlockedPassed(refused, w, b, i);
        hide FlushedTable, Done, Recording, Idle, Blocks;
        BlockedFlush(refused, e.world, next, i + 1);
        BlocksLater(refused, w, b, i, FlushFrom(refused, w, b, i), Blocked(refused, w, b, i));
      } else {
        TableFailsAgain(refused, w, b.family, t, Pending(b, t));
        hide FlushedTable;
      }
    }
  }

  // ----- the flush behind every command -----

  lemma {:induction false} SkipIdle(refused: set<Rule>, w: World, b: RuleBatch, i: nat, k: nat)
    requires k <= i <= 3 && forall j | 0 <= j < i :: Idle(Pending(b, FLUSH_ORDER[j]))
    ensures FlushFrom(refused, w, b, k) == FlushFrom(refused, w, b, i)
    decreases i - k
  {
    if k < i {
      SkipIdle(refused, w, b, i, k + 1);
    }
  }

  /** Behind a failed flush the next one fails at the same table. */
  lemma JammedFlush(refused: set<Rule>, g: Held, i: nat)
    requires Jammed(refused, g, i)
    ensures var t := FLUSH_ORDER[i];
      var e := FlushedTable(refused, g.kernel, g.batch.value.family, t, Pending(g.batch.value, t));
      FlushOf(refused, g) == Turn(g.(kernel := e.world), false) && Jammed(refused, g.(kernel := e.world), i)
  {
    var b, t := g.batch.value, FLUSH_ORDER[i];
    SkipIdle(refused, g.kernel, b, i, 0);
    TableFailsAgain(refused, g.kernel, b.family, t, Pending(b, t));
    hide FlushedTable;
  }

  /** Commands that only take away. */
  predicate Removing(cmd: IptCmd) { cmd.Flush? || cmd.Delete? || cmd.DeleteChain? }

  predicate Fewer(v: World, w: World, f: Family, t: TableName) {
    (t in TablesOf(v, f) <==> t in TablesOf(w, f)) && (t in TablesOf(w, f) ==> v[f][t].Keys <= w[f][t].Keys)
  }

  lemma RemovingFewer(refused: set<Rule>, w: World, f: Family, u: TableName, cmd: IptCmd, t: TableName)
    requires Removing(cmd)
    ensures Fewer(Silently(refused, w, f, u, cmd), w, f, t)
  {
  }

  lemma {:induction false} ReplayFewer(refused: set<Rule>, x: Chains, y: Chains, appends: seq<(string, Rule)>)
    requires x.Keys <= y.Keys && Replay(refused, x, appends).Some?
    ensures Replay(refused, y, appends).Some?
    decreases |appends|
  {
    if appends != [] {
      var cmd := Append(appends[0].0, appends[0].1);
      assert forall c :: c in x ==> c in y;
      ReplayFewer(refused, Ipt(refused, x, cmd).value, Ipt(refused, y, cmd).value, appends[1..]);
    }
  }

  /** Taking away does not make a refused record acceptable. */
  lemma StillRefused(refused: set<Rule>, v: World, w: World, f: Family, t: TableName, tb: TableBatch)
    requires Fewer(v, w, f, t) && !FlushedTable(refused, w, f, t, tb).ok
    ensures !FlushedTable(refused, v, f, t, tb).ok
  {
    if t in TablesOf(v, f) && Restored(refused, v[f][t], tb).Some? {
      DeclareGives(v[f][t], tb.decls);
      DeclareGives(w[f][t], tb.decls);
      ReplayFewer(refused, Declare(v[f][t], tb.decls), Declare(w[f][t], tb.decls), tb.appends);
    }
  }

  /** A silent command of an open session, and the flush behind it. */
  function Purged(refused: set<Rule>, g: Held, f: Family, t: TableName, cmd: IptCmd): Held {
    FlushOf(refused, g.(kernel := Silently(refused, g.kernel, f, t, cmd))).held
  }

  function PurgedBy(refused: set<Rule>, g: Held, s: Step): Held {
    match s.op
    case DelRule(c, r) => Purged(refused, g, s.family, s.table, Delete(c, r))
    case CleanupChain(c) => Purged(refused, Purged(refused, g, s.family, s.table, Flush(c)), s.family, s.table, DeleteChain(c))
    case Sync(_) => FlushOf(refused, g).held
    case _ => g
  }

  /** A flush is what a command comes to that the kernel never takes. */
  lemma FlushPurges(refused: set<Rule>, g: Held, f: Family)
    ensures FlushOf(refused, g).held == Purged(refused, g, f, Filter, DeleteChain("PREROUTING"))
    ensures Silently(refused, g.kernel, f, Filter, DeleteChain("PREROUTING")) == g.kernel
  {
    hide FlushOf;
  }

  function PurgedAll(refused: set<Rule>, g: Held, steps: seq<Step>): Held
    decreases |steps|
  {
    if steps == [] then g else PurgedAll(refused, PurgedBy(refused, g, steps[0]), steps[1..])
  }

  predicate Cleanups(f: Family, steps: seq<Step>) {
    forall s | s in steps :: s.family == f && (s.op.DelRule? || s.op.CleanupChain? || s.op.Sync?)
  }

  /** A teardown in an open session, seen from behind its flushes. */
  lemma {:induction false} RollbackPurges(refused: set<Rule>, h: Held, f: Family, steps: seq<Step>)
    requires Cleanups(f, steps)
    ensures FlushOf(refused, RunOf(refused, h, steps)).held == PurgedAll(refused, FlushOf(refused, h).held, steps)
    decreases |steps|
  {
    hide FlushOf, Silently;
    if steps != [] {
      assert steps[0] in steps && forall s :: s in steps[1..] ==> s in steps;
      RollbackPurges(refused, PerformOf(refused, h, steps[0]).held, f, steps[1..]);
    }
  }

  // ----- nothing gets in the way -----

  /** Flushing changes nothing, now and behind whatever is taken away. */
  ghost predicate Inert(refused: set<Rule>, g: Held, f: Family) {
    Calm(g) || exists i: nat :: JammedBarren(refused, g, f, i)
  }

  ghost predicate JammedBarren(refused: set<Rule>, g: Held, f: Family, i: nat) {
    Jammed(refused, g, i) && g.batch.value.family == f
    && Barren(refused, TablesOf(g.kernel, f), FLUSH_ORDER[i], Pending(g.batch.value, FLUSH_ORDER[i]))
  }

  lemma BarrenFlush(refused: set<Rule>, w: World, f: Family, t: TableName, tb: TableBatch)
    requires Barren(refused, TablesOf(w, f), t, tb)
    ensures FlushedTable(refused, w, f, t, tb).world == w
  {
    if t in TablesOf(w, f) {
      WithTableTwice(w, f, t, map[], map[]);
    }
  }

  lemma BarrenFewer(refused: set<Rule>, v: World, w: World, f: Family, t: TableName, tb: TableBatch)
    requires Fewer(v, w, f, t) && Barren(refused, TablesOf(w, f), t, tb)
    ensures Barren(refused, TablesOf(v, f), t, tb)
  {
  }

  lemma InertPurged(refused: set<Rule>, g: Held, f: Family, t: TableName, cmd: IptCmd)
    requires Inert(refused, g, f) && Removing(cmd)
    ensures Purged(refused, g, f, t, cmd) == g.(kernel := Silently(refused, g.kernel, f, t, cmd))
    ensures Inert(refused, Purged(refused, g, f, t, cmd), f)
  {
    var v := g.(kernel := Silently(refused, g.kernel, f, t, cmd));
    if Calm(g) {
      CalmFlush(refused, v);
    } else {
      var i: nat :| JammedBarren(refused, g, f, i);
      var u, tb := FLUSH_ORDER[i], Pending(g.batch.value, FLUSH_ORDER[i]);
      RemovingFewer(refused, g.kernel, f, t, cmd, u);
      StillRefused(refused, v.kernel, g.kernel, f, u, tb);
      BarrenFewer(refused, v.kernel, g.kernel, f, u, tb);
      hide FlushedTable, Barren, Silently, FlushOf, Fewer;
      assert Jammed(refused, v, i);
      JammedFlush(refused, v, i);
      BarrenFlush(refused, v.kernel, f, u, tb);
      assert JammedBarren(refused, v, f, i);
    }
  }

  lemma {:induction false} InertRun(refused: set<Rule>, g: Held, f: Family, steps: seq<Step>)
    requires Inert(refused, g, f) && Cleanups(f, steps)
    ensures PurgedAll(refused, g, steps).kernel == DirectRun(refused, g.kernel, steps)
    decreases |steps|
  {
    hide Inert, Purged, Silently;
    if steps != [] {
      var s, t := steps[0], steps[0].table;
      assert s in steps && forall x :: x in steps[1..] ==> x in steps;
      match s.op {
        case DelRule(c, r) => InertPurged(refused, g, f, t, Delete(c, r));
        case CleanupChain(c) =>
          InertPurged(refused, g, f, t, Flush(c));
          InertPurged(refused, Purged(refused, g, f, t, Flush(c)), f, t, DeleteChain(c));
        case Sync(_) =>
          FlushPurges(refused, g, f);
          InertPurged(refused, g, f, Filter, DeleteChain("PREROUTING"));
        case _ =>
      }
      InertRun(refused, PurgedBy(refused, g, s), f, steps[1..]);
    }
  }

  // ----- chains that come back -----

  /** A chain the record of a table makes, or writes to with the first command it can run. */
  function Comeback(tb: TableBatch): string
    requires !Idle(tb)
  {
    if tb.decls != [] then tb.decls[0] else tb.appends[0].0
  }

  /** Behind a flush the chain is there, and holds the rule that came first. */
  ghost predicate Clings(chains: Chains, tb: TableBatch)
    requires !Idle(tb)
  {
    && Comeback(tb) in chains
    && (tb.decls == [] ==>
          && tb.appends[0].1 in chains[tb.appends[0].0]
          && (tb.appends[0].1.target.Jump? ==> tb.appends[0].1.target.chain in chains))
  }

  lemma FruitfulClings(refused: set<Rule>, chains: Chains, tb: TableBatch)
    requires !Idle(tb) && (tb.decls != [] || Takes(refused, chains, tb.appends[0].0, tb.appends[0].1))
    ensures Clings(Reach(refused, Declare(chains, tb.decls), tb.appends), tb)
  {
    DeclareGives(chains, tb.decls);
    ReachGives(refused, Declare(chains, tb.decls), tb.appends);
  }

  /** Nothing can be taken away that stops the record from coming back. */
  lemma ClingsOn(refused: set<Rule>, chains: Chains, tb: TableBatch, cmd: IptCmd)
    requires !Idle(tb) && Clings(chains, tb) && Removing(cmd) && (tb.decls == [] ==> tb.appends[0].1 !in refused)
    ensures tb.decls != [] || Takes(refused, Ipt(refused, chains, cmd).GetOr(chains), tb.appends[0].0, tb.appends[0].1)
  {
    if tb.decls == [] && cmd.DeleteChain? {
      var c, r := tb.appends[0].0, tb.appends[0].1;
      assert chains[c] != [];
      if r.target == Jump(cmd.chain) {
        assert Mentions(chains[c], cmd.chain) && Referenced(chains, cmd.chain);
      }
    }
  }

  ghost predicate JammedClings(refused: set<Rule>, g: Held, f: Family, i: nat) {
    && Jammed(refused, g, i) && g.batch.value.family == f
    && var t, tb := FLUSH_ORDER[i], Pending(g.batch.value, FLUSH_ORDER[i]);
       t in TablesOf(g.kernel, f) && Clings(g.kernel[f][t], tb) && (tb.decls == [] ==> tb.appends[0].1 !in refused)
  }

  lemma SilentlyAt(refused: set<Rule>, w: World, f: Family, u: TableName, cmd: IptCmd, t: TableName)
    requires t in TablesOf(w, f)
    ensures var v := Silently(refused, w, f, u, cmd);
      t in TablesOf(v, f) && v[f][t] == if u == t then Ipt(refused, w[f][t], cmd).GetOr(w[f][t]) else w[f][t]
  {
    hide Ipt;
  }

  lemma ClingingTable(refused: set<Rule>, w: World, f: Family, t: TableName, tb: TableBatch, u: TableName, cmd: IptCmd)
    requires !Idle(tb) && t in TablesOf(w, f) && Clings(w[f][t], tb) && Removing(cmd)
    requires tb.decls == [] ==> tb.appends[0].1 !in refused
    ensures var v := FlushedTable(refused, Silently(refused, w, f, u, cmd), f, t, tb).world;
      t in TablesOf(v, f) && Clings(v[f][t], tb)
  {
    var v := Silently(refused, w, f, u, cmd);
    SilentlyAt(refused, w, f, u, cmd, t);
    ClingsOn(refused, w[f][t], tb, cmd);
    hide Silently, Ipt;
    FruitfulClings(refused, v[f][t], tb);
    hide Reach, Declare, Restored, Clings;
  }

  lemma ClingsPurged(refused: set<Rule>, g: Held, f: Family, i: nat, u: TableName, cmd: IptCmd)
    requires JammedClings(refused, g, f, i) && Removing(cmd)
    ensures var next := Purged(refused, g, f, u, cmd); JammedClings(refused, next, f, i) && next.batch == g.batch
  {
    var v, t, tb := g.(kernel := Silently(refused, g.kernel, f, u, cmd)), FLUSH_ORDER[i], Pending(g.batch.value, FLUSH_ORDER[i]);
    RemovingFewer(refused, g.kernel, f, u, cmd, t);
    StillRefused(refused, v.kernel, g.kernel, f, t, tb);
    ClingingTable(refused, g.kernel, f, t, tb, u, cmd);
    hide FlushedTable, Silently, FlushOf, Fewer, Clings;
    assert Jammed(refused, v, i);
    JammedFlush(refused, v, i);
  }

  lemma {:induction false} ClingsRun(refused: set<Rule>, g: Held, f: Family, i: nat, steps: seq<Step>)
    requires JammedClings(refused, g, f, i) && Cleanups(f, steps)
    ensures JammedClings(refused, PurgedAll(refused, g, steps), f, i) && PurgedAll(refused, g, steps).batch == g.batch
    decreases |steps|
  {
    hide JammedClings, Purged;
    if steps != [] {
      var s, t := steps[0], steps[0].table;
      assert s in steps && forall x :: x in steps[1..] ==> x in steps;
      match s.op {
        case DelRule(c, r) => ClingsPurged(refused, g, f, i, t, Delete(c, r));
        case CleanupChain(c) =>
          ClingsPurged(refused, g, f, i, t, Flush(c));
          ClingsPurged(refused, Purged(refused, g, f, t, Flush(c)), f, i, t, DeleteChain(c));
        case Sync(_) =>
          FlushPurges(refused, g, f);
          ClingsPurged(refused, g, f, i, Filter, DeleteChain("PREROUTING"));
        case _ =>
      }
      ClingsRun(refused, PurgedBy(refused, g, s), f, i, steps[1..]);
    }
  }

  lemma ClingsDiffers(refused: set<Rule>, w0: World, g: Held, f: Family, i: nat, foot: Foot)
    requires JammedClings(refused, g, f, i) && PristineWorld(w0, f, foot)
    requires Recordable(foot, FLUSH_ORDER[i], Pending(g.batch.value, FLUSH_ORDER[i]))
    ensures g.kernel != w0
  {
    var t, tb := FLUSH_ORDER[i], Pending(g.batch.value, FLUSH_ORDER[i]);
    assert (t, Comeback(tb)) in foot.live by {
      if tb.decls != [] {
        assert tb.decls[0] in tb.decls;
      } else {
        assert tb.appends[0] in tb.appends;
      }
    }
    if t in w0[f] {
      assert Comeback(tb) in LiveIn(foot, t);
      assert Comeback(tb) !in w0[f][t].Keys;
    }
  }

  /** The state behind the first flush of the rollback. */
  lemma FirstFlush(refused: set<Rule>, w0: World, h: Held, f: Family, foot: Foot) returns (i: nat)
    requires HeldInside(w0, h, f, foot)
    ensures Recoverable(refused, h) ==> Inert(refused, FlushOf(refused, h).held, f)
    ensures !Recoverable(refused, h) ==>
      JammedClings(refused, FlushOf(refused, h).held, f, i)
      && Recordable(foot, FLUSH_ORDER[i], Pending(FlushOf(refused, h).held.batch.value, FLUSH_ORDER[i]))
  {
    var g := FlushOf(refused, h).held;
    i := 0;
    if h.batch == None {
      CalmFlush(refused, h);
    } else {
      var b := h.batch.value;
      BlockedFlush(refused, h.kernel, b, 0);
      var s := Blocked(refused, h.kernel, b, 0);
      if s == None {
        FlushedCalm(refused, h);
      } else {
        i := s.value;
        RecordHeld(w0, h, f, foot, FLUSH_ORDER[i]);
        StuckFlush(refused, h, g, f, i);
      }
    }
  }

  lemma StuckFlush(refused: set<Rule>, h: Held, g: Held, f: Family, i: nat)
    requires h.batch.Some? && h.batch.value.family == f && Jammed(refused, g, i) && g.batch.value.family == f
    requires var t := FLUSH_ORDER[i];
      var tb := Pending(h.batch.value, t);
      Pending(g.batch.value, t) == tb && SameTable(g.kernel, FlushedTable(refused, h.kernel, f, t, tb).world, f, t)
    ensures var tabs, t, tb := TablesOf(h.kernel, f), FLUSH_ORDER[i], Pending(h.batch.value, FLUSH_ORDER[i]);
      if Barren(refused, tabs, t, tb) then JammedBarren(refused, g, f, i) else JammedClings(refused, g, f, i)
  {
    var tabs, t, tb := TablesOf(h.kernel, f), FLUSH_ORDER[i], Pending(h.batch.value, FLUSH_ORDER[i]);
    if Barren(refused, tabs, t, tb) {
      BarrenFlush(refused, h.kernel, f, t, tb);
      hide FlushedTable;
    } else {
      FruitfulClings(refused, h.kernel[f][t], tb);
      hide Reach, Declare, Restored, Clings;
    }
  }

  /**
   A rollback within the session that failed restores the tables exactly if what is
   still recorded can be flushed, or its flush stops at the first command of a table.
   */
  lemma RollbackRestoresExactly(refused: set<Rule>, w0: World, h: Held, f: Family, stop: seq<Step>)
    requires PristineWorld(w0, f, Footprint(stop)) && HeldInside(w0, h, f, Footprint(stop))
    requires Cleanups(f, stop) && CleanAll(Footprint(stop), stop)
    ensures EndOf(refused, RunOf(refused, h, stop)).held.kernel == w0 <==> Recoverable(refused, h)
  {
    hide *;
    var foot, g := Footprint(stop), FlushOf(refused, h).held;
    RollbackEnds(refused, h, f, stop);
    CleanupsFamily(f, stop);
    var i := FirstFlush(refused, w0, h, f, foot);
    if Recoverable(refused, h) {
      InertRun(refused, g, f, stop);
      FlushInside(refused, w0, h, f, foot);
      HeldHasInside(w0, g, f, foot);
      TeardownRestores(refused, w0, g.kernel, f, stop);
    } else {
      ClingsRun(refused, g, f, i, stop);
      ClingsDiffers(refused, w0, PurgedAll(refused, g, stop), f, i, foot);
    }
  }

  /** A flush at the end that succeeds tells that the record was recoverable. */
  lemma FlushedWasRecoverable(refused: set<Rule>, w0: World, h: Held, f: Family, foot: Foot, stop: seq<Step>)
    requires HeldInside(w0, h, f, foot) && Cleanups(f, stop)
    requires EndOf(refused, RunOf(refused, h, stop)).ok
    ensures Recoverable(refused, h)
  {
    var i := FirstFlush(refused, w0, h, f, foot);
    hide FlushOf, RunOf, PurgedAll, Recoverable, FlushedTable, HeldInside, JammedClings, Calm, Inert;
    if !Recoverable(refused, h) {
      RollbackPurges(refused, h, f, stop);
      ClingsRun(refused, FlushOf(refused, h).held, f, i, stop);
      FlushedCalm(refused, RunOf(refused, h, stop));
      ClingsPending(refused, FlushOf(refused, RunOf(refused, h, stop)).held, f, i);
    }
  }

  lemma ClingsPending(refused: set<Rule>, g: Held, f: Family, i: nat)
    requires JammedClings(refused, g, f, i)
    ensures !Calm(g)
  {
    hide FlushedTable, Clings;
  }

  lemma CleanupsFamily(f: Family, steps: seq<Step>)
    requires Cleanups(f, steps)
    ensures forall s | s in steps :: s.family == f
  {
  }

  lemma RollbackEnds(refused: set<Rule>, h: Held, f: Family, steps: seq<Step>)
    requires Cleanups(f, steps)
    ensures EndOf(refused, RunOf(refused, h, steps)).held.kernel == PurgedAll(refused, FlushOf(refused, h).held, steps).kernel
  {
    hide FlushOf, PurgedAll, RunOf;
    RollbackPurges(refused, h, f, steps);
  }

  // ----- the modes -----

  lemma StopCleanups(c: Config, k: Capabilities, x: Context, f: Family)
    ensures Cleanups(f, ModeStop(c, k, x, f))
  {
    StopsAreShaped(c, k, x, f);
    hide ModeStop, IsBuiltin, IsBoxCustomChain, Parents;
    assert forall s :: s in ModeStop(c, k, x, f) ==> ShapedStep(f, s);
  }

  /**
   For every mode: a setup that fails after any of its operations, with anything
   refused on the way, and is rolled back in its own session leaves the tables as
   they were exactly if its record can be flushed or stops at once; in any case the
   mode's teardown behind the session restores them.
   */
  lemma ModeRollbackExactly(refused: set<Rule>, w: World, c: Config, k: Capabilities, x: Context, f: Family,
                            buffered: bool, steps: seq<Step>, luck: seq<Luck>)
    requires Draws(c, k, x, f, steps) && |luck| == |steps|
    requires PristineWorld(w, f, Footprint(ModeStop(c, k, x, f)))
    ensures var h := Following(Opened(w, f, buffered), steps, luck);
      var after := EndOf(refused, RunOf(refused, h, ModeStop(c, k, x, f))).held.kernel;
      && (after == w <==> Recoverable(refused, h))
      && DirectRun(refused, after, ModeStop(c, k, x, f)) == w
  {
    hide *;
    var stop, h0 := ModeStop(c, k, x, f), Opened(w, f, buffered);
    var h, foot := Following(h0, steps, luck), Footprint(stop);
    DrawsPermitted(c, k, x, f, stop, steps);
    StopsUndo(c, k, x, f, stop);
    StopCleanups(c, k, x, f);
    InsideWorldStart(w, f, foot);
    OpenedHeld(w, w, f, buffered, foot);
    FollowingHeld(w, h0, f, foot, steps, luck);
    RollbackRestoresExactly(refused, w, h, f, stop);
    StopIsDrawn(c, k, x, f);
    DrawsPermitted(c, k, x, f, stop, stop);
    var all := seq(|stop|, _ => Tried(refused));
    SteadyRun(refused, h, stop);
    FollowingHeld(w, h, f, foot, stop, all);
    EndInside(refused, w, RunOf(refused, h, stop), f, foot);
    TeardownRestores(refused, w, EndOf(refused, RunOf(refused, h, stop)).held.kernel, f, stop);
  }

  lemma StopIsDrawn(c: Config, k: Capabilities, x: Context, f: Family)
    ensures Draws(c, k, x, f, ModeStop(c, k, x, f))
  {
    hide ModeStop, ModeSetup;
  }

  lemma EndInside(refused: set<Rule>, w0: World, h: Held, f: Family, foot: Foot)
    requires HeldInside(w0, h, f, foot)
    ensures InsideWorld(w0, EndOf(refused, h).held.kernel, f, foot)
  {
    hide InsideWorld, FlushOf;
    FlushInside(refused, w0, h, f, foot);
  }

  /** A chain ensured and given a rule that turns out to be refused. */
  function OneRule(f: Family, t: TableName, chain: string, r: Rule): seq<Step> {
    [Step(f, t, EnsureChain(chain)), Step(f, t, EnsureAppend(chain, r))]
  }

  /** Such a setup is not rolled back: the chain is there again behind the session. */
  lemma RefusedRuleComesBack(refused: set<Rule>, w: World, c: Config, k: Capabilities, x: Context, f: Family,
                             t: TableName, chain: string, r: Rule)
    requires Draws(c, k, x, f, OneRule(f, t, chain, r)) && IsBoxCustomChain(chain) && t in TablesOf(w, f) && r in refused
    requires PristineWorld(w, f, Footprint(ModeStop(c, k, x, f)))
    ensures var h := RunOf(refused, Opened(w, f, true), OneRule(f, t, chain, r));
      EndOf(refused, RunOf(refused, h, ModeStop(c, k, x, f))).held.kernel != w
  {
    var steps := OneRule(f, t, chain, r);
    var h, tb := Held(w, Some(RuleBatch(f, map[t := TableBatch([chain], {}, [(chain, r)])]))), TableBatch([chain], {}, [(chain, r)]);
    OneRuleHeld(refused, w, f, t, chain, r);
    RefusedStops(refused, w, f, t, tb);
    hide *;
    SteadyRun(refused, Opened(w, f, true), steps);
    ModeRollbackExactly(refused, w, c, k, x, f, true, steps, seq(|steps|, _ => Tried(refused)));
  }

  lemma OneRuleHeld(refused: set<Rule>, w: World, f: Family, t: TableName, chain: string, r: Rule)
    requires IsBoxCustomChain(chain)
    ensures RunOf(refused, Opened(w, f, true), OneRule(f, t, chain, r))
         == Held(w, Some(RuleBatch(f, map[t := TableBatch([chain], {}, [(chain, r)])])))
  {
    var steps := OneRule(f, t, chain, r);
    var made, sent := TableBatch([chain], {}, []), TableBatch([chain], {}, [(chain, r)]);
    var h, g := Held(w, Some(RuleBatch(f, map[t := made]))), Held(w, Some(RuleBatch(f, map[t := sent])));
    hide IsBoxCustomChain, FlushOf;
    assert steps[1..] == [steps[1]] && steps[1..][1..] == [];
    assert [] + [chain] == [chain] && [] + [(chain, r)] == [(chain, r)];
    assert map[][t := made] == map[t := made] && map[t := made][t := sent] == map[t := sent];
    assert PerformOf(refused, Opened(w, f, true), steps[0]) == Turn(h, true);
    assert PerformOf(refused, h, steps[1]) == Turn(g, true);
    hide PerformOf;
    OneHeld(refused, Opened(w, f, true), steps);
    OneHeld(refused, h, steps[1..]);
    OneHeld(refused, g, steps[1..][1..]);
  }

  lemma RefusedStops(refused: set<Rule>, w: World, f: Family, t: TableName, tb: TableBatch)
    requires t in TablesOf(w, f) && tb.decls != [] && |tb.appends| == 1 && tb.appends[0].1 in refused
    ensures !Recoverable(refused, Held(w, Some(RuleBatch(f, map[t := tb]))))
  {
    var b := RuleBatch(f, map[t := tb]);
    assert !FlushedTable(refused, w, f, t, tb).ok;
    hide FlushedTable, Barren;
    var i := if t == Filter then 0 else if t == Mangle then 1 else 2;
    assert FLUSH_ORDER[i] == t && forall j | 0 <= j < 3 && j != i :: Idle(Pending(b, FLUSH_ORDER[j]));
    assert Blocked(refused, w, b, i) == Some(i);
    BlockedSkips(refused, w, b, 0, i);
    NotBarren(refused, TablesOf(w, f), t, tb);
  }

  lemma NotBarren(refused: set<Rule>, tabs: Tables, t: TableName, tb: TableBatch)
    requires t in tabs && tb.decls != []
    ensures !Barren(refused, tabs, t, tb)
  {
  }

  lemma {:induction false} BlockedSkips(refused: set<Rule>, w: World, b: RuleBatch, j: nat, i: nat)
    requires j <= i <= 3 && forall k | j <= k < i :: Idle(Pending(b, FLUSH_ORDER[k]))
    ensures Blocked(refused, w, b, j) == Blocked(refused, w, b, i)
    decreases i - j
  {
    hide FlushedTable;
    if j < i {
      BlockedSkips(refused, w, b, j + 1, i);
    }
  }
}
