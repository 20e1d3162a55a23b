/**
 The compiler also adds and removes rules of built-in chains that enter none of
 its chains.  They may stay behind when the settings they were made from have
 changed.  Beside them, the compiler's chains and the jumps into them are still
 accounted for: the table is always one without any of them, plus a footprint.
 */
module Foreign {
  import opened Bytes
  import opened Netfilter
  import opened Batching
  import opened RuleConfig
  import opened RuleScripts
  import opened SessionTeardown
  import opened Teardown
  import opened TeardownModes

  /** A footprint of chains of the compiler and jumps into them. */
  ghost predicate JumpsOnly(foot: Foot) {
    && (forall h :: h in foot.hooks ==> h.2.target.Jump? && IsBuiltin(h.1) && IsBoxCustomChain(h.2.target.chain))
    && (forall x :: x in foot.live ==> IsBoxCustomChain(x.1))
  }

  /** An operation on rules of a built-in chain that jump nowhere. */
  predicate Plain(s: Step) {
    IsBuiltin(ChainOf(s.op)) &&
    match s.op
    case EnsureAppend(_, r) => !r.target.Jump?
    case EnsureInsert(_, r) => !r.target.Jump?
    case DelRule(_, r) => !r.target.Jump?
    case EnsureFirst(_, rules) => NoJumps(rules)
    case _ => false
  }

  // ----- one table -----

  lemma {:induction false} StrippedSubset(x: seq<Rule>, c: string, hooks: set<(string, Rule)>, r: Rule)
    requires r in Stripped(x, c, hooks)
    ensures r in x
  {
    if x[0] != r {
      StrippedSubset(x[1..], c, hooks, r);
    }
  }

  lemma PlainPresent(a: Chains, b: Chains, live: set<string>, hooks: set<(string, Rule)>, c: string, r: Rule)
    requires Inside(a, b, live, hooks) && c !in live && (c, r) !in hooks
    ensures (c in a <==> c in b) && Present(a, c, r) == Present(b, c, r)
  {
    if c in b {
      if r in b[c] {
        StrippedMember(b[c], c, hooks, r);
      }
      if r in a[c] {
        StrippedSubset(b[c], c, hooks, r);
      }
    }
  }

  lemma PlainAdded(a: Chains, b: Chains, live: set<string>, hooks: set<(string, Rule)>, c: string, r: Rule)
    requires Inside(a, b, live, hooks) && c in a && (c, r) !in hooks && !r.target.Jump?
    ensures Inside(a[c := a[c] + [r]], b[c := b[c] + [r]], live, hooks)
    ensures Inside(a[c := [r] + a[c]], b[c := [r] + b[c]], live, hooks)
  {
    StrippedConcat(b[c], [r], c, hooks);
    StrippedConcat([r], b[c], c, hooks);
    assert Stripped([r], c, hooks) == [r];
    forall h | (c, h) in hooks ensures AtMostOnce(b[c] + [r], h) && AtMostOnce([r] + b[c], h) {
      AtMostOnceAdded(b[c], r, h);
    }
  }

  lemma {:induction false} WithoutPlain(x: seq<Rule>, c: string, hooks: set<(string, Rule)>, r: Rule)
    requires (c, r) !in hooks
    ensures Stripped(Without(x, r), c, hooks) == Without(Stripped(x, c, hooks), r)
    ensures forall s :: AtMostOnce(x, s) ==> AtMostOnce(Without(x, r), s)
    ensures forall s :: s in Without(x, r) ==> s in x
    decreases |x|
  {
    if x != [] {
      WithoutPlain(x[1..], c, hooks, r);
      var y := Without(x[1..], r);
      if x[0] == r {
        forall s | AtMostOnce(x, s) ensures AtMostOnce(x[1..], s) {
          if s == r {
            AbsentOnce(x[1..], r);
          }
        }
      } else {
        assert ([x[0]] + y)[1..] == y;
        forall s | AtMostOnce(x, s) ensures AtMostOnce([x[0]] + y, s) {
          if s == x[0] {
            AbsentOnce(y, s);
          }
          AtMostOnceAdded(y, x[0], s);
        }
        var z := Stripped(x[1..], c, hooks);
        assert ([x[0]] + z)[1..] == z;
      }
    }
  }

  lemma PlainRemoved(a: Chains, b: Chains, live: set<string>, hooks: set<(string, Rule)>, c: string, r: Rule)
    requires Inside(a, b, live, hooks) && c in a && (c, r) !in hooks
    ensures Inside(a[c := Without(a[c], r)], b[c := Without(b[c], r)], live, hooks)
  {
    WithoutPlain(b[c], c, hooks, r);
    WithoutPlain(a[c], c, hooks, r);
  }

  /** The commands plain operations come down to. */
  predicate PlainCmd(cmd: IptCmd) {
    IsBuiltin(cmd.chain) && (cmd.Append? || cmd.Insert? || cmd.Delete?) && !cmd.rule.target.Jump?
  }

  lemma PlainIpt(refused: set<Rule>, a: Chains, b: Chains, live: set<string>, hooks: set<(string, Rule)>, cmd: IptCmd)
    requires Inside(a, b, live, hooks) && PlainCmd(cmd) && cmd.chain !in live && (cmd.chain, cmd.rule) !in hooks
    ensures Ipt(refused, a, cmd).Some? == Ipt(refused, b, cmd).Some?
    ensures Inside(Ipt(refused, a, cmd).GetOr(a), Ipt(refused, b, cmd).GetOr(b), live, hooks)
  {
    hide Inside;
    var c, r := cmd.chain, cmd.rule;
    PlainPresent(a, b, live, hooks, c, r);
    if c in a {
      PlainAdded(a, b, live, hooks, c, r);
      PlainRemoved(a, b, live, hooks, c, r);
    }
  }

  // ----- the world -----

  lemma PlainNotOwn(foot: Foot, t: TableName, c: string, r: Rule)
    requires JumpsOnly(foot) && IsBuiltin(c) && !r.target.Jump?
    ensures c !in LiveIn(foot, t) && (c, r) !in HooksIn(foot, t)
  {
    BuiltinsAreNotCustom(c);
  }

  lemma WithTableIs(base: World, w: World, f: Family, t: TableName, x: Chains, y: Chains)
    requires f in base && f in w && w == base[f := w[f]]
    ensures WithTable(w, f, t, y) == WithTable(base, f, t, x)[f := w[f][t := y]]
    ensures WithTable(w, f, t, y)[f] == w[f][t := y] && WithTable(base, f, t, x)[f] == base[f][t := x]
  {
    assert base[f := w[f]][f := w[f][t := y]] == base[f := base[f][t := x]][f := w[f][t := y]];
  }

  lemma BothTablesChanged(base: World, w: World, f: Family, foot: Foot, t: TableName, x: Chains, y: Chains)
    requires InsideWorld(base, w, f, foot) && t in base[f] && Inside(x, y, LiveIn(foot, t), HooksIn(foot, t))
    ensures InsideWorld(WithTable(base, f, t, x), WithTable(w, f, t, y), f, foot)
  {
    WithTableIs(base, w, f, t, x, y);
    hide Inside, WithTable, LiveIn, HooksIn;
  }

  lemma PlainCommand(refused: set<Rule>, base: World, w: World, f: Family, foot: Foot, t: TableName, cmd: IptCmd)
    requires InsideWorld(base, w, f, foot) && JumpsOnly(foot) && PlainCmd(cmd)
    ensures Required(refused, base, f, t, cmd).ok == Required(refused, w, f, t, cmd).ok
    ensures InsideWorld(Silently(refused, base, f, t, cmd), Silently(refused, w, f, t, cmd), f, foot)
  {
    hide Inside, Ipt, JumpsOnly, PlainCmd, LiveIn, HooksIn;
    if t in base[f] {
      hide Silently, WithTable;
      PlainCmdNotOwn(foot, t, cmd);
      PlainIpt(refused, base[f][t], w[f][t], LiveIn(foot, t), HooksIn(foot, t), cmd);
      SilentTable(refused, base, f, t, cmd);
      SilentTable(refused, w, f, t, cmd);
      BothTablesChanged(base, w, f, foot, t, Ipt(refused, base[f][t], cmd).GetOr(base[f][t]), Ipt(refused, w[f][t], cmd).GetOr(w[f][t]));
    }
  }

  lemma PlainCmdNotOwn(foot: Foot, t: TableName, cmd: IptCmd)
    requires JumpsOnly(foot) && PlainCmd(cmd)
    ensures cmd.chain !in LiveIn(foot, t) && (cmd.chain, cmd.rule) !in HooksIn(foot, t)
  {
    PlainNotOwn(foot, t, cmd.chain, cmd.rule);
  }

  lemma PlainChecked(base: World, w: World, f: Family, foot: Foot, t: TableName, c: string, r: Rule)
    requires InsideWorld(base, w, f, foot) && JumpsOnly(foot) && IsBuiltin(c) && !r.target.Jump?
    ensures Checked(base, f, t, c, r) == Checked(w, f, t, c, r)
  {
    hide Inside, JumpsOnly;
    if t in base[f] {
      PlainNotOwn(foot, t, c, r);
      PlainPresent(base[f][t], w[f][t], LiveIn(foot, t), HooksIn(foot, t), c, r);
    }
  }

  lemma PlainShared(refused: set<Rule>, base: World, w: World, f: Family, foot: Foot, t: TableName, c: string, r: Rule)
    requires InsideWorld(base, w, f, foot) && JumpsOnly(foot) && IsBuiltin(c) && !r.target.Jump?
    ensures var x, y := SharedAppend(refused, base, f, t, c, r), SharedAppend(refused, w, f, t, c, r);
      x.ok == y.ok && InsideWorld(x.world, y.world, f, foot)
  {
    hide InsideWorld, JumpsOnly, Required, Silently, Checked;
    PlainChecked(base, w, f, foot, t, c, r);
    PlainCommand(refused, base, w, f, foot, t, Append(c, r));
    RequiredIsSilent(refused, base, f, t, Append(c, r));
    RequiredIsSilent(refused, w, f, t, Append(c, r));
  }

  lemma {:induction false} PlainFirst(refused: set<Rule>, base: World, w: World, f: Family, foot: Foot, t: TableName, c: string, rules: seq<Rule>)
    requires InsideWorld(base, w, f, foot) && JumpsOnly(foot) && IsBuiltin(c) && NoJumps(rules)
    ensures var x, y := FirstEnsured(refused, base, f, t, c, rules), FirstEnsured(refused, w, f, t, c, rules);
      x.ok == y.ok && InsideWorld(x.world, y.world, f, foot)
    decreases |rules|
  {
    hide InsideWorld, JumpsOnly, SharedAppend;
    if rules != [] {
      assert rules[0] in rules && forall r :: r in rules[1..] ==> r in rules;
      PlainShared(refused, base, w, f, foot, t, c, rules[0]);
      PlainFirst(refused, base, w, f, foot, t, c, rules[1..]);
    }
  }

  /** A plain operation does to the table without the compiler's chains what it does to the table with them. */
  lemma PlainStep(refused: set<Rule>, base: World, w: World, f: Family, foot: Foot, s: Step)
    requires InsideWorld(base, w, f, foot) && JumpsOnly(foot) && s.family == f && Plain(s)
    ensures InsideWorld(Direct(refused, base, f, s.table, s.op).world, Direct(refused, w, f, s.table, s.op).world, f, foot)
  {
    BuiltinsAreNotCustom(s.op.chain);
    hide InsideWorld, JumpsOnly, Required, Silently, Checked, SharedAppend, FirstEnsured, IsBoxCustomChain, IsBuiltin;
    var t, c := s.table, s.op.chain;
    match s.op
    case EnsureAppend(_, r) => PlainShared(refused, base, w, f, foot, t, c, r);
    case EnsureInsert(_, r) =>
      PlainChecked(base, w, f, foot, t, c, r);
      PlainCommand(refused, base, w, f, foot, t, Insert(c, r));
    case DelRule(_, r) => PlainCommand(refused, base, w, f, foot, t, Delete(c, r));
    case EnsureFirst(_, rules) => PlainFirst(refused, base, w, f, foot, t, c, rules);
    case _ =>
  }

  // ----- tables without any chain of the compiler -----

  ghost predicate Bare(a: Chains) {
    forall c :: c in a ==> !IsBoxCustomChain(c) && forall r :: r in a[c] && r.target.Jump? ==> !IsBoxCustomChain(r.target.chain)
  }

  ghost predicate BareWorld(w: World, f: Family) {
    f in w && forall t :: t in w[f] ==> Bare(w[f][t])
  }

  lemma {:induction false} WithoutSubset(x: seq<Rule>, r: Rule, s: Rule)
    requires s in Without(x, r)
    ensures s in x
  {
    if x[0] != r && x[0] != s {
      WithoutSubset(x[1..], r, s);
    }
  }

  lemma BareCommand(refused: set<Rule>, w: World, f: Family, t: TableName, cmd: IptCmd)
    requires BareWorld(w, f) && PlainCmd(cmd)
    ensures BareWorld(Silently(refused, w, f, t, cmd), f) && BareWorld(Required(refused, w, f, t, cmd).world, f)
  {
    hide Ipt, Bare, PlainCmd;
    if t in w[f] {
      BareIpt(refused, w[f][t], cmd);
    }
  }

  lemma BareIpt(refused: set<Rule>, a: Chains, cmd: IptCmd)
    requires Bare(a) && PlainCmd(cmd)
    ensures Bare(Ipt(refused, a, cmd).GetOr(a))
  {
    hide IsBoxCustomChain;
    if cmd.Delete? && cmd.chain in a {
      forall s | s in Without(a[cmd.chain], cmd.rule) ensures s in a[cmd.chain] {
        WithoutSubset(a[cmd.chain], cmd.rule, s);
      }
    }
  }

  lemma {:induction false} BareFirst(refused: set<Rule>, w: World, f: Family, t: TableName, c: string, rules: seq<Rule>)
    requires BareWorld(w, f) && IsBuiltin(c) && NoJumps(rules)
    ensures BareWorld(FirstEnsured(refused, w, f, t, c, rules).world, f)
    decreases |rules|
  {
    hide BareWorld, Required, Checked, IsBuiltin;
    if rules != [] {
      assert rules[0] in rules && forall r :: r in rules[1..] ==> r in rules;
      BareCommand(refused, w, f, t, Append(c, rules[0]));
      BareFirst(refused, w, f, t, c, rules[1..]);
    }
  }

  lemma BareStep(refused: set<Rule>, w: World, f: Family, s: Step)
    requires BareWorld(w, f) && s.family == f && Plain(s)
    ensures BareWorld(Direct(refused, w, f, s.table, s.op).world, f)
  {
    BuiltinsAreNotCustom(s.op.chain);
    hide BareWorld, Required, Silently, Checked, FirstEnsured, IsBoxCustomChain, IsBuiltin;
    var t, c := s.table, s.op.chain;
    match s.op
    case EnsureAppend(_, r) => BareCommand(refused, w, f, t, Append(c, r));
    case EnsureInsert(_, r) => BareCommand(refused, w, f, t, Insert(c, r));
    case DelRule(_, r) => BareCommand(refused, w, f, t, Delete(c, r));
    case EnsureFirst(_, rules) => BareFirst(refused, w, f, t, c, rules);
    case _ =>
  }

  // ----- plain operations in a session -----

  /** The base of a session's tables, moved along with them. */
  ghost predicate Rebased(base: World, next: World, h: Held, f: Family, foot: Foot) {
    BareWorld(next, f) && HeldInside(next, h, f, foot) && f in base && next == base[f := next[f]]
  }

  lemma RebasedNowhere(base: World, h: Held, f: Family, foot: Foot)
    requires BareWorld(base, f) && HeldInside(base, h, f, foot)
    ensures Rebased(base, base, h, f, foot)
  {
    assert base[f := base[f]] == base;
    hide Bare, HeldInside;
  }

  lemma RebasedTwice(base: World, mid: World, next: World, g: Held, h: Held, f: Family, foot: Foot)
    requires Rebased(base, mid, g, f, foot) && Rebased(mid, next, h, f, foot)
    ensures Rebased(base, next, h, f, foot)
  {
    assert base[f := mid[f]][f := next[f]] == base[f := next[f]];
    hide Bare, HeldInside;
  }

  lemma RebasedCommand(refused: set<Rule>, base: World, h: Held, f: Family, foot: Foot, t: TableName, cmd: IptCmd)
    requires BareWorld(base, f) && HeldInside(base, h, f, foot) && JumpsOnly(foot) && PlainCmd(cmd)
    ensures Rebased(base, Silently(refused, base, f, t, cmd), h.(kernel := Silently(refused, h.kernel, f, t, cmd)), f, foot)
  {
    SilentFamily(refused, base, f, t, cmd);
    hide *;
    HeldHasInside(base, h, f, foot);
    PlainCommand(refused, base, h.kernel, f, foot, t, cmd);
    BareCommand(refused, base, f, t, cmd);
    KernelInside(base, h, f, foot, Silently(refused, base, f, t, cmd), Silently(refused, h.kernel, f, t, cmd));
    MadeRebased(base, Silently(refused, base, f, t, cmd), h.(kernel := Silently(refused, h.kernel, f, t, cmd)), f, foot);
  }

  lemma MadeRebased(base: World, next: World, h: Held, f: Family, foot: Foot)
    requires BareWorld(next, f) && HeldInside(next, h, f, foot) && f in base && f in next && next == base[f := next[f]]
    ensures Rebased(base, next, h, f, foot)
  {
  }

  lemma SilentFamily(refused: set<Rule>, base: World, f: Family, t: TableName, cmd: IptCmd)
    requires BareWorld(base, f)
    ensures var next := Silently(refused, base, f, t, cmd); f in base && f in next && next == base[f := next[f]]
  {
    assert base[f := base[f]] == base;
    hide Bare, Ipt;
  }

  lemma RebasedDeletion(refused: set<Rule>, base: World, h: Held, f: Family, foot: Foot, t: TableName, cmd: IptCmd) returns (next: World)
    requires BareWorld(base, f) && HeldInside(base, h, f, foot) && JumpsOnly(foot) && PlainCmd(cmd)
    ensures Rebased(base, next, SilentOf(refused, h, f, t, cmd), f, foot)
  {
    hide Rebased, BareWorld, HeldInside, JumpsOnly, PlainCmd, FlushOf, Silently;
    var o := FlushOf(refused, h).held;
    FlushInside(refused, base, h, f, foot);
    RebasedCommand(refused, base, o, f, foot, t, cmd);
    next := Silently(refused, base, f, t, cmd);
  }

  lemma RebasedAddition(refused: set<Rule>, base: World, h: Held, f: Family, foot: Foot, t: TableName, cmd: IptCmd) returns (next: World)
    requires BareWorld(base, f) && HeldInside(base, h, f, foot) && JumpsOnly(foot) && PlainCmd(cmd) && (cmd.Append? || cmd.Insert?)
    ensures Rebased(base, next, UnlessPresent(refused, h, f, t, cmd).held, f, foot)
  {
    hide Rebased, BareWorld, HeldInside, JumpsOnly, PlainCmd, FlushOf, Silently, UnlessPresent, Required, Checked;
    var o := FlushOf(refused, h);
    UnlessPresentIs(refused, h, f, t, cmd);
    FlushInside(refused, base, h, f, foot);
    FlushInside(refused, base, o.held, f, foot);
    next := base;
    if !o.ok || Checked(o.held.kernel, f, t, cmd.chain, cmd.rule) {
      RebasedNowhere(base, UnlessPresent(refused, h, f, t, cmd).held, f, foot);
    } else {
      RebasedCommand(refused, base, o.held, f, foot, t, cmd);
      RequiredIsSilent(refused, o.held.kernel, f, t, cmd);
      next := Silently(refused, base, f, t, cmd);
    }
  }

  lemma {:induction false} RebasedFirst(refused: set<Rule>, base: World, h: Held, f: Family, foot: Foot, t: TableName, c: string, rules: seq<Rule>)
    returns (next: World)
    requires BareWorld(base, f) && HeldInside(base, h, f, foot) && JumpsOnly(foot) && IsBuiltin(c) && NoJumps(rules)
    ensures Rebased(base, next, FirstEnsuredOf(refused, h, f, t, c, rules).held, f, foot)
    decreases |rules|
  {
    hide Rebased, BareWorld, HeldInside, JumpsOnly, UnlessPresent, IsBuiltin;
    if rules == [] {
      next := base;
      RebasedNowhere(base, h, f, foot);
    } else {
      assert rules[0] in rules && forall r :: r in rules[1..] ==> r in rules;
      var o := UnlessPresent(refused, h, f, t, Append(c, rules[0]));
      var mid := RebasedAddition(refused, base, h, f, foot, t, Append(c, rules[0]));
      next := mid;
      if !o.ok {
        IsRebased(base, mid, o.held, f, foot);
        next := RebasedFirst(refused, mid, o.held, f, foot, t, c, rules[1..]);
        RebasedTwice(base, mid, next, o.held, FirstEnsuredOf(refused, h, f, t, c, rules).held, f, foot);
      }
    }
  }

  lemma IsRebased(base: World, next: World, h: Held, f: Family, foot: Foot)
    requires Rebased(base, next, h, f, foot)
    ensures BareWorld(next, f) && HeldInside(next, h, f, foot)
  {
  }

  /** A plain operation in a session moves the base it stands on, and nothing else. */
  lemma PlainHeld(refused: set<Rule>, base: World, h: Held, f: Family, foot: Foot, s: Step) returns (next: World)
    requires BareWorld(base, f) && HeldInside(base, h, f, foot) && JumpsOnly(foot) && s.family == f && Plain(s)
    ensures Rebased(base, next, PerformOf(refused, h, s).held, f, foot)
  {
    BuiltinsAreNotCustom(s.op.chain);
    hide Rebased, BareWorld, HeldInside, JumpsOnly, SilentOf, UnlessPresent, FirstEnsuredOf, IsBoxCustomChain, IsBuiltin;
    var t, c := s.table, s.op.chain;
    next := base;
    match s.op
    case EnsureAppend(_, r) => next := RebasedAddition(refused, base, h, f, foot, t, Append(c, r));
    case EnsureInsert(_, r) => next := RebasedAddition(refused, base, h, f, foot, t, Insert(c, r));
    case DelRule(_, r) => next := RebasedDeletion(refused, base, h, f, foot, t, Delete(c, r));
    case EnsureFirst(_, rules) => next := RebasedFirst(refused, base, h, f, foot, t, c, rules);
    case _ =>
  }
}
