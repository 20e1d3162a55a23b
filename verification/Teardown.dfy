/**
 Why teardown undoes setup.  A teardown script names what it deletes: rules in
 built-in chains (its hooks) and chains of its own.  As long as setup only ever
 adds what the matching teardown names, whatever subset of its commands the
 kernel executes and in whatever way it refuses the rest, the teardown restores
 the tables exactly, and none of its chain deletions meets a chain that is still
 referenced.
 */
module Teardown {
  import opened Bytes
  import opened Netfilter
  import opened Batching
  import opened RuleConfig

  // ----- one table -----

  /** Which chains of the compiler jump to which. */
  predicate Edge(from: string, to: string) {
    || (from == EXTERNAL && to in {TP_PRE_IP, TP_PRE_IF, LocalIpChain(V4), LocalIpChain(V6)})
    || (from == LOCAL && to in {TP_OUT_IP, TP_OUT_APP, LocalIpChain(V4), LocalIpChain(V6)})
  }

  /** A rule list without the hooks of a chain. */
  function Stripped(rules: seq<Rule>, chain: string, hooks: set<(string, Rule)>): seq<Rule> {
    if rules == [] then []
    else if (chain, rules[0]) in hooks then Stripped(rules[1..], chain, hooks)
    else [rules[0]] + Stripped(rules[1..], chain, hooks)
  }

  predicate AtMostOnce(rules: seq<Rule>, r: Rule) {
    rules == [] || (if rules[0] == r then r !in rules[1..] else AtMostOnce(rules[1..], r))
  }

  ghost predicate EdgesOnly(chain: string, rules: seq<Rule>) {
    forall r :: r in rules && r.target.Jump? ==> Edge(chain, r.target.chain)
  }

  /** The table holds none of the chains and hooks in question. */
  ghost predicate Pristine(a: Chains, live: set<string>, hooks: set<(string, Rule)>) {
    && live !! a.Keys
    && (forall c, r :: c in a && r in a[c] ==> (c, r) !in hooks)
    && (forall c, r :: c in a && r in a[c] && r.target.Jump? ==> r.target.chain !in live)
  }

  /** `b` is `a` plus some of the chains and hooks in question, hooks once each. */
  ghost predicate Grown(a: Chains, b: Chains, live: set<string>, hooks: set<(string, Rule)>) {
    && (forall c :: c in a ==> c in b && Stripped(b[c], c, hooks) == a[c])
    && (forall c, r :: c in a && (c, r) in hooks ==> AtMostOnce(b[c], r))
    && (forall c :: c in b ==> c in a || c in live)
    && (forall c :: c in b && c in live ==> EdgesOnly(c, b[c]))
  }

  lemma {:induction false} StrippedConcat(x: seq<Rule>, y: seq<Rule>, c: string, hooks: set<(string, Rule)>)
    ensures Stripped(x + y, c, hooks) == Stripped(x, c, hooks) + Stripped(y, c, hooks)
    decreases |x|
  {
    if x == [] {
      assert x + y == y;
    } else {
      assert (x + y)[1..] == x[1..] + y;
      StrippedConcat(x[1..], y, c, hooks);
    }
  }

  lemma {:induction false} StrippedNothing(x: seq<Rule>, c: string, hooks: set<(string, Rule)>)
    requires forall r :: r in x ==> (c, r) !in hooks
    ensures Stripped(x, c, hooks) == x
  {
    if x != [] {
      assert forall r :: r in x[1..] ==> r in x;
      StrippedNothing(x[1..], c, hooks);
    }
  }

  /** Rules that are not hooks survive stripping. */
  lemma {:induction false} StrippedMember(x: seq<Rule>, c: string, hooks: set<(string, Rule)>, r: Rule)
    requires r in x && (c, r) !in hooks
    ensures r in Stripped(x, c, hooks)
  {
    if x[0] != r {
      StrippedMember(x[1..], c, hooks, r);
    }
  }

  lemma {:induction false} AtMostOnceAdded(x: seq<Rule>, r: Rule, s: Rule)
    requires AtMostOnce(x, s) && (r == s ==> s !in x)
    ensures AtMostOnce([r] + x, s) && AtMostOnce(x + [r], s)
    decreases |x|
  {
    assert ([r] + x)[1..] == x;
    if x == [] {
      assert x + [r] == [r];
    } else {
      assert (x + [r])[1..] == x[1..] + [r];
      if x[0] == s {
        assert s !in x[1..] + [r];
      } else {
        AtMostOnceAdded(x[1..], r, s);
      }
    }
  }

  lemma {:induction false} AbsentOnce(x: seq<Rule>, r: Rule)
    requires r !in x
    ensures AtMostOnce(x, r)
  {
    if x != [] {
      AbsentOnce(x[1..], r);
    }
  }

  lemma {:induction false} WithoutHook(x: seq<Rule>, c: string, hooks: set<(string, Rule)>, r: Rule)
    requires (c, r) in hooks && AtMostOnce(x, r)
    ensures Stripped(Without(x, r), c, hooks - {(c, r)}) == Stripped(x, c, hooks)
    ensures forall s :: AtMostOnce(x, s) ==> AtMostOnce(Without(x, r), s)
    ensures forall s :: s in Without(x, r) ==> s in x
    decreases |x|
  {
    if x != [] {
      if x[0] == r {
        StrippedSame(x[1..], c, hooks, r);
        forall s | AtMostOnce(x, s) ensures AtMostOnce(x[1..], s) {
          if s == r {
            AbsentOnce(x[1..], r);
          }
        }
      } else {
        WithoutHook(x[1..], c, hooks, r);
        var y := Without(x[1..], r);
        assert ([x[0]] + y)[1..] == y;
        forall s | AtMostOnce(x, s) ensures AtMostOnce([x[0]] + y, s) {
          if s == x[0] {
            assert s !in y;
            AbsentOnce(y, s);
          }
          AtMostOnceAdded(y, x[0], s);
        }
      }
    }
  }

  /** Where a hook does not occur, dropping it from the set changes nothing. */
  lemma {:induction false} StrippedSame(x: seq<Rule>, c: string, hooks: set<(string, Rule)>, r: Rule)
    requires r !in x
    ensures Stripped(x, c, hooks - {(c, r)}) == Stripped(x, c, hooks)
  {
    if x != [] {
      StrippedSame(x[1..], c, hooks, r);
    }
  }

  /** Hooks of one chain do not matter to another. */
  lemma {:induction false} StrippedElsewhere(x: seq<Rule>, c: string, hooks: set<(string, Rule)>, h: (string, Rule))
    requires h.0 != c
    ensures Stripped(x, c, hooks - {h}) == Stripped(x, c, hooks)
  {
    if x != [] {
      StrippedElsewhere(x[1..], c, hooks, h);
    }
  }

  // ----- one command -----

  /** A table with a footprint in mind: pristine before, grown since. */
  ghost predicate Inside(a: Chains, b: Chains, live: set<string>, hooks: set<(string, Rule)>) {
    Pristine(a, live, hooks) && Grown(a, b, live, hooks)
  }

  lemma InsideFromStart(a: Chains, live: set<string>, hooks: set<(string, Rule)>)
    requires Pristine(a, live, hooks)
    ensures Inside(a, a, live, hooks)
  {
    forall c | c in a ensures Stripped(a[c], c, hooks) == a[c] {
      StrippedNothing(a[c], c, hooks);
    }
    forall c, r | c in a && (c, r) in hooks ensures AtMostOnce(a[c], r) {
      AbsentOnce(a[c], r);
    }
  }

  lemma NothingLeft(a: Chains, b: Chains)
    requires Grown(a, b, {}, {})
    ensures b == a
  {
    forall c | c in a ensures b[c] == a[c] {
      StrippedNothing(b[c], c, {});
    }
  }

  /** A chain of the footprint may get any contents that keep to the known jumps. */
  lemma OwnChainSet(a: Chains, b: Chains, live: set<string>, hooks: set<(string, Rule)>, c: string, rules: seq<Rule>)
    requires Inside(a, b, live, hooks) && c in live && EdgesOnly(c, rules)
    ensures Inside(a, b[c := rules], live, hooks)
  {
  }

  /** A hook that is not there yet may be added at either end of its chain. */
  lemma HookAdded(a: Chains, b: Chains, live: set<string>, hooks: set<(string, Rule)>, c: string, r: Rule)
    requires Inside(a, b, live, hooks) && c in a && (c, r) in hooks && r !in b[c]
    ensures Inside(a, b[c := b[c] + [r]], live, hooks) && Inside(a, b[c := [r] + b[c]], live, hooks)
  {
    StrippedConcat(b[c], [r], c, hooks);
    StrippedConcat([r], b[c], c, hooks);
    assert Stripped([r], c, hooks) == [];
    forall s | (c, s) in hooks ensures AtMostOnce(b[c] + [r], s) && AtMostOnce([r] + b[c], s) {
      AtMostOnceAdded(b[c], r, s);
    }
  }

  /** The effect of deleting a rule, or of failing to. */
  function Deleted(b: Chains, c: string, r: Rule): Chains {
    if c in b && r in b[c] then b[c := Without(b[c], r)] else b
  }

  lemma HookDeleted(a: Chains, b: Chains, live: set<string>, hooks: set<(string, Rule)>, c: string, r: Rule)
    requires Inside(a, b, live, hooks) && (c, r) in hooks && c !in live
    ensures Inside(a, Deleted(b, c, r), live, hooks - {(c, r)})
  {
    var e := Deleted(b, c, r);
    forall d | d in a ensures Stripped(e[d], d, hooks - {(c, r)}) == a[d] {
      if d != c {
        StrippedElsewhere(b[d], d, hooks, (c, r));
      } else if r in b[c] {
        WithoutHook(b[c], c, hooks, r);
      } else {
        StrippedSame(b[c], c, hooks, r);
      }
    }
    forall d, s | d in a && (d, s) in hooks - {(c, r)} ensures AtMostOnce(e[d], s) {
      if d == c && r in b[c] {
        WithoutHook(b[c], c, hooks, r);
      }
    }
  }

  /** Nothing that is still around jumps to `c`. */
  ghost predicate Unhooked(c: string, live: set<string>, hooks: set<(string, Rule)>) {
    && (forall h :: h in hooks ==> h.1.target != Jump(c))
    && (forall d :: d in live ==> !Edge(d, c))
  }

  /** Emptying and deleting an unhooked chain: the deletion is not refused. */
  lemma ChainCleaned(refused: set<Rule>, a: Chains, b: Chains, live: set<string>, hooks: set<(string, Rule)>, c: string)
    requires Inside(a, b, live, hooks) && c in live && !IsBuiltin(c) && Unhooked(c, live, hooks)
    ensures Inside(a, b - {c}, live - {c}, hooks)
    ensures c in b ==> Ipt(refused, b, Flush(c)) == Some(b[c := []])
    ensures c in b ==> Ipt(refused, b[c := []], DeleteChain(c)) == Some(b - {c})
  {
    if c in b {
      var e := b[c := []];
      forall d, r: Rule | d in e && r in e[d] ensures r.target != Jump(c) {
        if d in a && (d, r) !in hooks {
          StrippedMember(b[d], d, hooks, r);
        }
      }
      assert !Referenced(e, c);
      assert e - {c} == b - {c};
    }
  }

  // ----- the world -----

  type Chain = (TableName, string)
  type Hook = (TableName, string, Rule)

  /** What a teardown deletes. */
  datatype Foot = Foot(live: set<Chain>, hooks: set<Hook>)

  ghost function LiveIn(foot: Foot, t: TableName): (s: set<string>)
    ensures forall c :: c in s <==> (t, c) in foot.live
  {
    set x | x in foot.live && x.0 == t :: x.1
  }

  ghost function HooksIn(foot: Foot, t: TableName): (s: set<(string, Rule)>)
    ensures forall c, r :: (c, r) in s <==> (t, c, r) in foot.hooks
  {
    set x | x in foot.hooks && x.0 == t :: (x.1, x.2)
  }

  ghost predicate PristineWorld(w: World, f: Family, foot: Foot) {
    f in w && forall t :: t in w[f] ==> Pristine(w[f][t], LiveIn(foot, t), HooksIn(foot, t))
  }

  /** `w` is `w0` plus part of the footprint in the tables of `f`. */
  ghost predicate InsideWorld(w0: World, w: World, f: Family, foot: Foot) {
    && f in w0 && f in w && w == w0[f := w[f]]
    && w[f].Keys == w0[f].Keys
    && forall t :: t in w0[f] ==> Inside(w0[f][t], w[f][t], LiveIn(foot, t), HooksIn(foot, t))
  }

  lemma InsideWorldStart(w: World, f: Family, foot: Foot)
    requires PristineWorld(w, f, foot)
    ensures InsideWorld(w, w, f, foot)
  {
    assert w[f := w[f]] == w;
    forall t | t in w[f] {
      InsideFromStart(w[f][t], LiveIn(foot, t), HooksIn(foot, t));
    }
  }

  lemma NothingLeftInWorld(w0: World, w: World, f: Family)
    requires InsideWorld(w0, w, f, Foot({}, {}))
    ensures w == w0
  {
    forall t | t in w0[f] ensures w[f][t] == w0[f][t] {
      assert LiveIn(Foot({}, {}), t) == {} && HooksIn(Foot({}, {}), t) == {};
      NothingLeft(w0[f][t], w[f][t]);
    }
    assert w[f] == w0[f];
    assert w0[f := w0[f]] == w0;
  }

  /** Changing one table keeps the world inside if it keeps that table inside. */
  lemma TableChanged(w0: World, w: World, f: Family, foot: Foot, t: TableName, chains: Chains)
    requires InsideWorld(w0, w, f, foot) && t in w0[f]
    requires Inside(w0[f][t], chains, LiveIn(foot, t), HooksIn(foot, t))
    ensures InsideWorld(w0, WithTable(w, f, t, chains), f, foot)
  {
    assert w0[f := w[f]][f := w[f][t := chains]] == w0[f := w[f][t := chains]];
  }

  // ----- setup stays inside -----

  predicate OwnRule(foot: Foot, t: TableName, c: string, r: Rule) {
    if (t, c) in foot.live then r.target.Jump? ==> Edge(c, r.target.chain) else (t, c, r) in foot.hooks
  }

  /** Built-in chains are never of the footprint, so each chain is one or the other. */
  predicate Permits(foot: Foot, s: Step) {
    var t := s.table;
    match s.op
    case EnsureChain(c) => (t, c) in foot.live
    case EnsureAppend(c, r) => OwnRule(foot, t, c, r) && ((t, c) in foot.live <==> IsBoxCustomChain(c))
    case EnsureInsert(c, r) => OwnRule(foot, t, c, r)
    case EnsureJump(c, target) => (t, c) !in foot.live && (t, c, Rule(Jump(target))) in foot.hooks
    case InsertFirst(c, rules, fallback) =>
      (t, c) in foot.live && (forall r | r in rules :: !r.target.Jump?) && (fallback.Some? ==> !fallback.value.target.Jump?)
    case AppendFirst(c, rules) => (t, c) in foot.live && forall r | r in rules :: !r.target.Jump?
    case EnsureFirst(c, rules) =>
      (t, c) !in foot.live && forall r | r in rules :: !r.target.Jump? && (t, c, r) in foot.hooks
    case DelRule(c, r) => (t, c) !in foot.live && (t, c, r) in foot.hooks
    case CleanupChain(c) => (t, c) in foot.live
    case Rebuild(c, _, _) => (t, c) in foot.live
    case Sync(_) => true
  }

  predicate OwnRuleIn(live: set<string>, hooks: set<(string, Rule)>, c: string, r: Rule) {
    if c in live then r.target.Jump? ==> Edge(c, r.target.chain) else (c, r) in hooks
  }

  /** A rule of the footprint added at either end of its chain, or refused. */
  lemma TableRuleAdded(refused: set<Rule>, a: Chains, b: Chains, live: set<string>, hooks: set<(string, Rule)>, c: string, r: Rule)
    requires Inside(a, b, live, hooks) && OwnRuleIn(live, hooks, c, r)
    requires c in live || !Present(b, c, r)
    ensures Inside(a, Ipt(refused, b, Append(c, r)).GetOr(b), live, hooks)
    ensures Inside(a, Ipt(refused, b, Insert(c, r)).GetOr(b), live, hooks)
  {
    if c in b {
      if c in live {
        OwnChainSet(a, b, live, hooks, c, b[c] + [r]);
        OwnChainSet(a, b, live, hooks, c, [r] + b[c]);
      } else {
        HookAdded(a, b, live, hooks, c, r);
      }
    }
  }

  /** A chain of the footprint created, emptied or deleted. */
  lemma TableChainTouched(refused: set<Rule>, a: Chains, b: Chains, live: set<string>, hooks: set<(string, Rule)>, c: string)
    requires Inside(a, b, live, hooks) && c in live
    ensures Inside(a, Ipt(refused, b, NewChain(c)).GetOr(b), live, hooks)
    ensures Inside(a, Ipt(refused, b, Flush(c)).GetOr(b), live, hooks)
    ensures Inside(a, Ipt(refused, b, DeleteChain(c)).GetOr(b), live, hooks)
  {
    OwnChainSet(a, b, live, hooks, c, []);
  }

  /** One command on one table of the world. */
  lemma CommandInside(refused: set<Rule>, w0: World, w: World, f: Family, foot: Foot, t: TableName, cmd: IptCmd)
    requires InsideWorld(w0, w, f, foot)
    requires t in w[f] ==>
      Inside(w0[f][t], Ipt(refused, w[f][t], cmd).GetOr(w[f][t]), LiveIn(foot, t), HooksIn(foot, t))
    ensures InsideWorld(w0, Silently(refused, w, f, t, cmd), f, foot)
  {
    hide Inside, Ipt;
    if t in w[f] && Ipt(refused, w[f][t], cmd).Some? {
      TableChanged(w0, w, f, foot, t, Ipt(refused, w[f][t], cmd).value);
    }
  }

  lemma RuleAdded(refused: set<Rule>, w0: World, w: World, f: Family, foot: Foot, t: TableName, c: string, r: Rule)
    requires InsideWorld(w0, w, f, foot) && OwnRule(foot, t, c, r)
    requires (t, c) in foot.live || !Checked(w, f, t, c, r)
    ensures InsideWorld(w0, Silently(refused, w, f, t, Append(c, r)), f, foot)
    ensures InsideWorld(w0, Silently(refused, w, f, t, Insert(c, r)), f, foot)
  {
    hide Inside, Ipt;
    if t in w[f] {
      TableRuleAdded(refused, w0[f][t], w[f][t], LiveIn(foot, t), HooksIn(foot, t), c, r);
    }
    CommandInside(refused, w0, w, f, foot, t, Append(c, r));
    CommandInside(refused, w0, w, f, foot, t, Insert(c, r));
  }

  lemma OwnChainTouched(refused: set<Rule>, w0: World, w: World, f: Family, foot: Foot, t: TableName, c: string)
    requires InsideWorld(w0, w, f, foot) && (t, c) in foot.live
    ensures InsideWorld(w0, Silently(refused, w, f, t, NewChain(c)), f, foot)
    ensures InsideWorld(w0, Silently(refused, w, f, t, Flush(c)), f, foot)
    ensures InsideWorld(w0, Silently(refused, w, f, t, DeleteChain(c)), f, foot)
  {
    hide Inside, Ipt;
    if t in w[f] {
      TableChainTouched(refused, w0[f][t], w[f][t], LiveIn(foot, t), HooksIn(foot, t), c);
    }
    CommandInside(refused, w0, w, f, foot, t, NewChain(c));
    CommandInside(refused, w0, w, f, foot, t, Flush(c));
    CommandInside(refused, w0, w, f, foot, t, DeleteChain(c));
  }

  lemma RequiredIsSilent(refused: set<Rule>, w: World, f: Family, t: TableName, cmd: IptCmd)
    ensures Required(refused, w, f, t, cmd).world == Silently(refused, w, f, t, cmd)
  {
  }

  /** A footprint may allow for more than is left of it. */
  lemma FootGrows(a: Chains, b: Chains, live: set<string>, hooks: set<(string, Rule)>, h: (string, Rule))
    requires Pristine(a, live, hooks) && h in hooks && Grown(a, b, live, hooks - {h})
    requires h.0 in b ==> h.1 !in b[h.0]
    ensures Grown(a, b, live, hooks)
  {
    forall c | c in a ensures Stripped(b[c], c, hooks) == a[c] {
      if c == h.0 {
        StrippedSame(b[c], c, hooks, h.1);
      } else {
        StrippedElsewhere(b[c], c, hooks, h);
      }
    }
    forall c, r | c in a && (c, r) in hooks ensures AtMostOnce(b[c], r) {
      if (c, r) == h {
        AbsentOnce(b[c], r);
      }
    }
  }

  lemma {:induction false} WithoutRemovesIt(x: seq<Rule>, r: Rule)
    requires AtMostOnce(x, r)
    ensures r !in Without(x, r)
  {
    if x != [] && x[0] != r {
      WithoutRemovesIt(x[1..], r);
    }
  }

  lemma TableHookDeleted(a: Chains, b: Chains, live: set<string>, hooks: set<(string, Rule)>, c: string, r: Rule)
    requires Inside(a, b, live, hooks) && c !in live && (c, r) in hooks
    ensures Inside(a, Deleted(b, c, r), live, hooks)
  {
    HookDeleted(a, b, live, hooks, c, r);
    if c in b {
      WithoutRemovesIt(b[c], r);
    }
    FootGrows(a, Deleted(b, c, r), live, hooks, (c, r));
  }

  lemma HookOnlyDeleted(refused: set<Rule>, w0: World, w: World, f: Family, foot: Foot, t: TableName, c: string, r: Rule)
    requires InsideWorld(w0, w, f, foot) && (t, c) !in foot.live && (t, c, r) in foot.hooks
    ensures InsideWorld(w0, Silently(refused, w, f, t, Delete(c, r)), f, foot)
  {
    hide Inside;
    if t in w[f] {
      TableHookDeleted(w0[f][t], w[f][t], LiveIn(foot, t), HooksIn(foot, t), c, r);
      assert Ipt(refused, w[f][t], Delete(c, r)).GetOr(w[f][t]) == Deleted(w[f][t], c, r);
    }
    hide Ipt;
    CommandInside(refused, w0, w, f, foot, t, Delete(c, r));
  }

  predicate PermitsAll(f: Family, foot: Foot, steps: seq<Step>) {
    forall s | s in steps :: s.family == f && Permits(foot, s)
  }

  // ----- teardown empties the footprint -----

  /** The footprint left after one step of a teardown. */
  function After(foot: Foot, s: Step): Foot {
    match s.op
    case DelRule(c, r) => foot.(hooks := foot.hooks - {(s.table, c, r)})
    case CleanupChain(c) => foot.(live := foot.live - {(s.table, c)})
    case _ => foot
  }

  function AfterAll(foot: Foot, steps: seq<Step>): Foot
    decreases |steps|
  {
    if steps == [] then foot else AfterAll(After(foot, steps[0]), steps[1..])
  }

  /** A teardown step that will not be refused: nothing left jumps to a chain it deletes. */
  ghost predicate Clean(foot: Foot, s: Step) {
    match s.op
    case DelRule(c, r) => (s.table, c) !in foot.live
    case CleanupChain(c) => !IsBuiltin(c) && Unhooked(c, LiveIn(foot, s.table), HooksIn(foot, s.table))
    case Sync(_) => true
    case _ => false
  }

  ghost predicate CleanAll(foot: Foot, steps: seq<Step>)
    decreases |steps|
  {
    steps == [] || (Clean(foot, steps[0]) && CleanAll(After(foot, steps[0]), steps[1..]))
  }

  /** Everything a teardown deletes, and so the footprint it is answerable for. */
  function Footprint(steps: seq<Step>): Foot {
    Foot(set s | s in steps && s.op.CleanupChain? :: (s.table, s.op.chain),
         set s | s in steps && s.op.DelRule? :: (s.table, s.op.chain, s.op.rule))
  }

  predicate Within(foot: Foot, whole: Foot) { foot.live <= whole.live && foot.hooks <= whole.hooks }

  /** A chain deletion either finds no chain or is carried out. */
  predicate CleanupAccepted(refused: set<Rule>, w: World, s: Step) {
    s.op.CleanupChain? && s.family in w && s.table in w[s.family] && s.op.chain in w[s.family][s.table] ==>
      s.op.chain !in Direct(refused, w, s.family, s.table, s.op).world[s.family][s.table]
  }

  /** Deleting a rule that is a hook, or was one and is gone. */
  lemma TableRuleGone(refused: set<Rule>, a: Chains, b: Chains, live: set<string>, hooks: set<(string, Rule)>, c: string, r: Rule)
    requires Inside(a, b, live, hooks) && c !in live && (c in a ==> r !in a[c])
    ensures Inside(a, Ipt(refused, b, Delete(c, r)).GetOr(b), live, hooks - {(c, r)})
  {
    if (c, r) in hooks {
      HookDeleted(a, b, live, hooks, c, r);
    } else {
      if c in b && r in b[c] {
        StrippedMember(b[c], c, hooks, r);
      }
      assert hooks - {(c, r)} == hooks;
    }
  }

  lemma TableChainGone(refused: set<Rule>, a: Chains, b: Chains, live: set<string>, hooks: set<(string, Rule)>, c: string)
    requires Inside(a, b, live, hooks) && c !in a && !IsBuiltin(c) && Unhooked(c, live, hooks)
    ensures var e := Ipt(refused, b, Flush(c)).GetOr(b);
      var d := Ipt(refused, e, DeleteChain(c)).GetOr(e);
      Inside(a, d, live - {c}, hooks) && c !in d
  {
    if c in live {
      ChainCleaned(refused, a, b, live, hooks, c);
      if c !in b {
        assert b - {c} == b;
      }
    } else {
      assert live - {c} == live;
    }
  }

  /** The world inside one footprint is inside another that agrees on all tables but `t`. */
  lemma FootMoved(w0: World, w: World, f: Family, foot: Foot, next: Foot, t: TableName, chains: Chains)
    requires InsideWorld(w0, w, f, foot) && t in w0[f]
    requires forall u :: u != t ==> LiveIn(next, u) == LiveIn(foot, u) && HooksIn(next, u) == HooksIn(foot, u)
    requires Inside(w0[f][t], chains, LiveIn(next, t), HooksIn(next, t))
    ensures InsideWorld(w0, WithTable(w, f, t, chains), f, next)
  {
    assert w0[f := w[f]][f := w[f][t := chains]] == w0[f := w[f][t := chains]];
  }

  lemma FootMovedNowhere(w0: World, w: World, f: Family, foot: Foot, next: Foot, t: TableName)
    requires InsideWorld(w0, w, f, foot) && t !in w0[f]
    requires forall u :: u != t ==> LiveIn(next, u) == LiveIn(foot, u) && HooksIn(next, u) == HooksIn(foot, u)
    ensures InsideWorld(w0, w, f, next)
  {
  }

  lemma AfterIn(foot: Foot, s: Step)
    ensures forall u :: u != s.table ==> LiveIn(After(foot, s), u) == LiveIn(foot, u) && HooksIn(After(foot, s), u) == HooksIn(foot, u)
    ensures s.op.DelRule? ==> LiveIn(After(foot, s), s.table) == LiveIn(foot, s.table)
    ensures s.op.DelRule? ==> HooksIn(After(foot, s), s.table) == HooksIn(foot, s.table) - {(s.op.chain, s.op.rule)}
    ensures s.op.CleanupChain? ==> LiveIn(After(foot, s), s.table) == LiveIn(foot, s.table) - {s.op.chain}
    ensures s.op.CleanupChain? ==> HooksIn(After(foot, s), s.table) == HooksIn(foot, s.table)
  {
  }

  /** One step of a teardown. */
  lemma CleanStep(refused: set<Rule>, w0: World, w: World, f: Family, foot: Foot, whole: Foot, s: Step)
    requires PristineWorld(w0, f, whole) && Within(foot, whole) && InsideWorld(w0, w, f, foot)
    requires s.family == f && Clean(foot, s)
    requires s.op.DelRule? ==> (s.table, s.op.chain, s.op.rule) in whole.hooks
    requires s.op.CleanupChain? ==> (s.table, s.op.chain) in whole.live
    ensures InsideWorld(w0, Direct(refused, w, f, s.table, s.op).world, f, After(foot, s))
    ensures CleanupAccepted(refused, w, s)
  {
    var t, next := s.table, After(foot, s);
    AfterIn(foot, s);
    if s.op.Sync? {
      assert next == foot;
    } else if t !in w0[f] {
      FootMovedNowhere(w0, w, f, foot, next, t);
    } else {
      var a, b, c := w0[f][t], w[f][t], s.op.chain;
      if s.op.DelRule? {
        TableRuleGone(refused, a, b, LiveIn(foot, t), HooksIn(foot, t), c, s.op.rule);
        SilentTable(refused, w, f, t, Delete(c, s.op.rule));
        FootMoved(w0, w, f, foot, next, t, Ipt(refused, b, Delete(c, s.op.rule)).GetOr(b));
      } else {
        TableChainGone(refused, a, b, LiveIn(foot, t), HooksIn(foot, t), c);
        CleanupTable(refused, w, f, t, c);
        var e := Ipt(refused, b, Flush(c)).GetOr(b);
        FootMoved(w0, w, f, foot, next, t, Ipt(refused, e, DeleteChain(c)).GetOr(e));
      }
    }
  }

  lemma SilentTable(refused: set<Rule>, w: World, f: Family, t: TableName, cmd: IptCmd)
    requires f in w && t in w[f]
    ensures Silently(refused, w, f, t, cmd) == WithTable(w, f, t, Ipt(refused, w[f][t], cmd).GetOr(w[f][t]))
  {
    WithTableTwice(w, f, t, map[], map[]);
  }

  lemma CleanupTable(refused: set<Rule>, w: World, f: Family, t: TableName, c: string)
    requires f in w && t in w[f]
    ensures var e := Ipt(refused, w[f][t], Flush(c)).GetOr(w[f][t]);
      Direct(refused, w, f, t, CleanupChain(c)).world == WithTable(w, f, t, Ipt(refused, e, DeleteChain(c)).GetOr(e))
  {
    var e := Ipt(refused, w[f][t], Flush(c)).GetOr(w[f][t]);
    SilentTable(refused, w, f, t, Flush(c));
    SilentTable(refused, WithTable(w, f, t, e), f, t, DeleteChain(c));
    WithTableTwice(w, f, t, e, Ipt(refused, e, DeleteChain(c)).GetOr(e));
  }

  /** Every chain deletion of a teardown run is accepted. */
  predicate AllAccepted(refused: set<Rule>, w: World, steps: seq<Step>)
    decreases |steps|
  {
    steps == [] ||
    var s := steps[0];
    CleanupAccepted(refused, w, s) && AllAccepted(refused, Direct(refused, w, s.family, s.table, s.op).world, steps[1..])
  }

  predicate NamedIn(f: Family, whole: Foot, steps: seq<Step>) {
    forall s | s in steps ::
      && s.family == f
      && (s.op.DelRule? ==> (s.table, s.op.chain, s.op.rule) in whole.hooks)
      && (s.op.CleanupChain? ==> (s.table, s.op.chain) in whole.live)
  }

  lemma {:induction false} CleanRun(refused: set<Rule>, w0: World, w: World, f: Family, foot: Foot, whole: Foot, steps: seq<Step>)
    requires PristineWorld(w0, f, whole) && Within(foot, whole) && InsideWorld(w0, w, f, foot)
    requires CleanAll(foot, steps) && NamedIn(f, whole, steps)
    ensures InsideWorld(w0, DirectRun(refused, w, steps), f, AfterAll(foot, steps))
    ensures AllAccepted(refused, w, steps)
    decreases |steps|
  {
    if steps != [] {
      hide InsideWorld, Direct, Clean, PristineWorld, CleanupAccepted;
      var s := steps[0];
      assert s in steps;
      CleanStep(refused, w0, w, f, foot, whole, s);
      assert forall x :: x in steps[1..] ==> x in steps;
      CleanRun(refused, w0, Direct(refused, w, f, s.table, s.op).world, f, After(foot, s), whole, steps[1..]);
    }
  }

  lemma {:induction false} AfterAllEmpty(foot: Foot, steps: seq<Step>)
    requires forall x :: x in foot.live ==> exists s :: s in steps && s.op.CleanupChain? && (s.table, s.op.chain) == x
    requires forall h :: h in foot.hooks ==> exists s :: s in steps && s.op.DelRule? && (s.table, s.op.chain, s.op.rule) == h
    ensures AfterAll(foot, steps) == Foot({}, {})
    decreases |steps|
  {
    if steps != [] {
      var s, next := steps[0], After(foot, steps[0]);
      forall x | x in next.live ensures exists s :: s in steps[1..] && s.op.CleanupChain? && (s.table, s.op.chain) == x {
        var y :| y in steps && y.op.CleanupChain? && (y.table, y.op.chain) == x;
        assert y in steps[1..];
      }
      forall h | h in next.hooks ensures exists s :: s in steps[1..] && s.op.DelRule? && (s.table, s.op.chain, s.op.rule) == h {
        var y :| y in steps && y.op.DelRule? && (y.table, y.op.chain, y.op.rule) == h;
        assert y in steps[1..];
      }
      AfterAllEmpty(next, steps[1..]);
    } else {
      assert foot.live == {} && foot.hooks == {};
    }
  }
}
