/**
 The built-in chains.  What a setup does to a chain it shares with others is followed
 on its own, rule by rule, and proved to be what the kernel ends up with: the hooks in
 front, what is appended behind, and between them what was there.
 */
module Hooks {
  import opened Bytes
  import opened Netfilter
  import opened Batching
  import opened RuleConfig
  import opened RuleScripts
  import opened ChainContents
  import opened SetupContents
  import opened Teardown
  import opened TeardownModes
  import opened Sessions
  import opened SetupSuccess
  import opened SetupCondition

  // ----- one built-in chain -----

  /** The first variant that is there or taken ends the attempts. */
  function EnsuredIn(refused: set<Rule>, rules: seq<Rule>, held: seq<Rule>): seq<Rule> {
    if rules == [] || rules[0] in held then held
    else if rules[0] !in refused then held + [rules[0]]
    else EnsuredIn(refused, rules[1..], held)
  }

  function HookedBy(refused: set<Rule>, s: Step, t: TableName, c: string, held: seq<Rule>): seq<Rule> {
    if s.table != t || ChainOf(s.op) != c then held else
      match s.op
      case EnsureAppend(_, r) => if r in held || r in refused then held else held + [r]
      case EnsureInsert(_, r) => if r in held || r in refused then held else [r] + held
      case EnsureJump(_, target) => if Rule(Jump(target)) in held then held else [Rule(Jump(target))] + held
      case EnsureFirst(_, rules) => EnsuredIn(refused, rules, held)
      case DelRule(_, r) => Without(held, r)
      case _ => held
  }

  function HooksOf(refused: set<Rule>, steps: seq<Step>, t: TableName, c: string, held: seq<Rule>): seq<Rule>
    decreases |steps|
  {
    if steps == [] then held else HooksOf(refused, steps[1..], t, c, HookedBy(refused, steps[0], t, c, held))
  }

  /** The chain a rule for this built-in chain leads to, if it leads to one. */
  function Leads(s: Step, t: TableName, c: string): set<Place> {
    if s.table != t || ChainOf(s.op) != c then {} else
      match s.op
      case EnsureAppend(_, r) => if r.target.Jump? then {(t, r.target.chain)} else {}
      case EnsureInsert(_, r) => if r.target.Jump? then {(t, r.target.chain)} else {}
      case EnsureJump(_, target) => {(t, target)}
      case _ => {}
  }

  /** Rules of this chain lead to chains ensured before. */
  predicate Lands(f: Family, steps: seq<Step>, used: set<Place>, t: TableName, c: string)
    decreases |steps|
  {
    steps == [] || (Leads(steps[0], t, c) <= used && Lands(f, steps[1..], used + Ensured(f, steps[0]), t, c))
  }

  lemma {:induction false} LandsMore(f: Family, steps: seq<Step>, used: set<Place>, more: set<Place>, t: TableName, c: string)
    requires Lands(f, steps, used, t, c) && used <= more
    ensures Lands(f, steps, more, t, c)
    decreases |steps|
  {
    hide Leads, Ensured;
    if steps != [] {
      LandsMore(f, steps[1..], used + Ensured(f, steps[0]), more + Ensured(f, steps[0]), t, c);
    }
  }

  lemma {:induction false} LandsConcat(f: Family, a: seq<Step>, b: seq<Step>, used: set<Place>, t: TableName, c: string)
    requires Lands(f, a, used, t, c) && Lands(f, b, {}, t, c)
    ensures Lands(f, a + b, used, t, c)
    decreases |a|
  {
    hide Leads, Ensured;
    if a == [] {
      assert a + b == b;
      LandsMore(f, b, {}, used, t, c);
    } else {
      assert (a + b)[1..] == a[1..] + b;
      LandsConcat(f, a[1..], b, used + Ensured(f, a[0]), t, c);
    }
  }

  lemma {:induction false} HooksConcat(refused: set<Rule>, a: seq<Step>, b: seq<Step>, t: TableName, c: string, held: seq<Rule>)
    ensures HooksOf(refused, a + b, t, c, held) == HooksOf(refused, b, t, c, HooksOf(refused, a, t, c, held))
    decreases |a|
  {
    hide HookedBy;
    if a == [] {
      assert a + b == b;
    } else {
      assert (a + b)[1..] == a[1..] + b;
      HooksConcat(refused, a[1..], b, t, c, HookedBy(refused, a[0], t, c, held));
    }
  }

  // ----- the parts of a script -----

  /** A part takes the built-in chain from `before` to `after`. */
  ghost predicate Puts(refused: set<Rule>, f: Family, steps: seq<Step>, t: TableName, c: string, before: seq<Rule>, after: seq<Rule>) {
    Lands(f, steps, {}, t, c) && HooksOf(refused, steps, t, c, before) == after
  }

  lemma {:induction false} AsidePuts(refused: set<Rule>, f: Family, steps: seq<Step>, t: TableName, c: string, held: seq<Rule>)
    requires Aside(steps, f, t, c)
    ensures Puts(refused, f, steps, t, c, held, held)
    decreases |steps|
  {
    if steps != [] {
      assert steps[0] in steps && forall s :: s in steps[1..] ==> s in steps;
      AsidePuts(refused, f, steps[1..], t, c, held);
      LandsMore(f, steps[1..], {}, {} + Ensured(f, steps[0]), t, c);
    }
  }

  lemma PutsThen(refused: set<Rule>, f: Family, a: seq<Step>, b: seq<Step>, t: TableName, c: string,
                 before: seq<Rule>, middle: seq<Rule>, after: seq<Rule>)
    requires Puts(refused, f, a, t, c, before, middle) && Puts(refused, f, b, t, c, middle, after)
    ensures Puts(refused, f, a + b, t, c, before, after)
  {
    hide Lands, HooksOf;
    LandsConcat(f, a, b, {}, t, c);
    HooksConcat(refused, a, b, t, c, before);
  }

  lemma PutsThenAside(refused: set<Rule>, f: Family, a: seq<Step>, b: seq<Step>, t: TableName, c: string, before: seq<Rule>, after: seq<Rule>)
    requires Puts(refused, f, a, t, c, before, after) && Aside(b, f, t, c)
    ensures Puts(refused, f, a + b, t, c, before, after)
  {
    hide *;
    AsidePuts(refused, f, b, t, c, after);
    PutsThen(refused, f, a, b, t, c, before, after, after);
  }

  lemma AsideThenPuts(refused: set<Rule>, f: Family, a: seq<Step>, b: seq<Step>, t: TableName, c: string, before: seq<Rule>, after: seq<Rule>)
    requires Aside(a, f, t, c) && Puts(refused, f, b, t, c, before, after)
    ensures Puts(refused, f, a + b, t, c, before, after)
  {
    hide *;
    AsidePuts(refused, f, a, t, c, before);
    PutsThen(refused, f, a, b, t, c, before, before, after);
  }

  lemma {:induction false} LandsThen(f: Family, a: seq<Step>, b: seq<Step>, used: set<Place>, t: TableName, c: string)
    requires Lands(f, a, used, t, c) && Lands(f, b, used, t, c)
    ensures Lands(f, a + b, used, t, c)
    decreases |a|
  {
    hide Leads, Ensured;
    if a == [] {
      assert a + b == b;
    } else {
      assert (a + b)[1..] == a[1..] + b;
      LandsMore(f, b, used, used + Ensured(f, a[0]), t, c);
      LandsThen(f, a[1..], b, used + Ensured(f, a[0]), t, c);
    }
  }

  lemma MakesChain(refused: set<Rule>, f: Family, target: string, t: TableName, c: string, held: seq<Rule>, rest: seq<Step>)
    requires IsBoxCustomChain(target) && c != target
    ensures var made := Step(f, t, EnsureChain(target));
      && HooksOf(refused, [made] + rest, t, c, held) == HooksOf(refused, rest, t, c, held)
      && (Lands(f, rest, {(t, target)}, t, c) ==> Lands(f, [made] + rest, {}, t, c))
  {
    var made := Step(f, t, EnsureChain(target));
    assert ([made] + rest)[1..] == rest && {} + {(t, target)} == {(t, target)};
    assert Ensured(f, made) == {(t, target)} && HookedBy(refused, made, t, c, held) == held && Leads(made, t, c) == {};
  }

  /** A jump that is there is left where it is. */
  function WithJump(target: string, held: seq<Rule>): seq<Rule> {
    if Rule(Jump(target)) in held then held else [Rule(Jump(target))] + held
  }

  lemma JumpPuts(refused: set<Rule>, f: Family, target: string, t: TableName, c: string, held: seq<Rule>)
    ensures var jump := Step(f, t, EnsureJump(c, target));
      Lands(f, [jump], {(t, target)}, t, c) && HooksOf(refused, [jump], t, c, held) == WithJump(target, held)
  {
    var jump := Step(f, t, EnsureJump(c, target));
    assert [jump][1..] == [] && Leads(jump, t, c) == {(t, target)};
    assert HooksOf(refused, [jump], t, c, held) == HooksOf(refused, [], t, c, HookedBy(refused, jump, t, c, held));
  }

  /** A chain made, filled and hooked in. */
  lemma MadeAndHooked(refused: set<Rule>, f: Family, target: string, filling: seq<Step>, t: TableName, c: string,
                      before: seq<Rule>, middle: seq<Rule>)
    requires IsBoxCustomChain(target) && c != target
    requires Puts(refused, f, filling, t, c, before, middle)
    ensures Puts(refused, f, One(f, t, EnsureChain(target)) + filling + One(f, t, EnsureJump(c, target)), t, c,
                 before, WithJump(target, middle))
  {
    var made, jump := Step(f, t, EnsureChain(target)), Step(f, t, EnsureJump(c, target));
    assert One(f, t, EnsureChain(target)) + filling + One(f, t, EnsureJump(c, target)) == [made] + (filling + [jump]);
    hide HooksOf, Lands, WithJump, IsBoxCustomChain;
    JumpPuts(refused, f, target, t, c, middle);
    HooksConcat(refused, filling, [jump], t, c, before);
    LandsMore(f, filling, {}, {(t, target)}, t, c);
    LandsThen(f, filling, [jump], {(t, target)}, t, c);
    MakesChain(refused, f, target, t, c, before, filling + [jump]);
  }

  // ----- what the kernel makes of it -----

  lemma {:induction false} WithoutAbsent(rules: seq<Rule>, r: Rule)
    requires r !in rules
    ensures Without(rules, r) == rules
  {
    if rules != [] {
      WithoutAbsent(rules[1..], r);
    }
  }

  /** Rules that do not jump, tried on a shared chain. */
  lemma {:induction false} EnsuredHere(refused: set<Rule>, w: World, f: Family, t: TableName, c: string, rules: seq<Rule>)
    requires HasChain(w, f, t, c) && NoJumps(rules)
    ensures Holding(FirstEnsured(refused, w, f, t, c, rules).world, f, t, c) == Some(EnsuredIn(refused, rules, w[f][t][c]))
    decreases |rules|
  {
    if rules != [] {
      assert !rules[0].target.Jump? && NoJumps(rules[1..]);
      if rules[0] !in w[f][t][c] && rules[0] in refused {
        EnsuredHere(refused, w, f, t, c, rules[1..]);
      }
    }
  }

  /** What a setup does to a chain it shares: the kinds of operations. */
  predicate Sharing(s: Step) {
    match s.op
    case EnsureAppend(_, _) => true
    case EnsureInsert(_, _) => true
    case EnsureJump(_, _) => true
    case EnsureFirst(_, rules) => NoJumps(rules)
    case DelRule(_, _) => true
    case Sync(_) => true
    case _ => false
  }

  lemma PutHere(refused: set<Rule>, w: World, f: Family, t: TableName, s: Step)
    requires HasChain(w, f, t, ChainOf(s.op)) && s.table == t && !IsBoxCustomChain(ChainOf(s.op)) && Sharing(s)
    requires forall p :: p in Leads(s, t, ChainOf(s.op)) ==> HasChain(w, f, t, p.1)
    requires s.op.EnsureJump? ==> Rule(Jump(s.op.target)) !in refused
    ensures Holding(Direct(refused, w, f, t, s.op).world, f, t, ChainOf(s.op))
         == Some(HookedBy(refused, s, t, ChainOf(s.op), w[f][t][ChainOf(s.op)]))
  {
    hide IsBoxCustomChain;
    var c := ChainOf(s.op);
    var held := w[f][t][c];
    match s.op
    case EnsureAppend(_, r) => assert r.target.Jump? ==> (t, r.target.chain) in Leads(s, t, c);
    case EnsureInsert(_, r) => assert r.target.Jump? ==> (t, r.target.chain) in Leads(s, t, c);
    case EnsureJump(_, target) => assert (t, target) in Leads(s, t, c);
    case EnsureFirst(_, rules) => EnsuredHere(refused, w, f, t, c, rules);
    case DelRule(_, r) =>
      if r !in held {
        WithoutAbsent(held, r);
      }
    case _ =>
  }

  /** The kernel ends up with what following the chain alone gives. */
  lemma {:induction false} HookRun(refused: set<Rule>, w: World, f: Family, used: set<Place>, all: set<Place>, steps: seq<Step>,
                                   t: TableName, c: string)
    requires Grounded(f, steps, used, all) && Hooked(f, steps, used) && Lands(f, steps, used, t, c) && used <= all
    requires Standing(w, f, used) && TablesFit(w, f, steps) && HasChain(w, f, t, c) && !IsBoxCustomChain(c)
    requires forall s :: s in steps ==>
      && Willing(refused, false, s) && (s.op.EnsureJump? ==> (s.table, s.op.chain) in used)
      && (s.table == t && ChainOf(s.op) == c ==> Sharing(s))
    ensures Holding(DirectRun(refused, w, steps), f, t, c) == Some(HooksOf(refused, steps, t, c, w[f][t][c]))
    decreases |steps|
  {
    if steps != [] {
      var s := steps[0];
      assert s in steps && forall q :: q in steps[1..] ==> q in steps;
      var v := Direct(refused, w, s.family, s.table, s.op).world;
      GroundedEnsures(f, s, used, all);
      GroundedFamily(f, s, used, all);
      HookOn(refused, w, f, used, all, s, t, c);
      HookStep(refused, w, f, used, s, t, c);
      hide GroundedStep, Direct, Touched, Ensured, Willing, Standing, HasTable, Needed, IsLocalIp, Sharing, Leads, HookedBy, IsBoxCustomChain;
      forall q | q in steps[1..] && Needed(q) && !q.op.Sync? ensures HasTable(v, f, q.table) {
        TablesStay(refused, w, f, s.table, s.op, q.table);
      }
      HookRun(refused, v, f, used + Ensured(f, s), all, steps[1..], t, c);
    }
  }

  lemma HookOn(refused: set<Rule>, w: World, f: Family, used: set<Place>, all: set<Place>, s: Step, t: TableName, c: string)
    requires GroundedStep(f, s, used, all) && Standing(w, f, used) && used <= all && TablesFit(w, f, [s])
    requires (s.op.EnsureJump? ==> (s.table, s.op.chain) in used && (s.table, s.op.target) in used)
    requires (s.op.Rebuild? ==> IsLocalIp(s.op.chain)) && Willing(refused, false, s)
    ensures Standing(Direct(refused, w, f, s.table, s.op).world, f, used + Ensured(f, s))
  {
    WillingStep(refused, w, f, false, used, all, s);
    hide *;
    StandingDirect(refused, w, f, used, all, s);
  }

  lemma HookStep(refused: set<Rule>, w: World, f: Family, used: set<Place>, s: Step, t: TableName, c: string)
    requires s.family == f && Standing(w, f, used) && Leads(s, t, c) <= used && HasChain(w, f, t, c) && !IsBoxCustomChain(c)
    requires s.table == t && ChainOf(s.op) == c ==> Sharing(s)
    requires Willing(refused, false, s)
    ensures HasChain(Direct(refused, w, f, s.table, s.op).world, f, t, c)
    ensures Direct(refused, w, f, s.table, s.op).world[f][t][c] == HookedBy(refused, s, t, c, w[f][t][c])
  {
    hide Direct, IsBoxCustomChain;
    if s.table == t && ChainOf(s.op) == c {
      PutHere(refused, w, f, t, s);
    } else {
      StepElsewhere(refused, w, f, s.table, s.op, t, c);
    }
  }

  // ----- setups -----

  /** No rule enters a chain of the compiler. */
  predicate Jumpless(rules: seq<Rule>) { forall r | r in rules :: r.target.Jump? ==> !IsBoxCustomChain(r.target.chain) }

  /** None of the compiler's jumps is in place. */
  ghost predicate Bare(w: World, f: Family) {
    forall t, c :: (t, c) in HookPlaces() && HasChain(w, f, t, c) ==> Jumpless(w[f][t][c])
  }

  lemma {:induction false} TargetsEnsured(f: Family, steps: seq<Step>, used: set<Place>)
    requires Hooked(f, steps, used)
    ensures forall s :: s in steps && s.op.EnsureJump? ==>
      (s.table, s.op.chain) in HookPlaces() && (s.table, s.op.target) in used + EnsuredBy(f, steps)
    decreases |steps|
  {
    hide HookPlaces, Ensured, IsLocalIp;
    if steps != [] {
      TargetsEnsured(f, steps[1..], used + Ensured(f, steps[0]));
    }
  }

  lemma BareIsFresh(w: World, c: Config, k: Capabilities, x: Context, f: Family)
    requires Bare(w, f)
    ensures Fresh(w, c, k, x, f)
  {
    var steps := ModeSetup(c, k, x, f);
    hide ModeSetup, HookPlaces, IsBoxCustomChain;
    SetupHooked(c, k, x, f);
    SetupFamily(c, k, x, f);
    TargetsEnsured(f, steps, {});
    EnsuredCustom(f, steps);
    forall s | s in steps && s.op.EnsureJump? ensures HookAbsent(w, s) {
      assert (s.table, s.op.target).1 == s.op.target;
      if HasChain(w, f, s.table, s.op.chain) {
        assert Jumpless(w[f][s.table][s.op.chain]);
      }
    }
  }

  lemma ShapedShares(f: Family, foot: Foot, s: Step, c: string)
    requires Shaped(foot) && Permits(foot, s) && ChainOf(s.op) == c && !IsBoxCustomChain(c)
    ensures Sharing(s)
  {
    hide IsBoxCustomChain, OwnRule;
  }

  lemma SetupShares(c: Config, k: Capabilities, x: Context, f: Family, t: TableName, ch: string)
    requires !IsBoxCustomChain(ch)
    ensures forall s :: s in ModeSetup(c, k, x, f) && s.table == t && ChainOf(s.op) == ch ==> Sharing(s)
  {
    hide ModeSetup, ModeStop, Footprint, IsBoxCustomChain, Permits, Shaped, Sharing;
    SetupPermitted(c, k, x, f, ModeStop(c, k, x, f));
    StopsAreShaped(c, k, x, f);
    FootprintShaped(f, ModeStop(c, k, x, f));
    var foot := Footprint(ModeStop(c, k, x, f));
    forall s | s in ModeSetup(c, k, x, f) && s.table == t && ChainOf(s.op) == ch ensures Sharing(s) {
      ShapedShares(f, foot, s, ch);
    }
  }

  /** Behind a setup that reports no failure, a built-in chain holds what following it
      alone gives. */
  lemma HooksHeld(refused: set<Rule>, w: World, c: Config, k: Capabilities, x: Context, f: Family, buffered: bool,
                  t: TableName, ch: string, after: seq<Rule>)
    requires Reported(refused, w, c, k, x, f, buffered) && Bare(w, f) && HasChain(w, f, t, ch) && !IsBoxCustomChain(ch)
    requires Puts(refused, f, ModeSetup(c, k, x, f), t, ch, w[f][t][ch], after)
    ensures Holding(DirectRun(refused, w, ModeSetup(c, k, x, f)), f, t, ch) == Some(after)
  {
    var steps, there := ModeSetup(c, k, x, f), HooksThere(w, f);
    var all := EnsuredBy(f, steps) + HookPlaces();
    PutsMean(refused, f, steps, t, ch, w[f][t][ch], after);
    hide *;
    BareIsFresh(w, c, k, x, f);
    FeasibleAll(refused, w, c, k, x, f, buffered);
    ReportedExactly(refused, w, c, k, x, f, buffered);
    ThereStands(w, f);
    GroundedFromHooks(c, k, x, f, there);
    HooksInPlaces(f, steps, there);
    HooksFit(w, f, steps);
    LandsMore(f, steps, {}, there, t, ch);
    SetupShares(c, k, x, f, t, ch);
    forall s | s in steps ensures Willing(refused, false, s) {
      WillingUnbuffered(refused, buffered, s);
    }
    HookRun(refused, w, f, there, all, steps, t, ch);
  }

  lemma PutsMean(refused: set<Rule>, f: Family, steps: seq<Step>, t: TableName, c: string, before: seq<Rule>, after: seq<Rule>)
    requires Puts(refused, f, steps, t, c, before, after)
    ensures Lands(f, steps, {}, t, c) && HooksOf(refused, steps, t, c, before) == after
  {
  }

  lemma WillingUnbuffered(refused: set<Rule>, buffered: bool, s: Step)
    requires Willing(refused, buffered, s)
    ensures Willing(refused, false, s)
  {
  }
}
