/**
 A buffered session against the direct run of the same setup.  The kernels differ
 at most in the rules of chains ensured twice, none of which jumps anywhere; for
 enhance mode those rules are the direct chain's own, repeated, so every packet
 fares the same in every chain.
 */
module DnsTwice {
  import opened Bytes
  import opened Netfilter
  import opened Batching
  import opened RuleConfig
  import opened RuleScripts
  import opened ChainContents
  import opened ExternalPolicy
  import opened LocalPolicy
  import opened SetupContents
  import opened InstalledPolicy
  import opened TeardownModes
  import opened Sessions

  // ----- kernels that differ in some chains' rules -----

  /** The same chains, with the same rules outside `loose`; the loose ones jump nowhere. */
  predicate TwinChains(x: Chains, y: Chains, loose: set<string>) {
    && x.Keys == y.Keys
    && forall c | c in x :: if c in loose then NoJumps(x[c]) && NoJumps(y[c]) else x[c] == y[c]
  }

  function LooseIn(loose: set<Place>, t: TableName): set<string> { set p | p in loose && p.0 == t :: p.1 }

  predicate Twins(a: World, b: World, f: Family, loose: set<Place>) {
    && a.Keys == b.Keys && f in a
    && (forall g | g in a && g != f :: a[g] == b[g])
    && a[f].Keys == b[f].Keys
    && forall t | t in a[f] :: TwinChains(a[f][t], b[f][t], LooseIn(loose, t))
  }

  /** Commands that keep loose chains loose, and do not delete from them. */
  predicate Suits(cmd: IptCmd, loose: set<string>) {
    cmd.chain in loose ==>
      match cmd
      case NewChain(_) => true
      case Flush(_) => true
      case Append(_, r) => !r.target.Jump?
      case Insert(_, r) => !r.target.Jump?
      case DeleteChain(_) => false
      case Delete(_, _) => false
  }

  lemma TwinsReference(x: Chains, y: Chains, loose: set<string>, c: string)
    requires TwinChains(x, y, loose)
    ensures Referenced(x, c) == Referenced(y, c)
  {
    forall d | d in x ensures Mentions(x[d], c) == Mentions(y[d], c) {
    }
  }

  lemma TwinIpt(refused: set<Rule>, x: Chains, y: Chains, loose: set<string>, cmd: IptCmd)
    requires TwinChains(x, y, loose) && Suits(cmd, loose)
    ensures Ipt(refused, x, cmd).Some? == Ipt(refused, y, cmd).Some?
    ensures Ipt(refused, x, cmd).Some? ==> TwinChains(Ipt(refused, x, cmd).value, Ipt(refused, y, cmd).value, loose)
  {
    hide Referenced, Mentions;
    TwinsReference(x, y, loose, cmd.chain);
  }

  lemma TwinsReplaced(a: World, b: World, f: Family, loose: set<Place>, t: TableName, x: Chains, y: Chains)
    requires Twins(a, b, f, loose) && t in a[f] && TwinChains(x, y, LooseIn(loose, t))
    ensures Twins(WithTable(a, f, t, x), WithTable(b, f, t, y), f, loose)
  {
    hide TwinChains, LooseIn;
  }

  lemma TwinsAt(a: World, b: World, f: Family, loose: set<Place>, t: TableName)
    requires Twins(a, b, f, loose)
    ensures f in a && f in b && (t in a[f] <==> t in b[f])
    ensures t in a[f] ==> TwinChains(a[f][t], b[f][t], LooseIn(loose, t))
  {
    hide TwinChains, LooseIn;
  }

  lemma TwinCommand(refused: set<Rule>, a: World, b: World, f: Family, loose: set<Place>, t: TableName, cmd: IptCmd)
    requires Twins(a, b, f, loose) && Suits(cmd, LooseIn(loose, t))
    ensures Required(refused, a, f, t, cmd).ok == Required(refused, b, f, t, cmd).ok
    ensures Twins(Required(refused, a, f, t, cmd).world, Required(refused, b, f, t, cmd).world, f, loose)
    ensures Silently(refused, a, f, t, cmd) == Required(refused, a, f, t, cmd).world
  {
    hide Ipt, TwinChains, LooseIn, Suits, WithTable, Twins;
    TwinsAt(a, b, f, loose, t);
    if t in a[f] {
      var x, y := a[f][t], b[f][t];
      TwinIpt(refused, x, y, LooseIn(loose, t), cmd);
      if Ipt(refused, x, cmd).Some? {
        TwinsReplaced(a, b, f, loose, t, Ipt(refused, x, cmd).value, Ipt(refused, y, cmd).value);
      }
    }
  }

  lemma TwinsPresent(a: World, b: World, f: Family, loose: set<Place>, t: TableName, c: string, r: Rule)
    requires Twins(a, b, f, loose) && c !in LooseIn(loose, t)
    ensures Checked(a, f, t, c, r) == Checked(b, f, t, c, r)
  {
    hide LooseIn;
  }

  lemma {:induction false} TwinFirstTaken(refused: set<Rule>, a: World, b: World, f: Family, loose: set<Place>, t: TableName,
                                          c: string, rules: seq<Rule>, front: bool)
    requires Twins(a, b, f, loose) && (c in LooseIn(loose, t) ==> NoJumps(rules))
    ensures var x, y := FirstTaken(refused, a, f, t, c, rules, front), FirstTaken(refused, b, f, t, c, rules, front);
      x.ok == y.ok && Twins(x.world, y.world, f, loose)
    decreases |rules|
  {
    hide Twins, Required, LooseIn;
    if rules != [] {
      assert rules[0] in rules && forall r :: r in rules[1..] ==> r in rules;
      var cmd := if front then Insert(c, rules[0]) else Append(c, rules[0]);
      TwinCommand(refused, a, b, f, loose, t, cmd);
      TwinFirstTaken(refused, a, b, f, loose, t, c, rules[1..], front);
    }
  }

  lemma TwinAppend(refused: set<Rule>, a: World, b: World, f: Family, loose: set<Place>, t: TableName, c: string, r: Rule)
    requires Twins(a, b, f, loose) && c !in LooseIn(loose, t)
    ensures var x, y := SharedAppend(refused, a, f, t, c, r), SharedAppend(refused, b, f, t, c, r);
      x.ok == y.ok && Twins(x.world, y.world, f, loose)
  {
    hide Twins, Required, LooseIn, Checked;
    TwinsPresent(a, b, f, loose, t, c, r);
    TwinCommand(refused, a, b, f, loose, t, Append(c, r));
  }

  lemma {:induction false} TwinFirstEnsured(refused: set<Rule>, a: World, b: World, f: Family, loose: set<Place>, t: TableName,
                                            c: string, rules: seq<Rule>)
    requires Twins(a, b, f, loose) && c !in LooseIn(loose, t)
    ensures var x, y := FirstEnsured(refused, a, f, t, c, rules), FirstEnsured(refused, b, f, t, c, rules);
      x.ok == y.ok && Twins(x.world, y.world, f, loose)
    decreases |rules|
  {
    hide Twins, SharedAppend, LooseIn;
    if rules != [] {
      TwinAppend(refused, a, b, f, loose, t, c, rules[0]);
      TwinFirstEnsured(refused, a, b, f, loose, t, c, rules[1..]);
    }
  }

  /** Steps that only ensure loose chains, append to them, or put variants in front. */
  predicate StepSuits(s: Step, f: Family, loose: set<Place>) {
    s.family == f &&
    ((s.table, ChainOf(s.op)) in loose ==>
       IsBoxCustomChain(ChainOf(s.op)) &&
       match s.op
       case EnsureChain(_) => true
       case EnsureAppend(_, r) => !r.target.Jump?
       case AppendFirst(_, rules) => NoJumps(rules)
       case InsertFirst(_, rules, fallback) => NoJumps(rules) && fallback == None
       case _ => false)
  }

  lemma LooseMember(loose: set<Place>, t: TableName, c: string)
    ensures c in LooseIn(loose, t) <==> (t, c) in loose
  {
    if (t, c) in loose {
      assert (t, c).1 in LooseIn(loose, t);
    }
  }

  lemma StepTwins(refused: set<Rule>, a: World, b: World, f: Family, loose: set<Place>, s: Step)
    requires Twins(a, b, f, loose) && StepSuits(s, f, loose)
    ensures Twins(Direct(refused, a, f, s.table, s.op).world, Direct(refused, b, f, s.table, s.op).world, f, loose)
    ensures s.op.EnsureChain? || s.op.EnsureAppend? || s.op.Rebuild? ==>
      Direct(refused, a, f, s.table, s.op).ok == Direct(refused, b, f, s.table, s.op).ok
  {
    hide Twins, Required, Silently, Checked, LooseIn, FirstTaken, FirstEnsured, SharedAppend, IsBoxCustomChain, IsLocalIp, Kept, AcceptPairs;
    var t, c := s.table, ChainOf(s.op);
    LooseMember(loose, t, c);
    match s.op
    case EnsureChain(_) =>
      TwinCommand(refused, a, b, f, loose, t, NewChain(c));
      TwinCommand(refused, Silently(refused, a, f, t, NewChain(c)), Silently(refused, b, f, t, NewChain(c)), f, loose, t, Flush(c))
        by { TwinSilent(refused, a, b, f, loose, t, NewChain(c)); }
    case EnsureAppend(_, r) =>
      if IsBoxCustomChain(c) {
        TwinCommand(refused, a, b, f, loose, t, Append(c, r));
      } else {
        TwinAppend(refused, a, b, f, loose, t, c, r);
      }
    case EnsureInsert(_, r) =>
      TwinsPresent(a, b, f, loose, t, c, r);
      TwinSilent(refused, a, b, f, loose, t, Insert(c, r));
    case EnsureJump(_, target) =>
      TwinsPresent(a, b, f, loose, t, c, Rule(Jump(target)));
      TwinCommand(refused, a, b, f, loose, t, Insert(c, Rule(Jump(target))));
    case DelRule(_, r) => TwinSilent(refused, a, b, f, loose, t, Delete(c, r));
    case CleanupChain(_) =>
      TwinSilent(refused, a, b, f, loose, t, Flush(c));
      TwinSilent(refused, Silently(refused, a, f, t, Flush(c)), Silently(refused, b, f, t, Flush(c)), f, loose, t, DeleteChain(c));
    case InsertFirst(_, rules, fallback) =>
      TwinFirstTaken(refused, a, b, f, loose, t, c, rules, true);
      if fallback.Some? {
        var x, y := FirstTaken(refused, a, f, t, c, rules, true).world, FirstTaken(refused, b, f, t, c, rules, true).world;
        FirstTakenFails(refused, a, f, t, c, rules);
        FirstTakenFails(refused, b, f, t, c, rules);
        TwinsPresent(a, b, f, loose, t, c, fallback.value);
        TwinSilent(refused, a, b, f, loose, t, Insert(c, fallback.value));
      }
    case AppendFirst(_, rules) => TwinFirstTaken(refused, a, b, f, loose, t, c, rules, false);
    case EnsureFirst(_, rules) => TwinFirstEnsured(refused, a, b, f, loose, t, c, rules);
    case Rebuild(_, nets, _) => TwinRebuilt(refused, a, b, f, loose, t, c, nets);
    case Sync(_) =>
  }

  lemma TwinRebuilt(refused: set<Rule>, a: World, b: World, f: Family, loose: set<Place>, t: TableName, c: string, nets: seq<Net>)
    requires Twins(a, b, f, loose) && c !in LooseIn(loose, t)
    ensures f in a && f in b && (t in a[f] <==> t in b[f])
    ensures t in a[f] ==>
      var rules := Kept(refused, AcceptPairs(nets));
      Twins(WithTable(a, f, t, a[f][t][c := rules]), WithTable(b, f, t, b[f][t][c := rules]), f, loose)
  {
    hide Twins, LooseIn, Kept, AcceptPairs, WithTable;
    TwinsAt(a, b, f, loose, t);
    if t in a[f] {
      var rules := Kept(refused, AcceptPairs(nets));
      TwinsReplaced(a, b, f, loose, t, a[f][t][c := rules], b[f][t][c := rules]);
    }
  }

  lemma TwinSilent(refused: set<Rule>, a: World, b: World, f: Family, loose: set<Place>, t: TableName, cmd: IptCmd)
    requires Twins(a, b, f, loose) && Suits(cmd, LooseIn(loose, t))
    ensures Twins(Silently(refused, a, f, t, cmd), Silently(refused, b, f, t, cmd), f, loose)
  {
    TwinCommand(refused, a, b, f, loose, t, cmd);
    TwinCommand(refused, b, b, f, loose, t, cmd) by { SelfTwins(a, b, f, loose); }
  }

  lemma SelfTwins(a: World, b: World, f: Family, loose: set<Place>)
    requires Twins(a, b, f, loose)
    ensures Twins(b, b, f, loose)
  {
  }

  // ----- a session and the direct run -----

  predicate RunSuits(steps: seq<Step>, f: Family, loose: set<Place>) { forall s | s in steps :: StepSuits(s, f, loose) }

  /** A dropped ensure leaves the chain as loose as the direct one leaves it. */
  lemma DroppedTwins(refused: set<Rule>, a: World, b: World, f: Family, loose: set<Place>, s: Step)
    requires Twins(a, b, f, loose) && s.family == f && s.op.EnsureChain? && (s.table, s.op.chain) in loose
    requires Holding(a, f, s.table, s.op.chain).Some?
    ensures Twins(a, Direct(refused, b, f, s.table, s.op).world, f, loose)
  {
    var t, c := s.table, s.op.chain;
    LooseMember(loose, t, c);
    assert a[f].Keys == b[f].Keys && TwinChains(a[f][t], b[f][t], LooseIn(loose, t));
    DirectEnsureChain(refused, b, f, t, c);
    hide LooseIn;
    TwinsReplaced(a, b, f, loose, t, a[f][t], b[f][t][c := []]);
    WithTableTwice(a, f, t, a[f][t], a[f][t]);
  }

  /** Chains once ensured stay, as no step of these deletes a loose chain. */
  ghost predicate AllHeld(w: World, f: Family, places: set<Place>) {
    forall t, c :: (t, c) in places ==> Holding(w, f, t, c).Some?
  }

  lemma LooseHeld(refused: set<Rule>, w: World, f: Family, loose: set<Place>, s: Step, t: TableName, c: string)
    requires StepSuits(s, f, loose) && (t, c) in loose && Holding(w, f, t, c).Some?
    requires s.op.EnsureAppend? && s.table == t && ChainOf(s.op) == c ==> Direct(refused, w, f, s.table, s.op).ok
    ensures Holding(Direct(refused, w, f, s.table, s.op).world, f, t, c).Some?
  {
    hide IsBoxCustomChain, Direct;
    if s.table == t && ChainOf(s.op) == c {
      assert s == Step(f, t, s.op);
      StepHere(refused, w, f, t, s.op);
    } else {
      StepElsewhere(refused, w, f, s.table, s.op, t, c);
    }
  }

  /** One step of a session beside the same step run directly. */
  lemma SessionStepTwins(refused: set<Rule>, a: World, b: World, f: Family, loose: set<Place>, used: set<Place>, s: Step)
    requires Twins(a, b, f, loose) && StepSuits(s, f, loose) && Ensured(f, s) * used <= loose
    requires AllHeld(a, f, used * loose)
    ensures var x, y := Sessional(refused, a, f, true, used, s), Direct(refused, b, f, s.table, s.op);
      Twins(x.world, y.world, f, loose) && (Touched(f, s) != {} && x.ok ==> y.ok)
  {
    hide Twins, Direct, IsBoxCustomChain;
    if s.op.EnsureChain? && Ensured(f, s) != {} && Ensured(f, s) <= used {
      var p := (s.table, s.op.chain);
      assert p in Ensured(f, s) && p in used * loose;
      assert Holding(a, f, s.table, s.op.chain).Some?;
      DroppedTwins(refused, a, b, f, loose, s);
      TwinsAt(a, b, f, loose, s.table);
      DirectEnsureChain(refused, b, f, s.table, s.op.chain);
    } else {
      StepTwins(refused, a, b, f, loose, s);
    }
  }

  lemma HeldOn(refused: set<Rule>, a: World, f: Family, loose: set<Place>, used: set<Place>, s: Step)
    requires f in a && StepSuits(s, f, loose) && AllHeld(a, f, used * loose)
    requires var e := Sessional(refused, a, f, true, used, s); Touched(f, s) != {} ==> e.ok
    ensures AllHeld(Sessional(refused, a, f, true, used, s).world, f, (used + Ensured(f, s)) * loose)
  {
    hide Direct, IsBoxCustomChain, Holding;
    forall t, c | (t, c) in (used + Ensured(f, s)) * loose
      ensures Holding(Sessional(refused, a, f, true, used, s).world, f, t, c).Some?
    {
      if (t, c) in used * loose {
        LooseHeld(refused, a, f, loose, s, t, c);
      } else {
        NewlyHeld(refused, a, f, s);
      }
    }
  }

  lemma NewlyHeld(refused: set<Rule>, a: World, f: Family, s: Step)
    requires f in a && s.family == f && s.op.EnsureChain? && Direct(refused, a, f, s.table, s.op).ok
    ensures Holding(Direct(refused, a, f, s.table, s.op).world, f, s.table, s.op.chain).Some?
  {
    if s.table in a[f] {
      DirectEnsureChain(refused, a, f, s.table, s.op.chain);
    }
  }

  /** A session and the direct run stay twins, and what the session accepts the direct run accepts. */
  lemma {:induction false} SessionTwins(refused: set<Rule>, a: World, b: World, f: Family, loose: set<Place>, used: set<Place>, steps: seq<Step>)
    requires Twins(a, b, f, loose) && RunSuits(steps, f, loose) && Regular(f, loose, steps, used)
    requires SessionAcceptable(refused, a, f, true, used, steps) && AllHeld(a, f, used * loose)
    ensures Twins(SessionRun(refused, a, f, true, used, steps), DirectRun(refused, b, steps), f, loose)
    ensures Acceptable(refused, b, f, steps)
    decreases |steps|
  {
    hide Twins, Sessional, Direct, StepSuits, Touched, AllHeld;
    if steps != [] {
      var s := steps[0];
      assert s in steps && StepSuits(s, f, loose) && s.family == f by { SuitsFamily(s, f, loose); }
      TwinsHasFamily(a, b, f, loose);
      SessionStepTwins(refused, a, b, f, loose, used, s);
      HeldOn(refused, a, f, loose, used, s);
      var e := Sessional(refused, a, f, true, used, s);
      assert forall q :: q in steps[1..] ==> q in steps;
      SessionTwins(refused, e.world, Direct(refused, b, f, s.table, s.op).world, f, loose, used + Ensured(f, s), steps[1..]);
    }
  }

  lemma SuitsFamily(s: Step, f: Family, loose: set<Place>)
    requires StepSuits(s, f, loose)
    ensures s.family == f
  {
  }

  lemma TwinsHasFamily(a: World, b: World, f: Family, loose: set<Place>)
    requires Twins(a, b, f, loose)
    ensures f in a && f in b
  {
  }

  // ----- what a session adds to a chain it knows -----

  function GrownBy(refused: set<Rule>, s: Step, t: TableName, c: string, h: Option<seq<Rule>>): Option<seq<Rule>> {
    if s.op.EnsureChain? then h else WrittenBy(refused, s, t, c, h)
  }

  function Grown(refused: set<Rule>, steps: seq<Step>, t: TableName, c: string, h: Option<seq<Rule>>): Option<seq<Rule>>
    decreases |steps|
  {
    if steps == [] then h else Grown(refused, steps[1..], t, c, GrownBy(refused, steps[0], t, c, h))
  }

  lemma {:induction false} SessionGrows(refused: set<Rule>, w: World, f: Family, used: set<Place>, steps: seq<Step>, t: TableName, c: string)
    requires HasTable(w, f, t) && IsBoxCustomChain(c) && (t, c) in used
    requires SessionAcceptable(refused, w, f, true, used, steps) && BuildsAll(steps, f, t, c)
    ensures Holding(SessionRun(refused, w, f, true, used, steps), f, t, c) == Grown(refused, steps, t, c, Holding(w, f, t, c))
    decreases |steps|
  {
    hide Direct, GrownBy, Holding, IsBoxCustomChain, HasTable;
    if steps != [] {
      var s := steps[0];
      assert s in steps && Builds(s, f, t, c);
      var e := Sessional(refused, w, f, true, used, s);
      SessionGrowsStep(refused, w, f, used, s, t, c);
      assert forall x :: x in steps[1..] ==> x in steps;
      SessionGrows(refused, e.world, f, used + Ensured(f, s), steps[1..], t, c);
    }
  }

  lemma SessionGrowsStep(refused: set<Rule>, w: World, f: Family, used: set<Place>, s: Step, t: TableName, c: string)
    requires HasTable(w, f, t) && IsBoxCustomChain(c) && (t, c) in used && Builds(s, f, t, c)
    requires Touched(f, s) != {} ==> Sessional(refused, w, f, true, used, s).ok
    ensures var v := Sessional(refused, w, f, true, used, s).world;
      HasTable(v, f, t) && Holding(v, f, t, c) == GrownBy(refused, s, t, c, Holding(w, f, t, c))
  {
    hide Direct, Holding, IsBoxCustomChain, HasTable;
    TablesStay(refused, w, f, s.table, s.op, t);
    if s.table == t && ChainOf(s.op) == c {
      if s.op.EnsureChain? {
        assert Ensured(f, s) == {(t, c)};
      } else {
        assert s.op.EnsureAppend? ==> (t, c) in Touched(f, s);
        StepHere(refused, w, f, t, s.op);
        assert s == Step(f, t, s.op);
      }
    } else {
      StepElsewhere(refused, w, f, s.table, s.op, t, c);
      NotWritten(refused, s, t, c, Holding(w, f, t, c));
    }
  }

  lemma {:induction false} GrownConcat(refused: set<Rule>, a: seq<Step>, b: seq<Step>, t: TableName, c: string, h: Option<seq<Rule>>)
    ensures Grown(refused, a + b, t, c, h) == Grown(refused, b, t, c, Grown(refused, a, t, c, h))
    decreases |a|
  {
    if a == [] {
      assert a + b == b;
    } else {
      assert (a + b)[1..] == a[1..] + b;
      GrownConcat(refused, a[1..], b, t, c, GrownBy(refused, a[0], t, c, h));
    }
  }

  lemma {:induction false} GrownAside(refused: set<Rule>, steps: seq<Step>, f: Family, t: TableName, c: string, h: Option<seq<Rule>>)
    requires Aside(steps, f, t, c)
    ensures Grown(refused, steps, t, c, h) == h
    decreases |steps|
  {
    if steps != [] {
      assert steps[0] in steps && forall s :: s in steps[1..] ==> s in steps;
      GrownAside(refused, steps[1..], f, t, c, h);
    }
  }

  lemma {:induction false} GrownAppends(refused: set<Rule>, f: Family, t: TableName, c: string, rules: seq<Rule>, held: seq<Rule>)
    ensures Grown(refused, Appends(f, t, c, rules), t, c, Some(held)) == Some(held + rules)
    decreases |rules|
  {
    var steps := Appends(f, t, c, rules);
    if rules == [] {
      assert held + rules == held;
    } else {
      assert steps[1..] == Appends(f, t, c, rules[1..]);
      GrownAppends(refused, f, t, c, rules[1..], held + [rules[0]]);
      assert held + [rules[0]] + rules[1..] == held + rules;
    }
  }

  /** In a part between two others that leave the chain alone. */
  lemma GrownBetween(refused: set<Rule>, a: seq<Step>, b: seq<Step>, d: seq<Step>, f: Family, t: TableName, c: string, h: Option<seq<Rule>>)
    requires Aside(a, f, t, c) && Aside(d, f, t, c)
    ensures Grown(refused, a + b + d, t, c, h) == Grown(refused, b, t, c, h)
  {
    GrownConcat(refused, a + b, d, t, c, h);
    GrownConcat(refused, a, b, t, c, h);
    GrownAside(refused, a, f, t, c, h);
    GrownAside(refused, d, f, t, c, Grown(refused, b, t, c, h));
  }

  // ----- the DNS chains, built once and built twice -----

  predicate DnsChain(d: string, f: Family) { d == HijackPre(f) || d == HijackOut(f) || d == ForwardPre(f) }

  /** What one DNS setup puts in front of and behind the rules of a chain. */
  function DnsFront(refused: set<Rule>, x: Context, f: Family, d: string): (s: seq<Rule>)
    ensures NoJumps(s)
  {
    if d == HijackPre(f) then [] else Variant(refused, CoreBypassVariants(x))
  }

  function DnsRules(c: Config, f: Family, d: string): (s: seq<Rule>)
    ensures NoJumps(s)
  {
    if c.dnsMode == DnsRedirect then DnsHijackRules(c, f, d == HijackPre(f)) else DnsForwardRules(c, f)
  }

  lemma NamesOfDns(f: Family, d: string)
    requires DnsChain(d, f)
    ensures IsBoxCustomChain(d) && d != "PREROUTING" && d != "OUTPUT" && d != "FORWARD" && !MainChain(d, f)
    ensures HijackPre(f) != HijackOut(f) && ForwardPre(f) != HijackPre(f)
  {
  }

  lemma InsertMade(refused: set<Rule>, x: Context, f: Family, d: string, held: seq<Rule>)
    ensures var s := One(f, Nat, InsertFirst(d, CoreBypassVariants(x), None));
      && Makes(refused, s, f, Nat, d, Some(held), Some(Variant(refused, CoreBypassVariants(x)) + held))
      && Grown(refused, s, Nat, d, Some(held)) == Some(Variant(refused, CoreBypassVariants(x)) + held)
  {
    var one := Step(f, Nat, InsertFirst(d, CoreBypassVariants(x), None));
    var after := Some(Variant(refused, CoreBypassVariants(x)) + held);
    assert [one][1..] == [] && Written(refused, [one][1..], Nat, d, after) == after && Grown(refused, [one][1..], Nat, d, after) == after;
    assert Builds(one, f, Nat, d);
  }

  lemma HijackPreAsides(x: Context, f: Family)
    ensures Aside(One(f, Nat, EnsureChain(HijackOut(f))), f, Nat, HijackPre(f))
    ensures Aside(One(f, Nat, InsertFirst(HijackOut(f), CoreBypassVariants(x), None)), f, Nat, HijackPre(f))
    ensures Aside(One(f, Nat, EnsureJump("PREROUTING", HijackPre(f))), f, Nat, HijackPre(f))
    ensures Aside(One(f, Nat, EnsureJump("OUTPUT", HijackOut(f))), f, Nat, HijackPre(f))
    ensures HijackPre(f) != HijackOut(f)
  {
    var pre, out := HijackPre(f), HijackOut(f);
    NamesOfDns(f, pre);
    assert pre != out && pre != "PREROUTING" && pre != "OUTPUT";
    hide *;
    OneAside(f, Nat, EnsureChain(out), Nat, pre);
    OneAside(f, Nat, InsertFirst(out, CoreBypassVariants(x), None), Nat, pre);
    OneAside(f, Nat, EnsureJump("PREROUTING", pre), Nat, pre);
    OneAside(f, Nat, EnsureJump("OUTPUT", out), Nat, pre);
  }

  /** The hijack setup, seen from the chain for forwarded packets. */
  lemma HijackPreParts(c: Config, x: Context, f: Family) returns (s1: seq<Step>, s2: seq<Step>, s3: seq<Step>, rest: seq<Step>)
    ensures DnsHijackSetup(c, x, f) == s1 + s2 + s3 + rest
    ensures s1 == One(f, Nat, EnsureChain(HijackPre(f))) && s3 == Appends(f, Nat, HijackPre(f), DnsHijackRules(c, f, true))
    ensures Aside(s2, f, Nat, HijackPre(f)) && Aside(rest, f, Nat, HijackPre(f))
  {
    var pre, out := HijackPre(f), HijackOut(f);
    s1, s2, s3 := One(f, Nat, EnsureChain(pre)), One(f, Nat, EnsureChain(out)), Appends(f, Nat, pre, DnsHijackRules(c, f, true));
    var s4, s5 := One(f, Nat, InsertFirst(out, CoreBypassVariants(x), None)), Appends(f, Nat, out, DnsHijackRules(c, f, false));
    var s6, s7 := One(f, Nat, EnsureJump("PREROUTING", pre)), One(f, Nat, EnsureJump("OUTPUT", out));
    rest := s4 + s5 + s6 + s7;
    hide *;
    HijackParts(c, x, f);
    HijackPreAsides(x, f);
    AppendsAside(f, Nat, out, DnsHijackRules(c, f, false), Nat, pre);
    AsideBoth(s4, s5, f, Nat, pre);
    AsideBoth(s4 + s5, s6, f, Nat, pre);
    AsideBoth(s4 + s5 + s6, s7, f, Nat, pre);
    assert s1 + s2 + s3 + s4 + s5 + s6 + s7 == s1 + s2 + s3 + rest;
  }

  lemma GrownEmpty(refused: set<Rule>, f: Family, t: TableName, c: string, held: seq<Rule>)
    ensures Grown(refused, One(f, t, EnsureChain(c)), t, c, Some(held)) == Some(held)
  {
    assert One(f, t, EnsureChain(c))[1..] == [];
  }

  /** The hijack chain for forwarded packets. */
  lemma HijackPreMade(refused: set<Rule>, c: Config, x: Context, f: Family, h: Option<seq<Rule>>, held: seq<Rule>)
    ensures Makes(refused, DnsHijackSetup(c, x, f), f, Nat, HijackPre(f), h, Some(DnsHijackRules(c, f, true)))
    ensures Grown(refused, DnsHijackSetup(c, x, f), Nat, HijackPre(f), Some(held)) == Some(held + DnsHijackRules(c, f, true))
  {
    hide *;
    var pre, rules := HijackPre(f), DnsHijackRules(c, f, true);
    var s1, s2, s3, rest := HijackPreParts(c, x, f);
    assert [] + rules == rules;
    MadeEmpty(refused, f, Nat, pre, h);
    ThenAside(refused, s1, s2, f, Nat, pre, h, Some([]));
    MadeLonger(refused, f, Nat, pre, rules, []);
    Then(refused, s1 + s2, s3, f, Nat, pre, h, Some([]), Some(rules));
    ThenAside(refused, s1 + s2 + s3, rest, f, Nat, pre, h, Some(rules));
    GrownConcat(refused, s1 + s2 + s3, rest, Nat, pre, Some(held));
    GrownConcat(refused, s1 + s2, s3, Nat, pre, Some(held));
    GrownConcat(refused, s1, s2, Nat, pre, Some(held));
    GrownEmpty(refused, f, Nat, pre, held);
    GrownAside(refused, s2, f, Nat, pre, Some(held));
    GrownAppends(refused, f, Nat, pre, rules, held);
    GrownAside(refused, rest, f, Nat, pre, Some(held + rules));
  }

  lemma HijackOutAsides(f: Family)
    ensures Aside(One(f, Nat, EnsureChain(HijackPre(f))), f, Nat, HijackOut(f))
    ensures Aside(One(f, Nat, EnsureJump("PREROUTING", HijackPre(f))), f, Nat, HijackOut(f))
    ensures Aside(One(f, Nat, EnsureJump("OUTPUT", HijackOut(f))), f, Nat, HijackOut(f))
    ensures HijackPre(f) != HijackOut(f)
  {
    NamesOfDns(f, HijackOut(f));
  }

  /** The hijack setup, seen from the chain for the host's own packets. */
  lemma HijackOutParts(c: Config, x: Context, f: Family)
    returns (s1: seq<Step>, s2: seq<Step>, s3: seq<Step>, s4: seq<Step>, s5: seq<Step>, rest: seq<Step>)
    ensures DnsHijackSetup(c, x, f) == s1 + s2 + s3 + s4 + s5 + rest
    ensures s2 == One(f, Nat, EnsureChain(HijackOut(f))) && s4 == One(f, Nat, InsertFirst(HijackOut(f), CoreBypassVariants(x), None))
    ensures s5 == Appends(f, Nat, HijackOut(f), DnsHijackRules(c, f, false))
    ensures Aside(s1, f, Nat, HijackOut(f)) && Aside(s3, f, Nat, HijackOut(f)) && Aside(rest, f, Nat, HijackOut(f))
  {
    var pre, out := HijackPre(f), HijackOut(f);
    s1, s2, s3 := One(f, Nat, EnsureChain(pre)), One(f, Nat, EnsureChain(out)), Appends(f, Nat, pre, DnsHijackRules(c, f, true));
    s4, s5 := One(f, Nat, InsertFirst(out, CoreBypassVariants(x), None)), Appends(f, Nat, out, DnsHijackRules(c, f, false));
    var s6, s7 := One(f, Nat, EnsureJump("PREROUTING", pre)), One(f, Nat, EnsureJump("OUTPUT", out));
    rest := s6 + s7;
    hide *;
    HijackParts(c, x, f);
    HijackOutAsides(f);
    AppendsAside(f, Nat, pre, DnsHijackRules(c, f, true), Nat, out);
    AsideBoth(s6, s7, f, Nat, out);
    assert s1 + s2 + s3 + s4 + s5 + s6 + s7 == s1 + s2 + s3 + s4 + s5 + rest;
  }

  /** The hijack chain for the host's own packets: the core's bypass goes in front. */
  lemma HijackOutMade(refused: set<Rule>, c: Config, x: Context, f: Family, h: Option<seq<Rule>>, held: seq<Rule>)
    ensures var core, rules := Variant(refused, CoreBypassVariants(x)), DnsHijackRules(c, f, false);
      && Makes(refused, DnsHijackSetup(c, x, f), f, Nat, HijackOut(f), h, Some(core + rules))
      && Grown(refused, DnsHijackSetup(c, x, f), Nat, HijackOut(f), Some(held)) == Some(core + held + rules)
  {
    hide *;
    var out := HijackOut(f);
    var core, rules := Variant(refused, CoreBypassVariants(x)), DnsHijackRules(c, f, false);
    var s1, s2, s3, s4, s5, rest := HijackOutParts(c, x, f);
    assert core + [] == core;
    MadeEmpty(refused, f, Nat, out, h);
    AsideThen(refused, s1, s2, f, Nat, out, h, Some([]));
    ThenAside(refused, s1 + s2, s3, f, Nat, out, h, Some([]));
    InsertMade(refused, x, f, out, []);
    Then(refused, s1 + s2 + s3, s4, f, Nat, out, h, Some([]), Some(core));
    MadeLonger(refused, f, Nat, out, rules, core);
    Then(refused, s1 + s2 + s3 + s4, s5, f, Nat, out, h, Some(core), Some(core + rules));
    ThenAside(refused, s1 + s2 + s3 + s4 + s5, rest, f, Nat, out, h, Some(core + rules));
    GrownConcat(refused, s1 + s2 + s3 + s4 + s5, rest, Nat, out, Some(held));
    GrownConcat(refused, s1 + s2 + s3 + s4, s5, Nat, out, Some(held));
    GrownConcat(refused, s1 + s2 + s3, s4, Nat, out, Some(held));
    GrownBetween(refused, s1, s2, s3, f, Nat, out, Some(held));
    GrownEmpty(refused, f, Nat, out, held);
    InsertMade(refused, x, f, out, held);
    GrownAppends(refused, f, Nat, out, rules, core + held);
    GrownAside(refused, rest, f, Nat, out, Some(core + held + rules));
  }

  lemma ForwardMade(refused: set<Rule>, c: Config, x: Context, f: Family, h: Option<seq<Rule>>, held: seq<Rule>)
    ensures var core, rules := Variant(refused, CoreBypassVariants(x)), DnsForwardRules(c, f);
      && Makes(refused, DnsForwardSetup(c, x, f), f, Nat, ForwardPre(f), h, Some(core + rules))
      && Grown(refused, DnsForwardSetup(c, x, f), Nat, ForwardPre(f), Some(held)) == Some(core + held + rules)
  {
    var pre := ForwardPre(f);
    var core, rules := Variant(refused, CoreBypassVariants(x)), DnsForwardRules(c, f);
    NamesOfDns(f, pre);
    var s1, s2 := One(f, Nat, EnsureChain(pre)), One(f, Nat, InsertFirst(pre, CoreBypassVariants(x), None));
    var s3, s4 := Appends(f, Nat, pre, rules), One(f, Nat, EnsureJump("OUTPUT", pre));
    assert Aside(s4, f, Nat, pre);
    assert Grown(refused, s1, Nat, pre, Some(held)) == Some(held) by { assert s1[1..] == []; }
    hide ForwardPre, DnsForwardRules, CoreBypassVariants, Makes, Aside, Appends, Grown, Variant;
    assert core + [] == core;
    MadeEmpty(refused, f, Nat, pre, h);
    InsertMade(refused, x, f, pre, []);
    Then(refused, s1, s2, f, Nat, pre, h, Some([]), Some(core));
    MadeLonger(refused, f, Nat, pre, rules, core);
    Then(refused, s1 + s2, s3, f, Nat, pre, h, Some(core), Some(core + rules));
    ThenAside(refused, s1 + s2 + s3, s4, f, Nat, pre, h, Some(core + rules));
    GrownConcat(refused, s1 + s2 + s3, s4, Nat, pre, Some(held));
    GrownConcat(refused, s1 + s2, s3, Nat, pre, Some(held));
    GrownConcat(refused, s1, s2, Nat, pre, Some(held));
    InsertMade(refused, x, f, pre, held);
    GrownAppends(refused, f, Nat, pre, rules, core + held);
    GrownAside(refused, s4, f, Nat, pre, Some(core + held + rules));
  }

  /** Whether the DNS setup of this configuration makes a chain. */
  predicate MakesDns(c: Config, k: Capabilities, f: Family, d: string) {
    && (c.dnsMode == DnsRedirect || DnsToMihomo(c)) && (f == V6 ==> k.ip6Nat)
    && (if c.dnsMode == DnsRedirect then d == HijackPre(f) || d == HijackOut(f) else d == ForwardPre(f))
  }

  lemma DnsMade(refused: set<Rule>, c: Config, k: Capabilities, x: Context, f: Family, d: string, h: Option<seq<Rule>>, held: seq<Rule>)
    requires MakesDns(c, k, f, d)
    ensures Makes(refused, DnsNatSetup(c, k, x, f), f, Nat, d, h, Some(DnsFront(refused, x, f, d) + DnsRules(c, f, d)))
    ensures Grown(refused, DnsNatSetup(c, k, x, f), Nat, d, Some(held)) == Some(DnsFront(refused, x, f, d) + held + DnsRules(c, f, d))
  {
    NamesOfDns(f, d);
    hide Makes, Grown, DnsHijackSetup, DnsForwardSetup, DnsHijackRules, DnsForwardRules, Variant, CoreBypassVariants;
    HijackPreMade(refused, c, x, f, h, held);
    HijackOutMade(refused, c, x, f, h, held);
    ForwardMade(refused, c, x, f, h, held);
    if d == HijackPre(f) {
      assert [] + DnsRules(c, f, d) == DnsRules(c, f, d) && [] + held == held;
    }
  }

  lemma MakesDnsExactly(c: Config, k: Capabilities, x: Context, f: Family, d: string)
    ensures (Nat, d) in EnsuredBy(f, DnsNatSetup(c, k, x, f)) <==> MakesDns(c, k, f, d)
    ensures forall p :: p in EnsuredBy(f, DnsNatSetup(c, k, x, f)) ==> p.0 == Nat
  {
    hide DnsHijackSetup, DnsForwardSetup, HijackPre, HijackOut, ForwardPre;
    HijackRegular(f, {}, c, x);
    ForwardRegular(f, {}, c, x);
  }

  // ----- within the halves of enhance mode -----

  function BeforeDns(c: Config, k: Capabilities, x: Context, f: Family): seq<Step> {
    TproxyRouting(f) + (TproxyExternalSetup(c, k, f) + TproxyLocalSetup(c, k, x, f) + DivertSetup(c, k, f) + QuicSetup(c, f)
      + (if c.mode != Enhance then LoopbackRejectSetup(x, f, c.tproxyPort) else []))
  }

  lemma TproxyAroundDns(c: Config, k: Capabilities, x: Context, f: Family)
    requires TproxySupported(k, f)
    ensures StartTproxy(c, k, x, f) == BeforeDns(c, k, x, f) + DnsNatSetup(c, k, x, f) + FakeIpIcmpSetup(c, f)
  {
    hide TproxyRouting, TproxyExternalSetup, TproxyLocalSetup, DivertSetup, QuicSetup, LoopbackRejectSetup, DnsNatSetup, FakeIpIcmpSetup;
    var tables := TproxyExternalSetup(c, k, f) + TproxyLocalSetup(c, k, x, f) + DivertSetup(c, k, f) + QuicSetup(c, f)
      + (if c.mode != Enhance then LoopbackRejectSetup(x, f, c.tproxyPort) else []);
    var dns, icmp := DnsNatSetup(c, k, x, f), FakeIpIcmpSetup(c, f);
    assert TproxyRouting(f) + (tables + dns + icmp) == TproxyRouting(f) + tables + dns + icmp;
  }

  lemma BeforeDnsAside(c: Config, k: Capabilities, x: Context, f: Family, d: string)
    requires DnsChain(d, f)
    ensures Aside(BeforeDns(c, k, x, f), f, Nat, d) && Aside(FakeIpIcmpSetup(c, f), f, Nat, d)
  {
    TproxyExternalNat(c, k, f, d);
    TproxyLocalNat(c, k, x, f, d);
    FilterAside(c, x, f, Nat, d);
    SmallAside(c, k, f, d);
    RoutingAside(f, Nat, d);
    hide TproxyRouting, TproxyExternalSetup, TproxyLocalSetup, DivertSetup, QuicSetup, LoopbackRejectSetup, DnsChain, FakeIpIcmpSetup;
  }

  lemma SmallAside(c: Config, k: Capabilities, f: Family, d: string)
    requires DnsChain(d, f)
    ensures Aside(DivertSetup(c, k, f), f, Nat, d) && Aside(FakeIpIcmpSetup(c, f), f, Nat, d)
  {
    NamesOfDns(f, d);
    hide *;
    DivertAsideNat(c, k, f, d);
    IcmpAsideNat(c, f, d);
  }

  lemma DivertAsideNat(c: Config, k: Capabilities, f: Family, d: string)
    ensures Aside(DivertSetup(c, k, f), f, Nat, d)
  {
    hide PerformanceChain, DivertJump, LegacyDivertJump;
  }

  lemma IcmpAsideNat(c: Config, f: Family, d: string)
    requires d != "PREROUTING" && d != "OUTPUT"
    ensures Aside(FakeIpIcmpSetup(c, f), f, Nat, d)
  {
    hide FakeIpIcmp;
  }

  lemma DnsInTproxy(refused: set<Rule>, c: Config, k: Capabilities, x: Context, f: Family, d: string, h: Option<seq<Rule>>, held: seq<Rule>)
    requires TproxySupported(k, f) && MakesDns(c, k, f, d)
    ensures Makes(refused, StartTproxy(c, k, x, f), f, Nat, d, h, Some(DnsFront(refused, x, f, d) + DnsRules(c, f, d)))
    ensures Grown(refused, StartTproxy(c, k, x, f), Nat, d, Some(held)) == Some(DnsFront(refused, x, f, d) + held + DnsRules(c, f, d))
  {
    BeforeDnsAside(c, k, x, f, d);
    DnsMade(refused, c, k, x, f, d, h, held);
    var a, b, e := BeforeDns(c, k, x, f), DnsNatSetup(c, k, x, f), FakeIpIcmpSetup(c, f);
    TproxyAroundDns(c, k, x, f);
    hide Makes, Grown, Aside, StartTproxy, BeforeDns, DnsNatSetup, FakeIpIcmpSetup, DnsFront, DnsRules, MakesDns;
    AsideThen(refused, a, b, f, Nat, d, h, Some(DnsFront(refused, x, f, d) + DnsRules(c, f, d)));
    ThenAside(refused, a + b, e, f, Nat, d, h, Some(DnsFront(refused, x, f, d) + DnsRules(c, f, d)));
    GrownBetween(refused, a, b, e, f, Nat, d, Some(held));
  }

  lemma RedirectAroundDns(c: Config, k: Capabilities, x: Context, f: Family, d: string)
    requires DnsChain(d, f)
    ensures Aside(One(f, Nat, EnsureChain(EXTERNAL)) + Appends(f, Nat, EXTERNAL, ReplyBypass(c, k)), f, Nat, d)
    ensures Aside(LocalIpSetup(c, k, f, Nat) + Appends(f, Nat, EXTERNAL, ExternalBody(c, k, f, ActRedirect))
                  + One(f, Nat, EnsureJump("PREROUTING", EXTERNAL)), f, Nat, d)
    ensures Aside(RedirectLocalSetup(c, k, x, f), f, Nat, d) && Aside(LoopbackRejectSetup(x, f, c.redirPort), f, Nat, d)
  {
    NamesOfDns(f, d);
    assert d != EXTERNAL && d != LOCAL && d != LocalIpChain(f);
    hide DnsChain, LocalIpChain, LocalIpSetup, ReplyBypass, ExternalBody, RedirectLocalRules, LoopbackRejectSetup, Appends, MainChain;
    AppendsAside(f, Nat, EXTERNAL, ReplyBypass(c, k), Nat, d);
    AppendsAside(f, Nat, EXTERNAL, ExternalBody(c, k, f, ActRedirect), Nat, d);
    LocalIpAside(c, k, f, Nat, Nat, d);
    AsideBoth(LocalIpSetup(c, k, f, Nat), Appends(f, Nat, EXTERNAL, ExternalBody(c, k, f, ActRedirect)), f, Nat, d);
    OneAside(f, Nat, EnsureJump("PREROUTING", EXTERNAL), Nat, d);
    AsideBoth(LocalIpSetup(c, k, f, Nat) + Appends(f, Nat, EXTERNAL, ExternalBody(c, k, f, ActRedirect)),
              One(f, Nat, EnsureJump("PREROUTING", EXTERNAL)), f, Nat, d);
    RedirectLocalLeaves(c, k, x, f, d);
    FilterAside(c, x, f, Nat, d);
  }

  function RedirectBeforeDns(c: Config, k: Capabilities, f: Family): seq<Step> {
    One(f, Nat, EnsureChain(EXTERNAL)) + Appends(f, Nat, EXTERNAL, ReplyBypass(c, k))
  }

  function RedirectAfterDns(c: Config, k: Capabilities, f: Family): seq<Step> {
    LocalIpSetup(c, k, f, Nat) + Appends(f, Nat, EXTERNAL, ExternalBody(c, k, f, ActRedirect))
      + One(f, Nat, EnsureJump("PREROUTING", EXTERNAL))
  }

  lemma SplitRedirect(c: Config, k: Capabilities, x: Context, f: Family)
    requires f == V6 ==> k.ip6Nat
    ensures StartRedirect(c, k, x, f)
         == RedirectBeforeDns(c, k, f) + DnsNatSetup(c, k, x, f)
            + (RedirectAfterDns(c, k, f) + RedirectLocalSetup(c, k, x, f) + LoopbackRejectSetup(x, f, c.redirPort))
  {
    hide DnsNatSetup, LocalIpSetup, Appends, RedirectLocalSetup, LoopbackRejectSetup, ReplyBypass, ExternalBody;
  }

  lemma DnsInRedirect(refused: set<Rule>, c: Config, k: Capabilities, x: Context, f: Family, d: string, h: Option<seq<Rule>>)
    requires MakesDns(c, k, f, d)
    ensures Makes(refused, StartRedirect(c, k, x, f), f, Nat, d, h, Some(DnsFront(refused, x, f, d) + DnsRules(c, f, d)))
  {
    RedirectAroundDns(c, k, x, f, d);
    DnsMade(refused, c, k, x, f, d, h, []);
    SplitRedirect(c, k, x, f);
    var made := Some(DnsFront(refused, x, f, d) + DnsRules(c, f, d));
    var a, b, e := RedirectBeforeDns(c, k, f), DnsNatSetup(c, k, x, f), RedirectAfterDns(c, k, f);
    var local, reject := RedirectLocalSetup(c, k, x, f), LoopbackRejectSetup(x, f, c.redirPort);
    assert Aside(a, f, Nat, d) && Aside(e, f, Nat, d);
    hide *;
    AsideBoth(e, local, f, Nat, d);
    AsideBoth(e + local, reject, f, Nat, d);
    AsideThen(refused, a, b, f, Nat, d, h, made);
    ThenAside(refused, a + b, e + local + reject, f, Nat, d, h, made);
  }

  // ----- the same verdicts -----

  /** These rules stop a packet or pass it on as it is. */
  predicate Stops(rules: seq<Rule>) {
    forall r | r in rules :: r.target == Return || r.target.Redirect?
  }

  lemma {:induction false} StopsMeans(env: Env, x: Chains, y: Chains, d: nat, rules: seq<Rule>, p: Packet)
    requires Stops(rules)
    ensures Traverse(env, x, d, rules, p) == Traverse(env, y, d, rules, p)
    ensures Traverse(env, x, d, rules, p).Fell? ==> Traverse(env, x, d, rules, p) == Fell(p)
    decreases |rules|
  {
    if rules != [] {
      assert rules[0] in rules && forall r :: r in rules[1..] ==> r in rules;
      StopsMeans(env, x, y, d, rules[1..], p);
    }
  }

  /** Repeating such rules at both ends changes nothing. */
  lemma RepeatedRules(env: Env, x: Chains, y: Chains, d: nat, core: seq<Rule>, rules: seq<Rule>, p: Packet)
    requires Stops(core) && Stops(rules)
    ensures Traverse(env, x, d, core + (core + rules) + rules, p) == Traverse(env, y, d, core + rules, p)
  {
    TraverseAppend(env, x, d, core + (core + rules), rules, p);
    TraverseAppend(env, x, d, core, core + rules, p);
    TraverseAppend(env, x, d, core, rules, p);
    TraverseAppend(env, y, d, core, rules, p);
    StopsMeans(env, x, y, d, core, p);
    StopsMeans(env, x, y, d, rules, p);
  }

  lemma DnsRulesStop(refused: set<Rule>, c: Config, x: Context, f: Family, d: string)
    ensures Stops(DnsFront(refused, x, f, d)) && Stops(DnsRules(c, f, d))
  {
  }

  /** Where chains differ only in rules no packet can tell apart, no list of rules can be told apart. */
  ghost predicate SameVerdicts(env: Env, x: Chains, y: Chains) {
    && x.Keys == y.Keys
    && forall c | c in x :: x[c] == y[c] || (Stops(x[c]) && Stops(y[c])
         && forall d: nat, p {:trigger Traverse(env, x, d, x[c], p)} :: Traverse(env, x, d, x[c], p) == Traverse(env, y, d, y[c], p))
  }

  lemma {:induction false} VerdictsAgree(env: Env, x: Chains, y: Chains, d: nat, rules: seq<Rule>, p: Packet)
    requires SameVerdicts(env, x, y)
    ensures Traverse(env, x, d, rules, p) == Traverse(env, y, d, rules, p)
    decreases d, |rules|
  {
    hide SetXmark, Matches, Stops;
    if rules != [] {
      var r, rest := rules[0], rules[1..];
      VerdictsAgree(env, x, y, d, rest, p);
      match r.target
      case SetMark(m) => VerdictsAgree(env, x, y, d, rest, p.(mark := SetXmark(p.mark, m)));
      case SetConnMark(m) => VerdictsAgree(env, x, y, d, rest, p.(connmark := SetXmark(p.connmark, m)));
      case Jump(c) =>
        if d > 0 && c in x {
          VerdictsAgree(env, x, y, d - 1, x[c], p);
          assert Traverse(env, x, d - 1, x[c], p) == Traverse(env, y, d - 1, y[c], p);
          var inner := Traverse(env, x, d - 1, x[c], p);
          if Passes(inner) {
            VerdictsAgree(env, x, y, d, rest, inner.p);
          }
        }
      case _ =>
    }
  }

  // ----- enhance mode -----

  lemma {:induction false} SessionConcat(refused: set<Rule>, w: World, f: Family, used: set<Place>, a: seq<Step>, b: seq<Step>)
    ensures var v := SessionRun(refused, w, f, true, used, a);
      && SessionRun(refused, w, f, true, used, a + b) == SessionRun(refused, v, f, true, used + EnsuredBy(f, a), b)
      && (SessionAcceptable(refused, w, f, true, used, a + b)
          <==> SessionAcceptable(refused, w, f, true, used, a) && SessionAcceptable(refused, v, f, true, used + EnsuredBy(f, a), b))
    decreases |a|
  {
    hide Sessional, Touched;
    if a == [] {
      assert a + b == b && used + EnsuredBy(f, a) == used;
    } else {
      assert (a + b)[1..] == a[1..] + b;
      var e := Ensured(f, a[0]);
      assert used + EnsuredBy(f, a) == (used + e) + EnsuredBy(f, a[1..]);
      SessionConcat(refused, Sessional(refused, w, f, true, used, a[0]).world, f, used + e, a[1..], b);
    }
  }

  lemma {:induction false} DirectConcat(refused: set<Rule>, w: World, a: seq<Step>, b: seq<Step>)
    ensures DirectRun(refused, w, a + b) == DirectRun(refused, DirectRun(refused, w, a), b)
    decreases |a|
  {
    hide Direct;
    if a == [] {
      assert a + b == b;
    } else {
      assert (a + b)[1..] == a[1..] + b;
      DirectConcat(refused, Direct(refused, w, a[0].family, a[0].table, a[0].op).world, a[1..], b);
    }
  }

  /** The first half ensures the DNS chains the second ensures again. */
  lemma DnsEnsuredFirst(c: Config, k: Capabilities, x: Context, f: Family)
    ensures EnsuredBy(f, DnsNatSetup(c, k, x, f)) <= EnsuredBy(f, StartRedirect(c, k, x, f))
  {
    if f == V6 && !k.ip6Nat {
      assert EnsuredBy(f, []) == {};
    } else {
      SplitRedirect(c, k, x, f);
      var a, b := RedirectBeforeDns(c, k, f), DnsNatSetup(c, k, x, f);
      var e := RedirectAfterDns(c, k, f) + RedirectLocalSetup(c, k, x, f) + LoopbackRejectSetup(x, f, c.redirPort);
      hide *;
      EnsuredByConcat(f, a + b, e);
      EnsuredByConcat(f, a, b);
    }
  }

  function Loose(c: Config, k: Capabilities, x: Context, f: Family): set<Place> { EnsuredBy(f, DnsNatSetup(c, k, x, f)) }

  lemma LooseIsDns(c: Config, k: Capabilities, x: Context, f: Family, p: Place)
    requires p in Loose(c, k, x, f)
    ensures p.0 == Nat && MakesDns(c, k, f, p.1) && DnsChain(p.1, f)
  {
    MakesDnsExactly(c, k, x, f, p.1);
  }

  lemma SuitsBoth(a: seq<Step>, b: seq<Step>, f: Family, loose: set<Place>)
    requires RunSuits(a, f, loose) && RunSuits(b, f, loose)
    ensures RunSuits(a + b, f, loose)
  {
    hide StepSuits;
  }

  /** Only DNS chains are loose. */
  ghost predicate LooseDns(f: Family, loose: set<Place>) { forall p :: p in loose ==> p.0 == Nat && DnsChain(p.1, f) }

  /** The steps a DNS setup is made of. */
  lemma DnsPartsSuit(f: Family, loose: set<Place>, d: string, rules: seq<Rule>, core: seq<Rule>)
    requires IsBoxCustomChain(d) && NoJumps(rules) && NoJumps(core)
    ensures RunSuits(One(f, Nat, EnsureChain(d)), f, loose) && RunSuits(Appends(f, Nat, d, rules), f, loose)
    ensures RunSuits(One(f, Nat, InsertFirst(d, core, None)), f, loose)
  {
    hide IsBoxCustomChain;
    assert forall s :: s in Appends(f, Nat, d, rules) ==> s.op.rule in rules;
  }

  lemma JumpsSuit(f: Family, loose: set<Place>, d: string)
    requires LooseDns(f, loose)
    ensures RunSuits(One(f, Nat, EnsureJump("PREROUTING", d)), f, loose) && RunSuits(One(f, Nat, EnsureJump("OUTPUT", d)), f, loose)
  {
    DnsNames(f);
    hide DnsChain;
  }

  lemma DnsNames(f: Family)
    ensures IsBoxCustomChain(HijackPre(f)) && IsBoxCustomChain(HijackOut(f)) && IsBoxCustomChain(ForwardPre(f))
    ensures !DnsChain("PREROUTING", f) && !DnsChain("OUTPUT", f)
  {
  }

  lemma HijackSuits(c: Config, x: Context, f: Family, loose: set<Place>)
    requires LooseDns(f, loose)
    ensures RunSuits(DnsHijackSetup(c, x, f), f, loose)
  {
    var pre, out, core := HijackPre(f), HijackOut(f), CoreBypassVariants(x);
    var a, b, d := One(f, Nat, EnsureChain(pre)), One(f, Nat, EnsureChain(out)), Appends(f, Nat, pre, DnsHijackRules(c, f, true));
    var e, g := One(f, Nat, InsertFirst(out, core, None)), Appends(f, Nat, out, DnsHijackRules(c, f, false));
    var h, i := One(f, Nat, EnsureJump("PREROUTING", pre)), One(f, Nat, EnsureJump("OUTPUT", out));
    hide *;
    HijackParts(c, x, f);
    DnsNames(f);
    DnsPartsSuit(f, loose, pre, DnsHijackRules(c, f, true), core);
    DnsPartsSuit(f, loose, out, DnsHijackRules(c, f, false), core);
    JumpsSuit(f, loose, pre);
    JumpsSuit(f, loose, out);
    SuitsBoth(a, b, f, loose);
    SuitsBoth(a + b, d, f, loose);
    SuitsBoth(a + b + d, e, f, loose);
    SuitsBoth(a + b + d + e, g, f, loose);
    SuitsBoth(a + b + d + e + g, h, f, loose);
    SuitsBoth(a + b + d + e + g + h, i, f, loose);
  }

  lemma ForwardSuits(c: Config, x: Context, f: Family, loose: set<Place>)
    requires LooseDns(f, loose)
    ensures RunSuits(DnsForwardSetup(c, x, f), f, loose)
  {
    var pre, core := ForwardPre(f), CoreBypassVariants(x);
    var a, b := One(f, Nat, EnsureChain(pre)), One(f, Nat, InsertFirst(pre, core, None));
    var d, e := Appends(f, Nat, pre, DnsForwardRules(c, f)), One(f, Nat, EnsureJump("OUTPUT", pre));
    assert DnsForwardSetup(c, x, f) == a + b + d + e by {
      hide ForwardPre, Appends, One, CoreBypassVariants, DnsForwardRules;
    }
    hide *;
    DnsNames(f);
    DnsPartsSuit(f, loose, pre, DnsForwardRules(c, f), core);
    JumpsSuit(f, loose, pre);
    SuitsBoth(a, b, f, loose);
    SuitsBoth(a + b, d, f, loose);
    SuitsBoth(a + b + d, e, f, loose);
  }

  lemma DnsSuits(c: Config, k: Capabilities, x: Context, f: Family, loose: set<Place>)
    requires LooseDns(f, loose)
    ensures RunSuits(DnsNatSetup(c, k, x, f), f, loose)
  {
    hide DnsHijackSetup, DnsForwardSetup, StepSuits;
    HijackSuits(c, x, f, loose);
    ForwardSuits(c, x, f, loose);
  }

  /** What surrounds the DNS setup writes no DNS chain. */
  lemma AroundDnsSuits(c: Config, k: Capabilities, x: Context, f: Family, loose: set<Place>)
    requires LooseDns(f, loose)
    ensures RunSuits(BeforeDns(c, k, x, f), f, loose) && RunSuits(FakeIpIcmpSetup(c, f), f, loose)
  {
    assert DnsChain(HijackPre(f), f);
    hide BeforeDns, FakeIpIcmpSetup, DnsChain, RunSuits;
    BeforeDnsAside(c, k, x, f, HijackPre(f));
    forall p | p in loose ensures Aside(BeforeDns(c, k, x, f), f, p.0, p.1) && Aside(FakeIpIcmpSetup(c, f), f, p.0, p.1) {
      BeforeDnsAside(c, k, x, f, p.1);
    }
    AsideSuits(BeforeDns(c, k, x, f), f, loose);
    AsideSuits(FakeIpIcmpSetup(c, f), f, loose);
  }

  lemma TproxySuits(c: Config, k: Capabilities, x: Context, f: Family, loose: set<Place>)
    requires LooseDns(f, loose)
    ensures RunSuits(StartTproxy(c, k, x, f), f, loose)
  {
    if TproxySupported(k, f) {
      hide *;
      TproxyAroundDns(c, k, x, f);
      AroundDnsSuits(c, k, x, f, loose);
      DnsSuits(c, k, x, f, loose);
      SuitsBoth(BeforeDns(c, k, x, f), DnsNatSetup(c, k, x, f), f, loose);
      SuitsBoth(BeforeDns(c, k, x, f) + DnsNatSetup(c, k, x, f), FakeIpIcmpSetup(c, f), f, loose);
    }
  }

  lemma AsideSuits(a: seq<Step>, f: Family, loose: set<Place>)
    requires forall s :: s in a ==> s.family == f
    requires forall p :: p in loose ==> Aside(a, f, p.0, p.1)
    ensures RunSuits(a, f, loose)
  {
    forall s | s in a ensures StepSuits(s, f, loose) {
      var p := (s.table, ChainOf(s.op));
      assert p in loose ==> Aside(a, f, p.0, p.1);
    }
  }

  /** The DNS chains as one setup leaves them. */
  ghost predicate DnsBuilt(refused: set<Rule>, v: World, c: Config, k: Capabilities, x: Context, f: Family) {
    forall d | (Nat, d) in Loose(c, k, x, f) :: Holding(v, f, Nat, d) == Some(DnsFront(refused, x, f, d) + DnsRules(c, f, d))
  }

  /** After the first half both runs are at the same kernel, with the DNS chains built. */
  lemma FirstHalf(refused: set<Rule>, w: World, c: Config, k: Capabilities, x: Context, f: Family)
    requires HasTable(w, f, Nat) && SessionAcceptable(refused, w, f, true, {}, StartRedirect(c, k, x, f))
    ensures var v := DirectRun(refused, w, StartRedirect(c, k, x, f));
      && SessionRun(refused, w, f, true, {}, StartRedirect(c, k, x, f)) == v && HasTable(v, f, Nat)
      && DnsBuilt(refused, v, c, k, x, f)
  {
    var a := StartRedirect(c, k, x, f);
    var v := DirectRun(refused, w, a);
    StartRedirectRegular(f, {}, c, k, x);
    RegularIsTame(f, {}, a, {});
    hide StartRedirect, DirectRun, SessionRun, Loose, DnsFront, DnsRules, Holding, HasTable, Regular, Orderly, IsBoxCustomChain;
    OrderlyIsDirect(refused, w, f, true, {}, a);
    RunKeepsTables(refused, w, f, a, Nat) by { RedirectFamily(c, k, x, f); }
    forall d | (Nat, d) in Loose(c, k, x, f)
      ensures Holding(v, f, Nat, d) == Some(DnsFront(refused, x, f, d) + DnsRules(c, f, d))
    {
      LooseIsDns(c, k, x, f, (Nat, d));
      NamesOfDns(f, d);
      DnsInRedirect(refused, c, k, x, f, d, Holding(w, f, Nat, d));
      RunWrites(refused, w, f, a, Nat, d);
    }
  }

  lemma RedirectFamily(c: Config, k: Capabilities, x: Context, f: Family)
    ensures forall s :: s in StartRedirect(c, k, x, f) ==> s.family == f
  {
    StartRedirectAside(c, k, x, f, "");
    hide StartRedirect;
  }

  lemma SelfLoose(v: World, f: Family, loose: set<Place>)
    requires f in v && forall p :: p in loose ==> p.0 == Nat
    requires HasTable(v, f, Nat) && forall p :: p in loose ==> Holding(v, f, Nat, p.1).Some? && NoJumps(Holding(v, f, Nat, p.1).value)
    ensures Twins(v, v, f, loose) && AllHeld(v, f, loose)
  {
    forall t | t in v[f] ensures TwinChains(v[f][t], v[f][t], LooseIn(loose, t)) {
      forall c | c in LooseIn(loose, t) && c in v[f][t] ensures NoJumps(v[f][t][c]) {
        assert (t, c) in loose by { LooseMember(loose, t, c); }
      }
    }
  }

  lemma NoJumpsBoth(a: seq<Rule>, b: seq<Rule>)
    requires NoJumps(a) && NoJumps(b)
    ensures NoJumps(a + b)
  {
  }

  /** What the two runs make of a DNS chain that the second half builds again. */
  lemma SecondHalfContents(refused: set<Rule>, v: World, c: Config, k: Capabilities, x: Context, f: Family, d: string)
    requires HasTable(v, f, Nat) && TproxySupported(k, f) && (Nat, d) in Loose(c, k, x, f)
    requires Holding(v, f, Nat, d) == Some(DnsFront(refused, x, f, d) + DnsRules(c, f, d))
    requires var b, used := StartTproxy(c, k, x, f), EnsuredBy(f, StartRedirect(c, k, x, f));
      SessionAcceptable(refused, v, f, true, used, b) && Acceptable(refused, v, f, b)
    ensures var b, used := StartTproxy(c, k, x, f), EnsuredBy(f, StartRedirect(c, k, x, f));
      var core, rules := DnsFront(refused, x, f, d), DnsRules(c, f, d);
      && Holding(SessionRun(refused, v, f, true, used, b), f, Nat, d) == Some(core + (core + rules) + rules)
      && Holding(DirectRun(refused, v, b), f, Nat, d) == Some(core + rules)
  {
    var b, used := StartTproxy(c, k, x, f), EnsuredBy(f, StartRedirect(c, k, x, f));
    var core, rules := DnsFront(refused, x, f, d), DnsRules(c, f, d);
    hide StartRedirect, StartTproxy, DnsFront, DnsRules, Holding, HasTable, IsBoxCustomChain, TproxySupported, MakesDns;
    LooseIsDns(c, k, x, f, (Nat, d));
    NamesOfDns(f, d);
    DnsEnsuredFirst(c, k, x, f);
    DnsInTproxy(refused, c, k, x, f, d, Holding(v, f, Nat, d), core + rules);
    SessionGrows(refused, v, f, used, b, Nat, d);
    RunWrites(refused, v, f, b, Nat, d);
  }

  lemma OnlyDnsAgain(c: Config, k: Capabilities, x: Context, f: Family)
    ensures var a, b := StartRedirect(c, k, x, f), StartTproxy(c, k, x, f);
      Regular(f, Loose(c, k, x, f), b, EnsuredBy(f, a))
  {
    var a, b, loose := StartRedirect(c, k, x, f), StartTproxy(c, k, x, f), Loose(c, k, x, f);
    StartRedirectRegular(f, {}, c, k, x);
    StartTproxyRegular(f, loose, c, k, x);
    TablesDiffer(f);
    hide StartRedirect, StartTproxy, Regular, EnsuredBy, NatExternal, NatLocal, MangleExternal, MangleLocal, MangleDivert, DnsPlaces;
    RegularMore(f, loose, b, {}, EnsuredBy(f, a));
  }

  lemma TablesDiffer(f: Family)
    ensures (NatExternal(f) + NatLocal()) * (MangleExternal(f) + MangleLocal() + MangleDivert()) == {}
  {
  }

  /** The two runs of enhance mode, chain by chain. */
  lemma EnhanceParts(c: Config, k: Capabilities, x: Context, f: Family)
    requires c.mode == Enhance
    ensures ModeSetup(c, k, x, f) == StartRedirect(c, k, x, f) + StartTproxy(c, k, x, f)
  {
    hide StartRedirect, StartTproxy;
  }

  lemma BuiltIsLoose(refused: set<Rule>, v: World, c: Config, k: Capabilities, x: Context, f: Family)
    requires HasTable(v, f, Nat) && DnsBuilt(refused, v, c, k, x, f)
    ensures LooseDns(f, Loose(c, k, x, f)) && Twins(v, v, f, Loose(c, k, x, f)) && AllHeld(v, f, Loose(c, k, x, f))
  {
    var loose := Loose(c, k, x, f);
    hide Holding, HasTable, DnsFront, DnsRules, Twins, AllHeld, Loose, DnsChain;
    forall p | p in loose ensures p.0 == Nat && DnsChain(p.1, f) && Holding(v, f, Nat, p.1).Some? && NoJumps(Holding(v, f, Nat, p.1).value) {
      LooseIsDns(c, k, x, f, p);
      assert p == (Nat, p.1);
      NoJumpsBoth(DnsFront(refused, x, f, p.1), DnsRules(c, f, p.1));
    }
    TableMeansFamily(v, f, Nat);
    SelfLoose(v, f, loose);
  }

  /** The second half on tables the first has left. */
  lemma SecondHalfTwins(refused: set<Rule>, v: World, c: Config, k: Capabilities, x: Context, f: Family)
    requires HasTable(v, f, Nat) && DnsBuilt(refused, v, c, k, x, f)
    requires SessionAcceptable(refused, v, f, true, EnsuredBy(f, StartRedirect(c, k, x, f)), StartTproxy(c, k, x, f))
    ensures var b, used := StartTproxy(c, k, x, f), EnsuredBy(f, StartRedirect(c, k, x, f));
      && Twins(SessionRun(refused, v, f, true, used, b), DirectRun(refused, v, b), f, Loose(c, k, x, f))
      && Acceptable(refused, v, f, b)
  {
    var b, used, loose := StartTproxy(c, k, x, f), EnsuredBy(f, StartRedirect(c, k, x, f)), Loose(c, k, x, f);
    hide *;
    BuiltIsLoose(refused, v, c, k, x, f);
    assert used * loose <= loose;
    FewerHeld(v, f, used * loose, loose);
    TproxySuits(c, k, x, f, loose);
    OnlyDnsAgain(c, k, x, f);
    SessionTwins(refused, v, v, f, loose, used, b);
  }

  lemma EnhanceTwins(refused: set<Rule>, w: World, c: Config, k: Capabilities, x: Context, f: Family)
    requires c.mode == Enhance && HasTable(w, f, Nat)
    requires SessionAcceptable(refused, w, f, true, {}, ModeSetup(c, k, x, f))
    ensures var v := DirectRun(refused, w, StartRedirect(c, k, x, f));
      var b, used := StartTproxy(c, k, x, f), EnsuredBy(f, StartRedirect(c, k, x, f));
      && SessionRun(refused, w, f, true, {}, ModeSetup(c, k, x, f)) == SessionRun(refused, v, f, true, used, b)
      && DirectRun(refused, w, ModeSetup(c, k, x, f)) == DirectRun(refused, v, b)
      && Twins(SessionRun(refused, v, f, true, used, b), DirectRun(refused, v, b), f, Loose(c, k, x, f))
      && SessionAcceptable(refused, v, f, true, used, b) && Acceptable(refused, v, f, b)
      && HasTable(v, f, Nat) && DnsBuilt(refused, v, c, k, x, f)
  {
    var a, b := StartRedirect(c, k, x, f), StartTproxy(c, k, x, f);
    hide *;
    EnhanceParts(c, k, x, f);
    SessionConcat(refused, w, f, {}, a, b);
    DirectConcat(refused, w, a, b);
    FirstHalf(refused, w, c, k, x, f);
    assert {} + EnsuredBy(f, a) == EnsuredBy(f, a);
    SecondHalfTwins(refused, DirectRun(refused, w, a), c, k, x, f);
  }

  lemma TableMeansFamily(v: World, f: Family, t: TableName)
    requires HasTable(v, f, t)
    ensures f in v
  {
  }

  lemma FewerHeld(v: World, f: Family, some: set<Place>, all: set<Place>)
    requires AllHeld(v, f, all) && some <= all
    ensures AllHeld(v, f, some)
  {
  }

  /** The chains of one table that the second half built again cannot be told from those built once. */
  lemma LooseVerdicts(refused: set<Rule>, v: World, c: Config, k: Capabilities, x: Context, f: Family, env: Env, d: string)
    requires HasTable(v, f, Nat) && (Nat, d) in Loose(c, k, x, f)
    requires Holding(v, f, Nat, d) == Some(DnsFront(refused, x, f, d) + DnsRules(c, f, d))
    requires var b, used := StartTproxy(c, k, x, f), EnsuredBy(f, StartRedirect(c, k, x, f));
      SessionAcceptable(refused, v, f, true, used, b) && Acceptable(refused, v, f, b)
    ensures var b, used := StartTproxy(c, k, x, f), EnsuredBy(f, StartRedirect(c, k, x, f));
      var p, q := Holding(SessionRun(refused, v, f, true, used, b), f, Nat, d), Holding(DirectRun(refused, v, b), f, Nat, d);
      && p.Some? && q.Some? && (p.value == q.value || (Stops(p.value) && Stops(q.value) && Indistinct(env, p.value, q.value)))
  {
    hide StartRedirect, StartTproxy, DnsFront, DnsRules, Holding, HasTable, Loose, Stops, Indistinct;
    var core, rules := DnsFront(refused, x, f, d), DnsRules(c, f, d);
    if TproxySupported(k, f) {
      SecondHalfContents(refused, v, c, k, x, f, d);
      DnsRulesStop(refused, c, x, f, d);
      StopsBoth(core, rules);
      StopsBoth(core, core + rules);
      StopsBoth(core + (core + rules), rules);
      IndistinctRepeated(env, core, rules);
    } else {
      NothingStarted(c, k, x, f);
    }
  }

  lemma NothingStarted(c: Config, k: Capabilities, x: Context, f: Family)
    requires !TproxySupported(k, f)
    ensures StartTproxy(c, k, x, f) == []
  {
  }

  lemma StopsBoth(a: seq<Rule>, b: seq<Rule>)
    requires Stops(a) && Stops(b)
    ensures Stops(a + b)
  {
  }

  /** No packet can tell the lists apart, whatever the other chains are. */
  ghost predicate Indistinct(env: Env, a: seq<Rule>, b: seq<Rule>) {
    forall x: Chains, y: Chains, d: nat, p {:trigger Traverse(env, x, d, a, p), Traverse(env, y, d, b, p)} ::
      Traverse(env, x, d, a, p) == Traverse(env, y, d, b, p)
  }

  lemma IndistinctRepeated(env: Env, core: seq<Rule>, rules: seq<Rule>)
    requires Stops(core) && Stops(rules)
    ensures Indistinct(env, core + (core + rules) + rules, core + rules)
  {
    forall x: Chains, y: Chains, d: nat, p
      ensures Traverse(env, x, d, core + (core + rules) + rules, p) == Traverse(env, y, d, core + rules, p)
    {
      RepeatedRules(env, x, y, d, core, rules, p);
    }
  }

  /**
   Enhance mode, buffered: the kernel it leaves holds the same chains as the
   direct run's, and in no chain of no table can a packet tell them apart.
   */
  lemma EnhanceUndetectable(refused: set<Rule>, w: World, c: Config, k: Capabilities, x: Context, f: Family,
                            env: Env, t: TableName, d: nat, rules: seq<Rule>, p: Packet)
    requires c.mode == Enhance && HasTable(w, f, Nat)
    requires SessionAcceptable(refused, w, f, true, {}, ModeSetup(c, k, x, f))
    ensures var a, b := SessionRun(refused, w, f, true, {}, ModeSetup(c, k, x, f)), DirectRun(refused, w, ModeSetup(c, k, x, f));
      && HasTable(a, f, t) == HasTable(b, f, t)
      && (HasTable(a, f, t) ==> SameVerdicts(env, a[f][t], b[f][t]) && Traverse(env, a[f][t], d, rules, p) == Traverse(env, b[f][t], d, rules, p))
  {
    EnhanceTwins(refused, w, c, k, x, f);
    var v, second, used := DirectRun(refused, w, StartRedirect(c, k, x, f)), StartTproxy(c, k, x, f), EnsuredBy(f, StartRedirect(c, k, x, f));
    var a, b, loose := SessionRun(refused, v, f, true, used, second), DirectRun(refused, v, second), Loose(c, k, x, f);
    hide ModeSetup, StartRedirect, StartTproxy, Twins, Loose, DnsFront, DnsRules, Stops, Indistinct, SessionRun, DirectRun;
    hide SessionAcceptable, Acceptable;
    TwinsAt(a, b, f, loose, t);
    if HasTable(a, f, t) {
      var m, n := a[f][t], b[f][t];
      forall ch | ch in m
        ensures m[ch] == n[ch] || (Stops(m[ch]) && Stops(n[ch]) && Indistinct(env, m[ch], n[ch]))
      {
        LooseMember(loose, t, ch);
        if (t, ch) in loose {
          LooseIsDns(c, k, x, f, (t, ch));
          LooseVerdicts(refused, v, c, k, x, f, env, ch);
        }
      }
      SameFromIndistinct(env, m, n);
      VerdictsAgree(env, m, n, d, rules, p);
    }
  }

  lemma SameFromIndistinct(env: Env, m: Chains, n: Chains)
    requires m.Keys == n.Keys
    requires forall ch :: ch in m ==> m[ch] == n[ch] || (Stops(m[ch]) && Stops(n[ch]) && Indistinct(env, m[ch], n[ch]))
    ensures SameVerdicts(env, m, n)
  {
  }

  /** In every other mode the session and the direct run leave the same kernel, and
      differ in what they accept only in that a session takes no refused local-IP rule. */
  lemma OtherModesExact(refused: set<Rule>, w: World, c: Config, k: Capabilities, x: Context, f: Family, buffered: bool)
    requires c.mode != Enhance
    ensures SessionRun(refused, w, f, buffered, {}, ModeSetup(c, k, x, f)) == DirectRun(refused, w, ModeSetup(c, k, x, f))
    ensures SessionAcceptable(refused, w, f, buffered, {}, ModeSetup(c, k, x, f))
         == (Acceptable(refused, w, f, ModeSetup(c, k, x, f)) && (buffered ==> AllSpared(refused, f, ModeSetup(c, k, x, f))))
  {
    SetupRegular(c, k, x, f);
    RegularIsTame(f, {}, ModeSetup(c, k, x, f), {});
    hide ModeSetup;
    OrderlyIsDirect(refused, w, f, buffered, {}, ModeSetup(c, k, x, f));
  }

  /** And they do differ: with DNS hijacking, the buffered chain holds its rules twice. */
  lemma EnhanceHoldsTwice(refused: set<Rule>, w: World, c: Config, k: Capabilities, x: Context, f: Family, d: string)
    requires c.mode == Enhance && HasTable(w, f, Nat) && TproxySupported(k, f) && MakesDns(c, k, f, d)
    requires SessionAcceptable(refused, w, f, true, {}, ModeSetup(c, k, x, f))
    ensures var core, rules := DnsFront(refused, x, f, d), DnsRules(c, f, d);
      && Holding(SessionRun(refused, w, f, true, {}, ModeSetup(c, k, x, f)), f, Nat, d) == Some(core + (core + rules) + rules)
      && Holding(DirectRun(refused, w, ModeSetup(c, k, x, f)), f, Nat, d) == Some(core + rules)
  {
    EnhanceTwins(refused, w, c, k, x, f);
    MakesDnsExactly(c, k, x, f, d);
    hide ModeSetup, StartRedirect, StartTproxy, Twins, DnsFront, DnsRules, Holding, HasTable, MakesDns, SessionRun, DirectRun;
    SecondHalfContents(refused, DirectRun(refused, w, StartRedirect(c, k, x, f)), c, k, x, f, d);
  }
}
