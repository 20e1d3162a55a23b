/**
 What a script leaves in a chain.  `Written` follows one chain through a script
 on its own; it is proved to agree with running the whole script on the kernel,
 whatever else the script does, when the kernel accepts the chain's own commands.
 */
module ChainContents {
  import opened Bytes
  import opened Netfilter
  import opened Batching
  import opened RuleConfig
  import opened RuleScripts

  function Holding(w: World, f: Family, t: TableName, c: string): Option<seq<Rule>> {
    if f in w && t in w[f] && c in w[f][t] then Some(w[f][t][c]) else None
  }

  /** The first variant the kernel takes, as a list of at most one rule. */
  function Variant(refused: set<Rule>, rules: seq<Rule>): (s: seq<Rule>)
    ensures |s| <= 1 && forall r :: r in s ==> r in rules && r !in refused
    ensures s == [] ==> forall r :: r in rules ==> r in refused
  {
    if rules == [] then [] else if rules[0] !in refused then [rules[0]] else Variant(refused, rules[1..])
  }

  /** A fallback is inserted only where no variant was taken and it is not there yet. */
  function Fronted(refused: set<Rule>, rules: seq<Rule>, fallback: Option<Rule>, held: seq<Rule>): seq<Rule> {
    var v := Variant(refused, rules);
    if v != [] || fallback == None || fallback.value in held || fallback.value in refused then v + held
    else [fallback.value] + held
  }

  function WrittenBy(refused: set<Rule>, s: Step, t: TableName, c: string, h: Option<seq<Rule>>): Option<seq<Rule>> {
    if s.table != t || ChainOf(s.op) != c then h else
      match s.op
      case EnsureChain(_) => Some([])
      case EnsureAppend(_, r) => if h.Some? then Some(h.value + [r]) else h
      case AppendFirst(_, rules) => if h.Some? then Some(h.value + Variant(refused, rules)) else h
      case InsertFirst(_, rules, fallback) => if h.Some? then Some(Fronted(refused, rules, fallback, h.value)) else h
      case Rebuild(_, nets, _) => Some(Kept(refused, AcceptPairs(nets)))
      case _ => h
  }

  function Written(refused: set<Rule>, steps: seq<Step>, t: TableName, c: string, h: Option<seq<Rule>>): Option<seq<Rule>>
    decreases |steps|
  {
    if steps == [] then h else Written(refused, steps[1..], t, c, WrittenBy(refused, steps[0], t, c, h))
  }

  /** The steps that write a box chain are of the five kinds that build one, and
      their variants jump nowhere. */
  predicate Builds(s: Step, f: Family, t: TableName, c: string) {
    s.family == f &&
    (s.table == t && ChainOf(s.op) == c ==>
      match s.op
      case EnsureChain(_) => true
      case EnsureAppend(_, _) => true
      case AppendFirst(_, rules) => NoJumps(rules)
      case InsertFirst(_, rules, fallback) => NoJumps(rules) && (fallback.Some? ==> !fallback.value.target.Jump?)
      case Rebuild(_, _, _) => IsLocalIp(c)
      case _ => false)
  }

  predicate BuildsAll(steps: seq<Step>, f: Family, t: TableName, c: string) {
    forall s | s in steps :: Builds(s, f, t, c)
  }

  // ----- agreement with the kernel -----

  lemma SilentElsewhere(refused: set<Rule>, w: World, f: Family, t: TableName, cmd: IptCmd, u: TableName, c: string)
    requires u != t || c != cmd.chain
    ensures Holding(Silently(refused, w, f, t, cmd), f, u, c) == Holding(w, f, u, c)
    ensures Holding(Required(refused, w, f, t, cmd).world, f, u, c) == Holding(w, f, u, c)
  {
  }

  lemma {:induction false} FirstTakenElsewhere(refused: set<Rule>, w: World, f: Family, t: TableName, d: string,
                                               rules: seq<Rule>, front: bool, u: TableName, c: string)
    requires u != t || c != d
    ensures Holding(FirstTaken(refused, w, f, t, d, rules, front).world, f, u, c) == Holding(w, f, u, c)
    decreases |rules|
  {
    hide Holding, Required, Silently;
    if rules != [] {
      var cmd := if front then Insert(d, rules[0]) else Append(d, rules[0]);
      SilentElsewhere(refused, w, f, t, cmd, u, c);
      var e := Required(refused, w, f, t, cmd);
      if !e.ok {
        FirstTakenElsewhere(refused, w, f, t, d, rules[1..], front, u, c);
      }
    }
  }

  lemma {:induction false} FirstEnsuredElsewhere(refused: set<Rule>, w: World, f: Family, t: TableName, d: string,
                                                 rules: seq<Rule>, u: TableName, c: string)
    requires u != t || c != d
    ensures Holding(FirstEnsured(refused, w, f, t, d, rules).world, f, u, c) == Holding(w, f, u, c)
    decreases |rules|
  {
    hide Holding, Required, Silently, Checked;
    if rules != [] {
      SilentElsewhere(refused, w, f, t, Append(d, rules[0]), u, c);
      var e := SharedAppend(refused, w, f, t, d, rules[0]);
      if !e.ok {
        FirstEnsuredElsewhere(refused, w, f, t, d, rules[1..], u, c);
      }
    }
  }

  lemma RebuildElsewhere(w: World, f: Family, t: TableName, d: string, rules: seq<Rule>, u: TableName, c: string)
    requires u != t || c != d
    ensures t in TablesOf(w, f) ==> Holding(WithTable(w, f, t, w[f][t][d := rules]), f, u, c) == Holding(w, f, u, c)
  {
  }

  /** No operation writes a chain it does not name. */
  lemma StepElsewhere(refused: set<Rule>, w: World, f: Family, t: TableName, op: Op, u: TableName, c: string)
    requires u != t || c != ChainOf(op)
    ensures Holding(Direct(refused, w, f, t, op).world, f, u, c) == Holding(w, f, u, c)
  {
    hide Required, Silently, Checked, FirstTaken, FirstEnsured, Kept, AcceptPairs, IsBoxCustomChain, IsLocalIp, Holding, WithTable;
    var d := ChainOf(op);
    match op
    case Rebuild(_, nets, _) => RebuildElsewhere(w, f, t, d, Kept(refused, AcceptPairs(nets)), u, c);
    case EnsureChain(_) =>
      SilentElsewhere(refused, w, f, t, NewChain(d), u, c);
      SilentElsewhere(refused, Silently(refused, w, f, t, NewChain(d)), f, t, Flush(d), u, c);
    case EnsureAppend(_, r) => SilentElsewhere(refused, w, f, t, Append(d, r), u, c);
    case EnsureInsert(_, r) => SilentElsewhere(refused, w, f, t, Insert(d, r), u, c);
    case EnsureJump(_, target) => SilentElsewhere(refused, w, f, t, Insert(d, Rule(Jump(target))), u, c);
    case DelRule(_, r) => SilentElsewhere(refused, w, f, t, Delete(d, r), u, c);
    case CleanupChain(_) =>
      SilentElsewhere(refused, w, f, t, Flush(d), u, c);
      SilentElsewhere(refused, Silently(refused, w, f, t, Flush(d)), f, t, DeleteChain(d), u, c);
    case InsertFirst(_, rules, fallback) =>
      FirstTakenElsewhere(refused, w, f, t, d, rules, true, u, c);
      if fallback.Some? {
        SilentElsewhere(refused, FirstTaken(refused, w, f, t, d, rules, true).world, f, t, Insert(d, fallback.value), u, c);
        SilentElsewhere(refused, w, f, t, Insert(d, fallback.value), u, c);
      }
    case AppendFirst(_, rules) => FirstTakenElsewhere(refused, w, f, t, d, rules, false, u, c);
    case EnsureFirst(_, rules) => FirstEnsuredElsewhere(refused, w, f, t, d, rules, u, c);
    case _ =>
  }

  lemma {:induction false} FirstTakenHere(refused: set<Rule>, w: World, f: Family, t: TableName, c: string,
                                          rules: seq<Rule>, front: bool)
    requires NoJumps(rules)
    ensures var e := FirstTaken(refused, w, f, t, c, rules, front);
      var h := Holding(w, f, t, c);
      var v := Variant(refused, rules);
      && Holding(e.world, f, t, c) == (if h.Some? then Some(if front then v + h.value else h.value + v) else None)
      && e.ok == (h.Some? && v != [])
      && (!e.ok ==> e.world == w)
    decreases |rules|
  {
    if rules != [] {
      assert rules[0] in rules && !rules[0].target.Jump?;
      FirstTakenHere(refused, w, f, t, c, rules[1..], front);
    } else if Holding(w, f, t, c).Some? {
      var held := Holding(w, f, t, c).value;
      assert [] + held == held && held + [] == held;
    }
  }

  lemma StepHere(refused: set<Rule>, w: World, f: Family, t: TableName, op: Op)
    requires HasTable(w, f, t) && IsBoxCustomChain(ChainOf(op)) && Builds(Step(f, t, op), f, t, ChainOf(op))
    requires op.EnsureAppend? ==> Direct(refused, w, f, t, op).ok
    ensures Holding(Direct(refused, w, f, t, op).world, f, t, ChainOf(op))
         == WrittenBy(refused, Step(f, t, op), t, ChainOf(op), Holding(w, f, t, ChainOf(op)))
  {
    hide IsBoxCustomChain, FirstTaken, Variant, Kept, AcceptPairs, IsLocalIp;
    var c := ChainOf(op);
    match op
    case EnsureChain(_) => DirectEnsureChain(refused, w, f, t, c);
    case EnsureAppend(_, r) =>
    case AppendFirst(_, rules) => FirstTakenHere(refused, w, f, t, c, rules, false);
    case InsertFirst(_, rules, fallback) => FirstTakenHere(refused, w, f, t, c, rules, true);
    case _ =>
  }

  predicate HasTable(w: World, f: Family, u: TableName) { f in w && u in w[f] }

  lemma CommandTables(refused: set<Rule>, w: World, f: Family, t: TableName, cmd: IptCmd, u: TableName)
    requires HasTable(w, f, u)
    ensures HasTable(Silently(refused, w, f, t, cmd), f, u) && HasTable(Required(refused, w, f, t, cmd).world, f, u)
  {
    hide Ipt;
  }

  lemma {:induction false} FirstTakenTables(refused: set<Rule>, w: World, f: Family, t: TableName, c: string,
                                            rules: seq<Rule>, front: bool, u: TableName)
    requires HasTable(w, f, u)
    ensures HasTable(FirstTaken(refused, w, f, t, c, rules, front).world, f, u)
    decreases |rules|
  {
    hide Required, HasTable;
    if rules != [] {
      CommandTables(refused, w, f, t, if front then Insert(c, rules[0]) else Append(c, rules[0]), u);
      FirstTakenTables(refused, w, f, t, c, rules[1..], front, u);
    }
  }

  lemma {:induction false} FirstEnsuredTables(refused: set<Rule>, w: World, f: Family, t: TableName, c: string,
                                              rules: seq<Rule>, u: TableName)
    requires HasTable(w, f, u)
    ensures HasTable(FirstEnsured(refused, w, f, t, c, rules).world, f, u)
    decreases |rules|
  {
    hide Required, HasTable, Checked;
    if rules != [] {
      CommandTables(refused, w, f, t, Append(c, rules[0]), u);
      FirstEnsuredTables(refused, w, f, t, c, rules[1..], u);
    }
  }

  lemma TablesStay(refused: set<Rule>, w: World, f: Family, t: TableName, op: Op, u: TableName)
    requires HasTable(w, f, u)
    ensures HasTable(Direct(refused, w, f, t, op).world, f, u)
  {
    hide Required, Silently, Checked, FirstTaken, FirstEnsured, IsBoxCustomChain, Kept, AcceptPairs, IsLocalIp;
    var c := ChainOf(op);
    match op
    case EnsureChain(_) =>
      CommandTables(refused, w, f, t, NewChain(c), u);
      CommandTables(refused, Silently(refused, w, f, t, NewChain(c)), f, t, Flush(c), u);
    case EnsureAppend(_, r) => CommandTables(refused, w, f, t, Append(c, r), u);
    case EnsureInsert(_, r) => CommandTables(refused, w, f, t, Insert(c, r), u);
    case EnsureJump(_, target) => CommandTables(refused, w, f, t, Insert(c, Rule(Jump(target))), u);
    case DelRule(_, r) => CommandTables(refused, w, f, t, Delete(c, r), u);
    case CleanupChain(_) =>
      CommandTables(refused, w, f, t, Flush(c), u);
      CommandTables(refused, Silently(refused, w, f, t, Flush(c)), f, t, DeleteChain(c), u);
    case InsertFirst(_, rules, fallback) =>
      FirstTakenTables(refused, w, f, t, c, rules, true, u);
      if fallback.Some? {
        CommandTables(refused, FirstTaken(refused, w, f, t, c, rules, true).world, f, t, Insert(c, fallback.value), u);
        CommandTables(refused, w, f, t, Insert(c, fallback.value), u);
      }
    case AppendFirst(_, rules) => FirstTakenTables(refused, w, f, t, c, rules, false, u);
    case EnsureFirst(_, rules) => FirstEnsuredTables(refused, w, f, t, c, rules, u);
    case _ =>
  }

  predicate HasChain(w: World, f: Family, t: TableName, c: string) { f in w && t in w[f] && c in w[f][t] }

  /** Only a cleanup of the chain itself takes a chain away. */
  lemma ChainKept(refused: set<Rule>, w: World, f: Family, s: Step, t: TableName, c: string)
    requires HasChain(w, f, t, c) && s.family == f && !(s.op.CleanupChain? && s.table == t && s.op.chain == c)
    ensures HasChain(Direct(refused, w, f, s.table, s.op).world, f, t, c)
  {
    hide IsBoxCustomChain, Kept, AcceptPairs, IsLocalIp;
    match s.op
    case InsertFirst(_, rules, fallback) => FirstTakenKeeps(refused, w, f, s.table, s.op.chain, rules, true, t, c);
    case AppendFirst(_, rules) => FirstTakenKeeps(refused, w, f, s.table, s.op.chain, rules, false, t, c);
    case EnsureFirst(_, rules) => FirstEnsuredKeeps(refused, w, f, s.table, s.op.chain, rules, t, c);
    case _ =>
  }

  lemma {:induction false} FirstTakenKeeps(refused: set<Rule>, w: World, f: Family, u: TableName, d: string, rules: seq<Rule>,
                                           front: bool, t: TableName, c: string)
    requires HasChain(w, f, t, c)
    ensures HasChain(FirstTaken(refused, w, f, u, d, rules, front).world, f, t, c)
    decreases |rules|
  {
    if rules != [] {
      FirstTakenKeeps(refused, w, f, u, d, rules[1..], front, t, c);
    }
  }

  lemma {:induction false} FirstEnsuredKeeps(refused: set<Rule>, w: World, f: Family, u: TableName, d: string, rules: seq<Rule>,
                                             t: TableName, c: string)
    requires HasChain(w, f, t, c)
    ensures HasChain(FirstEnsured(refused, w, f, u, d, rules).world, f, t, c)
    decreases |rules|
  {
    if rules != [] {
      FirstEnsuredKeeps(refused, w, f, u, d, rules[1..], t, c);
    }
  }

  lemma {:induction false} RunKeepsTables(refused: set<Rule>, w: World, f: Family, steps: seq<Step>, t: TableName)
    requires HasTable(w, f, t) && forall s :: s in steps ==> s.family == f
    ensures HasTable(DirectRun(refused, w, steps), f, t)
    decreases |steps|
  {
    hide Direct, HasTable;
    if steps != [] {
      var s := steps[0];
      TablesStay(refused, w, f, s.table, s.op, t);
      RunKeepsTables(refused, Direct(refused, w, s.family, s.table, s.op).world, f, steps[1..], t);
    }
  }

  /** Running an accepted script leaves in a chain what following the chain alone gives. */
  lemma {:induction false} RunWrites(refused: set<Rule>, w: World, f: Family, steps: seq<Step>, t: TableName, c: string)
    requires HasTable(w, f, t) && IsBoxCustomChain(c)
    requires Acceptable(refused, w, f, steps) && BuildsAll(steps, f, t, c)
    ensures Holding(DirectRun(refused, w, steps), f, t, c) == Written(refused, steps, t, c, Holding(w, f, t, c))
    decreases |steps|
  {
    hide Direct, WrittenBy, Holding, IsBoxCustomChain;
    if steps != [] {
      var s := steps[0];
      assert s in steps && Builds(s, f, t, c);
      var next := Direct(refused, w, f, s.table, s.op).world;
      TablesStay(refused, w, f, s.table, s.op, t);
      if s.table == t && ChainOf(s.op) == c {
        assert s.op.EnsureAppend? ==> (t, c) in Touched(f, s);
        StepHere(refused, w, f, t, s.op);
        assert s == Step(f, t, s.op);
      } else {
        StepElsewhere(refused, w, f, s.table, s.op, t, c);
        NotWritten(refused, s, t, c, Holding(w, f, t, c));
      }
      assert forall x :: x in steps[1..] ==> x in steps;
      RunWrites(refused, next, f, steps[1..], t, c);
    }
  }

  lemma NotWritten(refused: set<Rule>, s: Step, t: TableName, c: string, h: Option<seq<Rule>>)
    requires s.table != t || ChainOf(s.op) != c
    ensures WrittenBy(refused, s, t, c, h) == h
  {
  }

  // ----- following a chain through the parts of a script -----

  lemma {:induction false} WrittenConcat(refused: set<Rule>, a: seq<Step>, b: seq<Step>, t: TableName, c: string, h: Option<seq<Rule>>)
    ensures Written(refused, a + b, t, c, h) == Written(refused, b, t, c, Written(refused, a, t, c, h))
    decreases |a|
  {
    if a == [] {
      assert a + b == b;
    } else {
      assert (a + b)[1..] == a[1..] + b;
      WrittenConcat(refused, a[1..], b, t, c, WrittenBy(refused, a[0], t, c, h));
    }
  }

  predicate Untouched(steps: seq<Step>, t: TableName, c: string) {
    forall s | s in steps :: s.table != t || ChainOf(s.op) != c
  }

  lemma {:induction false} WrittenElsewhere(refused: set<Rule>, steps: seq<Step>, t: TableName, c: string, h: Option<seq<Rule>>)
    requires Untouched(steps, t, c)
    ensures Written(refused, steps, t, c, h) == h
    decreases |steps|
  {
    if steps != [] {
      assert steps[0] in steps;
      assert forall s :: s in steps[1..] ==> s in steps;
      WrittenElsewhere(refused, steps[1..], t, c, h);
    }
  }

  lemma {:induction false} WrittenAppends(refused: set<Rule>, f: Family, t: TableName, c: string, rules: seq<Rule>, held: seq<Rule>)
    ensures Written(refused, Appends(f, t, c, rules), t, c, Some(held)) == Some(held + rules)
    decreases |rules|
  {
    var steps := Appends(f, t, c, rules);
    if rules == [] {
      assert held + rules == held;
    } else {
      assert steps[1..] == Appends(f, t, c, rules[1..]);
      WrittenAppends(refused, f, t, c, rules[1..], held + [rules[0]]);
      assert held + [rules[0]] + rules[1..] == held + rules;
    }
  }
}
