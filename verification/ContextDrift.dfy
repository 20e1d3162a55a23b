/**
 The REJECT rule that shields the core's port on loopback is installed for the
 user and group the core runs as, and deleted for the ones probed again when the
 rules are cleared.  If they have changed in between the rule stays.  When exactly
 it is taken away depends on which of its three forms the kernel took.
 */
module ContextDrift {
  import opened Bytes
  import opened Netfilter
  import opened Batching
  import opened RuleConfig
  import opened RuleScripts
  import opened Teardown

  /** The form a setup ends up with. */
  function Chosen(refused: set<Rule>, rules: seq<Rule>): Option<Rule> {
    if rules == [] then None else if rules[0] !in refused then Some(rules[0]) else Chosen(refused, rules[1..])
  }

  function Extra(r: Option<Rule>): seq<Rule> { match r case None => [] case Some(x) => [x] }

  /** The filter table's OUTPUT chain with these rules. */
  function WithOutput(w: World, f: Family, rules: seq<Rule>): World
    requires f in w && Filter in w[f]
  {
    WithTable(w, f, Filter, w[f][Filter]["OUTPUT" := rules])
  }

  predicate HasOutput(w: World, f: Family) { f in w && Filter in w[f] && "OUTPUT" in w[f][Filter] }

  lemma OutputTwice(w: World, f: Family, a: seq<Rule>, b: seq<Rule>)
    requires HasOutput(w, f)
    ensures HasOutput(WithOutput(w, f, a), f) && WithOutput(w, f, a)[f][Filter]["OUTPUT"] == a
    ensures WithOutput(WithOutput(w, f, a), f, b) == WithOutput(w, f, b)
    ensures WithOutput(w, f, w[f][Filter]["OUTPUT"]) == w
  {
    var t := w[f][Filter];
    assert t["OUTPUT" := a]["OUTPUT" := b] == t["OUTPUT" := b] && t["OUTPUT" := t["OUTPUT"]] == t;
    WithTableTwice(w, f, Filter, t["OUTPUT" := a], t["OUTPUT" := b]);
  }

  /** The first form the kernel takes is appended. */
  lemma {:induction false} FirstFormAppended(refused: set<Rule>, w: World, f: Family, rules: seq<Rule>)
    requires HasOutput(w, f) && NoJumps(rules)
    requires forall r :: r in rules ==> r !in w[f][Filter]["OUTPUT"]
    ensures FirstEnsured(refused, w, f, Filter, "OUTPUT", rules).world
         == WithOutput(w, f, w[f][Filter]["OUTPUT"] + Extra(Chosen(refused, rules)))
    decreases |rules|
  {
    var held := w[f][Filter]["OUTPUT"];
    OutputTwice(w, f, held, held);
    if rules == [] {
      assert held + [] == held;
    } else {
      assert rules[0] in rules && forall r :: r in rules[1..] ==> r in rules;
      if rules[0] in refused {
        FirstFormAppended(refused, w, f, rules[1..]);
      }
    }
  }

  lemma {:induction false} WithoutLast(held: seq<Rule>, r: Rule)
    requires r !in held
    ensures Without(held + [r], r) == held
    decreases |held|
  {
    if held != [] {
      assert (held + [r])[1..] == held[1..] + [r];
      WithoutLast(held[1..], r);
    }
  }

  /** One deletion takes the extra rule or nothing. */
  lemma OneDeleted(refused: set<Rule>, w: World, f: Family, held: seq<Rule>, extra: Option<Rule>, d: Rule)
    requires HasOutput(w, f) && d !in held && (extra.Some? ==> extra.value !in held)
    ensures Silently(refused, WithOutput(w, f, held + Extra(extra)), f, Filter, Delete("OUTPUT", d))
         == WithOutput(w, f, held + Extra(if extra == Some(d) then None else extra))
  {
    var v := WithOutput(w, f, held + Extra(extra));
    OutputTwice(w, f, held + Extra(extra), held);
    SilentTable(refused, v, f, Filter, Delete("OUTPUT", d));
    OutputTwice(v, f, held, held);
    if extra == Some(d) {
      WithoutLast(held, d);
      assert held + [] == held;
    }
  }

  /** The extra rule is gone exactly if it is among those deleted. */
  lemma {:induction false} AllDeleted(refused: set<Rule>, w: World, f: Family, held: seq<Rule>, extra: Option<Rule>, dels: seq<Rule>)
    requires HasOutput(w, f) && (forall d :: d in dels ==> d !in held) && (extra.Some? ==> extra.value !in held)
    ensures DirectRun(refused, WithOutput(w, f, held + Extra(extra)), DelRules(f, Filter, "OUTPUT", dels))
         == WithOutput(w, f, held + Extra(if extra.Some? && extra.value in dels then None else extra))
    decreases |dels|
  {
    if dels != [] {
      var steps := DelRules(f, Filter, "OUTPUT", dels);
      assert dels[0] in dels && steps[1..] == DelRules(f, Filter, "OUTPUT", dels[1..]);
      OneDeleted(refused, w, f, held, extra, dels[0]);
      AllDeleted(refused, w, f, held, if extra == Some(dels[0]) then None else extra, dels[1..]);
      assert forall r :: r in dels <==> r == dels[0] || r in dels[1..];
    }
  }

  /** Which identities the cleanup must find again, given the forms the kernel refuses. */
  predicate FoundAgain(refused: set<Rule>, x: Context, y: Context, f: Family, port: nat) {
    var forms := LoopbackRejects(x, f, port);
    if forms[0] !in refused then (x.boxUid == y.boxUid && x.boxGid == y.boxGid) || (x.boxUid == 0 && x.boxGid == 3005)
    else if forms[1] !in refused then x.boxUid == y.boxUid
    else forms[2] !in refused ==> x.boxGid == y.boxGid
  }

  lemma ChosenForm(refused: set<Rule>, x: Context, f: Family, port: nat)
    ensures var forms := LoopbackRejects(x, f, port);
      Chosen(refused, forms) ==
        if forms[0] !in refused then Some(forms[0]) else if forms[1] !in refused then Some(forms[1])
        else if forms[2] !in refused then Some(forms[2]) else None
  {
    var forms := LoopbackRejects(x, f, port);
    assert forms[1..] == [forms[1], forms[2]] && forms[1..][1..] == [forms[2]] && forms[1..][1..][1..] == [];
    assert Chosen(refused, [forms[2]]) == if forms[2] !in refused then Some(forms[2]) else None;
  }

  lemma FormsDeleted(x: Context, y: Context, f: Family, port: nat)
    ensures var forms, dels := LoopbackRejects(x, f, port), LoopbackRejects(y, f, port) + FixedLoopbackRejects(f, port);
      && (forms[0] in dels <==> (x.boxUid == y.boxUid && x.boxGid == y.boxGid) || (x.boxUid == 0 && x.boxGid == 3005))
      && (forms[1] in dels <==> x.boxUid == y.boxUid)
      && (forms[2] in dels <==> x.boxGid == y.boxGid)
  {
    var a, b := LoopbackRejects(y, f, port), FixedLoopbackRejects(f, port);
    var dels := a + b;
    assert dels[0] == a[0] && dels[1] == a[1] && dels[2] == a[2] && dels[3] == b[0] && dels[4] == b[1] && |dels| == 5;
    assert forall r :: r in dels <==> r == dels[0] || r == dels[1] || r == dels[2] || r == dels[3] || r == dels[4];
  }

  lemma ChosenFound(refused: set<Rule>, x: Context, y: Context, f: Family, port: nat)
    ensures var chosen := Chosen(refused, LoopbackRejects(x, f, port));
      && (chosen.Some? ==> chosen.value in LoopbackRejects(x, f, port))
      && (FoundAgain(refused, x, y, f, port)
          <==> (chosen.Some? ==> chosen.value in LoopbackRejects(y, f, port) + FixedLoopbackRejects(f, port)))
  {
    ChosenForm(refused, x, f, port);
    FormsDeleted(x, y, f, port);
    hide FixedLoopbackRejects, Chosen;
  }

  lemma SetupAppends(refused: set<Rule>, w: World, x: Context, f: Family, port: nat)
    requires HasOutput(w, f) && forall r | r in w[f][Filter]["OUTPUT"] :: r !in LoopbackRejects(x, f, port)
    ensures DirectRun(refused, w, LoopbackRejectSetup(x, f, port))
         == WithOutput(w, f, w[f][Filter]["OUTPUT"] + Extra(Chosen(refused, LoopbackRejects(x, f, port))))
  {
    assert NoJumps(LoopbackRejects(x, f, port)) && LoopbackRejectSetup(x, f, port)[1..] == [];
    hide LoopbackRejects, FirstEnsured, Chosen;
    FirstFormAppended(refused, w, f, LoopbackRejects(x, f, port));
  }

  /** A setup for one identity followed by a cleanup for another restores the tables
      exactly if the cleanup finds the identity again that the installed form names. */
  lemma RejectRestoredExactly(refused: set<Rule>, w: World, x: Context, y: Context, f: Family, port: nat)
    requires HasOutput(w, f)
    requires forall r | r in w[f][Filter]["OUTPUT"] ::
      r !in LoopbackRejects(x, f, port) && r !in LoopbackRejects(y, f, port) + FixedLoopbackRejects(f, port)
    ensures DirectRun(refused, DirectRun(refused, w, LoopbackRejectSetup(x, f, port)), LoopbackRejectCleanup(y, f, port)) == w
      <==> FoundAgain(refused, x, y, f, port)
  {
    var held, forms := w[f][Filter]["OUTPUT"], LoopbackRejects(x, f, port);
    var dels, chosen := LoopbackRejects(y, f, port) + FixedLoopbackRejects(f, port), Chosen(refused, forms);
    ChosenFound(refused, x, y, f, port);
    SetupAppends(refused, w, x, f, port);
    hide LoopbackRejects, FixedLoopbackRejects, FoundAgain, Chosen, DirectRun, LoopbackRejectSetup;
    AllDeleted(refused, w, f, held, chosen, dels);
    var left := held + Extra(if chosen.Some? && chosen.value in dels then None else chosen);
    OutputTwice(w, f, left, held);
    assert held + [] == held;
    if chosen.Some? && chosen.value !in dels {
      assert |left| == |held| + 1;
    }
  }

  /** Whoever the core runs as. */
  function RunsAs(uid: nat, gid: nat): Context { Context(uid, gid, [], [], [], false, false) }

  /** Tables with an empty OUTPUT chain for IPv4 and nothing else. */
  function OnlyOutput(): World { map[V4 := map[Filter := map["OUTPUT" := []]]] }

  lemma RootFormsApart(port: nat)
    ensures var form := LoopbackRejects(RunsAs(0, 0), V4, port)[0];
      form !in LoopbackRejects(RunsAs(1000, 1000), V4, port) + FixedLoopbackRejects(V4, port)
  {
    FormsDeleted(RunsAs(0, 0), RunsAs(1000, 1000), V4, port);
    hide LoopbackRejects, FixedLoopbackRejects;
  }

  /** Set up for a core run by root, cleaned up for user and group 1000: the rule is still there. */
  lemma RootRejectStays(port: nat)
    ensures var w, form := OnlyOutput(), LoopbackRejects(RunsAs(0, 0), V4, port)[0];
      var v := DirectRun({}, DirectRun({}, w, LoopbackRejectSetup(RunsAs(0, 0), V4, port)),
                         LoopbackRejectCleanup(RunsAs(1000, 1000), V4, port));
      HasOutput(v, V4) && v[V4][Filter]["OUTPUT"] == [form] && v != w
  {
    var w, x, y := OnlyOutput(), RunsAs(0, 0), RunsAs(1000, 1000);
    var form, dels := LoopbackRejects(x, V4, port)[0], LoopbackRejects(y, V4, port) + FixedLoopbackRejects(V4, port);
    assert HasOutput(w, V4) && w[V4][Filter]["OUTPUT"] == [];
    ChosenForm({}, x, V4, port);
    RootFormsApart(port);
    SetupAppends({}, w, x, V4, port);
    hide LoopbackRejects, FixedLoopbackRejects, Chosen, DirectRun, LoopbackRejectSetup, RunsAs, OnlyOutput, HasOutput, WithOutput;
    AllDeleted({}, w, V4, [], Some(form), dels);
    OutputTwice(w, V4, [form], []);
    assert [] + Extra(Some(form)) == [form];
  }
}
