/**
 The write buffer in front of iptables.  Within a session, creating box chains
 and appending to them is only recorded, per table; a flush hands each table's
 record to iptables-restore as one atomic change or, if that fails, replays it
 command by command.  Everything else flushes first.

 What the manager does is given for every state and whatever the kernel refuses
 (`PerformOf`, `FlushOf`).  The meaning of a state is its tables with the pending
 record laid over them: as long as the kernel takes what is recorded, every
 operation changes that meaning as the unbuffered operation changes the tables,
 however restore behaves, except that a session drops a second ensure of one
 chain.  What it refuses shows only at the flush.
 */
module Batching {
  import opened Bytes
  import opened Netfilter

  /** Both families' tables. */
  type World = map<Family, Tables>

  predicate IsBoxCustomChain(chain: string) {
    || "BOX_" <= chain
    || "AP_" <= chain
    || chain in {"DIVERT", "LOCAL_IP_V4", "LOCAL_IP_V6",
         "NAT_DNS_HIJACK", "NAT_DNS_HIJACK6", "NAT_DNS_HIJACK_OUT", "NAT_DNS_HIJACK6_OUT",
         "NAT_DNS_FORWARD", "NAT_DNS_FORWARD6", "NAT_DNS_FORWARD_OUT", "NAT_DNS_FORWARD6_OUT",
         "MIHOMO_DNS_EXTERNAL", "MIHOMO_DNS_LOCAL"}
  }

  /** The chains of the host's own networks. */
  predicate IsLocalIp(chain: string) { chain in {"LOCAL_IP_V4", "LOCAL_IP_V6"} }

  // ----- the rules of the host's own networks -----

  /** These rules leave their chain for good or not at all; none enters another chain. */
  predicate NoJumps(rules: seq<Rule>) { forall r | r in rules :: !r.target.Jump? }

  /** Accept all but DNS over UDP, then all that is not UDP. */
  function AcceptPair(base: Rule): (s: seq<Rule>)
    ensures NoJumps(s)
  {
    [base.(target := Accept, proto := Is(Udp), dport := NotPort(53)), base.(target := Accept, proto := IsNot(Udp))]
  }

  function AcceptPairs(nets: seq<Net>): (s: seq<Rule>)
    ensures NoJumps(s)
  {
    if nets == [] then [] else AcceptPair(Rule(Accept, dst := Some(nets[0]))) + AcceptPairs(nets[1..])
  }

  /** The rules the kernel takes. */
  function Kept(refused: set<Rule>, rules: seq<Rule>): (s: seq<Rule>)
    ensures forall r :: r in s ==> r in rules && r !in refused
  {
    if rules == [] then [] else (if rules[0] in refused then [] else [rules[0]]) + Kept(refused, rules[1..])
  }

  lemma {:induction false} AllKept(refused: set<Rule>, rules: seq<Rule>)
    requires forall r :: r in rules ==> r !in refused
    ensures Kept(refused, rules) == rules
    decreases |rules|
  {
    if rules != [] {
      assert rules[0] in rules && forall r :: r in rules[1..] ==> r in rules;
      AllKept(refused, rules[1..]);
    }
  }

  // ----- the unbuffered operations -----

  /** The world with one table of one family replaced. */
  function WithTable(w: World, f: Family, t: TableName, chains: Chains): World
    requires f in w
  {
    w[f := w[f][t := chains]]
  }

  lemma WithTableTwice(w: World, f: Family, t: TableName, a: Chains, b: Chains)
    requires f in w
    ensures WithTable(WithTable(w, f, t, a), f, t, b) == WithTable(w, f, t, b)
    ensures t in w[f] ==> WithTable(w, f, t, w[f][t]) == w
  {
    assert w[f][t := a][t := b] == w[f][t := b];
    if t in w[f] {
      assert w[f][t := w[f][t]] == w[f] && w[f := w[f]] == w;
    }
  }

  function TablesOf(w: World, f: Family): Tables { if f in w then w[f] else map[] }

  function DirectIpt(refused: set<Rule>, w: World, f: Family, t: TableName, cmd: IptCmd): Option<World> {
    if f !in w || t !in w[f] then None else
      match Ipt(refused, w[f][t], cmd)
      case None => None
      case Some(chains) => Some(WithTable(w, f, t, chains))
  }

  /** A command whose failure is ignored. */
  function Silently(refused: set<Rule>, w: World, f: Family, t: TableName, cmd: IptCmd): World {
    match DirectIpt(refused, w, f, t, cmd)
    case None => w
    case Some(v) => v
  }

  function Checked(w: World, f: Family, t: TableName, chain: string, r: Rule): bool {
    f in w && t in w[f] && Present(w[f][t], chain, r)
  }

  /** The world after an operation, and whether the operation reported success. */
  datatype Effect = Effect(world: World, ok: bool)

  function Required(refused: set<Rule>, w: World, f: Family, t: TableName, cmd: IptCmd): Effect {
    match DirectIpt(refused, w, f, t, cmd)
    case None => Effect(w, false)
    case Some(v) => Effect(v, true)
  }

  /** The restore that fills a chain at once: not to be had, failing for reasons of its
      own, or working. */
  datatype Restoring = Unsupported | Failing | Working

  /** What the compiler does to a table.  `Rebuild` is the chain of the host's own
      networks filled anew; `Sync` is what a command of another program comes to, the
      flush in front of it. */
  datatype Op =
    | EnsureChain(chain: string)
    | EnsureAppend(chain: string, rule: Rule)
    | EnsureInsert(chain: string, rule: Rule)
    | EnsureJump(chain: string, target: string)
    | DelRule(chain: string, rule: Rule)
    | CleanupChain(chain: string)
    | InsertFirst(chain: string, rules: seq<Rule>, fallback: Option<Rule>)
    | AppendFirst(chain: string, rules: seq<Rule>)
    | EnsureFirst(chain: string, rules: seq<Rule>)
    | Rebuild(chain: string, nets: seq<Net>, restoring: Restoring)
    | Sync(required: bool)

  /** The chain an operation is about. */
  function ChainOf(op: Op): string { if op.Sync? then "" else op.chain }

  /** An operation of the compiler on one table. */
  datatype Step = Step(family: Family, table: TableName, op: Op)

  /** What each operation does to the kernel when nothing is buffered. */
  function Direct(refused: set<Rule>, w: World, f: Family, t: TableName, op: Op): Effect {
    match op
    case EnsureChain(c) => Required(refused, Silently(refused, w, f, t, NewChain(c)), f, t, Flush(c))
    case EnsureAppend(c, r) =>
      if IsBoxCustomChain(c) then Required(refused, w, f, t, Append(c, r)) else SharedAppend(refused, w, f, t, c, r)
    case EnsureInsert(c, r) =>
      if Checked(w, f, t, c, r) then Effect(w, true) else Effect(Silently(refused, w, f, t, Insert(c, r)), true)
    case EnsureJump(c, target) =>
      if Checked(w, f, t, c, Rule(Jump(target))) then Effect(w, true)
      else Required(refused, w, f, t, Insert(c, Rule(Jump(target))))
    case DelRule(c, r) => Effect(Silently(refused, w, f, t, Delete(c, r)), true)
    case CleanupChain(c) =>
      Effect(Silently(refused, Silently(refused, w, f, t, Flush(c)), f, t, DeleteChain(c)), true)
    case InsertFirst(c, rules, fallback) =>
      var e := FirstTaken(refused, w, f, t, c, rules, true);
      if e.ok || fallback == None || Checked(w, f, t, c, fallback.value) then e
      else Effect(Silently(refused, w, f, t, Insert(c, fallback.value)), false)
    case AppendFirst(c, rules) => FirstTaken(refused, w, f, t, c, rules, false)
    case EnsureFirst(c, rules) => FirstEnsured(refused, w, f, t, c, rules)
    case Rebuild(c, nets, _) =>
      if !IsLocalIp(c) || t !in TablesOf(w, f) then Effect(w, false)
      else Effect(WithTable(w, f, t, w[f][t][c := Kept(refused, AcceptPairs(nets))]), true)
    case Sync(_) => Effect(w, true)
  }

  /** Variants of a rule, tried in order until the kernel takes one. */
  function FirstTaken(refused: set<Rule>, w: World, f: Family, t: TableName, c: string, rules: seq<Rule>, front: bool): Effect
    decreases |rules|
  {
    if rules == [] then Effect(w, false) else
      var e := Required(refused, w, f, t, if front then Insert(c, rules[0]) else Append(c, rules[0]));
      if e.ok then e else FirstTaken(refused, w, f, t, c, rules[1..], front)
  }

  /** The same for a shared chain, where a variant already present will do. */
  function FirstEnsured(refused: set<Rule>, w: World, f: Family, t: TableName, c: string, rules: seq<Rule>): Effect
    decreases |rules|
  {
    if rules == [] then Effect(w, false)
    else
      var e := SharedAppend(refused, w, f, t, c, rules[0]);
      if e.ok then e else FirstEnsured(refused, w, f, t, c, rules[1..])
  }

  /** A shared chain is not given a rule it already holds. */
  function SharedAppend(refused: set<Rule>, w: World, f: Family, t: TableName, c: string, r: Rule): Effect {
    if Checked(w, f, t, c, r) then Effect(w, true) else Required(refused, w, f, t, Append(c, r))
  }

  // ----- what a pending record means -----

  datatype TableBatch = TableBatch(decls: seq<string>, declared: set<string>, appends: seq<(string, Rule)>)

  const NOTHING := TableBatch([], {}, [])

  datatype RuleBatch = RuleBatch(family: Family, tables: map<TableName, TableBatch>)

  /** Declaring a chain to a restore that does not flush creates or empties it. */
  function Declare(chains: Chains, decls: seq<string>): Chains
    decreases |decls|
  {
    if decls == [] then chains else Declare(chains[decls[0] := []], decls[1..])
  }

  function Replay(refused: set<Rule>, chains: Chains, appends: seq<(string, Rule)>): Option<Chains>
    decreases |appends|
  {
    if appends == [] then Some(chains) else
      match Ipt(refused, chains, Append(appends[0].0, appends[0].1))
      case None => None
      case Some(next) => Replay(refused, next, appends[1..])
  }

  /** The table after the recorded declarations and appends, if all are accepted. */
  function Restored(refused: set<Rule>, chains: Chains, tb: TableBatch): Option<Chains> {
    Replay(refused, Declare(chains, tb.decls), tb.appends)
  }

  function Pending(b: RuleBatch, t: TableName): TableBatch {
    if t in b.tables then b.tables[t] else NOTHING
  }

  predicate Idle(tb: TableBatch) { tb.decls == [] && tb.appends == [] }

  predicate Replayable(refused: set<Rule>, tabs: Tables, b: RuleBatch) {
    forall t | t in b.tables ::
      Idle(b.tables[t]) || (t in tabs && Restored(refused, tabs[t], b.tables[t]).Some?)
  }

  function Overlay(refused: set<Rule>, tabs: Tables, b: RuleBatch): (r: Tables)
    requires Replayable(refused, tabs, b)
    ensures r.Keys == tabs.Keys
  {
    map t | t in tabs :: if t in b.tables then Restored(refused, tabs[t], b.tables[t]).value else tabs[t]
  }

  // ----- recording preserves meaning -----

  lemma {:induction false} DeclareSnoc(chains: Chains, decls: seq<string>, c: string)
    ensures Declare(chains, decls + [c]) == Declare(chains, decls)[c := []]
    decreases |decls|
  {
    if decls == [] {
      assert decls + [c] == [c] && [c][1..] == [];
    } else {
      assert (decls + [c])[1..] == decls[1..] + [c];
      DeclareSnoc(chains[decls[0] := []], decls[1..], c);
    }
  }

  lemma {:induction false} ReplaySnoc(refused: set<Rule>, chains: Chains, appends: seq<(string, Rule)>, a: (string, Rule))
    ensures Replay(refused, chains, appends + [a]) ==
      var o := Replay(refused, chains, appends);
      if o.None? then None else Ipt(refused, o.value, Append(a.0, a.1))
    decreases |appends|
  {
    if appends == [] {
      assert appends + [a] == [a];
    } else {
      assert (appends + [a])[1..] == appends[1..] + [a];
      var next := Ipt(refused, chains, Append(appends[0].0, appends[0].1));
      if next.Some? {
        ReplaySnoc(refused, next.value, appends[1..], a);
      }
    }
  }

  predicate AppendsTo(appends: seq<(string, Rule)>, c: string) {
    exists a | a in appends :: a.0 == c
  }

  /** Emptying a chain first changes nothing for appends to other chains. */
  lemma {:induction false} ReplayBesideEmptied(refused: set<Rule>, chains: Chains, appends: seq<(string, Rule)>, c: string)
    requires Replay(refused, chains, appends).Some? && !AppendsTo(appends, c)
    ensures Replay(refused, chains[c := []], appends) == Some(Replay(refused, chains, appends).value[c := []])
    decreases |appends|
  {
    if appends != [] {
      var a := appends[0];
      assert a in appends;
      var next := Ipt(refused, chains, Append(a.0, a.1)).value;
      assert a.0 != c && a.0 in chains;
      assert chains[c := []][a.0 := chains[a.0] + [a.1]] == next[c := []];
      assert Takes(refused, chains[c := []], a.0, a.1);
      assert forall b :: b in appends[1..] ==> b in appends;
      ReplayBesideEmptied(refused, next, appends[1..], c);
    }
  }

  /** A first ensure, recorded: the chain has no declaration yet and no pending append. */
  predicate FirstUse(tb: TableBatch, c: string) {
    c !in tb.decls && c !in tb.declared && !AppendsTo(tb.appends, c)
  }

  function RecordChain(tb: TableBatch, c: string): TableBatch {
    if c !in tb.declared && c !in tb.decls then tb.(decls := tb.decls + [c]) else tb
  }

  function RecordAppend(tb: TableBatch, c: string, r: Rule): TableBatch {
    tb.(appends := tb.appends + [(c, r)])
  }

  /** Creating or emptying a chain, directly. */
  lemma {:induction false} FirstTakenFails(refused: set<Rule>, w: World, f: Family, t: TableName, c: string, rules: seq<Rule>)
    ensures var e := FirstTaken(refused, w, f, t, c, rules, true); e.ok || e.world == w
    decreases |rules|
  {
    if rules != [] {
      FirstTakenFails(refused, w, f, t, c, rules[1..]);
    }
  }

  lemma DirectEnsureChain(refused: set<Rule>, w: World, f: Family, t: TableName, c: string)
    requires f in w && t in w[f]
    ensures Direct(refused, w, f, t, EnsureChain(c)) == Effect(WithTable(w, f, t, w[f][t][c := []]), true)
  {
    var chains := w[f][t];
    var once := if c in chains then chains else chains[c := []];
    assert once[c := []] == chains[c := []];
    WithTableTwice(w, f, t, once, chains[c := []]);
    assert Silently(refused, w, f, t, NewChain(c)) == WithTable(w, f, t, once);
  }

  lemma RecordChainMeaning(refused: set<Rule>, chains: Chains, tb: TableBatch, c: string)
    requires Restored(refused, chains, tb).Some?
    ensures FirstUse(tb, c) ==>
      Restored(refused, chains, RecordChain(tb, c)) == Some(Restored(refused, chains, tb).value[c := []])
    ensures c in tb.decls || c in tb.declared ==>
      Restored(refused, chains, RecordChain(tb, c)) == Restored(refused, chains, tb)
  {
    if FirstUse(tb, c) {
      DeclareSnoc(chains, tb.decls, c);
      ReplayBesideEmptied(refused, Declare(chains, tb.decls), tb.appends, c);
    }
  }

  lemma RecordAppendMeaning(refused: set<Rule>, chains: Chains, tb: TableBatch, c: string, r: Rule)
    requires Restored(refused, chains, tb).Some?
    ensures Restored(refused, chains, RecordAppend(tb, c, r))
         == Ipt(refused, Restored(refused, chains, tb).value, Append(c, r))
  {
    ReplaySnoc(refused, Declare(chains, tb.decls), tb.appends, (c, r));
  }

  /** What was appended to a chain is still there after the replay. */
  lemma {:induction false} ReplayKeeps(refused: set<Rule>, chains: Chains, appends: seq<(string, Rule)>, c: string)
    requires Replay(refused, chains, appends).Some?
    ensures var after := Replay(refused, chains, appends).value;
      (AppendsTo(appends, c) || (c in chains && chains[c] != [])) ==> c in after && after[c] != []
    decreases |appends|
  {
    if appends != [] {
      var a := appends[0];
      var next := Ipt(refused, chains, Append(a.0, a.1)).value;
      assert forall b :: b in appends ==> b == a || b in appends[1..];
      ReplayKeeps(refused, next, appends[1..], c);
    }
  }

  /**
   When recording an ensure is the same as doing it: exactly if the chain was not
   ensured before in this session and has nothing pending, or is empty anyway.
   A second ensure in one session therefore keeps the rules the direct form drops.
   */
  lemma EnsureAgreesExactly(refused: set<Rule>, chains: Chains, tb: TableBatch, c: string)
    requires Restored(refused, chains, tb).Some?
    ensures Restored(refused, chains, RecordChain(tb, c)) == Some(Restored(refused, chains, tb).value[c := []])
      <==> FirstUse(tb, c) || (c in Restored(refused, chains, tb).value && Restored(refused, chains, tb).value[c] == [])
  {
    RecordChainMeaning(refused, chains, tb, c);
    var now := Restored(refused, chains, tb).value;
    if !FirstUse(tb, c) {
      ReplayKeeps(refused, Declare(chains, tb.decls), tb.appends, c);
      var recorded := RecordChain(tb, c);
      if Restored(refused, chains, recorded).Some? {
        ReplayKeeps(refused, Declare(chains, recorded.decls), recorded.appends, c);
      }
      if c in now && now[c] == [] {
        assert now == now[c := []];
      }
    }
  }

  /** The kernel with a record laid over it. */
  function Meant(refused: set<Rule>, w: World, b: RuleBatch): World
    requires Replayable(refused, TablesOf(w, b.family), b)
  {
    if b.family in w then w[b.family := Overlay(refused, w[b.family], b)] else w
  }

  function Recording(b: RuleBatch, t: TableName, tb: TableBatch): RuleBatch {
    b.(tables := b.tables[t := tb])
  }

  /** Replacing one table's record replaces that table in the meaning. */
  lemma RecordedMeaning(refused: set<Rule>, w: World, b: RuleBatch, t: TableName, tb: TableBatch, chains: Chains)
    requires b.family in w && Replayable(refused, w[b.family], b) && t in w[b.family]
    requires Restored(refused, w[b.family][t], tb) == Some(chains)
    ensures Replayable(refused, w[b.family], Recording(b, t, tb))
    ensures Meant(refused, w, Recording(b, t, tb)) == WithTable(Meant(refused, w, b), b.family, t, chains)
  {
    assert Overlay(refused, w[b.family], Recording(b, t, tb)) == Overlay(refused, w[b.family], b)[t := chains];
  }

  lemma OverlayAt(refused: set<Rule>, tabs: Tables, b: RuleBatch, t: TableName)
    requires Replayable(refused, tabs, b) && t in tabs
    ensures Restored(refused, tabs[t], Pending(b, t)) == Some(Overlay(refused, tabs, b)[t])
  {
  }

  /** Recording an ensure of a known chain changes nothing. */
  lemma KnownRecorded(b: RuleBatch, t: TableName, c: string)
    requires Known(Pending(b, t), c)
    ensures Recording(b, t, RecordChain(Pending(b, t), c)) == b
  {
    assert t in b.tables && b.tables[t := b.tables[t]] == b.tables;
  }

  lemma EnsureRecorded(refused: set<Rule>, w: World, b: RuleBatch, t: TableName, c: string)
    requires Replayable(refused, TablesOf(w, b.family), b) && t in TablesOf(w, b.family)
    requires FirstUse(Pending(b, t), c)
    ensures var r := Recording(b, t, RecordChain(Pending(b, t), c));
      Replayable(refused, TablesOf(w, b.family), r) &&
      Direct(refused, Meant(refused, w, b), b.family, t, EnsureChain(c)) == Effect(Meant(refused, w, r), true)
  {
    var f, tb, over := b.family, Pending(b, t), Overlay(refused, w[b.family], b);
    OverlayAt(refused, w[f], b, t);
    RecordChainMeaning(refused, w[f][t], tb, c);
    RecordedMeaning(refused, w, b, t, RecordChain(tb, c), over[t][c := []]);
    DirectEnsureChain(refused, Meant(refused, w, b), f, t, c);
  }

  lemma AppendRecorded(refused: set<Rule>, w: World, b: RuleBatch, t: TableName, c: string, rule: Rule)
    requires Replayable(refused, TablesOf(w, b.family), b) && IsBoxCustomChain(c)
    requires Direct(refused, Meant(refused, w, b), b.family, t, EnsureAppend(c, rule)).ok
    ensures var r := Recording(b, t, RecordAppend(Pending(b, t), c, rule));
      Replayable(refused, TablesOf(w, b.family), r) &&
      Direct(refused, Meant(refused, w, b), b.family, t, EnsureAppend(c, rule)) == Effect(Meant(refused, w, r), true)
  {
    var f, tb, over := b.family, Pending(b, t), Overlay(refused, w[b.family], b);
    OverlayAt(refused, w[f], b, t);
    RecordAppendMeaning(refused, w[f][t], tb, c, rule);
    RecordedMeaning(refused, w, b, t, RecordAppend(tb, c, rule), Ipt(refused, over[t], Append(c, rule)).value);
  }

  type Place = (TableName, string)

  /** Operations that a session notes down, at least in part. */
  predicate Notable(op: Op) {
    match op
    case EnsureChain(c) => IsBoxCustomChain(c)
    case EnsureAppend(c, _) => IsBoxCustomChain(c)
    case Rebuild(c, _, _) => IsLocalIp(c)
    case _ => false
  }

  /** The session already created or emptied the chain. */
  predicate Known(tb: TableBatch, c: string) { c in tb.decls || c in tb.declared }

  /** From `before` to `now`, chains the session knows stay known, unused chains
      stay unused but for those touched, and those ensured have become known, if they
      are not rebuilt behind the record's back. */
  ghost predicate Tracks(before: Option<RuleBatch>, now: Option<RuleBatch>, ensured: set<Place>, touched: set<Place>) {
    match before
    case None => now == None
    case Some(b) =>
      && now.Some? && now.value.family == b.family
      && (forall u, d :: (u, d) !in touched && FirstUse(Pending(b, u), d) ==> FirstUse(Pending(now.value, u), d))
      && (forall u, d :: Known(Pending(b, u), d) ==> Known(Pending(now.value, u), d))
      && (forall u, d :: (u, d) in ensured && !IsLocalIp(d) ==> Known(Pending(now.value, u), d))
  }

  lemma RecordTracks(b: RuleBatch, t: TableName, c: string, r: Rule)
    ensures Tracks(Some(b), Some(Recording(b, t, RecordChain(Pending(b, t), c))), {(t, c)}, {(t, c)})
    ensures Tracks(Some(b), Some(Recording(b, t, RecordAppend(Pending(b, t), c, r))), {}, {(t, c)})
  {
    forall u, d | (u, d) !in {(t, c)} && FirstUse(Pending(b, u), d)
      ensures FirstUse(Pending(Recording(b, t, RecordAppend(Pending(b, t), c, r)), u), d)
    {
    }
  }

  lemma DrainTracks(b: RuleBatch)
    ensures Tracks(Some(b), Some(Drained(b)), {}, {})
  {
    forall u, d | Known(Pending(b, u), d) ensures Known(Pending(Drained(b), u), d) {
    }
  }

  /** What a session of family `f`, buffered or not, has ensured so far: these chains
      are known to its record unless they are rebuilt, the others have nothing in it. */
  ghost predicate Ledger(f: Family, buffered: bool, b: Option<RuleBatch>, used: set<Place>) {
    && b.Some? == buffered
    && (b.Some? ==> b.value.family == f)
    && (b.Some? ==>
          forall t, c :: if (t, c) in used then IsLocalIp(c) || Known(Pending(b.value, t), c) else FirstUse(Pending(b.value, t), c))
  }

  lemma TracksLedger(f: Family, buffered: bool, before: Option<RuleBatch>, now: Option<RuleBatch>, used: set<Place>,
                     ensured: set<Place>, touched: set<Place>)
    requires Ledger(f, buffered, before, used) && Tracks(before, now, ensured, touched)
    requires ensured <= touched <= used + ensured
    ensures Ledger(f, buffered, now, used + ensured)
  {
  }

  /** What an operation records in a session of family `f`, and what it ensures. */
  function Touched(f: Family, s: Step): set<Place> {
    if s.family == f && Notable(s.op) then {(s.table, s.op.chain)} else {}
  }

  function Ensured(f: Family, s: Step): set<Place> { if s.op.EnsureAppend? then {} else Touched(f, s) }

  function TouchedNow(b: Option<RuleBatch>, s: Step): set<Place> {
    match b case None => {} case Some(b) => Touched(b.family, s)
  }

  function EnsuredNow(b: Option<RuleBatch>, s: Step): set<Place> {
    match b case None => {} case Some(b) => Ensured(b.family, s)
  }

  /** A recorded ensure of a chain the session knows does nothing; every other
      operation does what it does unbuffered. */
  function AsRecorded(refused: set<Rule>, w: World, b: Option<RuleBatch>, s: Step): Effect {
    if b.Some? && b.value.family == s.family && s.op.EnsureChain? && IsBoxCustomChain(s.op.chain)
       && Known(Pending(b.value, s.table), s.op.chain)
    then Effect(w, true)
    else Direct(refused, w, s.family, s.table, s.op)
  }

  /** Tables a flush has not reached after `i` steps. */
  predicate Later(t: TableName, i: nat) {
    match t
    case Filter => i < 1
    case Mangle => i < 2
    case Nat => i < 3
  }

  // ----- what a flush does, whatever the kernel refuses -----

  /** In the order of the table names, as the record is kept sorted. */
  const FLUSH_ORDER: seq<TableName> := [Filter, Mangle, Nat]

  function DeclSet(tb: TableBatch): set<string> { set c | c in tb.decls }

  /** A table's record once it has been flushed. */
  function Done(tb: TableBatch): TableBatch { TableBatch([], tb.declared + DeclSet(tb), []) }

  lemma DoneMeans(tb: TableBatch)
    ensures Idle(Done(tb)) && Done(Done(tb)) == Done(tb) && (Idle(tb) ==> Done(tb) == tb)
  {
    assert DeclSet(NOTHING) == {};
  }

  /** Where a replay stops: at its end, or before the first append that is refused. */
  function Reach(refused: set<Rule>, chains: Chains, appends: seq<(string, Rule)>): Chains
    decreases |appends|
  {
    if appends == [] then chains else
      match Ipt(refused, chains, Append(appends[0].0, appends[0].1))
      case None => chains
      case Some(next) => Reach(refused, next, appends[1..])
  }

  lemma {:induction false} ReachWhole(refused: set<Rule>, chains: Chains, appends: seq<(string, Rule)>)
    requires Replay(refused, chains, appends).Some?
    ensures Reach(refused, chains, appends) == Replay(refused, chains, appends).value
    decreases |appends|
  {
    if appends != [] {
      ReachWhole(refused, Ipt(refused, chains, Append(appends[0].0, appends[0].1)).value, appends[1..]);
    }
  }

  /** One table flushed: a restore leaves what a replay to the end would, and
      where it cannot succeed the replay stops half way. */
  function FlushedTable(refused: set<Rule>, w: World, f: Family, t: TableName, tb: TableBatch): Effect {
    if t !in TablesOf(w, f) then Effect(w, false)
    else Effect(WithTable(w, f, t, Reach(refused, Declare(w[f][t], tb.decls), tb.appends)), Restored(refused, w[f][t], tb).Some?)
  }

  /** A manager's state: the tables, and what is recorded but not yet in them. */
  datatype Held = Held(kernel: World, batch: Option<RuleBatch>)

  /** The state after a call, and whether the call succeeded. */
  datatype Turn = Turn(held: Held, ok: bool)

  /** The tables from the `i`th on; at the first that fails its record and those behind it are kept. */
  function FlushFrom(refused: set<Rule>, w: World, b: RuleBatch, i: nat): Turn
    requires i <= 3
    decreases 3 - i
  {
    if i == 3 then Turn(Held(w, Some(b)), true) else
      var t := FLUSH_ORDER[i];
      if Idle(Pending(b, t)) then FlushFrom(refused, w, b, i + 1)
      else
        var e := FlushedTable(refused, w, b.family, t, b.tables[t]);
        if e.ok then FlushFrom(refused, e.world, Recording(b, t, Done(b.tables[t])), i + 1) else Turn(Held(e.world, Some(b)), false)
  }

  function FlushOf(refused: set<Rule>, h: Held): Turn {
    match h.batch
    case None => Turn(h, true)
    case Some(b) => FlushFrom(refused, h.kernel, b, 0)
  }

  // ----- what the operations do -----

  predicate Buffers(h: Held, f: Family) { h.batch.Some? && h.batch.value.family == f }

  function OwnedOf(refused: set<Rule>, h: Held, f: Family, t: TableName, cmd: IptCmd): Turn {
    var o := FlushOf(refused, h);
    if !o.ok then o else
      var e := Required(refused, o.held.kernel, f, t, cmd);
      Turn(o.held.(kernel := e.world), e.ok)
  }

  function SilentOf(refused: set<Rule>, h: Held, f: Family, t: TableName, cmd: IptCmd): Held {
    var o := FlushOf(refused, h).held;
    o.(kernel := Silently(refused, o.kernel, f, t, cmd))
  }

  /** A failed flush counts as a rule that is not there. */
  function CheckOf(refused: set<Rule>, h: Held, f: Family, t: TableName, chain: string, r: Rule): Turn {
    var o := FlushOf(refused, h);
    Turn(o.held, o.ok && Checked(o.held.kernel, f, t, chain, r))
  }

  /** A rule added at either end unless it is there. */
  function UnlessPresent(refused: set<Rule>, h: Held, f: Family, t: TableName, cmd: IptCmd): Turn
    requires cmd.Append? || cmd.Insert?
  {
    var o := CheckOf(refused, h, f, t, cmd.chain, cmd.rule);
    if o.ok then o else OwnedOf(refused, o.held, f, t, cmd)
  }

  function FirstTakenOf(refused: set<Rule>, h: Held, f: Family, t: TableName, c: string, rules: seq<Rule>, front: bool): Turn
    decreases |rules|
  {
    if rules == [] then Turn(h, false) else
      var o := OwnedOf(refused, h, f, t, if front then Insert(c, rules[0]) else Append(c, rules[0]));
      if o.ok then o else FirstTakenOf(refused, o.held, f, t, c, rules[1..], front)
  }

  function FirstEnsuredOf(refused: set<Rule>, h: Held, f: Family, t: TableName, c: string, rules: seq<Rule>): Turn
    decreases |rules|
  {
    if rules == [] then Turn(h, false) else
      var o := UnlessPresent(refused, h, f, t, Append(c, rules[0]));
      if o.ok then o else FirstEnsuredOf(refused, o.held, f, t, c, rules[1..])
  }

  function ChainRecorded(h: Held, t: TableName, c: string): Held
    requires h.batch.Some?
  {
    h.(batch := Some(Recording(h.batch.value, t, RecordChain(Pending(h.batch.value, t), c))))
  }

  function AppendRecordedIn(h: Held, t: TableName, c: string, r: Rule): Held
    requires h.batch.Some?
  {
    h.(batch := Some(Recording(h.batch.value, t, RecordAppend(Pending(h.batch.value, t), c, r))))
  }

  function EnsureOf(refused: set<Rule>, h: Held, f: Family, t: TableName, c: string): Turn {
    if IsBoxCustomChain(c) && Buffers(h, f) then Turn(ChainRecorded(h, t, c), true)
    else OwnedOf(refused, SilentOf(refused, h, f, t, NewChain(c)), f, t, Flush(c))
  }

  function AppendOf(refused: set<Rule>, h: Held, f: Family, t: TableName, c: string, r: Rule): Turn {
    if !IsBoxCustomChain(c) then UnlessPresent(refused, h, f, t, Append(c, r))
    else if Buffers(h, f) then Turn(AppendRecordedIn(h, t, c, r), true)
    else OwnedOf(refused, h, f, t, Append(c, r))
  }

  /** Rules appended one by one, those that fail passed over. */
  function AppendsOf(refused: set<Rule>, h: Held, f: Family, t: TableName, c: string, rules: seq<Rule>): Held
    decreases |rules|
  {
    if rules == [] then h else AppendsOf(refused, AppendOf(refused, h, f, t, c, rules[0]).held, f, t, c, rules[1..])
  }

  /** The two rules of one network. */
  function NetPair(net: Net): (s: seq<Rule>)
    ensures |s| == 2 && NoJumps(s)
  {
    AcceptPair(Rule(Accept, dst := Some(net)))
  }

  /** Both rules of a network are tried; one is enough. */
  function PairOf(refused: set<Rule>, h: Held, f: Family, t: TableName, c: string, net: Net): Turn {
    var a := AppendOf(refused, h, f, t, c, NetPair(net)[0]);
    var b := AppendOf(refused, a.held, f, t, c, NetPair(net)[1]);
    Turn(b.held, a.ok || b.ok)
  }

  /** How many networks are served. */
  function ServedOf(refused: set<Rule>, h: Held, f: Family, t: TableName, c: string, nets: seq<Net>): (n: nat)
    ensures n <= |nets|
    decreases |nets|
  {
    if nets == [] then 0 else
      var o := PairOf(refused, h, f, t, c, nets[0]);
      (if o.ok then 1 else 0) + ServedOf(refused, o.held, f, t, c, nets[1..])
  }

  lemma PairsOf(refused: set<Rule>, h: Held, f: Family, t: TableName, c: string, nets: seq<Net>)
    requires nets != []
    ensures AppendsOf(refused, h, f, t, c, AcceptPairs(nets))
         == AppendsOf(refused, PairOf(refused, h, f, t, c, nets[0]).held, f, t, c, AcceptPairs(nets[1..]))
  {
    var pair, rest := NetPair(nets[0]), AcceptPairs(nets[1..]);
    var rules := pair + rest;
    assert AcceptPairs(nets) == rules && rules[0] == pair[0] && rules[1..][0] == pair[1] && rules[1..][1..] == rest;
    hide AppendOf;
    assert AppendsOf(refused, h, f, t, c, rules) == AppendsOf(refused, AppendOf(refused, h, f, t, c, pair[0]).held, f, t, c, rules[1..]);
  }

  /** The chain made or emptied, and filled rule by rule. */
  function RefillOf(refused: set<Rule>, h: Held, f: Family, t: TableName, c: string, nets: seq<Net>): Turn {
    var o := EnsureOf(refused, h, f, t, c);
    if !o.ok then o else Turn(AppendsOf(refused, o.held, f, t, c, AcceptPairs(nets)), true)
  }

  function Tagged(chain: string, rules: seq<Rule>): (s: seq<(string, Rule)>)
    ensures |s| == |rules| && forall i :: 0 <= i < |rules| ==> s[i] == (chain, rules[i])
  {
    seq(|rules|, i requires 0 <= i < |rules| => (chain, rules[i]))
  }

  /** The chain with its rules, as a restore is given it. */
  function Whole(c: string, nets: seq<Net>): TableBatch { TableBatch([c], {}, Tagged(c, AcceptPairs(nets))) }

  /** The chain made behind a flush, its failure ignored, where restore is supported. */
  function Prepared(refused: set<Rule>, h: Held, f: Family, t: TableName, c: string, restoring: Restoring): Held {
    if restoring == Unsupported then h else SilentOf(refused, h, f, t, NewChain(c))
  }

  /** A rebuild: one restore past the record, or else the same rules in the usual way. */
  function RebuildOf(refused: set<Rule>, h: Held, f: Family, t: TableName, c: string, nets: seq<Net>, restoring: Restoring): Turn {
    if !IsLocalIp(c) then Turn(h, false) else
      var g := Prepared(refused, h, f, t, c, restoring);
      var e := FlushedTable(refused, g.kernel, f, t, Whole(c, nets));
      if restoring == Working && e.ok then Turn(g.(kernel := e.world), true) else RefillOf(refused, g, f, t, c, nets)
  }

  /** How many networks a rebuild says it serves: within a session, also those whose rules are only noted down. */
  function RebuildServes(refused: set<Rule>, h: Held, f: Family, t: TableName, c: string, nets: seq<Net>, restoring: Restoring): nat {
    var g := Prepared(refused, h, f, t, c, restoring);
    if restoring == Working && FlushedTable(refused, g.kernel, f, t, Whole(c, nets)).ok then |nets|
    else ServedOf(refused, EnsureOf(refused, g, f, t, c).held, f, t, c, nets)
  }

  /** Each operation on a manager in any state, whatever the kernel refuses. */
  function PerformOf(refused: set<Rule>, h: Held, s: Step): Turn {
    var f, t := s.family, s.table;
    match s.op
    case EnsureChain(c) => EnsureOf(refused, h, f, t, c)
    case EnsureAppend(c, r) => AppendOf(refused, h, f, t, c, r)
    case EnsureInsert(c, r) => Turn(UnlessPresent(refused, h, f, t, Insert(c, r)).held, true)
    case EnsureJump(c, target) => UnlessPresent(refused, h, f, t, Insert(c, Rule(Jump(target))))
    case DelRule(c, r) => Turn(SilentOf(refused, h, f, t, Delete(c, r)), true)
    case CleanupChain(c) => Turn(SilentOf(refused, SilentOf(refused, h, f, t, Flush(c)), f, t, DeleteChain(c)), true)
    case InsertFirst(c, rules, fallback) =>
      var o := FirstTakenOf(refused, h, f, t, c, rules, true);
      if o.ok || fallback == None then o else Turn(UnlessPresent(refused, o.held, f, t, Insert(c, fallback.value)).held, false)
    case AppendFirst(c, rules) => FirstTakenOf(refused, h, f, t, c, rules, false)
    case EnsureFirst(c, rules) => FirstEnsuredOf(refused, h, f, t, c, rules)
    case Rebuild(c, nets, restoring) => RebuildOf(refused, h, f, t, c, nets, restoring)
    case Sync(required) => var o := FlushOf(refused, h); Turn(o.held, o.ok || !required)
  }

  /** A session that starts on these tables, buffered where restore is supported. */
  function Opened(w: World, f: Family, buffered: bool): Held { Held(w, if buffered then Some(RuleBatch(f, map[])) else None) }

  function RunOf(refused: set<Rule>, h: Held, steps: seq<Step>): Held
    decreases |steps|
  {
    if steps == [] then h else RunOf(refused, PerformOf(refused, h, steps[0]).held, steps[1..])
  }

  function OksOf(refused: set<Rule>, h: Held, steps: seq<Step>): seq<bool>
    decreases |steps|
  {
    if steps == [] then [] else
      var o := PerformOf(refused, h, steps[0]);
      [o.ok] + OksOf(refused, o.held, steps[1..])
  }

  /** The end of a session: one more flush, whose record is dropped whatever it says. */
  function EndOf(refused: set<Rule>, h: Held): Turn {
    var o := FlushOf(refused, h);
    Turn(Held(o.held.kernel, None), o.ok)
  }

  // ----- where everything recorded is accepted -----

  /** The record can be replayed on the tables as they are. */
  predicate Sound(refused: set<Rule>, h: Held) {
    h.batch.Some? ==> Replayable(refused, TablesOf(h.kernel, h.batch.value.family), h.batch.value)
  }

  /** The tables the callers are entitled to believe in. */
  function Meaning(refused: set<Rule>, h: Held): World
    requires Sound(refused, h)
  {
    match h.batch
    case None => h.kernel
    case Some(b) => Meant(refused, h.kernel, b)
  }

  function Drained(b: RuleBatch): RuleBatch { b.(tables := map t | t in b.tables :: Done(b.tables[t])) }

  /** Nothing is pending. */
  predicate Calm(h: Held) { h.batch.Some? ==> forall t | t in h.batch.value.tables :: Idle(h.batch.value.tables[t]) }

  lemma CalmIsSound(refused: set<Rule>, h: Held)
    requires Calm(h)
    ensures Sound(refused, h) && Meaning(refused, h) == h.kernel
  {
    if h.batch.Some? && h.batch.value.family in h.kernel {
      var b := h.batch.value;
      assert Overlay(refused, h.kernel[b.family], b) == h.kernel[b.family];
      assert h.kernel[b.family := h.kernel[b.family]] == h.kernel;
    }
  }

  lemma {:induction false} CalmFlushFrom(refused: set<Rule>, w: World, b: RuleBatch, i: nat)
    requires i <= 3 && Calm(Held(w, Some(b)))
    ensures FlushFrom(refused, w, b, i) == Turn(Held(w, Some(b)), true)
    decreases 3 - i
  {
    if i < 3 {
      CalmFlushFrom(refused, w, b, i + 1);
    }
  }

  lemma CalmFlush(refused: set<Rule>, h: Held)
    requires Calm(h)
    ensures FlushOf(refused, h) == Turn(h, true)
  {
    if h.batch.Some? {
      CalmFlushFrom(refused, h.kernel, h.batch.value, 0);
    }
  }

  /** One table of a record that can be replayed. */
  lemma FlushStep(refused: set<Rule>, w: World, b: RuleBatch, t: TableName)
    requires Replayable(refused, TablesOf(w, b.family), b) && !Idle(Pending(b, t))
    ensures var e, next := FlushedTable(refused, w, b.family, t, b.tables[t]), Recording(b, t, Done(b.tables[t]));
      && e.ok && Replayable(refused, TablesOf(e.world, b.family), next)
      && Meant(refused, e.world, next) == Meant(refused, w, b) && Drained(next) == Drained(b)
  {
    var f, tb := b.family, b.tables[t];
    var next, chains := Recording(b, t, Done(tb)), Restored(refused, w[f][t], tb).value;
    ReachWhole(refused, Declare(w[f][t], tb.decls), tb.appends);
    DoneMeans(tb);
    var tabs := w[f][t := chains];
    assert TablesOf(WithTable(w, f, t, chains), f) == tabs;
    hide Reach, Replay, Declare;
    assert Restored(refused, chains, Done(tb)) == Some(chains) by { RestoredIdle(refused, chains, Done(tb)); }
    assert Overlay(refused, tabs, next) == Overlay(refused, w[f], b);
    assert w[f := tabs][f := Overlay(refused, w[f], b)] == w[f := Overlay(refused, w[f], b)];
  }

  lemma RestoredIdle(refused: set<Rule>, chains: Chains, tb: TableBatch)
    requires Idle(tb)
    ensures Restored(refused, chains, tb) == Some(chains)
  {
  }

  lemma {:induction false} SoundFlushFrom(refused: set<Rule>, w: World, b: RuleBatch, i: nat)
    requires i <= 3 && Replayable(refused, TablesOf(w, b.family), b)
    requires forall t :: t in b.tables && !Later(t, i) ==> Idle(b.tables[t])
    ensures FlushFrom(refused, w, b, i) == Turn(Held(Meant(refused, w, b), Some(Drained(b))), true)
    decreases 3 - i
  {
    if i == 3 {
      AllDrained(refused, w, b);
    } else {
      var t := FLUSH_ORDER[i];
      assert Later(t, i) && !Later(t, i + 1) && forall u :: u != t ==> Later(u, i) == Later(u, i + 1);
      if Idle(Pending(b, t)) {
        SoundFlushFrom(refused, w, b, i + 1);
      } else {
        FlushStep(refused, w, b, t);
        DoneMeans(b.tables[t]);
        hide FlushedTable, Replayable, Drained, Meant, Done;
        SoundFlushFrom(refused, FlushedTable(refused, w, b.family, t, b.tables[t]).world, Recording(b, t, Done(b.tables[t])), i + 1);
      }
    }
  }

  lemma AllDrained(refused: set<Rule>, w: World, b: RuleBatch)
    requires Calm(Held(w, Some(b)))
    ensures Replayable(refused, TablesOf(w, b.family), b) && Meant(refused, w, b) == w && Drained(b) == b
  {
    CalmIsSound(refused, Held(w, Some(b)));
    forall t | t in b.tables ensures Done(b.tables[t]) == b.tables[t] {
      DoneMeans(b.tables[t]);
    }
  }

  /** Everything recorded is in the tables, and remembered as declared. */
  function Settled(refused: set<Rule>, h: Held): Held
    requires Sound(refused, h)
  {
    Held(Meaning(refused, h), match h.batch case None => None case Some(b) => Some(Drained(b)))
  }

  /** A flush of a sound record brings about what it means, whether restore works or not. */
  lemma SoundFlush(refused: set<Rule>, h: Held)
    requires Sound(refused, h)
    ensures FlushOf(refused, h) == Turn(Settled(refused, h), true) && Calm(Settled(refused, h))
  {
    if h.batch.Some? {
      assert forall t :: Later(t, 0);
      SoundFlushFrom(refused, h.kernel, h.batch.value, 0);
      forall t | t in h.batch.value.tables ensures Idle(Drained(h.batch.value).tables[t]) {
        DoneMeans(h.batch.value.tables[t]);
      }
    }
  }

  // ----- operations with nothing pending -----

  lemma {:induction false} CalmFirstTaken(refused: set<Rule>, h: Held, f: Family, t: TableName, c: string, rules: seq<Rule>, front: bool)
    requires Calm(h)
    ensures var e := FirstTaken(refused, h.kernel, f, t, c, rules, front);
      FirstTakenOf(refused, h, f, t, c, rules, front) == Turn(h.(kernel := e.world), e.ok)
    decreases |rules|
  {
    hide DirectIpt, FlushOf;
    if rules != [] {
      CalmFlush(refused, h);
      var e := Required(refused, h.kernel, f, t, if front then Insert(c, rules[0]) else Append(c, rules[0]));
      CalmFirstTaken(refused, h.(kernel := e.world), f, t, c, rules[1..], front);
    }
  }

  lemma CalmUnlessPresent(refused: set<Rule>, h: Held, f: Family, t: TableName, cmd: IptCmd)
    requires Calm(h) && (cmd.Append? || cmd.Insert?)
    ensures var e := if Checked(h.kernel, f, t, cmd.chain, cmd.rule) then Effect(h.kernel, true) else Required(refused, h.kernel, f, t, cmd);
      UnlessPresent(refused, h, f, t, cmd) == Turn(h.(kernel := e.world), e.ok)
  {
    hide DirectIpt, FlushOf;
    CalmFlush(refused, h);
  }

  lemma {:induction false} CalmFirstEnsured(refused: set<Rule>, h: Held, f: Family, t: TableName, c: string, rules: seq<Rule>)
    requires Calm(h)
    ensures var e := FirstEnsured(refused, h.kernel, f, t, c, rules);
      FirstEnsuredOf(refused, h, f, t, c, rules) == Turn(h.(kernel := e.world), e.ok)
    decreases |rules|
  {
    hide DirectIpt, FlushOf, UnlessPresent, Checked;
    if rules != [] {
      CalmUnlessPresent(refused, h, f, t, Append(c, rules[0]));
      var e := SharedAppend(refused, h.kernel, f, t, c, rules[0]);
      CalmFirstEnsured(refused, h.(kernel := e.world), f, t, c, rules[1..]);
    }
  }

  lemma CalmSilent(refused: set<Rule>, h: Held, f: Family, t: TableName, cmd: IptCmd)
    requires Calm(h)
    ensures SilentOf(refused, h, f, t, cmd) == h.(kernel := Silently(refused, h.kernel, f, t, cmd))
    ensures var e := Required(refused, h.kernel, f, t, cmd); OwnedOf(refused, h, f, t, cmd) == Turn(h.(kernel := e.world), e.ok)
  {
    CalmFlush(refused, h);
    hide FlushOf, DirectIpt;
  }

  /** An operation that is noted down, or may be. */
  predicate Notes(h: Held, s: Step) {
    Notable(s.op) && Buffers(h, s.family)
  }

  // ----- the rebuild -----

  /** The kernel with the chain holding these rules. */
  function Holds(w: World, f: Family, t: TableName, c: string, rules: seq<Rule>): World
    requires t in TablesOf(w, f)
  {
    WithTable(w, f, t, w[f][t][c := rules])
  }

  lemma HoldsTwice(w: World, f: Family, t: TableName, c: string, a: seq<Rule>, b: seq<Rule>)
    requires t in TablesOf(w, f)
    ensures Holds(Holds(w, f, t, c, a), f, t, c, b) == Holds(w, f, t, c, b)
  {
    assert w[f][t][c := a][c := b] == w[f][t][c := b];
    WithTableTwice(w, f, t, w[f][t][c := a], w[f][t][c := b]);
  }

  lemma CalmAppend(refused: set<Rule>, h: Held, f: Family, t: TableName, c: string, r: Rule)
    requires Calm(h) && !Buffers(h, f) && IsBoxCustomChain(c) && !r.target.Jump? && t in TablesOf(h.kernel, f) && c in h.kernel[f][t]
    ensures AppendOf(refused, h, f, t, c, r).held
         == h.(kernel := Holds(h.kernel, f, t, c, h.kernel[f][t][c] + if r in refused then [] else [r]))
  {
    var w, chains := h.kernel, h.kernel[f][t];
    CalmSilent(refused, h, f, t, Append(c, r));
    hide FlushOf, IsBoxCustomChain, SilentOf, OwnedOf;
    assert AppendOf(refused, h, f, t, c, r) == OwnedOf(refused, h, f, t, Append(c, r));
    if r in refused {
      WithTableTwice(w, f, t, chains, chains);
      assert chains[c] + [] == chains[c] && chains[c := chains[c]] == chains;
    }
  }

  lemma HeldWith(h: Held, f: Family, t: TableName, c: string, rules: seq<Rule>)
    requires t in TablesOf(h.kernel, f)
    ensures var g := h.(kernel := Holds(h.kernel, f, t, c, rules));
      && Calm(g) == Calm(h) && Buffers(g, f) == Buffers(h, f)
      && t in TablesOf(g.kernel, f) && c in g.kernel[f][t] && g.kernel[f][t][c] == rules
  {
  }

  lemma HoldsSame(w: World, f: Family, t: TableName, c: string)
    requires t in TablesOf(w, f) && c in w[f][t]
    ensures Holds(w, f, t, c, w[f][t][c]) == w
  {
    WithTableTwice(w, f, t, w[f][t], w[f][t]);
    assert w[f][t][c := w[f][t][c]] == w[f][t];
  }

  lemma FirstKept(refused: set<Rule>, held: seq<Rule>, rules: seq<Rule>)
    requires rules != []
    ensures held + (if rules[0] in refused then [] else [rules[0]]) + Kept(refused, rules[1..]) == held + Kept(refused, rules)
  {
    KeptFirst(refused, rules);
    hide Kept;
    var rest := Kept(refused, rules[1..]);
    if rules[0] in refused {
      assert held + [] == held && [] + rest == rest;
    } else {
      assert held + [rules[0]] + rest == held + ([rules[0]] + rest);
    }
  }

  lemma KeptFirst(refused: set<Rule>, rules: seq<Rule>)
    requires rules != []
    ensures Kept(refused, rules) == (if rules[0] in refused then [] else [rules[0]]) + Kept(refused, rules[1..])
  {
  }

  lemma NoJumpsHead(rules: seq<Rule>)
    requires rules != [] && NoJumps(rules)
    ensures !rules[0].target.Jump? && NoJumps(rules[1..])
  {
    assert rules[0] in rules && forall q :: q in rules[1..] ==> q in rules;
  }

  lemma {:induction false} CalmAppends(refused: set<Rule>, h: Held, f: Family, t: TableName, c: string, rules: seq<Rule>)
    requires Calm(h) && !Buffers(h, f) && IsBoxCustomChain(c) && NoJumps(rules) && t in TablesOf(h.kernel, f) && c in h.kernel[f][t]
    ensures AppendsOf(refused, h, f, t, c, rules) == h.(kernel := Holds(h.kernel, f, t, c, h.kernel[f][t][c] + Kept(refused, rules)))
    decreases |rules|
  {
    var w, held := h.kernel, h.kernel[f][t][c];
    hide AppendOf, IsBoxCustomChain, Holds, Calm, Buffers, NoJumps, WithTable;
    if rules == [] {
      HoldsSame(w, f, t, c);
      assert held + [] == held;
    } else {
      var r := rules[0];
      var now := held + if r in refused then [] else [r];
      var next := h.(kernel := Holds(w, f, t, c, now));
      hide Kept;
      HeldWith(h, f, t, c, now);
      NoJumpsHead(rules);
      FirstKept(refused, held, rules);
      CalmAppend(refused, h, f, t, c, r);
      CalmAppends(refused, next, f, t, c, rules[1..]);
      HoldsTwice(w, f, t, c, now, now + Kept(refused, rules[1..]));
    }
  }

  /** A chain made or emptied, with nothing pending. */
  lemma CalmEnsure(refused: set<Rule>, h: Held, f: Family, t: TableName, c: string)
    requires Calm(h) && !Buffers(h, f)
    ensures var e := Direct(refused, h.kernel, f, t, EnsureChain(c));
      EnsureOf(refused, h, f, t, c) == Turn(h.(kernel := e.world), e.ok)
  {
    CalmSilent(refused, h, f, t, NewChain(c));
    CalmSilent(refused, h.(kernel := Silently(refused, h.kernel, f, t, NewChain(c))), f, t, Flush(c));
    hide FlushOf, DirectIpt, SilentOf, OwnedOf, IsBoxCustomChain;
  }

  lemma CalmRefill(refused: set<Rule>, h: Held, f: Family, t: TableName, c: string, nets: seq<Net>)
    requires Calm(h) && !Buffers(h, f) && IsLocalIp(c)
    ensures RefillOf(refused, h, f, t, c, nets)
         == if t in TablesOf(h.kernel, f) then Turn(h.(kernel := Holds(h.kernel, f, t, c, Kept(refused, AcceptPairs(nets)))), true)
            else Turn(h, false)
  {
    CalmEnsure(refused, h, f, t, c);
    if t in TablesOf(h.kernel, f) {
      DirectEnsureChain(refused, h.kernel, f, t, c);
      var g := h.(kernel := Holds(h.kernel, f, t, c, []));
      assert [] + Kept(refused, AcceptPairs(nets)) == Kept(refused, AcceptPairs(nets));
      hide FlushOf, EnsureOf, Direct, AppendsOf;
      CalmAppends(refused, g, f, t, c, AcceptPairs(nets));
      HoldsTwice(h.kernel, f, t, c, [], Kept(refused, AcceptPairs(nets)));
    }
  }

  /** A restore is taken whole or not at all. */
  lemma {:induction false} TaggedReplay(refused: set<Rule>, chains: Chains, c: string, rules: seq<Rule>)
    requires c in chains && NoJumps(rules)
    ensures Replay(refused, chains, Tagged(c, rules))
         == if forall r :: r in rules ==> r !in refused then Some(chains[c := chains[c] + rules]) else None
    decreases |rules|
  {
    var tagged := Tagged(c, rules);
    if rules == [] {
      assert chains[c] + rules == chains[c] && chains[c := chains[c]] == chains;
    } else {
      assert rules[0] in rules && tagged[1..] == Tagged(c, rules[1..]);
      assert forall r :: r in rules <==> r == rules[0] || r in rules[1..];
      if rules[0] !in refused {
        var next := chains[c := chains[c] + [rules[0]]];
        TaggedReplay(refused, next, c, rules[1..]);
        assert chains[c] + [rules[0]] + rules[1..] == chains[c] + rules;
        assert next[c := chains[c] + rules] == chains[c := chains[c] + rules];
      }
    }
  }

  /** The restore of a rebuild: exactly if the table is there and no rule is refused. */
  lemma WholeRestored(refused: set<Rule>, w: World, f: Family, t: TableName, c: string, nets: seq<Net>)
    ensures var e := FlushedTable(refused, w, f, t, Whole(c, nets));
      && e.ok == (t in TablesOf(w, f) && forall r :: r in AcceptPairs(nets) ==> r !in refused)
      && (e.ok ==> e.world == Holds(w, f, t, c, AcceptPairs(nets)) && Kept(refused, AcceptPairs(nets)) == AcceptPairs(nets))
  {
    if t in TablesOf(w, f) {
      var chains, rules := w[f][t], AcceptPairs(nets);
      var made := chains[c := []];
      assert [c][1..] == [] && Declare(chains, [c]) == made;
      TaggedReplay(refused, made, c, rules);
      assert [] + rules == rules && made[c := rules] == chains[c := rules];
      if Replay(refused, made, Tagged(c, rules)).Some? {
        ReachWhole(refused, made, Tagged(c, rules));
        AllKept(refused, rules);
      }
    }
  }

  /** A chain made on the way to being filled does not matter. */
  lemma MadeFirst(refused: set<Rule>, w: World, f: Family, t: TableName, c: string, rules: seq<Rule>)
    ensures var v := Silently(refused, w, f, t, NewChain(c));
      && (t in TablesOf(v, f) <==> t in TablesOf(w, f)) && (t in TablesOf(w, f) ==> Holds(v, f, t, c, rules) == Holds(w, f, t, c, rules))
      && (t !in TablesOf(w, f) ==> v == w)
  {
    if t in TablesOf(w, f) && c !in w[f][t] {
      HoldsTwice(w, f, t, c, [], rules);
    }
  }

  /** With nothing pending every way of rebuilding the chain leaves it with the rules the kernel takes. */
  lemma CalmRebuild(refused: set<Rule>, h: Held, f: Family, t: TableName, c: string, nets: seq<Net>, restoring: Restoring)
    requires Calm(h) && !Buffers(h, f) && IsLocalIp(c)
    ensures RebuildOf(refused, h, f, t, c, nets, restoring)
         == if t in TablesOf(h.kernel, f) then Turn(h.(kernel := Holds(h.kernel, f, t, c, Kept(refused, AcceptPairs(nets)))), true)
            else Turn(h, false)
  {
    var g := Prepared(refused, h, f, t, c, restoring);
    CalmSilent(refused, h, f, t, NewChain(c));
    assert Calm(g) && !Buffers(g, f);
    MadeFirst(refused, h.kernel, f, t, c, Kept(refused, AcceptPairs(nets)));
    WholeRestored(refused, g.kernel, f, t, c, nets);
    hide FlushOf, SilentOf, RefillOf, FlushedTable, Kept, AcceptPairs, Holds, Silently;
    CalmRefill(refused, g, f, t, c, nets);
  }

  /** With nothing pending, the manager does what it does unbuffered. */
  lemma CalmIsDirect(refused: set<Rule>, h: Held, s: Step)
    requires Calm(h) && !Notes(h, s)
    ensures var e := Direct(refused, h.kernel, s.family, s.table, s.op);
      PerformOf(refused, h, s) == Turn(h.(kernel := e.world), e.ok)
  {
    hide FlushOf, UnlessPresent, SilentOf, OwnedOf, DirectIpt, Checked, FirstTaken, FirstTakenOf, FirstEnsured, FirstEnsuredOf, IsBoxCustomChain;
    hide RebuildOf, IsLocalIp, Kept, AcceptPairs;
    var w, f, t := h.kernel, s.family, s.table;
    match s.op
    case EnsureChain(c) =>
      CalmSilent(refused, h, f, t, NewChain(c));
      CalmSilent(refused, h.(kernel := Silently(refused, w, f, t, NewChain(c))), f, t, Flush(c));
    case Rebuild(c, nets, restoring) =>
      if IsLocalIp(c) {
        CalmRebuild(refused, h, f, t, c, nets, restoring);
      } else {
        OnlyLocalIp(refused, h, f, t, c, nets, restoring);
      }
    case Sync(_) => CalmFlush(refused, h);
    case EnsureAppend(c, r) =>
      CalmUnlessPresent(refused, h, f, t, Append(c, r));
      CalmSilent(refused, h, f, t, Append(c, r));
    case EnsureInsert(c, r) => CalmUnlessPresent(refused, h, f, t, Insert(c, r));
    case EnsureJump(c, target) => CalmUnlessPresent(refused, h, f, t, Insert(c, Rule(Jump(target))));
    case DelRule(c, r) => CalmSilent(refused, h, f, t, Delete(c, r));
    case CleanupChain(c) =>
      CalmSilent(refused, h, f, t, Flush(c));
      CalmSilent(refused, h.(kernel := Silently(refused, w, f, t, Flush(c))), f, t, DeleteChain(c));
    case InsertFirst(c, rules, fallback) =>
      CalmFirstTaken(refused, h, f, t, c, rules, true);
      if fallback.Some? {
        var e := FirstTaken(refused, w, f, t, c, rules, true);
        FirstTakenFails(refused, w, f, t, c, rules);
        CalmUnlessPresent(refused, h.(kernel := e.world), f, t, Insert(c, fallback.value));
      }
    case AppendFirst(c, rules) => CalmFirstTaken(refused, h, f, t, c, rules, false);
    case EnsureFirst(c, rules) => CalmFirstEnsured(refused, h, f, t, c, rules);
  }

  lemma OnlyLocalIp(refused: set<Rule>, h: Held, f: Family, t: TableName, c: string, nets: seq<Net>, restoring: Restoring)
    requires !IsLocalIp(c)
    ensures RebuildOf(refused, h, f, t, c, nets, restoring) == Turn(h, false)
  {
  }

  /** Trying no variant at all does nothing. */
  predicate TriesNothing(op: Op) {
    match op
    case InsertFirst(_, rules, fallback) => rules == [] && fallback == None
    case AppendFirst(_, rules) => rules == []
    case EnsureFirst(_, rules) => rules == []
    case Rebuild(c, _, _) => !IsLocalIp(c)
    case _ => false
  }

  /** Commands start with a flush and depend on nothing else. */
  lemma SameFlush(refused: set<Rule>, h: Held, g: Held, f: Family, t: TableName, cmd: IptCmd)
    requires FlushOf(refused, h) == FlushOf(refused, g)
    ensures OwnedOf(refused, h, f, t, cmd) == OwnedOf(refused, g, f, t, cmd)
    ensures SilentOf(refused, h, f, t, cmd) == SilentOf(refused, g, f, t, cmd)
    ensures cmd.Append? || cmd.Insert? ==> UnlessPresent(refused, h, f, t, cmd) == UnlessPresent(refused, g, f, t, cmd)
  {
    hide FlushOf, Silently, Required, Checked;
  }

  lemma SameRebuild(refused: set<Rule>, h: Held, g: Held, f: Family, t: TableName, c: string, nets: seq<Net>, restoring: Restoring)
    requires IsLocalIp(c) && !Buffers(h, f) && !Buffers(g, f)
    requires SilentOf(refused, h, f, t, NewChain(c)) == SilentOf(refused, g, f, t, NewChain(c))
    ensures RebuildOf(refused, h, f, t, c, nets, restoring) == RebuildOf(refused, g, f, t, c, nets, restoring)
  {
    hide SilentOf, OwnedOf, FlushedTable, AppendsOf;
    if restoring == Unsupported {
      assert EnsureOf(refused, h, f, t, c) == EnsureOf(refused, g, f, t, c);
    }
  }

  /** Whatever is not noted down flushes before anything else. */
  lemma FlushesFirst(refused: set<Rule>, h: Held, s: Step)
    requires Sound(refused, h) && !Notes(h, s) && !TriesNothing(s.op)
    ensures PerformOf(refused, h, s) == PerformOf(refused, Settled(refused, h), s)
  {
    var g, f, t := Settled(refused, h), s.family, s.table;
    SoundFlush(refused, h);
    CalmFlush(refused, g);
    assert Buffers(g, f) == Buffers(h, f);
    hide FlushOf, Settled, OwnedOf, SilentOf, UnlessPresent, IsBoxCustomChain, Buffers, Sound, Calm, RebuildOf, IsLocalIp;
    hide Meaning, Done, AcceptPairs, FirstTakenOf, FirstEnsuredOf;
    match s.op
    case Rebuild(c, nets, restoring) =>
      SameFlush(refused, h, g, f, t, NewChain(c));
      SameRebuild(refused, h, g, f, t, c, nets, restoring);
    case Sync(_) =>
    case EnsureChain(c) => SameFlush(refused, h, g, f, t, NewChain(c));
    case EnsureAppend(c, r) => SameFlush(refused, h, g, f, t, Append(c, r));
    case EnsureInsert(c, r) => SameFlush(refused, h, g, f, t, Insert(c, r));
    case EnsureJump(c, target) => SameFlush(refused, h, g, f, t, Insert(c, Rule(Jump(target))));
    case DelRule(c, r) => SameFlush(refused, h, g, f, t, Delete(c, r));
    case CleanupChain(c) => SameFlush(refused, h, g, f, t, Flush(c));
    case _ => VariantsFlushFirst(refused, h, g, s);
  }

  lemma VariantsFlushFirst(refused: set<Rule>, h: Held, g: Held, s: Step)
    requires s.op.InsertFirst? || s.op.AppendFirst? || s.op.EnsureFirst?
    requires FlushOf(refused, h) == FlushOf(refused, g) && !TriesNothing(s.op)
    ensures PerformOf(refused, h, s) == PerformOf(refused, g, s)
  {
    var f, t := s.family, s.table;
    hide FlushOf, OwnedOf, SilentOf, UnlessPresent, IsBoxCustomChain;
    match s.op
    case InsertFirst(c, rules, fallback) =>
      if rules == [] {
        SameFlush(refused, h, g, f, t, Insert(c, fallback.value));
      } else {
        SameFlush(refused, h, g, f, t, Insert(c, rules[0]));
      }
    case AppendFirst(c, rules) => SameFlush(refused, h, g, f, t, Append(c, rules[0]));
    case EnsureFirst(c, rules) => SameFlush(refused, h, g, f, t, Append(c, rules[0]));
  }

  /** None of the rules of a rebuild is refused. */
  predicate Spared(refused: set<Rule>, op: Op) { op.Rebuild? ==> forall r | r in AcceptPairs(op.nets) :: r !in refused }

  /** Where recording an operation is the same as doing it. */
  predicate Agrees(refused: set<Rule>, h: Held, s: Step)
    requires Sound(refused, h)
  {
    Notes(h, s) ==>
      if s.op.EnsureChain? then
        var tb := Pending(h.batch.value, s.table);
        Known(tb, s.op.chain) || (s.table in TablesOf(h.kernel, s.family) && FirstUse(tb, s.op.chain))
      else if s.op.Rebuild? then
        && s.table in TablesOf(h.kernel, s.family) && FirstUse(Pending(h.batch.value, s.table), s.op.chain)
        && Spared(refused, s.op)
      else Direct(refused, Meaning(refused, h), s.family, s.table, s.op).ok
  }

  /** The meaning moves as the unbuffered operation moves the tables. */
  ghost predicate Does(refused: set<Rule>, h: Held, s: Step, o: Turn)
    requires Sound(refused, h)
  {
    && Tracks(h.batch, o.held.batch, EnsuredNow(h.batch, s), TouchedNow(h.batch, s))
    && Sound(refused, o.held)
    && Effect(Meaning(refused, o.held), o.ok) == AsRecorded(refused, Meaning(refused, h), h.batch, s)
  }

  // ----- a flush that fails -----

  /** The rules a replay gives a chain before it stops. */
  function Sent(refused: set<Rule>, chains: Chains, appends: seq<(string, Rule)>, c: string): seq<Rule>
    decreases |appends|
  {
    if appends == [] then [] else
      match Ipt(refused, chains, Append(appends[0].0, appends[0].1))
      case None => []
      case Some(next) => (if appends[0].0 == c then [appends[0].1] else []) + Sent(refused, next, appends[1..], c)
  }

  lemma {:induction false} ReachGives(refused: set<Rule>, chains: Chains, appends: seq<(string, Rule)>)
    ensures Reach(refused, chains, appends).Keys == chains.Keys
    ensures forall c :: c in chains ==> Reach(refused, chains, appends)[c] == chains[c] + Sent(refused, chains, appends, c)
    decreases |appends|
  {
    if appends != [] {
      var a, next := appends[0], Ipt(refused, chains, Append(appends[0].0, appends[0].1));
      if next.Some? {
        ReachGives(refused, next.value, appends[1..]);
        forall c | c in chains ensures Reach(refused, chains, appends)[c] == chains[c] + Sent(refused, chains, appends, c) {
          assert chains[c] + [a.1] + Sent(refused, next.value, appends[1..], c) == chains[c] + ([a.1] + Sent(refused, next.value, appends[1..], c));
        }
      }
    }
  }

  /** What a replay accepts depends on which chains there are, not on what they hold. */
  lemma {:induction false} SentByKeys(refused: set<Rule>, x: Chains, y: Chains, appends: seq<(string, Rule)>)
    requires x.Keys == y.Keys
    ensures Replay(refused, x, appends).Some? == Replay(refused, y, appends).Some?
    ensures forall c :: Sent(refused, x, appends, c) == Sent(refused, y, appends, c)
    decreases |appends|
  {
    if appends != [] {
      var cmd := Append(appends[0].0, appends[0].1);
      assert forall c :: c in x <==> c in y;
      if Ipt(refused, x, cmd).Some? {
        SentByKeys(refused, Ipt(refused, x, cmd).value, Ipt(refused, y, cmd).value, appends[1..]);
      }
    }
  }

  lemma {:induction false} DeclareGives(chains: Chains, decls: seq<string>)
    ensures Declare(chains, decls).Keys == chains.Keys + (set c | c in decls)
    ensures forall c :: c in decls ==> Declare(chains, decls)[c] == []
    ensures forall c :: c in chains && c !in decls ==> Declare(chains, decls)[c] == chains[c]
    decreases |decls|
  {
    if decls != [] {
      assert decls == [decls[0]] + decls[1..];
      DeclareGives(chains[decls[0] := []], decls[1..]);
    }
  }

  /**
   A table whose replay stopped, replayed again: it stops at the same append.  A
   chain declared in the record is made anew, one that was known before gets the
   rules sent to it a second time.
   */
  lemma StoppedAgain(refused: set<Rule>, chains: Chains, tb: TableBatch)
    requires Restored(refused, chains, tb).None?
    ensures var now := Reach(refused, Declare(chains, tb.decls), tb.appends);
      var again := Reach(refused, Declare(now, tb.decls), tb.appends);
      && Restored(refused, now, tb).None? && again.Keys == now.Keys
      && forall c :: c in now ==>
           again[c] == (if c in tb.decls then now[c] else now[c] + Sent(refused, Declare(chains, tb.decls), tb.appends, c))
  {
    var before := Declare(chains, tb.decls);
    var now := Reach(refused, before, tb.appends);
    var anew := Declare(now, tb.decls);
    DeclareGives(chains, tb.decls);
    ReachGives(refused, before, tb.appends);
    DeclareGives(now, tb.decls);
    assert anew.Keys == before.Keys;
    SentByKeys(refused, before, anew, tb.appends);
    ReachGives(refused, anew, tb.appends);
    hide Reach, Declare, Replay, Sent;
    forall c | c in now
      ensures Reach(refused, anew, tb.appends)[c] == (if c in tb.decls then now[c] else now[c] + Sent(refused, before, tb.appends, c))
    {
      assert c in anew;
    }
  }

  lemma TableFailsAgain(refused: set<Rule>, w: World, f: Family, t: TableName, tb: TableBatch)
    requires !FlushedTable(refused, w, f, t, tb).ok
    ensures !FlushedTable(refused, FlushedTable(refused, w, f, t, tb).world, f, t, tb).ok
  {
    if t in TablesOf(w, f) {
      StoppedAgain(refused, w[f][t], tb);
    }
  }

  /** A flush leaves alone what it has already dealt with. */
  lemma {:induction false} FlushOnwards(refused: set<Rule>, w: World, b: RuleBatch, i: nat)
    requires i <= 3
    ensures var o := FlushFrom(refused, w, b, i);
      && o.held.batch.Some? && o.held.batch.value.family == b.family && TablesOf(o.held.kernel, b.family).Keys == TablesOf(w, b.family).Keys
      && forall t :: !Later(t, i) ==> Pending(o.held.batch.value, t) == Pending(b, t)
    decreases 3 - i
  {
    if i < 3 {
      var t := FLUSH_ORDER[i];
      assert Later(t, i) && !Later(t, i + 1) && forall u :: u != t ==> Later(u, i) == Later(u, i + 1);
      if Idle(Pending(b, t)) {
        FlushOnwards(refused, w, b, i + 1);
      } else {
        var e := FlushedTable(refused, w, b.family, t, b.tables[t]);
        assert TablesOf(e.world, b.family).Keys == TablesOf(w, b.family).Keys;
        hide FlushedTable;
        FlushOnwards(refused, e.world, Recording(b, t, Done(b.tables[t])), i + 1);
      }
    }
  }

  lemma {:induction false} FlushFailsFrom(refused: set<Rule>, w: World, b: RuleBatch, i: nat)
    requires i <= 3 && !FlushFrom(refused, w, b, i).ok
    ensures var o := FlushFrom(refused, w, b, i).held;
      o.batch.Some? && var again := FlushFrom(refused, o.kernel, o.batch.value, i); !again.ok && again.held.batch == o.batch
    decreases 3 - i
  {
    hide FlushedTable, Done, Reach, Restored;
    var t := FLUSH_ORDER[i];
    assert !Later(t, i + 1);
    if Idle(Pending(b, t)) {
      FlushFailsFrom(refused, w, b, i + 1);
      FlushOnwards(refused, w, b, i + 1);
    } else {
      var e, next := FlushedTable(refused, w, b.family, t, b.tables[t]), Recording(b, t, Done(b.tables[t]));
      if e.ok {
        FlushFailsFrom(refused, e.world, next, i + 1);
        FlushOnwards(refused, e.world, next, i + 1);
        DoneMeans(b.tables[t]);
      } else {
        TableFailsAgain(refused, w, b.family, t, b.tables[t]);
      }
    }
  }

  /** A flush that failed fails again right away, and its record stays. */
  lemma FlushFailsAgain(refused: set<Rule>, h: Held)
    requires !FlushOf(refused, h).ok
    ensures var again := FlushOf(refused, FlushOf(refused, h).held);
      !again.ok && again.held.batch == FlushOf(refused, h).held.batch
  {
    FlushFailsFrom(refused, h.kernel, h.batch.value, 0);
  }

  /** A table after a flush from the `j`th on that stopped at the `i`th: those passed
      hold what was recorded, the one it stopped at what the replay got to, the
      others what they held. */
  function StoppedTable(refused: set<Rule>, chains: Chains, tb: TableBatch, t: TableName, j: nat, i: nat): Chains
    requires i < 3
  {
    if Later(t, j) && !Later(t, i) then Restored(refused, chains, tb).GetOr(chains)
    else if t == FLUSH_ORDER[i] then Reach(refused, Declare(chains, tb.decls), tb.appends)
    else chains
  }

  /** What a flush of the tables from the `j`th on has done when it stopped at the
      `i`th, and what it keeps for the next one. */
  ghost predicate StoppedAt(refused: set<Rule>, w: World, b: RuleBatch, j: nat, i: nat, o: Held) {
    && j <= i < 3 && o.batch.Some? && TablesOf(o.kernel, b.family).Keys == TablesOf(w, b.family).Keys
    && !FlushedTable(refused, w, b.family, FLUSH_ORDER[i], Pending(b, FLUSH_ORDER[i])).ok
    && (forall t :: t in TablesOf(w, b.family) ==>
          TablesOf(o.kernel, b.family)[t] == StoppedTable(refused, w[b.family][t], Pending(b, t), t, j, i))
    && (forall t :: Pending(o.batch.value, t) == if Later(t, j) && !Later(t, i) then Done(Pending(b, t)) else Pending(b, t))
  }

  lemma StoppedHere(refused: set<Rule>, w: World, b: RuleBatch, j: nat)
    requires j < 3
    requires !FlushedTable(refused, w, b.family, FLUSH_ORDER[j], Pending(b, FLUSH_ORDER[j])).ok
    ensures StoppedAt(refused, w, b, j, j, Held(FlushedTable(refused, w, b.family, FLUSH_ORDER[j], Pending(b, FLUSH_ORDER[j])).world, Some(b)))
  {
    hide Reach, Replay, Declare;
  }

  /** A flush has passed a table: nothing was pending for it, or it has been flushed. */
  ghost predicate Passed(refused: set<Rule>, w: World, b: RuleBatch, v: World, next: RuleBatch, u: TableName) {
    && next.family == b.family && TablesOf(v, b.family).Keys == TablesOf(w, b.family).Keys
    && (forall t :: t != u ==> Pending(next, t) == Pending(b, t))
    && (forall t :: t != u && t in TablesOf(w, b.family) ==> v[b.family][t] == w[b.family][t])
    && Pending(next, u) == Done(Pending(b, u))
    && (u in TablesOf(w, b.family) ==> Restored(refused, w[b.family][u], Pending(b, u)) == Some(v[b.family][u]))
  }

  lemma IdlePassed(refused: set<Rule>, w: World, b: RuleBatch, t: TableName)
    requires Idle(Pending(b, t))
    ensures Passed(refused, w, b, w, b, t)
  {
    DoneMeans(Pending(b, t));
  }

  lemma FlushedPassed(refused: set<Rule>, w: World, b: RuleBatch, t: TableName)
    requires FlushedTable(refused, w, b.family, t, Pending(b, t)).ok
    ensures Passed(refused, w, b, FlushedTable(refused, w, b.family, t, Pending(b, t)).world, Recording(b, t, Done(Pending(b, t))), t)
  {
    var tb := Pending(b, t);
    ReachWhole(refused, Declare(w[b.family][t], tb.decls), tb.appends);
    hide Reach, Replay, Declare, Done;
  }

  /** The tables behind the one passed. */
  lemma PassedTables(refused: set<Rule>, w: World, b: RuleBatch, v: World, next: RuleBatch, j: nat, i: nat, t: TableName)
    requires j < i < 3 && Passed(refused, w, b, v, next, FLUSH_ORDER[j]) && t in TablesOf(w, b.family)
    ensures t in TablesOf(v, b.family)
    ensures StoppedTable(refused, v[b.family][t], Pending(next, t), t, j + 1, i)
         == StoppedTable(refused, w[b.family][t], Pending(b, t), t, j, i)
  {
    var u := FLUSH_ORDER[j];
    assert Later(u, j) && !Later(u, j + 1) && !Later(u, i) && FLUSH_ORDER[i] != u;
    assert t != u ==> Later(t, j) == Later(t, j + 1);
    hide Reach, Replay, Declare, Done, Restored, Pending;
  }

  lemma StoppedLater(refused: set<Rule>, w: World, b: RuleBatch, v: World, next: RuleBatch, j: nat, i: nat, o: Held)
    requires j < 3 && StoppedAt(refused, v, next, j + 1, i, o) && Passed(refused, w, b, v, next, FLUSH_ORDER[j])
    ensures StoppedAt(refused, w, b, j, i, o)
  {
    var u, f := FLUSH_ORDER[j], b.family;
    assert Later(u, j) && !Later(u, j + 1) && forall t :: t != u ==> Later(t, j) == Later(t, j + 1);
    assert Later(FLUSH_ORDER[i], i) && FLUSH_ORDER[i] != u && !Later(u, i);
    hide Reach, Replay, Declare, Done, Restored, Pending, StoppedTable, Later;
    forall t | t in TablesOf(w, f)
      ensures TablesOf(o.kernel, f)[t] == StoppedTable(refused, w[f][t], Pending(b, t), t, j, i)
    {
      PassedTables(refused, w, b, v, next, j, i, t);
    }
  }

  lemma FlushUnfolds(refused: set<Rule>, w: World, b: RuleBatch, j: nat)
    requires j < 3
    ensures var t := FLUSH_ORDER[j];
      var e := FlushedTable(refused, w, b.family, t, Pending(b, t));
      FlushFrom(refused, w, b, j)
        == if Idle(Pending(b, t)) then FlushFrom(refused, w, b, j + 1)
           else if e.ok then FlushFrom(refused, e.world, Recording(b, t, Done(Pending(b, t))), j + 1)
           else Turn(Held(e.world, Some(b)), false)
  {
    hide FlushedTable, Done;
  }

  lemma {:induction false} FailedFlushFrom(refused: set<Rule>, w: World, b: RuleBatch, j: nat) returns (i: nat)
    requires j <= 3 && !FlushFrom(refused, w, b, j).ok
    ensures StoppedAt(refused, w, b, j, i, FlushFrom(refused, w, b, j).held)
    decreases 3 - j
  {
    assert j < 3;
    var t := FLUSH_ORDER[j];
    var e, next := FlushedTable(refused, w, b.family, t, Pending(b, t)), Recording(b, t, Done(Pending(b, t)));
    hide *;
    FlushUnfolds(refused, w, b, j);
    if Idle(Pending(b, t)) {
      IdlePassed(refused, w, b, t);
      i := FailedFlushFrom(refused, w, b, j + 1);
      StoppedLater(refused, w, b, w, b, j, i, FlushFrom(refused, w, b, j).held);
    } else if e.ok {
      FlushedPassed(refused, w, b, t);
      i := FailedFlushFrom(refused, e.world, next, j + 1);
      StoppedLater(refused, w, b, e.world, next, j, i, FlushFrom(refused, w, b, j).held);
    } else {
      i := j;
      StoppedHere(refused, w, b, j);
    }
  }

  /** A flush that fails has flushed the tables before some table, has replayed that
      table's record up to the command refused, and has touched nothing behind it. */
  lemma FailedFlush(refused: set<Rule>, w: World, b: RuleBatch) returns (i: nat)
    requires !FlushOf(refused, Held(w, Some(b))).ok
    ensures StoppedAt(refused, w, b, 0, i, FlushOf(refused, Held(w, Some(b))).held)
  {
    i := FailedFlushFrom(refused, w, b, 0);
  }

  lemma TracksTwice(a: Option<RuleBatch>, b: Option<RuleBatch>, c: Option<RuleBatch>, touched: set<Place>)
    requires Tracks(a, b, {}, touched) && Tracks(b, c, {}, touched)
    ensures Tracks(a, c, {}, touched)
  {
  }

  lemma TracksWider(a: Option<RuleBatch>, b: Option<RuleBatch>, ensured: set<Place>, touched: set<Place>)
    requires Tracks(a, b, {}, {}) || Tracks(a, b, {}, touched) || Tracks(a, b, ensured, touched)
    requires ensured <= touched && forall p :: p in ensured ==> IsLocalIp(p.1)
    ensures Tracks(a, b, ensured, touched) && Tracks(a, b, {}, touched)
  {
  }

  /** A session whose record means the tables `base` with the chain holding these rules. */
  ghost predicate Filling(refused: set<Rule>, h: Held, f: Family, t: TableName, c: string, base: World, held: seq<Rule>) {
    && Sound(refused, h) && Buffers(h, f) && t in TablesOf(base, f)
    && Meaning(refused, h) == Holds(base, f, t, c, held)
  }

  lemma AppendFills(refused: set<Rule>, h: Held, f: Family, t: TableName, c: string, base: World, held: seq<Rule>, r: Rule)
    requires Filling(refused, h, f, t, c, base, held) && IsBoxCustomChain(c) && !r.target.Jump? && r !in refused
    ensures var g := AppendOf(refused, h, f, t, c, r).held;
      Filling(refused, g, f, t, c, base, held + [r]) && Tracks(h.batch, g.batch, {}, {(t, c)})
  {
    var w, b := Meaning(refused, h), h.batch.value;
    HeldWith(Held(base, None), f, t, c, held);
    assert Direct(refused, w, f, t, EnsureAppend(c, r)) == Effect(Holds(w, f, t, c, held + [r]), true);
    HoldsTwice(base, f, t, c, held, held + [r]);
    hide Overlay, Replayable, DirectIpt, RecordAppend, FirstUse, IsBoxCustomChain, Direct, Known, Tracks, Holds;
    AppendRecorded(refused, h.kernel, b, t, c, r);
    RecordTracks(b, t, c, r);
  }

  /** Rules added to a chain that is there, all of them noted down. */
  lemma {:induction false} AppendsFill(refused: set<Rule>, h: Held, f: Family, t: TableName, c: string, base: World,
                                       held: seq<Rule>, rules: seq<Rule>)
    requires Filling(refused, h, f, t, c, base, held) && IsBoxCustomChain(c) && NoJumps(rules) && forall r :: r in rules ==> r !in refused
    ensures var g := AppendsOf(refused, h, f, t, c, rules);
      Filling(refused, g, f, t, c, base, held + rules) && Tracks(h.batch, g.batch, {}, {(t, c)})
    decreases |rules|
  {
    hide Filling, Tracks, AppendOf, IsBoxCustomChain, NoJumps;
    if rules == [] {
      TracksSelf(h.batch, {(t, c)});
      assert held + [] == held;
    } else {
      var g := AppendOf(refused, h, f, t, c, rules[0]).held;
      assert rules[0] in rules && forall q :: q in rules[1..] ==> q in rules;
      NoJumpsHead(rules);
      AppendFills(refused, h, f, t, c, base, held, rules[0]);
      AppendsFill(refused, g, f, t, c, base, held + [rules[0]], rules[1..]);
      TracksTwice(h.batch, g.batch, AppendsOf(refused, g, f, t, c, rules[1..]).batch, {(t, c)});
      assert held + [rules[0]] + rules[1..] == held + rules;
    }
  }

  lemma TracksSelf(b: Option<RuleBatch>, touched: set<Place>)
    ensures Tracks(b, b, {}, touched)
  {
  }

  lemma EnsureFills(refused: set<Rule>, h: Held, f: Family, t: TableName, c: string)
    requires Sound(refused, h) && Buffers(h, f) && IsBoxCustomChain(c) && t in TablesOf(h.kernel, f)
    requires FirstUse(Pending(h.batch.value, t), c)
    ensures var o := EnsureOf(refused, h, f, t, c);
      o.ok && Filling(refused, o.held, f, t, c, Meaning(refused, h), []) && Tracks(h.batch, o.held.batch, {}, {(t, c)})
  {
    var b := h.batch.value;
    MeaningTables(refused, h, f);
    EnsureRecorded(refused, h.kernel, b, t, c);
    RecordTracks(b, t, c, Rule(Return));
    DirectEnsureChain(refused, Meaning(refused, h), f, t, c);
    hide Overlay, Replayable, Direct, RecordChain, FirstUse, IsBoxCustomChain;
  }

  lemma RefillMeans(refused: set<Rule>, h: Held, f: Family, t: TableName, c: string, nets: seq<Net>)
    requires Sound(refused, h) && Buffers(h, f) && IsBoxCustomChain(c) && t in TablesOf(h.kernel, f)
    requires FirstUse(Pending(h.batch.value, t), c) && forall r :: r in AcceptPairs(nets) ==> r !in refused
    ensures var o := RefillOf(refused, h, f, t, c, nets);
      && o.ok && Sound(refused, o.held) && Tracks(h.batch, o.held.batch, {}, {(t, c)})
      && t in TablesOf(Meaning(refused, h), f) && Meaning(refused, o.held) == Holds(Meaning(refused, h), f, t, c, AcceptPairs(nets))
  {
    var rules, g := AcceptPairs(nets), EnsureOf(refused, h, f, t, c).held;
    hide EnsureOf, AppendsOf, Sound, Meaning, Tracks, FirstUse, IsBoxCustomChain, AcceptPairs, Holds;
    EnsureFills(refused, h, f, t, c);
    AppendsFill(refused, g, f, t, c, Meaning(refused, h), [], rules);
    TracksTwice(h.batch, g.batch, AppendsOf(refused, g, f, t, c, rules).batch, {(t, c)});
    assert [] + rules == rules;
  }

  /** The flush in front of a rebuild, and the chain it makes, mean nothing. */
  lemma PreparedMeans(refused: set<Rule>, h: Held, f: Family, t: TableName, c: string, restoring: Restoring, rules: seq<Rule>)
    requires Sound(refused, h) && Buffers(h, f) && t in TablesOf(h.kernel, f) && FirstUse(Pending(h.batch.value, t), c)
    ensures var g := Prepared(refused, h, f, t, c, restoring);
      && Sound(refused, g) && Buffers(g, f) && t in TablesOf(g.kernel, f) && FirstUse(Pending(g.batch.value, t), c)
      && Tracks(h.batch, g.batch, {}, {}) && t in TablesOf(Meaning(refused, h), f) && t in TablesOf(Meaning(refused, g), f)
      && Holds(Meaning(refused, g), f, t, c, rules) == Holds(Meaning(refused, h), f, t, c, rules)
      && (restoring != Unsupported ==> Calm(g) && Meaning(refused, g) == g.kernel)
  {
    var g, w := Prepared(refused, h, f, t, c, restoring), Meaning(refused, h);
    MeaningTables(refused, h, f);
    if restoring != Unsupported {
      SoundFlush(refused, h);
      DrainTracks(h.batch.value);
      assert g == Settled(refused, h).(kernel := Silently(refused, w, f, t, NewChain(c)));
      MadeFirst(refused, w, f, t, c, rules);
      hide FlushOf, Silently, Overlay, Replayable, Done;
      CalmIsSound(refused, g);
    } else {
      hide Sound, Meaning, FirstUse, Known;
    }
  }

  lemma RestoredMeans(refused: set<Rule>, g: Held, f: Family, t: TableName, c: string, rules: seq<Rule>)
    requires Calm(g) && t in TablesOf(g.kernel, f)
    ensures var o := g.(kernel := Holds(g.kernel, f, t, c, rules)); Sound(refused, o) && Meaning(refused, o) == o.kernel
  {
    CalmIsSound(refused, g.(kernel := Holds(g.kernel, f, t, c, rules)));
  }

  /** A rebuild in a session: past the record or through it, it means the chain filled. */
  lemma RebuildMeans(refused: set<Rule>, h: Held, f: Family, t: TableName, c: string, nets: seq<Net>, restoring: Restoring)
    requires Sound(refused, h) && Buffers(h, f) && IsLocalIp(c) && t in TablesOf(h.kernel, f)
    requires FirstUse(Pending(h.batch.value, t), c) && forall r :: r in AcceptPairs(nets) ==> r !in refused
    ensures Does(refused, h, Step(f, t, Rebuild(c, nets, restoring)), RebuildOf(refused, h, f, t, c, nets, restoring))
  {
    hide *;
    RebuildInSession(refused, h, f, t, c, nets, restoring);
    DirectRebuild(refused, Meaning(refused, h), f, t, c, nets, restoring);
    RebuildDoes(refused, h, f, t, c, nets, restoring, RebuildOf(refused, h, f, t, c, nets, restoring));
  }

  lemma DirectRebuild(refused: set<Rule>, w: World, f: Family, t: TableName, c: string, nets: seq<Net>, restoring: Restoring)
    requires IsLocalIp(c) && t in TablesOf(w, f) && forall r :: r in AcceptPairs(nets) ==> r !in refused
    ensures Direct(refused, w, f, t, Rebuild(c, nets, restoring)) == Effect(Holds(w, f, t, c, AcceptPairs(nets)), true)
  {
    AllKept(refused, AcceptPairs(nets));
    hide Kept, AcceptPairs, IsLocalIp;
  }

  lemma RebuildDoes(refused: set<Rule>, h: Held, f: Family, t: TableName, c: string, nets: seq<Net>, restoring: Restoring, o: Turn)
    requires Sound(refused, h) && Buffers(h, f) && IsLocalIp(c)
    requires o.ok && Sound(refused, o.held) && Tracks(h.batch, o.held.batch, {(t, c)}, {(t, c)})
    requires Direct(refused, Meaning(refused, h), f, t, Rebuild(c, nets, restoring)) == Effect(Meaning(refused, o.held), true)
    ensures Does(refused, h, Step(f, t, Rebuild(c, nets, restoring)), o)
  {
    hide Sound, Meaning, Tracks, Direct, IsLocalIp;
  }

  lemma RebuildInSession(refused: set<Rule>, h: Held, f: Family, t: TableName, c: string, nets: seq<Net>, restoring: Restoring)
    requires Sound(refused, h) && Buffers(h, f) && IsLocalIp(c) && t in TablesOf(h.kernel, f)
    requires FirstUse(Pending(h.batch.value, t), c) && forall r :: r in AcceptPairs(nets) ==> r !in refused
    ensures var o := RebuildOf(refused, h, f, t, c, nets, restoring);
      && o.ok && Sound(refused, o.held) && Tracks(h.batch, o.held.batch, {(t, c)}, {(t, c)})
      && t in TablesOf(Meaning(refused, h), f) && Meaning(refused, o.held) == Holds(Meaning(refused, h), f, t, c, AcceptPairs(nets))
  {
    var rules, g := AcceptPairs(nets), Prepared(refused, h, f, t, c, restoring);
    var o, p := RebuildOf(refused, h, f, t, c, nets, restoring), {(t, c)};
    LocalIpIsCustom(c);
    hide Sound, Meaning, FirstUse, IsBoxCustomChain, AcceptPairs, Tracks, Calm, Holds, FlushedTable, RefillOf, Prepared, IsLocalIp, TablesOf;
    PreparedMeans(refused, h, f, t, c, restoring, rules);
    WholeRestored(refused, g.kernel, f, t, c, nets);
    TracksWider(h.batch, g.batch, {}, p);
    if restoring == Working {
      RestoredMeans(refused, g, f, t, c, rules);
    } else {
      RefillMeans(refused, g, f, t, c, nets);
      TracksTwice(h.batch, g.batch, o.held.batch, p);
    }
    TracksWider(h.batch, o.held.batch, p, p);
  }

  lemma LocalIpIsCustom(c: string)
    requires IsLocalIp(c)
    ensures IsBoxCustomChain(c)
  {
  }

  lemma NotedMeans(refused: set<Rule>, h: Held, s: Step)
    requires Sound(refused, h) && Agrees(refused, h, s) && Notes(h, s)
    ensures Does(refused, h, s, PerformOf(refused, h, s))
  {
    var b, t := h.batch.value, s.table;
    hide Overlay, Replayable, DirectIpt, Tracks, RecordChain, RecordAppend, FirstUse, IsBoxCustomChain, TablesOf, Meant, RebuildOf;
    match s.op
    case EnsureChain(c) =>
      RecordTracks(b, t, c, Rule(Return));
      if Known(Pending(b, t), c) {
        KnownRecorded(b, t, c);
      } else {
        EnsureRecorded(refused, h.kernel, b, t, c);
      }
    case EnsureAppend(c, r) =>
      RecordTracks(b, t, c, r);
      AppendRecorded(refused, h.kernel, b, t, c, r);
    case Rebuild(c, nets, restoring) => RebuildMeans(refused, h, s.family, t, c, nets, restoring);
    case _ =>
  }

  /** Every operation moves the meaning as it moves the tables unbuffered, but for a
      second ensure of one chain, as long as what it records is accepted. */
  lemma PerformMeans(refused: set<Rule>, h: Held, s: Step)
    requires Sound(refused, h) && Agrees(refused, h, s)
    ensures Does(refused, h, s, PerformOf(refused, h, s))
  {
    if Notes(h, s) {
      NotedMeans(refused, h, s);
    } else if TriesNothing(s.op) {
      TriedNothing(refused, h, s);
    } else {
      FlushedMeans(refused, h, s);
    }
  }

  lemma TriedNothing(refused: set<Rule>, h: Held, s: Step)
    requires Sound(refused, h) && TriesNothing(s.op)
    ensures Does(refused, h, s, PerformOf(refused, h, s))
  {
    hide Sound, Meaning, IsBoxCustomChain;
  }

  lemma FlushedMeans(refused: set<Rule>, h: Held, s: Step)
    requires Sound(refused, h) && !Notes(h, s) && !TriesNothing(s.op)
    ensures Does(refused, h, s, PerformOf(refused, h, s))
  {
    var g := Settled(refused, h);
    var e := Direct(refused, g.kernel, s.family, s.table, s.op);
    SettledIs(refused, h, s);
    FlushesFirst(refused, h, s);
    SoundFlush(refused, h);
    hide *;
    CalmIsDirect(refused, g, s);
    AfterSettled(refused, h, s, e);
  }

  lemma SettledIs(refused: set<Rule>, h: Held, s: Step)
    requires Sound(refused, h)
    ensures Settled(refused, h).kernel == Meaning(refused, h) && Notes(Settled(refused, h), s) == Notes(h, s)
  {
    hide IsBoxCustomChain;
  }

  /** Behind a flush the record adds nothing to the tables, whatever happens to them. */
  lemma AfterSettled(refused: set<Rule>, h: Held, s: Step, e: Effect)
    requires Sound(refused, h) && !Notes(h, s) && e == Direct(refused, Meaning(refused, h), s.family, s.table, s.op)
    requires Calm(Settled(refused, h))
    ensures Does(refused, h, s, Turn(Settled(refused, h).(kernel := e.world), e.ok))
  {
    var g := Settled(refused, h).(kernel := e.world);
    CalmIsSound(refused, g);
    if h.batch.Some? {
      DrainTracks(h.batch.value);
    }
    hide Sound, Meaning, Direct, Drained, FirstUse, Known, IsBoxCustomChain, Calm;
  }

  // ----- sessions -----

  /** Chains of the session's family are ensured before they are appended to, and
      those that are rebuilt are made once. */
  predicate Tame(f: Family, steps: seq<Step>, used: set<Place>)
    decreases |steps|
  {
    steps == [] ||
    (&& (steps[0].op.EnsureAppend? ==> Touched(f, steps[0]) <= used)
     && (IsLocalIp(ChainOf(steps[0].op)) ==> Ensured(f, steps[0]) !! used)
     && Tame(f, steps[1..], used + Ensured(f, steps[0])))
  }

  /** And each of them only once. */
  predicate Orderly(f: Family, steps: seq<Step>, used: set<Place>)
    decreases |steps|
  {
    steps == [] ||
    (&& (steps[0].op.EnsureAppend? ==> Touched(f, steps[0]) <= used)
     && Ensured(f, steps[0]) !! used
     && Orderly(f, steps[1..], used + Ensured(f, steps[0])))
  }

  /** In a buffered session a second ensure of a chain is dropped. */
  function Sessional(refused: set<Rule>, w: World, f: Family, buffered: bool, used: set<Place>, s: Step): Effect {
    if buffered && s.op.EnsureChain? && Ensured(f, s) != {} && Ensured(f, s) <= used then Effect(w, true)
    else Direct(refused, w, s.family, s.table, s.op)
  }

  function SessionRun(refused: set<Rule>, w: World, f: Family, buffered: bool, used: set<Place>, steps: seq<Step>): World
    decreases |steps|
  {
    if steps == [] then w else
      SessionRun(refused, Sessional(refused, w, f, buffered, used, steps[0]).world, f, buffered, used + Ensured(f, steps[0]), steps[1..])
  }

  function SessionOks(refused: set<Rule>, w: World, f: Family, buffered: bool, used: set<Place>, steps: seq<Step>): seq<bool>
    decreases |steps|
  {
    if steps == [] then [] else
      var e := Sessional(refused, w, f, buffered, used, steps[0]);
      [e.ok] + SessionOks(refused, e.world, f, buffered, used + Ensured(f, steps[0]), steps[1..])
  }

  /** The operations a session would record succeed, and what it records of them is accepted. */
  predicate SessionAcceptable(refused: set<Rule>, w: World, f: Family, buffered: bool, used: set<Place>, steps: seq<Step>)
    decreases |steps|
  {
    steps == [] ||
    var e := Sessional(refused, w, f, buffered, used, steps[0]);
    && (Touched(f, steps[0]) != {} ==> e.ok && (buffered ==> Spared(refused, steps[0].op)))
    && SessionAcceptable(refused, e.world, f, buffered, used + Ensured(f, steps[0]), steps[1..])
  }

  // ----- unbuffered runs -----

  predicate Acceptable(refused: set<Rule>, w: World, f: Family, steps: seq<Step>)
    decreases |steps|
  {
    steps == [] ||
    var s := steps[0];
    var e := Direct(refused, w, s.family, s.table, s.op);
    && (Touched(f, s) != {} ==> e.ok)
    && Acceptable(refused, e.world, f, steps[1..])
  }

  /** No rebuild meets a refused rule. */
  predicate AllSpared(refused: set<Rule>, f: Family, steps: seq<Step>) {
    forall s | s in steps :: Touched(f, s) != {} ==> Spared(refused, s.op)
  }

  function DirectRun(refused: set<Rule>, w: World, steps: seq<Step>): World
    decreases |steps|
  {
    if steps == [] then w
    else DirectRun(refused, Direct(refused, w, steps[0].family, steps[0].table, steps[0].op).world, steps[1..])
  }

  function DirectOks(refused: set<Rule>, w: World, steps: seq<Step>): seq<bool>
    decreases |steps|
  {
    if steps == [] then [] else
      var e := Direct(refused, w, steps[0].family, steps[0].table, steps[0].op);
      [e.ok] + DirectOks(refused, e.world, steps[1..])
  }

  /** A session that ensures no chain twice, or is not buffered, is a direct run. */
  lemma {:induction false} OrderlyIsDirect(refused: set<Rule>, w: World, f: Family, buffered: bool, used: set<Place>, steps: seq<Step>)
    requires buffered ==> Orderly(f, steps, used)
    ensures SessionRun(refused, w, f, buffered, used, steps) == DirectRun(refused, w, steps)
    ensures SessionOks(refused, w, f, buffered, used, steps) == DirectOks(refused, w, steps)
    ensures SessionAcceptable(refused, w, f, buffered, used, steps)
         == (Acceptable(refused, w, f, steps) && (buffered ==> AllSpared(refused, f, steps)))
    ensures buffered ==> Tame(f, steps, used)
    decreases |steps|
  {
    hide Direct, Touched, Spared;
    if steps != [] {
      var s := steps[0];
      assert forall q :: q in steps <==> q == s || q in steps[1..];
      assert Sessional(refused, w, f, buffered, used, s) == Direct(refused, w, s.family, s.table, s.op);
      var e := Direct(refused, w, s.family, s.table, s.op);
      OrderlyIsDirect(refused, e.world, f, buffered, used + Ensured(f, s), steps[1..]);
    }
  }

  lemma StepLedger(f: Family, buffered: bool, before: Option<RuleBatch>, now: Option<RuleBatch>, used: set<Place>, s: Step)
    requires Ledger(f, buffered, before, used) && Tracks(before, now, EnsuredNow(before, s), TouchedNow(before, s))
    requires s.op.EnsureAppend? ==> Touched(f, s) <= used
    ensures Ledger(f, buffered, now, used + Ensured(f, s))
  {
    hide Notable;
    if buffered {
      TracksLedger(f, buffered, before, now, used, Ensured(f, s), Touched(f, s));
    }
  }

  // ----- whole sessions -----

  /** The next operation of a tame session whose record is accepted so far. */
  lemma AheadAgrees(refused: set<Rule>, h: Held, f: Family, buffered: bool, s: Step, used: set<Place>)
    requires Sound(refused, h) && Ledger(f, buffered, h.batch, used) && (s.op.EnsureAppend? ==> Touched(f, s) <= used)
    requires IsLocalIp(ChainOf(s.op)) ==> Ensured(f, s) !! used
    requires Touched(f, s) != {} ==>
      Sessional(refused, Meaning(refused, h), f, buffered, used, s).ok && (buffered ==> Spared(refused, s.op))
    ensures Agrees(refused, h, s)
    ensures AsRecorded(refused, Meaning(refused, h), h.batch, s) == Sessional(refused, Meaning(refused, h), f, buffered, used, s)
  {
    var w := Meaning(refused, h);
    if Notes(h, s) {
      var p := (s.table, s.op.chain);
      assert p in Touched(f, s);
      if (s.op.EnsureChain? || s.op.Rebuild?) && p !in used {
        MakingNeedsTable(refused, w, f, s);
        MeaningTables(refused, h, f);
      }
    }
    hide Direct, IsBoxCustomChain, IsLocalIp, Meaning, Sound, Spared;
  }

  lemma MakingNeedsTable(refused: set<Rule>, w: World, f: Family, s: Step)
    requires (s.op.EnsureChain? || s.op.Rebuild?) && Direct(refused, w, f, s.table, s.op).ok
    ensures s.table in TablesOf(w, f)
  {
    hide Kept, AcceptPairs;
  }

  lemma MeaningTables(refused: set<Rule>, h: Held, f: Family)
    requires Sound(refused, h)
    ensures TablesOf(Meaning(refused, h), f).Keys == TablesOf(h.kernel, f).Keys
  {
  }

  /** A tame session whose record is accepted does what the session semantics says. */
  lemma {:induction false} RunMeans(refused: set<Rule>, h: Held, f: Family, buffered: bool, steps: seq<Step>, used: set<Place>)
    requires Sound(refused, h) && Ledger(f, buffered, h.batch, used) && Tame(f, steps, used)
    requires SessionAcceptable(refused, Meaning(refused, h), f, buffered, used, steps)
    ensures Sound(refused, RunOf(refused, h, steps))
    ensures Meaning(refused, RunOf(refused, h, steps)) == SessionRun(refused, Meaning(refused, h), f, buffered, used, steps)
    ensures OksOf(refused, h, steps) == SessionOks(refused, Meaning(refused, h), f, buffered, used, steps)
    decreases |steps|
  {
    hide Direct, Sessional, Touched, PerformOf, AsRecorded, Sound, Meaning, Agrees, Tracks, Ledger, Ensured, Spared, IsLocalIp;
    if steps != [] {
      var s, o := steps[0], PerformOf(refused, h, steps[0]);
      AheadAgrees(refused, h, f, buffered, s, used);
      PerformMeans(refused, h, s);
      StepLedger(f, buffered, h.batch, o.held.batch, used, s);
      RunMeans(refused, o.held, f, buffered, steps[1..], used + Ensured(f, s));
    }
  }

  lemma OpenedSound(refused: set<Rule>, w: World, f: Family, buffered: bool)
    ensures var h := Opened(w, f, buffered);
      Calm(h) && Sound(refused, h) && Meaning(refused, h) == w && Ledger(f, buffered, h.batch, {})
  {
    CalmIsSound(refused, Opened(w, f, buffered));
  }

  lemma EndMeans(refused: set<Rule>, h: Held)
    requires Sound(refused, h)
    ensures EndOf(refused, h) == Turn(Held(Meaning(refused, h), None), true)
  {
    SoundFlush(refused, h);
  }

  /** What is only noted down is reported as done; the rest behaves as unbuffered. */
  lemma OrderlyStep(refused: set<Rule>, h: Held, f: Family, s: Step, used: set<Place>)
    requires Sound(refused, h) && Ledger(f, true, h.batch, used)
    requires (s.op.EnsureAppend? ==> Touched(f, s) <= used) && Ensured(f, s) !! used
    requires Touched(f, s) != {} ==> Spared(refused, s.op)
    ensures var e, o := Direct(refused, Meaning(refused, h), s.family, s.table, s.op), PerformOf(refused, h, s);
      if Touched(f, s) != {} && !e.ok then o.ok
      else Sound(refused, o.held) && Effect(Meaning(refused, o.held), o.ok) == e && Ledger(f, true, o.held.batch, used + Ensured(f, s))
  {
    hide Direct, Sound, Meaning, Ledger, PerformOf, IsBoxCustomChain, IsLocalIp, Agrees, Tracks, AsRecorded, Spared, Notable;
    var e := Direct(refused, Meaning(refused, h), s.family, s.table, s.op);
    if Touched(f, s) != {} && !e.ok {
      NotedOk(refused, h, f, used, s);
    } else {
      assert Sessional(refused, Meaning(refused, h), f, true, used, s) == e;
      AheadAgrees(refused, h, f, true, s, used);
      PerformMeans(refused, h, s);
      StepLedger(f, true, h.batch, PerformOf(refused, h, s).held.batch, used, s);
    }
  }

  lemma NotedOk(refused: set<Rule>, h: Held, f: Family, used: set<Place>, s: Step)
    requires Ledger(f, true, h.batch, used) && Touched(f, s) != {}
    ensures PerformOf(refused, h, s).ok
  {
    hide IsBoxCustomChain, FlushedTable, AppendsOf, AcceptPairs;
    match s.op
    case Rebuild(c, nets, restoring) =>
      LocalIpIsCustom(c);
      PreparedBuffers(refused, h, f, s.table, c, restoring);
    case _ =>
  }

  /** A session stays open through its flushes. */
  lemma FlushBuffers(refused: set<Rule>, h: Held, f: Family)
    ensures Buffers(FlushOf(refused, h).held, f) == Buffers(h, f)
  {
    if h.batch.Some? {
      FlushOnwards(refused, h.kernel, h.batch.value, 0);
    }
  }

  lemma PreparedBuffers(refused: set<Rule>, h: Held, f: Family, t: TableName, c: string, restoring: Restoring)
    ensures Buffers(Prepared(refused, h, f, t, c, restoring), f) == Buffers(h, f)
  {
    FlushBuffers(refused, h, f);
    hide FlushOf, Silently;
  }

  /**
   When a buffered session reports what unbuffered operations would report: exactly
   if the kernel takes everything it records.  What it refuses is reported as done
   and shows at the flush.
   */
  lemma {:induction false} OksAgreeExactly(refused: set<Rule>, h: Held, f: Family, steps: seq<Step>, used: set<Place>)
    requires Sound(refused, h) && Ledger(f, true, h.batch, used) && Orderly(f, steps, used) && AllSpared(refused, f, steps)
    ensures OksOf(refused, h, steps) == DirectOks(refused, Meaning(refused, h), steps)
      <==> Acceptable(refused, Meaning(refused, h), f, steps)
    decreases |steps|
  {
    if steps != [] {
      hide Direct, Sound, Meaning, Ledger, PerformOf, Touched, Ensured, Spared;
      var s, o := steps[0], PerformOf(refused, h, steps[0]);
      var w := Meaning(refused, h);
      assert s in steps && forall q :: q in steps[1..] ==> q in steps;
      var e := Direct(refused, w, s.family, s.table, s.op);
      OrderlyStep(refused, h, f, s, used);
      if Touched(f, s) != {} && !e.ok {
        assert OksOf(refused, h, steps)[0] != DirectOks(refused, w, steps)[0];
      } else {
        OksAgreeExactly(refused, o.held, f, steps[1..], used + Ensured(f, s));
        var x, y := OksOf(refused, o.held, steps[1..]), DirectOks(refused, e.world, steps[1..]);
        assert ([o.ok] + x)[1..] == x && ([e.ok] + y)[1..] == y;
      }
    }
  }

  /** From the start of a session. */
  lemma BufferUnnoticedExactly(refused: set<Rule>, w: World, f: Family, steps: seq<Step>)
    requires Orderly(f, steps, {})
    ensures var h := Opened(w, f, true);
      && (AllSpared(refused, f, steps) ==>
            (OksOf(refused, h, steps) == DirectOks(refused, w, steps) <==> Acceptable(refused, w, f, steps)))
      && (Acceptable(refused, w, f, steps) && AllSpared(refused, f, steps) ==>
            EndOf(refused, RunOf(refused, h, steps)) == Turn(Held(DirectRun(refused, w, steps), None), true))
  {
    OpenedSound(refused, w, f, true);
    OrderlyIsDirect(refused, w, f, true, {}, steps);
    hide *;
    if AllSpared(refused, f, steps) {
      OksAgreeExactly(refused, Opened(w, f, true), f, steps, {});
    }
    if Acceptable(refused, w, f, steps) && AllSpared(refused, f, steps) {
      RunMeans(refused, Opened(w, f, true), f, true, steps, {});
      EndMeans(refused, RunOf(refused, Opened(w, f, true), steps));
    }
  }

  /** A table with nothing but the chains named, all empty. */
  function Bare4(chains: Chains): World { map[V4 := map[Mangle := chains]] }

  function TwoChains(r: Rule): seq<Step> {
    [Step(V4, Mangle, EnsureChain("BOX_A")), Step(V4, Mangle, EnsureAppend("BOX_A", r)), Step(V4, Mangle, EnsureChain("BOX_B"))]
  }

  lemma TwoChainsParts(r: Rule)
    ensures TwoChains(r)[1..] == [TwoChains(r)[1], TwoChains(r)[2]] && TwoChains(r)[1..][1..] == [TwoChains(r)[2]]
    ensures TwoChains(r)[1..][1..][1..] == [] && TwoChains(r)[..2] == [TwoChains(r)[0], TwoChains(r)[1]]
    ensures [TwoChains(r)[0], TwoChains(r)[1]][1..] == [TwoChains(r)[1]] && [TwoChains(r)[1]][1..] == []
    ensures IsBoxCustomChain("BOX_A") && IsBoxCustomChain("BOX_B")
  {
    assert "BOX_A"[..4] == "BOX_" && "BOX_B"[..4] == "BOX_";
  }

  lemma EnsuredBare(refused: set<Rule>, chains: Chains, c: string)
    ensures Direct(refused, Bare4(chains), V4, Mangle, EnsureChain(c)) == Effect(Bare4(chains[c := []]), true)
  {
    DirectEnsureChain(refused, Bare4(chains), V4, Mangle, c);
    var next := chains[c := []];
    assert map[Mangle := chains][Mangle := next] == map[Mangle := next];
    assert map[V4 := map[Mangle := chains]][V4 := map[Mangle := next]] == map[V4 := map[Mangle := next]];
  }

  lemma TwoChainsDirect(r: Rule)
    ensures DirectOks({r}, Bare4(map[]), TwoChains(r)) == [true, false, true]
    ensures DirectRun({r}, Bare4(map[]), TwoChains(r)[..2]) == Bare4(map["BOX_A" := []])
  {
    var s, a, both := TwoChains(r), map["BOX_A" := []], map["BOX_A" := [], "BOX_B" := []];
    assert map[]["BOX_A" := []] == a && a["BOX_B" := []] == both;
    TwoChainsParts(r);
    EnsuredBare({r}, map[], "BOX_A");
    EnsuredBare({r}, a, "BOX_B");
    RefusedAppend(r, a);
    hide *;
    OneDirect({r}, Bare4(map[]), s);
    OneDirect({r}, Bare4(a), s[1..]);
    OneDirect({r}, Bare4(a), s[1..][1..]);
    OneDirect({r}, Bare4(both), s[1..][1..][1..]);
    OneDirect({r}, Bare4(map[]), s[..2]);
    OneDirect({r}, Bare4(a), s[..2][1..]);
    OneDirect({r}, Bare4(a), s[..2][1..][1..]);
    TwoChainsAre(r);
    assert [true] + ([false] + ([true] + [])) == [true, false, true];
  }

  lemma TwoChainsAre(r: Rule)
    ensures |TwoChains(r)| == 3
    ensures TwoChains(r)[0] == Step(V4, Mangle, EnsureChain("BOX_A"))
    ensures TwoChains(r)[1] == Step(V4, Mangle, EnsureAppend("BOX_A", r))
    ensures TwoChains(r)[2] == Step(V4, Mangle, EnsureChain("BOX_B"))
  {
  }

  lemma RefusedAppend(r: Rule, chains: Chains)
    ensures Direct({r}, Bare4(chains), V4, Mangle, EnsureAppend("BOX_A", r)) == Effect(Bare4(chains), false)
  {
    TwoChainsParts(r);
    hide IsBoxCustomChain;
  }

  lemma OneDirect(refused: set<Rule>, w: World, steps: seq<Step>)
    ensures steps == [] ==> DirectOks(refused, w, steps) == [] && DirectRun(refused, w, steps) == w
    ensures steps != [] ==>
      var e := Direct(refused, w, steps[0].family, steps[0].table, steps[0].op);
      && DirectOks(refused, w, steps) == [e.ok] + DirectOks(refused, e.world, steps[1..])
      && DirectRun(refused, w, steps) == DirectRun(refused, e.world, steps[1..])
  {
    hide Direct;
  }

  lemma OneHeld(refused: set<Rule>, h: Held, steps: seq<Step>)
    ensures steps == [] ==> OksOf(refused, h, steps) == [] && RunOf(refused, h, steps) == h
    ensures steps != [] ==>
      var o := PerformOf(refused, h, steps[0]);
      OksOf(refused, h, steps) == [o.ok] + OksOf(refused, o.held, steps[1..]) && RunOf(refused, h, steps) == RunOf(refused, o.held, steps[1..])
  {
    hide PerformOf;
  }

  lemma TwoChainsOrderly(r: Rule)
    ensures Orderly(V4, TwoChains(r), {})
  {
    TwoChainsParts(r);
    hide IsBoxCustomChain;
    var p: Place := (Mangle, "BOX_A");
    var s := TwoChains(r);
    assert Ensured(V4, s[0]) == {p} && Touched(V4, s[1]) == {p} && Ensured(V4, s[1]) == {} && "BOX_A"[4] != "BOX_B"[4];
    assert Orderly(V4, s[1..][1..][1..], {p} + {} + Ensured(V4, s[2]));
    assert Orderly(V4, s[1..][1..], {p} + {});
    assert {} + {p} == {p};
    assert Orderly(V4, s[1..], {p});
  }

  function TwoRecorded(decls: seq<string>, appends: seq<(string, Rule)>): Held {
    Held(Bare4(map[]), Some(RuleBatch(V4, map[Mangle := TableBatch(decls, {}, appends)])))
  }

  lemma TwoChainsHeld(r: Rule)
    ensures OksOf({r}, Opened(Bare4(map[]), V4, true), TwoChains(r)) == [true, true, true]
    ensures RunOf({r}, Opened(Bare4(map[]), V4, true), TwoChains(r)) == TwoRecorded(["BOX_A", "BOX_B"], [("BOX_A", r)])
  {
    TwoChainsParts(r);
    TwoChainsAre(r);
    var s, h := TwoChains(r), Opened(Bare4(map[]), V4, true);
    var h1, h2, h3 := TwoRecorded(["BOX_A"], []), TwoRecorded(["BOX_A"], [("BOX_A", r)]), TwoRecorded(["BOX_A", "BOX_B"], [("BOX_A", r)]);
    TwoChainsNoted(r);
    hide *;
    OneHeld({r}, h, s);
    OneHeld({r}, h1, s[1..]);
    OneHeld({r}, h2, s[1..][1..]);
    OneHeld({r}, h3, s[1..][1..][1..]);
    assert [true] + ([true] + ([true] + [])) == [true, true, true];
  }

  lemma TwoChainsNoted(r: Rule)
    ensures PerformOf({r}, Opened(Bare4(map[]), V4, true), TwoChains(r)[0]) == Turn(TwoRecorded(["BOX_A"], []), true)
    ensures PerformOf({r}, TwoRecorded(["BOX_A"], []), TwoChains(r)[1]) == Turn(TwoRecorded(["BOX_A"], [("BOX_A", r)]), true)
    ensures PerformOf({r}, TwoRecorded(["BOX_A"], [("BOX_A", r)]), TwoChains(r)[2])
         == Turn(TwoRecorded(["BOX_A", "BOX_B"], [("BOX_A", r)]), true)
  {
    TwoChainsParts(r);
    hide IsBoxCustomChain, FlushOf;
    assert [] + ["BOX_A"] == ["BOX_A"] && "BOX_A"[4] != "BOX_B"[4] && ["BOX_A"] + ["BOX_B"] == ["BOX_A", "BOX_B"];
    assert forall tb: TableBatch :: map[][Mangle := tb] == map[Mangle := tb];
    assert forall a: TableBatch, b: TableBatch :: map[Mangle := a][Mangle := b] == map[Mangle := b];
    assert [] + [("BOX_A", r)] == [("BOX_A", r)];
  }

  lemma TwoChainsFlushed(r: Rule)
    ensures EndOf({r}, TwoRecorded(["BOX_A", "BOX_B"], [("BOX_A", r)]))
         == Turn(Held(Bare4(map["BOX_A" := [], "BOX_B" := []]), None), false)
  {
    var tb := TableBatch(["BOX_A", "BOX_B"], {}, [("BOX_A", r)]);
    var a, two := map["BOX_A" := []], map["BOX_A" := [], "BOX_B" := []];
    assert ["BOX_A", "BOX_B"][1..] == ["BOX_B"] && ["BOX_B"][1..] == [];
    assert map[]["BOX_A" := []] == a && a["BOX_B" := []] == two;
    assert Declare(two, []) == two;
    assert Declare(a, ["BOX_B"]) == two;
    assert Declare(map[], tb.decls) == two;
    assert Reach({r}, two, tb.appends) == two && Replay({r}, two, tb.appends) == None;
    assert map[Mangle := map[]][Mangle := two] == map[Mangle := two];
    assert FlushedTable({r}, Bare4(map[]), V4, Mangle, tb) == Effect(Bare4(two), false);
    hide FlushedTable, Bare4;
    var b := RuleBatch(V4, map[Mangle := tb]);
    assert FlushFrom({r}, Bare4(map[]), b, 0) == FlushFrom({r}, Bare4(map[]), b, 1);
  }

  lemma TwoChainsSpared(r: Rule)
    ensures AllSpared({r}, V4, TwoChains(r))
  {
    hide Touched;
  }

  /**
   A rule refused: two chains are ensured, the first of them given the rule before
   the second is ensured.  Unbuffered the append fails, and an apply would stop
   there; in a session all three report success, the flush fails, and by then the
   second chain is there.
   */
  lemma RefusalSeenLate(r: Rule)
    ensures var steps, w := TwoChains(r), Bare4(map[]);
      && Orderly(V4, steps, {}) && !Acceptable({r}, w, V4, steps)
      && DirectOks({r}, w, steps) == [true, false, true]
      && DirectRun({r}, w, steps[..2]) == Bare4(map["BOX_A" := []])
      && OksOf({r}, Opened(w, V4, true), steps) == [true, true, true]
      && EndOf({r}, RunOf({r}, Opened(w, V4, true), steps)) == Turn(Held(Bare4(map["BOX_A" := [], "BOX_B" := []]), None), false)
  {
    hide *;
    TwoChainsOrderly(r);
    TwoChainsDirect(r);
    TwoChainsHeld(r);
    TwoChainsFlushed(r);
    TwoChainsSpared(r);
    BufferUnnoticedExactly({r}, Bare4(map[]), V4, TwoChains(r));
  }

  // ----- the manager -----

  ghost predicate OnlyCustom(tb: TableBatch) {
    && (forall c :: c in tb.decls ==> IsBoxCustomChain(c))
    && (forall a :: a in tb.appends ==> IsBoxCustomChain(a.0))
  }

  class RuleManager {
    var kernel: World
    var batch: Option<RuleBatch>
    const refused: set<Rule>

    constructor (kernel: World, refused: set<Rule>)
      requires forall f: Family :: f in kernel
      ensures Valid() && State() == Held(kernel, None) && this.refused == refused
    {
      this.kernel := kernel;
      this.refused := refused;
      batch := None;
    }

    function State(): Held
      reads this
    {
      Held(kernel, batch)
    }

    ghost predicate Valid()
      reads this
    {
      && (forall f: Family :: f in kernel)
      && (batch.Some? ==> forall t :: t in batch.value.tables ==> OnlyCustom(batch.value.tables[t]))
    }

    /** The meaning moved as the unbuffered operation moves the tables, if that is what recording comes to. */
    ghost predicate Moved(was: Held, s: Step, ok: bool)
      reads this
    {
      Sound(refused, was) && Agrees(refused, was, s) ==> Does(refused, was, s, Turn(State(), ok))
    }

    /** Open a session, unless restore is not to be had for this family. */
    method BeginBatch(f: Family, restoreSupported: bool)
      requires Valid() && batch == None
      modifies this`batch
      ensures Valid() && State() == Opened(old(kernel), f, restoreSupported)
    {
      if !restoreSupported {
        return;
      }
      batch := Some(RuleBatch(f, map[]));
    }

    method BatchRecordChain(f: Family, t: TableName, chain: string) returns (recorded: bool)
      requires Valid()
      modifies this`batch
      ensures Valid()
      ensures recorded == (IsBoxCustomChain(chain) && Buffers(old(State()), f))
      ensures State() == if recorded then ChainRecorded(old(State()), t, chain) else old(State())
    {
      if !IsBoxCustomChain(chain) || batch == None || batch.value.family != f {
        return false;
      }
      var tb := Pending(batch.value, t);
      if chain !in tb.declared && chain !in tb.decls {
        tb := tb.(decls := tb.decls + [chain]);
      }
      batch := Some(batch.value.(tables := batch.value.tables[t := tb]));
      return true;
    }

    method BatchRecordAppend(f: Family, t: TableName, chain: string, r: Rule) returns (recorded: bool)
      requires Valid() && IsBoxCustomChain(chain)
      modifies this`batch
      ensures Valid()
      ensures recorded == Buffers(old(State()), f)
      ensures State() == if recorded then AppendRecordedIn(old(State()), t, chain, r) else old(State())
    {
      if batch == None || batch.value.family != f {
        return false;
      }
      var tb := Pending(batch.value, t);
      batch := Some(batch.value.(tables := batch.value.tables[t := tb.(appends := tb.appends + [(chain, r)])]));
      return true;
    }

    /** Run one iptables command now, as the kernel sees the tables. */
    method RunIptables(f: Family, t: TableName, cmd: IptCmd) returns (ok: bool)
      requires Valid()
      modifies this`kernel
      ensures Valid()
      ensures Effect(kernel, ok) == Required(refused, old(kernel), f, t, cmd)
      ensures kernel == Silently(refused, old(kernel), f, t, cmd)
    {
      match DirectIpt(refused, kernel, f, t, cmd) {
        case None => return false;
        case Some(w) => kernel := w; return true;
      }
    }

    /** One atomic restore.  It may fail for reasons of its own; then nothing changed. */
    method RunRestore(f: Family, t: TableName, tb: TableBatch) returns (applied: bool)
      requires Valid()
      modifies this`kernel
      ensures Valid()
      ensures applied ==> t in old(kernel)[f] && Restored(refused, old(kernel)[f][t], tb).Some?
      ensures applied ==> kernel == WithTable(old(kernel), f, t, Restored(refused, old(kernel)[f][t], tb).value)
      ensures !applied ==> kernel == old(kernel)
    {
      var available: bool := *;
      if !available || t !in kernel[f] {
        return false;
      }
      match Restored(refused, kernel[f][t], tb) {
        case None => return false;
        case Some(chains) => kernel := WithTable(kernel, f, t, chains); return true;
      }
    }

    /** How far the nesting can go: inside a flush the slot is empty, so what is
        called from there goes straight to the kernel. */
    ghost function Slot(): nat
      reads this
    {
      if batch.Some? then 1 else 0
    }

    /** Put everything pending into the kernel, atomically where restore works. */
    method FlushBatch() returns (ok: bool)
      requires Valid()
      modifies this
      ensures Valid() && Turn(State(), ok) == FlushOf(refused, old(State()))
      ensures Sound(refused, old(State())) ==> ok && State() == Settled(refused, old(State()))
      decreases Slot(), 1
    {
      if Sound(refused, State()) {
        SoundFlush(refused, State());
      }
      hide Sound, Settled, FlushedTable, Restored, Done;
      if batch == None {
        return true;
      }
      var b := batch.value;
      var f := b.family;
      batch := None;
      ghost var b0, w := b, kernel;
      for i := 0 to 3
        invariant Valid() && batch == None && b.family == f
        invariant forall t :: t in b.tables ==> OnlyCustom(b.tables[t])
        invariant FlushFrom(refused, w, b0, 0) == FlushFrom(refused, kernel, b, i)
      {
        var t := FLUSH_ORDER[i];
        if t in b.tables && !Idle(b.tables[t]) {
          ok := FlushTable(f, t, b.tables[t]);
          if !ok {
            batch := Some(b);
            return;
          }
          DoneMeans(b.tables[t]);
          b := b.(tables := b.tables[t := Done(b.tables[t])]);
        }
      }
      batch := Some(b);
      return true;
    }

    /** One table of a flush: restore, or the same record one command at a time. */
    method FlushTable(f: Family, t: TableName, tb: TableBatch) returns (ok: bool)
      requires Valid() && batch == None && OnlyCustom(tb) && !Idle(tb)
      modifies this
      ensures Valid() && batch == None && Effect(kernel, ok) == FlushedTable(refused, old(kernel), f, t, tb)
      decreases 0, 6
    {
      ghost var w := kernel;
      ok := RunRestore(f, t, tb);
      if ok {
        ReachWhole(refused, Declare(w[f][t], tb.decls), tb.appends);
      } else {
        ok := ReplayDecls(f, t, tb.decls);
        if ok {
          ghost var v := kernel;
          ok := ReplayAppends(f, t, tb.appends);
          if t in w[f] {
            WithTableTwice(w, f, t, v[f][t], kernel[f][t]);
          }
        }
      }
    }

    method ReplayDecls(f: Family, t: TableName, decls: seq<string>) returns (ok: bool)
      requires Valid() && batch == None
      modifies this
      ensures Valid() && batch == None
      ensures t in old(kernel)[f] ==> ok && kernel == WithTable(old(kernel), f, t, Declare(old(kernel)[f][t], decls))
      ensures t !in old(kernel)[f] ==> ok == (decls == []) && kernel == old(kernel)
      decreases 0, 5
    {
      ghost var w := kernel;
      WithTableTwice(w, f, t, map[], map[]);
      for j := 0 to |decls|
        invariant Valid() && batch == None
        invariant t in w[f] ==> t in kernel[f] && kernel == WithTable(w, f, t, kernel[f][t])
        invariant t in w[f] ==> Declare(w[f][t], decls) == Declare(kernel[f][t], decls[j..])
        invariant t !in w[f] ==> j == 0 && kernel == w
      {
        ghost var before := kernel;
        assert decls[j..][1..] == decls[j + 1..];
        if t in w[f] {
          DirectEnsureChain(refused, before, f, t, decls[j]);
        }
        ok := EnsureChain(f, t, decls[j]);
        if t in w[f] {
          WithTableTwice(w, f, t, before[f][t], kernel[f][t]);
        }
        if !ok {
          return;
        }
      }
      return true;
    }

    method ReplayAppends(f: Family, t: TableName, appends: seq<(string, Rule)>) returns (ok: bool)
      requires Valid() && batch == None && forall a :: a in appends ==> IsBoxCustomChain(a.0)
      modifies this
      ensures Valid() && batch == None
      ensures t in old(kernel)[f] ==>
        ok == Replay(refused, old(kernel)[f][t], appends).Some? && kernel == WithTable(old(kernel), f, t, Reach(refused, old(kernel)[f][t], appends))
      ensures t !in old(kernel)[f] ==> ok == (appends == []) && kernel == old(kernel)
      decreases 0, 5
    {
      ghost var w := kernel;
      WithTableTwice(w, f, t, map[], map[]);
      for j := 0 to |appends|
        invariant Valid() && batch == None
        invariant t in w[f] ==> t in kernel[f] && kernel == WithTable(w, f, t, kernel[f][t])
        invariant t in w[f] ==> Reach(refused, w[f][t], appends) == Reach(refused, kernel[f][t], appends[j..])
        invariant t in w[f] ==> Replay(refused, w[f][t], appends).Some? == Replay(refused, kernel[f][t], appends[j..]).Some?
        invariant t !in w[f] ==> j == 0 && kernel == w
      {
        ghost var before := kernel;
        assert appends[j..][1..] == appends[j + 1..];
        ok := EnsureRuleAppend(f, t, appends[j].0, appends[j].1);
        if t in w[f] {
          WithTableTwice(w, f, t, before[f][t], kernel[f][t]);
        }
        if !ok {
          return;
        }
      }
      return true;
    }

    // ----- commands that flush first -----

    /** A required command. */
    method IptOwned(f: Family, t: TableName, cmd: IptCmd) returns (ok: bool)
      requires Valid()
      modifies this
      ensures Valid() && Turn(State(), ok) == OwnedOf(refused, old(State()), f, t, cmd)
      ensures old(batch) == None ==> batch == None
      decreases Slot(), 2
    {
      ok := FlushBatch();
      if !ok {
        return;
      }
      ok := RunIptables(f, t, cmd);
    }

    /** A command whose failure is ignored, as is that of the flush. */
    method IptSilent(f: Family, t: TableName, cmd: IptCmd)
      requires Valid()
      modifies this
      ensures Valid() && State() == SilentOf(refused, old(State()), f, t, cmd)
      ensures old(batch) == None ==> batch == None
      decreases Slot(), 2
    {
      var _ := FlushBatch();
      var _ := RunIptables(f, t, cmd);
    }

    /** Is the rule there?  A failed flush counts as no. */
    method IptCheck(f: Family, t: TableName, chain: string, r: Rule) returns (found: bool)
      requires Valid()
      modifies this
      ensures Valid() && Turn(State(), found) == CheckOf(refused, old(State()), f, t, chain, r)
      ensures old(batch) == None ==> batch == None
      decreases Slot(), 2
    {
      var ok := FlushBatch();
      return ok && Checked(kernel, f, t, chain, r);
    }

    /** An attempt whose failure the caller handles. */
    method IptTry(f: Family, t: TableName, cmd: IptCmd) returns (ok: bool)
      requires Valid()
      modifies this
      ensures Valid() && Turn(State(), ok) == OwnedOf(refused, old(State()), f, t, cmd)
    {
      ok := FlushBatch();
      if !ok {
        return;
      }
      ok := RunIptables(f, t, cmd);
    }

    // ----- the operations -----

    /** What `PerformOf` says of an operation, and what that means where the record is sound. */
    ghost predicate Performed(was: Held, s: Step, ok: bool)
      reads this
    {
      Turn(State(), ok) == PerformOf(refused, was, s) && Moved(was, s, ok)
    }

    lemma Performs(was: Held, s: Step, ok: bool)
      requires Turn(State(), ok) == PerformOf(refused, was, s)
      ensures Performed(was, s, ok)
      ensures Calm(was) && !Notes(was, s) ==>
        batch == was.batch && Effect(kernel, ok) == Direct(refused, was.kernel, s.family, s.table, s.op)
    {
      hide PerformOf, Does, Agrees, Sound, Calm, Notes;
      if Sound(refused, was) && Agrees(refused, was, s) {
        PerformMeans(refused, was, s);
      }
      if Calm(was) && !Notes(was, s) {
        CalmIsDirect(refused, was, s);
      }
    }

    method EnsureChain(f: Family, t: TableName, chain: string) returns (ok: bool)
      requires Valid()
      modifies this
      ensures Valid() && Performed(old(State()), Step(f, t, Op.EnsureChain(chain)), ok)
      ensures old(batch) == None ==> batch == None && Effect(kernel, ok) == Direct(refused, old(kernel), f, t, Op.EnsureChain(chain))
      decreases Slot(), 4
    {
      ghost var was := State();
      ok := BatchRecordChain(f, t, chain);
      hide FlushOf, IsBoxCustomChain, Performed, Direct, SilentOf, OwnedOf, ChainRecorded;
      if !ok {
        IptSilent(f, t, NewChain(chain));
        ok := IptOwned(f, t, Flush(chain));
      }
      Performs(was, Step(f, t, Op.EnsureChain(chain)), ok);
    }

    method EnsureRuleAppend(f: Family, t: TableName, chain: string, r: Rule) returns (ok: bool)
      requires Valid()
      modifies this
      ensures Valid() && Performed(old(State()), Step(f, t, EnsureAppend(chain, r)), ok)
      ensures old(batch) == None ==> batch == None && Effect(kernel, ok) == Direct(refused, old(kernel), f, t, EnsureAppend(chain, r))
      decreases Slot(), 4
    {
      ghost var was := State();
      if !IsBoxCustomChain(chain) {
        ok := AppendUnlessPresent(f, t, chain, r);
      } else {
        ok := BatchRecordAppend(f, t, chain, r);
        if !ok {
          ok := IptOwned(f, t, Append(chain, r));
        }
      }
      hide FlushOf, Performed, Direct, OwnedOf, AppendRecordedIn, IsBoxCustomChain;
      Performs(was, Step(f, t, EnsureAppend(chain, r)), ok);
    }

    /** A built-in chain is shared, so a rule it already holds is not added again. */
    method AppendUnlessPresent(f: Family, t: TableName, chain: string, r: Rule) returns (ok: bool)
      requires Valid()
      modifies this
      ensures Valid() && Turn(State(), ok) == UnlessPresent(refused, old(State()), f, t, Append(chain, r))
      decreases Slot(), 3
    {
      hide FlushOf, CheckOf, OwnedOf;
      ok := IptCheck(f, t, chain, r);
      if !ok {
        ok := IptOwned(f, t, Append(chain, r));
      }
    }

    method EnsureRuleInsert(f: Family, t: TableName, chain: string, r: Rule)
      requires Valid()
      modifies this
      ensures Valid() && Performed(old(State()), Step(f, t, EnsureInsert(chain, r)), true)
    {
      ghost var was := State();
      hide FlushOf, CheckOf, OwnedOf, Performed, Direct;
      var found := IptCheck(f, t, chain, r);
      if !found {
        var _ := IptOwned(f, t, Insert(chain, r));
      }
      Performs(was, Step(f, t, EnsureInsert(chain, r)), true);
    }

    method EnsureJump(f: Family, t: TableName, parent: string, target: string) returns (ok: bool)
      requires Valid()
      modifies this
      ensures Valid() && Performed(old(State()), Step(f, t, Op.EnsureJump(parent, target)), ok)
    {
      ghost var was := State();
      hide FlushOf, CheckOf, OwnedOf, Performed, Direct;
      ok := IptCheck(f, t, parent, Rule(Jump(target)));
      if !ok {
        ok := IptOwned(f, t, Insert(parent, Rule(Jump(target))));
      }
      Performs(was, Step(f, t, Op.EnsureJump(parent, target)), ok);
    }

    method DelRule(f: Family, t: TableName, chain: string, r: Rule)
      requires Valid()
      modifies this
      ensures Valid() && Performed(old(State()), Step(f, t, Op.DelRule(chain, r)), true)
    {
      ghost var was := State();
      IptSilent(f, t, Delete(chain, r));
      hide FlushOf, SilentOf, Performed, Direct;
      Performs(was, Step(f, t, Op.DelRule(chain, r)), true);
    }

    method CleanupChainFast(f: Family, t: TableName, chain: string)
      requires Valid()
      modifies this
      ensures Valid() && Performed(old(State()), Step(f, t, CleanupChain(chain)), true)
    {
      ghost var was := State();
      hide FlushOf, SilentOf, Performed, Direct;
      IptSilent(f, t, Flush(chain));
      IptSilent(f, t, DeleteChain(chain));
      Performs(was, Step(f, t, CleanupChain(chain)), true);
    }

    /** Variants tried in order until the kernel takes one. */
    method TryFirst(f: Family, t: TableName, chain: string, rules: seq<Rule>, front: bool) returns (ok: bool)
      requires Valid()
      modifies this
      ensures Valid() && Turn(State(), ok) == FirstTakenOf(refused, old(State()), f, t, chain, rules, front)
    {
      hide FlushOf, OwnedOf;
      ghost var was := State();
      for i := 0 to |rules|
        invariant Valid()
        invariant FirstTakenOf(refused, was, f, t, chain, rules, front) == FirstTakenOf(refused, State(), f, t, chain, rules[i..], front)
      {
        assert rules[i..][1..] == rules[i + 1..];
        ok := IptTry(f, t, if front then Insert(chain, rules[i]) else Append(chain, rules[i]));
        if ok {
          return;
        }
      }
      return false;
    }

    method AppendFirst(f: Family, t: TableName, chain: string, rules: seq<Rule>) returns (ok: bool)
      requires Valid()
      modifies this
      ensures Valid() && Performed(old(State()), Step(f, t, Op.AppendFirst(chain, rules)), ok)
    {
      ghost var was := State();
      hide FlushOf, FirstTakenOf, Performed, Direct;
      ok := TryFirst(f, t, chain, rules, false);
      Performs(was, Step(f, t, Op.AppendFirst(chain, rules)), ok);
    }

    method InsertFirst(f: Family, t: TableName, chain: string, rules: seq<Rule>, fallback: Option<Rule>) returns (ok: bool)
      requires Valid()
      modifies this
      ensures Valid() && Performed(old(State()), Step(f, t, Op.InsertFirst(chain, rules, fallback)), ok)
    {
      ghost var was := State();
      hide FlushOf, FirstTakenOf, UnlessPresent, Direct, Moved;
      ok := TryFirst(f, t, chain, rules, true);
      if !ok && fallback.Some? {
        EnsureRuleInsert(f, t, chain, fallback.value);
      }
      Performs(was, Step(f, t, Op.InsertFirst(chain, rules, fallback)), ok);
    }

    method EnsureFirst(f: Family, t: TableName, chain: string, rules: seq<Rule>) returns (ok: bool)
      requires Valid()
      modifies this
      ensures Valid() && Performed(old(State()), Step(f, t, Op.EnsureFirst(chain, rules)), ok)
    {
      ghost var was := State();
      ok := false;
      var i := 0;
      while i < |rules| && !ok
        invariant Valid() && 0 <= i <= |rules|
        invariant FirstEnsuredOf(refused, was, f, t, chain, rules)
               == if ok then Turn(State(), true) else FirstEnsuredOf(refused, State(), f, t, chain, rules[i..])
      {
        hide FlushOf, UnlessPresent;
        assert rules[i..][1..] == rules[i + 1..];
        ok := AppendUnlessPresent(f, t, chain, rules[i]);
        i := i + 1;
      }
      hide FlushOf, Performed, Direct;
      Performs(was, Step(f, t, Op.EnsureFirst(chain, rules)), ok);
    }

    // ----- the chain of the host's own networks -----

    /** The restore of a rebuild goes past the record, behind a flush of it. */
    method RebuildWithRestore(f: Family, t: TableName, chain: string, nets: seq<Net>, restoring: Restoring) returns (applied: bool)
      requires Valid()
      modifies this
      ensures Valid()
      ensures var g := Prepared(refused, old(State()), f, t, chain, restoring);
        var e := FlushedTable(refused, g.kernel, f, t, Whole(chain, nets));
        applied == (restoring == Working && e.ok) && State() == if applied then g.(kernel := e.world) else g
    {
      if restoring == Unsupported {
        return false;
      }
      IptSilent(f, t, NewChain(chain));
      if restoring == Failing || t !in kernel[f] {
        return false;
      }
      var tb := TableBatch([chain], {}, Tagged(chain, AcceptPairs(nets)));
      match Restored(refused, kernel[f][t], tb) {
        case None => return false;
        case Some(chains) =>
          ReachWhole(refused, Declare(kernel[f][t], tb.decls), tb.appends);
          kernel := WithTable(kernel, f, t, chains);
          return true;
      }
    }

    /** Both rules of a network are tried; one is enough. */
    method AppendLocalIpRuleset(f: Family, t: TableName, chain: string, net: Net) returns (ok: bool)
      requires Valid()
      modifies this
      ensures Valid() && Turn(State(), ok) == PairOf(refused, old(State()), f, t, chain, net)
    {
      hide AppendOf, FlushOf, Moved;
      var udp := EnsureRuleAppend(f, t, chain, NetPair(net)[0]);
      var rest := EnsureRuleAppend(f, t, chain, NetPair(net)[1]);
      return udp || rest;
    }

    /** The whole rebuild, and how many networks it serves and does not serve. */
    method RebuildLocalIpChain(f: Family, t: TableName, chain: string, nets: seq<Net>, restoring: Restoring)
      returns (counts: Option<(nat, nat)>)
      requires Valid() && IsLocalIp(chain)
      modifies this
      ensures Valid() && Turn(State(), counts.Some?) == RebuildOf(refused, old(State()), f, t, chain, nets, restoring)
      ensures counts.Some? ==> counts.value.0 + counts.value.1 == |nets|
      ensures counts.Some? ==> counts.value.0 == RebuildServes(refused, old(State()), f, t, chain, nets, restoring)
    {
      hide Prepared, FlushedTable, EnsureOf, AppendsOf, ServedOf, Moved, IsLocalIp;
      var applied := RebuildWithRestore(f, t, chain, nets, restoring);
      if applied {
        return Some((|nets|, 0));
      }
      var made := EnsureChain(f, t, chain);
      if !made {
        return None;
      }
      var served := AppendLocalIpRulesets(f, t, chain, nets);
      return Some((served, |nets| - served));
    }

    method AppendLocalIpRulesets(f: Family, t: TableName, chain: string, nets: seq<Net>) returns (served: nat)
      requires Valid()
      modifies this
      ensures Valid() && State() == AppendsOf(refused, old(State()), f, t, chain, AcceptPairs(nets))
      ensures served == ServedOf(refused, old(State()), f, t, chain, nets) && served <= |nets|
    {
      ghost var was := State();
      served := 0;
      assert nets[0..] == nets;
      for i := 0 to |nets|
        invariant Valid()
        invariant AppendsOf(refused, State(), f, t, chain, AcceptPairs(nets[i..])) == AppendsOf(refused, was, f, t, chain, AcceptPairs(nets))
        invariant served + ServedOf(refused, State(), f, t, chain, nets[i..]) == ServedOf(refused, was, f, t, chain, nets)
      {
        hide AppendsOf, PairOf, AcceptPairs;
        assert nets[i..][0] == nets[i] && nets[i..][1..] == nets[i + 1..];
        PairsOf(refused, State(), f, t, chain, nets[i..]);
        var ok := AppendLocalIpRuleset(f, t, chain, nets[i]);
        if ok {
          served := served + 1;
        }
      }
      assert nets[|nets|..] == [];
    }

    /** What a command of another program does to the record: the flush in front of it. */
    method FlushForCommand(required: bool) returns (ok: bool)
      requires Valid()
      modifies this
      ensures Valid() && Turn(State(), ok) == var o := FlushOf(refused, old(State())); Turn(o.held, o.ok || !required)
    {
      ok := FlushBatch();
      ok := ok || !required;
    }

    /** Close the session: flush and drop the record, whatever the flush says. */
    method EndBatch() returns (ok: bool)
      requires Valid()
      modifies this
      ensures Valid() && Turn(State(), ok) == EndOf(refused, old(State()))
    {
      ok := FlushBatch();
      batch := None;
    }

    method RebuildIfLocal(s: Step, c: string, nets: seq<Net>, restoring: Restoring) returns (ok: bool)
      requires Valid() && s.op == Rebuild(c, nets, restoring)
      modifies this
      ensures Valid() && Performed(old(State()), s, ok)
    {
      ghost var was := State();
      hide RebuildOf, Performed, Direct;
      ok := false;
      if IsLocalIp(c) {
        var counts := RebuildLocalIpChain(s.family, s.table, c, nets, restoring);
        ok := counts.Some?;
      } else {
        OnlyLocalIp(refused, was, s.family, s.table, c, nets, restoring);
      }
      Performs(was, s, ok);
    }

    method Settle(s: Step, required: bool) returns (ok: bool)
      requires Valid() && s.op == Sync(required)
      modifies this
      ensures Valid() && Performed(old(State()), s, ok)
    {
      ghost var was := State();
      ok := FlushForCommand(required);
      hide FlushOf, Performed, Direct;
      Performs(was, s, ok);
    }

    method Perform(s: Step) returns (ok: bool)
      requires Valid()
      modifies this
      ensures Valid() && Performed(old(State()), s, ok)
    {
      hide *;
      ok := true;
      match s.op {
        case EnsureChain(c) => ok := EnsureChain(s.family, s.table, c);
        case EnsureAppend(c, r) => ok := EnsureRuleAppend(s.family, s.table, c, r);
        case EnsureInsert(c, r) => EnsureRuleInsert(s.family, s.table, c, r);
        case EnsureJump(c, target) => ok := EnsureJump(s.family, s.table, c, target);
        case DelRule(c, r) => DelRule(s.family, s.table, c, r);
        case CleanupChain(c) => CleanupChainFast(s.family, s.table, c);
        case InsertFirst(c, rules, fallback) => ok := InsertFirst(s.family, s.table, c, rules, fallback);
        case AppendFirst(c, rules) => ok := AppendFirst(s.family, s.table, c, rules);
        case EnsureFirst(c, rules) => ok := EnsureFirst(s.family, s.table, c, rules);
        case Rebuild(c, nets, restoring) => ok := RebuildIfLocal(s, c, nets, restoring);
        case Sync(required) => ok := Settle(s, required);
      }
    }

    /**
     A whole session, buffered where restore is supported.  Whatever the kernel
     refuses and however restore behaves, results and tables are those of `OksOf`,
     `RunOf` and `EndOf`.  If chains are ensured before they are appended to and
     what is recorded is accepted, they are those of the session semantics.
     */
    method RunSession(f: Family, restoreSupported: bool, steps: seq<Step>) returns (oks: seq<bool>, flushed: bool)
      requires Valid() && batch == None
      modifies this
      ensures Valid() && oks == OksOf(refused, Opened(old(kernel), f, restoreSupported), steps)
      ensures Turn(State(), flushed) == EndOf(refused, RunOf(refused, Opened(old(kernel), f, restoreSupported), steps))
      ensures Tame(f, steps, {}) && SessionAcceptable(refused, old(kernel), f, restoreSupported, {}, steps) ==>
        && oks == SessionOks(refused, old(kernel), f, restoreSupported, {}, steps)
        && Turn(State(), flushed) == Turn(Held(SessionRun(refused, old(kernel), f, restoreSupported, {}, steps), None), true)
    {
      ghost var w, h := kernel, Opened(kernel, f, restoreSupported);
      OpenedSound(refused, w, f, restoreSupported);
      hide *;
      if Tame(f, steps, {}) && SessionAcceptable(refused, w, f, restoreSupported, {}, steps) {
        RunMeans(refused, h, f, restoreSupported, steps, {});
        EndMeans(refused, RunOf(refused, h, steps));
      }
      BeginBatch(f, restoreSupported);
      oks := RunSteps(steps);
      flushed := EndBatch();
    }

    method RunSteps(steps: seq<Step>) returns (oks: seq<bool>)
      requires Valid()
      modifies this
      ensures Valid() && oks == OksOf(refused, old(State()), steps) && State() == RunOf(refused, old(State()), steps)
    {
      hide PerformOf, Moved;
      ghost var was := State();
      oks := [];
      assert steps[0..] == steps;
      for i := 0 to |steps|
        invariant Valid()
        invariant oks + OksOf(refused, State(), steps[i..]) == OksOf(refused, was, steps)
        invariant RunOf(refused, State(), steps[i..]) == RunOf(refused, was, steps)
      {
        hide *;
        OneHeld(refused, State(), steps[i..]);
        assert steps[i..][0] == steps[i] && steps[i..][1..] == steps[i + 1..];
        var ok := Perform(steps[i]);
        assert oks + ([ok] + OksOf(refused, State(), steps[i + 1..])) == oks + [ok] + OksOf(refused, State(), steps[i + 1..]);
        oks := oks + [ok];
      }
      assert steps[|steps|..] == [];
    }
  }
}
