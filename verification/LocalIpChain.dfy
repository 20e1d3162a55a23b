/**
 Rebuilding the chain of the host's own networks: one restore past the record where
 it works, otherwise the same rules one command at a time, skipping those the kernel
 refuses.  Outside a session every way leaves the same chain and reports the same
 counts: the accepted rules, in order, and nothing of what the chain held before.
 Within a session the fallback is only noted down, and reports every network served.
 */
module LocalIpChain {
  import opened Bytes
  import opened Netfilter
  import opened Batching

  /** Networks of which at least one rule is accepted. */
  function Served(refused: set<Rule>, nets: seq<Net>): (n: nat)
    ensures n <= |nets|
  {
    if nets == [] then 0
    else (if Kept(refused, NetPair(nets[0])) == [] then 0 else 1) + Served(refused, nets[1..])
  }

  lemma KeptPair(refused: set<Rule>, a: Rule, b: Rule)
    ensures Kept(refused, [a, b]) == (if a in refused then [] else [a]) + (if b in refused then [] else [b])
  {
    assert [a, b][1..] == [b] && [b][1..] == [];
    assert Kept(refused, [b]) == (if b in refused then [] else [b]) + Kept(refused, []);
  }

  lemma {:induction false} AllServed(refused: set<Rule>, nets: seq<Net>)
    requires forall r :: r in AcceptPairs(nets) ==> r !in refused
    ensures Served(refused, nets) == |nets|
    decreases |nets|
  {
    if nets != [] {
      var pair := NetPair(nets[0]);
      assert forall r :: r in pair + AcceptPairs(nets[1..]) <==> r in pair || r in AcceptPairs(nets[1..]);
      AllKept(refused, pair);
      AllServed(refused, nets[1..]);
    }
  }

  /** One rule tried with nothing pending. */
  lemma CalmTry(refused: set<Rule>, h: Held, f: Family, t: TableName, c: string, r: Rule)
    requires Calm(h) && !Buffers(h, f) && IsBoxCustomChain(c) && !r.target.Jump? && t in TablesOf(h.kernel, f) && c in h.kernel[f][t]
    ensures var o := AppendOf(refused, h, f, t, c, r);
      && o.ok == (r !in refused)
      && Calm(o.held) && !Buffers(o.held, f) && t in TablesOf(o.held.kernel, f) && c in o.held.kernel[f][t]
  {
    CalmSilent(refused, h, f, t, Append(c, r));
    CalmAppend(refused, h, f, t, c, r);
    HeldWith(h, f, t, c, h.kernel[f][t][c] + if r in refused then [] else [r]);
    hide FlushOf, IsBoxCustomChain, SilentOf, OwnedOf, Holds, Calm;
  }

  lemma {:induction false} CalmServed(refused: set<Rule>, h: Held, f: Family, t: TableName, c: string, nets: seq<Net>)
    requires Calm(h) && !Buffers(h, f) && IsBoxCustomChain(c) && t in TablesOf(h.kernel, f) && c in h.kernel[f][t]
    ensures ServedOf(refused, h, f, t, c, nets) == Served(refused, nets)
    decreases |nets|
  {
    if nets != [] {
      var udp, rest := NetPair(nets[0])[0], NetPair(nets[0])[1];
      assert NetPair(nets[0]) == [udp, rest] && !udp.target.Jump? && !rest.target.Jump?;
      KeptPair(refused, udp, rest);
      hide AppendOf, Calm, Buffers, IsBoxCustomChain, NetPair;
      CalmTry(refused, h, f, t, c, udp);
      CalmTry(refused, AppendOf(refused, h, f, t, c, udp).held, f, t, c, rest);
      CalmServed(refused, PairOf(refused, h, f, t, c, nets[0]).held, f, t, c, nets[1..]);
    }
  }

  /** Noted down, every rule counts as taken. */
  lemma {:induction false} NotedServed(refused: set<Rule>, h: Held, f: Family, t: TableName, c: string, nets: seq<Net>)
    requires Buffers(h, f) && IsBoxCustomChain(c)
    ensures ServedOf(refused, h, f, t, c, nets) == |nets|
    decreases |nets|
  {
    hide IsBoxCustomChain;
    if nets != [] {
      NotedServed(refused, PairOf(refused, h, f, t, c, nets[0]).held, f, t, c, nets[1..]);
    }
  }

  /**
   Outside a session.  Whether restore is supported, fails or works cannot be told
   from the chain the rebuild leaves or from the counts it reports.
   */
  lemma RebuildOutside(refused: set<Rule>, w: World, f: Family, t: TableName, c: string, nets: seq<Net>, restoring: Restoring)
    requires IsLocalIp(c)
    ensures var o := RebuildOf(refused, Held(w, None), f, t, c, nets, restoring);
      if t in TablesOf(w, f)
      then o == Turn(Held(Holds(w, f, t, c, Kept(refused, AcceptPairs(nets))), None), true)
           && RebuildServes(refused, Held(w, None), f, t, c, nets, restoring) == Served(refused, nets)
      else o == Turn(Held(w, None), false)
  {
    var h := Held(w, None);
    hide AcceptPairs, Kept, Holds, RebuildOf;
    CalmRebuild(refused, h, f, t, c, nets, restoring);
    if t in TablesOf(w, f) {
      OutsideServes(refused, w, f, t, c, nets, restoring);
    }
  }

  lemma OutsideServes(refused: set<Rule>, w: World, f: Family, t: TableName, c: string, nets: seq<Net>, restoring: Restoring)
    requires IsLocalIp(c) && t in TablesOf(w, f)
    ensures RebuildServes(refused, Held(w, None), f, t, c, nets, restoring) == Served(refused, nets)
  {
    var h := Held(w, None);
    var g := Prepared(refused, h, f, t, c, restoring);
    LocalIpIsCustom(c);
    CalmSilent(refused, h, f, t, NewChain(c));
    MadeFirst(refused, w, f, t, c, []);
    WholeRestored(refused, g.kernel, f, t, c, nets);
    assert Calm(g) && !Buffers(g, f) && t in TablesOf(g.kernel, f);
    hide AcceptPairs, Kept, FlushedTable, SilentOf, IsBoxCustomChain, IsLocalIp, Calm, ServedOf, Served;
    if FlushedTable(refused, g.kernel, f, t, Whole(c, nets)).ok {
      AllServed(refused, nets);
    }
    CalmEnsure(refused, g, f, t, c);
    DirectEnsureChain(refused, g.kernel, f, t, c);
    HeldWith(g, f, t, c, []);
    CalmServed(refused, EnsureOf(refused, g, f, t, c).held, f, t, c, nets);
  }

  /** Within a session of the family a rebuild never fails and reports every network
      served, whatever the kernel will say of the rules. */
  lemma RebuildInside(refused: set<Rule>, h: Held, f: Family, t: TableName, c: string, nets: seq<Net>, restoring: Restoring)
    requires IsLocalIp(c) && Buffers(h, f)
    ensures RebuildOf(refused, h, f, t, c, nets, restoring).ok
    ensures RebuildServes(refused, h, f, t, c, nets, restoring) == |nets|
  {
    var g := Prepared(refused, h, f, t, c, restoring);
    LocalIpIsCustom(c);
    PreparedBuffers(refused, h, f, t, c, restoring);
    hide Prepared, FlushedTable, IsBoxCustomChain, ServedOf, AppendsOf;
    NotedServed(refused, EnsureOf(refused, g, f, t, c).held, f, t, c, nets);
  }
}
