/**
 The policies the chains are proved to follow are the ones intended.
 */
module Agreement {
  import opened Bytes
  import opened Netfilter
  import opened Batching
  import opened RuleConfig
  import opened RuleScripts
  import opened ChainContents
  import opened ExternalPolicy
  import opened FastPolicy
  import opened FastLocal
  import opened LocalPolicy
  import opened TunPolicy
  import opened SetupContents
  import opened InstalledPolicy
  import opened TeardownModes
  import opened Hooks
  import opened SetupHooks
  import opened DnsPolicy
  import Intent

  // ----- destinations and senders -----

  lemma ListsAgree(c: Config, f: Family, p: Packet)
    ensures InAny(Subnets(c, f), p.dst) == Intent.InList(if f == V4 then c.subnets4 else c.subnets6, p.dst)
    ensures DnsOverUdp(p) == Intent.QueryOverUdp(p)
  {
    hide InNet;
  }

  lemma OwnNetsAgree(refused: set<Rule>, c: Config, f: Family, p: Packet)
    ensures LocalHit(refused, c, f, p) == Intent.OwnNet(refused, c, f, p)
  {
    hide InNet;
    assert forall n: Net :: PairRule(n, p) == Intent.OwnNetRule(n, p);
    hide PairRule, Intent.OwnNetRule;
  }

  lemma IngressAgrees(c: Config, p: Packet)
    ensures AnyIface(c.blockedIfs, p.inIf) == Intent.OnInterface(c.blockedIfs, p)
    ensures AnyIface(c.hotspotIfs, p.inIf) == Intent.OnInterface(c.hotspotIfs, p)
    ensures IngressAllowed(c, p) == Intent.Admitted(c, p)
  {
    hide IfMatches;
  }

  /** The two sorts of chains, by the copy of the CIDR program they use. */
  predicate Ingress(chain: string, f: Family) { chain == EXTERNAL || chain == TunPreChain(f) || chain == TP_PRE_IP }

  predicate Egress(chain: string, f: Family) { chain == LOCAL || chain == TunOutChain(f) || chain == TP_OUT_IP }

  lemma IngressProgram(chain: string, f: Family)
    requires Ingress(chain, f)
    ensures UsesPreroutingProgram(chain)
  {
    if chain == TP_PRE_IP {
      var s := TP_PRE_IP;
      assert Contains(s[6..], "_PRE_");
      assert Contains(s[5..], "_PRE_") && Contains(s[4..], "_PRE_") && Contains(s[3..], "_PRE_");
      assert Contains(s[2..], "_PRE_") && Contains(s[1..], "_PRE_") && Contains(s, "_PRE_");
    }
  }

  lemma EgressProgram(chain: string, f: Family)
    requires Egress(chain, f)
    ensures !UsesPreroutingProgram(chain)
  {
    assert chain !in {"BOX_EXTERNAL", "BOX_TUN_BYPASS_PRE", "BOX_TUN_BYPASS6_PRE"} && chain[|chain| - 1] != 'E';
    assert forall i :: 0 <= i < |chain| - 1 && chain[i] == '_' ==> chain[i + 1] != 'P';
    hide Contains, EndsWith;
    NoPrePart(chain);
    NoPreEnd(chain);
  }

  lemma CnTestAgrees(c: Config, k: Capabilities, f: Family)
    ensures CnipEnabled(c, k, f) == Intent.CnTested(c, k, f)
  {
  }

  lemma ProgramAgrees(env: Env, c: Config, k: Capabilities, f: Family, chain: string, ingress: bool, p: Packet)
    requires UsesPreroutingProgram(chain) == ingress
    ensures CnDestination(env, c, k, f, chain, p) == Intent.ToCn(env, c, k, f, ingress, p)
  {
    CnTestAgrees(c, k, f);
    hide UsesPreroutingProgram, CnipEnabled, Intent.CnTested;
  }

  lemma CnAgrees(env: Env, c: Config, k: Capabilities, f: Family, chain: string, p: Packet)
    requires Ingress(chain, f) || Egress(chain, f)
    ensures CnDestination(env, c, k, f, chain, p) == Intent.ToCn(env, c, k, f, Ingress(chain, f), p)
    ensures CnipEnabled(c, k, f) == Intent.CnTested(c, k, f)
  {
    hide *;
    CnTestAgrees(c, k, f);
    if Ingress(chain, f) {
      IngressProgram(chain, f);
    } else {
      EgressProgram(chain, f);
    }
    ProgramAgrees(env, c, k, f, chain, Ingress(chain, f), p);
  }

  lemma SparedAgrees(env: Env, c: Config, k: Capabilities, f: Family, chain: string, p: Packet)
    requires Ingress(chain, f) || Egress(chain, f)
    ensures Bypassed(env, c, k, f, chain, p) == Intent.Spared(env, c, k, f, Ingress(chain, f), p)
  {
    CnAgrees(env, c, k, f, chain, p);
    ListsAgree(c, f, p);
    hide CnDestination, Intent.ToCn, InAny, Intent.InList, Ingress, Egress;
  }

  lemma LocalIsEgress(f: Family)
    ensures Egress(LOCAL, f) && !Ingress(LOCAL, f)
  {
  }

  lemma ForcedAgrees(env: Env, c: Config, k: Capabilities, x: Context, f: Family, p: Packet)
    ensures ForcedHit(env, c, k, x, f, p) == Intent.Forced(env, c, k, x, f, p)
  {
    LocalIsEgress(f);
    CnAgrees(env, c, k, f, LOCAL, p);
    assert Intent.ToCn(env, c, k, f, false, p) && c.cnipMode == ByIpset ==> env.inSet(if f == V4 then "cnip" else "cnip6", p.dst);
    hide Ingress, Egress, CnDestination, CnipEnabled;
  }

  lemma SelectedAgrees(c: Config, k: Capabilities, x: Context, p: Packet)
    ensures Selected(c, x, p) == Intent.Chosen(c, x, p)
    ensures (p.reply && ConntrackEnabled(c, k)) == Intent.Replies(c, k, p)
    ensures ProtoEnabled(c, p) == Intent.Handled(c, p)
    ensures LocalEnabled(c, ActMark, p) == Intent.Handled(c, p)
    ensures LocalEnabled(c, ActRedirect, p) == (p.proto == Tcp && c.proxyTcp)
  {
  }

  lemma QueriesAgree(c: Config, f: Family, p: Packet)
    ensures DnsReturned(c, p) == Intent.QueryLeft(c, p)
    ensures DnsMarked(c, p) == Intent.QueryHandled(c, p)
    ensures FakeIpMarked(c, f, p) == Intent.FakeHandled(c, f, p)
  {
    hide InNet;
  }

  lemma MarkAgrees(p: Packet)
    ensures Marked(p) == Intent.WithBit24(p)
  {
  }

  lemma FallbackMatches(env: Env, p: Packet)
    ensures Matches(env, Rule(Return, mark := Some(FWMARK)), p) == (p.mark & 0x1000000 == 0x1000000)
  {
    hide MarkIs;
    MarkMeans(p.mark, 0x1000000, 0x1000000);
  }

  lemma CoreRulesAre(refused: set<Rule>, x: Context)
    ensures var fallback, core := Rule(Return, mark := Some(FWMARK)), Variant(refused, CoreBypassVariants(x));
      CoreRules(refused, x) == if core != [] || fallback in refused then core else [fallback]
  {
    var fallback, core := Rule(Return, mark := Some(FWMARK)), Variant(refused, CoreBypassVariants(x));
    hide Variant, CoreBypassVariants;
    assert core + [] == core && [fallback] + [] == [fallback];
  }

  /** The core's own packets, as the chains of the host know them. */
  lemma CoreAgrees(env: Env, refused: set<Rule>, x: Context, p: Packet)
    ensures CoreOwned(env, refused, x, p) == Intent.FromCore(refused, x, p)
  {
    var fallback, core := Rule(Return, mark := Some(FWMARK)), Variant(refused, CoreBypassVariants(x));
    VariantMatches(env, refused, x, p);
    NoVariant(refused, x);
    CoreRulesAre(refused, x);
    FallbackMatches(env, p);
    hide Variant, CoreBypassVariants, Matches, Intent.ByOwner, Intent.NoOwner, CoreRules;
    if core == [] && fallback !in refused {
      assert CoreRules(refused, x) == [fallback] && fallback in [fallback];
      assert forall r :: r in [fallback] ==> r == fallback;
      assert !Intent.ByOwner(refused, x, p);
    }
  }

  lemma NoVariant(refused: set<Rule>, x: Context)
    ensures Variant(refused, CoreBypassVariants(x)) == [] <==> Intent.NoOwner(refused, x)
  {
    var both, uid := Rule(Return, uid := Some(x.boxUid), gid := Some(x.boxGid)), Rule(Return, uid := Some(x.boxUid));
    var gid := Rule(Return, gid := Some(x.boxGid));
    assert CoreBypassVariants(x) == [both, uid, gid] && [both, uid, gid][1..] == [uid, gid] && [uid, gid][1..] == [gid] && [gid][1..] == [];
    assert Variant(refused, [gid]) == if gid !in refused then [gid] else [];
    assert Variant(refused, [uid, gid]) == if uid !in refused then [uid] else Variant(refused, [gid]);
  }
}
