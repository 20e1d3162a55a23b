/**
 The compiler's scripts as batch sessions.  Every mode ensures its chains before
 appending to them, and every chain once, but for the DNS chains of enhance mode,
 which both of its halves set up.  A buffered session therefore holds their rules
 twice where the direct form rebuilds them; no packet can tell.
 */
module Sessions {
  import opened Bytes
  import opened Netfilter
  import opened Batching
  import opened RuleConfig
  import opened RuleScripts
  import opened ChainContents
  import opened ExternalPolicy
  import opened TeardownModes

  // ----- which chains a script ensures -----

  function EnsuredBy(f: Family, steps: seq<Step>): set<Place>
    decreases |steps|
  {
    if steps == [] then {} else Ensured(f, steps[0]) + EnsuredBy(f, steps[1..])
  }

  /** Tame, and only chains of `twice` are ensured more than once. */
  predicate Regular(f: Family, twice: set<Place>, steps: seq<Step>, used: set<Place>)
    decreases |steps|
  {
    steps == [] ||
    (&& (steps[0].op.EnsureAppend? ==> Touched(f, steps[0]) <= used)
     && Ensured(f, steps[0]) * used <= twice
     && Regular(f, twice, steps[1..], used + Ensured(f, steps[0])))
  }

  lemma {:induction false} RegularIsTame(f: Family, twice: set<Place>, steps: seq<Step>, used: set<Place>)
    requires Regular(f, twice, steps, used) && forall p :: p in twice ==> !IsLocalIp(p.1)
    ensures Tame(f, steps, used)
    ensures twice == {} ==> Orderly(f, steps, used)
    decreases |steps|
  {
    if steps != [] {
      RegularIsTame(f, twice, steps[1..], used + Ensured(f, steps[0]));
    }
  }

  lemma {:induction false} RegularConcat(f: Family, twice: set<Place>, a: seq<Step>, b: seq<Step>, used: set<Place>)
    requires Regular(f, twice, a, used) && Regular(f, twice, b, used + EnsuredBy(f, a))
    ensures Regular(f, twice, a + b, used) && EnsuredBy(f, a + b) == EnsuredBy(f, a) + EnsuredBy(f, b)
    decreases |a|
  {
    if a == [] {
      assert a + b == b && used + EnsuredBy(f, a) == used;
    } else {
      assert (a + b)[1..] == a[1..] + b;
      var e := Ensured(f, a[0]);
      assert used + EnsuredBy(f, a) == (used + e) + EnsuredBy(f, a[1..]);
      RegularConcat(f, twice, a[1..], b, used + e);
    }
  }

  lemma {:induction false} EnsuredByConcat(f: Family, a: seq<Step>, b: seq<Step>)
    ensures EnsuredBy(f, a + b) == EnsuredBy(f, a) + EnsuredBy(f, b)
    decreases |a|
  {
    if a == [] {
      assert a + b == b;
    } else {
      assert (a + b)[1..] == a[1..] + b;
      EnsuredByConcat(f, a[1..], b);
    }
  }

  /** What a part needs before it may be more, as long as it does not ensure the rest again. */
  lemma {:induction false} RegularMore(f: Family, twice: set<Place>, steps: seq<Step>, used: set<Place>, more: set<Place>)
    requires Regular(f, twice, steps, used) && used <= more && EnsuredBy(f, steps) * (more - used) <= twice
    ensures Regular(f, twice, steps, more)
    decreases |steps|
  {
    if steps != [] {
      var e := Ensured(f, steps[0]);
      assert e * more <= twice;
      RegularMore(f, twice, steps[1..], used + e, more + e);
    }
  }

  /** A part regular on its own, after another that ensures none of its chains. */
  lemma RegularAfter(f: Family, twice: set<Place>, a: seq<Step>, b: seq<Step>)
    requires Regular(f, twice, a, {}) && Regular(f, twice, b, {})
    requires EnsuredBy(f, a) * EnsuredBy(f, b) <= twice
    ensures Regular(f, twice, a + b, {}) && EnsuredBy(f, a + b) == EnsuredBy(f, a) + EnsuredBy(f, b)
  {
    RegularMore(f, twice, b, {}, EnsuredBy(f, a));
    assert {} + EnsuredBy(f, a) == EnsuredBy(f, a);
    RegularConcat(f, twice, a, b, {});
  }

  /** The same from bounds on what each part ensures. */
  lemma RegularApart(f: Family, twice: set<Place>, a: seq<Step>, b: seq<Step>, p: set<Place>, q: set<Place>)
    requires Regular(f, twice, a, {}) && Regular(f, twice, b, {})
    requires EnsuredBy(f, a) <= p && EnsuredBy(f, b) <= q && p * q <= twice
    ensures Regular(f, twice, a + b, {}) && EnsuredBy(f, a + b) <= p + q
  {
    RegularAfter(f, twice, a, b);
  }

  /** A part that only writes to chains ensured before. */
  lemma RegularOn(f: Family, twice: set<Place>, a: seq<Step>, b: seq<Step>, used: set<Place>)
    requires Regular(f, twice, a, {}) && Regular(f, twice, b, used) && EnsuredBy(f, b) == {} && used <= EnsuredBy(f, a)
    ensures Regular(f, twice, a + b, {}) && EnsuredBy(f, a + b) == EnsuredBy(f, a)
  {
    RegularMore(f, twice, b, used, EnsuredBy(f, a));
    assert {} + EnsuredBy(f, a) == EnsuredBy(f, a);
    RegularConcat(f, twice, a, b, {});
  }

  // ----- the smallest parts -----

  lemma EnsureRegular(f: Family, twice: set<Place>, t: TableName, c: string)
    requires IsBoxCustomChain(c)
    ensures Regular(f, twice, One(f, t, EnsureChain(c)), {}) && EnsuredBy(f, One(f, t, EnsureChain(c))) == {(t, c)}
  {
    hide IsBoxCustomChain;
    var s := One(f, t, EnsureChain(c));
    assert s[1..] == [] && EnsuredBy(f, s[1..]) == {} && Regular(f, twice, s[1..], {} + Ensured(f, s[0]));
  }

  /** The chain of the host's own networks, filled in one go. */
  lemma LocalIpRegular(f: Family, twice: set<Place>, c: Config, k: Capabilities, t: TableName)
    ensures Regular(f, twice, LocalIpSetup(c, k, f, t), {})
    ensures EnsuredBy(f, LocalIpSetup(c, k, f, t)) == {(t, LocalIpChain(f))}
  {
    hide AcceptPairs, RestoringOf;
    var s := LocalIpSetup(c, k, f, t);
    assert s[1..] == [] && EnsuredBy(f, s[1..]) == {} && Regular(f, twice, s[1..], {} + Ensured(f, s[0]));
  }

  lemma {:induction false} AppendsRegular(f: Family, twice: set<Place>, t: TableName, c: string, rules: seq<Rule>, used: set<Place>)
    requires (t, c) in used || !IsBoxCustomChain(c)
    ensures Regular(f, twice, Appends(f, t, c, rules), used) && EnsuredBy(f, Appends(f, t, c, rules)) == {}
    decreases |rules|
  {
    hide IsBoxCustomChain;
    var s := Appends(f, t, c, rules);
    if rules != [] {
      assert s[1..] == Appends(f, t, c, rules[1..]);
      assert Ensured(f, s[0]) == {} && used + {} == used;
      AppendsRegular(f, twice, t, c, rules[1..], used);
    }
  }

  /** Steps that record nothing. */
  predicate Unrecorded(steps: seq<Step>) {
    forall s | s in steps :: !s.op.EnsureChain? && !s.op.EnsureAppend? && !s.op.Rebuild?
  }

  lemma {:induction false} UnrecordedRegular(f: Family, twice: set<Place>, steps: seq<Step>, used: set<Place>)
    requires Unrecorded(steps)
    ensures Regular(f, twice, steps, used) && EnsuredBy(f, steps) == {}
    decreases |steps|
  {
    if steps != [] {
      assert steps[0] in steps && forall s :: s in steps[1..] ==> s in steps;
      assert used + {} == used;
      UnrecordedRegular(f, twice, steps[1..], used);
    }
  }

  /** A chain made in one go. */
  lemma MadeRegular(f: Family, twice: set<Place>, t: TableName, c: string, rules: seq<Rule>)
    requires IsBoxCustomChain(c)
    ensures Regular(f, twice, One(f, t, EnsureChain(c)) + Appends(f, t, c, rules), {})
    ensures EnsuredBy(f, One(f, t, EnsureChain(c)) + Appends(f, t, c, rules)) == {(t, c)}
  {
    EnsureRegular(f, twice, t, c);
    AppendsRegular(f, twice, t, c, rules, {(t, c)});
    RegularOn(f, twice, One(f, t, EnsureChain(c)), Appends(f, t, c, rules), {(t, c)});
  }

  /** Adding to chains made before, and steps that record nothing. */
  lemma AndAppends(f: Family, twice: set<Place>, a: seq<Step>, t: TableName, c: string, rules: seq<Rule>)
    requires Regular(f, twice, a, {}) && ((t, c) in EnsuredBy(f, a) || !IsBoxCustomChain(c))
    ensures Regular(f, twice, a + Appends(f, t, c, rules), {}) && EnsuredBy(f, a + Appends(f, t, c, rules)) == EnsuredBy(f, a)
  {
    AppendsRegular(f, twice, t, c, rules, EnsuredBy(f, a));
    RegularOn(f, twice, a, Appends(f, t, c, rules), EnsuredBy(f, a));
  }

  lemma AndUnrecorded(f: Family, twice: set<Place>, a: seq<Step>, b: seq<Step>)
    requires Regular(f, twice, a, {}) && Unrecorded(b)
    ensures Regular(f, twice, a + b, {}) && EnsuredBy(f, a + b) == EnsuredBy(f, a)
  {
    UnrecordedRegular(f, twice, b, {});
    RegularOn(f, twice, a, b, {});
  }

  lemma AndEnsure(f: Family, twice: set<Place>, a: seq<Step>, t: TableName, c: string)
    requires Regular(f, twice, a, {}) && IsBoxCustomChain(c) && ((t, c) in EnsuredBy(f, a) ==> (t, c) in twice)
    ensures Regular(f, twice, a + One(f, t, EnsureChain(c)), {})
    ensures EnsuredBy(f, a + One(f, t, EnsureChain(c))) == EnsuredBy(f, a) + {(t, c)}
  {
    EnsureRegular(f, twice, t, c);
    RegularAfter(f, twice, a, One(f, t, EnsureChain(c)));
  }

  // ----- the DNS chains -----

  function DnsPlaces(f: Family): set<Place> { {(Nat, HijackPre(f)), (Nat, HijackOut(f)), (Nat, ForwardPre(f))} }

  lemma CustomNames(f: Family)
    ensures IsBoxCustomChain(HijackPre(f)) && IsBoxCustomChain(HijackOut(f)) && IsBoxCustomChain(ForwardPre(f))
    ensures IsBoxCustomChain(EXTERNAL) && IsBoxCustomChain(LOCAL) && IsBoxCustomChain(LocalIpChain(f)) && IsBoxCustomChain(DIVERT)
    ensures IsBoxCustomChain(TP_PRE_IP) && IsBoxCustomChain(TP_PRE_IF) && IsBoxCustomChain(TP_OUT_IP) && IsBoxCustomChain(TP_OUT_APP)
    ensures IsBoxCustomChain(TunPreChain(f)) && IsBoxCustomChain(TunOutChain(f))
    ensures !IsBoxCustomChain("OUTPUT")
  {
    BuiltinsAreNotCustom("OUTPUT");
  }

  lemma DistinctNames(f: Family)
    ensures HijackPre(f) != HijackOut(f) && TunPreChain(f) != TunOutChain(f) && EXTERNAL != LOCAL
    ensures EXTERNAL != LocalIpChain(f) && LOCAL != LocalIpChain(f)
    ensures TP_PRE_IP != TP_PRE_IF && TP_OUT_IP != TP_OUT_APP
    ensures {TP_PRE_IP, TP_PRE_IF} !! {TP_OUT_IP, TP_OUT_APP}
    ensures {TP_PRE_IP, TP_PRE_IF, TP_OUT_IP, TP_OUT_APP} !! {EXTERNAL, LOCAL, LocalIpChain(f), DIVERT}
    ensures DIVERT !in {EXTERNAL, LOCAL, LocalIpChain(f)}
    ensures {EXTERNAL, LOCAL, LocalIpChain(f)} !! {HijackPre(f), HijackOut(f), ForwardPre(f)}
  {
  }

  lemma HijackRegular(f: Family, twice: set<Place>, c: Config, x: Context)
    ensures Regular(f, twice, DnsHijackSetup(c, x, f), {})
    ensures EnsuredBy(f, DnsHijackSetup(c, x, f)) == {(Nat, HijackPre(f)), (Nat, HijackOut(f))}
  {
    CustomNames(f);
    DistinctNames(f);
    hide IsBoxCustomChain, HijackPre, HijackOut, DnsHijackRules, CoreBypassVariants, Appends, Regular, EnsuredBy;
    var pre, out := HijackPre(f), HijackOut(f);
    var a := One(f, Nat, EnsureChain(pre));
    var b := a + One(f, Nat, EnsureChain(out));
    var d := b + Appends(f, Nat, pre, DnsHijackRules(c, f, true));
    var e := d + One(f, Nat, InsertFirst(out, CoreBypassVariants(x), None));
    var g := e + Appends(f, Nat, out, DnsHijackRules(c, f, false));
    var h := g + One(f, Nat, EnsureJump("PREROUTING", pre));
    EnsureRegular(f, twice, Nat, pre);
    AndEnsure(f, twice, a, Nat, out);
    AndAppends(f, twice, b, Nat, pre, DnsHijackRules(c, f, true));
    AndUnrecorded(f, twice, d, One(f, Nat, InsertFirst(out, CoreBypassVariants(x), None)));
    AndAppends(f, twice, e, Nat, out, DnsHijackRules(c, f, false));
    AndUnrecorded(f, twice, g, One(f, Nat, EnsureJump("PREROUTING", pre)));
    AndUnrecorded(f, twice, h, One(f, Nat, EnsureJump("OUTPUT", out)));
  }

  lemma ForwardRegular(f: Family, twice: set<Place>, c: Config, x: Context)
    ensures Regular(f, twice, DnsForwardSetup(c, x, f), {})
    ensures EnsuredBy(f, DnsForwardSetup(c, x, f)) == {(Nat, ForwardPre(f))}
  {
    CustomNames(f);
    hide IsBoxCustomChain, ForwardPre, DnsForwardRules, CoreBypassVariants, Appends, Regular, EnsuredBy;
    var pre := ForwardPre(f);
    var a := One(f, Nat, EnsureChain(pre));
    var b := a + One(f, Nat, InsertFirst(pre, CoreBypassVariants(x), None));
    var d := b + Appends(f, Nat, pre, DnsForwardRules(c, f));
    EnsureRegular(f, twice, Nat, pre);
    AndUnrecorded(f, twice, a, One(f, Nat, InsertFirst(pre, CoreBypassVariants(x), None)));
    AndAppends(f, twice, b, Nat, pre, DnsForwardRules(c, f));
    AndUnrecorded(f, twice, d, One(f, Nat, EnsureJump("OUTPUT", pre)));
  }

  lemma DnsRegular(f: Family, twice: set<Place>, c: Config, k: Capabilities, x: Context)
    ensures Regular(f, twice, DnsNatSetup(c, k, x, f), {}) && EnsuredBy(f, DnsNatSetup(c, k, x, f)) <= DnsPlaces(f)
  {
    hide DnsHijackSetup, DnsForwardSetup;
    HijackRegular(f, twice, c, x);
    ForwardRegular(f, twice, c, x);
  }

  // ----- the scripts -----

  function NatExternal(f: Family): set<Place> { {(Nat, EXTERNAL), (Nat, LocalIpChain(f))} + DnsPlaces(f) }

  function NatLocal(): set<Place> { {(Nat, LOCAL)} }

  function MangleExternal(f: Family): set<Place> {
    {(Mangle, EXTERNAL), (Mangle, LocalIpChain(f)), (Mangle, TP_PRE_IP), (Mangle, TP_PRE_IF)}
  }

  function MangleLocal(): set<Place> { {(Mangle, LOCAL), (Mangle, TP_OUT_IP), (Mangle, TP_OUT_APP)} }

  function MangleDivert(): set<Place> { {(Mangle, DIVERT)} }

  lemma PlacesApart(f: Family)
    ensures NatExternal(f) * NatLocal() == {}
    ensures MangleExternal(f) * MangleLocal() == {}
    ensures (MangleExternal(f) + MangleLocal()) * MangleDivert() == {}
  {
    DistinctNames(f);
    hide LocalIpChain, HijackPre, HijackOut, ForwardPre;
  }

  lemma TablesApart(f: Family)
    ensures (MangleExternal(f) + MangleLocal() + MangleDivert()) * DnsPlaces(f) == {}
    ensures (NatExternal(f) + NatLocal()) * (MangleExternal(f) + MangleLocal() + MangleDivert() + DnsPlaces(f)) <= DnsPlaces(f)
  {
  }

  lemma RedirectPlaces(f: Family)
    ensures (Nat, EXTERNAL) !in DnsPlaces(f) && (Nat, LocalIpChain(f)) !in DnsPlaces(f) && (Nat, EXTERNAL) != (Nat, LocalIpChain(f))
    ensures IsBoxCustomChain(EXTERNAL) && IsBoxCustomChain(LocalIpChain(f))
  {
  }

  lemma RedirectExternalIs(c: Config, k: Capabilities, x: Context, f: Family)
    ensures RedirectExternalSetup(c, k, x, f)
         == One(f, Nat, EnsureChain(EXTERNAL)) + Appends(f, Nat, EXTERNAL, ReplyBypass(c, k)) + DnsNatSetup(c, k, x, f)
            + LocalIpSetup(c, k, f, Nat)
            + Appends(f, Nat, EXTERNAL, ExternalBody(c, k, f, ActRedirect)) + One(f, Nat, EnsureJump("PREROUTING", EXTERNAL))
    ensures Unrecorded(One(f, Nat, EnsureJump("PREROUTING", EXTERNAL)))
  {
    hide Appends, ReplyBypass, DnsNatSetup, ExternalBody, LocalIpSetup;
  }

  lemma RedirectExternalRegular(f: Family, twice: set<Place>, c: Config, k: Capabilities, x: Context)
    ensures var s := RedirectExternalSetup(c, k, x, f);
      Regular(f, twice, s, {}) && EnsuredBy(f, s) <= {(Nat, EXTERNAL), (Nat, LocalIpChain(f))} + DnsPlaces(f)
  {
    hide *;
    var a := One(f, Nat, EnsureChain(EXTERNAL));
    var b := a + Appends(f, Nat, EXTERNAL, ReplyBypass(c, k));
    var d := b + DnsNatSetup(c, k, x, f);
    var e := d + LocalIpSetup(c, k, f, Nat);
    var g := e + Appends(f, Nat, EXTERNAL, ExternalBody(c, k, f, ActRedirect));
    RedirectPlaces(f);
    DnsRegular(f, twice, c, k, x);
    EnsureRegular(f, twice, Nat, EXTERNAL);
    AndAppends(f, twice, a, Nat, EXTERNAL, ReplyBypass(c, k));
    RegularAfter(f, twice, b, DnsNatSetup(c, k, x, f));
    LocalIpRegular(f, twice, c, k, Nat);
    RegularAfter(f, twice, d, LocalIpSetup(c, k, f, Nat));
    AndAppends(f, twice, e, Nat, EXTERNAL, ExternalBody(c, k, f, ActRedirect));
    RedirectExternalIs(c, k, x, f);
    AndUnrecorded(f, twice, g, One(f, Nat, EnsureJump("PREROUTING", EXTERNAL)));
  }

  lemma LocalStartRegular(f: Family, twice: set<Place>, x: Context, t: TableName)
    ensures Regular(f, twice, LocalChainStart(x, f, t), {}) && EnsuredBy(f, LocalChainStart(x, f, t)) == {(t, LOCAL)}
  {
    CustomNames(f);
    hide IsBoxCustomChain, CoreBypassVariants, Regular, EnsuredBy;
    EnsureRegular(f, twice, t, LOCAL);
    AndUnrecorded(f, twice, One(f, t, EnsureChain(LOCAL)),
                  One(f, t, InsertFirst(LOCAL, CoreBypassVariants(x), Some(Rule(Return, mark := Some(FWMARK))))));
  }

  lemma RedirectLocalRegular(f: Family, twice: set<Place>, c: Config, k: Capabilities, x: Context)
    ensures Regular(f, twice, RedirectLocalSetup(c, k, x, f), {}) && EnsuredBy(f, RedirectLocalSetup(c, k, x, f)) == {(Nat, LOCAL)}
  {
    hide LocalChainStart, RedirectLocalRules, Regular, EnsuredBy, Appends;
    var a := LocalChainStart(x, f, Nat);
    LocalStartRegular(f, twice, x, Nat);
    AndAppends(f, twice, a, Nat, LOCAL, RedirectLocalRules(c, k, x, f));
    AndUnrecorded(f, twice, a + Appends(f, Nat, LOCAL, RedirectLocalRules(c, k, x, f)), One(f, Nat, EnsureJump("OUTPUT", LOCAL)));
  }

  lemma StartRedirectRegular(f: Family, twice: set<Place>, c: Config, k: Capabilities, x: Context)
    ensures Regular(f, twice, StartRedirect(c, k, x, f), {})
    ensures EnsuredBy(f, StartRedirect(c, k, x, f)) <= NatExternal(f) + NatLocal()
  {
    if !(f == V6 && !k.ip6Nat) {
      var a, b, e := RedirectExternalSetup(c, k, x, f), RedirectLocalSetup(c, k, x, f), LoopbackRejectSetup(x, f, c.redirPort);
      assert Unrecorded(e);
      RedirectExternalRegular(f, twice, c, k, x);
      RedirectLocalRegular(f, twice, c, k, x);
      PlacesApart(f);
      hide RedirectExternalSetup, RedirectLocalSetup, LoopbackRejectSetup, Regular, EnsuredBy, NatExternal, Unrecorded;
      RegularApart(f, twice, a, b, NatExternal(f), NatLocal());
      AndUnrecorded(f, twice, a + b, e);
    }
  }

  lemma AttemptsUnrecorded(f: Family, t: TableName, c: string, rules: seq<Rule>)
    ensures Unrecorded(Attempts(f, t, c, rules))
  {
  }

  lemma PerfDestRegular(f: Family, twice: set<Place>, c: Config, k: Capabilities, chain: string)
    requires IsBoxCustomChain(chain)
    ensures Regular(f, twice, PerfDestSetup(c, k, f, chain), {}) && EnsuredBy(f, PerfDestSetup(c, k, f, chain)) == {(Mangle, chain)}
  {
    hide IsBoxCustomChain, PerfBypassRules, PerfAddrtypeRules, PerfLoopbackRules, Appends, Attempts, Regular, EnsuredBy;
    var a := One(f, Mangle, EnsureChain(chain)) + Appends(f, Mangle, chain, PerfBypassRules(c, k, f, chain));
    var b := a + Attempts(f, Mangle, chain, PerfAddrtypeRules(k));
    MadeRegular(f, twice, Mangle, chain, PerfBypassRules(c, k, f, chain));
    AttemptsUnrecorded(f, Mangle, chain, PerfAddrtypeRules(k));
    AndUnrecorded(f, twice, a, Attempts(f, Mangle, chain, PerfAddrtypeRules(k)));
    AndAppends(f, twice, b, Mangle, chain, PerfLoopbackRules(c, f));
  }

  lemma TproxyExternalRegular(f: Family, twice: set<Place>, c: Config, k: Capabilities)
    ensures var s := TproxyExternalSetup(c, k, f);
      Regular(f, twice, s, {})
      && EnsuredBy(f, s) <= MangleExternal(f)
  {
    CustomNames(f);
    DistinctNames(f);
    hide IsBoxCustomChain, LocalIpChain, LocalIpSetup, PerfDestSetup, PerfIfRules, PerfExternalRules, ExternalPrefix, ExternalBody;
    hide Appends, Regular, EnsuredBy, PerformanceChain;
    var a := One(f, Mangle, EnsureChain(EXTERNAL));
    EnsureRegular(f, twice, Mangle, EXTERNAL);
    if PerformanceChain(c, k) {
      var b := a + PerfDestSetup(c, k, f, TP_PRE_IP);
      var d := b + One(f, Mangle, EnsureChain(TP_PRE_IF));
      var e := d + Appends(f, Mangle, TP_PRE_IF, PerfIfRules(c));
      var g := e + Appends(f, Mangle, EXTERNAL, PerfExternalRules(c, k, f));
      PerfDestRegular(f, twice, c, k, TP_PRE_IP);
      RegularAfter(f, twice, a, PerfDestSetup(c, k, f, TP_PRE_IP));
      AndEnsure(f, twice, b, Mangle, TP_PRE_IF);
      AndAppends(f, twice, d, Mangle, TP_PRE_IF, PerfIfRules(c));
      AndAppends(f, twice, e, Mangle, EXTERNAL, PerfExternalRules(c, k, f));
      AndUnrecorded(f, twice, g, One(f, Mangle, EnsureJump("PREROUTING", EXTERNAL)));
    } else {
      var b := a + Appends(f, Mangle, EXTERNAL, ExternalPrefix(c, k, f, ActTproxy));
      var d := b + LocalIpSetup(c, k, f, Mangle);
      var e := d + Appends(f, Mangle, EXTERNAL, ExternalBody(c, k, f, ActTproxy));
      AndAppends(f, twice, a, Mangle, EXTERNAL, ExternalPrefix(c, k, f, ActTproxy));
      LocalIpRegular(f, twice, c, k, Mangle);
      RegularAfter(f, twice, b, LocalIpSetup(c, k, f, Mangle));
      AndAppends(f, twice, d, Mangle, EXTERNAL, ExternalBody(c, k, f, ActTproxy));
      AndUnrecorded(f, twice, e, One(f, Mangle, EnsureJump("PREROUTING", EXTERNAL)));
    }
  }

  lemma PerfLocalPartRegular(f: Family, twice: set<Place>, c: Config, k: Capabilities, x: Context)
    ensures var s := PerfDestSetup(c, k, f, TP_OUT_IP)
                     + One(f, Mangle, EnsureChain(TP_OUT_APP)) + Appends(f, Mangle, TP_OUT_APP, PerfAppRules(c, x, f));
      Regular(f, twice, s, {}) && EnsuredBy(f, s) == {(Mangle, TP_OUT_IP), (Mangle, TP_OUT_APP)}
  {
    CustomNames(f);
    DistinctNames(f);
    hide IsBoxCustomChain, PerfDestSetup, PerfAppRules, Appends, Regular, EnsuredBy;
    var a := PerfDestSetup(c, k, f, TP_OUT_IP);
    PerfDestRegular(f, twice, c, k, TP_OUT_IP);
    AndEnsure(f, twice, a, Mangle, TP_OUT_APP);
    AndAppends(f, twice, a + One(f, Mangle, EnsureChain(TP_OUT_APP)), Mangle, TP_OUT_APP, PerfAppRules(c, x, f));
  }

  lemma LocalAmong(f: Family, a: seq<Step>, b: seq<Step>)
    requires (Mangle, LOCAL) in EnsuredBy(f, a)
    ensures (Mangle, LOCAL) in EnsuredBy(f, a + b)
    decreases |a|
  {
    if a == [] {
    } else {
      assert (a + b)[1..] == a[1..] + b;
      if (Mangle, LOCAL) in EnsuredBy(f, a[1..]) {
        LocalAmong(f, a[1..], b);
      }
    }
  }

  lemma OutPlacesApart()
    ensures {(Mangle, LOCAL)} * {(Mangle, TP_OUT_IP), (Mangle, TP_OUT_APP)} == {}
  {
    assert LOCAL != TP_OUT_IP && LOCAL != TP_OUT_APP;
  }

  lemma TproxyLocalRegular(f: Family, twice: set<Place>, c: Config, k: Capabilities, x: Context)
    ensures var s := TproxyLocalSetup(c, k, x, f);
      Regular(f, twice, s, {}) && EnsuredBy(f, s) <= MangleLocal()
  {
    OutPlacesApart();
    LocalStartRegular(f, twice, x, Mangle);
    hide IsBoxCustomChain, LocalChainStart, PerfDestSetup, PerfAppRules, PerfLocalRules, TproxyLocalRules;
    hide Appends, Regular, EnsuredBy, PerformanceChain, LocalIpChain;
    var a := LocalChainStart(x, f, Mangle);
    if PerformanceChain(c, k) {
      var b := PerfDestSetup(c, k, f, TP_OUT_IP)
        + One(f, Mangle, EnsureChain(TP_OUT_APP)) + Appends(f, Mangle, TP_OUT_APP, PerfAppRules(c, x, f));
      var main := Appends(f, Mangle, LOCAL, PerfLocalRules(c, k, x, f));
      PerfLocalPartRegular(f, twice, c, k, x);
      RegularApart(f, twice, a, b, {(Mangle, LOCAL)}, {(Mangle, TP_OUT_IP), (Mangle, TP_OUT_APP)});
      LocalAmong(f, a, b);
      AndAppends(f, twice, a + b, Mangle, LOCAL, PerfLocalRules(c, k, x, f));
      assert a + b + main == a + (b + main);
      AndUnrecorded(f, twice, a + b + main, One(f, Mangle, EnsureJump("OUTPUT", LOCAL)));
    } else {
      var main := Appends(f, Mangle, LOCAL, TproxyLocalRules(c, k, x, f));
      AndAppends(f, twice, a, Mangle, LOCAL, TproxyLocalRules(c, k, x, f));
      AndUnrecorded(f, twice, a + main, One(f, Mangle, EnsureJump("OUTPUT", LOCAL)));
    }
  }

  lemma DivertUnrecorded(f: Family)
    ensures Unrecorded(DivertCleanup(f)) && Unrecorded(One(f, Mangle, EnsureInsert("PREROUTING", DivertJump())))
  {
  }

  lemma DivertRegular(f: Family, twice: set<Place>, c: Config, k: Capabilities)
    ensures Regular(f, twice, DivertSetup(c, k, f), {}) && EnsuredBy(f, DivertSetup(c, k, f)) <= MangleDivert()
    ensures c.mode == Enhance || !k.socketMatch || !PerformanceChain(c, k) ==> EnsuredBy(f, DivertSetup(c, k, f)) == {}
  {
    CustomNames(f);
    DivertUnrecorded(f);
    hide IsBoxCustomChain, PerformanceChain, Regular, EnsuredBy, Appends, Unrecorded, DivertCleanup;
    if c.mode == Enhance || !k.socketMatch || !PerformanceChain(c, k) {
      UnrecordedRegular(f, twice, DivertCleanup(f), {});
    } else {
      var rules := [Rule(SetMark(FWMARK)), Rule(Accept)];
      MadeRegular(f, twice, Mangle, DIVERT, rules);
      AndUnrecorded(f, twice, One(f, Mangle, EnsureChain(DIVERT)) + Appends(f, Mangle, DIVERT, rules),
                    One(f, Mangle, EnsureInsert("PREROUTING", DivertJump())));
    }
  }

  lemma QuicRegular(f: Family, twice: set<Place>, c: Config)
    ensures Regular(f, twice, QuicSetup(c, f), {}) && EnsuredBy(f, QuicSetup(c, f)) == {}
  {
    CustomNames(f);
    AppendsRegular(f, twice, Filter, "OUTPUT", [QuicReject(443), QuicReject(80)], {});
  }

  lemma StartTproxyRegular(f: Family, twice: set<Place>, c: Config, k: Capabilities, x: Context)
    ensures Regular(f, twice, StartTproxy(c, k, x, f), {})
    ensures EnsuredBy(f, StartTproxy(c, k, x, f))
         <= MangleExternal(f) + MangleLocal() + EnsuredBy(f, DivertSetup(c, k, f)) + EnsuredBy(f, DnsNatSetup(c, k, x, f))
    ensures EnsuredBy(f, DivertSetup(c, k, f)) <= MangleDivert()
    ensures EnsuredBy(f, DnsNatSetup(c, k, x, f)) <= DnsPlaces(f)
  {
    hide TproxyExternalSetup, TproxyLocalSetup, DivertSetup, QuicSetup, DnsNatSetup, FakeIpIcmpSetup, LoopbackRejectSetup;
    hide TproxyRouting, Regular, EnsuredBy, MangleExternal, MangleLocal, MangleDivert, DnsPlaces, Unrecorded, TproxySupported;
    DnsRegular(f, twice, c, k, x);
    DivertRegular(f, twice, c, k);
    if TproxySupported(k, f) {
      TproxyExternalRegular(f, twice, c, k);
      TproxyLocalRegular(f, twice, c, k, x);
      QuicRegular(f, twice, c);
      RestUnrecorded(f, c, x);
      var reject := if c.mode != Enhance then LoopbackRejectSetup(x, f, c.tproxyPort) else [];
      TproxyPartsRegular(f, twice, TproxyExternalSetup(c, k, f), TproxyLocalSetup(c, k, x, f), DivertSetup(c, k, f),
                         QuicSetup(c, f), reject, DnsNatSetup(c, k, x, f), FakeIpIcmpSetup(c, f));
      UnrecordedBefore(f, twice, TproxyRouting(f), TproxyTables(c, k, x, f));
    } else {
      RestUnrecorded(f, c, x);
      UnrecordedRegular(f, twice, [], {});
    }
  }

  lemma RestUnrecorded(f: Family, c: Config, x: Context)
    ensures Unrecorded(LoopbackRejectSetup(x, f, c.tproxyPort)) && Unrecorded([]) && Unrecorded(FakeIpIcmpSetup(c, f))
    ensures Unrecorded(ForwardSetup(c, f)) && Unrecorded(TproxyRouting(f)) && Unrecorded(TunRouting(f))
    ensures Unrecorded(StopTunBypass(f))
  {
  }

  /** Steps that record nothing in front of a part. */
  lemma UnrecordedBefore(f: Family, twice: set<Place>, a: seq<Step>, b: seq<Step>)
    requires Unrecorded(a) && Regular(f, twice, b, {})
    ensures Regular(f, twice, a + b, {}) && EnsuredBy(f, a + b) == EnsuredBy(f, b)
  {
    UnrecordedRegular(f, twice, a, {});
    RegularAfter(f, twice, a, b);
  }

  lemma TproxyPartsRegular(f: Family, twice: set<Place>, external: seq<Step>, local: seq<Step>, divert: seq<Step>,
                           quic: seq<Step>, reject: seq<Step>, dns: seq<Step>, icmp: seq<Step>)
    requires Regular(f, twice, external, {}) && EnsuredBy(f, external) <= MangleExternal(f)
    requires Regular(f, twice, local, {}) && EnsuredBy(f, local) <= MangleLocal()
    requires Regular(f, twice, divert, {}) && EnsuredBy(f, divert) <= MangleDivert()
    requires Regular(f, twice, quic, {}) && EnsuredBy(f, quic) == {}
    requires Regular(f, twice, dns, {}) && EnsuredBy(f, dns) <= DnsPlaces(f)
    requires Unrecorded(reject) && Unrecorded(icmp)
    ensures var s := external + local + divert + quic + reject + dns + icmp;
      Regular(f, twice, s, {}) && EnsuredBy(f, s) <= MangleExternal(f) + MangleLocal() + EnsuredBy(f, divert) + EnsuredBy(f, dns)
  {
    PlacesApart(f);
    TablesApart(f);
    hide *;
    var p, q := MangleExternal(f) + MangleLocal(), EnsuredBy(f, divert);
    RegularApart(f, twice, external, local, MangleExternal(f), MangleLocal());
    RegularApart(f, twice, external + local, divert, p, q);
    RegularApart(f, twice, external + local + divert, quic, p + q, {});
    AndUnrecorded(f, twice, external + local + divert + quic, reject);
    RegularApart(f, twice, external + local + divert + quic + reject, dns, p + q, EnsuredBy(f, dns));
    AndUnrecorded(f, twice, external + local + divert + quic + reject + dns, icmp);
  }

  lemma TunRegular(f: Family, twice: set<Place>, c: Config, k: Capabilities, x: Context)
    ensures Regular(f, twice, StartTunBypass(c, k, x, f), {})
  {
    TunTablesRegular(f, twice, c, k, x);
    RestUnrecorded(f, c, x);
    hide TunTables, TunRouting, Regular, EnsuredBy, Unrecorded;
    AndUnrecorded(f, twice, TunTables(c, k, x, f), TunRouting(f));
  }

  lemma TunTablesRegular(f: Family, twice: set<Place>, c: Config, k: Capabilities, x: Context)
    ensures Regular(f, twice, TunTables(c, k, x, f), {})
  {
    CustomNames(f);
    DistinctNames(f);
    hide IsBoxCustomChain, TunPreChain, TunOutChain, TunPreRules, TunOutRules, CoreBypassVariants, Appends, Regular, EnsuredBy;
    var pre, out := TunPreChain(f), TunOutChain(f);
    var a := One(f, Mangle, EnsureChain(pre));
    var b := a + One(f, Mangle, EnsureChain(out));
    var d := b + Appends(f, Mangle, pre, TunPreRules(c, k, f));
    var e := d + One(f, Mangle, AppendFirst(out, CoreBypassVariants(x)));
    var g := e + Appends(f, Mangle, out, TunOutRules(c, k, x, f));
    var h := g + One(f, Mangle, EnsureJump("PREROUTING", pre));
    EnsureRegular(f, twice, Mangle, pre);
    AndEnsure(f, twice, a, Mangle, out);
    AndAppends(f, twice, b, Mangle, pre, TunPreRules(c, k, f));
    AndUnrecorded(f, twice, d, One(f, Mangle, AppendFirst(out, CoreBypassVariants(x))));
    AndAppends(f, twice, e, Mangle, out, TunOutRules(c, k, x, f));
    AndUnrecorded(f, twice, g, One(f, Mangle, EnsureJump("PREROUTING", pre)));
    AndUnrecorded(f, twice, h, One(f, Mangle, EnsureJump("OUTPUT", out)));
  }

  /** The chains a mode may ensure more than once. */
  function EnsuredTwice(c: Config, f: Family): set<Place> { if c.mode == Enhance then DnsPlaces(f) else {} }

  /** Every mode's setup is a well-behaved session, in which only enhance mode
      ensures chains again, and only its DNS chains. */
  lemma SetupRegular(c: Config, k: Capabilities, x: Context, f: Family)
    ensures Regular(f, EnsuredTwice(c, f), ModeSetup(c, k, x, f), {})
  {
    hide StartRedirect, StartTproxy, StartTunBypass, StopTunBypass, ForwardSetup, Regular, EnsuredBy, DnsPlaces, Unrecorded, TunManaged;
    var twice := EnsuredTwice(c, f);
    RestUnrecorded(f, c, x);
    match c.mode
    case RedirectOnly => StartRedirectRegular(f, twice, c, k, x);
    case TproxyOnly => StartTproxyRegular(f, twice, c, k, x);
    case Mixed =>
      StartRedirectRegular(f, twice, c, k, x);
      ForwardRegularBefore(f, twice, c, StartRedirect(c, k, x, f));
    case Enhance => BothRegular(f, c, k, x);
    case Tun =>
      TunRegular(f, twice, c, k, x);
      UnrecordedRegular(f, twice, StopTunBypass(f), {});
      ForwardRegularBefore(f, twice, c, StartTunBypass(c, k, x, f));
      ForwardRegularBefore(f, twice, c, StopTunBypass(f));
    case Ebpf => UnrecordedRegular(f, twice, [], {});
  }

  /** The second half ensures the DNS chains of the first again. */
  lemma BothRegular(f: Family, c: Config, k: Capabilities, x: Context)
    ensures Regular(f, DnsPlaces(f), StartRedirect(c, k, x, f) + StartTproxy(c, k, x, f), {})
  {
    TablesApart(f);
    hide *;
    StartRedirectRegular(f, DnsPlaces(f), c, k, x);
    StartTproxyRegular(f, DnsPlaces(f), c, k, x);
    RegularApart(f, DnsPlaces(f), StartRedirect(c, k, x, f), StartTproxy(c, k, x, f), NatExternal(f) + NatLocal(),
                 MangleExternal(f) + MangleLocal() + MangleDivert() + DnsPlaces(f));
  }

  lemma ForwardRegularBefore(f: Family, twice: set<Place>, c: Config, part: seq<Step>)
    requires Regular(f, twice, part, {})
    ensures Regular(f, twice, ForwardSetup(c, f) + part, {})
  {
    assert Unrecorded(ForwardSetup(c, f));
    hide ForwardSetup, Regular, EnsuredBy, Unrecorded;
    UnrecordedBefore(f, twice, ForwardSetup(c, f), part);
  }
}
