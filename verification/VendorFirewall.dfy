/**
 Clearing a vendor's REJECT rules.  Rules are deleted by line number, and every
 deletion renumbers the lines behind it; going from the last line to the first
 keeps the remaining numbers right, whichever deletions fail.
 */
module VendorFirewall {
  import opened Bytes
  import opened RuleConfig

  /** A rule is known by its line in the listing, without the number. */
  predicate Rejects(line: string) { Contains(line, "REJECT") }

  /** What is left of a chain without the rules at some line numbers, counted from 1. */
  function Without(chain: seq<string>, gone: set<nat>): (kept: seq<string>)
    ensures |kept| <= |chain|
  {
    if chain == [] then []
    else Without(chain[..|chain| - 1], gone) + if |chain| in gone then [] else [chain[|chain| - 1]]
  }

  predicate RejectAt(chain: seq<string>, line: nat) { 1 <= line <= |chain| && Rejects(chain[line - 1]) }

  function RejectLines(chain: seq<string>): (s: set<nat>)
    ensures forall l :: l in s ==> 1 <= l <= |chain|
  {
    set l: nat | l <= |chain| && RejectAt(chain, l)
  }

  /** The chain's other rules, in order. */
  function OtherRules(chain: seq<string>): seq<string> {
    if chain == [] then []
    else OtherRules(chain[..|chain| - 1]) + if Rejects(chain[|chain| - 1]) then [] else [chain[|chain| - 1]]
  }

  predicate Descending(lines: seq<nat>) { forall i, j :: 0 <= i < j < |lines| ==> lines[i] > lines[j] }

  ghost function Elements(lines: seq<nat>): (s: set<nat>)
    ensures forall l :: l in s <==> l in lines
  {
    set l | l in lines
  }

  /** The next line joins one of two disjoint sets that make up the lines before it. */
  lemma NextLine(lines: seq<nat>, i: nat, a: set<nat>, b: set<nat>)
    requires i < |lines| && Descending(lines) && a !! b && a + b == Elements(lines[..i])
    ensures lines[i] !in a && lines[i] !in b && forall g :: g in a ==> g > lines[i]
    ensures a + {lines[i]} + b == Elements(lines[..i + 1]) && a + (b + {lines[i]}) == Elements(lines[..i + 1])
  {
    assert lines[..i + 1] == lines[..i] + [lines[i]];
    forall g | g in a + b ensures g > lines[i] {
      assert g in lines[..i];
    }
  }

  // ----- deleting from the back -----

  /** Deleting behind a line leaves what is before it. */
  lemma {:induction false} PrefixStays(chain: seq<string>, gone: set<nat>, k: nat)
    requires k <= |chain| && forall g :: g in gone ==> g > k
    ensures k <= |Without(chain, gone)| && Without(chain, gone)[..k] == chain[..k]
    decreases |chain|
  {
    var n := |chain|;
    if k < n {
      PrefixStays(chain[..n - 1], gone, k);
      assert chain[..n - 1][..k] == chain[..k];
    } else if chain != [] {
      assert n !in gone;
      PrefixStays(chain[..n - 1], gone, n - 1);
      assert chain == chain[..n - 1] + [chain[n - 1]];
    }
  }

  lemma {:induction false} OneMoreGone(chain: seq<string>, gone: set<nat>, k: nat)
    requires 1 <= k <= |chain| && forall g :: g in gone ==> g > k
    ensures k <= |Without(chain, gone)|
    ensures var now := Without(chain, gone); Without(chain, gone + {k}) == now[..k - 1] + now[k..]
    decreases |chain|
  {
    PrefixStays(chain, gone, k);
    var n := |chain|;
    var rest := if n in gone then [] else [chain[n - 1]];
    if k == n {
      assert n !in gone;
      SameBelow(chain[..n - 1], gone, k);
    } else {
      OneMoreGone(chain[..n - 1], gone, k);
      var before := Without(chain[..n - 1], gone);
      assert (before + rest)[..k - 1] + (before + rest)[k..] == (before[..k - 1] + before[k..]) + rest;
    }
  }

  /** Line numbers the chain does not have do not matter. */
  lemma {:induction false} SameBelow(chain: seq<string>, gone: set<nat>, k: nat)
    requires k > |chain|
    ensures Without(chain, gone + {k}) == Without(chain, gone)
    decreases |chain|
  {
    if chain != [] {
      SameBelow(chain[..|chain| - 1], gone, k);
    }
  }

  /** With all REJECT rules gone, exactly the others are left, in their order. */
  lemma {:induction false} AllGone(chain: seq<string>, gone: set<nat>)
    requires forall l: nat :: 1 <= l <= |chain| ==> (l in gone <==> RejectAt(chain, l))
    ensures Without(chain, gone) == OtherRules(chain)
    decreases |chain|
  {
    if chain != [] {
      var n := |chain|;
      assert forall l: nat :: 1 <= l < n ==> RejectAt(chain[..n - 1], l) == RejectAt(chain, l);
      assert n in gone <==> RejectAt(chain, n);
      AllGone(chain[..n - 1], gone);
    }
  }

  lemma OthersAppend(kept: seq<string>, line: string)
    ensures OtherRules(kept + [line]) == OtherRules(kept) + (if Rejects(line) then [] else [line])
  {
    hide Rejects;
    assert (kept + [line])[..|kept|] == kept;
  }

  lemma OthersLast(chain: seq<string>)
    requires chain != []
    ensures var n := |chain|;
      OtherRules(chain) == OtherRules(chain[..n - 1]) + (if Rejects(chain[n - 1]) then [] else [chain[n - 1]])
  {
    assert chain == chain[..|chain| - 1] + [chain[|chain| - 1]];
    OthersAppend(chain[..|chain| - 1], chain[|chain| - 1]);
  }

  lemma WithoutLast(chain: seq<string>, gone: set<nat>)
    requires chain != []
    ensures var n := |chain|;
      Without(chain, gone) == Without(chain[..n - 1], gone - {n}) + (if n in gone then [] else [chain[n - 1]])
  {
    LastOut(chain[..|chain| - 1], gone, |chain|);
  }

  lemma OneFewer(gone: set<nat>, n: nat)
    ensures |gone| == |gone - {n}| + (if n in gone then 1 else 0)
  {
    if n in gone {
      assert gone == gone - {n} + {n};
    } else {
      assert gone == gone - {n};
    }
  }

  /** Losing only REJECT rules, the other rules are all there, and each loss is one line. */
  lemma {:induction false} OthersKept(chain: seq<string>, gone: set<nat>)
    requires gone <= RejectLines(chain)
    ensures OtherRules(Without(chain, gone)) == OtherRules(chain)
    ensures |Without(chain, gone)| == |chain| - |gone|
    decreases |chain|
  {
    if chain == [] {
      assert gone == {};
    } else {
      var n := |chain|;
      var less := gone - {n};
      var kept := Without(chain[..n - 1], less);
      FewerLines(chain, gone);
      hide *;
      OthersKept(chain[..n - 1], less);
      WithoutLast(chain, gone);
      OthersLast(chain);
      OthersAppend(kept, chain[n - 1]);
      OneFewer(gone, n);
      assert kept + [] == kept;
    }
  }

  lemma FewerLines(chain: seq<string>, gone: set<nat>)
    requires chain != [] && gone <= RejectLines(chain)
    ensures gone - {|chain|} <= RejectLines(chain[..|chain| - 1])
    ensures |chain| in gone ==> Rejects(chain[|chain| - 1])
  {
    hide Rejects;
    var n := |chain|;
    forall g | g in gone - {n} ensures g in RejectLines(chain[..n - 1]) {
      assert RejectAt(chain, g) && RejectAt(chain[..n - 1], g);
    }
  }

  lemma LastOut(chain: seq<string>, gone: set<nat>, n: nat)
    requires n > |chain|
    ensures Without(chain, gone) == Without(chain, gone - {n})
  {
    SameBelow(chain, gone - {n}, n);
    assert n in gone ==> gone - {n} + {n} == gone;
    assert n !in gone ==> gone - {n} == gone;
  }

  // ----- the cleanup -----

  /** Sorted from the highest number down, each number once. */
  method SortDescending(lines: seq<nat>) returns (sorted: seq<nat>)
    ensures Descending(sorted) && forall l :: l in sorted <==> l in lines
  {
    sorted := [];
    for i := 0 to |lines|
      invariant Descending(sorted) && forall l :: l in sorted <==> l in lines[..i]
    {
      var k := 0;
      while k < |sorted| && sorted[k] > lines[i]
        invariant 0 <= k <= |sorted| && forall j :: 0 <= j < k ==> sorted[j] > lines[i]
      {
        k := k + 1;
      }
      assert lines[..i + 1] == lines[..i] + [lines[i]];
      if k == |sorted| || sorted[k] != lines[i] {
        ghost var was := sorted;
        assert forall l :: l in was[..k] + [lines[i]] + was[k..] <==> l == lines[i] || l in was by {
          assert was == was[..k] + was[k..];
        }
        sorted := sorted[..k] + [lines[i]] + sorted[k..];
      } else {
        assert lines[i] in sorted;
      }
    }
    assert lines[..|lines|] == lines;
  }

  class FilterChain {
    var rules: seq<string>
    var removed: nat
    var failed: nat

    constructor (rules: seq<string>)
      ensures this.rules == rules && removed == 0 && failed == 0
    {
      this.rules := rules;
      removed, failed := 0, 0;
    }

    /** The numbers of the lines that mention REJECT, from the last to the first. */
    method RejectRuleLines() returns (lines: seq<nat>)
      ensures Descending(lines)
      ensures forall l :: l in lines <==> l in RejectLines(rules)
    {
      lines := [];
      for i := 0 to |rules|
        invariant forall l: nat :: l in lines <==> l <= i && RejectAt(rules, l)
      {
        assert RejectAt(rules, i + 1) == Rejects(rules[i]);
        if Rejects(rules[i]) {
          lines := lines + [i + 1];
        }
      }
      lines := SortDescending(lines);
    }

    /** One deletion by number, which may fail for any reason. */
    method DeleteLine(line: nat) returns (ok: bool)
      requires 1 <= line <= |rules|
      modifies this`rules
      ensures rules == if ok then old(rules)[..line - 1] + old(rules)[line..] else old(rules)
    {
      ok := *;
      if ok {
        rules := rules[..line - 1] + rules[line..];
      }
    }

    /**
     Whatever deletions fail: what is gone are REJECT rules, one for each deletion
     counted as done, the rest of them is counted as failed, and all other rules
     are there in their order.
     */
    method RemoveRejectRules() returns (ghost gone: set<nat>)
      modifies this
      ensures gone <= RejectLines(old(rules)) && rules == Without(old(rules), gone)
      ensures removed == old(removed) + |gone| && failed == old(failed) + |RejectLines(old(rules)) - gone|
      ensures OtherRules(rules) == OtherRules(old(rules))
      ensures failed == old(failed) ==> rules == OtherRules(old(rules))
    {
      hide Rejects, Without, OtherRules, RejectAt, RejectLines;
      ghost var was, rejects := rules, RejectLines(rules);
      var lines := RejectRuleLines();
      gone := {};
      NothingGone(was);
      ghost var kept: set<nat> := {};
      for i := 0 to |lines|
        invariant gone !! kept && gone + kept == Elements(lines[..i])
        invariant rules == Without(was, gone)
        invariant removed >= old(removed) && |rules| + (removed - old(removed)) == |was|
        invariant failed >= old(failed) && (removed - old(removed)) + (failed - old(failed)) == i
      {
        var line := lines[i];
        assert line in lines;
        NextLine(lines, i, gone, kept);
        PrefixStays(was, gone, line);
        OneMoreGone(was, gone, line);
        hide Elements, Descending;
        var ok := DeleteLine(line);
        if ok {
          removed, gone := removed + 1, gone + {line};
        } else {
          failed, kept := failed + 1, kept + {line};
        }
      }
      assert lines[..|lines|] == lines;
      assert gone + kept == rejects;
      Conclude(was, gone, kept);
      Counted(lines);
      assert Elements(lines) == rejects;
    }
  }

  /** Distinct lines are counted once each. */
  lemma {:induction false} Counted(lines: seq<nat>)
    requires Descending(lines)
    ensures |Elements(lines)| == |lines|
    decreases |lines|
  {
    if lines == [] {
      assert Elements(lines) == {};
    } else {
      var n := |lines| - 1;
      Counted(lines[..n]);
      assert lines == lines[..n] + [lines[n]];
      assert Elements(lines) == Elements(lines[..n]) + {lines[n]};
      assert lines[n] !in lines[..n];
    }
  }

  /** What the split into deleted and failed lines amounts to. */
  lemma Conclude(was: seq<string>, gone: set<nat>, kept: set<nat>)
    requires gone !! kept && gone + kept == RejectLines(was)
    ensures RejectLines(was) - gone == kept && OtherRules(Without(was, gone)) == OtherRules(was)
    ensures |Without(was, gone)| == |was| - |gone| && |kept| == |RejectLines(was)| - |gone|
    ensures |kept| == 0 ==> Without(was, gone) == OtherRules(was)
  {
    hide Rejects;
    OthersKept(was, gone);
    if |kept| == 0 {
      assert gone == RejectLines(was);
      forall l: nat | 1 <= l <= |was| ensures l in gone <==> RejectAt(was, l) {
      }
      AllGone(was, gone);
    }
  }

  lemma {:induction false} NothingGone(chain: seq<string>)
    ensures Without(chain, {}) == chain
    decreases |chain|
  {
    if chain != [] {
      NothingGone(chain[..|chain| - 1]);
    }
  }
}
