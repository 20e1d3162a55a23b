/**
 Removing the blocks an earlier version kept in the user's file between a begin
 and an end marker.  The loop starts its search anew after every block; it is
 proved to be one pass over the lines, and never to touch part of a line.
 */
module ManagedBlock {
  import opened Bytes

  const BEGIN := "# boxctl managed tun begin"
  const END := "# boxctl managed tun end"

  // ----- searching -----

  predicate OccursAt(s: string, m: string, i: nat) { i + |m| <= |s| && s[i..i + |m|] == m }

  /** The first occurrence. */
  function Find(s: string, m: string): (r: Option<nat>)
    ensures r.Some? ==> OccursAt(s, m, r.value) && forall j: nat :: j < r.value ==> !OccursAt(s, m, j)
    ensures r.None? ==> forall j: nat :: !OccursAt(s, m, j)
  {
    FindFrom(s, m, 0)
  }

  function FindFrom(s: string, m: string, i: nat): (r: Option<nat>)
    requires i <= |s|
    ensures r.Some? ==> r.value >= i && OccursAt(s, m, r.value) && forall j: nat :: i <= j < r.value ==> !OccursAt(s, m, j)
    ensures r.None? ==> forall j: nat :: i <= j ==> !OccursAt(s, m, j)
    decreases |s| - i
  {
    if OccursAt(s, m, i) then Some(i) else if i == |s| then None else FindFrom(s, m, i + 1)
  }

  /** Behind the last newline before a position. */
  function LineStart(s: string, i: nat): (k: nat)
    requires i <= |s|
    ensures k <= i && (k == 0 || s[k - 1] == '\n') && forall j :: k <= j < i ==> s[j] != '\n'
  {
    if i == 0 || s[i - 1] == '\n' then i else LineStart(s, i - 1)
  }

  /** Behind the next newline from a position, or the end. */
  function LineEnd(s: string, i: nat): (k: nat)
    requires i <= |s|
    ensures i <= k <= |s| && (k == |s| || (k > i && s[k - 1] == '\n'))
    ensures forall j :: i <= j < k - 1 ==> s[j] != '\n'
    decreases |s| - i
  {
    if i == |s| then i else if s[i] == '\n' then i + 1 else LineEnd(s, i + 1)
  }

  // ----- one block -----

  /** The first begin marker with an end marker behind it, as the lines they are on. */
  function Block(s: string): (r: Option<(nat, nat)>)
    ensures r.Some? ==> r.value.0 < r.value.1 <= |s|
  {
    match Find(s, BEGIN)
    case None => None
    case Some(begin) =>
      match Find(s[begin..], END)
      case None => None
      case Some(relative) => Some((LineStart(s, begin), LineEnd(s, begin + relative + |END|)))
  }

  function Cut(s: string, from: nat, to: nat): (r: string)
    requires from <= to <= |s|
    ensures |r| == |s| - (to - from)
  {
    s[..from] + s[to..]
  }

  /** Removal that starts over after each block, as the loop does. */
  function Restarting(s: string): string
    decreases |s|
  {
    match Block(s)
    case None => s
    case Some(b) => Restarting(Cut(s, b.0, b.1))
  }

  lemma RestartingDone(s: string)
    requires Block(s) == None
    ensures Restarting(s) == s
  {
  }

  lemma RestartingAt(s: string, begin: nat, relative: nat)
    requires Find(s, BEGIN) == Some(begin) && Find(s[begin..], END) == Some(relative)
    ensures var start, end := LineStart(s, begin), LineEnd(s, begin + relative + |END|);
      start < end <= |s| && Restarting(s) == Restarting(Cut(s, start, end))
  {
    hide BEGIN, END;
    assert Block(s) == Some((LineStart(s, begin), LineEnd(s, begin + relative + |END|)));
    hide Cut, Find, LineStart, LineEnd;
  }

  method RemoveLegacyManagedTunBlock(text: string) returns (output: string)
    ensures output == Restarting(text)
    ensures Lines(output) == Chosen(Lines(text), Staying(Lines(text)))
    ensures NoBlock(output) && (NoBlock(text) ==> output == text)
  {
    hide BEGIN, END, Restarting, Cut, LineStart, LineEnd, NoBlock, Lines, Chosen, Staying;
    LinesLeft(text);
    RemovalDone(text);
    output := text;
    while true
      invariant Restarting(output) == Restarting(text)
      decreases |output|
    {
      var found := Find(output, BEGIN);
      if found == None {
        RestartingDone(output);
        break;
      }
      var begin := found.value;
      var relative := Find(output[begin..], END);
      if relative == None {
        RestartingDone(output);
        break;
      }
      RestartingAt(output, begin, relative.value);
      var start := LineStart(output, begin);
      var endMarker := begin + relative.value + |END|;
      var end := LineEnd(output, endMarker);
      output := Cut(output, start, end);
    }
  }

  // ----- one pass -----

  /** The same, going on behind each block. */
  function OnePass(s: string): string
    decreases |s|
  {
    match Block(s)
    case None => s
    case Some(b) => s[..b.0] + OnePass(s[b.1..])
  }

  predicate WholeLines(s: string) { s == "" || s[|s| - 1] == '\n' }

  predicate SingleLine(m: string) { m != "" && forall i :: 0 <= i < |m| ==> m[i] != '\n' }

  lemma MarkersAreSingleLines()
    ensures SingleLine(BEGIN) && SingleLine(END)
  {
  }

  /** A marker does not reach across the end of a line: joining lines makes none. */
  lemma OccursInOne(a: string, b: string, m: string, i: nat)
    requires WholeLines(a) && SingleLine(m)
    ensures OccursAt(a + b, m, i)
      <==> (i + |m| <= |a| && OccursAt(a, m, i)) || (i >= |a| && OccursAt(b, m, i - |a|))
  {
    if i + |m| <= |a| {
      assert (a + b)[i..i + |m|] == a[i..i + |m|];
    } else if i >= |a| {
      if i + |m| <= |a + b| {
        assert (a + b)[i..i + |m|] == b[i - |a|..i - |a| + |m|];
      }
    } else {
      var k := |a| - 1 - i;
      assert m[k] != '\n' && (a + b)[i + k] == '\n';
      assert i + |m| <= |a + b| ==> (a + b)[i..i + |m|][k] == (a + b)[i + k];
    }
  }

  lemma FindAt(s: string, m: string, i: nat)
    requires OccursAt(s, m, i) && forall j: nat :: j < i ==> !OccursAt(s, m, j)
    ensures Find(s, m) == Some(i)
  {
  }

  /** Searching whole lines and what follows them. */
  lemma FindJoined(a: string, b: string, m: string)
    requires WholeLines(a) && SingleLine(m) && Find(a, m) == None
    ensures Find(a + b, m) == match Find(b, m) case None => None case Some(i) => Some(|a| + i)
  {
    forall j: nat ensures OccursAt(a + b, m, j) <==> j >= |a| && OccursAt(b, m, j - |a|) {
      OccursInOne(a, b, m, j);
    }
    match Find(b, m)
    case None =>
    case Some(i) => FindAt(a + b, m, |a| + i);
  }

  lemma {:induction false} LineStartJoined(a: string, b: string, i: nat)
    requires WholeLines(a) && i <= |b|
    ensures LineStart(a + b, |a| + i) == |a| + LineStart(b, i)
    decreases i
  {
    if i > 0 && b[i - 1] != '\n' {
      LineStartJoined(a, b, i - 1);
    }
  }

  lemma {:induction false} LineEndJoined(a: string, b: string, i: nat)
    requires i <= |b|
    ensures LineEnd(a + b, |a| + i) == |a| + LineEnd(b, i)
    decreases |b| - i
  {
    if i < |b| && b[i] != '\n' {
      LineEndJoined(a, b, i + 1);
    }
  }

  /** Whole lines without a begin marker in front do not change which block is found. */
  lemma BlockJoined(a: string, b: string)
    requires WholeLines(a) && Find(a, BEGIN) == None
    ensures Block(a + b) == match Block(b) case None => None case Some(r) => Some((|a| + r.0, |a| + r.1))
  {
    MarkersAreSingleLines();
    hide BEGIN, END, WholeLines, SingleLine, Find, LineStart, LineEnd;
    FindJoined(a, b, BEGIN);
    match Find(b, BEGIN)
    case None =>
    case Some(begin) =>
      assert (a + b)[|a| + begin..] == b[begin..];
      match Find(b[begin..], END)
      case None =>
      case Some(relative) =>
        LineStartJoined(a, b, begin);
        LineEndJoined(a, b, begin + relative + |END|);
  }

  lemma {:induction false} RestartingJoined(a: string, b: string)
    requires WholeLines(a) && Find(a, BEGIN) == None
    ensures Restarting(a + b) == a + Restarting(b)
    decreases |b|
  {
    hide BEGIN, END, WholeLines, Find, Block, Cut;
    BlockJoined(a, b);
    match Block(b)
    case None =>
    case Some(r) =>
      CutJoined(a, b, r.0, r.1);
      RestartingJoined(a, Cut(b, r.0, r.1));
  }

  lemma CutJoined(a: string, b: string, from: nat, to: nat)
    requires from <= to <= |b|
    ensures Cut(a + b, |a| + from, |a| + to) == a + Cut(b, from, to)
  {
  }

  /** What precedes a block are whole lines without a begin marker. */
  lemma BeforeBlock(s: string)
    requires Block(s).Some?
    ensures var a := s[..Block(s).value.0]; WholeLines(a) && Find(a, BEGIN) == None
  {
    var start := Block(s).value.0;
    var a := s[..start];
    if Find(a, BEGIN).Some? {
      var i := Find(a, BEGIN).value;
      assert s[i..i + |BEGIN|] == a[i..i + |BEGIN|];
      assert OccursAt(s, BEGIN, i);
    }
  }

  /** Starting over after each block is one pass over the text. */
  lemma {:induction false} RestartingIsOnePass(s: string)
    ensures Restarting(s) == OnePass(s)
    decreases |s|
  {
    match Block(s)
    case None =>
    case Some(b) =>
      BeforeBlock(s);
      RestartingJoined(s[..b.0], s[b.1..]);
      RestartingIsOnePass(s[b.1..]);
  }

  // ----- lines -----

  /** The lines of a text, with their newlines. */
  function Lines(s: string): (lines: seq<string>)
    decreases |s|
  {
    if s == "" then [] else [s[..LineEnd(s, 0)]] + Lines(s[LineEnd(s, 0)..])
  }

  lemma {:induction false} LineEndInside(a: string, b: string, i: nat)
    requires i < |a| && WholeLines(a)
    ensures LineEnd(a + b, i) == LineEnd(a, i) <= |a|
    decreases |a| - i
  {
    if a[i] != '\n' {
      LineEndInside(a, b, i + 1);
    }
  }

  lemma FirstLineJoined(a: string, b: string)
    requires a != "" && WholeLines(a)
    ensures var k := LineEnd(a, 0);
      && 0 < k <= |a| && WholeLines(a[k..])
      && Lines(a) == [a[..k]] + Lines(a[k..]) && Lines(a + b) == [a[..k]] + Lines(a[k..] + b)
  {
    LineEndInside(a, b, 0);
    var k := LineEnd(a, 0);
    assert (a + b)[..k] == a[..k] && (a + b)[k..] == a[k..] + b;
  }

  lemma {:induction false} LinesJoined(a: string, b: string)
    requires WholeLines(a)
    ensures Lines(a + b) == Lines(a) + Lines(b)
    decreases |a|
  {
    if a == "" {
      assert a + b == b && Lines(a) == [] && [] + Lines(b) == Lines(b);
    } else {
      hide *;
      FirstLineJoined(a, b);
      var k := LineEnd(a, 0);
      LinesJoined(a[k..], b);
      Associates([a[..k]], Lines(a[k..]), Lines(b));
    }
  }

  /** `kept` is `all` without some of its elements. */
  predicate Subsequence(kept: seq<string>, all: seq<string>)
    decreases |all|
  {
    if all == [] then kept == []
    else Subsequence(kept, all[1..]) || (kept != [] && kept[0] == all[0] && Subsequence(kept[1..], all[1..]))
  }

  lemma {:induction false} SubsequenceSame(a: seq<string>)
    ensures Subsequence(a, a)
  {
    if a != [] {
      SubsequenceSame(a[1..]);
    }
  }

  lemma {:induction false} SubsequenceJoined(a: seq<string>, gone: seq<string>, kept: seq<string>, all: seq<string>)
    requires Subsequence(kept, all)
    ensures Subsequence(a + kept, a + gone + all)
    decreases |a| + |gone|
  {
    if a != [] {
      SubsequenceJoined(a[1..], gone, kept, all);
      assert (a + kept)[1..] == a[1..] + kept && (a + gone + all)[1..] == a[1..] + gone + all;
    } else if gone != [] {
      SubsequenceJoined(a, gone[1..], kept, all);
      assert (a + gone + all)[1..] == a + gone[1..] + all;
    } else {
      assert a + kept == kept && a + gone + all == all;
    }
  }

  /** A block is whole lines, or reaches to the end of the text. */
  lemma BlockIsLines(s: string)
    requires Block(s).Some?
    ensures var b := Block(s).value; Lines(s[b.0..b.1] + s[b.1..]) == Lines(s[b.0..b.1]) + Lines(s[b.1..])
  {
    hide BEGIN, END, Find;
    var b := Block(s).value;
    var gone, rest := s[b.0..b.1], s[b.1..];
    if b.1 < |s| {
      assert gone[|gone| - 1] == s[b.1 - 1] == '\n';
      LinesJoined(gone, rest);
    } else {
      assert rest == "" && gone + rest == gone;
      assert Lines(gone) + [] == Lines(gone);
    }
  }

  /** Only whole lines are removed, and the others keep their order. */
  lemma {:induction false} WholeLinesOnly(s: string)
    ensures Subsequence(Lines(OnePass(s)), Lines(s))
    decreases |s|
  {
    hide BEGIN, END, Find, Lines, Subsequence;
    match Block(s)
    case None => SubsequenceSame(Lines(s));
    case Some(b) =>
      BeforeBlock(s);
      BlockIsLines(s);
      hide Block, WholeLines;
      var a, gone, rest := s[..b.0], s[b.0..b.1], s[b.1..];
      WholeLinesOnly(rest);
      LinesJoined(a, OnePass(rest));
      InThree(s, b.0, b.1);
      LinesJoined(a, gone + rest);
      SubsequenceJoined(Lines(a), Lines(gone), Lines(OnePass(rest)), Lines(rest));
      Associates(Lines(a), Lines(gone), Lines(rest));
  }

  lemma InThree(s: string, i: nat, j: nat)
    requires i <= j <= |s|
    ensures s == s[..i] + (s[i..j] + s[j..])
  {
  }

  lemma Associates(a: seq<string>, b: seq<string>, c: seq<string>)
    ensures a + (b + c) == a + b + c
  {
  }

  // ----- markers in the result -----

  /** No begin marker is followed by an end marker. */
  ghost predicate NoBlock(s: string) {
    forall i: nat, j: nat ::
      OccursAt(s, "# boxctl managed tun begin", i) && OccursAt(s, "# boxctl managed tun end", j) ==> j < i
  }

  lemma NoneLeft(s: string)
    requires Block(s) == None
    ensures NoBlock(s)
  {
    forall i: nat, j: nat | OccursAt(s, BEGIN, i) && OccursAt(s, END, j) ensures j < i {
      var first := Find(s, BEGIN).value;
      if j >= i {
        assert first <= i;
        assert s[first..][j - first..j - first + |END|] == s[j..j + |END|];
        assert OccursAt(s[first..], END, j - first);
      }
    }
  }

  lemma {:induction false} RestartingEnds(s: string)
    ensures Block(Restarting(s)) == None
    decreases |s|
  {
    match Block(s)
    case None =>
    case Some(b) => RestartingEnds(Cut(s, b.0, b.1));
  }

  lemma BlockOccurs(s: string)
    requires Block(s).Some?
    ensures !NoBlock(s)
  {
    var i := Find(s, BEGIN).value;
    var k := Find(s[i..], END).value;
    assert s[i..][k..k + |END|] == s[i + k..i + k + |END|];
    assert OccursAt(s, BEGIN, i) && OccursAt(s, END, i + k);
  }

  /** The result holds no block, and a text is left as it is exactly if it has none. */
  lemma RemovalDone(s: string)
    ensures NoBlock(Restarting(s))
    ensures Restarting(s) == s <==> NoBlock(s)
  {
    RestartingEnds(s);
    NoneLeft(Restarting(s));
    if Block(s).Some? {
      BlockOccurs(s);
    }
  }

  lemma {:induction false} KeptLine(kept: seq<string>, all: seq<string>, line: string)
    requires Subsequence(kept, all) && line in kept
    ensures line in all
    decreases |all|
  {
    if Subsequence(kept, all[1..]) {
      KeptLine(kept, all[1..], line);
    } else if line != kept[0] {
      KeptLine(kept[1..], all[1..], line);
    }
  }

  lemma NotAcross(s: string, m: string, i: nat, k: nat)
    requires SingleLine(m) && OccursAt(s, m, i) && k < |m|
    ensures s[i + k] != '\n'
  {
    assert s[i..i + |m|][k] == s[i + k];
  }

  lemma WithinLine(s: string, m: string, i: nat)
    requires SingleLine(m) && OccursAt(s, m, i) && i < LineEnd(s, 0)
    ensures i + |m| <= LineEnd(s, 0)
  {
    forall k | 0 <= k < |m| ensures m[k] != '\n' && s[i + k] == m[k] {
      assert s[i..i + |m|][k] == s[i + k];
    }
    hide SingleLine, OccursAt;
    var k := LineEnd(s, 0) - 1 - i;
    assert k < |m| ==> m[k] != '\n';
  }

  lemma OccursInFront(s: string, k: nat, m: string, i: nat)
    requires k <= |s| && i + |m| <= k
    ensures OccursAt(s[..k], m, i) == OccursAt(s, m, i)
  {
    assert s[..k][i..i + |m|] == s[i..i + |m|];
  }

  lemma OccursBehind(s: string, b: nat, m: string, i: nat)
    requires b <= |s|
    ensures OccursAt(s[b..], m, i) <==> OccursAt(s, m, b + i)
  {
    if b + i + |m| <= |s| {
      assert s[b..][i..i + |m|] == s[b + i..b + i + |m|];
    }
  }

  lemma EndedLine(s: string, k: nat)
    requires 0 < k <= |s| && (k < |s| ==> s[k - 1] == '\n')
    ensures s[..k] + s[k..] == s && (s[k..] == "" || WholeLines(s[..k]))
  {
    if k < |s| {
      assert s[..k][k - 1] == s[k - 1];
    }
  }

  lemma FirstLine(s: string)
    requires s != ""
    ensures var k := LineEnd(s, 0); 0 < k <= |s| && s[..k] + s[k..] == s && (s[k..] == "" || WholeLines(s[..k]))
  {
    hide *;
    EndedLine(s, LineEnd(s, 0));
  }

  lemma FirstAmong(s: string)
    requires s != ""
    ensures s[..LineEnd(s, 0)] in Lines(s) && forall l :: l in Lines(s[LineEnd(s, 0)..]) ==> l in Lines(s)
  {
  }

  /** A marker lies within one line. */
  lemma {:induction false} MarkerInLine(s: string, m: string, i: nat)
    requires SingleLine(m) && OccursAt(s, m, i)
    ensures exists line, j: nat :: line in Lines(s) && OccursAt(line, m, j)
    decreases |s|
  {
    assert i < |s|;
    hide SingleLine, OccursAt, Lines, LineEnd;
    FirstLine(s);
    FirstAmong(s);
    var end := LineEnd(s, 0);
    if i < end {
      WithinLine(s, m, i);
      OccursInFront(s, end, m, i);
      assert s[..end] in Lines(s) && OccursAt(s[..end], m, i);
    } else {
      OccursBehind(s, end, m, i - end);
      MarkerInLine(s[end..], m, i - end);
      var l, j: nat :| l in Lines(s[end..]) && OccursAt(l, m, j);
      assert l in Lines(s);
    }
  }

  /** No marker comes into being where the remains are joined: every one in the result
      lies within a line that was a line of the text. */
  lemma NoMarkerMade(s: string, m: string, i: nat)
    requires (m == BEGIN || m == END) && OccursAt(Restarting(s), m, i)
    ensures exists line, j: nat :: line in Lines(Restarting(s)) && line in Lines(s) && OccursAt(line, m, j)
  {
    MarkersAreSingleLines();
    RestartingIsOnePass(s);
    WholeLinesOnly(s);
    hide BEGIN, END, SingleLine, OccursAt, Lines, OnePass, Restarting, Subsequence;
    MarkerInLine(Restarting(s), m, i);
    var line, j: nat :| line in Lines(Restarting(s)) && OccursAt(line, m, j);
    KeptLine(Lines(Restarting(s)), Lines(s), line);
  }

  // ----- which lines go -----

  /** How many lines there are up to the first with a marker, itself included. */
  function UpTo(lines: seq<string>, m: string): (n: Option<nat>)
    ensures n.Some? ==> 0 < n.value <= |lines|
  {
    if lines == [] then None
    else if Find(lines[0], m).Some? then Some(1)
    else match UpTo(lines[1..], m) case None => None case Some(n) => Some(n + 1)
  }

  /** The same from a position of the first line on. */
  function UpToFrom(lines: seq<string>, b: nat, m: string): (n: Option<nat>)
    requires lines != [] && b <= |lines[0]|
    ensures n.Some? ==> 0 < n.value <= |lines|
  {
    if Find(lines[0][b..], m).Some? then Some(1)
    else match UpTo(lines[1..], m) case None => None case Some(n) => Some(n + 1)
  }

  /** The lines that stay, going through them one by one. */
  function Staying(lines: seq<string>): (keep: seq<bool>)
    ensures |keep| == |lines|
    decreases |lines|
  {
    if lines == [] then [] else
      match Find(lines[0], "# boxctl managed tun begin")
      case None => [true] + Staying(lines[1..])
      case Some(b) =>
        match UpToFrom(lines, b, "# boxctl managed tun end")
        case None => seq(|lines|, _ => true)
        case Some(n) => seq(n, _ => false) + Staying(lines[n..])
  }

  function Chosen(lines: seq<string>, keep: seq<bool>): seq<string>
    requires |keep| == |lines|
  {
    if lines == [] then [] else (if keep[0] then [lines[0]] else []) + Chosen(lines[1..], keep[1..])
  }

  lemma {:induction false} ChosenAll(lines: seq<string>)
    ensures Chosen(lines, seq(|lines|, _ => true)) == lines
  {
    if lines != [] {
      ChosenAll(lines[1..]);
      assert seq(|lines|, _ => true)[1..] == seq(|lines[1..]|, _ => true);
    }
  }

  lemma {:induction false} ChosenBehind(lines: seq<string>, n: nat, keep: seq<bool>)
    requires n <= |lines| && |keep| == |lines| - n
    ensures Chosen(lines, seq(n, _ => false) + keep) == Chosen(lines[n..], keep)
    decreases n
  {
    var all := seq(n, _ => false) + keep;
    if n == 0 {
      assert all == keep;
    } else {
      assert all[1..] == seq(n - 1, _ => false) + keep && lines[1..][n - 1..] == lines[n..];
      ChosenBehind(lines[1..], n - 1, keep);
    }
  }

  /** From anywhere in its first line, a text's first line ends at the same place. */
  lemma FirstLineEnds(s: string, m: string, i: nat)
    requires SingleLine(m) && i + |m| <= LineEnd(s, 0) && OccursAt(s, m, i)
    ensures LineEnd(s, i + |m|) == LineEnd(s, 0)
  {
    var k := LineEnd(s, 0);
    NotAcross(s, m, i, |m| - 1);
  }

  lemma NowhereIn(m: string)
    requires m != ""
    ensures Find("", m) == None
  {
  }

  /** The first occurrence in a beginning of a text is the first of the text. */
  lemma FindInFront(s: string, k: nat, m: string)
    requires k <= |s| && Find(s[..k], m).Some?
    ensures var i := Find(s[..k], m).value; i + |m| <= k && OccursAt(s, m, i) && Find(s, m) == Some(i)
  {
    var i := Find(s[..k], m).value;
    assert i + |m| <= k;
    hide Find, OccursAt;
    OccursInFront(s, k, m, i);
    forall j: nat | j < i ensures !OccursAt(s, m, j) {
      OccursInFront(s, k, m, j);
    }
    FindAt(s, m, i);
  }

  lemma LinesFirst(s: string)
    requires s != ""
    ensures CutsAt(s, LineEnd(s, 0), 1)
    ensures var k := LineEnd(s, 0);
      0 < k <= |s| && Lines(s) == [s[..k]] + Lines(s[k..]) && Lines(s)[0] == s[..k] && Lines(s)[1..] == Lines(s[k..])
  {
  }

  /** Occurrences behind the first line. */
  lemma FindBehind(s: string, m: string)
    requires SingleLine(m) && s != "" && Find(s[..LineEnd(s, 0)], m) == None
    ensures var k := LineEnd(s, 0);
      Find(s, m) == match Find(s[k..], m) case None => None case Some(i) => Some(k + i)
  {
    hide Find, OccursAt, Lines;
    var k := LineEnd(s, 0);
    FirstLine(s);
    if s[k..] == "" {
      NowhereIn(m);
      assert s == s[..k];
    } else {
      FindJoined(s[..k], s[k..], m);
    }
  }

  /** Behind a position the text has the lines behind the first `n`. */
  predicate CutsAt(s: string, i: nat, n: nat) { i <= |s| && n <= |Lines(s)| && Lines(s[i..]) == Lines(s)[n..] }

  /** Cutting behind the line of the first marker. */
  lemma {:induction false} CutBehind(s: string, m: string)
    requires SingleLine(m)
    ensures match Find(s, m)
      case None => UpTo(Lines(s), m) == None
      case Some(j) => UpTo(Lines(s), m).Some? && CutsBehind(s, j + |m|, UpTo(Lines(s), m).value)
    decreases |s|
  {
    hide *;
    if s == "" {
      NothingToCut(m);
    } else {
      var k := LineEnd(s, 0);
      FirstLine(s);
      LinesFirst(s);
      CutBehind(s[k..], m);
      UpToFirst(Lines(s), 0, m);
      match Find(s[..k], m)
      case Some(i) =>
        FindInFront(s, k, m);
        FirstLineEnds(s, m, i);
        EndsAt(s, i + |m|, 1);
      case None =>
        FindBehind(s, m);
        if Find(s, m).Some? {
          CutLater(s, k, 0, Find(s, m).value, m);
        }
    }
  }

  lemma NothingToCut(m: string)
    requires SingleLine(m)
    ensures Find("", m) == None && UpTo(Lines(""), m) == None
  {
    NowhereIn(m);
  }

  lemma UpToFirst(lines: seq<string>, b: nat, m: string)
    requires lines != [] && b <= |lines[0]|
    ensures UpTo(lines, m)
         == if Find(lines[0], m).Some? then Some(1) else match UpTo(lines[1..], m) case None => None case Some(n) => Some(n + 1)
    ensures UpToFrom(lines, b, m)
         == if Find(lines[0][b..], m).Some? then Some(1)
            else match UpTo(lines[1..], m) case None => None case Some(n) => Some(n + 1)
  {
  }

  lemma CutsThrough(s: string, k: nat, e: nat, n: nat)
    requires CutsAt(s, k, 1) && CutsAt(s[k..], e, n)
    ensures CutsAt(s, k + e, n + 1)
  {
    hide Lines;
    assert s[k..][e..] == s[k + e..];
    assert Lines(s)[1..][n..] == Lines(s)[n + 1..];
  }

  lemma LineEndBehind(s: string, k: nat, i: nat)
    requires k + i <= |s|
    ensures LineEnd(s, k + i) == k + LineEnd(s[k..], i)
  {
    hide LineEnd;
    LineEndJoined(s[..k], s[k..], i);
    assert s[..k] + s[k..] == s;
  }

  lemma CutBehindLine(s: string, i: nat, n: nat, e: nat)
    requires s != "" && i <= |s[LineEnd(s, 0)..]| && e == LineEnd(s, 0) + i
    requires CutsAt(s[LineEnd(s, 0)..], LineEnd(s[LineEnd(s, 0)..], i), n)
    ensures e <= |s| && CutsAt(s, LineEnd(s, e), n + 1)
  {
    hide *;
    FirstLine(s);
    LinesFirst(s);
    var k := LineEnd(s, 0);
    LineEndBehind(s, k, i);
    CutsThrough(s, k, LineEnd(s[k..], i), n);
  }

  lemma EndsAt(s: string, e: nat, n: nat)
    requires e <= |s| && CutsAt(s, LineEnd(s, e), n)
    ensures CutsBehind(s, e, n)
  {
    hide LineEnd, CutsAt;
  }

  lemma CutInFirst(s: string, b: nat, m: string)
    requires SingleLine(m) && s != "" && b <= LineEnd(s, 0) && Find(s[..LineEnd(s, 0)][b..], m).Some?
    ensures var i := Find(s[..LineEnd(s, 0)][b..], m).value;
      Find(s[b..], m) == Some(i) && CutsBehind(s, b + i + |m|, 1)
  {
    hide *;
    FirstLine(s);
    LinesFirst(s);
    var k := LineEnd(s, 0);
    assert s[b..][..k - b] == s[..k][b..];
    FindInFront(s[b..], k - b, m);
    var i := Find(s[b..], m).value;
    OccursBehind(s, b, m, i);
    FirstLineEnds(s, m, b + i);
    EndsAt(s, b + i + |m|, 1);
  }

  lemma CutInLater(s: string, b: nat, m: string)
    requires SingleLine(m) && s != "" && b <= LineEnd(s, 0) && Find(s[..LineEnd(s, 0)][b..], m) == None
    ensures var n := UpTo(Lines(s[LineEnd(s, 0)..]), m);
      match Find(s[b..], m)
      case None => n == None
      case Some(i) => n.Some? && CutsBehind(s, b + i + |m|, n.value + 1)
  {
    hide *;
    FirstLine(s);
    FindBehindFrom(s, b, m);
    CutBehind(s[LineEnd(s, 0)..], m);
    if Find(s[b..], m).Some? {
      CutLater(s, LineEnd(s, 0), b, Find(s[b..], m).value, m);
    }
  }

  predicate CutsBehind(s: string, e: nat, n: nat) { e <= |s| && CutsAt(s, LineEnd(s, e), n) }

  lemma CutLater(s: string, k: nat, b: nat, i: nat, m: string)
    requires s != "" && k == LineEnd(s, 0) && b <= k && k <= b + i && UpTo(Lines(s[k..]), m).Some?
    requires CutsBehind(s[k..], b + i - k + |m|, UpTo(Lines(s[k..]), m).value)
    ensures CutsBehind(s, b + i + |m|, UpTo(Lines(s[k..]), m).value + 1)
  {
    hide Lines, UpTo, LineEnd;
    CutBehindLine(s, b + i - k + |m|, UpTo(Lines(s[k..]), m).value, b + i + |m|);
  }

  /** The same from a position of the first line on. */
  lemma CutBehindFrom(s: string, b: nat, m: string)
    requires SingleLine(m) && s != "" && b <= LineEnd(s, 0)
    ensures Lines(s) != [] && b <= |Lines(s)[0]|
    ensures var n := UpToFrom(Lines(s), b, m);
      match Find(s[b..], m)
      case None => n == None
      case Some(i) => n.Some? && CutsBehind(s, b + i + |m|, n.value)
  {
    hide *;
    LinesFirst(s);
    UpToFirst(Lines(s), b, m);
    if Find(s[..LineEnd(s, 0)][b..], m).Some? {
      CutInFirst(s, b, m);
    } else {
      CutInLater(s, b, m);
    }
  }

  lemma FindBehindFrom(s: string, b: nat, m: string)
    requires SingleLine(m) && s != "" && b <= LineEnd(s, 0) && Find(s[..LineEnd(s, 0)][b..], m) == None
    ensures var k := LineEnd(s, 0);
      Find(s[b..], m) == match Find(s[k..], m) case None => None case Some(i) => Some(k - b + i)
  {
    hide Find, OccursAt, Lines, LineEnd;
    var k := LineEnd(s, 0);
    FirstLine(s);
    var tail := s[..k][b..];
    assert s[b..] == tail + s[k..];
    if s[k..] == "" {
      NowhereIn(m);
      assert s[b..] == tail;
    } else {
      assert tail == "" || tail[|tail| - 1] == s[..k][k - 1];
      FindJoined(tail, s[k..], m);
    }
  }

  lemma CutsMean(s: string, e: nat, n: nat)
    requires CutsBehind(s, e, n)
    ensures e <= |s| && CutsAt(s, LineEnd(s, e), n)
  {
    hide LineEnd, CutsAt;
  }

  lemma MarkersNotEmpty()
    ensures BEGIN != "" && END != ""
  {
  }

  lemma StartsLine(s: string, b: nat)
    requires b < LineEnd(s, 0)
    ensures LineStart(s, b) == 0
  {
  }

  lemma BlockOf(s: string, b: nat)
    requires Find(s, BEGIN) == Some(b)
    ensures Block(s) == match Find(s[b..], END)
      case None => None
      case Some(i) => Some((LineStart(s, b), LineEnd(s, b + i + |END|)))
  {
    hide BEGIN, END, Find, LineStart, LineEnd;
  }

  /** A begin marker in the first line, and what its block takes away. */
  lemma BlockHere(s: string, b: nat)
    requires s != "" && Find(s[..LineEnd(s, 0)], BEGIN) == Some(b)
    ensures Lines(s) != [] && b <= |Lines(s)[0]|
    ensures match UpToFrom(Lines(s), b, END)
      case None => Block(s) == None
      case Some(n) => Block(s).Some? && Block(s).value.0 == 0 && CutsAt(s, Block(s).value.1, n)
  {
    hide *;
    hide BEGIN, END;
    MarkersAreSingleLines();
    MarkersNotEmpty();
    FindInFront(s, LineEnd(s, 0), BEGIN);
    StartsLine(s, b);
    BlockOf(s, b);
    CutBehindFrom(s, b, END);
    match Find(s[b..], END)
    case None =>
    case Some(i) => CutsMean(s, b + i + |END|, UpToFrom(Lines(s), b, END).value);
  }

  /** A first line without one stays. */
  lemma OnePassBehind(s: string)
    requires s != "" && Find(s[..LineEnd(s, 0)], BEGIN) == None
    ensures OnePass(s) == s[..LineEnd(s, 0)] + OnePass(s[LineEnd(s, 0)..])
  {
    hide *;
    hide BEGIN, END;
    FirstLine(s);
    var line, rest := s[..LineEnd(s, 0)], s[LineEnd(s, 0)..];
    if rest == "" {
      assert s == line;
      NoBlockWithout(s);
      NoBlockWithout("") by { MarkersNotEmpty(); NowhereIn(BEGIN); }
    } else {
      OnePassJoined(line, rest);
    }
  }

  lemma NoBlockWithout(s: string)
    requires Find(s, BEGIN) == None
    ensures Block(s) == None && OnePass(s) == s
  {
    hide BEGIN, Find;
  }

  lemma OnePassJoined(a: string, b: string)
    requires WholeLines(a) && Find(a, BEGIN) == None
    ensures OnePass(a + b) == a + OnePass(b)
  {
    hide BEGIN, END, Find, WholeLines, Block;
    BlockJoined(a, b);
    match Block(b)
    case None =>
    case Some(r) => assert (a + b)[..|a| + r.0] == a + b[..r.0] && (a + b)[|a| + r.1..] == b[r.1..];
  }

  lemma StayingFirst(lines: seq<string>)
    requires lines != []
    ensures match Find(lines[0], BEGIN)
      case None => Chosen(lines, Staying(lines)) == [lines[0]] + Chosen(lines[1..], Staying(lines[1..]))
      case Some(b) =>
        b <= |lines[0]|
        && match UpToFrom(lines, b, END)
           case None => Chosen(lines, Staying(lines)) == lines
           case Some(n) => Chosen(lines, Staying(lines)) == Chosen(lines[n..], Staying(lines[n..]))
  {
    hide Find, UpToFrom, Chosen;
    var keep := Staying(lines);
    match Find(lines[0], BEGIN)
    case None => ChosenFirst(lines, keep);
    case Some(b) =>
      match UpToFrom(lines, b, END)
      case None => ChosenAll(lines);
      case Some(n) => ChosenBehind(lines, n, Staying(lines[n..]));
  }

  lemma ChosenFirst(lines: seq<string>, keep: seq<bool>)
    requires lines != [] && |keep| == |lines| && keep[0]
    ensures Chosen(lines, keep) == [lines[0]] + Chosen(lines[1..], keep[1..])
  {
  }

  lemma BlockAtHead(s: string)
    requires Block(s).Some? && Block(s).value.0 == 0
    ensures OnePass(s) == OnePass(s[Block(s).value.1..])
  {
    assert s[..0] == "";
    hide Block, Find;
  }

  lemma FirstLineAlone(s: string)
    requires s != ""
    ensures Lines(s[..LineEnd(s, 0)]) == [s[..LineEnd(s, 0)]]
  {
    var k := LineEnd(s, 0);
    var line := s[..k];
    var e := LineEnd(line, 0);
    assert e > 0 && line[e - 1] == s[e - 1];
    assert line[..e] == line && line[e..] == "";
    assert Lines(line[e..]) == [];
  }

  lemma LinesOfFirst(s: string, t: string)
    requires s != "" && (s[LineEnd(s, 0)..] == "" ==> t == "")
    ensures Lines(s[..LineEnd(s, 0)] + t) == [s[..LineEnd(s, 0)]] + Lines(t)
  {
    FirstLine(s);
    FirstLineAlone(s);
    var line := s[..LineEnd(s, 0)];
    hide LineEnd;
    if t == "" {
      assert line + t == line && Lines(t) == [] && [line] + [] == [line];
    } else {
      LinesJoined(line, t);
    }
  }

  /** The text that is left has exactly the staying lines, in order. */
  lemma {:induction false} StayingLines(s: string)
    ensures Lines(OnePass(s)) == Chosen(Lines(s), Staying(Lines(s)))
    ensures s == "" ==> OnePass(s) == ""
    decreases |s|
  {
    if s == "" {
      hide *;
      hide BEGIN;
      MarkersNotEmpty();
      NowhereIn(BEGIN);
      NoBlockWithout(s);
      NoLines();
    } else {
      hide *;
      var k := LineEnd(s, 0);
      FirstLine(s);
      LinesFirst(s);
      StayingFirst(Lines(s));
      match Find(s[..k], BEGIN)
      case None =>
        OnePassBehind(s);
        StayingLines(s[k..]);
        LinesOfFirst(s, OnePass(s[k..]));
      case Some(b) =>
        BlockHere(s, b);
        if Block(s) == None {
          OnePassDone(s);
        } else {
          var e := Block(s).value.1;
          BlockAtHead(s);
          StayingLines(s[e..]);
          SameStaying(s, e, UpToFrom(Lines(s), b, END).value);
        }
    }
  }

  lemma NoLines()
    ensures Lines("") == [] && Chosen([], Staying([])) == []
  {
  }

  lemma OnePassDone(s: string)
    requires Block(s) == None
    ensures OnePass(s) == s
  {
  }

  lemma SameStaying(s: string, e: nat, n: nat)
    requires CutsAt(s, e, n)
    ensures Chosen(Lines(s[e..]), Staying(Lines(s[e..]))) == Chosen(Lines(s)[n..], Staying(Lines(s)[n..]))
  {
    hide Lines, Chosen, Staying;
  }

  /** A begin marker in line `a` whose first end marker behind it is in line `b`. */
  predicate Spans(lines: seq<string>, a: nat, b: nat) {
    && a <= b < |lines| && Find(lines[a], "# boxctl managed tun begin").Some?
    && var begin := Find(lines[a], "# boxctl managed tun begin").value;
       && begin <= |lines[a]|
       && (Find(lines[a][begin..], "# boxctl managed tun end").Some? <==> a == b)
       && (a < b ==> Find(lines[b], "# boxctl managed tun end").Some?)
       && forall k :: a < k < b ==> Find(lines[k], "# boxctl managed tun end") == None
  }

  lemma {:induction false} UpToMeans(lines: seq<string>, m: string)
    requires UpTo(lines, m).Some?
    ensures var n := UpTo(lines, m).value;
      Find(lines[n - 1], m).Some? && forall k :: 0 <= k < n - 1 ==> Find(lines[k], m) == None
  {
    hide Find;
    if Find(lines[0], m) == None {
      UpToMeans(lines[1..], m);
      var n := UpTo(lines[1..], m).value;
      assert lines[1..][n - 1] == lines[n];
      forall k | 0 <= k < n ensures Find(lines[k], m) == None {
        if k > 0 {
          assert lines[1..][k - 1] == lines[k];
        }
      }
    }
  }

  lemma BlockSpans(lines: seq<string>, b: nat)
    requires lines != [] && Find(lines[0], BEGIN) == Some(b) && b <= |lines[0]| && UpToFrom(lines, b, END).Some?
    ensures Spans(lines, 0, UpToFrom(lines, b, END).value - 1)
  {
    var n := UpToFrom(lines, b, END).value;
    var e := Find(lines[0][b..], END);
    assert e == None ==> UpTo(lines[1..], END) == Some(n - 1);
    hide Find, UpToFrom, UpTo;
    if e == None {
      UpToMeans(lines[1..], END);
      assert lines[1..][n - 2] == lines[n - 1];
      forall k | 0 < k < n - 1 ensures Find(lines[k], END) == None {
        assert lines[1..][k - 1] == lines[k];
      }
    }
  }

  lemma SpansBehind(lines: seq<string>, n: nat, a: nat, b: nat)
    requires n <= |lines| && Spans(lines[n..], a, b)
    ensures Spans(lines, n + a, n + b)
  {
    hide Find;
    forall k | n + a < k < n + b ensures Find(lines[k], END) == None {
      assert lines[n..][k - n] == lines[k];
    }
  }

  /** A line that goes lies between a begin marker and the first end marker behind it. */
  lemma {:induction false} GoneInside(lines: seq<string>, i: nat)
    requires i < |lines| && !Staying(lines)[i]
    ensures exists a: nat, b: nat :: Spans(lines, a, b) && a <= i <= b
    decreases |lines|
  {
    hide Find, Spans, UpToFrom;
    match Find(lines[0], BEGIN)
    case None =>
      assert Staying(lines) == [true] + Staying(lines[1..]);
      GoneInside(lines[1..], i - 1);
      var a: nat, b: nat :| Spans(lines[1..], a, b) && a <= i - 1 <= b;
      SpansBehind(lines, 1, a, b);
    case Some(begin) =>
      var n := UpToFrom(lines, begin, END).value;
      BlockSpans(lines, begin);
      if i >= n {
        assert Staying(lines) == seq(n, _ => false) + Staying(lines[n..]);
        GoneInside(lines[n..], i - n);
        var a: nat, b: nat :| Spans(lines[n..], a, b) && a <= i - n <= b;
        SpansBehind(lines, n, a, b);
      }
  }

  /** Exactly the staying lines are left, and every other lies inside a block. */
  lemma LinesLeft(s: string)
    ensures Lines(Restarting(s)) == Chosen(Lines(s), Staying(Lines(s)))
    ensures forall i :: 0 <= i < |Lines(s)| && !Staying(Lines(s))[i] ==>
      exists a: nat, b: nat :: Spans(Lines(s), a, b) && a <= i <= b
  {
    hide *;
    RestartingIsOnePass(s);
    StayingLines(s);
    forall i | 0 <= i < |Lines(s)| && !Staying(Lines(s))[i]
      ensures exists a: nat, b: nat :: Spans(Lines(s), a, b) && a <= i <= b
    {
      GoneInside(Lines(s), i);
    }
  }
}
