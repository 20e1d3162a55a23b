/**
 Building and loading the matchers: each builder fills an instruction buffer,
 patches the jumps to its miss block and hands the code to the kernel.  The
 kernel's decision is an arbitrary predicate; whatever program it accepts decides
 what the matcher is for, so the read mode the fallback settles on cannot be
 observed.
 */
module BpfLoader {
  import opened Bytes
  import opened BpfMachine
  import opened BpfBuilder
  import opened BpfMatcher

  // ----- patching -----

  lemma AimInside(a: seq<Insn>, b: seq<Insn>, k: nat, target: nat)
    requires k < |b|
    ensures Aimed(a + b, |a| + k, target)
         == a + b[k := b[k].(off := target - |a| - k - 1)]
  {
  }

  lemma AimLoad(l: Layout, mode: ReadMode, fail: int)
    requires mode != ReadLdAbs
    ensures FailAt(mode) < LoadLen(l, mode)
    ensures LoadDest(l, mode, 0)[FailAt(mode) := LoadDest(l, mode, 0)[FailAt(mode)].(off := fail)]
         == LoadDest(l, mode, fail)
  {
    match mode
    case ReadDirect =>
      var a, b := LoadDest(l, mode, 0)[5 := LoadDest(l, mode, 0)[5].(off := fail)], LoadDest(l, mode, fail);
      assert DirectHead(l, 0)[5 := DirectHead(l, 0)[5].(off := fail)] == DirectHead(l, fail);
    case ReadHelper =>
      assert HelperLoad(l, 0)[7 := HelperLoad(l, 0)[7].(off := fail)] == HelperLoad(l, fail);
  }

  /** Everything from the destination test to the end of the match block, with
      both jumps still open. */
  function OpenTest(fd: int, l: Layout, mode: ReadMode): (c: seq<Insn>)
    ensures |c| == LoadLen(l, mode) + 8
  {
    LoadDest(l, mode, 0) + (LookupCode(fd, l.keyOff) + MissJump(0) + ResultCode(MATCH))
  }

  /** The miss jump first. */
  lemma ClosesMiss(fd: int, l: Layout)
    ensures
      var tail := LookupCode(fd, l.keyOff) + MissJump(0) + ResultCode(MATCH);
      tail[5 := tail[5].(off := 2)] == LookupCode(fd, l.keyOff) + MissJump(2) + ResultCode(MATCH)
  {
  }

  /** Patching the two jumps behind any prefix leaves the finished test. */
  lemma ClosesTest(pre: seq<Insn>, fd: int, l: Layout, mode: ReadMode, code: seq<Insn>)
    requires code == pre + OpenTest(fd, l, mode)
    ensures
      var n, miss := LoadLen(l, mode), |pre| + LoadLen(l, mode) + 5;
      var once := Aimed(code, miss, |code|);
      (if mode == ReadLdAbs then once else Aimed(once, |pre| + FailAt(mode), |code|))
      == pre + (DestinationTest(fd, l, mode) + ResultCode(MATCH))
  {
    var n := LoadLen(l, mode);
    var load, tail := LoadDest(l, mode, 0), LookupCode(fd, l.keyOff) + MissJump(0) + ResultCode(MATCH);
    var shut := LookupCode(fd, l.keyOff) + MissJump(2) + ResultCode(MATCH);
    ClosesMiss(fd, l);
    assert |tail| == 8 && code == (pre + load) + tail;
    assert DestinationTest(fd, l, mode) + ResultCode(MATCH) == LoadDest(l, mode, FailJump(l, mode)) + shut;
    hide LoadDest, LookupCode, MissJump, ResultCode, DestinationTest, Aimed;
    AimInside(pre + load, tail, 5, |code|);
    var once := Aimed(code, |pre| + n + 5, |code|);
    assert once == pre + (load + shut);
    if mode != ReadLdAbs {
      var f, k := FailJump(l, mode), FailAt(mode);
      AimLoad(l, mode, f);
      AimInside(pre, load + shut, k, |code|);
      assert (load + shut)[k := (load + shut)[k].(off := f)] == load[k := load[k].(off := f)] + shut;
    } else {
      assert LoadDest(l, mode, 0) == LoadDest(l, mode, FailJump(l, mode));
    }
  }

  // ----- building -----

  /** The program as far as the kernel gets to see it: nothing after an overflow. */
  method LoadSocketFilter(b: ProgBuilder, accepts: seq<Insn> -> bool) returns (prog: Option<seq<Insn>>)
    requires b.Valid()
    ensures prog == if |b.Emitted| <= MAX_PROGRAM_INSNS && accepts(b.Emitted) then Some(b.Emitted) else None
  {
    if b.overflow {
      return None;
    }
    var code := b.insns[..b.count];
    assert b.Emitted[..b.count] == b.Emitted;
    return if accepts(code) then Some(code) else None;
  }

  /** From the destination load to the match block; the jumps returned are still open. */
  method EmitDestinationMatch(b: ProgBuilder, cidrFd: int, l: Layout, mode: ReadMode)
    returns (loadFail: nat, cidrMiss: nat)
    requires b.Valid() && ValidLayout(l) && |b.Emitted| <= 10
    modifies b, b.insns
    ensures b.Valid() && b.Emitted == old(b.Emitted) + OpenTest(cidrFd, l, mode)
    ensures loadFail == if mode == ReadLdAbs then NO_JUMP else |old(b.Emitted)| + FailAt(mode)
    ensures cidrMiss == |old(b.Emitted)| + LoadLen(l, mode) + 5
  {
    hide b.Valid, LoadDest;
    ghost var pre := b.Emitted;
    loadFail := b.EmitLoadDestination(l, mode);
    b.EmitCidrLookup(cidrFd, l);
    cidrMiss := b.EmitJump(Insn(JeqK, 0, 0, 0, 0));
    b.EmitResult(MATCH);
    ghost var load := LoadDest(l, mode, 0);
    assert b.Emitted == pre + (load + (LookupCode(cidrFd, l.keyOff) + MissJump(0) + ResultCode(MATCH)));
  }

  /** Aim the open jumps of a destination test at the miss block and emit it. */
  method CloseDestinationMatch(b: ProgBuilder, ghost pre: seq<Insn>, cidrFd: int, l: Layout, mode: ReadMode,
                               loadFail: nat, cidrMiss: nat)
    requires b.Valid() && ValidLayout(l) && |pre| <= 10
    requires b.Emitted == pre + OpenTest(cidrFd, l, mode)
    requires loadFail == if mode == ReadLdAbs then NO_JUMP else |pre| + FailAt(mode)
    requires cidrMiss == |pre| + LoadLen(l, mode) + 5
    modifies b, b.insns
    ensures b.Valid() && b.Emitted == pre + (DestinationTest(cidrFd, l, mode) + Results())
  {
    hide LoadDest;
    ghost var code := b.Emitted;
    ClosesTest(pre, cidrFd, l, mode, code);
    b.PatchJumpHere(cidrMiss);
    if loadFail != NO_JUMP {
      b.PatchJumpHere(loadFail);
    }
    ghost var test := DestinationTest(cidrFd, l, mode);
    assert b.Emitted == pre + (test + ResultCode(MATCH));
    b.EmitResult(MISS);
    assert b.Emitted == pre + (test + (ResultCode(MATCH) + ResultCode(MISS)));
  }

  method BuildCidrMatcher(cidrFd: int, l: Layout, mode: ReadMode, accepts: seq<Insn> -> bool)
    returns (prog: Option<seq<Insn>>)
    requires ValidLayout(l)
    ensures prog == if accepts(CidrProgram(cidrFd, l, mode)) then Some(CidrProgram(cidrFd, l, mode)) else None
  {
    var b := new ProgBuilder();
    b.Emit(Insn(Mov64X, 6, 1, 0, 0));
    assert b.Emitted == SaveContext();
    var loadFail, cidrMiss := EmitDestinationMatch(b, cidrFd, l, mode);
    CloseDestinationMatch(b, SaveContext(), cidrFd, l, mode, loadFail, cidrMiss);
    CidrProgramSize(cidrFd, l, mode);
    prog := LoadSocketFilter(b, accepts);
  }

  lemma CidrProgramSize(cidrFd: int, l: Layout, mode: ReadMode)
    requires ValidLayout(l)
    ensures CidrProgram(cidrFd, l, mode) == SaveContext() + (DestinationTest(cidrFd, l, mode) + Results())
    ensures |CidrProgram(cidrFd, l, mode)| <= MAX_PROGRAM_INSNS
  {
  }

  /** Look the socket UID up; the jump returned is still open. */
  method EmitUidTest(b: ProgBuilder, uidFd: int, scratch: int) returns (uidMiss: nat)
    requires b.Valid() && |b.Emitted| <= 10
    modifies b, b.insns
    ensures b.Valid() && b.Emitted == old(b.Emitted) + UidTest(uidFd, scratch, 0)
    ensures uidMiss == |old(b.Emitted)| + 7
  {
    hide b.Valid;
    ghost var pre, code := b.Emitted, UidTest(uidFd, scratch, 0);
    StoreUid(b, scratch);
    assert b.Emitted == pre + code[..2];
    b.EmitMapFd(1, uidFd);
    assert b.Emitted == pre + code[..4];
    b.Emit(Insn(Mov64X, 2, 10, 0, 0));
    b.Emit(Insn(Add64K, 2, 0, 0, scratch));
    assert b.Emitted == pre + code[..6];
    b.Emit(Insn(Call, 0, 0, 0, MAP_LOOKUP_ELEM));
    uidMiss := b.EmitJump(Insn(JeqK, 0, 0, 0, 0));
    assert b.Emitted == pre + code;
  }

  /** The socket UID on the stack. */
  method StoreUid(b: ProgBuilder, scratch: int)
    requires b.Valid() && |b.Emitted| <= 10
    modifies b, b.insns
    ensures b.Valid() && b.Emitted == old(b.Emitted) + [Insn(Call, 0, 0, 0, GET_SOCKET_UID), Insn(StxW, 10, 0, scratch, 0)]
  {
    hide b.Valid;
    b.Emit(Insn(Call, 0, 0, 0, GET_SOCKET_UID));
    b.Emit(Insn(StxW, 10, 0, scratch, 0));
  }

  function ForcePrefix(uidFd: int, l: Layout, missOff: int): (c: seq<Insn>)
    ensures |c| == 10
  {
    SaveContext() + [Insn(Mov64X, 1, 6, 0, 0)] + UidTest(uidFd, l.scratchOff, missOff)
  }

  lemma ForceProgramSize(cidrFd: int, uidFd: int, l: Layout, mode: ReadMode)
    requires ValidLayout(l)
    ensures ForceProgram(cidrFd, uidFd, l, mode)
         == ForcePrefix(uidFd, l, LoadLen(l, mode) + 8) + (DestinationTest(cidrFd, l, mode) + Results())
    ensures |ForceProgram(cidrFd, uidFd, l, mode)| <= MAX_PROGRAM_INSNS
  {
    assert LoadLen(l, mode) <= 135;
    hide UidTest, DestinationTest, Results, ValidLayout, LoadLen, SaveContext;
    FragmentSizes(cidrFd, l, mode, l.scratchOff, 0);
    var prefix, dest := ForcePrefix(uidFd, l, LoadLen(l, mode) + 8), DestinationTest(cidrFd, l, mode);
    assert ForceProgram(cidrFd, uidFd, l, mode) == prefix + dest + Results();
    assert prefix + dest + Results() == prefix + (dest + Results());
  }

  /** Aiming the UID jump at the end of the match block closes the prefix. */
  lemma ClosesPrefix(uidFd: int, l: Layout, rest: seq<Insn>, n: nat)
    requires |rest| == n + 8
    ensures Aimed(ForcePrefix(uidFd, l, 0) + rest, 9, n + 18) == ForcePrefix(uidFd, l, n + 8) + rest
  {
    assert ForcePrefix(uidFd, l, 0)[9 := Insn(JeqK, 0, 0, n + 8, 0)] == ForcePrefix(uidFd, l, n + 8);
  }

  method BuildForceMatcher(cidrFd: int, uidFd: int, l: Layout, mode: ReadMode, accepts: seq<Insn> -> bool)
    returns (prog: Option<seq<Insn>>)
    requires ValidLayout(l)
    ensures prog == if accepts(ForceProgram(cidrFd, uidFd, l, mode)) then Some(ForceProgram(cidrFd, uidFd, l, mode)) else None
  {
    hide ForcePrefix, OpenTest, UidTest, ForceProgram;
    var b := new ProgBuilder();
    b.Emit(Insn(Mov64X, 6, 1, 0, 0));
    b.Emit(Insn(Mov64X, 1, 6, 0, 0));
    assert b.Emitted == SaveContext() + [Insn(Mov64X, 1, 6, 0, 0)];
    var uidMiss := EmitUidTest(b, uidFd, l.scratchOff);
    assert b.Emitted == ForcePrefix(uidFd, l, 0) by { PrefixIs(uidFd, l); }
    var loadFail, cidrMiss := EmitDestinationMatch(b, cidrFd, l, mode);
    b.PatchJumpHere(uidMiss);
    ClosesPrefix(uidFd, l, OpenTest(cidrFd, l, mode), LoadLen(l, mode));
    CloseDestinationMatch(b, ForcePrefix(uidFd, l, LoadLen(l, mode) + 8), cidrFd, l, mode, loadFail, cidrMiss);
    ForceProgramSize(cidrFd, uidFd, l, mode);
    prog := LoadSocketFilter(b, accepts);
  }

  lemma PrefixIs(uidFd: int, l: Layout)
    ensures ForcePrefix(uidFd, l, 0) == SaveContext() + [Insn(Mov64X, 1, 6, 0, 0)] + UidTest(uidFd, l.scratchOff, 0)
  {
  }

  method LoadUidMatcher(uidFd: int, accepts: seq<Insn> -> bool) returns (prog: Option<seq<Insn>>)
    ensures prog == if accepts(UidProgram(uidFd)) then Some(UidProgram(uidFd)) else None
  {
    var b := new ProgBuilder();
    var uidMiss := EmitUidTest(b, uidFd, -4);
    b.EmitResult(MATCH);
    ghost var code := b.Emitted;
    assert code == UidTest(uidFd, -4, 0) + ResultCode(MATCH);
    b.PatchJumpHere(uidMiss);
    assert UidTest(uidFd, -4, 0)[7 := Insn(JeqK, 0, 0, 2, 0)] == UidTest(uidFd, -4, 2);
    assert b.Emitted == UidTest(uidFd, -4, 2) + ResultCode(MATCH);
    b.EmitResult(MISS);
    assert b.Emitted == UidProgram(uidFd);
    prog := LoadSocketFilter(b, accepts);
  }

  // ----- the read fallback and the sections -----

  datatype Matcher = CidrMatcher(cidrFd: int) | ForceMatcher(cidrFd: int, uidFd: int)

  function MatcherProgram(m: Matcher, l: Layout, mode: ReadMode): seq<Insn> {
    match m
    case CidrMatcher(cidrFd) => CidrProgram(cidrFd, l, mode)
    case ForceMatcher(cidrFd, uidFd) => ForceProgram(cidrFd, uidFd, l, mode)
  }

  const READ_ORDER: seq<ReadMode> := [ReadDirect, ReadHelper, ReadLdAbs]

  /** The first read mode the kernel accepts, and a failure exactly if it accepts none. */
  method LoadWithReadFallback(m: Matcher, l: Layout, accepts: seq<Insn> -> bool)
    returns (prog: Option<seq<Insn>>, ghost mode: ReadMode)
    requires ValidLayout(l)
    ensures prog == None <==> forall r: ReadMode :: !accepts(MatcherProgram(m, l, r))
    ensures prog != None ==> prog == Some(MatcherProgram(m, l, mode)) && accepts(prog.value)
    ensures prog != None && mode != ReadDirect ==> !accepts(MatcherProgram(m, l, ReadDirect))
    ensures prog != None && mode == ReadLdAbs ==> !accepts(MatcherProgram(m, l, ReadHelper))
  {
    mode := ReadDirect;
    for i := 0 to 3
      invariant forall k :: 0 <= k < i ==> !accepts(MatcherProgram(m, l, READ_ORDER[k]))
    {
      mode := READ_ORDER[i];
      match m {
        case CidrMatcher(cidrFd) => prog := BuildCidrMatcher(cidrFd, l, READ_ORDER[i], accepts);
        case ForceMatcher(cidrFd, uidFd) => prog := BuildForceMatcher(cidrFd, uidFd, l, READ_ORDER[i], accepts);
      }
      if prog != None {
        assert accepts(MatcherProgram(m, l, mode));
        assert READ_ORDER[0] == ReadDirect && READ_ORDER[1] == ReadHelper;
        assert mode == ReadLdAbs ==> i == 2;
        return;
      }
    }
    prog := None;
    forall r: ReadMode ensures !accepts(MatcherProgram(m, l, r)) {
      assert r == READ_ORDER[0] || r == READ_ORDER[1] || r == READ_ORDER[2];
    }
  }

  /** The maps a matcher was built for are the ones it is run with. */
  ghost predicate MapsFor(m: Matcher, l: Layout, env: Env) {
    IsCidrMap(env, m.cidrFd, l) && (m.ForceMatcher? ==> IsUidMap(env, m.uidFd))
  }

  ghost predicate Matches(m: Matcher, l: Layout, env: Env)
    requires MapsFor(m, l, env)
  {
    CidrMatches(env, m.cidrFd, l) && (m.ForceMatcher? ==> UidMatches(env, m.uidFd))
  }

  lemma MatcherCorrect(m: Matcher, l: Layout, mode: ReadMode, env: Env)
    requires ValidLayout(l) && MapsFor(m, l, env)
    ensures Execute(env, MatcherProgram(m, l, mode)) == Done(Verdict(Matches(m, l, env)))
  {
    match m
    case CidrMatcher(cidrFd) => CidrMatcherCorrect(env, cidrFd, l, mode);
    case ForceMatcher(cidrFd, uidFd) => ForceMatcherCorrect(env, cidrFd, uidFd, l, mode);
  }

  /** No packet and no map contents tell two read modes apart. */
  lemma ReadModeUnobservable(m: Matcher, l: Layout, a: ReadMode, b: ReadMode, env: Env)
    requires ValidLayout(l) && MapsFor(m, l, env)
    ensures Execute(env, MatcherProgram(m, l, a)) == Execute(env, MatcherProgram(m, l, b))
  {
    MatcherCorrect(m, l, a, env);
    MatcherCorrect(m, l, b, env);
  }

  datatype MapFds = MapFds(cidr4: int, cidr6: int, forceUid: int, appUid: int)

  ghost predicate IsPrefixMap(env: Env, fd: int, addrLen: nat) {
    fd in env.maps && env.maps[fd].LpmTrie? && env.maps[fd].addrLen == addrLen
  }

  ghost predicate WellTyped(fds: MapFds, env: Env) {
    && IsPrefixMap(env, fds.cidr4, 4) && IsPrefixMap(env, fds.cidr6, 16)
    && IsUidMap(env, fds.forceUid) && IsUidMap(env, fds.appUid)
  }

  /** The destination of an IPv4 header, bytes 16 to 19, is covered by a stored prefix. */
  ghost predicate Covered4(env: Env, fd: int)
    requires IsPrefixMap(env, fd, 4)
  {
    |env.packet| >= 20 && LpmHit(env.maps[fd].prefixes, 32, env.packet[16..20])
  }

  /** That of an IPv6 header is bytes 24 to 39. */
  ghost predicate Covered6(env: Env, fd: int)
    requires IsPrefixMap(env, fd, 16)
  {
    |env.packet| >= 40 && LpmHit(env.maps[fd].prefixes, 128, env.packet[24..40])
  }

  /** What the program loaded for a section is for. */
  ghost predicate SectionMatches(section: string, fds: MapFds, env: Env)
    requires WellTyped(fds, env)
  {
    if section == "socket/cidr4" then Covered4(env, fds.cidr4)
    else if section == "socket/cidr6" then Covered6(env, fds.cidr6)
    else if section == "socket/force4" then UidMatches(env, fds.forceUid) && Covered4(env, fds.cidr4)
    else if section == "socket/force6" then UidMatches(env, fds.forceUid) && Covered6(env, fds.cidr6)
    else section == "socket/appuid" && UidMatches(env, fds.appUid)
  }

  /** In the two layouts the matchers read the destination of the header. */
  lemma HeaderRead(env: Env, fd: int)
    ensures IsPrefixMap(env, fd, 4) ==> IsCidrMap(env, fd, LAYOUT_V4) && CidrMatches(env, fd, LAYOUT_V4) == Covered4(env, fd)
    ensures IsPrefixMap(env, fd, 16) ==> IsCidrMap(env, fd, LAYOUT_V6) && CidrMatches(env, fd, LAYOUT_V6) == Covered6(env, fd)
  {
  }

  lemma SectionOf(section: string, fds: MapFds, m: Matcher, l: Layout, env: Env)
    requires WellTyped(fds, env)
    requires (section == "socket/cidr4" && m == CidrMatcher(fds.cidr4) && l == LAYOUT_V4)
      || (section == "socket/cidr6" && m == CidrMatcher(fds.cidr6) && l == LAYOUT_V6)
      || (section == "socket/force4" && m == ForceMatcher(fds.cidr4, fds.forceUid) && l == LAYOUT_V4)
      || (section == "socket/force6" && m == ForceMatcher(fds.cidr6, fds.forceUid) && l == LAYOUT_V6)
    ensures MapsFor(m, l, env) && Matches(m, l, env) == SectionMatches(section, fds, env)
  {
    HeaderRead(env, fds.cidr4);
    HeaderRead(env, fds.cidr6);
    hide IsCidrMap, IsPrefixMap, IsUidMap, CidrMatches, Covered4, Covered6, UidMatches;
  }

  /** Whatever the kernel accepted decides the section's predicate on every
      packet, for every map contents; an unknown section loads nothing. */
  method LoadProgram(section: string, fds: MapFds, accepts: seq<Insn> -> bool) returns (prog: Option<seq<Insn>>)
    ensures prog != None ==> |prog.value| <= 160 && accepts(prog.value)
    ensures prog != None ==> forall env :: WellTyped(fds, env) ==>
      Execute(env, prog.value) == Done(if SectionMatches(section, fds, env) then 0xffff else 0)
    ensures prog != None ==>
      section in {"socket/cidr4", "socket/cidr6", "socket/force4", "socket/force6", "socket/appuid"}
  {
    hide Execute;
    if section == "socket/appuid" {
      prog := LoadUidMatcher(fds.appUid, accepts);
      forall env | WellTyped(fds, env) {
        UidMatcherCorrect(env, fds.appUid);
      }
      return;
    }
    var m, l;
    if section == "socket/cidr4" {
      m, l := CidrMatcher(fds.cidr4), LAYOUT_V4;
    } else if section == "socket/cidr6" {
      m, l := CidrMatcher(fds.cidr6), LAYOUT_V6;
    } else if section == "socket/force4" {
      m, l := ForceMatcher(fds.cidr4, fds.forceUid), LAYOUT_V4;
    } else if section == "socket/force6" {
      m, l := ForceMatcher(fds.cidr6, fds.forceUid), LAYOUT_V6;
    } else {
      return None;
    }
    ghost var mode;
    prog, mode := LoadWithReadFallback(m, l, accepts);
    if prog != None {
      if m.CidrMatcher? {
        CidrProgramSize(m.cidrFd, l, mode);
      } else {
        ForceProgramSize(m.cidrFd, m.uidFd, l, mode);
      }
      forall env | WellTyped(fds, env)
        ensures Execute(env, prog.value) == Done(if SectionMatches(section, fds, env) then 0xffff else 0)
      {
        SectionOf(section, fds, m, l, env);
        MatcherCorrect(m, l, mode, env);
      }
    }
  }

  // ----- the static side of safety -----

  predicate IsJump(op: Op) { op == JeqK || op == JneK || op == JgtX }

  /** Every jump in `code`, placed at `base`, goes forward to `target`. */
  ghost predicate JumpsTo(code: seq<Insn>, base: nat, target: int) {
    forall i :: 0 <= i < |code| && IsJump(code[i].op) ==> code[i].off >= 0 && base + i + 1 + code[i].off == target
  }

  lemma JumpsToAppend(a: seq<Insn>, b: seq<Insn>, base: nat, target: int)
    requires JumpsTo(a, base, target) && JumpsTo(b, base + |a|, target)
    ensures JumpsTo(a + b, base, target)
  {
    forall i | 0 <= i < |a + b| && IsJump((a + b)[i].op)
      ensures (a + b)[i].off >= 0 && base + i + 1 + (a + b)[i].off == target
    {
      if i >= |a| {
        assert (a + b)[i] == b[i - |a|];
      }
    }
  }

  lemma {:induction false} CopiesDoNotJump(l: Layout, i: nat, base: nat, target: int)
    requires i <= l.addrLen
    ensures JumpsTo(DirectCopy(l, i), base, target) && JumpsTo(AbsCopy(l, i), base, target)
    decreases l.addrLen - i
  {
    if i < l.addrLen {
      CopiesDoNotJump(l, i + 1, base + 2, target);
      var d, a := DirectCopy(l, i), AbsCopy(l, i);
      JumpsToAppend(d[..2], DirectCopy(l, i + 1), base, target);
      JumpsToAppend(a[..2], AbsCopy(l, i + 1), base, target);
    }
  }

  lemma DestinationTestJumps(fd: int, l: Layout, mode: ReadMode, base: nat)
    ensures JumpsTo(DestinationTest(fd, l, mode) + Results(), base, base + LoadLen(l, mode) + 8)
  {
    var n, f := LoadLen(l, mode), FailJump(l, mode);
    var target := base + n + 8;
    var load := LoadDest(l, mode, f);
    assert JumpsTo(load, base, target) by {
      CopiesDoNotJump(l, 0, base + 7, target);
      CopiesDoNotJump(l, 0, base + 1, target);
      match mode
      case ReadDirect => JumpsToAppend(DirectHead(l, f), DirectCopy(l, 0), base, target);
      case ReadHelper =>
      case ReadLdAbs => JumpsToAppend([PrefixStore(l)], AbsCopy(l, 0), base, target);
    }
    var rest := LookupCode(fd, l.keyOff) + MissJump(2);
    JumpsToAppend(load, rest, base, target);
    assert DestinationTest(fd, l, mode) == load + rest;
    JumpsToAppend(DestinationTest(fd, l, mode), Results(), base, target);
  }

  /** A finished program: it fits the buffer, ends in the miss block, and each of its
      jumps goes strictly forward to that block, whose first instruction is not the
      second half of a wide one. */
  ghost predicate JumpsToMiss(prog: seq<Insn>) {
    && 2 <= |prog| <= MAX_PROGRAM_INSNS
    && prog[|prog| - 2..] == ResultCode(MISS)
    && JumpsTo(prog, 0, |prog| - 2)
  }

  lemma CidrJumps(cidrFd: int, l: Layout, mode: ReadMode)
    requires ValidLayout(l)
    ensures JumpsToMiss(MatcherProgram(CidrMatcher(cidrFd), l, mode))
  {
    var rest := DestinationTest(cidrFd, l, mode) + Results();
    CidrProgramSize(cidrFd, l, mode);
    DestinationTestJumps(cidrFd, l, mode, 1);
    JumpsToAppend(SaveContext(), rest, 0, LoadLen(l, mode) + 9);
  }

  lemma ForceJumps(cidrFd: int, fd: int, l: Layout, mode: ReadMode)
    requires ValidLayout(l)
    ensures JumpsToMiss(MatcherProgram(ForceMatcher(cidrFd, fd), l, mode))
  {
    var pre, rest := ForcePrefix(fd, l, LoadLen(l, mode) + 8), DestinationTest(cidrFd, l, mode) + Results();
    ForceProgramSize(cidrFd, fd, l, mode);
    DestinationTestJumps(cidrFd, l, mode, 10);
    JumpsToAppend(pre, rest, 0, LoadLen(l, mode) + 18);
  }

  /** So do the programs of both matchers in every layout and read mode, and the UID program. */
  lemma JumpsForward(m: Matcher, l: Layout, mode: ReadMode, uidFd: int)
    requires ValidLayout(l)
    ensures JumpsToMiss(MatcherProgram(m, l, mode)) && JumpsToMiss(UidProgram(uidFd))
  {
    hide JumpsToMiss, MatcherProgram, UidProgram;
    UidTestJumps(uidFd);
    match m
    case CidrMatcher(cidrFd) => CidrJumps(cidrFd, l, mode);
    case ForceMatcher(cidrFd, fd) => ForceJumps(cidrFd, fd, l, mode);
  }

  lemma UidTestJumps(uidFd: int)
    ensures JumpsToMiss(UidProgram(uidFd))
  {
  }
}
