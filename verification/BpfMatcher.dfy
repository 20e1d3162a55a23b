/**
 What the assembled matchers compute.  For every packet, socket UID, map
 contents, layout and read mode, running the program ends with the verdict
 stated here; in particular it never faults.
 */
module BpfMatcher {
  import opened Bytes
  import opened BpfMachine
  import opened BpfBuilder

  // ----- the specification -----

  ghost predicate InPacket(env: Env, l: Layout) {
    l.packetOff + l.addrLen <= |env.packet|
  }

  ghost function Destination(env: Env, l: Layout): (d: seq<byte>)
    requires InPacket(env, l)
    ensures |d| == l.addrLen
  {
    env.packet[l.packetOff..l.packetOff + l.addrLen]
  }

  ghost predicate IsCidrMap(env: Env, fd: int, l: Layout) {
    fd in env.maps && env.maps[fd].LpmTrie? && env.maps[fd].addrLen == l.addrLen
  }

  ghost predicate IsUidMap(env: Env, fd: int) {
    fd in env.maps && env.maps[fd].HashSet? && env.maps[fd].keySize == 4
  }

  /** The packet carries a whole destination address and some stored prefix covers it. */
  ghost predicate CidrMatches(env: Env, fd: int, l: Layout)
    requires IsCidrMap(env, fd, l)
  {
    InPacket(env, l) && LpmHit(env.maps[fd].prefixes, 8 * l.addrLen, Destination(env, l))
  }

  ghost predicate UidMatches(env: Env, fd: int)
    requires IsUidMap(env, fd)
  {
    LE32(env.uid) in env.maps[fd].keys
  }

  function Verdict(matches: bool): int { if matches then 0xffff else 0 }

  // ----- fragments -----

  ghost predicate CodeAt(prog: seq<Insn>, at: nat, frag: seq<Insn>) {
    at + |frag| <= |prog| && prog[at..at + |frag|] == frag
  }

  lemma CodeAtParts(prog: seq<Insn>, at: nat, a: seq<Insn>, b: seq<Insn>)
    requires CodeAt(prog, at, a + b)
    ensures CodeAt(prog, at, a) && CodeAt(prog, at + |a|, b)
  {
    var whole := prog[at..at + |a + b|];
    assert whole[..|a|] == a && whole[|a|..] == b;
  }

  /** Registers 6 and 10 hold the context and the frame pointer, as they do
      throughout every matcher once it has saved its context. */
  ghost predicate Anchored(s: State) {
    s.regs[6] == Ctx && s.regs[10] == StackPtr(0)
  }

  ghost predicate KeyReady(s: State, off: int, key: seq<byte>) {
    Written(s.stack, off, |key|) && ReadStack(s.stack, off, |key|) == key
  }

  /** One instruction that does not end the run. */
  lemma Advance(env: Env, prog: seq<Insn>, s: State, t: State)
    requires Step(env, prog, s) == Next(t) && t.pc > s.pc
    ensures Run(env, prog, s) == Run(env, prog, t)
  {
  }

  lemma StepStxB(env: Env, prog: seq<Insn>, s: State, r: Reg, at: int, b: byte)
    requires s.pc < |prog| && prog[s.pc] == Insn(StxB, 10, r, at, 0)
    requires s.regs[10] == StackPtr(0) && s.regs[r] == Scalar(b) && InFrame(at, 1)
    ensures Step(env, prog, s) == Next(State(s.pc + 1, s.regs, s.stack[at := b]))
  {
    assert WriteStack(s.stack, at, [b]) == WriteStack(s.stack[at := b], at + 1, []);
  }

  /** Two instructions move one byte into the address area: a load into register
      `r` that leaves `regs`, and the store of that register. */
  lemma MoveByte(env: Env, prog: seq<Insn>, s: State, load: Insn, regs: Regs, r: Reg, b: byte, at: int) returns (t: State)
    requires CodeAt(prog, s.pc, [load, Insn(StxB, 10, r, at, 0)])
    requires Step(env, prog, s) == Next(State(s.pc + 1, regs, s.stack))
    requires regs[10] == StackPtr(0) && regs[r] == Scalar(b) && InFrame(at, 1)
    ensures Run(env, prog, s) == Run(env, prog, t)
    ensures t == State(s.pc + 2, regs, s.stack[at := b])
  {
    var two := [load, Insn(StxB, 10, r, at, 0)];
    assert prog[s.pc + 1] == prog[s.pc..s.pc + 2][1] == two[1];
    var s1 := State(s.pc + 1, regs, s.stack);
    t := State(s.pc + 2, regs, s.stack[at := b]);
    StepStxB(env, prog, s1, r, at, b);
    hide Step, Run, CodeAt, WriteStack;
    Advance(env, prog, s, s1);
    Advance(env, prog, s1, t);
  }

  lemma StepLdxB(env: Env, prog: seq<Insn>, s: State, d: Reg, x: Reg, off: int)
    requires s.pc < |prog| && prog[s.pc] == Insn(LdxB, d, x, off, 0) && d != 10
    requires s.regs[x].PacketPtr? && 0 <= s.regs[x].at + off < |env.packet|
    ensures Step(env, prog, s) == Next(State(s.pc + 1, s.regs[d := Scalar(env.packet[s.regs[x].at + off])], s.stack))
  {
  }

  lemma StepLdAbs(env: Env, prog: seq<Insn>, s: State, at: nat)
    requires s.pc < |prog| && prog[s.pc] == Insn(LdAbsB, 0, 0, 0, at)
    requires Anchored(s)
    ensures Step(env, prog, s) ==
      if at < |env.packet| then Next(State(s.pc + 1, Clobber(s.regs, Scalar(env.packet[at])), s.stack)) else Done(MISS)
  {
  }

  lemma CopyParts(prog: seq<Insn>, at: nat, a: Insn, b: Insn, rest: seq<Insn>)
    requires CodeAt(prog, at, [a, b] + rest)
    ensures CodeAt(prog, at, [a, b]) && CodeAt(prog, at + 2, rest) && prog[at] == a && prog[at + 1] == b
  {
    CodeAtParts(prog, at, [a, b], rest);
    assert prog[at..at + 2][0] == a && prog[at..at + 2][1] == b;
  }

  /** Writing the rest of an address from byte `i` on, one byte at a time. */
  lemma WriteRest(stack: map<int, byte>, off: int, d: seq<byte>, i: nat)
    requires i <= |d|
    ensures i == |d| ==> WriteStack(stack, off + i, d[i..]) == stack
    ensures i < |d| ==> WriteStack(stack, off + i, d[i..]) == WriteStack(stack[off + i := d[i]], off + i + 1, d[i + 1..])
  {
    if i < |d| {
      assert d[i..][1..] == d[i + 1..];
    }
  }

  /** One byte by a direct load. */
  lemma MoveDirectByte(env: Env, prog: seq<Insn>, s: State, l: Layout, i: nat) returns (t: State)
    requires ValidLayout(l) && i < l.addrLen && InPacket(env, l)
    requires CodeAt(prog, s.pc, DirectCopy(l, i)) && Anchored(s) && s.regs[1] == PacketPtr(l.packetOff)
    ensures Run(env, prog, s) == Run(env, prog, t) && Anchored(t) && t.pc == s.pc + 2
    ensures t.regs[1] == PacketPtr(l.packetOff)
    ensures t.stack == s.stack[l.addrOff + i := env.packet[l.packetOff + i]]
    ensures CodeAt(prog, t.pc, DirectCopy(l, i + 1))
  {
    hide Run, Step, CodeAt, WriteStack;
    var load, store := Insn(LdxB, 3, 1, i, 0), Insn(StxB, 10, 3, l.addrOff + i, 0);
    CopyParts(prog, s.pc, load, store, DirectCopy(l, i + 1));
    StepLdxB(env, prog, s, 3, 1, i);
    var b := env.packet[l.packetOff + i];
    t := MoveByte(env, prog, s, load, s.regs[3 := Scalar(b)], 3, b, l.addrOff + i);
  }

  lemma {:induction false} RunDirectCopy(env: Env, prog: seq<Insn>, s: State, l: Layout, i: nat) returns (t: State)
    requires ValidLayout(l) && i <= l.addrLen && InPacket(env, l)
    requires CodeAt(prog, s.pc, DirectCopy(l, i))
    requires Anchored(s) && s.regs[1] == PacketPtr(l.packetOff)
    ensures Run(env, prog, s) == Run(env, prog, t)
    ensures t.pc == s.pc + 2 * (l.addrLen - i) && Anchored(t)
    ensures t.stack == WriteStack(s.stack, l.addrOff + i, Destination(env, l)[i..])
    decreases l.addrLen - i
  {
    hide Run, Step, CodeAt, WriteStack;
    WriteRest(s.stack, l.addrOff, Destination(env, l), i);
    if i == l.addrLen {
      t := s;
    } else {
      var u := MoveDirectByte(env, prog, s, l, i);
      assert Destination(env, l)[i] == env.packet[l.packetOff + i];
      hide *;
      t := RunDirectCopy(env, prog, u, l, i + 1);
    }
  }

  /** One byte by a legacy load, when the packet has it. */
  lemma MoveAbsByte(env: Env, prog: seq<Insn>, s: State, l: Layout, i: nat) returns (t: State)
    requires ValidLayout(l) && i < l.addrLen && l.packetOff + i < |env.packet|
    requires CodeAt(prog, s.pc, AbsCopy(l, i)) && Anchored(s)
    ensures Run(env, prog, s) == Run(env, prog, t) && Anchored(t) && t.pc == s.pc + 2
    ensures t.stack == s.stack[l.addrOff + i := env.packet[l.packetOff + i]]
    ensures CodeAt(prog, t.pc, AbsCopy(l, i + 1))
  {
    hide Run, Step, CodeAt, WriteStack;
    var at := l.packetOff + i;
    var load, store := Insn(LdAbsB, 0, 0, 0, at), Insn(StxB, 10, 0, l.addrOff + i, 0);
    CopyParts(prog, s.pc, load, store, AbsCopy(l, i + 1));
    StepLdAbs(env, prog, s, at);
    t := MoveByte(env, prog, s, load, Clobber(s.regs, Scalar(env.packet[at])), 0, env.packet[at], l.addrOff + i);
  }

  lemma {:induction false} RunAbsCopy(env: Env, prog: seq<Insn>, s: State, l: Layout, i: nat) returns (t: State)
    requires ValidLayout(l) && i <= l.addrLen && InPacket(env, l)
    requires CodeAt(prog, s.pc, AbsCopy(l, i)) && Anchored(s)
    ensures Run(env, prog, s) == Run(env, prog, t)
    ensures t.pc == s.pc + 2 * (l.addrLen - i) && Anchored(t)
    ensures t.stack == WriteStack(s.stack, l.addrOff + i, Destination(env, l)[i..])
    decreases l.addrLen - i
  {
    hide Run, Step, CodeAt, WriteStack, AbsCopy;
    WriteRest(s.stack, l.addrOff, Destination(env, l), i);
    if i == l.addrLen {
      t := s;
    } else {
      var u := MoveAbsByte(env, prog, s, l, i);
      assert Destination(env, l)[i] == env.packet[l.packetOff + i];
      hide *;
      t := RunAbsCopy(env, prog, u, l, i + 1);
    }
  }

  /** A packet that ends inside the address ends the program with a miss. */
  lemma {:induction false} RunAbsShort(env: Env, prog: seq<Insn>, s: State, l: Layout, i: nat)
    requires ValidLayout(l) && i < l.addrLen && !InPacket(env, l)
    requires i > 0 ==> l.packetOff + i <= |env.packet|
    requires CodeAt(prog, s.pc, AbsCopy(l, i)) && Anchored(s)
    ensures Run(env, prog, s) == Done(MISS)
    decreases l.addrLen - i
  {
    var at := l.packetOff + i;
    if at < |env.packet| {
      hide Run, CodeAt, AbsCopy;
      var t := MoveAbsByte(env, prog, s, l, i);
      RunAbsShort(env, prog, t, l, i + 1);
    } else {
      hide Step, CodeAt;
      CopyParts(prog, s.pc, Insn(LdAbsB, 0, 0, 0, at), Insn(StxB, 10, 0, l.addrOff + i, 0), AbsCopy(l, i + 1));
      StepLdAbs(env, prog, s, at);
    }
  }

  // ----- single instructions, with the run they continue -----

  lemma DoMovX(env: Env, prog: seq<Insn>, s: State, d: Reg, x: Reg) returns (t: State)
    requires s.pc < |prog| && prog[s.pc] == Insn(Mov64X, d, x, 0, 0) && d != 10 && !s.regs[x].Uninit?
    ensures Run(env, prog, s) == Run(env, prog, t)
    ensures t == State(s.pc + 1, s.regs[d := s.regs[x]], s.stack)
  {
    t := State(s.pc + 1, s.regs[d := s.regs[x]], s.stack);
  }

  lemma DoMovK(env: Env, prog: seq<Insn>, s: State, d: Reg, imm: nat) returns (t: State)
    requires s.pc < |prog| && prog[s.pc] == Insn(Mov64K, d, 0, 0, imm) && d != 10 && imm < U64
    ensures Run(env, prog, s) == Run(env, prog, t)
    ensures t == State(s.pc + 1, s.regs[d := Scalar(imm)], s.stack)
  {
    t := State(s.pc + 1, s.regs[d := Scalar(imm)], s.stack);
    assert imm % U64 == imm;
    hide LE32, LoadCtx, CallHelper, AddImm, Store, Clobber, Run;
    Advance(env, prog, s, t);
  }

  lemma DoAddK(env: Env, prog: seq<Insn>, s: State, d: Reg, imm: int) returns (t: State)
    requires s.pc < |prog| && prog[s.pc] == Insn(Add64K, d, 0, 0, imm) && d != 10
    requires s.regs[d].StackPtr? || s.regs[d].PacketPtr?
    ensures Run(env, prog, s) == Run(env, prog, t)
    ensures t == State(s.pc + 1, s.regs[d := AddImm(s.regs[d], imm)], s.stack)
  {
    t := State(s.pc + 1, s.regs[d := AddImm(s.regs[d], imm)], s.stack);
  }

  lemma DoStW(env: Env, prog: seq<Insn>, s: State, off: int, imm: u32) returns (t: State)
    requires s.pc < |prog| && prog[s.pc] == Insn(StW, 10, 0, off, imm)
    requires s.regs[10] == StackPtr(0) && InFrame(off, 4)
    ensures Run(env, prog, s) == Run(env, prog, t)
    ensures t == State(s.pc + 1, s.regs, WriteStack(s.stack, off, LE32(imm)))
  {
    hide LE32, WriteStack;
    assert imm % U32 == imm;
    t := State(s.pc + 1, s.regs, WriteStack(s.stack, off, LE32(imm)));
    assert Step(env, prog, s) == Next(t);
  }

  lemma DoStxW(env: Env, prog: seq<Insn>, s: State, x: Reg, off: int) returns (t: State)
    requires s.pc < |prog| && prog[s.pc] == Insn(StxW, 10, x, off, 0)
    requires s.regs[10] == StackPtr(0) && InFrame(off, 4) && s.regs[x].Scalar? && 0 <= s.regs[x].n < U32
    ensures Run(env, prog, s) == Run(env, prog, t)
    ensures t == State(s.pc + 1, s.regs, WriteStack(s.stack, off, LE32(s.regs[x].n)))
  {
    hide LE32, WriteStack;
    var n := s.regs[x].n;
    assert n % U32 == n;
    t := State(s.pc + 1, s.regs, WriteStack(s.stack, off, LE32(n)));
    assert Step(env, prog, s) == Next(t);
  }

  lemma DoLdxCtx(env: Env, prog: seq<Insn>, s: State, d: Reg, off: int) returns (t: State)
    requires s.pc < |prog| && prog[s.pc] == Insn(LdxW, d, 6, off, 0) && d != 10
    requires Anchored(s) && (off == SKB_DATA || off == SKB_DATA_END)
    ensures Run(env, prog, s) == Run(env, prog, t)
    ensures t == State(s.pc + 1, s.regs[d := LoadCtx(env, off)], s.stack)
  {
    t := State(s.pc + 1, s.regs[d := LoadCtx(env, off)], s.stack);
  }

  lemma DoJump(env: Env, prog: seq<Insn>, s: State, taken: bool) returns (t: State)
    requires s.pc < |prog| && prog[s.pc].off >= 0
    requires Step(env, prog, s) == Jump(s, taken, prog[s.pc].off)
    ensures Run(env, prog, s) == Run(env, prog, t)
    ensures t == s.(pc := if taken then s.pc + 1 + prog[s.pc].off else s.pc + 1)
  {
    t := s.(pc := if taken then s.pc + 1 + prog[s.pc].off else s.pc + 1);
  }

  lemma DoMapFd(env: Env, prog: seq<Insn>, s: State, fd: int) returns (t: State)
    requires s.pc + 1 < |prog| && prog[s.pc] == Insn(LdImm64, 1, 1, 0, fd) && prog[s.pc + 1].op == Second
    ensures Run(env, prog, s) == Run(env, prog, t)
    ensures t == State(s.pc + 2, s.regs[1 := MapRef(fd)], s.stack)
  {
    t := State(s.pc + 2, s.regs[1 := MapRef(fd)], s.stack);
  }

  lemma DoCall(env: Env, prog: seq<Insn>, s: State, helper: int) returns (t: State)
    requires s.pc < |prog| && prog[s.pc] == Insn(Call, 0, 0, 0, helper)
    requires CallHelper(env, s, helper).Next?
    ensures Run(env, prog, s) == Run(env, prog, t)
    ensures CallHelper(env, s, helper) == Next(t)
  {
    t := CallHelper(env, s, helper).s;
  }

  lemma CodeAtEach(prog: seq<Insn>, at: nat, frag: seq<Insn>)
    requires CodeAt(prog, at, frag)
    ensures at + |frag| <= |prog| && forall k :: 0 <= k < |frag| ==> prog[at + k] == frag[k]
  {
    forall k | 0 <= k < |frag| ensures prog[at + k] == frag[k] {
      assert prog[at..at + |frag|][k] == frag[k];
    }
  }

  // ----- blocks -----

  /** The closing blocks: set R0 and exit. */
  lemma RunResult(env: Env, prog: seq<Insn>, s: State, value: nat)
    requires CodeAt(prog, s.pc, ResultCode(value)) && value < U32
    ensures Run(env, prog, s) == Done(value)
  {
    CodeAtEach(prog, s.pc, ResultCode(value));
    assert prog[s.pc + 1] == Insn(Exit, 0, 0, 0, 0) by { assert ResultCode(value)[1] == Insn(Exit, 0, 0, 0, 0); }
    assert prog[s.pc + 0] == ResultCode(value)[0];
    var t := DoMovK(env, prog, s, 0, value);
    assert Step(env, prog, t) == Done(value);
  }

  /** The arguments of a lookup: the map, and the key's place on the stack. */
  lemma RunLookupArguments(env: Env, prog: seq<Insn>, s: State, fd: int, off: int, missOff: nat) returns (t: State)
    requires CodeAt(prog, s.pc, LookupCode(fd, off) + MissJump(missOff)) && s.regs[10] == StackPtr(0)
    ensures Run(env, prog, s) == Run(env, prog, t) && t.pc == s.pc + 4 && t.stack == s.stack
    ensures t.regs[1] == MapRef(fd) && t.regs[2] == StackPtr(off) && t.regs[6] == s.regs[6] && t.regs[10] == s.regs[10]
    ensures t.pc + 1 < |prog| && prog[t.pc] == Insn(Call, 0, 0, 0, MAP_LOOKUP_ELEM) && prog[t.pc + 1] == Insn(JeqK, 0, 0, missOff, 0)
  {
    hide Run;
    var frag := LookupCode(fd, off) + MissJump(missOff);
    CodeAtEach(prog, s.pc, frag);
    assert prog[s.pc + 0] == frag[0] && prog[s.pc + 1] == frag[1] && prog[s.pc + 2] == frag[2]
      && prog[s.pc + 3] == frag[3] && prog[s.pc + 4] == frag[4] && prog[s.pc + 5] == frag[5];
    hide CodeAt, LookupCode, MissJump;
    var s2 := DoMapFd(env, prog, s, fd);
    var s3 := DoMovX(env, prog, s2, 2, 10);
    t := DoAddK(env, prog, s3, 2, off);
  }

  /** A lookup of a ready key followed by the branch on a miss. */
  lemma RunLookup(env: Env, prog: seq<Insn>, s: State, fd: int, off: int, key: seq<byte>, missOff: nat) returns (t: State)
    requires CodeAt(prog, s.pc, LookupCode(fd, off) + MissJump(missOff))
    requires s.regs[10] == StackPtr(0) && KeyReady(s, off, key)
    requires fd in env.maps && KeySize(env.maps[fd]) == |key| && InFrame(off, |key|)
    ensures Run(env, prog, s) == Run(env, prog, t)
    ensures t.pc == if LookupHit(env.maps[fd], key) then s.pc + 6 else s.pc + 6 + missOff
    ensures t.regs[6] == s.regs[6] && t.regs[10] == s.regs[10] && t.stack == s.stack
  {
    hide Run, CodeAt, LookupCode, MissJump;
    var s4 := RunLookupArguments(env, prog, s, fd, off, missOff);
    var s5 := DoCall(env, prog, s4, MAP_LOOKUP_ELEM);
    var hit := LookupHit(env.maps[fd], key);
    assert s5.regs[0] == if hit then MapValue(fd) else Scalar(0);
    t := DoJump(env, prog, s5, !hit);
  }

  /** The lookup key: the full prefix length, then the destination address. */
  ghost function LookupKey(env: Env, l: Layout): (key: seq<byte>)
    requires ValidLayout(l) && InPacket(env, l)
    ensures |key| == 4 + l.addrLen
  {
    LE32(l.fullPrefix) + Destination(env, l)
  }

  /** After the prefix store and the address bytes, the key area holds the lookup key. */
  lemma KeyAssembled(env: Env, s: State, t: State, l: Layout)
    requires ValidLayout(l) && InPacket(env, l)
    requires t.stack == WriteStack(WriteStack(s.stack, l.keyOff, LE32(l.fullPrefix)), l.addrOff, Destination(env, l))
    ensures KeyReady(t, l.keyOff, LookupKey(env, l))
  {
    var key := LookupKey(env, l);
    var word := LE32(l.fullPrefix);
    forall k | 0 <= k < |key| ensures l.keyOff + k in t.stack && t.stack[l.keyOff + k] == key[k] {
      if k < 4 {
        assert t.stack[l.keyOff + k] == word[k];
      } else {
        assert t.stack[l.keyOff + k] == Destination(env, l)[k - 4];
      }
    }
    forall i | l.keyOff <= i < l.keyOff + |key| ensures i in t.stack {
      assert l.keyOff + (i - l.keyOff) in t.stack;
    }
    assert ReadStack(t.stack, l.keyOff, |key|) == key;
  }

  lemma RunDirectHead(env: Env, prog: seq<Insn>, s: State, l: Layout, fail: nat) returns (t: State)
    requires ValidLayout(l)
    requires CodeAt(prog, s.pc, DirectHead(l, fail)) && Anchored(s)
    ensures Run(env, prog, s) == Run(env, prog, t) && Anchored(t)
    ensures t.stack == WriteStack(s.stack, l.keyOff, LE32(l.fullPrefix))
    ensures InPacket(env, l) ==> t.pc == s.pc + 7 && t.regs[1] == PacketPtr(l.packetOff)
    ensures !InPacket(env, l) ==> t.pc == s.pc + 6 + fail
  {
    hide Run, CodeAt, WriteStack, LE32;
    var f := DirectHead(l, fail);
    CodeAtEach(prog, s.pc, f);
    assert prog[s.pc + 0] == f[0] && prog[s.pc + 1] == f[1] && prog[s.pc + 2] == f[2] && prog[s.pc + 3] == f[3]
      && prog[s.pc + 4] == f[4] && prog[s.pc + 5] == f[5] && prog[s.pc + 6] == f[6];
    var s1 := DoStW(env, prog, s, l.keyOff, l.fullPrefix);
    var s2 := DoLdxCtx(env, prog, s1, 1, SKB_DATA);
    var s3 := DoLdxCtx(env, prog, s2, 2, SKB_DATA_END);
    var s4 := DoMovX(env, prog, s3, 3, 1);
    var s5 := DoAddK(env, prog, s4, 3, l.packetOff + l.addrLen);
    t := DoJump(env, prog, s5, !InPacket(env, l));
    if InPacket(env, l) {
      t := DoAddK(env, prog, t, 1, l.packetOff);
    }
  }

  /** The helper copies the whole address or reports failure. */
  lemma DoLoadBytes(env: Env, prog: seq<Insn>, s: State, l: Layout) returns (t: State)
    requires ValidLayout(l) && Anchored(s)
    requires s.pc < |prog| && prog[s.pc] == Insn(Call, 0, 0, 0, SKB_LOAD_BYTES)
    requires s.regs[1] == Ctx && s.regs[2] == Scalar(l.packetOff)
    requires s.regs[3] == StackPtr(l.addrOff) && s.regs[4] == Scalar(l.addrLen)
    ensures Run(env, prog, s) == Run(env, prog, t) && Anchored(t) && t.pc == s.pc + 1
    ensures t.regs[0] == Scalar(if InPacket(env, l) then 0 else U64 - EFAULT)
    ensures InPacket(env, l) ==> t.stack == WriteStack(s.stack, l.addrOff, Destination(env, l))
  {
    hide Run, WriteStack;
    t := DoCall(env, prog, s, SKB_LOAD_BYTES);
  }

  lemma RunHelperLoad(env: Env, prog: seq<Insn>, s: State, l: Layout, fail: nat) returns (t: State)
    requires ValidLayout(l)
    requires CodeAt(prog, s.pc, HelperLoad(l, fail)) && Anchored(s)
    ensures Run(env, prog, s) == Run(env, prog, t) && Anchored(t)
    ensures InPacket(env, l) ==>
      && t.pc == s.pc + 8
      && t.stack == WriteStack(WriteStack(s.stack, l.keyOff, LE32(l.fullPrefix)), l.addrOff, Destination(env, l))
    ensures !InPacket(env, l) ==> t.pc == s.pc + 8 + fail
  {
    hide Run, CodeAt, WriteStack, LE32, CallHelper;
    var f := HelperLoad(l, fail);
    CodeAtEach(prog, s.pc, f);
    assert prog[s.pc + 0] == f[0] && prog[s.pc + 1] == f[1] && prog[s.pc + 2] == f[2] && prog[s.pc + 3] == f[3]
      && prog[s.pc + 4] == f[4] && prog[s.pc + 5] == f[5] && prog[s.pc + 6] == f[6] && prog[s.pc + 7] == f[7];
    var s1 := DoStW(env, prog, s, l.keyOff, l.fullPrefix);
    var s2 := DoMovX(env, prog, s1, 1, 6);
    var s3 := DoMovK(env, prog, s2, 2, l.packetOff);
    var s4 := DoMovX(env, prog, s3, 3, 10);
    var s5 := DoAddK(env, prog, s4, 3, l.addrOff);
    var s6 := DoMovK(env, prog, s5, 4, l.addrLen);
    var s7 := DoLoadBytes(env, prog, s6, l);
    t := DoJump(env, prog, s7, !InPacket(env, l));
  }

  /** The destination is in place as a lookup key, and the run goes on behind the load. */
  ghost predicate Loaded(env: Env, prog: seq<Insn>, s: State, t: State, l: Layout, mode: ReadMode)
    requires ValidLayout(l)
  {
    && InPacket(env, l)
    && Run(env, prog, s) == Run(env, prog, t) && t.pc == s.pc + LoadLen(l, mode)
    && Anchored(t) && KeyReady(t, l.keyOff, LookupKey(env, l))
  }

  lemma RunDirectLoad(env: Env, prog: seq<Insn>, s: State, l: Layout, fail: nat) returns (t: State)
    requires ValidLayout(l) && CodeAt(prog, s.pc, LoadDest(l, ReadDirect, fail)) && Anchored(s)
    requires CodeAt(prog, s.pc + FailAt(ReadDirect) + 1 + fail, ResultCode(MISS))
    ensures InPacket(env, l) ==> Loaded(env, prog, s, t, l, ReadDirect)
    ensures !InPacket(env, l) ==> Run(env, prog, s) == Done(MISS)
  {
    hide Run, WriteStack, LE32;
    CodeAtParts(prog, s.pc, DirectHead(l, fail), DirectCopy(l, 0));
    t := RunDirectHead(env, prog, s, l, fail);
    if InPacket(env, l) {
      var u := RunDirectCopy(env, prog, t, l, 0);
      assert Destination(env, l)[0..] == Destination(env, l);
      t := u;
      KeyAssembled(env, s, t, l);
    } else {
      RunResult(env, prog, t, MISS);
    }
  }

  lemma RunAbsLoad(env: Env, prog: seq<Insn>, s: State, l: Layout, fail: nat) returns (t: State)
    requires ValidLayout(l) && CodeAt(prog, s.pc, LoadDest(l, ReadLdAbs, fail)) && Anchored(s)
    ensures InPacket(env, l) ==> Loaded(env, prog, s, t, l, ReadLdAbs)
    ensures !InPacket(env, l) ==> Run(env, prog, s) == Done(MISS)
  {
    hide Run, WriteStack, LE32;
    CodeAtParts(prog, s.pc, [PrefixStore(l)], AbsCopy(l, 0));
    CodeAtEach(prog, s.pc, [PrefixStore(l)]);
    assert prog[s.pc + 0] == [PrefixStore(l)][0];
    var s1 := DoStW(env, prog, s, l.keyOff, l.fullPrefix);
    t := s1;
    if !InPacket(env, l) {
      RunAbsShort(env, prog, s1, l, 0);
    } else {
      t := RunAbsCopy(env, prog, s1, l, 0);
      assert Destination(env, l)[0..] == Destination(env, l);
      KeyAssembled(env, s, t, l);
    }
  }

  /**
   The three read modes have one meaning: with a whole address in the packet the
   run goes on behind the load with the lookup key in place; otherwise it ends
   with a miss, either at once or through the failure jump to the miss block.
   */
  lemma RunLoadDest(env: Env, prog: seq<Insn>, s: State, l: Layout, mode: ReadMode, fail: nat) returns (t: State)
    requires ValidLayout(l)
    requires CodeAt(prog, s.pc, LoadDest(l, mode, fail)) && Anchored(s)
    requires mode != ReadLdAbs ==> CodeAt(prog, s.pc + FailAt(mode) + 1 + fail, ResultCode(MISS))
    ensures InPacket(env, l) ==> Loaded(env, prog, s, t, l, mode)
    ensures !InPacket(env, l) ==> Run(env, prog, s) == Done(MISS)
  {
    hide Run, WriteStack, LE32;
    match mode
    case ReadDirect => t := RunDirectLoad(env, prog, s, l, fail);
    case ReadHelper =>
      t := RunHelperLoad(env, prog, s, l, fail);
      if InPacket(env, l) {
        KeyAssembled(env, s, t, l);
      } else {
        RunResult(env, prog, t, MISS);
      }
    case ReadLdAbs => t := RunAbsLoad(env, prog, s, l, fail);
  }

  // ----- the programs -----

  lemma CidrLookupHit(env: Env, fd: int, l: Layout)
    requires ValidLayout(l) && IsCidrMap(env, fd, l) && InPacket(env, l)
    ensures LookupHit(env.maps[fd], LookupKey(env, l)) == CidrMatches(env, fd, l)
  {
    var key := LookupKey(env, l);
    assert key[..4] == LE32(l.fullPrefix) && key[4..] == Destination(env, l);
    LE32RoundTrip(l.fullPrefix);
  }

  /** Where the parts of the destination test are. */
  lemma DestinationParts(prog: seq<Insn>, at: nat, fd: int, l: Layout, mode: ReadMode)
    requires CodeAt(prog, at, DestinationTest(fd, l, mode) + Results())
    ensures CodeAt(prog, at, LoadDest(l, mode, FailJump(l, mode)))
    ensures CodeAt(prog, at + LoadLen(l, mode), LookupCode(fd, l.keyOff) + MissJump(2))
    ensures CodeAt(prog, at + LoadLen(l, mode) + 6, ResultCode(MATCH)) && CodeAt(prog, at + LoadLen(l, mode) + 8, ResultCode(MISS))
  {
    var load, look := LoadDest(l, mode, FailJump(l, mode)), LookupCode(fd, l.keyOff) + MissJump(2);
    assert |look| == 6 && |ResultCode(MATCH)| == 2;
    assert DestinationTest(fd, l, mode) == LoadDest(l, mode, FailJump(l, mode)) + LookupCode(fd, l.keyOff) + MissJump(2);
    hide CodeAt, LoadDest, LookupCode, MissJump, ResultCode, DestinationTest;
    assert DestinationTest(fd, l, mode) + Results() == load + (look + Results());
    CodeAtParts(prog, at, load, look + Results());
    CodeAtParts(prog, at + |load|, look, Results());
    CodeAtParts(prog, at + |load| + 6, ResultCode(MATCH), ResultCode(MISS));
  }

  /** From the destination test on, the run ends with the CIDR verdict. */
  lemma RunDestinationTest(env: Env, prog: seq<Insn>, s: State, fd: int, l: Layout, mode: ReadMode)
    requires ValidLayout(l) && IsCidrMap(env, fd, l) && Anchored(s)
    requires CodeAt(prog, s.pc, DestinationTest(fd, l, mode) + Results())
    ensures Run(env, prog, s) == Done(Verdict(CidrMatches(env, fd, l)))
  {
    hide Run, CodeAt, DestinationTest, LoadDest, LookupCode, KeyReady, LE32, LookupHit, Results, ResultCode;
    DestinationParts(prog, s.pc, fd, l, mode);
    var t := RunLoadDest(env, prog, s, l, mode, FailJump(l, mode));
    if InPacket(env, l) {
      CidrLookupHit(env, fd, l);
      t := RunLookup(env, prog, t, fd, l.keyOff, LookupKey(env, l), 2);
      RunResult(env, prog, t, Verdict(CidrMatches(env, fd, l)));
    }
  }

  /** The UID test falls through on a listed UID and otherwise takes its jump. */
  lemma RunUidTest(env: Env, prog: seq<Insn>, s: State, fd: int, scratch: int, missOff: nat) returns (t: State)
    requires IsUidMap(env, fd) && InFrame(scratch, 4)
    requires CodeAt(prog, s.pc, UidTest(fd, scratch, missOff))
    requires s.regs[1] == Ctx && s.regs[10] == StackPtr(0)
    ensures Run(env, prog, s) == Run(env, prog, t)
    ensures t.regs[6] == s.regs[6] && t.regs[10] == s.regs[10]
    ensures t.pc == if UidMatches(env, fd) then s.pc + 8 else s.pc + 8 + missOff
  {
    hide Run, WriteStack, LE32;
    var head := [Insn(Call, 0, 0, 0, GET_SOCKET_UID), Insn(StxW, 10, 0, scratch, 0)];
    var look := LookupCode(fd, scratch) + MissJump(missOff);
    assert UidTest(fd, scratch, missOff) == head + look;
    CodeAtParts(prog, s.pc, head, look);
    CodeAtEach(prog, s.pc, head);
    assert prog[s.pc + 0] == head[0] && prog[s.pc + 1] == head[1];
    t := DoCall(env, prog, s, GET_SOCKET_UID);
    t := DoStxW(env, prog, t, 0, scratch);
    assert ReadStack(t.stack, scratch, 4) == LE32(env.uid);
    t := RunLookup(env, prog, t, fd, scratch, LE32(env.uid), missOff);
  }

  lemma RunSaveContext(env: Env, prog: seq<Insn>) returns (t: State)
    requires CodeAt(prog, 0, SaveContext())
    ensures Execute(env, prog) == Run(env, prog, t)
    ensures t.pc == 1 && Anchored(t) && t.regs[1] == Ctx
  {
    CodeAtEach(prog, 0, SaveContext());
    assert prog[0 + 0] == SaveContext()[0];
    t := DoMovX(env, prog, Entry(), 6, 1);
  }

  /** The CIDR matcher decides membership of the destination address. */
  lemma CidrMatcherCorrect(env: Env, fd: int, l: Layout, mode: ReadMode)
    requires ValidLayout(l) && IsCidrMap(env, fd, l)
    ensures Execute(env, CidrProgram(fd, l, mode)) == Done(Verdict(CidrMatches(env, fd, l)))
  {
    hide Run, DestinationTest, Results;
    var prog := CidrProgram(fd, l, mode);
    var rest := DestinationTest(fd, l, mode) + Results();
    assert prog == SaveContext() + rest;
    CodeAtParts(prog, 0, SaveContext(), rest);
    var t := RunSaveContext(env, prog);
    RunDestinationTest(env, prog, t, fd, l, mode);
  }

  lemma CodeParts(prog: seq<Insn>, a: seq<Insn>, b: seq<Insn>, c: seq<Insn>, d: seq<Insn>, e: seq<Insn>)
    requires prog == a + b + c + d + e
    ensures CodeAt(prog, 0, a) && CodeAt(prog, |a|, b) && CodeAt(prog, |a| + |b|, c)
    ensures CodeAt(prog, |a| + |b| + |c|, d + e) && CodeAt(prog, |a| + |b| + |c| + |d|, e)
  {
    assert prog == a + (b + (c + (d + e)));
    CodeAtParts(prog, 0, a, b + (c + (d + e)));
    CodeAtParts(prog, |a|, b, c + (d + e));
    CodeAtParts(prog, |a| + |b|, c, d + e);
    CodeAtParts(prog, |a| + |b| + |c|, d, e);
  }

  lemma FragmentSizes(fd: int, l: Layout, mode: ReadMode, scratch: int, missOff: int)
    ensures |UidTest(fd, scratch, missOff)| == 8 && |DestinationTest(fd, l, mode)| == LoadLen(l, mode) + 6
    ensures |ResultCode(MATCH)| == |ResultCode(MISS)| == 2 && |SaveContext()| == 1 && |Results()| == 4
  {
  }

  /** How the force matcher is laid out. */
  lemma ForceProgramParts(prog: seq<Insn>, cidrFd: int, uidFd: int, l: Layout, mode: ReadMode)
    requires prog == ForceProgram(cidrFd, uidFd, l, mode)
    ensures CodeAt(prog, 0, SaveContext())
    ensures 1 < |prog| && prog[1] == Insn(Mov64X, 1, 6, 0, 0)
    ensures CodeAt(prog, 2, UidTest(uidFd, l.scratchOff, LoadLen(l, mode) + 8))
    ensures CodeAt(prog, 10, DestinationTest(cidrFd, l, mode) + Results())
    ensures CodeAt(prog, 18 + LoadLen(l, mode), ResultCode(MISS))
  {
    hide UidTest, DestinationTest, SaveContext, LoadLen, ResultCode;
    var n := LoadLen(l, mode);
    var uid, dest, again := UidTest(uidFd, l.scratchOff, n + 8), DestinationTest(cidrFd, l, mode), [Insn(Mov64X, 1, 6, 0, 0)];
    FragmentSizes(cidrFd, l, mode, l.scratchOff, n + 8);
    FragmentSizes(uidFd, l, mode, l.scratchOff, n + 8);
    CodeParts(prog, SaveContext(), again, uid, dest, Results());
    assert prog[1..1 + |again|] == again;
    CodeAtParts(prog, 16 + n, ResultCode(MATCH), ResultCode(MISS));
  }

  /** The force matcher demands a listed UID and a covered destination. */
  lemma ForceMatcherCorrect(env: Env, cidrFd: int, uidFd: int, l: Layout, mode: ReadMode)
    requires ValidLayout(l) && IsCidrMap(env, cidrFd, l) && IsUidMap(env, uidFd)
    ensures Execute(env, ForceProgram(cidrFd, uidFd, l, mode))
         == Done(Verdict(UidMatches(env, uidFd) && CidrMatches(env, cidrFd, l)))
  {
    hide Run, CodeAt, ForceProgram;
    var prog := ForceProgram(cidrFd, uidFd, l, mode);
    ForceProgramParts(prog, cidrFd, uidFd, l, mode);
    var t := RunSaveContext(env, prog);
    t := DoMovX(env, prog, t, 1, 6);
    t := RunUidTest(env, prog, t, uidFd, l.scratchOff, LoadLen(l, mode) + 8);
    if UidMatches(env, uidFd) {
      RunDestinationTest(env, prog, t, cidrFd, l, mode);
    } else {
      RunResult(env, prog, t, MISS);
    }
  }

  /** The app matcher decides membership of the socket UID; it reads no packet. */
  lemma UidMatcherCorrect(env: Env, fd: int)
    requires IsUidMap(env, fd)
    ensures Execute(env, UidProgram(fd)) == Done(Verdict(UidMatches(env, fd)))
  {
    hide Run;
    var prog := UidProgram(fd);
    var uid := UidTest(fd, -4, 2);
    CodeAtParts(prog, 0, uid, Results());
    CodeAtParts(prog, 8, ResultCode(MATCH), ResultCode(MISS));
    var t := RunUidTest(env, prog, Entry(), fd, -4, 2);
    RunResult(env, prog, t, Verdict(UidMatches(env, fd)));
  }
}
