/**
 The matcher assembler of boxbpf: an instruction buffer that is appended to and
 whose forward jumps are patched once their target is known, and the builders
 that fill it.  Each builder is proved to leave exactly the program that the
 functions `CidrProgram`, `ForceProgram` and `UidProgram` denote; what those
 programs compute is proved in BpfMatcher.
 */
module BpfBuilder {
  import opened Bytes
  import opened BpfMachine

  datatype ReadMode = ReadDirect | ReadHelper | ReadLdAbs

  datatype Layout = Layout(keyOff: int, addrOff: int, scratchOff: int, packetOff: nat, addrLen: nat, fullPrefix: nat)

  const LAYOUT_V4 := Layout(-8, -4, -12, 16, 4, 32)
  const LAYOUT_V6 := Layout(-24, -20, -28, 24, 16, 128)

  /** The key is a prefix word followed by the address, the scratch word lies
      below it, and everything lies in the frame. */
  predicate ValidLayout(l: Layout) {
    && l.keyOff + 4 == l.addrOff
    && l.addrOff + l.addrLen <= 0
    && -FRAME <= l.scratchOff
    && l.scratchOff + 4 <= l.keyOff
    && 0 < l.addrLen <= 64
    && l.fullPrefix == 8 * l.addrLen
    && l.packetOff < 0x1_0000
  }

  const MISS: int := 0
  const MATCH: int := 0xffff
  const MAX_PROGRAM_INSNS: int := 160
  const NO_JUMP: nat := 0xffff_ffff_ffff_ffff

  // ----- the code the builders are meant to leave -----

  function SaveContext(): seq<Insn> { [Insn(Mov64X, 6, 1, 0, 0)] }

  function PrefixStore(l: Layout): Insn { Insn(StW, 10, 0, l.keyOff, l.fullPrefix) }

  function DirectHead(l: Layout, fail: int): seq<Insn> {
    [ PrefixStore(l),
      Insn(LdxW, 1, 6, SKB_DATA, 0),
      Insn(LdxW, 2, 6, SKB_DATA_END, 0),
      Insn(Mov64X, 3, 1, 0, 0),
      Insn(Add64K, 3, 0, 0, l.packetOff + l.addrLen),
      Insn(JgtX, 3, 2, fail, 0),
      Insn(Add64K, 1, 0, 0, l.packetOff) ]
  }

  /** Copy address bytes `i` and up through R3. */
  function DirectCopy(l: Layout, i: nat): (c: seq<Insn>)
    requires i <= l.addrLen
    ensures |c| == 2 * (l.addrLen - i)
    decreases l.addrLen - i
  {
    if i == l.addrLen then []
    else [Insn(LdxB, 3, 1, i, 0), Insn(StxB, 10, 3, l.addrOff + i, 0)] + DirectCopy(l, i + 1)
  }

  function HelperLoad(l: Layout, fail: int): seq<Insn> {
    [ PrefixStore(l),
      Insn(Mov64X, 1, 6, 0, 0),
      Insn(Mov64K, 2, 0, 0, l.packetOff),
      Insn(Mov64X, 3, 10, 0, 0),
      Insn(Add64K, 3, 0, 0, l.addrOff),
      Insn(Mov64K, 4, 0, 0, l.addrLen),
      Insn(Call, 0, 0, 0, SKB_LOAD_BYTES),
      Insn(JneK, 0, 0, fail, 0) ]
  }

  /** Copy address bytes `i` and up with legacy packet loads. */
  function AbsCopy(l: Layout, i: nat): (c: seq<Insn>)
    requires i <= l.addrLen
    ensures |c| == 2 * (l.addrLen - i)
    decreases l.addrLen - i
  {
    if i == l.addrLen then []
    else [Insn(LdAbsB, 0, 0, 0, l.packetOff + i), Insn(StxB, 10, 0, l.addrOff + i, 0)] + AbsCopy(l, i + 1)
  }

  function LoadDest(l: Layout, mode: ReadMode, fail: int): (c: seq<Insn>)
    ensures |c| == LoadLen(l, mode)
  {
    match mode
    case ReadDirect => DirectHead(l, fail) + DirectCopy(l, 0)
    case ReadHelper => HelperLoad(l, fail)
    case ReadLdAbs => [PrefixStore(l)] + AbsCopy(l, 0)
  }

  function LoadLen(l: Layout, mode: ReadMode): nat {
    match mode
    case ReadDirect => 7 + 2 * l.addrLen
    case ReadHelper => 8
    case ReadLdAbs => 1 + 2 * l.addrLen
  }

  /** Where in the load the jump taken on a short packet sits; the legacy load has none. */
  function FailAt(mode: ReadMode): nat {
    match mode
    case ReadDirect => 5
    case ReadHelper => 7
    case ReadLdAbs => NO_JUMP
  }

  /** The distance of that jump: over the rest of the load, the lookup, the branch and the match block. */
  function FailJump(l: Layout, mode: ReadMode): nat {
    if mode == ReadLdAbs then 0 else LoadLen(l, mode) + 7 - FailAt(mode)
  }

  function LookupCode(fd: int, keyOff: int): seq<Insn> {
    [ Insn(LdImm64, 1, 1, 0, fd),
      Insn(Second, 0, 0, 0, 0),
      Insn(Mov64X, 2, 10, 0, 0),
      Insn(Add64K, 2, 0, 0, keyOff),
      Insn(Call, 0, 0, 0, MAP_LOOKUP_ELEM) ]
  }

  function MissJump(off: int): seq<Insn> { [Insn(JeqK, 0, 0, off, 0)] }

  function ResultCode(value: int): seq<Insn> { [Insn(Mov64K, 0, 0, 0, value), Insn(Exit, 0, 0, 0, 0)] }

  /** The destination load with its failure jump aimed past lookup, branch and match block. */
  function DestinationTest(fd: int, l: Layout, mode: ReadMode): seq<Insn> {
    LoadDest(l, mode, FailJump(l, mode)) + LookupCode(fd, l.keyOff) + MissJump(2)
  }

  function Results(): seq<Insn> { ResultCode(MATCH) + ResultCode(MISS) }

  function UidTest(fd: int, scratch: int, missOff: int): seq<Insn> {
    [Insn(Call, 0, 0, 0, GET_SOCKET_UID), Insn(StxW, 10, 0, scratch, 0)] + LookupCode(fd, scratch) + MissJump(missOff)
  }

  function CidrProgram(cidrFd: int, l: Layout, mode: ReadMode): seq<Insn> {
    SaveContext() + DestinationTest(cidrFd, l, mode) + Results()
  }

  function ForceProgram(cidrFd: int, uidFd: int, l: Layout, mode: ReadMode): seq<Insn> {
    SaveContext() + [Insn(Mov64X, 1, 6, 0, 0)] + UidTest(uidFd, l.scratchOff, LoadLen(l, mode) + 8)
      + DestinationTest(cidrFd, l, mode) + Results()
  }

  function UidProgram(uidFd: int): seq<Insn> {
    UidTest(uidFd, -4, 2) + Results()
  }

  // ----- the builder -----

  /** Truncation of a jump distance to the 16-bit offset field. */
  function Int16(n: int): int {
    (n + 32768) % 65536 - 32768
  }

  function Min(a: int, b: int): int { if a <= b then a else b }

  /**
   The buffer keeps at most 160 instructions; what does not fit is dropped and
   the overflow flag raised.  `Emitted` is everything that was asked for, so the
   flag says exactly whether the buffer is missing some of it.
   */
  class ProgBuilder {
    const insns: array<Insn>
    var count: nat
    var overflow: bool
    ghost var Emitted: seq<Insn>

    ghost predicate Valid()
      reads this, insns
    {
      && insns.Length == MAX_PROGRAM_INSNS
      && count == Min(|Emitted|, MAX_PROGRAM_INSNS)
      && overflow == (|Emitted| > MAX_PROGRAM_INSNS)
      && insns[..count] == Emitted[..count]
    }

    constructor ()
      ensures Valid() && fresh(insns) && Emitted == []
    {
      insns := new Insn[MAX_PROGRAM_INSNS](i => Insn(Second, 0, 0, 0, 0));
      count := 0;
      overflow := false;
      Emitted := [];
    }

    method Emit(insn: Insn)
      requires Valid()
      modifies this, insns
      ensures Valid() && Emitted == old(Emitted) + [insn]
    {
      Emitted := Emitted + [insn];
      if count >= MAX_PROGRAM_INSNS {
        overflow := true;
        return;
      }
      insns[count] := insn;
      count := count + 1;
    }

    method EmitJump(insn: Insn) returns (index: nat)
      requires Valid()
      modifies this, insns
      ensures Valid() && Emitted == old(Emitted) + [insn]
      ensures index == Min(|old(Emitted)|, MAX_PROGRAM_INSNS)
    {
      index := count;
      Emit(insn);
    }

    /** Aim the jump at `jumpIndex` at the next instruction to be emitted. */
    method PatchJumpHere(jumpIndex: nat)
      requires Valid()
      modifies this`Emitted, insns
      ensures Valid()
      ensures Emitted == if jumpIndex < count then Aimed(old(Emitted), jumpIndex, count) else old(Emitted)
    {
      if jumpIndex < count {
        insns[jumpIndex] := insns[jumpIndex].(off := Int16(count - jumpIndex - 1));
        Emitted := Aimed(Emitted, jumpIndex, count);
      }
    }

    method EmitMapFd(reg: Reg, mapFd: int)
      requires Valid()
      modifies this, insns
      ensures Valid()
      ensures Emitted == old(Emitted) + [Insn(LdImm64, reg, 1, 0, mapFd), Insn(Second, 0, 0, 0, 0)]
    {
      Emit(Insn(LdImm64, reg, 1, 0, mapFd));
      Emit(Insn(Second, 0, 0, 0, 0));
    }

    method EmitResult(value: int)
      requires Valid()
      modifies this, insns
      ensures Valid() && Emitted == old(Emitted) + ResultCode(value)
    {
      Emit(Insn(Mov64K, 0, 0, 0, value));
      Emit(Insn(Exit, 0, 0, 0, 0));
    }

    /** Legacy packet loads, one byte at a time; they have no failure jump. */
    method EmitAbsLoad(l: Layout)
      requires Valid()
      modifies this, insns
      ensures Valid() && Emitted == old(Emitted) + AbsCopy(l, 0)
    {
      for i := 0 to l.addrLen
        invariant Valid()
        invariant Emitted + AbsCopy(l, i) == old(Emitted) + AbsCopy(l, 0)
      {
        ghost var before, rest := Emitted, AbsCopy(l, i + 1);
        var load, store := Insn(LdAbsB, 0, 0, 0, l.packetOff + i), Insn(StxB, 10, 0, l.addrOff + i, 0);
        Emit(load);
        Emit(store);
        assert before + ([load, store] + rest) == before + [load] + [store] + rest;
      }
    }

    method EmitHelperLoad(l: Layout) returns (fail: nat)
      requires Valid()
      modifies this, insns
      ensures Valid() && Emitted == old(Emitted) + HelperLoad(l, 0)[1..]
      ensures fail == Min(|old(Emitted)| + 6, MAX_PROGRAM_INSNS)
    {
      hide Valid;
      ghost var start, code := Emitted, HelperLoad(l, 0);
      Emit(Insn(Mov64X, 1, 6, 0, 0));
      Emit(Insn(Mov64K, 2, 0, 0, l.packetOff));
      assert Emitted == start + code[1..3];
      Emit(Insn(Mov64X, 3, 10, 0, 0));
      Emit(Insn(Add64K, 3, 0, 0, l.addrOff));
      assert Emitted == start + code[1..5];
      Emit(Insn(Mov64K, 4, 0, 0, l.addrLen));
      Emit(Insn(Call, 0, 0, 0, SKB_LOAD_BYTES));
      assert Emitted == start + code[1..7];
      fail := EmitJump(Insn(JneK, 0, 0, 0, 0));
    }

    method EmitDirectBounds(l: Layout) returns (fail: nat)
      requires Valid()
      modifies this, insns
      ensures Valid() && Emitted == old(Emitted) + DirectHead(l, 0)[1..]
      ensures fail == Min(|old(Emitted)| + 4, MAX_PROGRAM_INSNS)
    {
      hide Valid;
      ghost var start, head := Emitted, DirectHead(l, 0);
      Emit(Insn(LdxW, 1, 6, SKB_DATA, 0));
      Emit(Insn(LdxW, 2, 6, SKB_DATA_END, 0));
      assert Emitted == start + head[1..3];
      Emit(Insn(Mov64X, 3, 1, 0, 0));
      Emit(Insn(Add64K, 3, 0, 0, l.packetOff + l.addrLen));
      assert Emitted == start + head[1..5];
      fail := EmitJump(Insn(JgtX, 3, 2, 0, 0));
      Emit(Insn(Add64K, 1, 0, 0, l.packetOff));
    }

    method EmitDirectCopy(l: Layout)
      requires Valid()
      modifies this, insns
      ensures Valid() && Emitted == old(Emitted) + DirectCopy(l, 0)
    {
      for i := 0 to l.addrLen
        invariant Valid()
        invariant Emitted + DirectCopy(l, i) == old(Emitted) + DirectCopy(l, 0)
      {
        ghost var before, rest := Emitted, DirectCopy(l, i + 1);
        var load, store := Insn(LdxB, 3, 1, i, 0), Insn(StxB, 10, 3, l.addrOff + i, 0);
        Emit(load);
        Emit(store);
        assert before + ([load, store] + rest) == before + [load] + [store] + rest;
      }
    }

    method EmitLoadDestination(l: Layout, mode: ReadMode) returns (fail: nat)
      requires Valid()
      modifies this, insns
      ensures Valid() && Emitted == old(Emitted) + LoadDest(l, mode, 0)
      ensures fail == if mode.ReadLdAbs? then NO_JUMP else Min(|old(Emitted)| + FailAt(mode), MAX_PROGRAM_INSNS)
    {
      hide Valid, AbsCopy, DirectCopy, PrefixStore;
      ghost var start := Emitted;
      Emit(PrefixStore(l));
      if mode == ReadLdAbs {
        EmitAbsLoad(l);
        assert Emitted == start + ([PrefixStore(l)] + AbsCopy(l, 0));
        return NO_JUMP;
      }
      if mode == ReadHelper {
        fail := EmitHelperLoad(l);
        assert Emitted == start + HelperLoad(l, 0);
        return;
      }
      fail := EmitDirectBounds(l);
      EmitDirectCopy(l);
      assert Emitted == start + (DirectHead(l, 0) + DirectCopy(l, 0));
    }

    method EmitCidrLookup(cidrFd: int, l: Layout)
      requires Valid()
      modifies this, insns
      ensures Valid() && Emitted == old(Emitted) + LookupCode(cidrFd, l.keyOff)
    {
      EmitMapFd(1, cidrFd);
      Emit(Insn(Mov64X, 2, 10, 0, 0));
      Emit(Insn(Add64K, 2, 0, 0, l.keyOff));
      Emit(Insn(Call, 0, 0, 0, MAP_LOOKUP_ELEM));
    }
  }

  /** `code` with the jump at `at` aimed at `target`. */
  function Aimed(code: seq<Insn>, at: nat, target: nat): (r: seq<Insn>)
    requires at < |code|
    ensures |r| == |code|
  {
    code[at := code[at].(off := target - at - 1)]
  }
}
