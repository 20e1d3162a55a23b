/**
 An interpreter for the part of the eBPF instruction set that boxbpf assembles
 (RFC 9669, sections 4.1, 4.3, 4.3.1, 5.1, 5.4.1 and 5.5).

 Everything a correct program must not do is a `Fault`: reading a register or a
 stack byte that was not written (or that a call clobbered), an access outside
 the 512-byte frame or the packet, a jump that does not go forward, landing on
 the second half of a wide instruction, running off the end.  A program that is
 proved never to fault is therefore safe in all of these ways on every run.
 */
module BpfMachine {
  import opened Bytes

  type Reg = x: int | 0 <= x <= 10

  /** The opcodes in use, each with its byte value. */
  datatype Op =
    | Mov64X    // 0xbf  dst = src
    | Mov64K    // 0xb7  dst = imm
    | Add64K    // 0x07  dst += imm
    | StW       // 0x62  *(u32*)(dst + off) = imm
    | StxB      // 0x73  *(u8*)(dst + off) = src
    | StxW      // 0x63  *(u32*)(dst + off) = src
    | LdxB      // 0x71  dst = *(u8*)(src + off)
    | LdxW      // 0x61  dst = *(u32*)(src + off)
    | LdAbsB    // 0x30  R0 = packet byte at imm
    | LdImm64   // 0x18  dst = map(imm), two slots wide
    | Second    // 0x00  second slot of LdImm64
    | JeqK      // 0x15
    | JneK      // 0x55
    | JgtX      // 0x2d
    | Call      // 0x85
    | Exit      // 0x95

  datatype Insn = Insn(op: Op, dst: Reg, src: Reg, off: int, imm: int)

  datatype Value =
    | Uninit
    | Scalar(n: int)
    | Ctx
    | StackPtr(at: int)
    | PacketPtr(at: int)
    | MapRef(fd: int)
    | MapValue(fd: int)

  /** What a map holds, as far as a lookup can tell.  An LPM trie is keyed by the
      prefix bits of its entries. */
  datatype MapContents =
    | HashSet(keySize: nat, keys: set<seq<byte>>)
    | LpmTrie(addrLen: nat, prefixes: set<seq<bool>>)

  /** What one run of a matcher depends on: the linear packet from its network
      header on, the UID of the socket, and the maps by file descriptor. */
  datatype Env = Env(packet: seq<byte>, uid: u32, maps: map<int, MapContents>)

  type Regs = r: seq<Value> | |r| == 11 witness seq(11, i => Uninit)

  datatype State = State(pc: nat, regs: Regs, stack: map<int, byte>)

  datatype Outcome = Next(s: State) | Done(ret: int) | Fault

  const FRAME: int := 512

  // struct __sk_buff offsets and helper numbers
  const SKB_DATA: int := 76
  const SKB_DATA_END: int := 80
  const MAP_LOOKUP_ELEM: int := 1
  const SKB_LOAD_BYTES: int := 26
  const GET_SOCKET_UID: int := 47

  const EFAULT: int := 14

  /** A longest-prefix match exists iff some stored prefix, no longer than the
      key's own length, is a prefix of the key's address. */
  ghost predicate LpmHit(prefixes: set<seq<bool>>, limit: nat, addr: seq<byte>) {
    exists p: nat :: p <= limit && p <= |Bits(addr)| && Bits(addr)[..p] in prefixes
  }

  ghost predicate LookupHit(m: MapContents, key: seq<byte>)
    requires |key| == KeySize(m)
  {
    match m
    case HashSet(_, keys) => key in keys
    case LpmTrie(addrLen, prefixes) =>
      var limit := FromLE32(key[..4]);
      limit <= 8 * addrLen && LpmHit(prefixes, limit, key[4..])
  }

  function KeySize(m: MapContents): nat {
    match m
    case HashSet(n, _) => n
    case LpmTrie(n, _) => 4 + n
  }

  predicate InFrame(off: int, n: nat) {
    -FRAME <= off && off + n <= 0
  }

  function WriteStack(stack: map<int, byte>, off: int, bs: seq<byte>): (r: map<int, byte>)
    ensures forall i :: i in r <==> i in stack || off <= i < off + |bs|
    ensures forall i :: off <= i < off + |bs| ==> r[i] == bs[i - off]
    ensures forall i :: i in stack && !(off <= i < off + |bs|) ==> r[i] == stack[i]
    decreases |bs|
  {
    if bs == [] then stack else WriteStack(stack[off := bs[0]], off + 1, bs[1..])
  }

  predicate Written(stack: map<int, byte>, off: int, n: nat) {
    forall i :: off <= i < off + n ==> i in stack
  }

  function ReadStack(stack: map<int, byte>, off: int, n: nat): (bs: seq<byte>)
    requires Written(stack, off, n)
    ensures |bs| == n
    ensures forall k :: 0 <= k < n ==> bs[k] == stack[off + k]
  {
    seq(n, k requires 0 <= k < n => assert off <= off + k < off + n; stack[off + k])
  }

  function Set(s: State, r: Reg, v: Value): Outcome {
    if r == 10 then Fault else Next(State(s.pc + 1, s.regs[r := v], s.stack))
  }

  function Jump(s: State, taken: bool, off: int): Outcome {
    if !taken then Next(s.(pc := s.pc + 1))
    else if off < 0 then Fault
    else Next(s.(pc := s.pc + 1 + off))
  }

  function Store(s: State, base: Value, off: int, bs: seq<byte>): Outcome {
    if base.StackPtr? && InFrame(base.at + off, |bs|)
    then Next(State(s.pc + 1, s.regs, WriteStack(s.stack, base.at + off, bs)))
    else Fault
  }

  /** A call or a legacy packet load leaves R1 to R5 unreadable. */
  function Clobber(regs: Regs, r0: Value): Regs {
    regs[0 := r0][1 := Uninit][2 := Uninit][3 := Uninit][4 := Uninit][5 := Uninit]
  }

  function AddImm(v: Value, imm: int): Value {
    match v
    case Scalar(n) => Scalar((n + imm) % U64)
    case StackPtr(at) => StackPtr(at + imm)
    case PacketPtr(at) => PacketPtr(at + imm)
    case _ => Uninit
  }

  function LoadCtx(env: Env, off: int): Value {
    if off == SKB_DATA then PacketPtr(0)
    else if off == SKB_DATA_END then PacketPtr(|env.packet|)
    else Uninit
  }

  ghost function CallHelper(env: Env, s: State, helper: int): Outcome {
    if helper == GET_SOCKET_UID then
      if s.regs[1] != Ctx then Fault
      else Next(State(s.pc + 1, Clobber(s.regs, Scalar(env.uid)), s.stack))
    else if helper == MAP_LOOKUP_ELEM then
      if !s.regs[1].MapRef? || s.regs[1].fd !in env.maps || !s.regs[2].StackPtr? then Fault
      else
        var fd, at := s.regs[1].fd, s.regs[2].at;
        var n := KeySize(env.maps[fd]);
        if !InFrame(at, n) || !Written(s.stack, at, n) then Fault
        else
          var hit := LookupHit(env.maps[fd], ReadStack(s.stack, at, n));
          Next(State(s.pc + 1, Clobber(s.regs, if hit then MapValue(fd) else Scalar(0)), s.stack))
    else if helper == SKB_LOAD_BYTES then
      if s.regs[1] != Ctx || !s.regs[2].Scalar? || !s.regs[3].StackPtr? || !s.regs[4].Scalar? then Fault
      else
        var from, to, n := s.regs[2].n, s.regs[3].at, s.regs[4].n;
        if from < 0 || n <= 0 || !InFrame(to, n) then Fault
        else if from + n <= |env.packet| then
          Next(State(s.pc + 1, Clobber(s.regs, Scalar(0)), WriteStack(s.stack, to, env.packet[from..from + n])))
        else
          // the kernel zeroes the buffer and returns -EFAULT
          Next(State(s.pc + 1, Clobber(s.regs, Scalar(U64 - EFAULT)), WriteStack(s.stack, to, seq(n, i => 0))))
    else Fault
  }

  ghost function Step(env: Env, prog: seq<Insn>, s: State): Outcome {
    if s.pc >= |prog| then Fault else
    var i := prog[s.pc];
    var d, x := s.regs[i.dst], s.regs[i.src];
    match i.op
    case Mov64X => if x.Uninit? then Fault else Set(s, i.dst, x)
    case Mov64K => Set(s, i.dst, Scalar(i.imm % U64))
    case Add64K => if AddImm(d, i.imm).Uninit? then Fault else Set(s, i.dst, AddImm(d, i.imm))
    case StW => Store(s, d, i.off, LE32(i.imm % U32))
    case StxB => if x.Scalar? then Store(s, d, i.off, [x.n % 256]) else Fault
    case StxW => if x.Scalar? then Store(s, d, i.off, LE32(x.n % U32)) else Fault
    case LdxB =>
      if x.PacketPtr? && 0 <= x.at + i.off < |env.packet|
      then Set(s, i.dst, Scalar(env.packet[x.at + i.off])) else Fault
    case LdxW => if x.Ctx? && !LoadCtx(env, i.off).Uninit? then Set(s, i.dst, LoadCtx(env, i.off)) else Fault
    case LdAbsB =>
      if s.regs[6] != Ctx || i.imm < 0 then Fault
      else if i.imm >= |env.packet| then Done(0)
      else Next(State(s.pc + 1, Clobber(s.regs, Scalar(env.packet[i.imm])), s.stack))
    case LdImm64 =>
      if s.pc + 1 < |prog| && prog[s.pc + 1].op.Second? && i.dst != 10
      then Next(State(s.pc + 2, s.regs[i.dst := MapRef(i.imm)], s.stack)) else Fault
    case Second => Fault
    case JeqK => if Comparable(d) then Jump(s, IsImm(d, i.imm), i.off) else Fault
    case JneK => if Comparable(d) then Jump(s, !IsImm(d, i.imm), i.off) else Fault
    case JgtX => if d.PacketPtr? && x.PacketPtr? then Jump(s, d.at > x.at, i.off) else Fault
    case Call => CallHelper(env, s, i.imm)
    case Exit => if s.regs[0].Scalar? then Done(s.regs[0].n % U32) else Fault
  }

  /** A scalar, or a lookup result compared with zero. */
  predicate Comparable(v: Value) { v.Scalar? || v.MapValue? }

  predicate IsImm(v: Value, imm: int)
    requires Comparable(v)
  {
    v.Scalar? && v.n == imm % U64
  }

  /** The outcome of running from `s` to the end.  Only forward steps are taken,
      so the program counter is the termination measure. */
  ghost function Run(env: Env, prog: seq<Insn>, s: State): Outcome
    decreases |prog| - s.pc
  {
    match Step(env, prog, s)
    case Next(t) => if t.pc > s.pc && s.pc < |prog| then Run(env, prog, t) else Fault
    case o => o
  }

  /** Entry: R1 holds the context and R10 the frame pointer, nothing else is readable. */
  function Entry(): State {
    State(0, seq(11, i => if i == 1 then Ctx else if i == 10 then StackPtr(0) else Uninit), map[])
  }

  ghost function Execute(env: Env, prog: seq<Insn>): Outcome {
    Run(env, prog, Entry())
  }
}
