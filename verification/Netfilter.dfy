/**
 The part of netfilter the rule compiler talks to: tables of chains, the
 iptables commands that change them, and the first-match traversal of a packet.
 Rules are what iptables stores after parsing, so two argument orders of one
 rule are the same rule.
 */
module Netfilter {
  import opened Bytes

  datatype Family = V4 | V6

  /** In the order a table batch is flushed. */
  datatype TableName = Filter | Mangle | Nat

  datatype Proto = Tcp | Udp | Icmp | OtherProto

  datatype CtState = New | Related | Established | Invalid

  datatype ProtoSpec = AnyProto | Is(proto: Proto) | IsNot(proto: Proto)

  datatype PortSpec = AnyPort | Port(port: nat) | NotPort(port: nat)

  /** A value and mask, as `--mark` compares and `--set-xmark` writes them. */
  datatype Mark = Mark(value: bv32, mask: bv32)

  /** A destination network of `width`-bit addresses. */
  datatype Net = Net(base: nat, prefix: nat, width: nat)

  /** A test the kernel answers from outside the rule.  The last form stands for
      matches that only rules of earlier versions have. */
  datatype Ext = NoExt | IpSet(name: string) | Pinned(path: string) | Legacy(args: string)

  datatype Target =
    | Return
    | Accept
    | Drop
    | Reject
    | Jump(chain: string)
    | SetMark(xmark: Mark)
    | SetConnMark(xmark: Mark)
    | Tproxy(port: nat, xmark: Mark)
    | Redirect(port: nat)
    | Dnat(to: string)

  datatype Rule = Rule(
    target: Target,
    proto: ProtoSpec := AnyProto,
    inIf: Option<string> := None,
    outIf: Option<string> := None,
    dst: Option<Net> := None,
    dport: PortSpec := AnyPort,
    syn: bool := false,
    reply: bool := false,
    opening: bool := false,
    mark: Option<Mark> := None,
    connmark: Option<Mark> := None,
    mac: Option<string> := None,
    uid: Option<nat> := None,
    gid: Option<nat> := None,
    ext: Ext := NoExt,
    dstLocal: bool := false,
    socket: bool := false)

  datatype Packet = Packet(
    proto: Proto,
    inIf: string,
    outIf: string,
    dst: nat,
    dport: nat,
    syn: bool,
    reply: bool,
    state: CtState,
    mac: string,
    uid: nat,
    gid: nat,
    dstLocal: bool,
    socket: bool,
    mark: bv32,
    connmark: bv32)

  /** The sets and pinned programs rules refer to by name. */
  datatype Env = Env(inSet: (string, nat) -> bool, matches: (string, nat, nat) -> bool)

  // ----- matching -----

  function Pow2(n: nat): (r: nat)
    ensures r > 0
  {
    if n == 0 then 1 else 2 * Pow2(n - 1)
  }

  predicate InNet(n: Net, a: nat) {
    n.prefix <= n.width && a / Pow2(n.width - n.prefix) == n.base / Pow2(n.width - n.prefix)
  }

  /** An interface pattern: a name, or a prefix when it ends in `+`. */
  predicate IfMatches(pattern: string, name: string) {
    if pattern != "" && pattern[|pattern| - 1] == '+' then pattern[..|pattern| - 1] <= name else pattern == name
  }

  predicate MarkIs(m: bv32, x: Mark) { m & x.mask == x.value }

  lemma MarkMeans(m: bv32, value: bv32, mask: bv32)
    ensures MarkIs(m, Mark(value, mask)) == (m & mask == value)
  {
  }

  function SetXmark(m: bv32, x: Mark): bv32 { (m & !x.mask) ^ x.value }

  predicate ProtoMatches(s: ProtoSpec, p: Proto) {
    match s
    case AnyProto => true
    case Is(q) => p == q
    case IsNot(q) => p != q
  }

  predicate PortMatches(s: PortSpec, n: nat) {
    match s
    case AnyPort => true
    case Port(q) => n == q
    case NotPort(q) => n != q
  }

  predicate ExtMatches(env: Env, e: Ext, p: Packet) {
    match e
    case NoExt => true
    case IpSet(name) => env.inSet(name, p.dst)
    case Legacy(args) => env.inSet(args, p.dst)
    case Pinned(path) => env.matches(path, p.dst, p.uid)
  }

  predicate Matches(env: Env, r: Rule, p: Packet) {
    && ProtoMatches(r.proto, p.proto)
    && (r.inIf.Some? ==> IfMatches(r.inIf.value, p.inIf))
    && (r.outIf.Some? ==> IfMatches(r.outIf.value, p.outIf))
    && (r.dst.Some? ==> InNet(r.dst.value, p.dst))
    && PortMatches(r.dport, p.dport)
    && (r.syn ==> p.syn)
    && (r.reply ==> p.reply)
    && (r.opening ==> p.state == New || p.state == Related)
    && (r.mark.Some? ==> MarkIs(p.mark, r.mark.value))
    && (r.connmark.Some? ==> MarkIs(p.connmark, r.connmark.value))
    && (r.mac.Some? ==> p.mac == r.mac.value)
    && (r.uid.Some? ==> p.uid == r.uid.value)
    && (r.gid.Some? ==> p.gid == r.gid.value)
    && ExtMatches(env, r.ext, p)
    && (r.dstLocal ==> p.dstLocal)
    && (r.socket ==> p.socket)
  }

  // ----- traversal -----

  type Chains = map<string, seq<Rule>>

  /** How a packet leaves a list of rules: off its end, by RETURN, or for good. */
  datatype Outcome =
    | Fell(p: Packet)
    | Back(p: Packet)
    | Accepted(p: Packet)
    | Refused
    | Tproxied(port: nat, p: Packet)
    | Redirected(port: nat)
    | Dnatted(to: string)

  predicate Passes(o: Outcome) { o.Fell? || o.Back? }

  /** First match wins; a custom chain that is fallen off or returned from
      continues behind its jump.  `depth` bounds the nesting of jumps, which the
      kernel keeps free of cycles. */
  function Traverse(env: Env, chains: Chains, depth: nat, rules: seq<Rule>, p: Packet): Outcome
    decreases depth, |rules|
  {
    if rules == [] then Fell(p)
    else if !Matches(env, rules[0], p) then Traverse(env, chains, depth, rules[1..], p)
    else
      match rules[0].target
      case Return => Back(p)
      case Accept => Accepted(p)
      case Drop => Refused
      case Reject => Refused
      case SetMark(x) => Traverse(env, chains, depth, rules[1..], p.(mark := SetXmark(p.mark, x)))
      case SetConnMark(x) => Traverse(env, chains, depth, rules[1..], p.(connmark := SetXmark(p.connmark, x)))
      case Tproxy(port, x) => Tproxied(port, p.(mark := SetXmark(p.mark, x)))
      case Redirect(port) => Redirected(port)
      case Dnat(to) => Dnatted(to)
      case Jump(c) =>
        if depth == 0 || c !in chains then Traverse(env, chains, depth, rules[1..], p)
        else
          var inner := Traverse(env, chains, depth - 1, chains[c], p);
          if Passes(inner) then Traverse(env, chains, depth, rules[1..], inner.p) else inner
  }

  /** Rules in sequence: the second list sees what falls off the first. */
  lemma {:induction false} TraverseAppend(env: Env, chains: Chains, depth: nat, a: seq<Rule>, b: seq<Rule>, p: Packet)
    ensures Traverse(env, chains, depth, a + b, p) ==
      var o := Traverse(env, chains, depth, a, p);
      if o.Fell? then Traverse(env, chains, depth, b, o.p) else o
    decreases |a|
  {
    if a == [] {
      assert a + b == b;
    } else {
      assert (a + b)[1..] == a[1..] + b;
      var r := a[0];
      if !Matches(env, r, p) {
        TraverseAppend(env, chains, depth, a[1..], b, p);
      } else {
        match r.target
        case SetMark(x) => TraverseAppend(env, chains, depth, a[1..], b, p.(mark := SetXmark(p.mark, x)));
        case SetConnMark(x) => TraverseAppend(env, chains, depth, a[1..], b, p.(connmark := SetXmark(p.connmark, x)));
        case Jump(c) =>
          if depth == 0 || c !in chains {
            TraverseAppend(env, chains, depth, a[1..], b, p);
          } else {
            var inner := Traverse(env, chains, depth - 1, chains[c], p);
            if Passes(inner) {
              TraverseAppend(env, chains, depth, a[1..], b, inner.p);
            }
          }
        case _ =>
      }
    }
  }

  // ----- commands -----

  /** The tables of one family; a table the kernel lacks is absent. */
  type Tables = map<TableName, Chains>

  datatype IptCmd =
    | NewChain(chain: string)
    | Flush(chain: string)
    | DeleteChain(chain: string)
    | Append(chain: string, rule: Rule)
    | Insert(chain: string, rule: Rule)
    | Delete(chain: string, rule: Rule)

  predicate IsBuiltin(chain: string) {
    chain in {"PREROUTING", "INPUT", "FORWARD", "OUTPUT", "POSTROUTING"}
  }

  predicate Mentions(rules: seq<Rule>, chain: string) {
    exists r | r in rules :: r.target == Jump(chain)
  }

  predicate Referenced(chains: Chains, chain: string) {
    exists c | c in chains :: Mentions(chains[c], chain)
  }

  /** The kernel takes a rule it supports, whose jump target exists. */
  predicate Takes(refused: set<Rule>, chains: Chains, chain: string, r: Rule) {
    chain in chains && r !in refused && (r.target.Jump? ==> r.target.chain in chains)
  }

  /** The first occurrence of a rule is deleted. */
  function Without(rules: seq<Rule>, r: Rule): (s: seq<Rule>) {
    if rules == [] then [] else if rules[0] == r then rules[1..] else [rules[0]] + Without(rules[1..], r)
  }

  /** One command on one table: the new chains, or nothing if it is refused. */
  function Ipt(refused: set<Rule>, chains: Chains, cmd: IptCmd): Option<Chains> {
    match cmd
    case NewChain(c) => if c in chains then None else Some(chains[c := []])
    case Flush(c) => if c in chains then Some(chains[c := []]) else None
    case DeleteChain(c) =>
      if c in chains && !IsBuiltin(c) && chains[c] == [] && !Referenced(chains, c) then Some(chains - {c}) else None
    case Append(c, r) => if Takes(refused, chains, c, r) then Some(chains[c := chains[c] + [r]]) else None
    case Insert(c, r) => if Takes(refused, chains, c, r) then Some(chains[c := [r] + chains[c]]) else None
    case Delete(c, r) => if c in chains && r in chains[c] then Some(chains[c := Without(chains[c], r)]) else None
  }

  predicate Present(chains: Chains, chain: string, r: Rule) {
    chain in chains && r in chains[chain]
  }
}
