/**
 From the text of a list to the verdict on a packet: a network of the list covers an
 address as the firewall's own rules understand it, and a packet is matched exactly
 if the list has a network with its destination.
 */
module CidrFiles {
  import opened Bytes
  import opened CFile
  import opened BpfMaps
  import Cidr
  import Netfilter
  import BpfMachine
  import BpfBuilder
  import BpfMatcher
  import BpfLoader

  // ----- bits and numbers -----

  /** An address as the number it is written as, first byte foremost. */
  function BigEndian(bs: seq<byte>): nat {
    if bs == [] then 0 else bs[0] * Netfilter.Pow2(8 * (|bs| - 1)) + BigEndian(bs[1..])
  }

  function BitNumber(bits: seq<bool>): nat {
    if bits == [] then 0 else 2 * BitNumber(bits[..|bits| - 1]) + if bits[|bits| - 1] then 1 else 0
  }

  lemma {:induction false} BitNumberBelow(bits: seq<bool>)
    ensures BitNumber(bits) < Netfilter.Pow2(|bits|)
    decreases |bits|
  {
    if bits != [] {
      BitNumberBelow(bits[..|bits| - 1]);
    }
  }

  lemma {:induction false} BitNumberJoined(a: seq<bool>, b: seq<bool>)
    ensures BitNumber(a + b) == BitNumber(a) * Netfilter.Pow2(|b|) + BitNumber(b)
    decreases |b|
  {
    if b == [] {
      assert a + b == a;
    } else {
      var init, last := b[..|b| - 1], if b[|b| - 1] then 1 else 0;
      assert (a + b)[..|a + b| - 1] == a + init;
      BitNumberJoined(a, init);
      Doubled(BitNumber(a), Netfilter.Pow2(|init|));
    }
  }

  lemma Doubled(x: nat, y: nat)
    ensures 2 * (x * y) == x * (2 * y)
  {
  }

  lemma {:induction false} BitsOfNumber(n: nat, width: nat)
    requires n < Netfilter.Pow2(width)
    ensures BitNumber(BitsOf(n, width)) == n
    decreases width
  {
    if width > 0 {
      BitsOfNumber(n / 2, width - 1);
      var bits := BitsOf(n, width);
      assert bits[..|bits| - 1] == BitsOf(n / 2, width - 1);
    }
  }

  lemma {:induction false} BitsNumber(bs: seq<byte>)
    ensures BitNumber(Bits(bs)) == BigEndian(bs)
    decreases |bs|
  {
    if bs != [] {
      assert Netfilter.Pow2(4) == 16 && Netfilter.Pow2(8) == 256;
      BitsOfNumber(bs[0], 8);
      BitsNumber(bs[1..]);
      BitNumberJoined(BitsOf(bs[0], 8), Bits(bs[1..]));
    }
  }

  /** Dropping the last bits is dividing. */
  lemma PrefixNumber(bits: seq<bool>, p: nat)
    requires p <= |bits|
    ensures BitNumber(bits) / Netfilter.Pow2(|bits| - p) == BitNumber(bits[..p])
  {
    assert bits == bits[..p] + bits[p..];
    BitNumberJoined(bits[..p], bits[p..]);
    BitNumberBelow(bits[p..]);
    Divided(BitNumber(bits[..p]), Netfilter.Pow2(|bits| - p), BitNumber(bits[p..]));
  }

  lemma AtLeast(n: nat, d: nat)
    requires n > 0
    ensures n * d >= d
  {
    assert n * d == (n - 1) * d + d;
  }

  lemma OneQuotient(q: nat, x: nat, d: nat, r: nat, y: nat)
    requires r < d && y < d && q * d + r == x * d + y
    ensures q == x
  {
    if q < x {
      assert (x - q) * d == x * d - q * d;
      AtLeast(x - q, d);
    } else if x < q {
      assert (q - x) * d == q * d - x * d;
      AtLeast(q - x, d);
    }
  }

  lemma Divided(q: nat, d: nat, r: nat)
    requires r < d
    ensures (q * d + r) / d == q
  {
    var n := q * d + r;
    assert n == n / d * d + n % d;
    OneQuotient(q, n / d, d, r, n % d);
  }

  lemma {:induction false} SameNumber(a: seq<bool>, b: seq<bool>)
    requires |a| == |b| && BitNumber(a) == BitNumber(b)
    ensures a == b
    decreases |a|
  {
    if a != [] {
      SameNumber(a[..|a| - 1], b[..|b| - 1]);
      assert a == a[..|a| - 1] + [a[|a| - 1]] && b == b[..|b| - 1] + [b[|b| - 1]];
    }
  }

  /** Two addresses share a prefix exactly if one is in the network of the other. */
  lemma PrefixIsNet(a: seq<byte>, d: seq<byte>, p: nat)
    requires |a| == |d| && p <= 8 * |a|
    ensures Bits(d)[..p] == Bits(a)[..p]
       <==> Netfilter.InNet(Netfilter.Net(BigEndian(a), p, 8 * |a|), BigEndian(d))
  {
    hide BitNumber, Bits, BigEndian;
    BitsNumber(a);
    BitsNumber(d);
    PrefixNumber(Bits(a), p);
    PrefixNumber(Bits(d), p);
    if BitNumber(Bits(d)[..p]) == BitNumber(Bits(a)[..p]) {
      SameNumber(Bits(d)[..p], Bits(a)[..p]);
    }
  }

  // ----- a list and the matcher it is loaded for -----

  function Width(ipv6: bool): nat { if ipv6 then 128 else 32 }

  /** A line's network holds the address, as a rule with that network would say. */
  predicate Holds(pton: Pton, line: CidrLine, ipv6: bool, d: nat) {
    && line.NetLine? && (':' in line.host) == ipv6 && AddressOf(pton, line.host).Some? && line.prefix <= Width(ipv6)
    && Netfilter.InNet(Netfilter.Net(BigEndian(AddressOf(pton, line.host).value), line.prefix, Width(ipv6)), d)
  }

  predicate Lists(pton: Pton, lines: seq<CidrLine>, ipv6: bool, d: nat) { exists line | line in lines :: Holds(pton, line, ipv6, d) }

  lemma LineCovers(pton: Pton, line: CidrLine, ipv6: bool, dst: seq<byte>)
    requires |dst| == if ipv6 then 16 else 4
    ensures Cidr.LpmCovers(Listed(NetworkOf(pton, line, ipv6)), Bits(dst)) <==> Holds(pton, line, ipv6, BigEndian(dst))
  {
    var keys := NetworkOf(pton, line, ipv6);
    if keys != [] {
      var a, p := AddressOf(pton, line.host).value, line.prefix;
      var key := Bits(a)[..p];
      assert keys == [key] && Listed(keys) == {key};
      PrefixIsNet(a, dst, p);
      if Cidr.LpmCovers({key}, Bits(dst)) {
        var q: nat :| q <= |Bits(dst)| && Bits(dst)[..q] in {key};
        assert |Bits(dst)[..q]| == q && |key| == p;
      }
      if Bits(dst)[..p] == key {
        assert Bits(dst)[..p] in {key};
      }
    }
  }

  /** The keys of a list cover exactly the addresses in one of its networks. */
  lemma {:induction false} ListCovers(pton: Pton, lines: seq<CidrLine>, ipv6: bool, dst: seq<byte>)
    requires |dst| == if ipv6 then 16 else 4
    ensures Cidr.LpmCovers(Listed(NetworksOf(pton, lines, ipv6)), Bits(dst)) <==> Lists(pton, lines, ipv6, BigEndian(dst))
    decreases |lines|
  {
    hide Holds, NetworkOf, Listed, Cidr.LpmCovers;
    if lines == [] {
      NothingListed(Bits(dst));
    } else {
      LineCovers(pton, lines[0], ipv6, dst);
      ListCovers(pton, lines[1..], ipv6, dst);
      var one, more := NetworkOf(pton, lines[0], ipv6), NetworksOf(pton, lines[1..], ipv6);
      ListedBoth(one, more);
      Cidr.CoversUnion(Listed(one), Listed(more), Bits(dst));
      assert forall line :: line in lines <==> line == lines[0] || line in lines[1..];
    }
  }

  lemma NothingListed(a: seq<bool>)
    ensures !Cidr.LpmCovers(Listed([]), a)
  {
  }

  /** The map of a family is loaded from the list's text, and has room for it. */
  ghost predicate LoadedFrom(env: BpfMachine.Env, fd: int, pton: Pton, lines: seq<CidrLine>, ipv6: bool) {
    && (forall line | line in lines :: Fitting(line))
    && |Listed(NetworksOf(pton, lines, ipv6))| <= 65536
    && fd in env.maps
    && env.maps[fd] == AsLpm(Filled({}, CidrEntries(pton, Some(CidrFile(lines)), ipv6), MAX_CIDRS), if ipv6 then 16 else 4)
  }

  lemma ListLoaded(pton: Pton, lines: seq<CidrLine>, ipv6: bool)
    requires (forall line | line in lines :: Fitting(line)) && |Listed(NetworksOf(pton, lines, ipv6))| <= 65536
    ensures Filled({}, CidrEntries(pton, Some(CidrFile(lines)), ipv6), MAX_CIDRS) == Listed(NetworksOf(pton, lines, ipv6))
  {
    CidrFileMeans(pton, lines, ipv6);
    var entries := NetworksOf(pton, lines, ipv6);
    assert {} + Listed(entries) == Listed(entries);
    FilledWithAll({}, entries, MAX_CIDRS);
  }

  lemma LoadedKeys(env: BpfMachine.Env, fd: int, pton: Pton, lines: seq<CidrLine>, ipv6: bool)
    requires LoadedFrom(env, fd, pton, lines, ipv6)
    ensures env.maps[fd] == AsLpm(Listed(NetworksOf(pton, lines, ipv6)), if ipv6 then 16 else 4)
  {
    hide Filled, CidrEntries, NetworksOf, Listed, CidrFile, Fitting;
    ListLoaded(pton, lines, ipv6);
  }

  function LayoutOf(ipv6: bool): BpfBuilder.Layout { if ipv6 then BpfBuilder.LAYOUT_V6 else BpfBuilder.LAYOUT_V4 }

  /** From the text of a list to the verdict: a packet is matched exactly if the
      destination in its header is in a network of the list. */
  lemma FileVerdict(env: BpfMachine.Env, fd: int, pton: Pton, lines: seq<CidrLine>, ipv6: bool, mode: BpfBuilder.ReadMode)
    requires LoadedFrom(env, fd, pton, lines, ipv6)
    ensures BpfMachine.Execute(env, BpfBuilder.CidrProgram(fd, LayoutOf(ipv6), mode))
      == BpfMachine.Done(if (if ipv6 then |env.packet| >= 40 && Lists(pton, lines, true, BigEndian(env.packet[24..40]))
                             else |env.packet| >= 20 && Lists(pton, lines, false, BigEndian(env.packet[16..20])))
                         then 0xffff else 0)
  {
    hide BpfMachine.Execute, Lists, NetworksOf, CidrEntries, Filled, Listed, Cidr.LpmCovers;
    var keys := Listed(NetworksOf(pton, lines, ipv6));
    LoadedKeys(env, fd, pton, lines, ipv6);
    if ipv6 {
      CidrVerdict(env, fd, BpfBuilder.LAYOUT_V6, mode, keys);
      if |env.packet| >= 40 {
        ListCovers(pton, lines, true, env.packet[24..40]);
      }
    } else {
      CidrVerdict(env, fd, BpfBuilder.LAYOUT_V4, mode, keys);
      if |env.packet| >= 20 {
        ListCovers(pton, lines, false, env.packet[16..20]);
      }
    }
  }

  lemma UidsLoaded(uids: seq<u32>)
    requires |Listed(uids)| <= 8192
    ensures Uids(Some(UidFile(uids))) == Listed(uids)
  {
    UidFileRoundTrip(uids);
    assert {} + Listed(uids) == Listed(uids);
    FilledWithAll({}, uids, MAX_UIDS);
  }

  /** Each of the four maps is filled from the file meant for it. */
  lemma AppliedLists(m: Maps, pton: Pton, files: Files, lines4: seq<CidrLine>, lines6: seq<CidrLine>, force: seq<u32>, apps: seq<u32>)
    requires HoldsAll(m, pton, files)
    requires files.cidr4 == Some(CidrFile(lines4)) && files.cidr6 == Some(CidrFile(lines6))
    requires files.forceUids == Some(UidFile(force)) && files.appUids == Some(UidFile(apps))
    requires (forall line | line in lines4 :: Fitting(line)) && |Listed(NetworksOf(pton, lines4, false))| <= 65536
    requires (forall line | line in lines6 :: Fitting(line)) && |Listed(NetworksOf(pton, lines6, true))| <= 65536
    requires |Listed(force)| <= 8192 && |Listed(apps)| <= 8192
    ensures m.cidr4.keys == Listed(NetworksOf(pton, lines4, false)) && m.cidr6.keys == Listed(NetworksOf(pton, lines6, true))
    ensures m.forceUid.keys == Listed(force) && m.appUid.keys == Listed(apps)
  {
    hide Filled, CidrEntries, UidEntries, NetworksOf, Listed, CidrFile, UidFile, Fitting;
    ListLoaded(pton, lines4, false);
    ListLoaded(pton, lines6, true);
    UidsLoaded(force);
    UidsLoaded(apps);
  }

  // ----- one list, two readers -----

  /** A line as the reader of the ipset takes it: comments are passed over, anything
      else must be an address or a network of the family. */
  function AsRead(pton: Pton, line: CidrLine, ipv6: bool): seq<Cidr.CnLine> {
    match line
    case CommentLine(_) => []
    case HostLine(host) =>
      if (':' in host) == ipv6 && AddressOf(pton, host).Some? then [Cidr.Host(Bits(AddressOf(pton, host).value))] else [Cidr.Bad]
    case NetLine(host, prefix) =>
      if (':' in host) == ipv6 && AddressOf(pton, host).Some?
      then [Cidr.Net(Cidr.Network(Bits(AddressOf(pton, host).value), prefix))] else [Cidr.Bad]
  }

  function AllRead(pton: Pton, lines: seq<CidrLine>, ipv6: bool): seq<Cidr.CnLine> {
    if lines == [] then [] else AsRead(pton, lines[0], ipv6) + AllRead(pton, lines[1..], ipv6)
  }

  lemma {:induction false} KeysConcat(a: seq<Cidr.CnLine>, b: seq<Cidr.CnLine>, width: nat)
    ensures KeysInOrder(a + b, width) == KeysInOrder(a, width) + KeysInOrder(b, width)
    decreases |a|
  {
    if a == [] {
      assert a + b == b;
    } else {
      assert (a + b)[1..] == a[1..] + b;
      KeysConcat(a[1..], b, width);
    }
  }

  /** Both readers find the same networks, in the same order. */
  lemma {:induction false} SameNetworks(pton: Pton, lines: seq<CidrLine>, ipv6: bool)
    ensures KeysInOrder(AllRead(pton, lines, ipv6), Width(ipv6)) == NetworksOf(pton, lines, ipv6)
    decreases |lines|
  {
    if lines != [] {
      var one := AsRead(pton, lines[0], ipv6);
      KeysConcat(one, AllRead(pton, lines[1..], ipv6), Width(ipv6));
      SameNetworks(pton, lines[1..], ipv6);
      LineSame(pton, lines[0], ipv6);
    }
  }

  lemma LineSame(pton: Pton, line: CidrLine, ipv6: bool)
    ensures KeysInOrder(AsRead(pton, line, ipv6), Width(ipv6)) == NetworkOf(pton, line, ipv6)
  {
    var read := AsRead(pton, line, ipv6);
    if read != [] {
      assert read[1..] == [];
    }
  }

  lemma {:induction false} NoHosts(pton: Pton, lines: seq<CidrLine>, ipv6: bool)
    requires Cidr.ReadCnipEntries(AllRead(pton, lines, ipv6), Width(ipv6)).Some?
    requires forall line | line in lines :: !line.HostLine?
    ensures forall e | e in AllRead(pton, lines, ipv6) :: e.Net?
    decreases |lines|
  {
    if lines != [] {
      var one, more := AsRead(pton, lines[0], ipv6), AllRead(pton, lines[1..], ipv6);
      assert lines[0] in lines && forall line :: line in lines[1..] ==> line in lines;
      assert one == [] || one == [one[0]];
      assert one != [] ==> (one + more)[0] == one[0] && (one + more)[1..] == more;
      assert one == [] ==> one + more == more;
      NoHosts(pton, lines[1..], ipv6);
    }
  }

  /**
   One text, loaded into the set by one program and into the map by another: on a list
   without bare addresses that the set accepts, nothing is lost on the way into the map,
   and set and matcher give the same answer on every packet.
   */
  lemma FileSetAgree(env: BpfMachine.Env, fd: int, pton: Pton, lines: seq<CidrLine>, ipv6: bool, mode: BpfBuilder.ReadMode)
    requires forall line | line in lines :: Fitting(line) && !line.HostLine?
    requires var read := Cidr.ReadCnipEntries(AllRead(pton, lines, ipv6), Width(ipv6));
      read.Some? && Cidr.IpsetRestore(read.value).Some?
    requires fd in env.maps
    requires env.maps[fd] == AsLpm(Filled({}, CidrEntries(pton, Some(CidrFile(lines)), ipv6), MAX_CIDRS), if ipv6 then 16 else 4)
    ensures var set_ := Cidr.ReadCnipEntries(AllRead(pton, lines, ipv6), Width(ipv6)).value;
      BpfMachine.Execute(env, BpfBuilder.CidrProgram(fd, LayoutOf(ipv6), mode))
        == BpfMachine.Done(if (if ipv6 then |env.packet| >= 40 && Cidr.IpsetHit(set_, Bits(env.packet[24..40]))
                               else |env.packet| >= 20 && Cidr.IpsetHit(set_, Bits(env.packet[16..20])))
                           then 0xffff else 0)
  {
    hide BpfMachine.Execute, NetworksOf, CidrEntries, Filled, Fitting, AllRead, Cidr.ReadCnipEntries, Cidr.IpsetHit, Cidr.IpsetRestore;
    CidrFileMeans(pton, lines, ipv6);
    SameNetworks(pton, lines, ipv6);
    NoHosts(pton, lines, ipv6);
    SetAndMapAgree(env, fd, LayoutOf(ipv6), mode, AllRead(pton, lines, ipv6));
  }
}
