/**
 Address prefixes: masking an address to its prefix, and the two forms in which
 a list of CN networks reaches the kernel.  The ipset holds masked networks and
 takes bare addresses as host networks; the LPM map holds unmasked addresses and
 never sees bare ones.
 */
module Cidr {
  import opened Bytes

  /** An address, most significant bit first. */
  type Addr = seq<bool>

  datatype Network = Network(addr: Addr, prefix: nat)

  predicate Proper(n: Network, width: nat) { |n.addr| == width && n.prefix <= width }

  // ----- masking -----

  function Ones(width: nat): (m: Addr)
    ensures |m| == width && forall i :: 0 <= i < width ==> m[i]
  {
    seq(width, i => true)
  }

  /** Shifted left, zeros coming in. */
  function ShiftLeft(m: Addr, n: nat): (r: Addr)
    requires n <= |m|
    ensures |r| == |m|
    ensures forall i :: 0 <= i < |m| ==> r[i] == (i + n < |m| && m[i + n])
  {
    seq(|m|, i requires 0 <= i < |m| => i + n < |m| && m[i + n])
  }

  function And(a: Addr, b: Addr): (r: Addr)
    requires |a| == |b|
    ensures |r| == |a| && forall i :: 0 <= i < |a| ==> r[i] == (a[i] && b[i])
  {
    seq(|a|, i requires 0 <= i < |a| => a[i] && b[i])
  }

  function Zeros(width: nat): (m: Addr)
    ensures |m| == width && forall i :: 0 <= i < width ==> !m[i]
  {
    seq(width, i => false)
  }

  /** A shift by the whole width is not one the machine has. */
  function Mask(width: nat, prefix: nat): (m: Addr)
    requires prefix <= width
    ensures |m| == width
  {
    if prefix == 0 then Zeros(width) else ShiftLeft(Ones(width), width - prefix)
  }

  /** A network as text is normalised to, if its prefix is in range. */
  function Normalize(n: Network, width: nat): (r: Option<Network>)
    requires |n.addr| == width
    ensures r.Some? <==> Proper(n, width)
  {
    if n.prefix > width then None else Some(Network(And(n.addr, Mask(width, n.prefix)), n.prefix))
  }

  /** The addresses of a network. */
  predicate Denotes(n: Network, a: Addr) { n.prefix <= |n.addr| && n.prefix <= |a| && a[..n.prefix] == n.addr[..n.prefix] }

  lemma MaskBits(width: nat, prefix: nat)
    requires prefix <= width
    ensures forall i :: 0 <= i < width ==> Mask(width, prefix)[i] == (i < prefix)
  {
  }

  /** The bits of the prefix stay, the others are cleared. */
  lemma NormalizedBits(n: Network, width: nat)
    requires Proper(n, width)
    ensures var r := Normalize(n, width).value;
      && Proper(r, width) && r.prefix == n.prefix && r.addr[..n.prefix] == n.addr[..n.prefix]
      && forall i :: n.prefix <= i < width ==> !r.addr[i]
  {
    MaskBits(width, n.prefix);
  }

  /** Normalising keeps the set of addresses, and does nothing the second time. */
  lemma NormalizeKeeps(n: Network, width: nat)
    requires Proper(n, width)
    ensures var r := Normalize(n, width).value;
      && (forall a :: Denotes(r, a) == Denotes(n, a))
      && Normalize(r, width) == Some(r)
  {
    var r := Normalize(n, width).value;
    NormalizedBits(n, width);
    NormalizedBits(r, width);
    assert Normalize(r, width).value.addr == r.addr by {
      forall i | 0 <= i < width ensures Normalize(r, width).value.addr[i] == r.addr[i] {
        if i < n.prefix {
          assert Normalize(r, width).value.addr[..n.prefix][i] == r.addr[..n.prefix][i];
        }
      }
    }
  }

  ghost predicate SameSet(m: Network, n: Network, width: nat) {
    forall a: Addr :: |a| == width ==> Denotes(m, a) == Denotes(n, a)
  }

  /** A longer prefix leaves out an address the shorter one has. */
  lemma LongerDiffers(m: Network, n: Network, width: nat)
    requires Proper(m, width) && Proper(n, width) && m.prefix < n.prefix
    ensures !SameSet(m, n, width) && !SameSet(n, m, width)
  {
    var k := n.prefix - 1;
    var a := m.addr[k := !n.addr[k]];
    assert a[..m.prefix] == m.addr[..m.prefix];
    assert a[..n.prefix][k] != n.addr[..n.prefix][k];
    assert Denotes(m, a) && !Denotes(n, a);
  }

  /** Two networks normalise alike exactly if they hold the same addresses. */
  lemma NormalFormsDecide(m: Network, n: Network, width: nat)
    requires Proper(m, width) && Proper(n, width)
    ensures Normalize(m, width) == Normalize(n, width) <==> SameSet(m, n, width)
  {
    NormalizedBits(m, width);
    NormalizedBits(n, width);
    var r, s := Normalize(m, width).value, Normalize(n, width).value;
    if r == s {
      NormalizeKeeps(m, width);
      NormalizeKeeps(n, width);
    }
    if SameSet(m, n, width) {
      SamePrefix(m, n, width);
      assert Denotes(m, m.addr) && Denotes(n, m.addr);
      forall i | 0 <= i < width ensures r.addr[i] == s.addr[i] {
        if i < m.prefix {
          assert r.addr[..m.prefix][i] == s.addr[..m.prefix][i];
        }
      }
      assert r.addr == s.addr;
    }
  }

  lemma SamePrefix(m: Network, n: Network, width: nat)
    requires Proper(m, width) && Proper(n, width) && SameSet(m, n, width)
    ensures m.prefix == n.prefix
  {
    if m.prefix < n.prefix {
      LongerDiffers(m, n, width);
    } else if n.prefix < m.prefix {
      LongerDiffers(n, m, width);
    }
  }

  // ----- the two loaders -----

  /** A line of the list: a network, a bare address, or neither. */
  datatype CnLine = Net(n: Network) | Host(addr: Addr) | Bad

  const MAX_CIDRS: nat := 65536

  function NormalizeEntry(e: CnLine, width: nat): Option<Network> {
    match e
    case Net(n) => if |n.addr| == width then Normalize(n, width) else None
    case Host(addr) => if |addr| == width then Some(Network(addr, width)) else None
    case Bad => None
  }

  /** Sorted and without repetitions, so a set; one bad line fails the whole file. */
  function ReadCnipEntries(lines: seq<CnLine>, width: nat): Option<set<Network>> {
    if lines == [] then Some({}) else
      match (NormalizeEntry(lines[0], width), ReadCnipEntries(lines[1..], width))
      case (Some(n), Some(rest)) => Some({n} + rest)
      case _ => None
  }

  function Joined(done: set<Network>, rest: Option<set<Network>>): Option<set<Network>> {
    match rest case None => None case Some(more) => Some(done + more)
  }

  lemma JoinedOn(done: set<Network>, n: Network, rest: Option<set<Network>>)
    ensures Joined(done + {n}, rest) == Joined(done, Joined({n}, rest)) && Joined({}, rest) == rest
  {
    if rest.Some? {
      assert done + {n} + rest.value == done + ({n} + rest.value) && {} + rest.value == rest.value;
    }
  }

  /** Line by line, up to the first that is neither; then sorted and without repetitions. */
  method ReadEntries(lines: seq<CnLine>, width: nat) returns (entries: Option<set<Network>>)
    ensures entries == ReadCnipEntries(lines, width)
  {
    var read: seq<Network> := [];
    assert lines[0..] == lines && (set n | n in read) == {};
    JoinedOn({}, Network([], 0), ReadCnipEntries(lines, width));
    for i := 0 to |lines|
      invariant Joined((set n | n in read), ReadCnipEntries(lines[i..], width)) == ReadCnipEntries(lines, width)
    {
      ghost var before := set n | n in read;
      assert lines[i..][0] == lines[i] && lines[i..][1..] == lines[i + 1..];
      var e := NormalizeEntry(lines[i], width);
      if e == None {
        return None;
      }
      JoinedOn(before, e.value, ReadCnipEntries(lines[i + 1..], width));
      read := read + [e.value];
      assert (set n | n in read) == before + {e.value};
    }
    assert lines[|lines|..] == [] && (set n | n in read) + {} == (set n | n in read);
    return Some(set n | n in read);
  }

  /** A restore of a `hash:net` set, which holds no network of prefix 0 and no more
      elements than it was made for; one refused element fails it. */
  function IpsetRestore(entries: set<Network>): Option<set<Network>> {
    if |entries| <= MAX_CIDRS && forall n | n in entries :: n.prefix > 0 then Some(entries) else None
  }

  ghost predicate IpsetHit(entries: set<Network>, a: Addr) { exists n | n in entries :: Denotes(n, a) }

  /** The keys of the LPM map: the prefix bits of each network of the family; other
      lines are passed over. */
  function LpmKeys(lines: seq<CnLine>, width: nat): set<Addr> {
    if lines == [] then {} else LpmKey(lines[0], width) + LpmKeys(lines[1..], width)
  }

  function LpmKey(e: CnLine, width: nat): set<Addr> {
    if e.Net? && Proper(e.n, width) then {e.n.addr[..e.n.prefix]} else {}
  }

  ghost predicate LpmCovers(keys: set<Addr>, a: Addr) { exists p: nat :: p <= |a| && a[..p] in keys }

  predicate Hosted(lines: seq<CnLine>, a: Addr) { Host(a) in lines }

  lemma {:induction false} ReadMeans(lines: seq<CnLine>, width: nat, a: Addr)
    requires ReadCnipEntries(lines, width).Some? && |a| == width
    ensures IpsetHit(ReadCnipEntries(lines, width).value, a) <==> LpmCovers(LpmKeys(lines, width), a) || Hosted(lines, a)
    ensures forall e :: e in lines ==> NormalizeEntry(e, width).Some?
    decreases |lines|
  {
    if lines != [] {
      var e, rest := lines[0], lines[1..];
      ReadMeans(rest, width, a);
      EntryMeans(e, width, a);
      var n, more := NormalizeEntry(e, width).value, ReadCnipEntries(rest, width).value;
      assert IpsetHit({n} + more, a) <==> Denotes(n, a) || IpsetHit(more, a);
      CoversUnion(LpmKey(e, width), LpmKeys(rest, width), a);
      assert Hosted(lines, a) <==> e == Host(a) || Hosted(rest, a);
    }
  }

  lemma CoversUnion(k: set<Addr>, l: set<Addr>, a: Addr)
    ensures LpmCovers(k + l, a) <==> LpmCovers(k, a) || LpmCovers(l, a)
  {
  }

  lemma EntryMeans(e: CnLine, width: nat, a: Addr)
    requires NormalizeEntry(e, width).Some? && |a| == width
    ensures Denotes(NormalizeEntry(e, width).value, a) <==> LpmCovers(LpmKey(e, width), a) || e == Host(a)
  {
    match e
    case Net(n) =>
      NormalizeKeeps(n, width);
      var key := n.addr[..n.prefix];
      if Denotes(n, a) {
        assert a[..n.prefix] in LpmKey(e, width);
      }
      if LpmCovers(LpmKey(e, width), a) {
        var p: nat :| p <= |a| && a[..p] in LpmKey(e, width);
        assert a[..p] == key && |key| == p;
      }
    case Host(addr) =>
      assert a[..width] == a && addr[..width] == addr;
  }

  /** A list of networks matches the same addresses either way. */
  lemma NetworksAgree(lines: seq<CnLine>, width: nat, a: Addr)
    requires ReadCnipEntries(lines, width).Some? && |a| == width
    requires forall e :: e in lines ==> e.Net?
    ensures IpsetHit(ReadCnipEntries(lines, width).value, a) == LpmCovers(LpmKeys(lines, width), a)
  {
    ReadMeans(lines, width, a);
  }

  /** In general the two agree on every address exactly if the networks of the list
      cover its bare addresses. */
  lemma AgreeExactly(lines: seq<CnLine>, width: nat)
    requires ReadCnipEntries(lines, width).Some?
    ensures (forall a: Addr :: |a| == width ==>
               IpsetHit(ReadCnipEntries(lines, width).value, a) == LpmCovers(LpmKeys(lines, width), a))
      <==> (forall h :: Host(h) in lines ==> LpmCovers(LpmKeys(lines, width), h))
  {
    forall a: Addr | |a| == width
      ensures IpsetHit(ReadCnipEntries(lines, width).value, a) <==> LpmCovers(LpmKeys(lines, width), a) || Hosted(lines, a)
      ensures forall h :: Host(h) in lines ==> |h| == width
    {
      ReadMeans(lines, width, a);
      assert forall h :: Host(h) in lines ==> NormalizeEntry(Host(h), width).Some?;
    }
    assert |Zeros(width)| == width;
    assert forall h :: Host(h) in lines ==> |h| == width by {
      ReadMeans(lines, width, Zeros(width));
      assert forall h :: Host(h) in lines ==> NormalizeEntry(Host(h), width).Some?;
    }
    assert forall h :: Host(h) in lines ==> Hosted(lines, h);
  }

  /** A list of one bare address: in the set, not in the map. */
  lemma LoneAddressMissed(h: Addr)
    ensures ReadCnipEntries([Host(h)], |h|).Some?
    ensures IpsetHit(ReadCnipEntries([Host(h)], |h|).value, h) && !LpmCovers(LpmKeys([Host(h)], |h|), h)
  {
    assert [Host(h)][1..] == [];
    ReadMeans([Host(h)], |h|, h);
    assert Host(h) in [Host(h)];
  }

  // ----- sizes -----

  function KeyOf(n: Network): Addr { if n.prefix <= |n.addr| then n.addr[..n.prefix] else [] }

  /** The LPM map needs an entry for each element of the set, no more: the limits of
      the two are reached together. */
  lemma {:induction false} SameSize(lines: seq<CnLine>, width: nat)
    requires ReadCnipEntries(lines, width).Some? && forall e :: e in lines ==> e.Net?
    ensures |LpmKeys(lines, width)| == |ReadCnipEntries(lines, width).value|
  {
    var entries, keys := ReadCnipEntries(lines, width).value, LpmKeys(lines, width);
    ReadProper(lines, width);
    assert keys == (set n | n in entries :: KeyOf(n));
    ImageSize(entries, width);
  }

  /** Elements of the set are masked, so told apart by their prefix bits. */
  predicate Masked(n: Network, width: nat) { Proper(n, width) && forall i :: n.prefix <= i < width ==> !n.addr[i] }

  lemma {:induction false} ReadProper(lines: seq<CnLine>, width: nat)
    requires ReadCnipEntries(lines, width).Some? && forall e :: e in lines ==> e.Net?
    ensures forall n :: n in ReadCnipEntries(lines, width).value ==> Masked(n, width)
    ensures LpmKeys(lines, width) == set n | n in ReadCnipEntries(lines, width).value :: KeyOf(n)
    decreases |lines|
  {
    if lines != [] {
      var e := lines[0];
      assert e in lines;
      NormalizedBits(e.n, width);
      ReadProper(lines[1..], width);
      var n, more := NormalizeEntry(e, width).value, ReadCnipEntries(lines[1..], width).value;
      assert KeyOf(n) == e.n.addr[..e.n.prefix];
      assert (set m | m in {n} + more :: KeyOf(m)) == {KeyOf(n)} + set m | m in more :: KeyOf(m);
    }
  }

  lemma {:induction false} ImageSize(entries: set<Network>, width: nat)
    requires forall n :: n in entries ==> Masked(n, width)
    ensures |set n | n in entries :: KeyOf(n)| == |entries|
    decreases |entries|
  {
    if entries != {} {
      var n :| n in entries;
      var rest := entries - {n};
      ImageSize(rest, width);
      assert (set m | m in entries :: KeyOf(m)) == (set m | m in rest :: KeyOf(m)) + {KeyOf(n)};
      forall m | m in rest ensures KeyOf(m) != KeyOf(n) {
        if KeyOf(m) == KeyOf(n) {
          KeyDecides(m, n, width);
        }
      }
    }
  }

  lemma KeyDecides(m: Network, n: Network, width: nat)
    requires Masked(m, width) && Masked(n, width) && KeyOf(m) == KeyOf(n)
    ensures m == n
  {
    assert m.prefix == |KeyOf(m)| == n.prefix;
    forall i | 0 <= i < width ensures m.addr[i] == n.addr[i] {
      if i < m.prefix {
        assert KeyOf(m)[i] == KeyOf(n)[i];
      }
    }
    assert m.addr == n.addr;
  }
}
