/**
 Filling the maps the matchers look into: on a fresh apply, and on a hot update
 of maps that are in use.  A map takes a new key only while it has room.
 */
module BpfMaps {
  import opened Bytes
  import opened BpfMachine
  import opened BpfBuilder
  import opened BpfMatcher
  import opened CFile
  import Cidr

  const MAX_CIDRS: nat := 65536
  const MAX_UIDS: nat := 8192

  /** The keys after loading a list of entries in order. */
  function Filled<K(==)>(keys: set<K>, entries: seq<K>, capacity: nat): set<K>
    decreases |entries|
  {
    if entries == [] then keys
    else
      var k := entries[0];
      Filled(if k in keys || |keys| >= capacity then keys else keys + {k}, entries[1..], capacity)
  }

  // ----- one map -----

  class KernelMap<K(==)> {
    var keys: set<K>
    const capacity: nat

    constructor (capacity: nat)
      ensures keys == {} && this.capacity == capacity
    {
      this.capacity := capacity;
      keys := {};
    }

    /** A new key needs room.  Storing a key again changes nothing; whether a full map
        reports that as a failure depends on its kind. */
    method UpdateElem(k: K) returns (ok: bool)
      modifies this
      ensures keys == if k in old(keys) || |old(keys)| >= capacity then old(keys) else old(keys) + {k}
      ensures ok ==> k in keys
      ensures |old(keys)| < capacity ==> ok
    {
      if |keys| < capacity {
        keys := keys + {k};
        assert k in old(keys) ==> keys == old(keys);
        return true;
      }
      ok := *;
      ok := ok && k in keys;
    }

    /** Some key, while there is one. */
    method NextKey() returns (k: Option<K>)
      ensures k.None? <==> keys == {}
      ensures k.Some? ==> k.value in keys
    {
      if keys == {} {
        return None;
      }
      var some :| some in keys;
      return Some(some);
    }

    /** A deletion, which may fail. */
    method DeleteElem(k: K) returns (ok: bool)
      modifies this
      ensures keys == if ok then old(keys) - {k} else old(keys)
    {
      ok := *;
      if ok {
        keys := keys - {k};
      }
    }

    /** Delete whatever key comes first until none does: -1 if a deletion fails. */
    method ClearMap() returns (count: int)
      modifies this
      ensures count >= 0 ==> keys == {} && count == |old(keys)|
      ensures count < 0 ==> count == -1 && keys <= old(keys)
    {
      count := 0;
      while true
        invariant keys <= old(keys) && count >= 0 && count + |keys| == |old(keys)|
        decreases |keys|
      {
        var k := NextKey();
        if k.None? {
          return;
        }
        var ok := DeleteElem(k.value);
        if !ok {
          return -1;
        }
        count := count + 1;
      }
    }

    /** Store entries in order, counting those stored and those dropped. */
    method Load(entries: seq<K>) returns (loaded: nat, failed: nat)
      modifies this
      ensures keys == Filled(old(keys), entries, capacity)
      ensures loaded + failed == |entries|
      ensures entries != [] && |old(keys)| < capacity ==> loaded > 0
    {
      loaded, failed := 0, 0;
      for i := 0 to |entries|
        invariant Filled(keys, entries[i..], capacity) == Filled(old(keys), entries, capacity)
        invariant loaded + failed == i
        invariant i == 0 ==> keys == old(keys)
        invariant i > 0 && |old(keys)| < capacity ==> loaded > 0
      {
        assert entries[i..][0] == entries[i] && entries[i..][1..] == entries[i + 1..];
        var ok := UpdateElem(entries[i]);
        if ok {
          loaded := loaded + 1;
        } else {
          failed := failed + 1;
        }
      }
    }
  }

  // ----- what loading amounts to -----

  function Listed<K(==)>(entries: seq<K>): set<K> { set k | k in entries }

  /** Only listed entries come in, nothing goes, and never more than fit. */
  lemma {:induction false} FilledWithin<K>(keys: set<K>, entries: seq<K>, capacity: nat)
    requires |keys| <= capacity
    ensures keys <= Filled(keys, entries, capacity) <= keys + Listed(entries) && |Filled(keys, entries, capacity)| <= capacity
    decreases |entries|
  {
    if entries != [] {
      var k := entries[0];
      FilledWithin(if k in keys || |keys| >= capacity then keys else keys + {k}, entries[1..], capacity);
      ListedFirst(entries);
    }
  }

  lemma ListedFirst<K>(entries: seq<K>)
    requires entries != []
    ensures Listed(entries) == {entries[0]} + Listed(entries[1..])
  {
    assert entries == [entries[0]] + entries[1..];
  }

  /** With room for all, all are there. */
  lemma {:induction false} FilledWithAll<K>(keys: set<K>, entries: seq<K>, capacity: nat)
    requires |keys + Listed(entries)| <= capacity
    ensures Filled(keys, entries, capacity) == keys + Listed(entries)
    decreases |entries|
  {
    if entries == [] {
      assert keys + Listed(entries) == keys;
    } else {
      var k := entries[0];
      ListedFirst(entries);
      if k in keys {
        assert keys + Listed(entries) == keys + Listed(entries[1..]);
        FilledWithAll(keys, entries[1..], capacity);
      } else {
        assert keys + Listed(entries) == keys + {k} + Listed(entries[1..]);
        SmallerSet(keys, keys + Listed(entries), k);
        FilledWithAll(keys + {k}, entries[1..], capacity);
      }
    }
  }

  lemma Absorbs<K>(a: set<K>, k: K, b: set<K>)
    ensures a + {k} + b == a + ({k} + b) && (k in a ==> a + b == a + ({k} + b))
  {
  }

  /** An entry is left out only of a map that ends up full. */
  lemma {:induction false} DroppedOnlyWhenFull<K>(keys: set<K>, entries: seq<K>, capacity: nat)
    requires |keys| <= capacity && |Filled(keys, entries, capacity)| < capacity
    ensures Filled(keys, entries, capacity) == keys + Listed(entries)
    decreases |entries|
  {
    if entries == [] {
      assert keys + Listed(entries) == keys;
    } else {
      var k := entries[0];
      ListedFirst(entries);
      hide Listed;
      var rest := Listed(entries[1..]);
      Absorbs(keys, k, rest);
      if k in keys {
        DroppedOnlyWhenFull(keys, entries[1..], capacity);
      } else if |keys| < capacity {
        assert |keys + {k}| <= capacity;
        DroppedOnlyWhenFull(keys + {k}, entries[1..], capacity);
      } else {
        FullStays(keys, entries[1..], capacity);
      }
    }
  }

  lemma {:induction false} FullStays<K>(keys: set<K>, entries: seq<K>, capacity: nat)
    requires |keys| >= capacity
    ensures Filled(keys, entries, capacity) == keys
    decreases |entries|
  {
    if entries != [] {
      FullStays(keys, entries[1..], capacity);
    }
  }

  lemma SmallerSet<K>(a: set<K>, b: set<K>, k: K)
    requires a <= b && k in b && k !in a
    ensures |a| < |b|
  {
    Smaller(a, b - {k});
  }

  lemma {:induction false} Smaller<K>(a: set<K>, b: set<K>)
    requires a <= b
    ensures |a| <= |b|
    decreases |a|
  {
    if a != {} {
      var x :| x in a;
      Smaller(a - {x}, b - {x});
    }
  }

  // ----- apply and update -----

  datatype Files = Files(cidr4: Option<string>, cidr6: Option<string>, forceUids: Option<string>, appUids: Option<string>)

  datatype Status = StatusOk | ConfigError | UpdateError

  /** Why an apply ended; `Empty` is a required map without an entry. */
  datatype Cause = Complete | NotCreated | Empty | NotPinned | NotLoaded

  class Maps {
    const cidr4: KernelMap<seq<bool>>
    const cidr6: KernelMap<seq<bool>>
    const forceUid: KernelMap<u32>
    const appUid: KernelMap<u32>

    constructor ()
      ensures fresh({cidr4, cidr6}) && fresh({forceUid, appUid}) && Separate()
      ensures cidr4.keys == {} && cidr6.keys == {} && forceUid.keys == {} && appUid.keys == {}
    {
      cidr4 := new KernelMap(MAX_CIDRS);
      cidr6 := new KernelMap(MAX_CIDRS);
      forceUid := new KernelMap(MAX_UIDS);
      appUid := new KernelMap(MAX_UIDS);
    }

    predicate Separate() {
      && cidr4 != cidr6 && forceUid != appUid
      && cidr4.capacity == MAX_CIDRS && cidr6.capacity == MAX_CIDRS
      && forceUid.capacity == MAX_UIDS && appUid.capacity == MAX_UIDS
    }
  }

  /** What a fresh apply leaves in the four maps. */
  function Cidrs(pton: Pton, files: Files, ipv6: bool): set<seq<bool>> {
    Filled({}, CidrEntries(pton, if ipv6 then files.cidr6 else files.cidr4, ipv6), MAX_CIDRS)
  }

  function Uids(file: Option<string>): set<u32> { Filled({}, UidEntries(file), MAX_UIDS) }

  predicate HoldsAll(m: Maps, pton: Pton, files: Files)
    reads m.cidr4, m.cidr6, m.forceUid, m.appUid
  {
    && m.cidr4.keys == Cidrs(pton, files, false) && m.cidr6.keys == Cidrs(pton, files, true)
    && m.forceUid.keys == Uids(files.forceUids) && m.appUid.keys == Uids(files.appUids)
  }

  /** Whether a file has an entry at all: its lines up to the first that parses. */
  method UidFileHasEntries(file: Option<string>) returns (found: bool)
    ensures found <==> UidEntries(file) != []
  {
    if file == None {
      return false;
    }
    var chunks := Chunks(file.value, UID_LINE);
    var i := 0;
    while i < |chunks|
      invariant 0 <= i <= |chunks|
      invariant UidsOf(chunks) == UidsOf(chunks[i..])
    {
      assert chunks[i..][0] == chunks[i] && chunks[i..][1..] == chunks[i + 1..];
      if ParseUid(chunks[i]).Some? {
        return true;
      }
      i := i + 1;
    }
    return false;
  }

  /** The file names of pinned maps and programs. */
  const MAP_PINS: set<string> := {"map_cidr4", "map_cidr6", "map_force_uid", "map_app_uid"}
  const PROGRAM_PINS4: seq<string> := ["cidr_out4", "cidr_pre4", "force_out4", "app_out4"]
  const PROGRAM_PINS6: seq<string> := ["cidr_out6", "cidr_pre6", "force_out6", "app_out6"]

  function KnownPins(ipv6: bool): set<string> {
    MAP_PINS + (set p | p in PROGRAM_PINS4) + (if ipv6 then set p | p in PROGRAM_PINS6 else {})
  }

  /** Create a map, fill it and pin it; creating and pinning may fail.  Once created, a
      required map is found empty exactly if there is nothing to store in it. */
  method CreateMap<K(==)>(map_: KernelMap<K>, entries: seq<K>, required: bool, pins: set<string>, name: string)
    returns (cause: Cause, pinned: set<string>)
    requires map_.keys == {} && map_.capacity > 0
    modifies map_
    ensures cause == Complete ==> map_.keys == Filled({}, entries, map_.capacity) && pinned == pins + {name}
    ensures cause != Complete ==> pinned == pins
    ensures cause != NotCreated ==> (cause == Empty <==> required && entries == [])
  {
    var created: bool := *;
    if !created {
      return NotCreated, pins;
    }
    var loaded, _ := map_.Load(entries);
    if required && loaded <= 0 {
      return Empty, pins;
    }
    var pinning: bool := *;
    if !pinning {
      return NotPinned, pins;
    }
    return Complete, pins + {name};
  }

  /** Load and pin programs one after the other, up to the first that fails. */
  method PinPrograms(names: seq<string>, pins: set<string>) returns (cause: Cause, pinned: set<string>)
    ensures cause == Complete || cause == NotLoaded
    ensures cause == Complete ==> pinned == pins + set p | p in names
  {
    pinned := pins;
    for i := 0 to |names|
      invariant pinned == pins + set p | p in names[..i]
    {
      var loaded: bool := *;
      if !loaded {
        return NotLoaded, pinned;
      }
      assert names[..i + 1] == names[..i] + [names[i]];
      pinned := pinned + {names[i]};
    }
    assert names[..|names|] == names;
    return Complete, pinned;
  }

  /** The four maps, one after the other, up to the first that fails.  The app list
      is required where it has an entry, and so never found empty. */
  method CreateMaps(m: Maps, pton: Pton, files: Files) returns (cause: Cause, pins: set<string>)
    requires m.Separate() && m.cidr4.keys == {} && m.cidr6.keys == {} && m.forceUid.keys == {} && m.appUid.keys == {}
    modifies m.cidr4, m.cidr6, m.forceUid, m.appUid
    ensures cause != Empty
    ensures cause == Complete ==> HoldsAll(m, pton, files) && pins == MAP_PINS
  {
    hide Filled, CidrEntries, UidEntries;
    var required := UidFileHasEntries(files.appUids);
    cause, pins := CreateMap(m.cidr4, CidrEntries(pton, files.cidr4, false), false, {}, "map_cidr4");
    if cause != Complete {
      return;
    }
    cause, pins := CreateMap(m.cidr6, CidrEntries(pton, files.cidr6, true), false, pins, "map_cidr6");
    if cause != Complete {
      return;
    }
    cause, pins := CreateMap(m.forceUid, UidEntries(files.forceUids), false, pins, "map_force_uid");
    if cause != Complete {
      return;
    }
    cause, pins := CreateMap(m.appUid, UidEntries(files.appUids), required, pins, "map_app_uid");
  }

  /** New maps, filled from the files and pinned with the programs.  Either everything
      is done, or an error is reported and nothing stays pinned.  The error is never
      that a required map is empty. */
  method ApplyConfig(pton: Pton, files: Files, ipv6: bool)
    returns (status: Status, m: Maps, pins: set<string>, cause: Cause)
    ensures fresh({m.cidr4, m.cidr6}) && fresh({m.forceUid, m.appUid}) && m.Separate()
    ensures status == StatusOk ==> HoldsAll(m, pton, files) && pins == KnownPins(ipv6)
    ensures status != StatusOk ==> status == ConfigError && pins == {}
    ensures (status == StatusOk <==> cause == Complete) && cause != Empty
  {
    hide HoldsAll;
    m := new Maps();
    cause, pins := CreateMaps(m, pton, files);
    if cause == Complete {
      cause, pins := PinPrograms(PROGRAM_PINS4, pins);
    }
    if cause == Complete && ipv6 {
      cause, pins := PinPrograms(PROGRAM_PINS6, pins);
    }
    status := if cause == Complete then StatusOk else ConfigError;
    if cause != Complete {
      pins := {};
    }
  }

  /** The pinned maps, emptied and filled again.  A map that could not be emptied is
      filled all the same, and reported. */
  method UpdateConfig(m: Maps, pton: Pton, files: Files, ipv6: bool) returns (status: Status)
    requires m.Separate()
    modifies m.cidr4, m.cidr6, m.forceUid, m.appUid
    ensures status == StatusOk || status == UpdateError
    ensures status == StatusOk ==>
      && m.cidr4.keys == Cidrs(pton, files, false)
      && m.cidr6.keys == (if ipv6 then Cidrs(pton, files, true) else old(m.cidr6.keys))
      && m.forceUid.keys == Uids(files.forceUids) && m.appUid.keys == Uids(files.appUids)
    ensures !ipv6 ==> m.cidr6.keys == old(m.cidr6.keys)
  {
    status := StatusOk;
    var count := m.cidr4.ClearMap();
    if count < 0 {
      status := UpdateError;
    }
    var _, _ := m.cidr4.Load(CidrEntries(pton, files.cidr4, false));
    if ipv6 {
      count := m.cidr6.ClearMap();
      if count < 0 {
        status := UpdateError;
      }
      var _, _ := m.cidr6.Load(CidrEntries(pton, files.cidr6, true));
    }
    count := m.forceUid.ClearMap();
    if count < 0 {
      status := UpdateError;
    }
    var _, _ := m.forceUid.Load(UidEntries(files.forceUids));
    count := m.appUid.ClearMap();
    if count < 0 {
      status := UpdateError;
    }
    var _, _ := m.appUid.Load(UidEntries(files.appUids));
  }

  /** A hot update; without all the pinned maps it is a fresh apply. */
  method Update(pinned: Option<Maps>, pton: Pton, files: Files, ipv6: bool) returns (status: Status, m: Maps)
    requires pinned.Some? ==> pinned.value.Separate()
    modifies if pinned.Some? then {pinned.value.cidr4, pinned.value.cidr6} else {}
    modifies if pinned.Some? then {pinned.value.forceUid, pinned.value.appUid} else {}
    ensures status == StatusOk && ipv6 ==> HoldsAll(m, pton, files)
  {
    match pinned {
      case None =>
        var pins: set<string>;
        var cause: Cause;
        status, m, pins, cause := ApplyConfig(pton, files, ipv6);
      case Some(p) =>
        m := p;
        status := UpdateConfig(p, pton, files, ipv6);
    }
  }

  // ----- through the matchers -----

  /** The maps as the matchers see them. */
  function AsLpm(keys: set<seq<bool>>, addrLen: nat): MapContents { LpmTrie(addrLen, keys) }

  function AsHash(uids: set<u32>): MapContents { HashSet(4, set u | u in uids :: LE32(u)) }

  ghost predicate Covered(keys: set<seq<bool>>, addr: seq<byte>) {
    Cidr.LpmCovers(keys, Bits(addr))
  }

  /** A packet of a family with a whole destination is matched exactly if a loaded
      prefix covers the destination, in whatever read mode the program was accepted. */
  lemma CidrVerdict(env: BpfMachine.Env, fd: int, l: Layout, mode: ReadMode, keys: set<seq<bool>>)
    requires ValidLayout(l) && fd in env.maps && env.maps[fd] == AsLpm(keys, l.addrLen)
    ensures Execute(env, CidrProgram(fd, l, mode))
         == BpfMachine.Done(Verdict(InPacket(env, l) && Covered(keys, Destination(env, l))))
  {
    CidrMatcherCorrect(env, fd, l, mode);
    if InPacket(env, l) {
      var d := Destination(env, l);
      assert LpmHit(env.maps[fd].prefixes, 8 * l.addrLen, d) <==> Covered(keys, d);
    }
  }

  lemma UidVerdict(env: BpfMachine.Env, fd: int, uids: set<u32>)
    requires fd in env.maps && env.maps[fd] == AsHash(uids)
    ensures Execute(env, UidProgram(fd)) == BpfMachine.Done(Verdict(env.uid in uids))
  {
    UidMatcherCorrect(env, fd);
    if LE32(env.uid) in env.maps[fd].keys {
      var u :| u in uids && LE32(u) == LE32(env.uid);
      LE32Injective(u, env.uid);
    }
  }

  /** A list of up to 8192 IDs, written by boxctl and loaded by boxbpf: the app
      program answers exactly as the list does. */
  lemma AppProgramAnswers(env: BpfMachine.Env, fd: int, uids: seq<u32>)
    requires |Listed(uids)| <= 8192
    requires fd in env.maps && env.maps[fd] == AsHash(Uids(Some(UidFile(uids))))
    ensures Execute(env, UidProgram(fd)) == BpfMachine.Done(Verdict(env.uid in uids))
  {
    UidFileRoundTrip(uids);
    assert {} + Listed(uids) == Listed(uids);
    FilledWithAll({}, uids, MAX_UIDS);
    UidVerdict(env, fd, Listed(uids));
  }

  // ----- one list, two loaders -----

  /** The prefix bits of the list's networks, in the order boxbpf stores them. */
  function KeysInOrder(lines: seq<Cidr.CnLine>, width: nat): seq<seq<bool>> {
    if lines == [] then []
    else
      (if lines[0].Net? && Cidr.Proper(lines[0].n, width) then [lines[0].n.addr[..lines[0].n.prefix]] else [])
        + KeysInOrder(lines[1..], width)
  }

  lemma {:induction false} KeysAreListed(lines: seq<Cidr.CnLine>, width: nat)
    ensures Listed(KeysInOrder(lines, width)) == Cidr.LpmKeys(lines, width)
    decreases |lines|
  {
    if lines != [] {
      KeysAreListed(lines[1..], width);
      ListedBoth(KeysInOrder(lines[..1], width), KeysInOrder(lines[1..], width));
      assert lines[..1][1..] == [];
    }
  }

  lemma ListedBoth<K>(a: seq<K>, b: seq<K>)
    ensures Listed(a + b) == Listed(a) + Listed(b)
  {
  }

  /**
   A list of networks that the set accepts is loaded into the map without a loss,
   and the matcher answers as the set does, although the set holds the networks
   masked, sorted and once each and the map as they are written.
   */
  lemma SetAndMapAgree(env: BpfMachine.Env, fd: int, l: Layout, mode: ReadMode, lines: seq<Cidr.CnLine>)
    requires ValidLayout(l) && Cidr.ReadCnipEntries(lines, 8 * l.addrLen).Some? && forall e :: e in lines ==> e.Net?
    requires Cidr.IpsetRestore(Cidr.ReadCnipEntries(lines, 8 * l.addrLen).value).Some?
    requires fd in env.maps && env.maps[fd] == AsLpm(Filled({}, KeysInOrder(lines, 8 * l.addrLen), MAX_CIDRS), l.addrLen)
    ensures Execute(env, CidrProgram(fd, l, mode)) == BpfMachine.Done(Verdict(InPacket(env, l)
      && Cidr.IpsetHit(Cidr.ReadCnipEntries(lines, 8 * l.addrLen).value, Bits(Destination(env, l)))))
  {
    var width := 8 * l.addrLen;
    var keys := Cidr.LpmKeys(lines, width);
    KeysAreListed(lines, width);
    Cidr.SameSize(lines, width);
    assert {} + keys == keys;
    FilledWithAll({}, KeysInOrder(lines, width), MAX_CIDRS);
    CidrVerdict(env, fd, l, mode, keys);
    if InPacket(env, l) {
      Cidr.NetworksAgree(lines, width, Bits(Destination(env, l)));
    }
  }
}
