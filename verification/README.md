# box: verified models of the packet matchers and of the rule compiler

`boxctl` compiles a configuration into iptables chains, policy routes and small
eBPF programs that decide which traffic of an Android device goes through a proxy
core; `boxbpf` assembles and loads the eBPF programs.  The modules here model both
and prove what their rules and programs mean.

* **The matcher assembler.**  `BpfMachine` interprets the instructions used, as
  RFC 9669 defines them (sections 4.1, 4.3, 5.1, 5.4.1 and 5.5); `BpfBuilder` is the
  instruction buffer with its jump patching; `BpfMatcher` runs the finished programs
  on every packet; `BpfLoader` builds and loads them with the read fallback.
  `CFile` and `BpfMaps` fill the maps, `Cidr` compares the map with the ipset, and
  `CidrFiles` goes from the text of a list to the verdict on a packet.
* **The write buffer.**  `Netfilter` gives chains their meaning and commands their
  effect.  `Batching` has the rule manager: pending declarations and appends, atomic
  restore or replay, a flush before everything else, and what a flush that fails
  leaves behind; its methods say what they do in every state.  `Sessions` shows which
  setups the buffer carries faithfully, `DnsTwice` what becomes of the one that it
  does not.  The chain of the host's own networks has a restore of its own, past the
  record; `LocalIpChain` compares its ways.
* **The rule compiler.**  `RuleConfig` and `RuleScripts` say which rules and
  operations each builder yields; `RuleBuilders` has the builders as loops that drive
  the rule manager, up to the first failure.  `ExternalPolicy`, `FastPolicy`,
  `FastLocal`, `LocalPolicy` and `TunPolicy` prove what the chains mean,
  `ChainContents`, `SetupContents` and `InstalledPolicy` carry this from the commands
  of a setup to the packets that meet the installed chains.  `SetupSuccess` and
  `SetupOutcome` start from a session that reports no failure, and `SetupCondition`
  says exactly when there is one.  `Intent` writes down what the modes are for in terms
  of the settings alone; `Hooks` and `SetupHooks` follow the built-in chains, `DnsPolicy`
  has the DNS chains, `Agreement` compares the policies, and `Arrival` follows a packet
  from PREROUTING, OUTPUT and FORWARD on.  `PolicyRouting` has the rules and routes outside
  the tables; what its commands do to a session is the flush in front of them.
* **Taking it all away.**  `Teardown`, `SessionTeardown` and `TeardownModes` prove that
  a mode's cleanup undoes its setup, whatever its session came to; `Rollback` says
  exactly when the undoing within a session does; `Apply` puts setup, undoing and
  session end together for both families; `ContextDrift` says when a changed identity
  prevents the cleanup; `Foreign` and `Lifecycle` follow whole runs of apply, clear and
  renew with the snapshot that selects the cleanup.
* **Algorithms.**  `AnchorCollector` (anchors and aliases of YAML 1.2, section
  3.2.2.2), `ManagedBlock`, `CivilDate` (proleptic Gregorian calendar) and
  `VendorFirewall`.

Where the source promises something its code does not give, the code is modelled and
the exact condition proved:

* the fast external chain and the standard one treat DNS over UDP and the host's own
  destinations differently (`FastPolicy.FirstPacketsCompared`), and so do the two local
  chains (`FastLocal.FirstLocalsCompared`);
* DNS that the fast local chain leaves alone at first is marked later in the same flow
  (`FastLocal.LocalFlowWavers`, `FastLocal.BlacklistedFlowWavers`);
* the fast app chain forgets UIDs 0 and 1052 when a whitelist has only GIDs
  (`LocalPolicy.SelectionsCompared`);
* a batch tells of a refused rule only at a flush, and then leaves other tables than the
  rule-by-rule path (`Batching.BufferUnnoticedExactly`, `Batching.RefusalSeenLate`),
  although the comment at boxctl/src/rules.rs:197-198 says the same;
* a refused rule for one of the host's own networks is passed over rule by rule, and
  that network's packets are then proxied; in a batch it fails the setup
  (`SetupSuccess.UnnoticedExactly`, `SetupCondition.RefusalTolerated`);
* a setup that failed at a flush is not undone within its session unless the flush
  stopped at its first command (`Rollback.RollbackRestoresExactly`); the cleanup outside
  the session undoes it always (`TeardownModes.ModeTeardownUndoes`);
* a failed apply over the snapshot of another mode can leave chains that clear does not
  remove (`Lifecycle.FailuresClearedExactly`);
* a loopback REJECT survives a change of the core's user or group
  (`ContextDrift.RejectRestoredExactly`, `ContextDrift.RootRejectStays`);
* `boxbpf` passes over bare addresses that the ipset takes as host networks
  (`Cidr.AgreeExactly`), and reads the rest of a comment too long for its buffer as a
  line (`CFile.LongCommentRead`);
* a second ensure of a chain in one session is dropped
  (`Batching.EnsureAgreesExactly`, `DnsTwice.EnhanceHoldsTwice`);
* the rule that looks up bypass marks also selects route-marked packets
  (`PolicyRouting.RouteMarkReadsBypass`), which is why main is asked first.

Addresses and marks are 32-bit or bit-string values, 64-bit arithmetic is checked for
overflow, kernel tables are maps from chain names to rule lists.  What the kernel
refuses is an arbitrary set of rules; restores, deletions, program loads and single
commands may fail at will.  Whether restore is supported is a capability, and on which
tables the local-IP restore fails is a parameter.

Verify with `dafny verify dfyconfig.toml`.

## Model

| member | source | states |
|---|---|---|
| `BpfBuilder.ProgBuilder.Emit` | boxbpf/loader.c:182-188 | an instruction joins the emitted code; the buffer holds its first 160 instructions and the overflow flag says whether there were more |
| `BpfBuilder.ProgBuilder.EmitJump` | boxbpf/loader.c:190-194 | the index returned is where the jump will be patched |
| `BpfBuilder.ProgBuilder.PatchJumpHere` | boxbpf/loader.c:196-200 | the jump at the index lands on whatever is emitted next; an index beyond the code changes nothing |
| `BpfBuilder.ProgBuilder.EmitLoadDestination` | boxbpf/loader.c:217-249 | for all three read modes: the code appended, and the index of the still open bounds jump (none for the legacy loads) |
| `BpfBuilder.ProgBuilder.EmitCidrLookup` | boxbpf/loader.c:251-256 | the code appended is the lookup of the key area in the given map |
| `BpfLoader.LoadSocketFilter` | boxbpf/loader.c:258-295 | an overflowed program never reaches the kernel; otherwise the kernel's arbitrary verdict decides |
| `BpfLoader.BuildCidrMatcher` | boxbpf/loader.c:317-341 | the buffer handed to the kernel is the CIDR program with every jump patched |
| `BpfLoader.BuildForceMatcher` | boxbpf/loader.c:347-380 | the same for the program that tests the UID first; its UID jump is patched over the whole destination test |
| `BpfLoader.LoadUidMatcher` | boxbpf/loader.c:386-402 | the same for the UID program |
| `BpfLoader.LoadWithReadFallback` | boxbpf/loader.c:299-315 | the program loaded is that of the first read mode the kernel accepts, and loading fails exactly if it accepts none |
| `BpfMatcher.RunDirectCopy` | boxbpf/loader.c:244-247 | interpreting the direct copy loop writes the packet's address bytes to the address area and nothing else |
| `BpfMatcher.RunAbsCopy` | boxbpf/loader.c:221-224 | interpreting the legacy loads, each of which clobbers r1-r5, leaves the same bytes |
| `BpfMatcher.RunAbsShort` | boxbpf/loader.c:221-224 | a packet that ends inside the address ends the program with 0 |
| `BpfMatcher.RunLoadDest` | boxbpf/loader.c:217-249 | the three read modes have one meaning: lookup key in place behind the load, or a miss for a short packet |
| `BpfMatcher.RunLookup` | boxbpf/loader.c:251-256 | the lookup of a ready key followed by its branch falls through exactly on a hit |
| `BpfMatcher.CidrMatcherCorrect` | boxbpf/loader.c:317-341 | for every packet and map, in every layout and read mode, the CIDR program ends with 0xffff exactly if the packet holds the address and a prefix covers it, with 0 otherwise; it never faults |
| `BpfMatcher.ForceMatcherCorrect` | boxbpf/loader.c:347-380 | the force program ends with 0xffff exactly if moreover the socket's UID is in the set |
| `BpfMatcher.UidMatcherCorrect` | boxbpf/loader.c:386-402 | the UID program ends with 0xffff exactly if the UID is in the set, whatever the packet |
| `BpfLoader.MatcherCorrect` | boxbpf/loader.c:299-384 | the two statements above for either builder the fallback is given |
| `BpfLoader.ReadModeUnobservable` | boxbpf/loader.c:299-315 | two read modes give the same result on every packet and map, so which one the kernel accepted cannot be told |
| `BpfLoader.LoadProgram` | boxbpf/loader.c:404-430 | whatever program a section ends up with has at most 160 instructions and was accepted; on every packet and for all map contents it ends with 0xffff exactly if bytes 16 to 19 of an IPv4 header, or 24 to 39 of an IPv6 header, are covered by a stored prefix (and, for the force sections, the UID is stored; for the app section, that alone), and with 0 otherwise; an unknown section loads nothing |
| `BpfLoader.JumpsForward` | boxbpf/loader.c:317-402 | every jump of a finished program, the UID program included, goes forward and no further than the miss block, which is its last two instructions |
| `CFile.ParseDecimalLine` | boxbpf/config.c:227-236 | a 32-bit number written in decimal on a line is read back |
| `CFile.UidFileRoundTrip` | boxbpf/config.c:238-262 | a file of UIDs, one to a line, yields exactly those UIDs in order, in spite of the fixed line buffer |
| `CFile.CidrFileMeans` | boxbpf/config.c:161-225 | a list of networks, bare addresses and comments on lines that fit the buffer yields the first bits of each network of the family, as many as its prefix says, in order, and nothing else |
| `CFile.LongCommentRead` | boxbpf/config.c:191-195 | a comment of 255 characters and more: what is behind them on the line is loaded as a line of its own |
| `CidrFiles.PrefixIsNet` | boxbpf/config.c:207-215 | two addresses share the first bits exactly if one, read as a number, is in the network of the other as a firewall rule would have it |
| `CidrFiles.ListCovers` | boxbpf/config.c:184-225 | the keys a list yields cover exactly the addresses in one of its networks |
| `CidrFiles.FileVerdict` | boxbpf/config.c:184-225 | from the text of a list to the verdict: with room for all, the loaded CIDR program matches a packet exactly if the destination in its header is in a network of the list |
| `BpfMaps.KernelMap.ClearMap` | boxbpf/loader.c:57-73 | the loop ends; on success the map is empty and the count is what it held, after a failed deletion it returns -1 |
| `BpfMaps.KernelMap.Load` | boxbpf/config.c:184-262 | the keys after loading a list into a bounded map, in order, and the counts |
| `BpfMaps.FilledWithin` | boxbpf/config.c:217-223 | loading adds only listed entries, loses none that was there, and never exceeds the capacity |
| `BpfMaps.FilledWithAll` | boxbpf/config.c:217-223 | with room for all, every entry is there |
| `BpfMaps.DroppedOnlyWhenFull` | boxbpf/config.c:217-223 | an entry is missing only from a map that ends up full |
| `BpfMaps.UidFileHasEntries` | boxbpf/config.c:264-281 | found exactly if loading the file would store something |
| `BpfMaps.ApplyConfig` | boxbpf/main.c:67-143 | all maps and programs are pinned and the new maps hold what their files say, cut at capacity, or some creation, load or pin has failed, that is reported with its cause, and nothing stays pinned; the cause is never that a required app map is empty, which it would be exactly with nothing to store |
| `CidrFiles.AppliedLists` | boxbpf/main.c:67-143 | behind such an apply each map holds what the file meant for it lists: both families' networks, the forced UIDs and the app UIDs |
| `BpfMaps.UpdateConfig` | boxbpf/main.c:145-176 | if every deletion succeeds the pinned maps end up with the contents a fresh apply gives them, files over capacity included; without IPv6 the IPv6 map is untouched |
| `BpfMaps.Update` | boxbpf/main.c:145-176 | a hot update and a fresh apply leave the same four maps |
| `BpfMaps.CidrVerdict` | boxbpf/config.c:184-225 | the matcher over a loaded map, in any layout and read mode, answers whether some loaded prefix covers the destination |
| `BpfMaps.UidVerdict` | boxbpf/config.c:238-262 | the UID program over a loaded map answers whether the UID was stored |
| `BpfMaps.AppProgramAnswers` | boxctl/src/rules/cnip.rs:181-262 | for up to 8192 32-bit UIDs written by boxctl and loaded by boxbpf the app program answers as the list does |
| `CidrFiles.FileSetAgree` | boxctl/src/rules/cnip.rs:9-62 | one text for two programs: a list without bare addresses that the ipset accepts is loaded into the LPM map without loss, and on every packet the matcher answers as the set does |
| `Cidr.NormalizeKeeps` | boxctl/src/rules/util.rs:30-62 | normalising keeps the set of addresses and is idempotent |
| `Cidr.NormalFormsDecide` | boxctl/src/rules/util.rs:30-62 | two networks normalise alike exactly if they hold the same addresses |
| `Cidr.ReadEntries` | boxctl/src/rules/cnip.rs:9-31 | the loop over the lines yields the normalised networks as a set, and fails as a whole at the first bad line |
| `Cidr.ReadMeans` | boxctl/src/rules/cnip.rs:33-49 | an address is in the ipset exactly if a listed network covers it, or it is itself listed bare |
| `Cidr.NetworksAgree` | boxbpf/config.c:161-182 | for a list of networks the masked set and the unmasked map match the same addresses |
| `Cidr.AgreeExactly` | boxbpf/config.c:165-166 | in general the two agree on all addresses if and only if the listed networks cover the bare addresses, which boxbpf passes over |
| `Cidr.LoneAddressMissed` | boxbpf/config.c:165-166 | a list of one bare address: the ipset matches it, the map does not |
| `Cidr.SameSize` | boxctl/src/rules/cnip.rs:51-62 | set and map need the same number of entries, so their limits are reached together |
| `Batching.RuleManager.BeginBatch` | boxctl/src/rules/batch.rs:26-31 | a new session means what the kernel holds |
| `Batching.RuleManager.BatchRecordChain` | boxctl/src/rules/batch.rs:47-63 | recorded exactly for chains of the compiler in a session of that family; a chain is declared once per session |
| `Batching.RuleManager.BatchRecordAppend` | boxctl/src/rules/batch.rs:65-82 | recorded exactly in a session of that family, in order |
| `Batching.RuleManager.RunRestore` | boxctl/src/rules/batch.rs:118-168 | all of a table's record or nothing, and it may fail for reasons of its own |
| `Batching.RuleManager.FlushTable` | boxctl/src/rules/batch.rs:96-104 | restore or replay, rule by rule with the slot empty: whatever is refused and however restore behaves, the table ends up as the record says, or as the replay has it where it stops |
| `Batching.RuleManager.FlushBatch` | boxctl/src/rules/batch.rs:84-116 | table by table in order, up to the first that cannot be flushed, whose record is kept with those behind it; the nesting is bounded by the emptied slot |
| `Batching.RuleManager.EnsureChain` | boxctl/src/rules/exec.rs:22-28 | recorded or run, in every state of the record; where the record is sound the meaning moves as an unbuffered ensure moves the kernel, save that a second ensure in a session does nothing |
| `Batching.RuleManager.EnsureRuleAppend` | boxctl/src/rules/exec.rs:67-87 | recorded or run, in every state of the record; where it is sound the meaning moves as an unbuffered append; a shared chain is not given a rule twice |
| `Batching.RuleManager.EnsureRuleInsert` | boxctl/src/rules/exec.rs:89-111 | flushed, checked and inserted; a flush that fails counts as absent, and the insertion tries once more |
| `Batching.RuleManager.EnsureJump` | boxctl/src/rules/exec.rs:35-46 | flushed, checked and inserted, with the result of the insertion |
| `Batching.RuleManager.DelRule` | boxctl/src/rules/exec.rs:113-120 | deleted after a flush, silently |
| `Batching.RuleManager.CleanupChainFast` | boxctl/src/rules/exec.rs:30-33 | flushed and deleted, each silently; a chain still referenced stays |
| `Batching.RuleManager.InsertFirst` | boxctl/src/rules.rs:729-749 | the first owner variant the kernel takes is inserted, or else the mark rule if it is not there |
| `Batching.RuleManager.AppendFirst` | boxctl/src/rules/performance.rs:143-193 | the same at the end of a chain, with nothing to fall back on |
| `Batching.RuleManager.EnsureFirst` | boxctl/src/rules/routing.rs:205-219 | the first variant present or accepted ends the attempts |
| `Batching.RuleManager.RebuildWithRestore` | boxctl/src/rules/local_ip.rs:200-244 | in every state of the record: a flush, the chain created silently, and one restore past the record that is taken whole or not at all; without support nothing happens |
| `Batching.RuleManager.RebuildLocalIpChain` | boxctl/src/rules/local_ip.rs:175-198 | in every state of the record: the restore, or else the chain ensured and both rules of each network tried, their failures only counted; the counts add up and say how many networks have a rule |
| `Batching.RuleManager.FlushForCommand` | boxctl/src/rules/exec.rs:216-241 | what a command of `ip` does to the session: the flush in front of it, whose failure counts only where the command is required |
| `Batching.RuleManager.RunSession` | boxctl/src/rules.rs:193-216 | a whole session, buffered where restore is supported: results and tables are determined for every sequence of operations, local-IP rebuilds and flushes for other programs included, and every set of refused rules; where chains are ensured before they are appended to and what is recorded is accepted, they are those of the session semantics |
| `Batching.PerformMeans` | boxctl/src/rules/exec.rs:22-120 | one operation on a sound record whose rule the kernel would take: the record stays sound, and its meaning and the result are those of the unbuffered operation, save a second ensure |
| `Batching.RebuildMeans` | boxctl/src/rules/local_ip.rs:175-244 | within a session, with a chain not used in it before and none of the rules refused: past the record or through it, the rebuild moves the meaning as filling the chain does, and the record stays sound |
| `Batching.BufferUnnoticedExactly` | boxctl/src/rules.rs:193-216 | for sessions that ensure each chain once and before its appends, and rebuild without a refused rule, the results reported while it is open are those of the unbuffered run if and only if the kernel accepts all that is recorded, and then the end succeeds with the tables of the unbuffered run |
| `Batching.RefusalSeenLate` | boxctl/src/rules.rs:193-216 | two chains and an append to the first that is refused: the batch reports three successes, fails at its end, and has made the second chain, where the rule-by-rule path stops at the append with the first chain alone |
| `Batching.FailedFlush` | boxctl/src/rules/batch.rs:84-116 | what any failing flush leaves: the tables before some table are flushed, that table holds its replay up to the refused command, those behind it are untouched, and exactly the records from it on are kept |
| `Batching.FlushFailsAgain` | boxctl/src/rules/batch.rs:33-37 | a flush that failed fails again at the end of the session, with the same record |
| `Batching.StoppedAgain` | boxctl/src/rules/batch.rs:96-110 | what the second replay of a kept record does to its table: chains it declares are emptied and refilled, chains known from before get the taken rules a second time |
| `Batching.OrderlyIsDirect` | boxctl/src/rules/batch.rs:47-116 | if each chain is ensured once and before its appends, session and unbuffered run agree at every operation and in the final tables, and what the session accepts is what the unbuffered run accepts without a refused rule in a rebuild |
| `Batching.EnsureAgreesExactly` | boxctl/src/rules/batch.rs:58-61 | recording an ensure means what running it does if and only if the chain is unused in the session or pending empty |
| `Sessions.SetupRegular` | boxctl/src/rules.rs:268-434 | in every mode and configuration the setup ensures chains before appending, and only enhance mode ensures any chain twice, the DNS ones, never one that is rebuilt |
| `Sessions.RegularIsTame` | boxctl/src/rules/batch.rs:47-116 | such a setup is one the session theorem covers, and one the unbuffered run equals if nothing is ensured twice |
| `DnsTwice.SessionTwins` | boxctl/src/rules/batch.rs:58-61 | all along a session that ensures only some chains twice, its tables and the unbuffered ones differ only in those chains |
| `DnsTwice.EnhanceHoldsTwice` | boxctl/src/rules.rs:346-353 | in enhance mode a batched DNS chain holds its rules twice where the unbuffered one holds them once |
| `DnsTwice.EnhanceUndetectable` | boxctl/src/rules/dns.rs:61-191 | every packet gets the same verdict from both, from any chain of any table |
| `DnsTwice.OtherModesExact` | boxctl/src/rules.rs:268-434 | in every other mode the batched and the unbuffered tables are equal; the batch accepts the same kernels but for those that refuse a local-IP rule |
| `SetupSuccess.DoomedRun` | boxctl/src/rules/batch.rs:84-116 | once a refused rule is recorded, or a table is missing, nothing the session does, restores past the record included, can make its last flush succeed |
| `SetupSuccess.SetupGrounded` | boxctl/src/rules.rs:268-434 | in every mode the setup appends and jumps only to chains it has made before and does not delete, and rebuilds each local-IP chain once, so only a refused rule or a missing table can fail |
| `SetupSuccess.SuccessMeans` | boxctl/src/rules.rs:193-216 | for such scripts a session without a reported failure, buffered or not, has had everything accepted, and its tables are those of the session semantics |
| `SetupSuccess.UnnoticedExactly` | boxctl/src/rules.rs:193-216 | for such scripts that ensure no chain twice, a buffered session succeeds at its end if and only if the unbuffered run is accepted and no rebuild meets a refused rule; then all its reports and its tables are those of the unbuffered run |
| `SetupCondition.SetupHooked` | boxctl/src/rules.rs:268-434 | in every mode jumps are inserted only in PREROUTING and OUTPUT of nat and mangle, towards chains made before |
| `SetupCondition.ReportedExactly` | boxctl/src/rules.rs:193-434 | for every mode and configuration, with none of the hooks in place: the setup reports no failure if and only if the tables and built-in chains it works on are there and the kernel refuses none of the rules appended to its own chains, none of the hooks and, in a buffered session, none of the local-IP rules |
| `SetupCondition.UnrefusedInstalls` | boxctl/src/rules.rs:193-434 | a kernel that refuses nothing, with all tables and built-in chains: every setup reports success and has installed its mode |
| `SetupCondition.EmptyInstalls` | boxctl/src/rules.rs:193-434 | the same on tables that hold nothing but their built-in chains: a concrete start for every configuration |
| `SetupCondition.RefusalTolerated` | boxctl/src/rules/local_ip.rs:246-270 | a kernel that refuses one rule for 10.0.0.0/8, listed as the host's own: the rule-by-rule setup reports success, the batched one does not |
| `SetupOutcome.ReportedInstalls` | boxctl/src/rules.rs:193-216 | a mode's setup that reports no failure has been accepted, and its tables are those of the unbuffered run, local-IP rules only as far as the kernel takes them, or in nat under enhance mode alike to every packet |
| `Netfilter.TraverseAppend` | boxctl/src/rules.rs:788-806 | a chain decides as its first part does, or else as its second on the packet the first leaves |
| `ExternalPolicy.CommonBypassMeans` | boxctl/src/rules.rs:788-806 | bypassed subnets and CN destinations leave; host networks whose rule for the packet the kernel took are accepted, except for DNS over UDP |
| `ExternalPolicy.KeptPairsMean` | boxctl/src/rules/local_ip.rs:246-270 | a local-IP chain with any of its rules refused accepts a packet exactly if it is not DNS over UDP and some listed network holds its destination and has its rule for such packets |
| `ExternalPolicy.HotspotsRulesMean` | boxctl/src/rules/external.rs:55-158 | a MAC whitelist dispatches listed MACs on hotspot interfaces, a blacklist all others |
| `ExternalPolicy.StandardExternalMeans` | boxctl/src/rules/external.rs:4-265 | the standard external chain dispatches a packet exactly if policy says so: protocol enabled, destination not bypassed and in no local network with its rule taken, ingress interface and MAC allowed |
| `FastPolicy.DestChainMeans` | boxctl/src/rules/performance.rs:35-102 | the destination chain accepts exactly bypassed destinations, loopback, and host addresses whose address-type rule the kernel took, but never DNS over UDP |
| `FastPolicy.IfChainMeans` | boxctl/src/rules/performance.rs:195-263 | the interface chain goes back exactly for allowed interfaces and MACs |
| `FastPolicy.FastBodyMeans` | boxctl/src/rules.rs:614-659 | the fast external chain dispatches exactly new flows its two chains let through and flows already carrying the connection mark |
| `FastPolicy.FirstPacketsCompared` | boxctl/src/rules.rs:567-659 | on every first packet the fast and the standard chain agree unless it reaches the bodies, its interface is allowed, and the destination is treated differently; that is: DNS over UDP to a bypassed destination, or any other packet to an unbypassed one that is either in a local network whose rule was taken or known to the fast chain as loopback or host-local, not both |
| `FastPolicy.DnsToBypassedDiffers` | boxctl/src/rules/performance.rs:60-73 | DNS over UDP to 10.0.0.1 with 10.0.0.0/8 bypassed goes to the proxy by the fast chain only |
| `FastPolicy.LoopbackDiffers` | boxctl/src/rules/performance.rs:60-73 | a TCP SYN to port 80 of 127.0.0.1 goes to the proxy by the standard chain only |
| `FastPolicy.FastAgreesWithStandard` | boxctl/src/rules.rs:567-659 | so they agree on every first packet that is not DNS over UDP and not for loopback, a host address or a local network, for every interface, MAC and subnet list |
| `FastPolicy.FlowConsistent` | boxctl/src/rules/performance.rs:374-465 | over every run of one external flow through PREROUTING, the divert chain in front where there is one, each packet of the original direction gets the verdict of the first or is marked for its socket and accepted, and no reply is dispatched; the connection mark is the invariant |
| `FastPolicy.EntryMeans` | boxctl/src/rules/routing.rs:4-32 | a packet of an existing transparent socket is marked and accepted by the divert chain, any other gets the verdict of the fast external chain |
| `FastLocal.FastLocalMeans` | boxctl/src/rules.rs:661-727 | the fast local chain's verdict on every packet: replies, forced apps, the destination and app chains, DNS, and the marks of the connection, in this order |
| `FastLocal.FirstLocalMeans` | boxctl/src/rules.rs:661-727 | a first packet leaves the fast local chain marked exactly if it is enabled and forced, or neither left alone by destination or app nor DNS meant for others |
| `FastLocal.FirstLocalsCompared` | boxctl/src/rules.rs:588-727 | the fast and the standard local chain mark a first packet differently if and only if it is an enabled packet of the original direction and: DNS left to others with a fake address or of a forced app; or neither of these and DNS for the proxy that the side chains leave alone; or other DNS over UDP, to a bypassed destination from an app the fast chain selects, or to any other from a system ID only the standard chain selects; or any other packet to an unbypassed destination, from such a system ID outside the local networks, or else from a selected app to a destination only one of the chains knows as the host's own |
| `FastLocal.FastLocalAgrees` | boxctl/src/rules.rs:588-727 | so they agree on every first packet that is not DNS nor for the host's own or local networks and whose app both select alike |
| `FastLocal.BlacklistedDnsDiffers` | boxctl/src/rules.rs:588-727 | DNS over UDP of a blacklisted app: marked by the standard chain, left alone by the fast one |
| `FastLocal.LocalFlowExactly` | boxctl/src/rules/performance.rs:374-465 | over every run of one flow of the host the mark on each packet, from the first packet and the packet itself |
| `FastLocal.LocalFlowWavers` | boxctl/src/rules/performance.rs:374-465 | a later packet of such a flow is treated otherwise than the first if and only if the flow is DNS to be marked whose first packet was left alone by destination or app |
| `FastLocal.BlacklistedFlowWavers` | boxctl/src/rules/performance.rs:374-465 | the DNS flow over UDP of a blacklisted UID: its first query leaves the chain unmarked, the next one, established, leaves it marked |
| `LocalPolicy.LocalProxyMeans` | boxctl/src/rules/local_proxy.rs:121-253 | an enabled packet is marked or redirected exactly if core mode, or blacklist and unlisted, or whitelist and both lists empty, or UID listed, or UID 0 or 1052, or GID listed |
| `LocalPolicy.OwnerAndProgramAgree` | boxctl/src/rules/local_proxy.rs:305-344 | the owner-match rules and the eBPF rules decide alike |
| `LocalPolicy.LocalLimits` | boxctl/src/rules/local_proxy.rs:281-302 | TCP is never marked in enhance mode, and nothing but TCP is redirected |
| `LocalPolicy.PerfAppMeans` | boxctl/src/rules/performance.rs:265-372 | the fast app chain accepts, unproxied, exactly the packets it does not select |
| `LocalPolicy.SelectionsCompared` | boxctl/src/rules/performance.rs:339-348 | fast and standard selection differ if and only if a whitelist has GIDs but no UIDs, and UID 0 or 1052 sends without a listed GID |
| `LocalPolicy.RootForgotten` | boxctl/src/rules/performance.rs:339-348 | root under a whitelist of one GID: selected by the standard rules only |
| `LocalPolicy.MangleDnsMeans` | boxctl/src/rules/dns.rs:193-294 | in the local chain a DNS packet returns or goes on marked as the DNS mode, protocol switches and network mode say, and others pass untouched |
| `LocalPolicy.CnipForceMeans` | boxctl/src/rules/local_proxy.rs:4-119 | selected apps are marked even towards CN destinations, in both matcher modes |
| `LocalPolicy.LocalChainMeans` | boxctl/src/rules.rs:588-612 | the whole standard local chain leaves a packet marked exactly if policy says so, local networks counting as far as their rules were taken, and otherwise as it was |
| `LocalPolicy.RedirectLocalMeans` | boxctl/src/rules.rs:552-565 | the local chain of redirect mode redirects exactly by policy |
| `TunPolicy.MarksCombine` | boxctl/src/rules/tun.rs:359-376 | the route mark survives a later bypass mark and replaces an earlier one; both read as the bypass mark |
| `TunPolicy.MarkBits` | boxctl/src/rules.rs:34-41 | bypass sets bit 25 alone, route sets both bits |
| `TunPolicy.PairKept` | boxctl/src/rules/tun.rs:8-376 | no sequence of TUN rules ever leaves bit 24 set without bit 25 |
| `TunPolicy.TunPreMeans` | boxctl/src/rules/tun.rs:8-179 | an unmarked forwarded packet leaves the TUN chain with exactly the mark of the policy |
| `TunPolicy.TunOutMeans` | boxctl/src/rules/tun.rs:101-344 | the same for the host's own packets |
| `TunPolicy.WhitelistedMacRouted` | boxctl/src/rules/tun.rs:28-60 | a whitelisted MAC keeps its route mark although the next rule marks its interface to bypass |
| `InstalledPolicy.StandardTproxyPolicy` | boxctl/src/rules.rs:567-612 | from the commands of a setup, with any owner matches and local-IP rules refused, to packets: what the installed standard chains dispatch and mark is the policy |
| `InstalledPolicy.FastInstalled` | boxctl/src/rules.rs:614-659 | after a setup the fast chains hold what the fast theorems ask for |
| `InstalledPolicy.FastFlowsConsistent` | boxctl/src/rules.rs:614-659 | flow consistency for the chains a setup installed, the divert chain included |
| `InstalledPolicy.DivertInstalled` | boxctl/src/rules/routing.rs:4-32 | after a setup that makes it, the divert chain marks and accepts |
| `InstalledPolicy.FastLocalPolicy` | boxctl/src/rules.rs:661-727 | from commands to packets for the fast local chain: a first packet is marked exactly if it is not the core's own and the fast policy says so |
| `InstalledPolicy.RedirectPolicy` | boxctl/src/rules.rs:541-565 | from commands to packets for redirect, mixed and enhance, with any owner matches and local-IP rules refused: redirected exactly by policy |
| `InstalledPolicy.TunInstalledPolicy` | boxctl/src/rules.rs:505-531 | from commands to packets for TUN: the marks of the policy, with the core's own packets unmarked |
| `SetupOutcome.StandardOutcome` | boxctl/src/rules.rs:567-612 | on the tables a successful session leaves: the standard chains dispatch and mark by policy; a network whose local-IP rule was refused and passed over is proxied |
| `SetupOutcome.FlowOutcome` | boxctl/src/rules.rs:614-659 | on those tables: flows through the fast chains are treated alike throughout |
| `SetupOutcome.RedirectOutcome` | boxctl/src/rules.rs:541-565 | on those tables, enhance mode's repeated DNS rules included: redirected exactly by policy, networks without their local-IP rule too |
| `SetupOutcome.TunOutcome` | boxctl/src/rules.rs:505-531 | on those tables: the marks of the TUN policy |
| `DnsPolicy.DnsContentMeans` | boxctl/src/rules/dns.rs:61-191 | the rules of a DNS chain send a packet to the DNS port exactly if it is a query of an enabled protocol, not from a blocked interface or the core where these are excepted, and let all others go as they came |
| `DnsPolicy.DnsModeMade` | boxctl/src/rules/dns.rs:61-112 | in every mode with DNS in nat, enhance mode with its two setups included, the chains hold those rules |
| `Hooks.HookRun` | boxctl/src/rules/exec.rs:35-111 | what a script does to a chain it shares with others, followed rule by rule, is what the kernel ends up with |
| `Hooks.HooksHeld` | boxctl/src/rules.rs:268-434 | the same for every mode behind a session without a reported failure, on tables without jumps of the compiler |
| `Arrival.NatArrival` | boxctl/src/rules.rs:268-390 | a packet arriving at PREROUTING or OUTPUT of nat in redirect, mixed, tproxy and enhance mode: fake-address pings answered, TCP redirected by policy, queries sent to the DNS port and the host's networks accepted exactly as written down in `Intent`; any other packet meets, as it came, the rules that were there |
| `Arrival.MangleArrival` | boxctl/src/rules.rs:567-612 | the same at mangle for the standard chains of tproxy and enhance mode: handed to the proxy, or marked with bit 24 and passed on |
| `Arrival.FlowArrival` | boxctl/src/rules.rs:614-659 | a flow arriving at the fast chains: its first packet goes to the proxy exactly as intended, each later packet of its direction with it or to its own socket, and what the jumps let go meets the rules that were there |
| `Arrival.OwnFlowArrival` | boxctl/src/rules.rs:661-723 | the first packet of a flow of the host leaves the fast chain with bit 24 added exactly as intended |
| `Arrival.TunArrival` | boxctl/src/rules.rs:505-531 | an unmarked packet at mangle in TUN mode meets the rules that were there with the mark intended |
| `Arrival.RejectArrival` | boxctl/src/rules/routing.rs:205-295 | at OUTPUT of filter a packet the rules of others let go is rejected exactly if it is QUIC to be blocked or a connection of the core to its own port on the loopback address, as far as the kernel took the rules |
| `Arrival.ForwardArrival` | boxctl/src/rules/routing.rs:361-400 | at FORWARD of filter, in mixed and TUN mode, packets from and to the TUN device are accepted and all others meet the rules that were there |
| `Arrival.EmptyNat` | boxctl/src/rules.rs:268-390 | a concrete start: from empty tables and with nothing refused, every configuration does to every packet at nat what is intended and nothing else |
| `Arrival.TunDelivery` | boxctl/src/rules/routing.rs:338-353 | chains and routes together: behind a TUN setup a packet reaches the device exactly if it is meant to be routed there and neither main nor a rule below preference 98 has its route |
| `Arrival.ProxyDelivery` | boxctl/src/rules/routing.rs:327-330 | a packet of the host that mangle marked is delivered to this host through lo, unless a rule below preference 100 has its route |
| `RuleBuilders.RuleWriter.SetupPerfDestChain` | boxctl/src/rules/performance.rs:35-102 | the loops issue the destination chain's script to the manager, in source order, up to the first failure: bypass pairs, attempted address-type pair, loopback pair unless listed |
| `RuleBuilders.RuleWriter.SetupPerfPreIfChain` | boxctl/src/rules/performance.rs:195-263 | the nested loops issue the interface chain's script, interface by interface and MAC by MAC |
| `RuleBuilders.RuleWriter.AppendCommonBypassRules` | boxctl/src/rules.rs:788-806 | rebuilds the local-IP chain once in each table, with its restore and its tolerated appends, then issues the bypass rules |
| `RuleBuilders.RuleWriter.ApplyExternalApRules` | boxctl/src/rules/external.rs:30-160 | the nested loops issue the hotspot rules, in three shapes by proxy mode of the MACs |
| `RuleBuilders.RuleWriter.AppendDnsNatRules` | boxctl/src/rules/dns.rs:114-191 | issues the DNS rules of nat, interface returns only for inbound IPv4 |
| `RuleBuilders.RuleWriter.AppendTunProxyModeRules` | boxctl/src/rules/tun.rs:181-265 | issues the TUN proxy-mode rules; the flag ends up saying whether anything was listed |
| `RuleBuilders.RuleWriter.SetupTproxyPolicyRouting` | boxctl/src/rules/routing.rs:327-330 | policy routing as a session sees it: two look-ups, each with the addition of what was not found, every one behind a flush, the additions required |
| `RuleBuilders.RuleWriter.ApplyTunRouteRules` | boxctl/src/rules/routing.rs:338-353 | the same for the two TUN rules, and a third required command for the route |
| `RuleBuilders.RuleWriter.ApplyFamily` | boxctl/src/rules.rs:268-434 | for every mode, configuration and list the manager has gone through the mode's script, or through its beginning up to the first required operation that failed, commands of `ip` included and local-IP appends not; enhance mode goes no further where its redirect half fails |
| `Apply.ApplySession` | boxctl/src/rules.rs:193-434 | a family's whole session, buffered where restore is supported, setup, undoing and last flush, whatever fails: a success with the whole setup has installed the mode, local-IP rules as far as the kernel took them; a success without it has given up TPROXY over IPv6 and, where that was all, left the tables as they were; however it went, the mode's cleanup restores the tables |
| `Apply.FailureUndoneExactly` | boxctl/src/rules.rs:268-434 | where the undoing covers the mode, a failed setup leaves the tables as they were if and only if what it had recorded, behind the flushes of local-IP rebuilds and policy routing, was recoverable |
| `Apply.EmptyConcludes` | boxctl/src/rules.rs:193-434 | on tables with nothing but their built-in chains and a kernel that refuses nothing, every family of every configuration has such a session that succeeds with the whole setup |
| `Apply.SkippedRestores` | boxctl/src/rules.rs:323-335 | IPv6 TPROXY that fails in an apply that goes on leaves nothing behind |
| `Apply.ConcludedElsewhere` | boxctl/src/rules.rs:193-216 | a family's session leaves the other family's tables alone |
| `Apply.ApplyDualStack` | boxctl/src/rules.rs:193-216 | both families: the tables are those of an apply of the lifecycle; a success has installed IPv4, and IPv6 where it is on unless TPROXY was given up there, each with the local-IP rules the kernel took |
| `SessionTeardown.StepHeld` | boxctl/src/rules/batch.rs:84-116 | every operation on a manager in any state, its flushes and a local-IP restore past the record included, keeps tables and record within what the teardown answers for |
| `SessionTeardown.AftermathInside` | boxctl/src/rules.rs:193-216 | so does every session, whatever is skipped or refused and wherever a flush stops |
| `SessionTeardown.SessionIsAttempt` | boxctl/src/rules.rs:193-216 | the session semantics is an unbuffered run in which some repeated ensures are skipped |
| `SessionTeardown.TeardownUndoes` | boxctl/src/rules/exec.rs:30-33 | any session of operations whose rules the teardown names, with any operation skipped or refused and any flush stopping half way, is undone exactly, with no refused chain deletion |
| `TeardownModes.ModeTeardownUndoes` | boxctl/src/rules.rs:193-539 | for redirect, tproxy, mixed, enhance and tun, every configuration and capability set: any session, buffered or not, of operations of the setup and its undoing, local-IP rebuilds and the flushes of policy routing among them, cut short and failing anywhere, then the mode's cleanup restores nat, mangle and filter exactly, and no chain deletion meets a reference |
| `TeardownModes.StopAllUndoes` | boxctl/src/rules/cleanup.rs:76-91 | so does the cleanup for an unknown mode |
| `TeardownModes.AcceptedSessionUndone` | boxctl/src/rules.rs:193-216 | in particular it undoes the accepted session of every mode, enhance with its dropped ensures included |
| `Rollback.RollbackRestoresExactly` | boxctl/src/rules.rs:193-216 | a cleanup within the open session leaves the tables as they were if and only if the record can be flushed or its flush stops at the first command it has for some table |
| `Rollback.ModeRollbackExactly` | boxctl/src/rules.rs:268-434 | the same for every mode's cleanup behind any of its setups; a cleanup outside the session then restores the tables in every case |
| `Rollback.RefusedRuleComesBack` | boxctl/src/rules.rs:193-216 | a chain and a refused rule for it: the session's last flush brings the chain back behind the cleanup |
| `TeardownModes.StopsAreClean` | boxctl/src/rules/cleanup.rs:58-91 | each teardown deletes a chain only behind every jump that can lead to it |
| `ContextDrift.RejectRestoredExactly` | boxctl/src/rules/routing.rs:205-268 | a loopback REJECT set up for one identity and cleaned up for another is gone if and only if the cleanup's identity matches the installed form, or that form is user 0 with group 3005 |
| `ContextDrift.RootRejectStays` | boxctl/src/rules/routing.rs:205-268 | set up for user and group 0, cleaned up for user and group 1000: the rule is still there |
| `LocalIpChain.RebuildOutside` | boxctl/src/rules/local_ip.rs:175-198 | outside a session: whether restore is unsupported, fails or works, the chain ends up with the accepted rules in order and nothing of before, and the networks served are counted alike; without the table the rebuild fails and changes nothing |
| `LocalIpChain.RebuildInside` | boxctl/src/rules/local_ip.rs:175-198 | within a session of the family the rebuild never fails and counts every network as served, whatever the kernel will say of the rules |
| `PolicyRouting.PolicyRouter.EnsureIpRule` | boxctl/src/rules/exec.rs:260-274 | the rule is added unless one reads the same |
| `PolicyRouting.PolicyRouter.SetupTproxyPolicyRouting` | boxctl/src/rules/routing.rs:327-330 | rule and local default route, stopping at the first failure; a success on rules and tables that leave preference 100 and table 2024 free leaves exactly the local default through lo in that table |
| `PolicyRouting.PolicyRouter.ApplyTunRouteRules` | boxctl/src/rules/routing.rs:338-353 | both rules and the route, stopping at the first failure; a success leaves one default in table 2025, through the device, and its other routes as they were |
| `PolicyRouting.PolicyRouter.CleanupTproxyPolicyRouting` | boxctl/src/rules/routing.rs:332-336 | rule, route and the rest of table 2024, each silently |
| `PolicyRouting.PolicyRouter.CleanupTunRouteRules` | boxctl/src/rules/routing.rs:355-359 | both rules and table 2025, each silently |
| `PolicyRouting.ApplyTunRoutes` | boxctl/src/rules/routing.rs:338-353 | a setup that succeeds, on rules that leave preferences 98 and 99 and table 2025 free, leaves the state the two lookups below start from |
| `PolicyRouting.TproxyDelivers` | boxctl/src/rules/routing.rs:327-330 | a setup that succeeds there: a packet is answered by table 2024, whose one route is the local default through lo, exactly if bit 24 of its mark is set and no rule below preference 100 has its route |
| `PolicyRouting.TunDelivers` | boxctl/src/rules/routing.rs:338-353 | a packet is answered by table 2025, whose one route is the default through the device, exactly if bits 24 and 25 are set, no rule below preference 98 has its route and neither has main |
| `PolicyRouting.BypassFindsMain` | boxctl/src/rules/routing.rs:338-353 | a packet with bit 25 that main has a route for is answered by main, unless a rule below preference 98 is first |
| `PolicyRouting.TunReplaces` | boxctl/src/rules/routing.rs:338-353 | over whatever table 2025 held, a success leaves one default in it and the routes to networks |
| `PolicyRouting.TproxyRoutesUndone` | boxctl/src/rules/routing.rs:327-336 | setup, wherever it fails, followed by cleanup restores the rules and table 2024 |
| `PolicyRouting.TunRoutesUndone` | boxctl/src/rules/routing.rs:338-359 | the same for the two TUN rules and table 2025 |
| `PolicyRouting.RouteMarkReadsBypass` | boxctl/src/rules.rs:34-41 | the mask of the rule at preference 98 matches route-marked packets as well |
| `PolicyRouting.RouteTableExactly` | boxctl/src/rules/routing.rs:338-353 | table 2025 is consulted exactly for route-marked packets that nothing earlier settles and for which main has no route |
| `PolicyRouting.BypassNeverRouted` | boxctl/src/rules/routing.rs:338-353 | a packet without bit 24 never consults table 2025 |
| `Foreign.PlainStep` | boxctl/src/rules/exec.rs:89-120 | an operation on shared chains does the same with the compiler's chains present as without them |
| `Foreign.PlainHeld` | boxctl/src/rules/batch.rs:84-116 | and so it does in a session, on a manager in any state |
| `Lifecycle.RunAnswered` | boxctl/src/rules/cleanup.rs:10-91 | in every run of apply, clear and renew whose failed applies find no snapshot or one covering their mode, each apply two sessions with any operations of setup and undoing and any failures at operations and flushes, whatever chains and jumps are installed are covered by what clear would select |
| `Lifecycle.ClearLeavesNone` | boxctl/src/rules.rs:144-173 | so a clear leaves no chain or jump of the compiler, and neither family's cleanup meets a refused chain deletion |
| `Lifecycle.FailedApplyEscapes` | boxctl/src/rules.rs:100-142 | a failed apply of a mode the saved snapshot does not cover leaves a chain that clear does not remove: a concrete run |
| `Lifecycle.FailuresClearedExactly` | boxctl/src/rules/cleanup.rs:10-56 | over a snapshot of mode a, every failed apply of mode b, whatever its sessions came to, is cleared if and only if the cleanup of a covers b |
| `AnchorCollector.TopLevelAnchorCollector.OnEvent` | boxctl/src/core_config/mihomo.rs:133-189 | each event moves the collector's fields as the reference automaton moves, and the depth never goes below zero |
| `AnchorCollector.TopLevelAnchorCollector.ReferencedTemplateKeys` | boxctl/src/core_config/mihomo.rs:93-99 | the keys recorded for anchors that were referred to |
| `AnchorCollector.CollectorMeans` | boxctl/src/core_config/mihomo.rs:51-190 | on the event stream of any document the collector returns exactly the keys whose own value carries an anchor some alias under the root refers to, up to the first key that is not a scalar |
| `AnchorCollector.ScalarKeysExactly` | boxctl/src/core_config/mihomo.rs:51-190 | where all keys of the root are scalars, exactly those keys of the whole root |
| `ManagedBlock.RemoveLegacyManagedTunBlock` | boxctl/src/core_config/mihomo.rs:464-482 | the loop ends; the result has exactly the lines that stay when going through the text line by line, it holds no block, and a text that holds none is returned as it is |
| `ManagedBlock.RestartingIsOnePass` | boxctl/src/core_config/mihomo.rs:464-482 | searching anew after each block equals one pass over the text |
| `ManagedBlock.WholeLinesOnly` | boxctl/src/core_config/mihomo.rs:464-482 | only whole lines are removed, and the others keep their order |
| `ManagedBlock.RemovalDone` | boxctl/src/core_config/mihomo.rs:466-469 | the result has no begin marker followed by an end marker, and the text is unchanged if and only if it had none |
| `ManagedBlock.LinesLeft` | boxctl/src/core_config/mihomo.rs:464-482 | every line that goes lies between the line of a begin marker and that of the first end marker behind it, both included, and all others are kept in order |
| `ManagedBlock.NoMarkerMade` | boxctl/src/core_config/mihomo.rs:464-482 | every marker in the result lies within a line that was a line of the text: joining the remains makes none |
| `CivilDate.CivilFromDays` | boxctl/src/logger/time.rs:33-45 | the 64-bit arithmetic does not overflow for any day count short of the last 719468, and gives the date of the mathematical definition |
| `CivilDate.FromUnixTime` | boxctl/src/logger/time.rs:22-31 | for every 64-bit count of seconds, a valid date and time of day that count back to the same seconds |
| `CivilDate.CivilIsInverse` | boxctl/src/logger/time.rs:33-45 | every day number gives a valid proleptic Gregorian date whose day number it is |
| `CivilDate.CivilOfDayNumber` | boxctl/src/logger/time.rs:33-45 | every valid date is the one its day number gives |
| `CivilDate.CivilSuccessor` | boxctl/src/logger/time.rs:33-45 | day 0 is 1970-01-01 and the next day number gives the next date of the calendar |
| `CivilDate.CivilOrdered` | boxctl/src/logger/time.rs:33-45 | later day numbers give later dates |
| `VendorFirewall.FilterChain.RejectRuleLines` | boxctl/src/rules/vendor_firewall.rs:96-118 | the numbers of the REJECT rules, each once, highest first |
| `VendorFirewall.FilterChain.RemoveRejectRules` | boxctl/src/rules/vendor_firewall.rs:77-94 | whichever deletions fail, only REJECT rules are lost and the others keep their order; if none fails exactly the others are left; the counters say how many |
| `VendorFirewall.OthersKept` | boxctl/src/rules/vendor_firewall.rs:77-94 | losing any REJECT lines leaves the other rules all there and in order |
| `VendorFirewall.AllGone` | boxctl/src/rules/vendor_firewall.rs:77-94 | losing all REJECT lines leaves exactly the others |

## Left out

- Processes, signals, sockets, sysctl writes, SELinux policy and the monitor lock: effects outside the tables, routes, files and maps modelled here.
- Command lines and their quoting: a rule is a record of its matches and its target, so the two spellings of one deletion are the same rule.
- Reading the settings, the database and the running core's identity: they are parameters, with lists already normalised and MACs validated.
- Text of addresses: parsing them is a parameter of the file readers; `Cidr` starts from the bits, and treats the sorted, deduplicated list as a set.
- The kernel's verifier: which programs it accepts is an arbitrary predicate. Packets are linear, and every packet has a sending UID and GID for the owner matches.
- The syntax of `iptables -nvL` and `-S` listings: the lines of REJECT rules and the presence of the compiler's rules are given.
- JSON and YAML parsing and printing, and the field-by-field overrides of the core configurations: library calls and map updates; the collector gets the event stream of a document tree.
- The order in which the collector returns keys and how often: it walks a hash map, so membership is what is stated.
- Log texts, translations, retry of the address-type warning, and counters that are only logged.
- What the commands of `ip` within a setup do to rules and routes: `PolicyRouting` has it; inside `RuleBuilders` they flush the session, and behind a flush that worked they may fail at will.
- The stop functions are modelled as the scripts they issue (`RuleScripts`), without a class: every command in them is silent, so there is no control flow to prove beyond the order.
- Batching.RuleManager.RunSession: an operation meets one set of refused rules from its start to its end; between operations of a session the set may change (`SessionTeardown.TeardownUndoes`). Restores may fail at will.
- FastPolicy.FlowConsistent: conntrack carries the mark of the connection from packet to packet, and whether a packet belongs to a socket is a field of it; the rules of others are taken to leave bit 24 of that mark alone.
- Arrival.NatArrival: starts from tables without jumps of the compiler; the rules that were there may lead to chains of others, as these are behind the setup. What happens when jumps are there already is in the session and lifecycle theorems.
- CidrFiles.FileVerdict: a line is a network, a bare address or a comment, with nothing else on it, and both programs are taken to parse addresses alike.
- Apply.ApplySession: enhance mode over IPv6 may succeed without its TPROXY half, whose chains then stay as far as they were made; the cleanup takes them away.
- SetupCondition.ReportedExactly: is about the operations of the script; a family without TPROXY support, whose script is empty, and a failing command of `ip` end a setup apart from it.
- Lifecycle.RunAnswered: the DNS mode of the snapshot is one of three and the IPv6 mode is on or off, as far as the rules depend on them.
- TeardownModes.ModeTeardownUndoes: the cleanup runs with the identity of the setup; `ContextDrift.RejectRestoredExactly` says what happens otherwise. Policy routes are separate statements in `PolicyRouting`.
- BpfMaps.KernelMap.UpdateElem: whether storing a key again in a full map reports a failure is left open, as it differs between map kinds.
- PolicyRouting.PolicyRouter.IpRuleExists: a rule is recognised by preference, mark and table, not by the text of the listing, where the name of a table may be the beginning of another.
- CivilDate.CivilFromDays: defined where the source's own addition does not overflow, which includes every day count that comes from a 64-bit number of seconds.
- Control of core processes, health checks, rollback between versions, and the atomic writing of files.
