# LabDNS: a verified model

LabDNS is an in-memory DNS server: a lock-free snapshot store, a change pipeline with optimistic
concurrency, a zone resolver with wildcards and CNAME chains, a shared answer cache, and a
fault-injection ("chaos") engine with budgets. This project models those parts in Dafny and proves
what they promise, for every input, every run and every interleaving. `dafny verify dfyconfig.toml`
checks all of it.

## How it is organised

| part | files |
|---|---|
| byte-wise string order, sorted listings | `Text.dfy` |
| documents and operations, and what they mean; export as diff and patch | `Patch.dfy`, `Board.dfy`, `Export.dfy` |
| the snapshot store, one step per atomic load, store, compare-and-swap or lock operation, with Apply and Reset on top | `Store.dfy`, `StoreOrder.dfy`, `StoreInhibit.dfy`, `StoreLone.dfy`, `StoreSpaced.dfy`, `StoreOverlap.dfy`, `StoreOvertake.dfy`, `StoreUpdates.dfy`, `StoreCommit.dfy` |
| names as label sequences, the string tests on them, longest-suffix selection | `Names.dfy` |
| zone compilation, CNAME loop detection | `Zones.dfy`, `ZoneIndex.dfy` |
| one lookup against section 4.3.2 of RFC 1034 and RFC 4592; the resolver loop; what is answered, and where answers and loops come from | `Lookup.dfy`, `Resolver.dfy`, `Answers.dfy`, `Provenance.dfy`, `Loops.dfy`, `LoopInputs.dfy` |
| recency list as a linked structure; TTLs; the cache; the idempotency table | `Recency.dfy`, `Ttl.dfy`, `Cache.dfy`, `CacheHits.dfy`, `AnswerCache.dfy`, `Idempotency.dfy` |
| the query path, what is forwarded, who may share cached answers, and whole runs of the server | `Query.dfy`, `Forwarding.dfy`, `Handler.dfy`, `Again.dfy`, `Serving.dfy` |
| delay reservations, the policy index, drop probabilities, the overload reply | `Budget.dfy`, `ChaosIndex.dfy`, `Drops.dfy`, `Overflow.dfy` |

Code that changes state is a class or a method with loops, proved against a function of the old
state; the theorems are about those functions and the runs built from them. The store is a
transition system, because its claims are about interleavings of threads.

## Four places where the code does less than one would expect

- ANY below an empty wildcard. If `*.lab.` exists only as an empty non-terminal (because
  `a.*.lab.` owns records), RFC 4592 makes it a source of synthesis, so a query for a name it
  covers is NODATA. The resolver does so for every type but ANY, for which it answers NXDOMAIN.
  `Lookup.LookupStep` states the exact condition on the compiled lookup, `Lookup.BlindAtEmptyWildcard`
  an input.
- Enable overlapping disable. `StampEmergency` does not read the bits again after its own
  compare-and-swap, so a stamp that read the old bit can undo an enable or a disable that finished in
  between. Without enables the snapshot is right whenever nothing is in flight, however Swaps, stamps,
  disables, Applies and Resets overlap (`StoreSpaced.NoEnableIsReconciled`), and also if no call
  overlaps an enable (`StoreSpaced.LoneEnablesReconciled`). `StoreSpaced.SpacedIsReconciled` has the
  wider rule for callers, and no part of the rule can go: `StoreOverlap.OverlapLosesEnable`,
  `StoreOverlap.CrossingLosesEnable`, `StoreOverlap.OverlapLosesDisable` and
  `StoreOvertake.OvertakingLosesDisable` are runs that break it at one start and end wrong. Inside the
  store the exact condition is whether the store that changes the bit leaves a lone stale stamp: one
  thread about to publish the old bit over the active snapshot, and no other such thread and no Swap
  before its publication (`StoreInhibit.InhibitReconciled`, `StoreLone.CalmExactly`).
- CNAME loops through wildcards. The loop check follows records and not synthesis: a zone with the one
  record `*.lab. CNAME x.lab.` passes validation and compiles, and every name it covers is answered
  SERVFAIL (`LoopInputs.WildcardLoops`). `Loops.LoopingExactly` is the condition on the zone,
  `Loops.ServfailExactly` the one on a question, and `Loops.LoopIsSynthetic` says that only zones with
  wildcard CNAMEs are concerned. The check has a second gap, which validation closes by refusing two
  zones with a CNAME at one owner: its map has one target per owner, so a later zone would hide
  another zone's loop (`LoopInputs.OverriddenLoopCompiles`).
- Empty scope keys. A chaos scope that lists the empty string in its most specific dimension is
  matched by the scan but never looked up by the index. Configuration validation rejects such
  scopes in the dimensions that name IDs, so the server misses nothing (`ChaosIndex.Survivors`), but
  compilation itself does not. `ChaosIndex.IndexIsComplete` states exactly when a policy is missed,
  `ChaosIndex.EmptyKeyIsMissed` an input.

## Model

| member | source | states |
|---|---|---|
| `StoreOrder.NoPointerTwice` | internal/snapshot/store.go:39-59 | in every interleaving of Swap, StampEmergency, Apply and Reset, each publication has a strictly larger generation than all before it, no pointer is active twice, and active is the last publication |
| `StoreOrder.PreviousIsPredecessor` | internal/snapshot/store.go:162-175 | whenever no operation is in flight, previous is exactly the immediate predecessor of active in the publication history, unset when there is none |
| `StoreOrder.SoundStep` | internal/snapshot/store.go:96-131 | every step keeps every pointer a thread or the store holds allocated, so every schedule can go on |
| `StoreOrder.OrderedStep` | internal/snapshot/store.go:39-59 | every atomic step keeps the generation order, the active pointer, and the claim of some thread on the predecessor |
| `StoreInhibit.StartupLockHolds` | internal/snapshot/store.go:71-91 | with the startup lock armed before the first install, every snapshot ever published carries the inhibit bit, across Reset and emergency-enable |
| `StoreInhibit.InhibitReconciled` | internal/snapshot/store.go:54-131 | at rest, active.EmergencyChaosOff is exactly emergency or startup or YAML, in every run in which no enable or disable changes the bit so as to leave a lone stale stamp, whatever else overlaps |
| `StoreInhibit.InhibitStep` | internal/snapshot/store.go:96-131 | every such step keeps: whenever the active snapshot differs from the bits some thread will still stamp it with them, and no stale stamp is alone |
| `StoreLone.LoneLoses` | internal/snapshot/store.go:96-115 | from every world of every run with a lone stale stamp and only stamps and returns in flight, some schedule of these rests with the active snapshot wrong |
| `StoreLone.CalmExactly` | internal/snapshot/store.go:96-115 | the store of an enable or disable leaves no lone stale stamp if and only if no way of finishing the Swaps and stamps in flight ends wrong |
| `StoreLone.AloneIsCalm` | internal/snapshot/store.go:96-115 | such a store leaves none while no other stamp is in flight |
| `StoreSpaced.NoEnableIsReconciled` | internal/snapshot/store.go:54-131 | in every run of concurrent Swaps, stamps, disables, Applies and Resets, active.EmergencyChaosOff at rest is exactly emergency or startup or YAML |
| `StoreSpaced.LoneEnablesReconciled` | internal/snapshot/store.go:54-131 | the same with enables, in every run in which no other call overlaps one |
| `StoreSpaced.SpacedIsReconciled` | internal/snapshot/store.go:54-131 | the same, and every change of the bit is calm, when no disable starts during an enable, no enable before a disable has set the bit, and, with the bit set, an enable starts beside nothing but calls that clear it and nothing else before it has cleared it |
| `StoreSpaced.SpacingStep` | internal/snapshot/store.go:96-131 | every such step keeps: with the bit clear and no Reset before its Swap, whatever is about to be published fits startup and YAML, and an enable will still stamp an active snapshot that does not |
| `StoreOverlap.OverlapLosesEnable` | internal/snapshot/store.go:96-115 | a run with one enable that starts during a disable, which rests with all bits clear and the active snapshot wrong |
| `StoreOverlap.CrossingLosesEnable` | internal/snapshot/store.go:96-115 | the same where the disable has yet to set the bit |
| `StoreOverlap.OverlapLosesDisable` | internal/snapshot/store.go:96-115 | a run with one disable that starts during an enable, which rests with the emergency bit set and the active snapshot not inhibited |
| `StoreOvertake.OvertakingLosesDisable` | internal/snapshot/store.go:39-59 | a run in which no enable and disable overlap, but a Swap starts before an enable has cleared the bit, which rests with the emergency bit set and the active snapshot not inhibited |
| `StoreUpdates.NoLostUpdates` | internal/app/mutate.go:83-133 | at every Apply commit the displaced snapshot has the document and revision of the base the candidate was built from and of expectedRevision; its successor is the fold of the operations over that document; stamps change neither |
| `StoreUpdates.UpdatesStep` | internal/app/mutate.go:221-261 | every step, stamps outside App.mu included, keeps the chain of documents |
| `StoreCommit.ApplyCommits` | internal/app/mutate.go:83-133 | from every world, an Apply run alone that names the active revision and whose operations give a document that compiles publishes that document in its own name over the old one, with its revision, a larger generation and the right inhibit bit, and frees the lock |
| `StoreCommit.ApplyRefuses` | internal/app/mutate.go:322-335 | every other Apply changes nothing at all and frees the lock |
| `StoreCommit.ResetCommits` | internal/app/reset.go:20-86 | a Reset run alone with a bootstrap document that loads clears the bit and publishes that document |
| `StoreCommit.ResetRefuses` | internal/app/reset.go:88-127 | with one that does not load it changes nothing |
| `StoreCommit.SwapCommits` | internal/snapshot/store.go:39-59 | a Swap run alone publishes what it was given, once |
| `StoreCommit.BitTakesEffect` | internal/snapshot/store.go:61-131 | a disable or enable run alone stores the bit, and the active snapshot has it with its document unchanged |
| `Patch.FindIndex` | internal/app/operations.go:133-145 | the search loops of the apply functions find the first object with an ID |
| `Patch.EditList` | internal/app/operations.go:252-302 | add, update and remove on a keyed list, with the already-exists, not-found, ID-mismatch and missing-value errors |
| `Patch.EditUpstream` | internal/app/operations.go:364-442 | upstreams are unique over all pools; add needs an existing pool, update and remove find theirs |
| `Patch.EditActivation` | internal/app/operations.go:548-574 | update only, of an existing policy, and only its activation changes |
| `Patch.Document.ApplyOne` | internal/app/operations.go:14-115 | one operation of any target kind changes its target as specified, or fails and changes nothing |
| `Patch.Document.ApplyOperations` | internal/app/mutate.go:355-379 | a change set folds its operations in order and stops at the first error |
| `Board.EditMeans` | internal/app/operations.go:133-183 | an edit of a keyed list adds, replaces or removes one entry of a map; adding a present ID is AlreadyExists, changing an absent one NotFound, another ID in the value invalid; unique IDs stay unique |
| `Board.OperationMeans` | internal/app/operations.go:14-115 | on a document with unique IDs every operation, error for error, edits one entry of one map, with upstreams flat over all pools, and leaves all else; IDs stay unique if and only if the value itself has unique IDs and shares no upstream with another pool |
| `Board.ChangeSetMeans` | internal/app/mutate.go:355-379 | so does a whole change set, up to its first error |
| `Board.WrongEditFails` | internal/app/operations.go:133-183 | adding what is there and changing what is not fails, whatever the value |
| `Board.OthersStay` | internal/app/operations.go:133-183 | an edit leaves the other objects in place, and an addition goes to the end |
| `Export.BootstrapToRuntime` | internal/app/export.go:68-126 | the export loops emit the singleton, zone, record, policy, pool and chaos operations of the specification in order |
| `Export.SingleOpsOf` | internal/app/export.go:128-137 | one update per singleton that differs |
| `Export.KeyedOpsOf` | internal/app/export.go:139-177 | adds, updates and removes by sorted ID over the union of both maps |
| `Export.RecordOpsOf` | internal/app/export.go:179-220 | the same per record of a zone |
| `Export.ZoneOpsOf` | internal/app/export.go:92-120 | whole-zone operations when metadata differs or the zone appears or goes, record operations otherwise |
| `Export.KeyedRoundTrip` | internal/app/export.go:139-177 | replaying the edits between two keyed lists never fails and yields the second list's map |
| `Export.ZonesRoundTrip` | internal/app/export.go:92-120 | replaying the zone operations never fails and yields every zone of the runtime, records included |
| `Export.SinglesRoundTrip` | internal/app/export.go:128-137 | replaying the singleton operations yields the runtime's singletons |
| `Export.RoundTrip` | internal/app/export.go:68-126 | for all well-formed documents the exported operations replay without error on boot, and reach runtime up to list order if and only if metadata and the chaos switches agree |
| `Export.SameContentIsPermutation` | internal/app/export.go:68-126 | equal up to list order means permutations of each other, zone records included |
| `Export.ExportIsEmpty` | internal/app/export.go:68-126 | nothing is exported if and only if the documents differ in nothing that an operation can touch |
| `Text.SortedIDs` | internal/app/export.go:228-242 | key sets are visited in the one sorted order |
| `Names.InZoneTextIsInZone` | internal/snapshot/zone_index.go:194-207 | on well-formed names the suffix test on strings is the label-suffix relation |
| `Names.ParentIsTail` | internal/snapshot/zone_index.go:209-223 | ParentName drops the leftmost label, and the root has no parent |
| `Names.InZoneIsReachedByParents` | internal/snapshot/zone_index.go:194-223 | a zone contains a name if and only if iterating ParentName from the name reaches the zone |
| `Names.PresentedInjective` | internal/snapshot/zone_index.go:194-223 | the canonical text form determines the name |
| `Names.MatchesFormChain` | internal/snapshot/zone_index.go:56-73 | all zones that contain a name lie on one ancestor chain |
| `Names.Select` | internal/snapshot/forwarding_index.go:58-75 | in any iteration order, selects a match of greatest rank, least ID among equals, and fails only when nothing matches |
| `Names.SelectedIsDeepest` | internal/snapshot/zone_index.go:56-81 | with distinct suffixes the selected ID is the one zone that every matching zone contains, whatever the map order |
| `Names.DeepestExists` | internal/snapshot/zone_index.go:56-73 | a name in some zone has a deepest zone |
| `Zones.MarkExist` | internal/resolver/compile.go:190-203 | marks the name and all its ancestors up to the apex, and nothing else |
| `Zones.AddRRset` | internal/resolver/compile.go:160-188 | refuses exactly a duplicate RRset or a CNAME beside other data, and otherwise holds one RRset more |
| `Zones.TypeIsDerived` | internal/resolver/compile.go:107-113 | only a record with neither type nor generic RDATA lacks a type, and letter case does not matter |
| `Zones.GenericStandsApart` | internal/resolver/compile.go:107-113 | generic RDATA without a type is no CNAME, whatever its code, and clashes at an owner exactly with its own code |
| `Zones.CompileRecord` | internal/resolver/compile.go:99-158 | type and data of the configured record, the checks on them, both ways, and the alias map entry |
| `Zones.AddNameservers` | internal/resolver/compile.go:70-85 | zone-level nameservers become one apex NS RRset |
| `Zones.CompileZone` | internal/resolver/compile.go:56-97 | succeeds if and only if every record is acceptable and none clash, and then the existence set and both maps hold exactly the configured RRsets |
| `Zones.FaultyIsRefused` | internal/resolver/compile.go:99-158 | a record is refused on its own exactly for the faults of its configuration |
| `Zones.CompilesExactly` | internal/resolver/compile.go:56-97 | a zone without nameservers of its own compiles if and only if no configured record is faulty and no two exclude each other |
| `ZoneIndex.WalkAliases` | internal/resolver/compile.go:205-222 | one walk terminates, reports only real cycles, and reports one if the start is on one |
| `ZoneIndex.DetectLoops` | internal/resolver/compile.go:205-222 | terminates and reports a loop if and only if the alias map has a cycle |
| `ZoneIndex.Compile` | internal/resolver/compile.go:21-54 | succeeds if and only if IDs and names are distinct, every zone compiles and no alias cycle exists; every zone is then represented under its ID and nothing else is |
| `Lookup.Encloser` | internal/snapshot/zone_index.go:137-156 | the longest existing proper ancestor: it exists, and every existing proper ancestor of the name is an ancestor of it |
| `Lookup.ClosestEncloser` | internal/snapshot/zone_index.go:137-156 | climbing the compiled existence set finds the closest encloser over the raw records |
| `Lookup.AllSets` | internal/snapshot/zone_index.go:118-132 | every RRset at an owner, sorted by type |
| `Lookup.ExactOwner` | internal/resolver/resolve.go:113-160 | data at an existing name: zone SOA, RRset, alias or NODATA, as declared over the raw records |
| `Lookup.WildcardOwner` | internal/resolver/resolve.go:162-226 | synthesis from the wildcard at the closest encloser, as declared over the raw records |
| `Lookup.LookupStep` | internal/resolver/resolve.go:64-111 | for every zone that compiles and every name in it, the compiled lookup is the lookup over the raw records, and is the one of RFC 1034 and RFC 4592 without referrals if and only if the query is not ANY below a wildcard that is an empty non-terminal |
| `Lookup.BlindAtEmptyWildcard` | internal/resolver/resolve.go:178-190 | a zone and a name where the RFCs give NODATA and the code NXDOMAIN |
| `Resolver.TakeTurn` | internal/resolver/resolve.go:113-252 | one turn on the compiled zone is one turn over the raw records |
| `Resolver.ResolveInZone` | internal/resolver/resolve.go:64-111 | the loop terminates and computes the walk over the raw records |
| `Resolver.Resolve` | internal/resolver/resolve.go:39-62 | no zone and a name outside the zone fall through, an unknown zone is an error, else the zone answers |
| `Resolver.ResultIsChain` | internal/resolver/resolve.go:64-111 | for every zone that compiles, the answers are a chain from QNAME over distinct names, each CNAME's target the owner of the next answer, at most maxDepth CNAMEs, ending with the RCODE, authority and fallthrough its last name deserves; SERVFAIL only for a loop or a chain that is too long |
| `Resolver.WalkIsResolution` | internal/resolver/resolve.go:228-252 | the same from any state of the loop |
| `Resolver.OverlayIsTransparent` | internal/resolver/resolve.go:254-298 | an overlay zone never yields AA, NXDOMAIN or an authority section |
| `Resolver.AuthoritativeIsFinal` | internal/resolver/resolve.go:254-298 | an authoritative zone never falls through and sets AA on everything but SERVFAIL |
| `Resolver.ModeDecides` | internal/resolver/resolve.go:254-406 | both, for every answer of a zone |
| `Answers.DataIsAnswered` | internal/resolver/resolve.go:147-150 | every RRset of a zone that compiles is answered at its owner and type: all its records, with its TTL, NOERROR, no fallthrough, AA for authoritative zones |
| `Answers.WildcardDataIsAnswered` | internal/resolver/resolve.go:162-226 | and at every name its wildcard covers, reported as synthesized with source and closest encloser |
| `Answers.ConfiguredIsAnswered` | internal/resolver/compile.go:129-149 | a configured record is answered with its own values or generic presentation, in order, with its TTL |
| `Answers.NameserversAreAnswered` | internal/resolver/compile.go:70-85 | the nameservers of a zone are its NS answer, in order, with the default TTL |
| `Answers.ExistingIsNodata` | internal/resolver/resolve.go:254-275 | a name that exists without the type or a CNAME is NODATA with the SOA, and passed on by an overlay zone |
| `Answers.CoveredIsNodata` | internal/resolver/resolve.go:162-226 | so is a name covered by a wildcard that exists without them |
| `Answers.AbsentIsNxdomain` | internal/resolver/resolve.go:277-298 | a name that neither exists nor is covered is NXDOMAIN with the SOA |
| `Answers.NxdomainIsAbsent` | internal/resolver/resolve.go:277-298 | and only such a name is, but for ANY below an empty wildcard |
| `Answers.SoaIsAnswered` | internal/resolver/resolve.go:428-443 | SOA at the apex gives the zone's own SOA |
| `Answers.SoaSays` | internal/resolver/resolve.go:445-475 | with its configured names and times, its serial or the generation, and the lesser of MINIMUM and the negative TTL |
| `Answers.AnyHasAll` | internal/resolver/resolve.go:126-138 | ANY gives every record at the name, and the SOA at the apex |
| `Answers.AnyHasAllSynthesized` | internal/resolver/resolve.go:176-190 | and every record of the wildcard at a name it covers |
| `Answers.CnameHandsOver` | internal/resolver/resolve.go:228-252 | unless the chain is too long, a CNAME is answered and then exactly what its target is answered with, RCODE, authority and fallthrough included |
| `Answers.AnswersHaveType` | internal/resolver/resolve.go:113-226 | every record answered is a CNAME or of the type asked for, unless that is ANY |
| `Provenance.AnswerIsFromZone` | internal/resolver/resolve.go:477-504 | every record of a local answer carries type, TTL and data of an RRset of the zone, and its name owns that RRset or does not exist and is covered by the wildcard that owns it |
| `Provenance.AnswerIgnoresGeneration` | internal/resolver/resolve.go:445-475 | snapshots with equal content give equal answers, up to SOA serials when the zone's serial is automatic |
| `Loops.LoopingExactly` | internal/resolver/resolve.go:64-111 | a zone that compiles has a question of the type that runs into a CNAME loop if and only if the lookups of its own CNAME targets have a cycle, a finite check before any query |
| `Loops.PlainLoopingExactly` | internal/resolver/compile.go:205-222 | without wildcard CNAMEs, if and only if the CNAME records followed for that type have one |
| `Loops.ServfailExactly` | internal/resolver/resolve.go:83-90 | a question is answered SERVFAIL if and only if more CNAMEs than the limit lie ahead of it, a loop counting without end |
| `Loops.LoopIsIndirect` | internal/resolver/compile.go:205-222 | in an index that compiles, a loop has a name whose CNAME is synthesized or overridden by a later zone |
| `Loops.LoopIsSynthetic` | internal/config/validate.go:280-299 | if moreover no two zones have a CNAME at one owner, it has a synthesized name, and its zone a wildcard CNAME |
| `Loops.ServfailIsIndirect` | internal/resolver/resolve.go:83-90 | a SERVFAIL of a zone of an index that compiles means a chain that is too long or a loop with such a name |
| `LoopInputs.WildcardLoops` | internal/resolver/compile.go:205-222 | a zone that validates and compiles in which every name below the wildcard is answered SERVFAIL |
| `LoopInputs.OverriddenLoopCompiles` | internal/resolver/compile.go:139-144 | an index that compiles, but does not validate, in which two names of one zone are aliases of each other |
| `Recency.Lru.Unlink` | internal/cache/cache.go:406-419 | relinks the neighbours, head and tail so that the list is the old one without the node |
| `Recency.Lru.PushFront` | internal/cache/cache.go:381-391 | the list is the node followed by the old list |
| `Recency.Lru.MoveFront` | internal/cache/cache.go:393-399 | the slot moves to the front, map and list still hold the same entries |
| `Recency.Lru.Remove` | internal/cache/cache.go:401-404 | the slot leaves map and list |
| `Recency.Lru.Evict` | internal/cache/cache.go:237-243 | drops exactly the least recently used slots beyond the bound |
| `Recency.MapsSize` | internal/cache/cache.go:237-243 | the map's size is the list's length |
| `Ttl.NegativeResult` | internal/cache/cache.go:290-308 | negative means NXDOMAIN, or only CNAMEs with an SOA in authority, for types other than CNAME and ANY |
| `Ttl.EntryTTL` | internal/cache/cache.go:333-379 | preset times, else the least TTL, SOA MINIMUM counted for negative entries when the SOA splits into seven fields, and 0 for a negative entry without SOA |
| `Ttl.Clamp` | internal/cache/cache.go:310-331 | never negative, within MaximumTTL or MaximumNegativeTTL, raised only to MinimumTTL and never for negative entries |
| `Ttl.NegativeLifetime` | internal/cache/cache.go:333-379 | a negative entry without preset times lives only with an SOA, and at most its TTL and MINIMUM (section 5 of RFC 2308) |
| `Ttl.DecaySection` | internal/cache/cache.go:432-460 | each TTL is reduced by the elapsed time, floored at 0, capped by the remaining lifetime; nothing else changes |
| `Ttl.ServedIsAged` | internal/cache/cache.go:421-460 | served records are the stored ones, each TTL the stored one less the time since it was stored, ended by the expiry, and 0 once expired |
| `Cache.StepKeeps` | internal/cache/cache.go:135-244 | every operation keeps keys distinct and the occupancy within the current policy, and moves at most the key it used |
| `Cache.RunIsGood` | internal/cache/cache.go:514-535 | so after every run, zero entries when disabled |
| `Cache.RunIsByRecency` | internal/cache/cache.go:381-419 | after every run the list is ordered by last use |
| `Cache.EvictionIsLRU` | internal/cache/cache.go:204-244 | a storing Put keeps its own entry, and drops only keys last used before every key it keeps |
| `Cache.OlderPutIsIgnored` | internal/cache/cache.go:204-219 | a Put from a snapshot older than the observed generation changes nothing |
| `Cache.GenerationGrows` | internal/cache/cache.go:514-535 | the observed generation only grows along a run, and the policy changes only with it |
| `Cache.SlotsWereWritten` | internal/cache/cache.go:204-244 | every entry is what the latest storing Put on its key stored |
| `Cache.HitIsAgedPut` | internal/cache/cache.go:135-244 | in every run a hit at t serves the answer of the latest storing Put at t0 with each TTL counted down: t + TTL is at most t0 + stored TTL and t0 + clamped lifetime, and reaches one of them; the lifetime respects MaximumTTL, MaximumNegativeTTL and the SOA bounds |
| `CacheHits.LiveEntryHits` | internal/cache/cache.go:194-202 | an entry that has not expired is served, counted and moved to the front |
| `CacheHits.ExpiredEntryMisses` | internal/cache/cache.go:170-193 | one that has is dropped and missed, or served as stale where wanted |
| `CacheHits.OptionsKeepOut` | internal/cache/cache.go:135-169 | bypass touches nothing; a forced miss and treated-as-expired count a miss and leave the entry |
| `CacheHits.ClampExactly` | internal/cache/cache.go:310-331 | the lifetime is the natural one, raised to the minimum and cut to the maximum; time left stays time left |
| `CacheHits.NaturalIsLeast` | internal/cache/cache.go:333-379 | the natural lifetime is the least TTL considered |
| `CacheHits.SoaCounts` | internal/cache/cache.go:352-372 | an SOA counts in a negative entry with the lesser of TTL and MINIMUM |
| `CacheHits.NegativeExactly` | internal/cache/cache.go:290-308 | denials with an SOA are negative, answers with data are not |
| `CacheHits.PositivePutStores` | internal/cache/cache.go:204-244 | a positive answer with time left is stored by every Put that is not skipped or outdated, into a cache that is on |
| `CacheHits.UnwantedPutIsIgnored` | internal/cache/cache.go:204-217 | a skipped Put, or one into a cache that is off, changes nothing |
| `CacheHits.NewerPolicyRules` | internal/cache/cache.go:514-535 | a newer policy takes effect and keeps the most recent entries it has room for |
| `CacheHits.WrittenIsHit` | internal/cache/cache.go:135-202 | in every run a Get of what is still there is a hit until it expires, aged from the latest storing Put |
| `CacheHits.Survives` | internal/cache/cache.go:224-244 | in every run a stored key stays while fewer other keys are used than every policy since has room for |
| `CacheHits.StoredIsServed` | internal/cache/cache.go:135-244 | so every normal Get before the expiry is a hit that serves that Put, aged |
| `AnswerCache.Shared.Get` | internal/cache/cache.go:135-201 | the pointer-linked cache does what the state machine's lookup does, counters included |
| `AnswerCache.Shared.Put` | internal/cache/cache.go:204-244 | and its store |
| `AnswerCache.Shared.ObservePolicy` | internal/cache/cache.go:514-535 | and its policy change |
| `AnswerCache.Shared.Flush` | internal/cache/cache.go:247-256 | and its flush |
| `Idempotency.Table.Lookup` | internal/app/idempotency.go:42-57 | unknown, conflict on another fingerprint, or the memo, which moves to the front |
| `Idempotency.Table.Store` | internal/app/idempotency.go:59-85 | storePlan and storeApply amend the memo of the same request or replace the key's memo |
| `Idempotency.Table.Put` | internal/app/idempotency.go:59-85 | amending in place and inserting at the front leave the same list |
| `Idempotency.Table.InsertFront` | internal/app/idempotency.go:109-126 | the old memo of the key goes, the new one is first, the oldest beyond max go |
| `Idempotency.Table.Evict` | internal/app/idempotency.go:87-96 | the key goes and nothing else changes |
| `Idempotency.Table.Clear` | internal/app/idempotency.go:98-107 | everything goes |
| `Idempotency.StoreThenAsk` | internal/app/idempotency.go:42-126 | after a store the same request gets what was stored, another fingerprint a conflict, other memos are unaltered, and the table stays keyed and within max |
| `Idempotency.StoreLosesTail` | internal/app/idempotency.go:109-126 | only the least recently used key can be lost, and none while there is room |
| `Query.LocalPutIsLocal` | internal/dnsquery/handler.go:409-439 | every Put on a local key, of the handler or of management, stores what a forwarding client's uncached path answers locally |
| `Query.PlansAgree` | internal/dnsquery/handler.go:293-368 | what a forwarding client keeps local under one snapshot, every client keeps local under any snapshot with that content, with the same answer |
| `Query.CacheIsTransparent` | internal/dnsquery/handler.go:370-439 | in every run of queries, puts, evictions and flushes, a hit on a local key has RCODE, AA, answers and authority of the uncached path for this client, up to TTLs and automatic serials |
| `Query.NoLocalEntryForForwarded` | internal/dnsquery/handler.go:472-490 | in no run is there a local entry for a question the uncached path forwards |
| `Forwarding.PlanFollowsChain` | internal/dnsquery/handler.go:318-368 | for a name in a zone: a final answer is the zone's; otherwise the name at which the zone's CNAME chain ends is sent, under the policy selected for that name, if the client may forward and there is one; otherwise the chain is answered or the question refused |
| `Forwarding.PlanOutsideZones` | internal/dnsquery/handler.go:318-368 | a name in no zone is sent as it is or refused |
| `Forwarding.PolicyIsDeepest` | internal/dnsquery/classify.go:20-36 | the policy is the one with the deepest suffix, and there is one whenever a suffix covers the name |
| `Forwarding.KeysTellApart` | internal/dnsquery/handler.go:370-439 | local entries are shared by revision, name, type and class, upstream entries also by CD and policy, and the two never meet |
| `Forwarding.ForwardedReply` | internal/dnsquery/handler.go:346-368 | the reply is the zone's chain followed by the upstream's answers, and the rest is the upstream's |
| `Handler.HandleIsIssued` | internal/dnsquery/handler.go:293-439 | every query adds only cache operations of the kind those theorems assume |
| `Handler.ManagedIsIssued` | internal/app/query.go:182-211 | and so does every management resolve, which never forwards |
| `Handler.LocalClientsStayLocal` | internal/dnsquery/classify.go:20-36 | in every run a client without AllowForward is never sent upstream, its reply does not depend on any upstream reply, and every answer, authority and additional record it gets is data of the selected zone under a name that data answers for |
| `Handler.StepsExtendRun` | internal/dnsquery/handler.go:370-439 | a handler's operations after a run make a longer run |
| `Handler.CompiledIsDistinct` | internal/resolver/compile.go:36-43 | the duplicate checks give the distinct names that selection needs |
| `Handler.SelectName` | internal/dnsquery/classify.go:20-36 | selection over the compiled texts is selection over label sequences |
| `Handler.LastCNAMETarget` | internal/dnsquery/handler.go:519-527 | the target of the last CNAME among the answers |
| `Handler.MakePlan` | internal/dnsquery/handler.go:293-348 | the uncached path up to the exchange: final, cut, refused, or forwarded with name and policy |
| `Handler.Responder.LookupCache` | internal/dnsquery/handler.go:370-407 | the local key first, the upstream key only with a policy, and only cacheable hits |
| `Handler.Responder.StoreCache` | internal/dnsquery/handler.go:409-439 | what is stored, and under which key |
| `Handler.Responder.Answer` | internal/dnsquery/handler.go:293-368 | the reply, the exchange, the denied counter and the cache after one query |
| `Handler.Responder.Serve` | internal/dnsquery/handler.go:89-131 | the same with the policy observed first, the denied counter, and RA set exactly for clients with a selected policy |
| `Handler.Responder.ManagementResolve` | internal/app/query.go:182-211 | the reply and the cache after one management resolve |
| `Serving.UpstreamHitIsForwarded` | internal/dnsquery/handler.go:370-407 | in every run a hit on an upstream key serves, aged, what the latest storing Put on that key stored, and that Put stored the answer of an exchange with the name and policy the uncached path uses for this question |
| `Serving.EveryReplyIsFaithful` | internal/dnsquery/handler.go:293-368 | after every run of issued cache operations, the reply to any client is the uncached path's: the same local answer up to TTLs and automatic serials, REFUSED as such, an exchange now, or one that an operation of the run stored |
| `Serving.HistoryIsIssued` | internal/dnsquery/handler.go:89-131 | queries, management resolves, policy changes and flushes make only such runs |
| `Serving.OpHasEvent` | internal/dnsquery/handler.go:409-439 | every cache operation of a run of events was made by one of them |
| `Serving.PutWasForwarded` | internal/dnsquery/handler.go:344-367 | a Put on an upstream key is made by a query that was sent upstream, for its reply |
| `Serving.EveryQueryIsFaithful` | internal/dnsquery/handler.go:89-131 | in every run of the server from an empty cache every reply is faithful; one from an upstream entry is the aged reply of an earlier query of that run, for the same question and content, that was sent to the same name under the same policy, within its cache lifetime |
| `Again.CacheableExactly` | internal/cache/cache.go:24-34 | zone answers may be cached unless SERVFAIL, upstream answers with NOERROR or NXDOMAIN, refusals never |
| `Again.AnswerIsKept` | internal/dnsquery/handler.go:409-439 | a query that misses leaves its answer in front of the cache under the plan's key, if it may be kept |
| `Again.KeptIsServed` | internal/dnsquery/handler.go:370-407 | the same question by such a client before it expires is answered with it, aged, and nothing is sent |
| `Budget.Budgets.ReserveDelay` | internal/chaos/budget.go:41-59 | refuses exactly at a cap, else counts one token and its policy |
| `Budget.Token.ReservePolicy` | internal/chaos/budget.go:63-80 | a policy already on the token is free; a new one is refused at its cap or counted |
| `Budget.Token.Release` | internal/chaos/budget.go:83-102 | the first call takes the token off the global and policy counts, later calls do nothing |
| `Budget.Budgets.WatchCancel` | internal/chaos/budget.go:131-140 | a registration under a new ID |
| `Budget.Budgets.Unregister` | internal/chaos/budget.go:141-154 | removes that registration and keeps every other |
| `Budget.Budgets.CancelAll` | internal/chaos/budget.go:159-175 | every registration is called once and none stays |
| `Budget.Session.Sleep` | internal/chaos/effects/delay.go:92-137 | clamp to the session's and the policy's remaining delay, reserve, charge; skip for good when a cap is reached |
| `Budget.Session.Release` | internal/chaos/effects/delay.go:199-212 | gives the token back once |
| `Budget.StepConserves` | internal/chaos/budget.go:41-102 | every step of every session keeps the counters equal to the live tokens |
| `Budget.ReservationsConserved` | internal/chaos/effects/delay.go:92-137 | in every interleaving global is the number of unreleased tokens and perPolicy[id] of those that carry id, whatever configuration each session carries |
| `Budget.CapsHold` | internal/chaos/budget.go:41-81 | the counters stay within every cap that no session's configuration exceeds |
| `Budget.DelaysHold` | internal/chaos/effects/delay.go:92-137 | no session exceeds Safety.MaxDelay or a policy's MaxDelay of its own configuration |
| `Budget.AllReleasedIsZero` | internal/chaos/effects/delay.go:199-212 | once every session has released, all counters are zero and the map is empty |
| `Budget.DelaysAddUp` | internal/chaos/effects/delay.go:131-137 | a session's delay is the sum of what its policies were granted |
| `Budget.GrantIsExact` | internal/chaos/effects/delay.go:92-137 | a delay is granted whole or up to a cap, and not at all only where a cap is used up, a reservation failed or the session is over |
| `Budget.ReservedExactly` | internal/chaos/budget.go:41-81 | a reservation succeeds if and only if no cap is in the way |
| `ChaosIndex.Compile` | internal/chaos/compile.go:16-87 | accepts exactly non-empty distinct IDs, resolved references and few enough high-impact policies; the index then lists exactly the scoped and referenced policies |
| `ChaosIndex.IndexPolicy` | internal/chaos/compile.go:89-130 | a policy is listed under its most specific dimension, and under wildcard sources too when that is records |
| `ChaosIndex.Candidates` | internal/snapshot/chaos_index.go:76-118 | exactly the policies listed under some key of the query, each once |
| `ChaosIndex.IndexIsComplete` | internal/chaos/gates.go:11-41 | a policy the scan selects is reached if and only if the query is not blind to it or one of its records refers to it |
| `ChaosIndex.Survivors` | internal/chaos/engine.go:180-210 | candidates that pass scopeMatches are the scan's selection, each once, minus the blind ones, and exactly the scan's selection if the scopes passed validation |
| `ChaosIndex.ValidatedIsSeen` | internal/config/validate.go:582-606 | no query with a name is blind to a scope that passed validation |
| `ChaosIndex.NonEmptyKeysSuffice` | internal/chaos/compile.go:132-155 | without empty strings in scopes nothing is blind |
| `ChaosIndex.EmptyKeyIsMissed` | internal/snapshot/chaos_index.go:76-118 | a policy and a query where the index misses what the scan selects |
| `ChaosIndex.ScopeMatchesExactly` | internal/chaos/gates.go:11-41 | a scope matches if and only if every list it gives has what the query has there, types without regard to case |
| `ChaosIndex.HighCountIs` | internal/chaos/compile.go:16-87 | enabled policies of high impact are counted once each |
| `Drops.DropPhaseCount` | internal/chaos/drop_allocation.go:58-81 | the number of decision phases in which some positive-weight outcome can drop |
| `Drops.Measure` | internal/chaos/drop_allocation.go:19-27 | the requested union bound and the number of active phases |
| `Drops.CapSingle` | internal/chaos/drop_allocation.go:31-40 | one active phase is capped |
| `Drops.ScaleAll` | internal/chaos/drop_allocation.go:41-55 | the scaling loop with its remainder |
| `Drops.Allocate` | internal/chaos/drop_allocation.go:15-56 | for every validated list, cap in (0,1) and rounding, the sum of threshold times phases ends within the cap, no threshold is raised, and a list within the cap is unchanged |
| `Drops.ScaledAddsUp` | internal/chaos/drop_allocation.go:41-55 | thresholds granted and remainder always add up to the cap |
| `Drops.NothingCut` | internal/chaos/drop_allocation.go:41-55 | when the scaled thresholds fit the cap together, each policy gets its scaled threshold in full |
| `Drops.BoundScales` | internal/chaos/drop_allocation.go:41-55 | multiplying every threshold by one factor multiplies the bound by it |
| `Drops.ExactScaleUsesCap` | internal/chaos/drop_allocation.go:41-55 | with the exact factor cap/total every dropping policy ends with its threshold times that factor, and the bound is exactly the cap |
| `Drops.DropsWhere` | internal/chaos/gates.go:102-139 | in which window each dropping action acts, with and without a phase |
| `Drops.OneActiveUsesCap` | internal/chaos/drop_allocation.go:31-40 | one active phase gets the cap if it asks for more |
| `Overflow.OverflowQuestionEnd` | internal/dnsserver/overflow.go:89-128 | accepts a datagram, with its end, if and only if it begins with a QR=0, QDCOUNT=1 header, an uncompressed name of at most 255 octets and four more octets |
| `Overflow.BuildOverflowServfail` | internal/dnsserver/overflow.go:141-153 | ID and question kept, QR set, opcode, RD and CD preserved, AA, TC, RA and AD clear, RCODE 2, no records |
| `Overflow.ReplyIsFinal` | internal/dnsserver/overflow.go:130-153 | the reply is not longer than the query and is itself rejected by overflowQuestionEnd |
| `Overflow.Limiter.Allow` | internal/dnsserver/overflow.go:58-82 | the token bucket step; a clock that steps back mints nothing |
| `Overflow.Limiter.Respond` | internal/dnsserver/overflow.go:159-168 | a malformed datagram gets no reply and spends no token; a well-formed one spends as the bucket allows and is answered exactly then |
| `Overflow.RateIsBounded` | internal/dnsserver/overflow.go:58-82 | however the clock moves, replies let through stay within burst plus rate times the furthest clock reading |
| `Overflow.BurstIsServed` | internal/dnsserver/overflow.go:58-82 | a full bucket lets its burst through at once |
| `Overflow.WaitIsServed` | internal/dnsserver/overflow.go:58-82 | and another reply once time for one token has passed |
| `Overflow.QueryIsRecognised` | internal/dnsserver/overflow.go:89-128 | a query put together from header, labels, type and class is recognised |

## Left out

- Sockets, timers, the wire codec, upstream dialing and retries: the upstream reply and the clock are parameters.
- YAML and JSON decoding, canonical bytes and hashing: documents are values, and equal revisions are assumed to mean equal content.
- REST, MCP, web UI, CLI, metrics, audit, logging, authentication and scopes: no invariant of the kind proved here.
- Chaos effects on responses, pressure and synthetic upstream failures: they change answers on purpose, so the query path is modelled with chaos off.
- Client classification by address prefix: a client is reduced to whether it may forward.
- canonicalOwner's trimming, lower-casing and relative names: owners, targets and query names are canonical label sequences; the text forms appear in `Names.dfy` only.
- Record classes and EDE: records are class IN with presentation data.
- Zones.CompileRecord: a CNAME given as generic RDATA counts only when its presentation is a canonical host name, because the loop check and the resolver read other texts differently.
- Delegation: the source treats NS records below the apex as ordinary data, and so does the declared lookup.
- sortRRsets' swap loop: `AllSets` visits the types in sorted order instead, which gives the same list.
- The bootstrap pointer of the store, and SetStartupChaosOff during a run: the startup bit is fixed before the first install, as serve does it.
- Context cancellation in the resolver, the handler and the sessions.
- Overflow of generations and counters: they are unbounded, as are times, which are in nanoseconds.
- Floating point: drop thresholds and tokens are reals. The rounded product of threshold and scale is any function that does not raise a threshold.
- Evaluation order of chaos candidates by precedence: record references lower a policy's class without moving it, so only the candidate set is claimed.
- At-most-once Apply per idempotency key: a revision conflict evicts the key, so only the table's own behaviour is claimed.
- StoreLone.CalmExactly: says nothing of a store beside an Apply or Reset that has not reached its Swap, or beside another enable or disable that has not stored, because whether these go on to stamp depends on documents and on bits yet to be written; `InhibitReconciled` covers them.
- Handler.Responder.Answer: one call runs without interruption; the theorems about runs take cache operations in any order, so they also cover queries that interleave between lookup and store.
- Budget.Session.Sleep: covers the part under the session's mutex; the wait itself and its cancellation are not modelled, and a stopped session is a step of the machine.
