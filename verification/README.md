# NetSim protocol kernels in Dafny

NetSim is a discrete-event network simulator. This project models the protocol and algorithm kernels
in which its correctness is decided, and proves what they are for, over every input, every topology and
every run. Every kernel comes in two layers: state functions (or a step relation) about which the
theorems are proved, and, where the C code changes state in place, a class or a method on arrays whose
contract ties it to those functions.

| file | kernel | main results |
|---|---|---|
| `SpanningTree.dfy` | election of a spanning tree (the algorithm of clause 8 of IEEE 802.1D-1998): switches adopt any better (root, cost) and pass their own offer on | the inductive invariant, kept by every delivery |
| `SpanningSafety.dfy` | the same protocol | soundness in every reachable state, for every topology and every delivery order |
| `SpanningElection.dfy` | the same protocol | every exchange stops, within a bound known from the start, and ends with every switch holding the smallest id and the shortest cost |
| `SpanningPorts.dfy` | the same protocol | root ports lead to where a pair came from; once nothing is in flight they form a tree of shortest paths, and exactly the other ports are blocked |
| `SpanningSwitch.dfy` | the code of one switch, on its fields and port arrays | computes the steps of the protocol |
| `QueueNetwork.dfy` | per-link queues served by threads, packets stamped with virtual times | what each step keeps |
| `QueueSafety.dfy` | the same network | under every interleaving: each packet in exactly one place, stamps monotone along queues, capture order kept |
| `QueueTiming.dfy` | the same network, for an application instance that shares no queue | every reinject time is a function of the instance's captures alone, whatever the interleaving |
| `QueueProgress.dfy` | the same network, shared queues included | reinject times of an instance never decrease; between captures every step brings the network exactly one step closer to being empty |
| `Shortcut.dfy` | the closed-form shortcut for non-interfering applications | refines the queue network: when it is early, when it is late and by how much, per packet and, as an if-and-only-if, per path |
| `Interference.dfy` | the test that decides who takes the shortcut | exactly what the test leaves open, with a run on which the shortcut is wrong |
| `Dijkstra.dfy` | array Dijkstra with 100000 as infinity, and the path that is written out | distances are the true ones clamped at 100000; the emitted list is a real shortest path |
| `Des.dfy` | DES and triple DES on bit vectors | decryption undoes encryption for every key and block |
| `DesBits.dfy` | bits of words and byte strings | vocabulary for the next four |
| `DesStandard.dfy` | the key schedule | every bit of every subkey is the key bit that FIPS 46-3 names |
| `DesTables.dfy` | the tables of the round function | expansion and permutation bit by bit, rows of the S-boxes |
| `DesComplement.dfy` | the whole cipher | inverting key and block inverts the result |
| `DesAnswer.dfy` | the whole cipher | a known answer through sixteen rounds |
| `AodvRoutes.dfy` | AODV route table, route errors and route timers (RFC 3561) | the timer invariant in every reachable state; routes only develop in allowed ways and go away exactly at their lifetime |
| `AodvHistory.dfy` | the same tables over whole runs | every route was heard as it is held; a broken route stays broken until the next news, which replaces it |
| `AodvFlood.dfy` | AODV request flood | each device accepts a request at most once; a request is sent once plus twice per device that passes it on |
| `AodvDiscovery.dfy` | expanding ring, retries and the packets that wait for a route | every discovery ends, and then drops exactly what waited for it; no packet is lost, duplicated or overtaken |
| `AodvStation.dfy` | route table, timers, discoveries, timeouts and buffer of a device in one run | every waiting packet leaves within a time known beforehand, but for one case, which is reached |
| `EthernetPhy.dfy` | the self-scheduling Ethernet transmitter with stale wake-ups | over every event sequence it is the ideal link with an inter-frame gap, at exactly its speed |
| `Dsr.dfy` | DSR route record and route reply (RFC 4728) | records are loop-free chains; replies go back along them in at most n - 1 hops; on every topology a discovery can be completed; exactly when the code reads outside its arrays |
| `UpstreamMap.dfy` | upstream map of IEEE 802.22 | windows that stations compute independently are disjoint and where the list says; durations add up exactly when no field overflows |
| `UpstreamBurst.dfy` | grants and upstream bursts, frame after frame | exactly when sending times are apart and bursts fit the slots allocated |
| `EventList.dfy` | the time-sorted future event list, as a linked list | sorted, stable, nothing lost, never depends on the tail's next pointer |

Conventions. Each body under a mutex is one atomic step. Doubles are `real`, with the `(UINT64)`
truncations kept as `Floor`. Unsigned counters are unbounded, except where a width matters (the twelve-bit
duration, the eight-bit option length). `fixedDelayQueuing_us` is never set, so it is 0. A path of one link
gives the shortcut a rate of 1/0, which is the value `Infinite` with a transmission time of 0. Addresses and
switch ids are numbers; switch ids are their ranks in the order of `_stricmp`. Clocks, link outcomes, arrival
times and the choices of the scheduler are parameters of the events. The arrays of `dijkstra_algo` have any
size, not just 500.

Where the code departs from its comments, the model follows the code:

- The comment of `ProcessRREQ` says that a request that cannot be answered is forwarded. The forward call is nested under "route found", so a request is forwarded twice or not at all (`AodvFlood.Forwards`).
- A route that is overwritten keeps its old next hop (`AodvRoutes.InsertTakes`, and over runs `AodvHistory.RoutesWereHeard`).
- `nDuration` has twelve bits, so the durations of the map sum to the slots allocated if and only if every station has fewer than 4096 slots (`UpstreamMap.DurationsSum`, with the witness `UpstreamMap.OverflowLosesSlots`).
- The option length of a DSR request has eight bits, so it tells the length of the record if and only if that is at most 62 (`Dsr.LengthExact`). A node to which a request with 63 recorded addresses is new reads before the start of an array (`Dsr.FaultsIff`); this happens on every topology with a simple path of 65 nodes or more (`Dsr.FaultReached`) and in no network of up to 62 (`Dsr.SmallNetworksNeverFault`). The model records the fault, after which that node does nothing more with the request.
- The interference test does not compare maps of one application. It gives what the shortcut needs if and only if, besides, no other map of the same application uses a queue of this one and the path passes each queue once (`Interference.AloneIsExclusive`); two maps of one application over one link are a run on which the shortcut is early (`Interference.SameAppInterferes`).
- The shortcut does not account for packets of different sizes. It is never early, whatever is captured, if and only if the path has one link (`Shortcut.NeverEarlyIff`), and never more than m - 2 microseconds late if and only if the first link is a slowest one (`Shortcut.NeverLateIff`). On any path it is not early for a packet that no earlier packet exceeds in length, and not late for one that exceeds no earlier packet (`Shortcut.ShortcutBound`).
- A reply closes a discovery even if the packets could not be sent. They are then without a discovery if and only if a route entry that refuses the reply is at the very end of its lifetime (`AodvStation.NextAttendsIff`); this happens (`AodvStation.StrandingReached`).
- A map that does not name a station leaves its grant as it was, and the station packs with it again. So its bursts fit the slots allocated if and only if it is named or holds no grant (`UpstreamBurst.BurstFitsIff`, and `UpstreamBurst.FramesFitIff` over any sequence of frames, with the witness `UpstreamBurst.StaleGrantUsed`), and the sending times of two stations are sure to be apart if and only if both are named (`UpstreamBurst.GrantsApartIff`).

## Model

| member | source | states |
|---|---|---|
| SpanningTree.ForwardIffBetter | CC_AODV/src/Simulation/Ethernet/SpanningTree.c:338-375 | compare_bpdu says FORWARD exactly for a lexicographically smaller (root, cost) |
| SpanningTree.Offers | CC_AODV/src/Simulation/Ethernet/SpanningTree.c:433-482 | every port but the skipped one that leads to a switch gets the sender's pair plus the sender's own stpCost, nothing else is sent, and no more BPDUs than ports |
| SpanningTree.AdoptedSound | CC_AODV/src/Simulation/Ethernet/SpanningTree.c:392-399 | an adopted pair is the cost of a supported simple path extended by its adopter |
| SpanningTree.AdopterCovered | CC_AODV/src/Simulation/Ethernet/SpanningTree.c:433-482 | after an adoption every neighbour holds at least as good a pair or is sent the offer, although the arrival port is left out |
| SpanningTree.DeliverInv | CC_AODV/src/Simulation/Ethernet/SpanningTree.c:484-537 | delivering any BPDU in flight keeps the invariant: all pairs held or in flight are costs of supported simple paths, and every link is settled or has the offer in flight |
| SpanningTree.RunInv | CC_AODV/src/Simulation/Ethernet/SpanningTree.c:81-98 | the invariant holds in every state of every run from start_spt_for_lan |
| SpanningSafety.HeldIsReal | CC_AODV/src/Simulation/Ethernet/SpanningTree.c:392-399 | in every reachable state each held (root, cost) is the cost of a real simple path from that root |
| SpanningSafety.InFlightIsReal | CC_AODV/src/Simulation/Ethernet/SpanningTree.c:100-134 | each BPDU in flight carries the cost of a real simple path to its sender plus the sender's stpCost |
| SpanningSafety.NeverWorse | CC_AODV/src/Simulation/Ethernet/SpanningTree.c:338-375 | along a run no switch's pair gets worse |
| SpanningElection.Convergence | CC_AODV/src/Simulation/Ethernet/SpanningTree.c:484-537 | for every topology and delivery order: once nothing is in flight every switch holds the smallest id of its component and the minimum over all paths of the summed stpCost up to its predecessor |
| SpanningElection.ConvergenceConnected | CC_AODV/src/Simulation/Ethernet/SpanningTree.c:484-537 | in a connected network all switches then agree on the smallest id, at the shortest cost |
| SpanningElection.CostBounded | CC_AODV/src/Simulation/Ethernet/SpanningTree.c:116-134 | no cost of a supported path exceeds the sum of all stpCosts |
| SpanningElection.DeliverProgress | CC_AODV/src/Simulation/Ethernet/SpanningTree.c:523-536 | every delivery strictly lowers a natural number: ranks of the pairs weighted by the fan-out, plus BPDUs in flight |
| SpanningElection.Termination | CC_AODV/src/Simulation/Ethernet/SpanningTree.c:433-537 | a run makes at most as many deliveries as the initial state has work |
| SpanningElection.EveryExchangeElects | CC_AODV/src/Simulation/Ethernet/SpanningTree.c:433-537 | a run is bounded, any BPDU in flight extends it, and with none in flight every switch holds its best root and cost |
| SpanningPorts.RunPortLeads | CC_AODV/src/Simulation/Ethernet/SpanningTree.c:392-417 | in every state of every run the root port of a switch that is not its own root is the port on which BPDUs of some neighbour u come in, and u holds the same root at a cost lower by its stpCost, or something better |
| SpanningPorts.QuietRootPort | CC_AODV/src/Simulation/Ethernet/SpanningTree.c:392-417 | once nothing is in flight u holds the same root at exactly that cost |
| SpanningPorts.RootPortsFormTree | CC_AODV/src/Simulation/Ethernet/SpanningTree.c:484-537 | once nothing is in flight the root ports lead from every switch, without a loop, to the root it holds, over a simple path of exactly the cost it holds; stpCosts may be 0 |
| SpanningPorts.BlocksOutsideTree | CC_AODV/src/Simulation/Ethernet/SpanningTree.c:338-375 | once nothing is in flight a neighbour's current offer is answered BLOCK iff the switch is not the root and the offer does not come in on its root port, and DONT_FORWARD otherwise |
| SpanningSwitch.Lan.constructor | CC_AODV/src/Simulation/Ethernet/SpanningTree.c:81-98 | the switch starts as its own root at cost 0 with all ports forwarding |
| SpanningSwitch.Lan.MarkPort | CC_AODV/src/Simulation/Ethernet/SpanningTree.c:401-417 | the given port is the root port and all others are designated |
| SpanningSwitch.Lan.SendOffers | CC_AODV/src/Simulation/Ethernet/SpanningTree.c:433-482 | the loop over the ports sends exactly the offers of the model |
| SpanningSwitch.Lan.ProcessConfigBpdu | CC_AODV/src/Simulation/Ethernet/SpanningTree.c:484-537 | adopts, blocks or ignores as Deliver does, sends the same BPDUs, and marks the ports; which port that makes the root port and which ones it blocks is what SpanningPorts proves |
| QueueNetwork.ActStamps | CC_AODV/src/Simulation/FastEmulation/QUEUE.c:152-179 | every step keeps the stamps nondecreasing along every queue and at most the last send time plus the delay |
| QueueNetwork.ActPlaces | CC_AODV/src/Simulation/FastEmulation/QUEUE.c:152-250 | a step adds one copy of a packet it captures and otherwise changes no packet's number of copies |
| QueueNetwork.ActInOrder | CC_AODV/src/Simulation/FastEmulation/QUEUE.c:181-250 | a step keeps each instance's packets in capture order, read from the reinjected ones back to the entry queue |
| QueueSafety.RunSafe | CC_AODV/src/Simulation/FastEmulation/QUEUE.c:152-250 | in every state of every interleaving: packets sit in queues of their path, stamps are monotone, each captured packet is in exactly one place and nothing else is anywhere, order is kept |
| QueueSafety.ReinjectedInOrder | CC_AODV/src/Simulation/FastEmulation/QUEUE.c:200-250 | the packets of one instance are reinjected in capture order, none skipped |
| QueueNetwork.Emulation.AddPacketToQueue | CC_AODV/src/Simulation/FastEmulation/QUEUE.c:152-179 | the packet's current queue, and only that, gets it with the stamp |
| QueueNetwork.Emulation.Dispatch | CC_AODV/src/Simulation/FastEmulation/ApplicaionMap.c:237-259 | an interfering application's packet enters the first queue of its path |
| QueueNetwork.Emulation.GetPacket | CC_AODV/src/Simulation/FastEmulation/QUEUE.c:181-197 | an idle thread takes the head of its queue, or nothing from an empty one |
| QueueNetwork.Emulation.ServeHand | CC_AODV/src/Simulation/FastEmulation/QUEUE.c:227-247 | the packet in hand waits for its stamp, then is reinjected after its last hop or moves to the next queue |
| QueueTiming.ScheduleIndependent | CC_AODV/src/Simulation/FastEmulation/QUEUE.c:152-250 | whatever the interleaving, the i-th packet of an instance that shares no queue is reinjected with the stamp that the hop-by-hop recurrence over its captures and links gives |
| QueueProgress.StampsNeverDecrease | CC_AODV/src/Simulation/FastEmulation/QUEUE.c:152-250 | in every run, shared queues included, the packets of an instance are reinjected with stamps that do not decrease |
| QueueProgress.RunOutOk | CC_AODV/src/Simulation/FastEmulation/QUEUE.c:181-250 | in every run, whatever was reinjected from a queue was stamped no later than what that queue reinjects, holds or accepts after it |
| QueueProgress.ActWork | CC_AODV/src/Simulation/FastEmulation/QUEUE.c:152-250 | a capture brings two steps per hop of its path and every other step does exactly one of them |
| QueueProgress.DrainsSteadily | CC_AODV/src/Simulation/FastEmulation/QUEUE.c:213-248 | between captures, the steps made plus the steps left are constant, so the network drains in a number of steps known beforehand |
| QueueProgress.CanGoOn | CC_AODV/src/Simulation/FastEmulation/QUEUE.c:213-248 | while a packet is on its way some thread can take a step |
| QueueProgress.DrainedAll | CC_AODV/src/Simulation/FastEmulation/QUEUE.c:230-236 | with no steps left, every instance has had all its packets reinjected, in capture order |
| Shortcut.ChainWithin | CC_AODV/src/Simulation/FastEmulation/QUEUE.c:152-164 | if no packet is longer than len, every link sends at the latest when a single queue of the least rate so far, plus the other links once for len bytes, would |
| Shortcut.ChainBeyond | CC_AODV/src/Simulation/FastEmulation/QUEUE.c:152-164 | if no packet is shorter than len, every link sends at the earliest then |
| Shortcut.HopByHop | CC_AODV/src/Simulation/FastEmulation/QUEUE.c:152-164 | for packets of one size a chain of queues is its slowest queue, plus the other transmission times and delays once |
| Shortcut.TruncateOnce | CC_AODV/src/Simulation/FastEmulation/ApplicaionMap.c:246-252 | truncating the sum of k service times instead of each exceeds it by at most k - 1 and never falls below |
| Shortcut.NotEarly | CC_AODV/src/Simulation/FastEmulation/ApplicaionMap.c:176-252 | the closed form is not earlier than the hop-by-hop stamp for a packet that no earlier packet exceeds in length |
| Shortcut.NotLate | CC_AODV/src/Simulation/FastEmulation/ApplicaionMap.c:176-252 | it is at most m - 2 microseconds later for a packet that exceeds no earlier packet in length |
| Shortcut.NotLateBehindSlowest | CC_AODV/src/Simulation/FastEmulation/ApplicaionMap.c:176-252 | behind a slowest first link it is at most m - 2 later for packets of any sizes |
| Shortcut.ExactOnOneLink | CC_AODV/src/Simulation/FastEmulation/ApplicaionMap.c:176-252 | on one link it is exact for packets of any sizes |
| Shortcut.ShortcutBound | CC_AODV/src/Simulation/FastEmulation/ApplicaionMap.c:176-252 | all four bounds for any captures and links |
| Shortcut.NeverEarlyIff | CC_AODV/src/Simulation/FastEmulation/ApplicaionMap.c:246-252 | it is never early, whatever is captured, iff the path has one link |
| Shortcut.NeverLateIff | CC_AODV/src/Simulation/FastEmulation/ApplicaionMap.c:246-252 | it is never more than m - 2 late, whatever is captured, iff the first link is a slowest one |
| Shortcut.ShortcutRefinesNetwork | CC_AODV/src/Simulation/FastEmulation/ApplicaionMap.c:237-259 | the same bounds against the reinject times of every interleaving of the queue network, for an instance that shares no queue and packets of any sizes |
| Shortcut.BoundIsMet | CC_AODV/src/Simulation/FastEmulation/ApplicaionMap.c:246-252 | an input on which the bound of m - 2 is met |
| Shortcut.SizesMatter | CC_AODV/src/Simulation/FastEmulation/ApplicaionMap.c:246-252 | packets of two sizes for which the closed form is too early |
| Shortcut.AppMap.FindMinRate | CC_AODV/src/Simulation/FastEmulation/ApplicaionMap.c:176-191 | the first link of the least rate |
| Shortcut.AppMap.constructor | CC_AODV/src/Simulation/FastEmulation/ApplicaionMap.c:193-212 | rate of the slowest link, harmonic sum of the others, total delay |
| Shortcut.AppMap.Dispatch | CC_AODV/src/Simulation/FastEmulation/ApplicaionMap.c:246-252 | the reinject time is the closed form over all packets dispatched so far |
| Interference.TwoAppsInterfere | CC_AODV/src/Simulation/FastEmulation/ApplicaionMap.c:146-160 | true exactly if the paths share a queue |
| Interference.IsNonInterfering | CC_AODV/src/Simulation/FastEmulation/ApplicaionMap.c:162-174 | true exactly if no map of another application shares a queue |
| Interference.AloneIsExclusive | CC_AODV/src/Simulation/FastEmulation/ApplicaionMap.c:162-174 | the hypothesis of ShortcutRefinesNetwork holds iff the test does, no other map of the same application shares a queue, and the path repeats none; for any maps |
| Interference.SameAppInterferes | CC_AODV/src/Simulation/FastEmulation/ApplicaionMap.c:162-174 | a run in which two maps of one application pass the test and the closed form is earlier than the reinject time |
| Dijkstra.MinDistance | CC_AODV/src/Simulation/FastEmulation/Dijkstra.c:144-157 | an unsettled vertex of least distance |
| Dijkstra.SettleNearest | CC_AODV/src/Simulation/FastEmulation/Dijkstra.c:212-224 | one turn keeps the invariant (parents, order and relaxed edges) and settles one more vertex |
| Dijkstra.ShortestPaths | CC_AODV/src/Simulation/FastEmulation/Dijkstra.c:197-224 | every final distance is the shortest one if that is below 100000, else 100000 and no path is shorter; parents are right |
| Dijkstra.CorrectIsClamped | CC_AODV/src/Simulation/FastEmulation/Dijkstra.c:197-224 | correctness means: the minimum of 100000 and the true distance, if there is a path |
| Dijkstra.ParentPathReal | CC_AODV/src/Simulation/FastEmulation/Dijkstra.c:168-179 | the parent chain of a vertex at finite distance is a path from the source whose weights sum to the distance |
| Dijkstra.ParentPathChain | CC_AODV/src/Simulation/FastEmulation/Dijkstra.c:168-179 | it is the chain that printPath follows: each parent is the vertex before, and the source has none |
| Dijkstra.RouteList.PrintPath | CC_AODV/src/Simulation/FastEmulation/Dijkstra.c:168-179 | the recursion ends and appends the devices of the chain after its first vertex |
| Dijkstra.RouteList.PrintSolution | CC_AODV/src/Simulation/FastEmulation/Dijkstra.c:181-193 | appends the whole path, or nothing at distance 100000 |
| Dijkstra.RouteList.Route | CC_AODV/src/Simulation/FastEmulation/Dijkstra.c:197-227 | what is written out is a shortest path; nothing is written out exactly if every path is at least 100000 long |
| Des.InvIpIp | CC_AODV/src/Simulation/Application/des.c:116-170 | InvIP undoes IP |
| Des.IpInvIp | CC_AODV/src/Simulation/Application/des.c:116-170 | IP undoes InvIP |
| Des.ExpandInjective | CC_AODV/src/Simulation/Application/des.c:172-228 | the expansion of f loses no bit |
| Des.PermuteInjective | CC_AODV/src/Simulation/Application/des.c:172-228 | the P-box of f is a permutation |
| Des.RoundsUndone | CC_AODV/src/Simulation/Application/des.c:230-246 | for any round function, rounds with the keys in reverse order undo rounds |
| Des.CryptUndone | CC_AODV/src/Simulation/Application/des.c:230-246 | des_crypt with any schedule is undone by the reversed schedule |
| Des.DecryptScheduleReversed | CC_AODV/src/Simulation/Application/des.c:75-113 | the schedules for the two modes are each other's reverse |
| Des.DesRoundTrip | CC_AODV/src/Simulation/Application/des.c:75-246 | either mode undoes the other for every key and block |
| Des.TripleDesRoundTrip | CC_AODV/src/Simulation/Application/des.c:252-271 | the same for triple DES |
| Des.ScheduleKey | CC_AODV/src/Simulation/Application/des.c:75-113 | the loops fill the array with the schedule of the mode, whose bits are those that DesStandard.SubkeyBit names |
| Des.CryptBlock | CC_AODV/src/Simulation/Application/des.c:230-246 | the array code computes the cipher, also in place; DesComplement.Complementation and DesAnswer.KnownAnswer say of that cipher what a wrong round would break |
| Des.ScheduleTripleKey | CC_AODV/src/Simulation/Application/des.c:252-264 | encrypt-decrypt-encrypt, or the keys in reverse order |
| Des.TripleCryptBlock | CC_AODV/src/Simulation/Application/des.c:266-271 | three passes, the second and third in place |
| DesStandard.HalfKeyPicked | CC_AODV/src/Simulation/Application/des.c:88-92 | for any table of key bits, place i of a selected half holds the key bit that entry i names |
| DesStandard.HalfAfterTurned | CC_AODV/src/Simulation/Application/des.c:95-97 | after r rounds a half is the selected half turned left by the sum of the shifts so far, modulo 28 |
| DesStandard.SelectedBit | CC_AODV/src/Simulation/Application/des.c:108-111 | bit j of a subkey is the bit of the two halves that entry j of key_compression names |
| DesStandard.SubkeyBit | CC_AODV/src/Simulation/Application/des.c:75-113 | for every key, bit j of the subkey of round r is the key bit that PC-1, the shifts and PC-2 of FIPS 46-3 name, which is never a parity bit |
| DesTables.ExpandBit | CC_AODV/src/Simulation/Application/des.c:177-194 | bit i of byte b of the expansion is the bit of the word that table E of FIPS 46-3 names |
| DesTables.PermuteBit | CC_AODV/src/Simulation/Application/des.c:213-224 | bit i of the permuted word is the bit that table P of FIPS 46-3 names |
| DesTables.SboxBitIs | CC_AODV/src/Simulation/Application/des.c:23-23 | the outer two of six bits are the row and the inner four the column |
| DesTables.SboxRows | CC_AODV/src/Simulation/Application/des.c:25-71 | every row of every S-box is a permutation of 0, ..., 15 |
| DesComplement.SubkeyNot | CC_AODV/src/Simulation/Application/des.c:75-113 | inverting all bits of the key inverts all bits of every subkey |
| DesComplement.FNot | CC_AODV/src/Simulation/Application/des.c:172-228 | the round function gives the same with its word and its subkey inverted |
| DesComplement.Complementation | CC_AODV/src/Simulation/Application/des.c:75-246 | with all bits of the key and the block inverted the result is inverted, for every key, block and mode |
| DesAnswer.KnownAnswer | CC_AODV/src/Simulation/Application/des.c:230-246 | the key 01 01 01 01 01 01 01 01 takes 80 00 00 00 00 00 00 00 to 95 F8 A5 E5 DD 31 D9 00 |
| AodvRoutes.InsertInv | CC_AODV/src/Simulation/AODV/RouteTable.c:22-88 | inserting keeps the invariant and lets routes develop only as allowed |
| AodvRoutes.InsertTakes | CC_AODV/src/Simulation/AODV/RouteTable.c:22-88 | what an insertion leaves, field by field and without reference to how it is computed: number, hop count, flag, next hop, lifetime, timer, and when nothing changes |
| AodvRoutes.InsertedHolds | CC_AODV/src/Simulation/AODV/RouteTable.c:34-45 | afterwards there is a route with at least the number offered; an equal number that is shorter by more than one hop or comes over an invalid route leaves exactly the number and hop count offered and a valid route |
| AodvRoutes.RouteErrorInv | CC_AODV/src/Simulation/AODV/AODV_RouteError.c:113-145 | so does a route error; breaking a route never shortens its life |
| AodvRoutes.LinkBrokenInv | CC_AODV/src/Simulation/AODV/AODV_RouteError.c:34-47 | so does a broken link |
| AodvRoutes.ReplyInv | CC_AODV/src/Simulation/AODV/RREP.c:64-84 | so does a route reply whose lifetime is at most now + AODV_DELETE_PERIOD |
| AodvRoutes.ExpireInv | CC_AODV/src/Simulation/AODV/RouteTable.c:174-208 | a timer that fires removes its entry exactly if its lifetime has come, and otherwise is set again |
| AodvRoutes.ReachableInv | CC_AODV/src/Simulation/AODV/RouteTable.c:22-88 | in every reachable state: one entry per destination, flag iff number nonzero, exactly one timer per entry, due between now and its lifetime, which is at most now + AODV_DELETE_PERIOD |
| AodvRoutes.RoutesEvolve | CC_AODV/src/Simulation/AODV/RouteTable.c:36-84 | sequence numbers and lifetimes never decrease, an equal nonzero number changes the hop count only for a smaller one or over an invalid entry, and an entry goes away only when the clock is at its lifetime |
| AodvRoutes.NeverOverdue | CC_AODV/src/Simulation/AODV/RouteTable.c:174-208 | the clock never passes the lifetime of an entry in the table |
| AodvRoutes.InsertFinds | CC_AODV/src/Simulation/AODV/RREP.c:75-79 | after a reply the destination has a route iff no entry for it both refuses the reply and ends its life at this time |
| AodvRoutes.Device.InsertRoute | CC_AODV/src/Simulation/AODV/RouteTable.c:22-88 | the search, its conditions and the update compute Insert; of every table that the invariant allows, with all fields spelled out: other routes stay, a new route is exactly as offered, an existing one keeps its next hop and takes the offer iff it is newer or better |
| AodvRoutes.Device.UpdateRoutes | CC_AODV/src/Simulation/AODV/RouteTable.c:148-170 | every route to or through ip has at least the lifetime given afterwards, none more than it needs, and all others are unchanged |
| AodvRoutes.Device.ActiveRouteTimeout | CC_AODV/src/Simulation/AODV/RouteTable.c:174-208 | the scan computes Expire |
| AodvRoutes.Device.GenerateRouteError | CC_AODV/src/Simulation/AODV/AODV_RouteError.c:20-47 | every route through the unreachable neighbour has the invalid flag and lives until now + AODV_DELETE_PERIOD, every other is unchanged; the destinations and sequence numbers of the former are listed in table order |
| AodvRoutes.Device.ProcessRouteError | CC_AODV/src/Simulation/AODV/AODV_RouteError.c:113-145 | every listed route through the sender has the invalid flag and lives until now + AODV_DELETE_PERIOD, every other is unchanged; the error is passed on iff there is one of the former |
| AodvRoutes.Device.FindNextHop | CC_AODV/src/Simulation/AODV/RouteTable.c:117-129 | the next hop of the first entry for the destination |
| AodvRoutes.Device.CheckRouteFound | CC_AODV/src/Simulation/AODV/AODV_CheckRouteFound.c:21-34 | true iff some entry for ip has its lifetime ahead |
| AodvRoutes.Device.UseRouteIfFound | CC_AODV/src/Simulation/AODV/GeneralPacketProcessing.c:30-47 | a route reported found is the one whose next hop is used; after the use every route to or through the destination has AODV_ACTIVE_ROUTE_TIMEOUT ahead and all others are unchanged |
| AodvHistory.RoutesWereHeard | CC_AODV/src/Simulation/AODV/RouteTable.c:34-84 | in every state of every run, the next hop of every route is the neighbour from which the request or reply came that made the route, and there has been a route ever since; its number and hop count came together in one request or reply since then, and no higher number came |
| AodvHistory.StaysDead | CC_AODV/src/Simulation/AODV/AODV_RouteError.c:34-47 | in every run, a destination whose route is invalid has no valid route until a request or reply brings news of it |
| AodvHistory.NewsReplaces | CC_AODV/src/Simulation/AODV/RouteTable.c:36-45 | news with the number held replaces an invalid route whatever its hop count, and a valid one only if that gets shorter by more than one hop |
| AodvHistory.BrokenRouteReplaced | CC_AODV/src/Simulation/AODV/AODV_RouteError.c:113-145 | in every run, the next news with the same number of the destination of a route broken by a lost link or a route error replaces that route |
| AodvFlood.Forwards | CC_AODV/src/Simulation/AODV/RREQ.c:313-348 | an accepted request is put on the air twice or not at all, and twice iff the device has a route back to the sender, is not the destination nor congested, and the request is not at its end |
| AodvFlood.RunInv | CC_AODV/src/Simulation/AODV/RREQ.c:285-300 | those who have seen a request are its originator and those who accepted it; it was sent once plus twice for each device that passed it on |
| AodvFlood.AcceptedOnce | CC_AODV/src/Simulation/AODV/RREQ.c:285-300 | under any copies and delays no device accepts a request twice and no originator its own |
| AodvFlood.FloodBound | CC_AODV/src/Simulation/AODV/RREQ.c:285-350 | one plus twice the number of relays, at most n - 1 acceptances and 2n - 1 transmissions of one request: every flood dies out |
| AodvFlood.UnroutedSentOnce | CC_AODV/src/Simulation/AODV/RREQ.c:332-346 | a request that meets no route back to its sender goes on the air exactly once |
| AodvFlood.SeenTable.Check | CC_AODV/src/Simulation/AODV/RREQ.c:354-365 | the scan finds exactly the requests in the table |
| AodvFlood.SeenTable.Accept | CC_AODV/src/Simulation/AODV/RREQ.c:290-300 | a request is accepted iff it is new, and is then in the table |
| AodvDiscovery.RetryProgress | CC_AODV/src/Simulation/AODV/RREQ.c:179-242 | every timeout that is not stale gives up or strictly lowers (ring left, tries left), for any table, and touches no other destination |
| AodvDiscovery.DiscoveryEnds | CC_AODV/src/Simulation/AODV/RREQ.c:179-242 | driven by timeouts alone, every discovery ends within a bound known from its entry |
| AodvDiscovery.RingSequence | CC_AODV/src/Simulation/AODV/RREQ.c:100-133 | a new discovery stores the rings 2, 4, 6, 7, 35, 35 and then gives up |
| AodvDiscovery.DroppedFor | CC_AODV/src/Simulation/AODV/FIFOBuffer.c:54-77 | giving up drops exactly the packets that wait for that destination |
| AodvDiscovery.TransmitWaiting | CC_AODV/src/Simulation/AODV/FIFOBuffer.c:81-115 | what is handed back for a destination followed by what stays is what waited |
| AodvDiscovery.TransmitExact | CC_AODV/src/Simulation/AODV/FIFOBuffer.c:81-115 | a destination with a route keeps nothing and one without keeps everything |
| AodvDiscovery.RunConserves | CC_AODV/src/Simulation/AODV/FIFOBuffer.c:21-115 | over every run and for every destination, the packets added are those that left, in order, followed by those that wait |
| AodvDiscovery.RingsThenDrop | CC_AODV/src/Simulation/AODV/RREQ.c:179-242 | through six timeouts nothing is lost; then all packets that wait for the destination are dropped and no others |
| AodvDiscovery.ReplyAttendsIff | CC_AODV/src/Simulation/AODV/RREP.c:80-98 | a reply keeps that iff its destination has a route or nothing waits for it |
| AodvDiscovery.ReplyStrandsIff | CC_AODV/src/Simulation/AODV/RREP.c:75-98 | with the route that the reply inserts: iff no entry that refuses it ends its life at this time |
| AodvStation.RunInv | CC_AODV/src/Simulation/AODV/RREQ.c:153-171 | in every run of route tables, timers, discoveries and buffer together: every open discovery has a timeout pending at exactly its stored time, and none is in the past |
| AodvStation.NextAttendsIff | CC_AODV/src/Simulation/AODV/RREP.c:64-108 | a step from a state in which every waiting packet has an open discovery leads to one in which some has none iff it is the reply to an own request, refused by an entry at the end of its life, while packets wait |
| AodvStation.RunAttended | CC_AODV/src/Simulation/AODV/GeneralPacketProcessing.c:34-62 | in every run without such a step, relayed replies included, every packet that waits has an open discovery |
| AodvStation.StrandingReached | CC_AODV/src/Simulation/AODV/RREP.c:75-98 | a run from the start that gets to such a step |
| AodvStation.EndStays | CC_AODV/src/Simulation/AODV/RREQ.c:179-242 | while packets wait, their discovery stays open and the time at which it will give up does not move |
| AodvStation.WaitIsBounded | CC_AODV/src/Simulation/AODV/RREQ.c:179-242 | in every run without such a step, packets wait for a destination without a break at most until the time that the entry of their discovery tells |
| AodvStation.NewDiscoveryEnds | CC_AODV/src/Simulation/AODV/RREQ.c:66-76 | for a new discovery that is 8.48 seconds after it was opened |
| AodvDiscovery.Discovery.AddToFifo | CC_AODV/src/Simulation/AODV/FIFOBuffer.c:21-50 | appends to the packets of the destination and says whether there were any |
| AodvDiscovery.Discovery.EmptyFifo | CC_AODV/src/Simulation/AODV/FIFOBuffer.c:54-77 | removes the destination's element and drops its packets |
| AodvDiscovery.Discovery.TransmitFifo | CC_AODV/src/Simulation/AODV/FIFOBuffer.c:81-115 | the loops look each destination up in the route table and hand back exactly the packets that have a route |
| AodvDiscovery.Discovery.SendWithoutRoute | CC_AODV/src/Simulation/AODV/GeneralPacketProcessing.c:53-62 | the packet waits, and a discovery is opened unless packets were waiting |
| AodvDiscovery.Discovery.ReceiveReply | CC_AODV/src/Simulation/AODV/RREP.c:80-98 | what has a route is sent and the discovery is closed |
| AodvDiscovery.Discovery.RetryRreq | CC_AODV/src/Simulation/AODV/RREQ.c:179-242 | decides, records and drops as the model does |
| EthernetPhy.RunInv | CC_AODV/src/Simulation/Ethernet/Ethernet_Phy.c:122-168 | the invariant holds after every event sequence, stale wake-ups included |
| EthernetPhy.TransmitterIsIdeal | CC_AODV/src/Simulation/Ethernet/Ethernet_Phy.c:122-168 | frames leave in order, each at the later of its arrival and the end of the frame before it plus the gap |
| EthernetPhy.GapKept | CC_AODV/src/Simulation/Ethernet/Ethernet_Phy.c:148-161 | any two transmissions are at least the inter-frame gap apart |
| EthernetPhy.CarriesItsSpeed | CC_AODV/src/Simulation/Ethernet/Ethernet_Phy.c:55-59 | over any stretch of transmissions of any run, eight times the bytes sent is the speed times the time that the line is busy |
| EthernetPhy.NothingStranded | CC_AODV/src/Simulation/Ethernet/Ethernet_Phy.c:163-167 | a non-empty queue has a wake-up at the end of the current transmission; without wake-ups everything was sent |
| EthernetPhy.EthPhy.Handle | CC_AODV/src/Simulation/Ethernet/Ethernet_Phy.c:122-168 | the code of the handler computes the step of the model |
| Dsr.LengthExact | CC_AODV/src/Simulation/DSR/DSR.h:773-774 | the length field tells the length of the record iff that is at most 62 |
| Dsr.RecordSound | CC_AODV/src/Simulation/DSR/RouteRequest.c:237-320 | in every run the record of a request is pairwise distinct, without the target, and a chain of links from the initiator |
| Dsr.PassOk | CC_AODV/src/Simulation/DSR/RouteReply.c:194-242 | passing a reply on strictly lowers the holder's first position, against a recorded link |
| Dsr.ReplyReturns | CC_AODV/src/Simulation/DSR/RouteReply.c:20-73 | in every run the addresses of a reply are the initiator, the recorded nodes in order and the target of a request that was on the air, it is with the initiator after at most n - 1 hops, and until then it has a next hop that is strictly closer |
| Dsr.ReceptionSends | CC_AODV/src/Simulation/DSR/RouteRequest.c:237-320 | in every run, on every topology: a request that is new at its target is answered with one reply that holds its route, at the node before the target, if it has at most 62 recorded addresses; one that is new elsewhere goes on the air with the node appended unless the node is recorded or has a cached route; any other reception sends nothing |
| Dsr.ReplyArrives | CC_AODV/src/Simulation/DSR/RouteReply.c:194-242 | from any state of any run, a reply under way can be passed on until the initiator holds it |
| Dsr.RouteFound | CC_AODV/src/Simulation/DSR/RouteRequest.c:237-320 | after any run, if nodes that do not know the request form a simple path to the target over at most 62 others, the run can go on so that the initiator gets exactly that path |
| Dsr.FaultsIff | CC_AODV/src/Simulation/DSR/RouteRequest.c:262-304 | in every run, receiving a request reads outside an array iff the request is new to the node and has 63 recorded addresses |
| Dsr.FaultReached | CC_AODV/src/Simulation/DSR/RouteRequest.c:300-313 | a run that gets there, on every topology with a simple path of 65 nodes or more |
| Dsr.SmallNetworksNeverFault | CC_AODV/src/Simulation/DSR/RouteRequest.c:237-320 | no run of at most 62 nodes gets there |
| Dsr.CheckIpInList | CC_AODV/src/Simulation/DSR/RouteRequest.c:325-334 | true iff the address is among the first `length`; a negative length reads before the list |
| Dsr.CheckEntry | CC_AODV/src/Simulation/DSR/RouteRequest.c:339-349 | true iff the table has the id and target |
| Dsr.GenerateReply | CC_AODV/src/Simulation/DSR/RouteReply.c:45-57 | up to 62 recorded addresses: the array is the initiator, the recorded nodes in order and the target, its length field fits, and the first hop is the last transmitter; beyond that it reads before the array |
| Dsr.NextHop | CC_AODV/src/Simulation/DSR/RouteReply.c:205-227 | the node before the first occurrence of this one; none for the initiator and for strangers |
| UpstreamMap.DurationsSum | CC_AODV/src/Simulation/CognitiveRadio/USMAP.c:22-51 | the durations sum to at most the slots allocated, and to all of them iff every station has fewer than 4096 |
| UpstreamMap.OverflowLosesSlots | CC_AODV/src/Simulation/CognitiveRadio/USMAP.c:38-38 | 4096 slots for one station disappear |
| UpstreamMap.WindowsDisjoint | CC_AODV/src/Simulation/CognitiveRadio/USMAP.c:71-112 | windows computed independently from one map do not overlap and lie behind the contention slots |
| UpstreamMap.StationsDisjoint | CC_AODV/src/Simulation/CognitiveRadio/USMAP.c:22-112 | for every allocation list each named station finds a window of its slots, disjoint from all others |
| UpstreamMap.WindowStart | CC_AODV/src/Simulation/CognitiveRadio/USMAP.c:69-112 | a named station's window lies after the first symbol and before the end of all slots allocated; if no field overflows it begins exactly after the slots of the stations with smaller ids |
| UpstreamBurst.GrantsApartIff | CC_AODV/src/Simulation/CognitiveRadio/USMAP.c:69-112 | for every allocation list: the sending times of two stations are apart, whatever they were granted before, iff the list names both |
| UpstreamBurst.GrantWithinFrame | CC_AODV/src/Simulation/CognitiveRadio/USMAP.c:69-82 | a named station's grant starts at least one symbol after the base of its frame and is over when the time of all slots allocated is |
| UpstreamBurst.GrantStart | CC_AODV/src/Simulation/CognitiveRadio/USMAP.c:69-82 | if no field overflows it starts exactly after the slots of the stations with smaller ids |
| UpstreamBurst.BurstFitsIff | CC_AODV/src/Simulation/CognitiveRadio/USFrame.c:91-113 | for every allocation list: what a station packs is, whatever waits, at most the bits of its slots (modulo 4096) iff the list names it or it had no grant before |
| UpstreamBurst.InForceIs | CC_AODV/src/Simulation/CognitiveRadio/USMAP.c:73-82 | over any sequence of frames the grant in force is that of the last map that named the station |
| UpstreamBurst.FramesFitIff | CC_AODV/src/Simulation/CognitiveRadio/USFrame.c:91-113 | over any sequence of frames: what is packed in the last one fits iff that frame names the station, or none did, or the last one that did granted nothing |
| UpstreamBurst.StaleGrantUsed | CC_AODV/src/Simulation/CognitiveRadio/USFrame.c:91-113 | two frames of which the second does not name a station that sends in both |
| UpstreamMap.FormMap | CC_AODV/src/Simulation/CognitiveRadio/USMAP.c:9-53 | the accumulating loops build the map |
| UpstreamBurst.CpeMac.ProcessMap | CC_AODV/src/Simulation/CognitiveRadio/USMAP.c:55-112 | the running slot counter finds the station's window and sets its bytes and start time; without an element the grant stays |
| UpstreamBurst.CpeMac.FormBurst | CC_AODV/src/Simulation/CognitiveRadio/USFrame.c:91-113 | what is appended to the burst is the longest front of the backlog, in queue order, that fits the bytes granted, and the rest stays queued |
| EventList.InsertOrdered | CC_AODV/src/Simulation/FastEmulation/EventHandler.c:47-89 | insertion keeps the list sorted and stable and adds just the event |
| EventList.RunInv | CC_AODV/src/Simulation/FastEmulation/EventHandler.c:47-119 | under any mix of calls the list is sorted, stable, and holds exactly the events added and not released |
| EventList.ReleasedIsNext | CC_AODV/src/Simulation/FastEmulation/EventHandler.c:91-119 | what is released is due and comes before all that stay |
| EventList.FutureEventList.Walk | CC_AODV/src/Simulation/FastEmulation/EventHandler.c:77-87 | stops at the last node that is not later, before the tail |
| EventList.FutureEventList.AddEvent | CC_AODV/src/Simulation/FastEmulation/EventHandler.c:47-89 | the linked list gets the event at its place, whatever next pointer the caller's record holds |
| EventList.FutureEventList.GetEvent | CC_AODV/src/Simulation/FastEmulation/EventHandler.c:91-119 | releases the head if it is due and nothing otherwise |

## Left out

- SpanningTree: what the port states amount to. A blocked port is never unblocked (`forward_port` has no caller), so a stale BPDU can block a port that later becomes a root port. Proved are root, cost and root port, and how an offer is answered once nothing is in flight; the port states that have built up by then are not.
- SpanningTree: lost or duplicated BPDUs, ageing, hello and topology change; ids that are equal under `_stricmp`.
- QueueNetwork: packets that the error model drops, file and socket I/O, start and end of the threads.
- Shortcut: the list in which the map keeps its packets, and the replacement of a map while its packets are still queued.
- Dijkstra: reading links from files, sorting of link records, writing of interfaces, overflow of `int` sums (weights and distances are unbounded integers).
- DesTables: entries of an S-box beyond that its rows are permutations and that the known answer uses them.
- Des: the other ciphers of the application layer (AES, TEA, XOR).
- AodvRoutes: freedom from routing loops, which the code does not promise: updates keep the old next hop and route checks ignore the invalid flag. Precursor lists, metrics, the congestion counter and the sending of hello messages.
- AodvRoutes.Device.ActiveRouteTimeout: requires a table without duplicates, which `AodvRoutes.ReachableInv` proves of every reachable state; on other tables the code would go on to further entries.
- AodvDiscovery: the sent table is a map with one entry per destination, not a linked list; packet contents, freeing and metrics.
- EthernetPhy: reception, bit errors and link failure; two events at one time come in any order, as the event queue of the simulator is not part of this model.
- Dsr: cached route replies, which can join hops that are not adjacent, and the send and maintenance buffers; what a node does after it has read outside an array; the hop limit of packets.
- UpstreamMap: map elements other than the contention element and data shares. Station ids are below MAX_SID, as the array demands.
- EventList: the mutex, and the waiting of the caller.
- Memory allocation, copies of addresses, floating-point rounding, and wrap-around of clocks, ids and sequence numbers.
- The rest of the simulator: CSMA/CA, Aloha, ARP, cellular, CoAP, IEEE 1609, firewall, VLAN, battery, CLI, metrics and file output.
