# Featureprofiles in Dafny

A model of the scale-test core of openconfig/featureprofiles and proofs about it.

The main part is the gRIBI full-scale programmer. From a set of scale parameters it compiles a
hierarchical forwarding table: prefixes of six kinds of VRF point to next-hop-groups, groups to
next-hops, and next-hops to VLANs, to further prefixes, to other VRFs or into tunnels, with backup
groups for fast reroute. The model has the compiler (quota partition, bucket iterator, weights,
round-robin allocation, id plan, five builders, batching) as methods proved equal to closed forms;
the device as a routing information base with longest match, liveness, backup groups and runs of a
packet that leave the choice among live hops open; the policy on the ingress port; and the traffic
flows with what is expected of them. On top of these stand the results about whole runs:

- references resolve after every pushed entry, for every batch size, exactly for some counts
  (`FullRun.IntegrityIff`, and `Programming.PushedClosedIff` for runs that stop early), and ids never
  collide exactly for some counts (`Ids.IdsDistinctIff`);
- forwarding terminates from every state under every set of links when ids do not collide
  (`Termination.ForwardingTerminates`), and need not when they do (`Loops.CollidingIdsLoop`);
- fast reroute holds of every packet and every run exactly under a condition on the counts
  (`FastReroute.FastRerouteIff`);
- every packet of every flow takes its scenario's path through the tables, and leaves as the expectation
  recorded for its flow says, exactly under a condition on the counts, with all links up
  (`EndToEnd.EndToEndIff`) and with the primary VLANs shut (`RepairTest.RepairTestIff`).

Between the builders and these results stand laws about what reaches the tables and the wire: the
weights, hop counts and next-hops of every programmed group, and how many groups there are of each kind
(`GroupWeights`); how each layer shares what it points at (`Sharing`); how many entries there are
(`Conservation`); and exactly which packets the flows send (`Coverage`).

Smaller parts: election ids and leadership over runs, BGP neighbour addresses by big-integer
arithmetic, the comma-separated list flags, and the core-file validator with its concurrent checks.

`dafny verify dfyconfig.toml` checks everything. Each module says in its first lines what it holds.

## Where code and documentation differ

The model follows the code. The differences that matter are stated as lemmas:

- The comment at internal/cfgplugins/gribifullscale.go:507-508 says that primary VLANs stay up. The
  repair test shuts exactly the primary ones (`FastReroute.ShutAndRestore`, `Isolation.HalvesApartIff`).
- The comment at internal/cfgplugins/gribifullscale.go:505 gives each default next-hop a VLAN of its
  own. They wrap around (`Isolation.OwnVlanIff`, `Targets.FullSizeTargetsShareVlans`).
- The target documentation promises a 1:63 transit split. The code splits 1:(g - 1) for granularities 2
  to 4 only (`NhgWeights.OneToRestIff`).
- The test documentation promises co-prime weights. They are for most requests, but not for 20 units
  over 8 hops (`NhgWeights.SharesCoprimeIff`, `NhgWeights.TwentyOverEight`).
- The iterator gives an empty interior bucket a group (`BucketIterator.RealisesIff`).
- The scaled-down target has one transit prefix but, on most devices, two repair tunnels
  (`Targets.DownTargetReroutesIff`).

## Conditions

- `Programmed` collects what most results about forwarding need: the run completes
  (`FullRun.Completes`: valid parameters, no index out of range, no negative capacity, addresses that
  fit), ids do not collide, references resolve, and the default prefixes end below the link addresses.
  All five shipped targets satisfy it (`Targets.FullSizeProgrammed`, `Targets.DownProgrammed`).
- `multi` says whether the device repairs into several tunnels; `track` whether it skips a tunnel
  whose destination it cannot reach. All results hold for both values of each.
- `AddressPlan` is what the end-to-end result needs of the addresses and DSCPs: at most 27 encap VRFs, so
  that DSCPs fit six bits (`EndToEnd.SixBitsIff`), at most 1024 decap entries, so that decap prefixes are
  addresses (`DecapTable.ExpandDecapPrefixes`), transit prefixes below the decap prefixes, and link
  addresses below the customer addresses.
- The fast-reroute condition: two VLANs, two default prefixes, two transit next-hops and groups, a
  repair route per transit prefix, and repair tunnels that end on transit prefixes that exist.

## Model

| member | source | states |
|---|---|---|
| `NhgWeights.ComputeNHGWeights` | internal/cfgplugins/gribifullscale.go:469-498 | returns the closed form Shares: equal base weights, the whole remainder on the last hop, and one unit moved from the last but one to the last when an even split above one comes out |
| `NhgWeights.SharesSumToGranularity` | internal/cfgplugins/gribifullscale.go:469-498 | weights of a non-empty group always add up to the granularity |
| `NhgWeights.SharesPositiveIff` | internal/cfgplugins/gribifullscale.go:465-498 | all weights are positive if and only if the granularity is at least the hop count |
| `NhgWeights.SharesEqualIff` | internal/cfgplugins/gribifullscale.go:465-498 | for two or more hops the weights are all equal, which would allow ECMP, if and only if the granularity equals the hop count |
| `NhgWeights.SharesEvenIff` | internal/cfgplugins/gribifullscale.go:476-482 | the weights are within one of each other if and only if the granularity is the hop count or one more than a multiple of it |
| `NhgWeights.SharesCommonDivisorIff` | feature/gribi/gribi_full_scale/README.md:216 | exactly which numbers divide all weights of a group of two or more hops |
| `NhgWeights.SharesCoprimeIff` | feature/gribi/gribi_full_scale/README.md:216 | the weights of two or more hops have no common factor, as promised, if and only if quotient and remainder of granularity by hop count have greatest common divisor one, or, where the remainder is zero and the quotient above one, unless there are two hops and the quotient is odd |
| `NhgWeights.TwentyOverEight` | feature/gribi/gribi_full_scale/README.md:216 | 20 units over 8 hops all come out even, so they are not co-prime |
| `NhgWeights.OneToRestIff` | feature/gribi/gribi_full_scale/otg_tests/gribi_full_scale_t0/README.md:35 | two hops get the documented 1 and granularity minus 1 if and only if the granularity is 2, 3 or 4, so not at the documented 64 |
| `NhgPartition.PartitionNHG` | internal/cfgplugins/gribifullscale.go:391-403 | returns the quotas: truncated shares, the last bucket taking what is left |
| `NhgPartition.ComputeNHGBuckets` | internal/cfgplugins/gribifullscale.go:405-418 | one load-balancing bucket per request entry, with that entry's quota and hop count |
| `NhgPartition.ComputeNHGWeightBuckets` | internal/cfgplugins/gribifullscale.go:420-432 | one weight bucket per request entry, with that entry's quota and weight configuration |
| `NhgPartition.QuotasSum` | internal/cfgplugins/gribifullscale.go:391-403 | the quotas of any request add up to the group count, whatever the percentages |
| `NhgPartition.PartitionLaw` | internal/cfgplugins/gribifullscale.go:371-403 | every quota but the last is the floor of its share; the last is at least its share and exceeds it by less than the number of buckets minus one |
| `NhgPartition.QuotasNonNegative` | internal/cfgplugins/gribifullscale.go:371-403 | no quota of a valid request is negative |
| `BucketIterator.NHGBucketIterator.constructor` | internal/cfgplugins/gribifullscale.go:320-326 | a fresh iterator over the two partitions, at position zero on both axes |
| `BucketIterator.NHGBucketIterator.Next` | internal/cfgplugins/gribifullscale.go:328-362 | the i-th call returns the weights of positional bucket i on both axes, and moves each axis by one position independently of the other |
| `BucketIterator.BucketAtIff` | internal/cfgplugins/gribifullscale.go:328-345 | the positional bucket is the only one whose stretch contains the position, with stretches c0, max(1, c1), ... and an unbounded last one |
| `BucketIterator.AdvanceAxis` | internal/cfgplugins/gribifullscale.go:330-344 | advancing by at most one bucket per call lands in the positional bucket |
| `BucketIterator.CallHandsOut` | internal/cfgplugins/gribifullscale.go:328-362 | call i returns as many weights as the load-balancing bucket asks for whose stretch holds i, but no more than there are next-hops, and they add up to the granularity of the weight bucket whose stretch holds i, or to the hop count |
| `BucketIterator.UsesClosedForm` | internal/cfgplugins/gribifullscale.go:328-362 | how often each bucket is used in the first n calls |
| `BucketIterator.RealisesIff` | internal/cfgplugins/gribifullscale.go:320-362 | the calls realise the requested partition if and only if no empty interior bucket is reached while groups are still to be created |
| `BucketIterator.EmptyInteriorIsUsed` | internal/cfgplugins/gribifullscale.go:330-344 | an empty interior bucket that is reached gets a group it did not ask for |
| `BucketIterator.EmptyInteriorBucketIsUsed` | internal/cfgplugins/gribifullscale.go:330-344 | 3 groups over 75/20/3/2 percent use bucket 1 although its quota is zero |
| `IpUtil.GenerateIPsWithStep` | internal/iputil/iputil.go:51-92 | the addresses start + i * step on 32 bits, or the error of the first check that fails, a step that does not parse included |
| `IpUtil.GenerateIPv6sWithStep` | internal/iputil/iputil.go:112-154 | the addresses start + i * step on 128 bits, or the error of the first check that fails, a step that does not parse included |
| `IpUtil.GeneratedOkIff` | internal/iputil/iputil.go:51-92 | IPv4 addresses are generated if and only if the last one fits 32 bits and, even for a single address, so does the one after the first |
| `IpUtil.Generated6OkIff` | internal/iputil/iputil.go:112-154 | IPv6 addresses are generated if and only if the last one fits 128 bits |
| `Params.ValidateNHGLoadBalance` | internal/cfgplugins/gribifullscale.go:370-389 | accepts exactly non-empty lists of non-negative percentages with positive hop counts that add up to 100 |
| `Params.ValidateNHGWeight` | internal/cfgplugins/gribifullscale.go:434-463 | accepts exactly non-empty lists of non-negative percentages that add up to 100, with a weight configuration that is set and, where weighted, has a positive granularity |
| `Params.ValidateScaleParams` | internal/cfgplugins/gribifullscale.go:2266-2303 | accepts exactly the valid parameters |
| `Params.CallWeightsShape` | internal/cfgplugins/gribifullscale.go:345-362 | no group gets more hops than exist, and every group gets a weighted hop as soon as one exists |
| `RoundRobin.AddHops` | internal/cfgplugins/gribifullscale.go:1087-1094 | one group's hops: consecutive next-hops from the running offset, wrapping around |
| `RoundRobin.HopsDistinct` | internal/cfgplugins/gribifullscale.go:1087-1094 | within one group no next-hop is used twice |
| `RoundRobin.RoundRobinFair` | internal/cfgplugins/gribifullscale.go:1083-1099 | with T references dealt in turn, next-hop j of n is referenced T / n times, and once more exactly when j is below T % n |
| `Fairness.DefaultFair` | internal/cfgplugins/gribifullscale.go:1083-1099 | fair use of the next-hops of both halves of the default VRF |
| `Fairness.TransitFair` | internal/cfgplugins/gribifullscale.go:1175-1190 | fair use of the next-hops of a transit VRF |
| `Fairness.EncapFair` | internal/cfgplugins/gribifullscale.go:1320-1337 | fair use of the encap next-hops over all encap VRFs together, the offset being carried over |
| `GroupWeights.FallsOnce` | internal/cfgplugins/gribifullscale.go:328-345 | every position lies in the stretch of exactly one bucket |
| `GroupWeights.DefaultGroupsFollow` | internal/cfgplugins/gribifullscale.go:1083-1102 | every programmed default group has the hop count its load-balancing bucket asks for, limited by the next-hops of its half, and weights by the law of its weight bucket: all one under ECMP; under WCMP adding up to the granularity, all positive exactly from granularity equal to the hop count on, and from two hops on equal exactly there |
| `GroupWeights.TransitGroupsFollow` | internal/cfgplugins/gribifullscale.go:1175-1190 | the same of the programmed groups of both transit VRFs, with their requests and their parts of the counts |
| `GroupWeights.EncapGroupsFollow` | internal/cfgplugins/gribifullscale.go:1317-1337 | the same of the programmed groups of every encap VRF, with an iterator per VRF |
| `GroupWeights.DefaultGroupsTakeTurns` | internal/cfgplugins/gribifullscale.go:1087-1094 | hop k of a programmed group is the next-hop that many places on, around the half, as hops of the groups before it and k together |
| `GroupWeights.TransitGroupsTakeTurns` | internal/cfgplugins/gribifullscale.go:1182-1189 | the same of the groups of both transit VRFs |
| `GroupWeights.EncapGroupsTakeTurns` | internal/cfgplugins/gribifullscale.go:1320-1335 | the same of the encap groups, the turn carrying over from one VRF to the next |
| `GroupWeights.DefaultAsRequested` | internal/cfgplugins/gribifullscale.go:1083-1102 | unless an empty interior bucket is reached, each half has as many groups of each hop count as the load-balancing request asks for, and, where all are WCMP, as many of each total weight as the weight request asks for |
| `GroupWeights.TransitAsRequested` | internal/cfgplugins/gribifullscale.go:1175-1190 | the same of each transit VRF |
| `GroupWeights.EncapAsRequested` | internal/cfgplugins/gribifullscale.go:1317-1337 | the same of each encap VRF |
| `Sharing.TunnelsShared` | internal/cfgplugins/gribifullscale.go:1292-1309 | of n encap next-hops, each of the first t = min(n, numTransitIPv4) prefixes of TE_VRF_111 is the tunnel destination of n / t, or one more for the first n % t, and no other prefix is of any |
| `Sharing.TunnelsDistinctIff` | internal/cfgplugins/gribifullscale.go:1292-1309 | all encap next-hops have different tunnels if and only if there are no more of them than TE_VRF_111 prefixes |
| `Sharing.TransitHopsShared` | internal/cfgplugins/gribifullscale.go:1168-1173 | the next-hops of TE_VRF_111 share the primary default prefixes fairly and use no other, those of TE_VRF_222 the backup ones |
| `Sharing.VlansShared` | internal/cfgplugins/gribifullscale.go:1059-1081 | the first half of the default next-hops shares the primary VLANs fairly and uses no other, the second half the backup VLANs |
| `Sharing.DefaultRoutesShared` | internal/cfgplugins/gribifullscale.go:1104-1128 | the default prefixes of each half share the groups of that half fairly |
| `Sharing.TransitRoutesShared` | internal/cfgplugins/gribifullscale.go:1192-1203 | the prefixes of TE_VRF_111, TE_VRF_222 and REPAIR_VRF share the groups of their VRF fairly |
| `Sharing.CustomersShared` | internal/cfgplugins/gribifullscale.go:1339-1362 | the customer prefixes of each encap VRF, from 200.vi.0.1 and 2001:db8:vi::1 on, share the groups of its slice fairly |
| `Sharing.SlicesEven` | internal/cfgplugins/gribifullscale.go:1316-1324 | every encap VRF has numEncapDefaultNHG / numEncapVRFs groups, the last one the remainder as well |
| `Sharing.FirstNextHopsAre` | internal/cfgplugins/gribifullscale.go:129-143 | the first next-hop of each kind, by id |
| `Sharing.FirstRoutesAre` | internal/cfgplugins/gribifullscale.go:129-143 | the first prefix of each VRF, and the id of its group |
| `Rib.InstalledIsLast` | internal/gribi/gribi.go:194-264 | what a key holds after a stream of entries is the last entry of the stream with that key |
| `Integrity.ClosedThroughoutIffGrounded` | internal/cfgplugins/gribifullscale.go:1130-1134 | all references resolve after every prefix of a stream if and only if every entry comes after what it refers to |
| `DefaultVrfBuilder.BuildNHGs` | internal/cfgplugins/gribifullscale.go:1083-1099 | a list of groups over round-robin next-hops with the iterator's weights |
| `DefaultVrfBuilder.BuildDefaultVRF` | internal/cfgplugins/gribifullscale.go:1037-1141 | succeeds exactly when the address plan fits, with next-hops, groups and prefixes of both halves in that order |
| `DefaultVrfBuilder.DefaultTables` | internal/cfgplugins/gribifullscale.go:1037-1141 | what the default VRF's entries leave under every id and every prefix |
| `DefaultVrfBuilder.DefaultGrounded` | internal/cfgplugins/gribifullscale.go:1130-1134 | the default VRF's entries come in dependency order |
| `StaticGroups.BuildStaticGroups` | internal/cfgplugins/gribifullscale.go:1144-1155 | S1 redirects into the repair VRF, S2 decapsulates into the default VRF |
| `StaticGroups.StaticTables` | internal/cfgplugins/gribifullscale.go:1144-1155 | what S1 and S2 leave in the tables |
| `RepairBuilder.BuildRepairVRF` | internal/cfgplugins/gribifullscale.go:1240-1284 | succeeds exactly when the addresses fit, with one-tunnel groups first and two-tunnel groups after, every tunnel index in range |
| `RepairBuilder.FirstTunnelClosedForm` | internal/cfgplugins/gribifullscale.go:1247-1264 | closed form of the first tunnel of every repair group |
| `RepairBuilder.TunnelOwner` | internal/cfgplugins/gribifullscale.go:1247-1264 | every tunnel belongs to a repair group |
| `RepairBuilder.TunnelOwnerUnique` | internal/cfgplugins/gribifullscale.go:1247-1264 | no tunnel belongs to two repair groups |
| `RepairBuilder.RepairTables` | internal/cfgplugins/gribifullscale.go:1240-1284 | what the repair VRF's entries leave in the tables |
| `TransitBuilder.BuildSide` | internal/cfgplugins/gribifullscale.go:1164-1205 | one transit VRF: next-hops to default prefixes, groups with a backup, one route per prefix, or nothing when a count is zero |
| `TransitBuilder.BuildTransitVRFs` | internal/cfgplugins/gribifullscale.go:1158-1231 | both transit VRFs, the second with what the first leaves of the counts; needs an entry capacity that is not negative, without which the source panics |
| `TransitBuilder.SideTables` | internal/cfgplugins/gribifullscale.go:1164-1205 | what one transit VRF's entries leave in the tables |
| `TransitBuilder.NegativeSideIff` | internal/cfgplugins/gribifullscale.go:1177-1205 | a transit VRF with a negative group count installs no group, and its routes resolve if and only if every id they cycle through already has a group |
| `EncapDecapBuilder.BuildEncapDecapVRFs` | internal/cfgplugins/gribifullscale.go:1287-1394 | succeeds exactly when the addresses fit, with tunnels, fallback, per-VRF groups and routes, and decap entries in dependency order |
| `EncapDecapBuilder.BuildDecapEntries` | internal/cfgplugins/gribifullscale.go:1375-1388 | one decapsulating next-hop, group and variable-length prefix per decap entry; from entry 1024 on the written text is no 32-bit address |
| `EncapDecapBuilder.SlicesTile` | internal/cfgplugins/gribifullscale.go:1300-1329 | the groups of the encap VRFs are consecutive non-empty slices that tile all groups |
| `EncapDecapBuilder.EncapDecapTables` | internal/cfgplugins/gribifullscale.go:1287-1394 | what the encap and decap entries leave in the tables |
| `Programming.Device.AddEntries` | internal/cfgplugins/gribifullscale.go:1015-1027 | a modify request installs its entries in order |
| `Programming.BatchModify` | internal/cfgplugins/gribifullscale.go:1009-1034 | pushes the entries in order, in non-empty batches no larger than the batch size, which concatenate to the input |
| `Programming.RunFullScale` | internal/cfgplugins/gribifullscale.go:2307-2365 | succeeds exactly on valid parameters whose counts make no builder panic and whose addresses fit, and then leaves the programmed table on the device; a run that an address error or a panic in a builder stops has pushed the entries of all builders before, and nothing of that builder |
| `Programming.PushedClosedIff` | internal/cfgplugins/gribifullscale.go:2343-2363 | a run on valid parameters that an address error or a panic in a builder stops has kept all references resolved after every entry it pushed if and only if it did not push transit routes that point at groups nobody owns |
| `FullRun.ProgrammedTableIs` | internal/cfgplugins/gribifullscale.go:2343-2363 | what the whole run leaves under every id and every prefix |
| `Conservation.DefaultCounts` | internal/cfgplugins/gribifullscale.go:1037-1141 | the default VRF gets as many next-hops, groups and prefixes as requested, one fewer of an odd count, and two of a count below two |
| `Conservation.TransitCounts` | internal/cfgplugins/gribifullscale.go:1158-1231 | with two next-hops and two groups or more the transit VRFs together get exactly the requested next-hops and groups, and each all the prefixes |
| `Conservation.RepairCounts` | internal/cfgplugins/gribifullscale.go:1240-1284 | one group per requested group, one tunnel each, and a second one for the upper half on a device that repairs into several |
| `Conservation.EncapDecapCounts` | internal/cfgplugins/gribifullscale.go:1287-1394 | the encap and decap entries of each kind |
| `Conservation.TableSizes` | internal/cfgplugins/gribifullscale.go:2343-2363 | how many next-hops and how many groups the programmed tables hold |
| `FullRun.IntegrityIff` | internal/cfgplugins/gribifullscale.go:2343-2363 | all references resolve after every entry of a completed run if and only if the group counts leave no transit route without its group, or the groups pushed before own every id those routes cycle through |
| `Ids.IdsDistinctIff` | internal/cfgplugins/gribifullscale.go:129-143 | no two next-hop entries and no two group entries of a run share an id if and only if the id ranges fit between the fixed bases |
| `Forwarding.LookupIsLongestMatch` | internal/cfgplugins/gribifullscale.go:1375-1383 | lookup finds the longest covering prefix, as section 5.1 of RFC 4632 asks, and nothing when none covers |
| `Forwarding.RoutableIff` | internal/gribi/gribi.go:96-100 | reachability in one step, through a live hop of a group or of its backup |
| `Forwarding.Progress` | internal/gribi/gribi.go:96-100 | a packet in flight always has a next state |
| `ProgrammedRoutes.Lookup111` | internal/cfgplugins/gribifullscale.go:1164-1205 | what TE_VRF_111 does with every address |
| `ProgrammedRoutes.Lookup222` | internal/cfgplugins/gribifullscale.go:1164-1224 | what TE_VRF_222 does with every address |
| `ProgrammedRoutes.LookupRepair` | internal/cfgplugins/gribifullscale.go:1266-1279 | what REPAIR_VRF does with every address |
| `ProgrammedRoutes.LookupDefault` | internal/cfgplugins/gribifullscale.go:1104-1128 | what the default VRF does with every address; a single prefix is taken over by the backup half |
| `ProgrammedRoutes.LookupEncap` | internal/cfgplugins/gribifullscale.go:1339-1372 | an encap VRF sends a customer address to a group of its own slice and every other address to the fallback |
| `Termination.StepGoesDown` | internal/cfgplugins/gribifullscale.go:1037-1394 | every step of every packet lowers a rank, whatever links are up |
| `Termination.ForwardingTerminates` | internal/cfgplugins/gribifullscale.go:1037-1394 | no run from any state visits more than seven states |
| `Termination.CompleteRunExists` | internal/cfgplugins/gribifullscale.go:1037-1394 | every packet has a complete run |
| `Loops.CollidingIdsLoop` | internal/cfgplugins/gribifullscale.go:129-143 | for every completing run with one default prefix whose group id is that of a TE_VRF_111 group, a packet for that prefix has runs of every length, under any links |
| `Isolation.OwnVlanIff` | internal/cfgplugins/gribifullscale.go:504-511 | every default next-hop has a VLAN of its own, as documented, if and only if neither half has more next-hops than VLANs |
| `Isolation.HalvesApartIff` | internal/cfgplugins/gribifullscale.go:1054-1128 | traffic of primary prefixes leaves only on the VLANs the repair test shuts, and of backup prefixes only on the others, if and only if there are two VLANs and two default prefixes |
| `FastReroute.SetSubinterfaceAdminState` | internal/cfgplugins/gribifullscale.go:815-824 | switches exactly the VLANs of the given subinterfaces |
| `FastReroute.ShutAndRestore` | internal/cfgplugins/gribifullscale.go:1983-1994 | the repair test shuts exactly the primary VLANs and restores all of them |
| `FastReroute.HalfOfTheVlansShut` | internal/cfgplugins/gribifullscale.go:1983-1994 | the shutdown takes half of the VLANs, rounded down, but always one |
| `FastReroute.FastRerouteIff` | internal/cfgplugins/gribifullscale.go:1037-1284 | every packet for a TE_VRF_111 prefix takes S1, REPAIR_VRF, a .222 tunnel, TE_VRF_222 and a VLAN that is up, on every run, if and only if a condition on the counts holds |
| `FastReroute.RerouteHolds` | internal/cfgplugins/gribifullscale.go:1037-1284 | under that condition each complete run is the repaired one, hop by hop |
| `FastReroute.RerouteFails` | internal/cfgplugins/gribifullscale.go:1240-1284 | outside that condition some packet has a run that is not |
| `Policy.ConfigureVRFSelectionPolicy` | internal/cfgplugins/policyforwarding.go:1520-1598 | the numbered rule list: decap rules per VRF, default decap rules, DSCP rules per VRF, default |
| `Policy.PolicyIsClassify` | internal/cfgplugins/policyforwarding.go:1529-1598 | under first match the rule list decides every packet, and as the one-line policy says, for any number of VRFs and either default clause |
| `Policy.PolicyMeans` | internal/cfgplugins/policyforwarding.go:1520-1598 | up to 123 VRFs: DSCPs 10 + 2i and 11 + 2i belong to VRF i, others to the default VRF; packets in packets from .111 and .222 decapsulate into that VRF, and fall back to the transit VRF of their source |
| `Policy.ClassesDisjointIff` | internal/cfgplugins/gribifullscale.go:649-652 | the DSCP pairs of the VRFs are pairwise disjoint if and only if there are at most 128 VRFs |
| `Policy.DecapOrderIrrelevant` | internal/cfgplugins/policyforwarding.go:1531-1554 | up to 128 VRFs a permutation of the per-VRF decap rules does not change what any packet gets |
| `Policy.AnyDecapOrderIff` | internal/cfgplugins/policyforwarding.go:1531-1554 | every permutation of the per-VRF decap rules means the same to every packet if and only if there are at most 128 VRFs |
| `EndToEnd.IngressIsFirstMatch` | internal/cfgplugins/policyforwarding.go:1529-1598 | what port 1 does with a packet is what the first matching generated rule says |
| `EndToEnd.OwnClassIff` | internal/cfgplugins/gribifullscale.go:649-652 | every VRF's own DSCPs select that VRF if and only if there are at most 128 VRFs |
| `EndToEnd.SixBitsIff` | internal/cfgplugins/gribifullscale.go:649-652 | every VRF's DSCPs fit the six bits of the field, section 3 of RFC 2474, if and only if there are at most 27 VRFs |
| `DecapTable.DecapAligned` | internal/cfgplugins/gribifullscale.go:1375-1383 | every decap prefix is aligned to its length |
| `DecapTable.CoversUnique` | internal/cfgplugins/gribifullscale.go:1375-1383 | no address is covered by two decap prefixes |
| `DecapTable.CoversOctets` | internal/cfgplugins/gribifullscale.go:1375-1383 | prefix i below 1024 covers a.b.c.d if and only if a is 203, b is i / 4, c / 64 is i % 4, and the offset in that quarter is below the size of its length |
| `DecapTable.DecapLookupIff` | internal/cfgplugins/gribifullscale.go:1375-1383 | a lookup of an IPv4 or IPv6 address in the decap VRF finds entry i exactly when prefix i covers the address, and then i is below 1024 |
| `DecapTable.ExpandDecapPrefixes` | internal/cfgplugins/gribifullscale.go:1538-1544 | the i-th expanded host is covered by decap prefix i and by no other, and is a 32-bit address exactly when i is below 1024; both flow builders send to these hosts |
| `Delivery.TransitRuns` | internal/cfgplugins/gribifullscale.go:1164-1205 | with all links up every complete run of a packet for a TE_VRF_111 prefix is TE_VRF_111, a primary default prefix, a link address, a VLAN, the packet unchanged |
| `Delivery.RepairedRuns` | internal/cfgplugins/gribifullscale.go:1164-1224 | with all links up the same of TE_VRF_222 over the backup default prefixes, once it is built |
| `Delivery.EncapRuns` | internal/cfgplugins/gribifullscale.go:1287-1372 | every complete run of a packet for a customer address in an encap VRF puts it into a tunnel from .111, goes on in TE_VRF_111 and from there to a VLAN |
| `Delivery.LocalRuns` | internal/cfgplugins/gribifullscale.go:1364-1371 | every complete run of a packet for a link address falls through an encap VRF to the default VRF and ends on that address's VLAN, the packet unchanged |
| `EndToEnd.EncapScenario` | internal/cfgplugins/gribifullscale.go:1682-1716 | every packet of every encap flow starts in the VRF of its flow and takes a tunnel from .111, TE_VRF_111, a primary default prefix and a link to a VLAN |
| `EndToEnd.DecapScenario` | internal/cfgplugins/gribifullscale.go:1719-1748 | every packet of every decap flow loses its outer header, and the inner packet takes the VRF of its DSCP and the default VRF, unchanged, to the VLAN it is addressed to |
| `EndToEnd.ReencapScenario` | internal/cfgplugins/gribifullscale.go:1751-1806 | every packet of every reencap flow loses its outer header and takes the encap path from the VRF of its flow |
| `EndToEnd.TransitScenario` | internal/cfgplugins/gribifullscale.go:1809-1864 | every packet of every transit flow takes TE_VRF_111 and a primary default prefix to a VLAN, and of every repaired flow TE_VRF_222 and a backup default prefix |
| `EndToEnd.EndToEndIff` | internal/cfgplugins/gribifullscale.go:1882-1958 | every packet of every flow takes its scenario's table path hop by hop on every run, through policy, decapsulation or fallback, longest match and recursive resolution, if and only if there is an encap next-hop and TE_VRF_222 is built; so does the expectation recorded for its flow hold |
| `RepairTest.SourceProvesRepair` | internal/cfgplugins/gribifullscale.go:1909-1913 | a transit packet that leaves under outer source .222 took the repair path, whatever the parameters |
| `RepairTest.RepairTestIff` | internal/cfgplugins/gribifullscale.go:1909-1994 | every packet of every transit flow takes the repaired path on every run if and only if the fast-reroute condition holds; so does the expectation the repair test records |
| `Flows.BuildEncapFlows` | internal/cfgplugins/gribifullscale.go:1682-1716 | two flows per VRF, with that VRF's customers and DSCPs |
| `Flows.BuildDecapFlows` | internal/cfgplugins/gribifullscale.go:1719-1748 | one flow per VRF over successive stretches of the VLANs, or one for all |
| `Flows.BuildReencapFlows` | internal/cfgplugins/gribifullscale.go:1751-1806 | four flows per VRF, by outer source and address family |
| `Flows.BuildTransitFlows` | internal/cfgplugins/gribifullscale.go:1809-1835 | one flow per VRF to the TE_VRF_111 prefixes, or one for all |
| `Flows.BuildRepairedFlows` | internal/cfgplugins/gribifullscale.go:1838-1864 | one flow per VRF to the TE_VRF_222 prefixes, or one for all |
| `Flows.GetAllEncapDscpVals` | internal/cfgplugins/gribifullscale.go:663-671 | the DSCPs of all VRFs in order |
| `Flows.AllDscpsIff` | internal/cfgplugins/gribifullscale.go:663-671 | a DSCP is in that list if and only if the policy gives it a VRF |
| `Flows.CountBaseFlows` | internal/cfgplugins/gribifullscale.go:1606-1625 | equals the number of flows a run builds, in every mode: nine per VRF, or six per VRF and three, or one or one per VRF in the repair test |
| `Flows.RunNamesDistinct` | internal/cfgplugins/gribifullscale.go:1682-1864 | no two flows of a run have the same name |
| `Flows.AddFlows` | internal/cfgplugins/gribifullscale.go:1894-1922 | registers one expectation per flow under its name, with the DSCPs of the VRF recovered from its position |
| `Flows.BuildRun` | internal/cfgplugins/gribifullscale.go:1924-1958 | the flows of a run in order, each with exactly its own expectation and no other expectation |
| `Coverage.InRunIff` | internal/cfgplugins/gribifullscale.go:1924-1958 | a run has exactly the flows of the five scenarios |
| `Coverage.EncapSendsIff` | internal/cfgplugins/gribifullscale.go:1682-1716 | the encap flows send a packet if and only if it goes from port 1 to a customer address of some VRF under a DSCP of that VRF |
| `Coverage.ReencapSendsIff` | internal/cfgplugins/gribifullscale.go:1751-1806 | the reencap flows send exactly those packets in tunnels from .111 and .222 to the hosts of the decap entries |
| `Coverage.TransitSendsIff` | internal/cfgplugins/gribifullscale.go:1809-1864 | the transit flows send exactly the tunnelled packets from .111 to the TE_VRF_111 prefixes, the repaired flows from .222 to the TE_VRF_222 prefixes |
| `Coverage.DecapSendsIff` | internal/cfgplugins/gribifullscale.go:1719-1748 | the decap flows send exactly the tunnelled packets from .111 to the decap hosts whose inner packet goes to a VLAN of the stretch of their VRF |
| `Coverage.CompactDecapSendsIff` | internal/cfgplugins/gribifullscale.go:1719-1735 | compacted, they send exactly those to every VLAN under every DSCP |
| `Coverage.DecapEntriesHit` | internal/cfgplugins/gribifullscale.go:1538-1544 | the i-th outer destination of every decap and reencap flow lies in decap prefix i and in no other, so every decap entry is sent traffic |
| `Coverage.CustomersReached` | internal/cfgplugins/gribifullscale.go:1682-1806 | every customer address is sent traffic under every DSCP of its VRF, bare and through every decap entry from either source |
| `Coverage.VlansReachedIff` | internal/cfgplugins/gribifullscale.go:1735-1746 | without compaction the decap flows reach every VLAN if and only if the number of VRFs times max(1, VLANs * DecapDestsSubsetPct / 100) is at least the number of VLANs |
| `Coverage.RecordedMeans` | internal/cfgplugins/gribifullscale.go:1894-1922 | a packet meets the expectation recorded for its flow if and only if it leaves under .111 (encap, transit) or .222 (repaired, and transit in the repair test), in a tunnel unless the flow is a decap flow, with a DSCP of the flow |
| `Flows.PerFlowRate` | internal/cfgplugins/gribifullscale.go:1884-1888 | the rate per flow times the flow count does not exceed the total, and one more per flow would, as soon as the total is at least the flow count |
| `Targets.FullSizeTargetsAsExpected` | feature/gribi/gribi_full_scale/otg_tests/gribi_full_scale_t1/gribi_full_scale_t1_test.go:60-124 | for the parameters of the T0 to T3 targets every flow takes its path, every transit flow is repaired, and the recorded expectations of both end-to-end tests hold on every run |
| `Targets.FullSizeTargetsReroute` | feature/gribi/gribi_full_scale/otg_tests/gribi_full_scale_t3/gribi_full_scale_t3_test.go:60-124 | for the parameters of the T0 to T3 targets fast reroute holds |
| `Targets.FullSizeTargetsShareVlans` | feature/gribi/gribi_full_scale/otg_tests/gribi_full_scale_t0/gribi_full_scale_t0_test.go:60-124 | default next-hops of those targets share VLANs |
| `Targets.T0FirstGroup` | feature/gribi/gribi_full_scale/otg_tests/gribi_full_scale_t0/gribi_full_scale_t0_test.go:60-124 | group 2000 of target T0 has next-hops 1000 to 1007 with weights 64 six times, 63 and 65 |
| `Targets.T0Tables` | feature/gribi/gribi_full_scale/otg_tests/gribi_full_scale_t0/gribi_full_scale_t0_test.go:60-124 | target T0 leaves 16511 next-hops, or 16011 with one repair tunnel per group, and 6511 groups; next-hop 50002 tunnels to 100.0.0.2 |
| `Targets.DownTargetReroutesIff` | feature/gribi/gribi_full_scale/otg_tests/gribi_full_scale_down/gribi_full_scale_down_test.go:62-116 | for the scaled-down target fast reroute holds if and only if the device repairs into one tunnel or skips unreachable tunnels |
| `Targets.DownTargetAsExpectedIff` | feature/gribi/gribi_full_scale/otg_tests/gribi_full_scale_down/gribi_full_scale_down_test.go:62-116 | so does the expectation its repair test records, while every flow takes its path and the expectation of its other test holds on every device |
| `Targets.NoTransitGroupDangles` | internal/cfgplugins/gribifullscale.go:2266-2303 | parameters without a transit group validate and complete but leave routes without their group |
| `Targets.CollidingTargetLoops` | internal/cfgplugins/gribifullscale.go:2266-2303 | parameters with 36000 default groups and one default prefix validate and complete, but their group ids collide and a packet can circle for ever |
| `Election.IncrementDecrement` | internal/gribi/gribi.go:48-66 | Increment and Decrement are plus and minus one modulo 2^128 and undo each other |
| `Election.Client.Start` | internal/gribi/gribi.go:115-135 | starting announces id 1 |
| `Election.Client.LearnElectionID` | internal/gribi/gribi.go:396-408 | learning announces id 1, returns the server's id and keeps the client's |
| `Election.Client.UpdateElectionID` | internal/gribi/gribi.go:158-163 | the client holds the announced id; the server keeps the highest |
| `Election.Client.BecomeLeader` | internal/gribi/gribi.go:165-170 | the client holds the successor of the server's id, which the server takes over unless it was at 2^128 - 1 |
| `Election.LeaderOutranks` | internal/gribi/gribi.go:420-428 | over any run an uninterrupted BecomeLeader returns an id above everything announced before, unless the server is at 2^128 - 1 |
| `Election.SuccessiveLeaders` | internal/gribi/gribi.go:420-428 | successive leaders strictly outrank each other exactly while ids are left |
| `Election.PromotionOutranksIff` | internal/gribi/gribi.go:396-428 | in any interleaving a promotion announces an id above every id announced before exactly when nobody moved the server's id since it was learned and that id is below 2^128 - 1 |
| `NeighborScale.IncrementIP` | internal/cfgplugins/bgp.go:1575-1599 | fails exactly on an unparsable address, and otherwise prints the bytes of the sum without leading zeros, or nothing when they have the wrong width |
| `NeighborScale.IncrementIff` | internal/cfgplugins/bgp.go:1575-1599 | the result is the address that many further on in the same family if and only if the sum fills the family's width |
| `NeighborScale.IncrementComposes` | internal/cfgplugins/bgp.go:1575-1599 | counting on from a full-width result is counting by the sum |
| `NeighborScale.LeadingZeroIsLost` | internal/cfgplugins/bgp.go:1590-1598 | 0.0.0.1 plus one prints as no address |
| `NeighborScale.BuildNeighbors` | internal/cfgplugins/bgp.go:1446-1483 | the neighbour list, IPv4 before IPv6 per peer, with AS numbers counting up modulo 2^32; fatal exactly when there is a peer and a given address does not parse; for every configuration on which the source's loop ends |
| `NeighborScale.NeighborAt` | internal/cfgplugins/bgp.go:1446-1483 | the neighbours of peer i by position: each family with its own AS number, counting up, its own peer group and its own address |
| `NeighborScale.AddressesRightIff` | internal/cfgplugins/bgp.go:1446-1483 | all n neighbours of a port have the right address if and only if the first and the last fill the width |
| `NeighborScale.NeighborsDistinct` | internal/cfgplugins/bgp.go:1446-1483 | under that condition all addresses of a configuration are distinct, over both families |
| `NeighborScale.BuildNeighborMap` | internal/cfgplugins/bgp.go:1549-1565 | the map in which the last neighbour with an address has it |
| `NeighborScale.ConfigurePeers` | internal/cfgplugins/bgp.go:1529-1565 | the neighbours of all configurations in one map, later ones replacing earlier ones; fatal exactly when some configuration is |
| `NeighborScale.OneEntryEachIff` | internal/cfgplugins/bgp.go:1535-1565 | for configurations whose addresses fit, the map has one entry per listed neighbour if and only if the address ranges of any two configurations are disjoint in each family |
| `FlagLists.UintList.String` | internal/cfgplugins/interface.go:139-146 | prints the numbers in decimal with commas |
| `FlagLists.UintList.Set` | internal/cfgplugins/interface.go:148-158 | appends the longest prefix of parts that parse, and succeeds exactly when all do |
| `FlagLists.PrintParse` | internal/cfgplugins/interface.go:202-220 | setting from a printed list appends exactly that list, for every list but the empty one, which fails and appends nothing |
| `FlagLists.PrintedAcceptedIff` | internal/cfgplugins/interface.go:148-158 | a printed list is accepted if and only if it is not empty and every number fits the width |
| `FlagLists.ParsePrintIff` | internal/cfgplugins/interface.go:202-220 | printing what was set gives the string back if and only if every number was written without leading zeros |
| `CoreFiles.Checker.Check` | internal/core/core.go:102-117 | a successful check reports the files the last successful one did not see and remembers the new answer; a failed one returns its error and changes nothing |
| `CoreFiles.FailuresChangeNothing` | internal/core/core.go:102-117 | over a run of checks only the last success is remembered |
| `CoreFiles.ReportedOnceIff` | internal/core/core.go:109-116 | no file is reported twice if and only if no file that went away comes back |
| `CoreFiles.ReportsAddUp` | internal/core/core.go:109-116 | while files are never removed the reports are disjoint and add up to the latest answer |
| `CoreFiles.AnyOrderCollects` | internal/core/core.go:124-149 | when devices of the same name have the same report, the map ends up with every device's report, whatever the interleaving of the goroutines |
| `CoreFiles.OrderIndependentIff` | internal/core/core.go:124-149 | for every list of devices, all complete interleavings end in the same map of files and statuses if and only if any two devices of the same name have the same report |
| `CoreFiles.SameReportIff` | internal/core/core.go:131-144 | two devices of the same name have the same report if and only if both fail with the same error or both find the same new files |
| `CoreFiles.Verdict` | internal/core/core.go:201-217 | fails exactly when some report holds a file |
| `CoreFiles.VerdictIff` | internal/core/core.go:124-217 | under every interleaving the verdict is that some device has a new file, if and only if either none has, or all devices of some name have |
| `CoreFiles.SessionVerdictIff` | internal/core/core.go:124-217 | under every interleaving a run fails exactly when on some device the last check succeeded and holds a file the first did not, if and only if either that is so of no device, or it is so of all devices of some name |

## Left out

- gNMI, gNOI, gRIBI and OTG sessions, packet capture, ARP, reboot, timing and polling: replaced by the routing information base, the set of VLANs that are up, and answers given as parameters.
- A modify request that the device does not acknowledge in time, which stops a run in the middle of a builder's entries.
- Vendor checks and deviations: boolean parameters, where they change what is computed.
- VRF names: a datatype; the letters appended to the encap VRF names are not modelled.
- Machine integers: counts are unbounded, so a product or sum of counts beyond 64 bits is not modelled; bytes, 16, 32, 64 and 128-bit values are, where the code wraps or checks them.
- Ports other than VLAN subinterfaces of port 2, MAC addresses, frame sizes and the IMIX profile.
- A tunnel header copies the DSCP of what it wraps, and a decapsulated packet keeps its own: an assumption about the device. Protocol numbers 4 and 41 are those of section 3.1 of RFC 2003 and section 3.5 of RFC 4213.
- A backup group's own backup: one level is modelled, and no programmed group needs more.
- Routes other than the programmed ones, and the links of port 1.
- EncapDecapBuilder.BuildDecapEntries: the text of an entry from 1024 on, whose second octet is no byte, is kept as a number of more than 32 bits, which no packet carries; whether the device refuses such an entry is not modelled.
- NeighborScale.BuildNeighbors: 2^32 - 1 peers with addresses that parse, where the 32-bit loop counter wraps around and the source's loop does not end.
- EndToEnd.EndToEndIff: the address plan is a hypothesis (at most 27 encap VRFs, at most 1024 decap entries, transit prefixes below the decap prefixes, link addresses below the customer addresses).
- NeighborScale.OneEntryEachIff: configurations whose addresses fill their width; NeighborScale.AddressesRightIff says exactly which those are.
- Rib.InstalledIsLast: that a device replaces an installed entry by a later one with the same key is an assumption about the device; the source only builds the entries.
- Ids.IdsDistinctIff and the results on top of it: runs that complete; runs that stop early are covered by Programming.PushedClosedIff only.
- Termination.ForwardingTerminates: disjoint ids are a hypothesis. Loops.CollidingIdsLoop shows that it cannot be dropped; which other collisions loop is not decided.
- CoreFiles.OrderIndependentIff: the status quotes a device name between quotation marks; escapes inside the name are not modelled.
- ValidateCapturedPackets: only the expectation recorded for each flow is modelled, and for every packet. The check itself picks a representative flow by map order, compares the expected outer source with the packet's destination (internal/cfgplugins/gribifullscale.go:2066), and asks for protocol 4 although an IPv6 customer packet leaves with 41, so the results do not say that the test passes.
- VerifyFIBProgrammed, VerifyHierarchicalResolution and ValidateGRIBIResults: comparisons of device answers.
- TargetOpticalPowerList: floating-point printing and parsing.
- trafficPolicyCliConfig and the other policy-forwarding, BGP, QoS and interface builders: text or field assignment.
- internal/encapfrr/base.go: fixed tables.
- createReport and the file patterns of the core-file validator: text.
