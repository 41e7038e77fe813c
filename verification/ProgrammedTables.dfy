/**
 * What a completed run with disjoint ids leaves under each id and each route, in the terms
 * forwarding needs: which groups a VRF's lookups lead to, and which next-hops a group holds.
 */
module ProgrammedTables {
  import opened GoInts
  import opened IpUtil
  import opened Rib
  import opened Params
  import opened NhgPartition
  import opened RoundRobin
  import opened Integrity
  import opened DefaultVrfBuilder
  import opened StaticGroups
  import opened RepairBuilder
  import opened TransitBuilder
  import opened EncapDecapBuilder
  import opened FullRun
  import opened Ids
  import opened Forwarding

  /** Default prefixes end before the link addresses of port 2 begin. */
  predicate DefaultPrefixesBelowLinks(p: ScaleParams) {
    DEFAULT_PREFIX_START + p.numDefaultIPv4 <= ATE_PORT2_START
  }

  /** A completed run with disjoint ids, closed references and a sane default address plan. */
  ghost predicate Programmed(p: ScaleParams, multi: bool) {
    && Completes(p)
    && p.numRepairNHG > 0 && NhPlan(p, multi) && NhgPlan(p)
    && !DanglingCounts(p)
    && DefaultPrefixesBelowLinks(p)
  }

  /** The device after the run, with some of its VLANs up. */
  ghost function SwitchOf(p: ScaleParams, multi: bool, up: set<nat>, track: bool): Switch
    requires Programmed(p, multi)
  {
    CompletesFacts(p);
    Switch(ProgrammedTable(p, multi), p.numPort2VLANs, up, track)
  }

  // Next-hops by id.

  lemma NhIs(p: ScaleParams, multi: bool, id: nat)
    requires Programmed(p, multi)
    ensures Get(ProgrammedTable(p, multi).nhs, id) == TableNh(p, multi, id)
    ensures Get(ProgrammedTable(p, multi).nhgs, id) == TableNhg(p, multi, id)
  {
    hide ProgrammedTable, TableNh, TableNhg, TableRoute, Completes;
    ProgrammedTableIs(p, multi, id, DefaultVrf, Prefix(V4(0), 0));
  }

  lemma SideCounts(p: ScaleParams, multi: bool)
    requires Programmed(p, multi)
    ensures Built(Primary(p)) && Primary(p).nhCount >= 1 && Primary(p).nhgCount >= 1
    ensures SideSafe(Primary(p)) && SideSafe(Backup(p))
    ensures Built(Backup(p)) <==> p.numTransitNH >= 2 && p.numTransitNHG >= 2
    ensures Built(Backup(p)) ==> Backup(p).nhCount >= 1 && Backup(p).nhgCount >= 1
  {
    hide ValidParams, AddressesFit, PrimaryPrefixes, BackupPrefixes, NhPlan, NhgPlan;
    CompletesFacts(p);
    BackupSideShape(p);
  }

  lemma DefaultNhIs(p: ScaleParams, multi: bool, i: nat)
    requires Programmed(p, multi) && i < NhPart(p)
    ensures TableNh(p, multi, NH_BASE_DEFAULT + i) == Some(ToAddress(AteIp(PrimaryVlan(p, i))))
    ensures TableNh(p, multi, NH_BASE_DEFAULT + NhPart(p) + i) == Some(ToAddress(AteIp(BackupVlan(p, i))))
  {
    hide ValidParams, CountsSafe, AddressesFit, NhgPlan, DanglingCounts, SideNextHops, EncapNextHops, Half,
         FirstTunnel, PrimaryVlan, BackupVlan, SideSafe;
    CompletesFacts(p);
    SideCounts(p, multi);
  }

  lemma StaticNhIs(p: ScaleParams, multi: bool)
    requires Programmed(p, multi)
    ensures TableNh(p, multi, STATIC_S1_NHG) == Some(S1_NEXT_HOP)
    ensures TableNh(p, multi, STATIC_S2_NHG) == Some(S2_NEXT_HOP)
  {
    hide ValidParams, CountsSafe, AddressesFit, NhgPlan, DanglingCounts, SideNextHops, EncapNextHops, Half,
         FirstTunnel, PrimaryNextHops, BackupNextHops, SideSafe;
    CompletesFacts(p);
    SideCounts(p, multi);
  }

  lemma TunnelNhIs(p: ScaleParams, multi: bool, k: nat)
    requires Programmed(p, multi) && k < FirstTunnel(p.numRepairNHG, multi, p.numRepairNHG)
    ensures TableNh(p, multi, NH_BASE_REPAIR + k) == Some(Tunnel(k))
  {
    hide ValidParams, CountsSafe, AddressesFit, NhgPlan, DanglingCounts, SideNextHops, EncapNextHops, Half,
         FirstTunnel, PrimaryNextHops, BackupNextHops, SideSafe, Tunnel;
    CompletesFacts(p);
    SideCounts(p, multi);
  }

  lemma PrimarySideNhIs(p: ScaleParams, multi: bool, k: nat)
    requires Programmed(p, multi) && k < Half(p.numTransitNH)
    ensures TableNh(p, multi, NH_BASE_TRANSIT + k) == Some(ToAddress(V4(DEFAULT_PREFIX_START + k % Ipv4Part(p))))
  {
    hide ValidParams, CountsSafe, AddressesFit, NhgPlan, DanglingCounts, EncapNextHops, Half, FirstTunnel,
         PrimaryNextHops, BackupNextHops, SideSafe;
    CompletesFacts(p);
    SideCounts(p, multi);
  }

  lemma BackupSideNhIs(p: ScaleParams, multi: bool, k: nat)
    requires Programmed(p, multi) && Built(Backup(p)) && k < Backup(p).nhCount
    ensures TableNh(p, multi, Backup(p).baseNH + k) == Some(ToAddress(V4(BackupStart(p) + k % Ipv4Part(p))))
  {
    hide ValidParams, CountsSafe, AddressesFit, NhgPlan, DanglingCounts, EncapNextHops, Half, FirstTunnel,
         PrimaryNextHops, BackupNextHops, SideSafe, BackupStart;
    CompletesFacts(p);
    SideCounts(p, multi);
  }

  lemma EncapNhIs(p: ScaleParams, multi: bool)
    requires Programmed(p, multi)
    ensures p.numUniqueEncapNH >= 0
    ensures TableNh(p, multi, FALLBACK_NH) == Some(ToVrf(DefaultVrf))
    ensures forall k :: 0 <= k < p.numUniqueEncapNH ==>
              TableNh(p, multi, FIRST_ENCAP_NH + k) == Some(EncapNextHops(p)[k])
  {
    hide ValidParams, CountsSafe, AddressesFit, NhgPlan, DanglingCounts, SideNextHops, EncapNextHops, Half,
         FirstTunnel, PrimaryNextHops, BackupNextHops, SideSafe;
    CompletesFacts(p);
    SideCounts(p, multi);
  }

  lemma DecapNhIs(p: ScaleParams, multi: bool, k: nat)
    requires Programmed(p, multi) && k < p.numDecapEntries
    ensures TableNh(p, multi, NH_BASE_DECAP + k) == Some(Decap(None))
    ensures TableNhg(p, multi, NHG_BASE_DECAP + k) == Some(DecapGroup(k))
  {
    hide ValidParams, CountsSafe, AddressesFit, NhPlan, NhgPlan, DanglingCounts, SideNextHops, EncapNextHops, Half,
         FirstTunnel, PrimaryNextHops, BackupNextHops, SideSafe, DecapGroup, SideGroups;
    CompletesFacts(p);
  }

  // Groups by id.

  lemma DefaultGroupIs(p: ScaleParams, multi: bool, i: nat)
    requires Programmed(p, multi) && i < NhgPart(p)
    ensures TableNhg(p, multi, NHG_BASE_DEFAULT + i) == Some(PrimaryGroups(p)[i])
    ensures TableNhg(p, multi, NHG_BASE_DEFAULT + NhgPart(p) + i) == Some(BackupGroups(p)[i])
  {
    hide ValidParams, CountsSafe, AddressesFit, NhPlan, DanglingCounts, SideGroups, AllEncapGroups, Half,
         RepairGroups, PrimaryGroups, BackupGroups, SideSafe;
    CompletesFacts(p);
    SideCounts(p, multi);
  }

  lemma StaticGroupIs(p: ScaleParams, multi: bool)
    requires Programmed(p, multi)
    ensures TableNhg(p, multi, STATIC_S1_NHG) == Some(S1_GROUP)
    ensures TableNhg(p, multi, STATIC_S2_NHG) == Some(S2_GROUP)
  {
    hide ValidParams, CountsSafe, AddressesFit, NhPlan, DanglingCounts, SideGroups, AllEncapGroups, Half,
         RepairGroups, PrimaryGroups, BackupGroups, SideSafe;
    CompletesFacts(p);
    SideCounts(p, multi);
  }

  lemma RepairGroupIs(p: ScaleParams, multi: bool, i: nat)
    requires Programmed(p, multi) && i < p.numRepairNHG
    ensures TableNhg(p, multi, NHG_BASE_REPAIR + i) == Some(RepairGroup(p.numRepairNHG, multi, STATIC_S2_NHG, i))
  {
    hide ValidParams, CountsSafe, AddressesFit, NhPlan, DanglingCounts, SideGroups, AllEncapGroups, Half,
         RepairGroup, PrimaryGroups, BackupGroups, SideSafe;
    CompletesFacts(p);
    SideCounts(p, multi);
  }

  lemma PrimarySideGroupIs(p: ScaleParams, multi: bool, i: nat)
    requires Programmed(p, multi) && i < Half(p.numTransitNHG)
    ensures TableNhg(p, multi, NHG_BASE_TRANSIT + i) == Some(SideGroups(p, Primary(p))[i])
  {
    hide ValidParams, CountsSafe, AddressesFit, NhPlan, DanglingCounts, SideGroups, AllEncapGroups, Half,
         RepairGroups, PrimaryGroups, BackupGroups, SideSafe;
    CompletesFacts(p);
    SideCounts(p, multi);
  }

  lemma BackupSideGroupIs(p: ScaleParams, multi: bool, i: nat)
    requires Programmed(p, multi) && Built(Backup(p)) && i < Backup(p).nhgCount
    ensures TableNhg(p, multi, Backup(p).baseNHG + i) == Some(SideGroups(p, Backup(p))[i])
  {
    hide ValidParams, CountsSafe, AddressesFit, NhPlan, DanglingCounts, SideGroups, AllEncapGroups, Half,
         RepairGroups, PrimaryGroups, BackupGroups, SideSafe;
    CompletesFacts(p);
    SideCounts(p, multi);
  }

  lemma EncapGroupIs(p: ScaleParams, multi: bool)
    requires Programmed(p, multi)
    ensures TableNhg(p, multi, FALLBACK_NHG) == Some(FALLBACK_GROUP)
    ensures forall i :: 0 <= i < p.numEncapDefaultNHG ==>
              TableNhg(p, multi, FIRST_ENCAP_NHG + i) == Some(EncapGroups(p)[i])
  {
    hide ValidParams, CountsSafe, AddressesFit, NhPlan, DanglingCounts, SideGroups, EncapGroups, Half, RepairGroups,
         PrimaryGroups, BackupGroups, SideSafe;
    CompletesFacts(p);
    SideCounts(p, multi);
  }

  // Shape of the groups.

  /** Hops within a range, one of them weighted, and a given backup. */
  ghost predicate GroupOver(g: Group, lo: nat, n: nat, backup: Option<nat>) {
    && HopsWithin(g, lo, n)
    && g.backup == backup
    && g.hops != [] && g.hops[|g.hops| - 1].weight > 0
  }

  lemma GroupsOverShape(numNHG: nat, lb: seq<LbParam>, wt: seq<WeightParam>, n: nat, baseNH: nat,
                        backup: Option<nat>, i: nat)
    requires ValidLoadBalance(lb) && ValidWeight(wt) && n > 0 && i < numNHG
    ensures GroupOver(GroupsOver(baseNH, n, CallWeights(numNHG, lb, wt, n), backup)[i], baseNH, n, backup)
  {
    hide CallWeights, ValidLoadBalance, ValidWeight, Slot;
    var ws := CallWeights(numNHG, lb, wt, n);
    CallWeightsShape(numNHG, lb, wt, n, i);
    CallWeightsAllocatable(numNHG, lb, wt, n);
    GroupsOverWithin(baseNH, n, ws, backup);
    assert HopsWithin(GroupsOver(baseNH, n, ws, backup)[i], baseNH, n);
  }

  lemma DefaultGroupShape(p: ScaleParams, i: nat)
    requires ValidParams(p) && i < NhgPart(p)
    ensures GroupOver(PrimaryGroups(p)[i], NH_BASE_DEFAULT, NhPart(p), None)
    ensures GroupOver(BackupGroups(p)[i], NH_BASE_DEFAULT + NhPart(p), NhPart(p), None)
  {
    hide CallWeights, GroupsOver, GroupOver, Half, ValidLoadBalance, ValidWeight;
    GroupsOverShape(NhgPart(p), p.defaultNHGLoadBalance, p.defaultNHGWeight, NhPart(p), NH_BASE_DEFAULT, None, i);
    GroupsOverShape(NhgPart(p), p.defaultNHGLoadBalance, p.defaultNHGWeight, NhPart(p),
                    NH_BASE_DEFAULT + NhPart(p), None, i);
  }

  lemma SideGroupShape(p: ScaleParams, s: Side, i: nat)
    requires ValidParams(p) && s.nhCount > 0 && i < s.nhgCount
    ensures GroupOver(SideGroups(p, s)[i], s.baseNH, s.nhCount, Some(s.backup))
  {
    hide CallWeights, GroupsOver, GroupOver, ValidLoadBalance, ValidWeight;
    GroupsOverShape(s.nhgCount, p.transitNHGLoadBalance, p.transitNHGWeight, s.nhCount, s.baseNH, Some(s.backup), i);
  }

  lemma EncapGroupShape(p: ScaleParams, i: nat)
    requires ValidParams(p) && i < p.numEncapDefaultNHG
    ensures HopsWithin(EncapGroups(p)[i], FIRST_ENCAP_NH, Max(p.numUniqueEncapNH, 0))
    ensures EncapGroups(p)[i].backup == None
    ensures p.numUniqueEncapNH > 0 ==> GroupOver(EncapGroups(p)[i], FIRST_ENCAP_NH, p.numUniqueEncapNH, None)
  {
    hide ValidLoadBalance, ValidWeight, WeightsUpTo, CallWeights, Slot;
    EncapGroupsWithin(p);
    assert HopsWithin(EncapGroups(p)[i], FIRST_ENCAP_NH, Max(p.numUniqueEncapNH, 0));
    if p.numUniqueEncapNH > 0 {
      EncapWeightPositive(p, p.numEncapVRFs, i);
    }
  }

  lemma {:induction false} EncapWeightPositive(p: ScaleParams, v: nat, i: nat)
    requires ValidParams(p) && v <= p.numEncapVRFs && p.numUniqueEncapNH > 0 && i < |WeightsUpTo(p, v)|
    ensures var w := WeightsUpTo(p, v)[i]; |w| > 0 && w[|w| - 1] > 0
    decreases v
  {
    hide ValidLoadBalance, ValidWeight, CallWeights, SliceStart, SliceCount;
    if v > 0 {
      WeightsUpToStep(p, v - 1);
      SlicesTile(p, v - 1);
      var front := WeightsUpTo(p, v - 1);
      if i < |front| {
        EncapWeightPositive(p, v - 1, i);
      } else {
        CallWeightsShape(SliceCount(p, v - 1), p.encapNHGLoadBalance, p.encapNHGWeight, p.numUniqueEncapNH,
                         i - |front|);
      }
    }
  }
}
