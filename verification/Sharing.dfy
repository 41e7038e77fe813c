/**
 * How the layers of the programmed tables share what they point at: encap next-hops the
 * tunnels, transit next-hops the default prefixes, default next-hops the VLANs, and the
 * prefixes of every VRF its groups.  Each is dealt out in turn, so each target gets its fair
 * share and no other target gets anything.
 */
module Sharing {
  import opened GoInts
  import opened IpUtil
  import opened Rib
  import opened Params
  import opened RoundRobin
  import opened Fairness
  import opened DefaultVrfBuilder
  import opened RepairBuilder
  import opened TransitBuilder
  import opened EncapDecapBuilder
  import opened FullRun
  import opened Ids
  import opened ProgrammedTables
  import opened DecapTable

  // Counting.

  function NhAt(t: Table, base: nat, k: nat): Option<NextHop> {
    Get(t.nhs, base + k)
  }

  /** The group of the k-th host prefix of a VRF from an address on. */
  function RouteAt(t: Table, vrf: Vrf, start: Addr, k: nat): Option<nat> {
    Get(t.routes, (vrf, HostPrefix(Plus(start, k))))
  }

  /** Of the ids base .. base + n - 1, those that hold a next-hop. */
  function NhsThat(t: Table, base: nat, n: nat, nh: NextHop): nat {
    if n == 0 then 0 else NhsThat(t, base, n - 1, nh) + if NhAt(t, base, n - 1) == Some(nh) then 1 else 0
  }

  /** Of the n host prefixes of a VRF from an address on, those that point at a group. */
  function RoutesTo(t: Table, vrf: Vrf, start: Addr, n: nat, g: nat): nat {
    if n == 0 then 0
    else RoutesTo(t, vrf, start, n - 1, g)
         + if RouteAt(t, vrf, start, n - 1) == Some(g) then 1 else 0
  }

  /** Target x of m, when n are dealt out in turn. */
  function Dealt(n: nat, m: nat, x: nat): nat {
    if m > 0 && x < m then FairShare(n, m, x) else 0
  }

  lemma {:induction false} HitsBelow(n: nat, m: nat, x: nat)
    requires m > 0 && x >= m
    ensures Hits(n, m, x) == 0
  {
    if n > 0 {
      HitsBelow(n - 1, m, x);
    }
  }

  lemma HitsDealt(n: nat, m: nat, x: nat)
    requires m > 0
    ensures Hits(n, m, x) == Dealt(n, m, x)
  {
    if x < m {
      HitsClosedForm(n, m, x);
    } else {
      HitsBelow(n, m, x);
    }
  }

  /** Next-hop k is the (k mod m)-th of a family whose members differ. */
  lemma {:induction false} NhsDealt(t: Table, base: nat, n: nat, m: nat, family: nat -> NextHop, x: nat)
    requires m > 0
    requires forall k: nat :: k < n ==> NhAt(t, base, k) == Some(family(k % m))
    requires forall k: nat :: family(k) == family(x) ==> k == x
    ensures NhsThat(t, base, n, family(x)) == Hits(n, m, x)
  {
    if n > 0 {
      NhsDealt(t, base, n - 1, m, family, x);
      assert NhAt(t, base, n - 1) == Some(family((n - 1) % m));
    }
  }

  lemma {:induction false} RoutesDealt(t: Table, vrf: Vrf, start: Addr, n: nat, m: nat, base: nat, x: nat)
    requires m > 0
    requires forall k: nat :: k < n ==> RouteAt(t, vrf, start, k) == Some(base + k % m)
    ensures RoutesTo(t, vrf, start, n, base + x) == Hits(n, m, x)
  {
    if n > 0 {
      RoutesDealt(t, vrf, start, n - 1, m, base, x);
      assert RouteAt(t, vrf, start, n - 1) == Some(base + (n - 1) % m);
    }
  }

  // Encap next-hops and tunnels.

  function TunnelTo(x: nat): NextHop {
    Encap(V4(OUTER_SRC_111), V4(TRANSIT_111_START + x), TransitVrf111)
  }

  lemma EncapHopIs(p: ScaleParams, multi: bool, k: nat)
    requires Programmed(p, multi) && k < p.numUniqueEncapNH
    ensures p.numTransitIPv4 > 0
    ensures NhAt(ProgrammedTable(p, multi), FIRST_ENCAP_NH, k) ==
            Some(TunnelTo(k % Min(p.numUniqueEncapNH, p.numTransitIPv4)))
  {
    hide ProgrammedTable, TableNh, TableNhg, Completes, NhPlan, NhgPlan;
    EncapNhIs(p, multi);
    NhIs(p, multi, FIRST_ENCAP_NH + k);
    assert TableNh(p, multi, FIRST_ENCAP_NH + k) == Some(EncapNextHops(p)[k]);
    CompletesFacts(p);
  }

  /**
   * n encap next-hops share the first min(n, numTransitIPv4) prefixes of TE_VRF_111 as tunnel
   * destinations, fairly, and use no other.
   */
  lemma TunnelsShared(p: ScaleParams, multi: bool, x: nat)
    requires Programmed(p, multi)
    ensures p.numUniqueEncapNH >= 0 && p.numTransitIPv4 > 0
    ensures NhsThat(ProgrammedTable(p, multi), FIRST_ENCAP_NH, p.numUniqueEncapNH, TunnelTo(x)) ==
            Dealt(p.numUniqueEncapNH, Min(p.numUniqueEncapNH, p.numTransitIPv4), x)
  {
    hide ProgrammedTable, Completes, NhPlan, NhgPlan, Dealt;
    CompletesFacts(p);
    var t, n, m := ProgrammedTable(p, multi), p.numUniqueEncapNH, Min(p.numUniqueEncapNH, p.numTransitIPv4);
    if n > 0 {
      forall k: nat | k < n
        ensures NhAt(t, FIRST_ENCAP_NH, k) == Some(TunnelTo(k % m))
      {
        EncapHopIs(p, multi, k);
      }
      NhsDealt(t, FIRST_ENCAP_NH, n, m, TunnelTo, x);
      HitsDealt(n, m, x);
    } else {
      NothingDealt(x);
    }
  }

  lemma NothingDealt(x: nat)
    ensures Dealt(0, 0, x) == 0
  {
  }

  /** All tunnels differ exactly when there are no more encap next-hops than TE_VRF_111 prefixes. */
  lemma TunnelsDistinctIff(p: ScaleParams, multi: bool)
    requires Programmed(p, multi)
    ensures (forall k: nat, m: nat :: k < m < p.numUniqueEncapNH ==>
               NhAt(ProgrammedTable(p, multi), FIRST_ENCAP_NH, k) !=
               NhAt(ProgrammedTable(p, multi), FIRST_ENCAP_NH, m)) <==>
            p.numUniqueEncapNH <= p.numTransitIPv4
  {
    hide ProgrammedTable, Completes, NhPlan, NhgPlan;
    CompletesFacts(p);
    var t, n, m := ProgrammedTable(p, multi), p.numUniqueEncapNH, p.numTransitIPv4;
    if n <= m {
      forall i: nat, j: nat | i < j < n
        ensures NhAt(t, FIRST_ENCAP_NH, i) != NhAt(t, FIRST_ENCAP_NH, j)
      {
        EncapHopIs(p, multi, i);
        EncapHopIs(p, multi, j);
        ModSmall(i, n);
        ModSmall(j, n);
      }
    } else {
      EncapHopIs(p, multi, 0);
      EncapHopIs(p, multi, m);
      ModSmall(0, m);
      DivMod(m, m, 1, 0);
    }
  }

  // Transit next-hops and default prefixes, default next-hops and VLANs.

  function PrefixFrom(start: nat, x: nat): NextHop { ToAddress(V4(start + x)) }

  function LinkTo(v: nat): NextHop { ToAddress(V4(ATE_PORT2_START + PORT_STEP * v)) }

  /** The next-hops of TE_VRF_111 share the primary default prefixes, those of TE_VRF_222 the backup ones. */
  lemma TransitHopsShared(p: ScaleParams, multi: bool, x: nat)
    requires Programmed(p, multi)
    ensures NhsThat(ProgrammedTable(p, multi), NH_BASE_TRANSIT, Half(p.numTransitNH),
                    PrefixFrom(DEFAULT_PREFIX_START, x)) ==
            Dealt(Half(p.numTransitNH), Ipv4Part(p), x)
    ensures p.numTransitNH >= 2 && p.numTransitNHG >= 2 ==>
              p.numTransitNH > Half(p.numTransitNH) &&
              NhsThat(ProgrammedTable(p, multi), NH_BASE_TRANSIT + Half(p.numTransitNH),
                      p.numTransitNH - Half(p.numTransitNH), PrefixFrom(BackupStart(p), x)) ==
              Dealt(p.numTransitNH - Half(p.numTransitNH), Ipv4Part(p), x)
  {
    hide ProgrammedTable, TableNh, TableNhg, Completes, NhPlan, NhgPlan, Dealt, Half, BackupStart, PrimaryPrefixes,
         BackupPrefixes;
    SideCounts(p, multi);
    var t, m := ProgrammedTable(p, multi), Ipv4Part(p);
    forall k: nat | k < Half(p.numTransitNH)
      ensures NhAt(t, NH_BASE_TRANSIT, k) == Some(PrefixFrom(DEFAULT_PREFIX_START, k % m))
    {
      PrimarySideNhIs(p, multi, k);
      NhIs(p, multi, NH_BASE_TRANSIT + k);
    }
    NhsDealt(t, NH_BASE_TRANSIT, Half(p.numTransitNH), m, (y: nat) => PrefixFrom(DEFAULT_PREFIX_START, y), x);
    HitsDealt(Half(p.numTransitNH), m, x);
    var b := Backup(p);
    if Built(b) {
      forall k: nat | k < b.nhCount
        ensures NhAt(t, b.baseNH, k) == Some(PrefixFrom(BackupStart(p), k % m))
      {
        BackupSideNhIs(p, multi, k);
        NhIs(p, multi, b.baseNH + k);
      }
      NhsDealt(t, b.baseNH, b.nhCount, m, (y: nat) => PrefixFrom(BackupStart(p), y), x);
      HitsDealt(b.nhCount, m, x);
    }
  }

  lemma PrimaryLinkAt(p: ScaleParams, multi: bool, k: nat)
    requires Programmed(p, multi) && k < NhPart(p)
    ensures NhAt(ProgrammedTable(p, multi), NH_BASE_DEFAULT, k) == Some(LinkTo(k % PrimaryVlans(p)))
  {
    hide ProgrammedTable, TableNh, TableNhg, Completes, NhPlan, NhgPlan, Half, PrimaryVlans;
    DefaultNhIs(p, multi, k);
    NhIs(p, multi, NH_BASE_DEFAULT + k);
  }

  lemma BackupLinkAt(p: ScaleParams, multi: bool, k: nat)
    requires Programmed(p, multi) && k < NhPart(p) && PrimaryVlans(p) < p.numPort2VLANs
    ensures NhAt(ProgrammedTable(p, multi), NH_BASE_DEFAULT + NhPart(p), k) ==
            Some(LinkTo(PrimaryVlans(p) + k % (p.numPort2VLANs - PrimaryVlans(p))))
  {
    hide ProgrammedTable, TableNh, TableNhg, Completes, NhPlan, NhgPlan, Half, PrimaryVlans;
    DefaultNhIs(p, multi, k);
    NhIs(p, multi, NH_BASE_DEFAULT + NhPart(p) + k);
  }

  /** The default next-hops share the VLANs: the first half the primary ones, the second the backup ones. */
  lemma VlansShared(p: ScaleParams, multi: bool, v: nat)
    requires Programmed(p, multi)
    ensures PrimaryVlans(p) <= p.numPort2VLANs
    ensures NhsThat(ProgrammedTable(p, multi), NH_BASE_DEFAULT, NhPart(p), LinkTo(v)) ==
            Dealt(NhPart(p), PrimaryVlans(p), v)
    ensures p.numPort2VLANs >= 2 ==>
              NhsThat(ProgrammedTable(p, multi), NH_BASE_DEFAULT + NhPart(p), NhPart(p), LinkTo(PrimaryVlans(p) + v)) ==
              Dealt(NhPart(p), p.numPort2VLANs - PrimaryVlans(p), v)
  {
    hide ProgrammedTable, Completes, NhPlan, NhgPlan, Dealt, Half, PrimaryVlans, NhAt, NhsThat;
    VlanCounts(p, multi);
    var t, n, m := ProgrammedTable(p, multi), NhPart(p), PrimaryVlans(p);
    forall k: nat | k < n
      ensures NhAt(t, NH_BASE_DEFAULT, k) == Some(LinkTo(k % m))
    {
      PrimaryLinkAt(p, multi, k);
    }
    NhsDealt(t, NH_BASE_DEFAULT, n, m, LinkTo, v);
    HitsDealt(n, m, v);
    if p.numPort2VLANs >= 2 {
      var b := p.numPort2VLANs - m;
      var family := (y: nat) => LinkTo(m + y);
      forall k: nat | k < n
        ensures NhAt(t, NH_BASE_DEFAULT + n, k) == Some(family(k % b))
      {
        BackupLinkAt(p, multi, k);
      }
      NhsDealt(t, NH_BASE_DEFAULT + n, n, b, family, v);
      HitsDealt(n, b, v);
    }
  }

  lemma VlanCounts(p: ScaleParams, multi: bool)
    requires Programmed(p, multi)
    ensures 0 < PrimaryVlans(p) <= p.numPort2VLANs
    ensures p.numPort2VLANs >= 2 ==> PrimaryVlans(p) < p.numPort2VLANs
  {
    hide ValidParams, CountsSafe, AddressesFit, NhPlan, NhgPlan;
    CompletesFacts(p);
  }

  // Prefixes and groups.

  lemma HostRouteIs(p: ScaleParams, multi: bool, vrf: Vrf, start: Addr, k: nat)
    requires Programmed(p, multi)
    ensures RouteAt(ProgrammedTable(p, multi), vrf, start, k) == TableRoute(p, vrf, HostPrefix(Plus(start, k)))
  {
    hide ProgrammedTable, TableNh, TableNhg, TableRoute, Completes, NhPlan, NhgPlan;
    ProgrammedTableIs(p, multi, 0, vrf, HostPrefix(Plus(start, k)));
  }

  /** The n prefixes of a VRF from an address on share the m groups from base on. */
  ghost predicate SharesGroups(t: Table, vrf: Vrf, start: Addr, n: nat, base: nat, m: nat) {
    forall x: nat :: RoutesTo(t, vrf, start, n, base + x) == Dealt(n, m, x)
  }

  lemma RoutesShareGroups(t: Table, vrf: Vrf, start: Addr, n: nat, base: nat, m: nat)
    requires m > 0 && forall k: nat :: k < n ==> RouteAt(t, vrf, start, k) == Some(base + k % m)
    ensures SharesGroups(t, vrf, start, n, base, m)
  {
    hide RouteAt, RoutesTo, Hits, Dealt;
    forall x: nat
      ensures RoutesTo(t, vrf, start, n, base + x) == Dealt(n, m, x)
    {
      RoutesDealt(t, vrf, start, n, m, base, x);
      HitsDealt(n, m, x);
    }
  }

  /** The default prefixes; a single prefix has its backup group only. */
  lemma DefaultRoutesShared(p: ScaleParams, multi: bool)
    requires Programmed(p, multi)
    ensures p.numDefaultIPv4 >= 2 ==>
              SharesGroups(ProgrammedTable(p, multi), DefaultVrf, V4(DEFAULT_PREFIX_START), Ipv4Part(p),
                           NHG_BASE_DEFAULT, NhgPart(p))
    ensures SharesGroups(ProgrammedTable(p, multi), DefaultVrf, V4(BackupStart(p)), Ipv4Part(p),
                         NHG_BASE_DEFAULT + NhgPart(p), NhgPart(p))
  {
    hide ProgrammedTable, Completes, NhPlan, NhgPlan, Half, BackupStart, SharesGroups, TableRoute, RouteAt;
    var t := ProgrammedTable(p, multi);
    forall k: nat | k < Ipv4Part(p)
      ensures p.numDefaultIPv4 >= 2 ==>
                RouteAt(t, DefaultVrf, V4(DEFAULT_PREFIX_START), k) == Some(NHG_BASE_DEFAULT + k % NhgPart(p))
      ensures RouteAt(t, DefaultVrf, V4(BackupStart(p)), k) == Some(NHG_BASE_DEFAULT + NhgPart(p) + k % NhgPart(p))
    {
      HostRouteIs(p, multi, DefaultVrf, V4(DEFAULT_PREFIX_START), k);
      HostRouteIs(p, multi, DefaultVrf, V4(BackupStart(p)), k);
      DefaultTargetIs(p, k);
    }
    if p.numDefaultIPv4 >= 2 {
      RoutesShareGroups(t, DefaultVrf, V4(DEFAULT_PREFIX_START), Ipv4Part(p), NHG_BASE_DEFAULT, NhgPart(p));
    }
    RoutesShareGroups(t, DefaultVrf, V4(BackupStart(p)), Ipv4Part(p), NHG_BASE_DEFAULT + NhgPart(p), NhgPart(p));
  }

  lemma DefaultTargetIs(p: ScaleParams, k: nat)
    requires Completes(p) && k < Ipv4Part(p)
    ensures p.numDefaultIPv4 >= 2 ==>
              TableRoute(p, DefaultVrf, HostPrefix(Plus(V4(DEFAULT_PREFIX_START), k))) ==
              Some(NHG_BASE_DEFAULT + k % NhgPart(p))
    ensures TableRoute(p, DefaultVrf, HostPrefix(Plus(V4(BackupStart(p)), k))) ==
            Some(NHG_BASE_DEFAULT + NhgPart(p) + k % NhgPart(p))
  {
    hide Completes, Half, PrimaryTargets, BackupTargets, Cycle;
    CycleAt(NHG_BASE_DEFAULT, NhgPart(p), Ipv4Part(p), k);
    CycleAt(NHG_BASE_DEFAULT + NhgPart(p), NhgPart(p), Ipv4Part(p), k);
    DefaultTargetsAre(p);
  }

  lemma DefaultTargetsAre(p: ScaleParams)
    ensures PrimaryTargets(p) == Cycle(NHG_BASE_DEFAULT, NhgPart(p), Ipv4Part(p))
    ensures BackupTargets(p) == Cycle(NHG_BASE_DEFAULT + NhgPart(p), NhgPart(p), Ipv4Part(p))
  {
  }

  lemma CycleAt(base: nat, groups: nat, n: nat, k: nat)
    requires groups > 0 && k < n
    ensures Cycle(base, groups, n)[k] == base + k % groups
  {
  }

  /** TE_VRF_111, TE_VRF_222 where it is built, and REPAIR_VRF. */
  lemma TransitRoutesShared(p: ScaleParams, multi: bool)
    requires Programmed(p, multi)
    ensures p.numTransitIPv4 > 0 && p.numRepairIPv4 > 0 && p.numRepairNHG > 0
    ensures SharesGroups(ProgrammedTable(p, multi), TransitVrf111, V4(TRANSIT_111_START), p.numTransitIPv4,
                         NHG_BASE_TRANSIT, Half(p.numTransitNHG))
    ensures p.numTransitNH >= 2 && p.numTransitNHG >= 2 ==>
              p.numTransitNHG > Half(p.numTransitNHG) &&
              SharesGroups(ProgrammedTable(p, multi), TransitVrf222, V4(TRANSIT_222_START), p.numTransitIPv4,
                           NHG_BASE_TRANSIT + Half(p.numTransitNHG), p.numTransitNHG - Half(p.numTransitNHG))
    ensures SharesGroups(ProgrammedTable(p, multi), RepairVrf, V4(TRANSIT_111_START), p.numRepairIPv4,
                         NHG_BASE_REPAIR, p.numRepairNHG)
  {
    hide ProgrammedTable, Completes, NhPlan, NhgPlan, Half, SharesGroups, TableRoute, RouteAt, PrimaryPrefixes,
         BackupPrefixes;
    CompletesFacts(p);
    SideCounts(p, multi);
    var t := ProgrammedTable(p, multi);
    forall k: nat | k < p.numTransitIPv4
      ensures RouteAt(t, TransitVrf111, V4(TRANSIT_111_START), k) ==
              Some(NHG_BASE_TRANSIT + k % Half(p.numTransitNHG))
    {
      HostRouteIs(p, multi, TransitVrf111, V4(TRANSIT_111_START), k);
      TransitTargetIs(p, k);
    }
    RoutesShareGroups(t, TransitVrf111, V4(TRANSIT_111_START), p.numTransitIPv4, NHG_BASE_TRANSIT,
                      Half(p.numTransitNHG));
    var b := Backup(p);
    if Built(b) {
      forall k: nat | k < p.numTransitIPv4
        ensures RouteAt(t, TransitVrf222, V4(TRANSIT_222_START), k) == Some(b.baseNHG + k % b.nhgCount)
      {
        HostRouteIs(p, multi, TransitVrf222, V4(TRANSIT_222_START), k);
        TransitTargetIs(p, k);
      }
      RoutesShareGroups(t, TransitVrf222, V4(TRANSIT_222_START), p.numTransitIPv4, b.baseNHG, b.nhgCount);
    }
    forall k: nat | k < p.numRepairIPv4
      ensures RouteAt(t, RepairVrf, V4(TRANSIT_111_START), k) == Some(NHG_BASE_REPAIR + k % p.numRepairNHG)
    {
      HostRouteIs(p, multi, RepairVrf, V4(TRANSIT_111_START), k);
      RepairTargetIs(p, k);
    }
    RoutesShareGroups(t, RepairVrf, V4(TRANSIT_111_START), p.numRepairIPv4, NHG_BASE_REPAIR, p.numRepairNHG);
  }

  lemma TransitTargetIs(p: ScaleParams, k: nat)
    requires Completes(p) && k < p.numTransitIPv4
    ensures TableRoute(p, TransitVrf111, HostPrefix(Plus(V4(TRANSIT_111_START), k))) ==
            Some(NHG_BASE_TRANSIT + k % Half(p.numTransitNHG))
    ensures Built(Backup(p)) && Backup(p).nhgCount > 0 ==>
              TableRoute(p, TransitVrf222, HostPrefix(Plus(V4(TRANSIT_222_START), k))) ==
              Some(Backup(p).baseNHG + k % Backup(p).nhgCount)
  {
    hide Half, ValidParams, CountsSafe, AddressesFit, PrimaryPrefixes, BackupPrefixes;
    CompletesFacts(p);
  }

  lemma RepairTargetIs(p: ScaleParams, k: nat)
    requires Completes(p) && k < p.numRepairIPv4
    ensures p.numRepairNHG > 0
    ensures TableRoute(p, RepairVrf, HostPrefix(Plus(V4(TRANSIT_111_START), k))) ==
            Some(NHG_BASE_REPAIR + k % p.numRepairNHG)
  {
    hide ValidParams, CountsSafe, AddressesFit;
    CompletesFacts(p);
  }

  /** The customer prefixes of each encap VRF share the groups of its slice. */
  lemma CustomersShared(p: ScaleParams, multi: bool, vi: nat)
    requires Programmed(p, multi) && vi < p.numEncapVRFs
    ensures p.numEncapIPv4PerVRF > 0 && p.numEncapIPv6PerVRF > 0
    ensures SliceStart(p, vi) >= 0 && SliceCount(p, vi) >= 1
    ensures SharesGroups(ProgrammedTable(p, multi), EncapVrf(vi), V4(0xC800_0001 + 0x1_0000 * vi), p.numEncapIPv4PerVRF,
                         FIRST_ENCAP_NHG + SliceStart(p, vi), SliceCount(p, vi))
    ensures SharesGroups(ProgrammedTable(p, multi), EncapVrf(vi),
                         V6(0x2001_0DB8_0000_0000_0000_0000_0000_0001 + 0x1_0000_0000_0000_0000_0000 * vi),
                         p.numEncapIPv6PerVRF, FIRST_ENCAP_NHG + SliceStart(p, vi), SliceCount(p, vi))
  {
    hide ProgrammedTable, Completes, NhPlan, NhgPlan, SliceStart, SliceCount, SharesGroups, TableRoute, RouteAt;
    CompletesFacts(p);
    SlicesTile(p, vi);
    var t, base, m := ProgrammedTable(p, multi), FIRST_ENCAP_NHG + SliceStart(p, vi), SliceCount(p, vi);
    var a, b := V4(Encap4Start(vi)), V6(Encap6Start(vi));
    forall k: nat | k < p.numEncapIPv4PerVRF
      ensures RouteAt(t, EncapVrf(vi), a, k) == Some(base + k % m)
    {
      HostRouteIs(p, multi, EncapVrf(vi), a, k);
      CustomerTargetIs(p, vi, k);
    }
    forall k: nat | k < p.numEncapIPv6PerVRF
      ensures RouteAt(t, EncapVrf(vi), b, k) == Some(base + k % m)
    {
      HostRouteIs(p, multi, EncapVrf(vi), b, k);
      CustomerTargetIs(p, vi, k);
    }
    RoutesShareGroups(t, EncapVrf(vi), a, p.numEncapIPv4PerVRF, base, m);
    RoutesShareGroups(t, EncapVrf(vi), b, p.numEncapIPv6PerVRF, base, m);
  }

  lemma CustomerTargetIs(p: ScaleParams, vi: nat, k: nat)
    requires Completes(p) && vi < p.numEncapVRFs
    ensures SliceStart(p, vi) >= 0 && SliceCount(p, vi) >= 1
    ensures k < p.numEncapIPv4PerVRF ==>
              TableRoute(p, EncapVrf(vi), HostPrefix(Plus(V4(Encap4Start(vi)), k))) ==
              Some(FIRST_ENCAP_NHG + SliceStart(p, vi) + k % SliceCount(p, vi))
    ensures k < p.numEncapIPv6PerVRF ==>
              TableRoute(p, EncapVrf(vi), HostPrefix(Plus(V6(Encap6Start(vi)), k))) ==
              Some(FIRST_ENCAP_NHG + SliceStart(p, vi) + k % SliceCount(p, vi))
  {
    hide ValidParams, CountsSafe, AddressesFit, SliceStart, SliceCount, Encap4Start, Encap6Start, SliceTargets;
    CompletesFacts(p);
    SlicesTile(p, vi);
    if k < p.numEncapIPv4PerVRF {
      SliceTargetAt(p, vi, p.numEncapIPv4PerVRF, k);
    }
    if k < p.numEncapIPv6PerVRF {
      SliceTargetAt(p, vi, p.numEncapIPv6PerVRF, k);
    }
  }

  lemma SliceTargetAt(p: ScaleParams, vi: nat, n: nat, k: nat)
    requires 0 < p.numEncapVRFs <= p.numEncapDefaultNHG && vi < p.numEncapVRFs && k < n
    ensures SliceStart(p, vi) >= 0 && SliceCount(p, vi) >= 1
    ensures SliceTargets(p, vi, n)[k] == FIRST_ENCAP_NHG + SliceStart(p, vi) + k % SliceCount(p, vi)
  {
    hide SliceStart, SliceCount;
    SlicesTile(p, vi);
  }

  /** Every encap VRF has numEncapDefaultNHG / numEncapVRFs groups, and the last one what is left as well. */
  lemma SlicesEven(p: ScaleParams, vi: nat)
    requires 0 < p.numEncapVRFs <= p.numEncapDefaultNHG && vi < p.numEncapVRFs
    ensures SliceStart(p, vi) == vi * (p.numEncapDefaultNHG / p.numEncapVRFs)
    ensures SliceCount(p, vi) == p.numEncapDefaultNHG / p.numEncapVRFs
            + if vi == p.numEncapVRFs - 1 then p.numEncapDefaultNHG % p.numEncapVRFs else 0
  {
    var e, v := p.numEncapDefaultNHG, p.numEncapVRFs;
    DivAtLeastOne(e, v);
    assert PerVrf(p) == e / v;
    assert e == v * (e / v) + e % v;
    assert (v - 1) * (e / v) == v * (e / v) - e / v;
  }

  // The first entry of each kind, in numbers.

  predicate FirstNextHops(t: Table) {
    && NhAt(t, 1_000, 0) == Some(ToAddress(V4(0xC133_0002)))
    && NhAt(t, 9_001, 0) == Some(ToVrf(RepairVrf))
    && NhAt(t, 9_002, 0) == Some(Decap(Some(DefaultVrf)))
    && NhAt(t, 10_000, 0) == Some(ToAddress(V4(0x0A00_0001)))
    && NhAt(t, 30_000, 0) == Some(DecapEncap(V4(0xC633_64DE), V4(0x6500_0001), TransitVrf222))
    && NhAt(t, 50_000, 0) == Some(ToVrf(DefaultVrf))
  }

  predicate FirstRoutes(p: ScaleParams, t: Table) {
    && (p.numDefaultIPv4 >= 2 ==> RouteAt(t, DefaultVrf, V4(0x0A00_0001), 0) == Some(2_000))
    && RouteAt(t, TransitVrf111, V4(0x6400_0001), 0) == Some(20_000)
    && RouteAt(t, RepairVrf, V4(0x6400_0001), 0) == Some(32_000)
    && RouteAt(t, EncapVrf(0), V4(0xC800_0001), 0) == Some(82_001)
    && Get(t.routes, (EncapVrf(0), Prefix(V4(0), 0))) == Some(82_000)
    && (p.numDecapEntries > 0 ==>
          && Get(t.routes, (DecapVrf, Prefix(V4(0xCB00_0000), 22))) == Some(120_100)
          && NhAt(t, 120_000, 0) == Some(Decap(None)))
  }

  /** The first next-hop of each kind: a link, S1, S2, a default prefix, a repair tunnel, the fallback. */
  lemma FirstNextHopsAre(p: ScaleParams, multi: bool)
    requires Programmed(p, multi)
    ensures FirstNextHops(ProgrammedTable(p, multi))
  {
    hide ProgrammedTable, TableNh, TableNhg, Completes, NhPlan, NhgPlan, Half, PrimaryVlans, FirstTunnel;
    VlanCounts(p, multi);
    PrimaryLinkAt(p, multi, 0);
    ModSmall(0, PrimaryVlans(p));
    StaticNhIs(p, multi);
    NhIs(p, multi, STATIC_S1_NHG);
    NhIs(p, multi, STATIC_S2_NHG);
    PrimarySideNhIs(p, multi, 0);
    ModSmall(0, Ipv4Part(p));
    NhIs(p, multi, NH_BASE_TRANSIT);
    FirstTunnelClosedForm(p.numRepairNHG, multi, p.numRepairNHG);
    TunnelNhIs(p, multi, 0);
    NhIs(p, multi, NH_BASE_REPAIR);
    EncapNhIs(p, multi);
    NhIs(p, multi, FALLBACK_NH);
  }

  /** The first prefix of each VRF, and its group. */
  lemma FirstRoutesAre(p: ScaleParams, multi: bool)
    requires Programmed(p, multi)
    ensures FirstRoutes(p, ProgrammedTable(p, multi))
  {
    hide ProgrammedTable, TableNh, TableNhg, TableRoute, Completes, NhPlan, NhgPlan, Half, SliceStart, SliceCount;
    CompletesFacts(p);
    HostRouteIs(p, multi, DefaultVrf, V4(DEFAULT_PREFIX_START), 0);
    DefaultTargetIs(p, 0);
    ModSmall(0, NhgPart(p));
    HostRouteIs(p, multi, TransitVrf111, V4(TRANSIT_111_START), 0);
    TransitTargetIs(p, 0);
    ModSmall(0, Half(p.numTransitNHG));
    HostRouteIs(p, multi, RepairVrf, V4(TRANSIT_111_START), 0);
    RepairTargetIs(p, 0);
    ModSmall(0, p.numRepairNHG);
    HostRouteIs(p, multi, EncapVrf(0), V4(Encap4Start(0)), 0);
    CustomerTargetIs(p, 0, 0);
    SlicesTile(p, 0);
    ModSmall(0, SliceCount(p, 0));
    ProgrammedTableIs(p, multi, 0, EncapVrf(0), ANY4);
    FallbackIs(p);
    if p.numDecapEntries > 0 {
      ProgrammedTableIs(p, multi, 0, DecapVrf, DecapPrefix(0));
      FirstDecapIs(p);
      DecapNhIs(p, multi, 0);
      NhIs(p, multi, NH_BASE_DECAP);
    }
  }

  lemma FallbackIs(p: ScaleParams)
    requires Completes(p)
    ensures TableRoute(p, EncapVrf(0), ANY4) == Some(FALLBACK_NHG)
  {
    hide ValidParams, CountsSafe, AddressesFit, SliceTargets;
    CompletesFacts(p);
  }

  lemma FirstDecapIs(p: ScaleParams)
    requires Completes(p) && p.numDecapEntries > 0
    ensures DecapPrefix(0) == Prefix(V4(0xCB00_0000), 22)
    ensures TableRoute(p, DecapVrf, DecapPrefix(0)) == Some(NHG_BASE_DECAP)
  {
    hide ValidParams, CountsSafe, AddressesFit, DecapRouteOf;
    CompletesFacts(p);
    DecapRouteIff(p.numDecapEntries, DecapPrefix(0));
  }
}
