/**
 * The counts of a run: how many next-hops, groups and prefixes are pushed, in terms of the
 * scale parameters.  Halves that are built separately give back the whole count, except that
 * an odd count of the default VRF loses one, and that a half is never empty.
 */
module Conservation {
  import opened Seqs
  import opened Rib
  import opened Params
  import opened DefaultVrfBuilder
  import opened RepairBuilder
  import opened TransitBuilder
  import opened EncapDecapBuilder
  import opened FullRun
  import opened Ids
  import opened ProgrammedTables

  /** Number of prefixes pushed by a stream. */
  function Routes(s: seq<Entry>): nat {
    if s == [] then 0 else Routes(s[..|s| - 1]) + if s[|s| - 1].Route? then 1 else 0
  }

  /** A stream pushes these many next-hops, groups and prefixes. */
  ghost predicate Pushes(s: seq<Entry>, nhs: int, groups: int, routes: int) {
    |NhIds(s)| == nhs && |NhgIds(s)| == groups && Routes(s) == routes
  }

  lemma {:induction false} RoutesConcat(a: seq<Entry>, b: seq<Entry>)
    ensures Routes(a + b) == Routes(a) + Routes(b)
  {
    if b == [] {
      assert a + b == a;
    } else {
      RoutesConcat(a, b[..|b| - 1]);
      assert (a + b)[..|a + b| - 1] == a + b[..|b| - 1];
    }
  }

  lemma PushesConcat(a: seq<Entry>, b: seq<Entry>)
    ensures Pushes(a + b, |NhIds(a)| + |NhIds(b)|, |NhgIds(a)| + |NhgIds(b)|, Routes(a) + Routes(b))
  {
    hide NhIds, NhgIds, Routes;
    IdsConcat(a, b);
    RoutesConcat(a, b);
  }

  lemma {:induction false} AllRoutes(s: seq<Entry>)
    requires forall i :: 0 <= i < |s| ==> s[i].Route?
    ensures Routes(s) == |s|
  {
    if s != [] {
      AllRoutes(s[..|s| - 1]);
    }
  }

  lemma {:induction false} NoRoutes(s: seq<Entry>)
    requires forall i :: 0 <= i < |s| ==> !s[i].Route?
    ensures Routes(s) == 0
  {
    if s != [] {
      NoRoutes(s[..|s| - 1]);
    }
  }

  lemma LayeredRoutes(nhBase: nat, nhs: seq<NextHop>, nhgBase: nat, groups: seq<Group>, routes: seq<Entry>)
    requires forall i :: 0 <= i < |routes| ==> routes[i].Route?
    ensures Routes(NhLayer(nhBase, nhs) + NhgLayer(nhgBase, groups) + routes) == |routes|
  {
    hide Routes;
    var a, b := NhLayer(nhBase, nhs), NhgLayer(nhgBase, groups);
    RoutesConcat(a + b, routes);
    RoutesConcat(a, b);
    NoRoutes(a);
    NoRoutes(b);
    AllRoutes(routes);
  }

  // The default VRF.

  /** What two equal halves make of a count. */
  function Paired(n: int): nat {
    if n < 2 then 2 else n - n % 2
  }

  lemma TwoHalves(n: int)
    ensures 2 * Half(n) == Paired(n)
    ensures n >= 2 ==> 1 <= Half(n) <= n - Half(n) <= Half(n) + 1
  {
  }

  /** Next-hops, groups and prefixes of the default VRF. */
  lemma DefaultCounts(p: ScaleParams)
    requires ValidParams(p)
    ensures Pushes(DefaultEntries(p), Paired(p.numDefaultNH), Paired(p.numDefaultNHG), Paired(p.numDefaultIPv4))
  {
    hide NhIds, NhgIds, Routes, Half, Paired, ValidParams, PrimaryGroups, BackupGroups, PrimaryNextHops,
         BackupNextHops;
    TwoHalves(p.numDefaultNH);
    TwoHalves(p.numDefaultNHG);
    TwoHalves(p.numDefaultIPv4);
    DefaultIds(p);
    LayeredRoutes(NH_BASE_DEFAULT, PrimaryNextHops(p) + BackupNextHops(p), NHG_BASE_DEFAULT,
                  PrimaryGroups(p) + BackupGroups(p), DefaultRoutes(p));
  }

  // The transit VRFs.

  lemma SidePushes(p: ScaleParams, s: Side)
    requires ValidParams(p) && SideSafe(s) && p.numTransitIPv4 >= 0
    ensures Pushes(SideEntries(p, s), SideNhCount(s), SideNhgCount(s), if Built(s) then p.numTransitIPv4 else 0)
  {
    hide NhIds, NhgIds, Routes, ValidParams, SideNextHops, SideGroups, SideTargets;
    SideIds(p, s);
    if Built(s) {
      LayeredRoutes(s.baseNH, SideNextHops(s), s.baseNHG, SideGroups(p, s),
                    HostRoutes(s.vrf, V4(s.prefixStart), SideTargets(p, s)));
    } else {
      NoRoutes([]);
    }
  }

  /**
   * With two next-hops and two groups or more, the two transit VRFs together have exactly the
   * requested next-hops and groups, and each has all the prefixes.
   */
  lemma TransitCounts(p: ScaleParams)
    requires Completes(p) && p.numTransitNH >= 2 && p.numTransitNHG >= 2
    ensures Pushes(TransitEntries(p), p.numTransitNH, p.numTransitNHG, 2 * p.numTransitIPv4)
  {
    hide NhIds, NhgIds, Routes, Half, ValidParams, CountsSafe, AddressesFit, SideEntries, PrimaryPrefixes,
         BackupPrefixes;
    CompletesFacts(p);
    TwoHalves(p.numTransitNH);
    TwoHalves(p.numTransitNHG);
    SidePushes(p, Primary(p));
    SidePushes(p, Backup(p));
    PushesConcat(SideEntries(p, Primary(p)), SideEntries(p, Backup(p)));
  }

  // The repair VRF.

  /** One group in two has a second tunnel on a device that repairs into several. */
  function RepairTunnels(n: nat, multi: bool): nat {
    if multi then n + (n - n / 2) else n
  }

  lemma {:induction false} RepairGroupsHaveNoRoutes(numNHG: nat, multi: bool, s2: nat, n: nat)
    ensures Routes(RepairNhNhg(numNHG, multi, s2, n)) == 0
  {
    hide FirstTunnel, RepairGroup, Routes;
    if n == 0 {
      NoRoutes([]);
    } else {
      RepairGroupsHaveNoRoutes(numNHG, multi, s2, n - 1);
      RoutesConcat(RepairNhNhg(numNHG, multi, s2, n - 1), RepairStep(numNHG, multi, s2, n - 1));
      NoRoutes(RepairStep(numNHG, multi, s2, n - 1));
    }
  }

  lemma RepairCounts(p: ScaleParams, multi: bool)
    requires Completes(p)
    ensures p.numRepairNHG > 0
    ensures Pushes(RepairStream(p, multi), RepairTunnels(p.numRepairNHG, multi), p.numRepairNHG, p.numRepairIPv4)
  {
    hide NhIds, NhgIds, Routes, ValidParams, CountsSafe, AddressesFit, RepairNhNhg, RepairTargets, FirstTunnel;
    CompletesFacts(p);
    RepairIds(p, multi, STATIC_S2_NHG);
    FirstTunnelClosedForm(p.numRepairNHG, multi, p.numRepairNHG);
    var front := RepairNhNhg(p.numRepairNHG, multi, STATIC_S2_NHG, p.numRepairNHG);
    var routes := HostRoutes(RepairVrf, V4(TRANSIT_111_START), RepairTargets(p));
    RepairGroupsHaveNoRoutes(p.numRepairNHG, multi, STATIC_S2_NHG, p.numRepairNHG);
    RoutesConcat(front, routes);
    AllRoutes(routes);
    RepairTargetCount(p);
  }

  lemma RepairTargetCount(p: ScaleParams)
    requires p.numRepairNHG > 0 && p.numRepairIPv4 > 0
    ensures |RepairTargets(p)| == p.numRepairIPv4
  {
  }

  // Encap and decap VRFs.

  lemma BlockRouteCount(p: ScaleParams, vi: nat)
    requires 0 < p.numEncapVRFs <= p.numEncapDefaultNHG && vi < p.numEncapVRFs
    requires p.numEncapIPv4PerVRF >= 0 && p.numEncapIPv6PerVRF >= 0
    ensures |BlockRoutes(p, vi)| == p.numEncapIPv4PerVRF + p.numEncapIPv6PerVRF + 2
  {
    hide SliceTargets;
  }

  lemma {:induction false} BlocksRoutes(p: ScaleParams, v: nat)
    requires ValidParams(p) && v <= p.numEncapVRFs && p.numEncapIPv4PerVRF >= 0 && p.numEncapIPv6PerVRF >= 0
    ensures Routes(Blocks(p, v)) == v * (p.numEncapIPv4PerVRF + p.numEncapIPv6PerVRF + 2)
  {
    hide Routes, SliceStart, SliceCount, ValidLoadBalance, ValidWeight, SliceGroups, BlockRoutes;
    var per := p.numEncapIPv4PerVRF + p.numEncapIPv6PerVRF + 2;
    if v == 0 {
      NoRoutes([]);
    } else {
      SlicesTile(p, v - 1);
      BlocksRoutes(p, v - 1);
      var groups := NhgLayer(FIRST_ENCAP_NHG + SliceStart(p, v - 1), SliceGroups(p, v - 1));
      RoutesConcat(Blocks(p, v - 1), Block(p, v - 1));
      RoutesConcat(groups, BlockRoutes(p, v - 1));
      NoRoutes(groups);
      AllRoutes(BlockRoutes(p, v - 1));
      BlockRouteCount(p, v - 1);
      assert v * per == (v - 1) * per + per;
    }
  }

  lemma DecapStepRoutes(i: nat)
    ensures Routes(DecapStep(i)) == 1
  {
    hide Routes, DecapPrefix;
    var front, route := DecapStep(i)[..2], [DecapStep(i)[2]];
    assert DecapStep(i) == front + route;
    RoutesConcat(front, route);
    NoRoutes(front);
    AllRoutes(route);
  }

  lemma {:induction false} DecapRoutes(n: nat)
    ensures Routes(DecapEntries(n)) == n
  {
    hide Routes, DecapStep;
    if n == 0 {
      NoRoutes([]);
    } else {
      DecapRoutes(n - 1);
      DecapStepRoutes(n - 1);
      RoutesConcat(DecapEntries(n - 1), DecapStep(n - 1));
    }
  }

  lemma EncapDecapCounts(p: ScaleParams)
    requires Completes(p)
    ensures Pushes(EncapDecapEntries(p), 1 + p.numUniqueEncapNH + p.numDecapEntries,
                   1 + p.numEncapDefaultNHG + p.numDecapEntries,
                   p.numEncapVRFs * (p.numEncapIPv4PerVRF + p.numEncapIPv6PerVRF + 2) + p.numDecapEntries)
  {
    hide NhIds, NhgIds, Routes, Blocks, DecapEntries, EncapNextHops, ValidLoadBalance, ValidWeight, CountsSafe,
         AddressesFit;
    CompletesFacts(p);
    EncapDecapIds(p);
    var head, blocks, decap := EncapHead(p), Blocks(p, p.numEncapVRFs), DecapEntries(p.numDecapEntries);
    RoutesConcat(head, blocks);
    RoutesConcat(head + blocks, decap);
    NoRoutes(head);
    BlocksRoutes(p, p.numEncapVRFs);
    DecapRoutes(p.numDecapEntries);
  }

  // The tables.

  lemma {:induction false} InstalledKeys(s: seq<Entry>)
    ensures forall id :: id in InstallAll(EMPTY, s).nhs <==> id in NhIds(s)
    ensures forall id :: id in InstallAll(EMPTY, s).nhgs <==> id in NhgIds(s)
  {
    if s != [] {
      InstalledKeys(s[..|s| - 1]);
    }
  }

  lemma DistinctSnoc(s: seq<nat>, x: nat)
    requires Distinct(s + [x])
    ensures Distinct(s) && x !in s
  {
    var t := s + [x];
    assert t[|s|] == x && forall i :: 0 <= i < |s| ==> t[i] == s[i];
  }

  /** Under distinct ids a table has as many entries as were pushed. */
  lemma {:induction false} InstalledSize(s: seq<Entry>)
    ensures Distinct(NhIds(s)) ==> |InstallAll(EMPTY, s).nhs| == |NhIds(s)|
    ensures Distinct(NhgIds(s)) ==> |InstallAll(EMPTY, s).nhgs| == |NhgIds(s)|
  {
    hide Distinct;
    if s != [] {
      var front, e := s[..|s| - 1], s[|s| - 1];
      InstalledSize(front);
      InstalledKeys(front);
      if e.NhEntry? && Distinct(NhIds(s)) {
        DistinctSnoc(NhIds(front), e.id);
      }
      if e.NhgEntry? && Distinct(NhgIds(s)) {
        DistinctSnoc(NhgIds(front), e.id);
      }
      assert NhIds(front) + [] == NhIds(front) && NhgIds(front) + [] == NhgIds(front);
    }
  }

  /** Transit next-hops or groups: all of them when both VRFs are built, half when only TE_VRF_111 is. */
  function TransitPart(p: ScaleParams, n: int): int {
    if p.numTransitNH >= 2 && p.numTransitNHG >= 2 then n else if n < 2 then 1 else n / 2
  }

  lemma TransitTotals(p: ScaleParams, multi: bool)
    requires Programmed(p, multi)
    ensures TransitNhs(p) == TransitPart(p, p.numTransitNH) && TransitNhgs(p) == TransitPart(p, p.numTransitNHG)
  {
    hide Completes, NhPlan, NhgPlan, PrimaryPrefixes, BackupPrefixes;
    SideCounts(p, multi);
  }

  /** What the programmed tables hold in all. */
  lemma TableSizes(p: ScaleParams, multi: bool)
    requires Programmed(p, multi)
    ensures |ProgrammedTable(p, multi).nhs| ==
            Paired(p.numDefaultNH) + 2 + RepairTunnels(p.numRepairNHG, multi) + TransitPart(p, p.numTransitNH)
            + 1 + p.numUniqueEncapNH + p.numDecapEntries
    ensures |ProgrammedTable(p, multi).nhgs| ==
            Paired(p.numDefaultNHG) + 2 + p.numRepairNHG + TransitPart(p, p.numTransitNHG)
            + 1 + p.numEncapDefaultNHG + p.numDecapEntries
  {
    hide Completes, NhPlan, NhgPlan, NhIds, NhgIds, Distinct, Half, Paired, TransitPart, TransitNhs, TransitNhgs,
         Stream, InstallAll, FirstTunnel;
    IdsDistinctIff(p, multi);
    InstalledSize(Stream(p, multi));
    StreamIds(p, multi);
    TwoHalves(p.numDefaultNH);
    TwoHalves(p.numDefaultNHG);
    TransitTotals(p, multi);
    FirstTunnelClosedForm(p.numRepairNHG, multi, p.numRepairNHG);
  }
}
