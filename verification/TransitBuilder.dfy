/**
 * BuildTransitVRFs: TE_VRF_111 over primary default prefixes with backup S1, and TE_VRF_222
 * over backup default prefixes with backup S2.
 *
 * The second VRF gets what the first leaves of the next-hop and group counts, which can be
 * zero (nothing is built) or negative (see FullRun.IntegrityIff).
 */
module TransitBuilder {
  import opened GoInts
  import opened IpUtil
  import opened Rib
  import opened Params
  import opened RoundRobin
  import opened Integrity
  import opened DefaultVrfBuilder

  /** What one transit VRF is built from. */
  datatype Side = Side(vrf: Vrf, prefixStart: nat, defaultPrefixes: seq<nat>,
                       baseNH: nat, nhCount: int, baseNHG: nat, nhgCount: int, backup: nat)

  predicate Built(s: Side) {
    s.nhCount != 0 && s.nhgCount != 0
  }

  /** No negative-length allocation and no empty prefix list. */
  predicate SideSafe(s: Side) {
    Built(s) ==> s.defaultPrefixes != [] && (s.nhgCount > 0 ==> s.nhCount > 0)
  }

  function SideNextHops(s: Side): (nhs: seq<NextHop>)
    requires s.defaultPrefixes != []
    ensures |nhs| == Max(s.nhCount, 0)
  {
    var n, d := Max(s.nhCount, 0), |s.defaultPrefixes|;
    seq(n, k requires 0 <= k < n => ToAddress(V4(s.defaultPrefixes[k % d])))
  }

  ghost function SideWeights(p: ScaleParams, s: Side): (ws: seq<seq<nat>>)
    requires ValidParams(p)
    ensures |ws| == Max(s.nhgCount, 0)
  {
    CallWeights(Max(s.nhgCount, 0), p.transitNHGLoadBalance, p.transitNHGWeight, Max(s.nhCount, 0))
  }

  ghost function SideGroups(p: ScaleParams, s: Side): (gs: seq<Group>)
    requires ValidParams(p)
    ensures |gs| == Max(s.nhgCount, 0)
  {
    GroupsOver(s.baseNH, Max(s.nhCount, 0), SideWeights(p, s), Some(s.backup))
  }

  /** The remainder by a negative group count still cycles through that many ids. */
  function SideTargets(p: ScaleParams, s: Side): (ts: seq<nat>)
    requires s.nhgCount != 0
    ensures |ts| == Max(p.numTransitIPv4, 0)
  {
    Cycle(s.baseNHG, Abs(s.nhgCount), Max(p.numTransitIPv4, 0))
  }

  ghost function SideEntries(p: ScaleParams, s: Side): seq<Entry>
    requires ValidParams(p) && SideSafe(s)
  {
    if !Built(s) then []
    else
      NhLayer(s.baseNH, SideNextHops(s)) + NhgLayer(s.baseNHG, SideGroups(p, s))
      + HostRoutes(s.vrf, V4(s.prefixStart), SideTargets(p, s))
  }

  predicate SideFits(p: ScaleParams, s: Side) {
    Built(s) ==> p.numTransitIPv4 >= 0 && s.prefixStart + p.numTransitIPv4 <= TWO_32
  }

  lemma SideFitsIffGenerated(p: ScaleParams, s: Side)
    requires Built(s) && p.numTransitIPv4 != 0 && s.prefixStart < TWO_32 - 1
    ensures var g := Generated(Some(s.prefixStart), p.numTransitIPv4, Some(1));
            && (g.Ok? <==> SideFits(p, s))
            && (g.Ok? ==> p.numTransitIPv4 > 0 && g.value == Progression(s.prefixStart, p.numTransitIPv4, 1))
  {
  }

  /** The next-hop loop of the closure buildTransitVRF. */
  method BuildSideNhs(s: Side) returns (entries: seq<Entry>)
    requires s.defaultPrefixes != []
    ensures entries == NhLayer(s.baseNH, SideNextHops(s))
  {
    entries := [];
    ghost var layer := NhLayer(s.baseNH, SideNextHops(s));
    var k := 0;
    while k < s.nhCount
      invariant 0 <= k <= Max(s.nhCount, 0)
      invariant entries == layer[..k]
    {
      var host := s.defaultPrefixes[k % |s.defaultPrefixes|];
      entries := entries + [NhEntry(s.baseNH + k, ToAddress(V4(host)))];
      k := k + 1;
    }
  }

  /** The prefix loop of the closure buildTransitVRF. */
  method BuildSideRoutes(s: Side, vrfPrefixes: seq<nat>) returns (entries: seq<Entry>)
    requires s.nhgCount != 0
    requires vrfPrefixes == Progression(s.prefixStart, |vrfPrefixes|, 1)
    ensures entries == HostRoutes(s.vrf, V4(s.prefixStart), Cycle(s.baseNHG, Abs(s.nhgCount), |vrfPrefixes|))
  {
    entries := [];
    ghost var routes := HostRoutes(s.vrf, V4(s.prefixStart), Cycle(s.baseNHG, Abs(s.nhgCount), |vrfPrefixes|));
    for i := 0 to |vrfPrefixes|
      invariant entries == routes[..i]
    {
      var nhg := s.baseNHG + Rem(i, s.nhgCount);
      entries := entries + [Route(s.vrf, HostPrefix(V4(vrfPrefixes[i])), nhg)];
    }
  }

  /** The closure buildTransitVRF. */
  method BuildSide(p: ScaleParams, s: Side) returns (r: Result<seq<Entry>>)
    requires ValidParams(p) && SideSafe(s)
    requires p.numTransitIPv4 != 0 && s.prefixStart < TWO_32 - 1
    ensures r.Ok? <==> SideFits(p, s)
    ensures r.Ok? ==> r.value == SideEntries(p, s)
  {
    hide Generated, CallWeights, GroupsOver, SideNextHops, Progression;
    if s.nhCount == 0 || s.nhgCount == 0 {
      return Ok([]);
    }
    SideFitsIffGenerated(p, s);
    var nhs := BuildSideNhs(s);
    var groups := BuildNHGs(s.baseNHG, s.baseNH, Some(s.backup), Max(s.nhgCount, 0), Max(s.nhCount, 0),
                            p.transitNHGLoadBalance, p.transitNHGWeight);
    var vrfPrefixes := GenerateIPsWithStep(Some(s.prefixStart), p.numTransitIPv4, Some(1));
    if vrfPrefixes.Fatal? {
      return Fatal(vrfPrefixes.error);
    }
    var routes := BuildSideRoutes(s, vrfPrefixes.value);
    r := Ok(nhs + groups + routes);
  }

  function PrimarySide(p: ScaleParams, primaryPrefixes: seq<nat>, s1: nat): Side {
    Side(TransitVrf111, TRANSIT_111_START, primaryPrefixes,
         NH_BASE_TRANSIT, Half(p.numTransitNH), NHG_BASE_TRANSIT, Half(p.numTransitNHG), s1)
  }

  function BackupSide(p: ScaleParams, backupPrefixes: seq<nat>, s2: nat): Side {
    Side(TransitVrf222, TRANSIT_222_START, backupPrefixes,
         NH_BASE_TRANSIT + Half(p.numTransitNH), p.numTransitNH - Half(p.numTransitNH),
         NHG_BASE_TRANSIT + Half(p.numTransitNHG), p.numTransitNHG - Half(p.numTransitNHG), s2)
  }

  /** The capacity of the entry list, which the source allocates up front. */
  function TransitCapacity(p: ScaleParams): int {
    p.numTransitNH + p.numTransitNHG + 2 * p.numTransitIPv4
  }

  /** No negative length is allocated: not for the entry list, and not for the weights of a group. */
  predicate TransitCountsSafe(p: ScaleParams) {
    && TransitCapacity(p) >= 0
    && (p.numTransitNHG >= 2 ==> p.numTransitNH >= 1)
  }

  lemma SidesSafe(p: ScaleParams, primaryPrefixes: seq<nat>, backupPrefixes: seq<nat>, s1: nat, s2: nat)
    requires TransitCountsSafe(p) && primaryPrefixes != [] && backupPrefixes != []
    ensures SideSafe(PrimarySide(p, primaryPrefixes, s1)) && SideSafe(BackupSide(p, backupPrefixes, s2))
    ensures Built(PrimarySide(p, primaryPrefixes, s1))
  {
  }

  /** BuildTransitVRFs.  With no transit prefix at all the source indexes an empty list. */
  method BuildTransitVRFs(p: ScaleParams, primaryPrefixes: seq<nat>, backupPrefixes: seq<nat>, s1: nat, s2: nat)
    returns (r: Result<seq<Entry>>)
    requires ValidParams(p) && TransitCountsSafe(p) && p.numTransitIPv4 != 0
    requires primaryPrefixes != [] && backupPrefixes != []
    ensures SideSafe(PrimarySide(p, primaryPrefixes, s1)) && SideSafe(BackupSide(p, backupPrefixes, s2))
    ensures r.Ok? <==>
            SideFits(p, PrimarySide(p, primaryPrefixes, s1)) && SideFits(p, BackupSide(p, backupPrefixes, s2))
    ensures r.Ok? ==> r.value == SideEntries(p, PrimarySide(p, primaryPrefixes, s1))
                               + SideEntries(p, BackupSide(p, backupPrefixes, s2))
  {
    hide SideEntries, SideFits, Built;
    SidesSafe(p, primaryPrefixes, backupPrefixes, s1, s2);
    var nhPrimaryCount := Max(Quot(p.numTransitNH, 2), 1);
    var nhgPrimaryCount := Max(Quot(p.numTransitNHG, 2), 1);
    var first := BuildSide(p, Side(TransitVrf111, TRANSIT_111_START, primaryPrefixes,
                                   NH_BASE_TRANSIT, nhPrimaryCount, NHG_BASE_TRANSIT, nhgPrimaryCount, s1));
    if first.Fatal? {
      return first;
    }
    var nhBackupCount := p.numTransitNH - nhPrimaryCount;
    var nhgBackupCount := p.numTransitNHG - nhgPrimaryCount;
    var second := BuildSide(p, Side(TransitVrf222, TRANSIT_222_START, backupPrefixes,
                                    NH_BASE_TRANSIT + nhPrimaryCount, nhBackupCount,
                                    NHG_BASE_TRANSIT + nhgPrimaryCount, nhgBackupCount, s2));
    if second.Fatal? {
      return second;
    }
    r := Ok(first.value + second.value);
  }

  /** What one transit VRF's entries leave in the tables. */
  lemma SideTables(p: ScaleParams, s: Side, id: nat, vrf: Vrf, prefix: Prefix)
    requires ValidParams(p) && SideSafe(s)
    ensures LastNh(SideEntries(p, s), id) == if Built(s) then At(SideNextHops(s), s.baseNH, id) else None
    ensures LastNhg(SideEntries(p, s), id) == if Built(s) then At(SideGroups(p, s), s.baseNHG, id) else None
    ensures LastRoute(SideEntries(p, s), vrf, prefix) ==
            if Built(s) && vrf == s.vrf then HostAt(SideTargets(p, s), V4(s.prefixStart), prefix) else None
  {
    if Built(s) {
      BuiltSideTables(p, s, id, vrf, prefix);
    }
  }

  lemma BuiltSideTables(p: ScaleParams, s: Side, id: nat, vrf: Vrf, prefix: Prefix)
    requires ValidParams(p) && SideSafe(s) && Built(s)
    ensures LastNh(SideEntries(p, s), id) == At(SideNextHops(s), s.baseNH, id)
    ensures LastNhg(SideEntries(p, s), id) == At(SideGroups(p, s), s.baseNHG, id)
    ensures LastRoute(SideEntries(p, s), vrf, prefix) ==
            if vrf == s.vrf then HostAt(SideTargets(p, s), V4(s.prefixStart), prefix) else None
  {
    hide ValidParams, LastNh, LastNhg, LastRoute, At, HostAt, SideNextHops, SideGroups, SideTargets;
    var routes := HostRoutes(s.vrf, V4(s.prefixStart), SideTargets(p, s));
    LayeredTables(s.baseNH, SideNextHops(s), s.baseNHG, SideGroups(p, s), routes, id, vrf, prefix);
    LastHostRoute(s.vrf, V4(s.prefixStart), SideTargets(p, s), vrf, prefix);
  }

  lemma SideGroupsWithin(p: ScaleParams, s: Side)
    requires ValidParams(p)
    ensures AllWithin(SideGroups(p, s), s.baseNH, Max(s.nhCount, 0))
  {
    hide CallWeights, GroupsOver;
    CallWeightsAllocatable(Max(s.nhgCount, 0), p.transitNHGLoadBalance, p.transitNHGWeight, Max(s.nhCount, 0));
    GroupsOverWithin(s.baseNH, Max(s.nhCount, 0), SideWeights(p, s), Some(s.backup));
  }

  lemma SideBackups(p: ScaleParams, s: Side, base: seq<Entry>)
    requires ValidParams(p) && LastNhg(base, s.backup).Some?
    ensures BackupsIn(SideGroups(p, s), base)
  {
    hide LastNhg, CallWeights;
  }

  /** A side with a positive or zero group count comes in dependency order. */
  lemma SideGrounded(p: ScaleParams, s: Side, base: seq<Entry>)
    requires ValidParams(p) && SideSafe(s) && LastNhg(base, s.backup).Some?
    requires Built(s) ==> s.nhgCount > 0
    ensures Grounded(base, SideEntries(p, s))
  {
    hide ValidParams, Grounded, CallWeights, GroupsOver, LastNhg, SideNextHops;
    if Built(s) {
      SideGroupsWithin(p, s);
      SideBackups(p, s, base);
      LayeredGrounded(base, s.baseNH, SideNextHops(s), s.baseNHG, SideGroups(p, s),
                      HostRoutes(s.vrf, V4(s.prefixStart), SideTargets(p, s)));
    } else {
      EmptyGrounded(base);
    }
  }

  lemma EmptyGrounded(base: seq<Entry>)
    ensures Grounded(base, [])
  {
  }

  /** The group id that prefix i of a side points at. */
  function TargetOf(s: Side, i: nat): nat
    requires s.nhgCount != 0
  {
    s.baseNHG + i % Abs(s.nhgCount)
  }

  lemma RouteSatisfiedIff(base: seq<Entry>, nhs: seq<Entry>, routes: seq<Entry>, i: nat)
    requires forall k :: 0 <= k < |nhs| ==> nhs[k].NhEntry?
    requires forall k :: 0 <= k < |routes| ==> routes[k].Route?
    requires i < |routes|
    ensures var all := nhs + routes;
            Satisfied(all[|nhs| + i], base + all[..|nhs| + i + 1]) <==> LastNhg(base, routes[i].nhg).Some?
  {
    hide LastNhg;
    var all := nhs + routes;
    var seen := all[..|nhs| + i + 1];
    assert forall k :: 0 <= k < |seen| ==> !seen[k].NhgEntry?;
    NoNhg(seen, routes[i].nhg);
    LastNhgConcat(base, seen, routes[i].nhg);
    assert all[|nhs| + i] == routes[i];
  }

  /** After a base, next-hops and routes come in dependency order exactly when the base has the routes' groups. */
  lemma RoutesGroundedIff(base: seq<Entry>, nhs: seq<Entry>, routes: seq<Entry>)
    requires forall k :: 0 <= k < |nhs| ==> nhs[k].NhEntry?
    requires forall k :: 0 <= k < |routes| ==> routes[k].Route?
    ensures Grounded(base, nhs + routes) <==> forall i :: 0 <= i < |routes| ==> LastNhg(base, routes[i].nhg).Some?
  {
    hide LastNhg, Satisfied;
    var all := nhs + routes;
    if Grounded(base, all) {
      forall i | 0 <= i < |routes|
        ensures LastNhg(base, routes[i].nhg).Some?
      {
        RouteSatisfiedIff(base, nhs, routes, i);
        assert Satisfied(all[|nhs| + i], base + all[..|nhs| + i + 1]);
      }
    }
    if forall i :: 0 <= i < |routes| ==> LastNhg(base, routes[i].nhg).Some? {
      forall k | 0 <= k < |all|
        ensures Satisfied(all[k], base + all[..k + 1])
      {
        if k < |nhs| {
          NhSatisfied(all[k], base + all[..k + 1]);
        } else {
          RouteSatisfiedIff(base, nhs, routes, k - |nhs|);
        }
      }
    }
  }

  lemma NhSatisfied(e: Entry, seen: seq<Entry>)
    requires e.NhEntry?
    ensures Satisfied(e, seen)
  {
  }

  /**
   * A side with a negative group count installs no group at all but still points its prefixes
   * at group ids.  It comes in dependency order exactly when others own all of those ids.
   */
  lemma NegativeSideIff(p: ScaleParams, s: Side, base: seq<Entry>)
    requires ValidParams(p) && SideSafe(s) && Built(s) && s.nhgCount < 0
    ensures Grounded(base, SideEntries(p, s)) <==>
            forall i :: 0 <= i < p.numTransitIPv4 ==> LastNhg(base, TargetOf(s, i)).Some?
  {
    hide ValidParams, CallWeights, GroupsOver, LastNhg, LastNh, SideNextHops, Grounded;
    var nhs := NhLayer(s.baseNH, SideNextHops(s));
    var routes := HostRoutes(s.vrf, V4(s.prefixStart), SideTargets(p, s));
    assert SideEntries(p, s) == nhs + routes;
    RoutesGroundedIff(base, nhs, routes);
    assert |routes| == Max(p.numTransitIPv4, 0);
    assert forall i :: 0 <= i < |routes| ==> routes[i].nhg == TargetOf(s, i);
  }
}
