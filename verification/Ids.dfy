/**
 * Next-hop and next-hop-group ids: which parameters keep the ids of the five builders apart.
 */
module Ids {
  import opened GoInts
  import opened Seqs
  import opened IpUtil
  import opened Rib
  import opened Params
  import opened DefaultVrfBuilder
  import opened StaticGroups
  import opened RepairBuilder
  import opened TransitBuilder
  import opened EncapDecapBuilder
  import opened FullRun

  /** Ids of the next-hop entries of a stream, in order. */
  function NhIds(s: seq<Entry>): seq<nat> {
    if s == [] then []
    else
      var e := s[|s| - 1];
      NhIds(s[..|s| - 1]) + if e.NhEntry? then [e.id] else []
  }

  /** Ids of the next-hop-group entries of a stream, in order. */
  function NhgIds(s: seq<Entry>): seq<nat> {
    if s == [] then []
    else
      var e := s[|s| - 1];
      NhgIds(s[..|s| - 1]) + if e.NhgEntry? then [e.id] else []
  }

  lemma {:induction false} IdsConcat(a: seq<Entry>, b: seq<Entry>)
    ensures NhIds(a + b) == NhIds(a) + NhIds(b)
    ensures NhgIds(a + b) == NhgIds(a) + NhgIds(b)
  {
    if b == [] {
      assert a + b == a;
    } else {
      IdsConcat(a, b[..|b| - 1]);
      assert (a + b)[..|a + b| - 1] == a + b[..|b| - 1];
    }
  }

  lemma {:induction false} NhLayerIds(base: nat, nhs: seq<NextHop>)
    ensures NhIds(NhLayer(base, nhs)) == Range(base, |nhs|)
    ensures NhgIds(NhLayer(base, nhs)) == []
  {
    if nhs != [] {
      var front := nhs[..|nhs| - 1];
      NhLayerIds(base, front);
      assert NhLayer(base, nhs)[..|nhs| - 1] == NhLayer(base, front);
    }
  }

  lemma {:induction false} NhgLayerIds(base: nat, groups: seq<Group>)
    ensures NhgIds(NhgLayer(base, groups)) == Range(base, |groups|)
    ensures NhIds(NhgLayer(base, groups)) == []
  {
    if groups != [] {
      var front := groups[..|groups| - 1];
      NhgLayerIds(base, front);
      assert NhgLayer(base, groups)[..|groups| - 1] == NhgLayer(base, front);
    }
  }

  lemma {:induction false} RouteIds(s: seq<Entry>)
    requires forall i :: 0 <= i < |s| ==> s[i].Route?
    ensures NhIds(s) == [] && NhgIds(s) == []
  {
    if s != [] {
      RouteIds(s[..|s| - 1]);
    }
  }

  lemma LayeredIds(nhBase: nat, nhs: seq<NextHop>, nhgBase: nat, groups: seq<Group>, routes: seq<Entry>)
    requires forall i :: 0 <= i < |routes| ==> routes[i].Route?
    ensures NhIds(NhLayer(nhBase, nhs) + NhgLayer(nhgBase, groups) + routes) == Range(nhBase, |nhs|)
    ensures NhgIds(NhLayer(nhBase, nhs) + NhgLayer(nhgBase, groups) + routes) == Range(nhgBase, |groups|)
  {
    hide NhIds, NhgIds, Range, NhLayer, NhgLayer;
    var a, b := NhLayer(nhBase, nhs), NhgLayer(nhgBase, groups);
    IdsConcat(a + b, routes);
    IdsConcat(a, b);
    NhLayerIds(nhBase, nhs);
    NhgLayerIds(nhgBase, groups);
    RouteIds(routes);
  }

  lemma RangeEmpty(base: nat)
    ensures Range(base, 0) == []
  {
  }

  lemma RangeJoin(base: nat, m: nat, n: nat)
    ensures Range(base, m) + Range(base + m, n) == Range(base, m + n)
  {
  }

  lemma DefaultIds(p: ScaleParams)
    requires ValidParams(p)
    ensures NhIds(DefaultEntries(p)) == Range(NH_BASE_DEFAULT, 2 * NhPart(p))
    ensures NhgIds(DefaultEntries(p)) == Range(NHG_BASE_DEFAULT, 2 * NhgPart(p))
  {
    hide NhIds, NhgIds, Range, ValidParams, NhLayer, NhgLayer, PrimaryNextHops, BackupNextHops, PrimaryGroups,
         BackupGroups, DefaultRoutes;
    LayeredIds(NH_BASE_DEFAULT, PrimaryNextHops(p) + BackupNextHops(p), NHG_BASE_DEFAULT,
               PrimaryGroups(p) + BackupGroups(p), DefaultRoutes(p));
  }

  lemma PairIds(nhId: nat, nh: NextHop, nhgId: nat, g: Group)
    ensures NhIds([NhEntry(nhId, nh), NhgEntry(nhgId, g)]) == [nhId]
    ensures NhgIds([NhEntry(nhId, nh), NhgEntry(nhgId, g)]) == [nhgId]
  {
    var first, second := [NhEntry(nhId, nh)], [NhgEntry(nhgId, g)];
    assert [NhEntry(nhId, nh), NhgEntry(nhgId, g)] == first + second;
    IdsConcat(first, second);
    assert first[..0] == [] && second[..0] == [];
  }

  lemma StaticIds()
    ensures NhIds(STATIC_ENTRIES) == Range(STATIC_S1_NHG, 2)
    ensures NhgIds(STATIC_ENTRIES) == Range(STATIC_S1_NHG, 2)
  {
    hide NhIds, NhgIds;
    PairIds(STATIC_S1_NHG, S1_NEXT_HOP, STATIC_S1_NHG, S1_GROUP);
    PairIds(STATIC_S2_NHG, S2_NEXT_HOP, STATIC_S2_NHG, S2_GROUP);
    IdsConcat([NhEntry(STATIC_S1_NHG, S1_NEXT_HOP), NhgEntry(STATIC_S1_NHG, S1_GROUP)],
              [NhEntry(STATIC_S2_NHG, S2_NEXT_HOP), NhgEntry(STATIC_S2_NHG, S2_GROUP)]);
  }

  lemma RepairStepIds(numNHG: nat, multi: bool, s2: nat, i: nat)
    ensures var f := FirstTunnel(numNHG, multi, i);
            NhIds(RepairStep(numNHG, multi, s2, i)) ==
            Range(NH_BASE_REPAIR + f, if TwoTunnels(numNHG, multi, i) then 2 else 1)
    ensures NhgIds(RepairStep(numNHG, multi, s2, i)) == Range(NHG_BASE_REPAIR + i, 1)
  {
    hide NhIds, NhgIds, Range, FirstTunnel, RepairGroup;
    var f := FirstTunnel(numNHG, multi, i);
    var nhs := if TwoTunnels(numNHG, multi, i) then [Tunnel(f), Tunnel(f + 1)] else [Tunnel(f)];
    var groups := [RepairGroup(numNHG, multi, s2, i)];
    var a, b := NhLayer(NH_BASE_REPAIR + f, nhs), NhgLayer(NHG_BASE_REPAIR + i, groups);
    assert b == [NhgEntry(NHG_BASE_REPAIR + i, RepairGroup(numNHG, multi, s2, i))];
    LayeredIds(NH_BASE_REPAIR + f, nhs, NHG_BASE_REPAIR + i, groups, []);
    assert a + b + [] == RepairStep(numNHG, multi, s2, i);
  }

  lemma {:induction false} RepairNhNhgIds(numNHG: nat, multi: bool, s2: nat, n: nat)
    ensures NhIds(RepairNhNhg(numNHG, multi, s2, n)) == Range(NH_BASE_REPAIR, FirstTunnel(numNHG, multi, n))
    ensures NhgIds(RepairNhNhg(numNHG, multi, s2, n)) == Range(NHG_BASE_REPAIR, n)
  {
    hide NhIds, NhgIds, Range, RepairStep, RepairNhNhg, FirstTunnel;
    if n == 0 {
      RepairZero(numNHG, multi, s2);
      RouteIds([]);
      RangeEmpty(NH_BASE_REPAIR);
      RangeEmpty(NHG_BASE_REPAIR);
    } else {
      RepairSuccessor(numNHG, multi, s2, n - 1);
      RepairNhNhgIds(numNHG, multi, s2, n - 1);
      IdsConcat(RepairNhNhg(numNHG, multi, s2, n - 1), RepairStep(numNHG, multi, s2, n - 1));
      RepairStepIds(numNHG, multi, s2, n - 1);
      RangeJoin(NH_BASE_REPAIR, FirstTunnel(numNHG, multi, n - 1), if TwoTunnels(numNHG, multi, n - 1) then 2 else 1);
      RangeJoin(NHG_BASE_REPAIR, n - 1, 1);
    }
  }

  lemma RepairIds(p: ScaleParams, multi: bool, s2: nat)
    requires p.numRepairNHG > 0
    ensures NhIds(RepairEntries(p, multi, s2)) ==
            Range(NH_BASE_REPAIR, FirstTunnel(p.numRepairNHG, multi, p.numRepairNHG))
    ensures NhgIds(RepairEntries(p, multi, s2)) == Range(NHG_BASE_REPAIR, p.numRepairNHG)
  {
    hide NhIds, NhgIds, Range, RepairNhNhg, RepairTargets, FirstTunnel;
    var routes := HostRoutes(RepairVrf, V4(TRANSIT_111_START), RepairTargets(p));
    RepairNhNhgIds(p.numRepairNHG, multi, s2, p.numRepairNHG);
    RouteIds(routes);
    IdsConcat(RepairNhNhg(p.numRepairNHG, multi, s2, p.numRepairNHG), routes);
  }

  function SideNhCount(s: Side): nat { if Built(s) then Max(s.nhCount, 0) else 0 }
  function SideNhgCount(s: Side): nat { if Built(s) then Max(s.nhgCount, 0) else 0 }

  lemma SideIds(p: ScaleParams, s: Side)
    requires ValidParams(p) && SideSafe(s)
    ensures NhIds(SideEntries(p, s)) == Range(s.baseNH, SideNhCount(s))
    ensures NhgIds(SideEntries(p, s)) == Range(s.baseNHG, SideNhgCount(s))
  {
    hide NhIds, NhgIds, ValidParams, NhLayer, NhgLayer, SideNextHops, SideGroups, SideTargets;
    if Built(s) {
      LayeredIds(s.baseNH, SideNextHops(s), s.baseNHG, SideGroups(p, s),
                 HostRoutes(s.vrf, V4(s.prefixStart), SideTargets(p, s)));
    } else {
      RouteIds([]);
    }
  }

  lemma {:induction false} BlocksIds(p: ScaleParams, v: nat)
    requires ValidParams(p) && v <= p.numEncapVRFs
    ensures SliceStart(p, v) >= 0
    ensures NhIds(Blocks(p, v)) == []
    ensures NhgIds(Blocks(p, v)) == Range(FIRST_ENCAP_NHG, SliceStart(p, v))
  {
    hide NhIds, NhgIds, SliceStart, SliceCount, ValidLoadBalance, ValidWeight, SliceGroups, BlockRoutes;
    if v == 0 {
      SlicesTile(p, 0);
      RouteIds([]);
    } else {
      SlicesTile(p, v - 1);
      BlocksIds(p, v - 1);
      var groups := NhgLayer(FIRST_ENCAP_NHG + SliceStart(p, v - 1), SliceGroups(p, v - 1));
      var routes := BlockRoutes(p, v - 1);
      IdsConcat(Blocks(p, v - 1), Block(p, v - 1));
      IdsConcat(groups, routes);
      NhgLayerIds(FIRST_ENCAP_NHG + SliceStart(p, v - 1), SliceGroups(p, v - 1));
      RouteIds(routes);
      RangeJoin(FIRST_ENCAP_NHG, SliceStart(p, v - 1), SliceCount(p, v - 1));
    }
  }

  lemma DecapStepIds(i: nat)
    ensures NhIds(DecapStep(i)) == Range(NH_BASE_DECAP + i, 1)
    ensures NhgIds(DecapStep(i)) == Range(NHG_BASE_DECAP + i, 1)
  {
    hide NhIds, NhgIds, Range, DecapPrefix;
    var routes := [Route(DecapVrf, DecapPrefix(i), NHG_BASE_DECAP + i)];
    LayeredIds(NH_BASE_DECAP + i, [Decap(None)], NHG_BASE_DECAP + i, [DecapGroup(i)], routes);
    var a, b := NhLayer(NH_BASE_DECAP + i, [Decap(None)]), NhgLayer(NHG_BASE_DECAP + i, [DecapGroup(i)]);
    assert a + b + routes == DecapStep(i);
  }

  lemma {:induction false} DecapIds(n: nat)
    ensures NhIds(DecapEntries(n)) == Range(NH_BASE_DECAP, n)
    ensures NhgIds(DecapEntries(n)) == Range(NHG_BASE_DECAP, n)
  {
    hide DecapStep;
    if n > 0 {
      DecapIds(n - 1);
      DecapStepIds(n - 1);
      IdsConcat(DecapEntries(n - 1), DecapStep(n - 1));
      RangeJoin(NH_BASE_DECAP, n - 1, 1);
      RangeJoin(NHG_BASE_DECAP, n - 1, 1);
    }
  }

  lemma EncapDecapIds(p: ScaleParams)
    requires ValidParams(p) && p.numUniqueEncapNH >= 0
    ensures NhIds(EncapDecapEntries(p)) ==
            Range(FALLBACK_NH, 1 + p.numUniqueEncapNH) + Range(NH_BASE_DECAP, p.numDecapEntries)
    ensures NhgIds(EncapDecapEntries(p)) ==
            Range(FALLBACK_NHG, 1 + p.numEncapDefaultNHG) + Range(NHG_BASE_DECAP, p.numDecapEntries)
  {
    hide NhIds, NhgIds, Range, Blocks, DecapEntries, EncapNextHops, ValidLoadBalance, ValidWeight;
    var head, blocks, decap := EncapHead(p), Blocks(p, p.numEncapVRFs), DecapEntries(p.numDecapEntries);
    LayeredIds(FALLBACK_NH, [ToVrf(DefaultVrf)] + EncapNextHops(p), FALLBACK_NHG, [FALLBACK_GROUP], []);
    assert head + [] == head;
    BlocksIds(p, p.numEncapVRFs);
    DecapIds(p.numDecapEntries);
    IdsConcat(head, blocks);
    IdsConcat(head + blocks, decap);
    RangeJoin(FALLBACK_NHG, 1, p.numEncapDefaultNHG);
  }

  // The id plan.

  function TransitNhs(p: ScaleParams): nat { Half(p.numTransitNH) + SideNhCount(Backup(p)) }
  function TransitNhgs(p: ScaleParams): nat { Half(p.numTransitNHG) + SideNhgCount(Backup(p)) }
  function RepairNhs(p: ScaleParams, multi: bool): nat
    requires p.numRepairNHG >= 0
  {
    FirstTunnel(p.numRepairNHG, multi, p.numRepairNHG)
  }

  /** Every range of next-hop ids ends before the next one starts. */
  predicate NhPlan(p: ScaleParams, multi: bool)
    requires p.numRepairNHG >= 0
  {
    && NH_BASE_DEFAULT + 2 * NhPart(p) <= STATIC_S1_NHG
    && NH_BASE_TRANSIT + TransitNhs(p) <= NH_BASE_REPAIR
    && NH_BASE_REPAIR + RepairNhs(p, multi) <= NH_BASE_ENCAP
    && (p.numDecapEntries > 0 ==> NH_BASE_ENCAP + 1 + p.numUniqueEncapNH <= NH_BASE_DECAP)
  }

  /** Every range of next-hop-group ids ends before the next one starts. */
  predicate NhgPlan(p: ScaleParams) {
    && NHG_BASE_DEFAULT + 2 * NhgPart(p) <= STATIC_S1_NHG
    && NHG_BASE_TRANSIT + TransitNhgs(p) <= NHG_BASE_REPAIR
    && NHG_BASE_REPAIR + p.numRepairNHG <= NHG_BASE_ENCAP
    && (p.numDecapEntries > 0 ==> NHG_BASE_ENCAP + 1 + p.numEncapDefaultNHG <= NHG_BASE_DECAP)
  }

  lemma IdsOfFive(a: seq<Entry>, b: seq<Entry>, c: seq<Entry>, d: seq<Entry>, e: seq<Entry>)
    ensures NhIds(a + b + c + d + e) == NhIds(a) + NhIds(b) + NhIds(c) + NhIds(d) + NhIds(e)
    ensures NhgIds(a + b + c + d + e) == NhgIds(a) + NhgIds(b) + NhgIds(c) + NhgIds(d) + NhgIds(e)
  {
    hide NhIds, NhgIds;
    IdsConcat(a, b);
    IdsConcat(a + b, c);
    IdsConcat(a + b + c, d);
    IdsConcat(a + b + c + d, e);
  }

  lemma TransitIds(p: ScaleParams)
    requires Completes(p)
    ensures NhIds(TransitEntries(p)) == Range(NH_BASE_TRANSIT, TransitNhs(p))
    ensures NhgIds(TransitEntries(p)) == Range(NHG_BASE_TRANSIT, TransitNhgs(p))
  {
    hide ValidParams, CountsSafe, AddressesFit, NhIds, NhgIds, Range, SideEntries, SideSafe, Half;
    CompletesFacts(p);
    IdsConcat(SideEntries(p, Primary(p)), SideEntries(p, Backup(p)));
    SideIds(p, Primary(p));
    SideIds(p, Backup(p));
    RangeJoin(NH_BASE_TRANSIT, Half(p.numTransitNH), SideNhCount(Backup(p)));
    RangeJoin(NHG_BASE_TRANSIT, Half(p.numTransitNHG), SideNhgCount(Backup(p)));
  }

  lemma StreamIds(p: ScaleParams, multi: bool)
    requires Completes(p)
    ensures p.numRepairNHG > 0 && p.numUniqueEncapNH >= 0 && p.numDecapEntries >= 0 && p.numEncapDefaultNHG > 0
    ensures NhIds(Stream(p, multi)) ==
            Range(NH_BASE_DEFAULT, 2 * NhPart(p)) + Range(STATIC_S1_NHG, 2)
            + Range(NH_BASE_REPAIR, RepairNhs(p, multi)) + Range(NH_BASE_TRANSIT, TransitNhs(p))
            + (Range(NH_BASE_ENCAP, 1 + p.numUniqueEncapNH) + Range(NH_BASE_DECAP, p.numDecapEntries))
    ensures NhgIds(Stream(p, multi)) ==
            Range(NHG_BASE_DEFAULT, 2 * NhgPart(p)) + Range(STATIC_S1_NHG, 2)
            + Range(NHG_BASE_REPAIR, p.numRepairNHG) + Range(NHG_BASE_TRANSIT, TransitNhgs(p))
            + (Range(NHG_BASE_ENCAP, 1 + p.numEncapDefaultNHG) + Range(NHG_BASE_DECAP, p.numDecapEntries))
  {
    hide ValidParams, CountsSafe, AddressesFit, NhIds, NhgIds, Range, DefaultEntries, RepairEntries, SideEntries,
         EncapDecapEntries, SideSafe, FirstTunnel, Half, TransitEntries, TransitNhs, TransitNhgs;
    CompletesFacts(p);
    var a, c, d, e := DefaultEntries(p), RepairStream(p, multi), TransitEntries(p), EncapDecapEntries(p);
    IdsOfFive(a, STATIC_ENTRIES, c, d, e);
    DefaultIds(p);
    StaticIds();
    RepairIds(p, multi, STATIC_S2_NHG);
    TransitIds(p);
    EncapDecapIds(p);
  }

  lemma RangesApart(a: nat, m: nat, b: nat, n: nat)
    requires a <= b
    ensures Apart(Range(a, m), Range(b, n)) <==> m == 0 || n == 0 || a + m <= b
    ensures Apart(Range(b, n), Range(a, m)) <==> m == 0 || n == 0 || a + m <= b
  {
    if m > 0 && n > 0 && a + m > b {
      assert Range(a, m)[b - a] == Range(b, n)[0];
    }
  }

  /** Ids of six consecutive-id ranges, the second being the two static ids, in the order of the run. */
  lemma SixRangesDistinct(d: nat, nd: nat, s: nat, r: nat, nr: nat, t: nat, nt: nat, e: nat, ne: nat, c: nat, nc: nat)
    requires d < s && s + 2 <= t < r < e < c && nd > 0 && nr > 0 && nt > 0 && ne > 0
    ensures Distinct(Range(d, nd) + Range(s, 2) + Range(r, nr) + Range(t, nt) + (Range(e, ne) + Range(c, nc))) <==>
            d + nd <= s && t + nt <= r && r + nr <= e && (nc > 0 ==> e + ne <= c)
  {
    var a, b, x, y := Range(d, nd), Range(s, 2), Range(r, nr), Range(t, nt);
    var z, w := Range(e, ne), Range(c, nc);
    DistinctConcat(a + b + x + y, z + w);
    DistinctConcat(a + b + x, y);
    DistinctConcat(a + b, x);
    DistinctConcat(a, b);
    DistinctConcat(z, w);
    ApartTail(a, b, x, y, z, w);
    RangesApart(d, nd, s, 2);
    RangesApart(d, nd, r, nr);
    RangesApart(s, 2, r, nr);
    RangesApart(d, nd, t, nt);
    RangesApart(s, 2, t, nt);
    RangesApart(t, nt, r, nr);
    RangesApart(d, nd, e, ne);
    RangesApart(s, 2, e, ne);
    RangesApart(r, nr, e, ne);
    RangesApart(t, nt, e, ne);
    RangesApart(d, nd, c, nc);
    RangesApart(s, 2, c, nc);
    RangesApart(r, nr, c, nc);
    RangesApart(t, nt, c, nc);
    RangesApart(e, ne, c, nc);
    hide Range, Distinct, Apart;
  }

  lemma ApartTail(a: seq<nat>, b: seq<nat>, x: seq<nat>, y: seq<nat>, z: seq<nat>, w: seq<nat>)
    ensures Apart(a + b, x) <==> Apart(a, x) && Apart(b, x)
    ensures Apart(a + b + x, y) <==> Apart(a, y) && Apart(b, y) && Apart(x, y)
    ensures Apart(a + b + x + y, z + w) <==>
            && (Apart(a, z) && Apart(b, z) && Apart(x, z) && Apart(y, z))
            && (Apart(a, w) && Apart(b, w) && Apart(x, w) && Apart(y, w))
  {
    hide Apart;
    ApartConcat(a, b, x);
    ApartConcat(a, b, y);
    ApartConcat(a + b, x, y);
    ApartSplitRight(a + b + x + y, z, w);
    ApartConcat(a, b, z);
    ApartConcat(a + b, x, z);
    ApartConcat(a + b + x, y, z);
    ApartConcat(a, b, w);
    ApartConcat(a + b, x, w);
    ApartConcat(a + b + x, y, w);
  }

  lemma ApartSplitRight(a: seq<nat>, z: seq<nat>, w: seq<nat>)
    ensures Apart(a, z + w) <==> Apart(a, z) && Apart(a, w)
  {
    var s := z + w;
    if Apart(a, s) {
      forall i, j | 0 <= i < |a| && 0 <= j < |z|
        ensures a[i] != z[j]
      {
        assert s[j] == z[j];
      }
      forall i, j | 0 <= i < |a| && 0 <= j < |w|
        ensures a[i] != w[j]
      {
        assert s[|z| + j] == w[j];
      }
    }
  }

  /**
   * Exact id bounds: no two next-hop entries of a run share an id, and no two group entries
   * share an id, if and only if the ranges fit between the fixed bases.
   */
  lemma IdsDistinctIff(p: ScaleParams, multi: bool)
    requires Completes(p)
    ensures p.numRepairNHG > 0
    ensures Distinct(NhIds(Stream(p, multi))) <==> NhPlan(p, multi)
    ensures Distinct(NhgIds(Stream(p, multi))) <==> NhgPlan(p)
  {
    hide Completes, Stream, NhIds, NhgIds, Range, Distinct, SideNhCount, SideNhgCount, FirstTunnel, Quot;
    StreamIds(p, multi);
    FirstTunnelClosedForm(p.numRepairNHG, multi, p.numRepairNHG);
    SixRangesDistinct(NH_BASE_DEFAULT, 2 * NhPart(p), STATIC_S1_NHG, NH_BASE_REPAIR, RepairNhs(p, multi),
                      NH_BASE_TRANSIT, TransitNhs(p), NH_BASE_ENCAP, 1 + p.numUniqueEncapNH,
                      NH_BASE_DECAP, p.numDecapEntries);
    SixRangesDistinct(NHG_BASE_DEFAULT, 2 * NhgPart(p), STATIC_S1_NHG, NHG_BASE_REPAIR, p.numRepairNHG,
                      NHG_BASE_TRANSIT, TransitNhgs(p), NHG_BASE_ENCAP, 1 + p.numEncapDefaultNHG,
                      NHG_BASE_DECAP, p.numDecapEntries);
  }
}
