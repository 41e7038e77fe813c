/**
 * The traffic flows of the end-to-end validation: their headers, their names, how many there
 * are, the rate of each and what is expected of each.
 */
module Flows {
  import opened GoInts
  import opened Seqs
  import opened IpUtil
  import opened Rib
  import opened Params
  import opened Decimals
  import opened DefaultVrfBuilder
  import opened EncapDecapBuilder
  import opened Policy
  import opened DecapTable

  /** 192.0.2.2, 2001:db8:ffff::1, 172.16.0.2 and 172.16.0.3 */
  const ATE_PORT1 := V4(0xC000_0202)
  const ENCAP_V6_SRC := V6(0x2001_0DB8_FFFF_0000_0000_0000_0000_0001)
  const TRANSIT_INNER_DST := V4(0xAC10_0002)
  const REPAIR_INNER_DST := V4(0xAC10_0003)

  /** The values a header's fields run through. */
  datatype Header = Header(src: Addr, dsts: seq<Addr>, dscps: seq<nat>)

  /** A flow and its IP headers, outermost first. */
  datatype Flow = Flow(name: string, headers: seq<Header>)

  datatype Scenario = Encapped | Decapped | Reencapped | Transit | Repaired

  datatype Expectation = Expectation(scenario: Scenario, outerSrc: Option<nat>, dscps: seq<nat>, wantEncap: bool)

  /** What a validated run guarantees about the counts used here. */
  predicate FlowCounts(p: ScaleParams) {
    && p.numEncapVRFs > 0 && p.numPort2VLANs > 0
    && p.numDecapEntries >= 0 && 0 <= p.decapDestsSubsetPct <= 100
    && p.numEncapIPv4PerVRF >= 0 && p.numEncapIPv6PerVRF >= 0 && p.numTransitIPv4 >= 0
  }

  // Headers.

  function Increment(start: Addr, count: nat): (s: seq<Addr>)
    ensures |s| == count
  {
    seq(count, i requires 0 <= i < count => Plus(start, i))
  }

  function AteIps(p: ScaleParams): (s: seq<Addr>)
    requires p.numPort2VLANs > 0
    ensures |s| == p.numPort2VLANs
  {
    seq(p.numPort2VLANs, v requires 0 <= v < p.numPort2VLANs => AteIp(v))
  }

  function AllDscps(n: nat): seq<nat> {
    if n == 0 then [] else AllDscps(n - 1) + EncapDscps(n - 1)
  }

  /** getAllEncapDSCPVals */
  method GetAllEncapDscpVals(n: nat) returns (dscps: seq<nat>)
    ensures dscps == AllDscps(n)
  {
    dscps := [];
    for vi := 0 to n
      invariant dscps == AllDscps(vi)
    {
      dscps := dscps + EncapDscps(vi);
    }
  }

  lemma {:induction false} AllDscpsIff(n: nat, dscp: nat)
    ensures dscp in AllDscps(n) <==> ClassOf(dscp, n).Some?
  {
    hide EncapDscps, ClassOf;
    if n == 0 {
      ClassStep(dscp, 0);
    } else {
      AllDscpsIff(n - 1, dscp);
      ClassStep(dscp, n - 1);
    }
  }

  function SubsetCount(p: ScaleParams): nat {
    Max(1, Quot(p.numPort2VLANs * p.decapDestsSubsetPct, 100))
  }

  /** The VLAN of inner destination j of VRF vi: each VRF takes the next stretch of the ring of VLANs. */
  function InnerVlan(p: ScaleParams, vi: nat, j: nat): (v: nat)
    requires p.numPort2VLANs > 0
    ensures v < p.numPort2VLANs
  {
    (vi * SubsetCount(p) + j) % p.numPort2VLANs
  }

  /** The inner destinations of the decap flow of one VRF. */
  function DecapInner(p: ScaleParams, vi: nat): seq<Addr>
    requires p.numPort2VLANs > 0
  {
    var n := SubsetCount(p);
    seq(n, j requires 0 <= j < n => AteIp(InnerVlan(p, vi, j)))
  }

  // Names.

  function EncapTag(v6: bool): string {
    if v6 then "encap_ipv6_vrf_" else "encap_ipv4_vrf_"
  }

  function ReencapTag(v6: bool): string {
    if v6 then "reencap_ipv6_vrf_" else "reencap_ipv4_vrf_"
  }

  function SourceTag(second: bool): string {
    if second then "_src_222" else "_src_111"
  }

  function DecapTag(): string { "decap_vrf_" }
  function TransitTag(): string { "transit_encap_te_vrf_" }
  function RepairedTag(): string { "repaired_encap_te_vrf_" }

  function Name(sc: Scenario, compact: bool, k: nat): string {
    match sc
    case Encapped => EncapTag(k % 2 == 1) + Decimal(k / 2)
    case Decapped => DecapTag() + (if compact then "all" else Decimal(k)) + SourceTag(false)
    case Reencapped => ReencapTag(k % 2 == 1) + Decimal(k / 4) + SourceTag(k / 2 % 2 == 1)
    case Transit => TransitTag() + if compact then "all" else Decimal(k)
    case Repaired => RepairedTag() + if compact then "all" else Decimal(k)
  }

  // The flows of each scenario, by position.

  function TunnelFlow(name: string, src: nat, dscps: seq<nat>, outerDsts: seq<Addr>, innerDsts: seq<Addr>): Flow {
    Flow(name, [Header(V4(src), outerDsts, dscps), Header(ATE_PORT1, innerDsts, dscps)])
  }

  /** The customer header of an encap or reencap flow of VRF vi. */
  function CustomerHeader(p: ScaleParams, vi: nat, v6: bool): Header
    requires FlowCounts(p)
  {
    if v6 then Header(ENCAP_V6_SRC, Increment(V6(Encap6Start(vi)), p.numEncapIPv6PerVRF), EncapDscps(vi))
    else Header(ATE_PORT1, Increment(V4(Encap4Start(vi)), p.numEncapIPv4PerVRF), EncapDscps(vi))
  }

  function ReencapSrc(k: nat): nat {
    if k / 2 % 2 == 0 then OUTER_SRC_111 else OUTER_SRC_222
  }

  predicate Compacted(sc: Scenario, compact: bool) {
    compact && (sc.Decapped? || sc.Transit? || sc.Repaired?)
  }

  /** Flows per VRF in the order they are built. */
  function PerVrfFlows(sc: Scenario): (m: nat)
    ensures m > 0
  {
    match sc
    case Encapped => 2
    case Reencapped => 4
    case _ => 1
  }

  function FlowCount(p: ScaleParams, sc: Scenario, compact: bool): nat
    requires FlowCounts(p)
  {
    if Compacted(sc, compact) then 1 else p.numEncapVRFs * PerVrfFlows(sc)
  }

  /** DSCPs of flow k: those of its VRF, or of all VRFs. */
  function FlowDscps(p: ScaleParams, sc: Scenario, compact: bool, k: nat): seq<nat>
    requires FlowCounts(p)
  {
    if Compacted(sc, compact) then AllDscps(p.numEncapVRFs) else EncapDscps(k / PerVrfFlows(sc))
  }

  function FlowAt(p: ScaleParams, sc: Scenario, compact: bool, k: nat): Flow
    requires FlowCounts(p)
  {
    var name := Name(sc, compact, k);
    var dscps := FlowDscps(p, sc, compact, k);
    match sc
    case Encapped => Flow(name, [CustomerHeader(p, k / 2, k % 2 == 1)])
    case Decapped =>
      TunnelFlow(name, OUTER_SRC_111, dscps, DecapHosts(p.numDecapEntries),
                 if compact then AteIps(p) else DecapInner(p, k))
    case Reencapped =>
      Flow(name, [Header(V4(ReencapSrc(k)), DecapHosts(p.numDecapEntries), dscps),
                  CustomerHeader(p, k / 4, k % 2 == 1)])
    case Transit =>
      TunnelFlow(name, OUTER_SRC_111, dscps, Increment(V4(TRANSIT_111_START), p.numTransitIPv4), [TRANSIT_INNER_DST])
    case Repaired =>
      TunnelFlow(name, OUTER_SRC_222, dscps, Increment(V4(TRANSIT_222_START), p.numTransitIPv4), [REPAIR_INNER_DST])
  }

  /** A flow is identified by its scenario and its position there. */
  datatype FlowId = FlowId(sc: Scenario, k: nat)

  function ScenarioIds(p: ScaleParams, sc: Scenario, compact: bool): (ids: seq<FlowId>)
    requires FlowCounts(p)
    ensures |ids| == FlowCount(p, sc, compact)
  {
    var n := FlowCount(p, sc, compact);
    seq(n, k requires 0 <= k < n => FlowId(sc, k))
  }

  function FlowsOf(p: ScaleParams, compact: bool, ids: seq<FlowId>): (s: seq<Flow>)
    requires FlowCounts(p)
    ensures |s| == |ids|
  {
    seq(|ids|, i requires 0 <= i < |ids| => FlowAt(p, ids[i].sc, compact, ids[i].k))
  }

  function ScenarioFlows(p: ScaleParams, sc: Scenario, compact: bool): (s: seq<Flow>)
    requires FlowCounts(p)
    ensures |s| == FlowCount(p, sc, compact)
  {
    FlowsOf(p, compact, ScenarioIds(p, sc, compact))
  }

  // The builders.

  lemma EncapFlowAt(p: ScaleParams, compact: bool, k: nat, vi: nat, v6: bool)
    requires FlowCounts(p) && vi == k / 2 && v6 == (k % 2 == 1)
    ensures FlowAt(p, Encapped, compact, k) == Flow(EncapTag(v6) + Decimal(vi), [CustomerHeader(p, vi, v6)])
  {
    hide Decimal, EncapTag, ReencapTag, SourceTag, DecapTag, TransitTag, RepairedTag, CustomerHeader;
  }

  lemma EncapFlowIs(p: ScaleParams, compact: bool, vi: nat)
    requires FlowCounts(p)
    ensures FlowAt(p, Encapped, compact, 2 * vi) == Flow(EncapTag(false) + Decimal(vi), [CustomerHeader(p, vi, false)])
    ensures FlowAt(p, Encapped, compact, 2 * vi + 1) ==
            Flow(EncapTag(true) + Decimal(vi), [CustomerHeader(p, vi, true)])
  {
    hide FlowAt, Decimal, EncapTag, CustomerHeader;
    EncapFlowAt(p, compact, 2 * vi, vi, false);
    EncapFlowAt(p, compact, 2 * vi + 1, vi, true);
  }

  method BuildEncapFlows(p: ScaleParams, ghost compact: bool) returns (flows: seq<Flow>)
    requires FlowCounts(p)
    ensures flows == ScenarioFlows(p, Encapped, compact)
  {
    hide FlowAt, Decimal, EncapTag, ReencapTag, SourceTag, DecapTag, TransitTag, RepairedTag, EncapDscps, Increment;
    flows := [];
    for vi := 0 to p.numEncapVRFs
      invariant |flows| == 2 * vi
      invariant forall k :: 0 <= k < |flows| ==> flows[k] == FlowAt(p, Encapped, compact, k)
    {
      var dscps := EncapDscps(vi);
      var f4 := Flow(EncapTag(false) + Decimal(vi),
                     [Header(ATE_PORT1, Increment(V4(Encap4Start(vi)), p.numEncapIPv4PerVRF), dscps)]);
      flows := flows + [f4];
      var f6 := Flow(EncapTag(true) + Decimal(vi),
                     [Header(ENCAP_V6_SRC, Increment(V6(Encap6Start(vi)), p.numEncapIPv6PerVRF), dscps)]);
      flows := flows + [f6];
      EncapFlowIs(p, compact, vi);
    }
  }

  lemma DecapFlowIs(p: ScaleParams, compact: bool, k: nat)
    requires FlowCounts(p)
    ensures FlowAt(p, Decapped, compact, k) ==
            if compact then TunnelFlow(DecapTag() + "all" + SourceTag(false), OUTER_SRC_111, AllDscps(p.numEncapVRFs),
                                       DecapHosts(p.numDecapEntries), AteIps(p))
            else TunnelFlow(DecapTag() + Decimal(k) + SourceTag(false), OUTER_SRC_111, EncapDscps(k),
                            DecapHosts(p.numDecapEntries), DecapInner(p, k))
  {
    hide Decimal, EncapTag, ReencapTag, SourceTag, DecapTag, TransitTag, RepairedTag, TunnelFlow, EncapDscps,
         DecapHosts, AteIps, DecapInner;
  }

  /** The inner destinations of one decap flow. */
  method DecapInnerDsts(p: ScaleParams, vi: nat, ateIps: seq<Addr>) returns (inner: seq<Addr>)
    requires FlowCounts(p) && ateIps == AteIps(p)
    ensures inner == DecapInner(p, vi)
  {
    hide AteIp, Quot;
    var subsetCount := Max(1, Quot(p.numPort2VLANs * p.decapDestsSubsetPct, 100));
    inner := [];
    for j := 0 to subsetCount
      invariant |inner| == j
      invariant forall m :: 0 <= m < j ==> inner[m] == AteIp(InnerVlan(p, vi, m))
    {
      var idx := (vi * subsetCount + j) % p.numPort2VLANs;
      inner := inner + [ateIps[idx]];
    }
  }

  method BuildDecapFlows(p: ScaleParams, compact: bool) returns (flows: seq<Flow>)
    requires FlowCounts(p)
    ensures flows == ScenarioFlows(p, Decapped, compact)
  {
    hide FlowAt, Decimal, EncapTag, ReencapTag, SourceTag, DecapTag, TransitTag, RepairedTag, EncapDscps, DecapHosts,
         AteIps, DecapInner, TunnelFlow, AllDscps, Covers;
    var outerDsts := ExpandDecapPrefixes(p.numDecapEntries);
    var ateIps := AteIps(p);
    flows := [];
    if compact {
      var dscps := GetAllEncapDscpVals(p.numEncapVRFs);
      flows := [TunnelFlow(DecapTag() + "all" + SourceTag(false), OUTER_SRC_111, dscps, outerDsts, ateIps)];
      DecapFlowIs(p, compact, 0);
    } else {
      for vi := 0 to p.numEncapVRFs
        invariant |flows| == vi
        invariant forall k :: 0 <= k < vi ==> flows[k] == FlowAt(p, Decapped, compact, k)
      {
        var inner := DecapInnerDsts(p, vi, ateIps);
        var f := TunnelFlow(DecapTag() + Decimal(vi) + SourceTag(false), OUTER_SRC_111, EncapDscps(vi), outerDsts,
                            inner);
        flows := flows + [f];
        DecapFlowIs(p, compact, vi);
      }
    }
  }

  function ReencapFlow(p: ScaleParams, vi: nat, second: bool, v6: bool): Flow
    requires FlowCounts(p)
  {
    Flow(ReencapTag(v6) + Decimal(vi) + SourceTag(second),
         [Header(V4(if second then OUTER_SRC_222 else OUTER_SRC_111), DecapHosts(p.numDecapEntries), EncapDscps(vi)),
          CustomerHeader(p, vi, v6)])
  }

  lemma ReencapFlowAt(p: ScaleParams, compact: bool, k: nat, vi: nat, second: bool, v6: bool)
    requires FlowCounts(p) && vi == k / 4 && second == (k / 2 % 2 == 1) && v6 == (k % 2 == 1)
    ensures FlowAt(p, Reencapped, compact, k) == ReencapFlow(p, vi, second, v6)
  {
    hide Decimal, EncapTag, ReencapTag, SourceTag, DecapTag, TransitTag, RepairedTag, CustomerHeader, EncapDscps,
         DecapHosts;
  }

  lemma ReencapIndex(vi: nat, r: nat)
    requires r < 4
    ensures (4 * vi + r) / 4 == vi && (4 * vi + r) % 2 == r % 2 && (4 * vi + r) / 2 % 2 == r / 2
  {
    assert (4 * vi + r) / 2 == 2 * vi + r / 2;
  }

  lemma ReencapFlowIs(p: ScaleParams, compact: bool, vi: nat, second: bool)
    requires FlowCounts(p)
    ensures var k := 4 * vi + if second then 2 else 0;
            && FlowAt(p, Reencapped, compact, k) == ReencapFlow(p, vi, second, false)
            && FlowAt(p, Reencapped, compact, k + 1) == ReencapFlow(p, vi, second, true)
  {
    hide FlowAt, ReencapFlow;
    var r := if second then 2 else 0;
    ReencapIndex(vi, r);
    ReencapIndex(vi, r + 1);
    ReencapFlowAt(p, compact, 4 * vi + r, vi, second, false);
    ReencapFlowAt(p, compact, 4 * vi + r + 1, vi, second, true);
  }

  method BuildReencapFlows(p: ScaleParams, ghost compact: bool) returns (flows: seq<Flow>)
    requires FlowCounts(p)
    ensures flows == ScenarioFlows(p, Reencapped, compact)
  {
    hide FlowAt, Decimal, EncapTag, ReencapTag, SourceTag, DecapTag, TransitTag, RepairedTag, EncapDscps, DecapHosts,
         Increment, Covers;
    var decapDsts := ExpandDecapPrefixes(p.numDecapEntries);
    flows := [];
    for vi := 0 to p.numEncapVRFs
      invariant |flows| == 4 * vi
      invariant forall k :: 0 <= k < |flows| ==> flows[k] == FlowAt(p, Reencapped, compact, k)
    {
      var dscps := EncapDscps(vi);
      for i := 0 to 2
        invariant |flows| == 4 * vi + 2 * i
        invariant forall k :: 0 <= k < |flows| ==> flows[k] == FlowAt(p, Reencapped, compact, k)
      {
        var outerSrc := if i == 0 then OUTER_SRC_111 else OUTER_SRC_222;
        var tag := SourceTag(i == 1);
        var f4 := Flow(ReencapTag(false) + Decimal(vi) + tag,
                       [Header(V4(outerSrc), decapDsts, dscps),
                        Header(ATE_PORT1, Increment(V4(Encap4Start(vi)), p.numEncapIPv4PerVRF), dscps)]);
        flows := flows + [f4];
        var f6 := Flow(ReencapTag(true) + Decimal(vi) + tag,
                       [Header(V4(outerSrc), decapDsts, dscps),
                        Header(ENCAP_V6_SRC, Increment(V6(Encap6Start(vi)), p.numEncapIPv6PerVRF), dscps)]);
        flows := flows + [f6];
        ReencapFlowIs(p, compact, vi, i == 1);
      }
    }
  }

  lemma TransitFlowIs(p: ScaleParams, compact: bool, k: nat)
    requires FlowCounts(p)
    ensures FlowAt(p, Transit, compact, k) ==
            TunnelFlow(if compact then TransitTag() + "all" else TransitTag() + Decimal(k), OUTER_SRC_111,
                       if compact then AllDscps(p.numEncapVRFs) else EncapDscps(k),
                       Increment(V4(TRANSIT_111_START), p.numTransitIPv4), [TRANSIT_INNER_DST])
    ensures FlowAt(p, Repaired, compact, k) ==
            TunnelFlow(if compact then RepairedTag() + "all" else RepairedTag() + Decimal(k), OUTER_SRC_222,
                       if compact then AllDscps(p.numEncapVRFs) else EncapDscps(k),
                       Increment(V4(TRANSIT_222_START), p.numTransitIPv4), [REPAIR_INNER_DST])
  {
    hide Decimal, EncapTag, ReencapTag, SourceTag, DecapTag, TransitTag, RepairedTag, TunnelFlow, EncapDscps,
         AllDscps, Increment;
  }

  method BuildTransitFlows(p: ScaleParams, compact: bool) returns (flows: seq<Flow>)
    requires FlowCounts(p)
    ensures flows == ScenarioFlows(p, Transit, compact)
  {
    hide FlowAt, Decimal, EncapTag, ReencapTag, SourceTag, DecapTag, TransitTag, RepairedTag, EncapDscps, TunnelFlow,
         AllDscps, Increment;
    var dsts := Increment(V4(TRANSIT_111_START), p.numTransitIPv4);
    flows := [];
    if compact {
      var dscps := GetAllEncapDscpVals(p.numEncapVRFs);
      flows := [TunnelFlow(TransitTag() + "all", OUTER_SRC_111, dscps, dsts, [TRANSIT_INNER_DST])];
      TransitFlowIs(p, compact, 0);
    } else {
      for vi := 0 to p.numEncapVRFs
        invariant |flows| == vi
        invariant forall k :: 0 <= k < vi ==> flows[k] == FlowAt(p, Transit, compact, k)
      {
        var f := TunnelFlow(TransitTag() + Decimal(vi), OUTER_SRC_111, EncapDscps(vi), dsts, [TRANSIT_INNER_DST]);
        flows := flows + [f];
        TransitFlowIs(p, compact, vi);
      }
    }
  }

  method BuildRepairedFlows(p: ScaleParams, compact: bool) returns (flows: seq<Flow>)
    requires FlowCounts(p)
    ensures flows == ScenarioFlows(p, Repaired, compact)
  {
    hide FlowAt, Decimal, EncapTag, ReencapTag, SourceTag, DecapTag, TransitTag, RepairedTag, EncapDscps, TunnelFlow,
         AllDscps, Increment;
    var dsts := Increment(V4(TRANSIT_222_START), p.numTransitIPv4);
    flows := [];
    if compact {
      var dscps := GetAllEncapDscpVals(p.numEncapVRFs);
      flows := [TunnelFlow(RepairedTag() + "all", OUTER_SRC_222, dscps, dsts, [REPAIR_INNER_DST])];
      TransitFlowIs(p, compact, 0);
    } else {
      for vi := 0 to p.numEncapVRFs
        invariant |flows| == vi
        invariant forall k :: 0 <= k < vi ==> flows[k] == FlowAt(p, Repaired, compact, k)
      {
        var f := TunnelFlow(RepairedTag() + Decimal(vi), OUTER_SRC_222, EncapDscps(vi), dsts, [REPAIR_INNER_DST]);
        flows := flows + [f];
        TransitFlowIs(p, compact, vi);
      }
    }
  }

  // Distinct names.

  lemma SamePrefix(a: string, x: string, y: string)
    requires a + x == a + y
    ensures x == y
  {
    assert (a + x)[|a|..] == x && (a + y)[|a|..] == y;
  }

  lemma SameSuffix(x: string, y: string, b: string)
    requires x + b == y + b
    ensures x == y
  {
    assert (x + b)[..|x|] == x && (y + b)[..|y|] == y;
  }

  lemma CharOfPrefix(a: string, x: string, i: nat)
    requires i < |a|
    ensures (a + x)[i] == a[i]
  {
  }

  lemma EncapTagStarts(x: string, y: string, s: bool, t: bool)
    requires EncapTag(s) + x == EncapTag(t) + y
    ensures s == t && x == y
  {
    CharOfPrefix(EncapTag(s), x, 9);
    CharOfPrefix(EncapTag(t), y, 9);
    SamePrefix(EncapTag(s), x, y);
  }

  lemma ReencapTagStarts(x: string, y: string, s: bool, t: bool)
    requires ReencapTag(s) + x == ReencapTag(t) + y
    ensures s == t && x == y
  {
    CharOfPrefix(ReencapTag(s), x, 11);
    CharOfPrefix(ReencapTag(t), y, 11);
    SamePrefix(ReencapTag(s), x, y);
  }

  lemma SourceTagEnds(x: string, y: string, s: bool, t: bool)
    requires x + SourceTag(s) == y + SourceTag(t)
    ensures s == t && x == y
  {
    var u, w := x + SourceTag(s), y + SourceTag(t);
    assert u[|u| - 1] == SourceTag(s)[7] && w[|w| - 1] == SourceTag(t)[7];
    SameSuffix(x, y, SourceTag(s));
  }

  lemma EncapNamesDistinct(k: nat, m: nat)
    requires Name(Encapped, false, k) == Name(Encapped, false, m)
    ensures k == m
  {
    hide Decimal, EncapTag;
    EncapTagStarts(Decimal(k / 2), Decimal(m / 2), k % 2 == 1, m % 2 == 1);
    DecimalInjective(k / 2, m / 2);
  }

  lemma ReencapNamesDistinct(k: nat, m: nat)
    requires Name(Reencapped, false, k) == Name(Reencapped, false, m)
    ensures k == m
  {
    hide Decimal, ReencapTag, SourceTag;
    var x, y := ReencapTag(k % 2 == 1) + Decimal(k / 4), ReencapTag(m % 2 == 1) + Decimal(m / 4);
    SourceTagEnds(x, y, k / 2 % 2 == 1, m / 2 % 2 == 1);
    ReencapTagStarts(Decimal(k / 4), Decimal(m / 4), k % 2 == 1, m % 2 == 1);
    DecimalInjective(k / 4, m / 4);
    FourthsDetermine(k, m);
  }

  lemma HalfOfHalf(k: nat)
    ensures k / 2 / 2 == k / 4
  {
    var h := k / 2;
    assert k == 4 * (h / 2) + (2 * (h % 2) + k % 2);
    DivMod(k, 4, h / 2, 2 * (h % 2) + k % 2);
  }

  lemma FourthsDetermine(k: nat, m: nat)
    requires k / 4 == m / 4 && k % 2 == m % 2 && k / 2 % 2 == m / 2 % 2
    ensures k == m
  {
    HalfOfHalf(k);
    HalfOfHalf(m);
    var a, b := k / 2, m / 2;
    assert a / 2 == b / 2 && a % 2 == b % 2;
    assert a == b;
  }

  lemma PlainNamesDistinct(sc: Scenario, k: nat, m: nat)
    requires sc.Decapped? || sc.Transit? || sc.Repaired?
    requires Name(sc, false, k) == Name(sc, false, m)
    ensures k == m
  {
    hide Decimal, DecapTag, TransitTag, RepairedTag, SourceTag;
    match sc
    case Decapped =>
      SourceTagEnds(DecapTag() + Decimal(k), DecapTag() + Decimal(m), false, false);
      SamePrefix(DecapTag(), Decimal(k), Decimal(m));
      DecimalInjective(k, m);
    case Transit =>
      SamePrefix(TransitTag(), Decimal(k), Decimal(m));
      DecimalInjective(k, m);
    case Repaired =>
      SamePrefix(RepairedTag(), Decimal(k), Decimal(m));
      DecimalInjective(k, m);
  }

  /** Two characters that tell the scenarios' names apart. */
  function Tag(sc: Scenario): (char, char) {
    match sc
    case Encapped => ('e', 'c')
    case Decapped => ('d', 'c')
    case Reencapped => ('r', 'e')
    case Transit => ('t', 'a')
    case Repaired => ('r', 'p')
  }

  lemma TagChars(b: bool)
    ensures var t := EncapTag(b); |t| > 2 && (t[0], t[2]) == Tag(Encapped)
    ensures var t := DecapTag(); |t| > 2 && (t[0], t[2]) == Tag(Decapped)
    ensures var t := ReencapTag(b); |t| > 2 && (t[0], t[2]) == Tag(Reencapped)
    ensures var t := TransitTag(); |t| > 2 && (t[0], t[2]) == Tag(Transit)
    ensures var t := RepairedTag(); |t| > 2 && (t[0], t[2]) == Tag(Repaired)
  {
  }

  lemma NameTag(sc: Scenario, compact: bool, k: nat)
    ensures var s := Name(sc, compact, k); |s| > 2 && (s[0], s[2]) == Tag(sc)
  {
    hide Decimal, SourceTag, EncapTag, DecapTag, ReencapTag, TransitTag, RepairedTag, Tag;
    TagChars(k % 2 == 1);
    match sc
    case Encapped => TagStarts(EncapTag(k % 2 == 1), Decimal(k / 2), "");
    case Decapped => TagStarts(DecapTag(), if compact then "all" else Decimal(k), SourceTag(false));
    case Reencapped => TagStarts(ReencapTag(k % 2 == 1), Decimal(k / 4), SourceTag(k / 2 % 2 == 1));
    case Transit => TagStarts(TransitTag(), if compact then "all" else Decimal(k), "");
    case Repaired => TagStarts(RepairedTag(), if compact then "all" else Decimal(k), "");
  }

  lemma TagStarts(tag: string, x: string, y: string)
    requires |tag| > 2
    ensures |tag + x + y| > 2 && (tag + x + y)[0] == tag[0] && (tag + x + y)[2] == tag[2]
    ensures |tag + x| > 2 && (tag + x)[0] == tag[0] && (tag + x)[2] == tag[2]
  {
  }

  lemma TagInjective(a: Scenario, b: Scenario)
    requires Tag(a) == Tag(b)
    ensures a == b
  {
  }

  lemma NamesDistinct(p: ScaleParams, a: Scenario, b: Scenario, compact: bool, k: nat, m: nat)
    requires FlowCounts(p) && k < FlowCount(p, a, compact) && m < FlowCount(p, b, compact)
    requires Name(a, compact, k) == Name(b, compact, m)
    ensures a == b && k == m
  {
    hide Name, Tag;
    NameTag(a, compact, k);
    NameTag(b, compact, m);
    TagInjective(a, b);
    if !Compacted(a, compact) {
      NameIgnoresCompact(a, compact, k);
      NameIgnoresCompact(a, compact, m);
      match a
      case Encapped => EncapNamesDistinct(k, m);
      case Reencapped => ReencapNamesDistinct(k, m);
      case _ => PlainNamesDistinct(a, k, m);
    }
  }

  lemma NameIgnoresCompact(sc: Scenario, compact: bool, k: nat)
    requires !Compacted(sc, compact)
    ensures Name(sc, compact, k) == Name(sc, false, k)
  {
  }

  // All flows of one run.

  /** The flows in the order they are built; the repair test sends transit flows only. */
  function RunIds(p: ScaleParams, compact: bool, testRepair: bool): seq<FlowId>
    requires FlowCounts(p)
  {
    if testRepair then ScenarioIds(p, Transit, compact)
    else ScenarioIds(p, Encapped, compact) + ScenarioIds(p, Decapped, compact) + ScenarioIds(p, Reencapped, compact)
         + ScenarioIds(p, Transit, compact) + ScenarioIds(p, Repaired, compact)
  }

  /** The order in which the scenarios are built. */
  function Place(sc: Scenario): nat {
    match sc
    case Encapped => 0
    case Decapped => 1
    case Reencapped => 2
    case Transit => 3
    case Repaired => 4
  }

  /** Flows of the first n scenarios only. */
  ghost predicate OnlyBelow(p: ScaleParams, compact: bool, ids: seq<FlowId>, n: nat)
    requires FlowCounts(p)
  {
    forall i :: 0 <= i < |ids| ==> Place(ids[i].sc) < n && ids[i].k < FlowCount(p, ids[i].sc, compact)
  }

  lemma OneMoreScenario(p: ScaleParams, compact: bool, ids: seq<FlowId>, n: nat, sc: Scenario)
    requires FlowCounts(p) && Distinct(ids) && OnlyBelow(p, compact, ids, n) && n <= Place(sc)
    ensures Distinct(ids + ScenarioIds(p, sc, compact))
    ensures OnlyBelow(p, compact, ids + ScenarioIds(p, sc, compact), Place(sc) + 1)
  {
    hide FlowCount;
  }

  /** No two flows of a run have the same name. */
  lemma RunNamesDistinct(p: ScaleParams, compact: bool, testRepair: bool)
    requires FlowCounts(p)
    ensures var ids := RunIds(p, compact, testRepair);
            forall i, j :: 0 <= i < j < |ids| ==>
              Name(ids[i].sc, compact, ids[i].k) != Name(ids[j].sc, compact, ids[j].k)
  {
    hide Name, FlowCount, ScenarioIds;
    RunIdsDistinct(p, compact, testRepair);
    var ids := RunIds(p, compact, testRepair);
    forall i, j | 0 <= i < j < |ids|
      ensures Name(ids[i].sc, compact, ids[i].k) != Name(ids[j].sc, compact, ids[j].k)
    {
      if Name(ids[i].sc, compact, ids[i].k) == Name(ids[j].sc, compact, ids[j].k) {
        NamesDistinct(p, ids[i].sc, ids[j].sc, compact, ids[i].k, ids[j].k);
      }
    }
  }

  lemma RunIdsDistinct(p: ScaleParams, compact: bool, testRepair: bool)
    requires FlowCounts(p)
    ensures Distinct(RunIds(p, compact, testRepair))
    ensures OnlyBelow(p, compact, RunIds(p, compact, testRepair), 5)
  {
    hide ScenarioIds, FlowCount;
    if testRepair {
      OneMoreScenario(p, compact, [], 0, Transit);
      assert [] + ScenarioIds(p, Transit, compact) == ScenarioIds(p, Transit, compact);
    } else {
      var a := ScenarioIds(p, Encapped, compact);
      OneMoreScenario(p, compact, [], 0, Encapped);
      assert [] + a == a;
      var b := a + ScenarioIds(p, Decapped, compact);
      OneMoreScenario(p, compact, a, 1, Decapped);
      var c := b + ScenarioIds(p, Reencapped, compact);
      OneMoreScenario(p, compact, b, 2, Reencapped);
      OneMoreScenario(p, compact, c, 3, Transit);
      OneMoreScenario(p, compact, c + ScenarioIds(p, Transit, compact), 4, Repaired);
    }
  }

  lemma FlowsOfConcat(p: ScaleParams, compact: bool, a: seq<FlowId>, b: seq<FlowId>)
    requires FlowCounts(p)
    ensures FlowsOf(p, compact, a + b) == FlowsOf(p, compact, a) + FlowsOf(p, compact, b)
  {
    hide FlowAt;
  }

  /** CountBaseFlows, computed before any flow is built */
  method CountBaseFlows(compact: bool, testRepair: bool, p: ScaleParams) returns (n: int)
    requires FlowCounts(p)
    ensures n == |RunIds(p, compact, testRepair)| > 0
    ensures n == if testRepair then (if compact then 1 else p.numEncapVRFs)
                 else if compact then 6 * p.numEncapVRFs + 3 else 9 * p.numEncapVRFs
  {
    var transitFlows := p.numEncapVRFs;
    if compact {
      transitFlows := 1;
    }
    if testRepair {
      return transitFlows;
    }
    var decapFlows, repairedFlows := p.numEncapVRFs, p.numEncapVRFs;
    if compact {
      decapFlows, repairedFlows := 1, 1;
    }
    n := p.numEncapVRFs * 2 + decapFlows + p.numEncapVRFs * 2 * 2 + transitFlows + repairedFlows;
  }

  // Expectations.

  function ExpectedSrc(sc: Scenario, testRepair: bool): Option<nat> {
    match sc
    case Encapped => Some(OUTER_SRC_111)
    case Transit => if testRepair then Some(OUTER_SRC_222) else Some(OUTER_SRC_111)
    case Repaired => Some(OUTER_SRC_222)
    case _ => None
  }

  /** What is expected of a flow: the DSCPs are the ones it is sent with. */
  function ExpectationOf(p: ScaleParams, compact: bool, testRepair: bool, id: FlowId): Expectation
    requires FlowCounts(p)
  {
    Expectation(id.sc, ExpectedSrc(id.sc, testRepair), FlowDscps(p, id.sc, compact, id.k), !id.sc.Decapped?)
  }

  function NameOf(compact: bool, id: FlowId): string {
    Name(id.sc, compact, id.k)
  }

  /** Every flow has its own expectation, and there is no other. */
  ghost predicate Registered(p: ScaleParams, compact: bool, testRepair: bool, ids: seq<FlowId>,
                             expectations: map<string, Expectation>)
    requires FlowCounts(p)
  {
    && (forall i :: 0 <= i < |ids| ==>
          && NameOf(compact, ids[i]) in expectations
          && expectations[NameOf(compact, ids[i])] == ExpectationOf(p, compact, testRepair, ids[i]))
    && (forall name :: name in expectations ==> exists i :: 0 <= i < |ids| && name == NameOf(compact, ids[i]))
  }

  lemma RegisterOne(p: ScaleParams, compact: bool, testRepair: bool, ids: seq<FlowId>, m: map<string,
                    Expectation>, id: FlowId)
    requires FlowCounts(p) && Registered(p, compact, testRepair, ids, m) && NameOf(compact, id) !in m
    ensures Registered(p, compact, testRepair, ids + [id],
                       m[NameOf(compact, id) := ExpectationOf(p, compact, testRepair, id)])
  {
    hide NameOf, ExpectationOf;
    var ids' := ids + [id];
    var m' := m[NameOf(compact, id) := ExpectationOf(p, compact, testRepair, id)];
    forall name | name in m'
      ensures exists i :: 0 <= i < |ids'| && name == NameOf(compact, ids'[i])
    {
      if name in m {
        var i :| 0 <= i < |ids| && name == NameOf(compact, ids[i]);
        assert ids'[i] == ids[i];
      } else {
        assert name == NameOf(compact, ids'[|ids|]);
      }
    }
  }

  lemma FreshName(p: ScaleParams, compact: bool, testRepair: bool, ids: seq<FlowId>, m: map<string,
                  Expectation>, id: FlowId)
    requires FlowCounts(p) && Registered(p, compact, testRepair, ids, m)
    requires OnlyBelow(p, compact, ids, 5) && id.k < FlowCount(p, id.sc, compact) && id !in ids
    ensures NameOf(compact, id) !in m
  {
    hide Name, FlowCount, ExpectationOf;
    if NameOf(compact, id) in m {
      var i :| 0 <= i < |ids| && NameOf(compact, id) == NameOf(compact, ids[i]);
      NamesDistinct(p, ids[i].sc, id.sc, compact, ids[i].k, id.k);
    }
  }

  lemma NextFlow(p: ScaleParams, compact: bool, ids: seq<FlowId>, n: nat, sc: Scenario, fi: nat)
    requires FlowCounts(p) && OnlyBelow(p, compact, ids, n) && n <= Place(sc) && fi < FlowCount(p, sc, compact)
    ensures var added := ScenarioIds(p, sc, compact);
            && added[fi] == FlowId(sc, fi)
            && OnlyBelow(p, compact, ids + added[..fi], 5)
            && added[fi] !in ids + added[..fi]
            && ids + added[..fi] + [added[fi]] == ids + added[..fi + 1]
  {
    hide FlowCount;
  }

  /** The registration closure: one expectation per flow, with the VRF taken from the flow's position. */
  method AddFlows(p: ScaleParams, compact: bool, testRepair: bool, built: seq<Flow>, sc: Scenario,
                  outerSrc: Option<nat>,
                  wantEncap: bool, flowsPerVRF: nat, expectations: map<string, Expectation>,
                  ghost ids: seq<FlowId>, ghost n: nat)
    returns (all: map<string, Expectation>)
    requires FlowCounts(p) && built == ScenarioFlows(p, sc, compact)
    requires flowsPerVRF == PerVrfFlows(sc) && outerSrc == ExpectedSrc(sc, false) && wantEncap == !sc.Decapped?
    requires OnlyBelow(p, compact, ids, n) && n <= Place(sc) && Registered(p, compact, testRepair, ids, expectations)
    ensures Registered(p, compact, testRepair, ids + ScenarioIds(p, sc, compact), all)
  {
    hide Name, EncapDscps, PerVrfFlows, Registered, FlowCount, AllDscps, OnlyBelow, ScenarioIds, FlowAt;
    all := expectations;
    ghost var added := ScenarioIds(p, sc, compact);
    assert ids + added[..0] == ids;
    for fi := 0 to |built|
      invariant Registered(p, compact, testRepair, ids + added[..fi], all)
    {
      NextFlow(p, compact, ids, n, sc, fi);
      ghost var before := ids + added[..fi];
      FreshName(p, compact, testRepair, before, all, added[fi]);
      RegisterOne(p, compact, testRepair, before, all, added[fi]);
      FlowNameIs(p, sc, compact, fi);
      var dscps: seq<nat>;
      if compact && (sc == Decapped || sc == Transit || sc == Repaired) {
        dscps := GetAllEncapDscpVals(p.numEncapVRFs);
      } else {
        dscps := EncapDscps(fi / flowsPerVRF);
      }
      var src := outerSrc;
      if testRepair && sc == Transit {
        src := Some(OUTER_SRC_222);
      }
      all := all[built[fi].name := Expectation(sc, src, dscps, wantEncap)];
    }
    assert added[..|built|] == added;
  }

  lemma FlowNameIs(p: ScaleParams, sc: Scenario, compact: bool, k: nat)
    requires FlowCounts(p)
    ensures FlowAt(p, sc, compact, k).name == Name(sc, compact, k)
  {
    hide Name;
  }

  // The rate.

  lemma RateLaw(total: nat, n: nat)
    requires n > 0
    ensures total >= n ==> total / n >= 1 && n * (total / n) <= total < n * (total / n + 1)
    ensures total < n ==> total / n == 0
  {
    DivAtLeastOne(total, n);
    assert total == n * (total / n) + total % n;
    assert n * (total / n + 1) == n * (total / n) + n;
  }

  /** The rate per flow, from the total rate and the flow count. */
  method PerFlowRate(p: ScaleParams, compact: bool, testRepair: bool) returns (pps: nat)
    requires FlowCounts(p)
    ensures var n := |RunIds(p, compact, testRepair)|;
            if p.trafficRateMpps >= n then n * pps <= p.trafficRateMpps < n * (pps + 1) else pps == 1
  {
    hide RunIds;
    var count := CountBaseFlows(compact, testRepair, p);
    var baseFlows := Max(count, 1);
    RateLaw(p.trafficRateMpps, count);
    pps := p.trafficRateMpps / baseFlows;
    if pps == 0 {
      pps := 1;
    }
  }

  lemma FlowsOfFive(p: ScaleParams, compact: bool)
    requires FlowCounts(p)
    ensures FlowsOf(p, compact, RunIds(p, compact, false)) ==
            ScenarioFlows(p, Encapped, compact) + ScenarioFlows(p, Decapped, compact)
            + ScenarioFlows(p, Reencapped, compact) + ScenarioFlows(p, Transit, compact)
            + ScenarioFlows(p, Repaired, compact)
  {
    hide FlowsOf, ScenarioIds;
    var a, b := ScenarioIds(p, Encapped, compact), ScenarioIds(p, Decapped, compact);
    var c, d := ScenarioIds(p, Reencapped, compact), ScenarioIds(p, Transit, compact);
    var e := ScenarioIds(p, Repaired, compact);
    FlowsOfConcat(p, compact, a + b + c + d, e);
    FlowsOfConcat(p, compact, a + b + c, d);
    FlowsOfConcat(p, compact, a + b, c);
    FlowsOfConcat(p, compact, a, b);
  }

  /** The flows of one end-to-end run, with what is expected of each, before traffic starts. */
  method BuildRun(p: ScaleParams, compact: bool, testRepair: bool)
    returns (flows: seq<Flow>, expectations: map<string, Expectation>)
    requires FlowCounts(p)
    ensures flows == FlowsOf(p, compact, RunIds(p, compact, testRepair))
    ensures Registered(p, compact, testRepair, RunIds(p, compact, testRepair), expectations)
  {
    hide FlowsOf, ScenarioIds, Registered, OnlyBelow, Distinct;
    expectations := map[];
    ghost var none: seq<FlowId> := [];
    NothingRegistered(p, compact, testRepair, expectations);
    if testRepair {
      flows := BuildTransitFlows(p, compact);
      expectations := AddFlows(p, compact, testRepair, flows, Transit, Some(OUTER_SRC_111), true, 1,
                               expectations, none, 0);
      assert none + ScenarioIds(p, Transit, compact) == RunIds(p, compact, testRepair);
      return;
    }
    var encap := BuildEncapFlows(p, compact);
    expectations := AddFlows(p, compact, testRepair, encap, Encapped, Some(OUTER_SRC_111), true, 2,
                             expectations, none, 0);
    OneMoreScenario(p, compact, none, 0, Encapped);
    ghost var a := ScenarioIds(p, Encapped, compact);
    assert none + a == a;
    var decap := BuildDecapFlows(p, compact);
    expectations := AddFlows(p, compact, testRepair, decap, Decapped, None, false, 1, expectations, a, 1);
    OneMoreScenario(p, compact, a, 1, Decapped);
    ghost var b := a + ScenarioIds(p, Decapped, compact);
    var reencap := BuildReencapFlows(p, compact);
    expectations := AddFlows(p, compact, testRepair, reencap, Reencapped, None, true, 4, expectations, b, 2);
    OneMoreScenario(p, compact, b, 2, Reencapped);
    ghost var c := b + ScenarioIds(p, Reencapped, compact);
    var transit := BuildTransitFlows(p, compact);
    expectations := AddFlows(p, compact, testRepair, transit, Transit, Some(OUTER_SRC_111), true, 1,
                             expectations, c, 3);
    OneMoreScenario(p, compact, c, 3, Transit);
    ghost var d := c + ScenarioIds(p, Transit, compact);
    var repaired := BuildRepairedFlows(p, compact);
    expectations := AddFlows(p, compact, testRepair, repaired, Repaired, Some(OUTER_SRC_222), true, 1,
                             expectations, d, 4);
    flows := encap + decap + reencap + transit + repaired;
    FlowsOfFive(p, compact);
  }

  lemma NothingRegistered(p: ScaleParams, compact: bool, testRepair: bool, m: map<string, Expectation>)
    requires FlowCounts(p) && m == map[]
    ensures Registered(p, compact, testRepair, [], m) && OnlyBelow(p, compact, [], 0) && Distinct<FlowId>([])
  {
  }
}
