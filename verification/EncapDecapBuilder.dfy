/**
 * BuildEncapDecapVRFs: tunnels into TE_VRF_111, one slice of groups and one set of routes per
 * encap VRF, and the decap prefixes of mixed length.
 */
module EncapDecapBuilder {
  import opened GoInts
  import opened IpUtil
  import opened Rib
  import opened Params
  import opened RoundRobin
  import opened NhgPartition
  import opened BucketIterator
  import opened Integrity
  import opened DefaultVrfBuilder

  /** 200.vi.0.1 and 2001:db8:vi::1 */
  function Encap4Start(vi: nat): nat { 0xC800_0001 + vi * 0x1_0000 }
  function Encap6Start(vi: nat): nat {
    0x2001_0DB8_0000_0000_0000_0000_0000_0001 + vi * 0x1_0000_0000_0000_0000_0000
  }

  const FALLBACK_NH := NH_BASE_ENCAP
  const FIRST_ENCAP_NH := NH_BASE_ENCAP + 1
  const FALLBACK_NHG := NHG_BASE_ENCAP
  const FIRST_ENCAP_NHG := NHG_BASE_ENCAP + 1
  const FALLBACK_GROUP := Group([Hop(FALLBACK_NH, 1)], None)

  /** Number of tunnels the encap next-hops share. */
  function TunnelsToUse(p: ScaleParams): int {
    Min(p.numUniqueEncapNH, p.numTransitIPv4)
  }

  function EncapNextHops(p: ScaleParams): (s: seq<NextHop>)
    ensures |s| == Max(p.numUniqueEncapNH, 0)
  {
    var n, t := Max(p.numUniqueEncapNH, 0), TunnelsToUse(p);
    seq(n, i requires 0 <= i < n =>
      Encap(V4(OUTER_SRC_111), V4(TRANSIT_111_START + (if t > 0 then i % t else 0)), TransitVrf111))
  }

  /** Groups per VRF, except that the last VRF takes what is left. */
  function PerVrf(p: ScaleParams): (n: nat)
    requires p.numEncapVRFs > 0
    ensures n >= 1
  {
    Max(Quot(p.numEncapDefaultNHG, p.numEncapVRFs), 1)
  }

  /** First group of VRF vi's slice; SliceStart(V) is the number of groups in all. */
  function SliceStart(p: ScaleParams, vi: nat): int
    requires p.numEncapVRFs > 0
  {
    if vi < p.numEncapVRFs then vi * PerVrf(p) else p.numEncapDefaultNHG
  }

  function SliceCount(p: ScaleParams, vi: nat): int
    requires p.numEncapVRFs > 0
  {
    if vi == p.numEncapVRFs - 1 then p.numEncapDefaultNHG - vi * PerVrf(p) else PerVrf(p)
  }

  /** The slices tile the groups without gap or overlap, and none is empty. */
  lemma SlicesTile(p: ScaleParams, vi: nat)
    requires 0 < p.numEncapVRFs <= p.numEncapDefaultNHG && vi < p.numEncapVRFs
    ensures SliceStart(p, 0) == 0
    ensures SliceCount(p, vi) >= 1
    ensures SliceStart(p, vi + 1) == SliceStart(p, vi) + SliceCount(p, vi)
    ensures 0 <= SliceStart(p, vi) < SliceStart(p, vi + 1) <= p.numEncapDefaultNHG
  {
    var v, e := p.numEncapVRFs, p.numEncapDefaultNHG;
    DivAtLeastOne(e, v);
    var per := PerVrf(p);
    assert per == e / v;
    assert e == v * per + e % v;
    assert vi * per + per == (vi + 1) * per;
    MulMonotone(vi + 1, v, per);
    assert vi * per >= 0;
  }

  lemma MulMonotone(a: nat, b: nat, c: nat)
    requires a <= b
    ensures a * c <= b * c
  {
    assert b * c == a * c + (b - a) * c;
    assert (b - a) * c >= 0;
  }

  ghost function SliceWeights(p: ScaleParams, vi: nat): (ws: seq<seq<nat>>)
    requires ValidParams(p) && vi < p.numEncapVRFs
    ensures |ws| == SliceCount(p, vi)
  {
    SlicesTile(p, vi);
    CallWeights(SliceCount(p, vi), p.encapNHGLoadBalance, p.encapNHGWeight, Max(p.numUniqueEncapNH, 0))
  }

  /** The weights of all groups of VRFs 0 .. v - 1, in order. */
  ghost function WeightsUpTo(p: ScaleParams, v: nat): (ws: seq<seq<nat>>)
    requires ValidParams(p) && v <= p.numEncapVRFs
    ensures |ws| == SliceStart(p, v)
  {
    if v == 0 then
      SlicesTile(p, 0);
      []
    else
      SlicesTile(p, v - 1);
      WeightsUpTo(p, v - 1) + SliceWeights(p, v - 1)
  }

  ghost function EncapWeights(p: ScaleParams): (ws: seq<seq<nat>>)
    requires ValidParams(p)
    ensures |ws| == p.numEncapDefaultNHG
  {
    WeightsUpTo(p, p.numEncapVRFs)
  }

  lemma WeightsUpToStep(p: ScaleParams, v: nat)
    requires ValidParams(p) && v < p.numEncapVRFs
    ensures WeightsUpTo(p, v + 1) == WeightsUpTo(p, v) + SliceWeights(p, v)
    ensures 0 <= SliceStart(p, v) < SliceStart(p, v + 1) <= p.numEncapDefaultNHG
  {
    SlicesTile(p, v);
  }

  lemma {:induction false} WeightsUpToPrefix(p: ScaleParams, v: nat, w: nat)
    requires ValidParams(p) && v <= w <= p.numEncapVRFs
    ensures SliceStart(p, v) <= SliceStart(p, w)
    ensures WeightsUpTo(p, w)[..SliceStart(p, v)] == WeightsUpTo(p, v)
    decreases w
  {
    hide ValidParams, SliceWeights, SliceStart, SliceCount, WeightsUpTo;
    if v == w {
      assert WeightsUpTo(p, w)[..|WeightsUpTo(p, w)|] == WeightsUpTo(p, w);
    } else {
      WeightsUpToPrefix(p, v, w - 1);
      WeightsUpToStep(p, w - 1);
      assert WeightsUpTo(p, w)[..SliceStart(p, v)] == WeightsUpTo(p, w - 1)[..SliceStart(p, v)];
    }
  }

  /** The i-th group of VRF vi's slice has the weights of that slice's own iterator. */
  lemma SliceInAll(p: ScaleParams, vi: nat, i: nat)
    requires ValidParams(p) && vi < p.numEncapVRFs && i < SliceCount(p, vi)
    ensures 0 <= SliceStart(p, vi) && SliceStart(p, vi) + i < p.numEncapDefaultNHG
    ensures EncapWeights(p)[SliceStart(p, vi) + i] == SliceWeights(p, vi)[i]
  {
    hide ValidParams, SliceWeights, SliceStart, SliceCount, WeightsUpTo;
    WeightsUpToPrefix(p, vi + 1, p.numEncapVRFs);
    WeightsUpToStep(p, vi);
    var ws := WeightsUpTo(p, vi + 1);
    assert EncapWeights(p)[..SliceStart(p, vi + 1)] == ws;
    assert ws[SliceStart(p, vi) + i] == SliceWeights(p, vi)[i];
  }

  ghost function EncapGroups(p: ScaleParams): (gs: seq<Group>)
    requires ValidParams(p)
    ensures |gs| == p.numEncapDefaultNHG
  {
    GroupsOver(FIRST_ENCAP_NH, Max(p.numUniqueEncapNH, 0), EncapWeights(p), None)
  }

  function SliceTargets(p: ScaleParams, vi: nat, n: int): (s: seq<nat>)
    requires 0 < p.numEncapVRFs <= p.numEncapDefaultNHG && vi < p.numEncapVRFs
    ensures |s| == Max(n, 0)
  {
    SlicesTile(p, vi);
    Cycle(FIRST_ENCAP_NHG + SliceStart(p, vi), SliceCount(p, vi), Max(n, 0))
  }

  const ANY4 := Prefix(V4(0), 0)
  const ANY6 := Prefix(V6(0), 0)

  function FallbackRoutes(vi: nat): seq<Entry> {
    [Route(EncapVrf(vi), ANY4, FALLBACK_NHG), Route(EncapVrf(vi), ANY6, FALLBACK_NHG)]
  }

  function BlockRoutes(p: ScaleParams, vi: nat): (s: seq<Entry>)
    requires 0 < p.numEncapVRFs <= p.numEncapDefaultNHG && vi < p.numEncapVRFs
    ensures forall i :: 0 <= i < |s| ==> s[i].Route?
  {
    HostRoutes(EncapVrf(vi), V4(Encap4Start(vi)), SliceTargets(p, vi, p.numEncapIPv4PerVRF))
    + HostRoutes(EncapVrf(vi), V6(Encap6Start(vi)), SliceTargets(p, vi, p.numEncapIPv6PerVRF))
    + FallbackRoutes(vi)
  }

  ghost function SliceGroups(p: ScaleParams, vi: nat): (gs: seq<Group>)
    requires ValidParams(p) && vi < p.numEncapVRFs
    ensures |gs| == SliceCount(p, vi)
  {
    SlicesTile(p, vi);
    EncapGroups(p)[SliceStart(p, vi)..SliceStart(p, vi + 1)]
  }

  /** The i-th group of VRF vi's slice, with the offset that all groups before it leave. */
  lemma SliceGroupAt(p: ScaleParams, vi: nat, i: nat)
    requires ValidParams(p) && vi < p.numEncapVRFs && i < SliceCount(p, vi)
    ensures 0 <= SliceStart(p, vi) && SliceStart(p, vi) + i < p.numEncapDefaultNHG
    ensures var ws, k := EncapWeights(p), SliceStart(p, vi) + i;
            SliceGroups(p, vi)[i] ==
            Group(HopsFrom(FIRST_ENCAP_NH, Offset(ws, k), Max(p.numUniqueEncapNH, 0), ws[k]), None)
  {
    hide ValidLoadBalance, ValidWeight, WeightsUpTo, Offset, HopsFrom, PerVrf;
    SlicesTile(p, vi);
  }

  ghost function Block(p: ScaleParams, vi: nat): seq<Entry>
    requires ValidParams(p) && vi < p.numEncapVRFs
  {
    SlicesTile(p, vi);
    NhgLayer(FIRST_ENCAP_NHG + SliceStart(p, vi), SliceGroups(p, vi)) + BlockRoutes(p, vi)
  }

  ghost function Blocks(p: ScaleParams, v: nat): seq<Entry>
    requires ValidParams(p) && v <= p.numEncapVRFs
  {
    if v == 0 then [] else Blocks(p, v - 1) + Block(p, v - 1)
  }

  // Decap entries.

  function DecapLen(i: nat): nat {
    [22, 24, 26, 28][i % 4]
  }

  /** 203.(i/4).((i%4)*64).0, which is an address up to entry 1023 */
  function DecapNet(i: nat): nat {
    DottedText(203, i / 4, i % 4 * 64, 0)
  }

  function DecapPrefix(i: nat): Prefix {
    Prefix(V4(DecapNet(i)), DecapLen(i))
  }

  function DecapGroup(i: nat): Group {
    Group([Hop(NH_BASE_DECAP + i, 1)], None)
  }

  function DecapStep(i: nat): seq<Entry> {
    [NhEntry(NH_BASE_DECAP + i, Decap(None)),
     NhgEntry(NHG_BASE_DECAP + i, DecapGroup(i)),
     Route(DecapVrf, DecapPrefix(i), NHG_BASE_DECAP + i)]
  }

  function DecapEntries(n: nat): seq<Entry> {
    if n == 0 then [] else DecapEntries(n - 1) + DecapStep(n - 1)
  }

  ghost function EncapHead(p: ScaleParams): seq<Entry> {
    NhLayer(FALLBACK_NH, [ToVrf(DefaultVrf)] + EncapNextHops(p)) + NhgLayer(FALLBACK_NHG, [FALLBACK_GROUP])
  }

  ghost function EncapDecapEntries(p: ScaleParams): seq<Entry>
    requires ValidParams(p)
  {
    EncapHead(p) + Blocks(p, p.numEncapVRFs) + DecapEntries(p.numDecapEntries)
  }

  // Which inputs the address generation accepts.

  predicate EncapFits(p: ScaleParams) {
    && p.numUniqueEncapNH >= 0 && p.numTransitIPv4 >= 0
    && TRANSIT_111_START + TunnelsToUse(p) <= TWO_32
    && 0 < p.numEncapVRFs <= 256
    && p.numEncapIPv4PerVRF >= 0 && Encap4Start(p.numEncapVRFs - 1) + p.numEncapIPv4PerVRF <= TWO_32
    && p.numEncapIPv6PerVRF >= 0 && Encap6Start(p.numEncapVRFs - 1) + p.numEncapIPv6PerVRF <= TWO_128
  }

  /** The first and last prefix of each VRF are read back, so empty lists are out of range. */
  predicate EncapCountsSafe(p: ScaleParams) {
    p.numEncapIPv4PerVRF != 0 && p.numEncapIPv6PerVRF != 0
  }

  /** An address whose second octet does not fit a byte does not parse. */
  function Parsed4(vi: nat): (a: Option<nat>)
    ensures a.Some? ==> a.value < TWO_32
  {
    if vi <= 255 then Some(Encap4Start(vi)) else None
  }

  function Parsed6(vi: nat): Option<nat> {
    if vi <= 0xFFFF then Some(Encap6Start(vi)) else None
  }

  lemma TunnelsGenerated(p: ScaleParams)
    ensures var g := Generated(Some(TRANSIT_111_START), TunnelsToUse(p), Some(1));
            && (g.Ok? <==> TunnelsToUse(p) >= 0 && TRANSIT_111_START + TunnelsToUse(p) <= TWO_32)
            && (g.Ok? ==> g.value == Progression(TRANSIT_111_START, TunnelsToUse(p), 1))
  {
    if TunnelsToUse(p) == 0 {
      assert Progression(TRANSIT_111_START, 0, 1) == [];
    }
  }

  predicate VrfFits(p: ScaleParams, vi: nat) {
    && vi <= 255
    && p.numEncapIPv4PerVRF >= 0 && Encap4Start(vi) + p.numEncapIPv4PerVRF <= TWO_32
    && p.numEncapIPv6PerVRF >= 0 && Encap6Start(vi) + p.numEncapIPv6PerVRF <= TWO_128
  }

  lemma VrfGenerated(p: ScaleParams, vi: nat)
    requires EncapCountsSafe(p)
    ensures var g4 := Generated(Parsed4(vi), p.numEncapIPv4PerVRF, Some(1));
            var g6 := Generated6(Parsed6(vi), p.numEncapIPv6PerVRF, Some(1));
            && (g4.Ok? && g6.Ok? <==> VrfFits(p, vi))
            && (g4.Ok? ==> p.numEncapIPv4PerVRF > 0
                           && g4.value == Progression(Encap4Start(vi), p.numEncapIPv4PerVRF, 1))
            && (g6.Ok? ==> p.numEncapIPv6PerVRF > 0
                           && g6.value == Progression(Encap6Start(vi), p.numEncapIPv6PerVRF, 1))
  {
  }

  lemma EncapFitsVrfs(p: ScaleParams, vi: nat)
    requires vi < p.numEncapVRFs
    ensures EncapFits(p) ==> VrfFits(p, vi)
    ensures (vi == p.numEncapVRFs - 1 && VrfFits(p, vi) && TunnelsToUse(p) >= 0
             && TRANSIT_111_START + TunnelsToUse(p) <= TWO_32) ==> EncapFits(p)
  {
  }

  // The loops.

  method BuildEncapNhs(p: ScaleParams, tunnelDsts: seq<nat>) returns (entries: seq<Entry>)
    requires p.numUniqueEncapNH > 0 ==> p.numTransitIPv4 > 0
    requires TunnelsToUse(p) >= 0 && tunnelDsts == Progression(TRANSIT_111_START, TunnelsToUse(p), 1)
    ensures entries == NhLayer(FALLBACK_NH, [ToVrf(DefaultVrf)] + EncapNextHops(p))
  {
    ghost var layer := NhLayer(FALLBACK_NH, [ToVrf(DefaultVrf)] + EncapNextHops(p));
    var fallbackNH := NhEntry(FALLBACK_NH, ToVrf(DefaultVrf));
    entries := [fallbackNH];
    var numOfTunnelsToUse := Min(p.numUniqueEncapNH, p.numTransitIPv4);
    var nhIdx := FALLBACK_NH + 1;
    for i := 0 to p.numUniqueEncapNH
      invariant entries == layer[..i + 1]
    {
      var dst := tunnelDsts[i % numOfTunnelsToUse];
      entries := entries + [NhEntry(nhIdx + i, Encap(V4(OUTER_SRC_111), V4(dst), TransitVrf111))];
    }
  }

  /** The group loop of one VRF, continuing the running next-hop offset. */
  method BuildSlice(p: ScaleParams, vi: nat, nhOffset: nat) returns (entries: seq<Entry>, nextOffset: nat)
    requires ValidParams(p) && p.numUniqueEncapNH >= 0 && vi < p.numEncapVRFs
    requires 0 <= SliceStart(p, vi) <= p.numEncapDefaultNHG && nhOffset == Offset(EncapWeights(p), SliceStart(p, vi))
    ensures entries == NhgLayer(FIRST_ENCAP_NHG + SliceStart(p, vi), SliceGroups(p, vi))
    ensures 0 <= SliceStart(p, vi + 1) <= p.numEncapDefaultNHG
    ensures nextOffset == Offset(EncapWeights(p), SliceStart(p, vi + 1))
  {
    hide CallWeights, LbBucketsOf, WeightBucketsOf, WeightsOfCall, Serviceable, HopsFrom, Offset, AxisAfter,
         ValidLoadBalance, ValidWeight, EncapWeights, SliceGroups, PerVrf;
    SlicesTile(p, vi);
    var numNHGPerVrf := PerVrf(p);
    var nhgOffset := vi * numNHGPerVrf;
    if vi == p.numEncapVRFs - 1 {
      numNHGPerVrf := p.numEncapDefaultNHG - nhgOffset;
    }
    ghost var ws := EncapWeights(p);
    ghost var layer := NhgLayer(FIRST_ENCAP_NHG + nhgOffset, SliceGroups(p, vi));
    entries, nextOffset := [], nhOffset;
    CallWeightsAt(numNHGPerVrf, p.encapNHGLoadBalance, p.encapNHGWeight, p.numUniqueEncapNH, 0);
    var iter := new NHGBucketIterator(numNHGPerVrf, p.encapNHGLoadBalance, p.encapNHGWeight, p.numUniqueEncapNH);
    for i := 0 to numNHGPerVrf
      invariant iter.Valid() && iter.calls == i
      invariant nextOffset == Offset(ws, nhgOffset + i)
      invariant entries == layer[..i]
    {
      CallWeightsAt(numNHGPerVrf, p.encapNHGLoadBalance, p.encapNHGWeight, p.numUniqueEncapNH, i);
      CallWeightsShape(numNHGPerVrf, p.encapNHGLoadBalance, p.encapNHGWeight, p.numUniqueEncapNH, i);
      SliceInAll(p, vi, i);
      SliceGroupAt(p, vi, i);
      var weights := iter.Next();
      var hops := AddHops(FIRST_ENCAP_NH, nextOffset, p.numUniqueEncapNH, weights);
      OffsetStep(ws, nhgOffset + i);
      nextOffset := nextOffset + |weights|;
      assert layer[i] == NhgEntry(FIRST_ENCAP_NHG + nhgOffset + i, Group(hops, None));
      entries := entries + [NhgEntry(FIRST_ENCAP_NHG + nhgOffset + i, Group(hops, None))];
    }
  }

  /** A route loop of one VRF. */
  method BuildSliceRoutes(p: ScaleParams, vi: nat, start: Addr, hosts: seq<nat>) returns (entries: seq<Entry>)
    requires 0 < p.numEncapVRFs <= p.numEncapDefaultNHG && vi < p.numEncapVRFs
    requires hosts == Progression(start.n, |hosts|, 1)
    ensures entries == HostRoutes(EncapVrf(vi), start, SliceTargets(p, vi, |hosts|))
  {
    hide SliceStart, SliceCount;
    SlicesTile(p, vi);
    var nhgOffset, numNHGPerVrf := SliceStart(p, vi), SliceCount(p, vi);
    ghost var routes := HostRoutes(EncapVrf(vi), start, SliceTargets(p, vi, |hosts|));
    entries := [];
    for i := 0 to |hosts|
      invariant entries == routes[..i]
    {
      var nhg := FIRST_ENCAP_NHG + (nhgOffset + i % numNHGPerVrf);
      var host := if start.V4? then V4(hosts[i]) else V6(hosts[i]);
      entries := entries + [Route(EncapVrf(vi), HostPrefix(host), nhg)];
    }
  }

  /** One iteration of the VRF loop. */
  method BuildBlock(p: ScaleParams, vi: nat, nhOffset: nat) returns (r: Result<(seq<Entry>, nat)>)
    requires ValidParams(p) && EncapCountsSafe(p) && p.numUniqueEncapNH >= 0 && vi < p.numEncapVRFs
    requires 0 <= SliceStart(p, vi) <= p.numEncapDefaultNHG && nhOffset == Offset(EncapWeights(p), SliceStart(p, vi))
    ensures 0 <= SliceStart(p, vi + 1) <= p.numEncapDefaultNHG
    ensures r.Ok? <==> VrfFits(p, vi)
    ensures r.Ok? ==> r.value == (Block(p, vi), Offset(EncapWeights(p), SliceStart(p, vi + 1)))
  {
    hide ValidLoadBalance, ValidWeight, Generated, Generated6, VrfFits, Offset, SliceStart, SliceCount, EncapWeights,
         SliceGroups, SliceTargets, Progression, NhgLayer, HostRoutes, Encap4Start, Encap6Start, Parsed4, Parsed6;
    SlicesTile(p, vi);
    VrfGenerated(p, vi);
    var groups, nextOffset := BuildSlice(p, vi, nhOffset);
    var v4Prefixes := GenerateIPsWithStep(Parsed4(vi), p.numEncapIPv4PerVRF, Some(1));
    if v4Prefixes.Fatal? {
      return Fatal(v4Prefixes.error);
    }
    var v4Routes := BuildSliceRoutes(p, vi, V4(Encap4Start(vi)), v4Prefixes.value);
    var v6Prefixes := GenerateIPv6sWithStep(Parsed6(vi), p.numEncapIPv6PerVRF, Some(1));
    if v6Prefixes.Fatal? {
      return Fatal(v6Prefixes.error);
    }
    var v6Routes := BuildSliceRoutes(p, vi, V6(Encap6Start(vi)), v6Prefixes.value);
    var entries := groups + (v4Routes + v6Routes + FallbackRoutes(vi));
    r := Ok((entries, nextOffset));
  }

  /** The loop over the encap VRFs. */
  method BuildBlocks(p: ScaleParams) returns (r: Result<seq<Entry>>)
    requires ValidParams(p) && EncapCountsSafe(p) && TunnelsToUse(p) >= 0
    requires TRANSIT_111_START + TunnelsToUse(p) <= TWO_32
    ensures r.Ok? <==> EncapFits(p)
    ensures r.Ok? ==> r.value == Blocks(p, p.numEncapVRFs)
  {
    hide ValidLoadBalance, ValidWeight, VrfFits, Offset, SliceStart, EncapWeights, Block, EncapFits;
    SlicesTile(p, 0);
    OffsetZero(EncapWeights(p));
    var entries, nhOffset := [], 0;
    for vi := 0 to p.numEncapVRFs
      invariant 0 <= SliceStart(p, vi) <= p.numEncapDefaultNHG
      invariant nhOffset == Offset(EncapWeights(p), SliceStart(p, vi))
      invariant entries == Blocks(p, vi)
      invariant vi > 0 ==> VrfFits(p, vi - 1)
    {
      EncapFitsVrfs(p, vi);
      var block := BuildBlock(p, vi, nhOffset);
      if block.Fatal? {
        return Fatal(block.error);
      }
      entries := entries + block.value.0;
      nhOffset := block.value.1;
    }
    EncapFitsVrfs(p, p.numEncapVRFs - 1);
    r := Ok(entries);
  }

  method BuildDecapEntries(numDecapEntries: nat) returns (entries: seq<Entry>)
    ensures entries == DecapEntries(numDecapEntries)
  {
    hide DottedText;
    var decapPrefixLens := [22, 24, 26, 28];
    entries := [];
    for i := 0 to numDecapEntries
      invariant entries == DecapEntries(i)
    {
      var prefixLen := decapPrefixLens[i % |decapPrefixLens|];
      var pfx := Prefix(V4(DottedText(203, i / 4, i % 4 * 64, 0)), prefixLen);
      var nhIdx, nhgIdx := NH_BASE_DECAP + i, NHG_BASE_DECAP + i;
      assert pfx == DecapPrefix(i);
      entries := entries + [NhEntry(nhIdx, Decap(None)), NhgEntry(nhgIdx, Group([Hop(nhIdx, 1)], None)),
                            Route(DecapVrf, pfx, nhgIdx)];
    }
  }

  /** BuildEncapDecapVRFs */
  method BuildEncapDecapVRFs(p: ScaleParams) returns (r: Result<seq<Entry>>)
    requires ValidParams(p) && EncapCountsSafe(p)
    ensures r.Ok? <==> EncapFits(p)
    ensures r.Ok? ==> r.value == EncapDecapEntries(p)
  {
    hide ValidLoadBalance, ValidWeight, Generated, Progression, Blocks, DecapEntries, EncapNextHops;
    TunnelsGenerated(p);
    var numOfTunnelsToUse := Min(p.numUniqueEncapNH, p.numTransitIPv4);
    var tunnelDsts := GenerateIPsWithStep(Some(TRANSIT_111_START), numOfTunnelsToUse, Some(1));
    if tunnelDsts.Fatal? {
      return Fatal(tunnelDsts.error);
    }
    var nhs := BuildEncapNhs(p, tunnelDsts.value);
    var fallbackNHG := NhgEntry(FALLBACK_NHG, Group([Hop(FALLBACK_NH, 1)], None));
    assert [fallbackNHG] == NhgLayer(FALLBACK_NHG, [FALLBACK_GROUP]);
    var blocks := BuildBlocks(p);
    if blocks.Fatal? {
      return blocks;
    }
    var decap := BuildDecapEntries(p.numDecapEntries);
    r := Ok(nhs + [fallbackNHG] + blocks.value + decap);
  }

  // What the encap and decap entries leave in the tables.

  function EncapRouteOf(p: ScaleParams, vi: nat, prefix: Prefix): Option<nat>
    requires 0 < p.numEncapVRFs <= p.numEncapDefaultNHG && vi < p.numEncapVRFs
  {
    if prefix == ANY4 || prefix == ANY6 then Some(FALLBACK_NHG)
    else OrElse(HostAt(SliceTargets(p, vi, p.numEncapIPv6PerVRF), V6(Encap6Start(vi)), prefix),
                HostAt(SliceTargets(p, vi, p.numEncapIPv4PerVRF), V4(Encap4Start(vi)), prefix))
  }

  lemma FallbackTables(vi: nat, vrf: Vrf, prefix: Prefix)
    ensures LastRoute(FallbackRoutes(vi), vrf, prefix) ==
            if vrf == EncapVrf(vi) && (prefix == ANY4 || prefix == ANY6) then Some(FALLBACK_NHG) else None
  {
    var s := FallbackRoutes(vi);
    var first := [Route(EncapVrf(vi), ANY4, FALLBACK_NHG)];
    assert s[..1] == first && first[..0] == [];
    assert LastRoute(first, vrf, prefix) ==
           if vrf == EncapVrf(vi) && prefix == ANY4 then Some(FALLBACK_NHG) else None;
  }

  lemma BlockRoutesTables(p: ScaleParams, vi: nat, vrf: Vrf, prefix: Prefix)
    requires 0 < p.numEncapVRFs <= p.numEncapDefaultNHG && vi < p.numEncapVRFs
    ensures LastRoute(BlockRoutes(p, vi), vrf, prefix) ==
            if vrf == EncapVrf(vi) then EncapRouteOf(p, vi, prefix) else None
  {
    hide LastRoute, HostAt, SliceTargets, Encap4Start, Encap6Start, FallbackRoutes;
    var t4, t6 := SliceTargets(p, vi, p.numEncapIPv4PerVRF), SliceTargets(p, vi, p.numEncapIPv6PerVRF);
    var a := HostRoutes(EncapVrf(vi), V4(Encap4Start(vi)), t4);
    var b := HostRoutes(EncapVrf(vi), V6(Encap6Start(vi)), t6);
    LastRouteConcat(a + b, FallbackRoutes(vi), vrf, prefix);
    LastRouteConcat(a, b, vrf, prefix);
    LastHostRoute(EncapVrf(vi), V4(Encap4Start(vi)), t4, vrf, prefix);
    LastHostRoute(EncapVrf(vi), V6(Encap6Start(vi)), t6, vrf, prefix);
    FallbackTables(vi, vrf, prefix);
  }

  lemma BlockTables(p: ScaleParams, vi: nat, id: nat, vrf: Vrf, prefix: Prefix)
    requires ValidParams(p) && vi < p.numEncapVRFs
    ensures SliceStart(p, vi) >= 0
    ensures LastNh(Block(p, vi), id) == None
    ensures LastNhg(Block(p, vi), id) == At(SliceGroups(p, vi), FIRST_ENCAP_NHG + SliceStart(p, vi), id)
    ensures LastRoute(Block(p, vi), vrf, prefix) ==
            if vrf == EncapVrf(vi) then EncapRouteOf(p, vi, prefix) else None
  {
    hide LastNh, LastNhg, LastRoute, At, SliceStart, SliceCount, SliceGroups, BlockRoutes, EncapRouteOf,
         ValidLoadBalance, ValidWeight;
    SlicesTile(p, vi);
    var groups := NhgLayer(FIRST_ENCAP_NHG + SliceStart(p, vi), SliceGroups(p, vi));
    var routes := BlockRoutes(p, vi);
    LastNhConcat(groups, routes, id);
    NoNh(groups, id);
    NoNh(routes, id);
    LastNhgConcat(groups, routes, id);
    NoNhg(routes, id);
    LastNhgLayer(FIRST_ENCAP_NHG + SliceStart(p, vi), SliceGroups(p, vi), id);
    LastRouteConcat(groups, routes, vrf, prefix);
    NoRoute(groups, vrf, prefix);
    BlockRoutesTables(p, vi, vrf, prefix);
  }

  /** Two adjacent stretches of a table are one stretch. */
  lemma AtJoin<T>(s: seq<T>, m: nat, n: nat, base: nat, id: nat)
    requires m <= n <= |s|
    ensures OrElse(At(s[m..n], base + m, id), At(s[..m], base, id)) == At(s[..n], base, id)
  {
  }

  lemma {:induction false} BlocksTables(p: ScaleParams, v: nat, id: nat, vrf: Vrf, prefix: Prefix)
    requires ValidParams(p) && v <= p.numEncapVRFs
    ensures 0 <= SliceStart(p, v) <= p.numEncapDefaultNHG
    ensures LastNh(Blocks(p, v), id) == None
    ensures LastNhg(Blocks(p, v), id) == At(EncapGroups(p)[..SliceStart(p, v)], FIRST_ENCAP_NHG, id)
    ensures LastRoute(Blocks(p, v), vrf, prefix) ==
            if vrf.EncapVrf? && vrf.idx < v then EncapRouteOf(p, vrf.idx, prefix) else None
  {
    hide LastNh, LastNhg, LastRoute, At, Block, EncapRouteOf, EncapGroups, SliceStart, ValidLoadBalance, ValidWeight;
    if v == 0 {
      SlicesTile(p, 0);
      NoNh([], id);
      NoNhg([], id);
      NoRoute([], vrf, prefix);
      AtEmpty<Group>(FIRST_ENCAP_NHG, id);
      assert EncapGroups(p)[..0] == [];
    } else {
      SlicesTile(p, v - 1);
      BlocksTables(p, v - 1, id, vrf, prefix);
      BlockTables(p, v - 1, id, vrf, prefix);
      LastNhConcat(Blocks(p, v - 1), Block(p, v - 1), id);
      LastNhgConcat(Blocks(p, v - 1), Block(p, v - 1), id);
      LastRouteConcat(Blocks(p, v - 1), Block(p, v - 1), vrf, prefix);
      AtJoin(EncapGroups(p), SliceStart(p, v - 1), SliceStart(p, v), FIRST_ENCAP_NHG, id);
    }
  }

  lemma AtEmpty<T>(base: nat, id: nat)
    ensures At<T>([], base, id) == None
  {
  }

  /** The group a decap prefix points to. */
  function DecapRouteOf(n: nat, prefix: Prefix): Option<nat> {
    if n == 0 then None
    else if prefix == DecapPrefix(n - 1) then Some(NHG_BASE_DECAP + n - 1)
    else DecapRouteOf(n - 1, prefix)
  }

  function DecapNextHops(n: nat): (s: seq<NextHop>)
    ensures |s| == n
  {
    seq(n, i requires 0 <= i < n => Decap(None))
  }

  function DecapGroups(n: nat): (s: seq<Group>)
    ensures |s| == n
  {
    seq(n, i requires 0 <= i < n => DecapGroup(i))
  }

  lemma DecapStepTables(i: nat, id: nat, vrf: Vrf, prefix: Prefix)
    ensures LastNh(DecapStep(i), id) == if id == NH_BASE_DECAP + i then Some(Decap(None)) else None
    ensures LastNhg(DecapStep(i), id) == if id == NHG_BASE_DECAP + i then Some(DecapGroup(i)) else None
    ensures LastRoute(DecapStep(i), vrf, prefix) ==
            if vrf == DecapVrf && prefix == DecapPrefix(i) then Some(NHG_BASE_DECAP + i) else None
  {
    hide LastNh, LastNhg, LastRoute, DecapPrefix, At;
    var a, b := NhLayer(NH_BASE_DECAP + i, [Decap(None)]), NhgLayer(NHG_BASE_DECAP + i, [DecapGroup(i)]);
    var routes := [Route(DecapVrf, DecapPrefix(i), NHG_BASE_DECAP + i)];
    assert a + b + routes == DecapStep(i);
    LayeredTables(NH_BASE_DECAP + i, [Decap(None)], NHG_BASE_DECAP + i, [DecapGroup(i)], routes, id, vrf, prefix);
    AtSingle(Decap(None), NH_BASE_DECAP + i, id);
    AtSingle(DecapGroup(i), NHG_BASE_DECAP + i, id);
    SingleRoute(DecapVrf, DecapPrefix(i), NHG_BASE_DECAP + i, vrf, prefix);
  }

  lemma AtSingle<T>(x: T, base: nat, id: nat)
    ensures At([x], base, id) == if id == base then Some(x) else None
  {
  }

  lemma SingleRoute(v: Vrf, q: Prefix, nhg: nat, vrf: Vrf, prefix: Prefix)
    ensures LastRoute([Route(v, q, nhg)], vrf, prefix) == if vrf == v && prefix == q then Some(nhg) else None
  {
    assert [Route(v, q, nhg)][..0] == [];
  }

  lemma {:induction false} DecapTables(n: nat, id: nat, vrf: Vrf, prefix: Prefix)
    ensures LastNh(DecapEntries(n), id) == At(DecapNextHops(n), NH_BASE_DECAP, id)
    ensures LastNhg(DecapEntries(n), id) == At(DecapGroups(n), NHG_BASE_DECAP, id)
    ensures LastRoute(DecapEntries(n), vrf, prefix) == if vrf == DecapVrf then DecapRouteOf(n, prefix) else None
  {
    hide LastNh, LastNhg, LastRoute, DecapPrefix, DecapGroup, DecapStep;
    if n == 0 {
      NoNh([], id);
      NoNhg([], id);
      NoRoute([], vrf, prefix);
    } else {
      DecapTables(n - 1, id, vrf, prefix);
      DecapStepTables(n - 1, id, vrf, prefix);
      LastNhConcat(DecapEntries(n - 1), DecapStep(n - 1), id);
      LastNhgConcat(DecapEntries(n - 1), DecapStep(n - 1), id);
      LastRouteConcat(DecapEntries(n - 1), DecapStep(n - 1), vrf, prefix);
    }
  }

  lemma HeadTables(p: ScaleParams, id: nat, vrf: Vrf, prefix: Prefix)
    ensures LastNh(EncapHead(p), id) == At([ToVrf(DefaultVrf)] + EncapNextHops(p), FALLBACK_NH, id)
    ensures LastNhg(EncapHead(p), id) == At([FALLBACK_GROUP], FALLBACK_NHG, id)
    ensures LastRoute(EncapHead(p), vrf, prefix) == None
  {
    hide LastNh, LastNhg, LastRoute, At, EncapNextHops;
    LayeredTables(FALLBACK_NH, [ToVrf(DefaultVrf)] + EncapNextHops(p), FALLBACK_NHG, [FALLBACK_GROUP], [],
                  id, vrf, prefix);
    assert EncapHead(p) + [] == EncapHead(p);
    NoRoute([], vrf, prefix);
  }

  /** The route a prefix gets from the encap and decap entries. */
  function EncapDecapRouteOf(p: ScaleParams, vrf: Vrf, prefix: Prefix): Option<nat>
    requires 0 < p.numEncapVRFs <= p.numEncapDefaultNHG && p.numDecapEntries >= 0
  {
    match vrf
    case EncapVrf(vi) => if vi < p.numEncapVRFs then EncapRouteOf(p, vi, prefix) else None
    case DecapVrf => DecapRouteOf(p.numDecapEntries, prefix)
    case _ => None
  }

  /** Fallback group and encap groups are consecutive, and so are their ids. */
  ghost function AllEncapGroups(p: ScaleParams): (gs: seq<Group>)
    requires ValidParams(p)
    ensures |gs| == 1 + p.numEncapDefaultNHG
  {
    [FALLBACK_GROUP] + EncapGroups(p)
  }

  lemma AtCons<T>(x: T, s: seq<T>, base: nat, id: nat)
    ensures OrElse(At(s, base + 1, id), At([x], base, id)) == At([x] + s, base, id)
  {
  }

  lemma EncapDecapTables(p: ScaleParams, id: nat, vrf: Vrf, prefix: Prefix)
    requires ValidParams(p)
    ensures LastNh(EncapDecapEntries(p), id) ==
            OrElse(At(DecapNextHops(p.numDecapEntries), NH_BASE_DECAP, id),
                   At([ToVrf(DefaultVrf)] + EncapNextHops(p), FALLBACK_NH, id))
    ensures LastNhg(EncapDecapEntries(p), id) ==
            OrElse(At(DecapGroups(p.numDecapEntries), NHG_BASE_DECAP, id), At(AllEncapGroups(p), FALLBACK_NHG, id))
    ensures LastRoute(EncapDecapEntries(p), vrf, prefix) == EncapDecapRouteOf(p, vrf, prefix)
  {
    hide LastNh, LastNhg, LastRoute, At, EncapNextHops, EncapHead, Blocks, DecapEntries, DecapNextHops, DecapGroups,
         EncapRouteOf, DecapRouteOf, EncapGroups, ValidLoadBalance, ValidWeight;
    var head, blocks, decap := EncapHead(p), Blocks(p, p.numEncapVRFs), DecapEntries(p.numDecapEntries);
    HeadTables(p, id, vrf, prefix);
    BlocksTables(p, p.numEncapVRFs, id, vrf, prefix);
    DecapTables(p.numDecapEntries, id, vrf, prefix);
    LastNhConcat(head + blocks, decap, id);
    LastNhConcat(head, blocks, id);
    LastNhgConcat(head + blocks, decap, id);
    LastNhgConcat(head, blocks, id);
    LastRouteConcat(head + blocks, decap, vrf, prefix);
    LastRouteConcat(head, blocks, vrf, prefix);
    assert EncapGroups(p)[..p.numEncapDefaultNHG] == EncapGroups(p);
    AtCons(FALLBACK_GROUP, EncapGroups(p), FALLBACK_NHG, id);
  }

  // Dependency order.

  lemma HeadGrounded(base: seq<Entry>, p: ScaleParams)
    ensures Grounded(base, EncapHead(p))
  {
    hide Grounded, EncapNextHops;
    var nhs := [ToVrf(DefaultVrf)] + EncapNextHops(p);
    LayeredGrounded(base, FALLBACK_NH, nhs, FALLBACK_NHG, [FALLBACK_GROUP], []);
    assert EncapHead(p) + [] == EncapHead(p);
  }

  lemma EncapGroupsWithin(p: ScaleParams)
    requires ValidParams(p)
    ensures AllWithin(EncapGroups(p), FIRST_ENCAP_NH, Max(p.numUniqueEncapNH, 0))
  {
    hide GroupsOver, EncapWeights;
    EncapWeightsAllocatable(p, p.numEncapVRFs);
    EncapWeightsIsUpTo(p);
    GroupsOverWithin(FIRST_ENCAP_NH, Max(p.numUniqueEncapNH, 0), EncapWeights(p), None);
  }

  lemma EncapWeightsIsUpTo(p: ScaleParams)
    requires ValidParams(p)
    ensures EncapWeights(p) == WeightsUpTo(p, p.numEncapVRFs)
  {
  }

  lemma {:induction false} EncapWeightsAllocatable(p: ScaleParams, v: nat)
    requires ValidParams(p) && v <= p.numEncapVRFs
    ensures Allocatable(WeightsUpTo(p, v), Max(p.numUniqueEncapNH, 0))
  {
    hide CallWeights, SliceCount, SliceStart;
    if v > 0 {
      EncapWeightsAllocatable(p, v - 1);
      WeightsUpToStep(p, v - 1);
      SlicesTile(p, v - 1);
      CallWeightsAllocatable(SliceCount(p, v - 1), p.encapNHGLoadBalance, p.encapNHGWeight, Max(p.numUniqueEncapNH, 0));
    }
  }

  lemma SliceGroupsSatisfied(p: ScaleParams, vi: nat, base: seq<Entry>, e: Entry, i: nat)
    requires ValidParams(p) && vi < p.numEncapVRFs && i < |SliceGroups(p, vi)|
    requires e.NhgEntry? && e.group == SliceGroups(p, vi)[i]
    requires forall id :: FIRST_ENCAP_NH <= id < FIRST_ENCAP_NH + Max(p.numUniqueEncapNH, 0) ==> LastNh(base, id).Some?
    ensures Satisfied(e, base)
  {
    hide LastNh, LastNhg, CallWeights, EncapWeights, SliceStart;
    EncapGroupsWithin(p);
    SlicesTile(p, vi);
    var g := EncapGroups(p)[SliceStart(p, vi) + i];
    assert e.group == g;
    assert HopsWithin(g, FIRST_ENCAP_NH, Max(p.numUniqueEncapNH, 0));
  }

  /** What a block needs from what precedes it. */
  ghost predicate EncapReady(p: ScaleParams, base: seq<Entry>) {
    && (forall id :: FIRST_ENCAP_NH <= id < FIRST_ENCAP_NH + Max(p.numUniqueEncapNH, 0) ==> LastNh(base, id).Some?)
    && LastNhg(base, FALLBACK_NHG).Some?
  }

  lemma ReadyLater(p: ScaleParams, a: seq<Entry>, b: seq<Entry>)
    requires EncapReady(p, a)
    ensures EncapReady(p, a + b)
  {
    hide LastNh, LastNhg;
    forall id | FIRST_ENCAP_NH <= id < FIRST_ENCAP_NH + Max(p.numUniqueEncapNH, 0)
      ensures LastNh(a + b, id).Some?
    {
      LastNhConcat(a, b, id);
    }
    LastNhgConcat(a, b, FALLBACK_NHG);
  }

  lemma BlockRoutesTargets(p: ScaleParams, vi: nat, k: nat)
    requires 0 < p.numEncapVRFs <= p.numEncapDefaultNHG && vi < p.numEncapVRFs && k < |BlockRoutes(p, vi)|
    ensures var nhg := BlockRoutes(p, vi)[k].nhg;
            || nhg == FALLBACK_NHG
            || FIRST_ENCAP_NHG + SliceStart(p, vi) <= nhg < FIRST_ENCAP_NHG + SliceStart(p, vi) + SliceCount(p, vi)
  {
    hide SliceStart, SliceCount, Encap4Start, Encap6Start;
    SlicesTile(p, vi);
  }

  lemma BlockGrounded(p: ScaleParams, vi: nat, base: seq<Entry>)
    requires ValidParams(p) && vi < p.numEncapVRFs && EncapReady(p, base)
    ensures Grounded(base, Block(p, vi))
  {
    hide LastNh, LastNhg, SliceStart, SliceCount, SliceGroups, BlockRoutes, Grounded, ValidLoadBalance, ValidWeight;
    SlicesTile(p, vi);
    var start := FIRST_ENCAP_NHG + SliceStart(p, vi);
    var groups, routes := NhgLayer(start, SliceGroups(p, vi)), BlockRoutes(p, vi);
    forall k | 0 <= k < |groups|
      ensures Satisfied(groups[k], base)
    {
      SliceGroupsSatisfied(p, vi, base, groups[k], k);
    }
    GroundedInBase(base, groups);
    forall k | 0 <= k < |routes|
      ensures Satisfied(routes[k], base + groups)
    {
      BlockRoutesTargets(p, vi, k);
      LastNhgConcat(base, groups, routes[k].nhg);
      LastNhgLayer(start, SliceGroups(p, vi), routes[k].nhg);
    }
    GroundedInBase(base + groups, routes);
    GroundedConcat(base, groups, routes);
  }

  lemma {:induction false} BlocksGrounded(p: ScaleParams, v: nat, base: seq<Entry>)
    requires ValidParams(p) && v <= p.numEncapVRFs && EncapReady(p, base)
    ensures Grounded(base, Blocks(p, v))
  {
    hide ValidParams, EncapReady, Block;
    if v > 0 {
      BlocksGrounded(p, v - 1, base);
      ReadyLater(p, base, Blocks(p, v - 1));
      BlockGrounded(p, v - 1, base + Blocks(p, v - 1));
      GroundedConcat(base, Blocks(p, v - 1), Block(p, v - 1));
    }
  }

  lemma DecapStepGrounded(base: seq<Entry>, i: nat)
    ensures Grounded(base, DecapStep(i))
  {
    hide Grounded, DecapPrefix;
    var routes := [Route(DecapVrf, DecapPrefix(i), NHG_BASE_DECAP + i)];
    LayeredGrounded(base, NH_BASE_DECAP + i, [Decap(None)], NHG_BASE_DECAP + i, [DecapGroup(i)], routes);
    var a, b := NhLayer(NH_BASE_DECAP + i, [Decap(None)]), NhgLayer(NHG_BASE_DECAP + i, [DecapGroup(i)]);
    assert a + b + routes == DecapStep(i);
  }

  lemma {:induction false} DecapGrounded(base: seq<Entry>, n: nat)
    ensures Grounded(base, DecapEntries(n))
  {
    hide DecapStep;
    if n > 0 {
      DecapGrounded(base, n - 1);
      DecapStepGrounded(base + DecapEntries(n - 1), n - 1);
      GroundedConcat(base, DecapEntries(n - 1), DecapStep(n - 1));
    }
  }

  lemma HeadReady(p: ScaleParams, base: seq<Entry>)
    ensures EncapReady(p, base + EncapHead(p))
  {
    hide LastNh, LastNhg, EncapHead;
    var head := EncapHead(p);
    forall id | FIRST_ENCAP_NH <= id < FIRST_ENCAP_NH + Max(p.numUniqueEncapNH, 0)
      ensures LastNh(base + head, id).Some?
    {
      HeadTables(p, id, DefaultVrf, ANY4);
      LastNhConcat(base, head, id);
    }
    HeadTables(p, FALLBACK_NHG, DefaultVrf, ANY4);
    LastNhgConcat(base, head, FALLBACK_NHG);
  }

  /** The encap and decap entries come in dependency order, whatever precedes them. */
  lemma EncapDecapGrounded(base: seq<Entry>, p: ScaleParams)
    requires ValidParams(p)
    ensures Grounded(base, EncapDecapEntries(p))
  {
    hide EncapHead, Blocks, DecapEntries, Grounded, EncapReady, ValidLoadBalance, ValidWeight;
    var head, blocks, decap := EncapHead(p), Blocks(p, p.numEncapVRFs), DecapEntries(p.numDecapEntries);
    HeadGrounded(base, p);
    HeadReady(p, base);
    BlocksGrounded(p, p.numEncapVRFs, base + head);
    GroundedConcat(base, head, blocks);
    DecapGrounded(base + (head + blocks), p.numDecapEntries);
    GroundedConcat(base, head + blocks, decap);
  }
}
