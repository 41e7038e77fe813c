/**
 * What the traffic covers: for each scenario exactly the packets its flows send, and hence that
 * every decap entry, every customer address and every transit prefix is sent traffic, and
 * which VLANs the decap flows reach.
 */
module Coverage {
  import opened GoInts
  import opened IpUtil
  import opened Rib
  import opened Params
  import opened Decimals
  import opened DefaultVrfBuilder
  import opened EncapDecapBuilder
  import opened Forwarding
  import opened DecapTable
  import opened Policy
  import opened Flows
  import opened EndToEnd

  /** Some flow of the scenario sends the packet. */
  ghost predicate Sends(p: ScaleParams, compact: bool, sc: Scenario, pkt: Packet)
    requires FlowCounts(p)
  {
    exists k: nat :: k < FlowCount(p, sc, compact) && Carries(FlowAt(p, sc, compact, k).headers, pkt)
  }

  /** The flows of a run are those of the five scenarios. */
  lemma InRunIff(p: ScaleParams, compact: bool, id: FlowId)
    requires FlowCounts(p)
    ensures id in RunIds(p, compact, false) <==> id.k < FlowCount(p, id.sc, compact)
  {
    hide FlowCount;
    InScenarioIff(p, compact, Encapped, id);
    InScenarioIff(p, compact, Decapped, id);
    InScenarioIff(p, compact, Reencapped, id);
    InScenarioIff(p, compact, Transit, id);
    InScenarioIff(p, compact, Repaired, id);
  }

  lemma InScenarioIff(p: ScaleParams, compact: bool, sc: Scenario, id: FlowId)
    requires FlowCounts(p)
    ensures id in ScenarioIds(p, sc, compact) <==> id.sc == sc && id.k < FlowCount(p, sc, compact)
  {
    hide FlowCount;
    if id.sc == sc && id.k < FlowCount(p, sc, compact) {
      assert ScenarioIds(p, sc, compact)[id.k] == id;
    }
  }

  // Headers.

  lemma CarriesOneIff(h: Header, pkt: Packet)
    ensures Carries([h], pkt) <==>
            pkt.dscp < 64 && pkt.src == h.src && pkt.dst in h.dsts && pkt.dscp in h.dscps && pkt.payload.Plain?
  {
  }

  lemma CarriesTwoIff(outer: Header, inner: Header, pkt: Packet)
    ensures Carries([outer, inner], pkt) <==>
            && pkt.dscp < 64 && pkt.src == outer.src && pkt.dst in outer.dsts && pkt.dscp in outer.dscps
            && pkt.payload.Inner? && Carries([inner], pkt.payload.packet)
  {
    assert [outer, inner][1..] == [inner];
  }

  lemma InIncrementIff(start: Addr, count: nat, a: Addr)
    ensures a in Increment(start, count) <==> a.V4? == start.V4? && start.n <= a.n < start.n + count
  {
    if a.V4? == start.V4? && start.n <= a.n < start.n + count {
      assert Increment(start, count)[a.n - start.n] == a;
    }
  }

  lemma InHostsIff(n: nat, a: Addr)
    ensures a in DecapHosts(n) <==> exists i: nat :: i < n && a == DecapHost(i)
  {
    hide DecapNet;
    if i: nat :| i < n && a == DecapHost(i) {
      HostIsNext(i);
      assert DecapHosts(n)[i] == a;
    }
    if a in DecapHosts(n) {
      var i: nat :| i < n && DecapHosts(n)[i] == a;
      HostIsNext(i);
      assert a == DecapHost(i);
    }
  }

  /** 203.(i/4).((i%4)*64).1 */
  function DecapHost(i: nat): Addr {
    V4(DottedText(203, i / 4, i % 4 * 64, 1))
  }

  /** Both DSCPs of a packet in a packet belong to VRF vi. */
  predicate InClass(vi: nat, pkt: Packet) {
    pkt.dscp < 64 && pkt.dscp in EncapDscps(vi)
  }

  lemma {:induction false} AllDscpsExact(n: nat, dscp: nat)
    ensures dscp in AllDscps(n) <==> exists vi: nat :: vi < n && dscp in EncapDscps(vi)
  {
    hide EncapDscps;
    if n > 0 {
      AllDscpsExact(n - 1, dscp);
    }
  }

  // Encap.

  /** A packet from port 1 to a customer address of VRF vi: 200.vi.0.1 and 2001:db8:vi::1 and what follows. */
  predicate CustomerPacket(p: ScaleParams, vi: nat, q: Packet) {
    && InClass(vi, q) && q.payload.Plain?
    && match q.dst
       case V4(n) =>
         q.src == V4(0xC000_0202)
         && 0xC800_0001 + 0x1_0000 * vi <= n < 0xC800_0001 + 0x1_0000 * vi + p.numEncapIPv4PerVRF
       case V6(n) =>
         var start := 0x2001_0DB8_0000_0000_0000_0000_0000_0001 + 0x1_0000_0000_0000_0000_0000 * vi;
         q.src == V6(0x2001_0DB8_FFFF_0000_0000_0000_0000_0001) && start <= n < start + p.numEncapIPv6PerVRF
  }

  lemma CustomerHeaderIff(p: ScaleParams, vi: nat, v6: bool, q: Packet)
    requires FlowCounts(p)
    ensures Carries([CustomerHeader(p, vi, v6)], q) <==> CustomerPacket(p, vi, q) && q.dst.V6? == v6
  {
    hide EncapDscps, Increment, Carries;
    CarriesOneIff(CustomerHeader(p, vi, v6), q);
    InIncrementIff(V4(Encap4Start(vi)), p.numEncapIPv4PerVRF, q.dst);
    InIncrementIff(V6(Encap6Start(vi)), p.numEncapIPv6PerVRF, q.dst);
  }

  /** The encap flows send exactly the customer packets of all VRFs. */
  lemma EncapSendsIff(p: ScaleParams, compact: bool, pkt: Packet)
    requires FlowCounts(p)
    ensures Sends(p, compact, Encapped, pkt) <==> exists vi: nat :: vi < p.numEncapVRFs && CustomerPacket(p, vi, pkt)
  {
    hide FlowAt, Carries, CustomerPacket, CustomerHeader;
    if Sends(p, compact, Encapped, pkt) {
      var k: nat :| k < FlowCount(p, Encapped, compact) && Carries(FlowAt(p, Encapped, compact, k).headers, pkt);
      EncapFlowAt(p, compact, k, k / 2, k % 2 == 1);
      CustomerHeaderIff(p, k / 2, k % 2 == 1, pkt);
    }
    if vi: nat :| vi < p.numEncapVRFs && CustomerPacket(p, vi, pkt) {
      var k := 2 * vi + if pkt.dst.V6? then 1 else 0;
      EncapFlowAt(p, compact, k, vi, pkt.dst.V6?);
      CustomerHeaderIff(p, vi, pkt.dst.V6?, pkt);
      assert k < FlowCount(p, Encapped, compact);
    }
  }

  // Reencap.

  /** A customer packet in a tunnel from .111 or .222 to the host of some decap entry. */
  ghost predicate ReencapPacket(p: ScaleParams, vi: nat, pkt: Packet) {
    && InClass(vi, pkt) && (pkt.src == V4(0xC633_646F) || pkt.src == V4(0xC633_64DE))
    && (exists i: nat :: i < p.numDecapEntries && pkt.dst == DecapHost(i))
    && pkt.payload.Inner? && CustomerPacket(p, vi, pkt.payload.packet)
  }

  lemma ReencapHeadersIff(p: ScaleParams, compact: bool, k: nat, vi: nat, second: bool, v6: bool, pkt: Packet)
    requires FlowCounts(p) && FlowAt(p, Reencapped, compact, k) == ReencapFlow(p, vi, second, v6)
    ensures Carries(FlowAt(p, Reencapped, compact, k).headers, pkt) <==>
            && ReencapPacket(p, vi, pkt) && pkt.src == V4(if second then 0xC633_64DE else 0xC633_646F)
            && pkt.payload.packet.dst.V6? == v6
  {
    hide EncapDscps, DecapHosts, Carries, CustomerPacket, CustomerHeader, FlowAt, ReencapTag, SourceTag, Decimal,
         DecapHost;
    var outer := Header(V4(if second then OUTER_SRC_222 else OUTER_SRC_111), DecapHosts(p.numDecapEntries),
                        EncapDscps(vi));
    CarriesTwoIff(outer, CustomerHeader(p, vi, v6), pkt);
    InHostsIff(p.numDecapEntries, pkt.dst);
    if pkt.payload.Inner? {
      CustomerHeaderIff(p, vi, v6, pkt.payload.packet);
    }
  }

  /** The reencap flows send exactly those, from either source. */
  lemma ReencapSendsIff(p: ScaleParams, compact: bool, pkt: Packet)
    requires FlowCounts(p)
    ensures Sends(p, compact, Reencapped, pkt) <==> exists vi: nat :: vi < p.numEncapVRFs && ReencapPacket(p, vi, pkt)
  {
    hide FlowAt, Carries, CustomerPacket, ReencapFlow;
    if Sends(p, compact, Reencapped, pkt) {
      var k: nat :| k < FlowCount(p, Reencapped, compact) && Carries(FlowAt(p, Reencapped, compact, k).headers, pkt);
      var vi, second, v6 := k / 4, k / 2 % 2 == 1, k % 2 == 1;
      ReencapFlowAt(p, compact, k, vi, second, v6);
      ReencapHeadersIff(p, compact, k, vi, second, v6, pkt);
      assert vi < p.numEncapVRFs;
    }
    if vi: nat :| vi < p.numEncapVRFs && ReencapPacket(p, vi, pkt) {
      var second, v6 := pkt.src == V4(0xC633_64DE), pkt.payload.packet.dst.V6?;
      var k := 4 * vi + (if second then 2 else 0) + if v6 then 1 else 0;
      ReencapFlowIs(p, compact, vi, second);
      ReencapHeadersIff(p, compact, k, vi, second, v6, pkt);
      assert k < FlowCount(p, Reencapped, compact);
    }
  }

  // Transit and repaired.

  /** A tunnelled packet from one source to a prefix of one transit VRF. */
  predicate TransitFlowPacket(p: ScaleParams, src: nat, start: nat, inner: nat, pkt: Packet) {
    && pkt.dscp < 64 && pkt.src == V4(src) && pkt.dst.V4? && start <= pkt.dst.n < start + p.numTransitIPv4
    && pkt.payload.Inner?
    && var q := pkt.payload.packet;
       q.src == V4(0xC000_0202) && q.dst == V4(inner) && q.dscp < 64 && q.payload.Plain?
  }

  /** Outer and inner DSCP belong to one VRF, or, compacted, each to some VRF. */
  ghost predicate TunnelClasses(p: ScaleParams, compact: bool, pkt: Packet)
    requires pkt.payload.Inner?
  {
    if compact
    then (exists vi: nat :: vi < p.numEncapVRFs && pkt.dscp in EncapDscps(vi))
         && exists vi: nat :: vi < p.numEncapVRFs && pkt.payload.packet.dscp in EncapDscps(vi)
    else exists vi: nat :: vi < p.numEncapVRFs && pkt.dscp in EncapDscps(vi)
                           && pkt.payload.packet.dscp in EncapDscps(vi)
  }

  lemma TunnelFlowIff(name: string, src: nat, dscps: seq<nat>, start: nat, n: nat, inner: Addr, pkt: Packet)
    ensures Carries(TunnelFlow(name, src, dscps, Increment(V4(start), n), [inner]).headers, pkt) <==>
            && pkt.dscp < 64 && pkt.dscp in dscps && pkt.src == V4(src)
            && pkt.dst.V4? && start <= pkt.dst.n < start + n && pkt.payload.Inner?
            && var q := pkt.payload.packet;
               q.dscp < 64 && q.dscp in dscps && q.src == V4(0xC000_0202) && q.dst == inner && q.payload.Plain?
  {
    hide Carries, Increment;
    var h := Header(ATE_PORT1, [inner], dscps);
    CarriesTwoIff(Header(V4(src), Increment(V4(start), n), dscps), h, pkt);
    InIncrementIff(V4(start), n, pkt.dst);
    if pkt.payload.Inner? {
      CarriesOneIff(h, pkt.payload.packet);
    }
  }

  /** The transit flows cover TE_VRF_111 from .111, the repaired flows TE_VRF_222 from .222. */
  lemma TransitSendsIff(p: ScaleParams, compact: bool, pkt: Packet)
    requires FlowCounts(p)
    ensures Sends(p, compact, Transit, pkt) <==>
            TransitFlowPacket(p, 0xC633_646F, 0x6400_0001, 0xAC10_0002, pkt) && TunnelClasses(p, compact, pkt)
    ensures Sends(p, compact, Repaired, pkt) <==>
            TransitFlowPacket(p, 0xC633_64DE, 0x6500_0001, 0xAC10_0003, pkt) && TunnelClasses(p, compact, pkt)
  {
    hide Carries;
    SideSendsIff(p, compact, Transit, OUTER_SRC_111, TRANSIT_111_START, 0xAC10_0002, pkt);
    SideSendsIff(p, compact, Repaired, OUTER_SRC_222, TRANSIT_222_START, 0xAC10_0003, pkt);
  }

  lemma SideFlowIff(p: ScaleParams, compact: bool, sc: Scenario, src: nat, start: nat, inner: nat, pkt: Packet, k: nat)
    requires FlowCounts(p)
    requires (sc == Transit && src == OUTER_SRC_111 && start == TRANSIT_111_START && V4(inner) == TRANSIT_INNER_DST)
          || (sc == Repaired && src == OUTER_SRC_222 && start == TRANSIT_222_START && V4(inner) == REPAIR_INNER_DST)
    ensures var dscps := if compact then AllDscps(p.numEncapVRFs) else EncapDscps(k);
            Carries(FlowAt(p, sc, compact, k).headers, pkt) <==>
            TransitFlowPacket(p, src, start, inner, pkt) && pkt.dscp in dscps && pkt.payload.packet.dscp in dscps
  {
    hide FlowAt, Carries, EncapDscps, AllDscps, Increment, TunnelFlow, TransitTag, RepairedTag, Decimal;
    TransitFlowIs(p, compact, k);
    var dscps := if compact then AllDscps(p.numEncapVRFs) else EncapDscps(k);
    var name := if sc == Transit then (if compact then TransitTag() + "all" else TransitTag() + Decimal(k))
                else if compact then RepairedTag() + "all" else RepairedTag() + Decimal(k);
    TunnelFlowIff(name, src, dscps, start, p.numTransitIPv4, V4(inner), pkt);
  }

  lemma SideSendsIff(p: ScaleParams, compact: bool, sc: Scenario, src: nat, start: nat, inner: nat, pkt: Packet)
    requires FlowCounts(p)
    requires (sc == Transit && src == OUTER_SRC_111 && start == TRANSIT_111_START && V4(inner) == TRANSIT_INNER_DST)
          || (sc == Repaired && src == OUTER_SRC_222 && start == TRANSIT_222_START && V4(inner) == REPAIR_INNER_DST)
    ensures Sends(p, compact, sc, pkt) <==>
            TransitFlowPacket(p, src, start, inner, pkt) && TunnelClasses(p, compact, pkt)
  {
    hide FlowAt, Carries, EncapDscps, AllDscps, TransitFlowPacket;
    forall k: nat
      ensures var dscps := if compact then AllDscps(p.numEncapVRFs) else EncapDscps(k);
              Carries(FlowAt(p, sc, compact, k).headers, pkt) <==>
              TransitFlowPacket(p, src, start, inner, pkt) && pkt.payload.Inner? && pkt.dscp in dscps
              && pkt.payload.packet.dscp in dscps
    {
      SideFlowIff(p, compact, sc, src, start, inner, pkt, k);
      assert TransitFlowPacket(p, src, start, inner, pkt) ==> pkt.payload.Inner? by {
        FlowPacketIsTunnelled(p, src, start, inner, pkt);
      }
    }
    FlowPacketIsTunnelled(p, src, start, inner, pkt);
    if compact && pkt.payload.Inner? {
      AllDscpsExact(p.numEncapVRFs, pkt.dscp);
      AllDscpsExact(p.numEncapVRFs, pkt.payload.packet.dscp);
      assert Sends(p, compact, sc, pkt) <==> Carries(FlowAt(p, sc, compact, 0).headers, pkt);
    }
  }

  lemma FlowPacketIsTunnelled(p: ScaleParams, src: nat, start: nat, inner: nat, pkt: Packet)
    ensures TransitFlowPacket(p, src, start, inner, pkt) ==> pkt.payload.Inner?
  {
  }

  // Decap.

  /** VLANs per decap flow. */
  function Subset(p: ScaleParams): int {
    Max(1, p.numPort2VLANs * p.decapDestsSubsetPct / 100)
  }

  function Link(v: nat): Addr {
    V4(0xC133_0002 + 4 * v)
  }

  /** The j-th VLAN of decap flow vi: the VRFs take successive stretches of the ring of VLANs. */
  function RingAt(p: ScaleParams, vi: nat, j: nat): nat
    requires p.numPort2VLANs > 0
  {
    (vi * Subset(p) + j) % p.numPort2VLANs
  }

  ghost predicate EndsOn(p: ScaleParams, vi: nat, v: nat)
    requires p.numPort2VLANs > 0
  {
    exists j: nat :: j < Subset(p) && v == RingAt(p, vi, j)
  }

  lemma SubsetIs(p: ScaleParams)
    requires FlowCounts(p)
    ensures SubsetCount(p) == Subset(p)
  {
    assert p.numPort2VLANs * p.decapDestsSubsetPct >= 0;
  }

  lemma LinkIs(v: nat)
    ensures AteIp(v) == Link(v)
  {
  }

  lemma RingIs(p: ScaleParams, vi: nat, j: nat)
    requires FlowCounts(p)
    ensures InnerVlan(p, vi, j) == RingAt(p, vi, j)
  {
    hide SubsetCount, Subset;
    SubsetIs(p);
  }

  lemma InDecapInnerIff(p: ScaleParams, vi: nat, a: Addr)
    requires FlowCounts(p)
    ensures a in DecapInner(p, vi) <==> exists v: nat :: v < p.numPort2VLANs && EndsOn(p, vi, v) && a == Link(v)
  {
    hide AteIp, SubsetCount, Subset, Link, RingAt, InnerVlan;
    SubsetIs(p);
    if a in DecapInner(p, vi) {
      var j: nat :| j < SubsetCount(p) && DecapInner(p, vi)[j] == a;
      var v := InnerVlan(p, vi, j);
      LinkIs(v);
      RingIs(p, vi, j);
      assert EndsOn(p, vi, v);
    }
    if v: nat :| v < p.numPort2VLANs && EndsOn(p, vi, v) && a == Link(v) {
      var j: nat :| j < Subset(p) && v == RingAt(p, vi, j);
      RingIs(p, vi, j);
      LinkIs(v);
      assert DecapInner(p, vi)[j] == AteIp(InnerVlan(p, vi, j));
    }
  }

  lemma InAteIpsIff(p: ScaleParams, a: Addr)
    requires FlowCounts(p)
    ensures a in AteIps(p) <==> exists v: nat :: v < p.numPort2VLANs && a == Link(v)
  {
    hide AteIp, Link;
    if a in AteIps(p) {
      var v: nat :| v < p.numPort2VLANs && AteIps(p)[v] == a;
      LinkIs(v);
    }
    if v: nat :| v < p.numPort2VLANs && a == Link(v) {
      LinkIs(v);
      assert AteIps(p)[v] == a;
    }
  }

  /** A packet for the link of VLAN v, in a tunnel from .111 to the host of some decap entry. */
  ghost predicate DecapPacket(p: ScaleParams, v: nat, pkt: Packet) {
    && pkt.dscp < 64 && pkt.src == V4(0xC633_646F)
    && (exists i: nat :: i < p.numDecapEntries && pkt.dst == DecapHost(i))
    && pkt.payload.Inner?
    && var q := pkt.payload.packet;
       q.src == V4(0xC000_0202) && q.dst == Link(v) && q.dscp < 64 && q.payload.Plain?
  }

  lemma DecapHeadersIff(p: ScaleParams, compact: bool, k: nat, pkt: Packet)
    requires FlowCounts(p)
    ensures var dscps := if compact then AllDscps(p.numEncapVRFs) else EncapDscps(k);
            Carries(FlowAt(p, Decapped, compact, k).headers, pkt) <==>
            && (exists v: nat :: v < p.numPort2VLANs && (compact || EndsOn(p, k, v)) && DecapPacket(p, v, pkt))
            && pkt.dscp in dscps && pkt.payload.packet.dscp in dscps
  {
    hide FlowAt, Carries, EncapDscps, AllDscps, DecapHosts, DecapInner, AteIps, DecapTag, SourceTag, Decimal,
         DecapHost, Link, EndsOn;
    DecapFlowIs(p, compact, k);
    var dscps := if compact then AllDscps(p.numEncapVRFs) else EncapDscps(k);
    var h := Header(ATE_PORT1, if compact then AteIps(p) else DecapInner(p, k), dscps);
    CarriesTwoIff(Header(V4(OUTER_SRC_111), DecapHosts(p.numDecapEntries), dscps), h, pkt);
    InHostsIff(p.numDecapEntries, pkt.dst);
    if pkt.payload.Inner? {
      var q := pkt.payload.packet;
      CarriesOneIff(h, q);
      InAteIpsIff(p, q.dst);
      InDecapInnerIff(p, k, q.dst);
    }
  }

  /** The decap flows, one per VRF. */
  lemma DecapSendsIff(p: ScaleParams, pkt: Packet)
    requires FlowCounts(p)
    ensures Sends(p, false, Decapped, pkt) <==>
            exists vi: nat, v: nat ::
              && vi < p.numEncapVRFs && v < p.numPort2VLANs && EndsOn(p, vi, v)
              && DecapPacket(p, v, pkt) && pkt.dscp in EncapDscps(vi) && pkt.payload.packet.dscp in EncapDscps(vi)
  {
    hide FlowAt, Carries, EncapDscps, DecapPacket, EndsOn;
    forall k: nat
      ensures Carries(FlowAt(p, Decapped, false, k).headers, pkt) <==>
              exists v: nat :: v < p.numPort2VLANs && EndsOn(p, k, v) && DecapPacket(p, v, pkt)
                               && pkt.payload.Inner? && pkt.dscp in EncapDscps(k)
                               && pkt.payload.packet.dscp in EncapDscps(k)
    {
      DecapHeadersIff(p, false, k, pkt);
      DecapIsTunnelled(p, pkt);
    }
    DecapIsTunnelled(p, pkt);
    if vi: nat, v: nat :| vi < p.numEncapVRFs && v < p.numPort2VLANs && EndsOn(p, vi, v)
                          && DecapPacket(p, v, pkt) && pkt.dscp in EncapDscps(vi)
                          && pkt.payload.packet.dscp in EncapDscps(vi) {
      assert Carries(FlowAt(p, Decapped, false, vi).headers, pkt);
    }
  }

  lemma DecapIsTunnelled(p: ScaleParams, pkt: Packet)
    ensures forall v: nat :: DecapPacket(p, v, pkt) ==> pkt.payload.Inner?
  {
  }

  /** The one decap flow when flows are compacted: every VLAN and every DSCP. */
  lemma CompactDecapSendsIff(p: ScaleParams, pkt: Packet)
    requires FlowCounts(p)
    ensures Sends(p, true, Decapped, pkt) <==>
            (exists v: nat :: v < p.numPort2VLANs && DecapPacket(p, v, pkt)) && TunnelClasses(p, true, pkt)
  {
    hide FlowAt, Carries, EncapDscps, AllDscps, DecapPacket, EndsOn;
    DecapIsTunnelled(p, pkt);
    DecapHeadersIff(p, true, 0, pkt);
    assert Sends(p, true, Decapped, pkt) <==> Carries(FlowAt(p, Decapped, true, 0).headers, pkt);
    if pkt.payload.Inner? {
      AllDscpsExact(p.numEncapVRFs, pkt.dscp);
      AllDscpsExact(p.numEncapVRFs, pkt.payload.packet.dscp);
    }
  }

  // What is hit.

  /** The i-th outer destination of every decap and reencap flow lies in decap prefix i, and in no other. */
  lemma DecapEntriesHit(p: ScaleParams, compact: bool, sc: Scenario, k: nat, i: nat)
    requires FlowCounts(p) && (sc == Decapped || sc == Reencapped) && i < p.numDecapEntries
    ensures var dsts := FlowAt(p, sc, compact, k).headers[0].dsts;
            && |dsts| == p.numDecapEntries
            && Covers(i, dsts[i]) && forall j: nat :: Covers(j, dsts[i]) ==> j == i
  {
    hide Covers, DecapHosts, Name, DecapInner, AteIps, CustomerHeader;
    HostCovered(p.numDecapEntries, i);
  }

  /** Every customer address is sent traffic under every DSCP of its VRF, bare and through every decap entry. */
  lemma CustomersReached(p: ScaleParams, compact: bool, vi: nat, i: nat, q: Packet)
    requires FlowCounts(p) && vi < p.numEncapVRFs && i < p.numDecapEntries && CustomerPacket(p, vi, q)
    ensures Sends(p, compact, Encapped, q)
    ensures Sends(p, compact, Reencapped, Packet(V4(0xC633_646F), DecapHost(i), q.dscp, Inner(q)))
    ensures Sends(p, compact, Reencapped, Packet(V4(0xC633_64DE), DecapHost(i), q.dscp, Inner(q)))
  {
    hide Sends, EncapDscps, DecapHost;
    EncapSendsIff(p, compact, q);
    var a := Packet(V4(0xC633_646F), DecapHost(i), q.dscp, Inner(q));
    var b := Packet(V4(0xC633_64DE), DecapHost(i), q.dscp, Inner(q));
    assert ReencapPacket(p, vi, a) && ReencapPacket(p, vi, b);
    ReencapSendsIff(p, compact, a);
    ReencapSendsIff(p, compact, b);
  }

  /** VLAN v is the end of some decap flow. */
  ghost predicate Reached(p: ScaleParams, v: nat)
    requires p.numPort2VLANs > 0
  {
    exists vi: nat :: vi < p.numEncapVRFs && EndsOn(p, vi, v)
  }

  lemma Position(s: nat, x: nat, n: nat)
    requires s > 0 && x < n * s
    ensures x / s < n && x == x / s * s + x % s
  {
    var q := x / s;
    assert x == s * q + x % s;
    assert s * n - s * q == s * (n - q);
    MulAtLeast(s, n - q);
  }

  lemma BelowTotal(vi: nat, s: nat, j: nat, n: nat)
    requires vi < n && j < s
    ensures vi * s + j < n * s
  {
    assert n * s == vi * s + (n - vi) * s;
    assert (n - vi) * s == s + (n - vi - 1) * s;
    assert (n - vi - 1) * s >= 0;
  }

  lemma RingInside(p: ScaleParams, vi: nat, j: nat)
    requires FlowCounts(p) && vi < p.numEncapVRFs && j < Subset(p)
    requires p.numEncapVRFs * Subset(p) < p.numPort2VLANs
    ensures RingAt(p, vi, j) < p.numEncapVRFs * Subset(p)
  {
    hide Subset;
    BelowTotal(vi, Subset(p), j, p.numEncapVRFs);
    ModSmall(vi * Subset(p) + j, p.numPort2VLANs);
  }

  lemma RingCovers(p: ScaleParams, v: nat)
    requires FlowCounts(p) && v < p.numPort2VLANs <= p.numEncapVRFs * Subset(p)
    ensures Reached(p, v)
  {
    hide Subset;
    SubsetPositive(p);
    var s := Subset(p);
    Position(s, v, p.numEncapVRFs);
    ModSmall(v, p.numPort2VLANs);
    assert RingAt(p, v / s, v % s) == v;
    assert EndsOn(p, v / s, v);
  }

  /** Without compaction the decap flows reach every VLAN exactly when the stretches go once around. */
  lemma VlansReachedIff(p: ScaleParams)
    requires FlowCounts(p)
    ensures (forall v: nat :: v < p.numPort2VLANs ==> Reached(p, v)) <==>
            p.numEncapVRFs * Subset(p) >= p.numPort2VLANs
  {
    hide Subset, RingAt;
    SubsetPositive(p);
    var total := p.numEncapVRFs * Subset(p);
    assert total >= 0;
    if total >= p.numPort2VLANs {
      forall v: nat | v < p.numPort2VLANs
        ensures Reached(p, v)
      {
        RingCovers(p, v);
      }
    } else {
      forall vi: nat, j: nat | vi < p.numEncapVRFs && j < Subset(p)
        ensures RingAt(p, vi, j) < total
      {
        RingInside(p, vi, j);
      }
      assert !Reached(p, total);
    }
  }

  lemma SubsetPositive(p: ScaleParams)
    ensures Subset(p) >= 1
  {
  }

  // What is recorded.

  /** The DSCPs a flow may leave with. */
  ghost predicate LeavesWith(p: ScaleParams, compact: bool, id: FlowId, dscp: nat) {
    if compact && (id.sc == Decapped || id.sc == Transit || id.sc == Repaired)
    then exists vi: nat :: vi < p.numEncapVRFs && dscp in EncapDscps(vi)
    else dscp in EncapDscps(match id.sc case Encapped => id.k / 2 case Reencapped => id.k / 4 case _ => id.k)
  }

  /**
   * What it means that a packet leaves as recorded: encap and transit flows under source .111,
   * repaired flows, and transit flows in the repair test, under .222, all but decap flows in a
   * tunnel, and with a DSCP of the flow.
   */
  lemma RecordedMeans(p: ScaleParams, compact: bool, testRepair: bool, id: FlowId, v: nat, pkt: Packet)
    requires FlowCounts(p)
    ensures AsExpected(ExpectationOf(p, compact, testRepair, id), Out(v, pkt)) <==>
            && LeavesWith(p, compact, id, pkt.dscp)
            && (pkt.payload.Plain? <==> id.sc == Decapped)
            && match id.sc
               case Encapped => pkt.src == V4(0xC633_646F)
               case Transit => pkt.src == V4(if testRepair then 0xC633_64DE else 0xC633_646F)
               case Repaired => pkt.src == V4(0xC633_64DE)
               case _ => true
  {
    hide EncapDscps, AllDscps;
    AllDscpsExact(p.numEncapVRFs, pkt.dscp);
  }
}
