/**
 * End to end: every packet of every flow, through the policy on port 1 and the programmed
 * tables, takes the path of its scenario and leaves as the expectation recorded for its flow
 * says.
 */
module EndToEnd {
  import opened GoInts
  import opened IpUtil
  import opened Rib
  import opened Params
  import opened DefaultVrfBuilder
  import opened TransitBuilder
  import opened EncapDecapBuilder
  import opened FullRun
  import opened Ids
  import opened Forwarding
  import opened ProgrammedTables
  import opened ProgrammedRoutes
  import opened Termination
  import opened Liveness
  import opened FastReroute
  import opened DecapTable
  import opened Policy
  import opened Flows
  import opened Delivery

  // Packets of a flow, ingress and expectation.

  /** A packet whose headers run through the values of a flow's; a DSCP beyond six bits is in no packet. */
  predicate Carries(headers: seq<Header>, pkt: Packet) {
    && headers != [] && pkt.dscp < 64
    && pkt.src == headers[0].src && pkt.dst in headers[0].dsts && pkt.dscp in headers[0].dscps
    && if |headers| == 1 then pkt.payload.Plain?
       else pkt.payload.Inner? && Carries(headers[1..], pkt.payload.packet)
  }

  /** A policy action: a VRF to look up in, or decapsulation through the decap VRF with a fallback. */
  ghost predicate Act(d: Switch, a: Action, pkt: Packet, s': State) {
    match a
    case Select(vrf) => s' == Routing(vrf, pkt.dst, pkt)
    case Decapsulate(decap, post, fallback) =>
      (match Lookup(d.table, decap, pkt.dst)
       case None => s' == Routing(fallback, pkt.dst, pkt)
       case Some(g) => GroupStep(d, g, pkt, post, s'))
  }

  /** Port 1: the policy's action on the packet. */
  ghost predicate Ingress(d: Switch, n: nat, pkt: Packet, s': State) {
    Act(d, Classify(pkt, n), pkt, s')
  }

  /** The generated rule list decides every packet, and its first match acts as Ingress says. */
  lemma IngressIsFirstMatch(d: Switch, n: nat, requireMatch: bool, pkt: Packet, s': State)
    ensures var first := FirstMatch(PolicyRules(n, requireMatch), pkt);
            first.Some? && (Act(d, first.value, pkt, s') <==> Ingress(d, n, pkt, s'))
  {
    hide FirstMatch, PolicyRules, Classify, Act;
    PolicyIsClassify(n, requireMatch, pkt);
  }

  predicate AsExpected(e: Expectation, s: State) {
    && s.Out?
    && (e.outerSrc.Some? ==> s.pkt.src == V4(e.outerSrc.value))
    && (e.wantEncap <==> s.pkt.payload.Inner?)
    && s.pkt.dscp in e.dscps
  }

  ghost predicate EndsAsExpected(d: Switch, e: Expectation, s: State) {
    forall run :: IsCompleteRun(d, run) && run[0] == s ==> AsExpected(e, run[|run| - 1])
  }

  // Paths.

  /** The encap VRF a run starts in is the one the packet's DSCP belongs to, and the flow's own unless compacted. */
  predicate StartsInOwnVrf(p: ScaleParams, sc: Scenario, compact: bool, k: nat, pkt: Packet, s: State)
    requires FlowCounts(p)
  {
    && s.Routing? && s.vrf.EncapVrf? && s.vrf.idx < p.numEncapVRFs && pkt.dscp in EncapDscps(s.vrf.idx)
    && (!Compacted(sc, compact) ==> s.vrf.idx == k / PerVrfFlows(sc))
  }

  /** The table path of a packet of flow k of a scenario, from port 1 to the VLAN. */
  ghost predicate ScenarioRun(p: ScaleParams, sc: Scenario, compact: bool, k: nat, pkt: Packet, run: seq<State>)
    requires FlowCounts(p)
  {
    && run != []
    && match sc
       case Encapped =>
         StartsInOwnVrf(p, sc, compact, k, pkt, run[0]) && EncapRun(p, run[0].vrf.idx, pkt, run)
       case Decapped =>
         pkt.payload.Inner? && StartsInOwnVrf(p, sc, compact, k, pkt, run[0])
         && LocalRun(p, run[0].vrf.idx, pkt.payload.packet, run)
       case Reencapped =>
         pkt.payload.Inner? && StartsInOwnVrf(p, sc, compact, k, pkt, run[0])
         && EncapRun(p, run[0].vrf.idx, pkt.payload.packet, run)
       case Transit => TransitRun(p, false, pkt, run) && run[0].key == pkt.dst
       case Repaired => TransitRun(p, true, pkt, run) && run[0].key == pkt.dst
  }

  /** Every packet of every flow takes the path of its scenario, on every run, with all links up. */
  ghost predicate AllOnPath(p: ScaleParams, multi: bool, track: bool, compact: bool)
    requires Programmed(p, multi) && FlowCounts(p)
  {
    var d := FullSwitch(p, multi, track);
    forall id, pkt, s', run ::
      && id in RunIds(p, compact, false)
      && Carries(FlowAt(p, id.sc, compact, id.k).headers, pkt)
      && Ingress(d, p.numEncapVRFs, pkt, s')
      && IsCompleteRun(d, run) && run[0] == s'
      ==> ScenarioRun(p, id.sc, compact, id.k, pkt, run)
  }

  /** Every flow packet is treated as expected, under all links up or under the repair test's shutdown. */
  ghost predicate AllAsExpected(p: ScaleParams, multi: bool, track: bool, compact: bool, testRepair: bool)
    requires Programmed(p, multi) && FlowCounts(p)
  {
    var d := SwitchOf(p, multi, if testRepair then UpLinks(p) else AllLinks(p), track);
    forall id, pkt, s' ::
      && id in RunIds(p, compact, testRepair)
      && Carries(FlowAt(p, id.sc, compact, id.k).headers, pkt)
      && Ingress(d, p.numEncapVRFs, pkt, s')
      ==> EndsAsExpected(d, ExpectationOf(p, compact, testRepair, id), s')
  }

  predicate TransitBelowDecap(p: ScaleParams) {
    TRANSIT_222_START + p.numTransitIPv4 <= DecapNet(0)
  }

  /** The DSCPs fit the field, the decap texts are addresses, and the address ranges stay apart. */
  predicate AddressPlan(p: ScaleParams) {
    && p.numEncapVRFs <= 27
    && p.numDecapEntries <= 1024
    && TransitBelowDecap(p)
    && ATE_PORT2_START + PORT_STEP * p.numPort2VLANs <= Encap4Start(0)
  }

  lemma PlanBelowDecap(p: ScaleParams)
    requires AddressPlan(p)
    ensures TransitBelowDecap(p)
  {
  }

  lemma CountsHold(p: ScaleParams, multi: bool)
    requires Programmed(p, multi)
    ensures FlowCounts(p) && p.numEncapIPv4PerVRF > 0 && p.numTransitIPv4 > 0 && p.numUniqueEncapNH >= 0
  {
    hide ValidLoadBalance, ValidWeight, AddressesFit, CountsSafe, NhPlan, NhgPlan;
    CompletesFacts(p);
  }

  // Classes.

  /** With at most 128 VRFs, a VRF's own DSCPs select it. */
  lemma OwnClass(n: nat, vi: nat, dscp: nat)
    requires vi < n <= 128 && dscp in EncapDscps(vi)
    ensures ClassOf(dscp, n) == Some(vi)
  {
    hide EncapDscps;
    PairContains(vi, dscp);
    ModSmall(vi, 128);
  }

  /** And with more they do not. */
  lemma OwnClassIff(n: nat)
    ensures (forall vi, dscp :: 0 <= vi < n && dscp in EncapDscps(vi) ==> ClassOf(dscp, n) == Some(vi)) <==> n <= 128
  {
    hide EncapDscps, ClassOf;
    if n <= 128 {
      forall vi, dscp | 0 <= vi < n && dscp in EncapDscps(vi)
        ensures ClassOf(dscp, n) == Some(vi)
      {
        OwnClass(n, vi, dscp);
      }
    } else {
      PairContains(128, 10);
      ClassOfTen(n);
    }
  }

  /** The DSCPs of all VRFs fit the six bits of the field if and only if there are at most 27 VRFs. */
  lemma SixBitsIff(n: nat)
    ensures (forall vi, dscp :: 0 <= vi < n && dscp in EncapDscps(vi) ==> dscp < 64) <==> n <= 27
  {
    if n <= 27 {
      forall vi, dscp | 0 <= vi < n && dscp in EncapDscps(vi)
        ensures dscp < 64
      {
        assert dscp == EncapDscps(vi)[0] || dscp == EncapDscps(vi)[1];
      }
    } else {
      assert EncapDscps(27)[0] == 64 && 64 in EncapDscps(27);
    }
  }

  lemma ClassOfTen(n: nat)
    requires n > 0
    ensures ClassOf(10, n) == Some(0)
  {
  }

  lemma FlowClass(p: ScaleParams, sc: Scenario, compact: bool, k: nat, dscp: nat) returns (vi: nat)
    requires FlowCounts(p) && p.numEncapVRFs <= 128 && k < FlowCount(p, sc, compact)
    requires dscp in FlowDscps(p, sc, compact, k)
    ensures vi < p.numEncapVRFs && ClassOf(dscp, p.numEncapVRFs) == Some(vi) && dscp in EncapDscps(vi)
    ensures !Compacted(sc, compact) ==> vi == k / PerVrfFlows(sc)
  {
    hide EncapDscps, AllDscps;
    if Compacted(sc, compact) {
      AllDscpsIff(p.numEncapVRFs, dscp);
      vi := ClassOf(dscp, p.numEncapVRFs).value;
      PairContains(vi, dscp);
      ModSmall(vi, 128);
    } else {
      vi := k / PerVrfFlows(sc);
      OwnClass(p.numEncapVRFs, vi, dscp);
    }
  }

  // Ingress of each scenario.

  lemma DecapMiss(p: ScaleParams, multi: bool, a: Addr)
    requires Programmed(p, multi) && TransitBelowDecap(p) && (InTransit111(p, a) || InTransit222(p, a))
    ensures Lookup(ProgrammedTable(p, multi), DecapVrf, a) == None
  {
    hide ProgrammedTable, Completes, NhPlan, NhgPlan, Lookup, DecapNet, DecapSize;
    DecapBase();
    DecapLookupIff(p, multi, a);
    if Lookup(ProgrammedTable(p, multi), DecapVrf, a).Some? {
      var i :| 0 <= i < p.numDecapEntries && i < 1024 && Covers(i, a);
      DecapSizes(i);
      assert false;
    }
  }

  lemma TunnelMiss(p: ScaleParams, multi: bool, up: set<nat>, track: bool, n: nat, pkt: Packet, s': State)
    requires Programmed(p, multi) && TransitBelowDecap(p) && FromTunnel(pkt)
    requires InTransit111(p, pkt.dst) || InTransit222(p, pkt.dst)
    requires Ingress(SwitchOf(p, multi, up, track), n, pkt, s')
    ensures s' == Routing(FallbackOf(pkt), pkt.dst, pkt)
  {
    hide ProgrammedTable, Completes, NhPlan, NhgPlan, Lookup, SwitchOf, FromTunnel, ClassVrf, GroupStep, FallbackOf,
         TransitBelowDecap;
    SwitchTable(p, multi, up, track);
    DecapMiss(p, multi, pkt.dst);
  }

  lemma TunnelHit(p: ScaleParams, multi: bool, track: bool, pkt: Packet, i: nat, vi: nat, s': State)
    requires Programmed(p, multi) && p.numEncapVRFs >= 0 && FromTunnel(pkt) && pkt.payload.Inner?
    requires i < p.numDecapEntries && Covers(i, pkt.dst) && pkt.dst.n < TWO_32
    requires ClassOf(pkt.dscp, p.numEncapVRFs) == Some(vi)
    requires Ingress(FullSwitch(p, multi, track), p.numEncapVRFs, pkt, s')
    ensures s' == Routing(EncapVrf(vi), pkt.payload.packet.dst, pkt.payload.packet)
  {
    hide ProgrammedTable, Completes, NhPlan, NhgPlan, Lookup, SwitchOf, FromTunnel, ClassOf, GroupStep, FallbackOf,
         Covers, GroupHops, BackupHops, AllLinks, HasLive, Routable;
    var d := FullSwitch(p, multi, track);
    SwitchTable(p, multi, AllLinks(p), track);
    DecapLookupIff(p, multi, pkt.dst);
    HopDecap(p, multi, AllLinks(p), track, i);
    var g := NHG_BASE_DECAP + i;
    assert Live(d, GroupHops(d, g)[0]);
    SomeLive(d, GroupHops(d, g), GroupHops(d, g)[0]);
    var h := StepByPrimary(d, g, pkt, EncapVrf(vi), s');
  }

  // Headers of each scenario.

  lemma CarriesOne(h: Header, pkt: Packet)
    requires Carries([h], pkt)
    ensures pkt.src == h.src && pkt.dst in h.dsts && pkt.dscp in h.dscps && pkt.payload.Plain?
  {
  }

  lemma CarriesTwo(outer: Header, inner: Header, pkt: Packet)
    requires Carries([outer, inner], pkt)
    ensures pkt.src == outer.src && pkt.dst in outer.dsts && pkt.dscp in outer.dscps && pkt.payload.Inner?
    ensures var q := pkt.payload.packet;
            q.src == inner.src && q.dst in inner.dsts && q.dscp in inner.dscps && q.payload.Plain?
  {
    assert [outer, inner][1..] == [inner];
  }

  lemma InIncrement(start: Addr, count: nat, a: Addr)
    requires a in Increment(start, count)
    ensures a.V4? == start.V4? && start.n <= a.n < start.n + count
  {
  }

  lemma CustomerDst(p: ScaleParams, vi: nat, v6: bool, pkt: Packet)
    requires FlowCounts(p) && pkt.dst in CustomerHeader(p, vi, v6).dsts
    ensures Customer(p, vi, pkt.dst) && pkt.dst.V6? == v6
  {
    hide Encap4Start, Encap6Start, Increment;
    InIncrement(if v6 then V6(Encap6Start(vi)) else V4(Encap4Start(vi)),
                if v6 then p.numEncapIPv6PerVRF else p.numEncapIPv4PerVRF, pkt.dst);
  }

  /** A decap host is covered by its own prefix. */
  lemma DecapHostCovered(n: nat, a: Addr) returns (i: nat)
    requires n <= 1024 && a in DecapHosts(n)
    ensures i < n && Covers(i, a) && a.V4? && a.n < TWO_32
  {
    hide DecapHosts, Covers;
    i :| 0 <= i < n && a == DecapHosts(n)[i];
    HostCovered(n, i);
    assert a.V4? by { CoveredIsV4(i, a); }
  }

  lemma CoveredIsV4(i: nat, a: Addr)
    requires Covers(i, a)
    ensures a.V4?
  {
  }

  // Scenario by scenario.

  /** Every packet of every encap flow takes the encap path. */
  lemma EncapScenario(p: ScaleParams, multi: bool, track: bool, compact: bool, k: nat, pkt: Packet, run: seq<State>)
    requires Programmed(p, multi) && FlowCounts(p) && AddressPlan(p) && p.numUniqueEncapNH > 0
    requires k < FlowCount(p, Encapped, compact) && Carries(FlowAt(p, Encapped, compact, k).headers, pkt)
    requires IsCompleteRun(FullSwitch(p, multi, track), run)
    requires Ingress(FullSwitch(p, multi, track), p.numEncapVRFs, pkt, run[0])
    ensures ScenarioRun(p, Encapped, compact, k, pkt, run)
  {
    hide Programmed, ClassOf, EncapDscps, AllDscps, Customer, SwitchOf, AddressPlan, Carries, Ingress, FlowAt,
         FlowCount, EncapRun, Step;
    var vi := EncapIngress(p, multi, track, compact, k, pkt, run[0]);
    EncapRuns(p, multi, track, vi, pkt, run);
  }

  lemma EncapIngress(p: ScaleParams, multi: bool, track: bool, compact: bool, k: nat, pkt: Packet, s': State)
    returns (vi: nat)
    requires Programmed(p, multi) && FlowCounts(p) && AddressPlan(p)
    requires k < FlowCount(p, Encapped, compact) && Carries(FlowAt(p, Encapped, compact, k).headers, pkt)
    requires Ingress(FullSwitch(p, multi, track), p.numEncapVRFs, pkt, s')
    ensures vi < p.numEncapVRFs && Customer(p, vi, pkt.dst) && s' == Routing(EncapVrf(vi), pkt.dst, pkt)
    ensures StartsInOwnVrf(p, Encapped, compact, k, pkt, s')
  {
    hide Programmed, Lookup, ClassOf, Name, EncapDscps, AllDscps, GroupStep, Customer, Protocol, SwitchOf, Carries,
         Increment, TransitBelowDecap;
    CarriesOne(CustomerHeader(p, k / 2, k % 2 == 1), pkt);
    CustomerDst(p, k / 2, k % 2 == 1, pkt);
    vi := FlowClass(p, Encapped, compact, k, pkt.dscp);
  }

  /** A link address of the decap flows is no customer address. */
  lemma LinkNoCustomer(p: ScaleParams, vi: nat, v: nat)
    requires ATE_PORT2_START + PORT_STEP * p.numPort2VLANs <= Encap4Start(0) && v < p.numPort2VLANs
    ensures !Customer(p, vi, AteIp(v)) && AteIp(v).n < TWO_32
  {
  }

  lemma DecapInnerLink(p: ScaleParams, compact: bool, k: nat, a: Addr) returns (v: nat)
    requires FlowCounts(p) && a in (if compact then AteIps(p) else DecapInner(p, k))
    ensures v < p.numPort2VLANs && a == AteIp(v)
  {
    hide AteIp, SubsetCount, InnerVlan;
    if compact {
      v :| 0 <= v < p.numPort2VLANs && AteIps(p)[v] == a;
    } else {
      var s := DecapInner(p, k);
      var j :| 0 <= j < |s| && s[j] == a;
      v := InnerVlan(p, k, j);
    }
  }

  lemma DecapHeaders(p: ScaleParams, compact: bool, k: nat, pkt: Packet)
    requires FlowCounts(p) && Carries(FlowAt(p, Decapped, compact, k).headers, pkt)
    ensures pkt.src == V4(OUTER_SRC_111) && pkt.dst in DecapHosts(p.numDecapEntries) && pkt.payload.Inner?
    ensures var q := pkt.payload.packet;
            && q.dst in (if compact then AteIps(p) else DecapInner(p, k)) && q.payload.Plain?
            && q.dscp in FlowDscps(p, Decapped, compact, k)
    ensures pkt.dscp in FlowDscps(p, Decapped, compact, k)
  {
    hide Name, EncapDscps, AllDscps, Carries, DecapHosts, AteIps, DecapInner;
    var dscps := FlowDscps(p, Decapped, compact, k);
    CarriesTwo(Header(V4(OUTER_SRC_111), DecapHosts(p.numDecapEntries), dscps),
               Header(ATE_PORT1, if compact then AteIps(p) else DecapInner(p, k), dscps), pkt);
  }

  /** Every packet of every decap flow is decapsulated and leaves unchanged on its own VLAN. */
  lemma DecapScenario(p: ScaleParams, multi: bool, track: bool, compact: bool, k: nat, pkt: Packet, run: seq<State>)
    requires Programmed(p, multi) && FlowCounts(p) && AddressPlan(p)
    requires k < FlowCount(p, Decapped, compact) && Carries(FlowAt(p, Decapped, compact, k).headers, pkt)
    requires IsCompleteRun(FullSwitch(p, multi, track), run)
    requires Ingress(FullSwitch(p, multi, track), p.numEncapVRFs, pkt, run[0])
    ensures ScenarioRun(p, Decapped, compact, k, pkt, run)
  {
    hide Programmed, ClassOf, EncapDscps, AllDscps, Ingress, Customer, SwitchOf, Carries, DecapHosts, AteIps,
         DecapInner, FlowAt, TransitBelowDecap, Covers, AteIp, FlowDscps, FlowCount, LocalRun, Step;
    DecapHeaders(p, compact, k, pkt);
    var q := pkt.payload.packet;
    var i := DecapHostCovered(p.numDecapEntries, pkt.dst);
    var vi := FlowClass(p, Decapped, compact, k, pkt.dscp);
    var v := DecapInnerLink(p, compact, k, q.dst);
    AteIpIsV4(v);
    TunnelHit(p, multi, track, pkt, i, vi, run[0]);
    LinkNoCustomer(p, vi, v);
    LocalRuns(p, multi, track, vi, v, q, run);
  }

  lemma AteIpIsV4(v: nat)
    ensures AteIp(v).V4?
  {
  }

  lemma ReencapHeaders(p: ScaleParams, compact: bool, k: nat, pkt: Packet)
    requires FlowCounts(p) && Carries(FlowAt(p, Reencapped, compact, k).headers, pkt)
    ensures pkt.src == V4(OUTER_SRC_111) || pkt.src == V4(OUTER_SRC_222)
    ensures pkt.dst in DecapHosts(p.numDecapEntries) && pkt.payload.Inner?
    ensures var q := pkt.payload.packet;
            && q.dst in CustomerHeader(p, k / 4, k % 2 == 1).dsts && q.payload.Plain?
            && q.dscp in FlowDscps(p, Reencapped, compact, k)
    ensures pkt.dscp in FlowDscps(p, Reencapped, compact, k)
  {
    hide Name, EncapDscps, AllDscps, Carries, DecapHosts, Increment;
    CarriesTwo(Header(V4(ReencapSrc(k)), DecapHosts(p.numDecapEntries), FlowDscps(p, Reencapped, compact, k)),
               CustomerHeader(p, k / 4, k % 2 == 1), pkt);
  }

  /** Every packet of every reencap flow is decapsulated and takes the encap path. */
  lemma ReencapScenario(p: ScaleParams, multi: bool, track: bool, compact: bool, k: nat, pkt: Packet, run: seq<State>)
    requires Programmed(p, multi) && FlowCounts(p) && AddressPlan(p) && p.numUniqueEncapNH > 0
    requires k < FlowCount(p, Reencapped, compact) && Carries(FlowAt(p, Reencapped, compact, k).headers, pkt)
    requires IsCompleteRun(FullSwitch(p, multi, track), run)
    requires Ingress(FullSwitch(p, multi, track), p.numEncapVRFs, pkt, run[0])
    ensures ScenarioRun(p, Reencapped, compact, k, pkt, run)
  {
    hide Programmed, ClassOf, EncapDscps, AllDscps, Ingress, Customer, SwitchOf, Carries, DecapHosts, FlowAt,
         TransitBelowDecap, Covers, FlowDscps, FlowCount, CustomerHeader, EncapRun, Step;
    ReencapHeaders(p, compact, k, pkt);
    var q := pkt.payload.packet;
    var i := DecapHostCovered(p.numDecapEntries, pkt.dst);
    var vi := FlowClass(p, Reencapped, compact, k, pkt.dscp);
    CustomerDst(p, vi, k % 2 == 1, q);
    TunnelHit(p, multi, track, pkt, i, vi, run[0]);
    EncapRuns(p, multi, track, vi, q, run);
  }

  lemma TransitHeaders(p: ScaleParams, compact: bool, sc: Scenario, k: nat, pkt: Packet)
    requires FlowCounts(p) && (sc.Transit? || sc.Repaired?) && Carries(FlowAt(p, sc, compact, k).headers, pkt)
    ensures pkt.src == V4(if sc.Transit? then OUTER_SRC_111 else OUTER_SRC_222)
    ensures if sc.Transit? then InTransit111(p, pkt.dst) else InTransit222(p, pkt.dst)
    ensures pkt.payload.Inner? && pkt.dscp in FlowDscps(p, sc, compact, k)
    ensures var q := pkt.payload.packet;
            q.src == ATE_PORT1 && q.dst.V4? && q.dscp in FlowDscps(p, sc, compact, k) && q.payload.Plain?
  {
    hide Name, EncapDscps, AllDscps, Carries, Increment;
    var dscps := FlowDscps(p, sc, compact, k);
    var start := V4(if sc.Transit? then TRANSIT_111_START else TRANSIT_222_START);
    var src := V4(if sc.Transit? then OUTER_SRC_111 else OUTER_SRC_222);
    CarriesTwo(Header(src, Increment(start, p.numTransitIPv4), dscps),
               Header(ATE_PORT1, [if sc.Transit? then TRANSIT_INNER_DST else REPAIR_INNER_DST], dscps), pkt);
    InIncrement(start, p.numTransitIPv4, pkt.dst);
  }

  /** Every packet of every transit flow takes the TE_VRF_111 path, and of every repaired flow the TE_VRF_222 one. */
  lemma TransitScenario(p: ScaleParams, multi: bool, track: bool, compact: bool, sc: Scenario, k: nat, pkt: Packet,
                        run: seq<State>)
    requires Programmed(p, multi) && FlowCounts(p) && TransitBelowDecap(p)
    requires sc.Transit? || (sc.Repaired? && Built(Backup(p)))
    requires Carries(FlowAt(p, sc, compact, k).headers, pkt)
    requires IsCompleteRun(FullSwitch(p, multi, track), run)
    requires Ingress(FullSwitch(p, multi, track), p.numEncapVRFs, pkt, run[0])
    ensures ScenarioRun(p, sc, compact, k, pkt, run)
  {
    hide Programmed, ClassOf, EncapDscps, AllDscps, Ingress, SwitchOf, Carries, FlowAt, TransitBelowDecap, FlowDscps,
         Built, TransitRun, Step;
    TransitHeaders(p, compact, sc, k, pkt);
    TunnelMiss(p, multi, AllLinks(p), track, p.numEncapVRFs, pkt, run[0]);
    if sc.Transit? {
      TransitRuns(p, multi, track, pkt.dst, pkt, run);
    } else {
      RepairedRuns(p, multi, track, pkt.dst, pkt, run);
    }
  }

  // All flows.

  lemma RunIdsBounded(p: ScaleParams, compact: bool, testRepair: bool, id: FlowId)
    requires FlowCounts(p) && id in RunIds(p, compact, testRepair)
    ensures id.k < FlowCount(p, id.sc, compact) && (testRepair ==> id.sc.Transit?)
  {
    hide FlowCount;
    if testRepair {
      assert id in ScenarioIds(p, Transit, compact);
    }
  }

  lemma RunIdsHas(p: ScaleParams, compact: bool, testRepair: bool, sc: Scenario)
    requires FlowCounts(p) && (testRepair ==> sc.Transit?)
    ensures FlowId(sc, 0) in RunIds(p, compact, testRepair)
  {
    FlowCountPositive(p, sc, compact);
    assert ScenarioIds(p, sc, compact)[0] == FlowId(sc, 0);
  }

  lemma FlowCountPositive(p: ScaleParams, sc: Scenario, compact: bool)
    requires FlowCounts(p)
    ensures FlowCount(p, sc, compact) > 0
  {
    MulAtLeast(p.numEncapVRFs, PerVrfFlows(sc));
  }

  lemma FlowOnPath(p: ScaleParams, multi: bool, track: bool, compact: bool, id: FlowId, pkt: Packet, run: seq<State>)
    requires Programmed(p, multi) && FlowCounts(p) && AddressPlan(p)
    requires p.numUniqueEncapNH > 0 && Built(Backup(p))
    requires id in RunIds(p, compact, false) && Carries(FlowAt(p, id.sc, compact, id.k).headers, pkt)
    requires IsCompleteRun(FullSwitch(p, multi, track), run)
    requires Ingress(FullSwitch(p, multi, track), p.numEncapVRFs, pkt, run[0])
    ensures ScenarioRun(p, id.sc, compact, id.k, pkt, run)
  {
    hide Programmed, Ingress, SwitchOf, Carries, FlowAt, FlowCount, RunIds, Built, TransitBelowDecap, ScenarioRun, Step;
    RunIdsBounded(p, compact, false, id);
    match id.sc
    case Encapped => EncapScenario(p, multi, track, compact, id.k, pkt, run);
    case Decapped => DecapScenario(p, multi, track, compact, id.k, pkt, run);
    case Reencapped => ReencapScenario(p, multi, track, compact, id.k, pkt, run);
    case Transit => TransitScenario(p, multi, track, compact, Transit, id.k, pkt, run);
    case Repaired => TransitScenario(p, multi, track, compact, Repaired, id.k, pkt, run);
  }

  /** How a run that takes its scenario's path ends. */
  lemma PathEnd(p: ScaleParams, sc: Scenario, compact: bool, k: nat, pkt: Packet, run: seq<State>)
    requires FlowCounts(p) && ScenarioRun(p, sc, compact, k, pkt, run)
    ensures var end := run[|run| - 1];
            && end.Out?
            && (sc.Transit? || sc.Repaired? ==> end.pkt == pkt)
            && (sc.Decapped? ==> pkt.payload.Inner? && end.pkt == pkt.payload.packet)
            && (sc.Encapped? ==> end.pkt == Encapsulated(pkt, V4(OUTER_SRC_111), end.pkt.dst))
            && (sc.Reencapped? ==> pkt.payload.Inner?
                                   && end.pkt == Encapsulated(pkt.payload.packet, V4(OUTER_SRC_111), end.pkt.dst))
  {
    hide StartsInOwnVrf, BackupPrefix, PrimaryPrefix, InTransit111, InTransit222, AteIp, PrimaryVlans;
  }

  /** A packet that takes its scenario's path leaves as the recorded expectation says. */
  lemma PathAsExpected(p: ScaleParams, compact: bool, id: FlowId, pkt: Packet, run: seq<State>)
    requires FlowCounts(p) && Carries(FlowAt(p, id.sc, compact, id.k).headers, pkt)
    requires ScenarioRun(p, id.sc, compact, id.k, pkt, run)
    ensures AsExpected(ExpectationOf(p, compact, false, id), run[|run| - 1])
  {
    hide ScenarioRun, FlowAt, Carries, FlowDscps;
    PathEnd(p, id.sc, compact, id.k, pkt, run);
    match id.sc
    case Encapped => EncapHeaders(p, compact, id.k, pkt);
    case Decapped => DecapHeaders(p, compact, id.k, pkt);
    case Reencapped => ReencapHeaders(p, compact, id.k, pkt);
    case _ => TransitHeaders(p, compact, id.sc, id.k, pkt);
  }

  lemma EncapHeaders(p: ScaleParams, compact: bool, k: nat, pkt: Packet)
    requires FlowCounts(p) && Carries(FlowAt(p, Encapped, compact, k).headers, pkt)
    ensures pkt.dscp in FlowDscps(p, Encapped, compact, k)
  {
    hide Name, EncapDscps, AllDscps, Carries, Increment;
    CarriesOne(CustomerHeader(p, k / 2, k % 2 == 1), pkt);
  }

  /** So all flows are as expected when all are on their paths. */
  lemma OnPathAsExpected(p: ScaleParams, multi: bool, track: bool, compact: bool)
    requires Programmed(p, multi) && FlowCounts(p) && AllOnPath(p, multi, track, compact)
    ensures AllAsExpected(p, multi, track, compact, false)
  {
    hide Programmed, Ingress, SwitchOf, Carries, FlowAt, ExpectationOf, RunIds, ScenarioRun, AsExpected, Step;
    var d := FullSwitch(p, multi, track);
    forall id, pkt, s' | id in RunIds(p, compact, false) && Carries(FlowAt(p, id.sc, compact, id.k).headers, pkt)
                         && Ingress(d, p.numEncapVRFs, pkt, s')
      ensures EndsAsExpected(d, ExpectationOf(p, compact, false, id), s')
    {
      forall run | IsCompleteRun(d, run) && run[0] == s'
        ensures AsExpected(ExpectationOf(p, compact, false, id), run[|run| - 1])
      {
        PathAsExpected(p, compact, id, pkt, run);
      }
    }
  }

  /** A dropped packet is not as expected. */
  lemma DropFails(d: Switch, e: Expectation, s: State, s': State)
    requires s.Routing? && Step(d, s, s') && s' == Dropped
    ensures !EndsAsExpected(d, e, s)
  {
    hide Step;
    var run := [s, s'];
    assert IsCompleteRun(d, run) && run[0] == s;
  }

  /** One packet treated otherwise is enough. */
  lemma FlowFails(p: ScaleParams, multi: bool, track: bool, compact: bool, testRepair: bool, id: FlowId,
                  pkt: Packet, s: State)
    requires Programmed(p, multi) && FlowCounts(p) && id in RunIds(p, compact, testRepair)
    requires Carries(FlowAt(p, id.sc, compact, id.k).headers, pkt)
    requires var d := SwitchOf(p, multi, if testRepair then UpLinks(p) else AllLinks(p), track);
             Ingress(d, p.numEncapVRFs, pkt, s) && !EndsAsExpected(d, ExpectationOf(p, compact, testRepair, id), s)
    ensures !AllAsExpected(p, multi, track, compact, testRepair)
  {
    hide Programmed, EndsAsExpected, SwitchOf, ExpectationOf, RunIds, Ingress, FlowAt, Carries;
  }

  lemma FirstEncap(p: ScaleParams, multi: bool, track: bool, compact: bool) returns (pkt: Packet)
    requires Programmed(p, multi) && FlowCounts(p) && p.numEncapIPv4PerVRF > 0
    ensures Carries(FlowAt(p, Encapped, compact, 0).headers, pkt)
    ensures Customer(p, 0, pkt.dst)
    ensures Ingress(FullSwitch(p, multi, track), p.numEncapVRFs, pkt, Routing(EncapVrf(0), pkt.dst, pkt))
  {
    hide Programmed, SwitchOf, Lookup, GroupStep, Name, Increment, EncapDscps, ClassOf;
    pkt := Packet(ATE_PORT1, V4(Encap4Start(0)), 10, Plain(17));
    FirstCustomer(p);
    ClassOfTen(p.numEncapVRFs);
  }

  lemma NoEncapNextHopFails(p: ScaleParams, multi: bool, track: bool, compact: bool)
    requires Programmed(p, multi) && FlowCounts(p)
    requires p.numUniqueEncapNH == 0 && p.numEncapIPv4PerVRF > 0
    ensures !AllAsExpected(p, multi, track, compact, false)
  {
    hide Programmed, EndsAsExpected, SwitchOf, ExpectationOf, RunIds, Ingress, FlowAt, Carries, Step, Customer,
         AllAsExpected;
    var d := FullSwitch(p, multi, track);
    var pkt := FirstEncap(p, multi, track, compact);
    RunIdsHas(p, compact, false, Encapped);
    var s := Routing(EncapVrf(0), pkt.dst, pkt);
    var s' := Progress(d, s);
    EncapDrops(p, multi, track, 0, pkt.dst, pkt, s');
    DropFails(d, ExpectationOf(p, compact, false, FlowId(Encapped, 0)), s, s');
    FlowFails(p, multi, track, compact, false, FlowId(Encapped, 0), pkt, s);
  }

  lemma FirstCustomer(p: ScaleParams)
    requires FlowCounts(p) && p.numEncapIPv4PerVRF > 0
    ensures V4(Encap4Start(0)) in Increment(V4(Encap4Start(0)), p.numEncapIPv4PerVRF) && 10 in EncapDscps(0)
  {
    assert Increment(V4(Encap4Start(0)), p.numEncapIPv4PerVRF)[0] == V4(Encap4Start(0));
    assert EncapDscps(0)[0] == 10;
  }

  /** The first packet of the first transit or repaired flow. */
  lemma FirstTransit(p: ScaleParams, compact: bool, sc: Scenario, j: nat) returns (pkt: Packet)
    requires FlowCounts(p) && (sc.Transit? || sc.Repaired?) && j < p.numTransitIPv4
    ensures Carries(FlowAt(p, sc, compact, 0).headers, pkt)
    ensures pkt.dst == V4((if sc.Transit? then TRANSIT_111_START else TRANSIT_222_START) + j)
    ensures sc.Transit? ==> pkt == TransitPacketTo(j, 10, Packet(ATE_PORT1, TRANSIT_INNER_DST, 10, Plain(17)))
  {
    hide Name, EncapDscps, AllDscps;
    var inner := Packet(ATE_PORT1, if sc.Transit? then TRANSIT_INNER_DST else REPAIR_INNER_DST, 10, Plain(17));
    var start := V4(if sc.Transit? then TRANSIT_111_START else TRANSIT_222_START);
    pkt := Packet(V4(if sc.Transit? then OUTER_SRC_111 else OUTER_SRC_222), Plus(start, j), 10, Inner(inner));
    assert Increment(start, p.numTransitIPv4)[j] == Plus(start, j);
    TenIn(p, sc, compact);
    var hs := FlowAt(p, sc, compact, 0).headers;
    assert hs[1..] == [hs[1]] && Carries([hs[1]], inner);
  }

  lemma TenIn(p: ScaleParams, sc: Scenario, compact: bool)
    requires FlowCounts(p)
    ensures 10 in FlowDscps(p, sc, compact, 0)
  {
    hide AllDscps;
    AllDscpsIff(p.numEncapVRFs, 10);
    ClassOfTen(p.numEncapVRFs);
    ModSmall(0, PerVrfFlows(sc));
    assert EncapDscps(0)[0] == 10;
  }

  lemma TunnelFallsBack(p: ScaleParams, multi: bool, up: set<nat>, track: bool, n: nat, pkt: Packet)
    requires Programmed(p, multi) && TransitBelowDecap(p) && FromTunnel(pkt)
    requires InTransit111(p, pkt.dst) || InTransit222(p, pkt.dst)
    ensures Ingress(SwitchOf(p, multi, up, track), n, pkt, Routing(FallbackOf(pkt), pkt.dst, pkt))
  {
    hide ProgrammedTable, Completes, NhPlan, NhgPlan, Lookup, SwitchOf, FromTunnel, ClassVrf, GroupStep, FallbackOf,
         TransitBelowDecap;
    SwitchTable(p, multi, up, track);
    DecapMiss(p, multi, pkt.dst);
  }

  lemma UnbuiltDrops(p: ScaleParams, multi: bool, track: bool, a: Addr, pkt: Packet)
    requires Programmed(p, multi) && !Built(Backup(p))
    ensures Step(FullSwitch(p, multi, track), Routing(TransitVrf222, a, pkt), Dropped)
  {
    hide ProgrammedTable, Completes, NhPlan, NhgPlan, Lookup, SwitchOf, GroupStep, Built, AllLinks;
    SwitchTable(p, multi, AllLinks(p), track);
    Lookup222(p, multi, a);
  }

  lemma NoBackupSideFails(p: ScaleParams, multi: bool, track: bool, compact: bool)
    requires Programmed(p, multi) && FlowCounts(p) && TransitBelowDecap(p) && !Built(Backup(p)) && p.numTransitIPv4 > 0
    ensures !AllAsExpected(p, multi, track, compact, false)
  {
    hide Programmed, EndsAsExpected, SwitchOf, ExpectationOf, RunIds, Ingress, FlowAt, Carries, Built, Step,
         TransitBelowDecap, AllLinks, AllAsExpected, FlowDscps;
    var d := FullSwitch(p, multi, track);
    var pkt := FirstTransit(p, compact, Repaired, 0);
    TransitHeaders(p, compact, Repaired, 0, pkt);
    RunIdsHas(p, compact, false, Repaired);
    TunnelFallsBack(p, multi, AllLinks(p), track, p.numEncapVRFs, pkt);
    var s := Routing(TransitVrf222, pkt.dst, pkt);
    UnbuiltDrops(p, multi, track, pkt.dst, pkt);
    DropFails(d, ExpectationOf(p, compact, false, FlowId(Repaired, 0)), s, Dropped);
    FlowFails(p, multi, track, compact, false, FlowId(Repaired, 0), pkt, s);
  }

  /**
   * With all links up, every packet of every flow takes the table path of its scenario, and
   * leaves as the expectation recorded for its flow says, on every run, exactly when there is
   * an encap next-hop and the second transit VRF is built.
   */
  lemma EndToEndIff(p: ScaleParams, multi: bool, track: bool, compact: bool)
    requires Programmed(p, multi) && AddressPlan(p)
    ensures FlowCounts(p)
    ensures AllOnPath(p, multi, track, compact) <==>
            p.numUniqueEncapNH >= 1 && p.numTransitNH >= 2 && p.numTransitNHG >= 2
    ensures AllAsExpected(p, multi, track, compact, false) <==>
            p.numUniqueEncapNH >= 1 && p.numTransitNH >= 2 && p.numTransitNHG >= 2
  {
    hide Programmed, Ingress, SwitchOf, Carries, FlowAt, RunIds, Built, AddressPlan, AllAsExpected, ScenarioRun, Step;
    CountsHold(p, multi);
    CountsPositive(p, multi);
    if AllOnPath(p, multi, track, compact) {
      OnPathAsExpected(p, multi, track, compact);
    }
    if p.numUniqueEncapNH == 0 {
      NoEncapNextHopFails(p, multi, track, compact);
    } else if !Built(Backup(p)) {
      assert TransitBelowDecap(p) by { PlanBelowDecap(p); }
      NoBackupSideFails(p, multi, track, compact);
    } else {
      var d := FullSwitch(p, multi, track);
      forall id, pkt, s', run | id in RunIds(p, compact, false) && Carries(FlowAt(p, id.sc, compact, id.k).headers, pkt)
                                && Ingress(d, p.numEncapVRFs, pkt, s') && IsCompleteRun(d, run) && run[0] == s'
        ensures ScenarioRun(p, id.sc, compact, id.k, pkt, run)
      {
        FlowOnPath(p, multi, track, compact, id, pkt, run);
      }
    }
  }
}
