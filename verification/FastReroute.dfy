/**
 * Fast reroute.  With the primary VLANs shut, a packet for a TE_VRF_111 prefix falls back to
 * REPAIR_VRF, is re-encapsulated under source .222 into TE_VRF_222 and leaves on a VLAN that
 * is still up.  FastRerouteIff says for exactly which scale parameters this holds of every
 * packet and every choice of hops.
 */
module FastReroute {
  import opened GoInts
  import opened Rib
  import opened Params
  import opened DefaultVrfBuilder
  import opened RepairBuilder
  import opened TransitBuilder
  import opened FullRun
  import opened Ids
  import opened Forwarding
  import opened ProgrammedTables
  import opened ProgrammedRoutes
  import opened Termination
  import opened Liveness

  // The shutdown.

  predicate InRange(lo: int, hi: int, v: int) {
    lo <= v < hi
  }

  function VlanRange(lo: int, hi: int): set<nat> {
    set v: nat | v < hi && InRange(lo, hi, v)
  }

  function AllLinks(p: ScaleParams): set<nat> {
    VlanRange(0, p.numPort2VLANs)
  }

  /** The links the repair test leaves up. */
  function UpLinks(p: ScaleParams): set<nat> {
    VlanRange(PrimaryVlans(p), p.numPort2VLANs)
  }

  /** The VLANs behind subinterfaces lo .. hi; subinterface i carries VLAN i - 1. */
  function VlansOfSubinterfaces(lo: int, hi: int): set<nat> {
    VlanRange(lo - 1, hi)
  }

  /** setDUTSubinterfaceAdminState, on the set of VLANs that are up. */
  method SetSubinterfaceAdminState(up: set<nat>, startIdx: int, endIdx: int, enabled: bool) returns (now: set<nat>)
    requires startIdx >= 1
    ensures now == if enabled then up + VlansOfSubinterfaces(startIdx, endIdx)
                   else up - VlansOfSubinterfaces(startIdx, endIdx)
  {
    now := up;
    var i := startIdx;
    while i <= endIdx
      invariant startIdx <= i <= Max(endIdx + 1, startIdx)
      invariant now == if enabled then up + VlansOfSubinterfaces(startIdx, i - 1)
                       else up - VlansOfSubinterfaces(startIdx, i - 1)
      decreases endIdx + 1 - i
    {
      assert VlansOfSubinterfaces(startIdx, i) == VlansOfSubinterfaces(startIdx, i - 1) + {i - 1};
      now := if enabled then now + {i - 1} else now - {i - 1};
      i := i + 1;
    }
  }

  /** The repair test's shutdown, and its deferred restore. */
  method ShutAndRestore(p: ScaleParams) returns (during: set<nat>, after: set<nat>)
    requires p.numPort2VLANs > 0
    ensures during == UpLinks(p)
    ensures after == AllLinks(p)
  {
    var downCount := Max(Quot(p.numPort2VLANs * SHUTDOWN_VLAN_PCT, 100), 1);
    during := SetSubinterfaceAdminState(AllLinks(p), 1, downCount, false);
    after := SetSubinterfaceAdminState(during, 1, downCount, true);
  }

  lemma {:induction false} VlanRangeSize(lo: nat, hi: nat)
    requires lo <= hi
    ensures |VlanRange(lo, hi)| == hi - lo
    decreases hi
  {
    if lo < hi {
      VlanRangeSize(lo, hi - 1);
      assert VlanRange(lo, hi) == VlanRange(lo, hi - 1) + {hi - 1};
    } else {
      assert VlanRange(lo, hi) == {};
    }
  }

  /** The shutdown takes half of the VLANs, rounded down, but always one. */
  lemma HalfOfTheVlansShut(p: ScaleParams)
    requires p.numPort2VLANs > 0
    ensures |AllLinks(p)| == p.numPort2VLANs
    ensures |UpLinks(p)| == p.numPort2VLANs - if p.numPort2VLANs == 1 then 1 else p.numPort2VLANs / 2
  {
    VlanRangeSize(0, p.numPort2VLANs);
    VlanRangeSize(PrimaryVlans(p), p.numPort2VLANs);
  }

  // The promise.

  ghost function Rerouting(p: ScaleParams, multi: bool, track: bool): Switch
    requires Programmed(p, multi)
  {
    SwitchOf(p, multi, UpLinks(p), track)
  }

  /** A tunnelled packet for a TE_VRF_111 prefix. */
  predicate TransitPacket(p: ScaleParams, pkt: Packet) {
    pkt.payload.Inner? && pkt.dst.V4? && TRANSIT_111_START <= pkt.dst.n < TRANSIT_111_START + p.numTransitIPv4
  }

  predicate InTransit222(p: ScaleParams, a: Addr) {
    a.V4? && TRANSIT_222_START <= a.n < TRANSIT_222_START + p.numTransitIPv4
  }

  predicate BackupPrefix(p: ScaleParams, a: Addr) {
    a.V4? && BackupStart(p) <= a.n < BackupStart(p) + Ipv4Part(p)
  }

  /** TE_VRF_111, REPAIR_VRF, a tunnel into TE_VRF_222, a backup prefix, a link that is up, out. */
  ghost predicate RepairedRun(p: ScaleParams, pkt: Packet, run: seq<State>)
    requires pkt.payload.Inner?
  {
    && |run| == 6
    && run[0] == Routing(TransitVrf111, pkt.dst, pkt)
    && run[1] == Routing(RepairVrf, pkt.dst, pkt)
    && run[2].Routing? && run[2].vrf == TransitVrf222 && InTransit222(p, run[2].key)
    && run[2].pkt == Encapsulated(pkt.payload.packet, V4(OUTER_SRC_222), run[2].key)
    && run[3].Routing? && run[3] == Routing(DefaultVrf, run[3].key, run[2].pkt) && BackupPrefix(p, run[3].key)
    && run[5].Out? && run[5].vlan in UpLinks(p) && run[5].pkt == run[2].pkt
    && run[4] == Routing(DefaultVrf, AteIp(run[5].vlan), run[2].pkt)
  }

  ghost predicate Reroutes(p: ScaleParams, multi: bool, track: bool)
    requires Programmed(p, multi)
  {
    forall pkt, run ::
      TransitPacket(p, pkt) && IsCompleteRun(Rerouting(p, multi, track), run)
      && run[0] == Routing(TransitVrf111, pkt.dst, pkt)
      ==> RepairedRun(p, pkt, run)
  }

  /**
   * Every repair group that serves a transit prefix tunnels to TE_VRF_222 prefixes that exist:
   * all its tunnels, or just its first where the device skips an unreachable tunnel.
   */
  predicate TunnelsCovered(p: ScaleParams, multi: bool, track: bool)
    requires p.numRepairNHG > 0 && p.numTransitIPv4 > 0
  {
    var m: nat := Min(p.numTransitIPv4, p.numRepairNHG);
    if track then FirstTunnel(p.numRepairNHG, multi, m - 1) < p.numTransitIPv4
    else FirstTunnel(p.numRepairNHG, multi, m) <= p.numTransitIPv4
  }

  predicate FrrCondition(p: ScaleParams, multi: bool, track: bool)
    requires p.numRepairNHG > 0 && p.numTransitIPv4 > 0
  {
    && p.numPort2VLANs >= 2
    && p.numDefaultIPv4 >= 2
    && p.numTransitNH >= 2 && p.numTransitNHG >= 2
    && p.numRepairIPv4 >= p.numTransitIPv4
    && TunnelsCovered(p, multi, track)
  }

  lemma CountsPositive(p: ScaleParams, multi: bool)
    requires Programmed(p, multi)
    ensures p.numRepairNHG > 0 && p.numTransitIPv4 > 0 && p.numPort2VLANs > 0 && p.numDefaultIPv4 > 0
    ensures p.numRepairIPv4 > 0
    ensures Built(Backup(p)) <==> p.numTransitNH >= 2 && p.numTransitNHG >= 2
  {
    hide Completes, NhPlan, NhgPlan, SideSafe, Built, DanglingCounts, PrimaryPrefixes, BackupPrefixes;
    CompletesFacts(p);
    SideCounts(p, multi);
  }

  // Liveness under the shutdown.

  lemma UpLinksAre(p: ScaleParams)
    ensures forall v :: 0 <= v < PrimaryVlans(p) ==> v !in UpLinks(p)
    ensures p.numPort2VLANs >= 2 ==>
              forall v :: 0 <= v < p.numPort2VLANs && (v < PrimaryVlans(p) <==> p.numPort2VLANs == 1) ==>
                v in UpLinks(p)
    ensures p.numPort2VLANs == 1 ==> UpLinks(p) == {}
  {
  }

  lemma Group111Dead(p: ScaleParams, multi: bool, track: bool, i: nat)
    requires Programmed(p, multi) && p.numDefaultIPv4 >= 2 && i < Half(p.numTransitNHG)
    ensures !HasLive(Rerouting(p, multi, track), GroupHops(Rerouting(p, multi, track), NHG_BASE_TRANSIT + i))
  {
    hide ProgrammedTable, Completes, NhPlan, NhgPlan, GroupHops, Half, PrimaryVlans, Routable, SwitchOf, UpLinks;
    var d := Rerouting(p, multi, track);
    UpLinksAre(p);
    SwitchTable(p, multi, UpLinks(p), track);
    var hops := GroupHops(d, NHG_BASE_TRANSIT + i);
    forall k | 0 <= k < |hops|
      ensures !Live(d, hops[k])
    {
      var x := Hop111(p, multi, UpLinks(p), track, i, hops[k]);
      PrimaryPrefixRoutable(p, multi, UpLinks(p), track, x);
      PrimaryGroupDead(p, multi, UpLinks(p), track, x % NhgPart(p));
    }
  }

  lemma BackupPrefixAlive(p: ScaleParams, multi: bool, track: bool, x: nat)
    requires Programmed(p, multi) && p.numPort2VLANs >= 2 && x < Ipv4Part(p)
    ensures Routable(Rerouting(p, multi, track), DefaultVrf, V4(BackupStart(p) + x))
  {
    hide ProgrammedTable, Completes, NhPlan, NhgPlan, GroupHops, Half, PrimaryVlans, Routable, SwitchOf, UpLinks,
         HasLive, BackupStart;
    UpLinksAre(p);
    BackupPrefixRoutable(p, multi, UpLinks(p), track, x);
    BackupGroupAlive(p, multi, UpLinks(p), track, x % NhgPart(p));
  }

  /** With a single default prefix, the primary side rides on the backup half, and stays live. */
  lemma Group111Alive(p: ScaleParams, multi: bool, track: bool, i: nat)
    requires Programmed(p, multi) && p.numPort2VLANs >= 2 && p.numDefaultIPv4 == 1 && i < Half(p.numTransitNHG)
    ensures HasLive(Rerouting(p, multi, track), GroupHops(Rerouting(p, multi, track), NHG_BASE_TRANSIT + i))
  {
    hide ProgrammedTable, Completes, NhPlan, NhgPlan, GroupHops, BackupHops, PrimaryVlans, Routable, SwitchOf,
         UpLinks, HasLive;
    var d := Rerouting(p, multi, track);
    SwitchTable(p, multi, UpLinks(p), track);
    Group111(p, multi, UpLinks(p), track, i);
    var hops := GroupHops(d, NHG_BASE_TRANSIT + i);
    var h := hops[|hops| - 1];
    var x := Hop111(p, multi, UpLinks(p), track, i, h);
    BackupPrefixAlive(p, multi, track, 0);
    assert Live(d, h);
    SomeLive(d, hops, h);
  }

  lemma Group222Alive(p: ScaleParams, multi: bool, track: bool, i: nat)
    requires Programmed(p, multi) && p.numPort2VLANs >= 2 && Built(Backup(p)) && i < Backup(p).nhgCount
    ensures HasLive(Rerouting(p, multi, track), GroupHops(Rerouting(p, multi, track), Backup(p).baseNHG + i))
  {
    hide ProgrammedTable, Completes, NhPlan, NhgPlan, GroupHops, BackupHops, PrimaryVlans, Routable, SwitchOf,
         UpLinks, HasLive, BackupStart, Half, PrimaryPrefixes, BackupPrefixes;
    var d := Rerouting(p, multi, track);
    SwitchTable(p, multi, UpLinks(p), track);
    Group222(p, multi, UpLinks(p), track, i);
    var hops := GroupHops(d, Backup(p).baseNHG + i);
    var h := hops[|hops| - 1];
    var x := Hop222(p, multi, UpLinks(p), track, i, h);
    BackupPrefixAlive(p, multi, track, x);
    assert Live(d, h);
    SomeLive(d, hops, h);
  }

  lemma TunnelRoutable(p: ScaleParams, multi: bool, track: bool, k: nat)
    requires Programmed(p, multi) && p.numPort2VLANs >= 2 && Built(Backup(p))
    ensures Routable(Rerouting(p, multi, track), TransitVrf222, V4(TRANSIT_222_START + k)) <==> k < p.numTransitIPv4
  {
    hide ProgrammedTable, Completes, NhPlan, NhgPlan, GroupHops, BackupHops, PrimaryVlans, Routable, SwitchOf,
         UpLinks, HasLive, BackupStart, Half, PrimaryPrefixes, BackupPrefixes, Lookup;
    var d := Rerouting(p, multi, track);
    var a := V4(TRANSIT_222_START + k);
    SwitchTable(p, multi, UpLinks(p), track);
    Lookup222(p, multi, a);
    if k < p.numTransitIPv4 {
      Group222Alive(p, multi, track, k % Backup(p).nhgCount);
      RoutableByGroup(d, TransitVrf222, a, Backup(p).baseNHG + k % Backup(p).nhgCount);
    } else {
      RoutableIff(d, TransitVrf222, a);
      NoHopsNotLive(d);
    }
  }

  // One step at a time.

  lemma StepFrom111(p: ScaleParams, multi: bool, track: bool, pkt: Packet, s': State)
    requires Programmed(p, multi) && p.numDefaultIPv4 >= 2 && TransitPacket(p, pkt)
    requires Step(Rerouting(p, multi, track), Routing(TransitVrf111, pkt.dst, pkt), s')
    ensures s' == Routing(RepairVrf, pkt.dst, pkt)
  {
    hide ProgrammedTable, Completes, NhPlan, NhgPlan, GroupHops, BackupHops, SwitchOf, UpLinks, HasLive, Half,
         Lookup, GroupStep, Live;
    var d := Rerouting(p, multi, track);
    SwitchTable(p, multi, UpLinks(p), track);
    Lookup111(p, multi, pkt.dst);
    var i := (pkt.dst.n - TRANSIT_111_START) % Half(p.numTransitNHG);
    Group111Dead(p, multi, track, i);
    Group111(p, multi, UpLinks(p), track, i);
    StaticLive(p, multi, UpLinks(p), track);
    StaticHops(p, multi, UpLinks(p), track);
    var h := StepByBackup(d, NHG_BASE_TRANSIT + i, pkt, DefaultVrf, s');
  }

  /** A repair group's tunnels, and which of them are live. */
  lemma TunnelLive(p: ScaleParams, multi: bool, track: bool, i: nat, h: Hop) returns (k: nat)
    requires Programmed(p, multi) && p.numPort2VLANs >= 2 && Built(Backup(p)) && i < p.numRepairNHG
    requires h in GroupHops(Rerouting(p, multi, track), NHG_BASE_REPAIR + i)
    ensures var d := Rerouting(p, multi, track);
            && h == Hop(NH_BASE_REPAIR + k, 1) && h.nh in d.table.nhs && d.table.nhs[h.nh] == Tunnel(k)
            && (Live(d, h) <==> !track || k < p.numTransitIPv4)
    ensures FirstTunnel(p.numRepairNHG, multi, i) <= k < FirstTunnel(p.numRepairNHG, multi, i + 1)
  {
    hide ProgrammedTable, Completes, NhPlan, NhgPlan, GroupHops, SwitchOf, UpLinks, Routable, Built, FirstTunnel;
    SwitchTable(p, multi, UpLinks(p), track);
    k := HopRepair(p, multi, UpLinks(p), track, i, h);
    TunnelRoutable(p, multi, track, k);
  }

  /** The first tunnel of a repair group, and the last. */
  lemma TunnelsOf(p: ScaleParams, multi: bool, track: bool, i: nat)
    requires Programmed(p, multi) && i < p.numRepairNHG
    ensures var hops := GroupHops(Rerouting(p, multi, track), NHG_BASE_REPAIR + i);
            && Hop(NH_BASE_REPAIR + FirstTunnel(p.numRepairNHG, multi, i), 1) in hops
            && FirstTunnel(p.numRepairNHG, multi, i + 1) >= 1
            && Hop(NH_BASE_REPAIR + FirstTunnel(p.numRepairNHG, multi, i + 1) - 1, 1) in hops
  {
    hide ProgrammedTable, Completes, NhPlan, NhgPlan, GroupHops, SwitchOf, UpLinks, FirstTunnel;
    GroupRepair(p, multi, UpLinks(p), track, i);
    RepairSuccessor(p.numRepairNHG, multi, STATIC_S2_NHG, i);
  }

  lemma StepFromRepair(p: ScaleParams, multi: bool, track: bool, pkt: Packet, i: nat, s': State) returns (k: nat)
    requires Programmed(p, multi) && p.numPort2VLANs >= 2 && Built(Backup(p)) && TransitPacket(p, pkt)
    requires pkt.dst.n < TRANSIT_111_START + p.numRepairIPv4 && i == (pkt.dst.n - TRANSIT_111_START) % p.numRepairNHG
    requires track ==> FirstTunnel(p.numRepairNHG, multi, i) < p.numTransitIPv4
    requires Step(Rerouting(p, multi, track), Routing(RepairVrf, pkt.dst, pkt), s')
    ensures FirstTunnel(p.numRepairNHG, multi, i) <= k < FirstTunnel(p.numRepairNHG, multi, i + 1)
    ensures track ==> k < p.numTransitIPv4
    ensures var a := V4(TRANSIT_222_START + k);
            s' == Routing(TransitVrf222, a, Encapsulated(pkt.payload.packet, V4(OUTER_SRC_222), a))
  {
    hide ProgrammedTable, Completes, NhPlan, NhgPlan, GroupHops, BackupHops, SwitchOf, UpLinks, HasLive, Lookup,
         GroupStep, Live, FirstTunnel, Built;
    var d := Rerouting(p, multi, track);
    SwitchTable(p, multi, UpLinks(p), track);
    LookupRepair(p, multi, pkt.dst);
    TunnelsOf(p, multi, track, i);
    var first := Hop(NH_BASE_REPAIR + FirstTunnel(p.numRepairNHG, multi, i), 1);
    k := TunnelLive(p, multi, track, i, first);
    SomeLive(d, GroupHops(d, NHG_BASE_REPAIR + i), first);
    var h := StepByPrimary(d, NHG_BASE_REPAIR + i, pkt, DefaultVrf, s');
    k := TunnelLive(p, multi, track, i, h);
  }

  lemma StepFrom222(p: ScaleParams, multi: bool, track: bool, a: Addr, q: Packet, s': State) returns (x: nat)
    requires Programmed(p, multi) && p.numPort2VLANs >= 2 && Built(Backup(p)) && InTransit222(p, a)
    requires Step(Rerouting(p, multi, track), Routing(TransitVrf222, a, q), s')
    ensures x < Ipv4Part(p) && s' == Routing(DefaultVrf, V4(BackupStart(p) + x), q)
  {
    hide ProgrammedTable, Completes, NhPlan, NhgPlan, GroupHops, BackupHops, SwitchOf, UpLinks, HasLive, Half,
         Lookup, GroupStep, Live, BackupStart, PrimaryPrefixes, BackupPrefixes;
    var d := Rerouting(p, multi, track);
    SwitchTable(p, multi, UpLinks(p), track);
    Lookup222(p, multi, a);
    var i := (a.n - TRANSIT_222_START) % Backup(p).nhgCount;
    Group222Alive(p, multi, track, i);
    var h := StepByPrimary(d, Backup(p).baseNHG + i, q, DefaultVrf, s');
    x := Hop222(p, multi, UpLinks(p), track, i, h);
  }

  lemma StepFromBackupPrefix(p: ScaleParams, multi: bool, track: bool, x: nat, q: Packet, s': State) returns (v: nat)
    requires Programmed(p, multi) && p.numPort2VLANs >= 2 && x < Ipv4Part(p)
    requires Step(Rerouting(p, multi, track), Routing(DefaultVrf, V4(BackupStart(p) + x), q), s')
    ensures v in UpLinks(p) && v < p.numPort2VLANs && s' == Routing(DefaultVrf, AteIp(v), q)
  {
    hide ProgrammedTable, Completes, NhPlan, NhgPlan, GroupHops, BackupHops, SwitchOf, UpLinks, HasLive, Half,
         Lookup, GroupStep, BackupStart, VlanOf, Routable, PrimaryVlans;
    var d := Rerouting(p, multi, track);
    SwitchTable(p, multi, UpLinks(p), track);
    DefaultPrefixesNotLinks(p, multi, x);
    LookupDefault(p, multi, V4(BackupStart(p) + x));
    var i := x % NhgPart(p);
    UpLinksAre(p);
    BackupGroupAlive(p, multi, UpLinks(p), track, i);
    var h := StepByPrimary(d, NHG_BASE_DEFAULT + NhgPart(p) + i, q, DefaultVrf, s');
    v := BackupHop(p, multi, UpLinks(p), track, i, h);
    LinkRoutable(p, multi, UpLinks(p), track, v);
  }

  lemma StepFromLink(p: ScaleParams, multi: bool, track: bool, v: nat, q: Packet, s': State)
    requires Programmed(p, multi) && v < p.numPort2VLANs && v in UpLinks(p)
    requires Step(Rerouting(p, multi, track), Routing(DefaultVrf, AteIp(v), q), s')
    ensures s' == Out(v, q)
  {
    hide ProgrammedTable, Completes, NhPlan, NhgPlan, SwitchOf, UpLinks, Lookup, GroupStep, VlanOf;
    SwitchTable(p, multi, UpLinks(p), track);
    VlanOfLink(p.numPort2VLANs, v);
  }

  /** A complete run in flight goes on, and one that is out is over. */
  lemma RunGoesOn(d: Switch, run: seq<State>, i: nat)
    requires IsCompleteRun(d, run) && i < |run|
    ensures run[i].Routing? ==> i + 1 < |run| && Step(d, run[i], run[i + 1])
    ensures !run[i].Routing? ==> |run| == i + 1
  {
    if i + 1 < |run| {
      assert Step(d, run[i], run[i + 1]);
    }
  }

  /** From TE_VRF_222 on, a run is forced. */
  lemma RunFrom222(p: ScaleParams, multi: bool, track: bool, run: seq<State>)
    requires Programmed(p, multi) && p.numPort2VLANs >= 2 && Built(Backup(p))
    requires IsCompleteRun(Rerouting(p, multi, track), run) && |run| > 2
    requires run[2].Routing? && run[2].vrf == TransitVrf222 && InTransit222(p, run[2].key)
    ensures |run| == 6
    ensures run[3].Routing? && run[3] == Routing(DefaultVrf, run[3].key, run[2].pkt) && BackupPrefix(p, run[3].key)
    ensures run[5].Out? && run[5].vlan in UpLinks(p) && run[5].pkt == run[2].pkt
    ensures run[4] == Routing(DefaultVrf, AteIp(run[5].vlan), run[2].pkt)
  {
    hide ProgrammedTable, Completes, NhPlan, NhgPlan, SwitchOf, UpLinks, Step, Built, BackupStart, Half, IsCompleteRun;
    var d := Rerouting(p, multi, track);
    RunGoesOn(d, run, 2);
    var x := StepFrom222(p, multi, track, run[2].key, run[2].pkt, run[3]);
    RunGoesOn(d, run, 3);
    var v := StepFromBackupPrefix(p, multi, track, x, run[2].pkt, run[4]);
    RunGoesOn(d, run, 4);
    StepFromLink(p, multi, track, v, run[2].pkt, run[5]);
    RunGoesOn(d, run, 5);
  }

  // When it holds.

  lemma GroupCovered(p: ScaleParams, multi: bool, track: bool, j: nat)
    requires p.numRepairNHG > 0 && p.numTransitIPv4 > 0 && TunnelsCovered(p, multi, track) && j < p.numTransitIPv4
    ensures var i := j % p.numRepairNHG;
            if track then FirstTunnel(p.numRepairNHG, multi, i) < p.numTransitIPv4
            else FirstTunnel(p.numRepairNHG, multi, i + 1) <= p.numTransitIPv4
  {
    hide FirstTunnel;
    var i := j % p.numRepairNHG;
    var m: nat := Min(p.numTransitIPv4, p.numRepairNHG);
    if j < p.numRepairNHG {
      ModSmall(j, p.numRepairNHG);
    }
    FirstTunnelMonotone(p.numRepairNHG, multi, i, m - 1);
    FirstTunnelMonotone(p.numRepairNHG, multi, i + 1, m);
  }

  lemma RerouteHolds(p: ScaleParams, multi: bool, track: bool, pkt: Packet, run: seq<State>)
    requires Programmed(p, multi) && TransitPacket(p, pkt)
    requires p.numRepairNHG > 0 && p.numTransitIPv4 > 0 && FrrCondition(p, multi, track)
    requires IsCompleteRun(Rerouting(p, multi, track), run) && run[0] == Routing(TransitVrf111, pkt.dst, pkt)
    ensures RepairedRun(p, pkt, run)
  {
    hide ProgrammedTable, Completes, NhPlan, NhgPlan, SwitchOf, UpLinks, Step, Built, BackupStart, Half, FirstTunnel,
         TunnelsCovered;
    var d := Rerouting(p, multi, track);
    CountsPositive(p, multi);
    RunGoesOn(d, run, 0);
    StepFrom111(p, multi, track, pkt, run[1]);
    RunGoesOn(d, run, 1);
    var j := pkt.dst.n - TRANSIT_111_START;
    GroupCovered(p, multi, track, j);
    var k := StepFromRepair(p, multi, track, pkt, j % p.numRepairNHG, run[2]);
    RunFrom222(p, multi, track, run);
  }

  // When it does not.

  /** A tunnelled packet for the j-th transit prefix. */
  function TransitPacketTo(j: nat, dscp: nat, inner: Packet): Packet {
    Packet(V4(OUTER_SRC_111), V4(TRANSIT_111_START + j), dscp, Inner(inner))
  }

  lemma NoLinkLeft(p: ScaleParams, pkt: Packet, run: seq<State>)
    requires p.numPort2VLANs == 1 && pkt.payload.Inner?
    ensures !RepairedRun(p, pkt, run)
  {
    UpLinksAre(p);
  }

  lemma NoNeedToRepair(p: ScaleParams, multi: bool, track: bool, pkt: Packet, run: seq<State>)
    requires Programmed(p, multi) && p.numPort2VLANs >= 2 && p.numDefaultIPv4 == 1 && TransitPacket(p, pkt)
    requires IsCompleteRun(Rerouting(p, multi, track), run) && run[0] == Routing(TransitVrf111, pkt.dst, pkt)
    ensures !RepairedRun(p, pkt, run)
  {
    hide ProgrammedTable, Completes, NhPlan, NhgPlan, GroupHops, BackupHops, SwitchOf, UpLinks, HasLive, Half,
         Lookup, GroupStep, Live, BackupStart;
    var d := Rerouting(p, multi, track);
    SwitchTable(p, multi, UpLinks(p), track);
    Lookup111(p, multi, pkt.dst);
    var i := (pkt.dst.n - TRANSIT_111_START) % Half(p.numTransitNHG);
    Group111Alive(p, multi, track, i);
    RunGoesOn(d, run, 0);
    var h := StepByPrimary(d, NHG_BASE_TRANSIT + i, pkt, DefaultVrf, run[1]);
    var x := Hop111(p, multi, UpLinks(p), track, i, h);
  }

  lemma NoBackupSide(p: ScaleParams, multi: bool, track: bool, pkt: Packet, run: seq<State>)
    requires Programmed(p, multi) && !Built(Backup(p)) && TransitPacket(p, pkt)
    requires IsCompleteRun(Rerouting(p, multi, track), run) && run[0] == Routing(TransitVrf111, pkt.dst, pkt)
    ensures !RepairedRun(p, pkt, run)
  {
    hide ProgrammedTable, Completes, NhPlan, NhgPlan, SwitchOf, UpLinks, Lookup, GroupStep, BackupStart, Built,
         IsCompleteRun;
    if RepairedRun(p, pkt, run) {
      SwitchTable(p, multi, UpLinks(p), track);
      RunGoesOn(Rerouting(p, multi, track), run, 2);
      Lookup222(p, multi, run[2].key);
      assert false;
    }
  }

  lemma NoRepairRoute(p: ScaleParams, multi: bool, track: bool, pkt: Packet, run: seq<State>)
    requires Programmed(p, multi) && TransitPacket(p, pkt) && pkt.dst.n >= TRANSIT_111_START + p.numRepairIPv4
    requires IsCompleteRun(Rerouting(p, multi, track), run) && run[0] == Routing(TransitVrf111, pkt.dst, pkt)
    ensures !RepairedRun(p, pkt, run)
  {
    hide ProgrammedTable, Completes, NhPlan, NhgPlan, SwitchOf, UpLinks, Lookup, GroupStep, BackupStart, Built,
         IsCompleteRun;
    if RepairedRun(p, pkt, run) {
      SwitchTable(p, multi, UpLinks(p), track);
      RunGoesOn(Rerouting(p, multi, track), run, 1);
      LookupRepair(p, multi, pkt.dst);
      assert false;
    }
  }

  /** Where the device tracks tunnels: a group none of whose tunnels exists falls through to S2. */
  lemma NoLiveTunnel(p: ScaleParams, multi: bool, pkt: Packet, i: nat, run: seq<State>)
    requires Programmed(p, multi) && p.numPort2VLANs >= 2 && Built(Backup(p)) && TransitPacket(p, pkt)
    requires pkt.dst.n < TRANSIT_111_START + p.numRepairIPv4 && i == (pkt.dst.n - TRANSIT_111_START) % p.numRepairNHG
    requires FirstTunnel(p.numRepairNHG, multi, i) >= p.numTransitIPv4
    requires IsCompleteRun(Rerouting(p, multi, true), run) && run[0] == Routing(TransitVrf111, pkt.dst, pkt)
    ensures !RepairedRun(p, pkt, run)
  {
    hide ProgrammedTable, Completes, NhPlan, NhgPlan, GroupHops, BackupHops, SwitchOf, UpLinks, Lookup, GroupStep,
         BackupStart, Built, Live, FirstTunnel, IsCompleteRun;
    var d := Rerouting(p, multi, true);
    if RepairedRun(p, pkt, run) {
      SwitchTable(p, multi, UpLinks(p), true);
      RunGoesOn(d, run, 1);
      LookupRepair(p, multi, pkt.dst);
      var hops := GroupHops(d, NHG_BASE_REPAIR + i);
      forall n | 0 <= n < |hops|
        ensures !Live(d, hops[n])
      {
        var k := TunnelLive(p, multi, true, i, hops[n]);
      }
      GroupRepair(p, multi, UpLinks(p), true, i);
      StaticLive(p, multi, UpLinks(p), true);
      StaticHops(p, multi, UpLinks(p), true);
      var h := StepByBackup(d, NHG_BASE_REPAIR + i, pkt, DefaultVrf, run[2]);
      assert false;
    }
  }

  /** Where it does not: the last tunnel of the group can be taken whether it exists or not. */
  lemma LastTunnelTaken(p: ScaleParams, multi: bool, pkt: Packet, i: nat) returns (s': State)
    requires Programmed(p, multi) && p.numPort2VLANs >= 2 && Built(Backup(p)) && TransitPacket(p, pkt)
    requires pkt.dst.n < TRANSIT_111_START + p.numRepairIPv4 && i == (pkt.dst.n - TRANSIT_111_START) % p.numRepairNHG
    ensures Step(Rerouting(p, multi, false), Routing(RepairVrf, pkt.dst, pkt), s')
    ensures FirstTunnel(p.numRepairNHG, multi, i + 1) >= 1
    ensures s'.Routing? && s'.vrf == TransitVrf222
            && s'.key == V4(TRANSIT_222_START + FirstTunnel(p.numRepairNHG, multi, i + 1) - 1)
  {
    hide ProgrammedTable, Completes, NhPlan, NhgPlan, GroupHops, BackupHops, SwitchOf, UpLinks, Lookup, HasLive,
         Built, Live, FirstTunnel;
    var d := Rerouting(p, multi, false);
    SwitchTable(p, multi, UpLinks(p), false);
    LookupRepair(p, multi, pkt.dst);
    TunnelsOf(p, multi, false, i);
    var h := Hop(NH_BASE_REPAIR + FirstTunnel(p.numRepairNHG, multi, i + 1) - 1, 1);
    var k := TunnelLive(p, multi, false, i, h);
    SomeLive(d, GroupHops(d, NHG_BASE_REPAIR + i), h);
    assert Chosen(d, NHG_BASE_REPAIR + i, h);
    s' := HopTo(d.table.nhs[h.nh], pkt, DefaultVrf);
  }

  lemma AnyRun(p: ScaleParams, multi: bool, track: bool, j: nat, dscp: nat, inner: Packet)
    returns (pkt: Packet, run: seq<State>)
    requires Programmed(p, multi) && j < p.numTransitIPv4
    ensures pkt == TransitPacketTo(j, dscp, inner) && TransitPacket(p, pkt)
    ensures IsCompleteRun(Rerouting(p, multi, track), run) && run[0] == Routing(TransitVrf111, pkt.dst, pkt)
  {
    hide ProgrammedTable, Completes, NhPlan, NhgPlan, SwitchOf, UpLinks, Step;
    pkt := TransitPacketTo(j, dscp, inner);
    run := CompleteRunExists(p, multi, UpLinks(p), track, Routing(TransitVrf111, pkt.dst, pkt));
  }

  lemma RunThroughLastTunnel(p: ScaleParams, multi: bool, j: nat, dscp: nat, inner: Packet)
    returns (pkt: Packet, run: seq<State>)
    requires Programmed(p, multi) && p.numPort2VLANs >= 2 && p.numDefaultIPv4 >= 2 && Built(Backup(p))
    requires j < p.numTransitIPv4 && j < p.numRepairIPv4
    requires FirstTunnel(p.numRepairNHG, multi, j % p.numRepairNHG + 1) > p.numTransitIPv4
    ensures TransitPacket(p, pkt) && pkt == TransitPacketTo(j, dscp, inner)
    ensures IsCompleteRun(Rerouting(p, multi, false), run) && run[0] == Routing(TransitVrf111, pkt.dst, pkt)
    ensures !RepairedRun(p, pkt, run)
  {
    hide ProgrammedTable, Completes, NhPlan, NhgPlan, SwitchOf, UpLinks, Step, Built, FirstTunnel, BackupStart, IsRun;
    var d := Rerouting(p, multi, false);
    pkt := TransitPacketTo(j, dscp, inner);
    var s0 := Routing(TransitVrf111, pkt.dst, pkt);
    var s1 := Progress(d, s0);
    StepFrom111(p, multi, false, pkt, s1);
    var s2 := LastTunnelTaken(p, multi, pkt, j % p.numRepairNHG);
    var rest := CompleteRunExists(p, multi, UpLinks(p), false, s2);
    RunCons(d, s1, rest);
    RunCons(d, s0, [s1] + rest);
    run := [s0] + ([s1] + rest);
    assert run[2] == s2;
  }

  /** The group that serves transit prefix m - 1 is group m - 1. */
  lemma UncoveredRun(p: ScaleParams, multi: bool, track: bool, dscp: nat, inner: Packet)
    returns (pkt: Packet, run: seq<State>)
    requires Programmed(p, multi) && p.numPort2VLANs >= 2 && p.numDefaultIPv4 >= 2 && Built(Backup(p))
    requires p.numRepairNHG > 0 && 0 < p.numTransitIPv4 <= p.numRepairIPv4 && !TunnelsCovered(p, multi, track)
    ensures TransitPacket(p, pkt)
    ensures pkt == TransitPacketTo(Min(p.numTransitIPv4, p.numRepairNHG) - 1, dscp, inner)
    ensures IsCompleteRun(Rerouting(p, multi, track), run) && run[0] == Routing(TransitVrf111, pkt.dst, pkt)
    ensures !RepairedRun(p, pkt, run)
  {
    hide ProgrammedTable, Completes, NhPlan, NhgPlan, SwitchOf, UpLinks, Built, FirstTunnel, RepairedRun,
         IsCompleteRun;
    var m: nat := Min(p.numTransitIPv4, p.numRepairNHG);
    ModSmall(m - 1, p.numRepairNHG);
    if track {
      pkt, run := AnyRun(p, multi, true, m - 1, dscp, inner);
      NoLiveTunnel(p, multi, pkt, m - 1, run);
    } else {
      pkt, run := RunThroughLastTunnel(p, multi, m - 1, dscp, inner);
    }
  }

  lemma RerouteFails(p: ScaleParams, multi: bool, track: bool, dscp: nat, inner: Packet)
    returns (j: nat, pkt: Packet, run: seq<State>)
    requires Programmed(p, multi)
    requires p.numRepairNHG > 0 && p.numTransitIPv4 > 0 && !FrrCondition(p, multi, track)
    ensures TransitPacket(p, pkt) && pkt == TransitPacketTo(j, dscp, inner) && j < p.numTransitIPv4
    ensures IsCompleteRun(Rerouting(p, multi, track), run) && run[0] == Routing(TransitVrf111, pkt.dst, pkt)
    ensures !RepairedRun(p, pkt, run)
  {
    hide ProgrammedTable, Completes, NhPlan, NhgPlan, SwitchOf, UpLinks, Built, FirstTunnel, RepairedRun,
         IsCompleteRun, TunnelsCovered;
    CountsPositive(p, multi);
    j := 0;
    pkt, run := AnyRun(p, multi, track, j, dscp, inner);
    if p.numPort2VLANs < 2 {
      NoLinkLeft(p, pkt, run);
    } else if p.numDefaultIPv4 < 2 {
      NoNeedToRepair(p, multi, track, pkt, run);
    } else if !Built(Backup(p)) {
      NoBackupSide(p, multi, track, pkt, run);
    } else if p.numRepairIPv4 < p.numTransitIPv4 {
      j := p.numRepairIPv4;
      pkt, run := AnyRun(p, multi, track, j, dscp, inner);
      NoRepairRoute(p, multi, track, pkt, run);
    } else {
      j := Min(p.numTransitIPv4, p.numRepairNHG) - 1;
      pkt, run := UncoveredRun(p, multi, track, dscp, inner);
    }
  }

  /**
   * Every packet for a TE_VRF_111 prefix is repaired, on every run, exactly when: a VLAN stays
   * up, the default prefixes are two or more, the backup side of the transit VRFs is built,
   * REPAIR_VRF has a route per transit prefix, and the repair tunnels in use end on TE_VRF_222
   * prefixes that exist.
   */
  lemma FastRerouteIff(p: ScaleParams, multi: bool, track: bool)
    requires Programmed(p, multi)
    ensures p.numRepairNHG > 0 && p.numTransitIPv4 > 0
    ensures Reroutes(p, multi, track) <==> FrrCondition(p, multi, track)
  {
    hide ProgrammedTable, Completes, NhPlan, NhgPlan, SwitchOf, UpLinks, Built, FirstTunnel, RepairedRun, Step,
         TunnelsCovered, Rerouting;
    CountsPositive(p, multi);
    if FrrCondition(p, multi, track) {
      forall pkt, run | TransitPacket(p, pkt) && IsCompleteRun(Rerouting(p, multi, track), run)
                        && run[0] == Routing(TransitVrf111, pkt.dst, pkt)
        ensures RepairedRun(p, pkt, run)
      {
        RerouteHolds(p, multi, track, pkt, run);
      }
    } else {
      var j, pkt, run := RerouteFails(p, multi, track, 0, Packet(V4(0), V4(0), 0, Plain(17)));
      assert TransitPacket(p, pkt);
    }
  }
}
