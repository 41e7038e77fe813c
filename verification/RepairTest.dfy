/**
 * The repair test end to end: with the primary VLANs shut, the transit flows must leave under
 * outer source .222.  That source is proof that a packet took the repair path, so the test's
 * check holds exactly when fast reroute does.
 */
module RepairTest {
  import opened Rib
  import opened Params
  import opened DefaultVrfBuilder
  import opened RepairBuilder
  import opened FullRun
  import opened Ids
  import opened Forwarding
  import opened ProgrammedTables
  import opened ProgrammedRoutes
  import opened Termination
  import opened Liveness
  import opened FastReroute
  import opened Flows
  import opened EndToEnd

  // What each VRF can do with a packet.

  /** The default VRF never changes a packet. */
  lemma DefaultKeepsPacket(p: ScaleParams, multi: bool, track: bool, run: seq<State>, i: nat)
    requires Programmed(p, multi) && IsCompleteRun(Rerouting(p, multi, track), run)
    requires i < |run| && run[i].Routing? && run[i].vrf == DefaultVrf
    ensures run[|run| - 1].Out? ==> run[|run| - 1].pkt == run[i].pkt
  {
    hide ProgrammedTable, Completes, NhPlan, NhgPlan, GroupHops, BackupHops, GroupStep, Half, Lookup, BackupStart,
         SwitchOf, UpLinks, VlanOf, IsCompleteRun;
    var d := Rerouting(p, multi, track);
    SwitchTable(p, multi, UpLinks(p), track);
    RunGoesOn(d, run, i);
    RunGoesOn(d, run, i + 1);
    if !LinkUp(d, DefaultVrf, run[i].key) && run[i + 1] != Dropped {
      LookupDefault(p, multi, run[i].key);
      var g := Lookup(d.table, DefaultVrf, run[i].key).value;
      var h := ChosenHop(d, g, run[i].pkt, DefaultVrf, run[i + 1]);
      var v := DefaultHop(p, multi, UpLinks(p), track, g, h);
      LookupLink(p, multi, v);
      RunGoesOn(d, run, i + 2);
    }
  }

  /** TE_VRF_111 hands on the packet, to a default prefix or to REPAIR_VRF. */
  lemma From111(p: ScaleParams, multi: bool, track: bool, pkt: Packet, s': State)
    requires Programmed(p, multi) && TransitPacket(p, pkt)
    requires Step(Rerouting(p, multi, track), Routing(TransitVrf111, pkt.dst, pkt), s')
    ensures || s' == Dropped
            || (s'.Routing? && s'.vrf == DefaultVrf && s'.pkt == pkt)
            || s' == Routing(RepairVrf, pkt.dst, pkt)
  {
    hide ProgrammedTable, Completes, NhPlan, NhgPlan, GroupHops, BackupHops, SwitchOf, UpLinks, Half, Lookup,
         GroupStep;
    var d := Rerouting(p, multi, track);
    SwitchTable(p, multi, UpLinks(p), track);
    Lookup111(p, multi, pkt.dst);
    var i := (pkt.dst.n - TRANSIT_111_START) % Half(p.numTransitNHG);
    Group111(p, multi, UpLinks(p), track, i);
    StaticHops(p, multi, UpLinks(p), track);
    if s' != Dropped {
      var h := ChosenHop(d, NHG_BASE_TRANSIT + i, pkt, DefaultVrf, s');
      if h in GroupHops(d, NHG_BASE_TRANSIT + i) {
        var x := Hop111(p, multi, UpLinks(p), track, i, h);
      }
    }
  }

  /** REPAIR_VRF sends the inner packet on, in a tunnel to TE_VRF_222 or bare. */
  lemma FromRepair(p: ScaleParams, multi: bool, track: bool, pkt: Packet, s': State)
    requires Programmed(p, multi) && TransitPacket(p, pkt)
    requires Step(Rerouting(p, multi, track), Routing(RepairVrf, pkt.dst, pkt), s')
    ensures || s' == Dropped
            || (s'.Routing? && s'.vrf == DefaultVrf && s'.pkt == pkt.payload.packet)
            || (s'.Routing? && s'.vrf == TransitVrf222
                && s'.pkt == Encapsulated(pkt.payload.packet, V4(OUTER_SRC_222), s'.key))
  {
    hide ProgrammedTable, Completes, NhPlan, NhgPlan, GroupHops, BackupHops, SwitchOf, UpLinks, Lookup, GroupStep,
         FirstTunnel;
    var d := Rerouting(p, multi, track);
    SwitchTable(p, multi, UpLinks(p), track);
    LookupRepair(p, multi, pkt.dst);
    StaticHops(p, multi, UpLinks(p), track);
    if s' != Dropped {
      var g := Lookup(d.table, RepairVrf, pkt.dst).value;
      var h := ChosenHop(d, g, pkt, DefaultVrf, s');
      GroupRepair(p, multi, UpLinks(p), track, g - NHG_BASE_REPAIR);
      if h in GroupHops(d, g) {
        var k := HopRepair(p, multi, UpLinks(p), track, g - NHG_BASE_REPAIR, h);
      }
    }
  }

  /** TE_VRF_222 sends a tunnel packet to a backup prefix, or strips its header. */
  lemma From222(p: ScaleParams, multi: bool, track: bool, a: Addr, q: Packet, s': State)
    requires Programmed(p, multi) && q.payload.Inner?
    requires Step(Rerouting(p, multi, track), Routing(TransitVrf222, a, q), s')
    ensures s' != Dropped ==> InTransit222(p, a)
    ensures || s' == Dropped
            || (s'.Routing? && s'.vrf == DefaultVrf && s'.pkt == q.payload.packet)
            || (s'.Routing? && s' == Routing(DefaultVrf, s'.key, q) && BackupPrefix(p, s'.key))
  {
    hide ProgrammedTable, Completes, NhPlan, NhgPlan, GroupHops, BackupHops, SwitchOf, UpLinks, Half, Lookup,
         GroupStep, BackupStart, PrimaryPrefixes, BackupPrefixes;
    var d := Rerouting(p, multi, track);
    SwitchTable(p, multi, UpLinks(p), track);
    Lookup222(p, multi, a);
    StaticHops(p, multi, UpLinks(p), track);
    if s' != Dropped {
      var i := (a.n - TRANSIT_222_START) % Backup(p).nhgCount;
      var g := Backup(p).baseNHG + i;
      var h := ChosenHop(d, g, q, DefaultVrf, s');
      Group222(p, multi, UpLinks(p), track, i);
      if h in GroupHops(d, g) {
        var x := Hop222(p, multi, UpLinks(p), track, i, h);
      }
    }
  }

  /** A packet that gets out from a backup prefix does so on a link that is up. */
  lemma FromBackupPrefix(p: ScaleParams, multi: bool, track: bool, run: seq<State>, i: nat)
    requires Programmed(p, multi) && IsCompleteRun(Rerouting(p, multi, track), run) && run[|run| - 1].Out?
    requires i < |run| && run[i].Routing? && run[i].vrf == DefaultVrf && BackupPrefix(p, run[i].key)
    ensures |run| == i + 3 && run[i + 2].Out? && run[i + 2].vlan in UpLinks(p)
    ensures run[i + 1] == Routing(DefaultVrf, AteIp(run[i + 2].vlan), run[i].pkt)
  {
    hide ProgrammedTable, Completes, NhPlan, NhgPlan, GroupHops, BackupHops, GroupStep, Half, Lookup, BackupStart,
         SwitchOf, UpLinks, VlanOf, IsCompleteRun;
    var d := Rerouting(p, multi, track);
    SwitchTable(p, multi, UpLinks(p), track);
    DefaultPrefixesNotLinks(p, multi, run[i].key.n - BackupStart(p));
    LookupDefault(p, multi, run[i].key);
    RunGoesOn(d, run, i);
    RunGoesOn(d, run, i + 1);
    var g := Lookup(d.table, DefaultVrf, run[i].key).value;
    var h := ChosenHop(d, g, run[i].pkt, DefaultVrf, run[i + 1]);
    var v := DefaultHop(p, multi, UpLinks(p), track, g, h);
    VlanOfLink(p.numPort2VLANs, v);
    LookupLink(p, multi, v);
    RunGoesOn(d, run, i + 2);
  }

  /**
   * The outer source tells: a transit packet that leaves under .222 took the repair path,
   * whatever the scale parameters.
   */
  lemma SourceProvesRepair(p: ScaleParams, multi: bool, track: bool, pkt: Packet, run: seq<State>)
    requires Programmed(p, multi) && TransitPacket(p, pkt)
    requires pkt.src != V4(OUTER_SRC_222) && pkt.payload.packet.src != V4(OUTER_SRC_222)
    requires IsCompleteRun(Rerouting(p, multi, track), run) && run[0] == Routing(TransitVrf111, pkt.dst, pkt)
    requires run[|run| - 1].Out? && run[|run| - 1].pkt.src == V4(OUTER_SRC_222)
    ensures RepairedRun(p, pkt, run)
  {
    hide ProgrammedTable, Completes, NhPlan, NhgPlan, SwitchOf, UpLinks, Step, BackupStart, Half, BackupPrefix,
         InTransit222;
    var d := Rerouting(p, multi, track);
    RunGoesOn(d, run, 0);
    From111(p, multi, track, pkt, run[1]);
    RunGoesOn(d, run, 1);
    if run[1].vrf == DefaultVrf {
      DefaultKeepsPacket(p, multi, track, run, 1);
      assert false;
    }
    FromRepair(p, multi, track, pkt, run[2]);
    RunGoesOn(d, run, 2);
    if run[2].vrf == DefaultVrf {
      DefaultKeepsPacket(p, multi, track, run, 2);
      assert false;
    }
    var q := run[2].pkt;
    From222(p, multi, track, run[2].key, q, run[3]);
    RunGoesOn(d, run, 3);
    DefaultKeepsPacket(p, multi, track, run, 3);
    FromBackupPrefix(p, multi, track, run, 3);
  }

  // The flows under the shutdown.

  /** A repaired packet is what the repair test expects of a transit flow. */
  lemma RepairedAsExpected(p: ScaleParams, compact: bool, k: nat, pkt: Packet, run: seq<State>)
    requires FlowCounts(p) && pkt.payload.Inner? && RepairedRun(p, pkt, run)
    requires pkt.payload.packet.dscp in FlowDscps(p, Transit, compact, k)
    ensures AsExpected(ExpectationOf(p, compact, true, FlowId(Transit, k)), run[|run| - 1])
  {
    hide FlowDscps, UpLinks, BackupPrefix, InTransit222;
  }

  /** A packet that is not repaired is not as expected. */
  lemma UnrepairedFails(p: ScaleParams, multi: bool, track: bool, compact: bool, pkt: Packet, run: seq<State>)
    requires Programmed(p, multi) && FlowCounts(p) && TransitPacket(p, pkt)
    requires pkt.src != V4(OUTER_SRC_222) && pkt.payload.packet.src != V4(OUTER_SRC_222)
    requires IsCompleteRun(Rerouting(p, multi, track), run) && run[0] == Routing(TransitVrf111, pkt.dst, pkt)
    requires !RepairedRun(p, pkt, run)
    ensures !EndsAsExpected(Rerouting(p, multi, track), ExpectationOf(p, compact, true, FlowId(Transit, 0)), run[0])
  {
    hide Programmed, SwitchOf, FlowDscps, Step, RepairedRun, UpLinks;
    if AsExpected(ExpectationOf(p, compact, true, FlowId(Transit, 0)), run[|run| - 1]) {
      SourceProvesRepair(p, multi, track, pkt, run);
    }
  }

  lemma RepairTestFails(p: ScaleParams, multi: bool, track: bool, compact: bool)
    requires Programmed(p, multi) && FlowCounts(p) && TransitBelowDecap(p)
    requires p.numRepairNHG > 0 && p.numTransitIPv4 > 0 && !FrrCondition(p, multi, track)
    ensures !AllAsExpected(p, multi, track, compact, true)
  {
    hide Programmed, SwitchOf, FlowAt, Carries, Ingress, RunIds, FlowDscps, FrrCondition, TransitBelowDecap,
         FlowCount, Step, ExpectationOf, EndsAsExpected, RepairedRun, UpLinks, AllAsExpected;
    var inner := Packet(ATE_PORT1, TRANSIT_INNER_DST, 10, Plain(17));
    var j, pkt, run := RerouteFails(p, multi, track, 10, inner);
    UnrepairedFails(p, multi, track, compact, pkt, run);
    var same := FirstTransit(p, compact, Transit, j);
    assert same == pkt;
    TransitHeaders(p, compact, Transit, 0, pkt);
    RunIdsHas(p, compact, true, Transit);
    TunnelFallsBack(p, multi, UpLinks(p), track, p.numEncapVRFs, pkt);
    FlowFails(p, multi, track, compact, true, FlowId(Transit, 0), pkt, run[0]);
  }

  /** Every packet of every transit flow takes the repaired path, on every run under the shutdown. */
  ghost predicate AllRepaired(p: ScaleParams, multi: bool, track: bool, compact: bool)
    requires Programmed(p, multi) && FlowCounts(p)
  {
    var d := Rerouting(p, multi, track);
    forall id, pkt, s', run ::
      && id in RunIds(p, compact, true)
      && Carries(FlowAt(p, id.sc, compact, id.k).headers, pkt)
      && Ingress(d, p.numEncapVRFs, pkt, s')
      && IsCompleteRun(d, run) && run[0] == s'
      ==> pkt.payload.Inner? && RepairedRun(p, pkt, run)
  }

  lemma RepairedFlow(p: ScaleParams, multi: bool, track: bool, compact: bool, id: FlowId, pkt: Packet, run: seq<State>)
    requires Programmed(p, multi) && FlowCounts(p) && TransitBelowDecap(p)
    requires p.numRepairNHG > 0 && p.numTransitIPv4 > 0 && FrrCondition(p, multi, track)
    requires id in RunIds(p, compact, true) && Carries(FlowAt(p, id.sc, compact, id.k).headers, pkt)
    requires IsCompleteRun(Rerouting(p, multi, track), run)
    requires Ingress(Rerouting(p, multi, track), p.numEncapVRFs, pkt, run[0])
    ensures pkt.payload.Inner? && RepairedRun(p, pkt, run)
    ensures pkt.payload.packet.dscp in FlowDscps(p, Transit, compact, id.k) && id.sc == Transit
  {
    hide Programmed, SwitchOf, FlowAt, Carries, Ingress, RunIds, FlowDscps, FrrCondition, TransitBelowDecap,
         FlowCount, Step, RepairedRun, UpLinks;
    RunIdsBounded(p, compact, true, id);
    TransitHeaders(p, compact, Transit, id.k, pkt);
    TunnelMiss(p, multi, UpLinks(p), track, p.numEncapVRFs, pkt, run[0]);
    RerouteHolds(p, multi, track, pkt, run);
  }

  lemma AllRepairedHolds(p: ScaleParams, multi: bool, track: bool, compact: bool)
    requires Programmed(p, multi) && FlowCounts(p) && TransitBelowDecap(p)
    requires p.numRepairNHG > 0 && p.numTransitIPv4 > 0 && FrrCondition(p, multi, track)
    ensures AllRepaired(p, multi, track, compact)
  {
    hide Programmed, SwitchOf, FlowAt, Carries, Ingress, RunIds, FrrCondition, TransitBelowDecap, Step, RepairedRun,
         UpLinks;
    var d := Rerouting(p, multi, track);
    forall id, pkt, s', run | id in RunIds(p, compact, true) && Carries(FlowAt(p, id.sc, compact, id.k).headers, pkt)
                              && Ingress(d, p.numEncapVRFs, pkt, s') && IsCompleteRun(d, run) && run[0] == s'
      ensures pkt.payload.Inner? && RepairedRun(p, pkt, run)
    {
      RepairedFlow(p, multi, track, compact, id, pkt, run);
    }
  }

  /** Repaired packets are what the repair test expects. */
  lemma RepairedImpliesExpected(p: ScaleParams, multi: bool, track: bool, compact: bool)
    requires Programmed(p, multi) && FlowCounts(p) && AllRepaired(p, multi, track, compact)
    ensures AllAsExpected(p, multi, track, compact, true)
  {
    hide Programmed, SwitchOf, FlowAt, Carries, Ingress, RunIds, Step, RepairedRun, UpLinks, ExpectationOf, AsExpected,
         FlowDscps;
    var d := Rerouting(p, multi, track);
    forall id, pkt, s' | id in RunIds(p, compact, true) && Carries(FlowAt(p, id.sc, compact, id.k).headers, pkt)
                         && Ingress(d, p.numEncapVRFs, pkt, s')
      ensures EndsAsExpected(d, ExpectationOf(p, compact, true, id), s')
    {
      RunIdsBounded(p, compact, true, id);
      TransitHeaders(p, compact, Transit, id.k, pkt);
      forall run | IsCompleteRun(d, run) && run[0] == s'
        ensures AsExpected(ExpectationOf(p, compact, true, id), run[|run| - 1])
      {
        RepairedAsExpected(p, compact, id.k, pkt, run);
      }
    }
  }

  /**
   * Under the shutdown every packet of every transit flow takes the repaired path, and leaves
   * as the expectation recorded for its flow says, on every run, exactly when fast reroute
   * holds: the expected outer source neither misses a packet that was not repaired nor rejects
   * one that was.
   */
  lemma RepairTestIff(p: ScaleParams, multi: bool, track: bool, compact: bool)
    requires Programmed(p, multi) && TransitBelowDecap(p)
    ensures FlowCounts(p) && p.numRepairNHG > 0 && p.numTransitIPv4 > 0
    ensures AllRepaired(p, multi, track, compact) <==> FrrCondition(p, multi, track)
    ensures AllAsExpected(p, multi, track, compact, true) <==> FrrCondition(p, multi, track)
  {
    hide Programmed, AllAsExpected, AllRepaired, FrrCondition, TransitBelowDecap;
    CountsHold(p, multi);
    CountsPositive(p, multi);
    if AllRepaired(p, multi, track, compact) {
      RepairedImpliesExpected(p, multi, track, compact);
    }
    if FrrCondition(p, multi, track) {
      AllRepairedHolds(p, multi, track, compact);
    } else {
      RepairTestFails(p, multi, track, compact);
    }
  }
}
