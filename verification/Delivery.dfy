/**
 * Delivery with all links up: the table path that every run of every packet takes from each
 * VRF to a VLAN.
 */
module Delivery {
  import opened IpUtil
  import opened Rib
  import opened Params
  import opened DefaultVrfBuilder
  import opened TransitBuilder
  import opened EncapDecapBuilder
  import opened FullRun
  import opened Ids
  import opened Forwarding
  import opened ProgrammedTables
  import opened ProgrammedRoutes
  import opened Termination
  import opened Liveness
  import opened FastReroute

  // The paths.

  predicate InTransit111(p: ScaleParams, a: Addr) {
    a.V4? && TRANSIT_111_START <= a.n < TRANSIT_111_START + p.numTransitIPv4
  }

  predicate PrimaryPrefix(p: ScaleParams, a: Addr) {
    a.V4? && DEFAULT_PREFIX_START <= a.n < DEFAULT_PREFIX_START + Ipv4Part(p)
  }

  /** A link address, and out on its VLAN. */
  ghost predicate LinkRun(p: ScaleParams, q: Packet, run: seq<State>) {
    && |run| == 2
    && run[1].Out? && run[1].vlan < p.numPort2VLANs && run[1].pkt == q
    && run[0] == Routing(DefaultVrf, AteIp(run[1].vlan), q)
  }

  /** A default prefix of one half, then a link; the halves keep to their own VLANs when there are two of each. */
  ghost predicate PrefixRun(p: ScaleParams, backup: bool, q: Packet, run: seq<State>) {
    && |run| == 3
    && run[0].Routing? && run[0].vrf == DefaultVrf && run[0].pkt == q
    && (if backup then BackupPrefix(p, run[0].key) else PrimaryPrefix(p, run[0].key))
    && LinkRun(p, q, run[1..])
    && (backup && p.numPort2VLANs >= 2 ==> run[2].vlan >= PrimaryVlans(p))
    && (!backup && p.numDefaultIPv4 >= 2 ==> run[2].vlan < PrimaryVlans(p))
  }

  /** A prefix of TE_VRF_111 and a primary default prefix, or of TE_VRF_222 and a backup one. */
  ghost predicate TransitRun(p: ScaleParams, backup: bool, q: Packet, run: seq<State>) {
    && |run| == 4
    && run[0].Routing? && run[0].pkt == q
    && (if backup then run[0].vrf == TransitVrf222 && InTransit222(p, run[0].key)
        else run[0].vrf == TransitVrf111 && InTransit111(p, run[0].key))
    && PrefixRun(p, backup, q, run[1..])
  }

  /** An encap VRF, a tunnel from .111, and on through TE_VRF_111. */
  ghost predicate EncapRun(p: ScaleParams, vi: nat, q: Packet, run: seq<State>) {
    && |run| == 5
    && run[0] == Routing(EncapVrf(vi), q.dst, q)
    && run[1].Routing? && run[1].pkt == Encapsulated(q, V4(OUTER_SRC_111), run[1].key)
    && TransitRun(p, false, run[1].pkt, run[1..])
  }

  /** An encap VRF, its fallback to the default VRF, and out on the VLAN of the packet's own address. */
  ghost predicate LocalRun(p: ScaleParams, vi: nat, q: Packet, run: seq<State>) {
    && |run| == 3
    && run[0] == Routing(EncapVrf(vi), q.dst, q)
    && run[1].Routing? && run[1].key == q.dst
    && LinkRun(p, q, run[1..])
  }

  ghost function FullSwitch(p: ScaleParams, multi: bool, track: bool): Switch
    requires Programmed(p, multi)
  {
    SwitchOf(p, multi, AllLinks(p), track)
  }

  lemma AllLinksUp(p: ScaleParams)
    ensures forall v :: 0 <= v < PrimaryVlans(p) && p.numPort2VLANs > 0 ==> v in AllLinks(p)
    ensures forall v :: 0 <= v < p.numPort2VLANs ==> v in AllLinks(p)
  {
  }

  // The default VRF.

  lemma LinkRuns(p: ScaleParams, multi: bool, track: bool, v: nat, q: Packet, run: seq<State>)
    requires Programmed(p, multi) && v < p.numPort2VLANs
    requires IsCompleteRun(FullSwitch(p, multi, track), run) && run[0] == Routing(DefaultVrf, AteIp(v), q)
    ensures LinkRun(p, q, run) && run[1] == Out(v, q)
  {
    hide ProgrammedTable, Completes, NhPlan, NhgPlan, SwitchOf, Lookup, GroupStep, VlanOf, AllLinks;
    var d := FullSwitch(p, multi, track);
    SwitchTable(p, multi, AllLinks(p), track);
    VlanOfLink(p.numPort2VLANs, v);
    AllLinksUp(p);
    RunGoesOn(d, run, 0);
    RunGoesOn(d, run, 1);
  }

  predicate DefaultPrefix(p: ScaleParams, a: Addr) {
    PrimaryPrefix(p, a) || BackupPrefix(p, a)
  }

  /** A default prefix finds a default group of its half with a live hop. */
  lemma PrefixGroup(p: ScaleParams, multi: bool, track: bool, a: Addr) returns (i: nat, g: nat)
    requires Programmed(p, multi) && DefaultPrefix(p, a)
    ensures p.numPort2VLANs > 0 && VlanOf(p.numPort2VLANs, a) == None
    ensures Lookup(ProgrammedTable(p, multi), DefaultVrf, a) == Some(g)
    ensures i < NhgPart(p) && g == NHG_BASE_DEFAULT + i + if BackupPrefix(p, a) then NhgPart(p) else 0
    ensures HasLive(FullSwitch(p, multi, track), GroupHops(FullSwitch(p, multi, track), g))
    ensures p.numDefaultIPv4 >= 2 && PrimaryPrefix(p, a) ==> !BackupPrefix(p, a)
  {
    hide ProgrammedTable, Completes, NhPlan, NhgPlan, SwitchOf, Lookup, VlanOf, AllLinks, HasLive, GroupHops, Half,
         BackupStart, PrimaryVlans;
    ValidOf(p, multi);
    AllLinksUp(p);
    LookupDefault(p, multi, a);
    if PrimaryPrefix(p, a) {
      DefaultPrefixesNotLinks(p, multi, a.n - DEFAULT_PREFIX_START);
    }
    if BackupPrefix(p, a) {
      var x := a.n - BackupStart(p);
      DefaultPrefixesNotLinks(p, multi, x);
      i := x % NhgPart(p);
      BackupGroupAlive(p, multi, AllLinks(p), track, i);
      g := NHG_BASE_DEFAULT + NhgPart(p) + i;
    } else {
      i := (a.n - DEFAULT_PREFIX_START) % NhgPart(p);
      PrimaryGroupAlive(p, multi, AllLinks(p), track, i);
      g := NHG_BASE_DEFAULT + i;
    }
  }

  lemma PrefixRoutable(p: ScaleParams, multi: bool, track: bool, a: Addr)
    requires Programmed(p, multi) && DefaultPrefix(p, a)
    ensures Routable(FullSwitch(p, multi, track), DefaultVrf, a)
  {
    hide ProgrammedTable, Completes, NhPlan, NhgPlan, SwitchOf, Lookup, VlanOf, AllLinks, HasLive, GroupHops,
         BackupHops, DefaultPrefix, Routable;
    var d := FullSwitch(p, multi, track);
    SwitchTable(p, multi, AllLinks(p), track);
    var i, g := PrefixGroup(p, multi, track, a);
    RoutableByGroup(d, DefaultVrf, a, g);
  }

  /** The VLAN a hop of a default group leaves on. */
  lemma PrefixVlan(p: ScaleParams, multi: bool, track: bool, backup: bool, i: nat, h: Hop) returns (v: nat)
    requires Programmed(p, multi) && i < NhgPart(p)
    requires h in GroupHops(FullSwitch(p, multi, track), NHG_BASE_DEFAULT + i + if backup then NhgPart(p) else 0)
    ensures var t := ProgrammedTable(p, multi); h.nh in t.nhs && t.nhs[h.nh] == ToAddress(AteIp(v))
    ensures v < p.numPort2VLANs
    ensures if backup then p.numPort2VLANs >= 2 ==> v >= PrimaryVlans(p) else v < PrimaryVlans(p)
  {
    hide ProgrammedTable, Completes, NhPlan, NhgPlan, GroupHops, Half, PrimaryVlans, SwitchOf, AllLinks;
    if backup {
      v := BackupHop(p, multi, AllLinks(p), track, i, h);
    } else {
      v := PrimaryHop(p, multi, AllLinks(p), track, i, h);
    }
  }

  lemma PrefixRuns(p: ScaleParams, multi: bool, track: bool, backup: bool, q: Packet, run: seq<State>)
    requires Programmed(p, multi) && IsCompleteRun(FullSwitch(p, multi, track), run)
    requires run[0].Routing? && run[0].vrf == DefaultVrf && run[0].pkt == q
    requires if backup then BackupPrefix(p, run[0].key) else PrimaryPrefix(p, run[0].key)
    ensures PrefixRun(p, backup, q, run)
  {
    hide ProgrammedTable, Completes, NhPlan, NhgPlan, SwitchOf, Lookup, VlanOf, AllLinks, HasLive, GroupHops,
         BackupHops, GroupStep, Live, BackupPrefix, PrimaryPrefix, PrimaryVlans, AteIp, Half;
    var d := FullSwitch(p, multi, track);
    SwitchTable(p, multi, AllLinks(p), track);
    var a := run[0].key;
    var i, g := PrefixGroup(p, multi, track, a);
    RunGoesOn(d, run, 0);
    RunTail(d, run);
    var h := StepByPrimary(d, g, q, DefaultVrf, run[1]);
    var v := PrefixVlan(p, multi, track, BackupPrefix(p, a), i, h);
    LinkRuns(p, multi, track, v, q, run[1..]);
  }

  // The transit VRFs.

  lemma PrefixesAre(p: ScaleParams, x: nat)
    requires x < Ipv4Part(p)
    ensures PrimaryPrefix(p, V4(DEFAULT_PREFIX_START + x)) && BackupPrefix(p, V4(BackupStart(p) + x))
    ensures DefaultPrefix(p, V4(DEFAULT_PREFIX_START + x)) && DefaultPrefix(p, V4(BackupStart(p) + x))
  {
  }

  lemma Live111(p: ScaleParams, multi: bool, track: bool, i: nat)
    requires Programmed(p, multi) && i < Half(p.numTransitNHG)
    ensures HasLive(FullSwitch(p, multi, track), GroupHops(FullSwitch(p, multi, track), NHG_BASE_TRANSIT + i))
  {
    hide ProgrammedTable, Completes, NhPlan, NhgPlan, SwitchOf, AllLinks, HasLive, GroupHops, BackupHops, Half,
         DefaultPrefix, Routable;
    var d := FullSwitch(p, multi, track);
    SwitchTable(p, multi, AllLinks(p), track);
    Group111(p, multi, AllLinks(p), track, i);
    var hops := GroupHops(d, NHG_BASE_TRANSIT + i);
    var h := hops[|hops| - 1];
    var x := Hop111(p, multi, AllLinks(p), track, i, h);
    PrefixesAre(p, x);
    PrefixRoutable(p, multi, track, V4(DEFAULT_PREFIX_START + x));
    assert Live(d, h);
    SomeLive(d, hops, h);
  }

  lemma Live222(p: ScaleParams, multi: bool, track: bool, i: nat)
    requires Programmed(p, multi) && Built(Backup(p)) && i < Backup(p).nhgCount
    ensures HasLive(FullSwitch(p, multi, track), GroupHops(FullSwitch(p, multi, track), Backup(p).baseNHG + i))
  {
    hide ProgrammedTable, Completes, NhPlan, NhgPlan, SwitchOf, AllLinks, HasLive, GroupHops, BackupHops, Half,
         DefaultPrefix, Routable, BackupStart, PrimaryPrefixes, BackupPrefixes;
    var d := FullSwitch(p, multi, track);
    SwitchTable(p, multi, AllLinks(p), track);
    Group222(p, multi, AllLinks(p), track, i);
    var hops := GroupHops(d, Backup(p).baseNHG + i);
    var h := hops[|hops| - 1];
    var x := Hop222(p, multi, AllLinks(p), track, i, h);
    PrefixesAre(p, x);
    PrefixRoutable(p, multi, track, V4(BackupStart(p) + x));
    assert Live(d, h);
    SomeLive(d, hops, h);
  }

  lemma TransitRoutable(p: ScaleParams, multi: bool, track: bool, a: Addr)
    requires Programmed(p, multi) && InTransit111(p, a)
    ensures Routable(FullSwitch(p, multi, track), TransitVrf111, a)
  {
    hide ProgrammedTable, Completes, NhPlan, NhgPlan, SwitchOf, Lookup, AllLinks, HasLive, GroupHops, BackupHops,
         Half, Routable;
    var d := FullSwitch(p, multi, track);
    SwitchTable(p, multi, AllLinks(p), track);
    Lookup111(p, multi, a);
    var i := (a.n - TRANSIT_111_START) % Half(p.numTransitNHG);
    Live111(p, multi, track, i);
    RoutableByGroup(d, TransitVrf111, a, NHG_BASE_TRANSIT + i);
  }

  /** TE_VRF_111 takes every packet for one of its prefixes to a primary default prefix, a link and out. */
  lemma TransitRuns(p: ScaleParams, multi: bool, track: bool, a: Addr, q: Packet, run: seq<State>)
    requires Programmed(p, multi) && InTransit111(p, a)
    requires IsCompleteRun(FullSwitch(p, multi, track), run) && run[0] == Routing(TransitVrf111, a, q)
    ensures TransitRun(p, false, q, run)
  {
    hide ProgrammedTable, Completes, NhPlan, NhgPlan, SwitchOf, Lookup, AllLinks, HasLive, GroupHops, BackupHops,
         Half, GroupStep, Live, PrimaryPrefix, PrefixRun;
    var d := FullSwitch(p, multi, track);
    SwitchTable(p, multi, AllLinks(p), track);
    Lookup111(p, multi, a);
    var i := (a.n - TRANSIT_111_START) % Half(p.numTransitNHG);
    Live111(p, multi, track, i);
    RunGoesOn(d, run, 0);
    RunTail(d, run);
    var h := StepByPrimary(d, NHG_BASE_TRANSIT + i, q, DefaultVrf, run[1]);
    var x := Hop111(p, multi, AllLinks(p), track, i, h);
    PrefixesAre(p, x);
    PrefixRuns(p, multi, track, false, q, run[1..]);
    PrefixRunLength(p, false, q, run[1..]);
  }

  lemma PrefixRunLength(p: ScaleParams, backup: bool, q: Packet, run: seq<State>)
    requires PrefixRun(p, backup, q, run)
    ensures |run| == 3
  {
  }

  /** TE_VRF_222, once it is built, takes them to a backup default prefix, a link and out. */
  lemma RepairedRuns(p: ScaleParams, multi: bool, track: bool, a: Addr, q: Packet, run: seq<State>)
    requires Programmed(p, multi) && Built(Backup(p)) && InTransit222(p, a)
    requires IsCompleteRun(FullSwitch(p, multi, track), run) && run[0] == Routing(TransitVrf222, a, q)
    ensures TransitRun(p, true, q, run)
  {
    hide ProgrammedTable, Completes, NhPlan, NhgPlan, SwitchOf, Lookup, AllLinks, HasLive, GroupHops, BackupHops,
         Half, GroupStep, Live, BackupPrefix, PrefixRun, BackupStart, PrimaryPrefixes, BackupPrefixes;
    var d := FullSwitch(p, multi, track);
    SwitchTable(p, multi, AllLinks(p), track);
    Lookup222(p, multi, a);
    var i := (a.n - TRANSIT_222_START) % Backup(p).nhgCount;
    Live222(p, multi, track, i);
    RunGoesOn(d, run, 0);
    RunTail(d, run);
    var h := StepByPrimary(d, Backup(p).baseNHG + i, q, DefaultVrf, run[1]);
    var x := Hop222(p, multi, AllLinks(p), track, i, h);
    PrefixesAre(p, x);
    PrefixRuns(p, multi, track, true, q, run[1..]);
    PrefixRunLength(p, true, q, run[1..]);
  }

  // The encap VRFs.

  /** The customer addresses of VRF vi. */
  predicate Customer(p: ScaleParams, vi: nat, a: Addr) {
    match a
    case V4(n) => Encap4Start(vi) <= n < Encap4Start(vi) + p.numEncapIPv4PerVRF
    case V6(n) => Encap6Start(vi) <= n < Encap6Start(vi) + p.numEncapIPv6PerVRF
  }

  lemma CustomerRoute(p: ScaleParams, vi: nat, a: Addr)
    requires 0 < p.numEncapVRFs <= p.numEncapDefaultNHG && vi < p.numEncapVRFs
    ensures Customer(p, vi, a) ==>
              EncapRouteOf(p, vi, HostPrefix(a)).Some?
              && FIRST_ENCAP_NHG <= EncapRouteOf(p, vi, HostPrefix(a)).value < FIRST_ENCAP_NHG + p.numEncapDefaultNHG
    ensures !Customer(p, vi, a) ==> EncapRouteOf(p, vi, HostPrefix(a)) == None
  {
    hide SliceStart, SliceCount, Encap4Start, Encap6Start;
    SlicesTile(p, vi);
  }

  lemma CustomerFits(p: ScaleParams, multi: bool, vi: nat, a: Addr)
    requires Programmed(p, multi) && vi < p.numEncapVRFs && Customer(p, vi, a)
    ensures a.n < if a.V4? then TWO_32 else TWO_128
  {
    hide ValidParams, CountsSafe, NhPlan, NhgPlan;
  }

  /** An encap group's hops are tunnels to TE_VRF_111 prefixes. */
  lemma EncapTunnel(p: ScaleParams, multi: bool, track: bool, g: nat, h: Hop) returns (dst: Addr)
    requires Programmed(p, multi) && FIRST_ENCAP_NHG <= g < FIRST_ENCAP_NHG + p.numEncapDefaultNHG
    requires h in GroupHops(FullSwitch(p, multi, track), g)
    ensures var t := ProgrammedTable(p, multi);
            h.nh in t.nhs && t.nhs[h.nh] == Encap(V4(OUTER_SRC_111), dst, TransitVrf111)
    ensures InTransit111(p, dst)
    ensures h.weight > 0 ==> Live(FullSwitch(p, multi, track), h)
  {
    hide ProgrammedTable, TableNh, TableNhg, Completes, NhPlan, NhgPlan, EncapGroups, SwitchOf, Routable,
         AllLinks;
    var d := FullSwitch(p, multi, track);
    SwitchTable(p, multi, AllLinks(p), track);
    CountsPositive(p, multi);
    EncapGroupIs(p, multi);
    EncapNhIs(p, multi);
    TableHas(p, multi, g);
    ValidOf(p, multi);
    EncapGroupShape(p, g - FIRST_ENCAP_NHG);
    TableHas(p, multi, h.nh);
    var k := h.nh - FIRST_ENCAP_NH;
    assert TableNh(p, multi, h.nh) == Some(EncapNextHops(p)[k]);
    dst := EncapNextHops(p)[k].dst;
    TransitRoutable(p, multi, track, dst);
  }

  lemma EncapGroupLive(p: ScaleParams, multi: bool, track: bool, g: nat)
    requires Programmed(p, multi) && FIRST_ENCAP_NHG <= g < FIRST_ENCAP_NHG + p.numEncapDefaultNHG
    requires p.numUniqueEncapNH > 0
    ensures HasLive(FullSwitch(p, multi, track), GroupHops(FullSwitch(p, multi, track), g))
  {
    hide ProgrammedTable, TableNhg, Completes, NhPlan, NhgPlan, EncapGroups, SwitchOf, HasLive, Live, AllLinks;
    var d := FullSwitch(p, multi, track);
    SwitchTable(p, multi, AllLinks(p), track);
    EncapGroupIs(p, multi);
    TableHas(p, multi, g);
    ValidOf(p, multi);
    EncapGroupShape(p, g - FIRST_ENCAP_NHG);
    var hops := GroupHops(d, g);
    var dst := EncapTunnel(p, multi, track, g, hops[|hops| - 1]);
    SomeLive(d, hops, hops[|hops| - 1]);
  }

  /** An encap VRF takes every packet for a customer into a tunnel from .111 and through TE_VRF_111. */
  lemma EncapRuns(p: ScaleParams, multi: bool, track: bool, vi: nat, q: Packet, run: seq<State>)
    requires Programmed(p, multi) && vi < p.numEncapVRFs && Customer(p, vi, q.dst) && p.numUniqueEncapNH > 0
    requires IsCompleteRun(FullSwitch(p, multi, track), run) && run[0] == Routing(EncapVrf(vi), q.dst, q)
    ensures EncapRun(p, vi, q, run)
  {
    hide ProgrammedTable, Completes, NhPlan, NhgPlan, SwitchOf, Lookup, AllLinks, HasLive, GroupHops, BackupHops,
         GroupStep, Live, EncapRouteOf, Customer, PrefixRun;
    var d := FullSwitch(p, multi, track);
    var a := q.dst;
    SwitchTable(p, multi, AllLinks(p), track);
    CustomerFits(p, multi, vi, a);
    LookupEncap(p, multi, vi, a);
    CustomerRoute(p, vi, a);
    var g := EncapRouteOf(p, vi, HostPrefix(a)).value;
    EncapGroupLive(p, multi, track, g);
    RunGoesOn(d, run, 0);
    RunTail(d, run);
    var h := StepByPrimary(d, g, q, DefaultVrf, run[1]);
    var dst := EncapTunnel(p, multi, track, g, h);
    TransitRuns(p, multi, track, dst, run[1].pkt, run[1..]);
  }

  /** With no encap next-hops it drops them all. */
  lemma EncapDrops(p: ScaleParams, multi: bool, track: bool, vi: nat, a: Addr, pkt: Packet, s': State)
    requires Programmed(p, multi) && vi < p.numEncapVRFs && Customer(p, vi, a) && p.numUniqueEncapNH <= 0
    requires Step(FullSwitch(p, multi, track), Routing(EncapVrf(vi), a, pkt), s')
    ensures s' == Dropped
  {
    hide ProgrammedTable, TableNh, TableNhg, Completes, NhPlan, NhgPlan, SwitchOf, Lookup, AllLinks, EncapGroups,
         Live, EncapRouteOf, Customer;
    var d := FullSwitch(p, multi, track);
    SwitchTable(p, multi, AllLinks(p), track);
    CustomerFits(p, multi, vi, a);
    LookupEncap(p, multi, vi, a);
    CustomerRoute(p, vi, a);
    var g := EncapRouteOf(p, vi, HostPrefix(a)).value;
    EncapGroupIs(p, multi);
    TableHas(p, multi, g);
    ValidOf(p, multi);
    EncapGroupShape(p, g - FIRST_ENCAP_NHG);
  }

  /** A link address that is no customer falls through to the default VRF and leaves on its own VLAN. */
  lemma LocalRuns(p: ScaleParams, multi: bool, track: bool, vi: nat, v: nat, q: Packet, run: seq<State>)
    requires Programmed(p, multi) && vi < p.numEncapVRFs && v < p.numPort2VLANs && q.dst == AteIp(v)
    requires !Customer(p, vi, AteIp(v)) && AteIp(v).n < TWO_32
    requires IsCompleteRun(FullSwitch(p, multi, track), run) && run[0] == Routing(EncapVrf(vi), q.dst, q)
    ensures LocalRun(p, vi, q, run)
  {
    hide ProgrammedTable, TableNh, TableNhg, Completes, NhPlan, NhgPlan, SwitchOf, Lookup, AllLinks, GroupStep,
         EncapRouteOf, Customer, HasLive, BackupHops, Routable;
    var d := FullSwitch(p, multi, track);
    SwitchTable(p, multi, AllLinks(p), track);
    LookupEncap(p, multi, vi, AteIp(v));
    CustomerRoute(p, vi, AteIp(v));
    EncapGroupIs(p, multi);
    EncapNhIs(p, multi);
    TableHas(p, multi, FALLBACK_NHG);
    TableHas(p, multi, FALLBACK_NH);
    var hops := GroupHops(d, FALLBACK_NHG);
    assert hops == [Hop(FALLBACK_NH, 1)] && Live(d, hops[0]);
    SomeLive(d, hops, hops[0]);
    RunGoesOn(d, run, 0);
    RunTail(d, run);
    var h := StepByPrimary(d, FALLBACK_NHG, q, DefaultVrf, run[1]);
    LinkRuns(p, multi, track, v, q, run[1..]);
  }
}
