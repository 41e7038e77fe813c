/**
 * Every hop of the programmed tables leads down the hierarchy encap VRF, TE_VRF_111,
 * REPAIR_VRF, TE_VRF_222, default prefix, link.  So forwarding terminates, for every packet,
 * every starting point and every set of links that are up.
 */
module Termination {
  import opened GoInts
  import opened IpUtil
  import opened Rib
  import opened Params
  import opened DefaultVrfBuilder
  import opened StaticGroups
  import opened RepairBuilder
  import opened TransitBuilder
  import opened EncapDecapBuilder
  import opened FullRun
  import opened Ids
  import opened Forwarding
  import opened ProgrammedTables
  import opened ProgrammedRoutes

  // The hops of each kind of group.

  lemma TableHas(p: ScaleParams, multi: bool, id: nat)
    requires Programmed(p, multi)
    ensures TableNh(p, multi, id).Some? ==>
              id in ProgrammedTable(p, multi).nhs && ProgrammedTable(p, multi).nhs[id] == TableNh(p, multi, id).value
    ensures TableNhg(p, multi, id).Some? ==>
              id in ProgrammedTable(p, multi).nhgs && ProgrammedTable(p, multi).nhgs[id] == TableNhg(p, multi, id).value
  {
    hide ProgrammedTable, TableNh, TableNhg, Completes;
    NhIs(p, multi, id);
  }

  /** Default group i of the primary half: hops to primary VLANs only, and no backup. */
  lemma PrimaryHop(p: ScaleParams, multi: bool, up: set<nat>, track: bool, i: nat, h: Hop) returns (v: nat)
    requires Programmed(p, multi) && i < NhgPart(p)
    requires h in GroupHops(SwitchOf(p, multi, up, track), NHG_BASE_DEFAULT + i)
    ensures var t := ProgrammedTable(p, multi);
            h.nh in t.nhs && t.nhs[h.nh] == ToAddress(AteIp(v))
    ensures v < PrimaryVlans(p) <= p.numPort2VLANs
  {
    hide ProgrammedTable, TableNh, TableNhg, Completes, NhPlan, NhgPlan, PrimaryGroups, BackupGroups, Half,
         PrimaryVlans;
    var g := NHG_BASE_DEFAULT + i;
    DefaultGroupIs(p, multi, i);
    TableHas(p, multi, g);
    ValidOf(p, multi);
    DefaultGroupShape(p, i);
    var k := h.nh - NH_BASE_DEFAULT;
    DefaultNhIs(p, multi, k);
    TableHas(p, multi, h.nh);
    VlansInRange(p, k);
    v := PrimaryVlan(p, k);
  }

  lemma ValidOf(p: ScaleParams, multi: bool)
    requires Programmed(p, multi)
    ensures ValidParams(p) && p.numPort2VLANs > 0
  {
    hide CountsSafe, AddressesFit, NhPlan, NhgPlan, ValidLoadBalance, ValidWeight;
  }

  /** Default group i of the backup half: with two VLANs or more, hops to backup VLANs only. */
  lemma BackupHop(p: ScaleParams, multi: bool, up: set<nat>, track: bool, i: nat, h: Hop) returns (v: nat)
    requires Programmed(p, multi) && i < NhgPart(p)
    requires h in GroupHops(SwitchOf(p, multi, up, track), NHG_BASE_DEFAULT + NhgPart(p) + i)
    ensures var t := ProgrammedTable(p, multi);
            h.nh in t.nhs && t.nhs[h.nh] == ToAddress(AteIp(v))
    ensures v < p.numPort2VLANs
    ensures v < PrimaryVlans(p) <==> p.numPort2VLANs == 1
  {
    hide ProgrammedTable, TableNh, TableNhg, Completes, NhPlan, NhgPlan, PrimaryGroups, BackupGroups, Half,
         PrimaryVlans;
    var g := NHG_BASE_DEFAULT + NhgPart(p) + i;
    DefaultGroupIs(p, multi, i);
    TableHas(p, multi, g);
    ValidOf(p, multi);
    DefaultGroupShape(p, i);
    var k := h.nh - NH_BASE_DEFAULT - NhPart(p);
    DefaultNhIs(p, multi, k);
    TableHas(p, multi, h.nh);
    VlansInRange(p, k);
    v := BackupVlan(p, k);
  }

  lemma DefaultNoBackup(p: ScaleParams, multi: bool, up: set<nat>, track: bool, i: nat)
    requires Programmed(p, multi) && i < NhgPart(p)
    ensures BackupHops(SwitchOf(p, multi, up, track), NHG_BASE_DEFAULT + i) == []
    ensures BackupHops(SwitchOf(p, multi, up, track), NHG_BASE_DEFAULT + NhgPart(p) + i) == []
  {
    hide ProgrammedTable, TableNh, TableNhg, Completes, NhPlan, NhgPlan, PrimaryGroups, BackupGroups, Half;
    DefaultGroupIs(p, multi, i);
    TableHas(p, multi, NHG_BASE_DEFAULT + i);
    TableHas(p, multi, NHG_BASE_DEFAULT + NhgPart(p) + i);
    ValidOf(p, multi);
    DefaultGroupShape(p, i);
  }

  /** Any default group: hops to links, and no backup. */
  lemma DefaultHop(p: ScaleParams, multi: bool, up: set<nat>, track: bool, g: nat, h: Hop) returns (v: nat)
    requires Programmed(p, multi) && NHG_BASE_DEFAULT <= g < NHG_BASE_DEFAULT + 2 * NhgPart(p)
    requires var d := SwitchOf(p, multi, up, track); h in GroupHops(d, g) || h in BackupHops(d, g)
    ensures var t := ProgrammedTable(p, multi);
            h.nh in t.nhs && t.nhs[h.nh] == ToAddress(AteIp(v))
    ensures v < p.numPort2VLANs
  {
    hide ProgrammedTable, TableNh, TableNhg, Completes, NhPlan, NhgPlan, GroupHops, BackupHops, Half, PrimaryVlans;
    if g < NHG_BASE_DEFAULT + NhgPart(p) {
      DefaultNoBackup(p, multi, up, track, g - NHG_BASE_DEFAULT);
      v := PrimaryHop(p, multi, up, track, g - NHG_BASE_DEFAULT, h);
    } else {
      DefaultNoBackup(p, multi, up, track, g - NHG_BASE_DEFAULT - NhgPart(p));
      v := BackupHop(p, multi, up, track, g - NHG_BASE_DEFAULT - NhgPart(p), h);
    }
  }

  /** The hops of S1 and S2. */
  lemma StaticHops(p: ScaleParams, multi: bool, up: set<nat>, track: bool)
    requires Programmed(p, multi)
    ensures var d := SwitchOf(p, multi, up, track);
            && GroupHops(d, STATIC_S1_NHG) == [Hop(STATIC_S1_NHG, 1)]
            && GroupHops(d, STATIC_S2_NHG) == [Hop(STATIC_S2_NHG, 1)]
            && STATIC_S1_NHG in d.table.nhs && d.table.nhs[STATIC_S1_NHG] == S1_NEXT_HOP
            && STATIC_S2_NHG in d.table.nhs && d.table.nhs[STATIC_S2_NHG] == S2_NEXT_HOP
  {
    hide ProgrammedTable, TableNh, TableNhg, Completes, NhPlan, NhgPlan;
    StaticGroupIs(p, multi);
    StaticNhIs(p, multi);
    TableHas(p, multi, STATIC_S1_NHG);
    TableHas(p, multi, STATIC_S2_NHG);
  }

  /** TE_VRF_111 group i: hops to primary default prefixes, backup S1. */
  lemma Group111(p: ScaleParams, multi: bool, up: set<nat>, track: bool, i: nat)
    requires Programmed(p, multi) && i < Half(p.numTransitNHG)
    ensures var d := SwitchOf(p, multi, up, track);
            var hops := GroupHops(d, NHG_BASE_TRANSIT + i);
            && hops != [] && hops[|hops| - 1].weight > 0
            && BackupHops(d, NHG_BASE_TRANSIT + i) == [Hop(STATIC_S1_NHG, 1)]
  {
    hide ProgrammedTable, TableNh, TableNhg, Completes, NhPlan, NhgPlan, SideGroups, PrimaryPrefixes, BackupPrefixes;
    PrimarySideGroupIs(p, multi, i);
    TableHas(p, multi, NHG_BASE_TRANSIT + i);
    ValidOf(p, multi);
    SideGroupShape(p, Primary(p), i);
    StaticHops(p, multi, up, track);
  }

  lemma Hop111(p: ScaleParams, multi: bool, up: set<nat>, track: bool, i: nat, h: Hop) returns (x: nat)
    requires Programmed(p, multi) && i < Half(p.numTransitNHG)
    requires h in GroupHops(SwitchOf(p, multi, up, track), NHG_BASE_TRANSIT + i)
    ensures var t := ProgrammedTable(p, multi);
            h.nh in t.nhs && t.nhs[h.nh] == ToAddress(V4(DEFAULT_PREFIX_START + x))
    ensures x < Ipv4Part(p)
  {
    hide ProgrammedTable, TableNh, TableNhg, Completes, NhPlan, NhgPlan, SideGroups, PrimaryPrefixes, BackupPrefixes,
         Half;
    PrimarySideGroupIs(p, multi, i);
    TableHas(p, multi, NHG_BASE_TRANSIT + i);
    ValidOf(p, multi);
    SideGroupShape(p, Primary(p), i);
    var k := h.nh - NH_BASE_TRANSIT;
    PrimarySideNhIs(p, multi, k);
    TableHas(p, multi, h.nh);
    x := k % Ipv4Part(p);
  }

  /** TE_VRF_222 group i: hops to backup default prefixes, backup S2. */
  lemma Group222(p: ScaleParams, multi: bool, up: set<nat>, track: bool, i: nat)
    requires Programmed(p, multi) && Built(Backup(p)) && i < Backup(p).nhgCount
    ensures var d := SwitchOf(p, multi, up, track);
            var hops := GroupHops(d, Backup(p).baseNHG + i);
            && hops != [] && hops[|hops| - 1].weight > 0
            && BackupHops(d, Backup(p).baseNHG + i) == [Hop(STATIC_S2_NHG, 1)]
  {
    hide ProgrammedTable, TableNh, TableNhg, Completes, NhPlan, NhgPlan, SideGroups, PrimaryPrefixes, BackupPrefixes,
         Half;
    SideCounts(p, multi);
    BackupSideGroupIs(p, multi, i);
    TableHas(p, multi, Backup(p).baseNHG + i);
    ValidOf(p, multi);
    SideGroupShape(p, Backup(p), i);
    StaticHops(p, multi, up, track);
  }

  lemma Hop222(p: ScaleParams, multi: bool, up: set<nat>, track: bool, i: nat, h: Hop) returns (x: nat)
    requires Programmed(p, multi) && Built(Backup(p)) && i < Backup(p).nhgCount
    requires h in GroupHops(SwitchOf(p, multi, up, track), Backup(p).baseNHG + i)
    ensures var t := ProgrammedTable(p, multi);
            h.nh in t.nhs && t.nhs[h.nh] == ToAddress(V4(BackupStart(p) + x))
    ensures x < Ipv4Part(p)
  {
    hide ProgrammedTable, TableNh, TableNhg, Completes, NhPlan, NhgPlan, SideGroups, PrimaryPrefixes, BackupPrefixes,
         Half, BackupStart;
    SideCounts(p, multi);
    BackupSideGroupIs(p, multi, i);
    TableHas(p, multi, Backup(p).baseNHG + i);
    ValidOf(p, multi);
    SideGroupShape(p, Backup(p), i);
    var k := h.nh - Backup(p).baseNH;
    BackupSideNhIs(p, multi, k);
    TableHas(p, multi, h.nh);
    x := k % Ipv4Part(p);
  }

  /** REPAIR_VRF group i: its own one or two tunnels, backup S2. */
  lemma GroupRepair(p: ScaleParams, multi: bool, up: set<nat>, track: bool, i: nat)
    requires Programmed(p, multi) && i < p.numRepairNHG
    ensures var d := SwitchOf(p, multi, up, track);
            && GroupHops(d, NHG_BASE_REPAIR + i) == RepairGroup(p.numRepairNHG, multi, STATIC_S2_NHG, i).hops
            && BackupHops(d, NHG_BASE_REPAIR + i) == [Hop(STATIC_S2_NHG, 1)]
  {
    hide ProgrammedTable, TableNh, TableNhg, Completes, NhPlan, NhgPlan, FirstTunnel;
    RepairGroupIs(p, multi, i);
    TableHas(p, multi, NHG_BASE_REPAIR + i);
    StaticHops(p, multi, up, track);
  }

  lemma {:induction false} FirstTunnelMonotone(numNHG: nat, multi: bool, i: nat, j: nat)
    requires i <= j
    ensures FirstTunnel(numNHG, multi, i) <= FirstTunnel(numNHG, multi, j)
  {
    FirstTunnelClosedForm(numNHG, multi, i);
    FirstTunnelClosedForm(numNHG, multi, j);
  }

  lemma HopRepair(p: ScaleParams, multi: bool, up: set<nat>, track: bool, i: nat, h: Hop) returns (k: nat)
    requires Programmed(p, multi) && i < p.numRepairNHG
    requires h in GroupHops(SwitchOf(p, multi, up, track), NHG_BASE_REPAIR + i)
    ensures var t := ProgrammedTable(p, multi);
            h.nh in t.nhs && t.nhs[h.nh] == Tunnel(k)
    ensures h == Hop(NH_BASE_REPAIR + k, 1)
    ensures FirstTunnel(p.numRepairNHG, multi, i) <= k < FirstTunnel(p.numRepairNHG, multi, i + 1)
  {
    hide ProgrammedTable, TableNh, TableNhg, Completes, NhPlan, NhgPlan, FirstTunnel, Tunnel, GroupHops;
    GroupRepair(p, multi, up, track, i);
    k := h.nh - NH_BASE_REPAIR;
    RepairSuccessor(p.numRepairNHG, multi, STATIC_S2_NHG, i);
    FirstTunnelMonotone(p.numRepairNHG, multi, i + 1, p.numRepairNHG);
    TunnelNhIs(p, multi, k);
    TableHas(p, multi, h.nh);
  }

  /** The fallback group and the encap groups: to the default VRF, or a tunnel into TE_VRF_111. */
  lemma HopEncap(p: ScaleParams, multi: bool, up: set<nat>, track: bool, g: nat, h: Hop)
    requires Programmed(p, multi) && FALLBACK_NHG <= g < FIRST_ENCAP_NHG + p.numEncapDefaultNHG
    requires var d := SwitchOf(p, multi, up, track); h in GroupHops(d, g) || h in BackupHops(d, g)
    ensures var t := ProgrammedTable(p, multi);
            && h.nh in t.nhs
            && if g == FALLBACK_NHG then t.nhs[h.nh] == ToVrf(DefaultVrf)
               else t.nhs[h.nh].Encap? && t.nhs[h.nh].vrf == TransitVrf111
  {
    hide ProgrammedTable, TableNh, TableNhg, Completes, NhPlan, NhgPlan, EncapGroups;
    EncapGroupIs(p, multi);
    EncapNhIs(p, multi);
    TableHas(p, multi, g);
    ValidOf(p, multi);
    if g == FALLBACK_NHG {
      TableHas(p, multi, FALLBACK_NH);
    } else {
      EncapGroupShape(p, g - FIRST_ENCAP_NHG);
      TableHas(p, multi, h.nh);
      assert TableNh(p, multi, h.nh) == Some(EncapNextHops(p)[h.nh - FIRST_ENCAP_NH]);
    }
  }

  lemma HopDecap(p: ScaleParams, multi: bool, up: set<nat>, track: bool, i: nat)
    requires Programmed(p, multi) && i < p.numDecapEntries
    ensures var d := SwitchOf(p, multi, up, track);
            && GroupHops(d, NHG_BASE_DECAP + i) == [Hop(NH_BASE_DECAP + i, 1)]
            && BackupHops(d, NHG_BASE_DECAP + i) == []
            && NH_BASE_DECAP + i in d.table.nhs && d.table.nhs[NH_BASE_DECAP + i] == Decap(None)
  {
    hide ProgrammedTable, TableNh, TableNhg, Completes, NhPlan, NhgPlan;
    DecapNhIs(p, multi, i);
    TableHas(p, multi, NH_BASE_DECAP + i);
    TableHas(p, multi, NHG_BASE_DECAP + i);
  }

  // The measure.

  /** How far a packet is from the end of its path. */
  function Rank(vlans: nat, s: State): nat {
    match s
    case Out(_, _) => 0
    case Dropped => 0
    case Routing(vrf, key, _) =>
      match vrf
      case DefaultVrf => if VlanOf(vlans, key).Some? then 1 else 2
      case TransitVrf222 => 3
      case DecapVrf => 3
      case RepairVrf => 4
      case TransitVrf111 => 5
      case EncapVrf(_) => 6
  }

  lemma ChosenHop(d: Switch, g: nat, pkt: Packet, post: Vrf, s': State) returns (h: Hop)
    requires GroupStep(d, g, pkt, post, s') && s' != Dropped
    ensures h in GroupHops(d, g) || h in BackupHops(d, g)
    ensures h.nh in d.table.nhs && s' == HopTo(d.table.nhs[h.nh], pkt, post)
  {
    hide HasChoice, Live, HasLive;
    h :| Chosen(d, g, h) && h.nh in d.table.nhs && s' == HopTo(d.table.nhs[h.nh], pkt, post);
  }

  lemma DefaultStepDown(p: ScaleParams, multi: bool, up: set<nat>, track: bool, s: State, s': State)
    requires Programmed(p, multi) && s.Routing? && s.vrf == DefaultVrf
    requires Step(SwitchOf(p, multi, up, track), s, s')
    ensures p.numPort2VLANs >= 0 && Rank(p.numPort2VLANs, s') < Rank(p.numPort2VLANs, s)
  {
    hide ProgrammedTable, Completes, NhPlan, NhgPlan, GroupHops, BackupHops, GroupStep, Half, Lookup, BackupStart;
    var d := SwitchOf(p, multi, up, track);
    ValidOf(p, multi);
    if !LinkUp(d, DefaultVrf, s.key) {
      LookupDefault(p, multi, s.key);
      if VlanOf(p.numPort2VLANs, s.key).Some? {
        VlanOfInverse(p.numPort2VLANs, s.key);
        LookupLink(p, multi, VlanOf(p.numPort2VLANs, s.key).value);
      } else if s' != Dropped {
        var g := Lookup(d.table, DefaultVrf, s.key).value;
        var h := ChosenHop(d, g, s.pkt, DefaultVrf, s');
        var v := DefaultHop(p, multi, up, track, g, h);
        VlanOfLink(p.numPort2VLANs, v);
      }
    }
  }

  lemma TransitStepDown(p: ScaleParams, multi: bool, up: set<nat>, track: bool, s: State, s': State)
    requires Programmed(p, multi) && s.Routing? && (s.vrf == TransitVrf111 || s.vrf == TransitVrf222)
    requires Step(SwitchOf(p, multi, up, track), s, s')
    ensures p.numPort2VLANs >= 0 && Rank(p.numPort2VLANs, s') < Rank(p.numPort2VLANs, s)
  {
    hide ProgrammedTable, Completes, NhPlan, NhgPlan, GroupHops, BackupHops, GroupStep, Half, Lookup, BackupStart,
         PrimaryPrefixes, BackupPrefixes, VlanOf;
    var d := SwitchOf(p, multi, up, track);
    ValidOf(p, multi);
    StaticHops(p, multi, up, track);
    Lookup111(p, multi, s.key);
    Lookup222(p, multi, s.key);
    if s' != Dropped {
      var g := Lookup(d.table, s.vrf, s.key).value;
      var h := ChosenHop(d, g, s.pkt, DefaultVrf, s');
      if s.vrf == TransitVrf111 {
        var i := g - NHG_BASE_TRANSIT;
        Group111(p, multi, up, track, i);
        if h in GroupHops(d, g) {
          var x := Hop111(p, multi, up, track, i, h);
        }
      } else {
        var i := g - Backup(p).baseNHG;
        Group222(p, multi, up, track, i);
        if h in GroupHops(d, g) {
          var x := Hop222(p, multi, up, track, i, h);
        }
      }
    }
  }

  lemma RepairStepDown(p: ScaleParams, multi: bool, up: set<nat>, track: bool, s: State, s': State)
    requires Programmed(p, multi) && s.Routing? && s.vrf == RepairVrf
    requires Step(SwitchOf(p, multi, up, track), s, s')
    ensures p.numPort2VLANs >= 0 && Rank(p.numPort2VLANs, s') < Rank(p.numPort2VLANs, s)
  {
    hide ProgrammedTable, Completes, NhPlan, NhgPlan, GroupHops, BackupHops, GroupStep, Lookup, FirstTunnel, VlanOf;
    var d := SwitchOf(p, multi, up, track);
    ValidOf(p, multi);
    StaticHops(p, multi, up, track);
    LookupRepair(p, multi, s.key);
    if s' != Dropped {
      var g := Lookup(d.table, s.vrf, s.key).value;
      var h := ChosenHop(d, g, s.pkt, DefaultVrf, s');
      GroupRepair(p, multi, up, track, g - NHG_BASE_REPAIR);
      if h in GroupHops(d, g) {
        var k := HopRepair(p, multi, up, track, g - NHG_BASE_REPAIR, h);
      }
    }
  }

  lemma EncapDecapStepDown(p: ScaleParams, multi: bool, up: set<nat>, track: bool, s: State, s': State)
    requires Programmed(p, multi) && s.Routing? && (s.vrf.EncapVrf? || s.vrf == DecapVrf)
    requires Step(SwitchOf(p, multi, up, track), s, s')
    ensures p.numPort2VLANs >= 0 && Rank(p.numPort2VLANs, s') < Rank(p.numPort2VLANs, s)
  {
    hide ProgrammedTable, Completes, NhPlan, NhgPlan, GroupHops, BackupHops, GroupStep, Lookup, VlanOf;
    var d := SwitchOf(p, multi, up, track);
    ValidOf(p, multi);
    if s' != Dropped {
      var g := Lookup(d.table, s.vrf, s.key).value;
      var h := ChosenHop(d, g, s.pkt, DefaultVrf, s');
      if s.vrf.EncapVrf? {
        EncapLookupClass(p, multi, s.vrf.idx, s.key);
        HopEncap(p, multi, up, track, g, h);
      } else {
        DecapLookupClass(p, multi, s.key);
        HopDecap(p, multi, up, track, g - NHG_BASE_DECAP);
      }
    }
  }

  /** Every step of every packet, from anywhere, under any links, goes strictly down. */
  lemma StepGoesDown(p: ScaleParams, multi: bool, up: set<nat>, track: bool, s: State, s': State)
    requires Programmed(p, multi) && Step(SwitchOf(p, multi, up, track), s, s')
    ensures p.numPort2VLANs >= 0 && Rank(p.numPort2VLANs, s') < Rank(p.numPort2VLANs, s)
  {
    hide ProgrammedTable, Completes, NhPlan, NhgPlan, Rank;
    match s.vrf
    case DefaultVrf => DefaultStepDown(p, multi, up, track, s, s');
    case TransitVrf111 => TransitStepDown(p, multi, up, track, s, s');
    case TransitVrf222 => TransitStepDown(p, multi, up, track, s, s');
    case RepairVrf => RepairStepDown(p, multi, up, track, s, s');
    case EncapVrf(_) => EncapDecapStepDown(p, multi, up, track, s, s');
    case DecapVrf => EncapDecapStepDown(p, multi, up, track, s, s');
  }

  /** A run is no longer than its starting rank plus one. */
  lemma {:induction false} RunBounded(p: ScaleParams, multi: bool, up: set<nat>, track: bool, run: seq<State>)
    requires Programmed(p, multi) && IsRun(SwitchOf(p, multi, up, track), run)
    ensures p.numPort2VLANs >= 0 && |run| <= Rank(p.numPort2VLANs, run[0]) + 1 <= 7
    decreases |run|
  {
    hide ProgrammedTable, Completes, NhPlan, NhgPlan, Step, VlanOf, SwitchOf;
    ValidOf(p, multi);
    var d := SwitchOf(p, multi, up, track);
    if |run| > 1 {
      RunTail(d, run);
      StepGoesDown(p, multi, up, track, run[0], run[1]);
      RunBounded(p, multi, up, track, run[1..]);
    }
  }

  /**
   * Forwarding terminates: whatever links are up, no run of the programmed device, from any
   * state and for any packet, visits more than seven states.
   */
  lemma ForwardingTerminates(p: ScaleParams, multi: bool)
    requires Programmed(p, multi)
    ensures forall up, track, run :: IsRun(SwitchOf(p, multi, up, track), run) ==> |run| <= 7
  {
    hide Programmed, IsRun, SwitchOf;
    forall up, track, run | IsRun(SwitchOf(p, multi, up, track), run)
      ensures |run| <= 7
    {
      RunBounded(p, multi, up, track, run);
    }
  }

  /** Every packet's run can be completed. */
  lemma {:induction false} CompleteRunExists(p: ScaleParams, multi: bool, up: set<nat>, track: bool, s: State)
    returns (run: seq<State>)
    requires Programmed(p, multi)
    ensures IsCompleteRun(SwitchOf(p, multi, up, track), run) && run[0] == s
    decreases Rank(Max(p.numPort2VLANs, 0), s)
  {
    hide ProgrammedTable, Completes, NhPlan, NhgPlan, Step, Rank, SwitchOf;
    ValidOf(p, multi);
    var d := SwitchOf(p, multi, up, track);
    if s.Routing? {
      var s' := Progress(d, s);
      StepGoesDown(p, multi, up, track, s, s');
      var rest := CompleteRunExists(p, multi, up, track, s');
      RunCons(d, s, rest);
      run := [s] + rest;
    } else {
      run := [s];
    }
  }
}
