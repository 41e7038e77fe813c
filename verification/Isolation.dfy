/**
 * The primary and backup halves of the default VRF: which VLANs each next-hop uses, and which
 * VLANs the traffic of each half can leave on.
 */
module Isolation {
  import opened GoInts
  import opened Seqs
  import opened IpUtil
  import opened Rib
  import opened Params
  import opened DefaultVrfBuilder
  import opened FullRun
  import opened Ids
  import opened Forwarding
  import opened ProgrammedTables
  import opened ProgrammedRoutes
  import opened Termination
  import opened Liveness
  import opened FastReroute

  // One VLAN per next-hop.

  function DefaultNextHops(p: ScaleParams): seq<NextHop> {
    PrimaryNextHops(p) + BackupNextHops(p)
  }

  lemma WrapsOntoItself(n: nat)
    requires n > 0
    ensures 0 % n == n % n
  {
    ModPlusMultiple(0, n, 1);
  }

  lemma DistinctVlans(p: ScaleParams, i: nat, j: nat)
    requires i < j < NhPart(p)
    ensures NhPart(p) <= PrimaryVlans(p) ==> PrimaryVlan(p, i) != PrimaryVlan(p, j)
    ensures NhPart(p) <= p.numPort2VLANs - PrimaryVlans(p) ==> BackupVlan(p, i) != BackupVlan(p, j)
  {
    hide Half, PrimaryVlans;
    if NhPart(p) <= PrimaryVlans(p) {
      ModSmall(i, PrimaryVlans(p));
      ModSmall(j, PrimaryVlans(p));
    }
    var backup := p.numPort2VLANs - PrimaryVlans(p);
    if NhPart(p) <= backup {
      ModSmall(i, backup);
      ModSmall(j, backup);
    }
  }

  /**
   * Every default next-hop has a VLAN of its own if and only if neither half has more
   * next-hops than it has VLANs.
   */
  lemma OwnVlanIff(p: ScaleParams)
    requires p.numPort2VLANs > 0
    ensures Distinct(DefaultNextHops(p)) <==>
            NhPart(p) <= PrimaryVlans(p) && NhPart(p) <= p.numPort2VLANs - PrimaryVlans(p)
  {
    hide Half, PrimaryVlans;
    var nhs := DefaultNextHops(p);
    var n := NhPart(p);
    var backup := p.numPort2VLANs - PrimaryVlans(p);
    if n > PrimaryVlans(p) {
      WrapsOntoItself(PrimaryVlans(p));
      assert nhs[0] == nhs[PrimaryVlans(p)];
    } else if backup <= 0 {
      assert nhs[0] == nhs[n];
    } else if n > backup {
      WrapsOntoItself(backup);
      assert nhs[n] == nhs[n + backup];
    } else {
      forall i, j | 0 <= i < j < |nhs|
        ensures nhs[i] != nhs[j]
      {
        VlansInRange(p, if i < n then i else i - n);
        VlansInRange(p, if j < n then j else j - n);
        if j < n {
          DistinctVlans(p, i, j);
        } else if i >= n {
          DistinctVlans(p, i - n, j - n);
        }
      }
    }
  }

  // Where each half's traffic leaves.

  ghost predicate Ends(d: Switch, s: State, run: seq<State>) {
    IsCompleteRun(d, run) && run[0] == s && run[|run| - 1].Out?
  }

  /** Primary prefixes reach only the VLANs the repair test shuts, backup prefixes only the others. */
  ghost predicate HalvesApart(p: ScaleParams, multi: bool)
    requires Programmed(p, multi)
  {
    forall up: set<nat>, track: bool, x: nat, pkt: Packet, run: seq<State>
      {:trigger Ends(SwitchOf(p, multi, up, track), Routing(DefaultVrf, V4(x), pkt), run)} ::
      Ends(SwitchOf(p, multi, up, track), Routing(DefaultVrf, V4(x), pkt), run) ==>
        && (DEFAULT_PREFIX_START <= x < DEFAULT_PREFIX_START + Ipv4Part(p) ==> run[|run| - 1].vlan < PrimaryVlans(p))
        && (BackupStart(p) <= x < BackupStart(p) + Ipv4Part(p) ==> run[|run| - 1].vlan >= PrimaryVlans(p))
  }

  lemma AteIpInjective(v: nat, w: nat)
    requires AteIp(v) == AteIp(w)
    ensures v == w
  {
  }

  /** A run from a default prefix takes one hop of its group and leaves on that hop's VLAN. */
  lemma RunFromPrefix(p: ScaleParams, multi: bool, up: set<nat>, track: bool, a: Addr, g: nat, pkt: Packet,
                      run: seq<State>)
    returns (h: Hop, v: nat)
    requires Programmed(p, multi) && NHG_BASE_DEFAULT <= g < NHG_BASE_DEFAULT + 2 * NhgPart(p)
    requires p.numPort2VLANs > 0 && VlanOf(p.numPort2VLANs, a) == None
    requires Lookup(ProgrammedTable(p, multi), DefaultVrf, a) == Some(g)
    requires Ends(SwitchOf(p, multi, up, track), Routing(DefaultVrf, a, pkt), run)
    ensures h in GroupHops(SwitchOf(p, multi, up, track), g) || h in BackupHops(SwitchOf(p, multi, up, track), g)
    ensures var t := ProgrammedTable(p, multi); h.nh in t.nhs && t.nhs[h.nh] == ToAddress(AteIp(v))
    ensures run[|run| - 1] == Out(v, pkt)
  {
    hide ProgrammedTable, Completes, NhPlan, NhgPlan, GroupHops, BackupHops, SwitchOf, Half, Lookup, GroupStep, VlanOf;
    var d := SwitchOf(p, multi, up, track);
    SwitchTable(p, multi, up, track);
    RunGoesOn(d, run, 0);
    RunGoesOn(d, run, 1);
    h := ChosenHop(d, g, pkt, DefaultVrf, run[1]);
    v := DefaultHop(p, multi, up, track, g, h);
    VlanOfLink(p.numPort2VLANs, v);
    LookupLink(p, multi, v);
    RunGoesOn(d, run, 2);
  }

  lemma PrimaryStaysPrimary(p: ScaleParams, multi: bool, up: set<nat>, track: bool, x: nat, pkt: Packet,
                            run: seq<State>)
    requires Programmed(p, multi) && p.numDefaultIPv4 >= 2 && x < Ipv4Part(p)
    requires Ends(SwitchOf(p, multi, up, track), Routing(DefaultVrf, V4(DEFAULT_PREFIX_START + x), pkt), run)
    ensures run[|run| - 1].vlan < PrimaryVlans(p)
  {
    hide ProgrammedTable, Completes, NhPlan, NhgPlan, GroupHops, BackupHops, SwitchOf, Half, Lookup, VlanOf,
         PrimaryVlans, BackupStart, IsCompleteRun, AteIp;
    ValidOf(p, multi);
    DefaultPrefixesNotLinks(p, multi, x);
    var a := V4(DEFAULT_PREFIX_START + x);
    LookupDefault(p, multi, a);
    var i := x % NhgPart(p);
    var h, v := RunFromPrefix(p, multi, up, track, a, NHG_BASE_DEFAULT + i, pkt, run);
    DefaultNoBackup(p, multi, up, track, i);
    var w := PrimaryHop(p, multi, up, track, i, h);
    AteIpInjective(v, w);
  }

  lemma BackupStaysBackup(p: ScaleParams, multi: bool, up: set<nat>, track: bool, x: nat, pkt: Packet, run: seq<State>)
    requires Programmed(p, multi) && x < Ipv4Part(p)
    requires Ends(SwitchOf(p, multi, up, track), Routing(DefaultVrf, V4(BackupStart(p) + x), pkt), run)
    ensures run[|run| - 1].vlan < PrimaryVlans(p) <==> p.numPort2VLANs == 1
  {
    hide ProgrammedTable, Completes, NhPlan, NhgPlan, GroupHops, BackupHops, SwitchOf, Half, Lookup, VlanOf,
         PrimaryVlans, BackupStart, IsCompleteRun, AteIp;
    ValidOf(p, multi);
    DefaultPrefixesNotLinks(p, multi, x);
    var a := V4(BackupStart(p) + x);
    LookupDefault(p, multi, a);
    var i := x % NhgPart(p);
    var h, v := RunFromPrefix(p, multi, up, track, a, NHG_BASE_DEFAULT + NhgPart(p) + i, pkt, run);
    DefaultNoBackup(p, multi, up, track, i);
    var w := BackupHop(p, multi, up, track, i, h);
    AteIpInjective(v, w);
  }

  /** With all links up, a packet for the first backup prefix gets out. */
  lemma BackupGetsOut(p: ScaleParams, multi: bool, pkt: Packet) returns (run: seq<State>)
    requires Programmed(p, multi)
    ensures Ends(SwitchOf(p, multi, AllLinks(p), false), Routing(DefaultVrf, V4(BackupStart(p)), pkt), run)
  {
    hide ProgrammedTable, Completes, NhPlan, NhgPlan, GroupHops, BackupHops, SwitchOf, Half, Lookup, VlanOf,
         PrimaryVlans, BackupStart, HasLive, Routable;
    var up := AllLinks(p);
    var d := SwitchOf(p, multi, up, false);
    SwitchTable(p, multi, up, false);
    DefaultPrefixesNotLinks(p, multi, 0);
    LookupDefault(p, multi, V4(BackupStart(p)));
    ModSmall(0, NhgPart(p));
    BackupGroupAlive(p, multi, up, false, 0);
    var s0 := Routing(DefaultVrf, V4(BackupStart(p)), pkt);
    var s1 := Progress(d, s0);
    var h := StepByPrimary(d, NHG_BASE_DEFAULT + NhgPart(p), pkt, DefaultVrf, s1);
    var v := BackupHop(p, multi, up, false, 0, h);
    VlanOfLink(p.numPort2VLANs, v);
    var s2 := Out(v, pkt);
    assert Step(d, s1, s2);
    run := [s0, s1, s2];
  }

  lemma HalvesHold(p: ScaleParams, multi: bool)
    requires Programmed(p, multi) && p.numPort2VLANs >= 2 && p.numDefaultIPv4 >= 2
    ensures HalvesApart(p, multi)
  {
    hide ProgrammedTable, Programmed, SwitchOf, Half, PrimaryVlans, BackupStart, IsCompleteRun, Ends;
    forall up: set<nat>, track: bool, x: nat, pkt: Packet, run: seq<State>
      | Ends(SwitchOf(p, multi, up, track), Routing(DefaultVrf, V4(x), pkt), run)
      ensures IsCompleteRun(SwitchOf(p, multi, up, track), run) && run != [] && run[|run| - 1].Out?
      ensures DEFAULT_PREFIX_START <= x < DEFAULT_PREFIX_START + Ipv4Part(p) ==> run[|run| - 1].vlan < PrimaryVlans(p)
      ensures BackupStart(p) <= x < BackupStart(p) + Ipv4Part(p) ==> run[|run| - 1].vlan >= PrimaryVlans(p)
    {
      EndsShape(SwitchOf(p, multi, up, track), Routing(DefaultVrf, V4(x), pkt), run);
      if DEFAULT_PREFIX_START <= x < DEFAULT_PREFIX_START + Ipv4Part(p) {
        PrimaryStaysPrimary(p, multi, up, track, x - DEFAULT_PREFIX_START, pkt, run);
      }
      if BackupStart(p) <= x < BackupStart(p) + Ipv4Part(p) {
        BackupStaysBackup(p, multi, up, track, x - BackupStart(p), pkt, run);
      }
    }
  }

  lemma EndsShape(d: Switch, s: State, run: seq<State>)
    requires Ends(d, s, run)
    ensures IsCompleteRun(d, run) && run != [] && run[|run| - 1].Out?
  {
  }

  lemma HalvesMeet(p: ScaleParams, multi: bool)
    requires Programmed(p, multi) && (p.numPort2VLANs < 2 || p.numDefaultIPv4 < 2)
    ensures !HalvesApart(p, multi)
  {
    hide ProgrammedTable, Completes, NhPlan, NhgPlan, SwitchOf, PrimaryVlans, Step;
    CountsPositive(p, multi);
    var pkt := Packet(V4(0), V4(0), 0, Plain(17));
    var run := BackupGetsOut(p, multi, pkt);
    BackupStaysBackup(p, multi, AllLinks(p), false, 0, pkt, run);
    assert BackupStart(p) == DEFAULT_PREFIX_START || p.numPort2VLANs == 1;
    assert Ends(SwitchOf(p, multi, AllLinks(p), false), Routing(DefaultVrf, V4(BackupStart(p)), pkt), run);
  }

  /**
   * Primary traffic and backup traffic never share a VLAN, whatever links are up, exactly when
   * there are two VLANs and two default prefixes to share out.
   */
  lemma HalvesApartIff(p: ScaleParams, multi: bool)
    requires Programmed(p, multi)
    ensures HalvesApart(p, multi) <==> p.numPort2VLANs >= 2 && p.numDefaultIPv4 >= 2
  {
    hide Programmed, HalvesApart;
    if p.numPort2VLANs >= 2 && p.numDefaultIPv4 >= 2 {
      HalvesHold(p, multi);
    } else {
      HalvesMeet(p, multi);
    }
  }
}
