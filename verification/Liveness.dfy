/** Which links, groups and prefixes of the programmed device are reachable. */
module Liveness {
  import opened IpUtil
  import opened Rib
  import opened Params
  import opened DefaultVrfBuilder
  import opened FullRun
  import opened Ids
  import opened Forwarding
  import opened ProgrammedTables
  import opened ProgrammedRoutes
  import opened Termination

  /** A link address is reachable exactly when its VLAN is up. */
  lemma LinkRoutable(p: ScaleParams, multi: bool, up: set<nat>, track: bool, v: nat)
    requires Programmed(p, multi) && v < p.numPort2VLANs
    ensures Routable(SwitchOf(p, multi, up, track), DefaultVrf, AteIp(v)) <==> v in up
  {
    hide ProgrammedTable, Completes, NhPlan, NhgPlan, Lookup, VlanOf, Routable, Live;
    var d := SwitchOf(p, multi, up, track);
    RoutableIff(d, DefaultVrf, AteIp(v));
    VlanOfLink(p.numPort2VLANs, v);
    LookupLink(p, multi, v);
  }

  /** With its primary VLANs down, no primary default group has a live hop. */
  lemma PrimaryGroupDead(p: ScaleParams, multi: bool, up: set<nat>, track: bool, i: nat)
    requires Programmed(p, multi) && i < NhgPart(p)
    requires forall v :: 0 <= v < PrimaryVlans(p) ==> v !in up
    ensures !HasLive(SwitchOf(p, multi, up, track), GroupHops(SwitchOf(p, multi, up, track), NHG_BASE_DEFAULT + i))
  {
    hide ProgrammedTable, Completes, NhPlan, NhgPlan, GroupHops, Half, PrimaryVlans, Routable, SwitchOf;
    var d := SwitchOf(p, multi, up, track);
    SwitchTable(p, multi, up, track);
    var hops := GroupHops(d, NHG_BASE_DEFAULT + i);
    forall k | 0 <= k < |hops|
      ensures !Live(d, hops[k])
    {
      var v := PrimaryHop(p, multi, up, track, i, hops[k]);
      LinkRoutable(p, multi, up, track, v);
    }
  }

  lemma SwitchTable(p: ScaleParams, multi: bool, up: set<nat>, track: bool)
    requires Programmed(p, multi)
    ensures SwitchOf(p, multi, up, track).table == ProgrammedTable(p, multi)
    ensures p.numPort2VLANs > 0 && SwitchOf(p, multi, up, track).vlans == p.numPort2VLANs
    ensures SwitchOf(p, multi, up, track).up == up && SwitchOf(p, multi, up, track).track == track
  {
    hide ProgrammedTable, NhPlan, NhgPlan, CountsSafe, AddressesFit, ValidLoadBalance, ValidWeight;
  }

  /** With the VLANs of its next-hops up, a default group has a live hop. */
  lemma PrimaryGroupAlive(p: ScaleParams, multi: bool, up: set<nat>, track: bool, i: nat)
    requires Programmed(p, multi) && i < NhgPart(p)
    requires forall v :: 0 <= v < PrimaryVlans(p) ==> v in up
    ensures HasLive(SwitchOf(p, multi, up, track), GroupHops(SwitchOf(p, multi, up, track), NHG_BASE_DEFAULT + i))
  {
    hide ProgrammedTable, Completes, NhPlan, NhgPlan, Half, PrimaryVlans, Routable, SwitchOf, PrimaryGroups,
         BackupGroups, TableNhg;
    var d := SwitchOf(p, multi, up, track);
    SwitchTable(p, multi, up, track);
    DefaultGroupIs(p, multi, i);
    TableHas(p, multi, NHG_BASE_DEFAULT + i);
    ValidOf(p, multi);
    DefaultGroupShape(p, i);
    var hops := GroupHops(d, NHG_BASE_DEFAULT + i);
    var h := hops[|hops| - 1];
    var v := PrimaryHop(p, multi, up, track, i, h);
    LinkRoutable(p, multi, up, track, v);
    assert Live(d, hops[|hops| - 1]);
  }

  lemma BackupGroupAlive(p: ScaleParams, multi: bool, up: set<nat>, track: bool, i: nat)
    requires Programmed(p, multi) && i < NhgPart(p)
    requires forall v :: 0 <= v < p.numPort2VLANs && (v < PrimaryVlans(p) <==> p.numPort2VLANs == 1) ==> v in up
    ensures HasLive(SwitchOf(p, multi, up, track),
                    GroupHops(SwitchOf(p, multi, up, track), NHG_BASE_DEFAULT + NhgPart(p) + i))
  {
    hide ProgrammedTable, Completes, NhPlan, NhgPlan, Half, PrimaryVlans, Routable, SwitchOf, PrimaryGroups,
         BackupGroups, TableNhg;
    var d := SwitchOf(p, multi, up, track);
    SwitchTable(p, multi, up, track);
    DefaultGroupIs(p, multi, i);
    TableHas(p, multi, NHG_BASE_DEFAULT + NhgPart(p) + i);
    ValidOf(p, multi);
    DefaultGroupShape(p, i);
    var hops := GroupHops(d, NHG_BASE_DEFAULT + NhgPart(p) + i);
    var h := hops[|hops| - 1];
    var v := BackupHop(p, multi, up, track, i, h);
    LinkRoutable(p, multi, up, track, v);
    assert Live(d, hops[|hops| - 1]);
  }

  lemma NoHopsNotLive(d: Switch)
    ensures !HasLive(d, [])
  {
  }

  lemma HasLiveConcat(d: Switch, a: seq<Hop>, b: seq<Hop>)
    ensures HasLive(d, a + b) <==> HasLive(d, a) || HasLive(d, b)
  {
    hide Live;
    var s := a + b;
    if HasLive(d, a) {
      var i :| 0 <= i < |a| && Live(d, a[i]);
      assert Live(d, s[i]);
    }
    if HasLive(d, b) {
      var i :| 0 <= i < |b| && Live(d, b[i]);
      assert Live(d, s[|a| + i]);
    }
    if HasLive(d, s) {
      var i :| 0 <= i < |s| && Live(d, s[i]);
      if i < |a| {
        assert Live(d, a[i]);
      } else {
        assert Live(d, b[i - |a|]);
      }
    }
  }

  /** Off the links, reachability is a choice of the group found. */
  lemma RoutableByGroup(d: Switch, vrf: Vrf, key: Addr, g: nat)
    requires !LinkUp(d, vrf, key) && Lookup(d.table, vrf, key) == Some(g)
    ensures Routable(d, vrf, key) <==> HasChoice(d, g)
  {
    hide Live, HasLive, Lookup, LinkUp, Routable;
    RoutableIff(d, vrf, key);
    HasLiveConcat(d, GroupHops(d, g), BackupHops(d, g));
  }

  /** The default VRF's choices: a default group has a choice when its own hops are live. */
  lemma DefaultChoice(p: ScaleParams, multi: bool, up: set<nat>, track: bool, i: nat)
    requires Programmed(p, multi) && i < NhgPart(p)
    ensures var d := SwitchOf(p, multi, up, track);
            && (HasChoice(d, NHG_BASE_DEFAULT + i) <==> HasLive(d, GroupHops(d, NHG_BASE_DEFAULT + i)))
            && (HasChoice(d, NHG_BASE_DEFAULT + NhgPart(p) + i) <==>
                HasLive(d, GroupHops(d, NHG_BASE_DEFAULT + NhgPart(p) + i)))
  {
    hide ProgrammedTable, Completes, NhPlan, NhgPlan, Half, SwitchOf, HasLive, GroupHops, BackupHops;
    DefaultNoBackup(p, multi, up, track, i);
    NoHopsNotLive(SwitchOf(p, multi, up, track));
  }

  /** A backup default prefix is reachable exactly when the backup group it points to is live. */
  lemma BackupPrefixRoutable(p: ScaleParams, multi: bool, up: set<nat>, track: bool, x: nat)
    requires Programmed(p, multi) && x < Ipv4Part(p)
    ensures var d := SwitchOf(p, multi, up, track);
            Routable(d, DefaultVrf, V4(BackupStart(p) + x)) <==>
            HasLive(d, GroupHops(d, NHG_BASE_DEFAULT + NhgPart(p) + x % NhgPart(p)))
  {
    hide ProgrammedTable, Completes, NhPlan, NhgPlan, Half, SwitchOf, HasLive, GroupHops, BackupHops, Lookup,
         BackupStart, Routable, HasChoice, VlanOf;
    var d := SwitchOf(p, multi, up, track);
    SwitchTable(p, multi, up, track);
    DefaultPrefixesNotLinks(p, multi, x);
    LookupDefault(p, multi, V4(BackupStart(p) + x));
    RoutableByGroup(d, DefaultVrf, V4(BackupStart(p) + x), NHG_BASE_DEFAULT + NhgPart(p) + x % NhgPart(p));
    DefaultChoice(p, multi, up, track, x % NhgPart(p));
  }

  /** A primary default prefix, when it is not also the backup one. */
  lemma PrimaryPrefixRoutable(p: ScaleParams, multi: bool, up: set<nat>, track: bool, x: nat)
    requires Programmed(p, multi) && x < Ipv4Part(p) && p.numDefaultIPv4 >= 2
    ensures var d := SwitchOf(p, multi, up, track);
            Routable(d, DefaultVrf, V4(DEFAULT_PREFIX_START + x)) <==>
            HasLive(d, GroupHops(d, NHG_BASE_DEFAULT + x % NhgPart(p)))
  {
    hide ProgrammedTable, Completes, NhPlan, NhgPlan, Half, SwitchOf, HasLive, GroupHops, BackupHops, Lookup,
         BackupStart, Routable, HasChoice, VlanOf;
    var d := SwitchOf(p, multi, up, track);
    SwitchTable(p, multi, up, track);
    DefaultPrefixesNotLinks(p, multi, x);
    LookupDefault(p, multi, V4(DEFAULT_PREFIX_START + x));
    RoutableByGroup(d, DefaultVrf, V4(DEFAULT_PREFIX_START + x), NHG_BASE_DEFAULT + x % NhgPart(p));
    DefaultChoice(p, multi, up, track, x % NhgPart(p));
  }

  /** The next-hop of S1 or S2 is always live, so a group with either as backup always has a choice. */
  lemma StaticLive(p: ScaleParams, multi: bool, up: set<nat>, track: bool)
    requires Programmed(p, multi)
    ensures var d := SwitchOf(p, multi, up, track);
            && Live(d, Hop(STATIC_S1_NHG, 1)) && Live(d, Hop(STATIC_S2_NHG, 1))
            && HasLive(d, [Hop(STATIC_S1_NHG, 1)]) && HasLive(d, [Hop(STATIC_S2_NHG, 1)])
  {
    hide ProgrammedTable, Completes, NhPlan, NhgPlan, SwitchOf, Routable, GroupHops;
    var d := SwitchOf(p, multi, up, track);
    StaticHops(p, multi, up, track);
    assert Live(d, [Hop(STATIC_S1_NHG, 1)][0]);
    assert Live(d, [Hop(STATIC_S2_NHG, 1)][0]);
  }

  lemma SomeLive(d: Switch, hops: seq<Hop>, h: Hop)
    requires h in hops && Live(d, h)
    ensures HasLive(d, hops)
  {
    var i :| 0 <= i < |hops| && hops[i] == h;
    assert Live(d, hops[i]);
  }

  /** A packet leaves group g by a live hop of g itself when it has one. */
  lemma StepByPrimary(d: Switch, g: nat, pkt: Packet, post: Vrf, s': State) returns (h: Hop)
    requires GroupStep(d, g, pkt, post, s') && HasLive(d, GroupHops(d, g))
    ensures h in GroupHops(d, g) && Live(d, h) && h.nh in d.table.nhs && s' == HopTo(d.table.nhs[h.nh], pkt, post)
  {
    hide Live, HasLive;
    h :| Chosen(d, g, h) && h.nh in d.table.nhs && s' == HopTo(d.table.nhs[h.nh], pkt, post);
  }

  /** It leaves by a live hop of the backup group when g has none. */
  lemma StepByBackup(d: Switch, g: nat, pkt: Packet, post: Vrf, s': State) returns (h: Hop)
    requires GroupStep(d, g, pkt, post, s') && !HasLive(d, GroupHops(d, g)) && HasLive(d, BackupHops(d, g))
    ensures h in BackupHops(d, g) && Live(d, h) && h.nh in d.table.nhs && s' == HopTo(d.table.nhs[h.nh], pkt, post)
  {
    hide Live, HasLive;
    h :| Chosen(d, g, h) && h.nh in d.table.nhs && s' == HopTo(d.table.nhs[h.nh], pkt, post);
  }
}
