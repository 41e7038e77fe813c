/**
 * Why forwarding needs disjoint ids: a run can complete with a default group replaced by a
 * TE_VRF_111 group, and then a packet can circle in the default VRF for ever.
 */
module Loops {
  import opened IpUtil
  import opened Rib
  import opened Params
  import opened DefaultVrfBuilder
  import opened StaticGroups
  import opened TransitBuilder
  import opened FullRun
  import opened Forwarding
  import opened ProgrammedTables
  import opened ProgrammedRoutes

  const ONLY_PREFIX := V4(DEFAULT_PREFIX_START)

  /** One default prefix, whose group has the id of group i of TE_VRF_111. */
  ghost predicate Collides(p: ScaleParams, i: nat) {
    && Completes(p) && p.numDefaultIPv4 == 1
    && i < Half(p.numTransitNHG) && NHG_BASE_DEFAULT + NhgPart(p) == NHG_BASE_TRANSIT + i < NHG_BASE_ENCAP
    && NH_BASE_TRANSIT + Half(p.numTransitNH) <= NH_BASE_ENCAP
  }

  ghost function SwitchAfter(p: ScaleParams, multi: bool, up: set<nat>, track: bool): Switch
    requires Completes(p)
  {
    CompletesFacts(p);
    Switch(ProgrammedTable(p, multi), p.numPort2VLANs, up, track)
  }

  /** The group that the prefix resolves to, and what its next-hops and its backup are. */
  lemma ReplacedGroup(p: ScaleParams, multi: bool, i: nat)
    requires Collides(p, i)
    ensures TableNhg(p, multi, NHG_BASE_TRANSIT + i) == Some(SideGroups(p, Primary(p))[i])
    ensures TableNhg(p, multi, STATIC_S1_NHG) == Some(S1_GROUP)
  {
    hide ValidParams, CountsSafe, AddressesFit, SideGroups, Half, PrimaryPrefixes, BackupPrefixes;
    CompletesFacts(p);
  }

  lemma ReplacedHop(p: ScaleParams, multi: bool, k: nat)
    requires Completes(p) && p.numDefaultIPv4 == 1
    requires k < Half(p.numTransitNH) && NH_BASE_TRANSIT + k < NH_BASE_ENCAP
    ensures TableNh(p, multi, NH_BASE_TRANSIT + k) == Some(ToAddress(ONLY_PREFIX))
    ensures TableNh(p, multi, STATIC_S1_NHG) == Some(S1_NEXT_HOP)
  {
    hide ValidParams, CountsSafe, AddressesFit, BackupPrefixes;
    CompletesFacts(p);
  }

  lemma OnlyPrefixRoute(p: ScaleParams, multi: bool)
    requires Completes(p) && p.numDefaultIPv4 == 1
    ensures Lookup(ProgrammedTable(p, multi), DefaultVrf, ONLY_PREFIX) == Some(NHG_BASE_DEFAULT + NhgPart(p))
  {
    hide ProgrammedTable, Lookup, ValidParams, CountsSafe, AddressesFit;
    HostOnlyLookup(p, multi, DefaultVrf, ONLY_PREFIX);
  }

  /** The group's last hop leads back to the prefix, which S1 makes reachable. */
  lemma CircleStep(p: ScaleParams, multi: bool, up: set<nat>, track: bool, i: nat, pkt: Packet)
    requires Collides(p, i)
    ensures var s := Routing(DefaultVrf, ONLY_PREFIX, pkt); Step(SwitchAfter(p, multi, up, track), s, s)
  {
    hide ProgrammedTable, Lookup, TableNh, TableNhg, ValidParams, CountsSafe, AddressesFit, SideGroups, Half,
         PrimaryPrefixes, BackupPrefixes;
    var d := SwitchAfter(p, multi, up, track);
    var g := NHG_BASE_TRANSIT + i;
    CompletesFacts(p);
    OnlyPrefixRoute(p, multi);
    ReplacedGroup(p, multi, i);
    ProgrammedTableIs(p, multi, g, DefaultVrf, HostPrefix(ONLY_PREFIX));
    ProgrammedTableIs(p, multi, STATIC_S1_NHG, DefaultVrf, HostPrefix(ONLY_PREFIX));
    SideGroupShape(p, Primary(p), i);
    var hops := GroupHops(d, g);
    var h := hops[|hops| - 1];
    ReplacedHop(p, multi, h.nh - NH_BASE_TRANSIT);
    ProgrammedTableIs(p, multi, h.nh, DefaultVrf, HostPrefix(ONLY_PREFIX));
    var s1 := Hop(STATIC_S1_NHG, 1);
    assert BackupHops(d, g) == [s1];
    assert s1 in Candidates(d, DefaultVrf, ONLY_PREFIX);
    assert Routable(d, DefaultVrf, ONLY_PREFIX);
    assert Live(d, h) && h in hops;
    assert Chosen(d, g, h);
  }

  /** So there are runs of any length. */
  lemma CollidingIdsLoop(p: ScaleParams, multi: bool, up: set<nat>, track: bool, i: nat, pkt: Packet, n: nat)
    requires Collides(p, i) && n > 0
    ensures IsRun(SwitchAfter(p, multi, up, track), seq(n, _ => Routing(DefaultVrf, ONLY_PREFIX, pkt)))
  {
    hide Step, Collides;
    CircleStep(p, multi, up, track, i, pkt);
  }
}
