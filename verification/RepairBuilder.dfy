/**
 * BuildRepairVRF: groups that re-encapsulate into TE_VRF_222 under source .222.
 *
 * The first half of the groups have one tunnel, the second half two, unless the device cannot
 * repair into several tunnels; tunnels are numbered through.
 */
module RepairBuilder {
  import opened GoInts
  import opened IpUtil
  import opened Rib
  import opened Params
  import opened Integrity
  import opened DefaultVrfBuilder

  /** Does group i have two tunnels? */
  predicate TwoTunnels(numNHG: nat, multi: bool, i: nat) {
    !(i < numNHG / 2 || !multi)
  }

  /** Tunnels of groups 0 .. i - 1, which is the index of group i's first tunnel. */
  function FirstTunnel(numNHG: nat, multi: bool, i: nat): nat {
    if i == 0 then 0 else FirstTunnel(numNHG, multi, i - 1) + if TwoTunnels(numNHG, multi, i - 1) then 2 else 1
  }

  lemma {:induction false} FirstTunnelClosedForm(numNHG: nat, multi: bool, i: nat)
    ensures FirstTunnel(numNHG, multi, i) == i + if multi then Max(0, i - numNHG / 2) else 0
  {
    if i > 0 {
      FirstTunnelClosedForm(numNHG, multi, i - 1);
    }
  }

  function Tunnel(k: nat): NextHop {
    DecapEncap(V4(OUTER_SRC_222), V4(TRANSIT_222_START + k), TransitVrf222)
  }

  function Tunnels(n: nat): (s: seq<NextHop>)
    ensures |s| == n
  {
    seq(n, k requires 0 <= k < n => Tunnel(k))
  }

  function RepairGroup(numNHG: nat, multi: bool, s2: nat, i: nat): Group {
    var f := NH_BASE_REPAIR + FirstTunnel(numNHG, multi, i);
    Group(if TwoTunnels(numNHG, multi, i) then [Hop(f, 1), Hop(f + 1, 1)] else [Hop(f, 1)], Some(s2))
  }

  function RepairGroups(numNHG: nat, multi: bool, s2: nat, n: nat): (s: seq<Group>)
    ensures |s| == n
  {
    seq(n, i requires 0 <= i < n => RepairGroup(numNHG, multi, s2, i))
  }

  /** The entries one loop iteration appends. */
  function RepairStep(numNHG: nat, multi: bool, s2: nat, i: nat): seq<Entry> {
    var f := FirstTunnel(numNHG, multi, i);
    var group := NhgEntry(NHG_BASE_REPAIR + i, RepairGroup(numNHG, multi, s2, i));
    if TwoTunnels(numNHG, multi, i)
    then NhLayer(NH_BASE_REPAIR + f, [Tunnel(f), Tunnel(f + 1)]) + [group]
    else NhLayer(NH_BASE_REPAIR + f, [Tunnel(f)]) + [group]
  }

  /** The interleaved next-hops and groups of the first n groups. */
  function RepairNhNhg(numNHG: nat, multi: bool, s2: nat, n: nat): seq<Entry> {
    if n == 0 then [] else RepairNhNhg(numNHG, multi, s2, n - 1) + RepairStep(numNHG, multi, s2, n - 1)
  }

  function RepairTargets(p: ScaleParams): (s: seq<nat>)
    requires p.numRepairNHG > 0
    ensures |s| == Max(p.numRepairIPv4, 0)
  {
    Cycle(NHG_BASE_REPAIR, p.numRepairNHG, Max(p.numRepairIPv4, 0))
  }

  function RepairEntries(p: ScaleParams, multi: bool, s2: nat): seq<Entry>
    requires p.numRepairNHG > 0
  {
    RepairNhNhg(p.numRepairNHG, multi, s2, p.numRepairNHG)
    + HostRoutes(RepairVrf, V4(TRANSIT_111_START), RepairTargets(p))
  }

  predicate RepairFits(p: ScaleParams) {
    && p.numRepairNHG >= 0 && TRANSIT_222_START + p.numRepairNHG * 2 <= TWO_32
    && p.numRepairIPv4 >= 0 && TRANSIT_111_START + p.numRepairIPv4 <= TWO_32
  }

  /** No index out of range and no remainder by zero. */
  predicate RepairCountsSafe(p: ScaleParams) {
    p.numRepairIPv4 != 0 && (p.numRepairNHG == 0 ==> p.numRepairIPv4 < 0)
  }

  lemma RepairFitsIffGenerated(p: ScaleParams)
    requires RepairCountsSafe(p)
    ensures var d := Generated(Some(TRANSIT_222_START), p.numRepairNHG * 2, Some(1));
            var h := Generated(Some(TRANSIT_111_START), p.numRepairIPv4, Some(1));
            && (d.Ok? && h.Ok? <==> RepairFits(p))
            && (d.Ok? ==> p.numRepairNHG >= 0 && d.value == Progression(TRANSIT_222_START, p.numRepairNHG * 2, 1))
            && (h.Ok? ==> p.numRepairIPv4 > 0 && h.value == Progression(TRANSIT_111_START, p.numRepairIPv4, 1))
  {
    if p.numRepairNHG == 0 {
      assert Progression(TRANSIT_222_START, 0, 1) == [];
    }
  }

  lemma RepairZero(numNHG: nat, multi: bool, s2: nat)
    ensures FirstTunnel(numNHG, multi, 0) == 0 && RepairNhNhg(numNHG, multi, s2, 0) == []
  {
  }

  lemma RepairSuccessor(numNHG: nat, multi: bool, s2: nat, i: nat)
    ensures FirstTunnel(numNHG, multi, i + 1) ==
            FirstTunnel(numNHG, multi, i) + if TwoTunnels(numNHG, multi, i) then 2 else 1
    ensures RepairNhNhg(numNHG, multi, s2, i + 1) ==
            RepairNhNhg(numNHG, multi, s2, i) + RepairStep(numNHG, multi, s2, i)
  {
  }

  /** The group loop; every tunnel index it uses is in range. */
  method BuildRepairGroups(numNHG: nat, multi: bool, s2NHG: nat, tunnelDsts: seq<nat>) returns (entries: seq<Entry>)
    requires tunnelDsts == Progression(TRANSIT_222_START, numNHG * 2, 1)
    ensures entries == RepairNhNhg(numNHG, multi, s2NHG, numNHG)
  {
    hide FirstTunnel, RepairNhNhg;
    entries := [];
    var nhIdx := 0;
    RepairZero(numNHG, multi, s2NHG);
    for i := 0 to numNHG
      invariant nhIdx == FirstTunnel(numNHG, multi, i)
      invariant entries == RepairNhNhg(numNHG, multi, s2NHG, i)
    {
      FirstTunnelClosedForm(numNHG, multi, i);
      RepairSuccessor(numNHG, multi, s2NHG, i);
      if i < numNHG / 2 || !multi {
        var nhEntry := NhEntry(NH_BASE_REPAIR + nhIdx,
                               DecapEncap(V4(OUTER_SRC_222), V4(tunnelDsts[nhIdx]), TransitVrf222));
        var nhgEntry := NhgEntry(NHG_BASE_REPAIR + i, Group([Hop(NH_BASE_REPAIR + nhIdx, 1)], Some(s2NHG)));
        assert [nhEntry, nhgEntry] == RepairStep(numNHG, multi, s2NHG, i);
        entries := entries + [nhEntry, nhgEntry];
        nhIdx := nhIdx + 1;
      } else {
        var nh0 := NhEntry(NH_BASE_REPAIR + nhIdx, DecapEncap(V4(OUTER_SRC_222), V4(tunnelDsts[nhIdx]), TransitVrf222));
        var nh1 := NhEntry(NH_BASE_REPAIR + nhIdx + 1,
                           DecapEncap(V4(OUTER_SRC_222), V4(tunnelDsts[nhIdx + 1]), TransitVrf222));
        var nhgEntry := NhgEntry(NHG_BASE_REPAIR + i,
                                 Group([Hop(NH_BASE_REPAIR + nhIdx, 1), Hop(NH_BASE_REPAIR + nhIdx + 1, 1)],
                                       Some(s2NHG)));
        assert [nh0, nh1, nhgEntry] == RepairStep(numNHG, multi, s2NHG, i);
        entries := entries + [nh0, nh1, nhgEntry];
        nhIdx := nhIdx + 2;
      }
    }
  }

  /** The prefix loop. */
  method BuildRepairRoutes(p: ScaleParams, repairPrefixes: seq<nat>) returns (entries: seq<Entry>)
    requires p.numRepairNHG > 0 && p.numRepairIPv4 > 0
    requires repairPrefixes == Progression(TRANSIT_111_START, p.numRepairIPv4, 1)
    ensures entries == HostRoutes(RepairVrf, V4(TRANSIT_111_START), RepairTargets(p))
  {
    entries := [];
    ghost var routes := HostRoutes(RepairVrf, V4(TRANSIT_111_START), RepairTargets(p));
    for i := 0 to |repairPrefixes|
      invariant entries == routes[..i]
    {
      entries := entries +
        [Route(RepairVrf, HostPrefix(V4(repairPrefixes[i])), NHG_BASE_REPAIR + i % p.numRepairNHG)];
    }
  }

  /** BuildRepairVRF; multi says whether the device repairs into several tunnels. */
  method BuildRepairVRF(p: ScaleParams, multi: bool, s2NHG: nat) returns (r: Result<seq<Entry>>)
    requires RepairCountsSafe(p)
    ensures r.Ok? <==> RepairFits(p)
    ensures r.Ok? ==> p.numRepairNHG > 0 && r.value == RepairEntries(p, multi, s2NHG)
  {
    hide Generated, RepairFits, Progression, RepairNhNhg;
    RepairFitsIffGenerated(p);
    var tunnelDsts := GenerateIPsWithStep(Some(TRANSIT_222_START), p.numRepairNHG * 2, Some(1));
    if tunnelDsts.Fatal? {
      return Fatal(tunnelDsts.error);
    }
    var nhNhgEntries := BuildRepairGroups(p.numRepairNHG, multi, s2NHG, tunnelDsts.value);
    var repairPrefixes := GenerateIPsWithStep(Some(TRANSIT_111_START), p.numRepairIPv4, Some(1));
    if repairPrefixes.Fatal? {
      return Fatal(repairPrefixes.error);
    }
    var routes := BuildRepairRoutes(p, repairPrefixes.value);
    r := Ok(nhNhgEntries + routes);
  }

  lemma StepTables(numNHG: nat, multi: bool, s2: nat, i: nat, id: nat)
    ensures var f := FirstTunnel(numNHG, multi, i);
            LastNh(RepairStep(numNHG, multi, s2, i), id) ==
            if NH_BASE_REPAIR + f <= id < NH_BASE_REPAIR + FirstTunnel(numNHG, multi, i + 1)
            then Some(Tunnel(id - NH_BASE_REPAIR)) else None
    ensures LastNhg(RepairStep(numNHG, multi, s2, i), id) ==
            if id == NHG_BASE_REPAIR + i then Some(RepairGroup(numNHG, multi, s2, i)) else None
  {
    hide LastNh, LastNhg, RepairGroup;
    var f := FirstTunnel(numNHG, multi, i);
    var nhs := if TwoTunnels(numNHG, multi, i) then [Tunnel(f), Tunnel(f + 1)] else [Tunnel(f)];
    var layer := NhLayer(NH_BASE_REPAIR + f, nhs);
    var group := RepairGroup(numNHG, multi, s2, i);
    var tail := NhgLayer(NHG_BASE_REPAIR + i, [group]);
    assert tail == [NhgEntry(NHG_BASE_REPAIR + i, group)];
    LastNhConcat(layer, tail, id);
    LastNhgConcat(layer, tail, id);
    NoNh(tail, id);
    NoNhg(layer, id);
    LastNhLayer(NH_BASE_REPAIR + f, nhs, id);
    LastNhgLayer(NHG_BASE_REPAIR + i, [group], id);
  }

  /** The interleaved stream holds all tunnels and all groups, under consecutive ids. */
  lemma {:induction false} RepairNhNhgTables(numNHG: nat, multi: bool, s2: nat, n: nat, id: nat)
    ensures LastNh(RepairNhNhg(numNHG, multi, s2, n), id) ==
            At(Tunnels(FirstTunnel(numNHG, multi, n)), NH_BASE_REPAIR, id)
    ensures LastNhg(RepairNhNhg(numNHG, multi, s2, n), id) ==
            At(RepairGroups(numNHG, multi, s2, n), NHG_BASE_REPAIR, id)
  {
    hide LastNh, LastNhg, RepairGroup, RepairStep, Tunnel;
    if n == 0 {
      NoNh([], id);
      NoNhg([], id);
    } else {
      var front, step := RepairNhNhg(numNHG, multi, s2, n - 1), RepairStep(numNHG, multi, s2, n - 1);
      RepairNhNhgTables(numNHG, multi, s2, n - 1, id);
      StepTables(numNHG, multi, s2, n - 1, id);
      LastNhConcat(front, step, id);
      LastNhgConcat(front, step, id);
    }
  }

  lemma {:induction false} RepairNhNhgHasNoRoute(numNHG: nat, multi: bool, s2: nat, n: nat, vrf: Vrf, prefix: Prefix)
    ensures LastRoute(RepairNhNhg(numNHG, multi, s2, n), vrf, prefix) == None
  {
    hide LastRoute, FirstTunnel, RepairGroup;
    if n == 0 {
      NoRoute([], vrf, prefix);
    } else {
      var front, step := RepairNhNhg(numNHG, multi, s2, n - 1), RepairStep(numNHG, multi, s2, n - 1);
      RepairNhNhgHasNoRoute(numNHG, multi, s2, n - 1, vrf, prefix);
      NoRoute(step, vrf, prefix);
      LastRouteConcat(front, step, vrf, prefix);
    }
  }

  /** What the repair VRF's entries leave in the tables. */
  lemma RepairTables(p: ScaleParams, multi: bool, s2: nat, id: nat, vrf: Vrf, prefix: Prefix)
    requires p.numRepairNHG > 0
    ensures LastNh(RepairEntries(p, multi, s2), id) ==
            At(Tunnels(FirstTunnel(p.numRepairNHG, multi, p.numRepairNHG)), NH_BASE_REPAIR, id)
    ensures LastNhg(RepairEntries(p, multi, s2), id) ==
            At(RepairGroups(p.numRepairNHG, multi, s2, p.numRepairNHG), NHG_BASE_REPAIR, id)
    ensures LastRoute(RepairEntries(p, multi, s2), vrf, prefix) ==
            if vrf == RepairVrf then HostAt(RepairTargets(p), V4(TRANSIT_111_START), prefix) else None
  {
    hide LastNh, LastNhg, LastRoute, At, HostAt, RepairNhNhg, RepairTargets, Tunnels, RepairGroups, FirstTunnel;
    var front := RepairNhNhg(p.numRepairNHG, multi, s2, p.numRepairNHG);
    var routes := HostRoutes(RepairVrf, V4(TRANSIT_111_START), RepairTargets(p));
    RepairNhNhgTables(p.numRepairNHG, multi, s2, p.numRepairNHG, id);
    RepairNhNhgHasNoRoute(p.numRepairNHG, multi, s2, p.numRepairNHG, vrf, prefix);
    LastNhConcat(front, routes, id);
    LastNhgConcat(front, routes, id);
    LastRouteConcat(front, routes, vrf, prefix);
    NoNh(routes, id);
    NoNhg(routes, id);
    LastHostRoute(RepairVrf, V4(TRANSIT_111_START), RepairTargets(p), vrf, prefix);
  }

  lemma StepGrounded(base: seq<Entry>, numNHG: nat, multi: bool, s2: nat, i: nat)
    requires LastNhg(base, s2).Some?
    ensures Grounded(base, RepairStep(numNHG, multi, s2, i))
  {
    hide LastNhg, FirstTunnel, Grounded;
    var f := FirstTunnel(numNHG, multi, i);
    var nhs := if TwoTunnels(numNHG, multi, i) then [Tunnel(f), Tunnel(f + 1)] else [Tunnel(f)];
    var group := RepairGroup(numNHG, multi, s2, i);
    LayeredGrounded(base, NH_BASE_REPAIR + f, nhs, NHG_BASE_REPAIR + i, [group], []);
    var a, b := NhLayer(NH_BASE_REPAIR + f, nhs), NhgLayer(NHG_BASE_REPAIR + i, [group]);
    assert b == [NhgEntry(NHG_BASE_REPAIR + i, group)];
    assert a + b + [] == RepairStep(numNHG, multi, s2, i);
  }

  lemma {:induction false} RepairNhNhgGrounded(base: seq<Entry>, numNHG: nat, multi: bool, s2: nat, n: nat)
    requires LastNhg(base, s2).Some?
    ensures Grounded(base, RepairNhNhg(numNHG, multi, s2, n))
  {
    hide LastNhg, RepairStep;
    if n > 0 {
      var front := RepairNhNhg(numNHG, multi, s2, n - 1);
      RepairNhNhgGrounded(base, numNHG, multi, s2, n - 1);
      LastNhgConcat(base, front, s2);
      StepGrounded(base + front, numNHG, multi, s2, n - 1);
      GroundedConcat(base, front, RepairStep(numNHG, multi, s2, n - 1));
    }
  }

  /** The repair VRF's entries come in dependency order once S2 is installed. */
  lemma RepairGrounded(base: seq<Entry>, p: ScaleParams, multi: bool, s2: nat)
    requires p.numRepairNHG > 0 && LastNhg(base, s2).Some?
    ensures Grounded(base, RepairEntries(p, multi, s2))
  {
    hide LastNhg, RepairNhNhg, Grounded;
    var front := RepairNhNhg(p.numRepairNHG, multi, s2, p.numRepairNHG);
    var routes := HostRoutes(RepairVrf, V4(TRANSIT_111_START), RepairTargets(p));
    RepairNhNhgGrounded(base, p.numRepairNHG, multi, s2, p.numRepairNHG);
    forall k | 0 <= k < |routes|
      ensures Satisfied(routes[k], base + front)
    {
      LastNhgConcat(base, front, routes[k].nhg);
      RepairNhNhgTables(p.numRepairNHG, multi, s2, p.numRepairNHG, routes[k].nhg);
    }
    GroundedInBase(base + front, routes);
    GroundedConcat(base, front, routes);
  }

  /** Every tunnel belongs to exactly one group. */
  lemma {:induction false} TunnelOwner(numNHG: nat, multi: bool, n: nat, k: nat) returns (i: nat)
    requires k < FirstTunnel(numNHG, multi, n)
    ensures i < n && FirstTunnel(numNHG, multi, i) <= k < FirstTunnel(numNHG, multi, i + 1)
  {
    if k >= FirstTunnel(numNHG, multi, n - 1) {
      i := n - 1;
    } else {
      i := TunnelOwner(numNHG, multi, n - 1, k);
    }
  }

  lemma TunnelOwnerUnique(numNHG: nat, multi: bool, i: nat, j: nat, k: nat)
    requires FirstTunnel(numNHG, multi, i) <= k < FirstTunnel(numNHG, multi, i + 1)
    requires FirstTunnel(numNHG, multi, j) <= k < FirstTunnel(numNHG, multi, j + 1)
    ensures i == j
  {
    FirstTunnelClosedForm(numNHG, multi, i);
    FirstTunnelClosedForm(numNHG, multi, i + 1);
    FirstTunnelClosedForm(numNHG, multi, j);
    FirstTunnelClosedForm(numNHG, multi, j + 1);
  }
}
