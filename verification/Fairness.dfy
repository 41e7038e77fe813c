/**
 * Fair use of next-hops: the groups of each VRF together reference every next-hop of their
 * range equally often, up to one.
 */
module Fairness {
  import opened IpUtil
  import opened Rib
  import opened Params
  import opened RoundRobin
  import opened DefaultVrfBuilder
  import opened TransitBuilder
  import opened EncapDecapBuilder

  /** References of a list of groups to one next-hop. */
  function Refs(groups: seq<Group>, id: nat): nat {
    if groups == [] then 0 else Refs(groups[..|groups| - 1], id) + HopRefs(groups[|groups| - 1].hops, id)
  }

  /** References of a list of groups in all. */
  function TotalRefs(groups: seq<Group>): nat {
    if groups == [] then 0 else TotalRefs(groups[..|groups| - 1]) + |groups[|groups| - 1].hops|
  }

  /** The fair share of next-hop j of n when t references are dealt in turn. */
  function FairShare(t: nat, n: nat, j: nat): nat
    requires n > 0
  {
    t / n + if j < t % n then 1 else 0
  }

  lemma {:induction false} RefsAre(baseNH: nat, n: nat, ws: seq<seq<nat>>, backup: Option<nat>, id: nat, m: nat)
    requires m <= |ws|
    ensures var gs := GroupsOver(baseNH, n, ws, backup)[..m];
            Refs(gs, id) == GroupRefs(baseNH, n, ws, id, m) && TotalRefs(gs) == Offset(ws, m)
  {
    hide HopRefs, HopsFrom;
    if m > 0 {
      RefsAre(baseNH, n, ws, backup, id, m - 1);
      var gs := GroupsOver(baseNH, n, ws, backup);
      assert gs[..m][..m - 1] == gs[..m - 1] && gs[..m][m - 1] == gs[m - 1];
    }
  }

  lemma GroupsFair(baseNH: nat, n: nat, ws: seq<seq<nat>>, backup: Option<nat>, j: nat)
    requires j < n
    ensures var gs := GroupsOver(baseNH, n, ws, backup); Refs(gs, baseNH + j) == FairShare(TotalRefs(gs), n, j)
  {
    hide Refs, TotalRefs, GroupRefs, Offset;
    var gs := GroupsOver(baseNH, n, ws, backup);
    RefsAre(baseNH, n, ws, backup, baseNH + j, |ws|);
    assert gs[..|ws|] == gs;
    RoundRobinFair(baseNH, n, ws, j);
  }

  /** Both halves of the default VRF. */
  lemma DefaultFair(p: ScaleParams, j: nat)
    requires ValidParams(p) && j < NhPart(p)
    ensures Refs(PrimaryGroups(p), NH_BASE_DEFAULT + j) == FairShare(TotalRefs(PrimaryGroups(p)), NhPart(p), j)
    ensures Refs(BackupGroups(p), NH_BASE_DEFAULT + NhPart(p) + j) ==
            FairShare(TotalRefs(BackupGroups(p)), NhPart(p), j)
  {
    hide ValidParams, Refs, TotalRefs, FairShare, Half, GroupsOver, DefaultWeights;
    GroupsFair(NH_BASE_DEFAULT, NhPart(p), DefaultWeights(p), None, j);
    GroupsFair(NH_BASE_DEFAULT + NhPart(p), NhPart(p), DefaultWeights(p), None, j);
  }

  /** Either side of the transit VRFs. */
  lemma TransitFair(p: ScaleParams, s: Side, j: nat)
    requires ValidParams(p) && j < s.nhCount
    ensures Refs(SideGroups(p, s), s.baseNH + j) == FairShare(TotalRefs(SideGroups(p, s)), s.nhCount, j)
  {
    hide ValidParams, Refs, TotalRefs, FairShare, GroupsOver, SideWeights;
    GroupsFair(s.baseNH, s.nhCount, SideWeights(p, s), Some(s.backup), j);
  }

  /** All encap VRFs together: the turn carries over from one VRF to the next. */
  lemma EncapFair(p: ScaleParams, j: nat)
    requires ValidParams(p) && j < p.numUniqueEncapNH
    ensures Refs(EncapGroups(p), FIRST_ENCAP_NH + j) == FairShare(TotalRefs(EncapGroups(p)), p.numUniqueEncapNH, j)
  {
    hide ValidParams, Refs, TotalRefs, FairShare, GroupsOver, EncapWeights;
    GroupsFair(FIRST_ENCAP_NH, p.numUniqueEncapNH, EncapWeights(p), None, j);
  }
}
