/** The five shipped targets: what the general results say of their scale parameters. */
module Targets {
  import opened GoInts
  import opened Seqs
  import opened IpUtil
  import opened Rib
  import opened Params
  import opened NhgWeights
  import opened NhgPartition
  import opened RepairBuilder
  import opened Integrity
  import opened FullRun
  import opened Ids
  import opened ProgrammedTables
  import opened FastReroute
  import opened DecapTable
  import opened Flows
  import opened EndToEnd
  import opened RepairTest
  import opened Isolation
  import opened Forwarding
  import opened Loops
  import opened BucketIterator
  import opened RoundRobin
  import opened DefaultVrfBuilder
  import opened GroupWeights
  import opened Conservation
  import opened Sharing

  const DOWN := ScaleParams(
    256,
    2, 2, [LbParam(100, 2)], [WeightParam(100, ECMP)], 2,
    2, 2, [LbParam(100, 2)], [WeightParam(100, WCMP(64))], 1,
    1, 1,
    1, 1, 1, [LbParam(100, 1)], [WeightParam(100, WCMP(32))], 1, 1,
    1, 100, 1_000, 2)

  const DEFAULT_LB := [LbParam(40, 8), LbParam(40, 16), LbParam(15, 32), LbParam(5, 64)]
  const ENCAP_LB := [LbParam(75, 4), LbParam(20, 8), LbParam(3, 16), LbParam(2, 32)]
  const ENCAP_WT := [WeightParam(75, WCMP(32)), WeightParam(20, WCMP(64)), WeightParam(3, WCMP(128)),
                     WeightParam(2, WCMP(256))]

  /** What the four full-size targets share; pct512 of the default groups have granularity 512. */
  function FullSize(pct512: int, transitIPv4: int, repairNHG: int, encapVRFs: int, encapNH: int, encapNHG: int,
                    encapV4: int, encapV6: int, decap: int, batch: int, mpps: nat): ScaleParams
  {
    ScaleParams(
      batch,
      1_000, 1_000, DEFAULT_LB, [WeightParam(pct512, WCMP(512)), WeightParam(100 - pct512, WCMP(1024))], 1_000,
      4_000, 2_000, [LbParam(100, 2)], [WeightParam(100, WCMP(64))], transitIPv4,
      transitIPv4, repairNHG,
      encapVRFs, encapNH, encapNHG, ENCAP_LB, ENCAP_WT, encapV4, encapV6,
      decap, 100, mpps, 640)
  }

  const T0 := FullSize(80, 12_600, 1_000, 5, 10_000, 2_500, 3_150, 3_850, 8, 256, 100_000)
  const T1 := FullSize(80, 17_500, 1_000, 5, 14_000, 3_500, 4_140, 5_060, 20, 2_000, 30_000_000)
  const T2 := FullSize(70, 200_000, 1_000, 16, 16_000, 4_000, 9_000, 11_000, 50, 2_000, 30_000_000)
  const T3 := FullSize(70, 200_000, 2_000, 16, 32_000, 8_000, 9_000, 11_000, 50, 2_000, 30_000_000)

  lemma OneBucketValid(n: int, w: WeightConfig)
    requires n > 0 && ValidConfig(w)
    ensures ValidLoadBalance([LbParam(100, n)]) && ValidWeight([WeightParam(100, w)])
  {
    assert LbPcts([LbParam(100, n)]) == [100] && WeightPcts([WeightParam(100, w)]) == [100];
    SumOfOne(100);
  }

  lemma FourBucketsValid()
    ensures ValidLoadBalance(DEFAULT_LB) && ValidLoadBalance(ENCAP_LB) && ValidWeight(ENCAP_WT)
  {
    assert LbPcts(DEFAULT_LB) == [40, 40, 15, 5];
    assert LbPcts(ENCAP_LB) == [75, 20, 3, 2];
    assert WeightPcts(ENCAP_WT) == [75, 20, 3, 2];
    SumOfFour(40, 40, 15, 5);
    SumOfFour(75, 20, 3, 2);
  }

  lemma TwoBucketsValid(pct512: int)
    requires 0 <= pct512 <= 100
    ensures ValidWeight([WeightParam(pct512, WCMP(512)), WeightParam(100 - pct512, WCMP(1024))])
  {
    assert WeightPcts([WeightParam(pct512, WCMP(512)), WeightParam(100 - pct512, WCMP(1024))]) ==
           [pct512, 100 - pct512];
    SumOfTwo(pct512, 100 - pct512);
  }

  lemma DownValid()
    ensures ValidParams(DOWN)
  {
    hide ValidLoadBalance, ValidWeight;
    OneBucketValid(2, ECMP);
    OneBucketValid(2, WCMP(64));
    OneBucketValid(1, WCMP(32));
  }

  lemma DownPlans(multi: bool)
    ensures CountsSafe(DOWN) && AddressesFit(DOWN) && NhgPlan(DOWN) && NhPlan(DOWN, multi)
  {
    hide ValidParams, FirstTunnel, PrimaryPrefixes, BackupPrefixes;
    FirstTunnelClosedForm(DOWN.numRepairNHG, multi, DOWN.numRepairNHG);
  }

  lemma DownProgrammed(multi: bool)
    ensures Programmed(DOWN, multi)
  {
    hide ValidParams, CountsSafe, AddressesFit, NhPlan, NhgPlan;
    DownValid();
    DownPlans(multi);
  }

  lemma FullSizeValid(p: ScaleParams)
    requires p in {T0, T1, T2, T3}
    ensures ValidParams(p)
  {
    hide ValidLoadBalance, ValidWeight;
    FourBucketsValid();
    TwoBucketsValid(80);
    TwoBucketsValid(70);
    OneBucketValid(2, WCMP(64));
  }

  lemma FullSizePlans(p: ScaleParams, multi: bool)
    requires p in {T0, T1, T2, T3}
    ensures CountsSafe(p) && AddressesFit(p) && NhgPlan(p) && NhPlan(p, multi)
  {
    hide ValidParams, FirstTunnel, PrimaryPrefixes, BackupPrefixes;
    FirstTunnelClosedForm(p.numRepairNHG, multi, p.numRepairNHG);
  }

  lemma FullSizeProgrammed(p: ScaleParams, multi: bool)
    requires p in {T0, T1, T2, T3}
    ensures Programmed(p, multi)
  {
    hide ValidParams, CountsSafe, AddressesFit, NhPlan, NhgPlan;
    FullSizeValid(p);
    FullSizePlans(p, multi);
  }

  /** Every full-size target repairs every packet, on every kind of device. */
  lemma FullSizeTargetsReroute(p: ScaleParams, multi: bool, track: bool)
    requires p in {T0, T1, T2, T3}
    ensures Programmed(p, multi) && Reroutes(p, multi, track)
  {
    hide Programmed, Reroutes, FirstTunnel;
    FullSizeProgrammed(p, multi);
    FastRerouteIff(p, multi, track);
    var m := Min(p.numTransitIPv4, p.numRepairNHG);
    FirstTunnelClosedForm(p.numRepairNHG, multi, m);
    FirstTunnelClosedForm(p.numRepairNHG, multi, m - 1);
  }

  /** Every flow of a full-size target takes its path, and both recorded expectations hold. */
  lemma FullSizeTargetsAsExpected(p: ScaleParams, multi: bool, track: bool, compact: bool, testRepair: bool)
    requires p in {T0, T1, T2, T3}
    ensures Programmed(p, multi) && FlowCounts(p) && p.numRepairNHG > 0 && p.numTransitIPv4 > 0
    ensures AllOnPath(p, multi, track, compact) && AllRepaired(p, multi, track, compact)
    ensures AllAsExpected(p, multi, track, compact, testRepair)
  {
    hide Programmed, Reroutes, FrrCondition, AllAsExpected, AllOnPath, AllRepaired;
    FullSizeTargetsReroute(p, multi, track);
    FastRerouteIff(p, multi, track);
    DecapBase();
    RepairTestIff(p, multi, track, compact);
    EndToEndIff(p, multi, track, compact);
  }

  /**
   * The scaled-down target does not, on a device that repairs into several tunnels and does
   * not track them: its one repair group has two tunnels, and TE_VRF_222 one prefix.
   */
  lemma DownTargetReroutesIff(multi: bool, track: bool)
    ensures Programmed(DOWN, multi)
    ensures Reroutes(DOWN, multi, track) <==> !multi || track
  {
    hide Programmed, Reroutes, FirstTunnel;
    DownProgrammed(multi);
    FastRerouteIff(DOWN, multi, track);
    FirstTunnelClosedForm(1, multi, 1);
    FirstTunnelClosedForm(1, multi, 0);
  }

  /** So the expectation of its repair test can fail there, although that of its other test holds. */
  lemma DownTargetAsExpectedIff(multi: bool, track: bool, compact: bool)
    ensures Programmed(DOWN, multi) && FlowCounts(DOWN)
    ensures AllOnPath(DOWN, multi, track, compact) && AllAsExpected(DOWN, multi, track, compact, false)
    ensures AllAsExpected(DOWN, multi, track, compact, true) <==> !multi || track
  {
    hide Programmed, Reroutes, FrrCondition, AllAsExpected, AllOnPath;
    DownTargetReroutesIff(multi, track);
    FastRerouteIff(DOWN, multi, track);
    DecapBase();
    RepairTestIff(DOWN, multi, track, compact);
    EndToEndIff(DOWN, multi, track, compact);
  }

  /** The full-size targets have more next-hops per half than VLANs, so next-hops share VLANs. */
  lemma FullSizeTargetsShareVlans(p: ScaleParams)
    requires p in {T0, T1, T2, T3}
    ensures !Distinct(DefaultNextHops(p))
  {
    hide Distinct, DefaultNextHops;
    OwnVlanIff(p);
  }

  /** Parameters that validate and complete, but leave TE_VRF_222 routes without their group. */
  lemma NoTransitGroupDangles(multi: bool)
    ensures var p := DOWN.(numTransitNHG := 0);
            Completes(p) && !ClosedThroughout(Stream(p, multi))
  {
    hide ValidLoadBalance, ValidWeight, ClosedThroughout, Stream;
    var p := DOWN.(numTransitNHG := 0);
    OneBucketValid(2, ECMP);
    OneBucketValid(2, WCMP(64));
    OneBucketValid(1, WCMP(32));
    IntegrityIff(p, multi);
  }

  /** Parameters that validate and complete, but whose group ids collide so that a packet can circle for ever. */
  lemma CollidingTargetLoops(multi: bool, up: set<nat>, track: bool, pkt: Packet, n: nat)
    requires n > 0
    ensures var p := DOWN.(numDefaultNHG := 36_000, numDefaultIPv4 := 1);
            && Completes(p) && !NhgPlan(p)
            && IsRun(SwitchAfter(p, multi, up, track), seq(n, _ => Routing(DefaultVrf, ONLY_PREFIX, pkt)))
  {
    hide ValidLoadBalance, ValidWeight, IsRun, SwitchAfter;
    var p := DOWN.(numDefaultNHG := 36_000, numDefaultIPv4 := 1);
    OneBucketValid(2, ECMP);
    OneBucketValid(2, WCMP(64));
    OneBucketValid(1, WCMP(32));
    assert Collides(p, 0);
    CollidingIdsLoop(p, multi, up, track, 0, pkt, n);
  }

  // The tables of target T0, in numbers.

  lemma T0Quotas()
    ensures LbPcts(T0.defaultNHGLoadBalance) == [40, 40, 15, 5] && WeightPcts(T0.defaultNHGWeight) == [80, 20]
    ensures Quotas(500, [40, 40, 15, 5]) == [200, 200, 75, 25] && Quotas(500, [80, 20]) == [400, 100]
  {
    assert LbPcts(T0.defaultNHGLoadBalance) == [40, 40, 15, 5];
    assert WeightPcts(T0.defaultNHGWeight) == [80, 20];
    assert Shares100(500, [40, 40, 15, 5]) == [200, 200, 75, 25];
    SumOfFour(200, 200, 75, 25);
    assert Shares100(500, [80, 20]) == [400, 100];
    SumOfTwo(400, 100);
  }

  const EIGHT_HOPS := [Hop(1_000, 64), Hop(1_001, 64), Hop(1_002, 64), Hop(1_003, 64), Hop(1_004, 64), Hop(1_005, 64),
                       Hop(1_006, 63), Hop(1_007, 65)]

  /** The first default group has eight next-hops, from 1000 on, with weights 64 six times, 63 and 65. */
  lemma T0FirstGroup(p: ScaleParams, multi: bool)
    requires p == T0
    ensures Programmed(p, multi)
    ensures Get(ProgrammedTable(p, multi).nhgs, 2_000) == Some(Group(EIGHT_HOPS, None))
  {
    hide Completes, NhPlan, NhgPlan, ProgrammedTable, Shares, Start, Quotas, SumTo, AllPositive, AllEqual, TakesTurns;
    FullSizeProgrammed(p, multi);
    T0Shares();
    T0FirstFollows(p, multi);
    T0NoBackup(p, multi);
    var g := ProgrammedTable(p, multi).nhgs[2_000];
    forall k | 0 <= k < 8
      ensures g.hops[k] == EIGHT_HOPS[k]
    {
      assert g.hops[k] == Hop(g.hops[k].nh, Weights(g)[k]);
    }
    assert g.hops == EIGHT_HOPS;
    assert g == Group(g.hops, g.backup);
  }

  ghost predicate EightShares(t: Table) {
    && 2_000 in t.nhgs
    && var g := t.nhgs[2_000];
       |g.hops| == 8 && Weights(g) == Shares(512, 8) && forall k :: 0 <= k < 8 ==> g.hops[k].nh == 1_000 + k
  }

  lemma T0FirstFollows(p: ScaleParams, multi: bool)
    requires Programmed(p, multi) && p == T0
    ensures EightShares(ProgrammedTable(p, multi))
  {
    hide Completes, NhPlan, NhgPlan, ProgrammedTable, Shares, Start, Quotas, SumTo, AllPositive, AllEqual;
    T0Quotas();
    T0Counts();
    DefaultGroupsFollow(p, multi, 0);
    DefaultGroupsTakeTurns(p, multi);
    StartsAtZero([200, 200, 75, 25]);
    StartsAtZero([400, 100]);
    var t := ProgrammedTable(p, multi);
    assert Falls([200, 200, 75, 25], 0, 0) && Falls([400, 100], 0, 0);
    var g := t.nhgs[2_000];
    assert |g.hops| == 8 && Weights(g) == Shares(512, 8);
    assert HopsAt(t, 2_000, 0) == g.hops && HopsBefore(t, 2_000, 0) == 0;
    forall k | 0 <= k < 8
      ensures g.hops[k].nh == 1_000 + k
    {
      assert HopsAt(t, 2_000, 0)[k].nh == 1_000 + (0 + k) % 500;
      ModSmall(k, 500);
    }
  }

  lemma T0Counts()
    ensures NhPart(T0) == 500 && NhgPart(T0) == 500
  {
  }

  lemma T0NoBackup(p: ScaleParams, multi: bool)
    requires Programmed(p, multi) && p == T0
    ensures 2_000 in ProgrammedTable(p, multi).nhgs && ProgrammedTable(p, multi).nhgs[2_000].backup == None
  {
    hide Completes, NhPlan, NhgPlan, ProgrammedTable, GroupsOver;
    T0Counts();
    DefaultInstalled(p, multi);
    assert Get(ProgrammedTable(p, multi).nhgs, NHG_BASE_DEFAULT + 0) == Some(PrimaryGroups(p)[0]);
    DefaultGroupShape(p, 0);
  }

  lemma StartsAtZero(q: seq<int>)
    requires |q| >= 2 && q[0] >= 1
    ensures Start(q, 0) == 0 && Start(q, 1) >= 1
  {
    assert Start(q, 1) == Start(q, 0) + EffectiveQuotas(q)[0];
  }

  lemma T0Shares()
    ensures Shares(512, 8) == [64, 64, 64, 64, 64, 64, 63, 65]
  {
  }

  /** Sizes, the second encap tunnel to 100.0.0.2, and the last default next-hop to VLAN 499. */
  predicate T0Holds(t: Table, multi: bool) {
    && |t.nhs| == (if multi then 16_511 else 16_011)
    && |t.nhgs| == 6_511
    && Get(t.nhs, 50_002) == Some(Encap(V4(0xC633_646F), V4(0x6400_0002), TransitVrf111))
    && Get(t.nhs, 1_999) == Some(ToAddress(V4(0xC133_0002 + 4 * 499)))
  }

  /** How many entries T0 leaves, and where its encap tunnels go. */
  lemma T0Tables(p: ScaleParams, multi: bool)
    requires p == T0
    ensures Programmed(p, multi)
    ensures T0Holds(ProgrammedTable(p, multi), multi)
  {
    hide Completes, NhPlan, NhgPlan, ProgrammedTable;
    FullSizeProgrammed(p, multi);
    TableSizes(p, multi);
    EncapHopIs(p, multi, 1);
    T0Counts();
    BackupLinkAt(p, multi, 499);
  }
}
