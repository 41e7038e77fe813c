/**
 * BuildDefaultVRF: next-hops that leave the switch on a VLAN, groups over them, and one host
 * prefix per slot, each split into a primary and a backup half.
 */
module DefaultVrfBuilder {
  import opened GoInts
  import opened IpUtil
  import opened Rib
  import opened Params
  import opened RoundRobin
  import opened BucketIterator
  import opened NhgPartition
  import opened Integrity

  function NhPart(p: ScaleParams): nat { Half(p.numDefaultNH) }
  function NhgPart(p: ScaleParams): nat { Half(p.numDefaultNHG) }
  function Ipv4Part(p: ScaleParams): nat { Half(p.numDefaultIPv4) }

  function AteIp(vlan: nat): Addr {
    V4(ATE_PORT2_START + vlan * PORT_STEP)
  }

  /** The VLAN index of the i-th next-hop of either half. */
  function PrimaryVlan(p: ScaleParams, i: nat): nat {
    i % PrimaryVlans(p)
  }

  function BackupVlan(p: ScaleParams, i: nat): nat {
    var backup := p.numPort2VLANs - PrimaryVlans(p);
    if backup > 0 then PrimaryVlans(p) + i % backup else i % PrimaryVlans(p)
  }

  lemma VlansInRange(p: ScaleParams, i: nat)
    requires p.numPort2VLANs > 0
    ensures PrimaryVlan(p, i) < p.numPort2VLANs && BackupVlan(p, i) < p.numPort2VLANs
    ensures PrimaryVlan(p, i) < PrimaryVlans(p) <= p.numPort2VLANs
    ensures BackupVlan(p, i) < PrimaryVlans(p) <==> p.numPort2VLANs == 1
  {
  }

  function PrimaryNextHops(p: ScaleParams): (s: seq<NextHop>)
    ensures |s| == NhPart(p)
  {
    seq(NhPart(p), i requires 0 <= i < NhPart(p) => ToAddress(AteIp(PrimaryVlan(p, i))))
  }

  function BackupNextHops(p: ScaleParams): (s: seq<NextHop>)
    ensures |s| == NhPart(p)
  {
    seq(NhPart(p), i requires 0 <= i < NhPart(p) => ToAddress(AteIp(BackupVlan(p, i))))
  }

  ghost function DefaultWeights(p: ScaleParams): (ws: seq<seq<nat>>)
    requires ValidParams(p)
    ensures |ws| == NhgPart(p)
  {
    CallWeights(NhgPart(p), p.defaultNHGLoadBalance, p.defaultNHGWeight, NhPart(p))
  }

  ghost function PrimaryGroups(p: ScaleParams): (gs: seq<Group>)
    requires ValidParams(p)
    ensures |gs| == NhgPart(p)
  {
    GroupsOver(NH_BASE_DEFAULT, NhPart(p), DefaultWeights(p), None)
  }

  ghost function BackupGroups(p: ScaleParams): (gs: seq<Group>)
    requires ValidParams(p)
    ensures |gs| == NhgPart(p)
  {
    GroupsOver(NH_BASE_DEFAULT + NhPart(p), NhPart(p), DefaultWeights(p), None)
  }

  /** First backup prefix; a single address serves both halves. */
  function BackupStart(p: ScaleParams): nat {
    if p.numDefaultIPv4 >= 2 then DEFAULT_PREFIX_START + Ipv4Part(p) else DEFAULT_PREFIX_START
  }

  /** n route targets that cycle through the groups base .. base + groups - 1. */
  function Cycle(base: nat, groups: nat, n: nat): (s: seq<nat>)
    requires groups > 0
    ensures |s| == n
    ensures forall i :: 0 <= i < n ==> base <= s[i] < base + groups
  {
    seq(n, i requires 0 <= i < n => base + i % groups)
  }

  function PrimaryTargets(p: ScaleParams): (s: seq<nat>)
    ensures |s| == Ipv4Part(p)
  {
    Cycle(NHG_BASE_DEFAULT, NhgPart(p), Ipv4Part(p))
  }

  function BackupTargets(p: ScaleParams): (s: seq<nat>)
    ensures |s| == Ipv4Part(p)
  {
    Cycle(NHG_BASE_DEFAULT + NhgPart(p), NhgPart(p), Ipv4Part(p))
  }

  function DefaultRoutes(p: ScaleParams): (s: seq<Entry>)
    ensures forall i :: 0 <= i < |s| ==> s[i].Route?
  {
    HostRoutes(DefaultVrf, V4(DEFAULT_PREFIX_START), PrimaryTargets(p))
    + HostRoutes(DefaultVrf, V4(BackupStart(p)), BackupTargets(p))
  }

  ghost function DefaultEntries(p: ScaleParams): seq<Entry>
    requires ValidParams(p)
  {
    NhLayer(NH_BASE_DEFAULT, PrimaryNextHops(p) + BackupNextHops(p))
    + NhgLayer(NHG_BASE_DEFAULT, PrimaryGroups(p) + BackupGroups(p))
    + DefaultRoutes(p)
  }

  /** The address plan of the default VRF can be generated. */
  predicate DefaultAddressesFit(p: ScaleParams) {
    && p.numDefaultIPv4 >= 0
    && DEFAULT_PREFIX_START + p.numDefaultIPv4 <= TWO_32
    && (p.numPort2VLANs > 0 ==> ATE_PORT2_START + PORT_STEP * (p.numPort2VLANs - 1) < TWO_32)
  }

  lemma FitIffGenerated(p: ScaleParams)
    requires p.numPort2VLANs > 0 && p.numDefaultIPv4 != 0
    ensures DefaultAddressesFit(p) <==>
            && Generated(Some(ATE_PORT2_START), p.numPort2VLANs, Some(PORT_STEP)).Ok?
            && Generated(Some(DEFAULT_PREFIX_START), p.numDefaultIPv4, Some(1)).Ok?
    ensures Generated(Some(ATE_PORT2_START), p.numPort2VLANs, Some(PORT_STEP)).Ok? ==>
              Generated(Some(ATE_PORT2_START), p.numPort2VLANs, Some(PORT_STEP)).value ==
              Progression(ATE_PORT2_START, p.numPort2VLANs, PORT_STEP)
    ensures Generated(Some(DEFAULT_PREFIX_START), p.numDefaultIPv4, Some(1)).Ok? ==>
              && p.numDefaultIPv4 > 0
              && Generated(Some(DEFAULT_PREFIX_START), p.numDefaultIPv4, Some(1)).value ==
                 Progression(DEFAULT_PREFIX_START, p.numDefaultIPv4, 1)
  {
  }

  /** One group list, as the closure buildNHGs and the transit builder make it. */
  method BuildNHGs(baseNHG: nat, baseNH: nat, backup: Option<nat>, numNHG: nat, numNH: nat,
                   lb: seq<LbParam>, wt: seq<WeightParam>)
    returns (entries: seq<Entry>)
    requires ValidLoadBalance(lb) && ValidWeight(wt)
    ensures entries == NhgLayer(baseNHG, GroupsOver(baseNH, numNH, CallWeights(numNHG, lb, wt, numNH), backup))
  {
    hide CallWeights, LbBucketsOf, WeightBucketsOf, WeightsOfCall, Serviceable, HopsFrom, Offset, AxisAfter;
    entries := [];
    var iter := new NHGBucketIterator(numNHG, lb, wt, numNH);
    ghost var ws := CallWeights(numNHG, lb, wt, numNH);
    ghost var gs := GroupsOver(baseNH, numNH, ws, backup);
    var nhOffset := 0;
    OffsetZero(ws);
    for i := 0 to numNHG
      invariant iter.Valid() && iter.calls == i
      invariant nhOffset == Offset(ws, i)
      invariant entries == NhgLayer(baseNHG, gs)[..i]
    {
      CallWeightsAt(numNHG, lb, wt, numNH, i);
      CallWeightsShape(numNHG, lb, wt, numNH, i);
      var weights := iter.Next();
      var hops := AddHops(baseNH, nhOffset, numNH, weights);
      OffsetStep(ws, i);
      nhOffset := nhOffset + |weights|;
      entries := entries + [NhgEntry(baseNHG + i, Group(hops, backup))];
    }
  }

  /** The next-hop entries one by one. */
  lemma DefaultLayerAt(p: ScaleParams, i: nat)
    requires i < NhPart(p)
    ensures var layer := NhLayer(NH_BASE_DEFAULT, PrimaryNextHops(p) + BackupNextHops(p));
            && layer[i] == NhEntry(NH_BASE_DEFAULT + i, ToAddress(AteIp(PrimaryVlan(p, i))))
            && layer[NhPart(p) + i] ==
               NhEntry(NH_BASE_DEFAULT + NhPart(p) + i, ToAddress(AteIp(BackupVlan(p, i))))
  {
    hide PrimaryVlan, BackupVlan, AteIp, Half;
  }

  lemma LinkAt(vlans: nat, v: nat)
    requires v < vlans
    ensures V4(Progression(ATE_PORT2_START, vlans, PORT_STEP)[v]) == AteIp(v)
  {
  }

  /** The two next-hop loops. */
  method BuildDefaultNhs(p: ScaleParams, atePort2Ips: seq<nat>) returns (nhEntries: seq<Entry>)
    requires p.numPort2VLANs > 0
    requires atePort2Ips == Progression(ATE_PORT2_START, p.numPort2VLANs, PORT_STEP)
    ensures nhEntries == NhLayer(NH_BASE_DEFAULT, PrimaryNextHops(p) + BackupNextHops(p))
  {
    hide PrimaryNextHops, BackupNextHops, NhLayer, Progression, AteIp;
    var numNHPart := Max(Quot(p.numDefaultNH, 2), 1);
    var primaryVLANs := Max(Quot(p.numPort2VLANs * SHUTDOWN_VLAN_PCT, 100), 1);
    var backupVLANs := p.numPort2VLANs - primaryVLANs;
    ghost var layer := NhLayer(NH_BASE_DEFAULT, PrimaryNextHops(p) + BackupNextHops(p));
    nhEntries := [];
    for i := 0 to numNHPart
      invariant nhEntries == layer[..i]
    {
      VlansInRange(p, i);
      DefaultLayerAt(p, i);
      var vlanIdx := i % primaryVLANs;
      LinkAt(p.numPort2VLANs, vlanIdx);
      nhEntries := nhEntries + [NhEntry(NH_BASE_DEFAULT + i, ToAddress(V4(atePort2Ips[vlanIdx])))];
    }
    var nhBaseBackup := NH_BASE_DEFAULT + numNHPart;
    for i := 0 to numNHPart
      invariant nhEntries == layer[..numNHPart + i]
    {
      VlansInRange(p, i);
      DefaultLayerAt(p, i);
      var vlanIdx := 0;
      if backupVLANs > 0 {
        vlanIdx := primaryVLANs + i % backupVLANs;
      } else {
        vlanIdx := i % primaryVLANs;
      }
      LinkAt(p.numPort2VLANs, vlanIdx);
      nhEntries := nhEntries + [NhEntry(nhBaseBackup + i, ToAddress(V4(atePort2Ips[vlanIdx])))];
    }
  }

  /** The routes one by one. */
  lemma DefaultRoutesAt(p: ScaleParams, i: nat)
    requires i < Ipv4Part(p)
    ensures |DefaultRoutes(p)| == 2 * Ipv4Part(p)
    ensures DefaultRoutes(p)[i] ==
            Route(DefaultVrf, HostPrefix(V4(DEFAULT_PREFIX_START + i)), NHG_BASE_DEFAULT + i % NhgPart(p))
    ensures DefaultRoutes(p)[Ipv4Part(p) + i] ==
            Route(DefaultVrf, HostPrefix(V4(BackupStart(p) + i)), NHG_BASE_DEFAULT + NhgPart(p) + i % NhgPart(p))
  {
    hide Half, BackupStart;
  }

  lemma ProgressionStep(start: nat, n: nat, i: nat)
    requires i < n
    ensures Progression(start, n, 1)[i] == start + i
    ensures Progression(start, i, 1) + [start + i] == Progression(start, i + 1, 1)
  {
  }

  /** The two prefix loops; also returns the two prefix lists handed to the transit builder. */
  method BuildDefaultRoutes(p: ScaleParams, prefixHosts: seq<nat>)
    returns (ipv4Entries: seq<Entry>, primaryPrefixes: seq<nat>, backupPrefixes: seq<nat>)
    requires p.numDefaultIPv4 > 0
    requires prefixHosts == Progression(DEFAULT_PREFIX_START, p.numDefaultIPv4, 1)
    ensures ipv4Entries == DefaultRoutes(p)
    ensures primaryPrefixes == Progression(DEFAULT_PREFIX_START, Ipv4Part(p), 1)
    ensures backupPrefixes == Progression(BackupStart(p), Ipv4Part(p), 1)
  {
    hide DefaultRoutes, Progression;
    var numNHGPart := Max(Quot(p.numDefaultNHG, 2), 1);
    var numIPv4Part := Max(Quot(p.numDefaultIPv4, 2), 1);
    ghost var routes := DefaultRoutes(p);
    DefaultRoutesAt(p, 0);
    primaryPrefixes, backupPrefixes, ipv4Entries := [], [], [];
    for i := 0 to numIPv4Part
      invariant ipv4Entries == routes[..i]
      invariant primaryPrefixes == Progression(DEFAULT_PREFIX_START, i, 1)
    {
      DefaultRoutesAt(p, i);
      ProgressionStep(DEFAULT_PREFIX_START, p.numDefaultIPv4, i);
      var host := prefixHosts[i];
      primaryPrefixes := primaryPrefixes + [host];
      ipv4Entries := ipv4Entries + [Route(DefaultVrf, HostPrefix(V4(host)), NHG_BASE_DEFAULT + i % numNHGPart)];
    }
    for i := 0 to numIPv4Part
      invariant ipv4Entries == routes[..numIPv4Part + i]
      invariant backupPrefixes == Progression(BackupStart(p), i, 1)
    {
      var prefixIdx := numIPv4Part + i;
      if prefixIdx >= |prefixHosts| {
        prefixIdx := i % |prefixHosts|;
      }
      DefaultRoutesAt(p, i);
      ProgressionStep(DEFAULT_PREFIX_START, p.numDefaultIPv4, prefixIdx);
      ProgressionStep(BackupStart(p), i + 1, i);
      var host := prefixHosts[prefixIdx];
      backupPrefixes := backupPrefixes + [host];
      ipv4Entries := ipv4Entries +
        [Route(DefaultVrf, HostPrefix(V4(host)), NHG_BASE_DEFAULT + numNHGPart + i % numNHGPart)];
    }
  }

  /** BuildDefaultVRF.  With no default prefix at all the source indexes an empty list. */
  method BuildDefaultVRF(p: ScaleParams)
    returns (r: Result<(seq<Entry>, seq<nat>, seq<nat>)>)
    requires ValidParams(p) && p.numDefaultIPv4 != 0
    ensures r.Ok? <==> DefaultAddressesFit(p)
    ensures r.Ok? ==> r.value == (DefaultEntries(p),
                                  Progression(DEFAULT_PREFIX_START, Ipv4Part(p), 1),
                                  Progression(BackupStart(p), Ipv4Part(p), 1))
  {
    hide Generated, DefaultAddressesFit, CallWeights, GroupsOver, Progression, PrimaryNextHops, BackupNextHops;
    FitIffGenerated(p);
    var atePort2Ips := GenerateIPsWithStep(Some(ATE_PORT2_START), p.numPort2VLANs, Some(PORT_STEP));
    if atePort2Ips.Fatal? {
      return Fatal(atePort2Ips.error);
    }
    var prefixHosts := GenerateIPsWithStep(Some(DEFAULT_PREFIX_START), p.numDefaultIPv4, Some(1));
    if prefixHosts.Fatal? {
      return Fatal(prefixHosts.error);
    }
    var numNHPart := Max(Quot(p.numDefaultNH, 2), 1);
    var numNHGPart := Max(Quot(p.numDefaultNHG, 2), 1);
    var nhEntries := BuildDefaultNhs(p, atePort2Ips.value);
    var primaryGroups := BuildNHGs(NHG_BASE_DEFAULT, NH_BASE_DEFAULT, None, numNHGPart, numNHPart,
                                   p.defaultNHGLoadBalance, p.defaultNHGWeight);
    var backupGroups := BuildNHGs(NHG_BASE_DEFAULT + numNHGPart, NH_BASE_DEFAULT + numNHPart, None, numNHGPart,
                                  numNHPart, p.defaultNHGLoadBalance, p.defaultNHGWeight);
    NhgLayerConcat(NHG_BASE_DEFAULT, PrimaryGroups(p), BackupGroups(p));
    var ipv4Entries, primaryPrefixes, backupPrefixes := BuildDefaultRoutes(p, prefixHosts.value);
    var entries := nhEntries + (primaryGroups + backupGroups);
    entries := entries + ipv4Entries;
    r := Ok((entries, primaryPrefixes, backupPrefixes));
  }

  lemma NhgLayerConcat(base: nat, a: seq<Group>, b: seq<Group>)
    ensures NhgLayer(base, a) + NhgLayer(base + |a|, b) == NhgLayer(base, a + b)
  {
  }

  /** The group a default prefix points to; a backup prefix shadows a primary one. */
  function DefaultRouteOf(p: ScaleParams, prefix: Prefix): Option<nat> {
    OrElse(HostAt(BackupTargets(p), V4(BackupStart(p)), prefix),
           HostAt(PrimaryTargets(p), V4(DEFAULT_PREFIX_START), prefix))
  }

  /** What the default VRF's entries leave in the tables. */
  lemma DefaultTables(p: ScaleParams, id: nat, vrf: Vrf, prefix: Prefix)
    requires ValidParams(p)
    ensures LastNh(DefaultEntries(p), id) == At(PrimaryNextHops(p) + BackupNextHops(p), NH_BASE_DEFAULT, id)
    ensures LastNhg(DefaultEntries(p), id) == At(PrimaryGroups(p) + BackupGroups(p), NHG_BASE_DEFAULT, id)
    ensures LastRoute(DefaultEntries(p), vrf, prefix) ==
            if vrf.DefaultVrf? then DefaultRouteOf(p, prefix) else None
  {
    hide ValidParams, LastNh, LastNhg, LastRoute, At, HostAt, PrimaryGroups, BackupGroups, PrimaryNextHops,
         BackupNextHops, PrimaryTargets, BackupTargets;
    LayeredTables(NH_BASE_DEFAULT, PrimaryNextHops(p) + BackupNextHops(p), NHG_BASE_DEFAULT,
                  PrimaryGroups(p) + BackupGroups(p), DefaultRoutes(p), id, vrf, prefix);
    LastRouteConcat(HostRoutes(DefaultVrf, V4(DEFAULT_PREFIX_START), PrimaryTargets(p)),
                    HostRoutes(DefaultVrf, V4(BackupStart(p)), BackupTargets(p)), vrf, prefix);
    LastHostRoute(DefaultVrf, V4(DEFAULT_PREFIX_START), PrimaryTargets(p), vrf, prefix);
    LastHostRoute(DefaultVrf, V4(BackupStart(p)), BackupTargets(p), vrf, prefix);
  }

  lemma DefaultGroupsWithin(p: ScaleParams)
    requires ValidParams(p)
    ensures AllWithin(PrimaryGroups(p), NH_BASE_DEFAULT, NhPart(p))
    ensures AllWithin(BackupGroups(p), NH_BASE_DEFAULT + NhPart(p), NhPart(p))
  {
    hide CallWeights, GroupsOver;
    CallWeightsAllocatable(NhgPart(p), p.defaultNHGLoadBalance, p.defaultNHGWeight, NhPart(p));
    GroupsOverWithin(NH_BASE_DEFAULT, NhPart(p), DefaultWeights(p), None);
    GroupsOverWithin(NH_BASE_DEFAULT + NhPart(p), NhPart(p), DefaultWeights(p), None);
  }

  lemma NoBackups(baseNH: nat, n: nat, ws: seq<seq<nat>>, s: seq<Entry>)
    ensures BackupsIn(GroupsOver(baseNH, n, ws, None), s)
  {
  }

  /** The default VRF's entries come in dependency order. */
  lemma DefaultGrounded(p: ScaleParams)
    requires ValidParams(p)
    ensures Grounded([], DefaultEntries(p))
  {
    hide ValidParams, Grounded, CallWeights, GroupsOver, PrimaryNextHops, BackupNextHops, PrimaryTargets,
         BackupTargets;
    DefaultGroupsWithin(p);
    NoBackups(NH_BASE_DEFAULT, NhPart(p), DefaultWeights(p), []);
    NoBackups(NH_BASE_DEFAULT + NhPart(p), NhPart(p), DefaultWeights(p), []);
    DefaultRoutesWithin(p);
    LayeredGrounded([], NH_BASE_DEFAULT, PrimaryNextHops(p) + BackupNextHops(p), NHG_BASE_DEFAULT,
                    PrimaryGroups(p) + BackupGroups(p), DefaultRoutes(p));
  }

  lemma DefaultRoutesWithin(p: ScaleParams)
    ensures RoutesWithin(DefaultRoutes(p), NHG_BASE_DEFAULT, 2 * NhgPart(p))
  {
  }
}
