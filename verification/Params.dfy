/** Scale parameters of a full-scale run, the fixed constants, and the parameter validation. */
module Params {
  import opened GoInts
  import opened Seqs
  import opened NhgWeights
  import opened NhgPartition
  import opened BucketIterator

  datatype ScaleParams = ScaleParams(
    gribiBatchSize: int,
    numDefaultNH: int,
    numDefaultNHG: int,
    defaultNHGLoadBalance: seq<LbParam>,
    defaultNHGWeight: seq<WeightParam>,
    numDefaultIPv4: int,
    numTransitNH: int,
    numTransitNHG: int,
    transitNHGLoadBalance: seq<LbParam>,
    transitNHGWeight: seq<WeightParam>,
    numTransitIPv4: int,
    numRepairIPv4: int,
    numRepairNHG: int,
    numEncapVRFs: int,
    numUniqueEncapNH: int,
    numEncapDefaultNHG: int,
    encapNHGLoadBalance: seq<LbParam>,
    encapNHGWeight: seq<WeightParam>,
    numEncapIPv4PerVRF: int,
    numEncapIPv6PerVRF: int,
    numDecapEntries: int,
    decapDestsSubsetPct: int,
    trafficRateMpps: nat,
    numPort2VLANs: int)

  const SHUTDOWN_VLAN_PCT := 50
  const DEFAULT_GRIBI_BATCH_SIZE := 2000

  const NH_BASE_DEFAULT := 1_000
  const NHG_BASE_DEFAULT := 2_000
  const NH_BASE_TRANSIT := 10_000
  const NHG_BASE_TRANSIT := 20_000
  const NH_BASE_REPAIR := 30_000
  const NHG_BASE_REPAIR := 32_000
  const NH_BASE_ENCAP := 50_000
  const NHG_BASE_ENCAP := 82_000
  const NH_BASE_DECAP := 120_000
  const NHG_BASE_DECAP := 120_100
  const STATIC_S1_NHG := 9001
  const STATIC_S2_NHG := 9002

  /** 198.51.100.111 and 198.51.100.222 */
  const OUTER_SRC_111: nat := 0xC633_646F
  const OUTER_SRC_222: nat := 0xC633_64DE
  /** 193.51.0.2, the far end of the first VLAN of port 2; the next ones are 4 apart. */
  const ATE_PORT2_START: nat := 0xC133_0002
  const PORT_STEP: nat := 4
  /** 10.0.0.1 */
  const DEFAULT_PREFIX_START: nat := 0x0A00_0001
  /** 100.0.0.1 and 101.0.0.1 */
  const TRANSIT_111_START: nat := 0x6400_0001
  const TRANSIT_222_START: nat := 0x6500_0001

  /** max(x / 2, 1) */
  function Half(x: int): (h: int)
    ensures h >= 1
  {
    Max(Quot(x, 2), 1)
  }

  /** The VLANs that the repair test shuts down, and that primary next-hops use. */
  function PrimaryVlans(p: ScaleParams): (n: int)
    ensures n >= 1
  {
    Max(Quot(p.numPort2VLANs * SHUTDOWN_VLAN_PCT, 100), 1)
  }

  ghost predicate ValidLoadBalance(configs: seq<LbParam>) {
    && configs != []
    && (forall i :: 0 <= i < |configs| ==> configs[i].pct >= 0 && configs[i].numNextHops > 0)
    && Sum(LbPcts(configs)) == 100
  }

  predicate ValidConfig(c: WeightConfig) {
    !c.Unset? && (c.WCMP? ==> c.granularity > 0)
  }

  ghost predicate ValidWeight(configs: seq<WeightParam>) {
    && configs != []
    && (forall i :: 0 <= i < |configs| ==>
          configs[i].pct >= 0 && ValidConfig(configs[i].config))
    && Sum(WeightPcts(configs)) == 100
  }

  ghost predicate ValidParams(p: ScaleParams) {
    && ValidLoadBalance(p.defaultNHGLoadBalance) && ValidWeight(p.defaultNHGWeight)
    && p.numEncapVRFs > 0
    && p.numEncapDefaultNHG >= p.numEncapVRFs
    && (p.numUniqueEncapNH > 0 ==> p.numTransitIPv4 != 0)
    && ValidLoadBalance(p.encapNHGLoadBalance) && ValidWeight(p.encapNHGWeight)
    && p.numDecapEntries >= 0
    && 0 <= p.decapDestsSubsetPct <= 100
    && ValidLoadBalance(p.transitNHGLoadBalance) && ValidWeight(p.transitNHGWeight)
    && p.numPort2VLANs > 0
  }

  /** validateNHGLoadBalance; false stands for the fatal exit. */
  method ValidateNHGLoadBalance(configs: seq<LbParam>) returns (ok: bool)
    ensures ok <==> ValidLoadBalance(configs)
  {
    if |configs| == 0 {
      return false;
    }
    var sumPct := 0;
    ghost var pcts := LbPcts(configs);
    for i := 0 to |configs|
      invariant sumPct == SumTo(pcts, i)
      invariant forall k :: 0 <= k < i ==> configs[k].pct >= 0 && configs[k].numNextHops > 0
    {
      if configs[i].pct < 0 {
        return false;
      }
      if configs[i].numNextHops <= 0 {
        return false;
      }
      sumPct := sumPct + configs[i].pct;
    }
    ok := sumPct == 100;
  }

  /** validateNHGWeight; false stands for the fatal exit. */
  method ValidateNHGWeight(configs: seq<WeightParam>) returns (ok: bool)
    ensures ok <==> ValidWeight(configs)
  {
    if |configs| == 0 {
      return false;
    }
    var sumPct := 0;
    ghost var pcts := WeightPcts(configs);
    for i := 0 to |configs|
      invariant sumPct == SumTo(pcts, i)
      invariant forall k :: 0 <= k < i ==>
                  configs[k].pct >= 0 && ValidConfig(configs[k].config)
    {
      if configs[i].pct < 0 {
        return false;
      }
      match configs[i].config {
        case Unset =>
          return false;
        case ECMP =>
        case WCMP(granularity) =>
          if granularity == 0 {
            return false;
          }
      }
      sumPct := sumPct + configs[i].pct;
    }
    ok := sumPct == 100;
  }

  /** validateScaleParams; false stands for the fatal exit. */
  method ValidateScaleParams(p: ScaleParams) returns (ok: bool)
    ensures ok <==> ValidParams(p)
  {
    var defaultLb := ValidateNHGLoadBalance(p.defaultNHGLoadBalance);
    var defaultWt := ValidateNHGWeight(p.defaultNHGWeight);
    if !defaultLb || !defaultWt {
      return false;
    }
    if p.numEncapVRFs <= 0 {
      return false;
    }
    if p.numEncapDefaultNHG < p.numEncapVRFs {
      return false;
    }
    if p.numUniqueEncapNH > 0 && p.numTransitIPv4 == 0 {
      return false;
    }
    var encapLb := ValidateNHGLoadBalance(p.encapNHGLoadBalance);
    var encapWt := ValidateNHGWeight(p.encapNHGWeight);
    if !encapLb || !encapWt {
      return false;
    }
    if p.numDecapEntries < 0 {
      return false;
    }
    if p.decapDestsSubsetPct < 0 || p.decapDestsSubsetPct > 100 {
      return false;
    }
    var transitLb := ValidateNHGLoadBalance(p.transitNHGLoadBalance);
    var transitWt := ValidateNHGWeight(p.transitNHGWeight);
    if !transitLb || !transitWt {
      return false;
    }
    ok := p.numPort2VLANs > 0;
  }

  /** The weights of numNHG successive groups, as a fresh iterator hands them out. */
  ghost function CallWeights(numNHG: nat, lb: seq<LbParam>, wt: seq<WeightParam>, maxNHs: nat): (ws: seq<seq<nat>>)
    requires ValidLoadBalance(lb) && ValidWeight(wt)
    ensures |ws| == numNHG
  {
    var lbs, wts := LbBucketsOf(numNHG, lb), WeightBucketsOf(numNHG, wt);
    seq(numNHG, i requires 0 <= i < numNHG => WeightsOfCall(lbs, wts, maxNHs, i))
  }

  lemma CallWeightsAt(numNHG: nat, lb: seq<LbParam>, wt: seq<WeightParam>, maxNHs: nat, i: nat)
    requires ValidLoadBalance(lb) && ValidWeight(wt) && i < numNHG
    ensures lb != [] && wt != []
    ensures var lbs, wts := LbBucketsOf(numNHG, lb), WeightBucketsOf(numNHG, wt);
            && Serviceable(lbs, wts, maxNHs)
            && CallWeights(numNHG, lb, wt, maxNHs)[i] == WeightsOfCall(lbs, wts, maxNHs, i)
  {
  }

  /** A group never has more next-hops than exist, and has a weighted one when any exists. */
  lemma CallWeightsShape(numNHG: nat, lb: seq<LbParam>, wt: seq<WeightParam>, maxNHs: nat, i: nat)
    requires ValidLoadBalance(lb) && ValidWeight(wt) && i < numNHG
    ensures var w := CallWeights(numNHG, lb, wt, maxNHs)[i];
            && |w| <= maxNHs
            && (maxNHs > 0 ==> |w| > 0 && w[|w| - 1] > 0)
  {
    var lbs, wts := LbBucketsOf(numNHG, lb), WeightBucketsOf(numNHG, wt);
    var b, c := BucketAt(LbQuotas(lbs), i), BucketAt(WeightQuotas(wts), i);
    var n := Min(lbs[b].numLoadBalancingNH, maxNHs);
    assert lbs[b].numLoadBalancingNH == lb[b].numNextHops > 0;
    assert wts[c].config == wt[c].config;
    if maxNHs > 0 && wt[c].config.WCMP? {
      SomeSharePositive(wt[c].config.granularity, n);
    }
  }

  lemma CallWeightsAllocatable(numNHG: nat, lb: seq<LbParam>, wt: seq<WeightParam>, maxNHs: nat)
    requires ValidLoadBalance(lb) && ValidWeight(wt)
    ensures forall i :: 0 <= i < numNHG ==> |CallWeights(numNHG, lb, wt, maxNHs)[i]| <= maxNHs
  {
    hide CallWeights, ValidLoadBalance, ValidWeight;
    forall i | 0 <= i < numNHG
      ensures |CallWeights(numNHG, lb, wt, maxNHs)[i]| <= maxNHs
    {
      CallWeightsShape(numNHG, lb, wt, maxNHs, i);
    }
  }
}
