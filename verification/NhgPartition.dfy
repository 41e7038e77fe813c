/**
 * Splitting a number of next-hop-groups over percentage buckets.
 */
module NhgPartition {
  import opened GoInts
  import opened Seqs
  import opened NhgWeights

  /** Share of next-hop-groups that load-balance over numNextHops next-hops. */
  datatype LbParam = LbParam(pct: int, numNextHops: int)

  /** Share of next-hop-groups that use a weight configuration. */
  datatype WeightParam = WeightParam(pct: int, config: WeightConfig)

  datatype LbBucket = LbBucket(numNHG: int, numLoadBalancingNH: int)
  datatype WeightBucket = WeightBucket(numNHG: int, config: WeightConfig)

  function LbPcts(req: seq<LbParam>): (r: seq<int>)
    ensures |r| == |req|
  {
    seq(|req|, i requires 0 <= i < |req| => req[i].pct)
  }

  function WeightPcts(req: seq<WeightParam>): (r: seq<int>)
    ensures |r| == |req|
  {
    seq(|req|, i requires 0 <= i < |req| => req[i].pct)
  }

  function Share(numNHG: int, pct: int): int {
    Quot(numNHG * pct, 100)
  }

  function Shares100(numNHG: int, pcts: seq<int>): (r: seq<int>)
    ensures |r| == |pcts|
  {
    seq(|pcts|, i requires 0 <= i < |pcts| => Share(numNHG, pcts[i]))
  }

  /** Truncated shares, with what truncation left over added to the last bucket. */
  function Quotas(numNHG: int, pcts: seq<int>): (r: seq<int>)
    requires pcts != []
    ensures |r| == |pcts|
  {
    var s := Shares100(numNHG, pcts);
    s[|s| - 1 := s[|s| - 1] + (numNHG - Sum(s))]
  }

  /** partitionNHG.  An empty request indexes out of range in the source. */
  method PartitionNHG(numNHG: int, pcts: seq<int>) returns (result: seq<int>)
    requires pcts != []
    ensures result == Quotas(numNHG, pcts)
  {
    var counts := new int[|pcts|];
    var totalNHG := 0;
    ghost var shares := Shares100(numNHG, pcts);
    for idx := 0 to |pcts|
      invariant forall k :: 0 <= k < idx ==> counts[k] == shares[k]
      invariant totalNHG == SumTo(shares, idx)
    {
      var numNH := Quot(numNHG * pcts[idx], 100);
      counts[idx] := numNH;
      totalNHG := totalNHG + numNH;
    }
    counts[|pcts| - 1] := counts[|pcts| - 1] + (numNHG - totalNHG);
    result := counts[..];
  }

  function LbBucketsOf(numNHG: int, req: seq<LbParam>): (r: seq<LbBucket>)
    requires req != []
    ensures |r| == |req|
  {
    var c := Quotas(numNHG, LbPcts(req));
    seq(|req|, i requires 0 <= i < |req| => LbBucket(c[i], req[i].numNextHops))
  }

  function WeightBucketsOf(numNHG: int, req: seq<WeightParam>): (r: seq<WeightBucket>)
    requires req != []
    ensures |r| == |req|
  {
    var c := Quotas(numNHG, WeightPcts(req));
    seq(|req|, i requires 0 <= i < |req| => WeightBucket(c[i], req[i].config))
  }

  /** computeNHGBuckets */
  method ComputeNHGBuckets(numNHG: int, req: seq<LbParam>) returns (buckets: seq<LbBucket>)
    requires req != []
    ensures buckets == LbBucketsOf(numNHG, req)
  {
    var counts := PartitionNHG(numNHG, LbPcts(req));
    buckets := [];
    for idx := 0 to |req|
      invariant |buckets| == idx
      invariant forall k :: 0 <= k < idx ==> buckets[k] == LbBucket(counts[k], req[k].numNextHops)
    {
      buckets := buckets + [LbBucket(counts[idx], req[idx].numNextHops)];
    }
  }

  /** computeNHGWeightBuckets */
  method ComputeNHGWeightBuckets(numNHG: int, req: seq<WeightParam>) returns (buckets: seq<WeightBucket>)
    requires req != []
    ensures buckets == WeightBucketsOf(numNHG, req)
  {
    var counts := PartitionNHG(numNHG, WeightPcts(req));
    buckets := [];
    for idx := 0 to |req|
      invariant |buckets| == idx
      invariant forall k :: 0 <= k < idx ==> buckets[k] == WeightBucket(counts[k], req[k].config)
    {
      buckets := buckets + [WeightBucket(counts[idx], req[idx].config)];
    }
  }

  /** Conservation: whatever the percentages, no group is lost or invented. */
  lemma QuotasSum(numNHG: int, pcts: seq<int>)
    requires pcts != []
    ensures Sum(Quotas(numNHG, pcts)) == numNHG
  {
    SumToSame(Quotas(numNHG, pcts), Shares100(numNHG, pcts), |pcts| - 1);
  }

  ghost predicate Percentages(pcts: seq<int>) {
    && pcts != []
    && (forall i :: 0 <= i < |pcts| ==> pcts[i] >= 0)
    && Sum(pcts) == 100
  }

  /** Hundred times the truncated shares falls short of the exact shares by less than 100 a bucket. */
  lemma {:induction false} SharesShortfall(numNHG: nat, pcts: seq<int>, j: nat)
    requires j <= |pcts|
    requires forall i :: 0 <= i < |pcts| ==> pcts[i] >= 0
    ensures numNHG * SumTo(pcts, j) - 99 * j <= 100 * SumTo(Shares100(numNHG, pcts), j) <= numNHG * SumTo(pcts, j)
  {
    if j > 0 {
      SharesShortfall(numNHG, pcts, j - 1);
      ShareIsFloor(numNHG, pcts[j - 1]);
      Distribute(numNHG, SumTo(pcts, j - 1), pcts[j - 1]);
    }
  }

  /** A truncated share is the floor of the exact share. */
  lemma ShareIsFloor(numNHG: nat, pct: int)
    requires pct >= 0
    ensures 100 * Share(numNHG, pct) <= numNHG * pct < 100 * (Share(numNHG, pct) + 1)
  {
    assert numNHG * pct >= 0;
  }

  /** What the last bucket gets on top of its exact share. */
  lemma LastQuota(numNHG: nat, pcts: seq<int>)
    requires Percentages(pcts)
    ensures var k := |pcts| - 1;
            var exact, got := numNHG * pcts[k], 100 * Quotas(numNHG, pcts)[k];
            exact <= got <= exact + 99 * k
  {
    hide Share;
    var k := |pcts| - 1;
    var q, s := Quotas(numNHG, pcts), Shares100(numNHG, pcts);
    SharesShortfall(numNHG, pcts, k);
    QuotasSum(numNHG, pcts);
    SumToSame(q, s, k);
    Distribute(numNHG, SumTo(pcts, k), pcts[k]);
  }

  lemma Distribute(n: int, a: int, b: int)
    ensures n * (a + b) == n * a + n * b
  {
  }

  /**
   * Partition law.  Every bucket but the last gets the floor of its exact share; with two
   * buckets or more the last one gets at least its exact share and less than |pcts| - 1 more.
   */
  lemma PartitionLaw(numNHG: nat, pcts: seq<int>)
    requires Percentages(pcts)
    ensures var q := Quotas(numNHG, pcts);
            && (forall i :: 0 <= i < |pcts| - 1 ==> 100 * q[i] <= numNHG * pcts[i] < 100 * (q[i] + 1))
            && numNHG * pcts[|pcts| - 1] <= 100 * q[|pcts| - 1]
            && (|pcts| >= 2 ==> 100 * q[|pcts| - 1] < numNHG * pcts[|pcts| - 1] + 100 * (|pcts| - 1))
  {
    var q := Quotas(numNHG, pcts);
    forall i | 0 <= i < |pcts| - 1
      ensures 100 * q[i] <= numNHG * pcts[i] < 100 * (q[i] + 1)
    {
      ShareIsFloor(numNHG, pcts[i]);
    }
    LastQuota(numNHG, pcts);
  }

  /** No quota of a valid request is negative. */
  lemma QuotasNonNegative(numNHG: nat, pcts: seq<int>)
    requires Percentages(pcts)
    ensures forall i :: 0 <= i < |pcts| ==> Quotas(numNHG, pcts)[i] >= 0
  {
    PartitionLaw(numNHG, pcts);
    forall i | 0 <= i < |pcts|
      ensures Quotas(numNHG, pcts)[i] >= 0
    {
      assert numNHG * pcts[i] >= 0;
    }
  }
}
