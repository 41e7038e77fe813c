/**
 * The stateful iterator that hands out the next-hop weights of successive next-hop-groups.
 *
 * It walks two independent axes, one of load-balancing buckets and one of weight buckets.
 * The specification of an axis is positional: call number i uses the bucket that position i
 * falls into when the buckets are laid end to end.  A call moves on by at most one bucket, so
 * an interior bucket with quota zero is still used once; EffectiveQuotas says so.
 */
module BucketIterator {
  import opened GoInts
  import opened Seqs
  import opened NhgWeights
  import opened NhgPartition

  /** How often each bucket is used before the iterator leaves it; the last one is never left. */
  function EffectiveQuotas(quotas: seq<int>): (r: seq<nat>)
    ensures |r| == |quotas|
  {
    seq(|quotas|, i requires 0 <= i < |quotas| => if i == 0 then Max(0, quotas[i]) else Max(1, quotas[i]))
  }

  /** First position of bucket j when the effective quotas are laid end to end. */
  function Start(quotas: seq<int>, j: nat): nat
    requires j <= |quotas|
  {
    if j == 0 then 0 else Start(quotas, j - 1) + EffectiveQuotas(quotas)[j - 1]
  }

  /** The bucket that position i falls into, at or after bucket j. */
  function BucketFrom(quotas: seq<int>, j: nat, i: nat): (b: nat)
    requires j < |quotas|
    ensures j <= b < |quotas|
    ensures b + 1 < |quotas| ==> i < Start(quotas, b + 1)
    ensures b > j ==> Start(quotas, b) <= i
    decreases |quotas| - j
  {
    if j + 1 == |quotas| || i < Start(quotas, j + 1) then j else BucketFrom(quotas, j + 1, i)
  }

  function BucketAt(quotas: seq<int>, i: nat): nat
    requires quotas != []
  {
    BucketFrom(quotas, 0, i)
  }

  lemma {:induction false} StartMonotone(quotas: seq<int>, j: nat, k: nat)
    requires j <= k <= |quotas|
    ensures Start(quotas, j) <= Start(quotas, k)
    ensures 1 <= j < k ==> Start(quotas, j) < Start(quotas, k)
    decreases k - j
  {
    if j < k {
      StartMonotone(quotas, j, k - 1);
    }
  }

  /** BucketAt is the only bucket whose stretch contains the position. */
  lemma BucketAtIff(quotas: seq<int>, i: nat, j: nat)
    requires j < |quotas|
    ensures BucketAt(quotas, i) == j <==>
            Start(quotas, j) <= i && (j + 1 < |quotas| ==> i < Start(quotas, j + 1))
  {
    var b := BucketAt(quotas, i);
    if b < j {
      StartMonotone(quotas, b + 1, j);
    } else if j < b {
      StartMonotone(quotas, j + 1, b);
    }
  }

  function LbQuotas(buckets: seq<LbBucket>): (r: seq<int>)
    ensures |r| == |buckets|
  {
    seq(|buckets|, i requires 0 <= i < |buckets| => buckets[i].numNHG)
  }

  function WeightQuotas(buckets: seq<WeightBucket>): (r: seq<int>)
    ensures |r| == |buckets|
  {
    seq(|buckets|, i requires 0 <= i < |buckets| => buckets[i].numNHG)
  }

  /** A request the iterator can serve without a negative-length allocation. */
  predicate Serviceable(lb: seq<LbBucket>, wt: seq<WeightBucket>, maxNHs: int) {
    && lb != [] && wt != []
    && maxNHs >= 0
    && (forall i :: 0 <= i < |lb| ==> lb[i].numLoadBalancingNH >= 0)
  }

  /** What call number i returns: a function of the two positions, and of nothing else. */
  function WeightsOfCall(lb: seq<LbBucket>, wt: seq<WeightBucket>, maxNHs: int, i: nat): seq<nat>
    requires Serviceable(lb, wt, maxNHs)
  {
    var target := lb[BucketAt(LbQuotas(lb), i)].numLoadBalancingNH;
    WeightsFor(wt[BucketAt(WeightQuotas(wt), i)].config, Min(target, maxNHs))
  }

  /** One axis of the iterator after a number of calls. */
  ghost predicate AxisAfter(quotas: seq<int>, calls: nat, idx: nat, created: int) {
    && idx < |quotas|
    && created == calls - Start(quotas, idx)
    && created >= (if idx == 0 then 0 else 1)
    && (idx + 1 < |quotas| ==> calls <= Start(quotas, idx + 1))
  }

  /** Advancing by at most one bucket lands in the positional bucket. */
  lemma AdvanceAxis(quotas: seq<int>, calls: nat, idx: nat, created: int)
    requires AxisAfter(quotas, calls, idx, created)
    ensures var moved := idx + 1 < |quotas| && created >= quotas[idx];
            var idx' := if moved then idx + 1 else idx;
            var created' := if moved then 0 else created;
            && BucketAt(quotas, calls) == idx'
            && AxisAfter(quotas, calls + 1, idx', created' + 1)
  {
    var moved := idx + 1 < |quotas| && created >= quotas[idx];
    if moved {
      assert calls == Start(quotas, idx + 1);
      BucketAtIff(quotas, calls, idx + 1);
      if idx + 2 < |quotas| {
        assert Start(quotas, idx + 2) == Start(quotas, idx + 1) + EffectiveQuotas(quotas)[idx + 1];
      }
    } else {
      BucketAtIff(quotas, calls, idx);
    }
  }

  /** The ECMP and the default branch of Next. */
  method EqualWeights(actualNHCount: nat) returns (weights: seq<nat>)
    ensures weights == WeightsFor(ECMP, actualNHCount)
  {
    var ones := new nat[actualNHCount];
    for idx := 0 to actualNHCount
      invariant forall k :: 0 <= k < idx ==> ones[k] == 1
    {
      ones[idx] := 1;
    }
    weights := ones[..];
  }

  class NHGBucketIterator {
    const lbBuckets: seq<LbBucket>
    const weightBuckets: seq<WeightBucket>
    const maxNHsAvailable: int

    var lbIdx: int
    var lbCreated: int
    var weightIdx: int
    var weightCreated: int

    /** Number of Next calls so far. */
    ghost var calls: nat

    ghost predicate LbAt(n: nat)
      reads `lbIdx, `lbCreated
    {
      0 <= lbIdx && AxisAfter(LbQuotas(lbBuckets), n, lbIdx, lbCreated)
    }

    ghost predicate WeightAxisAt(n: nat)
      reads `weightIdx, `weightCreated
    {
      0 <= weightIdx && AxisAfter(WeightQuotas(weightBuckets), n, weightIdx, weightCreated)
    }

    ghost predicate Valid()
      reads this
    {
      LbAt(calls) && WeightAxisAt(calls)
    }

    /** NewNHGBucketIterator */
    constructor (numNHG: int, lbParams: seq<LbParam>, weightParams: seq<WeightParam>, maxNHs: int)
      requires lbParams != [] && weightParams != []
      ensures Valid() && calls == 0
      ensures lbBuckets == LbBucketsOf(numNHG, lbParams)
      ensures weightBuckets == WeightBucketsOf(numNHG, weightParams)
      ensures maxNHsAvailable == maxNHs
    {
      var lb := ComputeNHGBuckets(numNHG, lbParams);
      var wt := ComputeNHGWeightBuckets(numNHG, weightParams);
      lbBuckets, weightBuckets := lb, wt;
      maxNHsAvailable := maxNHs;
      lbIdx, lbCreated, weightIdx, weightCreated := 0, 0, 0, 0;
      calls := 0;
    }

    /** The load-balancing half of Next; it touches nothing of the weight axis. */
    method AdvanceLb() returns (targetNHCount: int)
      requires LbAt(calls)
      modifies `lbIdx, `lbCreated
      ensures LbAt(calls + 1)
      ensures targetNHCount == lbBuckets[BucketAt(LbQuotas(lbBuckets), calls)].numLoadBalancingNH
    {
      AdvanceAxis(LbQuotas(lbBuckets), calls, lbIdx, lbCreated);
      if lbIdx < |lbBuckets| - 1 && lbCreated >= lbBuckets[lbIdx].numNHG {
        lbIdx := lbIdx + 1;
        lbCreated := 0;
      }
      targetNHCount := lbBuckets[lbIdx].numLoadBalancingNH;
      lbCreated := lbCreated + 1;
    }

    /** The weight half of Next; it touches nothing of the load-balancing axis. */
    method AdvanceWeight() returns (cfg: WeightConfig)
      requires WeightAxisAt(calls)
      modifies `weightIdx, `weightCreated
      ensures WeightAxisAt(calls + 1)
      ensures cfg == weightBuckets[BucketAt(WeightQuotas(weightBuckets), calls)].config
    {
      AdvanceAxis(WeightQuotas(weightBuckets), calls, weightIdx, weightCreated);
      if weightIdx < |weightBuckets| - 1 && weightCreated >= weightBuckets[weightIdx].numNHG {
        weightIdx := weightIdx + 1;
        weightCreated := 0;
      }
      cfg := weightBuckets[weightIdx].config;
      weightCreated := weightCreated + 1;
    }

    /** Next: the i-th call returns the weights of position i on both axes. */
    method Next() returns (weights: seq<nat>)
      requires Valid()
      requires Serviceable(lbBuckets, weightBuckets, maxNHsAvailable)
      modifies this
      ensures Valid() && calls == old(calls) + 1
      ensures weights == WeightsOfCall(lbBuckets, weightBuckets, maxNHsAvailable, old(calls))
    {
      var targetNHCount := AdvanceLb();
      var actualNHCount := Min(targetNHCount, maxNHsAvailable);
      var cfg := AdvanceWeight();
      calls := calls + 1;
      match cfg
      case ECMP =>
        weights := EqualWeights(actualNHCount);
      case WCMP(granularity) =>
        weights := ComputeNHGWeights(granularity, actualNHCount);
      case Unset =>
        weights := EqualWeights(actualNHCount);
    }
  }

  /**
   * What call i hands out, by the stretches that i lies in: as many weights as the
   * load-balancing bucket asks for and next-hops allow, and a total set by the weight bucket.
   */
  lemma CallHandsOut(lb: seq<LbBucket>, wt: seq<WeightBucket>, maxNHs: int, i: nat, j: nat, c: nat)
    requires Serviceable(lb, wt, maxNHs) && j < |lb| && c < |wt|
    requires Start(LbQuotas(lb), j) <= i && (j + 1 < |lb| ==> i < Start(LbQuotas(lb), j + 1))
    requires Start(WeightQuotas(wt), c) <= i && (c + 1 < |wt| ==> i < Start(WeightQuotas(wt), c + 1))
    ensures var w := WeightsOfCall(lb, wt, maxNHs, i);
            && |w| == Min(lb[j].numLoadBalancingNH, maxNHs)
            && w == WeightsFor(wt[c].config, |w|)
            && (|w| >= 1 ==> Sum(w) == if wt[c].config.WCMP? then wt[c].config.granularity else |w|)
  {
    hide Start, BucketAt, Shares, SumTo;
    BucketAtIff(LbQuotas(lb), i, j);
    BucketAtIff(WeightQuotas(wt), i, c);
    var w := WeightsOfCall(lb, wt, maxNHs, i);
    if wt[c].config.WCMP? {
      if |w| >= 1 {
        SharesSumToGranularity(wt[c].config.granularity, |w|);
      }
    } else {
      SumToConstant(w, |w|, 1);
    }
  }

  /** How many of the first n calls use bucket j. */
  function UsesOf(quotas: seq<int>, j: nat, n: nat): nat
    requires quotas != []
  {
    if n == 0 then 0 else UsesOf(quotas, j, n - 1) + if BucketAt(quotas, n - 1) == j then 1 else 0
  }

  /** Uses of a bucket in closed form: the overlap of its stretch with the first n positions. */
  lemma {:induction false} UsesClosedForm(quotas: seq<int>, j: nat, n: nat)
    requires j < |quotas|
    ensures var past := Max(0, n - Start(quotas, j));
            UsesOf(quotas, j, n) ==
            if j + 1 < |quotas| then Min(past, EffectiveQuotas(quotas)[j]) else past
  {
    if n > 0 {
      UsesClosedForm(quotas, j, n - 1);
      BucketAtIff(quotas, n - 1, j);
    }
  }

  /** The iterator hands out exactly the requested partition. */
  ghost predicate Realises(quotas: seq<int>)
    requires quotas != [] && Sum(quotas) >= 0
  {
    forall j :: 0 <= j < |quotas| ==> UsesOf(quotas, j, Sum(quotas)) == quotas[j]
  }

  /** An empty interior bucket that still has calls coming after it. */
  ghost predicate EmptyInteriorAt(quotas: seq<int>, j: nat)
    requires j < |quotas|
  {
    1 <= j < |quotas| - 1 && quotas[j] == 0 && SumTo(quotas, j) < Sum(quotas)
  }

  /** Up to the first empty interior bucket the stretches are the requested quotas. */
  lemma {:induction false} StartIsRequested(quotas: seq<int>, j: nat)
    requires j <= |quotas|
    requires forall i :: 0 <= i < |quotas| ==> quotas[i] >= 0
    requires forall i :: 1 <= i < j ==> quotas[i] >= 1
    ensures Start(quotas, j) == SumTo(quotas, j)
  {
    if j > 0 {
      StartIsRequested(quotas, j - 1);
    }
  }

  /** Once the requested total is used up the stretches can only start later than the total. */
  lemma {:induction false} StartAtLeastRequested(quotas: seq<int>, j: nat)
    requires j <= |quotas|
    ensures Start(quotas, j) >= SumTo(quotas, j)
  {
    if j > 0 {
      StartAtLeastRequested(quotas, j - 1);
    }
  }

  /** An empty interior bucket that is reached gets a group it did not ask for. */
  lemma EmptyInteriorIsUsed(quotas: seq<int>, j: nat)
    requires j < |quotas| && EmptyInteriorAt(quotas, j)
    requires forall i :: 0 <= i < |quotas| ==> quotas[i] >= 0
    ensures Sum(quotas) >= 0 && !Realises(quotas)
  {
    hide UsesOf;
    var n := Sum(quotas);
    var k := FirstEmptyInterior(quotas, j);
    SumToMonotone(quotas, k, j);
    StartIsRequested(quotas, k);
    UsesClosedForm(quotas, k, n);
    assert UsesOf(quotas, k, n) != quotas[k];
  }

  /**
   * Exact condition for the iterator to realise a partition: no empty interior bucket is
   * reached while groups are still to be created.  (With every interior quota positive the
   * condition holds.)
   */
  lemma RealisesIff(quotas: seq<int>)
    requires quotas != []
    requires forall i :: 0 <= i < |quotas| ==> quotas[i] >= 0
    ensures Sum(quotas) >= 0
    ensures Realises(quotas) <==> forall j :: 0 <= j < |quotas| ==> !EmptyInteriorAt(quotas, j)
  {
    SumToMonotone(quotas, 0, |quotas|);
    if forall j :: 0 <= j < |quotas| ==> !EmptyInteriorAt(quotas, j) {
      forall j | 0 <= j < |quotas|
        ensures UsesOf(quotas, j, Sum(quotas)) == quotas[j]
      {
        UsesAsRequested(quotas, j);
      }
    } else {
      var j :| 0 <= j < |quotas| && EmptyInteriorAt(quotas, j);
      EmptyInteriorIsUsed(quotas, j);
    }
  }

  lemma {:induction false} FirstEmptyInterior(quotas: seq<int>, j: nat) returns (k: nat)
    requires j < |quotas| && EmptyInteriorAt(quotas, j)
    requires forall i :: 0 <= i < |quotas| ==> quotas[i] >= 0
    ensures 1 <= k <= j && quotas[k] == 0
    ensures forall i :: 1 <= i < k ==> quotas[i] >= 1
  {
    k := 1;
    while quotas[k] != 0
      invariant 1 <= k <= j
      invariant forall i :: 1 <= i < k ==> quotas[i] >= 1
      decreases j - k
    {
      k := k + 1;
    }
  }

  lemma UsesAsRequested(quotas: seq<int>, j: nat)
    requires j < |quotas|
    requires forall i :: 0 <= i < |quotas| ==> quotas[i] >= 0
    requires forall i :: 0 <= i < |quotas| ==> !EmptyInteriorAt(quotas, i)
    ensures Sum(quotas) >= 0 && UsesOf(quotas, j, Sum(quotas)) == quotas[j]
  {
    SumToMonotone(quotas, 0, |quotas|);
    if i :| 1 <= i < j && quotas[i] == 0 {
      assert !EmptyInteriorAt(quotas, i);
      UnusedAfterTotal(quotas, i, j);
    } else {
      assert !EmptyInteriorAt(quotas, j);
      UsedInFull(quotas, j);
    }
  }

  /** The total is used up before bucket i, so bucket j after it is neither requested nor reached. */
  lemma UnusedAfterTotal(quotas: seq<int>, i: nat, j: nat)
    requires i < j < |quotas|
    requires forall k :: 0 <= k < |quotas| ==> quotas[k] >= 0
    requires SumTo(quotas, i) >= Sum(quotas)
    ensures Sum(quotas) >= 0 && UsesOf(quotas, j, Sum(quotas)) == quotas[j]
  {
    hide UsesOf;
    SumToMonotone(quotas, i, j);
    SumToMonotone(quotas, j + 1, |quotas|);
    StartAtLeastRequested(quotas, j);
    UsesClosedForm(quotas, j, Sum(quotas));
  }

  /** Bucket j is reached in its turn and kept for as long as it asked. */
  lemma UsedInFull(quotas: seq<int>, j: nat)
    requires j < |quotas|
    requires forall k :: 0 <= k < |quotas| ==> quotas[k] >= 0
    requires forall k :: 1 <= k < j ==> quotas[k] >= 1
    requires !EmptyInteriorAt(quotas, j)
    ensures Sum(quotas) >= 0 && UsesOf(quotas, j, Sum(quotas)) == quotas[j]
  {
    hide UsesOf, Start, SumTo;
    SumToStep(quotas, j);
    SumToMonotone(quotas, j, |quotas|);
    SumToMonotone(quotas, j + 1, |quotas|);
    UsesClosedForm(quotas, j, Sum(quotas));
    StartIsRequested(quotas, j);
  }

  /** The shortfall on a valid request: 3 groups over 75/20/3/2 percent use bucket 1 although its quota is zero. */
  lemma EmptyInteriorBucketIsUsed()
    ensures Quotas(3, [75, 20, 3, 2]) == [2, 0, 0, 1]
    ensures BucketAt([2, 0, 0, 1], 2) == 1
    ensures Sum([2, 0, 0, 1]) == 3 && !Realises([2, 0, 0, 1])
  {
    hide UsesOf;
    var pcts := [75, 20, 3, 2];
    var s := Shares100(3, pcts);
    assert s == [2, 0, 0, 0];
    SumOfFour(2, 0, 0, 0);
    var q := [2, 0, 0, 1];
    SumOfFour(2, 0, 0, 1);
    assert Start(q, 1) == 2 && Start(q, 2) == 3;
    BucketAtIff(q, 2, 1);
    assert SumTo(q, 1) == 2;
    EmptyInteriorIsUsed(q, 1);
  }
}
