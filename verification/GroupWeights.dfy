/**
 * What reaches the programmed groups of the two requests: how many next-hops each group has,
 * which they are, what they weigh, and how many groups there are of each kind.
 *
 * Group i of a list takes its hop count from the load-balancing bucket that i falls into, and
 * its weights from the weight bucket that i falls into, independently of each other.
 */
module GroupWeights {
  import opened GoInts
  import opened Seqs
  import opened IpUtil
  import opened Rib
  import opened NhgWeights
  import opened NhgPartition
  import opened BucketIterator
  import opened Params
  import opened RoundRobin
  import opened DefaultVrfBuilder
  import opened TransitBuilder
  import opened EncapDecapBuilder
  import opened FullRun
  import opened Ids
  import opened ProgrammedTables
  import opened Termination

  // One group.

  function Weights(g: Group): (w: seq<nat>)
    ensures |w| == |g.hops|
  {
    seq(|g.hops|, k requires 0 <= k < |g.hops| => g.hops[k].weight)
  }

  /** Position i lies in the stretch of bucket j; the last stretch has no end. */
  predicate Falls(quotas: seq<int>, j: nat, i: nat) {
    j < |quotas| && Start(quotas, j) <= i && (j + 1 < |quotas| ==> i < Start(quotas, j + 1))
  }

  /** Every position lies in exactly one stretch. */
  lemma FallsOnce(quotas: seq<int>, i: nat) returns (j: nat)
    requires quotas != []
    ensures forall k: nat :: Falls(quotas, k, i) <==> k == j
  {
    hide Start, BucketAt;
    j := BucketAt(quotas, i);
    assert j < |quotas| by { BucketInRange(quotas, i); }
    forall k: nat | k < |quotas|
      ensures Falls(quotas, k, i) <==> k == j
    {
      BucketAtIff(quotas, i, k);
    }
  }

  lemma BucketInRange(quotas: seq<int>, i: nat)
    requires quotas != []
    ensures BucketAt(quotas, i) < |quotas|
  {
  }

  /**
   * The weights of a group under a configuration.  ECMP: all one.  WCMP: they add up to the
   * granularity, all carry traffic exactly when there are enough units, and from two hops on
   * they are equal exactly when there is one unit per hop.
   */
  ghost predicate WeightLaw(w: seq<nat>, cfg: WeightConfig) {
    match cfg
    case ECMP => Sum(w) == |w| && forall k :: 0 <= k < |w| ==> w[k] == 1
    case WCMP(g) =>
      && w == Shares(g, |w|)
      && (|w| >= 1 ==> Sum(w) == g && (AllPositive(w) <==> g >= |w|))
      && (|w| >= 2 ==> (AllEqual(w) <==> g == |w|))
    case Unset => true
  }

  lemma WeightsForLaw(cfg: WeightConfig, n: nat)
    requires ValidConfig(cfg)
    ensures WeightLaw(WeightsFor(cfg, n), cfg)
  {
    hide Shares, AllPositive, AllEqual, SumTo;
    var w := WeightsFor(cfg, n);
    match cfg
    case ECMP => SumToConstant(w, n, 1);
    case WCMP(g) =>
      if n >= 1 {
        SharesSumToGranularity(g, n);
        SharesPositiveIff(g, n);
      }
      if n >= 2 {
        SharesEqualIff(g, n);
      }
  }

  /** Group g is the i-th of numNHG groups over n next-hops, as the two requests ask. */
  ghost predicate Follows(g: Group, numNHG: nat, lb: seq<LbParam>, wt: seq<WeightParam>, n: nat, i: nat)
    requires lb != [] && wt != []
  {
    forall j: nat, c: nat ::
      Falls(Quotas(numNHG, LbPcts(lb)), j, i) && Falls(Quotas(numNHG, WeightPcts(wt)), c, i) ==>
      |g.hops| == Min(lb[j].numNextHops, n) && WeightLaw(Weights(g), wt[c].config)
  }

  lemma BucketQuotas(numNHG: nat, lb: seq<LbParam>, wt: seq<WeightParam>)
    requires lb != [] && wt != []
    ensures LbQuotas(LbBucketsOf(numNHG, lb)) == Quotas(numNHG, LbPcts(lb))
    ensures WeightQuotas(WeightBucketsOf(numNHG, wt)) == Quotas(numNHG, WeightPcts(wt))
    ensures forall j :: 0 <= j < |lb| ==> LbBucketsOf(numNHG, lb)[j].numLoadBalancingNH == lb[j].numNextHops
    ensures forall c :: 0 <= c < |wt| ==> WeightBucketsOf(numNHG, wt)[c].config == wt[c].config
  {
    hide Quotas;
  }

  /** What call i of an iterator returns. */
  lemma CallFollows(numNHG: nat, lb: seq<LbParam>, wt: seq<WeightParam>, n: nat, i: nat, j: nat, c: nat)
    requires ValidLoadBalance(lb) && ValidWeight(wt) && i < numNHG
    requires Falls(Quotas(numNHG, LbPcts(lb)), j, i) && Falls(Quotas(numNHG, WeightPcts(wt)), c, i)
    ensures var w := CallWeights(numNHG, lb, wt, n)[i];
            |w| == Min(lb[j].numNextHops, n) && WeightLaw(w, wt[c].config)
  {
    hide CallWeights, LbBucketsOf, WeightBucketsOf, Quotas, BucketAt, Start, WeightLaw, WeightsFor;
    CallWeightsAt(numNHG, lb, wt, n, i);
    BucketQuotas(numNHG, lb, wt);
    BucketAtIff(Quotas(numNHG, LbPcts(lb)), i, j);
    BucketAtIff(Quotas(numNHG, WeightPcts(wt)), i, c);
    WeightsForLaw(wt[c].config, Min(lb[j].numNextHops, n));
  }

  lemma WeightsOfHops(baseNH: nat, offset: nat, n: nat, w: seq<nat>, backup: Option<nat>)
    ensures Weights(Group(HopsFrom(baseNH, offset, n, w), backup)) == w
  {
    hide Slot;
  }

  lemma CallGroupFollows(numNHG: nat, lb: seq<LbParam>, wt: seq<WeightParam>, n: nat, i: nat, g: Group,
                         baseNH: nat, offset: nat)
    requires ValidLoadBalance(lb) && ValidWeight(wt) && i < numNHG
    requires g.hops == HopsFrom(baseNH, offset, n, CallWeights(numNHG, lb, wt, n)[i])
    ensures Follows(g, numNHG, lb, wt, n, i)
  {
    hide CallWeights, Quotas, Start, WeightLaw, HopsFrom, Weights, SumTo;
    var w := CallWeights(numNHG, lb, wt, n)[i];
    WeightsOfHops(baseNH, offset, n, w, g.backup);
    assert g == Group(g.hops, g.backup);
    forall j: nat, c: nat | Falls(Quotas(numNHG, LbPcts(lb)), j, i) && Falls(Quotas(numNHG, WeightPcts(wt)), c, i)
      ensures |g.hops| == Min(lb[j].numNextHops, n) && WeightLaw(Weights(g), wt[c].config)
    {
      CallFollows(numNHG, lb, wt, n, i, j, c);
    }
  }

  // The programmed groups.

  /** Group i of a list that starts under id base, with n next-hops and the two requests. */
  ghost predicate FollowsAt(t: Table, base: nat, numNHG: nat, lb: seq<LbParam>, wt: seq<WeightParam>, n: nat, i: nat)
    requires lb != [] && wt != []
  {
    base + i in t.nhgs && Follows(t.nhgs[base + i], numNHG, lb, wt, n, i)
  }

  lemma RequestsGiven(p: ScaleParams, multi: bool)
    requires Programmed(p, multi)
    ensures ValidParams(p) && 0 < p.numEncapVRFs <= p.numEncapDefaultNHG && p.numUniqueEncapNH >= 0
    ensures p.defaultNHGLoadBalance != [] && p.defaultNHGWeight != []
    ensures p.transitNHGLoadBalance != [] && p.transitNHGWeight != []
    ensures p.encapNHGLoadBalance != [] && p.encapNHGWeight != []
  {
    hide CountsSafe, AddressesFit, NhPlan, NhgPlan;
    CompletesFacts(p);
  }

  /** Both halves of the default VRF. */
  lemma DefaultGroupsFollow(p: ScaleParams, multi: bool, i: nat)
    requires Programmed(p, multi) && i < NhgPart(p)
    ensures p.defaultNHGLoadBalance != [] && p.defaultNHGWeight != []
    ensures var t := ProgrammedTable(p, multi);
            && FollowsAt(t, NHG_BASE_DEFAULT, NhgPart(p), p.defaultNHGLoadBalance, p.defaultNHGWeight, NhPart(p), i)
            && FollowsAt(t, NHG_BASE_DEFAULT + NhgPart(p), NhgPart(p), p.defaultNHGLoadBalance, p.defaultNHGWeight,
                         NhPart(p), i)
  {
    hide ProgrammedTable, TableNh, TableNhg, Completes, NhPlan, NhgPlan, Follows, CallWeights, HopsFrom, Half, Offset,
         ValidLoadBalance, ValidWeight;
    RequestsGiven(p, multi);
    DefaultGroupIs(p, multi, i);
    TableHas(p, multi, NHG_BASE_DEFAULT + i);
    TableHas(p, multi, NHG_BASE_DEFAULT + NhgPart(p) + i);
    var offset := Offset(DefaultWeights(p), i);
    CallGroupFollows(NhgPart(p), p.defaultNHGLoadBalance, p.defaultNHGWeight, NhPart(p), i, PrimaryGroups(p)[i],
                     NH_BASE_DEFAULT, offset);
    CallGroupFollows(NhgPart(p), p.defaultNHGLoadBalance, p.defaultNHGWeight, NhPart(p), i, BackupGroups(p)[i],
                     NH_BASE_DEFAULT + NhPart(p), offset);
  }

  /** The two transit VRFs, each with its part of the counts. */
  lemma TransitGroupsFollow(p: ScaleParams, multi: bool, i: nat)
    requires Programmed(p, multi)
    ensures p.transitNHGLoadBalance != [] && p.transitNHGWeight != []
    ensures i < Half(p.numTransitNHG) ==>
              FollowsAt(ProgrammedTable(p, multi), NHG_BASE_TRANSIT, Half(p.numTransitNHG), p.transitNHGLoadBalance,
                        p.transitNHGWeight, Half(p.numTransitNH), i)
    ensures p.numTransitNH >= 2 && p.numTransitNHG >= 2 && i < p.numTransitNHG - Half(p.numTransitNHG) ==>
              FollowsAt(ProgrammedTable(p, multi), NHG_BASE_TRANSIT + Half(p.numTransitNHG),
                        p.numTransitNHG - Half(p.numTransitNHG), p.transitNHGLoadBalance, p.transitNHGWeight,
                        p.numTransitNH - Half(p.numTransitNH), i)
  {
    hide ProgrammedTable, TableNh, TableNhg, Completes, NhPlan, NhgPlan, Follows, CallWeights, HopsFrom, Half, Offset,
         ValidLoadBalance, ValidWeight, PrimaryPrefixes, BackupPrefixes;
    RequestsGiven(p, multi);
    SideCounts(p, multi);
    if i < Half(p.numTransitNHG) {
      PrimarySideGroupIs(p, multi, i);
      TableHas(p, multi, NHG_BASE_TRANSIT + i);
      SideGroupFollows(p, Primary(p), i);
    }
    if Built(Backup(p)) && i < Backup(p).nhgCount {
      BackupSideGroupIs(p, multi, i);
      TableHas(p, multi, Backup(p).baseNHG + i);
      SideGroupFollows(p, Backup(p), i);
    }
  }

  lemma SideGroupFollows(p: ScaleParams, s: Side, i: nat)
    requires ValidParams(p) && s.nhCount >= 1 && i < s.nhgCount
    ensures p.transitNHGLoadBalance != [] && p.transitNHGWeight != []
    ensures Follows(SideGroups(p, s)[i], s.nhgCount, p.transitNHGLoadBalance, p.transitNHGWeight, s.nhCount, i)
  {
    hide Follows, CallWeights, HopsFrom, Offset;
    CallGroupFollows(s.nhgCount, p.transitNHGLoadBalance, p.transitNHGWeight, s.nhCount, i, SideGroups(p, s)[i],
                     s.baseNH, Offset(SideWeights(p, s), i));
  }

  /** The groups of each encap VRF, with an iterator per VRF. */
  lemma EncapGroupsFollow(p: ScaleParams, multi: bool, vi: nat, i: nat)
    requires Programmed(p, multi) && vi < p.numEncapVRFs && 0 <= i < SliceCount(p, vi)
    ensures p.encapNHGLoadBalance != [] && p.encapNHGWeight != [] && SliceStart(p, vi) >= 0
    ensures p.numUniqueEncapNH >= 0
    ensures FollowsAt(ProgrammedTable(p, multi), FIRST_ENCAP_NHG + SliceStart(p, vi), SliceCount(p, vi),
                      p.encapNHGLoadBalance, p.encapNHGWeight, p.numUniqueEncapNH, i)
  {
    hide ProgrammedTable, TableNh, TableNhg, Completes, NhPlan, NhgPlan, Follows, CallWeights, HopsFrom, Offset,
         SliceStart, SliceCount, EncapWeights, ValidLoadBalance, ValidWeight;
    RequestsGiven(p, multi);
    SlicesTile(p, vi);
    var k := SliceStart(p, vi) + i;
    EncapGroupIs(p, multi);
    TableHas(p, multi, FIRST_ENCAP_NHG + k);
    SliceInAll(p, vi, i);
    CallGroupFollows(SliceCount(p, vi), p.encapNHGLoadBalance, p.encapNHGWeight, p.numUniqueEncapNH, i,
                     EncapGroups(p)[k], FIRST_ENCAP_NH, Offset(EncapWeights(p), k));
  }

  // Which next-hops.

  /** The i-th group of a list that starts under id base. */
  function HopsAt(t: Table, base: nat, i: nat): seq<Hop> {
    if base + i in t.nhgs then t.nhgs[base + i].hops else []
  }

  /** Hops of the groups before the i-th of a list. */
  function HopsBefore(t: Table, base: nat, i: nat): nat {
    if i == 0 then 0 else HopsBefore(t, base, i - 1) + |HopsAt(t, base, i - 1)|
  }

  /** The groups of a list take turns: each goes on where the one before it stopped. */
  ghost predicate TakesTurns(t: Table, base: nat, numNHG: nat, baseNH: nat, n: nat)
    requires n > 0
  {
    forall i: nat, k :: i < numNHG && 0 <= k < |HopsAt(t, base, i)| ==>
      HopsAt(t, base, i)[k].nh == baseNH + (HopsBefore(t, base, i) + k) % n
  }

  /** A list of groups is installed under consecutive ids. */
  ghost predicate Installed(t: Table, base: nat, groups: seq<Group>) {
    forall i :: 0 <= i < |groups| ==> Get(t.nhgs, base + i) == Some(groups[i])
  }

  lemma {:induction false} HopsBeforeIsOffset(t: Table, base: nat, baseNH: nat, n: nat, ws: seq<seq<nat>>,
                                              backup: Option<nat>, i: nat)
    requires Installed(t, base, GroupsOver(baseNH, n, ws, backup)) && i <= |ws|
    ensures HopsBefore(t, base, i) == Offset(ws, i)
  {
    if i > 0 {
      HopsBeforeIsOffset(t, base, baseNH, n, ws, backup, i - 1);
      assert Get(t.nhgs, base + (i - 1)) == Some(GroupsOver(baseNH, n, ws, backup)[i - 1]);
    }
  }

  lemma SlotIs(x: nat, n: nat)
    requires n > 0
    ensures Slot(x, n) == x % n
  {
  }

  lemma HopIs(baseNH: nat, offset: nat, n: nat, w: seq<nat>, k: nat)
    requires n > 0 && k < |w|
    ensures HopsFrom(baseNH, offset, n, w)[k].nh == baseNH + (offset + k) % n
  {
    hide Slot;
    assert HopsFrom(baseNH, offset, n, w)[k] == Hop(baseNH + Slot(offset + k, n), w[k]);
    SlotIs(offset + k, n);
  }

  lemma GroupsTakeTurns(t: Table, base: nat, baseNH: nat, n: nat, ws: seq<seq<nat>>, backup: Option<nat>)
    requires n > 0 && Installed(t, base, GroupsOver(baseNH, n, ws, backup))
    ensures TakesTurns(t, base, |ws|, baseNH, n)
  {
    hide Offset, HopsBefore, HopsFrom;
    forall i: nat, k | i < |ws| && 0 <= k < |HopsAt(t, base, i)|
      ensures HopsAt(t, base, i)[k].nh == baseNH + (HopsBefore(t, base, i) + k) % n
    {
      HopsBeforeIsOffset(t, base, baseNH, n, ws, backup, i);
      assert Get(t.nhgs, base + i) == Some(GroupsOver(baseNH, n, ws, backup)[i]);
      HopIs(baseNH, Offset(ws, i), n, ws[i], k);
    }
  }

  lemma DefaultInstalled(p: ScaleParams, multi: bool)
    requires Programmed(p, multi)
    ensures ValidParams(p)
    ensures Installed(ProgrammedTable(p, multi), NHG_BASE_DEFAULT, PrimaryGroups(p))
    ensures Installed(ProgrammedTable(p, multi), NHG_BASE_DEFAULT + NhgPart(p), BackupGroups(p))
  {
    hide ProgrammedTable, TableNh, TableNhg, Completes, NhPlan, NhgPlan, GroupsOver, Half, ValidLoadBalance,
         ValidWeight;
    RequestsGiven(p, multi);
    forall i | 0 <= i < NhgPart(p)
      ensures Get(ProgrammedTable(p, multi).nhgs, NHG_BASE_DEFAULT + i) == Some(PrimaryGroups(p)[i])
      ensures Get(ProgrammedTable(p, multi).nhgs, NHG_BASE_DEFAULT + NhgPart(p) + i) == Some(BackupGroups(p)[i])
    {
      DefaultGroupIs(p, multi, i);
      NhIs(p, multi, NHG_BASE_DEFAULT + i);
      NhIs(p, multi, NHG_BASE_DEFAULT + NhgPart(p) + i);
    }
  }

  lemma DefaultGroupsTakeTurns(p: ScaleParams, multi: bool)
    requires Programmed(p, multi)
    ensures TakesTurns(ProgrammedTable(p, multi), NHG_BASE_DEFAULT, NhgPart(p), NH_BASE_DEFAULT, NhPart(p))
    ensures TakesTurns(ProgrammedTable(p, multi), NHG_BASE_DEFAULT + NhgPart(p), NhgPart(p),
                       NH_BASE_DEFAULT + NhPart(p), NhPart(p))
  {
    hide ProgrammedTable, Completes, NhPlan, NhgPlan, CallWeights, GroupsOver, Half, ValidLoadBalance, ValidWeight,
         TakesTurns, Installed;
    DefaultInstalled(p, multi);
    var t, ws := ProgrammedTable(p, multi), DefaultWeights(p);
    GroupsTakeTurns(t, NHG_BASE_DEFAULT, NH_BASE_DEFAULT, NhPart(p), ws, None);
    GroupsTakeTurns(t, NHG_BASE_DEFAULT + NhgPart(p), NH_BASE_DEFAULT + NhPart(p), NhPart(p), ws, None);
  }

  lemma SidesInstalled(p: ScaleParams, multi: bool)
    requires Programmed(p, multi)
    ensures ValidParams(p)
    ensures Installed(ProgrammedTable(p, multi), NHG_BASE_TRANSIT, SideGroups(p, Primary(p)))
    ensures Built(Backup(p)) ==> Installed(ProgrammedTable(p, multi), Backup(p).baseNHG, SideGroups(p, Backup(p)))
  {
    hide ProgrammedTable, TableNh, TableNhg, Completes, NhPlan, NhgPlan, GroupsOver, Half, ValidLoadBalance,
         ValidWeight, PrimaryPrefixes, BackupPrefixes;
    RequestsGiven(p, multi);
    SideCounts(p, multi);
    var t := ProgrammedTable(p, multi);
    forall i | 0 <= i < Half(p.numTransitNHG)
      ensures Get(t.nhgs, NHG_BASE_TRANSIT + i) == Some(SideGroups(p, Primary(p))[i])
    {
      PrimarySideGroupIs(p, multi, i);
      NhIs(p, multi, NHG_BASE_TRANSIT + i);
    }
    forall i | 0 <= i < Backup(p).nhgCount && Built(Backup(p))
      ensures Get(t.nhgs, Backup(p).baseNHG + i) == Some(SideGroups(p, Backup(p))[i])
    {
      BackupSideGroupIs(p, multi, i);
      NhIs(p, multi, Backup(p).baseNHG + i);
    }
  }

  lemma TransitGroupsTakeTurns(p: ScaleParams, multi: bool)
    requires Programmed(p, multi)
    ensures TakesTurns(ProgrammedTable(p, multi), NHG_BASE_TRANSIT, Half(p.numTransitNHG), NH_BASE_TRANSIT,
                       Half(p.numTransitNH))
    ensures p.numTransitNH >= 2 && p.numTransitNHG >= 2 ==>
              p.numTransitNH > Half(p.numTransitNH) && p.numTransitNHG > Half(p.numTransitNHG) &&
              TakesTurns(ProgrammedTable(p, multi), NHG_BASE_TRANSIT + Half(p.numTransitNHG),
                         p.numTransitNHG - Half(p.numTransitNHG), NH_BASE_TRANSIT + Half(p.numTransitNH),
                         p.numTransitNH - Half(p.numTransitNH))
  {
    hide ProgrammedTable, Completes, NhPlan, NhgPlan, CallWeights, GroupsOver, Half, ValidLoadBalance, ValidWeight,
         TakesTurns, Installed, PrimaryPrefixes, BackupPrefixes;
    SideCounts(p, multi);
    SidesInstalled(p, multi);
    var t, a, b := ProgrammedTable(p, multi), Primary(p), Backup(p);
    GroupsTakeTurns(t, a.baseNHG, a.baseNH, a.nhCount, SideWeights(p, a), Some(a.backup));
    if Built(b) {
      GroupsTakeTurns(t, b.baseNHG, b.baseNH, b.nhCount, SideWeights(p, b), Some(b.backup));
    }
  }

  /** Over all encap VRFs together: the turn carries over from one VRF to the next. */
  lemma EncapGroupsTakeTurns(p: ScaleParams, multi: bool)
    requires Programmed(p, multi) && p.numUniqueEncapNH > 0
    ensures p.numEncapDefaultNHG > 0
    ensures TakesTurns(ProgrammedTable(p, multi), FIRST_ENCAP_NHG, p.numEncapDefaultNHG, FIRST_ENCAP_NH,
                       p.numUniqueEncapNH)
  {
    hide ProgrammedTable, TableNh, TableNhg, Completes, NhPlan, NhgPlan, EncapWeights, GroupsOver, ValidLoadBalance,
         ValidWeight, TakesTurns;
    RequestsGiven(p, multi);
    var t := ProgrammedTable(p, multi);
    EncapGroupIs(p, multi);
    forall i | 0 <= i < p.numEncapDefaultNHG
      ensures Get(t.nhgs, FIRST_ENCAP_NHG + i) == Some(EncapGroups(p)[i])
    {
      NhIs(p, multi, FIRST_ENCAP_NHG + i);
      assert TableNhg(p, multi, FIRST_ENCAP_NHG + i) == Some(EncapGroups(p)[i]);
    }
    assert Installed(t, FIRST_ENCAP_NHG, EncapGroups(p));
    GroupsTakeTurns(t, FIRST_ENCAP_NHG, FIRST_ENCAP_NH, p.numUniqueEncapNH, EncapWeights(p), None);
  }

  // How many groups of each kind.

  /** Of the first m groups of a list, those with h hops. */
  function GroupsOfSize(t: Table, base: nat, h: int, m: nat): nat {
    if m == 0 then 0 else GroupsOfSize(t, base, h, m - 1) + if |HopsAt(t, base, m - 1)| == h then 1 else 0
  }

  /** Of the first m groups of a list, those whose weights add up to g. */
  function GroupsOfWeight(t: Table, base: nat, g: int, m: nat): nat {
    if m == 0 then 0
    else GroupsOfWeight(t, base, g, m - 1) + if Sum(Weights(Group(HopsAt(t, base, m - 1), None))) == g then 1 else 0
  }

  /** Of n calls, those that use one of the first m buckets, of those that have label x. */
  function LabelledUses(quotas: seq<int>, labels: seq<int>, x: int, n: nat, m: nat): nat
    requires quotas != [] && m <= |labels|
  {
    if m == 0 then 0
    else LabelledUses(quotas, labels, x, n, m - 1) + if labels[m - 1] == x then UsesOf(quotas, m - 1, n) else 0
  }

  /** What is requested of the buckets that have label x. */
  function LabelledQuotas(quotas: seq<int>, labels: seq<int>, x: int, m: nat): int
    requires m <= |labels| == |quotas|
  {
    if m == 0 then 0
    else LabelledQuotas(quotas, labels, x, m - 1) + if labels[m - 1] == x then quotas[m - 1] else 0
  }

  lemma {:induction false} NoUsesYet(quotas: seq<int>, labels: seq<int>, x: int, m: nat)
    requires quotas != [] && m <= |labels|
    ensures LabelledUses(quotas, labels, x, 0, m) == 0
  {
    if m > 0 {
      NoUsesYet(quotas, labels, x, m - 1);
    }
  }

  /** One more call counts for its own bucket. */
  lemma {:induction false} OneMoreUse(quotas: seq<int>, labels: seq<int>, x: int, n: nat, m: nat)
    requires quotas != [] && m <= |labels| == |quotas|
    ensures BucketAt(quotas, n) < |quotas|
    ensures LabelledUses(quotas, labels, x, n + 1, m) == LabelledUses(quotas, labels, x, n, m)
            + if BucketAt(quotas, n) < m && labels[BucketAt(quotas, n)] == x then 1 else 0
    decreases m
  {
    hide BucketAt;
    BucketInRange(quotas, n);
    if m > 0 {
      OneMoreUse(quotas, labels, x, n, m - 1);
    }
  }

  lemma {:induction false} UsesAreQuotas(quotas: seq<int>, labels: seq<int>, x: int, m: nat)
    requires quotas != [] && Sum(quotas) >= 0 && m <= |labels| == |quotas| && Realises(quotas)
    ensures LabelledUses(quotas, labels, x, Sum(quotas), m) == LabelledQuotas(quotas, labels, x, m)
  {
    hide UsesOf, SumTo;
    if m > 0 {
      UsesAreQuotas(quotas, labels, x, m - 1);
    }
  }

  /** The hop counts that the load-balancing buckets lead to. */
  function Sizes(lb: seq<LbParam>, n: nat): (r: seq<int>)
    ensures |r| == |lb|
  {
    seq(|lb|, j requires 0 <= j < |lb| => Min(lb[j].numNextHops, n))
  }

  /** The total weights that the weight buckets lead to, when all are WCMP. */
  function Totals(wt: seq<WeightParam>): (r: seq<int>)
    requires forall c :: 0 <= c < |wt| ==> wt[c].config.WCMP?
    ensures |r| == |wt|
  {
    seq(|wt|, c requires 0 <= c < |wt| => wt[c].config.granularity)
  }

  /** All groups of a list are as the requests ask. */
  ghost predicate AllFollow(t: Table, base: nat, numNHG: nat, lb: seq<LbParam>, wt: seq<WeightParam>, n: nat)
    requires lb != [] && wt != []
  {
    forall i: nat :: i < numNHG ==> FollowsAt(t, base, numNHG, lb, wt, n, i)
  }

  lemma SizeIs(t: Table, base: nat, numNHG: nat, lb: seq<LbParam>, wt: seq<WeightParam>, n: nat, i: nat)
    requires lb != [] && wt != [] && FollowsAt(t, base, numNHG, lb, wt, n, i)
    ensures var j := BucketAt(Quotas(numNHG, LbPcts(lb)), i);
            j < |lb| && |HopsAt(t, base, i)| == Sizes(lb, n)[j]
  {
    hide Quotas, Start, BucketAt, WeightLaw;
    var q, w := Quotas(numNHG, LbPcts(lb)), Quotas(numNHG, WeightPcts(wt));
    var j, c := BucketAt(q, i), BucketAt(w, i);
    BucketInRange(q, i);
    BucketInRange(w, i);
    BucketAtIff(q, i, j);
    BucketAtIff(w, i, c);
    assert Falls(q, j, i) && Falls(w, c, i);
  }

  lemma {:induction false} SizesCounted(t: Table, base: nat, numNHG: nat, lb: seq<LbParam>, wt: seq<WeightParam>,
                                        n: nat, h: int, m: nat)
    requires lb != [] && wt != [] && AllFollow(t, base, numNHG, lb, wt, n) && m <= numNHG
    ensures GroupsOfSize(t, base, h, m) == LabelledUses(Quotas(numNHG, LbPcts(lb)), Sizes(lb, n), h, m, |lb|)
  {
    hide Quotas, BucketAt, LabelledUses, FollowsAt, Sizes, HopsAt;
    var q := Quotas(numNHG, LbPcts(lb));
    if m == 0 {
      NoUsesYet(q, Sizes(lb, n), h, |lb|);
    } else {
      SizesCounted(t, base, numNHG, lb, wt, n, h, m - 1);
      OneMoreUse(q, Sizes(lb, n), h, m - 1, |lb|);
      SizeIs(t, base, numNHG, lb, wt, n, m - 1);
    }
  }

  lemma WeightIs(t: Table, base: nat, numNHG: nat, lb: seq<LbParam>, wt: seq<WeightParam>, n: nat, i: nat)
    requires lb != [] && wt != [] && FollowsAt(t, base, numNHG, lb, wt, n, i) && n > 0
    requires forall c :: 0 <= c < |wt| ==> wt[c].config.WCMP?
    requires forall j :: 0 <= j < |lb| ==> lb[j].numNextHops > 0
    ensures var c := BucketAt(Quotas(numNHG, WeightPcts(wt)), i);
            c < |wt| && Sum(Weights(Group(HopsAt(t, base, i), None))) == Totals(wt)[c]
  {
    hide Quotas, Start, BucketAt, Shares, AllPositive, AllEqual, SumTo;
    var q, w := Quotas(numNHG, LbPcts(lb)), Quotas(numNHG, WeightPcts(wt));
    var j, c := BucketAt(q, i), BucketAt(w, i);
    BucketInRange(q, i);
    BucketInRange(w, i);
    BucketAtIff(q, i, j);
    BucketAtIff(w, i, c);
    assert Falls(q, j, i) && Falls(w, c, i);
    assert Weights(Group(HopsAt(t, base, i), None)) == Weights(t.nhgs[base + i]);
    assert |Weights(t.nhgs[base + i])| >= 1;
  }

  lemma {:induction false} WeightsCounted(t: Table, base: nat, numNHG: nat, lb: seq<LbParam>, wt: seq<WeightParam>,
                                          n: nat, g: int, m: nat)
    requires lb != [] && wt != [] && AllFollow(t, base, numNHG, lb, wt, n) && n > 0 && m <= numNHG
    requires forall c :: 0 <= c < |wt| ==> wt[c].config.WCMP?
    requires forall j :: 0 <= j < |lb| ==> lb[j].numNextHops > 0
    ensures GroupsOfWeight(t, base, g, m) == LabelledUses(Quotas(numNHG, WeightPcts(wt)), Totals(wt), g, m, |wt|)
  {
    hide Quotas, BucketAt, LabelledUses, FollowsAt, Totals, HopsAt, Weights, SumTo;
    var w := Quotas(numNHG, WeightPcts(wt));
    if m == 0 {
      NoUsesYet(w, Totals(wt), g, |wt|);
    } else {
      WeightsCounted(t, base, numNHG, lb, wt, n, g, m - 1);
      OneMoreUse(w, Totals(wt), g, m - 1, |wt|);
      WeightIs(t, base, numNHG, lb, wt, n, m - 1);
    }
  }

  /**
   * Conservation of the requests: when the iterator realises the partition, the groups of each
   * size are as many as the load-balancing request asks for, and, where all are WCMP, the
   * groups of each total weight as many as the weight request asks for.
   */
  ghost predicate AsRequested(t: Table, base: nat, numNHG: nat, lb: seq<LbParam>, wt: seq<WeightParam>, n: nat)
    requires lb != [] && wt != []
  {
    var q, w := Quotas(numNHG, LbPcts(lb)), Quotas(numNHG, WeightPcts(wt));
    && (NoEmptyInterior(q) ==>
          forall h :: GroupsOfSize(t, base, h, numNHG) == LabelledQuotas(q, Sizes(lb, n), h, |lb|))
    && (NoEmptyInterior(w) && n > 0 && (forall c :: 0 <= c < |wt| ==> wt[c].config.WCMP?) ==>
          forall g :: GroupsOfWeight(t, base, g, numNHG) == LabelledQuotas(w, Totals(wt), g, |wt|))
  }

  /** No empty interior bucket is reached while groups are still to be created. */
  ghost predicate NoEmptyInterior(quotas: seq<int>) {
    forall j :: 0 <= j < |quotas| ==> !EmptyInteriorAt(quotas, j)
  }

  lemma QuotasRealised(numNHG: nat, pcts: seq<int>)
    requires Percentages(pcts) && NoEmptyInterior(Quotas(numNHG, pcts))
    ensures Sum(Quotas(numNHG, pcts)) == numNHG && Realises(Quotas(numNHG, pcts))
  {
    hide Quotas, Realises, SumTo;
    QuotasSum(numNHG, pcts);
    QuotasNonNegative(numNHG, pcts);
    RealisesIff(Quotas(numNHG, pcts));
  }

  lemma ListAsRequested(t: Table, base: nat, numNHG: nat, lb: seq<LbParam>, wt: seq<WeightParam>, n: nat)
    requires ValidLoadBalance(lb) && ValidWeight(wt) && AllFollow(t, base, numNHG, lb, wt, n)
    ensures AsRequested(t, base, numNHG, lb, wt, n)
  {
    hide Quotas, AllFollow, GroupsOfSize, GroupsOfWeight, LabelledUses, LabelledQuotas, Sizes, Totals, NoEmptyInterior,
         Realises;
    var q, w := Quotas(numNHG, LbPcts(lb)), Quotas(numNHG, WeightPcts(wt));
    if NoEmptyInterior(q) {
      QuotasRealised(numNHG, LbPcts(lb));
      forall h
        ensures GroupsOfSize(t, base, h, numNHG) == LabelledQuotas(q, Sizes(lb, n), h, |lb|)
      {
        SizesCounted(t, base, numNHG, lb, wt, n, h, numNHG);
        UsesAreQuotas(q, Sizes(lb, n), h, |lb|);
      }
    }
    if NoEmptyInterior(w) && n > 0 && (forall c :: 0 <= c < |wt| ==> wt[c].config.WCMP?) {
      QuotasRealised(numNHG, WeightPcts(wt));
      forall g
        ensures GroupsOfWeight(t, base, g, numNHG) == LabelledQuotas(w, Totals(wt), g, |wt|)
      {
        WeightsCounted(t, base, numNHG, lb, wt, n, g, numNHG);
        UsesAreQuotas(w, Totals(wt), g, |wt|);
      }
    }
  }

  /** Each half of the default VRF. */
  lemma DefaultAsRequested(p: ScaleParams, multi: bool)
    requires Programmed(p, multi)
    ensures p.defaultNHGLoadBalance != [] && p.defaultNHGWeight != []
    ensures AsRequested(ProgrammedTable(p, multi), NHG_BASE_DEFAULT, NhgPart(p), p.defaultNHGLoadBalance,
                        p.defaultNHGWeight, NhPart(p))
    ensures AsRequested(ProgrammedTable(p, multi), NHG_BASE_DEFAULT + NhgPart(p), NhgPart(p),
                        p.defaultNHGLoadBalance, p.defaultNHGWeight, NhPart(p))
  {
    hide ProgrammedTable, Completes, NhPlan, NhgPlan, FollowsAt, AsRequested, Half, ValidLoadBalance, ValidWeight;
    RequestsGiven(p, multi);
    var t := ProgrammedTable(p, multi);
    var lb, wt := p.defaultNHGLoadBalance, p.defaultNHGWeight;
    var second := NHG_BASE_DEFAULT + NhgPart(p);
    forall i: nat | i < NhgPart(p)
      ensures FollowsAt(t, NHG_BASE_DEFAULT, NhgPart(p), lb, wt, NhPart(p), i)
    {
      DefaultGroupsFollow(p, multi, i);
    }
    forall i: nat | i < NhgPart(p)
      ensures FollowsAt(t, second, NhgPart(p), lb, wt, NhPart(p), i)
    {
      DefaultGroupsFollow(p, multi, i);
    }
    ListAsRequested(t, NHG_BASE_DEFAULT, NhgPart(p), lb, wt, NhPart(p));
    ListAsRequested(t, second, NhgPart(p), lb, wt, NhPart(p));
  }

  /** TE_VRF_111, and TE_VRF_222 where it is built. */
  lemma TransitAsRequested(p: ScaleParams, multi: bool)
    requires Programmed(p, multi)
    ensures p.transitNHGLoadBalance != [] && p.transitNHGWeight != []
    ensures AsRequested(ProgrammedTable(p, multi), NHG_BASE_TRANSIT, Half(p.numTransitNHG), p.transitNHGLoadBalance,
                        p.transitNHGWeight, Half(p.numTransitNH))
    ensures p.numTransitNH >= 2 && p.numTransitNHG >= 2 ==>
              p.numTransitNH > Half(p.numTransitNH) && p.numTransitNHG > Half(p.numTransitNHG) &&
              AsRequested(ProgrammedTable(p, multi), NHG_BASE_TRANSIT + Half(p.numTransitNHG),
                          p.numTransitNHG - Half(p.numTransitNHG), p.transitNHGLoadBalance, p.transitNHGWeight,
                          p.numTransitNH - Half(p.numTransitNH))
  {
    hide ProgrammedTable, Completes, NhPlan, NhgPlan, FollowsAt, AsRequested, Half, ValidLoadBalance, ValidWeight,
         PrimaryPrefixes, BackupPrefixes;
    RequestsGiven(p, multi);
    SideCounts(p, multi);
    var t := ProgrammedTable(p, multi);
    var lb, wt := p.transitNHGLoadBalance, p.transitNHGWeight;
    var a, b := Primary(p), Backup(p);
    forall i: nat | i < a.nhgCount
      ensures FollowsAt(t, a.baseNHG, a.nhgCount, lb, wt, a.nhCount, i)
    {
      TransitGroupsFollow(p, multi, i);
    }
    ListAsRequested(t, a.baseNHG, a.nhgCount, lb, wt, a.nhCount);
    if Built(b) {
      forall i: nat | i < b.nhgCount
        ensures FollowsAt(t, b.baseNHG, b.nhgCount, lb, wt, b.nhCount, i)
      {
        TransitGroupsFollow(p, multi, i);
      }
      ListAsRequested(t, b.baseNHG, b.nhgCount, lb, wt, b.nhCount);
    }
  }

  /** Each encap VRF by itself. */
  lemma EncapAsRequested(p: ScaleParams, multi: bool, vi: nat)
    requires Programmed(p, multi) && vi < p.numEncapVRFs
    ensures p.encapNHGLoadBalance != [] && p.encapNHGWeight != [] && p.numUniqueEncapNH >= 0
    ensures SliceStart(p, vi) >= 0 && SliceCount(p, vi) >= 1
    ensures AsRequested(ProgrammedTable(p, multi), FIRST_ENCAP_NHG + SliceStart(p, vi), SliceCount(p, vi),
                        p.encapNHGLoadBalance, p.encapNHGWeight, p.numUniqueEncapNH)
  {
    hide ProgrammedTable, Completes, NhPlan, NhgPlan, FollowsAt, AsRequested, SliceStart, SliceCount,
         ValidLoadBalance, ValidWeight;
    RequestsGiven(p, multi);
    SlicesTile(p, vi);
    var t, base := ProgrammedTable(p, multi), FIRST_ENCAP_NHG + SliceStart(p, vi);
    var lb, wt := p.encapNHGLoadBalance, p.encapNHGWeight;
    forall i: nat | i < SliceCount(p, vi)
      ensures FollowsAt(t, base, SliceCount(p, vi), lb, wt, p.numUniqueEncapNH, i)
    {
      EncapGroupsFollow(p, multi, vi, i);
    }
    ListAsRequested(t, base, SliceCount(p, vi), lb, wt, p.numUniqueEncapNH);
  }
}
