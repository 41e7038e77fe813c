/**
 * Round-robin allocation of next-hops to next-hop-groups.
 *
 * Group i takes the next |ws[i]| next-hops after the ones taken by groups 0..i-1, wrapping
 * around at n.  The running offset of the source is Offset(ws, i).
 */
module RoundRobin {
  import opened GoInts
  import opened IpUtil
  import opened Rib
  import opened Integrity

  /** Next-hops handed out before group i. */
  function Offset(ws: seq<seq<nat>>, i: nat): nat
    requires i <= |ws|
  {
    if i == 0 then 0 else Offset(ws, i - 1) + |ws[i - 1]|
  }

  /** Position x of the round; with no next-hops there is nothing to hand out. */
  function Slot(x: nat, n: nat): nat {
    if n == 0 then 0 else x % n
  }

  lemma SlotInjective(x: nat, y: nat, n: nat)
    requires x < y < x + n
    ensures Slot(x, n) != Slot(y, n)
  {
    ModInjective(x, y, n);
  }

  lemma SlotBelow(x: nat, n: nat)
    requires n > 0
    ensures Slot(x, n) < n
  {
  }

  function HopsFrom(baseNH: nat, offset: nat, n: nat, weights: seq<nat>): (hops: seq<Hop>)
    ensures |hops| == |weights|
  {
    seq(|weights|, j requires 0 <= j < |weights| => Hop(baseNH + Slot(offset + j, n), weights[j]))
  }

  /** No group has more hops than there are next-hops. */
  ghost predicate Allocatable(ws: seq<seq<nat>>, n: nat) {
    forall i :: 0 <= i < |ws| ==> |ws[i]| <= n
  }

  function GroupAt(baseNH: nat, n: nat, ws: seq<seq<nat>>, backup: Option<nat>, i: nat): Group
    requires i < |ws|
  {
    Group(HopsFrom(baseNH, Offset(ws, i), n, ws[i]), backup)
  }

  function GroupsOver(baseNH: nat, n: nat, ws: seq<seq<nat>>, backup: Option<nat>): (gs: seq<Group>)
    ensures |gs| == |ws|
  {
    seq(|ws|, i requires 0 <= i < |ws| => GroupAt(baseNH, n, ws, backup, i))
  }

  lemma HopsFromWithin(baseNH: nat, offset: nat, n: nat, weights: seq<nat>)
    requires |weights| <= n
    ensures forall j :: 0 <= j < |weights| ==> baseNH <= HopsFrom(baseNH, offset, n, weights)[j].nh < baseNH + n
  {
    hide Slot;
    forall j | 0 <= j < |weights|
      ensures baseNH <= HopsFrom(baseNH, offset, n, weights)[j].nh < baseNH + n
    {
      SlotBelow(offset + j, n);
    }
  }

  /** Allocation stays within the n next-hops. */
  lemma GroupsOverWithin(baseNH: nat, n: nat, ws: seq<seq<nat>>, backup: Option<nat>)
    requires Allocatable(ws, n)
    ensures AllWithin(GroupsOver(baseNH, n, ws, backup), baseNH, n)
  {
    hide Offset, HopsFrom;
    var gs := GroupsOver(baseNH, n, ws, backup);
    forall k | 0 <= k < |gs|
      ensures HopsWithin(gs[k], baseNH, n)
    {
      assert |ws[k]| <= n;
      HopsFromWithin(baseNH, Offset(ws, k), n, ws[k]);
    }
  }

  lemma OffsetZero(ws: seq<seq<nat>>)
    ensures Offset(ws, 0) == 0
  {
  }

  lemma OffsetStep(ws: seq<seq<nat>>, i: nat)
    requires i < |ws|
    ensures Offset(ws, i + 1) == Offset(ws, i) + |ws[i]|
  {
  }

  /** The inner loop of every group builder. */
  method AddHops(baseNH: nat, nhOffset: nat, n: nat, weights: seq<nat>) returns (hops: seq<Hop>)
    requires weights == [] || n > 0
    ensures hops == HopsFrom(baseNH, nhOffset, n, weights)
  {
    hops := [];
    for j := 0 to |weights|
      invariant |hops| == j
      invariant forall k :: 0 <= k < j ==> hops[k] == Hop(baseNH + Slot(nhOffset + k, n), weights[k])
    {
      var nhID := baseNH + (nhOffset + j) % n;
      hops := hops + [Hop(nhID, weights[j])];
    }
  }

  /** Within one group no next-hop is used twice. */
  lemma HopsDistinct(baseNH: nat, offset: nat, n: nat, weights: seq<nat>)
    requires |weights| <= n
    ensures var hops := HopsFrom(baseNH, offset, n, weights);
            forall i, j :: 0 <= i < j < |hops| ==> hops[i].nh != hops[j].nh
  {
    hide Slot;
    var hops := HopsFrom(baseNH, offset, n, weights);
    forall i, j | 0 <= i < j < |hops|
      ensures hops[i].nh != hops[j].nh
    {
      SlotInjective(offset + i, offset + j, n);
    }
  }

  /** References of a hop list to one next-hop. */
  function HopRefs(hops: seq<Hop>, id: nat): nat {
    if hops == [] then 0
    else HopRefs(hops[..|hops| - 1], id) + if hops[|hops| - 1].nh == id then 1 else 0
  }

  /** References of groups 0..m-1 to one next-hop. */
  function GroupRefs(baseNH: nat, n: nat, ws: seq<seq<nat>>, id: nat, m: nat): nat
    requires m <= |ws|
  {
    if m == 0 then 0
    else GroupRefs(baseNH, n, ws, id, m - 1) + HopRefs(GroupAt(baseNH, n, ws, None, m - 1).hops, id)
  }

  /** How many of 0..t-1 have remainder j modulo n. */
  function Hits(t: nat, n: nat, j: nat): nat
    requires n > 0
  {
    if t == 0 then 0 else Hits(t - 1, n, j) + if (t - 1) % n == j then 1 else 0
  }

  lemma HitsStep(t: nat, n: nat, j: nat)
    requires n > 0
    ensures Hits(t + 1, n, j) == Hits(t, n, j) + if Slot(t, n) == j then 1 else 0
  {
  }

  lemma {:induction false} HitsClosedForm(t: nat, n: nat, j: nat)
    requires j < n
    ensures Hits(t, n, j) == t / n + if j < t % n then 1 else 0
  {
    if t == 0 {
      ModSmall(0, n);
    } else {
      HitsClosedForm(t - 1, n, j);
      NextDivMod(t - 1, n);
    }
  }

  /** One group contributes the hits of the positions it covers. */
  lemma {:induction false} HopRefsAreHits(baseNH: nat, offset: nat, n: nat, weights: seq<nat>, j: nat)
    requires n > 0 && j < n
    ensures HopRefs(HopsFrom(baseNH, offset, n, weights), baseNH + j) + Hits(offset, n, j) ==
            Hits(offset + |weights|, n, j)
  {
    hide Slot, Hits;
    if weights != [] {
      var k := |weights| - 1;
      HopRefsAreHits(baseNH, offset, n, weights[..k], j);
      var hops := HopsFrom(baseNH, offset, n, weights);
      assert hops[..k] == HopsFrom(baseNH, offset, n, weights[..k]);
      HitsStep(offset + k, n, j);
      assert hops[k].nh == baseNH + Slot(offset + k, n);
    }
  }

  lemma {:induction false} GroupRefsAreHits(baseNH: nat, n: nat, ws: seq<seq<nat>>, j: nat, m: nat)
    requires m <= |ws| && j < n
    ensures GroupRefs(baseNH, n, ws, baseNH + j, m) == Hits(Offset(ws, m), n, j)
  {
    if m > 0 {
      GroupRefsAreHits(baseNH, n, ws, j, m - 1);
      HopRefsAreHits(baseNH, Offset(ws, m - 1), n, ws[m - 1], j);
    }
  }

  /**
   * Round-robin fairness.  With T references in all, next-hop j of n is referenced T / n times,
   * and once more exactly when j is below T % n.
   */
  lemma RoundRobinFair(baseNH: nat, n: nat, ws: seq<seq<nat>>, j: nat)
    requires j < n
    ensures var t := Offset(ws, |ws|);
            GroupRefs(baseNH, n, ws, baseNH + j, |ws|) == t / n + if j < t % n then 1 else 0
  {
    GroupRefsAreHits(baseNH, n, ws, j, |ws|);
    HitsClosedForm(Offset(ws, |ws|), n, j);
  }
}
