/**
 * vrf_selection_policy_c: numbered match rules on port 1, of which the first that matches a
 * packet decides its network instance, or its decapsulation.
 */
module Policy {
  import opened GoInts
  import opened IpUtil
  import opened Rib
  import opened Params
  import opened Forwarding

  datatype Match =
    | MatchIpv4(protocol: Option<nat>, source: Option<nat>, dscps: Option<seq<nat>>)
    | MatchIpv6(dscpSet: seq<nat>)
    | MatchEthertype(v4: bool)
    | MatchAny

  datatype Action =
    | Decapsulate(decap: Vrf, post: Vrf, fallback: Vrf)
    | Select(vrf: Vrf)

  datatype Rule = Rule(cond: Match, action: Action)

  predicate Matches(m: Match, pkt: Packet) {
    match m
    case MatchIpv4(protocol, source, dscps) =>
      && pkt.dst.V4?
      && (protocol.Some? ==> Protocol(pkt) == protocol.value)
      && (source.Some? ==> pkt.src == V4(source.value))
      && (dscps.Some? ==> pkt.dscp in dscps.value)
    case MatchIpv6(dscps) => pkt.dst.V6? && pkt.dscp in dscps
    case MatchEthertype(v4) => pkt.dst.V4? == v4
    case MatchAny => true
  }

  /** The first rule that matches decides. */
  function FirstMatch(rules: seq<Rule>, pkt: Packet): Option<Action> {
    if rules == [] then None
    else if Matches(rules[0].cond, pkt) then Some(rules[0].action)
    else FirstMatch(rules[1..], pkt)
  }

  // The rules, in order.

  /** EncapVRFDSCP; the values are bytes. */
  function EncapDscps(vi: nat): seq<nat> {
    [(10 + vi * 2) % 256, (11 + vi * 2) % 256]
  }

  function TunnelRule(source: nat, protocol: nat, dscps: Option<seq<nat>>, post: Vrf): Rule {
    Rule(MatchIpv4(Some(protocol), Some(source), dscps),
         Decapsulate(DecapVrf, post, if source == OUTER_SRC_111 then TransitVrf111 else TransitVrf222))
  }

  function TunnelRules(dscps: Option<seq<nat>>, post: Vrf): seq<Rule> {
    [TunnelRule(OUTER_SRC_222, 4, dscps, post), TunnelRule(OUTER_SRC_222, 41, dscps, post),
     TunnelRule(OUTER_SRC_111, 4, dscps, post), TunnelRule(OUTER_SRC_111, 41, dscps, post)]
  }

  function DecapBlock(n: nat): seq<Rule> {
    if n == 0 then [] else DecapBlock(n - 1) + TunnelRules(Some(EncapDscps(n - 1)), EncapVrf(n - 1))
  }

  function EncapRules(vi: nat): seq<Rule> {
    [Rule(MatchIpv4(None, None, Some(EncapDscps(vi))), Select(EncapVrf(vi))),
     Rule(MatchIpv6(EncapDscps(vi)), Select(EncapVrf(vi)))]
  }

  function EncapBlock(n: nat): seq<Rule> {
    if n == 0 then [] else EncapBlock(n - 1) + EncapRules(n - 1)
  }

  function DefaultBlock(requireMatch: bool): seq<Rule> {
    if requireMatch
    then [Rule(MatchEthertype(true), Select(DefaultVrf)), Rule(MatchEthertype(false), Select(DefaultVrf))]
    else [Rule(MatchAny, Select(DefaultVrf))]
  }

  function PolicyRules(n: nat, requireMatch: bool): seq<Rule> {
    DecapBlock(n) + TunnelRules(None, DefaultVrf) + EncapBlock(n) + DefaultBlock(requireMatch)
  }

  /** Rules under sequence numbers 1, 2, ... */
  ghost predicate Numbered(rules: map<nat, Rule>, s: seq<Rule>) {
    && (forall k :: k in rules <==> 1 <= k <= |s|)
    && (forall i :: 0 <= i < |s| ==> rules[i + 1] == s[i])
  }

  lemma NumberedAppend(rules: map<nat, Rule>, s: seq<Rule>, r: Rule)
    requires Numbered(rules, s)
    ensures Numbered(rules[|s| + 1 := r], s + [r])
  {
  }

  /** The four rules of one DSCP class, from sequence number seq on. */
  method AddTunnelRules(rules: map<nat, Rule>, sequence: nat, dscps: Option<seq<nat>>, post: Vrf, ghost s: seq<Rule>)
    returns (rules': map<nat, Rule>, sequence': nat)
    requires Numbered(rules, s) && sequence == |s| + 1
    ensures Numbered(rules', s + TunnelRules(dscps, post)) && sequence' == sequence + 4
  {
    hide Numbered;
    rules', sequence' := rules, sequence;
    ghost var t := s;
    var sources := [OUTER_SRC_222, OUTER_SRC_111];
    for i := 0 to 2
      invariant sequence' == |t| + 1 && Numbered(rules', t)
      invariant t == s + TunnelRules(dscps, post)[..2 * i]
    {
      var source := sources[i];
      var fallback := TransitVrf222;
      if source == OUTER_SRC_111 {
        fallback := TransitVrf111;
      }
      var r4 := Rule(MatchIpv4(Some(4), Some(source), dscps), Decapsulate(DecapVrf, post, fallback));
      NumberedAppend(rules', t, r4);
      rules', t := rules'[sequence' := r4], t + [r4];
      sequence' := sequence' + 1;
      var r41 := Rule(MatchIpv4(Some(41), Some(source), dscps), Decapsulate(DecapVrf, post, fallback));
      NumberedAppend(rules', t, r41);
      rules', t := rules'[sequence' := r41], t + [r41];
      sequence' := sequence' + 1;
    }
    assert TunnelRules(dscps, post)[..4] == TunnelRules(dscps, post);
  }

  lemma BlocksGrow(n: nat, s: seq<Rule>)
    ensures s + DecapBlock(n) + TunnelRules(Some(EncapDscps(n)), EncapVrf(n)) == s + DecapBlock(n + 1)
    ensures s + EncapBlock(n) + EncapRules(n) == s + EncapBlock(n + 1)
  {
    assert s + (DecapBlock(n) + TunnelRules(Some(EncapDscps(n)), EncapVrf(n))) ==
           s + DecapBlock(n) + TunnelRules(Some(EncapDscps(n)), EncapVrf(n));
    assert s + (EncapBlock(n) + EncapRules(n)) == s + EncapBlock(n) + EncapRules(n);
  }

  /** ConfigureVRFSelectionPolicyOC, up to the binding to port 1. */
  method ConfigureVRFSelectionPolicy(n: nat, requireMatch: bool) returns (rules: map<nat, Rule>)
    ensures Numbered(rules, PolicyRules(n, requireMatch))
  {
    hide Numbered, DecapBlock, EncapBlock, EncapDscps, TunnelRules;
    rules := map[];
    var sequence: nat := 1;
    BlocksEmpty(rules);
    for i := 0 to n
      invariant Numbered(rules, DecapBlock(i)) && sequence == |DecapBlock(i)| + 1
    {
      ghost var before := DecapBlock(i);
      rules, sequence := AddTunnelRules(rules, sequence, Some(EncapDscps(i)), EncapVrf(i), before);
      BlocksGrow(i, []);
      TunnelRulesLength(Some(EncapDscps(i)), EncapVrf(i));
      assert [] + DecapBlock(i) == DecapBlock(i) && [] + DecapBlock(i + 1) == DecapBlock(i + 1);
    }
    rules, sequence := AddTunnelRules(rules, sequence, None, DefaultVrf, DecapBlock(n));
    TunnelRulesLength(None, DefaultVrf);
    ghost var front := DecapBlock(n) + TunnelRules(None, DefaultVrf);
    assert front + EncapBlock(0) == front;
    for i := 0 to n
      invariant Numbered(rules, front + EncapBlock(i)) && sequence == |front + EncapBlock(i)| + 1
    {
      ghost var before := front + EncapBlock(i);
      var r4 := Rule(MatchIpv4(None, None, Some(EncapDscps(i))), Select(EncapVrf(i)));
      NumberedAppend(rules, before, r4);
      rules := rules[sequence := r4];
      sequence := sequence + 1;
      var r6 := Rule(MatchIpv6(EncapDscps(i)), Select(EncapVrf(i)));
      NumberedAppend(rules, before + [r4], r6);
      rules := rules[sequence := r6];
      sequence := sequence + 1;
      assert before + [r4] + [r6] == before + EncapRules(i);
      BlocksGrow(i, front);
    }
    ghost var before := front + EncapBlock(n);
    if requireMatch {
      var r4 := Rule(MatchEthertype(true), Select(DefaultVrf));
      NumberedAppend(rules, before, r4);
      rules := rules[sequence := r4];
      sequence := sequence + 1;
      var r6 := Rule(MatchEthertype(false), Select(DefaultVrf));
      NumberedAppend(rules, before + [r4], r6);
      rules := rules[sequence := r6];
      assert before + [r4] + [r6] == PolicyRules(n, requireMatch);
    } else {
      var r := Rule(MatchAny, Select(DefaultVrf));
      NumberedAppend(rules, before, r);
      rules := rules[sequence := r];
      assert before + [r] == PolicyRules(n, requireMatch);
    }
  }

  lemma BlocksEmpty(rules: map<nat, Rule>)
    requires rules == map[]
    ensures DecapBlock(0) == [] && EncapBlock(0) == [] && Numbered(rules, [])
  {
  }

  lemma TunnelRulesLength(dscps: Option<seq<nat>>, post: Vrf)
    ensures |TunnelRules(dscps, post)| == 4
  {
  }

  // What the policy means.

  /** The encap VRF whose DSCP pair a value belongs to; the pairs wrap around at 256. */
  function ClassOf(dscp: nat, n: nat): Option<nat> {
    var k := (dscp + 246) % 256 / 2;
    if dscp < 256 && k < n then Some(k) else None
  }

  predicate FromTunnel(pkt: Packet) {
    && pkt.dst.V4?
    && (Protocol(pkt) == 4 || Protocol(pkt) == 41)
    && (pkt.src == V4(OUTER_SRC_111) || pkt.src == V4(OUTER_SRC_222))
  }

  function ClassVrf(dscp: nat, n: nat): Vrf {
    match ClassOf(dscp, n)
    case Some(k) => EncapVrf(k)
    case None => DefaultVrf
  }

  function FallbackOf(pkt: Packet): Vrf {
    if pkt.src == V4(OUTER_SRC_111) then TransitVrf111 else TransitVrf222
  }

  /** The policy in one line: tunnelled packets decapsulate, and the DSCP picks the VRF. */
  function Classify(pkt: Packet, n: nat): Action {
    var vrf := ClassVrf(pkt.dscp, n);
    if FromTunnel(pkt) then Decapsulate(DecapVrf, vrf, FallbackOf(pkt)) else Select(vrf)
  }

  /** Membership in the wrapped pair of VRF i. */
  lemma PairContains(i: nat, dscp: nat)
    ensures dscp in EncapDscps(i) <==> dscp < 256 && i % 128 == (dscp + 246) % 256 / 2
  {
    var q, r := i / 128, i % 128;
    assert 10 + i * 2 == (10 + r * 2) + 256 * q && 11 + i * 2 == (11 + r * 2) + 256 * q;
    ModPlusMultiple(10 + r * 2, 256, q);
    ModPlusMultiple(11 + r * 2, 256, q);
    PairOfResidue(r, dscp);
  }

  lemma PairOfResidue(r: nat, dscp: nat)
    requires r < 128
    ensures (dscp == (10 + r * 2) % 256 || dscp == (11 + r * 2) % 256) <==> dscp < 256 && r == (dscp + 246) % 256 / 2
  {
  }

  lemma {:induction false} FirstMatchConcat(a: seq<Rule>, b: seq<Rule>, pkt: Packet)
    ensures FirstMatch(a + b, pkt) == OrElse(FirstMatch(a, pkt), FirstMatch(b, pkt))
  {
    hide Matches;
    if a == [] {
      assert a + b == b;
    } else {
      FirstMatchConcat(a[1..], b, pkt);
      assert (a + b)[1..] == a[1..] + b;
    }
  }

  lemma FirstMatchTwo(r0: Rule, r1: Rule, pkt: Packet)
    ensures FirstMatch([r0, r1], pkt) ==
            if Matches(r0.cond, pkt) then Some(r0.action)
            else if Matches(r1.cond, pkt) then Some(r1.action) else None
  {
    hide Matches;
    assert [r0, r1][1..] == [r1] && [r1][1..] == [];
    assert FirstMatch([r1], pkt) == if Matches(r1.cond, pkt) then Some(r1.action) else None;
  }

  predicate InClass(dscps: Option<seq<nat>>, pkt: Packet) {
    dscps.Some? ==> pkt.dscp in dscps.value
  }

  lemma TunnelRulesMatch(dscps: Option<seq<nat>>, post: Vrf, pkt: Packet)
    ensures FirstMatch(TunnelRules(dscps, post), pkt) ==
            if FromTunnel(pkt) && InClass(dscps, pkt) then Some(Decapsulate(DecapVrf, post, FallbackOf(pkt))) else None
  {
    hide FirstMatch;
    var s := TunnelRules(dscps, post);
    var a, b := [s[0], s[1]], [s[2], s[3]];
    assert s == a + b;
    FirstMatchConcat(a, b, pkt);
    FirstMatchTwo(s[0], s[1], pkt);
    FirstMatchTwo(s[2], s[3], pkt);
  }

  lemma EncapRulesMatch(vi: nat, pkt: Packet)
    ensures FirstMatch(EncapRules(vi), pkt) == if pkt.dscp in EncapDscps(vi) then Some(Select(EncapVrf(vi))) else None
  {
    hide FirstMatch, EncapDscps;
    var s := EncapRules(vi);
    FirstMatchTwo(s[0], s[1], pkt);
  }

  /** The class of a DSCP with one VRF more. */
  lemma ClassStep(dscp: nat, n: nat)
    ensures ClassOf(dscp, 0) == None
    ensures ClassOf(dscp, n + 1) == OrElse(ClassOf(dscp, n), if dscp in EncapDscps(n) then Some(n) else None)
  {
    hide EncapDscps;
    PairContains(n, dscp);
  }

  lemma {:induction false} DecapBlockMatch(n: nat, pkt: Packet)
    ensures FirstMatch(DecapBlock(n), pkt) ==
            if FromTunnel(pkt) && ClassOf(pkt.dscp, n).Some?
            then Some(Decapsulate(DecapVrf, EncapVrf(ClassOf(pkt.dscp, n).value), FallbackOf(pkt))) else None
  {
    hide FirstMatch, EncapDscps, TunnelRules, ClassOf, FromTunnel;
    if n == 0 {
      FirstMatchEmpty(pkt);
      ClassStep(pkt.dscp, 0);
    } else {
      DecapBlockMatch(n - 1, pkt);
      ClassStep(pkt.dscp, n - 1);
      FirstMatchConcat(DecapBlock(n - 1), TunnelRules(Some(EncapDscps(n - 1)), EncapVrf(n - 1)), pkt);
      TunnelRulesMatch(Some(EncapDscps(n - 1)), EncapVrf(n - 1), pkt);
    }
  }

  lemma FirstMatchEmpty(pkt: Packet)
    ensures FirstMatch([], pkt) == None
  {
  }

  lemma {:induction false} EncapBlockMatch(n: nat, pkt: Packet)
    ensures FirstMatch(EncapBlock(n), pkt) ==
            if ClassOf(pkt.dscp, n).Some? then Some(Select(EncapVrf(ClassOf(pkt.dscp, n).value))) else None
  {
    hide FirstMatch, EncapDscps, EncapRules, ClassOf;
    if n == 0 {
      FirstMatchEmpty(pkt);
      ClassStep(pkt.dscp, 0);
    } else {
      EncapBlockMatch(n - 1, pkt);
      ClassStep(pkt.dscp, n - 1);
      FirstMatchConcat(EncapBlock(n - 1), EncapRules(n - 1), pkt);
      EncapRulesMatch(n - 1, pkt);
    }
  }

  lemma DefaultBlockMatch(requireMatch: bool, pkt: Packet)
    ensures FirstMatch(DefaultBlock(requireMatch), pkt) == Some(Select(DefaultVrf))
  {
    var s := DefaultBlock(requireMatch);
    if requireMatch {
      FirstMatchTwo(s[0], s[1], pkt);
    }
  }

  /**
   * The rule list is the one-line policy: for any number of VRFs and either default clause,
   * every packet is decided, and decided as Classify says.
   */
  lemma PolicyIsClassify(n: nat, requireMatch: bool, pkt: Packet)
    ensures FirstMatch(PolicyRules(n, requireMatch), pkt) == Some(Classify(pkt, n))
  {
    hide FirstMatch, DecapBlock, EncapBlock, TunnelRules, DefaultBlock, ClassOf, FromTunnel;
    var a, b, c, d := DecapBlock(n), TunnelRules(None, DefaultVrf), EncapBlock(n), DefaultBlock(requireMatch);
    FirstMatchConcat(a + b + c, d, pkt);
    FirstMatchConcat(a + b, c, pkt);
    FirstMatchConcat(a, b, pkt);
    DecapBlockMatch(n, pkt);
    TunnelRulesMatch(None, DefaultVrf, pkt);
    EncapBlockMatch(n, pkt);
    DefaultBlockMatch(requireMatch, pkt);
  }

  /**
   * The rule list in the terms of the test plan, for as many VRFs as have DSCPs without wrap-around:
   * DSCPs 10 and 11 belong to the first VRF, 12 and 13 to the second, and so on; a packet with
   * an inner packet from 198.51.100.111 or .222 is decapsulated, and what no entry of
   * DECAP_TE_VRF covers goes to the transit VRF of its source.
   */
  lemma PolicyMeans(n: nat, requireMatch: bool, pkt: Packet)
    requires n <= 123
    ensures var vrf := if 10 <= pkt.dscp < 10 + 2 * n then EncapVrf((pkt.dscp - 10) / 2) else DefaultVrf;
            var tunnelled := pkt.dst.V4? && Protocol(pkt) in {4, 41};
            FirstMatch(PolicyRules(n, requireMatch), pkt) ==
            Some(if tunnelled && pkt.src == V4(0xC633_646F) then Decapsulate(DecapVrf, vrf, TransitVrf111)
                 else if tunnelled && pkt.src == V4(0xC633_64DE) then Decapsulate(DecapVrf, vrf, TransitVrf222)
                 else Select(vrf))
  {
    hide FirstMatch, PolicyRules;
    PolicyIsClassify(n, requireMatch, pkt);
    ClassMeans(pkt.dscp, n);
  }

  lemma ClassMeans(dscp: nat, n: nat)
    requires n <= 123
    ensures ClassOf(dscp, n) == if 10 <= dscp < 10 + 2 * n then Some((dscp - 10) / 2) else None
  {
    if dscp < 10 {
      ModSmall(dscp + 246, 256);
    } else if dscp < 256 {
      DivMod(dscp + 246, 256, 1, dscp - 10);
    }
  }

  // When the order of the per-VRF rules does not matter.

  /** No DSCP belongs to two VRFs. */
  ghost predicate ClassesDisjoint(n: nat) {
    forall i, j, dscp :: 0 <= i < j < n && dscp in EncapDscps(i) ==> dscp !in EncapDscps(j)
  }

  lemma ClassesDisjointIff(n: nat)
    ensures ClassesDisjoint(n) <==> n <= 128
  {
    hide EncapDscps;
    if n <= 128 {
      forall i, j, dscp | 0 <= i < j < n && dscp in EncapDscps(i)
        ensures dscp !in EncapDscps(j)
      {
        PairContains(i, dscp);
        PairContains(j, dscp);
      }
    } else {
      PairContains(0, 10);
      PairContains(128, 10);
    }
  }

  /** At most one rule of the list matches the packet. */
  ghost predicate OneMatch(s: seq<Rule>, pkt: Packet) {
    forall i, j :: 0 <= i < |s| && 0 <= j < |s| && Matches(s[i].cond, pkt) && Matches(s[j].cond, pkt) ==> s[i] == s[j]
  }

  lemma {:induction false} FirstMatchFound(s: seq<Rule>, pkt: Packet)
    ensures FirstMatch(s, pkt).Some? ==>
              exists i :: 0 <= i < |s| && Matches(s[i].cond, pkt) && FirstMatch(s, pkt) == Some(s[i].action)
    ensures FirstMatch(s, pkt).None? ==> forall i :: 0 <= i < |s| ==> !Matches(s[i].cond, pkt)
  {
    hide Matches;
    if s != [] && !Matches(s[0].cond, pkt) {
      FirstMatchFound(s[1..], pkt);
      if FirstMatch(s, pkt).Some? {
        var i :| 0 <= i < |s[1..]| && Matches(s[1..][i].cond, pkt) && FirstMatch(s, pkt) == Some(s[1..][i].action);
        assert s[i + 1] == s[1..][i];
      } else {
        forall i | 0 <= i < |s|
          ensures !Matches(s[i].cond, pkt)
        {
          if i > 0 {
            assert s[i] == s[1..][i - 1];
          }
        }
      }
    }
  }

  /** A list with at most one match decides the same in any order. */
  lemma OrderIrrelevant(s: seq<Rule>, t: seq<Rule>, pkt: Packet)
    requires multiset(s) == multiset(t) && OneMatch(s, pkt)
    ensures FirstMatch(s, pkt) == FirstMatch(t, pkt)
  {
    hide Matches, FirstMatch;
    FirstMatchFound(s, pkt);
    FirstMatchFound(t, pkt);
    forall r: Rule
      ensures r in s <==> r in t
    {
      assert r in s <==> r in multiset(s);
      assert r in t <==> r in multiset(t);
    }
    if FirstMatch(t, pkt).Some? {
      var j :| 0 <= j < |t| && Matches(t[j].cond, pkt) && FirstMatch(t, pkt) == Some(t[j].action);
      assert t[j] in s;
    }
    if FirstMatch(s, pkt).Some? {
      var i :| 0 <= i < |s| && Matches(s[i].cond, pkt) && FirstMatch(s, pkt) == Some(s[i].action);
      assert s[i] in t;
    }
  }

  /** Rule k of the decap block, by VRF and position. */
  lemma {:induction false} DecapBlockAt(n: nat, k: nat)
    requires k < 4 * n
    ensures k < |DecapBlock(n)|
    ensures DecapBlock(n)[k] == TunnelRules(Some(EncapDscps(k / 4)), EncapVrf(k / 4))[k % 4]
  {
    hide EncapDscps;
    DecapBlockLength(n - 1);
    if k < 4 * (n - 1) {
      DecapBlockAt(n - 1, k);
    }
  }

  /** Within one class, protocol and source tell the four rules apart. */
  lemma TunnelRulesOneMatch(dscps: Option<seq<nat>>, post: Vrf, pkt: Packet)
    ensures OneMatch(TunnelRules(dscps, post), pkt)
  {
  }

  /** A matching decap rule belongs to the VRF of the packet's DSCP. */
  lemma DecapRuleClass(n: nat, k: nat, pkt: Packet) returns (vi: nat)
    requires n <= 128 && k < |DecapBlock(n)| && Matches(DecapBlock(n)[k].cond, pkt)
    ensures vi == (pkt.dscp + 246) % 256 / 2
    ensures |TunnelRules(Some(EncapDscps(vi)), EncapVrf(vi))| == 4
    ensures DecapBlock(n)[k] in TunnelRules(Some(EncapDscps(vi)), EncapVrf(vi))
  {
    hide EncapDscps, DecapBlock, Protocol;
    DecapBlockLength(n);
    DecapBlockAt(n, k);
    vi := k / 4;
    PairContains(vi, pkt.dscp);
    ModSmall(vi, 128);
  }

  lemma {:induction false} DecapBlockLength(n: nat)
    ensures |DecapBlock(n)| == 4 * n
  {
    if n > 0 {
      DecapBlockLength(n - 1);
    }
  }

  lemma DecapBlockOneMatch(n: nat, pkt: Packet)
    requires n <= 128
    ensures OneMatch(DecapBlock(n), pkt)
  {
    hide EncapDscps, DecapBlock, TunnelRules, Protocol;
    var s := DecapBlock(n);
    forall i, j | 0 <= i < |s| && 0 <= j < |s| && Matches(s[i].cond, pkt) && Matches(s[j].cond, pkt)
      ensures s[i] == s[j]
    {
      var vi := DecapRuleClass(n, i, pkt);
      var vj := DecapRuleClass(n, j, pkt);
      TunnelRulesOneMatch(Some(EncapDscps(vi)), EncapVrf(vi), pkt);
    }
  }

  /** The policy with its first block replaced by another one. */
  function PolicyWith(block: seq<Rule>, n: nat, requireMatch: bool): seq<Rule> {
    block + TunnelRules(None, DefaultVrf) + EncapBlock(n) + DefaultBlock(requireMatch)
  }

  /** Up to 128 VRFs, the per-VRF decap rules may come in any order without changing the policy. */
  lemma DecapOrderIrrelevant(n: nat, requireMatch: bool, block: seq<Rule>, pkt: Packet)
    requires n <= 128 && multiset(block) == multiset(DecapBlock(n))
    ensures FirstMatch(PolicyWith(block, n, requireMatch), pkt) == Some(Classify(pkt, n))
  {
    hide FirstMatch, DecapBlock, EncapBlock, TunnelRules, DefaultBlock, Classify;
    PolicyIsClassify(n, requireMatch, pkt);
    DecapBlockOneMatch(n, pkt);
    OrderIrrelevant(DecapBlock(n), block, pkt);
    var b, c, d := TunnelRules(None, DefaultVrf), EncapBlock(n), DefaultBlock(requireMatch);
    FirstMatchConcat(block + b + c, d, pkt);
    FirstMatchConcat(block + b, c, pkt);
    FirstMatchConcat(block, b, pkt);
    FirstMatchConcat(DecapBlock(n) + b + c, d, pkt);
    FirstMatchConcat(DecapBlock(n) + b, c, pkt);
    FirstMatchConcat(DecapBlock(n), b, pkt);
  }

  /** Any order of the per-VRF decap rules means the same to every packet. */
  ghost predicate AnyDecapOrder(n: nat, requireMatch: bool) {
    forall block, pkt :: multiset(block) == multiset(DecapBlock(n)) ==>
      FirstMatch(PolicyWith(block, n, requireMatch), pkt) == Some(Classify(pkt, n))
  }

  lemma SwapKeepsMultiset(s: seq<Rule>, i: nat, j: nat)
    requires i < j < |s|
    ensures multiset(s[i := s[j]][j := s[i]]) == multiset(s)
  {
  }

  lemma FirstRuleWins(s: seq<Rule>, pkt: Packet)
    requires s != [] && Matches(s[0].cond, pkt)
    ensures FirstMatch(s, pkt) == Some(s[0].action)
  {
  }

  /** From 129 VRFs on, the rules of VRF 128 put first take the packets of VRF 0. */
  lemma SwappedRuleTakesOver(n: nat, requireMatch: bool) returns (block: seq<Rule>, pkt: Packet)
    requires n > 128
    ensures multiset(block) == multiset(DecapBlock(n))
    ensures FirstMatch(PolicyWith(block, n, requireMatch), pkt) != Some(Classify(pkt, n))
  {
    hide DecapBlock, EncapBlock, EncapDscps, FirstMatch, DefaultBlock, Protocol;
    var s := DecapBlock(n);
    DecapBlockLength(n);
    DecapBlockAt(n, 0);
    DecapBlockAt(n, 512);
    block := s[0 := s[512]][512 := s[0]];
    SwapKeepsMultiset(s, 0, 512);
    pkt := Packet(V4(OUTER_SRC_222), V4(0), 10, Inner(Packet(V4(0), V4(0), 10, Plain(17))));
    PairContains(128, 10);
    assert Protocol(pkt) == 4 by { InnerIsFour(pkt); }
    var all := PolicyWith(block, n, requireMatch);
    assert all[0] == s[512];
    FirstRuleWins(all, pkt);
    assert ClassOf(10, n) == Some(0);
  }

  lemma InnerIsFour(pkt: Packet)
    requires pkt.payload.Inner? && pkt.payload.packet.dst.V4?
    ensures Protocol(pkt) == 4
  {
  }

  /** The order of the per-VRF decap rules is without meaning exactly up to 128 VRFs. */
  lemma AnyDecapOrderIff(n: nat, requireMatch: bool)
    ensures AnyDecapOrder(n, requireMatch) <==> n <= 128
  {
    hide FirstMatch, DecapBlock, PolicyWith, Classify;
    if n <= 128 {
      forall block, pkt | multiset(block) == multiset(DecapBlock(n))
        ensures FirstMatch(PolicyWith(block, n, requireMatch), pkt) == Some(Classify(pkt, n))
      {
        DecapOrderIrrelevant(n, requireMatch, block, pkt);
      }
    } else {
      var block, pkt := SwappedRuleTakesOver(n, requireMatch);
    }
  }
}
