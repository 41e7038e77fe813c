/** BuildStaticGroups: S1 redirects into the repair VRF, S2 decapsulates into the default VRF. */
module StaticGroups {
  import opened IpUtil
  import opened Rib
  import opened Params
  import opened Integrity

  const S1_NEXT_HOP := ToVrf(RepairVrf)
  const S2_NEXT_HOP := Decap(Some(DefaultVrf))
  const S1_GROUP := Group([Hop(STATIC_S1_NHG, 1)], None)
  const S2_GROUP := Group([Hop(STATIC_S2_NHG, 1)], None)

  const STATIC_ENTRIES: seq<Entry> :=
    [NhEntry(STATIC_S1_NHG, S1_NEXT_HOP), NhgEntry(STATIC_S1_NHG, S1_GROUP)]
    + [NhEntry(STATIC_S2_NHG, S2_NEXT_HOP), NhgEntry(STATIC_S2_NHG, S2_GROUP)]

  method BuildStaticGroups() returns (entries: seq<Entry>, s1NHG: nat, s2NHG: nat)
    ensures entries == STATIC_ENTRIES && s1NHG == STATIC_S1_NHG && s2NHG == STATIC_S2_NHG
  {
    s1NHG, s2NHG := STATIC_S1_NHG, STATIC_S2_NHG;
    var s1NH := NhEntry(s1NHG, ToVrf(RepairVrf));
    var s1NHGEntry := NhgEntry(s1NHG, Group([Hop(s1NHG, 1)], None));
    var s2NH := NhEntry(s2NHG, Decap(Some(DefaultVrf)));
    var s2NHGEntry := NhgEntry(s2NHG, Group([Hop(s2NHG, 1)], None));
    entries := [s1NH, s1NHGEntry, s2NH, s2NHGEntry];
  }

  function StaticNhOf(id: nat): Option<NextHop> {
    if id == STATIC_S1_NHG then Some(S1_NEXT_HOP) else if id == STATIC_S2_NHG then Some(S2_NEXT_HOP) else None
  }

  function StaticNhgOf(id: nat): Option<Group> {
    if id == STATIC_S1_NHG then Some(S1_GROUP) else if id == STATIC_S2_NHG then Some(S2_GROUP) else None
  }

  lemma PairTables(nhId: nat, nh: NextHop, nhgId: nat, g: Group, id: nat)
    ensures LastNh([NhEntry(nhId, nh), NhgEntry(nhgId, g)], id) == if id == nhId then Some(nh) else None
    ensures LastNhg([NhEntry(nhId, nh), NhgEntry(nhgId, g)], id) == if id == nhgId then Some(g) else None
  {
    var s := [NhEntry(nhId, nh), NhgEntry(nhgId, g)];
    var first := [NhEntry(nhId, nh)];
    assert s[..1] == first && first[..0] == [];
    assert LastNh(first, id) == if id == nhId then Some(nh) else None;
    assert LastNhg(first, id) == None;
  }

  lemma StaticTables(id: nat, vrf: Vrf, prefix: Prefix)
    ensures LastNh(STATIC_ENTRIES, id) == StaticNhOf(id)
    ensures LastNhg(STATIC_ENTRIES, id) == StaticNhgOf(id)
    ensures LastRoute(STATIC_ENTRIES, vrf, prefix) == None
  {
    hide LastNh, LastNhg, LastRoute;
    var a := [NhEntry(STATIC_S1_NHG, S1_NEXT_HOP), NhgEntry(STATIC_S1_NHG, S1_GROUP)];
    var b := [NhEntry(STATIC_S2_NHG, S2_NEXT_HOP), NhgEntry(STATIC_S2_NHG, S2_GROUP)];
    PairTables(STATIC_S1_NHG, S1_NEXT_HOP, STATIC_S1_NHG, S1_GROUP, id);
    PairTables(STATIC_S2_NHG, S2_NEXT_HOP, STATIC_S2_NHG, S2_GROUP, id);
    LastNhConcat(a, b, id);
    LastNhgConcat(a, b, id);
    NoRoute(STATIC_ENTRIES, vrf, prefix);
  }

  lemma PairGrounded(base: seq<Entry>, id: nat, nh: NextHop)
    ensures Grounded(base, [NhEntry(id, nh), NhgEntry(id, Group([Hop(id, 1)], None))])
  {
    hide LastNh, LastNhg;
    var g := Group([Hop(id, 1)], None);
    var s := [NhEntry(id, nh), NhgEntry(id, g)];
    PairTables(id, nh, id, g, id);
    LastNhConcat(base, s, id);
    assert base + s[..2] == base + s;
    assert Satisfied(s[1], base + s[..2]);
  }

  lemma StaticGrounded(base: seq<Entry>)
    ensures Grounded(base, STATIC_ENTRIES)
  {
    hide Grounded;
    var a := [NhEntry(STATIC_S1_NHG, S1_NEXT_HOP), NhgEntry(STATIC_S1_NHG, S1_GROUP)];
    PairGrounded(base, STATIC_S1_NHG, S1_NEXT_HOP);
    PairGrounded(base + a, STATIC_S2_NHG, S2_NEXT_HOP);
    GroundedConcat(base, a, [NhEntry(STATIC_S2_NHG, S2_NEXT_HOP), NhgEntry(STATIC_S2_NHG, S2_GROUP)]);
  }
}
