/**
 * Referential integrity of the device tables: every next-hop-group refers to installed
 * next-hops and to an installed backup group, and every prefix to an installed group.
 */
module Integrity {
  import opened Rib

  ghost predicate GroupClosed(t: Table, g: Group) {
    && (forall i :: 0 <= i < |g.hops| ==> g.hops[i].nh in t.nhs)
    && (g.backup.Some? ==> g.backup.value in t.nhgs)
  }

  ghost predicate Closed(t: Table) {
    && (forall id :: id in t.nhgs ==> GroupClosed(t, t.nhgs[id]))
    && (forall key :: key in t.routes ==> t.routes[key] in t.nhgs)
  }

  /** The tables are closed after every single entry of the stream. */
  ghost predicate ClosedThroughout(s: seq<Entry>) {
    forall k :: 0 <= k <= |s| ==> Closed(InstallAll(EMPTY, s[..k]))
  }

  /** Everything an entry refers to is in the stream s. */
  ghost predicate Satisfied(e: Entry, s: seq<Entry>) {
    match e
    case NhEntry(_, _) => true
    case NhgEntry(_, g) =>
      && (forall i :: 0 <= i < |g.hops| ==> LastNh(s, g.hops[i].nh).Some?)
      && (g.backup.Some? ==> LastNhg(s, g.backup.value).Some?)
    case Route(_, _, nhg) => LastNhg(s, nhg).Some?
  }

  /** After base, every entry of s comes no earlier than what it refers to. */
  ghost predicate Grounded(base: seq<Entry>, s: seq<Entry>) {
    forall k :: 0 <= k < |s| ==> Satisfied(s[k], base + s[..k + 1])
  }

  lemma SatisfiedLater(e: Entry, a: seq<Entry>, b: seq<Entry>)
    requires Satisfied(e, a)
    ensures Satisfied(e, a + b)
  {
    match e
    case NhEntry(_, _) =>
    case NhgEntry(_, g) =>
      forall i | 0 <= i < |g.hops|
        ensures LastNh(a + b, g.hops[i].nh).Some?
      {
        LastNhConcat(a, b, g.hops[i].nh);
      }
      if g.backup.Some? {
        LastNhgConcat(a, b, g.backup.value);
      }
    case Route(_, _, nhg) =>
      LastNhgConcat(a, b, nhg);
  }

  /** A stream whose entries refer only to the base is grounded in it. */
  lemma GroundedInBase(base: seq<Entry>, s: seq<Entry>)
    requires forall k :: 0 <= k < |s| ==> Satisfied(s[k], base)
    ensures Grounded(base, s)
  {
    forall k | 0 <= k < |s|
      ensures Satisfied(s[k], base + s[..k + 1])
    {
      SatisfiedLater(s[k], base, s[..k + 1]);
    }
  }

  lemma GroundedConcat(base: seq<Entry>, a: seq<Entry>, b: seq<Entry>)
    requires Grounded(base, a) && Grounded(base + a, b)
    ensures Grounded(base, a + b)
  {
    var s := a + b;
    forall k | 0 <= k < |s|
      ensures Satisfied(s[k], base + s[..k + 1])
    {
      if k < |a| {
        assert s[..k + 1] == a[..k + 1];
      } else {
        assert s[..k + 1] == a + b[..k - |a| + 1];
        assert base + s[..k + 1] == base + a + b[..k - |a| + 1];
        assert Satisfied(b[k - |a|], base + a + b[..k - |a| + 1]);
      }
    }
  }

  /** A suffix of a grounded stream is grounded in what precedes it. */
  lemma GroundedSplit(base: seq<Entry>, a: seq<Entry>, b: seq<Entry>)
    requires Grounded(base, a + b)
    ensures Grounded(base, a) && Grounded(base + a, b)
  {
    var s := a + b;
    forall k | 0 <= k < |a|
      ensures Satisfied(a[k], base + a[..k + 1])
    {
      assert s[..k + 1] == a[..k + 1] && s[k] == a[k];
    }
    forall k | 0 <= k < |b|
      ensures Satisfied(b[k], base + a + b[..k + 1])
    {
      assert s[|a| + k] == b[k];
      assert base + s[..|a| + k + 1] == base + a + b[..k + 1];
    }
  }

  /** A group in the table is the last entry with its id, at some position of the stream. */
  lemma {:induction false} LastNhgPosition(s: seq<Entry>, id: nat) returns (k: nat)
    requires LastNhg(s, id).Some?
    ensures k < |s| && s[k] == NhgEntry(id, LastNhg(s, id).value)
  {
    var e := s[|s| - 1];
    if e.NhgEntry? && e.id == id {
      k := |s| - 1;
    } else {
      k := LastNhgPosition(s[..|s| - 1], id);
    }
  }

  lemma {:induction false} LastRoutePosition(s: seq<Entry>, vrf: Vrf, prefix: Prefix) returns (k: nat)
    requires LastRoute(s, vrf, prefix).Some?
    ensures k < |s| && s[k] == Route(vrf, prefix, LastRoute(s, vrf, prefix).value)
  {
    var e := s[|s| - 1];
    if e.Route? && e.vrf == vrf && e.prefix == prefix {
      k := |s| - 1;
    } else {
      k := LastRoutePosition(s[..|s| - 1], vrf, prefix);
    }
  }

  lemma NhsAreLast(s: seq<Entry>, id: nat)
    ensures id in InstallAll(EMPTY, s).nhs <==> LastNh(s, id).Some?
    ensures id in InstallAll(EMPTY, s).nhgs <==> LastNhg(s, id).Some?
    ensures id in InstallAll(EMPTY, s).nhgs ==> InstallAll(EMPTY, s).nhgs[id] == LastNhg(s, id).value
  {
    InstalledIsLast(EMPTY, s, id, DefaultVrf, Prefix(V4(0), 0));
  }

  lemma RoutesAreLast(s: seq<Entry>, vrf: Vrf, prefix: Prefix)
    ensures (vrf, prefix) in InstallAll(EMPTY, s).routes <==> LastRoute(s, vrf, prefix).Some?
    ensures (vrf, prefix) in InstallAll(EMPTY, s).routes ==>
              InstallAll(EMPTY, s).routes[(vrf, prefix)] == LastRoute(s, vrf, prefix).value
  {
    InstalledIsLast(EMPTY, s, 0, vrf, prefix);
  }

  /** In terms of the tables: the references of a satisfied entry are installed. */
  lemma SatisfiedInTable(e: Entry, s: seq<Entry>)
    ensures Satisfied(e, s) <==>
            var t := InstallAll(EMPTY, s);
            match e
            case NhEntry(_, _) => true
            case NhgEntry(_, g) => GroupClosed(t, g)
            case Route(_, _, nhg) => nhg in t.nhgs
  {
    forall id {
      NhsAreLast(s, id);
    }
  }

  lemma SatisfiedInPrefix(s: seq<Entry>, j: nat, k: nat)
    requires Grounded([], s) && j < k <= |s|
    ensures Satisfied(s[j], s[..k])
  {
    assert Satisfied(s[j], [] + s[..j + 1]);
    assert [] + s[..j + 1] == s[..j + 1];
    SatisfiedLater(s[j], s[..j + 1], s[j + 1..k]);
    assert s[..j + 1] + s[j + 1..k] == s[..k];
  }

  lemma GroundedClosed(s: seq<Entry>, k: nat)
    requires Grounded([], s) && k <= |s|
    ensures Closed(InstallAll(EMPTY, s[..k]))
  {
    var u := s[..k];
    var t := InstallAll(EMPTY, u);
    forall id | id in t.nhgs
      ensures GroupClosed(t, t.nhgs[id])
    {
      NhsAreLast(u, id);
      var j := LastNhgPosition(u, id);
      SatisfiedInPrefix(s, j, k);
      SatisfiedInTable(s[j], u);
    }
    forall key | key in t.routes
      ensures t.routes[key] in t.nhgs
    {
      RoutesAreLast(u, key.0, key.1);
      assert key == (key.0, key.1);
      var j := LastRoutePosition(u, key.0, key.1);
      SatisfiedInPrefix(s, j, k);
      SatisfiedInTable(s[j], u);
    }
  }

  /** Integrity at every instant of the run is the same as entries coming after what they refer to. */
  lemma ClosedThroughoutIffGrounded(s: seq<Entry>)
    ensures ClosedThroughout(s) <==> Grounded([], s)
  {
    if Grounded([], s) {
      forall k | 0 <= k <= |s|
        ensures Closed(InstallAll(EMPTY, s[..k]))
      {
        GroundedClosed(s, k);
      }
    }
    if ClosedThroughout(s) {
      forall k | 0 <= k < |s|
        ensures Satisfied(s[k], [] + s[..k + 1])
      {
        var u := s[..k + 1];
        assert [] + u == u;
        assert u[..|u| - 1] == s[..k] && u[|u| - 1] == s[k];
        assert Closed(InstallAll(EMPTY, u));
        SatisfiedInTable(s[k], u);
        match s[k]
        case NhEntry(_, _) =>
        case NhgEntry(id, g) =>
          assert InstallAll(EMPTY, u).nhgs[id] == g;
        case Route(vrf, prefix, nhg) =>
          assert InstallAll(EMPTY, u).routes[(vrf, prefix)] == nhg;
      }
    }
  }

  /** Every hop of a group is one of the n next-hops from lo on. */
  ghost predicate HopsWithin(g: Group, lo: nat, n: nat) {
    forall i :: 0 <= i < |g.hops| ==> lo <= g.hops[i].nh < lo + n
  }

  ghost predicate AllWithin(groups: seq<Group>, lo: nat, n: nat) {
    forall k :: 0 <= k < |groups| ==> HopsWithin(groups[k], lo, n)
  }

  ghost predicate BackupsIn(groups: seq<Group>, s: seq<Entry>) {
    forall k :: 0 <= k < |groups| ==> groups[k].backup.Some? ==> LastNhg(s, groups[k].backup.value).Some?
  }

  ghost predicate RoutesWithin(routes: seq<Entry>, lo: nat, n: nat) {
    forall k :: 0 <= k < |routes| ==> routes[k].Route? && lo <= routes[k].nhg < lo + n
  }

  lemma LayerNhsSatisfied(base: seq<Entry>, nhBase: nat, n: nat, nhs: seq<NextHop>, e: Entry)
    requires n == |nhs| && e.NhgEntry? && HopsWithin(e.group, nhBase, n)
    requires e.group.backup.Some? ==> LastNhg(base, e.group.backup.value).Some?
    ensures Satisfied(e, base + NhLayer(nhBase, nhs))
  {
    var g, layer := e.group, NhLayer(nhBase, nhs);
    forall i | 0 <= i < |g.hops|
      ensures LastNh(base + layer, g.hops[i].nh).Some?
    {
      LastNhConcat(base, layer, g.hops[i].nh);
      LastNhLayer(nhBase, nhs, g.hops[i].nh);
    }
    if g.backup.Some? {
      LastNhgConcat(base, layer, g.backup.value);
    }
  }

  /** Next-hops, then groups over them (with a known backup), then routes to those groups. */
  lemma LayeredGrounded(base: seq<Entry>, nhBase: nat, nhs: seq<NextHop>, nhgBase: nat, groups: seq<Group>,
                        routes: seq<Entry>)
    requires AllWithin(groups, nhBase, |nhs|) && BackupsIn(groups, base)
    requires RoutesWithin(routes, nhgBase, |groups|)
    ensures Grounded(base, NhLayer(nhBase, nhs) + NhgLayer(nhgBase, groups) + routes)
  {
    hide LastNh, LastNhg;
    var a, b := NhLayer(nhBase, nhs), NhgLayer(nhgBase, groups);
    GroundedInBase(base, a);
    forall k | 0 <= k < |b|
      ensures Satisfied(b[k], base + a)
    {
      assert b[k].group == groups[k];
      LayerNhsSatisfied(base, nhBase, |nhs|, nhs, b[k]);
    }
    GroundedInBase(base + a, b);
    GroundedConcat(base, a, b);
    assert base + (a + b) == base + a + b;
    forall k | 0 <= k < |routes|
      ensures Satisfied(routes[k], base + (a + b))
    {
      LastNhgConcat(base + a, b, routes[k].nhg);
      LastNhgLayer(nhgBase, groups, routes[k].nhg);
    }
    GroundedInBase(base + (a + b), routes);
    GroundedConcat(base, a + b, routes);
  }

  lemma GroundedThree(a: seq<Entry>, b: seq<Entry>, c: seq<Entry>)
    ensures Grounded([], a) && Grounded(a, b) && Grounded(a + b, c) ==> Grounded([], a + b + c)
    ensures Grounded([], a + b + c) ==> Grounded(a, b)
  {
    hide Grounded;
    assert [] + a == a && [] + (a + b) == a + b;
    if Grounded([], a) && Grounded(a, b) && Grounded(a + b, c) {
      GroundedConcat([], a, b);
      GroundedConcat([], a + b, c);
    }
    if Grounded([], a + b + c) {
      GroundedSplit([], a + b, c);
      GroundedSplit([], a, b);
    }
  }
}
