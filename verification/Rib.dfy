/**
 * The routing information base of the device: next-hops, next-hop-groups and per-VRF prefixes,
 * the entries that program it, and what a stream of entries leaves installed.
 *
 * Installing an entry under a key that is already present replaces it, so what a key holds
 * after a stream is the last entry of the stream with that key (LastNh, LastNhg, LastRoute).
 */
module Rib {
  import opened IpUtil

  /** The network instances of the test; DEFAULT's name depends on the device. */
  datatype Vrf = DefaultVrf | EncapVrf(idx: nat) | TransitVrf111 | TransitVrf222 | RepairVrf | DecapVrf

  datatype Addr = V4(n: nat) | V6(n: nat)

  datatype Prefix = Prefix(net: Addr, len: nat)

  datatype NextHop =
    | ToAddress(ip: Addr)
    | ToVrf(vrf: Vrf)
    | Decap(into: Option<Vrf>)
    | Encap(src: Addr, dst: Addr, vrf: Vrf)
    | DecapEncap(src: Addr, dst: Addr, vrf: Vrf)

  datatype Hop = Hop(nh: nat, weight: nat)

  /** A next-hop-group; the backup group is used when all next-hops are unavailable. */
  datatype Group = Group(hops: seq<Hop>, backup: Option<nat>)

  datatype Entry =
    | NhEntry(id: nat, nh: NextHop)
    | NhgEntry(id: nat, group: Group)
    | Route(vrf: Vrf, prefix: Prefix, nhg: nat)

  datatype Table = Table(nhs: map<nat, NextHop>, nhgs: map<nat, Group>, routes: map<(Vrf, Prefix), nat>)

  const EMPTY := Table(map[], map[], map[])

  function Install(t: Table, e: Entry): Table {
    match e
    case NhEntry(id, nh) => t.(nhs := t.nhs[id := nh])
    case NhgEntry(id, g) => t.(nhgs := t.nhgs[id := g])
    case Route(vrf, prefix, nhg) => t.(routes := t.routes[(vrf, prefix) := nhg])
  }

  function InstallAll(t: Table, s: seq<Entry>): Table {
    if s == [] then t else Install(InstallAll(t, s[..|s| - 1]), s[|s| - 1])
  }

  function Get<K, V>(m: map<K, V>, k: K): Option<V> {
    if k in m then Some(m[k]) else None
  }

  function OrElse<T>(a: Option<T>, b: Option<T>): Option<T> {
    if a.Some? then a else b
  }

  function LastNh(s: seq<Entry>, id: nat): Option<NextHop> {
    if s == [] then None
    else
      var e := s[|s| - 1];
      if e.NhEntry? && e.id == id then Some(e.nh) else LastNh(s[..|s| - 1], id)
  }

  function LastNhg(s: seq<Entry>, id: nat): Option<Group> {
    if s == [] then None
    else
      var e := s[|s| - 1];
      if e.NhgEntry? && e.id == id then Some(e.group) else LastNhg(s[..|s| - 1], id)
  }

  function LastRoute(s: seq<Entry>, vrf: Vrf, prefix: Prefix): Option<nat> {
    if s == [] then None
    else
      var e := s[|s| - 1];
      if e.Route? && e.vrf == vrf && e.prefix == prefix then Some(e.nhg)
      else LastRoute(s[..|s| - 1], vrf, prefix)
  }

  /** What the three tables hold after a stream. */
  lemma {:induction false} InstalledIsLast(t: Table, s: seq<Entry>, id: nat, vrf: Vrf, prefix: Prefix)
    ensures Get(InstallAll(t, s).nhs, id) == OrElse(LastNh(s, id), Get(t.nhs, id))
    ensures Get(InstallAll(t, s).nhgs, id) == OrElse(LastNhg(s, id), Get(t.nhgs, id))
    ensures Get(InstallAll(t, s).routes, (vrf, prefix)) ==
            OrElse(LastRoute(s, vrf, prefix), Get(t.routes, (vrf, prefix)))
  {
    if s != [] {
      InstalledIsLast(t, s[..|s| - 1], id, vrf, prefix);
    }
  }

  // Later streams shadow earlier ones.

  lemma {:induction false} LastNhConcat(a: seq<Entry>, b: seq<Entry>, id: nat)
    ensures LastNh(a + b, id) == OrElse(LastNh(b, id), LastNh(a, id))
  {
    if b == [] {
      assert a + b == a;
    } else {
      LastNhConcat(a, b[..|b| - 1], id);
      assert (a + b)[..|a + b| - 1] == a + b[..|b| - 1];
    }
  }

  lemma {:induction false} LastNhgConcat(a: seq<Entry>, b: seq<Entry>, id: nat)
    ensures LastNhg(a + b, id) == OrElse(LastNhg(b, id), LastNhg(a, id))
  {
    if b == [] {
      assert a + b == a;
    } else {
      LastNhgConcat(a, b[..|b| - 1], id);
      assert (a + b)[..|a + b| - 1] == a + b[..|b| - 1];
    }
  }

  lemma {:induction false} LastRouteConcat(a: seq<Entry>, b: seq<Entry>, vrf: Vrf, prefix: Prefix)
    ensures LastRoute(a + b, vrf, prefix) == OrElse(LastRoute(b, vrf, prefix), LastRoute(a, vrf, prefix))
  {
    if b == [] {
      assert a + b == a;
    } else {
      LastRouteConcat(a, b[..|b| - 1], vrf, prefix);
      assert (a + b)[..|a + b| - 1] == a + b[..|b| - 1];
    }
  }

  // Streams made of one kind of entry under consecutive keys.

  function NhLayer(base: nat, nhs: seq<NextHop>): (s: seq<Entry>)
    ensures |s| == |nhs|
  {
    seq(|nhs|, i requires 0 <= i < |nhs| => NhEntry(base + i, nhs[i]))
  }

  function NhgLayer(base: nat, groups: seq<Group>): (s: seq<Entry>)
    ensures |s| == |groups|
  {
    seq(|groups|, i requires 0 <= i < |groups| => NhgEntry(base + i, groups[i]))
  }

  /** Host routes of one VRF for consecutive addresses. */
  function HostRoutes(vrf: Vrf, start: Addr, targets: seq<nat>): (s: seq<Entry>)
    ensures |s| == |targets|
    ensures forall i :: 0 <= i < |s| ==> s[i].Route?
  {
    seq(|targets|, i requires 0 <= i < |targets| => Route(vrf, HostPrefix(Plus(start, i)), targets[i]))
  }

  function Plus(a: Addr, i: nat): Addr {
    match a
    case V4(n) => V4(n + i)
    case V6(n) => V6(n + i)
  }

  function Bits(a: Addr): nat {
    if a.V4? then 32 else 128
  }

  function HostPrefix(a: Addr): Prefix {
    Prefix(a, Bits(a))
  }

  /** The element a table keyed by base, base + 1, ... holds under an id. */
  function At<T>(s: seq<T>, base: nat, id: nat): Option<T> {
    if base <= id < base + |s| then Some(s[id - base]) else None
  }

  /** The group an address range maps a prefix to: only host prefixes of the range match. */
  function HostAt(targets: seq<nat>, start: Addr, prefix: Prefix): Option<nat> {
    if prefix.net.V4? == start.V4? && prefix.len == Bits(start) then At(targets, start.n, prefix.net.n) else None
  }

  lemma {:induction false} LastNhLayer(base: nat, nhs: seq<NextHop>, id: nat)
    ensures LastNh(NhLayer(base, nhs), id) == At(nhs, base, id)
  {
    if nhs != [] {
      var front := nhs[..|nhs| - 1];
      LastNhLayer(base, front, id);
      assert NhLayer(base, nhs)[..|nhs| - 1] == NhLayer(base, front);
    }
  }

  lemma {:induction false} LastNhgLayer(base: nat, groups: seq<Group>, id: nat)
    ensures LastNhg(NhgLayer(base, groups), id) == At(groups, base, id)
  {
    if groups != [] {
      var front := groups[..|groups| - 1];
      LastNhgLayer(base, front, id);
      assert NhgLayer(base, groups)[..|groups| - 1] == NhgLayer(base, front);
    }
  }

  lemma {:induction false} LastHostRoute(vrf: Vrf, start: Addr, targets: seq<nat>, v: Vrf, prefix: Prefix)
    ensures LastRoute(HostRoutes(vrf, start, targets), v, prefix) ==
            if v == vrf then HostAt(targets, start, prefix) else None
  {
    if targets != [] {
      var front := targets[..|targets| - 1];
      LastHostRoute(vrf, start, front, v, prefix);
      assert HostRoutes(vrf, start, targets)[..|targets| - 1] == HostRoutes(vrf, start, front);
    }
  }

  // A stream without a kind of entry leaves that table alone.

  lemma {:induction false} NoNh(s: seq<Entry>, id: nat)
    requires forall i :: 0 <= i < |s| ==> !s[i].NhEntry?
    ensures LastNh(s, id) == None
  {
    if s != [] {
      NoNh(s[..|s| - 1], id);
    }
  }

  lemma {:induction false} NoNhg(s: seq<Entry>, id: nat)
    requires forall i :: 0 <= i < |s| ==> !s[i].NhgEntry?
    ensures LastNhg(s, id) == None
  {
    if s != [] {
      NoNhg(s[..|s| - 1], id);
    }
  }

  lemma {:induction false} NoRoute(s: seq<Entry>, vrf: Vrf, prefix: Prefix)
    requires forall i :: 0 <= i < |s| ==> s[i].Route? ==> s[i].vrf != vrf
    ensures LastRoute(s, vrf, prefix) == None
  {
    if s != [] {
      NoRoute(s[..|s| - 1], vrf, prefix);
    }
  }

  // The shape of every builder's stream: next-hops, then groups over them, then routes.

  lemma LayeredTables(nhBase: nat, nhs: seq<NextHop>, nhgBase: nat, groups: seq<Group>, routes: seq<Entry>,
                      id: nat, vrf: Vrf, prefix: Prefix)
    requires forall i :: 0 <= i < |routes| ==> routes[i].Route?
    ensures var s := NhLayer(nhBase, nhs) + NhgLayer(nhgBase, groups) + routes;
            && LastNh(s, id) == At(nhs, nhBase, id)
            && LastNhg(s, id) == At(groups, nhgBase, id)
            && LastRoute(s, vrf, prefix) == LastRoute(routes, vrf, prefix)
  {
    hide At;
    var a, b := NhLayer(nhBase, nhs), NhgLayer(nhgBase, groups);
    LastNhConcat(a + b, routes, id);
    LastNhConcat(a, b, id);
    NoNh(routes, id);
    NoNh(b, id);
    LastNhLayer(nhBase, nhs, id);
    LastNhgConcat(a + b, routes, id);
    LastNhgConcat(a, b, id);
    NoNhg(routes, id);
    NoNhg(a, id);
    LastNhgLayer(nhgBase, groups, id);
    LastRouteConcat(a + b, routes, vrf, prefix);
    NoRoute(a + b, vrf, prefix);
  }
}
