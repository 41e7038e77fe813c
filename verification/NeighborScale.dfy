/**
 * BGP neighbours at scale: addresses counted up from a port's address by way of a big integer,
 * and the neighbour map keyed by them.
 *
 * The integer's bytes come back without leading zeros, so an address whose first byte is zero
 * loses its width and prints as nothing, without an error.
 */
module NeighborScale {
  import opened GoInts
  import opened Seqs
  import opened IpUtil

  // Big-endian bytes.

  type Byte = x: int | 0 <= x < 256

  function FromBytes(bs: seq<Byte>): nat {
    if bs == [] then 0 else 256 * FromBytes(bs[..|bs| - 1]) + bs[|bs| - 1]
  }

  /** As few bytes as will do; none for zero. */
  function ToBytes(n: nat): seq<Byte> {
    if n == 0 then [] else ToBytes(n / 256) + [n % 256]
  }

  function Pow256(w: nat): (r: nat)
    ensures r >= 1
  {
    if w == 0 then 1 else 256 * Pow256(w - 1)
  }

  lemma {:induction false} FromTo(n: nat)
    ensures FromBytes(ToBytes(n)) == n
  {
    if n > 0 {
      FromTo(n / 256);
      var bs := ToBytes(n);
      assert bs[..|bs| - 1] == ToBytes(n / 256);
    }
  }

  /** The byte count of a number: w bytes exactly from 256^(w-1) up to 256^w. */
  lemma {:induction false} Width(n: nat, w: nat)
    ensures |ToBytes(n)| <= w <==> n < Pow256(w)
  {
    if w > 0 && n > 0 {
      Width(n / 256, w - 1);
    }
  }

  // IncrementIP.

  /** What an address prints as: dotted from 4 bytes, with colons from 16, and otherwise "<nil>". */
  datatype IpText = Dotted(bytes: seq<Byte>) | Colon(bytes: seq<Byte>) | NilText

  /** A parsed address: 4 bytes, also for an IPv4-mapped one, or 16. */
  predicate IsIp(ip: seq<Byte>) {
    |ip| == 4 || |ip| == 16
  }

  /** To4 or To16, then String; To16 maps 4 bytes to an IPv4 address. */
  function Print(bytes: seq<Byte>, v4: bool): IpText {
    if |bytes| == 4 then Dotted(bytes)
    else if |bytes| == 16 && !v4 then Colon(bytes)
    else NilText
  }

  function AbsBytes(n: int): seq<Byte> {
    ToBytes(Abs(n))
  }

  /** IncrementIP; None is an address that does not parse. */
  method IncrementIP(ip: Option<seq<Byte>>, num: int) returns (r: Option<IpText>)
    requires ip.Some? ==> IsIp(ip.value)
    ensures r.Some? <==> ip.Some?
    ensures r.Some? ==> r.value == Incremented(ip.value, num)
  {
    if ip.None? {
      return None;
    }
    var ipInt: int := FromBytes(ip.value);
    ipInt := ipInt + num;
    var newIp := if |ip.value| == 4 then Print(AbsBytes(ipInt), true) else Print(AbsBytes(ipInt), false);
    r := Some(newIp);
  }

  function Incremented(ip: seq<Byte>, num: int): IpText {
    Print(AbsBytes(FromBytes(ip) + num), |ip| == 4)
  }

  /** The address of value v in the family of width w. */
  function TextOf(v: nat, w: nat): IpText {
    if w == 4 then Dotted(ToBytes(v)) else Colon(ToBytes(v))
  }

  predicate FullWidth(v: int, w: nat)
    requires w > 0
  {
    Pow256(w - 1) <= v < Pow256(w)
  }

  /**
   * The result is the address num further on, in the same family and printed, if and only if
   * that number fills the family's width: no overflow and no leading zero byte.
   */
  lemma IncrementIff(ip: seq<Byte>, num: int)
    requires IsIp(ip)
    ensures var v := FromBytes(ip) + num;
            (v >= 0 && |ToBytes(v)| == |ip| && Incremented(ip, num) == TextOf(v, |ip|)) <==> FullWidth(v, |ip|)
  {
    hide ToBytes, FromBytes, Pow256;
    var n := FromBytes(ip) + num;
    if n >= 0 {
      Width(n, |ip|);
      Width(n, |ip| - 1);
    }
  }

  /** Counting on from a full-width result composes. */
  lemma IncrementComposes(ip: seq<Byte>, i: int, j: int)
    requires IsIp(ip) && FullWidth(FromBytes(ip) + i, |ip|)
    ensures var mid := AbsBytes(FromBytes(ip) + i);
            && Incremented(ip, i) == Print(mid, |ip| == 4) != NilText
            && IsIp(mid) && Incremented(mid, j) == Incremented(ip, i + j)
  {
    hide ToBytes, FromBytes, Pow256;
    var v: nat := FromBytes(ip) + i;
    Width(v, |ip|);
    Width(v, |ip| - 1);
    FromTo(v);
  }

  /** An address below 1.0.0.0 cannot be counted up by one. */
  lemma LeadingZeroIsLost()
    ensures Incremented([0, 0, 0, 1], 1) == NilText
  {
    var ip: seq<Byte> := [0, 0, 0, 1];
    assert ip[..3] == [0, 0, 0] && ip[..3][..2] == [0, 0] && ip[..3][..2][..1] == [0] && ip[..3][..2][..1][..0] == [];
    assert FromBytes([0]) == 0 && FromBytes([0, 0]) == 0 by { assert [0, 0][..1] == [0]; }
    assert FromBytes(ip[..3]) == 0 by { assert [0, 0, 0][..2] == [0, 0]; }
    assert FromBytes(ip) == 1;
    Width(2, 3);
    assert Pow256(3) == 0x100_0000;
  }

  // The neighbour list.

  datatype Port = Absent | Malformed | At(bytes: seq<Byte>)

  datatype PeerConfig = PeerConfig(
    asV4: nat, asV6: nat, numPeers: nat, v4: Port, v6: Port, groupV4: string, groupV6: string)

  datatype Neighbor = Neighbor(asn: nat, ip: IpText, isV4: bool, group: string)

  predicate ValidPort(p: Port) {
    p.At? ==> IsIp(p.bytes)
  }

  /** Autonomous system numbers count up from the first and wrap around at 32 bits. */
  function AsAt(first: nat, i: nat): nat
    requires i >= 1
  {
    (first + i - 1) % TWO_32
  }

  /** The neighbours of peer i, IPv4 first. */
  function PeersAt(c: PeerConfig, i: nat): seq<Neighbor>
    requires i >= 1
  {
    (if c.v4.At? then [Neighbor(AsAt(c.asV4, i), Incremented(c.v4.bytes, i), true, c.groupV4)] else [])
    + (if c.v6.At? then [Neighbor(AsAt(c.asV6, i), Incremented(c.v6.bytes, i), false, c.groupV6)] else [])
  }

  function Neighbors(c: PeerConfig, n: nat): seq<Neighbor> {
    if n == 0 then [] else Neighbors(c, n - 1) + PeersAt(c, n)
  }

  lemma NextAs(first: nat, i: nat)
    requires i >= 1
    ensures (AsAt(first, i) + 1) % TWO_32 == AsAt(first, i + 1)
  {
    var q := (first + i - 1) / TWO_32;
    assert first + i == (AsAt(first, i) + 1) + TWO_32 * q;
    ModPlusMultiple(AsAt(first, i) + 1, TWO_32, q);
  }

  /** BuildIPv4v6NbrScale; None is the fatal exit. */
  method BuildNeighbors(c: PeerConfig) returns (r: Option<seq<Neighbor>>)
    requires ValidPeerConfig(c)
    ensures r.Some? <==> Parses(c)
    ensures r.Some? ==> r.value == Neighbors(c, c.numPeers)
  {
    hide AsAt, Incremented;
    var nbrs: seq<Neighbor> := [];
    var asn, asn6 := c.asV4, c.asV6;
    FirstAs(c.asV4);
    FirstAs(c.asV6);
    var i := 1;
    while i <= c.numPeers
      invariant 1 <= i <= c.numPeers + 1
      invariant asn == AsAt(c.asV4, i) && asn6 == AsAt(c.asV6, i)
      invariant nbrs == Neighbors(c, i - 1)
      invariant i > 1 ==> !c.v4.Malformed? && !c.v6.Malformed?
    {
      ghost var before := nbrs;
      if c.v4 != Absent {
        var ip := IncrementIP(if c.v4.At? then Some(c.v4.bytes) else None, i);
        if ip.None? {
          return None;
        }
        nbrs := nbrs + [Neighbor(asn, ip.value, true, c.groupV4)];
      }
      if c.v6 != Absent {
        var ip := IncrementIP(if c.v6.At? then Some(c.v6.bytes) else None, i);
        if ip.None? {
          return None;
        }
        nbrs := nbrs + [Neighbor(asn6, ip.value, false, c.groupV6)];
      }
      assert nbrs == before + PeersAt(c, i);
      NextAs(c.asV4, i);
      NextAs(c.asV6, i);
      asn, asn6 := (asn + 1) % TWO_32, (asn6 + 1) % TWO_32;
      i := (i + 1) % TWO_32;
    }
    r := Some(nbrs);
  }

  lemma FirstAs(first: nat)
    requires first < TWO_32
    ensures AsAt(first, 1) == first
  {
    ModSmall(first, TWO_32);
  }

  /**
   * The list by position: every given port has its own AS numbers, counting up with the peer,
   * its own peer group, and its own addresses; with both ports IPv4 comes before IPv6.
   */
  lemma {:induction false} NeighborAt(c: PeerConfig, n: nat, i: nat)
    requires 1 <= i <= n
    ensures var both, nbrs := c.v4.At? && c.v6.At?, Neighbors(c, n);
            && |nbrs| == n * ((if c.v4.At? then 1 else 0) + if c.v6.At? then 1 else 0)
            && (c.v4.At? ==>
                  var k := if both then 2 * (i - 1) else i - 1;
                  k < |nbrs| && nbrs[k] ==
                  Neighbor((c.asV4 + (i - 1)) % TWO_32, Incremented(c.v4.bytes, i), true, c.groupV4))
            && (c.v6.At? ==>
                  var k := if both then 2 * (i - 1) + 1 else i - 1;
                  k < |nbrs| && nbrs[k] ==
                  Neighbor((c.asV6 + (i - 1)) % TWO_32, Incremented(c.v6.bytes, i), false, c.groupV6))
    decreases n
  {
    hide Incremented;
    if i < n {
      NeighborAt(c, n - 1, i);
    } else if n > 1 {
      NeighborAt(c, n - 1, n - 1);
    }
  }

  // The addresses of a list.

  /** Counting n addresses up from the port stays within the family's full width. */
  predicate PortFits(p: Port, w: nat, n: nat)
    requires w > 0
  {
    p.At? && |p.bytes| == w && FullWidth(FromBytes(p.bytes) + 1, w) && FullWidth(FromBytes(p.bytes) + n, w)
  }

  /** The i-th neighbour of a port has the address that many further on. */
  predicate AddressRight(p: Port, i: nat)
    requires p.At?
  {
    var v := FromBytes(p.bytes) + i;
    Incremented(p.bytes, i) == TextOf(v, |p.bytes|) && |ToBytes(v)| == |p.bytes|
  }

  ghost predicate AddressesRight(p: Port, n: nat)
    requires p.At?
  {
    forall i :: 1 <= i <= n ==> AddressRight(p, i)
  }

  lemma AddressRightIff(p: Port, i: nat)
    requires p.At? && IsIp(p.bytes)
    ensures AddressRight(p, i) <==> FullWidth(FromBytes(p.bytes) + i, |p.bytes|)
  {
    hide Incremented, TextOf, FromBytes, ToBytes, Pow256;
    IncrementIff(p.bytes, i);
  }

  /** All n neighbours have the right address exactly when the first and the last of them have full width. */
  lemma AddressesRightIff(p: Port, n: nat)
    requires p.At? && IsIp(p.bytes) && n >= 1
    ensures AddressesRight(p, n) <==> PortFits(p, |p.bytes|, n)
  {
    hide AddressRight, FromBytes, Pow256;
    AddressRightIff(p, 1);
    AddressRightIff(p, n);
    if PortFits(p, |p.bytes|, n) {
      forall i | 1 <= i <= n
        ensures AddressRight(p, i)
      {
        AddressRightIff(p, i);
      }
    }
  }

  /** No address missing, and none more than n after its port's. */
  ghost predicate UpTo(c: PeerConfig, s: seq<Neighbor>, n: nat) {
    forall i :: 0 <= i < |s| ==>
      match s[i].ip
      case Dotted(bs) => c.v4.At? && FromBytes(bs) <= FromBytes(c.v4.bytes) + n
      case Colon(bs) => c.v6.At? && FromBytes(bs) <= FromBytes(c.v6.bytes) + n
      case NilText => false
  }

  predicate ConfigFits(c: PeerConfig, n: nat) {
    && (c.v4.Absent? || PortFits(c.v4, 4, n))
    && (c.v6.Absent? || PortFits(c.v6, 16, n))
  }

  lemma DistinctAppend<T>(s: seq<T>, x: T)
    requires Distinct(s) && x !in s
    ensures Distinct(s + [x])
  {
  }

  lemma NextAddress(p: Port, w: nat, n: nat, i: nat)
    requires (w == 4 || w == 16) && PortFits(p, w, n) && 1 <= i <= n
    ensures Incremented(p.bytes, i) == TextOf(FromBytes(p.bytes) + i, w)
    ensures FromBytes(ToBytes(FromBytes(p.bytes) + i)) == FromBytes(p.bytes) + i
  {
    hide Incremented, TextOf, FromBytes, ToBytes, Pow256;
    IncrementIff(p.bytes, i);
    FromTo(FromBytes(p.bytes) + i);
  }

  lemma AddOne(c: PeerConfig, s: seq<Neighbor>, nb: Neighbor, n: nat)
    requires Distinct(Ips(s)) && UpTo(c, s, n) && nb.ip !in Ips(s) && UpTo(c, [nb], n)
    ensures Distinct(Ips(s + [nb])) && UpTo(c, s + [nb], n)
  {
    hide FromBytes;
    DistinctAppend(Ips(s), nb.ip);
    assert Ips(s + [nb]) == Ips(s) + [nb.ip];
    forall i | 0 <= i < |s + [nb]|
      ensures match (s + [nb])[i].ip
              case Dotted(bs) => c.v4.At? && FromBytes(bs) <= FromBytes(c.v4.bytes) + n
              case Colon(bs) => c.v6.At? && FromBytes(bs) <= FromBytes(c.v6.bytes) + n
              case NilText => false
    {
      if i == |s| {
        assert (s + [nb])[i] == [nb][0];
      }
    }
  }

  /** The neighbours of one configuration have pairwise different addresses, in both families together. */
  lemma {:induction false} NeighborsDistinct(c: PeerConfig, total: nat, n: nat)
    requires ConfigFits(c, total) && n <= total
    ensures Distinct(Ips(Neighbors(c, n))) && UpTo(c, Neighbors(c, n), n)
    decreases n
  {
    hide Incremented, FromBytes, ToBytes, FullWidth, AsAt;
    if n > 0 {
      NeighborsDistinct(c, total, n - 1);
      var s := Neighbors(c, n - 1);
      var t := s;
      if c.v4.At? {
        var nb := Neighbor(AsAt(c.asV4, n), Incremented(c.v4.bytes, n), true, c.groupV4);
        NextAddress(c.v4, 4, total, n);
        assert UpTo(c, s, n) && UpTo(c, [nb], n);
        NotYet(c, s, nb.ip, n);
        AddOne(c, s, nb, n);
        t := s + [nb];
      }
      if c.v6.At? {
        var nb := Neighbor(AsAt(c.asV6, n), Incremented(c.v6.bytes, n), false, c.groupV6);
        NextAddress(c.v6, 16, total, n);
        assert UpTo(c, [nb], n) && UpTo(c, t, n);
        NotYet(c, s, nb.ip, n);
        if c.v4.At? {
          assert Ips(t) == Ips(s) + [Incremented(c.v4.bytes, n)];
        }
        AddOne(c, t, nb, n);
        t := t + [nb];
      }
      assert t == Neighbors(c, n);
    }
  }

  lemma NotYet(c: PeerConfig, s: seq<Neighbor>, ip: IpText, n: nat)
    requires n > 0 && UpTo(c, s, n - 1)
    requires match ip
             case Dotted(bs) => c.v4.At? && FromBytes(bs) == FromBytes(c.v4.bytes) + n
             case Colon(bs) => c.v6.At? && FromBytes(bs) == FromBytes(c.v6.bytes) + n
             case NilText => false
    ensures ip !in Ips(s)
  {
    hide FromBytes;
  }

  // The neighbour map.

  function Ips(s: seq<Neighbor>): (r: seq<IpText>)
    ensures |r| == |s|
  {
    seq(|s|, i requires 0 <= i < |s| => s[i].ip)
  }

  /** The map a list leaves: the last neighbour with an address has it. */
  function Keyed(s: seq<Neighbor>): map<IpText, Neighbor> {
    if s == [] then map[] else Keyed(s[..|s| - 1])[s[|s| - 1].ip := s[|s| - 1]]
  }

  /** The second loop of ConfigureEBgpPeersScale */
  method BuildNeighborMap(nbrs: seq<Neighbor>) returns (m: map<IpText, Neighbor>)
    ensures m == Keyed(nbrs)
  {
    m := map[];
    for i := 0 to |nbrs|
      invariant m == Keyed(nbrs[..i])
    {
      assert nbrs[..i + 1][..i] == nbrs[..i];
      m := m[nbrs[i].ip := nbrs[i]];
    }
    assert nbrs[..|nbrs|] == nbrs;
  }

  lemma {:induction false} KeyedKeys(s: seq<Neighbor>)
    ensures forall ip :: ip in Keyed(s) <==> ip in Ips(s)
  {
    if s != [] {
      KeyedKeys(s[..|s| - 1]);
      IpsSplit(s);
    }
  }

  lemma SingleApart<T>(s: seq<T>, x: T)
    ensures Distinct([x]) && (Apart(s, [x]) <==> x !in s)
  {
    if x in s {
      NotApart(s, [x], x);
    }
  }

  lemma KeyedStep(s: seq<Neighbor>)
    requires s != []
    ensures var front, last := s[..|s| - 1], s[|s| - 1].ip;
            |Keyed(s)| == |Keyed(front)| + if last in Ips(front) then 0 else 1
  {
    hide Ips;
    var front, last := s[..|s| - 1], s[|s| - 1].ip;
    KeyedKeys(front);
    assert Keyed(s).Keys == Keyed(front).Keys + {last};
    assert |Keyed(s).Keys| == |Keyed(s)| && |Keyed(front).Keys| == |Keyed(front)|;
    if last in Ips(front) {
      assert Keyed(s).Keys == Keyed(front).Keys;
    }
  }

  /** A list leaves as many entries as it has neighbours exactly when no two share an address. */
  lemma {:induction false} KeyedSize(s: seq<Neighbor>)
    ensures |Keyed(s)| <= |s|
    ensures |Keyed(s)| == |s| <==> Distinct(Ips(s))
  {
    hide Distinct, Apart, Ips;
    if s == [] {
      NothingApart([]);
    } else {
      var front, last := s[..|s| - 1], s[|s| - 1].ip;
      KeyedSize(front);
      KeyedStep(s);
      IpsSplit(s);
      DistinctConcat(Ips(front), [last]);
      SingleApart(Ips(front), last);
    }
  }

  lemma IpsSplit(s: seq<Neighbor>)
    requires s != []
    ensures Ips(s) == Ips(s[..|s| - 1]) + [s[|s| - 1].ip]
  {
  }

  // All configurations together.

  /** The neighbours of all configurations, one configuration after the other. */
  function AllNeighbors(cs: seq<PeerConfig>): seq<Neighbor> {
    if cs == [] then []
    else AllNeighbors(cs[..|cs| - 1]) + Neighbors(cs[|cs| - 1], cs[|cs| - 1].numPeers)
  }

  /**
   * Well-typed configurations on which the loop ends: with 2^32 - 1 peers its 32-bit counter
   * wraps around below the bound and only the fatal exit stops it.
   */
  predicate ValidPeerConfig(c: PeerConfig) {
    && ValidPort(c.v4) && ValidPort(c.v6) && c.asV4 < TWO_32 && c.asV6 < TWO_32
    && c.numPeers < TWO_32 && (c.numPeers == TWO_32 - 1 ==> !Parses(c))
  }

  predicate Parses(c: PeerConfig) {
    c.numPeers == 0 || (!c.v4.Malformed? && !c.v6.Malformed?)
  }

  /** The neighbour map of ConfigureEBgpPeersScale; None is the fatal exit. */
  method ConfigurePeers(cs: seq<PeerConfig>) returns (r: Option<map<IpText, Neighbor>>)
    requires forall i :: 0 <= i < |cs| ==> ValidPeerConfig(cs[i])
    ensures r.Some? <==> forall i :: 0 <= i < |cs| ==> Parses(cs[i])
    ensures r.Some? ==> r.value == Keyed(AllNeighbors(cs))
  {
    var nbrs: seq<Neighbor> := [];
    for i := 0 to |cs|
      invariant forall k :: 0 <= k < i ==> Parses(cs[k])
      invariant nbrs == AllNeighbors(cs[..i])
    {
      var list := BuildNeighbors(cs[i]);
      if list.None? {
        return None;
      }
      nbrs := nbrs + list.value;
      assert cs[..i + 1][..i] == cs[..i];
    }
    assert cs[..|cs|] == cs;
    var m := BuildNeighborMap(nbrs);
    r := Some(m);
  }

  function IpsOf(c: PeerConfig): seq<IpText> {
    Ips(Neighbors(c, c.numPeers))
  }

  /** The address range of a port's n neighbours holds the value x. */
  predicate Owns(p: Port, n: nat, x: nat) {
    p.At? && FromBytes(p.bytes) + 1 <= x <= FromBytes(p.bytes) + n
  }

  predicate PortsApart(p: Port, m: nat, q: Port, n: nat) {
    p.At? && q.At? && m > 0 && n > 0 ==>
      FromBytes(p.bytes) + m <= FromBytes(q.bytes) || FromBytes(q.bytes) + n <= FromBytes(p.bytes)
  }

  /** The address ranges of two configurations do not meet, in either family. */
  predicate RangesApart(c: PeerConfig, d: PeerConfig) {
    PortsApart(c.v4, c.numPeers, d.v4, d.numPeers) && PortsApart(c.v6, c.numPeers, d.v6, d.numPeers)
  }

  predicate Fits(c: PeerConfig) {
    c.numPeers > 0 ==> ConfigFits(c, c.numPeers)
  }

  lemma TextInjective(x: nat, y: nat)
    ensures TextOf(x, 4) == TextOf(y, 4) ==> x == y
    ensures TextOf(x, 16) == TextOf(y, 16) ==> x == y
    ensures TextOf(x, 4) != TextOf(y, 16)
  {
    hide ToBytes, FromBytes;
    FromTo(x);
    FromTo(y);
  }

  /** A fitting configuration lists exactly the addresses of its ranges. */
  lemma {:induction false} ListsExactly(c: PeerConfig, total: nat, n: nat, x: nat)
    requires ConfigFits(c, total) && n <= total
    ensures TextOf(x, 4) in Ips(Neighbors(c, n)) <==> Owns(c.v4, n, x)
    ensures TextOf(x, 16) in Ips(Neighbors(c, n)) <==> Owns(c.v6, n, x)
    decreases n
  {
    hide Incremented, FromBytes, ToBytes, FullWidth, AsAt, TextOf;
    if n > 0 {
      ListsExactly(c, total, n - 1, x);
      var s := Neighbors(c, n - 1);
      IpsConcat(s, PeersAt(c, n));
      assert Neighbors(c, n) == s + PeersAt(c, n);
      if c.v4.At? {
        NextAddress(c.v4, 4, total, n);
        TextInjective(x, FromBytes(c.v4.bytes) + n);
        TextInjective(FromBytes(c.v4.bytes) + n, x);
      }
      if c.v6.At? {
        NextAddress(c.v6, 16, total, n);
        TextInjective(x, FromBytes(c.v6.bytes) + n);
      }
      PeerIps(c, n);
    }
  }

  lemma IpsConcat(a: seq<Neighbor>, b: seq<Neighbor>)
    ensures Ips(a + b) == Ips(a) + Ips(b)
  {
  }

  lemma PeerIps(c: PeerConfig, i: nat)
    requires i >= 1
    ensures Ips(PeersAt(c, i)) ==
            (if c.v4.At? then [Incremented(c.v4.bytes, i)] else [])
            + (if c.v6.At? then [Incremented(c.v6.bytes, i)] else [])
  {
    hide Incremented, AsAt;
  }

  /** Nothing else is listed. */
  lemma {:induction false} ListsTexts(c: PeerConfig, total: nat, n: nat, ip: IpText)
    requires ConfigFits(c, total) && n <= total && ip in Ips(Neighbors(c, n))
    ensures exists x: nat :: ip == TextOf(x, 4) || ip == TextOf(x, 16)
    decreases n
  {
    hide Incremented, FromBytes, ToBytes, FullWidth, AsAt, TextOf;
    if n > 0 {
      var s := Neighbors(c, n - 1);
      IpsConcat(s, PeersAt(c, n));
      assert Neighbors(c, n) == s + PeersAt(c, n);
      PeerIps(c, n);
      if ip in Ips(s) {
        ListsTexts(c, total, n - 1, ip);
      } else {
        if c.v4.At? {
          NextAddress(c.v4, 4, total, n);
        }
        if c.v6.At? {
          NextAddress(c.v6, 16, total, n);
        }
      }
    }
  }

  lemma NoneListed(c: PeerConfig)
    requires c.numPeers == 0
    ensures IpsOf(c) == []
  {
  }

  lemma NotApart<T>(a: seq<T>, b: seq<T>, x: T)
    requires x in a && x in b
    ensures !Apart(a, b)
  {
    var i :| 0 <= i < |a| && a[i] == x;
    var j :| 0 <= j < |b| && b[j] == x;
  }

  /** The value where two overlapping ranges meet. */
  lemma MeetingValue(p: Port, m: nat, q: Port, n: nat) returns (x: nat)
    requires !PortsApart(p, m, q, n)
    ensures Owns(p, m, x) && Owns(q, n, x)
  {
    hide FromBytes;
    x := Max(FromBytes(p.bytes), FromBytes(q.bytes)) + 1;
  }

  /** Two fitting configurations list no common address exactly when their ranges do not meet. */
  lemma ConfigsApartIff(c: PeerConfig, d: PeerConfig)
    requires Fits(c) && Fits(d)
    ensures Apart(IpsOf(c), IpsOf(d)) <==> RangesApart(c, d)
  {
    hide FromBytes, ToBytes, TextOf, Neighbors, Owns, PortsApart, ConfigFits, Ips;
    if c.numPeers == 0 || d.numPeers == 0 {
      EmptyRangesApart(c, d);
    } else if !PortsApart(c.v4, c.numPeers, d.v4, d.numPeers) {
      var x := MeetingValue(c.v4, c.numPeers, d.v4, d.numPeers);
      ListsExactly(c, c.numPeers, c.numPeers, x);
      ListsExactly(d, d.numPeers, d.numPeers, x);
      NotApart(IpsOf(c), IpsOf(d), TextOf(x, 4));
    } else if !PortsApart(c.v6, c.numPeers, d.v6, d.numPeers) {
      var x := MeetingValue(c.v6, c.numPeers, d.v6, d.numPeers);
      ListsExactly(c, c.numPeers, c.numPeers, x);
      ListsExactly(d, d.numPeers, d.numPeers, x);
      NotApart(IpsOf(c), IpsOf(d), TextOf(x, 16));
    } else {
      forall i, j | 0 <= i < |IpsOf(c)| && 0 <= j < |IpsOf(d)|
        ensures IpsOf(c)[i] != IpsOf(d)[j]
      {
        if IpsOf(c)[i] == IpsOf(d)[j] {
          NoCommonAddress(c, d, IpsOf(c)[i]);
        }
      }
    }
  }

  lemma EmptyRangesApart(c: PeerConfig, d: PeerConfig)
    requires c.numPeers == 0 || d.numPeers == 0
    ensures Apart(IpsOf(c), IpsOf(d)) && RangesApart(c, d)
  {
    if c.numPeers == 0 {
      NoneListed(c);
    } else {
      NoneListed(d);
    }
  }

  lemma NoCommonAddress(c: PeerConfig, d: PeerConfig, ip: IpText)
    requires c.numPeers > 0 && d.numPeers > 0 && Fits(c) && Fits(d) && RangesApart(c, d)
    requires ip in IpsOf(c)
    ensures ip !in IpsOf(d)
  {
    hide FromBytes, ToBytes, TextOf, Neighbors, ConfigFits, Ips;
    ListsTexts(c, c.numPeers, c.numPeers, ip);
    var x: nat :| ip == TextOf(x, 4) || ip == TextOf(x, 16);
    ListsExactly(c, c.numPeers, c.numPeers, x);
    ListsExactly(d, d.numPeers, d.numPeers, x);
  }

  lemma {:induction false} ApartFromAll(cs: seq<PeerConfig>, b: seq<IpText>)
    ensures Apart(Ips(AllNeighbors(cs)), b) <==> forall i :: 0 <= i < |cs| ==> Apart(IpsOf(cs[i]), b)
  {
    hide Neighbors, Apart, Ips;
    if cs == [] {
      NothingApart(b);
    } else {
      var front, last := cs[..|cs| - 1], cs[|cs| - 1];
      ApartFromAll(front, b);
      IpsConcat(AllNeighbors(front), Neighbors(last, last.numPeers));
      ApartConcat(Ips(AllNeighbors(front)), IpsOf(last), b);
      assert forall i :: 0 <= i < |front| ==> front[i] == cs[i];
      if forall i :: 0 <= i < |front| ==> Apart(IpsOf(front[i]), b) {
        if Apart(IpsOf(last), b) {
          forall i | 0 <= i < |cs|
            ensures Apart(IpsOf(cs[i]), b)
          {
            if i < |front| {
              assert cs[i] == front[i];
            }
          }
        }
      }
    }
  }

  lemma NothingApart(b: seq<IpText>)
    ensures AllNeighbors([]) == [] && Ips([]) == [] && Apart(Ips([]), b) && Distinct(Ips([]))
  {
  }

  ghost predicate PairwiseApart(cs: seq<PeerConfig>) {
    forall i, j :: 0 <= i < j < |cs| ==> RangesApart(cs[i], cs[j])
  }

  lemma {:induction false} AllDistinctIff(cs: seq<PeerConfig>)
    requires forall i :: 0 <= i < |cs| ==> Fits(cs[i])
    ensures Distinct(Ips(AllNeighbors(cs))) <==> PairwiseApart(cs)
  {
    hide Neighbors, Apart, Ips, RangesApart, Fits, Distinct, IpsOf;
    if cs == [] {
      NothingApart([]);
    } else {
      var front, last := cs[..|cs| - 1], cs[|cs| - 1];
      assert forall i :: 0 <= i < |front| ==> front[i] == cs[i];
      AllDistinctIff(front);
      OneConfigDistinct(last);
      AllIpsSplit(cs);
      DistinctConcat(Ips(AllNeighbors(front)), IpsOf(last));
      ApartFromAll(front, IpsOf(last));
      forall i | 0 <= i < |front|
        ensures Apart(IpsOf(front[i]), IpsOf(last)) <==> RangesApart(cs[i], last)
      {
        ConfigsApartIff(cs[i], last);
      }
      PairwiseSplit(cs);
    }
  }

  lemma AllIpsSplit(cs: seq<PeerConfig>)
    requires cs != []
    ensures Ips(AllNeighbors(cs)) == Ips(AllNeighbors(cs[..|cs| - 1])) + IpsOf(cs[|cs| - 1])
  {
    hide Neighbors;
    IpsConcat(AllNeighbors(cs[..|cs| - 1]), Neighbors(cs[|cs| - 1], cs[|cs| - 1].numPeers));
  }

  lemma PairwiseSplit(cs: seq<PeerConfig>)
    requires cs != []
    ensures var front, last := cs[..|cs| - 1], cs[|cs| - 1];
            PairwiseApart(cs) <==>
            PairwiseApart(front) && forall i :: 0 <= i < |front| ==> RangesApart(front[i], last)
  {
    hide RangesApart;
    var front, last := cs[..|cs| - 1], cs[|cs| - 1];
    assert forall i :: 0 <= i < |front| ==> front[i] == cs[i];
    if PairwiseApart(front) && forall i :: 0 <= i < |front| ==> RangesApart(front[i], last) {
      forall i, j | 0 <= i < j < |cs|
        ensures RangesApart(cs[i], cs[j])
      {
        if j < |front| {
          assert front[i] == cs[i] && front[j] == cs[j];
        } else {
          assert front[i] == cs[i];
        }
      }
    }
  }

  lemma OneConfigDistinct(c: PeerConfig)
    requires Fits(c)
    ensures Distinct(IpsOf(c))
  {
    if c.numPeers == 0 {
      NoneListed(c);
    } else {
      NeighborsDistinct(c, c.numPeers, c.numPeers);
    }
  }

  /**
   * Over any list of configurations whose addresses fit, the neighbour map has one entry per
   * listed neighbour exactly when the address ranges of any two configurations do not meet, in
   * either family.
   */
  lemma OneEntryEachIff(cs: seq<PeerConfig>)
    requires forall i :: 0 <= i < |cs| ==> Fits(cs[i])
    ensures |Keyed(AllNeighbors(cs))| == |AllNeighbors(cs)| <==> PairwiseApart(cs)
  {
    hide Keyed, AllNeighbors, Fits, Distinct;
    KeyedSize(AllNeighbors(cs));
    AllDistinctIff(cs);
  }
}
