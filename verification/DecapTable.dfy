/**
 * DECAP_TE_VRF: prefixes 203.(i/4).((i%4)*64).0 of lengths 22, 24, 26 and 28 in turn.  They
 * are pairwise disjoint, so a lookup finds the one prefix that covers an address or none.
 * From entry 1024 on the text is no address, and no address is covered.
 */
module DecapTable {
  import opened GoInts
  import opened IpUtil
  import opened Rib
  import opened Params
  import opened EncapDecapBuilder
  import opened FullRun
  import opened Ids
  import opened Forwarding
  import opened ProgrammedTables
  import opened ProgrammedRoutes

  /** Addresses covered by prefix i. */
  function DecapSize(i: nat): nat {
    Pow2(32 - DecapLen(i))
  }

  /** Address a is covered by decap prefix i. */
  predicate Covers(i: nat, a: Addr) {
    a.V4? && DecapNet(i) <= a.n < DecapNet(i) + DecapSize(i)
  }

  lemma DecapSizes(i: nat)
    ensures DecapSize(i) == match i % 4 { case 0 => 1024 case 1 => 256 case 2 => 64 case _ => 16 }
    ensures DecapNet(i) == DecapNet(0) + 16384 * i + if i < 1024 then 0 else TWO_32
  {
    hide Pow2;
    Pow2Values();
  }

  /** No address is covered by two prefixes. */
  lemma CoversUnique(i: nat, j: nat, a: Addr)
    requires Covers(i, a) && Covers(j, a)
    ensures i == j
  {
    hide DecapSize, DecapNet;
    DecapSizes(i);
    DecapSizes(j);
  }

  /** A prefix covers exactly the addresses whose network it is. */
  lemma CoversIffNet(i: nat, a: Addr)
    requires a.V4?
    ensures Covers(i, a) <==> Net(a, DecapLen(i)) == V4(DecapNet(i))
  {
    hide Pow2, DecapNet;
    DecapSizes(i);
    DecapAligned(i);
    RoundDownIff(a.n, DecapSize(i), DecapNet(i));
  }

  lemma DecapAligned(i: nat)
    ensures DecapNet(i) % DecapSize(i) == 0
  {
    hide DecapSize, DecapNet;
    DecapSizes(i);
    DecapBase();
    var base := if i < 1024 then 0xCB00_0000 else 0xCB00_0000 + TWO_32;
    match i % 4
    case 0 => ModPlusMultiple(0, 1024, base / 1024 + 16 * i);
    case 1 => ModPlusMultiple(0, 256, base / 256 + 64 * i);
    case 2 => ModPlusMultiple(0, 64, base / 64 + 256 * i);
    case _ => ModPlusMultiple(0, 16, base / 16 + 1024 * i);
  }

  lemma DecapBase()
    ensures DecapNet(0) == 0xCB00_0000
  {
  }

  lemma RoundDownIff(n: nat, size: nat, m: nat)
    requires size > 0 && m % size == 0
    ensures RoundDown(n, size) == m <==> m <= n < m + size
  {
    var q := m / size;
    assert m == size * q;
    assert n == size * (n / size) + n % size;
    assert (n / size) * size == size * (n / size);
    if m <= n < m + size {
      DivMod(n, size, q, n - m);
    }
  }

  lemma DecapPrefixInjective(i: nat, j: nat)
    requires DecapPrefix(i) == DecapPrefix(j)
    ensures i == j
  {
    hide DecapNet, DecapSize;
    DecapSizes(i);
    DecapSizes(j);
  }

  /** The decap route table, by index. */
  lemma {:induction false} DecapRouteIff(n: nat, prefix: Prefix)
    ensures forall i :: 0 <= i < n && prefix == DecapPrefix(i) ==> DecapRouteOf(n, prefix) == Some(NHG_BASE_DECAP + i)
    ensures DecapRouteOf(n, prefix).Some? ==> exists i :: 0 <= i < n && prefix == DecapPrefix(i)
  {
    hide DecapPrefix;
    if n > 0 {
      DecapRouteIff(n - 1, prefix);
      forall i | 0 <= i < n && prefix == DecapPrefix(i)
        ensures DecapRouteOf(n, prefix) == Some(NHG_BASE_DECAP + i)
      {
        if prefix == DecapPrefix(n - 1) {
          DecapPrefixInjective(i, n - 1);
        }
      }
    }
  }

  lemma DecapProbe(p: ScaleParams, multi: bool, a: Addr, k: nat)
    requires Programmed(p, multi) && k <= Bits(a)
    ensures p.numDecapEntries >= 0
    ensures Probe(ProgrammedTable(p, multi), DecapVrf, a, k) == DecapRouteOf(p.numDecapEntries, Prefix(Net(a, k), k))
  {
    hide ProgrammedTable, Completes, NhPlan, NhgPlan, Probe, Net, DecapRouteOf;
    CompletesFacts(p);
    ProbeIs(p, multi, DecapVrf, a, k);
  }

  /** A probe that hits does so by a prefix that covers the address. */
  lemma ProbeCovers(p: ScaleParams, multi: bool, a: Addr, k: nat) returns (i: nat)
    requires Programmed(p, multi) && k <= Bits(a) && Probe(ProgrammedTable(p, multi), DecapVrf, a, k).Some?
    ensures i < p.numDecapEntries && Covers(i, a) && a.V4? && k == DecapLen(i)
    ensures Probe(ProgrammedTable(p, multi), DecapVrf, a, k) == Some(NHG_BASE_DECAP + i)
  {
    hide ProgrammedTable, Completes, NhPlan, NhgPlan, Probe, Net, DecapRouteOf, Covers;
    DecapProbe(p, multi, a, k);
    DecapRouteIff(p.numDecapEntries, Prefix(Net(a, k), k));
    i :| 0 <= i < p.numDecapEntries && Prefix(Net(a, k), k) == DecapPrefix(i);
    NetSameFamily(a, k);
    CoversIffNet(i, a);
  }

  lemma CoversOnlyBelow1024(i: nat, a: Addr)
    requires Covers(i, a) && a.n < TWO_32
    ensures i < 1024
  {
    hide DecapSize, DecapNet;
    DecapSizes(i);
    DecapBase();
  }

  /** A lookup of an address in DECAP_TE_VRF finds entry i exactly when prefix i covers the address. */
  lemma DecapLookupIff(p: ScaleParams, multi: bool, a: Addr)
    requires Programmed(p, multi) && (a.V4? ==> a.n < TWO_32)
    ensures forall i :: 0 <= i < p.numDecapEntries && Covers(i, a) ==>
              Lookup(ProgrammedTable(p, multi), DecapVrf, a) == Some(NHG_BASE_DECAP + i)
    ensures Lookup(ProgrammedTable(p, multi), DecapVrf, a).Some? ==>
              exists i :: 0 <= i < p.numDecapEntries && i < 1024 && Covers(i, a)
  {
    hide ProgrammedTable, Completes, NhPlan, NhgPlan, Probe, Net, Lookup, DecapRouteOf, Covers;
    var t := ProgrammedTable(p, multi);
    LookupIsLongestMatch(t, DecapVrf, a);
    if Lookup(t, DecapVrf, a).Some? {
      var k: nat :| LongestMatch(t, DecapVrf, a, k);
      var i := ProbeCovers(p, multi, a, k);
      CoversOnlyBelow1024(i, a);
      forall j | 0 <= j < p.numDecapEntries && Covers(j, a)
        ensures Lookup(t, DecapVrf, a) == Some(NHG_BASE_DECAP + j)
      {
        CoversUnique(i, j, a);
      }
    } else {
      forall j | 0 <= j < p.numDecapEntries
        ensures !Covers(j, a)
      {
        if Covers(j, a) {
          CoveredProbe(p, multi, a, j);
          assert false;
        }
      }
    }
  }

  lemma CoveredProbe(p: ScaleParams, multi: bool, a: Addr, i: nat)
    requires Programmed(p, multi) && i < p.numDecapEntries && Covers(i, a)
    ensures DecapLen(i) <= Bits(a) && Probe(ProgrammedTable(p, multi), DecapVrf, a, DecapLen(i)).Some?
  {
    hide ProgrammedTable, Completes, NhPlan, NhgPlan, Probe, Net, DecapRouteOf, DecapNet, DecapSize;
    DecapProbe(p, multi, a, DecapLen(i));
    CoversIffNet(i, a);
    DecapRouteIff(p.numDecapEntries, DecapPrefix(i));
  }

  lemma BlockIff(x: nat, y: nat, low: nat, size: nat)
    requires low < 16384 && size <= 16384
    ensures 16384 * y <= 16384 * x + low < 16384 * y + size <==> x == y && low < size
  {
  }

  lemma DigitsIff(a: nat, b: nat, r: nat, i: nat)
    requires b < 256 && r < 4 && i < 1024
    ensures 1024 * a + 4 * b + r == 1024 * 203 + i <==> a == 203 && b == i / 4 && r == i % 4
  {
    assert i == 4 * (i / 4) + i % 4;
  }

  /** The addresses that prefix i covers, octet by octet. */
  lemma CoversOctets(i: nat, a: nat, b: nat, c: nat, d: nat)
    requires i < 1024 && a < 256 && b < 256 && c < 256 && d < 256
    ensures Covers(i, V4(Ipv4(a, b, c, d))) <==>
            && a == 203 && b == i / 4 && c / 64 == i % 4
            && c % 64 * 256 + d < match i % 4 { case 0 => 1024 case 1 => 256 case 2 => 64 case _ => 16 }
  {
    hide DecapSize, DecapNet;
    DecapSizes(i);
    DecapBase();
    var x, y, low := 1024 * a + 4 * b + c / 64, 1024 * 203 + i, c % 64 * 256 + d;
    assert Ipv4(a, b, c, d) == 16384 * x + low by {
      assert c == 64 * (c / 64) + c % 64;
    }
    assert DecapNet(i) == 16384 * y;
    BlockIff(x, y, low, DecapSize(i));
    DigitsIff(a, b, c / 64, i);
  }

  // The hosts traffic is sent to.

  function DecapHosts(n: nat): (s: seq<Addr>)
    ensures |s| == n
  {
    seq(n, i requires 0 <= i < n => V4(DecapNet(i) + 1))
  }

  /** ExpandDecapPrefixes, on the numbers of the texts; a text that is no address has one beyond 32 bits. */
  method ExpandDecapPrefixes(numDecapEntries: nat) returns (ips: seq<Addr>)
    ensures ips == DecapHosts(numDecapEntries)
    ensures forall i :: 0 <= i < numDecapEntries ==> Covers(i, ips[i]) && (ips[i].n < TWO_32 <==> i < 1024)
    ensures forall i, j :: 0 <= i < numDecapEntries && 0 <= j && Covers(j, ips[i]) ==> j == i
  {
    hide DecapNet, Covers;
    ips := [];
    for i := 0 to numDecapEntries
      invariant ips == DecapHosts(i)
    {
      HostIsNext(i);
      var ip := DottedText(203, i / 4, i % 4 * 64, 1);
      ips := ips + [V4(ip)];
    }
    forall i | 0 <= i < numDecapEntries
      ensures Covers(i, ips[i]) && (ips[i].n < TWO_32 <==> i < 1024)
      ensures forall j: nat :: Covers(j, ips[i]) ==> j == i
    {
      HostCovered(numDecapEntries, i);
    }
  }

  lemma HostIsNext(i: nat)
    ensures DottedText(203, i / 4, i % 4 * 64, 1) == DecapNet(i) + 1
  {
  }

  /** Host i is covered by prefix i and by no other. */
  lemma HostCovered(n: nat, i: nat)
    requires i < n
    ensures var a := DecapHosts(n)[i];
            Covers(i, a) && (a.n < TWO_32 <==> i < 1024) && forall j: nat :: Covers(j, a) ==> j == i
  {
    hide DecapNet, DecapSize;
    DecapSizes(i);
    DecapBase();
    var a := DecapHosts(n)[i];
    assert Covers(i, a);
    forall j: nat | Covers(j, a)
      ensures j == i
    {
      CoversUnique(i, j, a);
    }
  }
}
