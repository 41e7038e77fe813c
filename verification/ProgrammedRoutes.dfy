/** Lookups in the programmed tables: what each VRF does with each address. */
module ProgrammedRoutes {
  import opened GoInts
  import opened IpUtil
  import opened Rib
  import opened Params
  import opened DefaultVrfBuilder
  import opened RepairBuilder
  import opened TransitBuilder
  import opened EncapDecapBuilder
  import opened FullRun
  import opened Ids
  import opened Forwarding
  import opened ProgrammedTables

  lemma ProbeIs(p: ScaleParams, multi: bool, vrf: Vrf, a: Addr, len: nat)
    requires Completes(p) && len <= Bits(a)
    ensures Probe(ProgrammedTable(p, multi), vrf, a, len) == TableRoute(p, vrf, Prefix(Net(a, len), len))
  {
    hide ProgrammedTable, TableNh, TableNhg, TableRoute, Completes, Net;
    ProgrammedTableIs(p, multi, 0, vrf, Prefix(Net(a, len), len));
  }

  /** VRFs that hold nothing but host routes. */
  predicate HostOnly(vrf: Vrf) {
    vrf.DefaultVrf? || vrf.TransitVrf111? || vrf.TransitVrf222? || vrf.RepairVrf?
  }

  lemma HostOnlyRoutes(p: ScaleParams, vrf: Vrf, prefix: Prefix)
    requires Completes(p) && HostOnly(vrf) && TableRoute(p, vrf, prefix).Some?
    ensures prefix.len == 32 && prefix.net.V4?
  {
    hide ValidParams, CountsSafe, AddressesFit, BackupStart, Half, PrimaryTargets, BackupTargets, SideTargets,
         RepairTargets, SideSafe, Built;
    CompletesFacts(p);
  }

  /** In a VRF of host routes, the lookup of an address is its host route or nothing. */
  lemma HostOnlyLookup(p: ScaleParams, multi: bool, vrf: Vrf, a: Addr)
    requires Completes(p) && HostOnly(vrf)
    ensures Lookup(ProgrammedTable(p, multi), vrf, a) == TableRoute(p, vrf, HostPrefix(a))
  {
    hide ProgrammedTable, TableRoute, Completes, Probe, Net, Lookup, HostOnly;
    var t := ProgrammedTable(p, multi);
    NetOfHost(a);
    ProbeIs(p, multi, vrf, a, Bits(a));
    LookupIsLongestMatch(t, vrf, a);
    if TableRoute(p, vrf, HostPrefix(a)).Some? {
      assert LongestMatch(t, vrf, a, Bits(a));
    } else {
      forall k | 0 <= k <= Bits(a)
        ensures Probe(t, vrf, a, k).None?
      {
        ProbeIs(p, multi, vrf, a, k);
        if Probe(t, vrf, a, k).Some? {
          HostOnlyRoutes(p, vrf, Prefix(Net(a, k), k));
          NetSameFamily(a, k);
        }
      }
    }
  }

  lemma NetSameFamily(a: Addr, k: nat)
    requires k <= Bits(a)
    ensures Net(a, k).V4? == a.V4?
  {
  }

  /** TE_VRF_111 */
  lemma Lookup111(p: ScaleParams, multi: bool, a: Addr)
    requires Programmed(p, multi)
    ensures Lookup(ProgrammedTable(p, multi), TransitVrf111, a) ==
            if a.V4? && TRANSIT_111_START <= a.n < TRANSIT_111_START + p.numTransitIPv4
            then Some(NHG_BASE_TRANSIT + (a.n - TRANSIT_111_START) % Half(p.numTransitNHG)) else None
  {
    hide ProgrammedTable, Lookup, ValidParams, CountsSafe, AddressesFit, SideSafe, Half, NhPlan, NhgPlan;
    CompletesFacts(p);
    HostOnlyLookup(p, multi, TransitVrf111, a);
  }

  /** TE_VRF_222 */
  lemma Lookup222(p: ScaleParams, multi: bool, a: Addr)
    requires Programmed(p, multi)
    ensures Built(Backup(p)) ==> Backup(p).nhgCount >= 1
    ensures Lookup(ProgrammedTable(p, multi), TransitVrf222, a) ==
            if Built(Backup(p)) && a.V4? && TRANSIT_222_START <= a.n < TRANSIT_222_START + p.numTransitIPv4
            then Some(Backup(p).baseNHG + (a.n - TRANSIT_222_START) % Backup(p).nhgCount) else None
  {
    hide ProgrammedTable, Lookup, ValidParams, CountsSafe, AddressesFit, SideSafe, Half, NhPlan, NhgPlan;
    CompletesFacts(p);
    SideCounts(p, multi);
    HostOnlyLookup(p, multi, TransitVrf222, a);
  }

  /** REPAIR_VRF */
  lemma LookupRepair(p: ScaleParams, multi: bool, a: Addr)
    requires Programmed(p, multi)
    ensures Lookup(ProgrammedTable(p, multi), RepairVrf, a) ==
            if a.V4? && TRANSIT_111_START <= a.n < TRANSIT_111_START + p.numRepairIPv4
            then Some(NHG_BASE_REPAIR + (a.n - TRANSIT_111_START) % p.numRepairNHG) else None
  {
    hide ProgrammedTable, Lookup, ValidParams, CountsSafe, AddressesFit, SideSafe, Half, NhPlan, NhgPlan;
    CompletesFacts(p);
    HostOnlyLookup(p, multi, RepairVrf, a);
  }

  /** The default VRF; a single prefix is taken over by the backup half. */
  lemma LookupDefault(p: ScaleParams, multi: bool, a: Addr)
    requires Programmed(p, multi)
    ensures Lookup(ProgrammedTable(p, multi), DefaultVrf, a) ==
            if a.V4? && BackupStart(p) <= a.n < BackupStart(p) + Ipv4Part(p)
            then Some(NHG_BASE_DEFAULT + NhgPart(p) + (a.n - BackupStart(p)) % NhgPart(p))
            else if a.V4? && DEFAULT_PREFIX_START <= a.n < DEFAULT_PREFIX_START + Ipv4Part(p)
            then Some(NHG_BASE_DEFAULT + (a.n - DEFAULT_PREFIX_START) % NhgPart(p))
            else None
  {
    hide ProgrammedTable, Lookup, ValidParams, CountsSafe, AddressesFit, SideSafe, Half, NhPlan, NhgPlan, BackupStart;
    CompletesFacts(p);
    HostOnlyLookup(p, multi, DefaultVrf, a);
  }

  /** Default prefixes are not link addresses. */
  lemma DefaultPrefixesNotLinks(p: ScaleParams, multi: bool, x: nat)
    requires Programmed(p, multi) && x < Ipv4Part(p)
    ensures DEFAULT_PREFIX_START + x < ATE_PORT2_START && BackupStart(p) + x < ATE_PORT2_START
    ensures p.numDefaultIPv4 >= 2 ==> DEFAULT_PREFIX_START + x < BackupStart(p)
    ensures VlanOf(p.numPort2VLANs, V4(DEFAULT_PREFIX_START + x)) == None
    ensures VlanOf(p.numPort2VLANs, V4(BackupStart(p) + x)) == None
  {
    hide ValidParams, AddressesFit, NhPlan, NhgPlan;
    CompletesFacts(p);
  }

  /** A link address is never a default prefix. */
  lemma LookupLink(p: ScaleParams, multi: bool, v: nat)
    requires Programmed(p, multi)
    ensures Lookup(ProgrammedTable(p, multi), DefaultVrf, AteIp(v)) == None
  {
    hide ProgrammedTable, Lookup, Completes, NhPlan, NhgPlan;
    LookupDefault(p, multi, AteIp(v));
    DefaultPrefixesNotLinks(p, multi, Ipv4Part(p) - 1);
  }

  lemma VlanOfLink(vlans: nat, v: nat)
    ensures v < vlans ==> VlanOf(vlans, AteIp(v)) == Some(v)
  {
    DivMod(v * PORT_STEP, PORT_STEP, v, 0);
  }

  lemma VlanOfInverse(vlans: nat, a: Addr)
    requires VlanOf(vlans, a).Some?
    ensures VlanOf(vlans, a).value < vlans && a == AteIp(VlanOf(vlans, a).value)
  {
  }

  /** The encap VRFs: a host route of the VRF's own slice, or the fallback for every other address. */
  lemma LookupEncap(p: ScaleParams, multi: bool, vi: nat, a: Addr)
    requires Programmed(p, multi) && vi < p.numEncapVRFs
    requires a.n < if a.V4? then TWO_32 else TWO_128
    ensures 0 < p.numEncapVRFs <= p.numEncapDefaultNHG
    ensures Lookup(ProgrammedTable(p, multi), EncapVrf(vi), a) ==
            OrElse(EncapRouteOf(p, vi, HostPrefix(a)), Some(FALLBACK_NHG))
  {
    hide ProgrammedTable, Completes, Probe, Lookup, NhPlan, NhgPlan, TableRoute, EncapRouteOf;
    var t := ProgrammedTable(p, multi);
    CompletesFacts(p);
    LookupIsLongestMatch(t, EncapVrf(vi), a);
    NetOfHost(a);
    EncapProbe(p, multi, vi, a, Bits(a));
    if EncapRouteOf(p, vi, HostPrefix(a)).Some? {
      assert LongestMatch(t, EncapVrf(vi), a, Bits(a));
    } else {
      NetOfAny(a);
      EncapProbe(p, multi, vi, a, 0);
      EncapRouteAny(p, vi, a);
      forall k | 0 < k <= Bits(a)
        ensures Probe(t, EncapVrf(vi), a, k).None?
      {
        EncapProbe(p, multi, vi, a, k);
        NetSameFamily(a, k);
        EncapRouteMiddle(p, vi, Net(a, k), k);
      }
      assert LongestMatch(t, EncapVrf(vi), a, 0);
    }
  }

  lemma EncapProbe(p: ScaleParams, multi: bool, vi: nat, a: Addr, k: nat)
    requires Programmed(p, multi) && vi < p.numEncapVRFs && k <= Bits(a)
    ensures 0 < p.numEncapVRFs <= p.numEncapDefaultNHG
    ensures Probe(ProgrammedTable(p, multi), EncapVrf(vi), a, k) == EncapRouteOf(p, vi, Prefix(Net(a, k), k))
  {
    hide ProgrammedTable, Completes, Probe, Net, NhPlan, NhgPlan, EncapRouteOf;
    CompletesFacts(p);
    ProbeIs(p, multi, EncapVrf(vi), a, k);
  }

  lemma EncapRouteAny(p: ScaleParams, vi: nat, a: Addr)
    requires 0 < p.numEncapVRFs <= p.numEncapDefaultNHG && vi < p.numEncapVRFs
    ensures EncapRouteOf(p, vi, Prefix(if a.V4? then V4(0) else V6(0), 0)) == Some(FALLBACK_NHG)
  {
  }

  lemma EncapRouteMiddle(p: ScaleParams, vi: nat, net: Addr, k: nat)
    requires 0 < p.numEncapVRFs <= p.numEncapDefaultNHG && vi < p.numEncapVRFs && 0 < k <= Bits(net)
    ensures k < Bits(net) ==> EncapRouteOf(p, vi, Prefix(net, k)) == None
  {
  }

  lemma NetOfAny(a: Addr)
    requires a.n < if a.V4? then TWO_32 else TWO_128
    ensures Net(a, 0) == if a.V4? then V4(0) else V6(0)
  {
    Pow2Values();
    ModSmall(a.n, if a.V4? then TWO_32 else TWO_128);
  }

  lemma Pow2Add(a: nat, b: nat)
    ensures Pow2(a + b) == Pow2(a) * Pow2(b)
  {
    if b == 0 {
      assert Pow2(0) == 1;
    } else {
      Pow2Add(a, b - 1);
      assert Pow2(a + b) == 2 * Pow2(a + b - 1);
      assert 2 * (Pow2(a) * Pow2(b - 1)) == Pow2(a) * (2 * Pow2(b - 1));
    }
  }

  lemma Pow2OfTwo()
    ensures Pow2(2) == 4
  {
  }

  lemma Pow2Values()
    ensures Pow2(4) == 16 && Pow2(6) == 64 && Pow2(8) == 256 && Pow2(10) == 1024
    ensures Pow2(32) == TWO_32 && Pow2(128) == TWO_128
  {
    hide Pow2;
    Pow2OfTwo();
    Pow2Add(2, 2);
    Pow2Add(4, 2);
    Pow2Add(4, 4);
    Pow2Add(8, 2);
    Pow2Add(8, 8);
    Pow2Add(16, 16);
    Pow2Add(32, 32);
    Pow2Add(64, 64);
  }

  // Which groups a VRF's lookups can lead to.

  lemma {:induction false} LookupHasRoute(p: ScaleParams, multi: bool, vrf: Vrf, a: Addr) returns (prefix: Prefix)
    requires Programmed(p, multi) && Lookup(ProgrammedTable(p, multi), vrf, a).Some?
    ensures TableRoute(p, vrf, prefix) == Lookup(ProgrammedTable(p, multi), vrf, a)
  {
    hide ProgrammedTable, Completes, Probe, Lookup, NhPlan, NhgPlan, TableRoute, Net;
    var t := ProgrammedTable(p, multi);
    LookupIsLongestMatch(t, vrf, a);
    var len: nat :| LongestMatch(t, vrf, a, len);
    ProbeIs(p, multi, vrf, a, len);
    prefix := Prefix(Net(a, len), len);
  }

  lemma EncapLookupClass(p: ScaleParams, multi: bool, vi: nat, a: Addr)
    requires Programmed(p, multi) && Lookup(ProgrammedTable(p, multi), EncapVrf(vi), a).Some?
    ensures var g := Lookup(ProgrammedTable(p, multi), EncapVrf(vi), a).value;
            vi < p.numEncapVRFs && FALLBACK_NHG <= g < FIRST_ENCAP_NHG + p.numEncapDefaultNHG
  {
    hide ProgrammedTable, Lookup, Completes, NhPlan, NhgPlan, EncapRouteOf;
    CompletesFacts(p);
    var prefix := LookupHasRoute(p, multi, EncapVrf(vi), a);
    EncapRouteClass(p, vi, prefix);
  }

  lemma EncapRouteClass(p: ScaleParams, vi: nat, prefix: Prefix)
    requires 0 < p.numEncapVRFs <= p.numEncapDefaultNHG && vi < p.numEncapVRFs
    ensures EncapRouteOf(p, vi, prefix).Some? ==>
              FALLBACK_NHG <= EncapRouteOf(p, vi, prefix).value < FIRST_ENCAP_NHG + p.numEncapDefaultNHG
  {
    hide SliceStart, SliceCount, Encap4Start, Encap6Start;
    SlicesTile(p, vi);
  }

  lemma DecapLookupClass(p: ScaleParams, multi: bool, a: Addr)
    requires Programmed(p, multi) && Lookup(ProgrammedTable(p, multi), DecapVrf, a).Some?
    ensures var g := Lookup(ProgrammedTable(p, multi), DecapVrf, a).value;
            NHG_BASE_DECAP <= g < NHG_BASE_DECAP + p.numDecapEntries
  {
    hide ProgrammedTable, Lookup, Completes, NhPlan, NhgPlan, DecapRouteOf;
    CompletesFacts(p);
    var prefix := LookupHasRoute(p, multi, DecapVrf, a);
    DecapRouteClass(p.numDecapEntries, prefix);
  }

  lemma {:induction false} DecapRouteClass(n: nat, prefix: Prefix)
    ensures DecapRouteOf(n, prefix).Some? ==> NHG_BASE_DECAP <= DecapRouteOf(n, prefix).value < NHG_BASE_DECAP + n
  {
    if n > 0 {
      DecapRouteClass(n - 1, prefix);
    }
  }
}
