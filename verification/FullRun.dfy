/**
 * The whole programming run: default VRF, static groups, repair VRF, transit VRFs, encap and
 * decap VRFs, each pushed to the device in batches.
 */
module FullRun {
  import opened GoInts
  import opened IpUtil
  import opened Rib
  import opened Params
  import opened Integrity
  import opened DefaultVrfBuilder
  import opened StaticGroups
  import opened RepairBuilder
  import opened TransitBuilder
  import opened EncapDecapBuilder

  /** No builder indexes out of range, divides by zero or allocates a negative length. */
  predicate CountsSafe(p: ScaleParams) {
    && p.numDefaultIPv4 != 0
    && RepairCountsSafe(p)
    && TransitCountsSafe(p) && p.numTransitIPv4 != 0
    && EncapCountsSafe(p)
  }

  function PrimaryPrefixes(p: ScaleParams): (s: seq<nat>)
    ensures |s| == Ipv4Part(p) && s != []
  {
    Progression(DEFAULT_PREFIX_START, Ipv4Part(p), 1)
  }

  function BackupPrefixes(p: ScaleParams): (s: seq<nat>)
    ensures |s| == Ipv4Part(p) && s != []
  {
    Progression(BackupStart(p), Ipv4Part(p), 1)
  }

  function Primary(p: ScaleParams): Side {
    PrimarySide(p, PrimaryPrefixes(p), STATIC_S1_NHG)
  }

  function Backup(p: ScaleParams): Side {
    BackupSide(p, BackupPrefixes(p), STATIC_S2_NHG)
  }

  predicate AddressesFit(p: ScaleParams) {
    && DefaultAddressesFit(p)
    && RepairFits(p)
    && SideFits(p, Primary(p)) && SideFits(p, Backup(p))
    && EncapFits(p)
  }

  /** The run reaches the end: nothing panics and nothing is fatal. */
  ghost predicate Completes(p: ScaleParams) {
    ValidParams(p) && CountsSafe(p) && AddressesFit(p)
  }

  lemma CompletesFacts(p: ScaleParams)
    requires Completes(p)
    ensures p.numRepairNHG > 0 && p.numRepairIPv4 > 0 && p.numDefaultIPv4 > 0 && p.numTransitIPv4 > 0
    ensures SideSafe(Primary(p)) && SideSafe(Backup(p)) && Built(Primary(p))
    ensures p.numEncapIPv4PerVRF > 0 && p.numEncapIPv6PerVRF > 0 && p.numUniqueEncapNH >= 0
    ensures p.numDecapEntries >= 0 && 0 < p.numEncapVRFs <= p.numEncapDefaultNHG && p.numPort2VLANs > 0
  {
    SidesSafe(p, PrimaryPrefixes(p), BackupPrefixes(p), STATIC_S1_NHG, STATIC_S2_NHG);
  }

  ghost function TransitEntries(p: ScaleParams): seq<Entry>
    requires Completes(p)
  {
    CompletesFacts(p);
    SideEntries(p, Primary(p)) + SideEntries(p, Backup(p))
  }

  ghost function RepairStream(p: ScaleParams, multi: bool): seq<Entry>
    requires Completes(p)
  {
    CompletesFacts(p);
    RepairEntries(p, multi, STATIC_S2_NHG)
  }

  /** Everything a completed run pushes, in order. */
  ghost function Stream(p: ScaleParams, multi: bool): seq<Entry>
    requires Completes(p)
  {
    DefaultEntries(p) + STATIC_ENTRIES + RepairStream(p, multi) + TransitEntries(p) + EncapDecapEntries(p)
  }

  /** The device tables after a completed run. */
  ghost function ProgrammedTable(p: ScaleParams, multi: bool): Table
    requires Completes(p)
  {
    InstallAll(EMPTY, Stream(p, multi))
  }

  // The programmed tables in closed form: later builders shadow earlier ones.

  function SideNhOf(s: Side, id: nat): Option<NextHop>
    requires SideSafe(s)
  {
    if Built(s) then At(SideNextHops(s), s.baseNH, id) else None
  }

  ghost function SideNhgOf(p: ScaleParams, s: Side, id: nat): Option<Group>
    requires ValidParams(p) && SideSafe(s)
  {
    if Built(s) then At(SideGroups(p, s), s.baseNHG, id) else None
  }

  function SideRouteOf(p: ScaleParams, s: Side, vrf: Vrf, prefix: Prefix): Option<nat>
    requires SideSafe(s)
  {
    if Built(s) && vrf == s.vrf then HostAt(SideTargets(p, s), V4(s.prefixStart), prefix) else None
  }

  ghost function TableNh(p: ScaleParams, multi: bool, id: nat): Option<NextHop>
    requires Completes(p)
  {
    CompletesFacts(p);
    OrElse(At(DecapNextHops(p.numDecapEntries), NH_BASE_DECAP, id),
    OrElse(At([ToVrf(DefaultVrf)] + EncapNextHops(p), FALLBACK_NH, id),
    OrElse(SideNhOf(Backup(p), id),
    OrElse(SideNhOf(Primary(p), id),
    OrElse(At(Tunnels(FirstTunnel(p.numRepairNHG, multi, p.numRepairNHG)), NH_BASE_REPAIR, id),
    OrElse(StaticNhOf(id),
           At(PrimaryNextHops(p) + BackupNextHops(p), NH_BASE_DEFAULT, id)))))))
  }

  ghost function TableNhg(p: ScaleParams, multi: bool, id: nat): Option<Group>
    requires Completes(p)
  {
    CompletesFacts(p);
    OrElse(At(DecapGroups(p.numDecapEntries), NHG_BASE_DECAP, id),
    OrElse(At(AllEncapGroups(p), FALLBACK_NHG, id),
    OrElse(SideNhgOf(p, Backup(p), id),
    OrElse(SideNhgOf(p, Primary(p), id),
    OrElse(At(RepairGroups(p.numRepairNHG, multi, STATIC_S2_NHG, p.numRepairNHG), NHG_BASE_REPAIR, id),
    OrElse(StaticNhgOf(id),
           At(PrimaryGroups(p) + BackupGroups(p), NHG_BASE_DEFAULT, id)))))))
  }

  /** The group each prefix of each VRF points to. */
  ghost function TableRoute(p: ScaleParams, vrf: Vrf, prefix: Prefix): Option<nat>
    requires Completes(p)
  {
    CompletesFacts(p);
    match vrf
    case DefaultVrf => DefaultRouteOf(p, prefix)
    case TransitVrf111 => SideRouteOf(p, Primary(p), vrf, prefix)
    case TransitVrf222 => SideRouteOf(p, Backup(p), vrf, prefix)
    case RepairVrf => HostAt(RepairTargets(p), V4(TRANSIT_111_START), prefix)
    case EncapVrf(_) => EncapDecapRouteOf(p, vrf, prefix)
    case DecapVrf => EncapDecapRouteOf(p, vrf, prefix)
  }

  lemma TransitTables(p: ScaleParams, id: nat, vrf: Vrf, prefix: Prefix)
    requires Completes(p)
    ensures SideSafe(Primary(p)) && SideSafe(Backup(p))
    ensures LastNh(TransitEntries(p), id) == OrElse(SideNhOf(Backup(p), id), SideNhOf(Primary(p), id))
    ensures LastNhg(TransitEntries(p), id) == OrElse(SideNhgOf(p, Backup(p), id), SideNhgOf(p, Primary(p), id))
    ensures LastRoute(TransitEntries(p), vrf, prefix) ==
            OrElse(SideRouteOf(p, Backup(p), vrf, prefix), SideRouteOf(p, Primary(p), vrf, prefix))
  {
    hide ValidParams, CountsSafe, AddressesFit, LastNh, LastNhg, LastRoute, SideEntries, At, HostAt, SideNextHops,
         SideGroups, SideTargets, PrimarySide, BackupSide, Half;
    CompletesFacts(p);
    SideTables(p, Primary(p), id, vrf, prefix);
    SideTables(p, Backup(p), id, vrf, prefix);
    LastNhConcat(SideEntries(p, Primary(p)), SideEntries(p, Backup(p)), id);
    LastNhgConcat(SideEntries(p, Primary(p)), SideEntries(p, Backup(p)), id);
    LastRouteConcat(SideEntries(p, Primary(p)), SideEntries(p, Backup(p)), vrf, prefix);
  }

  /** Five streams in a row: the last one that has the key wins. */
  lemma LastOfFive(a: seq<Entry>, b: seq<Entry>, c: seq<Entry>, d: seq<Entry>, e: seq<Entry>,
                   id: nat, vrf: Vrf, prefix: Prefix)
    ensures LastNh(a + b + c + d + e, id) ==
            OrElse(LastNh(e, id), OrElse(LastNh(d, id), OrElse(LastNh(c, id), OrElse(LastNh(b, id), LastNh(a, id)))))
    ensures LastNhg(a + b + c + d + e, id) ==
            OrElse(LastNhg(e, id),
                   OrElse(LastNhg(d, id), OrElse(LastNhg(c, id), OrElse(LastNhg(b, id), LastNhg(a, id)))))
    ensures LastRoute(a + b + c + d + e, vrf, prefix) ==
            OrElse(LastRoute(e, vrf, prefix), OrElse(LastRoute(d, vrf, prefix),
            OrElse(LastRoute(c, vrf, prefix), OrElse(LastRoute(b, vrf, prefix), LastRoute(a, vrf, prefix)))))
  {
    hide LastNh, LastNhg, LastRoute;
    LastNhConcat(a, b, id);
    LastNhConcat(a + b, c, id);
    LastNhConcat(a + b + c, d, id);
    LastNhConcat(a + b + c + d, e, id);
    LastNhgConcat(a, b, id);
    LastNhgConcat(a + b, c, id);
    LastNhgConcat(a + b + c, d, id);
    LastNhgConcat(a + b + c + d, e, id);
    LastRouteConcat(a, b, vrf, prefix);
    LastRouteConcat(a + b, c, vrf, prefix);
    LastRouteConcat(a + b + c, d, vrf, prefix);
    LastRouteConcat(a + b + c + d, e, vrf, prefix);
  }

  lemma StreamTables(p: ScaleParams, multi: bool, id: nat, vrf: Vrf, prefix: Prefix)
    requires Completes(p)
    ensures LastNh(Stream(p, multi), id) == TableNh(p, multi, id)
    ensures LastNhg(Stream(p, multi), id) == TableNhg(p, multi, id)
    ensures LastRoute(Stream(p, multi), vrf, prefix) == TableRoute(p, vrf, prefix)
  {
    hide ValidParams, CountsSafe, AddressesFit, LastNh, LastNhg, LastRoute, At, HostAt, DefaultEntries,
         RepairEntries, TransitEntries, EncapDecapEntries, SideNhOf, SideNhgOf, EncapNextHops, AllEncapGroups,
         DecapNextHops, DecapGroups, EncapRouteOf, DecapRouteOf, StaticNhOf, StaticNhgOf, DefaultRouteOf,
         RepairTargets, FirstTunnel, Tunnels, RepairGroups, PrimaryNextHops, BackupNextHops, PrimaryGroups,
         BackupGroups, SideTargets;
    CompletesFacts(p);
    var a, c, d, e := DefaultEntries(p), RepairStream(p, multi), TransitEntries(p), EncapDecapEntries(p);
    LastOfFive(a, STATIC_ENTRIES, c, d, e, id, vrf, prefix);
    DefaultTables(p, id, vrf, prefix);
    StaticTables(id, vrf, prefix);
    RepairTables(p, multi, STATIC_S2_NHG, id, vrf, prefix);
    TransitTables(p, id, vrf, prefix);
    EncapDecapTables(p, id, vrf, prefix);
  }

  /** What the run leaves in the device tables, key by key. */
  lemma ProgrammedTableIs(p: ScaleParams, multi: bool, id: nat, vrf: Vrf, prefix: Prefix)
    requires Completes(p)
    ensures Get(ProgrammedTable(p, multi).nhs, id) == TableNh(p, multi, id)
    ensures Get(ProgrammedTable(p, multi).nhgs, id) == TableNhg(p, multi, id)
    ensures Get(ProgrammedTable(p, multi).routes, (vrf, prefix)) == TableRoute(p, vrf, prefix)
  {
    hide Completes, Stream, TableNh, TableNhg, TableRoute, LastNh, LastNhg, LastRoute, InstallAll;
    StreamTables(p, multi, id, vrf, prefix);
    InstalledIsLast(EMPTY, Stream(p, multi), id, vrf, prefix);
  }

  // Referential integrity over the whole run.

  /** The transit counts whose second VRF points its prefixes at groups that it never creates. */
  predicate DanglingCounts(p: ScaleParams) {
    p.numTransitNHG <= 0 && p.numTransitNH != 1
  }

  /** The last group id that those prefixes point at; the first is the one after the base. */
  function LastDangling(p: ScaleParams): int {
    NHG_BASE_TRANSIT + Min(p.numTransitIPv4, 1 - p.numTransitNHG)
  }

  /** All those ids are owned: by default groups, or by default and repair groups without a gap. */
  predicate DanglingOwned(p: ScaleParams) {
    var end := NHG_BASE_DEFAULT + 2 * NhgPart(p);
    || LastDangling(p) < end
    || (NHG_BASE_REPAIR <= end && LastDangling(p) < NHG_BASE_REPAIR + p.numRepairNHG)
  }

  /** Every group the transit prefixes point at exists. */
  predicate TransitResolves(p: ScaleParams) {
    DanglingCounts(p) ==> DanglingOwned(p)
  }

  lemma BackupSideShape(p: ScaleParams)
    ensures DanglingCounts(p) <==> Built(Backup(p)) && Backup(p).nhgCount < 0
    ensures DanglingCounts(p) ==> Backup(p).baseNHG == NHG_BASE_TRANSIT + 1
  {
  }

  lemma StaticsInstalled(a: seq<Entry>, c: seq<Entry>, d: seq<Entry>, id: nat)
    requires id == STATIC_S1_NHG || id == STATIC_S2_NHG
    ensures LastNhg(a + STATIC_ENTRIES, id).Some?
    ensures LastNhg(a + STATIC_ENTRIES + c, id).Some?
    ensures LastNhg(a + STATIC_ENTRIES + c + d, id).Some?
  {
    hide LastNhg;
    StaticTables(id, DefaultVrf, Prefix(V4(0), 0));
    LastNhgConcat(a, STATIC_ENTRIES, id);
    LastNhgConcat(a + STATIC_ENTRIES, c, id);
    LastNhgConcat(a + STATIC_ENTRIES + c, d, id);
  }

  lemma SidesAreSafe(p: ScaleParams)
    requires TransitCountsSafe(p)
    ensures SideSafe(Primary(p)) && SideSafe(Backup(p)) && Built(Primary(p)) && Primary(p).nhgCount > 0
  {
    SidesSafe(p, PrimaryPrefixes(p), BackupPrefixes(p), STATIC_S1_NHG, STATIC_S2_NHG);
  }

  /** Default, static and repair entries are always in dependency order. */
  lemma RepairStageGrounded(p: ScaleParams, multi: bool)
    requires ValidParams(p) && p.numRepairNHG > 0
    ensures Grounded([], DefaultEntries(p))
    ensures Grounded([], DefaultEntries(p) + STATIC_ENTRIES)
    ensures Grounded([], DefaultEntries(p) + STATIC_ENTRIES + RepairEntries(p, multi, STATIC_S2_NHG))
  {
    hide ValidParams, DefaultEntries, RepairEntries, Grounded, LastNhg;
    var a, c := DefaultEntries(p), RepairEntries(p, multi, STATIC_S2_NHG);
    DefaultGrounded(p);
    StaticGrounded(a);
    assert [] + a == a;
    GroundedConcat([], a, STATIC_ENTRIES);
    StaticsInstalled(a, c, [], STATIC_S2_NHG);
    RepairGrounded(a + STATIC_ENTRIES, p, multi, STATIC_S2_NHG);
    assert [] + (a + STATIC_ENTRIES) == a + STATIC_ENTRIES;
    GroundedConcat([], a + STATIC_ENTRIES, c);
  }

  /** And so is the first transit VRF. */
  lemma FrontGrounded(p: ScaleParams, multi: bool)
    requires ValidParams(p) && TransitCountsSafe(p) && p.numRepairNHG > 0
    ensures SideSafe(Primary(p))
    ensures Grounded([], DefaultEntries(p) + STATIC_ENTRIES + RepairEntries(p, multi, STATIC_S2_NHG)
                         + SideEntries(p, Primary(p)))
  {
    hide ValidParams, TransitCountsSafe, DefaultEntries, RepairEntries, SideEntries, Grounded, LastNhg, SideSafe,
         Half;
    SidesAreSafe(p);
    RepairStageGrounded(p, multi);
    var a, c, d := DefaultEntries(p), RepairEntries(p, multi, STATIC_S2_NHG), SideEntries(p, Primary(p));
    StaticsInstalled(a, c, d, STATIC_S1_NHG);
    SideGrounded(p, Primary(p), a + STATIC_ENTRIES + c);
    assert [] + (a + STATIC_ENTRIES + c) == a + STATIC_ENTRIES + c;
    GroundedConcat([], a + STATIC_ENTRIES + c, d);
  }

  /** Default and repair groups own the id. */
  predicate Owned(p: ScaleParams, id: nat) {
    id < NHG_BASE_DEFAULT + 2 * NhgPart(p) || NHG_BASE_REPAIR <= id < NHG_BASE_REPAIR + p.numRepairNHG
  }

  /** The groups known when the second transit VRF is built. */
  lemma FrontGroups(p: ScaleParams, multi: bool, id: nat)
    requires ValidParams(p) && TransitCountsSafe(p) && p.numRepairNHG > 0
    requires DanglingCounts(p) && id > NHG_BASE_TRANSIT
    ensures SideSafe(Primary(p))
    ensures var front := DefaultEntries(p) + STATIC_ENTRIES + RepairEntries(p, multi, STATIC_S2_NHG)
                         + SideEntries(p, Primary(p));
            LastNhg(front, id).Some? <==> Owned(p, id)
  {
    hide ValidParams, TransitCountsSafe, DefaultEntries, RepairEntries, SideEntries, LastNhg, LastNh, LastRoute,
         SideSafe, SideGroups, PrimaryGroups, BackupGroups, RepairGroups;
    SidesAreSafe(p);
    var any := Prefix(V4(0), 0);
    var a, c, d := DefaultEntries(p), RepairEntries(p, multi, STATIC_S2_NHG), SideEntries(p, Primary(p));
    LastNhgConcat(a + STATIC_ENTRIES + c, d, id);
    LastNhgConcat(a + STATIC_ENTRIES, c, id);
    LastNhgConcat(a, STATIC_ENTRIES, id);
    DefaultTables(p, id, DefaultVrf, any);
    StaticTables(id, DefaultVrf, any);
    RepairTables(p, multi, STATIC_S2_NHG, id, DefaultVrf, any);
    SideTables(p, Primary(p), id, DefaultVrf, any);
  }

  /** The prefixes of the second transit VRF cycle through the ids from the one after the base on. */
  lemma DanglingTarget(p: ScaleParams, i: nat)
    requires DanglingCounts(p)
    ensures Backup(p).nhgCount < 0
    ensures i < p.numTransitIPv4 ==> NHG_BASE_TRANSIT < TargetOf(Backup(p), i) <= LastDangling(p)
    ensures i < 1 - p.numTransitNHG ==> TargetOf(Backup(p), i) == NHG_BASE_TRANSIT + 1 + i
  {
    hide PrimaryPrefixes, BackupPrefixes;
    var c := 1 - p.numTransitNHG;
    assert Abs(Backup(p).nhgCount) == c && Backup(p).baseNHG == NHG_BASE_TRANSIT + 1;
    if i < c {
      ModSmall(i, c);
    }
  }

  lemma OwnedIff(p: ScaleParams)
    requires DanglingCounts(p) && p.numTransitIPv4 > 0 && p.numRepairNHG > 0
    ensures Backup(p).nhgCount < 0
    ensures (forall i :: 0 <= i < p.numTransitIPv4 ==> Owned(p, TargetOf(Backup(p), i))) <==> DanglingOwned(p)
  {
    hide PrimaryPrefixes, BackupPrefixes, Half, TargetOf;
    DanglingTarget(p, 0);
    var end := NHG_BASE_DEFAULT + 2 * NhgPart(p);
    if DanglingOwned(p) {
      forall i | 0 <= i < p.numTransitIPv4
        ensures Owned(p, TargetOf(Backup(p), i))
      {
        DanglingTarget(p, i);
      }
    } else {
      // the first id that nobody owns
      var id := if end <= NHG_BASE_TRANSIT + 1 then NHG_BASE_TRANSIT + 1
                else if end < NHG_BASE_REPAIR then end
                else Max(end, NHG_BASE_REPAIR + p.numRepairNHG);
      var i := id - NHG_BASE_TRANSIT - 1;
      DanglingTarget(p, i);
      assert !Owned(p, TargetOf(Backup(p), i));
    }
  }

  /** And so is the second transit VRF, exactly when the groups of its prefixes exist. */
  lemma BackupSideGroundedIff(p: ScaleParams, multi: bool)
    requires ValidParams(p) && TransitCountsSafe(p) && p.numRepairNHG > 0 && p.numTransitIPv4 > 0
    ensures SideSafe(Primary(p)) && SideSafe(Backup(p))
    ensures var front := DefaultEntries(p) + STATIC_ENTRIES + RepairEntries(p, multi, STATIC_S2_NHG)
                         + SideEntries(p, Primary(p));
            Grounded(front, SideEntries(p, Backup(p))) <==> TransitResolves(p)
  {
    hide ValidParams, TransitCountsSafe, DefaultEntries, RepairEntries, SideEntries, Grounded, LastNhg, SideSafe,
         DanglingCounts, DanglingOwned, TargetOf, Owned;
    SidesAreSafe(p);
    BackupSideShape(p);
    var front := DefaultEntries(p) + STATIC_ENTRIES + RepairEntries(p, multi, STATIC_S2_NHG)
                 + SideEntries(p, Primary(p));
    if DanglingCounts(p) {
      NegativeSideIff(p, Backup(p), front);
      OwnedIff(p);
      forall i | 0 <= i < p.numTransitIPv4
        ensures LastNhg(front, TargetOf(Backup(p), i)).Some? <==> Owned(p, TargetOf(Backup(p), i))
      {
        DanglingTarget(p, i);
        FrontGroups(p, multi, TargetOf(Backup(p), i));
      }
    } else {
      StaticsInstalled(DefaultEntries(p), RepairEntries(p, multi, STATIC_S2_NHG), SideEntries(p, Primary(p)),
                       STATIC_S2_NHG);
      SideGrounded(p, Backup(p), front);
    }
  }

  lemma StreamSplit(p: ScaleParams, multi: bool)
    requires Completes(p)
    ensures SideSafe(Primary(p)) && SideSafe(Backup(p))
    ensures Stream(p, multi) ==
            (DefaultEntries(p) + STATIC_ENTRIES + RepairStream(p, multi) + SideEntries(p, Primary(p)))
            + SideEntries(p, Backup(p)) + EncapDecapEntries(p)
  {
    hide ValidParams, CountsSafe, AddressesFit, DefaultEntries, RepairStream, SideEntries, EncapDecapEntries, SideSafe;
    CompletesFacts(p);
  }

  /**
   * Referential integrity, exactly: the tables are closed after every pushed entry if and only
   * if the run has a transit group to begin with, or no second transit VRF, or default and
   * repair groups that happen to own the ids its prefixes point at.
   */
  lemma IntegrityIff(p: ScaleParams, multi: bool)
    requires Completes(p)
    ensures ClosedThroughout(Stream(p, multi)) <==> TransitResolves(p)
  {
    hide ValidParams, TransitCountsSafe, AddressesFit, DefaultEntries, RepairEntries, SideEntries, Grounded,
         LastNhg, SideSafe, EncapDecapEntries, Stream, TransitResolves, ClosedThroughout;
    CompletesFacts(p);
    var front := DefaultEntries(p) + STATIC_ENTRIES + RepairStream(p, multi) + SideEntries(p, Primary(p));
    FrontGrounded(p, multi);
    BackupSideGroundedIff(p, multi);
    StreamSplit(p, multi);
    EncapDecapGrounded(front + SideEntries(p, Backup(p)), p);
    GroundedThree(front, SideEntries(p, Backup(p)), EncapDecapEntries(p));
    ClosedThroughoutIffGrounded(Stream(p, multi));
  }
}
