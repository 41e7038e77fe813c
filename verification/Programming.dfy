/**
 * Pushing the entries: BatchModify cuts a builder's entries into batches, and RunFullScale
 * validates the parameters, builds and pushes builder by builder, and stops at the first error.
 */
module Programming {
  import opened Seqs
  import opened IpUtil
  import opened Rib
  import opened Params
  import opened Integrity
  import opened DefaultVrfBuilder
  import opened StaticGroups
  import opened RepairBuilder
  import opened TransitBuilder
  import opened EncapDecapBuilder
  import opened FullRun

  /** The device under test: its tables, and everything ever pushed to it. */
  class Device {
    var table: Table
    ghost var log: seq<Entry>

    ghost predicate Valid()
      reads this
    {
      table == InstallAll(EMPTY, log)
    }

    constructor ()
      ensures Valid() && log == []
    {
      table := EMPTY;
      log := [];
    }

    /** One modify request; entries take effect in order. */
    method AddEntries(entries: seq<Entry>)
      requires Valid()
      modifies this
      ensures Valid() && log == old(log) + entries
    {
      ghost var before := log;
      for i := 0 to |entries|
        invariant Valid() && log == before + entries[..i]
      {
        table := Install(table, entries[i]);
        log := log + [entries[i]];
        assert log[..|log| - 1] == before + entries[..i];
        assert before + entries[..i + 1] == before + entries[..i] + [entries[i]];
      }
      assert entries[..|entries|] == entries;
    }
  }

  /** Batches of size k: all full, except that the last may be shorter; none is empty. */
  ghost predicate BatchesOf(batches: seq<seq<Entry>>, entries: seq<Entry>, k: nat) {
    && Flatten(batches) == entries
    && (forall i :: 0 <= i < |batches| ==> 1 <= |batches[i]| <= k)
    && (forall i :: 0 <= i < |batches| - 1 ==> |batches[i]| == k)
  }

  function BatchSize(gribiBatchSize: int): nat {
    if gribiBatchSize <= 0 then DEFAULT_GRIBI_BATCH_SIZE else gribiBatchSize
  }

  lemma FlattenSnoc<T>(ss: seq<seq<T>>, s: seq<T>)
    ensures Flatten(ss + [s]) == Flatten(ss) + s
  {
    assert (ss + [s])[..|ss|] == ss;
  }

  /** BatchModify */
  method BatchModify(dev: Device, entries: seq<Entry>, gribiBatchSize: int) returns (batches: seq<seq<Entry>>)
    requires dev.Valid()
    modifies dev
    ensures dev.Valid() && dev.log == old(dev.log) + entries
    ensures BatchesOf(batches, entries, BatchSize(gribiBatchSize))
  {
    hide Flatten, InstallAll;
    var size := gribiBatchSize;
    if size <= 0 {
      size := DEFAULT_GRIBI_BATCH_SIZE;
    }
    batches := [];
    FlattenEmpty<Entry>();
    var i := 0;
    ghost var done := 0;
    while i < |entries|
      invariant 0 <= done <= |entries| && done == (if i < |entries| then i else |entries|)
      invariant dev.Valid() && dev.log == old(dev.log) + entries[..done]
      invariant Flatten(batches) == entries[..done]
      invariant forall k :: 0 <= k < |batches| ==> 1 <= |batches[k]| <= size
      invariant i < |entries| ==> forall k :: 0 <= k < |batches| ==> |batches[k]| == size
      invariant forall k :: 0 <= k < |batches| - 1 ==> |batches[k]| == size
    {
      var end := i + size;
      if end > |entries| {
        end := |entries|;
      }
      var batch := entries[i..end];
      dev.AddEntries(batch);
      FlattenSnoc(batches, batch);
      TakeJoin(old(dev.log), entries, i, end);
      batches := batches + [batch];
      i, done := i + size, end;
    }
    assert entries[..|entries|] == entries;
  }

  lemma TakeJoin<T>(log: seq<T>, s: seq<T>, i: nat, end: nat)
    requires i <= end <= |s|
    ensures s[..i] + s[i..end] == s[..end]
    ensures log + s[..i] + s[i..end] == log + s[..end]
  {
  }

  lemma FlattenEmpty<T>()
    ensures Flatten<T>([]) == []
  {
  }

  /** What a run on valid parameters has pushed when a builder stops it, by an address error or a panic. */
  ghost predicate PushedBy(p: ScaleParams, multi: bool, log: seq<Entry>)
    requires ValidParams(p)
  {
    || log == []
    || log == DefaultEntries(p)
    || log == DefaultEntries(p) + STATIC_ENTRIES
    || (p.numRepairNHG > 0
        && log == DefaultEntries(p) + STATIC_ENTRIES + RepairEntries(p, multi, STATIC_S2_NHG))
    || TransitPushed(p, multi, log)
  }

  /** The run has pushed the transit entries and stopped. */
  ghost predicate TransitPushed(p: ScaleParams, multi: bool, log: seq<Entry>)
    requires ValidParams(p)
  {
    && p.numRepairNHG > 0 && p.numTransitIPv4 > 0 && TransitCountsSafe(p)
    && SideSafe(Primary(p)) && SideSafe(Backup(p))
    && log == DefaultEntries(p) + STATIC_ENTRIES + RepairEntries(p, multi, STATIC_S2_NHG)
              + (SideEntries(p, Primary(p)) + SideEntries(p, Backup(p)))
  }

  lemma PushedStages(p: ScaleParams, multi: bool)
    requires ValidParams(p)
    ensures PushedBy(p, multi, []) && PushedBy(p, multi, DefaultEntries(p))
    ensures PushedBy(p, multi, DefaultEntries(p) + STATIC_ENTRIES)
    ensures p.numRepairNHG > 0 ==>
              PushedBy(p, multi, DefaultEntries(p) + STATIC_ENTRIES + RepairEntries(p, multi, STATIC_S2_NHG))
  {
    hide DefaultEntries, RepairEntries, TransitPushed;
  }

  /** The transit stage of a run whose transit addresses fit. */
  lemma TransitStage(p: ScaleParams, multi: bool)
    requires ValidParams(p) && TransitCountsSafe(p) && p.numTransitIPv4 != 0
    requires p.numRepairNHG > 0 && SideFits(p, Primary(p))
    ensures SideSafe(Primary(p)) && SideSafe(Backup(p))
    ensures PushedBy(p, multi, DefaultEntries(p) + STATIC_ENTRIES + RepairEntries(p, multi, STATIC_S2_NHG)
                               + (SideEntries(p, Primary(p)) + SideEntries(p, Backup(p))))
  {
    hide DefaultEntries, RepairEntries, SideEntries, ValidParams;
    SidesAreSafe(p);
  }

  lemma StreamStages(p: ScaleParams, multi: bool)
    requires Completes(p) && p.numRepairNHG > 0
    ensures SideSafe(Primary(p)) && SideSafe(Backup(p))
    ensures Stream(p, multi) ==
            DefaultEntries(p) + STATIC_ENTRIES + RepairEntries(p, multi, STATIC_S2_NHG)
            + (SideEntries(p, Primary(p)) + SideEntries(p, Backup(p))) + EncapDecapEntries(p)
    ensures ProgrammedTable(p, multi) == InstallAll(EMPTY, Stream(p, multi))
  {
    hide DefaultEntries, RepairEntries, SideEntries, EncapDecapEntries, ValidParams, AddressesFit;
    SidesAreSafe(p);
  }

  /**
   * The programming part of RunFullScaleTest, on a device without entries.  It succeeds exactly
   * on valid parameters whose counts make no builder panic and whose address plan fits, and then
   * the device holds the programmed table.  A builder whose counts are not safe indexes an empty
   * list, divides by zero or allocates a negative length, unless a fatal error comes first; it
   * pushes only at its end, so either way it has pushed nothing.
   */
  method RunFullScale(p: ScaleParams, multi: bool, dev: Device) returns (ok: bool)
    requires dev.Valid() && dev.log == []
    modifies dev
    ensures dev.Valid()
    ensures ok <==> Completes(p)
    ensures ok ==> dev.log == Stream(p, multi) && dev.table == ProgrammedTable(p, multi)
    ensures !ok && !ValidParams(p) ==> dev.log == []
    ensures !ok && ValidParams(p) ==> PushedBy(p, multi, dev.log)
  {
    hide DefaultEntries, RepairEntries, SideEntries, EncapDecapEntries, DefaultAddressesFit, RepairFits, SideFits,
         EncapFits, InstallAll, ValidParams, Progression, BatchesOf, SideSafe, PushedBy, TransitPushed, Stream,
         ProgrammedTable, RepairCountsSafe, TransitCountsSafe, EncapCountsSafe;
    var valid := ValidateScaleParams(p);
    if !valid {
      return false;
    }
    PushedStages(p, multi);
    if p.numDefaultIPv4 == 0 {
      return false;
    }
    var default := BuildDefaultVRF(p);
    if default.Fatal? {
      return false;
    }
    var (entries, primaryPrefixes, backupPrefixes) := default.value;
    var batches := BatchModify(dev, entries, p.gribiBatchSize);
    assert dev.log == DefaultEntries(p);

    var statics, s1NHG, s2NHG := BuildStaticGroups();
    batches := BatchModify(dev, statics, p.gribiBatchSize);
    assert dev.log == DefaultEntries(p) + STATIC_ENTRIES;

    if !RepairCountsSafe(p) {
      return false;
    }
    var repair := BuildRepairVRF(p, multi, s2NHG);
    if repair.Fatal? {
      return false;
    }
    batches := BatchModify(dev, repair.value, p.gribiBatchSize);

    if !TransitCountsSafe(p) || p.numTransitIPv4 == 0 {
      return false;
    }
    var transit := BuildTransitVRFs(p, primaryPrefixes, backupPrefixes, s1NHG, s2NHG);
    if transit.Fatal? {
      return false;
    }
    batches := BatchModify(dev, transit.value, p.gribiBatchSize);
    TransitStage(p, multi);

    if !EncapCountsSafe(p) {
      return false;
    }
    var encap := BuildEncapDecapVRFs(p);
    if encap.Fatal? {
      return false;
    }
    batches := BatchModify(dev, encap.value, p.gribiBatchSize);
    StreamStages(p, multi);
    ok := true;
  }

  /**
   * A run that stops early, by an address error or a panic, has kept the tables closed after every
   * entry it pushed, unless it has pushed transit prefixes whose groups do not exist.
   */
  lemma PushedClosedIff(p: ScaleParams, multi: bool, log: seq<Entry>)
    requires ValidParams(p) && PushedBy(p, multi, log)
    ensures ClosedThroughout(log) <==> TransitPushed(p, multi, log) ==> TransitResolves(p)
  {
    hide ClosedThroughout, DefaultEntries, RepairEntries, SideEntries, ValidParams, TransitCountsSafe, TransitResolves,
         Grounded, SideSafe;
    ClosedThroughoutIffGrounded(log);
    if TransitPushed(p, multi, log) {
      FrontGrounded(p, multi);
      BackupSideGroundedIff(p, multi);
      var front := DefaultEntries(p) + STATIC_ENTRIES + RepairEntries(p, multi, STATIC_S2_NHG);
      var a, b := SideEntries(p, Primary(p)), SideEntries(p, Backup(p));
      GroundedThree(front + a, b, []);
      EmptyGrounded(front + a + b);
      assert front + (a + b) == front + a + b + [];
    } else if log == [] {
      EmptyGrounded([]);
    } else if log == DefaultEntries(p) {
      DefaultGrounded(p);
    } else if log == DefaultEntries(p) + STATIC_ENTRIES {
      DefaultGrounded(p);
      StaticGrounded(DefaultEntries(p));
      GroundedThree(DefaultEntries(p), STATIC_ENTRIES, []);
      EmptyGrounded(DefaultEntries(p) + STATIC_ENTRIES);
      assert DefaultEntries(p) + STATIC_ENTRIES + [] == DefaultEntries(p) + STATIC_ENTRIES;
    } else {
      RepairStageGrounded(p, multi);
    }
  }
}
