/**
 * The core-file validator: per device, each check reports the core files that the last
 * successful check did not see; all devices are checked at the same time, and a run fails when
 * the final check reports a file.
 */
module CoreFiles {
  datatype FileInfo = FileInfo(name: string, modified: nat)

  type Files = map<string, FileInfo>

  /** What a device answers to a check: an error, or its core files. */
  datatype Answer = Failed(error: string) | Found(files: Files)

  /** Files of now whose name before does not have. */
  function Delta(before: Files, now: Files): Files {
    map name | name in now && name !in before :: now[name]
  }

  // One device.

  class Checker {
    var prevCores: Files

    constructor ()
      ensures prevCores == map[]
    {
      prevCores := map[];
    }

    /** check, on what the device answered */
    method Check(cores: Answer) returns (delta: Answer)
      modifies this
      ensures cores.Failed? ==> delta == cores && prevCores == old(prevCores)
      ensures cores.Found? ==> delta == Found(Delta(old(prevCores), cores.files)) && prevCores == cores.files
    {
      if cores.Failed? {
        return cores;
      }
      var found: Files := map[];
      var todo := cores.files.Keys;
      while todo != {}
        invariant todo <= cores.files.Keys
        invariant found == map name | name in cores.files && name !in todo && name !in prevCores :: cores.files[name]
        invariant prevCores == old(prevCores)
        decreases |todo|
      {
        var k :| k in todo;
        if k !in prevCores {
          found := found[k := cores.files[k]];
        }
        todo := todo - {k};
      }
      assert found == Delta(prevCores, cores.files);
      prevCores := cores.files;
      delta := Found(found);
    }
  }

  /** What a device remembers after a run of checks. */
  function Remembered(start: Files, answers: seq<Answer>): Files {
    if answers == [] then start
    else if answers[|answers| - 1].Found? then answers[|answers| - 1].files
    else Remembered(start, answers[..|answers| - 1])
  }

  /** The successful answers of a run. */
  function Successes(answers: seq<Answer>): seq<Files> {
    if answers == [] then []
    else Successes(answers[..|answers| - 1])
         + if answers[|answers| - 1].Found? then [answers[|answers| - 1].files] else []
  }

  /** Failed checks change nothing: what is remembered is the last success. */
  lemma {:induction false} FailuresChangeNothing(start: Files, answers: seq<Answer>)
    ensures var s := Successes(answers);
            Remembered(start, answers) == if s == [] then start else s[|s| - 1]
  {
    if answers != [] {
      FailuresChangeNothing(start, answers[..|answers| - 1]);
    }
  }

  /** The names reported by the k-th successful check of a fresh device. */
  function Reported(s: seq<Files>, k: nat): set<string>
    requires k < |s|
  {
    Delta(if k == 0 then map[] else s[k - 1], s[k]).Keys
  }

  ghost predicate ReportedOnce(s: seq<Files>) {
    forall i, j :: 0 <= i < j < |s| ==> Reported(s, i) !! Reported(s, j)
  }

  /** No file that went away comes back. */
  ghost predicate NoReturn(s: seq<Files>) {
    forall i, m, j, name :: 0 <= i < m < j < |s| && name in s[i] && name in s[j] ==> name in s[m]
  }

  /** A file that is there was reported when it appeared. */
  lemma {:induction false} WasReported(s: seq<Files>, name: string, lo: int, hi: nat) returns (k: nat)
    requires -1 <= lo < hi < |s| && name in s[hi] && (lo >= 0 ==> name !in s[lo])
    ensures lo < k <= hi && name in Reported(s, k)
    decreases hi
  {
    if hi > 0 && name in s[hi - 1] {
      k := WasReported(s, name, lo, hi - 1);
    } else {
      k := hi;
    }
  }

  /** No file is reported twice, exactly when no file that went away comes back. */
  lemma ReportedOnceIff(s: seq<Files>)
    ensures ReportedOnce(s) <==> NoReturn(s)
  {
    if ReportedOnce(s) {
      forall i, m, j, name | 0 <= i < m < j < |s| && name in s[i] && name in s[j]
        ensures name in s[m]
      {
        if name !in s[m] {
          var a := WasReported(s, name, -1, i);
          var b := WasReported(s, name, m, j);
        }
      }
    }
    if NoReturn(s) {
      forall i, j | 0 <= i < j < |s|
        ensures Reported(s, i) !! Reported(s, j)
      {
        forall name | name in Reported(s, i)
          ensures name !in Reported(s, j)
        {
          if j - 1 > i && name in s[j] {
            assert name in s[j - 1];
          }
        }
      }
    }
  }

  function AllReported(s: seq<Files>, n: nat): set<string>
    requires n <= |s|
  {
    if n == 0 then {} else AllReported(s, n - 1) + Reported(s, n - 1)
  }

  ghost predicate NeverRemoved(s: seq<Files>) {
    forall k :: 0 <= k < |s| - 1 ==> s[k].Keys <= s[k + 1].Keys
  }

  /** While files are never removed, the reports are disjoint and together are the latest answer. */
  lemma {:induction false} ReportsAddUp(s: seq<Files>, n: nat)
    requires NeverRemoved(s) && n <= |s|
    ensures AllReported(s, n) == if n == 0 then {} else s[n - 1].Keys
    ensures n == |s| ==> ReportedOnce(s)
  {
    if n > 0 {
      ReportsAddUp(s, n - 1);
      if n > 1 {
        assert s[n - 2].Keys <= s[n - 1].Keys;
      }
    }
    if n == |s| {
      forall i, m, j, name | 0 <= i < m < j < |s| && name in s[i] && name in s[j]
        ensures name in s[m]
      {
        StaysThere(s, name, i, m);
      }
      ReportedOnceIff(s);
    }
  }

  lemma {:induction false} StaysThere(s: seq<Files>, name: string, i: nat, m: nat)
    requires NeverRemoved(s) && i <= m < |s| && name in s[i]
    ensures name in s[m]
    decreases m
  {
    if i < m {
      StaysThere(s, name, i, m - 1);
      assert s[m - 1].Keys <= s[m].Keys;
    }
  }

  // All devices at the same time.

  datatype Report = Report(dut: string, files: Files, status: string)

  /** A device: its name, what its checker remembers, and what it will answer. */
  datatype Dut = Dut(name: string, prev: Files, answer: Answer)

  function FailedStatus(name: string, error: string): string {
    "DUT \"" + name + "\" failed to check cores: " + error
  }

  function ReportOf(d: Dut): Report {
    match d.answer
    case Failed(error) => Report(d.name, map[], FailedStatus(d.name, error))
    case Found(now) => Report(d.name, Delta(d.prev, now), "OK")
  }

  lemma ReportName(d: Dut)
    ensures ReportOf(d).dut == d.name
  {
  }

  /** Devices of one name report the same exactly when both fail with the same error or both find the same new files. */
  lemma SameReportIff(d: Dut, e: Dut)
    requires d.name == e.name
    ensures ReportOf(d) == ReportOf(e) <==>
            || (d.answer.Failed? && e.answer.Failed? && d.answer.error == e.answer.error)
            || (d.answer.Found? && e.answer.Found? &&
                Delta(d.prev, d.answer.files) == Delta(e.prev, e.answer.files))
  {
    hide Delta;
    var front := "DUT \"" + d.name + "\" failed to check cores: ";
    if d.answer.Failed? {
      assert FailedStatus(d.name, d.answer.error)[0] == 'D';
      if e.answer.Failed? {
        assert (front + d.answer.error)[|front|..] == d.answer.error;
        assert (front + e.answer.error)[|front|..] == e.answer.error;
      }
    } else if e.answer.Failed? {
      assert FailedStatus(e.name, e.answer.error)[0] == 'D';
    }
  }

  /** One goroutine per device: it checks, then writes its report into the shared map under the lock. */
  datatype Phase = Idle | Checked(report: Report) | Done

  datatype FanOut = FanOut(phases: seq<Phase>, cores: map<string, Report>)

  function Initial(duts: seq<Dut>): FanOut {
    FanOut(seq(|duts|, i => Idle), map[])
  }

  /** Goroutine i takes its next step. */
  predicate Advances(duts: seq<Dut>, s: FanOut, i: nat, s': FanOut) {
    && i < |duts| == |s.phases|
    && match s.phases[i]
       case Idle => s' == s.(phases := s.phases[i := Checked(ReportOf(duts[i]))])
       case Checked(r) => s' == FanOut(s.phases[i := Done], s.cores[r.dut := r])
       case Done => false
  }

  ghost predicate IsRun(duts: seq<Dut>, run: seq<FanOut>, order: seq<nat>) {
    && |run| == |order| + 1 && run[0] == Initial(duts)
    && forall k :: 0 <= k < |order| ==> Advances(duts, run[k], order[k], run[k + 1])
  }

  predicate AllDone(s: FanOut) {
    forall i :: 0 <= i < |s.phases| ==> s.phases[i].Done?
  }

  /** Devices of the same name have the same report; with distinct names that is no demand. */
  ghost predicate NamesAgree(duts: seq<Dut>) {
    forall i, j :: 0 <= i < |duts| && 0 <= j < |duts| && duts[i].name == duts[j].name ==>
      ReportOf(duts[i]) == ReportOf(duts[j])
  }

  /** The map holds, under each name, what some device of that name that is done has reported. */
  ghost predicate Consistent(duts: seq<Dut>, s: FanOut) {
    && |s.phases| == |duts|
    && (forall i :: 0 <= i < |duts| ==> s.phases[i].Checked? ==> s.phases[i].report == ReportOf(duts[i]))
    && (forall i :: 0 <= i < |duts| ==> s.phases[i].Done? ==> duts[i].name in s.cores)
    && (forall name :: name in s.cores ==> exists i: nat :: WrittenBy(duts, s, name, i))
  }

  ghost predicate WrittenBy(duts: seq<Dut>, s: FanOut, name: string, i: nat)
    requires name in s.cores
  {
    i < |duts| == |s.phases| && s.phases[i].Done? && duts[i].name == name && s.cores[name] == ReportOf(duts[i])
  }

  lemma StepConsistent(duts: seq<Dut>, s: FanOut, i: nat, s': FanOut)
    requires Consistent(duts, s) && Advances(duts, s, i, s')
    ensures Consistent(duts, s')
  {
    hide ReportOf;
    ReportName(duts[i]);
    forall name | name in s'.cores
      ensures exists j: nat :: WrittenBy(duts, s', name, j)
    {
      if s.phases[i].Checked? && name == duts[i].name {
        assert WrittenBy(duts, s', name, i);
      } else {
        var j: nat :| WrittenBy(duts, s, name, j);
        assert WrittenBy(duts, s', name, j);
      }
    }
  }

  lemma {:induction false} RunConsistent(duts: seq<Dut>, run: seq<FanOut>, order: seq<nat>, k: nat)
    requires IsRun(duts, run, order) && k < |run|
    ensures Consistent(duts, run[k])
  {
    hide Consistent;
    if k == 0 {
      assert Consistent(duts, Initial(duts)) by { NothingDone(duts); }
    } else {
      RunConsistent(duts, run, order, k - 1);
      assert Advances(duts, run[k - 1], order[k - 1], run[k]);
      StepConsistent(duts, run[k - 1], order[k - 1], run[k]);
    }
  }

  lemma NothingDone(duts: seq<Dut>)
    ensures Consistent(duts, Initial(duts))
  {
  }

  /** The reports of all devices, each under its name. */
  function Collected(duts: seq<Dut>): map<string, Report> {
    if duts == [] then map[]
    else Collected(duts[..|duts| - 1])[duts[|duts| - 1].name := ReportOf(duts[|duts| - 1])]
  }

  lemma {:induction false} CollectedIs(duts: seq<Dut>)
    requires NamesAgree(duts)
    ensures forall i :: 0 <= i < |duts| ==>
              duts[i].name in Collected(duts) && Collected(duts)[duts[i].name] == ReportOf(duts[i])
    ensures forall name :: name in Collected(duts) ==> exists i :: 0 <= i < |duts| && duts[i].name == name
  {
    if duts != [] {
      var front := duts[..|duts| - 1];
      CollectedIs(front);
      assert forall i :: 0 <= i < |front| ==> front[i] == duts[i];
      assert duts[|front|].name in Collected(duts);
    }
  }

  /** Whatever the interleaving, once all goroutines are done the map holds every device's report. */
  lemma AnyOrderCollects(duts: seq<Dut>, run: seq<FanOut>, order: seq<nat>)
    requires NamesAgree(duts) && IsRun(duts, run, order)
    requires AllDone(run[|run| - 1])
    ensures run[|run| - 1].cores == Collected(duts)
  {
    var end := run[|run| - 1];
    RunConsistent(duts, run, order, |run| - 1);
    CollectedIs(duts);
    forall name | name in end.cores
      ensures name in Collected(duts) && end.cores[name] == Collected(duts)[name]
    {
      var i: nat :| WrittenBy(duts, end, name, i);
    }
    forall name | name in Collected(duts)
      ensures name in end.cores
    {
      var i :| 0 <= i < |duts| && duts[i].name == name;
      assert end.phases[i].Done?;
    }
  }

  // When the order shows.

  /** A run in which all goroutines finish. */
  ghost predicate Finishes(duts: seq<Dut>, run: seq<FanOut>, order: seq<nat>) {
    IsRun(duts, run, order) && AllDone(run[|run| - 1])
  }

  /** All interleavings end in the same map. */
  ghost predicate OrderIndependent(duts: seq<Dut>) {
    forall run: seq<FanOut>, order: seq<nat>, other: seq<FanOut>, order': seq<nat> ::
      Finishes(duts, run, order) && Finishes(duts, other, order') ==>
      run[|run| - 1].cores == other[|other| - 1].cores
  }

  lemma ExtendRun(duts: seq<Dut>, run: seq<FanOut>, order: seq<nat>, i: nat, s': FanOut)
    requires IsRun(duts, run, order) && Advances(duts, run[|run| - 1], i, s')
    ensures IsRun(duts, run + [s'], order + [i])
  {
    hide Advances;
    var run', order' := run + [s'], order + [i];
    forall k | 0 <= k < |order'|
      ensures Advances(duts, run'[k], order'[k], run'[k + 1])
    {
      if k < |order| {
        assert run'[k] == run[k] && run'[k + 1] == run[k + 1];
      }
    }
  }

  /** Goroutine i runs to its end. */
  lemma RunOne(duts: seq<Dut>, run: seq<FanOut>, order: seq<nat>, i: nat)
    returns (run': seq<FanOut>, order': seq<nat>)
    requires IsRun(duts, run, order) && i < |duts| == |run[|run| - 1].phases| && run[|run| - 1].phases[i].Idle?
    ensures IsRun(duts, run', order')
    ensures run'[|run'| - 1] ==
            FanOut(run[|run| - 1].phases[i := Done], run[|run| - 1].cores[duts[i].name := ReportOf(duts[i])])
  {
    hide ReportOf;
    ReportName(duts[i]);
    var s := run[|run| - 1];
    var r := ReportOf(duts[i]);
    var s1 := s.(phases := s.phases[i := Checked(r)]);
    var s2 := FanOut(s1.phases[i := Done], s.cores[duts[i].name := r]);
    ExtendRun(duts, run, order, i, s1);
    ExtendRun(duts, run + [s1], order + [i], i, s2);
    run', order' := run + [s1] + [s2], order + [i] + [i];
    assert s2.phases == s.phases[i := Done];
  }

  /** The first n goroutines but for the j-th are done, the others have not begun. */
  ghost predicate DoneUpTo(duts: seq<Dut>, s: FanOut, n: nat, j: nat) {
    && |s.phases| == |duts|
    && forall k :: 0 <= k < |duts| ==> s.phases[k] == if k < n && k != j then Done else Idle
  }

  lemma {:induction false} RunAllBut(duts: seq<Dut>, n: nat, j: nat) returns (run: seq<FanOut>, order: seq<nat>)
    requires n <= |duts|
    ensures IsRun(duts, run, order) && DoneUpTo(duts, run[|run| - 1], n, j)
    decreases n
  {
    hide ReportOf;
    if n == 0 {
      run, order := [Initial(duts)], [];
    } else {
      run, order := RunAllBut(duts, n - 1, j);
      if n - 1 != j {
        run, order := RunOne(duts, run, order, n - 1);
      }
    }
  }

  /** Any device can be the last to write, and then its report stands under its name. */
  lemma LastWriter(duts: seq<Dut>, j: nat) returns (run: seq<FanOut>, order: seq<nat>)
    requires j < |duts|
    ensures Finishes(duts, run, order)
    ensures var cores := run[|run| - 1].cores; duts[j].name in cores && cores[duts[j].name] == ReportOf(duts[j])
  {
    hide ReportOf, IsRun;
    run, order := RunAllBut(duts, |duts|, j);
    RunNonEmpty(duts, run, order);
    run, order := RunOne(duts, run, order, j);
    RunNonEmpty(duts, run, order);
  }

  lemma StartRun(duts: seq<Dut>)
    ensures IsRun(duts, [Initial(duts)], [])
  {
  }

  lemma RunNonEmpty(duts: seq<Dut>, run: seq<FanOut>, order: seq<nat>)
    requires IsRun(duts, run, order)
    ensures run != []
  {
  }

  /**
   * The collected map is the same for every interleaving of the goroutines, for any list of
   * devices, exactly when devices of the same name have the same report.
   */
  lemma OrderIndependentIff(duts: seq<Dut>)
    ensures OrderIndependent(duts) <==> NamesAgree(duts)
  {
    hide ReportOf, Advances, AllDone, Collected;
    if NamesAgree(duts) {
      forall run: seq<FanOut>, order: seq<nat>, other: seq<FanOut>, order': seq<nat>
        | Finishes(duts, run, order) && Finishes(duts, other, order')
        ensures run[|run| - 1].cores == other[|other| - 1].cores
      {
        AnyOrderCollects(duts, run, order);
        AnyOrderCollects(duts, other, order');
      }
    }
    if OrderIndependent(duts) {
      forall i, j | 0 <= i < |duts| && 0 <= j < |duts| && duts[i].name == duts[j].name
        ensures ReportOf(duts[i]) == ReportOf(duts[j])
      {
        var run, order := LastWriter(duts, i);
        var other, order' := LastWriter(duts, j);
      }
    }
  }

  // The verdict.

  /** registerAfter: fail when some device reports a file. */
  method Verdict(cores: map<string, Report>) returns (found: bool)
    ensures found <==> HoldsFile(cores)
  {
    var todo := cores.Keys;
    while todo != {}
      invariant todo <= cores.Keys
      invariant forall name :: name in cores && name !in todo ==> cores[name].files == map[]
      decreases |todo|
    {
      var k :| k in todo;
      if |cores[k].files| > 0 {
        return true;
      }
      todo := todo - {k};
    }
    found := false;
  }

  /** The verdict on a map. */
  ghost predicate HoldsFile(cores: map<string, Report>) {
    exists name :: name in cores && cores[name].files != map[]
  }

  /** A device's final answer holds a file that its last successful answer before did not. */
  predicate NewFile(d: Dut) {
    d.answer.Found? && d.answer.files.Keys - d.prev.Keys != {}
  }

  lemma ReportEmptyIff(d: Dut)
    ensures ReportOf(d).files != map[] <==> NewFile(d)
  {
    if NewFile(d) {
      var name :| name in d.answer.files.Keys - d.prev.Keys;
      assert name in ReportOf(d).files;
    }
    if ReportOf(d).files != map[] {
      assert ReportOf(d).files.Keys != {};
      var name :| name in ReportOf(d).files;
      assert name in d.answer.files.Keys - d.prev.Keys;
    }
  }

  ghost predicate AnyNewFile(duts: seq<Dut>) {
    exists i :: 0 <= i < |duts| && NewFile(duts[i])
  }

  /** Some device has a new file, and so have all devices of its name. */
  ghost predicate ShownByAll(duts: seq<Dut>, i: nat) {
    i < |duts| && forall j :: 0 <= j < |duts| && duts[j].name == duts[i].name ==> NewFile(duts[j])
  }

  lemma ShownHasFile(duts: seq<Dut>, i: nat)
    requires ShownByAll(duts, i)
    ensures AnyNewFile(duts)
  {
    assert NewFile(duts[i]);
  }

  /** Whatever the interleaving, the run fails exactly when some device has a new file. */
  ghost predicate VerdictRight(duts: seq<Dut>) {
    forall run: seq<FanOut>, order: seq<nat> ::
      Finishes(duts, run, order) ==> (HoldsFile(run[|run| - 1].cores) <==> AnyNewFile(duts))
  }

  lemma VerdictSound(duts: seq<Dut>, run: seq<FanOut>, order: seq<nat>)
    requires Finishes(duts, run, order)
    ensures HoldsFile(run[|run| - 1].cores) ==> AnyNewFile(duts)
    ensures (exists i: nat :: ShownByAll(duts, i)) ==> HoldsFile(run[|run| - 1].cores)
  {
    hide NewFile, ReportOf, Advances;
    var end := run[|run| - 1];
    RunConsistent(duts, run, order, |run| - 1);
    if HoldsFile(end.cores) {
      var name :| name in end.cores && end.cores[name].files != map[];
      var i: nat :| WrittenBy(duts, end, name, i);
      ReportEmptyIff(duts[i]);
    }
    if i: nat :| ShownByAll(duts, i) {
      assert end.phases[i].Done?;
      var j: nat :| WrittenBy(duts, end, duts[i].name, j);
      ReportEmptyIff(duts[j]);
    }
  }

  // The run that hides a file: devices with new files write first.

  /** Done are the devices with a new file and the first n of the others. */
  ghost predicate QuietUpTo(duts: seq<Dut>, s: FanOut, n: nat) {
    && |s.phases| == |duts|
    && forall k :: 0 <= k < |duts| ==> s.phases[k] == if k < n || NewFile(duts[k]) then Done else Idle
  }

  /** The first n devices without a new file have left no file under their names. */
  ghost predicate Silenced(duts: seq<Dut>, s: FanOut, n: nat)
    requires n <= |duts|
  {
    forall k :: 0 <= k < n && !NewFile(duts[k]) ==> duts[k].name in s.cores && s.cores[duts[k].name].files == map[]
  }

  /** Of the first n devices those with a new file are done, and nobody else has begun. */
  ghost predicate LoudUpTo(duts: seq<Dut>, s: FanOut, n: nat) {
    && |s.phases| == |duts|
    && forall k :: 0 <= k < |duts| ==> s.phases[k] == if k < n && NewFile(duts[k]) then Done else Idle
  }

  lemma {:induction false} RunLoud(duts: seq<Dut>, n: nat) returns (run: seq<FanOut>, order: seq<nat>)
    requires n <= |duts|
    ensures IsRun(duts, run, order) && LoudUpTo(duts, run[|run| - 1], n)
    decreases n
  {
    hide ReportOf, NewFile, IsRun;
    if n == 0 {
      run, order := [Initial(duts)], [];
      assert IsRun(duts, run, order) by { StartRun(duts); }
    } else {
      run, order := RunLoud(duts, n - 1);
      RunNonEmpty(duts, run, order);
      if NewFile(duts[n - 1]) {
        run, order := RunOne(duts, run, order, n - 1);
        RunNonEmpty(duts, run, order);
      }
    }
  }

  lemma QuietStep(duts: seq<Dut>, s: FanOut, n: nat)
    requires n < |duts| && QuietUpTo(duts, s, n) && Silenced(duts, s, n) && !NewFile(duts[n])
    ensures var s' := FanOut(s.phases[n := Done], s.cores[duts[n].name := ReportOf(duts[n])]);
            QuietUpTo(duts, s', n + 1) && Silenced(duts, s', n + 1)
  {
    hide ReportOf, NewFile;
    ReportEmptyIff(duts[n]);
  }

  lemma {:induction false} RunQuiet(duts: seq<Dut>, n: nat) returns (run: seq<FanOut>, order: seq<nat>)
    requires n <= |duts|
    ensures IsRun(duts, run, order)
    ensures QuietUpTo(duts, run[|run| - 1], n) && Silenced(duts, run[|run| - 1], n)
    decreases n
  {
    hide ReportOf, NewFile, IsRun;
    if n == 0 {
      run, order := RunLoud(duts, |duts|);
      RunNonEmpty(duts, run, order);
    } else {
      run, order := RunQuiet(duts, n - 1);
      RunNonEmpty(duts, run, order);
      if !NewFile(duts[n - 1]) {
        QuietStep(duts, run[|run| - 1], n - 1);
        run, order := RunOne(duts, run, order, n - 1);
        RunNonEmpty(duts, run, order);
      }
    }
  }

  lemma SilencedName(duts: seq<Dut>, s: FanOut, name: string)
    requires Consistent(duts, s) && Silenced(duts, s, |duts|) && name in s.cores
    requires forall i: nat :: !ShownByAll(duts, i)
    ensures s.cores[name].files == map[]
  {
    hide ReportOf, NewFile;
    var i: nat :| WrittenBy(duts, s, name, i);
    assert !ShownByAll(duts, i);
    var j :| 0 <= j < |duts| && duts[j].name == duts[i].name && !NewFile(duts[j]);
  }

  /** If every name has a device without a new file, an interleaving ends without any. */
  lemma HiddenFile(duts: seq<Dut>) returns (run: seq<FanOut>, order: seq<nat>)
    requires forall i: nat :: !ShownByAll(duts, i)
    ensures Finishes(duts, run, order) && !HoldsFile(run[|run| - 1].cores)
  {
    hide ReportOf, NewFile, IsRun, Consistent, Silenced, ShownByAll;
    run, order := RunQuiet(duts, |duts|);
    RunNonEmpty(duts, run, order);
    var end := run[|run| - 1];
    RunConsistent(duts, run, order, |run| - 1);
    forall name | name in end.cores
      ensures end.cores[name].files == map[]
    {
      SilencedName(duts, end, name);
    }
  }

  /**
   * The verdict is right under every interleaving, exactly when the new files, if there are
   * any, show on all devices of some name.  With distinct names that is no demand.
   */
  lemma VerdictIff(duts: seq<Dut>)
    ensures VerdictRight(duts) <==> AnyNewFile(duts) ==> exists i: nat :: ShownByAll(duts, i)
  {
    hide ShownByAll, Advances, AllDone, HoldsFile, NewFile;
    forall run: seq<FanOut>, order: seq<nat> | Finishes(duts, run, order)
      ensures HoldsFile(run[|run| - 1].cores) ==> AnyNewFile(duts)
      ensures (exists i: nat :: ShownByAll(duts, i)) ==> HoldsFile(run[|run| - 1].cores)
    {
      VerdictSound(duts, run, order);
    }
    if i: nat :| ShownByAll(duts, i) {
      ShownHasFile(duts, i);
    } else if AnyNewFile(duts) {
      var run, order := HiddenFile(duts);
    }
  }

  // From start to stop.

  /** A device over a run of the validator: what it answers to the first and to the last check. */
  datatype Session = Session(name: string, atStart: Answer, atEnd: Answer)

  function AtStop(sessions: seq<Session>): (duts: seq<Dut>)
    ensures |duts| == |sessions|
  {
    seq(|sessions|, i requires 0 <= i < |sessions| =>
      Dut(sessions[i].name, Remembered(map[], [sessions[i].atStart]), sessions[i].atEnd))
  }

  /** The end holds a file the start did not; a failed first check counts as having seen none. */
  predicate CoreAppeared(s: Session) {
    && s.atEnd.Found?
    && (s.atStart.Failed? ==> s.atEnd.files.Keys != {})
    && (s.atStart.Found? ==> s.atEnd.files.Keys - s.atStart.files.Keys != {})
  }

  /** A core file appeared on every device of the name of device i. */
  ghost predicate AppearedOnAll(sessions: seq<Session>, i: nat) {
    && i < |sessions|
    && forall j :: 0 <= j < |sessions| && sessions[j].name == sessions[i].name ==> CoreAppeared(sessions[j])
  }

  lemma AppearedIff(sessions: seq<Session>, i: nat)
    requires i < |sessions|
    ensures NewFile(AtStop(sessions)[i]) <==> CoreAppeared(sessions[i])
  {
    FailuresChangeNothing(map[], [sessions[i].atStart]);
    assert [sessions[i].atStart][..0] == [];
    if sessions[i].atStart.Failed? && sessions[i].atEnd.Found? {
      assert sessions[i].atEnd.files.Keys - {} == sessions[i].atEnd.files.Keys;
    }
  }

  /**
   * Under every interleaving of the final check the validator fails a run exactly when a core
   * file appeared on some device between start and stop, if and only if one that appeared did
   * so on all devices of some name.
   */
  lemma SessionVerdictIff(sessions: seq<Session>)
    ensures var duts := AtStop(sessions);
            (forall run: seq<FanOut>, order: seq<nat> :: Finishes(duts, run, order) ==>
               (HoldsFile(run[|run| - 1].cores) <==> exists i :: 0 <= i < |sessions| && CoreAppeared(sessions[i]))) <==>
            ((exists i :: 0 <= i < |sessions| && CoreAppeared(sessions[i])) ==>
             exists i: nat :: AppearedOnAll(sessions, i))
  {
    hide NewFile, CoreAppeared, Advances, AllDone, HoldsFile;
    var duts := AtStop(sessions);
    VerdictIff(duts);
    forall i | 0 <= i < |sessions|
      ensures NewFile(duts[i]) <==> CoreAppeared(sessions[i])
    {
      AppearedIff(sessions, i);
    }
    assert AnyNewFile(duts) <==> exists i :: 0 <= i < |sessions| && CoreAppeared(sessions[i]);
    forall i: nat
      ensures ShownByAll(duts, i) <==> AppearedOnAll(sessions, i)
    {
    }
  }
}
