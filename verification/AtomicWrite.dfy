/**
  * Replacing the config file: a temporary file that is renamed over it, against writing in place.
  * Writers are serialised; a writer can fail or die between any two steps.
  */
module AtomicWrite {
  import opened Prelude

  /** A file as far as it got: the version being written and how many of its parts are there. */
  datatype File = File(version: nat, parts: nat, size: nat) {
    predicate Complete() {
      parts == size
    }
  }

  datatype Writer =
    | Idle
    | Temp(version: nat, size: nat)     // writing the temporary file
    | InPlace(version: nat, size: nat)  // writing the config file itself

  /** The two files, the writer, the versions that became active so far, and what readers saw. */
  datatype Disk = Disk(
    target: Option<File>, temp: Option<File>, writer: Writer, nextVersion: nat,
    committed: seq<nat>, seen: seq<Option<File>>)

  /** No config file yet, no writer, nothing read. */
  const EMPTY := Disk(None, None, Idle, 0, [], [])

  datatype Step =
    | BeginTemp(size: nat)     // open the temporary file, truncating what is left in it
    | BeginInPlace(size: nat)  // open the config file itself, truncating it
    | WritePart                // one more part reaches the open file
    | Rename                   // the finished temporary file replaces the config file
    | FinishInPlace
    | Abort                    // a write error or a crash: the writer is gone, the files stay
    | Read

  /** A step that the current writer can take. */
  predicate Enabled(d: Disk, s: Step) {
    match s
    case BeginTemp(_) => d.writer.Idle?
    case BeginInPlace(_) => d.writer.Idle?
    case WritePart =>
      || (d.writer.Temp? && d.temp.Some? && d.temp.value.parts < d.temp.value.size)
      || (d.writer.InPlace? && d.target.Some? && d.target.value.parts < d.target.value.size)
    case Rename => d.writer.Temp? && d.temp.Some? && d.temp.value.Complete()
    case FinishInPlace => d.writer.InPlace? && d.target.Some? && d.target.value.Complete()
    case Abort => true
    case Read => true
  }

  function Do(d: Disk, s: Step): Disk
    requires Enabled(d, s)
  {
    match s
    case BeginTemp(size) =>
      d.(temp := Some(File(d.nextVersion, 0, size)), writer := Temp(d.nextVersion, size),
         nextVersion := d.nextVersion + 1)
    case BeginInPlace(size) =>
      d.(target := Some(File(d.nextVersion, 0, size)), writer := InPlace(d.nextVersion, size),
         nextVersion := d.nextVersion + 1)
    case WritePart =>
      if d.writer.Temp? then d.(temp := Some(d.temp.value.(parts := d.temp.value.parts + 1)))
      else d.(target := Some(d.target.value.(parts := d.target.value.parts + 1)))
    case Rename => d.(target := d.temp, temp := None, writer := Idle, committed := d.committed + [d.writer.version])
    case FinishInPlace => d.(writer := Idle, committed := d.committed + [d.writer.version])
    case Abort => d.(writer := Idle)
    case Read => d.(seen := d.seen + [d.target])
  }

  ghost predicate PossibleRun(steps: seq<Step>)
    decreases |steps|, 0
  {
    steps == [] || (PossibleRun(steps[..|steps| - 1]) && Enabled(After(steps[..|steps| - 1]), steps[|steps| - 1]))
  }

  ghost function After(steps: seq<Step>): Disk
    requires PossibleRun(steps)
    decreases |steps|, 1
  {
    if steps == [] then EMPTY else Do(After(steps[..|steps| - 1]), steps[|steps| - 1])
  }

  // ----- The config store's own protocol: temporary file and rename -----

  /** Only the temporary file is ever opened for writing. */
  ghost predicate ThroughTemp(steps: seq<Step>) {
    forall s :: s in steps ==> !s.BeginInPlace?
  }

  /** The active file is the last committed version, complete. */
  ghost predicate TargetIsCommitted(d: Disk) {
    match d.target
    case None => d.committed == []
    case Some(f) => f.Complete() && d.committed != [] && f.version == d.committed[|d.committed| - 1]
  }

  /** What was read: complete committed versions, never an older one after a newer one. */
  ghost predicate ReadsInOrder(d: Disk) {
    && (forall i :: 0 <= i < |d.seen| && d.seen[i].Some? ==>
          d.seen[i].value.Complete() && d.seen[i].value.version in d.committed)
    && (forall i, j :: 0 <= i < j < |d.seen| && d.seen[i].Some? ==>
          d.seen[j].Some? && d.seen[i].value.version <= d.seen[j].value.version)
  }

  ghost predicate Safe(d: Disk) {
    && !d.writer.InPlace?
    && TargetIsCommitted(d) && ReadsInOrder(d)
    && (forall i, j :: 0 <= i < j < |d.committed| ==> d.committed[i] < d.committed[j])
    && (forall v :: v in d.committed ==> v < d.nextVersion)
    && (d.writer.Temp? ==> d.temp.Some? && d.temp.value.version == d.writer.version && d.writer.version < d.nextVersion
                           && forall v :: v in d.committed ==> v < d.writer.version)
    && (d.target.Some? ==> forall i :: 0 <= i < |d.seen| && d.seen[i].Some? ==>
                             d.seen[i].value.version <= d.target.value.version)
    && (d.target.None? ==> forall i :: 0 <= i < |d.seen| ==> d.seen[i].None?)
  }

  lemma StepSafe(d: Disk, s: Step)
    requires Safe(d) && Enabled(d, s) && !s.BeginInPlace?
    ensures Safe(Do(d, s))
  {
    if s.Rename? {
      RenameSafe(d);
    }
  }

  lemma RenameSafe(d: Disk)
    requires Safe(d) && Enabled(d, Rename)
    ensures Safe(Do(d, Rename))
  {
    var next := Do(d, Rename);
    assert forall v :: v in next.committed <==> v in d.committed || v == d.writer.version;
    if d.target.Some? {
      assert d.committed[|d.committed| - 1] in d.committed;
    }
  }

  /**
    * After any prefix of steps, with crashes, partial temporary files and retries anywhere: the active
    * file is the last committed version, complete, and readers saw complete versions in commit order.
    */
  lemma {:induction false} AtomicReplacement(steps: seq<Step>)
    requires PossibleRun(steps) && ThroughTemp(steps)
    ensures TargetIsCommitted(After(steps)) && ReadsInOrder(After(steps)) && Safe(After(steps))
  {
    if steps != [] {
      var n := |steps| - 1;
      assert forall s :: s in steps[..n] ==> s in steps;
      AtomicReplacement(steps[..n]);
      assert steps[n] in steps;
      StepSafe(After(steps[..n]), steps[n]);
    }
  }

  // ----- Retries -----

  /** The disk after `n` more parts were written to the temporary file. */
  function PartsWritten(d: Disk, n: nat): Disk
    requires d.temp.Some?
  {
    d.(temp := Some(d.temp.value.(parts := d.temp.value.parts + n)))
  }

  /** The run of `n` write steps. */
  function Writes(n: nat): seq<Step> {
    if n == 0 then [] else Writes(n - 1) + [WritePart]
  }

  /** One more part of several. */
  lemma OneWrite(d: Disk, n: nat)
    requires d.writer.Temp? && d.temp.Some? && n > 0 && d.temp.value.parts + n <= d.temp.value.size
    ensures Enabled(PartsWritten(d, n - 1), WritePart) && Do(PartsWritten(d, n - 1), WritePart) == PartsWritten(d, n)
  {}

  lemma {:induction false} WritesGo(steps: seq<Step>, d: Disk, n: nat) returns (run: seq<Step>)
    requires PossibleRun(steps) && After(steps) == d && d.writer.Temp? && d.temp.Some?
    requires d.temp.value.parts + n <= d.temp.value.size
    ensures run == steps + Writes(n) && PossibleRun(run) && After(run) == PartsWritten(d, n)
  {
    if n == 0 {
      run := steps;
    } else {
      var before := WritesGo(steps, d, n - 1);
      OneWrite(d, n);
      OneMore(before, WritePart);
      run := before + [WritePart];
    }
  }

  lemma OneMore(steps: seq<Step>, s: Step)
    requires PossibleRun(steps) && Enabled(After(steps), s)
    ensures PossibleRun(steps + [s]) && After(steps + [s]) == Do(After(steps), s)
  {
    assert (steps + [s])[..|steps|] == steps;
  }

  /**
    * Progress: whatever happened before, also when the last writer died half way, the next write through a
    * temporary file succeeds. It makes its own version active, complete, and leaves no temporary file.
    */
  lemma RetryCommits(steps: seq<Step>, size: nat)
    requires PossibleRun(steps)
    ensures var retry := steps + [Abort] + [BeginTemp(size)] + Writes(size) + [Rename];
            && PossibleRun(retry)
            && After(retry).target == Some(File(After(steps).nextVersion, size, size))
            && After(retry).committed == After(steps).committed + [After(steps).nextVersion]
            && After(retry).temp.None? && After(retry).writer.Idle? && After(retry).seen == After(steps).seen
  {
    var s1 := steps + [Abort];
    var s2 := s1 + [BeginTemp(size)];
    OneMore(steps, Abort);
    OneMore(s1, BeginTemp(size));
    var s3 := WritesGo(s2, After(s2), size);
    OneMore(s3, Rename);
  }

  // ----- Writers that bypass the store -----

  /**
    * The config file is torn: it was opened for writing in place, and since then neither finished nor
    * replaced.
    */
  function Torn(steps: seq<Step>): bool {
    if steps == [] then false
    else
      match steps[|steps| - 1]
      case BeginInPlace(_) => true
      case FinishInPlace => false
      case Rename => false
      case _ => Torn(steps[..|steps| - 1])
  }

  /** The number of parts that a torn file still lacks at most, and what else every run keeps. */
  ghost predicate Accounted(d: Disk, torn: bool) {
    && (!torn ==> TargetIsCommitted(d))
    && (torn ==> d.target.Some? && d.target.value.version !in d.committed)
    && (d.writer.InPlace? ==> torn && d.target.Some? && d.target.value.version == d.writer.version)
    && (d.writer.Temp? ==> d.temp.Some? && d.temp.value.version == d.writer.version && d.writer.version < d.nextVersion)
    && (forall v :: v in d.committed ==> v < d.nextVersion)
    && (d.target.Some? ==> d.target.value.version < d.nextVersion)
  }

  lemma StepAccounted(d: Disk, torn: bool, s: Step)
    requires Accounted(d, torn) && Enabled(d, s)
    ensures Accounted(Do(d, s), if s.BeginInPlace? then true else if s.FinishInPlace? || s.Rename? then false else torn)
  {
    var next := Do(d, s);
    if s.Rename? || s.FinishInPlace? {
      assert forall v :: v in next.committed <==> v in d.committed || v == d.writer.version;
    }
  }

  lemma {:induction false} RunAccounted(steps: seq<Step>)
    requires PossibleRun(steps)
    ensures Accounted(After(steps), Torn(steps))
  {
    if steps != [] {
      var n := |steps| - 1;
      RunAccounted(steps[..n]);
      StepAccounted(After(steps[..n]), Torn(steps[..n]), steps[n]);
    }
  }

  /**
    * With writers that open config.yaml itself the active file is the last committed version exactly
    * when the last in-place write, if any, was finished or was followed by a rename.
    */
  lemma CommittedUnlessTorn(steps: seq<Step>)
    requires PossibleRun(steps)
    ensures TargetIsCommitted(After(steps)) <==> !Torn(steps)
  {
    RunAccounted(steps);
    var d := After(steps);
    if Torn(steps) && d.committed != [] {
      assert d.committed[|d.committed| - 1] in d.committed;
    }
  }

  /** A mode change that dies half way leaves an incomplete active file, and a reader sees it. */
  lemma SampleTornWrite()
    ensures var steps := [BeginTemp(1), WritePart, Rename, BeginInPlace(2), WritePart, Abort, Read];
            && PossibleRun(steps)
            && After(steps).target == Some(File(1, 1, 2)) && After(steps).seen == [Some(File(1, 1, 2))]
  {
    var s1: seq<Step> := [BeginTemp(1)];
    var s2 := s1 + [WritePart];
    var s3 := s2 + [Rename];
    var s4 := s3 + [BeginInPlace(2)];
    var s5 := s4 + [WritePart];
    var s6 := s5 + [Abort];
    var s7 := s6 + [Read];
    assert s1[..0] == [] && s2[..1] == s1 && s3[..2] == s2 && s4[..3] == s3;
    assert s5[..4] == s4 && s6[..5] == s5 && s7[..6] == s6;
    assert PossibleRun([]);
    assert PossibleRun(s1) && After(s1).temp == Some(File(0, 0, 1));
    assert PossibleRun(s2) && After(s2).temp == Some(File(0, 1, 1));
    assert PossibleRun(s3) && After(s3).target == Some(File(0, 1, 1));
    assert PossibleRun(s4) && After(s4).target == Some(File(1, 0, 2));
    assert PossibleRun(s5) && After(s5).target == Some(File(1, 1, 2));
    assert PossibleRun(s6);
    assert s7 == [BeginTemp(1), WritePart, Rename, BeginInPlace(2), WritePart, Abort, Read];
  }
}
