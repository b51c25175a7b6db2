/** Any sequence of evidence runs by one writer, with crashes and errors anywhere. */
module EvidenceRuns {
  import opened Prelude
  import opened Evidence
  import opened EvidenceFiles

  function AfterAll(codec: Codec, files: Files, runs: seq<Run>): Files {
    if runs == [] then files else After(codec, AfterAll(codec, files, Front(runs)), Last(runs))
  }

  // ----- one run -----

  ghost predicate Writes(codec: Codec, run: Run, path: Path, blob: Bytes) {
    exists name :: path == TargetOf(codec, run, name) && blob == BlobOf(codec, run, name)
  }

  lemma OneFile(codec: Codec, files: Files, run: Run, name: Name, effects: nat, path: Path)
    requires path.Target?
    ensures var g := FileWritten(codec, files, run, name, effects);
            && (path in files ==> path in g && g[path] == files[path])
            && (path in g && path !in files ==>
                  path == TargetOf(codec, run, name) && g[path] == BlobOf(codec, run, name))
  {
  }

  /** A run leaves every final file alone and adds only whole files of its own. */
  lemma OneRun(codec: Codec, files: Files, run: Run, path: Path)
    requires path.Target?
    ensures var g := After(codec, files, run);
            && (path in files ==> path in g && g[path] == files[path])
            && (path in g && path !in files ==> Writes(codec, run, path, g[path]))
  {
    OneFile(codec, files, run, Json, run.effects, path);
    var json, cost := FileWritten(codec, files, run, Json, run.effects), CostOf(codec, files, run, Json);
    if run.effects >= cost {
      OneFile(codec, json, run, Markdown, run.effects - cost, path);
    }
  }

  // ----- all runs -----

  /** Once a final file exists its bytes never change, whatever runs follow and wherever
      they stop. */
  lemma {:induction false} FinalFilesNeverChange(codec: Codec, files: Files, runs: seq<Run>, path: Path)
    requires path.Target? && path in files
    ensures path in AfterAll(codec, files, runs) && AfterAll(codec, files, runs)[path] == files[path]
  {
    if runs != [] {
      FinalFilesNeverChange(codec, files, Front(runs), path);
      OneRun(codec, AfterAll(codec, files, Front(runs)), Last(runs), path);
    }
  }

  /** A final file that appears is the whole blob of one of the runs, never part of one. */
  lemma {:induction false} FinalFilesAreWhole(codec: Codec, files: Files, runs: seq<Run>, path: Path)
    requires path.Target? && path !in files && path in AfterAll(codec, files, runs)
    ensures exists i :: 0 <= i < |runs| && Writes(codec, runs[i], path, AfterAll(codec, files, runs)[path])
  {
    if runs != [] {
      var before := AfterAll(codec, files, Front(runs));
      OneRun(codec, before, Last(runs), path);
      if path in before {
        FinalFilesAreWhole(codec, files, Front(runs), path);
        var i :| 0 <= i < |runs| - 1 && Writes(codec, Front(runs)[i], path, before[path]);
        assert Writes(codec, runs[i], path, AfterAll(codec, files, runs)[path]);
      } else {
        assert Writes(codec, runs[|runs| - 1], path, AfterAll(codec, files, runs)[path]);
      }
    }
  }

  // ----- running the same evidence again -----

  /** Of these runs, those that land in the directory of a run write what it writes: they
      carry the same evidence, as far as the shortened digest can tell. */
  ghost predicate NoClash(codec: Codec, runs: seq<Run>, run: Run) {
    forall r | r in runs && DirOf(codec, r) == DirOf(codec, run) ::
      forall name :: BlobOf(codec, r, name) == BlobOf(codec, run, name)
  }

  lemma WrittenByNoClash(codec: Codec, runs: seq<Run>, run: Run, name: Name, blob: Bytes)
    requires NoClash(codec, runs, run)
    requires exists i :: 0 <= i < |runs| && Writes(codec, runs[i], TargetOf(codec, run, name), blob)
    ensures blob == BlobOf(codec, run, name)
  {
    var i :| 0 <= i < |runs| && Writes(codec, runs[i], TargetOf(codec, run, name), blob);
    assert runs[i] in runs;
  }

  /** Earlier runs, stopped anywhere, never get in the way unless they clash. */
  lemma NeverRefusedAgain(codec: Codec, files: Files, runs: seq<Run>, run: Run)
    requires !Refused(codec, files, run) && NoClash(codec, runs, run)
    ensures !Refused(codec, AfterAll(codec, files, runs), run)
  {
    forall name
      ensures !Conflicts(AfterAll(codec, files, runs), TargetOf(codec, run, name), BlobOf(codec, run, name))
    {
      var path, after := TargetOf(codec, run, name), AfterAll(codec, files, runs);
      assert !Conflicts(files, path, BlobOf(codec, run, name));
      if path in files {
        FinalFilesNeverChange(codec, files, runs, path);
      } else if path in after {
        FinalFilesAreWhole(codec, files, runs, path);
        WrittenByNoClash(codec, runs, run, name, after[path]);
      }
    }
  }

  ghost predicate Complete(codec: Codec, files: Files, run: Run) {
    forall name :: TargetOf(codec, run, name) in files && files[TargetOf(codec, run, name)] == BlobOf(codec, run, name)
  }

  lemma CompletingRun(codec: Codec, files: Files, run: Run)
    requires !Refused(codec, files, run) && Completes(codec, files, run)
    ensures Complete(codec, After(codec, files, run), run)
  {
    assert !Conflicts(files, TargetOf(codec, run, Json), BlobOf(codec, run, Json));
    assert !Conflicts(files, TargetOf(codec, run, Markdown), BlobOf(codec, run, Markdown));
    assert forall name: Name :: name.Json? || name.Markdown?;
  }

  /** After any runs of any evidence, crashed or not, a run that is let finish leaves both
      files whole, unless other evidence took its directory. */
  lemma RerunCompletes(codec: Codec, files: Files, runs: seq<Run>, run: Run)
    requires !Refused(codec, files, run) && NoClash(codec, runs, run)
    requires Completes(codec, AfterAll(codec, files, runs), run)
    ensures Complete(codec, After(codec, AfterAll(codec, files, runs), run), run)
  {
    NeverRefusedAgain(codec, files, runs, run);
    CompletingRun(codec, AfterAll(codec, files, runs), run);
  }

  lemma CompleteRunDoesNothing(codec: Codec, files: Files, run: Run)
    requires Complete(codec, files, run)
    ensures !Refused(codec, files, run) && Completes(codec, files, run) && After(codec, files, run) == files
  {
    assert TargetOf(codec, run, Json) in files && TargetOf(codec, run, Markdown) in files;
  }

  /** Once both files are in place they stay so through any runs of any evidence, and the
      same run at any later time is accepted, needs no effect and has none. */
  lemma FurtherRunsDoNothing(codec: Codec, files: Files, runs: seq<Run>, run: Run)
    requires Complete(codec, files, run)
    ensures var after := AfterAll(codec, files, runs);
            && Complete(codec, after, run) && !Refused(codec, after, run)
            && Completes(codec, after, run) && After(codec, after, run) == after
  {
    var after := AfterAll(codec, files, runs);
    forall name
      ensures TargetOf(codec, run, name) in after && after[TargetOf(codec, run, name)] == BlobOf(codec, run, name)
    {
      assert TargetOf(codec, run, name) in files;
      FinalFilesNeverChange(codec, files, runs, TargetOf(codec, run, name));
    }
    CompleteRunDoesNothing(codec, after, run);
  }

  /** Evidence that shares a directory with different finished evidence is refused: the
      directory name keeps only the first part of the digest. */
  lemma SharedDirectoryIsRefused(codec: Codec, files: Files, run: Run, other: Run)
    requires Complete(codec, files, run) && DirOf(codec, run) == DirOf(codec, other)
    ensures Refused(codec, files, other) <==> exists name :: BlobOf(codec, run, name) != BlobOf(codec, other, name)
    ensures After(codec, files, other) == files
  {
    forall name
      ensures TargetOf(codec, other, name) == TargetOf(codec, run, name)
      ensures Conflicts(files, TargetOf(codec, other, name), BlobOf(codec, other, name))
         <==> BlobOf(codec, run, name) != BlobOf(codec, other, name)
    {
    }
  }

  /** Once both files of a directory are in place no run into it, of whatever evidence and
      wherever stopped, changes any file, not even a temporary one. */
  lemma {:induction false} FinishedDirectoryIsFrozen(codec: Codec, files: Files, runs: seq<Run>, run: Run)
    requires Complete(codec, files, run)
    requires forall r | r in runs :: DirOf(codec, r) == DirOf(codec, run)
    ensures AfterAll(codec, files, runs) == files
  {
    if runs != [] {
      Split(runs);
      FinishedDirectoryIsFrozen(codec, files, Front(runs), run);
      SharedDirectoryIsRefused(codec, files, run, Last(runs));
    }
  }

  // ----- directories -----

  /** As much of a digest as names a directory. */
  ghost predicate SameStart(a: string, b: string) {
    if |a| <= 16 || |b| <= 16 then a[..if |a| < 16 then |a| else 16] == b[..if |b| < 16 then |b| else 16]
    else forall i | 0 <= i < 16 :: a[i] == b[i]
  }

  /** Two runs with one output directory share a run directory exactly when the digests of
      their payloads agree in the first sixteen characters. */
  lemma SharedDirectoryIff(codec: Codec, run: Run, other: Run)
    requires run.outputDir == other.outputDir
    ensures DirOf(codec, run) == DirOf(codec, other) <==>
              SameStart(Digest(codec.hash, run.payload), Digest(codec.hash, other.payload))
  {
    var a, b := Digest(codec.hash, run.payload), Digest(codec.hash, other.payload);
    var stem := run.outputDir + "/run_";
    if DirOf(codec, run) == DirOf(codec, other) {
      assert (stem + Short(a))[|stem|..] == Short(a) && (stem + Short(b))[|stem|..] == Short(b);
    }
    if SameStart(a, b) {
      assert Short(a) == Short(b);
    }
  }
}
