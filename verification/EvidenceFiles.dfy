/** Writing evidence files: guard both targets, write each through a temporary file that is
    renamed into place, read back and verify. A run can stop before any effect on the file
    system, by a crash or by an error. */
module EvidenceFiles {
  import opened Prelude
  import opened Evidence

  type Bytes = seq<bv8>

  datatype Name = Json | Markdown

  /** A final file of a run directory, or one of the temporary files beside it. */
  datatype Path = Target(dir: string, name: Name) | Temp(dir: string, name: Name, nonce: nat)

  type Files = map<Path, Bytes>

  /** Hashing and serialization live elsewhere; reading back may fail. */
  datatype Codec = Codec(
    hash: Payload -> string, dumps: Payload -> Bytes, markdown: Payload -> Bytes, loads: Bytes -> Option<Payload>)

  datatype Stop = Crash | Fault

  /** One call: it stops before effect number `effects`, if it gets that far. */
  datatype Run = Run(outputDir: string, payload: Payload, effects: nat, stop: Stop, jsonNonce: nat, markdownNonce: nat)

  datatype WriteError = Overwrite(path: Path) | Tampered | Stopped

  // ----- what a run writes -----

  function Short(digest: string): string { if |digest| <= 16 then digest else digest[..16] }

  function DirOf(codec: Codec, run: Run): string { run.outputDir + "/run_" + Short(Digest(codec.hash, run.payload)) }

  function TargetOf(codec: Codec, run: Run, name: Name): Path { Target(DirOf(codec, run), name) }

  function TempOf(codec: Codec, run: Run, name: Name): Path {
    Temp(DirOf(codec, run), name, if name.Json? then run.jsonNonce else run.markdownNonce)
  }

  function BlobOf(codec: Codec, run: Run, name: Name): Bytes {
    var attached := Attach(codec.hash, run.payload);
    if name.Json? then codec.dumps(attached) else codec.markdown(attached)
  }

  /** Holds other bytes than those about to be written. */
  predicate Conflicts(files: Files, path: Path, blob: Bytes) { path in files && files[path] != blob }

  predicate Refused(codec: Codec, files: Files, run: Run) {
    exists name :: Conflicts(files, TargetOf(codec, run, name), BlobOf(codec, run, name))
  }

  // ----- the file system after a run -----

  /** Effects of one write: create the temporary file, add each byte, rename. */
  function Cost(blob: Bytes): nat { |blob| + 2 }

  function Written(files: Files, target: Path, temp: Path, blob: Bytes, effects: nat, stop: Stop): Files {
    if effects >= Cost(blob) then files[target := blob]
    else if effects == 0 || stop.Fault? then files
    else files[temp := blob[..effects - 1]]
  }

  function CostOf(codec: Codec, files: Files, run: Run, name: Name): nat {
    if TargetOf(codec, run, name) in files then 0 else Cost(BlobOf(codec, run, name))
  }

  function FileWritten(codec: Codec, files: Files, run: Run, name: Name, effects: nat): Files {
    if TargetOf(codec, run, name) in files then files
    else
      var target, temp := TargetOf(codec, run, name), TempOf(codec, run, name);
      Written(files, target, temp, BlobOf(codec, run, name), effects, run.stop)
  }

  function After(codec: Codec, files: Files, run: Run): Files {
    if Refused(codec, files, run) then files
    else
      var json, cost := FileWritten(codec, files, run, Json, run.effects), CostOf(codec, files, run, Json);
      if run.effects < cost then json else FileWritten(codec, json, run, Markdown, run.effects - cost)
  }

  predicate Completes(codec: Codec, files: Files, run: Run) {
    run.effects >= CostOf(codec, files, run, Json) + CostOf(codec, files, run, Markdown)
  }

  predicate ReadsBack(codec: Codec, run: Run) {
    var loaded := codec.loads(BlobOf(codec, run, Json));
    loaded.Some? && Verifies(codec.hash, loaded.value)
  }

  /** Temporary names are new. */
  ghost predicate Usable(codec: Codec, files: Files, run: Run) {
    TempOf(codec, run, Json) !in files && TempOf(codec, run, Markdown) !in files
  }

  // ----- the file system -----

  class Store {
    var files: Files

    constructor (files: Files)
      ensures this.files == files
    {
      this.files := files;
    }

    method GuardExisting(path: Path, blob: Bytes) returns (r: Result<(), WriteError>)
      ensures r == if Conflicts(files, path, blob) then Err(Overwrite(path)) else Ok(())
    {
      if path !in files {
        return Ok(());
      }
      var existing := files[path];
      if existing == blob {
        return Ok(());
      }
      return Err(Overwrite(path));
    }

    method AtomicWrite(path: Path, blob: Bytes, temp: Path, effects: nat, stop: Stop) returns (left: nat, done: bool)
      requires temp != path && temp !in files
      modifies this
      ensures files == Written(old(files), path, temp, blob, effects, stop)
      ensures done <==> effects >= Cost(blob)
      ensures done ==> left == effects - Cost(blob)
    {
      left := effects;
      if left == 0 {
        return 0, false;
      }
      files := files[temp := []];
      left := left - 1;
      for i := 0 to |blob|
        invariant left == effects - 1 - i && files == old(files)[temp := blob[..i]]
      {
        if left == 0 {
          CleanUp(temp, stop);
          return 0, false;
        }
        files := files[temp := files[temp] + [blob[i]]];
        assert blob[..i + 1] == blob[..i] + [blob[i]];
        left := left - 1;
      }
      assert blob[..|blob|] == blob;
      if left == 0 {
        CleanUp(temp, stop);
        return 0, false;
      }
      files := (files - {temp})[path := files[temp]];
      return left - 1, true;
    }

    /** An error removes the temporary file; a crash leaves it behind. */
    method CleanUp(temp: Path, stop: Stop)
      modifies this
      ensures files == if stop.Fault? then old(files) - {temp} else old(files)
    {
      if stop.Fault? && temp in files {
        files := files - {temp};
      }
    }

    method WriteEvidenceFiles(codec: Codec, run: Run) returns (r: Result<string, WriteError>)
      requires Usable(codec, files, run)
      modifies this
      ensures files == After(codec, old(files), run)
      ensures r.Ok? <==> !Refused(codec, old(files), run) && Completes(codec, old(files), run) && ReadsBack(codec, run)
      ensures r.Ok? ==> r.value == Digest(codec.hash, run.payload)
      ensures r.Err? && r.error.Overwrite? <==> Refused(codec, old(files), run)
    {
      var attached := Attach(codec.hash, run.payload);
      AttachVerifiesAndIsIdempotent(codec.hash, run.payload);
      var jsonPath, markdownPath := TargetOf(codec, run, Json), TargetOf(codec, run, Markdown);
      var jsonBlob, markdownBlob := codec.dumps(attached), codec.markdown(attached);
      assert forall name: Name :: name.Json? || name.Markdown?;
      var guarded := GuardExisting(jsonPath, jsonBlob);
      if guarded.Err? {
        assert Conflicts(files, TargetOf(codec, run, Json), BlobOf(codec, run, Json));
        return Err(guarded.error);
      }
      guarded := GuardExisting(markdownPath, markdownBlob);
      if guarded.Err? {
        assert Conflicts(files, TargetOf(codec, run, Markdown), BlobOf(codec, run, Markdown));
        return Err(guarded.error);
      }
      assert !Refused(codec, files, run);
      var left, done := run.effects, true;
      if jsonPath !in files {
        left, done := AtomicWrite(jsonPath, jsonBlob, TempOf(codec, run, Json), left, run.stop);
        if !done {
          return Err(Stopped);
        }
      }
      if markdownPath !in files {
        left, done := AtomicWrite(markdownPath, markdownBlob, TempOf(codec, run, Markdown), left, run.stop);
        if !done {
          return Err(Stopped);
        }
      }
      assert files[jsonPath] == jsonBlob;
      var loaded := codec.loads(files[jsonPath]);
      if loaded.None? || !Verifies(codec.hash, loaded.value) {
        return Err(Tampered);
      }
      r := Ok(Digest(codec.hash, run.payload));
    }
  }
}
