/** The files kept per run (infrastructure/files.py): the result projection, which repeats
    the record, and the private inputs, which finalization removes. */
module Artifacts {
  import opened Prelude
  import opened Domain

  datatype PrivateFile = RawResultFile | InputsFile | JobFile

  /** The order in which `scrub_inputs` removes them. */
  const SCRUB_ORDER := [RawResultFile, InputsFile, JobFile]

  datatype Files = Files(result: Option<Run>, private: set<PrivateFile>)

  function FilesIn(files: map<RunId, Files>, id: RunId): Files {
    if id in files then files[id] else Files(None, {})
  }

  function Saved(files: map<RunId, Files>, run: Run): map<RunId, Files> {
    files[run.runId := FilesIn(files, run.runId).(result := Some(run))]
  }

  function Without(files: map<RunId, Files>, id: RunId, gone: set<PrivateFile>): map<RunId, Files> {
    files[id := FilesIn(files, id).(private := FilesIn(files, id).private - gone)]
  }

  lemma AllScrubbed(private: set<PrivateFile>)
    requires forall i :: 0 <= i < |SCRUB_ORDER| ==> SCRUB_ORDER[i] !in private
    ensures private == {}
  {
    assert SCRUB_ORDER[0] == RawResultFile && SCRUB_ORDER[1] == InputsFile && SCRUB_ORDER[2] == JobFile;
    assert forall f :: f !in private by {
      forall f: PrivateFile ensures f !in private {
        match f case RawResultFile => case InputsFile => case JobFile =>
      }
    }
  }

  /** The artifact store. An operation that raises is told so by its last argument, since
      disks and permissions are not part of the model. */
  class FileArtifacts {
    var files: map<RunId, Files>

    constructor ()
      ensures files == map[]
    {
      files := map[];
    }

    method SaveResult(run: Run, fails: bool) returns (ok: bool)
      modifies this
      ensures ok == !fails
      ensures files == if fails then old(files) else Saved(old(files), run)
    {
      if fails { return false; }
      files := Saved(files, run);
      return true;
    }

    /** Tries every private file, whatever happened to the ones before. */
    method ScrubInputs(id: RunId, failing: set<PrivateFile>) returns (ok: bool)
      modifies this
      ensures ok == (failing == {})
      ensures forall r :: r != id ==> FilesIn(files, r) == FilesIn(old(files), r)
      ensures FilesIn(files, id).result == FilesIn(old(files), id).result
      ensures FilesIn(files, id).private == FilesIn(old(files), id).private * failing
    {
      var i := 0;
      ok := true;
      while i < |SCRUB_ORDER|
        invariant 0 <= i <= |SCRUB_ORDER|
        invariant ok == forall j :: 0 <= j < i ==> SCRUB_ORDER[j] !in failing
        invariant forall r :: r != id ==> FilesIn(files, r) == FilesIn(old(files), r)
        invariant FilesIn(files, id).result == FilesIn(old(files), id).result
        invariant FilesIn(files, id).private <= FilesIn(old(files), id).private
        invariant forall f :: f in FilesIn(old(files), id).private && f !in FilesIn(files, id).private ==> f !in failing
        invariant forall j :: 0 <= j < i && SCRUB_ORDER[j] in FilesIn(files, id).private ==> SCRUB_ORDER[j] in failing
      {
        if SCRUB_ORDER[i] in failing {
          ok := false;
        } else {
          files := Without(files, id, {SCRUB_ORDER[i]});
        }
        i := i + 1;
      }
      ghost var left := FilesIn(files, id).private;
      AllScrubbed(left - failing);
      assert forall f :: f in left ==> f !in left - failing ==> f in failing;
      assert left == FilesIn(old(files), id).private * failing;
      if ok { AllScrubbed(failing); }
    }
  }
}
