/**
 SaveFile of main.go: the report goes to the Desktop, then Documents, then
 the working directory, the first write that succeeds ending the search.
 The operating system is an environment value: the home and working
 directory lookups, and an oracle saying what writing each path does.
 */
module Export {
  import opened Results

  const FILE_NAME := "system_info.json"
  /** The Windows path separator filepath.Join inserts. */
  const SEPARATOR: char := '\\'

  /**
   What saveToFile does at one path: os.Create fails; or the file is created
   (and truncated) but the write fails; or the data is written.
   */
  datatype WriteStatus = CreateFailed | WriteFailed | Written

  /**
   The part of the operating system SaveFile consults: the two directory
   lookups, whether os.Create succeeds at a path, and whether writing the
   report into the file created there succeeds.
   */
  datatype Environment = Environment(
    home: Option<string>,
    workingDir: Option<string>,
    create: string -> bool,
    write: string -> bool)

  datatype SaveError = HomeDirUnavailable | WorkingDirUnavailable | AllLocationsFailed

  /** One call of saveToFile and what it did. */
  datatype Attempt = Attempt(path: string, status: WriteStatus)

  /** SaveFile's result, the writes it attempted in order, and whether it asked for the working directory. */
  datatype SaveOutcome = SaveOutcome(result: Result<string, SaveError>, attempts: seq<Attempt>, queriedWorkingDir: bool)

  /** filepath.Join of a directory and one element: empty elements are skipped. */
  function JoinPath(dir: string, name: string): (p: string)
    requires name != []
    ensures |p| >= |name| && forall k :: 0 <= k < |name| ==> p[|p| - |name| + k] == name[k]
  {
    if dir == [] then name else dir + [SEPARATOR] + name
  }

  function DesktopPath(home: string): string {
    JoinPath(JoinPath(home, "Desktop"), FILE_NAME)
  }

  function DocumentsPath(home: string): string {
    JoinPath(JoinPath(home, "Documents"), FILE_NAME)
  }

  function FallbackPath(workingDir: string): string {
    JoinPath(workingDir, FILE_NAME)
  }

  /**
   saveToFile: create the file, then write the report into it. The report is
   written only when both steps succeed, and a failed create stops before
   anything is written.
   */
  function Outcome(env: Environment, path: string): (status: WriteStatus)
    ensures (status == Written) <==> env.create(path) && env.write(path)
    ensures (status == CreateFailed) <==> !env.create(path)
    ensures (status == WriteFailed) <==> env.create(path) && !env.write(path)
  {
    if !env.create(path) then CreateFailed
    else if !env.write(path) then WriteFailed
    else Written
  }

  /** One call of saveToFile, recorded with its path. */
  function SaveToFile(env: Environment, path: string): Attempt {
    Attempt(path, Outcome(env, path))
  }

  /** No attempt in the trace wrote the report. */
  predicate NoneWritten(attempts: seq<Attempt>) {
    forall k :: 0 <= k < |attempts| ==> attempts[k].status != Written
  }

  /** Every attempt in the trace reports what the oracle says of its path. */
  predicate Faithful(env: Environment, attempts: seq<Attempt>) {
    forall k :: 0 <= k < |attempts| ==> attempts[k].status == Outcome(env, attempts[k].path)
  }

  function SaveFile(env: Environment): (out: SaveOutcome)
    ensures Faithful(env, out.attempts)
    // a failed home lookup fails at once, before any write
    ensures (out.result == Err(HomeDirUnavailable)) <==> env.home.None?
    ensures env.home.None? ==> out.attempts == [] && !out.queriedWorkingDir
    // success is reported for the path of the last attempt, which wrote the report
    ensures out.result.Ok? <==> |out.attempts| > 0 && out.attempts[|out.attempts| - 1].status == Written
    ensures out.result.Ok? ==> out.result.value == out.attempts[|out.attempts| - 1].path
  {
    match env.home
    case None => SaveOutcome(Err(HomeDirUnavailable), [], false)
    case Some(home) =>
      var desktop := SaveToFile(env, DesktopPath(home));
      if desktop.status == Written then SaveOutcome(Ok(desktop.path), [desktop], false)
      else
        var documents := SaveToFile(env, DocumentsPath(home));
        if documents.status == Written then SaveOutcome(Ok(documents.path), [desktop, documents], false)
        else SaveInWorkingDir(env, [desktop, documents])
  }

  /** The last resort of SaveFile, reached once the two home candidates have failed. */
  function SaveInWorkingDir(env: Environment, earlier: seq<Attempt>): (out: SaveOutcome)
    requires Faithful(env, earlier) && NoneWritten(earlier) && |earlier| == 2
    ensures Faithful(env, out.attempts) && out.queriedWorkingDir
    ensures out.result != Err(HomeDirUnavailable)
    ensures 2 <= |out.attempts| <= 3 && out.attempts[0] == earlier[0] && out.attempts[1] == earlier[1]
    ensures out.result.Ok? <==> out.attempts[|out.attempts| - 1].status == Written
    ensures out.result.Ok? ==> out.result.value == out.attempts[|out.attempts| - 1].path
  {
    match env.workingDir
    case None => SaveOutcome(Err(WorkingDirUnavailable), earlier, true)
    case Some(cwd) =>
      var fallback := SaveToFile(env, FallbackPath(cwd));
      var attempts := earlier + [fallback];
      if fallback.status == Written then SaveOutcome(Ok(fallback.path), attempts, true)
      else SaveOutcome(Err(AllLocationsFailed), attempts, true)
  }

  /** The candidates are tried in their fixed order, each at most once. */
  lemma SaveFileOrder(env: Environment)
    requires env.home.Some?
    ensures var out := SaveFile(env);
      && 1 <= |out.attempts| <= 3
      && out.attempts[0].path == DesktopPath(env.home.value)
      && (|out.attempts| >= 2 ==> out.attempts[1].path == DocumentsPath(env.home.value))
      && (|out.attempts| == 3 ==> env.workingDir.Some? && out.attempts[2].path == FallbackPath(env.workingDir.value))
  {
    var out := SaveFile(env);
    var home := env.home.value;
    var desktop := SaveToFile(env, DesktopPath(home));
    var documents := SaveToFile(env, DocumentsPath(home));
    if desktop.status == Written {
      assert out.attempts == [desktop];
    } else if documents.status == Written {
      assert out.attempts == [desktop, documents];
    } else if env.workingDir.None? {
      assert out.attempts == [desktop, documents];
    } else {
      assert out.attempts == [desktop, documents, SaveToFile(env, FallbackPath(env.workingDir.value))];
    }
  }

  /**
   The first write that works ends the search, and the working directory is
   asked for only once Desktop and Documents have both failed.
   */
  lemma SaveFileStopsAtFirstSuccess(env: Environment)
    ensures var out := SaveFile(env);
      && (|out.attempts| > 0 ==> NoneWritten(out.attempts[..|out.attempts| - 1]))
      && (out.queriedWorkingDir <==> |out.attempts| >= 2 && NoneWritten(out.attempts[..2]))
  {
    var out := SaveFile(env);
    if env.home.Some? {
      var home := env.home.value;
      var desktop := SaveToFile(env, DesktopPath(home));
      var documents := SaveToFile(env, DocumentsPath(home));
      if desktop.status == Written {
        assert out.attempts[..0] == [];
      } else if documents.status == Written {
        assert out.attempts[..1] == [desktop];
        assert !NoneWritten(out.attempts[..2]) by {
          assert out.attempts[..2][1] == documents;
        }
      } else {
        assert out.attempts[..2] == [desktop, documents];
        assert out.attempts[..|out.attempts| - 1] <= out.attempts[..2];
      }
    }
  }

  /** A failed working-directory lookup, or three failed writes, is an error, each with its own reason. */
  lemma SaveFileErrors(env: Environment)
    ensures var out := SaveFile(env);
      && ((out.result == Err(WorkingDirUnavailable)) <==> out.queriedWorkingDir && env.workingDir.None?)
      && ((out.result == Err(AllLocationsFailed)) <==> |out.attempts| == 3 && NoneWritten(out.attempts))
  {
    var out := SaveFile(env);
    if env.home.Some? {
      var home := env.home.value;
      var desktop := SaveToFile(env, DesktopPath(home));
      var documents := SaveToFile(env, DocumentsPath(home));
      if desktop.status == Written {
        assert out == SaveOutcome(Ok(desktop.path), [desktop], false);
      } else if documents.status == Written {
        assert out == SaveOutcome(Ok(documents.path), [desktop, documents], false);
      } else if env.workingDir.None? {
        assert out == SaveOutcome(Err(WorkingDirUnavailable), [desktop, documents], true);
      } else {
        var fallback := SaveToFile(env, FallbackPath(env.workingDir.value));
        assert out.attempts == [desktop, documents, fallback];
        assert out.result == if fallback.status == Written then Ok(fallback.path) else Err(AllLocationsFailed);
      }
    }
  }

  /**
   The generic rule behind SaveFile: try the paths in order and stop at the
   first write that succeeds. Returns the path written, if any, and the trace.
   */
  function TryInOrder(paths: seq<string>, write: string -> WriteStatus): (r: (Option<string>, seq<Attempt>))
    ensures |r.1| <= |paths|
    ensures forall k :: 0 <= k < |r.1| ==> r.1[k] == Attempt(paths[k], write(paths[k]))
    ensures r.0.None? ==> |r.1| == |paths| && NoneWritten(r.1)
    ensures r.0.Some? ==>
      && |r.1| > 0 && r.0.value == paths[|r.1| - 1] && write(r.0.value) == Written
      && forall k :: 0 <= k < |r.1| - 1 ==> r.1[k].status != Written
  {
    if paths == [] then (None, [])
    else
      var first := Attempt(paths[0], write(paths[0]));
      if first.status == Written then (Some(paths[0]), [first])
      else
        var rest := TryInOrder(paths[1..], write);
        var trace := [first] + rest.1;
        assert forall k :: 1 <= k < |trace| ==> trace[k] == rest.1[k - 1];
        (rest.0, trace)
  }

  /**
   With both directories known, SaveFile is exactly the first-success search
   over Desktop, Documents and the working directory.
   */
  lemma SaveFileIsFirstSuccess(env: Environment)
    requires env.home.Some? && env.workingDir.Some?
    ensures var paths := [DesktopPath(env.home.value), DocumentsPath(env.home.value), FallbackPath(env.workingDir.value)];
      var (found, trace) := TryInOrder(paths, p => Outcome(env, p));
      && SaveFile(env).attempts == trace
      && (found.Some? <==> SaveFile(env).result.Ok?)
      && (found.Some? ==> SaveFile(env).result.value == found.value)
  {
    var paths := [DesktopPath(env.home.value), DocumentsPath(env.home.value), FallbackPath(env.workingDir.value)];
    var (found, trace) := TryInOrder(paths, p => Outcome(env, p));
    var out := SaveFile(env);
    if Outcome(env, paths[0]) == Written {
      assert |trace| == 1;
    } else if Outcome(env, paths[1]) == Written {
      assert trace[0].status != Written;
      assert |trace| == 2;
    } else {
      assert trace[0].status != Written && trace[1].status != Written;
      assert |trace| == 3;
    }
    assert |trace| == |out.attempts|;
  }

  /** Desktop refuses, Documents accepts: the Documents path is reported and the working directory is never reached. */
  lemma DocumentsFallback(env: Environment)
    requires env.home.Some?
    requires Outcome(env, DesktopPath(env.home.value)) != Written
    requires Outcome(env, DocumentsPath(env.home.value)) == Written
    ensures SaveFile(env).result == Ok(DocumentsPath(env.home.value))
    ensures |SaveFile(env).attempts| == 2 && !SaveFile(env).queriedWorkingDir
  {
  }

  /** If every candidate refuses, the save fails and no candidate holds the report. */
  lemma AllCandidatesRefuse(env: Environment)
    requires env.home.Some? && env.workingDir.Some?
    requires Outcome(env, DesktopPath(env.home.value)) != Written
    requires Outcome(env, DocumentsPath(env.home.value)) != Written
    requires Outcome(env, FallbackPath(env.workingDir.value)) != Written
    ensures SaveFile(env).result == Err(AllLocationsFailed)
    ensures NoneWritten(SaveFile(env).attempts)
  {
  }
}
