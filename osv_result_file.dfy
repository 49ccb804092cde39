/**
 * The step both OSv compiler helpers end with (osv_nodejs.go lines 45-57,
 * osv_virtualbox.go lines 19-30): create a temp file named
 * `osv-boot.vmdk.<random>`, defer a cleanup that removes it when the
 * function's `err` is non-nil and cleanup was not disabled, then rename the
 * build output onto it.
 *
 * As written, the rename's error is bound by `if err := os.Rename(...)`, a
 * new variable that shadows the function's `err`. The deferred closure reads
 * the outer `err`, which still holds TempFile's nil, so it never removes
 * anything: a failed rename leaves the empty temp file behind. `MoveToTempIn`
 * models that; `MoveToTempIntendedIn` models the cleanup the closure was
 * written for.
 */
module OsvResultFile {
  import opened Wrappers
  import opened Os

  const TempPrefix := "osv-boot.vmdk."
  const TempFileError := "failed to create tmpfile for result"
  const RenameError := "failed to rename result file"

  /** Every temp file created here starts with this path. */
  function TempPath(pf: Platform): string
  {
    Join(pf.tempDir, TempPrefix)
  }

  /**
   * No temp-file name the host can still draw is `path` itself. Only a
   * missing `path` can be drawn; the rename then moves the new empty file
   * onto itself and succeeds.
   */
  predicate NoDrawIs(st: HostState, pf: Platform, path: string)
  {
    forall s :: s in st.entropy ==> Join(pf.tempDir, TempPrefix + s) != path
  }

  /** The deferred closure: remove `path` when `err` is non-nil, unless cleanup is off. */
  function DeferredCleanupIn(st: HostState, err: Outcome, noCleanup: bool, path: string): HostState
  {
    if err.Fail? && !noCleanup then RemoveIn(st, path) else st
  }

  /** The step as written: `err` seen by the deferred closure is TempFile's. */
  function MoveToTempIn(st: HostState, pf: Platform, src: string, noCleanup: bool): (Result<string>, HostState)
  {
    var (tmp, created) := TempFileIn(st, pf, "", TempPrefix);
    // the function's `err`, as TempFile left it; nothing assigns it later
    var err := if tmp.Err? then Fail(tmp.message) else Pass;
    if tmp.Err? then (Err(TempFileError), created)
    else
      var (moved, renamed) := RenameIn(created, src, tmp.value);
      var cleaned := DeferredCleanupIn(renamed, err, noCleanup, tmp.value);
      if moved.Fail? then (Err(RenameError), cleaned) else (Ok(tmp.value), cleaned)
  }

  /** The step as intended: the rename's failure reaches the deferred closure. */
  function MoveToTempIntendedIn(st: HostState, pf: Platform, src: string, noCleanup: bool): (out: (Result<string>, HostState))
    ensures out.1.containerRuns == st.containerRuns
    ensures out.0.Ok? ==> out.0.value !in st.files && TempPath(pf) <= out.0.value
    ensures out.0.Err? && !noCleanup ==> out.1.files == st.files
  {
    var (tmp, created) := TempFileIn(st, pf, "", TempPrefix);
    if tmp.Err? then (Err(TempFileError), created)
    else
      var (moved, renamed) := RenameIn(created, src, tmp.value);
      var cleaned := DeferredCleanupIn(renamed, moved, noCleanup, tmp.value);
      if moved.Fail? then (Err(RenameError), cleaned) else (Ok(tmp.value), cleaned)
  }

  method DeferredCleanup(host: Host, err: Outcome, noCleanup: bool, path: string)
    modifies host
    ensures host.State() == DeferredCleanupIn(old(host.State()), err, noCleanup, path)
  {
    if err.Fail? && !noCleanup {
      host.Remove(path);
    }
  }

  /** The step as written, on the host in place. */
  method MoveToTemp(host: Host, src: string, noCleanup: bool) returns (r: Result<string>)
    modifies host
    ensures (r, host.State()) == MoveToTempIn(old(host.State()), host.platform, src, noCleanup)
  {
    var tmp := host.TempFile("", TempPrefix);
    var err: Outcome := if tmp.Err? then Fail(tmp.message) else Pass;
    if tmp.Err? {
      return Err(TempFileError);
    }
    var moved := host.Rename(src, tmp.value);
    if moved.Fail? {
      r := Err(RenameError);
    } else {
      r := Ok(tmp.value);
    }
    DeferredCleanup(host, err, noCleanup, tmp.value);
  }

  /**
   * When the build output exists, the step either moves it into a fresh
   * temp file, leaving nothing at the old path, or fails to create the temp
   * file and changes no file.
   */
  lemma MoveToTempMoves(st: HostState, pf: Platform, src: string, noCleanup: bool)
    requires src in st.files
    ensures var (r, after) := MoveToTempIn(st, pf, src, noCleanup);
      && after.containerRuns == st.containerRuns
      && (r.Ok? ==> && r.value !in st.files
                    && TempPath(pf) <= r.value
                    && after.files == (st.files - {src})[r.value := st.files[src]]
                    && src !in after.files)
      && (r.Err? ==> r == Err(TempFileError) && after.files == st.files)
  {
  }

  /**
   * When the build output is missing (and no temp-file name the host can
   * draw is its path), the step fails; if it got as far as creating the temp file, that
   * file remains, whether or not cleanup was requested.
   */
  lemma MoveToTempMissingSource(st: HostState, pf: Platform, src: string, noCleanup: bool)
    requires src !in st.files
    requires NoDrawIs(st, pf, src)
    ensures var (r, after) := MoveToTempIn(st, pf, src, noCleanup);
      && r.Err?
      && after.containerRuns == st.containerRuns
      && (r.message == TempFileError ==> after.files == st.files)
      && (r.message != TempFileError ==>
            && r.message == RenameError
            && exists leftover :: && leftover !in st.files
                                  && TempPath(pf) <= leftover
                                  && after.files == st.files[leftover := []])
  {
  }

  /**
   * A concrete run that shows the leak: no build output, cleanup requested,
   * and the call fails yet leaves a new file in the temp directory.
   */
  lemma MoveToTempLeaks(engine: Container -> BuildOutcome)
    ensures var st := HostState(map[], [], ["1"]);
      var (r, after) := MoveToTempIn(st, Platform("/tmp", engine), "/src/boot.qcow2", false);
      && r == Err(RenameError)
      && after.files == map["/tmp/osv-boot.vmdk.1" := []]
      && after.files != st.files
  {
    var st := HostState(map[], [], ["1"]);
    var pf := Platform("/tmp", engine);
    assert "/tmp"[|"/tmp"| - 1] != '/';
    assert Join("/tmp", TempPrefix + "1") == "/tmp/osv-boot.vmdk.1";
    assert st.entropy[1..] == [];
    assert TempFileIn(st, pf, "", TempPrefix) == (Ok("/tmp/osv-boot.vmdk.1"), HostState(map["/tmp/osv-boot.vmdk.1" := []], [], []));
  }

  /**
   * The intended cleanup: the step succeeds exactly as the code as written
   * does, and when it fails with cleanup requested no file has changed.
   */
  lemma IntendedCleanup(st: HostState, pf: Platform, src: string, noCleanup: bool)
    ensures var (r, after) := MoveToTempIntendedIn(st, pf, src, noCleanup);
      && (r.Ok? ==> (r, after) == MoveToTempIn(st, pf, src, noCleanup))
      && (r.Err? && !noCleanup ==> after.files == st.files)
  {
  }

  /**
   * As written, the cleanup flag makes no difference: the deferred closure
   * never removes anything.
   */
  lemma CleanupNeverRuns(st: HostState, pf: Platform, src: string)
    ensures MoveToTempIn(st, pf, src, true) == MoveToTempIn(st, pf, src, false)
  {
  }

  /** The step runs no container. */
  lemma MoveToTempPreservesRuns(st: HostState, pf: Platform, src: string, noCleanup: bool)
    ensures MoveToTempIn(st, pf, src, noCleanup).1.containerRuns == st.containerRuns
  {
  }
}
