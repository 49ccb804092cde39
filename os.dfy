/**
 * The part of the host that the OSv compiler helpers touch: the file system
 * (`ioutil.ReadFile`, `ioutil.TempFile`, `os.Rename`, `os.Remove`,
 * `filepath.Join`) and the container engine that runs build jobs.
 *
 * The host is described twice: as a value, `HostState`, transformed by pure
 * functions (`TempFileIn`, `RenameIn`, ...), and as the class `Host`, whose
 * methods make the same changes in place. The methods are proved to agree
 * with the functions; the compiler helpers are written against the class and
 * specified with the functions.
 */
module Os {
  import opened Wrappers

  type Bytes = seq<bv8>

  /**
   * One build-container invocation: the container (image) name, the volume
   * mounts (host path to container path), the environment and the arguments.
   */
  datatype Container = Container(
    name: string,
    volumes: map<string, string>,
    env: map<string, string>,
    args: seq<string>)

  /**
   * What running a build container does: write files through its mounts,
   * and either fail (possibly having written part of its output) or succeed.
   */
  datatype BuildOutcome =
    | BuildFailed(reason: string, written: map<string, Bytes>)
    | BuildSucceeded(written: map<string, Bytes>)

  /**
   * What the host is and does without being asked: the system temp
   * directory, and the container engine, an oracle from invocation to outcome.
   */
  datatype Platform = Platform(tempDir: string, engine: Container -> BuildOutcome)

  /**
   * The mutable part of the host: the files (path to contents), the log of
   * container invocations in order, and the random suffixes the temp-file
   * generator will draw, in order.
   */
  datatype HostState = HostState(files: map<string, Bytes>, containerRuns: seq<Container>, entropy: seq<string>)

  /** `filepath.Join` of a directory and a name (without `filepath.Clean`). */
  function Join(dir: string, name: string): string
  {
    if dir == "" then name
    else if dir[|dir| - 1] == '/' then dir + name
    else dir + "/" + name
  }

  function ReadFileIn(st: HostState, path: string): Result<Bytes>
  {
    if path in st.files then Ok(st.files[path]) else Err("open " + path + ": no such file or directory")
  }

  /**
   * `ioutil.TempFile(dir, prefix)` in the directory `dir` (already resolved):
   * draw suffixes until `dir/prefix<suffix>` is unused and create that file
   * empty; fail when the suffixes run out.
   */
  function DrawTempName(st: HostState, dir: string, prefix: string): (out: (Result<string>, HostState))
    ensures out.1.containerRuns == st.containerRuns
    ensures out.0.Err? ==> out.1.files == st.files
    ensures out.0.Ok? ==> out.0.value !in st.files && Join(dir, prefix) <= out.0.value
    ensures out.0.Ok? ==> exists s :: s in st.entropy && out.0.value == Join(dir, prefix + s)
    ensures out.0.Ok? ==> out.1.files == st.files[out.0.value := []]
    decreases |st.entropy|
  {
    if st.entropy == [] then
      (Err("open " + Join(dir, prefix) + "*: no unused name"), st)
    else
      var name := Join(dir, prefix + st.entropy[0]);
      var drawn := st.(entropy := st.entropy[1..]);
      if name in st.files then DrawTempName(drawn, dir, prefix)
      else (Ok(name), drawn.(files := st.files[name := []]))
  }

  /** `ioutil.TempFile(dir, prefix)`: an empty `dir` means the system temp directory. */
  function TempFileIn(st: HostState, pf: Platform, dir: string, prefix: string): (Result<string>, HostState)
  {
    DrawTempName(st, if dir == "" then pf.tempDir else dir, prefix)
  }

  /** `os.Rename(src, dst)`: fails when `src` does not exist, otherwise replaces `dst`. */
  function RenameIn(st: HostState, src: string, dst: string): (Outcome, HostState)
  {
    if src !in st.files then (Fail("rename " + src + " " + dst + ": no such file or directory"), st)
    else (Pass, st.(files := (st.files - {src})[dst := st.files[src]]))
  }

  /** `os.Remove(path)`, its error ignored as the callers here do. */
  function RemoveIn(st: HostState, path: string): HostState
  {
    st.(files := st.files - {path})
  }

  /** Running a container: it is logged, its writes applied to the files, and its failure reported. */
  function RunIn(st: HostState, engine: Container -> BuildOutcome, c: Container): (Outcome, HostState)
  {
    var ran := st.(containerRuns := st.containerRuns + [c], files := st.files + engine(c).written);
    match engine(c)
    case BuildFailed(reason, _) => (Fail(reason), ran)
    case BuildSucceeded(_) => (Pass, ran)
  }

  /** The host, updated in place by the operations the compiler helpers call. */
  class Host {
    var files: map<string, Bytes>
    var containerRuns: seq<Container>
    var entropy: seq<string>
    const platform: Platform

    function State(): HostState
      reads this
    {
      HostState(files, containerRuns, entropy)
    }

    constructor (files: map<string, Bytes>, entropy: seq<string>, platform: Platform)
      ensures State() == HostState(files, [], entropy)
      ensures this.platform == platform
    {
      this.files := files;
      this.containerRuns := [];
      this.entropy := entropy;
      this.platform := platform;
    }

    method ReadFile(path: string) returns (r: Result<Bytes>)
      ensures r == ReadFileIn(State(), path)
    {
      if path in files {
        r := Ok(files[path]);
      } else {
        r := Err("open " + path + ": no such file or directory");
      }
    }

    method TempFile(dir: string, prefix: string) returns (r: Result<string>)
      modifies this
      ensures (r, State()) == TempFileIn(old(State()), platform, dir, prefix)
    {
      var base := if dir == "" then platform.tempDir else dir;
      while entropy != [] && Join(base, prefix + entropy[0]) in files
        invariant DrawTempName(State(), base, prefix) == DrawTempName(old(State()), base, prefix)
        decreases |entropy|
      {
        entropy := entropy[1..];
      }
      if entropy == [] {
        r := Err("open " + Join(base, prefix) + "*: no unused name");
      } else {
        var name := Join(base, prefix + entropy[0]);
        files := files[name := []];
        entropy := entropy[1..];
        r := Ok(name);
      }
    }

    method Rename(src: string, dst: string) returns (r: Outcome)
      modifies this
      ensures (r, State()) == RenameIn(old(State()), src, dst)
    {
      if src !in files {
        r := Fail("rename " + src + " " + dst + ": no such file or directory");
      } else {
        files := (files - {src})[dst := files[src]];
        r := Pass;
      }
    }

    method Remove(path: string)
      modifies this
      ensures State() == RemoveIn(old(State()), path)
    {
      files := files - {path};
    }

    method RunContainer(c: Container) returns (r: Outcome)
      modifies this
      ensures (r, State()) == RunIn(old(State()), platform.engine, c)
    {
      containerRuns := containerRuns + [c];
      files := files + platform.engine(c).written;
      match platform.engine(c)
      case BuildFailed(reason, _) =>
        r := Fail(reason);
      case BuildSucceeded(_) =>
        r := Pass;
    }
  }
}
