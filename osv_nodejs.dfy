/**
 * The OSv Node.js compiler step (`CreateImageNodeJS`): read
 * `<SourcesDir>/manifest.yaml`, parse it, run the `compilers-osv-nodejs`
 * build container over the sources directory, then move the container's
 * `boot.qcow2` into a fresh temp file and return that file's path.
 *
 * YAML decoding is an oracle `parse` from the manifest's bytes to a
 * `NodeProjectConfig` or an error; the container engine is the host's.
 */
module OsvNodeJs {
  import opened Wrappers
  import opened Types
  import opened Os
  import opened OsvResultFile

  /** The manifest's one field, `main_file`. */
  datatype NodeProjectConfig = NodeProjectConfig(mainFile: string)

  const ContainerName := "compilers-osv-nodejs"
  const ReadManifestError := "failed to read manifest.yaml file"
  const ParseManifestError := "failed to parse yaml manifest.yaml file"
  /** Followed by the sources directory. */
  const RunContainerError := "failed running compilers-osv-nodejs on "

  function ManifestPath(sourcesDir: string): string
  {
    Join(sourcesDir, "manifest.yaml")
  }

  function BootImagePath(sourcesDir: string): string
  {
    Join(sourcesDir, "boot.qcow2")
  }

  /** The build container: the sources directory mounted, the main file in the environment, no arguments. */
  function NodeContainer(sourcesDir: string, mainFile: string): (c: Container)
    ensures c.name == "compilers-osv-nodejs" && c.args == []
    ensures c.volumes.Keys == {sourcesDir + "/"} && c.volumes[sourcesDir + "/"] == "/project_directory"
    ensures c.env.Keys == {"NODE_MAIN_FILE"} && c.env["NODE_MAIN_FILE"] == mainFile
  {
    Container(ContainerName, map[sourcesDir + "/" := "/project_directory"], map["NODE_MAIN_FILE" := mainFile], [])
  }

  /** `CreateImageNodeJS` on a host state: the result and the host afterwards. */
  function CreateImageNodeJSIn(
    st: HostState, pf: Platform, params: CompileImageParams, parse: Bytes -> Result<NodeProjectConfig>)
    : (Result<string>, HostState)
  {
    var data := ReadFileIn(st, ManifestPath(params.sourcesDir));
    if data.Err? then (Err(ReadManifestError), st)
    else match parse(data.value)
      case Err(_) => (Err(ParseManifestError), st)
      case Ok(config) =>
        var (ran, built) := RunIn(st, pf.engine, NodeContainer(params.sourcesDir, config.mainFile));
        if ran.Fail? then (Err(RunContainerError + params.sourcesDir), built)
        else MoveToTempIn(built, pf, BootImagePath(params.sourcesDir), params.noCleanup)
  }

  /**
   * `CreateImageNodeJS(params, useEc2Bootstrap)`; `useEc2Bootstrap` is
   * accepted and not used, as in the source.
   */
  method CreateImageNodeJS(
    host: Host, params: CompileImageParams, useEc2Bootstrap: bool, parse: Bytes -> Result<NodeProjectConfig>)
    returns (r: Result<string>)
    modifies host
    ensures (r, host.State()) == CreateImageNodeJSIn(old(host.State()), host.platform, params, parse)
  {
    var sourcesDir := params.sourcesDir;
    var data := host.ReadFile(ManifestPath(sourcesDir));
    if data.Err? {
      return Err(ReadManifestError);
    }
    var config := parse(data.value);
    if config.Err? {
      return Err(ParseManifestError);
    }
    var container := NodeContainer(sourcesDir, config.value.mainFile);
    var ran := host.RunContainer(container);
    if ran.Fail? {
      return Err(RunContainerError + sourcesDir);
    }
    r := MoveToTemp(host, BootImagePath(sourcesDir), params.noCleanup);
  }

  /** A missing manifest fails the call before anything runs or any file changes. */
  lemma NodeJsManifestMissing(
    st: HostState, pf: Platform, params: CompileImageParams, parse: Bytes -> Result<NodeProjectConfig>)
    requires ManifestPath(params.sourcesDir) !in st.files
    ensures CreateImageNodeJSIn(st, pf, params, parse) == (Err(ReadManifestError), st)
  {
  }

  /** A manifest that does not parse fails the call before anything runs or any file changes. */
  lemma NodeJsManifestMalformed(
    st: HostState, pf: Platform, params: CompileImageParams, parse: Bytes -> Result<NodeProjectConfig>)
    requires ManifestPath(params.sourcesDir) in st.files
    requires parse(st.files[ManifestPath(params.sourcesDir)]).Err?
    ensures CreateImageNodeJSIn(st, pf, params, parse) == (Err(ParseManifestError), st)
  {
  }

  /**
   * A container runs if and only if the manifest was read and parsed, at
   * most one runs, and it is `compilers-osv-nodejs` with the sources
   * directory (plus a slash) mounted at `/project_directory`, `NODE_MAIN_FILE`
   * set to the manifest's `main_file` (whatever it is, even empty) and no
   * arguments.
   */
  lemma NodeJsContainerCall(
    st: HostState, pf: Platform, params: CompileImageParams, parse: Bytes -> Result<NodeProjectConfig>)
    ensures var after := CreateImageNodeJSIn(st, pf, params, parse).1;
      var manifest := ManifestPath(params.sourcesDir);
      && st.containerRuns <= after.containerRuns
      && |after.containerRuns| <= |st.containerRuns| + 1
      && (|after.containerRuns| == |st.containerRuns| + 1 <==>
            manifest in st.files && parse(st.files[manifest]).Ok?)
      && (manifest in st.files && parse(st.files[manifest]).Ok? ==>
            var c := after.containerRuns[|st.containerRuns|];
            && c.name == "compilers-osv-nodejs"
            && c.volumes == map[params.sourcesDir + "/" := "/project_directory"]
            && c.env == map["NODE_MAIN_FILE" := parse(st.files[manifest]).value.mainFile]
            && c.args == [])
  {
  }

  /**
   * A failed container run fails the call before any temp file is drawn;
   * the files are what the container left, partial output included.
   */
  lemma NodeJsContainerFails(
    st: HostState, pf: Platform, params: CompileImageParams, parse: Bytes -> Result<NodeProjectConfig>)
    requires ManifestPath(params.sourcesDir) in st.files
    requires parse(st.files[ManifestPath(params.sourcesDir)]).Ok?
    requires pf.engine(NodeContainer(params.sourcesDir, parse(st.files[ManifestPath(params.sourcesDir)]).value.mainFile)).BuildFailed?
    ensures var (r, after) := CreateImageNodeJSIn(st, pf, params, parse);
      var partial := pf.engine(NodeContainer(params.sourcesDir, parse(st.files[ManifestPath(params.sourcesDir)]).value.mainFile)).written;
      && r == Err("failed running compilers-osv-nodejs on " + params.sourcesDir)
      && after.entropy == st.entropy
      && after.files == st.files + partial
  {
  }

  /**
   * On success the container ran and `boot.qcow2` existed once it had, and
   * the returned path is a temp file `osv-boot.vmdk.<random>` that did not
   * exist, now holding what `boot.qcow2` held, which is gone from the
   * sources directory; no other file differs from what the container left.
   * (No temp-file name the host can draw is `boot.qcow2`'s own path.)
   */
  lemma NodeJsSuccess(
    st: HostState, pf: Platform, params: CompileImageParams, parse: Bytes -> Result<NodeProjectConfig>)
    requires NoDrawIs(st, pf, BootImagePath(params.sourcesDir))
    ensures var (r, after) := CreateImageNodeJSIn(st, pf, params, parse);
      var boot := BootImagePath(params.sourcesDir);
      r.Ok? ==>
        exists written :: && pf.engine(after.containerRuns[|st.containerRuns|]) == BuildSucceeded(written)
                          && boot in st.files + written
                          && r.value !in st.files + written
                          && TempPath(pf) <= r.value
                          && after.files == ((st.files + written) - {boot})[r.value := (st.files + written)[boot]]
                          && boot !in after.files
  {
  }

  /**
   * When the container succeeds but leaves no `boot.qcow2`, the call fails;
   * if the temp file was created it remains, holding nothing, even with
   * cleanup requested.
   */
  lemma NodeJsRenameFailureLeaks(
    st: HostState, pf: Platform, params: CompileImageParams, parse: Bytes -> Result<NodeProjectConfig>,
    written: map<string, Bytes>)
    requires ManifestPath(params.sourcesDir) in st.files
    requires parse(st.files[ManifestPath(params.sourcesDir)]).Ok?
    requires pf.engine(NodeContainer(params.sourcesDir, parse(st.files[ManifestPath(params.sourcesDir)]).value.mainFile))
             == BuildSucceeded(written)
    requires BootImagePath(params.sourcesDir) !in st.files + written
    requires NoDrawIs(st, pf, BootImagePath(params.sourcesDir))
    ensures var (r, after) := CreateImageNodeJSIn(st, pf, params, parse);
      && r.Err?
      && (r.message == TempFileError ==> after.files == st.files + written)
      && (r.message != TempFileError ==>
            && r.message == "failed to rename result file"
            && exists leftover :: && leftover !in st.files + written
                                  && TempPath(pf) <= leftover
                                  && after.files == (st.files + written)[leftover := []])
  {
  }
}
