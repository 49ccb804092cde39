/**
 * The OSv VirtualBox compiler helper's `Convert`: move Capstan's output
 * image into a fresh temp file and describe it as a build artifact whose
 * stage spec and run spec are fixed.
 */
module OsvVirtualbox {
  import opened Wrappers
  import opened Types
  import opened Os
  import opened OsvResultFile

  /** Default memory, in MB, of an OSv instance on VirtualBox. */
  const OsvVirtualboxMemory := 512

  /** The compile request and where Capstan left its image. */
  datatype ConvertParams = ConvertParams(compileParams: CompileImageParams, capstanImagePath: string)

  /**
   * The artifact for an image at `localImagePath`: declared QCOW2 (the temp
   * name says vmdk, but no conversion happens), one root device on
   * `/dev/sda1`, a SATA controller and the default memory.
   */
  function VirtualboxRawImage(localImagePath: string): (r: RawImage)
    ensures r.localImagePath == localImagePath
    ensures r.stageSpec.imageFormat == QCOW2
    ensures r.runSpec.deviceMappings == [DeviceMapping("/", "/dev/sda1")]
    ensures r.runSpec.storageDriver == SATA && r.runSpec.defaultInstanceMemory == 512
  {
    RawImage(
      localImagePath,
      StageSpec(QCOW2),
      RunSpec([DeviceMapping("/", "/dev/sda1")], SATA, OsvVirtualboxMemory))
  }

  /** `Convert` on a host state: the result and the host afterwards. */
  function ConvertIn(st: HostState, pf: Platform, params: ConvertParams): (Result<RawImage>, HostState)
  {
    var (moved, after) := MoveToTempIn(st, pf, params.capstanImagePath, params.compileParams.noCleanup);
    if moved.Err? then (Err(moved.message), after)
    else (Ok(VirtualboxRawImage(moved.value)), after)
  }

  /** `VirtualboxCompilerHelper.Convert`; the helper itself holds nothing `Convert` reads. */
  method Convert(host: Host, params: ConvertParams) returns (r: Result<RawImage>)
    modifies host
    ensures (r, host.State()) == ConvertIn(old(host.State()), host.platform, params)
  {
    var moved := MoveToTemp(host, params.capstanImagePath, params.compileParams.noCleanup);
    if moved.Err? {
      return Err(moved.message);
    }
    r := Ok(VirtualboxRawImage(moved.value));
  }

  /**
   * When Capstan's image exists, `Convert` either fails to create the temp
   * file, with no file changed, or returns an artifact whose local path is a
   * temp file `osv-boot.vmdk.<random>` that did not exist before and now
   * holds the image, which is gone from Capstan's path.
   */
  lemma ConvertMovesImage(st: HostState, pf: Platform, params: ConvertParams)
    requires params.capstanImagePath in st.files
    ensures var (r, after) := ConvertIn(st, pf, params);
      var src := params.capstanImagePath;
      && after.containerRuns == st.containerRuns
      && (r.Err? ==> r.message == "failed to create tmpfile for result" && after.files == st.files)
      && (r.Ok? ==> && r.value.localImagePath !in st.files
                    && TempPath(pf) <= r.value.localImagePath
                    && after.files == (st.files - {src})[r.value.localImagePath := st.files[src]]
                    && src !in after.files)
  {
  }

  /**
   * When Capstan's image is missing, `Convert` fails; if it created the temp
   * file, that file remains, holding nothing, even with cleanup requested.
   */
  lemma ConvertMissingImage(st: HostState, pf: Platform, params: ConvertParams)
    requires params.capstanImagePath !in st.files
    requires NoDrawIs(st, pf, params.capstanImagePath)
    ensures var (r, after) := ConvertIn(st, pf, params);
      && r.Err?
      && (r.message == "failed to create tmpfile for result" ==> after.files == st.files)
      && (r.message != "failed to create tmpfile for result" ==>
            && r.message == "failed to rename result file"
            && exists leftover :: && leftover !in st.files
                                  && TempPath(pf) <= leftover
                                  && after.files == st.files[leftover := []])
  {
  }

  /**
   * A successful `Convert` returns a QCOW2 artifact with exactly one device
   * mapping, `/` on `/dev/sda1`, the SATA driver and 512 MB of memory.
   */
  lemma ConvertArtifactFixed(st: HostState, pf: Platform, params: ConvertParams)
    ensures var r := ConvertIn(st, pf, params).0;
      r.Ok? ==>
        && r.value.stageSpec.imageFormat == QCOW2
        && r.value.runSpec.deviceMappings == [DeviceMapping("/", "/dev/sda1")]
        && r.value.runSpec.storageDriver == SATA
        && r.value.runSpec.defaultInstanceMemory == 512
  {
  }

  /**
   * Two successful `Convert` calls, on any hosts and with any parameters,
   * return artifacts that differ at most in their local path.
   */
  lemma ConvertSpecsIgnoreParams(
    st1: HostState, pf1: Platform, params1: ConvertParams,
    st2: HostState, pf2: Platform, params2: ConvertParams)
    ensures var r1 := ConvertIn(st1, pf1, params1).0;
      var r2 := ConvertIn(st2, pf2, params2).0;
      r1.Ok? && r2.Ok? ==>
        && r1.value.stageSpec == r2.value.stageSpec
        && r1.value.runSpec == r2.value.runSpec
        && r1.value == r2.value.(localImagePath := r1.value.localImagePath)
  {
  }
}
