/**
 * The records of the `types` package that the registry and the OSv compiler
 * helpers use, cut down to the fields those files read or write.
 */
module Types {

  /** Parameters of a compile request. */
  datatype CompileImageParams = CompileImageParams(sourcesDir: string, noCleanup: bool)

  datatype ImageFormat = RAW | QCOW2 | VMDK

  datatype StorageDriver = SCSI | SATA | IDE

  /** A device the booted instance expects at a mount point. */
  datatype DeviceMapping = DeviceMapping(mountPoint: string, deviceName: string)

  datatype StageSpec = StageSpec(imageFormat: ImageFormat)

  datatype RunSpec = RunSpec(
    deviceMappings: seq<DeviceMapping>,
    storageDriver: StorageDriver,
    defaultInstanceMemory: int)

  /** The build artifact a compiler hands to a provider's staging step. */
  datatype RawImage = RawImage(localImagePath: string, stageSpec: StageSpec, runSpec: RunSpec)

  /** Entities a provider can look up; only their identity matters here. */
  datatype Image = Image(id: string, name: string)
  datatype Instance = Instance(id: string, name: string)
  datatype Volume = Volume(id: string, name: string)
}
