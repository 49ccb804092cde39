# unik orchestration core: provider registry and OSv compiler helpers

This project models three small pieces of unik, which compiles applications into
unikernel images and manages them across several backends (providers). Each
piece is proved correct in Dafny.

- **Provider registry** (`pkg/providers/interface.go`). `Providers` maps a
  provider-type name to a provider. `Keys` lists the names. `ProviderForImage`,
  `ProviderForInstance` and `ProviderForVolume` find the provider that owns an
  id. They ask every registered provider's `GetImage`, `GetInstance` or
  `GetVolume` in turn and return the first that answers without an error, or
  `provider not found for <kind> <id>`.
- **OSv Node.js compile step** (`pkg/compilers/osv/osv_nodejs.go`,
  `CreateImageNodeJS`). It reads `<SourcesDir>/manifest.yaml` and parses it.
  It runs the `compilers-osv-nodejs` build container over the sources
  directory. Then it creates a temp file `osv-boot.vmdk.<random>` and renames
  the container's `boot.qcow2` onto it.
- **OSv VirtualBox artifact normalisation** (`pkg/compilers/osv/osv_virtualbox.go`,
  `VirtualboxCompilerHelper.Convert`). It moves Capstan's image into a temp file
  the same way. It returns a `RawImage` whose stage spec (QCOW2) and run spec
  (`/` on `/dev/sda1`, SATA, 512 MB) are constants.

Files and modules:

- `wrappers.dfy` (`Wrappers`): `Result`, `Outcome` and `Option`, for Go's
  `(T, error)` and `error` returns.
- `types.dfy` (`Types`): the fields of the `types` records these files use.
- `os.dfy` (`Os`): the host. It is a value `HostState` (files, a log of
  container runs, and a supply of random temp-name suffixes) with pure
  functions for `ReadFile`, `TempFile`, `Rename`, `Remove` and running a
  container. It is also a class `Host` whose methods make the same changes in
  place.
- `osv_result_file.dfy` (`OsvResultFile`): the temp-file, deferred-cleanup and
  rename sequence. Both compiler files contain the same sequence up to the
  rename source, the `NoCleanup` field they read and the zero value they
  return on error; `MoveToTempIn` takes the source path and `noCleanup` as
  parameters, and each caller maps its result to its own return type.
- `osv_nodejs.dfy` (`OsvNodeJs`) and `osv_virtualbox.dfy` (`OsvVirtualbox`).
  Each has a method over a `Host` and the pure function it is proved to equal
  (`CreateImageNodeJSIn`, `ConvertIn`), plus lemmas about that function.
- `providers.dfy` (`Providers`): the registry. Resolution is a function of the
  map and of an enumeration `order` of its keys. The enumeration stands for
  Go's unspecified map iteration order. Every contract holds for every
  enumeration.

A provider is modelled as a record of its `ProviderConfig` and its three lookup
functions. Resolution is read-only by construction: the registry is an
immutable map value, and `Keys` and the `ProviderFor*` functions only read it.

In three places the model follows the code where a reader of the code's
comments and names would expect something else:

- The deferred closure in both compiler files is written to remove the temp
  file when a later step fails, unless `NoCleanup` is set. As the code stands
  it never removes it (see Findings).
- `Keys` holds each provider name once, as a set would, but it is a slice in
  map iteration order.
- A missing or unparsable manifest is reported with a plain error carrying a
  message, not a distinct invalid-input error kind.

## Model

| member | source | states |
|---|---|---|
| `Providers.Keys` | pkg/providers/interface.go:38-44 | the result holds exactly the map's keys, each once, so its length is the map's size |
| `Providers.FirstOwner` | pkg/providers/interface.go:47-52 | the fan-out stops at the first provider in iteration order whose lookup succeeds; no result means every lookup failed |
| `Providers.ProviderFor` | pkg/providers/interface.go:46-74 | success iff some registered provider's lookup succeeds; the provider returned is in the map, its lookup succeeds and no provider before it in iteration order succeeds; failure carries "provider not found for <kind> <id>" |
| `Providers.ProviderForImage` | pkg/providers/interface.go:46-54 | success iff some registered provider's `GetImage(id)` succeeds; the provider returned is in the map and its `GetImage(id)` succeeds; failure message "provider not found for image " + id |
| `Providers.ProviderForInstance` | pkg/providers/interface.go:56-64 | the same over `GetInstance`, failure message "provider not found for instance " + id |
| `Providers.ProviderForVolume` | pkg/providers/interface.go:66-74 | the same over `GetVolume`, failure message "provider not found for volume " + id |
| `Providers.EmptyRegistryNotFound` | pkg/providers/interface.go:46-74 | on an empty registry all three resolutions return their not-found errors |
| `Providers.SoleOwnerResolved` | pkg/providers/interface.go:46-54 | when only one provider knows the id, that provider is returned under every iteration order |
| `Providers.EveryOwnerCanWin` | pkg/providers/interface.go:47-51 | when several providers know the id, each is returned under some iteration order: collisions resolve to whichever is asked first |
| `Os.DrawTempName` | pkg/compilers/osv/osv_nodejs.go:45 | a temp file that is created did not exist before, is empty, and is named `<dir>/osv-boot.vmdk.<suffix>`; a failed creation changes no file |
| `Os.Host.ReadFile` | pkg/compilers/osv/osv_nodejs.go:25 | `ioutil.ReadFile`: the file's contents when it exists, otherwise a "no such file or directory" error; the host is untouched |
| `Os.Host.RunContainer` | pkg/compilers/osv/osv_nodejs.go:41 | `container.Run`: the invocation is logged, whatever it wrote through its mounts is applied (also when it fails), and its failure is reported, with the effect of `RunIn` |
| `Os.Host.Rename` | pkg/compilers/osv/osv_nodejs.go:55 | `os.Rename`: fails with no file changed when the source is missing, otherwise the destination holds the source's contents and the source is gone, with the effect of `RenameIn` |
| `Os.Host.Remove` | pkg/compilers/osv/osv_nodejs.go:51 | `os.Remove`, its error ignored: the path is gone and every other file is unchanged |
| `Os.Host.TempFile` | pkg/compilers/osv/osv_virtualbox.go:19 | `ioutil.TempFile` in place: draws suffixes until the name is unused, with the effect of `DrawTempName` |
| `OsvResultFile.DeferredCleanup` | pkg/compilers/osv/osv_nodejs.go:49-53 | the deferred closure removes the temp file exactly when the `err` it reads is non-nil and cleanup is on |
| `OsvResultFile.MoveToTemp` | pkg/compilers/osv/osv_nodejs.go:45-58 | temp file, deferred cleanup reading the function's `err` (TempFile's), shadowed rename; in place, with the effect of `MoveToTempIn` |
| `OsvResultFile.MoveToTempMoves` | pkg/compilers/osv/osv_nodejs.go:55-58 | with the output present: success moves it into a fresh `osv-boot.vmdk.` temp file and the old path is gone; otherwise the temp-file error and no file changed |
| `OsvResultFile.MoveToTempMissingSource` | pkg/compilers/osv/osv_nodejs.go:49-57 | with the output missing: the call fails, and after a rename failure the empty temp file remains even when cleanup is on |
| `OsvResultFile.MoveToTempLeaks` | pkg/compilers/osv/osv_virtualbox.go:23-30 | a concrete host where the call fails with cleanup on and a new file `/tmp/osv-boot.vmdk.1` remains |
| `OsvResultFile.CleanupNeverRuns` | pkg/compilers/osv/osv_nodejs.go:45-57 | as written, the step's result and host are the same whether `NoCleanup` is true or false |
| `OsvResultFile.MoveToTempIntendedIn` | pkg/compilers/osv/osv_virtualbox.go:19-30 | the step with the rename error reaching the closure: a success is a fresh `osv-boot.vmdk.` temp file, a failure with cleanup on leaves every file as it was, and no container runs |
| `OsvResultFile.IntendedCleanup` | pkg/compilers/osv/osv_virtualbox.go:23-27 | with the rename error reaching the closure, success is unchanged and a failure with cleanup on leaves every file as it was |
| `OsvResultFile.MoveToTempPreservesRuns` | pkg/compilers/osv/osv_nodejs.go:45-57 | the final step runs no container |
| `OsvNodeJs.NodeContainer` | pkg/compilers/osv/osv_nodejs.go:33-34 | the build container is `compilers-osv-nodejs`, mounts exactly `SourcesDir+"/"` at `/project_directory`, sets exactly `NODE_MAIN_FILE` to the manifest's `main_file`, and has no arguments |
| `OsvNodeJs.CreateImageNodeJS` | pkg/compilers/osv/osv_nodejs.go:21-59 | read, parse, container, temp file, rename, in place, with the effect of `CreateImageNodeJSIn` |
| `OsvNodeJs.NodeJsManifestMissing` | pkg/compilers/osv/osv_nodejs.go:25-28 | no manifest: error "failed to read manifest.yaml file", no container run, no file changed |
| `OsvNodeJs.NodeJsManifestMalformed` | pkg/compilers/osv/osv_nodejs.go:29-31 | a manifest that does not parse: error "failed to parse yaml manifest.yaml file", no container run, no file changed |
| `OsvNodeJs.NodeJsContainerCall` | pkg/compilers/osv/osv_nodejs.go:33-43 | a container runs iff the manifest was read and parsed, at most once; it is `compilers-osv-nodejs` with `SourcesDir+"/"` mounted at `/project_directory`, `NODE_MAIN_FILE` the unvalidated `main_file`, and no arguments |
| `OsvNodeJs.NodeJsContainerFails` | pkg/compilers/osv/osv_nodejs.go:41-43 | a failed build: error "failed running compilers-osv-nodejs on " + SourcesDir, no temp file drawn, and the files are exactly what the container left, partial output included |
| `OsvNodeJs.NodeJsSuccess` | pkg/compilers/osv/osv_nodejs.go:45-58 | on success the returned path is a fresh `osv-boot.vmdk.` temp file holding what `boot.qcow2` held after the build, and `boot.qcow2` is gone |
| `OsvNodeJs.NodeJsRenameFailureLeaks` | pkg/compilers/osv/osv_nodejs.go:49-57 | the build leaves no `boot.qcow2`: error "failed to rename result file", and the empty temp file remains even with cleanup on |
| `OsvVirtualbox.VirtualboxRawImage` | pkg/compilers/osv/osv_virtualbox.go:32-44 | the artifact keeps the given local path and declares QCOW2, one device mapping `/` on `/dev/sda1`, SATA and 512 MB |
| `OsvVirtualbox.Convert` | pkg/compilers/osv/osv_virtualbox.go:17-45 | temp file, deferred cleanup, rename, constant artifact, in place, with the effect of `ConvertIn` |
| `OsvVirtualbox.ConvertMovesImage` | pkg/compilers/osv/osv_virtualbox.go:19-33 | with Capstan's image present: "failed to create tmpfile for result" and no file changed, or an artifact whose `LocalImagePath` is a fresh temp file now holding the image, which is gone from its old path |
| `OsvVirtualbox.ConvertMissingImage` | pkg/compilers/osv/osv_virtualbox.go:19-30 | with Capstan's image missing: an error; after "failed to rename result file" the empty temp file remains even with cleanup on |
| `OsvVirtualbox.ConvertArtifactFixed` | pkg/compilers/osv/osv_virtualbox.go:32-44 | a returned artifact is QCOW2, maps exactly `/` to `/dev/sda1`, uses SATA and 512 MB |
| `OsvVirtualbox.ConvertSpecsIgnoreParams` | pkg/compilers/osv/osv_virtualbox.go:32-44 | two successful calls with any hosts and parameters return artifacts that differ only in `LocalImagePath` |

## Left out

- Provider operations other than the three `Get*` lookups (`Stage`, `RunInstance`, `DeleteImage`, the volume operations and the rest) are left out. They are only declared in `interface.go`, with no behaviour to model. `GetConfig` is the record's `config` field.
- The `Image`, `Instance`, `Volume`, `RawImage` and parameter types are cut down to the fields these files use.
- The vendored Photon Controller REST client is left out. It is HTTP and JSON plumbing.
- YAML decoding is an oracle from the manifest's bytes to a config or an error. Container execution is the host's engine, an oracle from the invocation to the files it writes through its mounts and whether it failed; a failed run may leave partial output.
- Logging and the commented-out container arguments are left out. They have no effect.
- Randomness in temp names is left out. `ioutil.TempFile` draws from a given supply of suffixes. Running out of suffixes stands for every way creation can fail. Go's cap of 10000 attempts is not modelled.
- `os.Rename` fails only when the source is missing. Cross-device and permission failures are not modelled.
- `os.Remove` errors are ignored, as the deferred closures ignore them.
- `filepath.Join` is modelled without `filepath.Clean`.
- The temp file that `ioutil.TempFile` opens is never closed. That descriptor is not modelled.
- An error is only its message. The cause that `errors.New(msg, cause)` wraps is not modelled.
- `useEc2Bootstrap` is accepted and ignored, as in the source.
- Concurrency is left out. Go's map iteration order is an explicit enumeration parameter instead.
- OsvNodeJs.NodeJsSuccess: excludes only the case where a temp name the host could still draw, `<tmp>/osv-boot.vmdk.<suffix>`, is exactly `<SourcesDir>/boot.qcow2`. If that file is missing, `ioutil.TempFile` can create it, and the rename of the new empty file onto itself succeeds, in Go as in the model.
- OsvNodeJs.NodeJsRenameFailureLeaks: excludes the same exact collision with `<SourcesDir>/boot.qcow2`, in which the call succeeds instead of failing.
- OsvResultFile.MoveToTempMissingSource: excludes the same exact collision with the source path.
- OsvVirtualbox.ConvertMissingImage: excludes the same exact collision with `CapstanImagePath`.

## Findings

| source | as written | input that shows it | evidently intended | confidence | as-written member | corrected member |
|---|---|---|---|---|---|---|
| pkg/compilers/osv/osv_nodejs.go:49-57 | the rename error is bound by `if err := os.Rename(...)`, which shadows the function's `err`, so the deferred cleanup reads nil and never removes the temp file | the build succeeds but writes no `boot.qcow2`, with `NoCleanup` false: the call fails and `/tmp/osv-boot.vmdk.<n>` remains | a failed call with cleanup on leaves no new temp file | high, not executed | `OsvNodeJs.NodeJsRenameFailureLeaks` | `OsvResultFile.IntendedCleanup` |
| pkg/compilers/osv/osv_virtualbox.go:23-30 | the same shadowed `err` in `Convert` | `CapstanImagePath` missing, `NoCleanup` false: the call fails and `/tmp/osv-boot.vmdk.1` remains | a failed call with cleanup on leaves every file as it was | high, not executed | `OsvResultFile.MoveToTempLeaks` | `OsvResultFile.IntendedCleanup` |

`CreateImageNodeJS` and `Convert` model the code as written; `CleanupNeverRuns`
states the bug for every input: as written, `NoCleanup` changes nothing. `MoveToTempIntendedIn`
is the corrected step, in which the rename's error reaches the deferred closure.
`IntendedCleanup` proves that it cleans up and that it agrees with the code on
success.
