# A model of the image client of a small container runner

The program pulls one image from Docker Hub, unpacks its layers into a fresh
staging directory, restricts the root to that directory and runs one command
in a new process-ID namespace: `run <image> <command> <args...>`.  This
project models the decision logic of that pipeline in Dafny and proves what
it does:

- **Image reference parsing** (`ImageClient.ParseReference`, the client's
  constructor): the reference is split on `:` with Go's `strings.Split`
  (`Strings.Split`, proved against its inverse `Strings.Join`).
- **Manifest resolution** (module `Manifests`): the first fetch of
  `/v2/library/<name>/manifests/<tag>` either returns a manifest list, from
  which the entry for the running OS and architecture is chosen and fetched
  again by digest, or an image manifest whose `layers` are used directly.
  This follows the "Manifest List" and "Image Manifest" sections of Docker's
  Image Manifest Version 2, Schema 2.
- **Layer download** (module `Layers`): one blob request per layer and one
  file `<dir>/<digest>.tar` per layer.
- **Session state and sequencing** (class `ImageClient.DockerImageClient`):
  the token is stored once by `Authorize` and sent as `Bearer <token>` on every
  later request; `Pull` runs authorize, resolve and download and stops at the
  first error.  A ghost `Trace` records every request sent and every file
  written, and `ImageClient.PullSpec` states a whole pull as a function.
- **The command line** (module `Cli`): `parseArgs`, the order of the stages of
  `main` and the exit status each outcome leads to (`Cli.Run`, specified by
  `Cli.MainOutcome`).

The outside world is a parameter.  `Registry.Remote` holds three oracles,
each a function from a request (URL and headers) to a decoded response or a
fetch error: the token endpoint, the manifest endpoint and the blob endpoint.
`Registry.Save` gives the outcome of writing, extracting and removing one
layer file.  `Cli.Host` holds the values of `runtime.GOOS` and
`runtime.GOARCH`, the outcome of creating the temporary directory, of the
root restriction in app/process.go and of running the child.

Where the code departs from the conventions it works with, the model follows
the code:

- Docker image references have the form `name:tag`, but a reference
  containing `:` (such as `alpine:latest`) is not split into name and tag.
  The code handles only the one-piece case, so name and tag are both left
  empty (`ImageClient.NameWithTagLeftEmpty`).
- A manifest list entry carries its own `mediaType`, but the second manifest
  request uses the fixed `application/vnd.docker.distribution.manifest.v2+json`
  Accept header (`Manifests.ListManifestMatched`).
- A manifest list is expected to hold one entry per platform. When several
  entries match, the first one wins (`Manifests.ArchMatch`).
- A child that never starts, or that is killed by a signal, makes `main` exit
  with `cmd.ProcessState.ExitCode()`, which is -1 in both cases.

## Model

| member | source | states |
|---|---|---|
| `Strings.Split` | app/image.go:38 | Splitting gives at least one piece. No piece contains the separator. Joining the pieces with the separator gives back the input. |
| `Strings.SplitSinglePiece` | app/image.go:38-40 | Splitting gives exactly one piece if and only if the separator does not occur in the input. |
| `Strings.SplitJoin` | app/image.go:38 | Splitting undoes joining whenever no piece contains the separator. |
| `ImageClient.ParseReference` | app/image.go:37-50 | A reference without `:` gives name = the whole reference and tag `latest`. A reference with `:` gives an empty name and an empty tag. |
| `ImageClient.BareNameDefaultsToLatest` | app/image.go:40-43 | `busybox` is pulled as name `busybox` at tag `latest`. |
| `ImageClient.NameWithTagLeftEmpty` | app/image.go:39-43 | `alpine:latest` leaves both name and tag empty. |
| `ImageClient.DockerImageClient.constructor` | app/image.go:37-50 | The new client holds the parsed name and tag and the directory unchanged. Its token starts empty and nothing has been sent. |
| `Registry.AuthUrlShape` | app/image.go:23 | The token URL is the fixed prefix, then the repository name, then `:pull`. |
| `Registry.ManifestsUrlShape` | app/image.go:24 | A manifest URL is the library URL and the repository name, then `/manifests/`, then the tag or digest as its last segment. |
| `Registry.BlobsUrlShape` | app/image.go:25 | A blob URL is the library URL and the repository name, then `/blobs/`, then the digest as its last segment. |
| `Registry.LayerFilePathShape` | app/image.go:186-188 | A layer file is named `<digest>.tar`. It lies directly inside a non-empty staging directory, after one `/`. |
| `Registry.AuthRequest` | app/image.go:90-92 | The token request goes to the token URL with no headers, so it carries no bearer token. |
| `Registry.ManifestRequest` | app/image.go:100-104 | A manifest request goes to the manifest URL. It has exactly the `Authorization: Bearer <token>` and the v2 `Accept` headers. |
| `Registry.BlobRequest` | app/image.go:159-164 | A blob request goes to the blob URL of the digest. It has only the `Authorization: Bearer <token>` header, and no Accept header. |
| `Registry.AuthUrlInjective` | app/image.go:23 | Token URLs of two repositories are equal only for the same repository name. |
| `Registry.ManifestsUrlInjective` | app/image.go:24 | Two manifest URLs of one repository are equal only for the same tag or digest. |
| `Registry.BlobsUrlInjective` | app/image.go:159 | Two blob URLs of one repository are equal only for the same digest. |
| `Registry.LayerFilePathInjective` | app/image.go:186-188 | Layers with distinct digests are saved to distinct files of the staging directory. |
| `Manifests.FirstMatch` | app/image.go:142-149 | The index found holds an entry whose OS and architecture both match, and no earlier entry matches both. No index is found if and only if no entry matches both. |
| `Manifests.ArchMatch` | app/image.go:142-149 | It fails, with the "no matching manifest" error, if and only if no entry matches both fields. Otherwise it returns the first entry whose OS and architecture both match. |
| `Manifests.FindArchMatchingManifest` | app/image.go:142-149 | The linear search with early return produces exactly `ArchMatch`. |
| `Manifests.ResolveFromList` | app/image.go:122-140 | At most one request is sent, carrying the bearer token and the v2 Accept header. A successful result is non-empty. |
| `Manifests.Resolve` | app/image.go:99-120 | The first request is the manifest request for name and tag, and one or two requests are sent. Every request carries `Bearer <token>` and the v2 Accept header. Every successful resolution is non-empty. |
| `Manifests.FirstFetchFails` | app/image.go:105-108 | A failed first fetch ends resolution with that fetch error, after one request. |
| `Manifests.DirectManifest` | app/image.go:116-119 | With an empty `manifests` list, only one request is sent. The result fails with "no layers found in manifest" exactly when `layers` is empty, and otherwise is `layers` unchanged. |
| `Manifests.ListManifestMatched` | app/image.go:123-139 | The second request is for the matched entry's digest with the fixed v2 Accept header. The result is that response's `layers` unchanged when they are non-empty. It fails with the fetch error, or with "no layers found in image manifest" when the layers are empty. |
| `Manifests.ListManifestUnmatched` | app/image.go:123-126 | With no platform match, the error names the OS and architecture tried, and no second request is sent. |
| `Manifests.ListIgnoresTopLevelLayers` | app/image.go:109-115 | When the first answer has a non-empty `manifests` list, its top-level `layers` have no effect on the resolution. |
| `Manifests.TwoPlatformListScenario` | app/image.go:99-140 | A linux/amd64 + linux/arm64 list resolved on linux/amd64 yields the three layers of the amd64 manifest. |
| `Layers.LayerTask` | app/image.go:154-177 | A layer's task first requests the blob URL of its digest with the bearer token. It saves the body at `<dir>/<digest>.tar` exactly when the fetch succeeded. A failed fetch gives a pull-layers error. Otherwise the result is a save-layer error when saving fails, and success when it does not. |
| `Layers.PullLayersRun` | app/image.go:151-184 | At most two events per layer. Exactly two per layer on success. When there are layers, the first event is the first layer's blob request. |
| `Layers.PullLayersSucceedsIff` | app/image.go:151-184 | Downloading succeeds if and only if every layer's fetch and save succeed. |
| `Layers.PullLayersFirstError` | app/image.go:180-182 | A failed download reports the error of a failing layer, and every layer before it succeeded. |
| `Layers.PullLayersSuccessTrace` | app/image.go:153-188 | A successful download sends one blob request per layer, in order, each followed by saving that layer at `<dir>/<digest>.tar`. |
| `Layers.PullLayersEvents` | app/image.go:159-188 | Every request a download sends is the blob request of one of its layers and carries the token. Every file it writes is one of its layers' files. |
| `ImageClient.DockerImageClient.Authorize` | app/image.go:89-97 | One header-less request goes to the token URL. On success the token field becomes the returned token. On failure it stays unchanged and the error is wrapped as an authorize error. |
| `ImageClient.DockerImageClient.GetLayers` | app/image.go:99-120 | Returns `Resolve`'s result and appends exactly the requests `Resolve` sends. |
| `ImageClient.DockerImageClient.GetLayersFromManifests` | app/image.go:122-140 | Returns `ResolveFromList`'s result and appends exactly the requests it sends. |
| `ImageClient.DockerImageClient.PullLayers` | app/image.go:151-184 | The loop over the layers returns `PullLayersRun`'s outcome and appends exactly its events. |
| `ImageClient.DockerImageClient.Pull` | app/image.go:78-87 | The outcome, the new events and the new token are those of `PullSpec`. |
| `ImageClient.PullSpec` | app/image.go:78-87 | A pull starts with the token request. Any token it stores is the one the token endpoint returned. A pull succeeds only after storing a token. |
| `ImageClient.PullAuthorizesFirst` | app/image.go:78-97 | The first event is the header-less token request. When it fails, nothing else is sent, no token is stored and the authorize error is returned. |
| `ImageClient.PullSendsStoredToken` | app/image.go:95-164 | The stored token is the one the token endpoint returned. Every later manifest or blob request sends it as `Bearer <token>`. |
| `ImageClient.PullStopsAfterResolveError` | app/image.go:82-85 | A failed resolution is the pull's error. Only manifest requests follow the token request: no blob is requested and no file is written. |
| `ImageClient.PullSuccess` | app/image.go:78-87 | A successful pull resolved a non-empty layer list. It requested every layer's blob with the stored token and wrote every layer to `<dir>/<digest>.tar`. That each of those writes succeeded is `PullSucceedsIff`. |
| `ImageClient.PullDownloadStage` | app/image.go:78-87 | Once authorization and resolution succeed, the pull's error is the download's error and the endpoint's token is stored. Its events are the token request, then the manifest requests, then the download's events. |
| `ImageClient.PullSucceedsIff` | app/image.go:78-87 | A pull succeeds exactly when the token fetch succeeds, resolution yields a layer list, and every layer's task succeeds. |
| `Cli.ParseArgs` | app/main.go:46-51 | The leading word, then the image reference and the command, then the command arguments, rebuild the input. There are `len(args) - 3` command arguments. |
| `Cli.ParseUnparse` | app/main.go:46-51 | Parsing the argument list built for an invocation gives that invocation back. |
| `Cli.UnparseParse` | app/main.go:46-51 | Rebuilding the argument list from what was parsed gives the input back. |
| `Cli.ParseArgsIgnoresVerb` | app/main.go:46-50 | The leading word (`run`) is never inspected. |
| `Cli.ExitCode` | app/main.go:42 | An exited child gives its own code. A signal, or a child that never started, gives -1. The code is 0 exactly for a clean exit. |
| `Cli.MainOutcome` | app/main.go:14-44 | The run always starts by creating the temporary directory and enters at most four stages. Status 0 comes only after a launch. After a launch the status is the child's exit code. |
| `Cli.Run` | app/main.go:14-44 | `main`'s sequence produces exactly `MainOutcome`: the exit status and the stages entered. |
| `Cli.MainIgnoresProgramAndVerb` | app/main.go:15 | The program name and the `run` word do not affect the run, because `main` drops `os.Args[0]` and `parseArgs` skips the next word. |
| `Cli.FailureBeforeLaunchExitsOne` | app/main.go:16-31 | The stages run in the fixed order and stop at the first failure. A run that never launches exits with status 1. The run stops after the first stage exactly when the temporary directory cannot be created. |
| `Cli.PullFailureStopsRun` | app/main.go:21-43 | The image pulled is the third process argument, into the new directory. The root is restricted exactly when the pull succeeded. A failed pull exits with status 1. The command is launched exactly when both the pull and the root restriction succeeded. |
| `Cli.LaunchedExitStatus` | app/main.go:32-43 | After launch, the status is the child's exit code (-1 without one). It is 0 exactly for a clean exit. |

## Left out

- `doGet` (app/image.go:209-229): building the HTTP request, the round trip, the status check and JSON decoding are the `Registry.Remote` oracles. Their failures are the four `FetchError` cases. The blob endpoint shares this error type, but the blob path (app/image.go:160-172) never decodes, so in the source it can fail only on building the request, the round trip or the status; `DecodeFailed` from `getBlob` has no counterpart there.
- The `http.Client` field of the client: it is the transport, which the oracles replace.
- Layers.PullLayersRun: runs the layer tasks one after another in manifest order and stops at the first failure. The source runs them concurrently under an errgroup whose cancellation only stops tasks that have not started. So after a failure, more blob requests may still be sent, and which task's error is reported is not determined. Two layers with the same digest share one `<digest>.tar`. In the source, their concurrent create, extract and remove can race and fail the pull. The sequential model, whose save outcome depends only on the path and the blob, need not fail there.
- Layers.PullLayersFirstError: states that the reported error is the first failing layer's, which holds for the sequential model only. The concurrent source may report any failing layer's error.
- Extraction order: the model's layers are saved in order. The source extracts them concurrently in no fixed order, and the model does not capture that.
- `saveLayer`/`extractLayer` (app/image.go:186-207): the buffered write, the external `tar` process and `os.Remove` are the `Registry.Save` oracle. File contents are not modelled.
- Registry.PathJoin: omits the final `path.Clean` of Go's `path.Join`. It agrees with Go when the directory is a clean path, as a temporary directory is, and the file name is a single path component. The code does not check that a digest returned by the registry is one component.
- Registry.LayerFilePathInjective: holds of the model's `PathJoin`, which does not clean paths. The source never checks the digests it is given. In Go, a digest containing `/` or `..` can make two digests share one file: `a/../b` and `b` both give `<dir>/b.tar`. It can also put the file outside the staging directory: `../x` gives a path next to `<dir>`. For digests that are one path component, such as `sha256:<hex>`, the model and Go agree.
- Registry.LayerFilePathShape: describes the model's path. For a digest containing `/` or `..`, Go's cleaned path may not lie directly inside the staging directory.
- app/process.go (`chroot`, `copyFile`): copying the executable, creating `dev/null` and `syscall.Chroot` are the `Host.chroot` outcome.
- Process launch in `main` (app/main.go:32-43): the standard streams, `CLONE_NEWPID` and the child itself are the `Host.launch` outcome. `os.MkdirTemp` is the `Host.tempDir` outcome. Printing of errors is not modelled.
- Cli.Run: reports the value passed to `os.Exit`. The operating system keeps only its low 8 bits, so the -1 of a child without an exit code appears to the parent shell as 255.
- The closures in `pullLayers` are taken to capture each iteration's own `layer`, as with per-iteration loop variables (Go 1.22 and later). The module file that fixes the Go version is not part of this model.
- A short argument list: `parseArgs` panics when given fewer than three words. `Cli.ParseArgs` and `Cli.MainOutcome` take that as a precondition.
