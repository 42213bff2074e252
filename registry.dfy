/** The registry protocol as the image client sees it (app/image.go):
    the JSON shapes it decodes, the URLs and headers it sends, the error
    labels it wraps failures in, and the outside world it talks to. */
module Registry {
  import opened Wrappers

  /** `Platform`: JSON keys "architecture" and "os". */
  datatype Platform = Platform(arch: string, os: string)

  /** One entry of a manifest list. */
  datatype Manifest = Manifest(platform: Platform, digest: string, mediaType: string)

  /** One filesystem layer blob of an image manifest. */
  datatype Layer = Layer(mediaType: string, size: int, digest: string)

  /** The single decode shape shared by manifest lists (`manifests`) and image
      manifests (`layers`); a key the body lacks decodes to an empty list. */
  datatype ManifestListResponse = ManifestListResponse(manifests: seq<Manifest>, layers: seq<Layer>)

  /** Body of the token endpoint; a missing "token" key decodes to "". */
  datatype TokenResponse = TokenResponse(token: string)

  /** An HTTP GET: its URL and the headers set on it. */
  datatype Request = Request(url: string, headers: map<string, string>)

  type Blob = seq<bv8>

  /** How a GET can fail: building the request, the round trip, a status
      other than 200, or a body that does not decode into the target shape. */
  datatype FetchError = NewRequestFailed | RequestFailed | BadStatus(code: int) | DecodeFailed

  /** How storing and unpacking a downloaded layer can fail. */
  datatype SaveError = CreateFailed | CopyFailed | ExtractFailed | RemoveFailed

  /** The errors the client returns, one per `fmt.Errorf` label. */
  datatype Error =
    | AuthorizeFailed(cause: FetchError)
    | GetLayersFailed(cause: FetchError)
    | NoLayersInManifest
    | NoMatchingManifest
    | NoManifestForPlatform(os: string, arch: string)
    | GetLayersFromManifestsFailed(cause: FetchError)
    | NoLayersInImageManifest
    | PullLayersFailed(cause: FetchError)
    | SaveLayerFailed(reason: SaveError)

  /** The network: what the registry answers to each request, already decoded
      into the shape the caller asks for. */
  datatype Remote = Remote(
    getToken: Request -> Result<TokenResponse, FetchError>,
    getManifest: Request -> Result<ManifestListResponse, FetchError>,
    getBlob: Request -> Result<Blob, FetchError>)

  /** The local filesystem and the `tar` process: the outcome of writing a blob
      to the given path, extracting it into the staging directory and removing it. */
  type Save = (string, Blob) -> Option<SaveError>

  /** What the client does to the outside world, in order. */
  datatype Event = Get(req: Request) | Store(path: string)

  const AuthUrlPrefix := "https://auth.docker.io/token?service=registry.docker.io&scope=repository:library/"
  const AuthUrlSuffix := ":pull"
  const LibraryUrl := "https://registry.hub.docker.com/v2/library/"
  const ManifestV2MediaType := "application/vnd.docker.distribution.manifest.v2+json"
  const LayerFileSuffix := ".tar"

  function AuthUrl(name: string): string
  {
    AuthUrlPrefix + name + AuthUrlSuffix
  }

  function ManifestsUrl(name: string, reference: string): string
  {
    LibraryUrl + name + "/manifests/" + reference
  }

  function BlobsUrl(name: string, digest: string): string
  {
    LibraryUrl + name + "/blobs/" + digest
  }

  function LayerFileName(digest: string): string
  {
    digest + LayerFileSuffix
  }

  /** Go's `path.Join(dir, file)` for two elements, without the final `path.Clean`. */
  function PathJoin(dir: string, file: string): string
  {
    if dir == "" then file else if file == "" then dir else dir + "/" + file
  }

  function LayerFilePath(dir: string, digest: string): string
  {
    PathJoin(dir, LayerFileName(digest))
  }

  function Bearer(token: string): string
  {
    "Bearer " + token
  }

  /** The token request is sent without headers. */
  function AuthRequest(name: string): (req: Request)
    ensures req.url == AuthUrl(name) && req.headers.Keys == {}
    ensures forall token :: !CarriesToken(req, token)
  {
    Request(AuthUrl(name), map[])
  }

  /** Every manifest request carries the bearer token and the fixed v2 Accept header. */
  function ManifestRequest(name: string, reference: string, token: string): (req: Request)
    ensures req.url == ManifestsUrl(name, reference)
    ensures req.headers.Keys == {"Authorization", "Accept"}
    ensures CarriesToken(req, token) && AcceptsManifestV2(req)
  {
    Request(ManifestsUrl(name, reference),
            map["Authorization" := Bearer(token), "Accept" := ManifestV2MediaType])
  }

  /** A blob request carries the bearer token only. */
  function BlobRequest(name: string, token: string, digest: string): (req: Request)
    ensures req.url == BlobsUrl(name, digest)
    ensures req.headers.Keys == {"Authorization"}
    ensures CarriesToken(req, token) && !AcceptsManifestV2(req)
  {
    Request(BlobsUrl(name, digest), map["Authorization" := Bearer(token)])
  }

  predicate CarriesToken(req: Request, token: string)
  {
    "Authorization" in req.headers && req.headers["Authorization"] == Bearer(token)
  }

  predicate AcceptsManifestV2(req: Request)
  {
    "Accept" in req.headers && req.headers["Accept"] == ManifestV2MediaType
  }

  /** The events of sending each request in turn. */
  function Gets(reqs: seq<Request>): (es: seq<Event>)
    ensures |es| == |reqs|
    ensures forall i :: 0 <= i < |reqs| ==> es[i] == Get(reqs[i])
  {
    if |reqs| == 0 then [] else [Get(reqs[0])] + Gets(reqs[1..])
  }

  lemma CancelMiddle(p: string, a: string, b: string, q: string)
    requires p + a + q == p + b + q
    ensures a == b
  {
    assert |a| == |b|;
    assert a == (p + a + q)[|p|..|p| + |a|];
    assert b == (p + b + q)[|p|..|p| + |b|];
  }

  /** Two requests for blobs of one repository go to the same URL only for the same digest. */
  lemma BlobsUrlInjective(name: string, d1: string, d2: string)
    requires BlobsUrl(name, d1) == BlobsUrl(name, d2)
    ensures d1 == d2
  {
    CancelMiddle(LibraryUrl + name + "/blobs/", d1, d2, "");
  }

  /** Distinct manifest references give distinct manifest URLs. */
  lemma ManifestsUrlInjective(name: string, r1: string, r2: string)
    requires ManifestsUrl(name, r1) == ManifestsUrl(name, r2)
    ensures r1 == r2
  {
    CancelMiddle(LibraryUrl + name + "/manifests/", r1, r2, "");
  }

  /** Layers with distinct digests are written to distinct files of one directory. */
  lemma LayerFilePathInjective(dir: string, d1: string, d2: string)
    requires LayerFilePath(dir, d1) == LayerFilePath(dir, d2)
    ensures d1 == d2
  {
    if dir == "" {
      assert "" + d1 + LayerFileSuffix == LayerFileName(d1);
      assert "" + d2 + LayerFileSuffix == LayerFileName(d2);
      CancelMiddle("", d1, d2, LayerFileSuffix);
    } else {
      assert dir + "/" + d1 + LayerFileSuffix == dir + "/" + LayerFileName(d1);
      assert dir + "/" + d2 + LayerFileSuffix == dir + "/" + LayerFileName(d2);
      CancelMiddle(dir + "/", d1, d2, LayerFileSuffix);
    }
  }

  /** Token requests for distinct repositories go to distinct URLs. */
  lemma AuthUrlInjective(n1: string, n2: string)
    requires AuthUrl(n1) == AuthUrl(n2)
    ensures n1 == n2
  {
    CancelMiddle(AuthUrlPrefix, n1, n2, AuthUrlSuffix);
  }

  /** The repository name sits between the fixed prefix and suffix of the token URL. */
  lemma AuthUrlShape(name: string)
    ensures var u := AuthUrl(name);
      && |u| == |AuthUrlPrefix| + |name| + |AuthUrlSuffix|
      && u[..|AuthUrlPrefix|] == AuthUrlPrefix
      && u[|AuthUrlPrefix|..|AuthUrlPrefix| + |name|] == name
      && u[|AuthUrlPrefix| + |name|..] == AuthUrlSuffix
  {
  }

  /** A manifest URL is the library URL, the repository name, "/manifests/"
      and, as its last segment, the tag or digest. */
  lemma ManifestsUrlShape(name: string, reference: string)
    ensures var u := ManifestsUrl(name, reference);
      && |u| == |LibraryUrl| + |name| + |"/manifests/"| + |reference|
      && u[..|LibraryUrl| + |name|] == LibraryUrl + name
      && u[|LibraryUrl| + |name|..|u| - |reference|] == "/manifests/"
      && u[|u| - |reference|..] == reference
  {
  }

  /** A blob URL is the library URL, the repository name, "/blobs/" and, as
      its last segment, the digest. */
  lemma BlobsUrlShape(name: string, digest: string)
    ensures var u := BlobsUrl(name, digest);
      && |u| == |LibraryUrl| + |name| + |"/blobs/"| + |digest|
      && u[..|LibraryUrl| + |name|] == LibraryUrl + name
      && u[|LibraryUrl| + |name|..|u| - |digest|] == "/blobs/"
      && u[|u| - |digest|..] == digest
  {
  }

  /** A layer is saved as `<digest>.tar` directly inside a non-empty `dir`,
      and as `<digest>.tar` alone when `dir` is empty. */
  lemma LayerFilePathShape(dir: string, digest: string)
    ensures var f := LayerFileName(digest);
      && |f| == |digest| + 4 && f[..|digest|] == digest && f[|digest|..] == ".tar"
    ensures var p := LayerFilePath(dir, digest);
      && (dir != "" ==> |p| == |dir| + 1 + |digest| + 4
                        && p[..|dir| + 1] == dir + "/" && p[|dir| + 1..] == LayerFileName(digest))
      && (dir == "" ==> p == LayerFileName(digest))
  {
  }
}
