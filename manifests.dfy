/** Manifest resolution (app/image.go, getLayers, getLayersFromManifests and
    findArchMatchingManifest): from an image reference to the list of layers
    for the running platform, following the "Manifest List" and "Image
    Manifest" sections of Docker's Image Manifest Version 2, Schema 2.
    The registry is the oracle `get`; `goos`/`goarch` stand for
    `runtime.GOOS`/`runtime.GOARCH`. */
module Manifests {
  import opened Wrappers
  import opened Registry

  predicate Matches(m: Manifest, goos: string, goarch: string)
  {
    m.platform.os == goos && m.platform.arch == goarch
  }

  /** Position of the first entry built for `goos`/`goarch`, if there is one. */
  function FirstMatch(ms: seq<Manifest>, goos: string, goarch: string): (k: Option<nat>)
    ensures k.Some? ==> k.value < |ms| && Matches(ms[k.value], goos, goarch)
    ensures k.Some? ==> forall j :: 0 <= j < k.value ==> !Matches(ms[j], goos, goarch)
    ensures k.None? <==> forall j :: 0 <= j < |ms| ==> !Matches(ms[j], goos, goarch)
  {
    if |ms| == 0 then None
    else if Matches(ms[0], goos, goarch) then Some(0)
    else
      match FirstMatch(ms[1..], goos, goarch)
      case None =>
        assert forall j :: 1 <= j < |ms| ==> ms[j] == ms[1..][j - 1];
        None
      case Some(k) =>
        assert forall j :: 1 <= j < k + 1 ==> ms[j] == ms[1..][j - 1];
        Some(k + 1)
  }

  /** What findArchMatchingManifest returns: the first entry matching both the
      OS and the architecture, or an error when no entry matches both. */
  function ArchMatch(ms: seq<Manifest>, goos: string, goarch: string): (r: Result<Manifest, Error>)
    ensures r.Err? <==> forall j :: 0 <= j < |ms| ==> !Matches(ms[j], goos, goarch)
    ensures r.Err? ==> r.error == NoMatchingManifest
    ensures r.Ok? ==> exists k :: 0 <= k < |ms| && ms[k] == r.value && Matches(ms[k], goos, goarch)
                                  && forall j :: 0 <= j < k ==> !Matches(ms[j], goos, goarch)
  {
    match FirstMatch(ms, goos, goarch)
    case Some(k) => Ok(ms[k])
    case None => Err(NoMatchingManifest)
  }

  /** The linear search with early return of findArchMatchingManifest. */
  method FindArchMatchingManifest(ms: seq<Manifest>, goos: string, goarch: string)
    returns (r: Result<Manifest, Error>)
    ensures r == ArchMatch(ms, goos, goarch)
  {
    for i := 0 to |ms|
      invariant forall j :: 0 <= j < i ==> !Matches(ms[j], goos, goarch)
    {
      if Matches(ms[i], goos, goarch) {
        return Ok(ms[i]);
      }
    }
    return Err(NoMatchingManifest);
  }

  /** The outcome of a resolution and the manifest requests it sent, in order. */
  datatype Resolution = Resolution(result: Result<seq<Layer>, Error>, sent: seq<Request>)

  /** getLayersFromManifests: pick the platform entry, re-fetch the manifest
      by its digest, and insist on a non-empty layer list. */
  function ResolveFromList(name: string, token: string, ms: seq<Manifest>, goos: string, goarch: string,
                           get: Request -> Result<ManifestListResponse, FetchError>): (r: Resolution)
    ensures |r.sent| <= 1
    ensures forall i :: 0 <= i < |r.sent| ==> CarriesToken(r.sent[i], token) && AcceptsManifestV2(r.sent[i])
    ensures r.result.Ok? ==> |r.result.value| > 0
  {
    match ArchMatch(ms, goos, goarch)
    case Err(_) => Resolution(Err(NoManifestForPlatform(goos, goarch)), [])
    case Ok(m) =>
      var req := ManifestRequest(name, m.digest, token);
      match get(req)
      case Err(e) => Resolution(Err(GetLayersFromManifestsFailed(e)), [req])
      case Ok(res) =>
        if |res.layers| == 0 then Resolution(Err(NoLayersInImageManifest), [req])
        else Resolution(Ok(res.layers), [req])
  }

  /** getLayers: fetch the manifest for `name`/`tag`; a non-empty manifest list
      is resolved through its platform entry, otherwise the top-level layers
      are the answer. */
  function Resolve(name: string, tag: string, token: string, goos: string, goarch: string,
                   get: Request -> Result<ManifestListResponse, FetchError>): (r: Resolution)
    ensures 1 <= |r.sent| <= 2 && r.sent[0] == ManifestRequest(name, tag, token)
    ensures forall i :: 0 <= i < |r.sent| ==> CarriesToken(r.sent[i], token) && AcceptsManifestV2(r.sent[i])
    ensures r.result.Ok? ==> |r.result.value| > 0
  {
    var req := ManifestRequest(name, tag, token);
    match get(req)
    case Err(e) => Resolution(Err(GetLayersFailed(e)), [req])
    case Ok(res) =>
      if |res.manifests| > 0 then
        var fromList := ResolveFromList(name, token, res.manifests, goos, goarch, get);
        Resolution(fromList.result, [req] + fromList.sent)
      else if |res.layers| == 0 then Resolution(Err(NoLayersInManifest), [req])
      else Resolution(Ok(res.layers), [req])
  }

  /** A failed first fetch ends the resolution with that failure, after one request. */
  lemma FirstFetchFails(name: string, tag: string, token: string, goos: string, goarch: string,
                        get: Request -> Result<ManifestListResponse, FetchError>)
    requires get(ManifestRequest(name, tag, token)).Err?
    ensures Resolve(name, tag, token, goos, goarch, get).result
            == Err(GetLayersFailed(get(ManifestRequest(name, tag, token)).error))
    ensures |Resolve(name, tag, token, goos, goarch, get).sent| == 1
  {
  }

  /** Direct case: an image manifest yields its top-level layers unchanged, and
      fails exactly when they are empty; nothing else is fetched. */
  lemma DirectManifest(name: string, tag: string, token: string, goos: string, goarch: string,
                       get: Request -> Result<ManifestListResponse, FetchError>, res: ManifestListResponse)
    requires get(ManifestRequest(name, tag, token)) == Ok(res)
    requires |res.manifests| == 0
    ensures var r := Resolve(name, tag, token, goos, goarch, get);
      && r.sent == [ManifestRequest(name, tag, token)]
      && (r.result.Err? <==> |res.layers| == 0)
      && (r.result.Err? ==> r.result.error == NoLayersInManifest)
      && (r.result.Ok? ==> r.result.value == res.layers)
  {
  }

  /** List case with a platform match: the second request asks for the matched
      entry's digest with the fixed v2 Accept header (not the entry's own media
      type), and its layers are returned unchanged unless they are empty. */
  lemma ListManifestMatched(name: string, tag: string, token: string, goos: string, goarch: string,
                            get: Request -> Result<ManifestListResponse, FetchError>, res: ManifestListResponse)
    requires get(ManifestRequest(name, tag, token)) == Ok(res)
    requires |res.manifests| > 0
    requires ArchMatch(res.manifests, goos, goarch).Ok?
    ensures var m := ArchMatch(res.manifests, goos, goarch).value;
      var second := ManifestRequest(name, m.digest, token);
      var r := Resolve(name, tag, token, goos, goarch, get);
      && Matches(m, goos, goarch)
      && r.sent == [ManifestRequest(name, tag, token), second]
      && second.url == ManifestsUrl(name, m.digest)
      && second.headers["Accept"] == ManifestV2MediaType
      && (r.result.Ok? <==> get(second).Ok? && |get(second).value.layers| > 0)
      && (r.result.Ok? ==> r.result.value == get(second).value.layers)
      && (get(second).Err? ==> r.result == Err(GetLayersFromManifestsFailed(get(second).error)))
      && (get(second).Ok? && |get(second).value.layers| == 0 ==> r.result == Err(NoLayersInImageManifest))
  {
  }

  /** List case without a platform match: an error naming the platform, and no
      second request. */
  lemma ListManifestUnmatched(name: string, tag: string, token: string, goos: string, goarch: string,
                              get: Request -> Result<ManifestListResponse, FetchError>, res: ManifestListResponse)
    requires get(ManifestRequest(name, tag, token)) == Ok(res)
    requires |res.manifests| > 0
    requires forall j :: 0 <= j < |res.manifests| ==> !Matches(res.manifests[j], goos, goarch)
    ensures Resolve(name, tag, token, goos, goarch, get)
            == Resolution(Err(NoManifestForPlatform(goos, goarch)), [ManifestRequest(name, tag, token)])
  {
  }

  /** When the first answer is a non-empty manifest list, its top-level
      `layers` play no part: two registries that differ only there resolve alike.
      (The matched digest must name a different manifest than the tag, or the
      second request would be the first one again.) */
  lemma ListIgnoresTopLevelLayers(name: string, tag: string, token: string, goos: string, goarch: string,
                                  get1: Request -> Result<ManifestListResponse, FetchError>,
                                  get2: Request -> Result<ManifestListResponse, FetchError>,
                                  ms: seq<Manifest>, layers1: seq<Layer>, layers2: seq<Layer>)
    requires |ms| > 0
    requires get1(ManifestRequest(name, tag, token)) == Ok(ManifestListResponse(ms, layers1))
    requires get2(ManifestRequest(name, tag, token)) == Ok(ManifestListResponse(ms, layers2))
    requires forall q :: q != ManifestRequest(name, tag, token) ==> get1(q) == get2(q)
    requires ArchMatch(ms, goos, goarch).Ok? ==> ArchMatch(ms, goos, goarch).value.digest != tag
    ensures Resolve(name, tag, token, goos, goarch, get1) == Resolve(name, tag, token, goos, goarch, get2)
  {
    match ArchMatch(ms, goos, goarch)
    case Err(_) =>
    case Ok(m) =>
      ManifestsUrlDiffer(name, m.digest, tag, token);
  }

  lemma ManifestsUrlDiffer(name: string, r1: string, r2: string, token: string)
    requires r1 != r2
    ensures ManifestRequest(name, r1, token) != ManifestRequest(name, r2, token)
  {
    if ManifestRequest(name, r1, token) == ManifestRequest(name, r2, token) {
      ManifestsUrlInjective(name, r1, r2);
    }
  }

  /** A two-platform list for linux/amd64 and linux/arm64, resolved on
      linux/amd64, yields the layers of the amd64 image manifest. */
  lemma TwoPlatformListScenario(l1: Layer, l2: Layer, l3: Layer)
    ensures
      var list := ManifestListResponse(
        [Manifest(Platform("amd64", "linux"), "sha256:a", ManifestV2MediaType),
         Manifest(Platform("arm64", "linux"), "sha256:b", ManifestV2MediaType)], []);
      var image := ManifestListResponse([], [l1, l2, l3]);
      var get := (q: Request) =>
        if q == ManifestRequest("alpine", "latest", "t") then Ok(list)
        else if q == ManifestRequest("alpine", "sha256:a", "t") then Ok(image)
        else Err(BadStatus(404));
      Resolve("alpine", "latest", "t", "linux", "amd64", get).result == Ok([l1, l2, l3])
  {
    ManifestsUrlDiffer("alpine", "sha256:a", "latest", "t");
  }
}
