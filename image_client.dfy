/** The image client of app/image.go: parsing the image reference, the
    session state (name, tag, staging directory, bearer token) and the pull
    pipeline authorize, then resolve, then download. */
module ImageClient {
  import opened Wrappers
  import opened Strings
  import opened Registry
  import opened Manifests
  import opened Layers

  datatype Reference = Reference(name: string, tag: string)

  /** newDockerImageClient's reading of the reference: a reference without ':'
      is a repository name with tag "latest"; one with ':' falls through both
      cases of the code and leaves name and tag empty. */
  function ParseReference(reference: string): (r: Reference)
    ensures ':' !in reference ==> r == Reference(reference, "latest")
    ensures ':' in reference ==> r == Reference("", "")
  {
    var parts := Split(reference, ':');
    SplitSinglePiece(reference, ':');
    if |parts| == 1 then Reference(parts[0], "latest") else Reference("", "")
  }

  /** The outcome of a whole pull, the token it stored (None if authorization
      failed) and everything it sent or wrote, in order. */
  datatype PullRun = PullRun(err: Option<Error>, token: Option<string>, trace: seq<Event>)

  /** Pull as a function of the session and the outside world. */
  function PullSpec(name: string, tag: string, dir: string, remote: Remote,
                    goos: string, goarch: string, save: Save): (r: PullRun)
    ensures |r.trace| >= 1 && r.trace[0] == Get(AuthRequest(name))
    ensures r.token.Some? ==> remote.getToken(AuthRequest(name)).Ok? && r.token.value == remote.getToken(AuthRequest(name)).value.token
    ensures r.err.None? ==> r.token.Some?
  {
    var auth := AuthRequest(name);
    match remote.getToken(auth)
    case Err(e) => PullRun(Some(AuthorizeFailed(e)), None, [Get(auth)])
    case Ok(t) =>
      var res := Resolve(name, tag, t.token, goos, goarch, remote.getManifest);
      var head := [Get(auth)] + Gets(res.sent);
      match res.result
      case Err(e) => PullRun(Some(e), Some(t.token), head)
      case Ok(layers) =>
        var run := PullLayersRun(name, t.token, dir, layers, remote.getBlob, save);
        PullRun(run.err, Some(t.token), head + run.trace)
  }

  /** A bare repository name is pulled at tag "latest". */
  lemma BareNameDefaultsToLatest()
    ensures ParseReference("busybox") == Reference("busybox", "latest")
  {
  }

  /** A "name:tag" reference is not split into its parts: both come out empty. */
  lemma NameWithTagLeftEmpty()
    ensures ParseReference("alpine:latest") == Reference("", "")
  {
    assert "alpine:latest"[6] == ':';
  }

  /** Authorization comes first, is sent without headers, and when it fails
      nothing else is sent and no token is stored. */
  lemma PullAuthorizesFirst(name: string, tag: string, dir: string, remote: Remote,
                            goos: string, goarch: string, save: Save)
    ensures var p := PullSpec(name, tag, dir, remote, goos, goarch, save);
      && |p.trace| >= 1 && p.trace[0] == Get(AuthRequest(name))
      && p.trace[0].req.headers == map[]
      && (remote.getToken(AuthRequest(name)).Err? <==> p.token.None?)
      && (remote.getToken(AuthRequest(name)).Err? ==>
            p.trace == [Get(AuthRequest(name))]
            && p.err == Some(AuthorizeFailed(remote.getToken(AuthRequest(name)).error)))
  {
  }

  /** The token stored by authorization is the one the token endpoint returned,
      and every later request, manifest or blob, sends it as "Bearer <token>". */
  lemma PullSendsStoredToken(name: string, tag: string, dir: string, remote: Remote,
                             goos: string, goarch: string, save: Save)
    ensures var p := PullSpec(name, tag, dir, remote, goos, goarch, save);
      p.token.Some? ==>
        && p.token.value == remote.getToken(AuthRequest(name)).value.token
        && forall i :: 1 <= i < |p.trace| && p.trace[i].Get? ==> CarriesToken(p.trace[i].req, p.token.value)
  {
    var p := PullSpec(name, tag, dir, remote, goos, goarch, save);
    if p.token.Some? {
      var token := p.token.value;
      var res := Resolve(name, tag, token, goos, goarch, remote.getManifest);
      var head := [Get(AuthRequest(name))] + Gets(res.sent);
      forall i | 1 <= i < |head|
        ensures head[i].Get? && CarriesToken(head[i].req, token)
      {
        assert head[i] == Get(res.sent[i - 1]);
      }
      if res.result.Ok? {
        var run := PullLayersRun(name, token, dir, res.result.value, remote.getBlob, save);
        PullLayersEvents(name, token, dir, res.result.value, remote.getBlob, save);
        assert p.trace == head + run.trace;
        forall i | |head| <= i < |p.trace| && p.trace[i].Get?
          ensures CarriesToken(p.trace[i].req, token)
        {
          assert p.trace[i] == run.trace[i - |head|];
          assert EventOfLayers(run.trace[i - |head|], name, token, dir, res.result.value);
        }
      }
    }
  }

  /** A failed resolution ends the pull with its error: after the token request
      only manifest requests were sent, no blob was requested and no file written. */
  lemma PullStopsAfterResolveError(name: string, tag: string, dir: string, remote: Remote,
                                   goos: string, goarch: string, save: Save)
    requires remote.getToken(AuthRequest(name)).Ok?
    requires Resolve(name, tag, remote.getToken(AuthRequest(name)).value.token, goos, goarch, remote.getManifest).result.Err?
    ensures var token := remote.getToken(AuthRequest(name)).value.token;
      var p := PullSpec(name, tag, dir, remote, goos, goarch, save);
      && p.err == Some(Resolve(name, tag, token, goos, goarch, remote.getManifest).result.error)
      && 2 <= |p.trace| <= 3
      && forall i :: 1 <= i < |p.trace| ==> p.trace[i].Get? && AcceptsManifestV2(p.trace[i].req)
  {
    var token := remote.getToken(AuthRequest(name)).value.token;
    var res := Resolve(name, tag, token, goos, goarch, remote.getManifest);
    var p := PullSpec(name, tag, dir, remote, goos, goarch, save);
    forall i | 1 <= i < |p.trace|
      ensures p.trace[i].Get? && AcceptsManifestV2(p.trace[i].req)
    {
      assert p.trace[i] == Get(res.sent[i - 1]);
    }
  }

  /** A successful pull resolved a non-empty layer list, requested every
      layer's blob at the blobs URL of its digest with the stored token, and
      saved each one at `<dir>/<digest>.tar`. */
  lemma PullSuccess(name: string, tag: string, dir: string, remote: Remote,
                    goos: string, goarch: string, save: Save)
    requires PullSpec(name, tag, dir, remote, goos, goarch, save).err.None?
    ensures var p := PullSpec(name, tag, dir, remote, goos, goarch, save);
      && p.token.Some?
      && var res := Resolve(name, tag, p.token.value, goos, goarch, remote.getManifest);
      && res.result.Ok? && |res.result.value| > 0
      && forall l :: l in res.result.value ==>
           && Get(BlobRequest(name, p.token.value, l.digest)) in p.trace
           && Store(LayerFilePath(dir, l.digest)) in p.trace
  {
    var p := PullSpec(name, tag, dir, remote, goos, goarch, save);
    var token := p.token.value;
    var res := Resolve(name, tag, token, goos, goarch, remote.getManifest);
    var layers := res.result.value;
    var head := [Get(AuthRequest(name))] + Gets(res.sent);
    var run := PullLayersRun(name, token, dir, layers, remote.getBlob, save);
    PullLayersSuccessTrace(name, token, dir, layers, remote.getBlob, save);
    assert p.trace == head + run.trace;
    forall l | l in layers
      ensures Get(BlobRequest(name, token, l.digest)) in p.trace
      ensures Store(LayerFilePath(dir, l.digest)) in p.trace
    {
      var i :| 0 <= i < |layers| && layers[i] == l;
      assert p.trace[|head| + 2 * i] == run.trace[2 * i];
      assert p.trace[|head| + 2 * i + 1] == run.trace[2 * i + 1];
    }
  }

  /** Once authorization and resolution succeed, the pull's outcome is the
      download's, and its events are the token request, the manifest
      requests and the download's events, in that order. */
  lemma PullDownloadStage(name: string, tag: string, dir: string, remote: Remote,
                          goos: string, goarch: string, save: Save)
    requires remote.getToken(AuthRequest(name)).Ok?
    requires Resolve(name, tag, remote.getToken(AuthRequest(name)).value.token, goos, goarch, remote.getManifest).result.Ok?
    ensures var token := remote.getToken(AuthRequest(name)).value.token;
      var res := Resolve(name, tag, token, goos, goarch, remote.getManifest);
      var run := PullLayersRun(name, token, dir, res.result.value, remote.getBlob, save);
      var p := PullSpec(name, tag, dir, remote, goos, goarch, save);
      && p.err == run.err
      && p.token == Some(token)
      && p.trace == [Get(AuthRequest(name))] + Gets(res.sent) + run.trace
  {
  }

  /** A pull succeeds exactly when authorization succeeds, resolution yields
      a layer list, and every layer's download and save succeeds. */
  lemma PullSucceedsIff(name: string, tag: string, dir: string, remote: Remote,
                        goos: string, goarch: string, save: Save)
    ensures PullSpec(name, tag, dir, remote, goos, goarch, save).err.None?
      <==> && remote.getToken(AuthRequest(name)).Ok?
           && var token := remote.getToken(AuthRequest(name)).value.token;
           var res := Resolve(name, tag, token, goos, goarch, remote.getManifest);
           && res.result.Ok?
           && forall i :: 0 <= i < |res.result.value| ==>
                LayerSucceeds(name, token, dir, res.result.value[i], remote.getBlob, save)
  {
    if remote.getToken(AuthRequest(name)).Ok? {
      var token := remote.getToken(AuthRequest(name)).value.token;
      var res := Resolve(name, tag, token, goos, goarch, remote.getManifest);
      if res.result.Ok? {
        PullLayersSucceedsIff(name, token, dir, res.result.value, remote.getBlob, save);
      }
    }
  }

  class DockerImageClient {
    const name: string
    const tag: string
    const dir: string
    var token: string
    /** Every request sent and every layer file written by this client. */
    ghost var Trace: seq<Event>

    constructor (reference: string, dir: string)
      ensures ':' !in reference ==> name == reference && tag == "latest"
      ensures ':' in reference ==> name == "" && tag == ""
      ensures this.dir == dir && token == "" && Trace == []
    {
      var r := ParseReference(reference);
      name, tag := r.name, r.tag;
      this.dir := dir;
      token := "";
      Trace := [];
    }

    /** authorize: ask the token endpoint, without headers, and keep the token. */
    method Authorize(remote: Remote) returns (err: Option<Error>)
      modifies this`token, this`Trace
      ensures Trace == old(Trace) + [Get(AuthRequest(name))]
      ensures remote.getToken(AuthRequest(name)).Ok? ==>
                err == None && token == remote.getToken(AuthRequest(name)).value.token
      ensures remote.getToken(AuthRequest(name)).Err? ==>
                err == Some(AuthorizeFailed(remote.getToken(AuthRequest(name)).error)) && token == old(token)
    {
      var req := AuthRequest(name);
      Trace := Trace + [Get(req)];
      var res := remote.getToken(req);
      if res.Err? {
        return Some(AuthorizeFailed(res.error));
      }
      token := res.value.token;
      return None;
    }

    method GetLayers(remote: Remote, goos: string, goarch: string) returns (layers: Result<seq<Layer>, Error>)
      modifies this`Trace
      ensures layers == Resolve(name, tag, token, goos, goarch, remote.getManifest).result
      ensures Trace == old(Trace) + Gets(Resolve(name, tag, token, goos, goarch, remote.getManifest).sent)
    {
      var req := ManifestRequest(name, tag, token);
      Trace := Trace + [Get(req)];
      var res := remote.getManifest(req);
      if res.Err? {
        return Err(GetLayersFailed(res.error));
      }
      if |res.value.manifests| > 0 {
        layers := GetLayersFromManifests(remote, res.value.manifests, goos, goarch);
        ghost var r := Resolve(name, tag, token, goos, goarch, remote.getManifest);
        assert Gets(r.sent) == [Get(req)] + Gets(r.sent[1..]);
        return;
      }
      if |res.value.layers| == 0 {
        return Err(NoLayersInManifest);
      }
      return Ok(res.value.layers);
    }

    method GetLayersFromManifests(remote: Remote, manifests: seq<Manifest>, goos: string, goarch: string)
      returns (layers: Result<seq<Layer>, Error>)
      modifies this`Trace
      ensures layers == ResolveFromList(name, token, manifests, goos, goarch, remote.getManifest).result
      ensures Trace == old(Trace) + Gets(ResolveFromList(name, token, manifests, goos, goarch, remote.getManifest).sent)
    {
      var manifest := FindArchMatchingManifest(manifests, goos, goarch);
      if manifest.Err? {
        return Err(NoManifestForPlatform(goos, goarch));
      }
      var req := ManifestRequest(name, manifest.value.digest, token);
      Trace := Trace + [Get(req)];
      var res := remote.getManifest(req);
      if res.Err? {
        return Err(GetLayersFromManifestsFailed(res.error));
      }
      if |res.value.layers| == 0 {
        return Err(NoLayersInImageManifest);
      }
      return Ok(res.value.layers);
    }

    /** pullLayers, one layer after another: request the blob, save it. */
    method PullLayers(layers: seq<Layer>, getBlob: Request -> Result<Blob, FetchError>, save: Save)
      returns (err: Option<Error>)
      modifies this`Trace
      ensures err == PullLayersRun(name, token, dir, layers, getBlob, save).err
      ensures Trace == old(Trace) + PullLayersRun(name, token, dir, layers, getBlob, save).trace
    {
      ghost var all := PullLayersRun(name, token, dir, layers, getBlob, save);
      var i := 0;
      while i < |layers|
        invariant 0 <= i <= |layers|
        invariant PullLayersRun(name, token, dir, layers[i..], getBlob, save).err == all.err
        invariant Trace + PullLayersRun(name, token, dir, layers[i..], getBlob, save).trace == old(Trace) + all.trace
      {
        var layer := layers[i];
        ghost var task := LayerTask(name, token, dir, layer, getBlob, save);
        ghost var rest := PullLayersRun(name, token, dir, layers[i + 1..], getBlob, save);
        assert layers[i..][0] == layer && layers[i..][1..] == layers[i + 1..];
        PullLayersRunStep(name, token, dir, layers[i..], getBlob, save);
        var req := BlobRequest(name, token, layer.digest);
        Trace := Trace + [Get(req)];
        var body := getBlob(req);
        if body.Err? {
          assert task.trace == [Get(req)];
          return Some(PullLayersFailed(body.error));
        }
        var path := LayerFilePath(dir, layer.digest);
        Trace := Trace + [Store(path)];
        assert task.trace == [Get(req), Store(path)];
        var saved := save(path, body.value);
        if saved.Some? {
          return Some(SaveLayerFailed(saved.value));
        }
        assert Trace + rest.trace == old(Trace) + all.trace;
        i := i + 1;
      }
      return None;
    }

    /** Pull: authorize, then resolve the layers, then download them, stopping
        at the first stage that fails. */
    method Pull(remote: Remote, goos: string, goarch: string, save: Save) returns (err: Option<Error>)
      modifies this`token, this`Trace
      ensures var p := PullSpec(name, tag, dir, remote, goos, goarch, save);
        && err == p.err
        && Trace == old(Trace) + p.trace
        && token == (if p.token.Some? then p.token.value else old(token))
    {
      err := Authorize(remote);
      if err.Some? {
        return;
      }
      var layers := GetLayers(remote, goos, goarch);
      if layers.Err? {
        return Some(layers.error);
      }
      err := PullLayers(layers.value, remote.getBlob, save);
    }
  }
}
