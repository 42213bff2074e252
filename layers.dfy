/** Layer download (app/image.go, pullLayers and saveLayer): one blob request
    per layer at the blobs URL of its digest, each body saved under
    `<dir>/<digest>.tar` and unpacked.  The tasks are taken one after another
    in manifest order and the first failure stops the rest. */
module Layers {
  import opened Wrappers
  import opened Registry

  /** The outcome of a stretch of work and the events it produced. */
  datatype Run = Run(err: Option<Error>, trace: seq<Event>)

  /** One layer's task: fetch the blob, then save and extract it. */
  function LayerTask(name: string, token: string, dir: string, layer: Layer,
                     getBlob: Request -> Result<Blob, FetchError>, save: Save): (r: Run)
    ensures 1 <= |r.trace| <= 2 && r.trace[0] == Get(BlobRequest(name, token, layer.digest))
    ensures |r.trace| == 2 <==> getBlob(BlobRequest(name, token, layer.digest)).Ok?
    ensures |r.trace| == 2 ==> r.trace[1] == Store(LayerFilePath(dir, layer.digest))
    ensures var body := getBlob(BlobRequest(name, token, layer.digest));
      && (body.Err? ==> r.err == Some(PullLayersFailed(body.error)))
      && (body.Ok? ==> r.err == match save(LayerFilePath(dir, layer.digest), body.value)
                              case Some(e) => Some(SaveLayerFailed(e))
                              case None => None)
  {
    var req := BlobRequest(name, token, layer.digest);
    match getBlob(req)
    case Err(e) => Run(Some(PullLayersFailed(e)), [Get(req)])
    case Ok(body) =>
      var path := LayerFilePath(dir, layer.digest);
      match save(path, body)
      case Some(e) => Run(Some(SaveLayerFailed(e)), [Get(req), Store(path)])
      case None => Run(None, [Get(req), Store(path)])
  }

  predicate LayerSucceeds(name: string, token: string, dir: string, layer: Layer,
                          getBlob: Request -> Result<Blob, FetchError>, save: Save)
  {
    LayerTask(name, token, dir, layer, getBlob, save).err.None?
  }

  /** pullLayers, taken sequentially: the layers' tasks in order, up to and
      including the first one that fails. */
  function PullLayersRun(name: string, token: string, dir: string, layers: seq<Layer>,
                         getBlob: Request -> Result<Blob, FetchError>, save: Save): (r: Run)
    ensures |r.trace| <= 2 * |layers|
    ensures r.err.None? ==> |r.trace| == 2 * |layers|
    ensures |layers| > 0 ==> |r.trace| >= 1 && r.trace[0] == Get(BlobRequest(name, token, layers[0].digest))
  {
    if |layers| == 0 then Run(None, [])
    else
      var first := LayerTask(name, token, dir, layers[0], getBlob, save);
      if first.err.Some? then first
      else
        var rest := PullLayersRun(name, token, dir, layers[1..], getBlob, save);
        Run(rest.err, first.trace + rest.trace)
  }

  /** One step of the download: the first layer's task, then the rest if it succeeded. */
  lemma PullLayersRunStep(name: string, token: string, dir: string, layers: seq<Layer>,
                          getBlob: Request -> Result<Blob, FetchError>, save: Save)
    requires |layers| > 0
    ensures var first := LayerTask(name, token, dir, layers[0], getBlob, save);
      var rest := PullLayersRun(name, token, dir, layers[1..], getBlob, save);
      PullLayersRun(name, token, dir, layers, getBlob, save)
      == if first.err.Some? then first else Run(rest.err, first.trace + rest.trace)
  {
  }

  /** The download succeeds exactly when every layer's task succeeds. */
  lemma {:induction false} PullLayersSucceedsIff(name: string, token: string, dir: string, layers: seq<Layer>,
                                                 getBlob: Request -> Result<Blob, FetchError>, save: Save)
    ensures PullLayersRun(name, token, dir, layers, getBlob, save).err.None?
            <==> forall i :: 0 <= i < |layers| ==> LayerSucceeds(name, token, dir, layers[i], getBlob, save)
  {
    if |layers| > 0 {
      PullLayersSucceedsIff(name, token, dir, layers[1..], getBlob, save);
      assert forall i :: 1 <= i < |layers| ==> layers[i] == layers[1..][i - 1];
    }
  }

  /** A failed download reports the error of the first failing layer, after
      every earlier layer succeeded. */
  lemma {:induction false} PullLayersFirstError(name: string, token: string, dir: string, layers: seq<Layer>,
                                                getBlob: Request -> Result<Blob, FetchError>, save: Save)
    requires PullLayersRun(name, token, dir, layers, getBlob, save).err.Some?
    ensures exists k :: (
      && 0 <= k < |layers|
      && (forall j :: 0 <= j < k ==> LayerSucceeds(name, token, dir, layers[j], getBlob, save))
      && PullLayersRun(name, token, dir, layers, getBlob, save).err
         == LayerTask(name, token, dir, layers[k], getBlob, save).err)
  {
    var first := LayerTask(name, token, dir, layers[0], getBlob, save);
    if first.err.None? {
      PullLayersFirstError(name, token, dir, layers[1..], getBlob, save);
      var k :| 0 <= k < |layers| - 1
        && (forall j :: 0 <= j < k ==> LayerSucceeds(name, token, dir, layers[1..][j], getBlob, save))
        && PullLayersRun(name, token, dir, layers[1..], getBlob, save).err
           == LayerTask(name, token, dir, layers[1..][k], getBlob, save).err;
      assert forall j :: 1 <= j < k + 1 ==> layers[j] == layers[1..][j - 1];
      assert layers[k + 1] == layers[1..][k];
    }
  }

  /** A successful download issued one blob request per layer, in order, each
      at the blobs URL of that layer's digest and followed by saving it at
      `<dir>/<digest>.tar`. */
  lemma {:induction false} PullLayersSuccessTrace(name: string, token: string, dir: string, layers: seq<Layer>,
                                                  getBlob: Request -> Result<Blob, FetchError>, save: Save)
    requires PullLayersRun(name, token, dir, layers, getBlob, save).err.None?
    ensures var t := PullLayersRun(name, token, dir, layers, getBlob, save).trace;
      && |t| == 2 * |layers|
      && forall i :: 0 <= i < |layers| ==>
           t[2 * i] == Get(BlobRequest(name, token, layers[i].digest))
           && t[2 * i + 1] == Store(LayerFilePath(dir, layers[i].digest))
  {
    if |layers| > 0 {
      PullLayersSuccessTrace(name, token, dir, layers[1..], getBlob, save);
      var first := LayerTask(name, token, dir, layers[0], getBlob, save);
      var rest := PullLayersRun(name, token, dir, layers[1..], getBlob, save);
      assert |first.trace| == 2;
      forall i | 1 <= i < |layers|
        ensures (first.trace + rest.trace)[2 * i] == rest.trace[2 * (i - 1)]
        ensures (first.trace + rest.trace)[2 * i + 1] == rest.trace[2 * (i - 1) + 1]
        ensures layers[i] == layers[1..][i - 1]
      {
      }
    }
  }

  /** The event is the blob request of one of the layers, carrying the bearer
      token, or the saving of one of the layers' files. */
  predicate EventOfLayers(e: Event, name: string, token: string, dir: string, layers: seq<Layer>)
  {
    && (e.Get? ==> CarriesToken(e.req, token)
                   && exists j :: 0 <= j < |layers| && e.req == BlobRequest(name, token, layers[j].digest))
    && (e.Store? ==> exists j :: 0 <= j < |layers| && e.path == LayerFilePath(dir, layers[j].digest))
  }

  predicate EventsOfLayers(t: seq<Event>, name: string, token: string, dir: string, layers: seq<Layer>)
  {
    forall i :: 0 <= i < |t| ==> EventOfLayers(t[i], name, token, dir, layers)
  }

  lemma EventOfMoreLayers(e: Event, name: string, token: string, dir: string, layers: seq<Layer>)
    requires |layers| > 0
    requires EventOfLayers(e, name, token, dir, layers[1..])
    ensures EventOfLayers(e, name, token, dir, layers)
  {
    if e.Get? {
      var j :| 0 <= j < |layers| - 1 && e.req == BlobRequest(name, token, layers[1..][j].digest);
      assert layers[j + 1] == layers[1..][j];
    } else {
      var j :| 0 <= j < |layers| - 1 && e.path == LayerFilePath(dir, layers[1..][j].digest);
      assert layers[j + 1] == layers[1..][j];
    }
  }

  /** Every event of a download belongs to one of its layers: a Get is the blob
      request for some layer's digest, carrying the bearer token, and a Store
      writes some layer's file. */
  lemma {:induction false} PullLayersEvents(name: string, token: string, dir: string, layers: seq<Layer>,
                                            getBlob: Request -> Result<Blob, FetchError>, save: Save)
    ensures EventsOfLayers(PullLayersRun(name, token, dir, layers, getBlob, save).trace, name, token, dir, layers)
  {
    if |layers| > 0 {
      PullLayersEvents(name, token, dir, layers[1..], getBlob, save);
      var first := LayerTask(name, token, dir, layers[0], getBlob, save);
      var rest := PullLayersRun(name, token, dir, layers[1..], getBlob, save);
      var t := PullLayersRun(name, token, dir, layers, getBlob, save).trace;
      forall i | 0 <= i < |t|
        ensures EventOfLayers(t[i], name, token, dir, layers)
      {
        if i < |first.trace| {
          assert t[i] == first.trace[i];
          assert i == 0 || t[i] == Store(LayerFilePath(dir, layers[0].digest));
        } else {
          assert first.err.None? && t == first.trace + rest.trace;
          assert t[i] == rest.trace[i - |first.trace|];
          assert EventsOfLayers(rest.trace, name, token, dir, layers[1..]);
          assert EventOfLayers(rest.trace[i - |first.trace|], name, token, dir, layers[1..]);
          EventOfMoreLayers(t[i], name, token, dir, layers);
        }
      }
    }
  }
}
