/**
 * The registry's request handling: the header middleware and the seven
 * routes of the read-only v1 registry API, served from one filesystem
 * snapshot rooted at `root`.
 */
module Registry {

  import opened Text
  import opened Decimal
  import opened Wrappers
  import opened Paths
  import opened Storage
  import opened Tags
  import opened Http

  const Identification := "ActiveState's read-only docker-registry API server"

  const RegistryVersionKey := "X-Docker-Registry-Version"
  const RegistryVersion := "activestate-0.1"
  const EndpointsKey := "X-Docker-Endpoints"
  const SizeKey := "X-Docker-Size"

  /** The URL prefix under which the static file server serves the data root. */
  const StaticMount := "/static"

  /** The routes, each with the parameters its path template captures. */
  datatype Route =
    | Root                                          // GET /
    | Ping                                          // GET /v1/_ping
    | RepositoryImages(user: string, name: string)  // GET /v1/repositories/:user/:name/images
    | RepositoryTags(user: string, name: string)    // GET /v1/repositories/:user/:name/tags
    | ImageAncestry(imgid: string)                  // GET /v1/images/:imgid/ancestry
    | ImageJson(imgid: string)                      // GET /v1/images/:imgid/json
    | ImageLayer(imgid: string)                     // GET /v1/images/:imgid/layer

  /** A routed request and the Host it was sent to. */
  datatype Request = Request(route: Route, host: string)

  /** `json.Marshal` of the tag map: the encoded text, or the encoder's error. */
  type Marshal = map<string, string> -> IoResult<string>

  /** The two headers the middleware adds to `header`. */
  function RegistryHeaders(header: map<string, string>, host: string): (h: map<string, string>)
    ensures h.Keys == header.Keys + {RegistryVersionKey, EndpointsKey}
    ensures h[RegistryVersionKey] == "activestate-0.1" && h[EndpointsKey] == host
    ensures forall k :: k in header && k != RegistryVersionKey && k != EndpointsKey ==> h[k] == header[k]
  {
    header[RegistryVersionKey := RegistryVersion][EndpointsKey := host]
  }

  /** The middleware run before every handler: it stamps the registry headers on the writer. */
  method StampRegistryHeaders(res: ResponseWriter, host: string)
    modifies res
    ensures res.header == RegistryHeaders(old(res.header), host)
    ensures res.status == old(res.status) && res.body == old(res.body)
  {
    res.Set(RegistryVersionKey, RegistryVersion);
    res.Set(EndpointsKey, host);
  }

  /** Where the index route redirects: the repository's `_index_images` file under the static mount. */
  function IndexImagesLocation(user: string, name: string): (l: string)
    ensures HasPrefix(l, StaticMount + "/")
  {
    "/static/repositories/" + user + "/" + name + "/_index_images"
  }

  /** Where the ancestry route redirects: the image's `ancestry` file under the static mount. */
  function AncestryLocation(imgid: string): (l: string)
    ensures HasPrefix(l, StaticMount + "/")
  {
    "/static/images/" + imgid + "/ancestry"
  }

  /** Where the layer route redirects: the image's `layer` file under the static mount. */
  function LayerLocation(imgid: string): (l: string)
    ensures HasPrefix(l, StaticMount + "/")
  {
    "/static/images/" + imgid + "/layer"
  }

  /**
   * The redirect targets follow the storage layout: with the static mount
   * taken off and the data root put in its place, each names the path the
   * layout gives the same file.
   */
  lemma IndexImagesFollowsLayout(root: string, user: string, name: string)
    ensures root + IndexImagesLocation(user, name)[|StaticMount|..]
         == Join(RepositoryDir(root, user, name), "_index_images")
  {
    var file := "/repositories/" + user + "/" + name + "/_index_images";
    IndexImagesText(user, name);
    assert (StaticMount + file)[|StaticMount|..] == file;
    RepositoryDirText(root, user, name);
    assert "/_index_images" == "/" + "_index_images";
  }

  lemma IndexImagesText(user: string, name: string)
    ensures IndexImagesLocation(user, name) == StaticMount + ("/repositories/" + user + "/" + name + "/_index_images")
  {
    assert "/static/repositories/" == StaticMount + "/repositories/";
  }

  lemma RepositoryDirText(root: string, user: string, name: string)
    ensures RepositoryDir(root, user, name) == root + ("/repositories/" + user + "/" + name)
  {
    assert "/repositories/" == "/" + "repositories" + "/";
  }

  lemma AncestryFollowsLayout(root: string, imgid: string)
    ensures root + AncestryLocation(imgid)[|StaticMount|..] == Join(ImageDir(root, imgid), "ancestry")
  {
    assert AncestryLocation(imgid)[|StaticMount|..] == "/images/" + imgid + "/ancestry";
  }

  /** The layer redirect names the very file whose size the image JSON route reports. */
  lemma LayerFollowsLayout(root: string, imgid: string)
    ensures root + LayerLocation(imgid)[|StaticMount|..] == LayerPath(root, imgid)
  {
    assert LayerLocation(imgid)[|StaticMount|..] == "/images/" + imgid + "/layer";
  }

  /** A 302 to `location`, with nothing looked up first. */
  function Redirected(location: string): (r: Reply)
    ensures r.status == StatusFound && r.headers == map[LocationKey := location]
  {
    Reply(StatusFound, map[LocationKey := location], "")
  }

  /**
   * GET /v1/repositories/:user/:name/tags: glob the tag files, read them
   * into a map, and encode it.
   */
  function TagsReply(root: string, fs: FileSystem, marshal: Marshal, user: string, name: string): (r: Reply)
    requires GlobSound(fs)
    ensures r.headers == map[]
    ensures r.status == StatusNotFound <==> Glob(fs, TagPattern(root, user, name)).Err?
    ensures r.status in {StatusOK, StatusNotFound, StatusInternalServerError}
  {
    match Glob(fs, TagPattern(root, user, name))
    case Err(e) => Reply(StatusNotFound, map[], "No tags found: " + e)
    case Ok(matches) =>
      TagPatternMatches(fs, root, user, name);
      match Collect(fs, matches, TagsOf(matches))
      case Err(e) => Reply(StatusInternalServerError, map[], e)
      case Ok(tags) =>
        match marshal(tags)
        case Err(e) => Reply(StatusInternalServerError, map[], e)
        case Ok(text) => Reply(StatusOK, map[], text)
  }

  /**
   * GET /v1/images/:imgid/json: read the descriptor, then stat the layer;
   * either failure is a 404 carrying the error's text.
   */
  function ImageJsonReply(root: string, fs: FileSystem, imgid: string): (r: Reply)
    ensures r.status in {StatusOK, StatusNotFound}
    ensures r.status == StatusOK <==>
      ReadFile(fs, ImageJsonPath(root, imgid)).Ok? && Stat(fs, LayerPath(root, imgid)).Ok?
    ensures SizeKey in r.headers <==> r.status == StatusOK
    ensures r.headers.Keys <= {SizeKey}
  {
    match ReadFile(fs, ImageJsonPath(root, imgid))
    case Err(e) => Reply(StatusNotFound, map[], e)
    case Ok(data) =>
      match Stat(fs, LayerPath(root, imgid))
      case Err(e) => Reply(StatusNotFound, map[], e)
      case Ok(size) => Reply(StatusOK, map[SizeKey := Format(size)], BytesToString(data))
  }

  /** The handler each route is bound to. */
  function Dispatch(root: string, fs: FileSystem, marshal: Marshal, route: Route): (r: Reply)
    requires route.RepositoryTags? ==> GlobSound(fs)
    ensures r.headers.Keys <= {SizeKey, LocationKey}
    ensures route.Root? ==> r == Reply(StatusOK, map[], Identification)
    ensures route.Ping? ==> r == Reply(StatusOK, map[], "true")
    ensures route.RepositoryTags? ==> r == TagsReply(root, fs, marshal, route.user, route.name)
    ensures route.ImageJson? ==> r == ImageJsonReply(root, fs, route.imgid)
    ensures LocationKey in r.headers <==> route.RepositoryImages? || route.ImageAncestry? || route.ImageLayer?
  {
    match route
    case Root => Reply(StatusOK, map[], Identification)
    case Ping => Reply(StatusOK, map[], "true")
    case RepositoryImages(user, name) => Redirected(IndexImagesLocation(user, name))
    case RepositoryTags(user, name) => TagsReply(root, fs, marshal, user, name)
    case ImageAncestry(imgid) => Redirected(AncestryLocation(imgid))
    case ImageJson(imgid) => ImageJsonReply(root, fs, imgid)
    case ImageLayer(imgid) => Redirected(LayerLocation(imgid))
  }

  /**
   * The response to a request: the middleware's headers first, then what
   * the route's handler sets and writes.
   */
  function Handle(root: string, fs: FileSystem, marshal: Marshal, req: Request): (r: Response)
    requires req.route.RepositoryTags? ==> GlobSound(fs)
    ensures RegistryVersionKey in r.header && r.header[RegistryVersionKey] == "activestate-0.1"
    ensures EndpointsKey in r.header && r.header[EndpointsKey] == req.host
    ensures r.header.Keys <= {RegistryVersionKey, EndpointsKey, SizeKey, LocationKey}
    ensures req.route.Root? ==>
      r.status == 200 && r.body == "ActiveState's read-only docker-registry API server" &&
      r.header.Keys == {RegistryVersionKey, EndpointsKey}
    ensures req.route.Ping? ==>
      r.status == 200 && r.body == "true" && r.header.Keys == {RegistryVersionKey, EndpointsKey}
    ensures req.route.RepositoryTags? ==>
      var reply := TagsReply(root, fs, marshal, req.route.user, req.route.name);
      r.status == reply.status && r.body == reply.body && r.header == RegistryHeaders(map[], req.host)
    ensures req.route.ImageJson? ==>
      var reply := ImageJsonReply(root, fs, req.route.imgid);
      r.status == reply.status && r.body == reply.body && r.header == RegistryHeaders(map[], req.host) + reply.headers
    ensures req.route.RepositoryImages? ==>
      r.status == 302 && LocationKey in r.header &&
      r.header[LocationKey] == "/static/repositories/" + req.route.user + "/" + req.route.name + "/_index_images"
    ensures req.route.ImageAncestry? ==>
      r.status == 302 && LocationKey in r.header &&
      r.header[LocationKey] == "/static/images/" + req.route.imgid + "/ancestry"
    ensures req.route.ImageLayer? ==>
      r.status == 302 && LocationKey in r.header &&
      r.header[LocationKey] == "/static/images/" + req.route.imgid + "/layer"
    ensures SizeKey in r.header ==> req.route.ImageJson? && r.status == 200
  {
    var reply := Dispatch(root, fs, marshal, req.route);
    Response(reply.status, RegistryHeaders(map[], req.host) + reply.headers, reply.body)
  }

  /** The routes that answer without looking at the filesystem. */
  predicate FilesystemFree(route: Route)
  {
    route.Root? || route.Ping? || route.RepositoryImages? || route.ImageAncestry? || route.ImageLayer?
  }

  /**
   * `/`, `/v1/_ping` and the three redirects answer the same whatever the
   * filesystem holds: nothing is looked up before redirecting.
   */
  lemma FilesystemFreeRoutes(root: string, fs: FileSystem, fs': FileSystem, marshal: Marshal, marshal': Marshal, req: Request)
    requires FilesystemFree(req.route)
    ensures Handle(root, fs, marshal, req) == Handle(root, fs', marshal', req)
  {
  }

  /**
   * Tags, an empty match list (also what a missing repository directory
   * gives): the reply is 200 with the encoding of the empty map.
   */
  lemma TagsNoMatches(root: string, fs: FileSystem, marshal: Marshal, user: string, name: string)
    requires GlobSound(fs)
    requires Glob(fs, TagPattern(root, user, name)) == Ok([])
    requires marshal(map[]).Ok?
    ensures TagsReply(root, fs, marshal, user, name) == Reply(StatusOK, map[], marshal(map[]).value)
  {
  }

  /** Tags, a glob failure: 404 with `No tags found: ` followed by the glob's error. */
  lemma TagsGlobFailure(root: string, fs: FileSystem, marshal: Marshal, user: string, name: string)
    requires GlobSound(fs)
    requires Glob(fs, TagPattern(root, user, name)).Err?
    ensures TagsReply(root, fs, marshal, user, name)
         == Reply(404, map[], "No tags found: " + Glob(fs, TagPattern(root, user, name)).error)
  {
  }

  /**
   * Tags, every match readable: the reply is the encoder's answer for the
   * aggregated map, 200 with its text or 500 with its error.
   */
  lemma TagsEncoded(root: string, fs: FileSystem, marshal: Marshal, user: string, name: string)
    requires GlobSound(fs)
    requires Glob(fs, TagPattern(root, user, name)).Ok?
    requires var matches := Glob(fs, TagPattern(root, user, name)).value;
      forall i :: 0 <= i < |matches| ==> ReadFile(fs, matches[i]).Ok?
    ensures var matches := Glob(fs, TagPattern(root, user, name)).value;
      && AllTagFiles(matches)
      && Collect(fs, matches, TagsOf(matches)).Ok?
      && var encoded := marshal(Collect(fs, matches, TagsOf(matches)).value);
         TagsReply(root, fs, marshal, user, name)
           == if encoded.Ok? then Reply(200, map[], encoded.value) else Reply(500, map[], encoded.error)
  {
    var matches := Glob(fs, TagPattern(root, user, name)).value;
    TagPatternMatches(fs, root, user, name);
    CollectSucceedsIffAllReadable(fs, matches, TagsOf(matches));
  }

  /**
   * Tags, a read failure: the reply is 500 with the first failing file's
   * error, and the files after it play no part (they are never read).
   */
  lemma TagsReadFailure(root: string, fs: FileSystem, fs': FileSystem, marshal: Marshal, user: string, name: string, i: nat)
    requires GlobSound(fs) && GlobSound(fs')
    requires Glob(fs, TagPattern(root, user, name)).Ok?
    requires Glob(fs', TagPattern(root, user, name)) == Glob(fs, TagPattern(root, user, name))
    requires var matches := Glob(fs, TagPattern(root, user, name)).value;
      && i < |matches| && ReadFile(fs, matches[i]).Err?
      && (forall j :: 0 <= j < i ==> ReadFile(fs, matches[j]).Ok?)
      && (forall j :: 0 <= j <= i ==> ReadFile(fs', matches[j]) == ReadFile(fs, matches[j]))
    ensures var matches := Glob(fs, TagPattern(root, user, name)).value;
      TagsReply(root, fs, marshal, user, name) == Reply(StatusInternalServerError, map[], ReadFile(fs, matches[i]).error)
    ensures TagsReply(root, fs', marshal, user, name) == TagsReply(root, fs, marshal, user, name)
  {
    var matches := Glob(fs, TagPattern(root, user, name)).value;
    TagPatternMatches(fs, root, user, name);
    CollectReportsFirstFailure(fs, matches, TagsOf(matches), i);
    CollectStopsAtFailure(fs, fs', matches, TagsOf(matches), i);
  }

  /**
   * Tags, success: every matched file was read, and the body is the
   * encoding of the map whose keys are the matched files' tags.
   */
  lemma TagsSuccess(root: string, fs: FileSystem, marshal: Marshal, user: string, name: string)
    requires GlobSound(fs)
    requires TagsReply(root, fs, marshal, user, name).status == StatusOK
    ensures Glob(fs, TagPattern(root, user, name)).Ok?
    ensures var matches := Glob(fs, TagPattern(root, user, name)).value;
      && AllTagFiles(matches)
      && (forall i :: 0 <= i < |matches| ==> ReadFile(fs, matches[i]).Ok?)
      && Collect(fs, matches, TagsOf(matches)).Ok?
      && Collect(fs, matches, TagsOf(matches)).value.Keys == (set i | 0 <= i < |matches| :: TagOf(matches[i]))
      && marshal(Collect(fs, matches, TagsOf(matches)).value) == Ok(TagsReply(root, fs, marshal, user, name).body)
  {
    var matches := Glob(fs, TagPattern(root, user, name)).value;
    TagPatternMatches(fs, root, user, name);
    CollectSucceedsIffAllReadable(fs, matches, TagsOf(matches));
    TagMapKeys(fs, matches);
  }

  /**
   * Image JSON, descriptor unreadable: 404 with the read error, and the
   * layer is not consulted (any layer gives the same reply).
   */
  lemma ImageJsonMissingDescriptor(root: string, fs: FileSystem, fs': FileSystem, imgid: string)
    requires ReadFile(fs, ImageJsonPath(root, imgid)).Err?
    requires ReadFile(fs', ImageJsonPath(root, imgid)) == ReadFile(fs, ImageJsonPath(root, imgid))
    ensures ImageJsonReply(root, fs, imgid)
         == Reply(StatusNotFound, map[], ReadFile(fs, ImageJsonPath(root, imgid)).error)
    ensures ImageJsonReply(root, fs', imgid) == ImageJsonReply(root, fs, imgid)
  {
  }

  /** Image JSON, descriptor readable but layer not stat-able: 404 with the stat error and no size header. */
  lemma ImageJsonMissingLayer(root: string, fs: FileSystem, imgid: string)
    requires ReadFile(fs, ImageJsonPath(root, imgid)).Ok?
    requires Stat(fs, LayerPath(root, imgid)).Err?
    ensures ImageJsonReply(root, fs, imgid)
         == Reply(StatusNotFound, map[], Stat(fs, LayerPath(root, imgid)).error)
  {
  }

  /**
   * Image JSON, success: a readable descriptor and a stat-able layer give
   * 200, a body that is byte for byte the descriptor file, and an
   * X-Docker-Size that is the decimal numeral of the layer's size. The
   * numeral reads back as that size, which is the layer's byte length
   * whenever its stat and its contents agree.
   */
  lemma ImageJsonServed(root: string, fs: FileSystem, imgid: string)
    requires ReadFile(fs, ImageJsonPath(root, imgid)).Ok?
    requires Stat(fs, LayerPath(root, imgid)).Ok?
    ensures var data := ReadFile(fs, ImageJsonPath(root, imgid)).value;
      var size := Stat(fs, LayerPath(root, imgid)).value;
      var r := ImageJsonReply(root, fs, imgid);
      && r.status == 200
      && r.headers == map[SizeKey := Format(size)]
      && IsByteString(r.body)
      && StringToBytes(r.body) == data
      && Parse(r.headers[SizeKey]) == Some(size)
    ensures var layer := LayerPath(root, imgid);
      layer in fs.entries && Coherent(fs.entries[layer]) && fs.entries[layer].contents.Ok? ==>
        Parse(ImageJsonReply(root, fs, imgid).headers[SizeKey]) == Some(|fs.entries[layer].contents.value|)
  {
    BytesRoundTrip(ReadFile(fs, ImageJsonPath(root, imgid)).value);
    ParseFormat(Stat(fs, LayerPath(root, imgid)).value);
  }

  /** The tags handler as it runs: glob, the read loop, then the encoder. */
  method ServeTags(root: string, fs: FileSystem, marshal: Marshal, user: string, name: string)
    returns (status: int, body: string)
    requires GlobSound(fs)
    ensures status == TagsReply(root, fs, marshal, user, name).status
    ensures body == TagsReply(root, fs, marshal, user, name).body
  {
    var pattern := Join(Join(Join(Join(root, "repositories"), user), name), TagPrefix + "*");
    var globbed := Glob(fs, pattern);
    if globbed.Err? {
      return StatusNotFound, "No tags found: " + globbed.error;
    }
    TagPatternMatches(fs, root, user, name);
    var collected := CollectTags(fs, globbed.value);
    if collected.Err? {
      return StatusInternalServerError, collected.error;
    }
    var encoded := marshal(collected.value);
    if encoded.Err? {
      return StatusInternalServerError, encoded.error;
    }
    return StatusOK, encoded.value;
  }

  /** The image JSON handler as it runs: it sets X-Docker-Size on the writer only on success. */
  method ServeImageJson(res: ResponseWriter, root: string, fs: FileSystem, imgid: string)
    returns (status: int, body: string)
    modifies res
    ensures status == ImageJsonReply(root, fs, imgid).status
    ensures body == ImageJsonReply(root, fs, imgid).body
    ensures res.header == old(res.header) + ImageJsonReply(root, fs, imgid).headers
    ensures res.status == old(res.status) && res.body == old(res.body)
  {
    var imgDir := Join(Join(root, "images"), imgid);
    var jsonPath := Join(imgDir, "json");
    var read := ReadFile(fs, jsonPath);
    if read.Err? {
      return StatusNotFound, read.error;
    }
    var layerPath := Join(imgDir, "layer");
    var stat := Stat(fs, layerPath);
    if stat.Err? {
      return StatusNotFound, stat.error;
    }
    res.Set(SizeKey, Format(stat.value));
    return StatusOK, BytesToString(read.value);
  }

  /** Runs the handler bound to `route` on a writer the middleware has already stamped. */
  method ServeRoute(res: ResponseWriter, root: string, fs: FileSystem, marshal: Marshal, route: Route)
    requires route.RepositoryTags? ==> GlobSound(fs)
    modifies res
    ensures res.header == old(res.header) + Dispatch(root, fs, marshal, route).headers
    ensures res.status == Dispatch(root, fs, marshal, route).status
    ensures res.body == Dispatch(root, fs, marshal, route).body
  {
    ghost var before := res.header;
    match route {
      case Root =>
        res.Write(StatusOK, Identification);
        assert before + map[] == before;
      case Ping =>
        res.Write(StatusOK, "true");
        assert before + map[] == before;
      case RepositoryImages(user, name) =>
        Redirect(res, IndexImagesLocation(user, name), StatusFound);
        assert before + map[LocationKey := IndexImagesLocation(user, name)] == res.header;
      case RepositoryTags(user, name) =>
        var status, body := ServeTags(root, fs, marshal, user, name);
        res.Write(status, body);
        assert before + map[] == before;
      case ImageAncestry(imgid) =>
        Redirect(res, AncestryLocation(imgid), StatusFound);
        assert before + map[LocationKey := AncestryLocation(imgid)] == res.header;
      case ImageJson(imgid) =>
        var status, body := ServeImageJson(res, root, fs, imgid);
        res.Write(status, body);
      case ImageLayer(imgid) =>
        Redirect(res, LayerLocation(imgid), StatusFound);
        assert before + map[LocationKey := LayerLocation(imgid)] == res.header;
    }
  }

  /** One request end to end: a fresh writer, the middleware, then the route's handler. */
  method Serve(root: string, fs: FileSystem, marshal: Marshal, req: Request) returns (res: ResponseWriter)
    requires req.route.RepositoryTags? ==> GlobSound(fs)
    ensures fresh(res)
    ensures res.Current() == Handle(root, fs, marshal, req)
  {
    res := new ResponseWriter();
    StampRegistryHeaders(res, req.host);
    ServeRoute(res, root, fs, marshal, req.route);
  }

}
