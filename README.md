# Read-only docker registry API, modelled in Dafny

`server.go` is a small HTTP server that answers the read path of the v1
docker registry protocol from a directory tree. It has seven routes. `/` and
`/v1/_ping` return fixed text. Three routes redirect to a static file server
mounted at `/static/`: the image index of a repository, and the ancestry and
the layer of an image. The tags route globs `tag_*` files in a repository
directory and returns a JSON map from tag to image id. The image JSON route
returns an image's descriptor file, with the size of its layer file in the
`X-Docker-Size` header. A middleware stamps `X-Docker-Registry-Version` and
`X-Docker-Endpoints` on every response.

The model replaces the filesystem with a snapshot value (`Storage.FileSystem`).
That value holds what reading and stat-ing each path returns, and what
`filepath.Glob` returns for each pattern. Each request is then a total
function from (data root, snapshot, encoder, request) to a response
(`Registry.Handle`). The handlers also run imperatively, as in the source:
`Registry.Serve` creates a response writer whose header map the middleware and
the image JSON handler update in place, and the tags handler's read loop is
the method `Tags.CollectTags`. Each handler method (`Registry.Serve`,
`Registry.ServeRoute`, `Registry.ServeTags`, `Registry.ServeImageJson`,
`Registry.StampRegistryHeaders`, `Tags.CollectTags`) is proved equal to its
specification function. The writer's own methods (`Http.ResponseWriter.Set`,
`Http.ResponseWriter.Write`, `Http.Redirect`) state the new writer state
directly.

Modules, one per file:

- `text.dfy` (`Text`): bytes, and Go's `string(data)` conversion.
- `decimal.dfy` (`Decimal`): `fmt.Sprintf("%d", n)` and the matching parse.
- `paths.dfy` (`Paths`): `path.Join` and `filepath.Base`.
- `storage.dfy` (`Storage`): the snapshot, the three filesystem calls, and the on-disk layout.
- `tags.dfy` (`Tags`): tag aggregation.
- `http.dfy` (`Http`): the response writer and `http.Redirect`.
- `registry.dfy` (`Registry`): the middleware, the seven handlers, and request dispatch.
- `wrappers.dfy` (`Wrappers`): `Option`.

Where the code and descriptions of the server differ, the model follows the
code:

- A repository directory that does not exist is not a 404. `filepath.Glob`
  reports no matches and no error, so the tags route answers 200 with the
  encoding of the empty map (`Registry.TagsNoMatches`). Only a glob error
  gives 404.
- The code does not split errors into "not found" and "other I/O failure".
  On the image JSON route, every read or stat error is a 404. On the tags
  route, every read error is a 500.

## Model

| member | source | states |
|---|---|---|
| `Text.BytesToString` | server.go:65 | `string(data)` keeps the file's bytes: same length, byte `i` becomes char `i`, nothing is trimmed |
| `Text.StringToBytes` | server.go:90 | `[]byte(s)` is the inverse of `string(data)`: its bytes convert back to the same string |
| `Text.BytesRoundTrip` | server.go:90 | converting file bytes to the response body and back gives the same bytes, so the body is byte-equal to the file |
| `Decimal.Format` | server.go:89 | `%d` of a size is a canonical decimal numeral, and it starts with `0` only for the size 0 |
| `Decimal.Parse` | server.go:89 | a string parses exactly when it is a canonical numeral, and then it is the `%d` rendering of the number it parses to |
| `Decimal.ParseFormat` | server.go:89 | the numeral put in `X-Docker-Size` parses back to the same size |
| `Decimal.FormatParse` | server.go:89 | every canonical numeral is the `%d` rendering of the number it denotes, so the rendering is unique |
| `Paths.Join` | server.go:54 | `path.Join(dir, elem)` keeps both parts: `dir` and `elem` can be read back off the result, around one `/` |
| `Paths.Base` | server.go:60 | `filepath.Base` is never empty, and it is `/` or contains no slash |
| `Paths.BaseOfJoin` | server.go:60 | the base name of `dir/elem` is `elem`, for a non-empty `elem` without slashes |
| `Storage.ReadFile` | server.go:62 | `ioutil.ReadFile` of a path the filesystem holds returns exactly what that path reads as, contents or error; it succeeds only on such a path |
| `Storage.Stat` | server.go:86 | `os.Stat` of a path the filesystem holds returns exactly what that path stats as, size or error; it succeeds only on such a path |
| `Storage.Glob` | server.go:55 | `filepath.Glob` of a pattern the filesystem knows returns exactly its recorded answer, the matches or the malformed-pattern error; a pattern it knows nothing of, such as one under a missing directory, matches nothing without error |
| `Storage.TagPattern` | server.go:54 | the tag glob pattern `<root>/repositories/<user>/<name>/tag_*` has base name `tag_*` |
| `Storage.ImageJsonPath` | server.go:79-80 | the descriptor path `<root>/images/<imgid>/json` names the file `json` |
| `Storage.LayerPath` | server.go:85 | the layer path `<root>/images/<imgid>/layer` names the file `layer` |
| `Tags.TagOf` | server.go:61 | the tag cut from a tag file's base name holds no slash (its other properties: `Tags.TagOfRoundTrip`, `Tags.TagOfTagFile`) |
| `Tags.TagOfRoundTrip` | server.go:60-61 | `"tag_" + tag == Base(f)`: the tag is the base name without its `tag_` prefix |
| `Tags.TagOfTagFile` | server.go:60-61 | the file `<dir>/tag_<t>` is a tag file, and its tag is `t` |
| `Tags.TagPatternMatches` | server.go:55-59 | under `Storage.GlobSound`, every match of the tag pattern has a base name starting with `tag_`, so the slice `fn[len("tag_"):]` is in range |
| `Tags.TagsOf` | server.go:59-61 | the loop computes one tag per match |
| `Tags.TagsOfAt` | server.go:59-61 | the tag computed for match `i` is the tag that match `i` names |
| `Tags.Collect` | server.go:58-67 | every key of the aggregated map is one of the tags stored (the other properties of the loop's outcome: the `Tags.Collect…` lemmas below) |
| `Tags.CollectSucceedsIffAllReadable` | server.go:59-67 | the aggregation succeeds if and only if every matched file can be read |
| `Tags.CollectReportsFirstFailure` | server.go:62-63 | a failed aggregation returns the error of the first file that could not be read, with no partial map |
| `Tags.CollectStopsAtFailure` | server.go:62-63 | after the first failed read, the later files are never read: changing them does not change the outcome |
| `Tags.CollectReadsOnlyMatches` | server.go:59-67 | the outcome depends only on what the matched files read as |
| `Tags.CollectKeys` | server.go:59-67 | the key set of a successful aggregation is exactly the set of tags stored |
| `Tags.CollectLastWins` | server.go:65 | a key is bound to the contents of the last file stored under it (last write wins) |
| `Tags.TagMapKeys` | server.go:59-67 | the handler's map keys are exactly the tags of the matched files |
| `Tags.TagMapLastWins` | server.go:59-67 | each tag maps to the contents, verbatim, of the last matched `tag_<tag>` file |
| `Tags.CollectTags` | server.go:58-67 | the read loop, with its early return, computes exactly the aggregation |
| `Http.ResponseWriter.constructor` | server.go:36 | a fresh writer has no headers, an empty body and the default status 200 |
| `Http.ResponseWriter.Set` | server.go:37-38 | `Header().Set` replaces one header and leaves everything else alone |
| `Http.ResponseWriter.Write` | server.go:78 | writing a handler's `(status, body)` leaves the headers alone |
| `Http.Redirect` | server.go:51 | a redirect sets `Location` to the target and writes the given status |
| `Registry.RegistryHeaders` | server.go:37-38 | the middleware adds exactly `X-Docker-Registry-Version: activestate-0.1` and `X-Docker-Endpoints: <Host>`, and leaves every other header as it was |
| `Registry.StampRegistryHeaders` | server.go:36-39 | the middleware sets `X-Docker-Registry-Version: activestate-0.1` and `X-Docker-Endpoints: <Host>` |
| `Registry.IndexImagesLocation` | server.go:51 | the image index redirect points under the `/static/` mount |
| `Registry.AncestryLocation` | server.go:76 | the ancestry redirect points under the `/static/` mount |
| `Registry.LayerLocation` | server.go:95 | the layer redirect points under the `/static/` mount |
| `Registry.IndexImagesFollowsLayout` | server.go:51 | with `/static` replaced by the data root, the image index redirect names `<root>/repositories/<user>/<name>/_index_images` |
| `Registry.AncestryFollowsLayout` | server.go:76 | with `/static` replaced by the data root, the ancestry redirect names `<root>/images/<imgid>/ancestry` |
| `Registry.LayerFollowsLayout` | server.go:95 | with `/static` replaced by the data root, the layer redirect names the very file whose size the image JSON route reports (server.go:85) |
| `Registry.Redirected` | server.go:51 | the reply `http.Redirect` gives: status 302 and `Location` as its only header |
| `Registry.TagsReply` | server.go:53-74 | the tags route sets no headers; it answers 404 if and only if the glob fails; otherwise it answers 200 or 500 |
| `Registry.ImageJsonReply` | server.go:78-93 | the image JSON route answers 200 if and only if `json` reads and `layer` stats, 404 otherwise, and sets `X-Docker-Size` (its only header) if and only if it answers 200 |
| `Registry.Dispatch` | server.go:44-96 | the route table: `/` and `/v1/_ping` answer 200 with their fixed text and no headers; the tags route is answered by the tags handler on the request's own user and name, and the image JSON route by the image JSON handler on the request's own image id; exactly the three redirect routes set `Location`; no handler sets a header other than `X-Docker-Size` and `Location` |
| `Registry.Handle` | server.go:36-96 | every response carries both registry headers; `/` and `/v1/_ping` give 200 with fixed text and only those two headers; the three redirects give 302 with the exact literal Location; the tags route gives the tags handler's status and body for the request's user and name, with only the registry headers; the image JSON route gives that handler's status, body and headers for the request's image id, after the registry headers; `X-Docker-Size` appears only on a 200 image JSON response |
| `Registry.FilesystemFreeRoutes` | server.go:44-52 | `/`, `/v1/_ping` and the three redirects answer the same for any two snapshots and any two encoders |
| `Registry.TagsNoMatches` | server.go:55-71 | no matches, including a missing repository directory, give 200 with the encoding of the empty map |
| `Registry.TagsGlobFailure` | server.go:55-56 | a glob error gives exactly 404, no headers, and the body `No tags found: ` followed by the error |
| `Registry.TagsEncoded` | server.go:58-72 | when every match reads, the reply is exactly 200 with the encoder's text for the aggregated map, or 500 with the encoder's error |
| `Registry.TagsReadFailure` | server.go:59-63 | a read failure gives 500 with the first failing file's error, and files after it have no effect |
| `Registry.TagsSuccess` | server.go:53-74 | a 200 from the tags route means every match was read, and the body encodes the map whose keys are the matched files' tags |
| `Registry.ImageJsonMissingDescriptor` | server.go:81-82 | an unreadable `json` gives 404 with its read error, and the layer is never consulted |
| `Registry.ImageJsonMissingLayer` | server.go:85-87 | a readable `json` with a `layer` that cannot be stat'd gives 404 with the stat error and no size header |
| `Registry.ImageJsonServed` | server.go:81-90 | a readable `json` and a stat-able `layer` give exactly 200, the header `X-Docker-Size` as its only one, holding the `%d` rendering of the layer's size, and a body byte-equal to `json`; the header parses back to that size, which is the layer's byte length when its stat and contents agree |
| `Registry.ServeTags` | server.go:53-74 | the tags handler as run returns exactly the specified status and body |
| `Registry.ServeImageJson` | server.go:78-93 | the image JSON handler as run returns the specified status and body, and adds to the writer only the specified headers |
| `Registry.ServeRoute` | server.go:44-96 | running a route's handler on a writer adds that route's headers and writes its status and body |
| `Registry.Serve` | server.go:36-96 | a request served imperatively (fresh writer, middleware, handler) yields exactly the response `Handle` specifies |

## Left out

- Process startup (server.go:20-33, 98): argument parsing, `os.Getwd`, `os.Exit` and `m.Run()`. The data root is a parameter.
- The martini framework (server.go:33, 42): path-template matching, parameter extraction, the other middleware of `martini.Classic`, and the answer to unmatched paths. Requests arrive already routed, with their parameters as given strings.
- The static file server mounted at `/static/` (server.go:42). It is only the target of the redirects.
- Real filesystem I/O. `ioutil.ReadFile`, `os.Stat` and `filepath.Glob` are lookups in the snapshot. A missing path gives Go's "no such file or directory" text; every other error text comes from the snapshot.
- Glob pattern semantics. Each pattern's result is part of the snapshot, and a pattern absent from it matches nothing. The one property of matching the handler relies on is stated as `Storage.GlobSound`: every match of a pattern ending in `tag_*` has a base name starting with `tag_`. Only the tags route, the one handler that globs, requires it. Without it, `fn[len("tag_"):]` would panic.
- The cleaning done by `path.Join` (`..`, repeated slashes, empty elements). `Paths.Join` is a plain `/`-join. It only builds lookup keys into the snapshot.
- `filepath.Base` on Windows paths (volume names, backslashes). Only Unix paths are modelled.
- The encoding done by `json.Marshal` (key order, escaping, UTF-8 replacement). The encoder is a parameter, and its error branch (server.go:68-69) is kept.
- The internals of `http.Redirect`: cleaning the target URL, the `Content-Type` header, and the short HTML body. A redirect is a status plus `Location`; its body is empty in the model.
- Content-type sniffing on writes, and canonicalisation of header keys. All keys used are already canonical.
- Go strings are modelled as Dafny strings holding one char per byte. There is no character encoding.
- `fi.Size()` is an `int64`. The model uses an unbounded `nat`, since sizes are never negative and overflow cannot occur.
- Concurrency, and time between reads. A request sees one snapshot, although the server reads `json` and stats `layer` at two different moments.
