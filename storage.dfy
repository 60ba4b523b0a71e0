/**
 * The storage layout and the filesystem the handlers read, as one snapshot
 * taken when the request arrives. The three calls the server makes,
 * `ioutil.ReadFile`, `os.Stat` and `filepath.Glob`, are lookups in it.
 */
module Storage {

  import opened Text
  import opened Paths

  /** A Go `(value, error)` pair; `error` is the text `err.Error()` would give. */
  datatype IoResult<T> = Ok(value: T) | Err(error: string)

  /**
   * What the filesystem answers for one path: the result of reading it and
   * the result of stat-ing it (a directory, say, stats but does not read).
   */
  datatype Entry = Entry(contents: IoResult<Bytes>, size: IoResult<nat>)

  /**
   * A snapshot: the entries that exist, and what `filepath.Glob` answers for
   * each pattern. A pattern missing from `globs` matches nothing.
   */
  datatype FileSystem = FileSystem(
    entries: map<string, Entry>,
    globs: map<string, IoResult<seq<string>>>)

  /** A stat'd size that agrees with the bytes the entry reads as. */
  predicate Coherent(e: Entry)
  {
    e.contents.Ok? && e.size.Ok? ==> e.size.value == |e.contents.value|
  }

  /** `ioutil.ReadFile(p)`: it succeeds only on a path the snapshot holds, with that path's contents. */
  function ReadFile(fs: FileSystem, p: string): (r: IoResult<Bytes>)
    ensures r.Ok? <==> p in fs.entries && fs.entries[p].contents.Ok?
    ensures r.Ok? ==> r == fs.entries[p].contents
    ensures p in fs.entries ==> r == fs.entries[p].contents
  {
    if p in fs.entries then fs.entries[p].contents
    else Err("open " + p + ": no such file or directory")
  }

  /** `os.Stat(p).Size()`: it succeeds only on a path the snapshot holds, with that path's size. */
  function Stat(fs: FileSystem, p: string): (r: IoResult<nat>)
    ensures r.Ok? <==> p in fs.entries && fs.entries[p].size.Ok?
    ensures r.Ok? ==> r == fs.entries[p].size
    ensures p in fs.entries ==> r == fs.entries[p].size
  {
    if p in fs.entries then fs.entries[p].size
    else Err("stat " + p + ": no such file or directory")
  }

  /**
   * `filepath.Glob(pattern)`. It fails only on a malformed pattern; a
   * directory that does not exist yields no matches and no error.
   */
  function Glob(fs: FileSystem, pattern: string): (r: IoResult<seq<string>>)
    ensures r.Err? ==> pattern in fs.globs && fs.globs[pattern].Err?
    ensures pattern !in fs.globs ==> r == Ok([])
    ensures pattern in fs.globs ==> r == fs.globs[pattern]
  {
    if pattern in fs.globs then fs.globs[pattern] else Ok([])
  }

  /** The literal prefix of every tag file name. */
  const TagPrefix := "tag_"

  /** The last element of the tag pattern. */
  const TagWildcard := TagPrefix + "*"

  /**
   * What `filepath.Glob` guarantees of a pattern whose last element is
   * `tag_*`: the base name of every match starts with `tag_`.
   */
  predicate GlobSound(fs: FileSystem)
  {
    forall pattern, m ::
      (pattern in fs.globs && fs.globs[pattern].Ok? && m in fs.globs[pattern].value && Base(pattern) == TagWildcard)
      ==> HasPrefix(Base(m), TagPrefix)
  }

  /** `<root>/repositories/<user>/<name>`. */
  function RepositoryDir(root: string, user: string, name: string): string
  {
    Join(Join(Join(root, "repositories"), user), name)
  }

  /** `<root>/repositories/<user>/<name>/tag_*`. */
  function TagPattern(root: string, user: string, name: string): (pattern: string)
    ensures Base(pattern) == TagWildcard
  {
    BaseOfJoin(RepositoryDir(root, user, name), TagWildcard);
    Join(RepositoryDir(root, user, name), TagWildcard)
  }

  /** `<root>/images/<imgid>`. */
  function ImageDir(root: string, imgid: string): string
  {
    Join(Join(root, "images"), imgid)
  }

  /** `<root>/images/<imgid>/json`. */
  function ImageJsonPath(root: string, imgid: string): (p: string)
    ensures Base(p) == "json"
  {
    BaseOfJoin(ImageDir(root, imgid), "json");
    Join(ImageDir(root, imgid), "json")
  }

  /** `<root>/images/<imgid>/layer`. */
  function LayerPath(root: string, imgid: string): (p: string)
    ensures Base(p) == "layer"
  {
    BaseOfJoin(ImageDir(root, imgid), "layer");
    Join(ImageDir(root, imgid), "layer")
  }

}
