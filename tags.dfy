/**
 * Tag aggregation for `GET /v1/repositories/:user/:name/tags`: every file
 * matched by `tag_*` contributes one entry, tag name to file contents.
 */
module Tags {

  import opened Text
  import opened Paths
  import opened Storage

  /** A path whose base name carries the tag prefix. */
  predicate IsTagFile(f: string)
  {
    HasPrefix(Base(f), TagPrefix)
  }

  predicate AllTagFiles(matches: seq<string>)
  {
    forall i {:trigger IsTagFile(matches[i])} :: 0 <= i < |matches| ==> IsTagFile(matches[i])
  }

  /**
   * The tag a matched file names: its base name with the leading `tag_` cut
   * off. A tag never holds a slash.
   */
  function TagOf(f: string): (tag: string)
    requires IsTagFile(f)
    ensures '/' !in tag
  {
    assert Base(f) != "/";
    Base(f)[|TagPrefix|..]
  }

  /** Putting the prefix back on a tag gives the base name of its file. */
  lemma TagOfRoundTrip(f: string)
    requires IsTagFile(f)
    ensures TagPrefix + TagOf(f) == Base(f)
  {
  }

  /** The file `<dir>/tag_<tag>` is a tag file, and it names `tag`. */
  lemma TagOfTagFile(dir: string, tag: string)
    requires '/' !in tag
    ensures IsTagFile(Join(dir, TagPrefix + tag))
    ensures TagOf(Join(dir, TagPrefix + tag)) == tag
  {
    assert '/' !in TagPrefix + tag;
    BaseOfJoin(dir, TagPrefix + tag);
  }

  /** Every match of a tag pattern in a well-behaved snapshot is a tag file. */
  lemma TagPatternMatches(fs: FileSystem, root: string, user: string, name: string)
    requires GlobSound(fs)
    requires Glob(fs, TagPattern(root, user, name)).Ok?
    ensures AllTagFiles(Glob(fs, TagPattern(root, user, name)).value)
  {
  }

  /** The tag of each match, in order. */
  function TagsOf(matches: seq<string>): (tags: seq<string>)
    requires AllTagFiles(matches)
    ensures |tags| == |matches|
    decreases |matches|
  {
    if matches == [] then []
    else TagsOf(matches[..|matches| - 1]) + [TagOf(matches[|matches| - 1])]
  }

  /** Entry `i` of TagsOf is the tag file `i` names. */
  lemma {:induction false} TagsOfAt(matches: seq<string>, i: nat)
    requires AllTagFiles(matches) && i < |matches|
    ensures TagsOf(matches)[i] == TagOf(matches[i])
    decreases |matches|
  {
    var n := |matches| - 1;
    if i < n {
      assert matches[..n][i] == matches[i];
      TagsOfAt(matches[..n], i);
    }
  }

  /**
   * The outcome of the handler's loop over `matches`: file `i` is read in
   * turn and its contents stored under `tags[i]`, unless a read fails, in
   * which case the outcome is the first read error.
   */
  function Collect(fs: FileSystem, matches: seq<string>, tags: seq<string>): (r: IoResult<map<string, string>>)
    requires |tags| == |matches|
    ensures r.Ok? ==> forall k :: k in r.value ==> k in tags
    decreases |matches|
  {
    if matches == [] then Ok(map[])
    else
      var n := |matches| - 1;
      match Collect(fs, matches[..n], tags[..n])
      case Err(e) => Err(e)
      case Ok(m) =>
        match ReadFile(fs, matches[n])
        case Err(e) => Err(e)
        case Ok(data) => Ok(m[tags[n] := BytesToString(data)])
  }

  /** Aggregation succeeds exactly when every matched file can be read. */
  lemma {:induction false} CollectSucceedsIffAllReadable(fs: FileSystem, matches: seq<string>, tags: seq<string>)
    requires |tags| == |matches|
    ensures Collect(fs, matches, tags).Ok? <==> forall i :: 0 <= i < |matches| ==> ReadFile(fs, matches[i]).Ok?
    decreases |matches|
  {
    if matches != [] {
      var n := |matches| - 1;
      CollectSucceedsIffAllReadable(fs, matches[..n], tags[..n]);
      assert forall i :: 0 <= i < n ==> matches[..n][i] == matches[i];
    }
  }

  /** The error of a failed aggregation is that of the first file that could not be read. */
  lemma {:induction false} CollectReportsFirstFailure(fs: FileSystem, matches: seq<string>, tags: seq<string>, i: nat)
    requires |tags| == |matches|
    requires i < |matches| && ReadFile(fs, matches[i]).Err?
    requires forall j :: 0 <= j < i ==> ReadFile(fs, matches[j]).Ok?
    ensures Collect(fs, matches, tags) == Err(ReadFile(fs, matches[i]).error)
    decreases |matches|
  {
    var n := |matches| - 1;
    assert forall j :: 0 <= j < n ==> matches[..n][j] == matches[j];
    if i == n {
      CollectSucceedsIffAllReadable(fs, matches[..n], tags[..n]);
    } else {
      CollectReportsFirstFailure(fs, matches[..n], tags[..n], i);
    }
  }

  /** The outcome depends on nothing but what the matched files read as. */
  lemma {:induction false} CollectReadsOnlyMatches(fs: FileSystem, fs': FileSystem, matches: seq<string>, tags: seq<string>)
    requires |tags| == |matches|
    requires forall j :: 0 <= j < |matches| ==> ReadFile(fs', matches[j]) == ReadFile(fs, matches[j])
    ensures Collect(fs', matches, tags) == Collect(fs, matches, tags)
    decreases |matches|
  {
    if matches != [] {
      var n := |matches| - 1;
      assert forall j :: 0 <= j < n ==> matches[..n][j] == matches[j];
      CollectReadsOnlyMatches(fs, fs', matches[..n], tags[..n]);
    }
  }

  /**
   * Once a read fails, the files after it are never read: changing what
   * they hold does not change the outcome, which is an error.
   */
  lemma {:induction false} CollectStopsAtFailure(fs: FileSystem, fs': FileSystem, matches: seq<string>, tags: seq<string>, i: nat)
    requires |tags| == |matches|
    requires i < |matches| && ReadFile(fs, matches[i]).Err?
    requires forall j :: 0 <= j <= i ==> ReadFile(fs', matches[j]) == ReadFile(fs, matches[j])
    ensures Collect(fs, matches, tags).Err?
    ensures Collect(fs', matches, tags) == Collect(fs, matches, tags)
    decreases |matches|
  {
    var n := |matches| - 1;
    assert forall j :: 0 <= j < n ==> matches[..n][j] == matches[j];
    if i == n {
      CollectReadsOnlyMatches(fs, fs', matches[..n], tags[..n]);
    } else {
      CollectStopsAtFailure(fs, fs', matches[..n], tags[..n], i);
    }
  }

  /** The keys of a successful aggregation are exactly the tags of the matched files. */
  lemma {:induction false} CollectKeys(fs: FileSystem, matches: seq<string>, tags: seq<string>)
    requires |tags| == |matches| && Collect(fs, matches, tags).Ok?
    ensures Collect(fs, matches, tags).value.Keys == set i | 0 <= i < |tags| :: tags[i]
    decreases |matches|
  {
    if matches != [] {
      var n := |matches| - 1;
      CollectKeys(fs, matches[..n], tags[..n]);
      assert forall i :: 0 <= i < n ==> tags[..n][i] == tags[i];
      assert (set i | 0 <= i < |tags| :: tags[i]) == (set i | 0 <= i < n :: tags[i]) + {tags[n]};
    }
  }

  /**
   * Last write wins: a tag is bound to the contents, verbatim, of the last
   * matched file stored under it.
   */
  lemma {:induction false} CollectLastWins(fs: FileSystem, matches: seq<string>, tags: seq<string>, i: nat)
    requires |tags| == |matches| && Collect(fs, matches, tags).Ok?
    requires i < |matches|
    requires forall j :: i < j < |matches| ==> tags[j] != tags[i]
    ensures ReadFile(fs, matches[i]).Ok?
    ensures tags[i] in Collect(fs, matches, tags).value
    ensures Collect(fs, matches, tags).value[tags[i]] == BytesToString(ReadFile(fs, matches[i]).value)
    decreases |matches|
  {
    var n := |matches| - 1;
    if i < n {
      assert matches[..n][i] == matches[i] && tags[..n][i] == tags[i];
      assert forall j :: i < j < n ==> tags[..n][j] == tags[j];
      CollectLastWins(fs, matches[..n], tags[..n], i);
    }
  }

  /** The tags the handler returns are exactly the tags its matched files name. */
  lemma TagMapKeys(fs: FileSystem, matches: seq<string>)
    requires AllTagFiles(matches) && Collect(fs, matches, TagsOf(matches)).Ok?
    ensures Collect(fs, matches, TagsOf(matches)).value.Keys == set i | 0 <= i < |matches| :: TagOf(matches[i])
  {
    var tags := TagsOf(matches);
    CollectKeys(fs, matches, tags);
    forall i | 0 <= i < |matches|
      ensures tags[i] == TagOf(matches[i])
    {
      TagsOfAt(matches, i);
    }
  }

  /**
   * Each tag the handler returns is bound to the contents, verbatim, of the
   * last matched file whose base name is `tag_` followed by that tag.
   */
  lemma TagMapLastWins(fs: FileSystem, matches: seq<string>, i: nat)
    requires AllTagFiles(matches) && Collect(fs, matches, TagsOf(matches)).Ok?
    requires i < |matches|
    requires forall j :: i < j < |matches| ==> TagOf(matches[j]) != TagOf(matches[i])
    ensures TagPrefix + TagOf(matches[i]) == Base(matches[i])
    ensures ReadFile(fs, matches[i]).Ok?
    ensures TagOf(matches[i]) in Collect(fs, matches, TagsOf(matches)).value
    ensures Collect(fs, matches, TagsOf(matches)).value[TagOf(matches[i])]
         == BytesToString(ReadFile(fs, matches[i]).value)
  {
    var tags := TagsOf(matches);
    TagOfRoundTrip(matches[i]);
    TagsOfAt(matches, i);
    forall j | i < j < |matches|
      ensures tags[j] != tags[i]
    {
      TagsOfAt(matches, j);
    }
    CollectLastWins(fs, matches, tags, i);
  }

  /**
   * The handler's loop: reads each match in order, stores its contents
   * under its tag, and returns the first read error as soon as it meets it.
   */
  method CollectTags(fs: FileSystem, matches: seq<string>) returns (r: IoResult<map<string, string>>)
    requires AllTagFiles(matches)
    ensures r == Collect(fs, matches, TagsOf(matches))
  {
    var tags: map<string, string> := map[];
    var i := 0;
    while i < |matches|
      invariant 0 <= i <= |matches|
      invariant Collect(fs, matches[..i], TagsOf(matches[..i])) == Ok(tags)
    {
      var f := matches[i];
      assert IsTagFile(f);
      var tag := Base(f)[|TagPrefix|..];
      var read := ReadFile(fs, f);
      assert matches[..i + 1][..i] == matches[..i];
      if read.Err? {
        CollectSucceedsIffAllReadable(fs, matches[..i], TagsOf(matches[..i]));
        assert forall j :: 0 <= j < i ==> matches[..i][j] == matches[j];
        CollectReportsFirstFailure(fs, matches, TagsOf(matches), i);
        return Err(read.error);
      }
      tags := tags[tag := BytesToString(read.value)];
      i := i + 1;
    }
    assert matches[..i] == matches;
    return Ok(tags);
  }

}
