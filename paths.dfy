/**
 * Slash-separated paths: the two operations of `path` and `path/filepath`
 * the server uses to build lookup keys and to name tag files.
 */
module Paths {

  /**
   * `path.Join(dir, elem)` as a plain `/`-join (the cleaning step is not
   * modelled): the directory and the element can both be read back off the
   * joined path.
   */
  function Join(dir: string, elem: string): (p: string)
    ensures |p| == |dir| + 1 + |elem|
    ensures p[..|dir|] == dir && p[|dir|] == '/' && p[|dir| + 1..] == elem
  {
    dir + "/" + elem
  }

  /** The length of `p[..n]` once its trailing slashes are dropped. */
  function TrimmedLength(p: string, n: nat): (k: nat)
    requires n <= |p|
    ensures k <= n
    decreases n
  {
    if n > 0 && p[n - 1] == '/' then TrimmedLength(p, n - 1) else n
  }

  /** Where the last element of `p[..n]` starts: just after its last slash, or at 0. */
  function ElementStart(p: string, n: nat): (k: nat)
    requires n <= |p|
    ensures k <= n
    decreases n
  {
    if n == 0 || p[n - 1] == '/' then n else ElementStart(p, n - 1)
  }

  /**
   * `filepath.Base` on a Unix path: "." for the empty path, "/" for a path of
   * slashes only, and otherwise the last element once trailing slashes are
   * gone. A base name is never empty, and it is "/" or free of slashes.
   */
  function Base(p: string): (b: string)
    ensures b != []
    ensures b == "/" || '/' !in b
  {
    if p == [] then "."
    else
      var end := TrimmedLength(p, |p|);
      TrimmedEndsInElement(p, |p|);
      if end == 0 then "/"
      else
        ElementHasNoSlash(p, end);
        p[ElementStart(p, end)..end]
  }

  /** The trimmed text ends in something other than a slash. */
  lemma {:induction false} TrimmedEndsInElement(p: string, n: nat)
    requires n <= |p|
    ensures TrimmedLength(p, n) == 0 || p[TrimmedLength(p, n) - 1] != '/'
    decreases n
  {
    if n > 0 && p[n - 1] == '/' {
      TrimmedEndsInElement(p, n - 1);
    }
  }

  /** No slash occurs between the start of the last element and `n`. */
  lemma {:induction false} ElementHasNoSlash(p: string, n: nat)
    requires n <= |p|
    ensures forall i :: ElementStart(p, n) <= i < n ==> p[i] != '/'
    decreases n
  {
    if n > 0 && p[n - 1] != '/' {
      ElementHasNoSlash(p, n - 1);
    }
  }

  lemma {:induction false} ElementStartOfJoin(dir: string, elem: string, n: nat)
    requires '/' !in elem
    requires |dir| + 1 <= n <= |Join(dir, elem)|
    ensures ElementStart(Join(dir, elem), n) == |dir| + 1
    decreases n
  {
    var p := Join(dir, elem);
    if n > |dir| + 1 {
      assert p[n - 1] == elem[n - 1 - |dir| - 1];
      ElementStartOfJoin(dir, elem, n - 1);
    }
  }

  /** The base name of a joined path is the element that was joined on. */
  lemma BaseOfJoin(dir: string, elem: string)
    requires elem != [] && '/' !in elem
    ensures Base(Join(dir, elem)) == elem
  {
    var p := Join(dir, elem);
    assert p[|p| - 1] == elem[|elem| - 1];
    ElementStartOfJoin(dir, elem, |p|);
    assert p[|dir| + 1..] == elem;
  }

}
