/** The `cleanup` session of noxfile.py: remove the coverage data file and the
    two cache folders, each only when it exists. The file system is a set of
    existing paths; removing a folder (`shutil.rmtree`) removes it and every
    path below it. */
module Cleanup {
  import opened Tokens

  const COVERAGE_FILE: string := ".coverage"
  const FOLDERS: seq<string> := [".pytest_cache", "__pycache__"]

  /** `path` is `dir` itself or lies below it. */
  predicate Under(path: string, dir: string) {
    path == dir || StartsWith(path, dir + "/")
  }

  /** The paths that remain after removing the tree at `dir`. */
  function WithoutTree(paths: set<string>, dir: string): (r: set<string>)
    ensures r <= paths && dir !in r
    ensures forall p :: p in paths ==> (p in r <==> !Under(p, dir))
  {
    set p | p in paths && !Under(p, dir)
  }

  /** One guarded `rmtree`: remove the tree at `dir` only if `dir` exists. */
  function RemoveTreeIfExists(paths: set<string>, dir: string): (r: set<string>)
    ensures r <= paths && dir !in r
    ensures forall p :: p in paths && !Under(p, dir) ==> p in r
    ensures dir !in paths ==> r == paths
    ensures dir in paths ==> forall p :: p in r ==> !Under(p, dir)
  {
    if dir in paths then WithoutTree(paths, dir) else paths
  }

  /** Lying below is transitive: below a folder below `g` is below `g`. */
  lemma UnderTransitive(p: string, f: string, g: string)
    requires Under(p, f) && Under(f, g)
    ensures Under(p, g)
  {
    if p != f && f != g {
      assert p[..|g + "/"|] == (p[..|f + "/"|])[..|g + "/"|];
    }
  }

  /** A folder that an earlier removal already took away takes nothing more
      with it: what is left lies below none of the earlier existing folders,
      so none of it lies below `last` either. */
  lemma GoneWithEarlier(mid: set<string>, paths: set<string>, front: seq<string>, last: string)
    requires forall p :: p in mid <==> p in paths && forall f :: f in front && f in paths ==> !Under(p, f)
    requires last in paths && last !in mid
    ensures forall p :: p in mid ==> !Under(p, last)
  {
    var g :| g in front && g in paths && Under(last, g);
    forall p | p in mid ensures !Under(p, last) {
      if Under(p, last) {
        UnderTransitive(p, last, g);
      }
    }
  }

  /** The guarded removals of `folders`, in order: a path is left exactly when
      it existed and lies below none of the folders that existed. */
  function RemoveFolders(paths: set<string>, folders: seq<string>): (r: set<string>)
    ensures r <= paths
    ensures forall p :: p in r <==> p in paths && forall f :: f in folders && f in paths ==> !Under(p, f)
  {
    if folders == [] then paths
    else
      var front, last := folders[..|folders| - 1], folders[|folders| - 1];
      assert folders == front + [last];
      var mid := RemoveFolders(paths, front);
      var r := RemoveTreeIfExists(mid, last);
      if last in paths && last !in mid then
        GoneWithEarlier(mid, paths, front, last);
        r
      else r
  }

  /** What the session leaves behind: neither the coverage file nor either
      folder exists any more, and nothing was added. */
  function CleanupResult(paths: set<string>): (r: set<string>)
    ensures r <= paths
    ensures COVERAGE_FILE !in r
    ensures forall f :: f in FOLDERS ==> f !in r
  {
    var file := if COVERAGE_FILE in paths then paths - {COVERAGE_FILE} else paths;
    RemoveFoldersRemovesAll(file, FOLDERS);
    RemoveFolders(file, FOLDERS)
  }

  /** Below a folder that existed nothing is left, and a path is kept exactly
      when it existed, is not the coverage file, and lies below none of the
      folders that existed; a corollary of the contract of `RemoveFolders`. */
  lemma CleanupEffect(paths: set<string>)
    ensures forall f, p :: f in FOLDERS && f in paths && p in CleanupResult(paths) ==> !Under(p, f)
    ensures forall p :: p in CleanupResult(paths) <==>
              p in paths && p != COVERAGE_FILE && forall f :: f in FOLDERS && f in paths ==> !Under(p, f)
  {
  }

  /** The file system as the session sees it. */
  class FileSystem {
    var paths: set<string>

    constructor (paths: set<string>)
      ensures this.paths == paths
    {
      this.paths := paths;
    }

    /** `os.path.exists` */
    predicate Exists(path: string)
      reads this
    {
      path in paths
    }

    /** `os.remove`, which fails on a missing path. */
    method Remove(path: string)
      requires path in paths
      modifies this
      ensures paths == old(paths) - {path}
    {
      paths := paths - {path};
    }

    /** `shutil.rmtree`, which fails on a missing path. */
    method RemoveTree(dir: string)
      requires dir in paths
      modifies this
      ensures paths == WithoutTree(old(paths), dir)
    {
      paths := WithoutTree(paths, dir);
    }
  }

  /** `run_cleanup`: each removal is guarded by an existence test, so the
      session never removes a missing path. */
  method RunCleanup(fs: FileSystem)
    modifies fs
    ensures fs.paths == CleanupResult(old(fs.paths))
  {
    if fs.Exists(COVERAGE_FILE) {
      fs.Remove(COVERAGE_FILE);
    }
    ghost var file := fs.paths;
    for i := 0 to |FOLDERS|
      invariant fs.paths == RemoveFolders(file, FOLDERS[..i])
    {
      var f := FOLDERS[i];
      if fs.Exists(f) {
        fs.RemoveTree(f);
      }
      assert FOLDERS[..i + 1][..i] == FOLDERS[..i];
    }
    assert FOLDERS[..|FOLDERS|] == FOLDERS;
  }

  /** After the guarded removals none of the folders exists; a corollary of
      the contract of `RemoveFolders`. */
  lemma RemoveFoldersRemovesAll(paths: set<string>, folders: seq<string>)
    ensures RemoveFolders(paths, folders) <= paths
    ensures forall f :: f in folders ==> f !in RemoveFolders(paths, folders)
  {
  }

  /** Guarded removals of folders that do not exist change nothing; a
      corollary of the contract of `RemoveFolders`. */
  lemma RemoveFoldersAbsent(paths: set<string>, folders: seq<string>)
    requires forall f :: f in folders ==> f !in paths
    ensures RemoveFolders(paths, folders) == paths
  {
  }

  /** Running the session a second time on what the first run left changes
      nothing. */
  lemma CleanupIdempotent(paths: set<string>)
    ensures CleanupResult(CleanupResult(paths)) == CleanupResult(paths)
  {
    var once := CleanupResult(paths);
    assert once - {COVERAGE_FILE} == once;
    RemoveFoldersAbsent(once, FOLDERS);
  }
}
