/**
 * The part of the local file system the generator and its routes touch:
 * `mkdirp.sync`, `fs.writeFileSync`, `rimraf.sync` and the archive that
 * `archiver` writes from a directory. The root directory is implicit.
 */
module FileSystem {
  import opened Wrappers
  import opened Paths

  /**
   * A file: text, or a zip mapping each entry's path, relative to the
   * archived directory, to that file's content (itself a zip, for an
   * archive that was below the directory).
   */
  datatype Content = Text(text: string) | Zip(entries: map<Path, Content>, folders: set<Path>)

  datatype FsError =
    | NotADirectory(path: Path)  // ENOTDIR / EEXIST: a file where a directory is needed
    | IsADirectory(path: Path)   // EISDIR: writing over a directory
    | NoSuchDirectory(path: Path) // ENOENT: the parent directory is missing

  datatype FsState = FsState(files: map<Path, Content>, dirs: set<Path>)

  /** An operation that took effect, in the order it did. */
  datatype Op = MkDir(path: Path) | Write(path: Path) | Remove(path: Path)

  predicate IsDir(st: FsState, p: Path) { p == [] || p in st.dirs }

  /** The directory holding `p` exists. */
  ghost predicate InDir(st: FsState, p: Path) { IsDir(st, Parent(p)) }

  /**
   * Every entry sits in a directory, and no path is both a file and a
   * directory. (The parent facts fire only on `InDir` terms, so they do not
   * chain from a directory to its parent's parent.)
   */
  ghost predicate WellFormed(st: FsState) {
    && [] !in st.files && [] !in st.dirs
    && (forall p :: p in st.files ==> p !in st.dirs)
    && (forall p {:trigger InDir(st, p)} :: p in st.files ==> InDir(st, p))
    && (forall d {:trigger InDir(st, d)} :: d in st.dirs ==> InDir(st, d))
  }

  /** The directories `mkdirp` makes for `p`: `p` and all its ancestors below the root. */
  function Ancestors(p: Path): (r: set<Path>)
    ensures forall q :: q in r <==> q != [] && IsPrefix(q, p)
  {
    var r := set i | 1 <= i <= |p| :: p[..i];
    assert forall q :: q != [] && IsPrefix(q, p) ==> q == p[..|q|];
    r
  }

  /**
   * `mkdirp.sync(p)`: fails when some ancestor of `p`, or `p` itself, is a
   * file. The shorter ancestors then already exist as directories, so a
   * failure changes nothing.
   */
  function Mkdirp(st: FsState, p: Path): (r: Result<FsState, FsError>)
    ensures r.Ok? <==> forall q :: q in Ancestors(p) ==> q !in st.files
    ensures r.Ok? ==> r.value == FsState(st.files, st.dirs + Ancestors(p))
  {
    if exists q :: q in Ancestors(p) && q in st.files then Err(NotADirectory(p))
    else Ok(FsState(st.files, st.dirs + Ancestors(p)))
  }

  lemma MkdirpWellFormed(st: FsState, p: Path)
    requires WellFormed(st) && Mkdirp(st, p).Ok?
    ensures WellFormed(Mkdirp(st, p).value)
  {
    var r := Mkdirp(st, p).value;
    forall q | q in r.files ensures InDir(r, q) {
      assert InDir(st, q);
    }
    forall d | d in r.dirs ensures InDir(r, d) {
      if d in Ancestors(p) {
        if Parent(d) != [] {
          assert IsPrefix(Parent(d), p);
        }
      } else {
        assert InDir(st, d);
      }
    }
  }

  /** `fs.writeFileSync(p, c)`: needs the parent directory and refuses to overwrite a directory. */
  function WriteFile(st: FsState, p: Path, c: Content): (r: Result<FsState, FsError>)
    ensures r.Ok? <==> p != [] && p !in st.dirs && IsDir(st, Parent(p))
    ensures r.Ok? ==> r.value == FsState(st.files[p := c], st.dirs)
  {
    if p == [] || p in st.dirs then Err(IsADirectory(p))
    else if !IsDir(st, Parent(p)) then Err(NoSuchDirectory(Parent(p)))
    else Ok(FsState(st.files[p := c], st.dirs))
  }

  lemma WriteFileWellFormed(st: FsState, p: Path, c: Content)
    requires WellFormed(st) && WriteFile(st, p, c).Ok?
    ensures WellFormed(WriteFile(st, p, c).value)
  {
    var r := WriteFile(st, p, c).value;
    assert r.dirs == st.dirs && r.files.Keys == st.files.Keys + {p};
    forall q | q in r.files ensures InDir(r, q) {
      if q != p {
        assert InDir(st, q);
      }
    }
    forall d | d in r.dirs ensures InDir(r, d) {
      assert InDir(st, d);
    }
  }

  /** `rimraf.sync(p)`: removes `p` and everything below it; a missing `p` is no error. */
  function Rimraf(st: FsState, p: Path): (r: FsState)
    ensures forall q :: q in r.files <==> q in st.files && !IsPrefix(p, q)
    ensures forall q :: q in r.files ==> r.files[q] == st.files[q]
    ensures forall q :: q in r.dirs <==> q in st.dirs && !IsPrefix(p, q)
    ensures WellFormed(st) ==> WellFormed(r)
  {
    var r := FsState(map q | q in st.files && !IsPrefix(p, q) :: st.files[q],
                     set q | q in st.dirs && !IsPrefix(p, q));
    assert WellFormed(st) ==> WellFormed(r) by {
      if WellFormed(st) {
        forall q | q in r.files ensures InDir(r, q) {
          assert InDir(st, q);
          RemovedParent(p, q);
        }
        forall q | q in r.dirs ensures InDir(r, q) {
          assert InDir(st, q);
          RemovedParent(p, q);
        }
      }
    }
    r
  }

  lemma RemovedParent(p: Path, q: Path)
    requires q != [] && !IsPrefix(p, q)
    ensures !IsPrefix(p, Parent(q))
  {
  }

  /** Removing twice is removing once. */
  lemma RimrafIdempotent(st: FsState, p: Path)
    ensures Rimraf(Rimraf(st, p), p) == Rimraf(st, p)
  {
    var once, twice := Rimraf(st, p), Rimraf(Rimraf(st, p), p);
    assert once.files == twice.files;
    assert once.dirs == twice.dirs;
  }

  /** `archive.directory(dir, '')`: the files and folders strictly below `dir`, relative to it. */
  function Snapshot(st: FsState, dir: Path): Content {
    var rels := set q | q in st.files && IsPrefix(dir, q) && |q| > |dir| :: q[|dir|..];
    Zip(map rel | rel in rels && dir + rel in st.files :: st.files[dir + rel],
        set d | d in st.dirs && IsPrefix(dir, d) && |d| > |dir| :: d[|dir|..])
  }

  /** The archive holds exactly the directory's files, whatever their content, under their paths relative to it. */
  lemma SnapshotEntries(st: FsState, dir: Path, rel: Path)
    ensures rel in Snapshot(st, dir).entries <==> rel != [] && dir + rel in st.files
    ensures rel in Snapshot(st, dir).entries ==> Snapshot(st, dir).entries[rel] == st.files[dir + rel]
  {
    if rel != [] && dir + rel in st.files {
      var q := dir + rel;
      assert q[..|dir|] == dir && q[|dir|..] == rel;
    }
    if rel in Snapshot(st, dir).entries {
      var q :| q in st.files && IsPrefix(dir, q) && |q| > |dir| && q[|dir|..] == rel;
      assert q == dir + rel;
    }
  }

  lemma SnapshotFolders(st: FsState, dir: Path, rel: Path)
    ensures rel in Snapshot(st, dir).folders <==> rel != [] && dir + rel in st.dirs
  {
    if rel != [] && dir + rel in st.dirs {
      var d := dir + rel;
      assert d[..|dir|] == dir && d[|dir|..] == rel;
    }
    if rel in Snapshot(st, dir).folders {
      var d :| d in st.dirs && IsPrefix(dir, d) && |d| > |dir| && d[|dir|..] == rel;
      assert d == dir + rel;
    }
  }

  function ErrorOf(r: Result<FsState, FsError>): (e: Option<FsError>)
    ensures e.None? <==> r.Ok?
  {
    if r.Ok? then None else Some(r.error)
  }

  /** The disk, updated in place by each call. `log` records the operations that took effect. */
  class FileSystem {
    var files: map<Path, Content>
    var dirs: set<Path>
    ghost var log: seq<Op>

    function State(): FsState
      reads this
    {
      FsState(files, dirs)
    }

    ghost predicate Valid()
      reads this
    {
      WellFormed(State())
    }

    constructor (st: FsState)
      requires WellFormed(st)
      ensures State() == st && log == [] && Valid()
    {
      files := st.files;
      dirs := st.dirs;
      log := [];
    }

    method MkdirP(p: Path) returns (err: Option<FsError>)
      requires Valid()
      modifies this
      ensures Valid()
      ensures err == ErrorOf(Mkdirp(old(State()), p))
      ensures err.None? ==> State() == Mkdirp(old(State()), p).value && log == old(log) + [MkDir(p)]
      ensures err.Some? ==> State() == old(State()) && log == old(log)
    {
      match Mkdirp(State(), p)
      case Ok(st) =>
        MkdirpWellFormed(State(), p);
        dirs := st.dirs;
        log := log + [MkDir(p)];
        err := None;
      case Err(e) =>
        err := Some(e);
    }

    method WriteFileSync(p: Path, c: Content) returns (err: Option<FsError>)
      requires Valid()
      modifies this
      ensures Valid()
      ensures err == ErrorOf(WriteFile(old(State()), p, c))
      ensures err.None? ==> State() == WriteFile(old(State()), p, c).value && log == old(log) + [Write(p)]
      ensures err.Some? ==> State() == old(State()) && log == old(log)
    {
      match WriteFile(State(), p, c)
      case Ok(st) =>
        WriteFileWellFormed(State(), p, c);
        files := st.files;
        log := log + [Write(p)];
        err := None;
      case Err(e) =>
        err := Some(e);
    }

    method RimrafSync(p: Path)
      requires Valid()
      modifies this
      ensures Valid()
      ensures State() == Rimraf(old(State()), p) && log == old(log) + [Remove(p)]
    {
      var st := Rimraf(State(), p);
      files, dirs := st.files, st.dirs;
      log := log + [Remove(p)];
    }
  }
}
