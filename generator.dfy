/**
 * `generateFiles(options)` (functions/webpack-config-generator/lib/generateFiles.js):
 * builds `generated/<id>/`, zips its contents into `generated/<id>.zip`,
 * removes the directory and resolves with the id. The three template
 * generators it calls are not part of this model: each is given as the
 * files it writes, or the error it throws.
 */
module Generator {
  import opened Wrappers
  import opened Strings
  import opened Paths
  import opened FileSystem

  /** The request-body fields `generateFiles` reads itself. */
  datatype Options = Options(id: string, jsEntry: string, processStyles: string,
                             stylesPreference: string, stylesEntry: string, stylesType: string)

  /** What one unseen template generator does: write these files (resolved path, text), or throw. */
  datatype TemplateEffect = Wrote(files: seq<(Path, string)>) | Threw(error: string)

  datatype GenError = FsFailed(fs: FsError) | TemplateFailed(error: string)

  /**
   * How the returned promise settles. `Pending`: the zip stream fails to
   * open; the listener `archive.pipe` attaches re-raises the error outside
   * the `try` block, so it is uncaught and the promise never settles.
   */
  datatype Outcome = Resolved(id: string) | Rejected(error: GenError) | Pending

  // The paths, as the template literals build them.

  function JobDir(id: string): Path { Resolve(LibDir, "../generated/" + id) }
  function SrcDir(id: string): Path { Resolve(LibDir, "../generated/" + id + "/src") }
  function JsDir(id: string): Path { Resolve(LibDir, "../generated/" + id + "/src/js") }
  function JsFile(o: Options): Path { Resolve(LibDir, "../generated/" + o.id + "/src/js/" + o.jsEntry + ".js") }
  function StaticDir(id: string): Path { Resolve(LibDir, "../generated/" + id + "/src/static") }
  function StylesDir(id: string): Path { Resolve(LibDir, "../generated/" + id + "/src/styles") }
  function StylesFile(o: Options): Path {
    Resolve(LibDir, "../generated/" + o.id + "/src/styles/" + o.stylesEntry + "." + o.stylesType)
  }
  function ZipPath(id: string): Path { Resolve(LibDir, "../generated/" + id + ".zip") }

  predicate StylesWanted(o: Options) {
    o.processStyles == "yes" && o.stylesPreference == "separate-files"
  }

  // The run, step by step; a thrown error stops it with the state it left.

  datatype Progress = Going(st: FsState) | Stopped(error: GenError, st: FsState)

  function DoMkdir(p: Progress, path: Path): Progress {
    if p.Stopped? then p
    else match Mkdirp(p.st, path)
      case Ok(st) => Going(st)
      case Err(e) => Stopped(FsFailed(e), p.st)
  }

  function DoWrite(p: Progress, path: Path, c: Content): Progress {
    if p.Stopped? then p
    else match WriteFile(p.st, path, c)
      case Ok(st) => Going(st)
      case Err(e) => Stopped(FsFailed(e), p.st)
  }

  function DoWriteAll(p: Progress, files: seq<(Path, string)>): Progress
    decreases |files|
  {
    if files == [] then p else DoWriteAll(DoWrite(p, files[0].0, Text(files[0].1)), files[1..])
  }

  function DoTemplate(p: Progress, t: TemplateEffect): Progress {
    if p.Stopped? then p
    else match t
      case Threw(e) => Stopped(TemplateFailed(e), p.st)
      case Wrote(files) => DoWriteAll(p, files)
  }

  function DirsStep(p: Progress, o: Options): Progress {
    DoMkdir(DoMkdir(p, JobDir(o.id)), SrcDir(o.id))
  }

  function TemplatesStep(p: Progress, config: TemplateEffect, packageJson: TemplateEffect, html: TemplateEffect): Progress {
    DoTemplate(DoTemplate(DoTemplate(p, config), packageJson), html)
  }

  function EntryStep(p: Progress, o: Options): Progress {
    DoMkdir(DoWrite(DoMkdir(p, JsDir(o.id)), JsFile(o), Text("")), StaticDir(o.id))
  }

  function StylesStep(p: Progress, o: Options): Progress {
    if StylesWanted(o) then DoWrite(DoMkdir(p, StylesDir(o.id)), StylesFile(o), Text("")) else p
  }

  /** The synchronous part inside the `try` block, up to the styles file. */
  function Setup(st: FsState, o: Options, config: TemplateEffect, packageJson: TemplateEffect, html: TemplateEffect): Progress {
    StylesStep(EntryStep(TemplatesStep(DirsStep(Going(st), o), config, packageJson, html), o), o)
  }

  /** The whole run: how the promise settles, and the disk afterwards. */
  function GenerateSpec(st: FsState, o: Options, config: TemplateEffect, packageJson: TemplateEffect, html: TemplateEffect): (r: (Outcome, FsState))
    ensures r.0.Resolved? ==> r.0.id == o.id
  {
    match Setup(st, o, config, packageJson, html)
    case Stopped(e, s) => (Rejected(e), s)
    case Going(s) =>
      match WriteFile(s, ZipPath(o.id), Snapshot(s, JobDir(o.id)))
      case Err(_) => (Pending, s)
      case Ok(zipped) => (Resolved(o.id), Rimraf(zipped, JobDir(o.id)))
  }

  // The operations a successful run performs, in order.

  function WriteOps(files: seq<(Path, string)>): (r: seq<Op>)
    ensures |r| == |files| && forall i :: 0 <= i < |files| ==> r[i] == Write(files[i].0)
  {
    if files == [] then [] else [Write(files[0].0)] + WriteOps(files[1..])
  }

  function TemplateOps(t: TemplateEffect): seq<Op> {
    if t.Wrote? then WriteOps(t.files) else []
  }

  function StylesOps(o: Options): seq<Op> {
    if StylesWanted(o) then [MkDir(StylesDir(o.id)), Write(StylesFile(o))] else []
  }

  function DirOps(o: Options): seq<Op> {
    [MkDir(JobDir(o.id)), MkDir(SrcDir(o.id))]
  }

  function EntryOps(o: Options): seq<Op> {
    [MkDir(JsDir(o.id)), Write(JsFile(o)), MkDir(StaticDir(o.id))]
  }

  /** The setup's operations with the template generators' writes at `templates`. */
  function SetupOps(o: Options, templates: seq<Op>): seq<Op> {
    DirOps(o) + templates + EntryOps(o) + StylesOps(o)
  }

  function AllTemplateOps(config: TemplateEffect, packageJson: TemplateEffect, html: TemplateEffect): seq<Op> {
    TemplateOps(config) + TemplateOps(packageJson) + TemplateOps(html)
  }

  /** The zip, written on finalisation, then the removal in the `close` handler. */
  function FinishOps(o: Options): seq<Op> {
    [Write(ZipPath(o.id)), Remove(JobDir(o.id))]
  }

  /** Everything a successful run does, in order. */
  function PlannedOps(o: Options, config: TemplateEffect, packageJson: TemplateEffect, html: TemplateEffect): seq<Op> {
    SetupOps(o, AllTemplateOps(config, packageJson, html)) + FinishOps(o)
  }

  // Once stopped, a run stays stopped.

  /**
   * A template generator that throws rejects the promise with its error;
   * nothing after it runs, and the directories made before it stay.
   */
  lemma TemplateThrowRejects(st: FsState, o: Options, e: string, packageJson: TemplateEffect, html: TemplateEffect)
    requires DirsStep(Going(st), o).Going?
    ensures GenerateSpec(st, o, Threw(e), packageJson, html) == (Rejected(TemplateFailed(e)), DirsStep(Going(st), o).st)
  {
    var stopped := Stopped(TemplateFailed(e), DirsStep(Going(st), o).st);
    assert TemplatesStep(DirsStep(Going(st), o), Threw(e), packageJson, html) == stopped;
    assert EntryStep(stopped, o) == stopped;
    assert StylesStep(stopped, o) == stopped;
  }

  lemma {:induction false} WriteAllStopped(e: GenError, s: FsState, files: seq<(Path, string)>)
    ensures DoWriteAll(Stopped(e, s), files) == Stopped(e, s)
    decreases |files|
  {
    if files != [] {
      WriteAllStopped(e, s, files[1..]);
    }
  }

  // The imperative run.

  lemma Append2<T>(s: seq<T>, a: T, b: T)
    ensures s + [a] + [b] == s + [a, b]
  {
  }

  lemma Concat2<T>(s: seq<T>, a: seq<T>, b: seq<T>)
    ensures s + a + b == s + (a + b)
  {
  }

  lemma Concat4<T>(s: seq<T>, a: seq<T>, b: seq<T>, c: seq<T>, d: seq<T>)
    ensures s + a + b + c + d == s + (a + b + c + d)
  {
  }

  function Status(err: Option<GenError>, st: FsState): Progress {
    if err.None? then Going(st) else Stopped(err.value, st)
  }

  function Failed(e: Option<FsError>): Option<GenError> {
    if e.None? then None else Some(FsFailed(e.value))
  }

  method MkdirStep(fs: FileSystem, path: Path) returns (err: Option<GenError>)
    requires fs.Valid()
    modifies fs
    ensures fs.Valid()
    ensures Status(err, fs.State()) == DoMkdir(Going(old(fs.State())), path)
    ensures err.None? ==> fs.log == old(fs.log) + [MkDir(path)]
  {
    var e := fs.MkdirP(path);
    err := Failed(e);
  }

  method WriteStep(fs: FileSystem, path: Path, c: Content) returns (err: Option<GenError>)
    requires fs.Valid()
    modifies fs
    ensures fs.Valid()
    ensures Status(err, fs.State()) == DoWrite(Going(old(fs.State())), path, c)
    ensures err.None? ==> fs.log == old(fs.log) + [Write(path)]
  {
    var e := fs.WriteFileSync(path, c);
    err := Failed(e);
  }

  /** One template generator's writes, one file at a time. */
  method RunTemplate(fs: FileSystem, t: TemplateEffect) returns (err: Option<GenError>)
    requires fs.Valid()
    modifies fs
    ensures fs.Valid()
    ensures Status(err, fs.State()) == DoTemplate(Going(old(fs.State())), t)
    ensures err.None? ==> fs.log == old(fs.log) + TemplateOps(t)
  {
    if t.Threw? {
      return Some(TemplateFailed(t.error));
    }
    var files := t.files;
    var i := 0;
    while i < |files|
      invariant 0 <= i <= |files| && fs.Valid()
      invariant DoWriteAll(Going(fs.State()), files[i..]) == DoWriteAll(Going(old(fs.State())), files)
      invariant fs.log == old(fs.log) + WriteOps(files[..i])
    {
      WriteAllStep(fs.State(), files, i);
      var e := WriteStep(fs, files[i].0, Text(files[i].1));
      if e.Some? {
        WriteAllStopped(e.value, fs.State(), files[i + 1..]);
        return e;
      }
      WriteOpsStep(files, i);
      i := i + 1;
    }
    assert files[..i] == files;
    err := None;
  }

  /** Writing `files[i..]` is writing `files[i]`, then `files[i + 1..]`. */
  lemma WriteAllStep(s: FsState, files: seq<(Path, string)>, i: nat)
    requires i < |files|
    ensures DoWriteAll(Going(s), files[i..]) == DoWriteAll(DoWrite(Going(s), files[i].0, Text(files[i].1)), files[i + 1..])
  {
    assert files[i..][1..] == files[i + 1..];
  }

  lemma WriteOpsStep(files: seq<(Path, string)>, i: nat)
    requires i < |files|
    ensures WriteOps(files[..i + 1]) == WriteOps(files[..i]) + [Write(files[i].0)]
  {
    assert files[..i + 1] == files[..i] + [files[i]];
    WriteOpsAppend(files[..i], [files[i]]);
  }

  lemma {:induction false} WriteOpsAppend(a: seq<(Path, string)>, b: seq<(Path, string)>)
    ensures WriteOps(a + b) == WriteOps(a) + WriteOps(b)
  {
    if a != [] {
      assert (a + b)[1..] == a[1..] + b;
      WriteOpsAppend(a[1..], b);
    } else {
      assert a + b == b;
    }
  }

  /** Lines 21 and 22. */
  method MakeDirs(fs: FileSystem, o: Options) returns (err: Option<GenError>)
    requires fs.Valid()
    modifies fs
    ensures fs.Valid()
    ensures Status(err, fs.State()) == DirsStep(Going(old(fs.State())), o)
    ensures err.None? ==> fs.log == old(fs.log) + DirOps(o)
  {
    err := MkdirStep(fs, JobDir(o.id));
    if err.Some? { return; }
    err := MkdirStep(fs, SrcDir(o.id));
  }

  /** Lines 23 to 25, in order; the first throw stops the run. */
  method RunTemplates(fs: FileSystem, config: TemplateEffect, packageJson: TemplateEffect, html: TemplateEffect)
    returns (err: Option<GenError>)
    requires fs.Valid()
    modifies fs
    ensures fs.Valid()
    ensures Status(err, fs.State()) == TemplatesStep(Going(old(fs.State())), config, packageJson, html)
    ensures err.None? ==> fs.log == old(fs.log) + AllTemplateOps(config, packageJson, html)
  {
    ghost var p0 := Going(fs.State());
    ghost var log0 := fs.log;
    err := RunTemplate(fs, config);
    ghost var p1 := Status(err, fs.State());
    assert p1 == DoTemplate(p0, config);
    if err.Some? { return; }
    ghost var log1 := fs.log;
    err := RunTemplate(fs, packageJson);
    ghost var p2 := Status(err, fs.State());
    assert p2 == DoTemplate(p1, packageJson);
    if err.Some? { return; }
    ghost var log2 := fs.log;
    err := RunTemplate(fs, html);
    assert Status(err, fs.State()) == DoTemplate(p2, html);
    if err.None? {
      assert fs.log == log2 + TemplateOps(html) && log2 == log1 + TemplateOps(packageJson) && log1 == log0 + TemplateOps(config);
    }
  }

  /** Lines 26 to 39: the entry directory and file, then the static directory. */
  method MakeEntry(fs: FileSystem, o: Options) returns (err: Option<GenError>)
    requires fs.Valid()
    modifies fs
    ensures fs.Valid()
    ensures Status(err, fs.State()) == EntryStep(Going(old(fs.State())), o)
    ensures err.None? ==> fs.log == old(fs.log) + EntryOps(o)
  {
    err := MkdirStep(fs, JsDir(o.id));
    if err.Some? { return; }
    err := WriteStep(fs, JsFile(o), Text(""));
    if err.Some? { return; }
    err := MkdirStep(fs, StaticDir(o.id));
  }

  /** Lines 42 to 59: the styles directory and file, only when asked for. */
  method MakeStyles(fs: FileSystem, o: Options) returns (err: Option<GenError>)
    requires fs.Valid()
    modifies fs
    ensures fs.Valid()
    ensures Status(err, fs.State()) == StylesStep(Going(old(fs.State())), o)
    ensures err.None? ==> fs.log == old(fs.log) + StylesOps(o)
  {
    err := None;
    if StylesWanted(o) {
      err := MkdirStep(fs, StylesDir(o.id));
      if err.Some? { return; }
      err := WriteStep(fs, StylesFile(o), Text(""));
    }
  }

  method SetupFiles(fs: FileSystem, o: Options, config: TemplateEffect, packageJson: TemplateEffect, html: TemplateEffect)
    returns (err: Option<GenError>)
    requires fs.Valid()
    modifies fs
    ensures fs.Valid()
    ensures Status(err, fs.State()) == Setup(old(fs.State()), o, config, packageJson, html)
    ensures err.None? ==> fs.log == old(fs.log) + SetupOps(o, AllTemplateOps(config, packageJson, html))
  {
    ghost var st0 := fs.State();
    ghost var log0 := fs.log;
    err := MakeDirs(fs, o);
    ghost var p1 := Status(err, fs.State());
    assert p1 == DirsStep(Going(st0), o);
    if err.Some? { return; }
    ghost var log1 := fs.log;
    err := RunTemplates(fs, config, packageJson, html);
    ghost var p2 := Status(err, fs.State());
    assert p2 == TemplatesStep(p1, config, packageJson, html);
    if err.Some? { return; }
    ghost var log2 := fs.log;
    err := MakeEntry(fs, o);
    ghost var p3 := Status(err, fs.State());
    assert p3 == EntryStep(p2, o);
    if err.Some? { return; }
    ghost var log3 := fs.log;
    err := MakeStyles(fs, o);
    assert Status(err, fs.State()) == StylesStep(p3, o);
    if err.None? {
      Concat4(log0, DirOps(o), AllTemplateOps(config, packageJson, html), EntryOps(o), StylesOps(o));
    }
  }

  /** `generateFiles(options)`, proved to run as `GenerateSpec` says. */
  method GenerateFiles(fs: FileSystem, o: Options, config: TemplateEffect, packageJson: TemplateEffect, html: TemplateEffect)
    returns (outcome: Outcome)
    requires fs.Valid()
    modifies fs
    ensures fs.Valid()
    ensures (outcome, fs.State()) == GenerateSpec(old(fs.State()), o, config, packageJson, html)
    ensures outcome.Resolved? ==> fs.log == old(fs.log) + PlannedOps(o, config, packageJson, html)
  {
    ghost var st0 := fs.State();
    var err := SetupFiles(fs, o, config, packageJson, html);
    if err.Some? {
      return Rejected(err.value);
    }
    ghost var st1 := fs.State();
    ghost var log1 := fs.log;
    assert Setup(st0, o, config, packageJson, html) == Going(st1);
    var job := JobDir(o.id);
    var zip := Snapshot(fs.State(), job);
    var e := fs.WriteFileSync(ZipPath(o.id), zip);
    if e.Some? {
      return Pending;
    }
    ghost var st2 := fs.State();
    assert WriteFile(st1, ZipPath(o.id), zip) == Ok(st2);
    fs.RimrafSync(job);
    outcome := Resolved(o.id);
    Append2(log1, Write(ZipPath(o.id)), Remove(job));
    assert fs.log == log1 + FinishOps(o);
    Concat2(old(fs.log), SetupOps(o, AllTemplateOps(config, packageJson, html)), FinishOps(o));
    assert GenerateSpec(st0, o, config, packageJson, html) == (Resolved(o.id), Rimraf(st2, job));
  }

  // The layout, for names that stay inside their directory.

  const GeneratedDir: Path := FnDir + ["generated"]

  /**
   * Names that keep every path inside `generated/<id>/`. The generator page
   * filters keystrokes by their last character only, so nothing guarantees it.
   */
  predicate SafeOptions(o: Options) {
    Plain(o.id) && '/' !in o.jsEntry && Plain(o.stylesEntry + "." + o.stylesType)
  }

  lemma SplitTwo(a: string, b: string, tail: string)
    requires '/' !in a && '/' !in b
    ensures Split(a + "/" + (b + "/" + tail), '/') == [a, b] + Split(tail, '/')
  {
    SplitCons(a, b + "/" + tail);
    SplitCons(b, tail);
  }

  lemma ResolveUpThenDown(tail: seq<string>)
    ensures ResolveSegs(LibDir, ["..", "generated"] + tail) == ResolveSegs(GeneratedDir, tail)
  {
    var segs := ["..", "generated"] + tail;
    assert segs[0] == ".." && segs[1..] == ["generated"] + tail;
    assert Parent(LibDir) == FnDir;
    assert (["generated"] + tail)[0] == "generated" && (["generated"] + tail)[1..] == tail;
  }

  lemma ResolveGenerated(tail: string)
    ensures Resolve(LibDir, "../generated/" + tail) == ResolveSegs(GeneratedDir, Split(tail, '/'))
  {
    var s := "../generated/" + tail;
    assert s == ".." + "/" + ("generated" + "/" + tail);
    SplitTwo("..", "generated", tail);
    ResolveUpThenDown(Split(tail, '/'));
  }

  /** A path below `generated/<id>/` whose remaining segments are plain. */
  lemma JobPath(id: string, rest: string, segs: seq<string>)
    requires Plain(id) && Split(rest, '/') == segs
    requires forall i :: 0 <= i < |segs| ==> Plain(segs[i])
    ensures Resolve(LibDir, "../generated/" + id + "/" + rest) == GeneratedDir + [id] + segs
  {
    assert "../generated/" + id + "/" + rest == "../generated/" + (id + "/" + rest);
    ResolveGenerated(id + "/" + rest);
    SplitCons(id, rest);
    assert ([id] + segs)[1..] == segs;
    ResolvePlain(GeneratedDir + [id], segs);
  }

  lemma NoSlashAppend(a: string, b: string)
    requires '/' !in a && '/' !in b
    ensures '/' !in a + b
  {
  }

  lemma JobDirSafe(id: string)
    requires Plain(id)
    ensures JobDir(id) == GeneratedDir + [id]
  {
    ResolveGenerated(id);
    SplitSingle(id);
    ResolvePlain(GeneratedDir, [id]);
  }

  lemma SrcDirSafe(id: string)
    requires Plain(id)
    ensures SrcDir(id) == GeneratedDir + [id, "src"]
  {
    SplitSingle("src");
    JobPath(id, "src", ["src"]);
    assert "../generated/" + id + "/src" == "../generated/" + id + "/" + "src";
  }

  /** `generated/<id>/src/<sub>`. */
  lemma SubDirSafe(id: string, sub: string, lit: string)
    requires Plain(id) && Plain(sub) && lit == "../generated/" + id + "/src/" + sub
    ensures Resolve(LibDir, lit) == GeneratedDir + [id, "src", sub]
  {
    SplitSingle(sub);
    SplitCons("src", sub);
    JobPath(id, "src" + "/" + sub, ["src", sub]);
    assert lit == "../generated/" + id + "/" + ("src" + "/" + sub);
  }

  /** `generated/<id>/src/<sub>/<name>`. */
  lemma FileSafe(id: string, sub: string, name: string, lit: string)
    requires Plain(id) && Plain(sub) && Plain(name) && lit == "../generated/" + id + "/src/" + sub + "/" + name
    ensures Resolve(LibDir, lit) == GeneratedDir + [id, "src", sub, name]
  {
    var rest := "src" + "/" + (sub + "/" + name);
    var segs := ["src", sub, name];
    assert "/src/" == "/" + "src" + "/";
    assert lit == "../generated/" + id + "/" + rest;
    SrcSegs(sub, name);
    JobPath(id, rest, segs);
    assert GeneratedDir + [id] + segs == GeneratedDir + [id, "src", sub, name];
  }

  lemma SrcSegs(sub: string, name: string)
    requires Plain(sub) && Plain(name)
    ensures Split("src" + "/" + (sub + "/" + name), '/') == ["src", sub, name]
    ensures forall i :: 0 <= i < 3 ==> Plain(["src", sub, name][i])
  {
    SplitTwo("src", sub, name);
    SplitSingle(name);
    assert ["src", sub] + [name] == ["src", sub, name];
  }

  lemma ZipPathSafe(id: string)
    requires Plain(id)
    ensures ZipPath(id) == GeneratedDir + [id + ".zip"]
  {
    var z := id + ".zip";
    NoSlashAppend(id, ".zip");
    assert |z| >= 4;
    ResolveGenerated(z);
    SplitSingle(z);
    ResolvePlain(GeneratedDir, [z]);
    assert "../generated/" + id + ".zip" == "../generated/" + z;
  }

  lemma EntryNamePlain(e: string)
    requires '/' !in e
    ensures Plain(e + ".js")
  {
    NoSlashAppend(e, ".js");
    var js := e + ".js";
    assert |js| >= 3 && js[|js| - 1] == 's';
  }

  /** With safe names every path is the job directory plus fixed segments. */
  lemma SafeLayout(o: Options)
    requires SafeOptions(o)
    ensures JobDir(o.id) == GeneratedDir + [o.id]
    ensures SrcDir(o.id) == JobDir(o.id) + ["src"]
    ensures JsDir(o.id) == JobDir(o.id) + ["src", "js"]
    ensures JsFile(o) == JobDir(o.id) + ["src", "js", o.jsEntry + ".js"]
    ensures StaticDir(o.id) == JobDir(o.id) + ["src", "static"]
    ensures StylesDir(o.id) == JobDir(o.id) + ["src", "styles"]
    ensures StylesFile(o) == JobDir(o.id) + ["src", "styles", o.stylesEntry + "." + o.stylesType]
    ensures ZipPath(o.id) == GeneratedDir + [o.id + ".zip"]
  {
    SafeDirs(o.id);
    SafeFiles(o);
    ZipPathSafe(o.id);
  }

  lemma SafeDirs(id: string)
    requires Plain(id)
    ensures JobDir(id) == GeneratedDir + [id]
    ensures SrcDir(id) == JobDir(id) + ["src"]
    ensures JsDir(id) == JobDir(id) + ["src", "js"]
    ensures StaticDir(id) == JobDir(id) + ["src", "static"]
    ensures StylesDir(id) == JobDir(id) + ["src", "styles"]
  {
    JobDirSafe(id);
    SrcDirSafe(id);
    SubDirSafe(id, "js", "../generated/" + id + "/src/js");
    SubDirSafe(id, "static", "../generated/" + id + "/src/static");
    SubDirSafe(id, "styles", "../generated/" + id + "/src/styles");
  }

  lemma SafeFiles(o: Options)
    requires SafeOptions(o)
    ensures JsFile(o) == GeneratedDir + [o.id, "src", "js", o.jsEntry + ".js"]
    ensures StylesFile(o) == GeneratedDir + [o.id, "src", "styles", o.stylesEntry + "." + o.stylesType]
  {
    var id := o.id;
    EntryNamePlain(o.jsEntry);
    FileSafe(id, "js", o.jsEntry + ".js", "../generated/" + id + "/src/js/" + o.jsEntry + ".js");
    FileSafe(id, "styles", o.stylesEntry + "." + o.stylesType,
      "../generated/" + id + "/src/styles/" + o.stylesEntry + "." + o.stylesType);
  }

  // What the run does, as its sequence of operations.

  /** The generator's own operations around the template generators' `templates`. */
  function OwnOps(o: Options, templates: seq<Op>): seq<Op> {
    SetupOps(o, templates) + FinishOps(o)
  }

  lemma OwnOpsShape(o: Options, templates: seq<Op>)
    ensures OwnOps(o, templates) == DirOps(o) + templates + EntryOps(o) + StylesOps(o) + FinishOps(o)
  {
  }

  /**
   * Every file the generator writes itself lies in a directory it created
   * earlier: `generated/<id>` before the zip, `src/js` before the entry file,
   * `src/styles` before the styles file.
   */
  lemma DirsBeforeFiles(o: Options, templates: seq<Op>)
    requires SafeOptions(o)
    ensures var ops := OwnOps(o, templates);
      forall i :: 0 <= i < |ops| && ops[i].Write? && !(2 <= i < 2 + |templates|) ==>
        exists j :: 0 <= j < i && ops[j].MkDir? && IsPrefix(Parent(ops[i].path), ops[j].path)
  {
    SafeLayout(o);
    var ops := OwnOps(o, templates);
    var n := |templates|;
    OwnOpsShape(o, templates);
    forall i | 0 <= i < |ops| && ops[i].Write? && !(2 <= i < 2 + n)
      ensures exists j :: 0 <= j < i && ops[j].MkDir? && IsPrefix(Parent(ops[i].path), ops[j].path)
    {
      if i == 3 + n {
        assert ops[i] == Write(JsFile(o)) && ops[2 + n] == MkDir(JsDir(o.id));
        assert Parent(JsFile(o)) == JsDir(o.id);
      } else if StylesWanted(o) && i == 6 + n {
        assert ops[i] == Write(StylesFile(o)) && ops[5 + n] == MkDir(StylesDir(o.id));
        assert Parent(StylesFile(o)) == StylesDir(o.id);
      } else {
        assert i == |ops| - 2 && ops[i] == Write(ZipPath(o.id));
        assert ops[0] == MkDir(JobDir(o.id));
        assert Parent(ZipPath(o.id)) == GeneratedDir;
        assert IsPrefix(GeneratedDir, JobDir(o.id));
      }
    }
  }

  /**
   * `src/styles` and the styles file are made if and only if styles are
   * processed from separate files, unless a template generator wrote the
   * same file.
   */
  lemma StylesIff(o: Options, templates: seq<Op>)
    requires SafeOptions(o)
    requires forall k :: 0 <= k < |templates| ==> templates[k].Write? && templates[k].path != StylesFile(o)
    ensures Write(StylesFile(o)) in OwnOps(o, templates) <==> StylesWanted(o)
    ensures MkDir(StylesDir(o.id)) in OwnOps(o, templates) <==> StylesWanted(o)
  {
    SafeLayout(o);
    OwnOpsShape(o, templates);
    var sf := StylesFile(o);
    assert sf != JsFile(o) by { assert sf[5] == "styles" != "js" == JsFile(o)[5]; }
    assert sf != ZipPath(o.id) by { assert |sf| != |ZipPath(o.id)|; }
    assert StylesDir(o.id) != JsDir(o.id) by { assert StylesDir(o.id)[5] != JsDir(o.id)[5]; }
    assert StylesDir(o.id) != StaticDir(o.id) by { assert StylesDir(o.id)[5] != StaticDir(o.id)[5]; }
    assert StylesDir(o.id) != JobDir(o.id) && StylesDir(o.id) != SrcDir(o.id);
    assert Write(sf) !in templates;
    assert MkDir(StylesDir(o.id)) !in templates;
  }

  /**
   * With safe names the generator touches nothing but `generated/<id>/` and
   * `generated/<id>.zip`, once the template generators keep to that directory.
   */
  lemma Scoped(o: Options, templates: seq<Op>)
    requires SafeOptions(o)
    requires forall k :: 0 <= k < |templates| ==> IsPrefix(JobDir(o.id), templates[k].path)
    ensures var ops := OwnOps(o, templates);
      forall i :: 0 <= i < |ops| ==> IsPrefix(JobDir(o.id), ops[i].path) || ops[i].path == ZipPath(o.id)
  {
    SafeLayout(o);
    var job, zip := JobDir(o.id), ZipPath(o.id);
    OwnOpsShape(o, templates);
    PrefixOfAppend(job, []);
    PrefixOfAppend(job, ["src"]);
    PrefixOfAppend(job, ["src", "js"]);
    PrefixOfAppend(job, ["src", "js", o.jsEntry + ".js"]);
    PrefixOfAppend(job, ["src", "static"]);
    PrefixOfAppend(job, ["src", "styles"]);
    PrefixOfAppend(job, ["src", "styles", o.stylesEntry + "." + o.stylesType]);
    assert job + [] == job;
    assert OpsScoped(job, zip, DirOps(o));
    assert OpsScoped(job, zip, templates);
    assert OpsScoped(job, zip, EntryOps(o));
    assert OpsScoped(job, zip, StylesOps(o));
    assert OpsScoped(job, zip, FinishOps(o));
    ScopedAppend(job, zip, DirOps(o), templates);
    ScopedAppend(job, zip, DirOps(o) + templates, EntryOps(o));
    ScopedAppend(job, zip, DirOps(o) + templates + EntryOps(o), StylesOps(o));
    ScopedAppend(job, zip, DirOps(o) + templates + EntryOps(o) + StylesOps(o), FinishOps(o));
  }

  /** Every operation of `ops` is inside `job`, or is on `zip`. */
  ghost predicate OpsScoped(job: Path, zip: Path, ops: seq<Op>) {
    forall i :: 0 <= i < |ops| ==> IsPrefix(job, ops[i].path) || ops[i].path == zip
  }

  lemma ScopedAppend(job: Path, zip: Path, a: seq<Op>, b: seq<Op>)
    requires OpsScoped(job, zip, a) && OpsScoped(job, zip, b)
    ensures OpsScoped(job, zip, a + b)
  {
    forall i | 0 <= i < |a + b| ensures IsPrefix(job, (a + b)[i].path) || (a + b)[i].path == zip {
      if i >= |a| {
        assert (a + b)[i] == b[i - |a|];
      }
    }
  }

  lemma PrefixOfAppend(p: Path, t: Path)
    ensures IsPrefix(p, p + t)
  {
    assert (p + t)[..|p|] == p;
  }

  /**
   * Counterexample to scoping without safe names: the entry name
   * `../../../<name>` puts the entry file directly in `generated/`, outside
   * the job directory, and so outside the zip.
   */
  lemma EntryNameEscapes(id: string, name: string)
    requires Plain(id) && Plain(name) && id != name + ".js"
    ensures var o := Options(id, "../../../" + name, "no", "css-in-js", "style", "css");
      JsFile(o) == GeneratedDir + [name + ".js"] && !IsPrefix(JobDir(id), JsFile(o))
  {
    var o := Options(id, "../../../" + name, "no", "css-in-js", "style", "css");
    var js := name + ".js";
    EntryNamePlain(name);
    var tail := EscapeTail(id, js);
    EscapeLiteral(id, name);
    ResolveGenerated(tail);
    EscapeSplit(id, js);
    EscapeResolve(id, js);
    JobDirSafe(id);
    assert JsFile(o) == GeneratedDir + [js];
    assert |JsFile(o)| == |JobDir(id)| && JsFile(o)[3] != JobDir(id)[3];
  }

  function EscapeTail(id: string, js: string): string {
    id + "/" + ("src" + "/" + ("js" + "/" + (".." + "/" + (".." + "/" + (".." + "/" + js)))))
  }

  lemma EscapeLiteral(id: string, name: string)
    ensures "../generated/" + id + "/src/js/" + ("../../../" + name) + ".js" == "../generated/" + EscapeTail(id, name + ".js")
  {
    var js := name + ".js";
    assert "/src/js/" + ("../../../" + name) + ".js" == "/src/js/../../../" + js;
    assert "/src/js/../../../" + js == "/" + ("src" + "/" + ("js" + "/" + (".." + "/" + (".." + "/" + (".." + "/" + js)))));
  }

  lemma EscapeSplit(id: string, js: string)
    requires '/' !in id && '/' !in js
    ensures Split(EscapeTail(id, js), '/') == [id, "src", "js"] + ["..", "..", "..", js]
  {
    var up := ".." + "/" + (".." + "/" + (".." + "/" + js));
    SplitDown(id, up);
    SplitUp(js);
  }

  lemma SplitDown(id: string, rest: string)
    requires '/' !in id
    ensures Split(id + "/" + ("src" + "/" + ("js" + "/" + rest)), '/') == [id, "src", "js"] + Split(rest, '/')
  {
    SplitThree(id, "src", "js", rest);
  }

  lemma SplitThree(a: string, b: string, c: string, rest: string)
    requires '/' !in a && '/' !in b && '/' !in c
    ensures Split(a + "/" + (b + "/" + (c + "/" + rest)), '/') == [a, b, c] + Split(rest, '/')
  {
    var tail := Split(rest, '/');
    SplitCons(a, b + "/" + (c + "/" + rest));
    SplitTwo(b, c, rest);
    ConsTwo(a, [b, c], tail);
  }

  lemma ConsTwo(a: string, bc: seq<string>, tail: seq<string>)
    requires |bc| == 2
    ensures [a] + (bc + tail) == [a, bc[0], bc[1]] + tail
  {
  }

  lemma SplitUp(js: string)
    requires '/' !in js
    ensures Split(".." + "/" + (".." + "/" + (".." + "/" + js)), '/') == ["..", "..", "..", js]
  {
    SplitThree("..", "..", "..", js);
    SplitSingle(js);
  }

  lemma EscapeResolve(id: string, js: string)
    requires Plain(id) && Plain(js)
    ensures ResolveSegs(GeneratedDir, [id, "src", "js"] + ["..", "..", "..", js]) == GeneratedDir + [js]
  {
    var up := ["..", "..", "..", js];
    ResolveAppend(GeneratedDir, [id, "src", "js"], up);
    ResolvePlain(GeneratedDir, [id, "src", "js"]);
    var b0 := GeneratedDir + [id, "src", "js"];
    var b1 := GeneratedDir + [id, "src"];
    var b2 := GeneratedDir + [id];
    assert Parent(b0) == b1 && Parent(b1) == b2 && Parent(b2) == GeneratedDir;
    assert up[1..] == ["..", "..", js] && up[1..][1..] == ["..", js] && up[1..][1..][1..] == [js];
    assert ResolveSegs(b0, up) == ResolveSegs(b1, ["..", "..", js]);
    assert ResolveSegs(b1, ["..", "..", js]) == ResolveSegs(b2, ["..", js]);
    assert ResolveSegs(b2, ["..", js]) == ResolveSegs(GeneratedDir, [js]);
    ResolvePlain(GeneratedDir, [js]);
  }

  // The disk after a successful run.

  lemma MkdirGoing(p: Progress, path: Path)
    requires DoMkdir(p, path).Going?
    ensures p.Going?
    ensures DoMkdir(p, path).st == FsState(p.st.files, p.st.dirs + Ancestors(path))
  {
  }

  lemma WriteGoing(p: Progress, path: Path, c: Content)
    requires DoWrite(p, path, c).Going?
    ensures p.Going?
    ensures DoWrite(p, path, c).st == FsState(p.st.files[path := c], p.st.dirs)
  {
  }

  lemma EntryFacts(p: Progress, o: Options)
    requires EntryStep(p, o).Going?
    ensures p.Going?
    ensures var r := EntryStep(p, o).st;
      JsFile(o) in r.files && r.files[JsFile(o)] == Text("")
      && Ancestors(JsDir(o.id)) + Ancestors(StaticDir(o.id)) <= r.dirs
  {
    var a := DoMkdir(p, JsDir(o.id));
    var b := DoWrite(a, JsFile(o), Text(""));
    MkdirGoing(b, StaticDir(o.id));
    WriteGoing(a, JsFile(o), Text(""));
    MkdirGoing(p, JsDir(o.id));
  }

  lemma StylesFacts(p: Progress, o: Options)
    requires StylesStep(p, o).Going?
    ensures p.Going?
    ensures var r := StylesStep(p, o).st;
      p.st.dirs <= r.dirs
      && (forall q :: q in p.st.files && q != StylesFile(o) ==> q in r.files && r.files[q] == p.st.files[q])
      && (StylesWanted(o) ==> StylesFile(o) in r.files && r.files[StylesFile(o)] == Text("") && Ancestors(StylesDir(o.id)) <= r.dirs)
  {
    if StylesWanted(o) {
      var a := DoMkdir(p, StylesDir(o.id));
      WriteGoing(a, StylesFile(o), Text(""));
      MkdirGoing(p, StylesDir(o.id));
    }
  }

  /** The archive `z` holds an empty text file at `rel`. */
  predicate HasEmptyFile(z: Content, rel: Path)
    requires z.Zip?
  {
    rel in z.entries && z.entries[rel] == Text("")
  }

  /** The files and folders `generateFiles` itself puts in the archive. */
  ghost predicate ZipHasLayout(z: Content, o: Options) {
    && z.Zip?
    && HasEmptyFile(z, ["src", "js", o.jsEntry + ".js"])
    && ["src"] in z.folders && ["src", "js"] in z.folders && ["src", "static"] in z.folders
    && (StylesWanted(o) ==> HasEmptyFile(z, ["src", "styles", o.stylesEntry + "." + o.stylesType]) && ["src", "styles"] in z.folders)
  }

  /** What the setup leaves in the job directory. */
  ghost predicate SetupLayout(s: FsState, o: Options) {
    && JsFile(o) in s.files && s.files[JsFile(o)] == Text("")
    && Ancestors(JsDir(o.id)) + Ancestors(StaticDir(o.id)) <= s.dirs
    && (StylesWanted(o) ==> StylesFile(o) in s.files && s.files[StylesFile(o)] == Text("") && Ancestors(StylesDir(o.id)) <= s.dirs)
  }

  lemma SetupFacts(st: FsState, o: Options, config: TemplateEffect, packageJson: TemplateEffect, html: TemplateEffect)
    requires SafeOptions(o)
    requires Setup(st, o, config, packageJson, html).Going?
    ensures SetupLayout(Setup(st, o, config, packageJson, html).st, o)
  {
    SafeLayout(o);
    var pre := TemplatesStep(DirsStep(Going(st), o), config, packageJson, html);
    var entry := EntryStep(pre, o);
    StylesFacts(entry, o);
    EntryFacts(pre, o);
    assert JsFile(o) != StylesFile(o) by { assert JsFile(o)[5] != StylesFile(o)[5]; }
  }

  lemma SnapshotLayout(s: FsState, o: Options)
    requires SafeOptions(o) && SetupLayout(s, o)
    ensures ZipHasLayout(Snapshot(s, JobDir(o.id)), o)
  {
    SafeLayout(o);
    var job := JobDir(o.id);
    AncestorOf(StaticDir(o.id), SrcDir(o.id));
    AncestorOf(JsDir(o.id), JsDir(o.id));
    AncestorOf(StaticDir(o.id), StaticDir(o.id));
    SnapshotFile(s, job, "js", o.jsEntry + ".js");
    SnapshotFolders(s, job, ["src"]);
    SnapshotFolders(s, job, ["src", "static"]);
    if StylesWanted(o) {
      AncestorOf(StylesDir(o.id), StylesDir(o.id));
      SnapshotFile(s, job, "styles", o.stylesEntry + "." + o.stylesType);
    }
  }

  /** An empty file `src/<sub>/<name>` of the job directory, and its folder, in the archive. */
  lemma SnapshotFile(s: FsState, job: Path, sub: string, name: string)
    requires job + ["src", sub, name] in s.files && s.files[job + ["src", sub, name]] == Text("")
    requires job + ["src", sub] in s.dirs
    ensures HasEmptyFile(Snapshot(s, job), ["src", sub, name]) && ["src", sub] in Snapshot(s, job).folders
  {
    SnapshotEntries(s, job, ["src", sub, name]);
    SnapshotFolders(s, job, ["src", sub]);
  }

  /**
   * After the promise resolves, `generated/<id>.zip` exists and holds the
   * entry file, the static folder and, when asked for, the styles file, all
   * relative to the job directory; nothing under `generated/<id>/` is left.
   */
  lemma ResolvedLeavesZip(st: FsState, o: Options, config: TemplateEffect, packageJson: TemplateEffect, html: TemplateEffect)
    requires SafeOptions(o)
    requires GenerateSpec(st, o, config, packageJson, html).0.Resolved?
    ensures var fin := GenerateSpec(st, o, config, packageJson, html).1;
      && ZipPath(o.id) in fin.files && ZipHasLayout(fin.files[ZipPath(o.id)], o)
      && (forall q :: IsPrefix(JobDir(o.id), q) ==> q !in fin.files && q !in fin.dirs)
  {
    var job := JobDir(o.id);
    var s := Setup(st, o, config, packageJson, html).st;
    SetupFacts(st, o, config, packageJson, html);
    SnapshotLayout(s, o);
    var zipped := WriteFile(s, ZipPath(o.id), Snapshot(s, job)).value;
    ZipOutsideJob(o.id);
    assert GenerateSpec(st, o, config, packageJson, html).1 == Rimraf(zipped, job);
  }

  lemma ZipOutsideJob(id: string)
    requires Plain(id)
    ensures !IsPrefix(JobDir(id), ZipPath(id))
  {
    JobDirSafe(id);
    ZipPathSafe(id);
    assert |id + ".zip"| != |id|;
    assert ZipPath(id)[3] != JobDir(id)[3];
  }

  lemma AncestorOf(p: Path, q: Path)
    requires q != [] && IsPrefix(q, p)
    ensures q in Ancestors(p)
  {
  }
}
