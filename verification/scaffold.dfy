/**
 * The scaffolder's `main`: overwrite guard, root creation, directory loop,
 * `.gitkeep` placeholders and the stream of `create_file` calls, each a
 * pure transformer of the abstract filesystem.
 */
module Scaffold {
  import opened Wrappers
  import opened Text
  import opened FileSystem
  import opened Templates

  /** `Path(BASE_TEST_DIR) / PROJECT_ROOT_NAME`. */
  function ProjectPath(p: Params): Path {
    p.baseDir + [p.rootName]
  }

  /** The `i`-th entry of `dirs_to_create`, relative to the project root. */
  function DirAt(p: Params, i: nat): Path {
    if i == 0 then ["cmd", p.appName]
    else if i == 1 then ["internal", "config"]
    else if i == 2 then ["internal", "database"]
    else if i == 3 then ["internal", "handlers", "api"]
    else if i == 4 then ["internal", "handlers", "web"]
    else if i == 5 then ["internal", "middleware"]
    else if i == 6 then ["internal", "models"]
    else if i == 7 then ["internal", "router"]
    else if i == 8 then ["internal", "services", "welcome"]
    else if i == 9 then ["internal", "services"]
    else if i == 10 then ["pkg", "helpers"]
    else if i == 11 then ["pkg", "translations"]
    else if i == 12 then ["tools"]
    else if i == 13 then ["tools", p.venvDirName]
    else if i == 14 then ["webroot", "cache"]
    else if i == 15 then ["webroot", "sources"]
    else if i == 16 then ["webroot", "statics"]
    else if i == 17 then ["webroot", "www"]
    else if i == 18 then ["webroot", "views", "components", "heroicons"]
    else if i == 19 then ["webroot", "views", "layouts"]
    else ["webroot", "views", "pages"]
  }

  /** `dirs_to_create`, relative to the project root. */
  function DirsToCreate(p: Params): (r: seq<Path>)
    ensures |r| == 21
    ensures forall i :: 0 <= i < |r| ==> r[i] == DirAt(p, i)
  {
    seq(21, i requires 0 <= i < 21 => DirAt(p, i))
  }

  /** `gitkeep_dirs`: the directories that receive an empty `.gitkeep`. */
  const GitkeepDirs: seq<Path> := [
    ["internal", "database"],
    ["internal", "handlers", "api"],
    ["internal", "middleware"],
    ["internal", "models"],
    ["internal", "router"],
    ["internal", "services"],
    ["internal", "services", "welcome"],
    ["webroot", "www"],
    ["webroot", "cache"],
    ["webroot", "sources"]
  ]

  /** Where a file's body comes from: a plain literal, an f-string, or a body fixed in the call itself. */
  datatype Body = PlainBody | FStringBody | Fixed(template: Template)

  /** One `create_file` call of the file phase, its path relative to the project root. */
  datatype PlanEntry = PlanEntry(rel: Path, body: Body)

  /** The literal template bodies, keyed by the relative path they are written to. */
  datatype Payload = Payload(plain: Path -> string, fstring: Path -> seq<Segment>)

  /** `f"module {GO_MODULE_NAME}\n\ngo 1.21\n"`. */
  const GoModTemplate: Template := FString([Lit("module "), Var(GoModuleName), Lit("\n\ngo 1.21\n")])

  /** The `i`-th `create_file` call of the file phase. */
  function PlanEntryAt(p: Params, i: nat): PlanEntry {
    if i == 0 then PlanEntry([".air.toml"], FStringBody)
    else if i == 1 then PlanEntry([".env.example"], PlainBody)
    else if i == 2 then PlanEntry([".gitignore"], FStringBody)
    else if i == 3 then PlanEntry(["Makefile"], FStringBody)
    else if i == 4 then PlanEntry(["README.md"], FStringBody)
    else if i == 5 then PlanEntry(["cmd", p.appName, "main.go"], FStringBody)
    else if i == 6 then PlanEntry(["internal", "config", "config.go"], FStringBody)
    else if i == 7 then PlanEntry(["internal", "database", "database.go"], PlainBody)
    else if i == 8 then PlanEntry(["internal", "handlers", "api", "handler.go"], PlainBody)
    else if i == 9 then PlanEntry(["internal", "handlers", "web", "handler.go"], FStringBody)
    else if i == 10 then PlanEntry(["internal", "middleware", "middleware.go"], PlainBody)
    else if i == 11 then PlanEntry(["internal", "models", "common.go"], PlainBody)
    else if i == 12 then PlanEntry(["internal", "router", "router.go"], PlainBody)
    else if i == 13 then PlanEntry(["internal", "services", "welcome", "service.go"], FStringBody)
    else if i == 14 then PlanEntry(["internal", "services", "welcome", "model.go"], PlainBody)
    else if i == 15 then PlanEntry(["internal", "services", "welcome", "repository.go"], PlainBody)
    else if i == 16 then PlanEntry(["pkg", "helpers", "helpers.go"], PlainBody)
    else if i == 17 then PlanEntry(["pkg", "translations", "translations.go"], PlainBody)
    else if i == 18 then PlanEntry(["tools", "requirements.txt"], PlainBody)
    else if i == 19 then PlanEntry(["tools", "input.css"], PlainBody)
    else if i == 20 then PlanEntry(["tools", "package.json"], PlainBody)
    else if i == 21 then PlanEntry(["tools", "tailwind.config.js"], PlainBody)
    else if i == 22 then PlanEntry(["webroot", "sources", "app.js"], PlainBody)
    else if i == 23 then PlanEntry(["webroot", "statics", "favicon.ico"], Fixed(Plain("dummy favicon content")))
    else if i == 24 then PlanEntry(["webroot", "statics", "htmx.min.js"], PlainBody)
    else if i == 25 then PlanEntry(["webroot", "views", "components", "heroicons", "heroicons.templ"], PlainBody)
    else if i == 26 then PlanEntry(["webroot", "views", "layouts", "base.templ"], FStringBody)
    else if i == 27 then PlanEntry(["webroot", "views", "pages", "welcome.templ"], FStringBody)
    else if i == 28 then PlanEntry(["go.mod"], Fixed(GoModTemplate))
    else PlanEntry(["go.sum"], Fixed(Plain("")))
  }

  /** The file phase, in call order. */
  function FilePlan(p: Params): (r: seq<PlanEntry>)
    ensures |r| == 30
    ensures forall i :: 0 <= i < |r| ==> r[i] == PlanEntryAt(p, i)
  {
    seq(30, i requires 0 <= i < 30 => PlanEntryAt(p, i))
  }

  /** The last name of each planned path is not `.gitkeep`: none of them even ends in `p`. */
  lemma EntryIsNoGitkeep(p: Params, k: nat)
    requires k < 30
    ensures |PlanEntryAt(p, k).rel| > 0
    ensures PlanEntryAt(p, k).rel[|PlanEntryAt(p, k).rel| - 1] != ".gitkeep"
  {
    if k < 10 {
      TopLevelEntryIsNoGitkeep(p, k);
    } else if k < 20 {
      InternalEntryIsNoGitkeep(p, k);
    } else {
      ToolsEntryIsNoGitkeep(p, k);
    }
  }

  /** Entries 0 to 9: the top-level files, `main.go` and the first `internal` files. */
  lemma TopLevelEntryIsNoGitkeep(p: Params, k: nat)
    requires k < 10
    ensures |PlanEntryAt(p, k).rel| > 0
    ensures PlanEntryAt(p, k).rel[|PlanEntryAt(p, k).rel| - 1] != ".gitkeep"
  {
    var rel := PlanEntryAt(p, k).rel;
    var name := rel[|rel| - 1];
    assert |name| > 0 && name[|name| - 1] != 'p';
  }

  /** Entries 10 to 19: the rest of `internal`, `pkg` and the first `tools` files. */
  lemma InternalEntryIsNoGitkeep(p: Params, k: nat)
    requires 10 <= k < 20
    ensures |PlanEntryAt(p, k).rel| > 0
    ensures PlanEntryAt(p, k).rel[|PlanEntryAt(p, k).rel| - 1] != ".gitkeep"
  {
    var rel := PlanEntryAt(p, k).rel;
    var name := rel[|rel| - 1];
    assert |name| > 0 && name[|name| - 1] != 'p';
  }

  /** Entries 20 to 29: the front-end files and the Go module files. */
  lemma ToolsEntryIsNoGitkeep(p: Params, k: nat)
    requires 20 <= k < 30
    ensures |PlanEntryAt(p, k).rel| > 0
    ensures PlanEntryAt(p, k).rel[|PlanEntryAt(p, k).rel| - 1] != ".gitkeep"
  {
    var rel := PlanEntryAt(p, k).rel;
    var name := rel[|rel| - 1];
    assert |name| > 0 && name[|name| - 1] != 'p';
  }

  function TemplateOf(e: PlanEntry, pay: Payload): Template {
    match e.body
    case PlainBody => Plain(pay.plain(e.rel))
    case FStringBody => FString(pay.fstring(e.rel))
    case Fixed(t) => t
  }

  /** Under a project root: the `dirs_to_create` loop's targets. */
  function DirTargets(p: Params): (r: seq<Path>)
    ensures |r| == |DirsToCreate(p)|
    ensures forall i :: 0 <= i < |r| ==> r[i] == ProjectPath(p) + DirsToCreate(p)[i] && r[i] != []
  {
    seq(|DirsToCreate(p)|, i requires 0 <= i < |DirsToCreate(p)| => ProjectPath(p) + DirsToCreate(p)[i])
  }

  /** The `create_file(root / d / ".gitkeep")` calls, whose content defaults to "". */
  function GitkeepWrites(p: Params): (r: seq<Write>)
    ensures |r| == |GitkeepDirs|
    ensures forall i :: 0 <= i < |r| ==> r[i] == Write(ProjectPath(p) + GitkeepDirs[i] + [".gitkeep"], "")
  {
    seq(|GitkeepDirs|, i requires 0 <= i < |GitkeepDirs| => Write(ProjectPath(p) + GitkeepDirs[i] + [".gitkeep"], ""))
  }

  /** The file phase's calls, each body rendered. */
  function FileWrites(p: Params, pay: Payload): (r: seq<Write>)
    ensures |r| == |FilePlan(p)|
    ensures forall i :: 0 <= i < |r| ==>
      r[i] == Write(ProjectPath(p) + FilePlan(p)[i].rel, Render(TemplateOf(FilePlan(p)[i], pay), p))
  {
    var plan := FilePlan(p);
    seq(|plan|, i requires 0 <= i < |plan| => Write(ProjectPath(p) + plan[i].rel, Render(TemplateOf(plan[i], pay), p)))
  }

  /** Every `create_file` call of a run, in order. */
  function AllWrites(p: Params, pay: Payload): seq<Write> {
    GitkeepWrites(p) + FileWrites(p, pay)
  }

  /** `input(...).lower() == 'y'`. */
  predicate Confirmed(answer: string) {
    Lower(answer) == "y"
  }

  /** Only "y" and "Y" confirm; "yes", "" and everything else decline. */
  lemma ConfirmedExactly(answer: string)
    ensures Confirmed(answer) <==> answer == "y" || answer == "Y"
  {
    if Confirmed(answer) {
      assert |answer| == 1 && LowerChar(answer[0]) == 'y';
      assert answer == [answer[0]];
    }
  }

  /** Lines 25-31: `Some` of the filesystem to build on, `None` when the run is aborted. */
  function Guard(fs: FS, root: Path, answer: string): (r: Option<FS>)
    ensures r.None? <==> Exists(fs, root) && !Confirmed(answer)
    ensures r.Some? ==> !Exists(r.value, root)
    ensures r.Some? ==> forall f :: !Under(f, root) ==> (f in r.value.files <==> f in fs.files)
    ensures r.Some? ==> forall f :: f in r.value.files ==> r.value.files[f] == fs.files[f]
    ensures r.Some? ==> forall d :: !Under(d, root) ==> (d in r.value.dirs <==> d in fs.dirs)
    ensures r.Some? ==> SameOutside(fs, r.value, root)
  {
    if !Exists(fs, root) then Some(fs)
    else if Confirmed(answer) then Some(RemoveTree(fs, root))
    else None
  }

  /** Line 33 followed by the loop at lines 76-79. */
  function CreateDirs(fs: FS, p: Params): (r: FS)
    ensures r.files == fs.files
    ensures ProjectPath(p) in r.dirs
    ensures forall i :: 0 <= i < |DirTargets(p)| ==> DirTargets(p)[i] in r.dirs
    ensures r.dirs == fs.dirs + Prefixes(ProjectPath(p)) + PrefixesOfAll(DirTargets(p))
  {
    var root := ProjectPath(p);
    var dts := DirTargets(p);
    assert root in Prefixes(root) by {
      assert root[..|root|] == root;
    }
    assert forall i :: 0 <= i < |dts| ==> dts[i] in PrefixesOfAll(dts) by {
      TargetsAreMade(dts);
    }
    MkdirAll(Mkdir(fs, root), dts)
  }

  /** The loop at lines 81-83. */
  function CreatePlaceholders(fs: FS, p: Params): FS {
    WriteAll(fs, GitkeepWrites(p))
  }

  /** Lines 88-1386: every templated file, in order. */
  function CreateFiles(fs: FS, p: Params, pay: Payload): FS {
    WriteAll(fs, FileWrites(p, pay))
  }

  datatype Run = Aborted(fs: FS) | Completed(fs: FS)

  /** The tree a completed run leaves at the project root: a function of the parameters and bodies only. */
  function ExpectedTree(p: Params, pay: Payload): FS {
    BuiltTree(ProjectPath(p), DirTargets(p), AllWrites(p, pay))
  }

  /**
   * `main`, lines 21-86 and 1385-1386, with the prompt's answer as input.
   * A declined prompt leaves the filesystem as it was. Otherwise no file
   * outside the project root changes, the only directories created outside
   * it are the root's missing ancestors, and the project root ends up
   * holding exactly the planned tree, whatever it held before.
   */
  function Generate(p: Params, pay: Payload, answer: string, fs0: FS): (r: Run)
    ensures r.Aborted? <==> Exists(fs0, ProjectPath(p)) && !Confirmed(answer)
    ensures r.Aborted? ==> r.fs == fs0
    ensures r.Completed? ==> SameOutside(fs0, r.fs, ProjectPath(p))
    ensures r.Completed? ==> DirsOutside(fs0, r.fs, ProjectPath(p))
    ensures r.Completed? ==> Subtree(r.fs, ProjectPath(p)) == ExpectedTree(p, pay)
  {
    match Guard(fs0, ProjectPath(p), answer)
    case None => Aborted(fs0)
    case Some(fs1) =>
      var fs2 := CreateDirs(fs1, p);
      var fs4 := CreateFiles(CreatePlaceholders(fs2, p), p, pay);
      CompletedTree(fs1, p, pay);
      SameOutsideTransitive(fs0, fs1, fs4, ProjectPath(p));
      Completed(fs4)
  }

  /** The phases after the guard, from a filesystem with nothing at the project root. */
  lemma CompletedTree(fs1: FS, p: Params, pay: Payload)
    requires !Exists(fs1, ProjectPath(p))
    ensures var r := CreateFiles(CreatePlaceholders(CreateDirs(fs1, p), p), p, pay);
      && SameOutside(fs1, r, ProjectPath(p))
      && DirsOutside(fs1, r, ProjectPath(p))
      && Subtree(r, ProjectPath(p)) == ExpectedTree(p, pay)
  {
    RunIsOneSequence(fs1, p, pay);
    AllWritesUnderRoot(p, pay);
    DirTargetsUnderRoot(p);
    BuildFromNothing(fs1, ProjectPath(p), DirTargets(p), AllWrites(p, pay));
  }

  /** After the guard, the run makes the root and the directory targets, then writes `AllWrites`. */
  lemma RunIsOneSequence(fs1: FS, p: Params, pay: Payload)
    ensures CreateFiles(CreatePlaceholders(CreateDirs(fs1, p), p), p, pay)
         == WriteAll(MkdirAll(Mkdir(fs1, ProjectPath(p)), DirTargets(p)), AllWrites(p, pay))
  {
    WriteAllAppend(CreateDirs(fs1, p), GitkeepWrites(p), FileWrites(p, pay));
  }

  /** The two file phases together are one sequence of writes. */
  lemma {:induction false} WriteAllAppend(fs: FS, a: seq<Write>, b: seq<Write>)
    ensures WriteAll(WriteAll(fs, a), b) == WriteAll(fs, a + b)
    decreases |a|
  {
    if a == [] {
      assert a + b == b;
    } else {
      assert (a + b)[0] == a[0];
      assert (a + b)[1..] == a[1..] + b;
      WriteAllAppend(CreateFile(fs, a[0].path, a[0].content), a[1..], b);
    }
  }

  /** Every write of a run targets a path strictly below the project root. */
  lemma AllWritesUnderRoot(p: Params, pay: Payload)
    ensures forall q :: q in PathsOf(AllWrites(p, pay)) ==> Under(q, ProjectPath(p)) && |q| > |ProjectPath(p)|
  {
    var root := ProjectPath(p);
    var gs := GitkeepWrites(p);
    var fws := FileWrites(p, pay);
    var ws := AllWrites(p, pay);
    forall q | q in PathsOf(ws) ensures Under(q, root) && |q| > |root| {
      var i :| 0 <= i < |ws| && ws[i].path == q;
      if i < |gs| {
        assert ws[i] == gs[i];
        StrictlyBelow(root, GitkeepDirs[i] + [".gitkeep"]);
      } else {
        var k := i - |gs|;
        assert ws[i] == fws[k];
        FileWriteBelowRoot(p, pay, k);
      }
    }
  }

  lemma StrictlyBelow(root: Path, rel: Path)
    requires rel != []
    ensures Under(root + rel, root) && |root + rel| > |root|
  {
    UnderAppend(root, rel);
  }

  /** The `k`-th call of the file phase writes strictly below the project root. */
  lemma FileWriteBelowRoot(p: Params, pay: Payload, k: nat)
    requires k < |FileWrites(p, pay)|
    ensures Under(FileWrites(p, pay)[k].path, ProjectPath(p))
    ensures |FileWrites(p, pay)[k].path| > |ProjectPath(p)|
  {
    var rel := FilePlan(p)[k].rel;
    assert |rel| > 0 by {
      EntryIsNoGitkeep(p, k);
    }
    StrictlyBelow(ProjectPath(p), rel);
  }

  /** Every target of the directory loop lies below the project root. */
  lemma DirTargetsUnderRoot(p: Params)
    ensures forall i :: 0 <= i < |DirTargets(p)| ==> Under(DirTargets(p)[i], ProjectPath(p))
  {
    forall i | 0 <= i < |DirTargets(p)| ensures Under(DirTargets(p)[i], ProjectPath(p)) {
      UnderAppend(ProjectPath(p), DirsToCreate(p)[i]);
    }
  }
}
