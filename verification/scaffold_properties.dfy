/** What a run of the scaffolder guarantees about the tree it leaves. */
module ScaffoldProperties {
  import opened Text
  import opened FileSystem
  import opened Templates
  import opened Scaffold

  /** Every `.gitkeep` directory is also in `dirs_to_create`, the command and venv directories among them derived from the parameters. */
  lemma PlaceholderDirsArePlanned(p: Params)
    ensures forall i :: 0 <= i < |GitkeepDirs| ==> GitkeepDirs[i] in DirsToCreate(p)
    ensures ["cmd", p.appName] in DirsToCreate(p) && ["tools", p.venvDirName] in DirsToCreate(p)
  {
    var ds := DirsToCreate(p);
    assert GitkeepDirs[0] == ds[2] && GitkeepDirs[1] == ds[3] && GitkeepDirs[2] == ds[5];
    assert GitkeepDirs[3] == ds[6] && GitkeepDirs[4] == ds[7] && GitkeepDirs[5] == ds[9];
    assert GitkeepDirs[6] == ds[8] && GitkeepDirs[7] == ds[17] && GitkeepDirs[8] == ds[14];
    assert GitkeepDirs[9] == ds[15];
    assert ds[0] == ["cmd", p.appName] && ds[13] == ["tools", p.venvDirName];
  }

  /** The prompt's examples: "y" and "Y" proceed, "yes" and "" decline. */
  lemma AnswerExamples()
    ensures Confirmed("y") && Confirmed("Y")
    ensures !Confirmed("yes") && !Confirmed("") && !Confirmed("n")
  {
    ConfirmedExactly("Y");
    ConfirmedExactly("yes");
    ConfirmedExactly("");
    ConfirmedExactly("n");
  }

  /** Declining an existing root ends the run with the filesystem exactly as it was. */
  lemma DeclineLeavesEverything(p: Params, pay: Payload, answer: string, fs0: FS)
    requires Exists(fs0, ProjectPath(p))
    requires answer != "y" && answer != "Y"
    ensures Generate(p, pay, answer, fs0) == Aborted(fs0)
  {
    ConfirmedExactly(answer);
  }

  /** Accepting removes the old tree first: a file below the root that the run does not write is gone. */
  lemma AcceptRemovesForeignFiles(p: Params, pay: Payload, answer: string, fs0: FS, f: Path)
    requires Confirmed(answer)
    requires f in fs0.files && Under(f, ProjectPath(p))
    requires f !in PathsOf(AllWrites(p, pay))
    ensures Generate(p, pay, answer, fs0).Completed?
    ensures f !in Generate(p, pay, answer, fs0).fs.files
  {
    var r := Generate(p, pay, answer, fs0);
    assert f !in Subtree(r.fs, ProjectPath(p)).files;
  }

  /**
   * Determinism: every completed run with the same parameters and bodies
   * leaves the same tree at the root, whatever was there before and
   * whichever confirming answer was given.
   */
  lemma CompletedRunsAgree(p: Params, pay: Payload, a1: string, a2: string, fs1: FS, fs2: FS)
    requires !Exists(fs1, ProjectPath(p)) || Confirmed(a1)
    requires !Exists(fs2, ProjectPath(p)) || Confirmed(a2)
    ensures Generate(p, pay, a1, fs1).Completed? && Generate(p, pay, a2, fs2).Completed?
    ensures Subtree(Generate(p, pay, a1, fs1).fs, ProjectPath(p)) == Subtree(Generate(p, pay, a2, fs2).fs, ProjectPath(p))
  {
  }

  /** A written path's file in the planned tree: the stripped content of its last write. */
  lemma TreeFile(p: Params, pay: Payload, q: Path)
    requires q in PathsOf(AllWrites(p, pay))
    ensures q in ExpectedTree(p, pay).files
    ensures ExpectedTree(p, pay).files[q] == PyStrip(LastContent(AllWrites(p, pay), q))
  {
  }

  /** Every `dirs_to_create` entry exists in the planned tree. */
  lemma PlannedDirsExist(p: Params, pay: Payload)
    ensures forall i :: 0 <= i < |DirsToCreate(p)| ==> ProjectPath(p) + DirsToCreate(p)[i] in ExpectedTree(p, pay).dirs
  {
    var root := ProjectPath(p);
    forall i | 0 <= i < |DirsToCreate(p)| ensures root + DirsToCreate(p)[i] in ExpectedTree(p, pay).dirs {
      assert root + DirsToCreate(p)[i] == DirTargets(p)[i];
      UnderAppend(root, DirsToCreate(p)[i]);
      BuiltTreeHasTarget(root, DirTargets(p), AllWrites(p, pay), i);
    }
  }

  /** Every file in the planned tree is stripped text. */
  lemma WrittenTextIsStripped(p: Params, pay: Payload)
    ensures forall q :: q in ExpectedTree(p, pay).files ==> IsStripped(ExpectedTree(p, pay).files[q])
  {
    BuiltTreeIsStripped(ProjectPath(p), DirTargets(p), AllWrites(p, pay));
  }

  lemma AppendCancel(root: Path, a: Path, b: Path)
    ensures root + a == root + b ==> a == b
  {
    if root + a == root + b {
      assert a == (root + a)[|root|..];
    }
  }

  lemma SameFileName(root: Path, a: Path, b: Path, x: string)
    ensures root + a + [x] == root + b + [x] ==> a == b
  {
    if root + a + [x] == root + b + [x] {
      assert a == (root + a + [x])[|root|..|root| + |a|];
      assert b == (root + b + [x])[|root|..|root| + |b|];
    }
  }

  lemma JoinFileName(root: Path, a: Path, x: string, b: Path)
    requires a + [x] == b
    ensures root + a + [x] == root + b
  {
  }

  lemma DatabaseEntries(p: Params)
    ensures GitkeepDirs[0] + [".gitkeep"] == ["internal", "database", ".gitkeep"]
    ensures FilePlan(p)[7].rel == ["internal", "database", "database.go"]
  {
  }

  /** The `i`-th file of the plan is the `|GitkeepDirs| + i`-th write of a run. */
  lemma PlanWrite(p: Params, pay: Payload, i: nat)
    requires i < |FilePlan(p)|
    ensures |GitkeepDirs| + i < |AllWrites(p, pay)|
    ensures AllWrites(p, pay)[|GitkeepDirs| + i] == Write(ProjectPath(p) + FilePlan(p)[i].rel, Render(TemplateOf(FilePlan(p)[i], pay), p))
  {
  }

  /** No two placeholder directories coincide. */
  lemma GitkeepDirsDistinct()
    ensures forall i, j :: 0 <= i < j < |GitkeepDirs| ==> GitkeepDirs[i] != GitkeepDirs[j]
  {
  }

  /** No planned file is named `.gitkeep`. */
  lemma PlanHasNoGitkeep(p: Params)
    ensures forall k :: 0 <= k < |FilePlan(p)| ==> |FilePlan(p)[k].rel| > 0 && FilePlan(p)[k].rel[|FilePlan(p)[k].rel| - 1] != ".gitkeep"
  {
    forall k | 0 <= k < |FilePlan(p)|
      ensures |FilePlan(p)[k].rel| > 0 && FilePlan(p)[k].rel[|FilePlan(p)[k].rel| - 1] != ".gitkeep"
    {
      EntryIsNoGitkeep(p, k);
    }
  }

  /** No write after the `i`-th placeholder targets the same path. */
  lemma GitkeepNotRewritten(p: Params, pay: Payload, i: nat)
    requires i < |GitkeepDirs|
    ensures i < |AllWrites(p, pay)|
    ensures forall j :: i < j < |AllWrites(p, pay)| ==> AllWrites(p, pay)[j].path != AllWrites(p, pay)[i].path
  {
    var ws := AllWrites(p, pay);
    var root := ProjectPath(p);
    var n := |GitkeepDirs|;
    var gi := GitkeepDirs[i] + [".gitkeep"];
    assert ws[i].path == root + gi;
    assert gi[|gi| - 1] == ".gitkeep";
    GitkeepDirsDistinct();
    PlanHasNoGitkeep(p);
    forall j | i < j < n ensures ws[j].path != root + gi {
      assert ws[j].path == root + GitkeepDirs[j] + [".gitkeep"];
      SameFileName(root, GitkeepDirs[j], GitkeepDirs[i], ".gitkeep");
    }
    forall j | n <= j < |ws| ensures ws[j].path != root + gi {
      PlanWrite(p, pay, j - n);
      var rel := FilePlan(p)[j - n].rel;
      assert rel[|rel| - 1] != ".gitkeep";
      AppendCancel(root, rel, gi);
    }
  }

  /** Each placeholder is written empty and nothing later writes over it. */
  lemma PlaceholdersStayEmpty(p: Params, pay: Payload)
    ensures forall i :: 0 <= i < |GitkeepDirs| ==>
      var g := ProjectPath(p) + GitkeepDirs[i] + [".gitkeep"];
      g in ExpectedTree(p, pay).files && ExpectedTree(p, pay).files[g] == ""
  {
    forall i | 0 <= i < |GitkeepDirs|
      ensures ProjectPath(p) + GitkeepDirs[i] + [".gitkeep"] in ExpectedTree(p, pay).files
      ensures ExpectedTree(p, pay).files[ProjectPath(p) + GitkeepDirs[i] + [".gitkeep"]] == ""
    {
      PlaceholderFile(p, pay, i);
    }
  }

  lemma PlaceholderFile(p: Params, pay: Payload, i: nat)
    requires i < |GitkeepDirs|
    ensures ProjectPath(p) + GitkeepDirs[i] + [".gitkeep"] in ExpectedTree(p, pay).files
    ensures ExpectedTree(p, pay).files[ProjectPath(p) + GitkeepDirs[i] + [".gitkeep"]] == ""
  {
    var ws := AllWrites(p, pay);
    GitkeepNotRewritten(p, pay, i);
    WrittenKeepsLastWrite(ws, i);
    GitkeepWriteAt(p, pay, i);
    StripEmpty();
  }

  /** The `i`-th write of a run is the `i`-th placeholder. */
  lemma GitkeepWriteAt(p: Params, pay: Payload, i: nat)
    requires i < |GitkeepDirs|
    ensures i < |AllWrites(p, pay)|
    ensures AllWrites(p, pay)[i] == Write(ProjectPath(p) + GitkeepDirs[i] + [".gitkeep"], "")
  {
    assert AllWrites(p, pay)[i] == GitkeepWrites(p)[i];
  }

  /** `internal/database` ends up with both its placeholder and `database.go`: placeholders are never removed. */
  lemma DatabaseDirKeepsPlaceholder(p: Params, pay: Payload)
    ensures ProjectPath(p) + ["internal", "database", ".gitkeep"] in ExpectedTree(p, pay).files
    ensures ProjectPath(p) + ["internal", "database", "database.go"] in ExpectedTree(p, pay).files
  {
    PlaceholderFile(p, pay, 0);
    DatabaseEntries(p);
    JoinFileName(ProjectPath(p), GitkeepDirs[0], ".gitkeep", ["internal", "database", ".gitkeep"]);
    var ws := AllWrites(p, pay);
    var k := |GitkeepDirs| + 7;
    PlanWrite(p, pay, 7);
    assert ws[k].path in PathsOf(ws);
    TreeFile(p, pay, ws[k].path);
  }

  lemma GoEntries(p: Params)
    ensures |FilePlan(p)| == 30
    ensures FilePlan(p)[28] == PlanEntry(["go.mod"], Fixed(GoModTemplate))
    ensures FilePlan(p)[29] == PlanEntry(["go.sum"], Fixed(Plain("")))
  {
  }

  /** `go.mod`'s template renders to its text with the module name substituted. */
  lemma GoModRenderedRaw(p: Params)
    ensures Render(GoModTemplate, p) == "module " + p.moduleName + "\n\ngo 1.21\n"
  {
    RenderBraceFreeAroundVar("module ", GoModuleName, "\n\ngo 1.21\n", p);
  }

  lemma RenderBraceFreeAroundVar(a: string, k: Key, b: string, p: Params)
    requires '{' !in a && '}' !in a && '{' !in b && '}' !in b
    ensures RenderSegments([Lit(a), Var(k), Lit(b)], p) == a + Value(p, k) + b
  {
    var segs := [Lit(a), Var(k), Lit(b)];
    CollapseBraceFree(a);
    CollapseBraceFree(b);
    assert segs[1..] == [Var(k), Lit(b)];
    assert segs[1..][1..] == [Lit(b)];
    assert segs[1..][1..][1..] == [];
    assert RenderSegments([Lit(b)], p) == b + [];
    assert RenderSegments([Var(k), Lit(b)], p) == Value(p, k) + b;
    assert RenderSegments(segs, p) == a + (Value(p, k) + b);
  }

  /** Stripping the rendered `go.mod` drops just its final newline. */
  lemma GoModStripped(m: string)
    ensures PyStrip("module " + m + "\n\ngo 1.21\n") == "module " + m + "\n\ngo 1.21"
  {
    var body := "module " + m + "\n\ngo 1.21";
    assert body + "\n" == "module " + m + "\n\ngo 1.21\n";
    assert body[0] == 'm' && body[|body| - 1] == '1';
    TrimDropsFinalNewline(body, PyWhitespace);
  }

  /** `go.mod` is exactly "module <M>\n\ngo 1.21" (its trailing newline stripped) and `go.sum` is empty. */
  lemma GoModuleFiles(p: Params, pay: Payload)
    ensures ProjectPath(p) + ["go.mod"] in ExpectedTree(p, pay).files
    ensures ExpectedTree(p, pay).files[ProjectPath(p) + ["go.mod"]] == "module " + p.moduleName + "\n\ngo 1.21"
    ensures ProjectPath(p) + ["go.sum"] in ExpectedTree(p, pay).files
    ensures ExpectedTree(p, pay).files[ProjectPath(p) + ["go.sum"]] == ""
  {
    var ws := AllWrites(p, pay);
    var root := ProjectPath(p);
    var n := |GitkeepDirs|;
    var text := "module " + p.moduleName + "\n\ngo 1.21\n";
    assert |ws| == n + 30 && ws[n + 28] == Write(root + ["go.mod"], text) && ws[n + 29] == Write(root + ["go.sum"], "") by {
      GoWrites(p, pay);
    }
    assert root + ["go.mod"] != root + ["go.sum"] by {
      AppendCancel(root, ["go.sum"], ["go.mod"]);
    }
    assert Written(ws)[root + ["go.mod"]] == PyStrip(text) by {
      WrittenKeepsLastWrite(ws, n + 28);
    }
    assert Written(ws)[root + ["go.sum"]] == PyStrip("") by {
      WrittenKeepsLastWrite(ws, n + 29);
    }
    GoModStripped(p.moduleName);
    StripEmpty();
  }

  /** The last two writes of a run are `go.mod`, rendered, and the empty `go.sum`. */
  lemma GoWrites(p: Params, pay: Payload)
    ensures |AllWrites(p, pay)| == |GitkeepDirs| + 30
    ensures AllWrites(p, pay)[|GitkeepDirs| + 28] == Write(ProjectPath(p) + ["go.mod"], "module " + p.moduleName + "\n\ngo 1.21\n")
    ensures AllWrites(p, pay)[|GitkeepDirs| + 29] == Write(ProjectPath(p) + ["go.sum"], "")
  {
    GoEntries(p);
    PlanWrite(p, pay, 28);
    PlanWrite(p, pay, 29);
    GoModRenderedRaw(p);
  }

  lemma RouterEntries(p: Params)
    ensures |FilePlan(p)| == 30
    ensures FilePlan(p)[12] == PlanEntry(["internal", "router", "router.go"], PlainBody)
    ensures forall j :: 12 < j < 30 ==> FilePlan(p)[j].rel != ["internal", "router", "router.go"]
  {
  }

  /**
   * The router body is a plain literal, so its `{GO_MODULE_NAME}` marker is
   * not substituted: if the body holds the marker, so does the written file.
   */
  lemma RouterKeepsLiteralMarker(p: Params, pay: Payload, k: nat)
    requires OccursAt(pay.plain(["internal", "router", "router.go"]), "{GO_MODULE_NAME}", k)
    ensures ProjectPath(p) + ["internal", "router", "router.go"] in ExpectedTree(p, pay).files
    ensures Contains(ExpectedTree(p, pay).files[ProjectPath(p) + ["internal", "router", "router.go"]], "{GO_MODULE_NAME}")
  {
    var ws := AllWrites(p, pay);
    var root := ProjectPath(p);
    var n := |GitkeepDirs|;
    var rel := ["internal", "router", "router.go"];
    RouterEntries(p);
    PlanWrite(p, pay, 12);
    forall j | n + 12 < j < |ws| ensures ws[j].path != ws[n + 12].path {
      PlanWrite(p, pay, j - n);
      AppendCancel(root, FilePlan(p)[j - n].rel, rel);
    }
    LastContentAt(ws, n + 12);
    TreeFile(p, pay, root + rel);
    MarkerSurvivesStrip(pay.plain(rel), k);
  }

  lemma MarkerSurvivesStrip(s: string, k: nat)
    requires OccursAt(s, "{GO_MODULE_NAME}", k)
    ensures Contains(PyStrip(s), "{GO_MODULE_NAME}")
  {
    var m := "{GO_MODULE_NAME}";
    assert m[0] == '{' && m[|m| - 1] == '}';
    TrimKeepsInnerFactor(s, PyWhitespace, k, m);
  }
}
