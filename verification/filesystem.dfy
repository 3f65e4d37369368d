/**
 * An abstract filesystem: the set of directories and the map from file
 * paths to contents. The scaffolder's filesystem calls become pure
 * transformers of this value.
 */
module FileSystem {
  import opened Text

  /** A path as its list of components: `tests/embrygo-project` is `["tests", "embrygo-project"]`. */
  type Path = seq<string>

  datatype FS = FS(dirs: set<Path>, files: map<Path, string>)

  /** `p` is `root` itself or lies below it. */
  predicate Under(p: Path, root: Path) {
    |root| <= |p| && p[..|root|] == root
  }

  /** `Path.exists()`: something is present at `root` or below it. */
  predicate Exists(fs: FS, root: Path) {
    (exists d :: d in fs.dirs && Under(d, root)) || (exists f :: f in fs.files && Under(f, root))
  }

  /** `p` without its last component, Python's `Path.parent`. */
  function Parent(p: Path): Path {
    if p == [] then [] else p[..|p| - 1]
  }

  /** `p` and each of its non-empty ancestors: what `mkdir(parents=True)` brings into existence. */
  function Prefixes(p: Path): (r: set<Path>)
    ensures forall k :: 1 <= k <= |p| ==> p[..k] in r
    ensures forall q :: q in r ==> 1 <= |q| <= |p| && q == p[..|q|]
  {
    set k | 1 <= k <= |p| :: p[..k]
  }

  /** `path.mkdir(parents=True, exist_ok=True)`. */
  function Mkdir(fs: FS, p: Path): (r: FS)
    ensures r.files == fs.files
    ensures r.dirs == fs.dirs + Prefixes(p)
  {
    fs.(dirs := fs.dirs + Prefixes(p))
  }

  /**
   * `create_file`: makes every ancestor directory of `p`, then writes the
   * stripped content, replacing whatever `p` held before.
   */
  function CreateFile(fs: FS, p: Path, content: string): (r: FS)
    ensures forall k :: 1 <= k < |p| ==> p[..k] in r.dirs
    ensures fs.dirs <= r.dirs
    ensures p in r.files && r.files[p] == PyStrip(content)
    ensures forall q :: q != p ==> (q in r.files <==> q in fs.files)
    ensures forall q :: q != p && q in fs.files ==> r.files[q] == fs.files[q]
  {
    assert forall k :: 1 <= k < |p| ==> Parent(p)[..k] == p[..k];
    FS(fs.dirs + Prefixes(Parent(p)), fs.files[p := PyStrip(content)])
  }

  /** `shutil.rmtree(root)`: removes `root` and everything below it. */
  function RemoveTree(fs: FS, root: Path): (r: FS)
    ensures !Exists(r, root)
    ensures forall d :: !Under(d, root) ==> (d in r.dirs <==> d in fs.dirs)
    ensures forall f :: !Under(f, root) ==> (f in r.files <==> f in fs.files)
    ensures forall f :: f in r.files ==> r.files[f] == fs.files[f]
  {
    FS(set d | d in fs.dirs && !Under(d, root), map f | f in fs.files && !Under(f, root) :: fs.files[f])
  }

  /** The part of `fs` at or below `root`. */
  function Subtree(fs: FS, root: Path): (r: FS)
    ensures forall d :: d in r.dirs <==> d in fs.dirs && Under(d, root)
    ensures forall f :: f in r.files <==> f in fs.files && Under(f, root)
    ensures forall f :: f in r.files ==> r.files[f] == fs.files[f]
  {
    FS(set d | d in fs.dirs && Under(d, root), map f | f in fs.files && Under(f, root) :: fs.files[f])
  }

  /** The directories that creating each of `ds` with parents brings into existence. */
  function PrefixesOfAll(ds: seq<Path>): (r: set<Path>)
    ensures forall i :: 0 <= i < |ds| ==> Prefixes(ds[i]) <= r
  {
    if ds == [] then {} else Prefixes(ds[0]) + PrefixesOfAll(ds[1..])
  }

  /** Each non-empty target of the loop is among the directories it makes. */
  lemma TargetsAreMade(ds: seq<Path>)
    ensures forall i :: 0 <= i < |ds| && ds[i] != [] ==> ds[i] in PrefixesOfAll(ds)
  {
    forall i | 0 <= i < |ds| && ds[i] != [] ensures ds[i] in PrefixesOfAll(ds) {
      var d := ds[i];
      assert d[..|d|] == d;
      assert d in Prefixes(d);
    }
  }

  /** A loop of `mkdir(parents=True, exist_ok=True)` over `ds`, in order. */
  function MkdirAll(fs: FS, ds: seq<Path>): (r: FS)
    ensures r.files == fs.files
    ensures r.dirs == fs.dirs + PrefixesOfAll(ds)
    decreases |ds|
  {
    if ds == [] then fs else MkdirAll(Mkdir(fs, ds[0]), ds[1..])
  }

  /** One `create_file(path, content)` call. */
  datatype Write = Write(path: Path, content: string)

  function PathsOf(ws: seq<Write>): set<Path> {
    set i | 0 <= i < |ws| :: ws[i].path
  }

  /** The ancestor directories `create_file` makes for each of `ws`. */
  function ParentsOfAll(ws: seq<Write>): (r: set<Path>)
    ensures forall i :: 0 <= i < |ws| ==> Prefixes(Parent(ws[i].path)) <= r
  {
    if ws == [] then {} else Prefixes(Parent(ws[0].path)) + ParentsOfAll(ws[1..])
  }

  /** The content of the last write in `ws` that targets `q`: the one that wins. */
  function LastContent(ws: seq<Write>, q: Path): string
    requires q in PathsOf(ws)
  {
    assert ws != [];
    if q in PathsOf(ws[1..]) then LastContent(ws[1..], q)
    else
      assert ws[0].path == q by { PathsOfTail(ws); }
      ws[0].content
  }

  lemma PathsOfTail(ws: seq<Write>)
    requires ws != []
    ensures PathsOf(ws) == {ws[0].path} + PathsOf(ws[1..])
  {
    forall q | q in PathsOf(ws) ensures q in {ws[0].path} + PathsOf(ws[1..]) {
      var i :| 0 <= i < |ws| && ws[i].path == q;
      if i > 0 { assert ws[1..][i - 1].path == q; }
    }
    forall q | q in PathsOf(ws[1..]) ensures q in PathsOf(ws) {
      var i :| 0 <= i < |ws[1..]| && ws[1..][i].path == q;
      assert ws[i + 1].path == q;
    }
  }

  /**
   * A sequence of `create_file` calls. Exactly the written paths are added;
   * each holds the stripped content of the last write to it; every other
   * file keeps its content; no directory disappears.
   */
  function WriteAll(fs: FS, ws: seq<Write>): (r: FS)
    ensures r.files.Keys == fs.files.Keys + PathsOf(ws)
    ensures r.dirs == fs.dirs + ParentsOfAll(ws)
    decreases |ws|
  {
    if ws == [] then fs
    else
      PathsOfTail(ws);
      WriteAll(CreateFile(fs, ws[0].path, ws[0].content), ws[1..])
  }

  /** What `WriteAll` leaves in each file: the last write wins, untouched files keep their content. */
  lemma {:induction false} WriteAllContents(fs: FS, ws: seq<Write>)
    ensures forall q :: q in PathsOf(ws) ==> WriteAll(fs, ws).files[q] == PyStrip(LastContent(ws, q))
    ensures forall q :: q in fs.files && q !in PathsOf(ws) ==> WriteAll(fs, ws).files[q] == fs.files[q]
    decreases |ws|
  {
    if ws != [] {
      var fs1 := CreateFile(fs, ws[0].path, ws[0].content);
      var rest := ws[1..];
      var r := WriteAll(fs1, rest);
      assert WriteAll(fs, ws) == r;
      assert PathsOf(ws) == {ws[0].path} + PathsOf(rest) by {
        PathsOfTail(ws);
      }
      WriteAllContents(fs1, rest);
      forall q | q in PathsOf(ws) ensures r.files[q] == PyStrip(LastContent(ws, q)) {
        if q !in PathsOf(rest) {
          assert q == ws[0].path && q in fs1.files;
        }
      }
    }
  }

  /** When no later write targets `ws[i].path`, the last content written there is `ws[i].content`. */
  lemma {:induction false} LastContentAt(ws: seq<Write>, i: nat)
    requires i < |ws|
    requires forall j :: i < j < |ws| ==> ws[j].path != ws[i].path
    ensures ws[i].path in PathsOf(ws)
    ensures LastContent(ws, ws[i].path) == ws[i].content
  {
    assert ws[i].path in PathsOf(ws);
    PathsOfTail(ws);
    if i > 0 {
      var t := ws[1..];
      assert t[i - 1] == ws[i];
      LastContentAt(t, i - 1);
    }
  }

  /** The files a sequence of writes leaves behind on its own: each written path with its last, stripped, content. */
  function Written(ws: seq<Write>): (m: map<Path, string>)
    ensures m.Keys == PathsOf(ws)
    ensures forall q :: q in m ==> m[q] == PyStrip(LastContent(ws, q))
  {
    map q | q in PathsOf(ws) :: PyStrip(LastContent(ws, q))
  }

  /** A write that no later write overrides determines its file: the stripped content it wrote. */
  lemma WrittenKeepsLastWrite(ws: seq<Write>, i: nat)
    requires i < |ws|
    requires forall j :: i < j < |ws| ==> ws[j].path != ws[i].path
    ensures ws[i].path in Written(ws)
    ensures Written(ws)[ws[i].path] == PyStrip(ws[i].content)
  {
    LastContentAt(ws, i);
  }

  /** The tree that creating `root`, then `dts`, then writing `ws` builds below `root` from nothing. */
  function BuiltTree(root: Path, dts: seq<Path>, ws: seq<Write>): FS {
    var dirs := set d | d in Prefixes(root) + PrefixesOfAll(dts) + ParentsOfAll(ws) && Under(d, root);
    FS(dirs, Written(ws))
  }

  /** Every target of the directory loop that lies below the root is a directory of the built tree. */
  lemma BuiltTreeHasTarget(root: Path, dts: seq<Path>, ws: seq<Write>, i: nat)
    requires i < |dts| && dts[i] != [] && Under(dts[i], root)
    ensures dts[i] in BuiltTree(root, dts, ws).dirs
  {
    TargetsAreMade(dts);
  }

  /** No file of a built tree starts or ends with whitespace. */
  lemma BuiltTreeIsStripped(root: Path, dts: seq<Path>, ws: seq<Write>)
    ensures forall q :: q in BuiltTree(root, dts, ws).files ==> IsStripped(BuiltTree(root, dts, ws).files[q])
  {
    var files := BuiltTree(root, dts, ws).files;
    forall q | q in files ensures IsStripped(files[q]) {
      var c := LastContent(ws, q);
      assert files[q] == PyStrip(c);
      StripEnds(c);
    }
  }

  lemma UnderAppend(root: Path, rel: Path)
    ensures Under(root + rel, root)
  {
    assert (root + rel)[..|root|] == root;
  }

  /** Outside `root`, `r` has the same files as `fs`, with the same contents. */
  ghost predicate SameOutside(fs: FS, r: FS, root: Path) {
    && (forall f :: !Under(f, root) ==> (f in r.files <==> f in fs.files))
    && (forall f :: !Under(f, root) && f in fs.files ==> r.files[f] == fs.files[f])
  }

  /**
   * Outside `root`, `r` keeps every directory of `fs` and adds none but the
   * ancestors of `root`, which `mkdir(parents=True)` creates when missing.
   */
  ghost predicate DirsOutside(fs: FS, r: FS, root: Path) {
    forall d :: !Under(d, root) ==> (d in r.dirs <==> d in fs.dirs || d in Prefixes(root))
  }

  /** A prefix of a path below `root` that is at least as long as `root` is below `root` too. */
  lemma LongPrefixUnder(d: Path, q: Path, root: Path)
    requires Under(q, root) && |d| <= |q| && d == q[..|d|]
    ensures |root| <= |d| ==> Under(d, root)
  {
    if |root| <= |d| {
      assert d[..|root|] == q[..|root|];
    }
  }

  /** A non-empty prefix of a path below `root` that is not itself below `root` is an ancestor of `root`. */
  lemma PrefixOutsideIsAncestor(d: Path, q: Path, root: Path)
    requires Under(q, root) && 1 <= |d| <= |q| && d == q[..|d|]
    requires !Under(d, root)
    ensures d in Prefixes(root)
  {
    LongPrefixUnder(d, q, root);
    assert root[..|d|] == d;
  }

  /** Making directories below `root` adds nothing outside it but ancestors of `root`. */
  lemma {:induction false} PrefixesOfAllOutside(ds: seq<Path>, root: Path)
    requires forall i :: 0 <= i < |ds| ==> Under(ds[i], root)
    ensures forall d :: d in PrefixesOfAll(ds) && !Under(d, root) ==> d in Prefixes(root)
  {
    if ds != [] {
      var rest := ds[1..];
      assert forall i :: 0 <= i < |rest| ==> rest[i] == ds[i + 1];
      PrefixesOfAllOutside(rest, root);
      forall d | d in Prefixes(ds[0]) && !Under(d, root) ensures d in Prefixes(root) {
        PrefixOutsideIsAncestor(d, ds[0], root);
      }
    }
  }

  /** Writing files below `root` creates no directory outside it but ancestors of `root`. */
  lemma {:induction false} ParentsOfAllOutside(ws: seq<Write>, root: Path)
    requires forall i :: 0 <= i < |ws| ==> Under(ws[i].path, root)
    ensures forall d :: d in ParentsOfAll(ws) && !Under(d, root) ==> d in Prefixes(root)
  {
    if ws != [] {
      var rest := ws[1..];
      assert forall i :: 0 <= i < |rest| ==> rest[i] == ws[i + 1];
      ParentsOfAllOutside(rest, root);
      var q := ws[0].path;
      forall d | d in Prefixes(Parent(q)) && !Under(d, root) ensures d in Prefixes(root) {
        assert d == q[..|d|];
        PrefixOutsideIsAncestor(d, q, root);
      }
    }
  }

  /** Building below `root` touches the directories outside it only by making the ancestors of `root`. */
  lemma BuiltDirsOutside(fs: FS, root: Path, dts: seq<Path>, ws: seq<Write>)
    requires forall i :: 0 <= i < |dts| ==> Under(dts[i], root)
    requires forall q :: q in PathsOf(ws) ==> Under(q, root)
    ensures DirsOutside(fs, WriteAll(MkdirAll(Mkdir(fs, root), dts), ws), root)
  {
    var r := WriteAll(MkdirAll(Mkdir(fs, root), dts), ws);
    assert r.dirs == fs.dirs + Prefixes(root) + PrefixesOfAll(dts) + ParentsOfAll(ws);
    PrefixesOfAllOutside(dts, root);
    assert forall i :: 0 <= i < |ws| ==> Under(ws[i].path, root) by {
      forall i | 0 <= i < |ws| ensures Under(ws[i].path, root) {
        assert ws[i].path in PathsOf(ws);
      }
    }
    ParentsOfAllOutside(ws, root);
  }

  lemma SameOutsideTransitive(a: FS, b: FS, c: FS, root: Path)
    requires SameOutside(a, b, root) && SameOutside(b, c, root)
    ensures SameOutside(a, c, root)
  {
  }

  /** Writing `ws` (all below `root`) over files none of which is below `root`: the files below `root` are exactly the written ones. */
  lemma WrittenFilesBelow(fs: FS, root: Path, ws: seq<Write>)
    requires forall f :: f in fs.files ==> !Under(f, root)
    requires forall q :: q in PathsOf(ws) ==> Under(q, root)
    ensures Subtree(WriteAll(fs, ws), root).files == Written(ws)
  {
    var sub := Subtree(WriteAll(fs, ws), root).files;
    WrittenKeysBelow(fs, root, ws);
    WrittenValuesBelow(fs, root, ws);
    SameMap(sub, Written(ws));
  }

  lemma WrittenKeysBelow(fs: FS, root: Path, ws: seq<Write>)
    requires forall f :: f in fs.files ==> !Under(f, root)
    requires forall q :: q in PathsOf(ws) ==> Under(q, root)
    ensures Subtree(WriteAll(fs, ws), root).files.Keys == PathsOf(ws)
  {
    var r := WriteAll(fs, ws);
    var sub := Subtree(r, root).files;
    forall f | f in sub ensures f in PathsOf(ws) {
      assert f in r.files && Under(f, root);
      assert f !in fs.files;
    }
  }

  lemma WrittenValuesBelow(fs: FS, root: Path, ws: seq<Write>)
    requires forall q :: q in PathsOf(ws) ==> Under(q, root)
    ensures forall q :: q in PathsOf(ws) ==> Subtree(WriteAll(fs, ws), root).files[q] == PyStrip(LastContent(ws, q))
  {
    WriteAllContents(fs, ws);
  }

  /** Map extensionality, stated once. */
  lemma SameMap<K, V>(a: map<K, V>, b: map<K, V>)
    requires a.Keys == b.Keys
    requires forall k :: k in a ==> a[k] == b[k]
    ensures a == b
  {
  }

  /**
   * From a filesystem with nothing at `root`: making `root` and `dts` (all
   * below `root`), then writing `ws` (all below `root`) leaves every file
   * outside `root` alone, adds no directory outside it but the ancestors of
   * `root`, and builds exactly `BuiltTree` below it.
   */
  lemma BuildFromNothing(fs: FS, root: Path, dts: seq<Path>, ws: seq<Write>)
    requires !Exists(fs, root)
    requires forall i :: 0 <= i < |dts| ==> Under(dts[i], root)
    requires forall q :: q in PathsOf(ws) ==> Under(q, root)
    ensures var r := WriteAll(MkdirAll(Mkdir(fs, root), dts), ws);
      && SameOutside(fs, r, root)
      && DirsOutside(fs, r, root)
      && Subtree(r, root) == BuiltTree(root, dts, ws)
  {
    BuiltDirsOutside(fs, root, dts, ws);
    var fs2 := MkdirAll(Mkdir(fs, root), dts);
    assert fs2.files == fs.files;
    var r := WriteAll(fs2, ws);
    WrittenFilesBelow(fs2, root, ws);
    BuiltDirsBelow(fs, root, dts, ws);
    WriteAllContents(fs2, ws);
  }

  lemma BuiltDirsBelow(fs: FS, root: Path, dts: seq<Path>, ws: seq<Write>)
    requires !Exists(fs, root)
    ensures Subtree(WriteAll(MkdirAll(Mkdir(fs, root), dts), ws), root).dirs == BuiltTree(root, dts, ws).dirs
  {
    var r := WriteAll(MkdirAll(Mkdir(fs, root), dts), ws);
    assert r.dirs == fs.dirs + Prefixes(root) + PrefixesOfAll(dts) + ParentsOfAll(ws);
    var sub := Subtree(r, root).dirs;
    forall d | d in sub ensures d in BuiltTree(root, dts, ws).dirs {
      assert d !in fs.dirs;
    }
  }
}
