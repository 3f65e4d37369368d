/**
 * Template rendering of the scaffolder. A file body is either a plain
 * Python string literal, written as it stands, or an f-string: literal
 * text interleaved with `{NAME}` substitution markers, whose literal text
 * spells a brace as `{{` or `}}`.
 */
module Templates {

  /** The generation parameters: the module-level constants of the generator. */
  datatype Params = Params(
    rootName: string,        // PROJECT_ROOT_NAME
    baseDir: seq<string>,    // BASE_TEST_DIR, as path components
    moduleName: string,      // GO_MODULE_NAME
    appName: string,         // SERVICE_APP_NAME
    venvDirName: string      // PYTHON_VENV_DIR_NAME
  )

  /** The values the generator ships with. */
  const EmbryGo := Params("embrygo-project", ["tests"], "github.com/r-via/embrygo", "service-app", ".venv")

  /** The markers that occur in the generator's f-strings. */
  datatype Key = ProjectRootName | GoModuleName | ServiceAppName | PythonVenvDirName

  function Value(p: Params, k: Key): string {
    match k
    case ProjectRootName => p.rootName
    case GoModuleName => p.moduleName
    case ServiceAppName => p.appName
    case PythonVenvDirName => p.venvDirName
  }

  /** A stretch of f-string source text, or one `{NAME}` marker. */
  datatype Segment = Lit(text: string) | Var(key: Key)

  datatype Template = Plain(text: string) | FString(segments: seq<Segment>)

  /** Python's reading of literal f-string text: `{{` stands for `{` and `}}` for `}`. */
  function Collapse(s: string): (r: string)
    ensures |r| <= |s|
  {
    if |s| >= 2 && s[0] == '{' && s[1] == '{' then "{" + Collapse(s[2..])
    else if |s| >= 2 && s[0] == '}' && s[1] == '}' then "}" + Collapse(s[2..])
    else if s == [] then []
    else [s[0]] + Collapse(s[1..])
  }

  /** How a template author writes text `s` inside an f-string: every brace doubled. */
  function Escape(s: string): (r: string)
    ensures |r| >= |s|
  {
    if s == [] then []
    else if s[0] == '{' || s[0] == '}' then [s[0], s[0]] + Escape(s[1..])
    else [s[0]] + Escape(s[1..])
  }

  /** Collapsing undoes escaping: any text can be spelled in an f-string. */
  lemma {:induction false} CollapseEscape(s: string)
    ensures Collapse(Escape(s)) == s
  {
    if s != [] {
      CollapseEscape(s[1..]);
      if s[0] == '{' || s[0] == '}' {
        assert ([s[0], s[0]] + Escape(s[1..]))[2..] == Escape(s[1..]);
      } else {
        assert ([s[0]] + Escape(s[1..]))[1..] == Escape(s[1..]);
      }
    }
  }

  /** Text without braces reads the same inside and outside an f-string. */
  lemma {:induction false} CollapseBraceFree(s: string)
    requires '{' !in s && '}' !in s
    ensures Collapse(s) == s
  {
    if s != [] {
      assert s[0] in s;
      assert forall c :: c in s[1..] ==> c in s;
      CollapseBraceFree(s[1..]);
    }
  }

  /** The quadrupled braces written for Air's and Templ's own syntax come out doubled. */
  lemma CollapseQuadrupleBraces()
    ensures Collapse("{{{{") == "{{" && Collapse("}}}}") == "}}"
  {
    assert "{{{{"[2..] == "{{" && "{{"[2..] == [];
    assert "}}}}"[2..] == "}}" && "}}"[2..] == [];
  }

  function RenderSegments(segs: seq<Segment>, p: Params): string {
    if segs == [] then []
    else
      var head := match segs[0] case Lit(t) => Collapse(t) case Var(k) => Value(p, k);
      head + RenderSegments(segs[1..], p)
  }

  /** The text `create_file` receives: plain bodies verbatim, f-strings substituted and collapsed. */
  function Render(t: Template, p: Params): string {
    match t
    case Plain(s) => s
    case FString(segs) => RenderSegments(segs, p)
  }

  /** A plain body is written verbatim whatever the parameters, markers and doubled braces included. */
  lemma PlainIsVerbatim(s: string, p: Params, q: Params)
    ensures Render(Plain(s), p) == s
    ensures Render(Plain(s), p) == Render(Plain(s), q)
  {
  }

  /** Rendering is compositional over the segment list. */
  lemma {:induction false} RenderSegmentsAppend(a: seq<Segment>, b: seq<Segment>, p: Params)
    ensures RenderSegments(a + b, p) == RenderSegments(a, p) + RenderSegments(b, p)
  {
    if a == [] {
      assert a + b == b;
    } else {
      assert (a + b)[0] == a[0];
      assert (a + b)[1..] == a[1..] + b;
      RenderSegmentsAppend(a[1..], b, p);
    }
  }

  /** Replaces each `{k}` marker by the f-string spelling of the literal text `v`. */
  function Bind(segs: seq<Segment>, k: Key, v: string): (r: seq<Segment>)
    ensures |r| == |segs|
    ensures forall i :: 0 <= i < |segs| ==> segs[i] != Var(k) ==> r[i] == segs[i]
    ensures forall i :: 0 <= i < |segs| ==> segs[i] == Var(k) ==> r[i] == Lit(Escape(v))
  {
    if segs == [] then []
    else [if segs[0] == Var(k) then Lit(Escape(v)) else segs[0]] + Bind(segs[1..], k, v)
  }

  /** `p` and `q` agree on every marker except possibly `k`. */
  predicate AgreeExcept(p: Params, q: Params, k: Key) {
    forall k' :: k' != k ==> Value(p, k') == Value(q, k')
  }

  /**
   * A parameter only reaches the output through its own markers: rendering
   * with `p` equals rendering, with any `q` that differs only on `k`, the
   * template in which `p`'s value is spliced in as literal text.
   */
  lemma {:induction false} SubstitutionIsLocal(segs: seq<Segment>, k: Key, p: Params, q: Params)
    requires AgreeExcept(p, q, k)
    ensures RenderSegments(segs, p) == RenderSegments(Bind(segs, k, Value(p, k)), q)
  {
    if segs != [] {
      SubstitutionIsLocal(segs[1..], k, p, q);
      assert Bind(segs, k, Value(p, k))[1..] == Bind(segs[1..], k, Value(p, k));
      if segs[0] == Var(k) {
        CollapseEscape(Value(p, k));
      }
    }
  }

  /** A template without `{k}` markers renders the same whatever `k` is bound to. */
  lemma {:induction false} UnusedKeyIrrelevant(segs: seq<Segment>, k: Key, p: Params, q: Params)
    requires AgreeExcept(p, q, k)
    requires Var(k) !in segs
    ensures RenderSegments(segs, p) == RenderSegments(segs, q)
  {
    if segs != [] {
      assert segs[0] in segs;
      assert forall s :: s in segs[1..] ==> s in segs;
      UnusedKeyIrrelevant(segs[1..], k, p, q);
    }
  }
}
