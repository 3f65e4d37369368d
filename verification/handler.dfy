/**
 * `internal/handlers/web`: the welcome page's redirect, the values it reads
 * from the request context, the tool and file probes it formats, and the
 * feature list it renders. The probes' effects (PATH lookup, running a
 * command, `os.Stat`, `os.Getwd`) are inputs; logging and templ rendering
 * are not modelled.
 */
module WebHandler {
  import opened Wrappers
  import opened Text
  import opened Translations

  /** A value read from Fiber's context locals: missing, a string, or something else. */
  datatype Local = Absent | Str(s: string) | Other

  /** `ternStatusKey(condition, overrides...)`: non-empty overrides replace the default keys. */
  function TernStatusKey(condition: bool, overrides: seq<string>): (r: string)
    ensures r != ""
    ensures condition ==> r == if |overrides| > 0 && overrides[0] != "" then overrides[0] else "status_ok"
    ensures !condition ==> r == if |overrides| > 1 && overrides[1] != "" then overrides[1] else "status_error"
  {
    var trueKey := if |overrides| > 0 && overrides[0] != "" then overrides[0] else "status_ok";
    var falseKey := if |overrides| > 1 && overrides[1] != "" then overrides[1] else "status_error";
    if condition then trueKey else falseKey
  }

  /** Empty overrides are the same as none. */
  lemma EmptyOverridesAreDefaults(condition: bool)
    ensures TernStatusKey(condition, ["", ""]) == TernStatusKey(condition, [""]) == TernStatusKey(condition, [])
    ensures TernStatusKey(condition, []) == if condition then "status_ok" else "status_error"
  {
  }

  /** The target of the redirect from the group root: the base path, or nothing for "/", then "/welcome". */
  function RedirectTarget(basePath: Local): (r: string)
    ensures HasSuffix(r, "/welcome")
    ensures r == "/welcome" <==> !(basePath.Str? && basePath.s != "/" && basePath.s != "")
    ensures basePath.Str? && basePath.s != "/" ==> HasPrefix(r, basePath.s)
  {
    var current := if basePath.Str? then basePath.s else "";
    var prefix := if current == "/" then "" else current;
    prefix + "/welcome"
  }

  /** `getBasePathFromLocals`: the stored string, "/" when missing or of another type. */
  function BasePathFromLocals(basePath: Local): (r: string)
    ensures basePath.Str? ==> r == basePath.s
    ensures !basePath.Str? ==> r == "/"
  {
    match basePath
    case Str(s) => s
    case _ => "/"
  }

  /** The redirect goes to "/welcome" below the base path the page itself reads, whatever the local holds. */
  lemma RedirectFollowsBasePath(basePath: Local)
    ensures var b := BasePathFromLocals(basePath);
      RedirectTarget(basePath) == (if b == "/" then "" else b) + "/welcome"
  {
  }

  const CsrfDisabled: string := "csrf-disabled"

  /** `getCsrfToken`: the token stored by the CSRF middleware, or "" when there is none to offer. */
  function CsrfToken(serverPresent: bool, enableCSRF: bool, token: Local): (r: string)
    ensures r != CsrfDisabled
    ensures r != "" ==> serverPresent && enableCSRF && token == Str(r)
    ensures serverPresent && enableCSRF && token.Str? && token.s != CsrfDisabled ==> r == token.s
  {
    if !serverPresent || !enableCSRF then ""
    else if token.Str? && token.s != CsrfDisabled then token.s
    else ""
  }

  /** What the CSRF meta tag can carry: the token exactly when the server offers one. */
  lemma CsrfTokenCases(serverPresent: bool, enableCSRF: bool, token: Local)
    ensures CsrfToken(serverPresent, enableCSRF, token) == "" <==>
      !serverPresent || !enableCSRF || !token.Str? || token.s == "" || token.s == CsrfDisabled
  {
  }

  /** The outcome of running `<exec> <versionArgs...>`: its combined output, and whether it failed. */
  datatype VersionRun = RunOk(output: string) | RunFailed(output: string)

  /** What the environment answers for one executable: found in PATH, and how its version command ends. */
  datatype ExecProbe = ExecProbe(inPath: bool, run: VersionRun)

  /** A probe's `(isOk, detail)` pair. */
  datatype Check = Check(isOk: bool, detail: string)

  const MaxVersionLength: nat := 50
  const KeptVersionPrefix: nat := 47

  /** The first line of the trimmed output, itself trimmed. */
  function VersionLine(output: string): string {
    TrimSpace(FirstLine(TrimSpace(output)))
  }

  /** `strings.TrimSpace(s)` is a factor of `s`, found at index `i`. */
  lemma TrimSpaceIsFactor(s: string) returns (i: nat)
    ensures OccursAt(s, TrimSpace(s), i)
  {
    TrimIsFactor(s, GoSpace);
    i := |s| - |TrimLeft(s, GoSpace)|;
  }

  /** The version line is text of the output that holds no newline. */
  lemma VersionLineFromOutput(output: string)
    ensures Contains(output, VersionLine(output))
    ensures '\n' !in VersionLine(output)
  {
    var t := TrimSpace(output);
    var f := FirstLine(t);
    var line := TrimSpace(f);
    var i := TrimSpaceIsFactor(output);
    var j := TrimSpaceIsFactor(f);
    assert OccursAt(output, f, i) by {
      PrefixOccurs(t, f);
      FactorOfFactor(output, t, i, f, 0);
    }
    assert OccursAt(output, line, i + j) by {
      FactorOfFactor(output, f, i, line, j);
    }
    assert '\n' !in line by {
      FactorLacks(f, line, j, '\n');
    }
  }

  /** The version line, cut to 47 bytes plus "..." when it is over 50. */
  function VersionDetail(output: string): (r: string)
    ensures |r| <= MaxVersionLength
    ensures |VersionLine(output)| <= MaxVersionLength ==> r == VersionLine(output)
    ensures |VersionLine(output)| > MaxVersionLength ==>
      |r| == MaxVersionLength && HasPrefix(VersionLine(output), r[..KeptVersionPrefix]) && HasSuffix(r, "...")
  {
    var line := VersionLine(output);
    if |line| > MaxVersionLength then line[..KeptVersionPrefix] + "..." else line
  }

  /** `checkExecutable`: found or not in PATH, then the version line when version arguments are given. */
  function CheckExecutable(probe: ExecProbe, versionArgs: seq<string>): (r: Check)
    ensures r.isOk <==> probe.inPath
    ensures !probe.inPath ==> r.detail == "Not found in PATH"
    ensures probe.inPath && versionArgs == [] ==> r.detail == "Found in PATH"
    ensures probe.inPath && versionArgs != [] && probe.run.RunFailed? ==>
      r.detail == "Found (version check failed: " + TrimSpace(probe.run.output) + ")"
    ensures probe.inPath && versionArgs != [] && probe.run.RunOk? ==>
      r.detail == "Found: " + VersionDetail(probe.run.output)
  {
    if !probe.inPath then Check(false, "Not found in PATH")
    else if |versionArgs| > 0 then
      match probe.run
      case RunFailed(output) => Check(true, "Found (version check failed: " + TrimSpace(output) + ")")
      case RunOk(output) => Check(true, "Found: " + VersionDetail(output))
    else Check(true, "Found in PATH")
  }

  /** The answer of `os.Stat` for one path. */
  datatype StatResult = StatOk | NotExist | StatError(message: string)

  /** `checkFileExists`: the path's status, with the path in the detail. */
  function CheckFileExists(path: string, stat: StatResult): (r: Check)
    ensures r.isOk <==> stat.StatOk?
    ensures stat.StatOk? ==> r.detail == "Exists: " + path
    ensures stat.NotExist? ==> r.detail == "Not found: " + path
    ensures stat.StatError? ==> r.detail == "Error checking: " + path + " (" + stat.message + ")"
    ensures Contains(r.detail, path)
  {
    var r := match stat
      case StatOk => Check(true, "Exists: " + path)
      case NotExist => Check(false, "Not found: " + path)
      case StatError(m) => Check(false, "Error checking: " + path + " (" + m + ")");
    var n := match stat case StatOk => 8 case NotExist => 11 case StatError(_) => 16;
    assert OccursAt(r.detail, path, n);
    r
  }

  /** The heroicons the page uses; `OkIcon` and `ErrorIcon` are the defaults `addFeature` picks. */
  datatype Icon = OkIcon | ErrorIcon | Beaker | PaintBrush | Sparkles | CodeBracket | DocumentText | ArrowPath

  datatype FeatureStatus = FeatureStatus(name: string, isOk: bool, statusText: string, detail: string, icon: Icon)

  /**
   * The entry `addFeature` appends to the page's list; without an icon, the
   * ok or error icon by `isOk`.
   */
  function FeatureEntry(name: string, isOk: bool, statusKey: string, detail: string, icon: Option<Icon>): (f: FeatureStatus)
    ensures f.name == name && f.isOk == isOk && f.statusText == statusKey && f.detail == detail
    ensures icon.Some? ==> f.icon == icon.value
    ensures icon.None? ==> (f.icon == OkIcon <==> isOk) && f.icon in {OkIcon, ErrorIcon}
  {
    var actual := if icon.Some? then icon.value else if isOk then OkIcon else ErrorIcon;
    FeatureStatus(name, isOk, statusKey, detail, actual)
  }

  /** `filepath.Join` on clean elements: the non-empty ones, separated by "/". */
  function JoinPath(elems: seq<string>): (r: string)
    ensures (forall i :: 0 <= i < |elems| ==> elems[i] == "") ==> r == ""
  {
    if elems == [] then ""
    else
      var rest := JoinPath(elems[1..]);
      if elems[0] == "" then rest
      else if rest == "" then elems[0]
      else elems[0] + "/" + rest
  }

  /** The environment the welcome page probes. */
  datatype Probes = Probes(
    devMode: bool, publicDir: string, workingDir: Option<string>, loggerPresent: bool,
    templ: ExecProbe, air: ExecProbe, stat: string -> StatResult)

  const HeroiconsSource: seq<string> := ["webroot", "views", "components", "heroicons", "heroicons.templ"]

  /** Where the page looks for the heroicons source: below the working directory, or relative. */
  function HeroiconsPath(workingDir: Option<string>): string {
    if workingDir.Some? then JoinPath([workingDir.value] + HeroiconsSource)
    else "webroot/views/components/heroicons/heroicons.templ"
  }

  /** The feature keys of the welcome page, in display order. */
  const FeatureKeys: seq<string> := [
    "go_backend", "fiber_framework", "blitzkit_server", "templ_templating", "htmx",
    "tailwind_css", "daisy_ui", "heroicons_generator", "slog_logging", "air_live_reload"
  ]

  function BoolText(b: bool): string {
    if b then "true" else "false"
  }

  const AirDisabled: string := "Disabled (only active in dev mode with 'make run')"

  /** What the page learns from its probes before building the list. */
  datatype ProbeResults = ProbeResults(
    devMode: bool, templ: Check, htmx: Check, tailwind: Check, heroicons: Check, loggerPresent: bool, air: Check)

  function HtmxPath(pr: Probes): string {
    JoinPath([pr.publicDir, "htmx.min.js"])
  }

  function TailwindPath(pr: Probes): string {
    JoinPath([pr.publicDir, "tailwind.css"])
  }

  /** The probes of `handleWelcomePage`; Air is only probed in dev mode. */
  function Probe(pr: Probes): (r: ProbeResults)
    ensures r.devMode == pr.devMode && r.loggerPresent == pr.loggerPresent
    ensures r.templ.isOk <==> pr.templ.inPath
    ensures r.htmx.isOk <==> pr.stat(HtmxPath(pr)).StatOk?
    ensures r.tailwind.isOk <==> pr.stat(TailwindPath(pr)).StatOk?
    ensures r.heroicons.isOk <==> pr.stat(HeroiconsPath(pr.workingDir)).StatOk?
    ensures !pr.devMode ==> !r.air.isOk && r.air.detail == AirDisabled
    ensures pr.devMode ==> (r.air.isOk <==> pr.air.inPath)
  {
    ProbeResults(
      pr.devMode,
      CheckExecutable(pr.templ, ["version"]),
      CheckFileExists(HtmxPath(pr), pr.stat(HtmxPath(pr))),
      CheckFileExists(TailwindPath(pr), pr.stat(TailwindPath(pr))),
      CheckFileExists(HeroiconsPath(pr.workingDir), pr.stat(HeroiconsPath(pr.workingDir))),
      pr.loggerPresent,
      if pr.devMode then CheckExecutable(pr.air, ["-v"]) else Check(false, AirDisabled))
  }

  function DaisyDetail(tailwindOk: bool): string {
    if !tailwindOk then "Depends on Tailwind CSS" else "Enabled via Tailwind plugin"
  }

  /** The entry the `i`-th `addFeature` call of `handleWelcomePage` appends. */
  function FeatureAt(res: ProbeResults, i: nat): FeatureStatus {
    if i == 0 then FeatureEntry("go_backend", true, "status_ok", "Running", Some(OkIcon))
    else if i == 1 then FeatureEntry("fiber_framework", true, "status_ok", "Active", Some(OkIcon))
    else if i == 2 then FeatureEntry("blitzkit_server", true, "status_ok", "DevMode: " + BoolText(res.devMode), Some(OkIcon))
    else if i == 3 then FeatureEntry("templ_templating", res.templ.isOk, TernStatusKey(res.templ.isOk, []), res.templ.detail, None)
    else if i == 4 then FeatureEntry("htmx", res.htmx.isOk, TernStatusKey(res.htmx.isOk, []), res.htmx.detail, Some(Beaker))
    else if i == 5 then
      FeatureEntry("tailwind_css", res.tailwind.isOk, TernStatusKey(res.tailwind.isOk, []), res.tailwind.detail, Some(PaintBrush))
    else if i == 6 then
      FeatureEntry("daisy_ui", res.tailwind.isOk, TernStatusKey(res.tailwind.isOk, ["status_ok", "status_config_issue"]),
                   DaisyDetail(res.tailwind.isOk), Some(Sparkles))
    else if i == 7 then
      FeatureEntry("heroicons_generator", res.heroicons.isOk, TernStatusKey(res.heroicons.isOk, []), res.heroicons.detail, Some(CodeBracket))
    else if i == 8 then
      FeatureEntry("slog_logging", res.loggerPresent, TernStatusKey(res.loggerPresent, []), "Logger configured", Some(DocumentText))
    else
      FeatureEntry("air_live_reload", res.air.isOk, TernStatusKey(res.air.isOk, ["status_ok", "status_not_found_or_disabled"]),
                   res.air.detail, Some(ArrowPath))
  }

  /** The ten entries `handleWelcomePage` adds, in order. */
  function WelcomeFeatures(res: ProbeResults): (r: seq<FeatureStatus>)
    ensures |r| == |FeatureKeys|
    ensures forall i :: 0 <= i < |r| ==> r[i] == FeatureAt(res, i)
  {
    seq(|FeatureKeys|, i requires 0 <= i < |FeatureKeys| => FeatureAt(res, i))
  }

  /** The entries carry the feature keys, in order. */
  lemma FeatureNames(res: ProbeResults)
    ensures forall i :: 0 <= i < |WelcomeFeatures(res)| ==> WelcomeFeatures(res)[i].name == FeatureKeys[i]
  {
    forall i | 0 <= i < |FeatureKeys| ensures WelcomeFeatures(res)[i].name == FeatureKeys[i] {
      NameAt(res, i);
    }
  }

  lemma NameAt(res: ProbeResults, i: nat)
    requires i < |FeatureKeys|
    ensures WelcomeFeatures(res)[i].name == FeatureKeys[i]
  {
  }

  /** Every entry is ok exactly when its status key is "status_ok"; a failing entry's key is one of the page's failure keys. */
  lemma OkMatchesStatusKey(res: ProbeResults)
    ensures forall i :: 0 <= i < |WelcomeFeatures(res)| ==>
      (WelcomeFeatures(res)[i].isOk <==> WelcomeFeatures(res)[i].statusText == "status_ok")
    ensures forall i :: 0 <= i < |WelcomeFeatures(res)| ==> WelcomeFeatures(res)[i].statusText in StatusKeys
  {
    forall i | 0 <= i < |FeatureKeys|
      ensures WelcomeFeatures(res)[i].isOk <==> WelcomeFeatures(res)[i].statusText == "status_ok"
      ensures WelcomeFeatures(res)[i].statusText in StatusKeys
    {
      StatusAt(res, i);
    }
  }

  lemma StatusAt(res: ProbeResults, i: nat)
    requires i < |FeatureKeys|
    ensures WelcomeFeatures(res)[i].isOk <==> WelcomeFeatures(res)[i].statusText == "status_ok"
    ensures WelcomeFeatures(res)[i].statusText in StatusKeys
  {
    var r := WelcomeFeatures(res);
    assert "status_error" != "status_ok" && "status_config_issue" != "status_ok" by {
      assert |"status_error"| != |"status_ok"| && |"status_config_issue"| != |"status_ok"|;
    }
    assert "status_not_found_or_disabled" != "status_ok" by {
      assert |"status_not_found_or_disabled"| != |"status_ok"|;
    }
    assert r[i] == FeatureAt(res, i);
  }

  /** The first three entries are always ok; the probed ones report their probe. */
  lemma FeaturesReportProbes(res: ProbeResults)
    ensures var r := WelcomeFeatures(res);
      && r[0].isOk && r[1].isOk && r[2].isOk
      && r[2].detail == "DevMode: " + BoolText(res.devMode)
      && r[3].isOk == res.templ.isOk && r[3].detail == res.templ.detail
      && r[3].icon == (if res.templ.isOk then OkIcon else ErrorIcon)
      && r[4].isOk == res.htmx.isOk && r[4].detail == res.htmx.detail
      && r[5].isOk == res.tailwind.isOk && r[5].detail == res.tailwind.detail
      && r[7].isOk == res.heroicons.isOk && r[7].detail == res.heroicons.detail
      && r[8].isOk == res.loggerPresent
      && r[9].isOk == res.air.isOk && r[9].detail == res.air.detail
  {
  }

  /** DaisyUI's entry mirrors Tailwind's, with its own status key and detail. */
  lemma DaisyMirrorsTailwind(res: ProbeResults)
    ensures var r := WelcomeFeatures(res);
      && r[6].isOk == r[5].isOk
      && (!r[6].isOk ==> r[6].statusText == "status_config_issue" && r[6].detail == "Depends on Tailwind CSS")
      && (r[6].isOk ==> r[6].detail == "Enabled via Tailwind plugin")
  {
  }

  /** The page as a whole: its entries follow the environment's probes. */
  function WelcomeFeaturesFor(pr: Probes): seq<FeatureStatus> {
    WelcomeFeatures(Probe(pr))
  }

  /** Outside dev mode Air is reported disabled; in dev mode it is ok exactly when found in PATH. */
  lemma AirOnlyInDevMode(pr: Probes)
    ensures var r := WelcomeFeaturesFor(pr);
      && (!pr.devMode ==> !r[9].isOk && r[9].statusText == "status_not_found_or_disabled" && r[9].detail == AirDisabled)
      && (pr.devMode ==> (r[9].isOk <==> pr.air.inPath))
      && (!r[9].isOk ==> r[9].statusText == "status_not_found_or_disabled")
  {
    var res := Probe(pr);
    FeaturesReportProbes(res);
    AirStatusKey(res);
  }

  lemma AirStatusKey(res: ProbeResults)
    ensures !WelcomeFeatures(res)[9].isOk ==> WelcomeFeatures(res)[9].statusText == "status_not_found_or_disabled"
  {
  }

  /** The tools and files the page probes decide their entries. */
  lemma FeaturesFollowProbes(pr: Probes)
    ensures var r := WelcomeFeaturesFor(pr);
      && (r[3].isOk <==> pr.templ.inPath)
      && (r[4].isOk <==> pr.stat(HtmxPath(pr)).StatOk?)
      && (r[5].isOk <==> pr.stat(TailwindPath(pr)).StatOk?)
      && (r[6].isOk <==> pr.stat(TailwindPath(pr)).StatOk?)
      && (r[7].isOk <==> pr.stat(HeroiconsPath(pr.workingDir)).StatOk?)
      && (r[8].isOk <==> pr.loggerPresent)
  {
    FeaturesReportProbes(Probe(pr));
    DaisyMirrorsTailwind(Probe(pr));
  }

  /** The status keys the page can produce. */
  const StatusKeys: set<string> := {"status_ok", "status_error", "status_config_issue", "status_not_found_or_disabled"}

  /** Every name and status key the page shows has a text in both catalogues. */
  lemma FeaturesAreTranslated(res: ProbeResults)
    ensures forall i :: 0 <= i < |WelcomeFeatures(res)| ==>
      var f := WelcomeFeatures(res)[i];
      f.name in En && f.name in Fr && f.statusText in En && f.statusText in Fr
  {
    SameKeys();
    FeatureNames(res);
    OkMatchesStatusKey(res);
    FeatureKeysTranslated();
    StatusKeysTranslated();
  }

  lemma FeatureKeysTranslated()
    ensures forall i :: 0 <= i < |FeatureKeys| ==> FeatureKeys[i] in En
  {
  }

  lemma StatusKeysTranslated()
    ensures forall k :: k in StatusKeys ==> k in En
  {
  }

  /** The page data `handleWelcomePage` renders. */
  datatype WelcomePageData = WelcomePageData(
    lang: string, translations: map<string, string>, csrfToken: string, basePath: string,
    features: seq<FeatureStatus>)

  /** `handleWelcomePage`, up to rendering: English texts, the request's locals, the probed features. */
  function WelcomePage(basePath: Local, csrfLocal: Local, enableCSRF: bool, pr: Probes): (r: WelcomePageData)
    ensures r.lang == "en" && r.translations == En
    ensures r.csrfToken != CsrfDisabled
    ensures r.basePath == BasePathFromLocals(basePath)
    ensures |r.features| == |FeatureKeys|
  {
    WelcomePageData("en", GetTranslations("en"), CsrfToken(true, enableCSRF, csrfLocal),
                    BasePathFromLocals(basePath), WelcomeFeaturesFor(pr))
  }
}
