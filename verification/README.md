# EmbryGo in Dafny

EmbryGo is a starter kit for Go web applications (Fiber, BlitzKit, Templ,
htmx, Tailwind/DaisyUI). This project covers two parts of it.

**The scaffolder, `generate_embrygo.py`.** Its `main` runs five steps:
1. It asks before removing an existing project root.
2. It recreates the root.
3. It creates a fixed list of directories.
4. It writes empty `.gitkeep` placeholders.
5. It calls `create_file` once per generated file. That call creates the parent directories, strips the content and overwrites the target.

The filesystem is an abstract value: a set of directory paths and a map from file path to content. Each of the five steps is a pure transformer of that value. The prompt's answer is an input string. Template bodies are an input too: a plain text for a plain string literal, and a list of literal and `{NAME}` segments for an f-string. Rendering substitutes the parameters and collapses doubled braces.

**The decision logic of the generated application.** These are pure functions of their inputs:
- the configuration loaded from the environment (`internal/config`);
- the settings `main` derives from it: log level, base path, security headers, CSRF cookie and the admin route;
- the web handler's helpers and its welcome-page feature list;
- the translation catalogues;
- the email validator;
- the client script that attaches the CSRF token to htmx requests.

The process environment is a map. `url.Parse`, `exec.LookPath` and `exec.Command`, `os.Stat` and `os.Getwd` are not called: their answers are parameters.

Modules:
- `Wrappers`: `Option` and `Result`.
- `Text`: Python's `strip`, Go's `TrimSpace`/`TrimSuffix`/`Split(...)[0]`, and ASCII case mapping.
- `FileSystem`: the abstract filesystem and `create_file`.
- `Templates`: template rendering.
- `Scaffold`: the generator's plan and `main`.
- `ScaffoldProperties`: what a completed run leaves behind.
- `Configuration`, `ServiceApp`, `WebHandler`, `Translations`, `Helpers`: the Go packages.
- `HtmxCsrf`: the client script.

## Model

| member | source | states |
|---|---|---|
| FileSystem.CreateFile | generate_embrygo.py:15-19 | afterwards every ancestor directory of the target exists; the target holds the stripped content, whatever it held before; every other file is present and unchanged exactly as before |
| FileSystem.Mkdir | generate_embrygo.py:33 | `mkdir(parents=True, exist_ok=True)` adds the path and all its ancestors and touches no file |
| FileSystem.RemoveTree | generate_embrygo.py:30 | `rmtree` leaves nothing at or below the root, and keeps every directory and file outside it with its content |
| FileSystem.MkdirAll | generate_embrygo.py:76-79 | the directory loop adds every ancestor of every entry and touches no file |
| FileSystem.WriteAll | generate_embrygo.py:81-83 | a run of `create_file` calls adds exactly the written paths to the files and their parent directories to the directories |
| FileSystem.WriteAllContents | generate_embrygo.py:15-19 | after a run of writes each written file holds the stripped content of its last write; unwritten files keep their content |
| FileSystem.LastContentAt | generate_embrygo.py:15-19 | a write that no later write targets is the one whose content survives |
| FileSystem.BuildFromNothing | generate_embrygo.py:33-86 | building on a filesystem with nothing at the root leaves below the root exactly the tree built from the root, the directory list and the writes; outside the root no file changes and the only directories added are the root's missing ancestors |
| FileSystem.BuiltDirsOutside | generate_embrygo.py:33-83 | making the root, directories below it and files below it adds, outside the root, only the root's ancestors to the directories and removes none |
| FileSystem.Prefixes | generate_embrygo.py:16 | the ancestors `mkdir(parents=True)` creates are exactly the non-empty prefixes of the path |
| Scaffold.Guard | generate_embrygo.py:25-31 | the run stops exactly when the root exists and the answer does not confirm; otherwise nothing remains at the root and everything outside it is kept |
| Scaffold.ConfirmedExactly | generate_embrygo.py:27 | `answer.lower() == 'y'` holds for "y" and "Y" and for no other answer |
| Scaffold.CreateDirs | generate_embrygo.py:33-61 | after creating the root and the directory loop, the root and every `dirs_to_create` entry exist, no file changed |
| Scaffold.Generate | generate_embrygo.py:21-86 | a decline on an existing root aborts with the filesystem unchanged; a completed run changes no file outside the root, creates no directory outside it but the root's missing ancestors, removes none there, and leaves at the root exactly the planned tree, whatever was there before |
| Scaffold.CompletedTree | generate_embrygo.py:33-86 | the phases root, directories, placeholders, files, run in that order on a filesystem with nothing at the root, build the planned tree, keep every file and directory outside it, and add outside it only the root's ancestors |
| Scaffold.WriteAllAppend | generate_embrygo.py:81-86 | the placeholder phase followed by the file phase is one run of writes |
| Scaffold.AllWritesUnderRoot | generate_embrygo.py:81-86 | every file a run writes lies strictly below the project root |
| Scaffold.DirTargetsUnderRoot | generate_embrygo.py:76-78 | every target of the directory loop lies below the project root |
| Scaffold.EntryIsNoGitkeep | generate_embrygo.py:88-1386 | every path of the file phase is non-empty and its last component is not `.gitkeep` |
| ScaffoldProperties.PlaceholderDirsArePlanned | generate_embrygo.py:37-74 | every placeholder directory is also a `dirs_to_create` entry; the command and venv directories are derived from the parameters |
| ScaffoldProperties.AnswerExamples | generate_embrygo.py:27 | "y" and "Y" proceed; "yes", "" and "n" decline |
| ScaffoldProperties.DeclineLeavesEverything | generate_embrygo.py:25-29 | declining on an existing root ends the run with the filesystem exactly as it was |
| ScaffoldProperties.AcceptRemovesForeignFiles | generate_embrygo.py:30-33 | after confirming, a file below the root that the run does not rewrite is gone |
| ScaffoldProperties.CompletedRunsAgree | generate_embrygo.py:21-86 | two runs with the same parameters and bodies that each start from an empty root or get a confirming answer both complete and leave the same tree at the root, whatever the initial filesystem |
| ScaffoldProperties.TreeFile | generate_embrygo.py:15-19 | every written path is a file of the planned tree, holding the stripped content of its last write |
| ScaffoldProperties.PlannedDirsExist | generate_embrygo.py:76-79 | every `dirs_to_create` entry is a directory of the planned tree |
| ScaffoldProperties.WrittenTextIsStripped | generate_embrygo.py:18 | no generated file starts or ends with whitespace |
| ScaffoldProperties.GitkeepNotRewritten | generate_embrygo.py:81-86 | no write after a placeholder targets the same path |
| ScaffoldProperties.PlaceholdersStayEmpty | generate_embrygo.py:81-83 | each placeholder directory ends up with an empty `.gitkeep` |
| ScaffoldProperties.DatabaseDirKeepsPlaceholder | generate_embrygo.py:742 | `internal/database` ends up with both its `.gitkeep` and `database.go` |
| ScaffoldProperties.GoModRenderedRaw | generate_embrygo.py:1385 | the `go.mod` template renders to "module ", the module name, then "\n\ngo 1.21\n" |
| ScaffoldProperties.GoModStripped | generate_embrygo.py:1385 | stripping the rendered `go.mod` drops only its final newline |
| ScaffoldProperties.GoModuleFiles | generate_embrygo.py:1385-1386 | the tree's `go.mod` is exactly "module <M>\n\ngo 1.21" and its `go.sum` is empty |
| ScaffoldProperties.RouterKeepsLiteralMarker | generate_embrygo.py:938-945 | the router body is not an f-string, so a `{GO_MODULE_NAME}` in it survives into the written file |
| ScaffoldProperties.MarkerSurvivesStrip | generate_embrygo.py:18 | stripping never removes a marker that starts and ends with a brace |
| Templates.CollapseEscape | generate_embrygo.py:126 | collapsing undoes doubling every brace, so any text can be spelled in an f-string |
| Templates.CollapseBraceFree | generate_embrygo.py:88-1383 | literal text without braces reads the same inside and outside an f-string |
| Templates.CollapseQuadrupleBraces | generate_embrygo.py:1231-1233 | `{{{{` and `}}}}` in f-string source come out as `{{` and `}}` |
| Templates.PlainIsVerbatim | generate_embrygo.py:938-945 | a plain template is written verbatim whatever the parameters |
| Templates.RenderSegmentsAppend | generate_embrygo.py:88-1383 | rendering distributes over concatenation of segment lists |
| Templates.Bind | generate_embrygo.py:88-1383 | binding a marker replaces exactly its occurrences by the escaped literal value and keeps every other segment |
| Templates.SubstitutionIsLocal | generate_embrygo.py:88-1383 | rendering with a parameter equals rendering with its value spelled into the template, whatever the parameter is bound to elsewhere |
| Templates.UnusedKeyIrrelevant | generate_embrygo.py:88-1383 | a template without a marker renders the same whatever that marker's value |
| Text.Trim | generate_embrygo.py:18 | the stripped text is no longer than the input and neither of its ends is whitespace |
| Text.TrimIsFactor | generate_embrygo.py:18 | the stripped text is the part of the input between its leading and trailing whitespace runs |
| Text.TrimIdempotent | generate_embrygo.py:18 | stripping twice is stripping once |
| Text.TrimKeepsInnerFactor | generate_embrygo.py:18 | a piece of text that starts and ends with non-whitespace survives stripping |
| Text.TrimDropsFinalNewline | generate_embrygo.py:1385 | a stripped text plus one newline strips back to itself |
| Text.FirstLine | code/internal/handlers/web/handler.go:100-101 | the first element of a split on "\n" is a prefix without newline, followed by a newline when shorter than the text |
| Text.TrimSuffix | code/cmd/service-app/main.go:74 | removing a present suffix leaves the text that suffix completes; otherwise the text is unchanged |
| Text.LowerIdempotent | code/pkg/helpers/helpers.go:15 | lower-casing twice is lower-casing once |
| Configuration.LoadConfig | code/internal/config/config.go:19-51 | an error exactly when APP_BASE_URL is empty and APP_ENV is not "development", with the message naming APP_BASE_URL, the URL left empty and dev mode off; dev mode exactly when APP_ENV is "development"; credentials and a non-empty URL copied verbatim; on success the URL is non-empty and an empty one becomes the localhost default |
| Configuration.DefaultBaseURL | code/internal/config/config.go:42-47 | the development URL is "http://localhost:" followed by PORT, or by "8080" when PORT is empty |
| Configuration.JoinComma | code/internal/config/config.go:37 | joining one item gives the item, joining none gives "" |
| Configuration.LoadsIndependentlyOfCredentials | code/internal/config/config.go:30-40 | changing ADMIN_USER, ADMIN_PASS or PORT never changes whether the configuration loads |
| Configuration.LoadedConfigIsStable | code/internal/config/config.go:22-47 | loading again from the values a successful load produced gives the same configuration and no error |
| ServiceApp.DevModeIsNotProduction | code/cmd/service-app/main.go:35 | the configuration's dev mode is exactly `!isProduction` |
| ServiceApp.LogSettingsFor | code/cmd/service-app/main.go:35-44 | debug level, source logging and the "development" name exactly when not in production |
| ServiceApp.BasePath | code/cmd/service-app/main.go:62-79 | a failure exactly when the URL is non-empty and does not parse; "/" for an empty URL or an empty or "/" path; otherwise starts with "/"; ends in "/" only when the path ends in "//" |
| ServiceApp.BasePathKeepsDoubledSlash | code/cmd/service-app/main.go:72-78 | "/app//" gives "/app/": only one trailing slash is trimmed |
| ServiceApp.BasePathReadsURLPath | code/cmd/service-app/main.go:73-78 | the base path, with the trimmed slash put back, is the URL path with a leading "/" |
| ServiceApp.SecurityHeaders | code/cmd/service-app/main.go:91-108 | the six common headers with their values, plus a policy that is the production one exactly in production |
| ServiceApp.HeadersDifferOnlyInPolicy | code/cmd/service-app/main.go:91-108 | both modes send the same headers with the same values except for a different Content-Security-Policy |
| ServiceApp.CsrfFor | code/cmd/service-app/main.go:120-133 | the cookie is secure exactly in production and named "__Host-embrygo_csrf_" there, "embrygo_csrf_dev_" otherwise, so it has the "__Host-" prefix exactly when secure; HTTP-only, header lookup, Lax, 12 hours |
| ServiceApp.AdminRouteFor | code/cmd/service-app/main.go:207-224 | the admin route is protected exactly when both credentials are non-empty, with the one user and password configured |
| ServiceApp.WarningMatchesRoute | code/cmd/service-app/main.go:86-88 | the credentials warning is logged exactly when the admin route ends up unprotected |
| ServiceApp.Startup | code/cmd/service-app/main.go:35-224 | startup fails exactly when the configuration or the base URL is rejected; otherwise its settings agree with the loaded configuration's mode |
| WebHandler.TernStatusKey | code/internal/handlers/web/handler.go:232-248 | "status_ok"/"status_error" by default, each replaced by its override only when that is non-empty; never empty |
| WebHandler.EmptyOverridesAreDefaults | code/internal/handlers/web/handler.go:236-242 | empty overrides behave as absent ones |
| WebHandler.RedirectTarget | code/internal/handlers/web/handler.go:44-51 | ends in "/welcome"; is "/welcome" exactly when the base path is missing, "/" or empty; otherwise starts with the base path |
| WebHandler.BasePathFromLocals | code/internal/handlers/web/handler.go:57-67 | the stored string, or "/" when the local is absent or not a string |
| WebHandler.RedirectFollowsBasePath | code/internal/handlers/web/handler.go:44-67 | the redirect goes to "/welcome" below the base path the page reads |
| WebHandler.CsrfToken | code/internal/handlers/web/handler.go:71-80 | never "csrf-disabled"; a non-empty result is the stored string local of an enabled server; a stored token is returned |
| WebHandler.CsrfTokenCases | code/internal/handlers/web/handler.go:71-80 | "" exactly when there is no server, CSRF is disabled, or the local is not a string, is empty or is "csrf-disabled" |
| WebHandler.VersionLineFromOutput | code/internal/handlers/web/handler.go:99-102 | the version line is a piece of the command output and holds no newline |
| WebHandler.VersionDetail | code/internal/handlers/web/handler.go:99-105 | at most 50 bytes; the version line itself when it fits; otherwise 50 bytes: its first 47 then "..." |
| WebHandler.CheckExecutable | code/internal/handlers/web/handler.go:84-109 | ok exactly when found in PATH, even when the version command fails; the detail for each of the four outcomes |
| WebHandler.CheckFileExists | code/internal/handlers/web/handler.go:113-125 | ok exactly when the stat succeeds; the detail for each outcome, always naming the path |
| WebHandler.FeatureEntry | code/internal/handlers/web/handler.go:147-163 | an explicit icon is kept; a missing one becomes the ok icon exactly when the entry is ok, the error icon otherwise |
| WebHandler.JoinPath | code/internal/handlers/web/handler.go:177 | joining only empty elements gives "" |
| WebHandler.Probe | code/internal/handlers/web/handler.go:172-212 | each probe is ok exactly when its tool is in PATH or its file exists; Air outside dev mode is not ok, with the disabled detail |
| WebHandler.WelcomeFeatures | code/internal/handlers/web/handler.go:139-212 | the page lists ten features |
| WebHandler.FeatureNames | code/internal/handlers/web/handler.go:165-212 | the entries carry the ten feature keys in display order |
| WebHandler.OkMatchesStatusKey | code/internal/handlers/web/handler.go:165-212 | each entry is ok exactly when its key is "status_ok", and every key is one of the page's four status keys |
| WebHandler.FeaturesReportProbes | code/internal/handlers/web/handler.go:165-205 | the first three entries are always ok; each probed entry reports its probe's flag and detail |
| WebHandler.DaisyMirrorsTailwind | code/internal/handlers/web/handler.go:186-191 | DaisyUI is ok exactly when Tailwind is, with "status_config_issue" and its dependency detail otherwise |
| WebHandler.AirOnlyInDevMode | code/internal/handlers/web/handler.go:207-212 | outside dev mode Air is not ok with "status_not_found_or_disabled"; in dev mode it is ok exactly when found in PATH |
| WebHandler.AirStatusKey | code/internal/handlers/web/handler.go:212 | a failing Air entry carries "status_not_found_or_disabled" |
| WebHandler.FeaturesFollowProbes | code/internal/handlers/web/handler.go:172-202 | Templ, htmx, Tailwind and Heroicons entries are ok exactly when their tool or file is found |
| WebHandler.FeaturesAreTranslated | code/internal/handlers/web/handler.go:165-212 | every name and status key the page shows has a text in both catalogues |
| WebHandler.FeatureKeysTranslated | code/pkg/translations/translations.go:11-27 | every feature key is in the English catalogue |
| WebHandler.StatusKeysTranslated | code/pkg/translations/translations.go:11-27 | every status key is in the English catalogue |
| WebHandler.WelcomePage | code/internal/handlers/web/handler.go:129-225 | English texts, the locals' base path, a token that is never "csrf-disabled", ten features |
| Translations.GetTranslations | code/pkg/translations/translations.go:65-71 | the French catalogue exactly for "fr", the English one for every other language; always the same key set |
| Translations.UnknownLanguageFallsBack | code/pkg/translations/translations.go:69-70 | any language other than "en" and "fr" reads the English catalogue |
| Translations.SameKeys | code/pkg/translations/translations.go:7-60 | English and French define the same keys |
| Translations.CataloguesHave25Keys | code/pkg/translations/translations.go:7-60 | both catalogues define exactly the 25 listed keys |
| Helpers.MatchesIffInLanguage | code/pkg/helpers/helpers.go:8 | the matcher accepts exactly the language of the anchored regular expression |
| Helpers.SplitIsUnique | code/pkg/helpers/helpers.go:8 | in a match the `@` is the only one and the separating `.` is the last one |
| Helpers.IsValidEmailMeansLanguage | code/pkg/helpers/helpers.go:11-16 | an address is valid exactly when its lower-case form is in the language |
| Helpers.EmptyIsRejected | code/pkg/helpers/helpers.go:12-14 | the empty string is rejected |
| Helpers.CaseInsensitive | code/pkg/helpers/helpers.go:15 | validation gives the same answer for an address and its lower-case form |
| Helpers.AcceptedShape | code/pkg/helpers/helpers.go:8-15 | an accepted address has one `@` after a non-empty local part, at least one character between it and the last `.`, and two or more letters after that `.` |
| Helpers.TopLevelNeedsTwoLetters | code/pkg/helpers/helpers.go:8 | "a@b.c" is rejected and "a@b.co" accepted |
| HtmxCsrf.ConfigureHtmxCsrf | code/tools/app.js:11-36 | listens exactly when the token is present, non-empty and neither marker, with that token; otherwise the diagnostic is chosen disabled, then API-excluded, then missing or empty |
| HtmxCsrf.OnConfigRequest | code/tools/app.js:19-26 | a state-changing request of a listening page gets the header with exactly the token; otherwise the headers are unchanged; no other header changes |
| HtmxCsrf.VerbCaseIsIgnored | code/tools/app.js:20-22 | "post", "Patch" and "DELETE" qualify; "get" and "GET" do not |
| HtmxCsrf.TokenSentIffOffered | code/tools/app.js:12-23 | a state-changing request carries the header exactly when the page offered an acceptable token, and then carries that token |
| HtmxCsrf.OnConfigRequestIsIdempotent | code/tools/app.js:19-26 | handling the event twice gives the headers of handling it once |

## Left out

- `godotenv.Load(".env")` (code/cmd/service-app/main.go:32) is folded into the environment map: the map is the environment after loading, in which a variable already set keeps its value.
- `input()` at generate_embrygo.py:27 raising `EOFError` on a closed standard input: the answer is always a string.
- Python's Unicode `str.lower()` on the answer is modelled on ASCII. Under Unicode too only "y" and "Y" lower to "y", so `Confirmed` accepts the same answers.
- Filesystem errors, permissions and encodings: every `mkdir`, `open` and `rmtree` succeeds. `rmtree` on a root that is a file is not distinguished.
- Parameters that contain "/": `SERVICE_APP_NAME` and `PYTHON_VENV_DIR_NAME` are each treated as one path component.
- The literal template bodies at generate_embrygo.py:88-1383 are an input, `Payload`. Only the bodies of `go.mod`, `go.sum`, `favicon.ico` and `.gitkeep` are concrete.
- The generated copies of the Go sources inside the templates are not modelled. The Go logic is modelled from the `code/` tree.
- The generator's console output and closing summary (generate_embrygo.py:1388-1409), with `Path.resolve` and `os.path.relpath`.
- Python's `str.isspace` is modelled on a fixed set of whitespace characters, and Go's `strings.TrimSpace` on ASCII whitespace.
- Go strings are sequences of characters, one per byte. Slicing a multi-byte version line at byte 47 is therefore not modelled.
- `strings.ToLower` and JavaScript's `toUpperCase` are modelled on ASCII only. Go lower-cases a few non-ASCII letters to ASCII ones, such as the Kelvin sign to "k", which the validator would then accept.
- The Go regular-expression engine: the one expression is matched by a direct matcher, proved equal to the expression's language.
- `url.Parse` is a parameter. It yields the URL's path or an error.
- `filepath.Join` is simplified to joining non-empty elements with "/". `Clean` is not applied.
- `exec.LookPath`, `exec.Command`, `os.Stat` and `os.Getwd` are parameters.
- Server construction, middleware registration, static serving, metrics, goroutines and signal-driven shutdown (code/cmd/service-app/main.go:110-296).
- All logging.
- The `EnableCSRF == false` branch at code/cmd/service-app/main.go:190-197 is not modelled: the configuration sets it to `true`. The handler's token helper still takes the flag as input.
- The DOM, the event registration and the console messages of app.js. The chosen message is modelled as a diagnostic value.
- Templ rendering of the welcome page: the page data is the model's output.
- Icons are an enumeration, not Templ components with attributes.
- WebHandler.WelcomeFeatures: its own contract states only the length. The contents are stated by the lemmas about it: names, status keys, probes, DaisyUI and Air.
- Configuration.JoinComma: states only the cases of zero and one item, the only ones `LoadConfig` produces.
- WebHandler.JoinPath: states only that joining empty elements gives "". The paths it builds are passed to the stat answer as they are.
- Stub packages with no logic: database, API handler, router, models, middleware and the welcome service.
