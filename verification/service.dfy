/**
 * The decisions `main` in `cmd/service-app` takes before it hands over to the
 * server: log settings, the routing base path, security headers, CSRF cookie
 * settings and the protection of the example admin route. Server
 * construction, middleware registration and shutdown are not modelled; the
 * URL parser is a parameter that yields the parsed path or an error.
 */
module ServiceApp {
  import opened Wrappers
  import opened Text
  import opened Configuration

  /** `APP_ENV` is anything but "development". */
  predicate IsProduction(env: Env) {
    Getenv(env, "APP_ENV") != "development"
  }

  /** The configuration's `DevMode` and `main`'s `isProduction` read `APP_ENV` the same way. */
  lemma DevModeIsNotProduction(env: Env)
    ensures LoadConfig(env).appConfig.devMode <==> !IsProduction(env)
  {
  }

  datatype Level = LevelDebug | LevelInfo

  datatype LogSettings = LogSettings(level: Level, addSource: bool, environmentName: string)

  function LogSettingsFor(isProduction: bool): (r: LogSettings)
    ensures r.level == LevelDebug <==> !isProduction
    ensures r.addSource <==> !isProduction
    ensures r.environmentName == "development" <==> !isProduction
    ensures r.environmentName in {"production", "development"}
  {
    var s := LogSettings(LevelInfo, false, "production");
    if !isProduction then s.(level := LevelDebug, addSource := true, environmentName := "development") else s
  }

  /**
   * The base path under which every route and asset is served, derived from
   * `APP_BASE_URL`. `parsed` is what the URL parser makes of a non-empty base
   * URL: the URL's path, or the parse error that is fatal.
   */
  function BasePath(appBaseURL: string, parsed: Result<string>): (r: Result<string>)
    ensures r.Failure? <==> appBaseURL != "" && parsed.Failure?
    ensures r.Success? ==> HasPrefix(r.value, "/")
    ensures r.Success? && (appBaseURL == "" || parsed.value == "" || parsed.value == "/") ==> r.value == "/"
    ensures r.Success? && appBaseURL != "" ==>
      (|r.value| > 1 && r.value[|r.value| - 1] == '/' <==> |parsed.value| > 2 && HasSuffix(parsed.value, "//"))
  {
    if appBaseURL == "" then Success("/")
    else
      match parsed
      case Failure(e) => Failure(e)
      case Success(path) =>
        if path != "" && path != "/" then
          var trimmed := TrimSuffix(path, "/");
          Success(if HasPrefix(trimmed, "/") then trimmed else "/" + trimmed)
        else Success("/")
  }

  /** Only one trailing slash is trimmed: a path ending in "//" keeps one. */
  lemma BasePathKeepsDoubledSlash()
    ensures BasePath("https://example.com/app//", Success("/app//")) == Success("/app/")
  {
    assert HasSuffix("/app//", "/");
    assert "/app//"[..5] == "/app/";
    assert HasPrefix("/app/", "/");
  }

  /** Apart from the one trailing slash, the base path is the URL path with a leading slash. */
  lemma BasePathReadsURLPath(appBaseURL: string, path: string)
    requires appBaseURL != "" && path != "" && path != "/"
    ensures var r := BasePath(appBaseURL, Success(path)).value;
      (HasPrefix(path, "/") ==> r + (if HasSuffix(path, "/") then "/" else "") == path) &&
      (!HasPrefix(path, "/") ==> r + (if HasSuffix(path, "/") then "/" else "") == "/" + path)
  {
    var trimmed := TrimSuffix(path, "/");
    if HasSuffix(path, "/") {
      if HasPrefix(path, "/") {
        assert |path| >= 2;
        assert trimmed[..1] == path[..1];
      } else if |trimmed| > 0 {
        assert trimmed[0] == path[0];
      }
    } else {
      assert trimmed == path;
    }
  }

  const ContentSecurityPolicy: string := "Content-Security-Policy"

  /** The security headers common to both modes. */
  const BaseSecurityHeaders: map<string, string> := map[
    "X-Frame-Options" := "SAMEORIGIN",
    "X-Content-Type-Options" := "nosniff",
    "Referrer-Policy" := "strict-origin-when-cross-origin",
    "Permissions-Policy" := "geolocation=(), microphone=(), camera=(), payment=(), interest-cohort=()",
    "X-XSS-Protection" := "1; mode=block",
    "Strict-Transport-Security" := "max-age=31536000; includeSubDomains"
  ]

  const CspDev: string := "default-src 'self' ws:; script-src 'self' 'unsafe-inline'; style-src 'self' 'unsafe-inline'; img-src 'self' data:; font-src 'self' data:; object-src 'none'; frame-ancestors 'self';"
  const CspProd: string := "default-src 'self'; script-src 'self'; style-src 'self' 'unsafe-inline'; img-src 'self' data:; font-src 'self' data:; object-src 'none'; frame-ancestors 'self';"

  function SecurityHeaders(isProduction: bool): (r: map<string, string>)
    ensures r.Keys == BaseSecurityHeaders.Keys + {ContentSecurityPolicy}
    ensures r[ContentSecurityPolicy] == if isProduction then CspProd else CspDev
    ensures forall k :: k in BaseSecurityHeaders ==> r[k] == BaseSecurityHeaders[k]
  {
    assert ContentSecurityPolicy !in BaseSecurityHeaders;
    BaseSecurityHeaders[ContentSecurityPolicy := if isProduction then CspProd else CspDev]
  }

  /** The two modes send the same headers with the same values, except for the policy itself. */
  lemma HeadersDifferOnlyInPolicy()
    ensures SecurityHeaders(true).Keys == SecurityHeaders(false).Keys
    ensures forall k :: k in SecurityHeaders(true) && k != ContentSecurityPolicy ==>
      SecurityHeaders(true)[k] == SecurityHeaders(false)[k]
    ensures SecurityHeaders(true)[ContentSecurityPolicy] != SecurityHeaders(false)[ContentSecurityPolicy]
  {
    assert |CspDev| != |CspProd|;
  }

  datatype CsrfSettings = CsrfSettings(
    keyLookup: string, cookieName: string, expirationHours: nat, sameSite: string,
    secure: bool, httpOnly: bool)

  const SecureCookiePrefix: string := "__Host-"

  /** The CSRF middleware's settings: the cookie name starts `blitzkit.Config`, `main` then adjusts it for development. */
  function CsrfFor(isProduction: bool): (r: CsrfSettings)
    ensures r.secure <==> isProduction
    ensures r.cookieName == if isProduction then "__Host-embrygo_csrf_" else "embrygo_csrf_dev_"
    ensures HasPrefix(r.cookieName, SecureCookiePrefix) <==> r.secure
    ensures r.httpOnly
    ensures r.keyLookup == "header:X-CSRF-Token" && r.sameSite == "Lax" && r.expirationHours == 12
  {
    var s := CsrfSettings("header:X-CSRF-Token", "__Host-embrygo_csrf_", 12, "Lax", isProduction, true);
    assert "embrygo_csrf_dev_"[0] != SecureCookiePrefix[0];
    assert "__Host-embrygo_csrf_"[..|SecureCookiePrefix|] == SecureCookiePrefix;
    if !isProduction then s.(cookieName := "embrygo_csrf_dev_") else s
  }

  datatype AdminRoute =
    | Protected(users: map<string, string>, realm: string)
    | Unprotected

  /** The example admin route, behind basic auth when both credentials are set. */
  function AdminRouteFor(c: Config): (r: AdminRoute)
    ensures r.Protected? <==> c.adminUser != "" && c.adminPass != ""
    ensures r.Protected? ==> r.users.Keys == {c.adminUser} && r.users[c.adminUser] == c.adminPass
  {
    if c.adminUser != "" && c.adminPass != "" then
      Protected(map[c.adminUser := c.adminPass], "EmbryGo Admin Area (Example)")
    else Unprotected
  }

  /** The startup warning about missing credentials. */
  predicate WarnsAboutCredentials(c: Config) {
    c.adminUser == "" || c.adminPass == ""
  }

  /** The warning is logged exactly when the admin route ends up unprotected. */
  lemma WarningMatchesRoute(c: Config)
    ensures WarnsAboutCredentials(c) <==> AdminRouteFor(c).Unprotected?
  {
  }

  datatype Setup = Setup(
    log: LogSettings, config: Config, basePath: string, headers: map<string, string>,
    csrf: CsrfSettings, admin: AdminRoute)

  /**
   * `main` up to server construction: the settings it derives, or the fatal
   * error that ends it. `parse` is the URL parser: the path of a URL, or an error.
   */
  function Startup(env: Env, parse: string -> Result<string>): (r: Result<Setup>)
    ensures r.Failure? <==>
      LoadConfig(env).err.Some? || parse(LoadConfig(env).appConfig.appBaseURL).Failure?
    ensures r.Success? ==> r.value.config == LoadConfig(env).appConfig
    ensures r.Success? ==> HasPrefix(r.value.basePath, "/")
    ensures r.Success? ==> (r.value.csrf.secure <==> !r.value.config.devMode)
    ensures r.Success? ==> (r.value.log.addSource <==> r.value.config.devMode)
    ensures r.Success? ==> ContentSecurityPolicy in r.value.headers
    ensures r.Success? ==> r.value.headers[ContentSecurityPolicy] == if r.value.config.devMode then CspDev else CspProd
    ensures r.Success? ==> (r.value.admin.Protected? <==> !WarnsAboutCredentials(r.value.config))
  {
    var isProduction := IsProduction(env);
    var loaded := LoadConfig(env);
    if loaded.err.Some? then Failure(loaded.err.value)
    else
      var c := loaded.appConfig;
      var base := BasePath(c.appBaseURL, parse(c.appBaseURL));
      if base.Failure? then Failure(base.error)
      else
        Success(Setup(LogSettingsFor(isProduction), c, base.value, SecurityHeaders(isProduction),
                      CsrfFor(isProduction), AdminRouteFor(c)))
  }
}
