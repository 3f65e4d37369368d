/**
 * `internal/config`: the application configuration read from the process
 * environment. The environment is a map; a variable that is not set reads
 * as "", as `os.Getenv` does.
 */
module Configuration {
  import opened Wrappers
  import opened Text

  type Env = map<string, string>

  /** `os.Getenv`: the value, or "" for an unset variable. */
  function Getenv(env: Env, name: string): string {
    if name in env then env[name] else ""
  }

  datatype Config = Config(adminUser: string, adminPass: string, appBaseURL: string, devMode: bool)

  /**
   * What `LoadConfig` leaves behind: the package-level `AppConfig` after the
   * call, and the returned error (`None` for nil).
   */
  datatype Loaded = Loaded(appConfig: Config, err: Option<string>)

  const MissingBaseURL: string := "APP_BASE_URL (required for production)"
  const MissingPrefix: string := "Missing required environment variables: "

  /** `strings.Join(xs, ", ")`. */
  function JoinComma(xs: seq<string>): (r: string)
    ensures |xs| == 1 ==> r == xs[0]
    ensures xs == [] ==> r == ""
  {
    if xs == [] then ""
    else if |xs| == 1 then xs[0]
    else xs[0] + ", " + JoinComma(xs[1..])
  }

  /** The values `LoadConfig` assigns to `AppConfig` before any check. */
  function RawConfig(env: Env): (c: Config)
    ensures c.devMode <==> Getenv(env, "APP_ENV") == "development"
  {
    Config(Getenv(env, "ADMIN_USER"), Getenv(env, "ADMIN_PASS"), Getenv(env, "APP_BASE_URL"),
           Getenv(env, "APP_ENV") == "development")
  }

  /** The development fallback for an unset base URL. */
  function DefaultBaseURL(port: string): (r: string)
    ensures HasPrefix(r, "http://localhost:")
    ensures port != "" ==> r[|"http://localhost:"|..] == port
    ensures port == "" ==> r[|"http://localhost:"|..] == "8080"
  {
    if port == "" then "http://localhost:8080" else "http://localhost:" + port
  }

  /** `LoadConfig`: the configuration the environment yields, or the error that stops the program. */
  function LoadConfig(env: Env): (r: Loaded)
    ensures r.err.Some? <==> Getenv(env, "APP_BASE_URL") == "" && Getenv(env, "APP_ENV") != "development"
    ensures r.err.Some? ==> r.err.value == MissingPrefix + MissingBaseURL
    ensures r.err.Some? ==> r.appConfig.appBaseURL == "" && !r.appConfig.devMode
    ensures r.appConfig.devMode <==> Getenv(env, "APP_ENV") == "development"
    ensures r.appConfig.adminUser == Getenv(env, "ADMIN_USER")
    ensures r.appConfig.adminPass == Getenv(env, "ADMIN_PASS")
    ensures Getenv(env, "APP_BASE_URL") != "" ==> r.appConfig.appBaseURL == Getenv(env, "APP_BASE_URL")
    ensures r.err.None? ==> r.appConfig.appBaseURL != ""
    ensures r.err.None? && Getenv(env, "APP_BASE_URL") == "" ==>
      r.appConfig.appBaseURL == DefaultBaseURL(Getenv(env, "PORT"))
  {
    var c := RawConfig(env);
    var missing := if c.appBaseURL == "" && !c.devMode then [MissingBaseURL] else [];
    if |missing| > 0 then
      Loaded(c, Some(MissingPrefix + JoinComma(missing)))
    else if c.appBaseURL == "" && c.devMode then
      Loaded(c.(appBaseURL := DefaultBaseURL(Getenv(env, "PORT"))), None)
    else
      Loaded(c, None)
  }

  /** Only `APP_BASE_URL` decides whether the configuration loads; credentials and `PORT` do not. */
  lemma LoadsIndependentlyOfCredentials(env: Env, user: string, pass: string, port: string)
    ensures LoadConfig(env).err.None? <==>
      LoadConfig(env["ADMIN_USER" := user]["ADMIN_PASS" := pass]["PORT" := port]).err.None?
  {
    var env' := env["ADMIN_USER" := user]["ADMIN_PASS" := pass]["PORT" := port];
    assert Getenv(env', "APP_BASE_URL") == Getenv(env, "APP_BASE_URL");
    assert Getenv(env', "APP_ENV") == Getenv(env, "APP_ENV");
  }

  /** A run whose configuration loaded has a base URL, and reloading its own values changes nothing. */
  lemma LoadedConfigIsStable(env: Env)
    requires LoadConfig(env).err.None?
    ensures var c := LoadConfig(env).appConfig;
      LoadConfig(map["ADMIN_USER" := c.adminUser, "ADMIN_PASS" := c.adminPass, "APP_BASE_URL" := c.appBaseURL,
                     "APP_ENV" := Getenv(env, "APP_ENV")]) == Loaded(c, None)
  {
    var c := LoadConfig(env).appConfig;
    var env' := map["ADMIN_USER" := c.adminUser, "ADMIN_PASS" := c.adminPass, "APP_BASE_URL" := c.appBaseURL,
                    "APP_ENV" := Getenv(env, "APP_ENV")];
    assert Getenv(env', "APP_BASE_URL") == c.appBaseURL;
    assert Getenv(env', "APP_ENV") == Getenv(env, "APP_ENV");
    assert Getenv(env', "ADMIN_USER") == c.adminUser;
    assert Getenv(env', "ADMIN_PASS") == c.adminPass;
  }
}
