/** Authentication tokens taken from the environment, and the configuration
    wrapper that lets them override stored credentials:
    internal/config/from_env.go. */
module EnvConfig {
  import opened Wrappers

  const GhToken := "GH_TOKEN"
  const GithubToken := "GITHUB_TOKEN"
  const GhEnterpriseToken := "GH_ENTERPRISE_TOKEN"
  const GithubEnterpriseToken := "GITHUB_ENTERPRISE_TOKEN"
  const OAuthTokenKey := "oauth_token"

  /** The process environment. */
  type Environment = map<string, string>

  /** `os.Getenv`: an unset variable reads as the empty string. */
  function Getenv(env: Environment, name: string): string
  {
    if name in env then env[name] else ""
  }

  /** What the model needs of package `ghinstance`, left uninterpreted: which
      hosts are GitHub Enterprise (`IsEnterprise`) and the default host (`Default`). */
  datatype Instance = Instance(isEnterprise: string -> bool, defaultHost: string)

  /** A token and the name of the variable it was read from. */
  datatype EnvToken = EnvToken(token: string, variable: string)

  /** The variables consulted for a host: the preferred one first. */
  function TokenVariables(enterprise: bool): (string, string)
  {
    if enterprise then (GhEnterpriseToken, GithubEnterpriseToken) else (GhToken, GithubToken)
  }

  /** `AuthTokenFromEnv`: the `GH_*` variable of the host's class wins when
      it is set; otherwise the `GITHUB_*` one is returned, even when empty. */
  function AuthTokenFromEnv(env: Environment, inst: Instance, hostname: string): (r: EnvToken)
    ensures var (preferred, fallback) := TokenVariables(inst.isEnterprise(hostname));
            && (r.variable == preferred || r.variable == fallback)
            && r.token == Getenv(env, r.variable)
            && (r.variable == preferred <==> Getenv(env, preferred) != "")
            && (r.token == "" <==> Getenv(env, preferred) == "" && Getenv(env, fallback) == "")
  {
    if inst.isEnterprise(hostname) then
      if Getenv(env, GhEnterpriseToken) != "" then EnvToken(Getenv(env, GhEnterpriseToken), GhEnterpriseToken)
      else EnvToken(Getenv(env, GithubEnterpriseToken), GithubEnterpriseToken)
    else
      if Getenv(env, GhToken) != "" then EnvToken(Getenv(env, GhToken), GhToken)
      else EnvToken(Getenv(env, GithubToken), GithubToken)
  }

  /** Only the two variables of the host's class are read: changing any other
      variable (for a github.com host, the enterprise ones) changes nothing. */
  lemma AuthTokenReadsOwnClassOnly(env1: Environment, env2: Environment, inst: Instance, hostname: string)
    requires var (preferred, fallback) := TokenVariables(inst.isEnterprise(hostname));
             Getenv(env1, preferred) == Getenv(env2, preferred) && Getenv(env1, fallback) == Getenv(env2, fallback)
    ensures AuthTokenFromEnv(env1, inst, hostname) == AuthTokenFromEnv(env2, inst, hostname)
  {
  }

  const AllTokenVariables: set<string> := {GhEnterpriseToken, GithubEnterpriseToken, GhToken, GithubToken}

  /** `AuthTokenProvidedFromEnv`: some token variable, of either class, is set. */
  function AuthTokenProvidedFromEnv(env: Environment): (provided: bool)
    ensures provided <==> exists v :: v in AllTokenVariables && Getenv(env, v) != ""
  {
    Getenv(env, GhEnterpriseToken) != ""
    || Getenv(env, GithubEnterpriseToken) != ""
    || Getenv(env, GhToken) != ""
    || Getenv(env, GithubToken) != ""
  }

  /** Whenever some host gets a token from the environment, a token is
      reported as provided; when none is provided, no host gets one. */
  lemma ProvidedCoversEveryHost(env: Environment, inst: Instance, hostname: string)
    ensures AuthTokenFromEnv(env, inst, hostname).token != "" ==> AuthTokenProvidedFromEnv(env)
    ensures !AuthTokenProvidedFromEnv(env) ==> AuthTokenFromEnv(env, inst, hostname).token == ""
  {
    var r := AuthTokenFromEnv(env, inst, hostname);
    if r.token != "" {
      assert r.variable in AllTokenVariables;
    }
  }

  // ---------------------------------------------------------------------------
  // The wrapped configuration
  // ---------------------------------------------------------------------------

  /** Errors: the one this file creates, and any error of the wrapped configuration. */
  datatype ConfigError =
    | EnvTokenNotWriteable(variable: string)
    | DelegateError(text: string)

  function ErrorText(e: ConfigError): string
  {
    match e
    case EnvTokenNotWriteable(v) =>
      "The '" + v + "' environment variable is not empty, please clear it to save authentication data"
    case DelegateError(text) => text
  }

  /** The answer of `GetWithSource`: value, source and error. */
  datatype Lookup = Lookup(value: string, source: string, err: Option<ConfigError>)

  /** The wrapped `Config`, as an opaque delegate: what its `Hosts` returns and
      how it answers `GetWithSource` and `CheckWriteable`. */
  datatype Config = Config(
    hosts: seq<string>,
    hostsErr: Option<ConfigError>,
    getWithSource: (string, string) -> Lookup,
    checkWriteable: (string, string) -> Option<ConfigError>)

  /** `envConfig`, created by `InheritEnv`. */
  datatype EnvConfig = EnvConfig(inner: Config)

  function InheritEnv(c: Config): EnvConfig
  {
    EnvConfig(c)
  }

  /** The environment overrides the stored token for this lookup. */
  predicate EnvShadows(env: Environment, inst: Instance, hostname: string, key: string)
  {
    hostname != "" && key == OAuthTokenKey && AuthTokenFromEnv(env, inst, hostname).token != ""
  }

  /** `envConfig.Hosts`: the default host is put first when the environment
      has a token for it and the wrapped list lacks it or could not be read. */
  method Hosts(c: EnvConfig, env: Environment, inst: Instance) returns (hosts: seq<string>, err: Option<ConfigError>)
    ensures var d := inst.defaultHost;
            var token := AuthTokenFromEnv(env, inst, d).token;
            if (c.inner.hostsErr.Some? || d !in c.inner.hosts) && token != "" then
              hosts == [d] + c.inner.hosts && err.None?
            else
              hosts == c.inner.hosts && err == c.inner.hostsErr
    // with a readable list, the default is added only where it is missing
    ensures var d := inst.defaultHost;
            var token := AuthTokenFromEnv(env, inst, d).token;
            c.inner.hostsErr.None? ==>
              && err.None?
              && (d in hosts <==> d in c.inner.hosts || token != "")
              && multiset(hosts)[d] == multiset(c.inner.hosts)[d] + (if d !in c.inner.hosts && token != "" then 1 else 0)
  {
    var hasDefault := false;
    hosts, err := c.inner.hosts, c.inner.hostsErr;
    var i := 0;
    while i < |hosts|
      invariant 0 <= i <= |hosts|
      invariant hasDefault <==> inst.defaultHost in hosts[..i]
    {
      if hosts[i] == inst.defaultHost {
        hasDefault := true;
      }
      assert hosts[..i + 1] == hosts[..i] + [hosts[i]];
      i := i + 1;
    }
    assert hosts[..i] == hosts;
    var token := AuthTokenFromEnv(env, inst, inst.defaultHost).token;
    if (err.Some? || !hasDefault) && token != "" {
      hosts := [inst.defaultHost] + hosts;
      return hosts, None;
    }
  }

  /** `envConfig.GetWithSource`: an environment token shadows the stored
      `oauth_token` of a named host; every other lookup is delegated. */
  function GetWithSource(c: EnvConfig, env: Environment, inst: Instance, hostname: string, key: string): (r: Lookup)
    ensures EnvShadows(env, inst, hostname, key) ==>
              && r.err.None? && r.value != ""
              && r.value == Getenv(env, r.source)
              && r.source in AllTokenVariables
              && r.source == AuthTokenFromEnv(env, inst, hostname).variable
    ensures !EnvShadows(env, inst, hostname, key) ==> r == c.inner.getWithSource(hostname, key)
  {
    if hostname != "" && key == OAuthTokenKey && AuthTokenFromEnv(env, inst, hostname).token != "" then
      var t := AuthTokenFromEnv(env, inst, hostname);
      Lookup(t.token, t.variable, None)
    else
      c.inner.getWithSource(hostname, key)
  }

  /** `envConfig.Get`: `GetWithSource` without the source. */
  function Get(c: EnvConfig, env: Environment, inst: Instance, hostname: string, key: string): (r: (string, Option<ConfigError>))
    ensures EnvShadows(env, inst, hostname, key) ==>
              r == (AuthTokenFromEnv(env, inst, hostname).token, None)
    ensures !EnvShadows(env, inst, hostname, key) ==>
              r == (c.inner.getWithSource(hostname, key).value, c.inner.getWithSource(hostname, key).err)
  {
    var l := GetWithSource(c, env, inst, hostname, key);
    (l.value, l.err)
  }

  /** `envConfig.CheckWriteable`: saving `oauth_token` for a named host is
      refused, naming the variable, while the environment supplies one. */
  function CheckWriteable(c: EnvConfig, env: Environment, inst: Instance, hostname: string, key: string): (err: Option<ConfigError>)
    ensures EnvShadows(env, inst, hostname, key) ==>
              err.Some? && err.value.EnvTokenNotWriteable?
              && Getenv(env, err.value.variable) != ""
              && err.value.variable == AuthTokenFromEnv(env, inst, hostname).variable
    ensures !EnvShadows(env, inst, hostname, key) ==> err == c.inner.checkWriteable(hostname, key)
  {
    if hostname != "" && key == OAuthTokenKey && AuthTokenFromEnv(env, inst, hostname).token != "" then
      Some(EnvTokenNotWriteable(AuthTokenFromEnv(env, inst, hostname).variable))
    else
      c.inner.checkWriteable(hostname, key)
  }

  /** A write is refused on account of the environment exactly when a read is
      answered from it, and the refusal names the variable the read came from. */
  lemma WriteRefusedWhereReadShadowed(c: EnvConfig, env: Environment, inst: Instance, hostname: string, key: string)
    ensures EnvShadows(env, inst, hostname, key) ==>
              CheckWriteable(c, env, inst, hostname, key)
                == Some(EnvTokenNotWriteable(GetWithSource(c, env, inst, hostname, key).source))
    ensures !EnvShadows(env, inst, hostname, key) ==>
              && CheckWriteable(c, env, inst, hostname, key) == c.inner.checkWriteable(hostname, key)
              && GetWithSource(c, env, inst, hostname, key) == c.inner.getWithSource(hostname, key)
  {
  }

  /** Lookups of other keys, or with no host name, do not depend on the environment. */
  lemma OtherKeysIgnoreEnvironment(c: EnvConfig, env1: Environment, env2: Environment, inst: Instance,
                                   hostname: string, key: string)
    requires hostname == "" || key != OAuthTokenKey
    ensures GetWithSource(c, env1, inst, hostname, key) == GetWithSource(c, env2, inst, hostname, key)
    ensures CheckWriteable(c, env1, inst, hostname, key) == CheckWriteable(c, env2, inst, hostname, key)
  {
  }
}
