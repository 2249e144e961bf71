/** Configuration of the sentinel: the settings read from `SENTINEL_*`
    environment variables, the INWX password secret, and the choice of DNS
    provider with its credentials and record TTL. */
module Settings {
  import opened Wrappers
  import opened Environment

  const OrchestrationTypeDockerSwarm := "swarm"
  const OrchestrationTypeKubernetes := "kubernetes"
  const DnsProviderInwx := "inwx"
  const DnsProviderBunny := "bunny"

  /** Record TTLs, in seconds, of the two providers. */
  const InwxRecordTTL := 300
  const BunnyRecordTTL := 15

  /** The application configuration. `recordTTL` is set when the DNS
      provider is configured and `serverIP` once the orchestration adapter
      has reported the node's public IP; until then both hold Go's zero
      values. */
  datatype Config = Config(
    domain: string,
    record: string,
    recordTTL: int,
    serverIP: string,
    logLevel: string,
    orchestrationType: string,
    dnsProvider: string)

  /** A configured DNS provider client with its credentials. */
  datatype DnsClient =
    | InwxProvider(username: string, password: string)
    | BunnyProvider(accessKey: string)

  /** `getEnv`: the value of `SENTINEL_<key>` when that variable is set,
      even to the empty string, and `fallback` only when it is unset. */
  function GetEnv(env: Env, key: string, fallback: string): (value: string)
    ensures "SENTINEL_" + key in env ==> value == env["SENTINEL_" + key]
    ensures "SENTINEL_" + key !in env ==> value == fallback
  {
    var fullKey := "SENTINEL_" + key;
    if fullKey in env then env[fullKey] else fallback
  }

  /** `NewConfig`: the configuration read from the environment, with the
      defaults of the source for every unset variable. */
  function NewConfig(env: Env): (c: Config)
    ensures c.domain == GetEnv(env, "DOMAIN", "example.com")
    ensures c.record == GetEnv(env, "RECORD", "lb")
    ensures c.logLevel == GetEnv(env, "LOG_LEVEL", "INFO")
    ensures c.orchestrationType == GetEnv(env, "ORCHESTRATION_TYPE", OrchestrationTypeDockerSwarm)
    ensures c.dnsProvider == GetEnv(env, "DNS_PROVIDER", DnsProviderInwx)
    ensures c.recordTTL == 0 && c.serverIP == ""
  {
    Config(
      domain := GetEnv(env, "DOMAIN", "example.com"),
      record := GetEnv(env, "RECORD", "lb"),
      recordTTL := 0,
      serverIP := "",
      logLevel := GetEnv(env, "LOG_LEVEL", "INFO"),
      orchestrationType := GetEnv(env, "ORCHESTRATION_TYPE", OrchestrationTypeDockerSwarm),
      dnsProvider := GetEnv(env, "DNS_PROVIDER", DnsProviderInwx))
  }

  /** Go's `unicode.IsSpace`: the Latin-1 white space characters and the
      other characters of Unicode's White_Space property. */
  predicate IsSpace(c: char) {
    c == ' ' || c == '\t' || c == '\n' || c == '\r' || c == '\U{B}' || c == '\U{C}'
    || c == '\U{85}' || c == '\U{A0}' || c == '\U{1680}'
    || ('\U{2000}' <= c <= '\U{200A}')
    || c == '\U{2028}' || c == '\U{2029}' || c == '\U{202F}' || c == '\U{205F}' || c == '\U{3000}'
  }

  predicate AllSpace(s: string) {
    forall i :: 0 <= i < |s| ==> IsSpace(s[i])
  }

  /** `s` without its leading white space. */
  function TrimLeft(s: string): (r: string)
    ensures |r| <= |s| && r == s[|s| - |r|..]
    ensures AllSpace(s[..|s| - |r|])
    ensures r == [] || !IsSpace(r[0])
  {
    if s != [] && IsSpace(s[0]) then TrimLeft(s[1..]) else s
  }

  /** `s` without its trailing white space. */
  function TrimRight(s: string): (r: string)
    ensures |r| <= |s| && r == s[..|r|]
    ensures AllSpace(s[|r|..])
    ensures r == [] || !IsSpace(r[|r| - 1])
  {
    if s != [] && IsSpace(s[|s| - 1]) then TrimRight(s[..|s| - 1]) else s
  }

  /** `strings.TrimSpace`. */
  function TrimSpace(s: string): string {
    TrimRight(TrimLeft(s))
  }

  /** TrimSpace cuts `s` into white space, the result, and white space, and
      the result neither starts nor ends with white space. */
  lemma TrimSpaceSplits(s: string)
    ensures var r := TrimSpace(s);
      && (r == [] || (!IsSpace(r[0]) && !IsSpace(r[|r| - 1])))
      && exists pre: nat :: pre + |r| <= |s| && r == s[pre..pre + |r|]
          && AllSpace(s[..pre]) && AllSpace(s[pre + |r|..])
  {
  }

  /** Trimming twice is trimming once. */
  lemma TrimSpaceIdempotent(s: string)
    ensures TrimSpace(TrimSpace(s)) == TrimSpace(s)
  {
  }

  /** `readSecret`: the white-space-trimmed content of a secret file, or an
      error when the file cannot be read (`None`). */
  function ReadSecret(file: Option<string>): (r: Result<string>)
    ensures r.Success? <==> file.Some?
    ensures r.Success? ==> r.value == TrimSpace(file.value)
  {
    match file
    case Some(content) => Success(TrimSpace(content))
    case None => Failure("could not read secret file")
  }

  /** The credentials part of `configureInwx`: the user from `INWX_USER`,
      the password from the secret file when it can be read, otherwise from
      `INWX_PASSWORD`. */
  function InwxCredentials(env: Env, secret: Option<string>): (r: Result<DnsClient>)
    ensures r.Success? <==>
      GetEnv(env, "INWX_USER", "") != "" && (secret.Some? || GetEnv(env, "INWX_PASSWORD", "") != "")
    ensures r.Success? ==> r.value.InwxProvider? && r.value.username == GetEnv(env, "INWX_USER", "")
    ensures r.Success? && secret.Some? ==> r.value.password == TrimSpace(secret.value)
    ensures r.Success? && secret.None? ==> r.value.password == GetEnv(env, "INWX_PASSWORD", "")
  {
    var user := GetEnv(env, "INWX_USER", "");
    if user == "" then Failure("INWX_USER not set")
    else match ReadSecret(secret)
      case Success(password) => Success(InwxProvider(user, password))
      case Failure(err) =>
        var password := GetEnv(env, "INWX_PASSWORD", "");
        if password == "" then Failure("INWX_PASSWORD not set and could not read from secret: " + err)
        else Success(InwxProvider(user, password))
  }

  /** The credentials part of `configureBunny`: the API key from
      `BUNNY_API_KEY`, which must not be empty. */
  function BunnyCredentials(env: Env): (r: Result<DnsClient>)
    ensures r.Success? <==> GetEnv(env, "BUNNY_API_KEY", "") != ""
    ensures r.Success? ==> r.value == BunnyProvider(GetEnv(env, "BUNNY_API_KEY", ""))
  {
    var key := GetEnv(env, "BUNNY_API_KEY", "");
    if key == "" then Failure("BUNNY_API_KEY not set") else Success(BunnyProvider(key))
  }

  /** The record TTL a provider sets, or None for an unsupported provider. */
  function ProviderTTL(provider: string): (ttl: Option<int>)
    ensures provider == DnsProviderInwx ==> ttl == Some(InwxRecordTTL)
    ensures provider == DnsProviderBunny ==> ttl == Some(BunnyRecordTTL)
    ensures ttl.None? <==> provider != DnsProviderInwx && provider != DnsProviderBunny
  {
    if provider == DnsProviderInwx then Some(InwxRecordTTL)
    else if provider == DnsProviderBunny then Some(BunnyRecordTTL)
    else None
  }

  /** The provider switch of `NewSentinel`: the configured client, or the
      error that makes startup fatal. */
  function ConfigureProvider(provider: string, env: Env, secret: Option<string>): (r: Result<DnsClient>)
    ensures provider != DnsProviderInwx && provider != DnsProviderBunny ==> r.Failure?
    ensures provider == DnsProviderInwx ==> r == InwxCredentials(env, secret)
    ensures provider == DnsProviderBunny ==> r == BunnyCredentials(env)
    ensures r.Success? ==> (r.value.InwxProvider? <==> provider == DnsProviderInwx)
  {
    if provider == DnsProviderInwx then InwxCredentials(env, secret)
    else if provider == DnsProviderBunny then BunnyCredentials(env)
    else Failure("Unsupported DNS provider: " + provider)
  }

  /** A readable secret file wins over `INWX_PASSWORD`, even when its trimmed
      content is empty: the source only falls back on a read error. */
  lemma SecretWinsEvenWhenBlank(env: Env, content: string)
    requires GetEnv(env, "INWX_USER", "") != ""
    requires AllSpace(content)
    ensures InwxCredentials(env, Some(content)) == Success(InwxProvider(GetEnv(env, "INWX_USER", ""), ""))
  {
  }
}
