/**
 * Layered application configuration: built-in defaults, overlaid field by field by a
 * partial configuration read from the TOML file, then by one read from the environment.
 * Reading the file and the process environment is outside the model: the file's parse
 * result and the environment's variables are inputs.
 */
module Config {
  import opened Wrappers
  import opened Numbers
  import Text

  datatype AppConfig = AppConfig(
    dnsUdpPort: u16,
    dnsDotPort: u16,
    dnsDohPort: u16,
    dnsDoqPort: u16,
    webPort: u16,
    tlsCertPath: Option<string>,
    tlsKeyPath: Option<string>,
    databaseUrl: string,
    adminUsername: string,
    adminPassword: string,
    logPath: string,
    logLevel: string,
    logMaxSize: u64,
    logRetentionDays: u32,
    cacheTtl: u64,
    cacheMaxEntries: u64,
    upstreamServers: seq<string>)

  /** Every field optional: what one configuration source says, and nothing more. */
  datatype PartialConfig = PartialConfig(
    dnsUdpPort: Option<u16>,
    dnsDotPort: Option<u16>,
    dnsDohPort: Option<u16>,
    dnsDoqPort: Option<u16>,
    webPort: Option<u16>,
    tlsCertPath: Option<string>,
    tlsKeyPath: Option<string>,
    databaseUrl: Option<string>,
    adminUsername: Option<string>,
    adminPassword: Option<string>,
    logPath: Option<string>,
    logLevel: Option<string>,
    logMaxSize: Option<u64>,
    logRetentionDays: Option<u32>,
    cacheTtl: Option<u64>,
    cacheMaxEntries: Option<u64>,
    upstreamServers: Option<seq<string>>)

  /** `PartialConfig::default()`: a source that sets nothing. */
  const EmptyPartial: PartialConfig :=
    PartialConfig(None, None, None, None, None, None, None, None, None, None,
                  None, None, None, None, None, None, None)

  /** `AppConfig::default()`. */
  function DefaultConfig(): AppConfig {
    AppConfig(
      dnsUdpPort := 53,
      dnsDotPort := 853,
      dnsDohPort := 443,
      dnsDoqPort := 8853,
      webPort := 8080,
      tlsCertPath := None,
      tlsKeyPath := None,
      databaseUrl := "sqlite:dns_proxy.db?mode=rwc",
      adminUsername := "admin",
      adminPassword := "admin",
      logPath := "logs",
      logLevel := "info",
      logMaxSize := 10 * 1024 * 1024,
      logRetentionDays := 30,
      cacheTtl := 60,
      cacheMaxEntries := 10000,
      upstreamServers := ["8.8.8.8:53", "8.8.4.4:53"])
  }

  /** The configuration's fields, so that laws about all of them can be stated once. */
  datatype Field =
    | DnsUdpPort | DnsDotPort | DnsDohPort | DnsDoqPort | WebPort
    | TlsCertPath | TlsKeyPath | DatabaseUrl | AdminUsername | AdminPassword
    | LogPath | LogLevel | LogMaxSize | LogRetentionDays | CacheTtl | CacheMaxEntries
    | UpstreamServers

  /** The value of one field, whatever its type. */
  datatype Value = Number(n: int) | Str(s: string) | MaybeStr(o: Option<string>) | Strs(l: seq<string>)

  /** Field `f` of a full configuration. */
  function Get(c: AppConfig, f: Field): Value {
    match f
    case DnsUdpPort => Number(c.dnsUdpPort)
    case DnsDotPort => Number(c.dnsDotPort)
    case DnsDohPort => Number(c.dnsDohPort)
    case DnsDoqPort => Number(c.dnsDoqPort)
    case WebPort => Number(c.webPort)
    case TlsCertPath => MaybeStr(c.tlsCertPath)
    case TlsKeyPath => MaybeStr(c.tlsKeyPath)
    case DatabaseUrl => Str(c.databaseUrl)
    case AdminUsername => Str(c.adminUsername)
    case AdminPassword => Str(c.adminPassword)
    case LogPath => Str(c.logPath)
    case LogLevel => Str(c.logLevel)
    case LogMaxSize => Number(c.logMaxSize)
    case LogRetentionDays => Number(c.logRetentionDays)
    case CacheTtl => Number(c.cacheTtl)
    case CacheMaxEntries => Number(c.cacheMaxEntries)
    case UpstreamServers => Strs(c.upstreamServers)
  }

  /**
   * The value a partial configuration puts into field `f` when merged, or None when it
   * leaves `f` alone. A TLS path `v` becomes `Some(v)` in the full configuration.
   */
  function Offered(p: PartialConfig, f: Field): Option<Value> {
    match f
    case DnsUdpPort => if p.dnsUdpPort.Some? then Some(Number(p.dnsUdpPort.value)) else None
    case DnsDotPort => if p.dnsDotPort.Some? then Some(Number(p.dnsDotPort.value)) else None
    case DnsDohPort => if p.dnsDohPort.Some? then Some(Number(p.dnsDohPort.value)) else None
    case DnsDoqPort => if p.dnsDoqPort.Some? then Some(Number(p.dnsDoqPort.value)) else None
    case WebPort => if p.webPort.Some? then Some(Number(p.webPort.value)) else None
    case TlsCertPath => if p.tlsCertPath.Some? then Some(MaybeStr(Some(p.tlsCertPath.value))) else None
    case TlsKeyPath => if p.tlsKeyPath.Some? then Some(MaybeStr(Some(p.tlsKeyPath.value))) else None
    case DatabaseUrl => if p.databaseUrl.Some? then Some(Str(p.databaseUrl.value)) else None
    case AdminUsername => if p.adminUsername.Some? then Some(Str(p.adminUsername.value)) else None
    case AdminPassword => if p.adminPassword.Some? then Some(Str(p.adminPassword.value)) else None
    case LogPath => if p.logPath.Some? then Some(Str(p.logPath.value)) else None
    case LogLevel => if p.logLevel.Some? then Some(Str(p.logLevel.value)) else None
    case LogMaxSize => if p.logMaxSize.Some? then Some(Number(p.logMaxSize.value)) else None
    case LogRetentionDays => if p.logRetentionDays.Some? then Some(Number(p.logRetentionDays.value)) else None
    case CacheTtl => if p.cacheTtl.Some? then Some(Number(p.cacheTtl.value)) else None
    case CacheMaxEntries => if p.cacheMaxEntries.Some? then Some(Number(p.cacheMaxEntries.value)) else None
    case UpstreamServers => if p.upstreamServers.Some? then Some(Strs(p.upstreamServers.value)) else None
  }

  /** Field `f` after laying `p` over `c`: the offered value if there is one, else the old one. */
  function Overridden(c: AppConfig, p: PartialConfig, f: Field): Value {
    if Offered(p, f).Some? then Offered(p, f).value else Get(c, f)
  }

  /** Two configurations that agree on every field are the same configuration. */
  lemma FieldsDetermine(a: AppConfig, b: AppConfig)
    requires forall f: Field :: Get(a, f) == Get(b, f)
    ensures a == b
  {
    assert Get(a, DnsUdpPort) == Get(b, DnsUdpPort);
    assert Get(a, DnsDotPort) == Get(b, DnsDotPort);
    assert Get(a, DnsDohPort) == Get(b, DnsDohPort);
    assert Get(a, DnsDoqPort) == Get(b, DnsDoqPort);
    assert Get(a, WebPort) == Get(b, WebPort);
    assert Get(a, TlsCertPath) == Get(b, TlsCertPath);
    assert Get(a, TlsKeyPath) == Get(b, TlsKeyPath);
    assert Get(a, DatabaseUrl) == Get(b, DatabaseUrl);
    assert Get(a, AdminUsername) == Get(b, AdminUsername);
    assert Get(a, AdminPassword) == Get(b, AdminPassword);
    assert Get(a, LogPath) == Get(b, LogPath);
    assert Get(a, LogLevel) == Get(b, LogLevel);
    assert Get(a, LogMaxSize) == Get(b, LogMaxSize);
    assert Get(a, LogRetentionDays) == Get(b, LogRetentionDays);
    assert Get(a, CacheTtl) == Get(b, CacheTtl);
    assert Get(a, CacheMaxEntries) == Get(b, CacheMaxEntries);
    assert Get(a, UpstreamServers) == Get(b, UpstreamServers);
  }

  /**
   * `ConfigManager::merge_config`: each field whose partial value is `Some(v)` is set
   * to `v`, one field after another; every other field keeps its value.
   */
  method MergeConfig(config: AppConfig, partial: PartialConfig) returns (merged: AppConfig)
    ensures merged == Overlay(config, partial)
    ensures forall f: Field :: Get(merged, f) == Overridden(config, partial, f)
  {
    merged := config;
    merged := merged.(dnsUdpPort := partial.dnsUdpPort.GetOr(merged.dnsUdpPort));
    merged := merged.(dnsDotPort := partial.dnsDotPort.GetOr(merged.dnsDotPort));
    merged := merged.(dnsDohPort := partial.dnsDohPort.GetOr(merged.dnsDohPort));
    merged := merged.(dnsDoqPort := partial.dnsDoqPort.GetOr(merged.dnsDoqPort));
    merged := merged.(webPort := partial.webPort.GetOr(merged.webPort));
    merged := merged.(tlsCertPath := if partial.tlsCertPath.Some? then partial.tlsCertPath else merged.tlsCertPath);
    merged := merged.(tlsKeyPath := if partial.tlsKeyPath.Some? then partial.tlsKeyPath else merged.tlsKeyPath);
    merged := merged.(databaseUrl := partial.databaseUrl.GetOr(merged.databaseUrl));
    merged := merged.(adminUsername := partial.adminUsername.GetOr(merged.adminUsername));
    merged := merged.(adminPassword := partial.adminPassword.GetOr(merged.adminPassword));
    merged := merged.(logPath := partial.logPath.GetOr(merged.logPath));
    merged := merged.(logLevel := partial.logLevel.GetOr(merged.logLevel));
    merged := merged.(logMaxSize := partial.logMaxSize.GetOr(merged.logMaxSize));
    merged := merged.(logRetentionDays := partial.logRetentionDays.GetOr(merged.logRetentionDays));
    merged := merged.(cacheTtl := partial.cacheTtl.GetOr(merged.cacheTtl));
    merged := merged.(cacheMaxEntries := partial.cacheMaxEntries.GetOr(merged.cacheMaxEntries));
    merged := merged.(upstreamServers := partial.upstreamServers.GetOr(merged.upstreamServers));
    forall f: Field ensures Get(merged, f) == Overridden(config, partial, f) {
      OverlayChangesOnlyOffered(config, partial, f);
    }
  }

  /** The whole configuration after laying `p` over `c`, as a value. */
  function Overlay(c: AppConfig, p: PartialConfig): AppConfig {
    AppConfig(
      p.dnsUdpPort.GetOr(c.dnsUdpPort),
      p.dnsDotPort.GetOr(c.dnsDotPort),
      p.dnsDohPort.GetOr(c.dnsDohPort),
      p.dnsDoqPort.GetOr(c.dnsDoqPort),
      p.webPort.GetOr(c.webPort),
      if p.tlsCertPath.Some? then p.tlsCertPath else c.tlsCertPath,
      if p.tlsKeyPath.Some? then p.tlsKeyPath else c.tlsKeyPath,
      p.databaseUrl.GetOr(c.databaseUrl),
      p.adminUsername.GetOr(c.adminUsername),
      p.adminPassword.GetOr(c.adminPassword),
      p.logPath.GetOr(c.logPath),
      p.logLevel.GetOr(c.logLevel),
      p.logMaxSize.GetOr(c.logMaxSize),
      p.logRetentionDays.GetOr(c.logRetentionDays),
      p.cacheTtl.GetOr(c.cacheTtl),
      p.cacheMaxEntries.GetOr(c.cacheMaxEntries),
      p.upstreamServers.GetOr(c.upstreamServers))
  }

  /** A field changes only if the partial configuration offers a value for it. */
  lemma OverlayChangesOnlyOffered(c: AppConfig, p: PartialConfig, f: Field)
    ensures Offered(p, f).None? ==> Get(Overlay(c, p), f) == Get(c, f)
    ensures Offered(p, f).Some? ==> Get(Overlay(c, p), f) == Offered(p, f).value
  {
  }

  /** Merging a partial configuration that sets nothing changes nothing. */
  lemma OverlayEmptyIsIdentity(c: AppConfig)
    ensures Overlay(c, EmptyPartial) == c
  {
    FieldsDetermine(Overlay(c, EmptyPartial), c);
  }

  /** Merging the same partial configuration twice is the same as merging it once. */
  lemma OverlayIdempotent(c: AppConfig, p: PartialConfig)
    ensures Overlay(Overlay(c, p), p) == Overlay(c, p)
  {
    FieldsDetermine(Overlay(Overlay(c, p), p), Overlay(c, p));
  }

  /** `ConfigManager::from_configs`: defaults, then the file's partial, then the environment's. */
  function Layered(file: Option<PartialConfig>, env: Option<PartialConfig>): AppConfig {
    var afterFile := if file.Some? then Overlay(DefaultConfig(), file.value) else DefaultConfig();
    if env.Some? then Overlay(afterFile, env.value) else afterFile
  }

  /** What an optional source offers for a field; an absent source offers nothing. */
  function SourceOffers(source: Option<PartialConfig>, f: Field): Option<Value> {
    if source.Some? then Offered(source.value, f) else None
  }

  /**
   * Priority of the layers: a field set in the environment takes the environment's value,
   * else a field set in the file takes the file's value, else it keeps its default.
   */
  lemma LayeredPriority(file: Option<PartialConfig>, env: Option<PartialConfig>, f: Field)
    ensures SourceOffers(env, f).Some? ==> Get(Layered(file, env), f) == SourceOffers(env, f).value
    ensures SourceOffers(env, f).None? && SourceOffers(file, f).Some? ==>
              Get(Layered(file, env), f) == SourceOffers(file, f).value
    ensures SourceOffers(env, f).None? && SourceOffers(file, f).None? ==>
              Get(Layered(file, env), f) == Get(DefaultConfig(), f)
  {
    var afterFile := if file.Some? then Overlay(DefaultConfig(), file.value) else DefaultConfig();
    if file.Some? {
      OverlayChangesOnlyOffered(DefaultConfig(), file.value, f);
    }
    if env.Some? {
      OverlayChangesOnlyOffered(afterFile, env.value, f);
    }
  }

  /** With neither a file nor an environment value anywhere, the defaults stand. */
  lemma LayeredNothingIsDefault()
    ensures Layered(None, None) == DefaultConfig()
    ensures Layered(Some(EmptyPartial), Some(EmptyPartial)) == DefaultConfig()
  {
    OverlayEmptyIsIdentity(DefaultConfig());
  }

  /** The built-in defaults. */
  lemma DefaultConfigValues()
    ensures var d := DefaultConfig();
      && d.dnsUdpPort == 53 && d.dnsDotPort == 853 && d.dnsDohPort == 443
      && d.dnsDoqPort == 8853 && d.webPort == 8080
      && d.tlsCertPath.None? && d.tlsKeyPath.None?
      && d.cacheTtl == 60 && d.cacheMaxEntries == 10000
      && d.logMaxSize == 10_485_760 && d.logRetentionDays == 30
      && d.logLevel == "info" && d.adminUsername == "admin" && d.adminPassword == "admin"
      && d.logPath == "logs" && d.databaseUrl == "sqlite:dns_proxy.db?mode=rwc"
      && d.upstreamServers == ["8.8.8.8:53", "8.8.4.4:53"]
  {
  }

  /** Names of the environment variables `load_from_env` reads. */
  const ENV_DNS_UDP_PORT := "DNS_UDP_PORT"
  const ENV_DNS_DOT_PORT := "DNS_DOT_PORT"
  const ENV_DNS_DOH_PORT := "DNS_DOH_PORT"
  const ENV_DNS_DOQ_PORT := "DNS_DOQ_PORT"
  const ENV_WEB_PORT := "WEB_PORT"
  const ENV_TLS_CERT_PATH := "TLS_CERT_PATH"
  const ENV_TLS_KEY_PATH := "TLS_KEY_PATH"
  const ENV_DATABASE_URL := "DATABASE_URL"
  const ENV_ADMIN_USERNAME := "ADMIN_USERNAME"
  const ENV_ADMIN_PASSWORD := "ADMIN_PASSWORD"
  const ENV_LOG_PATH := "LOG_PATH"
  const ENV_LOG_LEVEL := "LOG_LEVEL"
  const ENV_LOG_MAX_SIZE := "LOG_MAX_SIZE"
  const ENV_LOG_RETENTION_DAYS := "LOG_RETENTION_DAYS"
  const ENV_CACHE_TTL := "CACHE_TTL"
  const ENV_CACHE_MAX_ENTRIES := "CACHE_MAX_ENTRIES"
  const ENV_UPSTREAM_SERVERS := "UPSTREAM_SERVERS"

  /** `std::env::var(name).ok()`. */
  function Var(env: map<string, string>, name: string): Option<string> {
    if name in env then Some(env[name]) else None
  }

  /** `.and_then(|v| v.parse().ok())` for an unsigned type whose largest value is `max`. */
  function VarNumber(env: map<string, string>, name: string, max: nat): (r: Option<nat>)
    ensures r.Some? <==> name in env && ParseUnsigned(env[name], max).Some?
    ensures r.Some? ==> r.value <= max
  {
    if name in env then ParseUnsigned(env[name], max) else None
  }

  /** `v.split(',').map(|s| s.trim().to_string()).collect()`. */
  function UpstreamList(v: string): (servers: seq<string>)
    ensures |servers| == |Text.Split(v, ',')|
    ensures forall k :: 0 <= k < |servers| ==> servers[k] == Text.Trim(Text.Split(v, ',')[k])
  {
    var pieces := Text.Split(v, ',');
    seq(|pieces|, k requires 0 <= k < |pieces| => Text.Trim(pieces[k]))
  }

  /**
   * The upstream list has one entry more than the value has commas; no entry holds a
   * comma or starts or ends with whitespace; the untrimmed pieces join back to the value.
   */
  lemma UpstreamListShape(v: string)
    ensures |UpstreamList(v)| == Text.Count(v, ',') + 1
    ensures forall k :: 0 <= k < |UpstreamList(v)| ==> ',' !in UpstreamList(v)[k]
    ensures forall k :: 0 <= k < |UpstreamList(v)| && UpstreamList(v)[k] != [] ==>
              !Text.IsWhitespace(UpstreamList(v)[k][0])
              && !Text.IsWhitespace(UpstreamList(v)[k][|UpstreamList(v)[k]| - 1])
    ensures Text.Join(Text.Split(v, ','), ",") == v
  {
    Text.SplitLength(v, ',');
    Text.SplitJoin(v, ',');
    var pieces := Text.Split(v, ',');
    forall k | 0 <= k < |pieces| ensures ',' !in UpstreamList(v)[k] {
      Text.AbsentAfterTrim(pieces[k], ',');
    }
  }

  /** `ConfigManager::load_from_env`, reading the environment as a map from names to values. */
  function LoadFromEnv(env: map<string, string>): PartialConfig {
    PartialConfig(
      dnsUdpPort := VarNumber(env, ENV_DNS_UDP_PORT, U16_MAX),
      dnsDotPort := VarNumber(env, ENV_DNS_DOT_PORT, U16_MAX),
      dnsDohPort := VarNumber(env, ENV_DNS_DOH_PORT, U16_MAX),
      dnsDoqPort := VarNumber(env, ENV_DNS_DOQ_PORT, U16_MAX),
      webPort := VarNumber(env, ENV_WEB_PORT, U16_MAX),
      tlsCertPath := Var(env, ENV_TLS_CERT_PATH),
      tlsKeyPath := Var(env, ENV_TLS_KEY_PATH),
      databaseUrl := Var(env, ENV_DATABASE_URL),
      adminUsername := Var(env, ENV_ADMIN_USERNAME),
      adminPassword := Var(env, ENV_ADMIN_PASSWORD),
      logPath := Var(env, ENV_LOG_PATH),
      logLevel := Var(env, ENV_LOG_LEVEL),
      logMaxSize := VarNumber(env, ENV_LOG_MAX_SIZE, U64_MAX),
      logRetentionDays := VarNumber(env, ENV_LOG_RETENTION_DAYS, U32_MAX),
      cacheTtl := VarNumber(env, ENV_CACHE_TTL, U64_MAX),
      cacheMaxEntries := VarNumber(env, ENV_CACHE_MAX_ENTRIES, U64_MAX),
      upstreamServers := if ENV_UPSTREAM_SERVERS in env then Some(UpstreamList(env[ENV_UPSTREAM_SERVERS])) else None)
  }

  /**
   * An empty environment sets nothing; a variable that is present is offered unchanged;
   * a port that does not parse as a `u16` is not offered, so the layer below wins.
   */
  lemma LoadFromEnvFacts(env: map<string, string>)
    ensures LoadFromEnv(map[]) == EmptyPartial
    ensures ENV_DATABASE_URL in env ==> LoadFromEnv(env).databaseUrl == Some(env[ENV_DATABASE_URL])
    ensures ENV_WEB_PORT in env && ParseUnsigned(env[ENV_WEB_PORT], U16_MAX).None? ==>
              LoadFromEnv(env).webPort.None?
    ensures ENV_UPSTREAM_SERVERS in env ==>
              LoadFromEnv(env).upstreamServers == Some(UpstreamList(env[ENV_UPSTREAM_SERVERS]))
  {
  }

  /** The shared configuration that `ConfigManager` holds behind its lock. */
  class ConfigManager {
    var config: AppConfig

    /** `ConfigManager::from_configs`: merge the file's partial, then the environment's. */
    constructor FromConfigs(file: Option<PartialConfig>, env: Option<PartialConfig>)
      ensures config == Layered(file, env)
    {
      var c := DefaultConfig();
      if file.Some? {
        c := MergeConfig(c, file.value);
      }
      if env.Some? {
        c := MergeConfig(c, env.value);
      }
      config := c;
    }

    /**
     * `ConfigManager::load_with_path`: a file that could not be read or parsed is skipped;
     * the environment is always merged last.
     */
    constructor LoadWithPath(file: Result<PartialConfig, string>, env: map<string, string>)
      ensures config == Layered(if file.Ok? then Some(file.value) else None, Some(LoadFromEnv(env)))
    {
      var c := DefaultConfig();
      if file.Ok? {
        c := MergeConfig(c, file.value);
      }
      c := MergeConfig(c, LoadFromEnv(env));
      config := c;
    }

    /** `ConfigManager::get`: a copy of the current configuration. */
    method Get() returns (c: AppConfig)
      ensures c == config
    {
      c := config;
    }
  }
}
