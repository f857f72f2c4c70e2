/**
 * Upstream health as the status API reports it, and the overall health check.
 * The statistics of one upstream (`UpstreamStats`) are read, not computed: whether it
 * is healthy and its average response time come from methods outside this model and
 * appear here as fields.
 */
module Status {
  import opened Wrappers

  datatype UpstreamServer = UpstreamServer(id: int, name: string, address: string, protocol: string, enabled: bool)

  /** The live counters of one upstream. */
  datatype UpstreamStats = UpstreamStats(
    queries: nat,
    failures: nat,
    emaResponseTimeMs: real,
    healthy: bool,
    avgResponseTimeMs: nat)

  /** One row of the per-server list. */
  datatype UpstreamStatusInfo = UpstreamStatusInfo(
    id: int, name: string, address: string, protocol: string, enabled: bool,
    healthy: bool, queries: nat, failures: nat, avgResponseTimeMs: nat)

  datatype UpstreamsStatusInfo = UpstreamsStatusInfo(total: nat, healthy: nat, servers: seq<UpstreamStatusInfo>)

  /** A server counts as healthy when it is enabled and its statistics, if any, say healthy. */
  predicate CountsAsHealthy(s: UpstreamServer, stats: map<int, UpstreamStats>) {
    s.enabled && (if s.id in stats then stats[s.id].healthy else true)
  }

  /** `healthy_count`: how many listed servers count as healthy. */
  function HealthyCount(servers: seq<UpstreamServer>, stats: map<int, UpstreamStats>): (n: nat)
    ensures n <= |servers|
    ensures n == |servers| ==> forall i :: 0 <= i < |servers| ==> CountsAsHealthy(servers[i], stats)
  {
    if servers == [] then 0
    else (if CountsAsHealthy(servers[0], stats) then 1 else 0) + HealthyCount(servers[1..], stats)
  }

  /** The row for one server: its own fields, and its statistics or the defaults when it has none. */
  function StatusInfo(s: UpstreamServer, stats: map<int, UpstreamStats>): (r: UpstreamStatusInfo)
    ensures r.id == s.id && r.name == s.name && r.address == s.address
    ensures r.protocol == s.protocol && r.enabled == s.enabled
    ensures s.id !in stats ==>
      r.healthy == s.enabled && r.queries == 0 && r.failures == 0 && r.avgResponseTimeMs == 0
    ensures s.id in stats ==>
      var st := stats[s.id];
      r.healthy == st.healthy && r.queries == st.queries && r.failures == st.failures
      && r.avgResponseTimeMs == st.avgResponseTimeMs
  {
    if s.id in stats then
      var st := stats[s.id];
      UpstreamStatusInfo(s.id, s.name, s.address, s.protocol, s.enabled,
                         st.healthy, st.queries, st.failures, st.avgResponseTimeMs)
    else
      UpstreamStatusInfo(s.id, s.name, s.address, s.protocol, s.enabled, s.enabled, 0, 0, 0)
  }

  /** The per-server list, in the repository's order. */
  function StatusInfos(servers: seq<UpstreamServer>, stats: map<int, UpstreamStats>): (r: seq<UpstreamStatusInfo>)
    ensures |r| == |servers|
    ensures forall i :: 0 <= i < |servers| ==> r[i] == StatusInfo(servers[i], stats)
  {
    seq(|servers|, i requires 0 <= i < |servers| => StatusInfo(servers[i], stats))
  }

  /** The `upstreams` part of `system_status`. */
  function UpstreamsStatus(servers: seq<UpstreamServer>, stats: map<int, UpstreamStats>): (r: UpstreamsStatusInfo)
    ensures r.total == |servers| && r.servers == StatusInfos(servers, stats)
    ensures r.healthy <= r.total
  {
    var infos := StatusInfos(servers, stats);
    UpstreamsStatusInfo(|infos|, HealthyCount(servers, stats), infos)
  }

  /** A server counted as healthy is listed as healthy. */
  lemma CountedAreListedHealthy(servers: seq<UpstreamServer>, stats: map<int, UpstreamStats>, i: int)
    requires 0 <= i < |servers| && CountsAsHealthy(servers[i], stats)
    ensures StatusInfos(servers, stats)[i].healthy && StatusInfos(servers, stats)[i].enabled
  {
  }

  /** Rows that are both enabled and healthy. */
  function EnabledHealthyRows(infos: seq<UpstreamStatusInfo>): nat {
    if infos == [] then 0
    else (if infos[0].enabled && infos[0].healthy then 1 else 0) + EnabledHealthyRows(infos[1..])
  }

  /**
   * The healthy count agrees with the list it is reported beside: it is the number of
   * rows shown as enabled and healthy.
   */
  lemma {:induction false} HealthyCountMatchesRows(servers: seq<UpstreamServer>, stats: map<int, UpstreamStats>)
    ensures HealthyCount(servers, stats) == EnabledHealthyRows(StatusInfos(servers, stats))
    decreases |servers|
  {
    if servers != [] {
      var infos := StatusInfos(servers, stats);
      assert infos[1..] == StatusInfos(servers[1..], stats);
      HealthyCountMatchesRows(servers[1..], stats);
    }
  }

  /**
   * Where the count and the row disagree: a disabled server whose statistics say
   * healthy is shown as healthy but is not counted.
   */
  lemma DisabledHealthyServerNotCounted(s: UpstreamServer, st: UpstreamStats)
    requires !s.enabled && st.healthy
    ensures StatusInfo(s, map[s.id := st]).healthy
    ensures HealthyCount([s], map[s.id := st]) == 0
  {
  }

  datatype HealthCheckResponse = HealthCheckResponse(status: string, database: bool, cache: bool, upstreams: bool)

  /** The cache is taken to be healthy whenever it exists. */
  const CACHE_HEALTHY: bool := true

  /**
   * `health_check`, given whether the database answered and the enabled upstreams as the
   * repository listed them (a listing error reads as an empty list).
   */
  function HealthCheck(databaseOk: bool, enabled: Result<seq<UpstreamServer>, string>): (r: HealthCheckResponse)
    ensures r.status == "healthy" <==> databaseOk
    ensures r.status == "degraded" <==> !databaseOk
    ensures r.database == databaseOk && r.cache
    ensures r.upstreams <==> enabled.Ok? && enabled.value != []
  {
    var servers := if enabled.Ok? then enabled.value else [];
    var status := if databaseOk && CACHE_HEALTHY then "healthy" else "degraded";
    HealthCheckResponse(status, databaseOk, CACHE_HEALTHY, servers != [])
  }

  /** The overall status ignores the upstreams entirely. */
  lemma StatusIgnoresUpstreams(databaseOk: bool, a: Result<seq<UpstreamServer>, string>,
                               b: Result<seq<UpstreamServer>, string>)
    ensures HealthCheck(databaseOk, a).status == HealthCheck(databaseOk, b).status
  {
  }
}
