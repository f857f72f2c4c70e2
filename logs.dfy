/** The query-log API: filter construction, pagination flag, statistics and cleanup. */
module Logs {
  import opened Wrappers
  import opened Api
  import opened Numbers

  datatype LogsQueryParams = LogsQueryParams(
    queryName: Option<string>,
    queryType: Option<string>,
    clientIp: Option<string>,
    cacheHit: Option<bool>,
    limit: Option<i64>,
    offset: Option<i64>)

  datatype QueryLogFilter = QueryLogFilter(
    queryName: Option<string>,
    queryType: Option<string>,
    clientIp: Option<string>,
    cacheHit: Option<bool>,
    limit: Option<i64>,
    offset: Option<i64>)

  /** `From<LogsQueryParams> for QueryLogFilter`: every query parameter becomes the filter field of the same name. */
  function FilterFrom(params: LogsQueryParams): (f: QueryLogFilter)
    ensures f.queryName == params.queryName && f.queryType == params.queryType
    ensures f.clientIp == params.clientIp && f.cacheHit == params.cacheHit
    ensures f.limit == params.limit && f.offset == params.offset
  {
    QueryLogFilter(params.queryName, params.queryType, params.clientIp,
                   params.cacheHit, params.limit, params.offset)
  }

  /** No two different parameter sets give the same filter: nothing is lost on the way. */
  lemma FilterFromInjective(a: LogsQueryParams, b: LogsQueryParams)
    requires FilterFrom(a) == FilterFrom(b)
    ensures a == b
  {
  }

  /** One page of rows from the repository, with the page's window and the total count. */
  datatype PaginatedResult<T> = PaginatedResult(items: seq<T>, total: i64, limit: i64, offset: i64)

  datatype LogsListResponse<T> = LogsListResponse(data: seq<T>, total: i64, limit: i64, offset: i64, hasMore: bool)

  /** `From<PaginatedResult<QueryLog>> for LogsListResponse`. */
  function ListResponseFrom<T>(result: PaginatedResult<T>): (r: LogsListResponse<T>)
    ensures r.data == result.items && r.total == result.total
    ensures r.limit == result.limit && r.offset == result.offset
    ensures r.hasMore <==> result.offset + |result.items| < result.total
  {
    LogsListResponse(result.items, result.total, result.limit, result.offset,
                     result.offset + |result.items| < result.total)
  }

  /**
   * Paging through the rows: the page ending exactly at the total is the last one, and
   * where more rows exist the next page's offset still lies inside the total.
   */
  lemma HasMoreMeansRowsRemain<T>(result: PaginatedResult<T>)
    ensures result.offset + |result.items| == result.total ==> !ListResponseFrom(result).hasMore
    ensures ListResponseFrom(result).hasMore ==> result.offset + |result.items| <= result.total - 1
  {
  }

  /** The pages the source's tests describe: 50 of 100 rows leaves more, 50 of 50 does not. */
  lemma HasMoreExamples(items: seq<int>)
    requires |items| == 50
    ensures ListResponseFrom(PaginatedResult(items, 100, 50, 0)).hasMore
    ensures !ListResponseFrom(PaginatedResult(items, 50, 50, 0)).hasMore
    ensures !ListResponseFrom(PaginatedResult(items, 100, 50, 50)).hasMore
  {
  }

  datatype QueryStats = QueryStats(totalQueries: i64, cacheHits: i64, queriesToday: i64)

  datatype QueryStatsResponse = QueryStatsResponse(totalQueries: i64, cacheHits: i64, queriesToday: i64, cacheHitRate: real)

  /** `From<QueryStats> for QueryStatsResponse`, with the hit rate computed exactly. */
  function StatsResponseFrom(stats: QueryStats): (r: QueryStatsResponse)
    ensures r.totalQueries == stats.totalQueries && r.cacheHits == stats.cacheHits
    ensures r.queriesToday == stats.queriesToday
    ensures stats.totalQueries <= 0 ==> r.cacheHitRate == 0.0
    ensures stats.totalQueries > 0 ==> r.cacheHitRate * stats.totalQueries as real == stats.cacheHits as real
  {
    var rate := if stats.totalQueries > 0 then stats.cacheHits as real / stats.totalQueries as real else 0.0;
    QueryStatsResponse(stats.totalQueries, stats.cacheHits, stats.queriesToday, rate)
  }

  /** A quotient of a part by a positive whole lies between 0 and 1. */
  lemma FractionBounds(r: real, whole: real, part: real)
    requires whole > 0.0 && r * whole == part && 0.0 <= part <= whole
    ensures 0.0 <= r <= 1.0
  {
  }

  /** With at most as many hits as queries, the rate is a fraction between 0 and 1. */
  lemma HitRateIsFraction(stats: QueryStats)
    requires 0 <= stats.cacheHits <= stats.totalQueries || stats.totalQueries <= 0
    ensures 0.0 <= StatsResponseFrom(stats).cacheHitRate <= 1.0
  {
    if stats.totalQueries > 0 {
      FractionBounds(StatsResponseFrom(stats).cacheHitRate, stats.totalQueries as real, stats.cacheHits as real);
    }
  }

  /** Default retention when the `days` query parameter is absent. */
  const DEFAULT_RETENTION_DAYS: i64 := 30

  datatype CleanupParams = CleanupParams(days: Option<i64>)

  datatype CleanupReply = CleanupReply(message: string, deletedCount: nat)

  const DAYS_ERROR: ApiError := ApiError(BAD_REQUEST, "Days must be at least 1")

  /** The retention period `cleanup_logs` works with. */
  function RetentionDays(params: CleanupParams): (d: i64)
    ensures params.days.None? ==> d == DEFAULT_RETENTION_DAYS
    ensures params.days.Some? ==> d == params.days.value
  {
    params.days.GetOr(DEFAULT_RETENTION_DAYS)
  }

  /**
   * `cleanup_logs`, given the repository's `delete_old` as a function from a
   * retention period to the number of rows it deleted or an error.
   */
  function CleanupLogs(params: CleanupParams, deleteOld: i64 -> Result<nat, string>): (r: Result<CleanupReply, ApiError>)
    ensures RetentionDays(params) < 1 ==> r == Err(DAYS_ERROR)
    ensures RetentionDays(params) >= 1 && deleteOld(RetentionDays(params)).Err? ==>
      r.Err? && r.error.code == INTERNAL_ERROR
    ensures r.Ok? <==> RetentionDays(params) >= 1 && deleteOld(RetentionDays(params)).Ok?
    ensures r.Ok? ==> r.value.deletedCount == deleteOld(RetentionDays(params)).value
  {
    var days := RetentionDays(params);
    if days < 1 then Err(DAYS_ERROR)
    else
      match deleteOld(days)
      case Err(e) => Err(ApiError(INTERNAL_ERROR, "Failed to cleanup query logs: " + e))
      case Ok(n) => Ok(CleanupReply("Deleted " + NatToString(n) + " old log entries", n))
  }

  /**
   * A rejected period is rejected before the repository is consulted: the outcome is
   * the same whatever the repository would have done.
   */
  lemma CleanupRejectsBeforeRepository(params: CleanupParams, d1: i64 -> Result<nat, string>, d2: i64 -> Result<nat, string>)
    requires RetentionDays(params) < 1
    ensures CleanupLogs(params, d1) == CleanupLogs(params, d2) == Err(DAYS_ERROR)
  {
  }

  /** Without a `days` parameter the repository is asked to delete entries older than 30 days. */
  lemma CleanupDefaultsToThirtyDays(deleteOld: i64 -> Result<nat, string>)
    ensures CleanupLogs(CleanupParams(None), deleteOld).Ok? <==> deleteOld(30).Ok?
  {
  }
}
