/**
 * The background latency alert: a periodic check that is gated by the enabled flag, a
 * five-minute cooldown and a configured webhook, and that fires when the query-weighted
 * average latency of the upstreams is over the threshold.
 */
module AlertManager {
  import opened Wrappers
  import Numbers
  import Settings
  import Status

  /** Minimum time between two alerts, in milliseconds (300 s). */
  const COOLDOWN_MS: int := 300_000

  /** The threshold, in milliseconds, used when none is stored or it does not parse. */
  const DEFAULT_THRESHOLD_MS: real := 200.0

  /** What one server contributes to the latency sum: queries times EMA latency, if it served any. */
  function LatencyTerm(s: Status.UpstreamStats): real {
    if s.queries > 0 then s.queries as real * s.emaResponseTimeMs else 0.0
  }

  /** Σ queries·ema over the servers with queries. */
  function LatencyProduct(stats: seq<Status.UpstreamStats>): real {
    if stats == [] then 0.0 else LatencyProduct(stats[..|stats| - 1]) + LatencyTerm(stats[|stats| - 1])
  }

  /** Σ queries over the servers with queries. */
  function QueryCount(stats: seq<Status.UpstreamStats>): nat {
    if stats == [] then 0 else QueryCount(stats[..|stats| - 1]) + stats[|stats| - 1].queries
  }

  /** The query-weighted average latency, 0 when no server has served a query. */
  function AverageLatency(stats: seq<Status.UpstreamStats>): real {
    if QueryCount(stats) > 0 then LatencyProduct(stats) / QueryCount(stats) as real else 0.0
  }

  /** The accumulation loop of `check_alerts`. */
  method WeightedLatency(stats: seq<Status.UpstreamStats>) returns (product: real, count: nat)
    ensures product == LatencyProduct(stats) && count == QueryCount(stats)
  {
    product, count := 0.0, 0;
    for i := 0 to |stats|
      invariant product == LatencyProduct(stats[..i]) && count == QueryCount(stats[..i])
    {
      assert stats[..i + 1][..i] == stats[..i];
      if stats[i].queries > 0 {
        product := product + stats[i].queries as real * stats[i].emaResponseTimeMs;
        count := count + stats[i].queries;
      }
    }
    assert stats[..|stats|] == stats;
  }

  /** Every server that served queries has its EMA latency in `lo..hi`. */
  predicate LatenciesWithin(stats: seq<Status.UpstreamStats>, lo: real, hi: real) {
    forall i :: 0 <= i < |stats| && stats[i].queries > 0 ==> lo <= stats[i].emaResponseTimeMs <= hi
  }

  /** Scaling `lo <= e <= hi` by a non-negative factor keeps the order. */
  lemma ScaleBounds(q: real, e: real, lo: real, hi: real)
    requires q >= 0.0 && lo <= e <= hi
    ensures q * lo <= q * e <= q * hi
  {
    assert q * (e - lo) >= 0.0;
    assert q * (hi - e) >= 0.0;
  }

  /** Dividing `lo * n <= p <= hi * n` by a positive `n`. */
  lemma QuotientBounds(p: real, n: real, lo: real, hi: real)
    requires n > 0.0 && lo * n <= p <= hi * n
    ensures lo <= p / n <= hi
  {
    var avg := p / n;
    assert avg * n == p;
  }

  /** One server's term lies between `lo` and `hi` times its query count. */
  lemma TermBounds(s: Status.UpstreamStats, lo: real, hi: real)
    requires s.queries > 0 ==> lo <= s.emaResponseTimeMs <= hi
    ensures s.queries as real * lo <= LatencyTerm(s) <= s.queries as real * hi
  {
    if s.queries > 0 {
      ScaleBounds(s.queries as real, s.emaResponseTimeMs, lo, hi);
    } else {
      assert s.queries as real == 0.0;
      assert s.queries as real * lo == 0.0 && s.queries as real * hi == 0.0;
    }
  }

  /** Dropping the last server keeps the latency bounds. */
  lemma WithinInit(stats: seq<Status.UpstreamStats>, lo: real, hi: real)
    requires stats != [] && LatenciesWithin(stats, lo, hi)
    ensures LatenciesWithin(stats[..|stats| - 1], lo, hi)
  {
    var init := stats[..|stats| - 1];
    forall i | 0 <= i < |init| && init[i].queries > 0 ensures lo <= init[i].emaResponseTimeMs <= hi {
      assert init[i] == stats[i];
    }
  }

  /** Σ queries·x over the servers: what the latency sum would be if every EMA were `x`. */
  function Uniform(stats: seq<Status.UpstreamStats>, x: real): real {
    if stats == [] then 0.0 else Uniform(stats[..|stats| - 1], x) + stats[|stats| - 1].queries as real * x
  }

  /** The uniform sum is `x` times the query count. */
  lemma {:induction false} UniformIsScaledCount(stats: seq<Status.UpstreamStats>, x: real)
    ensures Uniform(stats, x) == x * QueryCount(stats) as real
    decreases |stats|
  {
    if stats == [] {
      assert x * QueryCount(stats) as real == x * 0.0 == 0.0;
    } else {
      var init := stats[..|stats| - 1];
      UniformIsScaledCount(init, x);
      var c, c0, q := QueryCount(stats) as real, QueryCount(init) as real, stats[|stats| - 1].queries as real;
      assert c == c0 + q;
      assert x * c == x * c0 + q * x;
    }
  }

  /** The latency sum lies between the uniform sums at `lo` and at `hi`. */
  lemma {:induction false} ProductBetween(stats: seq<Status.UpstreamStats>, lo: real, hi: real)
    requires LatenciesWithin(stats, lo, hi)
    ensures Uniform(stats, lo) <= LatencyProduct(stats) <= Uniform(stats, hi)
    decreases |stats|
  {
    if stats != [] {
      var init, last := stats[..|stats| - 1], stats[|stats| - 1];
      WithinInit(stats, lo, hi);
      ProductBetween(init, lo, hi);
      TermBounds(last, lo, hi);
      assert Uniform(stats, lo) == Uniform(init, lo) + last.queries as real * lo;
      assert Uniform(stats, hi) == Uniform(init, hi) + last.queries as real * hi;
      assert LatencyProduct(stats) == LatencyProduct(init) + LatencyTerm(last);
    }
  }

  /** The latency sum is at least `lo` times the query count. */
  lemma ProductAbove(stats: seq<Status.UpstreamStats>, lo: real, hi: real)
    requires LatenciesWithin(stats, lo, hi)
    ensures lo * QueryCount(stats) as real <= LatencyProduct(stats)
  {
    ProductBetween(stats, lo, hi);
    UniformIsScaledCount(stats, lo);
  }

  /** The latency sum is at most `hi` times the query count. */
  lemma ProductBelow(stats: seq<Status.UpstreamStats>, lo: real, hi: real)
    requires LatenciesWithin(stats, lo, hi)
    ensures LatencyProduct(stats) <= hi * QueryCount(stats) as real
  {
    ProductBetween(stats, lo, hi);
    UniformIsScaledCount(stats, hi);
  }

  /**
   * The average is a true weighted mean: when every server that served queries has an
   * EMA latency between `lo` and `hi`, so has the average.
   */
  lemma AverageWithin(stats: seq<Status.UpstreamStats>, lo: real, hi: real)
    requires LatenciesWithin(stats, lo, hi) && QueryCount(stats) > 0
    ensures lo <= AverageLatency(stats) <= hi
  {
    ProductAbove(stats, lo, hi);
    ProductBelow(stats, lo, hi);
    AverageFromSums(stats, lo, hi);
  }

  /** Bounds on the latency sum, divided by the query count, bound the average. */
  lemma AverageFromSums(stats: seq<Status.UpstreamStats>, lo: real, hi: real)
    requires QueryCount(stats) > 0
    requires lo * QueryCount(stats) as real <= LatencyProduct(stats) <= hi * QueryCount(stats) as real
    ensures lo <= AverageLatency(stats) <= hi
  {
    QuotientBounds(LatencyProduct(stats), QueryCount(stats) as real, lo, hi);
  }

  /** With no server having served a query the average is 0 and nothing is counted. */
  lemma {:induction false} NoQueriesNoAverage(stats: seq<Status.UpstreamStats>)
    requires forall i :: 0 <= i < |stats| ==> stats[i].queries == 0
    ensures QueryCount(stats) == 0 && LatencyProduct(stats) == 0.0 && AverageLatency(stats) == 0.0
    decreases |stats|
  {
    if stats != [] {
      var init := stats[..|stats| - 1];
      assert forall i :: 0 <= i < |init| ==> init[i] == stats[i];
      NoQueriesNoAverage(init);
    }
  }

  /** The threshold `check_alerts` compares with: the stored text read as a float, or 200. */
  function Threshold(entries: map<string, string>, parseFloat: string -> Option<real>): (t: real)
    ensures Settings.KEY_ALERT_LATENCY_THRESHOLD_MS !in entries ==> t == DEFAULT_THRESHOLD_MS
    ensures Settings.KEY_ALERT_LATENCY_THRESHOLD_MS in entries && parseFloat(entries[Settings.KEY_ALERT_LATENCY_THRESHOLD_MS]).None?
      ==> t == DEFAULT_THRESHOLD_MS
  {
    if Settings.KEY_ALERT_LATENCY_THRESHOLD_MS in entries
    then parseFloat(entries[Settings.KEY_ALERT_LATENCY_THRESHOLD_MS]).GetOr(DEFAULT_THRESHOLD_MS)
    else DEFAULT_THRESHOLD_MS
  }

  /** Why a check ended without an alert, or the alert it sends. */
  datatype Decision =
    | ReadFailed(message: string)
    | Disabled
    | CoolingDown
    | NoWebhook
    | WithinThreshold
    | Fire(webhook: string, averageMs: real, thresholdMs: real)

  /** Alerting is switched on: the stored flag reads exactly "true". */
  predicate AlertsEnabled(entries: map<string, string>) {
    Settings.KEY_ALERT_ENABLED in entries && entries[Settings.KEY_ALERT_ENABLED] == "true"
  }

  /** The last alert was sent less than five minutes before `now`. */
  predicate InCooldown(lastAlert: Option<int>, now: int) {
    lastAlert.Some? && now - lastAlert.value < COOLDOWN_MS
  }

  /** A webhook URL is stored and it is not empty. */
  predicate HasWebhook(entries: map<string, string>) {
    Settings.KEY_ALERT_WEBHOOK_URL in entries && entries[Settings.KEY_ALERT_WEBHOOK_URL] != []
  }

  /**
   * The decision `check_alerts` takes, from the stored settings, the last alert time,
   * the current time (milliseconds on a monotonic clock) and the upstream statistics.
   */
  function Decide(entries: map<string, string>, lastAlert: Option<int>, now: int,
                  stats: seq<Status.UpstreamStats>, parseFloat: string -> Option<real>): (d: Decision)
    ensures !d.ReadFailed?
    ensures !AlertsEnabled(entries) ==> d == Disabled
    ensures AlertsEnabled(entries) && InCooldown(lastAlert, now) ==> d == CoolingDown
    ensures AlertsEnabled(entries) && !InCooldown(lastAlert, now) && !HasWebhook(entries) ==> d == NoWebhook
    ensures d.Fire? <==>
      (AlertsEnabled(entries) && !InCooldown(lastAlert, now) && HasWebhook(entries)
       && QueryCount(stats) > 0 && AverageLatency(stats) > Threshold(entries, parseFloat))
    ensures d.Fire? ==> d == Fire(entries[Settings.KEY_ALERT_WEBHOOK_URL], AverageLatency(stats), Threshold(entries, parseFloat))
  {
    if !AlertsEnabled(entries) then Disabled
    else if InCooldown(lastAlert, now) then CoolingDown
    else if !HasWebhook(entries) then NoWebhook
    else
      var threshold := Threshold(entries, parseFloat);
      var avg := AverageLatency(stats);
      if avg > threshold && QueryCount(stats) > 0 then Fire(entries[Settings.KEY_ALERT_WEBHOOK_URL], avg, threshold)
      else WithinThreshold
  }

  /** After an alert at `sent`, no check in the next five minutes fires, whatever the latency. */
  lemma NoRepeatWithinCooldown(entries: map<string, string>, sent: int, now: int,
                               stats: seq<Status.UpstreamStats>, parseFloat: string -> Option<real>)
    requires sent <= now < sent + COOLDOWN_MS
    ensures !Decide(entries, Some(sent), now, stats, parseFloat).Fire?
  {
  }

  /** Once five minutes have passed, the cooldown no longer holds an alert back. */
  lemma CooldownExpires(entries: map<string, string>, sent: int, now: int,
                        stats: seq<Status.UpstreamStats>, parseFloat: string -> Option<real>)
    requires now >= sent + COOLDOWN_MS
    ensures Decide(entries, Some(sent), now, stats, parseFloat) == Decide(entries, None, now, stats, parseFloat)
  {
  }

  /** Integers whose decimal text a float parser reads back exactly (at most 2^53 in magnitude). */
  predicate ExactInFloat(x: int) {
    -0x20_0000_0000_0000 <= x <= 0x20_0000_0000_0000
  }

  /** The float parser reads the decimal text of every exactly representable `i64` as that number. */
  ghost predicate ReadsIntegers(parseFloat: string -> Option<real>) {
    forall x: Numbers.i64 {:trigger Numbers.I64ToString(x)} ::
      ExactInFloat(x) ==> parseFloat(Numbers.I64ToString(x)) == Some(x as real)
  }

  /**
   * The alert check reads what the settings API stores: its gates agree with the
   * settings as `get_settings` decodes them, and a threshold saved through
   * `update_settings` is the threshold the check compares with.
   */
  lemma AlertsReadStoredSettings(entries: map<string, string>, req: Settings.UpdateSettingsRequest,
                                 codec: Settings.StringListCodec, parseFloat: string -> Option<real>)
    requires ReadsIntegers(parseFloat)
    ensures AlertsEnabled(entries) <==> Settings.ReadSettings(entries, codec).alertEnabled
    ensures HasWebhook(entries) <==>
      var url := Settings.ReadSettings(entries, codec).alertWebhookUrl; url.Some? && url.value != []
    ensures req.alertLatencyThresholdMs.Some? && ExactInFloat(req.alertLatencyThresholdMs.value) ==>
      Threshold(Settings.Written(entries, req, codec), parseFloat) == req.alertLatencyThresholdMs.value as real
  {
    if req.alertLatencyThresholdMs.Some? && ExactInFloat(req.alertLatencyThresholdMs.value) {
      var t := req.alertLatencyThresholdMs.value;
      Settings.WrittenKeys(entries, req, codec, Settings.KEY_ALERT_LATENCY_THRESHOLD_MS);
      assert parseFloat(Numbers.I64ToString(t)) == Some(t as real);
    }
  }

  /**
   * `config.get(key)` on the `system_config` table: the database error recorded for
   * `key` in `failures`, or else the stored text, if any.
   */
  function Read(entries: map<string, string>, failures: map<string, string>, key: string): Result<Option<string>, string> {
    if key in failures then Err(failures[key])
    else if key in entries then Ok(Some(entries[key]))
    else Ok(None)
  }

  /**
   * `check_alerts` with reads that may fail: each setting is read only once the gates
   * before it have passed, and a failed read ends the check with its error. Where no
   * read fails, the outcome is the decision on the stored settings.
   */
  function Check(entries: map<string, string>, failures: map<string, string>, lastAlert: Option<int>, now: int,
                 stats: seq<Status.UpstreamStats>, parseFloat: string -> Option<real>): (d: Decision)
    ensures d.ReadFailed? <==>
      (Settings.KEY_ALERT_ENABLED in failures
       || (AlertsEnabled(entries) && !InCooldown(lastAlert, now)
           && (Settings.KEY_ALERT_WEBHOOK_URL in failures
               || (HasWebhook(entries) && Settings.KEY_ALERT_LATENCY_THRESHOLD_MS in failures))))
    ensures Settings.KEY_ALERT_ENABLED in failures ==> d == ReadFailed(failures[Settings.KEY_ALERT_ENABLED])
    ensures !d.ReadFailed? ==> d == Decide(entries, lastAlert, now, stats, parseFloat)
  {
    match Read(entries, failures, Settings.KEY_ALERT_ENABLED)
    case Err(e) => ReadFailed(e)
    case Ok(enabledText) =>
      if enabledText.GetOr("") != "true" then Disabled
      else if InCooldown(lastAlert, now) then CoolingDown
      else match Read(entries, failures, Settings.KEY_ALERT_WEBHOOK_URL)
        case Err(e) => ReadFailed(e)
        case Ok(webhook) =>
          if webhook.None? || webhook.value == [] then NoWebhook
          else match Read(entries, failures, Settings.KEY_ALERT_LATENCY_THRESHOLD_MS)
            case Err(e) => ReadFailed(e)
            case Ok(text) =>
              var threshold := if text.Some? then parseFloat(text.value).GetOr(DEFAULT_THRESHOLD_MS) else DEFAULT_THRESHOLD_MS;
              var avg := AverageLatency(stats);
              if avg > threshold && QueryCount(stats) > 0 then Fire(webhook.value, avg, threshold) else WithinThreshold
  }

  /** The alerting state: when the last alert went out. */
  class AlertManager {
    var lastAlertTime: Option<int>

    constructor ()
      ensures lastAlertTime == None
    {
      lastAlertTime := None;
    }

    /**
     * One run of `check_alerts`. `failures` holds the database error of each settings
     * read that fails; `sendOk` is the outcome of posting the alert to the webhook,
     * which matters only when an alert is sent. `now` is the clock reading the cooldown
     * test uses and `sentAt` the later reading taken once the send has returned. A
     * failed read or send is the run's error, and the last alert time moves to `sentAt`
     * only after a successful send.
     */
    method CheckAlerts(entries: map<string, string>, failures: map<string, string>, now: int,
                       stats: seq<Status.UpstreamStats>, parseFloat: string -> Option<real>, sendOk: bool,
                       sentAt: int)
      returns (d: Decision, r: Result<(), string>)
      requires now <= sentAt
      modifies this
      ensures d == Check(entries, failures, old(lastAlertTime), now, stats, parseFloat)
      ensures d.ReadFailed? ==> r == Err(d.message)
      ensures r.Err? <==> d.ReadFailed? || (d.Fire? && !sendOk)
      ensures lastAlertTime == (if d.Fire? && sendOk then Some(sentAt) else old(lastAlertTime))
    {
      var enabledText := Read(entries, failures, Settings.KEY_ALERT_ENABLED);
      if enabledText.Err? {
        return ReadFailed(enabledText.error), Err(enabledText.error);
      }
      if enabledText.value.GetOr("") != "true" {
        return Disabled, Ok(());
      }
      if lastAlertTime.Some? && now - lastAlertTime.value < COOLDOWN_MS {
        return CoolingDown, Ok(());
      }
      var webhook := Read(entries, failures, Settings.KEY_ALERT_WEBHOOK_URL);
      if webhook.Err? {
        return ReadFailed(webhook.error), Err(webhook.error);
      }
      if webhook.value.None? || webhook.value.value == [] {
        return NoWebhook, Ok(());
      }
      var thresholdText := Read(entries, failures, Settings.KEY_ALERT_LATENCY_THRESHOLD_MS);
      if thresholdText.Err? {
        return ReadFailed(thresholdText.error), Err(thresholdText.error);
      }
      var threshold := if thresholdText.value.Some? then parseFloat(thresholdText.value.value).GetOr(DEFAULT_THRESHOLD_MS)
                       else DEFAULT_THRESHOLD_MS;
      var product, count := WeightedLatency(stats);
      var avg := if count > 0 then product / count as real else 0.0;
      if avg > threshold && count > 0 {
        d := Fire(webhook.value.value, avg, threshold);
        if !sendOk {
          return d, Err("failed to send alert");
        }
        lastAlertTime := Some(sentAt);
        return d, Ok(());
      }
      return WithinThreshold, Ok(());
    }
  }
}
