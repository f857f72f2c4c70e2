/**
 * System settings kept as strings in the `system_config` key/value table: reading them
 * back with defaults, validating and writing an update, and the webhook test.
 */
module Settings {
  import opened Wrappers
  import opened Api
  import opened Numbers
  import Text
  import DnsQuery

  /** The record types that may be disabled (a separate copy of the query tool's list). */
  const VALID_TYPES: seq<string> := ["A", "AAAA", "CNAME", "MX", "TXT", "PTR", "NS", "SOA", "SRV"]

  const KEY_DISABLED_RECORD_TYPES: string := "disabled_record_types"
  const KEY_ALERT_ENABLED: string := "alert_enabled"
  const KEY_ALERT_WEBHOOK_URL: string := "alert_webhook_url"
  const KEY_ALERT_LATENCY_THRESHOLD_MS: string := "alert_latency_threshold_ms"

  /** The latency threshold read when none is stored or the stored text is not an `i64`. */
  const DEFAULT_LATENCY_THRESHOLD_MS: i64 := 200

  datatype SystemSettings = SystemSettings(
    disabledRecordTypes: seq<string>,
    alertEnabled: bool,
    alertWebhookUrl: Option<string>,
    alertLatencyThresholdMs: i64)

  datatype UpdateSettingsRequest = UpdateSettingsRequest(
    disabledRecordTypes: Option<seq<string>>,
    alertEnabled: Option<bool>,
    alertWebhookUrl: Option<string>,
    alertLatencyThresholdMs: Option<i64>)

  /** The JSON encoding of a list of strings, seen from outside: writing, and reading that may fail. */
  datatype StringListCodec = StringListCodec(encode: seq<string> -> string, decode: string -> Option<seq<string>>)

  /** Reading back what was written gives the same list. */
  ghost predicate RoundTrips(codec: StringListCodec) {
    forall xs: seq<string> {:trigger codec.encode(xs)} :: codec.decode(codec.encode(xs)) == Some(xs)
  }

  /** How `alert_enabled` is written. */
  function BoolText(b: bool): string {
    if b then "true" else "false"
  }

  /** `get_settings` over the stored entries: each setting decoded, or its default. */
  function ReadSettings(entries: map<string, string>, codec: StringListCodec): (s: SystemSettings)
    ensures KEY_DISABLED_RECORD_TYPES !in entries ==> s.disabledRecordTypes == []
    ensures KEY_DISABLED_RECORD_TYPES in entries ==>
      s.disabledRecordTypes == codec.decode(entries[KEY_DISABLED_RECORD_TYPES]).GetOr([])
    ensures s.alertEnabled <==> KEY_ALERT_ENABLED in entries && entries[KEY_ALERT_ENABLED] == "true"
    ensures s.alertWebhookUrl.Some? <==> KEY_ALERT_WEBHOOK_URL in entries
    ensures s.alertWebhookUrl.Some? ==> s.alertWebhookUrl.value == entries[KEY_ALERT_WEBHOOK_URL]
    ensures (KEY_ALERT_LATENCY_THRESHOLD_MS in entries && ParseI64(entries[KEY_ALERT_LATENCY_THRESHOLD_MS]).Some?)
      ==> s.alertLatencyThresholdMs == ParseI64(entries[KEY_ALERT_LATENCY_THRESHOLD_MS]).value
    ensures !(KEY_ALERT_LATENCY_THRESHOLD_MS in entries && ParseI64(entries[KEY_ALERT_LATENCY_THRESHOLD_MS]).Some?)
      ==> s.alertLatencyThresholdMs == DEFAULT_LATENCY_THRESHOLD_MS
  {
    var disabled := if KEY_DISABLED_RECORD_TYPES in entries
      then codec.decode(entries[KEY_DISABLED_RECORD_TYPES]).GetOr([]) else [];
    var enabledText := if KEY_ALERT_ENABLED in entries then entries[KEY_ALERT_ENABLED] else "";
    var webhook := if KEY_ALERT_WEBHOOK_URL in entries then Some(entries[KEY_ALERT_WEBHOOK_URL]) else None;
    var threshold := if KEY_ALERT_LATENCY_THRESHOLD_MS in entries
      then ParseI64(entries[KEY_ALERT_LATENCY_THRESHOLD_MS]).GetOr(DEFAULT_LATENCY_THRESHOLD_MS)
      else DEFAULT_LATENCY_THRESHOLD_MS;
    SystemSettings(disabled, enabledText == "true", webhook, threshold)
  }

  /** An empty table reads as: nothing disabled, alerts off, no webhook, 200 ms. */
  lemma EmptyStoreDefaults(codec: StringListCodec)
    ensures ReadSettings(map[], codec) == SystemSettings([], false, None, 200)
  {
  }

  /** The record type, upper-cased, is one of the nine accepted ones. */
  predicate IsAllowedType(t: string) {
    Text.ToUpper(t) in VALID_TYPES
  }

  /** The two allow-lists in the backend, the query tool's and this one, are the same list. */
  lemma AllowListsAgree(t: string)
    ensures VALID_TYPES == DnsQuery.VALID_RECORD_TYPES
    ensures IsAllowedType(t) <==> DnsQuery.IsValidRecordType(t)
  {
  }

  /** Position `i` holds the first type in `types` that is not allowed. */
  predicate FirstInvalidAt(types: seq<string>, i: int) {
    0 <= i < |types| && !IsAllowedType(types[i]) && forall j :: 0 <= j < i ==> IsAllowedType(types[j])
  }

  /** The validation loop of `update_settings`: the first disabled type that is not allowed, if any. */
  method FindInvalidType(types: seq<string>) returns (bad: Option<string>)
    ensures bad.None? <==> forall i :: 0 <= i < |types| ==> IsAllowedType(types[i])
    ensures bad.Some? ==> exists i :: FirstInvalidAt(types, i) && types[i] == bad.value
  {
    for i := 0 to |types|
      invariant forall j :: 0 <= j < i ==> IsAllowedType(types[j])
    {
      var upper := Text.ToUpper(types[i]);
      if upper !in VALID_TYPES {
        return Some(types[i]);
      }
    }
    return None;
  }

  /** Every disabled type in the update (if any) is allowed. */
  predicate TypesAccepted(req: UpdateSettingsRequest) {
    req.disabledRecordTypes.Some? ==>
      forall i :: 0 <= i < |req.disabledRecordTypes.value| ==> IsAllowedType(req.disabledRecordTypes.value[i])
  }

  /** The table after the writes of an accepted update, in the handler's order. */
  function Written(entries: map<string, string>, req: UpdateSettingsRequest, codec: StringListCodec): map<string, string> {
    var e1 := if req.disabledRecordTypes.Some?
      then entries[KEY_DISABLED_RECORD_TYPES := codec.encode(req.disabledRecordTypes.value)] else entries;
    var e2 := if req.alertEnabled.Some? then e1[KEY_ALERT_ENABLED := BoolText(req.alertEnabled.value)] else e1;
    var e3 := if req.alertWebhookUrl.Some? then e2[KEY_ALERT_WEBHOOK_URL := req.alertWebhookUrl.value] else e2;
    if req.alertLatencyThresholdMs.Some?
    then e3[KEY_ALERT_LATENCY_THRESHOLD_MS := I64ToString(req.alertLatencyThresholdMs.value)] else e3
  }

  /**
   * Each supplied field writes its own key with its encoded value; every other key,
   * including the keys of fields left out, keeps its entry (or its absence).
   */
  lemma WrittenKeys(entries: map<string, string>, req: UpdateSettingsRequest, codec: StringListCodec, key: string)
    ensures var after := Written(entries, req, codec);
      && (key == KEY_DISABLED_RECORD_TYPES && req.disabledRecordTypes.Some? ==>
            key in after && after[key] == codec.encode(req.disabledRecordTypes.value))
      && (key == KEY_ALERT_ENABLED && req.alertEnabled.Some? ==>
            key in after && after[key] == BoolText(req.alertEnabled.value))
      && (key == KEY_ALERT_WEBHOOK_URL && req.alertWebhookUrl.Some? ==>
            key in after && after[key] == req.alertWebhookUrl.value)
      && (key == KEY_ALERT_LATENCY_THRESHOLD_MS && req.alertLatencyThresholdMs.Some? ==>
            key in after && after[key] == I64ToString(req.alertLatencyThresholdMs.value))
      && (!(key == KEY_DISABLED_RECORD_TYPES && req.disabledRecordTypes.Some?)
          && !(key == KEY_ALERT_ENABLED && req.alertEnabled.Some?)
          && !(key == KEY_ALERT_WEBHOOK_URL && req.alertWebhookUrl.Some?)
          && !(key == KEY_ALERT_LATENCY_THRESHOLD_MS && req.alertLatencyThresholdMs.Some?) ==>
            (key in after <==> key in entries) && (key in entries ==> after[key] == entries[key]))
  {
  }

  /**
   * Reading after an update gives every supplied setting back as supplied (the
   * threshold through `to_string` and `parse`, the list through the JSON codec), and
   * every setting not supplied as it read before.
   */
  lemma ReadAfterUpdate(entries: map<string, string>, req: UpdateSettingsRequest, codec: StringListCodec)
    requires RoundTrips(codec)
    ensures var before, after := ReadSettings(entries, codec), ReadSettings(Written(entries, req, codec), codec);
      && after.disabledRecordTypes == req.disabledRecordTypes.GetOr(before.disabledRecordTypes)
      && after.alertEnabled == req.alertEnabled.GetOr(before.alertEnabled)
      && after.alertWebhookUrl == (if req.alertWebhookUrl.Some? then req.alertWebhookUrl else before.alertWebhookUrl)
      && after.alertLatencyThresholdMs == req.alertLatencyThresholdMs.GetOr(before.alertLatencyThresholdMs)
  {
    var after := Written(entries, req, codec);
    WrittenKeys(entries, req, codec, KEY_DISABLED_RECORD_TYPES);
    WrittenKeys(entries, req, codec, KEY_ALERT_ENABLED);
    WrittenKeys(entries, req, codec, KEY_ALERT_WEBHOOK_URL);
    WrittenKeys(entries, req, codec, KEY_ALERT_LATENCY_THRESHOLD_MS);
    if req.disabledRecordTypes.Some? {
      assert codec.decode(codec.encode(req.disabledRecordTypes.value)) == Some(req.disabledRecordTypes.value);
    }
    if req.alertLatencyThresholdMs.Some? {
      I64RoundTrip(req.alertLatencyThresholdMs.value);
    }
  }

  /** The `system_config` table: a map from key to stored text. */
  class SystemConfigRepo {
    var entries: map<string, string>

    constructor (initial: map<string, string>)
      ensures entries == initial
    {
      entries := initial;
    }

    /** `repo.set`: store `value` under `key`, replacing what was there. */
    method Set(key: string, value: string)
      modifies this
      ensures entries == old(entries)[key := value]
    {
      entries := entries[key := value];
    }
  }

  /**
   * `update_settings`: reject the whole update when a disabled type is not allowed,
   * writing nothing; otherwise write the supplied fields in order and answer with the
   * settings read back from the updated table.
   */
  method UpdateSettings(repo: SystemConfigRepo, req: UpdateSettingsRequest, codec: StringListCodec)
    returns (r: Result<SystemSettings, ApiError>)
    modifies repo
    ensures r.Err? <==> !TypesAccepted(req)
    ensures r.Err? ==> repo.entries == old(repo.entries) && r.error.code == BAD_REQUEST
    ensures r.Err? ==> exists i :: (FirstInvalidAt(req.disabledRecordTypes.value, i)
      && r.error.message == "Invalid record type: " + req.disabledRecordTypes.value[i])
    ensures r.Ok? ==> repo.entries == Written(old(repo.entries), req, codec)
    ensures r.Ok? ==> r.value == ReadSettings(repo.entries, codec)
  {
    if req.disabledRecordTypes.Some? {
      var bad := FindInvalidType(req.disabledRecordTypes.value);
      if bad.Some? {
        return Err(ApiError(BAD_REQUEST, "Invalid record type: " + bad.value));
      }
      repo.Set(KEY_DISABLED_RECORD_TYPES, codec.encode(req.disabledRecordTypes.value));
    }
    if req.alertEnabled.Some? {
      repo.Set(KEY_ALERT_ENABLED, BoolText(req.alertEnabled.value));
    }
    if req.alertWebhookUrl.Some? {
      repo.Set(KEY_ALERT_WEBHOOK_URL, req.alertWebhookUrl.value);
    }
    if req.alertLatencyThresholdMs.Some? {
      repo.Set(KEY_ALERT_LATENCY_THRESHOLD_MS, I64ToString(req.alertLatencyThresholdMs.value));
    }
    r := Ok(ReadSettings(repo.entries, codec));
  }

  const WEBHOOK_NOT_CONFIGURED: ApiError := ApiError(BAD_REQUEST, "Webhook URL is not configured")

  /**
   * `test_alert`, given the stored webhook (or the read error) and the outcome of
   * posting the test message to a URL.
   */
  function TestAlert(webhook: Result<Option<string>, string>, post: string -> Result<(), string>)
    : (r: Result<string, ApiError>)
    ensures webhook == Ok(None) || webhook == Ok(Some("")) ==> r == Err(WEBHOOK_NOT_CONFIGURED)
    ensures webhook.Err? ==> r.Err? && r.error.code == INTERNAL_ERROR
    ensures webhook.Ok? && webhook.value.Some? && webhook.value.value != [] && post(webhook.value.value).Err?
      ==> r.Err? && r.error.code == INTERNAL_ERROR
    ensures r.Ok? <==>
      (webhook.Ok? && webhook.value.Some? && webhook.value.value != [] && post(webhook.value.value).Ok?)
    ensures r.Ok? ==> r.value == "ok"
  {
    match webhook
    case Err(e) => Err(ApiError(INTERNAL_ERROR, "Failed to get webhook URL: " + e))
    case Ok(None) => Err(WEBHOOK_NOT_CONFIGURED)
    case Ok(Some(url)) =>
      if url == [] then Err(WEBHOOK_NOT_CONFIGURED)
      else match post(url)
        case Err(e) => Err(ApiError(INTERNAL_ERROR, "Failed to send test alert: " + e))
        case Ok(_) => Ok("ok")
  }
}
