# FluxDNS backend cores in Dafny

FluxDNS is a DNS proxy. Its Rust backend serves a web console next to the resolver.
This project models the sequential logic inside that backend and proves what it promises.
The HTTP, database, async and network plumbing around that logic is not modelled.

- **Layered configuration** (`Config`). The built-in defaults are overlaid field by field, first by the partial configuration read from the TOML file and then by the one read from the environment.
  - `merge_config` is a method that assigns one field after another. It is proved equal to a field-wise overlay.
  - `ConfigManager` is a class holding the merged configuration.
- **Request validation**:
  - the DNS query tool's `validate`, which collects errors (`DnsQuery`);
  - the listener update checks and the blank-to-`None` normalisation (`Listeners`);
  - the record-type allow-list of the settings update (`Settings`).
- **Response derivations**:
  - the `has_more` pagination flag and the zero-guarded cache hit rate (`Logs`);
  - the protocol to TLS-requirement table (`Listeners`);
  - the healthy-upstream count, the per-server rows and the health status (`Status`).
- **Settings in a string key/value table** (`Settings`).
  - The `system_config` repository is a class over a `map<string, string>`.
  - `update_settings` validates, writes through it in order, and answers with what `get_settings` reads back.
- **The latency alert** (`AlertManager`):
  - a gated decision with an enabled flag, a five-minute cooldown and a webhook, firing when the query-weighted average latency exceeds the threshold;
  - a class whose `last_alert_time` moves only after a successful send.
- **The LLM chat API** (`Llm`, `LlmMask`):
  - API-key masking;
  - display-name defaulting;
  - one round of the streamed reply: server-sent-event frames cut from a growing buffer at `"\n\n"`, `data: ` payloads decoded, `[DONE]` handling, content collected in arrival order, and tool-call deltas merged by index.

The helper modules model what the backend uses from outside:
- `Wrappers`: `Option` and `Result`.
- `Api`: the REST error body.
- `Text`: the Rust `str` operations the backend uses, over `seq<char>`: `trim`, `contains`, `find`, `strip_prefix`, `split(',')`, the ASCII part of `to_uppercase` and the UTF-8 byte length.
- `Numbers`: integer `parse` and `to_string`.

Everything the code reads from the outside world is a parameter of the model:
- database answers, and a repository error where the handler distinguishes one;
- the process environment, as a map from name to value;
- the TOML file, as its parse result;
- the JSON codec and the chunk decoder, as function values;
- the float parser;
- the outcome of webhook posts;
- the current time, as integer milliseconds on a monotonic clock (for an alert run, two readings: the one the cooldown test uses and the later one stored once the send has returned).

The project's description of the system also covers a browser-side telemetry feed. That feed's code is not among the modelled files, so it is not part of this model.

## Model

| member | source | states |
|---|---|---|
| Config.DefaultConfigValues | backend/src/config/mod.rs:61-86 | The defaults are ports 53/853/443/8853/8080, no TLS paths, the SQLite database URL, admin/admin, log path "logs" at level "info", ttl 60, 10000 cache entries, a 10 MiB log size, 30-day retention and the upstreams "8.8.8.8:53" and "8.8.4.4:53" |
| Config.MergeConfig | backend/src/config/mod.rs:241-293 | The field-by-field assignments produce exactly the overlay: each field is the partial's value when it is `Some(v)` (TLS paths become `Some(v)`), otherwise the old value |
| Config.OverlayChangesOnlyOffered | backend/src/config/mod.rs:241-293 | A field the partial leaves `None` is unchanged, and a field it offers takes the offered value |
| Config.OverlayEmptyIsIdentity | backend/src/config/mod.rs:572-589 | Merging an all-`None` partial configuration changes nothing |
| Config.OverlayIdempotent | backend/src/config/mod.rs:241-293 | Merging the same partial configuration twice equals merging it once |
| Config.FieldsDetermine | backend/src/config/mod.rs:28-59 | Two configurations that agree on every field are equal, so the per-field laws determine the whole configuration |
| Config.LayeredPriority | backend/src/config/mod.rs:310-454 | In `from_configs` an environment value wins; without one the file value wins; without both the default stands |
| Config.LayeredNothingIsDefault | backend/src/config/mod.rs:562-570 | With no file and no environment, or with two empty ones, the configuration is the default |
| Config.ConfigManager.FromConfigs | backend/src/config/mod.rs:161-180 | The manager holds the defaults overlaid by the file partial and then the environment partial, each only when present |
| Config.ConfigManager.LoadWithPath | backend/src/config/mod.rs:138-159 | A file that failed to load is skipped, and the environment partial is always merged last |
| Config.ConfigManager.Get | backend/src/config/mod.rs:183-185 | Returns the configuration currently held |
| Config.VarNumber | backend/src/config/mod.rs:190-192 | A numeric variable is offered exactly when it is set and parses within its type's range |
| Config.UpstreamList | backend/src/config/mod.rs:224-226 | The upstream list has one trimmed entry per comma-separated piece, in order |
| Config.UpstreamListShape | backend/src/config/mod.rs:224-226 | There are (number of commas + 1) entries; none holds a comma or has whitespace at either end; the untrimmed pieces join back to the value |
| Config.LoadFromEnvFacts | backend/src/config/mod.rs:188-229 | An empty environment offers nothing; a string variable is offered verbatim; an unparseable port is not offered |
| DnsQuery.Validate | backend/src/web/dns_query.rs:79-110 | Ok iff the domain is non-empty, at most 255 bytes long, and its upper-cased record type is one of the nine; otherwise there are 1 or 2 errors, each present iff its condition holds, with the domain error first |
| DnsQuery.ErrorsDistinct | backend/src/web/dns_query.rs:82-103 | The empty-domain, long-domain and record-type errors are three different errors |
| DnsQuery.RecordTypeCaseInsensitive | backend/src/web/dns_query.rs:94-95 | A record type is accepted iff its upper-cased spelling is accepted |
| DnsQuery.RecordTypeExamples | backend/src/web/dns_query.rs:189-226 | "aaaa", "A" and "Srv" are accepted; "INVALID" and "" are rejected |
| Listeners.FromListener | backend/src/web/listeners.rs:38-59 | The response copies protocol, enabled flag, address and port; `has_tls_cert`/`has_tls_key` hold iff the cert/key is present; `requires_tls` holds iff the protocol is dot, doh, doq or doh3 |
| Listeners.RequiresTlsTable | backend/src/web/listeners.rs:40-47 | TLS is required exactly for the four encrypted transports; udp needs none; the "unknown protocol" description is given exactly to protocols outside the five |
| Listeners.DropBlank | backend/src/web/listeners.rs:165-166 | A whitespace-only cert or key becomes `None`; a non-blank one is kept verbatim |
| Listeners.PrepareUpdate | backend/src/web/listeners.rs:128-167 | The port check (1..=65535, absent accepted), then the certificate check, then the key check; the first failure is returned; on success the update copies the request, with blank PEM values dropped |
| Listeners.PemAcceptance | backend/src/web/listeners.rs:139-148 | A blank certificate is accepted and means no change; a marked one is kept; any other non-blank one is rejected |
| Listeners.UpdateListener | backend/src/web/listeners.rs:122-194 | Validation errors come first, then a database error, then not-found when the listener is absent; otherwise the response for the updated listener |
| Listeners.WarningMatchesRequiresTls | backend/src/web/listeners.rs:175-186 | The TLS warning is logged iff the response shows the listener enabled, TLS required, and a certificate or key missing |
| Logs.FilterFrom | backend/src/web/logs.rs:38-49 | The filter copies all six query parameters unchanged |
| Logs.FilterFromInjective | backend/src/web/logs.rs:38-49 | Different parameter sets give different filters |
| Logs.ListResponseFrom | backend/src/web/logs.rs:61-72 | Items, total, limit and offset are copied; `has_more` holds iff offset + number of items < total |
| Logs.HasMoreMeansRowsRemain | backend/src/web/logs.rs:63 | A page ending exactly at the total is the last; when `has_more` holds, rows remain after the page |
| Logs.HasMoreExamples | backend/src/web/logs.rs:233-268 | 50 of 100 rows leaves more and 50 of 50 does not, as the source tests state; one extra example beyond them: the second page of 100 does not |
| Logs.StatsResponseFrom | backend/src/web/logs.rs:83-97 | The counts are copied; the hit rate is 0 when there are no queries, and otherwise hits divided by total |
| Logs.HitRateIsFraction | backend/src/web/logs.rs:85-89 | With 0 ≤ hits ≤ total, or no queries, the hit rate lies in [0, 1] |
| Logs.RetentionDays | backend/src/web/logs.rs:138-146 | The retention period is the given `days`, or 30 |
| Logs.CleanupLogs | backend/src/web/logs.rs:148-172 | Days < 1 is BAD_REQUEST; a repository error is INTERNAL_ERROR; otherwise success reports the deleted count |
| Logs.CleanupRejectsBeforeRepository | backend/src/web/logs.rs:152-158 | A rejected period gives the same error whatever the repository would do |
| Logs.CleanupDefaultsToThirtyDays | backend/src/web/logs.rs:144-146 | Without `days`, cleanup asks the repository about 30 days |
| Settings.ReadSettings | backend/src/web/settings.rs:51-83 | Each setting is decoded from its key: disabled types through the codec, or empty; `alert_enabled` iff the text is exactly "true"; the webhook as stored; the threshold parsed as `i64`, or 200 |
| Settings.EmptyStoreDefaults | backend/src/web/settings.rs:56-75 | An empty table reads as nothing disabled, alerts off, no webhook and 200 ms |
| Settings.AllowListsAgree | backend/src/web/settings.rs:96 | This allow-list equals the DNS query tool's list, and both accept the same record types |
| Settings.FindInvalidType | backend/src/web/settings.rs:97-106 | Returns `None` iff every type is allowed; otherwise the first type that is not allowed |
| Settings.WrittenKeys | backend/src/web/settings.rs:94-143 | Each supplied field writes its key with its encoded value; every other key keeps its entry or its absence |
| Settings.ReadAfterUpdate | backend/src/web/settings.rs:121-146 | Reading after an update returns each supplied setting unchanged, with the threshold through `to_string`/`parse` and the list through the codec; unsupplied settings read as before |
| Settings.SystemConfigRepo.Set | backend/src/web/settings.rs:114 | Stores the value under the key and changes nothing else |
| Settings.UpdateSettings | backend/src/web/settings.rs:88-147 | An invalid disabled type is BAD_REQUEST naming the first offender, and nothing is written; otherwise the table is the ordered writes and the answer is what `get_settings` reads from it |
| Settings.TestAlert | backend/src/web/settings.rs:162-206 | A missing or empty webhook is BAD_REQUEST; a failed settings read and a failed webhook post are each INTERNAL_ERROR; otherwise the answer is "ok" |
| Status.HealthyCount | backend/src/web/status.rs:124-127 | The count is at most the number of servers, and equals it only when every server is enabled and healthy or has no statistics |
| Status.StatusInfo | backend/src/web/status.rs:131-143 | A row copies the server's fields; with statistics it shows their health, queries, failures and average; without them it shows `enabled` and zeros |
| Status.StatusInfos | backend/src/web/status.rs:129-145 | The rows keep the repository's order and length |
| Status.UpstreamsStatus | backend/src/web/status.rs:166-170 | `total` is the number of servers, the healthy count never exceeds it, and the rows are the per-server list |
| Status.CountedAreListedHealthy | backend/src/web/status.rs:125-139 | A server that is counted is listed as enabled and healthy |
| Status.HealthyCountMatchesRows | backend/src/web/status.rs:124-145 | The healthy count equals the number of rows shown as enabled and healthy |
| Status.DisabledHealthyServerNotCounted | backend/src/web/status.rs:126-139 | A disabled server whose statistics say healthy is shown as healthy but not counted |
| Status.HealthCheck | backend/src/web/status.rs:178-203 | "healthy" iff the database answered, else "degraded"; `upstreams` iff the enabled list is non-empty, with a listing error read as empty |
| Status.StatusIgnoresUpstreams | backend/src/web/status.rs:191-195 | The overall status does not depend on the upstreams |
| AlertManager.WeightedLatency | backend/src/services/alert_manager.rs:65-73 | The loop computes the sum of queries × EMA latency and the sum of queries, over servers with queries |
| AlertManager.AverageWithin | backend/src/services/alert_manager.rs:75-79 | When every server with queries has a latency in [lo, hi], so does the weighted average |
| AlertManager.NoQueriesNoAverage | backend/src/services/alert_manager.rs:75-79 | With no queries the count, the product and the average are all 0 |
| AlertManager.Threshold | backend/src/services/alert_manager.rs:57-59 | A missing or unparseable threshold is 200 |
| AlertManager.Decide | backend/src/services/alert_manager.rs:36-89 | Disabled, then cooling down, then no webhook; fires iff enabled, outside the cooldown, a webhook is set, queries > 0 and the average exceeds the threshold |
| AlertManager.NoRepeatWithinCooldown | backend/src/services/alert_manager.rs:43-48 | Within five minutes of an alert no check fires, whatever the latency |
| AlertManager.CooldownExpires | backend/src/services/alert_manager.rs:43-48 | Five minutes after an alert the decision is as if none had been sent |
| AlertManager.AlertsReadStoredSettings | backend/src/services/alert_manager.rs:37-59 | The gates agree with what `get_settings` decodes, and a threshold saved by `update_settings` is the one compared with |
| AlertManager.AlertManager.constructor | backend/src/services/alert_manager.rs:13-18 | No alert has been sent yet |
| AlertManager.Check | backend/src/services/alert_manager.rs:33-92 | A settings read that fails ends the check with its error, but only when the gates before that read have passed; when no read fails, the outcome is `Decide` on the stored settings |
| AlertManager.AlertManager.CheckAlerts | backend/src/services/alert_manager.rs:33-92 | Takes the `Check` outcome. The run fails iff a settings read fails or the alert's send fails. `last_alert_time` becomes the clock reading taken after the send returns (no earlier than the cooldown test's reading), only after a successful send, and is unchanged after a failed read, a failed send or no alert |
| Llm.DisplayName | backend/src/web/llm.rs:119 | The display name is the given one, or the provider |
| Llm.CreateRow | backend/src/web/llm.rs:115-134 | The inserted row copies the request with the defaulted display name and starts disabled |
| Llm.UpdateColumns | backend/src/web/llm.rs:142-168 | The update sets the defaulted display name, and the key only when a non-empty one is sent |
| Llm.UpdateConfig | backend/src/web/llm.rs:170-176 | Zero affected rows is not-found, a database error is INTERNAL_ERROR, and otherwise the update succeeds |
| Llm.TestConnectionDisplayName | backend/src/web/llm.rs:230 | The connection test uses an empty display name when none is given |
| Llm.DisplayNameAgrees | backend/src/web/llm.rs:119-142 | Create and update store the same display name, which defaults to the provider |
| Llm.MergedEntry | backend/src/web/llm.rs:500-507 | A given id or name replaces the stored one; an argument chunk is appended |
| Llm.MergeCall | backend/src/web/llm.rs:500-507 | One delta adds its index and leaves every other index untouched |
| Llm.MergeCallsKeys | backend/src/web/llm.rs:499-508 | After merging, the stored indices are the old ones plus those the deltas mention |
| Llm.MergeCallsArguments | backend/src/web/llm.rs:506 | Per index, the arguments are the stored text followed by the deltas' chunks in arrival order |
| Llm.MergeCallsId | backend/src/web/llm.rs:503 | Per index, the id is the last one given, or the stored one |
| Llm.MergeToolCalls | backend/src/web/llm.rs:499-508 | The loop computes the ordered merge of the deltas |
| Llm.HandleChoice | backend/src/web/llm.rs:475-517 | Handling a choice applies the content, reasoning, tool-call and finish steps in the source's order |
| Llm.ApplyFrame | backend/src/web/llm.rs:469 | A frame not starting with "data: " changes nothing |
| Llm.ReadRound | backend/src/web/llm.rs:460-529 | The nested loops compute the round: chunks appended, frames drained up to "[DONE]", and an error event ending the round at a transport error |
| Llm.FindAfterLine | backend/src/web/llm.rs:465 | In frame + "\n\n" + rest, the first separator is right after the frame |
| Llm.FrameCut | backend/src/web/llm.rs:465-472 | Draining a buffer that starts with a frame cuts that frame, keeps the rest buffered, and stops at "[DONE]" |
| Llm.FrameAppendsContent | backend/src/web/llm.rs:477-484 | A frame appends its non-empty content delta and nothing else |
| Llm.ContentInArrivalOrder | backend/src/web/llm.rs:465-484 | The collected content is the content of the buffered frames in arrival order, up to "[DONE]" |
| Llm.RoundExtendsFullResponse | backend/src/web/llm.rs:479-480 | After a round the full response is the earlier one followed by the content collected in it |
| Llm.RoundKeepsFlag | backend/src/web/llm.rs:497-500 | Tool calls are never accumulated without the `has_tool_calls` flag |
| Llm.ToolLoopCondition | backend/src/web/llm.rs:532 | The tools run iff a "tool_calls" finish was seen and at least one call was accumulated |
| Llm.AssistantContent | backend/src/web/llm.rs:547 | The assistant message has no content iff nothing was collected, and otherwise the collected content |
| Llm.DrainThenAppend | backend/src/web/llm.rs:463-467 | Without a "[DONE]" frame, draining, appending and draining again equals draining once after appending |
| Llm.ChunkBoundaryIrrelevant | backend/src/web/llm.rs:460-467 | Without a "[DONE]" frame, two chunks give the same round as their concatenation |
| Llm.DoneHoldsBackRest | backend/src/web/llm.rs:470-472 | A "[DONE]" frame leaves the frames after it buffered and unapplied |
| LlmMask.MaskApiKey | backend/src/web/llm.rs:847-853 | "********" for a key of at most 8 bytes; otherwise the first 4 bytes, "..." and the last 4 bytes (11 bytes), defined iff both cut points are character boundaries |
| LlmMask.AsciiKeyMask | backend/src/web/llm.rs:850-852 | An ASCII key longer than 8 shows its first 4 and last 4 characters |
| LlmMask.MaskPanicsInsideCharacter | backend/src/web/llm.rs:851 | The 9-byte key "aéééé" has no boundary at byte 4, so `&key[..4]` panics |
| LlmMask.MaskApiKeyChars | backend/src/web/llm.rs:847-853 | The mask by characters: total, 11 characters for a long key, with the first and last four characters |
| LlmMask.CharMaskAgreesOnAscii | backend/src/web/llm.rs:847-853 | On ASCII keys the byte mask and the character mask agree |
| Text.FindFirst | backend/src/web/llm.rs:465 | `find` reports the first occurrence, and reports none iff there is none |
| Text.StripPrefix | backend/src/web/llm.rs:469 | A result exists iff the string starts with the prefix, and it is what follows the prefix |
| Text.TrimEmptyIffBlank | backend/src/web/listeners.rs:141 | A string trims to nothing iff it is all whitespace |
| Text.SplitLength | backend/src/config/mod.rs:226 | Splitting on a character gives one piece more than there are separators |
| Text.SplitJoin | backend/src/config/mod.rs:226 | The pieces joined with the separator give the original string |
| Numbers.I64RoundTrip | backend/src/web/settings.rs:138 | Parsing the `to_string` of an `i64` gives it back |

## Left out

- HTTP routing, axum extractors, sqlx queries, tokio tasks, locks and the 30-second alert timer are plumbing. Their results are parameters of the model.
- `list_logs`, `get_stats`, `list_listeners` and `get_listener` are only wrappers that map a database error and call the modelled `From` conversions.
- `load_from_file` reads and parses TOML, and `dotenvy` reads `.env`. `ConfigManager.LoadWithPath` receives the file's parse result, and the environment is a map from names to values.
- Environment values that are not valid Unicode are not modelled; `std::env::var` treats them as absent.
- Serde defaults and JSON (de)serialisation are treated abstractly:
  - The JSON codec of the disabled-types list is a pair of functions, and the round trip is assumed as a precondition (`Settings.RoundTrips`).
  - The chat-chunk decoder is a function parameter.
  - `serde_json::to_string` of a `Vec<String>` cannot fail, so its error path is not modelled.
- The settings store is a `map`, and its `set` cannot fail. A database error part-way through `update_settings`, which would leave the earlier writes in place, is not modelled. The same goes for a repository error in `get_settings`.
- `AlertManager.AlertsReadStoredSettings` assumes the float parser reads the decimal text of every integer up to 2^53 in magnitude exactly. Parsing of decimals and exponents (`parse::<f64>`) is a function parameter.
- Floating point is modelled as `real`:
  - `cache_hit_rate` and the alert average are exact quotients, so rounding, NaN and infinity are not modelled;
  - the `{:.2}` formatting of the alert message is left out, with the message text.
- `Logs.ListResponseFrom` does not model `i64` overflow of `offset + len`. `AlertManager.WeightedLatency` does not model `u64` overflow of the query sum. Both would need counts near 2^63.
- `DnsQuery.IsValidRecordType` and `Settings.IsAllowedType` use only the ASCII part of Rust's `to_uppercase`, which maps a-z to A-Z. Rust's `to_uppercase` also maps a few non-ASCII characters onto ASCII letters, for example 'ſ' to 'S'.
- The record-type error message is written out as a literal. It is the one the source builds by joining the nine types with ", ".
- `InCooldown` measures `Instant::elapsed` as the difference of two millisecond times.
- The UTF-8 decoding of each HTTP chunk (`from_utf8_lossy`) is left out: chunks arrive as text. A multi-byte character split across two chunks, which the source would replace with U+FFFD, is not modelled.
- The chat stream's tool execution, follow-up rounds, event JSON and the `tx.send` channel are out of scope. The model ends a round with the state the tool-loop decision reads (`Llm.ToolLoopCondition`, `Llm.AssistantContent`).
- `get_configs` returns the raw API key next to the mask; only the mask is modelled.
- `update_config` runs one of two SQL statements. It is modelled as the columns to set, with the key left out when the request sends none.
- `RecordType::from_str`, `UpstreamStats::is_healthy` and `avg_response_time_ms` are not part of this model. Health and the average appear as fields of `Status.UpstreamStats`.
- The forwarding and protocol-consistency test files exercise the resolver, cache and UDP server, whose code is not part of this model.

## Findings

| source | as written | input that shows it | evidently intended | confidence | as-written member | corrected member |
|---|---|---|---|---|---|---|
| backend/src/web/llm.rs:851 | `mask_api_key` slices the key at byte offsets 4 and `len - 4`; Rust panics when an offset falls inside a multi-byte character | the key "aéééé" is 9 bytes long and byte 4 lies inside the second 'é', so `&key[..4]` panics | mask by characters: the first four and last four characters around "..." | medium, not executed | LlmMask.MaskPanicsInsideCharacter | LlmMask.MaskApiKeyChars |
