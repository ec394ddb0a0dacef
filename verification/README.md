# CO2 tracking: ingestion service and chat-plugin helpers in Dafny

This project models the two pieces of logic of the CO2 tracking utilities:

- **The metrics ingestion service** (`api/main.py`). It keeps four Prometheus counters:
  - `requests_by_model{model,org}`
  - `co2_emission_by_user{user_id,org}`
  - `co2_emission_by_model{model,org}`
  - `token_count_by_model{model,org}`

  It has one authenticated write endpoint, `POST /api/v1/request`. Module `Ingestion` models the counters as an immutable `Registry` of four finite maps from label tuples to numbers: `nat` for counts and tokens, `real` for CO2. The endpoint is `ApiRequest`, a transition guarded by the bearer-token check. A label key that was never incremented reads as zero.
- **The chat plugin's `Filter`** (`openwebui/co2.py`). Module `Filter` models these helpers:
  - the token estimate (characters divided by four, at least 1);
  - the model-name lookup in the chat body;
  - the per-user weekly CO2 cache;
  - the body rewrite in `outlet` that appends the CO2 note to the last message.

  The chat body and its messages are datatypes. An absent dict key is `None`. The clock becomes parameters: the message's CO2 figure and the two week labels (`%Y-%W`) that `outlet` reads, one when it updates the cache and one when it reads the total back, are passed in. The metrics HTTP call becomes an output value, `Dispatch`.
- **Module `Pipeline`** joins the two. The report `outlet` sends is the request the service counts.

Each operation has a partner it is proved against:
- Replaying a log of requests is checked against per-label reference sums computed from the log.
- The weekly cache is checked against the sum of the updates for one user and week.
- The token-count loop is checked against the functional estimate.
- The note rewrite is undone by removing the note again.

## Model

| member | source | states |
|---|---|---|
| Ingestion.Authenticate | api/main.py:30-37 | The credential is accepted exactly when it equals the configured secret. It is then handed back. Otherwise the error is a 401 with a `Bearer` challenge. |
| Ingestion.IncCount | api/main.py:45-48 | `inc` on an integer series adds the amount at one label key and changes no other key. |
| Ingestion.IncAmount | api/main.py:45-48 | `inc` on a real-valued series adds the amount at one label key and changes no other key. |
| Ingestion.ApiRequest | api/main.py:43-50 | A wrong credential gives the 401 error and leaves the registry unchanged, whatever amounts the body carries. The right one adds 1, `co2_emission`, `co2_emission` and `token_nb` at the request's label keys and changes no other key. Each counter ends no smaller than before. The reply is `request received` with the request echoed. |
| Ingestion.ReplayAddsReferenceTotals | api/main.py:43-50 | With the right credential, a log of requests adds, at every label key, exactly the count or sum of the log's requests that carry that key. |
| Ingestion.ReplayRejectedIsNoOp | api/main.py:30-36 | With a wrong credential, any number of requests, with any amounts, leaves the registry exactly as it was. |
| Ingestion.ReplayGrows | api/main.py:43-50 | No sequence of requests, accepted or rejected, lowers any counter. Only accepted requests need non-negative amounts. |
| Ingestion.RetryCountsTwice | api/main.py:43-50 | There is no deduplication: posting the same request twice adds twice each single-call delta. |
| Ingestion.UsersShareModelEntry | api/main.py:9-12 | Two users of the same model and organisation add into one model entry. Their per-user entries stay separate. |
| Filter.TokenEstimate | openwebui/co2.py:87-89 | The estimate is at least 1. It is 1 exactly when there are fewer than 8 characters. Otherwise it is the floor of the character count over 4. |
| Filter.EstimateTokenCount | openwebui/co2.py:79-89 | The loop over the messages computes the estimate. Only dict messages with a content key contribute their length. |
| Filter.TotalCharsAppend | openwebui/co2.py:82-85 | The character total of two lists joined together is the sum of their totals. |
| Filter.TokenEstimateMonotone | openwebui/co2.py:82-89 | Adding messages never lowers the estimate. Messages without content leave it unchanged. |
| Filter.MetadataModel | openwebui/co2.py:102 | The result is the metadata's model when both the metadata and its model key exist. Otherwise it is `unknown`. |
| Filter.ExtractModel | openwebui/co2.py:94-104 | A top-level model is returned whenever present. Without it, the metadata model is used only when the message list is non-empty. Otherwise the result is `unknown`. |
| Filter.ExtractModelOrigin | openwebui/co2.py:98-104 | The result is `unknown`, the top-level model or the metadata model. Nothing else is possible. |
| Filter.ExtractModelIgnoresOtherFields | openwebui/co2.py:98-104 | A top-level model wins whatever the other fields hold. Without messages, a metadata model is never consulted. |
| Filter.CacheKey | openwebui/co2.py:111 | The key splits back into the user id, one underscore and the week label. |
| Filter.CacheKeyInjective | openwebui/co2.py:111 | For week labels of equal length, two cache keys are equal exactly when user and week both agree (a corollary of the key's decomposition). |
| Filter.WeeklyTotal | openwebui/co2.py:114-117 | A key never updated reads as 0. Otherwise the result is the cached total for that user and week. |
| Filter.UpdateWeeklyCache | openwebui/co2.py:109-112 | The user's total for the week grows by exactly `co2`. Only that one key is added or changed. |
| Filter.UpdateLeavesOthers | openwebui/co2.py:111-112 | For week labels of equal length, an update does not change the total read for any other user or any other week. |
| Filter.WeeklyTotalIsSumOfUpdates | openwebui/co2.py:109-117 | After any sequence of updates whose week labels have the length of the one read, a weekly total is the starting total plus the CO2 of that user's updates in that week. A key never updated reads as 0. |
| Filter.AppendNote | openwebui/co2.py:167-171 | The note is appended to the content of the last message only. This happens only when messages exist and the last one has content. Every other message and field is unchanged. |
| Filter.DropNoteUndoesAppend | openwebui/co2.py:168-171 | Removing the note from the rewritten body gives back the original body exactly. |
| Filter.Outlet | openwebui/co2.py:133-181 | Without a user, nothing changes and nothing is sent or emitted. With a user: the cache gains the message's CO2 under the update week, and the note reports the total read under the read week. When both readings give the same week, that total includes the message's CO2; when the week changes in between, it does not. The metrics report goes to `<api_url>/api/v1/request` and carries the extracted model, estimated tokens and configured org and token. The same note is emitted and appended. |
| Pipeline.OutletReportIsCounted | openwebui/co2.py:145-150 | The plugin's report goes to the write endpoint under its configured base URL. It is accepted exactly when its configured token is the service's secret. When accepted, the model entry gains one request and at least one token. The user and model CO2 totals gain the message's CO2. |
| Pipeline.DefaultConfigurationAccepted | api/main.py:23 | The plugin's default token equals the service's default secret, so its reports are accepted out of the box. |

## Left out

- The CO2 formula (`openwebui/co2.py:127-131`, and all of `co2.py`) uses wall-clock time, float arithmetic and `round`. The CO2 figure is a parameter of `Outlet`.
- `inlet` and `start_time` only read the clock.
- `send_metrics_to_api` is an HTTP call. `Outlet` returns the call it would make (`Dispatch`: URL, token and body) instead. Its success flag only selects a log line.
- The event emitter is modelled as the emitted text. The note's wording and its float formatting, including `round(weekly_total, 2)`, are a `render` parameter.
- `print` logging throughout is not modelled.
- The `Action` classes are UI prompts with sleeps.
- The dashboard files are fetch calls and UI stores with no stated logic.
- The `/` greeting and the `/metrics` text exposition are not modelled. They are library output with no state change.
- Bearer-header parsing inside the web framework is not modelled. Only the `!=` comparison is.
- How the counter library treats negative increments is library behaviour. `ApiRequest` requires `co2_emission >= 0` and `token_nb >= 0` of accepted requests only; rejected requests never reach the counters.
- CO2 totals are `real`. Float rounding drift is not modelled.
- The four increments are one atomic step. Their interleaving with concurrent requests or scrapes is not modelled.
- The exception catch-alls in `estimate_token_count`, `extract_model_from_body` and `outlet` guard against Python dynamic typing. Content is a string here, and messages and bodies are typed.
  - One consequence: a non-dict last message is simply left unchanged. In Python, a string message is substring-tested for `"content"`, and indexing it would raise.
- `len(str(x))` on non-string content is not modelled.
- Filter.Outlet: `__user__` is modelled as an optional user id. A user dict without an `"id"` key is not modelled; Python would build the key `None_<week>` for it.
- The body is returned as a new value. The in-place mutation of the Python dict is not modelled.
- Filter.CacheKeyInjective, Filter.UpdateLeavesOthers, Filter.WeeklyTotalIsSumOfUpdates: proved only for week labels of equal length. That holds for `%Y-%W` in four-digit years.
- Pipeline.DefaultConfigurationAccepted: states acceptance by the token check only. Whether the default `api_url` (`http://localhost:8000`) reaches the service is deployment, not modelled.
- No range-query read endpoint is modelled: `api/main.py` defines only `/`, `/metrics` and `/api/v1/request`.
