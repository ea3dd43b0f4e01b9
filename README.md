# GameAnalytics batching client, modelled in Dafny

This project models the `GameAnalytics` client of `main.py`. The client collects
analytics events in memory, one buffer per category (`design`, `business`). When a
buffer reaches its capacity, the client sends the whole buffer as one request to the
collection endpoint. That request is gzip-compressed and signed with HMAC-SHA-256.

The model has five modules:

- `Records` (records.dfy): field values (`Str`/`Int`), the event record as a
  `map<string, Value>`, and bytes.
- `EventBuilder` (event_builder.dfy): `_data` as the pure function `Data`. It returns a
  `Result` with the two `ValueError` cases, `InvalidCategory` and `UnknownEventId`.
  The lookup table, the session id and the clock reading are parameters. It also
  holds the keyword merge of `event_business` (`BusinessFields`) and the in-place
  time stamp of the caller's map (`CallerFieldAfter`).
- `Wire` (wire.dfy): the steps of `send_event` and `_prepare_data_to_send`. Python's
  `str()`, `str.encode()`, gzip, HMAC-SHA-256 and Base64 are injected functions,
  collected in a `Codec`. Only their wiring is modelled.
- `Buffers` (buffers.dfy): the `store_events` threshold rule on one buffer, as a
  value-level step `Append` and its fold `Run` over many calls.
- `Analytics` (game_analytics.dfy): the class `GameAnalytics`. Its fields are the two
  buffers and the configuration. Two ghost fields stand for the transport: `sent` logs
  every batch handed to it, and `posted` logs the request built for each batch.
  `StoreEvents`, `EventDesign` and `EventBusiness` update the buffers in place.
  `SendEvent` only extends the two logs. Each method is specified by the functions
  above, and each keeps the invariant `Logged()`: the i-th request is exactly the one
  `Wire.SendEvent` builds for the i-th batch.

Notes on what `main.py` does:

- The caller's keys win in the merge of `_data` (main.py:143). So a caller field named
  `category`, `user_id`, `session_id`, `platform`, and so on overrides the mandatory
  field of that name. Routing still uses the entry point's category. For
  `event_business`, the arguments `event_id`, `user_uuid`, `amount`, `currency` and
  `transaction_num` are named parameters (main.py:159). Python binds them, or raises
  on a duplicate, so they never reach `**kwargs`. `EventBusiness` requires exactly that
  (`IsBusinessKwargs`).
- A business record always holds the explicit `amount`, `transaction_num` and
  `currency`. They are merged over the keyword arguments (main.py:162), and the
  mandatory dictionary of `_data` has no such keys, so nothing overrides them there
  (`BusinessRecordCarriesExplicitFields`).
- The timestamp is not a mandatory field. It is written into the caller's map
  (main.py:129). So it always wins over a caller-supplied `time`, and the caller's map
  keeps it after the call.
- A buffer rests below its capacity only when the capacity is at least 1. With a
  capacity of 0 or below, every call flushes, so that buffer stays empty. The
  contract of `Buffers.Limit` gives the bound for capacity at least 1 and only
  `n >= 1` below that. That such a buffer stays empty follows from the bound being
  exactly 1 there, which is its body, not its contract.
- `storage.clear()` runs after `send_event` returns (main.py:150-151, 156-157). A post
  that raises skips the clear. The model's transport always returns (see Left out).

## Model

| member | source | states |
|---|---|---|
| EventBuilder.Validate | main.py:124-128 | the category check comes first; an unknown event name fails only for a known category; success exactly when both hold |
| EventBuilder.StampTime | main.py:129 | the caller's map gains `time` = now; every other key keeps its value |
| EventBuilder.NecessaryFields | main.py:130-142 | the mandatory dictionary has exactly the eleven mandatory keys; `event_id` is the lookup table's value for the name |
| EventBuilder.Data | main.py:124-143 | unknown category gives InvalidCategory whatever the name; unknown name gives UnknownEventId; success iff both are known; the keys are mandatory ∪ caller ∪ {time}; `time` is now; caller keys keep the caller's value; other mandatory keys keep the mandatory value; `event_id` resolves through the table unless the caller's map has that key |
| EventBuilder.CallerFieldAfter | main.py:125-129 | the caller's map is unchanged when `_data` raises, and stamped with `time` when validation passes |
| EventBuilder.DataOverlaysCallerField | main.py:129-143 | every key of the caller's map, as `_data` leaves it, maps to the caller's value in the record |
| EventBuilder.BusinessFields | main.py:162 | keys are kwargs ∪ {amount, transaction_num, currency}; the three hold the explicit arguments; other kwargs pass through. The contract also covers kwargs holding the three keys, which Python never passes (see `IsBusinessKwargs`), so for `event_business` the merge is a disjoint union |
| EventBuilder.BusinessRecordCarriesExplicitFields | main.py:159-170 | a business record always holds the explicit amount, transaction number and currency |
| Wire.SwapQuotes | main.py:122 | same length as the input; each `'` becomes `"`; every other character is unchanged; no `'` remains |
| Wire.SwapQuotesFixesExactlyQuoteFree | main.py:122 | the substitution leaves a text unchanged iff the text holds no `'` |
| Wire.SwapQuotesIdempotent | main.py:122 | applying the substitution twice equals applying it once |
| Wire.SwapQuotesConflatesQuotes | main.py:121-122 | the substitution is lossy: `it's` and `it"s` reach the wire as the same text |
| Wire.PrepareDataToSend | main.py:120-122 | the payload has the dump's length; at each position a `'` of the dump became `"` and every other character is the dump's; no `'` remains |
| Wire.ReplaceEmpty | main.py:110 | Python's empty-pattern replace: with n the length of `s`, the result has n + (n + 1) times the length of `t` characters, and starts and ends with `t`; `ReplaceEmptyWithEmptyIsIdentity` gives the case `t` = "" that `send_event` uses |
| Wire.ReplaceEmptyWithEmptyIsIdentity | main.py:110 | `.replace('', "")` returns its input unchanged, under Python's empty-pattern semantics |
| Wire.Header | main.py:101-106 | exactly the keys authorization, content-type, content-encoding; authorization is `HmacAuthHash` (Base64 of HMAC-SHA-256 under the secret) of the given compressed bytes; content-type is application/json; content-encoding is gzip |
| Wire.Params | main.py:95-99 | exactly the keys game_key and interval_seconds, holding the game key and the interval |
| Wire.SendEvent | main.py:74-118 | the request `send_event` builds, through `get_gzip_string`, `hmac_auth_hash`, `_header` and `_params`: it goes to the event url; its body is gzip(utf8(quote-swapped dump)), the empty replace changing nothing; the header keys are exactly authorization, content-type, content-encoding; authorization is Base64(HMAC-SHA-256(secret, body)) over exactly the posted bytes; content-type is application/json; content-encoding is gzip; the params are exactly the game key and the interval |
| Buffers.Append | main.py:146-157 | one call flushes at most one batch, exactly when the old length plus one reaches the capacity, and then leaves the buffer empty; the flushed batch followed by the buffer is the old buffer plus the new record, so nothing is lost or reordered; `AppendStaysBelowLimit` gives its resting bound |
| Buffers.Limit | main.py:149-155 | the resting bound is at least 1 and at least the capacity, and equals the capacity when the capacity is at least 1 |
| Buffers.AppendStaysBelowLimit | main.py:145-157 | one call on a buffer below its limit leaves it below; it flushes at most one batch, exactly when the new length reaches the limit, and that batch has the limit's size |
| Buffers.RunConservesRecords | main.py:145-157 | over any run of calls, flushed batches then the remaining buffer equal the old buffer plus all appended records, in order |
| Buffers.RunStaysBelowLimit | main.py:145-157 | from a buffer below its limit, every run ends below it and flushes only batches of exactly the limit's size |
| Buffers.RunBelowCapacity | main.py:148-149 | while old length plus new records stay under capacity, nothing is sent and the records accumulate in order |
| Buffers.RunReachingCapacity | main.py:148-151 | the call that reaches capacity sends exactly one batch (old buffer plus new records, in order) and empties the buffer |
| Buffers.FillFromEmpty | main.py:145-157 | from empty with capacity N: N-1 calls send nothing and keep N-1 records; N calls send exactly one batch of those N records and leave the buffer empty |
| Analytics.GameAnalytics.constructor | main.py:38-60 | fields set from the arguments; a set event url is kept as given and an unset one becomes base/v2/game_key/events; both buffers and both logs start empty, so `Logged()` holds |
| Analytics.GameAnalytics.SendEvent | main.py:108-118 | logs exactly the given batch and the request `Wire.SendEvent` builds for it, returns that request, and keeps `Logged()` |
| Analytics.GameAnalytics.LoggedBatchesAreSigned | main.py:108-118 | while `Logged()` holds, every logged request went to the event url, its body is gzip(utf8(quote-swapped dump of its batch)), and its authorization is Base64(HMAC-SHA-256(secret, body)) over exactly that body |
| Analytics.GameAnalytics.StoreEvents | main.py:145-157 | a `design` record steps the design buffer by `Append`; any other category steps the business buffer; the other buffer is unchanged; the log grows by the flushed batch; the bound below capacity and `Logged()` are preserved |
| Analytics.GameAnalytics.EventBusiness | main.py:159-171 | deactivated: no change, no send; unknown name: UnknownEventId and no change; otherwise the record built from the merged fields steps the business buffer; `Logged()` is preserved |
| Analytics.GameAnalytics.EventDesign | main.py:173-184 | deactivated: no change and the caller's map untouched; unknown name: UnknownEventId and no change; otherwise the built record steps the design buffer; the caller's map comes back time-stamped once validation passed; `Logged()` is preserved |

`Analytics.TwoDesignEventsScenario` is a client of these contracts. Design capacity
is 2 and two events arrive, "one" and "two". The first stays buffered. The second
sends one batch of two records, the first being the `coin:one` record, and empties
the buffer.

Repeated `StoreEvents` calls for one category compose as `Buffers.Run` folds: each
call steps that buffer by `Append` and extends `sent` by what it flushed. So the
lemmas about `Run` (`RunConservesRecords`, `RunStaysBelowLimit`, `FillFromEmpty`)
describe any number of calls. At the class level only the two-call scenario is
written out.

## Left out

- HTTP transport: `requests.session().post` is replaced by the ghost logs `sent` and
  `posted`. `SendEvent` returns the request instead of the response. A post that
  raises, which in the code skips `storage.clear()`, is not modelled.
- Dictionary insertion order: a record is an unordered `map`, and `Wire.Codec.repr`
  maps a list of records to text. In Python, key order is fixed by the merge at
  main.py:143 and `str()` prints keys in that order. The model forces two records
  with equal keys and values to produce the same text, which Python does not promise.
  No proved property depends on key order.
- Loading the event table from `events_name.json` (main.py:62-65): this is file I/O,
  so the table is a constructor parameter. In the code, `__init__` reads
  `EVENT_FILE_PATH` before setting it (main.py:50 vs main.py:57). Construction as
  written would fail. The model does not reproduce that failure.
- The singleton accessor `game_analytics` (main.py:67-71): global mutable state.
- Buffer sharing: the Python buffers are class attributes shared by all instances
  (main.py:31-32). Here they are fields of one object and start empty.
- Library internals: `str()` of a list of dictionaries, UTF-8 encoding, gzip
  (RFC 1952), HMAC-SHA-256 (RFC 2104, FIPS 180-4) and Base64 (section 4 of RFC 4648)
  are the injected functions of `Wire.Codec`. Their properties are not modelled,
  including gzip being lossless and signature collision resistance.
- The gzip timestamp: `gzip.GzipFile` at main.py:76 is built without `mtime`, so
  Python writes the current time into the gzip header. The body and its signature
  therefore depend on when the batch is sent. `Wire.Codec.compress` is a fixed
  function of the bytes, so the model posts two equal batches with identical bodies
  and identical signatures, which the code does not do.
- `datetime.now` and `uuid4` are nondeterministic, so the timestamp and session id
  are parameters.
- The unused `_authorization` (main.py:88-93).
- `custom_field=None` in `event_design`: that default crashes at main.py:129, so the
  map is required.
- Python's dynamic values: a record value is a string or an integer. The
  `amount`, `currency` and `transaction_num` arguments are such values.
- Aliasing of the caller's dictionary: the in-place stamp is returned as a new map
  value (`customFieldAfter`), not shared.
- Concurrency: none in the code.
