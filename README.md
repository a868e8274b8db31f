# polli.live session store, modelled in Dafny

polli.live is a small page-sharing broker. A host publishes an HTML page into a
named session. Viewers read that page and post short text responses back. The host
polls those responses with a cursor. All state lives in one in-memory store, a map
from session name to session record, behind a single lock. A periodic cleanup task
keeps the store's memory under a ceiling.

This project models that store and every operation that reads or changes it:

- the identifier validators for session names, user names and access tokens;
- the error type and its HTTP status codes;
- the session record's lifecycle: `new`, `update` and `session_used`;
- each route's critical section: page write with ownership takeover, page read,
  response submission, and response polling;
- one tick of the cleanup task, with its memory estimate;
- the session bootstrap loop, with its random name and token generators.

Modelling choices:

- Strings are their UTF-8 bytes (`Common.Bytes`), so a length is Rust's `len()`.
- Time is an integer number of milliseconds (`now`), passed in by the caller.
  Durations and size limits are the fields of `Config.Settings`.
- `Config.DefaultSettings` holds the defaults of `src/settings.rs`.
- `Store.State` is a class with two fields that the operations reassign:
  - `sessions`, the session map;
  - `capacity`, the map's allocated capacity.
- A session record (`Store.SessionState`) is a value, because the map owns it and
  nothing else refers to it. The record also keeps its response map's capacity,
  since the memory estimate counts allocated capacity.
- `SessionState.Valid` is the store's invariant, and every operation preserves it:
  - a map never holds more entries than its capacity;
  - every response is numbered below the session's counter;
  - no two responses share a number.
- Routes that return immediately are one method each. `get_responses` releases the
  lock while it waits, so it is split into three parts:
  - `PollBegin`, the first critical section, which decides whether to wait;
  - `OtherRequests`, whatever other requests and the cleanup task do during the gap.
    Its only promise is that the store stays well formed;
  - `PollScan`, the second critical section.
- The self-request that claims a new session is an oracle. So are the random digits
  and random bytes. All three are indexed by attempt number.

Module `Scenarios` replays the request sequences of `src/tests.rs` against the route
models:

- create and read a page;
- read an unknown session;
- write twice with the same token;
- a second token refused;
- one response polled from cursor 0.

It adds one more scenario: a takeover after the token timeout. Each of these methods
verifies only if the route contracts alone fix the results that src/tests.rs asserts. The pages
are parameters: each scenario holds for every page of acceptable size without `<`,
the tests' own pages among them.

Five behaviours of the code that are easy to miss, all of which the model keeps:

- **Strict takeover window.** A different token is refused while
  `last_request + token_timeout > now`, so the takeover happens exactly at the
  boundary (src/routes/set_page.rs:44).
- **Reading a page is not activity.** The page read does not refresh `last_request`
  (src/routes/get_page.rs:18-22).
- **`update` keeps the counter.** Replacing the page clears the responses but keeps
  `next_response_id` (src/state.rs:50-54).
- **Tier 1 drops unread responses.** Under memory pressure, Tier 1 keeps only
  responses that were received and are younger than 30 s. An unread response is
  therefore dropped too, not only stale received ones (src/cleanup.rs:31-33).
- **A takeover wakes no old viewers.** The takeover replaces the whole record, page
  notifier included, and then fires the new notifier. Viewers waiting on the old
  notifier are not woken and wait until their long-poll times out
  (src/routes/set_page.rs:47-53). The model shows this only as the `notified` result.

## Model

| member | source | states |
|---|---|---|
| SessionIds.FromString | src/session_id.rs:9-15 | succeeds exactly for 1 to 100 bytes and then wraps the input unchanged; every failure is `BadSessionID` |
| SessionIds.Revalidate | src/session_id.rs:9-14 | validating the text of a valid session name again gives the same name |
| UserIds.FromString | src/user_id.rs:9-15 | succeeds exactly for 1 to 100 bytes and then wraps the input unchanged; every failure is `BadUserID` |
| UserIds.Revalidate | src/user_id.rs:9-14 | validating the text of a valid user name again gives the same name |
| AccessTokens.FromString | src/access_token.rs:9-15 | succeeds exactly for 10 to 100 bytes and then wraps the input unchanged; every failure is `BadAccessToken` |
| AccessTokens.MalformedTokenIsUnauthorized | src/access_token.rs:10-11 | a token of the wrong length is answered with 401 |
| Errors.StatusCode | src/errors.rs:25-35 | 400 exactly for the two bad-name errors; 401 exactly for a bad token; 404 exactly for an unknown session; 413 exactly for the two size errors; a 5xx code only for `ServerError`, and that code is 500 |
| Common.Find | src/routes/set_page.rs:28 | yields an index exactly when the pattern occurs; the index is the first occurrence |
| Store.NewSession | src/state.rs:38-48 | a fresh record holds the given owner and page, has no responses, starts its counter at 0, is stamped `now`, and is valid |
| Store.SessionUsed | src/state.rs:56-58 | only the activity time changes, to `now`; validity is unaffected |
| Store.Update | src/state.rs:50-54 | the page is replaced and the responses are cleared; owner, counter and allocated capacity are kept; time is `now`; the result is valid |
| Store.GrowTo | src/routes/set_page.rs:38-40 | a hash map insert never shrinks the capacity, leaves room for every entry, and does not grow a map that still has room |
| Store.State.constructor | src/state.rs:15-18 | the store starts with no sessions and no allocation |
| GetPage.GetPageRoute | src/routes/get_page.rs:13-24 | a malformed name, and only that, gives `BadSessionID`; otherwise the page is found exactly when the session exists, and it is the stored page |
| SetPage.InjectBeforeHead | src/routes/set_page.rs:28-33 | with no `</head>` the page is unchanged; otherwise the injection is inserted exactly at the first `</head>` |
| SetPage.NoHeadStoredVerbatim | src/routes/set_page.rs:28-29 | a page without `<` is stored exactly as sent |
| SetPage.CheckRequest | src/routes/set_page.rs:21-26 | the request is accepted exactly when the token, the name and the page size are all acceptable; errors come in order: token first, then name, then size |
| SetPage.SetPageRoute | src/routes/set_page.rs:15-57 | a rejected request changes nothing and notifies no one. A new name creates the session and does not notify. The owner's token updates the session and notifies unless `notify=false`. Another token is refused with `BadAccessToken` until `last_request + token_timeout > now` fails, and then replaces the record and notifies unless `notify=false`. Reading back returns the stored page. Every other session is unchanged |
| PostRespond.CheckRequest | src/routes/post_respond.rs:21-26 | the request is accepted exactly when the session name, user name and data size are all acceptable; errors come in order: session, then user, then size |
| PostRespond.PostRespondRoute | src/routes/post_respond.rs:16-50 | a rejected request returns the first failing check's error and changes nothing; an unknown session gives `SessionIDDoesNotExist` and changes nothing; on success exactly that session's record becomes `Submit` of it, and every other session and the map's capacity are unchanged |
| PostRespond.Submit | src/routes/post_respond.rs:32-44 | the record after a submission holds the user's entry with the data, numbered with the counter's old value, unread, at `now`; every other user's entry is unchanged and no entry disappears; the counter moves up by exactly one; the session is stamped `now`; page and owner are kept; the map's capacity never shrinks |
| PostRespond.SubmitKeepsValid | src/routes/post_respond.rs:32-43 | numbering the new entry with the counter and then advancing the counter keeps every number unique and below the counter |
| PostRespond.ResubmitReplaces | src/routes/post_respond.rs:35-43 | a second submission by the same user replaces the first, so a session holds at most one entry per user |
| GetResponses.Delivered | src/routes/get_responses.rs:54-62 | the reply holds exactly the users whose entry is numbered at or after the cursor, each with that entry's data |
| GetResponses.MarkSkipped | src/routes/get_responses.rs:54-58 | the same users, numbers and data; an entry is flagged received exactly when it already was or is numbered below the cursor |
| GetResponses.MarkSkippedIdempotent | src/routes/get_responses.rs:54-58 | a second poll with the same cursor marks nothing new |
| GetResponses.MarkingKeepsDelivered | src/routes/get_responses.rs:54-62 | marking does not change what a poll with the same or a higher cursor returns |
| GetResponses.DeliveredShrinks | src/routes/get_responses.rs:54-62 | a higher cursor never returns more users |
| GetResponses.MarkSkippedKeepsValid | src/routes/get_responses.rs:45-62 | the scan keeps the session's invariant |
| GetResponses.PollBegin | src/routes/get_responses.rs:25-37 | a malformed name, and only that, gives `BadSessionID`; an unknown session gives `SessionIDDoesNotExist`; otherwise the request waits exactly when nothing is numbered at or after the cursor and waiting is enabled |
| GetResponses.ScanResponses | src/routes/get_responses.rs:54-62 | the loop's marked map and reply equal `MarkSkipped` and `Delivered` of the session's responses |
| GetResponses.PollScan | src/routes/get_responses.rs:45-65 | a session gone after the wait gives `SessionIDDoesNotExist`. Otherwise the reply is the counter plus the delivered entries, and the session is marked and stamped `now`, with nothing else changed |
| GetResponses.OtherRequests | src/routes/get_responses.rs:39-44 | during the wait the store may change arbitrarily but stays well formed |
| GetResponses.GetResponsesRoute | src/routes/get_responses.rs:21-66 | validation and the first lookup fail without waiting or changing anything, sessions and capacity alike. The request waited exactly when `PollBegin` decided so. The reply and the new sessions follow `PollScan` applied to the store as found after the wait, and the map's capacity stays as found then |
| Sums.SumMapRemove | src/cleanup.rs:63-69 | a sum over a map's entries does not depend on visiting order: any entry can be counted first |
| Sums.SumMapMono | src/cleanup.rs:61-72 | dropping entries, or making terms no larger, never increases the sum |
| Cleanup.CountResponses | src/cleanup.rs:65-67 | the inner loop adds up every response's user-name and data bytes |
| Cleanup.CountUserMemoryUsage | src/cleanup.rs:61-72 | the loop computes the sum of: each session's name, page and token bytes, its responses' bytes, `size_of::<UserResponse>()` times each response map's capacity, and `size_of::<SessionState>()` times the session map's capacity |
| Cleanup.GetMemoryUsageWithSafetyBuffer | src/cleanup.rs:57-59 | the estimate is twice that sum |
| Cleanup.RetainRecent | src/cleanup.rs:17-19 | a session survives exactly when `last_request + window > now`, and survives unchanged |
| Cleanup.KeepReceivedRecent | src/cleanup.rs:31-33 | a response survives exactly when it was received and is younger than 30 s, and survives unchanged |
| Cleanup.FreeResponses | src/cleanup.rs:30-34 | Tier 1 keeps every session, and changes only each session's responses, by the filter above |
| Cleanup.ShrinkResponses | src/cleanup.rs:51-53 | every session is kept, and only its response capacity changes, to its live count |
| Cleanup.FilterEachSession | src/cleanup.rs:30-34 | the per-session loop computes `FreeResponses` |
| Cleanup.FreeReceivedResponses | src/cleanup.rs:30-34 | the store becomes `FreeResponses` of the old store; capacity and validity are kept |
| Cleanup.ShrinkEachSession | src/cleanup.rs:51-53 | the per-session loop computes `ShrinkResponses` |
| Cleanup.ShrinkToFit | src/cleanup.rs:50-53 | every capacity becomes its map's live count; validity is kept |
| Cleanup.CleanupTick | src/cleanup.rs:13-53 | Tier 0 always runs. The tick stops after Tier 0 if the estimate is below the ceiling, after Tier 1 if that reached it, and otherwise applies the 5 s cutoff and shrinks every map. Every surviving session is within the keep-alive. No session appears and no capacity grows. The estimate never increases |
| Cleanup.RetainRecentIdempotent | src/cleanup.rs:17-19 | a second expiry sweep at the same time removes nothing |
| Cleanup.FreeResponsesIdempotent | src/cleanup.rs:30-34 | a second Tier-1 pass at the same time removes nothing |
| Cleanup.RetainKeepsValid | src/cleanup.rs:17-19 | dropping sessions keeps the session map within its capacity |
| Cleanup.FilterKeepsValid | src/cleanup.rs:31-33 | filtering one session's responses keeps its invariant |
| Cleanup.FreeKeepsValid | src/cleanup.rs:30-34 | Tier 1 keeps the store's invariant |
| Cleanup.ShrinkKeepsValid | src/cleanup.rs:50-53 | shrinking keeps every session's invariant |
| Cleanup.RetainEstimate | src/cleanup.rs:17-19 | dropping sessions never increases the counted bytes |
| Cleanup.FreeEstimate | src/cleanup.rs:30-34 | Tier 1 never increases the counted bytes |
| Cleanup.ShrinkEstimate | src/cleanup.rs:50-53 | shrinking to the live sizes never increases the counted bytes |
| Cleanup.ShrinkSessionEstimate | src/cleanup.rs:52 | shrinking one session's response map to its live size never increases that session's counted bytes |
| InitSession.HexEncode | src/routes/post_init_session.rs:83 | `hex::encode` gives two lowercase hex digits per byte |
| InitSession.HexDecode | src/routes/post_init_session.rs:83 | a successful decode halves the length (the inverse of the encoding) |
| InitSession.HexRoundTrip | src/routes/post_init_session.rs:83 | decoding an encoding gives the original bytes back |
| InitSession.HexEncodeAt | src/routes/post_init_session.rs:83 | byte `i` is encoded at positions `2i` and `2i+1`, high nibble first |
| InitSession.MakeRandomSessionID | src/routes/post_init_session.rs:71-76 | exactly `length` ASCII decimal digits, the drawn ones |
| InitSession.RandomBytes | src/routes/post_init_session.rs:79-82 | the token buffer holds 32 bytes |
| InitSession.MakeRandomAccessToken | src/routes/post_init_session.rs:78-84 | the token is the hex encoding of the 32 random bytes, 64 characters long, decodes back to those bytes, and is a valid access token |
| InitSession.MakeCandidate | src/routes/post_init_session.rs:64-65 | a generated candidate pairs the drawn decimal name with the hex encoding of the drawn token bytes |
| InitSession.PostInitSessionRoute | src/routes/post_init_session.rs:19-69 | between 1 and 5 claims are made, and every claim before the last got a non-200 status. The result is Ok exactly when the last claim got 200, and is then the claimed name and token. Otherwise it is `ServerError`, because the last claim hit a transport error or all 5 were refused. On the reply alone: a first claim answered 200 returns the first candidate, and a first claim that fails in transport returns `ServerError`; five refusals give `ServerError`; any Ok is a candidate that some attempt got 200 for. The first candidate is the request body when that parses |
| InitSession.IdLengthSchedule | src/routes/post_init_session.rs:59-64 | names have 6 digits for the first four attempts and 7 for the fifth |
| InitSession.GeneratedCandidateShape | src/routes/post_init_session.rs:64-65 | a generated candidate is a valid session name of `IdLength(k)` decimal digits, with a valid 64-digit hex token that decodes to that attempt's random bytes |
| Scenarios.OnlyResponseDelivered | src/tests.rs:243-251 | a session holding one unread response numbered 0 delivers exactly that user's data from cursor 0 |

## Left out

- HTTP wiring (actix routing, query and body extraction, JSON encoding of replies) is
  not modelled. Routes take their inputs as byte strings.
  - A missing bearer header, which actix rejects with 401 before the route runs
    (`set_page_without_token`), is outside the model.
- Concurrency is not modelled: the mutex, the notifiers and the `tokio::select!` race.
  Each critical section is one method.
  - SetPage.SetPageRoute returns whether the page notifier fires, as `notified`.
  - PostRespond.PostRespondRoute always fires the response notifier on success, and
    does not say so in its result.
  - GetResponses.GetResponsesRoute: the wait and everything other requests do
    meanwhile are `OtherRequests`, which promises only validity.
- `src/routes/get_wait_for_page.rs` is not part of this model. It is only a lookup
  plus a notify-or-timeout race.
- Static files are not part of this model. `SetPage.InjectionHtml` stands in for the
  injection file's text. The placeholder page and the initial session page are not
  represented.
- The clock is not modelled. A critical section may read the clock more than once
  (the takeover path at src/routes/set_page.rs:44 and in `SessionState::new`; a
  submission for the entry's `time` and in `session_used`). The model uses a single
  reading `now` for all of them, so a new response's `time` always equals the
  session's `lastRequest`.
- Randomness and the self-request are oracles, `DigitSource`, `ByteSource` and
  `ClaimOracle`, so the model makes no claim about how likely a name collision is.
  - The claim is made as a `POST /page` with `notify=false`. Its reply comes from the
    oracle, not from the SetPage model.
  - The URL for the claim inserts the session name unescaped next to the `root_url`
    setting. That is not modelled.
- InitSession.MakeRandomAccessToken: a failure of `getrandom::fill` and the panic that
  follows it (src/routes/post_init_session.rs:80-81) are not modelled; `ByteSource`
  always yields bytes.
- JSON parsing of the bootstrap body is not modelled: InitSession.PostInitSessionRoute
  receives the parsed body, or `None` when it does not parse.
- Store.GrowTo gives a map exactly enough room on insert. Rust's growth policy is not
  modelled.
  - The properties proved need only that capacity never shrinks on insert and leaves
    room for every entry.
  - Cleanup.ShrinkToFit sets each capacity to exactly the live count. Rust promises
    only at least that much.
- `size_of::<UserResponse>()` and `size_of::<SessionState>()` are the parameter
  `Cleanup.Layout`.
- Cleanup.CountUserMemoryUsage: integers are unbounded, so `usize` overflow of the
  running sum, and the panic in `multiply(2).unwrap()`, are not modelled.
- The cleanup task's own loop and its `interval` timer are not modelled. The model
  covers one tick.
- Settings are parameters. The server's `root_url` setting is not part of this model.
