# Cloudflare bulk zone deleter: a Dafny model of its decision logic

The tool lets a user paste up to ten domain names and deletes the matching
Cloudflare zones one after another. The model covers the two files that make
those decisions:

- **The API client** (`cloudflare_client.py`, module `CloudflareClient`):
  - the credential check at construction and the trimmed base URL;
  - the authentication headers: a bearer token (section 2.1 of RFC 6750) or the legacy email and key pair;
  - the `_request` loop. It retries on HTTP 429 "Too Many Requests" (section 4 of RFC 6585), waiting for the Retry-After value (section 10.2.3 of RFC 9110) or else an exponential backoff capped at 30 seconds;
  - fail-fast handling of the other error statuses;
  - `_format_error_message`;
  - the exact, case-insensitive zone lookup of `get_zone_by_name`;
  - the reading of the `success` flag in `delete_zone`.
- **The batch front end** (`app.py`, module `App`):
  - `MAX_BATCH` and `load_credentials`;
  - `_parse_domains`;
  - the checks `on_delete` makes before starting a batch;
  - the `_delete_worker` loop, with its per-item exception handling, completion count, progress calls and one-second pacing floor;
  - the ETA and label of `_update_progress`.
- **Python string semantics** the two files depend on: `str.strip()`, `str.rstrip("/")`, `str.lower()`, `str.splitlines()`, `str.join()` and `str()` of an integer (module `PyText`).
- `Option` and `Result` live in module `Wrappers`.

How I/O is modelled:
- The HTTP transport is a parameter: a function from the attempt number to what the transport did on that attempt. An attempt either answers with a `Response` or raises.
- `_request` returns its result, the list of sleeps it made and the request it sent on each attempt.
- The worker gets one `ItemScript` per domain, saying what its lookup and deletion return and how long they take. The clock is an integer count of milliseconds.
- The worker returns four things:
  - its log as a list of `LogEntry` values;
  - the `_update_progress` calls it schedules;
  - each item's pacing sleep;
  - its final count and clock.
- Loops in the source are loops here, each proved against a recursive specification function:
  - `Request` against `Attempts`;
  - `FormatErrorMessage` against `ErrorText`;
  - `SearchZones` against `FirstMatchIndex`;
  - `FirstOccurrences` against `Dedup`;
  - `DeleteWorker` against `WorkerLog`, `Progress`, `Pauses` and `Elapsed`.
- The lemmas derive what the source promises from those functions.

The client's test for an error response is requests' `Response.ok`, which is false only for statuses 400 to 599 (`CloudflareClient.IsOk`). So a 1xx, a 3xx or a status of 600 or more that reaches the client is returned as a body.

## Model

| member | source | states |
|---|---|---|
| CloudflareClient.NewClient | cloudflare_client.py:21-31 | construction succeeds iff there is a non-empty token or both a non-empty email and key; otherwise it fails with the exact ValueError text; the stored base URL is the given one with all trailing slashes cut, and the other fields are kept |
| CloudflareClient.TrailingSlashesIrrelevant | cloudflare_client.py:24 | a base URL followed by any run of slashes yields the same request URL as the bare base, which is the rstripped base followed by the path |
| CloudflareClient.Headers | cloudflare_client.py:33-43 | Content-Type is application/json; with a token the keys are exactly Authorization and Content-Type, otherwise exactly X-Auth-Email, X-Auth-Key and Content-Type |
| CloudflareClient.HeadersCarryCredentials | cloudflare_client.py:33-43 | the headers of a valid client carry exactly one authentication mode, and it is the client's own: "Bearer " plus the token when a token is set, else the email and key |
| CloudflareClient.FormatErrorMessage | cloudflare_client.py:91-101 | the loop yields the entries joined by "; " when errors is non-empty, else str() of the body; the status argument plays no part |
| CloudflareClient.SingleEntryMessage | cloudflare_client.py:93-99 | a body with one error entry yields exactly that entry's rendering |
| CloudflareClient.MessageOfSeveralEntries | cloudflare_client.py:93-99 | with two or more entries the message is the first rendering, "; ", then the message of the remaining entries |
| CloudflareClient.SynthesizedBodyMessage | cloudflare_client.py:79-83 | an error reply whose body is not JSON is described by its raw text |
| CloudflareClient.LockedZoneMessage | cloudflare_client.py:93-99 | the entry code 1003 with message "locked" renders as "1003: locked" |
| CloudflareClient.BackoffClosedForm | cloudflare_client.py:74 | the backoff before retry k is min(2^k, 30), so it always lies between 1 and 30 |
| CloudflareClient.Copies | cloudflare_client.py:56-63 | n copies of a request: length n, every element that request |
| CloudflareClient.Request | cloudflare_client.py:45-88 | the `_request` loop returns the result and the sleeps of `Attempts` from attempt 0 with backoff 1; it sends the same request (trimmed URL, the client's headers, the params and the body) on each of its 1 + number-of-sleeps attempts |
| CloudflareClient.AttemptsStep | cloudflare_client.py:65-75 | a 429 with retries left sleeps for the Retry-After value or the current backoff, then retries with min(2 * backoff, 30) |
| CloudflareClient.AttemptsDone | cloudflare_client.py:65-88 | a reply that is not a 429 settles the request with no further sleep; a 429 with no retries left raises the rate-limit error with no sleep |
| CloudflareClient.Finish | cloudflare_client.py:77-88 | an attempt that is not rate limited ends as an escaping transport exception, the HTTP error composed from the body (or from the raw text), or the parsed body |
| CloudflareClient.AttemptsSleeps | cloudflare_client.py:53-75 | from any attempt with its backoff, there are at most retries-left sleeps; each follows a 429 at its own attempt and lasts that reply's Retry-After value or else that attempt's backoff |
| CloudflareClient.AttemptsEnd | cloudflare_client.py:65-88 | from any attempt, the attempt after the last sleep decides: a 429 there comes after exactly retries-left sleeps and raises "Rate limited and max retries exceeded"; anything else settles the request |
| CloudflareClient.RequestSleeps | cloudflare_client.py:53-75 | the k-th sleep of a request follows a 429 on attempt k and lasts its Retry-After value or else the k-th backoff; there are at most max_retries sleeps |
| CloudflareClient.RequestEnd | cloudflare_client.py:65-88 | a request that meets a 429 after its last sleep has made exactly max_retries sleeps and raises as rate limited; otherwise it ends as that attempt settles |
| CloudflareClient.SleepsWithoutRetryAfterAreCapped | cloudflare_client.py:66-74 | every sleep follows a 429, and a sleep without Retry-After lasts between 1 and 30 seconds |
| CloudflareClient.TwoRateLimitsThenSuccess | cloudflare_client.py:53-88 | replies 429, 429, 200 without Retry-After give sleeps [1, 2] and return the 200 body |
| CloudflareClient.SixRateLimitsRaise | cloudflare_client.py:65-75 | with the default of 5 retries, six 429s without Retry-After raise after sleeps [1, 2, 4, 8, 16] |
| CloudflareClient.ErrorStatusFailsFast | cloudflare_client.py:78-86 | an error status other than 429 raises at once with no sleep, with the text "HTTP status for method path: message" |
| CloudflareClient.FirstMatchIndex | cloudflare_client.py:111-113 | the index of the first zone whose lower-cased name is the key, or the list length when none matches |
| CloudflareClient.FirstMatch | cloudflare_client.py:103-114 | None iff no zone's lower-cased name equals domain.strip().lower(); otherwise the first zone that does |
| CloudflareClient.MatchIsExact | cloudflare_client.py:112 | a returned zone's name has the stripped domain's length and equals it letter by letter up to case |
| CloudflareClient.LookupIgnoresPadding | cloudflare_client.py:105 | white space around a domain does not change the key it is looked up by |
| CloudflareClient.SubdomainNotReturned | cloudflare_client.py:111-114 | a zone whose name is longer than the stripped domain, such as sub.a.com for a.com, is never returned |
| CloudflareClient.ExactZoneAfterSubdomain | cloudflare_client.py:111-114 | a listing that puts a subdomain before the exact zone still returns the exact zone |
| CloudflareClient.SearchZones | cloudflare_client.py:111-114 | the search loop with early return finds None iff no zone matches, else the first zone that does |
| CloudflareClient.GetZoneByName | cloudflare_client.py:103-114 | a GET /zones request with the query name = stripped, lower-cased domain, match = all, per_page = 50, sent on each attempt; its failure propagates, and otherwise the result is the first exact match among the body's results |
| CloudflareClient.DeleteVerdict | cloudflare_client.py:118-123 | the verdict is true iff the body is an object whose success is truthy; then the message is "Deleted", otherwise the composed error message |
| CloudflareClient.DeleteZone | cloudflare_client.py:116-123 | a DELETE /zones/id request without query or body, sent on each attempt; its failure propagates, and otherwise a success flag of false is returned, not raised |
| CloudflareClient.LockedZoneIsReturnedFailure | cloudflare_client.py:116-123 | HTTP 200 with success false and error 1003 "locked" returns (false, "1003: locked") |
| PyText.SkipSpace | cloudflare_client.py:105 | the first position at or after i that is not white space, with everything skipped white space |
| PyText.Strip | app.py:102 | str.strip() is the slice between the leading and the trailing white space, and neither of its ends is white space |
| PyText.StripStripped | app.py:102 | strip() leaves a string without outer white space unchanged, so it is idempotent |
| PyText.StripKeepsNoLineBreak | app.py:102 | stripping a line keeps it free of line boundaries |
| PyText.StripPadding | app.py:102 | white space around a stripped string is exactly what strip() removes |
| PyText.StripIgnoresPadding | cloudflare_client.py:112 | any white space around a string leaves its strip() unchanged |
| PyText.RStripChar | cloudflare_client.py:24 | rstrip("/") leaves a prefix, not ending in "/", and everything cut was "/" |
| PyText.RStripCharAppended | cloudflare_client.py:24 | one more trailing "/" does not change what rstrip("/") leaves |
| PyText.RStripCharPadded | cloudflare_client.py:24 | any run of trailing "/" added to a string does not change what rstrip("/") leaves |
| PyText.Lower | cloudflare_client.py:112 | lower() keeps the length and maps each character by itself |
| PyText.SplitLines | app.py:102 | no line that splitlines() yields holds a line boundary |
| PyText.SplitJoinLines | app.py:102 | non-empty lines without boundaries, joined by "\n" and split again, come back unchanged |
| PyText.NatToString | cloudflare_client.py:85 | str() of a natural number is a non-empty string of decimal digits, without a leading zero unless it is "0" itself |
| PyText.NatToStringRoundTrip | cloudflare_client.py:85 | reading str(n) back as decimal digits gives n |
| App.LoadCredentials | app.py:18-25 | all three values are None iff there is no token and not both an email and a key; otherwise they are returned unchanged |
| App.StartupClient | app.py:34-42 | at start-up the app has a client iff the environment holds usable credentials, and the client carries them with the default of 5 retries |
| App.NonBlank | app.py:103 | the items kept are exactly the non-empty ones |
| App.NonBlankSingle | app.py:103 | a single item is kept iff it is non-empty |
| App.NonBlankAppend | app.py:103 | the filter of a concatenation is the concatenation of the filters, so it keeps the order of the items |
| App.NonBlankKeepsNonEmpty | app.py:103 | a list with no empty item passes the filter unchanged |
| App.FirstOccurrences | app.py:105-111 | the seen-set loop returns the first occurrence of each item, in order |
| App.ParseDomains | app.py:100-111 | the parsed list has no duplicates, holds exactly the stripped non-blank lines, and each of its elements is non-empty, stripped and free of line boundaries |
| App.DedupElements | app.py:105-110 | de-duplication keeps exactly the items it is given |
| App.DedupNoDuplicates | app.py:105-110 | de-duplication leaves no item twice |
| App.DedupKeepsDistinct | app.py:105-110 | a list without duplicates is its own de-duplication |
| App.FirstIndexExtend | app.py:105-110 | appending an item does not move the first occurrence of items already present |
| App.DedupFirstOccurrenceOrder | app.py:104-111 | the output lists items in the order of their first occurrences in the input |
| App.CandidateFacts | app.py:102-103 | every candidate is non-empty, stripped and free of line boundaries |
| App.ParseIdempotent | app.py:101-111 | parsing the parsed list joined by newlines gives the same list |
| App.CandidatesOfLines | app.py:102-103 | non-empty, stripped lines without line boundaries, joined by "\n", come back as the candidate list unchanged |
| App.DedupExample | app.py:104-111 | a.com, b.com, a.com becomes a.com, b.com |
| App.RepeatedLineExample | app.py:101-111 | the text "a.com\nb.com\na.com" parses to a.com, b.com |
| App.Validate | app.py:113-136 | the batch starts iff the list is non-empty, holds at most MAX_BATCH items, a client exists and the user confirms; the checks run in that order, and each has its own outcome |
| App.OnDelete | app.py:113-136 | on_delete decides exactly as the checks say, on the parsed text |
| App.BatchLimit | app.py:118-123 | ten domains start a batch, eleven are rejected whatever the client and the answer |
| App.EtaSeconds | app.py:204-208 | the ETA is the floor of elapsed × max(total − completed, 0) / completed, in seconds, and 0 once every item is done |
| App.FloorOfQuotient | app.py:208 | int() of a non-negative quotient is integer division |
| App.MinutesSeconds | app.py:209 | %M:%S of a number of seconds: five characters, a colon in the middle, two digits reading the minutes within the hour and two reading the seconds |
| App.UpdateProgress | app.py:201-213 | the bar shows the completed count; before any item is done the label is "0/total completed.", afterwards "completed/total completed. ETA: " and the MM:SS rendering of the ETA in seconds |
| App.EtaAtEnds | app.py:204-212 | when all items are done the label ends in "ETA: 00:00"; at 0 it has no ETA |
| App.ProcessItem | app.py:155-172 | one item's lookup, its deletion only when a zone was found, and the handler that logs a caught CloudflareAPIError or other exception; the clock advances by the calls' duration |
| App.ProgressAndPauses | app.py:173-179 | item k's progress call reports k + 1 of total with the time since the start, and its pacing sleep tops its calls up to one second |
| App.WorkerStep | app.py:153-179 | how the worker's log, progress calls, sleeps and elapsed time grow by one item |
| App.DeleteWorker | app.py:150-184 | the loop ends with completed equal to the number of domains and the log ending in "All done"; the progress calls report 1, 2, …, n of n; the sleeps and the final clock are as the specification functions say |
| App.PacedBatchDuration | app.py:177-179 | with pacing each item takes at least one second, so n items take at least n seconds |
| App.PacingExamples | app.py:177-179 | an item done in 200 ms sleeps 800 ms; one that took 1500 ms does not sleep |
| App.ProjectAppend | app.py:153 | reading a log is compatible with concatenation |
| App.FinalEntryOutcome | app.py:158-172 | an item's last log line is exactly its outcome, and is neither a lookup nor a deletion |
| App.ItemProjection | app.py:155-172 | reading an item's log gives the lookup line, the deletion line when a zone was found, then the final line |
| App.WorkerProjectionStep | app.py:153 | reading the worker's log reads the items' logs in order |
| App.Numbered | app.py:153-155 | the expected lookups: position k + 1 with the k-th domain |
| App.Outcomes | app.py:156-172 | the expected outcome of each item, in order |
| App.ItemVisit | app.py:155 | an item's log shows exactly one lookup: its position and its domain |
| App.ItemOutcome | app.py:156-172 | an item's log shows exactly one outcome, the one its calls lead to |
| App.ItemDeletes | app.py:157-164 | an item's log shows a deletion of the found zone's id when its lookup found a zone, and none otherwise |
| App.VisitsInOrder | app.py:153-155 | the worker looks up every domain exactly once, in list order, numbered from 1 |
| App.ProjectByItems | app.py:153-175 | reading the whole log gives each item's reading, one item after another |
| App.OneOutcomePerDomain | app.py:156-175 | every domain gets exactly one outcome, in list order, whatever its calls did |
| App.DeletesOnlyFoundZones | app.py:157-164 | deletions are attempted exactly for the items whose lookup found a zone, in order, and with that zone's id |
| App.FailureIsolation | app.py:169-175 | a lookup that raises becomes that item's Error outcome, and every domain is still looked up and given an outcome |

## Left out

- The tkinter window, dialogs, `root.after` callbacks and log pane are presentation only. `on_delete`'s effects after confirmation are folded into the `StartWorker` decision: disabling the widgets, resetting the bar and starting the thread.
- The worker thread is not modelled. `_delete_worker` runs as a plain sequential method.
- The `requests` transport, its timeout and JSON decoding are not modelled. A reply carries its body already parsed or the reason parsing failed. The timeout is stored and never used.
- `load_dotenv` and `os.getenv` are not modelled. The three environment values are parameters.
- `time.time`, `time.sleep` and `time.strftime`:
  - the clock is an integer count of milliseconds;
  - a sleep is recorded as its duration;
  - `%M:%S` is rendered from whole seconds.
- The log lines' wording and timestamps are not modelled. Each line is a `LogEntry` value carrying the same data.
- CloudflareClient.Response: Retry-After is an already parsed whole number of seconds. A value that `float()` cannot parse, or a fractional one, is not modelled. Nor are parseable values that `time.sleep` rejects: a negative value, `inf` or `nan` would raise ValueError or OverflowError at the sleep. An empty header counts as absent, as Python's truthiness test makes it. Backoff values stay whole numbers (1, 2, 4, …, 30), so whole seconds lose nothing there.
- CloudflareClient.Data: `str(data)` is an opaque `repr` string carried by the body. The synthesized body's `repr` is never used, because that body always holds one error entry.
- CloudflareClient.ErrorEntry: an error code is an integer and a message a string or None. Codes of other JSON types, non-list `errors` values and entries that are not objects are not modelled.
- CloudflareClient.Zone: a zone whose `name` is JSON null or not a string is not modelled; the code would raise on `.lower()` there. Nor is a listing whose "result" is null or not a list, or holds entries that are not objects. The lookup would then raise a TypeError or AttributeError, which the worker logs as an unexpected error. An absent name is the empty string, as `z.get("name", "")` gives.
- App.ItemScript: the lookup result is `Option<Zone>`. So a zone object that is an empty dict, which the worker's `if not zone` would also treat as not found, is not modelled separately.
- PyText.Lower: only ASCII letters are lower-cased. Python's `str.lower()` also maps other Unicode letters.
- App.EtaSeconds: elapsed time is a whole number of milliseconds, not a float number of seconds. The ETA is computed on reals and floored, so float rounding is left out.
