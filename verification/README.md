# Signup and dashboard handlers, modelled in Dafny

The repository is two serverless HTTP handlers for an email-signup funnel
that runs ad experiments:

- `netlify/functions/subscribe.js` accepts a signup (an email and an optional
  ad variant) and relays it to the mailing-list provider, adding the
  subscriber to a fixed group.
- `netlify/functions/dashboard-api.js` serves a dashboard. `?action=stats`
  lists every subscriber of the group (cursor pagination), buckets them by
  their `ad_variant` field, and reports per-variant counts and rates together
  with the welcome automation's figures. `?action=test-pipeline` runs five
  health checks of the deployed funnel.

The model replaces every network call with its outcome, given as an input:
- the sequence of listing responses;
- the automation answer;
- the outcome of each health-check probe (an answer, or the message of the
  error it threw);
- for signups, a function from the payload sent to the provider's answer.

What remains is stated and proved:
- the variant aggregation, as a map-update loop proved against a per-label
  reference count;
- the pagination loop, proved against a reference traversal;
- the stats shaping, with its zero-denominator guards and defaults;
- the health-check assembly and the `action` dispatch;
- the signup decision chain.

Modules: `Common` (optional values, JavaScript truthiness, `res.ok`, decimal
rendering), `Aggregation`, `Pagination`, `Stats`, `Pipeline` and `Dashboard`
for dashboard-api.js, and `Subscribe` for subscribe.js.

The model follows the code in these points, where a reader might expect otherwise:
- The automation health check passes when `enabled === true` and
  `broken !== true`. A missing `broken` field therefore passes; it is not
  required to be strictly false.
- The automation check does not look at the HTTP status of its answer.
- The stats action does not check the key itself. A missing key only reaches
  the provider as a bad credential, and the resulting error status becomes the
  500 response. So `Dashboard.Handle` takes the key only for the health check.
- When the stats action succeeds, the automation's open and click rates are NaN
  (not "0.0") if the sent count is positive and the open or click count is
  missing.
- A variant's open and click rates are not capped at 100%. A subscriber
  counts as opened or clicked without having been sent anything, so two "A"
  subscribers who both opened, only one of whom was sent an email, give an
  open rate of 200%.

## Model

| member | source | states |
|---|---|---|
| Aggregation.AggregateStats | netlify/functions/dashboard-api.js:54-71 | The one-pass loop that creates buckets lazily and bumps them returns exactly the reference table: one bucket per occurring label, holding that label's tally. |
| Aggregation.AggregatedSnoc | netlify/functions/dashboard-api.js:60-67 | Counting one more subscriber changes only its own bucket. A new bucket starts at all zeros, then `count` grows by one and each activity counter grows when the subscriber's matching counter is positive. |
| Aggregation.TallyPresence | netlify/functions/dashboard-api.js:60-64 | A label no subscriber carries has an all-zero tally. A label that occurs has a positive count. |
| Aggregation.TallyBounds | netlify/functions/dashboard-api.js:64-67 | In every tally, opened, clicked and sent are each at most count. |
| Aggregation.AggregatedBuckets | netlify/functions/dashboard-api.js:60-67 | Every bucket of the returned table has count at least one, and its opened, clicked and sent are each at most its count. |
| Aggregation.AggregatedKeys | netlify/functions/dashboard-api.js:58-62 | The table has a bucket for a label iff some subscriber maps to that label. |
| Aggregation.UnknownBucket | netlify/functions/dashboard-api.js:58 | The "unknown" bucket counts exactly the subscribers whose variant is missing or empty, plus those whose variant is literally "unknown". |
| Aggregation.AggregatedTotal | netlify/functions/dashboard-api.js:57-68 | The counts of all buckets add up to the number of subscribers, so every subscriber is counted exactly once. |
| Aggregation.SumCountsRemove | netlify/functions/dashboard-api.js:57-68 | The sum of bucket counts does not depend on the order in which buckets are visited: removing any one bucket removes exactly its count. |
| Aggregation.SumCountsUpdate | netlify/functions/dashboard-api.js:60-64 | Creating or replacing one bucket changes the sum of counts by that bucket's change in count. |
| Aggregation.SumCountsBound | netlify/functions/dashboard-api.js:82-88 | No bucket's count exceeds the sum over the table. |
| Pagination.StopIndex | netlify/functions/dashboard-api.js:23-37 | Finds the response that ends the loop. It is the first one with an error status or without a truthy `next_cursor`, and every earlier response was ok and carried a cursor. |
| Pagination.FetchAllSubscribers | netlify/functions/dashboard-api.js:19-41 | The loop returns the reference traversal: either all pages' data in order up to the final page, or an error with the failing status and no list. It issues exactly one request per response up to the final one. The first request carries no cursor, and each later request carries the previous page's cursor. |
| Pagination.TraverseIgnoresLaterResponses | netlify/functions/dashboard-api.js:33-37 | Responses after the one that ends the loop cannot change the outcome, because no request is made for them. |
| Pagination.StopIndexUnique | netlify/functions/dashboard-api.js:33-37 | An index whose response is final, and whose predecessors are all non-final, is the loop's stop index. |
| Pagination.TraverseFailure | netlify/functions/dashboard-api.js:27-28 | The traversal fails iff the response that ends it has a non-ok status. The error carries that status and no partial list. |
| Pagination.FlattenAppend | netlify/functions/dashboard-api.js:31 | Accumulating page data is concatenation: the data of two runs of pages is the concatenation of each run's data. |
| Pagination.ThreePageExample | netlify/functions/dashboard-api.js:23-40 | Pages [A,B] (with a cursor) then [C] (without) give [A,B,C]. |
| Stats.FetchAutomation | netlify/functions/dashboard-api.js:44-51 | Gives the payload iff the status is 2xx. Otherwise it gives the automation error with that status. |
| Stats.SummarizeVariants | netlify/functions/dashboard-api.js:84-95 | The loop over the table's entries gives each label the summary of its bucket, and gives no other label anything. |
| Stats.HandleStats | netlify/functions/dashboard-api.js:74-124 | Returns the reference stats outcome. A listing failure or an automation failure is returned as that error. Otherwise the result is the total, the summarised buckets and the automation summary. It also covers a listing that never ends while the automation fetch fails: the action then fails with the automation error. |
| Stats.AutomationFailureSettles | netlify/functions/dashboard-api.js:75-78 | When the listing never ends and the automation answer is not 2xx, the stats action still fails, with the automation error. |
| Stats.VariantRateGuards | netlify/functions/dashboard-api.js:86-93 | For every label of the table, the percentage is "0.0" iff the total is zero, and otherwise count / total * 100. The open and click rates are "0.0" iff the bucket's sent is zero. Otherwise they are opened / sent * 100 and clicked / sent * 100. |
| Stats.OpenRateAboveHundred | netlify/functions/dashboard-api.js:64-92 | Two "A" subscribers who both opened, only one of whom was sent an email, give variant "A" an open rate of 200. |
| Stats.RatioBounds | netlify/functions/dashboard-api.js:88 | The ratio of a part to a positive whole is a percentage in [0, 100], and it is positive when the part is. |
| Stats.StatsAllOrNothing | netlify/functions/dashboard-api.js:75-78 | The stats action fails iff either fetch fails, and there are no partial stats. A listing failure is the error reported first. |
| Stats.StatsVariantsBounded | netlify/functions/dashboard-api.js:82-95 | In a successful body, every variant has 0 < count <= total. Its percentage is a value in (0, 100], never the zero-total text. Its sent, opened and clicked are at most its count. |
| Stats.AutomationDefaults | netlify/functions/dashboard-api.js:103-119 | Each field falls back on its own, whatever the other fields are. The name is the record's when truthy and "Unknown" otherwise. `enabled` and `broken` are true iff the record says exactly true. A missing `emails_count` is 0. A missing `stats` gives the empty stats object, zero counters and "0.0" rates. Within a present `stats` object, each missing counter is 0. With every field missing the summary is "Unknown", false, false, empty stats, zeros and "0.0" rates. |
| Stats.AutomationRates | netlify/functions/dashboard-api.js:114-119 | The open and click rates are "0.0" iff the sent count is missing or not positive. With a positive sent count, a missing open count makes the open rate NaN, and a missing click count makes the click rate NaN. When 0 <= opens <= sent, the open rate is a percentage in [0, 100]; likewise the click rate when 0 <= clicks <= sent. |
| Pipeline.AllPassed | netlify/functions/dashboard-api.js:208 | `allPassed` holds iff every check passed. |
| Pipeline.TestPipeline | netlify/functions/dashboard-api.js:127-212 | The step-by-step appends build exactly the reference report: entry i is decided by its own probe, the provider checks are skipped without a key, and `allPassed` is computed over the result. |
| Pipeline.ReportShape | netlify/functions/dashboard-api.js:130-201 | There are always exactly five checks, in the order API Key, Landing Page, Subscribe Function, MailerLite Group, Automation, and `allPassed` is true iff all five pass. |
| Pipeline.SkippedWithoutKey | netlify/functions/dashboard-api.js:161-201 | Without a key, checks 4 and 5 fail with detail "Skipped (no API key)" whatever their probes would say. Checks 2 and 3 still run on their probes, and the report as a whole does not pass. |
| Pipeline.ThrownProbeIsolated | netlify/functions/dashboard-api.js:137-201 | A probe that throws gives its entry a failed check whose detail is the error's message. For the landing-page and subscribe probes this holds always; for the group and automation probes it holds when there is a key. Whatever one probe's outcome, the other four entries are unchanged. |
| Pipeline.AutomationPassRule | netlify/functions/dashboard-api.js:178-197 | The automation check passes iff the probe answered, `enabled` is exactly true and `broken` is not true. Its detail is "Disabled", "Enabled but BROKEN" or "Enabled and healthy". |
| Dashboard.Handle | netlify/functions/dashboard-api.js:214-237 | A missing or unknown action gives 400 with the fixed message. "stats" gives the stats outcome, with 200 on success and 500 with the error's message on failure, including the automation failure that settles while the listing never ends. "test-pipeline" gives 200 with the report. Only the stats action can give 500. |
| Common.NatToString | netlify/functions/dashboard-api.js:28 | The status in an error message is rendered as its decimal digits, with no leading zero, and those digits spell the status. |
| Dashboard.StatsErrorResponse | netlify/functions/dashboard-api.js:27-49 | The stats action answers 500 iff a fetch failed. Its message is "MailerLite API error: <status>" for the listing and "Automation fetch error: <status>" for the automation. |
| Subscribe.SignupPayload | netlify/functions/subscribe.js:30-34 | The payload carries the email and the fixed group. It has `ad_variant` iff the variant is truthy. |
| Subscribe.HandleSignup | netlify/functions/subscribe.js:1-52 | The guards answer in order: a non-POST method gives 405, an unreadable body gives 400 "Invalid request body", a missing email gives 400 "Email is required", and a missing key gives 500 "Server configuration error". The provider is called iff all four guards pass, with the payload for the body's email and variant, and its answer decides the response. |
| Subscribe.ReplyMapping | netlify/functions/subscribe.js:39-51 | A 2xx answer gives 200 `{success:true}`; the explicit 200 and 201 tests add nothing to `ok`. Any other answer passes its status through with `success:false` and the provider's message, or "Signup failed" if it has none. |
| Subscribe.NonPostIgnoresEverythingElse | netlify/functions/subscribe.js:2-4 | Any method other than POST gives 405 whatever the body, the key and the provider. |
| Subscribe.EmailCheckedBeforeKey | netlify/functions/subscribe.js:15-22 | A request without an email gets 400 whether or not the key is configured. |
| Subscribe.SuccessMeansRelayed | netlify/functions/subscribe.js:24-45 | The response is `{success:true}` iff a payload was sent and the provider answered 2xx. Such a payload has the request's email and the fixed group. A 200 response always means success. |

## Left out

- Network I/O: every `fetch` call, `res.json()` and `JSON.stringify`/`JSON.parse`. Their outcomes are inputs. An answer whose body is not JSON is folded into the probe's thrown message in the health check. In the stats action and in subscribe.js it is not modelled.
- Pagination.FetchAllSubscribers: it requires that some response ends the traversal. When the provider hands out cursors forever, the source loops forever, and the model does not describe that run.
- Stats.HandleStats, Stats.StatsOutcome and Dashboard.Handle: the case where the listing never ends and the automation fetch succeeds is not modelled, since the handler then never answers. When the automation fetch fails, `Promise.all` rejects and the answer is a 500 with the automation error; that case is modelled. The lemmas about a completed stats action (Stats.StatsAllOrNothing, Stats.StatsVariantsBounded, Dashboard.StatsErrorResponse) assume the listing ends.
- Dashboard.StatsErrorResponse, Dashboard.Handle and Subscribe.HandleSignup: a `fetch` that rejects (a network error or a body that is not JSON) is not modelled. In the stats action it becomes a 500 whose error is the rejection's message. In subscribe.js it escapes the handler, which then rejects instead of answering.
- Stats.StatsAllOrNothing, Stats.StatsOutcome, Stats.HandleStats, Dashboard.Handle and Dashboard.StatsErrorResponse: the two fetches of `Promise.all` run concurrently in the source. When both fail, which error surfaces depends on timing; the model reports the listing error.
- `toFixed(1)` rendering of percentages and rates: floating-point formatting. Rates are kept as the real value, the "0.0" text of a zero denominator, or NaN.
- The `fetchedAt` and `testedAt` timestamps: clock reads.
- `process.env.MAILERLITE_API_KEY`: the key is a parameter. `mlHeaders` and the request URLs are constant plumbing and are left out, except for the cursor each listing request carries.
- Response headers: every dashboard response carries the same CORS and content-type headers. In subscribe.js the 405, 400 and 500 answers carry none, and the 200 and provider-failure answers carry `Content-Type: application/json`. The response datatypes hold only the status and the body.
- JSON values of unexpected types: the variant, name, email, message and cursor fields are optional strings and the flags optional booleans. A subscriber's `opened_count`, `clicked_count` and `sent_count` are plain integers, where a missing one is given as 0 (both fail the `> 0` test). The automation's counters are optional integers. A number where a string is expected, or a `null` automation counter (which JavaScript divides as 0), is not modelled. Object-prototype keys such as "constructor" colliding in the `variants` object are not modelled either: the table is a plain map.
- The reading of the event's query string and body beyond `action`, `httpMethod`, `email` and `variant`.
