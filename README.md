# LinkedIn webhook ingestion, modelled in Dafny

This project models the PhantomBuster webhook of a small Flask service. The
service receives a JSON body whose `resultObject` field holds a JSON-encoded
list of scraped LinkedIn records. It writes them to three Supabase tables:

- `company_profile`, upserted by company name;
- `posts`, upserted by LinkedIn post id;
- `engagement_metrics`, appended to, one snapshot per saved post.

Two handlers are modelled:

- The current handler, `app/main.py` (module `Ingestion`). It checks the
  envelope, classifies each record by key presence (company before post),
  builds the rows with their defaults, and appends a metrics snapshot only
  when the posts upsert hands back the stored row. It isolates every
  per-record failure and answers with `processed_count`.
- The superseded handler, `app/webhook_server.py` (module `LegacyWebhook`).
  It reads every record as a company with strict key access. Nothing is
  caught, so the first failing record ends the request with a 500 and the
  rows written before it stay written.

Files:

- `py_value.dfy` (module `PyValue`): decoded JSON values and the pieces of
  Python the handlers rely on. These are truthiness, `in` on dicts, lists
  and strings, subscripting, `dict.get`, and booleans counting as numbers.
  A TypeError or KeyError becomes `None`.
- `engagement.dfy` (module `Engagement`): both `calculate_engagement_rate`
  functions. Each is an exact ratio `Rate(num, den)`, taken before Python's
  float division and `round(…, 2)`.
- `rows.dfy` (module `Rows`): the company, post and metrics rows built from
  one record.
- `store.dfy` (module `Supabase`): the tables as a value `Tables`, the three
  writes as functions, the schema invariant `WellFormed`, and the class
  `Store`, whose fields the write methods update in place. The store gives a
  post an identity the first time its key is written and keeps it across
  later upserts.
- `ingestion.dfy` (module `Ingestion`) models the current handler:
  - `OpenEnvelope` holds the envelope checks;
  - `Process` is one pass of the loop body, and `IngestAll` is the loop;
  - the methods `ProcessItem`, `IngestRecords` and `Webhook` carry it out on
    a `Store`;
  - the lemmas cover what a batch does to each table.
- `legacy.dfy` (module `LegacyWebhook`) models the superseded handler:
  - `SaveAll` is its loop, which either completes or aborts;
  - `Handle` is the whole request;
  - the methods `SaveRecords` and `Webhook` run it on a `Store`;
  - the lemmas compare it with the current handler.

What the outside world does is a parameter:

- `loads: string -> Option<Value>` stands for `json.loads`, with `None` for a
  decoding error.
- `worlds(i)` gives the clock reading while record `i` is processed. It also
  says whether each Supabase call for that record raises, and whether the
  posts upsert returns the stored rows.
- The request body is the value `request.json` produced.

Where the code's behaviour is easy to misread, the model follows the code:

- Records are classified by key presence, not by non-null values. A record
  with `"companyName": null` is still saved as a company.
- The rate's guard is `get('impressions', 1) or 1`. A negative impressions
  count therefore divides by a negative number. `EngagementRate` promises a
  non-zero denominator, not a positive one.
- A `resultObject` that decodes to a JSON scalar (null, a boolean, a number)
  gets a 500, not the 400 for "not a list". The logging line calls
  `len(result_data)` before the list check, and the TypeError that raises
  reaches the outer `except`. A string or an object does get the 400.
- A body that is a list holding the string `"resultObject"`, or a string
  containing that text, passes the `in` check and then fails on indexing,
  which gives a 500. So does a `resultObject` that is not a string.

## Model

| member | source | states |
|---|---|---|
| Engagement.EngagementRate | app/main.py:44-48 | never divides by zero, so its only modelled failure is a TypeError on a non-numeric count (float overflow is left out); it succeeds iff the four counts and the divisor are numbers; the numerator is 100 × (likes + comments + shares + clicks), each defaulting to 0; an absent or falsy impressions value divides by 1, a truthy one by itself |
| Engagement.UnguardedEngagementRate | app/webhook_server.py:99-102 | succeeds iff the counts are numeric and `impressions` (default 1) is a non-zero number; an absent `impressions` divides by 1; fails with ZeroDivisionError exactly when the counts are numeric and `impressions` is present and equal to 0; wherever it succeeds it equals the guarded rate (float overflow is left out) |
| Engagement.GuardOnlyRemovesZeroDivision | app/main.py:46 | the guarded rate agrees with the unguarded one wherever the latter succeeds, and divides by 1 wherever the latter divides by zero |
| Engagement.RateCanExceedHundred | app/main.py:47-48 | the rate is not clamped: more interactions than impressions give a rate above 100 |
| Engagement.RateExamples | app/main.py:44-48 | worked values: all zero gives 0/1; four single interactions with 0 impressions give 400/1; with 10 impressions, 400/10 |
| Rows.CompanyRowOf | app/main.py:110-121 | the name is `companyName`; each optional field is copied when present (null included) and otherwise defaults to '' (followers to 0); `specialties` is always empty; `fetched_at` is the clock reading |
| Rows.PostRowOf | app/main.py:128-137 | the post id is `postId`; `raw_data` is the record itself; content, type, date and author default to ''; hashtags and mentions default to the empty list |
| Rows.TagsIndependentOfContent | app/main.py:134-135 | hashtags and mentions are copied from the record, not derived from its content: changing the content changes neither |
| Rows.MetricsRowOf | app/main.py:141-150 | the row exists iff the engagement rate can be computed; it refers to the given post identity, carries the rate and the clock reading, and copies each count with default 0 (impressions included) |
| Rows.StoredCountsAreNumeric | app/main.py:141-148 | in a stored metrics row the four interaction counts are numbers and the rate's numerator is 100 × their sum |
| Supabase.PutCompany | app/main.py:110-121 | upsert by name: the new row sits under its name, every other company is unchanged, the other tables are untouched |
| Supabase.PutPost | app/main.py:128-137 | upsert by post id: the row replaces any row under its key; an existing post keeps its identity and a new one takes the next unused identity; companies and metrics are untouched |
| Supabase.AppendMetrics | app/main.py:141-150 | insert into engagement_metrics appends the row at the end and changes nothing else |
| Supabase.PutCompanyWellFormed | app/main.py:110-121 | a company upsert keeps the schema invariant |
| Supabase.PutPostWellFormed | app/main.py:128-137 | a post upsert keeps the schema invariant, and a new post's identity belongs to no stored post |
| Supabase.AppendMetricsWellFormed | app/main.py:139-150 | appending a metrics row that refers to a stored post keeps the schema invariant |
| Supabase.Store.UpsertCompany | app/main.py:110-121 | the company_profile upsert on the store: when it raises nothing changes, otherwise the tables become `PutCompany` of the old ones; the invariant is kept |
| Supabase.Store.UpsertPost | app/main.py:128-140 | the posts upsert on the store: when it raises nothing changes, otherwise the tables become `PutPost` of the old ones and the reply holds the stored identity, or no rows when the store returns none |
| Supabase.Store.InsertMetrics | app/main.py:141-150 | the engagement_metrics insert on the store: when it raises nothing changes, otherwise the row is appended; allowed only for a stored post |
| Ingestion.OpenEnvelope | app/main.py:72-99 | the checks run in the source's order: no store gives 500; an empty body gives 400; a dict without `resultObject` gives 400; bad JSON gives 400; a decoded string or object gives 400; a decoded null, boolean or number gives 500 at `len`; the records are accepted iff the body is a dict whose `resultObject` is a string that decodes to a list; among truthy bodies, 400 "no resultObject" is given exactly to a container without that key, and any other truthy body that is not a dict with a string `resultObject` (a non-string `resultObject`, a non-empty list or string holding the text, a true boolean or non-zero number) gets 500; every rejection carries no count |
| Ingestion.EmptyBodyRejected | app/main.py:77-80 | a falsy body (null, `{}`, `""`, `[]`, `false`, `0`) is rejected as no data |
| Ingestion.ScalarResultIsServerError | app/main.py:91-99 | in any dict body, a string `resultObject` that decodes to null, a boolean or a number gets 500 |
| Ingestion.Classify | app/main.py:108-127 | on a dict: company iff it has `companyName`; post iff it has `postId` and no `companyName`; unknown iff it has neither; anything else is unknown or raises |
| Ingestion.Process | app/main.py:104-160 | one pass of the loop body: the record is counted iff it is a company whose upsert does not raise, or a post whose upsert returns its row, whose rate can be computed and whose metrics insert does not raise |
| Ingestion.CompanyWinsOverPost | app/main.py:108-126 | a record with `companyName` is upserted as a company even when it has a `postId`: no post or metrics row comes of it |
| Ingestion.UnknownRecordSkipped | app/main.py:155-156 | a record with neither key, or one that is not a dict, changes nothing and is not counted |
| Ingestion.MetricsNeedReturnedRows | app/main.py:139-154 | when the posts upsert returns no rows, the post is stored but no metrics row is appended and the record is not counted |
| Ingestion.ProcessCompanies | app/main.py:108-123 | one record overrides at most one company row, determined by the record and the world alone |
| Ingestion.ProcessPosts | app/main.py:126-137 | one record overrides at most one post row, determined by the record and the world alone |
| Ingestion.ProcessIdentities | app/main.py:126-140 | one record keeps every post identity already given and gives one only to the post key it writes; a saved post's reported identity is its stored identity |
| Ingestion.ProcessMetrics | app/main.py:139-152 | one record appends at most one metrics row, which refers to the identity of the post that the record upserted |
| Ingestion.ProcessWellFormed | app/main.py:139-150 | one record keeps the schema invariant: a metrics row is appended only after its post is stored |
| Ingestion.IngestAll | app/main.py:101-160 | the loop over the records: `processed_count` never exceeds the number of records |
| Ingestion.IngestWellFormed | app/main.py:103-160 | a whole batch keeps the schema invariant |
| Ingestion.IngestCount | app/main.py:101-160 | `processed_count` is the number of records that succeed, whatever the tables held before |
| Ingestion.IngestRows | app/main.py:103-137 | after a batch, company_profile and posts are the old tables overridden by the batch's rows in arrival order |
| Ingestion.IngestIdentityKeys | app/main.py:126-140 | a batch gives identities to exactly the post keys it writes |
| Ingestion.IngestIdentities | app/main.py:126-140 | a batch keeps every identity already given, and gives none at all when it writes no new post key |
| Ingestion.IngestMetrics | app/main.py:139-152 | engagement_metrics gains exactly the batch's snapshots, in arrival order, each referring to its post's identity |
| Ingestion.Reingest | app/main.py:103-160 | sending the same batch again with the same clock readings and the same store failures counts the same, rewrites the same company and post rows, changes no identity, and appends the same metrics snapshots a second time |
| Ingestion.IngestConcat | app/main.py:103-160 | the batch is processed as its parts in sequence: records after any point are processed from the tables the records before it left |
| Ingestion.FailureIsolated | app/main.py:158-160 | one failing record costs only itself: when all others succeed the count is one less than the batch size |
| Ingestion.ProcessItem | app/main.py:104-160 | the loop body on the store: the tables become those of `Process` and the result says whether the record was counted |
| Ingestion.IngestRecords | app/main.py:101-160 | the loop on the store: the final tables and `processed_items` are those of `IngestAll`; the invariant is kept |
| Ingestion.Webhook | app/main.py:67-171 | a rejected envelope gives the envelope's response and writes nothing; an accepted one gives 200, success and the count of `IngestAll`, with the tables it leaves |
| LegacyWebhook.StrictCompanyRow | app/webhook_server.py:33-44 | the row exists iff the record is a dict with the seven required fields; only `location` is optional and defaults to null; `specialties` is always empty |
| LegacyWebhook.StrictRowAgreesWithCurrent | app/webhook_server.py:34-42 | on a record with the seven fields and a location, the legacy row equals the current handler's row; without a location they differ only there (null against '') |
| LegacyWebhook.SaveAll | app/webhook_server.py:32-44 | the loop writes only company_profile, and an abort names a record of the list |
| LegacyWebhook.CompletesIffAllSave | app/webhook_server.py:32-46 | the loop runs to the end iff every record has the required fields and no upsert raises |
| LegacyWebhook.AbortKeepsPrefix | app/webhook_server.py:32-44 | an aborted loop stopped at a record that could not be saved, and the tables are what the records before it made of them |
| LegacyWebhook.AbortIsFinal | app/webhook_server.py:32-44 | after an abort the rest of the list changes nothing |
| LegacyWebhook.CompletedWritesInOrder | app/webhook_server.py:32-44 | a completed loop upserted every record once, in list order, a later row overriding an earlier one of the same name |
| LegacyWebhook.AgreesWithCurrent | app/webhook_server.py:32-44 | on records that all have the seven fields and a location, with no upsert raising, the legacy loop leaves exactly the tables the current loop leaves |
| LegacyWebhook.CurrentCountsEveryCompany | app/webhook_server.py:32-46 | on records that all have the seven fields, with no upsert raising, the legacy loop completes and the current handler counts every record |
| LegacyWebhook.OpenRequest | app/webhook_server.py:28-32 | the records are reached iff the body is a dict whose `resultObject` is a string decoding to a list; any other answer is 200 saved, 400 fail or 500, and 400 iff the body is a container without `resultObject`; the records are exactly the decoded list's elements; a decoded string or dict is answered 200 when empty and 500 when not; invalid JSON, a decoded null, boolean or number, a non-string `resultObject` and a body that is not a container all get 500 |
| LegacyWebhook.Handle | app/webhook_server.py:22-48 | the answer is 200 saved, 400 fail or 500; 400 iff the body is a container without `resultObject`, and then nothing is written; on a decoded list the result is the save loop's table, answered 200 when every save completes and 500 at the first failure; any other body writes nothing and gets `OpenRequest`'s answer, so invalid JSON is a 500 here where the current handler gives 400; posts, identities and metrics are never touched |
| LegacyWebhook.ListSavedIffAllSave | app/webhook_server.py:28-46 | in any dict body whose string `resultObject` decodes to a list, the answer is 200 iff every record is saved |
| LegacyWebhook.SaveRecords | app/webhook_server.py:32-46 | the loop on the store: the tables and the answer are those of `SaveAll`, 500 on the first failing record |
| LegacyWebhook.Webhook | app/webhook_server.py:22-48 | the handler on the store: the tables and the response are those of `Handle` |

## Left out

- Flask itself is not modelled: routing, `jsonify`, the 404 and 500 error
  handlers, and the `/` and `/health` endpoints. Responses are a datatype of
  code, status, message tag and count. A failure of `request.json` itself is
  left out too, because the body is taken as already decoded.
- Creating the Supabase client from the environment and dotenv loading are
  not modelled. An unavailable client is `store == null` in
  `Ingestion.Webhook`. The legacy handler always has a client.
- `print` logging is not modelled. Its only effect that matters is the
  `len(result_data)` call, which is modelled.
- `datetime.utcnow()` and `json.loads` are parameters. The model does not
  compute timestamps or parse JSON text.
- The Supabase calls' failures and whether the posts upsert returns rows are
  parameters. The network, constraint errors and the row-returning
  preference are outside the model.
- The upsert conflict targets (company name, post id) are not in the source.
  The model keys company_profile by company name and posts by post id.
  Without `on_conflict` the client resolves a conflict on the table's
  primary key, so `PutPost`, `IngestIdentities` and `Reingest` (a post
  keeps its `id` across upserts) hold only if the natural key is what the
  upsert conflicts on.
- Engagement.EngagementRate: does not model float division or
  `round(…, 2)`; the rate is the exact ratio `num / den`. So the
  OverflowError that `/` raises when the quotient is beyond the float range
  (a count of 10**400, say) is not modelled. Such a record fails and is not
  counted in the source, but `Process` saves and counts it. A float count in
  a record is not modelled either, because `Value` has no floats.
- Engagement.UnguardedEngagementRate: this rate is only reachable from the
  unreachable code after the legacy handler's return. It is modelled as a
  function, not as part of `LegacyWebhook`.
- The legacy handler's `company`/`posts` branches after its `return`
  (app/webhook_server.py:50-97) are unreachable, so they are not modelled.
- The server start-up in both files is not modelled.
- Dict key order, and hence the order in which a decoded object would be
  iterated, is not modelled. Only an empty object versus a non-empty one
  matters, because its first key raises.
