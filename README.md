# Salesforce connector extraction model

A Dafny model of `SalesforceConnector` from `glue_common_utils/salesforce_connector.py`.
The connector holds a Salesforce session (`self.sf`) that it opens lazily. It pulls records
for a SOQL query in one of three ways:

- a full pull with one `query_all` (`_query_all_data`);
- cursor pagination, `query` followed by `query_more` (`_query_with_pagination`);
- offset batching (`query_in_batches`), which first runs a rewritten count query (`query_count`)
  and then sends one LIMIT/OFFSET query per batch.

Every strategy removes the `attributes` key from each returned record, in place.

The model has six modules:

- `Common` holds `Option`, `Result` and the failure causes, plus two generic sequence lemmas.
- `Text` covers ASCII upper-casing, Python's `str.find`, and `str(n)` with a parser that
  reads it back.
- `Soql` holds the two query rewrites. Keywords are found by plain case-insensitive substring
  search, exactly as the code does it.
- `Remote` holds records as mutable objects (`class Record` with `Pop`), result pages, the
  client and the batch callback.
- `Extraction` holds pure specifications of the three strategies, written in terms of the
  pages the client returns.
- `Connector` holds `class SalesforceConnector`, whose methods run the Python loops and are
  proved to compute exactly what `Extraction` specifies.

The Salesforce client is an oracle: three functions from a query string (or a next-records
URL) to `Option<Page>`, where `None` stands for a call that raised. The batch callback is a
function that says whether a call with given arguments raises. Each method that takes a callback
returns the trace of callback calls (`seq<Call>`). `query_in_batches` also returns the batch queries it sent.
The results of the spec functions do not depend on the callback. So the method contracts
(`r == e.result`) show that a raising callback never changes the returned records and never
ends a loop early.

The count query starts with the upper-case `"SELECT COUNT() "` of line 145, so
`"select id from Account order by name limit 10"` becomes `"SELECT COUNT() from Account "`.

## Model

| member | source | states |
|---|---|---|
| Connector.SalesforceConnector.constructor | glue_common_utils/salesforce_connector.py:9-11 | a new connector has no session and keeps the secret name |
| Connector.SalesforceConnector.Connect | glue_common_utils/salesforce_connector.py:13-27 | a successful login stores its session; a failed one raises and leaves the stored session as it was |
| Connector.SalesforceConnector.EnsureConnected | glue_common_utils/salesforce_connector.py:42-43 | connects only when no session is stored; the session afterwards is `Session(old sf, login)` and the call succeeds exactly when one exists |
| Connector.Session | glue_common_utils/salesforce_connector.py:42-43 | a stored session is never replaced; there is a session afterwards iff one was stored or the login succeeded; a changed session comes only from a login made when none was stored |
| Connector.SessionSettles | glue_common_utils/salesforce_connector.py:137-138 | a second lazy connect (as `query_count` does inside `query_in_batches`) keeps the session the first one left |
| Connector.SalesforceConnector.QueryAllData | glue_common_utils/salesforce_connector.py:59-77 | returns the records of the one `query_all` page, in order, or fails when it raised; every record of that page ends with exactly `attributes` removed, and no returned record has an `attributes` key |
| Extraction.FullPullRecords | glue_common_utils/salesforce_connector.py:64-77 | a full pull fails iff `query_all` raises; otherwise it returns exactly as many records as that page holds, in its order |
| Connector.SalesforceConnector.QueryWithPagination | glue_common_utils/salesforce_connector.py:79-125 | the result is the in-order concatenation of the records of the cursor's pages; the callback gets batch numbers 1..N with the first page's `totalSize`; each fetched record ends with exactly `attributes` removed, and no returned record has an `attributes` key; a failing first `query` raises |
| Connector.FollowCursor | glue_common_utils/salesforce_connector.py:90-122 | the loop from the first page on returns the records of the cursor's pages, concatenated in order; it reports batch k+1 with page k's records and the first page's `totalSize`; every record read loses exactly `attributes` |
| Extraction.CursorShape | glue_common_utils/salesforce_connector.py:86-122 | the cursor starts at the first page and moves on only from a page that is not done (a missing `done` counts as done), through its URL; it stops at the first done page or right after the first failed `query_more`, with no retry |
| Extraction.CursorAt | glue_common_utils/salesforce_connector.py:114-122 | the same facts for the page at one position of the cursor |
| Connector.SalesforceConnector.QueryData | glue_common_utils/salesforce_connector.py:29-57 | connects if needed (a failed connect raises), then gives the full pull when `paginate` is false and cursor pagination otherwise; no callback call on the full pull; no returned record has an `attributes` key |
| Connector.SalesforceConnector.QueryCount | glue_common_utils/salesforce_connector.py:127-163 | connects if needed, then returns the `totalSize` (default 0) of the answer to the rewritten count query; it raises when connecting fails, the query is malformed or the query call raises |
| Soql.RewriteCountQuery | glue_common_utils/salesforce_connector.py:142-151 | the loop that reassigns the count query once per clause computes `CountQuery`, whose properties the lemmas below state |
| Soql.CutAt | glue_common_utils/salesforce_connector.py:149-151 | one turn of the clause loop cuts the query exactly at the first case-insensitive occurrence of the clause, keeping everything before it; the result has no occurrence of the clause; nothing changes when the clause is absent |
| Soql.CutAtAll | glue_common_utils/salesforce_connector.py:148-151 | after the whole loop, the result is a prefix of its input that contains none of the clauses, ignoring case, and it is either the whole input or ends exactly where one of the clauses occurs in the input |
| Soql.CutStep | glue_common_utils/salesforce_connector.py:148-151 | a cut at a clause occurrence followed by later cuts at clause occurrences still ends at a clause occurrence of the original text |
| Soql.CountQueryShape | glue_common_utils/salesforce_connector.py:142-151 | rejection happens iff the upper-cased query lacks SELECT or FROM; otherwise the result is "SELECT COUNT() " followed by a prefix of the text taken from the first case-insensitive FROM, that prefix still starts with FROM, and none of ORDER BY, LIMIT, OFFSET, GROUP BY, HAVING occurs in any case; the count query is the whole text built around the FROM or ends exactly where a clause occurs in it, so what comes before the first clause (a WHERE, say) is kept |
| Soql.CutFromShape | glue_common_utils/salesforce_connector.py:144-151 | the clause loop run on the query built around a FROM keeps "SELECT COUNT() " and that FROM |
| Soql.CutAtAllKeepsHead | glue_common_utils/salesforce_connector.py:148-151 | no clause can be found inside "SELECT COUNT() FROM", so the cuts never shorten the query below that head |
| Soql.CountQueryExample | glue_common_utils/salesforce_connector.py:142-151 | "select id from Account order by name limit 10" becomes "SELECT COUNT() from Account " |
| Soql.BatchQuerySplice | glue_common_utils/salesforce_connector.py:197-204 | the batch query is the original text with " LIMIT n OFFSET o" spliced in (plus a blank before an ORDER BY) at the first case-insensitive ORDER BY, or at the end when there is none; cutting the inserted text out gives the query back unchanged and in order; the ORDER BY follows the clause |
| Soql.NoOrderByBeforeSplice | glue_common_utils/salesforce_connector.py:197-199 | no ORDER BY occurs before the point where the clause is inserted |
| Text.IntStrRoundTrip | glue_common_utils/salesforce_connector.py:201 | the batch size and the offset written into the batch query read back as the same integers |
| Text.Find | glue_common_utils/salesforce_connector.py:144 | `str.find`: -1 iff the keyword is absent, otherwise the first position where it occurs |
| Text.FindFrom | glue_common_utils/salesforce_connector.py:150 | the search from a start position returns the first match at or after it, or -1 |
| Extraction.FloorDivIsFloor | glue_common_utils/salesforce_connector.py:188 | `//` rounds toward negative infinity for either sign of the divisor |
| Extraction.TotalBatchesIsCeiling | glue_common_utils/salesforce_connector.py:188 | for a positive batch size, the number of batches is ceil(total/batch_size), and it is positive iff the total is |
| Extraction.TotalBatchesExample | glue_common_utils/salesforce_connector.py:188-194 | 5000 records in batches of 2000 give 3 planned batches; when every batch comes back full, the batch loop sends queries at offsets 0, 2000 and 4000 and reads three pages |
| Extraction.RunBatchesOffsets | glue_common_utils/salesforce_connector.py:193-194 | batch k asks for offset k*batch_size; no more batch queries than planned, and at least one when any is planned |
| Extraction.RunBatchesPages | glue_common_utils/salesforce_connector.py:193-230 | each batch query is answered by the next page, except a failed last one that ends the run; every batch but the last is full, so nothing is requested after a short batch; a run that stops early without failing ended on a short batch |
| Extraction.RunBatchesSizes | glue_common_utils/salesforce_connector.py:193-230 | pages read never exceed queries sent, queries sent never exceed the plan, and there is one page fewer than queries exactly when the run failed |
| Extraction.RunBatchAt | glue_common_utils/salesforce_connector.py:193-230 | what the loop sees at batch j: its offset, its page or a failure at the very last query, and whether the loop goes on |
| Extraction.BatchPlanBounds | glue_common_utils/salesforce_connector.py:188-194 | for a positive count and batch size, every offset asked for lies below the counted total |
| Extraction.OffsetBatchingBounds | glue_common_utils/salesforce_connector.py:181-233 | a failed count sends no batch; a count of zero or less returns no records and sends no batch; otherwise offsets are k*batch_size below the total, at most ceil(total/batch_size) queries go out, pages are `query_all`'s answers, all but the last are full, and the result is their concatenation |
| Connector.SalesforceConnector.QueryInBatches | glue_common_utils/salesforce_connector.py:165-233 | connects if needed, counts, and returns exactly what `OffsetBatching` specifies; the callback gets (batch, k+1, total_batches) per batch; the queries sent are the batch queries for the offsets; each fetched record ends with exactly `attributes` removed, and no returned record has an `attributes` key |
| Connector.BatchesAfterCount | glue_common_utils/salesforce_connector.py:181-193 | a failed count raises, a zero count returns [] before the division, a zero batch size then raises ZeroDivisionError, and otherwise the planned batches run; no returned record has an `attributes` key |
| Connector.FetchBatches | glue_common_utils/salesforce_connector.py:193-230 | the batch loop computes `RunBatches`: the records of the pages read, in order, or a failure when a batch query raised; the callback trace and the queries sent; every record read loses exactly `attributes`, and no returned record has an `attributes` key |
| Connector.Report | glue_common_utils/salesforce_connector.py:219-224 | a callback, when given, is called once per batch with the next batch number, and its failure is only recorded |
| Connector.StripBatch | glue_common_utils/salesforce_connector.py:212-214 | popping `attributes` from a batch removes that key from every record of the batch and changes no other key of any record |
| Remote.StripAttributes | glue_common_utils/salesforce_connector.py:72-74 | the records come back in the same order, each with exactly `attributes` removed |
| Remote.Record.Pop | glue_common_utils/salesforce_connector.py:97 | `pop(key, None)` removes the key and returns what it held, or None |
| Extraction.FlattenLength | glue_common_utils/salesforce_connector.py:99-100 | all_records holds as many records as the fetched pages together |
| Extraction.FlattenPlacesPage | glue_common_utils/salesforce_connector.py:99-100 | each page's records appear in all_records unchanged, in order, right after those of the pages before it |

## Left out

- Logging: every `logger` call and message is left out.
- Allocation: the methods that strip records require every record of the pages they fetch to be an allocated object, which every record a caller can name is; the Python dictionaries always exist.
- Connecting: the `SecretManager` lookup and the `Salesforce(...)` login are foreign and network calls. The model replaces them with a `login` parameter holding the session they would give, or None when either raised.
- The client: the real `query`, `query_all` and `query_more` calls are replaced by the oracle functions of `Remote.Client`.
- `glue_common_utils/aws_utils/secret_manager.py` is not part of this model.
- Connector.SalesforceConnector.QueryWithPagination: requires the remote to end the cursor within `fuel` `query_more` calls (`PaginationEnds`). A remote that keeps answering "not done" forever, on which the Python loop would never end, is not modelled.
- Connector.SalesforceConnector.QueryData: carries the same `PaginationEnds` requirement when it paginates.
- Connector.FollowCursor: requires the cursor from the first page to end within `fuel` `query_more` calls (`CursorEnds`), for the same reason.
- A page without a `records` key (a KeyError in the code) is not modelled; every page carries a record list.
- Upper-casing covers ASCII letters only. Python's `str.upper()` can change the length of non-ASCII text, which the model does not follow.
- Exceptions are reduced to their cause (`Failure`); their types, messages and tracebacks are left out.
- The batch callback is reduced to whether it raises. Anything else it does, such as changing the records it is handed, is not modelled.
