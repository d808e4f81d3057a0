# cu_api core in Dafny

This project models the core of `cu_api`, a Python client for the Copper CRM
REST API, and proves properties of that model. It covers two files.

**Company updates and row cleaning (`cu_api/companies.py`).**
- `_bulk_update` sends a DataFrame's custom field columns to Copper's bulk
  update endpoint. It sends one POST per window of ten rows and stops at the
  first non-200 status.
- `update_batch` POSTs one batch, with up to three attempts. A 429 response
  waits for its `Retry-After` header and then a further 0.25 s.
- `RetryLogger` counts rate-limited retries per delay. It flushes one line per
  delay when more than a second has passed since the last flush.
- `bulk_update_async` builds one payload per window of `batch_size` rows, runs
  `update_batch` on each, and reports how many batches succeeded.
- `_clean_row` and its inner `clean_date` flatten a Copper company record into
  one dict. The dict holds the native fields, the address fields and the
  requested custom fields; option ids become option names and Date fields
  become US/Central timestamps.

**The search-query builder (`cu_api/query.py`).**
- `_check_key` resolves a custom field key given as a name, an id or a
  numeric string.
- `_check_value`, with its inner `find_key_by_value`, resolves option names
  and ids to a list of distinct option ids.
- `Query` is a dict-like class. It keeps the raw inputs, their resolved form
  and the list of native fields used.
- `_process_query` splits a `Query` into native search parameters and custom
  field parameters.

Python values are the datatype `Python.PyVal`. A Python dict whose iteration
order matters is `Python.Dict`: its keys in insertion order plus a map.

Everything the code reads from outside is a parameter:
- the schema tables (`CF_ID_LOOKUP`, `CUSTOM_FIELDS_DICT`, `CUSTOM_FIELDS`,
  `get_cf_options`, `cf_option_name`) are one `Config.Snapshot` value;
- the server's answers are functions from the request number (and, for the
  concurrent path, the batch number) to a status and a `Retry-After` header;
- the clock is a function from the request number to seconds;
- the pandas timestamp conversion is a function `toCentral`, whose `None`
  stands for a conversion that raises.

A DataFrame is `Batches.Frame`: its columns and its rows, each row a map from
column to value.

Modules:
- `Python` (python.dfy): `str(int)`, `int(str)`, ordered dicts.
- `Config` (config.dfy): the schema snapshot.
- `Batches` (batches.dfy): the checks and lookups before any request, the
  row windows and the request payloads, shared by both update paths.
- `SequentialUpdate` (sequential.dfy): `_bulk_update`.
- `RetryPolicy` (retry.dfy): `update_batch` and `RetryLogger`.
- `AsyncUpdate` (concurrent.dfy): `bulk_update_async`.
- `CompanyRows` (rows.dfy): `_clean_row` and `clean_date`.
- `QueryResolve` (query.dfy): `_check_key`, `_check_value`, `find_key_by_value`.
- `QueryObject` (query_object.dfy): `Query` and `_process_query`.

Each imperative operation is a method with loops. Its `ensures` ties the
result, or the new state, to a specification function. Lemmas about those
functions state what the code promises.

Two behaviours of the code are easy to misread:
- A `Retry-After` header that is not an integer makes `int()` raise at
  cu_api/companies.py:288, so `update_batch` raises rather than waiting.
  `RetryPolicy.RetryDelay` follows this. Only a missing header counts as one
  second.
- As written, `_process_input` calls `check_key` and `check_value`
  (cu_api/query.py:147-148), names the module never defines, so every
  custom field key raises NameError (see "## Findings"). The methods
  `Query.ProcessInput` and `Query.SetItem`, and every scenario and lemma
  built on them (`DeleteByNameKeepsId`, `NativeSetTwice`, `QueryParamsShape`,
  `NonNativeDistinct`), use the corrected processing, `QueryObject.Processed`.
  `Query.ProcessInputAsWritten`, `Query.SetItemAsWritten` and
  `RegionAsWritten` model the code as written.
- When no column resolves, the synchronous path does not fail: it sends
  every row with an empty `custom_fields` list. With no (field id, column)
  pair, `prepared_data` is never looked up, so even a row whose id is a
  string such as "101" is sent as `{"id": 101, "custom_fields": []}`
  (`Batches.EntryWithoutPairs`).

## Model

| member | source | states |
|---|---|---|
| Batches.KeptColumns | cu_api/companies.py:214 | the kept columns are exactly the requested columns that CF_ID_LOOKUP knows |
| Batches.FieldIds | cu_api/companies.py:213 | one field id per kept column, in the same order, so `zip(cf_ids, columns)` pairs each column with its own id |
| Batches.Unresolved | cu_api/companies.py:215 | the columns of a list that CF_ID_LOOKUP does not know |
| Batches.KeptColumnsAppend | cu_api/companies.py:214 | filtering a concatenation is concatenating the filtered parts |
| Batches.UnresolvedOfResolved | cu_api/companies.py:215 | no column of an already filtered list is unknown |
| Batches.MissingAsWrittenIsEmpty | cu_api/companies.py:214-217 | as written, `missing` is always empty, so the skipped-columns warning never prints |
| Batches.DroppedColumns | cu_api/companies.py:212-217 | the skipped columns are exactly the requested columns not kept |
| Batches.DroppedColumnGoesUnreported | cu_api/companies.py:214-217 | an unknown column "Stage" is skipped, yet `missing` is empty |
| Batches.FirstUnknown | cu_api/companies.py:219 | `None` exactly when every selected column is in the frame; otherwise a selected column the frame lacks (the KeyError) |
| Batches.PlanUpdate | cu_api/companies.py:206-220 | no 'id' column raises first; success exactly when 'id' is present, every selected column exists and the ids are unique; with `cf_ids=None` the ids and columns come from the lookup, otherwise they are used as given |
| Batches.WindowsFromShape | cu_api/companies.py:229-250 | the windows from a counter value cover the remaining rows in steps: count, each window's start and size `min(step, remaining)` |
| Batches.WindowsPartition | cu_api/companies.py:229-230 | ceil(n/step) windows of 1..step rows, each starting where the last ended and the last ending at n; row i lies in window i / step and no other |
| Batches.WindowAt | cu_api/companies.py:324-325 | window k exists exactly when k*step < n and is `df.iloc[k*step : k*step + step]` |
| Batches.WindowsFit | cu_api/companies.py:234 | every window lies inside the frame |
| Batches.TwentyFiveRowsInWindowsOfTen | cu_api/companies.py:229-230 | 25 rows go out as 10, 10 and 5 |
| Batches.IndexOfId | cu_api/companies.py:220 | finds a row whose id equals the key, or says that no row has it |
| Batches.FieldValues | cu_api/companies.py:237-238 | the custom field list pairs the i-th field id with the row's value in the i-th column, as many as `zip` yields |
| Batches.EntryOfIntegerId | cu_api/companies.py:235-240 | a row with an integer id gives `{"id": cid, "custom_fields": ...}` with the row's value for each column |
| Batches.Entry | cu_api/companies.py:235-240 | `int()` of the id cell that fails is BadId; otherwise the entry has that id and one value per zipped pair, taken from a row whose id cell is that int; IdNotFound exactly when there is at least one pair and no row has that int id |
| Batches.EntryWithoutPairs | cu_api/companies.py:237-240 | with `zip(cf_ids, columns)` empty, every row whose id `int()` accepts gives `{"id": cid, "custom_fields": []}`, with no lookup |
| Batches.RowEntriesAt | cu_api/companies.py:234-241 | the payload entry for row i is the entry built from row i |
| Batches.Payload | cu_api/companies.py:231-241 | a built payload has exactly one entry per row of the window |
| Batches.PayloadEntries | cu_api/companies.py:231-241 | a window's payload is built exactly when every row's entry is; it lists those entries in row order; otherwise it raises the first row's error |
| Batches.BuildPayload | cu_api/companies.py:231-241 | the loop builds the window's payload |
| SequentialUpdate.SequentialFromPosts | cu_api/companies.py:229-250 | from any counter value, request j carries the payload of window j, and requests already sent are kept |
| SequentialUpdate.SequentialFromCounter | cu_api/companies.py:229-250 | every request before the last got 200; a stop short of the end follows a non-200 answer with the counter at the rows before that batch; a raise leaves the counter at the batches accepted |
| SequentialUpdate.SequentialStart | cu_api/companies.py:222-250 | from zero: payloads match windows, the counter never exceeds the rows, and finishing means every window was sent and accepted |
| SequentialUpdate.SequentialPostsWindows | cu_api/companies.py:198-254 | a whole call posts at most one request per window, each carrying that window's rows, and posts nothing if the checks fail |
| SequentialUpdate.SequentialFailFast | cu_api/companies.py:246-250 | the loop stops at the first non-200 answer, and the count reaches all rows exactly when every window was accepted |
| SequentialUpdate.AllEntriesOk | cu_api/companies.py:235-237 | with unique integer ids, every row's entry is built |
| SequentialUpdate.SequentialAllFrom | cu_api/companies.py:229-250 | when every answer is 200, the loop updates every row and raises nothing |
| SequentialUpdate.SequentialAllAccepted | cu_api/companies.py:198-254 | when every answer is 200, every row is updated with ceil(n/10) requests |
| SequentialUpdate.SecondOfThreeBatchesFails | cu_api/companies.py:246-248 | with 21-30 rows and a failing second request, 10 rows are updated and no third request is sent |
| SequentialUpdate.BulkUpdate | cu_api/companies.py:198-254 | the method's requests, counter and exception are those of the specification |
| SequentialUpdate.PostBatches | cu_api/companies.py:222-253 | the while loop does what the specification says from counter zero |
| RetryPolicy.RetryDelay | cu_api/companies.py:288 | a missing header waits one second; a header waits `int()` of itself, and raises where `int()` raises |
| RetryPolicy.Sleeps | cu_api/companies.py:291-292 | two sleeps per throttled attempt |
| RetryPolicy.SleepsAt | cu_api/companies.py:291-292 | the header's delay, then 0.25 s |
| RetryPolicy.BatchFromShape | cu_api/companies.py:282-305 | from any attempt: each recorded wait follows a 429 with that delay; success is the attempt after the waits answering 200; failure is retries exhausted or another status; a raise comes from a bad header |
| RetryPolicy.BatchShape | cu_api/companies.py:282-305 | the same from attempt zero, with at most `max_retries` requests |
| RetryPolicy.BatchFromSucceedsIff | cu_api/companies.py:284-302 | success from an attempt exactly when some later attempt answers 200 and every one between was a 429 with a valid delay |
| RetryPolicy.BatchSucceedsIff | cu_api/companies.py:284-302 | a batch succeeds exactly when some attempt within `max_retries` answers 200 and all before it were throttled |
| RetryPolicy.FirstResponseDecides | cu_api/companies.py:295-302 | a first answer other than 429 ends the batch after one request and no sleep: 200 succeeds, anything else fails |
| RetryPolicy.NoAttemptsNoRequest | cu_api/companies.py:284-305 | with `max_retries=0` nothing is sent and the batch fails |
| RetryPolicy.BatchFromExhausted | cu_api/companies.py:284-305 | throttled on every remaining attempt: the batch fails after `max_retries` requests, one wait per attempt |
| RetryPolicy.ExhaustedRetries | cu_api/companies.py:284-305 | throttled on every attempt: failure after `max_retries` requests and 2*`max_retries` sleeps |
| RetryPolicy.MissingHeaderWaitsOneSecond | cu_api/companies.py:287-293 | a 429 without a header sleeps 1 s and 0.25 s before the next attempt |
| RetryPolicy.HeaderDelayIsWaited | cu_api/companies.py:288-292 | `Retry-After: 5` sleeps 5 s and 0.25 s |
| RetryPolicy.UnparsableHeaderRaises | cu_api/companies.py:288 | `Retry-After: soon` raises after one request |
| RetryPolicy.Bump | cu_api/companies.py:267 | `retry_counts[retry_after] += 1` on a defaultdict: that delay's count goes up by one (from 0), the others are unchanged, and a new delay goes last |
| RetryPolicy.BumpTotal | cu_api/companies.py:267 | each logged retry adds exactly one to the total count |
| RetryPolicy.ItemsTotal | cu_api/companies.py:270-271 | the flushed lines add up to the total count |
| RetryPolicy.RetryLogger.constructor | cu_api/companies.py:262-264 | no counts, last flush at time 0 |
| RetryPolicy.RetryLogger.LogRetry | cu_api/companies.py:266-273 | always counts the retry; after more than a second it flushes one `(sec, count)` line per delay in order, clears the counts and records the time, otherwise keeps accumulating; every retry logged is either pending or reported |
| RetryPolicy.RetryLogger.BucketLines | cu_api/companies.py:270-271 | one line per delay, in the dict's order |
| RetryPolicy.UpdateBatch | cu_api/companies.py:282-305 | the for loop's outcome, sleeps and request count are the specification's, and it logs one retry per wait |
| AsyncUpdate.AsyncWindows | cu_api/companies.py:324 | `range(0, len(df), batch_size)`: zero raises, a negative size gives no batch, otherwise the windows |
| AsyncUpdate.BodiesAt | cu_api/companies.py:324-336 | task j's body is window j's payload |
| AsyncUpdate.TaskRuns | cu_api/companies.py:336-340 | task j runs `update_batch` with three attempts on batch j's answers |
| AsyncUpdate.TallyPosts | cu_api/companies.py:338-340 | at most three requests per task |
| AsyncUpdate.TallyOk | cu_api/companies.py:338-342 | with no raise, one result per task, true exactly for the batches that succeeded |
| AsyncUpdate.TallyErr | cu_api/companies.py:338-340 | a raise is that of the first task whose header is bad |
| AsyncUpdate.CountTrueMultiset | cu_api/companies.py:342 | `results.count(True)` is the number of successes, at most the number of results |
| AsyncUpdate.CountTrueOrderFree | cu_api/companies.py:339-342 | the count does not depend on the order tasks complete in |
| AsyncUpdate.WaitsOrderFree | cu_api/companies.py:266-292 | the number of retries logged over all tasks does not depend on the order they complete in |
| AsyncUpdate.AsyncChecksFirst | cu_api/companies.py:308-318 | a missing 'id' column, an unknown column, duplicate ids or `batch_size=0` raise before any request |
| AsyncUpdate.BadEntryPostsNothing | cu_api/companies.py:324-336 | a row whose payload entry raises stops the call before any request |
| AsyncUpdate.BodiesOk | cu_api/companies.py:324-334 | when every entry is built, every body is |
| AsyncUpdate.AsyncBodies | cu_api/companies.py:307-342 | after the checks, the call is its tasks over the windows of the frame |
| AsyncUpdate.WindowBodies | cu_api/companies.py:324-334 | ceil(n/b) bodies; body j holds rows j*b up to min(b, n-j*b) rows |
| AsyncUpdate.AsyncPartition | cu_api/companies.py:324-336 | every row goes in exactly one task's body, in order, with ceil(n/batch_size) tasks of 1..batch_size rows |
| AsyncUpdate.TasksRunCounts | cu_api/companies.py:336-342 | the report counts one task per body, and its successes are the successful batches; requests are at most three per task |
| AsyncUpdate.AsyncReportCounts | cu_api/companies.py:338-342 | the same for a whole call |
| AsyncUpdate.BuildBodies | cu_api/companies.py:324-336 | the loop builds every window's body or raises the first error |
| AsyncUpdate.RunTasks | cu_api/companies.py:336-340 | running the tasks gives the specification's results and request count; with no raise, the shared logger has counted one retry per wait of every task |
| AsyncUpdate.BulkUpdateAsync | cu_api/companies.py:307-342 | the whole call matches the specification; after a report, the logger has counted one retry per wait of every task |
| CompanyRows.CleanDate | cu_api/companies.py:37-47 | `None` stays `None`; a value that is not an int of 6 to 10 characters is returned unchanged; otherwise the converted time, or the value itself if the conversion raises |
| CompanyRows.TimestampDigits | cu_api/companies.py:40 | `str(d)` has 6 to 10 characters exactly for 100000..9999999999 and -999999999..-10000 |
| CompanyRows.TimestampExamples | cu_api/companies.py:40-45 | 1700000000 is converted, 12345 is kept |
| CompanyRows.NativeUpToShape | cu_api/companies.py:52 | after the first items, exactly those keys are set, each to the record's value or `None` |
| CompanyRows.NativeFields | cu_api/companies.py:49-52 | the four native items, each holding the record's value or `None`, and nothing else |
| CompanyRows.CopyUpToShape | cu_api/companies.py:53-54 | copying the address adds exactly its keys with its values and leaves other keys alone |
| CompanyRows.CustomStep | cu_api/companies.py:58-74 | an id missing from CUSTOM_FIELDS raises even when the field is not requested; an unrequested field changes nothing; a requested one sets its name to its cleaned value and touches no other key |
| CompanyRows.CustomFromErr | cu_api/companies.py:58-61 | the loop raises exactly when some field id is missing from CUSTOM_FIELDS, naming the first one |
| CompanyRows.CustomFromOk | cu_api/companies.py:58-74 | otherwise it adds exactly the names of the requested fields and leaves the other keys' values alone |
| CompanyRows.CustomFromLast | cu_api/companies.py:63-74 | the last requested field of a name decides its value |
| CompanyRows.CleanedRowErrors | cu_api/companies.py:53-61 | a missing 'address' key or 'custom_fields' key raises, and so does an unknown custom field id |
| CompanyRows.AddressStage | cu_api/companies.py:49-54 | after the address: the native items and the address keys; the address overrides a native item of the same name |
| CompanyRows.CleanedRowKeys | cu_api/companies.py:49-76 | a cleaned row holds exactly the native items, the address keys and the names of the requested custom fields |
| CompanyRows.CleanedRowCustomValue | cu_api/companies.py:63-74 | a requested custom field's column holds its cleaned value: the option name, the converted date, or the value |
| CompanyRows.CleanedRowKeptValue | cu_api/companies.py:49-74 | a native item or address key that no requested field renames keeps the record's value (or `None`) or the address's value |
| CompanyRows.RequestedDateField | cu_api/companies.py:63-71 | a Date field asked for by name or by id is converted under its name; one not asked for is left out |
| CompanyRows.CleanRow | cu_api/companies.py:28-76 | the three loops compute the cleaned row or raise as the specification says |
| Python.ParseDecimalString | cu_api/query.py:22-25 | `int(str(n)) == n` for every int n |
| QueryResolve.CheckKey | cu_api/query.py:10-29 | a name in CF_ID_LOOKUP gives `CF_ID_LOOKUP[name]`; an int key resolves exactly when it is in CUSTOM_FIELDS_DICT, to itself; any other str resolves exactly when `int()` parses it to an id in CUSTOM_FIELDS_DICT, to that id; every other key raises ValueError |
| QueryResolve.CheckKeyRoundTrip | cu_api/query.py:17-27 | a known id resolves to itself as an int and as its decimal string (unless that string is a field name); with consistent tables a field's name resolves to a field of that name |
| QueryResolve.CheckKeyNameFirst | cu_api/query.py:17-29 | a field named "12" wins over the id 12 given as a string; " 12 " is parsed; unknown names and ids raise |
| QueryResolve.FindKeyByValue | cu_api/query.py:48-52 | `None` exactly when no option has the name; otherwise the id of the first option in order with that name |
| QueryResolve.ValueItems | cu_api/query.py:45-57 | a str or an int is a one-item list, a list is its items, anything else is not iterable |
| QueryResolve.ItemId | cu_api/query.py:57-69 | an item resolves only to an id of one of the field's options |
| QueryResolve.ItemIdRoundTrip | cu_api/query.py:57-67 | an option's name gives an option of that name, found first; its id gives itself as an int and as a string; with distinct names, the name gives back the option |
| QueryResolve.ItemIdDropped | cu_api/query.py:63-69 | unknown ids, unknown non-numeric names and other values are dropped |
| QueryResolve.ItemIdKept | cu_api/query.py:58-67 | for any item: a name gives the first id with that name, an int option id itself, and any other string whose `int()` is an option id (" 3", "03", "+3") that id |
| QueryResolve.ResolvedMembers | cu_api/query.py:55-69 | `Updated_List` holds exactly the ids some item resolves to, all of them option ids |
| QueryResolve.Dedup | cu_api/query.py:71 | no duplicates, and the same members as the input |
| QueryResolve.CheckedValue | cu_api/query.py:32-71 | raises exactly for a non-iterable value; otherwise distinct option ids, exactly those some item resolves to |
| QueryResolve.CheckValue | cu_api/query.py:45-71 | the loop and the set conversion compute `_check_value` |
| QueryResolve.Unique | cu_api/query.py:71 | the set conversion, one id at a time |
| QueryResolve.CheckValueExample | cu_api/query.py:45-71 | "Blue" gives its first id 2, 3 and "3" give 3, "Green" is dropped |
| QueryObject.Processed | cu_api/query.py:142-152 | a native key is stored with its value unchanged; any other key is stored under its resolved id with a duplicate-free list of option ids of that field, or raises |
| QueryObject.ProcessedAsWritten | cu_api/query.py:145-148 | as written, every key outside the native list raises NameError |
| QueryObject.CustomKeyRaisesAsWritten | cu_api/query.py:145-152 | as written, "Region" = "West" raises NameError; corrected, it stores id 5 with options [50] |
| QueryObject.Query.constructor | cu_api/query.py:136-140 | a query starts empty |
| QueryObject.Query.ProcessInput | cu_api/query.py:142-152 | with the corrected processing: stores the processed pair, appending a native key to `_native_fields` again on every set; an error changes nothing |
| QueryObject.Query.SetItem | cu_api/query.py:154-159 | with the corrected processing: 'Custom Fields' and 'Custom_Fields' only set `_custom_fields`; any other key is stored raw and then processed; a list key raises TypeError |
| QueryObject.Query.ProcessInputAsWritten | cu_api/query.py:142-152 | as written: a native key is stored and recorded; any other key raises NameError and changes nothing |
| QueryObject.Query.SetItemAsWritten | cu_api/query.py:154-159 | as written: a custom field key is stored raw in `_data` and then raises NameError, with `_processed_data` unchanged, so it never comes to hold a field id |
| QueryObject.RegionAsWritten | cu_api/query.py:147-158 | as written, `q["Region"] = "West"` leaves "Region" in `_data`, raises NameError and stores nothing processed |
| QueryObject.Query.GetItem | cu_api/query.py:161-167 | the raw input first, then the processed value, else KeyError |
| QueryObject.Query.GetInput | cu_api/query.py:169-171 | the raw input, or the default |
| QueryObject.Query.GetOutput | cu_api/query.py:173-175 | the processed value, or the default |
| QueryObject.Query.DelItem | cu_api/query.py:177-181 | removes the key from whichever dict holds it, without error if absent; `_native_fields` is untouched |
| QueryObject.Query.Contains | cu_api/query.py:183-184 | true exactly when the key is in either dict |
| QueryObject.Query.Keys | cu_api/query.py:198-199 | the processed keys in insertion order, each once |
| QueryObject.RemoveFirst | cu_api/query.py:238 | `list.remove` raises exactly when the item is absent, and otherwise removes one occurrence |
| QueryObject.RemoveFirstOrder | cu_api/query.py:238 | `list.remove` takes out the first occurrence and keeps the order of the rest |
| QueryObject.NonNativeDistinct | cu_api/query.py:233-238 | removing the native fields from the processed keys succeeds exactly when each was recorded once and is still present; what remains are the other keys in order |
| QueryObject.NativeParams | cu_api/query.py:236-237 | the outputs of the native fields, in the order they were set |
| QueryObject.NativeParamsLoseNames | cu_api/query.py:221-237 | as written, 'state' = 'CA' and 'city' = 'CA' give the same `Native_Params`, `['CA']` |
| QueryObject.NamedNativeParamsKeepNames | cu_api/query.py:221-237 | the documented `[{'state': 'CA'}]` form: one single-entry dict per native field, keyed by its name, holding the value the as-written list has at that position |
| QueryObject.CfParams | cu_api/query.py:240-242 | one parameter per remaining key, carrying its output |
| QueryObject.QueryParamsShape | cu_api/query.py:231-244 | over any processed dict: `_process_query` succeeds exactly when each native field was set once and not deleted; then the custom field parameters are the other processed keys in order |
| QueryObject.ProcessQuery | cu_api/query.py:231-244 | the two loops compute `_process_query` |
| QueryObject.BuildCfParams | cu_api/query.py:240-242 | the second loop builds the custom field parameters |
| QueryObject.DeleteByNameKeepsId | cu_api/query.py:177-181 | with the corrected processing, deleting a custom field by name removes the raw input but leaves its resolved-id entry |
| QueryObject.NativeSetTwice | cu_api/query.py:150-238 | setting 'state' twice records it twice and keeps the second value; `_process_query` then raises ValueError |
| QueryObject.StateTwiceRaises | cu_api/query.py:235-238 | the second `remove('state')` raises |

## Left out

- Network I/O, the aiohttp session, the SSL context, the requests `Session`
  and the headers: answers and clocks are parameters.
- Exceptions raised by the transport itself (`Sess.post` at
  cu_api/companies.py:244 and `session.post` at cu_api/companies.py:286:
  connection errors, timeouts, TLS failures). Every request is modelled as
  answered with a status.
- The `asyncio.Semaphore(4)` admission bound and the interleaving of tasks:
  `AsyncUpdate` runs the tasks one after another in batch order. It builds
  every payload before the first request, as the code does. With no raise,
  only the order of the results is lost, and `AsyncUpdate.CountTrueOrderFree`
  shows that the count does not depend on it.
- AsyncUpdate.TallyErr: when several tasks meet a bad `Retry-After` header,
  the code raises the `ValueError` of whichever of them `as_completed`
  yields first. The model raises that of the first such task in batch order.
- AsyncUpdate.RunTasks: the requests other tasks have made when a
  `ValueError` surfaces depend on completion order. The model counts only
  the requests of the tasks before the raising one in batch order, and of
  the raising task itself.
- AsyncUpdate.RunTasks: a single `RetryLogger` is shared as in the code, but
  one task's retries are not interleaved with another's, so flush times
  differ from a concurrent run.
- `tqdm` progress bars and all printed text except the `(sec, count)` lines
  of `RetryLogger`.
- `search`, `search_old`, `_search_loop`, `_clean_dataframe`, `_run_async`,
  `update` and `set_headers`: HTTP pagination, pandas plumbing and a mode
  switch outside this model.
- `core.prc_get_cf_fields`, `get_cf_options` and `cf_option_name`: foreign
  calls whose results are fields of `Config.Snapshot`.
- CompanyRows.CleanDate: the pandas/pytz conversion is the parameter
  `toCentral`. Only the int-of-6-to-10-characters test and the `except` path
  are modelled.
- CompanyRows.CleanRow: records are assumed to have the API's shape. A
  custom field dict without 'custom_field_definition_id' or 'value'
  (KeyError at cu_api/companies.py:59-73) and `custom_fields: null`
  (TypeError at cu_api/companies.py:58) cannot be expressed in `Company`.
- CompanyRows.CleanRow: `output_dict` is modelled as a map, so the column
  order of the resulting DataFrame row is not modelled. The address dict
  keeps its key order.
- CompanyRows.CleanedRowKeys: with the key order of `output_dict` left out,
  this lemma states the set of keys only.
- QueryResolve.Dedup: `list(set(...))` has no order that Python promises.
  The model keeps first occurrences, and the contracts state only
  membership and the absence of duplicates.
- Python `bool` and `float` values, and `True == 1` as dict keys. `PyVal`
  has no such values.
- `int()` on strings accepts ASCII whitespace, a sign and ASCII digits only.
  Underscores and non-ASCII digits are not modelled.
- `__repr__`, `inputs`, `input_keys`, `input_values`, `items` and `values`
  of `Query`: read-only views of the two dicts.
- Batches.PlanUpdate: pandas failures other than a missing column and
  duplicate ids (for example, a non-string column label) are not modelled.

## Findings

| source | as written | input that shows it | evidently intended | confidence | as-written member | corrected member |
|---|---|---|---|---|---|---|
| cu_api/companies.py:214-217 | `columns` is filtered to the known columns before `missing` is computed from it, so `missing` is always empty | `columns=["Stage"]` with "Stage" not in CF_ID_LOOKUP: the column is skipped and no warning prints | warn about the requested columns that are skipped | high (not executed) | Batches.MissingAsWrittenIsEmpty | Batches.DroppedColumns |
| cu_api/query.py:147-148 | `_process_input` calls `check_key` and `check_value`, but the module defines only `_check_key` and `_check_value` | `query["Region"] = "West"` raises NameError | resolve the key and its values with `_check_key` and `_check_value` | high (not executed) | QueryObject.ProcessedAsWritten | QueryObject.Processed |
| cu_api/query.py:221-237 | `Native_Params` gets the bare `get_output(item)` of each native field, so the field names are lost | 'state' = 'CA' and 'city' = 'CA' both give `['CA']` | the documented `[{'state': 'CA'}]`, one `{field: value}` per native field | medium (not executed) | QueryObject.NativeParamsLoseNames | QueryObject.NamedNativeParamsKeepNames |
