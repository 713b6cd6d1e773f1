# CRXcavator extension enumeration, modelled in Dafny

The repository looks up Chrome Web Store extensions in the CRXcavator service.
`ChromeExtension` holds one extension id and a lazily filled `report` slot.
It has three operations:

- `submit_for_scan` POSTs the id for scanning.
- `crxcavator_lookup` GETs the latest report, or records `{}` and submits a scan when there is none.
- `get_risk_info` reduces the report to a flat record of 23 fields, or to a two-field placeholder when there is no data.

`ExtensionList` runs one of these operations over a batch of extensions on a worker pool. It exports twenty columns per extension to CSV. The driver script `EnumerateSitemap.py` does two things:

- It turns sitemap URLs into ids.
- It walks the ids in batches of 10000, skipping each batch whose `dump{idx}.csv` already exists.

Each source file has its own module:

- `wrappers.dfy`: `Option` and `Result`.
- `reports.dfy` (module `Reports`): the JSON shapes of a report, and the pure reduction `get_risk_info` applies to a report once it has one. A Python exception becomes a `Crash` value.
- `service.dfy` (module `Service`): the network, as a value `Wire`. It holds the feed of outcomes still to come (connection error, a non-200 status, or a 200 reply with a list of reports), the requests sent and the log lines written. `Submit` and `Lookup` state the source's retry recursion as recursive functions over that value.
- `chrome_extensions.dfy` (module `ChromeExtensions`): the two classes.
  - The methods update `report` in place and run the retry recursion as a loop.
  - Each method is proved equal to its specification function.
  - The pool map is an order-preserving sequential fold (`LookupAll`, `RiskInfoAll`, `SubmitAll`).
- `enumerate_sitemap.dfy` (module `EnumerateSitemap`): the two loops of the driver script, as methods proved against specification functions.

The source retries a connection error by calling itself again. The model runs that retry as an unbounded loop over the feed. A call therefore returns only on a feed that eventually gives some other outcome. Its callers are required to supply such a feed (`Answers`, `LookupReturns`, `RiskInfoReturns`). The folds return `None` when some element's feed never does. The source's own limit on the depth of that recursion is listed under "Left out".

## Model

| member | source | states |
|---|---|---|
| Service.Submit | ChromeExtensions.py:25-42 | the retry recursion of `submit_for_scan` consumes at least one outcome and sends at least one POST. `SubmitSpec` gives its closed form |
| Service.Lookup | ChromeExtensions.py:44-59 | the retry recursion of `crxcavator_lookup` consumes at least one outcome and sends at least one request. `LookupSpec` gives its closed form |
| Service.FirstAnswer | ChromeExtensions.py:40-42 | the index of the first outcome that is not a connection error; every earlier one is a connection error |
| Service.AnswersIff | ChromeExtensions.py:40-42 | a submission returns exactly when the feed holds some outcome other than a connection error |
| Service.RetryShift | ChromeExtensions.py:40-42 | after a connection error the retry sees the feed shifted by one, with one more request and one more log line before its first answer |
| Service.SubmitSpec | ChromeExtensions.py:25-42 | `submit_for_scan` returns true exactly when the first answer is a 200. It sends one POST per outcome up to that answer and consumes nothing after it. It logs one retry line per connection error, and one rejection line with code and body for a non-200 status |
| Service.LookupReturnsAnswers | ChromeExtensions.py:44-59 | a feed on which a lookup returns also answers its first request |
| Service.LookupSpec | ChromeExtensions.py:44-59 | `crxcavator_lookup` after k connection errors (k GET retries logged). A 200 with a non-empty list gives the list's last report and consumes nothing more. Any other answer gives `{}` followed by exactly one scan submission |
| ChromeExtensions.Fetch | ChromeExtensions.py:61-63 | the report `get_risk_info` works on: with an empty slot the lookup consumes an outcome and sends a request. `LazyLookup` gives the rest |
| ChromeExtensions.RiskInfo | ChromeExtensions.py:61-118 | `get_risk_info` never un-consumes the feed, and it sends a request exactly when the slot is empty or a no-data scan is asked for. `LazyLookup`, `NoDataCall` and `RepeatedCall` give the rest |
| ChromeExtensions.ChromeExtension.constructor | ChromeExtensions.py:16-18 | the id is stored and the report slot starts empty |
| ChromeExtensions.ChromeExtension.SubmitForScan | ChromeExtensions.py:25-42 | the retry loop returns the same success flag and leaves the same wire as `Submit` |
| ChromeExtensions.ChromeExtension.CrxcavatorLookup | ChromeExtensions.py:44-59 | the retry loop stores `Lookup`'s report in `report` and leaves `Lookup`'s wire |
| ChromeExtensions.ChromeExtension.GetRiskInfo | ChromeExtensions.py:61-118 | looks up only when the slot is empty. It returns `RiskInfo`'s record or exception, leaves the report in the slot and the wire as `RiskInfo` says |
| ChromeExtensions.LazyLookup | ChromeExtensions.py:61-63 | the record is the reduction of the report the call ends with. An empty slot is filled by a lookup. A filled slot is kept and no request is sent, except for the no-data scan `submit` asks for |
| ChromeExtensions.NoDataCall | ChromeExtensions.py:64-68 | an empty report gives the placeholder record and one no-data log line. A scan is submitted exactly when `submit` is set |
| ChromeExtensions.RepeatedCall | ChromeExtensions.py:61-63 | a second call after the first fetches nothing and returns the same record and report |
| Reports.KeyList | ChromeExtensions.py:75 | `list(d.keys())` gives one name per entry, in order, and no name twice when the decoded dict's keys are distinct |
| Reports.BaseRecord | ChromeExtensions.py:70-82 | the dict literal holds no JSON `null`: a copied `null` is stored as `None`. `BaseRecordKeys` gives its key set |
| Reports.ListingUpdate | ChromeExtensions.py:83-117 | a successful listing update holds no JSON `null`. `ListingUpdateKeys` and `ListingBlock` give its keys and values |
| Reports.Normalize | ChromeExtensions.py:64-118 | the empty report never raises, and every record carries the extension's id and encodes `None` one way only. `RaisesExactly`, `Decompose` and the lemmas below give the rest |
| Reports.SubScoreCrash | ChromeExtensions.py:78-80 | no exception exactly when no present sub-score dict lacks `total` |
| Reports.FirstMissing | ChromeExtensions.py:85-100 | the position of the first listing key, in read order, that the listing lacks. Every earlier key is present, and the full length means none is missing |
| Reports.ListingKeysSpec | ChromeExtensions.py:86-99 | the listing is read as fourteen distinct keys, exactly the listing keys |
| Reports.BaseRecordKeys | ChromeExtensions.py:70-82 | the base dict holds exactly its ten keys |
| Reports.NoDataShape | ChromeExtensions.py:64-68 | an empty report gives exactly `{extension_id, name: 'No data available.'}` |
| Reports.RaisesExactly | ChromeExtensions.py:69-117 | a non-empty report raises exactly when one of these holds: `data`, `version`, `risk` or `webstore` is missing; a present sub-score lacks `total`; or a truthy `webstore` is not a dict holding all fourteen listing keys |
| Reports.CrashOrder | ChromeExtensions.py:69-83 | which exception a missing `data`, `version`, `risk` or `webstore` raises, in the source's evaluation order |
| Reports.Decompose | ChromeExtensions.py:70-117 | a successful record is the base dict of :70-82 updated with the listing fields |
| Reports.ListingUpdateKeys | ChromeExtensions.py:84-117 | the listing update sets exactly the fourteen listing keys and no base-only key |
| Reports.RecordKeySet | ChromeExtensions.py:70-117 | the record of a non-empty report holds all 23 keys, whichever optional sections are present |
| Reports.OptionalSections | ChromeExtensions.py:74-81 | `URLs`, `entrypoints` and `manifest` are `None` exactly when their key is absent or holds JSON `null`, and are copied otherwise. `dangerous_fns` is `None` exactly when its key is absent |
| Reports.DangerousFnsList | ChromeExtensions.py:75-76 | a present `dangerousfunctions` dict gives its key list in order, without repeats when its keys are distinct |
| Reports.RiskScores | ChromeExtensions.py:73-80 | each sub-score is `None` exactly when its key is absent from `risk` or its `total` is `null`, and that `total` otherwise. `total_risk` is `None` exactly when `risk` has no `total` or it is `null` |
| Reports.ListingBlock | ChromeExtensions.py:83-117 | a falsy `webstore` sets all fourteen listing fields to `None`, and a truthy one copies all fourteen, a `null` among them read as `None`. In both cases `version` comes from the listing, not from the report's top-level `version` |
| ChromeExtensions.ExportData | ChromeExtensions.py:146-148 | `get_risk_info()` on a worker's copy of an extension's id and report gives `RiskInfo`'s record and wire |
| ChromeExtensions.ExportAll | ChromeExtensions.py:126-132 | the map of `_export_data` over the extensions' ids and reports gives `RiskInfoAll`'s records, or its first exception, and its wire |
| ChromeExtensions.ExtensionList.constructor | ChromeExtensions.py:122-124 | one fresh, distinct extension per id, in order, each with an empty slot; the pool size is stored |
| ChromeExtensions.LookupAll | ChromeExtensions.py:126-136 | the pool map of lookups yields one report per id |
| ChromeExtensions.LookupAllPrefix | ChromeExtensions.py:126-136 | the map keeps input order: element i is the lookup of id i on the wire the first i lookups left |
| ChromeExtensions.LookupAllStep | ChromeExtensions.py:126-136 | one more lookup extends the lookups of a prefix |
| ChromeExtensions.LookupWorker | ChromeExtensions.py:138-141 | `_lookup` on a worker's copy gives `Lookup`'s report and wire |
| ChromeExtensions.LookupEach | ChromeExtensions.py:126-132 | the map of `_lookup` over the ids gives `LookupAll`'s reports and wire |
| ChromeExtensions.ExtensionList.GetExtensionData | ChromeExtensions.py:134-141 | the list is replaced by the returned extensions: the same ids in the same order, distinct, extension i holding report i of `LookupAll`. The wire is the one `LookupAll` leaves |
| ChromeExtensions.RiskInfoAll | ChromeExtensions.py:143-148 | one record per extension when no call raises |
| ChromeExtensions.RiskInfoAllFailed | ChromeExtensions.py:143-148 | the first exception ends the whole map |
| ChromeExtensions.ExtensionList.GetRecords | ChromeExtensions.py:143-148 | the records, or the first exception, and the wire are `RiskInfoAll`'s over the extensions' ids and reports |
| ChromeExtensions.SubmitAll | ChromeExtensions.py:150-151 | the pool map of submissions yields one result per extension |
| ChromeExtensions.Count | ChromeExtensions.py:152-153 | a count never exceeds the number of results. `CountSplit` relates the two counts |
| ChromeExtensions.CountSplit | ChromeExtensions.py:152-153 | the success and failure counts add up to the number of results |
| ChromeExtensions.ExtensionList.SubmitForScans | ChromeExtensions.py:150-157 | the two counts are the numbers of true and false results of `SubmitAll`, and they add up to the number of extensions |
| ChromeExtensions.ColumnsSpec | ChromeExtensions.py:161-166 | twenty distinct columns: every record key except `URLs`, `dangerous_fns` and `manifest` |
| ChromeExtensions.RowOfReport | ChromeExtensions.py:159-167 | a report's row holds the record's value in every column |
| ChromeExtensions.RowOfNoData | ChromeExtensions.py:159-167 | the no-data row holds only the id and the placeholder name |
| ChromeExtensions.ExtensionList.ToCsv | ChromeExtensions.py:159-167 | one row per extension, in input order, from `RiskInfoAll`'s records; an exception propagates |
| EnumerateSitemap.LastSegment | EnumerateSitemap.py:15 | the id is no longer than the URL. `LastSegmentSpec` says which part of the URL it is |
| EnumerateSitemap.LastSegmentSpec | EnumerateSitemap.py:15 | the id is the longest suffix of the URL without a '/' (empty for a URL ending in '/') |
| EnumerateSitemap.ExtIdList | EnumerateSitemap.py:13-15 | one id per URL, in sitemap order |
| EnumerateSitemap.Decimal | EnumerateSitemap.py:25 | `f'{idx}'`, the decimal numeral of the batch index. Specified by `DecimalInjective`; its own contract only says the numeral is non-empty |
| EnumerateSitemap.DecimalInjective | EnumerateSitemap.py:25 | distinct batch indices have distinct numerals |
| EnumerateSitemap.DumpName | EnumerateSitemap.py:25 | `f'dump{idx}.csv'`. Specified by `DumpNameInjective`, which says no two batches share a name; its own contract only gives the length |
| EnumerateSitemap.DumpNameInjective | EnumerateSitemap.py:25-27 | distinct batches have distinct `dump{idx}.csv` names |
| EnumerateSitemap.BatchCount | EnumerateSitemap.py:24 | the loop runs for the least k with k·10000 ≥ the number of ids |
| EnumerateSitemap.Batch | EnumerateSitemap.py:26 | a batch holds at most 10000 ids. `BatchSize`, `BatchesDisjoint` and `ConcatBatches` give the rest |
| EnumerateSitemap.BatchSize | EnumerateSitemap.py:23-26 | every batch holds at most 10000 ids, and every visited batch at least one. Batch idx starts at position idx·10000 |
| EnumerateSitemap.BatchesDisjoint | EnumerateSitemap.py:26 | batch `a` and a later batch `b` take disjoint position ranges `[Lo, Hi)` of the id list, in increasing order. `Batch` is defined as the slice over exactly that range |
| EnumerateSitemap.ConcatBatches | EnumerateSitemap.py:22-31 | the batches concatenated in order are exactly the id list |
| EnumerateSitemap.Schedule | EnumerateSitemap.py:22-31 | at most one job per batch index. `ScheduleSpec` says which batches get one |
| EnumerateSitemap.ScheduleSpec | EnumerateSitemap.py:25-29 | batch idx is processed exactly when `dump{idx}.csv` is not listed, with its own file and slice, in increasing index order |
| EnumerateSitemap.NotYetWritten | EnumerateSitemap.py:25-27 | the file of batch idx is never one the loop wrote for an earlier batch |
| EnumerateSitemap.RunBatches | EnumerateSitemap.py:22-31 | the loop writes exactly the `Schedule` of the initial listing up to where it stops. It stops after the last batch when no processed batch's export raises. Otherwise it stops at the first processed batch whose export raises, with that batch's file unwritten and no later batch visited. Files it wrote itself never make it skip a later batch |

## Left out

- HTTP, JSON decoding and the headers: `requests`, `response.json()`, and `get_headers` reading `apikey.txt` (ChromeExtensions.py:20-23). Each attempt's outcome is an input taken from the `Wire` feed.
- A 200 reply whose body is not a JSON list. Its indexing with `[-1]` is not modelled.
- `write_log` (ChromeExtensions.py:10-12): the timestamp and message text are not modelled. The log is the sequence of `LogEntry` values.
- `run_async` (ChromeExtensions.py:126-132): the `multiprocessing.Pool` and its `tqdm` progress bar. The pool is modelled as a sequential map that preserves input order. Workers that would overlap in time take their replies in list order.
- Pickling: a worker receives the extension's id and report and hands back its copy's result. The returned list of `get_extension_data` holds new objects built from those results.
- ChromeExtensions.ExtensionList.GetRecords: with a pool, calls after the one that raises may still run. The model stops at the first exception.
- `pd.DataFrame` and `DataFrame.to_csv`: the model stops at the rows of column cells, with empty cells for missing keys. Writing the file, its encoding, and pandas' handling of a column that no record holds are not modelled.
- The `print` calls of ChromeExtensions.py:135,152-153 and EnumerateSitemap.py:28,30. The counts they print are returned instead.
- The default `pool_size=20`: the pool size is an explicit constructor argument. It has no effect on a sequential map.
- ChromeExtensions.ChromeExtension.GetRiskInfo: `submit` is a `bool`. The source's default is `submit=False` and it tests `submit is not False` (ChromeExtensions.py:61,66), so `None` or `0` would also submit a scan. No caller passes anything but the default.
- Service.Submit: each retry of `submit_for_scan` is a nested call (ChromeExtensions.py:42). CPython raises `RecursionError` once the stack reaches its recursion limit (1000 frames by default), and `except requests.exceptions.ConnectionError` does not catch it. The model has no depth bound: a feed of about a thousand connection errors followed by an answer returns in the model and raises in the source.
- Service.Lookup: the same holds for the retries of `crxcavator_lookup` (ChromeExtensions.py:59).
- Service.Answers: it admits feeds with any number of connection errors before the answer, including feeds on which the source would raise `RecursionError`. `LookupReturns` and `RiskInfoReturns` admit them too.
- ChromeExtensions.ChromeExtension.SubmitForScan: the loop has no depth bound. On the feeds above it returns where the source raises `RecursionError`.
- ChromeExtensions.ChromeExtension.CrxcavatorLookup: the same as `SubmitForScan`.
- Report JSON: numbers are integers, and floating-point scores are not modelled. `risk`, its sub-scores and `dangerousfunctions` are assumed to be dicts when present. A `risk` value of another type is not modelled. `data` is assumed to be a dict when present: a JSON `null` there raises `AttributeError` at ChromeExtensions.py:69, which is not modelled. The last element of a 200 reply's list (ChromeExtensions.py:53) is assumed to be a dict. A non-dict element would be stored in `report` and then raise at :69, and a `null` element would leave the slot looking unfetched. Neither case can be written as a `RawReport`.
- Reports.BaseRecord: `risk['total'] if (risk and 'total' in risk)` is modelled as `risk.total`, with a JSON `null` read as `None`. The two are equal because a dict that holds `total` is truthy.
- EnumerateSitemap.BatchCount: the loop guard `idx < len(ext_id_list)/10000` divides in floating point. It is modelled as `idx * 10000 < len`, which agrees for every length below 2^53 (about 9·10^15), so for every list that fits in memory. Above that the float quotient can round down, and the source would skip a last batch that the model visits.
- Reading the sitemap file and `os.listdir` (EnumerateSitemap.py:7-12,25). The sitemap is an input sequence of URLs. The directory's first listing is an input set, and each file the loop writes is added to it.
- EnumerateSitemap.LastSegment: `os.path.split` is modelled for '/' separators only.
- The calls of ExtensionList inside each batch (EnumerateSitemap.py:26-27) are modelled by `ExtensionList.ToCsv`. `RunBatches` returns the batches as `Job` values, and running them is not chained to it.
- EnumerateSitemap.RunBatches: whether a batch's `to_csv` raises is the input set `raises`, not computed from the batch. The causes are a `Crash` from `Normalize` that the pool re-raises, and pandas' KeyError for an export column that no record holds. Computing it would need each batch's wire and reports.
- GetReports.py is not part of this model.
