# Bucket metrics pipeline — a Dafny model

This project models the core of a tool that takes stock of the object-storage buckets in a cloud account. It covers five stages:

- **Discovery.** For each listed bucket it finds the region with a retried location probe and reads the tag set. From these it builds one record per bucket, marked accessible or inaccessible.
- **Client pool.** It builds one metrics-backend client per known region.
- **Aggregation.** For every accessible bucket and every configured storage class, it queries the average size in two windows:
  - the recent window, two days ago until today;
  - the baseline window, 32 to 30 days ago.
  The current size is the sum of the recent values. The monthly growth is the current size minus the sum of the baseline values.
- **Ranking.** It ranks the records by monthly growth.
- **Plumbing.** Around these sit the storage-class selection from the run configuration, the flattening of tag sets, and the mapping between records and the cache files' flat objects.

The cloud provider appears as oracle functions:
- `headBucket(name, attempt)` is the location probe;
- `tagging(name)` is the tag-set read;
- `api(query, attempt)` is a metric-statistics query.

Each oracle returns a response or raises an exception, modelled as the `Outcome` type. The retry decorator is a bounded attempt loop, `RetryDecorator.Retry`. It is proved equal to the function `Retried`, and every retried operation is stated and proved against `Retried`.

There are five modules:

| module | contents |
|---|---|
| `Runtime` | Options, exceptions, call outcomes, JSON values and their truthiness |
| `Model` | The record class, the configuration object and the constant tables |
| `RetryDecorator` | The retry decorator |
| `Boto3Utils` | Discovery, the client pool and the aggregator |
| `CommonUtils` | Ranking, storage-class selection, tags and the cache mapping |

Two behaviours of the code are worth knowing, and the model keeps both as written:

- **Exhausted location probe.** Three non-success answers make the probe raise StopIteration (boto3_utils.py:27, 33-34). Nothing in discovery catches it (boto3_utils.py:49-51), so the whole discovery stops. One might expect such a bucket to be marked inaccessible and the run to carry on instead; see `Boto3Utils.ExhaustedProbeAbortsDiscovery`.
- **Failing storage-class query.** The aggregator catches failures per storage class (boto3_utils.py:99-107). A failing class is skipped, and the sums already collected for that bucket are kept. When only the baseline query of a class fails, its recent value still counts, because it was added before the baseline query was made.

## Model

| member | source | states |
|---|---|---|
| Model.GetAccessibility | model.py:13-15 | The marker is the accessible one exactly when a value is given, and the inaccessible one exactly when none is. |
| Model.AccessibilityRecoverable | model.py:10-15 | Two buckets get the same marker exactly when both or neither have a region, so the marker tells whether the region is known. |
| Model.BucketMetrics.constructor | model.py:24-31 | The new record holds each argument unchanged, and both sizes default to zero. |
| Model.InputConfigs.constructor | model.py:41-44 | Setting one attribute per key leaves the object with exactly the dictionary's keys and values. |
| Model.InputConfigs.GetAttr | model.py:41-44 | Reading an attribute gives its value when the key was set, and raises AttributeError otherwise. |
| Model.StorageTablesShape | model.py:47-56 | The standard table is the single class StandardStorage. That class is the first entry of the full table, which holds 22 distinct classes. |
| Model.Instantiate | model.py:4-6 | Instantiating any constants-only class raises a TypeError whose message starts with the class name. |
| RetryDecorator.RetriedFromShape | boto3_utils.py:27 | Continued from attempt i, the decorated call makes at most Tries attempts and ends with its last attempt's outcome. Every earlier attempt raised a retried exception. |
| RetryDecorator.RetriedShape | boto3_utils.py:27 | A decorated call makes 1 to 3 attempts and its outcome is the last attempt's. Every earlier attempt raised a retried exception, and it ends on a retried exception only when all 3 attempts were used. |
| RetryDecorator.RetriedUnique | boto3_utils.py:55 | Any attempt count and outcome with the shape above are the ones the decorator produces, so that shape characterises the decorator. |
| RetryDecorator.Retry | boto3_utils.py:55 | The attempt loop produces exactly the decorated outcome and attempt count. |
| Boto3Utils.CheckSuccess | boto3_utils.py:23-24 | A response is a success exactly when its metadata has a status code in [200, 300). A missing metadata part or code counts as failure. |
| Boto3Utils.GetBucketLocation | boto3_utils.py:27-35 | The probe with its retries gives the decorated location outcome `Location`. |
| Boto3Utils.LocationStopsAt | boto3_utils.py:27-35 | After k non-success answers, the probe ends at attempt k+1 with that attempt's outcome, unless that attempt also asks for a retry. |
| Boto3Utils.LocationInaccessible | boto3_utils.py:29-32 | A ClientError from the probe gives no region, and no further attempt is made. |
| Boto3Utils.LocationFound | boto3_utils.py:33-35 | A successful probe gives the value of the `x-amz-bucket-region` header. |
| Boto3Utils.LocationExhausted | boto3_utils.py:27-34 | Three non-success answers exhaust the probe, which then raises StopIteration after 3 attempts. |
| Boto3Utils.GetBucketTags | boto3_utils.py:38-42 | Tags are absent when the region is unknown. A ClientError gives an empty tag set. Otherwise the result is the bucket's tag set, and any other exception propagates unchanged. |
| Boto3Utils.DiscoveredRecord | boto3_utils.py:49-51 | A discovered record keeps the bucket name and carries the probed region. It is accessible, and has tags, exactly when the region is known, and it starts with zero sizes. |
| Boto3Utils.ExhaustedProbeAbortsDiscovery | boto3_utils.py:49-51 | A bucket whose probe answers non-success three times makes discovery raise StopIteration; the bucket is not marked inaccessible. |
| Boto3Utils.GetBucketMetrics | boto3_utils.py:45-52 | Without an exception, there is one fresh, distinct record per listed bucket, in listing order, each equal to that bucket's discovery. Otherwise the exception raised is the first failing bucket's, and every earlier bucket was discovered. |
| Boto3Utils.GetStorageMetrics | boto3_utils.py:55-80 | One size query with its retries gives the decorated outcome `StorageMetric`. |
| Boto3Utils.StorageMetricStopsAt | boto3_utils.py:55-80 | After k retried failures (non-success status or ClientError), the query ends at the first attempt that is not retried and takes its outcome. |
| Boto3Utils.StorageMetricValue | boto3_utils.py:78-80 | A successful answer gives the last datapoint's Average, or 0.0 when there are no datapoints. |
| Boto3Utils.StorageMetricExhausted | boto3_utils.py:55-79 | Three retried failures exhaust the query, which then raises a retried exception after 3 attempts. |
| Boto3Utils.Regions | boto3_utils.py:84-85 | The set holds every known region of the records and nothing else. |
| Boto3Utils.GenerateCloudwatchClients | boto3_utils.py:83-86 | Afterwards the pool's keys are the old keys plus every known region. Existing clients are kept, and each new region gets a client for that region with the run's credentials. Exactly one client is created per new region. |
| Boto3Utils.TotalAppend | boto3_utils.py:97-105 | The sums over two runs of storage classes add up. |
| Boto3Utils.BucketSizesSnoc | boto3_utils.py:98-105 | Processing one more storage class adds that class's contribution to both sums. |
| Boto3Utils.FailingClassSkipped | boto3_utils.py:99-107 | A class whose recent query fails leaves the sums as if it were not listed. |
| Boto3Utils.BaselineFailureCountsCurrentOnly | boto3_utils.py:100-107 | A class whose baseline query alone fails adds its recent value to the current sum and nothing to the baseline sum. |
| Boto3Utils.EmptyContribution | boto3_utils.py:97-105 | A class whose two queries answer with no datapoints contributes zero to both sums. |
| Boto3Utils.NoDatapointsMeansZero | boto3_utils.py:97-108 | When every query of a bucket answers with no datapoints, both sums are zero. |
| Boto3Utils.BucketSizesOf | boto3_utils.py:97-107 | The inner loop's two running sums are the per-class contributions summed over the configured storage classes. |
| Boto3Utils.Aggregated | boto3_utils.py:94-108 | Aggregation never changes name, region, tags or accessibility, and leaves a record with no region untouched. |
| Boto3Utils.AggregatedIdempotent | boto3_utils.py:94-108 | Aggregating an already aggregated record changes nothing, so a record listed twice ends up the same as if it were processed once. |
| Boto3Utils.GrowthIsCurrentMinusPrior | boto3_utils.py:108 | For a record with a region, the current size is the recent sum and the monthly growth is the current size minus the baseline sum. |
| Boto3Utils.SetRecordSizeAndGrowth | boto3_utils.py:95-108 | One record's fields become its aggregated fields, and nothing else changes. |
| Boto3Utils.SetSizesAndGrowths | boto3_utils.py:94-108 | Given a client for every known region, every record's fields become its aggregated fields. This holds even when the same record appears more than once. |
| Boto3Utils.SetBucketSizeAndGrowth | boto3_utils.py:89-108 | After building the client pool, every record's fields become its aggregated fields. A record with no region keeps its fields. |
| CommonUtils.InsertDescSorted | common_utils.py:34 | Inserting into a list sorted by descending key keeps it sorted. |
| CommonUtils.InsertDescMultiset | common_utils.py:34 | Inserting adds exactly the inserted element. |
| CommonUtils.InsertDescWithKey | common_utils.py:34 | Inserting an element puts it before the elements that share its key, so it keeps its place ahead of the later input elements with that key. |
| CommonUtils.SortDescCorrect | common_utils.py:34 | The sort is descending by key, a permutation of its input, and stable: for each key, the elements with that key keep their input order. |
| CommonUtils.WithKeyMembers | common_utils.py:34 | The elements with key k are exactly the input elements whose key is k. |
| CommonUtils.StableSortUnique | common_utils.py:34 | Two descending lists that agree, key by key, on the order of their elements are equal, so every stable descending sort gives the same result. |
| CommonUtils.WithKeyOfPrefix | common_utils.py:34 | The elements with a given key in a prefix are a prefix of those in the whole list. |
| CommonUtils.FetchTopGrowthBuckets | common_utils.py:32-34 | The result has min(number of records, count) records, in non-increasing order of monthly growth, all taken from the input. |
| CommonUtils.TopGrowthStable | common_utils.py:34 | For every growth value, the top records with that growth are the first input records with that growth, in input order. |
| CommonUtils.TopIsPrefixOfStableSort | common_utils.py:34 | The top records are the first min(number of records, count) entries of any stable descending sort by growth. |
| CommonUtils.GetStorageType | common_utils.py:37-44 | A truthy `only_standard_storage` gives the standard table. Otherwise a truthy `all_storage_types` gives the full table, and otherwise the result is `custom_storage_types`. The call raises AttributeError exactly when an option it consults is not set. |
| CommonUtils.TagMapKeys | common_utils.py:55-58 | The flattened tags have one key per distinct tag key. |
| CommonUtils.TagMapLastWins | common_utils.py:56-58 | A key maps to the value of its last tag, so later duplicates overwrite earlier ones. |
| CommonUtils.TransformTags | common_utils.py:53-59 | A missing or empty tag set gives no map; otherwise the result is the key-to-value map built in tag order. |
| CommonUtils.WriteAsJson | common_utils.py:17-19 | There is one attribute dictionary per record, in list order, each holding that record's fields. |
| CommonUtils.ReadAsObject | common_utils.py:12-14 | There is one fresh, distinct record per cached object, in order, and writing the records back gives the same objects. So a write followed by a read reproduces every record field for field. |

## Left out

- Sessions and credentials are left out: `create_session`, the credential environment names, and reading the environment. Clients are values recording the credential choice and the region.
- Every provider call is modelled as an oracle parameter; nothing reaches a network. This covers bucket listing, the location probe, the tag read and the metric-statistics query. Responses depend only on the query and the attempt number, so a storage class listed twice gets the same answers twice.
- The two-second delay between retry attempts and the warning the retry decorator logs before each new attempt are not modelled (boto3_utils.py:27, 55), because the model has no time and no log.
- The run date is an integer count of days (`today`), and the query windows are offsets from it. Wall-clock time and time zones are not modelled.
- Sizes are real numbers. Floating-point rounding in the sums is not modelled.
- JSON encoding is not modelled. JSON files, the cache paths of `FileName` and `file_utils.py` are not part of this model, and JSON text and file I/O are left out.
- The cache records are the `BucketFields` values themselves.
- CommonUtils.TransformTags: returns the flattened map rather than its JSON text, because JSON serialisation is not modelled.
- CommonUtils.TransformTags: tags are key-value pairs, so the KeyError for a tag entry without `Key` or `Value` is not modelled.
- `main.py` is not part of this model: argument handling, the console and the order of the pipeline stages.
- The table rendering and human-readable sizes of common_utils.py (`get_metrics_table`, `get_growth_table`, `show_as_tables`, `write_to_file`) are left out, because they only format output and write files.
- The message printed for a skipped storage class is not modelled (boto3_utils.py:107), because the model has no console.
- CommonUtils.FetchTopGrowthBuckets: the count comes from `constant.py`, which is not part of this model. It is a natural-number parameter, so a negative count and Python's negative slicing are not modelled.
- Boto3Utils.GenerateCloudwatchClients: returns the filled pool instead of updating the caller's dictionary in place. The one caller starts it from an empty dictionary.
- Boto3Utils.SetBucketSizeAndGrowth: the storage classes are a list of strings. A custom configuration value of another shape is not modelled.
- CommonUtils.FetchTopGrowthBuckets: the top list and the full list share record objects, because both are sequences of references to the same objects. No later update through either list is modelled.
- Provider responses are modelled only in the parts that are read: status code, headers, datapoints and their Average. A response of an unexpected type is not modelled.
