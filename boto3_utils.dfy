/**
 Bucket discovery, the metric-client pool and the storage-size aggregation.
 The cloud provider is a set of oracle functions: `headBucket(name, i)` is
 what the location probe of bucket `name` does on attempt `i`,
 `tagging(name)` what reading its tag set does, and `api(q, i)` what the
 metric-statistics query `q` does on attempt `i`. Dates are whole days, with
 `today` the day of the run.
 */
module Boto3Utils {
  import opened Runtime
  import opened Model
  import opened RetryDecorator

  /** The `ResponseMetadata` part of a provider response. */
  datatype Metadata = Metadata(httpStatusCode: Option<int>, httpHeaders: Option<map<string, string>>)

  /** One entry of `Datapoints`. */
  datatype Datapoint = Datapoint(average: Option<real>)

  /** The parts of a provider response that the pipeline reads. */
  datatype Response = Response(responseMetadata: Option<Metadata>, datapoints: Option<seq<Datapoint>>)

  /** The response header that names a bucket's region. */
  const RegionHeader: string := "x-amz-bucket-region"

  /** The status code of a response, 400 when the metadata or the code is missing. */
  function StatusCode(response: Response): int
  {
    match response.responseMetadata
    case None => 400
    case Some(md) => if md.httpStatusCode.Some? then md.httpStatusCode.value else 400
  }

  /** A response is a success when it carries a status code in [200, 300). */
  function CheckSuccess(response: Response): (ok: bool)
    ensures ok <==> && response.responseMetadata.Some?
                    && response.responseMetadata.value.httpStatusCode.Some?
                    && 200 <= response.responseMetadata.value.httpStatusCode.value < 300
  {
    200 <= StatusCode(response) < 300
  }

  /** A provider call that answered with a non-success status. */
  predicate NonSuccess(call: Outcome<Response>)
  {
    call.Returned? && !CheckSuccess(call.value)
  }

  // ---------------------------------------------------------------------------
  // Region probe

  /** The region header of a response, if the response has one. */
  function RegionHeaderValue(response: Response): Option<string>
  {
    if && response.responseMetadata.Some?
       && response.responseMetadata.value.httpHeaders.Some?
       && RegionHeader in response.responseMetadata.value.httpHeaders.value
    then Some(response.responseMetadata.value.httpHeaders.value[RegionHeader])
    else None
  }

  /**
   One attempt of the location probe: a ClientError means the bucket is
   inaccessible (no region), a non-success status asks for a retry, and a
   success yields the region header (a KeyError when it is missing).
   */
  function LocationAttempt(call: Outcome<Response>): Outcome<Option<string>>
  {
    match call
    case Raised(e) => if e == ClientError then Returned(None) else Raised(e)
    case Returned(response) =>
      if !CheckSuccess(response) then Raised(StopIteration)
      else match RegionHeaderValue(response)
        case None => Raised(KeyError)
        case Some(region) => Returned(Some(region))
  }

  const LocationRetryOn: set<Exception> := {StopIteration}

  function LocationAttempts(headBucket: (string, nat) -> Outcome<Response>, name: string): nat -> Outcome<Option<string>>
  {
    (i: nat) => LocationAttempt(headBucket(name, i))
  }

  /** The decorated location probe of one bucket. */
  function Location(headBucket: (string, nat) -> Outcome<Response>, name: string): Attempted<Option<string>>
  {
    Retried(LocationAttempts(headBucket, name), LocationRetryOn)
  }

  method GetBucketLocation(headBucket: (string, nat) -> Outcome<Response>, name: string)
    returns (a: Attempted<Option<string>>)
    ensures a == Location(headBucket, name)
  {
    a := Retry(LocationAttempts(headBucket, name), LocationRetryOn);
  }

  /**
   Once the first `k` attempts answered with a non-success status, the probe
   ends at attempt `k` unless that one too asks for a retry, and its outcome is
   that attempt's.
   */
  lemma LocationStopsAt(headBucket: (string, nat) -> Outcome<Response>, name: string, k: nat)
    requires k < Tries
    requires forall j :: 0 <= j < k ==> NonSuccess(headBucket(name, j))
    requires !NonSuccess(headBucket(name, k)) && headBucket(name, k) != Raised(StopIteration)
    ensures Location(headBucket, name) == Attempted(LocationAttempt(headBucket(name, k)), k + 1)
  {
    var body := LocationAttempts(headBucket, name);
    forall j | 0 <= j < k ensures ShouldRetry(body(j), LocationRetryOn) {
      assert body(j) == LocationAttempt(headBucket(name, j));
    }
    RetriedUnique(body, LocationRetryOn, Attempted(LocationAttempt(headBucket(name, k)), k + 1));
  }

  /** A ClientError from the probe marks the bucket inaccessible, with no further attempt. */
  lemma LocationInaccessible(headBucket: (string, nat) -> Outcome<Response>, name: string, k: nat)
    requires k < Tries
    requires forall j :: 0 <= j < k ==> NonSuccess(headBucket(name, j))
    requires headBucket(name, k) == Raised(ClientError)
    ensures Location(headBucket, name) == Attempted(Returned(None), k + 1)
  {
    LocationStopsAt(headBucket, name, k);
  }

  /** A successful probe yields the region header's value. */
  lemma LocationFound(headBucket: (string, nat) -> Outcome<Response>, name: string, k: nat, region: string)
    requires k < Tries
    requires forall j :: 0 <= j < k ==> NonSuccess(headBucket(name, j))
    requires headBucket(name, k).Returned? && CheckSuccess(headBucket(name, k).value)
    requires RegionHeaderValue(headBucket(name, k).value) == Some(region)
    ensures Location(headBucket, name) == Attempted(Returned(Some(region)), k + 1)
  {
    LocationStopsAt(headBucket, name, k);
  }

  /** Three non-success answers exhaust the probe, which then raises StopIteration itself. */
  lemma LocationExhausted(headBucket: (string, nat) -> Outcome<Response>, name: string)
    requires forall j :: 0 <= j < Tries ==> NonSuccess(headBucket(name, j))
    ensures Location(headBucket, name) == Attempted(Raised(StopIteration), Tries)
  {
    var body := LocationAttempts(headBucket, name);
    forall j | 0 <= j < Tries ensures body(j) == Raised(StopIteration) {
      assert body(j) == LocationAttempt(headBucket(name, j));
    }
    RetriedUnique(body, LocationRetryOn, Attempted(Raised(StopIteration), Tries));
  }

  // ---------------------------------------------------------------------------
  // Tags and discovery

  /**
   The tag set of a bucket: not attempted (None) when the region is unknown,
   empty when reading it raises a ClientError, the tag set otherwise; any other
   exception propagates.
   */
  function GetBucketTags(tagging: Outcome<seq<Tag>>, region: Option<string>): (r: Outcome<Option<seq<Tag>>>)
    ensures region.None? ==> r == Returned(None)
    ensures region.Some? ==> (r.Raised? <==> tagging.Raised? && tagging.exc != ClientError)
    ensures r.Raised? ==> r == Raised(tagging.exc)
    ensures r.Returned? && region.Some? ==>
      r.value.Some? && r.value.value == (if tagging.Returned? then tagging.value else [])
  {
    if region.None? then Returned(None)
    else match tagging
      case Returned(tagSet) => Returned(Some(tagSet))
      case Raised(e) => if e == ClientError then Returned(Some([])) else Raised(e)
  }

  /** The record discovery makes for one listed bucket, or the exception that stops it. */
  function Discover(headBucket: (string, nat) -> Outcome<Response>, tagging: string -> Outcome<seq<Tag>>,
                    name: string): Outcome<BucketFields>
  {
    match Location(headBucket, name).result
    case Raised(e) => Raised(e)
    case Returned(region) =>
      match GetBucketTags(tagging(name), region)
      case Raised(e) => Raised(e)
      case Returned(tags) => Returned(BucketFields(name, region, tags, GetAccessibility(region), 0.0, 0.0))
  }

  /**
   A discovered record carries the bucket's name and probed region, is
   accessible exactly when the region is known, has tags exactly when the
   region is known, and starts with zero sizes.
   */
  lemma DiscoveredRecord(headBucket: (string, nat) -> Outcome<Response>, tagging: string -> Outcome<seq<Tag>>,
                         name: string)
    requires Discover(headBucket, tagging, name).Returned?
    ensures var f := Discover(headBucket, tagging, name).value;
      && f.name == name
      && Location(headBucket, name).result == Returned(f.region)
      && f.accessible == GetAccessibility(f.region)
      && (f.accessible == AccessibleMarker <==> f.region.Some?)
      && (f.tags.None? <==> f.region.None?)
      && f.currentSize == 0.0 && f.monthlyGrowth == 0.0
  {
  }

  /**
   A bucket whose probe answers with a non-success status three times is not
   marked inaccessible: the StopIteration escapes and stops the discovery.
   */
  lemma ExhaustedProbeAbortsDiscovery(headBucket: (string, nat) -> Outcome<Response>,
                                      tagging: string -> Outcome<seq<Tag>>, name: string)
    requires forall j :: 0 <= j < Tries ==> NonSuccess(headBucket(name, j))
    ensures Discover(headBucket, tagging, name) == Raised(StopIteration)
  {
    LocationExhausted(headBucket, name);
  }

  /**
   One record per listed bucket, in listing order; or, when discovering some
   bucket raises, the exception of the first such bucket and no list.
   */
  method GetBucketMetrics(buckets: seq<string>, headBucket: (string, nat) -> Outcome<Response>,
                          tagging: string -> Outcome<seq<Tag>>)
    returns (r: Outcome<seq<BucketMetrics>>)
    ensures r.Returned? ==>
      && |r.value| == |buckets|
      && (forall i :: 0 <= i < |buckets| ==>
            Discover(headBucket, tagging, buckets[i]) == Returned(r.value[i].Fields()))
      && (forall i :: 0 <= i < |buckets| ==> fresh(r.value[i]))
      && Distinct(r.value)
    ensures r.Raised? ==>
      exists i :: 0 <= i < |buckets| && Discover(headBucket, tagging, buckets[i]) == Raised(r.exc)
        && forall j :: 0 <= j < i ==> Discover(headBucket, tagging, buckets[j]).Returned?
  {
    var records: seq<BucketMetrics> := [];
    var i := 0;
    while i < |buckets|
      invariant 0 <= i <= |buckets| && |records| == i
      invariant forall j :: 0 <= j < i ==> Discover(headBucket, tagging, buckets[j]) == Returned(records[j].Fields())
      invariant forall j :: 0 <= j < i ==> fresh(records[j])
      invariant Distinct(records)
    {
      var name := buckets[i];
      var location := GetBucketLocation(headBucket, name);
      if location.result.Raised? {
        return Raised(location.result.exc);
      }
      var region := location.result.value;
      var tags := GetBucketTags(tagging(name), region);
      if tags.Raised? {
        return Raised(tags.exc);
      }
      var record := new BucketMetrics(name, region, tags.value, GetAccessibility(region));
      records := records + [record];
      i := i + 1;
    }
    r := Returned(records);
  }

  // ---------------------------------------------------------------------------
  // Storage metrics

  /** A metrics-backend client, scoped to one region. */
  datatype Client = Client(throughProfile: bool, profileName: Option<string>, region: string)

  /** One average-size query: for a bucket and a storage class, over the days [startDay, endDay]. */
  datatype Query = Query(client: Client, bucketName: string, startDay: int, endDay: int, storageType: string)

  /**
   One attempt of a size query: the Average of the last datapoint, or zero
   when there is none; a non-success status asks for a retry; a missing
   `Datapoints` or `Average` is a KeyError; a provider exception propagates.
   */
  function MetricsAttempt(call: Outcome<Response>): Outcome<real>
  {
    match call
    case Raised(e) => Raised(e)
    case Returned(response) =>
      if !CheckSuccess(response) then Raised(StopIteration)
      else match response.datapoints
        case None => Raised(KeyError)
        case Some(points) =>
          if |points| == 0 then Returned(0.0)
          else match points[|points| - 1].average
            case None => Raised(KeyError)
            case Some(average) => Returned(average)
  }

  const MetricsRetryOn: set<Exception> := {StopIteration, ClientError}

  /** A provider call that the size query retries. */
  predicate MetricsRetryable(call: Outcome<Response>)
  {
    NonSuccess(call) || call == Raised(ClientError) || call == Raised(StopIteration)
  }

  function MetricsAttempts(api: (Query, nat) -> Outcome<Response>, q: Query): nat -> Outcome<real>
  {
    (i: nat) => MetricsAttempt(api(q, i))
  }

  /** The decorated size query. */
  function StorageMetric(api: (Query, nat) -> Outcome<Response>, q: Query): Attempted<real>
  {
    Retried(MetricsAttempts(api, q), MetricsRetryOn)
  }

  method GetStorageMetrics(api: (Query, nat) -> Outcome<Response>, q: Query) returns (a: Attempted<real>)
    ensures a == StorageMetric(api, q)
  {
    a := Retry(MetricsAttempts(api, q), MetricsRetryOn);
  }

  /** After `k` retried failures, the size query ends at the first attempt that is not retried. */
  lemma StorageMetricStopsAt(api: (Query, nat) -> Outcome<Response>, q: Query, k: nat)
    requires k < Tries
    requires forall j :: 0 <= j < k ==> MetricsRetryable(api(q, j))
    requires !MetricsRetryable(api(q, k))
    ensures StorageMetric(api, q) == Attempted(MetricsAttempt(api(q, k)), k + 1)
  {
    var body := MetricsAttempts(api, q);
    forall j | 0 <= j < k ensures ShouldRetry(body(j), MetricsRetryOn) {
      assert body(j) == MetricsAttempt(api(q, j));
    }
    RetriedUnique(body, MetricsRetryOn, Attempted(MetricsAttempt(api(q, k)), k + 1));
  }

  /** A successful answer yields the last datapoint's Average, or zero for no datapoints. */
  lemma StorageMetricValue(api: (Query, nat) -> Outcome<Response>, q: Query, k: nat, points: seq<Datapoint>)
    requires k < Tries
    requires forall j :: 0 <= j < k ==> MetricsRetryable(api(q, j))
    requires api(q, k).Returned? && CheckSuccess(api(q, k).value) && api(q, k).value.datapoints == Some(points)
    requires points != [] ==> points[|points| - 1].average.Some?
    ensures StorageMetric(api, q).result ==
      Returned(if points == [] then 0.0 else points[|points| - 1].average.value)
  {
    StorageMetricStopsAt(api, q, k);
  }

  /** Three retried failures exhaust the query, which then raises. */
  lemma StorageMetricExhausted(api: (Query, nat) -> Outcome<Response>, q: Query)
    requires forall j :: 0 <= j < Tries ==> MetricsRetryable(api(q, j))
    ensures StorageMetric(api, q).calls == Tries
    ensures StorageMetric(api, q).result.Raised?
      && StorageMetric(api, q).result.exc in MetricsRetryOn
  {
    var body := MetricsAttempts(api, q);
    forall j | 0 <= j < Tries ensures ShouldRetry(body(j), MetricsRetryOn) {
      assert body(j) == MetricsAttempt(api(q, j));
    }
    RetriedShape(body, MetricsRetryOn);
  }

  // ---------------------------------------------------------------------------
  // Metric client pool

  /** The regions of the records whose region is known. */
  function Regions(records: seq<BucketMetrics>): (rs: set<string>)
    reads records
    ensures forall i :: 0 <= i < |records| && records[i].region.Some? ==> records[i].region.value in rs
    ensures forall k :: k in rs ==> exists i :: 0 <= i < |records| && records[i].region == Some(k)
  {
    if records == [] then {}
    else
      var last := records[|records| - 1];
      Regions(records[..|records| - 1]) + (if last.region.Some? then {last.region.value} else {})
  }

  /**
   Fills the client pool: afterwards every known region of the records is a
   key, existing entries are unchanged, no other key is added, and a client
   is created for each new region exactly once.
   */
  method GenerateCloudwatchClients(throughProfile: bool, profileName: Option<string>,
                                   records: seq<BucketMetrics>, clients: map<string, Client>)
    returns (pool: map<string, Client>, created: seq<string>)
    ensures pool.Keys == clients.Keys + Regions(records)
    ensures forall k :: k in clients ==> pool[k] == clients[k]
    ensures forall k :: k in pool && k !in clients ==> pool[k] == Client(throughProfile, profileName, k)
    ensures Distinct(created)
    ensures forall k :: k in created <==> k in pool && k !in clients
  {
    pool, created := clients, [];
    var i := 0;
    while i < |records|
      invariant 0 <= i <= |records|
      invariant pool.Keys == clients.Keys + Regions(records[..i])
      invariant forall k :: k in clients ==> pool[k] == clients[k]
      invariant forall k :: k in pool && k !in clients ==> pool[k] == Client(throughProfile, profileName, k)
      invariant Distinct(created)
      invariant forall k :: k in created <==> k in pool && k !in clients
    {
      var region := records[i].region;
      if region.Some? && region.value !in pool {
        pool := pool[region.value := Client(throughProfile, profileName, region.value)];
        created := created + [region.value];
      }
      assert records[..i + 1][..i] == records[..i];
      i := i + 1;
    }
    assert records[..i] == records;
  }

  // ---------------------------------------------------------------------------
  // Size and growth aggregation

  /** The two sums the aggregator keeps for one bucket. */
  datatype Sizes = Sizes(current: real, prior: real) {
    function Plus(other: Sizes): Sizes
    {
      Sizes(current + other.current, prior + other.prior)
    }
  }

  /** The recent window ends today and starts two days earlier. */
  function RecentQuery(client: Client, name: string, today: int, storageType: string): Query
  {
    Query(client, name, today - 2, today, storageType)
  }

  /** The baseline window runs from 32 to 30 days before today. */
  function BaselineQuery(client: Client, name: string, today: int, storageType: string): Query
  {
    Query(client, name, today - 32, today - 30, storageType)
  }

  /**
   What one storage class adds to the sums: nothing when the recent query
   fails (the baseline is then not queried); the recent value alone when only
   the baseline query fails; both values otherwise.
   */
  function Contribution(api: (Query, nat) -> Outcome<Response>, client: Client, name: string, today: int,
                        storageType: string): Sizes
  {
    var recent := StorageMetric(api, RecentQuery(client, name, today, storageType)).result;
    if recent.Raised? then Sizes(0.0, 0.0)
    else
      var baseline := StorageMetric(api, BaselineQuery(client, name, today, storageType)).result;
      Sizes(recent.value, if baseline.Raised? then 0.0 else baseline.value)
  }

  /** The contributions of a list of storage classes, in list order. */
  function Contributions(api: (Query, nat) -> Outcome<Response>, client: Client, name: string, today: int,
                         storageTypes: seq<string>): seq<Sizes>
  {
    seq(|storageTypes|, i requires 0 <= i < |storageTypes| => Contribution(api, client, name, today, storageTypes[i]))
  }

  /** The sum of a list of contributions, accumulated in list order. */
  function Total(cs: seq<Sizes>): Sizes
  {
    if cs == [] then Sizes(0.0, 0.0) else Total(cs[..|cs| - 1]).Plus(cs[|cs| - 1])
  }

  /** Sums over two runs of contributions add up. */
  lemma {:induction false} TotalAppend(a: seq<Sizes>, b: seq<Sizes>)
    ensures Total(a + b) == Total(a).Plus(Total(b))
  {
    if b == [] {
      assert a + b == a;
    } else {
      var b' := b[..|b| - 1];
      assert (a + b)[..|a + b| - 1] == a + b';
      TotalAppend(a, b');
    }
  }

  /** The sums for one bucket over a list of storage classes. */
  function BucketSizes(api: (Query, nat) -> Outcome<Response>, client: Client, name: string, today: int,
                       storageTypes: seq<string>): Sizes
  {
    Total(Contributions(api, client, name, today, storageTypes))
  }

  /** Adding one more storage class adds its contribution to the sums. */
  lemma BucketSizesSnoc(api: (Query, nat) -> Outcome<Response>, client: Client, name: string, today: int,
                        storageTypes: seq<string>, storageType: string)
    ensures BucketSizes(api, client, name, today, storageTypes + [storageType])
         == BucketSizes(api, client, name, today, storageTypes).Plus(Contribution(api, client, name, today, storageType))
  {
    var cs := Contributions(api, client, name, today, storageTypes);
    var c := Contribution(api, client, name, today, storageType);
    assert Contributions(api, client, name, today, storageTypes + [storageType]) == cs + [c];
    assert (cs + [c])[..|cs|] == cs;
  }

  /** A storage class whose recent query fails is skipped: the sums are those of the other classes. */
  lemma FailingClassSkipped(api: (Query, nat) -> Outcome<Response>, client: Client, name: string, today: int,
                            a: seq<string>, storageType: string, b: seq<string>)
    requires StorageMetric(api, RecentQuery(client, name, today, storageType)).result.Raised?
    ensures BucketSizes(api, client, name, today, a + [storageType] + b)
         == BucketSizes(api, client, name, today, a + b)
  {
    var ca := Contributions(api, client, name, today, a);
    var cb := Contributions(api, client, name, today, b);
    var skipped := Sizes(0.0, 0.0);
    assert Contributions(api, client, name, today, a + [storageType] + b) == ca + [skipped] + cb;
    assert Contributions(api, client, name, today, a + b) == ca + cb;
    TotalAppend(ca + [skipped], cb);
    TotalAppend(ca, [skipped]);
    TotalAppend(ca, cb);
    assert [skipped][..0] == [];
  }

  /** When only the baseline query of a class fails, that class adds to the current size alone. */
  lemma BaselineFailureCountsCurrentOnly(api: (Query, nat) -> Outcome<Response>, client: Client, name: string,
                                         today: int, storageTypes: seq<string>, storageType: string)
    requires StorageMetric(api, RecentQuery(client, name, today, storageType)).result.Returned?
    requires StorageMetric(api, BaselineQuery(client, name, today, storageType)).result.Raised?
    ensures var before := BucketSizes(api, client, name, today, storageTypes);
      BucketSizes(api, client, name, today, storageTypes + [storageType])
        == Sizes(before.current + StorageMetric(api, RecentQuery(client, name, today, storageType)).result.value,
                 before.prior)
  {
    BucketSizesSnoc(api, client, name, today, storageTypes, storageType);
  }

  /** A successful answer without datapoints. */
  predicate EmptyAnswer(call: Outcome<Response>)
  {
    call.Returned? && CheckSuccess(call.value) && call.value.datapoints == Some([])
  }

  /** A storage class whose two queries answer with no datapoints contributes nothing. */
  lemma EmptyContribution(api: (Query, nat) -> Outcome<Response>, client: Client, name: string, today: int,
                          storageType: string)
    requires EmptyAnswer(api(RecentQuery(client, name, today, storageType), 0))
    requires EmptyAnswer(api(BaselineQuery(client, name, today, storageType), 0))
    ensures Contribution(api, client, name, today, storageType) == Sizes(0.0, 0.0)
  {
    StorageMetricValue(api, RecentQuery(client, name, today, storageType), 0, []);
    StorageMetricValue(api, BaselineQuery(client, name, today, storageType), 0, []);
  }

  /** When every query of the bucket answers with no datapoints, both sums are zero. */
  lemma {:induction false} NoDatapointsMeansZero(api: (Query, nat) -> Outcome<Response>, client: Client,
                                                 name: string, today: int, storageTypes: seq<string>)
    requires forall st :: st in storageTypes ==>
      EmptyAnswer(api(RecentQuery(client, name, today, st), 0)) && EmptyAnswer(api(BaselineQuery(client, name, today, st), 0))
    ensures BucketSizes(api, client, name, today, storageTypes) == Sizes(0.0, 0.0)
  {
    if storageTypes != [] {
      var st := storageTypes[|storageTypes| - 1];
      assert st in storageTypes;
      EmptyContribution(api, client, name, today, st);
      var rest := storageTypes[..|storageTypes| - 1];
      NoDatapointsMeansZero(api, client, name, today, rest);
      assert rest + [st] == storageTypes;
      BucketSizesSnoc(api, client, name, today, rest, st);
    }
  }

  /** The inner loop of the aggregator: the two sums for one bucket. */
  method BucketSizesOf(api: (Query, nat) -> Outcome<Response>, client: Client, name: string, today: int,
                       storageTypes: seq<string>) returns (sizes: Sizes)
    ensures sizes == BucketSizes(api, client, name, today, storageTypes)
  {
    var currentSize, priorMonthSize := 0.0, 0.0;
    for i := 0 to |storageTypes|
      invariant Sizes(currentSize, priorMonthSize) == BucketSizes(api, client, name, today, storageTypes[..i])
    {
      var storageType := storageTypes[i];
      assert storageTypes[..i + 1] == storageTypes[..i] + [storageType];
      BucketSizesSnoc(api, client, name, today, storageTypes[..i], storageType);
      var recent := GetStorageMetrics(api, RecentQuery(client, name, today, storageType));
      if recent.result.Raised? {
        continue;
      }
      currentSize := currentSize + recent.result.value;
      var baseline := GetStorageMetrics(api, BaselineQuery(client, name, today, storageType));
      if baseline.result.Raised? {
        continue;
      }
      priorMonthSize := priorMonthSize + baseline.result.value;
    }
    assert storageTypes[..|storageTypes|] == storageTypes;
    sizes := Sizes(currentSize, priorMonthSize);
  }

  /**
   A record after aggregation: untouched when its region is unknown; otherwise
   its current size is the recent sum and its growth the recent sum minus the
   baseline sum, with the other fields unchanged.
   */
  function Aggregated(api: (Query, nat) -> Outcome<Response>, throughProfile: bool, profileName: Option<string>,
                      today: int, storageTypes: seq<string>, f: BucketFields): (g: BucketFields)
    ensures g.name == f.name && g.region == f.region && g.tags == f.tags && g.accessible == f.accessible
    ensures f.region.None? ==> g == f
  {
    if f.region.None? then f
    else
      var sizes := BucketSizes(api, Client(throughProfile, profileName, f.region.value), f.name, today, storageTypes);
      f.(currentSize := sizes.current, monthlyGrowth := sizes.current - sizes.prior)
  }

  /** Aggregating a record a second time changes nothing. */
  lemma AggregatedIdempotent(api: (Query, nat) -> Outcome<Response>, throughProfile: bool,
                             profileName: Option<string>, today: int, storageTypes: seq<string>, f: BucketFields)
    ensures var g := Aggregated(api, throughProfile, profileName, today, storageTypes, f);
      Aggregated(api, throughProfile, profileName, today, storageTypes, g) == g
  {
  }

  /** Monthly growth is the current size minus the baseline size. */
  lemma GrowthIsCurrentMinusPrior(api: (Query, nat) -> Outcome<Response>, throughProfile: bool,
                                  profileName: Option<string>, today: int, storageTypes: seq<string>,
                                  f: BucketFields)
    requires f.region.Some?
    ensures var g := Aggregated(api, throughProfile, profileName, today, storageTypes, f);
      var sizes := BucketSizes(api, Client(throughProfile, profileName, f.region.value), f.name, today, storageTypes);
      g.currentSize == sizes.current && g.monthlyGrowth == g.currentSize - sizes.prior
  {
  }

  /** The body of the aggregator's outer loop, for one record. */
  method SetRecordSizeAndGrowth(throughProfile: bool, profileName: Option<string>, storageTypes: seq<string>,
                                pool: map<string, Client>, record: BucketMetrics, today: int,
                                api: (Query, nat) -> Outcome<Response>)
    requires record.region.Some? ==>
      record.region.value in pool && pool[record.region.value] == Client(throughProfile, profileName, record.region.value)
    modifies record
    ensures record.Fields() == Aggregated(api, throughProfile, profileName, today, storageTypes, old(record.Fields()))
  {
    if record.region.Some? {
      var client := pool[record.region.value];
      var sizes := BucketSizesOf(api, client, record.name, today, storageTypes);
      record.currentSize, record.monthlyGrowth := sizes.current, sizes.current - sizes.prior;
    }
  }

  /**
   Sets the current size and monthly growth of every record with a known
   region, leaving the records with no region and every other field as they
   were.
   */
  method SetBucketSizeAndGrowth(throughProfile: bool, profileName: Option<string>, storageTypes: seq<string>,
                                records: seq<BucketMetrics>, today: int, api: (Query, nat) -> Outcome<Response>)
    modifies records
    ensures forall o :: o in records ==>
      o.Fields() == Aggregated(api, throughProfile, profileName, today, storageTypes, old(o.Fields()))
  {
    var pool, _ := GenerateCloudwatchClients(throughProfile, profileName, records, map[]);
    SetSizesAndGrowths(throughProfile, profileName, storageTypes, pool, records, today, api);
  }

  /** The aggregator's outer loop over the records, given a pool with a client for every known region. */
  method SetSizesAndGrowths(throughProfile: bool, profileName: Option<string>, storageTypes: seq<string>,
                            pool: map<string, Client>, records: seq<BucketMetrics>, today: int,
                            api: (Query, nat) -> Outcome<Response>)
    requires forall o :: o in records && o.region.Some? ==>
      o.region.value in pool && pool[o.region.value] == Client(throughProfile, profileName, o.region.value)
    modifies records
    ensures forall o :: o in records ==>
      o.Fields() == Aggregated(api, throughProfile, profileName, today, storageTypes, old(o.Fields()))
  {
    var i := 0;
    while i < |records|
      invariant 0 <= i <= |records|
      invariant forall o :: o in records && o.region.Some? ==>
        o.region.value in pool && pool[o.region.value] == Client(throughProfile, profileName, o.region.value)
      invariant forall o :: o in records ==>
        || o.Fields() == old(o.Fields())
        || o.Fields() == Aggregated(api, throughProfile, profileName, today, storageTypes, old(o.Fields()))
      invariant forall j :: 0 <= j < i ==>
        records[j].Fields() == Aggregated(api, throughProfile, profileName, today, storageTypes, old(records[j].Fields()))
    {
      var record := records[i];
      AggregatedIdempotent(api, throughProfile, profileName, today, storageTypes, old(record.Fields()));
      SetRecordSizeAndGrowth(throughProfile, profileName, storageTypes, pool, record, today, api);
      i := i + 1;
    }
  }
}
