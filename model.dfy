/**
 The record model and the constant tables of the bucket-metrics pipeline:
 accessibility markers, the per-bucket record, the configuration object and
 the storage-class tables.
 */
module Model {
  import opened Runtime

  /** The marker shown for a bucket whose region could be resolved. */
  const AccessibleMarker: string := ":white_check_mark:"
  /** The marker shown for a bucket whose region could not be resolved. */
  const InaccessibleMarker: string := ":x:"

  /** The accessibility marker of a bucket, decided by whether its region is known. */
  function GetAccessibility<T>(input: Option<T>): (marker: string)
    ensures marker == AccessibleMarker <==> input.Some?
    ensures marker == InaccessibleMarker <==> input.None?
  {
    if input.Some? then AccessibleMarker else InaccessibleMarker
  }

  /** The two markers differ, so the marker tells whether the region was known. */
  lemma AccessibilityRecoverable<T>(a: Option<T>, b: Option<T>)
    ensures GetAccessibility(a) == GetAccessibility(b) <==> (a.Some? <==> b.Some?)
  {
  }

  /** One entry of a bucket's tag set. */
  datatype Tag = Tag(key: string, value: string)

  /**
   The attribute dictionary of a bucket record: the flat object the cache
   files hold, with the keys name, region, tags, accessible, current_size and
   monthly_growth.
   */
  datatype BucketFields = BucketFields(
    name: string,
    region: Option<string>,
    tags: Option<seq<Tag>>,
    accessible: string,
    currentSize: real,
    monthlyGrowth: real)

  /** A bucket record; the aggregator writes `currentSize` and `monthlyGrowth` in place. */
  class BucketMetrics {
    var name: string
    var region: Option<string>
    var tags: Option<seq<Tag>>
    var accessible: string
    var currentSize: real
    var monthlyGrowth: real

    /** Stores every argument unchanged; the sizes default to zero. */
    constructor (name: string, region: Option<string>, tags: Option<seq<Tag>>, accessible: string,
                 currentSize: real := 0.0, monthlyGrowth: real := 0.0)
      ensures Fields() == BucketFields(name, region, tags, accessible, currentSize, monthlyGrowth)
    {
      this.name := name;
      this.region := region;
      this.tags := tags;
      this.accessible := accessible;
      this.currentSize := currentSize;
      this.monthlyGrowth := monthlyGrowth;
    }

    /** The record's attribute dictionary. */
    function Fields(): BucketFields
      reads this
    {
      BucketFields(name, region, tags, accessible, currentSize, monthlyGrowth)
    }
  }

  /** The run configuration: one attribute per key of the parsed configuration object. */
  class InputConfigs {
    var attrs: map<string, JValue>

    /** Copies the keys one at a time; the result holds every key with its value and nothing else. */
    constructor (dictionary: map<string, JValue>)
      ensures attrs == dictionary
    {
      attrs := map[];
      new;
      var pending := dictionary.Keys;
      while pending != {}
        invariant pending <= dictionary.Keys
        invariant attrs.Keys == dictionary.Keys - pending
        invariant forall k :: k in attrs ==> attrs[k] == dictionary[k]
        decreases pending
      {
        var key :| key in pending;
        attrs := attrs[key := dictionary[key]];
        pending := pending - {key};
      }
    }

    /** Reading an attribute: its value, or an AttributeError when the key was never set. */
    function GetAttr(key: string): (r: Outcome<JValue>)
      reads this
      ensures r.Returned? <==> key in attrs
      ensures r.Returned? ==> r.value == attrs[key]
      ensures r.Raised? ==> r.exc == AttributeError
    {
      if key in attrs then Returned(attrs[key]) else Raised(AttributeError)
    }
  }

  /** The only storage class queried in standard-only mode. */
  const StandardStorage: seq<string> := ["StandardStorage"]

  /** Every storage class the metrics backend reports bucket sizes for. */
  const AllStorageTypes: seq<string> := [
    "StandardStorage", "IntelligentTieringFAStorage", "IntelligentTieringIAStorage", "IntelligentTieringAAStorage",
    "IntelligentTieringAIAStorage", "IntelligentTieringDAAStorage", "StandardIAStorage", "StandardIASizeOverhead",
    "StandardIAObjectOverhead", "OneZoneIAStorage", "OneZoneIASizeOverhead", "ReducedRedundancyStorage",
    "GlacierInstantRetrievalSizeOverhead", "GlacierInstantRetrievalStorage", "GlacierStorage", "GlacierStagingStorage",
    "GlacierObjectOverhead", "GlacierS3ObjectOverhead", "DeepArchiveStorage", "DeepArchiveObjectOverhead",
    "DeepArchiveS3ObjectOverhead", "DeepArchiveStagingStorage"
  ]

  /** No two entries of a list are equal. */
  predicate Distinct<T(==)>(s: seq<T>)
  {
    forall i, j :: 0 <= i < j < |s| ==> s[i] != s[j]
  }

  /** The standard list is a singleton contained in the full list, which has 22 distinct classes. */
  lemma StorageTablesShape()
    ensures StandardStorage == [AllStorageTypes[0]]
    ensures StandardStorage[0] in AllStorageTypes
    ensures |AllStorageTypes| == 22
    ensures Distinct(AllStorageTypes)
  {
  }

  /** The classes that only group constants. */
  datatype StaticClass = Accessibility | AwsCreds | FileName | S3StorageTypes

  function ClassName(c: StaticClass): string
  {
    match c
    case Accessibility => "Accessibility"
    case AwsCreds => "AwsCreds"
    case FileName => "FileName"
    case S3StorageTypes => "S3StorageTypes"
  }

  /** Instantiating a constants-only class always raises a TypeError that names the class. */
  function Instantiate(c: StaticClass): (r: Outcome<StaticClass>)
    ensures r.Raised? && r.exc.TypeError?
    ensures ClassName(c) <= r.exc.message
  {
    Raised(TypeError(ClassName(c) + " is static. It cannot be instantiated!"))
  }
}
