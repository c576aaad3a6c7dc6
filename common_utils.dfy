/**
 Ranking by growth, storage-class selection, tag flattening and the mapping
 between bucket records and the cache files' flat objects.
 */
module CommonUtils {
  import opened Runtime
  import opened Model

  function Min(a: nat, b: nat): nat
  {
    if a <= b then a else b
  }

  // ---------------------------------------------------------------------------
  // Stable sort by a key, descending

  /** The elements are in non-increasing order of their key (the second component). */
  predicate SortedDesc<T>(s: seq<(T, real)>)
  {
    forall i, j :: 0 <= i < j < |s| ==> s[i].1 >= s[j].1
  }

  /** The elements whose key is `k`, in their order in `s`. */
  function WithKey<T>(s: seq<(T, real)>, k: real): seq<(T, real)>
  {
    if s == [] then [] else (if s[0].1 == k then [s[0]] else []) + WithKey(s[1..], k)
  }

  /** Inserts `x` before the first element whose key is not larger than its own. */
  function InsertDesc<T>(x: (T, real), s: seq<(T, real)>): (r: seq<(T, real)>)
    ensures |r| == |s| + 1
  {
    if s == [] || s[0].1 <= x.1 then [x] + s else [s[0]] + InsertDesc(x, s[1..])
  }

  /** Sorting by key, descending, keeping elements with equal keys in their input order. */
  function SortDesc<T>(s: seq<(T, real)>): (r: seq<(T, real)>)
    ensures |r| == |s|
  {
    if s == [] then [] else InsertDesc(s[0], SortDesc(s[1..]))
  }

  lemma {:induction false} InsertDescSorted<T>(x: (T, real), s: seq<(T, real)>)
    requires SortedDesc(s)
    ensures SortedDesc(InsertDesc(x, s))
  {
    if !(s == [] || s[0].1 <= x.1) {
      var rest := InsertDesc(x, s[1..]);
      InsertDescSorted(x, s[1..]);
      InsertDescMultiset(x, s[1..]);
      forall j | 0 < j < |[s[0]] + rest| ensures s[0].1 >= ([s[0]] + rest)[j].1 {
        var y := rest[j - 1];
        assert y in multiset(rest);
        if y != x {
          assert y in multiset(s[1..]);
          var m :| 0 <= m < |s[1..]| && s[1..][m] == y;
          assert s[1 + m] == y;
        }
      }
    }
  }

  lemma {:induction false} InsertDescMultiset<T>(x: (T, real), s: seq<(T, real)>)
    ensures multiset(InsertDesc(x, s)) == multiset(s) + multiset{x}
  {
    if !(s == [] || s[0].1 <= x.1) {
      InsertDescMultiset(x, s[1..]);
      assert s == [s[0]] + s[1..];
    }
  }

  lemma {:induction false} InsertDescWithKey<T>(x: (T, real), s: seq<(T, real)>, k: real)
    ensures WithKey(InsertDesc(x, s), k) == (if x.1 == k then [x] else []) + WithKey(s, k)
  {
    if s == [] || s[0].1 <= x.1 {
      assert ([x] + s)[1..] == s;
    } else {
      var rest := InsertDesc(x, s[1..]);
      InsertDescWithKey(x, s[1..], k);
      assert ([s[0]] + rest)[1..] == rest;
    }
  }

  /**
   The insertion sort is sorted in non-increasing key order and is stable: for
   every key, the elements with that key appear in the same order as in the
   input. It is therefore a permutation of the input.
   */
  lemma {:induction false} SortDescCorrect<T>(s: seq<(T, real)>)
    ensures SortedDesc(SortDesc(s))
    ensures multiset(SortDesc(s)) == multiset(s)
    ensures forall k :: WithKey(SortDesc(s), k) == WithKey(s, k)
  {
    if s != [] {
      SortDescCorrect(s[1..]);
      InsertDescSorted(s[0], SortDesc(s[1..]));
      InsertDescMultiset(s[0], SortDesc(s[1..]));
      forall k ensures WithKey(SortDesc(s), k) == WithKey(s, k) {
        InsertDescWithKey(s[0], SortDesc(s[1..]), k);
      }
      assert s == [s[0]] + s[1..];
    }
  }

  lemma {:induction false} WithKeyMembers<T>(s: seq<(T, real)>, k: real, x: (T, real))
    ensures x in WithKey(s, k) <==> x in s && x.1 == k
  {
    if s != [] {
      WithKeyMembers(s[1..], k, x);
      assert s == [s[0]] + s[1..];
    }
  }

  /**
   Sortedness and stability determine the order completely: two lists that are
   both sorted and agree, key by key, on the order of their elements are equal.
   So any stable descending sort gives the same result as `SortDesc`.
   */
  lemma {:induction false} StableSortUnique<T>(r: seq<(T, real)>, t: seq<(T, real)>)
    requires SortedDesc(r) && SortedDesc(t)
    requires forall k :: WithKey(r, k) == WithKey(t, k)
    ensures r == t
    decreases |r|
  {
    if r != [] {
      WithKeyMembers(r, r[0].1, r[0]);
    }
    if t != [] {
      WithKeyMembers(t, t[0].1, t[0]);
    }
    if r != [] && t != [] {
      var m := r[0].1;
      WithKeyMembers(r, m, r[0]);
      WithKeyMembers(t, m, r[0]);
      var i :| 0 <= i < |t| && t[i] == r[0];
      assert t[0].1 >= m;
      WithKeyMembers(t, t[0].1, t[0]);
      WithKeyMembers(r, t[0].1, t[0]);
      var j :| 0 <= j < |r| && r[j] == t[0];
      assert m >= t[0].1;
      assert WithKey(r, m) == [r[0]] + WithKey(r[1..], m);
      assert WithKey(t, m) == [t[0]] + WithKey(t[1..], m);
      assert WithKey(r, m)[0] == r[0];
      assert WithKey(t, m)[0] == t[0];
      assert r[0] == t[0];
      forall k ensures WithKey(r[1..], k) == WithKey(t[1..], k) {
        assert WithKey(r, k) == WithKey(t, k);
        if k == m {
          assert WithKey(r, m)[1..] == WithKey(r[1..], m);
          assert WithKey(t, m)[1..] == WithKey(t[1..], m);
        } else {
          assert WithKey(r, k) == WithKey(r[1..], k);
          assert WithKey(t, k) == WithKey(t[1..], k);
        }
      }
      StableSortUnique(r[1..], t[1..]);
      assert r == [r[0]] + r[1..];
      assert t == [t[0]] + t[1..];
    }
  }

  lemma {:induction false} WithKeyOfPrefix<T>(s: seq<(T, real)>, n: nat, k: real)
    requires n <= |s|
    ensures WithKey(s[..n], k) <= WithKey(s, k)
  {
    if n > 0 {
      assert s[..n][1..] == s[1..][..n - 1];
      WithKeyOfPrefix(s[1..], n - 1, k);
    }
  }

  // ---------------------------------------------------------------------------
  // Top growth buckets

  /** The records paired with their monthly growth, in list order. */
  function Keyed(records: seq<BucketMetrics>): (ks: seq<(BucketMetrics, real)>)
    reads records
    ensures |ks| == |records|
    ensures forall i :: 0 <= i < |records| ==> ks[i] == (records[i], records[i].monthlyGrowth)
  {
    seq(|records|, i requires 0 <= i < |records| reads records => (records[i], records[i].monthlyGrowth))
  }

  /** The first components of the pairs, in order. */
  function Items<T>(s: seq<(T, real)>): seq<T>
  {
    seq(|s|, i requires 0 <= i < |s| => s[i].0)
  }

  /** Every pair carries its record's current monthly growth. */
  predicate Consistent(s: seq<(BucketMetrics, real)>)
    reads set i | 0 <= i < |s| :: s[i].0
  {
    forall i :: 0 <= i < |s| ==> s[i].1 == s[i].0.monthlyGrowth
  }

  lemma SortedKeyedConsistent(records: seq<BucketMetrics>)
    ensures Consistent(SortDesc(Keyed(records)))
  {
    var ks := Keyed(records);
    var sorted := SortDesc(ks);
    SortDescCorrect(ks);
    forall i | 0 <= i < |sorted| ensures sorted[i].1 == sorted[i].0.monthlyGrowth {
      assert sorted[i] in multiset(ks);
      var j :| 0 <= j < |ks| && ks[j] == sorted[i];
    }
  }

  /**
   The records with the largest monthly growth: at most `topCount` of them,
   the first of the records stably sorted by growth, descending. The input
   list is only read.
   */
  function FetchTopGrowthBuckets(records: seq<BucketMetrics>, topCount: nat): (top: seq<BucketMetrics>)
    reads records
    ensures |top| == Min(|records|, topCount)
    ensures forall i, j :: 0 <= i < j < |top| ==> top[i].monthlyGrowth >= top[j].monthlyGrowth
    ensures multiset(top) <= multiset(records)
  {
    SortDescCorrect(Keyed(records));
    SortedKeyedConsistent(records);
    TopFromSorted(records, topCount);
    Items(SortDesc(Keyed(records)))[..Min(|records|, topCount)]
  }

  lemma TopFromSorted(records: seq<BucketMetrics>, topCount: nat)
    ensures var sorted := SortDesc(Keyed(records));
      multiset(Items(sorted)[..Min(|records|, topCount)]) <= multiset(records)
  {
    var ks := Keyed(records);
    var sorted := SortDesc(ks);
    SortDescCorrect(ks);
    var n := Min(|records|, topCount);
    var items := Items(sorted);
    assert items == items[..n] + items[n..];
    assert multiset(items[..n]) <= multiset(items);
    assert Items(ks) == records;
    ItemsMultiset(ks, sorted);
  }

  lemma ItemsAppend<T>(a: seq<(T, real)>, b: seq<(T, real)>)
    ensures Items(a + b) == Items(a) + Items(b)
  {
  }

  lemma {:induction false} ItemsMultiset<T>(a: seq<(T, real)>, b: seq<(T, real)>)
    requires multiset(a) == multiset(b)
    ensures multiset(Items(a)) == multiset(Items(b))
    decreases |a|
  {
    if a == [] {
      assert |b| == |multiset(b)| == 0;
    } else {
      var x := a[0];
      assert x in multiset(b);
      var i :| 0 <= i < |b| && b[i] == x;
      var front, back := b[..i], b[i + 1..];
      assert b == front + ([x] + back);
      assert a == [x] + a[1..];
      assert multiset(a[1..]) == multiset(front + back) by {
        assert multiset(a) == multiset([x]) + multiset(a[1..]);
        assert multiset(b) == multiset(front) + multiset([x]) + multiset(back);
        assert multiset(front + back) == multiset(front) + multiset(back);
        assert multiset(a[1..]) == multiset(a) - multiset([x]);
        assert multiset(front + back) == multiset(b) - multiset([x]);
      }
      ItemsMultiset(a[1..], front + back);
      ItemsAppend([x], a[1..]);
      ItemsAppend(front, [x] + back);
      ItemsAppend([x], back);
      ItemsAppend(front, back);
    }
  }

  /** The records whose monthly growth is `g`, in list order. */
  function WithGrowth(records: seq<BucketMetrics>, g: real): seq<BucketMetrics>
    reads records
  {
    if records == [] then []
    else (if records[0].monthlyGrowth == g then [records[0]] else []) + WithGrowth(records[1..], g)
  }

  lemma {:induction false} ItemsWithKey(s: seq<(BucketMetrics, real)>, g: real)
    requires Consistent(s)
    ensures Items(WithKey(s, g)) == WithGrowth(Items(s), g)
  {
    if s != [] {
      ItemsWithKey(s[1..], g);
      assert Items(s)[1..] == Items(s[1..]);
      var head := if s[0].1 == g then [s[0]] else [];
      assert Items(head + WithKey(s[1..], g)) == Items(head) + Items(WithKey(s[1..], g));
    }
  }

  /**
   Ties keep their input order: for every growth value, the top records with
   that growth are the first records of the input with that growth, in input
   order.
   */
  lemma TopGrowthStable(records: seq<BucketMetrics>, topCount: nat, g: real)
    ensures WithGrowth(FetchTopGrowthBuckets(records, topCount), g) <= WithGrowth(records, g)
  {
    var ks := Keyed(records);
    var sorted := SortDesc(ks);
    var n := Min(|records|, topCount);
    SortDescCorrect(ks);
    SortedKeyedConsistent(records);
    assert Consistent(ks);
    assert Consistent(sorted[..n]);
    assert Items(sorted[..n]) == Items(sorted)[..n];
    assert Items(ks) == records;
    ItemsWithKey(sorted[..n], g);
    ItemsWithKey(ks, g);
    WithKeyOfPrefix(sorted, n, g);
    ItemsOfPrefix(WithKey(sorted[..n], g), WithKey(sorted, g));
  }

  lemma ItemsOfPrefix<T>(a: seq<(T, real)>, b: seq<(T, real)>)
    requires a <= b
    ensures Items(a) <= Items(b)
  {
  }

  /** The top records are the first ones of any stable descending sort of the records by growth. */
  lemma TopIsPrefixOfStableSort(records: seq<BucketMetrics>, topCount: nat, r: seq<(BucketMetrics, real)>)
    requires SortedDesc(r)
    requires forall k :: WithKey(r, k) == WithKey(Keyed(records), k)
    ensures Min(|records|, topCount) <= |r|
      && FetchTopGrowthBuckets(records, topCount) == Items(r)[..Min(|records|, topCount)]
  {
    SortDescCorrect(Keyed(records));
    StableSortUnique(r, SortDesc(Keyed(records)));
  }

  // ---------------------------------------------------------------------------
  // Storage-class selection

  /**
   The storage classes to query: the standard list when only_standard_storage
   is truthy, else the full list when all_storage_types is truthy, else the
   custom list, raising an AttributeError for the first of these options that
   is consulted and not set.
   */
  function GetStorageType(cfg: InputConfigs): (r: Outcome<JValue>)
    reads cfg
    ensures ("only_standard_storage" in cfg.attrs && Truthy(cfg.attrs["only_standard_storage"])) ==>
      r == Returned(JStrings(StandardStorage))
    ensures ("only_standard_storage" in cfg.attrs && !Truthy(cfg.attrs["only_standard_storage"])
             && "all_storage_types" in cfg.attrs && Truthy(cfg.attrs["all_storage_types"])) ==>
      r == Returned(JStrings(AllStorageTypes))
    ensures ("only_standard_storage" in cfg.attrs && !Truthy(cfg.attrs["only_standard_storage"])
             && "all_storage_types" in cfg.attrs && !Truthy(cfg.attrs["all_storage_types"])
             && "custom_storage_types" in cfg.attrs) ==>
      r == Returned(cfg.attrs["custom_storage_types"])
    ensures r.Raised? ==> r.exc == AttributeError
    ensures r.Raised? <==>
      || "only_standard_storage" !in cfg.attrs
      || (!Truthy(cfg.attrs["only_standard_storage"])
          && ("all_storage_types" !in cfg.attrs
              || (!Truthy(cfg.attrs["all_storage_types"]) && "custom_storage_types" !in cfg.attrs)))
  {
    match cfg.GetAttr("only_standard_storage")
    case Raised(e) => Raised(e)
    case Returned(onlyStandard) =>
      if Truthy(onlyStandard) then Returned(JStrings(StandardStorage))
      else match cfg.GetAttr("all_storage_types")
        case Raised(e) => Raised(e)
        case Returned(allTypes) =>
          if Truthy(allTypes) then Returned(JStrings(AllStorageTypes))
          else cfg.GetAttr("custom_storage_types")
  }

  // ---------------------------------------------------------------------------
  // Tags

  /** The tag map built by assigning each tag's value to its key, in list order. */
  function TagMap(tags: seq<Tag>): map<string, string>
  {
    if tags == [] then map[]
    else TagMap(tags[..|tags| - 1])[tags[|tags| - 1].key := tags[|tags| - 1].value]
  }

  /** The tag map has one key per distinct tag key. */
  lemma {:induction false} TagMapKeys(tags: seq<Tag>)
    ensures TagMap(tags).Keys == set t | t in tags :: t.key
  {
    if tags != [] {
      var rest := tags[..|tags| - 1];
      TagMapKeys(rest);
      assert tags == rest + [tags[|tags| - 1]];
    }
  }

  /** A key maps to the value of its last tag: later duplicates overwrite earlier ones. */
  lemma {:induction false} TagMapLastWins(tags: seq<Tag>, i: nat)
    requires i < |tags|
    requires forall j :: i < j < |tags| ==> tags[j].key != tags[i].key
    ensures tags[i].key in TagMap(tags) && TagMap(tags)[tags[i].key] == tags[i].value
  {
    if i < |tags| - 1 {
      TagMapLastWins(tags[..|tags| - 1], i);
    }
  }

  /** Flattens a tag set into a key-to-value map; no map for a missing or empty tag set. */
  method TransformTags(tags: Option<seq<Tag>>) returns (r: Option<map<string, string>>)
    ensures r.None? <==> tags.None? || tags.value == []
    ensures r.Some? ==> r.value == TagMap(tags.value)
  {
    if tags.None? || tags.value == [] {
      return None;
    }
    var tagSet := tags.value;
    var transformed: map<string, string> := map[];
    for i := 0 to |tagSet|
      invariant transformed == TagMap(tagSet[..i])
    {
      assert tagSet[..i + 1][..i] == tagSet[..i];
      transformed := transformed[tagSet[i].key := tagSet[i].value];
    }
    assert tagSet[..|tagSet|] == tagSet;
    r := Some(transformed);
  }

  // ---------------------------------------------------------------------------
  // Cache mapping

  /** The attribute dictionaries of the records, one per record, in list order. */
  function WriteAsJson(records: seq<BucketMetrics>): (dicts: seq<BucketFields>)
    reads records
    ensures |dicts| == |records|
    ensures forall i :: 0 <= i < |records| ==> dicts[i] == records[i].Fields()
  {
    seq(|records|, i requires 0 <= i < |records| reads records => records[i].Fields())
  }

  /**
   Builds one fresh record per cached object, in order, each holding that
   object's fields: writing the result back gives the same objects, so a write
   followed by a read reproduces every record field for field.
   */
  method ReadAsObject(dicts: seq<BucketFields>) returns (records: seq<BucketMetrics>)
    ensures WriteAsJson(records) == dicts
    ensures forall i :: 0 <= i < |records| ==> fresh(records[i])
    ensures Distinct(records)
  {
    records := [];
    for i := 0 to |dicts|
      invariant |records| == i
      invariant forall j :: 0 <= j < i ==> records[j].Fields() == dicts[j] && fresh(records[j])
      invariant Distinct(records)
    {
      var m := dicts[i];
      var record := new BucketMetrics(m.name, m.region, m.tags, m.accessible, m.currentSize, m.monthlyGrowth);
      records := records + [record];
    }
  }
}
