/**
  The collection decode (AssetSetResponse.RawMessageToAssetSetResponse) and
  the range decode (AssetSetRangeResponse.UnmarshalJSON). Both build their
  result in a local and assign the target field only once every part has
  decoded, so a failure leaves the target as it was.
 */
module AssetSets {
  import opened Wrappers
  import opened JsonValues
  import opened AssetModel
  import opened SubObjects
  import opened Dispatcher

  /** The collection decode as a value: every entry dispatched, or nothing at all. */
  function DecodeCollection(parse: TimeParser, assetMap: map<string, Json>): Option<map<string, Asset>> {
    if forall key :: key in assetMap ==> DispatchEntry(parse, assetMap[key]).Success?
    then Some(map key | key in assetMap :: DispatchEntry(parse, assetMap[key]).value)
    else None
  }

  /** One entry that fails to dispatch makes the whole collection fail. */
  lemma CollectionFails(parse: TimeParser, assetMap: map<string, Json>, key: string)
    requires key in assetMap && DispatchEntry(parse, assetMap[key]).Failure?
    ensures DecodeCollection(parse, assetMap).None?
  {
  }

  /** A map holding, for every key, that entry's dispatched asset is the collection's decode. */
  lemma CollectionSucceeds(parse: TimeParser, assetMap: map<string, Json>, decoded: map<string, Asset>)
    requires decoded.Keys == assetMap.Keys
    requires forall key :: key in decoded ==> DispatchEntry(parse, assetMap[key]) == Success(decoded[key])
    ensures DecodeCollection(parse, assetMap) == Some(decoded)
  {
    assert forall key :: key in assetMap ==> DispatchEntry(parse, assetMap[key]).Success?;
    assert (map key | key in assetMap :: DispatchEntry(parse, assetMap[key]).value) == decoded;
  }

  /** The collection decode as a function value, for mapping over a list of buckets. */
  function CollectionDecoder(parse: TimeParser): map<string, Json> -> Option<map<string, Asset>> {
    m => DecodeCollection(parse, m)
  }

  /** Each bucket's collection decode, position by position. */
  function BucketDecodes(parse: TimeParser, assetMapList: seq<map<string, Json>>): seq<Option<map<string, Asset>>> {
    MapAll(assetMapList, CollectionDecoder(parse))
  }

  /** The range decode as a value: every bucket decoded, in order, or nothing at all. */
  function DecodeRange(parse: TimeParser, assetMapList: seq<map<string, Json>>): Option<seq<map<string, Asset>>> {
    AllPresent(BucketDecodes(parse, assetMapList))
  }

  /**
    The range decode succeeds exactly when every bucket does, and then has one
    collection per bucket, bucket i's decode at position i.
   */
  lemma DecodeRangePointwise(parse: TimeParser, assetMapList: seq<map<string, Json>>)
    ensures DecodeRange(parse, assetMapList).Some? <==>
      forall i :: 0 <= i < |assetMapList| ==> DecodeCollection(parse, assetMapList[i]).Some?
    ensures DecodeRange(parse, assetMapList).Some? ==>
      && |DecodeRange(parse, assetMapList).value| == |assetMapList|
      && forall i :: 0 <= i < |assetMapList| ==>
           DecodeRange(parse, assetMapList).value[i] == DecodeCollection(parse, assetMapList[i]).value
  {
    var decodes := BucketDecodes(parse, assetMapList);
    assert forall i :: 0 <= i < |assetMapList| ==> decodes[i] == DecodeCollection(parse, assetMapList[i]);
    AllPresentPointwise(decodes);
  }

  /** Decoding two bucket lists one after the other is decoding their concatenation. */
  lemma DecodeRangeAppend(parse: TimeParser, xs: seq<map<string, Json>>, ys: seq<map<string, Json>>)
    ensures DecodeRange(parse, xs + ys) ==
      match (DecodeRange(parse, xs), DecodeRange(parse, ys))
      case (Some(a), Some(b)) => Some(a + b)
      case _ => None
  {
    MapAllAppend(xs, ys, CollectionDecoder(parse));
    AllPresentAppend(BucketDecodes(parse, xs), BucketDecodes(parse, ys));
  }

  /** AssetSetResponse: the decode target of one collection. */
  class AssetSetResponse {
    var Assets: map<string, Asset>

    /** A freshly declared response: its map is nil, modelled as empty. */
    constructor ()
      ensures Assets == map[]
    {
      Assets := map[];
    }

    /**
      Decodes every entry into a fresh map and assigns Assets only when all have
      decoded. Go's map order is random, so any failing entry's error may be the
      one returned.
     */
    method RawMessageToAssetSetResponse(parse: TimeParser, assetMap: map<string, Json>) returns (err: Option<Err>)
      modifies this
      ensures err.None? <==> DecodeCollection(parse, assetMap).Some?
      ensures err.None? ==> Assets == DecodeCollection(parse, assetMap).value
      ensures err.Some? ==> Assets == old(Assets)
      ensures err.Some? ==> exists key :: key in assetMap && DispatchEntry(parse, assetMap[key]) == Failure(err.value)
    {
      var newAssetMap: map<string, Asset> := map[];
      var todo := assetMap.Keys;
      while todo != {}
        invariant todo <= assetMap.Keys
        invariant newAssetMap.Keys == assetMap.Keys - todo
        invariant forall key :: key in newAssetMap ==> DispatchEntry(parse, assetMap[key]) == Success(newAssetMap[key])
        decreases todo
      {
        var key :| key in todo;
        var decoded := DispatchEntry(parse, assetMap[key]);
        if decoded.Failure? {
          CollectionFails(parse, assetMap, key);
          return Some(decoded.error);
        }
        newAssetMap := newAssetMap[key := decoded.value];
        todo := todo - {key};
      }
      CollectionSucceeds(parse, assetMap, newAssetMap);
      Assets := newAssetMap;
      return None;
    }
  }

  /** A list holding every bucket's decode, in order, is the range decode. */
  lemma RangeSucceeds(parse: TimeParser, assetMapList: seq<map<string, Json>>, decoded: seq<map<string, Asset>>)
    requires |decoded| == |assetMapList|
    requires forall j :: 0 <= j < |decoded| ==> Some(decoded[j]) == DecodeCollection(parse, assetMapList[j])
    ensures DecodeRange(parse, assetMapList) == Some(decoded)
  {
    DecodeRangePointwise(parse, assetMapList);
    assert DecodeRange(parse, assetMapList).value == decoded;
  }

  /** One failing bucket makes the whole range fail. */
  lemma RangeFails(parse: TimeParser, assetMapList: seq<map<string, Json>>, i: int)
    requires 0 <= i < |assetMapList| && DecodeCollection(parse, assetMapList[i]).None?
    ensures DecodeRange(parse, assetMapList).None?
  {
    DecodeRangePointwise(parse, assetMapList);
  }

  /** No element occurs twice. */
  ghost predicate Distinct<T>(xs: seq<T>) {
    forall i, j :: 0 <= i < j < |xs| ==> xs[i] != xs[j]
  }

  /** Appending an element not yet present keeps a sequence free of repeats. */
  lemma DistinctAppend<T>(xs: seq<T>, x: T)
    requires Distinct(xs) && x !in xs
    ensures Distinct(xs + [x])
  {
    forall i, j | 0 <= i < j < |xs + [x]| ensures (xs + [x])[i] != (xs + [x])[j] {
      if j < |xs| {
        assert (xs + [x])[i] == xs[i] && (xs + [x])[j] == xs[j];
      } else {
        assert (xs + [x])[i] == xs[i] && (xs + [x])[j] == x;
      }
    }
  }

  /** Bucket `i` is the first that fails, and one of its entries fails with `e`. */
  ghost predicate FirstFailingBucket(parse: TimeParser, assetMapList: seq<map<string, Json>>, i: int, e: Err) {
    && 0 <= i < |assetMapList|
    && DecodeCollection(parse, assetMapList[i]).None?
    && (forall j :: 0 <= j < i ==> DecodeCollection(parse, assetMapList[j]).Some?)
    && (exists key :: key in assetMapList[i] && DispatchEntry(parse, assetMapList[i][key]) == Failure(e))
  }

  /** AssetSetRangeResponse: the decode target of a list of collections. */
  class AssetSetRangeResponse {
    var Assets: seq<AssetSetResponse>

    /** A freshly declared range response: its slice is nil, modelled as empty. */
    constructor ()
      ensures Assets == []
    {
      Assets := [];
    }

    /**
      Decodes each already-split bucket, in order, into its own fresh
      AssetSetResponse and assigns Assets only when every bucket has decoded;
      the error returned is that of the first bucket that fails.
     */
    method UnmarshalJSON(parse: TimeParser, assetMapList: seq<map<string, Json>>) returns (err: Option<Err>)
      modifies this
      ensures err.None? <==> DecodeRange(parse, assetMapList).Some?
      ensures err.None? ==> |Assets| == |assetMapList|
      ensures err.None? ==> forall i :: 0 <= i < |Assets| ==> Some(Assets[i].Assets) == DecodeCollection(parse, assetMapList[i])
      ensures err.None? ==> forall i :: 0 <= i < |Assets| ==> fresh(Assets[i])
      ensures err.None? ==> Distinct(Assets)
      ensures err.Some? ==> Assets == old(Assets)
      ensures err.Some? ==> exists i :: FirstFailingBucket(parse, assetMapList, i, err.value)
    {
      var assetSetList: seq<AssetSetResponse> := [];
      ghost var decoded: seq<map<string, Asset>> := [];
      var i := 0;
      while i < |assetMapList|
        invariant 0 <= i <= |assetMapList|
        invariant |assetSetList| == |decoded| == i
        invariant forall j :: 0 <= j < i ==> fresh(assetSetList[j])
        invariant forall j :: 0 <= j < i ==> assetSetList[j].Assets == decoded[j]
        invariant forall j :: 0 <= j < i ==> Some(decoded[j]) == DecodeCollection(parse, assetMapList[j])
        invariant Distinct(assetSetList)
        invariant Assets == old(Assets)
      {
        var asresp := new AssetSetResponse();
        var e := asresp.RawMessageToAssetSetResponse(parse, assetMapList[i]);
        if e.Some? {
          assert FirstFailingBucket(parse, assetMapList, i, e.value);
          RangeFails(parse, assetMapList, i);
          return e;
        }
        assert asresp !in assetSetList;
        DistinctAppend(assetSetList, asresp);
        assetSetList := assetSetList + [asresp];
        decoded := decoded + [asresp.Assets];
        i := i + 1;
      }
      RangeSucceeds(parse, assetMapList, decoded);
      Assets := assetSetList;
      return None;
    }
  }
}
