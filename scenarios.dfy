/**
  A worked example of the collection decode: one Disk entry carrying the
  pieces of a typical cost record.
 */
module Scenarios {
  import opened Wrappers
  import opened JsonValues
  import opened AssetModel
  import opened SubObjects
  import opened KindDecoders
  import opened DecoderFacts
  import opened Dispatcher
  import opened AssetSets

  const ExampleStart: string := "2023-01-01T00:00:00Z"
  const ExampleEnd: string := "2023-01-02T00:00:00Z"

  function ExampleDiskEntry(): Json {
    JObj(map[
      "type" := JStr("Disk"),
      "properties" := JObj(map[]),
      "labels" := JObj(map[]),
      "start" := JStr(ExampleStart),
      "end" := JStr(ExampleEnd),
      "breakdown" := JObj(ExampleBreakdown),
      "totalCost" := JNum(10.0),
      "adjustment" := JNum(1.0),
      "credit" := JNum(2.0)])
  }

  const ExampleBreakdown: map<string, Json> :=
    map["idle" := JNum(1.0), "other" := JNum(2.0), "system" := JNum(3.0), "user" := JNum(4.0)]

  /** What the decoder reads from the example entry, key by key. */
  lemma ExampleDiskEntryFields()
    ensures var fm := ExampleDiskEntry().fields;
            && Get(fm, "type") == JStr("Disk")
            && Get(fm, "properties") == JObj(map[]) && Get(fm, "labels") == JObj(map[])
            && Get(fm, "assetPricingModels") == JNull
            && Get(fm, "start") == JStr(ExampleStart) && Get(fm, "end") == JStr(ExampleEnd)
            && Get(fm, "breakdown") == JObj(ExampleBreakdown)
            && Get(fm, "storageClass") == JNull && Get(fm, "byteHours") == JNull && Get(fm, "discount") == JNull
            && Get(fm, "totalCost") == JNum(10.0) && Get(fm, "adjustment") == JNum(1.0) && Get(fm, "credit") == JNum(2.0)
  {
    ExampleDiskEntryPresentFields();
    ExampleDiskEntryAbsentFields();
  }

  /** The keys the example entry carries, with their values. */
  lemma ExampleDiskEntryPresentFields()
    ensures var fm := ExampleDiskEntry().fields;
            && Get(fm, "type") == JStr("Disk")
            && Get(fm, "properties") == JObj(map[]) && Get(fm, "labels") == JObj(map[])
            && Get(fm, "start") == JStr(ExampleStart) && Get(fm, "end") == JStr(ExampleEnd)
            && Get(fm, "breakdown") == JObj(ExampleBreakdown)
            && Get(fm, "totalCost") == JNum(10.0) && Get(fm, "adjustment") == JNum(1.0) && Get(fm, "credit") == JNum(2.0)
  {
  }

  /** The keys the Disk decoder reads that the example entry leaves out. */
  lemma ExampleDiskEntryAbsentFields()
    ensures var fm := ExampleDiskEntry().fields;
            && Get(fm, "assetPricingModels") == JNull
            && Get(fm, "storageClass") == JNull && Get(fm, "byteHours") == JNull && Get(fm, "discount") == JNull
  {
  }

  /** What the decoder reads from an entry shaped like the example. */
  ghost predicate ExampleShaped(f: Json) {
    && f.JObj? && Get(f.fields, "type") == JStr("Disk")
    && Get(f.fields, "properties") == JObj(map[]) && Get(f.fields, "labels") == JObj(map[])
    && Get(f.fields, "assetPricingModels") == JNull
    && Get(f.fields, "start") == JStr(ExampleStart) && Get(f.fields, "end") == JStr(ExampleEnd)
    && Get(f.fields, "breakdown") == JObj(ExampleBreakdown)
    && Get(f.fields, "storageClass") == JNull && Get(f.fields, "byteHours") == JNull
    && Get(f.fields, "discount") == JNull
    && Get(f.fields, "totalCost") == JNum(10.0) && Get(f.fields, "adjustment") == JNum(1.0)
    && Get(f.fields, "credit") == JNum(2.0)
  }

  /** Such an entry goes to the Disk decoder, which accepts it. */
  lemma ExampleShapedAccepted(parse: TimeParser, f: Json)
    requires parse(ExampleStart).Some? && parse(ExampleEnd).Some? && ExampleShaped(f)
    ensures Route(Get(f.fields, "type")) == DiskKind
    ensures Acceptable(DiskKind, parse, f)
  {
    RouteIff(Get(f.fields, "type"), DiskKind);
    assert AcceptableUnfolded(DiskKind, parse, f);
    AcceptableUnfolds(DiskKind, parse, f);
  }

  /** Such an entry decodes as a Disk with cost 10 - 1 - 2. */
  lemma ExampleShapedDecodes(parse: TimeParser, f: Json)
    requires parse(ExampleStart).Some? && parse(ExampleEnd).Some? && ExampleShaped(f)
    ensures var r := DispatchEntry(parse, f);
            && r.Success? && r.value.Disk?
            && r.value.base.cost == 7.0
            && r.value.breakdown == Some(Breakdown(1.0, 2.0, 3.0, 4.0))
            && r.value.base.pricingModels == None
  {
    ExampleShapedAccepted(parse, f);
    var prior := ZeroAsset(DiskKind);
    DecodeSucceedsIff(DiskKind, parse, prior, f);
    assert DispatchEntry(parse, f) == DecodeAs(DiskKind, parse, prior, f);
    ChargesDecoded(DiskKind, parse, prior, f);
    CostDerivation(DiskKind, parse, prior, f);
    CommonFieldsDecoded(DiskKind, parse, prior, f);
    DiskFieldsDecoded(parse, prior, f);
    assert ToBreakdown(ExampleBreakdown) == Breakdown(1.0, 2.0, 3.0, 4.0);
  }

  /**
    `{"d1": <the Disk entry>}` decodes to one Disk whose cost is 10 - 1 - 2 = 7,
    whose breakdown is {1, 2, 3, 4} and whose pricing models are unset.
   */
  lemma DiskCollectionExample(parse: TimeParser)
    requires parse(ExampleStart).Some? && parse(ExampleEnd).Some?
    ensures var r := DecodeCollection(parse, map["d1" := ExampleDiskEntry()]);
            && r.Some? && r.value.Keys == {"d1"}
            && r.value["d1"] == DispatchEntry(parse, ExampleDiskEntry()).value
            && r.value["d1"].Disk?
            && r.value["d1"].base.cost == 7.0
            && r.value["d1"].breakdown == Some(Breakdown(1.0, 2.0, 3.0, 4.0))
            && r.value["d1"].base.pricingModels == None
  {
    var f := ExampleDiskEntry();
    ExampleDiskEntryFields();
    ExampleShapedDecodes(parse, f);
    CollectionSucceeds(parse, map["d1" := f], map["d1" := DispatchEntry(parse, f).value]);
  }
}
