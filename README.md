# Asset decode pipeline (opencost `pkg/kubecost/asset_unmarshal.go`)

This project models how opencost turns the JSON form of its cost records back
into Asset values, and proves properties of that model. It covers the following
parts.

- **Leaf converters.** `toAssetProp`, `toAssetPricingModels`, `toBreakdown`
  and `getTypedVal`.
- **Per-kind decoders.** One decoder for each of the eight Asset kinds: Any,
  Cloud, ClusterManagement, Disk, Network, Node, LoadBalancer and SharedAsset.
- **Type dispatcher.** The switch on the `type` field in
  `RawMessageToAssetSetResponse`.
- **Collection decode.** `AssetSetResponse.RawMessageToAssetSetResponse`.
- **Range decode.** `AssetSetRangeResponse.UnmarshalJSON`.
- **Encoder key lists.** The ordered list of keys each `MarshalJSON` encoder
  writes.

The input is JSON that has already been parsed, as a `Json` datatype
(`json.dfy`). Looking a key up in a decoded object gives JNull both when the
key is absent and when its value is an explicit null. This matches a Go lookup
in a `map[string]interface{}`, which gives nil in both cases. A Go
type-assertion panic and a returned error both become a `Failure`.

Modules:

- `Wrappers`: `Option`/`Result`, plus two generic sequence helpers (`AllPresent`, `MapAll`).
- `JsonValues`: the parsed-JSON datatype and key lookup.
- `AssetModel`: the Asset variants, their sub-records, the zero value of each
  kind, and the time parser type.
- `SubObjects`: the leaf converters, the optional-scalar rule, the
  required-field accessors, and the labels copy (a `method` with its loop,
  proved equal to the function `LabelsOf`).
- `KindDecoders`: the eight `InterfaceTo*` decoders. Each one is a function
  from the receiver's current value and one entry to the receiver's new value.
- `DecoderFacts`: what the decoders promise, stated against separate tables of
  the keys each kind reads.
- `Dispatcher`: routing on `type`, decoding one entry, and the encoders'
  key lists.
- `AssetSets`: the collection and range decodes, as classes whose `Assets`
  field is assigned only after every part has decoded.
- `Scenarios`: a worked example, a Disk collection entry decoded field by field.

Two consequences of the type assertions are worth spelling out:

- **A string `adjustment` fails the entry.** `getTypedVal` accepts a string
  (lines 1116-1126), and the `.(float64)` assertion at line 97 then panics.
  - `Dispatcher.StringAdjustmentFails` proves this.
  - The same holds for every optional number that is given as a string, and
    for every optional string field that is given as a number
    (`DecoderFacts.MistypedScalarFails`).
- **A bad `assetPricingModels` fails the entry.** When the value is present
  but neither null nor an object, the map assertion at line 67 panics
  (`SubObjects.PricingModelsOf`).

## Model

| member | source | states |
|---|---|---|
| SubObjects.ToAssetProp | pkg/kubecost/asset_unmarshal.go:1032-1070 | toAssetProp. It has no contract of its own: `PropertiesDeterminedByStrings`, `PropertiesRoundTrip` and `PropertiesWithoutStringsAreZero` pin it down field by field. |
| SubObjects.PropertiesDeterminedByStrings | pkg/kubecost/asset_unmarshal.go:1032-1070 | Two property objects convert to the same Properties exactly when they give the same string (or "" for a non-string) under each of the eleven keys. Other keys and other value types play no part. |
| SubObjects.PropertiesRoundTrip | pkg/kubecost/asset_unmarshal.go:1032-1070 | Writing every field of a Properties value as a string under its key, then converting back, gives the same value. |
| SubObjects.PropertiesWithoutStringsAreZero | pkg/kubecost/asset_unmarshal.go:1032-1070 | When none of the eleven keys holds a string, every field keeps its zero value. |
| SubObjects.ToAssetPricingModels | pkg/kubecost/asset_unmarshal.go:1073-1091 | toAssetPricingModels on an object. It has no contract of its own: `PricingModelsDeterminedByNumbers` and `PricingModelsRoundTrip` pin it down. |
| SubObjects.PricingModelsDeterminedByNumbers | pkg/kubecost/asset_unmarshal.go:1073-1091 | Two pricing-model objects convert equally exactly when they give the same number (or 0) under preemptible, reservedInstance and savingsPlan. |
| SubObjects.PricingModelsRoundTrip | pkg/kubecost/asset_unmarshal.go:1073-1091 | Writing a PricingModels value out as numbers and converting back gives the same value. |
| SubObjects.PricingModelsOf | pkg/kubecost/asset_unmarshal.go:65-68 | Null or absent gives no pricing models. An object gives the converted record. Any other value fails. |
| SubObjects.ToBreakdown | pkg/kubecost/asset_unmarshal.go:1094-1112 | toBreakdown. It has no contract of its own: `BreakdownDeterminedByNumbers` and `BreakdownRoundTrip` pin it down. |
| SubObjects.BreakdownDeterminedByNumbers | pkg/kubecost/asset_unmarshal.go:1094-1112 | Two breakdown objects convert equally exactly when they give the same number (or 0) under idle, other, system and user. |
| SubObjects.BreakdownRoundTrip | pkg/kubecost/asset_unmarshal.go:1094-1112 | Writing a Breakdown out as numbers and converting back gives the same value. |
| SubObjects.RequiredBreakdown | pkg/kubecost/asset_unmarshal.go:385-387 | A required breakdown succeeds exactly when its key holds an object, and then gives that object's breakdown. |
| SubObjects.GetTypedVal | pkg/kubecost/asset_unmarshal.go:1116-1126 | Succeeds exactly on a number or a string, and returns it unchanged. Null and every other type fail. |
| SubObjects.TypedFloat | pkg/kubecost/asset_unmarshal.go:96-104 | An optional number fails exactly when it holds a string. Otherwise a number replaces the current value, and anything else keeps it. |
| SubObjects.TypedStringField | pkg/kubecost/asset_unmarshal.go:194-199 | An optional string fails exactly when it holds a number. Otherwise a string replaces the current value, and anything else keeps it. |
| SubObjects.RequiredObject | pkg/kubecost/asset_unmarshal.go:60-62 | Succeeds exactly when the key holds an object, and gives its fields. |
| SubObjects.ParseTimeField | pkg/kubecost/asset_unmarshal.go:76-84 | Succeeds exactly when the key holds a string that the time parser accepts, and gives the parsed instant. |
| SubObjects.LabelsOf | pkg/kubecost/asset_unmarshal.go:70-74 | Succeeds exactly on an object whose every value is a string. The result has the same keys, each mapped to its string. |
| SubObjects.CopyLabels | pkg/kubecost/asset_unmarshal.go:70-74 | The labels loop: it succeeds exactly on an object of strings, and gives the same keys with their strings. Its result equals `LabelsOf`. |
| KindDecoders.DecodeHeader | pkg/kubecost/asset_unmarshal.go:58-84 | Succeeds exactly when the entry is an object, `properties` is an object, `assetPricingModels` is null or an object, `labels` is an object of strings, and `start` and `end` parse. It then gives the converted properties, pricing models, labels and instants. |
| KindDecoders.DecodeCharges | pkg/kubecost/asset_unmarshal.go:96-107 | Fails exactly when adjustment, credit or discount holds a string (or totalCost does, when it is read). Otherwise each charge takes the number found or keeps its value. The cost becomes totalCost - adjustment - credit only when totalCost is a number. |
| KindDecoders.DerivedCost | pkg/kubecost/asset_unmarshal.go:105-107 | Fails exactly on a string totalCost. A number gives totalCost - adjustment - credit. Anything else keeps the current cost. |
| KindDecoders.InterfaceToAny | pkg/kubecost/asset_unmarshal.go:56-110 | Its own contract says only that a success is an Any. Success is given by `DecoderFacts.DecodeSucceedsIff`. The fields are given by `CommonFieldsDecoded`, `WindowAndStartEnd`, `ChargesDecoded` and `CostDerivation`. |
| KindDecoders.InterfaceToCloud | pkg/kubecost/asset_unmarshal.go:154-214 | Its own contract says only that a success is a Cloud. Success is given by `DecoderFacts.CloudSucceedsIff`, and the usage fields by `CloudFieldsDecoded`; the common-field lemmas cover the rest. |
| KindDecoders.InterfaceToClusterManagement | pkg/kubecost/asset_unmarshal.go:256-309 | Its own contract says only that a success is a ClusterManagement. Success is given by `DecoderFacts.PlainSucceedsIff`. `WindowAndStartEnd` records that start and end are not assigned. |
| KindDecoders.InterfaceToDisk | pkg/kubecost/asset_unmarshal.go:355-426 | Its own contract says only that a success is a Disk. Success is given by `DecoderFacts.DiskSucceedsIff`, and breakdown, storageClass and byteHours by `DiskFieldsDecoded`. |
| KindDecoders.InterfaceToNetwork | pkg/kubecost/asset_unmarshal.go:468-523 | Its own contract says only that a success is a Network. Success is given by `DecoderFacts.PlainSucceedsIff`, and the fields by the common-field lemmas. |
| KindDecoders.InterfaceToNode | pkg/kubecost/asset_unmarshal.go:577-660 | Its own contract says only that a success is a Node. Success is given by `DecoderFacts.NodeSucceedsIff`, and the breakdowns and Node scalars by `NodeFieldsDecoded`. `CostDerivation` records that the cost is never assigned. |
| KindDecoders.InterfaceToLoadBalancer | pkg/kubecost/asset_unmarshal.go:702-757 | Its own contract says only that a success is a LoadBalancer. Success is given by `DecoderFacts.PlainSucceedsIff`, and the fields by the common-field lemmas. |
| KindDecoders.InterfaceToSharedAsset | pkg/kubecost/asset_unmarshal.go:799-852 | Its own contract says only that a success is a SharedAsset. Success is given by `DecoderFacts.PlainSucceedsIff`. `WindowAndStartEnd` records that start and end are not assigned. |
| KindDecoders.DecodeAs | pkg/kubecost/asset_unmarshal.go:56-110 | The decoder chosen for kind k yields an asset of kind k. |
| AssetModel.ZeroAsset | pkg/kubecost/asset_unmarshal.go:904-905 | The receiver each decoder gets is of the chosen kind and has the zero base record. |
| DecoderFacts.DecodeSucceedsIff | pkg/kubecost/asset_unmarshal.go:56-110 | For every kind, a decode succeeds exactly on the acceptable entries: the header is well formed, each of the kind's breakdowns is an object, and no optional scalar has the wrong one of number or string. |
| DecoderFacts.PlainSucceedsIff | pkg/kubecost/asset_unmarshal.go:56-852 | The five decoders whose only scalars are the four charges succeed exactly on the acceptable entries. They are Any (56-110), ClusterManagement (256-309), Network (468-523), LoadBalancer (702-757) and SharedAsset (799-852). |
| DecoderFacts.CloudSucceedsIff | pkg/kubecost/asset_unmarshal.go:154-214 | The Cloud decoder succeeds exactly on the acceptable entries. |
| DecoderFacts.DiskSucceedsIff | pkg/kubecost/asset_unmarshal.go:355-426 | The Disk decoder succeeds exactly on the acceptable entries, `breakdown` being required. |
| DecoderFacts.NodeSucceedsIff | pkg/kubecost/asset_unmarshal.go:577-660 | The Node decoder succeeds exactly on the acceptable entries, both breakdowns being required. |
| DecoderFacts.RequiredFieldsFail | pkg/kubecost/asset_unmarshal.go:58-84 | Every kind, Any included, fails on: a non-object entry; a non-object `properties`; `labels` that is not an object of strings; a missing, non-string or unparseable `start` or `end`; or a missing breakdown of the kind (Disk: `breakdown`, Node: `cpuBreakdown` and `ramBreakdown`). |
| DecoderFacts.MistypedScalarFails | pkg/kubecost/asset_unmarshal.go:96-104 | A string in an optional number field, or a number in an optional string field, fails the decode. |
| DecoderFacts.CommonFieldsDecoded | pkg/kubecost/asset_unmarshal.go:86-94 | After a successful decode, properties, pricing models, labels and window are the converted header values. The window's endpoints are the parsed `start` and `end`. |
| DecoderFacts.WindowAndStartEnd | pkg/kubecost/asset_unmarshal.go:287-293 | The window's endpoints equal the decoded start and end, except for ClusterManagement and SharedAsset, which leave start and end as they were. |
| DecoderFacts.ChargesDecoded | pkg/kubecost/asset_unmarshal.go:96-104 | adjustment, credit and discount each take the number found, or keep their prior value. |
| DecoderFacts.CostDerivation | pkg/kubecost/asset_unmarshal.go:105-107 | For every kind but Node, a number totalCost gives cost = totalCost - adjustment - credit, using the just-decoded adjustment and credit. Otherwise, and always for Node, the cost is not assigned. |
| DecoderFacts.CloudFieldsDecoded | pkg/kubecost/asset_unmarshal.go:194-199 | Cloud's usageType and usageDetail take the string found, or keep their value. |
| DecoderFacts.DiskFieldsDecoded | pkg/kubecost/asset_unmarshal.go:385-417 | Disk's breakdown is the converted required object. storageClass and byteHours follow the optional rule. |
| DecoderFacts.NodeFieldsDecoded | pkg/kubecost/asset_unmarshal.go:607-657 | Node's two breakdowns are the converted required objects. nodeType and the seven usage and cost numbers follow the optional rule. |
| DecoderFacts.CostIgnoresDiscount | pkg/kubecost/asset_unmarshal.go:102-107 | Replacing a non-string discount by any number changes neither whether the decode succeeds nor the cost. The new discount is that number. |
| DecoderFacts.DecodeReadsOnlyReadKeys | pkg/kubecost/asset_unmarshal.go:56-852 | Two entry objects that hold the same values under a kind's read keys give the same decode, or the same failure, for that kind. Every other key is ignored. |
| Dispatcher.TypeName | pkg/kubecost/asset_unmarshal.go:901-968 | Only Any has no type string; the other kinds have the seven case labels. |
| Dispatcher.Route | pkg/kubecost/asset_unmarshal.go:901-989 | A non-string `type` goes to Any. A route to any other kind comes from exactly that kind's type string. `RouteIff` gives the full iff. |
| Dispatcher.RouteIff | pkg/kubecost/asset_unmarshal.go:901-989 | `type` routes to a kind exactly when it is that kind's type string. Any receives every value that is no kind's type string (absent, null, not a string, or an unknown string). |
| Dispatcher.DispatchEntry | pkg/kubecost/asset_unmarshal.go:899-989 | A successful entry decode comes from an object and yields the kind its `type` selects. |
| Dispatcher.DispatchSucceedsIff | pkg/kubecost/asset_unmarshal.go:899-989 | An entry decodes exactly when it is an object acceptable to the kind its `type` selects. |
| Dispatcher.FallbackToAny | pkg/kubecost/asset_unmarshal.go:979-987 | An object with no kind's type string decodes as Any. When totalCost is a number, the cost is rebuilt from it. |
| Dispatcher.StringAdjustmentFails | pkg/kubecost/asset_unmarshal.go:96-98 | A string adjustment fails the entry, whatever its kind. |
| Dispatcher.EncoderKeys | pkg/kubecost/asset_unmarshal.go:20-778 | Each encoder's ordered key list. Every kind but Any starts with `type`, and every list ends with `totalCost`. `OnlyAnyOmitsType` and `EncoderCoversDecoder` relate the lists to the decoders. |
| Dispatcher.OnlyAnyOmitsType | pkg/kubecost/asset_unmarshal.go:20-35 | `type` is among an encoder's keys exactly when the kind is not Any. |
| Dispatcher.EncodedTypeRoutesBack | pkg/kubecost/asset_unmarshal.go:901-968 | Each kind but Any has a type string, and that string is routed back to the same kind. |
| Dispatcher.EncodedAnyRoutesToAny | pkg/kubecost/asset_unmarshal.go:20-35 | An object that carries only keys Any's encoder writes lands in the default branch again. |
| Dispatcher.EncoderCoversDecoder | pkg/kubecost/asset_unmarshal.go:528-556 | Each encoder writes every key its decoder reads. The keys it writes but the decoder does not read are exactly `type`, `window` and `minutes`, plus `bytes` for Disk and `cpuCores`, `ramBytes` and `totalCost` for Node. |
| Dispatcher.DiskEncoderCoversDecoder | pkg/kubecost/asset_unmarshal.go:314-334 | The Disk encoder writes every key the Disk decoder reads. The unread keys are `type`, `window`, `minutes` and `bytes`. |
| Dispatcher.CloudEncoderCoversDecoder | pkg/kubecost/asset_unmarshal.go:115-133 | The Cloud encoder writes every key the Cloud decoder reads. The unread keys are `type`, `window` and `minutes`. |
| Dispatcher.AnyEncoderCoversDecoder | pkg/kubecost/asset_unmarshal.go:20-35 | The Any encoder writes every key the Any decoder reads. The unread keys are `window` and `minutes`. |
| Dispatcher.PlainEncoderCoversDecoder | pkg/kubecost/asset_unmarshal.go:219-235 | The ClusterManagement, Network, LoadBalancer and SharedAsset encoders write every key their decoders read. The unread keys are `type`, `window` and `minutes`. |
| Dispatcher.NodeEncoderCoversDecoder | pkg/kubecost/asset_unmarshal.go:528-556 | The Node encoder writes every key the Node decoder reads. The unread keys are `type`, `window`, `minutes`, `cpuCores`, `ramBytes` and `totalCost`. |
| AssetSets.DecodeCollection | pkg/kubecost/asset_unmarshal.go:885-996 | The collection decode as a value. It has no contract of its own: `CollectionFails` and `CollectionSucceeds` characterise it, and `RawMessageToAssetSetResponse` is proved against it. |
| AssetSets.AssetSetResponse.RawMessageToAssetSetResponse | pkg/kubecost/asset_unmarshal.go:885-996 | Succeeds exactly when every entry dispatches, and then `Assets` maps exactly the input's keys to their decodes. On failure `Assets` is unchanged, and the error is that of some failing entry; which one is left open. |
| AssetSets.AssetSetResponse.constructor | pkg/kubecost/asset_unmarshal.go:1014 | A freshly declared response holds no assets. |
| AssetSets.CollectionFails | pkg/kubecost/asset_unmarshal.go:905-909 | One entry that fails makes the whole collection fail. |
| AssetSets.CollectionSucceeds | pkg/kubecost/asset_unmarshal.go:887-993 | A map with the input's keys, holding each entry's decode, is the collection's result. |
| AssetSets.AssetSetRangeResponse.UnmarshalJSON | pkg/kubecost/asset_unmarshal.go:999-1027 | Succeeds exactly when every bucket decodes. It then gives one fresh, distinct response per bucket, in order, element i holding bucket i's collection decode. On failure `Assets` is unchanged, and the error comes from the first bucket that fails. |
| AssetSets.AssetSetRangeResponse.constructor | pkg/kubecost/asset_unmarshal.go:999 | A freshly declared range response holds no buckets. |
| AssetSets.DecodeRange | pkg/kubecost/asset_unmarshal.go:999-1027 | The range decode as a value. It has no contract of its own: `DecodeRangePointwise`, `DecodeRangeAppend`, `RangeSucceeds` and `RangeFails` characterise it, and `UnmarshalJSON` is proved against it. |
| AssetSets.DecodeRangePointwise | pkg/kubecost/asset_unmarshal.go:1012-1024 | The range decode succeeds exactly when every bucket does. It then has the input's length, with bucket i's decode at position i. |
| AssetSets.DecodeRangeAppend | pkg/kubecost/asset_unmarshal.go:1012-1024 | Decoding a concatenation of bucket lists is concatenating their decodes, and it fails when either part fails. |
| AssetSets.RangeSucceeds | pkg/kubecost/asset_unmarshal.go:1012-1024 | A list holding each bucket's decode, in order, is the range's result. |
| AssetSets.RangeFails | pkg/kubecost/asset_unmarshal.go:1015-1018 | One failing bucket makes the whole range fail. |
| Scenarios.DiskCollectionExample | pkg/kubecost/asset_unmarshal.go:924-933 | `{"d1": <Disk entry with totalCost 10, adjustment 1, credit 2>}` decodes to one Disk: cost 7, breakdown (1, 2, 3, 4), no pricing models. |

## Left out

- Byte-level JSON parsing. `json.Unmarshal`, `gojson.Unmarshal` and
  `UnmarshalJSON` on the individual kinds (lines 38-53 and similar) are not
  modelled. The model starts from parsed `Json` values and a map or list of
  already-parsed fragments. A fragment `json.Unmarshal` rejects is not modelled.
- Timestamps. Parsing and formatting under RFC 3339 is a parameter
  (`TimeParser`), an arbitrary partial function. No exact time round trip is
  claimed.
- IEEE-754 floats. Numbers are `real`, and the only arithmetic is one
  subtraction.
- `AssetSet.MarshalJSON` (lines 857-861). It only takes a read lock around a
  library call.
- The encoders. Only their ordered key lists are modelled. Their byte output
  and the helpers they call (the `jsonEncode` family, the struct tags) are
  defined in files this model does not include.
- `Type().String()` is not part of this model; its values are taken to be the
  dispatcher's case labels.
- The derived accessors (`Minutes()`, `Bytes()`, `CPUCores()`, `RAMBytes()`,
  `TotalCost()`) are not visible either. The keys they produce are modelled
  only as keys that are written but never read.
- Disk's `Local` flag (lines 419-422). It has no wire representation.
- Panic versus returned error. Both are one `Failure` case, and the error
  message text is not modelled.
- The receiver after a failed decode. In Go it may be left partly assigned.
  That state is never observed, because the dispatcher discards it.
- The receiver updated in place. Each `InterfaceTo*` is a function from the
  receiver's old value to its new value. It is not a method that mutates a
  shared object, and pointers between assets are not modelled.
- nil versus empty maps. A freshly declared response's nil map or nil slice is
  modelled as empty.
- The nil-map branch of `toAssetPricingModels`. It cannot be reached from
  decoded JSON, because a value that passes the map assertion is a non-nil map.
- Error choice in a collection. Go's map iteration order is random, so the
  model does not fix which failing entry's error the collection decode returns.
