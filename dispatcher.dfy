/**
  The type dispatcher (the `switch` on `type` in RawMessageToAssetSetResponse)
  and the key lists the MarshalJSON encoders write, in their order.
 */
module Dispatcher {
  import opened Wrappers
  import opened JsonValues
  import opened AssetModel
  import opened SubObjects
  import opened KindDecoders
  import opened DecoderFacts

  /**
    The `type` string a kind's encoder writes; Any's encoder writes none.
    (`Type().String()` is not part of this model: its values are taken to be the
    dispatcher's case labels.)
   */
  function TypeName(k: Kind): (r: Option<string>)
    ensures r.None? <==> k == AnyKind
  {
    match k
    case AnyKind => None
    case CloudKind => Some("Cloud")
    case ClusterManagementKind => Some("ClusterManagement")
    case DiskKind => Some("Disk")
    case NetworkKind => Some("Network")
    case NodeKind => Some("Node")
    case LoadBalancerKind => Some("LoadBalancer")
    case SharedKind => Some("Shared")
  }

  /** The switch on `type`: the value matches a case label only when it is that very string. */
  function Route(t: Json): (r: Kind)
    ensures !t.JStr? ==> r == AnyKind
    ensures r != AnyKind ==> TypeName(r).Some? && t == JStr(TypeName(r).value)
  {
    match t
    case JStr(s) =>
      if s == "Cloud" then CloudKind
      else if s == "ClusterManagement" then ClusterManagementKind
      else if s == "Disk" then DiskKind
      else if s == "Network" then NetworkKind
      else if s == "Node" then NodeKind
      else if s == "LoadBalancer" then LoadBalancerKind
      else if s == "Shared" then SharedKind
      else AnyKind
    case _ => AnyKind
  }

  /**
    A `type` value goes to kind `k` exactly when it is `k`'s type string; Any
    receives every value that is no kind's type string (absent, null, not a
    string, or an unknown string).
   */
  lemma RouteIff(t: Json, k: Kind)
    ensures Route(t) == k <==>
      if k == AnyKind then forall k' :: TypeName(k').Some? ==> t != JStr(TypeName(k').value)
      else t == JStr(TypeName(k).value)
  {
    if k == AnyKind && Route(t) != AnyKind {
      var k' := Route(t);
      assert TypeName(k').Some? && t == JStr(TypeName(k').value);
    }
  }

  /** One entry of the collection: must be an object, then goes to the kind its `type` names, on a zero receiver. */
  function DispatchEntry(parse: TimeParser, f: Json): (r: Result<Asset, Err>)
    ensures r.Success? ==> f.JObj? && KindOf(r.value) == Route(Get(f.fields, "type"))
  {
    if !f.JObj? then Failure(NotAnObject(""))
    else
      var k := Route(Get(f.fields, "type"));
      DecodeAs(k, parse, ZeroAsset(k), f)
  }

  /** An entry decodes exactly when it is an object acceptable to the kind its `type` selects. */
  lemma DispatchSucceedsIff(parse: TimeParser, f: Json)
    ensures DispatchEntry(parse, f).Success? <==> f.JObj? && Acceptable(Route(Get(f.fields, "type")), parse, f)
  {
    if f.JObj? {
      var k := Route(Get(f.fields, "type"));
      DecodeSucceedsIff(k, parse, ZeroAsset(k), f);
    }
  }

  /**
    An object with no kind's type string is decoded as Any, from a zero receiver,
    with its base cost rebuilt from `totalCost` when that is a number.
   */
  lemma FallbackToAny(parse: TimeParser, f: Json)
    requires f.JObj? && forall k :: TypeName(k).Some? ==> Get(f.fields, "type") != JStr(TypeName(k).value)
    requires DispatchEntry(parse, f).Success?
    ensures DispatchEntry(parse, f).value.Any?
    ensures var b := DispatchEntry(parse, f).value.base;
            Get(f.fields, "totalCost").JNum? ==> b.cost == Get(f.fields, "totalCost").n - b.adjustment - b.credit
  {
    RouteIff(Get(f.fields, "type"), AnyKind);
    CostDerivation(AnyKind, parse, ZeroAsset(AnyKind), f);
  }

  /** An `adjustment` given as a string fails the entry, whatever its kind. */
  lemma StringAdjustmentFails(parse: TimeParser, f: Json)
    requires f.JObj? && Get(f.fields, "adjustment").JStr?
    ensures DispatchEntry(parse, f).Failure?
  {
    var k := Route(Get(f.fields, "type"));
    assert "adjustment" == NumberKeys(k)[0];
    MistypedScalarFails(k, parse, ZeroAsset(k), f, "adjustment");
  }

  // ---------------------------------------------------------------------------
  // The encoders' key lists

  /** The keys each MarshalJSON writes, in order. */
  function EncoderKeys(k: Kind): (r: seq<string>)
    ensures k != AnyKind ==> |r| > 0 && r[0] == "type"
    ensures |r| > 0 && r[|r| - 1] == "totalCost"
  {
    match k
    case AnyKind =>
      ["properties", "labels", "assetPricingModels", "window", "start", "end", "minutes",
       "adjustment", "credit", "discount", "totalCost"]
    case CloudKind =>
      ["type", "properties", "labels", "assetPricingModels", "usageType", "usageDetail", "window",
       "start", "end", "minutes", "adjustment", "credit", "discount", "totalCost"]
    case DiskKind =>
      ["type", "properties", "labels", "assetPricingModels", "window", "start", "end", "minutes",
       "byteHours", "bytes", "breakdown", "storageClass", "adjustment", "credit", "discount", "totalCost"]
    case NodeKind => NodeEncodedHeader + NodeEncodedUsage + NodeEncodedCharges
    case _ => PlainEncodedKeys
  }

  /** Node's key list, in three parts: the common header, the usage figures, the charges. */
  const NodeEncodedHeader: seq<string> :=
    ["type", "properties", "assetPricingModels", "labels", "window", "start", "end", "minutes"]
  const NodeEncodedUsage: seq<string> :=
    ["nodeType", "cpuCores", "ramBytes", "cpuCoreHours", "ramByteHours", "GPUHours", "cpuBreakdown", "ramBreakdown"]
  const NodeEncodedCharges: seq<string> :=
    ["cpuCost", "gpuCost", "gpuCount", "ramCost", "adjustment", "credit", "discount", "totalCost"]

  /** The key list shared by ClusterManagement, Network, LoadBalancer and SharedAsset. */
  const PlainEncodedKeys: seq<string> :=
    ["type", "properties", "labels", "assetPricingModels", "window", "start", "end", "minutes",
     "adjustment", "credit", "discount", "totalCost"]

  /** Only Any's encoder omits `type`. */
  lemma OnlyAnyOmitsType(k: Kind)
    ensures "type" in EncoderKeys(k) <==> k != AnyKind
  {
    if k != AnyKind {
      assert EncoderKeys(k)[0] == "type";
    }
  }

  /** The `type` string a kind's encoder writes is routed back to that kind. */
  lemma EncodedTypeRoutesBack(k: Kind)
    ensures TypeName(k).Some? <==> k != AnyKind
    ensures TypeName(k).Some? ==> Route(JStr(TypeName(k).value)) == k
  {
  }

  /** An object that carries only the keys Any's encoder writes lands in the default branch again. */
  lemma EncodedAnyRoutesToAny(f: Json)
    requires f.JObj? && forall key :: key in f.fields ==> key in EncoderKeys(AnyKind)
    ensures Route(Get(f.fields, "type")) == AnyKind
  {
    OnlyAnyOmitsType(AnyKind);
    assert "type" !in f.fields;
  }

  /** The keys an encoder writes that its decoder never reads. */
  function UnreadKeys(k: Kind): set<string> {
    match k
    case AnyKind => {"window", "minutes"}
    case DiskKind => {"type", "window", "minutes", "bytes"}
    case NodeKind => {"type", "window", "minutes", "cpuCores", "ramBytes", "totalCost"}
    case _ => {"type", "window", "minutes"}
  }

  /**
    Every key a decoder reads is written by the same kind's encoder, and the
    encoded keys it does not read are exactly the derived display values, the
    window, the discriminator and, for Node, `totalCost`.
   */
  lemma EncoderCoversDecoder(k: Kind)
    ensures forall key :: key in ReadKeys(k) ==> key in EncoderKeys(k)
    ensures (set key | key in EncoderKeys(k) && key !in ReadKeys(k)) == UnreadKeys(k)
  {
    match k
    case NodeKind => NodeEncoderCoversDecoder();
    case DiskKind => DiskEncoderCoversDecoder();
    case CloudKind => CloudEncoderCoversDecoder();
    case AnyKind => AnyEncoderCoversDecoder();
    case _ => PlainEncoderCoversDecoder(k);
  }

  /** Node's encoder writes every key its decoder reads. */
  lemma NodeReadKeysAreEncoded()
    ensures forall key :: key in ReadKeys(NodeKind) ==> key in EncoderKeys(NodeKind)
  {
    assert ReadKeys(NodeKind) == NodeReadKeys;
  }

  /** Unread keys of Node's header part. */
  lemma NodeUnreadHeader()
    ensures (set key | key in NodeEncodedHeader && key !in NodeReadKeys) == {"type", "window", "minutes"}
  {
  }

  /** Unread keys of Node's usage part. */
  lemma NodeUnreadUsage()
    ensures (set key | key in NodeEncodedUsage && key !in NodeReadKeys) == {"cpuCores", "ramBytes"}
  {
  }

  /** Unread keys of Node's charges part. */
  lemma NodeUnreadCharges()
    ensures (set key | key in NodeEncodedCharges && key !in NodeReadKeys) == {"totalCost"}
  {
  }

  /** Node's encoded but unread keys, collected from its three parts. */
  lemma NodeUnreadKeysAreDerived()
    ensures (set key | key in EncoderKeys(NodeKind) && key !in ReadKeys(NodeKind)) == UnreadKeys(NodeKind)
  {
    assert ReadKeys(NodeKind) == NodeReadKeys;
    NodeUnreadHeader();
    NodeUnreadUsage();
    NodeUnreadCharges();
    var e := EncoderKeys(NodeKind);
    assert forall key :: key in e <==> key in NodeEncodedHeader || key in NodeEncodedUsage || key in NodeEncodedCharges;
  }

  /** The keys the Node decoder reads. */
  const NodeReadKeys: seq<string> :=
    ["properties", "assetPricingModels", "labels", "start", "end", "cpuBreakdown", "ramBreakdown",
     "nodeType", "adjustment", "credit", "discount", "cpuCoreHours", "ramByteHours", "GPUHours",
     "cpuCost", "gpuCost", "gpuCount", "ramCost"]

  /** EncoderCoversDecoder for Node. */
  lemma NodeEncoderCoversDecoder()
    ensures forall key :: key in ReadKeys(NodeKind) ==> key in EncoderKeys(NodeKind)
    ensures (set key | key in EncoderKeys(NodeKind) && key !in ReadKeys(NodeKind)) == UnreadKeys(NodeKind)
  {
    NodeReadKeysAreEncoded();
    NodeUnreadKeysAreDerived();
  }

  /** EncoderCoversDecoder for Disk. */
  lemma DiskEncoderCoversDecoder()
    ensures forall key :: key in ReadKeys(DiskKind) ==> key in EncoderKeys(DiskKind)
    ensures (set key | key in EncoderKeys(DiskKind) && key !in ReadKeys(DiskKind)) == UnreadKeys(DiskKind)
  {
    var e, r := EncoderKeys(DiskKind), ReadKeys(DiskKind);
    assert r == ["properties", "assetPricingModels", "labels", "start", "end", "breakdown", "storageClass",
                 "adjustment", "credit", "discount", "totalCost", "byteHours"];
  }

  /** EncoderCoversDecoder for Cloud. */
  lemma CloudEncoderCoversDecoder()
    ensures forall key :: key in ReadKeys(CloudKind) ==> key in EncoderKeys(CloudKind)
    ensures (set key | key in EncoderKeys(CloudKind) && key !in ReadKeys(CloudKind)) == UnreadKeys(CloudKind)
  {
    var e, r := EncoderKeys(CloudKind), ReadKeys(CloudKind);
    assert r == ["properties", "assetPricingModels", "labels", "start", "end", "usageType", "usageDetail",
                 "adjustment", "credit", "discount", "totalCost"];
  }

  /** EncoderCoversDecoder for Any. */
  lemma AnyEncoderCoversDecoder()
    ensures forall key :: key in ReadKeys(AnyKind) ==> key in EncoderKeys(AnyKind)
    ensures (set key | key in EncoderKeys(AnyKind) && key !in ReadKeys(AnyKind)) == UnreadKeys(AnyKind)
  {
    var e, r := EncoderKeys(AnyKind), ReadKeys(AnyKind);
    assert r == PlainReadKeys;
  }

  /** The keys read by the decoders of Any and of the four plain kinds. */
  const PlainReadKeys: seq<string> :=
    ["properties", "assetPricingModels", "labels", "start", "end", "adjustment", "credit", "discount", "totalCost"]

  /** The plain key lists: every read key is encoded; the rest are `type`, `window` and `minutes`. */
  lemma PlainKeysCovered()
    ensures forall key :: key in PlainReadKeys ==> key in PlainEncodedKeys
    ensures (set key | key in PlainEncodedKeys && key !in PlainReadKeys) == {"type", "window", "minutes"}
  {
  }

  /** EncoderCoversDecoder for ClusterManagement, Network, LoadBalancer and SharedAsset. */
  lemma PlainEncoderCoversDecoder(k: Kind)
    requires PlainKind(k) && k != AnyKind
    ensures forall key :: key in ReadKeys(k) ==> key in EncoderKeys(k)
    ensures (set key | key in EncoderKeys(k) && key !in ReadKeys(k)) == UnreadKeys(k)
  {
    assert EncoderKeys(k) == PlainEncodedKeys;
    assert ReadKeys(k) == PlainReadKeys;
    assert UnreadKeys(k) == {"type", "window", "minutes"};
    PlainKeysCovered();
  }
}
