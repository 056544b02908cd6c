/**
  The per-kind decoders (`InterfaceToAny`, `InterfaceToCloud`, ...). Each takes
  the receiver's current value and one parsed JSON entry and gives the receiver's
  new value: fields the Go method assigns are replaced, the others keep their
  current value. A panic or a returned error is a Failure.
 */
module KindDecoders {
  import opened Wrappers
  import opened JsonValues
  import opened AssetModel
  import opened SubObjects

  /** The required part every decoder reads before it assigns anything. */
  datatype Header = Header(
    properties: Properties,
    pricingModels: Option<PricingModels>,
    labels: map<string, string>,
    start: Time,
    end: Time)

  /**
    The shared opening of every decoder: the entry and `properties` must be
    objects, `assetPricingModels` nil or an object, `labels` an object of
    strings, and `start` and `end` parseable timestamps.
   */
  ghost predicate HeaderAcceptable(parse: TimeParser, itf: Json) {
    && itf.JObj?
    && Get(itf.fields, "properties").JObj?
    && (Get(itf.fields, "assetPricingModels").JNull? || Get(itf.fields, "assetPricingModels").JObj?)
    && StringObject(Get(itf.fields, "labels"))
    && Get(itf.fields, "start").JStr? && parse(Get(itf.fields, "start").s).Some?
    && Get(itf.fields, "end").JStr? && parse(Get(itf.fields, "end").s).Some?
  }

  /** Reads the header, failing on the first required field that is missing or of the wrong type. */
  function DecodeHeader(parse: TimeParser, itf: Json): (r: Result<Header, Err>)
    ensures r.Success? ==> itf.JObj?
    ensures r.Success? <==> HeaderAcceptable(parse, itf)
    ensures r.Success? ==>
      && r.value.properties == ToAssetProp(Get(itf.fields, "properties").fields)
      && r.value.pricingModels == (if Get(itf.fields, "assetPricingModels").JObj?
                                   then Some(ToAssetPricingModels(Get(itf.fields, "assetPricingModels").fields))
                                   else None)
      && r.value.labels.Keys == Get(itf.fields, "labels").fields.Keys
      && (forall k :: k in r.value.labels ==> Get(itf.fields, "labels").fields[k] == JStr(r.value.labels[k]))
      && Some(r.value.start) == parse(Get(itf.fields, "start").s)
      && Some(r.value.end) == parse(Get(itf.fields, "end").s)
  {
    if !itf.JObj? then Failure(NotAnObject(""))
    else
      var fmap := itf.fields;
      var fproperties :- RequiredObject(fmap, "properties");
      var pricingModels :- PricingModelsOf(Get(fmap, "assetPricingModels"));
      var labels :- LabelsOf(Get(fmap, "labels"));
      var start :- ParseTimeField(parse, fmap, "start");
      var end :- ParseTimeField(parse, fmap, "end");
      Success(Header(ToAssetProp(fproperties), pricingModels, labels, start, end))
  }

  /**
    The assignments that follow the header. Every decoder sets properties,
    labels, pricing models and window; `setStartEnd` is false for the two
    decoders (ClusterManagement, SharedAsset) that do not assign start and end.
   */
  function AssignHeader(b: Base, h: Header, setStartEnd: bool): Base {
    b.(properties := Some(h.properties),
       labels := h.labels,
       pricingModels := h.pricingModels,
       start := if setStartEnd then h.start else b.start,
       end := if setStartEnd then h.end else b.end,
       window := Window(Some(h.start), Some(h.end)))
  }

  /**
    `adjustment`, `credit` and `discount`, then, when `deriveCost` holds, the
    base cost from `totalCost` minus the adjustment and credit just decoded.
   */
  function DecodeCharges(fmap: map<string, Json>, b: Base, deriveCost: bool): (r: Result<Base, Err>)
    ensures r.Success? <==>
      && !Get(fmap, "adjustment").JStr? && !Get(fmap, "credit").JStr? && !Get(fmap, "discount").JStr?
      && (deriveCost ==> !Get(fmap, "totalCost").JStr?)
    ensures r.Success? ==>
      var adjustment := NumberOr(Get(fmap, "adjustment"), b.adjustment);
      var credit := NumberOr(Get(fmap, "credit"), b.credit);
      r.value == b.(adjustment := adjustment,
                    credit := credit,
                    discount := NumberOr(Get(fmap, "discount"), b.discount),
                    cost := if deriveCost && Get(fmap, "totalCost").JNum?
                            then Get(fmap, "totalCost").n - adjustment - credit
                            else b.cost)
  {
    var adjustment :- TypedFloat(fmap, "adjustment", b.adjustment);
    var credit :- TypedFloat(fmap, "credit", b.credit);
    var discount :- TypedFloat(fmap, "discount", b.discount);
    var cost :- if deriveCost then DerivedCost(fmap, adjustment, credit, b.cost) else Success(b.cost);
    Success(b.(adjustment := adjustment, credit := credit, discount := discount, cost := cost))
  }

  /**
    The base cost is reassigned only when `totalCost` is a number: it becomes
    that number minus the adjustment and credit. A missing, null or non-number
    `totalCost` leaves the cost as it was, except that a string one fails.
   */
  function DerivedCost(fmap: map<string, Json>, adjustment: real, credit: real, current: real): (r: Result<real, Err>)
    ensures r.Failure? <==> Get(fmap, "totalCost").JStr?
    ensures r.Success? ==> r.value == if Get(fmap, "totalCost").JNum? then Get(fmap, "totalCost").n - adjustment - credit else current
  {
    match GetTypedVal(Get(fmap, "totalCost"))
    case Failure(_) => Success(current)
    case Success(TypedNumber(totalCost)) => Success(totalCost - adjustment - credit)
    case Success(TypedString(_)) => Failure(WrongScalarType("totalCost"))
  }

  function InterfaceToAny(parse: TimeParser, a: Asset, itf: Json): (r: Result<Asset, Err>)
    requires a.Any?
    ensures r.Success? ==> r.value.Any?
  {
    var h :- DecodeHeader(parse, itf);
    var b :- DecodeCharges(itf.fields, AssignHeader(a.base, h, true), true);
    Success(Any(b))
  }

  function InterfaceToCloud(parse: TimeParser, ca: Asset, itf: Json): (r: Result<Asset, Err>)
    requires ca.Cloud?
    ensures r.Success? ==> r.value.Cloud?
  {
    var h :- DecodeHeader(parse, itf);
    var fmap := itf.fields;
    var usageType :- TypedStringField(fmap, "usageType", ca.usageType);
    var usageDetail :- TypedStringField(fmap, "usageDetail", ca.usageDetail);
    var b :- DecodeCharges(fmap, AssignHeader(ca.base, h, true), true);
    Success(Cloud(b, usageType, usageDetail))
  }

  function InterfaceToClusterManagement(parse: TimeParser, cm: Asset, itf: Json): (r: Result<Asset, Err>)
    requires cm.ClusterManagement?
    ensures r.Success? ==> r.value.ClusterManagement?
  {
    var h :- DecodeHeader(parse, itf);
    var b :- DecodeCharges(itf.fields, AssignHeader(cm.base, h, false), true);
    Success(ClusterManagement(b))
  }

  function InterfaceToDisk(parse: TimeParser, d: Asset, itf: Json): (r: Result<Asset, Err>)
    requires d.Disk?
    ensures r.Success? ==> r.value.Disk?
  {
    var h :- DecodeHeader(parse, itf);
    var fmap := itf.fields;
    var breakdown :- RequiredBreakdown(fmap, "breakdown");
    var storageClass :- TypedStringField(fmap, "storageClass", d.storageClass);
    var b :- DecodeCharges(fmap, AssignHeader(d.base, h, true), true);
    var byteHours :- TypedFloat(fmap, "byteHours", d.byteHours);
    Success(Disk(b, byteHours, storageClass, Some(breakdown)))
  }

  function InterfaceToNetwork(parse: TimeParser, n: Asset, itf: Json): (r: Result<Asset, Err>)
    requires n.Network?
    ensures r.Success? ==> r.value.Network?
  {
    var h :- DecodeHeader(parse, itf);
    var b :- DecodeCharges(itf.fields, AssignHeader(n.base, h, true), true);
    Success(Network(b))
  }

  /** The Node decoder never reads `totalCost`: its cost fields are read one by one instead. */
  function InterfaceToNode(parse: TimeParser, n: Asset, itf: Json): (r: Result<Asset, Err>)
    requires n.Node?
    ensures r.Success? ==> r.value.Node?
  {
    var h :- DecodeHeader(parse, itf);
    var fmap := itf.fields;
    var cpuBreakdown :- RequiredBreakdown(fmap, "cpuBreakdown");
    var ramBreakdown :- RequiredBreakdown(fmap, "ramBreakdown");
    var b :- DecodeCharges(fmap, AssignHeader(n.base, h, true), false);
    var nodeType :- TypedStringField(fmap, "nodeType", n.nodeType);
    var cpuCoreHours :- TypedFloat(fmap, "cpuCoreHours", n.cpuCoreHours);
    var ramByteHours :- TypedFloat(fmap, "ramByteHours", n.ramByteHours);
    var gpuHours :- TypedFloat(fmap, "GPUHours", n.gpuHours);
    var cpuCost :- TypedFloat(fmap, "cpuCost", n.cpuCost);
    var gpuCost :- TypedFloat(fmap, "gpuCost", n.gpuCost);
    var gpuCount :- TypedFloat(fmap, "gpuCount", n.gpuCount);
    var ramCost :- TypedFloat(fmap, "ramCost", n.ramCost);
    Success(Node(b, nodeType, cpuCoreHours, ramByteHours, gpuHours,
                 Some(cpuBreakdown), Some(ramBreakdown), cpuCost, gpuCost, gpuCount, ramCost))
  }

  function InterfaceToLoadBalancer(parse: TimeParser, lb: Asset, itf: Json): (r: Result<Asset, Err>)
    requires lb.LoadBalancer?
    ensures r.Success? ==> r.value.LoadBalancer?
  {
    var h :- DecodeHeader(parse, itf);
    var b :- DecodeCharges(itf.fields, AssignHeader(lb.base, h, true), true);
    Success(LoadBalancer(b))
  }

  function InterfaceToSharedAsset(parse: TimeParser, sa: Asset, itf: Json): (r: Result<Asset, Err>)
    requires sa.SharedAsset?
    ensures r.Success? ==> r.value.SharedAsset?
  {
    var h :- DecodeHeader(parse, itf);
    var b :- DecodeCharges(itf.fields, AssignHeader(sa.base, h, false), true);
    Success(SharedAsset(b))
  }

  /** The decoder of kind `k`, applied to a receiver of that kind. */
  function DecodeAs(k: Kind, parse: TimeParser, prior: Asset, itf: Json): (r: Result<Asset, Err>)
    requires KindOf(prior) == k
    ensures r.Success? ==> KindOf(r.value) == k
  {
    match k
    case AnyKind => InterfaceToAny(parse, prior, itf)
    case CloudKind => InterfaceToCloud(parse, prior, itf)
    case ClusterManagementKind => InterfaceToClusterManagement(parse, prior, itf)
    case DiskKind => InterfaceToDisk(parse, prior, itf)
    case NetworkKind => InterfaceToNetwork(parse, prior, itf)
    case NodeKind => InterfaceToNode(parse, prior, itf)
    case LoadBalancerKind => InterfaceToLoadBalancer(parse, prior, itf)
    case SharedKind => InterfaceToSharedAsset(parse, prior, itf)
  }
}
