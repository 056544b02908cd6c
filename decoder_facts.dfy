/**
  What the per-kind decoders promise, stated against independent tables of the
  keys each kind reads: when a decode succeeds, what each field of the result
  is, how the base cost is derived, and that nothing outside those keys matters.
 */
module DecoderFacts {
  import opened Wrappers
  import opened JsonValues
  import opened AssetModel
  import opened SubObjects
  import opened KindDecoders

  // ---------------------------------------------------------------------------
  // Which keys each kind reads, by role.

  /** The required keys every decoder reads first (assetPricingModels may be nil). */
  const HeaderKeys: seq<string> := ["properties", "assetPricingModels", "labels", "start", "end"]

  /** The required breakdown objects of a kind. */
  function BreakdownFields(k: Kind): seq<string> {
    match k
    case DiskKind => ["breakdown"]
    case NodeKind => ["cpuBreakdown", "ramBreakdown"]
    case _ => []
  }

  /** The optional string scalars of a kind. */
  function StringKeys(k: Kind): seq<string> {
    match k
    case CloudKind => ["usageType", "usageDetail"]
    case DiskKind => ["storageClass"]
    case NodeKind => ["nodeType"]
    case _ => []
  }

  /** The optional number scalars of a kind. */
  function NumberKeys(k: Kind): seq<string> {
    match k
    case DiskKind => ["adjustment", "credit", "discount", "totalCost", "byteHours"]
    case NodeKind =>
      ["adjustment", "credit", "discount", "cpuCoreHours", "ramByteHours", "GPUHours",
       "cpuCost", "gpuCost", "gpuCount", "ramCost"]
    case _ => ["adjustment", "credit", "discount", "totalCost"]
  }

  /** Every key the decoder of kind `k` looks at. */
  function ReadKeys(k: Kind): seq<string> {
    HeaderKeys + BreakdownFields(k) + StringKeys(k) + NumberKeys(k)
  }

  /**
    The entries the decoder of kind `k` accepts: the header is well formed,
    every required breakdown is an object, no string scalar holds a number and
    no number scalar holds a string.
   */
  ghost predicate Acceptable(k: Kind, parse: TimeParser, itf: Json) {
    && HeaderAcceptable(parse, itf)
    && (forall key :: key in BreakdownFields(k) ==> Get(itf.fields, key).JObj?)
    && (forall key :: key in StringKeys(k) ==> !Get(itf.fields, key).JNum?)
    && (forall key :: key in NumberKeys(k) ==> !Get(itf.fields, key).JStr?)
  }

  // ---------------------------------------------------------------------------
  // Success and failure

  /** The kinds whose only scalars are the four charge fields. */
  predicate PlainKind(k: Kind) {
    k in {AnyKind, ClusterManagementKind, NetworkKind, LoadBalancerKind, SharedKind}
  }

  /** No charge field that the decoder reads as a number holds a string. */
  ghost predicate ChargesWellTyped(fmap: map<string, Json>, deriveCost: bool) {
    && !Get(fmap, "adjustment").JStr? && !Get(fmap, "credit").JStr? && !Get(fmap, "discount").JStr?
    && (deriveCost ==> !Get(fmap, "totalCost").JStr?)
  }

  /** DecodeSucceedsIff for Any and the four plain kinds. */
  lemma PlainSucceedsIff(k: Kind, parse: TimeParser, prior: Asset, itf: Json)
    requires KindOf(prior) == k && PlainKind(k)
    ensures DecodeAs(k, parse, prior, itf).Success? <==> Acceptable(k, parse, itf)
  {
    if itf.JObj? {
      PlainKeysUnfold(k, itf.fields);
    }
  }

  /** DecodeSucceedsIff for Cloud. */
  lemma CloudSucceedsIff(parse: TimeParser, prior: Asset, itf: Json)
    requires prior.Cloud?
    ensures InterfaceToCloud(parse, prior, itf).Success? <==> Acceptable(CloudKind, parse, itf)
  {
    if itf.JObj? {
      CloudKeysUnfold(itf.fields);
    }
  }

  /** DecodeSucceedsIff for Disk. */
  lemma DiskSucceedsIff(parse: TimeParser, prior: Asset, itf: Json)
    requires prior.Disk?
    ensures InterfaceToDisk(parse, prior, itf).Success? <==> Acceptable(DiskKind, parse, itf)
  {
    if itf.JObj? {
      DiskKeysUnfold(itf.fields);
    }
  }

  /** The numeric Node-specific fields hold no string. */
  ghost predicate NodeScalarsWellTyped(fmap: map<string, Json>) {
    && !Get(fmap, "cpuCoreHours").JStr? && !Get(fmap, "ramByteHours").JStr?
    && !Get(fmap, "GPUHours").JStr? && !Get(fmap, "cpuCost").JStr?
    && !Get(fmap, "gpuCost").JStr? && !Get(fmap, "gpuCount").JStr? && !Get(fmap, "ramCost").JStr?
  }

  /** Acceptable for a Node, with its key tables written out (the same condition, kept apart so each proof stays small). */
  ghost predicate NodeAcceptable(parse: TimeParser, itf: Json) {
    && HeaderAcceptable(parse, itf)
    && Get(itf.fields, "cpuBreakdown").JObj? && Get(itf.fields, "ramBreakdown").JObj?
    && !Get(itf.fields, "nodeType").JNum?
    && ChargesWellTyped(itf.fields, false)
    && NodeScalarsWellTyped(itf.fields)
  }

  /** Node's number-key table, written out. */
  lemma NodeNumbersUnfold(fmap: map<string, Json>)
    ensures (forall key :: key in NumberKeys(NodeKind) ==> !Get(fmap, key).JStr?)
        <==> ChargesWellTyped(fmap, false) && NodeScalarsWellTyped(fmap)
  {
  }

  /** Node's breakdown-key table, written out. */
  lemma NodeBreakdownsUnfold(fmap: map<string, Json>)
    ensures (forall key :: key in BreakdownFields(NodeKind) ==> Get(fmap, key).JObj?)
        <==> Get(fmap, "cpuBreakdown").JObj? && Get(fmap, "ramBreakdown").JObj?
  {
  }

  /** Node's string-key table, written out. */
  lemma NodeStringsUnfold(fmap: map<string, Json>)
    ensures (forall key :: key in StringKeys(NodeKind) ==> !Get(fmap, key).JNum?) <==> !Get(fmap, "nodeType").JNum?
  {
  }

  /** Acceptable for a Node is NodeAcceptable. */
  lemma NodeAcceptableUnfolds(parse: TimeParser, itf: Json)
    ensures Acceptable(NodeKind, parse, itf) <==> NodeAcceptable(parse, itf)
  {
    if itf.JObj? {
      NodeBreakdownsUnfold(itf.fields);
      NodeStringsUnfold(itf.fields);
      NodeNumbersUnfold(itf.fields);
    }
  }

  /** The Node decoder succeeds exactly on NodeAcceptable entries. */
  lemma NodeDecodeSucceedsIff(parse: TimeParser, prior: Asset, itf: Json)
    requires prior.Node?
    ensures InterfaceToNode(parse, prior, itf).Success? <==> NodeAcceptable(parse, itf)
  {
  }

  /** DecodeSucceedsIff for Node. */
  lemma NodeSucceedsIff(parse: TimeParser, prior: Asset, itf: Json)
    requires prior.Node?
    ensures InterfaceToNode(parse, prior, itf).Success? <==> Acceptable(NodeKind, parse, itf)
  {
    NodeAcceptableUnfolds(parse, itf);
    NodeDecodeSucceedsIff(parse, prior, itf);
  }

  /** Acceptable with the key tables of each kind written out (the same condition, kept apart so each proof stays small). */
  ghost predicate AcceptableUnfolded(k: Kind, parse: TimeParser, itf: Json) {
    && HeaderAcceptable(parse, itf)
    && match k
       case CloudKind =>
         !Get(itf.fields, "usageType").JNum? && !Get(itf.fields, "usageDetail").JNum? && ChargesWellTyped(itf.fields, true)
       case DiskKind =>
         && Get(itf.fields, "breakdown").JObj? && !Get(itf.fields, "storageClass").JNum?
         && ChargesWellTyped(itf.fields, true) && !Get(itf.fields, "byteHours").JStr?
       case NodeKind =>
         && Get(itf.fields, "cpuBreakdown").JObj? && Get(itf.fields, "ramBreakdown").JObj?
         && !Get(itf.fields, "nodeType").JNum?
         && ChargesWellTyped(itf.fields, false) && NodeScalarsWellTyped(itf.fields)
       case _ => ChargesWellTyped(itf.fields, true)
  }

  /** Disk's key tables, written out. */
  lemma DiskKeysUnfold(fmap: map<string, Json>)
    ensures (forall key :: key in BreakdownFields(DiskKind) ==> Get(fmap, key).JObj?) <==> Get(fmap, "breakdown").JObj?
    ensures (forall key :: key in StringKeys(DiskKind) ==> !Get(fmap, key).JNum?) <==> !Get(fmap, "storageClass").JNum?
    ensures (forall key :: key in NumberKeys(DiskKind) ==> !Get(fmap, key).JStr?)
        <==> ChargesWellTyped(fmap, true) && !Get(fmap, "byteHours").JStr?
  {
  }

  /** Cloud's key tables, written out. */
  lemma CloudKeysUnfold(fmap: map<string, Json>)
    ensures (forall key :: key in BreakdownFields(CloudKind) ==> Get(fmap, key).JObj?)
    ensures (forall key :: key in StringKeys(CloudKind) ==> !Get(fmap, key).JNum?)
        <==> !Get(fmap, "usageType").JNum? && !Get(fmap, "usageDetail").JNum?
    ensures (forall key :: key in NumberKeys(CloudKind) ==> !Get(fmap, key).JStr?) <==> ChargesWellTyped(fmap, true)
  {
  }

  /** The key tables of Any and the plain kinds, written out. */
  lemma PlainKeysUnfold(k: Kind, fmap: map<string, Json>)
    requires PlainKind(k)
    ensures (forall key :: key in BreakdownFields(k) ==> Get(fmap, key).JObj?)
    ensures (forall key :: key in StringKeys(k) ==> !Get(fmap, key).JNum?)
    ensures (forall key :: key in NumberKeys(k) ==> !Get(fmap, key).JStr?) <==> ChargesWellTyped(fmap, true)
  {
    assert NumberKeys(k) == ["adjustment", "credit", "discount", "totalCost"];
  }

  /** Acceptable is AcceptableUnfolded, for every kind. */
  lemma AcceptableUnfolds(k: Kind, parse: TimeParser, itf: Json)
    ensures Acceptable(k, parse, itf) <==> AcceptableUnfolded(k, parse, itf)
  {
    if itf.JObj? {
      match k
      case NodeKind => NodeAcceptableUnfolds(parse, itf);
      case DiskKind => DiskKeysUnfold(itf.fields);
      case CloudKind => CloudKeysUnfold(itf.fields);
      case _ => PlainKeysUnfold(k, itf.fields);
    }
  }

  /** A decode succeeds exactly on the acceptable entries. */
  lemma DecodeSucceedsIff(k: Kind, parse: TimeParser, prior: Asset, itf: Json)
    requires KindOf(prior) == k
    ensures DecodeAs(k, parse, prior, itf).Success? <==> Acceptable(k, parse, itf)
  {
    match k
    case CloudKind => CloudSucceedsIff(parse, prior, itf);
    case DiskKind => DiskSucceedsIff(parse, prior, itf);
    case NodeKind => NodeSucceedsIff(parse, prior, itf);
    case _ => PlainSucceedsIff(k, parse, prior, itf);
  }

  /**
    Every kind, Any included, fails on an entry that is not an object, whose
    `properties` is not an object, whose `labels` is not an object of strings,
    whose `start` or `end` is not a parseable timestamp, or that lacks one of the
    kind's breakdown objects.
   */
  lemma RequiredFieldsFail(k: Kind, parse: TimeParser, prior: Asset, itf: Json)
    requires KindOf(prior) == k
    requires
      || !itf.JObj?
      || !Get(itf.fields, "properties").JObj?
      || !StringObject(Get(itf.fields, "labels"))
      || !(Get(itf.fields, "start").JStr? && parse(Get(itf.fields, "start").s).Some?)
      || !(Get(itf.fields, "end").JStr? && parse(Get(itf.fields, "end").s).Some?)
      || (exists key :: key in BreakdownFields(k) && !Get(itf.fields, key).JObj?)
    ensures DecodeAs(k, parse, prior, itf).Failure?
  {
    DecodeSucceedsIff(k, parse, prior, itf);
  }

  /**
    The partial swallow-on-mismatch rule: an optional number field that holds a
    string, or an optional string field that holds a number, fails the decode.
   */
  lemma MistypedScalarFails(k: Kind, parse: TimeParser, prior: Asset, itf: Json, key: string)
    requires KindOf(prior) == k && itf.JObj?
    requires (key in NumberKeys(k) && Get(itf.fields, key).JStr?) || (key in StringKeys(k) && Get(itf.fields, key).JNum?)
    ensures DecodeAs(k, parse, prior, itf).Failure?
  {
    DecodeSucceedsIff(k, parse, prior, itf);
  }

  // ---------------------------------------------------------------------------
  // What a successful decode produces

  /** Helper: the base record written by a successful decode, as the composition of its two stages. */
  lemma BaseOfDecode(k: Kind, parse: TimeParser, prior: Asset, itf: Json)
    requires KindOf(prior) == k && DecodeAs(k, parse, prior, itf).Success?
    ensures itf.JObj? && DecodeHeader(parse, itf).Success?
    ensures var setStartEnd := k !in {ClusterManagementKind, SharedKind};
            var charges := DecodeCharges(itf.fields, AssignHeader(prior.base, DecodeHeader(parse, itf).value, setStartEnd), k != NodeKind);
            charges.Success? && DecodeAs(k, parse, prior, itf).value.base == charges.value
  {
    if k in {AnyKind, CloudKind, ClusterManagementKind, DiskKind} {
      BaseOfFirstKinds(k, parse, prior, itf);
    } else {
      BaseOfLastKinds(k, parse, prior, itf);
    }
  }

  /** `BaseOfDecode` for the Any, Cloud, ClusterManagement and Disk decoders (the grouping only keeps each proof small). */
  lemma BaseOfFirstKinds(k: Kind, parse: TimeParser, prior: Asset, itf: Json)
    requires k in {AnyKind, CloudKind, ClusterManagementKind, DiskKind}
    requires KindOf(prior) == k && DecodeAs(k, parse, prior, itf).Success?
    ensures itf.JObj? && DecodeHeader(parse, itf).Success?
    ensures var setStartEnd := k !in {ClusterManagementKind, SharedKind};
            var charges := DecodeCharges(itf.fields, AssignHeader(prior.base, DecodeHeader(parse, itf).value, setStartEnd), k != NodeKind);
            charges.Success? && DecodeAs(k, parse, prior, itf).value.base == charges.value
  {
    match k
    case AnyKind =>
    case CloudKind =>
    case ClusterManagementKind =>
    case DiskKind =>
  }

  /** `BaseOfDecode` for the Network, Node, LoadBalancer and SharedAsset decoders (the grouping only keeps each proof small). */
  lemma BaseOfLastKinds(k: Kind, parse: TimeParser, prior: Asset, itf: Json)
    requires k in {NetworkKind, NodeKind, LoadBalancerKind, SharedKind}
    requires KindOf(prior) == k && DecodeAs(k, parse, prior, itf).Success?
    ensures itf.JObj? && DecodeHeader(parse, itf).Success?
    ensures var setStartEnd := k !in {ClusterManagementKind, SharedKind};
            var charges := DecodeCharges(itf.fields, AssignHeader(prior.base, DecodeHeader(parse, itf).value, setStartEnd), k != NodeKind);
            charges.Success? && DecodeAs(k, parse, prior, itf).value.base == charges.value
  {
    match k
    case NetworkKind =>
    case NodeKind =>
    case LoadBalancerKind =>
    case SharedKind =>
  }

  /**
    Properties, labels, pricing models and window are always assigned: the
    properties and pricing models are the sub-object decodes, the labels are the
    entry's string labels unwrapped, and the window's endpoints are the parsed
    `start` and `end`.
   */
  lemma CommonFieldsDecoded(k: Kind, parse: TimeParser, prior: Asset, itf: Json)
    requires KindOf(prior) == k && DecodeAs(k, parse, prior, itf).Success?
    ensures itf.JObj?
    ensures var b := DecodeAs(k, parse, prior, itf).value.base;
            var fmap := itf.fields;
            && b.properties == Some(ToAssetProp(Get(fmap, "properties").fields))
            && b.pricingModels == (if Get(fmap, "assetPricingModels").JObj?
                                   then Some(ToAssetPricingModels(Get(fmap, "assetPricingModels").fields))
                                   else None)
            && b.labels.Keys == Get(fmap, "labels").fields.Keys
            && (forall key :: key in b.labels ==> Get(fmap, "labels").fields[key] == JStr(b.labels[key]))
            && b.window == Window(parse(Get(fmap, "start").s), parse(Get(fmap, "end").s))
  {
    BaseOfDecode(k, parse, prior, itf);
  }

  /**
    For Any, Cloud, Disk, Network, Node and LoadBalancer the window's endpoints
    are the decoded start and end; ClusterManagement and SharedAsset assign only
    the window and leave start and end as they were.
   */
  lemma WindowAndStartEnd(k: Kind, parse: TimeParser, prior: Asset, itf: Json)
    requires KindOf(prior) == k && DecodeAs(k, parse, prior, itf).Success?
    ensures var b := DecodeAs(k, parse, prior, itf).value.base;
            k !in {ClusterManagementKind, SharedKind} ==> b.window == Window(Some(b.start), Some(b.end))
    ensures var b := DecodeAs(k, parse, prior, itf).value.base;
            k in {ClusterManagementKind, SharedKind} ==> b.start == prior.base.start && b.end == prior.base.end
  {
    BaseOfDecode(k, parse, prior, itf);
  }

  /** `adjustment`, `credit` and `discount` take the number found, or keep their value when none is. */
  lemma ChargesDecoded(k: Kind, parse: TimeParser, prior: Asset, itf: Json)
    requires KindOf(prior) == k && DecodeAs(k, parse, prior, itf).Success?
    ensures itf.JObj?
    ensures var b := DecodeAs(k, parse, prior, itf).value.base;
            && b.adjustment == NumberOr(Get(itf.fields, "adjustment"), prior.base.adjustment)
            && b.credit == NumberOr(Get(itf.fields, "credit"), prior.base.credit)
            && b.discount == NumberOr(Get(itf.fields, "discount"), prior.base.discount)
  {
    BaseOfDecode(k, parse, prior, itf);
  }

  /**
    The base cost is rebuilt as `totalCost - adjustment - credit` from the
    values just decoded, for every kind but Node, and only when `totalCost` is
    a number; otherwise, and always for Node, it is not assigned.
   */
  lemma CostDerivation(k: Kind, parse: TimeParser, prior: Asset, itf: Json)
    requires KindOf(prior) == k && DecodeAs(k, parse, prior, itf).Success?
    ensures itf.JObj?
    ensures var b := DecodeAs(k, parse, prior, itf).value.base;
            k != NodeKind && Get(itf.fields, "totalCost").JNum? ==>
              b.cost == Get(itf.fields, "totalCost").n - b.adjustment - b.credit
    ensures var b := DecodeAs(k, parse, prior, itf).value.base;
            k == NodeKind || !Get(itf.fields, "totalCost").JNum? ==> b.cost == prior.base.cost
  {
    BaseOfDecode(k, parse, prior, itf);
  }

  /** Cloud's usage type and detail take the string found, or keep their value. */
  lemma CloudFieldsDecoded(parse: TimeParser, prior: Asset, itf: Json)
    requires prior.Cloud? && InterfaceToCloud(parse, prior, itf).Success?
    ensures itf.JObj?
    ensures var ca := InterfaceToCloud(parse, prior, itf).value;
            && ca.usageType == StringOr(Get(itf.fields, "usageType"), prior.usageType)
            && ca.usageDetail == StringOr(Get(itf.fields, "usageDetail"), prior.usageDetail)
  {
  }

  /** Disk's breakdown is always assigned from the required object; its scalars follow the optional rule. */
  lemma DiskFieldsDecoded(parse: TimeParser, prior: Asset, itf: Json)
    requires prior.Disk? && InterfaceToDisk(parse, prior, itf).Success?
    ensures itf.JObj? && Get(itf.fields, "breakdown").JObj?
    ensures var d := InterfaceToDisk(parse, prior, itf).value;
            && d.breakdown == Some(ToBreakdown(Get(itf.fields, "breakdown").fields))
            && d.storageClass == StringOr(Get(itf.fields, "storageClass"), prior.storageClass)
            && d.byteHours == NumberOr(Get(itf.fields, "byteHours"), prior.byteHours)
  {
  }

  /** Node's two breakdowns are always assigned from the required objects; its scalars follow the optional rule. */
  lemma NodeFieldsDecoded(parse: TimeParser, prior: Asset, itf: Json)
    requires prior.Node? && InterfaceToNode(parse, prior, itf).Success?
    ensures itf.JObj? && Get(itf.fields, "cpuBreakdown").JObj? && Get(itf.fields, "ramBreakdown").JObj?
    ensures var n := InterfaceToNode(parse, prior, itf).value;
            var fmap := itf.fields;
            && n.cpuBreakdown == Some(ToBreakdown(Get(fmap, "cpuBreakdown").fields))
            && n.ramBreakdown == Some(ToBreakdown(Get(fmap, "ramBreakdown").fields))
            && n.nodeType == StringOr(Get(fmap, "nodeType"), prior.nodeType)
            && n.cpuCoreHours == NumberOr(Get(fmap, "cpuCoreHours"), prior.cpuCoreHours)
            && n.ramByteHours == NumberOr(Get(fmap, "ramByteHours"), prior.ramByteHours)
            && n.gpuHours == NumberOr(Get(fmap, "GPUHours"), prior.gpuHours)
            && n.cpuCost == NumberOr(Get(fmap, "cpuCost"), prior.cpuCost)
            && n.gpuCost == NumberOr(Get(fmap, "gpuCost"), prior.gpuCost)
            && n.gpuCount == NumberOr(Get(fmap, "gpuCount"), prior.gpuCount)
            && n.ramCost == NumberOr(Get(fmap, "ramCost"), prior.ramCost)
  {
  }

  /** Replacing a non-string `discount` by a number keeps an entry acceptable, or unacceptable. */
  lemma DiscountKeepsAcceptability(k: Kind, parse: TimeParser, itf: Json, d: real)
    requires itf.JObj? && !Get(itf.fields, "discount").JStr?
    ensures Acceptable(k, parse, itf) <==> Acceptable(k, parse, JObj(itf.fields["discount" := JNum(d)]))
  {
    var itf' := JObj(itf.fields["discount" := JNum(d)]);
    AcceptableUnfolds(k, parse, itf);
    AcceptableUnfolds(k, parse, itf');
    DiscountKeepsUnfolded(k, parse, itf, d);
  }

  /** DiscountKeepsAcceptability on the written-out tables. */
  lemma DiscountKeepsUnfolded(k: Kind, parse: TimeParser, itf: Json, d: real)
    requires itf.JObj? && !Get(itf.fields, "discount").JStr?
    ensures AcceptableUnfolded(k, parse, itf) <==> AcceptableUnfolded(k, parse, JObj(itf.fields["discount" := JNum(d)]))
  {
    var itf' := JObj(itf.fields["discount" := JNum(d)]);
    var fmap, fmap' := itf.fields, itf'.fields;
    assert HeaderAcceptable(parse, itf) <==> HeaderAcceptable(parse, itf') by {
      assert Get(fmap', "labels") == Get(fmap, "labels");
      assert Get(fmap', "properties") == Get(fmap, "properties");
      assert Get(fmap', "assetPricingModels") == Get(fmap, "assetPricingModels");
      assert Get(fmap', "start") == Get(fmap, "start");
      assert Get(fmap', "end") == Get(fmap, "end");
    }
  }

  /** Replacing a non-string `discount` by a number keeps a decode successful, or failing. */
  lemma DiscountKeepsSuccess(k: Kind, parse: TimeParser, prior: Asset, itf: Json, d: real)
    requires KindOf(prior) == k && itf.JObj? && !Get(itf.fields, "discount").JStr?
    ensures DecodeAs(k, parse, prior, itf).Success? <==> DecodeAs(k, parse, prior, JObj(itf.fields["discount" := JNum(d)])).Success?
  {
    DecodeSucceedsIff(k, parse, prior, itf);
    DecodeSucceedsIff(k, parse, prior, JObj(itf.fields["discount" := JNum(d)]));
    DiscountKeepsAcceptability(k, parse, itf, d);
  }

  /** When both decodes succeed, the new discount is the number put in and the cost is unchanged. */
  lemma DiscountChangesOnlyDiscount(k: Kind, parse: TimeParser, prior: Asset, itf: Json, d: real)
    requires KindOf(prior) == k && itf.JObj? && DecodeAs(k, parse, prior, itf).Success?
    requires DecodeAs(k, parse, prior, JObj(itf.fields["discount" := JNum(d)])).Success?
    ensures var itf' := JObj(itf.fields["discount" := JNum(d)]);
            && DecodeAs(k, parse, prior, itf').value.base.discount == d
            && DecodeAs(k, parse, prior, itf').value.base.cost == DecodeAs(k, parse, prior, itf).value.base.cost
  {
    var itf' := JObj(itf.fields["discount" := JNum(d)]);
    ChargesDecoded(k, parse, prior, itf);
    ChargesDecoded(k, parse, prior, itf');
    CostDerivation(k, parse, prior, itf);
    CostDerivation(k, parse, prior, itf');
    assert Get(itf'.fields, "discount") == JNum(d);
    assert Get(itf'.fields, "adjustment") == Get(itf.fields, "adjustment");
    assert Get(itf'.fields, "credit") == Get(itf.fields, "credit");
    assert Get(itf'.fields, "totalCost") == Get(itf.fields, "totalCost");
  }

  /**
    `discount` is decoded but never enters the cost: replacing it by any number
    changes neither whether the decode succeeds nor the base cost.
   */
  lemma CostIgnoresDiscount(k: Kind, parse: TimeParser, prior: Asset, itf: Json, d: real)
    requires KindOf(prior) == k && itf.JObj? && !Get(itf.fields, "discount").JStr?
    ensures var itf' := JObj(itf.fields["discount" := JNum(d)]);
            && (DecodeAs(k, parse, prior, itf).Success? <==> DecodeAs(k, parse, prior, itf').Success?)
            && (DecodeAs(k, parse, prior, itf).Success? ==>
                  && DecodeAs(k, parse, prior, itf').value.base.discount == d
                  && DecodeAs(k, parse, prior, itf').value.base.cost == DecodeAs(k, parse, prior, itf).value.base.cost)
  {
    DiscountKeepsSuccess(k, parse, prior, itf, d);
    if DecodeAs(k, parse, prior, itf).Success? {
      DiscountChangesOnlyDiscount(k, parse, prior, itf, d);
    }
  }

  // ---------------------------------------------------------------------------
  // Nothing outside the read keys matters

  /** The two objects hold the same value (nil for absent) under every key of `keys`. */
  ghost predicate AgreeOn(m1: map<string, Json>, m2: map<string, Json>, keys: seq<string>) {
    forall key :: key in keys ==> Get(m1, key) == Get(m2, key)
  }

  /** Agreeing on a kind's read keys is agreeing on each of its four key tables. */
  lemma AgreeOnParts(k: Kind, m1: map<string, Json>, m2: map<string, Json>)
    requires AgreeOn(m1, m2, ReadKeys(k))
    ensures AgreeOn(m1, m2, HeaderKeys) && AgreeOn(m1, m2, BreakdownFields(k))
    ensures AgreeOn(m1, m2, StringKeys(k)) && AgreeOn(m1, m2, NumberKeys(k))
  {
    var h, b, s, n := HeaderKeys, BreakdownFields(k), StringKeys(k), NumberKeys(k);
    assert ReadKeys(k) == h + b + s + n;
    forall key | key in h || key in b || key in s || key in n ensures key in ReadKeys(k) {
      assert key in h + b + s + n;
    }
  }

  /** The header is read from the five header keys only. */
  lemma HeaderReadsOnlyHeaderKeys(parse: TimeParser, m1: map<string, Json>, m2: map<string, Json>)
    requires AgreeOn(m1, m2, HeaderKeys)
    ensures DecodeHeader(parse, JObj(m1)) == DecodeHeader(parse, JObj(m2))
  {
    assert Get(m1, "properties") == Get(m2, "properties");
    assert Get(m1, "assetPricingModels") == Get(m2, "assetPricingModels");
    assert Get(m1, "labels") == Get(m2, "labels");
    assert Get(m1, "start") == Get(m2, "start");
    assert Get(m1, "end") == Get(m2, "end");
  }

  /** The charges are read from adjustment, credit, discount and, when the cost is derived, totalCost only. */
  lemma ChargesReadOnlyChargeKeys(m1: map<string, Json>, m2: map<string, Json>, b: Base, deriveCost: bool)
    requires Get(m1, "adjustment") == Get(m2, "adjustment") && Get(m1, "credit") == Get(m2, "credit")
    requires Get(m1, "discount") == Get(m2, "discount")
    requires deriveCost ==> Get(m1, "totalCost") == Get(m2, "totalCost")
    ensures DecodeCharges(m1, b, deriveCost) == DecodeCharges(m2, b, deriveCost)
  {
  }

  /**
    A decode of kind `k` looks at the entry's read keys only: two objects that
    agree on `ReadKeys(k)` decode to the same result, or fail with the same error.
   */
  lemma DecodeReadsOnlyReadKeys(k: Kind, parse: TimeParser, prior: Asset, m1: map<string, Json>, m2: map<string, Json>)
    requires KindOf(prior) == k && AgreeOn(m1, m2, ReadKeys(k))
    ensures DecodeAs(k, parse, prior, JObj(m1)) == DecodeAs(k, parse, prior, JObj(m2))
  {
    AgreeOnParts(k, m1, m2);
    HeaderReadsOnlyHeaderKeys(parse, m1, m2);
    ChargeKeysAgree(k, m1, m2);
    match k
    case CloudKind =>
      assert Get(m1, StringKeys(k)[0]) == Get(m2, StringKeys(k)[0]);
      assert Get(m1, StringKeys(k)[1]) == Get(m2, StringKeys(k)[1]);
      CloudReadsOnlyReadKeys(parse, prior, m1, m2);
    case DiskKind =>
      assert Get(m1, BreakdownFields(k)[0]) == Get(m2, BreakdownFields(k)[0]);
      assert Get(m1, StringKeys(k)[0]) == Get(m2, StringKeys(k)[0]);
      assert Get(m1, NumberKeys(k)[4]) == Get(m2, NumberKeys(k)[4]);
      DiskReadsOnlyReadKeys(parse, prior, m1, m2);
    case NodeKind =>
      assert Get(m1, BreakdownFields(k)[0]) == Get(m2, BreakdownFields(k)[0]);
      assert Get(m1, BreakdownFields(k)[1]) == Get(m2, BreakdownFields(k)[1]);
      assert Get(m1, StringKeys(k)[0]) == Get(m2, StringKeys(k)[0]);
      NodeNumbersAgree(m1, m2);
      NodeReadsOnlyReadKeys(parse, prior, m1, m2);
    case _ => PlainReadsOnlyReadKeys(k, parse, prior, m1, m2);
  }

  /** Agreeing on a kind's number table gives agreement on its charge keys. */
  lemma ChargeKeysAgree(k: Kind, m1: map<string, Json>, m2: map<string, Json>)
    requires AgreeOn(m1, m2, NumberKeys(k))
    ensures Get(m1, "adjustment") == Get(m2, "adjustment") && Get(m1, "credit") == Get(m2, "credit")
    ensures Get(m1, "discount") == Get(m2, "discount")
    ensures k != NodeKind ==> Get(m1, "totalCost") == Get(m2, "totalCost")
  {
    var n := NumberKeys(k);
    assert n[0] == "adjustment" && n[1] == "credit" && n[2] == "discount";
    assert k != NodeKind ==> n[3] == "totalCost";
  }

  /** DecodeReadsOnlyReadKeys for Any and the four plain kinds. */
  lemma PlainReadsOnlyReadKeys(k: Kind, parse: TimeParser, prior: Asset, m1: map<string, Json>, m2: map<string, Json>)
    requires KindOf(prior) == k && PlainKind(k)
    requires Get(m1, "adjustment") == Get(m2, "adjustment") && Get(m1, "credit") == Get(m2, "credit")
    requires Get(m1, "discount") == Get(m2, "discount") && Get(m1, "totalCost") == Get(m2, "totalCost")
    requires DecodeHeader(parse, JObj(m1)) == DecodeHeader(parse, JObj(m2))
    ensures DecodeAs(k, parse, prior, JObj(m1)) == DecodeAs(k, parse, prior, JObj(m2))
  {
    if DecodeHeader(parse, JObj(m1)).Success? {
      var h := DecodeHeader(parse, JObj(m1)).value;
      ChargesReadOnlyChargeKeys(m1, m2, AssignHeader(prior.base, h, true), true);
      ChargesReadOnlyChargeKeys(m1, m2, AssignHeader(prior.base, h, false), true);
    }
    match k
    case AnyKind =>
    case ClusterManagementKind =>
    case NetworkKind =>
    case LoadBalancerKind =>
    case SharedKind =>
  }

  /** DecodeReadsOnlyReadKeys for Cloud. */
  lemma CloudReadsOnlyReadKeys(parse: TimeParser, prior: Asset, m1: map<string, Json>, m2: map<string, Json>)
    requires prior.Cloud?
    requires Get(m1, "usageType") == Get(m2, "usageType") && Get(m1, "usageDetail") == Get(m2, "usageDetail")
    requires Get(m1, "adjustment") == Get(m2, "adjustment") && Get(m1, "credit") == Get(m2, "credit")
    requires Get(m1, "discount") == Get(m2, "discount") && Get(m1, "totalCost") == Get(m2, "totalCost")
    requires DecodeHeader(parse, JObj(m1)) == DecodeHeader(parse, JObj(m2))
    ensures InterfaceToCloud(parse, prior, JObj(m1)) == InterfaceToCloud(parse, prior, JObj(m2))
  {
    if DecodeHeader(parse, JObj(m1)).Success? {
      ChargesReadOnlyChargeKeys(m1, m2, AssignHeader(prior.base, DecodeHeader(parse, JObj(m1)).value, true), true);
    }
  }

  /** DecodeReadsOnlyReadKeys for Disk. */
  lemma DiskReadsOnlyReadKeys(parse: TimeParser, prior: Asset, m1: map<string, Json>, m2: map<string, Json>)
    requires prior.Disk?
    requires Get(m1, "breakdown") == Get(m2, "breakdown") && Get(m1, "storageClass") == Get(m2, "storageClass")
    requires Get(m1, "byteHours") == Get(m2, "byteHours")
    requires Get(m1, "adjustment") == Get(m2, "adjustment") && Get(m1, "credit") == Get(m2, "credit")
    requires Get(m1, "discount") == Get(m2, "discount") && Get(m1, "totalCost") == Get(m2, "totalCost")
    requires DecodeHeader(parse, JObj(m1)) == DecodeHeader(parse, JObj(m2))
    ensures InterfaceToDisk(parse, prior, JObj(m1)) == InterfaceToDisk(parse, prior, JObj(m2))
  {
    if DecodeHeader(parse, JObj(m1)).Success? {
      ChargesReadOnlyChargeKeys(m1, m2, AssignHeader(prior.base, DecodeHeader(parse, JObj(m1)).value, true), true);
    }
  }

  /** DecodeReadsOnlyReadKeys for Node. */
  lemma NodeReadsOnlyReadKeys(parse: TimeParser, prior: Asset, m1: map<string, Json>, m2: map<string, Json>)
    requires prior.Node?
    requires Get(m1, "cpuBreakdown") == Get(m2, "cpuBreakdown") && Get(m1, "ramBreakdown") == Get(m2, "ramBreakdown")
    requires Get(m1, "nodeType") == Get(m2, "nodeType")
    requires Get(m1, "adjustment") == Get(m2, "adjustment") && Get(m1, "credit") == Get(m2, "credit")
    requires Get(m1, "discount") == Get(m2, "discount")
    requires Get(m1, "cpuCoreHours") == Get(m2, "cpuCoreHours") && Get(m1, "ramByteHours") == Get(m2, "ramByteHours")
    requires Get(m1, "GPUHours") == Get(m2, "GPUHours") && Get(m1, "cpuCost") == Get(m2, "cpuCost")
    requires Get(m1, "gpuCost") == Get(m2, "gpuCost") && Get(m1, "gpuCount") == Get(m2, "gpuCount")
    requires Get(m1, "ramCost") == Get(m2, "ramCost")
    requires DecodeHeader(parse, JObj(m1)) == DecodeHeader(parse, JObj(m2))
    ensures InterfaceToNode(parse, prior, JObj(m1)) == InterfaceToNode(parse, prior, JObj(m2))
  {
    if DecodeHeader(parse, JObj(m1)).Success? {
      ChargesReadOnlyChargeKeys(m1, m2, AssignHeader(prior.base, DecodeHeader(parse, JObj(m1)).value, true), false);
    }
  }

  /** Agreeing on Node's number table, key by key. */
  lemma NodeNumbersAgree(m1: map<string, Json>, m2: map<string, Json>)
    requires AgreeOn(m1, m2, NumberKeys(NodeKind))
    ensures Get(m1, "cpuCoreHours") == Get(m2, "cpuCoreHours") && Get(m1, "ramByteHours") == Get(m2, "ramByteHours")
    ensures Get(m1, "GPUHours") == Get(m2, "GPUHours") && Get(m1, "cpuCost") == Get(m2, "cpuCost")
    ensures Get(m1, "gpuCost") == Get(m2, "gpuCost") && Get(m1, "gpuCount") == Get(m2, "gpuCount")
    ensures Get(m1, "ramCost") == Get(m2, "ramCost")
  {
    var n := NumberKeys(NodeKind);
    assert n[3] == "cpuCoreHours" && n[4] == "ramByteHours" && n[5] == "GPUHours" && n[6] == "cpuCost";
    assert n[7] == "gpuCost" && n[8] == "gpuCount" && n[9] == "ramCost";
  }
}
