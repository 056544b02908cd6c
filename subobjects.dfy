/**
  The leaf decoders: the sub-object converters for properties, pricing models
  and usage breakdowns, the typed-value check used for every optional scalar,
  the labels copy, and the required-field accessors.
 */
module SubObjects {
  import opened Wrappers
  import opened JsonValues
  import opened AssetModel

  // ---------------------------------------------------------------------------
  // Comma-ok type assertions: copy when the type matches, else the zero value.

  /** A comma-ok string assertion: the string when `x` holds one, "" otherwise. */
  function StringOrZero(x: Json): string {
    if x.JStr? then x.s else ""
  }

  /** A comma-ok number assertion: the number when `x` holds one, 0 otherwise. */
  function NumberOrZero(x: Json): real {
    if x.JNum? then x.n else 0.0
  }

  /** The value an optional number field ends with: the number when one is present, else `current`. */
  function NumberOr(x: Json, current: real): real {
    if x.JNum? then x.n else current
  }

  /** The value an optional string field ends with: the string when one is present, else `current`. */
  function StringOr(x: Json, current: string): string {
    if x.JStr? then x.s else current
  }

  /** True when the two objects give the same comma-ok string under every key of `keys`. */
  ghost predicate SameStringsAt(m1: map<string, Json>, m2: map<string, Json>, keys: seq<string>) {
    forall key :: key in keys ==> StringOrZero(Get(m1, key)) == StringOrZero(Get(m2, key))
  }

  /** True when the two objects give the same comma-ok number under every key of `keys`. */
  ghost predicate SameNumbersAt(m1: map<string, Json>, m2: map<string, Json>, keys: seq<string>) {
    forall key :: key in keys ==> NumberOrZero(Get(m1, key)) == NumberOrZero(Get(m2, key))
  }

  // ---------------------------------------------------------------------------
  // Properties

  /** The keys `toAssetProp` reads, in the order of the fields of Properties. */
  const PropertyKeys: seq<string> :=
    ["category", "provider", "account", "project", "service", "cluster",
     "name", "providerID", "region", "pricingSource", "currency"]

  /** toAssetProp: each of the eleven fields is copied only when it holds a string. */
  function ToAssetProp(fproperties: map<string, Json>): Properties {
    Properties(
      StringOrZero(Get(fproperties, "category")),
      StringOrZero(Get(fproperties, "provider")),
      StringOrZero(Get(fproperties, "account")),
      StringOrZero(Get(fproperties, "project")),
      StringOrZero(Get(fproperties, "service")),
      StringOrZero(Get(fproperties, "cluster")),
      StringOrZero(Get(fproperties, "name")),
      StringOrZero(Get(fproperties, "providerID")),
      StringOrZero(Get(fproperties, "region")),
      StringOrZero(Get(fproperties, "pricingSource")),
      StringOrZero(Get(fproperties, "currency")))
  }

  /** The object that carries every field of `p` as a string under its key. */
  function PropertiesObject(p: Properties): map<string, Json> {
    map[
      "category" := JStr(p.category), "provider" := JStr(p.provider),
      "account" := JStr(p.account), "project" := JStr(p.project),
      "service" := JStr(p.service), "cluster" := JStr(p.cluster),
      "name" := JStr(p.name), "providerID" := JStr(p.providerID),
      "region" := JStr(p.region), "pricingSource" := JStr(p.pricingSource),
      "currency" := JStr(p.currency)]
  }

  /** Equal properties mean equal strings under each of the eleven keys. */
  lemma SameStringsFromSameProperties(m1: map<string, Json>, m2: map<string, Json>)
    requires ToAssetProp(m1) == ToAssetProp(m2)
    ensures SameStringsAt(m1, m2, PropertyKeys)
  {
    forall key | key in PropertyKeys ensures StringOrZero(Get(m1, key)) == StringOrZero(Get(m2, key)) {
      var i :| 0 <= i < |PropertyKeys| && PropertyKeys[i] == key;
      if i == 0 {} else if i == 1 {} else if i == 2 {} else if i == 3 {} else if i == 4 {}
      else if i == 5 {} else if i == 6 {} else if i == 7 {} else if i == 8 {} else if i == 9 {}
      else { assert i == 10; }
    }
  }

  /** Equal strings under each of the eleven keys mean equal properties. */
  lemma SamePropertiesFromSameStrings(m1: map<string, Json>, m2: map<string, Json>)
    requires SameStringsAt(m1, m2, PropertyKeys)
    ensures ToAssetProp(m1) == ToAssetProp(m2)
  {
    assert forall i :: 0 <= i < |PropertyKeys| ==> PropertyKeys[i] in PropertyKeys;
  }

  /**
    The decoded properties are determined by, and determine, the string values
    found under the eleven keys: other keys and values of other types play no part.
   */
  lemma PropertiesDeterminedByStrings(m1: map<string, Json>, m2: map<string, Json>)
    ensures ToAssetProp(m1) == ToAssetProp(m2) <==> SameStringsAt(m1, m2, PropertyKeys)
  {
    if ToAssetProp(m1) == ToAssetProp(m2) {
      SameStringsFromSameProperties(m1, m2);
    }
    if SameStringsAt(m1, m2, PropertyKeys) {
      SamePropertiesFromSameStrings(m1, m2);
    }
  }

  /** Every Properties value survives being written out as strings and read back. */
  lemma PropertiesRoundTrip(p: Properties)
    ensures ToAssetProp(PropertiesObject(p)) == p
  {
  }

  /** With no string under any of the eleven keys, every field keeps its zero value. */
  lemma PropertiesWithoutStringsAreZero(fproperties: map<string, Json>)
    requires forall key :: key in PropertyKeys ==> !Get(fproperties, key).JStr?
    ensures ToAssetProp(fproperties) == ZeroProperties
  {
    PropertiesDeterminedByStrings(fproperties, map[]);
  }

  // ---------------------------------------------------------------------------
  // Pricing models

  /** The keys `toAssetPricingModels` reads. */
  const PricingModelKeys: seq<string> := ["preemptible", "reservedInstance", "savingsPlan"]

  /**
    toAssetPricingModels on an object: each of the three fields is copied only
    when it holds a number. (Its nil-map branch cannot be reached from decoded
    JSON: a value that passes the map assertion is a non-nil map.)
   */
  function ToAssetPricingModels(fpricingModels: map<string, Json>): PricingModels {
    PricingModels(
      NumberOrZero(Get(fpricingModels, "preemptible")),
      NumberOrZero(Get(fpricingModels, "reservedInstance")),
      NumberOrZero(Get(fpricingModels, "savingsPlan")))
  }

  /** The object that carries every field of `pm` as a number under its key. */
  function PricingModelsObject(pm: PricingModels): map<string, Json> {
    map["preemptible" := JNum(pm.preemptible), "reservedInstance" := JNum(pm.reservedInstance),
        "savingsPlan" := JNum(pm.savingsPlan)]
  }

  /** The decoded pricing models are determined by, and determine, the numbers under the three keys. */
  lemma PricingModelsDeterminedByNumbers(m1: map<string, Json>, m2: map<string, Json>)
    ensures ToAssetPricingModels(m1) == ToAssetPricingModels(m2) <==> SameNumbersAt(m1, m2, PricingModelKeys)
  {
    if ToAssetPricingModels(m1) == ToAssetPricingModels(m2) {
      forall key | key in PricingModelKeys ensures NumberOrZero(Get(m1, key)) == NumberOrZero(Get(m2, key)) {
      }
    }
    if SameNumbersAt(m1, m2, PricingModelKeys) {
      assert forall i :: 0 <= i < |PricingModelKeys| ==> PricingModelKeys[i] in PricingModelKeys;
    }
  }

  /** Every PricingModels value survives being written out as numbers and read back. */
  lemma PricingModelsRoundTrip(pm: PricingModels)
    ensures ToAssetPricingModels(PricingModelsObject(pm)) == pm
  {
  }

  /**
    The `assetPricingModels` entry (lines 65-68 of every decoder): nil (absent or
    null) gives no pricing models, an object gives a record, anything else fails
    the map assertion.
   */
  function PricingModelsOf(fpricingModels: Json): (r: Result<Option<PricingModels>, Err>)
    ensures r.Success? <==> fpricingModels.JNull? || fpricingModels.JObj?
    ensures r == Success(None) <==> fpricingModels.JNull?
    ensures fpricingModels.JObj? ==> r == Success(Some(ToAssetPricingModels(fpricingModels.fields)))
  {
    match fpricingModels
    case JNull => Success(None)
    case JObj(fields) => Success(Some(ToAssetPricingModels(fields)))
    case _ => Failure(NotAnObject("assetPricingModels"))
  }

  // ---------------------------------------------------------------------------
  // Usage breakdown

  /** The keys `toBreakdown` reads. */
  const BreakdownKeys: seq<string> := ["idle", "other", "system", "user"]

  /** toBreakdown: each of the four fields is copied only when it holds a number. */
  function ToBreakdown(fbreakdown: map<string, Json>): Breakdown {
    Breakdown(
      NumberOrZero(Get(fbreakdown, "idle")),
      NumberOrZero(Get(fbreakdown, "other")),
      NumberOrZero(Get(fbreakdown, "system")),
      NumberOrZero(Get(fbreakdown, "user")))
  }

  /** The object that carries every field of `bd` as a number under its key. */
  function BreakdownObject(bd: Breakdown): map<string, Json> {
    map["idle" := JNum(bd.idle), "other" := JNum(bd.other), "system" := JNum(bd.system), "user" := JNum(bd.user)]
  }

  /** The decoded breakdown is determined by, and determines, the numbers under the four keys. */
  lemma BreakdownDeterminedByNumbers(m1: map<string, Json>, m2: map<string, Json>)
    ensures ToBreakdown(m1) == ToBreakdown(m2) <==> SameNumbersAt(m1, m2, BreakdownKeys)
  {
    if ToBreakdown(m1) == ToBreakdown(m2) {
      forall key | key in BreakdownKeys ensures NumberOrZero(Get(m1, key)) == NumberOrZero(Get(m2, key)) {
      }
    }
    if SameNumbersAt(m1, m2, BreakdownKeys) {
      assert forall i :: 0 <= i < |BreakdownKeys| ==> BreakdownKeys[i] in BreakdownKeys;
    }
  }

  /** Every Breakdown value survives being written out as numbers and read back. */
  lemma BreakdownRoundTrip(bd: Breakdown)
    ensures ToBreakdown(BreakdownObject(bd)) == bd
  {
  }

  /** A required breakdown: the value under `key` must be an object, which toBreakdown then reads. */
  function RequiredBreakdown(fmap: map<string, Json>, key: string): (r: Result<Breakdown, Err>)
    ensures r.Success? <==> Get(fmap, key).JObj?
    ensures r.Success? ==> r.value == ToBreakdown(Get(fmap, key).fields)
  {
    match Get(fmap, key)
    case JObj(fields) => Success(ToBreakdown(fields))
    case _ => Failure(NotAnObject(key))
  }

  // ---------------------------------------------------------------------------
  // Optional top-level scalars

  /** What getTypedVal lets through. */
  datatype Typed = TypedNumber(n: real) | TypedString(s: string)

  /** getTypedVal: accepts exactly a number or a string; nil and every other type are errors. */
  function GetTypedVal(itf: Json): (r: Result<Typed, Err>)
    ensures r.Success? <==> itf.JNum? || itf.JStr?
    ensures r.Success? && r.value.TypedNumber? ==> itf == JNum(r.value.n)
    ensures r.Success? && r.value.TypedString? ==> itf == JStr(r.value.s)
  {
    match itf
    case JNum(n) => Success(TypedNumber(n))
    case JStr(s) => Success(TypedString(s))
    case _ => Failure(InvalidType)
  }

  /**
    An optional number field, read through getTypedVal and then asserted to be
    a number: a number replaces `current`, a missing or null value or one of
    another type keeps it, and a string passes getTypedVal but fails the
    number assertion.
   */
  function TypedFloat(fmap: map<string, Json>, key: string, current: real): (r: Result<real, Err>)
    ensures r.Failure? <==> Get(fmap, key).JStr?
    ensures r.Success? ==> r.value == NumberOr(Get(fmap, key), current)
  {
    match GetTypedVal(Get(fmap, key))
    case Failure(_) => Success(current)
    case Success(TypedNumber(n)) => Success(n)
    case Success(TypedString(_)) => Failure(WrongScalarType(key))
  }

  /** The same pattern asserting a string: here a number is the value that fails. */
  function TypedStringField(fmap: map<string, Json>, key: string, current: string): (r: Result<string, Err>)
    ensures r.Failure? <==> Get(fmap, key).JNum?
    ensures r.Success? ==> r.value == StringOr(Get(fmap, key), current)
  {
    match GetTypedVal(Get(fmap, key))
    case Failure(_) => Success(current)
    case Success(TypedString(s)) => Success(s)
    case Success(TypedNumber(_)) => Failure(WrongScalarType(key))
  }

  // ---------------------------------------------------------------------------
  // Required fields: properties, labels, start and end

  /** A required object: the value under `key` must be a JSON object, or the decode fails. */
  function RequiredObject(fmap: map<string, Json>, key: string): (r: Result<map<string, Json>, Err>)
    ensures r.Success? <==> Get(fmap, key).JObj?
    ensures r.Success? ==> r.value == Get(fmap, key).fields
  {
    match Get(fmap, key)
    case JObj(fields) => Success(fields)
    case _ => Failure(NotAnObject(key))
  }

  /** A required timestamp: the value under `key` must be a string that the time parser accepts. */
  function ParseTimeField(parse: TimeParser, fmap: map<string, Json>, key: string): (r: Result<Time, Err>)
    ensures r.Success? <==> Get(fmap, key).JStr? && parse(Get(fmap, key).s).Some?
    ensures r.Success? ==> r.value == parse(Get(fmap, key).s).value
  {
    match Get(fmap, key)
    case JStr(s) => (match parse(s) case Some(t) => Success(t) case None => Failure(BadTimestamp(key)))
    case _ => Failure(NotAString(key))
  }

  /** True when `flabels` is an object whose every value is a string. */
  ghost predicate StringObject(flabels: Json) {
    flabels.JObj? && forall k :: k in flabels.fields ==> flabels.fields[k].JStr?
  }

  /**
    The labels copy: an object of strings gives the same map with the strings
    unwrapped; a non-object or any non-string value fails its type assertion.
   */
  function LabelsOf(flabels: Json): (r: Result<map<string, string>, Err>)
    ensures r.Success? <==> StringObject(flabels)
    ensures r.Success? ==> r.value.Keys == flabels.fields.Keys
    ensures r.Success? ==> forall k :: k in r.value ==> flabels.fields[k] == JStr(r.value[k])
  {
    if !flabels.JObj? then Failure(NotAnObject("labels"))
    else if exists k :: k in flabels.fields && !flabels.fields[k].JStr? then Failure(NotAString("labels"))
    else Success(map k | k in flabels.fields :: flabels.fields[k].s)
  }

  /** The loop over the `labels` object, building the labels map one entry at a time. */
  method CopyLabels(flabels: Json) returns (r: Result<map<string, string>, Err>)
    ensures r.Success? <==> StringObject(flabels)
    ensures r.Success? ==> r.value.Keys == flabels.fields.Keys
    ensures r.Success? ==> forall k :: k in r.value ==> flabels.fields[k] == JStr(r.value[k])
    ensures r == LabelsOf(flabels)
  {
    if !flabels.JObj? {
      return Failure(NotAnObject("labels"));
    }
    var fields := flabels.fields;
    var labels: map<string, string> := map[];
    var todo := fields.Keys;
    while todo != {}
      invariant todo <= fields.Keys
      invariant labels.Keys == fields.Keys - todo
      invariant forall k :: k in labels ==> fields[k] == JStr(labels[k])
      decreases todo
    {
      var k :| k in todo;
      if !fields[k].JStr? {
        return Failure(NotAString("labels"));
      }
      labels := labels[k := fields[k].s];
      todo := todo - {k};
    }
    assert labels == map k | k in fields :: fields[k].s;
    return Success(labels);
  }
}
