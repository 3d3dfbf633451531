/** The `saveMapping` mutation of convex/analysis.ts: it checks a
    Gabor-Granger variable mapping, and assembles the results record that the
    mutation stores (placeholder curves, built from the configured price points
    and a fixed catalogue of segment levels, not from the survey rows).

    Number-to-string conversion (`Number.prototype.toString`, used both for the
    intent lookup and for the error message) is the parameter `str`. */
module Analysis {
  import opened Wrappers
  import opened JsStrings
  import opened JsArrays
  import JsRecords

  /** The two analysis types the project form offers. The stored type is a
      free string: the mapping is checked only for `GaborGranger`, and every
      type other than `VanWestendorp` gets the Gabor-Granger results. */
  const VanWestendorp: string := "van_westendorp"
  const GaborGranger: string := "gabor_granger"

  /** The `mapping` argument of `saveMapping`; `None` is an absent field. */
  datatype Mapping = Mapping(
    respondentId: string,
    tooCheap: Option<string>,
    cheap: Option<string>,
    expensive: Option<string>,
    tooExpensive: Option<string>,
    purchase: Option<string>,
    pricePoints: Option<seq<real>>,
    purchaseIntents: Option<JsRecords.Record>)

  /** One curve point: a price and one value per series (four for Van
      Westendorp, intent and revenue for Gabor-Granger). */
  datatype DataPoint = DataPoint(price: real, values: seq<real>)

  datatype Metrics = Metrics(pmcPoint: real, ipdPoint: real, opp: real, idp: real)

  datatype LevelResult = LevelResult(
    name: string, data: seq<DataPoint>, optimal: real, range: seq<real>, metrics: Option<Metrics>)

  datatype SegmentResult = SegmentResult(segmentVariable: string, levels: seq<LevelResult>)

  datatype OverallResult = OverallResult(
    optimal: real, range: seq<real>, data: seq<DataPoint>, metrics: Option<Metrics>)

  /** The stored results record (without owner, project and timestamp). */
  datatype AnalysisResult = AnalysisResult(
    analysisType: string, overallResults: OverallResult, segmentResults: seq<SegmentResult>)

  /** The errors `saveMapping` throws for a mapping it refuses.
      `IncompleteRecord` is a results record without its optimal price, which
      the storage schema does not admit. */
  datatype SaveError =
    | PricePointsRequired
    | PurchaseIntentsRequired
    | MissingMappings(prices: seq<real>)
    | IncompleteRecord

  /** The text that starts the message listing the missing prices. */
  const MissingPrefix: string := "Missing purchase intent mappings for price points: "

  /** The message of each error. The missing-mappings message is
      `MissingPrefix` followed by the prices, in order, separated by ", ";
      a single missing price follows the prefix on its own. (`IncompleteRecord`
      is the storage schema's refusal, whose text is not part of the source;
      the text here is a stand-in.) */
  function ErrorMessage(e: SaveError, str: real -> string): (msg: string)
    ensures e.MissingMappings? ==> |MissingPrefix| <= |msg| && msg[..|MissingPrefix|] == MissingPrefix
    ensures e.MissingMappings? && |e.prices| == 1 ==> msg == MissingPrefix + str(e.prices[0])
    ensures msg != ""
  {
    match e
    case PricePointsRequired => "Price points are required for Gabor-Granger analysis"
    case PurchaseIntentsRequired => "Purchase intent mappings are required for Gabor-Granger analysis"
    case MissingMappings(prices) =>
      MissingPrefix + Join(seq(|prices|, i requires 0 <= i < |prices| => str(prices[i])), ", ")
    case IncompleteRecord => "Results record has no optimal price"
  }

  /** The fixed catalogue of example levels per segment variable; any other
      variable has no levels. */
  function SegmentLevels(segment: string): (levels: seq<string>)
    ensures segment !in {"Gender", "Region", "AgeGroup"} ==> levels == []
  {
    if segment == "Gender" then ["Male", "Female"]
    else if segment == "Region" then ["Asia", "Europe", "North America", "Other"]
    else if segment == "AgeGroup" then ["18-24", "25-34", "35-44", "45+"]
    else []
  }

  // ---------------------------------------------------------------------------
  // Validation

  /** `purchaseIntents?.[key]` is truthy: present, and not the empty string. */
  predicate IntentMapped(intents: Option<JsRecords.Record>, key: string)
  {
    intents.Some? && JsRecords.Get(intents.value, key).Some? && JsRecords.Get(intents.value, key).value != ""
  }

  /** The price points whose `toString()` key has no non-empty intent
      mapping, in input order (the `filter` of the source). */
  function UnmappedPrices(prices: seq<real>, intents: Option<JsRecords.Record>, str: real -> string): (r: seq<real>)
    ensures |r| <= |prices|
    ensures forall x :: x in r <==> x in prices && !IntentMapped(intents, str(x))
    ensures forall x :: !IntentMapped(intents, str(x)) ==> multiset(r)[x] == multiset(prices)[x]
  {
    Filter(prices, price => !IntentMapped(intents, str(price)))
  }

  /** The missing prices keep their input order: those of a concatenation are
      those of the first part followed by those of the second. */
  lemma UnmappedPricesInOrder(a: seq<real>, b: seq<real>, intents: Option<JsRecords.Record>, str: real -> string)
    ensures UnmappedPrices(a + b, intents, str) == UnmappedPrices(a, intents, str) + UnmappedPrices(b, intents, str)
  {
    FilterAppend(a, b, price => !IntentMapped(intents, str(price)));
  }

  /** The Gabor-Granger checks of `saveMapping`, in their order. */
  function Validate(analysisType: string, m: Mapping, str: real -> string): (o: Outcome<SaveError>)
    ensures analysisType != GaborGranger ==> o == Pass
    ensures analysisType == GaborGranger && (m.pricePoints.None? || m.pricePoints.value == []) ==>
              o == Fail(PricePointsRequired)
    ensures analysisType == GaborGranger && m.pricePoints.Some? && m.pricePoints.value != []
            && (m.purchaseIntents.None? || JsRecords.Keys(m.purchaseIntents.value) == []) ==>
              o == Fail(PurchaseIntentsRequired)
    ensures o == Pass <==>
              analysisType != GaborGranger
              || (&& m.pricePoints.Some? && m.pricePoints.value != []
                  && m.purchaseIntents.Some? && m.purchaseIntents.value != []
                  && forall i :: 0 <= i < |m.pricePoints.value| ==>
                       IntentMapped(m.purchaseIntents, str(m.pricePoints.value[i])))
    ensures analysisType == GaborGranger && m.pricePoints.Some? && m.pricePoints.value != []
            && m.purchaseIntents.Some? && m.purchaseIntents.value != [] && o != Pass ==>
              && o == Fail(MissingMappings(UnmappedPrices(m.pricePoints.value, m.purchaseIntents, str)))
              && o.error.prices != []
  {
    if analysisType == GaborGranger then
      if m.pricePoints.None? || |m.pricePoints.value| == 0 then Fail(PricePointsRequired)
      else if m.purchaseIntents.None? || |JsRecords.Keys(m.purchaseIntents.value)| == 0 then Fail(PurchaseIntentsRequired)
      else
        var missing := UnmappedPrices(m.pricePoints.value, m.purchaseIntents, str);
        if |missing| > 0 then
          assert missing[0] in m.pricePoints.value && !IntentMapped(m.purchaseIntents, str(missing[0]));
          Fail(MissingMappings(missing))
        else
          assert forall i :: 0 <= i < |m.pricePoints.value| ==>
                   m.pricePoints.value[i] in m.pricePoints.value;
          Pass
    else Pass
  }

  // ---------------------------------------------------------------------------
  // Van Westendorp placeholder results

  /** The five-point Van Westendorp curve, every value shifted by `offset`. */
  function VanWestendorpData(offset: real): (data: seq<DataPoint>)
    ensures |data| == 5
    ensures forall k :: 0 <= k < 5 ==> data[k].price == 10.0 * (k + 1) as real && |data[k].values| == 4
  {
    [ DataPoint(10.0, [0.8 + offset, 0.9 + offset, 0.2 + offset, 0.1 + offset]),
      DataPoint(20.0, [0.6 + offset, 0.7 + offset, 0.3 + offset, 0.2 + offset]),
      DataPoint(30.0, [0.4 + offset, 0.5 + offset, 0.5 + offset, 0.4 + offset]),
      DataPoint(40.0, [0.2 + offset, 0.3 + offset, 0.7 + offset, 0.6 + offset]),
      DataPoint(50.0, [0.1 + offset, 0.2 + offset, 0.9 + offset, 0.8 + offset]) ]
  }

  /** The offset of level `i`'s curve values. */
  function LevelOffset(i: nat): real
  {
    (i as real - 1.0) * 0.1
  }

  /** The offset of level `i`'s prices. */
  function LevelShift(i: nat): real
  {
    (i * 2) as real
  }

  /** Level `i` of a Van Westendorp segment: the overall prices moved by
      `LevelShift(i)`, with metrics tied to its range and optimum. */
  function VanWestendorpLevel(name: string, i: nat): (level: LevelResult)
    ensures level.name == name
    ensures TiedMetrics(level.optimal, level.range, level.metrics)
    ensures level.optimal == 27.99 + (2 * i) as real
    ensures level.range == [17.99 + (2 * i) as real, 37.99 + (2 * i) as real]
  {
    var shift := LevelShift(i);
    LevelResult(
      name, VanWestendorpData(LevelOffset(i)), 27.99 + shift, [17.99 + shift, 37.99 + shift],
      Some(Metrics(17.99 + shift, 37.99 + shift, 27.99 + shift, 32.99 + shift)))
  }

  /** The overall Van Westendorp result: the unshifted curve, with metrics
      tied to its range and optimum. */
  function VanWestendorpOverall(): (o: OverallResult)
    ensures TiedMetrics(o.optimal, o.range, o.metrics)
    ensures |o.data| == 5
    ensures forall k :: 0 <= k < 5 ==> o.data[k].price == 10.0 * (k + 1) as real && |o.data[k].values| == 4
  {
    OverallResult(29.99, [19.99, 39.99], VanWestendorpData(0.0), Some(Metrics(19.99, 39.99, 29.99, 34.99)))
  }

  // ---------------------------------------------------------------------------
  // Gabor-Granger placeholder results

  /** One point per price point, in order: intent `0.9 - 0.1 * index + offset`
      and revenue `price * intent`. */
  function GaborGrangerData(prices: seq<real>, offset: real): (data: seq<DataPoint>)
    ensures |data| == |prices|
    ensures forall k :: 0 <= k < |data| ==>
              && data[k].price == prices[k]
              && |data[k].values| == 2
              && data[k].values[1] == data[k].price * data[k].values[0]
    ensures forall k :: 0 <= k < |data| ==> data[k].values[0] == 0.9 - 0.1 * k as real + offset
  {
    seq(|prices|, index requires 0 <= index < |prices| =>
      var purchaseIntent := 0.9 - index as real * 0.1 + offset;
      DataPoint(prices[index], [purchaseIntent, prices[index] * purchaseIntent]))
  }

  predicate HasRevenue(data: seq<DataPoint>)
  {
    forall j :: 0 <= j < |data| ==> |data[j].values| > 1
  }

  /** `k` is the first index of maximal revenue. */
  predicate IsFirstMaxRevenue(data: seq<DataPoint>, k: nat)
    requires HasRevenue(data)
  {
    && k < |data|
    && (forall j :: 0 <= j < |data| ==> data[j].values[1] <= data[k].values[1])
    && (forall j :: 0 <= j < k ==> data[j].values[1] < data[k].values[1])
  }

  /** The `reduce` from index `i` on, holding the best index so far: a later
      point replaces it only when its revenue is strictly greater. */
  function ReduceArgmax(data: seq<DataPoint>, i: nat, maxIndex: nat): (r: nat)
    requires HasRevenue(data)
    requires maxIndex < |data| && i <= |data| && maxIndex <= i
    requires forall j :: 0 <= j < i ==> data[j].values[1] <= data[maxIndex].values[1]
    requires forall j :: 0 <= j < maxIndex ==> data[j].values[1] < data[maxIndex].values[1]
    ensures IsFirstMaxRevenue(data, r)
    decreases |data| - i
  {
    if i == |data| then maxIndex
    else ReduceArgmax(data, i + 1, if data[i].values[1] > data[maxIndex].values[1] then i else maxIndex)
  }

  /** The index of the revenue-optimal point: the fold started at 0. */
  function OptimalIndex(data: seq<DataPoint>): (k: nat)
    requires HasRevenue(data) && |data| > 0
    ensures IsFirstMaxRevenue(data, k)
  {
    ReduceArgmax(data, 0, 0)
  }

  /** Level `i` of a Gabor-Granger segment: the price curve with intents
      moved by `LevelOffset(i)`, the middle price and the two end prices moved
      by `LevelShift(i)`, and no metrics. */
  function GaborGrangerLevel(name: string, i: nat, prices: seq<real>): (level: LevelResult)
    requires |prices| > 0
    ensures level.name == name
    ensures PointsFollowPrices(level.data, prices)
    ensures level.optimal == prices[|prices| / 2] + (2 * i) as real
    ensures level.range == [prices[0] + (2 * i) as real, prices[|prices| - 1] + (2 * i) as real]
    ensures level.metrics.None?
  {
    var shift := LevelShift(i);
    LevelResult(
      name, GaborGrangerData(prices, LevelOffset(i)), prices[|prices| / 2] + shift,
      [prices[0] + shift, prices[|prices| - 1] + shift], None)
  }

  function GaborGrangerOverall(prices: seq<real>): (o: OverallResult)
    requires |prices| > 0
    ensures |o.data| == |prices| && HasRevenue(o.data)
    ensures o.range == [prices[0], prices[|prices| - 1]]
    ensures exists k: nat :: IsFirstMaxRevenue(o.data, k) && o.optimal == prices[k]
    ensures o.metrics.None?
  {
    var data := GaborGrangerData(prices, 0.0);
    var k := OptimalIndex(data);
    OverallResult(prices[k], [prices[0], prices[|prices| - 1]], data, None)
  }

  // ---------------------------------------------------------------------------
  // Segment results and the whole mutation

  /** The levels of one segment variable, level `i` built from its index. */
  function LevelResults(isVanWestendorp: bool, names: seq<string>, prices: seq<real>): (levels: seq<LevelResult>)
    requires !isVanWestendorp ==> |prices| > 0
    ensures |levels| == |names|
    ensures forall i :: 0 <= i < |names| ==> levels[i].name == names[i]
  {
    seq(|names|, i requires 0 <= i < |names| =>
      if isVanWestendorp then VanWestendorpLevel(names[i], i) else GaborGrangerLevel(names[i], i, prices))
  }

  /** One entry per requested segment variable, in request order. */
  function SegmentResults(isVanWestendorp: bool, segments: seq<string>, prices: seq<real>): (r: seq<SegmentResult>)
    requires !isVanWestendorp ==> |prices| > 0
    ensures |r| == |segments|
    ensures forall k :: 0 <= k < |segments| ==>
              && r[k].segmentVariable == segments[k]
              && |r[k].levels| == |SegmentLevels(segments[k])|
              && (forall i :: 0 <= i < |r[k].levels| ==> r[k].levels[i].name == SegmentLevels(segments[k])[i])
  {
    seq(|segments|, k requires 0 <= k < |segments| =>
      SegmentResult(segments[k], LevelResults(isVanWestendorp, SegmentLevels(segments[k]), prices)))
  }

  /** `saveMapping` after authentication and the project lookup: the
      validation, then the results record for the project's analysis type. */
  function SaveMapping(analysisType: string, m: Mapping, segments: seq<string>, str: real -> string)
    : (r: Result<AnalysisResult, SaveError>)
    ensures Validate(analysisType, m, str).Fail? ==> r == Failure(Validate(analysisType, m, str).error)
    ensures Validate(analysisType, m, str) == Pass && r.Failure? ==>
              r.error == IncompleteRecord && analysisType != VanWestendorp
    ensures r.Success? ==> r.value.analysisType == analysisType
    ensures r.Success? ==> |r.value.segmentResults| == |segments|
  {
    match Validate(analysisType, m, str)
    case Fail(e) => Failure(e)
    case Pass =>
      if analysisType == VanWestendorp then Success(VanWestendorpRecord(segments))
      else
        var prices := if m.pricePoints.Some? then m.pricePoints.value else [];
        if |prices| == 0 then Failure(IncompleteRecord)
        else Success(GaborGrangerRecord(analysisType, prices, segments))
  }

  /** The stored Van Westendorp record: the overall metrics are tied to its
      range and optimum, with one entry per requested segment, in order. */
  function VanWestendorpRecord(segments: seq<string>): (r: AnalysisResult)
    ensures r.analysisType == VanWestendorp
    ensures TiedMetrics(r.overallResults.optimal, r.overallResults.range, r.overallResults.metrics)
    ensures |r.segmentResults| == |segments|
    ensures forall k :: 0 <= k < |segments| ==> r.segmentResults[k].segmentVariable == segments[k]
  {
    AnalysisResult(VanWestendorp, VanWestendorpOverall(), SegmentResults(true, segments, []))
  }

  /** The stored Gabor-Granger record: the overall range spans the first and
      last price, with one entry per requested segment, in order. */
  function GaborGrangerRecord(analysisType: string, prices: seq<real>, segments: seq<string>): (r: AnalysisResult)
    requires |prices| > 0
    ensures r.analysisType == analysisType
    ensures r.overallResults.range == [prices[0], prices[|prices| - 1]]
    ensures |r.segmentResults| == |segments|
    ensures forall k :: 0 <= k < |segments| ==> r.segmentResults[k].segmentVariable == segments[k]
  {
    AnalysisResult(analysisType, GaborGrangerOverall(prices), SegmentResults(false, segments, prices))
  }

  // ---------------------------------------------------------------------------
  // Properties of the whole mutation

  /** A Van Westendorp mapping is always accepted; a Gabor-Granger mapping is
      accepted exactly when it passes validation, and is refused with the
      validation's error otherwise. */
  lemma SaveMappingOutcome(analysisType: string, m: Mapping, segments: seq<string>, str: real -> string)
    ensures analysisType == VanWestendorp ==> SaveMapping(analysisType, m, segments, str).Success?
    ensures analysisType == GaborGranger ==>
              (SaveMapping(analysisType, m, segments, str).Success? <==> Validate(analysisType, m, str) == Pass)
    ensures analysisType == GaborGranger && Validate(analysisType, m, str).Fail? ==>
              SaveMapping(analysisType, m, segments, str) == Failure(Validate(analysisType, m, str).error)
    ensures analysisType != VanWestendorp && analysisType != GaborGranger ==>
              (SaveMapping(analysisType, m, segments, str).Success? <==>
                 m.pricePoints.Some? && m.pricePoints.value != [])
  {
  }

  /** The saved record has one segment entry per requested segment variable,
      in request order, each with the catalogue's levels in catalogue order
      (none for a variable outside the catalogue). */
  lemma SavedSegmentsFollowRequest(
    analysisType: string, m: Mapping, segments: seq<string>, str: real -> string, r: AnalysisResult)
    requires SaveMapping(analysisType, m, segments, str) == Success(r)
    ensures SegmentsFollowRequest(r, segments)
  {
  }

  /** `r` has one entry per variable of `segments`, in order, each with the
      catalogue's levels in catalogue order. */
  ghost predicate SegmentsFollowRequest(r: AnalysisResult, segments: seq<string>)
  {
    && |r.segmentResults| == |segments|
    && forall k :: 0 <= k < |segments| ==>
         && r.segmentResults[k].segmentVariable == segments[k]
         && |r.segmentResults[k].levels| == |SegmentLevels(segments[k])|
         && (forall i :: 0 <= i < |r.segmentResults[k].levels| ==>
               r.segmentResults[k].levels[i].name == SegmentLevels(segments[k])[i])
         && (segments[k] !in {"Gender", "Region", "AgeGroup"} ==> r.segmentResults[k].levels == [])
  }

  /** In a saved Van Westendorp record the metrics are tied to the price
      range and the optimum, overall and at every level: the point of
      marginal cheapness is the lower end of the range, the point of marginal
      expensiveness the upper end, the optimal price point is the optimum, and
      the optimum and the indifference point lie strictly inside the range.
      Level `i` is the level-0 prices moved up by `2 * i`. */
  lemma VanWestendorpMetricsFollowRange(m: Mapping, segments: seq<string>, str: real -> string)
    ensures SaveMapping(VanWestendorp, m, segments, str) == Success(VanWestendorpRecord(segments))
    ensures VanWestendorpRecordTied(VanWestendorpRecord(segments))
  {
    var r := VanWestendorpRecord(segments);
    forall k, i | 0 <= k < |r.segmentResults| && 0 <= i < |r.segmentResults[k].levels|
      ensures var level := r.segmentResults[k].levels[i];
              && TiedMetrics(level.optimal, level.range, level.metrics)
              && level.optimal == 27.99 + (2 * i) as real
              && level.range == [17.99 + (2 * i) as real, 37.99 + (2 * i) as real]
    {
      assert r.segmentResults[k].levels[i] == VanWestendorpLevel(SegmentLevels(segments[k])[i], i);
    }
  }

  /** The properties of a Van Westendorp record. */
  ghost predicate VanWestendorpRecordTied(r: AnalysisResult)
  {
    && TiedMetrics(r.overallResults.optimal, r.overallResults.range, r.overallResults.metrics)
    && forall k, i :: 0 <= k < |r.segmentResults| && 0 <= i < |r.segmentResults[k].levels| ==>
         var level := r.segmentResults[k].levels[i];
         && TiedMetrics(level.optimal, level.range, level.metrics)
         && level.optimal == 27.99 + (2 * i) as real
         && level.range == [17.99 + (2 * i) as real, 37.99 + (2 * i) as real]
  }

  /** The Van Westendorp metrics `metrics` agree with the optimum `optimal`
      and the two-point range `range`. */
  predicate TiedMetrics(optimal: real, range: seq<real>, metrics: Option<Metrics>)
  {
    && |range| == 2
    && metrics.Some?
    && metrics.value.pmcPoint == range[0]
    && metrics.value.ipdPoint == range[1]
    && metrics.value.opp == optimal
    && range[0] < optimal < range[1]
    && range[0] < metrics.value.idp < range[1]
  }

  /** In a saved Gabor-Granger record (any type other than Van Westendorp)
      every curve has one point per price point, in input order, whose revenue
      is price times intent; the overall optimum is the price of the first
      point of maximal revenue and the overall range is the first and last
      price; level `i` takes the middle price and the two end prices, each
      moved up by `2 * i`, and no level carries metrics. */
  lemma GaborGrangerResultFollowsPrices(
    analysisType: string, m: Mapping, segments: seq<string>, str: real -> string, r: AnalysisResult)
    requires analysisType != VanWestendorp
    requires SaveMapping(analysisType, m, segments, str) == Success(r)
    ensures m.pricePoints.Some? && |m.pricePoints.value| > 0
    ensures GaborGrangerRecordFollowsPrices(r, m.pricePoints.value)
  {
    GaborGrangerRecordShape(analysisType, m.pricePoints.value, segments);
  }

  /** The properties of a Gabor-Granger record built from `prices`. */
  ghost predicate GaborGrangerRecordFollowsPrices(r: AnalysisResult, prices: seq<real>)
    requires |prices| > 0
  {
    OverallFollowsPrices(r.overallResults, prices) && LevelsFollowPrices(r.segmentResults, prices)
  }

  /** The overall curve follows the prices, the optimum is the price of the
      first point of maximal revenue, and the range is the first and last price. */
  ghost predicate OverallFollowsPrices(o: OverallResult, prices: seq<real>)
    requires |prices| > 0
  {
    && PointsFollowPrices(o.data, prices)
    && o.range == [prices[0], prices[|prices| - 1]]
    && (exists j: nat :: IsFirstMaxRevenue(o.data, j) && o.optimal == prices[j])
    && o.metrics.None?
  }

  /** Level `i` of every segment follows the prices, with the middle and end
      prices moved up by `2 * i`, and no metrics. */
  ghost predicate LevelsFollowPrices(segs: seq<SegmentResult>, prices: seq<real>)
    requires |prices| > 0
  {
    forall k, i :: 0 <= k < |segs| && 0 <= i < |segs[k].levels| ==>
      var level := segs[k].levels[i];
      && PointsFollowPrices(level.data, prices)
      && level.optimal == prices[|prices| / 2] + (2 * i) as real
      && level.range == [prices[0] + (2 * i) as real, prices[|prices| - 1] + (2 * i) as real]
      && level.metrics.None?
  }

  lemma GaborGrangerRecordShape(analysisType: string, prices: seq<real>, segments: seq<string>)
    requires |prices| > 0
    ensures GaborGrangerRecordFollowsPrices(GaborGrangerRecord(analysisType, prices, segments), prices)
  {
    var r := GaborGrangerRecord(analysisType, prices, segments);
    assert r.overallResults == GaborGrangerOverall(prices);
    assert r.segmentResults == SegmentResults(false, segments, prices);
    GaborGrangerOverallShape(prices);
    GaborGrangerLevelsShape(segments, prices);
  }

  lemma GaborGrangerOverallShape(prices: seq<real>)
    requires |prices| > 0
    ensures OverallFollowsPrices(GaborGrangerOverall(prices), prices)
  {
    var o := GaborGrangerOverall(prices);
    var data := GaborGrangerData(prices, 0.0);
    assert o.data == data;
    assert PointsFollowPrices(data, prices);
    var j: nat :| IsFirstMaxRevenue(o.data, j) && o.optimal == prices[j];
  }

  lemma GaborGrangerLevelsShape(segments: seq<string>, prices: seq<real>)
    requires |prices| > 0
    ensures LevelsFollowPrices(SegmentResults(false, segments, prices), prices)
  {
    var segs := SegmentResults(false, segments, prices);
    forall k, i | 0 <= k < |segs| && 0 <= i < |segs[k].levels|
      ensures var level := segs[k].levels[i];
              && PointsFollowPrices(level.data, prices)
              && level.optimal == prices[|prices| / 2] + (2 * i) as real
              && level.range == [prices[0] + (2 * i) as real, prices[|prices| - 1] + (2 * i) as real]
              && level.metrics.None?
    {
      assert segs[k].levels == LevelResults(false, SegmentLevels(segments[k]), prices);
      assert segs[k].levels[i] == GaborGrangerLevel(SegmentLevels(segments[k])[i], i, prices);
    }
  }

  /** `data` has one point per price, in order, with revenue = price * intent. */
  predicate PointsFollowPrices(data: seq<DataPoint>, prices: seq<real>)
  {
    && |data| == |prices|
    && forall k :: 0 <= k < |data| ==>
         && data[k].price == prices[k]
         && |data[k].values| == 2
         && data[k].values[1] == data[k].price * data[k].values[0]
  }

  /** Level 1 has offset zero, so its curve is the overall curve; for Van
      Westendorp its optimum, range and metrics are the overall ones too. */
  lemma SecondLevelCurveIsOverallCurve(name: string, prices: seq<real>)
    requires |prices| > 0
    ensures GaborGrangerLevel(name, 1, prices).data == GaborGrangerOverall(prices).data
    ensures var level, overall := VanWestendorpLevel(name, 1), VanWestendorpOverall();
            && level.data == overall.data && level.optimal == overall.optimal
            && level.range == overall.range && level.metrics == overall.metrics
  {
  }
}
