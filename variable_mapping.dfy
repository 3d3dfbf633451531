/** The variable-mapping screen of src/components/VariableMapping.tsx: the
    mapping the user edits, the checks `handleSave` makes before calling
    `saveMapping`, the payload it sends, and the handlers that edit the price
    point text, the purchase intents and the segment list.

    `Number` (string to number) is the parameter `num`. */
module VariableMapping {
  import opened Wrappers
  import opened JsStrings
  import opened JsArrays
  import JsRecords
  import Analysis

  /** The `mapping` state: every field is the chosen column name, "" while
      nothing is chosen; `pricePoints` is the raw comma-separated text and
      `purchaseIntents` maps trimmed price pieces to columns. */
  datatype ClientMapping = ClientMapping(
    respondentId: string,
    tooCheap: string,
    cheap: string,
    expensive: string,
    tooExpensive: string,
    purchase: string,
    pricePoints: string,
    purchaseIntents: JsRecords.Record)

  const InitialMapping: ClientMapping := ClientMapping("", "", "", "", "", "", "", JsRecords.Empty)

  /** The two toasts that stop a save before the server is called. */
  datatype SaveBlock = MapAllRequired | MapRespondentId

  /** The toast text of each block; the two texts tell the blocks apart. */
  function BlockMessage(b: SaveBlock): (msg: string)
    ensures b == MapAllRequired <==> msg == "Please map all required variables"
    ensures b == MapRespondentId <==> msg == "Please map respondent ID"
  {
    match b
    case MapAllRequired => "Please map all required variables"
    case MapRespondentId => "Please map respondent ID"
  }

  /** The variables the analysis type needs: the four price questions for
      Van Westendorp; otherwise price points and at least one intent key. */
  predicate RequiredMapped(isVanWestendorp: bool, m: ClientMapping)
  {
    if isVanWestendorp then
      m.tooCheap != "" && m.cheap != "" && m.expensive != "" && m.tooExpensive != ""
    else
      m.pricePoints != "" && |JsRecords.Keys(m.purchaseIntents)| != 0
  }

  /** The checks of `handleSave`, in their order. */
  function SaveCheck(isVanWestendorp: bool, m: ClientMapping): (o: Outcome<SaveBlock>)
    ensures o == Fail(MapAllRequired) <==> !RequiredMapped(isVanWestendorp, m)
    ensures o == Fail(MapRespondentId) <==> RequiredMapped(isVanWestendorp, m) && m.respondentId == ""
    ensures o == Pass <==> RequiredMapped(isVanWestendorp, m) && m.respondentId != ""
  {
    if isVanWestendorp && (m.tooCheap == "" || m.cheap == "" || m.expensive == "" || m.tooExpensive == "") then
      Fail(MapAllRequired)
    else if !isVanWestendorp && (m.pricePoints == "" || |JsRecords.Keys(m.purchaseIntents)| == 0) then
      Fail(MapAllRequired)
    else if m.respondentId == "" then
      Fail(MapRespondentId)
    else
      Pass
  }

  /** The pieces of the price point text, untrimmed. */
  function Pieces(m: ClientMapping): seq<string>
  {
    Split(m.pricePoints, ',')
  }

  /** The `mapping` argument sent to `saveMapping`: the state spread, with the
      price text split on commas and converted by `Number` (absent when the
      text is empty), and `purchase` the intent columns joined by commas in the
      object's key order. */
  function Payload(m: ClientMapping, num: string -> real): (p: Analysis.Mapping)
    ensures p.respondentId == m.respondentId
    ensures p.tooCheap == Some(m.tooCheap) && p.cheap == Some(m.cheap)
    ensures p.expensive == Some(m.expensive) && p.tooExpensive == Some(m.tooExpensive)
    ensures p.purchaseIntents == Some(m.purchaseIntents)
    ensures p.pricePoints.None? <==> m.pricePoints == ""
    ensures p.pricePoints.Some? ==>
              && |p.pricePoints.value| == |Pieces(m)| >= 1
              && forall k :: 0 <= k < |Pieces(m)| ==> p.pricePoints.value[k] == num(Pieces(m)[k])
    ensures p.purchase.Some? && Join(JsRecords.Values(m.purchaseIntents), ",") == p.purchase.value
  {
    var pieces := Pieces(m);
    Analysis.Mapping(
      m.respondentId,
      Some(m.tooCheap), Some(m.cheap), Some(m.expensive), Some(m.tooExpensive),
      Some(Join(JsRecords.Values(m.purchaseIntents), ",")),
      if m.pricePoints != "" then Some(seq(|pieces|, k requires 0 <= k < |pieces| => num(pieces[k]))) else None,
      Some(m.purchaseIntents))
  }

  /** What `handleSave` does: either a toast, or the `saveMapping` call with
      its mapping and segment arguments. */
  function HandleSave(isVanWestendorp: bool, m: ClientMapping, segments: seq<string>, num: string -> real)
    : (r: Result<(Analysis.Mapping, seq<string>), SaveBlock>)
    ensures r.Failure? <==> SaveCheck(isVanWestendorp, m).Fail?
    ensures r.Failure? ==> r.error == SaveCheck(isVanWestendorp, m).error
    ensures r.Success? ==> r.value == (Payload(m, num), segments)
  {
    match SaveCheck(isVanWestendorp, m)
    case Fail(b) => Failure(b)
    case Pass => Success((Payload(m, num), segments))
  }

  /** The `purchase` field lists the intent columns in key order: splitting it
      on commas gives back exactly `Object.values` of the intents, provided
      there is an intent and no column name contains a comma. */
  lemma PurchaseListsIntentColumns(m: ClientMapping, num: string -> real)
    requires |m.purchaseIntents| >= 1
    requires forall i :: 0 <= i < |m.purchaseIntents| ==> ',' !in m.purchaseIntents[i].1
    ensures Split(Payload(m, num).purchase.value, ',') == JsRecords.Values(m.purchaseIntents)
  {
    SplitJoin(JsRecords.Values(m.purchaseIntents), ',');
  }

  // ---------------------------------------------------------------------------
  // Editing the mapping

  /** Editing the price point text replaces it and clears every intent. */
  function SetPricePoints(m: ClientMapping, text: string): (m': ClientMapping)
    ensures m'.pricePoints == text && m'.purchaseIntents == JsRecords.Empty
    ensures m'.(pricePoints := m.pricePoints, purchaseIntents := m.purchaseIntents) == m
  {
    m.(pricePoints := text, purchaseIntents := JsRecords.Empty)
  }

  /** The intent keys the screen offers a select for: one per comma piece of
      a non-empty text, trimmed (so two pieces may share a key). */
  function IntentKeys(text: string): (keys: seq<string>)
    ensures text == "" ==> keys == []
    ensures text != "" ==>
              && |keys| == |Split(text, ',')|
              && forall k :: 0 <= k < |keys| ==> keys[k] == Trim(Split(text, ',')[k])
  {
    if text == "" then []
    else
      var pieces := Split(text, ',');
      seq(|pieces|, k requires 0 <= k < |pieces| => Trim(pieces[k]))
  }

  /** Choosing column `column` in the select of piece `piece` stores it under
      the trimmed piece, keeping every other intent and the enumeration order
      of the others; a key already present keeps its place. */
  function SetIntent(m: ClientMapping, piece: string, column: string): (m': ClientMapping)
    requires JsRecords.WellFormed(m.purchaseIntents)
    ensures JsRecords.WellFormed(m'.purchaseIntents)
    ensures JsRecords.Get(m'.purchaseIntents, Trim(piece)) == Some(column)
    ensures forall k :: k != Trim(piece) ==>
              JsRecords.Get(m'.purchaseIntents, k) == JsRecords.Get(m.purchaseIntents, k)
    ensures JsRecords.Get(m.purchaseIntents, Trim(piece)).Some? ==>
              JsRecords.Keys(m'.purchaseIntents) == JsRecords.Keys(m.purchaseIntents)
    ensures JsRecords.Others(m'.purchaseIntents, Trim(piece)) == JsRecords.Others(m.purchaseIntents, Trim(piece))
    ensures m'.(purchaseIntents := m.purchaseIntents) == m
  {
    m.(purchaseIntents := JsRecords.Set(m.purchaseIntents, Trim(piece), column))
  }

  /** The state the screen keeps: the intents form a well-formed object whose
      every key is one of the intent keys of the current text. In such a state
      an empty text has no intents. */
  predicate KeysFromText(m: ClientMapping): (b: bool)
    ensures b && m.pricePoints == "" ==> m.purchaseIntents == []
  {
    assert m.pricePoints == "" && m.purchaseIntents != [] ==>
             m.purchaseIntents[0].0 !in IntentKeys(m.pricePoints);
    && JsRecords.WellFormed(m.purchaseIntents)
    && forall i :: 0 <= i < |m.purchaseIntents| ==> m.purchaseIntents[i].0 in IntentKeys(m.pricePoints)
  }

  lemma InitialKeysFromText()
    ensures KeysFromText(InitialMapping)
  {
  }

  /** Editing the text re-establishes the invariant from any state. */
  lemma SetPricePointsKeysFromText(m: ClientMapping, text: string)
    ensures KeysFromText(SetPricePoints(m, text))
  {
  }

  /** Choosing a column for one of the displayed pieces keeps the invariant. */
  lemma SetIntentKeysFromText(m: ClientMapping, k: nat, column: string)
    requires KeysFromText(m)
    requires m.pricePoints != "" && k < |Split(m.pricePoints, ',')|
    ensures KeysFromText(SetIntent(m, Split(m.pricePoints, ',')[k], column))
  {
    var piece := Split(m.pricePoints, ',')[k];
    var m' := SetIntent(m, piece, column);
    var keys := IntentKeys(m.pricePoints);
    assert Trim(piece) == keys[k];
    forall i | 0 <= i < |m'.purchaseIntents|
      ensures m'.purchaseIntents[i].0 in keys
    {
      var key := m'.purchaseIntents[i].0;
      if key != Trim(piece) {
        assert JsRecords.Get(m'.purchaseIntents, key).Some?;
        assert JsRecords.Get(m.purchaseIntents, key).Some?;
        var j :| 0 <= j < |m.purchaseIntents| && m.purchaseIntents[j].0 == key;
      }
    }
  }

  /** Other field edits leave the text and the intents alone. */
  lemma OtherEditsKeepKeysFromText(m: ClientMapping, respondentId: string, tooCheap: string,
                                   cheap: string, expensive: string, tooExpensive: string)
    requires KeysFromText(m)
    ensures KeysFromText(m.(respondentId := respondentId, tooCheap := tooCheap, cheap := cheap,
                            expensive := expensive, tooExpensive := tooExpensive))
  {
  }

  // ---------------------------------------------------------------------------
  // Segment variables

  /** The checkbox of `variable` changed to `checked`: append it, or remove
      every occurrence of it. */
  function ToggleSegment(segments: seq<string>, variable: string, checked: bool): (r: seq<string>)
    ensures checked ==> r == segments + [variable]
    ensures !checked ==> variable !in r
    ensures !checked ==> forall s :: s != variable ==> multiset(r)[s] == multiset(segments)[s]
  {
    if checked then segments + [variable]
    else Filter(segments, v => Differs(v, variable))
  }

  /** The `filter` test of the toggle: `v !== variable`. */
  predicate Differs(v: string, variable: string)
  {
    v != variable
  }

  /** The checkbox shows `segments.includes(variable)`, so the event it raises
      is the opposite; under that event the segment list never repeats a
      variable, and afterwards holds the variable exactly when it is checked. */
  lemma ToggleKeepsDistinct(segments: seq<string>, variable: string, checked: bool)
    requires Distinct(segments)
    requires checked == (variable !in segments)
    ensures Distinct(ToggleSegment(segments, variable, checked))
    ensures variable in ToggleSegment(segments, variable, checked) <==> checked
  {
    if !checked {
      FilterKeepsDistinct(segments, v => Differs(v, variable));
    }
  }

  /** Unchecking removes `variable` and keeps the others in their order:
      unchecking in a list built by appending is unchecking in each part. */
  lemma UncheckKeepsOrder(a: seq<string>, b: seq<string>, variable: string)
    ensures ToggleSegment(a + b, variable, false) == ToggleSegment(a, variable, false) + ToggleSegment(b, variable, false)
  {
    FilterAppend(a, b, v => Differs(v, variable));
  }
}
