/** How the payload that src/components/VariableMapping.tsx sends meets the
    checks of `saveMapping` in convex/analysis.ts for a Gabor-Granger project.

    The client stores each intent under the trimmed text of its price piece;
    the server looks each price up under `Number(piece).toString()`. The
    mapping is accepted exactly when the server's key for every piece is an
    intent key. A mapping past the client checks with every select chosen is
    therefore accepted when every piece is written the way JavaScript prints
    its number, and refused when the server's key for some piece, such as
    "10.0" or "1e1", is not one of the displayed keys. */
module MappingSeam {
  import opened Wrappers
  import opened JsStrings
  import JsRecords
  import Analysis
  import opened VariableMapping

  /** The server accepts a client payload exactly when the text is non-empty,
      some intent is stored, and for every piece the server's key for it,
      `str(num(piece))`, is stored with a non-empty column. */
  lemma ServerAcceptsPayload(m: ClientMapping, num: string -> real, str: real -> string)
    ensures Analysis.Validate(Analysis.GaborGranger, Payload(m, num), str) == Pass <==>
              && m.pricePoints != ""
              && m.purchaseIntents != []
              && forall k :: 0 <= k < |Pieces(m)| ==>
                   Analysis.IntentMapped(Some(m.purchaseIntents), str(num(Pieces(m)[k])))
  {
    var p := Payload(m, num);
    if m.pricePoints != "" {
      assert p.pricePoints.value != [];
      assert forall k :: 0 <= k < |Pieces(m)| ==> p.pricePoints.value[k] == num(Pieces(m)[k]);
    }
  }

  /** Every piece is written as JavaScript prints its number, up to the white
      space around it. */
  predicate CanonicalPieces(m: ClientMapping, num: string -> real, str: real -> string)
  {
    forall k :: 0 <= k < |Pieces(m)| ==> str(num(Pieces(m)[k])) == Trim(Pieces(m)[k])
  }

  /** The user chose a column in every select the screen shows. */
  predicate AllSelectsChosen(m: ClientMapping)
  {
    forall k :: 0 <= k < |IntentKeys(m.pricePoints)| ==>
      Analysis.IntentMapped(Some(m.purchaseIntents), IntentKeys(m.pricePoints)[k])
  }

  /** With canonical pieces, a mapping the client lets through with a column
      for every select is saved by the server. */
  lemma CanonicalPiecesAccepted(m: ClientMapping, segments: seq<string>, num: string -> real, str: real -> string)
    requires SaveCheck(false, m) == Pass
    requires CanonicalPieces(m, num, str)
    requires AllSelectsChosen(m)
    ensures Analysis.Validate(Analysis.GaborGranger, Payload(m, num), str) == Pass
    ensures Analysis.SaveMapping(Analysis.GaborGranger, Payload(m, num), segments, str).Success?
    ensures var call := HandleSave(false, m, segments, num);
            call.Success? && Analysis.SaveMapping(Analysis.GaborGranger, call.value.0, call.value.1, str).Success?
  {
    forall k | 0 <= k < |Pieces(m)|
      ensures Analysis.IntentMapped(Some(m.purchaseIntents), str(num(Pieces(m)[k])))
    {
      assert IntentKeys(m.pricePoints)[k] == Trim(Pieces(m)[k]);
    }
    ServerAcceptsPayload(m, num, str);
    Analysis.SaveMappingOutcome(Analysis.GaborGranger, Payload(m, num), segments, str);
  }

  /** A piece whose server key is not among the keys the screen offers can
      never be mapped: the server refuses the payload and lists that piece's
      number among the missing mappings, whatever the user chose. */
  lemma NonCanonicalPieceRejected(m: ClientMapping, segments: seq<string>, num: string -> real, str: real -> string, k: nat)
    requires SaveCheck(false, m) == Pass
    requires KeysFromText(m)
    requires k < |Pieces(m)|
    requires str(num(Pieces(m)[k])) !in IntentKeys(m.pricePoints)
    ensures Analysis.Validate(Analysis.GaborGranger, Payload(m, num), str).Fail?
    ensures Analysis.Validate(Analysis.GaborGranger, Payload(m, num), str).error.MissingMappings?
    ensures num(Pieces(m)[k]) in Analysis.Validate(Analysis.GaborGranger, Payload(m, num), str).error.prices
    ensures var call := HandleSave(false, m, segments, num);
            && call.Success?
            && Analysis.SaveMapping(Analysis.GaborGranger, call.value.0, call.value.1, str)
                 == Failure(Analysis.Validate(Analysis.GaborGranger, Payload(m, num), str).error)
  {
    var p := Payload(m, num);
    var key := str(num(Pieces(m)[k]));
    assert JsRecords.Get(m.purchaseIntents, key).None?;
    assert !Analysis.IntentMapped(p.purchaseIntents, str(p.pricePoints.value[k]));
    assert p.pricePoints.value[k] in p.pricePoints.value;
  }

  /** A concrete case: the text "10.0" with its one select chosen passes the
      client's checks, but `Number("10.0").toString()` is "10", so the server
      refuses it with 10 as the missing price. */
  lemma TrailingZeroRejected(num: string -> real, str: real -> string)
    requires num("10.0") == 10.0 && str(10.0) == "10"
    ensures var m := SetIntent(SetPricePoints(InitialMapping.(respondentId := "id"), "10.0"), "10.0", "q1");
            && SaveCheck(false, m) == Pass
            && AllSelectsChosen(m)
            && Analysis.SaveMapping(Analysis.GaborGranger, Payload(m, num), [], str)
                 == Failure(Analysis.MissingMappings([10.0]))
  {
    TrailingZeroMapping();
    var m := TrailingZeroState;
    TrailingZeroClient();
    TrailingZeroServer(num, str);
    Analysis.SaveMappingOutcome(Analysis.GaborGranger, Payload(m, num), [], str);
  }

  /** The state after typing "10.0" and choosing column "q1" for it. */
  const TrailingZeroState: ClientMapping := ClientMapping("id", "", "", "", "", "", "10.0", [("10.0", "q1")])

  lemma TrailingZeroMapping()
    ensures SetIntent(SetPricePoints(InitialMapping.(respondentId := "id"), "10.0"), "10.0", "q1") == TrailingZeroState
  {
    TrimWithoutWhiteSpace("10.0");
  }

  lemma TrailingZeroClient()
    ensures SaveCheck(false, TrailingZeroState) == Pass
    ensures AllSelectsChosen(TrailingZeroState)
  {
    assert JsRecords.Keys(TrailingZeroState.purchaseIntents) == ["10.0"];
    TrailingZeroKeys();
    assert JsRecords.Get([("10.0", "q1")], "10.0") == Some("q1");
  }

  lemma TrailingZeroKeys()
    ensures IntentKeys("10.0") == ["10.0"]
  {
    SplitWithoutSeparator("10.0", ',');
    TrimWithoutWhiteSpace("10.0");
  }

  lemma TrailingZeroServer(num: string -> real, str: real -> string)
    requires num("10.0") == 10.0 && str(10.0) == "10"
    ensures Analysis.Validate(Analysis.GaborGranger, Payload(TrailingZeroState, num), str)
              == Fail(Analysis.MissingMappings([10.0]))
  {
    var p := Payload(TrailingZeroState, num);
    SplitWithoutSeparator("10.0", ',');
    assert Pieces(TrailingZeroState) == ["10.0"];
    assert |p.pricePoints.value| == 1 && p.pricePoints.value[0] == 10.0;
    assert p.pricePoints.value == [10.0];
    assert JsRecords.Get(TrailingZeroState.purchaseIntents, "10") == None;
    assert !Analysis.IntentMapped(p.purchaseIntents, str(10.0));
    var missing := Analysis.UnmappedPrices([10.0], p.purchaseIntents, str);
    assert 10.0 in missing;
    assert missing == [10.0];
  }

  /** Another concrete case: intents stored for the text "30,10" enumerate in
      ascending numeric key order, so the `purchase` field lists the column
      for 10 before the column for 30, against the order of the text. */
  lemma IntentOrderFollowsKeys(num: string -> real)
    ensures var m := SetIntent(SetIntent(SetPricePoints(InitialMapping, "30,10"), "30", "q30"), "10", "q10");
            Payload(m, num).purchase == Some("q10,q30")
  {
    FirstIntent();
    SecondIntent();
    var m := SetIntent(SetIntent(SetPricePoints(InitialMapping, "30,10"), "30", "q30"), "10", "q10");
    assert SetIntent(SetPricePoints(InitialMapping, "30,10"), "30", "q30") == OrderState1;
    assert m == OrderState2;
    OrderPayload(num);
  }

  lemma OrderPayload(num: string -> real)
    ensures Payload(OrderState2, num).purchase == Some("q10,q30")
  {
    var values := JsRecords.Values(OrderState2.purchaseIntents);
    assert values == ["q10", "q30"];
    assert values[1..] == ["q30"];
    assert Join(values, ",") == "q10" + "," + "q30";
    assert "q10" + "," + "q30" == "q10,q30";
  }

  /** The states after typing "30,10" and choosing "q30" for 30, then "q10" for 10. */
  const OrderState1: ClientMapping := ClientMapping("", "", "", "", "", "", "30,10", [("30", "q30")])
  const OrderState2: ClientMapping := ClientMapping("", "", "", "", "", "", "30,10", [("10", "q10"), ("30", "q30")])

  lemma FirstIntent()
    ensures SetIntent(SetPricePoints(InitialMapping, "30,10"), "30", "q30") == OrderState1
  {
    TrimWithoutWhiteSpace("30");
    DigitsOf30();
  }

  lemma SecondIntent()
    ensures SetIntent(OrderState1, "10", "q10") == OrderState2
  {
    TrimWithoutWhiteSpace("10");
    DigitsOf30();
    var r := JsRecords.Set([("30", "q30")], "10", "q10");
    assert JsRecords.Get(r, "10") == Some("q10");
    assert JsRecords.Get(r, "30") == Some("q30");
    assert |r| == 2;
    JsRecords.GetEntry(r, "10", "q10");
    JsRecords.GetEntry(r, "30", "q30");
  }

  lemma DigitsOf30()
    ensures JsRecords.IsArrayIndex("30") && JsRecords.DigitsValue("30") == 30
    ensures JsRecords.IsArrayIndex("10") && JsRecords.DigitsValue("10") == 10
  {
    assert "30"[..1] == "3" && "10"[..1] == "1";
  }
}
