/** The results screen of src/components/Results.tsx: which stored curve the
    segment and level selection shows, the CSV export of that curve, the
    segment and level option lists, the peak-intent and peak-revenue figures,
    and the selection state with its two change handlers.

    Number-to-string conversion (the implicit `toString` of `join`) is the
    parameter `str`. */
module Results {
  import opened Wrappers
  import opened JsStrings
  import opened JsArrays
  import Analysis

  /** The value of the segment select that stands for the overall results. */
  const Overall: string := "overall"

  /** The curve on screen: `currentData`, `currentMetrics` and `currentRange`. */
  datatype View = View(data: seq<Analysis.DataPoint>, metrics: Option<Analysis.Metrics>, range: seq<real>)

  // ---------------------------------------------------------------------------
  // Selection

  predicate HasVariable(s: Analysis.SegmentResult, segment: string)
  {
    s.segmentVariable == segment
  }

  predicate HasName(l: Analysis.LevelResult, name: string)
  {
    l.name == name
  }

  /** `segmentResults.find(s => s.segmentVariable === segment)`. */
  function FindSegment(results: Analysis.AnalysisResult, segment: string): (r: Option<Analysis.SegmentResult>)
    ensures r.None? <==> forall k :: 0 <= k < |results.segmentResults| ==>
                           results.segmentResults[k].segmentVariable != segment
    ensures r.Some? ==> r.value in results.segmentResults && r.value.segmentVariable == segment
  {
    Find(results.segmentResults, s => HasVariable(s, segment))
  }

  /** `levels.find(l => l.name === name)`. */
  function FindLevel(levels: seq<Analysis.LevelResult>, name: string): (r: Option<Analysis.LevelResult>)
    ensures r.None? <==> forall i :: 0 <= i < |levels| ==> levels[i].name != name
    ensures r.Some? ==> r.value in levels && r.value.name == name
  {
    Find(levels, l => HasName(l, name))
  }

  /** `k` is the first segment entry for `segment`. */
  predicate FirstSegment(results: Analysis.AnalysisResult, segment: string, k: nat)
  {
    && k < |results.segmentResults|
    && results.segmentResults[k].segmentVariable == segment
    && forall j :: 0 <= j < k ==> results.segmentResults[j].segmentVariable != segment
  }

  /** `i` is the first level named `name`. */
  predicate FirstLevel(levels: seq<Analysis.LevelResult>, name: string, i: nat)
  {
    && i < |levels|
    && levels[i].name == name
    && forall j :: 0 <= j < i ==> levels[j].name != name
  }

  function OverallView(results: Analysis.AnalysisResult): View
  {
    View(results.overallResults.data, results.overallResults.metrics, results.overallResults.range)
  }

  function LevelView(level: Analysis.LevelResult): View
  {
    View(level.data, level.metrics, level.range)
  }

  /** The curve the selection shows; `None` when the segment or the level is
      not in the results (data, metrics and range all undefined). */
  function CurrentView(results: Analysis.AnalysisResult, segment: string, level: string): (r: Option<View>)
    ensures segment == Overall ==> r == Some(OverallView(results))
    ensures segment != Overall && FindSegment(results, segment).None? ==> r.None?
    ensures segment != Overall && r.Some? ==>
              exists l :: l in FindSegment(results, segment).value.levels && l.name == level && r.value == LevelView(l)
  {
    if segment == Overall then Some(OverallView(results))
    else
      match FindSegment(results, segment)
      case None => None
      case Some(s) =>
        match FindLevel(s.levels, level)
        case None => None
        case Some(l) => Some(LevelView(l))
  }

  /** A segment selection shows the first level of that name in the first
      entry for that segment. */
  lemma CurrentViewIsFirstMatch(results: Analysis.AnalysisResult, segment: string, level: string, k: nat, i: nat)
    requires segment != Overall
    requires FirstSegment(results, segment, k)
    requires FirstLevel(results.segmentResults[k].levels, level, i)
    ensures CurrentView(results, segment, level) == Some(LevelView(results.segmentResults[k].levels[i]))
  {
    FindFirst(results.segmentResults, s => HasVariable(s, segment), k);
    FindFirst(results.segmentResults[k].levels, l => HasName(l, level), i);
  }

  /** A segment selection shows nothing when the segment is absent, or when
      its first entry has no level of that name. */
  lemma CurrentViewMissing(results: Analysis.AnalysisResult, segment: string, level: string)
    requires segment != Overall
    requires || (forall k :: 0 <= k < |results.segmentResults| ==> results.segmentResults[k].segmentVariable != segment)
             || (exists k: nat :: FirstSegment(results, segment, k)
                   && forall i :: 0 <= i < |results.segmentResults[k].levels| ==>
                        results.segmentResults[k].levels[i].name != level)
    ensures CurrentView(results, segment, level).None?
  {
    if exists k: nat :: FirstSegment(results, segment, k)
         && forall i :: 0 <= i < |results.segmentResults[k].levels| ==>
              results.segmentResults[k].levels[i].name != level {
      var k: nat :| FirstSegment(results, segment, k)
         && forall i :: 0 <= i < |results.segmentResults[k].levels| ==>
              results.segmentResults[k].levels[i].name != level;
      FindFirst(results.segmentResults, s => HasVariable(s, segment), k);
    }
  }

  // ---------------------------------------------------------------------------
  // Options

  /** The segment select: "overall", then every stored segment variable in
      stored order. */
  function SegmentOptions(results: Analysis.AnalysisResult): (options: seq<string>)
    ensures |options| == |results.segmentResults| + 1
    ensures options[0] == Overall
    ensures forall k :: 0 <= k < |results.segmentResults| ==>
              options[k + 1] == results.segmentResults[k].segmentVariable
  {
    [Overall] + seq(|results.segmentResults|, k requires 0 <= k < |results.segmentResults| =>
                      results.segmentResults[k].segmentVariable)
  }

  function LevelNames(levels: seq<Analysis.LevelResult>): (names: seq<string>)
    ensures |names| == |levels|
    ensures forall i :: 0 <= i < |levels| ==> names[i] == levels[i].name
  {
    seq(|levels|, i requires 0 <= i < |levels| => levels[i].name)
  }

  /** The level select (besides its "Select level" entry): nothing for the
      overall results, otherwise the level names of the first entry for the
      segment, or nothing when there is no such entry. */
  function LevelOptions(results: Analysis.AnalysisResult, segment: string): (options: seq<string>)
    ensures segment == Overall ==> options == []
    ensures segment != Overall && FindSegment(results, segment).Some? ==>
              options == LevelNames(FindSegment(results, segment).value.levels)
    ensures FindSegment(results, segment).None? ==> options == []
  {
    if segment == Overall then []
    else
      match FindSegment(results, segment)
      case None => []
      case Some(s) => LevelNames(s.levels)
  }

  /** Every level the level select offers leads to a curve on screen. */
  lemma LevelOptionsShowCurves(results: Analysis.AnalysisResult, segment: string, level: string)
    requires level in LevelOptions(results, segment)
    ensures CurrentView(results, segment, level).Some?
  {
    var levels := FindSegment(results, segment).value.levels;
    var i :| 0 <= i < |levels| && LevelNames(levels)[i] == level;
    assert levels[i].name == level;
  }

  /** Every segment the segment select offers other than "overall" has its
      level options from the stored entry. */
  lemma SegmentOptionsHaveLevels(results: Analysis.AnalysisResult, k: nat)
    requires k < |results.segmentResults|
    requires FirstSegment(results, results.segmentResults[k].segmentVariable, k)
    requires results.segmentResults[k].segmentVariable != Overall
    ensures results.segmentResults[k].segmentVariable in SegmentOptions(results)
    ensures LevelOptions(results, results.segmentResults[k].segmentVariable)
              == LevelNames(results.segmentResults[k].levels)
  {
    assert SegmentOptions(results)[k + 1] == results.segmentResults[k].segmentVariable;
    FindFirst(results.segmentResults, s => HasVariable(s, results.segmentResults[k].segmentVariable), k);
  }

  // ---------------------------------------------------------------------------
  // CSV export

  function CsvHeader(isVanWestendorp: bool): (header: seq<string>)
    ensures |header| == if isVanWestendorp then 5 else 3
    ensures header[0] == "Price"
  {
    if isVanWestendorp then ["Price", "Too Cheap", "Cheap", "Expensive", "Too Expensive"]
    else ["Price", "Purchase Intent", "Revenue"]
  }

  /** The fields of one row: the price, then every value. */
  function RowFields(d: Analysis.DataPoint, str: real -> string): (fields: seq<string>)
    ensures |fields| == |d.values| + 1
    ensures fields[0] == str(d.price)
    ensures forall j :: 0 <= j < |d.values| ==> fields[j + 1] == str(d.values[j])
  {
    [str(d.price)] + seq(|d.values|, j requires 0 <= j < |d.values| => str(d.values[j]))
  }

  /** One line per point, in order. When numbers print without commas and
      newlines, a line has no newline and splits on commas back into the
      price and the values of its point. */
  function CsvRows(data: seq<Analysis.DataPoint>, str: real -> string): (rows: seq<string>)
    ensures |rows| == |data|
    ensures forall i :: 0 <= i < |data| ==> rows[i] == Join(RowFields(data[i], str), ",")
    ensures PlainNumbers(str) ==> forall i :: 0 <= i < |data| ==>
              '\n' !in rows[i] && Split(rows[i], ',') == RowFields(data[i], str)
  {
    RowsSplit(str);
    seq(|data|, i requires 0 <= i < |data| => Join(RowFields(data[i], str), ","))
  }

  /** With plain numbers every joined row splits back into its fields. */
  lemma RowsSplit(str: real -> string)
    ensures PlainNumbers(str) ==> forall d: Analysis.DataPoint ::
              '\n' !in Join(RowFields(d, str), ",") && Split(Join(RowFields(d, str), ","), ',') == RowFields(d, str)
  {
    if PlainNumbers(str) {
      forall d: Analysis.DataPoint
        ensures '\n' !in Join(RowFields(d, str), ",") && Split(Join(RowFields(d, str), ","), ',') == RowFields(d, str)
      {
        RowFieldsPlain(d, str);
        JoinLacksSeparator(RowFields(d, str), ",", '\n');
        SplitJoin(RowFields(d, str), ',');
      }
    }
  }

  /** The header line, then one line per point, joined by newlines. When
      numbers print without commas and newlines, the content splits on
      newlines back into exactly those lines. */
  function CsvContent(isVanWestendorp: bool, data: seq<Analysis.DataPoint>, str: real -> string): (content: string)
    ensures PlainNumbers(str) ==>
              Split(content, '\n') == [Join(CsvHeader(isVanWestendorp), ",")] + CsvRows(data, str)
  {
    var lines := [Join(CsvHeader(isVanWestendorp), ",")] + CsvRows(data, str);
    JoinLacksSeparator(CsvHeader(isVanWestendorp), ",", '\n');
    LinesSplit(lines);
    Join(lines, "\n")
  }

  /** Lines without newlines, joined by newlines, split back into the lines. */
  lemma LinesSplit(lines: seq<string>)
    requires |lines| >= 1
    ensures (forall k :: 0 <= k < |lines| ==> '\n' !in lines[k]) ==> Split(Join(lines, "\n"), '\n') == lines
  {
    if forall k :: 0 <= k < |lines| ==> '\n' !in lines[k] {
      SplitJoin(lines, '\n');
    }
  }

  /** The length of the download name's fixed start, "pricing-analysis-". */
  const NamePrefix: nat := 17

  /** The download name: "pricing-analysis-", the segment, then "-" and the
      level when one is selected, and the extension ".csv". */
  function CsvFileName(segment: string, level: string): (name: string)
    ensures |name| == NamePrefix + |segment| + (if level == "" then 0 else |level| + 1) + 4
    ensures name[..NamePrefix] == "pricing-analysis-" && name[|name| - 4..] == ".csv"
    ensures name[NamePrefix..NamePrefix + |segment|] == segment
    ensures level != "" ==> name[NamePrefix + |segment|] == '-'
    ensures level != "" ==> name[NamePrefix + |segment| + 1..|name| - 4] == level
  {
    "pricing-analysis-" + segment + (if level != "" then "-" + level else "") + ".csv"
  }

  /** Different selections download under different names, as long as no
      segment variable contains '-' (otherwise segment "a-b" without a level
      and segment "a" with level "b" share a name). */
  lemma CsvFileNamesDistinct(segment1: string, level1: string, segment2: string, level2: string)
    requires '-' !in segment1 && '-' !in segment2
    requires CsvFileName(segment1, level1) == CsvFileName(segment2, level2)
    ensures segment1 == segment2 && level1 == level2
  {
    var name := CsvFileName(segment1, level1);
    var n1, n2 := |segment1|, |segment2|;
    assert n1 == n2;
    assert segment1 == name[NamePrefix..NamePrefix + n1] == segment2;
  }

  /** The CSV download: nothing without a curve on screen, otherwise the file
      name and the content. */
  function ExportCsv(analysisType: string, results: Analysis.AnalysisResult, segment: string, level: string,
                     str: real -> string): (r: Option<(string, string)>)
    ensures r.None? <==> CurrentView(results, segment, level).None?
    ensures r.Some? ==>
              r.value == (CsvFileName(segment, level),
                          CsvContent(analysisType == Analysis.VanWestendorp,
                                     CurrentView(results, segment, level).value.data, str))
  {
    match CurrentView(results, segment, level)
    case None => None
    case Some(view) =>
      Some((CsvFileName(segment, level), CsvContent(analysisType == Analysis.VanWestendorp, view.data, str)))
  }

  /** No field of the export contains a separator when numbers print without
      commas and newlines. */
  ghost predicate PlainNumbers(str: real -> string)
  {
    forall x: real :: ',' !in str(x) && '\n' !in str(x)
  }

  /** The CSV has one line per point after the header; the header line splits
      into the header fields, and line `i + 1` splits into the price and the
      values of point `i`. */
  lemma CsvFields(isVanWestendorp: bool, data: seq<Analysis.DataPoint>, str: real -> string)
    requires PlainNumbers(str)
    ensures |Split(CsvContent(isVanWestendorp, data, str), '\n')| == |data| + 1
    ensures Split(Split(CsvContent(isVanWestendorp, data, str), '\n')[0], ',') == CsvHeader(isVanWestendorp)
    ensures forall i :: 0 <= i < |data| ==>
              Split(Split(CsvContent(isVanWestendorp, data, str), '\n')[i + 1], ',') == RowFields(data[i], str)
  {
    var lines := Split(CsvContent(isVanWestendorp, data, str), '\n');
    var rows := CsvRows(data, str);
    SplitJoin(CsvHeader(isVanWestendorp), ',');
    forall i | 0 <= i < |data| ensures Split(lines[i + 1], ',') == RowFields(data[i], str) {
      assert lines[i + 1] == rows[i];
    }
  }

  lemma RowFieldsPlain(d: Analysis.DataPoint, str: real -> string)
    requires PlainNumbers(str)
    ensures forall j :: 0 <= j < |RowFields(d, str)| ==> ',' !in RowFields(d, str)[j] && '\n' !in RowFields(d, str)[j]
  {
    var fields := RowFields(d, str);
    forall j | 0 <= j < |fields| ensures ',' !in fields[j] && '\n' !in fields[j] {
      var x := if j == 0 then d.price else d.values[j - 1];
      assert fields[j] == str(x);
      assert ',' !in str(x) && '\n' !in str(x);
    }
  }

  /** Joining parts free of `c` with a separator free of `c` gives a string free of `c`. */
  lemma {:induction false} JoinLacksSeparator(parts: seq<string>, sep: string, c: char)
    requires c !in sep
    requires forall k :: 0 <= k < |parts| ==> c !in parts[k]
    ensures c !in Join(parts, sep)
    decreases |parts|
  {
    if |parts| > 1 {
      JoinLacksSeparator(parts[1..], sep, c);
    }
  }

  // ---------------------------------------------------------------------------
  // Peak intent and peak revenue

  function Max(a: real, b: real): real
  {
    if a >= b then a else b
  }

  /** `data.reduce((max, point) => Math.max(max, point.values[series]), 0)`,
      from point `i` on with `acc` so far. A missing value is `undefined`,
      which makes `Math.max` NaN from there on; NaN is `None`. */
  function PeakFold(data: seq<Analysis.DataPoint>, series: nat, i: nat, acc: real): (r: Option<real>)
    requires i <= |data|
    requires acc >= 0.0
    requires forall j :: 0 <= j < i && series < |data[j].values| ==> data[j].values[series] <= acc
    requires acc == 0.0 || exists j :: 0 <= j < i && series < |data[j].values| && data[j].values[series] == acc
    ensures r.None? <==> exists j :: i <= j < |data| && |data[j].values| <= series
    ensures r.Some? ==> r.value >= acc
    ensures r.Some? ==> forall j :: 0 <= j < |data| && series < |data[j].values| ==> data[j].values[series] <= r.value
    ensures r.Some? ==>
              r.value == 0.0 || exists j :: 0 <= j < |data| && series < |data[j].values| && data[j].values[series] == r.value
    decreases |data| - i
  {
    if i == |data| then Some(acc)
    else if |data[i].values| <= series then None
    else PeakFold(data, series, i + 1, Max(acc, data[i].values[series]))
  }

  /** The peak of one series over a curve, starting from 0: non-negative, at
      least every value, and either 0 or one of the values; NaN (`None`)
      exactly when some point lacks the series. */
  function Peak(data: seq<Analysis.DataPoint>, series: nat): (r: Option<real>)
    ensures r.None? <==> exists j :: 0 <= j < |data| && |data[j].values| <= series
    ensures r.Some? ==> r.value >= 0.0
    ensures r.Some? ==> forall j :: 0 <= j < |data| ==> data[j].values[series] <= r.value
    ensures r.Some? ==> r.value == 0.0 || exists j :: 0 <= j < |data| && data[j].values[series] == r.value
  {
    PeakFold(data, series, 0, 0.0)
  }

  /** The peak purchase-intent figure (series 0): at least 0 and every
      intent, and 0 or one of them. */
  function PeakIntent(data: seq<Analysis.DataPoint>): (r: Option<real>)
    ensures r.None? <==> exists j :: 0 <= j < |data| && |data[j].values| == 0
    ensures r.Some? ==> r.value >= 0.0 && forall j :: 0 <= j < |data| ==> data[j].values[0] <= r.value
    ensures r.Some? ==> r.value == 0.0 || exists j :: 0 <= j < |data| && data[j].values[0] == r.value
  {
    Peak(data, 0)
  }

  /** The peak revenue figure (series 1): at least 0 and every revenue, and 0
      or one of them. */
  function PeakRevenue(data: seq<Analysis.DataPoint>): (r: Option<real>)
    ensures r.None? <==> exists j :: 0 <= j < |data| && |data[j].values| <= 1
    ensures r.Some? ==> r.value >= 0.0 && forall j :: 0 <= j < |data| ==> data[j].values[1] <= r.value
    ensures r.Some? ==> r.value == 0.0 || exists j :: 0 <= j < |data| && data[j].values[1] == r.value
  {
    Peak(data, 1)
  }

  /** On a Gabor-Granger curve the intents fall with the price index, so the
      peak intent figure is the intent at the first price (when that is not
      negative). */
  lemma PeakIntentAtFirstPrice(prices: seq<real>, offset: real)
    requires |prices| > 0 && 0.9 + offset >= 0.0
    ensures PeakIntent(Analysis.GaborGrangerData(prices, offset)) == Some(0.9 + offset)
  {
    var data := Analysis.GaborGrangerData(prices, offset);
    var r := PeakIntent(data);
    assert r.Some?;
    assert data[0].values[0] == 0.9 + offset;
    assert r.value <= 0.9 + offset by {
      if r.value != 0.0 {
        var j :| 0 <= j < |data| && data[j].values[0] == r.value;
        assert data[j].values[0] == 0.9 - 0.1 * j as real + offset;
      }
    }
  }

  /** On a curve whose optimum has non-negative revenue, the peak revenue the
      screen shows is the revenue at the optimal index of the stored
      results. */
  lemma PeakRevenueAtOptimum(data: seq<Analysis.DataPoint>, k: nat)
    requires Analysis.HasRevenue(data)
    requires Analysis.IsFirstMaxRevenue(data, k)
    requires data[k].values[1] >= 0.0
    ensures PeakRevenue(data) == Some(data[k].values[1])
  {
    var r := PeakRevenue(data);
    assert r.Some?;
    assert r.value <= data[k].values[1] by {
      if r.value != 0.0 {
        var j :| 0 <= j < |data| && data[j].values[1] == r.value;
      }
    }
  }

  // ---------------------------------------------------------------------------
  // Selection state

  /** `selectedSegment` and `selectedLevel`. */
  class Selection {
    var segment: string
    var level: string

    constructor()
      ensures segment == Overall && level == ""
    {
      segment := Overall;
      level := "";
    }

    /** The segment select changed: a new segment, and no level. */
    method ChangeSegment(value: string)
      modifies this
      ensures segment == value && level == ""
    {
      segment := value;
      level := "";
    }

    /** The level select changed. */
    method ChangeLevel(value: string)
      modifies this
      ensures segment == old(segment) && level == value
    {
      level := value;
    }

    /** The curve on screen for this selection: always one for the overall
        results, and otherwise one exactly when the segment is stored and its
        first entry has a level of the selected name. */
    function Current(results: Analysis.AnalysisResult): (v: Option<View>)
      reads this
      ensures segment == Overall ==> v.Some?
      ensures segment != Overall ==>
                (v.Some? <==> FindSegment(results, segment).Some?
                              && FindLevel(FindSegment(results, segment).value.levels, level).Some?)
    {
      CurrentView(results, segment, level)
    }
  }

  /** Right after a segment change the screen shows a curve only for the
      overall results or a segment with a level named "". */
  lemma AfterSegmentChange(results: Analysis.AnalysisResult, segment: string)
    ensures CurrentView(results, segment, "").Some? <==>
              segment == Overall
              || (FindSegment(results, segment).Some?
                  && exists i :: 0 <= i < |FindSegment(results, segment).value.levels|
                                 && FindSegment(results, segment).value.levels[i].name == "")
  {
  }

  /** When every stored level has a non-empty name, selecting a segment
      other than "overall" shows no curve until a level is chosen. */
  lemma NamedLevelsNeedLevel(results: Analysis.AnalysisResult, segment: string)
    requires segment != Overall
    requires forall k, i :: 0 <= k < |results.segmentResults| && 0 <= i < |results.segmentResults[k].levels| ==>
               results.segmentResults[k].levels[i].name != ""
    ensures CurrentView(results, segment, "").None?
  {
    match FindSegment(results, segment)
    case None =>
    case Some(s) =>
      var k :| 0 <= k < |results.segmentResults| && results.segmentResults[k] == s;
      assert forall i :: 0 <= i < |s.levels| ==> s.levels[i].name != "";
  }

  /** Saved records have the catalogue's level names (see
      `Analysis.SavedSegmentsFollowRequest`), none of them empty, so after a
      segment change a saved record shows no curve until a level is chosen. */
  lemma SavedRecordNeedsLevel(r: Analysis.AnalysisResult, segments: seq<string>, segment: string)
    requires Analysis.SegmentsFollowRequest(r, segments)
    requires segment != Overall
    ensures CurrentView(r, segment, "").None?
  {
    forall k, i | 0 <= k < |r.segmentResults| && 0 <= i < |r.segmentResults[k].levels|
      ensures r.segmentResults[k].levels[i].name != ""
    {
      assert r.segmentResults[k].levels[i].name == Analysis.SegmentLevels(segments[k])[i];
    }
    NamedLevelsNeedLevel(r, segment);
  }

  /** A short session: the screen opens on the overall curve, a segment
      change clears the level, and choosing an offered level shows its curve. */
  method Session(results: Analysis.AnalysisResult, segment: string, level: string) returns (shown: Option<View>)
    requires segment != Overall && level in LevelOptions(results, segment)
    ensures shown.Some?
    ensures shown == CurrentView(results, segment, level)
  {
    var selection := new Selection();
    assert selection.Current(results) == Some(OverallView(results));
    selection.ChangeSegment(segment);
    selection.ChangeLevel(level);
    LevelOptionsShowCurves(results, segment, level);
    shown := selection.Current(results);
  }
}
