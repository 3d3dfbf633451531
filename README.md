# Pricing research: a verified model of the mapping, results and wizard logic

This project is a Dafny model of the sequential core of a pricing-research
web application. Users create a project, choose an analysis type
(Van Westendorp price sensitivity or Gabor-Granger purchase intent), map
survey columns to the questions the analysis needs, and view the saved
results by segment.

The model covers four parts of the application:

- **`saveMapping`** (convex/analysis.ts), in module `Analysis`. The
  Gabor-Granger checks cover price points, intent mappings and the keys that
  are missing. The mutation then assembles the stored results record: the
  placeholder curves, the first-maximum revenue fold that picks the optimal
  price, the price range, and the segment levels from the fixed catalogue.
- **The variable-mapping screen** (src/components/VariableMapping.tsx), in
  module `VariableMapping`. It covers the save checks in their order, the
  payload sent to the server, and the edits of the price text, the intents
  and the segment list, each written as a function from old state to new
  state.
- **The results screen** (src/components/Results.tsx), in module `Results`.
  It covers which curve a segment/level selection shows, the CSV export and
  its file name, the option lists, and the peak-intent and peak-revenue
  folds. The selection state is a class with its two change handlers.
- **The project wizard** (src/components/ProjectWizard.tsx), in module
  `ProjectWizard`. It is a class whose fields are the step, the created
  project id and the form, and whose methods are the transitions.

The module `MappingSeam` joins the client and the server. The client stores
each intent under the trimmed text of its price piece. The server looks each
price up under `Number(piece).toString()`. The model proves three facts:

- the server accepts a payload exactly when the server's key for every piece
  is an intent key;
- a mapping that passes the client checks and has every displayed select
  chosen is accepted when every piece is written in JavaScript's number form;
- a mapping that passes the client checks is refused when the server's key
  for some piece is not one of the displayed keys, for example for the text
  "10.0" alone. (A piece not in number form can still pass when another piece
  supplies its key, as in "10,10.0".)

Three support modules model the JavaScript built-ins the core relies on.
`JsStrings` covers `split` on one character, `join` and `trim`. `JsArrays`
covers `filter` and `find`. `JsRecords` covers a string-to-string object
listed in JavaScript's own enumeration order: array-index keys first in
ascending numeric order, then the other keys in creation order. That order
decides the order of the `purchase` column list.

Two conversions are parameters rather than models: JavaScript's `Number`
(`num: string -> real`) and number-to-string (`str: real -> string`). A
lemma that needs a particular behaviour of them states it as a precondition,
for example `str(10.0) == "10"`.

The stored curves are placeholders computed from fixed constants and the
price points: the code tabulates no survey responses, builds no cumulative
curves and intersects none.

## Model

| member | source | states |
|---|---|---|
| Analysis.SegmentLevels | convex/analysis.ts:6-10 | A variable outside the Gender/Region/AgeGroup catalogue has no levels. |
| Analysis.ErrorMessage | convex/analysis.ts:36-48 | Every error has a non-empty message. A missing-mappings message starts with "Missing purchase intent mappings for price points: "; for one missing price it is that prefix followed by the price. |
| Analysis.UnmappedPrices | convex/analysis.ts:43-45 | A price is missing exactly when its string key has no non-empty intent, and it appears as often as in the input. |
| Analysis.UnmappedPricesInOrder | convex/analysis.ts:43-45 | The missing prices keep their input order: the filter distributes over concatenation. |
| Analysis.Validate | convex/analysis.ts:35-49 | Only "gabor_granger" is checked. No or empty price points fails first, then no intent keys. The check passes iff every price is mapped; otherwise the error carries the non-empty list of missing prices. |
| Analysis.VanWestendorpData | convex/analysis.ts:72-78 | Five points at prices 10 to 50, four values each. |
| Analysis.VanWestendorpLevel | convex/analysis.ts:67-87 | Level `i` has optimal 27.99 + 2i and range [17.99 + 2i, 37.99 + 2i]. Its metrics have pmc = range[0], ipd = range[1] and opp = optimal, with optimal and idp strictly inside the range. |
| Analysis.VanWestendorpOverall | convex/analysis.ts:97-113 | The overall Van Westendorp result has five points at prices 10 to 50 with four values each, and its metrics are tied to its range and optimum. |
| Analysis.GaborGrangerData | convex/analysis.ts:128-136 | One point per price, in order, with the price kept and revenue = price × intent. The first intent is 0.9 + offset, and each later one is 0.1 lower: the intent at index k is 0.9 − 0.1·k + offset. |
| Analysis.ReduceArgmax | convex/analysis.ts:159-161 | The fold with strict `>` returns the first index of maximal revenue. |
| Analysis.OptimalIndex | convex/analysis.ts:159-161 | The fold started at index 0 returns the first index of maximal revenue. |
| Analysis.GaborGrangerLevel | convex/analysis.ts:122-142 | Level `i`: the curve follows the prices, optimal is the middle price (index ⌊n/2⌋) + 2i, range is [first + 2i, last + 2i], and there are no metrics. |
| Analysis.GaborGrangerOverall | convex/analysis.ts:148-172 | The overall curve follows the prices, the optimum is the price at a first-maximal-revenue index, and the range is [first, last] price. |
| Analysis.LevelResults | convex/analysis.ts:67-71 | One level per catalogue name, in catalogue order. |
| Analysis.SegmentResults | convex/analysis.ts:118-122 | One entry per requested segment, in request order, with the catalogue's levels. |
| Analysis.VanWestendorpRecord | convex/analysis.ts:62-115 | The record has type "van_westendorp", overall metrics tied to the overall range and optimum, and one segment entry per requested variable, in request order. |
| Analysis.GaborGrangerRecord | convex/analysis.ts:116-174 | The record keeps the project's type, its overall range is [first, last] price, and it has one segment entry per requested variable, in request order. |
| Analysis.SaveMapping | convex/analysis.ts:34-175 | A failed validation is returned as the failure. After a passed validation the only failure is an incomplete record, which never happens for Van Westendorp. A saved record keeps the project's analysis type and has one entry per requested segment. |
| Analysis.SaveMappingOutcome | convex/analysis.ts:35-62 | Van Westendorp is always saved. Gabor-Granger is saved iff validation passes, and otherwise fails with the validation's error. Any other type is saved iff it has price points. |
| Analysis.SavedSegmentsFollowRequest | convex/analysis.ts:63-66 | A saved record has one entry per requested segment, in order, with the catalogue's level names; an unknown segment has no levels. |
| Analysis.VanWestendorpMetricsFollowRange | convex/analysis.ts:62-115 | In a saved Van Westendorp record, overall and at every level, the metrics are tied to the range and the optimum, and level `i` is shifted by 2i. |
| Analysis.GaborGrangerResultFollowsPrices | convex/analysis.ts:116-174 | A saved non-Van-Westendorp record has price points. Every curve follows them; the overall optimum is the first revenue maximum and the range is [first, last]; level `i` is shifted by 2i and has no metrics. |
| Analysis.GaborGrangerRecordShape | convex/analysis.ts:118-145 | Every level of every segment of a Gabor-Granger record follows the prices, as above. |
| Analysis.SecondLevelCurveIsOverallCurve | convex/analysis.ts:67-131 | Level 1 has offset 0. For Gabor-Granger its curve equals the overall curve; for Van Westendorp its data, optimum, range and metrics all equal the overall ones. |
| JsRecords.Set | src/components/VariableMapping.tsx:166-170 | Spread-then-set keeps the object well formed and stores the value under the key. Every other key reads as before, and the other entries keep their relative order. An existing key keeps its place in the key order. A new key adds one entry, and a new key that is not an array index goes last. |
| VariableMapping.SaveCheck | src/components/VariableMapping.tsx:36-49 | The type checks come first (four price questions, or price text and an intent key); the respondent-ID check comes after them. The save passes iff both hold. |
| VariableMapping.BlockMessage | src/components/VariableMapping.tsx:38-48 | The toast reads "Please map all required variables" exactly for a missing type mapping, and "Please map respondent ID" exactly for a missing respondent ID. |
| VariableMapping.Payload | src/components/VariableMapping.tsx:51-57 | Price points are absent iff the text is empty; otherwise there is one `Number` per comma piece, in order. `purchase` is the intent values joined by ","; the other fields are carried over. |
| VariableMapping.HandleSave | src/components/VariableMapping.tsx:36-59 | A blocked check becomes its toast; otherwise the call carries the payload and the segments. |
| VariableMapping.PurchaseListsIntentColumns | src/components/VariableMapping.tsx:56 | Splitting `purchase` on "," gives back exactly the intent values, in key order, when no column name has a comma. |
| VariableMapping.SetPricePoints | src/components/VariableMapping.tsx:148-154 | Editing the text stores it and clears every intent; nothing else changes. |
| VariableMapping.IntentKeys | src/components/VariableMapping.tsx:160-162 | There are no keys for an empty text; otherwise one trimmed key per comma piece, in order. |
| VariableMapping.KeysFromText | src/components/VariableMapping.tsx:148-171 | The screen's invariant: the intents are a well-formed object whose every key is a displayed key. In particular an empty price text has no intents. |
| VariableMapping.SetIntent | src/components/VariableMapping.tsx:164-171 | The column is stored under the trimmed piece, every other intent reads as before and keeps its relative order, an intent already stored keeps its place in the key order, and the object stays well formed. |
| VariableMapping.InitialKeysFromText | src/components/VariableMapping.tsx:20-29 | The initial state satisfies the invariant that every intent key is a displayed key. |
| VariableMapping.SetPricePointsKeysFromText | src/components/VariableMapping.tsx:148-154 | Editing the text re-establishes that invariant. |
| VariableMapping.SetIntentKeysFromText | src/components/VariableMapping.tsx:160-171 | Choosing a column for a displayed piece keeps that invariant. |
| VariableMapping.OtherEditsKeepKeysFromText | src/components/VariableMapping.tsx:76-131 | Changing the respondent-ID select or the four Van Westendorp selects keeps that invariant. |
| VariableMapping.ToggleSegment | src/components/VariableMapping.tsx:193-198 | Checking appends the variable. Unchecking removes every occurrence of it and keeps every other variable's count. |
| VariableMapping.ToggleKeepsDistinct | src/components/VariableMapping.tsx:192-198 | With the checkbox showing `includes`, the list never repeats a variable, and afterwards it holds the variable iff the box was checked. |
| VariableMapping.UncheckKeepsOrder | src/components/VariableMapping.tsx:197 | Unchecking distributes over concatenation, so the remaining variables keep their order. |
| MappingSeam.ServerAcceptsPayload | convex/analysis.ts:43-45 | The server accepts a client payload iff the text is non-empty, some intent exists, and every piece's key `str(num(piece))` is mapped. |
| MappingSeam.CanonicalPiecesAccepted | src/components/VariableMapping.tsx:36-59 | If pieces are written as their numbers print and every displayed select is chosen, a mapping past the client checks is saved, and so is the `saveMapping` call the screen makes. |
| MappingSeam.NonCanonicalPieceRejected | convex/analysis.ts:43-48 | A piece whose server key is not a displayed key makes the server refuse, with that piece's number among the missing prices. The screen still sends the call, and the server returns that refusal. |
| MappingSeam.TrailingZeroRejected | src/components/VariableMapping.tsx:55 | The text "10.0" with its select chosen passes the client but is refused with missing price 10, given the usual `Number`/`toString` results. |
| MappingSeam.IntentOrderFollowsKeys | src/components/VariableMapping.tsx:56 | For the text "30,10", `purchase` lists the column for 10 before the column for 30. |
| Results.FindSegment | src/components/Results.tsx:68-70 | Returns nothing iff no entry has the segment variable; otherwise an entry with that variable. |
| Results.FindLevel | src/components/Results.tsx:71-73 | Returns nothing iff no level has the name; otherwise a level with that name. |
| Results.CurrentView | src/components/Results.tsx:63-79 | "overall" shows the overall data, metrics and range. Otherwise the curve shown is a level of that name in the segment's entry, or nothing. |
| Results.CurrentViewIsFirstMatch | src/components/Results.tsx:67-78 | The view shown is the first level with the name in the first entry with the segment. |
| Results.CurrentViewMissing | src/components/Results.tsx:67-79 | With no such segment, or no such level in its first entry, nothing is shown. |
| Results.SegmentOptions | src/components/Results.tsx:499 | "overall", then every stored segment variable in order. |
| Results.LevelOptions | src/components/Results.tsx:500-502 | None for "overall" or an unknown segment; otherwise the first entry's level names. |
| Results.LevelOptionsShowCurves | src/components/Results.tsx:559-566 | Every offered level leads to a curve on screen. |
| Results.SegmentOptionsHaveLevels | src/components/Results.tsx:499-502 | Every stored segment is offered, and its level options are its level names. |
| Results.CsvHeader | src/components/Results.tsx:455-457 | The header has five fields for Van Westendorp and three otherwise, starting with "Price". |
| Results.RowFields | src/components/Results.tsx:459-465 | A row is the price followed by every value. |
| Results.CsvRows | src/components/Results.tsx:459-465 | One line per point, in order, each the point's fields joined by ",". When numbers print without commas and newlines, a line has no newline and splits on "," back into its point's fields. |
| Results.CsvContent | src/components/Results.tsx:467 | When numbers print without commas and newlines, the content splits on newlines into exactly the header line followed by the row lines. |
| Results.CsvFileName | src/components/Results.tsx:474 | The name starts with "pricing-analysis-" and ends with ".csv". The segment follows the prefix; a selected level follows it after a "-", and without a level the extension follows the segment directly. |
| Results.CsvFileNamesDistinct | src/components/Results.tsx:474 | When no segment variable contains "-", two selections with the same file name have the same segment and the same level. |
| Results.ExportCsv | src/components/Results.tsx:451-474 | Nothing is exported iff no curve is shown; otherwise the file name and the content of the shown curve. |
| Results.CsvFields | src/components/Results.tsx:455-467 | The content has data length + 1 lines; the header line splits into the header fields and line i + 1 into the fields of point i. |
| Results.PeakFold | src/components/Results.tsx:172-173 | The max-fold result is NaN iff a point lacks the series. Otherwise it is at least the start value and every value, and it is 0 or one of the values. |
| Results.Peak | src/components/Results.tsx:715 | The fold from 0 is at least 0 and at least every value, and it is 0 or attained by some point. |
| Results.PeakIntent | src/components/Results.tsx:715 | The peak intent is missing exactly when a point has no intent. Otherwise it is at least 0 and every intent, and it is 0 or some point's intent. |
| Results.PeakIntentAtFirstPrice | src/components/Results.tsx:715 | On a Gabor-Granger curve with a non-negative first intent, the peak intent is the intent at the first price, 0.9 + offset. |
| Results.PeakRevenue | src/components/Results.tsx:730 | The peak revenue is missing exactly when a point has no revenue. Otherwise it is at least 0 and every revenue, and it is 0 or some point's revenue. |
| Results.PeakRevenueAtOptimum | src/components/Results.tsx:730 | When the optimum's revenue is not negative, the peak revenue shown equals the revenue at the stored first-maximum index. |
| Results.Selection.constructor | src/components/Results.tsx:51-52 | The screen opens on "overall" with no level. |
| Results.Selection.ChangeSegment | src/components/Results.tsx:541-544 | A segment change stores the segment and clears the level. |
| Results.Selection.ChangeLevel | src/components/Results.tsx:560 | A level change stores the level and keeps the segment. |
| Results.Selection.Current | src/components/Results.tsx:63-79 | "overall" always shows a curve. Another segment shows one exactly when it is stored and its first entry has a level with the selected name. |
| Results.AfterSegmentChange | src/components/Results.tsx:541-544 | After a segment change, a curve is shown iff the segment is "overall" or its entry has a level named "". |
| Results.NamedLevelsNeedLevel | src/components/Results.tsx:71-73 | When all level names are non-empty, a segment other than "overall" with no level selected shows nothing. |
| Results.SavedRecordNeedsLevel | src/components/Results.tsx:71-73 | For a saved record (catalogue level names), choosing a segment shows nothing until a level is chosen. |
| Results.Session | src/components/Results.tsx:51-79 | Opening the screen, changing the segment, then choosing an offered level shows that level's curve. |
| ProjectWizard.Wizard.constructor | src/components/ProjectWizard.tsx:13-19 | The wizard starts at step 0 with no project id and analysis type "van_westendorp". |
| ProjectWizard.Wizard.Current | src/components/ProjectWizard.tsx:115-133 | Step 0 shows the form. Steps 1 to 3 need a project id and get the stored id; under `Valid` the screen is never blank. |
| ProjectWizard.Wizard.Highlighted | src/components/ProjectWizard.tsx:47-55 | In a valid state a step title is highlighted exactly when it is the title of the screen on display. |
| ProjectWizard.Wizard.Submit | src/components/ProjectWizard.tsx:23-27 | Pressing Next on the form calls `createProject` exactly when the required name is filled in, and with the form as it stands. The press itself changes nothing. |
| ProjectWizard.Wizard.Created | src/components/ProjectWizard.tsx:26-31 | A creation that returns an id stores it, replacing any earlier one, and moves to step 1 from whatever step the wizard is at. A failed creation changes nothing. |
| ProjectWizard.Wizard.UploadComplete | src/components/ProjectWizard.tsx:118 | The finished upload moves the wizard to step 2 from whatever step it is at, keeping the id and the form. |
| ProjectWizard.Wizard.UploadBack | src/components/ProjectWizard.tsx:119 | Step 1 moves back to step 0 and keeps the id. |
| ProjectWizard.Wizard.MappingComplete | src/components/ProjectWizard.tsx:126 | The finished save moves the wizard to step 3 from whatever step it is at, keeping the id and the form. |
| ProjectWizard.Wizard.MappingBack | src/components/ProjectWizard.tsx:127 | Step 2 moves back to step 1. |
| ProjectWizard.Wizard.ResultsBack | src/components/ProjectWizard.tsx:132 | Step 3 moves back to step 2. |
| ProjectWizard.Wizard.SetName | src/components/ProjectWizard.tsx:69-71 | Only the name changes. |
| ProjectWizard.Wizard.SetDescription | src/components/ProjectWizard.tsx:81-83 | Only the description changes. |
| ProjectWizard.Wizard.SetAnalysisType | src/components/ProjectWizard.tsx:95-97 | Only the analysis type changes. |
| ProjectWizard.Walkthrough | src/components/ProjectWizard.tsx:115-133 | Creating, uploading and mapping reaches the results screen of the new project, with the form data it was created from. |
| ProjectWizard.DoubleSubmit | src/components/ProjectWizard.tsx:23-32 | Pressing Next twice sends two creations of the same form. If the second returns after the first project's upload has finished, the wizard shows the upload step of the second project. |
| ProjectWizard.BackDuringUpload | src/components/ProjectWizard.tsx:115-121 | Going back to the form while the upload is in flight, and then the upload finishing, shows the mapping screen of the created project. |

## Left out

- Database reads and writes are not modelled: the `analysisSettings` and `results` inserts, the latest-record query of `getResults`, and `getSettings`. Authentication and the project lookup are not modelled either. `saveMapping` is modelled from the point where the project's analysis type is known.
- Analysis.SaveMapping: the mutation runs as one transaction, so a save that fails at the results insert (`IncompleteRecord`) stores neither its settings nor its results. The model has no database, and its `Failure` result stands for that stored-nothing outcome.
- Analysis.ErrorMessage: the text of the storage schema's refusal (`IncompleteRecord`) comes from the database, not from the code; the model uses a fixed stand-in text.
- Analysis.SaveMapping: for a type other than "van_westendorp" or "gabor_granger" with no price points, the source builds a record without an optimal price, which the storage schema refuses. The model returns `IncompleteRecord` rather than modelling the schema.
- File upload and CSV parsing (src/components/FileUpload.tsx, convex/files.ts), `App.tsx`, `ProjectList.tsx` and convex/projects.ts are I/O plumbing, rendering or thin CRUD. They are not part of this model.
- PPTX and PNG export, chart rendering, DOM download links and toasts are not modelled. Toasts appear only as the `SaveBlock` values and their messages.
- Floating point is not modelled. Prices and curve values are exact `real`s, so the 0.1 offsets and 0.9 − 0.1·index intents carry no rounding, and `toFixed` formatting is left out.
- `Number` and number-to-string are parameters, not models of JavaScript's conversions. NaN from a non-numeric piece is not distinguished from other numbers.
- Results.PeakFold: a missing series value (`undefined`, which turns `Math.max` into NaN) is modelled as `None`. A NaN stored in the data itself is not modelled.
- Analysis.SegmentLevels: a segment named after an `Object.prototype` property, such as "constructor", makes the source's catalogue lookup return a function, and the `map` over it throws. The model gives such a segment no levels.
- ProjectWizard.Wizard.Submit: the `createProject` mutation is not modelled. `Submit` yields the request it is called with, and its outcome is the `created` parameter of `Created`. Project ids are modelled as non-empty strings, as the database issues them. The close button, `onClose`, is not modelled either.
- Strings are sequences of Unicode code points, while JavaScript strings are UTF-16 code units. `split(",")` and `trim` give the same pieces either way.
- The React rendering of the mapping screen is not modelled. The column choices are limited to the uploaded file's variables, and the model accepts any string as a column.
