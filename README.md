# GreenIT-Analysis devtools panel: the measurement accumulator

This project models the bookkeeping core of the GreenIT-Analysis devtools panel
(`script/greenpanel.js`). Each analysis run gets one mutable `measures` record.
Independent handlers then fill it in:

- **Launch.** A click within 1000 ms of the previous launch is ignored.
  Otherwise the run's start time is recorded and a fresh record is built: every
  counter 0, EcoIndex 100, grade `A`.
- **Frame reports.** A report stamped before the current run is dropped.
  Otherwise five counters add up the frame's values and four keep the largest
  value any frame reported. The frame's inline script is parsed, and the
  EcoIndex and grade are recomputed.
- **Network pass.** The HAR callback sets the request count. It totals the
  transferred and uncompressed sizes, and counts static resources (with the
  cached and ETag-bearing ones), compressible resources (with the compressed
  ones) and distinct domains.
- **Resource contents.** Scripts, except the panel's own injected
  `script/analyseFrame.js`, are parsed for syntax errors and checked for
  minification. Style sheets are checked for minification. Each check updates
  a total, a minified count and a percentage.

Layout:

- `measures_model.dfy` (module `MeasuresModel`): the record as the datatype
  `Measures`, the inputs (frame report, HAR entry, resource), and `Externals`.
  `Externals` holds the helpers the panel calls but does not define: the
  resource classifiers, `getDomainFromUrl`, `isMinified`, `calculEcoIndex`,
  `getEcoIndexGrade` and the esprima parse (an abstract `Errors(k)` or
  `Throws`). This file also holds
  `WellFormed`, the invariant every handler keeps.
- `code_quality.dfy` (module `CodeQuality`): the syntax-error count, the
  minification counters and the routing of fetched resources.
- `frame_aggregation.dfy` (module `FrameAggregation`): the merge of one frame
  report and the lemmas about sequences of reports.
- `network_measure.dfy` (module `NetworkMeasure`): the HAR pass. It has a
  closed form with sums and counts, and the de-duplicated domain list.
- `greenpanel.dfy` (module `GreenPanel`): the two classes. `Panel` holds the
  module state (`lastAnalyseStartingTime` and the current
  `measuresAcquisition`). `MeasuresAcquisition` holds the `measures` record
  and one method per handler. Each method is proved to leave the record equal
  to the matching function of the old record. The lemmas about those functions
  carry the properties.

Two points of the code are easy to misread; the model follows the code:

- The EcoIndex and grade are recomputed only when a frame report is merged
  (lines 56-57). The network pass does not refresh them.
- The network pass adds the sizes and the classification counts to what the
  record already holds. Only `nbRequest` and `domainsNumber` are overwritten.

## Model

| member | source | states |
|---|---|---|
| MeasuresModel.InitialMeasures | script/greenpanel.js:158-186 | the record `initializeMeasures` builds, field by field; InitialIsWellFormed states its properties |
| MeasuresModel.InitialIsWellFormed | script/greenpanel.js:157-186 | the fresh record has EcoIndex 100 and grade A and satisfies the record invariant |
| MeasuresModel.Percent | script/greenpanel.js:286 | the minified percentage times the total equals minified times 100, and lies in [0, 100] when minified does not exceed total |
| MeasuresModel.PercentagesInRange | script/greenpanel.js:279-302 | in a well-formed record both minified percentages lie in [0, 100] |
| CodeQuality.Includes | script/greenpanel.js:270 | JavaScript's `String.prototype.includes` on the resource URL; InjectedScriptExcluded states its property |
| CodeQuality.AfterJsCode | script/greenpanel.js:133-146 | the record after `analyseJsCode`; JsCodeCountsErrors states its effect |
| CodeQuality.AfterMinifiedJs | script/greenpanel.js:279-289 | the record after `analyseMinifiedJs`; MinifiedJsCounts states its effect |
| CodeQuality.AfterMinifiedCss | script/greenpanel.js:292-302 | the record after `analyseMinifiedCss`; MinifiedCssCounts states its effect |
| CodeQuality.AfterResource | script/greenpanel.js:267-275 | the record after `analyseJs` on a fetched resource; ResourceRouting states its effect |
| CodeQuality.JsErrorIncrement | script/greenpanel.js:133-146 | the count as written: a throwing parse counts exactly 1; a parse reporting k errors counts between k and k+1 (k+1 only through the line-140 message); nothing is counted exactly when no error is reported; without debug evaluation it equals the intended count |
| CodeQuality.IntendedJsErrorIncrement | script/greenpanel.js:135-146 | the intended count is the number of reported errors, or 1 for a throwing parse |
| CodeQuality.TypoCountsSpuriousError | script/greenpanel.js:138-145 | one reported error counts 2 when debug evaluates the message, where 1 is intended |
| CodeQuality.JsCodeCountsErrors | script/greenpanel.js:133-146 | analysing a script adds exactly its reported error count, or 1 for a throw, and changes no other field |
| CodeQuality.MinifiedJsCounts | script/greenpanel.js:279-289 | the script total grows by 1; the minified count grows by 1 exactly when isMinified holds, else stays; the percentage is minified/total*100 in [0, 100]; every other field is unchanged; the invariant is kept |
| CodeQuality.MinifiedCssCounts | script/greenpanel.js:292-302 | the style-sheet total grows by 1; the minified count grows by 1 exactly when isMinified holds, else stays; the percentage is minified/total*100 in [0, 100]; every other field is unchanged; the invariant is kept |
| CodeQuality.ResourceRouting | script/greenpanel.js:267-275 | the injected frame script and non-script, non-style-sheet resources leave the record unchanged; another script adds 1 to the script total, 1 to the minified count exactly when isMinified holds, sets the percentage to minified/total*100 and adds its error count, changing nothing else; a style sheet does the same to the three style-sheet fields only; the invariant is kept |
| CodeQuality.InjectedScriptExcluded | script/greenpanel.js:269-270 | any URL containing `script/analyseFrame.js` is recognised as the injected script |
| FrameAggregation.HighWater | script/greenpanel.js:60-69 | the conditional assignment yields a value at least the old and the reported value, and equal to one of them |
| FrameAggregation.RoundKilo | script/greenpanel.js:56 | `Math.round(n / 1000)` is the integer r with 1000r - 500 <= n < 1000r + 500 |
| FrameAggregation.MergeFrame | script/greenpanel.js:53-69 | the record after an accepted frame report; MergeFramePolicy, MergeFrameCommutes and MergeFramesTotals state its properties |
| FrameAggregation.MergeFramePolicy | script/greenpanel.js:53-69 | an accepted frame adds its value to each summed counter and raises each high-water counter to max(old, frame); network and resource fields are untouched; EcoIndex and grade are recomputed from the merged DOM size, request count and rounded size; the inline script's parse count is added |
| FrameAggregation.MergeFrameEnriches | script/greenpanel.js:53-69 | a merge keeps the record invariant and never lowers a frame counter or the error count |
| FrameAggregation.MergeFrameCommutes | script/greenpanel.js:45-69 | two frame reports give the same record in either order of arrival |
| FrameAggregation.MergeFrameMaxIdempotent | script/greenpanel.js:60-69 | merging the same report again leaves every high-water counter unchanged |
| FrameAggregation.MergeFramesTotals | script/greenpanel.js:45-69 | over a run's reports each summed counter ends at its start plus the sum of the frames' values, and each high-water counter ends at the maximum of its start and all frames' values |
| FrameAggregation.TwoFramesDomSize | script/greenpanel.js:55 | reports with DOM sizes 500 and 300 give 800 |
| NetworkMeasure.AddEntry | script/greenpanel.js:205-229 | the record after one HAR entry is counted; AddEntriesTotals states the effect of counting all entries |
| NetworkMeasure.Dedup | script/greenpanel.js:230-234 | the domain list built by pushing each domain `indexOf` does not find; DedupSpec and DedupCountsDistinct state its properties |
| NetworkMeasure.NetworkPass | script/greenpanel.js:197-236 | the record after the HAR callback; NetworkPassTotals, NetworkPassSubCounts and NetworkPassKeepsWellFormed state its properties |
| NetworkMeasure.DomainsOf | script/greenpanel.js:230 | one domain is extracted per entry |
| NetworkMeasure.CountBothAtMostCount | script/greenpanel.js:207-229 | a sub-count (cached, ETag, compressed) never exceeds the count of its parent class |
| NetworkMeasure.DedupSpec | script/greenpanel.js:230-234 | the push-if-indexOf-is-minus-one list is no longer than the input, holds exactly the input's elements and repeats none |
| NetworkMeasure.DedupCountsDistinct | script/greenpanel.js:230-236 | the de-duplicated list's length is the number of distinct elements, at most the input length |
| NetworkMeasure.DomainsOfElements | script/greenpanel.js:230-234 | the extracted domains are exactly the entries' distinct domains |
| NetworkMeasure.AddEntriesTotals | script/greenpanel.js:203-229 | counting entry by entry reaches the closed form: summed sizes and per-class counts, other fields unchanged |
| NetworkMeasure.NetworkPassTotals | script/greenpanel.js:197-236 | zero entries change nothing; otherwise nbRequest is set to the entry count, sizes grow by their sums, each class counter by its count, domainsNumber becomes the number of distinct domains and no other field changes |
| NetworkMeasure.NetworkPassSubCounts | script/greenpanel.js:207-236 | in one pass the cached and ETag increases are at most the static increase, the compressed increase at most the compressible increase, and distinct domains at most the entry count, which is nbRequest |
| NetworkMeasure.NetworkPassKeepsWellFormed | script/greenpanel.js:201-236 | the network pass keeps the record invariant |
| GreenPanel.MeasuresAcquisition.constructor | script/greenpanel.js:121-122 | a new acquisition holds the initial record |
| GreenPanel.MeasuresAcquisition.InitializeMeasures | script/greenpanel.js:157-187 | the record becomes the initial one: every counter 0, EcoIndex 100, grade A |
| GreenPanel.MeasuresAcquisition.AnalyseJsCode | script/greenpanel.js:133-146 | the record afterwards is the old one with the parse's count added to jsErrorsNumber |
| GreenPanel.MeasuresAcquisition.AnalyseMinifiedJs | script/greenpanel.js:279-289 | the script total, minified count and percentage are updated as MinifiedJsCounts states; the invariant is kept |
| GreenPanel.MeasuresAcquisition.AnalyseMinifiedCss | script/greenpanel.js:292-302 | the same for style sheets |
| GreenPanel.MeasuresAcquisition.AnalyseResource | script/greenpanel.js:262-276 | the record is updated as ResourceRouting states; the invariant is kept |
| GreenPanel.MeasuresAcquisition.MergeFrameMeasures | script/greenpanel.js:53-69 | the record afterwards is the merge of the old record with the frame, so MergeFramePolicy holds of it |
| GreenPanel.MeasuresAcquisition.CountEntry | script/greenpanel.js:205-229 | one entry's sizes are added and its classification counters bumped |
| GreenPanel.MeasuresAcquisition.GetNetworkMeasure | script/greenpanel.js:197-245 | the loop leaves the record equal to the network pass of the old record, so NetworkPassTotals and NetworkPassSubCounts hold of it; the invariant is kept |
| GreenPanel.Panel.constructor | script/greenpanel.js:24-25 | before any launch the run time is 0 and there is no acquisition |
| GreenPanel.Panel.IsOldAnalyse | script/greenpanel.js:87 | a report is old exactly when it is stamped strictly before the current run started; AggregateFrameMeasures states what an old report does |
| GreenPanel.Panel.LaunchAnalyse | script/greenpanel.js:110-122 | a launch within 1000 ms of the last one changes nothing; otherwise the run time becomes `now` and a fresh acquisition holds the initial record |
| GreenPanel.Panel.AggregateFrameMeasures | script/greenpanel.js:45-69 | a report stamped strictly before the current run is dropped and changes nothing (`isOldAnalyse`, line 87), one with an equal or later stamp is merged as MergeFrame states; before any launch an accepted report reaches no record |
| GreenPanel.DoubleClickScenario | script/greenpanel.js:110-118 | a second launch 500 ms after the first is ignored |
| GreenPanel.StaleAndSummedScenario | script/greenpanel.js:45-55 | a late report of a superseded run is dropped, and two reports of the current run with DOM sizes 500 and 300 leave 800 |

## Left out

- User interface: `refreshUI`, `showEcoRuleOnUI`, `initPanel` and the click wiring (lines 27-32, 89-108) only present results.
- Rules: `Rules` and every `checkRule` call (lines 72-80, 147, 237-241, 287, 300) are not part of this model. The rule catalog is not defined in this file.
- Transport: `chrome.runtime.connect`, `postMessage`, `startMeasuring`, `getHAR`, `getResources` and `getContent` (lines 34-43, 125-129, 189-192, 198, 248-257, 265) are left out. Each callback body is a method that takes its data as an argument. The type filter in `getResourcesMeasure` (line 251) is not modelled separately, because `analyseJs` repeats it.
- Asynchrony: each handler is one atomic method call. A late callback of a superseded run can only reach its own acquisition object, as in the source.
- External helpers: the classifiers, `getDomainFromUrl`, `isMinified`, `calculEcoIndex`, `getEcoIndexGrade` and esprima are fields of `Externals` with no formula. The EcoIndex formula, the grade bands and the minification threshold are not in this file, so their properties are not stated.
- Esprima: a parse result without an `errors` list (line 137) is not modelled. In tolerant mode the list is always present.
- Logging: `debug` and `logFrameMeasures` are left out, because they only write to the console. The one exception is the line-140 message: `CodeQuality.JsErrorIncrement` takes whether `debug` evaluates it as a parameter (see Findings).
- Before any launch, `aggregateFrameMeasures` throws a TypeError on the undefined `measuresAcquisition` (line 53). The model returns the verdict `NoRun` and changes nothing.
- Floating point: the percentages and the EcoIndex are exact reals, so JavaScript's float rounding of `minified / total * 100` is not modelled. Byte sizes are integers, so HAR entries with missing sizes (which give NaN) are not modelled.
- GreenPanel.MeasuresAcquisition: the record is one field holding a value, updated field by field. The source also reaches the record through aliases: `aggregateFrameMeasures` gets it from `getMeasures()` (line 53) and writes to it (lines 55-69), and `analyseJsCode` writes to the record it is passed (lines 139, 144). No behaviour is lost, because each alias is the current acquisition's own record, and every such write is a `MeasuresAcquisition` method here.

## Findings

| source | as written | input that shows it | evidently intended | confidence | as-written member | corrected member |
|---|---|---|---|---|---|---|
| script/greenpanel.js:140 | After adding k > 0 errors, the debug message reads `Syntax.errors.length`, but only `syntax` exists. If `debug` evaluates the message, which the `DEBUG = true` flag at line 10 suggests, the ReferenceError is caught at lines 143-144 and one more error is counted. | a script whose tolerant parse reports 1 syntax error, with debug messages evaluated: `jsErrorsNumber` grows by 2 (`CodeQuality.TypoCountsSpuriousError`) | grows by the number of reported errors (1) | medium, not executed; depends on `debug`, which is not part of this model | CodeQuality.JsErrorIncrement | CodeQuality.IntendedJsErrorIncrement |

The handlers, the frame merge and the resource routing all count with `IntendedJsErrorIncrement`. The contract of `JsErrorIncrement` proves that the two counts agree whenever `debug` does not evaluate its message, and differ by at most one otherwise.
