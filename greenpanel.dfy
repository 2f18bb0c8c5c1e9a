/** The devtools panel: the module-level run timestamp, the measures record
    of the current run, and the handlers that fill the record in place. */
module GreenPanel {
  import opened MeasuresModel
  import opened CodeQuality
  import opened FrameAggregation
  import opened NetworkMeasure

  /** The debounce window between two launches, in milliseconds. */
  const DebounceMs: int := 1000

  /** What became of a frame report: dropped as stale, dropped because no run
      has been launched yet (the source then fails on an undefined
      `measuresAcquisition`), or merged. */
  datatype FrameVerdict = Stale | NoRun | Merged

  /** One run's measures acquisition. Its `measures` record is a plain
      object that the handlers below update field by field. */
  class MeasuresAcquisition {
    var measures: Measures

    ghost predicate Valid()
      reads this
    {
      WellFormed(measures)
    }

    /** A new acquisition with its record initialised. */
    constructor ()
      ensures Valid() && measures == InitialMeasures()
    {
      new;
      InitializeMeasures();
    }

    /** `initializeMeasures`: every counter 0, score 100, grade A. */
    method InitializeMeasures()
      modifies this
      ensures Valid() && measures == InitialMeasures()
    {
      measures := InitialMeasures();
      InitialIsWellFormed();
    }

    /** `analyseJsCode`: adds the parse's error count to `jsErrorsNumber`
        (the intended count; see `JsErrorIncrement` for the count as written). */
    method AnalyseJsCode(code: string, ext: Externals)
      requires Valid()
      modifies this
      ensures Valid()
      ensures measures == AfterJsCode(old(measures), code, ext)
    {
      match ext.parse(code)
      case Errors(k) =>
        if k > 0 {
          measures := measures.(jsErrorsNumber := measures.jsErrorsNumber + k);
        }
      case Throws =>
        measures := measures.(jsErrorsNumber := measures.jsErrorsNumber + 1);
    }

    /** `analyseMinifiedJs`: counts the script, counts it as minified when the
        heuristic says so, and recomputes the percentage. */
    method AnalyseMinifiedJs(code: string, ext: Externals)
      requires Valid()
      modifies this
      ensures Valid()
      ensures measures == AfterMinifiedJs(old(measures), code, ext)
    {
      MinifiedJsCounts(measures, code, ext);
      measures := measures.(totalJs := measures.totalJs + 1);
      if ext.isMinified(code) {
        measures := measures.(minifiedJsNumber := measures.minifiedJsNumber + 1);
      }
      measures := measures.(percentMinifiedJs := Percent(measures.minifiedJsNumber, measures.totalJs));
    }

    /** `analyseMinifiedCss`: the style-sheet counterpart. */
    method AnalyseMinifiedCss(code: string, ext: Externals)
      requires Valid()
      modifies this
      ensures Valid()
      ensures measures == AfterMinifiedCss(old(measures), code, ext)
    {
      MinifiedCssCounts(measures, code, ext);
      measures := measures.(totalCss := measures.totalCss + 1);
      if ext.isMinified(code) {
        measures := measures.(minifiedCssNumber := measures.minifiedCssNumber + 1);
      }
      measures := measures.(percentMinifiedCss := Percent(measures.minifiedCssNumber, measures.totalCss));
    }

    /** `ResourceAnalyser.analyseJs`: the content callback of one resource. */
    method AnalyseResource(resource: Resource, code: string, ext: Externals)
      requires Valid()
      modifies this
      ensures Valid()
      ensures measures == AfterResource(old(measures), resource, code, ext)
    {
      if resource.kind.Script? {
        if !Includes(resource.url, InjectedScript) {
          AnalyseJsCode(code, ext);
          AnalyseMinifiedJs(code, ext);
        }
      }
      if resource.kind.Stylesheet? {
        AnalyseMinifiedCss(code, ext);
      }
    }

    /** The body of `aggregateFrameMeasures` once the report is accepted. */
    method MergeFrameMeasures(frame: FrameMeasures, ext: Externals)
      requires Valid()
      modifies this
      ensures Valid()
      ensures measures == MergeFrame(old(measures), frame, ext)
    {
      MergeFrameEnriches(measures, frame, ext);
      measures := measures.(domSize := measures.domSize + frame.domSize);
      var score := ext.calculEcoIndex(measures.domSize, measures.nbRequest, RoundKilo(measures.responsesSize));
      measures := measures.(ecoIndex := score);
      measures := measures.(grade := ext.getEcoIndexGrade(measures.ecoIndex));
      measures := measures.(pluginsNumber := measures.pluginsNumber + frame.pluginsNumber);
      measures := measures.(styleSheetsNumber := HighWater(measures.styleSheetsNumber, frame.styleSheetsNumber));
      measures := measures.(printStyleSheetsNumber := measures.printStyleSheetsNumber + frame.printStyleSheetsNumber);
      measures := measures.(inlineStyleSheetsNumber := HighWater(measures.inlineStyleSheetsNumber, frame.inlineStyleSheetsNumber));
      measures := measures.(emptySrcTagNumber := measures.emptySrcTagNumber + frame.emptySrcTagNumber);
      if |frame.inlineJsScript| > 0 {
        AnalyseJsCode(frame.inlineJsScript, ext);
      }
      measures := measures.(inlineJsScriptsNumber := HighWater(measures.inlineJsScriptsNumber, frame.inlineJsScriptsNumber));
      measures := measures.(imageResizedInBrowserNumber :=
        measures.imageResizedInBrowserNumber + frame.imageResizedInBrowserNumber);
      measures := measures.(cssFontFaceRuleNumber := HighWater(measures.cssFontFaceRuleNumber, frame.cssFontFaceRuleNumber));
    }

    /** The body of the HAR loop for one entry, up to the domain check:
        sizes are added and the classification counters bumped. */
    method CountEntry(entry: HarEntry, ext: Externals)
      modifies this
      ensures measures == AddEntry(old(measures), entry, ext)
    {
      measures := measures.(responsesSize := measures.responsesSize + entry.transferSize);
      measures := measures.(responsesSizeUncompress := measures.responsesSizeUncompress + entry.contentSize);
      if ext.isStaticRessource(entry) {
        measures := measures.(staticResourcesNumber := measures.staticResourcesNumber + 1);
        if ext.hasValidCacheHeaders(entry) {
          measures := measures.(staticResourcesNumberWithCacheHeaders :=
            measures.staticResourcesNumberWithCacheHeaders + 1);
        }
        if ext.isRessourceUsingETag(entry) {
          measures := measures.(staticResourcesNumberWithETags := measures.staticResourcesNumberWithETags + 1);
        }
      }
      if ext.isCompressibleResource(entry) {
        measures := measures.(compressibleResourcesNumber := measures.compressibleResourcesNumber + 1);
        if ext.isResourceCompressed(entry) {
          measures := measures.(compressibleResourcesNumberCompressed :=
            measures.compressibleResourcesNumberCompressed + 1);
        }
      }
    }

    /** The HAR callback of `getNetworkMeasure`: one pass over the entries,
        bumping the counters and collecting the distinct domains. */
    method GetNetworkMeasure(entries: seq<HarEntry>, ext: Externals)
      requires Valid()
      modifies this
      ensures Valid()
      ensures measures == NetworkPass(old(measures), entries, ext)
    {
      NetworkPassKeepsWellFormed(measures, entries, ext);
      var domains: seq<string> := [];
      if |entries| > 0 {
        measures := measures.(nbRequest := |entries|);
        ghost var started := measures;
        var i := 0;
        while i < |entries|
          invariant 0 <= i <= |entries|
          invariant measures == AddEntries(started, entries[..i], ext)
          invariant domains == Dedup(DomainsOf(entries[..i], ext.getDomainFromUrl))
        {
          var entry := entries[i];
          CountEntry(entry, ext);
          var domain := ext.getDomainFromUrl(entry.url);
          if domain !in domains {
            domains := domains + [domain];
          }
          AddEntriesStep(started, entries, i, ext);
          i := i + 1;
        }
        assert entries[..i] == entries;
        measures := measures.(domainsNumber := |domains|);
      }
    }
  }

  /** The panel's module state: the start time of the current run and that
      run's acquisition (none before the first launch). */
  class Panel {
    var lastAnalyseStartingTime: int
    var measuresAcquisition: MeasuresAcquisition?

    ghost predicate Valid()
      reads this, measuresAcquisition
    {
      measuresAcquisition != null ==> measuresAcquisition.Valid()
    }

    constructor ()
      ensures Valid()
      ensures lastAnalyseStartingTime == 0 && measuresAcquisition == null
    {
      lastAnalyseStartingTime := 0;
      measuresAcquisition := null;
    }

    /** `isOldAnalyse`: the report belongs to a run started before the current one. */
    predicate IsOldAnalyse(startingTime: int)
      reads this
    {
      startingTime < lastAnalyseStartingTime
    }

    /** `launchAnalyse` at time `now`: within the debounce window of the last
        launch it does nothing; otherwise it records `now` as the run's start
        and gives the run a freshly initialised record. */
    method LaunchAnalyse(now: int) returns (started: bool)
      requires Valid()
      modifies this
      ensures Valid()
      ensures started <==> now - old(lastAnalyseStartingTime) >= DebounceMs
      ensures !started ==> unchanged(this)
      ensures started ==> lastAnalyseStartingTime == now
      ensures started ==> measuresAcquisition != null && fresh(measuresAcquisition)
                          && measuresAcquisition.measures == InitialMeasures()
    {
      if now - lastAnalyseStartingTime < DebounceMs {
        return false;
      }
      lastAnalyseStartingTime := now;
      measuresAcquisition := new MeasuresAcquisition();
      started := true;
    }

    /** `aggregateFrameMeasures`: a report from an earlier run is dropped
        before it can touch the record; a report of the current run (or of a
        later one) is merged. */
    method AggregateFrameMeasures(frame: FrameMeasures, ext: Externals) returns (verdict: FrameVerdict)
      requires Valid()
      modifies measuresAcquisition
      ensures Valid()
      ensures verdict == Stale <==> frame.analyseStartingTime < lastAnalyseStartingTime
      ensures verdict == NoRun <==> !IsOldAnalyse(frame.analyseStartingTime) && measuresAcquisition == null
      ensures verdict != Merged && measuresAcquisition != null ==> unchanged(measuresAcquisition)
      ensures verdict == Merged ==>
                measuresAcquisition != null &&
                measuresAcquisition.measures == MergeFrame(old(measuresAcquisition.measures), frame, ext)
    {
      if IsOldAnalyse(frame.analyseStartingTime) {
        return Stale;
      }
      if measuresAcquisition == null {
        return NoRun;
      }
      measuresAcquisition.MergeFrameMeasures(frame, ext);
      verdict := Merged;
    }
  }

  /** A second click 500 ms after the first launch is ignored. */
  method DoubleClickScenario(now: int) returns (first: bool, second: bool)
    requires now >= DebounceMs
    ensures first && !second
  {
    var panel := new Panel();
    first := panel.LaunchAnalyse(now);
    second := panel.LaunchAnalyse(now + 500);
  }

  /** A frame report of the first run that arrives after a second launch does
      not reach the second run's record; two reports of the second run with
      DOM sizes 500 and 300 leave a DOM size of 800. */
  method StaleAndSummedScenario(now: int, ext: Externals) returns (staleVerdict: FrameVerdict, domSize: nat)
    requires now >= DebounceMs
    ensures staleVerdict == Stale && domSize == 800
  {
    var panel := new Panel();
    var first := panel.LaunchAnalyse(now);
    var second := panel.LaunchAnalyse(now + DebounceMs);
    var late := FrameMeasures(now, "late", 7000, 0, 0, 0, 0, 0, "", 0, 0, 0);
    var a := FrameMeasures(now + DebounceMs, "top", 500, 0, 0, 0, 0, 0, "", 0, 0, 0);
    var b := FrameMeasures(now + DebounceMs, "child", 300, 0, 0, 0, 0, 0, "", 0, 0, 0);
    staleVerdict := panel.AggregateFrameMeasures(late, ext);
    var va := panel.AggregateFrameMeasures(a, ext);
    var vb := panel.AggregateFrameMeasures(b, ext);
    domSize := panel.measuresAcquisition.measures.domSize;
  }
}
