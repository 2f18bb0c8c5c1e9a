/** The measurement record of one analysis run and the inputs that feed it.
    Counters are `nat`; byte sizes stay `int` because they are copied from the
    HAR without a check; the score and the two percentages are JavaScript
    numbers, modelled as `real`. */
module MeasuresModel {

  /** Outcome of the tolerant esprima parse of a script: a list of `count`
      reported syntax errors, or an exception. */
  datatype ParseOutcome = Errors(count: nat) | Throws

  /** One per-frame report sent by the injected frame script. */
  datatype FrameMeasures = FrameMeasures(
    analyseStartingTime: int,
    url: string,
    domSize: nat,
    pluginsNumber: nat,
    styleSheetsNumber: nat,
    printStyleSheetsNumber: nat,
    inlineStyleSheetsNumber: nat,
    emptySrcTagNumber: nat,
    inlineJsScript: string,
    inlineJsScriptsNumber: nat,
    imageResizedInBrowserNumber: nat,
    cssFontFaceRuleNumber: nat)

  datatype Header = Header(name: string, value: string)

  /** The parts of a HAR entry the accumulator reads itself; the classifiers
      may look at any of them. */
  datatype HarEntry = HarEntry(
    url: string,
    transferSize: int,
    contentSize: int,
    mimeType: string,
    responseHeaders: seq<Header>)

  datatype ResourceType = Script | Stylesheet | OtherType(name: string)

  datatype Resource = Resource(kind: ResourceType, url: string)

  /** Helpers the panel calls but does not define: the resource classifiers,
      the domain extractor, the minification heuristic, the EcoIndex scorers,
      and the esprima parser. */
  datatype Externals = Externals(
    isStaticRessource: HarEntry -> bool,
    hasValidCacheHeaders: HarEntry -> bool,
    isRessourceUsingETag: HarEntry -> bool,
    isCompressibleResource: HarEntry -> bool,
    isResourceCompressed: HarEntry -> bool,
    getDomainFromUrl: string -> string,
    isMinified: string -> bool,
    calculEcoIndex: (int, int, int) -> real,
    getEcoIndexGrade: real -> string,
    parse: string -> ParseOutcome)

  /** The value of the `measures` record, field for field. */
  datatype Measures = Measures(
    domSize: nat,
    nbRequest: nat,
    responsesSize: int,
    responsesSizeUncompress: int,
    ecoIndex: real,
    grade: string,
    pluginsNumber: nat,
    styleSheetsNumber: nat,
    printStyleSheetsNumber: nat,
    inlineStyleSheetsNumber: nat,
    minifiedCssNumber: nat,
    totalCss: nat,
    percentMinifiedCss: real,
    emptySrcTagNumber: nat,
    jsErrorsNumber: nat,
    inlineJsScriptsNumber: nat,
    minifiedJsNumber: nat,
    totalJs: nat,
    percentMinifiedJs: real,
    domainsNumber: nat,
    staticResourcesNumber: nat,
    staticResourcesNumberWithCacheHeaders: nat,
    staticResourcesNumberWithETags: nat,
    compressibleResourcesNumber: nat,
    compressibleResourcesNumberCompressed: nat,
    imageResizedInBrowserNumber: nat,
    cssFontFaceRuleNumber: nat)

  /** The record `initializeMeasures` builds: every counter 0, score 100, grade A. */
  function InitialMeasures(): Measures
  {
    Measures(
      domSize := 0, nbRequest := 0, responsesSize := 0, responsesSizeUncompress := 0,
      ecoIndex := 100.0, grade := "A",
      pluginsNumber := 0, styleSheetsNumber := 0, printStyleSheetsNumber := 0, inlineStyleSheetsNumber := 0,
      minifiedCssNumber := 0, totalCss := 0, percentMinifiedCss := 0.0,
      emptySrcTagNumber := 0, jsErrorsNumber := 0, inlineJsScriptsNumber := 0,
      minifiedJsNumber := 0, totalJs := 0, percentMinifiedJs := 0.0,
      domainsNumber := 0, staticResourcesNumber := 0,
      staticResourcesNumberWithCacheHeaders := 0, staticResourcesNumberWithETags := 0,
      compressibleResourcesNumber := 0, compressibleResourcesNumberCompressed := 0,
      imageResizedInBrowserNumber := 0, cssFontFaceRuleNumber := 0)
  }

  /** `minified / total * 100`, the share of minified resources in percent. */
  function Percent(minified: nat, total: nat): (p: real)
    requires total > 0
    ensures p * (total as real) == (minified as real) * 100.0
    ensures minified <= total ==> 0.0 <= p <= 100.0
  {
    var q := (minified as real) / (total as real);
    assert q * (total as real) == minified as real;
    assert minified <= total ==> q <= 1.0;
    q * 100.0
  }

  /** What every handler keeps true of the record: each sub-count stays within
      its parent count, distinct domains within requests, minified within
      total, and each percentage agrees with its two counters. */
  predicate WellFormed(s: Measures)
  {
    && s.staticResourcesNumberWithCacheHeaders <= s.staticResourcesNumber
    && s.staticResourcesNumberWithETags <= s.staticResourcesNumber
    && s.compressibleResourcesNumberCompressed <= s.compressibleResourcesNumber
    && s.domainsNumber <= s.nbRequest
    && s.minifiedJsNumber <= s.totalJs
    && s.minifiedCssNumber <= s.totalCss
    && s.percentMinifiedJs == (if s.totalJs == 0 then 0.0 else Percent(s.minifiedJsNumber, s.totalJs))
    && s.percentMinifiedCss == (if s.totalCss == 0 then 0.0 else Percent(s.minifiedCssNumber, s.totalCss))
  }

  lemma InitialIsWellFormed()
    ensures WellFormed(InitialMeasures())
    ensures InitialMeasures().ecoIndex == 100.0 && InitialMeasures().grade == "A"
  {
  }

  /** Both percentages of a well-formed record lie in [0, 100]. */
  lemma PercentagesInRange(s: Measures)
    requires WellFormed(s)
    ensures 0.0 <= s.percentMinifiedJs <= 100.0
    ensures 0.0 <= s.percentMinifiedCss <= 100.0
  {
  }
}
