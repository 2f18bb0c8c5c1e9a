/** The code-quality counters: syntax errors found by the parser, and the
    totals, minified counts and percentages of scripts and style sheets. */
module CodeQuality {
  import opened MeasuresModel

  /** URL fragment of the panel's own injected frame script. */
  const InjectedScript: string := "script/analyseFrame.js"

  /** JavaScript's `String.prototype.includes`. */
  predicate Includes(s: string, part: string)
    decreases |s|
  {
    part <= s || (|s| > 0 && Includes(s[1..], part))
  }

  /** How much `analyseJsCode` adds to `jsErrorsNumber`, as written. A parse
      that throws counts 1. A parse reporting `k > 0` errors counts `k`, and
      then the log message names an undefined `Syntax`; when `debug`
      evaluates that message the ReferenceError lands in the same catch,
      which counts 1 more. */
  function JsErrorIncrement(outcome: ParseOutcome, debugRunsThunks: bool): (n: nat)
    ensures outcome.Throws? ==> n == 1
    ensures outcome.Errors? ==> outcome.count <= n <= outcome.count + 1
    ensures n == 0 <==> outcome == Errors(0)
    ensures !debugRunsThunks ==> n == IntendedJsErrorIncrement(outcome)
  {
    match outcome
    case Throws => 1
    case Errors(k) => if k > 0 then k + (if debugRunsThunks then 1 else 0) else 0
  }

  /** The evidently intended count: the parser's error list, or one defect
      for a parse that throws. */
  function IntendedJsErrorIncrement(outcome: ParseOutcome): (n: nat)
    ensures outcome.Throws? ==> n == 1
    ensures outcome.Errors? ==> n == outcome.count
  {
    match outcome
    case Throws => 1
    case Errors(k) => k
  }

  /** A script with one reported syntax error counts twice when `debug`
      evaluates its message. */
  lemma TypoCountsSpuriousError()
    ensures JsErrorIncrement(Errors(1), true) == 2
    ensures IntendedJsErrorIncrement(Errors(1)) == 1
  {
  }

  /** The record after `analyseJsCode` on `code`, with the intended count. */
  function AfterJsCode(s: Measures, code: string, ext: Externals): Measures
  {
    s.(jsErrorsNumber := s.jsErrorsNumber + IntendedJsErrorIncrement(ext.parse(code)))
  }

  /** The record after `analyseMinifiedJs` on `code`. */
  function AfterMinifiedJs(s: Measures, code: string, ext: Externals): Measures
  {
    var total := s.totalJs + 1;
    var minified := s.minifiedJsNumber + (if ext.isMinified(code) then 1 else 0);
    s.(totalJs := total, minifiedJsNumber := minified, percentMinifiedJs := Percent(minified, total))
  }

  /** The record after `analyseMinifiedCss` on `code`. */
  function AfterMinifiedCss(s: Measures, code: string, ext: Externals): Measures
  {
    var total := s.totalCss + 1;
    var minified := s.minifiedCssNumber + (if ext.isMinified(code) then 1 else 0);
    s.(totalCss := total, minifiedCssNumber := minified, percentMinifiedCss := Percent(minified, total))
  }

  /** The record after a resource's content has been analysed: scripts other
      than the injected one are parsed and checked for minification, style
      sheets are checked for minification, anything else is ignored. */
  function AfterResource(s: Measures, resource: Resource, code: string, ext: Externals): Measures
  {
    match resource.kind
    case Script =>
      if Includes(resource.url, InjectedScript) then s
      else AfterMinifiedJs(AfterJsCode(s, code, ext), code, ext)
    case Stylesheet => AfterMinifiedCss(s, code, ext)
    case OtherType(_) => s
  }

  /** Analysing one script's code adds the number of reported errors to the
      error counter, or exactly one for a throw, and changes nothing else. */
  lemma JsCodeCountsErrors(s: Measures, code: string, ext: Externals)
    ensures var r := AfterJsCode(s, code, ext);
      && r.jsErrorsNumber >= s.jsErrorsNumber
      && (ext.parse(code).Errors? ==> r.jsErrorsNumber == s.jsErrorsNumber + ext.parse(code).count)
      && (ext.parse(code).Throws? ==> r.jsErrorsNumber == s.jsErrorsNumber + 1)
      && r.(jsErrorsNumber := s.jsErrorsNumber) == s
  {
  }

  /** Each analysed script adds one to the total and one to the minified count
      exactly when the heuristic says minified; the percentage is the
      minified share of the new total. */
  lemma MinifiedJsCounts(s: Measures, code: string, ext: Externals)
    requires WellFormed(s)
    ensures var r := AfterMinifiedJs(s, code, ext);
      && r.totalJs == s.totalJs + 1
      && (r.minifiedJsNumber == s.minifiedJsNumber + 1 <==> ext.isMinified(code))
      && (r.minifiedJsNumber == s.minifiedJsNumber <==> !ext.isMinified(code))
      && r.percentMinifiedJs * (r.totalJs as real) == (r.minifiedJsNumber as real) * 100.0
      && 0.0 <= r.percentMinifiedJs <= 100.0
      && r.(totalJs := s.totalJs, minifiedJsNumber := s.minifiedJsNumber,
            percentMinifiedJs := s.percentMinifiedJs) == s
      && WellFormed(r)
  {
  }

  /** The style-sheet counterpart of MinifiedJsCounts. */
  lemma MinifiedCssCounts(s: Measures, code: string, ext: Externals)
    requires WellFormed(s)
    ensures var r := AfterMinifiedCss(s, code, ext);
      && r.totalCss == s.totalCss + 1
      && (r.minifiedCssNumber == s.minifiedCssNumber + 1 <==> ext.isMinified(code))
      && (r.minifiedCssNumber == s.minifiedCssNumber <==> !ext.isMinified(code))
      && r.percentMinifiedCss * (r.totalCss as real) == (r.minifiedCssNumber as real) * 100.0
      && 0.0 <= r.percentMinifiedCss <= 100.0
      && r.(totalCss := s.totalCss, minifiedCssNumber := s.minifiedCssNumber,
            percentMinifiedCss := s.percentMinifiedCss) == s
      && WellFormed(r)
  {
  }

  /** Routing of a fetched resource: the injected script and resources of any
      other type leave the record as it was; another script updates the
      script counters as MinifiedJsCounts states and the error count, and
      nothing else; a style sheet updates the style-sheet counters only; the
      record stays well formed. */
  lemma ResourceRouting(s: Measures, resource: Resource, code: string, ext: Externals)
    requires WellFormed(s)
    ensures var r := AfterResource(s, resource, code, ext);
      && WellFormed(r)
      && (resource.kind.OtherType? ==> r == s)
      && (resource.kind.Script? && Includes(resource.url, InjectedScript) ==> r == s)
      && (resource.kind.Script? && !Includes(resource.url, InjectedScript) ==>
            && r.totalJs == s.totalJs + 1
            && (r.minifiedJsNumber == s.minifiedJsNumber + 1 <==> ext.isMinified(code))
            && (r.minifiedJsNumber == s.minifiedJsNumber <==> !ext.isMinified(code))
            && r.percentMinifiedJs * (r.totalJs as real) == (r.minifiedJsNumber as real) * 100.0
            && r.jsErrorsNumber == s.jsErrorsNumber + IntendedJsErrorIncrement(ext.parse(code))
            && r.(totalJs := s.totalJs, minifiedJsNumber := s.minifiedJsNumber,
                  percentMinifiedJs := s.percentMinifiedJs, jsErrorsNumber := s.jsErrorsNumber) == s)
      && (resource.kind.Stylesheet? ==>
            && r.totalCss == s.totalCss + 1
            && (r.minifiedCssNumber == s.minifiedCssNumber + 1 <==> ext.isMinified(code))
            && (r.minifiedCssNumber == s.minifiedCssNumber <==> !ext.isMinified(code))
            && r.percentMinifiedCss * (r.totalCss as real) == (r.minifiedCssNumber as real) * 100.0
            && r.(totalCss := s.totalCss, minifiedCssNumber := s.minifiedCssNumber,
                  percentMinifiedCss := s.percentMinifiedCss) == s)
  {
    match resource.kind
    case Script =>
      if !Includes(resource.url, InjectedScript) {
        MinifiedJsCounts(AfterJsCode(s, code, ext), code, ext);
      }
    case Stylesheet =>
      MinifiedCssCounts(s, code, ext);
    case OtherType(_) =>
  }

  /** The injected frame script is recognised wherever it is served from. */
  lemma {:induction false} InjectedScriptExcluded(prefix: string, suffix: string)
    ensures Includes(prefix + InjectedScript + suffix, InjectedScript)
  {
    var url := prefix + InjectedScript + suffix;
    if prefix == [] {
      assert url == InjectedScript + suffix;
    } else {
      InjectedScriptExcluded(prefix[1..], suffix);
      assert url[1..] == prefix[1..] + InjectedScript + suffix;
    }
  }
}
