/** Merging one frame's report into the record: five counters are summed
    over frames, four keep the largest value any frame reported, the inline
    script is parsed, and the score and grade are recomputed. */
module FrameAggregation {
  import opened MeasuresModel
  import opened CodeQuality

  /** The conditional assignment `if (m < f) m = f`: a high-water mark. */
  function HighWater(current: nat, reported: nat): (r: nat)
    ensures r >= current && r >= reported
    ensures r == current || r == reported
  {
    if current < reported then reported else current
  }

  /** `Math.round(n / 1000)` for an integer byte count: JavaScript rounds
      halves up, so this is the floor of `(n + 500) / 1000`. */
  function RoundKilo(n: int): (r: int)
    ensures 1000 * r - 500 <= n < 1000 * r + 500
  {
    (n + 500) / 1000
  }

  /** The record after an accepted frame report (the body of
      `aggregateFrameMeasures` past the staleness guard). */
  function MergeFrame(s: Measures, f: FrameMeasures, ext: Externals): Measures
  {
    var domSize := s.domSize + f.domSize;
    var ecoIndex := ext.calculEcoIndex(domSize, s.nbRequest, RoundKilo(s.responsesSize));
    var parsed := if |f.inlineJsScript| > 0 then AfterJsCode(s, f.inlineJsScript, ext) else s;
    parsed.(
      domSize := domSize,
      ecoIndex := ecoIndex,
      grade := ext.getEcoIndexGrade(ecoIndex),
      pluginsNumber := s.pluginsNumber + f.pluginsNumber,
      styleSheetsNumber := HighWater(s.styleSheetsNumber, f.styleSheetsNumber),
      printStyleSheetsNumber := s.printStyleSheetsNumber + f.printStyleSheetsNumber,
      inlineStyleSheetsNumber := HighWater(s.inlineStyleSheetsNumber, f.inlineStyleSheetsNumber),
      emptySrcTagNumber := s.emptySrcTagNumber + f.emptySrcTagNumber,
      inlineJsScriptsNumber := HighWater(s.inlineJsScriptsNumber, f.inlineJsScriptsNumber),
      imageResizedInBrowserNumber := s.imageResizedInBrowserNumber + f.imageResizedInBrowserNumber,
      cssFontFaceRuleNumber := HighWater(s.cssFontFaceRuleNumber, f.cssFontFaceRuleNumber))
  }

  /** The counters a frame report adds to. */
  datatype SumField = DomSize | Plugins | PrintStyleSheets | EmptySrcTags | ImagesResizedInBrowser

  /** The counters that keep the largest value a frame reported. */
  datatype MaxField = StyleSheets | InlineStyleSheets | InlineJsScripts | CssFontFaceRules

  function FrameSum(f: FrameMeasures, c: SumField): nat
  {
    match c
    case DomSize => f.domSize
    case Plugins => f.pluginsNumber
    case PrintStyleSheets => f.printStyleSheetsNumber
    case EmptySrcTags => f.emptySrcTagNumber
    case ImagesResizedInBrowser => f.imageResizedInBrowserNumber
  }

  function RecordSum(s: Measures, c: SumField): nat
  {
    match c
    case DomSize => s.domSize
    case Plugins => s.pluginsNumber
    case PrintStyleSheets => s.printStyleSheetsNumber
    case EmptySrcTags => s.emptySrcTagNumber
    case ImagesResizedInBrowser => s.imageResizedInBrowserNumber
  }

  function FrameMax(f: FrameMeasures, c: MaxField): nat
  {
    match c
    case StyleSheets => f.styleSheetsNumber
    case InlineStyleSheets => f.inlineStyleSheetsNumber
    case InlineJsScripts => f.inlineJsScriptsNumber
    case CssFontFaceRules => f.cssFontFaceRuleNumber
  }

  function RecordMax(s: Measures, c: MaxField): nat
  {
    match c
    case StyleSheets => s.styleSheetsNumber
    case InlineStyleSheets => s.inlineStyleSheetsNumber
    case InlineJsScripts => s.inlineJsScriptsNumber
    case CssFontFaceRules => s.cssFontFaceRuleNumber
  }

  /** The total of one summed counter over a sequence of frame reports. */
  function SumOver(frames: seq<FrameMeasures>, c: SumField): nat
  {
    if frames == [] then 0 else FrameSum(frames[0], c) + SumOver(frames[1..], c)
  }

  /** The record after merging `frames` in order. */
  function MergeFrames(s: Measures, frames: seq<FrameMeasures>, ext: Externals): Measures
    decreases frames
  {
    if frames == [] then s else MergeFrames(MergeFrame(s, frames[0], ext), frames[1..], ext)
  }

  /** The aggregation policy, field by field: a summed counter grows by exactly
      the frame's value, a high-water counter becomes the larger of its old
      value and the frame's; the network and resource counters are not
      touched; the score and grade are recomputed from the merged record. */
  lemma MergeFramePolicy(s: Measures, f: FrameMeasures, ext: Externals)
    ensures var r := MergeFrame(s, f, ext);
      && (forall c :: RecordSum(r, c) == RecordSum(s, c) + FrameSum(f, c))
      && (forall c :: RecordMax(r, c) == HighWater(RecordMax(s, c), FrameMax(f, c)))
      && r.nbRequest == s.nbRequest && r.responsesSize == s.responsesSize
      && r.responsesSizeUncompress == s.responsesSizeUncompress
      && r.domainsNumber == s.domainsNumber
      && r.staticResourcesNumber == s.staticResourcesNumber
      && r.staticResourcesNumberWithCacheHeaders == s.staticResourcesNumberWithCacheHeaders
      && r.staticResourcesNumberWithETags == s.staticResourcesNumberWithETags
      && r.compressibleResourcesNumber == s.compressibleResourcesNumber
      && r.compressibleResourcesNumberCompressed == s.compressibleResourcesNumberCompressed
      && r.totalJs == s.totalJs && r.minifiedJsNumber == s.minifiedJsNumber
      && r.percentMinifiedJs == s.percentMinifiedJs
      && r.totalCss == s.totalCss && r.minifiedCssNumber == s.minifiedCssNumber
      && r.percentMinifiedCss == s.percentMinifiedCss
      && r.ecoIndex == ext.calculEcoIndex(r.domSize, r.nbRequest, RoundKilo(r.responsesSize))
      && r.grade == ext.getEcoIndexGrade(r.ecoIndex)
      && r.jsErrorsNumber == s.jsErrorsNumber +
           (if |f.inlineJsScript| > 0 then IntendedJsErrorIncrement(ext.parse(f.inlineJsScript)) else 0)
  {
  }

  /** A merge keeps the record well formed and never lowers a frame counter
      or the error count. */
  lemma MergeFrameEnriches(s: Measures, f: FrameMeasures, ext: Externals)
    requires WellFormed(s)
    ensures var r := MergeFrame(s, f, ext);
      && WellFormed(r)
      && (forall c :: RecordSum(r, c) >= RecordSum(s, c))
      && (forall c :: RecordMax(r, c) >= RecordMax(s, c))
      && r.jsErrorsNumber >= s.jsErrorsNumber
  {
    MergeFramePolicy(s, f, ext);
  }

  /** Frame reports may arrive in either order: merging `f` then `g` gives
      the same record as `g` then `f`. */
  lemma MergeFrameCommutes(s: Measures, f: FrameMeasures, g: FrameMeasures, ext: Externals)
    ensures MergeFrame(MergeFrame(s, f, ext), g, ext) == MergeFrame(MergeFrame(s, g, ext), f, ext)
  {
  }

  /** Merging the same report a second time leaves every high-water counter
      where the first merge put it. */
  lemma MergeFrameMaxIdempotent(s: Measures, f: FrameMeasures, ext: Externals)
    ensures var once := MergeFrame(s, f, ext);
      forall c :: RecordMax(MergeFrame(once, f, ext), c) == RecordMax(once, c)
  {
    MergeFramePolicy(s, f, ext);
    MergeFramePolicy(MergeFrame(s, f, ext), f, ext);
  }

  /** Over a run's frame reports, each summed counter ends at its starting
      value plus the sum of the frames' values, and each high-water counter
      ends at the largest of its starting value and every frame's value. */
  lemma {:induction false} MergeFramesTotals(s: Measures, frames: seq<FrameMeasures>, ext: Externals)
    ensures var r := MergeFrames(s, frames, ext);
      && (forall c :: RecordSum(r, c) == RecordSum(s, c) + SumOver(frames, c))
      && (forall c :: RecordMax(r, c) >= RecordMax(s, c))
      && (forall c, i :: 0 <= i < |frames| ==> RecordMax(r, c) >= FrameMax(frames[i], c))
      && (forall c :: RecordMax(r, c) == RecordMax(s, c) ||
                      exists i :: 0 <= i < |frames| && RecordMax(r, c) == FrameMax(frames[i], c))
    decreases frames
  {
    if frames != [] {
      var s1 := MergeFrame(s, frames[0], ext);
      var rest := frames[1..];
      var r := MergeFrames(s, frames, ext);
      assert r == MergeFrames(s1, rest, ext);
      MergeFramePolicy(s, frames[0], ext);
      MergeFramesTotals(s1, rest, ext);
      forall c, i | 0 <= i < |frames|
        ensures RecordMax(r, c) >= FrameMax(frames[i], c)
      {
        if i > 0 {
          assert frames[i] == rest[i - 1];
        }
      }
      forall c
        ensures RecordMax(r, c) == RecordMax(s, c) ||
                exists i :: 0 <= i < |frames| && RecordMax(r, c) == FrameMax(frames[i], c)
      {
        if RecordMax(r, c) != RecordMax(s1, c) {
          var j :| 0 <= j < |rest| && RecordMax(r, c) == FrameMax(rest[j], c);
          assert rest[j] == frames[j + 1];
        } else if RecordMax(s1, c) != RecordMax(s, c) {
          assert RecordMax(r, c) == FrameMax(frames[0], c);
        }
      }
    }
  }

  /** Two reports of one run with DOM sizes 500 and 300 give a DOM size of 800. */
  lemma TwoFramesDomSize(s: Measures, f: FrameMeasures, g: FrameMeasures, ext: Externals)
    requires s.domSize == 0 && f.domSize == 500 && g.domSize == 300
    ensures MergeFrames(s, [f, g], ext).domSize == 800
  {
    var once := MergeFrame(s, f, ext);
    assert [f, g][1..] == [g];
    assert MergeFrames(s, [f, g], ext) == MergeFrames(once, [g], ext);
    assert MergeFrames(once, [g], ext) == MergeFrames(MergeFrame(once, g, ext), [], ext);
  }
}
