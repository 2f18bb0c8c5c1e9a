/** The network pass over the HAR entries of one run: response sizes are
    totalled, static and compressible resources are counted with their
    sub-counts, and the distinct domains are collected. */
module NetworkMeasure {
  import opened MeasuresModel

  /** Sum of the entries' transferred sizes. */
  function SumTransferSize(entries: seq<HarEntry>): int
  {
    if entries == [] then 0
    else SumTransferSize(entries[..|entries| - 1]) + entries[|entries| - 1].transferSize
  }

  /** Sum of the entries' uncompressed content sizes. */
  function SumContentSize(entries: seq<HarEntry>): int
  {
    if entries == [] then 0
    else SumContentSize(entries[..|entries| - 1]) + entries[|entries| - 1].contentSize
  }

  /** Number of entries that satisfy `p`. */
  function Count(entries: seq<HarEntry>, p: HarEntry -> bool): nat
  {
    if entries == [] then 0
    else Count(entries[..|entries| - 1], p) + (if p(entries[|entries| - 1]) then 1 else 0)
  }

  /** Number of entries that satisfy both `p` and `q`. */
  function CountBoth(entries: seq<HarEntry>, p: HarEntry -> bool, q: HarEntry -> bool): nat
  {
    if entries == [] then 0
    else
      var e := entries[|entries| - 1];
      CountBoth(entries[..|entries| - 1], p, q) + (if p(e) && q(e) then 1 else 0)
  }

  /** The list built by pushing each element unless `indexOf` already finds it. */
  function Dedup<T(==)>(xs: seq<T>): seq<T>
  {
    if xs == [] then []
    else
      var kept := Dedup(xs[..|xs| - 1]);
      if xs[|xs| - 1] in kept then kept else kept + [xs[|xs| - 1]]
  }

  predicate NoDuplicates<T(==)>(xs: seq<T>)
  {
    forall i, j :: 0 <= i < j < |xs| ==> xs[i] != xs[j]
  }

  function Elements<T>(xs: seq<T>): set<T>
  {
    set x | x in xs
  }

  /** The domain of every entry, in order. */
  function DomainsOf(entries: seq<HarEntry>, getDomainFromUrl: string -> string): (ds: seq<string>)
    ensures |ds| == |entries|
  {
    if entries == [] then []
    else DomainsOf(entries[..|entries| - 1], getDomainFromUrl) + [getDomainFromUrl(entries[|entries| - 1].url)]
  }

  /** The set of distinct domains the entries were fetched from. */
  function DistinctDomains(entries: seq<HarEntry>, getDomainFromUrl: string -> string): set<string>
  {
    set e | e in entries :: getDomainFromUrl(e.url)
  }

  /** The record after the counters are bumped for one entry. */
  function AddEntry(s: Measures, e: HarEntry, ext: Externals): Measures
  {
    var isStatic := ext.isStaticRessource(e);
    var isCompressible := ext.isCompressibleResource(e);
    s.(
      responsesSize := s.responsesSize + e.transferSize,
      responsesSizeUncompress := s.responsesSizeUncompress + e.contentSize,
      staticResourcesNumber := s.staticResourcesNumber + (if isStatic then 1 else 0),
      staticResourcesNumberWithCacheHeaders :=
        s.staticResourcesNumberWithCacheHeaders + (if isStatic && ext.hasValidCacheHeaders(e) then 1 else 0),
      staticResourcesNumberWithETags :=
        s.staticResourcesNumberWithETags + (if isStatic && ext.isRessourceUsingETag(e) then 1 else 0),
      compressibleResourcesNumber := s.compressibleResourcesNumber + (if isCompressible then 1 else 0),
      compressibleResourcesNumberCompressed :=
        s.compressibleResourcesNumberCompressed + (if isCompressible && ext.isResourceCompressed(e) then 1 else 0))
  }

  /** The record after the counters are bumped for each entry in order. */
  function AddEntries(s: Measures, entries: seq<HarEntry>, ext: Externals): Measures
    decreases entries
  {
    if entries == [] then s
    else AddEntry(AddEntries(s, entries[..|entries| - 1], ext), entries[|entries| - 1], ext)
  }

  /** The record after the HAR callback: nothing happens without entries;
      otherwise the request count is set (not added) to the number of
      entries, every entry is counted, and the domain count is set to the
      length of the de-duplicated domain list. */
  function NetworkPass(s: Measures, entries: seq<HarEntry>, ext: Externals): Measures
  {
    if |entries| == 0 then s
    else
      AddEntries(s.(nbRequest := |entries|), entries, ext)
        .(domainsNumber := |Dedup(DomainsOf(entries, ext.getDomainFromUrl))|)
  }

  /** Entries satisfying both tests are among those satisfying the first. */
  lemma {:induction false} CountBothAtMostCount(entries: seq<HarEntry>, p: HarEntry -> bool, q: HarEntry -> bool)
    ensures CountBoth(entries, p, q) <= Count(entries, p)
  {
    if entries != [] {
      CountBothAtMostCount(entries[..|entries| - 1], p, q);
    }
  }

  /** The de-duplicated list is no longer than the input, keeps exactly the
      input's elements, and repeats none of them. */
  lemma {:induction false} DedupSpec<T>(xs: seq<T>)
    ensures |Dedup(xs)| <= |xs|
    ensures forall x :: x in Dedup(xs) <==> x in xs
    ensures NoDuplicates(Dedup(xs))
  {
    if xs != [] {
      var init := xs[..|xs| - 1];
      DedupSpec(init);
      assert xs == init + [xs[|xs| - 1]];
    }
  }

  /** A list without repetitions has as many distinct elements as entries. */
  lemma {:induction false} NoDuplicatesCardinality<T>(xs: seq<T>)
    requires NoDuplicates(xs)
    ensures |Elements(xs)| == |xs|
  {
    if xs != [] {
      var init := xs[..|xs| - 1];
      var last := xs[|xs| - 1];
      assert NoDuplicates(init);
      NoDuplicatesCardinality(init);
      assert xs == init + [last];
      assert Elements(xs) == Elements(init) + {last};
      assert last !in Elements(init);
    }
  }

  /** The de-duplicated list is as long as the number of distinct elements. */
  lemma DedupCountsDistinct<T>(xs: seq<T>)
    ensures |Dedup(xs)| == |Elements(xs)| <= |xs|
  {
    DedupSpec(xs);
    NoDuplicatesCardinality(Dedup(xs));
    assert Elements(Dedup(xs)) == Elements(xs);
  }

  /** The domain list holds exactly the entries' distinct domains. */
  lemma {:induction false} DomainsOfElements(entries: seq<HarEntry>, getDomainFromUrl: string -> string)
    ensures Elements(DomainsOf(entries, getDomainFromUrl)) == DistinctDomains(entries, getDomainFromUrl)
  {
    if entries != [] {
      var init := entries[..|entries| - 1];
      var last := entries[|entries| - 1];
      DomainsOfElements(init, getDomainFromUrl);
      assert entries == init + [last];
      assert DistinctDomains(entries, getDomainFromUrl)
          == DistinctDomains(init, getDomainFromUrl) + {getDomainFromUrl(last.url)};
    }
  }

  /** Counting one more entry extends the prefix by one. */
  lemma AddEntriesStep(s: Measures, entries: seq<HarEntry>, i: nat, ext: Externals)
    requires i < |entries|
    ensures AddEntries(s, entries[..i + 1], ext) == AddEntry(AddEntries(s, entries[..i], ext), entries[i], ext)
    ensures DomainsOf(entries[..i + 1], ext.getDomainFromUrl)
         == DomainsOf(entries[..i], ext.getDomainFromUrl) + [ext.getDomainFromUrl(entries[i].url)]
  {
    assert entries[..i + 1][..i] == entries[..i];
  }

  /** The closed form of the per-entry counting: sizes summed over all
      entries, and each classification counter grown by the number of entries
      it applies to. */
  function Tallied(s: Measures, entries: seq<HarEntry>, ext: Externals): Measures
  {
    s.(
      responsesSize := s.responsesSize + SumTransferSize(entries),
      responsesSizeUncompress := s.responsesSizeUncompress + SumContentSize(entries),
      staticResourcesNumber := s.staticResourcesNumber + Count(entries, ext.isStaticRessource),
      staticResourcesNumberWithCacheHeaders := s.staticResourcesNumberWithCacheHeaders
        + CountBoth(entries, ext.isStaticRessource, ext.hasValidCacheHeaders),
      staticResourcesNumberWithETags := s.staticResourcesNumberWithETags
        + CountBoth(entries, ext.isStaticRessource, ext.isRessourceUsingETag),
      compressibleResourcesNumber := s.compressibleResourcesNumber + Count(entries, ext.isCompressibleResource),
      compressibleResourcesNumberCompressed := s.compressibleResourcesNumberCompressed
        + CountBoth(entries, ext.isCompressibleResource, ext.isResourceCompressed))
  }

  /** Counting entry by entry, as the HAR loop does, reaches the closed form. */
  lemma {:induction false} AddEntriesTotals(s: Measures, entries: seq<HarEntry>, ext: Externals)
    ensures AddEntries(s, entries, ext) == Tallied(s, entries, ext)
    decreases entries
  {
    if entries != [] {
      AddEntriesTotals(s, entries[..|entries| - 1], ext);
    }
  }

  /** The HAR callback's effect: with no entries nothing changes; otherwise
      the request count becomes the number of entries, the two size totals
      grow by the summed sizes, each classification counter grows by the
      number of entries it applies to, the domain count becomes the number of
      distinct domains, and every other field is left alone. */
  lemma NetworkPassTotals(s: Measures, entries: seq<HarEntry>, ext: Externals)
    ensures |entries| == 0 ==> NetworkPass(s, entries, ext) == s
    ensures |entries| > 0 ==>
              NetworkPass(s, entries, ext) ==
              Tallied(s.(nbRequest := |entries|), entries, ext)
                .(domainsNumber := |DistinctDomains(entries, ext.getDomainFromUrl)|)
  {
    if |entries| > 0 {
      var domains := DomainsOf(entries, ext.getDomainFromUrl);
      AddEntriesTotals(s.(nbRequest := |entries|), entries, ext);
      DedupCountsDistinct(domains);
      DomainsOfElements(entries, ext.getDomainFromUrl);
    }
  }

  /** In one pass, the cached and ETag sub-counts grow by no more than the
      static count, the compressed sub-count by no more than the compressible
      count, and the distinct domains never outnumber the entries. */
  lemma NetworkPassSubCounts(s: Measures, entries: seq<HarEntry>, ext: Externals)
    ensures var r := NetworkPass(s, entries, ext);
      && r.staticResourcesNumberWithCacheHeaders - s.staticResourcesNumberWithCacheHeaders
           <= r.staticResourcesNumber - s.staticResourcesNumber
      && r.staticResourcesNumberWithETags - s.staticResourcesNumberWithETags
           <= r.staticResourcesNumber - s.staticResourcesNumber
      && r.compressibleResourcesNumberCompressed - s.compressibleResourcesNumberCompressed
           <= r.compressibleResourcesNumber - s.compressibleResourcesNumber
      && (|entries| > 0 ==> r.domainsNumber <= |entries| == r.nbRequest)
  {
    NetworkPassTotals(s, entries, ext);
    CountBothAtMostCount(entries, ext.isStaticRessource, ext.hasValidCacheHeaders);
    CountBothAtMostCount(entries, ext.isStaticRessource, ext.isRessourceUsingETag);
    CountBothAtMostCount(entries, ext.isCompressibleResource, ext.isResourceCompressed);
    if |entries| > 0 {
      DedupCountsDistinct(DomainsOf(entries, ext.getDomainFromUrl));
    }
  }

  /** The network pass keeps the record well formed. */
  lemma NetworkPassKeepsWellFormed(s: Measures, entries: seq<HarEntry>, ext: Externals)
    requires WellFormed(s)
    ensures WellFormed(NetworkPass(s, entries, ext))
  {
    NetworkPassSubCounts(s, entries, ext);
    NetworkPassTotals(s, entries, ext);
  }
}
