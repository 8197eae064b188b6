/**
 * The citation builder of `RetrievalService.process_query`: the chain's ordered
 * source documents become at most three citations, deduplicated by URL, titled,
 * and tiered by position.
 */
module Sources {
  import opened Wrappers

  /** A retrieved passage: its text and its metadata dictionary (a value may be None). */
  datatype Document = Document(content: string, metadata: map<string, Option<string>>)

  datatype Relevance = High | Medium

  /** One entry of the response's `sources` list. */
  datatype Source = Source(url: string, title: string, relevance: Relevance)

  /** `sources[:3]`: how many citations a response carries at most. */
  const MaxSources: nat := 3

  /**
   * `doc.metadata.get(key, '')`. A missing key, a None value and the empty string
   * are all falsy for the tests that read the field, so all three read as "".
   */
  function Field(d: Document, key: string): string {
    if key in d.metadata && d.metadata[key].Some? then d.metadata[key].value else ""
  }

  function Url(d: Document): string {
    Field(d, "url")
  }

  function Title(d: Document): string {
    Field(d, "title")
  }

  /** The first citation emitted is "high", every later one "medium". */
  function Tier(position: nat): Relevance {
    if position == 0 then High else Medium
  }

  /** The citation made from `d` when it is the `position`-th one emitted. */
  function Cite(d: Document, position: nat): Source {
    Source(Url(d), if Title(d) != "" then Title(d) else Url(d), Tier(position))
  }

  /** The URLs already cited: the loop's `seen_urls`. */
  function Urls(sources: seq<Source>): set<string> {
    set i | 0 <= i < |sources| :: sources[i].url
  }

  /** The list the loop has built after reading `docs`, before it is cut to three. */
  function AllSources(docs: seq<Document>): seq<Source>
    decreases |docs|
  {
    if docs == [] then []
    else
      var prev := AllSources(docs[..|docs| - 1]);
      var d := docs[|docs| - 1];
      if Url(d) != "" && Url(d) !in Urls(prev) then prev + [Cite(d, |prev|)] else prev
  }

  /** The `sources` field of the response. */
  function Citations(docs: seq<Document>): (r: seq<Source>)
    ensures |r| <= MaxSources && |r| <= |AllSources(docs)|
    ensures r == AllSources(docs)[..|r|]
    ensures |r| < MaxSources ==> r == AllSources(docs)
    ensures docs == [] ==> r == []
  {
    var all := AllSources(docs);
    if |all| <= MaxSources then all else all[..MaxSources]
  }

  // ---------------------------------------------------------------------------
  // An independent description: which documents are cited.

  /** Position `p` holds a non-empty URL that no earlier document carries. */
  ghost predicate IsFirstOccurrence(docs: seq<Document>, p: int) {
    0 <= p < |docs| && Url(docs[p]) != "" &&
    forall q :: 0 <= q < p ==> Url(docs[q]) != Url(docs[p])
  }

  /** The positions of first occurrences, in increasing order. */
  ghost function FirstOccurrences(docs: seq<Document>): (r: seq<nat>)
    ensures forall i :: 0 <= i < |r| ==> r[i] < |docs|
    ensures forall i, j :: 0 <= i < j < |r| ==> r[i] < r[j]
    decreases |docs|
  {
    if docs == [] then []
    else
      var n := |docs| - 1;
      if IsFirstOccurrence(docs, n) then FirstOccurrences(docs[..n]) + [n]
      else FirstOccurrences(docs[..n])
  }

  /** First occurrences in `docs` before `n` are those of its prefix of length `n`. */
  lemma FirstOccurrenceInPrefix(docs: seq<Document>, n: nat, p: int)
    requires n <= |docs| && p < n
    ensures IsFirstOccurrence(docs[..n], p) <==> IsFirstOccurrence(docs, p)
  {
    if 0 <= p {
      assert forall q :: 0 <= q <= p ==> docs[..n][q] == docs[q];
    }
  }

  /** FirstOccurrences lists exactly the first-occurrence positions. */
  lemma {:induction false} FirstOccurrencesExact(docs: seq<Document>)
    ensures forall i :: 0 <= i < |FirstOccurrences(docs)| ==> IsFirstOccurrence(docs, FirstOccurrences(docs)[i])
    ensures forall p :: IsFirstOccurrence(docs, p) ==> p in FirstOccurrences(docs)
    decreases |docs|
  {
    if docs != [] {
      var n := |docs| - 1;
      var prev := FirstOccurrences(docs[..n]);
      FirstOccurrencesExact(docs[..n]);
      forall i | 0 <= i < |prev|
        ensures IsFirstOccurrence(docs, prev[i])
      {
        FirstOccurrenceInPrefix(docs, n, prev[i]);
      }
      forall p | IsFirstOccurrence(docs, p)
        ensures p in FirstOccurrences(docs)
      {
        if p < n {
          FirstOccurrenceInPrefix(docs, n, p);
        }
      }
    }
  }

  lemma UrlsAppend(sources: seq<Source>, s: Source)
    ensures Urls(sources + [s]) == Urls(sources) + {s.url}
  {
    var both := sources + [s];
    assert both[|sources|] == s;
    forall u | u in Urls(sources)
      ensures u in Urls(both)
    {
      var i :| 0 <= i < |sources| && sources[i].url == u;
      assert both[i] == sources[i];
    }
  }

  /** The URLs cited after reading `docs` are exactly its non-empty URLs. */
  lemma {:induction false} CitedUrls(docs: seq<Document>)
    ensures forall u :: u in Urls(AllSources(docs)) <==>
      u != "" && exists q :: 0 <= q < |docs| && Url(docs[q]) == u
    decreases |docs|
  {
    if docs != [] {
      var n := |docs| - 1;
      var init := docs[..n];
      var prev := AllSources(init);
      CitedUrls(init);
      assert forall q :: 0 <= q < n ==> init[q] == docs[q];
      if Url(docs[n]) != "" && Url(docs[n]) !in Urls(prev) {
        UrlsAppend(prev, Cite(docs[n], |prev|));
      }
      forall u | u != "" && exists q :: 0 <= q < |docs| && Url(docs[q]) == u
        ensures u in Urls(AllSources(docs))
      {
        var q :| 0 <= q < |docs| && Url(docs[q]) == u;
        if q < n {
          assert Url(init[q]) == u;
        }
      }
    }
  }

  /**
   * The loop emits, in order, one citation per first occurrence of a URL, made
   * from that first document, and tiered by its own position.
   */
  lemma {:induction false} SourcesAreFirstOccurrences(docs: seq<Document>)
    ensures |AllSources(docs)| == |FirstOccurrences(docs)|
    ensures forall k :: 0 <= k < |AllSources(docs)| ==>
      AllSources(docs)[k] == Cite(docs[FirstOccurrences(docs)[k]], k)
    decreases |docs|
  {
    if docs != [] {
      var n := |docs| - 1;
      var init, d := docs[..n], docs[n];
      var prev, firsts := AllSources(init), FirstOccurrences(init);
      SourcesAreFirstOccurrences(init);
      CitedUrls(init);
      assert forall q :: 0 <= q < n ==> init[q] == docs[q];
      assert IsFirstOccurrence(docs, n) <==> Url(d) != "" && Url(d) !in Urls(prev) by {
        if Url(d) != "" && Url(d) in Urls(prev) {
          var q :| 0 <= q < n && Url(init[q]) == Url(d);
          assert Url(docs[q]) == Url(d);
        }
      }
      if IsFirstOccurrence(docs, n) {
        assert AllSources(docs) == prev + [Cite(d, |prev|)];
        assert FirstOccurrences(docs) == firsts + [n];
      } else {
        assert AllSources(docs) == prev;
        assert FirstOccurrences(docs) == firsts;
      }
      forall k | 0 <= k < |prev|
        ensures AllSources(docs)[k] == Cite(docs[FirstOccurrences(docs)[k]], k)
      {
        assert FirstOccurrences(docs)[k] == firsts[k] && firsts[k] < n;
      }
    }
  }

  /** No two entries of the full list share a URL. */
  lemma {:induction false} DistinctUrls(docs: seq<Document>)
    ensures forall i, j :: 0 <= i < j < |AllSources(docs)| ==>
      AllSources(docs)[i].url != AllSources(docs)[j].url
  {
    SourcesAreFirstOccurrences(docs);
    FirstOccurrencesExact(docs);
    var all, firsts := AllSources(docs), FirstOccurrences(docs);
    forall i, j | 0 <= i < j < |all|
      ensures all[i].url != all[j].url
    {
      assert IsFirstOccurrence(docs, firsts[j]);
    }
  }

  /**
   * The response's `sources` are the first three first-occurrence URLs, in
   * order, each cited from its first document.
   */
  lemma CitationsAreFirstOccurrences(docs: seq<Document>)
    ensures |Citations(docs)| ==
      if |FirstOccurrences(docs)| < MaxSources then |FirstOccurrences(docs)| else MaxSources
    ensures forall k :: 0 <= k < |Citations(docs)| ==>
      IsFirstOccurrence(docs, FirstOccurrences(docs)[k]) &&
      Citations(docs)[k] == Cite(docs[FirstOccurrences(docs)[k]], k)
  {
    SourcesAreFirstOccurrences(docs);
    FirstOccurrencesExact(docs);
  }

  /**
   * The response's `sources` have distinct, non-empty URLs and non-empty titles;
   * the first is "high" and every later one "medium".
   */
  lemma CitationsWellFormed(docs: seq<Document>)
    ensures forall i, j :: 0 <= i < j < |Citations(docs)| ==>
      Citations(docs)[i].url != Citations(docs)[j].url
    ensures forall k :: 0 <= k < |Citations(docs)| ==>
      Citations(docs)[k].url != "" && Citations(docs)[k].title != ""
    ensures forall k :: 0 <= k < |Citations(docs)| ==>
      Citations(docs)[k].relevance == (if k == 0 then High else Medium)
  {
    CitationsAreFirstOccurrences(docs);
    DistinctUrls(docs);
  }

  /** In a strictly increasing sequence of naturals, each entry is at least its index. */
  lemma {:induction false} IncreasingFromIndex(s: seq<nat>)
    requires forall i, j :: 0 <= i < j < |s| ==> s[i] < s[j]
    ensures forall i :: 0 <= i < |s| ==> s[i] >= i
    decreases |s|
  {
    if |s| > 1 {
      IncreasingFromIndex(s[..|s| - 1]);
      assert s[|s| - 2] < s[|s| - 1];
    }
  }

  /** Passages that all come from one URL give exactly one "high" citation. */
  lemma SingleUrl(docs: seq<Document>, u: string)
    requires |docs| > 0 && u != ""
    requires forall i :: 0 <= i < |docs| ==> Url(docs[i]) == u
    ensures Citations(docs) == [Cite(docs[0], 0)]
    ensures Citations(docs)[0].relevance == High
  {
    SourcesAreFirstOccurrences(docs);
    FirstOccurrencesExact(docs);
    var firsts := FirstOccurrences(docs);
    assert IsFirstOccurrence(docs, 0);
    forall p | 0 < p < |docs|
      ensures !IsFirstOccurrence(docs, p)
    {
      assert Url(docs[0]) == Url(docs[p]);
    }
    assert 0 in firsts;
    assert forall i :: 0 <= i < |firsts| ==> firsts[i] == 0;
    IncreasingFromIndex(firsts);
    assert firsts[|firsts| - 1] >= |firsts| - 1;
    assert firsts == [0];
  }

  /**
   * The loop of `process_query`: a seen-set and an output list built in place,
   * then `sources[:3]`.
   */
  method CollectSources(docs: seq<Document>) returns (sources: seq<Source>)
    ensures sources == Citations(docs)
  {
    sources := [];
    var seen: set<string> := {};
    for i := 0 to |docs|
      invariant sources == AllSources(docs[..i])
      invariant seen == Urls(sources)
    {
      assert docs[..i + 1][..i] == docs[..i];
      var url := Url(docs[i]);
      var title := Title(docs[i]);
      if url != "" && url !in seen {
        var source := Source(url, if title != "" then title else url, if sources == [] then High else Medium);
        UrlsAppend(sources, source);
        seen := seen + {url};
        sources := sources + [source];
      }
    }
    assert docs[..|docs|] == docs;
    if |sources| > MaxSources {
      sources := sources[..MaxSources];
    }
  }
}
