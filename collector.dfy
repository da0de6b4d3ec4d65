/**
 * `InspectorMetricsCollector` of inspector_exporter/collector.py: the
 * object holding the account id and the image cache, with the refresh
 * loop that merges upstream aggregation records into the cache and the
 * scrape-time `collect` that renders the cache into metric samples.
 */
module Collector {
  import opened Records
  import opened ImageCache
  import opened Metrics

  lemma AppendAssociative<T>(a: seq<T>, b: seq<T>, c: seq<T>)
    ensures (a + b) + c == a + (b + c)
  {
  }

  /** How a refresh ends: after every record, or at the first record that raised. */
  datatype RefreshOutcome = Complete | Failed(at: nat, error: Error)

  class InspectorMetricsCollector {
    /** The account whose findings the upstream query is filtered to. */
    const accountId: string
    /** The image cache: repository name to cached summaries, in key-insertion order. */
    var imageCache: Cache

    ghost predicate Valid()
      reads this
    {
      imageCache.Valid()
    }

    constructor (accountId: string)
      ensures Valid()
      ensures this.accountId == accountId && imageCache == EMPTY
    {
      this.accountId := accountId;
      imageCache := EMPTY;
    }

    /**
     * `refresh_image_cache` over the already fetched `records`. Each record
     * becomes a summary that is merged into the cache in place; a record
     * whose resource id is too short raises, leaving the records before
     * it merged and the rest untouched.
     */
    method RefreshImageCache(records: seq<AggregationRecord>) returns (outcome: RefreshOutcome)
      requires Valid()
      modifies this
      ensures Valid()
      ensures outcome.Complete? <==> AllBuild(records)
      ensures outcome.Complete? ==> imageCache == PutAll(old(imageCache), Summaries(records))
      ensures outcome.Failed? ==>
        && outcome.at < |records|
        && AllBuild(records[..outcome.at])
        && BuildSummary(records[outcome.at]) == Err(outcome.error)
        && imageCache == PutAll(old(imageCache), Summaries(records[..outcome.at]))
    {
      var i := 0;
      while i < |records|
        invariant 0 <= i <= |records|
        invariant AllBuild(records[..i])
        invariant imageCache == PutAll(old(imageCache), Summaries(records[..i]))
      {
        var built := BuildSummary(records[i]);
        if built.Err? {
          PutAllValid(old(imageCache), Summaries(records[..i]));
          return Failed(i, built.error);
        }
        MergeSummary(built.value);
        SummariesSnoc(records, i);
        PutAllSnoc(old(imageCache), Summaries(records[..i]), built.value);
        i := i + 1;
      }
      assert records[..i] == records;
      PutAllValid(old(imageCache), Summaries(records));
      return Complete;
    }

    /**
     * The body of the refresh loop for one built summary: a repository not
     * yet cached gets a one-element list, a cached one has the summary
     * appended to its list in place.
     */
    method MergeSummary(summary: ImageSummary)
      modifies this
      ensures imageCache == Put(old(imageCache), summary)
    {
      var repositoryName := summary.repositoryName;
      if repositoryName !in imageCache.entries {
        imageCache := Cache(imageCache.keys + [repositoryName], imageCache.entries[repositoryName := [summary]]);
      } else {
        var images := imageCache.entries[repositoryName];
        imageCache := imageCache.(entries := imageCache.entries[repositoryName := images + [summary]]);
      }
    }

    /**
     * `collect`: walks every cached repository, summary, tag and count
     * entry and adds one sample for each; summaries with no tags are
     * skipped. The cache is only read.
     */
    method Collect() returns (samples: seq<Sample>)
      ensures samples == Render(imageCache)
    {
      samples := [];
      var r := 0;
      while r < |imageCache.keys|
        invariant 0 <= r <= |imageCache.keys|
        invariant samples == RepositoriesSamples(imageCache, imageCache.keys[..r])
      {
        var images := imageCache.Get(imageCache.keys[r]);
        ghost var beforeRepo := samples;
        var m := 0;
        while m < |images|
          invariant 0 <= m <= |images|
          invariant samples == beforeRepo + ImagesSamples(images[..m])
        {
          ghost var beforeImage := samples;
          samples := AddImageSamples(samples, images[m]);
          ImagesSamplesSnoc(images, m);
          AppendAssociative(beforeRepo, ImagesSamples(images[..m]), ImageSamples(images[m]));
          m := m + 1;
        }
        assert images[..m] == images;
        RepositoriesSamplesSnoc(imageCache, imageCache.keys, r);
        r := r + 1;
      }
      assert imageCache.keys[..r] == imageCache.keys;
    }

    /** Two scrapes with no refresh in between render the same samples. */
    method CollectTwice() returns (first: seq<Sample>, second: seq<Sample>)
      ensures first == second
    {
      first := Collect();
      second := Collect();
    }
  }

  /**
   * The body of `collect`'s loop over the summaries of a repository: for a
   * summary with tags, one sample per tag and count entry is added after
   * `samples`; a summary whose tags are null or empty adds nothing.
   */
  method AddImageSamples(samples: seq<Sample>, image: ImageSummary) returns (result: seq<Sample>)
    ensures result == samples + ImageSamples(image)
  {
    result := samples;
    var tags := image.imageTags;
    if tags.Some? && tags.value != [] {
      var tagList := tags.value;
      var t := 0;
      while t < |tagList|
        invariant 0 <= t <= |tagList|
        invariant result == samples + TagsSamples(image, tagList[..t])
      {
        var tag := tagList[t];
        var commonLabels := [image.repositoryName, tag, image.imageDigest, image.accountId, image.repositoryUri + ":" + tag];
        var severityCounts := image.severityCounts;
        ghost var beforeTag := result;
        var k := 0;
        while k < |severityCounts|
          invariant 0 <= k <= |severityCounts|
          invariant result == beforeTag + TagSamples(image, tag, severityCounts[..k])
        {
          result := result + [Sample(commonLabels + [severityCounts[k].0], severityCounts[k].1)];
          TagSamplesSnoc(image, tag, severityCounts, k);
          AppendAssociative(beforeTag, TagSamples(image, tag, severityCounts[..k]), [Sample(commonLabels + [severityCounts[k].0], severityCounts[k].1)]);
          k := k + 1;
        }
        assert severityCounts[..k] == severityCounts;
        TagsSamplesSnoc(image, tagList, t);
        AppendAssociative(samples, TagsSamples(image, tagList[..t]), TagSamples(image, tag, severityCounts));
        t := t + 1;
      }
      assert tagList[..t] == tagList;
    } else {
      assert result == samples + [];
    }
  }

  /** A cache holding one summary with one tag renders that tag's samples. */
  lemma RenderSingle(s: ImageSummary, tag: string)
    requires s.imageTags == Some([tag])
    ensures Render(Cache([s.repositoryName], map[s.repositoryName := [s]])) == TagSamples(s, tag, s.severityCounts)
  {
    var c := Cache([s.repositoryName], map[s.repositoryName := [s]]);
    assert [s.repositoryName][..0] == [];
    assert [s][..0] == [];
    assert [tag][..0] == [];
    assert c.Get(s.repositoryName) == [s];
    assert TagsSamples(s, [tag]) == [] + TagSamples(s, tag, s.severityCounts);
    assert ImagesSamples([s]) == [] + ImageSamples(s);
    assert c.keys[..|c.keys| - 1] == [] && c.keys[|c.keys| - 1] == s.repositoryName;
    assert Render(c) == RepositoriesSamples(c, []) + ImagesSamples(c.Get(s.repositoryName));
  }

  /** The samples of one tag of a summary whose counts are `critical`, `high`, `medium`, `low`. */
  lemma TagSamplesOfCounts(s: ImageSummary, tag: string, critical: int, high: int, medium: int, low: int)
    requires s.severityCounts == [("CRITICAL", critical), ("HIGH", high), ("MEDIUM", medium), ("LOW", low)]
    ensures var common := CommonLabels(s, tag);
      TagSamples(s, tag, s.severityCounts) == [
        Sample(common + ["CRITICAL"], critical),
        Sample(common + ["HIGH"], high),
        Sample(common + ["MEDIUM"], medium),
        Sample(common + ["LOW"], low)]
  {
    TagSampleAt(s, tag, s.severityCounts, 0);
    TagSampleAt(s, tag, s.severityCounts, 1);
    TagSampleAt(s, tag, s.severityCounts, 2);
    TagSampleAt(s, tag, s.severityCounts, 3);
  }

  /** The summary the refresh loop builds from the example record. */
  lemma ExampleSummary(rec: AggregationRecord, uri: string)
    requires rec == AggregationRecord("app", "111", Some(["v1"]), "sha256:abc", rec.resourceId, UpstreamCounts(2, 1, 0, 5))
    requires GetRepoUri(rec.resourceId, "app") == Ok(uri)
    ensures AllBuild([rec])
    ensures Summaries([rec]) == [ImageSummary("app", "111", Some(["v1"]), "sha256:abc", uri, FormatSeverityCounts(rec.severityCounts))]
    ensures FormatSeverityCounts(rec.severityCounts) == [("CRITICAL", 2), ("HIGH", 1), ("MEDIUM", 0), ("LOW", 2)]
  {
    assert BuildSummary(rec).Ok?;
  }

  /** Caching one summary into the empty cache. */
  lemma PutAllOne(s: ImageSummary)
    ensures PutAll(EMPTY, [s]) == Cache([s.repositoryName], map[s.repositoryName := [s]])
  {
    assert [s][..0] == [];
  }

  /** The samples the example record renders to. */
  lemma ExampleRender(rec: AggregationRecord, uri: string)
    requires rec == AggregationRecord("app", "111", Some(["v1"]), "sha256:abc", rec.resourceId, UpstreamCounts(2, 1, 0, 5))
    requires GetRepoUri(rec.resourceId, "app") == Ok(uri)
    ensures AllBuild([rec])
    ensures var common := ["app", "v1", "sha256:abc", "111", uri + ":" + "v1"];
      Render(PutAll(EMPTY, Summaries([rec]))) == [
        Sample(common + ["CRITICAL"], 2),
        Sample(common + ["HIGH"], 1),
        Sample(common + ["MEDIUM"], 0),
        Sample(common + ["LOW"], 2)]
  {
    ExampleSummary(rec, uri);
    var s := ImageSummary("app", "111", Some(["v1"]), "sha256:abc", uri, FormatSeverityCounts(rec.severityCounts));
    PutAllOne(s);
    RenderSingle(s, "v1");
    TagSamplesOfCounts(s, "v1", 2, 1, 0, 2);
    assert CommonLabels(s, "v1") == ["app", "v1", "sha256:abc", "111", uri + ":" + "v1"];
  }

  /**
   * An end-to-end example: one record for repository `app`,
   * tag `v1`, digest `sha256:abc`, account `111` and counts critical 2,
   * high 1, medium 0, all 5, refreshed into a new collector, renders four
   * samples with values 2, 1, 0 and 2.
   */
  method EndToEndExample(resourceId: string, uri: string) returns (samples: seq<Sample>)
    requires GetRepoUri(resourceId, "app") == Ok(uri)
    ensures var common := ["app", "v1", "sha256:abc", "111", uri + ":" + "v1"];
      samples == [
        Sample(common + ["CRITICAL"], 2),
        Sample(common + ["HIGH"], 1),
        Sample(common + ["MEDIUM"], 0),
        Sample(common + ["LOW"], 2)]
  {
    var collector := new InspectorMetricsCollector("111");
    var rec := AggregationRecord("app", "111", Some(["v1"]), "sha256:abc", resourceId, UpstreamCounts(2, 1, 0, 5));
    ExampleRender(rec, uri);
    var outcome := collector.RefreshImageCache([rec]);
    samples := collector.Collect();
  }
}
