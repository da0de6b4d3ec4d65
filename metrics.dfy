/**
 * The samples `collect` adds to the gauge family
 * `aws_inspector_container_image_severity_count`: for every cached
 * repository in key order, every summary in list order, every tag in tag
 * order and every entry of the summary's count dictionary in key order,
 * one sample labelled `(name, tag, digest, registry_id, image, severity)`
 * whose value is the count. Summaries without tags add nothing.
 */
module Metrics {
  import opened Records
  import opened ImageCache

  /** The label names of the gauge family, in the order its samples carry their values. */
  const LABEL_NAMES: seq<string> := ["name", "tag", "digest", "registry_id", "image", "severity"]

  /** One `add_metric` call: label values in the order of LABEL_NAMES, and the value. */
  datatype Sample = Sample(labels: seq<string>, value: int)

  /** The label values shared by the samples of one tag of one image. */
  function CommonLabels(image: ImageSummary, tag: string): seq<string>
  {
    [image.repositoryName, tag, image.imageDigest, image.accountId, image.repositoryUri + ":" + tag]
  }

  /** The tags `collect` walks: none when the tag list is null. */
  function Tags(image: ImageSummary): seq<string>
  {
    match image.imageTags
    case None => []
    case Some(tags) => tags
  }

  /** The samples of one tag: one per count entry, in the dictionary's order. */
  function TagSamples(image: ImageSummary, tag: string, counts: SeverityCounts): (samples: seq<Sample>)
    ensures |samples| == |counts|
  {
    if counts == [] then []
    else
      var last := counts[|counts| - 1];
      TagSamples(image, tag, counts[..|counts| - 1]) + [Sample(CommonLabels(image, tag) + [last.0], last.1)]
  }

  /** The `k`-th sample of a tag carries the `k`-th severity level and its count. */
  lemma {:induction false} TagSampleAt(image: ImageSummary, tag: string, counts: SeverityCounts, k: nat)
    requires k < |counts|
    ensures TagSamples(image, tag, counts)[k] == Sample(CommonLabels(image, tag) + [counts[k].0], counts[k].1)
  {
    if k < |counts| - 1 {
      TagSampleAt(image, tag, counts[..|counts| - 1], k);
    }
  }

  /**
   * For a summary the refresh loop built, the `k`-th sample of a tag is
   * labelled with the `k`-th of CRITICAL, HIGH, MEDIUM, LOW and its value
   * is the count the dictionary holds for that level.
   */
  lemma TagSampleValue(rec: AggregationRecord, tag: string, k: nat)
    requires BuildSummary(rec).Ok? && k < 4
    ensures var image := BuildSummary(rec).value;
      var sample := TagSamples(image, tag, image.severityCounts)[k];
      && sample.labels == CommonLabels(image, tag) + [SEVERITY_LEVELS[k]]
      && Some(sample.value) == Lookup(image.severityCounts, SEVERITY_LEVELS[k])
  {
    var image := BuildSummary(rec).value;
    BuildSummaryFields(rec);
    TagSampleAt(image, tag, image.severityCounts, k);
    SeverityLevelsDistinct();
    LookupAt(image.severityCounts, k);
  }

  /** The samples of the tags `tags` of one image, tag after tag. */
  function TagsSamples(image: ImageSummary, tags: seq<string>): seq<Sample>
  {
    if tags == [] then []
    else TagsSamples(image, tags[..|tags| - 1]) + TagSamples(image, tags[|tags| - 1], image.severityCounts)
  }

  /** The number of samples of one image: one per tag and count entry. */
  function SampleCount(image: ImageSummary): nat
  {
    |Tags(image)| * |image.severityCounts|
  }

  /** The samples of one image: none unless its tag list is non-empty. */
  function ImageSamples(image: ImageSummary): seq<Sample>
  {
    if image.imageTags.Some? && image.imageTags.value != [] then TagsSamples(image, image.imageTags.value)
    else []
  }

  /** The number of samples of the images `images`. */
  function ImagesCount(images: seq<ImageSummary>): nat
  {
    if images == [] then 0 else ImagesCount(images[..|images| - 1]) + SampleCount(images[|images| - 1])
  }

  /** The samples of a repository's images, image after image. */
  function ImagesSamples(images: seq<ImageSummary>): seq<Sample>
  {
    if images == [] then []
    else ImagesSamples(images[..|images| - 1]) + ImageSamples(images[|images| - 1])
  }

  /** The number of samples of the repositories `repos` of `c`. */
  function RepositoriesCount(c: Cache, repos: seq<string>): nat
  {
    if repos == [] then 0
    else RepositoriesCount(c, repos[..|repos| - 1]) + ImagesCount(c.Get(repos[|repos| - 1]))
  }

  /** The samples of the repositories `repos` of `c`, repository after repository. */
  function RepositoriesSamples(c: Cache, repos: seq<string>): seq<Sample>
  {
    if repos == [] then []
    else RepositoriesSamples(c, repos[..|repos| - 1]) + ImagesSamples(c.Get(repos[|repos| - 1]))
  }

  /** Everything `collect` emits for the cache `c`. */
  function Render(c: Cache): seq<Sample>
  {
    RepositoriesSamples(c, c.keys)
  }

  /** The tags `tags` of an image yield one sample per tag and count entry. */
  lemma {:induction false} TagsSamplesCount(image: ImageSummary, tags: seq<string>)
    ensures |TagsSamples(image, tags)| == |tags| * |image.severityCounts|
  {
    if tags != [] {
      TagsSamplesCount(image, tags[..|tags| - 1]);
      assert |tags| * |image.severityCounts| == (|tags| - 1) * |image.severityCounts| + |image.severityCounts|;
    }
  }

  /** An image yields one sample per tag and count entry, none when its tag list is null or empty. */
  lemma ImageSamplesCount(image: ImageSummary)
    ensures |ImageSamples(image)| == SampleCount(image)
  {
    if image.imageTags.Some? && image.imageTags.value != [] {
      TagsSamplesCount(image, image.imageTags.value);
    }
  }

  /** A list of images yields the sum of their sample counts. */
  lemma {:induction false} ImagesSamplesCount(images: seq<ImageSummary>)
    ensures |ImagesSamples(images)| == ImagesCount(images)
  {
    if images != [] {
      ImagesSamplesCount(images[..|images| - 1]);
      ImageSamplesCount(images[|images| - 1]);
    }
  }

  /**
   * `collect` emits, over the repositories `repos`, one sample per cached
   * summary, tag and count entry.
   */
  lemma {:induction false} RepositoriesSamplesCount(c: Cache, repos: seq<string>)
    ensures |RepositoriesSamples(c, repos)| == RepositoriesCount(c, repos)
  {
    if repos != [] {
      RepositoriesSamplesCount(c, repos[..|repos| - 1]);
      ImagesSamplesCount(c.Get(repos[|repos| - 1]));
    }
  }

  lemma TagSamplesSnoc(image: ImageSummary, tag: string, counts: SeverityCounts, k: nat)
    requires k < |counts|
    ensures TagSamples(image, tag, counts[..k + 1])
         == TagSamples(image, tag, counts[..k]) + [Sample(CommonLabels(image, tag) + [counts[k].0], counts[k].1)]
  {
    assert counts[..k + 1][..k] == counts[..k];
  }

  lemma TagsSamplesSnoc(image: ImageSummary, tags: seq<string>, t: nat)
    requires t < |tags|
    ensures TagsSamples(image, tags[..t + 1])
         == TagsSamples(image, tags[..t]) + TagSamples(image, tags[t], image.severityCounts)
  {
    assert tags[..t + 1][..t] == tags[..t];
  }

  lemma ImagesSamplesSnoc(images: seq<ImageSummary>, m: nat)
    requires m < |images|
    ensures ImagesSamples(images[..m + 1]) == ImagesSamples(images[..m]) + ImageSamples(images[m])
  {
    assert images[..m + 1][..m] == images[..m];
  }

  lemma RepositoriesSamplesSnoc(c: Cache, repos: seq<string>, r: nat)
    requires r < |repos|
    ensures RepositoriesSamples(c, repos[..r + 1])
         == RepositoriesSamples(c, repos[..r]) + ImagesSamples(c.Get(repos[r]))
  {
    assert repos[..r + 1][..r] == repos[..r];
  }

  /**
   * The samples of an image's tags are laid out tag-major: the sample for
   * tag `t` and count entry `k` sits at `t * |counts| + k`.
   */
  lemma {:induction false} TagsSampleAt(image: ImageSummary, tags: seq<string>, t: nat, k: nat)
    requires t < |tags| && k < |image.severityCounts|
    ensures t * |image.severityCounts| + k < |TagsSamples(image, tags)|
    ensures TagsSamples(image, tags)[t * |image.severityCounts| + k]
         == Sample(CommonLabels(image, tags[t]) + [image.severityCounts[k].0], image.severityCounts[k].1)
  {
    var n := |image.severityCounts|;
    var init := tags[..|tags| - 1];
    var prefix := TagsSamples(image, init);
    var last := TagSamples(image, tags[|tags| - 1], image.severityCounts);
    assert TagsSamples(image, tags) == prefix + last;
    if t < |tags| - 1 {
      TagsSampleAt(image, init, t, k);
      assert init[t] == tags[t];
    } else {
      assert |prefix| == t * n by {
        TagsSamplesCount(image, init);
      }
      TagSampleAt(image, tags[t], image.severityCounts, k);
    }
  }

  /** A sample of a list of images is a sample of one of them. */
  lemma {:induction false} ImagesSamplesFrom(images: seq<ImageSummary>, x: Sample)
    requires x in ImagesSamples(images)
    ensures exists j :: 0 <= j < |images| && x in ImageSamples(images[j])
  {
    var init, last := images[..|images| - 1], images[|images| - 1];
    assert ImagesSamples(images) == ImagesSamples(init) + ImageSamples(last);
    if x in ImagesSamples(init) {
      ImagesSamplesFrom(init, x);
      var j :| 0 <= j < |init| && x in ImageSamples(init[j]);
      assert images[j] == init[j];
    } else {
      assert x in ImageSamples(images[|images| - 1]);
    }
  }

  /** Every sample of one image of a list is a sample of the list. */
  lemma {:induction false} ImagesSamplesTo(images: seq<ImageSummary>, j: nat, x: Sample)
    requires j < |images| && x in ImageSamples(images[j])
    ensures x in ImagesSamples(images)
  {
    var init := images[..|images| - 1];
    var prefix := ImagesSamples(init);
    var tail := ImageSamples(images[|images| - 1]);
    assert ImagesSamples(images) == prefix + tail;
    if j < |init| {
      assert x in prefix by {
        assert images[j] == init[j];
        ImagesSamplesTo(init, j, x);
      }
    }
  }

  /** A sample belongs to a list of images exactly when it belongs to one of them. */
  lemma ImagesSamplesMember(images: seq<ImageSummary>, x: Sample)
    ensures x in ImagesSamples(images) <==> exists j :: 0 <= j < |images| && x in ImageSamples(images[j])
  {
    if x in ImagesSamples(images) {
      ImagesSamplesFrom(images, x);
    }
    forall j | 0 <= j < |images| && x in ImageSamples(images[j]) ensures x in ImagesSamples(images) {
      ImagesSamplesTo(images, j, x);
    }
  }

  /** A sample of some repositories is a sample of a summary cached for one of them. */
  lemma {:induction false} RepositoriesSamplesFrom(c: Cache, repos: seq<string>, x: Sample)
    requires x in RepositoriesSamples(c, repos)
    ensures exists i, j :: 0 <= i < |repos| && 0 <= j < |c.Get(repos[i])| && x in ImageSamples(c.Get(repos[i])[j])
  {
    var init, last := repos[..|repos| - 1], repos[|repos| - 1];
    assert RepositoriesSamples(c, repos) == RepositoriesSamples(c, init) + ImagesSamples(c.Get(last));
    if x in RepositoriesSamples(c, init) {
      RepositoriesSamplesFrom(c, init, x);
      var i, j :| 0 <= i < |init| && 0 <= j < |c.Get(init[i])| && x in ImageSamples(c.Get(init[i])[j]);
      assert repos[i] == init[i];
    } else {
      ImagesSamplesFrom(c.Get(last), x);
      var j :| 0 <= j < |c.Get(last)| && x in ImageSamples(c.Get(last)[j]);
      assert repos[|repos| - 1] == last;
    }
  }

  /** Every sample of the summaries cached for one of the repositories is a sample of them all. */
  lemma {:induction false} RepositoriesSamplesOf(c: Cache, repos: seq<string>, i: nat, x: Sample)
    requires i < |repos| && x in ImagesSamples(c.Get(repos[i]))
    ensures x in RepositoriesSamples(c, repos)
  {
    var init := repos[..|repos| - 1];
    var prefix := RepositoriesSamples(c, init);
    var tail := ImagesSamples(c.Get(repos[|repos| - 1]));
    assert RepositoriesSamples(c, repos) == prefix + tail;
    if i < |init| {
      assert x in prefix by {
        assert init[i] == repos[i];
        RepositoriesSamplesOf(c, init, i, x);
      }
    }
  }

  /** Every sample of a summary cached for one of the repositories is a sample of them all. */
  lemma RepositoriesSamplesTo(c: Cache, repos: seq<string>, i: nat, j: nat, x: Sample)
    requires i < |repos| && j < |c.Get(repos[i])| && x in ImageSamples(c.Get(repos[i])[j])
    ensures x in RepositoriesSamples(c, repos)
  {
    ImagesSamplesTo(c.Get(repos[i]), j, x);
    RepositoriesSamplesOf(c, repos, i, x);
  }

  /**
   * A sample belongs to the samples of some repositories exactly when it
   * belongs to the samples of a summary cached for one of them.
   */
  lemma RepositoriesSamplesMember(c: Cache, repos: seq<string>, x: Sample)
    ensures x in RepositoriesSamples(c, repos) <==>
      exists i, j :: 0 <= i < |repos| && 0 <= j < |c.Get(repos[i])| && x in ImageSamples(c.Get(repos[i])[j])
  {
    if x in RepositoriesSamples(c, repos) {
      RepositoriesSamplesFrom(c, repos, x);
    }
    forall i, j | 0 <= i < |repos| && 0 <= j < |c.Get(repos[i])| && x in ImageSamples(c.Get(repos[i])[j])
      ensures x in RepositoriesSamples(c, repos)
    {
      RepositoriesSamplesTo(c, repos, i, j, x);
    }
  }

  /** Every sample of one tag carries one value per label name. */
  lemma {:induction false} TagSamplesArity(image: ImageSummary, tag: string, counts: SeverityCounts, y: Sample)
    requires y in TagSamples(image, tag, counts)
    ensures |y.labels| == |LABEL_NAMES|
  {
    var init := counts[..|counts| - 1];
    var last := counts[|counts| - 1];
    assert TagSamples(image, tag, counts) == TagSamples(image, tag, init) + [Sample(CommonLabels(image, tag) + [last.0], last.1)];
    if y in TagSamples(image, tag, init) {
      TagSamplesArity(image, tag, init, y);
    }
  }

  /** Every sample of an image's tags carries one value per label name. */
  lemma {:induction false} TagsSamplesArity(image: ImageSummary, tags: seq<string>, y: Sample)
    requires y in TagsSamples(image, tags)
    ensures |y.labels| == |LABEL_NAMES|
  {
    var init := tags[..|tags| - 1];
    assert TagsSamples(image, tags) == TagsSamples(image, init) + TagSamples(image, tags[|tags| - 1], image.severityCounts);
    if y in TagsSamples(image, init) {
      TagsSamplesArity(image, init, y);
    } else {
      TagSamplesArity(image, tags[|tags| - 1], image.severityCounts, y);
    }
  }

  /**
   * Every sample `collect` emits carries exactly one value per label name
   * of the gauge family: name, tag, digest, registry id, image and severity.
   */
  lemma RenderArity(c: Cache, x: Sample)
    requires x in Render(c)
    ensures |x.labels| == |LABEL_NAMES|
  {
    RepositoriesSamplesFrom(c, c.keys, x);
    var i, j :| 0 <= i < |c.keys| && 0 <= j < |c.Get(c.keys[i])| && x in ImageSamples(c.Get(c.keys[i])[j]);
    var image := c.Get(c.keys[i])[j];
    TagsSamplesArity(image, image.imageTags.value, x);
  }

  /**
   * Refreshing never withdraws a sample: whatever is rendered before a
   * refresh is still rendered after it, because entries accumulate.
   */
  lemma RenderKeepsSamples(c: Cache, ss: seq<ImageSummary>, x: Sample)
    requires x in Render(c)
    ensures x in Render(PutAll(c, ss))
  {
    var r := PutAll(c, ss);
    RepositoriesSamplesMember(c, c.keys, x);
    var i, j :| 0 <= i < |c.keys| && 0 <= j < |c.Get(c.keys[i])| && x in ImageSamples(c.Get(c.keys[i])[j]);
    var repo := c.keys[i];
    PutAllGet(c, ss, repo);
    PutAllKeysPrefix(c, ss);
    assert r.keys[i] == repo;
    assert r.Get(repo)[j] == c.Get(repo)[j];
    RepositoriesSamplesMember(r, r.keys, x);
  }
}
