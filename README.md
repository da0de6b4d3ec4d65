# Inspector exporter: cache-backed collection pipeline

This project models the collection pipeline of the inspector exporter (`inspector_exporter/collector.py`), a metrics exporter for container-image vulnerability scans.

The pipeline has two halves:

- **Refresh.** An already paginated list of upstream finding-aggregation records is turned into image summaries. For each summary the record's resource id gives the repository URI, and the upstream severity counts are remapped. Each summary is merged into an insertion-ordered image cache, keyed by repository name.
- **Collect.** At scrape time the cache is rendered into labelled gauge samples. There is one sample per cached repository, summary, tag and severity level.

The project has five modules:

- `Strings`: Python's `str.split` on a one-character separator, and its inverse `Join`.
- `Records`:
  - the upstream record and the cached image summary;
  - `get_repo_uri` as `GetRepoUri`;
  - `format_severity_counts` as `FormatSeverityCounts`;
  - the summary a record yields, as `BuildSummary`.
- `ImageCache`: the cache as a value, plus the merge step `Put` and the whole merge loop `PutAll`. The cache is the map from repository name to summaries, together with the order in which keys were first inserted. That order is the order `collect` walks the cache in.
- `Metrics`: the samples `collect` emits, as recursive specification functions, with lemmas about their count, layout, labels and values.
- `Collector`: the class `InspectorMetricsCollector`. Its field `imageCache` is updated in place by the refresh loop. It also has the nested loops of `collect`, each proved equal to the specification functions.

A record whose resource id has fewer than five `:`-separated segments makes `get_repo_uri` raise an `IndexError`. This is modelled as an `Err` result. The refresh loop then stops at that record, and the records before it stay merged into the cache, as in the source.

Entries accumulate across refreshes. A summary is appended to an existing repository's list, and earlier entries are never replaced or deduplicated: the code at `inspector_exporter/collector.py:102-105` appends, and the model follows it (`ImageCache.PutAllConcat`).

## Model

| member | source | states |
|---|---|---|
| Strings.Split | inspector_exporter/collector.py:113 | splitting on `:` gives one more segment than there are separators, and no segment contains the separator (empty segments are kept) |
| Strings.JoinSplit | inspector_exporter/collector.py:113 | joining the segments of a split with the separator gives back the original resource id |
| Strings.SplitJoin | inspector_exporter/collector.py:113 | splitting a join of separator-free segments gives back exactly those segments |
| Records.GetRepoUri | inspector_exporter/collector.py:112-116 | derivation fails (index error) if and only if the resource id has fewer than four `:`, i.e. fewer than five segments |
| Records.GetRepoUriOfSegments | inspector_exporter/collector.py:112-116 | for a resource id made of at least five separator-free segments, the URI is segment 4 + `.dkr.ecr.` + segment 3 + `.amazonaws.com/` + repository name |
| Records.GetRepoUriIgnoresTail | inspector_exporter/collector.py:113-115 | segments after the fifth do not change the derived URI |
| Records.GetRepoUriOfEcrArn | inspector_exporter/collector.py:112-116 | `arn:aws:ecr:REGION:ACCOUNT:PATH` gives `ACCOUNT.dkr.ecr.REGION.amazonaws.com/REPO` |
| Records.EcrArnJoin | inspector_exporter/collector.py:113 | the segments arn, aws, ecr, REGION, ACCOUNT, PATH joined with `:` form the ARN `arn:aws:ecr:REGION:ACCOUNT:PATH` |
| Records.ExampleArn | inspector_exporter/collector.py:113 | the example ARN is `arn:aws:ecr:` + region + `:` + account + `:` + path |
| Records.ExampleUri | inspector_exporter/collector.py:116 | the example URI is account + `.dkr.ecr.` + region + `.amazonaws.com/` + repository |
| Records.GetRepoUriExample | inspector_exporter/collector.py:112-116 | `arn:aws:ecr:us-east-1:123456789012:repository/my-repo` with `my-repo` gives `123456789012.dkr.ecr.us-east-1.amazonaws.com/my-repo` |
| Records.FormatSeverityCounts | inspector_exporter/collector.py:119-127 | keys are exactly CRITICAL, HIGH, MEDIUM, LOW in that order; CRITICAL/HIGH/MEDIUM are copied; LOW is `all - critical - high - medium` unclamped; the four values sum to `all`; LOW is non-negative exactly when `all >= critical + high + medium` |
| Records.LookupAt | inspector_exporter/collector.py:52-55 | in a count dictionary with distinct keys, walking the entries and indexing by key agree: entry k's key looks up entry k's value |
| Records.SeverityLevelsDistinct | inspector_exporter/collector.py:120-124 | the four severity keys are distinct |
| Records.BuildSummary | inspector_exporter/collector.py:86-100 | the summary one record yields; its contract is given by `Records.BuildSummaryFields` |
| Records.BuildSummaryFields | inspector_exporter/collector.py:86-100 | the summary fails exactly when the URI cannot be derived; otherwise name, account, tags and digest are copied from the record, the URI is `get_repo_uri` of the resource id, and the counts are exactly `format_severity_counts` of the record's counts (four levels, summing to `all`) |
| Records.Summaries | inspector_exporter/collector.py:85-100 | one summary per record, in order, each the one its record builds |
| ImageCache.Put | inspector_exporter/collector.py:102-105 | one merge step; its contract is given by `ImageCache.PutGet`, `ImageCache.PutValid` and `ImageCache.PutSize` |
| ImageCache.PutValid | inspector_exporter/collector.py:102-105 | one merge step keeps every cached key listed exactly once, in insertion order, with every listed key cached |
| ImageCache.PutGet | inspector_exporter/collector.py:102-105 | an absent repository gets the one-element list and goes last in key order; a present one gets the summary appended, earlier elements and key order unchanged; every other repository is unchanged |
| ImageCache.PutAll | inspector_exporter/collector.py:85-105 | the whole merge loop; its contract is given by `ImageCache.PutAllGet`, `ImageCache.PutAllKeyOrder`, `ImageCache.PutAllValid`, `ImageCache.PutAllConcat` and `ImageCache.PutAllSize` |
| ImageCache.PutAllValid | inspector_exporter/collector.py:85-105 | merging a list keeps every cached key listed exactly once |
| ImageCache.PutAllKeysPrefix | inspector_exporter/collector.py:85-105 | merging a list never drops or reorders an existing key: the old key order is a prefix of the new |
| ImageCache.PutAllKeyOrder | inspector_exporter/collector.py:85-105 | after merging, the key order is the old key order followed by the newly cached repositories in the order of their first summary in the list; a repository is cached exactly when it was before or is one of those |
| ImageCache.PutAllGet | inspector_exporter/collector.py:85-105 | after merging a record list, each repository's entry is its previous entry (empty if absent) followed by the list's summaries for that repository in input order: nothing dropped, reordered or deduplicated |
| ImageCache.PutAllKeys | inspector_exporter/collector.py:85-105 | a repository is cached afterwards exactly when it was before or the list has a summary for it |
| ImageCache.PutAllConcat | inspector_exporter/collector.py:85-105 | two refreshes in a row cache the same as one refresh over both record lists: entries accumulate |
| ImageCache.PutSize | inspector_exporter/collector.py:102-105 | one merge step adds exactly one summary to the cache |
| ImageCache.PutAllSize | inspector_exporter/collector.py:85-105 | merging n summaries adds exactly n summaries to the cache |
| Metrics.TagSamples | inspector_exporter/collector.py:52-56 | one sample per count entry of the summary |
| Metrics.TagSampleAt | inspector_exporter/collector.py:45-56 | the k-th sample of a tag has labels (name, tag, digest, account, uri + ":" + tag, level k) and value count k |
| Metrics.TagSampleValue | inspector_exporter/collector.py:52-55 | for a built summary, the k-th sample of a tag is labelled with the k-th of CRITICAL, HIGH, MEDIUM, LOW, and its value is the dictionary's count for that level |
| Metrics.TagsSamplesCount | inspector_exporter/collector.py:44-56 | an image's tags yield (number of tags) × (number of count entries) samples |
| Metrics.TagsSampleAt | inspector_exporter/collector.py:44-56 | samples are tag-major: the sample for tag t and level k sits at position t × (number of count entries) + k and carries that tag's labels and that level's count |
| Metrics.ImageSamples | inspector_exporter/collector.py:40-56 | the samples of one summary, none when its tags are null or empty (`if tags:`); its contract is given by `Metrics.ImageSamplesCount` and `Metrics.TagsSampleAt` |
| Metrics.ImageSamplesCount | inspector_exporter/collector.py:40-56 | a summary yields (number of tags) × (number of count entries) samples; a null or empty tag list yields none |
| Metrics.ImagesSamplesCount | inspector_exporter/collector.py:38-56 | a repository's summaries yield the sum of their per-summary sample counts |
| Metrics.RepositoriesSamplesCount | inspector_exporter/collector.py:37-56 | the cache yields the sum over all cached summaries of (number of tags) × (number of count entries) samples |
| Metrics.ImagesSamplesFrom | inspector_exporter/collector.py:40-56 | every sample of a summary list comes from one of its summaries |
| Metrics.ImagesSamplesTo | inspector_exporter/collector.py:40-56 | every sample of one summary of a list is among the list's samples |
| Metrics.ImagesSamplesMember | inspector_exporter/collector.py:40-56 | a sample is among a list's samples if and only if it is a sample of one of its summaries |
| Metrics.RepositoriesSamplesFrom | inspector_exporter/collector.py:37-56 | every rendered sample comes from a summary cached for one of the repositories |
| Metrics.RepositoriesSamplesOf | inspector_exporter/collector.py:37-56 | every sample of the summaries cached for one of the repositories is rendered |
| Metrics.RepositoriesSamplesTo | inspector_exporter/collector.py:37-56 | every sample of a summary cached for one of the repositories is rendered |
| Metrics.RepositoriesSamplesMember | inspector_exporter/collector.py:37-56 | a sample is rendered if and only if it is a sample of a summary cached for one of the repositories |
| Metrics.Render | inspector_exporter/collector.py:37-56 | everything `collect` emits for a cache; its contract is given by `Metrics.RepositoriesSamplesCount`, `Metrics.RepositoriesSamplesMember`, `Metrics.RenderArity` and `Collector.InspectorMetricsCollector.Collect` |
| Metrics.TagSamplesArity | inspector_exporter/collector.py:45-55 | every sample of one tag carries one value per label name |
| Metrics.TagsSamplesArity | inspector_exporter/collector.py:44-55 | every sample of an image's tags carries one value per label name |
| Metrics.RenderArity | inspector_exporter/collector.py:29-55 | every emitted sample carries exactly one value for each of the six label names of the gauge family |
| Metrics.RenderKeepsSamples | inspector_exporter/collector.py:102-105 | a refresh never withdraws a sample: whatever was rendered before is still rendered after |
| Collector.InspectorMetricsCollector.constructor | inspector_exporter/collector.py:20-25 | a new collector holds the given account id and an empty, well-formed cache |
| Collector.InspectorMetricsCollector.RefreshImageCache | inspector_exporter/collector.py:85-105 | the in-place merge loop completes exactly when every record builds, and then the cache is the old cache with all summaries merged in order; otherwise it stops at the first failing record with its error, with exactly the records before it merged |
| Collector.InspectorMetricsCollector.MergeSummary | inspector_exporter/collector.py:102-105 | the in-place merge of one summary produces the cache `Put` specifies |
| Collector.InspectorMetricsCollector.Collect | inspector_exporter/collector.py:27-60 | the nested loops emit exactly the samples the specification renders for the current cache, which they do not modify |
| Collector.InspectorMetricsCollector.CollectTwice | inspector_exporter/collector.py:27-60 | two collects with no refresh in between give the same samples |
| Collector.AddImageSamples | inspector_exporter/collector.py:40-56 | the loops over one summary's tags and count entries append exactly that summary's samples |
| Collector.RenderSingle | inspector_exporter/collector.py:37-56 | a cache with one summary and one tag renders exactly that tag's samples |
| Collector.TagSamplesOfCounts | inspector_exporter/collector.py:52-56 | a tag with counts CRITICAL, HIGH, MEDIUM, LOW yields the four samples for those levels, with those values, in that order |
| Collector.ExampleSummary | inspector_exporter/collector.py:86-100 | the example record (app, v1, sha256:abc, 111, counts 2/1/0/5) builds one summary with counts CRITICAL 2, HIGH 1, MEDIUM 0, LOW 2 |
| Collector.PutAllOne | inspector_exporter/collector.py:102-103 | merging one summary into the empty cache gives the one-key cache with a one-element list |
| Collector.ExampleRender | inspector_exporter/collector.py:27-105 | the example record, merged into an empty cache and rendered, gives the four samples labelled (app, v1, sha256:abc, 111, uri:v1, level) with values 2, 1, 0, 2 |
| Collector.EndToEndExample | inspector_exporter/collector.py:27-105 | a new collector refreshed with the example record and then collected emits those four samples |

## Left out

- Client construction, pagination, `build_full_result` and the STS caller-identity lookup (`inspector_exporter/collector.py:11-16, 22-24, 63-83`): these are foreign network calls. The record list and the account id are parameters instead.
- Collector.InspectorMetricsCollector.constructor: when the given account id is empty, the source falls back to an STS lookup. That lookup is not modelled, and the given id is kept as is.
- `TTLCache` expiry after 86400 seconds and eviction beyond 10000 entries (`inspector_exporter/collector.py:25`): these depend on the wall clock and on a library that is not part of this model. The cache is a plain insertion-ordered map that never expires.
- The `GaugeMetricFamily` object, its name, help text and label names, and the logging calls (`inspector_exporter/collector.py:29-35, 58-60, 64, 109`). The metric family is a sequence of samples, each a (label values, value) pair. The label names are the constant `Metrics.LABEL_NAMES`; the family's name and help text are not modelled.
- `refresh_caches` (`inspector_exporter/collector.py:107-109`) only calls `refresh_image_cache` and logs, so it is modelled by `RefreshImageCache`.
- Records with a field missing altogether would raise `KeyError` in the source. The model's record type always has every field. A null tag list is modelled (`None`).
- `int(...)` at `inspector_exporter/collector.py:55` is the identity on the integer counts the model holds.
- Concurrency between the refresh loop and scrapes is not modelled. The source has no locking, and every operation is modelled as running alone.
- `inspector_exporter/server.py` (environment configuration, logging setup, signal handling, the HTTP server and the sleep-driven refresh loop), `setup.py` and `tests/test_collector.py` are process plumbing, packaging and a constructor test. They are not part of this model.
