/**
 * The records the collector works on: the upstream finding-aggregation
 * record for one container image, the image scan summary that the cache
 * holds, and the two pure transformations between them, the repository
 * URI derived from the record's resource id and the remapped severity
 * counts (inspector_exporter/collector.py).
 */
module Records {
  import opened Strings

  datatype Option<T> = None | Some(value: T)

  /** The one error the transformation raises: indexing a too-short resource id. */
  datatype Error = IndexError

  datatype Result<T> = Ok(value: T) | Err(error: Error)

  /** The upstream `severityCounts` object of an aggregation record. */
  datatype UpstreamCounts = UpstreamCounts(critical: int, high: int, medium: int, all: int)

  /**
   * The `awsEcrContainerAggregation` part of one upstream aggregation
   * record. `imageTags == None` stands for a null tag list.
   */
  datatype AggregationRecord = AggregationRecord(
    repository: string,
    accountId: string,
    imageTags: Option<seq<string>>,
    imageSha: string,
    resourceId: string,
    severityCounts: UpstreamCounts)

  /** A dictionary from severity level to count, in insertion order. */
  type SeverityCounts = seq<(string, int)>

  /** The summary of one image that the cache holds. */
  datatype ImageSummary = ImageSummary(
    repositoryName: string,
    accountId: string,
    imageTags: Option<seq<string>>,
    imageDigest: string,
    repositoryUri: string,
    severityCounts: SeverityCounts)

  /** No key occurs twice. */
  predicate Distinct(ks: seq<string>)
  {
    forall i, j :: 0 <= i < j < |ks| ==> ks[i] != ks[j]
  }

  /** The severity levels of a formatted count dictionary, in its key order. */
  const SEVERITY_LEVELS: seq<string> := ["CRITICAL", "HIGH", "MEDIUM", "LOW"]

  /** The keys of a count dictionary, in order. */
  function Levels(counts: SeverityCounts): (levels: seq<string>)
    ensures |levels| == |counts|
    ensures forall i :: 0 <= i < |counts| ==> levels[i] == counts[i].0
  {
    if counts == [] then [] else [counts[0].0] + Levels(counts[1..])
  }

  /** `counts[level]`, or `None` when `level` is not a key. */
  function Lookup(counts: SeverityCounts, level: string): Option<int>
  {
    if counts == [] then None
    else if counts[0].0 == level then Some(counts[0].1)
    else Lookup(counts[1..], level)
  }

  /** The sum of the values of a count dictionary. */
  function Total(counts: SeverityCounts): int
  {
    if counts == [] then 0 else counts[0].1 + Total(counts[1..])
  }

  /**
   * In a dictionary whose keys are distinct, looking up the key of an entry
   * gives that entry's value: walking the entries in order is walking the
   * dictionary.
   */
  lemma {:induction false} LookupAt(counts: SeverityCounts, k: nat)
    requires k < |counts| && Distinct(Levels(counts))
    ensures Lookup(counts, counts[k].0) == Some(counts[k].1)
  {
    if k > 0 {
      var levels := Levels(counts);
      assert levels[0] != levels[k];
      assert Levels(counts[1..]) == levels[1..];
      assert Distinct(Levels(counts[1..]));
      LookupAt(counts[1..], k - 1);
    }
  }

  /** The ECR registry URI of repository `repoName` in `account` and `region`. */
  function RepositoryUri(account: string, region: string, repoName: string): string
  {
    account + ".dkr.ecr." + region + ".amazonaws.com/" + repoName
  }

  /**
   * `get_repo_uri`: the registry URI of `repoName`, taking the account id
   * and the region from segments 4 and 3 of the `:`-separated resource id.
   * Indexing segment 4 raises when there are fewer than five segments.
   */
  function GetRepoUri(resourceId: string, repoName: string): (r: Result<string>)
    ensures r.Err? <==> Occurrences(resourceId, ':') < 4
  {
    var idParts := Split(resourceId, ':');
    if |idParts| < 5 then Err(IndexError)
    else Ok(RepositoryUri(idParts[4], idParts[3], repoName))
  }

  /**
   * `format_severity_counts`: upper-case keys in the order CRITICAL, HIGH,
   * MEDIUM, LOW; the first three copied, LOW the remainder of `all`,
   * not clamped at zero.
   */
  function FormatSeverityCounts(upstream: UpstreamCounts): (counts: SeverityCounts)
    ensures Levels(counts) == SEVERITY_LEVELS
    ensures Lookup(counts, "CRITICAL") == Some(upstream.critical)
    ensures Lookup(counts, "HIGH") == Some(upstream.high)
    ensures Lookup(counts, "MEDIUM") == Some(upstream.medium)
    ensures Lookup(counts, "LOW") == Some(upstream.all - upstream.critical - upstream.high - upstream.medium)
    ensures Total(counts) == upstream.all
    ensures counts[3].1 >= 0 <==> upstream.all >= upstream.critical + upstream.high + upstream.medium
  {
    var low := ("LOW", upstream.all - upstream.critical - upstream.high - upstream.medium);
    var medium := [("MEDIUM", upstream.medium), low];
    var high := [("HIGH", upstream.high)] + medium;
    var counts := [("CRITICAL", upstream.critical)] + high;
    assert counts[1..] == high && high[1..] == medium && medium[1..] == [low];
    assert "CRITICAL" != "HIGH" && "CRITICAL" != "MEDIUM" && "CRITICAL" != "LOW";
    assert "HIGH" != "MEDIUM" && "HIGH" != "LOW" && "MEDIUM" != "LOW";
    assert Lookup(counts, "MEDIUM") == Lookup(high, "MEDIUM") == Lookup(medium, "MEDIUM");
    assert Lookup(counts, "LOW") == Lookup(high, "LOW") == Lookup(medium, "LOW") == Lookup([low], "LOW");
    assert [low][1..] == [];
    assert Total(counts) == upstream.critical + Total(high);
    assert Total(high) == upstream.high + Total(medium);
    assert Total(medium) == upstream.medium + Total([low]);
    assert Total([low]) == low.1 + Total([]);
    counts
  }

  /** The four severity levels are distinct. */
  lemma SeverityLevelsDistinct()
    ensures Distinct(SEVERITY_LEVELS)
  {
    assert "CRITICAL" != "HIGH" && "CRITICAL" != "MEDIUM" && "CRITICAL" != "LOW";
    assert "HIGH" != "MEDIUM" && "HIGH" != "LOW" && "MEDIUM" != "LOW";
  }

  /**
   * The summary the refresh loop builds from one record; it fails exactly
   * when the repository URI cannot be derived.
   */
  function BuildSummary(rec: AggregationRecord): Result<ImageSummary>
  {
    match GetRepoUri(rec.resourceId, rec.repository)
    case Err(e) => Err(e)
    case Ok(uri) =>
      Ok(ImageSummary(
        rec.repository, rec.accountId, rec.imageTags, rec.imageSha, uri,
        FormatSeverityCounts(rec.severityCounts)))
  }

  /**
   * Building fails exactly when the repository URI cannot be derived;
   * otherwise the summary copies the record's name, account, tags and
   * digest, carries the derived URI and the remapped counts.
   */
  lemma BuildSummaryFields(rec: AggregationRecord)
    ensures BuildSummary(rec).Err? <==> Occurrences(rec.resourceId, ':') < 4
    ensures BuildSummary(rec).Ok? ==>
      var r := BuildSummary(rec).value;
      && r.repositoryName == rec.repository
      && r.accountId == rec.accountId
      && r.imageTags == rec.imageTags
      && r.imageDigest == rec.imageSha
      && Ok(r.repositoryUri) == GetRepoUri(rec.resourceId, rec.repository)
      && Levels(r.severityCounts) == SEVERITY_LEVELS
      && r.severityCounts == FormatSeverityCounts(rec.severityCounts)
      && Total(r.severityCounts) == rec.severityCounts.all
  {
  }

  /** Every record in `records` yields a summary. */
  predicate AllBuild(records: seq<AggregationRecord>)
  {
    forall i :: 0 <= i < |records| ==> BuildSummary(records[i]).Ok?
  }

  /** The summaries of `records`, in order. */
  function Summaries(records: seq<AggregationRecord>): (summaries: seq<ImageSummary>)
    requires AllBuild(records)
    ensures |summaries| == |records|
    ensures forall i :: 0 <= i < |records| ==> BuildSummary(records[i]) == Ok(summaries[i])
  {
    if records == [] then []
    else Summaries(records[..|records| - 1]) + [BuildSummary(records[|records| - 1]).value]
  }

  lemma SummariesSnoc(records: seq<AggregationRecord>, i: nat)
    requires i < |records| && AllBuild(records[..i]) && BuildSummary(records[i]).Ok?
    ensures AllBuild(records[..i + 1])
    ensures Summaries(records[..i + 1]) == Summaries(records[..i]) + [BuildSummary(records[i]).value]
  {
    assert records[..i + 1][..i] == records[..i];
  }

  /**
   * The repository URI of a resource id assembled from separator-free
   * segments: segment 4 is the account, segment 3 the region.
   */
  lemma GetRepoUriOfSegments(segments: seq<string>, repoName: string)
    requires |segments| >= 5
    requires forall i :: 0 <= i < |segments| ==> ':' !in segments[i]
    ensures GetRepoUri(Join(segments, ':'), repoName)
         == Ok(segments[4] + ".dkr.ecr." + segments[3] + ".amazonaws.com/" + repoName)
  {
    SplitJoin(segments, ':');
  }

  /** Segments after the fifth do not affect the derived URI. */
  lemma GetRepoUriIgnoresTail(segments: seq<string>, tail: seq<string>, repoName: string)
    requires |segments| >= 5
    requires forall i :: 0 <= i < |segments| ==> ':' !in segments[i]
    requires forall i :: 0 <= i < |tail| ==> ':' !in tail[i]
    ensures GetRepoUri(Join(segments + tail, ':'), repoName) == GetRepoUri(Join(segments, ':'), repoName)
  {
    var all := segments + tail;
    assert forall i :: 0 <= i < |all| ==> ':' !in all[i] by {
      forall i | 0 <= i < |all| ensures ':' !in all[i] {
        if i < |segments| { assert all[i] == segments[i]; } else { assert all[i] == tail[i - |segments|]; }
      }
    }
    GetRepoUriOfSegments(all, repoName);
    GetRepoUriOfSegments(segments, repoName);
    assert all[3] == segments[3] && all[4] == segments[4];
  }

  /** The segments after the service name of an ECR repository ARN, joined with `:`. */
  lemma EcrArnTailJoin(region: string, account: string, path: string)
    ensures Join([region, account, path], ':') == region + ":" + account + ":" + path
  {
    JoinCons(account, [path], ':');
    JoinCons(region, [account, path], ':');
    assert [region] + [account, path] == [region, account, path];
  }

  /** The segments of an ECR repository ARN, joined with `:`. */
  lemma EcrArnJoin(region: string, account: string, path: string)
    ensures Join(["arn", "aws", "ecr", region, account, path], ':')
         == "arn:aws:ecr:" + region + ":" + account + ":" + path
  {
    var tail := region + ":" + account + ":" + path;
    var s3 := [region, account, path];
    EcrArnTailJoin(region, account, path);
    JoinCons("ecr", s3, ':');
    JoinCons("aws", ["ecr"] + s3, ':');
    JoinCons("arn", ["aws"] + (["ecr"] + s3), ':');
    assert ["arn"] + (["aws"] + (["ecr"] + s3)) == ["arn", "aws", "ecr", region, account, path];
    assert "arn" + [':'] + ("aws" + [':'] + ("ecr" + [':'] + tail)) == "arn:aws:ecr:" + tail;
    assert "arn:aws:ecr:" + tail == "arn:aws:ecr:" + region + ":" + account + ":" + path;
  }

  /**
   * An ECR repository ARN `arn:aws:ecr:REGION:ACCOUNT:PATH` gives the
   * registry URI in ACCOUNT and REGION.
   */
  lemma GetRepoUriOfEcrArn(region: string, account: string, path: string, repoName: string)
    requires ':' !in region && ':' !in account && ':' !in path
    ensures GetRepoUri("arn:aws:ecr:" + region + ":" + account + ":" + path, repoName)
         == Ok(account + ".dkr.ecr." + region + ".amazonaws.com/" + repoName)
  {
    var segments := ["arn", "aws", "ecr", region, account, path];
    EcrArnJoin(region, account, path);
    assert forall i :: 0 <= i < |segments| ==> ':' !in segments[i] by {
      assert ':' !in "arn" && ':' !in "aws" && ':' !in "ecr";
    }
    GetRepoUriOfSegments(segments, repoName);
  }

  /**
   * A worked example: the repository ARN
   * `arn:aws:ecr:us-east-1:123456789012:repository/my-repo`.
   */
  lemma GetRepoUriExample()
    ensures GetRepoUri("arn:aws:ecr:us-east-1:123456789012:repository/my-repo", "my-repo")
         == Ok("123456789012.dkr.ecr.us-east-1.amazonaws.com/my-repo")
  {
    var region, account, path := "us-east-1", "123456789012", "repository/my-repo";
    assert ':' !in region && ':' !in account && ':' !in path;
    GetRepoUriOfEcrArn(region, account, path, "my-repo");
    ExampleArn();
    ExampleUri();
  }

  /** The example ARN, assembled from its region, account and path. */
  lemma ExampleArn()
    ensures "arn:aws:ecr:" + "us-east-1" + ":" + "123456789012" + ":" + "repository/my-repo"
         == "arn:aws:ecr:us-east-1:123456789012:repository/my-repo"
  {
    assert "arn:aws:ecr:" + "us-east-1" == "arn:aws:ecr:us-east-1";
    assert "arn:aws:ecr:us-east-1" + ":" == "arn:aws:ecr:us-east-1:";
    assert "arn:aws:ecr:us-east-1:" + "123456789012" == "arn:aws:ecr:us-east-1:123456789012";
    assert "arn:aws:ecr:us-east-1:123456789012" + ":" == "arn:aws:ecr:us-east-1:123456789012:";
  }

  /** The example registry URI, assembled from its account, region and repository. */
  lemma ExampleUri()
    ensures "123456789012" + ".dkr.ecr." + "us-east-1" + ".amazonaws.com/" + "my-repo"
         == "123456789012.dkr.ecr.us-east-1.amazonaws.com/my-repo"
  {
    assert "123456789012" + ".dkr.ecr." == "123456789012.dkr.ecr.";
    assert "123456789012.dkr.ecr." + "us-east-1" == "123456789012.dkr.ecr.us-east-1";
    assert "123456789012.dkr.ecr.us-east-1" + ".amazonaws.com/" == "123456789012.dkr.ecr.us-east-1.amazonaws.com/";
  }
}
