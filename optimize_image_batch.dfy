// The `optimize-image-batch` edge function
// (supabase/functions/optimize-image-batch/index.ts): validates the request,
// downloads each path in slices of three and answers with one result per
// path and a summary.
//
// Each storage download is represented by its outcome, indexed by the
// path's position in the request; a successful one carries the value
// `Math.random()` returned for it, from which the reported reduction is
// computed.

module OptimizeImageBatch {
  import opened Common
  import BatchOptimize

  const CorsHeaders: map<string, string> := map[
    "Access-Control-Allow-Origin" := "*",
    "Access-Control-Allow-Headers" := "authorization, x-client-info, apikey, content-type"]

  const JsonHeaders: map<string, string> := CorsHeaders["Content-Type" := "application/json"]

  const DefaultBucket := "gallery-images"
  const SliceSize := 3
  const MissingPathsMessage := "filePaths array is required"
  /** The text for a per-path failure that is not an `Error`. */
  const UnknownErrorMessage := "Unknown error"
  /** The text for a failure of the whole request that is not an `Error`. */
  const OptimizeFailedMessage := "Failed to optimize images"

  /** The `filePaths` member of the JSON body. */
  datatype FilePathsField = Absent | NotAnArray | Paths(paths: seq<string>)

  /** The body: `req.json()` threw, or it gave `filePaths` and an optional `bucket`. */
  datatype RequestBody = Unparsable(thrown: Thrown) | Json(filePaths: FilePathsField, bucket: Option<string>)

  datatype Request = Request(httpMethod: string, body: RequestBody)

  /** How the download of one path settled; `random` is the `Math.random()` value drawn for it. */
  datatype Download = Downloaded(random: real) | DownloadFailed(thrown: Thrown)

  datatype PathResult = PathResult(path: string, success: bool, reduction: Option<real>, error: Option<string>)

  datatype ResponseBody =
    | OkText
    | ErrorBody(error: string)
    | Report(processed: nat, results: seq<PathResult>, successful: nat, failed: nat, avgReduction: real)

  datatype Response = Response(status: nat, headers: map<string, string>, body: ResponseBody)

  /** `Math.round(x * 100) / 100` with `Math.round(y) = floor(y + 0.5)`. */
  function RoundTo2(x: real): real {
    ((x * 100.0 + 0.5).Floor as real) / 100.0
  }

  /** The mock reduction `Math.random() * 30 + 10`, rounded to two decimals. */
  function Reduction(random: real): real {
    RoundTo2(random * 30.0 + 10.0)
  }

  /** For `Math.random()` in [0, 1) the reported reduction lies in [10, 40]. */
  lemma ReductionRange(random: real)
    requires 0.0 <= random < 1.0
    ensures 10.0 <= Reduction(random) <= 40.0
  {
    var y := (random * 30.0 + 10.0) * 100.0 + 0.5;
    assert 1000.5 <= y < 4000.5;
    var f := y.Floor;
    assert 1000 <= f <= 4000;
  }

  /** `error instanceof Error ? error.message : fallback`. */
  function ErrorText(t: Thrown, fallback: string): string {
    match t
    case ErrorInstance(m) => m
    case OtherValue(_) => fallback
  }

  /** The result for one path. */
  function ResultFor(path: string, d: Download): (r: PathResult)
    ensures r.path == path
    ensures r.success <==> d.Downloaded?
    ensures r.success ==> r.reduction == Some(Reduction(d.random)) && r.error.None?
    ensures !r.success ==> r.reduction.None? && r.error == Some(ErrorText(d.thrown, UnknownErrorMessage))
  {
    match d
    case Downloaded(random) => PathResult(path, true, Some(Reduction(random)), None)
    case DownloadFailed(t) => PathResult(path, false, None, Some(ErrorText(t, UnknownErrorMessage)))
  }

  /**
   * The main loop: for each slice of three paths, downloads them and appends
   * their results in slice order. Returns the results and the
   * (bucket, path) pairs downloaded, in order.
   */
  method ProcessPaths(bucket: string, filePaths: seq<string>, downloads: nat -> Download)
    returns (results: seq<PathResult>, requested: seq<(string, string)>)
    ensures |results| == |filePaths| && |requested| == |filePaths|
    ensures forall k :: 0 <= k < |filePaths| ==> results[k] == ResultFor(filePaths[k], downloads(k))
    ensures forall k :: 0 <= k < |filePaths| ==> requested[k] == (bucket, filePaths[k])
  {
    results, requested := [], [];
    var i := 0;
    while i < |filePaths|
      invariant |results| == Min(i, |filePaths|) && |requested| == |results|
      invariant forall k :: 0 <= k < |results| ==> results[k] == ResultFor(filePaths[k], downloads(k))
      invariant forall k :: 0 <= k < |results| ==> requested[k] == (bucket, filePaths[k])
    {
      var end := Min(i + SliceSize, |filePaths|);
      var batch := filePaths[i..end];
      var batchResults := seq(|batch|, j requires 0 <= j < |batch| => ResultFor(batch[j], downloads(i + j)));
      var batchRequests := seq(|batch|, j requires 0 <= j < |batch| => (bucket, batch[j]));
      assert |results| == i;
      BatchExtends(results, batchResults, filePaths, downloads, i, end);
      BatchRequested(requested, batchRequests, bucket, filePaths, i, end);
      requested := requested + batchRequests;
      results := results + batchResults;
      i := i + SliceSize;
    }
  }

  /** Appending the results of the slice `i..end` keeps each result at its path's index. */
  lemma BatchExtends(results: seq<PathResult>, batchResults: seq<PathResult>, filePaths: seq<string>,
                     downloads: nat -> Download, i: nat, end: nat)
    requires |results| == i <= end <= |filePaths| && |batchResults| == end - i
    requires forall k :: 0 <= k < i ==> results[k] == ResultFor(filePaths[k], downloads(k))
    requires forall j :: 0 <= j < end - i ==> batchResults[j] == ResultFor(filePaths[i..end][j], downloads(i + j))
    ensures forall k :: 0 <= k < end ==> (results + batchResults)[k] == ResultFor(filePaths[k], downloads(k))
  {
    forall k | 0 <= k < end
      ensures (results + batchResults)[k] == ResultFor(filePaths[k], downloads(k))
    {
      if k >= i {
        assert (results + batchResults)[k] == batchResults[k - i];
        assert filePaths[i..end][k - i] == filePaths[k];
      }
    }
  }

  /** Appending the requests of the slice `i..end` keeps each request at its path's index. */
  lemma BatchRequested(requested: seq<(string, string)>, batchRequests: seq<(string, string)>, bucket: string,
                       filePaths: seq<string>, i: nat, end: nat)
    requires |requested| == i <= end <= |filePaths| && |batchRequests| == end - i
    requires forall k :: 0 <= k < i ==> requested[k] == (bucket, filePaths[k])
    requires forall j :: 0 <= j < end - i ==> batchRequests[j] == (bucket, filePaths[i..end][j])
    ensures forall k :: 0 <= k < end ==> (requested + batchRequests)[k] == (bucket, filePaths[k])
  {
    forall k | 0 <= k < end
      ensures (requested + batchRequests)[k] == (bucket, filePaths[k])
    {
      if k >= i {
        assert (requested + batchRequests)[k] == batchRequests[k - i];
        assert filePaths[i..end][k - i] == filePaths[k];
      }
    }
  }

  function CountSuccessful(results: seq<PathResult>): nat {
    if |results| == 0 then 0
    else CountSuccessful(results[..|results| - 1]) + (if results[|results| - 1].success then 1 else 0)
  }

  function CountFailed(results: seq<PathResult>): nat {
    if |results| == 0 then 0
    else CountFailed(results[..|results| - 1]) + (if results[|results| - 1].success then 0 else 1)
  }

  /** The sum of the truthy reductions of the successful results. */
  function SumReductions(results: seq<PathResult>): real {
    if |results| == 0 then 0.0
    else
      var r := results[|results| - 1];
      SumReductions(results[..|results| - 1])
      + (if r.success && r.reduction.Some? && r.reduction.value != 0.0 then r.reduction.value else 0.0)
  }

  /** Successful and failed results partition the results. */
  lemma {:induction false} SummaryPartitions(results: seq<PathResult>)
    ensures CountSuccessful(results) + CountFailed(results) == |results|
  {
    if |results| > 0 {
      SummaryPartitions(results[..|results| - 1]);
    }
  }

  /** `sum / successful || 0`: the NaN of no successes becomes 0. */
  function AverageReduction(results: seq<PathResult>): real {
    if CountSuccessful(results) == 0 then 0.0 else SumReductions(results) / (CountSuccessful(results) as real)
  }

  /** The request handler. */
  method Handle(req: Request, downloads: nat -> Download) returns (resp: Response, requested: seq<(string, string)>)
    ensures req.httpMethod == "OPTIONS" ==> resp == Response(200, CorsHeaders, OkText) && requested == []
    ensures req.httpMethod != "OPTIONS" && req.body.Unparsable? ==>
      resp == Response(500, JsonHeaders, ErrorBody(ErrorText(req.body.thrown, OptimizeFailedMessage))) && requested == []
    ensures req.httpMethod != "OPTIONS" && req.body.Json? && (!req.body.filePaths.Paths? || req.body.filePaths.paths == []) ==>
      resp == Response(400, JsonHeaders, ErrorBody(MissingPathsMessage)) && requested == []
    ensures req.httpMethod != "OPTIONS" && req.body.Json? && req.body.filePaths.Paths? && req.body.filePaths.paths != [] ==>
      var paths := req.body.filePaths.paths;
      var bucket := if req.body.bucket.Some? then req.body.bucket.value else DefaultBucket;
      && resp.status == 200 && resp.headers == JsonHeaders && resp.body.Report?
      && resp.body.processed == |paths| == |resp.body.results|
      && (forall k :: 0 <= k < |paths| ==> resp.body.results[k] == ResultFor(paths[k], downloads(k)))
      && resp.body.successful + resp.body.failed == |paths|
      && resp.body.successful == CountSuccessful(resp.body.results)
      && resp.body.avgReduction == AverageReduction(resp.body.results)
      && requested == seq(|paths|, k requires 0 <= k < |paths| => (bucket, paths[k]))
  {
    if req.httpMethod == "OPTIONS" {
      return Response(200, CorsHeaders, OkText), [];
    }
    match req.body
    case Unparsable(t) =>
      resp, requested := Response(500, JsonHeaders, ErrorBody(ErrorText(t, OptimizeFailedMessage))), [];
    case Json(filePaths, bucketField) =>
      var bucket := if bucketField.Some? then bucketField.value else DefaultBucket;
      if !filePaths.Paths? || |filePaths.paths| == 0 {
        return Response(400, JsonHeaders, ErrorBody(MissingPathsMessage)), [];
      }
      var results;
      results, requested := ProcessPaths(bucket, filePaths.paths, downloads);
      SummaryPartitions(results);
      resp := Response(200, JsonHeaders,
        Report(|results|, results, CountSuccessful(results), CountFailed(results), AverageReduction(results)));
  }

  // ---------------------------------------------------------------------
  // What the admin page receives

  /** The client's view of one result: `success` and `reduction`. */
  function AsItemResult(r: PathResult): BatchOptimize.ItemResult {
    BatchOptimize.ItemResult(r.success, r.reduction)
  }

  /** The results for a batch of paths, as the handler computes them. */
  function BatchResults(batch: seq<string>, downloads: nat -> Download): seq<PathResult> {
    seq(|batch|, k requires 0 <= k < |batch| => ResultFor(batch[k], downloads(k)))
  }

  /**
   * A response of this function answers for every path of the batch the
   * admin page sent, and every path it reports as downloaded counts as a
   * success there (its reduction is at least 10, so never zero).
   */
  lemma ResponseAnswersBatch(batch: seq<string>, downloads: nat -> Download)
    requires forall k :: 0 <= k < |batch| ==> (downloads(k).Downloaded? ==> 0.0 <= downloads(k).random < 1.0)
    ensures var items := seq(|batch|, k requires 0 <= k < |batch| => AsItemResult(BatchResults(batch, downloads)[k]));
      && BatchOptimize.Answers(batch, BatchOptimize.Answered(Some(items)))
      && forall k :: 0 <= k < |batch| ==> (BatchOptimize.Succeeded(items[k]) <==> downloads(k).Downloaded?)
  {
    forall k | 0 <= k < |batch| && downloads(k).Downloaded?
      ensures Reduction(downloads(k).random) != 0.0
    {
      ReductionRange(downloads(k).random);
    }
  }
}
