// Chunked, queued and batched processing (src/lib/chunked-processor.ts).
//
// The per-item processor, the tasks of the concurrency queue and the batch
// handler are remote or user code: each call is represented by its outcome,
// supplied as an input (a resolved value or a thrown value). Callbacks are
// recorded in an event trace in the order they are invoked, and the
// between-chunk `setTimeout` appears in that trace as a `Pause`.

module ChunkedProcessor {
  import opened Common

  /** `e instanceof Error ? e : new Error(String(e))` */
  function AsError(t: Thrown): (e: Thrown)
    ensures e.ErrorInstance?
    ensures t.ErrorInstance? ==> e == t
    ensures t.OtherValue? ==> e.message == t.text
  {
    match t
    case ErrorInstance(_) => t
    case OtherValue(text) => ErrorInstance(text)
  }

  /** How one awaited call settled. */
  datatype Outcome<R> = Resolved(value: R) | Rejected(thrown: Thrown)

  datatype ItemError<T> = ItemError(item: T, index: nat, error: Thrown)

  datatype ProcessingResult<T, R> = ProcessingResult(
    processed: seq<R>,
    errors: seq<ItemError<T>>,
    totalProcessed: nat,
    totalErrors: nat)

  /** One callback invocation (`onProgress`, `onError`, `onChunkComplete`) or one between-chunk delay. */
  datatype Event<T> =
    | Progress(processed: nat, total: nat)
    | ErrorReported(error: Thrown, item: T, index: nat)
    | ChunkComplete(chunkIndex: nat, processedCount: nat)
    | Pause(ms: int)

  datatype EventKind = ProgressKind | ErrorKind | ChunkKind | PauseKind

  function KindOf<T>(e: Event<T>): EventKind {
    match e
    case Progress(_, _) => ProgressKind
    case ErrorReported(_, _, _) => ErrorKind
    case ChunkComplete(_, _) => ChunkKind
    case Pause(_) => PauseKind
  }

  /** The events of one kind, in trace order. */
  function Select<T>(trace: seq<Event<T>>, kind: EventKind): seq<Event<T>> {
    if |trace| == 0 then []
    else
      Select(trace[..|trace| - 1], kind)
      + (if KindOf(trace[|trace| - 1]) == kind then [trace[|trace| - 1]] else [])
  }

  lemma SelectSnoc<T>(trace: seq<Event<T>>, e: Event<T>, kind: EventKind)
    ensures Select(trace + [e], kind) == Select(trace, kind) + (if KindOf(e) == kind then [e] else [])
  {
    assert (trace + [e])[..|trace|] == trace;
  }

  /** Appending one event extends exactly the selection of its own kind. */
  lemma SelectSnocAll<T>(trace: seq<Event<T>>, e: Event<T>)
    ensures Select(trace + [e], ProgressKind)
      == Select(trace, ProgressKind) + (if e.Progress? then [e] else [])
    ensures Select(trace + [e], ErrorKind)
      == Select(trace, ErrorKind) + (if e.ErrorReported? then [e] else [])
    ensures Select(trace + [e], ChunkKind)
      == Select(trace, ChunkKind) + (if e.ChunkComplete? then [e] else [])
    ensures Select(trace + [e], PauseKind)
      == Select(trace, PauseKind) + (if e.Pause? then [e] else [])
  {
    SelectSnoc(trace, e, ProgressKind);
    SelectSnoc(trace, e, ErrorKind);
    SelectSnoc(trace, e, ChunkKind);
    SelectSnoc(trace, e, PauseKind);
  }

  const DefaultDelay := 10

  // ---------------------------------------------------------------------
  // What a run is expected to report, as functions of the outcomes

  /** The resolved values, in input order. */
  function Successes<R>(outcomes: seq<Outcome<R>>): seq<R> {
    if |outcomes| == 0 then []
    else
      Successes(outcomes[..|outcomes| - 1])
      + (match outcomes[|outcomes| - 1] case Resolved(v) => [v] case Rejected(_) => [])
  }

  /** The resolved values among the first m outcomes. */
  function SuccessesBefore<R>(outcomes: seq<Outcome<R>>, m: nat): seq<R>
    requires m <= |outcomes|
  {
    if m == 0 then []
    else
      SuccessesBefore(outcomes, m - 1)
      + (match outcomes[m - 1] case Resolved(v) => [v] case Rejected(_) => [])
  }

  /** One error record per rejected item among the first m, in input order, with its index and normalised error. */
  function FailuresBefore<T, R>(items: seq<T>, outcomes: seq<Outcome<R>>, m: nat): seq<ItemError<T>>
    requires |items| == |outcomes| && m <= |items|
  {
    if m == 0 then []
    else
      FailuresBefore(items, outcomes, m - 1)
      + (match outcomes[m - 1] case Resolved(_) => [] case Rejected(t) => [ItemError(items[m - 1], m - 1, AsError(t))])
  }

  function Failures<T, R>(items: seq<T>, outcomes: seq<Outcome<R>>): seq<ItemError<T>>
    requires |items| == |outcomes|
  {
    FailuresBefore(items, outcomes, |items|)
  }

  /** `onProgress(1, total)`, ..., `onProgress(count, total)`. */
  function ProgressReports<T>(count: nat, total: nat): seq<Event<T>> {
    if count == 0 then [] else ProgressReports(count - 1, total) + [Progress(count, total)]
  }

  /** One `onError` per error record, in order. */
  function ErrorReports<T>(errors: seq<ItemError<T>>): seq<Event<T>> {
    if |errors| == 0 then []
    else
      var e := errors[|errors| - 1];
      ErrorReports(errors[..|errors| - 1]) + [ErrorReported(e.error, e.item, e.index)]
  }

  /** Chunk k reports index k and the number of successes among its items. */
  function ChunkReports<T, R>(chunks: seq<seq<Outcome<R>>>): seq<Event<T>> {
    if |chunks| == 0 then []
    else
      ChunkReports(chunks[..|chunks| - 1])
      + [ChunkComplete(|chunks| - 1, |Successes(chunks[|chunks| - 1])|)]
  }

  function Pauses<T>(count: nat, ms: int): seq<Event<T>> {
    if count == 0 then [] else Pauses(count - 1, ms) + [Pause(ms)]
  }

  lemma {:induction false} SuccessesAppend<R>(a: seq<Outcome<R>>, b: seq<Outcome<R>>)
    ensures Successes(a + b) == Successes(a) + Successes(b)
    decreases |b|
  {
    if |b| > 0 {
      var b' := b[..|b| - 1];
      assert (a + b)[..|a + b| - 1] == a + b';
      SuccessesAppend(a, b');
    } else {
      assert a + b == a;
    }
  }

  lemma {:induction false} SuccessesBeforeIsPrefix<R>(outcomes: seq<Outcome<R>>, m: nat)
    requires m <= |outcomes|
    ensures SuccessesBefore(outcomes, m) == Successes(outcomes[..m])
  {
    if m > 0 {
      SuccessesBeforeIsPrefix(outcomes, m - 1);
      assert outcomes[..m][..m - 1] == outcomes[..m - 1];
    }
  }

  /** The successes of items start .. end - 1 are those of the slice. */
  lemma SuccessesBetween<R>(outcomes: seq<Outcome<R>>, start: nat, end: nat)
    requires start <= end <= |outcomes|
    ensures |SuccessesBefore(outcomes, end)| == |SuccessesBefore(outcomes, start)| + |Successes(outcomes[start..end])|
  {
    SuccessesBeforeIsPrefix(outcomes, start);
    SuccessesBeforeIsPrefix(outcomes, end);
    assert outcomes[..start] + outcomes[start..end] == outcomes[..end];
    SuccessesAppend(outcomes[..start], outcomes[start..end]);
  }

  // ---------------------------------------------------------------------
  // processInChunks

  /** The callback made right after item g settles: `onProgress` or `onError`. */
  function ItemEvent<T, R>(items: seq<T>, outcomes: seq<Outcome<R>>, g: nat): Event<T>
    requires |items| == |outcomes| && g < |items|
  {
    match outcomes[g]
    case Resolved(_) => Progress(|SuccessesBefore(outcomes, g + 1)|, |items|)
    case Rejected(t) => ErrorReported(AsError(t), items[g], g)
  }

  /** The callbacks for the items with indices a .. b - 1, in order. */
  function ItemEvents<T, R>(items: seq<T>, outcomes: seq<Outcome<R>>, a: nat, b: nat): seq<Event<T>>
    requires |items| == |outcomes| && a <= b <= |items|
    decreases b - a
  {
    if a == b then [] else ItemEvents(items, outcomes, a, b - 1) + [ItemEvent(items, outcomes, b - 1)]
  }

  /**
   * What chunk number c, which begins at index i, adds to the trace: its
   * item callbacks, its `onChunkComplete`, and the delay when items follow.
   */
  function ChunkEvents<T, R>(items: seq<T>, outcomes: seq<Outcome<R>>, k: nat, d: int, i: nat, c: nat): seq<Event<T>>
    requires |items| == |outcomes| && k > 0 && i < |items|
  {
    var end := Min(i + k, |items|);
    ItemEvents(items, outcomes, i, end)
    + [ChunkComplete(c, |Successes(outcomes[i..end])|)]
    + (if d > 0 && end < |items| then [Pause(d)] else [])
  }

  /** The trace of a run from index i, where chunk number c begins. */
  function RunTrace<T, R>(items: seq<T>, outcomes: seq<Outcome<R>>, k: nat, d: int, i: nat, c: nat): seq<Event<T>>
    requires |items| == |outcomes| && k > 0 && i <= |items|
    decreases |items| - i
  {
    if i == |items| then []
    else ChunkEvents(items, outcomes, k, d, i, c) + RunTrace(items, outcomes, k, d, Min(i + k, |items|), c + 1)
  }

  lemma NextChunkStart(i: int, c: int, k: int)
    requires i == c * k
    ensures i + k == (c + 1) * k
  {
  }

  /** One chunk of the run: the trace so far, extended by chunk c, leaves the rest of the run. */
  lemma RunTraceStep<T, R>(items: seq<T>, outcomes: seq<Outcome<R>>, k: nat, d: int, i: nat, c: nat, trace: seq<Event<T>>)
    requires |items| == |outcomes| && k > 0 && i < |items|
    requires trace + RunTrace(items, outcomes, k, d, i, c) == RunTrace(items, outcomes, k, d, 0, 0)
    ensures var end := Min(i + k, |items|);
      var done := trace + ItemEvents(items, outcomes, i, end) + [ChunkComplete(c, |Successes(outcomes[i..end])|)];
      var rest := RunTrace(items, outcomes, k, d, end, c + 1);
      && (d > 0 && i + k < |items| ==> done + [Pause(d)] + rest == RunTrace(items, outcomes, k, d, 0, 0))
      && (!(d > 0 && i + k < |items|) ==> done + rest == RunTrace(items, outcomes, k, d, 0, 0))
  {
    var end := Min(i + k, |items|);
    var ie := ItemEvents(items, outcomes, i, end);
    var cc := [ChunkComplete(c, |Successes(outcomes[i..end])|)];
    var step := ChunkEvents(items, outcomes, k, d, i, c);
    var rest := RunTrace(items, outcomes, k, d, end, c + 1);
    assert RunTrace(items, outcomes, k, d, i, c) == step + rest;
    AppendAssoc(trace, step, rest);
    AppendAssoc(trace, ie, cc);
    if d > 0 && i + k < |items| {
      assert step == (ie + cc) + [Pause(d)];
      AppendAssoc(trace, ie + cc, [Pause(d)]);
    } else {
      assert step == (ie + cc) + [];
      assert (ie + cc) + [] == ie + cc;
    }
  }

  /**
   * The inner loop of `processInChunks`: awaits the items with global
   * indices `start .. end - 1` one at a time, appending successes to
   * `processed` and error records to `errors`. Returns the updated
   * accumulators, the chunk's success count and the callbacks it made.
   */
  method ProcessChunk<T, R>(items: seq<T>, outcomes: seq<Outcome<R>>, start: nat, end: nat,
                           processed0: seq<R>, errors0: seq<ItemError<T>>)
    returns (processed: seq<R>, errors: seq<ItemError<T>>, chunkProcessedCount: nat, events: seq<Event<T>>)
    requires |outcomes| == |items| && start <= end <= |items|
    requires processed0 == SuccessesBefore(outcomes, start)
    requires errors0 == FailuresBefore(items, outcomes, start)
    ensures processed == SuccessesBefore(outcomes, end)
    ensures errors == FailuresBefore(items, outcomes, end)
    ensures chunkProcessedCount == |Successes(outcomes[start..end])|
    ensures events == ItemEvents(items, outcomes, start, end)
  {
    var n := |items|;
    var chunk := items[start..end];
    processed, errors, events := processed0, errors0, [];
    var processedCount := |processed0|;
    chunkProcessedCount := 0;
    var j := 0;
    while j < |chunk|
      invariant 0 <= j <= |chunk| == end - start
      invariant processed == SuccessesBefore(outcomes, start + j)
      invariant errors == FailuresBefore(items, outcomes, start + j)
      invariant processedCount == |processed|
      invariant chunkProcessedCount == processedCount - |processed0|
      invariant events == ItemEvents(items, outcomes, start, start + j)
    {
      var item := chunk[j];
      var globalIndex := start + j;
      match outcomes[globalIndex] {
        case Resolved(v) =>
          processed := processed + [v];
          processedCount := processedCount + 1;
          chunkProcessedCount := chunkProcessedCount + 1;
          events := events + [Progress(processedCount, n)];
        case Rejected(t) =>
          var info := ItemError(item, globalIndex, AsError(t));
          errors := errors + [info];
          events := events + [ErrorReported(info.error, item, globalIndex)];
      }
      j := j + 1;
    }
    SuccessesBetween(outcomes, start, end);
  }

  /**
   * Runs the items chunk by chunk: `outcomes[k]` is how the processor call
   * for item k (global index k) settles. Returns the result record and the
   * trace of callback invocations and delays.
   */
  method ProcessInChunks<T, R>(items: seq<T>, outcomes: seq<Outcome<R>>, chunkSize: int, delay: Option<int>)
    returns (result: ProcessingResult<T, R>, trace: seq<Event<T>>)
    requires |outcomes| == |items|
    requires chunkSize > 0 || |items| == 0
    ensures result.processed == Successes(outcomes)
    ensures result.errors == Failures(items, outcomes)
    ensures result.totalProcessed == |result.processed| && result.totalErrors == |result.errors|
    ensures |items| == 0 ==> trace == []
    ensures |items| > 0 ==>
      trace == RunTrace(items, outcomes, chunkSize, if delay.Some? then delay.value else DefaultDelay, 0, 0)
  {
    var d := if delay.Some? then delay.value else DefaultDelay;
    var n := |items|;
    ghost var k: nat := if chunkSize > 0 then chunkSize else 1;
    var processed: seq<R> := [];
    var errors: seq<ItemError<T>> := [];
    var processedCount: nat := 0;
    trace := [];
    var i := 0;
    ghost var c: nat := 0;
    ghost var done: nat := 0;
    while i < n
      invariant n > 0 ==> k == chunkSize
      invariant i == c * k && done <= n
      invariant i < n ==> done == i
      invariant i >= n ==> done == n
      invariant processed == SuccessesBefore(outcomes, done)
      invariant errors == FailuresBefore(items, outcomes, done)
      invariant processedCount == |processed|
      invariant trace + RunTrace(items, outcomes, k, d, done, c) == RunTrace(items, outcomes, k, d, 0, 0)
    {
      var end := if i + chunkSize < n then i + chunkSize else n;
      var chunkIndex := i / chunkSize;
      DivUnique(i, chunkSize, c, 0);
      var chunkProcessedCount;
      var chunkEvents;
      processed, errors, chunkProcessedCount, chunkEvents := ProcessChunk(items, outcomes, i, end, processed, errors);
      processedCount := |processed|;
      assert end == Min(i + k, n) && chunkIndex == c;
      RunTraceStep(items, outcomes, k, d, i, c, trace);
      trace := trace + chunkEvents + [ChunkComplete(chunkIndex, chunkProcessedCount)];
      if d > 0 && i + chunkSize < n {
        trace := trace + [Pause(d)];
      }
      NextChunkStart(i, c, k);
      i := i + chunkSize;
      c := c + 1;
      done := end;
    }
    SuccessesBeforeIsPrefix(outcomes, n);
    assert outcomes[..n] == outcomes;
    result := ProcessingResult(processed, errors, processedCount, |errors|);
  }

  // ---------------------------------------------------------------------
  // What each callback sees over a whole run

  lemma {:induction false} SelectAppend<T>(a: seq<Event<T>>, b: seq<Event<T>>, kind: EventKind)
    ensures Select(a + b, kind) == Select(a, kind) + Select(b, kind)
    decreases |b|
  {
    if |b| == 0 {
      assert a + b == a;
      assert Select(a, kind) + [] == Select(a, kind);
    } else {
      var b' := b[..|b| - 1];
      var e := b[|b| - 1];
      var tail: seq<Event<T>> := if KindOf(e) == kind then [e] else [];
      assert b == b' + [e];
      AppendAssoc(a, b', [e]);
      SelectSnoc(a + b', e, kind);
      SelectSnoc(b', e, kind);
      SelectAppend(a, b', kind);
      AppendAssoc(Select(a, kind), Select(b', kind), tail);
    }
  }

  /** The item callbacks continue the progress reports: one per success, counting up. */
  lemma {:induction false} ItemEventsProgress<T, R>(items: seq<T>, outcomes: seq<Outcome<R>>, a: nat, b: nat)
    requires |items| == |outcomes| && a <= b <= |items|
    ensures ProgressReports<T>(|SuccessesBefore(outcomes, a)|, |items|)
      + Select(ItemEvents(items, outcomes, a, b), ProgressKind)
      == ProgressReports<T>(|SuccessesBefore(outcomes, b)|, |items|)
    decreases b - a
  {
    if a < b {
      var g := b - 1;
      var seen := ItemEvents(items, outcomes, a, g);
      var e := ItemEvent(items, outcomes, g);
      var t := if e.Progress? then [e] else [];
      var before := ProgressReports<T>(|SuccessesBefore(outcomes, a)|, |items|);
      var upTo := ProgressReports<T>(|SuccessesBefore(outcomes, g)|, |items|);
      ItemEventsProgress(items, outcomes, a, g);
      assert Select(ItemEvents(items, outcomes, a, b), ProgressKind) == Select(seen, ProgressKind) + t by {
        assert ItemEvents(items, outcomes, a, b) == seen + [e];
        SelectSnoc(seen, e, ProgressKind);
      }
      assert ProgressReports<T>(|SuccessesBefore(outcomes, b)|, |items|) == upTo + t by {
        ProgressStep(items, outcomes, g);
      }
      ExtendBoth(before, Select(seen, ProgressKind), upTo, t);
    }
  }

  /** Item g adds its progress report, if it succeeded, to the reports so far. */
  lemma ProgressStep<T, R>(items: seq<T>, outcomes: seq<Outcome<R>>, g: nat)
    requires |items| == |outcomes| && g < |items|
    ensures var e := ItemEvent(items, outcomes, g);
      ProgressReports<T>(|SuccessesBefore(outcomes, g + 1)|, |items|)
      == ProgressReports<T>(|SuccessesBefore(outcomes, g)|, |items|) + (if e.Progress? then [e] else [])
  {
    if outcomes[g].Rejected? {
      assert SuccessesBefore(outcomes, g + 1) == SuccessesBefore(outcomes, g) + [];
    }
  }

  /** Appending the same tail to both sides keeps a split. */
  lemma ExtendBoth<X>(start: seq<X>, mid: seq<X>, whole: seq<X>, tail: seq<X>)
    requires start + mid == whole
    ensures start + (mid + tail) == whole + tail
  {
    AppendAssoc(start, mid, tail);
  }

  /** The item callbacks continue the error reports: one per failure, in order. */
  lemma {:induction false} ItemEventsErrors<T, R>(items: seq<T>, outcomes: seq<Outcome<R>>, a: nat, b: nat)
    requires |items| == |outcomes| && a <= b <= |items|
    ensures ErrorReports(FailuresBefore(items, outcomes, a))
      + Select(ItemEvents(items, outcomes, a, b), ErrorKind)
      == ErrorReports(FailuresBefore(items, outcomes, b))
    decreases b - a
  {
    if a < b {
      var g := b - 1;
      var seen := ItemEvents(items, outcomes, a, g);
      var e := ItemEvent(items, outcomes, g);
      var t := if e.ErrorReported? then [e] else [];
      var before := ErrorReports(FailuresBefore(items, outcomes, a));
      var upTo := ErrorReports(FailuresBefore(items, outcomes, g));
      ItemEventsErrors(items, outcomes, a, g);
      assert Select(ItemEvents(items, outcomes, a, b), ErrorKind) == Select(seen, ErrorKind) + t by {
        assert ItemEvents(items, outcomes, a, b) == seen + [e];
        SelectSnoc(seen, e, ErrorKind);
      }
      assert ErrorReports(FailuresBefore(items, outcomes, b)) == upTo + t by {
        ErrorStep(items, outcomes, g);
      }
      ExtendBoth(before, Select(seen, ErrorKind), upTo, t);
    }
  }

  /** Item g adds its error report, if it failed, to the reports so far. */
  lemma ErrorStep<T, R>(items: seq<T>, outcomes: seq<Outcome<R>>, g: nat)
    requires |items| == |outcomes| && g < |items|
    ensures var e := ItemEvent(items, outcomes, g);
      ErrorReports(FailuresBefore(items, outcomes, g + 1))
      == ErrorReports(FailuresBefore(items, outcomes, g)) + (if e.ErrorReported? then [e] else [])
  {
    var prior := FailuresBefore(items, outcomes, g);
    if outcomes[g].Rejected? {
      var x := ItemError(items[g], g, AsError(outcomes[g].thrown));
      assert FailuresBefore(items, outcomes, g + 1) == prior + [x];
      assert (prior + [x])[..|prior|] == prior;
    } else {
      assert FailuresBefore(items, outcomes, g + 1) == prior + [];
      assert prior + [] == prior;
    }
  }

  /** Item callbacks are never chunk completions or delays. */
  lemma {:induction false} ItemEventsQuiet<T, R>(items: seq<T>, outcomes: seq<Outcome<R>>, a: nat, b: nat)
    requires |items| == |outcomes| && a <= b <= |items|
    ensures Select(ItemEvents(items, outcomes, a, b), ChunkKind) == []
    ensures Select(ItemEvents(items, outcomes, a, b), PauseKind) == []
    decreases b - a
  {
    if a < b {
      var seen := ItemEvents(items, outcomes, a, b - 1);
      var e := ItemEvent(items, outcomes, b - 1);
      ItemEventsQuiet(items, outcomes, a, b - 1);
      assert ItemEvents(items, outcomes, a, b) == seen + [e];
      assert !e.ChunkComplete? && !e.Pause?;
      SelectSnocAll(seen, e);
    }
  }

  /** What one chunk contributes to each kind of callback. */
  lemma ChunkEventsSelect<T, R>(items: seq<T>, outcomes: seq<Outcome<R>>, k: nat, d: int, i: nat, c: nat)
    requires |items| == |outcomes| && k > 0 && i < |items|
    ensures var end := Min(i + k, |items|);
      var ce := ChunkEvents(items, outcomes, k, d, i, c);
      && Select(ce, ProgressKind) == Select(ItemEvents(items, outcomes, i, end), ProgressKind)
      && Select(ce, ErrorKind) == Select(ItemEvents(items, outcomes, i, end), ErrorKind)
      && Select(ce, ChunkKind) == [ChunkComplete(c, |Successes(outcomes[i..end])|)]
      && Select(ce, PauseKind) == (if d > 0 && end < |items| then [Pause(d)] else [])
  {
    var end := Min(i + k, |items|);
    var ie := ItemEvents(items, outcomes, i, end);
    var cc: Event<T> := ChunkComplete(c, |Successes(outcomes[i..end])|);
    ItemEventsQuiet(items, outcomes, i, end);
    SelectSnocAll(ie, cc);
    if d > 0 && end < |items| {
      SelectSnocAll(ie + [cc], Pause(d));
    } else {
      assert ie + [cc] + [] == ie + [cc];
    }
  }

  lemma RunTraceSplit<T, R>(items: seq<T>, outcomes: seq<Outcome<R>>, k: nat, d: int, i: nat, c: nat, kind: EventKind)
    requires |items| == |outcomes| && k > 0 && i < |items|
    ensures Select(RunTrace(items, outcomes, k, d, i, c), kind)
      == Select(ChunkEvents(items, outcomes, k, d, i, c), kind)
       + Select(RunTrace(items, outcomes, k, d, Min(i + k, |items|), c + 1), kind)
  {
    SelectAppend(ChunkEvents(items, outcomes, k, d, i, c), RunTrace(items, outcomes, k, d, Min(i + k, |items|), c + 1), kind);
  }

  /** From index i on, `onProgress` receives the counts after those of the first i items, up to the total. */
  lemma {:induction false} RunTraceProgress<T, R>(items: seq<T>, outcomes: seq<Outcome<R>>, k: nat, d: int, i: nat, c: nat)
    requires |items| == |outcomes| && k > 0 && i <= |items|
    ensures ProgressReports<T>(|SuccessesBefore(outcomes, i)|, |items|)
      + Select(RunTrace(items, outcomes, k, d, i, c), ProgressKind)
      == ProgressReports<T>(|SuccessesBefore(outcomes, |items|)|, |items|)
    decreases |items| - i
  {
    if i < |items| {
      var end := Min(i + k, |items|);
      RunTraceSplit(items, outcomes, k, d, i, c, ProgressKind);
      ChunkEventsSelect(items, outcomes, k, d, i, c);
      ItemEventsProgress(items, outcomes, i, end);
      RunTraceProgress(items, outcomes, k, d, end, c + 1);
      AppendAssoc(ProgressReports<T>(|SuccessesBefore(outcomes, i)|, |items|),
        Select(ItemEvents(items, outcomes, i, end), ProgressKind),
        Select(RunTrace(items, outcomes, k, d, end, c + 1), ProgressKind));
    }
  }

  /** From index i on, `onError` receives the error records of the items from i, in order. */
  lemma {:induction false} RunTraceErrors<T, R>(items: seq<T>, outcomes: seq<Outcome<R>>, k: nat, d: int, i: nat, c: nat)
    requires |items| == |outcomes| && k > 0 && i <= |items|
    ensures ErrorReports(FailuresBefore(items, outcomes, i))
      + Select(RunTrace(items, outcomes, k, d, i, c), ErrorKind)
      == ErrorReports(Failures(items, outcomes))
    decreases |items| - i
  {
    if i < |items| {
      var end := Min(i + k, |items|);
      RunTraceSplit(items, outcomes, k, d, i, c, ErrorKind);
      ChunkEventsSelect(items, outcomes, k, d, i, c);
      ItemEventsErrors(items, outcomes, i, end);
      RunTraceErrors(items, outcomes, k, d, end, c + 1);
      AppendAssoc(ErrorReports(FailuresBefore(items, outcomes, i)),
        Select(ItemEvents(items, outcomes, i, end), ErrorKind),
        Select(RunTrace(items, outcomes, k, d, end, c + 1), ErrorKind));
    }
  }

  /**
   * From index i on, where chunk |pre| begins, `onChunkComplete` receives
   * one report per remaining chunk, numbered on from |pre|.
   */
  lemma {:induction false} RunTraceChunks<T, R>(items: seq<T>, outcomes: seq<Outcome<R>>, k: nat, d: int, i: nat,
                                               pre: seq<seq<Outcome<R>>>)
    requires |items| == |outcomes| && k > 0 && i <= |items|
    ensures ChunkReports<T, R>(pre) + Select(RunTrace(items, outcomes, k, d, i, |pre|), ChunkKind)
      == ChunkReports<T, R>(pre + Chunks(outcomes[i..], k))
    decreases |items| - i
  {
    if i == |items| {
      assert pre + Chunks(outcomes[i..], k) == pre;
    } else {
      var end := Min(i + k, |items|);
      var x := outcomes[i..end];
      var cc: Event<T> := ChunkComplete(|pre|, |Successes(x)|);
      RunTraceSplit(items, outcomes, k, d, i, |pre|, ChunkKind);
      ChunkEventsSelect(items, outcomes, k, d, i, |pre|);
      RunTraceChunks(items, outcomes, k, d, end, pre + [x]);
      assert (pre + [x])[..|pre|] == pre;
      assert ChunkReports<T, R>(pre + [x]) == ChunkReports<T, R>(pre) + [cc];
      ChunksFrom(outcomes, k, i);
      AppendAssoc(pre, [x], Chunks(outcomes[end..], k));
      AppendAssoc(ChunkReports<T, R>(pre), [cc], Select(RunTrace(items, outcomes, k, d, end, |pre| + 1), ChunkKind));
    }
  }

  lemma {:induction false} PausesCons<T>(m: nat, d: int)
    ensures [Pause(d)] + Pauses<T>(m, d) == Pauses<T>(m + 1, d)
  {
    if m > 0 {
      PausesCons<T>(m - 1, d);
    }
  }

  /** The delays of one chunk: one when d > 0 and items follow it. */
  lemma ChunkEventsPauses<T, R>(items: seq<T>, outcomes: seq<Outcome<R>>, k: nat, d: int, i: nat, c: nat)
    requires |items| == |outcomes| && k > 0 && i < |items|
    ensures Select(ChunkEvents(items, outcomes, k, d, i, c), PauseKind)
      == if d > 0 && i + k < |items| then [Pause(d)] else []
  {
    ChunkEventsSelect(items, outcomes, k, d, i, c);
  }

  /** The delays from index i: this chunk's, then those of the chunks after it. */
  lemma RunTracePauseStep<T, R>(items: seq<T>, outcomes: seq<Outcome<R>>, k: nat, d: int, i: nat, c: nat)
    requires |items| == |outcomes| && k > 0 && i < |items|
    ensures Select(RunTrace(items, outcomes, k, d, i, c), PauseKind)
      == (if d > 0 && i + k < |items| then [Pause(d)] else [])
       + Select(RunTrace(items, outcomes, k, d, Min(i + k, |items|), c + 1), PauseKind)
  {
    RunTraceSplit(items, outcomes, k, d, i, c, PauseKind);
    ChunkEventsPauses(items, outcomes, k, d, i, c);
  }

  /** How many chunks of at most k items a list of `len` items makes. */
  function ChunkCount(len: nat, k: nat): nat
    requires k > 0
    decreases len
  {
    if len == 0 then 0 else 1 + ChunkCount(len - Min(k, len), k)
  }

  lemma {:induction false} ChunkCountOfChunks<X>(s: seq<X>, k: nat)
    requires k > 0
    ensures |Chunks(s, k)| == ChunkCount(|s|, k)
    decreases |s|
  {
    if |s| > 0 {
      ChunkCountOfChunks(s[Min(k, |s|)..], k);
    }
  }

  lemma ChunkCountStep(n: nat, i: nat, k: nat)
    requires k > 0 && i < n
    ensures ChunkCount(n - i, k) == ChunkCount(n - Min(i + k, n), k) + 1
  {
    assert n - i - Min(k, n - i) == n - Min(i + k, n);
  }

  /** Without a positive delay, a run never pauses. */
  lemma {:induction false} RunTraceNoPauses<T, R>(items: seq<T>, outcomes: seq<Outcome<R>>, k: nat, d: int, i: nat, c: nat)
    requires |items| == |outcomes| && k > 0 && i <= |items| && d <= 0
    ensures Select(RunTrace(items, outcomes, k, d, i, c), PauseKind) == []
    decreases |items| - i
  {
    if i < |items| {
      RunTracePauseStep(items, outcomes, k, d, i, c);
      RunTraceNoPauses(items, outcomes, k, d, Min(i + k, |items|), c + 1);
    }
  }

  /** With a positive delay, a run from index i pauses once between each two of its remaining chunks. */
  lemma {:induction false} RunTracePauseCount<T, R>(items: seq<T>, outcomes: seq<Outcome<R>>, k: nat, d: int, i: nat, c: nat)
    requires |items| == |outcomes| && k > 0 && i < |items| && d > 0
    ensures Select(RunTrace(items, outcomes, k, d, i, c), PauseKind) == Pauses<T>(ChunkCount(|items| - i, k) - 1, d)
    decreases |items| - i
  {
    var end := Min(i + k, |items|);
    var sel := Select(RunTrace(items, outcomes, k, d, i, c), PauseKind);
    var later := Select(RunTrace(items, outcomes, k, d, end, c + 1), PauseKind);
    RunTracePauseStep(items, outcomes, k, d, i, c);
    ChunkCountStep(|items|, i, k);
    if end < |items| {
      RunTracePauseCount(items, outcomes, k, d, end, c + 1);
      ChunkCountStep(|items|, end, k);
      PausesPrepend(sel, later, d, ChunkCount(|items| - end, k), ChunkCount(|items| - i, k));
    } else {
      assert later == [];
      assert ChunkCount(|items| - i, k) - 1 == 0;
    }
  }

  lemma PausesPrepend<T>(sel: seq<Event<T>>, later: seq<Event<T>>, d: int, m: nat, total: nat)
    requires m >= 1 && total == m + 1
    requires sel == [Pause(d)] + later && later == Pauses<T>(m - 1, d)
    ensures sel == Pauses<T>(total - 1, d)
  {
    PausesCons<T>(m - 1, d);
  }

  lemma RunProgress<T, R>(items: seq<T>, outcomes: seq<Outcome<R>>, k: nat, d: int)
    requires |items| == |outcomes| && k > 0
    ensures Select(RunTrace(items, outcomes, k, d, 0, 0), ProgressKind) == ProgressReports(|Successes(outcomes)|, |items|)
  {
    var sel := Select(RunTrace(items, outcomes, k, d, 0, 0), ProgressKind);
    RunTraceProgress(items, outcomes, k, d, 0, 0);
    assert ProgressReports<T>(|SuccessesBefore(outcomes, 0)|, |items|) + sel == sel;
    SuccessesBeforeIsPrefix(outcomes, |items|);
    assert outcomes[..|items|] == outcomes;
  }

  lemma RunErrors<T, R>(items: seq<T>, outcomes: seq<Outcome<R>>, k: nat, d: int)
    requires |items| == |outcomes| && k > 0
    ensures Select(RunTrace(items, outcomes, k, d, 0, 0), ErrorKind) == ErrorReports(Failures(items, outcomes))
  {
    var sel := Select(RunTrace(items, outcomes, k, d, 0, 0), ErrorKind);
    RunTraceErrors(items, outcomes, k, d, 0, 0);
    assert ErrorReports(FailuresBefore(items, outcomes, 0)) + sel == sel;
  }

  lemma RunChunks<T, R>(items: seq<T>, outcomes: seq<Outcome<R>>, k: nat, d: int)
    requires |items| == |outcomes| && k > 0
    ensures Select(RunTrace(items, outcomes, k, d, 0, 0), ChunkKind) == ChunkReports(Chunks(outcomes, k))
  {
    var sel := Select(RunTrace(items, outcomes, k, d, 0, 0), ChunkKind);
    RunTraceChunks(items, outcomes, k, d, 0, []);
    assert [] + Chunks(outcomes[0..], k) == Chunks(outcomes, k);
    assert ChunkReports<T, R>([]) + sel == sel;
  }

  lemma RunPauses<T, R>(items: seq<T>, outcomes: seq<Outcome<R>>, k: nat, d: int)
    requires |items| == |outcomes| && k > 0 && |items| > 0
    ensures Select(RunTrace(items, outcomes, k, d, 0, 0), PauseKind)
      == (if d > 0 then Pauses(|Chunks(outcomes, k)| - 1, d) else [])
  {
    if d > 0 {
      RunTracePauseCount(items, outcomes, k, d, 0, 0);
      ChunkCountOfChunks(outcomes, k);
    } else {
      RunTraceNoPauses(items, outcomes, k, d, 0, 0);
    }
  }

  /**
   * Over a whole non-empty run, `onProgress` sees 1 .. totalProcessed,
   * `onError` sees the error records in order, `onChunkComplete` sees one
   * report per chunk, and ceil(n / chunkSize) - 1 delays separate the chunks.
   */
  lemma RunReports<T, R>(items: seq<T>, outcomes: seq<Outcome<R>>, k: nat, d: int)
    requires |items| == |outcomes| && k > 0 && |items| > 0
    ensures var trace := RunTrace(items, outcomes, k, d, 0, 0);
      && Select(trace, ProgressKind) == ProgressReports(|Successes(outcomes)|, |items|)
      && Select(trace, ErrorKind) == ErrorReports(Failures(items, outcomes))
      && Select(trace, ChunkKind) == ChunkReports(Chunks(outcomes, k))
      && Select(trace, PauseKind) == (if d > 0 then Pauses(|Chunks(outcomes, k)| - 1, d) else [])
  {
    RunProgress<T, R>(items, outcomes, k, d);
    RunErrors(items, outcomes, k, d);
    RunChunks<T, R>(items, outcomes, k, d);
    RunPauses<T, R>(items, outcomes, k, d);
  }

  // ---------------------------------------------------------------------
  // Properties of the expected reports

  /** Every item is accounted for exactly once: processed plus errors is the item count. */
  lemma {:induction false} EveryItemAccountedFor<T, R>(items: seq<T>, outcomes: seq<Outcome<R>>)
    requires |items| == |outcomes|
    ensures |Successes(outcomes)| + |Failures(items, outcomes)| == |items|
  {
    CountsBefore(items, outcomes, |items|);
    SuccessesBeforeIsPrefix(outcomes, |items|);
    assert outcomes[..|items|] == outcomes;
  }

  lemma {:induction false} CountsBefore<T, R>(items: seq<T>, outcomes: seq<Outcome<R>>, m: nat)
    requires |items| == |outcomes| && m <= |items|
    ensures |SuccessesBefore(outcomes, m)| + |FailuresBefore(items, outcomes, m)| == m
  {
    if m > 0 {
      CountsBefore(items, outcomes, m - 1);
    }
  }

  /** Each error record names the original index of a rejected item and that item. */
  lemma FailuresKeepIndex<T, R>(items: seq<T>, outcomes: seq<Outcome<R>>)
    requires |items| == |outcomes|
    ensures forall e :: e in Failures(items, outcomes) ==>
      e.index < |items| && items[e.index] == e.item && outcomes[e.index].Rejected?
      && e.error == AsError(outcomes[e.index].thrown)
  {
    FailuresBeforeKeepIndex(items, outcomes, |items|);
  }

  lemma {:induction false} FailuresBeforeKeepIndex<T, R>(items: seq<T>, outcomes: seq<Outcome<R>>, m: nat)
    requires |items| == |outcomes| && m <= |items|
    ensures forall e :: e in FailuresBefore(items, outcomes, m) ==>
      e.index < m && items[e.index] == e.item && outcomes[e.index].Rejected?
      && e.error == AsError(outcomes[e.index].thrown)
  {
    if m > 0 {
      FailuresBeforeKeepIndex(items, outcomes, m - 1);
    }
  }

  /** The progress counts are 1, 2, ..., m: strictly increasing and ending at m. */
  lemma {:induction false} ProgressCountsIncrease<T>(m: nat, total: nat)
    ensures |ProgressReports<T>(m, total)| == m
    ensures forall q :: 0 <= q < m ==> ProgressReports<T>(m, total)[q] == Progress(q + 1, total)
  {
    if m > 0 {
      ProgressCountsIncrease<T>(m - 1, total);
    }
  }

  lemma ChunkReportsSnoc<T, R>(chunks: seq<seq<Outcome<R>>>)
    requires |chunks| > 0
    ensures |ChunkReports<T, R>(chunks)| == |ChunkReports<T, R>(chunks[..|chunks| - 1])| + 1
    ensures SumCounts(ChunkReports<T, R>(chunks))
      == SumCounts(ChunkReports<T, R>(chunks[..|chunks| - 1])) + |Successes(chunks[|chunks| - 1])|
  {
    var cc: Event<T> := ChunkComplete(|chunks| - 1, |Successes(chunks[|chunks| - 1])|);
    SumCountsAppend(ChunkReports<T, R>(chunks[..|chunks| - 1]), [cc]);
    assert [cc][..0] == [];
  }

  /** The per-chunk counts reported to `onChunkComplete` add up to the number of successes. */
  lemma {:induction false} ChunkCountsSum<T, R>(chunks: seq<seq<Outcome<R>>>)
    ensures |ChunkReports<T, R>(chunks)| == |chunks|
    ensures SumCounts(ChunkReports<T, R>(chunks)) == |Successes(Flatten(chunks))|
  {
    if |chunks| > 0 {
      var last := chunks[|chunks| - 1];
      var init := chunks[..|chunks| - 1];
      ChunkCountsSum<T, R>(init);
      ChunkReportsSnoc<T, R>(chunks);
      assert chunks == init + [last];
      FlattenSnoc(init, last);
      SuccessesAppend(Flatten(init), last);
    }
  }

  function SumCounts<T>(events: seq<Event<T>>): nat {
    if |events| == 0 then 0
    else
      SumCounts(events[..|events| - 1])
      + (match events[|events| - 1] case ChunkComplete(_, m) => m case _ => 0)
  }

  lemma {:induction false} SumCountsAppend<T>(a: seq<Event<T>>, b: seq<Event<T>>)
    ensures SumCounts(a + b) == SumCounts(a) + SumCounts(b)
    decreases |b|
  {
    if |b| > 0 {
      var b' := b[..|b| - 1];
      assert (a + b)[..|a + b| - 1] == a + b';
      SumCountsAppend(a, b');
    } else {
      assert a + b == a;
    }
  }

  /**
   * For a non-empty input, `onChunkComplete` is called ceil(n / chunkSize)
   * times, the reported counts add up to `totalProcessed`, and there is one
   * delay fewer than there are chunks.
   */
  lemma ChunkReportsCoverInput<T, R>(outcomes: seq<Outcome<R>>, chunkSize: nat)
    requires chunkSize > 0 && |outcomes| > 0
    ensures var m := |ChunkReports<T, R>(Chunks(outcomes, chunkSize))|;
      (m - 1) * chunkSize < |outcomes| <= m * chunkSize
    ensures SumCounts(ChunkReports<T, R>(Chunks(outcomes, chunkSize))) == |Successes(outcomes)|
  {
    ChunkCountsSum<T, R>(Chunks(outcomes, chunkSize));
    ChunksShape(outcomes, chunkSize);
    FlattenChunks(outcomes, chunkSize);
  }

  // ---------------------------------------------------------------------
  // parseCSVInChunks

  datatype CsvTable = CsvTable(headers: seq<string>, rows: seq<seq<string>>)

  const CsvTooShort := "CSV must have at least header and one data row"

  /** `lines.filter(line => line.trim())`: the lines with a non-blank character, in order. */
  function NonBlankLines(lines: seq<string>): (r: seq<string>)
    ensures |r| <= |lines|
    ensures forall x :: x in r ==> x in lines && Trim(x) != ""
    ensures forall x :: x in lines && Trim(x) != "" ==> x in r
    ensures IsFilter(r, lines, (l: string) => Trim(l) != "")
  {
    if |lines| == 0 then []
    else
      var rest := NonBlankLines(lines[1..]);
      var keep := (l: string) => Trim(l) != "";
      FilterCons(keep, lines, rest);
      var r := if keep(lines[0]) then [lines[0]] + rest else rest;
      FilterMembers(r, lines, keep);
      r
  }

  /** `cell.replace(/^"|"$/g, '')`: drops one leading and one trailing double quote. */
  function StripQuotes(cell: string): (r: string)
    ensures |r| <= |cell|
    ensures !StartsWith(cell, "\"") && !EndsWith(cell, "\"") ==> r == cell
  {
    var a := if |cell| > 0 && cell[0] == '"' then cell[1..] else cell;
    if |a| > 0 && a[|a| - 1] == '"' then a[..|a| - 1] else a
  }

  /** Putting back the quotes that were stripped gives the cell again. */
  lemma StripQuotesReassembles(cell: string)
    ensures cell == (if StartsWith(cell, "\"") then "\"" else "") + StripQuotes(cell)
      + (if |cell| >= 2 && EndsWith(cell, "\"") then "\"" else "")
  {
    var r := StripQuotes(cell);
    if |cell| >= 2 {
      if cell[0] == '"' && cell[|cell| - 1] == '"' {
        assert r == cell[1..|cell| - 1];
        assert cell == [cell[0]] + cell[1..|cell| - 1] + [cell[|cell| - 1]];
      } else if cell[0] == '"' {
        assert cell == [cell[0]] + cell[1..];
      } else if cell[|cell| - 1] == '"' {
        assert cell == cell[..|cell| - 1] + [cell[|cell| - 1]];
      }
    }
  }

  function Header(h: string): string { Lower(Trim(h)) }

  function Cell(c: string): string { StripQuotes(Trim(c)) }

  function Row(line: string): (r: seq<string>)
    ensures |r| == |Split(line, ',')|
  {
    var fields := Split(line, ',');
    seq(|fields|, k requires 0 <= k < |fields| => Cell(fields[k]))
  }

  /** The table of the non-blank lines: the first gives the headers, each later one a row. */
  function Table(lines: seq<string>): (r: Result<CsvTable, string>)
    ensures r.Err? <==> |lines| < 2
    ensures r.Err? ==> r.error == CsvTooShort
    ensures r.Ok? ==>
      && |r.value.rows| == |lines| - 1
      && |r.value.headers| == |Split(lines[0], ',')|
      && forall k :: 0 <= k < |r.value.rows| ==> |r.value.rows[k]| == |Split(lines[k + 1], ',')|
  {
    if |lines| < 2 then Err(CsvTooShort)
    else
      var fields := Split(lines[0], ',');
      var headers := seq(|fields|, k requires 0 <= k < |fields| => Header(fields[k]));
      var data := lines[1..];
      Ok(CsvTable(headers, seq(|data|, k requires 0 <= k < |data| => Row(data[k]))))
  }

  function ParseCsv(text: string): (r: Result<CsvTable, string>)
    ensures var lines := NonBlankLines(Split(text, '\n'));
      && (r.Err? <==> |lines| < 2)
      && (r.Err? ==> r.error == CsvTooShort)
      && (r.Ok? ==>
            |r.value.rows| == |lines| - 1
            && |r.value.headers| == |Split(lines[0], ',')|
            && forall k :: 0 <= k < |r.value.rows| ==> |r.value.rows[k]| == |Split(lines[k + 1], ',')|)
  {
    Table(NonBlankLines(Split(text, '\n')))
  }

  lemma TrimKeepsOut(s: string, c: char)
    requires c !in s
    ensures c !in Trim(s)
  {
    var a := TrimStart(s);
    assert forall q :: 0 <= q < |a| ==> a[q] == s[|s| - |a| + q];
    var b := TrimEnd(a);
    assert forall q :: 0 <= q < |b| ==> b[q] == a[q];
  }

  lemma StripQuotesKeepsOut(s: string, c: char)
    requires c !in s
    ensures c !in StripQuotes(s)
  {
    StripQuotesReassembles(s);
  }

  /** Trimmed, lower-case and free of commas. */
  predicate CleanHeader(h: string) {
    && ',' !in h
    && (forall q :: 0 <= q < |h| ==> !('A' <= h[q] <= 'Z'))
    && (|h| > 0 ==> !IsBlank(h[0]) && !IsBlank(h[|h| - 1]))
  }

  /** Free of both separators. */
  predicate CleanCell(c: string) {
    ',' !in c && '\n' !in c
  }

  lemma LowerCharKeeps(c: char)
    ensures !('A' <= LowerChar(c) <= 'Z')
    ensures IsBlank(LowerChar(c)) == IsBlank(c)
    ensures (LowerChar(c) == ',') == (c == ',')
  {
  }

  lemma HeaderIsClean(field: string)
    requires ',' !in field
    ensures CleanHeader(Header(field))
  {
    var t := Trim(field);
    TrimKeepsOut(field, ',');
    var h := Lower(t);
    forall q | 0 <= q < |h|
      ensures h[q] != ',' && !('A' <= h[q] <= 'Z') && IsBlank(h[q]) == IsBlank(t[q])
    {
      LowerCharKeeps(t[q]);
    }
  }

  lemma CellIsClean(field: string)
    requires ',' !in field && '\n' !in field
    ensures CleanCell(Cell(field))
  {
    TrimKeepsOut(field, ',');
    TrimKeepsOut(field, '\n');
    StripQuotesKeepsOut(Trim(field), ',');
    StripQuotesKeepsOut(Trim(field), '\n');
  }

  /** Every parsed header is trimmed, lower-case and free of commas. */
  lemma HeadersAreClean(text: string, t: CsvTable)
    requires ParseCsv(text) == Ok(t)
    ensures forall h :: h in t.headers ==> CleanHeader(h)
  {
    var lines := NonBlankLines(Split(text, '\n'));
    var fields := Split(lines[0], ',');
    assert Table(lines) == Ok(t);
    assert t.headers == seq(|fields|, k requires 0 <= k < |fields| => Header(fields[k]));
    forall k | 0 <= k < |t.headers| ensures CleanHeader(t.headers[k]) {
      HeaderIsClean(fields[k]);
    }
  }

  /** No parsed cell contains a comma or a newline. */
  lemma CellsAreClean(text: string, t: CsvTable)
    requires ParseCsv(text) == Ok(t)
    ensures forall row, c :: row in t.rows && c in row ==> CleanCell(c)
  {
    var lines := NonBlankLines(Split(text, '\n'));
    forall row, c | row in t.rows && c in row ensures CleanCell(c) {
      var k :| 0 <= k < |t.rows| && row == t.rows[k];
      LineHasNoNewline(text, lines, k + 1);
      RowIsClean(lines[k + 1]);
    }
  }

  lemma LineHasNoNewline(text: string, lines: seq<string>, k: nat)
    requires lines == NonBlankLines(Split(text, '\n')) && k < |lines|
    ensures '\n' !in lines[k]
  {
    assert lines[k] in Split(text, '\n');
  }

  /** The cells of a line without a newline contain neither separator. */
  lemma RowIsClean(line: string)
    requires '\n' !in line
    ensures forall c :: c in Row(line) ==> CleanCell(c)
  {
    var pieces := Split(line, ',');
    JoinSplit(line, ',');
    forall c | c in Row(line) ensures CleanCell(c) {
      var q :| 0 <= q < |pieces| && c == Row(line)[q];
      PieceOfJoin(pieces, ',', q);
      CellIsClean(pieces[q]);
    }
  }

  /** Every piece of a join is made of characters of the joined text. */
  lemma {:induction false} PieceOfJoin(parts: seq<string>, sep: char, q: nat)
    requires |parts| >= 1 && q < |parts|
    ensures forall ch :: ch in parts[q] ==> ch in Join(parts, sep)
  {
    if q > 0 {
      PieceOfJoin(parts[1..], sep, q - 1);
    }
  }

  /**
   * `parseCSVInChunks`: rejects a text with fewer than two non-blank lines,
   * otherwise runs the data rows through `processInChunks` (the processor
   * also receives the headers; its outcomes are the input here).
   */
  method ParseCsvInChunks<R>(text: string, outcomes: seq<Outcome<R>>, chunkSize: int, delay: Option<int>)
    returns (r: Result<(ProcessingResult<seq<string>, R>, seq<Event<seq<string>>>), string>)
    requires ParseCsv(text).Ok? ==> |outcomes| == |ParseCsv(text).value.rows| && chunkSize > 0
    ensures r.Err? <==> ParseCsv(text).Err?
    ensures r.Err? ==> r.error == CsvTooShort
    ensures r.Ok? ==> (
      && r.value.0.processed == Successes(outcomes)
      && r.value.0.errors == Failures(ParseCsv(text).value.rows, outcomes)
      && r.value.0.totalProcessed + r.value.0.totalErrors == |ParseCsv(text).value.rows|)
  {
    match ParseCsv(text)
    case Err(e) =>
      r := Err(e);
    case Ok(table) =>
      var res, trace := ProcessInChunks(table.rows, outcomes, chunkSize, delay);
      EveryItemAccountedFor(table.rows, outcomes);
      r := Ok((res, trace));
  }

  // ---------------------------------------------------------------------
  // ConcurrencyQueue

  const DefaultMaxConcurrency := 3

  /**
   * A FIFO backlog of tasks and a count of running ones. `Add` and
   * `Settle` are the two events: a task is submitted, or a running task
   * settles (resolves or rejects; both take the `finally` path).
   */
  class ConcurrencyQueue<T> {
    var queue: seq<T>
    var running: nat
    const maxConcurrency: int
    ghost var submitted: seq<T>
    ghost var started: seq<T>

    ghost predicate Valid()
      reads this
    {
      (running == 0 || running <= maxConcurrency)
      && (|queue| > 0 ==> running >= maxConcurrency)
      && submitted == started + queue
    }

    constructor (maxConcurrency: Option<int>)
      ensures Valid()
      ensures queue == [] && running == 0 && submitted == [] && started == []
      ensures this.maxConcurrency == if maxConcurrency.Some? then maxConcurrency.value else DefaultMaxConcurrency
    {
      queue := [];
      running := 0;
      this.maxConcurrency := if maxConcurrency.Some? then maxConcurrency.value else DefaultMaxConcurrency;
      submitted := [];
      started := [];
    }

    /** `process()`: starts the task at the head of the backlog when a slot is free. */
    method Process() returns (start: Option<T>)
      requires submitted == started + queue
      modifies this
      ensures submitted == old(submitted) && submitted == started + queue
      ensures if old(running) >= maxConcurrency || old(queue) == [] then
          start == None && queue == old(queue) && running == old(running) && started == old(started)
        else
          start == Some(old(queue)[0]) && queue == old(queue)[1..]
          && running == old(running) + 1 && started == old(started) + [old(queue)[0]]
    {
      if running >= maxConcurrency || |queue| == 0 {
        return None;
      }
      running := running + 1;
      var task := queue[0];
      queue := queue[1..];
      started := started + [task];
      start := Some(task);
    }

    /** `add(task)`: enqueue, then try to start. Returns the task started, if any. */
    method Add(task: T) returns (start: Option<T>)
      requires Valid()
      modifies this
      ensures Valid()
      ensures submitted == old(submitted) + [task]
      ensures old(running) < maxConcurrency ==>
        start == Some(task) && queue == [] && running == old(running) + 1
      ensures old(running) >= maxConcurrency ==>
        start == None && queue == old(queue) + [task] && running == old(running)
    {
      queue := queue + [task];
      submitted := submitted + [task];
      start := Process();
    }

    /**
     * A running task settles; `succeeded` is whether it resolved. Either
     * way the slot is released and the next queued task, if any, starts.
     */
    method Settle(succeeded: bool) returns (start: Option<T>)
      requires Valid() && running > 0
      modifies this
      ensures Valid()
      ensures submitted == old(submitted)
      ensures start.Some? <==> old(queue) != []
      ensures start.Some? ==> (start.value == old(queue)[0] && queue == old(queue)[1..]
        && running == old(running))
      ensures start.None? ==> queue == [] && running == old(running) - 1
    {
      running := running - 1;
      start := Process();
    }

    /** `size`: the backlog length. */
    function Size(): nat
      reads this
    {
      |queue|
    }

    /** `isRunning`: whether any task is in flight. */
    predicate IsRunning()
      reads this
    {
      running > 0
    }
  }

  // ---------------------------------------------------------------------
  // BatchProcessor

  const DefaultBatchSize := 10
  const DefaultTimeout := 1000

  /**
   * Buffers items and hands them to the handler in batches: when the buffer
   * reaches `batchSize`, or when `timeout` ms pass after the last `add`.
   * `delivered` lists the batches the handler was called with; a handler
   * failure is only logged, so a delivered batch is never re-queued.
   */
  class BatchProcessor<T> {
    var batch: seq<T>
    var timerArmed: bool
    var deadline: int
    const batchSize: int
    const timeout: int
    ghost var added: seq<T>
    ghost var delivered: seq<seq<T>>

    /** Every added item is either delivered, in order, or still buffered. */
    ghost predicate Coherent()
      reads this
    {
      Flatten(delivered) + batch == added && forall b :: b in delivered ==> b != []
    }

    ghost predicate Valid()
      reads this
    {
      Coherent()
      && (timerArmed <==> |batch| > 0)
      && (|batch| < batchSize || |batch| == 0)
    }

    constructor (batchSize: Option<int>, timeout: Option<int>)
      ensures Valid()
      ensures batch == [] && added == [] && delivered == []
      ensures this.batchSize == if batchSize.Some? then batchSize.value else DefaultBatchSize
      ensures this.timeout == if timeout.Some? then timeout.value else DefaultTimeout
    {
      batch := [];
      timerArmed := false;
      deadline := 0;
      this.batchSize := if batchSize.Some? then batchSize.value else DefaultBatchSize;
      this.timeout := if timeout.Some? then timeout.value else DefaultTimeout;
      added := [];
      delivered := [];
    }

    /**
     * `flush()`: a no-op on an empty buffer; otherwise copies the buffer,
     * clears it and the timer, then calls the handler with the copy.
     */
    method Flush(handlerFails: bool) returns (handed: Option<seq<T>>)
      requires Coherent() && (timerArmed <==> |batch| > 0)
      modifies this
      ensures Valid() && added == old(added)
      ensures old(batch) == [] ==> handed == None && delivered == old(delivered) && batch == []
      ensures old(batch) != [] ==> (handed == Some(old(batch)) && batch == [] && !timerArmed
        && delivered == old(delivered) + [old(batch)])
    {
      if |batch| == 0 {
        return None;
      }
      var toProcess := batch;
      batch := [];
      timerArmed := false;
      FlattenSnoc(delivered, toProcess);
      delivered := delivered + [toProcess];
      handed := Some(toProcess);
    }

    /** `add(item)`: buffers the item; a full buffer flushes at once, otherwise the timer restarts. */
    method Add(item: T, now: int, handlerFails: bool) returns (handed: Option<seq<T>>)
      requires Valid()
      modifies this
      ensures Valid() && added == old(added) + [item]
      ensures |old(batch)| + 1 >= batchSize ==>
        handed == Some(old(batch) + [item]) && batch == [] && !timerArmed
        && delivered == old(delivered) + [old(batch) + [item]]
      ensures |old(batch)| + 1 < batchSize ==>
        handed == None && batch == old(batch) + [item] && timerArmed && deadline == now + timeout
        && delivered == old(delivered)
    {
      batch := batch + [item];
      added := added + [item];
      if |batch| >= batchSize {
        timerArmed := true;
        handed := Flush(handlerFails);
      } else {
        timerArmed := true;
        deadline := now + timeout;
        handed := None;
      }
    }

    /** The timer set by the last `add` expires and flushes the buffer. */
    method TimerFires(now: int, handlerFails: bool) returns (handed: Option<seq<T>>)
      requires Valid() && timerArmed && now >= deadline
      modifies this
      ensures Valid() && added == old(added)
      ensures handed == Some(old(batch)) && batch == [] && !timerArmed
      ensures delivered == old(delivered) + [old(batch)]
    {
      handed := Flush(handlerFails);
    }

    /** `pendingCount`: the number of buffered items. */
    function PendingCount(): nat
      reads this
    {
      |batch|
    }
  }
}
