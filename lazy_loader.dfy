// Lazy image loading (src/lib/lazy-loader.ts): the loader keeps a cache of
// per-source load states, swaps an image's placeholder for the real source
// once it loads, and retries a failed load a bounded number of times with a
// growing delay; the virtual-scroll helper works out which rows of a long
// list are on screen.
//
// The browser's intersection observer is represented by the set of observed
// elements, and loading a source by a boolean saying whether it loads. A
// scheduled retry is returned as its delay; running the chain of retries is
// `LoadWithRetries`. Scroll position and viewport height are parameters.

module LazyLoading {
  import opened Common

  const DefaultRetryAttempts := 3
  const DefaultRetryDelay := 1000
  const LoadedClass := "lazy-loaded"
  const ErrorClass := "lazy-error"
  /** The message of the `Error` a failed preload rejects with. */
  const LoadFailedMessage := "Failed to load image"
  /** The grey "Loading..." SVG shown before an image loads. */
  const DefaultPlaceholder := "data:image/svg+xml,%3Csvg xmlns=\"http://www.w3.org/2000/svg\" width=\"400\" height=\"300\"%3E%3Crect width=\"100%25\" height=\"100%25\" fill=\"%23f3f4f6\"/%3E%3Ctext x=\"50%25\" y=\"50%25\" dominant-baseline=\"middle\" text-anchor=\"middle\" fill=\"%236b7280\"%3ELoading...%3C/text%3E%3C/svg%3E"
  /** The red "Failed to load" SVG shown once the retries are spent. */
  const ErrorPlaceholder := "data:image/svg+xml,%3Csvg xmlns=\"http://www.w3.org/2000/svg\" width=\"400\" height=\"300\"%3E%3Crect width=\"100%25\" height=\"100%25\" fill=\"%23fee2e2\"/%3E%3Ctext x=\"50%25\" y=\"50%25\" dominant-baseline=\"middle\" text-anchor=\"middle\" fill=\"%23dc2626\"%3EFailed to load%3C/text%3E%3C/svg%3E"

  /** `LazyImageData`. */
  datatype ImageData = ImageData(src: string, thumbnail: Option<string>, loaded: bool, loading: bool, error: Option<string>, retryCount: nat)

  /** `LazyLoadOptions`, the fields that change behaviour here. */
  datatype LazyLoadOptions = LazyLoadOptions(placeholder: Option<string>, retryAttempts: Option<int>, retryDelay: Option<int>)

  /** An `<img>` element: its source, its `data-src` and `data-thumbnail` attributes and its classes. */
  class ImageElement {
    var src: string
    var dataSrc: Option<string>
    var dataThumbnail: Option<string>
    var classes: set<string>

    constructor (src: string)
      ensures this.src == src && dataSrc.None? && dataThumbnail.None? && classes == {}
    {
      this.src := src;
      dataSrc := None;
      dataThumbnail := None;
      classes := {};
    }
  }

  /** An intersection-observer entry. */
  datatype Entry = Entry(target: ImageElement, isIntersecting: bool)

  /** `data-src` as the loader reads it: only a non-empty value counts. */
  function ObservedSource(element: ImageElement): Option<string>
    reads element
  {
    if element.dataSrc.Some? && element.dataSrc.value != "" then element.dataSrc else None
  }

  /** The source an entry makes the loader load: an intersecting element's `data-src`, if it names one. */
  function TriggeredSource(e: Entry): Option<string>
    reads e.target
  {
    if e.isIntersecting then ObservedSource(e.target) else None
  }

  /** No two entries make the loader load the same source. */
  predicate DistinctSources(entries: seq<Entry>)
    reads set e | e in entries :: e.target
  {
    forall i, j :: 0 <= i < j < |entries| && TriggeredSource(entries[i]).Some? ==>
      TriggeredSource(entries[i]) != TriggeredSource(entries[j])
  }

  /** The delays of the first `n` retries: the delay times 1, 2, ..., n. */
  function RetryDelays(delay: int, n: nat): (r: seq<int>)
    ensures |r| == n
    ensures forall k :: 0 <= k < n ==> r[k] == delay * (k + 1)
  {
    if n == 0 then [] else RetryDelays(delay, n - 1) + [delay * n]
  }

  /** The position of the first `true`, or the length when there is none. */
  function FirstSuccess(outcomes: seq<bool>): (k: nat)
    ensures k <= |outcomes|
    ensures forall i :: 0 <= i < k ==> !outcomes[i]
    ensures k < |outcomes| ==> outcomes[k]
  {
    if |outcomes| == 0 || outcomes[0] then 0 else 1 + FirstSuccess(outcomes[1..])
  }

  class LazyLoader {
    var cache: map<string, ImageData>
    var observed: set<ImageElement>
    const placeholder: string
    const retryAttempts: int
    const retryDelay: int

    /** The defaults (the loading placeholder, 3 attempts, 1000 ms) under any option given. */
    constructor (options: LazyLoadOptions)
      ensures cache == map[] && observed == {}
      ensures placeholder == options.placeholder.GetOr(DefaultPlaceholder)
      ensures retryAttempts == options.retryAttempts.GetOr(DefaultRetryAttempts)
      ensures retryDelay == options.retryDelay.GetOr(DefaultRetryDelay)
    {
      cache := map[];
      observed := {};
      placeholder := options.placeholder.GetOr(DefaultPlaceholder);
      retryAttempts := options.retryAttempts.GetOr(DefaultRetryAttempts);
      retryDelay := options.retryDelay.GetOr(DefaultRetryDelay);
    }

    /**
     * `observe`: a fresh, unloaded entry replaces whatever the cache held for
     * the source; the element remembers the source and thumbnail (an absent
     * thumbnail is written as the text "undefined"), shows the thumbnail or
     * the placeholder, and is watched.
     */
    method Observe(element: ImageElement, src: string, thumbnail: Option<string>)
      modifies this`cache, this`observed, element
      ensures cache == old(cache)[src := ImageData(src, thumbnail, false, false, None, 0)]
      ensures observed == old(observed) + {element}
      ensures element.dataSrc == Some(src)
      ensures element.dataThumbnail == Some(thumbnail.GetOr("undefined"))
      ensures element.src == if thumbnail.Some? && thumbnail.value != "" then thumbnail.value else placeholder
      ensures element.classes == old(element.classes)
    {
      cache := cache[src := ImageData(src, thumbnail, false, false, None, 0)];
      element.dataSrc := Some(src);
      element.dataThumbnail := Some(thumbnail.GetOr("undefined"));
      element.src := if thumbnail.Some? && thumbnail.value != "" then thumbnail.value else placeholder;
      observed := observed + {element};
    }

    /** `unobserve`: the element is no longer watched and its source's entry, if it names one, is dropped. */
    method Unobserve(element: ImageElement)
      modifies this`cache, this`observed
      ensures observed == old(observed) - {element}
      ensures ObservedSource(element).Some? ==> cache == old(cache) - {ObservedSource(element).value}
      ensures ObservedSource(element).None? ==> cache == old(cache)
    {
      observed := observed - {element};
      var src := ObservedSource(element);
      if src.Some? {
        cache := cache - {src.value};
      }
    }

    /** A load may start: the source is cached, not loaded and not loading. */
    predicate Ready(src: string)
      reads this
    {
      src in cache && !cache[src].loaded && !cache[src].loading
    }

    /** The entry after one attempt: loaded with no error, or one more try with the error kept. */
    function Attempted(d: ImageData, loads: bool): ImageData {
      if loads then d.(loaded := true, loading := false, error := None)
      else d.(loading := false, error := Some(LoadFailedMessage), retryCount := d.retryCount + 1)
    }

    /** After a failure the tries are still below the limit. */
    predicate RetriesLeft(d: ImageData, loads: bool) {
      !loads && d.retryCount + 1 < retryAttempts
    }

    /** The retry a failure schedules: the delay times the tries so far. */
    function ScheduledRetry(d: ImageData, loads: bool): Option<int> {
      if RetriesLeft(d, loads) then Some(retryDelay * (d.retryCount + 1)) else None
    }

    /** What the element shows after the attempt. */
    function Shown(d: ImageData, loads: bool, current: string, src: string): string {
      if loads then src else if RetriesLeft(d, loads) then current else ErrorPlaceholder
    }

    /** The class the attempt adds to the element. */
    function AddedClasses(d: ImageData, loads: bool): set<string> {
      if loads then {LoadedClass} else if RetriesLeft(d, loads) then {} else {ErrorClass}
    }

    /**
     * `loadImage` run to the end of one attempt. Nothing happens for a source
     * that is not cached, already loaded or still loading. A successful load
     * shows the source and marks the entry loaded with no error. A failed one
     * records the error and one more try; while the tries are below the limit
     * a retry is scheduled after the delay times the tries, and once they
     * reach it the error placeholder is shown.
     */
    method LoadImage(img: ImageElement, src: string, loads: bool) returns (retryAfter: Option<int>)
      modifies this`cache, img
      ensures !old(Ready(src)) ==>
        cache == old(cache) && retryAfter.None? && img.src == old(img.src) && img.classes == old(img.classes)
      ensures old(Ready(src)) ==>
        var d := old(cache)[src];
        && cache == old(cache)[src := Attempted(d, loads)]
        && retryAfter == ScheduledRetry(d, loads)
        && img.src == Shown(d, loads, old(img.src), src)
        && img.classes == old(img.classes) + AddedClasses(d, loads)
      ensures img.dataSrc == old(img.dataSrc) && img.dataThumbnail == old(img.dataThumbnail)
    {
      retryAfter := None;
      if src !in cache || cache[src].loaded || cache[src].loading {
        return;
      }
      var d := cache[src];
      d := d.(loading := true);
      cache := cache[src := d];
      if loads {
        img.src := src;
        img.classes := img.classes + {LoadedClass};
        d := d.(loaded := true, loading := false, error := None);
      } else {
        d := d.(loading := false, error := Some(LoadFailedMessage), retryCount := d.retryCount + 1);
        if d.retryCount < retryAttempts {
          retryAfter := Some(retryDelay * d.retryCount);
        } else {
          img.src := ErrorPlaceholder;
          img.classes := img.classes + {ErrorClass};
        }
      }
      cache := cache[src := d];
    }

    /**
     * A fresh entry followed through its timer chain: the first attempt and
     * every retry it schedules, the i-th attempt loading when `outcomes[i]`
     * says so. Loading stops at the first success or after the last allowed
     * attempt (at least one is always made); the retries wait the delay
     * times 1, 2, ... in turn.
     */
    method LoadWithRetries(img: ImageElement, src: string, outcomes: seq<bool>) returns (delays: seq<int>)
      requires src in cache && cache[src].retryCount == 0 && !cache[src].loaded && !cache[src].loading
      requires |outcomes| >= Max(retryAttempts, 1)
      modifies this`cache, img
      ensures var limit := Max(retryAttempts, 1);
        var k := FirstSuccess(outcomes);
        && src in cache && !cache[src].loading
        && cache.Keys == old(cache.Keys)
        && (forall s :: s in cache && s != src ==> cache[s] == old(cache)[s])
        && (k < limit ==>
              && cache[src].loaded && cache[src].error.None? && cache[src].retryCount == k
              && img.src == src && delays == RetryDelays(retryDelay, k))
        && (k >= limit ==>
              && !cache[src].loaded && cache[src].error == Some(LoadFailedMessage) && cache[src].retryCount == limit
              && img.src == ErrorPlaceholder && delays == RetryDelays(retryDelay, limit - 1))
    {
      var limit := Max(retryAttempts, 1);
      var k := FirstSuccess(outcomes);
      var attempt := 0;
      var retry := LoadImage(img, src, outcomes[0]);
      delays := [];
      while retry.Some?
        invariant 0 <= attempt < limit && attempt < |outcomes| && attempt <= k
        invariant src in cache && !cache[src].loading
        invariant cache.Keys == old(cache.Keys)
        invariant forall s :: s in cache && s != src ==> cache[s] == old(cache)[s]
        invariant delays == RetryDelays(retryDelay, attempt)
        invariant attempt == k ==>
          && cache[src].loaded && cache[src].error.None? && cache[src].retryCount == attempt
          && img.src == src && retry.None?
        invariant attempt < k ==>
          && !cache[src].loaded && cache[src].error == Some(LoadFailedMessage) && cache[src].retryCount == attempt + 1
          && (retry.Some? <==> attempt + 1 < limit)
          && (retry.Some? ==> retry.value == retryDelay * (attempt + 1))
          && (retry.None? ==> img.src == ErrorPlaceholder)
        decreases limit - attempt
      {
        delays := delays + [retry.value];
        attempt := attempt + 1;
        retry := LoadImage(img, src, outcomes[attempt]);
      }
    }

    /** The elements an entry list makes the loader act on: intersecting ones that name a source. */
    static function Triggered(entries: seq<Entry>): set<ImageElement>
      reads set e | e in entries :: e.target
    {
      set e | e in entries && e.isIntersecting && ObservedSource(e.target).Some? :: e.target
    }

    /** The cache after one entry: a ready source gets its attempt, anything else leaves the cache alone. */
    function VisitedCache(c: map<string, ImageData>, src: Option<string>, loads: bool): map<string, ImageData> {
      if src.Some? && src.value in c && !c[src.value].loaded && !c[src.value].loading
      then c[src.value := Attempted(c[src.value], loads)]
      else c
    }

    /** The retry one entry schedules. */
    function VisitedRetry(c: map<string, ImageData>, src: Option<string>, loads: bool): Option<int> {
      if src.Some? && src.value in c && !c[src.value].loaded && !c[src.value].loading
      then ScheduledRetry(c[src.value], loads)
      else None
    }

    /** The cache after the first `n` entries, whose triggered sources are `srcs`. */
    function CacheAfter(c: map<string, ImageData>, srcs: seq<Option<string>>, outcomes: seq<bool>, n: nat)
      : map<string, ImageData>
      requires n <= |srcs| && n <= |outcomes|
    {
      if n == 0 then c else VisitedCache(CacheAfter(c, srcs, outcomes, n - 1), srcs[n - 1], outcomes[n - 1])
    }

    /** The retries the first `n` entries schedule, one per entry. */
    function RetriesAfter(c: map<string, ImageData>, srcs: seq<Option<string>>, outcomes: seq<bool>, n: nat)
      : (r: seq<Option<int>>)
      requires n <= |srcs| && n <= |outcomes|
      ensures |r| == n
    {
      if n == 0 then []
      else RetriesAfter(c, srcs, outcomes, n - 1) + [VisitedRetry(CacheAfter(c, srcs, outcomes, n - 1), srcs[n - 1], outcomes[n - 1])]
    }

    /** The j-th retry is the one the j-th entry schedules on the cache the earlier entries left. */
    lemma {:induction false} RetriesAfterAt(c: map<string, ImageData>, srcs: seq<Option<string>>, outcomes: seq<bool>,
                                            n: nat, j: nat)
      requires j < n <= |srcs| && n <= |outcomes|
      ensures RetriesAfter(c, srcs, outcomes, n)[j] == VisitedRetry(CacheAfter(c, srcs, outcomes, j), srcs[j], outcomes[j])
    {
      if j < n - 1 {
        RetriesAfterAt(c, srcs, outcomes, n - 1, j);
      }
    }

    /** Visiting entries keeps the cache's sources and leaves loaded entries as they were. */
    lemma {:induction false} CacheAfterKeeps(c: map<string, ImageData>, srcs: seq<Option<string>>, outcomes: seq<bool>, n: nat)
      requires n <= |srcs| && n <= |outcomes|
      ensures CacheAfter(c, srcs, outcomes, n).Keys == c.Keys
      ensures forall s :: s in c && c[s].loaded ==> CacheAfter(c, srcs, outcomes, n)[s] == c[s]
    {
      if n > 0 {
        CacheAfterKeeps(c, srcs, outcomes, n - 1);
      }
    }

    /** A source none of the first `n` entries triggers keeps its entry. */
    lemma {:induction false} CacheAfterOther(c: map<string, ImageData>, srcs: seq<Option<string>>, outcomes: seq<bool>,
                                             n: nat, src: string)
      requires n <= |srcs| && n <= |outcomes|
      requires forall k :: 0 <= k < n ==> srcs[k] != Some(src)
      ensures src in CacheAfter(c, srcs, outcomes, n) <==> src in c
      ensures src in c ==> CacheAfter(c, srcs, outcomes, n)[src] == c[src]
    {
      if n > 0 {
        CacheAfterOther(c, srcs, outcomes, n - 1, src);
      }
    }

    /** A source exactly one of the first `n` entries triggers holds that entry's single attempt. */
    lemma {:induction false} CacheAfterOwn(c: map<string, ImageData>, srcs: seq<Option<string>>, outcomes: seq<bool>,
                                           n: nat, j: nat)
      requires j < n <= |srcs| && n <= |outcomes| && srcs[j].Some?
      requires forall k :: 0 <= k < n && k != j ==> srcs[k] != srcs[j]
      ensures var src := srcs[j].value;
        && (src in CacheAfter(c, srcs, outcomes, n) <==> src in c)
        && (src in c ==> CacheAfter(c, srcs, outcomes, n)[src] == VisitedCache(c, srcs[j], outcomes[j])[src])
    {
      var src := srcs[j].value;
      if n - 1 == j {
        CacheAfterOther(c, srcs, outcomes, j, src);
      } else {
        CacheAfterOwn(c, srcs, outcomes, n - 1, j);
      }
    }

    /** One entry of `handleIntersection`: an intersecting element that names a source is loaded, then no longer watched. */
    method Visit(e: Entry, loads: bool) returns (retry: Option<int>)
      modifies this`cache, this`observed, e.target
      ensures e.target.dataSrc == old(e.target.dataSrc)
      ensures cache == VisitedCache(old(cache), old(TriggeredSource(e)), loads)
      ensures retry == VisitedRetry(old(cache), old(TriggeredSource(e)), loads)
      ensures observed == if old(TriggeredSource(e)).Some? then old(observed) - {e.target} else old(observed)
    {
      retry := None;
      var src := ObservedSource(e.target);
      if e.isIntersecting && src.Some? {
        retry := LoadImage(e.target, src.value, loads);
        observed := observed - {e.target};
      }
    }

    /**
     * `handleIntersection` with each load run to the end of its first
     * attempt (`outcomes[i]` for the i-th entry): every intersecting element
     * that names a source is loaded and then no longer watched; other entries
     * are skipped. The cache keeps its sources and a loaded entry stays
     * loaded. When no two entries name the same source, each triggered
     * entry's source holds exactly that entry's attempt and the entry's
     * retry is the one the attempt schedules.
     */
    method HandleIntersection(entries: seq<Entry>, outcomes: seq<bool>) returns (retries: seq<Option<int>>)
      requires |outcomes| == |entries|
      modifies this`cache, this`observed, set e | e in entries :: e.target
      ensures |retries| == |entries|
      ensures observed == old(observed) - old(Triggered(entries))
      ensures cache.Keys == old(cache.Keys)
      ensures forall s :: s in old(cache) && old(cache)[s].loaded ==> cache[s] == old(cache)[s]
      ensures forall i :: 0 <= i < |entries| && old(TriggeredSource(entries[i])).None? ==> retries[i].None?
      ensures old(DistinctSources(entries)) ==>
        forall i :: 0 <= i < |entries| && old(TriggeredSource(entries[i])).Some? ==>
          var src := old(TriggeredSource(entries[i])).value;
          if old(Ready(src)) then
            src in cache && cache[src] == Attempted(old(cache)[src], outcomes[i])
            && retries[i] == ScheduledRetry(old(cache)[src], outcomes[i])
          else
            retries[i].None? && (src in old(cache) ==> cache[src] == old(cache)[src])
    {
      ghost var c0 := cache;
      ghost var srcs := seq(|entries|, j requires 0 <= j < |entries| reads set e | e in entries :: e.target => TriggeredSource(entries[j]));
      retries := [];
      var i := 0;
      while i < |entries|
        invariant 0 <= i <= |entries| && |retries| == i
        invariant forall e :: e in entries ==> e.target.dataSrc == old(e.target.dataSrc)
        invariant observed == old(observed) - old(Triggered(entries[..i]))
        invariant cache == CacheAfter(c0, srcs, outcomes, i)
        invariant retries == RetriesAfter(c0, srcs, outcomes, i)
      {
        var e := entries[i];
        assert TriggeredSource(e) == srcs[i];
        var retry := Visit(e, outcomes[i]);
        retries := retries + [retry];
        assert entries[..i + 1] == entries[..i] + [e];
        i := i + 1;
      }
      assert entries[..i] == entries;
      CacheAfterKeeps(c0, srcs, outcomes, |entries|);
      VisitsWithoutSource(c0, srcs, outcomes);
      assert forall j :: 0 <= j < |entries| ==> srcs[j] == old(TriggeredSource(entries[j]));
      if old(DistinctSources(entries)) {
        VisitsOfDistinctSources(c0, srcs, outcomes);
      }
    }

    /** An entry that triggers no load schedules no retry. */
    lemma VisitsWithoutSource(c: map<string, ImageData>, srcs: seq<Option<string>>, outcomes: seq<bool>)
      requires |srcs| == |outcomes|
      ensures forall j :: 0 <= j < |srcs| && srcs[j].None? ==> RetriesAfter(c, srcs, outcomes, |srcs|)[j].None?
    {
      forall j | 0 <= j < |srcs| && srcs[j].None?
        ensures RetriesAfter(c, srcs, outcomes, |srcs|)[j].None?
      {
        RetriesAfterAt(c, srcs, outcomes, |srcs|, j);
      }
    }

    /** With no source triggered twice, each triggered source ends with its own entry's attempt and retry. */
    lemma VisitsOfDistinctSources(c: map<string, ImageData>, srcs: seq<Option<string>>, outcomes: seq<bool>)
      requires |srcs| == |outcomes|
      requires forall i, j :: 0 <= i < j < |srcs| && srcs[i].Some? ==> srcs[i] != srcs[j]
      ensures forall j :: 0 <= j < |srcs| && srcs[j].Some? ==>
        var src := srcs[j].value;
        var after := CacheAfter(c, srcs, outcomes, |srcs|);
        if src in c && !c[src].loaded && !c[src].loading then
          src in after && after[src] == Attempted(c[src], outcomes[j])
          && RetriesAfter(c, srcs, outcomes, |srcs|)[j] == ScheduledRetry(c[src], outcomes[j])
        else
          RetriesAfter(c, srcs, outcomes, |srcs|)[j].None? && (src in c ==> src in after && after[src] == c[src])
    {
      forall j | 0 <= j < |srcs| && srcs[j].Some?
        ensures var src := srcs[j].value;
          var after := CacheAfter(c, srcs, outcomes, |srcs|);
          if src in c && !c[src].loaded && !c[src].loading then
            src in after && after[src] == Attempted(c[src], outcomes[j])
            && RetriesAfter(c, srcs, outcomes, |srcs|)[j] == ScheduledRetry(c[src], outcomes[j])
          else
            RetriesAfter(c, srcs, outcomes, |srcs|)[j].None? && (src in c ==> src in after && after[src] == c[src])
      {
        RetriesAfterAt(c, srcs, outcomes, |srcs|, j);
        CacheAfterOwn(c, srcs, outcomes, |srcs|, j);
        CacheAfterOther(c, srcs, outcomes, j, srcs[j].value);
      }
    }

    /** `getImageData`. */
    function ImageDataOf(src: string): (r: Option<ImageData>)
      reads this
      ensures r.Some? <==> src in cache
      ensures r.Some? ==> r.value == cache[src]
    {
      if src in cache then Some(cache[src]) else None
    }

    /** `clearCache`: every entry goes; the observed elements stay watched. */
    method ClearCache()
      modifies this`cache
      ensures cache == map[]
    {
      cache := map[];
    }

    /** `destroy`: the observer lets go of every element and the cache is emptied. */
    method Destroy()
      modifies this`cache, this`observed
      ensures cache == map[] && observed == {}
    {
      observed := {};
      cache := map[];
    }
  }

  // ---------------------------------------------------------------------
  // Virtual scrolling

  const DefaultBuffer := 5

  datatype Range = Range(start: int, end: int)

  /** Math.ceil. */
  function Ceil(x: real): (n: int)
    ensures x <= n as real < x + 1.0
  {
    -((-x).Floor)
  }

  /**
   * `calculateVisibleRange` for a viewport at `scrollTop` that is
   * `containerHeight` tall: the rows it touches widened by `buffer` on each
   * side and cut to the list.
   */
  function VisibleRange(scrollTop: real, containerHeight: real, totalItems: int, itemHeight: real, buffer: int): (r: Range)
    requires itemHeight > 0.0
    ensures r.start >= 0 && r.end <= totalItems - 1
  {
    Range(Max(0, (scrollTop / itemHeight).Floor - buffer),
          Min(totalItems - 1, Ceil((scrollTop + containerHeight) / itemHeight) + buffer))
  }

  class VirtualScrollManager {
    const itemHeight: real
    const buffer: int
    var visibleRange: Range

    constructor (itemHeight: real, buffer: Option<int>)
      requires itemHeight > 0.0
      ensures this.itemHeight == itemHeight && this.buffer == buffer.GetOr(DefaultBuffer)
      ensures visibleRange == Range(0, 0)
    {
      this.itemHeight := itemHeight;
      this.buffer := buffer.GetOr(DefaultBuffer);
      visibleRange := Range(0, 0);
    }

    /** `calculateVisibleRange`: the range is worked out, stored and returned. */
    method CalculateVisibleRange(totalItems: int, scrollTop: real, containerHeight: real) returns (r: Range)
      requires itemHeight > 0.0
      modifies this`visibleRange
      ensures r == visibleRange == VisibleRange(scrollTop, containerHeight, totalItems, itemHeight, buffer)
      ensures r.start >= 0 && r.end <= totalItems - 1
    {
      visibleRange := VisibleRange(scrollTop, containerHeight, totalItems, itemHeight, buffer);
      r := visibleRange;
    }

    /** `getVisibleRange`: the range last worked out. */
    function GetVisibleRange(): Range
      reads this
    {
      visibleRange
    }

    /** After working out a range, the getter gives that range, within the list's bounds. */
    method CalculateThenGet(totalItems: int, scrollTop: real, containerHeight: real) returns (r: Range)
      requires itemHeight > 0.0
      modifies this`visibleRange
      ensures r == VisibleRange(scrollTop, containerHeight, totalItems, itemHeight, buffer)
      ensures r.start >= 0 && r.end <= totalItems - 1
    {
      var computed := CalculateVisibleRange(totalItems, scrollTop, containerHeight);
      r := GetVisibleRange();
      assert r == computed;
    }

    /** `getTotalHeight`: where a row after the last would start; positive exactly when there are rows. */
    function TotalHeight(totalItems: int): (h: real)
      ensures h == ItemOffset(totalItems)
      ensures itemHeight > 0.0 ==> (h > 0.0 <==> totalItems > 0)
    {
      totalItems as real * itemHeight
    }

    /** `getItemOffset`: the first row at the top, later rows further down. */
    function ItemOffset(index: int): (y: real)
      ensures index == 0 ==> y == 0.0
      ensures itemHeight > 0.0 ==> (y > 0.0 <==> index > 0) && (y < 0.0 <==> index < 0)
    {
      index as real * itemHeight
    }

    /** Offsets grow with the index, by one item height per row. */
    lemma OffsetsIncrease(i: int, j: int)
      requires itemHeight > 0.0 && i < j
      ensures ItemOffset(j) - ItemOffset(i) >= itemHeight
    {
      assert ItemOffset(j) - ItemOffset(i) == (j - i) as real * itemHeight;
    }

    /** The rows sit one item height apart, the last one ending at the total height. */
    lemma RowsTile(n: nat)
      requires n > 0
      ensures ItemOffset(0) == 0.0
      ensures ItemOffset(n) - ItemOffset(n - 1) == itemHeight
      ensures ItemOffset(n - 1) + itemHeight == TotalHeight(n)
    {
    }

    /**
     * Every row that shows in the viewport, that is one starting above its
     * bottom and ending below its top, lies inside the visible range
     * (for a buffer that is not negative).
     */
    lemma OnScreenRowsInRange(scrollTop: real, containerHeight: real, totalItems: int, i: int)
      requires itemHeight > 0.0 && buffer >= 0
      requires 0 <= i < totalItems
      requires ItemOffset(i) < scrollTop + containerHeight && ItemOffset(i + 1) > scrollTop
      ensures var r := VisibleRange(scrollTop, containerHeight, totalItems, itemHeight, buffer);
        r.start <= i <= r.end
    {
      var top := scrollTop / itemHeight;
      var bottom := (scrollTop + containerHeight) / itemHeight;
      assert top < (i + 1) as real by { Below(scrollTop, itemHeight, i + 1); }
      assert i as real < bottom by { Above(scrollTop + containerHeight, itemHeight, i); }
    }
  }

  /** x < k * h gives x / h < k. */
  lemma Below(x: real, h: real, k: int)
    requires h > 0.0 && x < k as real * h
    ensures x / h < k as real
  {
    assert (x / h) * h == x;
  }

  /** k * h < x gives k < x / h. */
  lemma Above(x: real, h: real, k: int)
    requires h > 0.0 && k as real * h < x
    ensures k as real < x / h
  {
    assert (x / h) * h == x;
  }
}
