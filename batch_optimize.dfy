// The admin batch-optimisation page (src/pages/Admin/BatchOptimize.tsx):
// the selection of images, the sortable table's comparator and sort toggle,
// the file-path extraction from public storage URLs, and the run that sends
// the selected paths to the optimisation function in batches of three.
//
// `new URL(url).pathname` is an input (`None` when the constructor throws);
// each invocation of the optimisation function is represented by its
// response, indexed by batch number.

module BatchOptimize {
  import opened Common

  // ---------------------------------------------------------------------
  // Images and the sortable table

  datatype GalleryImage = GalleryImage(
    id: string,
    url: string,
    title: Option<string>,
    description: Option<string>,
    galleryContainerId: Option<string>,
    visible: Option<bool>,
    position: Option<real>,
    createdAt: string)

  datatype SortKey = IdKey | UrlKey | TitleKey | DescriptionKey | ContainerKey | VisibleKey | PositionKey | CreatedAtKey

  datatype Direction = Asc | Desc

  datatype SortConfig = SortConfig(key: SortKey, direction: Direction)

  /** The initial sort: newest first. */
  const InitialSort := SortConfig(CreatedAtKey, Desc)

  /** A column value as the comparator sees it. */
  datatype FieldValue = Blank | Text(s: string) | Number(n: real) | Flag(b: bool)

  function FieldOf(img: GalleryImage, key: SortKey): FieldValue {
    match key
    case IdKey => Text(img.id)
    case UrlKey => Text(img.url)
    case TitleKey => if img.title.Some? then Text(img.title.value) else Blank
    case DescriptionKey => if img.description.Some? then Text(img.description.value) else Blank
    case ContainerKey => if img.galleryContainerId.Some? then Text(img.galleryContainerId.value) else Blank
    case VisibleKey => if img.visible.Some? then Flag(img.visible.value) else Blank
    case PositionKey => if img.position.Some? then Number(img.position.value) else Blank
    case CreatedAtKey => Text(img.createdAt)
  }

  /** `a.localeCompare(b)`, taken as code-unit order: -1, 0 or 1, and 0 only for equal texts. */
  function TextCompare(a: string, b: string): (r: int)
    ensures -1 <= r <= 1
    ensures r == 0 <==> a == b
  {
    if |a| == 0 && |b| == 0 then 0
    else if |a| == 0 then -1
    else if |b| == 0 then 1
    else if a[0] < b[0] then -1
    else if a[0] > b[0] then 1
    else
      assert a == [a[0]] + a[1..] && b == [b[0]] + b[1..];
      TextCompare(a[1..], b[1..])
  }

  /**
   * Code-unit order: after a common prefix of length `k`, the text that ends
   * there, or whose next code unit is smaller, sorts first.
   */
  lemma {:induction false} TextCompareFirstDifference(a: string, b: string, k: nat)
    requires k <= |a| && k <= |b| && a[..k] == b[..k]
    requires (k == |a| < |b|) || (k < |a| && k < |b| && a[k] < b[k])
    ensures TextCompare(a, b) == -1
  {
    if k > 0 {
      assert a[0] == a[..k][0] && b[0] == b[..k][0];
      assert a[1..][..k - 1] == a[..k][1..] && b[1..][..k - 1] == b[..k][1..];
      TextCompareFirstDifference(a[1..], b[1..], k - 1);
    }
  }

  lemma {:induction false} TextCompareAntisymmetric(a: string, b: string)
    ensures TextCompare(a, b) == -TextCompare(b, a)
    ensures TextCompare(a, b) == 0 <==> a == b
  {
    if |a| > 0 && |b| > 0 && a[0] == b[0] {
      TextCompareAntisymmetric(a[1..], b[1..]);
    }
  }

  /**
   * The sort comparator: negative puts `a` first. A missing value goes
   * last; two texts or two numbers are ordered in the direction; any other
   * pair (two flags, or values of different kinds) compares as equal.
   */
  function Compare(a: FieldValue, b: FieldValue, dir: Direction): (r: real)
    ensures a.Blank? ==> r > 0.0
    ensures !a.Blank? && b.Blank? ==> r < 0.0
    ensures a.Text? && b.Text? ==> (r == 0.0 <==> a.s == b.s)
    ensures a.Text? && b.Text? ==>
      (r < 0.0 <==> (if dir == Asc then TextCompare(a.s, b.s) else TextCompare(b.s, a.s)) < 0)
    ensures a.Number? && b.Number? ==> (r == 0.0 <==> a.n == b.n)
    ensures a.Number? && b.Number? ==> (r < 0.0 <==> if dir == Asc then a.n < b.n else b.n < a.n)
    ensures !a.Blank? && !b.Blank? && !(a.Text? && b.Text?) && !(a.Number? && b.Number?) ==> r == 0.0
  {
    if a.Blank? then 1.0
    else if b.Blank? then -1.0
    else if a.Text? && b.Text? then
      (if dir == Asc then TextCompare(a.s, b.s) else TextCompare(b.s, a.s)) as real
    else if a.Number? && b.Number? then
      (if dir == Asc then a.n - b.n else b.n - a.n)
    else 0.0
  }

  /** Missing values sort after present ones, whichever the direction. */
  lemma NullsLast(a: FieldValue, dir: Direction)
    requires !a.Blank?
    ensures Compare(a, Blank, dir) < 0.0 && Compare(Blank, a, dir) > 0.0
  {
  }

  /** Between two present values of the same kind, descending is ascending reversed. */
  lemma DescendingReverses(a: FieldValue, b: FieldValue)
    requires (a.Text? && b.Text?) || (a.Number? && b.Number?)
    ensures Compare(a, b, Desc) == -Compare(a, b, Asc)
    ensures Compare(a, b, Asc) == 0.0 <==> a == b
  {
    if a.Text? {
      TextCompareAntisymmetric(a.s, b.s);
    }
  }

  /** `handleSort(key)`: a click on the current ascending column turns it descending; any other click sorts ascending. */
  function NextSort(prev: SortConfig, key: SortKey): (r: SortConfig)
    ensures r.key == key
    ensures r.direction == Desc <==> prev.key == key && prev.direction == Asc
  {
    SortConfig(key, if prev.key == key && prev.direction == Asc then Desc else Asc)
  }

  /** Repeated clicks on one column alternate its direction, starting with ascending. */
  lemma SortClicksAlternate(prev: SortConfig, key: SortKey)
    ensures NextSort(NextSort(prev, key), key).direction != NextSort(prev, key).direction
    ensures prev.key != key ==> NextSort(prev, key).direction == Asc
  {
  }

  // ---------------------------------------------------------------------
  // Selection

  /** `toggleSelection(id)`: flips the membership of `id` and of nothing else. */
  function Toggled(selected: set<string>, id: string): (r: set<string>)
    ensures id in r <==> id !in selected
    ensures forall x :: x != id ==> (x in r <==> x in selected)
  {
    if id in selected then selected - {id} else selected + {id}
  }

  lemma ToggleTwice(selected: set<string>, id: string)
    ensures Toggled(Toggled(selected, id), id) == selected
  {
    var once := Toggled(selected, id);
    var twice := Toggled(once, id);
    assert forall x :: x in twice <==> x in selected;
  }

  /** `toggleSelectAll(checked)`: every displayed id, or nothing. */
  function SelectAll(images: seq<GalleryImage>, checked: bool): (r: set<string>)
    ensures checked ==> forall x :: x in r <==> exists k :: 0 <= k < |images| && images[k].id == x
    ensures !checked ==> r == {}
  {
    if checked then set k | 0 <= k < |images| :: images[k].id else {}
  }

  // ---------------------------------------------------------------------
  // extractFilePath

  const PublicObjectPrefix := "/storage/v1/object/public/"

  /**
   * One attempt of `/\/storage\/v1\/object\/public\/([^/]+)\/(.+)/` at
   * position i of a pathname: the prefix, a non-empty bucket without `/`, a
   * `/`, then a non-empty rest, which is the second group.
   */
  function MatchAt(path: string, i: nat): Option<string> {
    if !OccursAt(path, PublicObjectPrefix, i) then None
    else
      var rest := path[i + |PublicObjectPrefix|..];
      match IndexOfChar(rest, '/')
      case None => None
      case Some(j) => if 0 < j && j + 1 < |rest| then Some(rest[j + 1..]) else None
  }

  /** The unanchored search: the leftmost position where the pattern matches. */
  function Search(path: string, i: nat): Option<string>
    decreases |path| - i
  {
    if i > |path| then None
    else
      match MatchAt(path, i)
      case Some(x) => Some(x)
      case None => Search(path, i + 1)
  }

  /**
   * `extractFilePath(url)`: the object path of a public storage URL, the
   * pathname without its leading `/` for any other URL, and the input itself
   * when it does not parse. `pathname` is `new URL(url).pathname`.
   */
  function ExtractFilePath(url: string, pathname: Option<string>): (r: string)
    ensures pathname.None? ==> r == url
  {
    match pathname
    case None => url
    case Some(path) =>
      match Search(path, 0)
      case Some(file) => file
      case None => if |path| > 0 && path[0] == '/' then path[1..] else path
  }

  /** For `/storage/v1/object/public/<bucket>/<file>`, the result is `<file>`. */
  lemma ExtractPublicObject(url: string, bucket: string, file: string)
    requires bucket != "" && '/' !in bucket && file != ""
    ensures ExtractFilePath(url, Some(PublicObjectPrefix + bucket + "/" + file)) == file
  {
    var path := PublicObjectPrefix + bucket + "/" + file;
    var rest := bucket + "/" + file;
    assert path[..|PublicObjectPrefix|] == PublicObjectPrefix;
    assert path[|PublicObjectPrefix|..] == rest;
    assert rest[|bucket|] == '/';
    assert forall q :: 0 <= q < |bucket| ==> rest[q] == bucket[q];
    var j := IndexOfChar(rest, '/').value;
    assert j == |bucket|;
    assert rest[j + 1..] == file;
  }

  lemma {:induction false} SearchNeedsPrefix(path: string, i: nat)
    requires !Contains(path, PublicObjectPrefix)
    ensures Search(path, i) == None
    decreases |path| - i
  {
    if i <= |path| {
      if OccursAt(path, PublicObjectPrefix, i) {
        ContainsWitness(path, PublicObjectPrefix, i);
      }
      SearchNeedsPrefix(path, i + 1);
    }
  }

  /** A pathname without the public-object prefix loses only its leading `/`. */
  lemma ExtractOtherPath(url: string, path: string)
    requires !Contains(path, PublicObjectPrefix)
    ensures ExtractFilePath(url, Some(path)) == if StartsWith(path, "/") then path[1..] else path
  {
    SearchNeedsPrefix(path, 0);
  }

  // ---------------------------------------------------------------------
  // handleBatchOptimize

  const BatchSize := 3
  const ConcurrentLimit := 3

  /** One entry of the function's `results`: `success` and the optional `reduction`. */
  datatype ItemResult = ItemResult(success: bool, reduction: Option<real>)

  /** How one invocation settled: it threw (or returned an error), or answered with optional `results`. */
  datatype BatchResponse = Threw | Answered(results: Option<seq<ItemResult>>)

  datatype Tally = Tally(success: nat, failed: nat, reductions: seq<real>)

  const NoTally := Tally(0, 0, [])

  function Add(a: Tally, b: Tally): Tally {
    Tally(a.success + b.success, a.failed + b.failed, a.reductions + b.reductions)
  }

  /** `result.success && result.reduction`: a zero or missing reduction is a failure. */
  predicate Succeeded(r: ItemResult) {
    r.success && r.reduction.Some? && r.reduction.value != 0.0
  }

  function Count(r: ItemResult): Tally {
    if Succeeded(r) then Tally(1, 0, [r.reduction.value]) else Tally(0, 1, [])
  }

  function TallyOf(results: seq<ItemResult>): Tally {
    if |results| == 0 then NoTally
    else Add(TallyOf(results[..|results| - 1]), Count(results[|results| - 1]))
  }

  /** What one batch adds: its results, all of its paths as failures when it threw, nothing without `results`. */
  function BatchTally(batch: seq<string>, response: BatchResponse): (t: Tally)
    ensures Answers(batch, response) ==> t.success + t.failed == |batch|
    ensures response.Threw? ==> t.success == 0
    ensures response == Answered(None) ==> t == NoTally
    ensures |t.reductions| == t.success && forall x :: x in t.reductions ==> x != 0.0
  {
    match response
    case Threw => Tally(0, |batch|, [])
    case Answered(None) => NoTally
    case Answered(Some(results)) => TallyOfCounts(results); TallyOf(results)
  }

  /** The tally of batches 0 .. m - 1. */
  function RunTally(batches: seq<seq<string>>, responses: nat -> BatchResponse, m: nat): (t: Tally)
    requires m <= |batches|
    ensures |t.reductions| == t.success && forall x :: x in t.reductions ==> x != 0.0
  {
    if m == 0 then NoTally else Add(RunTally(batches, responses, m - 1), BatchTally(batches[m - 1], responses(m - 1)))
  }

  lemma AddAssoc(a: Tally, b: Tally, c: Tally)
    ensures Add(Add(a, b), c) == Add(a, Add(b, c))
  {
    AppendAssoc(a.reductions, b.reductions, c.reductions);
  }

  lemma AddNone(a: Tally)
    ensures Add(a, NoTally) == a
  {
    assert a.reductions + [] == a.reductions;
  }

  /** Each result counts once; the reductions are exactly those of the successes, none of them zero. */
  lemma {:induction false} TallyOfCounts(results: seq<ItemResult>)
    ensures TallyOf(results).success + TallyOf(results).failed == |results|
    ensures |TallyOf(results).reductions| == TallyOf(results).success
    ensures forall x :: x in TallyOf(results).reductions ==> x != 0.0
  {
    if |results| > 0 {
      TallyOfCounts(results[..|results| - 1]);
    }
  }

  /** The response answers for every path of the batch: it threw, or has one result per path. */
  predicate Answers(batch: seq<string>, response: BatchResponse) {
    response.Threw? || (response.results.Some? && |response.results.value| == |batch|)
  }

  /** When every response answers for its batch, every path is counted once, as a success or a failure. */
  lemma {:induction false} RunTallyCountsEveryPath(batches: seq<seq<string>>, responses: nat -> BatchResponse, m: nat)
    requires m <= |batches|
    requires forall k :: 0 <= k < m ==> Answers(batches[k], responses(k))
    ensures RunTally(batches, responses, m).success + RunTally(batches, responses, m).failed == |Flatten(batches[..m])|
    ensures |RunTally(batches, responses, m).reductions| == RunTally(batches, responses, m).success
  {
    if m > 0 {
      RunTallyCountsEveryPath(batches, responses, m - 1);
      assert batches[..m] == batches[..m - 1] + [batches[m - 1]];
      FlattenSnoc(batches[..m - 1], batches[m - 1]);
      match responses(m - 1)
      case Threw =>
      case Answered(rs) => TallyOfCounts(rs.value);
    }
  }

  // ---------------------------------------------------------------------
  // Completion order within a group

  /** Two tallies with the same counts and the same reductions, in any order. */
  predicate SameTotals(a: Tally, b: Tally) {
    a.success == b.success && a.failed == b.failed && multiset(a.reductions) == multiset(b.reductions)
  }

  /** The tallies added one after another, in the order given. */
  function SumTallies(ts: seq<Tally>): Tally {
    if |ts| == 0 then NoTally else Add(SumTallies(ts[..|ts| - 1]), ts[|ts| - 1])
  }

  /** The tallies of batches from .. end - 1, in index order. */
  function GroupTallies(batches: seq<seq<string>>, responses: nat -> BatchResponse, from: nat, end: nat): (ts: seq<Tally>)
    requires from <= end <= |batches|
    ensures |ts| == end - from
    decreases end
  {
    if end == from then []
    else GroupTallies(batches, responses, from, end - 1) + [BatchTally(batches[end - 1], responses(end - 1))]
  }

  /** Running a group in index order adds the sum of its tallies. */
  lemma {:induction false} RunTallyGroup(batches: seq<seq<string>>, responses: nat -> BatchResponse, from: nat, end: nat)
    requires from <= end <= |batches|
    ensures RunTally(batches, responses, end) == Add(RunTally(batches, responses, from), SumTallies(GroupTallies(batches, responses, from, end)))
    decreases end
  {
    var ts := GroupTallies(batches, responses, from, end);
    var base := RunTally(batches, responses, from);
    if end == from {
      AddNone(base);
    } else {
      var init := GroupTallies(batches, responses, from, end - 1);
      var last := BatchTally(batches[end - 1], responses(end - 1));
      RunTallyGroup(batches, responses, from, end - 1);
      assert ts == init + [last];
      assert ts[..|ts| - 1] == init;
      assert SumTallies(ts) == Add(SumTallies(init), last);
      assert RunTally(batches, responses, end) == Add(RunTally(batches, responses, end - 1), last);
      AddAfter(RunTally(batches, responses, end - 1), base, SumTallies(init), last);
    }
  }

  lemma AddAfter(r: Tally, base: Tally, t: Tally, last: Tally)
    requires r == Add(base, t)
    ensures Add(r, last) == Add(base, Add(t, last))
  {
    AddAssoc(base, t, last);
  }

  lemma SameTotalsTrans(a: Tally, b: Tally, c: Tally)
    requires SameTotals(a, b) && SameTotals(b, c)
    ensures SameTotals(a, c)
  {
  }

  /** Adding the same tally to equal totals keeps them equal. */
  lemma AddSame(a: Tally, b: Tally, x: Tally)
    requires SameTotals(a, b)
    ensures SameTotals(Add(a, x), Add(b, x))
  {
  }

  /** The last two tallies added can be swapped. */
  lemma AddSwap(a: Tally, x: Tally, y: Tally)
    ensures SameTotals(Add(Add(a, x), y), Add(Add(a, y), x))
  {
    assert multiset((a.reductions + x.reductions) + y.reductions)
        == multiset((a.reductions + y.reductions) + x.reductions);
  }

  lemma RemoveBeforeLast<T>(us: seq<T>, j: nat)
    requires j < |us| - 1
    ensures us[..j] + us[j + 1..] == (us[..|us| - 1][..j] + us[..|us| - 1][j + 1..]) + [us[|us| - 1]]
  {
    var n := |us|;
    assert us[j + 1..] == us[j + 1..n - 1] + [us[n - 1]];
    assert us[..n - 1][..j] == us[..j];
    assert us[..n - 1][j + 1..] == us[j + 1..n - 1];
  }

  /** Taking one tally out and adding it last keeps the totals. */
  lemma {:induction false} SumTalliesRemove(us: seq<Tally>, j: nat)
    requires j < |us|
    ensures SameTotals(SumTallies(us), Add(SumTallies(us[..j] + us[j + 1..]), us[j]))
    decreases |us|
  {
    var rest := us[..j] + us[j + 1..];
    var n := |us|;
    if j == n - 1 {
      assert rest == us[..n - 1];
    } else {
      var init := us[..n - 1];
      var last := us[n - 1];
      var initRest := init[..j] + init[j + 1..];
      SumTalliesRemove(init, j);
      assert init[j] == us[j];
      var s := SumTallies(initRest);
      assert SumTallies(us) == Add(SumTallies(init), last);
      AddSame(SumTallies(init), Add(s, us[j]), last);
      AddSwap(s, us[j], last);
      SameTotalsTrans(SumTallies(us), Add(Add(s, us[j]), last), Add(Add(s, last), us[j]));
      RemoveBeforeLast(us, j);
      assert rest[..|rest| - 1] == initRest;
      assert SumTallies(rest) == Add(s, last);
    }
  }

  /** Adding the same tallies in any order gives the same totals. */
  lemma {:induction false} SumTalliesOrderFree(ts: seq<Tally>, us: seq<Tally>)
    requires multiset(ts) == multiset(us)
    ensures SameTotals(SumTallies(ts), SumTallies(us))
    decreases |ts|
  {
    if |ts| == 0 {
      assert |us| == 0;
    } else {
      var init := ts[..|ts| - 1];
      var x := ts[|ts| - 1];
      assert ts == init + [x];
      assert x in multiset(us);
      var j :| 0 <= j < |us| && us[j] == x;
      var rest := us[..j] + us[j + 1..];
      assert us == us[..j] + [x] + us[j + 1..];
      assert multiset(us) == multiset(us[..j]) + multiset{x} + multiset(us[j + 1..]);
      assert multiset(ts) == multiset(init) + multiset{x};
      assert multiset(rest) == multiset(us[..j]) + multiset(us[j + 1..]);
      assert multiset(init) == multiset(ts) - multiset{x};
      assert multiset(rest) == multiset(us) - multiset{x};
      SumTalliesOrderFree(init, rest);
      SumTalliesRemove(us, j);
      AddSame(SumTallies(init), SumTallies(rest), x);
    }
  }

  /**
   * `Promise.all` lets a group's batches finish in any order, and each adds
   * its whole tally when it finishes: whatever the order, the counts and the
   * reductions (as a multiset) after the group are those of the batches run
   * in index order.
   */
  lemma GroupOrderFree(batches: seq<seq<string>>, responses: nat -> BatchResponse, from: nat, end: nat, finished: seq<Tally>)
    requires from <= end <= |batches|
    requires multiset(finished) == multiset(GroupTallies(batches, responses, from, end))
    ensures SameTotals(Add(RunTally(batches, responses, from), SumTallies(finished)), RunTally(batches, responses, end))
  {
    var base := RunTally(batches, responses, from);
    var inOrder := SumTallies(GroupTallies(batches, responses, from, end));
    RunTallyGroup(batches, responses, from, end);
    SumTalliesOrderFree(finished, GroupTallies(batches, responses, from, end));
    assert multiset(base.reductions + SumTallies(finished).reductions) == multiset(base.reductions + inOrder.reductions);
  }

  function Sum(xs: seq<real>): real {
    if |xs| == 0 then 0.0 else Sum(xs[..|xs| - 1]) + xs[|xs| - 1]
  }

  /** The average reduction, 0 when there is none. */
  function Average(xs: seq<real>): real {
    if |xs| == 0 then 0.0 else Sum(xs) / (|xs| as real)
  }

  lemma {:induction false} SumBounds(xs: seq<real>, lo: real, hi: real)
    requires forall q :: 0 <= q < |xs| ==> lo <= xs[q] <= hi
    ensures (|xs| as real) * lo <= Sum(xs) <= (|xs| as real) * hi
  {
    if |xs| > 0 {
      var init := xs[..|xs| - 1];
      assert forall q :: 0 <= q < |init| ==> init[q] == xs[q];
      SumBounds(init, lo, hi);
    }
  }

  /** The average of reductions that all lie in [lo, hi] lies there too; with none it is 0. */
  lemma AverageBounds(xs: seq<real>, lo: real, hi: real)
    requires forall x :: x in xs ==> lo <= x <= hi
    ensures |xs| == 0 ==> Average(xs) == 0.0
    ensures |xs| > 0 ==> lo <= Average(xs) <= hi
  {
    if |xs| > 0 {
      assert forall q :: 0 <= q < |xs| ==> xs[q] in xs;
      SumBounds(xs, lo, hi);
      QuotientBounds(Sum(xs), |xs| as real, lo, hi);
    }
  }

  lemma QuotientBounds(s: real, n: real, lo: real, hi: real)
    requires n > 0.0 && n * lo <= s <= n * hi
    ensures lo <= s / n <= hi
  {
    var q := s / n;
    assert q * n == s;
  }

  /** `Math.round(x * 100) / 100`, with `Math.round(y) = floor(y + 0.5)`. */
  function RoundTo2(x: real): real {
    ((x * 100.0 + 0.5).Floor as real) / 100.0
  }

  /** `Math.min(...xs)`. */
  function MinOf(xs: seq<real>): (r: real)
    requires |xs| > 0
    ensures r in xs && forall x :: x in xs ==> r <= x
  {
    if |xs| == 1 then xs[0]
    else
      assert xs == [xs[0]] + xs[1..];
      if xs[0] <= MinOf(xs[1..]) then xs[0] else MinOf(xs[1..])
  }

  /** `Math.max(...xs)`. */
  function MaxOf(xs: seq<real>): (r: real)
    requires |xs| > 0
    ensures r in xs && forall x :: x in xs ==> x <= r
  {
    if |xs| == 1 then xs[0]
    else
      assert xs == [xs[0]] + xs[1..];
      if xs[0] >= MaxOf(xs[1..]) then xs[0] else MaxOf(xs[1..])
  }

  /** The metadata of the `admin_activity_log` row. */
  datatype LogEntry = LogEntry(
    count: nat, success: nat, failed: nat, avgReduction: real, minReduction: real, maxReduction: real)

  /**
   * The counts of the run, the rounded average reduction and the smallest
   * and largest reduction, all three 0 when nothing was reduced.
   */
  function LogFor(selectedCount: nat, t: Tally): (e: LogEntry)
    ensures e.count == selectedCount && e.success == t.success && e.failed == t.failed
    ensures e.avgReduction == RoundTo2(Average(t.reductions))
    ensures |t.reductions| == 0 ==> e.avgReduction == e.minReduction == e.maxReduction == 0.0
    ensures |t.reductions| > 0 ==> e.minReduction in t.reductions && e.maxReduction in t.reductions
    ensures forall x :: x in t.reductions ==> e.minReduction <= x <= e.maxReduction
  {
    var avg := RoundTo2(Average(t.reductions));
    LogEntry(selectedCount, t.success, t.failed, avg,
      if |t.reductions| > 0 then MinOf(t.reductions) else 0.0,
      if |t.reductions| > 0 then MaxOf(t.reductions) else 0.0)
  }

  /** `sortedImages.filter((img) => selectedIds.has(img.id))`. */
  function SelectedImages(sorted: seq<GalleryImage>, selected: set<string>): (r: seq<GalleryImage>)
    ensures IsFilter(r, sorted, (img: GalleryImage) => img.id in selected)
  {
    if |sorted| == 0 then []
    else
      var last := sorted[|sorted| - 1];
      var init := SelectedImages(sorted[..|sorted| - 1], selected);
      FilterSnoc((img: GalleryImage) => img.id in selected, sorted, init);
      if last.id in selected then init + [last] else init
  }

  /** The file path of each selected image, in table order. */
  function SelectedPaths(sorted: seq<GalleryImage>, selected: set<string>, pathname: string -> Option<string>): (r: seq<string>)
    ensures var imgs := SelectedImages(sorted, selected);
      |r| == |imgs| && forall i :: 0 <= i < |r| ==> r[i] == ExtractFilePath(imgs[i].url, pathname(imgs[i].url))
    ensures |r| <= |sorted|
    ensures r == [] <==> forall img :: img in sorted ==> img.id !in selected
  {
    var imgs := SelectedImages(sorted, selected);
    FilterMembers(imgs, sorted, (img: GalleryImage) => img.id in selected);
    assert |imgs| > 0 ==> imgs[0] in imgs;
    seq(|imgs|, i requires 0 <= i < |imgs| => ExtractFilePath(imgs[i].url, pathname(imgs[i].url)))
  }

  /** `for (i = 0; i < n; i += size) batches.push(paths.slice(i, i + size))`. */
  method SplitIntoBatches(paths: seq<string>, size: nat) returns (batches: seq<seq<string>>)
    requires size > 0
    ensures batches == Chunks(paths, size)
  {
    batches := [];
    var i := 0;
    while i < |paths|
      invariant batches + Chunks(paths[Min(i, |paths|)..], size) == Chunks(paths, size)
    {
      ChunksFrom(paths, size, i);
      AppendAssoc(batches, [paths[i..Min(i + size, |paths|)]], Chunks(paths[Min(i + size, |paths|)..], size));
      batches := batches + [paths[i..Min(i + size, |paths|)]];
      i := i + size;
    }
    assert paths[|paths|..] == [];
    assert batches + [] == batches;
  }

  /** The `catch` of `processBatch`: every path of the batch counts as failed. */
  method FailBatch(batch: seq<string>, tally0: Tally, completed0: nat) returns (tally: Tally, completed: nat)
    requires completed0 == tally0.success + tally0.failed
    ensures tally == Add(tally0, BatchTally(batch, Threw))
    ensures completed == tally.success + tally.failed
  {
    tally, completed := tally0, completed0;
    var j := 0;
    while j < |batch|
      invariant 0 <= j <= |batch|
      invariant tally == Tally(tally0.success, tally0.failed + j, tally0.reductions)
      invariant completed == tally.success + tally.failed
    {
      completed := completed + 1;
      tally := tally.(failed := tally.failed + 1);
      j := j + 1;
    }
    assert tally0.reductions + [] == tally0.reductions;
  }

  lemma TallyOfSnoc(results: seq<ItemResult>, j: nat)
    requires j < |results|
    ensures TallyOf(results[..j + 1]) == Add(TallyOf(results[..j]), Count(results[j]))
  {
    assert results[..j + 1][..j] == results[..j];
  }

  /** The `results.forEach` of `processBatch`: each result is a success or a failure. */
  method CountResults(results: seq<ItemResult>, tally0: Tally, completed0: nat) returns (tally: Tally, completed: nat)
    requires completed0 == tally0.success + tally0.failed
    ensures tally == Add(tally0, TallyOf(results))
    ensures completed == tally.success + tally.failed
  {
    tally, completed := tally0, completed0;
    AddNone(tally0);
    var j := 0;
    while j < |results|
      invariant 0 <= j <= |results|
      invariant tally == Add(tally0, TallyOf(results[..j]))
      invariant completed == tally.success + tally.failed
    {
      var result := results[j];
      ghost var prev := tally;
      TallyOfSnoc(results, j);
      AddAssoc(tally0, TallyOf(results[..j]), Count(result));
      completed := completed + 1;
      if result.success && result.reduction.Some? && result.reduction.value != 0.0 {
        tally := tally.(success := tally.success + 1, reductions := tally.reductions + [result.reduction.value]);
      } else {
        tally := tally.(failed := tally.failed + 1);
        assert tally.reductions == prev.reductions + [];
      }
      assert tally == Add(prev, Count(result));
      j := j + 1;
    }
    assert results[..|results|] == results;
  }

  /**
   * `processBatch`: a batch that threw counts every path as failed; a batch
   * that answered counts each result; `completed` grows by the same amount.
   */
  method ProcessBatch(batch: seq<string>, response: BatchResponse, tally0: Tally, completed0: nat)
    returns (tally: Tally, completed: nat)
    requires completed0 == tally0.success + tally0.failed
    ensures tally == Add(tally0, BatchTally(batch, response))
    ensures completed == tally.success + tally.failed
  {
    match response
    case Threw =>
      tally, completed := FailBatch(batch, tally0, completed0);
    case Answered(None) =>
      AddNone(tally0);
      tally, completed := tally0, completed0;
    case Answered(Some(results)) =>
      tally, completed := CountResults(results, tally0, completed0);
  }

  /**
   * One `Promise.all` over the batches with indices from .. end - 1: each
   * batch's tally is added in index order.
   */
  method RunGroup(batches: seq<seq<string>>, responses: nat -> BatchResponse, from: nat, end: nat,
                  tally0: Tally, completed0: nat)
    returns (tally: Tally, completed: nat)
    requires from <= end <= |batches|
    requires tally0 == RunTally(batches, responses, from) && completed0 == tally0.success + tally0.failed
    ensures tally == RunTally(batches, responses, end)
    ensures completed == tally.success + tally.failed
  {
    tally, completed := tally0, completed0;
    var g := from;
    while g < end
      invariant from <= g <= end
      invariant tally == RunTally(batches, responses, g)
      invariant completed == tally.success + tally.failed
    {
      tally, completed := ProcessBatch(batches[g], responses(g), tally, completed);
      g := g + 1;
    }
  }

  /**
   * The outer loop: batches are started in groups of at most
   * `ConcurrentLimit`, and each group is awaited before the next; within a
   * group the batches are taken in order.
   */
  method RunBatches(batches: seq<seq<string>>, responses: nat -> BatchResponse)
    returns (tally: Tally, completed: nat, groups: seq<seq<seq<string>>>)
    ensures tally == RunTally(batches, responses, |batches|)
    ensures completed == tally.success + tally.failed
    ensures groups == Chunks(batches, ConcurrentLimit)
  {
    tally, completed, groups := NoTally, 0, [];
    var i := 0;
    while i < |batches|
      invariant tally == RunTally(batches, responses, Min(i, |batches|))
      invariant completed == tally.success + tally.failed
      invariant groups + Chunks(batches[Min(i, |batches|)..], ConcurrentLimit) == Chunks(batches, ConcurrentLimit)
    {
      var end := Min(i + ConcurrentLimit, |batches|);
      var concurrent := batches[i..end];
      tally, completed := RunGroup(batches, responses, i, end, tally, completed);
      assert (groups + [concurrent]) + Chunks(batches[end..], ConcurrentLimit) == Chunks(batches, ConcurrentLimit) by {
        assert Min(i, |batches|) == i;
        ChunksFrom(batches, ConcurrentLimit, i);
        AppendAssoc(groups, [concurrent], Chunks(batches[end..], ConcurrentLimit));
      }
      groups := groups + [concurrent];
      i := i + ConcurrentLimit;
      assert Min(i, |batches|) == end;
    }
    assert batches[|batches|..] == [];
    assert groups + [] == groups;
  }

  datatype Run =
    | NothingSelected
      /** `batchOptimizeRequestSchema.parse` rejected an empty path list. */
    | InvalidRequest
    | Completed(tally: Tally, completed: nat, groups: seq<seq<seq<string>>>, log: Option<LogEntry>)

  /**
   * `handleBatchOptimize` without its state updates: nothing is invoked for
   * an empty selection; the selected images' paths are validated, split into
   * batches of three and run; the activity log is written when there is a
   * user.
   */
  method OptimizeSelection(selected: set<string>, sorted: seq<GalleryImage>, pathname: string -> Option<string>,
                           responses: nat -> BatchResponse, hasUser: bool)
    returns (run: Run)
    ensures |selected| == 0 <==> run == NothingSelected
    ensures run.InvalidRequest? <==> |selected| > 0 && SelectedPaths(sorted, selected, pathname) == []
    ensures run.Completed? ==>
      var batches := Chunks(SelectedPaths(sorted, selected, pathname), BatchSize);
      && run.tally == RunTally(batches, responses, |batches|)
      && run.completed == run.tally.success + run.tally.failed
      && Flatten(run.groups) == batches
      && (forall g :: g in run.groups ==> 0 < |g| <= ConcurrentLimit)
      && (run.log.Some? <==> hasUser)
      && (hasUser ==> run.log.value == LogFor(|selected|, run.tally))
  {
    if |selected| == 0 {
      return NothingSelected;
    }
    var filePaths := SelectedPaths(sorted, selected, pathname);
    if |filePaths| == 0 {
      return InvalidRequest;
    }
    var batches := SplitIntoBatches(filePaths, BatchSize);
    var tally, completed, groups := RunBatches(batches, responses);
    FlattenChunks(batches, ConcurrentLimit);
    var log := if hasUser then Some(LogFor(|selected|, tally)) else None;
    run := Completed(tally, completed, groups, log);
  }

  /** When every batch is answered in full, the run counts each selected path exactly once. */
  lemma CompletedCountsEveryPath(paths: seq<string>, responses: nat -> BatchResponse)
    requires var batches := Chunks(paths, BatchSize);
      forall k :: 0 <= k < |batches| ==> Answers(batches[k], responses(k))
    ensures var batches := Chunks(paths, BatchSize);
      var t := RunTally(batches, responses, |batches|);
      t.success + t.failed == |paths| && |t.reductions| == t.success
  {
    var batches := Chunks(paths, BatchSize);
    RunTallyCountsEveryPath(batches, responses, |batches|);
    assert batches[..|batches|] == batches;
    FlattenChunks(paths, BatchSize);
  }

  // ---------------------------------------------------------------------
  // The page's state

  class BatchOptimizePage {
    var selectedIds: set<string>
    var sortConfig: SortConfig
    var isOptimizing: bool
    var progress: (nat, nat)

    constructor ()
      ensures selectedIds == {} && sortConfig == InitialSort && !isOptimizing && progress == (0, 0)
    {
      selectedIds := {};
      sortConfig := InitialSort;
      isOptimizing := false;
      progress := (0, 0);
    }

    method ToggleSelection(id: string)
      modifies this
      ensures selectedIds == Toggled(old(selectedIds), id)
      ensures sortConfig == old(sortConfig) && isOptimizing == old(isOptimizing) && progress == old(progress)
    {
      var next := selectedIds;
      if id in next {
        next := next - {id};
      } else {
        next := next + {id};
      }
      selectedIds := next;
    }

    method ToggleSelectAll(checked: bool, sorted: seq<GalleryImage>)
      modifies this
      ensures selectedIds == SelectAll(sorted, checked)
      ensures sortConfig == old(sortConfig) && isOptimizing == old(isOptimizing) && progress == old(progress)
    {
      if checked {
        selectedIds := set k | 0 <= k < |sorted| :: sorted[k].id;
      } else {
        selectedIds := {};
      }
    }

    method HandleSort(key: SortKey)
      modifies this
      ensures sortConfig == NextSort(old(sortConfig), key)
      ensures selectedIds == old(selectedIds) && isOptimizing == old(isOptimizing) && progress == old(progress)
    {
      sortConfig := SortConfig(key, if sortConfig.key == key && sortConfig.direction == Asc then Desc else Asc);
    }

    /**
     * `handleBatchOptimize`: the selection is cleared only after a completed
     * run; the `finally` block always resets the busy flag and the progress.
     */
    method HandleBatchOptimize(sorted: seq<GalleryImage>, pathname: string -> Option<string>,
                               responses: nat -> BatchResponse, hasUser: bool)
      returns (run: Run)
      modifies this
      ensures |old(selectedIds)| == 0 <==> run == NothingSelected
      ensures run.Completed? ==> selectedIds == {}
      ensures !run.Completed? ==> selectedIds == old(selectedIds)
      ensures run != NothingSelected ==> !isOptimizing && progress == (0, 0)
      ensures run == NothingSelected ==> isOptimizing == old(isOptimizing) && progress == old(progress)
      ensures sortConfig == old(sortConfig)
    {
      if |selectedIds| == 0 {
        return NothingSelected;
      }
      isOptimizing := true;
      progress := (0, |selectedIds|);
      run := OptimizeSelection(selectedIds, sorted, pathname, responses, hasUser);
      if run.Completed? {
        selectedIds := {};
      }
      isOptimizing := false;
      progress := (0, 0);
    }
  }
}
