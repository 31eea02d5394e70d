// Signed image URLs (src/hooks/useSignedUrl.ts): for a size other than
// `original` the hook first asks for an optimised WebP variant stored under
// an `optimized/` folder, and falls back to the original file; the hook's
// state says whether the URL it shows is a fallback.
//
// The storage service's answers are inputs: the optimised request yields a
// signed URL or nothing, and the original request yields a URL (possibly
// empty) or a thrown value. The requests made are recorded in `requests`.

module SignedUrl {
  import opened Common

  datatype ImageSize = Thumbnail | Medium | Full | Original

  datatype SignRequest = SignRequest(bucket: string, path: string, expiresIn: nat)

  const SignedUrlSeconds := 3600
  const OptimizedFolder := "optimized/"
  const FailedMessage := "Failed to get signed URL"

  function SizeName(size: ImageSize): string {
    match size
    case Thumbnail => "thumbnail"
    case Medium => "medium"
    case Full => "full"
    case Original => "original"
  }

  /** `path` ends with `ext`, ignoring ASCII case. */
  predicate EndsWithIgnoringCase(path: string, ext: string) {
    |ext| <= |path| && Lower(path[|path| - |ext|..]) == ext
  }

  /** The length of the suffix `/\.(jpg|jpeg|png|gif)$/i` matches, if any. */
  function ImageExtLength(path: string): (n: Option<nat>)
    ensures n.Some? ==> (n.value == 4 || n.value == 5) && n.value <= |path|
  {
    if EndsWithIgnoringCase(path, ".jpeg") then Some(5)
    else if EndsWithIgnoringCase(path, ".jpg") || EndsWithIgnoringCase(path, ".png")
         || EndsWithIgnoringCase(path, ".gif") then Some(4)
    else None
  }

  /** The matched suffix starts with a dot and holds no `/`. */
  lemma ImageExtShape(path: string)
    requires ImageExtLength(path).Some?
    ensures var n := ImageExtLength(path).value;
      path[|path| - n] == '.' && forall i :: |path| - n <= i < |path| ==> path[i] != '/'
  {
    var ext :=
      if EndsWithIgnoringCase(path, ".jpeg") then ".jpeg"
      else if EndsWithIgnoringCase(path, ".jpg") then ".jpg"
      else if EndsWithIgnoringCase(path, ".png") then ".png"
      else ".gif";
    assert |ext| == ImageExtLength(path).value;
    NoSlashInExt(path, ext);
  }

  /** A suffix matching a dotted extension starts with a dot and holds no `/`. */
  lemma NoSlashInExt(path: string, ext: string)
    requires EndsWithIgnoringCase(path, ext) && |ext| > 0 && ext[0] == '.'
    requires '/' !in ext
    ensures path[|path| - |ext|] == '.'
    ensures forall i :: |path| - |ext| <= i < |path| ==> path[i] != '/'
  {
    var suffix := path[|path| - |ext|..];
    assert LowerChar(suffix[0]) == '.';
    forall i | |path| - |ext| <= i < |path|
      ensures path[i] != '/'
    {
      assert LowerChar(suffix[i - (|path| - |ext|)]) == ext[i - (|path| - |ext|)];
    }
  }

  /** `-<size>.webp`. */
  function WebpSuffix(size: ImageSize): string {
    "-" + SizeName(size) + ".webp"
  }

  /** `path.replace(/\.(jpg|jpeg|png|gif)$/i, `-${size}.webp`)`. */
  function ReplaceImageExt(path: string, size: ImageSize): string {
    match ImageExtLength(path)
    case Some(n) => path[..|path| - n] + WebpSuffix(size)
    case None => path
  }

  /** Where the last path segment starts: just after the last `/`, or 0. */
  function LastSegmentStart(path: string): (k: nat)
    ensures k <= |path|
    ensures forall i :: k <= i < |path| ==> path[i] != '/'
    ensures k > 0 ==> path[k - 1] == '/'
  {
    if |path| == 0 then 0
    else if path[|path| - 1] == '/' then |path|
    else LastSegmentStart(path[..|path| - 1])
  }

  /** `path.replace(/([^/]+)$/, 'optimized/$1')`: the folder goes before a non-empty last segment. */
  function InsertOptimized(path: string): string {
    var k := LastSegmentStart(path);
    if k == |path| then path else path[..k] + OptimizedFolder + path[k..]
  }

  /** The optimised variant's path, unless the path is already inside an `optimized/` folder. */
  function OptimizedFullPath(path: string, size: ImageSize): string {
    var renamed := ReplaceImageExt(path, size);
    if Includes(renamed, OptimizedFolder) then renamed
    else ReplaceImageExt(InsertOptimized(path), size)
  }

  /** An image extension becomes `-<size>.webp`; anything else is left alone. */
  lemma ReplaceImageExtShape(path: string, size: ImageSize)
    ensures ImageExtLength(path).None? ==> ReplaceImageExt(path, size) == path
    ensures ImageExtLength(path).Some? ==>
      && StartsWith(ReplaceImageExt(path, size), path[..|path| - ImageExtLength(path).value])
      && EndsWith(ReplaceImageExt(path, size), WebpSuffix(size))
  {
    if ImageExtLength(path).Some? {
      ConcatEnds(path[..|path| - ImageExtLength(path).value], WebpSuffix(size));
    }
  }

  /** The rewrite is done once: its result has no image extension left. */
  lemma ReplaceImageExtOnce(path: string, size: ImageSize)
    ensures ImageExtLength(ReplaceImageExt(path, size)).None?
  {
    var r := ReplaceImageExt(path, size);
    if ImageExtLength(path).Some? {
      ReplaceImageExtShape(path, size);
      var tail := WebpSuffix(size);
      assert r[|r| - |tail|..] == tail;
      assert r[|r| - 5..] == ".webp" by {
        assert tail[|tail| - 5..] == ".webp";
      }
      assert r[|r| - 4] == 'w' && r[|r| - 3] == 'e';
      assert LowerChar(r[|r| - 4]) == 'w' && LowerChar(r[|r| - 3]) == 'e';
      assert !EndsWithIgnoringCase(r, ".jpeg") by { assert Lower(r[|r| - 5..])[1] == 'w'; }
      assert !EndsWithIgnoringCase(r, ".jpg") by { assert Lower(r[|r| - 4..])[0] == 'w'; }
      assert !EndsWithIgnoringCase(r, ".png") by { assert Lower(r[|r| - 4..])[0] == 'w'; }
      assert !EndsWithIgnoringCase(r, ".gif") by { assert Lower(r[|r| - 4..])[0] == 'w'; }
    }
  }

  /** A path whose last segment is not empty always ends up inside an `optimized/` folder. */
  lemma OptimizedPathHasFolder(path: string, size: ImageSize)
    requires |path| > 0 && path[|path| - 1] != '/'
    ensures Contains(OptimizedFullPath(path, size), OptimizedFolder)
  {
    var renamed := ReplaceImageExt(path, size);
    IncludesIsContains(renamed, OptimizedFolder);
    if !Includes(renamed, OptimizedFolder) {
      var k := LastSegmentStart(path);
      var inserted := path[..k] + OptimizedFolder + path[k..];
      assert InsertOptimized(path) == inserted;
      assert inserted[k..k + |OptimizedFolder|] == OptimizedFolder;
      FolderSurvivesRename(inserted, k, size);
      ContainsWitness(OptimizedFullPath(path, size), OptimizedFolder, k);
    }
  }

  /** Renaming the extension keeps an `optimized/` folder that comes before the last segment. */
  lemma FolderSurvivesRename(s: string, k: nat, size: ImageSize)
    requires OccursAt(s, OptimizedFolder, k)
    ensures OccursAt(ReplaceImageExt(s, size), OptimizedFolder, k)
  {
    var n := ImageExtLength(s);
    if n.Some? {
      // The extension holds no `/`, so it starts after the folder's.
      ImageExtShape(s);
      assert s[k + 9] == '/' by { assert s[k..k + |OptimizedFolder|][9] == '/'; }
      var m := |s| - n.value;
      ReplaceImageExtShape(s, size);
      OccursInPrefix(s, ReplaceImageExt(s, size), OptimizedFolder, k, m);
    }
  }

  /** An occurrence that ends within the first `m` characters survives any change after them. */
  lemma OccursInPrefix(s: string, t: string, sub: string, k: nat, m: nat)
    requires OccursAt(s, sub, k) && k + |sub| <= m <= |s| && StartsWith(t, s[..m])
    ensures OccursAt(t, sub, k)
  {
    assert t[..m] == s[..m];
    forall i | 0 <= i < |sub|
      ensures t[k..k + |sub|][i] == sub[i]
    {
      assert t[k + i] == t[..m][k + i] == s[..m][k + i] == s[k + i];
      assert s[k..k + |sub|][i] == s[k + i];
    }
    assert t[k..k + |sub|] == sub;
  }

  /** The optimised variant was asked for and signed. */
  predicate OptimizedServed(size: ImageSize, optimizedUrl: Option<string>) {
    size != Original && optimizedUrl.Some? && optimizedUrl.value != ""
  }

  /**
   * The signing requests one load makes: the optimised variant first unless
   * the original size is wanted, then the original unless the variant was
   * signed.
   */
  function LoadRequests(bucket: string, path: string, size: ImageSize, optimizedUrl: Option<string>): (r: seq<SignRequest>)
    ensures 1 <= |r| <= 2
    ensures size == Original ==> r == [SignRequest(bucket, path, SignedUrlSeconds)]
    ensures size != Original ==>
      r[0] == SignRequest(bucket, OptimizedFullPath(path, size), SignedUrlSeconds) && (OptimizedServed(size, optimizedUrl) <==> |r| == 1)
    ensures !OptimizedServed(size, optimizedUrl) ==> r[|r| - 1] == SignRequest(bucket, path, SignedUrlSeconds)
  {
    var optimized := SignRequest(bucket, OptimizedFullPath(path, size), SignedUrlSeconds);
    var plain := SignRequest(bucket, path, SignedUrlSeconds);
    if size == Original then [plain]
    else if OptimizedServed(size, optimizedUrl) then [optimized]
    else [optimized, plain]
  }

  /** The message kept for a thrown value: an `Error`'s own message, otherwise a fixed text. */
  function FailureMessage(thrown: Thrown): string {
    if thrown.ErrorInstance? then thrown.message else FailedMessage
  }

  /** The hook's state. */
  class SignedUrlHook {
    var url: Option<string>
    var isLoading: bool
    var error: Option<string>
    var isFallback: bool
    var requests: seq<SignRequest>

    constructor ()
      ensures url.None? && isLoading && error.None? && !isFallback && requests == []
    {
      url := None;
      isLoading := true;
      error := None;
      isFallback := false;
      requests := [];
    }

    /**
     * The effect: disabled or without a path it only stops loading. For a
     * size other than `original` the optimised variant is asked for first
     * and, when it is signed, shown as no fallback. Otherwise the original
     * is asked for: a thrown error is kept (its own message when it is an
     * `Error`), loading stops and the state reads as a fallback; a signed
     * original is shown, as a fallback exactly when a variant was wanted;
     * an empty answer leaves loading on. Every URL is signed for an hour.
     */
    method Load(bucket: string, path: string, size: ImageSize, enabled: bool,
                optimizedUrl: Option<string>, original: Result<string, Thrown>)
      modifies this
      ensures !enabled || path == "" ==>
        !isLoading && url == old(url) && error == old(error) && isFallback == old(isFallback)
        && requests == old(requests)
      ensures enabled && path != "" ==> requests == old(requests) + LoadRequests(bucket, path, size, optimizedUrl)
      ensures enabled && path != "" && OptimizedServed(size, optimizedUrl) ==>
        url == optimizedUrl && !isFallback && !isLoading && error.None?
      ensures enabled && path != "" && !OptimizedServed(size, optimizedUrl) && original.Err? ==>
        error == Some(FailureMessage(original.error)) && !isLoading && isFallback && url == old(url)
      ensures enabled && path != "" && !OptimizedServed(size, optimizedUrl) && original.Ok? && original.value != "" ==>
        url == Some(original.value) && isFallback == (size != Original) && !isLoading && error.None?
      ensures enabled && path != "" && !OptimizedServed(size, optimizedUrl) && original == Ok("") ==>
        isLoading && url == old(url) && isFallback == old(isFallback) && error.None?
    {
      if !enabled || path == "" {
        isLoading := false;
        return;
      }
      isLoading := true;
      error := None;
      requests := requests + LoadRequests(bucket, path, size, optimizedUrl);
      if OptimizedServed(size, optimizedUrl) {
        url := optimizedUrl;
        isFallback := false;
        isLoading := false;
        return;
      }
      match original {
        case Err(thrown) =>
          error := Some(FailureMessage(thrown));
          isLoading := false;
          isFallback := true;
        case Ok(signed) =>
          if signed != "" {
            url := Some(signed);
            isFallback := size != Original;
            isLoading := false;
          }
      }
    }
  }

  /** Asking for the original size signs the stored path alone, and what it shows is never a fallback. */
  method OriginalSignsOnlyThePath(bucket: string, path: string, signed: string) returns (hook: SignedUrlHook)
    requires path != "" && signed != ""
    ensures hook.requests == [SignRequest(bucket, path, SignedUrlSeconds)]
    ensures hook.url == Some(signed) && !hook.isFallback && !hook.isLoading
  {
    hook := new SignedUrlHook();
    hook.Load(bucket, path, Original, true, Some("ignored"), Ok(signed));
  }
}
