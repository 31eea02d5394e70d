// The HTML sanitiser of the SafeHtml component
// (modules/ui/components/SafeHtml.tsx): five global, case-insensitive
// regular-expression replacements by the empty string, applied one after the
// other — closed script blocks, quoted `on…=` handler attributes, and the
// `javascript:`, `vbscript:` and `data:` schemes.
//
// A global replacement scans left to right: where the pattern matches, the
// match is dropped and the scan resumes after it; elsewhere one character is
// kept. `DeleteAll` is that scan, given the length of the match (if any) that
// the pattern makes at the front of a text. Each pattern is stated as such a
// front matcher. Case is compared through ASCII lowering, which is what the
// `i` flag does for these ASCII patterns.

module SafeHtml {
  import opened Common

  // ---------------------------------------------------------------------
  // Global deletion

  /** The pattern matches at no position of `s`. */
  predicate NoMatch(s: string, p: Pattern)
    decreases |s|
  {
    |s| == 0 || (MatchLength(p, s).None? && NoMatch(s[1..], p))
  }

  /**
   * `s.replace(/…/g, '')`: drops every match of a left-to-right scan. Only
   * deletes, and changes the text exactly when the pattern matches somewhere,
   * in which case the text gets strictly shorter.
   */
  function DeleteAll(s: string, p: Pattern): (r: string)
    ensures |r| <= |s|
    ensures r == s <==> NoMatch(s, p)
    ensures !NoMatch(s, p) ==> |r| < |s|
    decreases |s|
  {
    if |s| == 0 then ""
    else match MatchLength(p, s)
      case Some(n) => DeleteAll(s[n..], p)
      case None =>
        var rest := DeleteAll(s[1..], p);
        assert [s[0]] + rest == s <==> rest == s[1..] by {
          if [s[0]] + rest == s {
            assert rest == ([s[0]] + rest)[1..];
          }
        }
        [s[0]] + rest
  }

  // ---------------------------------------------------------------------
  // Character classes and runs

  /** `\w`: ASCII letters, digits and `_`. */
  predicate IsWordChar(c: char) {
    'a' <= c <= 'z' || 'A' <= c <= 'Z' || '0' <= c <= '9' || c == '_'
  }

  /** `\s`: the white-space and line-terminator characters of JavaScript. */
  predicate IsSpace(c: char) {
    IsBlank(c)
  }

  predicate IsQuote(c: char) {
    c == '"' || c == '\''
  }

  predicate NotQuote(c: char) {
    !IsQuote(c)
  }

  /** Where the longest run of `p`-characters starting at `i` ends. */
  function RunEnd(s: string, i: nat, p: char -> bool): (j: nat)
    requires i <= |s|
    ensures i <= j <= |s|
    ensures forall k :: i <= k < j ==> p(s[k])
    ensures j < |s| ==> !p(s[j])
    decreases |s| - i
  {
    if i < |s| && p(s[i]) then RunEnd(s, i + 1, p) else i
  }

  /** `s` starts with the lower-case `p`, ignoring ASCII case. */
  predicate StartsCI(s: string, p: string) {
    |p| <= |s| && forall i :: 0 <= i < |p| ==> LowerChar(s[i]) == p[i]
  }

  /** The first position at or after `from` where `p` starts, ignoring case. */
  function FindCI(s: string, from: nat, p: string): (j: Option<nat>)
    requires from <= |s|
    ensures j.Some? ==> from <= j.value && j.value + |p| <= |s| && StartsCI(s[j.value..], p)
    ensures j.Some? ==> forall k :: from <= k < j.value ==> !StartsCI(s[k..], p)
    ensures j.None? ==> forall k :: from <= k <= |s| ==> !StartsCI(s[k..], p)
    decreases |s| - from
  {
    if StartsCI(s[from..], p) then Some(from)
    else if from == |s| then None
    else FindCI(s, from + 1, p)
  }

  // ---------------------------------------------------------------------
  // The five patterns, as front matchers

  const ScriptOpen := "<script"
  const ScriptClose := "</script>"

  /**
   * `/<script\b[^<]*(?:(?!<\/script>)<[^<]*)*<\/script>/i` at the front:
   * `<script` not followed by a word character, then everything up to and
   * including the first `</script>` after it. The body may hold any text in
   * which no `</script>` starts, so the match ends at that first one.
   */
  function ScriptLength(s: string): (n: Option<nat>)
    ensures n.Some? ==> StartsCI(s, ScriptOpen) && |ScriptOpen| + |ScriptClose| <= n.value <= |s|
    ensures n.Some? ==> StartsCI(s[n.value - |ScriptClose|..], ScriptClose)
    ensures n.Some? ==> forall k :: |ScriptOpen| <= k < n.value - |ScriptClose| ==> !StartsCI(s[k..], ScriptClose)
  {
    if !StartsCI(s, ScriptOpen) || |s| == |ScriptOpen| || IsWordChar(s[|ScriptOpen|]) then None
    else match FindCI(s, |ScriptOpen|, ScriptClose)
      case Some(j) => Some(j + |ScriptClose|)
      case None => None
  }

  /**
   * `/on\w+\s*=\s*["'][^"']*["']/i` at the front: `on`, a run of word
   * characters, `=` with optional white space around it, and a quoted value
   * (either quote may close it). Each run is taken whole: giving back a
   * character never lets the next part match.
   */
  function HandlerLength(s: string): (n: Option<nat>)
    ensures n.Some? ==> StartsCI(s, "on") && 6 <= n.value <= |s| && IsQuote(s[n.value - 1])
  {
    if !StartsCI(s, "on") then None
    else
      var w := RunEnd(s, 2, IsWordChar);
      var e := RunEnd(s, w, IsSpace);
      if w == 2 || e == |s| || s[e] != '=' then None
      else
        var q := RunEnd(s, e + 1, IsSpace);
        if q == |s| || !IsQuote(s[q]) then None
        else
          var c := RunEnd(s, q + 1, NotQuote);
          if c == |s| then None
          else
            assert !NotQuote(s[c]);
            Some(c + 1)
  }

  /**
   * The pieces of a handler match ending at `n`: `on` (checked apart), the
   * word characters up to `w`, white space up to the `=` at `e`, white space
   * up to the opening quote at `q`, characters other than quotes, and the
   * closing quote at `n - 1`.
   */
  predicate HandlerSplit(s: string, n: nat, w: nat, e: nat, q: nat) {
    && 2 < w <= e < q < n - 1 && n <= |s|
    && (forall k :: 2 <= k < w ==> IsWordChar(s[k]))
    && (forall k :: w <= k < e ==> IsSpace(s[k]))
    && s[e] == '='
    && (forall k :: e < k < q ==> IsSpace(s[k]))
    && IsQuote(s[q])
    && (forall k :: q < k < n - 1 ==> NotQuote(s[k]))
    && IsQuote(s[n - 1])
  }

  /**
   * `HandlerLength` finds the match of `on\w+\s*=\s*["'][^"']*["']` at the
   * front exactly: what it returns splits into the pattern's pieces, and any
   * split of any prefix into those pieces is the one it returns, so no
   * other length matches and `None` means no prefix matches.
   */
  lemma HandlerLengthIsMatch(s: string)
    ensures HandlerLength(s).Some? ==> exists w: nat, e: nat, q: nat :: HandlerSplit(s, HandlerLength(s).value, w, e, q)
    ensures forall n: nat, w: nat, e: nat, q: nat :: StartsCI(s, "on") && HandlerSplit(s, n, w, e, q) ==> HandlerLength(s) == Some(n)
  {
    if HandlerLength(s).Some? {
      var w := RunEnd(s, 2, IsWordChar);
      var e := RunEnd(s, w, IsSpace);
      var q := RunEnd(s, e + 1, IsSpace);
      var c := RunEnd(s, q + 1, NotQuote);
      assert HandlerSplit(s, c + 1, w, e, q);
    }
    forall n: nat, w: nat, e: nat, q: nat | StartsCI(s, "on") && HandlerSplit(s, n, w, e, q)
      ensures HandlerLength(s) == Some(n)
    {
      HandlerSplitFound(s, n, w, e, q);
    }
  }

  /** Each piece of a split is a whole run, so the split is the one `HandlerLength` walks. */
  lemma HandlerSplitFound(s: string, n: nat, w: nat, e: nat, q: nat)
    requires StartsCI(s, "on") && HandlerSplit(s, n, w, e, q)
    ensures HandlerLength(s) == Some(n)
  {
    var w' := RunEnd(s, 2, IsWordChar);
    assert !IsWordChar(s[w]) by {
      if w < e {
        assert IsSpace(s[w]);
      }
    }
    var e' := RunEnd(s, w, IsSpace);
    assert e' == e;
    var q' := RunEnd(s, e + 1, IsSpace);
    assert q' == q;
  }

  /** A literal scheme such as `javascript:` at the front, ignoring case. */
  function SchemeLength(scheme: string, s: string): (n: Option<nat>)
    ensures n.Some? <==> |scheme| > 0 && StartsCI(s, scheme)
    ensures n.Some? ==> n.value == |scheme|
  {
    if |scheme| > 0 && StartsCI(s, scheme) then Some(|scheme|) else None
  }

  const Javascript := "javascript:"
  const Vbscript := "vbscript:"
  const DataScheme := "data:"

  /** The five patterns of `sanitizeHtml`. */
  datatype Pattern = ScriptBlock | Handler | Scheme(name: string)

  /** The length of the match the pattern makes at the front of `s`, if any; never empty. */
  function MatchLength(p: Pattern, s: string): (n: Option<nat>)
    ensures n.Some? ==> 0 < n.value <= |s|
  {
    match p
    case ScriptBlock => ScriptLength(s)
    case Handler => HandlerLength(s)
    case Scheme(name) => SchemeLength(name, s)
  }

  // ---------------------------------------------------------------------
  // sanitizeHtml

  function StripScripts(html: string): string {
    DeleteAll(html, ScriptBlock)
  }

  function StripHandlers(html: string): string {
    DeleteAll(html, Handler)
  }

  /** `.replace(/<scheme>/gi, '')`. */
  function StripScheme(html: string, scheme: string): string {
    DeleteAll(html, Scheme(scheme))
  }

  /** The three scheme deletions, in source order. */
  function StripSchemes(html: string): string {
    StripScheme(StripScheme(StripScheme(html, Javascript), Vbscript), DataScheme)
  }

  /** `sanitizeHtml`. */
  function Sanitize(html: string): (r: string)
    ensures |r| <= |html|
  {
    StripSchemes(StripHandlers(StripScripts(html)))
  }

  /** None of the five patterns matches anywhere in `html`. */
  predicate Clean(html: string) {
    && NoMatch(html, ScriptBlock)
    && NoMatch(html, Handler)
    && NoMatch(html, Scheme(Javascript))
    && NoMatch(html, Scheme(Vbscript))
    && NoMatch(html, Scheme(DataScheme))
  }

  /** The text is returned unchanged exactly when none of the patterns occurs in it. */
  lemma SanitizeUnchangedIffClean(html: string)
    ensures Sanitize(html) == html <==> Clean(html)
  {
    var a := StripScripts(html);
    var b := StripHandlers(a);
    var c := StripScheme(b, Javascript);
    var d := StripScheme(c, Vbscript);
    if Sanitize(html) == html {
      assert |a| == |html| && |b| == |a| && |c| == |b| && |d| == |c|;
    }
  }

  /** A text that is not clean loses at least one character. */
  lemma SanitizeShortensUnlessClean(html: string)
    ensures Sanitize(html) != html ==> |Sanitize(html)| < |html|
  {
    var a := StripScripts(html);
    var b := StripHandlers(a);
    var c := StripScheme(b, Javascript);
    var d := StripScheme(c, Vbscript);
    if |Sanitize(html)| == |html| {
      assert |a| == |html| && |b| == |a| && |c| == |b| && |d| == |c|;
    }
  }

  // ---------------------------------------------------------------------
  // One pass is not enough

  /** Without an `o` in any case, no handler attribute can start anywhere. */
  lemma {:induction false} NoHandlerWithoutO(s: string)
    requires forall i :: 0 <= i < |s| ==> LowerChar(s[i]) != 'o'
    ensures NoMatch(s, Handler)
    decreases |s|
  {
    if |s| > 0 {
      assert LowerChar(s[0]) != 'o';
      assert Lower(s[..1])[0] == LowerChar(s[0]);
      NoHandlerWithoutO(s[1..]);
    }
  }

  /** Without a `<`, no script block can start anywhere. */
  lemma {:induction false} NoScriptWithoutAngle(s: string)
    requires '<' !in s
    ensures NoMatch(s, ScriptBlock)
    decreases |s|
  {
    if |s| > 0 {
      assert Lower(s[..1])[0] == LowerChar(s[0]);
      NoScriptWithoutAngle(s[1..]);
    }
  }

  /** A scheme with a letter that no character of the text lowers to occurs nowhere in it. */
  lemma {:induction false} NoSchemeWithoutLetter(s: string, scheme: string, k: nat)
    requires k < |scheme| && forall i :: 0 <= i < |s| ==> LowerChar(s[i]) != scheme[k]
    ensures NoMatch(s, Scheme(scheme))
    decreases |s|
  {
    if |s| > 0 {
      if k < |s| {
        assert LowerChar(s[k]) != scheme[k];
      }
      NoSchemeWithoutLetter(s[1..], scheme, k);
    }
  }

  /**
   * `javajavascript:script:` survives sanitising as `javascript:`: deleting
   * the inner scheme joins the text around it into a new one, and the single
   * pass does not look again.
   */
  lemma SchemeSurvivesOnePass(html: string)
    requires html == "java" + Javascript + "script:"
    ensures Sanitize(html) == Javascript
    ensures !Clean(Sanitize(html))
  {
    NoScriptOrHandlerHere(html);
    InnerSchemeDeleted(html);
    JavascriptHoldsNoOtherScheme();
    SchemeIsNotClean();
  }

  lemma SchemeIsNotClean()
    ensures !Clean(Javascript)
  {
    assert StartsCI(Javascript, Javascript);
  }

  lemma NoScriptOrHandlerHere(html: string)
    requires html == "java" + Javascript + "script:"
    ensures StripHandlers(StripScripts(html)) == html
  {
    NoScriptWithoutAngle(html);
    NoHandlerWithoutO(html);
  }

  lemma InnerSchemeDeleted(html: string)
    requires html == "java" + Javascript + "script:"
    ensures StripScheme(html, Javascript) == Javascript
  {
    var m := Scheme(Javascript);
    var r2 := [html[2]] + ([html[3]] + html[15..]);
    LastTwoKept(html);
    var r1 := [html[1]] + r2;
    assert LowerChar(html[1]) != Javascript[0];
    KeepStep(html[1..], m, r2);
    assert LowerChar(html[4]) != Javascript[4];
    KeepStep(html, m, r1);
    Rejoined(html);
  }

  lemma LastTwoKept(html: string)
    requires html == "java" + Javascript + "script:"
    ensures DeleteAll(html[2..], Scheme(Javascript)) == [html[2]] + ([html[3]] + html[15..])
  {
    var m := Scheme(Javascript);
    var tail := html[15..];
    InnerMatchDropped(html);
    assert LowerChar(html[3]) != Javascript[0];
    KeepStep(html[3..], m, tail);
    assert LowerChar(html[2]) != Javascript[0];
    KeepStep(html[2..], m, [html[3]] + tail);
  }

  lemma InnerMatchDropped(html: string)
    requires html == "java" + Javascript + "script:"
    ensures DeleteAll(html[4..], Scheme(Javascript)) == html[15..]
  {
    TailKept(html);
    assert StartsCI(html[4..], Javascript);
    DropStep(html[4..], Scheme(Javascript), 11, html[15..]);
  }

  lemma TailKept(html: string)
    requires html == "java" + Javascript + "script:"
    ensures DeleteAll(html[15..], Scheme(Javascript)) == html[15..]
  {
    var tail := html[15..];
    assert forall i :: 0 <= i < |tail| ==> LowerChar(tail[i]) != 'j';
    NoSchemeWithoutLetter(tail, Javascript, 0);
  }

  /** The four characters kept in front and the tail spell the scheme again. */
  lemma Rejoined(html: string)
    requires html == "java" + Javascript + "script:"
    ensures [html[0]] + ([html[1]] + ([html[2]] + ([html[3]] + html[15..]))) == Javascript
  {
    var r := [html[0]] + ([html[1]] + ([html[2]] + ([html[3]] + html[15..])));
    assert forall i :: 0 <= i < 11 ==> r[i] == Javascript[i];
  }

  /** Where the pattern does not match, the scan keeps the first character. */
  lemma KeepStep(s: string, p: Pattern, rest: string)
    requires |s| > 0 && MatchLength(p, s).None? && DeleteAll(s[1..], p) == rest
    ensures DeleteAll(s, p) == [s[0]] + rest
  {
  }

  /** Where it matches, the scan drops the match. */
  lemma DropStep(s: string, p: Pattern, n: nat, rest: string)
    requires MatchLength(p, s) == Some(n) && DeleteAll(s[n..], p) == rest
    ensures DeleteAll(s, p) == rest
  {
  }

  lemma JavascriptHoldsNoOtherScheme()
    ensures NoMatch(Javascript, Scheme(Vbscript)) && NoMatch(Javascript, Scheme(DataScheme))
  {
    var j := Javascript;
    assert forall i :: 0 <= i < |j| ==> LowerChar(j[i]) != 'b' && LowerChar(j[i]) != 'd';
    NoSchemeWithoutLetter(j, Vbscript, 1);
    NoSchemeWithoutLetter(j, DataScheme, 0);
  }

  /**
   * Sanitising until nothing changes: the passes are repeated while they
   * still delete something, so no pattern is left in the result.
   */
  function SanitizeSettled(html: string): (r: string)
    ensures Clean(r)
    ensures |r| <= |html|
    ensures Clean(html) ==> r == html
    decreases |html|
  {
    var once := Sanitize(html);
    SanitizeUnchangedIffClean(html);
    if once == html then html
    else
      SanitizeShortensUnlessClean(html);
      SanitizeSettled(once)
  }
}
