// Shared vocabulary for the AdTopia model: optional values and results,
// the string operations JavaScript code relies on (prefix tests, splitting,
// trimming, ASCII case mapping, literal replace-all) and slicing of a list
// into consecutive chunks.

module Common {

  datatype Option<T> = None | Some(value: T) {
    /** The value, or `d` when there is none (`x ?? d` for an absent option). */
    function GetOr(d: T): T {
      if Some? then value else d
    }
  }

  datatype Result<T, E> = Ok(value: T) | Err(error: E)

  /**
   * What `localStorage.getItem(key)` followed by `JSON.parse` yields: nothing
   * stored, text that does not parse as the expected value, or the value.
   */
  datatype Slot<T> = Missing | Garbled | Holds(value: T)

  /**
   * A JavaScript value as the code inspects it: primitives, arrays, plain
   * objects and `Error` instances (with their message).
   */
  datatype JsValue =
    | Undefined
    | Null
    | Bool(b: bool)
    | Num(n: real)
    | NaN
    | Str(s: string)
    | Arr(elems: seq<JsValue>)
    | Obj(fields: map<string, JsValue>)
    | ErrorObject(message: string)

  /** JavaScript truthiness. */
  predicate Truthy(v: JsValue) {
    match v
    case Undefined => false
    case Null => false
    case Bool(b) => b
    case Num(n) => n != 0.0
    case NaN => false
    case Str(s) => s != ""
    case _ => true
  }

  /** `typeof v === 'object'`. */
  predicate IsObjectType(v: JsValue) {
    v.Null? || v.Arr? || v.Obj? || v.ErrorObject?
  }

  /** `v[key]` on a value whose property access does not throw (anything but null and undefined). */
  function Get(v: JsValue, key: string): JsValue {
    if v.Obj? && key in v.fields then v.fields[key]
    else if v.ErrorObject? && key == "message" then Str(v.message)
    else Undefined
  }

  /**
   * The names every plain object inherits from `Object.prototype`. Indexing
   * an object by one of them that it does not own gives that member (a
   * function, or the prototype itself for `__proto__`): truthy, and with
   * `undefined` for any property a table entry would have.
   */
  const PrototypeNames: set<string> := {
    "constructor", "hasOwnProperty", "isPrototypeOf", "propertyIsEnumerable", "toString",
    "toLocaleString", "valueOf", "__proto__", "__defineGetter__", "__defineSetter__",
    "__lookupGetter__", "__lookupSetter__"
  }

  /** What `table[key]` gives on a plain object whose own entries are `table`. */
  datatype Member<T> = Own(value: T) | Inherited | NoMember

  function IndexObject<T>(table: map<string, T>, key: string): (r: Member<T>)
    ensures r.Own? <==> key in table
    ensures r.Own? ==> r.value == table[key]
    ensures r.Inherited? <==> key !in table && key in PrototypeNames
  {
    if key in table then Own(table[key])
    else if key in PrototypeNames then Inherited
    else NoMember
  }

  /** A thrown JavaScript value: an `Error` instance, or anything else (shown by `String(e)`). */
  datatype Thrown = ErrorInstance(message: string) | OtherValue(text: string)

  // ---------------------------------------------------------------------
  // Substrings

  predicate StartsWith(s: string, p: string) {
    |p| <= |s| && s[..|p|] == p
  }

  predicate EndsWith(s: string, p: string) {
    |p| <= |s| && s[|s| - |p|..] == p
  }

  /** `sub` occurs in `s` starting at index `i`. */
  predicate OccursAt(s: string, sub: string, i: int) {
    0 <= i && i + |sub| <= |s| && s[i..i + |sub|] == sub
  }

  /** JavaScript `s.includes(sub)`. */
  predicate Contains(s: string, sub: string) {
    exists i :: 0 <= i <= |s| - |sub| && OccursAt(s, sub, i)
  }

  lemma ContainsWitness(s: string, sub: string, i: int)
    requires OccursAt(s, sub, i)
    ensures Contains(s, sub)
  {
  }
  /** `s.includes(sub)`, tried position by position. */
  predicate Includes(s: string, sub: string)
    decreases |s|
  {
    if |s| < |sub| then false else s[..|sub|] == sub || Includes(s[1..], sub)
  }

  /** The positional search agrees with `Contains`. */
  lemma {:induction false} IncludesIsContains(s: string, sub: string)
    ensures Includes(s, sub) <==> Contains(s, sub)
    decreases |s|
  {
    if |s| >= |sub| && s[..|sub|] == sub {
      ContainsWitness(s, sub, 0);
    } else if |s| >= |sub| {
      IncludesIsContains(s[1..], sub);
      if Includes(s[1..], sub) {
        var i :| 0 <= i <= |s[1..]| - |sub| && OccursAt(s[1..], sub, i);
        assert s[i + 1..i + 1 + |sub|] == s[1..][i..i + |sub|];
        ContainsWitness(s, sub, i + 1);
      } else if Contains(s, sub) {
        var i :| 0 <= i <= |s| - |sub| && OccursAt(s, sub, i);
        assert i != 0;
        assert s[1..][i - 1..i - 1 + |sub|] == s[i..i + |sub|];
        ContainsWitness(s[1..], sub, i - 1);
        assert false;
      }
    }
  }


  /** Index of the first occurrence of character `c`, if any. */
  function IndexOfChar(s: string, c: char): (r: Option<nat>)
    ensures r.Some? ==> r.value < |s| && s[r.value] == c && c !in s[..r.value]
    ensures r.None? ==> c !in s
  {
    if |s| == 0 then None
    else if s[0] == c then Some(0)
    else match IndexOfChar(s[1..], c)
      case None => None
      case Some(k) => Some(k + 1)
  }

  /** The decimal text of a natural number, as template literals print it. */
  function DecimalString(n: nat): (r: string)
    ensures |r| > 0 && forall i :: 0 <= i < |r| ==> '0' <= r[i] <= '9'
  {
    if n < 10 then [('0' as int + n) as char] else DecimalString(n / 10) + [('0' as int + n % 10) as char]
  }

  /** A decimal digit. */
  predicate IsDigit(c: char) { '0' <= c <= '9' }

  /** The longest prefix of decimal digits. */
  function DigitPrefix(s: string): (r: string)
    ensures r <= s
    ensures forall k :: 0 <= k < |r| ==> IsDigit(r[k])
    ensures |r| < |s| ==> !IsDigit(s[|r|])
  {
    if |s| == 0 || !IsDigit(s[0]) then "" else [s[0]] + DigitPrefix(s[1..])
  }

  /** The value of a string of decimal digits, most significant first. */
  function DigitsValue(d: string): (n: nat)
    requires forall k :: 0 <= k < |d| ==> IsDigit(d[k])
  {
    if |d| == 0 then 0
    else
      assert IsDigit(d[|d| - 1]);
      DigitsValue(d[..|d| - 1]) * 10 + (d[|d| - 1] as int - '0' as int)
  }

  /** Reading back the decimal text of a number gives the number. */
  lemma {:induction false} DigitsOfDecimal(n: nat)
    ensures DigitsValue(DecimalString(n)) == n
  {
    var d := DecimalString(n);
    if n >= 10 {
      DigitsOfDecimal(n / 10);
      assert d[..|d| - 1] == DecimalString(n / 10);
    }
  }

  lemma {:induction false} DigitPrefixOfDigits(s: string)
    requires forall k :: 0 <= k < |s| ==> IsDigit(s[k])
    ensures DigitPrefix(s) == s
  {
    if |s| > 0 {
      DigitPrefixOfDigits(s[1..]);
    }
  }

  // ---------------------------------------------------------------------
  // ASCII case mapping (String.prototype.toLowerCase / toUpperCase)

  function LowerChar(c: char): char {
    if 'A' <= c <= 'Z' then (c as int + 32) as char else c
  }

  function UpperChar(c: char): char {
    if 'a' <= c <= 'z' then (c as int - 32) as char else c
  }

  function Lower(s: string): (r: string)
    ensures |r| == |s|
    ensures forall i :: 0 <= i < |s| ==> r[i] == LowerChar(s[i])
  {
    if |s| == 0 then "" else [LowerChar(s[0])] + Lower(s[1..])
  }

  function Upper(s: string): (r: string)
    ensures |r| == |s|
    ensures forall i :: 0 <= i < |s| ==> r[i] == UpperChar(s[i])
  {
    if |s| == 0 then "" else [UpperChar(s[0])] + Upper(s[1..])
  }

  // ---------------------------------------------------------------------
  // Whitespace trimming (String.prototype.trim)

  /** JavaScript's white space and line terminators: what `trim` strips and `\s` matches. */
  predicate IsBlank(c: char) {
    || c == '\t' || c == '\n' || c == '\U{B}' || c == '\U{C}' || c == '\r' || c == ' '
    || c == '\U{A0}' || c == '\U{1680}' || '\U{2000}' <= c <= '\U{200A}'
    || c == '\U{2028}' || c == '\U{2029}' || c == '\U{202F}' || c == '\U{205F}'
    || c == '\U{3000}' || c == '\U{FEFF}'
  }

  function TrimStart(s: string): (r: string)
    ensures |r| <= |s| && r == s[|s| - |r|..]
    ensures |r| > 0 ==> !IsBlank(r[0])
    ensures forall i :: 0 <= i < |s| - |r| ==> IsBlank(s[i])
  {
    if |s| > 0 && IsBlank(s[0]) then TrimStart(s[1..]) else s
  }

  function TrimEnd(s: string): (r: string)
    ensures |r| <= |s| && r == s[..|r|]
    ensures |r| > 0 ==> !IsBlank(r[|r| - 1])
    ensures forall i :: |r| <= i < |s| ==> IsBlank(s[i])
  {
    if |s| > 0 && IsBlank(s[|s| - 1]) then TrimEnd(s[..|s| - 1]) else s
  }

  function Trim(s: string): (r: string)
    ensures |r| <= |s|
    ensures |r| > 0 ==> !IsBlank(r[0]) && !IsBlank(r[|r| - 1])
  {
    TrimEnd(TrimStart(s))
  }

  /** `s.trim()` is empty exactly when every character of `s` is blank. */
  lemma TrimEmptyIffBlank(s: string)
    ensures Trim(s) == "" <==> forall i :: 0 <= i < |s| ==> IsBlank(s[i])
  {
    var a := TrimStart(s);
    if Trim(s) == "" {
      assert |a| == 0;
    } else {
      var r := Trim(s);
      assert r[0] == a[0];
      assert !IsBlank(s[|s| - |a|]);
    }
  }

  /** Trimming twice trims nothing more. */
  lemma TrimIdempotent(s: string)
    ensures Trim(Trim(s)) == Trim(s)
  {
    var r := Trim(s);
    if |r| > 0 {
      assert TrimStart(r) == r;
      assert TrimEnd(r) == r;
    }
  }

  // ---------------------------------------------------------------------
  // Splitting on one separator character (String.prototype.split(c))

  function Split(s: string, sep: char): (r: seq<string>)
    ensures |r| >= 1
    ensures forall k :: 0 <= k < |r| ==> sep !in r[k]
  {
    if |s| == 0 then [""]
    else if s[0] == sep then [""] + Split(s[1..], sep)
    else
      var t := Split(s[1..], sep);
      [[s[0]] + t[0]] + t[1..]
  }

  /** Array.prototype.join(c). */
  function Join(parts: seq<string>, sep: char): string
    requires |parts| >= 1
  {
    if |parts| == 1 then parts[0] else parts[0] + [sep] + Join(parts[1..], sep)
  }

  /** Joining a first piece before others puts the separator between them. */
  lemma JoinCons(head: string, parts: seq<string>, sep: char)
    requires |parts| >= 1
    ensures Join([head] + parts, sep) == head + [sep] + Join(parts, sep)
  {
    assert ([head] + parts)[1..] == parts;
  }

  /** Prepending a character to the first piece prepends it to the joined text. */
  lemma JoinConsFirst(c: char, parts: seq<string>, sep: char)
    requires |parts| >= 1
    ensures Join([[c] + parts[0]] + parts[1..], sep) == [c] + Join(parts, sep)
  {
    var r := [[c] + parts[0]] + parts[1..];
    assert r[1..] == parts[1..];
    if |parts| > 1 {
      AppendAssoc([c] + parts[0], [sep], Join(parts[1..], sep));
      AppendAssoc([c], parts[0], [sep] + Join(parts[1..], sep));
      AppendAssoc(parts[0], [sep], Join(parts[1..], sep));
    }
  }

  /** Joining the pieces of a split with the same separator gives back the text. */
  lemma {:induction false} JoinSplit(s: string, sep: char)
    ensures Join(Split(s, sep), sep) == s
  {
    if |s| > 0 {
      JoinSplit(s[1..], sep);
      assert s == [s[0]] + s[1..];
      if s[0] != sep {
        JoinConsFirst(s[0], Split(s[1..], sep), sep);
      }
    }
  }

  /** A character other than the separator is in a join exactly when it is in one of the pieces. */
  lemma {:induction false} CharInJoin(parts: seq<string>, sep: char, c: char)
    requires |parts| >= 1 && c != sep
    ensures c in Join(parts, sep) <==> exists k :: 0 <= k < |parts| && c in parts[k]
    decreases |parts|
  {
    if |parts| > 1 {
      CharInJoin(parts[1..], sep, c);
      assert forall k :: 1 <= k < |parts| ==> parts[1..][k - 1] == parts[k];
    }
  }

  /** Splitting a text without the separator gives that text alone. */
  lemma {:induction false} SplitWithoutSeparator(s: string, sep: char)
    requires sep !in s
    ensures Split(s, sep) == [s]
  {
    if |s| > 0 {
      assert sep !in s[1..] by {
        forall k | 0 <= k < |s| - 1 ensures s[1..][k] != sep { assert s[1..][k] == s[k + 1]; }
      }
      SplitWithoutSeparator(s[1..], sep);
      assert s == [s[0]] + s[1..];
    }
  }

  /** A piece without the separator, then the separator, splits off as the first piece. */
  lemma {:induction false} SplitCons(head: string, sep: char, rest: string)
    requires sep !in head
    ensures Split(head + [sep] + rest, sep) == [head] + Split(rest, sep)
    decreases |head|
  {
    var s := head + [sep] + rest;
    if |head| == 0 {
      assert s == [sep] + rest;
      assert s[1..] == rest;
    } else {
      assert s[1..] == head[1..] + [sep] + rest;
      assert sep !in head[1..] by {
        forall k | 0 <= k < |head| - 1 ensures head[1..][k] != sep { assert head[1..][k] == head[k + 1]; }
      }
      SplitCons(head[1..], sep, rest);
      assert [head[0]] + head[1..] == head;
    }
  }

  /** Splitting a join of pieces without the separator gives the pieces back. */
  lemma {:induction false} SplitJoin(parts: seq<string>, sep: char)
    requires |parts| >= 1
    requires forall k :: 0 <= k < |parts| ==> sep !in parts[k]
    ensures Split(Join(parts, sep), sep) == parts
  {
    if |parts| == 1 {
      SplitWithoutSeparator(parts[0], sep);
    } else {
      SplitJoin(parts[1..], sep);
      SplitCons(parts[0], sep, Join(parts[1..], sep));
      assert parts == [parts[0]] + parts[1..];
    }
  }

  // ---------------------------------------------------------------------
  // Literal replace-all (String.prototype.replaceAll with a string pattern,
  // or a global regular expression without metacharacters): scans left to
  // right, replaces non-overlapping occurrences and resumes after each one.

  function ReplaceAll(s: string, pat: string, rep: string): (r: string)
    requires |pat| > 0
    decreases |s|
  {
    if |s| < |pat| then s
    else if s[..|pat|] == pat then rep + ReplaceAll(s[|pat|..], pat, rep)
    else [s[0]] + ReplaceAll(s[1..], pat, rep)
  }

  /** A text without the pattern is left unchanged. */
  lemma {:induction false} ReplaceAllAbsent(s: string, pat: string, rep: string)
    requires |pat| > 0
    requires !Contains(s, pat)
    ensures ReplaceAll(s, pat, rep) == s
  {
    if |s| >= |pat| {
      assert !OccursAt(s, pat, 0);
      assert !Contains(s[1..], pat) by {
        if Contains(s[1..], pat) {
          var i :| 0 <= i <= |s[1..]| - |pat| && OccursAt(s[1..], pat, i);
          assert s[i + 1..i + 1 + |pat|] == s[1..][i..i + |pat|];
          assert OccursAt(s, pat, i + 1);
        }
      }
      ReplaceAllAbsent(s[1..], pat, rep);
      assert s == [s[0]] + s[1..];
    }
  }

  /** A replacement no longer than the pattern never lengthens the text. */
  lemma {:induction false} ReplaceAllShortens(s: string, pat: string, rep: string)
    requires 0 < |pat| && |rep| <= |pat|
    ensures |ReplaceAll(s, pat, rep)| <= |s|
  {
    if |s| >= |pat| {
      if s[..|pat|] == pat {
        ReplaceAllShortens(s[|pat|..], pat, rep);
      } else {
        ReplaceAllShortens(s[1..], pat, rep);
      }
    }
  }

  /** Replace-all passes over a leading part that lacks the pattern's first character. */
  lemma {:induction false} ReplaceAllSkips(a: string, b: string, pat: string, rep: string)
    requires |pat| > 0 && pat[0] !in a
    ensures ReplaceAll(a + b, pat, rep) == a + ReplaceAll(b, pat, rep)
    decreases |a|
  {
    if |a| == 0 {
      assert a + b == b;
    } else {
      var s := a + b;
      assert s[0] == a[0] && s[1..] == a[1..] + b;
      assert pat[0] !in a[1..] by {
        forall k | 0 <= k < |a| - 1 ensures a[1..][k] != pat[0] { assert a[1..][k] == a[k + 1]; }
      }
      ReplaceAllSkips(a[1..], b, pat, rep);
      assert a == [a[0]] + a[1..];
    }
  }

  /** A concatenation starts with its left part and ends with its right part. */
  lemma ConcatEnds(a: string, b: string)
    ensures StartsWith(a + b, a) && EndsWith(a + b, b)
  {
    assert (a + b)[..|a|] == a;
    assert (a + b)[|a + b| - |b|..] == b;
  }

  lemma AppendAssoc<X>(a: seq<X>, b: seq<X>, c: seq<X>)
    ensures (a + b) + c == a + (b + c)
  {
  }

  // ---------------------------------------------------------------------
  // Filtering (`Array.prototype.filter` and the loops that behave like it)

  /** `a` is `b` with some elements left out and the others kept in their order. */
  predicate Subsequence<T(==)>(a: seq<T>, b: seq<T>)
    decreases |b|
  {
    |a| == 0 || (|b| > 0 && if a[0] == b[0] then Subsequence(a[1..], b[1..]) else Subsequence(a, b[1..]))
  }

  /**
   * `r` is what filtering `s` by `keep` gives: the elements `keep` accepts,
   * in their order in `s`, each as many times as it occurs there.
   */
  ghost predicate IsFilter<T(!new)>(r: seq<T>, s: seq<T>, keep: T -> bool) {
    Subsequence(r, s) && forall x :: multiset(r)[x] == if keep(x) then multiset(s)[x] else 0
  }

  /** A longer list keeps its subsequences. */
  lemma {:induction false} SubsequenceExtend<T>(a: seq<T>, b: seq<T>, x: T)
    requires Subsequence(a, b)
    ensures Subsequence(a, b + [x])
    decreases |b|
  {
    if |a| > 0 {
      assert (b + [x])[1..] == b[1..] + [x];
      if a[0] == b[0] {
        SubsequenceExtend(a[1..], b[1..], x);
      } else {
        SubsequenceExtend(a, b[1..], x);
      }
    }
  }

  /** Appending the same element to both lists keeps a subsequence one. */
  lemma {:induction false} SubsequenceSnoc<T>(a: seq<T>, b: seq<T>, x: T)
    requires Subsequence(a, b)
    ensures Subsequence(a + [x], b + [x])
    decreases |b|
  {
    assert (a + [x])[0] == if |a| == 0 then x else a[0];
    if |b| > 0 {
      assert (b + [x])[1..] == b[1..] + [x];
      if |a| > 0 && a[0] == b[0] {
        assert (a + [x])[1..] == a[1..] + [x];
        SubsequenceSnoc(a[1..], b[1..], x);
      } else {
        SubsequenceSnoc(a, b[1..], x);
      }
    } else {
      assert (a + [x])[1..] == [];
    }
  }

  /** A filter keeps exactly the accepted elements and never lengthens the list. */
  lemma FilterMembers<T(!new)>(r: seq<T>, s: seq<T>, keep: T -> bool)
    requires IsFilter(r, s, keep)
    ensures forall x :: x in r <==> x in s && keep(x)
    ensures multiset(r) <= multiset(s) && |r| <= |s|
  {
    forall x ensures x in r <==> x in s && keep(x) {
      assert x in r <==> multiset(r)[x] > 0;
      assert x in s <==> multiset(s)[x] > 0;
    }
    assert multiset(r) <= multiset(s);
    assert multiset(s) == multiset(r) + (multiset(s) - multiset(r));
  }

  /** Filtering a list from its head: the head when it is kept, then the filtered tail. */
  lemma FilterCons<T(!new)>(keep: T -> bool, s: seq<T>, rest: seq<T>)
    requires |s| > 0 && IsFilter(rest, s[1..], keep)
    ensures IsFilter(if keep(s[0]) then [s[0]] + rest else rest, s, keep)
  {
    assert s == [s[0]] + s[1..];
    if keep(s[0]) {
      assert ([s[0]] + rest)[1..] == rest;
    } else if |rest| > 0 {
      assert multiset(rest)[rest[0]] > 0;
    }
  }

  /** Filtering a list from its end: the filtered front, then the last element when it is kept. */
  lemma FilterSnoc<T(!new)>(keep: T -> bool, s: seq<T>, init: seq<T>)
    requires |s| > 0 && IsFilter(init, s[..|s| - 1], keep)
    ensures IsFilter(if keep(s[|s| - 1]) then init + [s[|s| - 1]] else init, s, keep)
  {
    assert s == s[..|s| - 1] + [s[|s| - 1]];
    if keep(s[|s| - 1]) {
      SubsequenceSnoc(init, s[..|s| - 1], s[|s| - 1]);
    } else {
      SubsequenceExtend(init, s[..|s| - 1], s[|s| - 1]);
    }
  }

  // ---------------------------------------------------------------------
  // Consecutive chunks (a `for (i = 0; i < n; i += k) s.slice(i, i + k)` loop)

  function Min(a: int, b: int): int { if a <= b then a else b }

  function Max(a: int, b: int): int { if a >= b then a else b }

  function Chunks<T>(s: seq<T>, k: nat): (r: seq<seq<T>>)
    requires k > 0
    ensures forall j :: 0 <= j < |r| ==> 0 < |r[j]| <= k
    decreases |s|
  {
    if |s| == 0 then [] else [s[..Min(k, |s|)]] + Chunks(s[Min(k, |s|)..], k)
  }

  function Flatten<T>(ss: seq<seq<T>>): seq<T> {
    if |ss| == 0 then [] else ss[0] + Flatten(ss[1..])
  }

  /** The chunks of the list from index i: the one starting at i, then those from its end. */
  lemma ChunksFrom<T>(s: seq<T>, k: nat, i: nat)
    requires k > 0 && i < |s|
    ensures Chunks(s[i..], k) == [s[i..Min(i + k, |s|)]] + Chunks(s[Min(i + k, |s|)..], k)
  {
    var end := Min(i + k, |s|);
    assert s[i..][..Min(k, |s| - i)] == s[i..end];
    assert s[i..][Min(k, |s| - i)..] == s[end..];
  }

  lemma {:induction false} FlattenSnoc<X>(init: seq<seq<X>>, last: seq<X>)
    ensures Flatten(init + [last]) == Flatten(init) + last
  {
    if |init| > 0 {
      assert (init + [last])[1..] == init[1..] + [last];
      FlattenSnoc(init[1..], last);
      AppendAssoc(init[0], Flatten(init[1..]), last);
    } else {
      assert init + [last] == [last];
    }
  }

  /** The chunks, laid end to end, are the original list. */
  lemma {:induction false} FlattenChunks<T>(s: seq<T>, k: nat)
    requires k > 0
    ensures Flatten(Chunks(s, k)) == s
  {
    if |s| > 0 {
      var m := Min(k, |s|);
      FlattenChunks(s[m..], k);
      assert s == s[..m] + s[m..];
    }
  }

  /** There are ceil(|s| / k) chunks, and every chunk but the last is full. */
  lemma {:induction false} ChunksShape<T>(s: seq<T>, k: nat)
    requires k > 0
    ensures (|Chunks(s, k)| - 1) * k < |s| <= |Chunks(s, k)| * k
    ensures forall j :: 0 <= j < |Chunks(s, k)| - 1 ==> |Chunks(s, k)[j]| == k
  {
    if |s| > 0 {
      var m := Min(k, |s|);
      var rest := Chunks(s[m..], k);
      ChunksShape(s[m..], k);
      var c := |rest|;
      assert Chunks(s, k) == [s[..m]] + rest;
      if c == 0 {
        assert |s[m..]| == 0;
      } else {
        assert m == k;
        assert (c - 1) * k == c * k - k && (c + 1) * k == c * k + k;
        assert forall j :: 1 <= j < c + 1 ==> Chunks(s, k)[j] == rest[j - 1];
      }
    }
  }

  // ---------------------------------------------------------------------
  // Integer division facts used where the source computes Math.floor(i / k)

  lemma {:induction false} MulAtLeast(d: int, k: int)
    requires k > 0
    ensures d >= 1 ==> d * k >= k
    decreases if d < 0 then 0 else d
  {
    if d >= 2 {
      MulAtLeast(d - 1, k);
      assert d * k == (d - 1) * k + k;
    }
  }

  lemma MulLess(a: int, b: int, k: int)
    requires k > 0 && a * k < b * k + k
    ensures a <= b
  {
    MulAtLeast(a - b, k);
    assert (a - b) * k == a * k - b * k;
  }

  /** The quotient is unique: q * k + r with 0 <= r < k divides to q. */
  lemma DivUnique(x: int, k: int, q: int, r: int)
    requires k > 0 && 0 <= r < k && x == q * k + r
    ensures x / k == q
  {
    var q2 := x / k;
    MulLess(q2, q, k);
    MulLess(q, q2, k);
  }
}
