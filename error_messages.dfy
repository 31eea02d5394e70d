// User-facing error texts (src/lib/error-messages.ts): the message is pulled
// out of whatever was thrown, then matched against a fixed table of
// case-insensitive patterns; the first entry that matches supplies the text
// shown. Without a match a long message is replaced by a generic sentence
// and a short one is shown as it is.
//
// Each pattern of the table is a plain phrase, or `a.*b` — `a` followed
// later on the same line by `b` (the regular-expression dot does not match
// a line terminator) — or an alternative of two such patterns. Case is
// ignored by lowering the message with ASCII case mapping, which is what
// the `i` flag does for these all-ASCII, lower-case patterns.

module ErrorMessages {
  import opened Common

  datatype Pattern =
    | Phrase(text: string)
    | Then(first: string, second: string)
    | Either(left: Pattern, right: Pattern)

  datatype Mapping = Mapping(pattern: Pattern, userMessage: string)

  /** `errorMappings`, in table order. */
  const Mappings: seq<Mapping> := [
    Mapping(Phrase("violates foreign key constraint"),
      "This item cannot be deleted because it's being used elsewhere. Please remove dependencies first."),
    Mapping(Phrase("duplicate key value"),
      "This item already exists. Please use a different name or identifier."),
    Mapping(Phrase("permission denied"),
      "You don't have permission to perform this action. Please contact an administrator."),
    Mapping(Phrase("row level security"),
      "Access denied. You don't have permission to view or modify this data."),
    Mapping(Then("storage", "not found"),
      "The file could not be found. It may have been deleted or moved."),
    Mapping(Then("storage", "quota"),
      "Storage limit reached. Please delete some files or upgrade your plan."),
    Mapping(Then("file", "too large"),
      "File is too large. Maximum file size is 50MB."),
    Mapping(Either(Then("network", "error"), Then("fetch", "failed")),
      "Network connection issue. Please check your internet connection and try again."),
    Mapping(Phrase("timeout"),
      "Request timed out. The server took too long to respond. Please try again."),
    Mapping(Either(Then("not", "authenticated"), Then("invalid", "token")),
      "Your session has expired. Please log in again."),
    Mapping(Then("invalid", "credentials"),
      "Invalid email or password. Please check your credentials and try again."),
    Mapping(Then("function", "not found"),
      "This feature is currently unavailable. Please try again later."),
    Mapping(Phrase("rate limit"),
      "Too many requests. Please wait a moment and try again."),
    Mapping(Then("stripe", "webhook"),
      "Payment processing issue. If you completed payment, it will be processed shortly."),
    Mapping(Then("payment", "failed"),
      "Payment could not be processed. Please check your payment method and try again.")
  ]

  /** What `getErrorMessage` falls back to. */
  const DefaultMessage := "An unexpected error occurred"

  /** What an unmatched message longer than `LongMessageLimit` is replaced by. */
  const GenericMessage := "An unexpected error occurred. Please try again or contact support if the problem persists."

  const LongMessageLimit := 100

  // ---------------------------------------------------------------------
  // Pattern matching

  /** The characters the regular-expression dot does not match. */
  predicate IsLineTerminator(c: char) {
    c == '\n' || c == '\r' || c == '\U{2028}' || c == '\U{2029}'
  }

  /** No line terminator among `s[from..to]`. */
  predicate OneLine(s: string, from: int, to: int) {
    forall k :: from <= k < to && 0 <= k < |s| ==> !IsLineTerminator(s[k])
  }

  /** How many characters precede the first line terminator. */
  function LineLength(t: string): (n: nat)
    ensures n <= |t|
    ensures OneLine(t, 0, n)
    ensures n < |t| ==> IsLineTerminator(t[n])
  {
    if |t| == 0 || IsLineTerminator(t[0]) then 0
    else 1 + LineLength(t[1..])
  }

  /** `a.*b`, searched from each position where `a` may start. */
  predicate ThenOnLine(s: string, a: string, b: string)
    decreases |s|
  {
    |s| >= |a| &&
    ((s[..|a|] == a && Includes(s[|a|..][..LineLength(s[|a|..])], b)) || (|s| > 0 && ThenOnLine(s[1..], a, b)))
  }

  /** The regular expression's own reading of `a.*b`: `a` at `i`, `b` at `j`, nothing but one line between. */
  predicate ThenAt(s: string, a: string, b: string, i: int, j: int) {
    OccursAt(s, a, i) && i + |a| <= j && OccursAt(s, b, j) && OneLine(s, i + |a|, j)
  }

  /** Whether a pattern matches an already lowered message. */
  predicate Matches(p: Pattern, lowered: string) {
    match p
    case Phrase(text) => Includes(lowered, text)
    case Then(a, b) => ThenOnLine(lowered, a, b)
    case Either(left, right) => Matches(left, lowered) || Matches(right, lowered)
  }

  /** `pattern.test(message)` for the `i`-flagged patterns of the table. */
  predicate Test(p: Pattern, message: string) {
    Matches(p, Lower(message))
  }

  /** Within a line, `b` lies in the part before the first line terminator. */
  lemma InLineHead(t: string, b: string)
    requires OneLine(b, 0, |b|)
    ensures Includes(t[..LineLength(t)], b) <==> exists j :: OccursAt(t, b, j) && OneLine(t, 0, j)
  {
    IncludesIsContains(t[..LineLength(t)], b);
    if Includes(t[..LineLength(t)], b) {
      var j :| 0 <= j <= LineLength(t) - |b| && OccursAt(t[..LineLength(t)], b, j);
      HeadOccurrence(t, b, j);
    }
    if exists j :: OccursAt(t, b, j) && OneLine(t, 0, j) {
      var j :| OccursAt(t, b, j) && OneLine(t, 0, j);
      LineOccurrence(t, b, j);
    }
  }

  lemma HeadOccurrence(t: string, b: string, j: int)
    requires OccursAt(t[..LineLength(t)], b, j)
    ensures OccursAt(t, b, j) && OneLine(t, 0, j)
  {
    assert t[j..j + |b|] == t[..LineLength(t)][j..j + |b|];
  }

  lemma LineOccurrence(t: string, b: string, j: int)
    requires OneLine(b, 0, |b|) && OccursAt(t, b, j) && OneLine(t, 0, j)
    ensures Contains(t[..LineLength(t)], b)
  {
    var n := LineLength(t);
    if j + |b| > n {
      assert false;
    }
    assert t[..n][j..j + |b|] == t[j..j + |b|];
    ContainsWitness(t[..n], b, j);
  }

  /** Matching `a` at the very start. */
  lemma ThenHere(s: string, a: string, b: string)
    requires OneLine(b, 0, |b|) && |s| >= |a| && s[..|a|] == a
    ensures Includes(s[|a|..][..LineLength(s[|a|..])], b) <==> exists j :: ThenAt(s, a, b, 0, j)
  {
    var t := s[|a|..];
    InLineHead(t, b);
    if exists k :: OccursAt(t, b, k) && OneLine(t, 0, k) {
      var k :| OccursAt(t, b, k) && OneLine(t, 0, k);
      ThenAfterHead(s, a, b, k);
    }
    if exists j :: ThenAt(s, a, b, 0, j) {
      var j :| ThenAt(s, a, b, 0, j);
      ThenAfterHead(s, a, b, j - |a|);
    }
  }

  /** With `a` at the start, `b` at `|a| + k` on the same line is `b` at `k` on the first line of the rest. */
  lemma ThenAfterHead(s: string, a: string, b: string, k: int)
    requires |s| >= |a| && s[..|a|] == a && k >= 0
    ensures ThenAt(s, a, b, 0, |a| + k) <==> OccursAt(s[|a|..], b, k) && OneLine(s[|a|..], 0, k)
  {
    var t := s[|a|..];
    assert OccursAt(s, a, 0);
    if |a| + k + |b| <= |s| {
      DropSlice(s, |a|, k, k + |b|);
    }
    assert OneLine(s, |a|, |a| + k) <==> OneLine(t, 0, k) by {
      assert forall m :: 0 <= m < |t| ==> t[m] == s[|a| + m];
    }
  }

  lemma DropSlice(s: string, n: nat, x: nat, y: nat)
    requires x <= y && n + y <= |s|
    ensures s[n..][x..y] == s[n + x..n + y]
  {
  }

  /** An occurrence in the tail is an occurrence one further on. */
  lemma ThenShift(s: string, a: string, b: string, i: nat, j: int)
    requires |s| > 0
    ensures ThenAt(s[1..], a, b, i, j) <==> ThenAt(s, a, b, i + 1, j + 1)
  {
    if i + |a| <= j && j + |b| <= |s| - 1 {
      TailSlice(s, i + 1, i + 1 + |a|);
      TailSlice(s, j + 1, j + 1 + |b|);
      TailSlice(s, i + 1 + |a|, j + 1);
    }
  }

  lemma TailSlice(s: string, x: nat, y: nat)
    requires 1 <= x <= y <= |s|
    ensures s[1..][x - 1..y - 1] == s[x..y]
  {
  }

  /** The position-by-position search finds exactly what the regular expression matches. */
  lemma ThenOnLineMeaning(s: string, a: string, b: string)
    requires OneLine(b, 0, |b|)
    ensures ThenOnLine(s, a, b) <==> exists i, j :: ThenAt(s, a, b, i, j)
  {
    ThenOnLineSound(s, a, b);
    if exists i, j :: ThenAt(s, a, b, i, j) {
      var i, j :| ThenAt(s, a, b, i, j);
      ThenAtFound(s, a, b, i, j);
    }
  }

  /** What the search finds is a match of the regular expression. */
  lemma {:induction false} ThenOnLineSound(s: string, a: string, b: string)
    requires OneLine(b, 0, |b|)
    ensures ThenOnLine(s, a, b) ==> exists i, j :: ThenAt(s, a, b, i, j)
    decreases |s|
  {
    if ThenOnLine(s, a, b) {
      if s[..|a|] == a && Includes(s[|a|..][..LineLength(s[|a|..])], b) {
        ThenHere(s, a, b);
      } else {
        ThenOnLineSound(s[1..], a, b);
        var i, j :| ThenAt(s[1..], a, b, i, j);
        ThenShift(s, a, b, i, j);
      }
    }
  }

  /** Every match of the regular expression is found by the search. */
  lemma {:induction false} ThenAtFound(s: string, a: string, b: string, i: nat, j: int)
    requires OneLine(b, 0, |b|) && ThenAt(s, a, b, i, j)
    ensures ThenOnLine(s, a, b)
    decreases i
  {
    if i == 0 {
      assert s[..|a|] == a;
      ThenHere(s, a, b);
    } else {
      ThenShift(s, a, b, i - 1, j - 1);
      ThenAtFound(s[1..], a, b, i - 1, j - 1);
    }
  }

  // ---------------------------------------------------------------------
  // getUserFriendlyError

  /** The index of the first table entry whose pattern matches. */
  function FirstMatch(table: seq<Mapping>, message: string): (k: Option<nat>)
    ensures k.Some? ==> k.value < |table| && Test(table[k.value].pattern, message)
    ensures k.Some? ==> forall j :: 0 <= j < k.value ==> !Test(table[j].pattern, message)
    ensures k.None? ==> forall j :: 0 <= j < |table| ==> !Test(table[j].pattern, message)
  {
    if |table| == 0 then None
    else if Test(table[0].pattern, message) then Some(0)
    else match FirstMatch(table[1..], message)
      case None => None
      case Some(k) => Some(k + 1)
  }

  /** What `getErrorMessage` returns: text, or a truthy non-string `response.data.message` as it is. */
  datatype Extracted = Text(text: string) | NonText(value: JsValue)

  /**
   * `getErrorMessage`: a string is its own message; an `Error` gives its
   * message; another object gives its string `message`, or else a truthy
   * `response.data.message`; anything else gets the default text.
   */
  function ErrorMessage(error: JsValue): (m: Extracted)
    ensures error.Str? ==> m == Text(error.s)
    ensures error.ErrorObject? ==> m == Text(error.message)
    ensures error.Obj? && "message" in error.fields && error.fields["message"].Str? ==>
      m == Text(error.fields["message"].s)
    ensures error.Obj? && !("message" in error.fields && error.fields["message"].Str?) ==>
      var d := ResponseDataMessage(error);
      && (Truthy(d) && d.Str? ==> m == Text(d.s))
      && (Truthy(d) && !d.Str? ==> m == NonText(d))
      && (!Truthy(d) ==> m == Text(DefaultMessage))
    ensures !error.Str? && !error.ErrorObject? && !error.Obj? ==> m == Text(DefaultMessage)
  {
    if error.Str? then Text(error.s)
    else if error.ErrorObject? then Text(error.message)
    else if Truthy(error) && IsObjectType(error) then
      if error.Obj? && "message" in error.fields && error.fields["message"].Str? then
        Text(error.fields["message"].s)
      else
        var message := ResponseDataMessage(error);
        if !Truthy(message) then Text(DefaultMessage)
        else if message.Str? then Text(message.s)
        else NonText(message)
    else Text(DefaultMessage)
  }

  /** `error.response.data?.message` when `error` has an object-valued `response`; otherwise nothing. */
  function ResponseDataMessage(error: JsValue): JsValue {
    var response := Get(error, "response");
    if error.Obj? && "response" in error.fields && Truthy(response) && IsObjectType(response) then
      Get(Get(response, "data"), "message")
    else Undefined
  }

  /**
   * The table lookup of `getUserFriendlyError`: the first entry whose
   * pattern matches supplies the text; with no match a message longer than
   * 100 characters gets the generic sentence and a shorter one is kept.
   */
  function FriendlyText(table: seq<Mapping>, message: string): (r: string)
    ensures forall k :: 0 <= k < |table| && Test(table[k].pattern, message) && (forall j :: 0 <= j < k ==> !Test(table[j].pattern, message)) ==> r == table[k].userMessage
    ensures (forall k :: 0 <= k < |table| ==> !Test(table[k].pattern, message)) ==>
      r == if |message| > LongMessageLimit then GenericMessage else message
    ensures r == GenericMessage || r == message || exists k :: 0 <= k < |table| && r == table[k].userMessage
  {
    match FirstMatch(table, message)
    case Some(k) => table[k].userMessage
    case None => if |message| > LongMessageLimit then GenericMessage else message
  }

  /**
   * `String(v)`, the text a pattern's `test` sees. An array joins its
   * elements with commas, `null` and `undefined` elements as empty text.
   * JavaScript's number formatting is an input (`numberText`).
   */
  function StringOf(v: JsValue, numberText: real -> string): string {
    match v
    case Undefined => "undefined"
    case Null => "null"
    case Bool(b) => if b then "true" else "false"
    case Num(n) => numberText(n)
    case NaN => "NaN"
    case Str(s) => s
    case Arr(elems) =>
      if |elems| == 0 then ""
      else Join(seq(|elems|, i requires 0 <= i < |elems| =>
                    if elems[i].Null? || elems[i].Undefined? then "" else StringOf(elems[i], numberText)), ',')
    case Obj(_) => "[object Object]"
    case ErrorObject(m) => if m == "" then "Error" else "Error: " + m
  }

  /** `errorMessage.length > 100` for a value that is not a string: an array's length, or an object's numeric `length` field. */
  predicate LongValue(v: JsValue) {
    (v.Arr? && |v.elems| > LongMessageLimit)
    || (v.Obj? && "length" in v.fields && v.fields["length"].Num? && v.fields["length"].n > LongMessageLimit as real)
  }

  /**
   * The table lookup of `getUserFriendlyError` for a message that is not a
   * string: the patterns test its `String` form; with no match a long value
   * gets the generic sentence and any other is returned as it is.
   */
  function FriendlyValue(v: JsValue, numberText: real -> string): (r: Extracted)
    ensures var t := StringOf(v, numberText);
      forall k :: 0 <= k < |Mappings| && Test(Mappings[k].pattern, t) && (forall j :: 0 <= j < k ==> !Test(Mappings[j].pattern, t)) ==>
        r == Text(Mappings[k].userMessage)
    ensures var t := StringOf(v, numberText);
      (forall k :: 0 <= k < |Mappings| ==> !Test(Mappings[k].pattern, t)) ==>
        r == if LongValue(v) then Text(GenericMessage) else NonText(v)
  {
    match FirstMatch(Mappings, StringOf(v, numberText))
    case Some(k) => Text(Mappings[k].userMessage)
    case None => if LongValue(v) then Text(GenericMessage) else NonText(v)
  }

  /** An array holding one text is matched like the text itself, and kept as the array when nothing matches. */
  lemma SingleTextArray(s: string, numberText: real -> string)
    ensures FriendlyValue(Arr([Str(s)]), numberText) ==
      if FirstMatch(Mappings, s).Some? then Text(FriendlyText(Mappings, s)) else NonText(Arr([Str(s)]))
  {
    var parts := seq(1, i requires 0 <= i < 1 => if [Str(s)][i].Null? || [Str(s)][i].Undefined? then "" else StringOf([Str(s)][i], numberText));
    assert parts == [s];
    assert StringOf(Arr([Str(s)]), numberText) == s;
  }

  /**
   * `getUserFriendlyError`: the table lookup applied to the extracted
   * message, whether text or, through `String`, another value.
   */
  function FriendlyError(error: JsValue, numberText: real -> string): (r: Extracted)
    ensures var m := ErrorMessage(error);
      && (m.Text? ==> r == Text(FriendlyText(Mappings, m.text)))
      && (m.NonText? ==> r == FriendlyValue(m.value, numberText))
  {
    match ErrorMessage(error)
    case NonText(v) => FriendlyValue(v, numberText)
    case Text(message) => Text(FriendlyText(Mappings, message))
  }

  /** The line `handleError` writes to the console. */
  datatype LogEntry = LogEntry(context: string, userMessage: Extracted, technicalError: Extracted, fullError: JsValue)

  /** `handleError(error, context)`: logs the technical and the friendly message, returns the friendly one. */
  function HandleError(error: JsValue, context: Option<string>, numberText: real -> string): (r: (Extracted, LogEntry))
    ensures r.0 == FriendlyError(error, numberText) && r.1.userMessage == r.0
    ensures r.1.technicalError == ErrorMessage(error) && r.1.fullError == error
    ensures r.1.context == if context.Some? && context.value != "" then context.value else "Error"
  {
    var userMessage := FriendlyError(error, numberText);
    (userMessage, LogEntry(if context.Some? && context.value != "" then context.value else "Error",
                           userMessage, ErrorMessage(error), error))
  }

  /** Lowering undoes upper-casing. */
  lemma LowerOfUpper(s: string)
    ensures Lower(Upper(s)) == Lower(s)
  {
  }

  /** The table ignores case: a message in capitals is mapped to the same entry. */
  lemma CaseDoesNotChooseEntry(message: string)
    ensures FirstMatch(Mappings, Upper(message)) == FirstMatch(Mappings, message)
  {
    LowerOfUpper(message);
    assert forall p :: Test(p, Upper(message)) == Test(p, message);
  }
}
