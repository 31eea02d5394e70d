// The AI ad-copy edge function (supabase/functions/generate-ai-ad/index.ts):
// it answers the CORS preflight, checks the request, builds a prompt that
// adds urgency for paid tiers, asks a language model for the copy, decides
// whether the copy carries a "fear of missing out" hook, records the call in
// the activity log when a user is named, and answers with the copy.
//
// Parsing the request body is an input (its value, or what it threw); the
// language model is a function from the prompt to its completion or to what
// it threw. The activity log is the `rows` of an `ActivityLog`.

module GenerateAiAd {
  import opened Common

  const CorsHeaders := [
    ("Access-Control-Allow-Origin", "*"),
    ("Access-Control-Allow-Headers", "authorization, x-client-info, apikey, content-type")]
  const JsonHeaders := CorsHeaders + [("Content-Type", "application/json")]

  const DefaultStyle := "casual"
  const DefaultCategory := "general"
  const DefaultTier := "free"
  const MissingFieldsMessage := "title and description are required"
  const FallbackMessage := "Failed to generate ad"
  const FomoText := "Killer Deal! Limited time offer - "
  const FomoPhrase := "killer deal"
  const LogAction := "generate_ai_ad"

  /** The JSON body; every field may be absent (`undefined`). */
  datatype RequestBody = RequestBody(
    title: Option<string>, description: Option<string>, style: Option<string>,
    category: Option<string>, tier: Option<string>, userId: Option<string>)

  /** The HTTP method and what `req.json()` gave or threw. */
  datatype Request = Request(httpMethod: string, body: Result<RequestBody, Thrown>)

  /** The request once the destructuring defaults are applied. */
  datatype AdRequest = AdRequest(
    title: Option<string>, description: Option<string>, style: string,
    category: string, tier: string, userId: Option<string>)

  /** What the language model is asked: the request's fields, the urgency hook if any, and whether to stress urgency. */
  datatype Prompt = Prompt(title: string, description: string, style: string, category: string,
                           fomo: Option<string>, stressUrgency: bool)

  /** The part of a chat completion that is read: the first choice's text and the token count. */
  datatype Completion = Completion(content: Option<string>, totalTokens: Option<int>)

  datatype Body =
    | Text(text: string)
    | ErrorJson(error: string)
    | SuccessJson(adCopy: string, tokens: int, fomo: bool, tier: string)

  datatype Response = Response(status: int, headers: seq<(string, string)>, body: Body)

  datatype LogMetadata = LogMetadata(title: string, category: string, tier: string, tokens: int, fomo: bool, adCopy: string)

  /** A row of `activity_log`. */
  datatype LogRow = LogRow(userId: string, action: string, metadata: LogMetadata)

  /** A string field is truthy when present and non-empty. */
  predicate Given(s: Option<string>) {
    s.Some? && s.value != ""
  }

  /** The destructuring defaults: only an absent style, category or tier is replaced. */
  function Resolve(b: RequestBody): (r: AdRequest)
    ensures r.title == b.title && r.description == b.description && r.userId == b.userId
    ensures r.style == (if b.style.Some? then b.style.value else DefaultStyle)
    ensures r.category == (if b.category.Some? then b.category.value else DefaultCategory)
    ensures r.tier == (if b.tier.Some? then b.tier.value else DefaultTier)
  {
    AdRequest(b.title, b.description, b.style.GetOr(DefaultStyle), b.category.GetOr(DefaultCategory),
              b.tier.GetOr(DefaultTier), b.userId)
  }

  predicate PaidTier(tier: string) {
    tier == "pro" || tier == "enterprise"
  }

  /** The urgency hook: the "Killer Deal!" prefix for paid tiers, empty otherwise. */
  function FomoPrefix(tier: string): (t: string)
    ensures t != "" <==> PaidTier(tier)
    ensures t != "" ==> t == FomoText
  {
    if PaidTier(tier) then FomoText else ""
  }

  /** The prompt: the request's fields, and the hook with an urgency bullet only when the hook is non-empty. */
  function BuildPrompt(title: string, description: string, r: AdRequest): (p: Prompt)
    ensures p.title == title && p.description == description && p.style == r.style && p.category == r.category
    ensures p.fomo.Some? <==> PaidTier(r.tier)
    ensures p.stressUrgency <==> PaidTier(r.tier)
    ensures p.fomo.Some? ==> p.fomo.value == FomoText
  {
    var fomo := FomoPrefix(r.tier);
    Prompt(title, description, r.style, r.category, if fomo != "" then Some(fomo) else None, fomo != "")
  }

  /** `content || ''`. */
  function CopyOf(c: Completion): string {
    if Given(c.content) then c.content.value else ""
  }

  /** `total_tokens || 0`. */
  function TokensOf(c: Completion): int {
    if c.totalTokens.Some? && c.totalTokens.value != 0 then c.totalTokens.value else 0
  }

  /** The copy counts as urgent for paid tiers, or when it mentions "killer deal" in any case. */
  predicate HasFomo(tier: string, adCopy: string) {
    PaidTier(tier) || Contains(Lower(adCopy), FomoPhrase)
  }

  /** The 500 message: an `Error`'s message, otherwise a fixed text. */
  function FailureMessage(e: Thrown): string {
    match e
    case ErrorInstance(m) => m
    case OtherValue(_) => FallbackMessage
  }

  function ServerError(e: Thrown): Response {
    Response(500, JsonHeaders, ErrorJson(FailureMessage(e)))
  }

  /** The response the handler sends: 200, 400 or 500, and JSON for anything but the preflight. */
  function Respond(req: Request, complete: Prompt -> Result<Completion, Thrown>): (resp: Response)
    ensures resp.status == 200 || resp.status == 400 || resp.status == 500
    ensures req.httpMethod != "OPTIONS" ==> resp.headers == JsonHeaders
  {
    if req.httpMethod == "OPTIONS" then Response(200, CorsHeaders, Text("ok"))
    else match req.body
      case Err(e) => ServerError(e)
      case Ok(b) =>
        var r := Resolve(b);
        if !Given(r.title) || !Given(r.description) then Response(400, JsonHeaders, ErrorJson(MissingFieldsMessage))
        else match complete(BuildPrompt(r.title.value, r.description.value, r))
          case Err(e) => ServerError(e)
          case Ok(c) =>
            Response(200, JsonHeaders, SuccessJson(CopyOf(c), TokensOf(c), HasFomo(r.tier, CopyOf(c)), r.tier))
  }

  /** The rows the handler adds to the activity log: one when the copy was generated for a named user, none otherwise. */
  function LogRows(req: Request, complete: Prompt -> Result<Completion, Thrown>): seq<LogRow> {
    if req.httpMethod == "OPTIONS" || req.body.Err? then []
    else
      var r := Resolve(req.body.value);
      if !Given(r.title) || !Given(r.description) || !Given(r.userId) then []
      else match complete(BuildPrompt(r.title.value, r.description.value, r))
        case Err(_) => []
        case Ok(c) =>
          [LogRow(r.userId.value, LogAction,
                  LogMetadata(r.title.value, r.category, r.tier, TokensOf(c), HasFomo(r.tier, CopyOf(c)), CopyOf(c)))]
  }

  /** The `activity_log` table, as far as this function writes it. */
  class ActivityLog {
    var rows: seq<LogRow>

    constructor ()
      ensures rows == []
    {
      rows := [];
    }

    /** The handler: answers the request and appends the log row, if any. */
    method Serve(req: Request, complete: Prompt -> Result<Completion, Thrown>) returns (resp: Response)
      modifies this
      ensures resp == Respond(req, complete)
      ensures rows == old(rows) + LogRows(req, complete)
    {
      if req.httpMethod == "OPTIONS" {
        return Response(200, CorsHeaders, Text("ok"));
      }
      if req.body.Err? {
        return ServerError(req.body.error);
      }
      var r := Resolve(req.body.value);
      if !Given(r.title) || !Given(r.description) {
        return Response(400, JsonHeaders, ErrorJson(MissingFieldsMessage));
      }
      var outcome := complete(BuildPrompt(r.title.value, r.description.value, r));
      if outcome.Err? {
        return ServerError(outcome.error);
      }
      var adCopy := CopyOf(outcome.value);
      var tokensUsed := TokensOf(outcome.value);
      var hasFomo := HasFomo(r.tier, adCopy);
      if Given(r.userId) {
        rows := rows + [LogRow(r.userId.value, LogAction,
                               LogMetadata(r.title.value, r.category, r.tier, tokensUsed, hasFomo, adCopy))];
      }
      resp := Response(200, JsonHeaders, SuccessJson(adCopy, tokensUsed, hasFomo, r.tier));
    }
  }

  // ---------------------------------------------------------------------
  // Properties

  /** Every response carries the CORS headers. */
  lemma CorsOnEveryResponse(req: Request, complete: Prompt -> Result<Completion, Thrown>)
    ensures var h := Respond(req, complete).headers; |h| >= 2 && h[..2] == CorsHeaders
  {
  }

  /** The preflight is answered `ok` with the CORS headers alone and logs nothing. */
  lemma Preflight(body: Result<RequestBody, Thrown>, complete: Prompt -> Result<Completion, Thrown>)
    ensures Respond(Request("OPTIONS", body), complete) == Response(200, CorsHeaders, Text("ok"))
    ensures LogRows(Request("OPTIONS", body), complete) == []
  {
  }

  /** A parsed request is refused with 400 exactly when its title or description is missing or empty, and then nothing is logged. */
  lemma MissingFieldsRejected(req: Request, complete: Prompt -> Result<Completion, Thrown>)
    requires req.httpMethod != "OPTIONS" && req.body.Ok?
    ensures Respond(req, complete).status == 400
      <==> !Given(req.body.value.title) || !Given(req.body.value.description)
    ensures Respond(req, complete).status == 400 ==>
      Respond(req, complete).body == ErrorJson(MissingFieldsMessage) && LogRows(req, complete) == []
  {
  }

  /** Without style, category or tier the prompt asks for casual copy in the general category, without urgency. */
  lemma DefaultsApply(title: string, description: string, userId: Option<string>)
    ensures var r := Resolve(RequestBody(Some(title), Some(description), None, None, None, userId));
      && r.style == "casual" && r.category == "general" && r.tier == "free"
      && BuildPrompt(title, description, r).fomo.None?
  {
  }

  /**
   * A successful answer echoes the copy, the token count and the tier, and
   * says the copy is urgent exactly when the tier is paid or the copy
   * mentions "killer deal"; a free-tier copy without the phrase is not.
   */
  lemma SuccessEchoes(req: Request, complete: Prompt -> Result<Completion, Thrown>)
    requires Respond(req, complete).status == 200 && req.httpMethod != "OPTIONS"
    ensures var r := Resolve(req.body.value);
      var c := complete(BuildPrompt(r.title.value, r.description.value, r)).value;
      && Respond(req, complete).body == SuccessJson(CopyOf(c), TokensOf(c), HasFomo(r.tier, CopyOf(c)), r.tier)
      && (HasFomo(r.tier, CopyOf(c)) <==> PaidTier(r.tier) || Contains(Lower(CopyOf(c)), "killer deal"))
  {
  }

  /**
   * A row is logged exactly when the answer is a success and the request
   * names a user; the row records the same copy, tokens, urgency and tier as
   * the answer.
   */
  lemma LoggedIffSuccessForUser(req: Request, complete: Prompt -> Result<Completion, Thrown>)
    ensures |LogRows(req, complete)| <= 1
    ensures LogRows(req, complete) != [] <==>
      req.httpMethod != "OPTIONS" && Respond(req, complete).status == 200 && Given(req.body.value.userId)
    ensures LogRows(req, complete) != [] ==>
      var row := LogRows(req, complete)[0];
      var body := Respond(req, complete).body;
      && row.userId == req.body.value.userId.value && row.action == "generate_ai_ad"
      && body == SuccessJson(row.metadata.adCopy, row.metadata.tokens, row.metadata.fomo, row.metadata.tier)
  {
  }

  /** A failure of the model or of parsing is a 500 that carries the error's message and logs nothing. */
  lemma FailureIsServerError(req: Request, complete: Prompt -> Result<Completion, Thrown>)
    requires req.httpMethod != "OPTIONS"
    requires req.body.Err? || (var r := Resolve(req.body.value);
      Given(r.title) && Given(r.description) && complete(BuildPrompt(r.title.value, r.description.value, r)).Err?)
    ensures Respond(req, complete).status == 500 && LogRows(req, complete) == []
    ensures req.body.Err? && req.body.error.ErrorInstance? ==>
      Respond(req, complete).body == ErrorJson(req.body.error.message)
  {
  }

  /** Copy that opens with the paid tiers' hook counts as urgent on any tier. */
  lemma HookCountsAsFomo(tier: string, rest: string)
    ensures HasFomo(tier, FomoText + rest)
  {
    var head := "Killer Deal";
    var t := head + ("! Limited time offer - " + rest);
    assert FomoText + rest == t by {
      assert FomoText == head + "! Limited time offer - ";
    }
    assert t[..11] == head;
    LowerHook(t);
    ContainsWitness(Lower(t), FomoPhrase, 0);
  }

  /** Lower-casing text that opens with the hook opens it with the phrase that is searched for. */
  lemma LowerHook(t: string)
    requires |t| >= 11 && t[..11] == "Killer Deal"
    ensures Lower(t)[..11] == FomoPhrase
  {
    var s := Lower(t);
    forall i | 0 <= i < 11
      ensures s[i] == FomoPhrase[i]
    {
      assert t[i] == "Killer Deal"[i];
    }
  }
}
