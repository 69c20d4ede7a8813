/**
 * remind/ai.py: the client side of AI suggestions. `AIManager` posts the
 * reminder text to the backend and turns the reply into an `AIResponse`;
 * every failure inside the request block comes out as a `RuntimeError`,
 * while the premium check in front of it raises `PremiumRequired` as is.
 * The HTTP exchange is an input.
 */
module ClientAi {
  import opened Wrappers
  import opened Text
  import opened Json
  import opened Priority
  import opened RemindModels
  import Utils

  /** `AIManager`: the backend URL without trailing slashes, and the licence token. */
  datatype AIManager = AIManager(backendUrl: string, licenseToken: string)

  /** `AIManager(backend_url, license_token)`. */
  function NewManager(url: string, token: string): (m: AIManager)
    ensures m.backendUrl <= url && m.licenseToken == token
    ensures |m.backendUrl| > 0 ==> m.backendUrl[|m.backendUrl| - 1] != '/'
    ensures forall i :: |m.backendUrl| <= i < |url| ==> url[i] == '/'
  {
    AIManager(RStripChar(url, '/'), token)
  }

  /** Stripping is idempotent: a normalised URL is left alone. */
  lemma {:induction false} NewManagerIdempotent(url: string, token: string)
    ensures NewManager(NewManager(url, token).backendUrl, token) == NewManager(url, token)
  {
    var u := RStripChar(url, '/');
    if |u| > 0 {
      assert u[|u| - 1] != '/';
    }
  }

  /** `get_ai_manager(url, token)`: nothing unless both are given and non-empty. */
  function GetAIManager(url: Option<string>, token: Option<string>): (m: Option<AIManager>)
    ensures m.Some? <==> url.Some? && |url.value| > 0 && token.Some? && |token.value| > 0
    ensures m.Some? ==> m.value == NewManager(url.value, token.value)
  {
    if url.None? || |url.value| == 0 || token.None? || |token.value| == 0 then None
    else Some(NewManager(url.value, token.value))
  }

  /** The POST the manager sends. */
  datatype Post = Post(url: string, licenseToken: string, reminderText: string)

  function SuggestPost(m: AIManager, text: string): (p: Post)
    ensures p.url == m.backendUrl + "/api/v1/suggest-reminder"
    ensures p.licenseToken == m.licenseToken && p.reminderText == text
  {
    Post(m.backendUrl + "/api/v1/suggest-reminder", m.licenseToken, text)
  }

  /** What came back from the POST. */
  datatype Reply =
    | TransportFailure                                // httpx raised
    | Response(status: int, body: Body, text: string) // status, decoded JSON body, raw text

  /** Why the request block raised. */
  datatype Failure =
    | Transport                 // httpx.HTTPError
    | InvalidToken              // 401
    | Limited(detail: Json)     // 429, with the server's `detail`
    | BackendError(status: int) // any other non-200 status
    | BadPayload                // a body that is not a JSON object, or a value of the wrong type

  datatype ClientError =
    | PremiumRequired           // no licence: raised before the request
    | Runtime(cause: Failure)   // re-raised as RuntimeError

  const DefaultLimitDetail: string := "Rate limited or quota exceeded"

  /** `cost_cents / 100.0` as cents: numbers (and booleans) divide, anything else raises. */
  function CostCents(v: Json): (r: Option<int>)
    ensures v.JNum? ==> r == Some(v.n)
    ensures v.JBool? ==> r == Some(if v.b then 1 else 0)
    ensures r.Some? <==> v.JNum? || v.JBool?
  {
    match v
    case JNum(n) => Some(n)
    case JBool(b) => Some(if b then 1 else 0)
    case _ => None
  }

  /** The text of a JSON string, or `None` for any other value (`.lower()` raises). */
  function AsText(v: Json): Option<string> {
    if v.JStr? then Some(v.s) else None
  }

  /** The `200` branch: read the fields of the reply, falling back to defaults. */
  function ParseSuggestion(data: map<string, Json>, text: string): (r: Result<AIResponse, Failure>)
    ensures r.Err? ==> r.error == BadPayload
    ensures r.Ok? ==> r.value.priority == Utils.ParsePriority(AsText(Get(data, "priority", JStr("medium"))), Medium)
    ensures r.Ok? <==> && CostCents(Get(data, "cost_cents", JNum(0))).Some?
                       && MakeAIResponse(Get(data, "suggested_text", JStr(text)), Medium,
                                         Get(data, "due_time_suggestion", JNull), None).Ok?
    ensures r.Ok? ==> r.value.suggestedText == (if "suggested_text" in data then data["suggested_text"].s else text)
    ensures r.Ok? ==> r.value.costCents == CostCents(Get(data, "cost_cents", JNum(0)))
    ensures r.Ok? && "due_time_suggestion" !in data ==> r.value.dueSuggestion == None
    ensures r.Ok? && "due_time_suggestion" in data ==>
              r.value.dueSuggestion == (if data["due_time_suggestion"].JStr? then Some(data["due_time_suggestion"].s) else None)
    ensures "due_time_suggestion" in data && !data["due_time_suggestion"].JStr? && !data["due_time_suggestion"].JNull? ==>
              r == Err(BadPayload)
  {
    var priority := Utils.ParsePriority(AsText(Get(data, "priority", JStr("medium"))), Medium);
    match CostCents(Get(data, "cost_cents", JNum(0)))
    case None => Err(BadPayload)
    case Some(cents) =>
      match MakeAIResponse(Get(data, "suggested_text", JStr(text)), priority,
                           Get(data, "due_time_suggestion", JNull), Some(cents))
      case Err(_) => Err(BadPayload)
      case Ok(resp) => Ok(resp)
  }

  /** The body of the `try` block, status by status. */
  function Exchange(reply: Reply, text: string): (r: Result<AIResponse, Failure>)
    ensures reply.TransportFailure? ==> r == Err(Transport)
    ensures reply.Response? && reply.status == 401 ==> r == Err(InvalidToken)
    ensures reply.Response? && reply.status !in {200, 401, 429} ==> r == Err(BackendError(reply.status))
    ensures reply.Response? && reply.status == 429 ==>
              if reply.body.Parsed? && reply.body.value.JObject?
              then r == Err(Limited(Get(reply.body.value.fields, "detail", JStr(DefaultLimitDetail))))
              else r == Err(BadPayload)
    ensures r.Ok? ==> reply.Response? && reply.status == 200 && reply.body.Parsed? && reply.body.value.JObject?
  {
    match reply
    case TransportFailure => Err(Transport)
    case Response(status, body, _) =>
      if status == 401 then Err(InvalidToken)
      else if status == 429 then
        if body.Parsed? && body.value.JObject? then Err(Limited(Get(body.value.fields, "detail", JStr(DefaultLimitDetail))))
        else Err(BadPayload)
      else if status != 200 then Err(BackendError(status))
      else if body.Parsed? && body.value.JObject? then ParseSuggestion(body.value.fields, text)
      else Err(BadPayload)
  }

  /** `suggest_rephrasing(text)` behind `@requires_premium`. */
  function SuggestRephrasing(licensed: bool, reply: Reply, text: string): (r: Result<AIResponse, ClientError>)
    ensures !licensed <==> r == Err(PremiumRequired)
    ensures licensed && r.Err? ==> r.error.Runtime?
    ensures licensed ==> (r.Ok? <==> Exchange(reply, text).Ok?)
    ensures r.Ok? ==> r.value == Exchange(reply, text).value
  {
    if !licensed then Err(PremiumRequired)
    else match Exchange(reply, text)
      case Err(f) => Err(Runtime(f))
      case Ok(resp) => Ok(resp)
  }

  /** A reply that omits every field keeps the user's text at medium priority with no cost. */
  lemma EmptyReplyDefaults(text: string)
    requires |text| >= 1
    ensures SuggestRephrasing(true, Response(200, Parsed(JObject(map[])), ""), text)
            == Ok(AIResponse(text, Medium, None, Some(0)))
  {
    assert Utils.ParsePriority(Some("medium"), Medium) == Medium;
  }

  /** A priority the client does not know is read as medium rather than rejected. */
  lemma UnknownPriorityIsMedium(data: map<string, Json>, text: string)
    requires "priority" in data && data["priority"].JStr? && FromValue(Lower(data["priority"].s)).None?
    requires ParseSuggestion(data, text).Ok?
    ensures ParseSuggestion(data, text).value.priority == Medium
  {
  }

  /** The reply of `test_suggest_rephrasing_response_parsing`. */
  lemma SampleReply()
    ensures var data := map["suggested_text" := JStr("Call mom"), "priority" := JStr("high"),
                            "due_time_suggestion" := JStr("tomorrow 3pm"), "cost_cents" := JNum(1)];
            SuggestRephrasing(true, Response(200, Parsed(JObject(data)), ""), "call mom pls")
            == Ok(AIResponse("Call mom", High, Some("tomorrow 3pm"), Some(1)))
  {
    assert Lower("high") == "high";
    assert Utils.ParsePriority(Some("high"), Medium) == High;
  }
}
