/**
 * backend/app/ai.py: the cost model and what `suggest_reminder` does with
 * the chat completion once it has come back. The completion, including the
 * result of decoding its first message as JSON, is an input.
 */
module BackendAi {
  import opened Wrappers
  import opened Json
  import opened Priority

  /** `calculate_cost`, in exact arithmetic: 0.00375 cents per 1000 input tokens, 0.015 per 1000 output tokens, at least 1. */
  function CalculateCost(inputTokens: nat, outputTokens: nat): (c: nat)
    ensures c >= 1
    ensures 375 * inputTokens + 1500 * outputTokens < (c + 1) * 100000000
    ensures c > 1 ==> c * 100000000 <= 375 * inputTokens + 1500 * outputTokens
  {
    var cents := (375 * inputTokens + 1500 * outputTokens) / 100000000;
    if cents < 1 then 1 else cents
  }

  /** The cost never falls when either token count grows. */
  lemma CostMonotone(a: nat, b: nat, a2: nat, b2: nat)
    requires a <= a2 && b <= b2
    ensures CalculateCost(a, b) <= CalculateCost(a2, b2)
  {
  }

  /** Below two cents of usage the charge is the one-cent minimum; the samples of `test_calculate_cost` are all there. */
  lemma MinimumCharge(a: nat, b: nat)
    requires 375 * a + 1500 * b < 200000000
    ensures CalculateCost(a, b) == 1
  {
  }

  lemma CostSamples()
    ensures CalculateCost(0, 0) == 1
    ensures CalculateCost(100, 50) == 1
    ensures CalculateCost(10000, 5000) == 1
    ensures CalculateCost(400000, 0) == 1 && CalculateCost(600000, 0) == 2
  {
    MinimumCharge(0, 0);
    MinimumCharge(100, 50);
    MinimumCharge(10000, 5000);
    MinimumCharge(400000, 0);
  }

  /** `response.usage`: each count may be missing. */
  datatype Usage = Usage(promptTokens: Option<nat>, completionTokens: Option<nat>)

  /**
   * What `client.chat.completions.create` produced: the content of each
   * choice, the result of `json.loads` on the first content stripped, and
   * the usage block.
   */
  datatype Completion =
    | CallFailed
    | Completion(contents: seq<Option<string>>, decoded: Body, usage: Option<Usage>)

  /** Why `suggest_reminder` raised. */
  datatype AiError =
    | ApiFailure                 // the OpenAI call itself raised
    | EmptyResponse              // ValueError("Empty response from AI"), not re-wrapped
    | ParseFailure               // no choice, or content that is not JSON
    | NoUsage                    // ValueError("No usage data in response")
    | NotAnObject                // AttributeError from `data.get` on a non-dict
    | InvalidPriority(value: Json) // ValueError from `PriorityLevel(...)`

  /** `AIResponse`: the fields are taken from the decoded object, unvalidated except for priority. */
  datatype AiSuggestion = AiSuggestion(suggestedText: Json, priority: Priority, dueTimeSuggestion: Json,
                                       costCents: nat, inputTokens: nat, outputTokens: nat)

  /** The priority string the model asked for, `"medium"` when the key is missing. */
  function PriorityField(fields: map<string, Json>): Json {
    Get(fields, "priority", JStr("medium"))
  }

  predicate Unparsed(c: Completion) {
    c.Completion? && (|c.contents| == 0 || (c.contents[0].Some? && |c.contents[0].value| > 0 && c.decoded.Unparsable?))
  }

  predicate EmptyContent(c: Completion) {
    c.Completion? && |c.contents| > 0 && (c.contents[0].None? || |c.contents[0].value| == 0)
  }

  /** A reply that gets past every check before the priority: a non-empty first message decoding to an object, with usage. */
  predicate WellFormedReply(c: Completion) {
    && c.Completion? && !EmptyContent(c) && !Unparsed(c) && c.usage.Some?
    && c.decoded.Parsed? && c.decoded.value.JObject?
  }

  /** The post-call part of `suggest_reminder`. */
  function SuggestReminder(c: Completion, reminderText: string): (r: Result<AiSuggestion, AiError>)
    ensures r == Err(ApiFailure) <==> c.CallFailed?
    ensures r == Err(EmptyResponse) <==> EmptyContent(c)
    ensures r == Err(ParseFailure) <==> Unparsed(c)
    ensures r == Err(NoUsage) <==> c.Completion? && !EmptyContent(c) && !Unparsed(c) && c.usage.None?
    ensures r == Err(NotAnObject) <==> && c.Completion? && !EmptyContent(c) && !Unparsed(c) && c.usage.Some?
                                       && c.decoded.Parsed? && !c.decoded.value.JObject?
    ensures r.Ok? <==> && WellFormedReply(c)
                       && PriorityField(c.decoded.value.fields).JStr?
                       && FromValue(PriorityField(c.decoded.value.fields).s).Some?
    ensures r.Err? && r.error.InvalidPriority? <==> && WellFormedReply(c)
                                                    && (!PriorityField(c.decoded.value.fields).JStr?
                                                        || FromValue(PriorityField(c.decoded.value.fields).s).None?)
    ensures r.Ok? ==> var fields := c.decoded.value.fields;
                      && r.value.suggestedText == (if "suggested_text" in fields then fields["suggested_text"] else JStr(reminderText))
                      && r.value.dueTimeSuggestion == (if "due_time_suggestion" in fields then fields["due_time_suggestion"] else JNull)
                      && PriorityField(fields) == JStr(Value(r.value.priority))
    ensures r.Ok? ==> && r.value.inputTokens == c.usage.value.promptTokens.GetOr(0)
                      && r.value.outputTokens == c.usage.value.completionTokens.GetOr(0)
                      && r.value.costCents == CalculateCost(r.value.inputTokens, r.value.outputTokens)
    ensures r.Err? && r.error.InvalidPriority? ==>
              && c.Completion? && c.decoded.Parsed? && c.decoded.value.JObject?
              && r.error.value == PriorityField(c.decoded.value.fields)
              && (!r.error.value.JStr? || FromValue(r.error.value.s).None?)
  {
    match c
    case CallFailed => Err(ApiFailure)
    case Completion(contents, decoded, usage) =>
      if |contents| == 0 then Err(ParseFailure)
      else if contents[0].None? || |contents[0].value| == 0 then Err(EmptyResponse)
      else if decoded.Unparsable? then Err(ParseFailure)
      else if usage.None? then Err(NoUsage)
      else if !decoded.value.JObject? then Err(NotAnObject)
      else
        var fields := decoded.value.fields;
        var inputTokens := usage.value.promptTokens.GetOr(0);
        var outputTokens := usage.value.completionTokens.GetOr(0);
        var p := PriorityField(fields);
        if !p.JStr? || FromValue(p.s).None? then Err(InvalidPriority(p))
        else
          Ok(AiSuggestion(Get(fields, "suggested_text", JStr(reminderText)), FromValue(p.s).value,
                          Get(fields, "due_time_suggestion", JNull),
                          CalculateCost(inputTokens, outputTokens), inputTokens, outputTokens))
  }

  /** A reply object with none of the three keys keeps the text, at medium priority, with no due suggestion. */
  lemma MissingFieldsDefault(content: string, reminderText: string, u: Usage)
    requires |content| > 0
    ensures SuggestReminder(Completion([Some(content)], Parsed(JObject(map[])), Some(u)), reminderText)
            == Ok(AiSuggestion(JStr(reminderText), Medium, JNull,
                               CalculateCost(u.promptTokens.GetOr(0), u.completionTokens.GetOr(0)),
                               u.promptTokens.GetOr(0), u.completionTokens.GetOr(0)))
  {
  }

  /** The reply of `test_suggest_reminder_success`. */
  lemma SampleCompletion(content: string)
    requires |content| > 0
    ensures var fields := map["suggested_text" := JStr("Call mom tomorrow"), "priority" := JStr("high"),
                              "due_time_suggestion" := JStr("tomorrow 3pm")];
            SuggestReminder(Completion([Some(content)], Parsed(JObject(fields)), Some(Usage(Some(50), Some(20)))), "call mom")
            == Ok(AiSuggestion(JStr("Call mom tomorrow"), High, JStr("tomorrow 3pm"), 1, 50, 20))
  {
    MinimumCharge(50, 20);
  }

  /** A priority outside the three values is refused, never read as medium. */
  lemma StrictPriority(content: string, fields: map<string, Json>, u: Usage, reminderText: string)
    requires |content| > 0
    requires "priority" in fields && fields["priority"] == JStr("urgent")
    ensures SuggestReminder(Completion([Some(content)], Parsed(JObject(fields)), Some(u)), reminderText)
            == Err(InvalidPriority(JStr("urgent")))
  {
  }
}
