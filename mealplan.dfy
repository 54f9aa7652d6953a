/**
 * `POST /api/generate-mealplan`: build a prompt from the request, call the language model with
 * a bounded retry on rate limiting, strip Markdown code fences from the answer and parse it.
 * The model call and `JSON.parse` are parameters: a scripted outcome per attempt, and a parser.
 */
module MealPlan {
  import opened Wrappers
  import opened JsText
  import opened Http

  /** An error thrown by the model client; `status` is its HTTP status, when it has one. */
  datatype CallError = CallError(status: Option<int>, message: string)

  /** The part of a chat completion the route reads: each choice's `message.content`. */
  datatype Completion = Completion(choices: seq<Option<string>>)

  /** The fields destructured from the request's JSON body. */
  datatype MealRequest = MealRequest(
    dietType: JsValue, calories: JsValue, allergies: JsValue, cuisine: JsValue, snacks: JsValue)

  const DefaultRetries := 2
  const DefaultDelay := 2000

  /** The error `retry` throws when its loop runs zero times. */
  const RetryFellThrough := CallError(None, "Retry function failed unexpectedly.")

  /** The outcome is an error with status 429. */
  predicate IsRateLimit<T>(outcome: Result<T, CallError>) {
    outcome.Err? && outcome.error.status == Some(429)
  }

  // ---------------------------------------------------------------------------------------
  // retry
  // ---------------------------------------------------------------------------------------

  /**
   * `retry(fn, retries, delay)`: call `fn` (attempt `i` gets `fn(i)`) until it succeeds, fails
   * with a status other than 429, or `retries + 1` attempts are used up, sleeping `delay` ms
   * after each rate-limited attempt that is not the last. Returns the outcome it stops on,
   * the number of calls and the total time slept.
   */
  method Retry<T>(fn: nat -> Result<T, CallError>, retries: int, delay: nat)
    returns (r: Result<T, CallError>, calls: nat, waited: nat)
    ensures retries < 0 ==> r == Err(RetryFellThrough) && calls == 0 && waited == 0
    ensures retries >= 0 ==> 1 <= calls <= retries + 1 && r == fn(calls - 1)
    ensures forall i :: 0 <= i < calls - 1 ==> IsRateLimit(fn(i))
    ensures retries >= 0 && r.Err? ==> !IsRateLimit(r) || calls == retries + 1
    ensures waited == if calls == 0 then 0 else (calls - 1) * delay
  {
    calls, waited := 0, 0;
    var i := 0;
    while i <= retries
      invariant 0 <= i && (retries >= 0 ==> i <= retries) && (retries < 0 ==> i == 0)
      invariant calls == i && waited == i * delay
      invariant forall j :: 0 <= j < i ==> IsRateLimit(fn(j))
    {
      var outcome := fn(i);
      calls := calls + 1;
      if outcome.Ok? {
        return outcome, calls, waited;
      }
      if i == retries || outcome.error.status != Some(429) {
        return outcome, calls, waited;
      }
      waited := waited + delay;  // setTimeout(res, delay)
      i := i + 1;
    }
    r := Err(RetryFellThrough);
  }

  /**
   * The rate-limit scenario: two 429s then a success give the success value after exactly
   * three calls and two delays.
   */
  method RateLimitedTwiceThenSucceeds<T>(value: T, delay: nat) returns (r: Result<T, CallError>, calls: nat, waited: nat)
    ensures r == Ok(value) && calls == 3 && waited == 2 * delay
  {
    var script := (i: nat) => if i < 2 then Err(CallError(Some(429), "Rate limit reached")) else Ok(value);
    r, calls, waited := Retry(script, DefaultRetries, delay);
  }

  /** Any other error is thrown on the first attempt, without a second call or a delay. */
  method OtherErrorIsNotRetried<T>(e: CallError, retries: nat, delay: nat) returns (r: Result<T, CallError>, calls: nat, waited: nat)
    requires e.status != Some(429)
    ensures r == Err(e) && calls == 1 && waited == 0
  {
    var script: nat -> Result<T, CallError> := (i: nat) => Err(e);
    r, calls, waited := Retry(script, retries, delay);
    assert !IsRateLimit(script(0));
  }

  // ---------------------------------------------------------------------------------------
  // The prompt
  // ---------------------------------------------------------------------------------------

  /** The prompt's opening paragraph and preferences, from the rendered field values. */
  function PromptHead(dietType: string, calories: string, allergies: string, cuisine: string): string {
    "\n      You are a professional nutritionist. Create a 7-day meal plan for an individual following a "
    + dietType + " diet aiming for " + calories + " calories per day.\n"
    + "      \n"
    + "      Allergies or restrictions: " + allergies + ".\n"
    + "      Preferred cuisine: " + cuisine + ".\n"
  }

  /** The line answering whether snacks are included. */
  function SnacksLine(snacks: bool): string {
    "Snacks included: " + (if snacks then "yes" else "no") + "."
  }

  /** The last item of the list of meals: a snacks item only when snacks are asked for. */
  function SnacksItem(snacks: bool): string {
    if snacks then "- Snacks" else ""
  }

  const MealList :=
    "\n      \n"
    + "      For each day, provide:\n"
    + "        - Breakfast\n"
    + "        - Lunch\n"
    + "        - Dinner\n"
    + "        "

  /** The snacks answer and the list of meals per day. */
  function PromptMeals(snacks: bool): string {
    "      " + SnacksLine(snacks) + MealList + SnacksItem(snacks) + "\n"
  }

  /** The fixed instructions and example that close the prompt. */
  const PromptTail :=
    "      \n"
    + "      Use simple ingredients and provide brief instructions. Include approximate calorie counts for each meal.\n"
    + "      \n"
    + "      Structure the response as a JSON object where each day is a key, and each meal (breakfast, lunch, dinner, snacks) is a sub-key. Example:\n"
    + "      \n"
    + "      {\n"
    + "        \"Monday\": {\n"
    + "          \"Breakfast\": \"Oatmeal with fruits - 350 calories\",\n"
    + "          \"Lunch\": \"Grilled chicken salad - 500 calories\",\n"
    + "          \"Dinner\": \"Steamed vegetables with quinoa - 600 calories\",\n"
    + "          \"Snacks\": \"Greek yogurt - 150 calories\"\n"
    + "        },\n"
    + "        ...\n"
    + "      }\n"
    + "\n"
    + "      Return just the JSON with no extra commentaries and no backticks.\n"
    + "    "

  /** The values the template literal interpolates, rendered as `${...}` renders them. */
  datatype PromptFields = PromptFields(
    dietType: string, calories: string, allergies: string, cuisine: string, snacks: bool)

  /**
   * The request's fields as the prompt shows them: falsy allergies read "none", a falsy cuisine
   * "no preference", and snacks count only through their truthiness.
   */
  function Fields(r: MealRequest): PromptFields {
    PromptFields(ToString(r.dietType), ToString(r.calories),
                 OrElse(r.allergies, "none"), OrElse(r.cuisine, "no preference"), Truthy(r.snacks))
  }

  /** The template literal with its placeholders filled in. */
  function FillTemplate(f: PromptFields): string {
    PromptHead(f.dietType, f.calories, f.allergies, f.cuisine) + PromptMeals(f.snacks) + PromptTail
  }

  /** The prompt the route sends to the model. */
  function Prompt(r: MealRequest): string {
    FillTemplate(Fields(r))
  }

  /** `w` occurs in `s` at index `i`. */
  predicate OccursAt(s: string, w: string, i: int) {
    0 <= i <= |s| - |w| && s[i..i + |w|] == w
  }

  /** `w` occurs in `s`. */
  ghost predicate Contains(s: string, w: string) {
    exists i :: OccursAt(s, w, i)
  }

  lemma ContainsInfix(a: string, w: string, c: string)
    ensures Contains(a + w + c, w)
  {
    assert OccursAt(a + w + c, w, |a|);
  }

  lemma {:induction false} ContainsWithin(s: string, w: string, a: string, c: string)
    requires Contains(s, w)
    ensures Contains(a + s + c, w)
  {
    var i :| OccursAt(s, w, i);
    assert (a + s + c)[|a| + i..|a| + i + |w|] == s[i..i + |w|];
    assert OccursAt(a + s + c, w, |a| + i);
  }

  /**
   * Missing or empty allergies or cuisine fill the template exactly as "none" and
   * "no preference" would, and any two snacks values of the same truthiness fill it alike;
   * so the prompts, `FillTemplate` of these fields, are equal too.
   */
  lemma PromptDefaults(r: MealRequest)
    ensures !Truthy(r.allergies) ==> Fields(r) == Fields(r.(allergies := Str("none")))
    ensures !Truthy(r.cuisine) ==> Fields(r) == Fields(r.(cuisine := Str("no preference")))
    ensures Fields(r) == Fields(r.(snacks := Bool(Truthy(r.snacks))))
  {
  }

  /** Both the answer line and the last item occur in a list of meals built around them. */
  lemma {:induction false} MealsShape(indent: string, line: string, list: string, item: string, eol: string)
    ensures Contains(indent + line + list + item + eol, line)
    ensures Contains(indent + line + list + item + eol, item)
  {
    assert indent + line + list + item + eol == indent + line + (list + item + eol);
    ContainsInfix(indent, line, list + item + eol);
    ContainsInfix(indent + line + list, item, eol);
  }

  /** In a text whose only capital S sits at index 6, that S is where every S is. */
  lemma LoneCapitalS(s: string, rest: string, j: int)
    requires s == "      S" + rest && 'S' !in rest
    requires 0 <= j < |s| && s[j] == 'S'
    ensures j == 6
  {
  }

  /**
   * A text that opens with six spaces and its only capital S, and whose 24th character is an
   * "n", contains neither "- Snacks" nor "Snacks included: yes.".
   */
  lemma NoSnacksAfterLoneS(s: string, rest: string)
    requires s == "      S" + rest && 'S' !in rest
    requires |rest| > 16 && rest[16] == 'n'
    ensures !Contains(s, "- Snacks")
    ensures !Contains(s, "Snacks included: yes.")
  {
    forall i | OccursAt(s, "- Snacks", i)
      ensures false
    {
      assert s[i] == s[i..i + 8][0] == '-';
      assert s[i + 2] == s[i..i + 8][2] == 'S';
      LoneCapitalS(s, rest, i + 2);
    }
    forall i | OccursAt(s, "Snacks included: yes.", i)
      ensures false
    {
      assert s[23] == rest[16];
      assert s[i + 17] == s[i..i + 21][17] == 'y';
      assert s[i] == s[i..i + 21][0] == 'S';
      LoneCapitalS(s, rest, i);
    }
  }

  /** Without snacks the list of meals opens with six spaces and the S of its answer. */
  lemma MealsWithoutSnacks()
    ensures PromptMeals(false) == "      S" + ("nacks included: no." + MealList + "\n")
  {
    assert SnacksLine(false) == "S" + "nacks included: no.";
    assert PromptMeals(false) == "      " + "S" + "nacks included: no." + MealList + "\n";
  }

  /** No meal of the list begins with, or contains, a capital S. */
  lemma MealListHasNoCapitalS()
    ensures 'S' !in MealList
  {
  }

  /**
   * Without snacks the list of meals has neither a snacks item nor a "yes" answer: its only
   * capital S is the one that opens "Snacks included: no.".
   */
  lemma MealsOmitSnacks()
    ensures !Contains(PromptMeals(false), "- Snacks")
    ensures !Contains(PromptMeals(false), "Snacks included: yes.")
  {
    var rest := "nacks included: no." + MealList + "\n";
    MealsWithoutSnacks();
    MealListHasNoCapitalS();
    assert 'S' !in rest;
    NoSnacksAfterLoneS(PromptMeals(false), rest);
  }

  /**
   * The snacks answer and list of meals: "yes" and a snacks item exactly when snacks are asked
   * for, and "no" otherwise.
   */
  lemma {:induction false} MealsMentionSnacks(snacks: bool)
    ensures Contains(PromptMeals(snacks), "Snacks included: yes.") <==> snacks
    ensures Contains(PromptMeals(snacks), "- Snacks") <==> snacks
    ensures !snacks ==> Contains(PromptMeals(snacks), "Snacks included: no.")
  {
    MealsShape("      ", SnacksLine(snacks), MealList, SnacksItem(snacks), "\n");
    assert SnacksLine(snacks) == if snacks then "Snacks included: yes." else "Snacks included: no.";
    if !snacks {
      MealsOmitSnacks();
    }
  }

  /** With snacks the list of meals is 9 characters longer: the 8-character item, and "yes" for "no". */
  lemma MealsLength()
    ensures |PromptMeals(true)| == |PromptMeals(false)| + 9
  {
  }

  /**
   * The prompt says "Snacks included: yes." and ends its list of meals with a "- Snacks" item
   * when snacks are asked for, and says "Snacks included: no." otherwise.
   */
  lemma {:induction false} PromptSnacks(f: PromptFields)
    ensures f.snacks ==>
      Contains(FillTemplate(f), "Snacks included: yes.") && Contains(FillTemplate(f), "- Snacks")
    ensures !f.snacks ==> Contains(FillTemplate(f), "Snacks included: no.")
  {
    var head := PromptHead(f.dietType, f.calories, f.allergies, f.cuisine);
    MealsMentionSnacks(f.snacks);
    if f.snacks {
      ContainsWithin(PromptMeals(f.snacks), "Snacks included: yes.", head, PromptTail);
      ContainsWithin(PromptMeals(f.snacks), "- Snacks", head, PromptTail);
    } else {
      ContainsWithin(PromptMeals(f.snacks), "Snacks included: no.", head, PromptTail);
    }
  }

  /**
   * Without snacks the prompt is 9 characters shorter than the same prompt with them: the
   * snacks item, and "no" for "yes".
   */
  lemma PromptSnacksLength(f: PromptFields)
    requires !f.snacks
    ensures |FillTemplate(f)| + 9 == |FillTemplate(f.(snacks := true))|
  {
    MealsLength();
  }

  // ---------------------------------------------------------------------------------------
  // Code fences
  // ---------------------------------------------------------------------------------------

  /** A fence followed by "json" is a ```json fence. */
  lemma FenceThenTag(s: string)
    requires StartsWith(s, "```")
    ensures StartsWith(s[3..], "json") ==> StartsWith(s, "```json")
  {
    if StartsWith(s[3..], "json") {
      assert s[..7] == s[..3] + s[3..][..4];
    }
  }

  /**
   * `.replace(/^```(?:json)?/, "")`: what is removed is a prefix of `s` that is "```json",
   * "```" or nothing, and the longest of the three that `s` starts with (the `json` tag is
   * optional but greedy).
   */
  function StripLeadingFence(s: string): (r: string)
    ensures |r| <= |s| && s == s[..|s| - |r|] + r
    ensures s[..|s| - |r|] in ["```json", "```", ""]
    ensures s[..|s| - |r|] == "```" ==> !StartsWith(r, "json")
    ensures s[..|s| - |r|] == "" ==> !StartsWith(s, "```")
  {
    if StartsWith(s, "```json") then s[7..]
    else if StartsWith(s, "```") then
      FenceThenTag(s);
      s[3..]
    else s
  }

  /**
   * `.replace(/```$/, "")`: what is removed is a suffix of `s` that is "```" or nothing, and
   * it is "```" whenever `s` ends with one.
   */
  function StripTrailingFence(s: string): (r: string)
    ensures |r| <= |s| && s == r + s[|r|..]
    ensures s[|r|..] in ["```", ""]
    ensures s[|r|..] == "" ==> !EndsWith(s, "```")
  {
    if EndsWith(s, "```") then s[..|s| - 3] else s
  }

  /** The model's text after trimming, removing one opening and one closing fence, and trimming again. */
  function StripFences(s: string): (r: string)
    ensures Trimmed(r)
  {
    TrimSpec(StripTrailingFence(StripLeadingFence(Trim(s))));
    Trim(StripTrailingFence(StripLeadingFence(Trim(s))))
  }

  /** Text with no fence at either end is only trimmed. */
  lemma UnfencedTextIsOnlyTrimmed(s: string)
    requires !StartsWith(Trim(s), "```") && !EndsWith(Trim(s), "```")
    ensures StripFences(s) == Trim(s)
  {
    TrimIdempotent(s);
  }

  /** A string that starts and ends with a backtick has no white space to trim. */
  lemma BacktickEndsAreTrimmed(w: string)
    requires |w| > 0 && w[0] == '`' && w[|w| - 1] == '`'
    ensures Trim(w) == w
  {
  }

  lemma StripTrailingOneFence(b: string)
    ensures StripTrailingFence(b + "```") == b
  {
  }

  /** An opening ```json fence is removed with its tag. */
  lemma JsonFenceOpens(x: string)
    ensures StripLeadingFence("```json" + x) == x
  {
  }

  /** A plain opening ``` fence is removed alone when what follows does not start with "json". */
  lemma PlainFenceOpens(x: string)
    requires !StartsWith(x, "json")
    ensures StripLeadingFence("```" + x) == x
  {
    var w := "```" + x;
    assert !StartsWith(w, "```json") by {
      if |x| >= 4 {
        assert x[..4] == w[3..7];
      }
    }
    assert StartsWith(w, "```") && w[3..] == x;
  }

  /** A closing fence cannot complete a "json" the body does not start with. */
  lemma NotJsonBeforeFence(body: string)
    requires !StartsWith(body, "json")
    ensures !StartsWith(body + "```", "json")
  {
    var t := body + "```";
    if |body| >= 4 {
      assert t[..4] == body[..4];
    } else if |t| >= 4 {
      assert t[|body|] == '`' && "json"[|body|] != '`';
      assert t[..4][|body|] != "json"[|body|];
    }
  }

  /** When the trimmed text is the text itself, stripping is removing the fences and trimming. */
  lemma StripFencesOfTrimmed(s: string, inner: string)
    requires Trim(s) == s && StripTrailingFence(StripLeadingFence(s)) == inner
    ensures StripFences(s) == Trim(inner)
  {
  }

  /** A body wrapped in a ```json fence comes out as the trimmed body. */
  lemma JsonFenceStripped(body: string)
    ensures StripFences("```json" + body + "```") == Trim(body)
  {
    var w := "```json" + body + "```";
    BacktickEndsAreTrimmed(w);
    assert w == "```json" + (body + "```");
    JsonFenceOpens(body + "```");
    StripTrailingOneFence(body);
    StripFencesOfTrimmed(w, body);
  }

  /**
   * A body wrapped in a plain ``` fence comes out as the trimmed body, unless the body itself
   * starts with "json": that word is then taken for the fence's tag and removed too.
   */
  lemma PlainFenceStripped(body: string)
    ensures !StartsWith(body, "json") ==> StripFences("```" + body + "```") == Trim(body)
    ensures StartsWith(body, "json") ==> StripFences("```" + body + "```") == Trim(body[4..])
  {
    var w := "```" + body + "```";
    BacktickEndsAreTrimmed(w);
    if StartsWith(body, "json") {
      assert w == "```json" + (body[4..] + "```");
      JsonFenceOpens(body[4..] + "```");
      StripTrailingOneFence(body[4..]);
      StripFencesOfTrimmed(w, body[4..]);
    } else {
      assert w == "```" + (body + "```");
      NotJsonBeforeFence(body);
      PlainFenceOpens(body + "```");
      StripTrailingOneFence(body);
      StripFencesOfTrimmed(w, body);
    }
  }

  // ---------------------------------------------------------------------------------------
  // Responses
  // ---------------------------------------------------------------------------------------

  const ParseFailed := Response(500, ErrorBody("Failed to parse meal plan. Please try again."))
  const RateLimited := Response(429, ErrorBody("Rate limit exceeded. Please wait and try again."))
  const GenerationFailed := Response(500, ErrorBody("Failed to generate meal plan. Please try again later."))

  /** The outer `catch`: a 429 error becomes a 429 response, every other error a 500. */
  function ErrorResponse(e: CallError): (r: Response)
    ensures r.status == 429 <==> e.status == Some(429)
    ensures r.status != 429 ==> r.status == 500 && r != ParseFailed
  {
    if e.status == Some(429) then RateLimited else GenerationFailed
  }

  /** `typeof v === "object" && v !== null`: an object or an array. */
  predicate IsObject(v: JsonValue) {
    v.JObject? || v.JArray?
  }

  /** The text handed to `JSON.parse`: the first choice's content (empty when null), fences stripped. */
  function AiContent(c: Completion): string
    requires |c.choices| > 0
  {
    StripFences(c.choices[0].GetOr(""))
  }

  /** The completion was read and parsed into an object. */
  predicate Parses(c: Completion, parse: string -> Option<JsonValue>) {
    |c.choices| > 0 && parse(AiContent(c)).Some? && IsObject(parse(AiContent(c)).value)
  }

  /**
   * The response for the outcome `retry` ended with. A meal plan is returned exactly when the
   * text parses to an object; a parse failure or a non-object is "Failed to parse meal plan";
   * an error gives 429 when its status is 429 and 500 otherwise, and a completion with no
   * choices throws a TypeError, which has no status.
   */
  function CompletionResponse(outcome: Result<Completion, CallError>, parse: string -> Option<JsonValue>): (r: Response)
    ensures r.status == 200 <==> outcome.Ok? && Parses(outcome.value, parse)
    ensures r.status == 200 ==> r.body == MealPlanBody(parse(AiContent(outcome.value)).value)
    ensures r == ParseFailed <==> outcome.Ok? && |outcome.value.choices| > 0 && !Parses(outcome.value, parse)
    ensures r.status == 429 <==> IsRateLimit(outcome)
    ensures r.status == 200 || r.status == 429 || r.status == 500
  {
    match outcome
    case Err(e) => ErrorResponse(e)
    case Ok(completion) =>
      if |completion.choices| == 0 then
        ErrorResponse(CallError(None, "Cannot read properties of undefined (reading 'message')"))
      else
        var text := AiContent(completion);
        match parse(text)
        case None => ParseFailed
        case Some(plan) => if IsObject(plan) then Response(200, MealPlanBody(plan)) else ParseFailed
  }

  /**
   * The handling of the outcome `retry` ended with, statement by statement as the route writes
   * it: read the first choice, strip its fences, parse it and check that it is an object;
   * errors go to the outer `catch`. `CompletionResponse` is the same handling written as one
   * expression, for contracts and lemmas to talk about; this method is proved to agree with it,
   * so the route's own statements are checked against that specification.
   */
  method Respond(outcome: Result<Completion, CallError>, parse: string -> Option<JsonValue>)
    returns (response: Response)
    ensures response == CompletionResponse(outcome, parse)
  {
    if outcome.Err? {
      return ErrorResponse(outcome.error);
    }
    var completion := outcome.value;
    if |completion.choices| == 0 {
      return ErrorResponse(CallError(None, "Cannot read properties of undefined (reading 'message')"));
    }
    var aiContent := StripFences(completion.choices[0].GetOr(""));
    var parsed := parse(aiContent);
    if parsed.None? || !IsObject(parsed.value) {
      return ParseFailed;
    }
    response := Response(200, MealPlanBody(parsed.value));
  }

  /**
   * What lines 64-119 promise for a given prompt: between one and three calls to the model,
   * 2000 ms waited before each call after the first, every call but the last rate-limited, the
   * last one rate-limited only when it was the third, and the answer taken from the last
   * outcome. A 429 answer therefore means every attempt was rate-limited.
   */
  ghost predicate Generated(prompt: string, complete: string -> nat -> Result<Completion, CallError>,
                            parse: string -> Option<JsonValue>, response: Response, calls: nat, waited: nat)
  {
    && 1 <= calls <= DefaultRetries + 1 && waited == (calls - 1) * DefaultDelay
    && (forall i :: 0 <= i < calls - 1 ==> IsRateLimit(complete(prompt)(i)))
    && (calls < DefaultRetries + 1 ==> !IsRateLimit(complete(prompt)(calls - 1)))
    && response == CompletionResponse(complete(prompt)(calls - 1), parse)
    && (response.status == 429 ==> calls == DefaultRetries + 1)
  }

  /**
   * Lines 64-119 for a given prompt: call the model through `retry` with the default three
   * attempts and 2000 ms delay, then answer from the outcome.
   */
  method Generate(prompt: string, complete: string -> nat -> Result<Completion, CallError>,
                  parse: string -> Option<JsonValue>)
    returns (response: Response, calls: nat, waited: nat)
    ensures Generated(prompt, complete, parse, response, calls, waited)
  {
    var outcome;
    outcome, calls, waited := Retry(complete(prompt), DefaultRetries, DefaultDelay);
    response := Respond(outcome, parse);
  }

  /**
   * The route. `request` is the destructured JSON body (`None` when `request.json()` throws or
   * the body is `null`); `complete(prompt)(i)` is the model's answer to attempt `i`. `prompt`
   * is the text sent to the model.
   */
  method Post(request: Option<MealRequest>, complete: string -> nat -> Result<Completion, CallError>,
              parse: string -> Option<JsonValue>)
    returns (response: Response, prompt: string, calls: nat, waited: nat)
    ensures request.None? ==> response == GenerationFailed && calls == 0 && waited == 0
    ensures request.Some? ==> Generated(prompt, complete, parse, response, calls, waited)
    ensures request.Some? ==> prompt == Prompt(request.value)
  {
    if request.None? {
      return GenerationFailed, "", 0, 0;
    }
    prompt := Prompt(request.value);
    response, calls, waited := Generate(prompt, complete, parse);
  }
}
