/**
 * The chat API's `POST` handler (src/app/api/chat/route.ts) up to the point
 * where it calls the language-model API: the client key taken from
 * `x-forwarded-for`, the rate check that runs before any validation, the 429
 * answer with its wait in whole seconds, the two 400 answers, and the message
 * list handed upstream (system prompt, history, user message).
 */
module ChatRoute {
  import opened Common
  import opened Strings
  import opened Profile
  import opened RateLimit

  /** One message of the upstream conversation. */
  datatype ChatMessage = ChatMessage(role: string, content: string)

  /** The request body's `history` property: missing, an array, or some other JSON value. */
  datatype HistoryValue = HistoryAbsent | HistoryArray(items: seq<ChatMessage>) | HistoryOther

  datatype ChatRequest = ChatRequest(message: Option<string>, userProfile: Option<UserProfile>, history: HistoryValue)

  /** The request body: JSON that parsed into a request, or the error that parsing threw. */
  datatype Body = Unreadable(err: Thrown) | Json(request: ChatRequest)

  /** The handler's answers. `Forwarded` is the point where the language-model API is called. */
  datatype Response =
    | RateLimited(retrySeconds: int)
    | BadRequest(error: string)
    | ServerError(error: string)
    | Forwarded(upstream: seq<ChatMessage>)
  {
    function Status(): int
    {
      match this
      case RateLimited(_) => 429
      case BadRequest(_) => 400
      case ServerError(_) => 500
      case Forwarded(_) => 200
    }
  }

  /**
   * The limiter key: the header's text up to its first comma, untrimmed, or
   * `"unknown"` when the header is absent or empty.
   */
  function ClientKey(forwardedFor: Option<string>): (key: string)
    ensures !Truthy(forwardedFor) ==> key == "unknown"
    ensures Truthy(forwardedFor) ==>
      && StartsWith(forwardedFor.value, key)
      && ',' !in key
      && (|key| == |forwardedFor.value| || forwardedFor.value[|key|] == ',')
  {
    if Truthy(forwardedFor) then
      SplitFirstPiece(forwardedFor.value, ',');
      Split(forwardedFor.value, ',')[0]
    else
      "unknown"
  }

  /** `Math.ceil(ms / 1000)`: the wait in whole seconds, rounded up. */
  function CeilSeconds(ms: int): (s: int)
    ensures (s - 1) * 1000 < ms <= s * 1000
  {
    -((-ms) / 1000)
  }

  /** A refused request waits between 0 and 60 seconds when its window began no later than now. */
  lemma {:induction false} RefusalSecondsInRange(log: map<string, Entry>, ip: string, now: int)
    requires ip in log && log[ip].timestamp <= now
    requires !Consume(log, ip, now).decision.isAllowed
    ensures 0 <= CeilSeconds(Consume(log, ip, now).decision.timeRemaining) <= 60
  {
    var ms := Consume(log, ip, now).decision.timeRemaining;
    assert 0 <= ms <= WindowMs;
  }

  /** A list field of the profile as the prompt shows it: `xs?.join(', ') || 'None specified'`. */
  function ListText(xs: Option<seq<string>>): (r: string)
    ensures xs.None? ==> r == "None specified"
    ensures xs.Some? && Join(xs.value, ", ") != "" ==> r == Join(xs.value, ", ")
    ensures xs.Some? && Join(xs.value, ", ") == "" ==> r == "None specified"
  {
    match xs
    case None => "None specified"
    case Some(items) => OrElse(Some(Join(items, ", ")), "None specified")
  }

  const PromptIntro: string :=
    "You are a knowledgeable and helpful nutrition assistant. Here's important information about the user:\n"

  const PromptRules: string :=
    "\n\nAlways consider these preferences and restrictions when providing advice. Be friendly and supportive "
    + "while ensuring all recommendations are safe and appropriate for the user's profile.\n\n"
    + "Format your responses using these rules:\n"
    + "1. Use \"###Title###\" to create clear section headers (e.g., ###Recipe### or ###Ingredients### or ###Instructions###)\n"
    + "2. For lists of ingredients, use bullet points with \"-\" at the start of each line\n"
    + "3. For step-by-step instructions, use numbered steps (1., 2., etc.)\n"
    + "4. Keep paragraphs short and use line breaks for better readability\n"
    + "5. For recipes, always structure them as:\n"
    + "   ###Recipe Name###\n"
    + "   Brief description or context\n"
    + "   ###Ingredients###\n"
    + "   - List ingredients with quantities\n"
    + "   ###Instructions###\n"
    + "   1. Step one\n"
    + "   2. Step two\n"
    + "   etc.\n"
    + "   ###Nutritional Notes### (if applicable)\n"
    + "   Additional information about nutrition, variations, or tips"

  /** The nine profile lines of the system prompt, in the order the prompt lists them. */
  function ProfileLines(p: UserProfile): (lines: seq<string>)
    ensures |lines| == 9
    ensures lines[0] == "- Dietary preferences: " + ListText(p.dietaryPreferences)
    ensures lines[1] == "- Allergies: " + ListText(p.allergies)
    ensures lines[2] == "- Health goals: " + ListText(p.healthGoals)
    ensures lines[3] == "- Medical conditions: " + ListText(p.medicalConditions)
    ensures lines[4] == "- Favorite cuisines: " + ListText(p.favoriteCuisines)
    ensures lines[5] == "- Disliked ingredients: " + ListText(p.dislikedIngredients)
    ensures lines[6] == "- Activity level: " + OrElse(p.activityLevel, "Not specified")
    ensures lines[7] == "- Cooking experience: " + OrElse(p.cookingExperience, "Not specified")
    ensures lines[8] == "- Meal plan preference: " + OrElse(p.mealPlanPreference, "Not specified")
  {
    [ "- Dietary preferences: " + ListText(p.dietaryPreferences),
      "- Allergies: " + ListText(p.allergies),
      "- Health goals: " + ListText(p.healthGoals),
      "- Medical conditions: " + ListText(p.medicalConditions),
      "- Favorite cuisines: " + ListText(p.favoriteCuisines),
      "- Disliked ingredients: " + ListText(p.dislikedIngredients),
      "- Activity level: " + OrElse(p.activityLevel, "Not specified"),
      "- Cooking experience: " + OrElse(p.cookingExperience, "Not specified"),
      "- Meal plan preference: " + OrElse(p.mealPlanPreference, "Not specified") ]
  }

  /** The system message: the introduction, the profile lines one per line, then the formatting rules. */
  function SystemPrompt(p: UserProfile): (prompt: string)
    ensures StartsWith(prompt, PromptIntro)
    ensures |prompt| >= |PromptIntro| + |PromptRules|
    ensures prompt[|prompt| - |PromptRules|..] == PromptRules
    ensures prompt[|PromptIntro|..|prompt| - |PromptRules|] == Join(ProfileLines(p), "\n")
  {
    Framed(PromptIntro, Join(ProfileLines(p), "\n"), PromptRules);
    PromptIntro + Join(ProfileLines(p), "\n") + PromptRules
  }

  /** The history the route forwards: an array as given, anything else as no history. */
  function HistoryItems(h: HistoryValue): (items: seq<ChatMessage>)
    ensures h.HistoryArray? ==> items == h.items
    ensures !h.HistoryArray? ==> items == []
  {
    if h.HistoryArray? then h.items else []
  }

  /** The upstream message list: the system prompt first, the history in order, the user's message last. */
  function UpstreamMessages(system: string, history: HistoryValue, message: string): (msgs: seq<ChatMessage>)
    ensures |msgs| == |HistoryItems(history)| + 2
    ensures msgs[0] == ChatMessage("system", system)
    ensures msgs[|msgs| - 1] == ChatMessage("user", message)
    ensures msgs[1..|msgs| - 1] == HistoryItems(history)
  {
    [ChatMessage("system", system)] + HistoryItems(history) + [ChatMessage("user", message)]
  }

  /** `!message?.trim()`: the message is missing or nothing but white space. */
  predicate MessageBlank(message: Option<string>): (blank: bool)
    ensures blank <==> message.None? || AllSpace(message.value)
  {
    if message.None? then true
    else
      TrimEmptyIffAllSpace(message.value);
      Trim(message.value) == ""
  }

  /** The answer to a request the limiter let through: body errors first, then the upstream call. */
  function Respond(body: Body): (r: Response)
    ensures r.ServerError? <==> body.Unreadable?
    ensures r.BadRequest? <==>
      body.Json? && (MessageBlank(body.request.message) || body.request.userProfile.None?)
    ensures r.BadRequest? ==>
      r.error == if MessageBlank(body.request.message) then "Message is required" else "User profile is required"
    ensures r.Forwarded? <==>
      body.Json? && !MessageBlank(body.request.message) && body.request.userProfile.Some?
    ensures r.Forwarded? ==>
      && body.Json? && body.request.message.Some? && body.request.userProfile.Some?
      && r.upstream == UpstreamMessages(SystemPrompt(body.request.userProfile.value), body.request.history,
                                        body.request.message.value)
  {
    match body
    case Unreadable(err) => ServerError(MessageOr(err, "Failed to process chat request"))
    case Json(req) =>
      if MessageBlank(req.message) then BadRequest("Message is required")
      else if req.userProfile.None? then BadRequest("User profile is required")
      else Forwarded(UpstreamMessages(SystemPrompt(req.userProfile.value), req.history, req.message.value))
  }

  /**
   * The handler: the rate check runs first and is recorded whatever the body
   * holds; a refusal answers 429 with the wait rounded up to whole seconds.
   */
  method HandleChat(limiter: RateLimiter, forwardedFor: Option<string>, body: Body, now: int)
    returns (resp: Response)
    requires limiter.Valid()
    modifies limiter
    ensures limiter.Valid()
    ensures limiter.log == Consume(old(limiter.log), ClientKey(forwardedFor), now).log
    ensures var d := Consume(old(limiter.log), ClientKey(forwardedFor), now).decision;
      resp == if d.isAllowed then Respond(body) else RateLimited(CeilSeconds(d.timeRemaining))
  {
    var ip := ClientKey(forwardedFor);
    var info := limiter.Check(ip, now);
    if !info.isAllowed {
      return RateLimited(CeilSeconds(info.timeRemaining));
    }
    resp := Respond(body);
  }
}
