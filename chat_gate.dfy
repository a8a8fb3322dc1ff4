/** The chat endpoint's message gate: a stateless early-return pipeline that checks the
    credential, the message, a blocklist of phrasings, then forwards the conversation to the
    language-model service and checks the reply against an allow-list of keywords before
    returning it.  The language-model service is an oracle: a function from the upstream
    message list to a completion outcome. */
module ChatGate {
  import opened Wrappers
  import opened Text
  import opened Patterns

  // ---------------------------------------------------------------------------------------
  // Data

  datatype Role = User | Assistant

  /** A prior turn as the chat widget sends it; its id and timestamp play no part here. */
  datatype HistoryMessage = HistoryMessage(role: Role, content: string)

  /** The request body after JSON parsing.  `None` stands for a property that is absent or
      null; an absent `language` is given as any string other than "ar" (it is only ever
      compared with "ar").  A body that parses to a number, string, boolean or array is a
      request whose properties are all absent. */
  datatype ChatbotRequest = ChatbotRequest(
    message: Option<string>,
    language: string,
    history: Option<seq<HistoryMessage>>)

  datatype UpstreamRole = SystemRole | UserRole | AssistantRole

  /** One entry of the message list sent to the language-model service. */
  datatype Turn = Turn(role: UpstreamRole, content: string)

  /** What the awaited completion call yields: the first choice's content (`None` when the
      choice, its message or its content is missing), an `OpenAI.APIError`, or any other
      exception. */
  datatype Completion = Completed(content: Option<string>) | ApiError | Thrown

  /** A JSON response body: `{ message }` or `{ error, message? }`. */
  datatype Body = Reply(message: string) | Failure(error: string, detail: Option<string>)

  datatype Response = Response(status: nat, body: Body)

  /** Where the pipeline stands before the upstream call: answered locally, or the message
      list to forward. */
  datatype Decision = Respond(response: Response) | Forward(turns: seq<Turn>)

  /** A whole request: the response, and the message lists sent upstream, in order. */
  datatype Exchange = Exchange(response: Response, calls: seq<seq<Turn>>)

  // ---------------------------------------------------------------------------------------
  // Constants

  /** Keywords of which a model reply must contain at least one (after lowering). */
  const RequiredKeywords: seq<string> := [
    "haian", "ibrahim", "webplayz", "zefoy", "portfolio", "laravel", "react", "next.js",
    "tishreen", "university", "lübeck", "germany", "freelance", "full stack",
    "developer", "experience", "years", "projects", "skills", "education",
    "github", "linkedin", "javascript", "typescript", "php", "mysql",
    "حيان", "إبراهيم", "جامعة", "تشرين", "ألمانيا", "مطور", "خبرة", "مشاريع", "مهارات"
  ]

  /** The phrases that mark a reply as the service's own refusal. */
  const RefusalPhraseEn := "i can only discuss " + "haian ibrahim"
  const RefusalPhraseAr := "يمكنني فقط مناقشة"

  /** The canned rejections; each opens with the refusal phrase of its language. */
  const RejectionEn := "I can only discuss " + "Haian Ibrahim"
    + "'s professional back" + "ground, projects, sk" + "ills, education, and"
    + " contact information" + ". Please ask me some" + "thing specific about"
    + " Haian's work or exp" + "erience."
  const RejectionAr := "يمكنني فقط مناقشة"
    + " الخلفية المهنية لحي" + "ان إبراهيم ومشاريعه " + "ومهاراته وتعليمه ومع"
    + "لومات الاتصال به. ير" + "جى سؤالي شيئاً محددا" + "ً عن عمل حيان أو خبر"
    + "ته."

  /** The fixed instruction prompt; its wording plays no part in the gate's decisions. */
  const PortfolioContext := "You are Haian's AI Assistant. You have ZERO FLEXIBILITY in your responses."
  const ReplyInArabic := "\n\nPlease respond in Arabic when the user communicates in Arabic."
  const ReplyInEnglish := "\n\nPlease respond in English."

  /** How many prior turns are forwarded. */
  const HistoryWindow := 5

  const KeyNotConfigured := Response(500, Failure("OpenAI API key not configured", None))
  const MessageRequired := Response(400, Failure("Message is required", None))
  const ServiceError := Response(500, Failure("OpenAI API error",
    Some("Sorry, I encountered an issue with the AI service. Please try again.")))
  const RequestFailed := Response(500, Failure("Failed to process request",
    Some("Sorry, I encountered an error. Please try again.")))

  /** The blocklist, in the source's order: English phrasings, English bypass attempts,
      Arabic phrasings, Arabic (dialectal) bypass attempts. */
  const ForbiddenPatterns: seq<Pattern> :=
    EnglishPatterns + EnglishBypassPatterns + ArabicPatterns + ArabicBypassPatterns

  const EnglishPatterns: seq<Pattern> := [
    Literal("how to"), Literal("how can i"), Literal("how do i"), Literal("teach me"),
    Literal("learn"), Literal("tutorial"), Literal("guide"), Literal("step by step"),
    NotFollowedBy("what is ", ["haian"]), NotFollowedBy("explain ", ["haian"]),
    NotFollowedBy("how does ", ["haian"]), Literal("best practices"), Literal("recommend"),
    Literal("should i"),
    NotFollowedBy("help me ", ["learn about haian", "contact haian", "understand haian"]),
    Literal("can you help with"), Literal("i want to be like"), Literal("become like"),
    Ordered("follow", "path"), Literal("roadmap"), Literal("course"), Literal("training"),
    Literal("show me"), Literal("give me"), Literal("provide"), Literal("create"),
    Literal("build"), Literal("make"), Literal("develop"), Literal("code"),
    Literal("program"), Literal("script"), Literal("example"), Literal("sample"),
    Literal("demo"), NotFollowedBy("tell me about ", ["haian"]),
    NotFollowedBy("what are ", ["haian"]), NotFollowedBy("list ", ["haian"])
  ]

  const EnglishBypassPatterns: seq<Pattern> := [
    Literal("wanna learn"), Literal("want to learn"), Literal("need to know"),
    Literal("could you teach"), Literal("would you show"), Literal("can you explain"),
    Literal("please help with"), Literal("i'm trying to"), Literal("how would you"),
    Literal("what would you"), Literal("if i wanted to"), Literal("suppose i want"),
    Literal("let's say i"), Literal("imagine i"), Literal("pretend i"),
    Literal("just curious about"), Literal("wondering about"), Literal("interested in"),
    Literal("fascinated by"), Literal("can u"), Literal("could u"), Literal("pls help"),
    Literal("plz help"), Literal("ur advice"), Literal("ur opinion"), Literal("u think"),
    Literal("wat is"), Literal("wot is"), Literal("whats"), Literal("hows"),
    Literal("y should"), Literal("y would")
  ]

  const ArabicPatterns: seq<Pattern> := [
    Literal("كيف"), Literal("كيفية"), Literal("طريقة"), Literal("علمني"),
    Literal("اريد ان اتعلم"), Literal("كيف اتعلم"), Literal("كيف يمكنني"), Literal("تعلم"),
    Literal("تعليم"), Literal("درس"), Literal("دروس"), Literal("دورة"), Literal("دورات"),
    Literal("شرح"), Literal("اشرح"),
    NotFollowedBySpaces("ما هو", "حيان"), NotFollowedBySpaces("ما هي", "حيان"),
    Literal("افضل الممارسات"), Literal("نصائح"), Literal("انصحني"), Literal("ساعدني"),
    Literal("مساعدة"), Literal("اريد ان اكون مثل"), Literal("اصبح مثل"), Literal("مثل حيان"),
    Literal("طريق"), Literal("خطة"), Literal("خارطة طريق"), Literal("مسار"),
    Literal("تدريب"), Literal("ورشة"), Literal("ورش"), Literal("اعطني"), Literal("اظهر لي"),
    Literal("قدم لي"), Literal("انشئ"), Literal("اصنع"), Literal("طور"), Literal("كود"),
    Literal("برنامج"), Literal("مثال"), Literal("عينة"), Literal("نموذج"), Literal("قائمة"),
    NotFollowedBySpaces("اخبرني عن", "حيان")
  ]

  const ArabicBypassPatterns: seq<Pattern> := [
    Literal("عايز اتعلم"), Literal("عاوز اعرف"), Literal("ممكن تقولي"), Literal("ممكن تشرحلي"),
    Literal("لو عايز"), Literal("لو محتاج"), Literal("ايه رايك"), Literal("ايه اللي"),
    Literal("اقولك ايه"), Literal("ازاي"), Literal("ازى"), Literal("ليه"), Literal("لية"),
    Literal("بدي اعرف"), Literal("بدي اتعلم"), Literal("شو رايك"), Literal("شو الافضل"),
    Literal("كيفك"), Literal("شلونك"), Literal("اش رايك")
  ]

  // ---------------------------------------------------------------------------------------
  // The validators

  /** `REQUIRED_HAIAN_KEYWORDS.some(keyword => lower.includes(keyword.toLowerCase()))`. */
  function SomeKeyword(lower: string, keywords: seq<string>): (b: bool)
    ensures b <==> exists k :: k in keywords && Occurs(lower, ToLower(k))
  {
    if keywords == [] then false
    else Includes(lower, ToLower(keywords[0])) || SomeKeyword(lower, keywords[1..])
  }

  /** The post-validator: a reply is accepted when, lowered, it contains a refusal phrase
      or, failing that, at least one required keyword. */
  function IsValidHaianResponse(response: string): (b: bool)
    ensures b <==>
      || Occurs(ToLower(response), RefusalPhraseEn)
      || Occurs(ToLower(response), RefusalPhraseAr)
      || exists k :: k in RequiredKeywords && Occurs(ToLower(response), ToLower(k))
  {
    var lower := ToLower(response);
    if Includes(lower, RefusalPhraseEn) || Includes(lower, RefusalPhraseAr) then true
    else SomeKeyword(lower, RequiredKeywords)
  }

  /** The pre-filter: the message matches at least one blocklist pattern. */
  function ContainsForbiddenContent(message: string): (b: bool)
    ensures b <==> exists p :: p in ForbiddenPatterns && Matches(p, message)
  {
    TestAny(ForbiddenPatterns, message)
  }

  /** The canned rejection: Arabic exactly when the language is "ar", English otherwise. */
  function RejectionMessage(language: string): (r: string)
    ensures r == RejectionAr <==> language == "ar"
    ensures r == RejectionEn <==> language != "ar"
  {
    assert RejectionEn[0] != RejectionAr[0];
    if language == "ar" then RejectionAr else RejectionEn
  }

  /** A string that opens with `lead` contains, once lowered, the lowering of `lead`. */
  lemma LeadOccursLowered(s: string, lead: string)
    requires |lead| <= |s| && s[..|lead|] == lead
    ensures Occurs(ToLower(s), ToLower(lead))
  {
    assert PrefixAt(ToLower(s), ToLower(lead), 0);
  }

  /** The English rejection opens with the English refusal phrase. */
  lemma RejectionEnPasses()
    ensures Occurs(ToLower(RejectionEn), RefusalPhraseEn)
  {
    var opening, name := "I can only discuss ", "Haian Ibrahim";
    assert RejectionEn[..|opening + name|] == opening + name;
    ToLowerAppend(opening, name);
    assert ToLower(opening) == "i can only discuss ";
    assert ToLower(name) == "haian ibrahim";
    LeadOccursLowered(RejectionEn, opening + name);
  }

  /** The Arabic rejection opens with the Arabic refusal phrase. */
  lemma RejectionArPasses()
    ensures Occurs(ToLower(RejectionAr), RefusalPhraseAr)
  {
    assert RejectionAr[..|RefusalPhraseAr|] == RefusalPhraseAr;
    assert ToLower(RefusalPhraseAr) == RefusalPhraseAr;
    LeadOccursLowered(RejectionAr, RefusalPhraseAr);
  }

  /** Both canned rejections pass the post-validator: the fallback is a fixed point. */
  lemma RejectionPassesValidator(language: string)
    ensures IsValidHaianResponse(RejectionMessage(language))
  {
    RejectionEnPasses();
    RejectionArPasses();
  }

  // ---------------------------------------------------------------------------------------
  // The upstream message list

  function Min(a: nat, b: nat): nat { if a <= b then a else b }

  /** `history.slice(-n)`: the last `min(n, |history|)` entries, in order. */
  function LastEntries(history: seq<HistoryMessage>, n: nat): (r: seq<HistoryMessage>)
    ensures |r| == Min(n, |history|)
    ensures forall i :: 0 <= i < |r| ==> r[i] == history[|history| - |r| + i]
  {
    history[|history| - Min(n, |history|)..]
  }

  function AsTurn(m: HistoryMessage): Turn {
    Turn(if m.role == User then UserRole else AssistantRole, m.content)
  }

  /** The instruction prompt followed by the reply-language suffix. */
  function SystemPrompt(language: string): string {
    PortfolioContext + (if language == "ar" then ReplyInArabic else ReplyInEnglish)
  }

  /** The system prompt is the fixed instruction prompt, extended by the request to answer
      in Arabic exactly when the language is "ar". */
  lemma SystemPromptSuffix(language: string)
    ensures |SystemPrompt(language)| > |PortfolioContext|
    ensures SystemPrompt(language)[..|PortfolioContext|] == PortfolioContext
    ensures SystemPrompt(language)[|PortfolioContext|..] == ReplyInArabic <==> language == "ar"
  {
    var r := SystemPrompt(language);
    assert |ReplyInArabic| != |ReplyInEnglish|;
    assert r[|PortfolioContext|..] == if language == "ar" then ReplyInArabic else ReplyInEnglish;
  }

  /** `.map(msg => ({ role: msg.role, content: msg.content }))`. */
  function AsTurns(messages: seq<HistoryMessage>): (r: seq<Turn>)
    ensures |r| == |messages|
    ensures forall i :: 0 <= i < |r| ==> r[i] == AsTurn(messages[i])
  {
    seq(|messages|, i requires 0 <= i < |messages| => AsTurn(messages[i]))
  }

  /** The message list sent upstream: the system prompt, the last five prior turns in order,
      and the user's message last. */
  function UpstreamMessages(language: string, history: seq<HistoryMessage>, message: string)
    : (turns: seq<Turn>)
    ensures |turns| == Min(HistoryWindow, |history|) + 2
    ensures turns[0] == Turn(SystemRole, SystemPrompt(language))
    ensures turns[|turns| - 1] == Turn(UserRole, message)
    ensures turns[1..|turns| - 1] == AsTurns(LastEntries(history, HistoryWindow))
  {
    var middle := AsTurns(LastEntries(history, HistoryWindow));
    var turns := [Turn(SystemRole, SystemPrompt(language))] + middle + [Turn(UserRole, message)];
    assert turns[1..|turns| - 1] == middle;
    turns
  }

  // ---------------------------------------------------------------------------------------
  // The pipeline

  /** The credential counts as configured when it is present and non-empty. */
  predicate IsConfigured(apiKey: Option<string>) {
    apiKey.Some? && apiKey.value != ""
  }

  /** Everything before the upstream call, over the pre-filter `blocked`; the handler passes
      the blocklist test `ContainsForbiddenContent`.  `body` is `None` when `request.json()`
      throws or yields `null`: destructuring it then throws, which ends in the generic 500. */
  function Route(apiKey: Option<string>, body: Option<ChatbotRequest>, blocked: string -> bool)
    : (d: Decision)
    ensures d.Forward? ==> IsConfigured(apiKey) && body.Some?
    ensures d.Respond? && d.response.status == 200 ==>
      body.Some? && d.response.body == Reply(RejectionMessage(body.value.language))
    ensures IsConfigured(apiKey) && body.None? ==> d == Respond(RequestFailed)
  {
    if !IsConfigured(apiKey) then Respond(KeyNotConfigured)
    else if body.None? then Respond(RequestFailed)
    else
      var req := body.value;
      if req.message.None? || Trim(req.message.value) == "" then Respond(MessageRequired)
      else if blocked(req.message.value) then
        Respond(Response(200, Reply(RejectionMessage(req.language))))
      else if req.history.None? then Respond(RequestFailed)
      else Forward(UpstreamMessages(req.language, req.history.value, req.message.value))
  }

  /** Everything after the upstream call: an absent or empty reply is an error, an
      off-topic reply is replaced by the canned rejection. */
  function Finish(language: string, completion: Completion): (r: Response)
    ensures r.status == 200 ==>
      && r.body.Reply?
      && (|| r.body.message == RejectionMessage(language)
          || (completion == Completed(Some(r.body.message)) && IsValidHaianResponse(r.body.message)))
    ensures completion == ApiError ==> r == ServiceError
    ensures completion == Thrown ==> r == RequestFailed
    ensures completion == Completed(None) || completion == Completed(Some("")) ==> r == RequestFailed
  {
    match completion
    case ApiError => ServiceError
    case Thrown => RequestFailed
    case Completed(content) =>
      if content.None? || content.value == "" then RequestFailed
      else if !IsValidHaianResponse(content.value) then
        Response(200, Reply(RejectionMessage(language)))
      else Response(200, Reply(content.value))
  }

  /** The POST handler, with the language-model service as the oracle `upstream`. */
  function Post(apiKey: Option<string>, body: Option<ChatbotRequest>,
                upstream: seq<Turn> -> Completion): (x: Exchange)
    ensures !IsConfigured(apiKey) ==> x == Exchange(KeyNotConfigured, [])
    ensures IsConfigured(apiKey) && body.None? ==> x == Exchange(RequestFailed, [])
    ensures |x.calls| <= 1
    ensures x.response.status == 200 ==>
      x.response.body.Reply? && IsValidHaianResponse(x.response.body.message)
    ensures x.response.status == 200 ==>
      && body.Some?
      && (|| x.response.body == Reply(RejectionMessage(body.value.language))
          || (&& |x.calls| == 1
              && upstream(x.calls[0]) == Completed(Some(x.response.body.message))
              && IsValidHaianResponse(x.response.body.message)))
  {
    match Route(apiKey, body, ContainsForbiddenContent)
    case Respond(r) =>
      RejectionPassesValidator(if body.Some? then body.value.language else "");
      Exchange(r, [])
    case Forward(turns) =>
      var r := Finish(body.value.language, upstream(turns));
      RejectionPassesValidator(body.value.language);
      Exchange(r, [turns])
  }

  // ---------------------------------------------------------------------------------------
  // Properties of the handler

  /** A request the gate lets through to the language-model service: a message that is
      present, not blank and not `blocked`, and a history array. */
  predicate Admitted(req: ChatbotRequest, blocked: string -> bool) {
    && req.message.Some?
    && !IsBlank(req.message.value)
    && !blocked(req.message.value)
    && req.history.Some?
  }

  /** Before the call: a missing or all-white-space message is answered 400, whatever the
      pre-filter would say. */
  lemma RouteBlankMessage(apiKey: Option<string>, req: ChatbotRequest, blocked: string -> bool)
    requires IsConfigured(apiKey)
    requires req.message.None? || IsBlank(req.message.value)
    ensures Route(apiKey, Some(req), blocked) == Respond(MessageRequired)
  {
    if req.message.Some? {
      TrimEmptyIffBlank(req.message.value);
    }
  }

  /** Before the call: a blocked message is answered with the canned rejection, whether or
      not a history came with it. */
  lemma RouteBlockedMessage(apiKey: Option<string>, req: ChatbotRequest, blocked: string -> bool)
    requires IsConfigured(apiKey)
    requires req.message.Some? && !IsBlank(req.message.value)
    requires blocked(req.message.value)
    ensures Route(apiKey, Some(req), blocked)
         == Respond(Response(200, Reply(RejectionMessage(req.language))))
  {
    TrimEmptyIffBlank(req.message.value);
  }

  /** Before the call: a message that passes the pre-filter but comes without a history
      array ends in the generic 500 (`history.slice` throws). */
  lemma RouteMissingHistory(apiKey: Option<string>, req: ChatbotRequest, blocked: string -> bool)
    requires IsConfigured(apiKey)
    requires req.message.Some? && !IsBlank(req.message.value)
    requires !blocked(req.message.value) && req.history.None?
    ensures Route(apiKey, Some(req), blocked) == Respond(RequestFailed)
  {
    TrimEmptyIffBlank(req.message.value);
  }

  /** Before the call: the request is forwarded exactly when the key is configured and the
      request is admitted, and then with the system prompt, the last five turns and the
      message. */
  lemma RouteForwardsIffAdmitted(apiKey: Option<string>, body: Option<ChatbotRequest>,
                                 blocked: string -> bool)
    ensures Route(apiKey, body, blocked).Forward? <==>
      IsConfigured(apiKey) && body.Some? && Admitted(body.value, blocked)
    ensures Route(apiKey, body, blocked).Forward? ==>
      Route(apiKey, body, blocked).turns
        == UpstreamMessages(body.value.language, body.value.history.value, body.value.message.value)
  {
    if body.Some? && body.value.message.Some? {
      TrimEmptyIffBlank(body.value.message.value);
    }
  }

  /** A missing or all-white-space message is answered 400, without calling the service. */
  lemma BlankMessageRejected(apiKey: Option<string>, req: ChatbotRequest,
                             upstream: seq<Turn> -> Completion)
    requires IsConfigured(apiKey)
    requires req.message.None? || IsBlank(req.message.value)
    ensures Post(apiKey, Some(req), upstream) == Exchange(MessageRequired, [])
  {
    RouteBlankMessage(apiKey, req, ContainsForbiddenContent);
  }

  /** A message matched by any blocklist pattern gets the canned rejection in the request's
      language, with status 200 and without calling the service. */
  lemma ForbiddenMessageRejected(apiKey: Option<string>, req: ChatbotRequest,
                                 upstream: seq<Turn> -> Completion)
    requires IsConfigured(apiKey)
    requires req.message.Some? && !IsBlank(req.message.value)
    requires ContainsForbiddenContent(req.message.value)
    ensures Post(apiKey, Some(req), upstream)
         == Exchange(Response(200, Reply(RejectionMessage(req.language))), [])
  {
    RouteBlockedMessage(apiKey, req, ContainsForbiddenContent);
  }

  /** The service is called exactly when the key is configured and the request is admitted;
      then it is called once, with the system prompt, the last five turns and the message,
      and the response is what `Finish` makes of its completion. */
  lemma ForwardsExactlyWhenAdmitted(apiKey: Option<string>, body: Option<ChatbotRequest>,
                                    upstream: seq<Turn> -> Completion)
    ensures Post(apiKey, body, upstream).calls != [] <==>
      IsConfigured(apiKey) && body.Some? && Admitted(body.value, ContainsForbiddenContent)
    ensures IsConfigured(apiKey) && body.Some? && Admitted(body.value, ContainsForbiddenContent) ==>
      var req := body.value;
      var turns := UpstreamMessages(req.language, req.history.value, req.message.value);
      Post(apiKey, body, upstream) == Exchange(Finish(req.language, upstream(turns)), [turns])
  {
    RouteForwardsIffAdmitted(apiKey, body, ContainsForbiddenContent);
  }

  /** After the call: status 200 exactly when a non-empty reply came back, and then the reply
      is passed on exactly when it passes the post-validator (otherwise the canned rejection
      takes its place); every other outcome is a 500, "OpenAI API error" exactly for a service
      error and "Failed to process request" for everything else. */
  lemma FinishOutcomes(language: string, completion: Completion)
    ensures Finish(language, completion).status in {200, 500}
    ensures Finish(language, completion).status == 200 <==>
      completion.Completed? && completion.content.Some? && completion.content.value != ""
    ensures Finish(language, completion).status == 200 ==>
      (Finish(language, completion).body.message == completion.content.value
       <==> IsValidHaianResponse(completion.content.value))
    ensures Finish(language, completion) == ServiceError <==> completion == ApiError
    ensures Finish(language, completion) == RequestFailed <==>
      Finish(language, completion).status != 200 && completion != ApiError
  {
    RejectionPassesValidator(language);
    assert ServiceError.body.error[0] != RequestFailed.body.error[0];
  }

  /** "How do I become a developer like you?" is caught by `/how do i/i`. */
  lemma CareerQuestionForbidden()
    ensures ContainsForbiddenContent("How do I become a developer like you?")
  {
    var m := "How do I become a developer like you?";
    var p := Literal("how do i");
    assert m[..8] == "How do I" && ToLower("How do I") == ToLower("how do i");
    PrefixAtLowered(m, "How do I", 0);
    assert MatchesAt(p, ToLower(m), 0);
    assert p == EnglishPatterns[2];
    assert p in EnglishPatterns;
    assert p in ForbiddenPatterns;
  }

  /** ... and so it is answered with the English rejection, without calling the service. */
  lemma CareerQuestionRejected(apiKey: Option<string>, history: Option<seq<HistoryMessage>>,
                               upstream: seq<Turn> -> Completion)
    requires IsConfigured(apiKey)
    ensures var req := ChatbotRequest(Some("How do I become a developer like you?"), "en", history);
      Post(apiKey, Some(req), upstream) == Exchange(Response(200, Reply(RejectionEn)), [])
  {
    var m := "How do I become a developer like you?";
    CareerQuestionForbidden();
    assert !IsWhiteSpace(m[0]);
    ForbiddenMessageRejected(apiKey, ChatbotRequest(Some(m), "en", history), upstream);
  }

  /** The blocklist also catches on-topic questions: `/develop/i` rejects a question about
      the projects the subject has developed. */
  lemma OnTopicQuestionForbidden()
    ensures ContainsForbiddenContent("What projects has Haian developed?")
  {
    var m := "What projects has Haian developed?";
    var p := Literal("develop");
    assert m[24..31] == "develop";
    PrefixAtLowered(m, "develop", 24);
    assert MatchesAt(p, ToLower(m), 24);
    assert p == EnglishPatterns[28];
    assert p in EnglishPatterns;
    assert p in ForbiddenPatterns;
  }
}
