/**
 * The AI feature handlers: study recommendations, flashcards, quizzes and the
 * gateway health check. Each generator first checks and shapes the request
 * (a 400, or the call to make), then maps the gateway's reply to a response.
 * The gateway call itself is an input: what `fetch` and `response.json()`
 * produced.
 */
module AiRoutes {
  import opened Wrappers
  import opened Js
  import opened Http

  const DefaultGatewayUrl: string := "http://shared-ai-gateway:8002"

  /** `process.env.AI_GATEWAY_URL || default`: an empty value falls back too. */
  function GatewayUrl(env: Option<string>): (u: string)
    ensures Truthy(FromOption(env)) ==> u == env.value
    ensures !Truthy(FromOption(env)) ==> u == DefaultGatewayUrl
  {
    ToStr(Or(FromOption(env), Str(DefaultGatewayUrl)))
  }

  /** A JSON POST to the gateway. */
  datatype GatewayCall = GatewayCall(url: string, payload: JsValue)

  /** `res.status(400).json({ error })`. */
  function BadRequest(error: string): Response
  {
    Reply(400, Obj(map["error" := Str(error)]))
  }

  /** The catch block of a generator: 500 with its fixed `error` and the thrown `message`. */
  function Failed(error: string, message: string): Response
  {
    Reply(500, Obj(map["error" := Str(error), "message" := Str(message)]))
  }

  /** The message thrown for a reply that is not ok. */
  function GatewayError(status: int): string
  {
    "AI Gateway error: " + IntToStr(status)
  }

  const GatewayErrorPrefix: string := "AI Gateway error: "

  /** Reading the status back out of a gateway error message. */
  function GatewayErrorStatus(message: string): Option<nat>
  {
    if |message| > |GatewayErrorPrefix| && message[..|GatewayErrorPrefix|] == GatewayErrorPrefix
       && IsDigits(message[|GatewayErrorPrefix|..])
    then Some(DigitsValue(message[|GatewayErrorPrefix|..]))
    else None
  }

  /** The 500's `message` names the gateway's status exactly: it reads back unchanged. */
  lemma GatewayErrorRoundTrip(status: int)
    requires status >= 0
    ensures GatewayErrorStatus(GatewayError(status)) == Some(status)
  {
    var m := GatewayError(status);
    assert m[..|GatewayErrorPrefix|] == GatewayErrorPrefix;
    assert m[|GatewayErrorPrefix|..] == NatToStr(status);
    NatToStrRoundTrip(status);
  }

  /**
   * What a generator gets from the gateway: the parsed reply when the status
   * is ok, otherwise the message of the error thrown (the status error, the
   * network error, or the JSON parser's).
   */
  function GatewayData(reply: Fetched): (r: Result<JsValue, string>)
    ensures reply.NetworkError? ==> r == Failure(reply.message)
    ensures reply.Responded? && !IsOk(reply.status) ==> r == Failure(GatewayError(reply.status))
    ensures reply.Responded? && IsOk(reply.status) ==> r == reply.json
  {
    match reply
    case NetworkError(message) => Failure(message)
    case Responded(status, json) => if !IsOk(status) then Failure(GatewayError(status)) else json
  }

  // ----- POST /api/ai/study-recommendations -----

  /** `${v || 'Not specified'}`. */
  function OrNotSpecified(v: JsValue): (s: string)
    ensures !Truthy(v) ==> s == "Not specified"
    ensures Truthy(v) ==> s == ToStr(v)
  {
    ToStr(Or(v, Str("Not specified")))
  }

  /** `part` occurs in `s` starting at index `i`. */
  predicate OccursAt(s: string, part: string, i: int)
  {
    0 <= i <= |s| - |part| && s[i..i + |part|] == part
  }

  ghost predicate Contains(s: string, part: string)
  {
    exists i :: OccursAt(s, part, i)
  }

  /** A line followed by more text is a whole line of it: a line break follows. */
  lemma ContainsLine(line: string, after: string)
    requires |after| > 0 && after[0] == '\n'
    ensures Contains(line + after, line + "\n")
  {
    assert (line + after)[0..|line| + 1] == line + "\n";
    assert OccursAt(line + after, line + "\n", 0);
  }

  /** Text put in front keeps every occurrence. */
  lemma ContainsAfterPrefix(before: string, s: string, part: string)
    requires Contains(s, part)
    ensures Contains(before + s, part)
  {
    var i :| OccursAt(s, part, i);
    assert (before + s)[|before| + i..|before| + i + |part|] == s[i..i + |part|];
    assert OccursAt(before + s, part, |before| + i);
  }

  /** `\n<name>: <value>`, one line of the recommendations prompt. */
  function PromptLine(name: string, value: string): string
  {
    "\n" + name + ": " + value
  }

  const PromptHeader: string := "Generate 3 study recommendations for an English Language Learner:"
  const PromptFooter: string := "\n" + "\nProvide specific, actionable recommendations for improving English language skills."

  /** The recommendations prompt, given the text shown for each attribute. */
  function PromptText(grade: string, proficiency: string, status: string, language: string): string
  {
    PromptHeader
    + (PromptLine("Grade Level", grade)
    + (PromptLine("Proficiency", proficiency)
    + (PromptLine("ELL Status", status)
    + (PromptLine("Native Language", language)
    + PromptFooter))))
  }

  /** The prompt sent for study recommendations: the grade level as given, the other attributes or 'Not specified'. */
  function RecommendationsPrompt(gradeLevel: JsValue, compositeLevel: JsValue, ellStatus: JsValue,
                                 nativeLanguage: JsValue): string
  {
    PromptText(ToStr(gradeLevel), OrNotSpecified(compositeLevel), OrNotSpecified(ellStatus),
               OrNotSpecified(nativeLanguage))
  }

  /** Both halves of a concatenation occur in it, the second right after the first. */
  lemma OccursInConcat(a: string, b: string)
    ensures OccursAt(a + b, a, 0) && OccursAt(a + b, b, |a|)
  {
    assert (a + b)[0..|a|] == a;
    assert (a + b)[|a|..|a| + |b|] == b;
  }

  /** Text put in front moves an occurrence along by its length. */
  lemma OccursShifted(a: string, b: string, part: string, i: int)
    requires OccursAt(b, part, i)
    ensures OccursAt(a + b, part, |a| + i)
  {
    assert (a + b)[|a| + i..|a| + i + |part|] == b[i..i + |part|];
  }

  /** Text put in front of a part and its tail: the part comes right after that text. */
  lemma OccursAfterPrefix(a: string, part: string, tail: string)
    ensures OccursAt(a + (part + tail), part, |a|)
  {
    OccursInConcat(part, tail);
    OccursShifted(a, part + tail, part, 0);
  }

  /** In `h + (g + (c + (e + (n + f))))` the six parts occur back to back, in that order. */
  lemma SixParts(h: string, g: string, c: string, e: string, n: string, f: string)
    ensures var p := h + (g + (c + (e + (n + f))));
      && OccursAt(p, h, 0)
      && OccursAt(p, g, |h|)
      && OccursAt(p, c, |h| + |g|)
      && OccursAt(p, e, |h| + |g| + |c|)
      && OccursAt(p, n, |h| + |g| + |c| + |e|)
      && OccursAt(p, f, |p| - |f|)
  {
    OccursInConcat(h, g + (c + (e + (n + f))));
    OccursAfterPrefix(h, g, c + (e + (n + f)));
    ThirdPart(h, g, c, e + (n + f));
    FourthPart(h, g, c, e, n + f);
    FifthPart(h, g, c, e, n, f);
  }

  /** The third part of a right-nested concatenation starts after the first two. */
  lemma ThirdPart(h: string, g: string, c: string, t: string)
    ensures OccursAt(h + (g + (c + t)), c, |h| + |g|)
  {
    OccursAfterPrefix(g, c, t);
    OccursShifted(h, g + (c + t), c, |g|);
  }

  /** The fourth part starts after the first three. */
  lemma FourthPart(h: string, g: string, c: string, e: string, t: string)
    ensures OccursAt(h + (g + (c + (e + t))), e, |h| + |g| + |c|)
  {
    ThirdPart(g, c, e, t);
    OccursShifted(h, g + (c + (e + t)), e, |g| + |c|);
  }

  /** The fifth part starts after the first four, and the last part ends the text. */
  lemma FifthPart(h: string, g: string, c: string, e: string, n: string, f: string)
    ensures var p := h + (g + (c + (e + (n + f))));
      OccursAt(p, n, |h| + |g| + |c| + |e|) && OccursAt(p, f, |p| - |f|)
  {
    FourthPart(g, c, e, n, f);
    OccursShifted(h, g + (c + (e + (n + f))), n, |g| + |c| + |e|);
    OccursInConcat(h + (g + (c + (e + n))), f);
    assert h + (g + (c + (e + (n + f)))) == h + (g + (c + (e + n))) + f;
  }

  /**
   * The prompt opens with the header, then holds the grade level, proficiency,
   * ELL status and native language lines back to back in that order, and
   * closes with a blank line and the instruction.
   */
  lemma PromptTextLayout(grade: string, proficiency: string, status: string, language: string)
    ensures var p := PromptText(grade, proficiency, status, language);
      var g := PromptLine("Grade Level", grade);
      var c := PromptLine("Proficiency", proficiency);
      var e := PromptLine("ELL Status", status);
      var n := PromptLine("Native Language", language);
      && OccursAt(p, PromptHeader, 0)
      && OccursAt(p, g, |PromptHeader|)
      && OccursAt(p, c, |PromptHeader| + |g|)
      && OccursAt(p, e, |PromptHeader| + |g| + |c|)
      && OccursAt(p, n, |PromptHeader| + |g| + |c| + |e|)
      && OccursAt(p, PromptFooter, |p| - |PromptFooter|)
  {
    SixParts(PromptHeader, PromptLine("Grade Level", grade), PromptLine("Proficiency", proficiency),
             PromptLine("ELL Status", status), PromptLine("Native Language", language), PromptFooter);
  }

  /** Each attribute of the prompt stands on a whole line of its own, under its name. */
  lemma PromptTextLines(grade: string, proficiency: string, status: string, language: string)
    ensures var p := PromptText(grade, proficiency, status, language);
      && Contains(p, PromptLine("Grade Level", grade) + "\n")
      && Contains(p, PromptLine("Proficiency", proficiency) + "\n")
      && Contains(p, PromptLine("ELL Status", status) + "\n")
      && Contains(p, PromptLine("Native Language", language) + "\n")
  {
    var g := PromptLine("Grade Level", grade);
    var c := PromptLine("Proficiency", proficiency);
    var e := PromptLine("ELL Status", status);
    var n := PromptLine("Native Language", language);
    var tail3 := n + PromptFooter;
    var tail2 := e + tail3;
    var tail1 := c + tail2;
    assert PromptFooter[0] == '\n';
    ContainsLine(n, PromptFooter);
    ContainsAfterPrefix(e, tail3, n + "\n");
    ContainsAfterPrefix(c, tail2, n + "\n");
    ContainsAfterPrefix(g, tail1, n + "\n");
    ContainsAfterPrefix(PromptHeader, g + tail1, n + "\n");
    ContainsLine(e, tail3);
    ContainsAfterPrefix(c, tail2, e + "\n");
    ContainsAfterPrefix(g, tail1, e + "\n");
    ContainsAfterPrefix(PromptHeader, g + tail1, e + "\n");
    ContainsLine(c, tail2);
    ContainsAfterPrefix(g, tail1, c + "\n");
    ContainsAfterPrefix(PromptHeader, g + tail1, c + "\n");
    ContainsLine(g, tail1);
    ContainsAfterPrefix(PromptHeader, g + tail1, g + "\n");
  }

  /**
   * The recommendations prompt has one whole line per student attribute; a
   * falsy proficiency, ELL status or native language reads 'Not specified'.
   */
  lemma RecommendationsPromptLines(gradeLevel: JsValue, compositeLevel: JsValue, ellStatus: JsValue,
                                   nativeLanguage: JsValue)
    ensures var p := RecommendationsPrompt(gradeLevel, compositeLevel, ellStatus, nativeLanguage);
      && Contains(p, PromptLine("Grade Level", ToStr(gradeLevel)) + "\n")
      && Contains(p, PromptLine("Proficiency", if Truthy(compositeLevel) then ToStr(compositeLevel) else "Not specified") + "\n")
      && Contains(p, PromptLine("ELL Status", if Truthy(ellStatus) then ToStr(ellStatus) else "Not specified") + "\n")
      && Contains(p, PromptLine("Native Language", if Truthy(nativeLanguage) then ToStr(nativeLanguage) else "Not specified") + "\n")
  {
    PromptTextLines(ToStr(gradeLevel), OrNotSpecified(compositeLevel), OrNotSpecified(ellStatus),
                    OrNotSpecified(nativeLanguage));
  }

  /**
   * The validation and request shaping of `generateStudyRecommendations`: a
   * falsy `gradeLevel` (missing, null, 0, "") is a 400 and no call; otherwise
   * the prompt is posted to `/api/ai/generate` for app 'education' with at
   * most 300 tokens.
   */
  function RecommendationsCall(gatewayEnv: Option<string>, body: map<string, JsValue>): (r: Result<GatewayCall, Response>)
    ensures r.Failure? <==> !Truthy(Field(body, "gradeLevel"))
    ensures r.Failure? ==> r.error == BadRequest("Grade level is required")
    ensures r.Success? ==> r.value.url == GatewayUrl(gatewayEnv) + "/api/ai/generate"
    ensures r.Success? ==> r.value.payload == Obj(map[
      "prompt" := Str(RecommendationsPrompt(Field(body, "gradeLevel"), Field(body, "compositeLevel"),
                                            Field(body, "ellStatus"), Field(body, "nativeLanguage"))),
      "app" := Str("education"),
      "maxTokens" := Num(300)])
  {
    var gradeLevel := Field(body, "gradeLevel");
    if !Truthy(gradeLevel) then Failure(BadRequest("Grade level is required"))
    else
      var prompt := RecommendationsPrompt(gradeLevel, Field(body, "compositeLevel"),
                                          Field(body, "ellStatus"), Field(body, "nativeLanguage"));
      Success(GatewayCall(GatewayUrl(gatewayEnv) + "/api/ai/generate",
        Obj(map["prompt" := Str(prompt), "app" := Str("education"), "maxTokens" := Num(300)])))
  }

  /**
   * `generateStudyRecommendations`: the 400 of the validation, the 500 of a
   * failed gateway call, or the recommendations with the student's grade
   * level, proficiency and ELL status echoed (the native language is not).
   */
  function GenerateStudyRecommendations(gatewayEnv: Option<string>, body: map<string, JsValue>, reply: Fetched): (r: Response)
    ensures !Truthy(Field(body, "gradeLevel")) ==> r == BadRequest("Grade level is required")
    ensures Truthy(Field(body, "gradeLevel")) && reply.Responded? && !IsOk(reply.status) ==>
      r == Failed("Failed to generate recommendations", GatewayError(reply.status))
    ensures Truthy(Field(body, "gradeLevel")) && GatewayData(reply).Failure? ==>
      r == Failed("Failed to generate recommendations", GatewayData(reply).error)
    ensures Truthy(Field(body, "gradeLevel")) && GatewayData(reply).Success? && Nullish(GatewayData(reply).value) ==>
      r == Failed("Failed to generate recommendations", ReadError(GatewayData(reply).value, "response"))
    ensures Truthy(Field(body, "gradeLevel")) && GatewayData(reply).Success? && !Nullish(GatewayData(reply).value) ==>
      r.status == 200
    ensures r.status == 200 ==>
      && reply.Responded? && IsOk(reply.status) && reply.json.Success? && !Nullish(reply.json.value)
      && r.body == JsonBody(Obj(map[
        "success" := Bool(true),
        "recommendations" := GetProp(reply.json.value, "response").value,
        "student" := Obj(map["gradeLevel" := Field(body, "gradeLevel"),
                             "compositeLevel" := Field(body, "compositeLevel"),
                             "ellStatus" := Field(body, "ellStatus")])]))
  {
    match RecommendationsCall(gatewayEnv, body)
    case Failure(rejected) => rejected
    case Success(_) =>
      match GatewayData(reply)
      case Failure(message) => Failed("Failed to generate recommendations", message)
      case Success(data) =>
        match GetProp(data, "response")
        case Failure(message) => Failed("Failed to generate recommendations", message)
        case Success(recommendations) =>
          Ok(Obj(map[
            "success" := Bool(true),
            "recommendations" := recommendations,
            "student" := Obj(map["gradeLevel" := Field(body, "gradeLevel"),
                                 "compositeLevel" := Field(body, "compositeLevel"),
                                 "ellStatus" := Field(body, "ellStatus")])]))
  }

  /** A rejected request never reaches the gateway: whatever the gateway would have said, the answer is the same 400. */
  lemma RecommendationsRejectionIgnoresGateway(gatewayEnv: Option<string>, body: map<string, JsValue>, r1: Fetched, r2: Fetched)
    requires !Truthy(Field(body, "gradeLevel"))
    ensures GenerateStudyRecommendations(gatewayEnv, body, r1) == GenerateStudyRecommendations(gatewayEnv, body, r2)
    ensures GenerateStudyRecommendations(gatewayEnv, body, r1).status == 400
  {
  }

  // ----- POST /api/ai/flashcard -----

  /** The topic sent for a flashcard: tagged with the grade when one is given (truthy), unchanged otherwise. */
  function FlashcardTopic(topic: JsValue, gradeLevel: JsValue): (t: JsValue)
    ensures Truthy(gradeLevel) ==> t == Str(ToStr(topic) + " (Grade " + ToStr(gradeLevel) + ")")
    ensures !Truthy(gradeLevel) ==> t == topic
  {
    if Truthy(gradeLevel) then Str(ToStr(topic) + " (Grade " + ToStr(gradeLevel) + ")") else topic
  }

  /** The validation and request shaping of `generateFlashcard`. */
  function FlashcardCall(gatewayEnv: Option<string>, body: map<string, JsValue>): (r: Result<GatewayCall, Response>)
    ensures r.Failure? <==> !Truthy(Field(body, "topic")) || !Truthy(Field(body, "content"))
    ensures r.Failure? ==> r.error == BadRequest("Topic and content are required")
    ensures r.Success? ==> r.value == GatewayCall(GatewayUrl(gatewayEnv) + "/api/ai/flashcard",
      Obj(map["topic" := FlashcardTopic(Field(body, "topic"), Field(body, "gradeLevel")),
              "content" := Field(body, "content")]))
  {
    var topic := Field(body, "topic");
    var content := Field(body, "content");
    if !Truthy(topic) || !Truthy(content) then Failure(BadRequest("Topic and content are required"))
    else Success(GatewayCall(GatewayUrl(gatewayEnv) + "/api/ai/flashcard",
      Obj(map["topic" := FlashcardTopic(topic, Field(body, "gradeLevel")), "content" := content])))
  }

  /** `generateFlashcard`: the flashcard the gateway produced, with the request's grade level echoed. */
  function GenerateFlashcard(gatewayEnv: Option<string>, body: map<string, JsValue>, reply: Fetched): (r: Response)
    ensures !Truthy(Field(body, "topic")) || !Truthy(Field(body, "content")) ==>
      r == BadRequest("Topic and content are required")
    ensures FlashcardCall(gatewayEnv, body).Success? && reply.Responded? && !IsOk(reply.status) ==>
      r == Failed("Failed to generate flashcard", GatewayError(reply.status))
    ensures FlashcardCall(gatewayEnv, body).Success? && GatewayData(reply).Failure? ==>
      r == Failed("Failed to generate flashcard", GatewayData(reply).error)
    ensures FlashcardCall(gatewayEnv, body).Success? && GatewayData(reply).Success? && Nullish(GatewayData(reply).value) ==>
      r == Failed("Failed to generate flashcard", ReadError(GatewayData(reply).value, "topic"))
    ensures FlashcardCall(gatewayEnv, body).Success? && GatewayData(reply).Success? && !Nullish(GatewayData(reply).value) ==>
      r.status == 200
    ensures r.status == 200 ==>
      && reply.Responded? && IsOk(reply.status) && reply.json.Success? && !Nullish(reply.json.value)
      && var data := reply.json.value;
      r.body == JsonBody(Obj(map[
        "success" := Bool(true),
        "flashcard" := Obj(map["topic" := GetProp(data, "topic").value,
                               "question" := GetProp(data, "question").value,
                               "answer" := GetProp(data, "answer").value]),
        "gradeLevel" := Field(body, "gradeLevel")]))
  {
    match FlashcardCall(gatewayEnv, body)
    case Failure(rejected) => rejected
    case Success(_) =>
      match GatewayData(reply)
      case Failure(message) => Failed("Failed to generate flashcard", message)
      case Success(data) =>
        if Nullish(data) then Failed("Failed to generate flashcard", ReadError(data, "topic"))
        else
          Ok(Obj(map[
            "success" := Bool(true),
            "flashcard" := Obj(map["topic" := GetProp(data, "topic").value,
                                   "question" := GetProp(data, "question").value,
                                   "answer" := GetProp(data, "answer").value]),
            "gradeLevel" := Field(body, "gradeLevel")]))
  }

  // ----- POST /api/ai/quiz -----

  /** `difficulty = 'medium'`: the default replaces only a missing value. */
  function QuizDifficulty(body: map<string, JsValue>): (d: JsValue)
    ensures Field(body, "difficulty").Undefined? ==> d == Str("medium")
    ensures !Field(body, "difficulty").Undefined? ==> d == body["difficulty"]
  {
    Default(Field(body, "difficulty"), Str("medium"))
  }

  /** `count = 3`: the default replaces only a missing value. */
  function QuizCount(body: map<string, JsValue>): (c: JsValue)
    ensures Field(body, "count").Undefined? ==> c == Num(3)
    ensures !Field(body, "count").Undefined? ==> c == body["count"]
  {
    Default(Field(body, "count"), Num(3))
  }

  /** The topic sent for a quiz: `${topic} for Grade ${gradeLevel}` when a grade is given (truthy). */
  function QuizTopic(topic: JsValue, gradeLevel: JsValue): (t: JsValue)
    ensures Truthy(gradeLevel) ==> t == Str(ToStr(topic) + " for Grade " + ToStr(gradeLevel))
    ensures !Truthy(gradeLevel) ==> t == topic
  {
    if Truthy(gradeLevel) then Str(ToStr(topic) + " for Grade " + ToStr(gradeLevel)) else topic
  }

  /** The validation and request shaping of `generateQuiz`. */
  function QuizCall(gatewayEnv: Option<string>, body: map<string, JsValue>): (r: Result<GatewayCall, Response>)
    ensures r.Failure? <==> !Truthy(Field(body, "topic"))
    ensures r.Failure? ==> r.error == BadRequest("Topic is required")
    ensures r.Success? ==> r.value == GatewayCall(GatewayUrl(gatewayEnv) + "/api/ai/quiz",
      Obj(map["topic" := QuizTopic(Field(body, "topic"), Field(body, "gradeLevel")),
              "difficulty" := QuizDifficulty(body),
              "count" := QuizCount(body)]))
  {
    var topic := Field(body, "topic");
    if !Truthy(topic) then Failure(BadRequest("Topic is required"))
    else Success(GatewayCall(GatewayUrl(gatewayEnv) + "/api/ai/quiz",
      Obj(map["topic" := QuizTopic(topic, Field(body, "gradeLevel")),
              "difficulty" := QuizDifficulty(body),
              "count" := QuizCount(body)])))
  }

  /**
   * `generateQuiz`: the questions the gateway produced, echoing the topic as
   * the client sent it (not the one sent to the gateway) and the effective
   * difficulty; `count` is the gateway's.
   */
  function GenerateQuiz(gatewayEnv: Option<string>, body: map<string, JsValue>, reply: Fetched): (r: Response)
    ensures !Truthy(Field(body, "topic")) ==> r == BadRequest("Topic is required")
    ensures Truthy(Field(body, "topic")) && reply.Responded? && !IsOk(reply.status) ==>
      r == Failed("Failed to generate quiz", GatewayError(reply.status))
    ensures Truthy(Field(body, "topic")) && GatewayData(reply).Failure? ==>
      r == Failed("Failed to generate quiz", GatewayData(reply).error)
    ensures Truthy(Field(body, "topic")) && GatewayData(reply).Success? && Nullish(GatewayData(reply).value) ==>
      r == Failed("Failed to generate quiz", ReadError(GatewayData(reply).value, "count"))
    ensures Truthy(Field(body, "topic")) && GatewayData(reply).Success? && !Nullish(GatewayData(reply).value) ==>
      r.status == 200
    ensures r.status == 200 ==>
      && reply.Responded? && IsOk(reply.status) && reply.json.Success? && !Nullish(reply.json.value)
      && var data := reply.json.value;
      r.body == JsonBody(Obj(map[
        "success" := Bool(true),
        "topic" := Field(body, "topic"),
        "difficulty" := QuizDifficulty(body),
        "gradeLevel" := Field(body, "gradeLevel"),
        "count" := GetProp(data, "count").value,
        "questions" := GetProp(data, "questions").value]))
  {
    match QuizCall(gatewayEnv, body)
    case Failure(rejected) => rejected
    case Success(_) =>
      match GatewayData(reply)
      case Failure(message) => Failed("Failed to generate quiz", message)
      case Success(data) =>
        if Nullish(data) then Failed("Failed to generate quiz", ReadError(data, "count"))
        else
          Ok(Obj(map[
            "success" := Bool(true),
            "topic" := Field(body, "topic"),
            "difficulty" := QuizDifficulty(body),
            "gradeLevel" := Field(body, "gradeLevel"),
            "count" := GetProp(data, "count").value,
            "questions" := GetProp(data, "questions").value]))
  }

  // ----- GET /api/ai/health -----

  /**
   * `checkAIHealth`: the gateway's `/health` reply relayed as `gateway`; a
   * 503 only when the request or the JSON parse failed. The reply's status is
   * not consulted.
   */
  function CheckAIHealth(reply: Fetched): (r: Response)
    ensures r.status == 503 <==> reply.NetworkError? || reply.json.Failure?
    ensures r.status == 503 ==>
      && r.body.JsonBody? && r.body.value.Obj?
      && r.body.value.props.Keys == {"success", "error", "message"}
      && r.body.value.props["success"] == Bool(false)
      && r.body.value.props["error"] == Str("AI Gateway unavailable")
      && r.body.value.props["message"] == Str(if reply.NetworkError? then reply.message else reply.json.error)
    ensures r.status != 503 ==> r == Ok(Obj(map["success" := Bool(true), "gateway" := reply.json.value]))
  {
    match reply
    case NetworkError(message) =>
      Reply(503, Obj(map["success" := Bool(false), "error" := Str("AI Gateway unavailable"), "message" := Str(message)]))
    case Responded(_, Failure(message)) =>
      Reply(503, Obj(map["success" := Bool(false), "error" := Str("AI Gateway unavailable"), "message" := Str(message)]))
    case Responded(_, Success(data)) =>
      Ok(Obj(map["success" := Bool(true), "gateway" := data]))
  }
}
