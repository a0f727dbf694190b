/**
 The Gemini grading client: key resolution at construction, the missing-key
 short-circuit, prompt and request assembly, extraction of the model's text
 from the reply envelope, and the normalisation of that text into an
 `AIEvalResult`. The HTTP exchange and `json.loads` are oracles passed in by
 the caller; everything else is computed here.
 */
module AiClient {
  import opened PyJson
  import opened PyText

  /** The verdict vocabulary the normaliser accepts. */
  const Verdicts: set<string> := {"pass", "borderline", "fail"}

  /** The rating labels the normaliser accepts. */
  const Ratings: set<string> := {"Again", "Hard", "Good", "Easy"}

  /** The graded outcome. The record annotates every field as text, but
      nothing enforces that: `key_fix` and `memory_tip` carry whatever truthy
      value the reply held, and `raw_response` whatever the envelope held
      where the reply text should be, so those three are decoded values. */
  datatype AIEvalResult = AIEvalResult(
    verdict: string,
    suggestedRating: string,
    keyFix: Json,
    memoryTip: Json,
    rawResponse: Json)

  /** The fail-safe outcome every error path shares: fail, rated Again. */
  predicate IsFailSafe(r: AIEvalResult)
  {
    r.verdict == "fail" && r.suggestedRating == "Again"
  }

  /** `v` is a string that begins with `prefix`. */
  predicate TextStartsWith(v: Json, prefix: string)
  {
    v.JString? && |prefix| <= |v.s| && v.s[..|prefix|] == prefix
  }

  const DefaultUrlTemplate: string :=
    "https://generativelanguage.googleapis.com/v1beta/models/gemini-2.5-flash:generateContent?key={api_key}"

  const MissingKeyFix: string :=
    "Missing GEMINI_API_KEY environment variable. Set it in your shell or .env file."
  const MissingKeyTip: string := "Add GEMINI_API_KEY to your environment and retry."
  const AiErrorPrefix: string := "AI Error: "
  const RetryTip: string := "Retry in a moment or check your connection."
  const MissingFieldsMessage: string := "Gemini response missing expected fields."
  const ParseFailFix: string := "Could not parse AI response."
  const FormatErrorPrefix: string := "AI response format error: "
  const SimplifyTip: string := "Try again or simplify your answer for clarity."
  const NoKeyFix: string := "No key fix provided."
  const NoMemoryTip: string := "No memory tip provided."

  /** A key counts as present when it is a non-empty string (`not api_key` is
      true of None and of ""). */
  predicate KeyPresent(key: Option<string>)
  {
    key.Some? && key.value != ""
  }

  /** The client's configuration, fixed at construction and never changed. */
  datatype AIClient = AIClient(apiKey: Option<string>, apiUrlTemplate: string)

  /** `AIClient(api_key, api_url_template)`, where `env` is what the process
      environment holds under GEMINI_API_KEY (None when it is unset): an
      explicit key wins when it is non-empty, otherwise the environment's
      value is taken as it is, empty or not. */
  function NewClient(apiKey: Option<string>, apiUrlTemplate: string, env: Option<string>): (c: AIClient)
    ensures c.apiUrlTemplate == apiUrlTemplate
    ensures KeyPresent(apiKey) ==> c.apiKey == apiKey
    ensures !KeyPresent(apiKey) ==> c.apiKey == env
    ensures KeyPresent(c.apiKey) <==> KeyPresent(apiKey) || KeyPresent(env)
  {
    AIClient(if KeyPresent(apiKey) then apiKey else env, apiUrlTemplate)
  }

  /* ---------------------------------------------------------------- prompt */

  /** The lines of the triple-quoted grading instructions, between the line
      break that opens the template and the one that closes it. */
  const SystemLines: seq<string> := [
    "You are a study-coach grader for interview preparation.",
    "",
    "You will be given:",
    "- CARD_FRONT: the prompt/question",
    "- CARD_BACK: the reference correct answer (ground truth)",
    "- USER_ANSWER: what the user typed (may be incomplete or informal)",
    "",
    "Your goal:",
    "Evaluate whether USER_ANSWER demonstrates the essential understanding needed to answer this in a real interview.",
    "",
    "Grading principles (follow strictly):",
    "1) Prioritize conceptual correctness over exact wording.",
    "2) Be fair: if USER_ANSWER captures the core idea with minor omissions, do NOT penalize harshly.",
    "3) Be strict only for fatal misconceptions: if USER_ANSWER states something incorrect that would mislead an interviewer, mark it clearly.",
    "4) Do NOT invent missing details beyond CARD_BACK. Base evaluation only on CARD_BACK and reasonable paraphrase equivalence.",
    "5) Be concise: give at most one key correction and one memory tip.",
    "",
    "Output format:",
    "Return ONLY valid JSON with EXACTLY these keys:",
    "- verdict: \"pass\" | \"borderline\" | \"fail\"",
    "- suggested_rating: \"Again\" | \"Hard\" | \"Good\" | \"Easy\"",
    "- key_fix: string (1-2 sentences max)",
    "- memory_tip: string (1 sentence max)",
    "",
    "Rating rubric:",
    "- Easy: pass with strong confidence; clear and complete core idea.",
    "- Good: pass; core idea correct; only minor omissions or minor imprecision.",
    "- Hard: borderline; partially correct but needs follow-up or has a notable gap.",
    "- Again: fail; core misunderstanding or fatal misconception.",
    "",
    "Cloze handling:",
    "If the card is cloze-style, accept reasonable synonyms/paraphrases if they preserve the meaning of the blank. Do not require exact string match unless CARD_BACK is clearly a proper noun/code/token where exactness is essential.",
    "",
    "Now grade using CARD_FRONT, CARD_BACK, USER_ANSWER."
  ]

  /** The grading instructions as sent: `textwrap.dedent(...).strip()` of the
      template. No line of it is indented or made of white space alone, and
      its first and last lines begin and end with visible characters, so by
      `FramedTemplate` that is the lines joined. */
  const SystemPrompt: string := JoinLines(SystemLines)

  /** The four labelled card lines, before any dedenting or stripping. */
  function CardLines(cardMode: string, front: string, back: string, userAnswer: string): seq<string>
  {
    ["CARD_TYPE: " + cardMode, "CARD_FRONT: " + front, "CARD_BACK: " + back, "USER_ANSWER: " + userAnswer]
  }

  /** The per-card template before dedenting and stripping: an empty line,
      the four labelled lines, and an empty line. */
  function UserTemplate(cardMode: string, front: string, back: string, userAnswer: string): string
  {
    JoinLines(["",
               "CARD_TYPE: " + cardMode,
               "CARD_FRONT: " + front,
               "CARD_BACK: " + back,
               "USER_ANSWER: " + userAnswer,
               ""])
  }

  /** The card template is the labelled lines framed by one line break at each end. */
  lemma TemplateFrame(cardMode: string, front: string, back: string, userAnswer: string)
    ensures UserTemplate(cardMode, front, back, userAnswer)
         == "\n" + JoinLines(CardLines(cardMode, front, back, userAnswer)) + "\n"
  {
    var lines := CardLines(cardMode, front, back, userAnswer);
    var all := ["", lines[0], lines[1], lines[2], lines[3], ""];
    assert all[1..] == lines + [""];
    JoinLinesSnoc(lines, "");
  }

  /** The full prompt: the instructions, a blank line, then the card half. */
  function BuildPrompt(cardMode: string, front: string, back: string, userAnswer: string): (r: string)
    ensures |r| == |SystemPrompt| + 2 + |UserPrompt(cardMode, front, back, userAnswer)|
    ensures r[..|SystemPrompt|] == SystemPrompt && r[|SystemPrompt|..|SystemPrompt| + 2] == "\n\n"
    ensures r[|SystemPrompt| + 2..] == UserPrompt(cardMode, front, back, userAnswer)
  {
    var card := UserPrompt(cardMode, front, back, userAnswer);
    BlankLineJoin(SystemPrompt, card);
    SystemPrompt + "\n\n" + card
  }

  /** Two texts joined by a blank line can be cut apart again at the join. */
  lemma BlankLineJoin(a: string, b: string)
    ensures var r := a + "\n\n" + b;
            && |r| == |a| + 2 + |b| && r[..|a|] == a && r[|a|..|a| + 2] == "\n\n" && r[|a| + 2..] == b
  {
  }

  /** The last prompt line: the outer strip removes the answer's trailing white
      space, and with it the space after the label when nothing visible is left. */
  function AnswerLine(userAnswer: string): string
  {
    "USER_ANSWER:" + if RStrip(userAnswer) == [] then "" else " " + RStrip(userAnswer)
  }

  /** The card half of the prompt as sent: the user template dedented and
      stripped. For any field values, the strip only drops the framing line
      breaks and the white space at the end of the dedented labelled lines. */
  function UserPrompt(cardMode: string, front: string, back: string, userAnswer: string): (r: string)
    ensures r == RStrip(Dedent(JoinLines(CardLines(cardMode, front, back, userAnswer))))
  {
    var text := JoinLines(CardLines(cardMode, front, back, userAnswer));
    TemplateFrame(cardMode, front, back, userAnswer);
    DedentFrame(text);
    assert text[0] == 'C' by {
      assert text == "CARD_TYPE: " + cardMode + "\n"
                     + JoinLines(CardLines(cardMode, front, back, userAnswer)[1..]);
    }
    DedentHead(text);
    StripFramed(Dedent(text));
    Strip(Dedent(UserTemplate(cardMode, front, back, userAnswer)))
  }

  /** For single-line fields the prompt is exactly the instructions, a blank
      line and the four labelled lines in order, with nothing of the card text
      changed except the answer's trailing white space. */
  lemma PromptLayout(cardMode: string, front: string, back: string, userAnswer: string)
    requires NoNewline(cardMode) && NoNewline(front) && NoNewline(back) && NoNewline(userAnswer)
    ensures BuildPrompt(cardMode, front, back, userAnswer)
         == SystemPrompt + "\n\n"
            + JoinLines(["CARD_TYPE: " + cardMode,
                         "CARD_FRONT: " + front,
                         "CARD_BACK: " + back,
                         AnswerLine(userAnswer)])
  {
    UserPromptLayout(cardMode, front, back, userAnswer);
  }

  lemma UserPromptLayout(cardMode: string, front: string, back: string, userAnswer: string)
    requires NoNewline(cardMode) && NoNewline(front) && NoNewline(back) && NoNewline(userAnswer)
    ensures UserPrompt(cardMode, front, back, userAnswer)
         == JoinLines(["CARD_TYPE: " + cardMode, "CARD_FRONT: " + front, "CARD_BACK: " + back, AnswerLine(userAnswer)])
  {
    DedentUserTemplate(cardMode, front, back, userAnswer);
    AnswerLineStrip("CARD_TYPE: " + cardMode, "CARD_FRONT: " + front, "CARD_BACK: " + back, userAnswer);
  }

  /** Dedenting the labelled lines changes nothing when every field is a single line. */
  lemma DedentUserTemplate(cardMode: string, front: string, back: string, userAnswer: string)
    requires NoNewline(cardMode) && NoNewline(front) && NoNewline(back) && NoNewline(userAnswer)
    ensures var text := JoinLines(CardLines(cardMode, front, back, userAnswer));
            Dedent(text) == text
  {
    VisibleLine("CARD_TYPE: ", cardMode);
    VisibleLine("CARD_FRONT: ", front);
    VisibleLine("CARD_BACK: ", back);
    VisibleLine("USER_ANSWER: ", userAnswer);
    DedentJoinLines(CardLines(cardMode, front, back, userAnswer));
  }

  /** Right-stripping the card lines trims only the answer line. */
  lemma AnswerLineStrip(typeLine: string, frontLine: string, backLine: string, userAnswer: string)
    ensures RStrip(JoinLines([typeLine, frontLine, backLine, "USER_ANSWER: " + userAnswer]))
         == JoinLines([typeLine, frontLine, backLine, AnswerLine(userAnswer)])
  {
    var firstThree := JoinLines([typeLine, frontLine, backLine]);
    LastLineJoin(typeLine, frontLine, backLine, "USER_ANSWER: " + userAnswer);
    LastLineJoin(typeLine, frontLine, backLine, AnswerLine(userAnswer));
    var tag := firstThree + "\n" + "USER_ANSWER:";
    assert tag[|tag| - 1] == ':';
    var rest := if RStrip(userAnswer) == [] then "" else " " + RStrip(userAnswer);
    calc {
      RStrip(firstThree + "\n" + ("USER_ANSWER: " + userAnswer));
      { assert firstThree + "\n" + ("USER_ANSWER: " + userAnswer) == tag + " " + userAnswer; }
      RStrip(tag + " " + userAnswer);
      { RStripAfterVisible(tag, userAnswer); }
      tag + rest;
      { assert tag + rest == firstThree + "\n" + ("USER_ANSWER:" + rest); }
      firstThree + "\n" + AnswerLine(userAnswer);
    }
  }

  /** Four joined lines are the first three joined, a line break and the fourth. */
  lemma LastLineJoin(a: string, b: string, c: string, d: string)
    ensures JoinLines([a, b, c, d]) == JoinLines([a, b, c]) + "\n" + d
  {
    assert [a, b, c, d] == [a, b, c] + [d];
    JoinLinesSnoc([a, b, c], d);
  }

  /** A labelled line is one line starting with a capital letter, so dedenting keeps it. */
  lemma VisibleLine(tag: string, field: string)
    requires tag != [] && 'A' <= tag[0] <= 'Z' && NoNewline(tag) && NoNewline(field)
    ensures NoNewline(tag + field) && !IsBlankish(tag + field) && (tag + field)[0] == tag[0]
  {
    var line := tag + field;
    assert forall i :: 0 <= i < |line| ==> line[i] == if i < |tag| then tag[i] else field[i - |tag|];
  }

  /* --------------------------------------------------------------- request */

  /** Where the prompt sits in the request body: `contents[0].parts[0].text`. */
  const PromptPath: seq<Key> := [Field("contents"), Index(0), Field("parts"), Index(0), Field("text")]

  /** Where the model's text sits in the reply: `candidates[0].content.parts[0].text`. */
  const ReplyTextPath: seq<Key> := [Field("candidates"), Index(0), Field("content"), Field("parts"), Index(0), Field("text")]

  /** The request body: the prompt as the single part of the single content entry. */
  function Payload(prompt: string): (p: Json)
    ensures p == Nest(PromptPath, JString(prompt))
    ensures GetPath(p, PromptPath) == Success(JString(prompt))
  {
    var part := JObject(map["text" := JString(prompt)]);
    var content := JObject(map["parts" := JArray([part])]);
    var p := JObject(map["contents" := JArray([content])]);
    assert p == Nest(PromptPath, JString(prompt)) by {
      var leaf := JString(prompt);
      assert Nest([Field("text")], leaf) == part by {
        assert [Field("text")][1..] == [];
      }
      assert Nest([Index(0), Field("text")], leaf) == JArray([part]) by {
        assert [Index(0), Field("text")][1..] == [Field("text")];
        assert seq(1, _ => part) == [part];
      }
      assert Nest([Field("parts"), Index(0), Field("text")], leaf) == content by {
        assert [Field("parts"), Index(0), Field("text")][1..] == [Index(0), Field("text")];
      }
      assert Nest([Index(0), Field("parts"), Index(0), Field("text")], leaf) == JArray([content]) by {
        assert [Index(0), Field("parts"), Index(0), Field("text")][1..] == [Field("parts"), Index(0), Field("text")];
        assert seq(1, _ => content) == [content];
      }
      assert PromptPath[1..] == [Index(0), Field("parts"), Index(0), Field("text")];
    }
    GetPathNest(PromptPath, JString(prompt));
    p
  }

  /** What is handed to the transport: the URL template with the key to put
      into it (formatting the URL is part of the transport), and the body. */
  datatype HttpRequest = HttpRequest(urlTemplate: string, apiKey: string, body: Json)

  /** The outcome of one grading call, with every request that was sent. */
  datatype Exchange = Exchange(result: AIEvalResult, requests: seq<HttpRequest>)

  /** The outcome without a usable key. */
  function MissingKeyResult(): (r: AIEvalResult)
    ensures IsFailSafe(r) && r.rawResponse == JString("")
    ensures r.keyFix == JString(MissingKeyFix) && r.memoryTip == JString(MissingKeyTip)
  {
    AIEvalResult("fail", "Again", JString(MissingKeyFix), JString(MissingKeyTip), JString(""))
  }

  /** The outcome when the exchange raised: `message` is `str(e)`. */
  function AiErrorResult(message: string): (r: AIEvalResult)
    ensures IsFailSafe(r) && r.rawResponse == JString("")
    ensures TextStartsWith(r.keyFix, AiErrorPrefix) && r.keyFix.s[|AiErrorPrefix|..] == message
    ensures r.memoryTip == JString(RetryTip)
  {
    var fix := AiErrorPrefix + message;
    assert fix[..|AiErrorPrefix|] == AiErrorPrefix && fix[|AiErrorPrefix|..] == message;
    AIEvalResult("fail", "Again", JString(fix), JString(RetryTip), JString(""))
  }

  /** The request a client with a usable key sends for one card. */
  function RequestFor(client: AIClient, front: string, back: string, userAnswer: string, cardMode: string): (q: HttpRequest)
    requires KeyPresent(client.apiKey)
    ensures q.urlTemplate == client.apiUrlTemplate && q.apiKey == client.apiKey.value
    ensures GetPath(q.body, PromptPath) == Success(JString(BuildPrompt(cardMode, front, back, userAnswer)))
  {
    HttpRequest(client.apiUrlTemplate, client.apiKey.value, Payload(BuildPrompt(cardMode, front, back, userAnswer)))
  }

  /** `evaluate_card`. `transport` stands for formatting the URL, the POST, and
      reading and decoding the reply envelope; it yields the decoded envelope or
      the text of the exception raised on the way. `decode` is `json.loads`. */
  function EvaluateCard(
    client: AIClient, front: string, back: string, userAnswer: string, cardMode: string,
    decode: string -> Decoded, transport: HttpRequest -> Result<Json, string>): (x: Exchange)
    ensures |x.requests| <= 1
    ensures x.requests == [] <==> !KeyPresent(client.apiKey)
    ensures x.requests != [] ==> x.requests == [RequestFor(client, front, back, userAnswer, cardMode)]
    ensures x.requests != [] ==> x.result == CompleteExchange(transport(x.requests[0]), decode)
    ensures x.result.verdict in Verdicts && x.result.suggestedRating in Ratings
    ensures Truthy(x.result.keyFix) && Truthy(x.result.memoryTip)
  {
    if !KeyPresent(client.apiKey) then Exchange(MissingKeyResult(), [])
    else
      var request := RequestFor(client, front, back, userAnswer, cardMode);
      Exchange(CompleteExchange(transport(request), decode), [request])
  }

  /** The `try` block of `evaluate_card` once the transport has answered: an
      exception, an envelope without the model's text, or that text normalised. */
  function CompleteExchange(outcome: Result<Json, string>, decode: string -> Decoded): (r: AIEvalResult)
    ensures r.verdict in Verdicts && r.suggestedRating in Ratings
    ensures Truthy(r.keyFix) && Truthy(r.memoryTip)
    ensures outcome.Failure? || GetPath(outcome.value, ReplyTextPath).Failure? ==> IsFailSafe(r) && r.rawResponse == JString("")
  {
    match outcome
    case Failure(message) => AiErrorResult(message)
    case Success(envelope) =>
      match GetPath(envelope, ReplyTextPath)
      case Failure(_) => AiErrorResult(MissingFieldsMessage)
      case Success(content) => ParseResponse(decode, content)
  }

  /* -------------------------------------------------------------- response */

  /** The steps of `_parse_response` up to the first exception, in the order
      the source runs them. */
  function Normalise(decode: string -> Decoded, raw: Json): (r: Result<AIEvalResult, PyException>)
    ensures r.Failure? ==> || r.error.JSONDecodeError? || r.error.AttributeError? || r.error.TypeError?
                           || r.error.ValueError? || r.error.RecursionError?
    ensures r.Success? ==> r.value.verdict in Verdicts && r.value.suggestedRating in Ratings
    ensures r.Success? ==> Truthy(r.value.keyFix) && Truthy(r.value.memoryTip) && r.value.rawResponse == raw
  {
    var data :- Loads(decode, raw);
    var verdictValue :- Get(data, "verdict", JString("borderline"));
    var verdictKnown :- InStringSet(verdictValue, Verdicts);
    var verdict := if verdictKnown then verdictValue.s else "borderline";
    var fields := data.fields;
    var ratingValue := DictGet(fields, "suggested_rating", JString("Good"));
    var ratingKnown :- InStringSet(ratingValue, Ratings);
    var rating := if ratingKnown then ratingValue.s else "Good";
    var keyFix := DictGet(fields, "key_fix", JNull);
    var memoryTip := DictGet(fields, "memory_tip", JNull);
    Success(AIEvalResult(
      verdict,
      rating,
      if Truthy(keyFix) then keyFix else JString(NoKeyFix),
      if Truthy(memoryTip) then memoryTip else JString(NoMemoryTip),
      raw))
  }

  /** `_parse_response`: total, with a decode failure and any other exception
      each mapped to their own fail-safe outcome. */
  function ParseResponse(decode: string -> Decoded, raw: Json): (r: AIEvalResult)
    ensures r.verdict in Verdicts && r.suggestedRating in Ratings
    ensures r.rawResponse == raw
    ensures Truthy(r.keyFix) && Truthy(r.memoryTip)
  {
    match Normalise(decode, raw)
    case Success(result) => result
    case Failure(JSONDecodeError(_)) =>
      AIEvalResult("fail", "Again", JString(ParseFailFix), JString(SimplifyTip), raw)
    case Failure(e) =>
      AIEvalResult("fail", "Again", JString(FormatErrorPrefix + e.message), JString(SimplifyTip), raw)
  }

  /** `raw` is text that decodes to a dict whose verdict and rating entries,
      where present, can be looked up in a set: the path on which
      normalisation succeeds. */
  predicate DecodesToUsableObject(decode: string -> Decoded, raw: Json)
  {
    && raw.JString?
    && decode(raw.s).Parsed?
    && decode(raw.s).value.JObject?
    && var m := decode(raw.s).value.fields;
    && ("verdict" in m ==> Hashable(m["verdict"]))
    && ("suggested_rating" in m ==> Hashable(m["suggested_rating"]))
  }

  /** The reply's dict on the success path. */
  function ReplyFields(decode: string -> Decoded, raw: Json): map<string, Json>
    requires DecodesToUsableObject(decode, raw)
  {
    decode(raw.s).value.fields
  }

  /** Text that is not JSON gives the fixed could-not-parse outcome, keeping the text. */
  lemma NotJsonReply(decode: string -> Decoded, text: string)
    requires decode(text).NotJson?
    ensures ParseResponse(decode, JString(text))
         == AIEvalResult("fail", "Again", JString(ParseFailFix), JString(SimplifyTip), JString(text))
  {
  }

  /** JSON that normalisation cannot handle (not a dict, a list or dict as the
      verdict or rating, or a reply that is not text at all) gives the
      format-error outcome, keeping the reply. */
  lemma MalformedReply(decode: string -> Decoded, raw: Json)
    requires !raw.JString? || decode(raw.s).Parsed?
    requires !DecodesToUsableObject(decode, raw)
    ensures IsFailSafe(ParseResponse(decode, raw))
    ensures TextStartsWith(ParseResponse(decode, raw).keyFix, FormatErrorPrefix)
    ensures ParseResponse(decode, raw).memoryTip == JString(SimplifyTip)
    ensures ParseResponse(decode, raw).rawResponse == raw
  {
  }

  /** A reply the parser refuses for its size or depth raises an exception that
      is not a `JSONDecodeError`, so it takes the format-error path with the
      exception's text, keeping the reply. */
  lemma DecoderLimitReply(decode: string -> Decoded, text: string)
    requires decode(text).TooManyDigits? || decode(text).TooDeep?
    ensures ParseResponse(decode, JString(text))
         == AIEvalResult("fail", "Again", JString(FormatErrorPrefix + decode(text).message),
                         JString(SimplifyTip), JString(text))
  {
  }

  /** Exactly the usable replies get through normalisation: every other reply
      ends in one of the two fail-safe outcomes. */
  lemma NormaliseSucceedsExactly(decode: string -> Decoded, raw: Json)
    ensures Normalise(decode, raw).Success? <==> DecodesToUsableObject(decode, raw)
  {
  }

  /** On the success path a verdict from the vocabulary is kept and anything
      else, or none, becomes "borderline". */
  lemma VerdictNormalisation(decode: string -> Decoded, raw: Json)
    requires DecodesToUsableObject(decode, raw)
    ensures var m := ReplyFields(decode, raw);
            var v := ParseResponse(decode, raw).verdict;
            && ("verdict" in m && m["verdict"].JString? && m["verdict"].s in Verdicts ==> v == m["verdict"].s)
            && (("verdict" !in m || !m["verdict"].JString? || m["verdict"].s !in Verdicts) ==> v == "borderline")
  {
  }

  /** On the success path a rating label is kept and anything else, or none,
      becomes "Good": "Again" and "Easy" come out only when the reply said so. */
  lemma RatingNormalisation(decode: string -> Decoded, raw: Json)
    requires DecodesToUsableObject(decode, raw)
    ensures var m := ReplyFields(decode, raw);
            var g := ParseResponse(decode, raw).suggestedRating;
            && ("suggested_rating" in m && m["suggested_rating"].JString? && m["suggested_rating"].s in Ratings
                ==> g == m["suggested_rating"].s)
            && (("suggested_rating" !in m || !m["suggested_rating"].JString? || m["suggested_rating"].s !in Ratings)
                ==> g == "Good")
            && (g == "Again" || g == "Easy" ==> "suggested_rating" in m && m["suggested_rating"] == JString(g))
  {
  }

  /** On the success path a missing or falsy key_fix or memory_tip is replaced
      by its placeholder, a truthy one is kept whatever its type, and the raw
      text is kept. */
  lemma FeedbackDefaults(decode: string -> Decoded, raw: Json)
    requires DecodesToUsableObject(decode, raw)
    ensures var m := ReplyFields(decode, raw);
            var r := ParseResponse(decode, raw);
            && r.keyFix == (if "key_fix" in m && Truthy(m["key_fix"]) then m["key_fix"] else JString(NoKeyFix))
            && r.memoryTip == (if "memory_tip" in m && Truthy(m["memory_tip"]) then m["memory_tip"] else JString(NoMemoryTip))
            && r.rawResponse == raw
  {
  }

  /** A verdict and a rating outside the vocabularies grade "borderline" and
      "Good", with both feedback placeholders. */
  lemma UnknownValuesExample(text: string)
    ensures var reply := JObject(map["verdict" := JString("maybe"), "suggested_rating" := JInt(99)]);
            var r := ParseResponse(_ => Parsed(reply), JString(text));
            && r.verdict == "borderline" && r.suggestedRating == "Good"
            && r.keyFix == JString(NoKeyFix) && r.memoryTip == JString(NoMemoryTip)
  {
  }

  /** Ratings are labels only: the number 1 is not read as "Again" but falls
      back to "Good", while the verdict "fail" is kept. */
  lemma NumericRatingExample(text: string)
    ensures var reply := JObject(map["verdict" := JString("fail"), "suggested_rating" := JInt(1)]);
            var r := ParseResponse(_ => Parsed(reply), JString(text));
            r.verdict == "fail" && r.suggestedRating == "Good"
  {
  }

  /** A list as the verdict cannot be looked up in the vocabulary set. */
  lemma ListVerdictExample(text: string)
    ensures var reply := JObject(map["verdict" := JArray([JString("pass")])]);
            ParseResponse(_ => Parsed(reply), JString(text)).keyFix
            == JString(FormatErrorPrefix + "unhashable type: 'list'")
  {
  }

  /** A reply that decodes to a JSON list has no `get`. */
  lemma ListReply(decode: string -> Decoded, text: string)
    requires decode(text).Parsed? && decode(text).value.JArray?
    ensures ParseResponse(decode, JString(text)).keyFix
            == JString(FormatErrorPrefix + "'list' object has no attribute 'get'")
  {
    var data := decode(text).value;
    assert Loads(decode, JString(text)) == Success(data);
    assert TypeName(data) == "list";
    assert "'" + "list" + "' object has no attribute 'get'" == "'list' object has no attribute 'get'";
    var e := AttributeError("'list' object has no attribute 'get'");
    assert Get(data, "verdict", JString("borderline")) == Failure(e);
    assert Normalise(decode, JString(text)) == Failure(e);
  }

  /* ------------------------------------------------------------ whole call */

  /** Without a usable key nothing is sent and the outcome is the fixed
      missing-key result, whatever the transport would have done. */
  lemma MissingKeyShortCircuit(
    apiKey: Option<string>, apiUrlTemplate: string, env: Option<string>,
    front: string, back: string, userAnswer: string, cardMode: string,
    decode: string -> Decoded, transport: HttpRequest -> Result<Json, string>)
    requires !KeyPresent(apiKey) && !KeyPresent(env)
    ensures EvaluateCard(NewClient(apiKey, apiUrlTemplate, env), front, back, userAnswer, cardMode, decode, transport)
         == Exchange(MissingKeyResult(), [])
  {
  }

  /** A transport exception becomes the AI-error outcome carrying its text. */
  lemma TransportFailure(decode: string -> Decoded, message: string)
    ensures var r := CompleteExchange(Failure(message), decode);
            && IsFailSafe(r) && r.rawResponse == JString("") && r.memoryTip == JString(RetryTip)
            && r.keyFix == JString(AiErrorPrefix + message)
  {
  }

  /** An envelope without `candidates[0].content.parts[0].text` becomes the
      AI-error outcome naming the missing fields. */
  lemma EnvelopeMissingText(decode: string -> Decoded, envelope: Json)
    requires GetPath(envelope, ReplyTextPath).Failure?
    ensures var r := CompleteExchange(Success(envelope), decode);
            && IsFailSafe(r) && r.rawResponse == JString("") && r.memoryTip == JString(RetryTip)
            && r.keyFix == JString(AiErrorPrefix + MissingFieldsMessage)
  {
  }

  /** Whatever else the envelope carries, when `candidates[0].content.parts[0].text`
      holds a value, the outcome is that value normalised. */
  lemma EnvelopeText(decode: string -> Decoded, envelope: Json, content: Json)
    requires GetPath(envelope, ReplyTextPath) == Success(content)
    ensures CompleteExchange(Success(envelope), decode) == ParseResponse(decode, content)
  {
  }

  /** A reply shaped as the Gemini endpoint sends it, with the role, the finish
      reason, the candidate's index and the usage counts beside the text: the
      text is found and normalised. */
  lemma GeminiEnvelopeExample(decode: string -> Decoded, text: string)
    ensures var part := JObject(map["text" := JString(text)]);
            var content := JObject(map["parts" := JArray([part]), "role" := JString("model")]);
            var candidate := JObject(map["content" := content, "finishReason" := JString("STOP"), "index" := JInt(0)]);
            var envelope := JObject(map["candidates" := JArray([candidate]),
                                        "usageMetadata" := JObject(map["totalTokenCount" := JInt(321)]),
                                        "modelVersion" := JString("gemini-2.5-flash")]);
            CompleteExchange(Success(envelope), decode) == ParseResponse(decode, JString(text))
  {
    var part := JObject(map["text" := JString(text)]);
    var content := JObject(map["parts" := JArray([part]), "role" := JString("model")]);
    var candidate := JObject(map["content" := content, "finishReason" := JString("STOP"), "index" := JInt(0)]);
    var envelope := JObject(map["candidates" := JArray([candidate]),
                                "usageMetadata" := JObject(map["totalTokenCount" := JInt(321)]),
                                "modelVersion" := JString("gemini-2.5-flash")]);
    var p := ReplyTextPath;
    assert p[5..][0] == Field("text") && p[5..][1..] == [];
    assert GetPath(part, p[5..]) == Success(JString(text));
    assert p[4..][0] == Index(0) && p[4..][1..] == p[5..];
    assert GetPath(JArray([part]), p[4..]) == Success(JString(text));
    assert p[3..][0] == Field("parts") && p[3..][1..] == p[4..];
    assert GetPath(content, p[3..]) == Success(JString(text));
    assert p[2..][0] == Field("content") && p[2..][1..] == p[3..];
    assert GetPath(candidate, p[2..]) == Success(JString(text));
    assert p[1..][0] == Index(0) && p[1..][1..] == p[2..];
    assert GetPath(JArray([candidate]), p[1..]) == Success(JString(text));
    assert GetPath(envelope, p) == Success(JString(text));
    EnvelopeText(decode, envelope, JString(text));
  }
}
