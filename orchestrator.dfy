/**
 The review orchestrator: it decides whether a card is graded as a cloze or
 a basic card and hands the card's question, answer and the learner's answer
 to the grading client unchanged.
 */
module Orchestrator {
  import opened PyJson
  import opened PyText
  import opened AiClient

  /** What `evaluate` reads from a card: the question and answer text as the
      card renders them, and the note type's dict. */
  datatype Card = Card(question: string, answer: string, noteType: map<string, Json>)

  /** The orchestrator holds one client, built once with no explicit key. */
  datatype AIReviewOrchestrator = AIReviewOrchestrator(client: AIClient)

  /** `AIReviewOrchestrator()`: its client takes the key from the environment
      (`env`, the value of GEMINI_API_KEY) and the default endpoint. */
  function NewOrchestrator(env: Option<string>): (o: AIReviewOrchestrator)
    ensures o.client.apiKey == env
    ensures o.client.apiUrlTemplate == DefaultUrlTemplate
  {
    AIReviewOrchestrator(NewClient(None, DefaultUrlTemplate, env))
  }

  /** The blank a cloze deletion leaves in the rendered question. */
  const ClozeBlank: string := "[...]"

  /** `model.get("type") == 1`: a missing entry reads as None, which is not 1. */
  predicate NoteTypeIsCloze(noteType: map<string, Json>)
    ensures NoteTypeIsCloze(noteType) <==> EqualsOne(DictGet(noteType, "type", JNull))
  {
    "type" in noteType && EqualsOne(noteType["type"])
  }

  /** `card_mode`: "cloze" when the note type says so or the question shows a
      blank, "basic" otherwise. */
  function CardMode(card: Card): (mode: string)
    ensures mode == "cloze" || mode == "basic"
    ensures mode == "cloze" <==> NoteTypeIsCloze(card.noteType) || exists i :: OccursAt(card.question, ClozeBlank, i)
  {
    if NoteTypeIsCloze(card.noteType) || Contains(card.question, ClozeBlank) then "cloze" else "basic"
  }

  /** `evaluate`: the card's own text, with no markup removed, and the learner's
      answer go to the client as they are, and its outcome comes back as it is. */
  function Evaluate(
    o: AIReviewOrchestrator, card: Card, userAnswer: string,
    decode: string -> Decoded, transport: HttpRequest -> Result<Json, string>): (x: Exchange)
    ensures x == EvaluateCard(o.client, card.question, card.answer, userAnswer, CardMode(card), decode, transport)
    ensures x.result.verdict in Verdicts && x.result.suggestedRating in Ratings
  {
    EvaluateCard(o.client, card.question, card.answer, userAnswer, CardMode(card), decode, transport)
  }

  /** A note type whose "type" is 1 makes a cloze card, whatever the question says. */
  lemma ClozeByNoteType(card: Card)
    requires "type" in card.noteType && card.noteType["type"] == JInt(1)
    ensures CardMode(card) == "cloze"
  {
  }

  /** A question showing the cloze blank makes a cloze card, whatever the note type. */
  lemma {:induction false} ClozeByBlank(card: Card, before: string, after: string)
    requires card.question == before + ClozeBlank + after
    ensures CardMode(card) == "cloze"
  {
    assert card.question[|before|..|before| + |ClozeBlank|] == ClozeBlank;
    assert OccursAt(card.question, ClozeBlank, |before|);
  }

  /** Without either sign the card is basic. */
  lemma BasicOtherwise(card: Card)
    requires !NoteTypeIsCloze(card.noteType)
    requires forall i :: !OccursAt(card.question, ClozeBlank, i)
    ensures CardMode(card) == "basic"
  {
  }

  /** For single-line card text, the request carries the question, the answer
      and the learner's answer verbatim on their labelled lines, after the
      card's mode. */
  lemma EvaluateSendsCardVerbatim(
    o: AIReviewOrchestrator, card: Card, userAnswer: string,
    decode: string -> Decoded, transport: HttpRequest -> Result<Json, string>)
    requires KeyPresent(o.client.apiKey)
    requires NoNewline(card.question) && NoNewline(card.answer) && NoNewline(userAnswer)
    ensures var x := Evaluate(o, card, userAnswer, decode, transport);
            && |x.requests| == 1
            && GetPath(x.requests[0].body, PromptPath)
               == Success(JString(SystemPrompt + "\n\n"
                                  + JoinLines(["CARD_TYPE: " + CardMode(card),
                                               "CARD_FRONT: " + card.question,
                                               "CARD_BACK: " + card.answer,
                                               AnswerLine(userAnswer)])))
  {
    var mode := CardMode(card);
    assert NoNewline(mode) by {
      assert mode == "cloze" || mode == "basic";
    }
    PromptLayout(mode, card.question, card.answer, userAnswer);
  }

  /** An orchestrator started without GEMINI_API_KEY in the environment sends
      nothing and reports the missing key for every card. */
  lemma NoKeyNoRequest(
    env: Option<string>, card: Card, userAnswer: string,
    decode: string -> Decoded, transport: HttpRequest -> Result<Json, string>)
    requires !KeyPresent(env)
    ensures Evaluate(NewOrchestrator(env), card, userAnswer, decode, transport) == Exchange(MissingKeyResult(), [])
  {
  }
}
