# AI grading of flashcard answers — a Dafny model

This project models the AI grading path of a flashcard reviewer. A learner types an answer to a card. The review orchestrator decides whether the card is a cloze card or a basic card. The grading client then builds a grading prompt and posts it to the Gemini `generateContent` endpoint. It pulls the model's text out of the reply envelope and normalises that text into an `AIEvalResult`: a verdict, a suggested rating, a key fix, a memory tip and the raw reply.

The model is pure Dafny: datatypes, functions and lemmas. The source keeps no mutable state beyond configuration assigned once in the constructors. Four modules, one per file:

- `PyJson` (`pyjson.dfy`): the decoded JSON values the client handles, and the Python semantics it relies on. That covers truth values, hashability and set membership, `dict.get`, subscripting a dict, list or string, `== 1`, and `json.loads`. The decoding inside `json.loads` is an oracle `decode: string -> Decoded`. Its outcomes are a decoded value, text that is not JSON, an integer literal longer than the interpreter's digit limit, or nesting deeper than the recursion limit.
- `PyText` (`pytext.dfy`): `str.strip`, `lstrip` and `rstrip` with CPython's white-space set, `textwrap.dedent` as it acts on the two templates, `"\n".join`, and the substring test `sub in s`.
- `AiClient` (`ai_client.dfy`): `AIEvalResult` and `AIClient`, with key resolution, the missing-key short-circuit, prompt and payload assembly, and envelope extraction. It also folds every transport exception into one fixed result and covers `_parse_response`, whose normalisation runs as a chain of steps that may raise, as in the source. The HTTP exchange is an oracle `transport: HttpRequest -> Result<Json, string>`. It yields either the decoded envelope or the text of the exception raised. `EvaluateCard` returns an `Exchange` that also lists every request handed to the transport. That list is how "no request is made" is stated.
- `Orchestrator` (`orchestrator.dfy`): `AIReviewOrchestrator.evaluate`. It covers the cloze/basic decision and the unchanged pass-through to the client.

What the code does, stated plainly where a reader might expect otherwise:

- The code accepts only the verdicts `pass`/`borderline`/`fail`. There is no second vocabulary and no mapping between vocabularies.
- Ratings are string labels only. A numeric rating such as `1` falls back to `"Good"` (`NumericRatingExample`).
- There is no consolidated `feedback` field. The result carries `key_fix` and `memory_tip`.
- No cloze note is appended to the prompt. The instructions always carry their cloze paragraph, and the card mode appears on the `CARD_TYPE:` line.
- User text is not escaped.
- There is one back end only. The local-server client is an empty subclass of the Gemini client.
- `raw_response` is empty on every transport failure, because no reply text exists then.

`AIEvalResult` is annotated as all strings, but Python does not enforce that. A truthy non-string `key_fix` or `memory_tip` is kept as it is. If the envelope's `text` entry is not a string, `json.loads` raises a `TypeError`, the format-error path is taken, and `raw_response` keeps that value. So `keyFix`, `memoryTip` and `rawResponse` are decoded values (`Json`) in the model.

## Model

| member | source | states |
|---|---|---|
| `PyJson.Loads` | pylib/anki/ai_client.py:128 | `json.loads`: text that decodes gives the decoded value; text that does not gives `JSONDecodeError`; an over-long integer literal gives `ValueError` and over-deep nesting gives `RecursionError`, each with the decoder's message; a value that is not text is refused with `TypeError` before decoding |
| `PyJson.Truthy` | pylib/anki/ai_client.py:135-136 | a value is false exactly when it is None, False, 0, 0.0, the empty string, the empty list or the empty dict |
| `PyJson.EqualsOne` | pylib/anki/orchestrator.py:14 | `v == 1` holds exactly for the values whose number in Python's numeric tower is one: `1`, `1.0` and `True` |
| `PyJson.Get` | pylib/anki/ai_client.py:129 | `.get` succeeds exactly on a dict, giving the entry or the default; any other value raises `AttributeError` |
| `PyJson.InStringSet` | pylib/anki/ai_client.py:130 | set membership raises `TypeError` exactly for a list or dict, and is true exactly for a string in the set |
| `PyJson.Subscript` | pylib/anki/ai_client.py:111 | one `[...]` step succeeds exactly on a dict key that is present, or on an in-range position of a list or string, giving that entry; otherwise it raises `KeyError`, `IndexError` or `TypeError` |
| `PyJson.GetPath` | pylib/anki/ai_client.py:110-113 | a one-step chain is that subscript; a failing chain raises only `KeyError`, `IndexError` or `TypeError`, the three the source turns into the missing-fields error |
| `PyJson.GetPathAppend` | pylib/anki/ai_client.py:111 | reading along `p + q` is reading along `p` and then along `q` from the value found; a failure along `p` is the failure of the whole chain |
| `PyJson.GetPathNest` | pylib/anki/ai_client.py:111 | a document built along a path yields its leaf when read back along that path |
| `PyText.LStrip` | pylib/anki/ai_client.py:84 | the result is the suffix left after dropping exactly the leading white space |
| `PyText.RStrip` | pylib/anki/ai_client.py:84 | the result is the prefix left after dropping exactly the trailing white space |
| `PyText.Strip` | pylib/anki/ai_client.py:84 | the result is the part of the text between its leading and trailing white space; it starts and ends visibly, and is empty exactly when the text is all white space |
| `PyText.RStripAppend` | pylib/anki/ai_client.py:84 | right-stripping a concatenation reaches into the left part only when the right part is all white space |
| `PyText.DedentLength` | pylib/anki/ai_client.py:77-84 | dedenting never lengthens a text; what it does line by line is stated by `DedentJoin`, `DedentLine` and `DedentHead` |
| `PyText.DedentLine` | pylib/anki/ai_client.py:77-84 | a single line keeps its text unless it is made of spaces and tabs alone, and then it becomes empty |
| `PyText.DedentHead` | pylib/anki/ai_client.py:77-84 | a text that does not start with a space or tab keeps its first character |
| `PyText.DedentFrame` | pylib/anki/ai_client.py:37-84 | a text framed by one line break at each end dedents to its inside dedented, framed the same way |
| `PyText.DedentJoin` | pylib/anki/ai_client.py:77-84 | dedenting treats each line on its own: it commutes with joining two texts by a line break |
| `PyText.DedentJoinLines` | pylib/anki/ai_client.py:77-84 | dedenting changes nothing when no line consists of spaces and tabs alone |
| `PyText.StripFramed` | pylib/anki/ai_client.py:84 | stripping a text framed by line breaks whose first character is visible right-strips that text |
| `PyText.FramedTemplate` | pylib/anki/ai_client.py:37-75 | `dedent(...).strip()` of a template made of a line break, unindented lines never made of spaces and tabs alone, and a line break, with visible first and last characters, is those lines joined unchanged: the instructions as sent |
| `PyText.Contains` | pylib/anki/orchestrator.py:14 | `sub in s` holds exactly when `sub` occurs in `s` at some position |
| `AiClient.NewClient` | pylib/anki/ai_client.py:18-24 | a non-empty explicit key wins; otherwise the environment value is taken as it is; the resolved key is usable exactly when one of the two is non-empty; the URL template is kept |
| `AiClient.MissingKeyResult` | pylib/anki/ai_client.py:29-36 | the missing-key outcome: fail, Again, the fixed key-fix and tip texts, empty raw response |
| `AiClient.MissingKeyShortCircuit` | pylib/anki/ai_client.py:23-36 | with no usable explicit or environment key, no request is sent and the outcome is the missing-key result, whatever the transport would do |
| `AiClient.TemplateFrame` | pylib/anki/ai_client.py:77-84 | the card template is the four labelled lines framed by one line break at each end |
| `AiClient.UserPrompt` | pylib/anki/ai_client.py:77-84 | for any field values, the card half of the prompt is the dedented labelled lines with only their trailing white space removed |
| `AiClient.DedentUserTemplate` | pylib/anki/ai_client.py:77-84 | for single-line fields, dedenting keeps all four labelled lines unchanged |
| `AiClient.AnswerLineStrip` | pylib/anki/ai_client.py:82-84 | the outer strip trims only the answer's trailing white space, and also the space after `USER_ANSWER:` when the answer is blank |
| `AiClient.UserPromptLayout` | pylib/anki/ai_client.py:77-84 | for single-line fields, the card half of the prompt is the four labelled lines in order |
| `AiClient.BuildPrompt` | pylib/anki/ai_client.py:86 | the prompt is the instructions, then a blank line, then the card half, and can be cut apart again at that blank line |
| `AiClient.PromptLayout` | pylib/anki/ai_client.py:38-86 | for single-line fields, the prompt is the instructions, a blank line, then `CARD_TYPE`, `CARD_FRONT`, `CARD_BACK`, `USER_ANSWER` with the fields verbatim and only the answer right-stripped |
| `AiClient.Payload` | pylib/anki/ai_client.py:88-98 | the body holds only `contents[0].parts[0].text`, each list having one entry, and that entry is the prompt |
| `AiClient.RequestFor` | pylib/anki/ai_client.py:100-107 | the request uses the client's URL template and resolved key, and its body carries the built prompt |
| `AiClient.AiErrorResult` | pylib/anki/ai_client.py:116-124 | the exception outcome: fail, Again, key fix `"AI Error: "` followed by the exception text, the retry tip, empty raw response |
| `AiClient.EvaluateCard` | pylib/anki/ai_client.py:26-124 | at most one request is sent, and none exactly when the key is unusable; the one request is the card's request and the outcome is what `CompleteExchange` makes of the transport's answer to it; verdict and rating are always in their vocabularies; key fix and tip are never empty |
| `AiClient.CompleteExchange` | pylib/anki/ai_client.py:100-124 | whatever the transport answers, verdict and rating are in their vocabularies and key fix and tip are non-empty; a transport exception or an envelope without the text gives the fail-safe outcome with an empty raw response |
| `AiClient.TransportFailure` | pylib/anki/ai_client.py:100-124 | a transport exception gives fail, Again, `"AI Error: "` plus its text, the retry tip and an empty raw response |
| `AiClient.EnvelopeMissingText` | pylib/anki/ai_client.py:110-124 | an envelope without `candidates[0].content.parts[0].text` gives the AI-error outcome naming the missing fields |
| `AiClient.EnvelopeText` | pylib/anki/ai_client.py:108-114 | whatever else the envelope holds, when `candidates[0].content.parts[0].text` holds a value, the outcome is that value normalised |
| `AiClient.GeminiEnvelopeExample` | pylib/anki/ai_client.py:108-114 | an envelope with role, finish reason, index, usage counts and model version beside the text yields that text normalised |
| `AiClient.Normalise` | pylib/anki/ai_client.py:127-143 | the steps before any exception: they fail only by decode error, `AttributeError`, `TypeError`, or the decoder's `ValueError` or `RecursionError`, and on success give a verdict and rating from the vocabularies |
| `AiClient.NormaliseSucceedsExactly` | pylib/anki/ai_client.py:127-143 | normalisation succeeds exactly for text that decodes to a dict whose verdict and rating entries, where present, are hashable |
| `AiClient.ParseResponse` | pylib/anki/ai_client.py:126-160 | total: for every reply, the verdict and rating are in their vocabularies, the key fix and tip are truthy, and the raw response is the reply itself |
| `AiClient.NotJsonReply` | pylib/anki/ai_client.py:144-152 | text that is not JSON gives fail, Again, `"Could not parse AI response."`, the simplify tip, and the text as raw response |
| `AiClient.MalformedReply` | pylib/anki/ai_client.py:153-160 | decodable JSON that is not a dict, or has a list or dict as verdict or rating, or a reply that is not text, gives fail, Again, a key fix starting `"AI response format error: "`, the simplify tip, and the reply as raw response |
| `AiClient.DecoderLimitReply` | pylib/anki/ai_client.py:126-160 | text the decoder refuses for an over-long integer or over-deep nesting is not a `JSONDecodeError`, so it takes the format-error path: fail, Again, `"AI response format error: "` followed by the decoder's message, the simplify tip, and the text as raw response |
| `AiClient.VerdictNormalisation` | pylib/anki/ai_client.py:129-131 | on the success path a verdict in the vocabulary is kept, and a missing or other verdict becomes `"borderline"` |
| `AiClient.RatingNormalisation` | pylib/anki/ai_client.py:132-134 | on the success path a rating label is kept, and a missing or other value becomes `"Good"`; `"Again"` and `"Easy"` come out only when the reply said so |
| `AiClient.FeedbackDefaults` | pylib/anki/ai_client.py:135-142 | on the success path a missing or falsy key fix or tip becomes its placeholder, a truthy one is kept whatever its type, and the raw text is kept |
| `AiClient.UnknownValuesExample` | pylib/anki/ai_client.py:129-136 | `{"verdict": "maybe", "suggested_rating": 99}` grades borderline and Good, with both placeholders |
| `AiClient.NumericRatingExample` | pylib/anki/ai_client.py:132-134 | the rating `1` is not read as Again; it falls back to Good |
| `AiClient.ListVerdictExample` | pylib/anki/ai_client.py:129-157 | a list as the verdict gives the format error `unhashable type: 'list'` |
| `AiClient.ListReply` | pylib/anki/ai_client.py:129-157 | a JSON list as the reply gives the format error `'list' object has no attribute 'get'` |
| `Orchestrator.NewOrchestrator` | pylib/anki/orchestrator.py:5-6 | the orchestrator's client takes its key from the environment alone and uses the default endpoint |
| `Orchestrator.NoteTypeIsCloze` | pylib/anki/orchestrator.py:14 | `model.get("type") == 1`: the entry, or None when it is missing, equals 1 |
| `Orchestrator.CardMode` | pylib/anki/orchestrator.py:13-15 | the mode is `"cloze"` or `"basic"`, and `"cloze"` exactly when the note type's `"type"` equals 1 or the question contains `[...]` |
| `Orchestrator.ClozeByNoteType` | pylib/anki/orchestrator.py:13-15 | a note type whose `"type"` is 1 makes the card cloze, whatever the question |
| `Orchestrator.ClozeByBlank` | pylib/anki/orchestrator.py:11-15 | a question containing `[...]` makes the card cloze, whatever the note type |
| `Orchestrator.BasicOtherwise` | pylib/anki/orchestrator.py:14-15 | without either sign the card is basic |
| `Orchestrator.Evaluate` | pylib/anki/orchestrator.py:8-16 | the outcome is the client's outcome for the card's question, answer and the learner's answer, unchanged, under the decided mode, and inherits its guarantees |
| `Orchestrator.EvaluateSendsCardVerbatim` | pylib/anki/orchestrator.py:11-16 | for single-line text, the request carries the mode, question, answer and learner's answer verbatim on their labelled lines, with no markup removed |
| `Orchestrator.NoKeyNoRequest` | pylib/anki/orchestrator.py:5-16 | an orchestrator started without the key in the environment sends nothing and reports the missing key for every card |

## Left out

- The HTTP exchange is the `transport` oracle. That covers formatting the URL template with the key, building the request, `urlopen`, and reading and decoding the reply envelope. Its exception text is opaque.
- The inside of `json.loads` is the `decode` oracle. No JSON grammar is modelled, so which texts exceed the digit limit or the recursion limit is up to the oracle, and so are the messages. `NaN` and `Infinity` floats are not modelled.
- Exception texts that the source shows to the user follow the wording of CPython before 3.14: the `AttributeError` from `.get` and the `TypeError` from an unhashable lookup or a non-text reply. The texts of subscript errors are never shown, because they are replaced by the missing-fields message, so their exact wording is not claimed.
- `textwrap.dedent` is modelled as CPython before 3.14 behaves on these texts: lines of spaces and tabs alone become empty. Python 3.14 also empties lines of other white space, and that is not modelled. Margin removal is not modelled either, because each dedented text has an unindented line, so the margin is always empty.
- The grading instructions are written out line by line as `SystemLines`, and `SystemPrompt` is those lines joined. `FramedTemplate` proves that this is what `dedent(...).strip()` makes of a template of such lines. That no instruction line is indented or made of white space alone, and that the first and last lines begin and end visibly, is not checked by the verifier, because evaluating the string functions over the long literal is beyond its resource limit.
- PromptLayout, UserPromptLayout, DedentUserTemplate: the closed form with every field verbatim is stated for single-line fields only. For fields containing line breaks, such as rendered card HTML, `UserPrompt` states that the card half is the dedented labelled lines with their trailing white space removed. Lines of a field made of spaces and tabs alone are emptied by the dedent, and no closed form beyond that is stated.
- EvaluateSendsCardVerbatim: stated for single-line card text only, for the same reason.
- The `context` argument of `_parse_response` is never used by the source, and it is dropped.
- The default `card_mode="basic"` of `evaluate_card` is not a separate member. Callers pass the mode.
- `OllamaClient` is an empty subclass of the Gemini client and adds no behaviour.
- `card.q()`, `card.a()` and `card.model()` are taken as the fields of `Card`. Card rendering belongs to the host application.
- `qt/aqt/ai_reviewer.py` is left out. It covers widget creation, DOM injection, the background task and the stale-card check, which is UI and concurrency plumbing. It also calls a `generate_response` method that the client does not define.
