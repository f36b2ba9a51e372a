# Medical-history intake bot: a Dafny model of its conversation engine

The service in `test.py` runs a WhatsApp bot that takes a user through a fixed
medical-history questionnaire: DNI, age, operations, allergies, chronic
illnesses and current medication. It stores the answers and, once the last
answer is in, renders a PDF report and switches the user to a free-form
assistant backed by a language model. While the questionnaire runs, a message
ending in `?` is a digression. It goes to the assistant, and "solved" then
asks the outstanding question again. "start report" (in any case) starts the
questionnaire.

The service keeps four module-level dictionaries, all keyed by the user's
phone number:

- `user_interactions`: the pending-digression flag;
- `user_states`: the current question key;
- `user_responses`: the answers;
- `conversation_history`: the assistant dialogue.

The model is layered as follows.

- `wrappers.dfy`: `Option`.
- `strings.dfy` (module `Strings`): the string operations the route uses:
  - `lower()` compared with a token;
  - `endswith("?")`;
  - `str()` of an HTTP status, with the numeral read back.
- `script.dfy` (module `Script`):
  - the question keys and `get_next_question`;
  - `format_responses`, with a parser that reads its text back;
  - the field map of `prepare_summary`.
- `wording.dfy` (module `Wording`): every text the service sends or returns,
  as a `Texts` value.
  - `Original` is the service's own wording, `questions_dict` included.
  - The route is specified and proved for any wording that has a prompt for
    every key (`Complete`).
- `flow.dfy` (module `Flow`): the specification. Each handler is a function
  from a `Store` to a `Step` (the new `Store` and the handler's result).
  - A `Store` holds the four dictionaries and the ordered log of calls made to
    collaborators: WhatsApp sends, PDF renderings and model invocations.
  - Collaborators enter as inputs. `status` is the HTTP status of the one send
    whose result the handler inspects. `reply` says whether the model raises,
    returns a string, or returns something that is not a string.
  - The module also defines `Run`, which feeds one user's messages through
    `handle_interaction`; `Serve`, which does the same for messages from any
    users in arrival order; and the invariant `Inv`.
- `flow_properties.dfy` (module `FlowProperties`): the proved properties.
  - one lemma per routing rule;
  - the effect of each handler;
  - frame facts: other users are untouched, and histories only grow;
  - the invariant, kept by every message;
  - facts about whole runs of messages.
- `engine.dfy` (module `Server`): class `Engine`.
  - It holds the dictionaries and the call log as fields that its methods
    update in place.
  - Each method is proved to produce exactly the state and the result of the
    `Flow` function of the same name.
  - `HandleInteraction` also keeps `Inv`.
- `scenarios.dfy` (module `Scenarios`): whole conversations.
  - a complete questionnaire from "start report" to the report;
  - a digression followed by "solved";
  - a first message from someone who never started;
  - an undelivered first prompt.

### Quirks of the route

The model states the route's behaviour as the code has it, including these
consequences:

- **"start report" keeps earlier answers.** `test.py:104-107` only resets the
  state to `start` and sends the DNI prompt. Earlier answers survive and are
  overwritten one by one (`FlowProperties.StartReportRestarts`).
- **A `?` message is a digression even without a flow.** `test.py:91-93`
  raises the flag and calls the assistant for any user who has not finished,
  including one who never started (`FlowProperties.DigressionGoesToAssistant`).
  The flag can therefore be set while no question is outstanding.
- **"solved" without the flag is an answer.** It falls through to the
  remaining rules. For a user on a question it is stored as an ordinary
  answer (`FlowProperties.RouteToAnswer`).
- **The history's answer snapshot is never refreshed.** It is taken when the
  history is first seeded and is not updated afterwards.
- **The opening question is skipped, unless the DNI prompt is not
  delivered.** "start report" sets the state to `start` and asks the question
  after it.
  - When the DNI prompt is delivered, `start` is never answered, and a
    complete questionnaire reports `start` and `finish` as "Not provided"
    (`Scenarios.FullQuestionnaire`).
  - When that send fails, the state stays `start`. The next plain message is
    stored as the answer to `start` and appears in the report under it
    (`Scenarios.UndeliveredStartAnswersStart`).

## Model

| member | source | states |
|---|---|---|
| Strings.AsksIsEndsWith | test.py:91 | The digression test is exactly "the message ends with `?`". |
| Strings.LowerIsLower | test.py:94 | The character-by-character command comparison holds exactly when the lower-cased message equals the token. |
| Strings.TokenIsNotQuestion | test.py:91-104 | A message matching the command "solved" or "start report" never ends in `?`, so a command is never taken for a digression. |
| Strings.NatToStringRoundTrip | test.py:150 | The decimal numeral of a status code reads back as that code. |
| Strings.IntToString | test.py:172-174 | `str()` of the status embedded in a delivery error reads back as that status, negative or not. |
| Script.OrderLists | test.py:69-70 | `state_order` lists every key exactly once. |
| Script.NameInjective | test.py:57-66 | Different keys have different, non-empty spellings. |
| Script.NextQuestion | test.py:68-74 | The successor of a key is absent exactly for `finish`, and it is never `start`. |
| Script.NextQuestionFollowsOrder | test.py:72 | Every key's successor is the key that follows it in `state_order`. |
| Script.Pairs | test.py:158-167 | There is one (name, value) line per key, in order, each holding the stored answer or "Not provided". |
| Script.FormatResponses | test.py:157-168 | No contract of its own. It is specified by `Script.Pairs`, `Script.FormatResponsesRoundTrip` and `Script.FormatResponsesInjective`. |
| Script.SummaryFields | test.py:180-190 | No contract of its own. It is specified by `Script.SummaryFieldsComplete`, `Script.SameFieldsSameText` and `Script.SameTextSameFields`. |
| Script.SummaryFieldsComplete | test.py:180-190 | The report fields map every one of the eight keys, and only them, to its answer or to "Not provided". |
| Script.IndexOf | test.py:157-168 | The index found is that of the first occurrence, and nothing is found only when the element is absent. |
| Script.IndexOfAfter | test.py:157-168 | In a text whose prefix has no separator, the first separator is the one after that prefix. |
| Script.ParseLineOfLine | test.py:159 | A `name: value` line reads back as its name and value. |
| Script.NamePlain | test.py:159-166 | No key name contains `:` or a line break. |
| Script.TextRoundTrip | test.py:158-167 | Parsing the text of any sequence of plain (name, value) lines returns that sequence. |
| Script.TextInjective | test.py:158-167 | Two sequences of plain lines with the same text are equal. |
| Script.FormatResponsesRoundTrip | test.py:157-168 | When no answer contains a line break, the answer snapshot handed to the assistant parses back into the eight key names, in order, each with the report field of that key. |
| Script.FormatResponsesInjective | test.py:157-190 | For answers without line breaks, two answer sets give the same snapshot exactly when they give the same report fields. |
| Script.SameFieldsSameText | test.py:157-190 | Equal report fields give equal snapshots. |
| Script.SameTextSameFields | test.py:157-190 | Equal snapshots give equal report fields, as long as no answer contains a line break. |
| Script.PairsAgree | test.py:158-167 | Answer sets that agree on every field give the same lines. |
| Wording.OriginalComplete | test.py:57-66 | The service's `questions_dict` has a prompt for every key. |
| Flow.AskQuestion | test.py:170-177 | No contract of its own. It is specified by `Server.Engine.AskQuestion` and by the routing lemmas that name its result (`FlowProperties.SolvedResumesQuestion`, `FlowProperties.StartReportRestarts`, `FlowProperties.AnswerAdvances`). |
| Flow.PrepareSummary | test.py:179-199 | No contract of its own. It is specified by `Server.Engine.PrepareSummary`, `FlowProperties.LastAnswerRendersReport` and `FlowProperties.AnswerRenders`. |
| Flow.ProcessAnswer | test.py:201-219 | No contract of its own. It is specified by `FlowProperties.AnswerRecords`, `FlowProperties.AnswerMoves`, `FlowProperties.AnswerCalls`, `FlowProperties.AnswerRenders`, `FlowProperties.AnswerKeeps` and `FlowProperties.AnswerKeepsNoFinalAnswer`. |
| Flow.HandleLlama | test.py:120-155 | No contract of its own. It is specified by `FlowProperties.LlamaKeepsFlow`, `FlowProperties.LlamaAsks`, `FlowProperties.LlamaReplyAppendsTurn`, `FlowProperties.NonStringReplyApologises`, `FlowProperties.LlamaRaiseKeepsContext`, `FlowProperties.LlamaRenders`, `FlowProperties.LlamaKeepsSeeded` and `FlowProperties.LlamaKeeps`. |
| Flow.ProcessQuestionnaire | test.py:90-118 | No contract of its own. It is specified, rule by rule, by `FlowProperties.DigressionGoesToAssistant`, `FlowProperties.SolvedResumesQuestion`, `FlowProperties.StartReportRestarts`, `FlowProperties.RouteToAnswer` and `FlowProperties.NoFlowAsksForStart`. |
| Flow.HandleInteraction | test.py:85-88 | No contract of its own. It is specified by `FlowProperties.FinishedTalksToAssistant` and by the rule lemmas of `Flow.ProcessQuestionnaire`; `FlowProperties.OtherUsersUntouched`, `FlowProperties.HistoryOnlyGrows`, `FlowProperties.RenderExactlyOnFinish`, `FlowProperties.FlowNeverDropped` and `FlowProperties.InvPreserved` hold of every call. |
| Flow.Serve | test.py:76-88 | No contract of its own: the service handling arrivals from any users in order. It is specified by `FlowProperties.ServeKeepsInv`, `FlowProperties.ServeKeepsFinished` and `FlowProperties.RunIsServe`. |
| FlowProperties.FinishedTalksToAssistant | test.py:85-88 | A finished user's every message goes to the assistant handler unchanged. |
| FlowProperties.DigressionGoesToAssistant | test.py:91-93 | A `?` message from a user who has not finished raises the flag and then goes to the assistant, whether or not the user has a flow. |
| FlowProperties.SolvedResumesQuestion | test.py:94-100 | "solved" with the flag up clears the flag and re-sends the outstanding question. The state stays on that question, the result is `Asking question: ` plus the prompt or the send failure, and nothing else changes. |
| FlowProperties.CommandsDiffer | test.py:94-104 | No message matches both "solved" and "start report". |
| FlowProperties.StartReportRestarts | test.py:104-107 | "start report" sends the DNI prompt and changes nothing else. The state becomes `dni` when the send succeeds and stays `start` when it fails. Answers and flags are kept. |
| FlowProperties.NoFlowAsksForStart | test.py:94-118 | Any other message from a user without a flow returns the restart instruction and calls no collaborator. A live "solved" also drops the flag. |
| FlowProperties.RouteToAnswer | test.py:109-113 | An ordinary message from a user on a question is handled by `process_answer` for the current key. |
| FlowProperties.AnswerRecords | test.py:202-204 | The answer is stored verbatim under the current key, replacing any earlier one. Flags and histories are untouched. |
| FlowProperties.AnswerMoves | test.py:206-216 | After an answer the state is the successor key, whether or not the next prompt is delivered. |
| FlowProperties.AnswerCalls | test.py:209-216 | An answer makes exactly these calls: either the next prompt, or the closing message followed by the report rendering and the notification. |
| FlowProperties.RendersAppend | test.py:194 | The renderings of two logs put together add up. |
| FlowProperties.NoRenders | test.py:194 | A log with no rendering call counts zero renderings. |
| FlowProperties.AnswerRenders | test.py:209-214 | An answer renders the report exactly when it answers the last question, and then exactly once. |
| FlowProperties.AnswerAdvances | test.py:109-116 | An ordinary answer to a question other than the last one stores the answer and sends the next prompt. The state becomes that question, whatever the send returns. |
| FlowProperties.LastAnswerRendersReport | test.py:207-214 | The answer to the last question sends the closing message and renders the report from the answers. It notifies the user, finishes the flow and returns `Summary PDF generated.` |
| FlowProperties.LlamaKeepsFlow | test.py:120-155 | An assistant turn changes neither states, answers nor flags. |
| FlowProperties.LlamaAsks | test.py:127-138 | The model is asked with the stored history followed by the user's message. When the history is absent or empty, a fresh seed is used in its place. |
| FlowProperties.LlamaReplyAppendsTurn | test.py:136-150 | When the model does not raise, the stored history (or the fresh seed) is stored with the user's and the assistant's records appended, and no other history changes. The calls are exactly the model call with the history up to the user's record, then the send of the reply. The result is the reply or the send failure. |
| FlowProperties.NonStringReplyApologises | test.py:140 | A reply that is not a string is replaced by the apology, which is stored and sent. |
| FlowProperties.LlamaRaiseKeepsContext | test.py:127-153 | When the model raises, nothing is sent and the result is the model error. A history that was already stored keeps the user's record. A history that was not yet stored stays absent. |
| FlowProperties.LlamaRenders | test.py:120-155 | An assistant turn renders no report. |
| FlowProperties.LlamaKeepsSeeded | test.py:127-144 | An assistant turn keeps every stored history seeded: the script first, then a second system record, then no further system record. |
| FlowProperties.AnswerKeeps | test.py:201-219 | An answer leaves every other user's entries as they were. |
| FlowProperties.LlamaKeeps | test.py:120-155 | An assistant turn leaves every other user's entries as they were. |
| FlowProperties.OtherUsersUntouched | test.py:85-219 | A message from one user leaves every other user's state, answers, flag and history as they were. |
| FlowProperties.HistoryOnlyGrows | test.py:127-144 | A stored history is never removed and only grows at its end. |
| FlowProperties.SendRendersNothing | test.py:171 | Adding a send to a log adds no rendering. |
| FlowProperties.RenderExactlyOnFinish | test.py:85-219 | A message only appends to the call log. It adds one rendering when it moves the user onto `finish`, and none otherwise. |
| FlowProperties.FlowNeverDropped | test.py:85-219 | A user with a flow keeps one after any message, and a finished user stays finished. |
| FlowProperties.AnswerKeepsNoFinalAnswer | test.py:201-219 | An answer never stores anything under `finish`. |
| FlowProperties.InvPreserved | test.py:85-219 | Every message keeps the invariant: no answer is stored under `finish`, and every stored history is seeded. |
| FlowProperties.EmptyInv | test.py:51-55 | The empty start-up dictionaries satisfy the invariant and hold no rendering. |
| FlowProperties.RunKeepsInv | test.py:85-219 | Any sequence of one user's messages keeps the invariant. |
| FlowProperties.RunIsServe | test.py:85-88 | Handling one user's messages in turn is the same as serving them tagged with that user as sender. |
| FlowProperties.ServeKeepsInv | test.py:85-219 | Any sequence of messages from any users, in any interleaving, keeps the invariant. |
| FlowProperties.ServeKeepsFinished | test.py:85-88 | A finished user stays finished over any sequence of messages from any users, in any interleaving. |
| FlowProperties.FinishIsAbsorbing | test.py:85-88 | Once a user has finished, no sequence of that user's messages takes them back to the questionnaire. |
| FlowProperties.RunRendersAtMostOnce | test.py:179-214 | Any sequence of a user's messages only appends to the call log. It adds one rendering if it finishes a user who had not finished, and none otherwise. |
| Server.Engine.constructor | test.py:51-55 | At start-up every dictionary is empty and no call has been made. |
| Server.Engine.AskQuestion | test.py:170-177 | The method's state and result are those of `ask_question`: the prompt is sent, and the state moves only when the send succeeds. |
| Server.Engine.PrepareSummary | test.py:179-199 | The method's state and result are those of `prepare_summary`: it renders the field map and then notifies the user. |
| Server.Engine.ProcessAnswer | test.py:201-219 | The method's state and result are those of `process_answer`. |
| Server.Engine.HandleLlama | test.py:120-155 | The method's state and result are those of `handle_llama_interaction`, including the list extended in place. |
| Server.Engine.ProcessQuestionnaire | test.py:90-118 | The method's state and result are those of `process_questionnaire`. |
| Server.Engine.HandleInteraction | test.py:85-88 | The method's state and result are those of `handle_interaction`, and it keeps the invariant. |
| Scenarios.AnswerStep | test.py:109-116 | One plain answer moves the user to the next question. |
| Scenarios.LastAnswer | test.py:207-214 | The last plain answer finishes the flow with the answer stored. |
| Scenarios.AnswersFinish | test.py:201-216 | From any question, one plain answer per remaining question finishes the flow and stores each answer under its key. |
| Scenarios.StartStep | test.py:104-107 | A first message "start report" puts a new user on the DNI question. |
| Scenarios.FullQuestionnaire | test.py:104-216 | "start report" followed by six plain answers finishes the user, with exactly those six answers stored under DNI to current medication. The report gives `start` and `finish` as not provided. |
| Scenarios.QuestionnaireRendersOnce | test.py:179-214 | Over a complete questionnaire the report is rendered exactly once. |
| Scenarios.DigressionThenSolved | test.py:91-100 | A question in the middle of the questionnaire, then "solved", leaves states, answers and flags as they were. The last call re-sends the outstanding prompt. |
| Scenarios.NewcomerIsToldToStart | test.py:109-118 | A first message from someone who never started, neither a question nor "start report", gets the instruction to start and leaves the service exactly as it was: no state, no answers, no call. |
| Scenarios.UndeliveredStartAnswersStart | test.py:104-113 | After "start report" whose DNI prompt is not delivered, the next plain message is stored under `start`, the report shows it there, and the user is back on DNI. |
| FlowProperties.FailedSendReportsStatus | test.py:172-174 | A failed send answers 500 with a body that opens with the fixed failure text and ends with the status, readable as that number. |
| FlowProperties.ResponseDeterminesOutcome | test.py:148-155 | Two outcomes with the same status code and body are the same outcome: a text, a failed send with its status, or a model error with its message. |

## Left out

- The WhatsApp client (`test.py:12-39`) is left out: the HTTP request, its headers and the API address. Its returned status is an input. An exception raised by the request is not modelled.
- The Flask route `msgrcvd` (`test.py:76-83`) is left out: reading the query parameters and the 400 reply to an empty message. `HandleInteraction` is the entry point.
- The Replicate model set-up (`test.py:41-47`) is left out. What `llm.invoke` does is an input, and the call is recorded with the history it receives.
- `pdfdesign.generate_pdf` is not part of this model. The call is recorded with its field map, file name and title.
- `FlowProperties.LastAnswerRendersReport`: the renderer is assumed to return. In `pdfdesign.py`, `generate_pdf` ends by calling itself unconditionally (`pdfdesign.py:84`), so in the running service that call never returns normally. The last answer then ends in an uncaught exception with the answer stored and the state already `finish` (`test.py:204-208`). The notification (`test.py:197`) and the result "Summary PDF generated." (`test.py:199`) are never reached. This holds equally for `Server.Engine.PrepareSummary`, `FlowProperties.AnswerCalls`, `FlowProperties.AnswerRenders` and `Scenarios.FullQuestionnaire`.
- The console output (`print`), environment variables and `.env` loading are left out, because they do not affect the state or the results.
- `Strings.LowerIsLower`: lower-casing covers ASCII letters only. This is exact for the two comparisons the route makes. Under Unicode lower-casing the only character outside ASCII whose lower case is all ASCII is the Kelvin sign, which becomes `k`, and neither "solved" nor "start report" contains `k`. ("İ" becomes `i` followed by a combining dot, which no token contains.)
- `user_interactions` is modelled as a set of users, because the only value ever stored in it is `'question'`.
- States are typed by the eight keys. Two paths in the source cannot be reached through the route: the `ValueError` path of `get_next_question` (a state outside `state_order`), and the falsy-state branch of `test.py:98-102`. The model keeps the second as a branch on an empty key name, which no key has.
- `Server.Engine.PrepareSummary`: the status of the notification send is ignored, as in the source. The status input only decides the result of the one send a handler inspects.
- Concurrency between requests is left out: each message is handled atomically.
