/**
 * The conversation engine as a specification over values: every handler of
 * the message route is a function from the engine's state (the four per-user
 * dictionaries plus the log of external calls made so far) and the outcomes
 * of those calls to the new state and the handler's result.
 *
 * The texts come from a `Texts` value `t` (module Wording); external
 * collaborators enter as inputs: `status` is what the one message
 * send whose result the handler inspects returns (200 is success), `reply`
 * is what the language model does when invoked. Every call to a collaborator
 * is appended to `calls`, in the order the handler makes it.
 */
module Flow {
  import opened Strings
  import opened Script
  import opened Wording

  datatype Role = System | User | Assistant

  /** One `{"role": ..., "content": ...}` entry of a conversation history. */
  datatype Record = Record(role: Role, content: string)

  /** A call made to a collaborator. */
  datatype Call =
    | Send(text: string, to: string)                                  // send_text_message
    | GeneratePdf(fields: map<Key, string>, fileName: string, title: string)  // generate_pdf
    | Invoke(history: seq<Record>)                                     // llm.invoke

  /** What `llm.invoke` does: raise, return a string, or return something else. */
  datatype OracleResult = Raises(error: string) | Returns(text: string) | ReturnsNonString

  /** A handler's result: a plain text, or one of the two `(text, 500)` errors. */
  datatype Outcome = Text(text: string) | SendFailed(status: int) | LlamaFailed(error: string)
  {
    /** The HTTP status of the response. */
    function Code(): int {
      if Text? then 200 else 500
    }

    /** The body of the response. */
    function Body(): string {
      match this
      case Text(t) => t
      case SendFailed(s) => SendFailurePrefix + IntToString(s)
      case LlamaFailed(e) => LlamaFailurePrefix + e
    }
  }

  /** The fixed openings of the two error bodies. */
  const SendFailurePrefix: string := "Failed to send WhatsApp message: HTTP "
  const LlamaFailurePrefix: string := "Error processing message with LLaMA: "

  /** The module-level dictionaries of the service and the call log. */
  datatype Store = Store(
    pending: set<string>,                        // user_interactions (value 'question')
    states: map<string, Key>,                    // user_states
    responses: map<string, map<Key, string>>,    // user_responses
    history: map<string, seq<Record>>,           // conversation_history
    calls: seq<Call>)

  datatype Step = Step(store: Store, out: Outcome)

  const Empty: Store := Store({}, map[], map[], map[], [])

  const Success: int := 200

  /** `user_responses.get(user, {})`. */
  function Answers(s: Store, user: string): map<Key, string> {
    if user in s.responses then s.responses[user] else map[]
  }

  function ReportFileName(user: string): string {
    "Medical_Report_" + user + ".pdf"
  }

  /** The two system records a history is seeded with. */
  function Seed(t: Texts, answers: map<Key, string>): seq<Record> {
    [Record(System, t.script), Record(System, FormatResponses(answers))]
  }

  /** `questions_dict.get(key, "Could not find the previous question.")`. */
  function PromptOr(t: Texts, key: Key): string {
    if key in t.questions then t.questions[key] else t.missingQuestion
  }

  /** `ask_question((key, text), user)`. */
  function AskQuestion(t: Texts, s: Store, key: Key, text: string, user: string, status: int): Step {
    var sent := s.(calls := s.calls + [Send(text, user)]);
    if status != Success then Step(sent, SendFailed(status))
    else Step(sent.(states := sent.states[user := key]), Text(t.asking + text))
  }

  /** `prepare_summary(user)`: render the report, then notify (status ignored). */
  function PrepareSummary(t: Texts, s: Store, user: string): Step {
    var render := GeneratePdf(SummaryFields(Answers(s, user)), ReportFileName(user), t.reportTitle);
    Step(s.(calls := s.calls + [render, Send(t.notification, user)]), Text(t.summaryDone))
  }

  /** `process_answer(answer, current, user)`. */
  function ProcessAnswer(t: Texts, s: Store, answer: string, current: Key, user: string, status: int): Step
    requires Complete(t)
  {
    var recorded := s.(responses := s.responses[user := Answers(s, user)[current := answer]]);
    match NextQuestion(current)
    case None => Step(recorded.(states := recorded.states - {user}), Text(t.unexpectedEnd))
    case Some(next) =>
      var advanced := recorded.(states := recorded.states[user := next]);
      if next == Finish then
        var told := advanced.(calls := advanced.calls + [Send(t.questions[Finish], user)]);
        var summary := PrepareSummary(t, told, user);
        Step(summary.store.(states := summary.store.states[user := Finish]), summary.out)
      else
        AskQuestion(t, advanced, next, t.questions[next], user, status)
  }

  /**
   * `handle_llama_interaction(msg, user)`. The stored history list is
   * extended in place, so the seed and the user's record stay stored even
   * when the model raises, provided a history was stored before; a history
   * that was not stored yet is stored only once the model has replied.
   */
  function HandleLlama(t: Texts, s: Store, msg: string, user: string, reply: OracleResult, status: int): Step {
    var stored := user in s.history;
    var before := if stored then s.history[user] else [];
    var asked := (if before == [] then Seed(t, Answers(s, user)) else before) + [Record(User, msg)];
    var invoked := s.(calls := s.calls + [Invoke(asked)]);
    match reply
    case Raises(e) =>
      Step(if stored then invoked.(history := invoked.history[user := asked]) else invoked, LlamaFailed(e))
    case _ =>
      var answer := if reply.Returns? then reply.text else t.apology;
      var kept := invoked.(history := invoked.history[user := asked + [Record(Assistant, answer)]],
                           calls := invoked.calls + [Send(answer, user)]);
      if status != Success then Step(kept, SendFailed(status)) else Step(kept, Text(answer))
  }

  /** `process_questionnaire(msg, user)`. */
  function ProcessQuestionnaire(t: Texts, s: Store, msg: string, user: string, reply: OracleResult, status: int): Step
    requires Complete(t)
  {
    if Asks(msg) then
      HandleLlama(t, s.(pending := s.pending + {user}), msg, user, reply, status)
    else
      var solved := LowerIs(msg, "solved") && user in s.pending;
      var s1 := if solved then s.(pending := s.pending - {user}) else s;
      if solved && user in s.states then
        var current := s.states[user];
        if Name(current) != "" then AskQuestion(t, s1, current, PromptOr(t, current), user, status)
        else Step(s1, Text(t.restartAfterError))
      else if LowerIs(msg, "start report") then
        var next := NextQuestion(Start).value;
        AskQuestion(t, s1.(states := s1.states[user := Start]), next, t.questions[next], user, status)
      else if user in s1.states then
        var current := s1.states[user];
        if NextQuestion(current).Some? then ProcessAnswer(t, s1, msg, current, user, status)
        else Step(s1.(states := s1.states - {user}), Text(t.reportCompleted))
      else
        Step(s1, Text(t.restart))
  }

  /** `handle_interaction(msg, user)`: a finished user talks to the assistant. */
  function HandleInteraction(t: Texts, s: Store, msg: string, user: string, reply: OracleResult, status: int): Step
    requires Complete(t)
  {
    if user !in s.states || s.states[user] != Finish then ProcessQuestionnaire(t, s, msg, user, reply, status)
    else HandleLlama(t, s, msg, user, reply, status)
  }

  /** One inbound message of a user together with what its collaborators do. */
  datatype Input = Input(msg: string, reply: OracleResult, status: int)

  /** The state after a user's messages are handled one after another. */
  function Run(t: Texts, s: Store, user: string, inputs: seq<Input>): Store
    requires Complete(t)
    decreases |inputs|
  {
    if inputs == [] then s
    else
      var i := inputs[0];
      Run(t, HandleInteraction(t, s, i.msg, user, i.reply, i.status).store, user, inputs[1..])
  }

  /**
   * The state after messages from any users, each tagged with its sender,
   * are handled in arrival order: the service as a whole.
   */
  function Serve(t: Texts, s: Store, arrivals: seq<(string, Input)>): Store
    requires Complete(t)
    decreases |arrivals|
  {
    if arrivals == [] then s
    else
      var (user, i) := arrivals[0];
      Serve(t, HandleInteraction(t, s, i.msg, user, i.reply, i.status).store, arrivals[1..])
  }

  /** One user's messages, tagged with that user as sender. */
  function From(user: string, inputs: seq<Input>): (r: seq<(string, Input)>)
    ensures |r| == |inputs| && forall j :: 0 <= j < |inputs| ==> r[j] == (user, inputs[j])
  {
    seq(|inputs|, j requires 0 <= j < |inputs| => (user, inputs[j]))
  }

  /** How many report renderings a call log holds. */
  function Renders(calls: seq<Call>): nat {
    if calls == [] then 0 else (if calls[0].GeneratePdf? then 1 else 0) + Renders(calls[1..])
  }

  // ---------------------------------------------------------------------
  // Invariants the route keeps.
  // ---------------------------------------------------------------------

  /** No answer is ever stored under the last key. */
  ghost predicate NoFinalAnswer(s: Store) {
    forall u, k :: u in s.responses && k in s.responses[u] ==> k != Finish
  }

  /**
   * A stored history starts with the assistant script and one more system
   * record (the answer snapshot), and holds no other system record.
   */
  ghost predicate Seeded(t: Texts, h: seq<Record>) {
    && |h| >= 3
    && h[0] == Record(System, t.script)
    && h[1].role == System
    && forall i :: 2 <= i < |h| ==> h[i].role != System
  }

  ghost predicate HistoriesSeeded(t: Texts, s: Store) {
    forall u :: u in s.history ==> Seeded(t, s.history[u])
  }

  ghost predicate Inv(t: Texts, s: Store) {
    NoFinalAnswer(s) && HistoriesSeeded(t, s)
  }
}
